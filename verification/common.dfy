/**
 * The plain surface registry: the tracked layer surfaces and xdg windows, the
 * configure handlers that find the configured surface by identity and attach
 * a freshly painted shared-memory buffer to it, and the textual window list.
 *
 * Compositor objects are identified by the identity of their `wl_surface`;
 * the requests sent to the compositor and to the input state are appended to
 * a ghost request log.
 */
module Registry {
  import opened Ints
  import opened Wrappers

  // ---------------------------------------------------------------------------
  // Tracked windows
  // ---------------------------------------------------------------------------

  /** The identity of a `wl_surface` (the pointer the source compares). */
  type SurfaceId = nat

  /** A cursor theme handle; only its presence matters here. */
  type PointerHandle = nat

  /** What a tracked window wraps: a layer surface or an xdg toplevel, each on its own `wl_surface`. */
  datatype WindowKind = LayerSurface(surface: SurfaceId) | Window(surface: SurfaceId)

  /** A shared-memory buffer: its pixel size, its row stride in bytes and the bytes it maps. */
  datatype Buffer = Buffer(width: u32, height: u32, stride: int, canvas: array<bv8>)

  /** `WaylandWindow`: one tracked surface with its size, scale, pointer theme and attached buffer. */
  datatype WaylandWindow = WaylandWindow(
    width: u32,
    height: u32,
    scaleFactor: i32,
    themedPointer: Option<PointerHandle>,
    kind: WindowKind,
    buffer: Option<Buffer>)

  /** The shared-memory pool buffers are carved from; only its initial size is modelled. */
  datatype SlotPool = SlotPool(size: nat)

  /** Requests sent to the compositor or to the input state, in order. */
  datatype Request =
    | SetScreenSize(width: u32, height: u32)
    | CreatePool(size: nat)
    | CreateBuffer(width: u32, height: u32, stride: int)
    | DamageBuffer(surface: SurfaceId, width: u32, height: u32)
    | RequestFrame(surface: SurfaceId)
    | Attach(surface: SurfaceId)
    | Commit(surface: SurfaceId)

  /** A window as created: 256×256 at scale 1, with no pointer theme and no buffer. */
  function NewWindow(kind: WindowKind): (w: WaylandWindow)
    ensures w.kind == kind && w.width == 256 && w.height == 256 && w.scaleFactor == 1
    ensures w.themedPointer.None? && w.buffer.None?
  {
    WaylandWindow(256, 256, 1, Option.None, kind, Option.None)
  }

  /**
   * The index of the first window of exactly this kind on exactly this
   * surface, if any: every earlier window is another kind or another surface.
   */
  function FirstMatch(windows: seq<WaylandWindow>, kind: WindowKind): (r: Option<nat>)
    ensures r.Some? ==> r.value < |windows| && windows[r.value].kind == kind
    ensures r.Some? ==> forall j :: 0 <= j < r.value ==> windows[j].kind != kind
    ensures r.None? ==> forall j :: 0 <= j < |windows| ==> windows[j].kind != kind
  {
    if |windows| == 0 then Option.None
    else if windows[0].kind == kind then Some(0)
    else
      match FirstMatch(windows[1..], kind)
      case Some(i) => Some(i + 1)
      case None => Option.None
  }

  // ---------------------------------------------------------------------------
  // The painted buffer
  // ---------------------------------------------------------------------------

  /** One pixel in little-endian ARGB byte order: blue, green, red, alpha. */
  const PIXEL: seq<bv8> := [0x30, 0x80, 0xC0, 0xFF]

  /** A canvas of whole pixels, every one of them `PIXEL`. */
  predicate IsSolid(bytes: seq<bv8>)
  {
    |bytes| % 4 == 0 && forall k :: 0 <= k < |bytes| ==> bytes[k] == PIXEL[k % 4]
  }

  /** The 32-bit ARGB value four little-endian bytes encode. */
  function Argb(b0: bv8, b1: bv8, b2: bv8, b3: bv8): (r: int)
    ensures 0 <= r < U32_LIMIT
  {
    b0 as int + 0x100 * b1 as int + 0x1_0000 * b2 as int + 0x100_0000 * b3 as int
  }

  /** Every pixel of a solid canvas reads as the opaque colour 0xFFC08030 (alpha 0xFF, red 0xC0, green 0x80, blue 0x30). */
  lemma SolidPixelsAreOpaque(bytes: seq<bv8>, p: nat)
    requires IsSolid(bytes) && 4 * p + 4 <= |bytes|
    ensures Argb(bytes[4 * p], bytes[4 * p + 1], bytes[4 * p + 2], bytes[4 * p + 3]) == 0xFFC0_8030
    ensures bytes[4 * p + 3] == 0xFF
  {
    assert (4 * p) % 4 == 0 && (4 * p + 1) % 4 == 1 && (4 * p + 2) % 4 == 2 && (4 * p + 3) % 4 == 3;
    assert bytes[4 * p] == 0x30 && bytes[4 * p + 1] == 0x80;
    assert bytes[4 * p + 2] == 0xC0 && bytes[4 * p + 3] == 0xFF;
  }

  /**
   * Paints the canvas chunk by chunk: every whole 4-byte chunk becomes
   * `PIXEL`, and the bytes of a trailing partial chunk are left alone.
   */
  method FillCanvas(canvas: array<bv8>)
    modifies canvas
    ensures forall k :: 0 <= k < canvas.Length / 4 * 4 ==> canvas[k] == PIXEL[k % 4]
    ensures forall k :: canvas.Length / 4 * 4 <= k < canvas.Length ==> canvas[k] == old(canvas[k])
    ensures canvas.Length % 4 == 0 ==> IsSolid(canvas[..])
  {
    var chunks := canvas.Length / 4;
    var c := 0;
    while c < chunks
      invariant 0 <= c <= chunks
      invariant forall k :: 0 <= k < 4 * c ==> canvas[k] == PIXEL[k % 4]
      invariant forall k :: 4 * c <= k < canvas.Length ==> canvas[k] == old(canvas[k])
    {
      canvas[4 * c] := 0x30;
      canvas[4 * c + 1] := 0x80;
      canvas[4 * c + 2] := 0xC0;
      canvas[4 * c + 3] := 0xFF;
      c := c + 1;
    }
  }

  /** The pool after a configure: created with room for one `w`×`h` ARGB buffer when absent, reused otherwise. */
  function PoolAfter(pool: Option<SlotPool>, w: u32, h: u32): (r: Option<SlotPool>)
    ensures r.Some?
    ensures pool.Some? ==> r == pool
    ensures pool.None? ==> r.value.size == w * h * 4
  {
    if pool.None? then Some(SlotPool(w * h * 4)) else pool
  }

  /**
   * The requests one configure of surface `s` to `w`×`h` sends, in order:
   * the screen size, the pool if there is none yet, the buffer, then damage,
   * frame callback, attach and commit.
   */
  function ConfigureRequests(s: SurfaceId, pool: Option<SlotPool>, w: u32, h: u32): (r: seq<Request>)
    ensures |r| >= 6 && r[0] == SetScreenSize(w, h)
    ensures (exists k :: 0 <= k < |r| && r[k].CreatePool?) <==> pool.None?
    ensures r[|r| - 5..] == [CreateBuffer(w, h, w * 4), DamageBuffer(s, w, h), RequestFrame(s), Attach(s), Commit(s)]
  {
    var creation := if pool.None? then [CreatePool(w * h * 4)] else [];
    var r := [SetScreenSize(w, h)] + creation
      + [CreateBuffer(w, h, w * 4), DamageBuffer(s, w, h), RequestFrame(s), Attach(s), Commit(s)];
    assert pool.None? ==> r[1].CreatePool?;
    r
  }

  /** `after` is `before` configured to `w`×`h` with a solid `w`×`h` buffer of stride `4w`; nothing else about it changed. */
  ghost predicate ConfiguredAs(before: WaylandWindow, after: WaylandWindow, w: u32, h: u32)
    reads if after.buffer.Some? then {after.buffer.value.canvas} else {}
  {
    && after.kind == before.kind
    && after.width == w && after.height == h
    && after.scaleFactor == before.scaleFactor && after.themedPointer == before.themedPointer
    && after.buffer.Some?
    && var b := after.buffer.value;
       && b.width == w && b.height == h && b.stride == w * 4
       && b.canvas.Length == b.stride * h
       && IsSolid(b.canvas[..])
  }

  lemma MultipleOfFour(w: nat, h: nat)
    ensures (w * 4 * h) % 4 == 0
  {
    assert w * 4 * h == 4 * (w * h);
  }

  // ---------------------------------------------------------------------------
  // The window list
  // ---------------------------------------------------------------------------

  predicate IsDigit(c: char)
  {
    '0' <= c <= '9'
  }

  predicate AllDigits(s: string)
  {
    forall k :: 0 <= k < |s| ==> IsDigit(s[k])
  }

  /** The decimal digit for `d`. */
  function DigitChar(d: nat): (c: char)
    requires d < 10
    ensures IsDigit(c) && c as int - '0' as int == d
  {
    ('0' as int + d) as char
  }

  /** The decimal notation of `n`, as Rust's `Display` writes it: no sign, no leading zeros. */
  function NatToString(n: nat): (s: string)
    ensures |s| >= 1 && AllDigits(s)
    ensures n >= 10 ==> s[0] != '0'
    decreases n
  {
    if n < 10 then [DigitChar(n)] else NatToString(n / 10) + [DigitChar(n % 10)]
  }

  /** The number a string of decimal digits denotes. */
  function DigitsValue(s: string): nat
    requires AllDigits(s)
  {
    if |s| == 0 then 0
    else DigitsValue(s[..|s| - 1]) * 10 + (s[|s| - 1] as int - '0' as int)
  }

  /** Reading back the decimal notation of `n` gives `n`. */
  lemma {:induction false} NatToStringRoundTrip(n: nat)
    ensures DigitsValue(NatToString(n)) == n
    decreases n
  {
    if n >= 10 {
      var s := NatToString(n);
      assert s[..|s| - 1] == NatToString(n / 10);
      NatToStringRoundTrip(n / 10);
    }
  }

  /** The longest prefix of `s` made of decimal digits. */
  function LeadingDigits(s: string): (r: string)
    ensures AllDigits(r) && |r| <= |s| && r == s[..|r|]
  {
    if |s| == 0 || !IsDigit(s[0]) then [] else [s[0]] + LeadingDigits(s[1..])
  }

  /** The digits in front of a non-digit are exactly the leading digits. */
  lemma {:induction false} LeadingDigitsOfPrefix(digits: string, rest: string)
    requires AllDigits(digits) && |rest| > 0 && !IsDigit(rest[0])
    ensures LeadingDigits(digits + rest) == digits
  {
    if |digits| > 0 {
      assert (digits + rest)[1..] == digits[1..] + rest;
      LeadingDigitsOfPrefix(digits[1..], rest);
    } else {
      assert digits + rest == rest;
    }
  }

  /** The label of a window kind in the list. */
  function KindLabel(kind: WindowKind): string
  {
    match kind
    case LayerSurface(_) => "LayerSurface"
    case Window(_) => "XDG Window"
  }

  /** What follows the index in an entry: the kind and the size, as `": <kind> (<w>x<h>)"`. */
  function EntryDetails(w: WaylandWindow): (r: string)
    ensures |r| > 0 && r[0] == ':'
  {
    ": " + KindLabel(w.kind) + " (" + NatToString(w.width) + "x" + NatToString(w.height) + ")"
  }

  /** The list entry of the window at index `i`. */
  function Entry(i: nat, w: WaylandWindow): string
  {
    NatToString(i) + EntryDetails(w)
  }

  /** The index an entry is tagged with: the number its leading digits denote. */
  function IndexOfEntry(entry: string): nat
  {
    DigitsValue(LeadingDigits(entry))
  }

  /** Every entry is tagged with its own index, and can be traced back to it. */
  lemma EntryIndexRoundTrip(i: nat, w: WaylandWindow)
    ensures IndexOfEntry(Entry(i, w)) == i
  {
    LeadingDigitsOfPrefix(NatToString(i), EntryDetails(w));
    NatToStringRoundTrip(i);
  }

  /** Entries at different indices are different, whatever the windows. */
  lemma EntriesDistinct(i: nat, j: nat, w: WaylandWindow, w': WaylandWindow)
    requires i != j
    ensures Entry(i, w) != Entry(j, w')
  {
    EntryIndexRoundTrip(i, w);
    EntryIndexRoundTrip(j, w');
  }

  // ---------------------------------------------------------------------------
  // The registry
  // ---------------------------------------------------------------------------

  /** `Application`: the tracked windows in creation order, the shared pool once created, and the request log. */
  class Application {
    var windows: seq<WaylandWindow>
    var pool: Option<SlotPool>
    ghost var requests: seq<Request>

    /** An empty registry with no pool. */
    constructor ()
      ensures windows == [] && pool == Option.None && requests == []
    {
      windows := [];
      pool := Option.None;
      requests := [];
    }

    /** Tracks a new layer surface on `surface`: one 256×256 window appended, the others unchanged. */
    method CreateLayerSurface(surface: SurfaceId)
      modifies this
      ensures windows == old(windows) + [NewWindow(LayerSurface(surface))]
      ensures pool == old(pool) && requests == old(requests)
    {
      windows := windows + [WaylandWindow(256, 256, 1, Option.None, LayerSurface(surface), Option.None)];
    }

    /** Tracks a new xdg window on `surface`: one 256×256 window appended, the others unchanged. */
    method CreateXdgWindow(surface: SurfaceId)
      modifies this
      ensures windows == old(windows) + [NewWindow(Window(surface))]
      ensures pool == old(pool) && requests == old(requests)
    {
      windows := windows + [WaylandWindow(256, 256, 1, Option.None, Window(surface), Option.None)];
    }

    /** One entry per tracked window, in index order, each tagged with its index, kind and size. */
    function ListWindows(): (r: seq<string>)
      reads this
      ensures |r| == |windows|
      ensures forall i :: 0 <= i < |r| ==> r[i] == Entry(i, windows[i])
    {
      var ws := windows;
      seq(|ws|, i requires 0 <= i < |ws| => Entry(i, ws[i]))
    }

    /**
     * Closes the window at `index` if there is one: exactly that window is
     * removed and the rest keep their order; otherwise nothing changes.
     */
    method CloseWindow(index: nat) returns (r: Option<()>)
      modifies this
      ensures index < |old(windows)| ==>
                && r == Some(())
                && |windows| == |old(windows)| - 1
                && (forall j :: 0 <= j < index ==> windows[j] == old(windows)[j])
                && (forall j :: index <= j < |windows| ==> windows[j] == old(windows)[j + 1])
      ensures index >= |old(windows)| ==> r == Option.None && windows == old(windows)
      ensures pool == old(pool) && requests == old(requests)
    {
      if index < |windows| {
        windows := windows[..index] + windows[index + 1..];
        r := Some(());
      } else {
        r := Option.None;
      }
    }

    /**
     * Gives the window at `i` its new size and a freshly painted buffer,
     * creating the pool first if needed, and sends the requests that show
     * the buffer on `surface`.
     */
    method AttachSolidBuffer(i: nat, surface: SurfaceId, w: u32, h: u32)
      requires i < |windows|
      modifies this
      ensures |windows| == |old(windows)|
      ensures forall j :: 0 <= j < |windows| && j != i ==> windows[j] == old(windows)[j]
      ensures ConfiguredAs(old(windows)[i], windows[i], w, h) && fresh(windows[i].buffer.value.canvas)
      ensures pool == PoolAfter(old(pool), w, h)
      ensures requests == old(requests) + ConfigureRequests(surface, old(pool), w, h)
    {
      var win := windows[i].(width := w, height := h);
      windows := windows[i := win];
      requests := requests + [SetScreenSize(w, h)];
      if pool.None? {
        var size := w * h * 4;
        pool := Some(SlotPool(size));
        requests := requests + [CreatePool(size)];
      }
      var stride := w * 4;
      requests := requests + [CreateBuffer(w, h, stride)];
      var canvas := new bv8[stride * h];
      MultipleOfFour(w, h);
      FillCanvas(canvas);
      requests := requests + [DamageBuffer(surface, w, h), RequestFrame(surface), Attach(surface), Commit(surface)];
      windows := windows[i := win.(buffer := Some(Buffer(w, h, stride, canvas)))];
    }

    /**
     * Configures the first window of kind `kind` (same kind, same surface):
     * that window alone is resized and gets a new buffer; with no such window
     * nothing changes at all.
     */
    method ConfigureFirst(kind: WindowKind, w: u32, h: u32)
      modifies this
      ensures var m := FirstMatch(old(windows), kind);
              && (m.None? ==> windows == old(windows) && pool == old(pool) && requests == old(requests))
              && (m.Some? ==>
                    && |windows| == |old(windows)|
                    && (forall j :: 0 <= j < |windows| && j != m.value ==> windows[j] == old(windows)[j])
                    && ConfiguredAs(old(windows)[m.value], windows[m.value], w, h)
                    && fresh(windows[m.value].buffer.value.canvas)
                    && pool == PoolAfter(old(pool), w, h)
                    && requests == old(requests) + ConfigureRequests(kind.surface, old(pool), w, h))
    {
      var i := 0;
      while i < |windows|
        invariant 0 <= i <= |windows|
        invariant windows == old(windows) && pool == old(pool) && requests == old(requests)
        invariant forall j :: 0 <= j < i ==> windows[j].kind != kind
      {
        if windows[i].kind == kind {
          AttachSolidBuffer(i, kind.surface, w, h);
          return;
        }
        i := i + 1;
      }
    }

    /** A layer-surface configure: the size is taken as given. */
    method ConfigureLayerSurface(surface: SurfaceId, newSize: (u32, u32))
      modifies this
      ensures var m := FirstMatch(old(windows), LayerSurface(surface));
              && (m.None? ==> windows == old(windows) && pool == old(pool) && requests == old(requests))
              && (m.Some? ==>
                    && |windows| == |old(windows)|
                    && (forall j :: 0 <= j < |windows| && j != m.value ==> windows[j] == old(windows)[j])
                    && ConfiguredAs(old(windows)[m.value], windows[m.value], newSize.0, newSize.1)
                    && fresh(windows[m.value].buffer.value.canvas)
                    && pool == PoolAfter(old(pool), newSize.0, newSize.1)
                    && requests == old(requests) + ConfigureRequests(surface, old(pool), newSize.0, newSize.1))
    {
      ConfigureFirst(LayerSurface(surface), newSize.0, newSize.1);
    }

    /** An xdg window configure: a size the compositor leaves open becomes 256. */
    method ConfigureWindow(surface: SurfaceId, newWidth: Option<u32>, newHeight: Option<u32>)
      requires newWidth.Some? ==> newWidth.value >= 1
      requires newHeight.Some? ==> newHeight.value >= 1
      modifies this
      ensures var w := if newWidth.Some? then newWidth.value else 256;
              var h := if newHeight.Some? then newHeight.value else 256;
              var m := FirstMatch(old(windows), Window(surface));
              && (m.None? ==> windows == old(windows) && pool == old(pool) && requests == old(requests))
              && (m.Some? ==>
                    && |windows| == |old(windows)|
                    && (forall j :: 0 <= j < |windows| && j != m.value ==> windows[j] == old(windows)[j])
                    && ConfiguredAs(old(windows)[m.value], windows[m.value], w, h)
                    && windows[m.value].width >= 1 && windows[m.value].height >= 1
                    && fresh(windows[m.value].buffer.value.canvas)
                    && pool == PoolAfter(old(pool), w, h)
                    && requests == old(requests) + ConfigureRequests(surface, old(pool), w, h))
    {
      var w := if newWidth.Some? then newWidth.value else 256;
      var h := if newHeight.Some? then newHeight.value else 256;
      ConfigureFirst(Window(surface), w, h);
    }
  }
}
