/**
 * The per-surface render and frame-pacing controller that hosts an iced UI on
 * a Wayland surface, and the four container kinds (window, layer surface,
 * popup, subsurface) that feed it their configure events.
 *
 * The GPU, the compositor and the iced UI tree are opaque collaborators:
 *  - the UI is three functions fixed at construction (`interact` runs one
 *    build-and-update pass, `redraw` rebuilds and draws after the app
 *    changed, `update` applies one message to the app);
 *  - what the controller asks of the GPU and the compositor is appended to a
 *    ghost effect log, so frame pacing becomes a statement about that log.
 */
module IcedContainers {
  import opened Ints
  import opened Wrappers
  import M = IcedMouse
  import E = IcedEvents
  import InputHandler

  // ---------------------------------------------------------------------------
  // Cursor shapes
  // ---------------------------------------------------------------------------

  /** The 34 shapes of version 1 of the Wayland cursor-shape protocol. */
  datatype Shape =
    | Default | ContextMenu | Help | Pointer | Progress | Wait | Cell | Crosshair
    | Text | VerticalText | Alias | Copy | Move | NoDrop | NotAllowed | Grab | Grabbing
    | EResize | NResize | NeResize | NwResize | SResize | SeResize | SwResize | WResize
    | EwResize | NsResize | NeswResize | NwseResize | ColResize | RowResize
    | AllScroll | ZoomIn | ZoomOut

  /**
   * The cursor shape requested for an iced interaction. Total; the three
   * interactions without a cursor of their own (Idle, None, Hidden) all fall
   * back to the default arrow.
   */
  function IcedToCursorShape(interaction: M.Interaction): (r: Shape)
    ensures r == Default <==>
              interaction == M.Idle || interaction == M.Interaction.None || interaction == M.Hidden
  {
    match interaction
    case Idle | None => Default
    case Pointer => Pointer
    case Grab => Grab
    case Grabbing => Grabbing
    case Crosshair => Crosshair
    case Text => Text
    case NotAllowed => NotAllowed
    case ZoomIn => ZoomIn
    case ZoomOut => ZoomOut
    case Cell => Cell
    case Move => Move
    case Copy => Copy
    case NoDrop => NoDrop
    case Alias => Alias
    case ContextMenu => ContextMenu
    case Help => Help
    case AllScroll => AllScroll
    case Progress => Progress
    case Wait => Wait
    case ResizingHorizontally => EwResize
    case ResizingVertically => NsResize
    case Hidden => Default
    case ResizingDiagonallyUp => NeswResize
    case ResizingDiagonallyDown => NwseResize
    case ResizingColumn => ColResize
    case ResizingRow => RowResize
  }

  /** The interaction a shape is requested for (the idle arrow for the default shape and for shapes never requested). */
  function InteractionForShape(shape: Shape): (r: M.Interaction)
    ensures shape == Default ==> r == M.Idle
  {
    match shape
    case Pointer => M.Pointer
    case Grab => M.Grab
    case Grabbing => M.Grabbing
    case Crosshair => M.Crosshair
    case Text => M.Text
    case NotAllowed => M.NotAllowed
    case ZoomIn => M.ZoomIn
    case ZoomOut => M.ZoomOut
    case Cell => M.Cell
    case Move => M.Move
    case Copy => M.Copy
    case NoDrop => M.NoDrop
    case Alias => M.Alias
    case ContextMenu => M.ContextMenu
    case Help => M.Help
    case AllScroll => M.AllScroll
    case Progress => M.Progress
    case Wait => M.Wait
    case EwResize => M.ResizingHorizontally
    case NsResize => M.ResizingVertically
    case NeswResize => M.ResizingDiagonallyUp
    case NwseResize => M.ResizingDiagonallyDown
    case ColResize => M.ResizingColumn
    case RowResize => M.ResizingRow
    case _ => M.Idle
  }

  /** Every interaction with a cursor of its own can be read back from the shape requested for it. */
  lemma CursorShapeRoundTrip(interaction: M.Interaction)
    requires IcedToCursorShape(interaction) != Default
    ensures InteractionForShape(IcedToCursorShape(interaction)) == interaction
  {
  }

  /** Two different interactions share a shape only when both fall back to the default arrow. */
  lemma CursorShapeCollisions(a: M.Interaction, b: M.Interaction)
    requires a != b && IcedToCursorShape(a) == IcedToCursorShape(b)
    ensures IcedToCursorShape(a) == Default
  {
    if IcedToCursorShape(a) != Default {
      CursorShapeRoundTrip(a);
      CursorShapeRoundTrip(b);
    }
  }

  /** The shapes no interaction asks for: the vertical text beam and the eight single-edge resize arrows. */
  lemma UnusedShapes(interaction: M.Interaction)
    ensures IcedToCursorShape(interaction) !in
              {VerticalText, EResize, NResize, NeResize, NwResize, SResize, SeResize, SwResize, WResize}
  {
  }

  // ---------------------------------------------------------------------------
  // The opaque UI toolkit and the effect log
  // ---------------------------------------------------------------------------

  /** What a UI pass reports back: an up-to-date interaction, or that the UI is stale. */
  datatype UiState = Updated(interaction: M.Interaction) | Outdated

  /** One build-and-update pass: its state, the messages the widgets emitted, and the widget cache it leaves. */
  datatype UiPass<Msg, C> = UiPass(state: UiState, messages: seq<Msg>, cache: C)

  /** A viewport: the physical size in pixels and the integer scale applied to it. */
  datatype Viewport = Viewport(physicalWidth: u32, physicalHeight: u32, scale: u32)

  /** The surface configuration handed to the GPU (format, present mode and alpha mode are fixed and not modelled). */
  datatype SurfaceConfig = SurfaceConfig(width: u32, height: u32)

  /** Requests the controller makes of the GPU and the compositor, in order. */
  datatype Effect =
    | SetBufferScale(scale: i32)
    | ConfigureSurface(width: u32, height: u32)
    | AcquireTexture
    | SetCursor(shape: Shape)
    | Draw
    | Present
    | RequestFrame
    | Commit

  /** The result of applying `messages` to `app` one at a time, first message first. */
  function ApplyAll<A, Msg>(update: (A, Msg) -> A, app: A, messages: seq<Msg>): (r: A)
    ensures |messages| == 0 ==> r == app
    ensures |messages| == 1 ==> r == update(app, messages[0])
    decreases |messages|
  {
    if |messages| == 0 then app
    else update(ApplyAll(update, app, messages[..|messages| - 1]), messages[|messages| - 1])
  }

  /** Applying two batches in turn is applying their concatenation: messages are never reordered or merged. */
  lemma {:induction false} ApplyAllAppend<A, Msg>(update: (A, Msg) -> A, app: A, xs: seq<Msg>, ys: seq<Msg>)
    ensures ApplyAll(update, app, xs + ys) == ApplyAll(update, ApplyAll(update, app, xs), ys)
    decreases |ys|
  {
    if |ys| == 0 {
      assert xs + ys == xs;
    } else {
      var ys' := ys[..|ys| - 1];
      assert (xs + ys)[..|xs + ys| - 1] == xs + ys';
      ApplyAllAppend(update, app, xs, ys');
    }
  }

  /** Messages are applied in order: the first message sees the original app, and each later one sees its predecessors' result. */
  lemma {:induction false} ApplyAllFirst<A, Msg>(update: (A, Msg) -> A, app: A, messages: seq<Msg>)
    requires |messages| > 0
    ensures ApplyAll(update, app, messages) == ApplyAll(update, update(app, messages[0]), messages[1..])
  {
    assert messages == [messages[0]] + messages[1..];
    ApplyAllAppend(update, app, [messages[0]], messages[1..]);
    assert [messages[0]][..0] == [];
  }

  /**
   * The cursor bookkeeping after a UI pass: the stored interaction follows the
   * UI's report, and a new shape is requested only when an up-to-date report
   * differs from what is stored.
   */
  function CursorUpdate(current: M.Interaction, state: UiState): (r: (M.Interaction, Option<Shape>))
    ensures r.1.Some? <==> state.Updated? && state.interaction != current
    ensures r.1.Some? ==> r.1.value == IcedToCursorShape(state.interaction)
    ensures state.Updated? ==> r.0 == state.interaction
    ensures !state.Updated? ==> r.0 == current
  {
    match state
    case Updated(interaction) =>
      if interaction != current then (interaction, Some(IcedToCursorShape(interaction)))
      else (current, Option.None)
    case Outdated => (current, Option.None)
  }

  /** Reporting the same interaction twice requests the cursor shape at most once. */
  lemma CursorUpdateIdempotent(current: M.Interaction, state: UiState)
    ensures var (stored, _) := CursorUpdate(current, state);
            CursorUpdate(stored, state) == (stored, Option.None)
  {
  }

  /** The cursor request a UI pass makes, if any. */
  function CursorEffects(cursorChange: Option<Shape>): (r: seq<Effect>)
    ensures |r| <= 1
    ensures forall s :: SetCursor(s) in r <==> cursorChange == Some(s)
    ensures forall e :: e in r ==> e.SetCursor?
  {
    if cursorChange.Some? then [SetCursor(cursorChange.value)] else []
  }

  /** The frame callback request and the commit that sends it, made only after input. */
  function FramePacing(hadInput: bool): (r: seq<Effect>)
    ensures RequestFrame in r <==> hadInput
    ensures Commit in r <==> hadInput
    ensures forall e :: e in r ==> e == RequestFrame || e == Commit
  {
    if hadInput then [RequestFrame, Commit] else []
  }

  /**
   * The effects of one render, with its frame pacing: it starts by acquiring
   * the texture, always draws and presents; it requests the next frame
   * callback (and commits) exactly when there was input, and only after
   * presenting; it sets the cursor exactly when the UI asked for a new shape,
   * and nothing is drawn after presenting.
   */
  function RenderEffects(hadInput: bool, cursorChange: Option<Shape>): (r: seq<Effect>)
    ensures |r| > 0 && r[0] == AcquireTexture
    ensures Present in r && Draw in r
    ensures RequestFrame in r <==> hadInput
    ensures Commit in r <==> hadInput
    ensures forall s :: SetCursor(s) in r <==> cursorChange == Some(s)
    ensures forall i, j :: 0 <= i < j < |r| && r[j] == Present ==> r[i] != RequestFrame && r[i] != Commit
    ensures forall i, j :: 0 <= i < j < |r| && r[i] == Present ==> r[j] != Draw && r[j] != AcquireTexture
  {
    [AcquireTexture] + CursorEffects(cursorChange) + [Draw, Present] + FramePacing(hadInput)
  }

  /** The effects of a render appended to a log, step by step as the render issues them. */
  lemma RenderEffectsInOrder(log: seq<Effect>, hadInput: bool, cursorChange: Option<Shape>)
    ensures log + [AcquireTexture] + CursorEffects(cursorChange) + [Draw] + [Present] + FramePacing(hadInput)
            == log + RenderEffects(hadInput, cursorChange)
  {
  }

  /** The outcome of a render for the state it leaves: the app, the widget cache, the stored interaction and the cursor request. */
  datatype RenderOutcome<A, C> =
    RenderOutcome(app: A, cache: C, interaction: M.Interaction, cursorChange: Option<Shape>)

  /** The size the GPU surface is configured to along one axis: the logical size scaled, saturated at `u32::MAX`, and at least one. */
  function SurfaceExtent(logical: u32, scale: u32): (r: u32)
    ensures r >= 1
    ensures scale >= 1 ==> r >= logical
    ensures logical >= 1 ==> r == SaturatingMul(logical, scale) || scale == 0
  {
    SaturatingMulAtLeastOperand(logical, scale);
    AtLeastOne(SaturatingMul(logical, scale))
  }

  /** Once the logical size is at least one, the configured surface and the viewport agree on the physical size. */
  lemma SurfaceMatchesViewport(logical: u32, scale: u32)
    requires logical >= 1 && scale >= 1
    ensures SurfaceExtent(logical, scale) == SaturatingMul(logical, scale)
  {
    SaturatingMulAtLeastOperand(logical, scale);
  }

  // ---------------------------------------------------------------------------
  // The controller
  // ---------------------------------------------------------------------------

  /**
   * `IcedSurfaceState`: the logical size and integer scale of one surface, the
   * GPU surface configuration, the app and its widget cache, the last cursor
   * interaction, and the input translator that feeds the UI.
   */
  class IcedSurfaceState<A, Msg, C> {
    const input: InputHandler.WaylandToIcedInput
    const interact: (A, Viewport, C, seq<E.Event>, M.Point) -> UiPass<Msg, C>
    const redraw: (A, Viewport, C) -> C
    const update: (A, Msg) -> A

    var app: A
    var cache: C
    var width: u32
    var height: u32
    var scaleFactor: i32
    var surfaceConfig: Option<SurfaceConfig>
    var mouseInteraction: M.Interaction
    ghost var effects: seq<Effect>

    /** A new controller: 256×256 at scale 1, not yet configured, no interaction, a fresh input translator. */
    constructor (app: A, emptyCache: C, interact: (A, Viewport, C, seq<E.Event>, M.Point) -> UiPass<Msg, C>,
                 redraw: (A, Viewport, C) -> C, update: (A, Msg) -> A)
      ensures this.app == app && cache == emptyCache
      ensures this.interact == interact && this.redraw == redraw && this.update == update
      ensures width == 256 && height == 256 && scaleFactor == 1
      ensures surfaceConfig == Option.None && mouseInteraction == M.Interaction.None && effects == []
      ensures fresh(input) && input.events == [] && input.modifiers == {}
      ensures input.screenWidth == 256 && input.screenHeight == 256
      ensures input.pointerPos == M.Point(0.0, 0.0) && input.lastKeyUtf8.None?
    {
      this.input := new InputHandler.WaylandToIcedInput();
      this.interact := interact;
      this.redraw := redraw;
      this.update := update;
      this.app := app;
      cache := emptyCache;
      width := 256;
      height := 256;
      scaleFactor := 1;
      surfaceConfig := Option.None;
      mouseInteraction := M.Interaction.None;
      effects := [];
    }

    /** The integer scale used for physical sizes: the stored factor, but never below one. */
    function PhysicalScale(): (r: u32)
      reads this
      ensures r >= 1
      ensures scaleFactor >= 1 ==> r == scaleFactor
    {
      AtLeastOne(scaleFactor)
    }

    /** The viewport for the current geometry: the logical size scaled (saturating) by the physical scale. */
    function CreateViewport(): (vp: Viewport)
      reads this
      ensures vp.scale == PhysicalScale()
      ensures vp.physicalWidth >= width && vp.physicalHeight >= height
      ensures width * vp.scale <= U32_MAX ==> vp.physicalWidth == width * vp.scale
      ensures height * vp.scale <= U32_MAX ==> vp.physicalHeight == height * vp.scale
    {
      var scale := PhysicalScale();
      SaturatingMulAtLeastOperand(width, scale);
      SaturatingMulAtLeastOperand(height, scale);
      Viewport(SaturatingMul(width, scale), SaturatingMul(height, scale), scale)
    }

    /**
     * What one UI pass over `events` does to an app, cache and stored
     * interaction: with no messages the app is untouched and the pass's cache
     * is kept; otherwise every message is applied in order and the UI is
     * rebuilt and drawn from the updated app.
     */
    function UiOutcome(app0: A, cache0: C, interaction0: M.Interaction, vp: Viewport,
                       events: seq<E.Event>, cursor: M.Point): (r: RenderOutcome<A, C>)
      ensures var pass := interact(app0, vp, cache0, events, cursor);
              && (|pass.messages| == 0 ==> r.app == app0 && r.cache == pass.cache)
              && (|pass.messages| > 0 ==> r.cache == redraw(r.app, vp, pass.cache))
              && r.app == ApplyAll(update, app0, pass.messages)
              && (r.interaction, r.cursorChange) == CursorUpdate(interaction0, pass.state)
    {
      var pass := interact(app0, vp, cache0, events, cursor);
      var app1 := ApplyAll(update, app0, pass.messages);
      var cache1 := if |pass.messages| == 0 then pass.cache else redraw(app1, vp, pass.cache);
      var (interaction1, change) := CursorUpdate(interaction0, pass.state);
      RenderOutcome(app1, cache1, interaction1, change)
    }

    /**
     * The state a render leaves, given the input events it drained, the
     * pointer position and the app, cache, interaction and effect log it
     * started from: the UI saw the drained events followed by one redraw
     * request, the effect log grew by one render's effects, and the input
     * queue is empty.
     */
    ghost predicate RenderedFrom(queued: seq<E.Event>, cursor: M.Point, app0: A, cache0: C,
                                 interaction0: M.Interaction, effects0: seq<Effect>)
      reads this, input
    {
      var o := UiOutcome(app0, cache0, interaction0, CreateViewport(),
                         queued + [E.Window(E.RedrawRequested)], cursor);
      && app == o.app && cache == o.cache && mouseInteraction == o.interaction
      && effects == effects0 + RenderEffects(|queued| > 0, o.cursorChange)
      && input.events == []
    }

    /** The geometry and GPU configuration are as they were. */
    twostate predicate GeometryKept()
      reads this
    {
      && width == old(width) && height == old(height)
      && scaleFactor == old(scaleFactor) && surfaceConfig == old(surfaceConfig)
    }

    /** The input translator's modifiers, pointer and screen size are as they were. */
    twostate predicate InputSettingsKept()
      reads this, input
    {
      && input.modifiers == old(input.modifiers) && input.pointerPos == old(input.pointerPos)
      && input.screenWidth == old(input.screenWidth) && input.screenHeight == old(input.screenHeight)
    }

    /** Records the buffer scale sent to the compositor; nothing else changes. */
    method RecordBufferScale(n: i32)
      modifies this
      ensures effects == old(effects) + [SetBufferScale(n)]
      ensures app == old(app) && cache == old(cache) && mouseInteraction == old(mouseInteraction)
      ensures GeometryKept()
    {
      effects := effects + [Effect.SetBufferScale(n)];
    }

    /**
     * Takes every queued input event and appends one redraw request; the flag
     * says whether there was any input at all.
     */
    method CollectEvents() returns (events: seq<E.Event>, hadInput: bool)
      modifies input
      ensures events == old(input.events) + [E.Window(E.RedrawRequested)]
      ensures hadInput <==> |old(input.events)| > 0
      ensures input.events == [] && InputSettingsKept()
    {
      events := input.TakeEvents();
      hadInput := |events| > 0;
      events := events + [E.Window(E.RedrawRequested)];
    }

    /**
     * Runs one UI pass: updates the stored interaction (requesting a new cursor
     * shape only on change), then draws directly when there are no messages,
     * or applies the messages in order and draws the rebuilt UI.
     */
    method UpdateAndDraw(vp: Viewport, events: seq<E.Event>, cursor: M.Point)
      modifies this
      ensures var o := UiOutcome(old(app), old(cache), old(mouseInteraction), vp, events, cursor);
              && app == o.app && cache == o.cache && mouseInteraction == o.interaction
              && effects == old(effects) + CursorEffects(o.cursorChange) + [Draw]
      ensures GeometryKept()
    {
      var pass := interact(app, vp, cache, events, cursor);
      match pass.state {
        case Updated(interaction) =>
          if mouseInteraction != interaction {
            mouseInteraction := interaction;
            effects := effects + [SetCursor(IcedToCursorShape(interaction))];
          }
        case Outdated =>
      }
      var messages := pass.messages;
      if |messages| == 0 {
        effects := effects + [Draw];
        cache := pass.cache;
      } else {
        cache := pass.cache;
        var current := app;
        var i := 0;
        while i < |messages|
          invariant 0 <= i <= |messages|
          invariant current == ApplyAll(update, old(app), messages[..i])
        {
          assert messages[..i + 1][..i] == messages[..i];
          current := update(current, messages[i]);
          i := i + 1;
        }
        assert messages[..i] == messages;
        app := current;
        cache := redraw(app, vp, cache);
        effects := effects + [Draw];
      }
    }

    /** Points the GPU surface at the current size times the physical scale, each extent at least one. */
    method ReconfigureSurface()
      modifies this
      ensures surfaceConfig == Some(SurfaceConfig(SurfaceExtent(width, PhysicalScale()),
                                                  SurfaceExtent(height, PhysicalScale())))
      ensures effects == old(effects) + [ConfigureSurface(surfaceConfig.value.width, surfaceConfig.value.height)]
      ensures width == old(width) && height == old(height) && scaleFactor == old(scaleFactor)
      ensures app == old(app) && cache == old(cache) && mouseInteraction == old(mouseInteraction)
    {
      var scale := PhysicalScale();
      var w := AtLeastOne(SaturatingMul(width, scale));
      var h := AtLeastOne(SaturatingMul(height, scale));
      effects := effects + [ConfigureSurface(w, h)];
      surfaceConfig := Some(SurfaceConfig(w, h));
    }

    /**
     * Renders one frame: acquires a texture, drains the input into one UI
     * pass, presents, and asks for the next frame callback only when there
     * was input.
     */
    method Render()
      modifies this, input
      ensures RenderedFrom(old(input.events), old(input.pointerPos), old(app), old(cache),
                           old(mouseInteraction), old(effects))
      ensures GeometryKept() && InputSettingsKept()
    {
      ghost var effects0 := effects;
      effects := effects + [AcquireTexture];
      var vp := CreateViewport();
      var events, hadInput := CollectEvents();
      var cursor := input.GetPointerPosition();
      UpdateAndDraw(vp, events, cursor);
      ghost var o := UiOutcome(old(app), old(cache), old(mouseInteraction), vp, events, cursor);
      assert effects == effects0 + [AcquireTexture] + CursorEffects(o.cursorChange) + [Draw];
      effects := effects + [Present];
      if hadInput {
        effects := effects + [RequestFrame, Commit];
      }
      assert effects == effects0 + [AcquireTexture] + CursorEffects(o.cursorChange) + [Draw] + [Present]
                        + FramePacing(hadInput);
      RenderEffectsInOrder(effects0, hadInput, o.cursorChange);
      assert CreateViewport() == vp;
    }

    /**
     * Applies a new logical size, each extent clamped to at least one: tells
     * the input translator, reconfigures the GPU surface and renders.
     */
    method Configure(w: u32, h: u32)
      modifies this, input
      ensures width == AtLeastOne(w) && height == AtLeastOne(h) && scaleFactor == old(scaleFactor)
      ensures input.screenWidth == width && input.screenHeight == height
      ensures surfaceConfig == Some(SurfaceConfig(SurfaceExtent(width, PhysicalScale()),
                                                  SurfaceExtent(height, PhysicalScale())))
      ensures RenderedFrom(old(input.events), old(input.pointerPos), old(app), old(cache), old(mouseInteraction),
                           old(effects) + [ConfigureSurface(surfaceConfig.value.width, surfaceConfig.value.height)])
      ensures input.modifiers == old(input.modifiers) && input.pointerPos == old(input.pointerPos)
    {
      width := AtLeastOne(w);
      height := AtLeastOne(h);
      input.SetScreenSize(width, height);
      ReconfigureSurface();
      assert input.events == old(input.events) && input.pointerPos == old(input.pointerPos);
      assert app == old(app) && cache == old(cache) && mouseInteraction == old(mouseInteraction);
      ghost var effects1 := effects;
      ghost var config1 := surfaceConfig;
      assert effects1 == old(effects) + [ConfigureSurface(config1.value.width, config1.value.height)];
      Render();
      assert surfaceConfig == config1;
      assert RenderedFrom(old(input.events), old(input.pointerPos), old(app), old(cache), old(mouseInteraction),
                          effects1);
    }

    /** A frame callback renders. */
    method Frame(time: u32)
      modifies this, input
      ensures RenderedFrom(old(input.events), old(input.pointerPos), old(app), old(cache),
                           old(mouseInteraction), old(effects))
      ensures GeometryKept() && InputSettingsKept()
    {
      Render();
    }

    /** Translates a pointer event into the input queue, then renders. */
    method HandlePointerEvent(e: InputHandler.PointerEvent)
      modifies this, input
      ensures RenderedFrom(old(input.events) + InputHandler.PointerEventsFor(e),
                           InputHandler.PointerPosAfter(old(input.pointerPos), e),
                           old(app), old(cache), old(mouseInteraction), old(effects))
      ensures input.pointerPos == InputHandler.PointerPosAfter(old(input.pointerPos), e)
      ensures GeometryKept() && input.modifiers == old(input.modifiers)
      ensures input.screenWidth == old(input.screenWidth) && input.screenHeight == old(input.screenHeight)
    {
      input.HandlePointerEvent(e);
      Render();
    }

    /** Keyboard focus arriving only renders. */
    method HandleKeyboardEnter()
      modifies this, input
      ensures RenderedFrom(old(input.events), old(input.pointerPos), old(app), old(cache),
                           old(mouseInteraction), old(effects))
      ensures GeometryKept() && InputSettingsKept()
    {
      input.HandleKeyboardEnter();
      Render();
    }

    /** Keyboard focus leaving only renders. */
    method HandleKeyboardLeave()
      modifies this, input
      ensures RenderedFrom(old(input.events), old(input.pointerPos), old(app), old(cache),
                           old(mouseInteraction), old(effects))
      ensures GeometryKept() && InputSettingsKept()
    {
      input.HandleKeyboardLeave();
      Render();
    }

    /** Queues the keyboard event for a press, repeat or release, then renders. */
    method HandleKeyboardEvent(ev: InputHandler.KeyEvent, pressed: bool, isRepeat: bool)
      modifies this, input
      ensures RenderedFrom(old(input.events) + [InputHandler.KeyEventFor(ev, pressed, isRepeat, old(input.modifiers))],
                           old(input.pointerPos), old(app), old(cache), old(mouseInteraction), old(effects))
      ensures GeometryKept() && InputSettingsKept()
    {
      input.HandleKeyboardEvent(ev, pressed, isRepeat);
      Render();
    }

    /** Replaces the modifier set, then renders. */
    method UpdateModifiers(wm: InputHandler.WaylandModifiers)
      modifies this, input
      ensures input.modifiers == InputHandler.ModifiersFromWayland(wm)
      ensures RenderedFrom(old(input.events), old(input.pointerPos), old(app), old(cache),
                           old(mouseInteraction), old(effects))
      ensures GeometryKept() && input.pointerPos == old(input.pointerPos)
      ensures input.screenWidth == old(input.screenWidth) && input.screenHeight == old(input.screenHeight)
    {
      input.UpdateModifiers(wm);
      Render();
    }

    /**
     * Always passes the raw factor on as the buffer scale. The stored factor
     * is clamped to at least one; when that is the factor already stored,
     * nothing else happens, otherwise the surface is reconfigured and rendered.
     */
    method ScaleFactorChanged(n: i32)
      modifies this, input
      ensures AtLeastOne(n) == old(scaleFactor) ==>
                && effects == old(effects) + [SetBufferScale(n)]
                && app == old(app) && cache == old(cache) && mouseInteraction == old(mouseInteraction)
                && GeometryKept() && input.events == old(input.events)
      ensures AtLeastOne(n) != old(scaleFactor) ==>
                && scaleFactor == AtLeastOne(n)
                && surfaceConfig == Some(SurfaceConfig(SurfaceExtent(width, PhysicalScale()),
                                                       SurfaceExtent(height, PhysicalScale())))
                && RenderedFrom(old(input.events), old(input.pointerPos), old(app), old(cache), old(mouseInteraction),
                                old(effects) + [SetBufferScale(n),
                                                ConfigureSurface(surfaceConfig.value.width, surfaceConfig.value.height)])
      ensures width == old(width) && height == old(height) && InputSettingsKept()
    {
      RecordBufferScale(n);
      var factor := AtLeastOne(n);
      if factor == scaleFactor {
        return;
      }
      scaleFactor := factor;
      ReconfigureSurface();
      Render();
    }
  }

  // ---------------------------------------------------------------------------
  // The four container kinds
  // ---------------------------------------------------------------------------

  datatype ContainerKind = WindowKind | LayerSurfaceKind | PopupKind | SubsurfaceKind

  /** A window size the compositor leaves to the client is absent; a given one is never zero. */
  type NonZeroU32 = x: u32 | x >= 1 witness 1

  /** Each container kind's configure event, carrying only its size. */
  datatype ConfigurePayload =
    | WindowConfigure(newWidth: Option<NonZeroU32>, newHeight: Option<NonZeroU32>)
    | LayerSurfaceConfigure(newSize: (u32, u32))
    | PopupConfigure(width: i32, height: i32)
    | SubsurfaceConfigure(size: (u32, u32))

  /** The configure event each container kind receives. */
  predicate PayloadFits(kind: ContainerKind, payload: ConfigurePayload)
  {
    match kind
    case WindowKind => payload.WindowConfigure?
    case LayerSurfaceKind => payload.LayerSurfaceConfigure?
    case PopupKind => payload.PopupConfigure?
    case SubsurfaceKind => payload.SubsurfaceConfigure?
  }

  /**
   * The logical size a container asks its surface for: a window replaces a
   * missing extent by 256, a popup reinterprets its signed extents as
   * unsigned, layer surfaces and subsurfaces pass theirs through.
   */
  function ConfigureSize(payload: ConfigurePayload): (r: (u32, u32))
    ensures payload.WindowConfigure? ==>
              && (payload.newWidth.Some? ==> r.0 == payload.newWidth.value)
              && (payload.newWidth.None? ==> r.0 == 256)
              && (payload.newHeight.Some? ==> r.1 == payload.newHeight.value)
              && (payload.newHeight.None? ==> r.1 == 256)
    ensures payload.LayerSurfaceConfigure? ==> r == payload.newSize
    ensures payload.SubsurfaceConfigure? ==> r == payload.size
    ensures payload.PopupConfigure? ==>
              (r.0 - payload.width) % U32_LIMIT == 0 && (r.1 - payload.height) % U32_LIMIT == 0
  {
    match payload
    case WindowConfigure(w, h) =>
      (if w.Some? then w.value else 256, if h.Some? then h.value else 256)
    case LayerSurfaceConfigure(newSize) => newSize
    case PopupConfigure(w, h) => (I32AsU32(w), I32AsU32(h))
    case SubsurfaceConfigure(size) => size
  }

  /** A window is never configured to zero in either direction. */
  lemma WindowSizeNeverZero(payload: ConfigurePayload)
    requires payload.WindowConfigure?
    ensures ConfigureSize(payload).0 >= 1 && ConfigureSize(payload).1 >= 1
  {
  }

  /**
   * A popup with a non-negative size gets exactly that size; a negative
   * extent wraps around to at least 2^31 rather than to a previous size.
   */
  lemma PopupSizeCast(width: i32, height: i32)
    ensures width >= 0 ==> ConfigureSize(PopupConfigure(width, height)).0 == width
    ensures width < 0 ==> ConfigureSize(PopupConfigure(width, height)).0 >= 0x8000_0000
    ensures height >= 0 ==> ConfigureSize(PopupConfigure(width, height)).1 == height
    ensures height < 0 ==> ConfigureSize(PopupConfigure(width, height)).1 >= 0x8000_0000
  {
  }

  /**
   * One of `IcedWindow`, `IcedLayerSurface`, `IcedPopup` or `IcedSubsurface`:
   * a kind tag and the controller it forwards every event to.
   */
  class IcedContainer<A, Msg, C> {
    const kind: ContainerKind
    const surface: IcedSurfaceState<A, Msg, C>

    /** A container with an initial logical size, taken as given (not clamped). */
    constructor (kind: ContainerKind, app: A, width: u32, height: u32, emptyCache: C,
                 interact: (A, Viewport, C, seq<E.Event>, M.Point) -> UiPass<Msg, C>,
                 redraw: (A, Viewport, C) -> C, update: (A, Msg) -> A)
      ensures this.kind == kind && fresh(surface) && fresh(surface.input)
      ensures surface.width == width && surface.height == height && surface.scaleFactor == 1
      ensures surface.app == app && surface.cache == emptyCache
      ensures surface.interact == interact && surface.redraw == redraw && surface.update == update
      ensures surface.surfaceConfig == Option.None && surface.mouseInteraction == M.Interaction.None
      ensures surface.effects == [] && surface.input.events == []
      ensures surface.input.modifiers == {} && surface.input.pointerPos == M.Point(0.0, 0.0)
      ensures surface.input.screenWidth == 256 && surface.input.screenHeight == 256
      ensures surface.input.lastKeyUtf8.None?
    {
      this.kind := kind;
      var s := new IcedSurfaceState(app, emptyCache, interact, redraw, update);
      s.width := width;
      s.height := height;
      surface := s;
    }

    /**
     * Configures the surface from this kind's configure event: the stored
     * scale factor goes to the compositor first, then the surface takes the
     * size `ConfigureSize` derives.
     */
    method Configure(payload: ConfigurePayload)
      requires PayloadFits(kind, payload)
      modifies surface, surface.input
      ensures var (w, h) := ConfigureSize(payload);
              surface.width == AtLeastOne(w) && surface.height == AtLeastOne(h)
      ensures surface.scaleFactor == old(surface.scaleFactor)
      ensures surface.input.screenWidth == surface.width && surface.input.screenHeight == surface.height
      ensures surface.surfaceConfig == Some(SurfaceConfig(SurfaceExtent(surface.width, surface.PhysicalScale()),
                                                          SurfaceExtent(surface.height, surface.PhysicalScale())))
      ensures surface.RenderedFrom(old(surface.input.events), old(surface.input.pointerPos), old(surface.app),
                                   old(surface.cache), old(surface.mouseInteraction),
                                   old(surface.effects) + [SetBufferScale(old(surface.scaleFactor)),
                                     ConfigureSurface(surface.surfaceConfig.value.width,
                                                      surface.surfaceConfig.value.height)])
      ensures surface.input.modifiers == old(surface.input.modifiers)
      ensures surface.input.pointerPos == old(surface.input.pointerPos)
    {
      var (w, h) := ConfigureSize(payload);
      surface.RecordBufferScale(surface.scaleFactor);
      surface.Configure(w, h);
    }

    /** Forwards a scale change. */
    method ScaleFactorChanged(n: i32)
      modifies surface, surface.input
      ensures AtLeastOne(n) == old(surface.scaleFactor) ==>
                && surface.effects == old(surface.effects) + [SetBufferScale(n)]
                && surface.app == old(surface.app) && surface.cache == old(surface.cache)
                && surface.mouseInteraction == old(surface.mouseInteraction)
                && surface.GeometryKept() && surface.input.events == old(surface.input.events)
      ensures AtLeastOne(n) != old(surface.scaleFactor) ==>
                && surface.scaleFactor == AtLeastOne(n)
                && surface.surfaceConfig == Some(SurfaceConfig(SurfaceExtent(surface.width, surface.PhysicalScale()),
                                                               SurfaceExtent(surface.height, surface.PhysicalScale())))
                && surface.RenderedFrom(old(surface.input.events), old(surface.input.pointerPos), old(surface.app),
                                        old(surface.cache), old(surface.mouseInteraction),
                                        old(surface.effects) + [SetBufferScale(n),
                                          ConfigureSurface(surface.surfaceConfig.value.width,
                                                           surface.surfaceConfig.value.height)])
      ensures surface.width == old(surface.width) && surface.height == old(surface.height)
      ensures surface.InputSettingsKept()
    {
      surface.ScaleFactorChanged(n);
    }

    /** Forwards a frame callback. */
    method Frame(time: u32)
      modifies surface, surface.input
      ensures surface.RenderedFrom(old(surface.input.events), old(surface.input.pointerPos), old(surface.app),
                                   old(surface.cache), old(surface.mouseInteraction), old(surface.effects))
      ensures surface.GeometryKept() && surface.InputSettingsKept()
    {
      surface.Frame(time);
    }

    /** Forwards keyboard focus arriving. */
    method Enter()
      modifies surface, surface.input
      ensures surface.RenderedFrom(old(surface.input.events), old(surface.input.pointerPos), old(surface.app),
                                   old(surface.cache), old(surface.mouseInteraction), old(surface.effects))
      ensures surface.GeometryKept() && surface.InputSettingsKept()
    {
      surface.HandleKeyboardEnter();
    }

    /** Forwards keyboard focus leaving. */
    method Leave()
      modifies surface, surface.input
      ensures surface.RenderedFrom(old(surface.input.events), old(surface.input.pointerPos), old(surface.app),
                                   old(surface.cache), old(surface.mouseInteraction), old(surface.effects))
      ensures surface.GeometryKept() && surface.InputSettingsKept()
    {
      surface.HandleKeyboardLeave();
    }

    /** A key press: pressed, not a repeat. */
    method PressKey(ev: InputHandler.KeyEvent)
      modifies surface, surface.input
      ensures surface.RenderedFrom(
                old(surface.input.events) + [InputHandler.KeyEventFor(ev, true, false, old(surface.input.modifiers))],
                old(surface.input.pointerPos), old(surface.app), old(surface.cache),
                old(surface.mouseInteraction), old(surface.effects))
      ensures surface.GeometryKept() && surface.InputSettingsKept()
    {
      surface.HandleKeyboardEvent(ev, true, false);
    }

    /** A key release: not pressed, not a repeat. */
    method ReleaseKey(ev: InputHandler.KeyEvent)
      modifies surface, surface.input
      ensures surface.RenderedFrom(
                old(surface.input.events) + [InputHandler.KeyEventFor(ev, false, false, old(surface.input.modifiers))],
                old(surface.input.pointerPos), old(surface.app), old(surface.cache),
                old(surface.mouseInteraction), old(surface.effects))
      ensures surface.GeometryKept() && surface.InputSettingsKept()
    {
      surface.HandleKeyboardEvent(ev, false, false);
    }

    /** A key repeat: reported as a press with the repeat flag set. */
    method RepeatKey(ev: InputHandler.KeyEvent)
      modifies surface, surface.input
      ensures surface.RenderedFrom(
                old(surface.input.events) + [InputHandler.KeyEventFor(ev, true, true, old(surface.input.modifiers))],
                old(surface.input.pointerPos), old(surface.app), old(surface.cache),
                old(surface.mouseInteraction), old(surface.effects))
      ensures surface.GeometryKept() && surface.InputSettingsKept()
    {
      surface.HandleKeyboardEvent(ev, true, true);
    }

    /** Forwards a modifier change. */
    method UpdateModifiers(wm: InputHandler.WaylandModifiers)
      modifies surface, surface.input
      ensures surface.input.modifiers == InputHandler.ModifiersFromWayland(wm)
      ensures surface.RenderedFrom(old(surface.input.events), old(surface.input.pointerPos), old(surface.app),
                                   old(surface.cache), old(surface.mouseInteraction), old(surface.effects))
      ensures surface.GeometryKept() && surface.input.pointerPos == old(surface.input.pointerPos)
      ensures surface.input.screenWidth == old(surface.input.screenWidth)
      ensures surface.input.screenHeight == old(surface.input.screenHeight)
    {
      surface.UpdateModifiers(wm);
    }

    /** Forwards a pointer event. */
    method PointerFrame(e: InputHandler.PointerEvent)
      modifies surface, surface.input
      ensures surface.RenderedFrom(old(surface.input.events) + InputHandler.PointerEventsFor(e),
                                   InputHandler.PointerPosAfter(old(surface.input.pointerPos), e),
                                   old(surface.app), old(surface.cache), old(surface.mouseInteraction),
                                   old(surface.effects))
      ensures surface.input.pointerPos == InputHandler.PointerPosAfter(old(surface.input.pointerPos), e)
      ensures surface.GeometryKept() && surface.input.modifiers == old(surface.input.modifiers)
      ensures surface.input.screenWidth == old(surface.input.screenWidth)
      ensures surface.input.screenHeight == old(surface.input.screenHeight)
    {
      surface.HandlePointerEvent(e);
    }

    /** A popup being dismissed needs no bookkeeping: nothing changes. */
    method Done()
      requires kind == PopupKind
      ensures surface.effects == old(surface.effects) && surface.app == old(surface.app)
    {
    }
  }
}
