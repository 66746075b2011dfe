/**
 * The Wayland-to-iced input translator: a small state machine that turns
 * smithay's pointer, keyboard and modifier events into iced events and queues
 * them until the surface drains the queue.
 */
module InputHandler {
  import opened Ints
  import opened Wrappers
  import Keysyms
  import K = IcedKeyboard
  import M = IcedMouse
  import E = IcedEvents
  import ButtonMap
  import LogicalKeyMap
  import PhysicalKeyMap

  // ---------------------------------------------------------------------------
  // The Wayland side of the vocabulary (smithay's seat events)
  // ---------------------------------------------------------------------------

  /** One axis of a scroll: the continuous amount and the whole wheel steps. */
  datatype AxisScroll = AxisScroll(absolute: real, discrete: i32)

  /** What happened to the pointer; serials, timestamps and the axis source are dropped. */
  datatype PointerEventKind =
    | Enter
    | Leave
    | Motion
    | Press(button: u32)
    | Release(button: u32)
    | Axis(horizontal: AxisScroll, vertical: AxisScroll)

  /** A pointer event with the surface-local position it was reported at. */
  datatype PointerEvent = PointerEvent(position: M.Point, kind: PointerEventKind)

  /** A key event: the hardware code, the layout symbol and the text it produces, if any. */
  datatype KeyEvent = KeyEvent(rawCode: u32, keysym: Keysyms.Keysym, utf8: Option<string>)

  /** The modifier and lock state the compositor reports. */
  datatype WaylandModifiers =
    WaylandModifiers(ctrl: bool, alt: bool, shift: bool, capsLock: bool, logo: bool, numLock: bool)

  // ---------------------------------------------------------------------------
  // What each input produces
  // ---------------------------------------------------------------------------

  /** A pointer event the translator drops: an unknown button, or a scroll with no whole step. */
  predicate Dropped(e: PointerEvent)
  {
    || ((e.kind.Press? || e.kind.Release?) && ButtonMap.WaylandButtonToIced(e.kind.button).None?)
    || (e.kind.Axis? && e.kind.horizontal.discrete == 0 && e.kind.vertical.discrete == 0)
  }

  /**
   * The iced events one pointer event appends to the queue: at most one mouse
   * event, and none exactly when the event is dropped.
   */
  function PointerEventsFor(e: PointerEvent): (r: seq<E.Event>)
    ensures |r| <= 1
    ensures forall ev :: ev in r ==> ev.Mouse?
    ensures r == [] <==> Dropped(e)
    ensures e.kind.Enter? ==> r == [E.Mouse(M.CursorEntered)]
    ensures e.kind.Leave? ==> r == [E.Mouse(M.CursorLeft)]
    ensures e.kind.Motion? ==> r == [E.Mouse(M.CursorMoved(e.position))]
    ensures e.kind.Press? && !Dropped(e) ==>
              r == [E.Mouse(M.ButtonPressed(ButtonMap.WaylandButtonToIced(e.kind.button).value))]
    ensures e.kind.Release? && !Dropped(e) ==>
              r == [E.Mouse(M.ButtonReleased(ButtonMap.WaylandButtonToIced(e.kind.button).value))]
    ensures e.kind.Axis? && !Dropped(e) ==>
              r == [E.Mouse(M.WheelScrolled(M.Lines(e.kind.horizontal.discrete, e.kind.vertical.discrete)))]
  {
    match e.kind
    case Enter => [E.Mouse(M.CursorEntered)]
    case Leave => [E.Mouse(M.CursorLeft)]
    case Motion => [E.Mouse(M.CursorMoved(e.position))]
    case Press(code) =>
      (match ButtonMap.WaylandButtonToIced(code)
       case Some(b) => [E.Mouse(M.ButtonPressed(b))]
       case None => [])
    case Release(code) =>
      (match ButtonMap.WaylandButtonToIced(code)
       case Some(b) => [E.Mouse(M.ButtonReleased(b))]
       case None => [])
    case Axis(h, v) =>
      if h.discrete != 0 || v.discrete != 0 then
        [E.Mouse(M.WheelScrolled(M.Lines(h.discrete, v.discrete)))]
      else
        []
  }

  /** Where the translator believes the pointer is after an event: only entering and moving report a position. */
  function PointerPosAfter(pos: M.Point, e: PointerEvent): (r: M.Point)
    ensures e.kind.Enter? || e.kind.Motion? ==> r == e.position
    ensures !(e.kind.Enter? || e.kind.Motion?) ==> r == pos
  {
    if e.kind.Enter? || e.kind.Motion? then e.position else pos
  }

  /** Whether the compositor reports modifier `m` as held. */
  function WaylandFlag(wm: WaylandModifiers, m: K.Modifier): bool
  {
    match m
    case Shift => wm.shift
    case Ctrl => wm.ctrl
    case Alt => wm.alt
    case Logo => wm.logo
  }

  /**
   * The modifier set built from a compositor report: Shift, Control and Alt
   * are carried over exactly, the logo key never is, and the lock states do
   * not count.
   */
  function ModifiersFromWayland(wm: WaylandModifiers): (r: K.Modifiers)
    ensures (K.Shift in r <==> wm.shift) && (K.Ctrl in r <==> wm.ctrl) && (K.Alt in r <==> wm.alt)
    ensures K.Logo !in r
  {
    (if wm.shift then {K.Shift} else {})
    + (if wm.ctrl then {K.Ctrl} else {})
    + (if wm.alt then {K.Alt} else {})
  }

  /** A modifier is in the set exactly when the compositor reports it and it is not the logo key. */
  lemma ModifiersExactlyReported(wm: WaylandModifiers)
    ensures forall m :: m in ModifiersFromWayland(wm) <==> m != K.Logo && WaylandFlag(wm, m)
  {
    forall m: K.Modifier
      ensures m in ModifiersFromWayland(wm) <==> m != K.Logo && WaylandFlag(wm, m)
    {
      match m
      case Shift =>
      case Ctrl =>
      case Alt =>
      case Logo =>
    }
  }

  /**
   * The iced event for a key going down (`pressed`) or up. Both carry the
   * logical key (also as the modified key), its location, the physical key
   * and the current modifiers; only a press carries text and the repeat flag.
   */
  function KeyEventFor(ev: KeyEvent, pressed: bool, isRepeat: bool, mods: K.Modifiers): (r: E.Event)
    ensures r.Keyboard?
    ensures r.keyboard.KeyPressed? <==> pressed
    ensures r.keyboard.key == r.keyboard.modifiedKey == LogicalKeyMap.KeysymToIcedKey(ev.keysym)
    ensures r.keyboard.location == LogicalKeyMap.KeysymLocation(ev.keysym)
    ensures r.keyboard.physicalKey == PhysicalKeyMap.KeysymToPhysicalKey(ev.keysym, ev.rawCode)
    ensures r.keyboard.modifiers == mods
    ensures pressed ==> r.keyboard.text == ev.utf8 && r.keyboard.repeat == isRepeat
  {
    var (key, location) := LogicalKeyMap.KeysymToIcedKeyAndLoc(ev.keysym);
    var physicalKey := PhysicalKeyMap.KeysymToPhysicalKey(ev.keysym, ev.rawCode);
    if pressed then
      E.Keyboard(K.KeyPressed(key, location, mods, ev.utf8, key, physicalKey, isRepeat))
    else
      E.Keyboard(K.KeyReleased(key, location, mods, key, physicalKey))
  }

  // ---------------------------------------------------------------------------
  // Laws of the translation
  // ---------------------------------------------------------------------------

  /**
   * Press and release of the same button code are treated alike: both are
   * dropped or both yield one event, naming the same button.
   */
  lemma PressAndReleaseAgree(pos: M.Point, pos': M.Point, code: u32)
    ensures PointerEventsFor(PointerEvent(pos, Press(code))) == [] <==>
            PointerEventsFor(PointerEvent(pos', Release(code))) == []
    ensures PointerEventsFor(PointerEvent(pos, Press(code))) != [] ==>
            PointerEventsFor(PointerEvent(pos, Press(code)))[0].mouse.button ==
            PointerEventsFor(PointerEvent(pos', Release(code)))[0].mouse.button
  {
  }

  /** A press of one of the three known buttons appends exactly its button, and different codes give different buttons. */
  lemma KnownButtonsArePressed(pos: M.Point, code: u32, code': u32)
    requires ButtonMap.BTN_LEFT <= code <= ButtonMap.BTN_MIDDLE
    requires ButtonMap.BTN_LEFT <= code' <= ButtonMap.BTN_MIDDLE
    requires code != code'
    ensures PointerEventsFor(PointerEvent(pos, Press(code))) ==
            [E.Mouse(M.ButtonPressed(ButtonMap.WaylandButtonToIced(code).value))]
    ensures PointerEventsFor(PointerEvent(pos, Press(code))) !=
            PointerEventsFor(PointerEvent(pos, Press(code')))
  {
    if ButtonMap.WaylandButtonToIced(code) == ButtonMap.WaylandButtonToIced(code') {
      ButtonMap.WaylandButtonToIcedInjective(code, code');
    }
  }

  /**
   * A scroll reports the whole wheel steps of both axes as lines; the
   * continuous amounts and the pointer position play no part.
   */
  lemma ScrollUsesOnlyDiscreteSteps(pos: M.Point, pos': M.Point, h: AxisScroll, v: AxisScroll, h': AxisScroll, v': AxisScroll)
    requires h.discrete == h'.discrete && v.discrete == v'.discrete
    ensures PointerEventsFor(PointerEvent(pos, Axis(h, v))) == PointerEventsFor(PointerEvent(pos', Axis(h', v')))
    ensures h.discrete != 0 || v.discrete != 0 ==>
            PointerEventsFor(PointerEvent(pos, Axis(h, v))) ==
            [E.Mouse(M.WheelScrolled(M.Lines(h.discrete, v.discrete)))]
  {
  }

  /**
   * A press and a release of the same key describe the same key: same logical
   * and physical key, same location and modifiers; they differ only in the
   * text and repeat flag the press carries.
   */
  lemma PressAndReleaseDescribeSameKey(ev: KeyEvent, isRepeat: bool, isRepeat': bool, mods: K.Modifiers)
    ensures var p := KeyEventFor(ev, true, isRepeat, mods).keyboard;
            var q := KeyEventFor(ev, false, isRepeat', mods).keyboard;
            && p.key == q.key && p.modifiedKey == q.modifiedKey
            && p.location == q.location && p.physicalKey == q.physicalKey
            && p.modifiers == q.modifiers
            && q == K.KeyReleased(p.key, p.location, p.modifiers, p.modifiedKey, p.physicalKey)
  {
  }

  /** A key the tables do not know still reaches iced: unidentified, with its raw code as the native code. */
  lemma UnknownKeysKeepRawCode(ev: KeyEvent, pressed: bool, isRepeat: bool, mods: K.Modifiers)
    requires PhysicalKeyMap.KeysymToPhysicalKey(ev.keysym, ev.rawCode).Unidentified?
    ensures KeyEventFor(ev, pressed, isRepeat, mods).keyboard.physicalKey ==
            K.Physical.Unidentified(K.Xkb(ev.rawCode))
  {
    PhysicalKeyMap.UnlistedKeysymsKeepRawCode(ev.keysym, ev.rawCode);
  }

  /** The lock keys and the logo key never influence the modifier set. */
  lemma ModifiersIgnoreLocksAndLogo(wm: WaylandModifiers, capsLock: bool, logo: bool, numLock: bool)
    ensures ModifiersFromWayland(wm) ==
            ModifiersFromWayland(wm.(capsLock := capsLock, logo := logo, numLock := numLock))
    ensures ModifiersFromWayland(wm) <= {K.Shift, K.Ctrl, K.Alt}
  {
    var wm' := wm.(capsLock := capsLock, logo := logo, numLock := numLock);
    ModifiersExactlyReported(wm);
    ModifiersExactlyReported(wm');
    forall m ensures m in ModifiersFromWayland(wm) <==> m in ModifiersFromWayland(wm') {
      if m != K.Logo {
        assert WaylandFlag(wm, m) == WaylandFlag(wm', m);
      }
    }
  }

  // ---------------------------------------------------------------------------
  // The translator state machine
  // ---------------------------------------------------------------------------

  /**
   * `WaylandToIcedInput`: the current modifiers, the last reported pointer
   * position, the screen size and the FIFO queue of iced events not yet taken.
   */
  class WaylandToIcedInput {
    var modifiers: K.Modifiers
    var pointerPos: M.Point
    var events: seq<E.Event>
    var screenWidth: u32
    var screenHeight: u32
    var lastKeyUtf8: Option<string>

    /** A fresh translator: no modifiers, pointer at the origin, empty queue, a 256×256 screen. */
    constructor ()
      ensures modifiers == {} && pointerPos == M.Point(0.0, 0.0) && events == []
      ensures screenWidth == 256 && screenHeight == 256 && lastKeyUtf8 == None
    {
      modifiers := {};
      pointerPos := M.Point(0.0, 0.0);
      events := [];
      screenWidth := 256;
      screenHeight := 256;
      lastKeyUtf8 := None;
    }

    /** Records the screen size; nothing else changes, and in particular no event is queued. */
    method SetScreenSize(width: u32, height: u32)
      modifies this
      ensures screenWidth == width && screenHeight == height
      ensures events == old(events) && modifiers == old(modifiers) && pointerPos == old(pointerPos)
      ensures lastKeyUtf8 == old(lastKeyUtf8)
    {
      screenWidth := width;
      screenHeight := height;
    }

    /** Overwrites the remembered pointer position and nothing else. */
    method SetPointerPosition(pos: M.Point)
      modifies this
      ensures pointerPos == pos
      ensures events == old(events) && modifiers == old(modifiers)
      ensures screenWidth == old(screenWidth) && screenHeight == old(screenHeight)
      ensures lastKeyUtf8 == old(lastKeyUtf8)
    {
      pointerPos := pos;
    }

    /**
     * Translates one pointer event: appends what `PointerEventsFor` yields
     * behind everything already queued, and moves the pointer on enter and motion.
     */
    method HandlePointerEvent(e: PointerEvent)
      modifies this
      ensures events == old(events) + PointerEventsFor(e)
      ensures pointerPos == PointerPosAfter(old(pointerPos), e)
      ensures modifiers == old(modifiers)
      ensures screenWidth == old(screenWidth) && screenHeight == old(screenHeight)
      ensures lastKeyUtf8 == old(lastKeyUtf8)
    {
      match e.kind
      case Enter =>
        pointerPos := e.position;
        events := events + [E.Mouse(M.CursorEntered)];
      case Leave =>
        events := events + [E.Mouse(M.CursorLeft)];
      case Motion =>
        pointerPos := e.position;
        events := events + [E.Mouse(M.CursorMoved(e.position))];
      case Press(code) =>
        var button := ButtonMap.WaylandButtonToIced(code);
        if button.Some? {
          events := events + [E.Mouse(M.ButtonPressed(button.value))];
        }
      case Release(code) =>
        var button := ButtonMap.WaylandButtonToIced(code);
        if button.Some? {
          events := events + [E.Mouse(M.ButtonReleased(button.value))];
        }
      case Axis(h, v) =>
        var delta := M.Lines(h.discrete, v.discrete);
        if h.discrete != 0 || v.discrete != 0 {
          events := events + [E.Mouse(M.WheelScrolled(delta))];
        }
    }

    /** Hands over every queued event, oldest first, and leaves the queue empty. */
    method TakeEvents() returns (taken: seq<E.Event>)
      modifies this
      ensures taken == old(events) && events == []
      ensures modifiers == old(modifiers) && pointerPos == old(pointerPos)
      ensures screenWidth == old(screenWidth) && screenHeight == old(screenHeight)
      ensures lastKeyUtf8 == old(lastKeyUtf8)
    {
      taken := events;
      events := [];
    }

    /** Keyboard focus arriving has no iced counterpart: nothing changes. */
    method HandleKeyboardEnter()
      ensures events == old(events) && modifiers == old(modifiers)
    {
    }

    /** Keyboard focus leaving has no iced counterpart: nothing changes. */
    method HandleKeyboardLeave()
      ensures events == old(events) && modifiers == old(modifiers)
    {
    }

    /** Translates one key press, repeat or release into exactly one queued keyboard event. */
    method HandleKeyboardEvent(ev: KeyEvent, pressed: bool, isRepeat: bool)
      modifies this
      ensures events == old(events) + [KeyEventFor(ev, pressed, isRepeat, old(modifiers))]
      ensures modifiers == old(modifiers) && pointerPos == old(pointerPos)
      ensures screenWidth == old(screenWidth) && screenHeight == old(screenHeight)
      ensures lastKeyUtf8 == old(lastKeyUtf8)
    {
      var (key, location) := LogicalKeyMap.KeysymToIcedKeyAndLoc(ev.keysym);
      var text := ev.utf8;
      var physicalKey := PhysicalKeyMap.KeysymToPhysicalKey(ev.keysym, ev.rawCode);
      if pressed {
        events := events + [E.Keyboard(K.KeyPressed(key, location, modifiers, text, key, physicalKey, isRepeat))];
      } else {
        events := events + [E.Keyboard(K.KeyReleased(key, location, modifiers, key, physicalKey))];
      }
    }

    /**
     * Replaces (rather than merges into) the modifier set: afterwards it holds
     * exactly the modifiers the compositor reports, minus the logo key.
     */
    method UpdateModifiers(wm: WaylandModifiers)
      modifies this
      ensures modifiers == ModifiersFromWayland(wm)
      ensures events == old(events) && pointerPos == old(pointerPos)
      ensures screenWidth == old(screenWidth) && screenHeight == old(screenHeight)
      ensures lastKeyUtf8 == old(lastKeyUtf8)
    {
      var mods: K.Modifiers := {};
      if wm.shift {
        mods := mods + {K.Shift};
      }
      if wm.ctrl {
        mods := mods + {K.Ctrl};
      }
      if wm.alt {
        mods := mods + {K.Alt};
      }
      modifiers := mods;
    }

    method GetModifiers() returns (mods: K.Modifiers)
      ensures mods == modifiers
    {
      mods := modifiers;
    }

    method GetPointerPosition() returns (pos: M.Point)
      ensures pos == pointerPos
    {
      pos := pointerPos;
    }
  }
}
