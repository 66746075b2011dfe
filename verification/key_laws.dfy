/**
 * Properties tying the three keyboard tables together: sided modifiers,
 * the keypad's mirror of the navigation block, letter case, and what the
 * fallbacks carry.
 */
module KeyMapLaws {
  import opened Ints
  import opened Keysyms
  import opened LogicalKeyMap
  import opened PhysicalKeyMap
  import N = NamedKeys
  import C = KeyCodes
  import K = IcedKeyboard

  /** The named modifier keys a sided keysym can stand for. */
  predicate IsModifierKey(key: K.Key)
  {
    key.Named? && (key.named == N.Shift || key.named == N.Control || key.named == N.Alt ||
                   key.named == N.Super || key.named == N.Hyper)
  }

  /**
   * Only modifier keys have a side: a keysym placed on the left or the right
   * is one of the five sided modifiers, and its logical key is that modifier.
   */
  lemma SidedKeysAreModifiers(keysym: Keysym)
    requires KeysymLocation(keysym) in {K.Location.Left, K.Location.Right}
    ensures IsModifierKey(KeysymToIcedKey(keysym))
  {
    ShiftLogical();
    ControlLogical();
    AltLogical();
    SuperLogical();
    HyperLogical();
  }

  /** A left/right pair of keysyms standing for the same modifier on either side of the keyboard. */
  predicate MirroredModifier(left: Keysym, right: Keysym)
  {
    && KeysymToIcedKey(left) == KeysymToIcedKey(right)
    && IsModifierKey(KeysymToIcedKey(left))
    && KeysymLocation(left) == K.Location.Left
    && KeysymLocation(right) == K.Location.Right
  }

  /** Two keysyms with two different known physical key codes. */
  predicate DistinctPhysicalCodes(a: Keysym, b: Keysym, raw: u32)
  {
    && KeysymToPhysicalKey(a, raw).Code?
    && KeysymToPhysicalKey(b, raw).Code?
    && KeysymToPhysicalKey(a, raw) != KeysymToPhysicalKey(b, raw)
  }

  /**
   * The left and right variant of each modifier share one logical key and
   * differ in location; Shift, Control, Alt and Super also differ in physical
   * code, while Hyper has no physical code and carries the raw code instead.
   */
  lemma SidedModifierPairs(raw: u32)
    ensures MirroredModifier(XK_Shift_L, XK_Shift_R) && DistinctPhysicalCodes(XK_Shift_L, XK_Shift_R, raw)
    ensures MirroredModifier(XK_Control_L, XK_Control_R) && DistinctPhysicalCodes(XK_Control_L, XK_Control_R, raw)
    ensures MirroredModifier(XK_Alt_L, XK_Alt_R) && DistinctPhysicalCodes(XK_Alt_L, XK_Alt_R, raw)
    ensures MirroredModifier(XK_Super_L, XK_Super_R) && DistinctPhysicalCodes(XK_Super_L, XK_Super_R, raw)
    ensures MirroredModifier(XK_Hyper_L, XK_Hyper_R)
    ensures KeysymToPhysicalKey(XK_Hyper_L, raw) == K.Physical.Unidentified(K.Xkb(raw))
    ensures KeysymToPhysicalKey(XK_Hyper_R, raw) == K.Physical.Unidentified(K.Xkb(raw))
  {
    ShiftPair(raw);
    ControlPair(raw);
    AltPair(raw);
    SuperPair(raw);
    HyperPair(raw);
  }

  lemma ShiftPair(raw: u32)
    ensures MirroredModifier(XK_Shift_L, XK_Shift_R) && DistinctPhysicalCodes(XK_Shift_L, XK_Shift_R, raw)
  {
    ShiftLogical();
    ShiftLeftPhysical(raw);
    ShiftRightPhysical(raw);
  }

  lemma ShiftLogical()
    ensures MirroredModifier(XK_Shift_L, XK_Shift_R)
  {
  }

  lemma ShiftLeftPhysical(raw: u32)
    ensures KeysymToPhysicalKey(XK_Shift_L, raw) == K.Code(C.ShiftLeft)
  {
  }

  lemma ShiftRightPhysical(raw: u32)
    ensures KeysymToPhysicalKey(XK_Shift_R, raw) == K.Code(C.ShiftRight)
  {
  }

  lemma ControlPair(raw: u32)
    ensures MirroredModifier(XK_Control_L, XK_Control_R) && DistinctPhysicalCodes(XK_Control_L, XK_Control_R, raw)
  {
    ControlLogical();
    ControlLeftPhysical(raw);
    ControlRightPhysical(raw);
  }

  lemma ControlLogical()
    ensures MirroredModifier(XK_Control_L, XK_Control_R)
  {
  }

  lemma ControlLeftPhysical(raw: u32)
    ensures KeysymToPhysicalKey(XK_Control_L, raw) == K.Code(C.ControlLeft)
  {
  }

  lemma ControlRightPhysical(raw: u32)
    ensures KeysymToPhysicalKey(XK_Control_R, raw) == K.Code(C.ControlRight)
  {
  }

  lemma AltPair(raw: u32)
    ensures MirroredModifier(XK_Alt_L, XK_Alt_R) && DistinctPhysicalCodes(XK_Alt_L, XK_Alt_R, raw)
  {
    AltLogical();
    AltLeftPhysical(raw);
    AltRightPhysical(raw);
  }

  lemma AltLogical()
    ensures MirroredModifier(XK_Alt_L, XK_Alt_R)
  {
  }

  lemma AltLeftPhysical(raw: u32)
    ensures KeysymToPhysicalKey(XK_Alt_L, raw) == K.Code(C.AltLeft)
  {
  }

  lemma AltRightPhysical(raw: u32)
    ensures KeysymToPhysicalKey(XK_Alt_R, raw) == K.Code(C.AltRight)
  {
  }

  lemma SuperPair(raw: u32)
    ensures MirroredModifier(XK_Super_L, XK_Super_R) && DistinctPhysicalCodes(XK_Super_L, XK_Super_R, raw)
  {
    SuperLogical();
    SuperLeftPhysical(raw);
    SuperRightPhysical(raw);
  }

  lemma SuperLogical()
    ensures MirroredModifier(XK_Super_L, XK_Super_R)
  {
  }

  lemma SuperLeftPhysical(raw: u32)
    ensures KeysymToPhysicalKey(XK_Super_L, raw) == K.Code(C.SuperLeft)
  {
  }

  lemma SuperRightPhysical(raw: u32)
    ensures KeysymToPhysicalKey(XK_Super_R, raw) == K.Code(C.SuperRight)
  {
  }

  lemma HyperPair(raw: u32)
    ensures MirroredModifier(XK_Hyper_L, XK_Hyper_R)
    ensures KeysymToPhysicalKey(XK_Hyper_L, raw) == K.Physical.Unidentified(K.Xkb(raw))
    ensures KeysymToPhysicalKey(XK_Hyper_R, raw) == K.Physical.Unidentified(K.Xkb(raw))
  {
    HyperLogical();
    HyperLeftPhysical(raw);
    HyperRightPhysical(raw);
  }

  lemma HyperLogical()
    ensures MirroredModifier(XK_Hyper_L, XK_Hyper_R)
  {
  }

  lemma HyperLeftPhysical(raw: u32)
    ensures KeysymToPhysicalKey(XK_Hyper_L, raw) == K.Physical.Unidentified(K.Xkb(raw))
  {
  }

  lemma HyperRightPhysical(raw: u32)
    ensures KeysymToPhysicalKey(XK_Hyper_R, raw) == K.Physical.Unidentified(K.Xkb(raw))
  {
  }

  /** A keypad keysym that has the same logical key as a main-block keysym, but on the numpad. */
  predicate KeypadMirror(keypad: Keysym, main: Keysym)
  {
    && KeysymToIcedKey(keypad) == KeysymToIcedKey(main)
    && KeysymToIcedKey(keypad).Named?
    && KeysymLocation(keypad) == K.Location.Numpad
    && KeysymLocation(main) == K.Location.Standard
  }

  /** The keypad's navigation and editing keys are the main block's keys, located on the numpad. */
  lemma KeypadMirrorsMainBlock()
    ensures KeypadMirror(XK_KP_Home, XK_Home) && KeypadMirror(XK_KP_End, XK_End)
    ensures KeypadMirror(XK_KP_Left, XK_Left) && KeypadMirror(XK_KP_Right, XK_Right)
    ensures KeypadMirror(XK_KP_Up, XK_Up) && KeypadMirror(XK_KP_Down, XK_Down)
    ensures KeypadMirror(XK_KP_Page_Up, XK_Page_Up) && KeypadMirror(XK_KP_Page_Down, XK_Page_Down)
    ensures KeypadMirror(XK_KP_Insert, XK_Insert) && KeypadMirror(XK_KP_Delete, XK_Delete)
    ensures KeypadMirror(XK_KP_Enter, XK_Return) && KeypadMirror(XK_KP_Tab, XK_Tab)
  {
    KeypadMirrorHome();
    KeypadMirrorEnd();
    KeypadMirrorLeft();
    KeypadMirrorRight();
    KeypadMirrorUp();
    KeypadMirrorDown();
    KeypadMirrorPageUp();
    KeypadMirrorPageDown();
    KeypadMirrorInsert();
    KeypadMirrorDelete();
    KeypadMirrorEnter();
    KeypadMirrorTab();
  }

  lemma KeypadMirrorHome()
    ensures KeypadMirror(XK_KP_Home, XK_Home)
  {
  }

  lemma KeypadMirrorEnd()
    ensures KeypadMirror(XK_KP_End, XK_End)
  {
  }

  lemma KeypadMirrorLeft()
    ensures KeypadMirror(XK_KP_Left, XK_Left)
  {
  }

  lemma KeypadMirrorRight()
    ensures KeypadMirror(XK_KP_Right, XK_Right)
  {
  }

  lemma KeypadMirrorUp()
    ensures KeypadMirror(XK_KP_Up, XK_Up)
  {
  }

  lemma KeypadMirrorDown()
    ensures KeypadMirror(XK_KP_Down, XK_Down)
  {
  }

  lemma KeypadMirrorPageUp()
    ensures KeypadMirror(XK_KP_Page_Up, XK_Page_Up)
  {
  }

  lemma KeypadMirrorPageDown()
    ensures KeypadMirror(XK_KP_Page_Down, XK_Page_Down)
  {
  }

  lemma KeypadMirrorInsert()
    ensures KeypadMirror(XK_KP_Insert, XK_Insert)
  {
  }

  lemma KeypadMirrorDelete()
    ensures KeypadMirror(XK_KP_Delete, XK_Delete)
  {
  }

  lemma KeypadMirrorEnter()
    ensures KeypadMirror(XK_KP_Enter, XK_Return)
  {
  }

  lemma KeypadMirrorTab()
    ensures KeypadMirror(XK_KP_Tab, XK_Tab)
  {
  }

  /**
   * The keypad digits have no named logical key (their digit reaches the UI as
   * text) but are located on the numpad and have their own physical codes.
   */
  lemma KeypadDigitsHaveNoNamedKey(keysym: Keysym, raw: u32)
    requires XK_KP_0 <= keysym <= XK_KP_9
    ensures KeysymToIcedKey(keysym) == K.Key.Unidentified
    ensures KeysymLocation(keysym) == K.Location.Numpad
    ensures KeysymToPhysicalKey(keysym, raw).Code?
  {
    KeypadDigitLogical(keysym);
    KeypadDigitLocation(keysym);
    KeypadDigitPhysical(keysym, raw);
  }

  lemma KeypadDigitLogical(keysym: Keysym)
    requires XK_KP_0 <= keysym <= XK_KP_9
    ensures KeysymToIcedKey(keysym) == K.Key.Unidentified
  {
  }

  lemma KeypadDigitLocation(keysym: Keysym)
    requires XK_KP_0 <= keysym <= XK_KP_9
    ensures KeysymLocation(keysym) == K.Location.Numpad
  {
  }

  lemma KeypadDigitPhysical(keysym: Keysym, raw: u32)
    requires XK_KP_0 <= keysym <= XK_KP_9
    ensures KeysymToPhysicalKey(keysym, raw).Code?
  {
  }

  /**
   * Lower- and upper-case letters are one physical key: `a` and `A` (and so on
   * through `z`/`Z`) map to the same key code, whatever raw code accompanies them.
   */
  lemma LetterCaseSharesPhysicalKey(keysym: Keysym, raw: u32, raw': u32)
    requires XK_a <= keysym <= XK_z
    ensures KeysymToPhysicalKey(keysym, raw).Code?
    ensures KeysymToPhysicalKey(keysym, raw) == KeysymToPhysicalKey(keysym - (XK_a - XK_A), raw')
  {
  }

  /**
   * Printable Latin keysyms other than space have no named logical key and a
   * standard location: the key they stand for reaches the UI only as text.
   */
  lemma PrintableKeysymsAreUnidentified(keysym: Keysym)
    requires XK_space < keysym <= 0x7e
    ensures KeysymToIcedKey(keysym) == K.Key.Unidentified
    ensures KeysymLocation(keysym) == K.Location.Standard
  {
  }

  /** A known physical key does not depend on the raw code; an unknown one is exactly the raw code. */
  lemma PhysicalKeyUsesRawCodeOnlyAsFallback(keysym: Keysym, raw: u32, raw': u32)
    ensures KeysymToPhysicalKey(keysym, raw).Code? ==>
              KeysymToPhysicalKey(keysym, raw) == KeysymToPhysicalKey(keysym, raw')
    ensures KeysymToPhysicalKey(keysym, raw).Unidentified? ==>
              KeysymToPhysicalKey(keysym, raw') == K.Physical.Unidentified(K.Xkb(raw'))
  {
    UnlistedKeysymsKeepRawCode(keysym, raw);
    UnlistedKeysymsKeepRawCode(keysym, raw');
  }
}
