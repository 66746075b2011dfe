/**
 * The part of iced's named-key vocabulary (`iced::keyboard::key::Named`) that
 * the keysym translation table can produce.
 */
module NamedKeys {

  datatype NamedKey =
    | Backspace | Tab | Clear | Enter | Pause | ScrollLock | PrintScreen | Escape | Delete
    | Compose | CodeInput | SingleCandidate | AllCandidates | PreviousCandidate | KanjiMode
    | NonConvert | Convert | Romaji | Hiragana | HiraganaKatakana | Zenkaku | Hankaku
    | ZenkakuHankaku | KanaMode | Alphanumeric | Home | ArrowLeft | ArrowUp | ArrowRight
    | ArrowDown | PageUp | PageDown | End | Select | Execute | Insert | Undo | Redo | ContextMenu
    | Find | Cancel | Help | ModeChange | NumLock | F1 | F2 | F3 | F4 | F5 | F6 | F7 | F8 | F9
    | F10 | F11 | F12 | F13 | F14 | F15 | F16 | F17 | F18 | F19 | F20 | F21 | F22 | F23 | F24
    | F25 | F26 | F27 | F28 | F29 | F30 | F31 | F32 | F33 | F34 | F35 | Shift | Control
    | CapsLock | Alt | Super | Hyper | AltGraph | GroupNext | GroupPrevious | GroupFirst
    | GroupLast | EraseEof | Attn | Play | ExSel | CrSel | Space | BrightnessUp | BrightnessDown
    | Standby | AudioVolumeDown | AudioVolumeUp | MediaPlay | MediaStop | MediaTrackPrevious
    | MediaTrackNext | BrowserHome | LaunchMail | BrowserSearch | MediaRecord
    | LaunchApplication2 | LaunchCalendar | Power | BrowserBack | BrowserForward | BrowserRefresh
    | WakeUp | Eject | LaunchScreenSaver | LaunchWebBrowser | BrowserFavorites | MediaPause
    | LaunchApplication1 | MediaRewind | Close | Copy | Cut | LaunchSpreadsheet | LogOff | New
    | Open | Paste | LaunchPhone | MailReply | Save | MailSend | SpellCheck | SplitScreenToggle
    | LaunchMediaPlayer | LaunchWordProcessor | ZoomIn | ZoomOut | LaunchWebCam | MailForward
    | LaunchMusicPlayer | MediaFastForward | RandomToggle | Subtitle | MediaAudioTrack
    | Hibernate | AudioVolumeMute | VideoModeNext
}

/**
 * The part of iced's physical key-code vocabulary (`iced::keyboard::key::Code`)
 * that the keysym translation table can produce.
 */
module KeyCodes {

  datatype KeyCode =
    | Digit0 | Digit1 | Digit2 | Digit3 | Digit4 | Digit5 | Digit6 | Digit7 | Digit8 | Digit9
    | KeyA | KeyB | KeyC | KeyD | KeyE | KeyF | KeyG | KeyH | KeyI | KeyJ | KeyK | KeyL | KeyM
    | KeyN | KeyO | KeyP | KeyQ | KeyR | KeyS | KeyT | KeyU | KeyV | KeyW | KeyX | KeyY | KeyZ
    | Backquote | Minus | Equal | BracketLeft | BracketRight | Backslash | Semicolon | Quote
    | Comma | Period | Slash | Space | Tab | Enter | Backspace | Delete | Escape | ShiftLeft
    | ShiftRight | ControlLeft | ControlRight | AltLeft | AltRight | SuperLeft | SuperRight
    | CapsLock | NumLock | ScrollLock | Home | End | PageUp | PageDown | ArrowLeft | ArrowRight
    | ArrowUp | ArrowDown | Insert | PrintScreen | F1 | F2 | F3 | F4 | F5 | F6 | F7 | F8 | F9
    | F10 | F11 | F12 | F13 | F14 | F15 | F16 | F17 | F18 | F19 | F20 | F21 | F22 | F23 | F24
    | F25 | F26 | F27 | F28 | F29 | F30 | F31 | F32 | F33 | F34 | F35 | Numpad0 | Numpad1
    | Numpad2 | Numpad3 | Numpad4 | Numpad5 | Numpad6 | Numpad7 | Numpad8 | Numpad9
    | NumpadDecimal | NumpadDivide | NumpadMultiply | NumpadSubtract | NumpadAdd | NumpadEnter
    | NumpadEqual | Pause | AudioVolumeMute | AudioVolumeDown | AudioVolumeUp | MediaPlayPause
    | MediaStop | MediaTrackPrevious | MediaTrackNext | BrowserBack | BrowserForward
    | BrowserRefresh | BrowserStop | BrowserSearch | BrowserHome | BrowserFavorites | Power
    | Sleep | WakeUp | LaunchApp2 | LaunchMail | LaunchApp1 | MediaSelect | Copy | Cut | Paste
    | Convert | NonConvert | Lang2 | Lang4 | Lang3 | ContextMenu
}

/** The keyboard half of iced's event vocabulary (`iced::keyboard`). */
module IcedKeyboard {
  import opened Ints
  import opened Wrappers
  import NamedKeys
  import KeyCodes

  /** The layout-dependent (logical) identity of a key. */
  datatype Key = Named(named: NamedKeys.NamedKey) | Character(text: string) | Unidentified

  /** A platform key code carried verbatim when no physical code is known. */
  datatype NativeCode = Xkb(code: u32)

  /** The layout-independent (physical) identity of a key. */
  datatype Physical = Code(code: KeyCodes.KeyCode) | Unidentified(native: NativeCode)

  /** Where on the keyboard a key sits. */
  datatype Location = Standard | Left | Right | Numpad

  /** One flag of iced's `Modifiers` bit set; the set of flags is modelled as a Dafny `set`. */
  datatype Modifier = Shift | Ctrl | Alt | Logo

  type Modifiers = set<Modifier>

  /** `iced::keyboard::Event`, restricted to the two variants the translator produces. */
  datatype KeyboardEvent =
    | KeyPressed(key: Key, location: Location, modifiers: Modifiers, text: Option<string>,
                 modifiedKey: Key, physicalKey: Physical, repeat: bool)
    | KeyReleased(key: Key, location: Location, modifiers: Modifiers,
                  modifiedKey: Key, physicalKey: Physical)
}

/** The mouse half of iced's event vocabulary (`iced::mouse`). */
module IcedMouse {

  /**
   * A position in logical coordinates. The source carries `f64` pairs and
   * narrows them to `f32`; here positions are only ever copied, never computed with.
   */
  datatype Point = Point(x: real, y: real)

  datatype Button = Left | Right | Middle

  /** A scroll amount in whole lines (the discrete wheel steps). */
  datatype ScrollDelta = Lines(x: int, y: int)

  datatype MouseEvent =
    | CursorEntered
    | CursorLeft
    | CursorMoved(position: Point)
    | ButtonPressed(button: Button)
    | ButtonReleased(button: Button)
    | WheelScrolled(delta: ScrollDelta)

  /** The cursor interaction iced's widgets ask for (`iced::mouse::Interaction`). */
  datatype Interaction =
    | None | Hidden | Idle | ContextMenu | Help | Pointer | Progress | Wait | Cell
    | Crosshair | Text | Alias | Copy | Move | NoDrop | NotAllowed | Grab | Grabbing
    | ResizingHorizontally | ResizingVertically | ResizingDiagonallyUp
    | ResizingDiagonallyDown | ResizingColumn | ResizingRow | AllScroll | ZoomIn | ZoomOut
}

/** `iced::Event`: the abstract events the UI toolkit consumes. */
module IcedEvents {
  import opened IcedKeyboard
  import opened IcedMouse

  /** Window events; the instant carried by `RedrawRequested` is not modelled. */
  datatype WindowEvent = RedrawRequested

  datatype Event =
    | Keyboard(keyboard: KeyboardEvent)
    | Mouse(mouse: MouseEvent)
    | Window(window: WindowEvent)
}
