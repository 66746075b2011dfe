/**
 * The keysym-to-logical-key and keysym-to-location tables of the input
 * translator. Both are total: every keysym has an answer, and a keysym the
 * table does not list falls through to `Unidentified` or `Standard`.
 */
module LogicalKeyMap {
  import opened Ints
  import opened Keysyms
  import opened NamedKeys
  import K = IcedKeyboard

  /** Whether the logical-key table lists `keysym`. */
  predicate InNamedKeyTable(keysym: Keysym)
  {
    match keysym
    case XK_BackSpace | XK_Tab | XK_Clear | XK_Return | XK_Pause | XK_Scroll_Lock | XK_Sys_Req |
      XK_Escape | XK_Delete | XK_Multi_key | XK_Codeinput | XK_SingleCandidate |
      XK_MultipleCandidate | XK_PreviousCandidate | XK_Kanji | XK_Muhenkan | XK_Henkan_Mode |
      XK_Romaji | XK_Hiragana | XK_Hiragana_Katakana | XK_Zenkaku | XK_Hankaku |
      XK_Zenkaku_Hankaku | XK_Kana_Lock | XK_Kana_Shift | XK_Eisu_Shift | XK_Eisu_toggle |
      XK_Home | XK_Left | XK_Up | XK_Right | XK_Down | XK_Page_Up | XK_Page_Down | XK_End |
      XK_Select | XK_Print | XK_Execute | XK_Insert | XK_Undo | XK_Redo | XK_Menu | XK_Find |
      XK_Cancel | XK_Help | XK_Break | XK_Mode_switch | XK_Num_Lock | XK_KP_Tab | XK_KP_Enter |
      XK_KP_F1 | XK_KP_F2 | XK_KP_F3 | XK_KP_F4 | XK_KP_Home | XK_KP_Left | XK_KP_Up |
      XK_KP_Right | XK_KP_Down | XK_KP_Page_Up | XK_KP_Page_Down | XK_KP_End | XK_KP_Insert |
      XK_KP_Delete | XK_F1 | XK_F2 | XK_F3 | XK_F4 | XK_F5 | XK_F6 | XK_F7 | XK_F8 | XK_F9 |
      XK_F10 | XK_F11 | XK_F12 | XK_F13 | XK_F14 | XK_F15 | XK_F16 | XK_F17 | XK_F18 | XK_F19 |
      XK_F20 | XK_F21 | XK_F22 | XK_F23 | XK_F24 | XK_F25 | XK_F26 | XK_F27 | XK_F28 | XK_F29 |
      XK_F30 | XK_F31 | XK_F32 | XK_F33 | XK_F34 | XK_F35 | XK_Shift_L | XK_Shift_R |
      XK_Control_L | XK_Control_R | XK_Caps_Lock | XK_Alt_L | XK_Alt_R | XK_Super_L |
      XK_Super_R | XK_Hyper_L | XK_Hyper_R | XK_ISO_Level3_Shift | XK_ISO_Level3_Latch |
      XK_ISO_Level3_Lock | XK_ISO_Next_Group | XK_ISO_Prev_Group | XK_ISO_First_Group |
      XK_ISO_Last_Group | XK_ISO_Left_Tab | XK_ISO_Enter | XK_3270_EraseEOF | XK_3270_Attn |
      XK_3270_Play | XK_3270_ExSelect | XK_3270_CursorSelect | XK_3270_PrintScreen |
      XK_3270_Enter | XK_space | XF86XK_MonBrightnessUp | XF86XK_MonBrightnessDown |
      XF86XK_Standby | XF86XK_AudioLowerVolume | XF86XK_AudioRaiseVolume | XF86XK_AudioPlay |
      XF86XK_AudioStop | XF86XK_AudioPrev | XF86XK_AudioNext | XF86XK_HomePage | XF86XK_Mail |
      XF86XK_Search | XF86XK_AudioRecord | XF86XK_Calculator | XF86XK_Calendar |
      XF86XK_PowerDown | XF86XK_Back | XF86XK_Forward | XF86XK_Refresh | XF86XK_PowerOff |
      XF86XK_WakeUp | XF86XK_Eject | XF86XK_ScreenSaver | XF86XK_WWW | XF86XK_Sleep |
      XF86XK_Favorites | XF86XK_AudioPause | XF86XK_MyComputer | XF86XK_AudioRewind |
      XF86XK_Calculater | XF86XK_Close | XF86XK_Copy | XF86XK_Cut | XF86XK_Excel |
      XF86XK_LogOff | XF86XK_MySites | XF86XK_New | XF86XK_Open | XF86XK_Paste | XF86XK_Phone |
      XF86XK_Reply | XF86XK_Reload | XF86XK_Save | XF86XK_Send | XF86XK_Spell |
      XF86XK_SplitScreen | XF86XK_Video | XF86XK_Word | XF86XK_ZoomIn | XF86XK_ZoomOut |
      XF86XK_WebCam | XF86XK_MailForward | XF86XK_Music | XF86XK_AudioForward |
      XF86XK_AudioRandomPlay | XF86XK_Subtitle | XF86XK_AudioCycleTrack | XF86XK_Suspend |
      XF86XK_Hibernate | XF86XK_AudioMute | XF86XK_Next_VMode | SunXK_Copy | SunXK_Open |
      SunXK_Paste | SunXK_Cut | SunXK_AudioLowerVolume | SunXK_AudioMute |
      SunXK_AudioRaiseVolume | SunXK_VideoLowerBrightness | SunXK_VideoRaiseBrightness => true
    case _ => false
  }

  /** The sided modifier keysyms, located on the left and on the right. */
  const LEFT_MODIFIERS: set<Keysym> := {XK_Shift_L, XK_Control_L, XK_Alt_L, XK_Super_L, XK_Hyper_L}
  const RIGHT_MODIFIERS: set<Keysym> := {XK_Shift_R, XK_Control_R, XK_Alt_R, XK_Super_R, XK_Hyper_R}

  /** The keypad keysyms, located on the numpad. */
  const KEYPAD_KEYSYMS: set<Keysym> := {
    XK_KP_0, XK_KP_1, XK_KP_2, XK_KP_3, XK_KP_4, XK_KP_5, XK_KP_6, XK_KP_7, XK_KP_8, XK_KP_9,
    XK_KP_Space, XK_KP_Tab, XK_KP_Enter, XK_KP_F1, XK_KP_F2, XK_KP_F3, XK_KP_F4, XK_KP_Home,
    XK_KP_Left, XK_KP_Up, XK_KP_Right, XK_KP_Down, XK_KP_Page_Up, XK_KP_Page_Down, XK_KP_End,
    XK_KP_Begin, XK_KP_Insert, XK_KP_Delete, XK_KP_Equal, XK_KP_Multiply, XK_KP_Add,
    XK_KP_Separator, XK_KP_Subtract, XK_KP_Decimal, XK_KP_Divide
  }

  /**
   * `keysym_to_iced_key`: the layout symbol's named logical key, `Unidentified`
   * for every keysym outside the table. The table never yields a character key:
   * printable keys are identified only through the text they carry.
   */
  function KeysymToIcedKey(keysym: Keysym): (r: K.Key)
    ensures !r.Character?
  {
    match keysym
    // TTY function keys
    case XK_BackSpace => K.Named(Backspace)
    case XK_Tab => K.Named(Tab)
    case XK_Clear => K.Named(Clear)
    case XK_Return => K.Named(Enter)
    case XK_Pause => K.Named(Pause)
    case XK_Scroll_Lock => K.Named(ScrollLock)
    case XK_Sys_Req => K.Named(PrintScreen)
    case XK_Escape => K.Named(Escape)
    case XK_Delete => K.Named(Delete)

    // IME keys
    case XK_Multi_key => K.Named(Compose)
    case XK_Codeinput => K.Named(CodeInput)
    case XK_SingleCandidate => K.Named(SingleCandidate)
    case XK_MultipleCandidate => K.Named(AllCandidates)
    case XK_PreviousCandidate => K.Named(PreviousCandidate)

    // Japanese key
    case XK_Kanji => K.Named(KanjiMode)
    case XK_Muhenkan => K.Named(NonConvert)
    case XK_Henkan_Mode => K.Named(Convert)
    case XK_Romaji => K.Named(Romaji)
    case XK_Hiragana => K.Named(Hiragana)
    case XK_Hiragana_Katakana => K.Named(HiraganaKatakana)
    case XK_Zenkaku => K.Named(Zenkaku)
    case XK_Hankaku => K.Named(Hankaku)
    case XK_Zenkaku_Hankaku => K.Named(ZenkakuHankaku)
    case XK_Kana_Lock => K.Named(KanaMode)
    case XK_Kana_Shift => K.Named(KanaMode)
    case XK_Eisu_Shift => K.Named(Alphanumeric)
    case XK_Eisu_toggle => K.Named(Alphanumeric)

    // Cursor control & motion
    case XK_Home => K.Named(Home)
    case XK_Left => K.Named(ArrowLeft)
    case XK_Up => K.Named(ArrowUp)
    case XK_Right => K.Named(ArrowRight)
    case XK_Down => K.Named(ArrowDown)
    case XK_Page_Up => K.Named(PageUp)
    case XK_Page_Down => K.Named(PageDown)
    case XK_End => K.Named(End)

    // Misc. functions
    case XK_Select => K.Named(Select)
    case XK_Print => K.Named(PrintScreen)
    case XK_Execute => K.Named(Execute)
    case XK_Insert => K.Named(Insert)
    case XK_Undo => K.Named(Undo)
    case XK_Redo => K.Named(Redo)
    case XK_Menu => K.Named(ContextMenu)
    case XK_Find => K.Named(Find)
    case XK_Cancel => K.Named(Cancel)
    case XK_Help => K.Named(Help)
    case XK_Break => K.Named(Pause)
    case XK_Mode_switch => K.Named(ModeChange)
    case XK_Num_Lock => K.Named(NumLock)

    // Keypad keys
    case XK_KP_Tab => K.Named(Tab)
    case XK_KP_Enter => K.Named(Enter)
    case XK_KP_F1 => K.Named(F1)
    case XK_KP_F2 => K.Named(F2)
    case XK_KP_F3 => K.Named(F3)
    case XK_KP_F4 => K.Named(F4)
    case XK_KP_Home => K.Named(Home)
    case XK_KP_Left => K.Named(ArrowLeft)
    case XK_KP_Up => K.Named(ArrowUp)
    case XK_KP_Right => K.Named(ArrowRight)
    case XK_KP_Down => K.Named(ArrowDown)
    case XK_KP_Page_Up => K.Named(PageUp)
    case XK_KP_Page_Down => K.Named(PageDown)
    case XK_KP_End => K.Named(End)
    case XK_KP_Insert => K.Named(Insert)
    case XK_KP_Delete => K.Named(Delete)

    // Function keys
    case XK_F1 => K.Named(F1)
    case XK_F2 => K.Named(F2)
    case XK_F3 => K.Named(F3)
    case XK_F4 => K.Named(F4)
    case XK_F5 => K.Named(F5)
    case XK_F6 => K.Named(F6)
    case XK_F7 => K.Named(F7)
    case XK_F8 => K.Named(F8)
    case XK_F9 => K.Named(F9)
    case XK_F10 => K.Named(F10)
    case XK_F11 => K.Named(F11)
    case XK_F12 => K.Named(F12)
    case XK_F13 => K.Named(F13)
    case XK_F14 => K.Named(F14)
    case XK_F15 => K.Named(F15)
    case XK_F16 => K.Named(F16)
    case XK_F17 => K.Named(F17)
    case XK_F18 => K.Named(F18)
    case XK_F19 => K.Named(F19)
    case XK_F20 => K.Named(F20)
    case XK_F21 => K.Named(F21)
    case XK_F22 => K.Named(F22)
    case XK_F23 => K.Named(F23)
    case XK_F24 => K.Named(F24)
    case XK_F25 => K.Named(F25)
    case XK_F26 => K.Named(F26)
    case XK_F27 => K.Named(F27)
    case XK_F28 => K.Named(F28)
    case XK_F29 => K.Named(F29)
    case XK_F30 => K.Named(F30)
    case XK_F31 => K.Named(F31)
    case XK_F32 => K.Named(F32)
    case XK_F33 => K.Named(F33)
    case XK_F34 => K.Named(F34)
    case XK_F35 => K.Named(F35)

    // Modifiers
    case XK_Shift_L => K.Named(Shift)
    case XK_Shift_R => K.Named(Shift)
    case XK_Control_L => K.Named(Control)
    case XK_Control_R => K.Named(Control)
    case XK_Caps_Lock => K.Named(CapsLock)
    case XK_Alt_L => K.Named(Alt)
    case XK_Alt_R => K.Named(Alt)
    case XK_Super_L => K.Named(Super)
    case XK_Super_R => K.Named(Super)
    case XK_Hyper_L => K.Named(Hyper)
    case XK_Hyper_R => K.Named(Hyper)

    // XKB function and modifier keys
    case XK_ISO_Level3_Shift => K.Named(AltGraph)
    case XK_ISO_Level3_Latch => K.Named(AltGraph)
    case XK_ISO_Level3_Lock => K.Named(AltGraph)
    case XK_ISO_Next_Group => K.Named(GroupNext)
    case XK_ISO_Prev_Group => K.Named(GroupPrevious)
    case XK_ISO_First_Group => K.Named(GroupFirst)
    case XK_ISO_Last_Group => K.Named(GroupLast)
    case XK_ISO_Left_Tab => K.Named(Tab)
    case XK_ISO_Enter => K.Named(Enter)

    // 3270 terminal keys
    case XK_3270_EraseEOF => K.Named(EraseEof)
    case XK_3270_Attn => K.Named(Attn)
    case XK_3270_Play => K.Named(Play)
    case XK_3270_ExSelect => K.Named(ExSel)
    case XK_3270_CursorSelect => K.Named(CrSel)
    case XK_3270_PrintScreen => K.Named(PrintScreen)
    case XK_3270_Enter => K.Named(Enter)
    case XK_space => K.Named(Space)

    // XFree86 - Backlight controls
    case XF86XK_MonBrightnessUp => K.Named(BrightnessUp)
    case XF86XK_MonBrightnessDown => K.Named(BrightnessDown)

    // XFree86 - "Internet"
    case XF86XK_Standby => K.Named(Standby)
    case XF86XK_AudioLowerVolume => K.Named(AudioVolumeDown)
    case XF86XK_AudioRaiseVolume => K.Named(AudioVolumeUp)
    case XF86XK_AudioPlay => K.Named(MediaPlay)
    case XF86XK_AudioStop => K.Named(MediaStop)
    case XF86XK_AudioPrev => K.Named(MediaTrackPrevious)
    case XF86XK_AudioNext => K.Named(MediaTrackNext)
    case XF86XK_HomePage => K.Named(BrowserHome)
    case XF86XK_Mail => K.Named(LaunchMail)
    case XF86XK_Search => K.Named(BrowserSearch)
    case XF86XK_AudioRecord => K.Named(MediaRecord)

    // XFree86 - PDA
    case XF86XK_Calculator => K.Named(LaunchApplication2)
    case XF86XK_Calendar => K.Named(LaunchCalendar)
    case XF86XK_PowerDown => K.Named(Power)

    // XFree86 - More "Internet"
    case XF86XK_Back => K.Named(BrowserBack)
    case XF86XK_Forward => K.Named(BrowserForward)
    case XF86XK_Refresh => K.Named(BrowserRefresh)
    case XF86XK_PowerOff => K.Named(Power)
    case XF86XK_WakeUp => K.Named(WakeUp)
    case XF86XK_Eject => K.Named(Eject)
    case XF86XK_ScreenSaver => K.Named(LaunchScreenSaver)
    case XF86XK_WWW => K.Named(LaunchWebBrowser)
    case XF86XK_Sleep => K.Named(Standby)
    case XF86XK_Favorites => K.Named(BrowserFavorites)
    case XF86XK_AudioPause => K.Named(MediaPause)
    case XF86XK_MyComputer => K.Named(LaunchApplication1)
    case XF86XK_AudioRewind => K.Named(MediaRewind)
    case XF86XK_Calculater => K.Named(LaunchApplication2)
    case XF86XK_Close => K.Named(Close)
    case XF86XK_Copy => K.Named(Copy)
    case XF86XK_Cut => K.Named(Cut)
    case XF86XK_Excel => K.Named(LaunchSpreadsheet)
    case XF86XK_LogOff => K.Named(LogOff)
    case XF86XK_MySites => K.Named(BrowserFavorites)
    case XF86XK_New => K.Named(New)
    case XF86XK_Open => K.Named(Open)
    case XF86XK_Paste => K.Named(Paste)
    case XF86XK_Phone => K.Named(LaunchPhone)
    case XF86XK_Reply => K.Named(MailReply)
    case XF86XK_Reload => K.Named(BrowserRefresh)
    case XF86XK_Save => K.Named(Save)
    case XF86XK_Send => K.Named(MailSend)
    case XF86XK_Spell => K.Named(SpellCheck)
    case XF86XK_SplitScreen => K.Named(SplitScreenToggle)
    case XF86XK_Video => K.Named(LaunchMediaPlayer)
    case XF86XK_Word => K.Named(LaunchWordProcessor)
    case XF86XK_ZoomIn => K.Named(ZoomIn)
    case XF86XK_ZoomOut => K.Named(ZoomOut)
    case XF86XK_WebCam => K.Named(LaunchWebCam)
    case XF86XK_MailForward => K.Named(MailForward)
    case XF86XK_Music => K.Named(LaunchMusicPlayer)
    case XF86XK_AudioForward => K.Named(MediaFastForward)
    case XF86XK_AudioRandomPlay => K.Named(RandomToggle)
    case XF86XK_Subtitle => K.Named(Subtitle)
    case XF86XK_AudioCycleTrack => K.Named(MediaAudioTrack)
    case XF86XK_Suspend => K.Named(Standby)
    case XF86XK_Hibernate => K.Named(Hibernate)
    case XF86XK_AudioMute => K.Named(AudioVolumeMute)
    case XF86XK_Next_VMode => K.Named(VideoModeNext)

    // Sun keyboard keys
    case SunXK_Copy => K.Named(Copy)
    case SunXK_Open => K.Named(Open)
    case SunXK_Paste => K.Named(Paste)
    case SunXK_Cut => K.Named(Cut)
    case SunXK_AudioLowerVolume => K.Named(AudioVolumeDown)
    case SunXK_AudioMute => K.Named(AudioVolumeMute)
    case SunXK_AudioRaiseVolume => K.Named(AudioVolumeUp)
    case SunXK_VideoLowerBrightness => K.Named(BrightnessDown)
    case SunXK_VideoRaiseBrightness => K.Named(BrightnessUp)

    case _ => K.Key.Unidentified
  }

  /**
   * The table's fallback: a keysym has a named logical key exactly when the
   * table lists it, and every other keysym is `Unidentified`.
   */
  lemma UnlistedKeysymsAreUnidentified(keysym: Keysym)
    ensures KeysymToIcedKey(keysym).Named? <==> InNamedKeyTable(keysym)
    ensures KeysymToIcedKey(keysym) == K.Key.Unidentified <==> !InNamedKeyTable(keysym)
  {
  }

  /** `keysym_location`: left/right for sided modifiers, numpad for keypad keys, standard otherwise. */
  function KeysymLocation(keysym: Keysym): (r: K.Location)
    ensures r == K.Location.Left <==>
              keysym == XK_Shift_L || keysym == XK_Control_L || keysym == XK_Alt_L ||
              keysym == XK_Super_L || keysym == XK_Hyper_L
    ensures r == K.Location.Right <==>
              keysym == XK_Shift_R || keysym == XK_Control_R || keysym == XK_Alt_R ||
              keysym == XK_Super_R || keysym == XK_Hyper_R
    ensures r == K.Location.Numpad <==> keysym in KEYPAD_KEYSYMS
    ensures r == K.Location.Standard <==>
              keysym !in LEFT_MODIFIERS && keysym !in RIGHT_MODIFIERS && keysym !in KEYPAD_KEYSYMS
  {
    match keysym
    case XK_Shift_L | XK_Control_L | XK_Alt_L | XK_Super_L | XK_Hyper_L => K.Location.Left
    case XK_Shift_R | XK_Control_R | XK_Alt_R | XK_Super_R | XK_Hyper_R => K.Location.Right
    case XK_KP_0 | XK_KP_1 | XK_KP_2 | XK_KP_3 | XK_KP_4 | XK_KP_5 | XK_KP_6 | XK_KP_7 |
      XK_KP_8 | XK_KP_9 | XK_KP_Space | XK_KP_Tab | XK_KP_Enter | XK_KP_F1 | XK_KP_F2 |
      XK_KP_F3 | XK_KP_F4 | XK_KP_Home | XK_KP_Left | XK_KP_Up | XK_KP_Right | XK_KP_Down |
      XK_KP_Page_Up | XK_KP_Page_Down | XK_KP_End | XK_KP_Begin | XK_KP_Insert | XK_KP_Delete |
      XK_KP_Equal | XK_KP_Multiply | XK_KP_Add | XK_KP_Separator | XK_KP_Subtract |
      XK_KP_Decimal | XK_KP_Divide => K.Location.Numpad
    case _ => K.Location.Standard
  }

  /** `keysym_to_iced_key_and_loc`: both lookups for one keysym. */
  function KeysymToIcedKeyAndLoc(keysym: Keysym): (r: (K.Key, K.Location))
    ensures r.0 == KeysymToIcedKey(keysym) && r.1 == KeysymLocation(keysym)
  {
    (KeysymToIcedKey(keysym), KeysymLocation(keysym))
  }
}

/**
 * The keysym-to-physical-key table. A keysym outside the table keeps the raw
 * hardware code verbatim, so that downstream shortcut matching still sees it.
 */
module PhysicalKeyMap {
  import opened Ints
  import opened Wrappers
  import opened Keysyms
  import opened KeyCodes
  import K = IcedKeyboard

  /** Whether the physical-key table lists `keysym`. */
  predicate InPhysicalKeyTable(keysym: Keysym)
  {
    match keysym
    case XK_0 | XK_1 | XK_2 | XK_3 | XK_4 | XK_5 | XK_6 | XK_7 | XK_8 | XK_9 | XK_a | XK_A |
      XK_b | XK_B | XK_c | XK_C | XK_d | XK_D | XK_e | XK_E | XK_f | XK_F | XK_g | XK_G | XK_h |
      XK_H | XK_i | XK_I | XK_j | XK_J | XK_k | XK_K | XK_l | XK_L | XK_m | XK_M | XK_n | XK_N |
      XK_o | XK_O | XK_p | XK_P | XK_q | XK_Q | XK_r | XK_R | XK_s | XK_S | XK_t | XK_T | XK_u |
      XK_U | XK_v | XK_V | XK_w | XK_W | XK_x | XK_X | XK_y | XK_Y | XK_z | XK_Z | XK_grave |
      XK_minus | XK_equal | XK_bracketleft | XK_bracketright | XK_backslash | XK_semicolon |
      XK_apostrophe | XK_comma | XK_period | XK_slash | XK_space | XK_Tab | XK_Return |
      XK_BackSpace | XK_Delete | XK_Escape | XK_Shift_L | XK_Shift_R | XK_Control_L |
      XK_Control_R | XK_Alt_L | XK_Alt_R | XK_Super_L | XK_Super_R | XK_Caps_Lock | XK_Num_Lock |
      XK_Scroll_Lock | XK_Home | XK_End | XK_Page_Up | XK_Page_Down | XK_Left | XK_Right |
      XK_Up | XK_Down | XK_Insert | XK_Print | XK_Sys_Req | XK_F1 | XK_F2 | XK_F3 | XK_F4 |
      XK_F5 | XK_F6 | XK_F7 | XK_F8 | XK_F9 | XK_F10 | XK_F11 | XK_F12 | XK_F13 | XK_F14 |
      XK_F15 | XK_F16 | XK_F17 | XK_F18 | XK_F19 | XK_F20 | XK_F21 | XK_F22 | XK_F23 | XK_F24 |
      XK_F25 | XK_F26 | XK_F27 | XK_F28 | XK_F29 | XK_F30 | XK_F31 | XK_F32 | XK_F33 | XK_F34 |
      XK_F35 | XK_KP_0 | XK_KP_1 | XK_KP_2 | XK_KP_3 | XK_KP_4 | XK_KP_5 | XK_KP_6 | XK_KP_7 |
      XK_KP_8 | XK_KP_9 | XK_KP_Decimal | XK_KP_Divide | XK_KP_Multiply | XK_KP_Subtract |
      XK_KP_Add | XK_KP_Enter | XK_KP_Equal | XK_Pause | XK_Break | XF86XK_AudioMute |
      XF86XK_AudioLowerVolume | XF86XK_AudioRaiseVolume | XF86XK_AudioPlay | XF86XK_AudioStop |
      XF86XK_AudioPrev | XF86XK_AudioNext | XF86XK_Back | XF86XK_Forward | XF86XK_Refresh |
      XF86XK_Stop | XF86XK_Search | XF86XK_HomePage | XF86XK_Favorites | XF86XK_PowerOff |
      XF86XK_Sleep | XF86XK_WakeUp | XF86XK_Calculator | XF86XK_Mail | XF86XK_MyComputer |
      XF86XK_Music | XF86XK_Video | XF86XK_Copy | XF86XK_Cut | XF86XK_Paste | XK_Henkan_Mode |
      XK_Muhenkan | XK_Kanji | XK_Hiragana | XK_Katakana | XK_Menu => true
    case _ => false
  }

  /** The key code the table of `keysym_to_physical_key` gives `keysym`, if it lists it. */
  function TableCode(keysym: Keysym): Option<KeyCode>
  {
    match keysym
    // Digit keys
    case XK_0 => Some(Digit0)
    case XK_1 => Some(Digit1)
    case XK_2 => Some(Digit2)
    case XK_3 => Some(Digit3)
    case XK_4 => Some(Digit4)
    case XK_5 => Some(Digit5)
    case XK_6 => Some(Digit6)
    case XK_7 => Some(Digit7)
    case XK_8 => Some(Digit8)
    case XK_9 => Some(Digit9)

    // Letter keys
    case XK_a | XK_A => Some(KeyA)
    case XK_b | XK_B => Some(KeyB)
    case XK_c | XK_C => Some(KeyC)
    case XK_d | XK_D => Some(KeyD)
    case XK_e | XK_E => Some(KeyE)
    case XK_f | XK_F => Some(KeyF)
    case XK_g | XK_G => Some(KeyG)
    case XK_h | XK_H => Some(KeyH)
    case XK_i | XK_I => Some(KeyI)
    case XK_j | XK_J => Some(KeyJ)
    case XK_k | XK_K => Some(KeyK)
    case XK_l | XK_L => Some(KeyL)
    case XK_m | XK_M => Some(KeyM)
    case XK_n | XK_N => Some(KeyN)
    case XK_o | XK_O => Some(KeyO)
    case XK_p | XK_P => Some(KeyP)
    case XK_q | XK_Q => Some(KeyQ)
    case XK_r | XK_R => Some(KeyR)
    case XK_s | XK_S => Some(KeyS)
    case XK_t | XK_T => Some(KeyT)
    case XK_u | XK_U => Some(KeyU)
    case XK_v | XK_V => Some(KeyV)
    case XK_w | XK_W => Some(KeyW)
    case XK_x | XK_X => Some(KeyX)
    case XK_y | XK_Y => Some(KeyY)
    case XK_z | XK_Z => Some(KeyZ)

    // Punctuation
    case XK_grave => Some(Backquote)
    case XK_minus => Some(Minus)
    case XK_equal => Some(Equal)
    case XK_bracketleft => Some(BracketLeft)
    case XK_bracketright => Some(BracketRight)
    case XK_backslash => Some(Backslash)
    case XK_semicolon => Some(Semicolon)
    case XK_apostrophe => Some(Quote)
    case XK_comma => Some(Comma)
    case XK_period => Some(Period)
    case XK_slash => Some(Slash)

    // Whitespace and control
    case XK_space => Some(Space)
    case XK_Tab => Some(Tab)
    case XK_Return => Some(Enter)
    case XK_BackSpace => Some(Backspace)
    case XK_Delete => Some(Delete)
    case XK_Escape => Some(Escape)

    // Modifiers
    case XK_Shift_L => Some(ShiftLeft)
    case XK_Shift_R => Some(ShiftRight)
    case XK_Control_L => Some(ControlLeft)
    case XK_Control_R => Some(ControlRight)
    case XK_Alt_L => Some(AltLeft)
    case XK_Alt_R => Some(AltRight)
    case XK_Super_L => Some(SuperLeft)
    case XK_Super_R => Some(SuperRight)
    case XK_Caps_Lock => Some(CapsLock)
    case XK_Num_Lock => Some(NumLock)
    case XK_Scroll_Lock => Some(ScrollLock)

    // Navigation
    case XK_Home => Some(Home)
    case XK_End => Some(End)
    case XK_Page_Up => Some(PageUp)
    case XK_Page_Down => Some(PageDown)
    case XK_Left => Some(ArrowLeft)
    case XK_Right => Some(ArrowRight)
    case XK_Up => Some(ArrowUp)
    case XK_Down => Some(ArrowDown)

    // Insert/Print
    case XK_Insert => Some(Insert)
    case XK_Print => Some(PrintScreen)
    case XK_Sys_Req => Some(PrintScreen)

    // Function keys
    case XK_F1 => Some(F1)
    case XK_F2 => Some(F2)
    case XK_F3 => Some(F3)
    case XK_F4 => Some(F4)
    case XK_F5 => Some(F5)
    case XK_F6 => Some(F6)
    case XK_F7 => Some(F7)
    case XK_F8 => Some(F8)
    case XK_F9 => Some(F9)
    case XK_F10 => Some(F10)
    case XK_F11 => Some(F11)
    case XK_F12 => Some(F12)
    case XK_F13 => Some(F13)
    case XK_F14 => Some(F14)
    case XK_F15 => Some(F15)
    case XK_F16 => Some(F16)
    case XK_F17 => Some(F17)
    case XK_F18 => Some(F18)
    case XK_F19 => Some(F19)
    case XK_F20 => Some(F20)
    case XK_F21 => Some(F21)
    case XK_F22 => Some(F22)
    case XK_F23 => Some(F23)
    case XK_F24 => Some(F24)
    case XK_F25 => Some(F25)
    case XK_F26 => Some(F26)
    case XK_F27 => Some(F27)
    case XK_F28 => Some(F28)
    case XK_F29 => Some(F29)
    case XK_F30 => Some(F30)
    case XK_F31 => Some(F31)
    case XK_F32 => Some(F32)
    case XK_F33 => Some(F33)
    case XK_F34 => Some(F34)
    case XK_F35 => Some(F35)

    // Keypad
    case XK_KP_0 => Some(Numpad0)
    case XK_KP_1 => Some(Numpad1)
    case XK_KP_2 => Some(Numpad2)
    case XK_KP_3 => Some(Numpad3)
    case XK_KP_4 => Some(Numpad4)
    case XK_KP_5 => Some(Numpad5)
    case XK_KP_6 => Some(Numpad6)
    case XK_KP_7 => Some(Numpad7)
    case XK_KP_8 => Some(Numpad8)
    case XK_KP_9 => Some(Numpad9)
    case XK_KP_Decimal => Some(NumpadDecimal)
    case XK_KP_Divide => Some(NumpadDivide)
    case XK_KP_Multiply => Some(NumpadMultiply)
    case XK_KP_Subtract => Some(NumpadSubtract)
    case XK_KP_Add => Some(NumpadAdd)
    case XK_KP_Enter => Some(NumpadEnter)
    case XK_KP_Equal => Some(NumpadEqual)

    // Pause/Break
    case XK_Pause => Some(Pause)
    case XK_Break => Some(Pause)

    // Media keys
    case XF86XK_AudioMute => Some(AudioVolumeMute)
    case XF86XK_AudioLowerVolume => Some(AudioVolumeDown)
    case XF86XK_AudioRaiseVolume => Some(AudioVolumeUp)
    case XF86XK_AudioPlay => Some(MediaPlayPause)
    case XF86XK_AudioStop => Some(MediaStop)
    case XF86XK_AudioPrev => Some(MediaTrackPrevious)
    case XF86XK_AudioNext => Some(MediaTrackNext)

    // Browser keys
    case XF86XK_Back => Some(BrowserBack)
    case XF86XK_Forward => Some(BrowserForward)
    case XF86XK_Refresh => Some(BrowserRefresh)
    case XF86XK_Stop => Some(BrowserStop)
    case XF86XK_Search => Some(BrowserSearch)
    case XF86XK_HomePage => Some(BrowserHome)
    case XF86XK_Favorites => Some(BrowserFavorites)

    // Power/Sleep
    case XF86XK_PowerOff => Some(Power)
    case XF86XK_Sleep => Some(Sleep)
    case XF86XK_WakeUp => Some(WakeUp)

    // Application keys
    case XF86XK_Calculator => Some(LaunchApp2)
    case XF86XK_Mail => Some(LaunchMail)
    case XF86XK_MyComputer => Some(LaunchApp1)
    case XF86XK_Music => Some(MediaSelect)
    case XF86XK_Video => Some(LaunchApp2)

    // Edit keys
    case XF86XK_Copy => Some(Copy)
    case XF86XK_Cut => Some(Cut)
    case XF86XK_Paste => Some(Paste)

    // Japanese
    case XK_Henkan_Mode => Some(Convert)
    case XK_Muhenkan => Some(NonConvert)
    case XK_Kanji => Some(Lang2)
    case XK_Hiragana => Some(Lang4)
    case XK_Katakana => Some(Lang3)

    // Context menu
    case XK_Menu => Some(ContextMenu)

    case _ => None
  }

  /**
   * `keysym_to_physical_key`: the table's key code, or the raw code wrapped
   * as an xkb native code for a keysym the table does not list.
   */
  function KeysymToPhysicalKey(keysym: Keysym, rawCode: u32): (r: K.Physical)
    ensures r.Unidentified? ==> r.native == K.Xkb(rawCode)
  {
    match TableCode(keysym)
    case Some(code) => K.Code(code)
    case None => K.Physical.Unidentified(K.Xkb(rawCode))
  }

  /**
   * The table's fallback: a keysym has a known key code exactly when the table
   * lists it, and every other keysym carries the raw hardware code.
   */
  lemma UnlistedKeysymsKeepRawCode(keysym: Keysym, rawCode: u32)
    ensures KeysymToPhysicalKey(keysym, rawCode).Code? <==> InPhysicalKeyTable(keysym)
    ensures !InPhysicalKeyTable(keysym) ==>
              KeysymToPhysicalKey(keysym, rawCode) == K.Physical.Unidentified(K.Xkb(rawCode))
  {
  }
}

/** The pointer-button table: Linux evdev button codes to iced mouse buttons. */
module ButtonMap {
  import opened Ints
  import opened Wrappers
  import opened IcedMouse

  const BTN_LEFT: u32 := 0x110
  const BTN_RIGHT: u32 := 0x111
  const BTN_MIDDLE: u32 := 0x112

  /** `wayland_button_to_iced`: only the left, right and middle button codes are recognised. */
  function WaylandButtonToIced(button: u32): (r: Option<Button>)
    ensures r.Some? <==> BTN_LEFT <= button <= BTN_MIDDLE
    ensures button == BTN_LEFT ==> r == Some(Left)
    ensures button == BTN_RIGHT ==> r == Some(Right)
    ensures button == BTN_MIDDLE ==> r == Some(Middle)
  {
    match button
    case 0x110 => Some(Left)
    case 0x111 => Some(Right)
    case 0x112 => Some(Middle)
    case _ => Option.None
  }

  /** Distinct recognised codes give distinct buttons, so no press is reported as another button. */
  lemma WaylandButtonToIcedInjective(a: u32, b: u32)
    requires WaylandButtonToIced(a).Some? && WaylandButtonToIced(a) == WaylandButtonToIced(b)
    ensures a == b
  {
  }
}
