/**
 * The keyboard symbols (xkb keysyms) the translation tables name, as the
 * 32-bit values of the X11 keysym headers. A keysym is an arbitrary `u32`:
 * every value not named here is an unlisted keysym that the tables send
 * to their fallback. Names follow the C headers (`XK_`, `XF86XK_`, `SunXK_`).
 */
module Keysyms {
  import opened Ints

  type Keysym = u32

  // TTY function keys
  const XK_BackSpace: Keysym := 0xff08
  const XK_Tab: Keysym := 0xff09
  const XK_Clear: Keysym := 0xff0b
  const XK_Return: Keysym := 0xff0d
  const XK_Pause: Keysym := 0xff13
  const XK_Scroll_Lock: Keysym := 0xff14
  const XK_Sys_Req: Keysym := 0xff15
  const XK_Escape: Keysym := 0xff1b
  const XK_Delete: Keysym := 0xffff

  // International and multi-key character composition
  const XK_Multi_key: Keysym := 0xff20
  const XK_Codeinput: Keysym := 0xff37
  const XK_SingleCandidate: Keysym := 0xff3c
  const XK_MultipleCandidate: Keysym := 0xff3d
  const XK_PreviousCandidate: Keysym := 0xff3e

  // Japanese keyboard support
  const XK_Kanji: Keysym := 0xff21
  const XK_Muhenkan: Keysym := 0xff22
  const XK_Henkan_Mode: Keysym := 0xff23
  const XK_Romaji: Keysym := 0xff24
  const XK_Hiragana: Keysym := 0xff25
  const XK_Katakana: Keysym := 0xff26
  const XK_Hiragana_Katakana: Keysym := 0xff27
  const XK_Zenkaku: Keysym := 0xff28
  const XK_Hankaku: Keysym := 0xff29
  const XK_Zenkaku_Hankaku: Keysym := 0xff2a
  const XK_Kana_Lock: Keysym := 0xff2d
  const XK_Kana_Shift: Keysym := 0xff2e
  const XK_Eisu_Shift: Keysym := 0xff2f
  const XK_Eisu_toggle: Keysym := 0xff30

  // Cursor control and motion
  const XK_Home: Keysym := 0xff50
  const XK_Left: Keysym := 0xff51
  const XK_Up: Keysym := 0xff52
  const XK_Right: Keysym := 0xff53
  const XK_Down: Keysym := 0xff54
  const XK_Page_Up: Keysym := 0xff55
  const XK_Page_Down: Keysym := 0xff56
  const XK_End: Keysym := 0xff57

  // Miscellaneous functions
  const XK_Select: Keysym := 0xff60
  const XK_Print: Keysym := 0xff61
  const XK_Execute: Keysym := 0xff62
  const XK_Insert: Keysym := 0xff63
  const XK_Undo: Keysym := 0xff65
  const XK_Redo: Keysym := 0xff66
  const XK_Menu: Keysym := 0xff67
  const XK_Find: Keysym := 0xff68
  const XK_Cancel: Keysym := 0xff69
  const XK_Help: Keysym := 0xff6a
  const XK_Break: Keysym := 0xff6b
  const XK_Mode_switch: Keysym := 0xff7e
  const XK_Num_Lock: Keysym := 0xff7f

  // Keypad
  const XK_KP_Space: Keysym := 0xff80
  const XK_KP_Tab: Keysym := 0xff89
  const XK_KP_Enter: Keysym := 0xff8d
  const XK_KP_F1: Keysym := 0xff91
  const XK_KP_F2: Keysym := 0xff92
  const XK_KP_F3: Keysym := 0xff93
  const XK_KP_F4: Keysym := 0xff94
  const XK_KP_Home: Keysym := 0xff95
  const XK_KP_Left: Keysym := 0xff96
  const XK_KP_Up: Keysym := 0xff97
  const XK_KP_Right: Keysym := 0xff98
  const XK_KP_Down: Keysym := 0xff99
  const XK_KP_Page_Up: Keysym := 0xff9a
  const XK_KP_Page_Down: Keysym := 0xff9b
  const XK_KP_End: Keysym := 0xff9c
  const XK_KP_Begin: Keysym := 0xff9d
  const XK_KP_Insert: Keysym := 0xff9e
  const XK_KP_Delete: Keysym := 0xff9f
  const XK_KP_Multiply: Keysym := 0xffaa
  const XK_KP_Add: Keysym := 0xffab
  const XK_KP_Separator: Keysym := 0xffac
  const XK_KP_Subtract: Keysym := 0xffad
  const XK_KP_Decimal: Keysym := 0xffae
  const XK_KP_Divide: Keysym := 0xffaf
  const XK_KP_0: Keysym := 0xffb0
  const XK_KP_1: Keysym := 0xffb1
  const XK_KP_2: Keysym := 0xffb2
  const XK_KP_3: Keysym := 0xffb3
  const XK_KP_4: Keysym := 0xffb4
  const XK_KP_5: Keysym := 0xffb5
  const XK_KP_6: Keysym := 0xffb6
  const XK_KP_7: Keysym := 0xffb7
  const XK_KP_8: Keysym := 0xffb8
  const XK_KP_9: Keysym := 0xffb9
  const XK_KP_Equal: Keysym := 0xffbd

  // Function keys
  const XK_F1: Keysym := 0xffbe
  const XK_F2: Keysym := 0xffbf
  const XK_F3: Keysym := 0xffc0
  const XK_F4: Keysym := 0xffc1
  const XK_F5: Keysym := 0xffc2
  const XK_F6: Keysym := 0xffc3
  const XK_F7: Keysym := 0xffc4
  const XK_F8: Keysym := 0xffc5
  const XK_F9: Keysym := 0xffc6
  const XK_F10: Keysym := 0xffc7
  const XK_F11: Keysym := 0xffc8
  const XK_F12: Keysym := 0xffc9
  const XK_F13: Keysym := 0xffca
  const XK_F14: Keysym := 0xffcb
  const XK_F15: Keysym := 0xffcc
  const XK_F16: Keysym := 0xffcd
  const XK_F17: Keysym := 0xffce
  const XK_F18: Keysym := 0xffcf
  const XK_F19: Keysym := 0xffd0
  const XK_F20: Keysym := 0xffd1
  const XK_F21: Keysym := 0xffd2
  const XK_F22: Keysym := 0xffd3
  const XK_F23: Keysym := 0xffd4
  const XK_F24: Keysym := 0xffd5
  const XK_F25: Keysym := 0xffd6
  const XK_F26: Keysym := 0xffd7
  const XK_F27: Keysym := 0xffd8
  const XK_F28: Keysym := 0xffd9
  const XK_F29: Keysym := 0xffda
  const XK_F30: Keysym := 0xffdb
  const XK_F31: Keysym := 0xffdc
  const XK_F32: Keysym := 0xffdd
  const XK_F33: Keysym := 0xffde
  const XK_F34: Keysym := 0xffdf
  const XK_F35: Keysym := 0xffe0

  // Modifiers
  const XK_Shift_L: Keysym := 0xffe1
  const XK_Shift_R: Keysym := 0xffe2
  const XK_Control_L: Keysym := 0xffe3
  const XK_Control_R: Keysym := 0xffe4
  const XK_Caps_Lock: Keysym := 0xffe5
  const XK_Alt_L: Keysym := 0xffe9
  const XK_Alt_R: Keysym := 0xffea
  const XK_Super_L: Keysym := 0xffeb
  const XK_Super_R: Keysym := 0xffec
  const XK_Hyper_L: Keysym := 0xffed
  const XK_Hyper_R: Keysym := 0xffee

  // ISO 9995 function and modifier keys
  const XK_ISO_Level3_Shift: Keysym := 0xfe03
  const XK_ISO_Level3_Latch: Keysym := 0xfe04
  const XK_ISO_Level3_Lock: Keysym := 0xfe05
  const XK_ISO_Next_Group: Keysym := 0xfe08
  const XK_ISO_Prev_Group: Keysym := 0xfe0a
  const XK_ISO_First_Group: Keysym := 0xfe0c
  const XK_ISO_Last_Group: Keysym := 0xfe0e
  const XK_ISO_Left_Tab: Keysym := 0xfe20
  const XK_ISO_Enter: Keysym := 0xfe34

  // 3270 terminal keys
  const XK_3270_EraseEOF: Keysym := 0xfd06
  const XK_3270_Attn: Keysym := 0xfd0e
  const XK_3270_Play: Keysym := 0xfd16
  const XK_3270_ExSelect: Keysym := 0xfd1b
  const XK_3270_CursorSelect: Keysym := 0xfd1c
  const XK_3270_PrintScreen: Keysym := 0xfd1d
  const XK_3270_Enter: Keysym := 0xfd1e

  // Latin 1
  const XK_space: Keysym := 0x20
  const XK_apostrophe: Keysym := 0x27
  const XK_comma: Keysym := 0x2c
  const XK_minus: Keysym := 0x2d
  const XK_period: Keysym := 0x2e
  const XK_slash: Keysym := 0x2f
  const XK_0: Keysym := 0x30
  const XK_1: Keysym := 0x31
  const XK_2: Keysym := 0x32
  const XK_3: Keysym := 0x33
  const XK_4: Keysym := 0x34
  const XK_5: Keysym := 0x35
  const XK_6: Keysym := 0x36
  const XK_7: Keysym := 0x37
  const XK_8: Keysym := 0x38
  const XK_9: Keysym := 0x39
  const XK_semicolon: Keysym := 0x3b
  const XK_equal: Keysym := 0x3d
  const XK_A: Keysym := 0x41
  const XK_B: Keysym := 0x42
  const XK_C: Keysym := 0x43
  const XK_D: Keysym := 0x44
  const XK_E: Keysym := 0x45
  const XK_F: Keysym := 0x46
  const XK_G: Keysym := 0x47
  const XK_H: Keysym := 0x48
  const XK_I: Keysym := 0x49
  const XK_J: Keysym := 0x4a
  const XK_K: Keysym := 0x4b
  const XK_L: Keysym := 0x4c
  const XK_M: Keysym := 0x4d
  const XK_N: Keysym := 0x4e
  const XK_O: Keysym := 0x4f
  const XK_P: Keysym := 0x50
  const XK_Q: Keysym := 0x51
  const XK_R: Keysym := 0x52
  const XK_S: Keysym := 0x53
  const XK_T: Keysym := 0x54
  const XK_U: Keysym := 0x55
  const XK_V: Keysym := 0x56
  const XK_W: Keysym := 0x57
  const XK_X: Keysym := 0x58
  const XK_Y: Keysym := 0x59
  const XK_Z: Keysym := 0x5a
  const XK_bracketleft: Keysym := 0x5b
  const XK_backslash: Keysym := 0x5c
  const XK_bracketright: Keysym := 0x5d
  const XK_grave: Keysym := 0x60
  const XK_a: Keysym := 0x61
  const XK_b: Keysym := 0x62
  const XK_c: Keysym := 0x63
  const XK_d: Keysym := 0x64
  const XK_e: Keysym := 0x65
  const XK_f: Keysym := 0x66
  const XK_g: Keysym := 0x67
  const XK_h: Keysym := 0x68
  const XK_i: Keysym := 0x69
  const XK_j: Keysym := 0x6a
  const XK_k: Keysym := 0x6b
  const XK_l: Keysym := 0x6c
  const XK_m: Keysym := 0x6d
  const XK_n: Keysym := 0x6e
  const XK_o: Keysym := 0x6f
  const XK_p: Keysym := 0x70
  const XK_q: Keysym := 0x71
  const XK_r: Keysym := 0x72
  const XK_s: Keysym := 0x73
  const XK_t: Keysym := 0x74
  const XK_u: Keysym := 0x75
  const XK_v: Keysym := 0x76
  const XK_w: Keysym := 0x77
  const XK_x: Keysym := 0x78
  const XK_y: Keysym := 0x79
  const XK_z: Keysym := 0x7a

  // XFree86 vendor keys
  const XF86XK_MonBrightnessUp: Keysym := 0x1008ff02
  const XF86XK_MonBrightnessDown: Keysym := 0x1008ff03
  const XF86XK_Standby: Keysym := 0x1008ff10
  const XF86XK_AudioLowerVolume: Keysym := 0x1008ff11
  const XF86XK_AudioMute: Keysym := 0x1008ff12
  const XF86XK_AudioRaiseVolume: Keysym := 0x1008ff13
  const XF86XK_AudioPlay: Keysym := 0x1008ff14
  const XF86XK_AudioStop: Keysym := 0x1008ff15
  const XF86XK_AudioPrev: Keysym := 0x1008ff16
  const XF86XK_AudioNext: Keysym := 0x1008ff17
  const XF86XK_HomePage: Keysym := 0x1008ff18
  const XF86XK_Mail: Keysym := 0x1008ff19
  const XF86XK_Search: Keysym := 0x1008ff1b
  const XF86XK_AudioRecord: Keysym := 0x1008ff1c
  const XF86XK_Calculator: Keysym := 0x1008ff1d
  const XF86XK_Calendar: Keysym := 0x1008ff20
  const XF86XK_PowerDown: Keysym := 0x1008ff21
  const XF86XK_Back: Keysym := 0x1008ff26
  const XF86XK_Forward: Keysym := 0x1008ff27
  const XF86XK_Stop: Keysym := 0x1008ff28
  const XF86XK_Refresh: Keysym := 0x1008ff29
  const XF86XK_PowerOff: Keysym := 0x1008ff2a
  const XF86XK_WakeUp: Keysym := 0x1008ff2b
  const XF86XK_Eject: Keysym := 0x1008ff2c
  const XF86XK_ScreenSaver: Keysym := 0x1008ff2d
  const XF86XK_WWW: Keysym := 0x1008ff2e
  const XF86XK_Sleep: Keysym := 0x1008ff2f
  const XF86XK_Favorites: Keysym := 0x1008ff30
  const XF86XK_AudioPause: Keysym := 0x1008ff31
  const XF86XK_MyComputer: Keysym := 0x1008ff33
  const XF86XK_AudioRewind: Keysym := 0x1008ff3e
  const XF86XK_Calculater: Keysym := 0x1008ff54
  const XF86XK_Close: Keysym := 0x1008ff56
  const XF86XK_Copy: Keysym := 0x1008ff57
  const XF86XK_Cut: Keysym := 0x1008ff58
  const XF86XK_Excel: Keysym := 0x1008ff5c
  const XF86XK_LogOff: Keysym := 0x1008ff61
  const XF86XK_MySites: Keysym := 0x1008ff67
  const XF86XK_New: Keysym := 0x1008ff68
  const XF86XK_Open: Keysym := 0x1008ff6b
  const XF86XK_Paste: Keysym := 0x1008ff6d
  const XF86XK_Phone: Keysym := 0x1008ff6e
  const XF86XK_Reply: Keysym := 0x1008ff72
  const XF86XK_Reload: Keysym := 0x1008ff73
  const XF86XK_Save: Keysym := 0x1008ff77
  const XF86XK_Send: Keysym := 0x1008ff7b
  const XF86XK_Spell: Keysym := 0x1008ff7c
  const XF86XK_SplitScreen: Keysym := 0x1008ff7d
  const XF86XK_Video: Keysym := 0x1008ff87
  const XF86XK_Word: Keysym := 0x1008ff89
  const XF86XK_ZoomIn: Keysym := 0x1008ff8b
  const XF86XK_ZoomOut: Keysym := 0x1008ff8c
  const XF86XK_WebCam: Keysym := 0x1008ff8f
  const XF86XK_MailForward: Keysym := 0x1008ff90
  const XF86XK_Music: Keysym := 0x1008ff92
  const XF86XK_AudioForward: Keysym := 0x1008ff97
  const XF86XK_AudioRandomPlay: Keysym := 0x1008ff99
  const XF86XK_Subtitle: Keysym := 0x1008ff9a
  const XF86XK_AudioCycleTrack: Keysym := 0x1008ff9b
  const XF86XK_Suspend: Keysym := 0x1008ffa7
  const XF86XK_Hibernate: Keysym := 0x1008ffa8
  const XF86XK_Next_VMode: Keysym := 0x1008fe22

  // Sun vendor keys
  const SunXK_Copy: Keysym := 0x1005ff72
  const SunXK_Open: Keysym := 0x1005ff73
  const SunXK_Paste: Keysym := 0x1005ff74
  const SunXK_Cut: Keysym := 0x1005ff75
  const SunXK_AudioLowerVolume: Keysym := 0x1005ff77
  const SunXK_AudioMute: Keysym := 0x1005ff78
  const SunXK_AudioRaiseVolume: Keysym := 0x1005ff79
  const SunXK_VideoLowerBrightness: Keysym := 0x1005ff7b
  const SunXK_VideoRaiseBrightness: Keysym := 0x1005ff7c
}
