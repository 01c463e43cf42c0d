/**
 * The Linux input-event codes (`ecodes` class of src/bluetooth_2_usb/evdev.py, which mirrors the kernel's
 * input-event-codes.h) that the translation tables and predicates use. Aliases are kept as aliases.
 */
module Ecodes {
  const KEY_RESERVED: int := 0x0
  const KEY_ESC: int := 0x1
  const KEY_1: int := 0x2
  const KEY_2: int := 0x3
  const KEY_3: int := 0x4
  const KEY_4: int := 0x5
  const KEY_5: int := 0x6
  const KEY_6: int := 0x7
  const KEY_7: int := 0x8
  const KEY_8: int := 0x9
  const KEY_9: int := 0xA
  const KEY_0: int := 0xB
  const KEY_MINUS: int := 0xC
  const KEY_EQUAL: int := 0xD
  const KEY_BACKSPACE: int := 0xE
  const KEY_TAB: int := 0xF
  const KEY_Q: int := 0x10
  const KEY_W: int := 0x11
  const KEY_E: int := 0x12
  const KEY_R: int := 0x13
  const KEY_T: int := 0x14
  const KEY_Y: int := 0x15
  const KEY_U: int := 0x16
  const KEY_I: int := 0x17
  const KEY_O: int := 0x18
  const KEY_P: int := 0x19
  const KEY_LEFTBRACE: int := 0x1A
  const KEY_RIGHTBRACE: int := 0x1B
  const KEY_ENTER: int := 0x1C
  const KEY_LEFTCTRL: int := 0x1D
  const KEY_A: int := 0x1E
  const KEY_S: int := 0x1F
  const KEY_D: int := 0x20
  const KEY_F: int := 0x21
  const KEY_G: int := 0x22
  const KEY_H: int := 0x23
  const KEY_J: int := 0x24
  const KEY_K: int := 0x25
  const KEY_L: int := 0x26
  const KEY_SEMICOLON: int := 0x27
  const KEY_APOSTROPHE: int := 0x28
  const KEY_GRAVE: int := 0x29
  const KEY_LEFTSHIFT: int := 0x2A
  const KEY_BACKSLASH: int := 0x2B
  const KEY_Z: int := 0x2C
  const KEY_X: int := 0x2D
  const KEY_C: int := 0x2E
  const KEY_V: int := 0x2F
  const KEY_B: int := 0x30
  const KEY_N: int := 0x31
  const KEY_M: int := 0x32
  const KEY_COMMA: int := 0x33
  const KEY_DOT: int := 0x34
  const KEY_SLASH: int := 0x35
  const KEY_RIGHTSHIFT: int := 0x36
  const KEY_KPASTERISK: int := 0x37
  const KEY_LEFTALT: int := 0x38
  const KEY_SPACE: int := 0x39
  const KEY_CAPSLOCK: int := 0x3A
  const KEY_F1: int := 0x3B
  const KEY_F2: int := 0x3C
  const KEY_F3: int := 0x3D
  const KEY_F4: int := 0x3E
  const KEY_F5: int := 0x3F
  const KEY_F6: int := 0x40
  const KEY_F7: int := 0x41
  const KEY_F8: int := 0x42
  const KEY_F9: int := 0x43
  const KEY_F10: int := 0x44
  const KEY_NUMLOCK: int := 0x45
  const KEY_SCROLLLOCK: int := 0x46
  const KEY_KP7: int := 0x47
  const KEY_KP8: int := 0x48
  const KEY_KP9: int := 0x49
  const KEY_KPMINUS: int := 0x4A
  const KEY_KP4: int := 0x4B
  const KEY_KP5: int := 0x4C
  const KEY_KP6: int := 0x4D
  const KEY_KPPLUS: int := 0x4E
  const KEY_KP1: int := 0x4F
  const KEY_KP2: int := 0x50
  const KEY_KP3: int := 0x51
  const KEY_KP0: int := 0x52
  const KEY_KPDOT: int := 0x53
  const KEY_102ND: int := 0x56
  const KEY_F11: int := 0x57
  const KEY_F12: int := 0x58
  const KEY_RO: int := 0x59
  const KEY_KATAKANA: int := 0x5A
  const KEY_HIRAGANA: int := 0x5B
  const KEY_HENKAN: int := 0x5C
  const KEY_KATAKANAHIRAGANA: int := 0x5D
  const KEY_MUHENKAN: int := 0x5E
  const KEY_KPENTER: int := 0x60
  const KEY_RIGHTCTRL: int := 0x61
  const KEY_KPSLASH: int := 0x62
  const KEY_SYSRQ: int := 0x63
  const KEY_RIGHTALT: int := 0x64
  const KEY_HOME: int := 0x66
  const KEY_UP: int := 0x67
  const KEY_PAGEUP: int := 0x68
  const KEY_LEFT: int := 0x69
  const KEY_RIGHT: int := 0x6A
  const KEY_END: int := 0x6B
  const KEY_DOWN: int := 0x6C
  const KEY_PAGEDOWN: int := 0x6D
  const KEY_INSERT: int := 0x6E
  const KEY_DELETE: int := 0x6F
  const KEY_MUTE: int := 0x71
  const KEY_VOLUMEDOWN: int := 0x72
  const KEY_VOLUMEUP: int := 0x73
  const KEY_POWER: int := 0x74
  const KEY_KPEQUAL: int := 0x75
  const KEY_PAUSE: int := 0x77
  const KEY_SCALE: int := 0x78
  const KEY_KPCOMMA: int := 0x79
  const KEY_HANJA: int := 0x7B
  const KEY_YEN: int := 0x7C
  const KEY_LEFTMETA: int := 0x7D
  const KEY_RIGHTMETA: int := 0x7E
  const KEY_COMPOSE: int := 0x7F
  const KEY_STOP: int := 0x80
  const KEY_AGAIN: int := 0x81
  const KEY_PROPS: int := 0x82
  const KEY_UNDO: int := 0x83
  const KEY_FRONT: int := 0x84
  const KEY_COPY: int := 0x85
  const KEY_OPEN: int := 0x86
  const KEY_PASTE: int := 0x87
  const KEY_FIND: int := 0x88
  const KEY_CUT: int := 0x89
  const KEY_HELP: int := 0x8A
  const KEY_MENU: int := 0x8B
  const KEY_CALC: int := 0x8C
  const KEY_SLEEP: int := 0x8E
  const KEY_FILE: int := 0x90
  const KEY_WWW: int := 0x96
  const KEY_COFFEE: int := 0x98
  const KEY_MAIL: int := 0x9B
  const KEY_BOOKMARKS: int := 0x9C
  const KEY_BACK: int := 0x9E
  const KEY_FORWARD: int := 0x9F
  const KEY_EJECTCD: int := 0xA1
  const KEY_NEXTSONG: int := 0xA3
  const KEY_PLAYPAUSE: int := 0xA4
  const KEY_PREVIOUSSONG: int := 0xA5
  const KEY_STOPCD: int := 0xA6
  const KEY_RECORD: int := 0xA7
  const KEY_REWIND: int := 0xA8
  const KEY_PHONE: int := 0xA9
  const KEY_CONFIG: int := 0xAB
  const KEY_HOMEPAGE: int := 0xAC
  const KEY_REFRESH: int := 0xAD
  const KEY_EXIT: int := 0xAE
  const KEY_EDIT: int := 0xB0
  const KEY_SCROLLUP: int := 0xB1
  const KEY_SCROLLDOWN: int := 0xB2
  const KEY_NEW: int := 0xB5
  const KEY_REDO: int := 0xB6
  const KEY_F13: int := 0xB7
  const KEY_F14: int := 0xB8
  const KEY_F15: int := 0xB9
  const KEY_F16: int := 0xBA
  const KEY_F17: int := 0xBB
  const KEY_F18: int := 0xBC
  const KEY_F19: int := 0xBD
  const KEY_F20: int := 0xBE
  const KEY_F21: int := 0xBF
  const KEY_F22: int := 0xC0
  const KEY_F23: int := 0xC1
  const KEY_F24: int := 0xC2
  const KEY_ALL_APPLICATIONS: int := 0xCC
  const KEY_CLOSE: int := 0xCE
  const KEY_PLAY: int := 0xCF
  const KEY_FASTFORWARD: int := 0xD0
  const KEY_BASSBOOST: int := 0xD1
  const KEY_CAMERA: int := 0xD4
  const KEY_CHAT: int := 0xD8
  const KEY_SEARCH: int := 0xD9
  const KEY_FINANCE: int := 0xDB
  const KEY_CANCEL: int := 0xDF
  const KEY_BRIGHTNESSDOWN: int := 0xE0
  const KEY_BRIGHTNESSUP: int := 0xE1
  const KEY_KBDILLUMTOGGLE: int := 0xE4
  const KEY_KBDILLUMDOWN: int := 0xE5
  const KEY_KBDILLUMUP: int := 0xE6
  const KEY_SEND: int := 0xE7
  const KEY_REPLY: int := 0xE8
  const KEY_FORWARDMAIL: int := 0xE9
  const KEY_SAVE: int := 0xEA
  const KEY_DOCUMENTS: int := 0xEB
  const KEY_VIDEO_NEXT: int := 0xF1
  const KEY_BRIGHTNESS_AUTO: int := 0xF4
  const BTN_MISC: int := 0x100
  const BTN_0: int := 0x100
  const BTN_MOUSE: int := 0x110
  const BTN_LEFT: int := 0x110
  const BTN_RIGHT: int := 0x111
  const BTN_MIDDLE: int := 0x112
  const KEY_SELECT: int := 0x161
  const KEY_GOTO: int := 0x162
  const KEY_INFO: int := 0x166
  const KEY_PROGRAM: int := 0x16A
  const KEY_PVR: int := 0x16E
  const KEY_SUBTITLE: int := 0x172
  const KEY_FULL_SCREEN: int := 0x174
  const KEY_KEYBOARD: int := 0x176
  const KEY_ASPECT_RATIO: int := 0x177
  const KEY_PC: int := 0x178
  const KEY_TV: int := 0x179
  const KEY_TV2: int := 0x17A
  const KEY_VCR: int := 0x17B
  const KEY_VCR2: int := 0x17C
  const KEY_SAT: int := 0x17D
  const KEY_CD: int := 0x17F
  const KEY_TAPE: int := 0x180
  const KEY_TUNER: int := 0x182
  const KEY_PLAYER: int := 0x183
  const KEY_DVD: int := 0x185
  const KEY_AUDIO: int := 0x188
  const KEY_VIDEO: int := 0x189
  const KEY_MEMO: int := 0x18C
  const KEY_CALENDAR: int := 0x18D
  const KEY_RED: int := 0x18E
  const KEY_GREEN: int := 0x18F
  const KEY_YELLOW: int := 0x190
  const KEY_BLUE: int := 0x191
  const KEY_CHANNELUP: int := 0x192
  const KEY_CHANNELDOWN: int := 0x193
  const KEY_LAST: int := 0x195
  const KEY_NEXT: int := 0x197
  const KEY_RESTART: int := 0x198
  const KEY_SLOW: int := 0x199
  const KEY_SHUFFLE: int := 0x19A
  const KEY_PREVIOUS: int := 0x19C
  const KEY_VIDEOPHONE: int := 0x1A0
  const KEY_GAMES: int := 0x1A1
  const KEY_ZOOMIN: int := 0x1A2
  const KEY_ZOOMOUT: int := 0x1A3
  const KEY_ZOOMRESET: int := 0x1A4
  const KEY_WORDPROCESSOR: int := 0x1A5
  const KEY_EDITOR: int := 0x1A6
  const KEY_SPREADSHEET: int := 0x1A7
  const KEY_GRAPHICSEDITOR: int := 0x1A8
  const KEY_PRESENTATION: int := 0x1A9
  const KEY_DATABASE: int := 0x1AA
  const KEY_NEWS: int := 0x1AB
  const KEY_VOICEMAIL: int := 0x1AC
  const KEY_ADDRESSBOOK: int := 0x1AD
  const KEY_MESSENGER: int := 0x1AE
  const KEY_DISPLAYTOGGLE: int := 0x1AF
  const KEY_BRIGHTNESS_TOGGLE: int := KEY_DISPLAYTOGGLE
  const KEY_SPELLCHECK: int := 0x1B0
  const KEY_LOGOFF: int := 0x1B1
  const KEY_MEDIA_REPEAT: int := 0x1B7
  const KEY_IMAGES: int := 0x1BA
  const KEY_BUTTONCONFIG: int := 0x240
  const KEY_TASKMANAGER: int := 0x241
  const KEY_JOURNAL: int := 0x242
  const KEY_CONTROLPANEL: int := 0x243
  const KEY_APPSELECT: int := 0x244
  const KEY_SCREENSAVER: int := 0x245
  const KEY_VOICECOMMAND: int := 0x246
  const KEY_ASSISTANT: int := 0x247
  const KEY_KBD_LAYOUT_NEXT: int := 0x248
  const KEY_EMOJI_PICKER: int := 0x249
  const KEY_DICTATE: int := 0x24A
  const KEY_CAMERA_ACCESS_ENABLE: int := 0x24B
  const KEY_CAMERA_ACCESS_DISABLE: int := 0x24C
  const KEY_CAMERA_ACCESS_TOGGLE: int := 0x24D
  const KEY_BRIGHTNESS_MIN: int := 0x250
  const KEY_BRIGHTNESS_MAX: int := 0x251
  const KEY_KBDINPUTASSIST_PREV: int := 0x260
  const KEY_KBDINPUTASSIST_NEXT: int := 0x261
  const KEY_KBDINPUTASSIST_PREVGROUP: int := 0x262
  const KEY_KBDINPUTASSIST_NEXTGROUP: int := 0x263
  const KEY_KBDINPUTASSIST_ACCEPT: int := 0x264
  const KEY_KBDINPUTASSIST_CANCEL: int := 0x265
  const REL_X: int := 0x00
  const REL_Y: int := 0x01
  const REL_HWHEEL: int := 0x06
  const REL_WHEEL: int := 0x08
}
