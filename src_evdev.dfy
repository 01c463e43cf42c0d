/**
 * src/bluetooth_2_usb/evdev.py: the translation of Linux evdev codes to USB HID usages (the Keyboard/Keypad
 * page 0x07, section 10, and the Consumer page 0x0C, section 15, of the HID Usage Tables 1.12), the
 * classification of key codes into consumer keys, mouse buttons and keyboard keys, the axis extraction of
 * relative events, and the key-name search.
 */
module Evdev {
  import opened Wrappers
  import Ecodes
  import Keycode
  import opened Strings

  /** A value of `_EVDEV_TO_USB_HID`. Keyboard usages are the usage IDs of the Keyboard/Keypad page. The values
      of `MouseButton` and `ConsumerControlCode` belong to a library that is not part of this model, so those
      usages are kept opaque, as the names of the constants the table cites. */
  datatype Usage = Key(id: int) | Button(name: string) | Consumer(name: string)

  /** The constant class `_get_hid_code_type` returns. */
  datatype CodeType = ConsumerCodes | MouseButtons | Keycodes

  /** evdev's key states: `key_up`, `key_down` and `key_hold`. */
  datatype KeyState = KeyUp | KeyDown | KeyHold

  /** The part of an evdev `KeyEvent` the translation reads. */
  datatype KeyEvent = KeyEvent(scancode: int, keystate: KeyState)

  /** The part of an evdev `RelEvent` the translation reads: the axis code and the signed delta. */
  datatype RelEvent = RelEvent(code: int, value: int)

  /** `_EVDEV_TO_USB_HID.get(code)`. The dict literal lists the keyboard and mouse entries first (lines
      1043-1167) and the consumer entries after them (lines 1169-1311). KEY_PAUSE and KEY_POWER are keys of
      both sections, and when a dict literal repeats a key the later entry is the one kept. */
  function UsbHid(code: int): Option<Usage>
  {
    if ConsumerSection(code).Some? then ConsumerSection(code) else KeyboardSection(code)
  }

  /** `code in _MOUSE_BUTTONS`. */
  predicate IsMouseButton(code: int)
  {
    code == Ecodes.BTN_LEFT || code == Ecodes.BTN_RIGHT || code == Ecodes.BTN_MIDDLE
  }

  // The two sections of the dict literal and the set `_CONSUMER_KEYS` (lines 1316-1462), each split into
  // groups by code range so that a lookup only walks one group; each comment gives the line of the entry.

  function KeyboardSection(code: int): Option<Usage>
  {
    if code < 0x41 then
      if code < 0x21 then
        if code < 0x11 then
          KeyboardSectionPart0(code)
        else
          KeyboardSectionPart1(code)
      else
        if code < 0x31 then
          KeyboardSectionPart2(code)
        else
          KeyboardSectionPart3(code)
    else
      if code < 0x6b then
        if code < 0x51 then
          KeyboardSectionPart4(code)
        else
          KeyboardSectionPart5(code)
      else
        if code < 0xbb then
          KeyboardSectionPart6(code)
        else
          KeyboardSectionPart7(code)
  }

  function KeyboardSectionPart0(code: int): Option<Usage>
  {
    if code == Ecodes.KEY_ESC then Some(Key(Keycode.ESCAPE))  // line 1081
    else if code == Ecodes.KEY_1 then Some(Key(Keycode.ONE))  // line 1070
    else if code == Ecodes.KEY_2 then Some(Key(Keycode.TWO))  // line 1071
    else if code == Ecodes.KEY_3 then Some(Key(Keycode.THREE))  // line 1072
    else if code == Ecodes.KEY_4 then Some(Key(Keycode.FOUR))  // line 1073
    else if code == Ecodes.KEY_5 then Some(Key(Keycode.FIVE))  // line 1074
    else if code == Ecodes.KEY_6 then Some(Key(Keycode.SIX))  // line 1075
    else if code == Ecodes.KEY_7 then Some(Key(Keycode.SEVEN))  // line 1076
    else if code == Ecodes.KEY_8 then Some(Key(Keycode.EIGHT))  // line 1077
    else if code == Ecodes.KEY_9 then Some(Key(Keycode.NINE))  // line 1078
    else if code == Ecodes.KEY_0 then Some(Key(Keycode.ZERO))  // line 1079
    else if code == Ecodes.KEY_MINUS then Some(Key(Keycode.MINUS))  // line 1085
    else if code == Ecodes.KEY_EQUAL then Some(Key(Keycode.EQUALS))  // line 1086
    else if code == Ecodes.KEY_BACKSPACE then Some(Key(Keycode.BACKSPACE))  // line 1082
    else if code == Ecodes.KEY_TAB then Some(Key(Keycode.TAB))  // line 1083
    else if code == Ecodes.KEY_Q then Some(Key(Keycode.Q))  // line 1060
    else None
  }

  function KeyboardSectionPart1(code: int): Option<Usage>
  {
    if code == Ecodes.KEY_W then Some(Key(Keycode.W))  // line 1066
    else if code == Ecodes.KEY_E then Some(Key(Keycode.E))  // line 1048
    else if code == Ecodes.KEY_R then Some(Key(Keycode.R))  // line 1061
    else if code == Ecodes.KEY_T then Some(Key(Keycode.T))  // line 1063
    else if code == Ecodes.KEY_Y then Some(Key(Keycode.Y))  // line 1068
    else if code == Ecodes.KEY_U then Some(Key(Keycode.U))  // line 1064
    else if code == Ecodes.KEY_I then Some(Key(Keycode.I))  // line 1052
    else if code == Ecodes.KEY_O then Some(Key(Keycode.O))  // line 1058
    else if code == Ecodes.KEY_P then Some(Key(Keycode.P))  // line 1059
    else if code == Ecodes.KEY_LEFTBRACE then Some(Key(Keycode.LEFT_BRACKET))  // line 1087
    else if code == Ecodes.KEY_RIGHTBRACE then Some(Key(Keycode.RIGHT_BRACKET))  // line 1088
    else if code == Ecodes.KEY_ENTER then Some(Key(Keycode.ENTER))  // line 1080
    else if code == Ecodes.KEY_LEFTCTRL then Some(Key(Keycode.LEFT_CONTROL))  // line 1156
    else if code == Ecodes.KEY_A then Some(Key(Keycode.A))  // line 1044
    else if code == Ecodes.KEY_S then Some(Key(Keycode.S))  // line 1062
    else if code == Ecodes.KEY_D then Some(Key(Keycode.D))  // line 1047
    else None
  }

  function KeyboardSectionPart2(code: int): Option<Usage>
  {
    if code == Ecodes.KEY_F then Some(Key(Keycode.F))  // line 1049
    else if code == Ecodes.KEY_G then Some(Key(Keycode.G))  // line 1050
    else if code == Ecodes.KEY_H then Some(Key(Keycode.H))  // line 1051
    else if code == Ecodes.KEY_J then Some(Key(Keycode.J))  // line 1053
    else if code == Ecodes.KEY_K then Some(Key(Keycode.K))  // line 1054
    else if code == Ecodes.KEY_L then Some(Key(Keycode.L))  // line 1055
    else if code == Ecodes.KEY_SEMICOLON then Some(Key(Keycode.SEMICOLON))  // line 1090
    else if code == Ecodes.KEY_APOSTROPHE then Some(Key(Keycode.QUOTE))  // line 1091
    else if code == Ecodes.KEY_GRAVE then Some(Key(Keycode.GRAVE_ACCENT))  // line 1092
    else if code == Ecodes.KEY_LEFTSHIFT then Some(Key(Keycode.LEFT_SHIFT))  // line 1157
    else if code == Ecodes.KEY_BACKSLASH then Some(Key(Keycode.POUND))  // line 1089
    else if code == Ecodes.KEY_Z then Some(Key(Keycode.Z))  // line 1069
    else if code == Ecodes.KEY_X then Some(Key(Keycode.X))  // line 1067
    else if code == Ecodes.KEY_C then Some(Key(Keycode.C))  // line 1046
    else if code == Ecodes.KEY_V then Some(Key(Keycode.V))  // line 1065
    else if code == Ecodes.KEY_B then Some(Key(Keycode.B))  // line 1045
    else None
  }

  function KeyboardSectionPart3(code: int): Option<Usage>
  {
    if code == Ecodes.KEY_N then Some(Key(Keycode.N))  // line 1057
    else if code == Ecodes.KEY_M then Some(Key(Keycode.M))  // line 1056
    else if code == Ecodes.KEY_COMMA then Some(Key(Keycode.COMMA))  // line 1093
    else if code == Ecodes.KEY_DOT then Some(Key(Keycode.PERIOD))  // line 1094
    else if code == Ecodes.KEY_SLASH then Some(Key(Keycode.FORWARD_SLASH))  // line 1095
    else if code == Ecodes.KEY_RIGHTSHIFT then Some(Key(Keycode.RIGHT_SHIFT))  // line 1161
    else if code == Ecodes.KEY_KPASTERISK then Some(Key(Keycode.KEYPAD_ASTERISK))  // line 1124
    else if code == Ecodes.KEY_LEFTALT then Some(Key(Keycode.LEFT_ALT))  // line 1158
    else if code == Ecodes.KEY_SPACE then Some(Key(Keycode.SPACEBAR))  // line 1084
    else if code == Ecodes.KEY_CAPSLOCK then Some(Key(Keycode.CAPS_LOCK))  // line 1096
    else if code == Ecodes.KEY_F1 then Some(Key(Keycode.F1))  // line 1097
    else if code == Ecodes.KEY_F2 then Some(Key(Keycode.F2))  // line 1098
    else if code == Ecodes.KEY_F3 then Some(Key(Keycode.F3))  // line 1099
    else if code == Ecodes.KEY_F4 then Some(Key(Keycode.F4))  // line 1100
    else if code == Ecodes.KEY_F5 then Some(Key(Keycode.F5))  // line 1101
    else if code == Ecodes.KEY_F6 then Some(Key(Keycode.F6))  // line 1102
    else None
  }

  function KeyboardSectionPart4(code: int): Option<Usage>
  {
    if code == Ecodes.KEY_F7 then Some(Key(Keycode.F7))  // line 1103
    else if code == Ecodes.KEY_F8 then Some(Key(Keycode.F8))  // line 1104
    else if code == Ecodes.KEY_F9 then Some(Key(Keycode.F9))  // line 1105
    else if code == Ecodes.KEY_F10 then Some(Key(Keycode.F10))  // line 1106
    else if code == Ecodes.KEY_NUMLOCK then Some(Key(Keycode.KEYPAD_NUMLOCK))  // line 1122
    else if code == Ecodes.KEY_SCROLLLOCK then Some(Key(Keycode.SCROLL_LOCK))  // line 1110
    else if code == Ecodes.KEY_KP7 then Some(Key(Keycode.KEYPAD_SEVEN))  // line 1134
    else if code == Ecodes.KEY_KP8 then Some(Key(Keycode.KEYPAD_EIGHT))  // line 1135
    else if code == Ecodes.KEY_KP9 then Some(Key(Keycode.KEYPAD_NINE))  // line 1136
    else if code == Ecodes.KEY_KPMINUS then Some(Key(Keycode.KEYPAD_MINUS))  // line 1125
    else if code == Ecodes.KEY_KP4 then Some(Key(Keycode.KEYPAD_FOUR))  // line 1131
    else if code == Ecodes.KEY_KP5 then Some(Key(Keycode.KEYPAD_FIVE))  // line 1132
    else if code == Ecodes.KEY_KP6 then Some(Key(Keycode.KEYPAD_SIX))  // line 1133
    else if code == Ecodes.KEY_KPPLUS then Some(Key(Keycode.KEYPAD_PLUS))  // line 1126
    else if code == Ecodes.KEY_KP1 then Some(Key(Keycode.KEYPAD_ONE))  // line 1128
    else if code == Ecodes.KEY_KP2 then Some(Key(Keycode.KEYPAD_TWO))  // line 1129
    else None
  }

  function KeyboardSectionPart5(code: int): Option<Usage>
  {
    if code == Ecodes.KEY_KP3 then Some(Key(Keycode.KEYPAD_THREE))  // line 1130
    else if code == Ecodes.KEY_KP0 then Some(Key(Keycode.KEYPAD_ZERO))  // line 1137
    else if code == Ecodes.KEY_KPDOT then Some(Key(Keycode.KEYPAD_PERIOD))  // line 1138
    else if code == Ecodes.KEY_102ND then Some(Key(Keycode.KEYPAD_BACKSLASH))  // line 1139
    else if code == Ecodes.KEY_F11 then Some(Key(Keycode.F11))  // line 1107
    else if code == Ecodes.KEY_F12 then Some(Key(Keycode.F12))  // line 1108
    else if code == Ecodes.KEY_KPENTER then Some(Key(Keycode.KEYPAD_ENTER))  // line 1127
    else if code == Ecodes.KEY_RIGHTCTRL then Some(Key(Keycode.RIGHT_CONTROL))  // line 1160
    else if code == Ecodes.KEY_KPSLASH then Some(Key(Keycode.KEYPAD_FORWARD_SLASH))  // line 1123
    else if code == Ecodes.KEY_SYSRQ then Some(Key(Keycode.PRINT_SCREEN))  // line 1109
    else if code == Ecodes.KEY_RIGHTALT then Some(Key(Keycode.RIGHT_ALT))  // line 1162
    else if code == Ecodes.KEY_HOME then Some(Key(Keycode.HOME))  // line 1113
    else if code == Ecodes.KEY_UP then Some(Key(Keycode.UP_ARROW))  // line 1121
    else if code == Ecodes.KEY_PAGEUP then Some(Key(Keycode.PAGE_UP))  // line 1114
    else if code == Ecodes.KEY_LEFT then Some(Key(Keycode.LEFT_ARROW))  // line 1119
    else if code == Ecodes.KEY_RIGHT then Some(Key(Keycode.RIGHT_ARROW))  // line 1118
    else None
  }

  function KeyboardSectionPart6(code: int): Option<Usage>
  {
    if code == Ecodes.KEY_END then Some(Key(Keycode.END))  // line 1116
    else if code == Ecodes.KEY_DOWN then Some(Key(Keycode.DOWN_ARROW))  // line 1120
    else if code == Ecodes.KEY_PAGEDOWN then Some(Key(Keycode.PAGE_DOWN))  // line 1117
    else if code == Ecodes.KEY_INSERT then Some(Key(Keycode.INSERT))  // line 1112
    else if code == Ecodes.KEY_DELETE then Some(Key(Keycode.DELETE))  // line 1115
    else if code == Ecodes.KEY_POWER then Some(Key(Keycode.POWER))  // line 1141
    else if code == Ecodes.KEY_KPEQUAL then Some(Key(Keycode.KEYPAD_EQUALS))  // line 1142
    else if code == Ecodes.KEY_PAUSE then Some(Key(Keycode.PAUSE))  // line 1111
    else if code == Ecodes.KEY_KPCOMMA then Some(Key(Keycode.KEYPAD_COMMA))  // line 1143
    else if code == Ecodes.KEY_LEFTMETA then Some(Key(Keycode.LEFT_GUI))  // line 1159
    else if code == Ecodes.KEY_RIGHTMETA then Some(Key(Keycode.RIGHT_GUI))  // line 1163
    else if code == Ecodes.KEY_COMPOSE then Some(Key(Keycode.APPLICATION))  // line 1140
    else if code == Ecodes.KEY_F13 then Some(Key(Keycode.F13))  // line 1144
    else if code == Ecodes.KEY_F14 then Some(Key(Keycode.F14))  // line 1145
    else if code == Ecodes.KEY_F15 then Some(Key(Keycode.F15))  // line 1146
    else if code == Ecodes.KEY_F16 then Some(Key(Keycode.F16))  // line 1147
    else None
  }

  function KeyboardSectionPart7(code: int): Option<Usage>
  {
    if code == Ecodes.KEY_F17 then Some(Key(Keycode.F17))  // line 1148
    else if code == Ecodes.KEY_F18 then Some(Key(Keycode.F18))  // line 1149
    else if code == Ecodes.KEY_F19 then Some(Key(Keycode.F19))  // line 1150
    else if code == Ecodes.KEY_F20 then Some(Key(Keycode.F20))  // line 1151
    else if code == Ecodes.KEY_F21 then Some(Key(Keycode.F21))  // line 1152
    else if code == Ecodes.KEY_F22 then Some(Key(Keycode.F22))  // line 1153
    else if code == Ecodes.KEY_F23 then Some(Key(Keycode.F23))  // line 1154
    else if code == Ecodes.KEY_F24 then Some(Key(Keycode.F24))  // line 1155
    else if code == Ecodes.BTN_LEFT then Some(Button("LEFT"))  // line 1165
    else if code == Ecodes.BTN_RIGHT then Some(Button("RIGHT"))  // line 1166
    else if code == Ecodes.BTN_MIDDLE then Some(Button("MIDDLE"))  // line 1167
    else None
  }

  function ConsumerSection(code: int): Option<Usage>
  {
    if code < 0x100 then
      if code < 0xa9 then
        if code < 0x8c then
          ConsumerSectionPart0(code)
        else
          ConsumerSectionPart1(code)
      else
        if code < 0xd8 then
          ConsumerSectionPart2(code)
        else
          ConsumerSectionPart3(code)
    else
      if code < 0x197 then
        if code < 0x17f then
          ConsumerSectionPart4(code)
        else
          ConsumerSectionPart5(code)
      else
        if code < 0x1ab then
          ConsumerSectionPart6(code)
        else
          if code < 0x247 then
            ConsumerSectionPart7(code)
          else
            ConsumerSectionPart8(code)
  }

  function ConsumerSectionPart0(code: int): Option<Usage>
  {
    if code == Ecodes.KEY_MUTE then Some(Consumer("MUTE"))  // line 1234
    else if code == Ecodes.KEY_VOLUMEDOWN then Some(Consumer("VOLUME_DECREMENT"))  // line 1237
    else if code == Ecodes.KEY_VOLUMEUP then Some(Consumer("VOLUME_INCREMENT"))  // line 1236
    else if code == Ecodes.KEY_POWER then Some(Consumer("POWER"))  // line 1169
    else if code == Ecodes.KEY_PAUSE then Some(Consumer("PAUSE"))  // line 1219
    else if code == Ecodes.KEY_SCALE then Some(Consumer("AC_DESKTOP_SHOW_ALL_WINDOWS"))  // line 1311
    else if code == Ecodes.KEY_STOP then Some(Consumer("AC_STOP"))  // line 1289
    else if code == Ecodes.KEY_PROPS then Some(Consumer("AC_PROPERTIES"))  // line 1278
    else if code == Ecodes.KEY_UNDO then Some(Consumer("AC_UNDO"))  // line 1279
    else if code == Ecodes.KEY_COPY then Some(Consumer("AC_COPY"))  // line 1280
    else if code == Ecodes.KEY_OPEN then Some(Consumer("AC_OPEN"))  // line 1275
    else if code == Ecodes.KEY_PASTE then Some(Consumer("AC_PASTE"))  // line 1282
    else if code == Ecodes.KEY_FIND then Some(Consumer("AC_FIND"))  // line 1283
    else if code == Ecodes.KEY_CUT then Some(Consumer("AC_CUT"))  // line 1281
    else if code == Ecodes.KEY_HELP then Some(Consumer("AL_INTEGRATED_HELP_CENTER"))  // line 1210
    else if code == Ecodes.KEY_MENU then Some(Consumer("MENU"))  // line 1173
    else None
  }

  function ConsumerSectionPart1(code: int): Option<Usage>
  {
    if code == Ecodes.KEY_CALC then Some(Consumer("AL_CALCULATOR"))  // line 1255
    else if code == Ecodes.KEY_SLEEP then Some(Consumer("SLEEP"))  // line 1171
    else if code == Ecodes.KEY_FILE then Some(Consumer("AL_FILE_BROWSER"))  // line 1257
    else if code == Ecodes.KEY_WWW then Some(Consumer("AL_INTERNET_BROWSER"))  // line 1200
    else if code == Ecodes.KEY_COFFEE then Some(Consumer("AL_TERMINAL_LOCK_SCREENSAVER"))  // line 1260
    else if code == Ecodes.KEY_MAIL then Some(Consumer("AL_EMAIL_READER"))  // line 1247
    else if code == Ecodes.KEY_BOOKMARKS then Some(Consumer("AC_BOOKMARKS"))  // line 1239
    else if code == Ecodes.KEY_BACK then Some(Consumer("AC_BACK"))  // line 1287
    else if code == Ecodes.KEY_FORWARD then Some(Consumer("AC_FORWARD"))  // line 1288
    else if code == Ecodes.KEY_EJECTCD then Some(Consumer("EJECT"))  // line 1226
    else if code == Ecodes.KEY_NEXTSONG then Some(Consumer("SCAN_NEXT_TRACK"))  // line 1223
    else if code == Ecodes.KEY_PLAYPAUSE then Some(Consumer("PLAY_PAUSE"))  // line 1230
    else if code == Ecodes.KEY_PREVIOUSSONG then Some(Consumer("SCAN_PREVIOUS_TRACK"))  // line 1224
    else if code == Ecodes.KEY_STOPCD then Some(Consumer("STOP"))  // line 1225
    else if code == Ecodes.KEY_RECORD then Some(Consumer("RECORD"))  // line 1220
    else if code == Ecodes.KEY_REWIND then Some(Consumer("REWIND"))  // line 1222
    else None
  }

  function ConsumerSectionPart2(code: int): Option<Usage>
  {
    if code == Ecodes.KEY_PHONE then Some(Consumer("MEDIA_SELECT_TELEPHONE"))  // line 1202
    else if code == Ecodes.KEY_CONFIG then Some(Consumer("AL_CONSUMER_CONTROL_CONFIGURATION_TOOL"))  // line 1240
    else if code == Ecodes.KEY_HOMEPAGE then Some(Consumer("AC_HOME"))  // line 1286
    else if code == Ecodes.KEY_REFRESH then Some(Consumer("AC_REFRESH"))  // line 1290
    else if code == Ecodes.KEY_EXIT then Some(Consumer("AC_EXIT"))  // line 1209
    else if code == Ecodes.KEY_EDIT then Some(Consumer("AC_EDIT"))  // line 1297
    else if code == Ecodes.KEY_SCROLLUP then Some(Consumer("AC_SCROLL_UP"))  // line 1295
    else if code == Ecodes.KEY_SCROLLDOWN then Some(Consumer("AC_SCROLL_DOWN"))  // line 1296
    else if code == Ecodes.KEY_NEW then Some(Consumer("AC_NEW"))  // line 1274
    else if code == Ecodes.KEY_REDO then Some(Consumer("AC_REDO_REPEAT"))  // line 1299
    else if code == Ecodes.KEY_ALL_APPLICATIONS then Some(Consumer("AC_DESKTOP_SHOW_ALL_APPLICATIONS"))  // line 1304
    else if code == Ecodes.KEY_CLOSE then Some(Consumer("AC_CLOSE"))  // line 1276
    else if code == Ecodes.KEY_PLAY then Some(Consumer("PLAY"))  // line 1218
    else if code == Ecodes.KEY_FASTFORWARD then Some(Consumer("FAST_FORWARD"))  // line 1221
    else if code == Ecodes.KEY_BASSBOOST then Some(Consumer("BASS_BOOST"))  // line 1235
    else if code == Ecodes.KEY_CAMERA then Some(Consumer("SNAPSHOT"))  // line 1178
    else None
  }

  function ConsumerSectionPart3(code: int): Option<Usage>
  {
    if code == Ecodes.KEY_CHAT then Some(Consumer("AL_NETWORK_CHAT"))  // line 1258
    else if code == Ecodes.KEY_SEARCH then Some(Consumer("AC_SEARCH"))  // line 1284
    else if code == Ecodes.KEY_FINANCE then Some(Consumer("AL_CHECKBOOK_FINANCE"))  // line 1254
    else if code == Ecodes.KEY_CANCEL then Some(Consumer("AC_CANCEL"))  // line 1298
    else if code == Ecodes.KEY_BRIGHTNESSDOWN then Some(Consumer("DISPLAY_BRIGHTNESS_DECREMENT"))  // line 1185
    else if code == Ecodes.KEY_BRIGHTNESSUP then Some(Consumer("DISPLAY_BRIGHTNESS_INCREMENT"))  // line 1184
    else if code == Ecodes.KEY_KBDILLUMTOGGLE then Some(Consumer("KEYBOARD_BACKLIGHT_OOC"))  // line 1195
    else if code == Ecodes.KEY_KBDILLUMDOWN then Some(Consumer("KEYBOARD_BRIGHTNESS_DECREMENT"))  // line 1194
    else if code == Ecodes.KEY_KBDILLUMUP then Some(Consumer("KEYBOARD_BRIGHTNESS_INCREMENT"))  // line 1193
    else if code == Ecodes.KEY_SEND then Some(Consumer("AC_SEND"))  // line 1302
    else if code == Ecodes.KEY_REPLY then Some(Consumer("AC_REPLY"))  // line 1300
    else if code == Ecodes.KEY_FORWARDMAIL then Some(Consumer("AC_FORWARD_MSG"))  // line 1301
    else if code == Ecodes.KEY_SAVE then Some(Consumer("AC_SAVE"))  // line 1277
    else if code == Ecodes.KEY_DOCUMENTS then Some(Consumer("AL_DOCUMENTS"))  // line 1265
    else if code == Ecodes.KEY_VIDEO_NEXT then Some(Consumer("MODE_STEP"))  // line 1196
    else if code == Ecodes.KEY_BRIGHTNESS_AUTO then Some(Consumer("DISPLAY_SET_AUTO_BRIGHTNESS"))  // line 1189
    else None
  }

  function ConsumerSectionPart4(code: int): Option<Usage>
  {
    if code == Ecodes.BTN_MISC then Some(Consumer("FUNCTION_BUTTONS"))  // line 1172
    else if code == Ecodes.KEY_SELECT then Some(Consumer("MENU_PICK"))  // line 1174
    else if code == Ecodes.KEY_GOTO then Some(Consumer("AC_GO_TO"))  // line 1285
    else if code == Ecodes.KEY_INFO then Some(Consumer("AL_OEM_FEATURES_TIPS_TUTORIAL_BROWSER"))  // line 1175
    else if code == Ecodes.KEY_PROGRAM then Some(Consumer("MEDIA_SELECT_PROGRAM_GUIDE"))  // line 1203
    else if code == Ecodes.KEY_PVR then Some(Consumer("MEDIA_SELECT_HOME"))  // line 1214
    else if code == Ecodes.KEY_SUBTITLE then Some(Consumer("CLOSED_CAPTION"))  // line 1176
    else if code == Ecodes.KEY_FULL_SCREEN then Some(Consumer("AC_VIEW_TOGGLE"))  // line 1294
    else if code == Ecodes.KEY_KEYBOARD then Some(Consumer("AL_KEYBOARD_LAYOUT"))  // line 1267
    else if code == Ecodes.KEY_ASPECT_RATIO then Some(Consumer("ASPECT"))  // line 1183
    else if code == Ecodes.KEY_PC then Some(Consumer("MEDIA_SELECT_COMPUTER"))  // line 1198
    else if code == Ecodes.KEY_TV then Some(Consumer("MEDIA_SELECT_TV"))  // line 1199
    else if code == Ecodes.KEY_TV2 then Some(Consumer("MEDIA_SELECT_CABLE"))  // line 1212
    else if code == Ecodes.KEY_VCR then Some(Consumer("MEDIA_SELECT_VCR"))  // line 1177
    else if code == Ecodes.KEY_VCR2 then Some(Consumer("VCR_PLUS"))  // line 1217
    else if code == Ecodes.KEY_SAT then Some(Consumer("MEDIA_SELECT_SATELLITE"))  // line 1213
    else None
  }

  function ConsumerSectionPart5(code: int): Option<Usage>
  {
    if code == Ecodes.KEY_CD then Some(Consumer("MEDIA_SELECT_CD"))  // line 1207
    else if code == Ecodes.KEY_TAPE then Some(Consumer("MEDIA_SELECT_TAPE"))  // line 1211
    else if code == Ecodes.KEY_TUNER then Some(Consumer("MEDIA_SELECT_TUNER"))  // line 1208
    else if code == Ecodes.KEY_PLAYER then Some(Consumer("AL_AV_CAPTURE_PLAYBACK"))  // line 1256
    else if code == Ecodes.KEY_DVD then Some(Consumer("MEDIA_SELECT_DVD"))  // line 1201
    else if code == Ecodes.KEY_AUDIO then Some(Consumer("AL_AUDIO_BROWSER"))  // line 1270
    else if code == Ecodes.KEY_VIDEO then Some(Consumer("AL_MOVIE_BROWSER"))  // line 1271
    else if code == Ecodes.KEY_MEMO then Some(Consumer("MEDIA_SELECT_MESSAGES"))  // line 1206
    else if code == Ecodes.KEY_CALENDAR then Some(Consumer("AL_CALENDAR_SCHEDULE"))  // line 1251
    else if code == Ecodes.KEY_RED then Some(Consumer("RED_MENU_BUTTON"))  // line 1179
    else if code == Ecodes.KEY_GREEN then Some(Consumer("GREEN_MENU_BUTTON"))  // line 1180
    else if code == Ecodes.KEY_YELLOW then Some(Consumer("YELLOW_MENU_BUTTON"))  // line 1182
    else if code == Ecodes.KEY_BLUE then Some(Consumer("BLUE_MENU_BUTTON"))  // line 1181
    else if code == Ecodes.KEY_CHANNELUP then Some(Consumer("CHANNEL_INCREMENT"))  // line 1215
    else if code == Ecodes.KEY_CHANNELDOWN then Some(Consumer("CHANNEL_DECREMENT"))  // line 1216
    else if code == Ecodes.KEY_LAST then Some(Consumer("RECALL_LAST"))  // line 1197
    else None
  }

  function ConsumerSectionPart6(code: int): Option<Usage>
  {
    if code == Ecodes.KEY_NEXT then Some(Consumer("AL_NEXT_TASK_APPLICATION"))  // line 1263
    else if code == Ecodes.KEY_RESTART then Some(Consumer("RESET"))  // line 1170
    else if code == Ecodes.KEY_SLOW then Some(Consumer("SLOW"))  // line 1229
    else if code == Ecodes.KEY_SHUFFLE then Some(Consumer("RANDOM_PLAY"))  // line 1228
    else if code == Ecodes.KEY_PREVIOUS then Some(Consumer("AL_PREVIOUS_TASK_APPLICATION"))  // line 1264
    else if code == Ecodes.KEY_VIDEOPHONE then Some(Consumer("MEDIA_SELECT_VIDEO_PHONE"))  // line 1204
    else if code == Ecodes.KEY_GAMES then Some(Consumer("MEDIA_SELECT_GAMES"))  // line 1205
    else if code == Ecodes.KEY_ZOOMIN then Some(Consumer("AC_ZOOM_IN"))  // line 1291
    else if code == Ecodes.KEY_ZOOMOUT then Some(Consumer("AC_ZOOM_OUT"))  // line 1292
    else if code == Ecodes.KEY_ZOOMRESET then Some(Consumer("AC_ZOOM"))  // line 1293
    else if code == Ecodes.KEY_WORDPROCESSOR then Some(Consumer("AL_WORD_PROCESSOR"))  // line 1241
    else if code == Ecodes.KEY_EDITOR then Some(Consumer("AL_TEXT_EDITOR"))  // line 1242
    else if code == Ecodes.KEY_SPREADSHEET then Some(Consumer("AL_SPREADSHEET"))  // line 1243
    else if code == Ecodes.KEY_GRAPHICSEDITOR then Some(Consumer("AL_GRAPHICS_EDITOR"))  // line 1244
    else if code == Ecodes.KEY_PRESENTATION then Some(Consumer("AL_PRESENTATION_APP"))  // line 1245
    else if code == Ecodes.KEY_DATABASE then Some(Consumer("AL_DATABASE_APP"))  // line 1246
    else None
  }

  function ConsumerSectionPart7(code: int): Option<Usage>
  {
    if code == Ecodes.KEY_NEWS then Some(Consumer("AL_NEWSREADER"))  // line 1248
    else if code == Ecodes.KEY_VOICEMAIL then Some(Consumer("AL_VOICEMAIL"))  // line 1249
    else if code == Ecodes.KEY_ADDRESSBOOK then Some(Consumer("AL_CONTACTS_ADDRESS_BOOK"))  // line 1250
    else if code == Ecodes.KEY_MESSENGER then Some(Consumer("AL_INSTANT_MESSAGING"))  // line 1272
    else if code == Ecodes.KEY_BRIGHTNESS_TOGGLE then Some(Consumer("DISPLAY_BACKLIGHT_TOGGLE"))  // line 1186
    else if code == Ecodes.KEY_SPELLCHECK then Some(Consumer("AL_SPELL_CHECK"))  // line 1266
    else if code == Ecodes.KEY_LOGOFF then Some(Consumer("AL_LOGOFF"))  // line 1259
    else if code == Ecodes.KEY_MEDIA_REPEAT then Some(Consumer("REPEAT"))  // line 1227
    else if code == Ecodes.KEY_IMAGES then Some(Consumer("AL_IMAGE_BROWSER"))  // line 1269
    else if code == Ecodes.KEY_BUTTONCONFIG then Some(Consumer("AL_LAUNCH_BUTTON_CONFIGURATION_TOOL"))  // line 1238
    else if code == Ecodes.KEY_TASKMANAGER then Some(Consumer("AL_TASK_PROJECT_MANAGER"))  // line 1252
    else if code == Ecodes.KEY_JOURNAL then Some(Consumer("AL_LOG_JOURNAL_TIMECARD"))  // line 1253
    else if code == Ecodes.KEY_CONTROLPANEL then Some(Consumer("AL_CONTROL_PANEL"))  // line 1261
    else if code == Ecodes.KEY_APPSELECT then Some(Consumer("AL_SELECT_TASK_APPLICATION"))  // line 1262
    else if code == Ecodes.KEY_SCREENSAVER then Some(Consumer("AL_SCREEN_SAVER"))  // line 1268
    else if code == Ecodes.KEY_VOICECOMMAND then Some(Consumer("VOICE_COMMAND"))  // line 1231
    else None
  }

  function ConsumerSectionPart8(code: int): Option<Usage>
  {
    if code == Ecodes.KEY_ASSISTANT then Some(Consumer("AL_CONTEXT_AWARE_DESKTOP_ASSISTANT"))  // line 1273
    else if code == Ecodes.KEY_KBD_LAYOUT_NEXT then Some(Consumer("AC_NEXT_KEYBOARD_LAYOUT_SELECT"))  // line 1303
    else if code == Ecodes.KEY_EMOJI_PICKER then Some(Consumer("INVOKE_OR_DISMISS_EMOJI_PICKER"))  // line 1233
    else if code == Ecodes.KEY_DICTATE then Some(Consumer("START_OR_STOP_VOICE_DICTATION_SESSION"))  // line 1232
    else if code == Ecodes.KEY_CAMERA_ACCESS_ENABLE then Some(Consumer("CAMERA_ACCESS_ENABLED"))  // line 1190
    else if code == Ecodes.KEY_CAMERA_ACCESS_DISABLE then Some(Consumer("CAMERA_ACCESS_DISABLED"))  // line 1191
    else if code == Ecodes.KEY_CAMERA_ACCESS_TOGGLE then Some(Consumer("CAMERA_ACCESS_TOGGLE"))  // line 1192
    else if code == Ecodes.KEY_BRIGHTNESS_MIN then Some(Consumer("DISPLAY_SET_BRIGHTNESS_TO_MINIMUM"))  // line 1187
    else if code == Ecodes.KEY_BRIGHTNESS_MAX then Some(Consumer("DISPLAY_SET_BRIGHTNESS_TO_MAXIMUM"))  // line 1188
    else if code == Ecodes.KEY_KBDINPUTASSIST_PREV then Some(Consumer("KEYBOARD_INPUT_ASSIST_PREVIOUS"))  // line 1305
    else if code == Ecodes.KEY_KBDINPUTASSIST_NEXT then Some(Consumer("KEYBOARD_INPUT_ASSIST_NEXT"))  // line 1306
    else if code == Ecodes.KEY_KBDINPUTASSIST_PREVGROUP then Some(Consumer("KEYBOARD_INPUT_ASSIST_PREVIOUS_GROUP"))  // line 1307
    else if code == Ecodes.KEY_KBDINPUTASSIST_NEXTGROUP then Some(Consumer("KEYBOARD_INPUT_ASSIST_NEXT_GROUP"))  // line 1308
    else if code == Ecodes.KEY_KBDINPUTASSIST_ACCEPT then Some(Consumer("KEYBOARD_INPUT_ASSIST_ACCEPT"))  // line 1309
    else if code == Ecodes.KEY_KBDINPUTASSIST_CANCEL then Some(Consumer("KEYBOARD_INPUT_ASSIST_CANCEL"))  // line 1310
    else None
  }

  predicate IsConsumerKey(code: int)
  {
    if code < 0x100 then
      if code < 0xa9 then
        if code < 0x8c then
          ConsumerKeysPart0(code)
        else
          ConsumerKeysPart1(code)
      else
        if code < 0xd8 then
          ConsumerKeysPart2(code)
        else
          ConsumerKeysPart3(code)
    else
      if code < 0x197 then
        if code < 0x17f then
          ConsumerKeysPart4(code)
        else
          ConsumerKeysPart5(code)
      else
        if code < 0x1ab then
          ConsumerKeysPart6(code)
        else
          if code < 0x247 then
            ConsumerKeysPart7(code)
          else
            ConsumerKeysPart8(code)
  }

  predicate ConsumerKeysPart0(code: int)
  {
    if code == Ecodes.KEY_MUTE then true  // line 1383
    else if code == Ecodes.KEY_VOLUMEDOWN then true  // line 1386
    else if code == Ecodes.KEY_VOLUMEUP then true  // line 1385
    else if code == Ecodes.KEY_POWER then true  // line 1318
    else if code == Ecodes.KEY_PAUSE then true  // line 1368
    else if code == Ecodes.KEY_SCALE then true  // line 1460
    else if code == Ecodes.KEY_STOP then true  // line 1438
    else if code == Ecodes.KEY_PROPS then true  // line 1427
    else if code == Ecodes.KEY_UNDO then true  // line 1428
    else if code == Ecodes.KEY_COPY then true  // line 1429
    else if code == Ecodes.KEY_OPEN then true  // line 1424
    else if code == Ecodes.KEY_PASTE then true  // line 1431
    else if code == Ecodes.KEY_FIND then true  // line 1432
    else if code == Ecodes.KEY_CUT then true  // line 1430
    else if code == Ecodes.KEY_HELP then true  // line 1359
    else if code == Ecodes.KEY_MENU then true  // line 1322
    else false
  }

  predicate ConsumerKeysPart1(code: int)
  {
    if code == Ecodes.KEY_CALC then true  // line 1404
    else if code == Ecodes.KEY_SLEEP then true  // line 1320
    else if code == Ecodes.KEY_FILE then true  // line 1406
    else if code == Ecodes.KEY_WWW then true  // line 1349
    else if code == Ecodes.KEY_COFFEE then true  // line 1409
    else if code == Ecodes.KEY_MAIL then true  // line 1396
    else if code == Ecodes.KEY_BOOKMARKS then true  // line 1388
    else if code == Ecodes.KEY_BACK then true  // line 1436
    else if code == Ecodes.KEY_FORWARD then true  // line 1437
    else if code == Ecodes.KEY_EJECTCD then true  // line 1375
    else if code == Ecodes.KEY_NEXTSONG then true  // line 1372
    else if code == Ecodes.KEY_PLAYPAUSE then true  // line 1379
    else if code == Ecodes.KEY_PREVIOUSSONG then true  // line 1373
    else if code == Ecodes.KEY_STOPCD then true  // line 1374
    else if code == Ecodes.KEY_RECORD then true  // line 1369
    else if code == Ecodes.KEY_REWIND then true  // line 1371
    else false
  }

  predicate ConsumerKeysPart2(code: int)
  {
    if code == Ecodes.KEY_PHONE then true  // line 1351
    else if code == Ecodes.KEY_CONFIG then true  // line 1389
    else if code == Ecodes.KEY_HOMEPAGE then true  // line 1435
    else if code == Ecodes.KEY_REFRESH then true  // line 1439
    else if code == Ecodes.KEY_EXIT then true  // line 1358
    else if code == Ecodes.KEY_EDIT then true  // line 1446
    else if code == Ecodes.KEY_SCROLLUP then true  // line 1444
    else if code == Ecodes.KEY_SCROLLDOWN then true  // line 1445
    else if code == Ecodes.KEY_NEW then true  // line 1423
    else if code == Ecodes.KEY_REDO then true  // line 1448
    else if code == Ecodes.KEY_ALL_APPLICATIONS then true  // line 1453
    else if code == Ecodes.KEY_CLOSE then true  // line 1425
    else if code == Ecodes.KEY_PLAY then true  // line 1367
    else if code == Ecodes.KEY_FASTFORWARD then true  // line 1370
    else if code == Ecodes.KEY_BASSBOOST then true  // line 1384
    else if code == Ecodes.KEY_CAMERA then true  // line 1327
    else false
  }

  predicate ConsumerKeysPart3(code: int)
  {
    if code == Ecodes.KEY_CHAT then true  // line 1407
    else if code == Ecodes.KEY_SEARCH then true  // line 1433
    else if code == Ecodes.KEY_FINANCE then true  // line 1403
    else if code == Ecodes.KEY_CANCEL then true  // line 1447
    else if code == Ecodes.KEY_BRIGHTNESSDOWN then true  // line 1334
    else if code == Ecodes.KEY_BRIGHTNESSUP then true  // line 1333
    else if code == Ecodes.KEY_KBDILLUMTOGGLE then true  // line 1344
    else if code == Ecodes.KEY_KBDILLUMDOWN then true  // line 1343
    else if code == Ecodes.KEY_KBDILLUMUP then true  // line 1342
    else if code == Ecodes.KEY_SEND then true  // line 1451
    else if code == Ecodes.KEY_REPLY then true  // line 1449
    else if code == Ecodes.KEY_FORWARDMAIL then true  // line 1450
    else if code == Ecodes.KEY_SAVE then true  // line 1426
    else if code == Ecodes.KEY_DOCUMENTS then true  // line 1414
    else if code == Ecodes.KEY_VIDEO_NEXT then true  // line 1345
    else if code == Ecodes.KEY_BRIGHTNESS_AUTO then true  // line 1338
    else false
  }

  predicate ConsumerKeysPart4(code: int)
  {
    if code == Ecodes.BTN_MISC then true  // line 1321
    else if code == Ecodes.KEY_SELECT then true  // line 1323
    else if code == Ecodes.KEY_GOTO then true  // line 1434
    else if code == Ecodes.KEY_INFO then true  // line 1324
    else if code == Ecodes.KEY_PROGRAM then true  // line 1352
    else if code == Ecodes.KEY_PVR then true  // line 1363
    else if code == Ecodes.KEY_SUBTITLE then true  // line 1325
    else if code == Ecodes.KEY_FULL_SCREEN then true  // line 1443
    else if code == Ecodes.KEY_KEYBOARD then true  // line 1416
    else if code == Ecodes.KEY_ASPECT_RATIO then true  // line 1332
    else if code == Ecodes.KEY_PC then true  // line 1347
    else if code == Ecodes.KEY_TV then true  // line 1348
    else if code == Ecodes.KEY_TV2 then true  // line 1361
    else if code == Ecodes.KEY_VCR then true  // line 1326
    else if code == Ecodes.KEY_VCR2 then true  // line 1366
    else if code == Ecodes.KEY_SAT then true  // line 1362
    else false
  }

  predicate ConsumerKeysPart5(code: int)
  {
    if code == Ecodes.KEY_CD then true  // line 1356
    else if code == Ecodes.KEY_TAPE then true  // line 1360
    else if code == Ecodes.KEY_TUNER then true  // line 1357
    else if code == Ecodes.KEY_PLAYER then true  // line 1405
    else if code == Ecodes.KEY_DVD then true  // line 1350
    else if code == Ecodes.KEY_AUDIO then true  // line 1419
    else if code == Ecodes.KEY_VIDEO then true  // line 1420
    else if code == Ecodes.KEY_MEMO then true  // line 1355
    else if code == Ecodes.KEY_CALENDAR then true  // line 1400
    else if code == Ecodes.KEY_RED then true  // line 1328
    else if code == Ecodes.KEY_GREEN then true  // line 1329
    else if code == Ecodes.KEY_YELLOW then true  // line 1331
    else if code == Ecodes.KEY_BLUE then true  // line 1330
    else if code == Ecodes.KEY_CHANNELUP then true  // line 1364
    else if code == Ecodes.KEY_CHANNELDOWN then true  // line 1365
    else if code == Ecodes.KEY_LAST then true  // line 1346
    else false
  }

  predicate ConsumerKeysPart6(code: int)
  {
    if code == Ecodes.KEY_NEXT then true  // line 1412
    else if code == Ecodes.KEY_RESTART then true  // line 1319
    else if code == Ecodes.KEY_SLOW then true  // line 1378
    else if code == Ecodes.KEY_SHUFFLE then true  // line 1377
    else if code == Ecodes.KEY_PREVIOUS then true  // line 1413
    else if code == Ecodes.KEY_VIDEOPHONE then true  // line 1353
    else if code == Ecodes.KEY_GAMES then true  // line 1354
    else if code == Ecodes.KEY_ZOOMIN then true  // line 1440
    else if code == Ecodes.KEY_ZOOMOUT then true  // line 1441
    else if code == Ecodes.KEY_ZOOMRESET then true  // line 1442
    else if code == Ecodes.KEY_WORDPROCESSOR then true  // line 1390
    else if code == Ecodes.KEY_EDITOR then true  // line 1391
    else if code == Ecodes.KEY_SPREADSHEET then true  // line 1392
    else if code == Ecodes.KEY_GRAPHICSEDITOR then true  // line 1393
    else if code == Ecodes.KEY_PRESENTATION then true  // line 1394
    else if code == Ecodes.KEY_DATABASE then true  // line 1395
    else false
  }

  predicate ConsumerKeysPart7(code: int)
  {
    if code == Ecodes.KEY_NEWS then true  // line 1397
    else if code == Ecodes.KEY_VOICEMAIL then true  // line 1398
    else if code == Ecodes.KEY_ADDRESSBOOK then true  // line 1399
    else if code == Ecodes.KEY_MESSENGER then true  // line 1421
    else if code == Ecodes.KEY_BRIGHTNESS_TOGGLE then true  // line 1335
    else if code == Ecodes.KEY_SPELLCHECK then true  // line 1415
    else if code == Ecodes.KEY_LOGOFF then true  // line 1408
    else if code == Ecodes.KEY_MEDIA_REPEAT then true  // line 1376
    else if code == Ecodes.KEY_IMAGES then true  // line 1418
    else if code == Ecodes.KEY_BUTTONCONFIG then true  // line 1387
    else if code == Ecodes.KEY_TASKMANAGER then true  // line 1401
    else if code == Ecodes.KEY_JOURNAL then true  // line 1402
    else if code == Ecodes.KEY_CONTROLPANEL then true  // line 1410
    else if code == Ecodes.KEY_APPSELECT then true  // line 1411
    else if code == Ecodes.KEY_SCREENSAVER then true  // line 1417
    else if code == Ecodes.KEY_VOICECOMMAND then true  // line 1380
    else false
  }

  predicate ConsumerKeysPart8(code: int)
  {
    if code == Ecodes.KEY_ASSISTANT then true  // line 1422
    else if code == Ecodes.KEY_KBD_LAYOUT_NEXT then true  // line 1452
    else if code == Ecodes.KEY_EMOJI_PICKER then true  // line 1382
    else if code == Ecodes.KEY_DICTATE then true  // line 1381
    else if code == Ecodes.KEY_CAMERA_ACCESS_ENABLE then true  // line 1339
    else if code == Ecodes.KEY_CAMERA_ACCESS_DISABLE then true  // line 1340
    else if code == Ecodes.KEY_CAMERA_ACCESS_TOGGLE then true  // line 1341
    else if code == Ecodes.KEY_BRIGHTNESS_MIN then true  // line 1336
    else if code == Ecodes.KEY_BRIGHTNESS_MAX then true  // line 1337
    else if code == Ecodes.KEY_KBDINPUTASSIST_PREV then true  // line 1454
    else if code == Ecodes.KEY_KBDINPUTASSIST_NEXT then true  // line 1455
    else if code == Ecodes.KEY_KBDINPUTASSIST_PREVGROUP then true  // line 1456
    else if code == Ecodes.KEY_KBDINPUTASSIST_NEXTGROUP then true  // line 1457
    else if code == Ecodes.KEY_KBDINPUTASSIST_ACCEPT then true  // line 1458
    else if code == Ecodes.KEY_KBDINPUTASSIST_CANCEL then true  // line 1459
    else false
  }

  /** What every entry of the keyboard section satisfies. Its usages are keyboard usages that fit a report byte
      or, exactly for the three mouse buttons, mouse buttons; its only codes that are also consumer keys are
      KEY_PAUSE and KEY_POWER. */
  predicate KeyboardEntry(code: int, u: Usage)
  {
    && !u.Consumer?
    && (u.Key? ==> 0 <= u.id <= 0xFF)
    && (u.Button? <==> IsMouseButton(code))
    && (IsConsumerKey(code) ==> code == Ecodes.KEY_PAUSE || code == Ecodes.KEY_POWER)
  }

  lemma KeyboardSectionPart0Facts()
    ensures forall code :: KeyboardSectionPart0(code).Some? ==> KeyboardEntry(code, KeyboardSectionPart0(code).value)
  {
  }

  lemma KeyboardSectionPart1Facts()
    ensures forall code :: KeyboardSectionPart1(code).Some? ==> KeyboardEntry(code, KeyboardSectionPart1(code).value)
  {
  }

  lemma KeyboardSectionPart2Facts()
    ensures forall code :: KeyboardSectionPart2(code).Some? ==> KeyboardEntry(code, KeyboardSectionPart2(code).value)
  {
  }

  lemma KeyboardSectionPart3Facts()
    ensures forall code :: KeyboardSectionPart3(code).Some? ==> KeyboardEntry(code, KeyboardSectionPart3(code).value)
  {
  }

  lemma KeyboardSectionPart4Facts()
    ensures forall code :: KeyboardSectionPart4(code).Some? ==> KeyboardEntry(code, KeyboardSectionPart4(code).value)
  {
  }

  lemma KeyboardSectionPart5Facts()
    ensures forall code :: KeyboardSectionPart5(code).Some? ==> KeyboardEntry(code, KeyboardSectionPart5(code).value)
  {
  }

  lemma KeyboardSectionPart6Facts()
    ensures forall code :: KeyboardSectionPart6(code).Some? ==> KeyboardEntry(code, KeyboardSectionPart6(code).value)
  {
  }

  lemma KeyboardSectionPart7Facts()
    ensures forall code :: KeyboardSectionPart7(code).Some? ==> KeyboardEntry(code, KeyboardSectionPart7(code).value)
  {
  }

  lemma ConsumerSectionPart0Facts()
    ensures forall code :: ConsumerSectionPart0(code).Some? <==> ConsumerKeysPart0(code)
    ensures forall code :: ConsumerSectionPart0(code).Some? ==> ConsumerSectionPart0(code).value.Consumer?
  {
  }

  lemma ConsumerSectionPart1Facts()
    ensures forall code :: ConsumerSectionPart1(code).Some? <==> ConsumerKeysPart1(code)
    ensures forall code :: ConsumerSectionPart1(code).Some? ==> ConsumerSectionPart1(code).value.Consumer?
  {
  }

  lemma ConsumerSectionPart2Facts()
    ensures forall code :: ConsumerSectionPart2(code).Some? <==> ConsumerKeysPart2(code)
    ensures forall code :: ConsumerSectionPart2(code).Some? ==> ConsumerSectionPart2(code).value.Consumer?
  {
  }

  lemma ConsumerSectionPart3Facts()
    ensures forall code :: ConsumerSectionPart3(code).Some? <==> ConsumerKeysPart3(code)
    ensures forall code :: ConsumerSectionPart3(code).Some? ==> ConsumerSectionPart3(code).value.Consumer?
  {
  }

  lemma ConsumerSectionPart4Facts()
    ensures forall code :: ConsumerSectionPart4(code).Some? <==> ConsumerKeysPart4(code)
    ensures forall code :: ConsumerSectionPart4(code).Some? ==> ConsumerSectionPart4(code).value.Consumer?
  {
  }

  lemma ConsumerSectionPart5Facts()
    ensures forall code :: ConsumerSectionPart5(code).Some? <==> ConsumerKeysPart5(code)
    ensures forall code :: ConsumerSectionPart5(code).Some? ==> ConsumerSectionPart5(code).value.Consumer?
  {
  }

  lemma ConsumerSectionPart6Facts()
    ensures forall code :: ConsumerSectionPart6(code).Some? <==> ConsumerKeysPart6(code)
    ensures forall code :: ConsumerSectionPart6(code).Some? ==> ConsumerSectionPart6(code).value.Consumer?
  {
  }

  lemma ConsumerSectionPart7Facts()
    ensures forall code :: ConsumerSectionPart7(code).Some? <==> ConsumerKeysPart7(code)
    ensures forall code :: ConsumerSectionPart7(code).Some? ==> ConsumerSectionPart7(code).value.Consumer?
  {
  }

  lemma ConsumerSectionPart8Facts()
    ensures forall code :: ConsumerSectionPart8(code).Some? <==> ConsumerKeysPart8(code)
    ensures forall code :: ConsumerSectionPart8(code).Some? ==> ConsumerSectionPart8(code).value.Consumer?
  {
  }

  lemma KeyboardSectionFacts()
    ensures forall code :: KeyboardSection(code).Some? ==> KeyboardEntry(code, KeyboardSection(code).value)
  {
    KeyboardSectionPart0Facts();
    KeyboardSectionPart1Facts();
    KeyboardSectionPart2Facts();
    KeyboardSectionPart3Facts();
    KeyboardSectionPart4Facts();
    KeyboardSectionPart5Facts();
    KeyboardSectionPart6Facts();
    KeyboardSectionPart7Facts();
  }

  /** The consumer section has an entry exactly for the codes of `_CONSUMER_KEYS`, and all its usages are
      consumer usages. */
  lemma ConsumerSectionFacts()
    ensures forall code :: ConsumerSection(code).Some? <==> IsConsumerKey(code)
    ensures forall code :: ConsumerSection(code).Some? ==> ConsumerSection(code).value.Consumer?
  {
    ConsumerSectionPart0Facts();
    ConsumerSectionPart1Facts();
    ConsumerSectionPart2Facts();
    ConsumerSectionPart3Facts();
    ConsumerSectionPart4Facts();
    ConsumerSectionPart5Facts();
    ConsumerSectionPart6Facts();
    ConsumerSectionPart7Facts();
    ConsumerSectionPart8Facts();
  }

  /** `_CONSUMER_KEYS` and `_MOUSE_BUTTONS` are disjoint. */
  lemma ConsumerKeysAreNotMouseButtons()
    ensures forall code :: !(IsConsumerKey(code) && IsMouseButton(code))
  {
    assert !IsConsumerKey(Ecodes.BTN_LEFT) && !IsConsumerKey(Ecodes.BTN_RIGHT) && !IsConsumerKey(Ecodes.BTN_MIDDLE);
  }

  /** Every consumer key has an entry, and an entry is a consumer usage exactly when its code is a consumer key
      and a mouse button exactly when its code is a mouse button. So the output channel the classification
      picks always receives the kind of usage it understands. Keyboard usages fit a report byte. */
  lemma TableAgreesWithClassification()
    ensures forall code :: IsConsumerKey(code) ==> UsbHid(code).Some?
    ensures forall code | UsbHid(code).Some? :: UsbHid(code).value.Consumer? <==> IsConsumerKey(code)
    ensures forall code | UsbHid(code).Some? :: UsbHid(code).value.Button? <==> IsMouseButton(code)
    ensures forall code | UsbHid(code).Some? && UsbHid(code).value.Key? :: 0 <= UsbHid(code).value.id <= 0xFF
  {
    KeyboardSectionFacts();
    ConsumerSectionFacts();
    ConsumerKeysAreNotMouseButtons();
  }

  /** KEY_PAUSE and KEY_POWER are the only codes of both sections. The keyboard section maps them to keyboard
      usages and the consumer section to consumer usages; the table keeps the later, consumer, entry, which
      matches both codes being consumer keys. */
  lemma RepeatedKeysKeepLaterEntry()
    ensures forall code :: KeyboardSection(code).Some? && ConsumerSection(code).Some? ==>
      code == Ecodes.KEY_PAUSE || code == Ecodes.KEY_POWER
    ensures KeyboardSection(Ecodes.KEY_PAUSE) == Some(Key(Keycode.PAUSE))
    ensures KeyboardSection(Ecodes.KEY_POWER) == Some(Key(Keycode.POWER))
    ensures UsbHid(Ecodes.KEY_PAUSE) == Some(Consumer("PAUSE"))
    ensures UsbHid(Ecodes.KEY_POWER) == Some(Consumer("POWER"))
    ensures IsConsumerKey(Ecodes.KEY_PAUSE) && IsConsumerKey(Ecodes.KEY_POWER)
  {
    KeyboardSectionFacts();
    ConsumerSectionFacts();
  }

  /** Mapped and unmapped codes: BTN_MISC is mapped through the consumer section, while REL-style codes above
      the table, and negative codes, are not. */
  lemma MappedAndUnmapped()
    ensures UsbHid(Ecodes.KEY_A) == Some(Key(Keycode.A))
    ensures UsbHid(Ecodes.BTN_LEFT) == Some(Button("LEFT"))
    ensures UsbHid(Ecodes.BTN_MISC) == Some(Consumer("FUNCTION_BUTTONS"))
    ensures UsbHid(Ecodes.KEY_RESERVED) == None
    ensures UsbHid(-1) == None
  {
  }

  /** `_get_hid_code_type`: consumer keys first, then mouse buttons, and `Keycode` for every other code. Because
      the two sets are disjoint, each class is chosen exactly for its own codes. */
  function GetHidCodeType(code: int): (t: CodeType)
    ensures t == ConsumerCodes <==> IsConsumerKey(code)
    ensures t == MouseButtons <==> IsMouseButton(code)
    ensures t == Keycodes <==> !IsConsumerKey(code) && !IsMouseButton(code)
  {
    ConsumerKeysAreNotMouseButtons();
    if IsConsumerKey(code) then ConsumerCodes
    else if IsMouseButton(code) then MouseButtons
    else Keycodes
  }

  /** `find_usage_name`: the name, in the class for the code type, of a constant with the given value. It
      reflects over a library that is not part of this model, so it is a parameter. */
  type UsageNamer = (CodeType, Option<Usage>) -> Option<string>

  /** The lookup part of `evdev_to_usb_hid`: the usage of the scancode, or None when the table has no entry,
      and the name `find_usage_name` gives it in the class of the scancode's code type. */
  function EvdevToUsbHid(event: KeyEvent, usageName: UsageNamer): (r: (Option<Usage>, Option<string>))
    ensures r.0.None? <==> UsbHid(event.scancode).None?
    ensures r.0.Some? ==> (r.0.value.Consumer? <==> GetHidCodeType(event.scancode) == ConsumerCodes)
    ensures r.0.Some? ==> (r.0.value.Button? <==> GetHidCodeType(event.scancode) == MouseButtons)
    ensures r.0.Some? ==> (r.0.value.Key? <==> GetHidCodeType(event.scancode) == Keycodes)
  {
    TableAgreesWithClassification();
    var id := UsbHid(event.scancode);
    (id, usageName(GetHidCodeType(event.scancode), id))
  }

  /** The translation reads only the scancode: the key state makes no difference. */
  lemma TranslationIgnoresKeyState(e1: KeyEvent, e2: KeyEvent, usageName: UsageNamer)
    requires e1.scancode == e2.scancode
    ensures EvdevToUsbHid(e1, usageName) == EvdevToUsbHid(e2, usageName)
  {
  }

  /** `get_mouse_movement`: the delta of a REL_X, REL_Y or REL_WHEEL event as (x, y, wheel), with the other two
      components zero; any other axis, REL_HWHEEL included, moves nothing. */
  function GetMouseMovement(event: RelEvent): (m: (int, int, int))
    ensures event.code == Ecodes.REL_X ==> m == (event.value, 0, 0)
    ensures event.code == Ecodes.REL_Y ==> m == (0, event.value, 0)
    ensures event.code == Ecodes.REL_WHEEL ==> m == (0, 0, event.value)
    ensures event.code != Ecodes.REL_X && event.code != Ecodes.REL_Y && event.code != Ecodes.REL_WHEEL ==>
      m == (0, 0, 0)
  {
    if event.code == Ecodes.REL_X then (event.value, 0, 0)
    else if event.code == Ecodes.REL_Y then (0, event.value, 0)
    else if event.code == Ecodes.REL_WHEEL then (0, 0, event.value)
    else (0, 0, 0)
  }

  /** At most one component of a movement is nonzero, and the components add up to the delta of the event when
      it is on one of the three axes and to zero otherwise. */
  lemma MovementHasOneAxis(event: RelEvent)
    ensures var (x, y, w) := GetMouseMovement(event);
      (x != 0 ==> y == 0 && w == 0) && (y != 0 ==> x == 0 && w == 0) && (w != 0 ==> x == 0 && y == 0)
    ensures var (x, y, w) := GetMouseMovement(event);
      x + y + w == if event.code in {Ecodes.REL_X, Ecodes.REL_Y, Ecodes.REL_WHEEL} then event.value else 0
    ensures GetMouseMovement(RelEvent(Ecodes.REL_HWHEEL, event.value)) == (0, 0, 0)
  {
  }

  // ---------------------------------------------------------------------------------------------------
  // find_key_name

  /** An attribute of the `ecodes` class as `dir()` lists it: its name and, for an integer constant, its
      value (None for the attributes every class has, which are not integers). */
  datatype Attribute = Attribute(name: string, value: Option<int>)

  /** The test of `find_key_name`: the attribute's value is the scancode and its name starts with `KEY_` or
      `BTN_`. */
  predicate IsKeyName(a: Attribute, code: int)
  {
    a.value == Some(code) && (StartsWith(a.name, "KEY_") || StartsWith(a.name, "BTN_"))
  }

  /** Python's `<` on strings: code point by code point, a proper prefix first. */
  predicate Before(a: string, b: string)
  {
    if a == [] then b != []
    else b != [] && (a[0] < b[0] || (a[0] == b[0] && Before(a[1..], b[1..])))
  }

  /** `dir()` returns the attribute names in increasing order. */
  predicate SortedByName(attrs: seq<Attribute>)
  {
    forall i, j :: 0 <= i < j < |attrs| ==> Before(attrs[i].name, attrs[j].name)
  }

  /** `find_key_name` over the listing of `dir(ecodes)`: the first key or button name whose value is the
      scancode, or None when there is none. */
  function FindKeyName(attrs: seq<Attribute>, code: int): (r: Option<string>)
    ensures r.Some? ==> exists i :: 0 <= i < |attrs| && IsKeyName(attrs[i], code) && attrs[i].name == r.value
    ensures r.None? <==> forall i :: 0 <= i < |attrs| ==> !IsKeyName(attrs[i], code)
  {
    if attrs == [] then None
    else if IsKeyName(attrs[0], code) then Some(attrs[0].name)
    else
      var r := FindKeyName(attrs[1..], code);
      assert forall i :: 0 < i < |attrs| ==> attrs[i] == attrs[1..][i - 1];
      r
  }

  /** Because `dir()` is sorted, the name found is the least, in string order, of the key and button names
      with that value. */
  lemma {:induction false} FindKeyNameIsLeast(attrs: seq<Attribute>, code: int)
    requires SortedByName(attrs)
    ensures FindKeyName(attrs, code).Some? ==>
      forall i :: 0 <= i < |attrs| && IsKeyName(attrs[i], code) ==>
        attrs[i].name == FindKeyName(attrs, code).value || Before(FindKeyName(attrs, code).value, attrs[i].name)
  {
    if attrs != [] && !IsKeyName(attrs[0], code) {
      var tail := attrs[1..];
      assert SortedByName(tail) by {
        forall i, j | 0 <= i < j < |tail| ensures Before(tail[i].name, tail[j].name) {
          assert tail[i] == attrs[i + 1] && tail[j] == attrs[j + 1];
        }
      }
      FindKeyNameIsLeast(tail, code);
      forall i | 0 < i < |attrs| ensures attrs[i] == tail[i - 1] {
      }
    }
  }

  lemma MouseAfterLeft()
    ensures !Before("BTN_MOUSE", "BTN_LEFT")
  {
    assert "BTN_MOUSE"[1..] == "TN_MOUSE" && "BTN_LEFT"[1..] == "TN_LEFT";
    assert "TN_MOUSE"[1..] == "N_MOUSE" && "TN_LEFT"[1..] == "N_LEFT";
    assert "N_MOUSE"[1..] == "_MOUSE" && "N_LEFT"[1..] == "_LEFT";
    assert "_MOUSE"[1..] == "MOUSE" && "_LEFT"[1..] == "LEFT";
  }

  /** BTN_MOUSE is an alias of BTN_LEFT (0x110). A listing that is sorted and in which these are the only key
      or button names with that value yields BTN_LEFT, the lesser of the two. */
  lemma LeftButtonName(attrs: seq<Attribute>)
    requires SortedByName(attrs)
    requires Attribute("BTN_LEFT", Some(Ecodes.BTN_LEFT)) in attrs
    requires forall a | a in attrs && IsKeyName(a, Ecodes.BTN_LEFT) :: a.name == "BTN_LEFT" || a.name == "BTN_MOUSE"
    ensures Ecodes.BTN_MOUSE == Ecodes.BTN_LEFT == 0x110
    ensures FindKeyName(attrs, Ecodes.BTN_LEFT) == Some("BTN_LEFT")
  {
    var k :| 0 <= k < |attrs| && attrs[k] == Attribute("BTN_LEFT", Some(Ecodes.BTN_LEFT));
    assert StartsWith("BTN_LEFT", "BTN_");
    assert IsKeyName(attrs[k], Ecodes.BTN_LEFT);
    FindKeyNameIsLeast(attrs, Ecodes.BTN_LEFT);
    var r := FindKeyName(attrs, Ecodes.BTN_LEFT).value;
    var i :| 0 <= i < |attrs| && IsKeyName(attrs[i], Ecodes.BTN_LEFT) && attrs[i].name == r;
    assert attrs[i] in attrs;
    assert r == "BTN_LEFT" || r == "BTN_MOUSE";
    assert r == "BTN_LEFT" || Before(r, "BTN_LEFT");
    MouseAfterLeft();
  }
}
