/**
 * The tables of libs/hid_codes.py: `ds_KEY_TO_HID` (key names to keyboard usage IDs), `ds_MOD_CODES` (modifier
 * names to bits of the modifier byte) and the reverse table `ds_HID_TO_KEY`. A key of `ds_KEY_TO_HID` is
 * identified by its position in the table as written; `Name` gives its string.
 */
module HidCodes {
  import opened Wrappers
  import opened Bytes

  const KEY_COUNT := 168
  /** A key of `ds_KEY_TO_HID`, by its position in the table. */
  type Key = k: int | 0 <= k < KEY_COUNT

  const KEY_NONE: Key := 0
  const KEY_A: Key := 2
  const KEY_Z: Key := 27
  const KEY_LEFTCTRL: Key := 160


  /** The name of each key of `ds_KEY_TO_HID`. */
  function Name(k: Key): string
  {
    if k < 88 then
      if k < 44 then
        if k < 22 then
          if k < 11 then
            Name0(k)
          else
            Name1(k)
        else
          if k < 33 then
            Name2(k)
          else
            Name3(k)
      else
        if k < 66 then
          if k < 55 then
            Name4(k)
          else
            Name5(k)
        else
          if k < 77 then
            Name6(k)
          else
            Name7(k)
    else
      if k < 132 then
        if k < 110 then
          if k < 99 then
            Name8(k)
          else
            Name9(k)
        else
          if k < 121 then
            Name10(k)
          else
            Name11(k)
      else
        if k < 154 then
          if k < 143 then
            Name12(k)
          else
            Name13(k)
        else
          if k < 165 then
            Name14(k)
          else
            Name15(k)
  }

  function Name0(k: int): string
  {
    if k == 0 then "KEY_NONE"
    else if k == 1 then "KEY_ERR_OVF"
    else if k == 2 then "KEY_A"
    else if k == 3 then "KEY_B"
    else if k == 4 then "KEY_C"
    else if k == 5 then "KEY_D"
    else if k == 6 then "KEY_E"
    else if k == 7 then "KEY_F"
    else if k == 8 then "KEY_G"
    else if k == 9 then "KEY_H"
    else "KEY_I"
  }

  function Name1(k: int): string
  {
    if k == 11 then "KEY_J"
    else if k == 12 then "KEY_K"
    else if k == 13 then "KEY_L"
    else if k == 14 then "KEY_M"
    else if k == 15 then "KEY_N"
    else if k == 16 then "KEY_O"
    else if k == 17 then "KEY_P"
    else if k == 18 then "KEY_Q"
    else if k == 19 then "KEY_R"
    else if k == 20 then "KEY_S"
    else "KEY_T"
  }

  function Name2(k: int): string
  {
    if k == 22 then "KEY_U"
    else if k == 23 then "KEY_V"
    else if k == 24 then "KEY_W"
    else if k == 25 then "KEY_X"
    else if k == 26 then "KEY_Y"
    else if k == 27 then "KEY_Z"
    else if k == 28 then "KEY_1"
    else if k == 29 then "KEY_2"
    else if k == 30 then "KEY_3"
    else if k == 31 then "KEY_4"
    else "KEY_5"
  }

  function Name3(k: int): string
  {
    if k == 33 then "KEY_6"
    else if k == 34 then "KEY_7"
    else if k == 35 then "KEY_8"
    else if k == 36 then "KEY_9"
    else if k == 37 then "KEY_0"
    else if k == 38 then "KEY_ENTER"
    else if k == 39 then "KEY_ESC"
    else if k == 40 then "KEY_BACKSPACE"
    else if k == 41 then "KEY_TAB"
    else if k == 42 then "KEY_SPACE"
    else "KEY_MINUS"
  }

  function Name4(k: int): string
  {
    if k == 44 then "KEY_EQUAL"
    else if k == 45 then "KEY_LEFTBRACE"
    else if k == 46 then "KEY_RIGHTBRACE"
    else if k == 47 then "KEY_BACKSLASH"
    else if k == 48 then "KEY_HASHTILDE"
    else if k == 49 then "KEY_SEMICOLON"
    else if k == 50 then "KEY_APOSTROPHE"
    else if k == 51 then "KEY_GRAVE"
    else if k == 52 then "KEY_COMMA"
    else if k == 53 then "KEY_DOT"
    else "KEY_SLASH"
  }

  function Name5(k: int): string
  {
    if k == 55 then "KEY_CAPSLOCK"
    else if k == 56 then "KEY_F1"
    else if k == 57 then "KEY_F2"
    else if k == 58 then "KEY_F3"
    else if k == 59 then "KEY_F4"
    else if k == 60 then "KEY_F5"
    else if k == 61 then "KEY_F6"
    else if k == 62 then "KEY_F7"
    else if k == 63 then "KEY_F8"
    else if k == 64 then "KEY_F9"
    else "KEY_F10"
  }

  function Name6(k: int): string
  {
    if k == 66 then "KEY_F11"
    else if k == 67 then "KEY_F12"
    else if k == 68 then "KEY_F13"
    else if k == 69 then "KEY_F14"
    else if k == 70 then "KEY_F15"
    else if k == 71 then "KEY_F16"
    else if k == 72 then "KEY_F17"
    else if k == 73 then "KEY_F18"
    else if k == 74 then "KEY_F19"
    else if k == 75 then "KEY_F20"
    else "KEY_F21"
  }

  function Name7(k: int): string
  {
    if k == 77 then "KEY_F22"
    else if k == 78 then "KEY_F23"
    else if k == 79 then "KEY_F24"
    else if k == 80 then "KEY_SYSRQ"
    else if k == 81 then "KEY_SCROLLLOCK"
    else if k == 82 then "KEY_PAUSE"
    else if k == 83 then "KEY_INSERT"
    else if k == 84 then "KEY_HOME"
    else if k == 85 then "KEY_PAGEUP"
    else if k == 86 then "KEY_DELETE"
    else "KEY_END"
  }

  function Name8(k: int): string
  {
    if k == 88 then "KEY_PAGEDOWN"
    else if k == 89 then "KEY_RIGHT"
    else if k == 90 then "KEY_LEFT"
    else if k == 91 then "KEY_DOWN"
    else if k == 92 then "KEY_UP"
    else if k == 93 then "KEY_NUMLOCK"
    else if k == 94 then "KEY_KPSLASH"
    else if k == 95 then "KEY_KPASTERISK"
    else if k == 96 then "KEY_KPMINUS"
    else if k == 97 then "KEY_KPPLUS"
    else "KEY_KPENTER"
  }

  function Name9(k: int): string
  {
    if k == 99 then "KEY_KP1"
    else if k == 100 then "KEY_KP2"
    else if k == 101 then "KEY_KP3"
    else if k == 102 then "KEY_KP4"
    else if k == 103 then "KEY_KP5"
    else if k == 104 then "KEY_KP6"
    else if k == 105 then "KEY_KP7"
    else if k == 106 then "KEY_KP8"
    else if k == 107 then "KEY_KP9"
    else if k == 108 then "KEY_KP0"
    else "KEY_KPDOT"
  }

  function Name10(k: int): string
  {
    if k == 110 then "KEY_102ND"
    else if k == 111 then "KEY_COMPOSE"
    else if k == 112 then "KEY_POWER"
    else if k == 113 then "KEY_KPEQUAL"
    else if k == 114 then "KEY_OPEN"
    else if k == 115 then "KEY_HELP"
    else if k == 116 then "KEY_PROPS"
    else if k == 117 then "KEY_FRONT"
    else if k == 118 then "KEY_STOP"
    else if k == 119 then "KEY_AGAIN"
    else "KEY_UNDO"
  }

  function Name11(k: int): string
  {
    if k == 121 then "KEY_CUT"
    else if k == 122 then "KEY_COPY"
    else if k == 123 then "KEY_PASTE"
    else if k == 124 then "KEY_FIND"
    else if k == 125 then "KEY_MUTE"
    else if k == 126 then "KEY_VOLUMEUP"
    else if k == 127 then "KEY_VOLUMEDOWN"
    else if k == 128 then "KEY_KPCOMMA"
    else if k == 129 then "KEY_RO"
    else if k == 130 then "KEY_KATAKANAHIRAGANA"
    else "KEY_YEN"
  }

  function Name12(k: int): string
  {
    if k == 132 then "KEY_HENKAN"
    else if k == 133 then "KEY_MUHENKAN"
    else if k == 134 then "KEY_KPJPCOMMA"
    else if k == 135 then "KEY_HANGEUL"
    else if k == 136 then "KEY_HANJA"
    else if k == 137 then "KEY_KATAKANA"
    else if k == 138 then "KEY_HIRAGANA"
    else if k == 139 then "KEY_ZENKAKUHANKAKU"
    else if k == 140 then "KEY_MEDIA_PLAYPAUSE"
    else if k == 141 then "KEY_MEDIA_STOPCD"
    else "KEY_MEDIA_PREVIOUSSONG"
  }

  function Name13(k: int): string
  {
    if k == 143 then "KEY_MEDIA_NEXTSONG"
    else if k == 144 then "KEY_MEDIA_EJECTCD"
    else if k == 145 then "KEY_MEDIA_VOLUMEUP"
    else if k == 146 then "KEY_MEDIA_VOLUMEDOWN"
    else if k == 147 then "KEY_MEDIA_MUTE"
    else if k == 148 then "KEY_MEDIA_WWW"
    else if k == 149 then "KEY_MEDIA_BACK"
    else if k == 150 then "KEY_MEDIA_FORWARD"
    else if k == 151 then "KEY_MEDIA_STOP"
    else if k == 152 then "KEY_MEDIA_FIND"
    else "KEY_MEDIA_SCROLLUP"
  }

  function Name14(k: int): string
  {
    if k == 154 then "KEY_MEDIA_SCROLLDOWN"
    else if k == 155 then "KEY_MEDIA_EDIT"
    else if k == 156 then "KEY_MEDIA_SLEEP"
    else if k == 157 then "KEY_MEDIA_COFFEE"
    else if k == 158 then "KEY_MEDIA_REFRESH"
    else if k == 159 then "KEY_MEDIA_CALC"
    else if k == 160 then "KEY_LEFTCTRL"
    else if k == 161 then "KEY_LEFTSHIFT"
    else if k == 162 then "KEY_LEFTALT"
    else if k == 163 then "KEY_LEFTMETA"
    else "KEY_RIGHTCTRL"
  }

  function Name15(k: int): string
  {
    if k == 165 then "KEY_RIGHTSHIFT"
    else if k == 166 then "KEY_RIGHTALT"
    else "KEY_RIGHTMETA"
  }

  /** `ds_KEY_TO_HID`: the usage ID stored for each key. */
  function KeyToHid(k: Key): byte
  {
    if k < 88 then
      if k < 44 then
        if k < 22 then
          if k < 11 then
            KeyToHid0(k)
          else
            KeyToHid1(k)
        else
          if k < 33 then
            KeyToHid2(k)
          else
            KeyToHid3(k)
      else
        if k < 66 then
          if k < 55 then
            KeyToHid4(k)
          else
            KeyToHid5(k)
        else
          if k < 77 then
            KeyToHid6(k)
          else
            KeyToHid7(k)
    else
      if k < 132 then
        if k < 110 then
          if k < 99 then
            KeyToHid8(k)
          else
            KeyToHid9(k)
        else
          if k < 121 then
            KeyToHid10(k)
          else
            KeyToHid11(k)
      else
        if k < 154 then
          if k < 143 then
            KeyToHid12(k)
          else
            KeyToHid13(k)
        else
          if k < 165 then
            KeyToHid14(k)
          else
            KeyToHid15(k)
  }

  function KeyToHid0(k: int): byte
  {
    if k == 0 then 0x00
    else if k == 1 then 0x01
    else if k == 2 then 0x04
    else if k == 3 then 0x05
    else if k == 4 then 0x06
    else if k == 5 then 0x07
    else if k == 6 then 0x08
    else if k == 7 then 0x09
    else if k == 8 then 0x0A
    else if k == 9 then 0x0B
    else 0x0C
  }

  function KeyToHid1(k: int): byte
  {
    if k == 11 then 0x0D
    else if k == 12 then 0x0E
    else if k == 13 then 0x0F
    else if k == 14 then 0x10
    else if k == 15 then 0x11
    else if k == 16 then 0x12
    else if k == 17 then 0x13
    else if k == 18 then 0x14
    else if k == 19 then 0x15
    else if k == 20 then 0x16
    else 0x17
  }

  function KeyToHid2(k: int): byte
  {
    if k == 22 then 0x18
    else if k == 23 then 0x19
    else if k == 24 then 0x1A
    else if k == 25 then 0x1B
    else if k == 26 then 0x1C
    else if k == 27 then 0x1D
    else if k == 28 then 0x1E
    else if k == 29 then 0x1F
    else if k == 30 then 0x20
    else if k == 31 then 0x21
    else 0x22
  }

  function KeyToHid3(k: int): byte
  {
    if k == 33 then 0x23
    else if k == 34 then 0x24
    else if k == 35 then 0x25
    else if k == 36 then 0x26
    else if k == 37 then 0x27
    else if k == 38 then 0x28
    else if k == 39 then 0x29
    else if k == 40 then 0x2A
    else if k == 41 then 0x2B
    else if k == 42 then 0x2C
    else 0x2D
  }

  function KeyToHid4(k: int): byte
  {
    if k == 44 then 0x2E
    else if k == 45 then 0x2F
    else if k == 46 then 0x30
    else if k == 47 then 0x31
    else if k == 48 then 0x32
    else if k == 49 then 0x33
    else if k == 50 then 0x34
    else if k == 51 then 0x35
    else if k == 52 then 0x36
    else if k == 53 then 0x37
    else 0x38
  }

  function KeyToHid5(k: int): byte
  {
    if k == 55 then 0x39
    else if k == 56 then 0x3A
    else if k == 57 then 0x3B
    else if k == 58 then 0x3C
    else if k == 59 then 0x3D
    else if k == 60 then 0x3E
    else if k == 61 then 0x3F
    else if k == 62 then 0x40
    else if k == 63 then 0x41
    else if k == 64 then 0x42
    else 0x43
  }

  function KeyToHid6(k: int): byte
  {
    if k == 66 then 0x44
    else if k == 67 then 0x45
    else if k == 68 then 0x68
    else if k == 69 then 0x69
    else if k == 70 then 0x6A
    else if k == 71 then 0x6B
    else if k == 72 then 0x6C
    else if k == 73 then 0x6D
    else if k == 74 then 0x6E
    else if k == 75 then 0x6F
    else 0x70
  }

  function KeyToHid7(k: int): byte
  {
    if k == 77 then 0x71
    else if k == 78 then 0x72
    else if k == 79 then 0x73
    else if k == 80 then 0x46
    else if k == 81 then 0x47
    else if k == 82 then 0x48
    else if k == 83 then 0x49
    else if k == 84 then 0x4A
    else if k == 85 then 0x4B
    else if k == 86 then 0x4C
    else 0x4D
  }

  function KeyToHid8(k: int): byte
  {
    if k == 88 then 0x4E
    else if k == 89 then 0x4F
    else if k == 90 then 0x50
    else if k == 91 then 0x51
    else if k == 92 then 0x52
    else if k == 93 then 0x53
    else if k == 94 then 0x54
    else if k == 95 then 0x55
    else if k == 96 then 0x56
    else if k == 97 then 0x57
    else 0x58
  }

  function KeyToHid9(k: int): byte
  {
    if k == 99 then 0x59
    else if k == 100 then 0x5A
    else if k == 101 then 0x5B
    else if k == 102 then 0x5C
    else if k == 103 then 0x5D
    else if k == 104 then 0x5E
    else if k == 105 then 0x5F
    else if k == 106 then 0x60
    else if k == 107 then 0x61
    else if k == 108 then 0x62
    else 0x63
  }

  function KeyToHid10(k: int): byte
  {
    if k == 110 then 0x64
    else if k == 111 then 0x65
    else if k == 112 then 0x66
    else if k == 113 then 0x67
    else if k == 114 then 0x74
    else if k == 115 then 0x75
    else if k == 116 then 0x76
    else if k == 117 then 0x77
    else if k == 118 then 0x78
    else if k == 119 then 0x79
    else 0x7A
  }

  function KeyToHid11(k: int): byte
  {
    if k == 121 then 0x7B
    else if k == 122 then 0x7C
    else if k == 123 then 0x7D
    else if k == 124 then 0x7E
    else if k == 125 then 0x7F
    else if k == 126 then 0x80
    else if k == 127 then 0x81
    else if k == 128 then 0x85
    else if k == 129 then 0x87
    else if k == 130 then 0x88
    else 0x89
  }

  function KeyToHid12(k: int): byte
  {
    if k == 132 then 0x8A
    else if k == 133 then 0x8B
    else if k == 134 then 0x8C
    else if k == 135 then 0x90
    else if k == 136 then 0x91
    else if k == 137 then 0x92
    else if k == 138 then 0x93
    else if k == 139 then 0x94
    else if k == 140 then 0xE8
    else if k == 141 then 0xE9
    else 0xEA
  }

  function KeyToHid13(k: int): byte
  {
    if k == 143 then 0xEB
    else if k == 144 then 0xEC
    else if k == 145 then 0xED
    else if k == 146 then 0xEE
    else if k == 147 then 0xEF
    else if k == 148 then 0xF0
    else if k == 149 then 0xF1
    else if k == 150 then 0xF2
    else if k == 151 then 0xF3
    else if k == 152 then 0xF4
    else 0xF5
  }

  function KeyToHid14(k: int): byte
  {
    if k == 154 then 0xF6
    else if k == 155 then 0xF7
    else if k == 156 then 0xF8
    else if k == 157 then 0xF9
    else if k == 158 then 0xFA
    else if k == 159 then 0xFB
    else if k == 160 then 0xE0
    else if k == 161 then 0xE1
    else if k == 162 then 0xE2
    else if k == 163 then 0xE3
    else 0xE4
  }

  function KeyToHid15(k: int): byte
  {
    if k == 165 then 0xE5
    else if k == 166 then 0xE6
    else 0xE7
  }

  /** A reference inverse of `KeyToHid`: the key stored under usage ID v, if any. The values are split into
      ranges so that each lookup only meets a few of them. */
  function HidToKey(v: int): Option<Key>
  {
    if v < 0x5A then
      if v < 0x2E then
        if v < 0x18 then
          if v < 0x0D then
            HidToKey0(v)
          else
            HidToKey1(v)
        else
          if v < 0x23 then
            HidToKey2(v)
          else
            HidToKey3(v)
      else
        if v < 0x44 then
          if v < 0x39 then
            HidToKey4(v)
          else
            HidToKey5(v)
        else
          if v < 0x4F then
            HidToKey6(v)
          else
            HidToKey7(v)
    else
      if v < 0x8A then
        if v < 0x70 then
          if v < 0x65 then
            HidToKey8(v)
          else
            HidToKey9(v)
        else
          if v < 0x7B then
            HidToKey10(v)
          else
            HidToKey11(v)
      else
        if v < 0xEE then
          if v < 0xE3 then
            HidToKey12(v)
          else
            HidToKey13(v)
        else
          if v < 0xF9 then
            HidToKey14(v)
          else
            HidToKey15(v)
  }

  function HidToKey0(v: int): Option<Key>
  {
    if v == 0x00 then Some(0)
    else if v == 0x01 then Some(1)
    else if v == 0x04 then Some(2)
    else if v == 0x05 then Some(3)
    else if v == 0x06 then Some(4)
    else if v == 0x07 then Some(5)
    else if v == 0x08 then Some(6)
    else if v == 0x09 then Some(7)
    else if v == 0x0A then Some(8)
    else if v == 0x0B then Some(9)
    else if v == 0x0C then Some(10)
    else None
  }

  function HidToKey1(v: int): Option<Key>
  {
    if v == 0x0D then Some(11)
    else if v == 0x0E then Some(12)
    else if v == 0x0F then Some(13)
    else if v == 0x10 then Some(14)
    else if v == 0x11 then Some(15)
    else if v == 0x12 then Some(16)
    else if v == 0x13 then Some(17)
    else if v == 0x14 then Some(18)
    else if v == 0x15 then Some(19)
    else if v == 0x16 then Some(20)
    else if v == 0x17 then Some(21)
    else None
  }

  function HidToKey2(v: int): Option<Key>
  {
    if v == 0x18 then Some(22)
    else if v == 0x19 then Some(23)
    else if v == 0x1A then Some(24)
    else if v == 0x1B then Some(25)
    else if v == 0x1C then Some(26)
    else if v == 0x1D then Some(27)
    else if v == 0x1E then Some(28)
    else if v == 0x1F then Some(29)
    else if v == 0x20 then Some(30)
    else if v == 0x21 then Some(31)
    else if v == 0x22 then Some(32)
    else None
  }

  function HidToKey3(v: int): Option<Key>
  {
    if v == 0x23 then Some(33)
    else if v == 0x24 then Some(34)
    else if v == 0x25 then Some(35)
    else if v == 0x26 then Some(36)
    else if v == 0x27 then Some(37)
    else if v == 0x28 then Some(38)
    else if v == 0x29 then Some(39)
    else if v == 0x2A then Some(40)
    else if v == 0x2B then Some(41)
    else if v == 0x2C then Some(42)
    else if v == 0x2D then Some(43)
    else None
  }

  function HidToKey4(v: int): Option<Key>
  {
    if v == 0x2E then Some(44)
    else if v == 0x2F then Some(45)
    else if v == 0x30 then Some(46)
    else if v == 0x31 then Some(47)
    else if v == 0x32 then Some(48)
    else if v == 0x33 then Some(49)
    else if v == 0x34 then Some(50)
    else if v == 0x35 then Some(51)
    else if v == 0x36 then Some(52)
    else if v == 0x37 then Some(53)
    else if v == 0x38 then Some(54)
    else None
  }

  function HidToKey5(v: int): Option<Key>
  {
    if v == 0x39 then Some(55)
    else if v == 0x3A then Some(56)
    else if v == 0x3B then Some(57)
    else if v == 0x3C then Some(58)
    else if v == 0x3D then Some(59)
    else if v == 0x3E then Some(60)
    else if v == 0x3F then Some(61)
    else if v == 0x40 then Some(62)
    else if v == 0x41 then Some(63)
    else if v == 0x42 then Some(64)
    else if v == 0x43 then Some(65)
    else None
  }

  function HidToKey6(v: int): Option<Key>
  {
    if v == 0x44 then Some(66)
    else if v == 0x45 then Some(67)
    else if v == 0x46 then Some(80)
    else if v == 0x47 then Some(81)
    else if v == 0x48 then Some(82)
    else if v == 0x49 then Some(83)
    else if v == 0x4A then Some(84)
    else if v == 0x4B then Some(85)
    else if v == 0x4C then Some(86)
    else if v == 0x4D then Some(87)
    else if v == 0x4E then Some(88)
    else None
  }

  function HidToKey7(v: int): Option<Key>
  {
    if v == 0x4F then Some(89)
    else if v == 0x50 then Some(90)
    else if v == 0x51 then Some(91)
    else if v == 0x52 then Some(92)
    else if v == 0x53 then Some(93)
    else if v == 0x54 then Some(94)
    else if v == 0x55 then Some(95)
    else if v == 0x56 then Some(96)
    else if v == 0x57 then Some(97)
    else if v == 0x58 then Some(98)
    else if v == 0x59 then Some(99)
    else None
  }

  function HidToKey8(v: int): Option<Key>
  {
    if v == 0x5A then Some(100)
    else if v == 0x5B then Some(101)
    else if v == 0x5C then Some(102)
    else if v == 0x5D then Some(103)
    else if v == 0x5E then Some(104)
    else if v == 0x5F then Some(105)
    else if v == 0x60 then Some(106)
    else if v == 0x61 then Some(107)
    else if v == 0x62 then Some(108)
    else if v == 0x63 then Some(109)
    else if v == 0x64 then Some(110)
    else None
  }

  function HidToKey9(v: int): Option<Key>
  {
    if v == 0x65 then Some(111)
    else if v == 0x66 then Some(112)
    else if v == 0x67 then Some(113)
    else if v == 0x68 then Some(68)
    else if v == 0x69 then Some(69)
    else if v == 0x6A then Some(70)
    else if v == 0x6B then Some(71)
    else if v == 0x6C then Some(72)
    else if v == 0x6D then Some(73)
    else if v == 0x6E then Some(74)
    else if v == 0x6F then Some(75)
    else None
  }

  function HidToKey10(v: int): Option<Key>
  {
    if v == 0x70 then Some(76)
    else if v == 0x71 then Some(77)
    else if v == 0x72 then Some(78)
    else if v == 0x73 then Some(79)
    else if v == 0x74 then Some(114)
    else if v == 0x75 then Some(115)
    else if v == 0x76 then Some(116)
    else if v == 0x77 then Some(117)
    else if v == 0x78 then Some(118)
    else if v == 0x79 then Some(119)
    else if v == 0x7A then Some(120)
    else None
  }

  function HidToKey11(v: int): Option<Key>
  {
    if v == 0x7B then Some(121)
    else if v == 0x7C then Some(122)
    else if v == 0x7D then Some(123)
    else if v == 0x7E then Some(124)
    else if v == 0x7F then Some(125)
    else if v == 0x80 then Some(126)
    else if v == 0x81 then Some(127)
    else if v == 0x85 then Some(128)
    else if v == 0x87 then Some(129)
    else if v == 0x88 then Some(130)
    else if v == 0x89 then Some(131)
    else None
  }

  function HidToKey12(v: int): Option<Key>
  {
    if v == 0x8A then Some(132)
    else if v == 0x8B then Some(133)
    else if v == 0x8C then Some(134)
    else if v == 0x90 then Some(135)
    else if v == 0x91 then Some(136)
    else if v == 0x92 then Some(137)
    else if v == 0x93 then Some(138)
    else if v == 0x94 then Some(139)
    else if v == 0xE0 then Some(160)
    else if v == 0xE1 then Some(161)
    else if v == 0xE2 then Some(162)
    else None
  }

  function HidToKey13(v: int): Option<Key>
  {
    if v == 0xE3 then Some(163)
    else if v == 0xE4 then Some(164)
    else if v == 0xE5 then Some(165)
    else if v == 0xE6 then Some(166)
    else if v == 0xE7 then Some(167)
    else if v == 0xE8 then Some(140)
    else if v == 0xE9 then Some(141)
    else if v == 0xEA then Some(142)
    else if v == 0xEB then Some(143)
    else if v == 0xEC then Some(144)
    else if v == 0xED then Some(145)
    else None
  }

  function HidToKey14(v: int): Option<Key>
  {
    if v == 0xEE then Some(146)
    else if v == 0xEF then Some(147)
    else if v == 0xF0 then Some(148)
    else if v == 0xF1 then Some(149)
    else if v == 0xF2 then Some(150)
    else if v == 0xF3 then Some(151)
    else if v == 0xF4 then Some(152)
    else if v == 0xF5 then Some(153)
    else if v == 0xF6 then Some(154)
    else if v == 0xF7 then Some(155)
    else if v == 0xF8 then Some(156)
    else None
  }

  function HidToKey15(v: int): Option<Key>
  {
    if v == 0xF9 then Some(157)
    else if v == 0xFA then Some(158)
    else if v == 0xFB then Some(159)
    else None
  }

  /** No two keys of `ds_KEY_TO_HID` share a usage ID: the reference inverse gives every key back. The keys
      are taken a range at a time. */
  lemma HidToKeyInverse(k: Key)
    ensures HidToKey(KeyToHid(k)) == Some(k)
  {
    if k < 11 {
      HidToKeyInverse0(k);
    } else if k < 22 {
      HidToKeyInverse1(k);
    } else if k < 33 {
      HidToKeyInverse2(k);
    } else if k < 44 {
      HidToKeyInverse3(k);
    } else if k < 55 {
      HidToKeyInverse4(k);
    } else if k < 66 {
      HidToKeyInverse5(k);
    } else if k < 77 {
      HidToKeyInverse6(k);
    } else if k < 88 {
      HidToKeyInverse7(k);
    } else if k < 99 {
      HidToKeyInverse8(k);
    } else if k < 110 {
      HidToKeyInverse9(k);
    } else if k < 121 {
      HidToKeyInverse10(k);
    } else if k < 132 {
      HidToKeyInverse11(k);
    } else if k < 143 {
      HidToKeyInverse12(k);
    } else if k < 154 {
      HidToKeyInverse13(k);
    } else if k < 165 {
      HidToKeyInverse14(k);
    } else {
      HidToKeyInverse15(k);
    }
  }

  lemma HidToKeyInverse0(k: Key)
    requires 0 <= k < 11
    ensures HidToKey(KeyToHid(k)) == Some(k)
  {
  }

  lemma HidToKeyInverse1(k: Key)
    requires 11 <= k < 22
    ensures HidToKey(KeyToHid(k)) == Some(k)
  {
  }

  lemma HidToKeyInverse2(k: Key)
    requires 22 <= k < 33
    ensures HidToKey(KeyToHid(k)) == Some(k)
  {
  }

  lemma HidToKeyInverse3(k: Key)
    requires 33 <= k < 44
    ensures HidToKey(KeyToHid(k)) == Some(k)
  {
  }

  lemma HidToKeyInverse4(k: Key)
    requires 44 <= k < 55
    ensures HidToKey(KeyToHid(k)) == Some(k)
  {
  }

  lemma HidToKeyInverse5(k: Key)
    requires 55 <= k < 66
    ensures HidToKey(KeyToHid(k)) == Some(k)
  {
  }

  lemma HidToKeyInverse6(k: Key)
    requires 66 <= k < 77
    ensures HidToKey(KeyToHid(k)) == Some(k)
  {
  }

  lemma HidToKeyInverse7(k: Key)
    requires 77 <= k < 88
    ensures HidToKey(KeyToHid(k)) == Some(k)
  {
  }

  lemma HidToKeyInverse8(k: Key)
    requires 88 <= k < 99
    ensures HidToKey(KeyToHid(k)) == Some(k)
  {
  }

  lemma HidToKeyInverse9(k: Key)
    requires 99 <= k < 110
    ensures HidToKey(KeyToHid(k)) == Some(k)
  {
  }

  lemma HidToKeyInverse10(k: Key)
    requires 110 <= k < 121
    ensures HidToKey(KeyToHid(k)) == Some(k)
  {
  }

  lemma HidToKeyInverse11(k: Key)
    requires 121 <= k < 132
    ensures HidToKey(KeyToHid(k)) == Some(k)
  {
  }

  lemma HidToKeyInverse12(k: Key)
    requires 132 <= k < 143
    ensures HidToKey(KeyToHid(k)) == Some(k)
  {
  }

  lemma HidToKeyInverse13(k: Key)
    requires 143 <= k < 154
    ensures HidToKey(KeyToHid(k)) == Some(k)
  {
  }

  lemma HidToKeyInverse14(k: Key)
    requires 154 <= k < 165
    ensures HidToKey(KeyToHid(k)) == Some(k)
  {
  }

  lemma HidToKeyInverse15(k: Key)
    requires 165 <= k < 168
    ensures HidToKey(KeyToHid(k)) == Some(k)
  {
  }
  /** `KeyToHid` is one to one. */
  lemma KeyToHidInjective(a: Key, b: Key)
    ensures KeyToHid(a) == KeyToHid(b) <==> a == b
  {
    HidToKeyInverse(a);
    HidToKeyInverse(b);
  }

  /** "No key" is usage 0, and the letters A to Z take the 26 consecutive usages from 0x04. */
  lemma LetterCodes()
    ensures KeyToHid(KEY_NONE) == 0
    ensures forall k: Key :: KEY_A <= k <= KEY_Z ==> KeyToHid(k) == 0x04 + (k - KEY_A)
  {
  }

  lemma LetterNames()
    ensures Name(KEY_NONE) == "KEY_NONE"
    ensures Name(KEY_A) == "KEY_A"
    ensures Name(KEY_Z) == "KEY_Z"
  {
  }

  // ---------------------------------------------------------------------------------------------------
  // Modifiers.

  /** The names of `ds_MOD_CODES` in the order they are written. */
  const MOD_NAMES: seq<string> := [
    "KEY_LEFTCTRL", "KEY_LEFTSHIFT", "KEY_LEFTALT", "KEY_LEFTMETA",
    "KEY_RIGHTCTRL", "KEY_RIGHTSHIFT", "KEY_RIGHTALT", "KEY_RIGHTMETA"
  ]

  /** The values of `ds_MOD_CODES`: the bit of the modifier byte for each of `MOD_NAMES`. */
  const MOD_BITS: seq<byte> := [0x01, 0x02, 0x04, 0x08, 0x10, 0x20, 0x40, 0x80]

  /** A position in `ds_MOD_CODES`. */
  type Modifier = j: int | 0 <= j < 8

  /** The bit of each modifier is a single bit, the j-th. */
  lemma ModBitIsPow2(j: Modifier)
    ensures MOD_BITS[j] == Pow2(j)
  {
    assert Pow2(0) == 1 && Pow2(1) == 2 && Pow2(2) == 4 && Pow2(3) == 8;
    assert Pow2(4) == 16 && Pow2(5) == 32 && Pow2(6) == 64 && Pow2(7) == 128;
  }

  /** The modifiers are the last eight keys of `ds_KEY_TO_HID`, under the same names and in the same order, with
      the usages 0xE0..0xE7; so a modifier's bit is `1 << (usage - 0xE0)`. */
  lemma ModifierUsages(j: Modifier)
    ensures Name(KEY_LEFTCTRL + j) == MOD_NAMES[j]
    ensures KeyToHid(KEY_LEFTCTRL + j) == 0xE0 + j
    ensures MOD_BITS[j] == Pow2(KeyToHid(KEY_LEFTCTRL + j) - 0xE0)
  {
    ModBitIsPow2(j);
  }

  /** No other key has a usage in 0xE0..0xE7. */
  lemma ModifierUsagesExact(k: Key)
    ensures 0xE0 <= KeyToHid(k) <= 0xE7 <==> KEY_LEFTCTRL <= k
  {
    if 0xE0 <= KeyToHid(k) <= 0xE7 {
      var j := KeyToHid(k) - 0xE0;
      ModifierUsages(j);
      KeyToHidInjective(k, KEY_LEFTCTRL + j);
    } else if KEY_LEFTCTRL <= k {
      ModifierUsages(k - KEY_LEFTCTRL);
    }
  }

  /** Distinct modifiers have bits with nothing in common. */
  lemma ModBitsDisjoint(a: Modifier, b: Modifier)
    requires a != b
    ensures BitAnd(MOD_BITS[a], MOD_BITS[b]) == 0
  {
    ModBitIsPow2(a);
    ModBitIsPow2(b);
    var m := BitAnd(MOD_BITS[a], MOD_BITS[b]);
    forall i | 0 <= i < 8 ensures Bit(m, i) == Bit(0, i) {
      BitAndBits(MOD_BITS[a], MOD_BITS[b], i);
      Pow2Bits(a, i);
      Pow2Bits(b, i);
      ZeroBits(0, i);
    }
    BitAndBelow(MOD_BITS[a], MOD_BITS[b]);
    assert Pow2(8) == 256;
    BitsDetermine(m, 0, 8);
  }

  // ---------------------------------------------------------------------------------------------------
  // Lookups by name.

  /** The first key at position i or later whose name is s. */
  function FindKeyFrom(s: string, i: nat): (r: Option<Key>)
    requires i <= KEY_COUNT
    ensures r.Some? ==> i <= r.value
    decreases KEY_COUNT - i
  {
    if i == KEY_COUNT then None
    else if Name(i) == s then Some(i)
    else FindKeyFrom(s, i + 1)
  }

  /** A key the search finds from i on has the name s, and no key between i and it does. */
  lemma {:induction false} FindKeyFromFound(s: string, i: nat)
    requires i <= KEY_COUNT && FindKeyFrom(s, i).Some?
    ensures Name(FindKeyFrom(s, i).value) == s
    ensures forall k: Key :: i <= k < FindKeyFrom(s, i).value ==> Name(k) != s
    decreases KEY_COUNT - i
  {
    if Name(i) != s {
      FindKeyFromFound(s, i + 1);
    }
  }

  /** The search from i fails exactly when no key from i on has the name s. */
  lemma {:induction false} FindKeyFromNone(s: string, i: nat)
    requires i <= KEY_COUNT
    ensures FindKeyFrom(s, i).None? <==> forall k: Key :: i <= k ==> Name(k) != s
    decreases KEY_COUNT - i
  {
    if i < KEY_COUNT {
      var k: Key := i;
      if Name(k) != s {
        FindKeyFromNone(s, i + 1);
        assert FindKeyFrom(s, i) == FindKeyFrom(s, i + 1);
        assert (forall j: Key :: i <= j ==> Name(j) != s) <==> (forall j: Key :: i + 1 <= j ==> Name(j) != s);
      } else {
        assert FindKeyFrom(s, i) == Some(k);
      }
    }
  }

  /** The key of `ds_KEY_TO_HID` whose name is s, if any: the first one, should two share a name. */
  function FindKey(s: string): (r: Option<Key>)
    ensures r.Some? <==> FindKeyFrom(s, 0).Some?
  {
    FindKeyFrom(s, 0)
  }

  /** `FindKey` gives a key named s, and fails exactly when no key is named s. */
  lemma FindKeyCorrect(s: string)
    ensures FindKey(s).Some? ==> Name(FindKey(s).value) == s
    ensures FindKey(s).None? <==> forall k: Key :: Name(k) != s
  {
    if FindKey(s).Some? {
      FindKeyFromFound(s, 0);
    }
    FindKeyFromNone(s, 0);
  }

  /** `ds_KEY_TO_HID[s]`: the usage of the key named s, KeyError when there is none. */
  function LookupHid(s: string): (r: Result<byte>)
    ensures r.Ok? <==> FindKey(s).Some?
    ensures r.Ok? ==> r.value == KeyToHid(FindKey(s).value)
    ensures r.Err? ==> r.error == KeyError(s)
  {
    match FindKey(s)
    case Some(k) => Ok(KeyToHid(k))
    case None => Err(KeyError(s))
  }

  /** The lookup succeeds exactly for the names of `ds_KEY_TO_HID` and gives the usage stored under the name. */
  lemma LookupHidCorrect(s: string)
    ensures LookupHid(s).Ok? <==> exists k: Key :: Name(k) == s
    ensures LookupHid(s).Ok? ==> exists k: Key :: Name(k) == s && LookupHid(s).value == KeyToHid(k)
  {
    FindKeyCorrect(s);
  }

  /** Distinct names of `ds_KEY_TO_HID` have distinct usages. */
  lemma LookupHidInjective(a: string, b: string)
    requires LookupHid(a).Ok? && LookupHid(b).Ok? && LookupHid(a).value == LookupHid(b).value
    ensures a == b
  {
    FindKeyCorrect(a);
    FindKeyCorrect(b);
    KeyToHidInjective(FindKey(a).value, FindKey(b).value);
  }

  /** The first modifier at position j or later whose name is s. */
  function FindModifierFrom(s: string, j: nat): (r: Option<Modifier>)
    requires j <= 8
    ensures r.Some? ==> j <= r.value && MOD_NAMES[r.value] == s
    ensures r.None? <==> forall m: Modifier :: j <= m ==> MOD_NAMES[m] != s
    decreases 8 - j
  {
    if j == 8 then None
    else if MOD_NAMES[j] == s then Some(j)
    else FindModifierFrom(s, j + 1)
  }

  /** The modifier of `ds_MOD_CODES` whose name is s, if any. */
  function FindModifier(s: string): (r: Option<Modifier>)
    ensures r.Some? ==> MOD_NAMES[r.value] == s
    ensures r.None? <==> forall m: Modifier :: MOD_NAMES[m] != s
  {
    FindModifierFrom(s, 0)
  }

  // ---------------------------------------------------------------------------------------------------
  // The reverse table.

  /** The table the `ds_HID_TO_KEY` loop leaves after visiting keys in the given order: each visit stores the
      key's name under its usage. */
  function Inverse(order: seq<Key>): map<byte, string>
    decreases |order|
  {
    if order == [] then map[]
    else Inverse(order[..|order| - 1])[KeyToHid(order[|order| - 1]) := Name(order[|order| - 1])]
  }

  /** Because the usages are distinct, the reverse table is an exact inverse whatever the visiting order:
      its keys are the usages of the visited keys, and each maps back to its key's name. */
  lemma {:induction false} InverseExact(order: seq<Key>)
    ensures forall k :: k in order ==> KeyToHid(k) in Inverse(order) && Inverse(order)[KeyToHid(k)] == Name(k)
    ensures forall v :: v in Inverse(order) ==> exists k :: k in order && KeyToHid(k) == v
    decreases |order|
  {
    if order != [] {
      var front := order[..|order| - 1];
      var last := order[|order| - 1];
      InverseExact(front);
      assert order == front + [last];
      forall k | k in order ensures KeyToHid(k) in Inverse(order) && Inverse(order)[KeyToHid(k)] == Name(k) {
        KeyToHidInjective(k, last);
      }
      forall v | v in Inverse(order) ensures exists k :: k in order && KeyToHid(k) == v {
        if v != KeyToHid(last) {
          var k: Key :| k in front && KeyToHid(k) == v;
          assert k in order;
        } else {
          assert last in order;
        }
      }
    }
  }

  /** The module-level loop that fills `ds_HID_TO_KEY` from `ds_KEY_TO_HID.iteritems()`. Python 2 does not fix
      that order, so it is a parameter. */
  method BuildHidToKey(order: seq<Key>) returns (table: map<byte, string>)
    ensures table == Inverse(order)
  {
    table := map[];
    for i := 0 to |order|
      invariant table == Inverse(order[..i])
    {
      assert order[..i + 1][..i] == order[..i];
      table := table[KeyToHid(order[i]) := Name(order[i])];
    }
    assert order[..|order|] == order;
  }

  /** `ds_HID_TO_KEY[ds_KEY_TO_HID[k]] == k` for every key, in any visiting order of the entries. */
  lemma HidToKeyRoundTrip(order: seq<Key>, k: Key)
    requires k in order
    ensures KeyToHid(k) in Inverse(order) && Inverse(order)[KeyToHid(k)] == Name(k)
  {
    InverseExact(order);
  }
}
