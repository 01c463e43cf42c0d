/**
 * lib/evdev_converter.py: the table `_EVDEV_TO_HID_MAPPING` from Linux evdev key codes to HID usage IDs of the
 * Keyboard/Keypad page, and its lookup `to_hid_key`.
 */
module EvdevConverter {
  import opened Wrappers
  import Keycode
  import UsbHidMouse
  import Ecodes

  /** `to_hid_key(code)`, that is `_EVDEV_TO_HID_MAPPING.get(code)`: the HID usage ID of an evdev key code, or
      None when the table has no entry for it. No key appears twice in the table, so the order of the entries
      does not matter; they are grouped by code range (each comment gives the line of the entry) so that
      a lookup only walks one group. */
  function ToHidKey(code: int): Option<int>
  {
    if code < 80 then
      if code < 32 then
        if code < 16 then
          ToHidKeyPart0(code)
        else
          ToHidKeyPart1(code)
      else
        if code < 48 then
          ToHidKeyPart2(code)
        else
          if code < 64 then
            ToHidKeyPart3(code)
          else
            ToHidKeyPart4(code)
    else
      if code < 136 then
        if code < 99 then
          ToHidKeyPart5(code)
        else
          if code < 119 then
            ToHidKeyPart6(code)
          else
            ToHidKeyPart7(code)
      else
        if code < 177 then
          ToHidKeyPart8(code)
        else
          if code < 274 then
            ToHidKeyPart9(code)
          else
            ToHidKeyPart10(code)
  }

  function ToHidKeyPart0(code: int): Option<int>
  {
    if code == Ecodes.KEY_RESERVED then Some(0x00)  // line 317
    else if code == Ecodes.KEY_ESC then Some(Keycode.ESCAPE)  // line 355
    else if code == Ecodes.KEY_1 then Some(Keycode.ONE)  // line 344
    else if code == Ecodes.KEY_2 then Some(Keycode.TWO)  // line 345
    else if code == Ecodes.KEY_3 then Some(Keycode.THREE)  // line 346
    else if code == Ecodes.KEY_4 then Some(Keycode.FOUR)  // line 347
    else if code == Ecodes.KEY_5 then Some(Keycode.FIVE)  // line 348
    else if code == Ecodes.KEY_6 then Some(Keycode.SIX)  // line 349
    else if code == Ecodes.KEY_7 then Some(Keycode.SEVEN)  // line 350
    else if code == Ecodes.KEY_8 then Some(Keycode.EIGHT)  // line 351
    else if code == Ecodes.KEY_9 then Some(Keycode.NINE)  // line 352
    else if code == Ecodes.KEY_0 then Some(Keycode.ZERO)  // line 353
    else if code == Ecodes.KEY_MINUS then Some(Keycode.MINUS)  // line 359
    else if code == Ecodes.KEY_EQUAL then Some(Keycode.EQUALS)  // line 360
    else if code == Ecodes.KEY_BACKSPACE then Some(Keycode.BACKSPACE)  // line 356
    else if code == Ecodes.KEY_TAB then Some(Keycode.TAB)  // line 357
    else None
  }

  function ToHidKeyPart1(code: int): Option<int>
  {
    if code == Ecodes.KEY_Q then Some(Keycode.Q)  // line 334
    else if code == Ecodes.KEY_W then Some(Keycode.W)  // line 340
    else if code == Ecodes.KEY_E then Some(Keycode.E)  // line 322
    else if code == Ecodes.KEY_R then Some(Keycode.R)  // line 335
    else if code == Ecodes.KEY_T then Some(Keycode.T)  // line 337
    else if code == Ecodes.KEY_Y then Some(Keycode.Y)  // line 342
    else if code == Ecodes.KEY_U then Some(Keycode.U)  // line 338
    else if code == Ecodes.KEY_I then Some(Keycode.I)  // line 326
    else if code == Ecodes.KEY_O then Some(Keycode.O)  // line 332
    else if code == Ecodes.KEY_P then Some(Keycode.P)  // line 333
    else if code == Ecodes.KEY_LEFTBRACE then Some(Keycode.LEFT_BRACKET)  // line 361
    else if code == Ecodes.KEY_RIGHTBRACE then Some(Keycode.RIGHT_BRACKET)  // line 362
    else if code == Ecodes.KEY_ENTER then Some(Keycode.ENTER)  // line 354
    else if code == Ecodes.KEY_LEFTCTRL then Some(Keycode.LEFT_CONTROL)  // line 449
    else if code == Ecodes.KEY_A then Some(Keycode.A)  // line 318
    else if code == Ecodes.KEY_S then Some(Keycode.S)  // line 336
    else None
  }

  function ToHidKeyPart2(code: int): Option<int>
  {
    if code == Ecodes.KEY_D then Some(Keycode.D)  // line 321
    else if code == Ecodes.KEY_F then Some(Keycode.F)  // line 323
    else if code == Ecodes.KEY_G then Some(Keycode.G)  // line 324
    else if code == Ecodes.KEY_H then Some(Keycode.H)  // line 325
    else if code == Ecodes.KEY_J then Some(Keycode.J)  // line 327
    else if code == Ecodes.KEY_K then Some(Keycode.K)  // line 328
    else if code == Ecodes.KEY_L then Some(Keycode.L)  // line 329
    else if code == Ecodes.KEY_SEMICOLON then Some(Keycode.SEMICOLON)  // line 364
    else if code == Ecodes.KEY_APOSTROPHE then Some(Keycode.QUOTE)  // line 365
    else if code == Ecodes.KEY_GRAVE then Some(Keycode.GRAVE_ACCENT)  // line 366
    else if code == Ecodes.KEY_LEFTSHIFT then Some(Keycode.LEFT_SHIFT)  // line 450
    else if code == Ecodes.KEY_BACKSLASH then Some(Keycode.POUND)  // line 363
    else if code == Ecodes.KEY_Z then Some(Keycode.Z)  // line 343
    else if code == Ecodes.KEY_X then Some(Keycode.X)  // line 341
    else if code == Ecodes.KEY_C then Some(Keycode.C)  // line 320
    else if code == Ecodes.KEY_V then Some(Keycode.V)  // line 339
    else None
  }

  function ToHidKeyPart3(code: int): Option<int>
  {
    if code == Ecodes.KEY_B then Some(Keycode.B)  // line 319
    else if code == Ecodes.KEY_N then Some(Keycode.N)  // line 331
    else if code == Ecodes.KEY_M then Some(Keycode.M)  // line 330
    else if code == Ecodes.KEY_COMMA then Some(Keycode.COMMA)  // line 367
    else if code == Ecodes.KEY_DOT then Some(Keycode.PERIOD)  // line 368
    else if code == Ecodes.KEY_SLASH then Some(Keycode.FORWARD_SLASH)  // line 369
    else if code == Ecodes.KEY_RIGHTSHIFT then Some(Keycode.RIGHT_SHIFT)  // line 454
    else if code == Ecodes.KEY_KPASTERISK then Some(Keycode.KEYPAD_ASTERISK)  // line 398
    else if code == Ecodes.KEY_LEFTALT then Some(Keycode.LEFT_ALT)  // line 451
    else if code == Ecodes.KEY_SPACE then Some(Keycode.SPACEBAR)  // line 358
    else if code == Ecodes.KEY_CAPSLOCK then Some(Keycode.CAPS_LOCK)  // line 370
    else if code == Ecodes.KEY_F1 then Some(Keycode.F1)  // line 371
    else if code == Ecodes.KEY_F2 then Some(Keycode.F2)  // line 372
    else if code == Ecodes.KEY_F3 then Some(Keycode.F3)  // line 373
    else if code == Ecodes.KEY_F4 then Some(Keycode.F4)  // line 374
    else if code == Ecodes.KEY_F5 then Some(Keycode.F5)  // line 375
    else None
  }

  function ToHidKeyPart4(code: int): Option<int>
  {
    if code == Ecodes.KEY_F6 then Some(Keycode.F6)  // line 376
    else if code == Ecodes.KEY_F7 then Some(Keycode.F7)  // line 377
    else if code == Ecodes.KEY_F8 then Some(Keycode.F8)  // line 378
    else if code == Ecodes.KEY_F9 then Some(Keycode.F9)  // line 379
    else if code == Ecodes.KEY_F10 then Some(Keycode.F10)  // line 380
    else if code == Ecodes.KEY_NUMLOCK then Some(Keycode.KEYPAD_NUMLOCK)  // line 396
    else if code == Ecodes.KEY_SCROLLLOCK then Some(Keycode.SCROLL_LOCK)  // line 384
    else if code == Ecodes.KEY_KP7 then Some(Keycode.KEYPAD_SEVEN)  // line 408
    else if code == Ecodes.KEY_KP8 then Some(Keycode.KEYPAD_EIGHT)  // line 409
    else if code == Ecodes.KEY_KP9 then Some(Keycode.KEYPAD_NINE)  // line 410
    else if code == Ecodes.KEY_KPMINUS then Some(Keycode.KEYPAD_MINUS)  // line 399
    else if code == Ecodes.KEY_KP4 then Some(Keycode.KEYPAD_FOUR)  // line 405
    else if code == Ecodes.KEY_KP5 then Some(Keycode.KEYPAD_FIVE)  // line 406
    else if code == Ecodes.KEY_KP6 then Some(Keycode.KEYPAD_SIX)  // line 407
    else if code == Ecodes.KEY_KPPLUS then Some(Keycode.KEYPAD_PLUS)  // line 400
    else if code == Ecodes.KEY_KP1 then Some(Keycode.KEYPAD_ONE)  // line 402
    else None
  }

  function ToHidKeyPart5(code: int): Option<int>
  {
    if code == Ecodes.KEY_KP2 then Some(Keycode.KEYPAD_TWO)  // line 403
    else if code == Ecodes.KEY_KP3 then Some(Keycode.KEYPAD_THREE)  // line 404
    else if code == Ecodes.KEY_KP0 then Some(Keycode.KEYPAD_ZERO)  // line 411
    else if code == Ecodes.KEY_KPDOT then Some(Keycode.KEYPAD_PERIOD)  // line 412
    else if code == Ecodes.KEY_102ND then Some(Keycode.KEYPAD_BACKSLASH)  // line 413
    else if code == Ecodes.KEY_F11 then Some(Keycode.F11)  // line 381
    else if code == Ecodes.KEY_F12 then Some(Keycode.F12)  // line 382
    else if code == Ecodes.KEY_RO then Some(0x87)  // line 439
    else if code == Ecodes.KEY_KATAKANA then Some(0x93)  // line 447
    else if code == Ecodes.KEY_HIRAGANA then Some(0x92)  // line 446
    else if code == Ecodes.KEY_HENKAN then Some(0x8A)  // line 442
    else if code == Ecodes.KEY_KATAKANAHIRAGANA then Some(0x88)  // line 440
    else if code == Ecodes.KEY_MUHENKAN then Some(0x94)  // line 448
    else if code == Ecodes.KEY_KPENTER then Some(Keycode.KEYPAD_ENTER)  // line 401
    else if code == Ecodes.KEY_RIGHTCTRL then Some(Keycode.RIGHT_CONTROL)  // line 453
    else if code == Ecodes.KEY_KPSLASH then Some(Keycode.KEYPAD_FORWARD_SLASH)  // line 397
    else None
  }

  function ToHidKeyPart6(code: int): Option<int>
  {
    if code == Ecodes.KEY_SYSRQ then Some(Keycode.PRINT_SCREEN)  // line 383
    else if code == Ecodes.KEY_RIGHTALT then Some(Keycode.RIGHT_ALT)  // line 455
    else if code == Ecodes.KEY_HOME then Some(Keycode.HOME)  // line 387
    else if code == Ecodes.KEY_UP then Some(Keycode.UP_ARROW)  // line 395
    else if code == Ecodes.KEY_PAGEUP then Some(Keycode.PAGE_UP)  // line 388
    else if code == Ecodes.KEY_LEFT then Some(Keycode.LEFT_ARROW)  // line 393
    else if code == Ecodes.KEY_RIGHT then Some(Keycode.RIGHT_ARROW)  // line 392
    else if code == Ecodes.KEY_END then Some(Keycode.END)  // line 390
    else if code == Ecodes.KEY_DOWN then Some(Keycode.DOWN_ARROW)  // line 394
    else if code == Ecodes.KEY_PAGEDOWN then Some(Keycode.PAGE_DOWN)  // line 391
    else if code == Ecodes.KEY_INSERT then Some(Keycode.INSERT)  // line 386
    else if code == Ecodes.KEY_DELETE then Some(Keycode.DELETE)  // line 389
    else if code == Ecodes.KEY_VOLUMEDOWN then Some(0xEE)  // line 463
    else if code == Ecodes.KEY_VOLUMEUP then Some(0xED)  // line 462
    else if code == Ecodes.KEY_POWER then Some(Keycode.POWER)  // line 415
    else if code == Ecodes.KEY_KPEQUAL then Some(Keycode.KEYPAD_EQUALS)  // line 416
    else None
  }

  function ToHidKeyPart7(code: int): Option<int>
  {
    if code == Ecodes.KEY_PAUSE then Some(Keycode.PAUSE)  // line 385
    else if code == Ecodes.KEY_SCALE then Some(0x91)  // line 445
    else if code == Ecodes.KEY_KPCOMMA then Some(0x8C)  // line 444
    else if code == Ecodes.KEY_HANJA then Some(0x8B)  // line 443
    else if code == Ecodes.KEY_YEN then Some(0x89)  // line 441
    else if code == Ecodes.KEY_LEFTMETA then Some(Keycode.LEFT_GUI)  // line 452
    else if code == Ecodes.KEY_RIGHTMETA then Some(Keycode.RIGHT_GUI)  // line 456
    else if code == Ecodes.KEY_COMPOSE then Some(Keycode.APPLICATION)  // line 414
    else if code == Ecodes.KEY_STOP then Some(0xF3)  // line 467
    else if code == Ecodes.KEY_AGAIN then Some(0x85)  // line 438
    else if code == Ecodes.KEY_PROPS then Some(0x76)  // line 431
    else if code == Ecodes.KEY_UNDO then Some(0x7A)  // line 434
    else if code == Ecodes.KEY_FRONT then Some(0x77)  // line 432
    else if code == Ecodes.KEY_COPY then Some(0x7C)  // line 436
    else if code == Ecodes.KEY_OPEN then Some(0x74)  // line 429
    else if code == Ecodes.KEY_PASTE then Some(0x7D)  // line 437
    else None
  }

  function ToHidKeyPart8(code: int): Option<int>
  {
    if code == Ecodes.KEY_FIND then Some(0xF4)  // line 468
    else if code == Ecodes.KEY_CUT then Some(0x7B)  // line 435
    else if code == Ecodes.KEY_HELP then Some(0x75)  // line 430
    else if code == Ecodes.KEY_MENU then Some(0x79)  // line 433
    else if code == Ecodes.KEY_CALC then Some(0xFB)  // line 474
    else if code == Ecodes.KEY_SLEEP then Some(0xF8)  // line 472
    else if code == Ecodes.KEY_WWW then Some(0xF0)  // line 464
    else if code == Ecodes.KEY_MAIL then Some(0xF1)  // line 465
    else if code == Ecodes.KEY_FORWARD then Some(0xF2)  // line 466
    else if code == Ecodes.KEY_EJECTCD then Some(0xEC)  // line 461
    else if code == Ecodes.KEY_NEXTSONG then Some(0xEB)  // line 460
    else if code == Ecodes.KEY_PLAYPAUSE then Some(0xE8)  // line 457
    else if code == Ecodes.KEY_PREVIOUSSONG then Some(0xEA)  // line 459
    else if code == Ecodes.KEY_STOPCD then Some(0xE9)  // line 458
    else if code == Ecodes.KEY_REFRESH then Some(0xFA)  // line 473
    else if code == Ecodes.KEY_EDIT then Some(0xF7)  // line 471
    else None
  }

  function ToHidKeyPart9(code: int): Option<int>
  {
    if code == Ecodes.KEY_SCROLLUP then Some(0xF5)  // line 469
    else if code == Ecodes.KEY_SCROLLDOWN then Some(0xF6)  // line 470
    else if code == Ecodes.KEY_F13 then Some(Keycode.F13)  // line 417
    else if code == Ecodes.KEY_F14 then Some(Keycode.F14)  // line 418
    else if code == Ecodes.KEY_F15 then Some(Keycode.F15)  // line 419
    else if code == Ecodes.KEY_F16 then Some(Keycode.F16)  // line 420
    else if code == Ecodes.KEY_F17 then Some(Keycode.F17)  // line 421
    else if code == Ecodes.KEY_F18 then Some(Keycode.F18)  // line 422
    else if code == Ecodes.KEY_F19 then Some(Keycode.F19)  // line 423
    else if code == Ecodes.KEY_F20 then Some(Keycode.F20)  // line 424
    else if code == Ecodes.KEY_F21 then Some(Keycode.F21)  // line 425
    else if code == Ecodes.KEY_F22 then Some(Keycode.F22)  // line 426
    else if code == Ecodes.KEY_F23 then Some(Keycode.F23)  // line 427
    else if code == Ecodes.KEY_F24 then Some(Keycode.F24)  // line 428
    else if code == Ecodes.BTN_LEFT then Some(UsbHidMouse.LEFT_BUTTON)  // line 475
    else if code == Ecodes.BTN_RIGHT then Some(UsbHidMouse.RIGHT_BUTTON)  // line 476
    else None
  }

  function ToHidKeyPart10(code: int): Option<int>
  {
    if code == Ecodes.BTN_MIDDLE then Some(UsbHidMouse.MIDDLE_BUTTON)  // line 477
    else None
  }

  /** The evdev codes of the eight Ctrl/Shift/Alt/Meta keys. */
  predicate IsModifierCode(code: int)
  {
    code == Ecodes.KEY_LEFTCTRL || code == Ecodes.KEY_LEFTSHIFT || code == Ecodes.KEY_LEFTALT
    || code == Ecodes.KEY_LEFTMETA || code == Ecodes.KEY_RIGHTCTRL || code == Ecodes.KEY_RIGHTSHIFT
    || code == Ecodes.KEY_RIGHTALT || code == Ecodes.KEY_RIGHTMETA
  }

  /** What every entry of the table satisfies: the code lies between KEY_RESERVED and BTN_MIDDLE, the usage ID
      fits a report slot byte, and it is a modifier usage exactly for the eight modifier codes. */
  predicate P(code: int, usage: int)
  {
    && Ecodes.KEY_RESERVED <= code <= Ecodes.BTN_MIDDLE
    && 0 <= usage <= 0xFB
    && (Keycode.IsModifier(usage) <==> IsModifierCode(code))
  }

  lemma ToHidKeyPart0Facts()
    ensures forall code :: ToHidKeyPart0(code).Some? ==> P(code, ToHidKeyPart0(code).value)
  {
  }

  lemma ToHidKeyPart1Facts()
    ensures forall code :: ToHidKeyPart1(code).Some? ==> P(code, ToHidKeyPart1(code).value)
  {
  }

  lemma ToHidKeyPart2Facts()
    ensures forall code :: ToHidKeyPart2(code).Some? ==> P(code, ToHidKeyPart2(code).value)
  {
  }

  lemma ToHidKeyPart3Facts()
    ensures forall code :: ToHidKeyPart3(code).Some? ==> P(code, ToHidKeyPart3(code).value)
  {
  }

  lemma ToHidKeyPart4Facts()
    ensures forall code :: ToHidKeyPart4(code).Some? ==> P(code, ToHidKeyPart4(code).value)
  {
  }

  lemma ToHidKeyPart5Facts()
    ensures forall code :: ToHidKeyPart5(code).Some? ==> P(code, ToHidKeyPart5(code).value)
  {
  }

  lemma ToHidKeyPart6Facts()
    ensures forall code :: ToHidKeyPart6(code).Some? ==> P(code, ToHidKeyPart6(code).value)
  {
  }

  lemma ToHidKeyPart7Facts()
    ensures forall code :: ToHidKeyPart7(code).Some? ==> P(code, ToHidKeyPart7(code).value)
  {
  }

  lemma ToHidKeyPart8Facts()
    ensures forall code :: ToHidKeyPart8(code).Some? ==> P(code, ToHidKeyPart8(code).value)
  {
  }

  lemma ToHidKeyPart9Facts()
    ensures forall code :: ToHidKeyPart9(code).Some? ==> P(code, ToHidKeyPart9(code).value)
  {
  }

  lemma ToHidKeyPart10Facts()
    ensures forall code :: ToHidKeyPart10(code).Some? ==> P(code, ToHidKeyPart10(code).value)
  {
  }

  lemma EntriesFacts()
    ensures forall code :: ToHidKey(code).Some? ==> P(code, ToHidKey(code).value)
  {
    ToHidKeyPart0Facts();
    ToHidKeyPart1Facts();
    ToHidKeyPart2Facts();
    ToHidKeyPart3Facts();
    ToHidKeyPart4Facts();
    ToHidKeyPart5Facts();
    ToHidKeyPart6Facts();
    ToHidKeyPart7Facts();
    ToHidKeyPart8Facts();
    ToHidKeyPart9Facts();
    ToHidKeyPart10Facts();
  }

  /** KEY_RESERVED is mapped, to usage 0x00; a code outside the table, such as BTN_MISC, gives None. */
  lemma ReservedAndUnmapped()
    ensures ToHidKey(Ecodes.KEY_RESERVED) == Some(0x00)
    ensures ToHidKey(Ecodes.BTN_MISC) == None
    ensures ToHidKey(-1) == None
  {
  }

  /** The three mouse buttons map to the button masks of the `Mouse` report. */
  lemma MouseButtonsMapToMasks()
    ensures ToHidKey(Ecodes.BTN_LEFT) == Some(UsbHidMouse.LEFT_BUTTON)
    ensures ToHidKey(Ecodes.BTN_RIGHT) == Some(UsbHidMouse.RIGHT_BUTTON)
    ensures ToHidKey(Ecodes.BTN_MIDDLE) == Some(UsbHidMouse.MIDDLE_BUTTON)
  {
  }

  /** Every mapped code lies between KEY_RESERVED and BTN_MIDDLE, and every usage ID fits a report slot byte. */
  lemma ValuesFitReportByte()
    ensures forall code :: ToHidKey(code).Some? ==> 0 <= ToHidKey(code).value <= 0xFB
    ensures forall code :: ToHidKey(code).Some? ==> Ecodes.KEY_RESERVED <= code <= Ecodes.BTN_MIDDLE
  {
    EntriesFacts();
  }

  /** A mapped code yields a modifier usage (so `modifier_bit` of it is nonzero) exactly when it is one of the
      eight Ctrl/Shift/Alt/Meta codes, and each of those eight is mapped. */
  lemma ModifierExactlyForModifierCodes()
    ensures forall code | ToHidKey(code).Some? ::
      Keycode.ModifierBit(ToHidKey(code).value) != 0 <==> IsModifierCode(code)
    ensures forall code | IsModifierCode(code) :: ToHidKey(code).Some?
  {
    EntriesFacts();
  }
}

