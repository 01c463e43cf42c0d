/**
 * lib/usb_hid.py, device part: the `Device` record with its report descriptor, the three descriptors the
 * gadget exposes (`Device.KEYBOARD`, `Device.MOUSE`, `Device.CONSUMER_CONTROL`), `find_device`, and the
 * report-ID framing done by `Device.send_report`.
 *
 * Report descriptors are written as lists of short items, the encoding of section 6.2.2.2 of the USB HID
 * specification 1.11; `Serialize` gives the bytes the source spells out, and `Parse` reads them back.
 * Descriptor bytes are `bv8`, since their prefix is a bit field; report bytes are `Bytes.byte`.
 */
module UsbHid {
  import opened Wrappers
  import opened Bytes

  /** A short item: a prefix byte (bits 0-1 bSize, where 3 stands for 4 bytes; bits 2-3 bType; bits 4-7 bTag)
      followed by its data bytes, least significant byte first. */
  datatype ShortItem = ShortItem(prefix: bv8, data: seq<bv8>)

  /** The prefix that announces a long item instead of a short one. */
  const LONG_ITEM_PREFIX: bv8 := 0xFE

  function DataSize(prefix: bv8): (n: nat)
    ensures n == 0 || n == 1 || n == 2 || n == 4
  {
    if prefix & 3 == 3 then 4 else (prefix & 3) as nat
  }

  predicate WellFormed(item: ShortItem)
  {
    item.prefix != LONG_ITEM_PREFIX && |item.data| == DataSize(item.prefix)
  }

  predicate AllWellFormed(items: seq<ShortItem>)
  {
    forall i :: 0 <= i < |items| ==> WellFormed(items[i])
  }

  /** The descriptor bytes of a list of items. */
  function Serialize(items: seq<ShortItem>): (bytes: seq<bv8>)
    ensures items == [] <==> bytes == []
    ensures items != [] ==> bytes[0] == items[0].prefix
  {
    if items == [] then [] else [items[0].prefix] + items[0].data + Serialize(items[1..])
  }

  /** Splits descriptor bytes into short items; None when a long item or a truncated item is met. */
  function Parse(bytes: seq<bv8>): (items: Option<seq<ShortItem>>)
    ensures items.Some? ==> AllWellFormed(items.value)
    decreases |bytes|
  {
    if bytes == [] then Some([])
    else if bytes[0] == LONG_ITEM_PREFIX || |bytes| < 1 + DataSize(bytes[0]) then None
    else
      var n := DataSize(bytes[0]);
      match Parse(bytes[1 + n..])
      case None => None
      case Some(rest) => Some([ShortItem(bytes[0], bytes[1..1 + n])] + rest)
  }

  /** Parsing the serialized form of well-formed items gives the items back. */
  lemma {:induction false} ParseSerialize(items: seq<ShortItem>)
    requires AllWellFormed(items)
    ensures Parse(Serialize(items)) == Some(items)
  {
    if items != [] {
      var head, rest := items[0], items[1..];
      assert AllWellFormed(rest) by {
        forall i | 0 <= i < |rest| ensures WellFormed(rest[i]) { assert rest[i] == items[i + 1]; }
      }
      ParseSerialize(rest);
      var bytes := Serialize(items);
      var n := DataSize(head.prefix);
      assert bytes == [head.prefix] + head.data + Serialize(rest);
      assert bytes[1..1 + n] == head.data;
      assert bytes[1 + n..] == Serialize(rest);
      assert [head] + rest == items;
    }
  }

  /** The unsigned value of item data, least significant byte first. */
  function Value(data: seq<bv8>): nat
  {
    if data == [] then 0 else data[0] as nat + 256 * Value(data[1..])
  }

  /** Prefixes with the size bits cleared: the global items Report Size and Report Count and the main items
      Input and Output. */
  const REPORT_SIZE: bv8 := 0x74
  const REPORT_COUNT: bv8 := 0x94
  const INPUT: bv8 := 0x80
  const OUTPUT: bv8 := 0x90

  /** The parser state that report lengths depend on: the current Report Size and Report Count, and the bits
      the Input and the Output items seen so far add up to. */
  datatype Tally = Tally(size: nat, count: nat, input: nat, output: nat)

  const EMPTY_TALLY := Tally(0, 0, 0, 0)

  /** One item: Report Size and Report Count set the current values, an Input or Output item adds a field of
      size * count bits to its report, every other item leaves the totals alone. */
  function Step(item: ShortItem, t: Tally): (u: Tally)
    ensures u.input >= t.input && u.output >= t.output
    ensures item.prefix & 0xFC != INPUT ==> u.input == t.input
    ensures item.prefix & 0xFC != OUTPUT ==> u.output == t.output
  {
    var tag := item.prefix & 0xFC;
    if tag == REPORT_SIZE then t.(size := Value(item.data))
    else if tag == REPORT_COUNT then t.(count := Value(item.data))
    else if tag == INPUT then t.(input := t.input + t.size * t.count)
    else if tag == OUTPUT then t.(output := t.output + t.size * t.count)
    else t
  }

  function Walk(items: seq<ShortItem>, t: Tally): Tally
    decreases |items|
  {
    if items == [] then t else Walk(items[1..], Step(items[0], t))
  }

  /** Walking a descriptor in two parts is walking the second part from where the first one left off. */
  lemma {:induction false} WalkAppend(a: seq<ShortItem>, b: seq<ShortItem>, t: Tally)
    ensures Walk(a + b, t) == Walk(b, Walk(a, t))
    decreases |a|
  {
    if a == [] {
      assert a + b == b;
    } else {
      assert (a + b)[1..] == a[1..] + b;
      WalkAppend(a[1..], b, Step(a[0], t));
    }
  }

  lemma {:induction false} AllWellFormedAppend(a: seq<ShortItem>, b: seq<ShortItem>)
    requires AllWellFormed(a) && AllWellFormed(b)
    ensures AllWellFormed(a + b)
  {
    forall i | 0 <= i < |a + b| ensures WellFormed((a + b)[i]) {
      if i < |a| { assert (a + b)[i] == a[i]; } else { assert (a + b)[i] == b[i - |a|]; }
    }
  }

  /** Input and Output bits of a whole descriptor. */
  function Totals(items: seq<ShortItem>): (bits: (nat, nat))
  {
    var t := Walk(items, EMPTY_TALLY);
    (t.input, t.output)
  }

  /** `Device`: a HID function of the gadget. Its report descriptor is kept as items; `DescriptorBytes` gives
      the bytes the source lists. */
  datatype Device = Device(
    descriptor: seq<ShortItem>,
    usagePage: int,
    usage: int,
    reportIds: seq<int>,
    inReportLengths: seq<int>,
    outReportLengths: seq<int>)


  /** Generic Desktop page, Keyboard usage, application collection, report ID 1. */
  const KEYBOARD_HEADER: seq<ShortItem> := [
      ShortItem(0x05, [0x01]),  // Usage Page
      ShortItem(0x09, [0x06]),  // Usage
      ShortItem(0xA1, [0x01]),  // Collection
      ShortItem(0x85, [0x01])   // Report ID
    ]

  /** Eight one-bit Input fields for the modifier usages 0xE0-0xE7. */
  const KEYBOARD_MODIFIERS: seq<ShortItem> := [
      ShortItem(0x05, [0x07]),  // Usage Page
      ShortItem(0x19, [0xE0]),  // Usage Minimum
      ShortItem(0x29, [0xE7]),  // Usage Maximum
      ShortItem(0x15, [0x00]),  // Logical Minimum
      ShortItem(0x25, [0x01]),  // Logical Maximum
      ShortItem(0x75, [0x01]),  // Report Size
      ShortItem(0x95, [0x08]),  // Report Count
      ShortItem(0x81, [0x02])   // Input
    ]

  /** One constant 8-bit Input field. */
  const KEYBOARD_RESERVED: seq<ShortItem> := [
      ShortItem(0x95, [0x01]),  // Report Count
      ShortItem(0x75, [0x08]),  // Report Size
      ShortItem(0x81, [0x01])   // Input
    ]

  /** Three one-bit Output fields (Report Count 3, Report Size 1) over the LED usage range 1-5. */
  const KEYBOARD_LEDS: seq<ShortItem> := [
      ShortItem(0x95, [0x03]),  // Report Count
      ShortItem(0x75, [0x01]),  // Report Size
      ShortItem(0x05, [0x08]),  // Usage Page
      ShortItem(0x19, [0x01]),  // Usage Minimum
      ShortItem(0x29, [0x05]),  // Usage Maximum
      ShortItem(0x91, [0x02])   // Output
    ]

  /** One constant 5-bit Output field. */
  const KEYBOARD_LED_PADDING: seq<ShortItem> := [
      ShortItem(0x95, [0x01]),  // Report Count
      ShortItem(0x75, [0x05]),  // Report Size
      ShortItem(0x91, [0x01])   // Output
    ]

  /** Six 8-bit Input fields for key usages 0-255. */
  const KEYBOARD_KEYS: seq<ShortItem> := [
      ShortItem(0x95, [0x06]),  // Report Count
      ShortItem(0x75, [0x08]),  // Report Size
      ShortItem(0x15, [0x00]),  // Logical Minimum
      ShortItem(0x26, [0xFF, 0x00]),  // Logical Maximum
      ShortItem(0x05, [0x07]),  // Usage Page
      ShortItem(0x19, [0x00]),  // Usage Minimum
      ShortItem(0x2A, [0xFF, 0x00]),  // Usage Maximum
      ShortItem(0x81, [0x00])   // Input
    ]

  /** End of the application collection. */
  const KEYBOARD_END: seq<ShortItem> := [
      ShortItem(0xC0, [])   // End Collection
    ]

  /** Generic Desktop page, Mouse usage, application collection, report ID 2, Pointer usage, physical collection. */
  const MOUSE_HEADER: seq<ShortItem> := [
      ShortItem(0x05, [0x01]),  // Usage Page
      ShortItem(0x09, [0x02]),  // Usage
      ShortItem(0xA1, [0x01]),  // Collection
      ShortItem(0x85, [0x02]),  // Report ID
      ShortItem(0x09, [0x01]),  // Usage
      ShortItem(0xA1, [0x00])   // Collection
    ]

  /** Five one-bit Input fields for buttons 1-5. */
  const MOUSE_BUTTONS: seq<ShortItem> := [
      ShortItem(0x05, [0x09]),  // Usage Page
      ShortItem(0x19, [0x01]),  // Usage Minimum
      ShortItem(0x29, [0x05]),  // Usage Maximum
      ShortItem(0x15, [0x00]),  // Logical Minimum
      ShortItem(0x25, [0x01]),  // Logical Maximum
      ShortItem(0x95, [0x05]),  // Report Count
      ShortItem(0x75, [0x01]),  // Report Size
      ShortItem(0x81, [0x02])   // Input
    ]

  /** One constant 3-bit Input field. */
  const MOUSE_BUTTON_PADDING: seq<ShortItem> := [
      ShortItem(0x95, [0x01]),  // Report Count
      ShortItem(0x75, [0x03]),  // Report Size
      ShortItem(0x81, [0x01])   // Input
    ]

  /** Two signed 8-bit relative Input fields for X and Y. */
  const MOUSE_AXES: seq<ShortItem> := [
      ShortItem(0x05, [0x01]),  // Usage Page
      ShortItem(0x09, [0x30]),  // Usage
      ShortItem(0x09, [0x31]),  // Usage
      ShortItem(0x15, [0x81]),  // Logical Minimum
      ShortItem(0x25, [0x7F]),  // Logical Maximum
      ShortItem(0x75, [0x08]),  // Report Size
      ShortItem(0x95, [0x02]),  // Report Count
      ShortItem(0x81, [0x06])   // Input
    ]

  /** One signed 8-bit relative Input field for the wheel. */
  const MOUSE_WHEEL: seq<ShortItem> := [
      ShortItem(0x09, [0x38]),  // Usage
      ShortItem(0x15, [0x81]),  // Logical Minimum
      ShortItem(0x25, [0x7F]),  // Logical Maximum
      ShortItem(0x75, [0x08]),  // Report Size
      ShortItem(0x95, [0x01]),  // Report Count
      ShortItem(0x81, [0x06])   // Input
    ]

  /** End of both collections. */
  const MOUSE_END: seq<ShortItem> := [
      ShortItem(0xC0, []),  // End Collection
      ShortItem(0xC0, [])   // End Collection
    ]

  /** Consumer page, Consumer Control usage, application collection, report ID 3. */
  const CONSUMER_CONTROL_HEADER: seq<ShortItem> := [
      ShortItem(0x05, [0x0C]),  // Usage Page
      ShortItem(0x09, [0x01]),  // Usage
      ShortItem(0xA1, [0x01]),  // Collection
      ShortItem(0x85, [0x03])   // Report ID
    ]

  /** One 16-bit Input field holding a consumer usage 1-0x28C. */
  const CONSUMER_CONTROL_USAGE: seq<ShortItem> := [
      ShortItem(0x75, [0x10]),  // Report Size
      ShortItem(0x95, [0x01]),  // Report Count
      ShortItem(0x15, [0x01]),  // Logical Minimum
      ShortItem(0x26, [0x8C, 0x02]),  // Logical Maximum
      ShortItem(0x19, [0x01]),  // Usage Minimum
      ShortItem(0x2A, [0x8C, 0x02]),  // Usage Maximum
      ShortItem(0x81, [0x00])   // Input
    ]

  /** End of the application collection. */
  const CONSUMER_CONTROL_END: seq<ShortItem> := [
      ShortItem(0xC0, [])   // End Collection
    ]

  /** The descriptors of lib/usb_hid.py, part by part in the order the source lists their items. */
  const KEYBOARD_ITEMS: seq<ShortItem> :=
    KEYBOARD_HEADER + KEYBOARD_MODIFIERS + KEYBOARD_RESERVED + KEYBOARD_LEDS + KEYBOARD_LED_PADDING + KEYBOARD_KEYS + KEYBOARD_END

  const MOUSE_ITEMS: seq<ShortItem> :=
    MOUSE_HEADER + MOUSE_BUTTONS + MOUSE_BUTTON_PADDING + MOUSE_AXES + MOUSE_WHEEL + MOUSE_END

  const CONSUMER_CONTROL_ITEMS: seq<ShortItem> :=
    CONSUMER_CONTROL_HEADER + CONSUMER_CONTROL_USAGE + CONSUMER_CONTROL_END

  const KEYBOARD: Device := Device(KEYBOARD_ITEMS, 0x01, 0x06, [0x01], [8], [1])
  const MOUSE: Device := Device(MOUSE_ITEMS, 0x01, 0x02, [0x02], [4], [0])
  const CONSUMER_CONTROL: Device := Device(CONSUMER_CONTROL_ITEMS, 0x0C, 0x01, [3], [2], [0])

  function DescriptorBytes(device: Device): seq<bv8>
  {
    Serialize(device.descriptor)
  }

  /** A descriptor made of well-formed short items reads back from its bytes. */
  lemma DescriptorBytesParse(device: Device)
    requires AllWellFormed(device.descriptor)
    ensures Parse(DescriptorBytes(device)) == Some(device.descriptor)
  {
    ParseSerialize(device.descriptor);
  }

  /** Every item of the keyboard descriptor is a short item with as many data bytes as its prefix announces,
      so the descriptor reads back from its bytes. */
  lemma KeyboardItemsWellFormed()
    ensures AllWellFormed(KEYBOARD.descriptor)
    ensures Parse(DescriptorBytes(KEYBOARD)) == Some(KEYBOARD.descriptor)
  {
    AllWellFormedAppend(KEYBOARD_HEADER, KEYBOARD_MODIFIERS);
    AllWellFormedAppend(KEYBOARD_HEADER + KEYBOARD_MODIFIERS, KEYBOARD_RESERVED);
    AllWellFormedAppend(KEYBOARD_HEADER + KEYBOARD_MODIFIERS + KEYBOARD_RESERVED, KEYBOARD_LEDS);
    AllWellFormedAppend(KEYBOARD_HEADER + KEYBOARD_MODIFIERS + KEYBOARD_RESERVED + KEYBOARD_LEDS, KEYBOARD_LED_PADDING);
    AllWellFormedAppend(KEYBOARD_HEADER + KEYBOARD_MODIFIERS + KEYBOARD_RESERVED + KEYBOARD_LEDS + KEYBOARD_LED_PADDING, KEYBOARD_KEYS);
    AllWellFormedAppend(KEYBOARD_HEADER + KEYBOARD_MODIFIERS + KEYBOARD_RESERVED + KEYBOARD_LEDS + KEYBOARD_LED_PADDING + KEYBOARD_KEYS, KEYBOARD_END);
    DescriptorBytesParse(KEYBOARD);
  }

  /** The tally at the end of each part of the keyboard descriptor. */
  lemma KeyboardHeaderWalk()
    ensures Walk(KEYBOARD_HEADER, Tally(0, 0, 0, 0)) == Tally(0, 0, 0, 0)
  {
    var s := KEYBOARD_HEADER;
    assert Walk(s[3..], Tally(0, 0, 0, 0)) == Tally(0, 0, 0, 0);
    assert Walk(s[2..], Tally(0, 0, 0, 0)) == Tally(0, 0, 0, 0);
    assert Walk(s[1..], Tally(0, 0, 0, 0)) == Tally(0, 0, 0, 0);
    assert Walk(s[0..], Tally(0, 0, 0, 0)) == Tally(0, 0, 0, 0);
  }

  lemma KeyboardModifiersWalk()
    ensures Walk(KEYBOARD_MODIFIERS, Tally(0, 0, 0, 0)) == Tally(1, 8, 8, 0)
  {
    var s := KEYBOARD_MODIFIERS;
    assert Walk(s[7..], Tally(1, 8, 0, 0)) == Tally(1, 8, 8, 0);
    assert Walk(s[6..], Tally(1, 0, 0, 0)) == Tally(1, 8, 8, 0);
    assert Walk(s[5..], Tally(0, 0, 0, 0)) == Tally(1, 8, 8, 0);
    assert Walk(s[4..], Tally(0, 0, 0, 0)) == Tally(1, 8, 8, 0);
    assert Walk(s[3..], Tally(0, 0, 0, 0)) == Tally(1, 8, 8, 0);
    assert Walk(s[2..], Tally(0, 0, 0, 0)) == Tally(1, 8, 8, 0);
    assert Walk(s[1..], Tally(0, 0, 0, 0)) == Tally(1, 8, 8, 0);
    assert Walk(s[0..], Tally(0, 0, 0, 0)) == Tally(1, 8, 8, 0);
  }

  lemma KeyboardReservedWalk()
    ensures Walk(KEYBOARD_RESERVED, Tally(1, 8, 8, 0)) == Tally(8, 1, 16, 0)
  {
    var s := KEYBOARD_RESERVED;
    assert Walk(s[2..], Tally(8, 1, 8, 0)) == Tally(8, 1, 16, 0);
    assert Walk(s[1..], Tally(1, 1, 8, 0)) == Tally(8, 1, 16, 0);
    assert Walk(s[0..], Tally(1, 8, 8, 0)) == Tally(8, 1, 16, 0);
  }

  lemma KeyboardLedsWalk()
    ensures Walk(KEYBOARD_LEDS, Tally(8, 1, 16, 0)) == Tally(1, 3, 16, 3)
  {
    var s := KEYBOARD_LEDS;
    assert Walk(s[5..], Tally(1, 3, 16, 0)) == Tally(1, 3, 16, 3);
    assert Walk(s[4..], Tally(1, 3, 16, 0)) == Tally(1, 3, 16, 3);
    assert Walk(s[3..], Tally(1, 3, 16, 0)) == Tally(1, 3, 16, 3);
    assert Walk(s[2..], Tally(1, 3, 16, 0)) == Tally(1, 3, 16, 3);
    assert Walk(s[1..], Tally(8, 3, 16, 0)) == Tally(1, 3, 16, 3);
    assert Walk(s[0..], Tally(8, 1, 16, 0)) == Tally(1, 3, 16, 3);
  }

  lemma KeyboardLedPaddingWalk()
    ensures Walk(KEYBOARD_LED_PADDING, Tally(1, 3, 16, 3)) == Tally(5, 1, 16, 8)
  {
    var s := KEYBOARD_LED_PADDING;
    assert Walk(s[2..], Tally(5, 1, 16, 3)) == Tally(5, 1, 16, 8);
    assert Walk(s[1..], Tally(1, 1, 16, 3)) == Tally(5, 1, 16, 8);
    assert Walk(s[0..], Tally(1, 3, 16, 3)) == Tally(5, 1, 16, 8);
  }

  lemma KeyboardKeysWalk()
    ensures Walk(KEYBOARD_KEYS, Tally(5, 1, 16, 8)) == Tally(8, 6, 64, 8)
  {
    var s := KEYBOARD_KEYS;
    assert Walk(s[7..], Tally(8, 6, 16, 8)) == Tally(8, 6, 64, 8);
    assert Walk(s[6..], Tally(8, 6, 16, 8)) == Tally(8, 6, 64, 8);
    assert Walk(s[5..], Tally(8, 6, 16, 8)) == Tally(8, 6, 64, 8);
    assert Walk(s[4..], Tally(8, 6, 16, 8)) == Tally(8, 6, 64, 8);
    assert Walk(s[3..], Tally(8, 6, 16, 8)) == Tally(8, 6, 64, 8);
    assert Walk(s[2..], Tally(8, 6, 16, 8)) == Tally(8, 6, 64, 8);
    assert Walk(s[1..], Tally(5, 6, 16, 8)) == Tally(8, 6, 64, 8);
    assert Walk(s[0..], Tally(5, 1, 16, 8)) == Tally(8, 6, 64, 8);
  }

  lemma KeyboardEndWalk()
    ensures Walk(KEYBOARD_END, Tally(8, 6, 64, 8)) == Tally(8, 6, 64, 8)
  {
    var s := KEYBOARD_END;
    assert Walk(s[0..], Tally(8, 6, 64, 8)) == Tally(8, 6, 64, 8);
  }

  /** The keyboard descriptor agrees with the report lengths its `Device` declares: its Input items add up to the
      8-byte key report and its Output items to the 1-byte LED report. */
  lemma KeyboardReportLengths()
    ensures Totals(KEYBOARD.descriptor) == (8 * KEYBOARD.inReportLengths[0], 8 * KEYBOARD.outReportLengths[0])
  {
    KeyboardHeaderWalk();
    assert Walk(KEYBOARD_HEADER + KEYBOARD_MODIFIERS, EMPTY_TALLY) == Tally(1, 8, 8, 0) by {
      WalkAppend(KEYBOARD_HEADER, KEYBOARD_MODIFIERS, EMPTY_TALLY);
      KeyboardModifiersWalk();
    }
    assert Walk(KEYBOARD_HEADER + KEYBOARD_MODIFIERS + KEYBOARD_RESERVED, EMPTY_TALLY) == Tally(8, 1, 16, 0) by {
      WalkAppend(KEYBOARD_HEADER + KEYBOARD_MODIFIERS, KEYBOARD_RESERVED, EMPTY_TALLY);
      KeyboardReservedWalk();
    }
    assert Walk(KEYBOARD_HEADER + KEYBOARD_MODIFIERS + KEYBOARD_RESERVED + KEYBOARD_LEDS, EMPTY_TALLY) == Tally(1, 3, 16, 3) by {
      WalkAppend(KEYBOARD_HEADER + KEYBOARD_MODIFIERS + KEYBOARD_RESERVED, KEYBOARD_LEDS, EMPTY_TALLY);
      KeyboardLedsWalk();
    }
    assert Walk(KEYBOARD_HEADER + KEYBOARD_MODIFIERS + KEYBOARD_RESERVED + KEYBOARD_LEDS + KEYBOARD_LED_PADDING, EMPTY_TALLY) == Tally(5, 1, 16, 8) by {
      WalkAppend(KEYBOARD_HEADER + KEYBOARD_MODIFIERS + KEYBOARD_RESERVED + KEYBOARD_LEDS, KEYBOARD_LED_PADDING, EMPTY_TALLY);
      KeyboardLedPaddingWalk();
    }
    assert Walk(KEYBOARD_HEADER + KEYBOARD_MODIFIERS + KEYBOARD_RESERVED + KEYBOARD_LEDS + KEYBOARD_LED_PADDING + KEYBOARD_KEYS, EMPTY_TALLY) == Tally(8, 6, 64, 8) by {
      WalkAppend(KEYBOARD_HEADER + KEYBOARD_MODIFIERS + KEYBOARD_RESERVED + KEYBOARD_LEDS + KEYBOARD_LED_PADDING, KEYBOARD_KEYS, EMPTY_TALLY);
      KeyboardKeysWalk();
    }
    assert Walk(KEYBOARD_HEADER + KEYBOARD_MODIFIERS + KEYBOARD_RESERVED + KEYBOARD_LEDS + KEYBOARD_LED_PADDING + KEYBOARD_KEYS + KEYBOARD_END, EMPTY_TALLY) == Tally(8, 6, 64, 8) by {
      WalkAppend(KEYBOARD_HEADER + KEYBOARD_MODIFIERS + KEYBOARD_RESERVED + KEYBOARD_LEDS + KEYBOARD_LED_PADDING + KEYBOARD_KEYS, KEYBOARD_END, EMPTY_TALLY);
      KeyboardEndWalk();
    }
  }

  /** Every item of the mouse descriptor is a short item with as many data bytes as its prefix announces,
      so the descriptor reads back from its bytes. */
  lemma MouseItemsWellFormed()
    ensures AllWellFormed(MOUSE.descriptor)
    ensures Parse(DescriptorBytes(MOUSE)) == Some(MOUSE.descriptor)
  {
    AllWellFormedAppend(MOUSE_HEADER, MOUSE_BUTTONS);
    AllWellFormedAppend(MOUSE_HEADER + MOUSE_BUTTONS, MOUSE_BUTTON_PADDING);
    AllWellFormedAppend(MOUSE_HEADER + MOUSE_BUTTONS + MOUSE_BUTTON_PADDING, MOUSE_AXES);
    AllWellFormedAppend(MOUSE_HEADER + MOUSE_BUTTONS + MOUSE_BUTTON_PADDING + MOUSE_AXES, MOUSE_WHEEL);
    AllWellFormedAppend(MOUSE_HEADER + MOUSE_BUTTONS + MOUSE_BUTTON_PADDING + MOUSE_AXES + MOUSE_WHEEL, MOUSE_END);
    DescriptorBytesParse(MOUSE);
  }

  /** The tally at the end of each part of the mouse descriptor. */
  lemma MouseHeaderWalk()
    ensures Walk(MOUSE_HEADER, Tally(0, 0, 0, 0)) == Tally(0, 0, 0, 0)
  {
    var s := MOUSE_HEADER;
    assert Walk(s[5..], Tally(0, 0, 0, 0)) == Tally(0, 0, 0, 0);
    assert Walk(s[4..], Tally(0, 0, 0, 0)) == Tally(0, 0, 0, 0);
    assert Walk(s[3..], Tally(0, 0, 0, 0)) == Tally(0, 0, 0, 0);
    assert Walk(s[2..], Tally(0, 0, 0, 0)) == Tally(0, 0, 0, 0);
    assert Walk(s[1..], Tally(0, 0, 0, 0)) == Tally(0, 0, 0, 0);
    assert Walk(s[0..], Tally(0, 0, 0, 0)) == Tally(0, 0, 0, 0);
  }

  lemma MouseButtonsWalk()
    ensures Walk(MOUSE_BUTTONS, Tally(0, 0, 0, 0)) == Tally(1, 5, 5, 0)
  {
    var s := MOUSE_BUTTONS;
    assert Walk(s[7..], Tally(1, 5, 0, 0)) == Tally(1, 5, 5, 0);
    assert Walk(s[6..], Tally(0, 5, 0, 0)) == Tally(1, 5, 5, 0);
    assert Walk(s[5..], Tally(0, 0, 0, 0)) == Tally(1, 5, 5, 0);
    assert Walk(s[4..], Tally(0, 0, 0, 0)) == Tally(1, 5, 5, 0);
    assert Walk(s[3..], Tally(0, 0, 0, 0)) == Tally(1, 5, 5, 0);
    assert Walk(s[2..], Tally(0, 0, 0, 0)) == Tally(1, 5, 5, 0);
    assert Walk(s[1..], Tally(0, 0, 0, 0)) == Tally(1, 5, 5, 0);
    assert Walk(s[0..], Tally(0, 0, 0, 0)) == Tally(1, 5, 5, 0);
  }

  lemma MouseButtonPaddingWalk()
    ensures Walk(MOUSE_BUTTON_PADDING, Tally(1, 5, 5, 0)) == Tally(3, 1, 8, 0)
  {
    var s := MOUSE_BUTTON_PADDING;
    assert Walk(s[2..], Tally(3, 1, 5, 0)) == Tally(3, 1, 8, 0);
    assert Walk(s[1..], Tally(1, 1, 5, 0)) == Tally(3, 1, 8, 0);
    assert Walk(s[0..], Tally(1, 5, 5, 0)) == Tally(3, 1, 8, 0);
  }

  lemma MouseAxesWalk()
    ensures Walk(MOUSE_AXES, Tally(3, 1, 8, 0)) == Tally(8, 2, 24, 0)
  {
    var s := MOUSE_AXES;
    assert Walk(s[7..], Tally(8, 2, 8, 0)) == Tally(8, 2, 24, 0);
    assert Walk(s[6..], Tally(8, 1, 8, 0)) == Tally(8, 2, 24, 0);
    assert Walk(s[5..], Tally(3, 1, 8, 0)) == Tally(8, 2, 24, 0);
    assert Walk(s[4..], Tally(3, 1, 8, 0)) == Tally(8, 2, 24, 0);
    assert Walk(s[3..], Tally(3, 1, 8, 0)) == Tally(8, 2, 24, 0);
    assert Walk(s[2..], Tally(3, 1, 8, 0)) == Tally(8, 2, 24, 0);
    assert Walk(s[1..], Tally(3, 1, 8, 0)) == Tally(8, 2, 24, 0);
    assert Walk(s[0..], Tally(3, 1, 8, 0)) == Tally(8, 2, 24, 0);
  }

  lemma MouseWheelWalk()
    ensures Walk(MOUSE_WHEEL, Tally(8, 2, 24, 0)) == Tally(8, 1, 32, 0)
  {
    var s := MOUSE_WHEEL;
    assert Walk(s[5..], Tally(8, 1, 24, 0)) == Tally(8, 1, 32, 0);
    assert Walk(s[4..], Tally(8, 2, 24, 0)) == Tally(8, 1, 32, 0);
    assert Walk(s[3..], Tally(8, 2, 24, 0)) == Tally(8, 1, 32, 0);
    assert Walk(s[2..], Tally(8, 2, 24, 0)) == Tally(8, 1, 32, 0);
    assert Walk(s[1..], Tally(8, 2, 24, 0)) == Tally(8, 1, 32, 0);
    assert Walk(s[0..], Tally(8, 2, 24, 0)) == Tally(8, 1, 32, 0);
  }

  lemma MouseEndWalk()
    ensures Walk(MOUSE_END, Tally(8, 1, 32, 0)) == Tally(8, 1, 32, 0)
  {
    var s := MOUSE_END;
    assert Walk(s[1..], Tally(8, 1, 32, 0)) == Tally(8, 1, 32, 0);
    assert Walk(s[0..], Tally(8, 1, 32, 0)) == Tally(8, 1, 32, 0);
  }

  /** The mouse descriptor agrees with the report lengths its `Device` declares: its Input items add up to the
      4-byte report of buttons, X, Y and wheel, and it has no Output items. */
  lemma MouseReportLengths()
    ensures Totals(MOUSE.descriptor) == (8 * MOUSE.inReportLengths[0], 8 * MOUSE.outReportLengths[0])
  {
    MouseHeaderWalk();
    assert Walk(MOUSE_HEADER + MOUSE_BUTTONS, EMPTY_TALLY) == Tally(1, 5, 5, 0) by {
      WalkAppend(MOUSE_HEADER, MOUSE_BUTTONS, EMPTY_TALLY);
      MouseButtonsWalk();
    }
    assert Walk(MOUSE_HEADER + MOUSE_BUTTONS + MOUSE_BUTTON_PADDING, EMPTY_TALLY) == Tally(3, 1, 8, 0) by {
      WalkAppend(MOUSE_HEADER + MOUSE_BUTTONS, MOUSE_BUTTON_PADDING, EMPTY_TALLY);
      MouseButtonPaddingWalk();
    }
    assert Walk(MOUSE_HEADER + MOUSE_BUTTONS + MOUSE_BUTTON_PADDING + MOUSE_AXES, EMPTY_TALLY) == Tally(8, 2, 24, 0) by {
      WalkAppend(MOUSE_HEADER + MOUSE_BUTTONS + MOUSE_BUTTON_PADDING, MOUSE_AXES, EMPTY_TALLY);
      MouseAxesWalk();
    }
    assert Walk(MOUSE_HEADER + MOUSE_BUTTONS + MOUSE_BUTTON_PADDING + MOUSE_AXES + MOUSE_WHEEL, EMPTY_TALLY) == Tally(8, 1, 32, 0) by {
      WalkAppend(MOUSE_HEADER + MOUSE_BUTTONS + MOUSE_BUTTON_PADDING + MOUSE_AXES, MOUSE_WHEEL, EMPTY_TALLY);
      MouseWheelWalk();
    }
    assert Walk(MOUSE_HEADER + MOUSE_BUTTONS + MOUSE_BUTTON_PADDING + MOUSE_AXES + MOUSE_WHEEL + MOUSE_END, EMPTY_TALLY) == Tally(8, 1, 32, 0) by {
      WalkAppend(MOUSE_HEADER + MOUSE_BUTTONS + MOUSE_BUTTON_PADDING + MOUSE_AXES + MOUSE_WHEEL, MOUSE_END, EMPTY_TALLY);
      MouseEndWalk();
    }
  }

  /** Every item of the consumer-control descriptor is a short item with as many data bytes as its prefix announces,
      so the descriptor reads back from its bytes. */
  lemma ConsumerControlItemsWellFormed()
    ensures AllWellFormed(CONSUMER_CONTROL.descriptor)
    ensures Parse(DescriptorBytes(CONSUMER_CONTROL)) == Some(CONSUMER_CONTROL.descriptor)
  {
    AllWellFormedAppend(CONSUMER_CONTROL_HEADER, CONSUMER_CONTROL_USAGE);
    AllWellFormedAppend(CONSUMER_CONTROL_HEADER + CONSUMER_CONTROL_USAGE, CONSUMER_CONTROL_END);
    DescriptorBytesParse(CONSUMER_CONTROL);
  }

  /** The tally at the end of each part of the consumer-control descriptor. */
  lemma ConsumerControlHeaderWalk()
    ensures Walk(CONSUMER_CONTROL_HEADER, Tally(0, 0, 0, 0)) == Tally(0, 0, 0, 0)
  {
    var s := CONSUMER_CONTROL_HEADER;
    assert Walk(s[3..], Tally(0, 0, 0, 0)) == Tally(0, 0, 0, 0);
    assert Walk(s[2..], Tally(0, 0, 0, 0)) == Tally(0, 0, 0, 0);
    assert Walk(s[1..], Tally(0, 0, 0, 0)) == Tally(0, 0, 0, 0);
    assert Walk(s[0..], Tally(0, 0, 0, 0)) == Tally(0, 0, 0, 0);
  }

  lemma ConsumerControlUsageWalk()
    ensures Walk(CONSUMER_CONTROL_USAGE, Tally(0, 0, 0, 0)) == Tally(16, 1, 16, 0)
  {
    var s := CONSUMER_CONTROL_USAGE;
    assert Walk(s[6..], Tally(16, 1, 0, 0)) == Tally(16, 1, 16, 0);
    assert Walk(s[5..], Tally(16, 1, 0, 0)) == Tally(16, 1, 16, 0);
    assert Walk(s[4..], Tally(16, 1, 0, 0)) == Tally(16, 1, 16, 0);
    assert Walk(s[3..], Tally(16, 1, 0, 0)) == Tally(16, 1, 16, 0);
    assert Walk(s[2..], Tally(16, 1, 0, 0)) == Tally(16, 1, 16, 0);
    assert Walk(s[1..], Tally(16, 0, 0, 0)) == Tally(16, 1, 16, 0);
    assert Walk(s[0..], Tally(0, 0, 0, 0)) == Tally(16, 1, 16, 0);
  }

  lemma ConsumerControlEndWalk()
    ensures Walk(CONSUMER_CONTROL_END, Tally(16, 1, 16, 0)) == Tally(16, 1, 16, 0)
  {
    var s := CONSUMER_CONTROL_END;
    assert Walk(s[0..], Tally(16, 1, 16, 0)) == Tally(16, 1, 16, 0);
  }

  /** The consumer-control descriptor agrees with the report lengths its `Device` declares: its Input items add up
      to the 2-byte usage report, and it has no Output items. */
  lemma ConsumerControlReportLengths()
    ensures Totals(CONSUMER_CONTROL.descriptor) == (8 * CONSUMER_CONTROL.inReportLengths[0], 8 * CONSUMER_CONTROL.outReportLengths[0])
  {
    ConsumerControlHeaderWalk();
    assert Walk(CONSUMER_CONTROL_HEADER + CONSUMER_CONTROL_USAGE, EMPTY_TALLY) == Tally(16, 1, 16, 0) by {
      WalkAppend(CONSUMER_CONTROL_HEADER, CONSUMER_CONTROL_USAGE, EMPTY_TALLY);
      ConsumerControlUsageWalk();
    }
    assert Walk(CONSUMER_CONTROL_HEADER + CONSUMER_CONTROL_USAGE + CONSUMER_CONTROL_END, EMPTY_TALLY) == Tally(16, 1, 16, 0) by {
      WalkAppend(CONSUMER_CONTROL_HEADER + CONSUMER_CONTROL_USAGE, CONSUMER_CONTROL_END, EMPTY_TALLY);
      ConsumerControlEndWalk();
    }
  }

  predicate Matches(device: Device, usagePage: int, usage: int)
  {
    device.usagePage == usagePage && device.usage == usage
  }

  /** `find_device`: the first device with the given usage page and usage, or ValueError. */
  method FindDevice(devices: seq<Device>, usagePage: int, usage: int) returns (r: Result<Device>)
    ensures r.Ok? ==> exists i :: 0 <= i < |devices| && devices[i] == r.value && Matches(devices[i], usagePage, usage)
                        && forall j :: 0 <= j < i ==> !Matches(devices[j], usagePage, usage)
    ensures r.Err? <==> forall d :: d in devices ==> !Matches(d, usagePage, usage)
    ensures r.Err? ==> r.error == ValueError("Could not find matching HID device.")
  {
    var i := 0;
    while i < |devices|
      invariant 0 <= i <= |devices|
      invariant forall j :: 0 <= j < i ==> !Matches(devices[j], usagePage, usage)
    {
      if Matches(devices[i], usagePage, usage) {
        return Ok(devices[i]);
      }
      i := i + 1;
    }
    return Err(ValueError("Could not find matching HID device."));
  }

  /** What `send_report` writes: the bytes, and the device node they go to, for the report ID used. */
  datatype Write = Write(reportId: int, node: string, bytes: seq<byte>)

  /** `report_id or self.report_ids[0]`: an absent or zero ID falls back to the device's first report ID. */
  function ReportIdFor(device: Device, reportId: Option<int>): (r: Result<int>)
    ensures r.Ok? && reportId.Some? && reportId.value != 0 ==> r.value == reportId.value
    ensures r.Ok? && (reportId.None? || reportId.value == 0) ==> |device.reportIds| > 0 && r.value == device.reportIds[0]
    ensures r.Err? <==> (reportId.None? || reportId.value == 0) && device.reportIds == []
  {
    if reportId.Some? && reportId.value != 0 then Ok(reportId.value)
    else if device.reportIds == [] then Err(IndexError)
    else Ok(device.reportIds[0])
  }

  /** `Device.send_report`. The report ID first selects the device node: `get_device_path` reads the `dev` file of
      the gadget function `hid.usb<id>`, and that configfs read is I/O, so the IDs that have a gadget function,
      with the node each names, are the parameter `nodes`; an ID without one raises FileNotFoundError. Only
      then is a positive ID turned into one leading byte (OverflowError when it does not fit one); any other ID
      leaves the report as it is. */
  function SendReport(device: Device, report: seq<byte>, reportId: Option<int>, nodes: map<int, string>): Result<Write>
  {
    match ReportIdFor(device, reportId)
    case Err(e) => Err(e)
    case Ok(id) =>
      if id !in nodes then Err(FileNotFoundError(id))
      else if id > 0 then
        if id > 255 then Err(OverflowError) else Ok(Write(id, nodes[id], [id] + report))
      else Ok(Write(id, nodes[id], report))
  }

  /** The host splits the ID byte off again: a write goes to the node of the ID chosen, and for a positive ID
      carries that ID in its first byte and the report after it; for an ID of zero or below the bytes are the
      report. */
  lemma SendReportFrames(device: Device, report: seq<byte>, reportId: Option<int>, nodes: map<int, string>)
    requires SendReport(device, report, reportId, nodes).Ok?
    ensures ReportIdFor(device, reportId).Ok?
    ensures var w := SendReport(device, report, reportId, nodes).value;
      w.reportId == ReportIdFor(device, reportId).value && w.reportId in nodes && w.node == nodes[w.reportId] &&
      if w.reportId > 0 then |w.bytes| == |report| + 1 && w.bytes[0] == w.reportId && w.bytes[1..] == report
      else w.bytes == report
  {
    var w := SendReport(device, report, reportId, nodes).value;
    if w.reportId > 0 {
      assert w.bytes == [w.reportId] + report;
    }
  }

  /** The errors of `send_report`, in the order the source meets them: no report ID to fall back on, then no
      gadget function for the ID, then an ID that does not fit a byte. */
  lemma SendReportErrors(device: Device, report: seq<byte>, reportId: Option<int>, nodes: map<int, string>)
    ensures ReportIdFor(device, reportId).Err? ==> SendReport(device, report, reportId, nodes) == Err(IndexError)
    ensures ReportIdFor(device, reportId).Ok? ==>
      var id := ReportIdFor(device, reportId).value;
      && (id !in nodes ==> SendReport(device, report, reportId, nodes) == Err(FileNotFoundError(id)))
      && (id in nodes ==> (SendReport(device, report, reportId, nodes).Err? <==> id > 255))
      && (id in nodes && id > 255 ==> SendReport(device, report, reportId, nodes) == Err(OverflowError))
  {
  }

  /** With the default ID, the keyboard writes its 8-byte report as 9 bytes behind ID 1, the mouse its 4-byte
      report behind ID 2. An explicit ID of 256 fails at the node lookup when it has no gadget function, and
      only otherwise with OverflowError. */
  lemma DefaultReportIds(report: seq<byte>, nodes: map<int, string>)
    ensures 1 in nodes && |report| == KEYBOARD.inReportLengths[0] ==>
      SendReport(KEYBOARD, report, None, nodes) == Ok(Write(1, nodes[1], [0x01] + report)) && |[0x01] + report| == 9
    ensures 2 in nodes ==> SendReport(MOUSE, report, None, nodes) == Ok(Write(2, nodes[2], [0x02] + report))
    ensures SendReport(MOUSE, report, Some(0), nodes) == SendReport(MOUSE, report, None, nodes)
    ensures 256 !in nodes ==> SendReport(KEYBOARD, report, Some(256), nodes) == Err(FileNotFoundError(256))
    ensures 256 in nodes ==> SendReport(KEYBOARD, report, Some(256), nodes) == Err(OverflowError)
  {
  }
}
