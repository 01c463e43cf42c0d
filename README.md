# bluetooth_2_hid in Dafny

A Dafny model of the sequential core of bluetooth_2_hid. The program relays Bluetooth keyboards and mice, read
as Linux evdev input devices, to a USB host through the USB HID gadgets of a Raspberry Pi. The model covers
four parts:

- **Report encoders.** lib/usb_hid.py keeps an 8-byte boot keyboard report (`Keyboard`) and a 4-byte boot
  mouse report (`Mouse`) in place. It also defines the three report descriptors, `find_device` and the
  report-ID framing of `Device.send_report`. libs/keyboard.py's `HidKeyboard` is an older keyboard state kept
  by key name, with the tables of libs/hid_codes.py. The reports follow Appendix B (B.1 and B.2) of the USB HID
  specification 1.11. The descriptors use the short-item encoding of its section 6.2.2.2.
- **Code translation.** lib/evdev_converter.py maps evdev codes to Keyboard/Keypad-page usages and defines
  `Keycode.modifier_bit`. src/bluetooth_2_usb/evdev.py maps evdev codes to keyboard, mouse-button and
  consumer-page usages. It also classifies codes, extracts mouse axes and searches key names. The target pages
  are sections 10 and 15 of the HID Usage Tables 1.12.
- **Relay selection.** There are two generations of relays. src/bluetooth_2_usb/relay.py is modelled in module
  `Relay` and bluetooth_2_usb/relay.py in module `LegacyRelay`. Both cover:
  - identifier classification (path / MAC / name), normalisation and matching;
  - `_should_relay`;
  - a discovery pass over a list of devices;
  - the per-path task table;
  - the routing of key and movement events to the gadgets.
- **Sink selection.** lib/device_link.py chooses between the real gadgets and `DummyGadget`. It also keeps the
  list of active gadgets and the connection state of one input device.

Where the source changes state, the model changes state too:
- `Keyboard.report` and `Mouse.report` are `array<byte>` fields updated by loops.
- `HidKeyboard`, both `RelayController`s and `DeviceLink` are classes whose methods assign their fields.
- The loop that fills `ds_HID_TO_KEY` is a method.

Two forms of reference stand beside each of these:
- the spec functions the methods are proved against: the key list `Keys`/`SlotsOf`/`ListPress` of the
  keyboard slots, `MoveReports` for `move`, `Discover` for discovery and `Inverse` for the reverse table;
- the lemmas stating what those functions promise. These include slot compactness and the rollover order,
  exact delta sums, one task per path, and the inverse being exact.

Module map:

| Dafny file | module | source |
|---|---|---|
| usb_hid.dfy | UsbHid | lib/usb_hid.py (`Device`, descriptors, `find_device`, `send_report`) |
| usb_hid_keyboard.dfy | UsbHidKeyboard | lib/usb_hid.py (`Keyboard`) |
| usb_hid_mouse.dfy | UsbHidMouse | lib/usb_hid.py (`Mouse`) |
| keycode.dfy | Keycode | lib/evdev_converter.py (`Keycode`) |
| evdev_converter.dfy | EvdevConverter | lib/evdev_converter.py (`_EVDEV_TO_HID_MAPPING`, `to_hid_key`) |
| ecodes.dfy | Ecodes | src/bluetooth_2_usb/evdev.py (the `ecodes` constants used) |
| src_evdev.dfy | Evdev | src/bluetooth_2_usb/evdev.py |
| strings.dfy | Strings | Python `startswith`, `in`, `lower`, `replace` |
| relay.dfy | Relay | src/bluetooth_2_usb/relay.py |
| legacy_relay.dfy | LegacyRelay | bluetooth_2_usb/relay.py |
| hid_codes.dfy | HidCodes | libs/hid_codes.py |
| legacy_keyboard.dfy | LegacyKeyboard | libs/keyboard.py |
| device_link.dfy | DeviceLink | lib/device_link.py |
| bytes.dfy, wrappers.dfy | Bytes, Wrappers | bytes and bit operations; `None` and raised exceptions |

Some behaviour of the code is captured as written even where the comments suggest otherwise:

- `HidKeyboard.activate_key` drops the oldest key when six are down
  (`LegacyKeyboard.ActivateKeeps`). The docstring at libs/keyboard.py:160-169 argues for the other policy,
  ignoring the new key. The model follows the code.
- `_add_keycode_to_report` runs its search before storing a key. So a key code outside 0..255 raises
  ValueError from the memoryview store. When all six slots are full, the shuffle has already happened by then,
  and the report is left with the last key doubled (`UsbHidKeyboard.AddOutOfRange`).
- `KEY_RESERVED` converts to usage 0 in lib/evdev_converter.py. Pressing 0 writes 0 into the first free slot,
  which changes nothing. But when the six slots are full, the shuffle drops the oldest key
  (`UsbHidKeyboard.ReservedPressDropsOldest`).
- The `_EVDEV_TO_USB_HID` literal in src/bluetooth_2_usb/evdev.py lists `KEY_PAUSE` and `KEY_POWER` twice.
  Python keeps the later consumer-page entry (`Evdev.RepeatedKeysKeepLaterEntry`).
- `BTN_MISC` is mapped there too, through the consumer section, as `FUNCTION_BUTTONS`.

## Model

| member | source | states |
|---|---|---|
| UsbHid.Serialize | lib/usb_hid.py:117-190 | the descriptor bytes of a list of short items: empty exactly for no items, and starting with the first item's prefix |
| UsbHid.Parse | lib/usb_hid.py:117-190 | reading descriptor bytes back into short items; every item it returns is well-formed (its data length is the size its prefix announces) |
| UsbHid.ParseSerialize | lib/usb_hid.py:117-308 | round trip: parsing the bytes of well-formed items gives the items back |
| UsbHid.DescriptorBytesParse | lib/usb_hid.py:36-58 | a device whose descriptor items are well-formed has bytes that parse back to exactly those items |
| UsbHid.Step | lib/usb_hid.py:117-308 | one item of the descriptor walk (section 6.2.2.7 of HID 1.11): only an Input item grows the input total and only an Output item the output total |
| UsbHid.WalkAppend | lib/usb_hid.py:117-308 | walking two concatenated parts is walking the second from where the first stopped |
| UsbHid.KeyboardItemsWellFormed | lib/usb_hid.py:117-196 | every item of `Device.KEYBOARD`'s descriptor is a well-formed short item, so its bytes parse back to it |
| UsbHid.KeyboardReportLengths | lib/usb_hid.py:117-196 | Report Size x Report Count over the keyboard's Input items is 64 bits = 8 x `in_report_lengths[0]`; over its Output items 8 bits = 8 x `out_report_lengths[0]` |
| UsbHid.MouseItemsWellFormed | lib/usb_hid.py:197-271 | every item of `Device.MOUSE`'s descriptor is well-formed and its bytes parse back |
| UsbHid.MouseReportLengths | lib/usb_hid.py:197-271 | the mouse's Input items add up to 32 bits = 8 x 4 and it has no Output bits |
| UsbHid.ConsumerControlItemsWellFormed | lib/usb_hid.py:273-308 | every item of `Device.CONSUMER_CONTROL`'s descriptor is well-formed and its bytes parse back |
| UsbHid.ConsumerControlReportLengths | lib/usb_hid.py:273-308 | the consumer control's Input items add up to 16 bits = 8 x 2 and it has no Output bits |
| UsbHid.KeyboardLedsWalk | lib/usb_hid.py:117-196 | the LED part of the keyboard descriptor adds 3 Output bits (count 3, size 1) to the tally |
| UsbHid.FindDevice | lib/usb_hid.py:773-787 | the first device with the usage page and usage asked for, none before it matching; ValueError("Could not find matching HID device.") exactly when none matches |
| UsbHid.ReportIdFor | lib/usb_hid.py:65 | `report_id or report_ids[0]`: a nonzero ID is kept, None or 0 falls back to the first report ID, IndexError when the list is empty |
| UsbHid.SendReportFrames | lib/usb_hid.py:60-70 | a write goes to the node of the ID chosen; for a positive ID it is that ID byte followed by the report, for ID 0 or below the report unchanged |
| UsbHid.SendReportErrors | lib/usb_hid.py:65-69 | the errors in the order the code meets them: IndexError with no ID to fall back on, FileNotFoundError for an ID without a gadget function (before any width check), then OverflowError exactly for an ID above 255 |
| UsbHid.DefaultReportIds | lib/usb_hid.py:60-70 | with the default IDs the keyboard's 8-byte report goes out as 9 bytes behind ID 1, the mouse's behind ID 2, each to its own node; an ID of 256 raises FileNotFoundError when it has no gadget function, and OverflowError only when it has one |
| UsbHidKeyboard.AddStop | lib/usb_hid.py:915-924 | where the slot search stops: every slot before is taken and differs from the key; the slot there is empty or holds the key |
| UsbHidKeyboard.FirstEmpty | lib/usb_hid.py:940-943 | the first empty slot: every slot before it is taken |
| UsbHidKeyboard.Without | lib/usb_hid.py:940-948 | the slots without the key: exactly the other keys |
| UsbHidKeyboard.WithoutDistinct | lib/usb_hid.py:940-948 | removing a key from distinct slots keeps them distinct |
| UsbHidKeyboard.AddToSlots | lib/usb_hid.py:913-928 | `_add_keycode_to_report` on the six slots keeps six slots |
| UsbHidKeyboard.AddedReport | lib/usb_hid.py:906-928 | `_add_keycode_to_report` on the whole report keeps its 8 bytes |
| UsbHidKeyboard.RemovedReport | lib/usb_hid.py:930-952 | `_remove_keycode_from_report` on the whole report keeps its 8 bytes |
| UsbHidKeyboard.CompactIsSlotsOf | lib/usb_hid.py:913-952 | compact slots (used slots first, then zeros, used slots distinct) correspond one to one with lists of at most six distinct nonzero keys |
| UsbHidKeyboard.KeysOfSlotsOf | lib/usb_hid.py:913-952 | the slots of a key list are compact and hold that list |
| UsbHidKeyboard.AddStopOfSlots | lib/usb_hid.py:915-924 | on the slots of a key list the search stops at the key when it is held, else at the first empty slot |
| UsbHidKeyboard.FirstEmptyOfSlots | lib/usb_hid.py:940-943 | on the slots of a key list the first empty slot is right after the keys, which fill the slots before it in order |
| UsbHidKeyboard.PressMatchesList | lib/usb_hid.py:913-928 | adding a byte key to compact slots is `ListPress` on the key list: unchanged if held, appended if there is room, else oldest dropped and key appended; never raises |
| UsbHidKeyboard.ReleaseMatchesList | lib/usb_hid.py:930-952 | removing a key from compact slots is `ListRelease` on the key list, compacted and zero-filled |
| UsbHidKeyboard.ReservedPressDropsOldest | lib/usb_hid.py:913-928 | pressing code 0 changes nothing when a slot is free, and drops the oldest key when all six are taken |
| UsbHidKeyboard.CompactPreserved | lib/usb_hid.py:906-952 | compactness is kept by adding any key code 0..255 (which never raises) and by removing any key |
| UsbHidKeyboard.AddOutOfRange | lib/usb_hid.py:913-928 | a key code outside 0..255 raises; with a free slot nothing changed, with six keys the shuffle already ran and the slots are left non-compact |
| UsbHidKeyboard.ListReleaseOrder | lib/usb_hid.py:940-952 | releasing an absent key is a no-op; releasing a held key removes it and keeps the others in order |
| UsbHidKeyboard.PressReleaseRoundTrip | lib/usb_hid.py:913-952 | pressing a new key and releasing it gives the key list back when no key was dropped |
| UsbHidKeyboard.PressAllNewest | lib/usb_hid.py:925-928 | distinct presses on the newest six keys of a sequence leave the newest six of the longer sequence |
| UsbHidKeyboard.DistinctPressesKeepNewest | lib/usb_hid.py:925-928 | distinct key presses from nothing leave the last six in press order (seven presses drop the first) |
| UsbHidKeyboard.AfterPressMatchesList | lib/usb_hid.py:872-873 | `press`'s loop over regular keys acts as `ListPressAll` on the held keys and leaves bytes 0 and 1 alone |
| UsbHidKeyboard.PressTouches | lib/usb_hid.py:906-912 | a modifier press only ORs its bit into byte 0 (bytes 1..7 unchanged); a regular key never changes bytes 0 and 1 |
| UsbHidKeyboard.ReleaseTouches | lib/usb_hid.py:930-935 | a modifier release only clears its bit in byte 0; a regular key never changes bytes 0 and 1 |
| UsbHidKeyboard.Keyboard.constructor | lib/usb_hid.py:823-848 | a new keyboard has an all-zero report and has sent it once |
| UsbHidKeyboard.Keyboard.SearchSlots | lib/usb_hid.py:915-924 | the search loop returns `AddStop` of the slots |
| UsbHidKeyboard.Keyboard.ShuffleDown | lib/usb_hid.py:926-927 | the shuffle loop moves slots 1..5 to 0..4 and leaves the rest |
| UsbHidKeyboard.Keyboard.AddKeycodeToReport | lib/usb_hid.py:906-928 | the report becomes `AddedReport` of the old one; ValueError exactly when that raises |
| UsbHidKeyboard.Keyboard.CompactSlots | lib/usb_hid.py:939-948 | the compacting loop writes `Kept` (the used slots without the key) into the first slots and returns its length |
| UsbHidKeyboard.Keyboard.ClearFrom | lib/usb_hid.py:950-952 | the clearing loop zeroes the taken slots from j up to the first empty one |
| UsbHidKeyboard.Keyboard.RemoveKeycodeFromReport | lib/usb_hid.py:930-952 | the report becomes `RemovedReport` of the old one |
| UsbHidKeyboard.Keyboard.RemoveFromSlotsInPlace | lib/usb_hid.py:937-952 | the two loops together leave `RemoveFromSlots` of the old slots |
| UsbHidKeyboard.Keyboard.Press | lib/usb_hid.py:850-874 | the report becomes `AfterPress` of the old one and is sent once; a key that raises stops the loop and nothing is sent |
| UsbHidKeyboard.Keyboard.Release | lib/usb_hid.py:876-890 | the report becomes `AfterRelease` of the old one and is sent once |
| UsbHidKeyboard.Keyboard.ReleaseAll | lib/usb_hid.py:892-896 | all eight bytes are zero and that report is sent |
| UsbHidKeyboard.Keyboard.Send | lib/usb_hid.py:898-904 | press then release all: the pressed report and an empty one are sent; a press that raises skips the release |
| UsbHidKeyboard.LedOn | lib/usb_hid.py:963-985 | for any int code, an LED is on exactly when the code's low byte shares a bit with the first byte of the LED status, as Python's `&` with a byte gives; code -1 asks whether any LED is on |
| UsbHidKeyboard.Open | lib/usb_hid.py:816-848 | `Keyboard(devices)`: a keyboard on a device with usage page 1 and usage 6, with a zero report sent; ValueError exactly when no device matches |
| UsbHidMouse.Limit | lib/usb_hid.py:1129-1130 | `_limit` clamps to -127..127, keeps in-range values, moves toward zero and keeps nonzero values nonzero |
| UsbHidMouse.StepsAfterLimit | lib/usb_hid.py:1109-1119 | one clamped step leaves one step fewer to go |
| UsbHidMouse.MoveReportsEmpty | lib/usb_hid.py:1109 | `move` sends no report exactly when x, y and wheel are all 0 |
| UsbHidMouse.MoveReportsBounded | lib/usb_hid.py:1109-1119 | every report `move` sends is 4 bytes, keeps the button byte and carries deltas in -127..127 stored as `v & 0xFF` |
| UsbHidMouse.MoveReportsSum | lib/usb_hid.py:1109-1119 | the signed deltas of the reports add up exactly to x, y and wheel |
| UsbHidMouse.MoveReportsCount | lib/usb_hid.py:1109-1119 | the number of reports is the most steps of 127 any axis needs, so the loop terminates |
| UsbHidMouse.MoveStep | lib/usb_hid.py:1109-1119 | one pass of the loop appends the first clamped report, and what remains to send is `MoveReports` of what is left |
| UsbHidMouse.MoveLast | lib/usb_hid.py:1109-1119 | after the loop, the last report sent is the last one `move` produced, and none was sent exactly when none was produced |
| UsbHidMouse.PressedReport | lib/usb_hid.py:1034-1049 | `report[0] \|= buttons` sets exactly the union of bits and clears the deltas; no report when the result is not a byte |
| UsbHidMouse.ReleasedReport | lib/usb_hid.py:1051-1058 | `report[0] &= ~buttons` keeps exactly the bits not in buttons and clears the deltas |
| UsbHidMouse.ClickRestoresButtons | lib/usb_hid.py:1065-1081 | pressing buttons that were up and releasing them gives back the button byte |
| UsbHidMouse.Mouse.constructor | lib/usb_hid.py:1017-1032 | a new mouse has an all-zero report and has sent it once |
| UsbHidMouse.Mouse.SendNoMove | lib/usb_hid.py:1121-1126 | the deltas are zeroed, the button byte kept, and the report sent |
| UsbHidMouse.Mouse.Press | lib/usb_hid.py:1034-1049 | the report becomes `PressedReport` and is sent; ValueError with nothing changed when the OR leaves a byte |
| UsbHidMouse.Mouse.Release | lib/usb_hid.py:1051-1058 | the report becomes `ReleasedReport` and is sent |
| UsbHidMouse.Mouse.ReleaseAll | lib/usb_hid.py:1060-1063 | the report is all zero and sent |
| UsbHidMouse.Mouse.Click | lib/usb_hid.py:1065-1081 | press then release: two reports; a press that raises skips the release |
| UsbHidMouse.Mouse.SendDeltas | lib/usb_hid.py:1113-1116 | bytes 1..3 become the deltas `& 0xFF` and the report is sent |
| UsbHidMouse.Mouse.Move | lib/usb_hid.py:1083-1119 | the reports sent are `MoveReports` of the button byte and the distances; the button byte is unchanged |
| UsbHidMouse.Open | lib/usb_hid.py:1010-1032 | `Mouse(devices)`: a mouse on a device with usage page 1 and usage 2; ValueError exactly when none matches |
| Keycode.ModifierBit | lib/evdev_converter.py:308-314 | `modifier_bit(k)` is nonzero exactly for 0xE0..0xE7, and is then `1 << (k - 0xE0)`, within one byte |
| Keycode.ModifierBitOf | lib/evdev_converter.py:308-314 | modifier number n has the bit 2^n, in 1..128 |
| Keycode.ModifierBitSingle | lib/evdev_converter.py:308-314 | a modifier's bit is the single bit number k - 0xE0 |
| Keycode.ModifierBitsDisjoint | lib/evdev_converter.py:308-314 | distinct modifiers have distinct bits with nothing in common |
| EvdevConverter.EntriesFacts | lib/evdev_converter.py:316-478 | every entry's code lies between KEY_RESERVED and BTN_MIDDLE and its usage fits a slot byte |
| EvdevConverter.ReservedAndUnmapped | lib/evdev_converter.py:316-488 | KEY_RESERVED maps to 0x00; an unmapped code such as BTN_MISC or -1 gives None |
| EvdevConverter.MouseButtonsMapToMasks | lib/evdev_converter.py:475-477 | BTN_LEFT, BTN_RIGHT and BTN_MIDDLE map to the `Mouse` masks 1, 2 and 4 |
| EvdevConverter.ValuesFitReportByte | lib/evdev_converter.py:316-478 | every mapped usage is at most 0xFB and every mapped code within KEY_RESERVED..BTN_MIDDLE |
| EvdevConverter.ModifierExactlyForModifierCodes | lib/evdev_converter.py:316-478 | for a mapped code, `modifier_bit(to_hid_key(k)) != 0` exactly when k is one of the eight Ctrl/Shift/Alt/Meta codes, all of which are mapped |
| Evdev.KeyboardSectionFacts | src/bluetooth_2_usb/evdev.py:1043-1167 | the keyboard section maps to keyboard usages at most 0xFF, and to mouse buttons exactly for the three mouse codes |
| Evdev.ConsumerSectionFacts | src/bluetooth_2_usb/evdev.py:1169-1311 | every code of the consumer section maps to a consumer usage and is in `_CONSUMER_KEYS`, and conversely |
| Evdev.ConsumerKeysAreNotMouseButtons | src/bluetooth_2_usb/evdev.py:1316-1472 | `_CONSUMER_KEYS` and `_MOUSE_BUTTONS` are disjoint |
| Evdev.TableAgreesWithClassification | src/bluetooth_2_usb/evdev.py:1043-1472 | every consumer key is mapped; an entry is a consumer usage iff its code is a consumer key and a mouse button usage iff its code is a mouse button; keyboard usages fit a byte |
| Evdev.RepeatedKeysKeepLaterEntry | src/bluetooth_2_usb/evdev.py:1111-1219 | KEY_PAUSE and KEY_POWER are the only codes in both sections; the later consumer entries win, consistent with both being consumer keys |
| Evdev.MappedAndUnmapped | src/bluetooth_2_usb/evdev.py:1043-1312 | KEY_A maps to Keycode.A, BTN_LEFT to MouseButton.LEFT, BTN_MISC to a consumer usage; KEY_RESERVED and -1 are unmapped |
| Evdev.GetHidCodeType | src/bluetooth_2_usb/evdev.py:1520-1535 | consumer codes exactly for consumer keys, mouse buttons exactly for the three mouse codes, `Keycode` for every other code |
| Evdev.EvdevToUsbHid | src/bluetooth_2_usb/evdev.py:1476-1487 | the usage is None exactly for unmapped codes, and its kind agrees with `_get_hid_code_type` |
| Evdev.TranslationIgnoresKeyState | src/bluetooth_2_usb/evdev.py:1476-1487 | two events with the same scancode translate alike, whatever their key state |
| Evdev.GetMouseMovement | src/bluetooth_2_usb/evdev.py:1538-1547 | REL_X gives (v,0,0), REL_Y (0,v,0), REL_WHEEL (0,0,v), any other code (0,0,0) |
| Evdev.MovementHasOneAxis | src/bluetooth_2_usb/evdev.py:1538-1547 | at most one component is nonzero, the components add up to v for the three axes, and REL_HWHEEL gives (0,0,0) |
| Evdev.FindKeyName | src/bluetooth_2_usb/evdev.py:1490-1497 | the name returned is that of an attribute with the scancode's value and a `KEY_` or `BTN_` prefix; None exactly when there is none |
| Evdev.FindKeyNameIsLeast | src/bluetooth_2_usb/evdev.py:1490-1497 | over a sorted `dir()` listing the name found is the least such name and the first in the listing |
| Evdev.MouseAfterLeft | src/bluetooth_2_usb/evdev.py:1490-1497 | "BTN_LEFT" sorts before "BTN_MOUSE" |
| Evdev.LeftButtonName | src/bluetooth_2_usb/evdev.py:1490-1497 | BTN_MOUSE is an alias of BTN_LEFT (0x110), and the search names 0x110 "BTN_LEFT", not "BTN_MOUSE" |
| Strings.ContainsAt | src/bluetooth_2_usb/relay.py:110 | `sub in s` holds exactly when sub occurs at some position of s |
| Strings.ContainsEmpty | src/bluetooth_2_usb/relay.py:110 | the empty string is in every string |
| Strings.Lower | src/bluetooth_2_usb/relay.py:102-103 | `lower` keeps the length and lower-cases each ASCII letter |
| Strings.LowerIdempotent | src/bluetooth_2_usb/relay.py:102-103 | lower-casing twice is lower-casing once |
| Strings.Replace | src/bluetooth_2_usb/relay.py:102 | `replace(a, b)` on one character: each a becomes b, every other character stays |
| Relay.DropFinalNewline | src/bluetooth_2_usb/relay.py:30-31 | what `$` accepts: the string itself, or the string without one final newline |
| Relay.Classify | src/bluetooth_2_usb/relay.py:91-96 | PATH exactly for the path pattern, MAC exactly for the MAC pattern when not a path, NAME otherwise: total and exclusive |
| Relay.MacIsNotPath | src/bluetooth_2_usb/relay.py:30-31 | no string has both patterns |
| Relay.ClassifyExamples | src/bluetooth_2_usb/relay.py:30-31 | an event node (with or without a final newline) is a path, /dev/input/mice is a name, mixed `:`/`-` separators make a MAC, five pairs make a name |
| Relay.NormalizeIdempotent | src/bluetooth_2_usb/relay.py:98-103 | normalising a normalised value changes nothing |
| Relay.NewDeviceIdentifier | src/bluetooth_2_usb/relay.py:68-103 | type and normalised form computed once: a path kept, a name lower-cased, a MAC lower-cased with `-` turned into `:` and still a MAC |
| Relay.NormalizedMac | src/bluetooth_2_usb/relay.py:102 | the normalised form of a MAC address still has the MAC pattern |
| Relay.EmptyNameMatchesEveryDevice | src/bluetooth_2_usb/relay.py:105-110 | the empty identifier is a name and matches every device |
| Relay.PathMatchesOneNode | src/bluetooth_2_usb/relay.py:105-107 | a path identifier matches exactly the device whose path equals it, case included |
| Relay.MacMatchesNormalizedUniq | src/bluetooth_2_usb/relay.py:108-109 | a MAC identifier matches exactly when the normalised form equals `uniq` as reported, so a `uniq` with upper case or `-` never matches |
| Relay.NameMatchIgnoresCase | src/bluetooth_2_usb/relay.py:110 | a name identifier's match does not depend on the case of the device name |
| Relay.MatchesAny | src/bluetooth_2_usb/relay.py:240-241 | `any(...)` holds exactly when some identifier matches |
| Relay.ShouldRelay | src/bluetooth_2_usb/relay.py:231-241 | with no identifiers and auto-discovery off, nothing is relayed |
| Relay.DiscoverAppends | src/bluetooth_2_usb/relay.py:213-228 | a pass keeps the old tasks first, adds only distinct new paths, each of a listed device that met the criteria |
| Relay.DiscoverCovers | src/bluetooth_2_usb/relay.py:213-228 | without cancellation, every listed device that meets the criteria has a task afterwards |
| Relay.DiscoverCancelled | src/bluetooth_2_usb/relay.py:215-216 | once `_cancelled` is set, a pass creates no task |
| Relay.DiscoverNothingNew | src/bluetooth_2_usb/relay.py:227-232 | a pass in which every admissible path is already a task changes nothing |
| Relay.DiscoverIdempotent | src/bluetooth_2_usb/relay.py:227-235 | a second pass over the same devices adds nothing: one task per path |
| Relay.RemoveTask | src/bluetooth_2_usb/relay.py:234-235 | a finished task leaves the list of task names: exactly the others remain |
| Relay.RemoveTaskDistinct | src/bluetooth_2_usb/relay.py:234-235 | removing a task keeps the list of task names distinct |
| Relay.RelayController.constructor | src/bluetooth_2_usb/relay.py:192-203 | a missing identifier list counts as empty; one identifier per string; not cancelled, no tasks |
| Relay.RelayController.DiscoverPass | src/bluetooth_2_usb/relay.py:213-229 | the list of tasks becomes `Discover` of the old one; `_cancelled` unchanged |
| Relay.RelayController.RelayEnded | src/bluetooth_2_usb/relay.py:246-258 | the ending task leaves the list of tasks, and a cancellation sets `_cancelled` |
| Relay.OutputChannel | src/bluetooth_2_usb/relay.py:179-184 | consumer keys go to the consumer control, mouse buttons to the mouse, every other key to the keyboard |
| Relay.SendKey | src/bluetooth_2_usb/relay.py:161-176 | a press exactly on key-down, a release exactly on key-up, of the translated usage on its channel; nothing on hold or without a usage or name; RuntimeError when the gadget is not set |
| Relay.MoveMouse | src/bluetooth_2_usb/relay.py:149-158 | RuntimeError exactly when the mouse gadget is not set, otherwise the movement of the event |
| Relay.RelayEvent | src/bluetooth_2_usb/relay.py:136-146 | relative events move the mouse, key events send keys, other events give nothing |
| Relay.UsbGadgets.constructor | src/bluetooth_2_usb/relay.py:44-64 | at import time no gadget is set |
| Relay.UsbGadgets.InitUsbGadgets | src/bluetooth_2_usb/relay.py:44-58 | all three gadgets are set |
| Relay.UsbGadgets.PrepareRelay | src/bluetooth_2_usb/relay.py:114-120 | afterwards all gadgets are ready; nothing changes when they were |
| Relay.ReadyGadgetsNeverFail | src/bluetooth_2_usb/relay.py:161-184 | with every gadget set no key fails, and each translated key-down or key-up reaches its channel |
| LegacyRelay.ClassificationAgrees | bluetooth_2_usb/relay.py:63-70 | testing MAC before PATH classifies every string as the later relay does |
| LegacyRelay.NewInputDeviceIdentifier | bluetooth_2_usb/relay.py:39-78 | the earlier identifier has the same type and normalised value as the later one |
| LegacyRelay.MatchesLegacy | bluetooth_2_usb/relay.py:80-86 | the earlier `matches` agrees with the later one for every identifier and device |
| LegacyRelay.HdmiNeedsIdentifier | bluetooth_2_usb/relay.py:197-201 | a device whose name contains `vc4-hdmi-` is relayed only when an identifier matches it |
| LegacyRelay.DiscoverLegacyExtends | bluetooth_2_usb/relay.py:189-219 | a pass never replaces or removes a task; each new entry is a listed device, under its path, meeting the criteria |
| LegacyRelay.DiscoverLegacyCovers | bluetooth_2_usb/relay.py:189-198 | after a pass every listed device that meets the criteria has a task under its path |
| LegacyRelay.DiscoverLegacyNothingNew | bluetooth_2_usb/relay.py:189-198 | a pass whose admissible paths all have tasks changes nothing |
| LegacyRelay.DiscoverLegacyIdempotent | bluetooth_2_usb/relay.py:189-213 | a second pass over the same devices adds nothing |
| LegacyRelay.DiscoverRoundsRepeat | bluetooth_2_usb/relay.py:183-187 | rounds of `_discover_devices_loop` that list the same devices leave the table of the first pass |
| LegacyRelay.LegacyRelayController.constructor | bluetooth_2_usb/relay.py:155-167 | a missing list counts as empty; one identifier per string; no tasks, and `_discovery_task` None |
| LegacyRelay.LegacyRelayController.MatchesIdentifier | bluetooth_2_usb/relay.py:203-210 | the loop over all identifiers, without short cut, returns whether any matches |
| LegacyRelay.LegacyRelayController.ShouldRelay | bluetooth_2_usb/relay.py:194-213 | the path has no task and the device is auto-discoverable or matched |
| LegacyRelay.LegacyRelayController.CreateDeviceTask | bluetooth_2_usb/relay.py:215-219 | the table of relay tasks gains the device under its path |
| LegacyRelay.LegacyRelayController.DiscoverDevices | bluetooth_2_usb/relay.py:189-192 | one pass: the table becomes `DiscoverLegacy` of the old one; `_discovery_task` unchanged |
| LegacyRelay.LegacyRelayController.CreateDiscoveryTask | bluetooth_2_usb/relay.py:177-187 | as written: running the blocking loop to build the argument of `create_task` performs `DiscoverRounds` on the table, and `_discovery_task` is never assigned |
| LegacyRelay.LegacyRelayController.CreateDiscoveryTaskIntended | bluetooth_2_usb/relay.py:177-181 | as intended: the created discovery task is stored, not cancelled, and the table is unchanged |
| LegacyRelay.LegacyRelayController.CancelDeviceTask | bluetooth_2_usb/relay.py:237-240 | the entry under the path is popped and returned; popping an absent path is a no-op |
| LegacyRelay.LegacyRelayController.RelayExited | bluetooth_2_usb/relay.py:221-240 | as written: the state and escaping exception are `RelayExitAsWritten`; a constructor failure keeps the entry, a cancellation with no discovery task raises AttributeError after the entry is popped, other exits pop it |
| LegacyRelay.LegacyRelayController.RelayExitedIntended | bluetooth_2_usb/relay.py:221-240 | as intended, with a discovery task: the state is `RelayExitIntended`, so every exit pops the entry |
| LegacyRelay.ConstructorFailureBlocksRediscovery | bluetooth_2_usb/relay.py:221-235 | as written, when `InputDeviceRelay(device)` raises, the entry stays, the error escapes, and `_should_relay` never admits the device again |
| LegacyRelay.CancellationRaisesAttributeError | bluetooth_2_usb/relay.py:226-228 | as written, with `_discovery_task` None, a cancellation pops the entry, cancels nothing and raises AttributeError |
| LegacyRelay.IntendedExitFreesPath | bluetooth_2_usb/relay.py:221-240 | as intended, every exit frees the path so the device is admitted again exactly when it meets the criteria, nothing escapes, and the discovery task is cancelled exactly on a cancellation |
| LegacyRelay.AsWrittenAgreesElsewhere | bluetooth_2_usb/relay.py:224-235 | for exits inside the `try`, with a discovery task present, the code as written does what was intended |
| LegacyRelay.SendKeyLegacy | bluetooth_2_usb/relay.py:118-138 | a press exactly on key-down and a release exactly on key-up of a mapped key, on its channel; nothing otherwise |
| LegacyRelay.SendKeyAgrees | bluetooth_2_usb/relay.py:118-138 | with the gadgets ready, the later relay sends a key as the earlier one does whenever a usage name is found, and nothing when none is |
| LegacyRelay.RelaySingleEvent | bluetooth_2_usb/relay.py:110-116 | key events send keys, relative events (exactly those) move the mouse, others give nothing; never fails |
| HidCodes.HidToKeyInverse | libs/hid_codes.py:29-244 | a reference inverse gives every key back from its usage |
| HidCodes.KeyToHidInjective | libs/hid_codes.py:29-244 | two keys have the same usage exactly when they are the same key |
| HidCodes.LetterCodes | libs/hid_codes.py:32-62 | KEY_NONE is 0 and KEY_A..KEY_Z are the consecutive usages 0x04..0x1D |
| HidCodes.LetterNames | libs/hid_codes.py:32-62 | the keys so numbered are named KEY_NONE, KEY_A and KEY_Z |
| HidCodes.ModBitIsPow2 | libs/hid_codes.py:17-27 | the `ds_MOD_CODES` values are the single bits 0x01..0x80 in order |
| HidCodes.ModifierUsages | libs/hid_codes.py:236-243 | the modifiers of `ds_KEY_TO_HID` are 0xE0..0xE7 under the same names and order, so each mask bit is `1 << (usage - 0xE0)` |
| HidCodes.ModifierUsagesExact | libs/hid_codes.py:29-244 | no other key has a usage in 0xE0..0xE7 |
| HidCodes.ModBitsDisjoint | libs/hid_codes.py:17-27 | distinct modifiers have bits with nothing in common |
| HidCodes.FindKeyFrom | libs/hid_codes.py:29-244 | the search finds a key at or after its start |
| HidCodes.FindKeyFromFound | libs/hid_codes.py:29-244 | a key found has the name searched for, and no key before it does |
| HidCodes.FindKeyFromNone | libs/hid_codes.py:29-244 | the search fails exactly when no key from the start on has the name |
| HidCodes.FindKeyCorrect | libs/hid_codes.py:29-244 | the key found has the name; none is found exactly when no key has it |
| HidCodes.LookupHid | libs/keyboard.py:59 | `ds_KEY_TO_HID[s]`: the usage of the key named s, KeyError(s) exactly when there is none |
| HidCodes.LookupHidCorrect | libs/hid_codes.py:29-244 | the lookup succeeds exactly for the names of the table and gives the usage stored under the name |
| HidCodes.LookupHidInjective | libs/hid_codes.py:29-244 | two names found with the same usage are the same name |
| HidCodes.FindModifier | libs/keyboard.py:42-43 | the modifier of the name, none exactly when no modifier is so named |
| HidCodes.InverseExact | libs/hid_codes.py:296-298 | whatever order the loop visits the keys in, each visited key's usage maps to its name, and every entry comes from a visited key |
| HidCodes.BuildHidToKey | libs/hid_codes.py:296-298 | the loop builds `Inverse` of the visiting order |
| HidCodes.HidToKeyRoundTrip | libs/hid_codes.py:296-298 | `ds_HID_TO_KEY[ds_KEY_TO_HID[k]] == k` for every key, in any visiting order |
| LegacyKeyboard.IndexOf | libs/keyboard.py:187 | `list.index`: the first position holding the key |
| LegacyKeyboard.ActivateKeeps | libs/keyboard.py:173-178 | the list stays within six distinct keys and holds the key; a new key is appended, popping the oldest when six are down |
| LegacyKeyboard.ActivateIdempotent | libs/keyboard.py:173 | activating a key twice is activating it once |
| LegacyKeyboard.DeactivateRemoves | libs/keyboard.py:186-187 | an absent key is a no-op; a present key is removed with the others in order |
| LegacyKeyboard.ActivateDeactivate | libs/keyboard.py:173-187 | activating a new key and deactivating it gives the list back when nothing was popped |
| LegacyKeyboard.ModSumBits | libs/keyboard.py:198-205 | summing the active modifiers' bits is ORing them, below 256, with bit j set exactly for active modifier j |
| LegacyKeyboard.ModMask | libs/keyboard.py:198-205 | the modifier byte has bit j set exactly when modifier j is active and no higher bit |
| LegacyKeyboard.ModMaskUnique | libs/keyboard.py:198-205 | a byte with exactly the active modifiers' bits is the modifier byte |
| LegacyKeyboard.Codes | libs/keyboard.py:58-60 | the looked-up usages have one entry per key |
| LegacyKeyboard.CodesOk | libs/keyboard.py:58-60 | the codes exist exactly when every name is found, and are then the usages in list order |
| LegacyKeyboard.CodesError | libs/keyboard.py:58-60 | the error is that of the first name that is not found |
| LegacyKeyboard.LookupCodes | libs/keyboard.py:58-60 | the lookup loop returns `Codes` of the names |
| LegacyKeyboard.Command | libs/keyboard.py:54-71 | `[mod, 0] ++ usages in list order ++ zero fill`, 8 bytes for at most six keys; KeyError for a missing name |
| LegacyKeyboard.CommandUnknownKey | libs/keyboard.py:58-60 | the KeyError names the first pressed key missing from `ds_KEY_TO_HID` |
| LegacyKeyboard.InitialCommand | libs/keyboard.py:16-71 | no key and no modifier give eight zero bytes |
| LegacyKeyboard.LookupHidIsInjective | libs/hid_codes.py:29-244 | distinct names found in `ds_KEY_TO_HID` have distinct usages |
| LegacyKeyboard.ActivateMatchesList | libs/keyboard.py:173-178 | under an injective lookup, encoding after `activate_key` is the newer keyboard's `ListPress` on the encoded keys |
| LegacyKeyboard.CodesMember | libs/keyboard.py:58-60 | under an injective lookup a name is down exactly when its usage is among the codes |
| LegacyKeyboard.ActivateMatchesUsbHid | libs/keyboard.py:173-178 | the same for `ds_KEY_TO_HID`: the two keyboards keep the same rollover order |
| LegacyKeyboard.HidKeyboard.constructor | libs/keyboard.py:16-25 | no key down and all eight modifiers off |
| LegacyKeyboard.HidKeyboard.ModifierSet | libs/keyboard.py:35-45 | stores `bool(value)` for a modifier name; ValueError('Invalid modifier name "…"') with nothing changed otherwise |
| LegacyKeyboard.HidKeyboard.ActivateKey | libs/keyboard.py:158-178 | the key list becomes `Activate` of the old one |
| LegacyKeyboard.HidKeyboard.DeactivateKey | libs/keyboard.py:180-187 | the key list becomes `Deactivate` of the old one |
| LegacyKeyboard.HidKeyboard.ModByte | libs/keyboard.py:189-205 | in any visiting order of the modifiers the loop returns `ModMask` of the flags |
| LegacyKeyboard.HidKeyboard.KeyCodes | libs/keyboard.py:58-60 | the usages of the pressed keys, or the KeyError of the first missing one |
| LegacyKeyboard.HidKeyboard.ToHidCommand | libs/keyboard.py:47-71 | the result is `Command` of the modifier byte and the key list |
| DeviceLink.Forwarded | lib/device_link.py:23-46 | an action on a `DummyGadget` reaches no gadget; on a real one it reaches that gadget |
| DeviceLink.DummyLedOn | lib/device_link.py:39-40 | `led_on` of a dummy is always False |
| DeviceLink.GadgetOrDummy | lib/device_link.py:127-134 | enabled: the gadget itself (possibly None); disabled: a dummy around a gadget, None for none |
| DeviceLink.DisabledForwardsNothing | lib/device_link.py:127-134 | while disabled no action through a handle reaches a gadget; while enabled it reaches the gadget given |
| DeviceLink.Present | lib/device_link.py:67-71 | the comprehension keeps exactly the gadgets that are not None |
| DeviceLink.ActiveGadgets | lib/device_link.py:67-71 | the gadgets given, in the order keyboard, mouse, consumer control, without the missing ones |
| DeviceLink.DeviceLink.constructor | lib/device_link.py:50-71 | a new link is disconnected, named "[Disconnected] <path>", with gadgets enabled and the active gadgets fixed |
| DeviceLink.DeviceLink.SetGadgetsEnabled | lib/device_link.py:115-134 | the flag changes and nothing else |
| DeviceLink.DeviceLink.ResetInputDevice | lib/device_link.py:97-101 | the device is cleared and the disconnected name restored; only a successful open connects and takes the device's name; a failed one raises |
| DeviceLink.DeviceLink.AsyncResetInputDevice | lib/device_link.py:103-113 | attempts are made until one succeeds, which connects with its name; while all fail the link stays disconnected |

## Findings

| source | as written | input that shows it | evidently intended | confidence | as-written member | corrected member |
|---|---|---|---|---|---|---|
| bluetooth_2_usb/relay.py:177-228 | `_discover_devices_loop` is a plain function, so `create_task(self._discover_devices_loop(), ...)` runs the loop while computing its argument and never returns; `_discovery_task` stays None, so a relay task's CancelledError handler calls `None.cancel()` | a relay task receiving CancelledError: the entry is popped, nothing is cancelled and AttributeError escapes (`LegacyRelay.CancellationRaisesAttributeError`); no task created at line 216 gets to run at all, since the event loop never regains control | the discovery loop is a task stored in `_discovery_task`, and a cancellation cancels it | high (not executed) | LegacyRelay.LegacyRelayController.RelayExited | LegacyRelay.LegacyRelayController.RelayExitedIntended |
| bluetooth_2_usb/relay.py:221-235 | `relay = InputDeviceRelay(device)` comes before the `try`, so an exception from the gadget constructors skips the `finally` clause | a device relayed when `find_device` raises ValueError for a missing gadget, or `release_all` raises OSError twice: the path stays in `_device_tasks` and `_should_relay` never admits the device again (`LegacyRelay.ConstructorFailureBlocksRediscovery`) | every exit pops the entry so the device can be rediscovered (`LegacyRelay.IntendedExitFreesPath`) | high (not executed) | LegacyRelay.ConstructorFailureBlocksRediscovery | LegacyRelay.IntendedExitFreesPath |

## Left out

- UsbHid.FindDevice: `find_device` also accepts a single device, which it wraps in a list, and skips devices without a `send_report` attribute. Every caller passes `usb_hid.devices`, a list of `Device` objects that all have one, so the model takes a sequence of devices.
- Relay.UsbGadgets.InitUsbGadgets: the gadget constructors `Keyboard`, `Mouse` and `ConsumerControl` are taken to return. Each can raise: ValueError from `find_device`, or OSError when the `release_all` retry in lib/usb_hid.py:843-847 fails twice. In that case the gadgets after the failing one stay None and the error leaves `DeviceRelay.__init__`. The model does not capture this.
- UsbHid.SendReportErrors: which report IDs have a `hid.usb<id>` gadget function, and the node each names, is a parameter, because `get_device_path` reads configfs. Failures of `open` and `write` on an existing node are not modelled.
- Gadget configfs setup and teardown (`enable`, `disable`, the UDC binding, `get_last_received_report`; `get_device_path` only through the `nodes` parameter of `SendReport`): file-system and kernel I/O. A sent report is appended to a `sent` trace instead of written to a device node.
- `Device.BOOT_KEYBOARD` and `Device.BOOT_MOUSE` (lib/usb_hid.py:310-459): these descriptors are not used by the relay's devices, so they are not part of this model.
- asyncio event loops, `TaskGroup`, `run_in_executor`, sleeps and logging. A discovery round is one synchronous pass over a list of devices given as a parameter, and the relay tasks are named by their paths.
- Relay.ShouldRelay: `_has_task` looks at `asyncio.all_tasks()`. The model looks at the list of relay task names the controller has created, so tasks with the same name started elsewhere are not modelled.
- Relay.RelayController.DiscoverPass: `_async_discover_devices` is an infinite async generator. One call models one round of its `while True` loop, and `_cancelled` is read once per device, as the source does.
- LegacyRelay.LegacyRelayController.RelayExited: the relay loop itself is not modelled; how it ends is a parameter (`RelayExit`). As written, no relay task of this controller ever runs, because the discovery loop never gives control back to the event loop; the exit is modelled as the code would behave if it did run.
- LegacyRelay.LegacyRelayController.CreateDiscoveryTask: the infinite `while True` loop and its `time.sleep(1)` are modelled by a finite list of rounds that have run so far.
- `categorize` is taken as given: an input event arrives already as a key event, a relative event or another event.
- Values of adafruit `ConsumerControlCode` and `MouseButton`: not visible, so consumer and mouse usages are kept by name (`Usage.Consumer`, `Usage.Button`), and no consumer-control encoder is modelled.
- `Keycode` of adafruit_hid, used by src/bluetooth_2_usb/evdev.py: assumed to equal the copy in lib/evdev_converter.py. `KEYPAD_COMMA`, which that copy lacks, is taken as usage 0x85 (HID Usage Tables 1.12, section 10).
- `find_usage_name` reflects over foreign classes with `lru_cache`. It is a parameter (`UsageNamer`) that may return None.
- `find_key_name`: the `dir(ecodes)` listing is a parameter (`Evdev.Attribute` entries). Its sortedness is an assumption of `FindKeyNameIsLeast`, not a fact of the model.
- Evdev.FindKeyName: the `lru_cache` of `_cached_getattr` and `_cached_dir` is not modelled; it does not change results.
- Strings.Lower: only ASCII letters are lower-cased. Python's Unicode case mapping is not modelled.
- bluetooth_2_usb/evdev.py, imported by bluetooth_2_usb/relay.py, is not part of this model. The translation of src/bluetooth_2_usb/evdev.py stands in for it in `LegacyRelay`.
- Exceptions raised by a gadget's `press`, `release` or `move` are caught and logged by the relays. The model's outputs say which gadget action is asked for, not its outcome.
- HidCodes.BuildHidToKey: Python 2 dict iteration order is not fixed. It is a parameter, and the results hold for every order.
- LegacyKeyboard.HidKeyboard.ModByte: `_db_modifiers` is kept as eight flags by position in `ds_MOD_CODES`, and `iteritems` order is a parameter.
- `chr` and `ord` in libs/keyboard.py and libs/hid_codes.py are modelled as bytes 0..255. The Python 2 str result of `to_hid_command` is the sequence of its bytes.
- Debug and string forms (`__str__`, `__repr__`, `to_debug_command`, `_get_human_modifier`, `_get_human_keys`): only logging output.
- DeviceLink.DeviceLink.ResetInputDevice: opening the evdev device is I/O. Its outcome (the name it reports, or the error raised) is a parameter. `async_reset_input_device`'s outcomes are a sequence of such outcomes, so a link whose every attempt fails within them simply stops after the last one.
- `DeviceLink.active_gadgets` keeps the real gadgets even while gadgets are disabled, as the source does; the dummies appear only through the three gadget properties.
- Script entry points, argument parsing, `bluetooth_usb_proxy.py`, `proxy_loop.py` and `relay_controller.py`: argument handling and async task management, outside the modelled core.
