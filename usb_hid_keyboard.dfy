/**
 * `Keyboard` of lib/usb_hid.py: an 8-byte boot keyboard report kept in place. Byte 0 holds the modifier
 * bits, byte 1 is reserved, and bytes 2..7 are six key slots (`report_keys`, a view onto them). The slots
 * hold the pressed regular keys first, in the order they were pressed, then zeros; a seventh key pushes the
 * oldest one out.
 *
 * The list view of the slots (`Keys`, `SlotsOf`, `ListPress`, `ListRelease`) is the reference the in-place
 * loops are proved against.
 */
module UsbHidKeyboard {
  import opened Wrappers
  import opened Bytes
  import Keycode
  import UsbHid

  /** `_MAX_KEYPRESSES`: the number of key slots. */
  const MAX_KEYPRESSES := 6
  /** Index of the first key slot in the report. */
  const KEYS := 2
  const REPORT_LENGTH := 8
  /** What CPython raises when a value outside 0..255 is stored through a memoryview of unsigned bytes. */
  const MEMORYVIEW_MESSAGE := "memoryview: invalid value for format 'B'"

  function Zeros(n: nat): (z: seq<byte>)
    ensures |z| == n
    ensures forall i :: 0 <= i < n ==> z[i] == 0
  {
    if n == 0 then [] else [0] + Zeros(n - 1)
  }

  /** A report after a change, and whether the change stopped on a raised ValueError. Python leaves the
      bytes it already wrote in place when it raises. */
  datatype Outcome = Outcome(bytes: seq<byte>, raised: bool)

  // ---------------------------------------------------------------------------------------------------
  // The slots as the source's loops see them.

  /** Where the search in `_add_keycode_to_report` stops: the first slot that is empty or already holds k,
      or the number of slots when there is none. */
  function AddStop(slots: seq<byte>, k: int): (i: nat)
    ensures i <= |slots|
    ensures forall j :: 0 <= j < i ==> slots[j] != 0 && slots[j] != k
    ensures i < |slots| ==> slots[i] == 0 || slots[i] == k
  {
    if slots == [] then 0
    else if slots[0] == 0 || slots[0] == k then 0
    else 1 + AddStop(slots[1..], k)
  }

  /** The first empty slot, or the number of slots when none is empty. */
  function FirstEmpty(slots: seq<byte>): (n: nat)
    ensures n <= |slots|
    ensures forall j :: 0 <= j < n ==> slots[j] != 0
    ensures n < |slots| ==> slots[n] == 0
  {
    if slots == [] then 0
    else if slots[0] == 0 then 0
    else 1 + FirstEmpty(slots[1..])
  }

  /** keys without k, the others in their order. */
  function Without(keys: seq<byte>, k: int): (r: seq<byte>)
    ensures |r| <= |keys|
    ensures forall x :: x in r <==> x in keys && x != k
  {
    if keys == [] then []
    else (if keys[0] == k then [] else [keys[0]]) + Without(keys[1..], k)
  }

  /** `_add_keycode_to_report` on the six slots, for a key that is not a modifier. An empty slot found
      first takes k; a slot that already holds k leaves everything as it is; with every slot taken the keys
      are shuffled down and the last slot takes k. Storing a k outside 0..255 raises, after the shuffle when
      there is one. */
  function AddToSlots(slots: seq<byte>, k: int): (o: Outcome)
    requires |slots| == MAX_KEYPRESSES
    ensures |o.bytes| == MAX_KEYPRESSES
  {
    var i := AddStop(slots, k);
    if i < |slots| then
      if slots[i] != 0 then Outcome(slots, false)
      else if 0 <= k < 256 then Outcome(slots[i := k], false)
      else Outcome(slots, true)
    else if 0 <= k < 256 then Outcome(slots[1..] + [k], false)
    else Outcome(slots[1..] + [slots[|slots| - 1]], true)
  }

  /** `_remove_keycode_from_report` on the six slots, for a key that is not a modifier: the used slots (those
      before the first empty one) lose every copy of k, the rest of them move down in order, and the slots
      they leave are cleared. Slots after the first empty one are not looked at. */
  function RemoveFromSlots(slots: seq<byte>, k: int): (r: seq<byte>)
    ensures |r| == |slots|
  {
    var n := FirstEmpty(slots);
    var kept := Kept(slots, k);
    kept + Zeros(n - |kept|) + slots[n..]
  }

  /** The used slots, without k. */
  function Kept(slots: seq<byte>, k: int): (kept: seq<byte>)
    ensures |kept| <= FirstEmpty(slots)
  {
    Without(slots[..FirstEmpty(slots)], k)
  }

  /** `_add_keycode_to_report` on the whole report: a modifier ORs its bit into byte 0, any other key goes
      to the slots. */
  function AddedReport(report: seq<byte>, k: int): (o: Outcome)
    requires |report| == REPORT_LENGTH
    ensures |o.bytes| == REPORT_LENGTH
  {
    var modifier := Keycode.ModifierBit(k);
    if modifier != 0 then Outcome(report[0 := SetBits(report[0], modifier)], false)
    else
      var o := AddToSlots(report[KEYS..], k);
      Outcome(report[..KEYS] + o.bytes, o.raised)
  }

  /** `_remove_keycode_from_report` on the whole report: a modifier's bit is cleared from byte 0
      (`&= ~modifier`), any other key is removed from the slots. */
  function RemovedReport(report: seq<byte>, k: int): (r: seq<byte>)
    requires |report| == REPORT_LENGTH
    ensures |r| == REPORT_LENGTH
  {
    var modifier := Keycode.ModifierBit(k);
    if modifier != 0 then report[0 := ClearBits(report[0], modifier)]
    else report[..KEYS] + RemoveFromSlots(report[KEYS..], k)
  }

  /** The report after `press`'s loop over keycodes, which stops at the first key that raises. */
  function AfterPress(report: seq<byte>, keycodes: seq<int>): (o: Outcome)
    requires |report| == REPORT_LENGTH
    ensures |o.bytes| == REPORT_LENGTH
    decreases |keycodes|
  {
    if keycodes == [] then Outcome(report, false)
    else
      var o := AddedReport(report, keycodes[0]);
      if o.raised then o else AfterPress(o.bytes, keycodes[1..])
  }

  /** The report after `release`'s loop over keycodes. */
  function AfterRelease(report: seq<byte>, keycodes: seq<int>): (r: seq<byte>)
    requires |report| == REPORT_LENGTH
    ensures |r| == REPORT_LENGTH
    decreases |keycodes|
  {
    if keycodes == [] then report else AfterRelease(RemovedReport(report, keycodes[0]), keycodes[1..])
  }

  // ---------------------------------------------------------------------------------------------------
  // The slots as a list of held keys.

  predicate Distinct(keys: seq<byte>)
  {
    forall i, j :: 0 <= i < j < |keys| ==> keys[i] != keys[j]
  }

  /** A list of held keys the slots can represent: at most six, none of them 0, none twice. */
  predicate KeyList(keys: seq<byte>)
  {
    |keys| <= MAX_KEYPRESSES && 0 !in keys && Distinct(keys)
  }

  /** The keys the slots hold: the used slots before the first empty one. */
  function Keys(slots: seq<byte>): (keys: seq<byte>)
    ensures 0 !in keys
    ensures |keys| <= |slots|
  {
    slots[..FirstEmpty(slots)]
  }

  /** The slots that hold keys: those keys, then empty slots. */
  function SlotsOf(keys: seq<byte>): (slots: seq<byte>)
    requires |keys| <= MAX_KEYPRESSES
    ensures |slots| == MAX_KEYPRESSES
  {
    keys + Zeros(MAX_KEYPRESSES - |keys|)
  }

  /** The state the comments of `_add_keycode_to_report` count on: no used slot after an empty one, and no
      key in two slots. */
  predicate Compact(slots: seq<byte>)
  {
    && |slots| == MAX_KEYPRESSES
    && (forall i, j :: 0 <= i < j < |slots| && slots[i] == 0 ==> slots[j] == 0)
    && (forall i, j :: 0 <= i < j < |slots| && slots[j] != 0 ==> slots[i] != slots[j])
  }

  /** Pressing a regular key on the list of held keys: nothing changes when it is held already; otherwise
      it is appended, after dropping the oldest key when six are held. */
  function ListPress(keys: seq<byte>, k: byte): seq<byte>
  {
    if k in keys then keys
    else if |keys| < MAX_KEYPRESSES then keys + [k]
    else keys[1..] + [k]
  }

  /** Releasing a key on the list of held keys. */
  function ListRelease(keys: seq<byte>, k: int): seq<byte>
  {
    Without(keys, k)
  }

  /** Pressing keys one after the other on the list of held keys. */
  function ListPressAll(keys: seq<byte>, ks: seq<byte>): seq<byte>
    decreases |ks|
  {
    if ks == [] then keys else ListPressAll(ListPress(keys, ks[0]), ks[1..])
  }

  /** The newest six keys of a list. */
  function Newest(keys: seq<byte>): (r: seq<byte>)
    ensures |r| <= MAX_KEYPRESSES
  {
    if |keys| <= MAX_KEYPRESSES then keys else keys[|keys| - MAX_KEYPRESSES..]
  }

  lemma ZerosAppend(a: nat, b: nat)
    ensures Zeros(a) + Zeros(b) == Zeros(a + b)
  {
    assert forall i :: 0 <= i < a + b ==> (Zeros(a) + Zeros(b))[i] == 0;
  }

  lemma FirstEmptyOfSlots(keys: seq<byte>)
    requires |keys| <= MAX_KEYPRESSES && 0 !in keys
    ensures FirstEmpty(SlotsOf(keys)) == |keys|
    ensures SlotsOf(keys)[..|keys|] == keys
  {
    var s := SlotsOf(keys);
    assert s[..|keys|] == keys;
    assert forall j :: 0 <= j < |keys| ==> s[j] == keys[j] && keys[j] in keys;
    if |keys| < MAX_KEYPRESSES {
      assert s[|keys|] == 0;
    }
    FirstEmptyIs(s, |keys|);
  }

  /** The first empty slot is where the slots before are taken and the slot there is empty. */
  lemma FirstEmptyIs(slots: seq<byte>, n: nat)
    requires n <= |slots|
    requires forall j :: 0 <= j < n ==> slots[j] != 0
    requires n < |slots| ==> slots[n] == 0
    ensures FirstEmpty(slots) == n
  {
  }

  /** Where the add search stops, told by the slots before and at that place. */
  lemma AddStopIs(slots: seq<byte>, k: int, n: nat)
    requires n <= |slots|
    requires forall j :: 0 <= j < n ==> slots[j] != 0 && slots[j] != k
    requires n < |slots| ==> slots[n] == 0 || slots[n] == k
    ensures AddStop(slots, k) == n
  {
  }

  /** The slots and the list of held keys correspond one to one: compact slots are the slots of their key
      list, and a key list is read back from its slots. */
  lemma CompactIsSlotsOf(slots: seq<byte>)
    ensures Compact(slots) <==> |slots| == MAX_KEYPRESSES && KeyList(Keys(slots)) && slots == SlotsOf(Keys(slots))
  {
    if |slots| == MAX_KEYPRESSES {
      var n := FirstEmpty(slots);
      var keys := Keys(slots);
      if Compact(slots) {
        forall i | n <= i < |slots| ensures slots[i] == 0 {
          if i > n {
            assert slots[n] == 0;
          }
        }
        assert slots == SlotsOf(keys);
        forall i, j | 0 <= i < j < |keys| ensures keys[i] != keys[j] {
          assert slots[j] != 0;
        }
      }
      if KeyList(keys) && slots == SlotsOf(keys) {
        FirstEmptyOfSlots(keys);
        forall i, j | 0 <= i < j < |slots| && slots[j] != 0 ensures slots[i] != slots[j] {
          assert j < |keys|;
        }
      }
    }
  }

  lemma {:induction false} KeysOfSlotsOf(keys: seq<byte>)
    requires KeyList(keys)
    ensures Keys(SlotsOf(keys)) == keys
    ensures Compact(SlotsOf(keys))
  {
    FirstEmptyOfSlots(keys);
    CompactIsSlotsOf(SlotsOf(keys));
  }

  lemma {:induction false} WithoutDistinct(keys: seq<byte>, k: int)
    requires Distinct(keys)
    ensures Distinct(Without(keys, k))
  {
    if keys != [] {
      WithoutDistinct(keys[1..], k);
      assert keys[0] !in keys[1..] by {
        forall j | 0 <= j < |keys[1..]| ensures keys[1..][j] != keys[0] {
          assert keys[1..][j] == keys[j + 1];
        }
      }
    }
  }

  lemma {:induction false} WithoutAbsent(keys: seq<byte>, k: int)
    requires k !in keys
    ensures Without(keys, k) == keys
  {
    if keys != [] {
      assert keys[0] != k;
      WithoutAbsent(keys[1..], k);
    }
  }

  lemma {:induction false} WithoutAppend(a: seq<byte>, b: seq<byte>, k: int)
    ensures Without(a + b, k) == Without(a, k) + Without(b, k)
  {
    if a != [] {
      assert (a + b)[1..] == a[1..] + b;
      WithoutAppend(a[1..], b, k);
    } else {
      assert a + b == b;
    }
  }

  /** Where the add search stops on the slots of a key list: at k when it is held, else at the first empty
      slot (six when there is none). */
  lemma AddStopOfSlots(keys: seq<byte>, k: int)
    requires KeyList(keys) && k != 0
    ensures k in keys ==> AddStop(SlotsOf(keys), k) < |keys| && keys[AddStop(SlotsOf(keys), k)] == k
    ensures k !in keys ==> AddStop(SlotsOf(keys), k) == |keys|
  {
    var s := SlotsOf(keys);
    var i := AddStop(s, k);
    FirstEmptyOfSlots(keys);
    if i < |keys| {
      assert s[i] == keys[i];
      assert keys[i] in keys;
    }
  }

  // ---------------------------------------------------------------------------------------------------
  // The slots implement the list of held keys.

  /** Adding a regular key to the slots of a key list gives the slots of `ListPress`: a held key changes
      nothing, a new one takes the first empty slot, and with six held the oldest is dropped. */
  lemma PressMatchesList(keys: seq<byte>, k: int)
    requires KeyList(keys) && 0 < k < 256
    ensures AddToSlots(SlotsOf(keys), k) == Outcome(SlotsOf(ListPress(keys, k)), false)
    ensures KeyList(ListPress(keys, k))
  {
    AddStopOfSlots(keys, k);
    FirstEmptyOfSlots(keys);
    var s := SlotsOf(keys);
    if k !in keys {
      if |keys| < MAX_KEYPRESSES {
        assert s[|keys| := k] == SlotsOf(keys + [k]) by {
          ZerosAppend(1, MAX_KEYPRESSES - |keys| - 1);
        }
      } else {
        assert s == keys;
        assert keys[1..] + [k] == SlotsOf(keys[1..] + [k]);
      }
    }
  }

  /** Removing a key from the slots of a key list gives the slots of `ListRelease`, compacted. */
  lemma ReleaseMatchesList(keys: seq<byte>, k: int)
    requires KeyList(keys)
    ensures RemoveFromSlots(SlotsOf(keys), k) == SlotsOf(ListRelease(keys, k))
    ensures KeyList(ListRelease(keys, k))
  {
    FirstEmptyOfSlots(keys);
    WithoutDistinct(keys, k);
    var kept := Without(keys, k);
    var s := SlotsOf(keys);
    assert s[|keys|..] == Zeros(MAX_KEYPRESSES - |keys|);
    ZerosAppend(|keys| - |kept|, MAX_KEYPRESSES - |keys|);
  }

  /** Pressing key code 0 (what `KEY_RESERVED` converts to) finds an empty slot and stores 0 in it, which
      changes nothing; but with six keys held there is no empty slot, and the oldest key is dropped. */
  lemma ReservedPressDropsOldest(keys: seq<byte>)
    requires KeyList(keys)
    ensures |keys| < MAX_KEYPRESSES ==> AddToSlots(SlotsOf(keys), 0) == Outcome(SlotsOf(keys), false)
    ensures |keys| == MAX_KEYPRESSES ==> AddToSlots(SlotsOf(keys), 0) == Outcome(SlotsOf(keys[1..]), false)
  {
    var s := SlotsOf(keys);
    FirstEmptyOfSlots(keys);
    if |keys| < MAX_KEYPRESSES {
      assert s[|keys|] == 0;
      assert AddStop(s, 0) <= |keys|;
      assert s[AddStop(s, 0)] == 0;
      assert s[AddStop(s, 0) := 0] == s;
    } else {
      assert s == keys;
      assert AddStop(s, 0) == |s|;
    }
  }

  /** Compactness, the invariant of the slots, is kept by adding any key code in 0..255 and by removing any
      key code. */
  lemma CompactPreserved(slots: seq<byte>, k: int)
    requires Compact(slots)
    ensures 0 <= k < 256 ==> !AddToSlots(slots, k).raised && Compact(AddToSlots(slots, k).bytes)
    ensures Compact(RemoveFromSlots(slots, k))
  {
    CompactIsSlotsOf(slots);
    var keys := Keys(slots);
    if k == 0 {
      ReservedPressDropsOldest(keys);
      if |keys| == MAX_KEYPRESSES {
        assert KeyList(keys[1..]) by {
          assert forall x :: x in keys[1..] ==> x in keys;
        }
        KeysOfSlotsOf(keys[1..]);
      }
    } else if 0 < k < 256 {
      PressMatchesList(keys, k);
      KeysOfSlotsOf(ListPress(keys, k));
    }
    ReleaseMatchesList(keys, k);
    KeysOfSlotsOf(ListRelease(keys, k));
  }

  /** A key in 0..255 never raises on compact slots; one outside raises, and when all six slots were taken
      the shuffle has already happened, leaving the newest key in two slots. */
  lemma AddOutOfRange(keys: seq<byte>, k: int)
    requires KeyList(keys) && !(0 <= k < 256)
    ensures AddToSlots(SlotsOf(keys), k).raised
    ensures |keys| < MAX_KEYPRESSES ==> AddToSlots(SlotsOf(keys), k).bytes == SlotsOf(keys)
    ensures |keys| == MAX_KEYPRESSES ==> AddToSlots(SlotsOf(keys), k).bytes == keys[1..] + [keys[5]]
    ensures |keys| == MAX_KEYPRESSES ==> !Compact(AddToSlots(SlotsOf(keys), k).bytes)
  {
    AddStopOfSlots(keys, k);
    FirstEmptyOfSlots(keys);
    if |keys| == MAX_KEYPRESSES {
      var b := keys[1..] + [keys[5]];
      assert b[4] == b[5] && b[5] != 0;
    }
  }

  /** A released key that was not held changes nothing; a held key leaves, the others keep their order. */
  lemma ListReleaseOrder(keys: seq<byte>, k: int)
    ensures k !in keys ==> ListRelease(keys, k) == keys
    ensures forall i :: 0 <= i < |keys| && keys[i] == k ==> ListRelease(keys, k) == Without(keys[..i], k) + Without(keys[i + 1..], k)
    ensures k !in ListRelease(keys, k)
  {
    if k !in keys {
      WithoutAbsent(keys, k);
    }
    forall i | 0 <= i < |keys| && keys[i] == k
      ensures ListRelease(keys, k) == Without(keys[..i], k) + Without(keys[i + 1..], k)
    {
      assert keys == keys[..i] + ([keys[i]] + keys[i + 1..]);
      WithoutAppend(keys[..i], [keys[i]] + keys[i + 1..], k);
      WithoutAppend([keys[i]], keys[i + 1..], k);
    }
  }

  /** Pressing a new key and releasing it again gives the key list back, as long as no key was dropped. */
  lemma PressReleaseRoundTrip(keys: seq<byte>, k: byte)
    requires KeyList(keys) && k !in keys && |keys| < MAX_KEYPRESSES
    ensures ListRelease(ListPress(keys, k), k) == keys
  {
    WithoutAppend(keys, [k], k);
    WithoutAbsent(keys, k);
  }

  /** Distinct presses on a list that holds the newest keys of pre leave the newest keys of pre + ks. */
  lemma {:induction false} PressAllNewest(pre: seq<byte>, ks: seq<byte>)
    requires Distinct(pre + ks)
    ensures ListPressAll(Newest(pre), ks) == Newest(pre + ks)
    decreases |ks|
  {
    if ks != [] {
      var k := ks[0];
      var pre' := pre + [k];
      assert k !in Newest(pre) by {
        forall i | 0 <= i < |Newest(pre)| ensures Newest(pre)[i] != k {
          var p := if |pre| <= MAX_KEYPRESSES then i else |pre| - MAX_KEYPRESSES + i;
          assert Newest(pre)[i] == pre[p] && (pre + ks)[p] == pre[p];
          assert (pre + ks)[|pre|] == k;
        }
      }
      assert ListPress(Newest(pre), k) == Newest(pre');
      assert pre' + ks[1..] == pre + ks;
      PressAllNewest(pre', ks[1..]);
    }
  }

  /** Distinct regular keys pressed from nothing leave the newest six of them in press order: seven
      presses drop the first. */
  lemma DistinctPressesKeepNewest(ks: seq<byte>)
    requires Distinct(ks)
    ensures ListPressAll([], ks) == Newest(ks)
  {
    assert [] + ks == ks;
    PressAllNewest([], ks);
  }

  /** A key code whose presses go to the slots: not a modifier, not 0, and a byte. */
  predicate RegularKey(k: int)
  {
    0 < k < 256 && !Keycode.IsModifier(k)
  }

  /** `press`'s loop over regular keys acts on the report as `ListPressAll` on the held keys, and leaves
      bytes 0 and 1 alone. */
  lemma {:induction false} AfterPressMatchesList(report: seq<byte>, keys: seq<byte>, ks: seq<byte>)
    requires |report| == REPORT_LENGTH && KeyList(keys) && report[KEYS..] == SlotsOf(keys)
    requires forall i :: 0 <= i < |ks| ==> RegularKey(ks[i])
    ensures KeyList(ListPressAll(keys, ks))
    ensures AfterPress(report, ks) == Outcome(report[..KEYS] + SlotsOf(ListPressAll(keys, ks)), false)
    decreases |ks|
  {
    if ks == [] {
      assert report == report[..KEYS] + report[KEYS..];
    } else {
      PressMatchesList(keys, ks[0]);
      var next := report[..KEYS] + SlotsOf(ListPress(keys, ks[0]));
      assert AddedReport(report, ks[0]) == Outcome(next, false);
      assert next[..KEYS] == report[..KEYS] && next[KEYS..] == SlotsOf(ListPress(keys, ks[0]));
      AfterPressMatchesList(next, ListPress(keys, ks[0]), ks[1..]);
    }
  }

  // ---------------------------------------------------------------------------------------------------
  // Modifiers and regular keys on the whole report.

  /** A modifier press only ORs its bit into byte 0; a regular key never touches bytes 0 and 1. */
  lemma PressTouches(report: seq<byte>, k: int)
    requires |report| == REPORT_LENGTH
    ensures Keycode.IsModifier(k) ==> !AddedReport(report, k).raised && AddedReport(report, k).bytes[1..] == report[1..]
    ensures Keycode.IsModifier(k) ==>
      forall i :: Bit(AddedReport(report, k).bytes[0], i) <==> Bit(report[0], i) || i == k - Keycode.LEFT_CONTROL
    ensures !Keycode.IsModifier(k) ==> AddedReport(report, k).bytes[..KEYS] == report[..KEYS]
  {
    if Keycode.IsModifier(k) {
      forall i ensures Bit(Keycode.ModifierBit(k), i) <==> i == k - Keycode.LEFT_CONTROL {
        Keycode.ModifierBitSingle(k, i);
      }
    }
  }

  /** A modifier release only clears its bit in byte 0; a regular key never touches bytes 0 and 1. */
  lemma ReleaseTouches(report: seq<byte>, k: int)
    requires |report| == REPORT_LENGTH
    ensures Keycode.IsModifier(k) ==> RemovedReport(report, k)[1..] == report[1..]
    ensures Keycode.IsModifier(k) ==>
      forall i :: Bit(RemovedReport(report, k)[0], i) <==> Bit(report[0], i) && i != k - Keycode.LEFT_CONTROL
    ensures !Keycode.IsModifier(k) ==> RemovedReport(report, k)[..KEYS] == report[..KEYS]
  {
    if Keycode.IsModifier(k) {
      var bit := Keycode.ModifierBit(k);
      BitAndNotEach(report[0], bit);
      forall i ensures Bit(bit, i) <==> i == k - Keycode.LEFT_CONTROL {
        Keycode.ModifierBitSingle(k, i);
      }
    }
  }

  /** The report `release_all` leaves and sends. */
  const EMPTY_REPORT: seq<byte> := [0, 0, 0, 0, 0, 0, 0, 0]

  // ---------------------------------------------------------------------------------------------------
  // The keyboard object.

  class Keyboard {
    /** The device `find_device` picked. */
    const device: UsbHid.Device
    /** `self.report`: byte 0 modifiers, byte 1 reserved, bytes 2..7 the key slots. */
    const report: array<byte>
    /** The reports handed to `send_report`, oldest first. */
    var sent: seq<seq<byte>>

    predicate Valid()
      reads this
    {
      report.Length == REPORT_LENGTH
    }

    /** `Keyboard.__init__` once `find_device` has found the device: a zero report, sent once by
        `release_all` as the readiness no-op. */
    constructor(device: UsbHid.Device)
      ensures Valid() && fresh(report)
      ensures this.device == device
      ensures report[..] == EMPTY_REPORT && sent == [EMPTY_REPORT]
    {
      this.device := device;
      report := new byte[REPORT_LENGTH](_ => 0);
      sent := [];
      new;
      ReleaseAll();
    }

    /** The search loop of `_add_keycode_to_report`: the first slot that is empty or holds the key. */
    method SearchSlots(keycode: int) returns (i: int)
      requires Valid()
      ensures i == AddStop(report[KEYS..], keycode)
    {
      ghost var slots := report[KEYS..];
      i := 0;
      while i < MAX_KEYPRESSES
        invariant 0 <= i <= MAX_KEYPRESSES
        invariant forall j :: 0 <= j < i ==> slots[j] != 0 && slots[j] != keycode
      {
        var reportKey := report[KEYS + i];
        assert reportKey == slots[i];
        if reportKey == 0 || reportKey == keycode {
          AddStopIs(slots, keycode, i);
          return;
        }
        i := i + 1;
      }
      AddStopIs(slots, keycode, i);
    }

    /** The shuffle of `_add_keycode_to_report` when every slot is taken: each slot takes the next one's
        key, the last keeps its own. */
    method ShuffleDown()
      requires Valid()
      modifies report
      ensures report[..] == old(report[..KEYS]) + old(report[KEYS + 1..]) + [old(report[REPORT_LENGTH - 1])]
    {
      for i := 0 to MAX_KEYPRESSES - 1
        invariant forall j :: 0 <= j < KEYS ==> report[j] == old(report[j])
        invariant forall j :: KEYS <= j < KEYS + i ==> report[j] == old(report[j + 1])
        invariant forall j :: KEYS + i <= j < REPORT_LENGTH ==> report[j] == old(report[j])
      {
        report[KEYS + i] := report[KEYS + i + 1];
      }
    }

    /** `_add_keycode_to_report`: a modifier ORs its bit into byte 0; any other key is searched for, stored
        in the first empty slot, or stored last after the shuffle. */
    method AddKeycodeToReport(keycode: int) returns (r: Result<()>)
      requires Valid()
      modifies report
      ensures report[..] == AddedReport(old(report[..]), keycode).bytes
      ensures r.Err? <==> AddedReport(old(report[..]), keycode).raised
      ensures r.Err? ==> r.error == ValueError(MEMORYVIEW_MESSAGE)
    {
      var modifier := Keycode.ModifierBit(keycode);
      if modifier != 0 {
        report[0] := SetBits(report[0], modifier);
        return Ok(());
      }
      var i := SearchSlots(keycode);
      if i < MAX_KEYPRESSES {
        if report[KEYS + i] != 0 {
          return Ok(());
        }
        if !(0 <= keycode < 256) {
          return Err(ValueError(MEMORYVIEW_MESSAGE));
        }
        report[KEYS + i] := keycode;
        assert report[..] == old(report[..KEYS]) + old(report[KEYS..])[i := keycode];
        return Ok(());
      }
      ShuffleDown();
      if !(0 <= keycode < 256) {
        return Err(ValueError(MEMORYVIEW_MESSAGE));
      }
      report[REPORT_LENGTH - 1] := keycode;
      assert report[..] == old(report[..KEYS]) + (old(report[KEYS..])[1..] + [keycode]);
      return Ok(());
    }

    /** The compacting loop of `_remove_keycode_from_report`: up to the first empty slot, each slot that
        does not hold the key is copied down to the next free place, which is returned. */
    method CompactSlots(keycode: int) returns (j: int)
      requires Valid()
      modifies report
      ensures 0 <= j == |Kept(old(report[KEYS..]), keycode)| <= FirstEmpty(old(report[KEYS..]))
      ensures report[..] == old(report[..KEYS]) + Kept(old(report[KEYS..]), keycode) + old(report[KEYS..])[j..]
    {
      ghost var slots := report[KEYS..];
      var i := 0;
      j := 0;
      while i < MAX_KEYPRESSES
        invariant 0 <= j <= i <= MAX_KEYPRESSES
        invariant forall p :: 0 <= p < i ==> slots[p] != 0
        invariant j == |Without(slots[..i], keycode)|
        invariant forall p :: 0 <= p < KEYS ==> report[p] == old(report[p])
        invariant forall p :: KEYS <= p < KEYS + j ==> report[p] == Without(slots[..i], keycode)[p - KEYS]
        invariant forall p :: KEYS + j <= p < REPORT_LENGTH ==> report[p] == old(report[p])
      {
        var pressed := report[KEYS + i];
        assert pressed == slots[i];
        if pressed == 0 {
          break;
        }
        ExtendWithout(slots, i, keycode);
        if pressed != keycode {
          if i != j {
            report[KEYS + j] := pressed;
          }
          j := j + 1;
        }
        i := i + 1;
      }
      FirstEmptyIs(slots, i);
      Reassemble(report[..], old(report[..]), Kept(slots, keycode));
    }

    /** The clearing loop of `_remove_keycode_from_report`: from slot j, clears the taken slots before the
        first empty one, slot n. */
    method ClearFrom(j: int, ghost n: int)
      requires Valid() && 0 <= j <= n <= MAX_KEYPRESSES
      requires forall p :: KEYS + j <= p < KEYS + n ==> report[p] != 0
      requires n < MAX_KEYPRESSES ==> report[KEYS + n] == 0
      modifies report
      ensures report[..] == old(report[..KEYS + j]) + Zeros(n - j) + old(report[KEYS + n..])
    {
      var k := j;
      while k < MAX_KEYPRESSES && report[KEYS + k] != 0
        invariant j <= k <= n
        invariant forall p :: 0 <= p < KEYS + j ==> report[p] == old(report[p])
        invariant forall p :: KEYS + j <= p < KEYS + k ==> report[p] == 0
        invariant forall p :: KEYS + k <= p < REPORT_LENGTH ==> report[p] == old(report[p])
      {
        report[KEYS + k] := 0;
        k := k + 1;
      }
      assert report[..] == old(report[..KEYS + j]) + Zeros(n - j) + old(report[KEYS + n..]);
    }

    /** `_remove_keycode_from_report`: a modifier's bit is cleared from byte 0; any other key leaves the
        used slots, which are compacted. */
    method RemoveKeycodeFromReport(keycode: int)
      requires Valid()
      modifies report
      ensures report[..] == RemovedReport(old(report[..]), keycode)
    {
      var modifier := Keycode.ModifierBit(keycode);
      if modifier != 0 {
        report[0] := ClearBits(report[0], modifier);
      } else {
        RemoveFromSlotsInPlace(keycode);
      }
    }

    /** The slot half of `_remove_keycode_from_report`: compact, then clear. */
    method RemoveFromSlotsInPlace(keycode: int)
      requires Valid()
      modifies report
      ensures report[..] == old(report[..KEYS]) + RemoveFromSlots(old(report[KEYS..]), keycode)
    {
      ghost var slots := report[KEYS..];
      ghost var n := FirstEmpty(slots);
      var j := CompactSlots(keycode);
      ghost var compacted := report[..];
      assert forall p :: KEYS + j <= p < REPORT_LENGTH ==> report[p] == slots[p - KEYS];
      ClearFrom(j, n);
      RemoveAssembled(old(report[..]), compacted, report[..], Kept(slots, keycode), n);
    }

    /** `press`: adds the keys in turn and sends the report; a key that raises leaves the keys added so far
        in the report and sends nothing. */
    method Press(keycodes: seq<int>) returns (r: Result<()>)
      requires Valid()
      modifies this, report
      ensures report[..] == AfterPress(old(report[..]), keycodes).bytes
      ensures r.Err? <==> AfterPress(old(report[..]), keycodes).raised
      ensures r.Err? ==> r.error == ValueError(MEMORYVIEW_MESSAGE) && sent == old(sent)
      ensures r.Ok? ==> sent == old(sent) + [report[..]]
    {
      var i := 0;
      while i < |keycodes|
        invariant 0 <= i <= |keycodes|
        invariant AfterPress(old(report[..]), keycodes) == AfterPress(report[..], keycodes[i..])
        invariant sent == old(sent)
      {
        assert keycodes[i..][0] == keycodes[i] && keycodes[i..][1..] == keycodes[i + 1..];
        r := AddKeycodeToReport(keycodes[i]);
        if r.Err? {
          return;
        }
        i := i + 1;
      }
      sent := sent + [report[..]];
      return Ok(());
    }

    /** `release`: removes the keys in turn and sends the report. */
    method Release(keycodes: seq<int>)
      requires Valid()
      modifies this, report
      ensures report[..] == AfterRelease(old(report[..]), keycodes)
      ensures sent == old(sent) + [report[..]]
    {
      var i := 0;
      while i < |keycodes|
        invariant 0 <= i <= |keycodes|
        invariant AfterRelease(old(report[..]), keycodes) == AfterRelease(report[..], keycodes[i..])
        invariant sent == old(sent)
      {
        assert keycodes[i..][0] == keycodes[i] && keycodes[i..][1..] == keycodes[i + 1..];
        RemoveKeycodeFromReport(keycodes[i]);
        i := i + 1;
      }
      sent := sent + [report[..]];
    }

    /** `release_all`: zeroes all eight bytes and sends the report. */
    method ReleaseAll()
      requires Valid()
      modifies this, report
      ensures report[..] == EMPTY_REPORT
      ensures sent == old(sent) + [EMPTY_REPORT]
    {
      for i := 0 to REPORT_LENGTH
        invariant forall j :: 0 <= j < i ==> report[j] == 0
        modifies report
      {
        report[i] := 0;
      }
      assert report[..] == EMPTY_REPORT;
      sent := sent + [EMPTY_REPORT];
    }

    /** `send`: press the keys and then release all of them; a press that raises skips the release. */
    method Send(keycodes: seq<int>) returns (r: Result<()>)
      requires Valid()
      modifies this, report
      ensures r.Err? <==> AfterPress(old(report[..]), keycodes).raised
      ensures r.Ok? ==> report[..] == EMPTY_REPORT
      ensures r.Ok? ==> sent == old(sent) + [AfterPress(old(report[..]), keycodes).bytes, EMPTY_REPORT]
      ensures r.Err? ==> report[..] == AfterPress(old(report[..]), keycodes).bytes && sent == old(sent)
    {
      r := Press(keycodes);
      if r.Ok? {
        ReleaseAll();
      }
    }
  }

  /** A report whose bytes are known one by one: the old bytes 0 and 1, then kept, then the old bytes. */
  lemma Reassemble(r: seq<byte>, o: seq<byte>, kept: seq<byte>)
    requires |r| == |o| == REPORT_LENGTH && |kept| <= MAX_KEYPRESSES
    requires forall p :: 0 <= p < KEYS ==> r[p] == o[p]
    requires forall p :: KEYS <= p < KEYS + |kept| ==> r[p] == kept[p - KEYS]
    requires forall p :: KEYS + |kept| <= p < REPORT_LENGTH ==> r[p] == o[p]
    ensures r == o[..KEYS] + kept + o[KEYS..][|kept|..]
  {
  }

  /** The two loops of `_remove_keycode_from_report` together: compacting the kept keys into place, then
      clearing up to the first empty slot n. */
  lemma RemoveAssembled(o: seq<byte>, compacted: seq<byte>, cleared: seq<byte>, kept: seq<byte>, n: nat)
    requires |o| == REPORT_LENGTH && |kept| <= n <= MAX_KEYPRESSES
    requires compacted == o[..KEYS] + kept + o[KEYS..][|kept|..]
    requires cleared == compacted[..KEYS + |kept|] + Zeros(n - |kept|) + compacted[KEYS + n..]
    ensures cleared == o[..KEYS] + (kept + Zeros(n - |kept|) + o[KEYS..][n..])
  {
    assert compacted[..KEYS + |kept|] == o[..KEYS] + kept;
    assert compacted[KEYS + n..] == o[KEYS..][n..];
  }

  /** One more used slot looked at by the compacting loop: it joins the kept keys unless it is k. */
  lemma ExtendWithout(slots: seq<byte>, i: nat, k: int)
    requires i < |slots|
    ensures Without(slots[..i + 1], k) == Without(slots[..i], k) + (if slots[i] == k then [] else [slots[i]])
  {
    assert slots[..i + 1] == slots[..i] + [slots[i]];
    WithoutAppend(slots[..i], [slots[i]], k);
  }

  /** `led_on`: whether the LED's bit is set in the first byte of the LED status the host sent last. The status
      byte is below 256, so Python's `&` with any int code, negative ones included, sees only the code's low
      byte `ledCode % 256`; a code of -1 thus asks whether any LED is on. */
  function LedOn(ledStatus: seq<byte>, ledCode: int): (on: bool)
    requires |ledStatus| > 0
    ensures on <==> exists i: nat :: Bit(ledStatus[0], i) && Bit(ledCode % 256, i)
    ensures ledCode == -1 ==> (on <==> ledStatus[0] != 0)
  {
    BitAndNonzero(ledStatus[0], ledCode % 256);
    AnyBitOfFull(ledStatus[0]);
    BitAnd(ledStatus[0], ledCode % 256) != 0
  }

  /** 0xFF has each of the bits 0..7 set. */
  lemma FullByteBits(i: nat)
    requires i < 8
    ensures Bit(255, i)
  {
    assert Bit(1, 0);
    assert Bit(3, 1) && Bit(7, 2) && Bit(15, 3);
    assert Bit(31, 4) && Bit(63, 5) && Bit(127, 6) && Bit(255, 7);
    if i > 0 {
      assert Bit(255, i) == Bit(127, i - 1);
    }
  }

  /** Every nonzero byte shares a bit with 0xFF, and zero shares none. */
  lemma AnyBitOfFull(b: byte)
    ensures (exists i: nat :: Bit(b, i) && Bit(255, i)) <==> b != 0
  {
    NonzeroHasBit(b);
    if b != 0 {
      var i: nat :| Bit(b, i);
      assert Pow2(8) == 256;
      if i >= 8 {
        HighBits(b, 8, i);
      }
      FullByteBits(i);
      assert Bit(b, i) && Bit(255, i);
      assert exists j: nat :: Bit(b, j) && Bit(255, j);
    }
  }

  /** `Keyboard.__init__` in full: find the keyboard among the devices (usage page 0x01, usage 0x06) or
      raise ValueError. */
  method Open(devices: seq<UsbHid.Device>) returns (r: Result<Keyboard>)
    ensures r.Ok? ==> fresh(r.value) && fresh(r.value.report) && r.value.Valid()
    ensures r.Ok? ==> UsbHid.Matches(r.value.device, 0x01, 0x06) && r.value.device in devices
    ensures r.Ok? ==> r.value.report[..] == EMPTY_REPORT && r.value.sent == [EMPTY_REPORT]
    ensures r.Err? <==> forall d :: d in devices ==> !UsbHid.Matches(d, 0x01, 0x06)
  {
    var found := UsbHid.FindDevice(devices, 0x01, 0x06);
    if found.Err? {
      return Err(found.error);
    }
    var keyboard := new Keyboard(found.value);
    return Ok(keyboard);
  }
}
