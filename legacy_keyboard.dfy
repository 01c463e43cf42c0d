/**
 * `HidKeyboard` of libs/keyboard.py: the older keyboard state kept by key name. It holds the list of pressed
 * keys (at most six) and the on/off flag of each of the eight modifiers, and encodes them as the 8-byte boot
 * keyboard report: the modifier byte, a zero byte, the usages of the pressed keys in list order and zero fill.
 */
module LegacyKeyboard {
  import opened Wrappers
  import opened Bytes
  import opened HidCodes
  import UsbHidKeyboard

  const MAX_KEYS := 6

  /** No name occurs twice. */
  predicate Distinct(keys: seq<string>)
  {
    forall i, j :: 0 <= i < j < |keys| ==> keys[i] != keys[j]
  }

  /** Every modifier occurs exactly once: an order in which `iteritems` may visit `_db_modifiers`. */
  predicate VisitOrder(order: seq<Modifier>)
  {
    (forall i, j :: 0 <= i < j < |order| ==> order[i] != order[j]) && forall m: Modifier :: m in order
  }

  // ---------------------------------------------------------------------------------------------------
  // The list of pressed keys.

  /** `activate_key` on the list: a key already down changes nothing; otherwise it is appended, after the
      oldest key is dropped when exactly six are down. */
  function Activate(keys: seq<string>, key: string): seq<string>
  {
    if key in keys then keys
    else if |keys| == MAX_KEYS then keys[1..] + [key]
    else keys + [key]
  }

  /** Python's `list.index`: the position of the first occurrence of key. */
  function IndexOf(keys: seq<string>, key: string): (i: nat)
    requires key in keys
    ensures i < |keys| && keys[i] == key && key !in keys[..i]
  {
    if keys[0] == key then 0
    else
      var i := IndexOf(keys[1..], key);
      assert keys[..i + 1] == [keys[0]] + keys[1..][..i];
      i + 1
  }

  /** Python's `list.remove`: the first occurrence of key taken out. */
  function RemoveFirst(keys: seq<string>, key: string): (r: seq<string>)
    requires key in keys
  {
    keys[..IndexOf(keys, key)] + keys[IndexOf(keys, key) + 1..]
  }

  /** `deactivate_key` on the list. */
  function Deactivate(keys: seq<string>, key: string): seq<string>
  {
    if key in keys then RemoveFirst(keys, key) else keys
  }

  /** The list stays within six keys, holds no key twice, and holds the new key, which is its last element
      unless it was already down. */
  lemma ActivateKeeps(keys: seq<string>, key: string)
    requires |keys| <= MAX_KEYS && Distinct(keys)
    ensures |Activate(keys, key)| <= MAX_KEYS && Distinct(Activate(keys, key))
    ensures key in Activate(keys, key)
    ensures key !in keys ==> Activate(keys, key)[|Activate(keys, key)| - 1] == key
    ensures key !in keys && |keys| < MAX_KEYS ==> Activate(keys, key) == keys + [key]
    ensures key !in keys && |keys| == MAX_KEYS ==> Activate(keys, key) == keys[1..] + [key]
  {
    if key !in keys && |keys| == MAX_KEYS {
      assert forall x :: x in keys[1..] ==> x in keys;
    }
  }

  /** Activating a key twice is activating it once. */
  lemma ActivateIdempotent(keys: seq<string>, key: string)
    ensures Activate(Activate(keys, key), key) == Activate(keys, key)
  {
  }

  /** `deactivate_key` of a key that is down takes out that key and keeps the others in their order; of a key
      that is up it changes nothing. On a list without repeats the key is gone afterwards. */
  lemma DeactivateRemoves(keys: seq<string>, key: string)
    ensures key !in keys ==> Deactivate(keys, key) == keys
    ensures key in keys ==> exists i :: 0 <= i < |keys| && keys[i] == key
                                        && Deactivate(keys, key) == keys[..i] + keys[i + 1..]
    ensures Distinct(keys) ==> key !in Deactivate(keys, key)
    ensures Distinct(keys) ==> Distinct(Deactivate(keys, key))
    ensures |Deactivate(keys, key)| <= |keys|
  {
    if key in keys {
      var i := IndexOf(keys, key);
      var r := keys[..i] + keys[i + 1..];
      if Distinct(keys) {
        forall j | 0 <= j < |r| ensures r[j] != key && r[j] == keys[if j < i then j else j + 1] {
        }
        forall a, b | 0 <= a < b < |r| ensures r[a] != r[b] {
          assert r[a] == keys[if a < i then a else a + 1];
          assert r[b] == keys[if b < i then b else b + 1];
        }
      }
    }
  }

  /** Pressing a key that was up and releasing it again gives the list back, unless the press dropped the
      oldest key. */
  lemma ActivateDeactivate(keys: seq<string>, key: string)
    requires key !in keys && |keys| < MAX_KEYS
    ensures Deactivate(Activate(keys, key), key) == keys
  {
    var i := IndexOf(keys + [key], key);
    assert forall j :: 0 <= j < |keys| ==> (keys + [key])[j] == keys[j];
    assert i == |keys|;
    assert (keys + [key])[..|keys|] == keys;
  }

  // ---------------------------------------------------------------------------------------------------
  // The modifier byte.

  /** The sum of the `ds_MOD_CODES` bits of the active modifiers among the first n, in table order. */
  function ModSum(active: seq<bool>, n: nat): nat
    requires n <= |active| <= 8
  {
    if n == 0 then 0 else ModSum(active, n - 1) + (if active[n - 1] then MOD_BITS[n - 1] else 0)
  }

  /** The same bits joined by `|`. */
  function ModOr(active: seq<bool>, n: nat): nat
    requires n <= |active| <= 8
  {
    if n == 0 then 0 else BitOr(ModOr(active, n - 1), if active[n - 1] then MOD_BITS[n - 1] else 0)
  }

  /** Summing the modifier bits is ORing them, and bit j of the result is set exactly when modifier j is
      active. */
  lemma {:induction false} ModSumBits(active: seq<bool>, n: nat)
    requires n <= |active| <= 8
    ensures ModSum(active, n) == ModOr(active, n) < 256
    ensures forall t: nat :: Bit(ModSum(active, n), t) == (t < n && active[t])
  {
    if n == 0 {
      forall t: nat ensures !Bit(0, t) { ZeroBits(0, t); }
    } else {
      ModSumBits(active, n - 1);
      var m := ModSum(active, n - 1);
      var b := if active[n - 1] then MOD_BITS[n - 1] else 0;
      ModBitIsPow2(n - 1);
      if active[n - 1] {
        AddClearBit(m, n - 1);
      }
      assert BitOr(m, b) == m + b by {
        if !active[n - 1] {
          assert BitOr(m, 0) == m;
        }
      }
      assert Pow2(8) == 256;
      BitOrBelow(m, b, 8);
      assert ModSum(active, n) == m + b;
      forall t: nat ensures Bit(ModSum(active, n), t) == (t < n && active[t]) {
        BitOrBits(m, b, t);
        Pow2Bits(n - 1, t);
        ZeroBits(0, t);
      }
    }
  }

  /** What `_get_mod_byte` computes for the flags: the eight bits summed in table order. */
  function ModMask(active: seq<bool>): (m: byte)
    requires |active| == 8
    ensures forall j: Modifier :: Bit(m, j) == active[j]
    ensures forall t: nat :: 8 <= t ==> !Bit(m, t)
  {
    ModSumBits(active, 8);
    ModSum(active, 8)
  }

  /** Two modifier masks with the same flags are one byte. */
  lemma ModMaskUnique(b: byte, active: seq<bool>)
    requires |active| == 8
    requires forall j: Modifier :: Bit(b, j) == active[j]
    ensures b == ModMask(active)
  {
    assert Pow2(8) == 256;
    BitsDetermine(b, ModMask(active), 8);
  }

  // ---------------------------------------------------------------------------------------------------
  // The report.

  /** A lookup of key names; `to_hid_command` uses `ds_KEY_TO_HID[name]`, which is `LookupHid`. */
  type Lookup = string -> Result<byte>

  /** The usages of the key names in list order, or the error of the first name whose lookup fails. */
  function Codes(lookup: Lookup, keys: seq<string>): (r: Result<seq<byte>>)
    ensures r.Ok? ==> |r.value| == |keys|
    decreases |keys|
  {
    if keys == [] then Ok([])
    else
      match Codes(lookup, keys[..|keys| - 1])
      case Err(e) => Err(e)
      case Ok(codes) =>
        match lookup(keys[|keys| - 1])
        case Err(e) => Err(e)
        case Ok(c) => Ok(codes + [c])
  }

  /** The codes exist exactly when every name is found, and are then the looked-up usages in list order. */
  lemma {:induction false} CodesOk(lookup: Lookup, keys: seq<string>)
    ensures Codes(lookup, keys).Ok? <==> forall i :: 0 <= i < |keys| ==> lookup(keys[i]).Ok?
    ensures Codes(lookup, keys).Ok? ==> forall i :: 0 <= i < |keys| ==> Codes(lookup, keys).value[i] == lookup(keys[i]).value
    decreases |keys|
  {
    if keys != [] {
      var front := keys[..|keys| - 1];
      CodesOk(lookup, front);
      assert forall i :: 0 <= i < |front| ==> front[i] == keys[i];
      if Codes(lookup, keys).Err? && Codes(lookup, front).Err? {
        var i :| 0 <= i < |front| && lookup(front[i]).Err?;
        assert lookup(keys[i]).Err?;
      }
    }
  }

  /** The error is that of the first name whose lookup fails. */
  lemma {:induction false} CodesError(lookup: Lookup, keys: seq<string>, i: nat)
    requires i < |keys| && lookup(keys[i]).Err?
    requires forall j :: 0 <= j < i ==> lookup(keys[j]).Ok?
    ensures Codes(lookup, keys) == Err(lookup(keys[i]).error)
    decreases |keys|
  {
    var front := keys[..|keys| - 1];
    if i < |keys| - 1 {
      CodesError(lookup, front, i);
    } else {
      CodesOk(lookup, front);
    }
  }

  /** The loop that looks the names up one by one, stopping at the first one the lookup fails on. */
  method LookupCodes(lookup: Lookup, names: seq<string>) returns (r: Result<seq<byte>>)
    ensures r == Codes(lookup, names)
  {
    var codes := [];
    for i := 0 to |names|
      invariant Codes(lookup, names[..i]) == Ok(codes)
    {
      assert names[..i + 1][..i] == names[..i];
      var c := lookup(names[i]);
      if c.Err? {
        CodesOk(lookup, names[..i]);
        CodesError(lookup, names, i);
        return Err(c.error);
      }
      codes := codes + [c.value];
    }
    assert names[..|names|] == names;
    r := Ok(codes);
  }

  /** `to_hid_command` for a modifier byte and a list of key names: the modifier byte, a zero byte, the usages
      of the keys and zeros up to six keys. */
  function Command(mod: byte, keys: seq<string>): (r: Result<seq<byte>>)
    ensures r.Err? <==> Codes(LookupHid, keys).Err?
    ensures r.Err? ==> r.error == Codes(LookupHid, keys).error
    ensures r.Ok? ==> |r.value| == 2 + (if |keys| <= MAX_KEYS then MAX_KEYS else |keys|)
    ensures r.Ok? ==> r.value[0] == mod && r.value[1] == 0 && r.value[2..2 + |keys|] == Codes(LookupHid, keys).value
    ensures r.Ok? ==> forall i :: 2 + |keys| <= i < |r.value| ==> r.value[i] == 0
  {
    match Codes(LookupHid, keys)
    case Err(e) => Err(e)
    case Ok(codes) => Ok([mod, 0] + codes + UsbHidKeyboard.Zeros(if |keys| <= MAX_KEYS then MAX_KEYS - |keys| else 0))
  }

  /** The report raises KeyError for the first pressed name that `ds_KEY_TO_HID` lacks. */
  lemma CommandUnknownKey(mod: byte, keys: seq<string>, i: nat)
    requires i < |keys| && FindKey(keys[i]).None?
    requires forall j :: 0 <= j < i ==> FindKey(keys[j]).Some?
    ensures Command(mod, keys) == Err(KeyError(keys[i]))
  {
    CodesError(LookupHid, keys, i);
  }

  /** With no key down and no modifier active the report is eight zero bytes. */
  lemma InitialCommand()
    ensures Command(ModMask(seq(8, _ => false)), []) == Ok(UsbHidKeyboard.Zeros(8))
  {
    ModMaskUnique(0, seq(8, _ => false)) by {
      forall j: Modifier ensures !Bit(0, j) { ZeroBits(0, j); }
    }
    UsbHidKeyboard.ZerosAppend(2, 6);
    assert UsbHidKeyboard.Zeros(2) == [0, 0] by {
      assert UsbHidKeyboard.Zeros(1) == [0];
    }
    assert Codes(LookupHid, []) == Ok([]);
    assert [0, 0] + [] + UsbHidKeyboard.Zeros(6) == UsbHidKeyboard.Zeros(8);
  }

  // ---------------------------------------------------------------------------------------------------
  // Agreement with the keyboard of lib/usb_hid.py.

  /** Distinct names that are found have distinct usages. */
  ghost predicate Injective(lookup: Lookup)
  {
    forall a, b :: lookup(a).Ok? && lookup(b).Ok? && lookup(a).value == lookup(b).value ==> a == b
  }

  /** `ds_KEY_TO_HID` is such a lookup. */
  lemma LookupHidIsInjective()
    ensures Injective(LookupHid)
  {
    forall a, b | LookupHid(a).Ok? && LookupHid(b).Ok? && LookupHid(a).value == LookupHid(b).value
      ensures a == b
    {
      LookupHidInjective(a, b);
    }
  }

  /** Activating a key by name and then encoding the list is encoding the list and then pressing the usage on
      the held-key list of lib/usb_hid.py: both keyboards drop the oldest key when a seventh arrives. */
  lemma ActivateMatchesList(lookup: Lookup, keys: seq<string>, key: string)
    requires Injective(lookup)
    requires Codes(lookup, keys).Ok? && lookup(key).Ok? && |keys| <= MAX_KEYS
    ensures Codes(lookup, Activate(keys, key)).Ok?
    ensures Codes(lookup, Activate(keys, key)).value == UsbHidKeyboard.ListPress(Codes(lookup, keys).value, lookup(key).value)
  {
    var codes := Codes(lookup, keys).value;
    CodesMember(lookup, keys, key);
    if key !in keys {
      if |keys| == MAX_KEYS {
        CodesTail(lookup, keys);
        CodesAppend(lookup, keys[1..], key);
      } else {
        CodesAppend(lookup, keys, key);
      }
    }
  }

  /** Under an injective lookup a name is on the list exactly when its code is among the codes. */
  lemma CodesMember(lookup: Lookup, keys: seq<string>, key: string)
    requires Injective(lookup) && Codes(lookup, keys).Ok? && lookup(key).Ok?
    ensures key in keys <==> lookup(key).value in Codes(lookup, keys).value
  {
    var codes := Codes(lookup, keys).value;
    CodesOk(lookup, keys);
    if lookup(key).value in codes {
      var i :| 0 <= i < |codes| && codes[i] == lookup(key).value;
      assert keys[i] == key;
    }
  }

  /** Appending a name that is found appends its code. */
  lemma CodesAppend(lookup: Lookup, keys: seq<string>, key: string)
    requires Codes(lookup, keys).Ok? && lookup(key).Ok?
    ensures Codes(lookup, keys + [key]) == Ok(Codes(lookup, keys).value + [lookup(key).value])
  {
    assert (keys + [key])[..|keys|] == keys;
  }

  /** Dropping the first name drops the first code. */
  lemma CodesTail(lookup: Lookup, keys: seq<string>)
    requires Codes(lookup, keys).Ok? && keys != []
    ensures Codes(lookup, keys[1..]) == Ok(Codes(lookup, keys).value[1..])
  {
    var v := Codes(lookup, keys).value;
    CodesOk(lookup, keys);
    CodesOk(lookup, keys[1..]);
    assert forall i :: 0 <= i < |keys| - 1 ==> keys[1..][i] == keys[i + 1];
    var w := Codes(lookup, keys[1..]).value;
    assert forall i :: 0 <= i < |w| ==> w[i] == v[1..][i];
    assert w == v[1..];
  }

  /** The same for `ds_KEY_TO_HID`. */
  lemma ActivateMatchesUsbHid(keys: seq<string>, key: string)
    requires Codes(LookupHid, keys).Ok? && FindKey(key).Some? && |keys| <= MAX_KEYS
    ensures Codes(LookupHid, Activate(keys, key)).Ok?
    ensures Codes(LookupHid, Activate(keys, key)).value
            == UsbHidKeyboard.ListPress(Codes(LookupHid, keys).value, KeyToHid(FindKey(key).value))
  {
    LookupHidIsInjective();
    ActivateMatchesList(LookupHid, keys, key);
  }

  // ---------------------------------------------------------------------------------------------------
  // The keyboard object.

  class HidKeyboard {
    /** `_ls_keys`: the names of the pressed keys, oldest first. */
    var keys: seq<string>
    /** `_db_modifiers`: its keys are the eight names of `ds_MOD_CODES`, so each flag is kept at the position
        of its name in that table. */
    var active: seq<bool>

    predicate Valid()
      reads this
    {
      |active| == 8 && |keys| <= MAX_KEYS && Distinct(keys)
    }

    constructor()
      ensures Valid()
      ensures keys == [] && active == seq(8, _ => false)
    {
      keys := [];
      active := seq(8, _ => false);
    }

    /** `modifier_set`: stores `bool(value)` for a modifier name, ValueError for any other name. */
    method ModifierSet(name: string, value: int) returns (r: Result<()>)
      requires Valid()
      modifies this
      ensures Valid() && keys == old(keys)
      ensures r.Ok? <==> exists j: Modifier :: MOD_NAMES[j] == name
      ensures r.Ok? ==> active == old(active)[FindModifier(name).value := value != 0]
      ensures r.Err? ==> r == Err(ValueError("Invalid modifier name \"" + name + "\"")) && active == old(active)
    {
      match FindModifier(name)
      case Some(j) =>
        active := active[j := value != 0];
        r := Ok(());
      case None =>
        r := Err(ValueError("Invalid modifier name \"" + name + "\""));
    }

    /** `activate_key`. */
    method ActivateKey(key: string)
      requires Valid()
      modifies this
      ensures Valid()
      ensures keys == Activate(old(keys), key) && active == old(active)
    {
      ActivateKeeps(keys, key);
      if key !in keys {
        if |keys| == MAX_KEYS {
          keys := keys[1..];
        }
        keys := keys + [key];
      }
    }

    /** `deactivate_key`. */
    method DeactivateKey(key: string)
      requires Valid()
      modifies this
      ensures Valid()
      ensures keys == Deactivate(old(keys), key) && active == old(active)
    {
      DeactivateRemoves(keys, key);
      if key in keys {
        keys := RemoveFirst(keys, key);
      }
    }

    /** `_get_mod_byte`: the loop over `_db_modifiers.iteritems()` adding the bit of every active modifier.
        Python 2 does not fix the visiting order, so it is a parameter: each modifier once, in any order. The
        sum is the same byte whatever the order, with bit j set exactly when modifier j is active. */
    method ModByte(order: seq<Modifier>) returns (b: byte)
      requires Valid() && VisitOrder(order)
      ensures b == ModMask(active)
    {
      var sum: nat := 0;
      forall t: nat ensures !Bit(0, t) { ZeroBits(0, t); }
      for i := 0 to |order|
        invariant sum < 256
        invariant forall t: nat :: Bit(sum, t) == (t < 8 && active[t] && t in order[..i])
      {
        var j := order[i];
        assert order[..i + 1] == order[..i] + [j];
        assert j !in order[..i];
        if active[j] {
          AddModifier(sum, j);
          sum := sum + MOD_BITS[j];
        }
        forall t: nat ensures Bit(sum, t) == (t < 8 && active[t] && t in order[..i + 1]) {
          assert t in order[..i + 1] <==> t in order[..i] || t == j;
        }
      }
      assert order[..|order|] == order;
      b := sum;
      ModMaskUnique(b, active);
    }

    /** The first loop of `to_hid_command`: the usages of the pressed keys, KeyError for the first name
        `ds_KEY_TO_HID` lacks. */
    method KeyCodes() returns (r: Result<seq<byte>>)
      ensures r == Codes(LookupHid, keys)
    {
      r := LookupCodes(LookupHid, keys);
    }

    /** `to_hid_command`: the modifier byte, a zero byte, the usage of each pressed key in list order and zero
        fill; KeyError for a pressed key that `ds_KEY_TO_HID` lacks. */
    method ToHidCommand(order: seq<Modifier>) returns (r: Result<seq<byte>>)
      requires Valid() && VisitOrder(order)
      ensures r == Command(ModMask(active), keys)
    {
      var mod := ModByte(order);
      var codes := KeyCodes();
      if codes.Err? {
        return Err(codes.error);
      }
      var bytes := [mod, 0] + codes.value;
      for i := 0 to MAX_KEYS - |keys|
        invariant bytes == [mod, 0] + Codes(LookupHid, keys).value + UsbHidKeyboard.Zeros(i)
      {
        UsbHidKeyboard.ZerosAppend(i, 1);
        bytes := bytes + [0];
      }
      r := Ok(bytes);
    }
  }

  /** Adding the bit of a modifier that is not yet in the byte. */
  lemma AddModifier(sum: nat, j: Modifier)
    requires sum < 256 && !Bit(sum, j)
    ensures sum + MOD_BITS[j] < 256
    ensures forall t: nat :: Bit(sum + MOD_BITS[j], t) == (Bit(sum, t) || t == j)
  {
    ModBitIsPow2(j);
    AddClearBit(sum, j);
    assert Pow2(8) == 256;
    BitOrBelow(sum, MOD_BITS[j], 8);
    forall t: nat ensures Bit(sum + MOD_BITS[j], t) == (Bit(sum, t) || t == j) {
      BitOrBits(sum, MOD_BITS[j], t);
      Pow2Bits(j, t);
    }
  }
}
