/**
 * src/bluetooth_2_usb/relay.py: device identifiers (classification of an identifier string as a device path,
 * a Bluetooth MAC address or a device name, its normalised form and the match against an input device), the
 * selection of devices to relay, the routing of keys to the three USB gadgets, and the discovery passes of
 * `RelayController` with its `_cancelled` flag.
 */
module Relay {
  import opened Wrappers
  import opened Strings
  import opened Evdev

  // ---------------------------------------------------------------------------------------------------
  // Device identifiers.

  /** The three identifier types `PATH`, `MAC` and `NAME`. */
  datatype IdentifierType = Path | Mac | Name

  /** The part of an evdev `InputDevice` the relay reads: its device node, its name and its `uniq` string
      (for a Bluetooth device, its MAC address as the kernel reports it). */
  datatype InputDevice = InputDevice(path: string, name: string, uniq: string)

  const PATH_PREFIX: string := "/dev/input/event"

  predicate NoNewline(t: string)
  {
    forall i :: 0 <= i < |t| ==> t[i] != '\n'
  }

  /** A regular expression's `$` matches at the end of the string and also just before a final newline: the
      text it anchors is the string without that newline. */
  function DropFinalNewline(t: string): (r: string)
    ensures r == t || r + "\n" == t
  {
    if t != [] && t[|t| - 1] == '\n' then t[..|t| - 1] else t
  }

  /** `re.match(PATH_REGEX, s)` for `^\/dev\/input\/event.*$`: s starts with `/dev/input/event` and, since `.`
      does not match a newline, the rest has no newline apart from possibly a final one. */
  predicate MatchesPathRegex(s: string)
  {
    StartsWith(s, PATH_PREFIX) && NoNewline(DropFinalNewline(s[|PATH_PREFIX|..]))
  }

  predicate IsHexDigit(c: char)
  {
    '0' <= c <= '9' || 'a' <= c <= 'f' || 'A' <= c <= 'F'
  }

  /** Six pairs of hex digits, each of the first five followed by `:` or `-`, every separator chosen on its
      own: the text of `([0-9a-fA-F]{2}[:-]){5}([0-9a-fA-F]{2})`. */
  predicate IsMacAddress(t: string)
  {
    |t| == 17 && forall i :: 0 <= i < 17 ==> if i % 3 == 2 then t[i] == ':' || t[i] == '-' else IsHexDigit(t[i])
  }

  /** `re.match(MAC_REGEX, s)`, the MAC address pattern anchored at both ends. */
  predicate MatchesMacRegex(s: string)
  {
    IsMacAddress(DropFinalNewline(s))
  }

  /** `_determine_identifier_type`: the path pattern first, then the MAC pattern, and a name otherwise. */
  function Classify(s: string): (k: IdentifierType)
    ensures k == Path <==> MatchesPathRegex(s)
    ensures k == Mac <==> !MatchesPathRegex(s) && MatchesMacRegex(s)
    ensures k == Name <==> !MatchesPathRegex(s) && !MatchesMacRegex(s)
  {
    if MatchesPathRegex(s) then Path
    else if MatchesMacRegex(s) then Mac
    else Name
  }

  /** A string of the MAC pattern starts with a hex digit, so it is never a device path. */
  lemma MacIsNotPath(s: string)
    requires MatchesMacRegex(s)
    ensures !MatchesPathRegex(s)
  {
    var t := DropFinalNewline(s);
    assert IsHexDigit(t[0]) && t[0] == s[0];
    assert s[..|PATH_PREFIX|][0] == s[0] != PATH_PREFIX[0];
  }

  /** Each kind of identifier string is classified as such; a trailing newline is accepted by both patterns. */
  lemma ClassifyExamples()
    ensures Classify("/dev/input/event3") == Path
    ensures Classify("/dev/input/event3\n") == Path
    ensures Classify("/dev/input/mice") == Name
    ensures Classify("AA:bb-CC:dd:EE:ff") == Mac
    ensures Classify("AA:BB:CC:DD:EE") == Name
    ensures Classify("Logitech K380") == Name
  {
    assert StartsWith("/dev/input/event3", PATH_PREFIX);
    assert "/dev/input/event3"[|PATH_PREFIX|..] == "3";
    assert StartsWith("/dev/input/event3\n", PATH_PREFIX);
    assert "/dev/input/event3\n"[|PATH_PREFIX|..] == "3\n";
    assert DropFinalNewline("AA:bb-CC:dd:EE:ff") == "AA:bb-CC:dd:EE:ff";
    assert IsMacAddress("AA:bb-CC:dd:EE:ff");
    assert !StartsWith("AA:bb-CC:dd:EE:ff", PATH_PREFIX) by {
      assert "AA:bb-CC:dd:EE:ff"[0] != PATH_PREFIX[0];
    }
    assert !StartsWith("Logitech K380", PATH_PREFIX) by {
      assert "Logitech K380"[0] != PATH_PREFIX[0];
    }
    assert !StartsWith("AA:BB:CC:DD:EE", PATH_PREFIX) by {
      assert "AA:BB:CC:DD:EE"[0] != PATH_PREFIX[0];
    }
  }

  /** `_normalize_identifier`: a path is kept as it is, a MAC address is lower-cased with `-` replaced by `:`,
      and a name is lower-cased. */
  function Normalize(kind: IdentifierType, s: string): string
  {
    match kind
    case Path => s
    case Mac => Replace(Lower(s), '-', ':')
    case Name => Lower(s)
  }

  /** Normalising a normalised value changes nothing more. */
  lemma NormalizeIdempotent(kind: IdentifierType, s: string)
    ensures Normalize(kind, Normalize(kind, s)) == Normalize(kind, s)
  {
    LowerIdempotent(s);
    if kind == Mac {
      var n := Normalize(kind, s);
      assert forall i :: 0 <= i < |n| ==> !IsUpper(n[i]);
      LowerIdempotent(n);
    }
  }

  /** A `DeviceIdentifier`: the string it was built from, and the type and normalised value `__init__` computes
      once from it. */
  datatype DeviceIdentifier = DeviceIdentifier(value: string, kind: IdentifierType, normalized: string)

  /** `DeviceIdentifier(value)`. A normalised MAC address still has the MAC pattern and holds no upper-case
      letter and no `-`; a normalised name has no upper-case letter; a path is unchanged. */
  function NewDeviceIdentifier(value: string): (id: DeviceIdentifier)
    ensures id.value == value && id.kind == Classify(value)
    ensures id.kind == Path ==> id.normalized == value
    ensures id.kind == Name ==> id.normalized == Lower(value)
    ensures id.kind != Path ==> forall i :: 0 <= i < |id.normalized| ==> !IsUpper(id.normalized[i])
    ensures id.kind == Mac ==> MatchesMacRegex(id.normalized)
    ensures id.kind == Mac ==> forall i :: 0 <= i < |id.normalized| ==> id.normalized[i] != '-'
  {
    var kind := Classify(value);
    NormalizedMac(value);
    DeviceIdentifier(value, kind, Normalize(kind, value))
  }

  /** Lower-casing a MAC address and turning its `-` into `:` keeps it a MAC address. */
  lemma NormalizedMac(s: string)
    ensures MatchesMacRegex(s) ==> MatchesMacRegex(Replace(Lower(s), '-', ':'))
  {
    if !MatchesMacRegex(s) {
      return;
    }
    var n := Replace(Lower(s), '-', ':');
    var t := DropFinalNewline(s);
    if t == s {
      assert DropFinalNewline(n) == n;
    } else {
      assert n[|n| - 1] == '\n';
      assert DropFinalNewline(n) == n[..|n| - 1];
    }
    var u := DropFinalNewline(n);
    assert |u| == 17;
    forall i | 0 <= i < 17
      ensures if i % 3 == 2 then u[i] == ':' || u[i] == '-' else IsHexDigit(u[i])
    {
      assert u[i] == n[i] && t[i] == s[i];
    }
  }

  /** `DeviceIdentifier.matches`: a path equals the device node exactly (case counts); a normalised MAC
      address equals the device's `uniq` string as reported; a normalised name occurs in the lower-cased
      device name. */
  predicate Matches(id: DeviceIdentifier, device: InputDevice)
  {
    match id.kind
    case Path => id.value == device.path
    case Mac => id.normalized == device.uniq
    case Name => Contains(Lower(device.name), id.normalized)
  }

  /** The empty identifier is a name, and it occurs in every device name: it matches every device. */
  lemma EmptyNameMatchesEveryDevice(device: InputDevice)
    ensures NewDeviceIdentifier("").kind == Name
    ensures Matches(NewDeviceIdentifier(""), device)
  {
    assert !StartsWith("", PATH_PREFIX);
    ContainsEmpty(Lower(device.name));
  }

  /** A path identifier matches only the device at exactly that node, which has the path pattern itself. */
  lemma PathMatchesOneNode(value: string, device: InputDevice)
    requires NewDeviceIdentifier(value).kind == Path
    ensures Matches(NewDeviceIdentifier(value), device) <==> device.path == value
    ensures Matches(NewDeviceIdentifier(value), device) ==> MatchesPathRegex(device.path)
  {
  }

  /** A MAC identifier matches a device exactly when its lower-cased, colon-separated form is the device's
      `uniq`. The `uniq` string is not normalised: one with an upper-case letter or a `-` matches no MAC
      identifier at all. */
  lemma MacMatchesNormalizedUniq(value: string, device: InputDevice)
    requires NewDeviceIdentifier(value).kind == Mac
    ensures Matches(NewDeviceIdentifier(value), device) <==> device.uniq == Replace(Lower(value), '-', ':')
    ensures (exists i :: 0 <= i < |device.uniq| && (IsUpper(device.uniq[i]) || device.uniq[i] == '-')) ==>
      !Matches(NewDeviceIdentifier(value), device)
  {
  }

  /** Name matching ignores the case of the device name. */
  lemma NameMatchIgnoresCase(value: string, device: InputDevice)
    requires NewDeviceIdentifier(value).kind == Name
    ensures Matches(NewDeviceIdentifier(value), device) == Matches(NewDeviceIdentifier(value), device.(name := Lower(device.name)))
  {
    LowerIdempotent(device.name);
  }

  // ---------------------------------------------------------------------------------------------------
  // Selecting devices.

  /** `any(id.matches(device) for id in ids)`. */
  predicate MatchesAny(ids: seq<DeviceIdentifier>, device: InputDevice)
    ensures MatchesAny(ids, device) <==> exists i :: 0 <= i < |ids| && Matches(ids[i], device)
  {
    if ids == [] then false
    else
      assert forall i :: 0 < i < |ids| ==> ids[i] == ids[1..][i - 1];
      Matches(ids[0], device) || MatchesAny(ids[1..], device)
  }

  /** `_matches_criteria`: auto-discovery relays every device, otherwise some identifier has to match. */
  predicate MatchesCriteria(ids: seq<DeviceIdentifier>, autoDiscover: bool, device: InputDevice)
  {
    autoDiscover || MatchesAny(ids, device)
  }

  /** `_should_relay`: no relay task is named after the device's path yet, and the criteria hold. With no
      identifiers and auto-discovery off nothing is relayed. */
  predicate ShouldRelay(ids: seq<DeviceIdentifier>, autoDiscover: bool, tasks: seq<string>, device: InputDevice)
    ensures ids == [] && !autoDiscover ==> !ShouldRelay(ids, autoDiscover, tasks, device)
  {
    device.path !in tasks && MatchesCriteria(ids, autoDiscover, device)
  }

  predicate Distinct(s: seq<string>)
  {
    forall i, j :: 0 <= i < j < |s| ==> s[i] != s[j]
  }

  /** The relay tasks after one pass of `_async_discover_devices` over the devices listed, in order: each
      device `_should_relay` admits gets a task named after its path while the controller is not cancelled. */
  function Discover(ids: seq<DeviceIdentifier>, autoDiscover: bool, cancelled: bool, tasks: seq<string>,
                    devices: seq<InputDevice>): seq<string>
    decreases |devices|
  {
    if devices == [] then tasks
    else
      var before := Discover(ids, autoDiscover, cancelled, tasks, devices[..|devices| - 1]);
      var device := devices[|devices| - 1];
      if !cancelled && ShouldRelay(ids, autoDiscover, before, device) then before + [device.path] else before
  }

  /** A pass only appends tasks, one per path: the old tasks stay first, every new task is named after a
      listed device that meets the criteria and had no task, and no path gets two tasks. */
  lemma {:induction false} DiscoverAppends(ids: seq<DeviceIdentifier>, autoDiscover: bool, cancelled: bool,
                                           tasks: seq<string>, devices: seq<InputDevice>)
    requires Distinct(tasks)
    ensures var r := Discover(ids, autoDiscover, cancelled, tasks, devices);
      && |tasks| <= |r| && r[..|tasks|] == tasks && Distinct(r)
      && forall k :: |tasks| <= k < |r| ==>
           r[k] !in tasks && exists d :: d in devices && d.path == r[k] && MatchesCriteria(ids, autoDiscover, d)
    decreases |devices|
  {
    if devices != [] {
      var front := devices[..|devices| - 1];
      var device := devices[|devices| - 1];
      DiscoverAppends(ids, autoDiscover, cancelled, tasks, front);
      var before := Discover(ids, autoDiscover, cancelled, tasks, front);
      var r := Discover(ids, autoDiscover, cancelled, tasks, devices);
      forall d | d in front ensures d in devices {
        assert devices == front + [device];
      }
      if r != before {
        assert r == before + [device.path];
        assert device in devices;
        assert r[..|tasks|] == before[..|tasks|];
        forall k | |tasks| <= k < |r|
          ensures r[k] !in tasks && exists d :: d in devices && d.path == r[k] && MatchesCriteria(ids, autoDiscover, d)
        {
          if k == |before| {
            assert r[k] == device.path;
            assert device.path !in before;
            assert forall t :: t in tasks ==> t in before by {
              assert forall j :: 0 <= j < |tasks| ==> tasks[j] == before[j];
            }
          } else {
            assert r[k] == before[k];
          }
        }
      }
    }
  }

  /** When the pass is not cancelled, every listed device that meets the criteria has a task afterwards. */
  lemma {:induction false} DiscoverCovers(ids: seq<DeviceIdentifier>, autoDiscover: bool, tasks: seq<string>,
                                          devices: seq<InputDevice>)
    ensures forall d :: d in devices && MatchesCriteria(ids, autoDiscover, d) ==>
      d.path in Discover(ids, autoDiscover, false, tasks, devices)
    decreases |devices|
  {
    if devices != [] {
      var front := devices[..|devices| - 1];
      DiscoverCovers(ids, autoDiscover, tasks, front);
      var before := Discover(ids, autoDiscover, false, tasks, front);
      var r := Discover(ids, autoDiscover, false, tasks, devices);
      assert forall t :: t in before ==> t in r;
      forall d | d in devices && MatchesCriteria(ids, autoDiscover, d) ensures d.path in r {
        if d != devices[|devices| - 1] {
          assert devices == front + [devices[|devices| - 1]];
          assert d in front;
        }
      }
    }
  }

  /** A cancelled controller discovers nothing. */
  lemma {:induction false} DiscoverCancelled(ids: seq<DeviceIdentifier>, autoDiscover: bool, tasks: seq<string>,
                                             devices: seq<InputDevice>)
    ensures Discover(ids, autoDiscover, true, tasks, devices) == tasks
    decreases |devices|
  {
    if devices != [] {
      DiscoverCancelled(ids, autoDiscover, tasks, devices[..|devices| - 1]);
    }
  }

  /** A pass that finds every path it would relay already taken changes nothing. */
  lemma {:induction false} DiscoverNothingNew(ids: seq<DeviceIdentifier>, autoDiscover: bool, cancelled: bool,
                                              tasks: seq<string>, devices: seq<InputDevice>)
    requires forall d :: d in devices && MatchesCriteria(ids, autoDiscover, d) ==> d.path in tasks
    ensures Discover(ids, autoDiscover, cancelled, tasks, devices) == tasks
    decreases |devices|
  {
    if devices != [] {
      var front := devices[..|devices| - 1];
      assert forall d :: d in front ==> d in devices;
      DiscoverNothingNew(ids, autoDiscover, cancelled, tasks, front);
      assert devices[|devices| - 1] in devices;
    }
  }

  /** Repeating a pass over the same devices adds no task: each path is relayed at most once. */
  lemma DiscoverIdempotent(ids: seq<DeviceIdentifier>, autoDiscover: bool, cancelled: bool, tasks: seq<string>,
                           devices: seq<InputDevice>)
    ensures var r := Discover(ids, autoDiscover, cancelled, tasks, devices);
      Discover(ids, autoDiscover, cancelled, r, devices) == r
  {
    var r := Discover(ids, autoDiscover, cancelled, tasks, devices);
    if cancelled {
      DiscoverCancelled(ids, autoDiscover, r, devices);
    } else {
      DiscoverCovers(ids, autoDiscover, tasks, devices);
      DiscoverNothingNew(ids, autoDiscover, cancelled, r, devices);
    }
  }

  /** The list of tasks without the one named p, as it is once that task has finished. */
  function RemoveTask(tasks: seq<string>, p: string): (r: seq<string>)
    ensures forall t :: t in r <==> t in tasks && t != p
    ensures |r| <= |tasks|
    decreases |tasks|
  {
    if tasks == [] then []
    else if tasks[0] == p then RemoveTask(tasks[1..], p)
    else [tasks[0]] + RemoveTask(tasks[1..], p)
  }

  lemma {:induction false} RemoveTaskDistinct(tasks: seq<string>, p: string)
    requires Distinct(tasks)
    ensures Distinct(RemoveTask(tasks, p))
    decreases |tasks|
  {
    if tasks != [] {
      assert Distinct(tasks[1..]) by {
        forall i, j | 0 <= i < j < |tasks[1..]| ensures tasks[1..][i] != tasks[1..][j] {
          assert tasks[1..][i] == tasks[i + 1] && tasks[1..][j] == tasks[j + 1];
        }
      }
      RemoveTaskDistinct(tasks[1..], p);
      assert tasks[0] !in tasks[1..] by {
        forall j | 0 <= j < |tasks[1..]| ensures tasks[1..][j] != tasks[0] {
          assert tasks[1..][j] == tasks[j + 1];
        }
      }
    }
  }

  /** `RelayController`: the identifiers and flags fixed by `__init__`, the `_cancelled` flag, and the names of
      the relay tasks that are running (the names `_has_task` looks for among the loop's tasks). */
  class RelayController {
    const deviceIds: seq<DeviceIdentifier>
    const autoDiscover: bool
    const grabDevices: bool
    var cancelled: bool
    var tasks: seq<string>

    /** No task is named twice. */
    predicate Valid()
      reads this
    {
      Distinct(tasks)
    }

    /** `RelayController(device_identifiers, auto_discover, grab_devices)`; a missing list counts as empty. */
    constructor(identifiers: Option<seq<string>>, autoDiscover: bool, grabDevices: bool)
      ensures Valid()
      ensures |deviceIds| == (if identifiers.Some? then |identifiers.value| else 0)
      ensures forall i :: 0 <= i < |deviceIds| ==> deviceIds[i] == NewDeviceIdentifier(identifiers.value[i])
      ensures this.autoDiscover == autoDiscover && this.grabDevices == grabDevices
      ensures !cancelled && tasks == []
    {
      var given := if identifiers.Some? then identifiers.value else [];
      deviceIds := seq(|given|, i requires 0 <= i < |given| => NewDeviceIdentifier(given[i]));
      this.autoDiscover := autoDiscover;
      this.grabDevices := grabDevices;
      cancelled := false;
      tasks := [];
    }

    /** One round of the discovery loop over the devices listed: a device `_should_relay` admits is yielded,
        and a task named after its path is created unless the controller is cancelled. */
    method DiscoverPass(devices: seq<InputDevice>)
      requires Valid()
      modifies this
      ensures Valid()
      ensures tasks == Discover(deviceIds, autoDiscover, cancelled, old(tasks), devices)
      ensures cancelled == old(cancelled)
    {
      DiscoverAppends(deviceIds, autoDiscover, cancelled, tasks, devices);
      ghost var start := tasks;
      for i := 0 to |devices|
        invariant tasks == Discover(deviceIds, autoDiscover, cancelled, start, devices[..i])
        invariant cancelled == old(cancelled)
      {
        assert devices[..i + 1][..i] == devices[..i];
        if ShouldRelay(deviceIds, autoDiscover, tasks, devices[i]) {
          if !cancelled {
            tasks := tasks + [devices[i].path];
          }
        }
      }
      assert devices[..|devices|] == devices;
    }

    /** A relay task ends, whatever the reason; when the reason is a cancellation, `_cancelled` is set. */
    method RelayEnded(path: string, byCancellation: bool)
      requires Valid()
      modifies this
      ensures Valid()
      ensures tasks == RemoveTask(old(tasks), path)
      ensures cancelled == (old(cancelled) || byCancellation)
    {
      RemoveTaskDistinct(tasks, path);
      tasks := RemoveTask(tasks, path);
      if byCancellation {
        cancelled := true;
      }
    }
  }

  // ---------------------------------------------------------------------------------------------------
  // Routing events to the gadgets.

  /** The three USB gadgets. */
  datatype Channel = ConsumerChannel | MouseChannel | KeyboardChannel

  /** `_get_output_device`: consumer keys go to the consumer-control gadget, then mouse buttons to the mouse,
      and every other key to the keyboard. */
  function OutputChannel(code: int): (c: Channel)
    ensures c == ConsumerChannel <==> IsConsumerKey(code)
    ensures c == MouseChannel <==> IsMouseButton(code)
    ensures c == KeyboardChannel <==> GetHidCodeType(code) == Keycodes
  {
    ConsumerKeysAreNotMouseButtons();
    if IsConsumerKey(code) then ConsumerChannel
    else if IsMouseButton(code) then MouseChannel
    else KeyboardChannel
  }

  /** Which of the module's gadget globals `_keyboard_gadget`, `_mouse_gadget` and `_consumer_gadget` are set. */
  datatype Gadgets = Gadgets(keyboard: bool, mouse: bool, consumer: bool)

  function Ready(g: Gadgets, c: Channel): bool
  {
    match c
    case KeyboardChannel => g.keyboard
    case MouseChannel => g.mouse
    case ConsumerChannel => g.consumer
  }

  /** What handling one event asks of the gadgets. */
  datatype Output =
    | NoOutput
    | Press(channel: Channel, usage: Usage)
    | Release(channel: Channel, usage: Usage)
    | Move(x: int, y: int, wheel: int)
    | Failed(error: Error)

  /** `_send_key`: an event without a usage or without a usage name is dropped; a gadget that is not set is a
      `RuntimeError`; otherwise key-down presses and key-up releases the usage on the gadget of the key's
      channel, and a held key sends nothing. The usage always suits the gadget: consumer usages go only to the
      consumer-control gadget and mouse buttons only to the mouse. */
  function SendKey(g: Gadgets, event: KeyEvent, usageName: UsageNamer): (r: Output)
    ensures !r.Move?
    ensures r.Press? <==> event.keystate == KeyDown && Sendable(g, event, usageName)
    ensures r.Release? <==> event.keystate == KeyUp && Sendable(g, event, usageName)
    ensures r.Press? || r.Release? ==>
      && r.channel == OutputChannel(event.scancode) && UsbHid(event.scancode) == Some(r.usage)
      && (r.usage.Consumer? <==> r.channel == ConsumerChannel) && (r.usage.Button? <==> r.channel == MouseChannel)
    ensures r.Failed? <==> Translated(event, usageName) && !Ready(g, OutputChannel(event.scancode))
    ensures r.Failed? ==> r.error == RuntimeError("USB gadget not initialized")
  {
    TableAgreesWithClassification();
    var (id, name) := EvdevToUsbHid(event, usageName);
    if id.None? || name.None? then NoOutput
    else
      var channel := OutputChannel(event.scancode);
      if !Ready(g, channel) then Failed(RuntimeError("USB gadget not initialized"))
      else
        match event.keystate
        case KeyDown => Press(channel, id.value)
        case KeyUp => Release(channel, id.value)
        case KeyHold => NoOutput
  }

  /** The key has a usage and `find_usage_name` names it. */
  predicate Translated(event: KeyEvent, usageName: UsageNamer)
  {
    EvdevToUsbHid(event, usageName).0.Some? && EvdevToUsbHid(event, usageName).1.Some?
  }

  /** The key is translated and the gadget of its channel is set. */
  predicate Sendable(g: Gadgets, event: KeyEvent, usageName: UsageNamer)
  {
    Translated(event, usageName) && Ready(g, OutputChannel(event.scancode))
  }

  /** `_move_mouse`: a `RuntimeError` when the mouse gadget is not set, otherwise the movement of the event. */
  function MoveMouse(g: Gadgets, event: RelEvent): (r: Output)
    ensures r.Failed? <==> !g.mouse
    ensures r.Failed? ==> r.error == RuntimeError("Mouse gadget not initialized")
    ensures !r.Failed? ==> r == Move(GetMouseMovement(event).0, GetMouseMovement(event).1, GetMouseMovement(event).2)
  {
    if !g.mouse then Failed(RuntimeError("Mouse gadget not initialized"))
    else
      var (x, y, wheel) := GetMouseMovement(event);
      Move(x, y, wheel)
  }

  /** An input event as `categorize` returns it. */
  datatype InputEvent = RelInput(rel: RelEvent) | KeyInput(key: KeyEvent) | OtherInput

  /** `DeviceRelay._async_relay_event`: relative events move the mouse, key events are sent as keys, and any
      other event produces nothing. */
  function RelayEvent(g: Gadgets, event: InputEvent, usageName: UsageNamer): (r: Output)
    ensures event.OtherInput? ==> r == NoOutput
    ensures r.Move? ==> event.RelInput?
    ensures r.Press? || r.Release? ==> event.KeyInput?
    ensures event.RelInput? ==> r.Move? || r.Failed?
  {
    match event
    case RelInput(rel) => MoveMouse(g, rel)
    case KeyInput(key) => SendKey(g, key, usageName)
    case OtherInput => NoOutput
  }

  /** The module's gadget globals, set together by `init_usb_gadgets`. */
  class UsbGadgets {
    var state: Gadgets

    /** At import time none of the globals is set. */
    constructor()
      ensures state == Gadgets(false, false, false)
    {
      state := Gadgets(false, false, false);
    }

    /** `all_gadgets_ready`. */
    predicate AllGadgetsReady()
      reads this
    {
      state.keyboard && state.mouse && state.consumer
    }

    /** `init_usb_gadgets`: all three gadgets are set. */
    method InitUsbGadgets()
      modifies this
      ensures state == Gadgets(true, true, true)
    {
      state := Gadgets(true, true, true);
    }

    /** The part of `DeviceRelay.__init__` that initialises the gadgets when one of them is missing: afterwards
        all are ready, and gadgets that were all ready already are left alone. */
    method PrepareRelay()
      modifies this
      ensures AllGadgetsReady()
      ensures old(AllGadgetsReady()) ==> state == old(state)
    {
      if !AllGadgetsReady() {
        InitUsbGadgets();
      }
    }
  }

  /** Once the gadgets are ready, every translated key-down or key-up reaches its gadget: no key fails. */
  lemma ReadyGadgetsNeverFail(event: KeyEvent, usageName: UsageNamer)
    ensures !SendKey(Gadgets(true, true, true), event, usageName).Failed?
    ensures Translated(event, usageName) && event.keystate != KeyHold ==>
      SendKey(Gadgets(true, true, true), event, usageName).Press? || SendKey(Gadgets(true, true, true), event, usageName).Release?
  {
  }
}
