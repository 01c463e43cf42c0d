/**
 * bluetooth_2_usb/relay.py, the earlier relay: `InputDeviceIdentifier` (the MAC pattern is checked before the
 * path pattern), the discovery criteria with the `vc4-hdmi-` exclusion for auto-discovery, the per-path task
 * table `_device_tasks`, and the key and movement handling of `InputDeviceRelay`, whose gadgets always exist.
 * The module bluetooth_2_usb/evdev.py it imports is not part of this model; the translation of
 * src/bluetooth_2_usb/evdev.py stands in for it.
 */
module LegacyRelay {
  import opened Wrappers
  import opened Strings
  import opened Evdev
  import opened Relay

  // ---------------------------------------------------------------------------------------------------
  // Identifiers.

  /** `_determine_identifier_type` of `InputDeviceIdentifier`: the MAC pattern first, then the path pattern. */
  function ClassifyLegacy(s: string): IdentifierType
  {
    if MatchesMacRegex(s) then Mac
    else if MatchesPathRegex(s) then Path
    else Name
  }

  /** Testing the MAC pattern first classifies every string as the later `DeviceIdentifier` does, because no
      device path has the MAC pattern. */
  lemma ClassificationAgrees(s: string)
    ensures ClassifyLegacy(s) == Classify(s)
  {
    if MatchesMacRegex(s) {
      MacIsNotPath(s);
    }
  }

  /** `_normalize_identifier` of `InputDeviceIdentifier`, which tests the types in the order path, name, MAC. */
  function NormalizeLegacy(kind: IdentifierType, s: string): string
  {
    if kind == Path then s
    else if kind == Name then Lower(s)
    else Replace(Lower(s), '-', ':')
  }

  /** `InputDeviceIdentifier(value)`: it has the same type and normalised value as the later identifier. */
  function NewInputDeviceIdentifier(value: string): (id: DeviceIdentifier)
    ensures id == NewDeviceIdentifier(value)
  {
    ClassificationAgrees(value);
    var kind := ClassifyLegacy(value);
    DeviceIdentifier(value, kind, NormalizeLegacy(kind, value))
  }

  /** `InputDeviceIdentifier.matches`, testing path, name, MAC in that order; the name is that of
      `f"{device.name}"`. It agrees with `DeviceIdentifier.matches` on every identifier and device. */
  predicate MatchesLegacy(id: DeviceIdentifier, device: InputDevice)
    ensures MatchesLegacy(id, device) == Matches(id, device)
  {
    if id.kind == Path then id.value == device.path
    else if id.kind == Name then Contains(Lower(device.name), id.normalized)
    else id.normalized == device.uniq
  }

  // ---------------------------------------------------------------------------------------------------
  // Discovery criteria and the table of relay tasks.

  const HDMI_MARKER: string := "vc4-hdmi-"

  /** `_is_auto_discoverable`: auto-discovery is on and the device is not one of the HDMI audio devices. */
  predicate IsAutoDiscoverable(autoDiscover: bool, device: InputDevice)
  {
    autoDiscover && !Contains(device.name, HDMI_MARKER)
  }

  /** `_matches_discovery_criteria`. */
  predicate MatchesDiscoveryCriteria(ids: seq<DeviceIdentifier>, autoDiscover: bool, device: InputDevice)
  {
    IsAutoDiscoverable(autoDiscover, device) || MatchesAny(ids, device)
  }

  /** An HDMI device is relayed only when an identifier names it, even with auto-discovery on. */
  lemma HdmiNeedsIdentifier(ids: seq<DeviceIdentifier>, autoDiscover: bool, device: InputDevice)
    requires Contains(device.name, HDMI_MARKER)
    ensures MatchesDiscoveryCriteria(ids, autoDiscover, device) <==> exists i :: 0 <= i < |ids| && Matches(ids[i], device)
  {
  }

  /** `_should_relay`: the path has no entry in `_device_tasks` and the criteria hold. */
  predicate ShouldRelayLegacy(ids: seq<DeviceIdentifier>, autoDiscover: bool, tasks: map<string, InputDevice>,
                              device: InputDevice)
  {
    device.path !in tasks && MatchesDiscoveryCriteria(ids, autoDiscover, device)
  }

  /** `_device_tasks` after one `_discover_devices` pass over the devices listed, in order: each device
      `_should_relay` admits gets an entry under its path. */
  function DiscoverLegacy(ids: seq<DeviceIdentifier>, autoDiscover: bool, tasks: map<string, InputDevice>,
                          devices: seq<InputDevice>): map<string, InputDevice>
    decreases |devices|
  {
    if devices == [] then tasks
    else
      var before := DiscoverLegacy(ids, autoDiscover, tasks, devices[..|devices| - 1]);
      var device := devices[|devices| - 1];
      if ShouldRelayLegacy(ids, autoDiscover, before, device) then before[device.path := device] else before
  }

  /** A pass never replaces or removes an entry, and every entry it adds is for a listed device that meets the
      criteria, stored under its own path. */
  lemma {:induction false} DiscoverLegacyExtends(ids: seq<DeviceIdentifier>, autoDiscover: bool,
                                                 tasks: map<string, InputDevice>, devices: seq<InputDevice>)
    ensures var r := DiscoverLegacy(ids, autoDiscover, tasks, devices);
      && (forall p :: p in tasks ==> p in r && r[p] == tasks[p])
      && (forall p :: p in r && p !in tasks ==>
            r[p] in devices && r[p].path == p && MatchesDiscoveryCriteria(ids, autoDiscover, r[p]))
    decreases |devices|
  {
    if devices != [] {
      var front := devices[..|devices| - 1];
      DiscoverLegacyExtends(ids, autoDiscover, tasks, front);
      assert forall d :: d in front ==> d in devices;
      assert devices[|devices| - 1] in devices;
    }
  }

  /** After a pass every listed device that meets the criteria has an entry under its path. */
  lemma {:induction false} DiscoverLegacyCovers(ids: seq<DeviceIdentifier>, autoDiscover: bool,
                                                tasks: map<string, InputDevice>, devices: seq<InputDevice>)
    ensures forall d :: d in devices && MatchesDiscoveryCriteria(ids, autoDiscover, d) ==>
      d.path in DiscoverLegacy(ids, autoDiscover, tasks, devices)
    decreases |devices|
  {
    if devices != [] {
      var front := devices[..|devices| - 1];
      var last := devices[|devices| - 1];
      DiscoverLegacyCovers(ids, autoDiscover, tasks, front);
      assert devices == front + [last];
      forall d | d in devices && MatchesDiscoveryCriteria(ids, autoDiscover, d)
        ensures d.path in DiscoverLegacy(ids, autoDiscover, tasks, devices)
      {
        if d != last {
          assert d in front;
        }
      }
    }
  }

  /** A pass that finds every path it would relay already in the table changes nothing. */
  lemma {:induction false} DiscoverLegacyNothingNew(ids: seq<DeviceIdentifier>, autoDiscover: bool,
                                                    tasks: map<string, InputDevice>, devices: seq<InputDevice>)
    requires forall d :: d in devices && MatchesDiscoveryCriteria(ids, autoDiscover, d) ==> d.path in tasks
    ensures DiscoverLegacy(ids, autoDiscover, tasks, devices) == tasks
    decreases |devices|
  {
    if devices != [] {
      var front := devices[..|devices| - 1];
      assert forall d :: d in front ==> d in devices;
      DiscoverLegacyNothingNew(ids, autoDiscover, tasks, front);
      assert devices[|devices| - 1] in devices;
    }
  }

  /** A second pass over the same devices adds nothing: at most one task per path. */
  lemma DiscoverLegacyIdempotent(ids: seq<DeviceIdentifier>, autoDiscover: bool, tasks: map<string, InputDevice>,
                                 devices: seq<InputDevice>)
    ensures var r := DiscoverLegacy(ids, autoDiscover, tasks, devices);
      DiscoverLegacy(ids, autoDiscover, r, devices) == r
  {
    DiscoverLegacyCovers(ids, autoDiscover, tasks, devices);
    DiscoverLegacyNothingNew(ids, autoDiscover, DiscoverLegacy(ids, autoDiscover, tasks, devices), devices);
  }

  /** `_device_tasks` after the rounds of `_discover_devices_loop`, one `_discover_devices` pass over each
      listing in turn. */
  function DiscoverRounds(ids: seq<DeviceIdentifier>, autoDiscover: bool, tasks: map<string, InputDevice>,
                          rounds: seq<seq<InputDevice>>): map<string, InputDevice>
    decreases |rounds|
  {
    if rounds == [] then tasks
    else DiscoverLegacy(ids, autoDiscover, DiscoverRounds(ids, autoDiscover, tasks, rounds[..|rounds| - 1]),
                        rounds[|rounds| - 1])
  }

  /** Rounds that keep listing the same devices relay nothing after the first round: any number of them leave
      the table of the first pass. */
  lemma {:induction false} DiscoverRoundsRepeat(ids: seq<DeviceIdentifier>, autoDiscover: bool,
                                                tasks: map<string, InputDevice>, rounds: seq<seq<InputDevice>>,
                                                devices: seq<InputDevice>)
    requires |rounds| > 0
    requires forall k :: 0 <= k < |rounds| ==> rounds[k] == devices
    ensures DiscoverRounds(ids, autoDiscover, tasks, rounds) == DiscoverLegacy(ids, autoDiscover, tasks, devices)
    decreases |rounds|
  {
    var front := rounds[..|rounds| - 1];
    if front == [] {
      assert DiscoverRounds(ids, autoDiscover, tasks, front) == tasks;
    } else {
      DiscoverRoundsRepeat(ids, autoDiscover, tasks, front, devices);
      DiscoverLegacyIdempotent(ids, autoDiscover, tasks, devices);
    }
  }

  // ---------------------------------------------------------------------------------------------------
  // The end of a relay task.

  /** How `_async_relay_events` ends for a device. */
  datatype RelayExit =
    | ConstructorRaised(error: Error)  // `InputDeviceRelay(device)` raised, before the `try` is entered
    | Cancelled                        // the relay loop received CancelledError
    | ConnectionLost                   // OSError or FileNotFoundError, caught
    | Failed                           // any other Exception, caught
    | Finished                         // the read loop came to an end

  /** A discovery task, as `_discovery_task` would hold it. */
  datatype DiscoveryTask = DiscoveryTask(cancelled: bool)

  /** What the end of a relay task leaves: the table of relay tasks, `_discovery_task`, and how the task ends
      (an exception escaping it, or none). */
  datatype ExitOutcome = ExitOutcome(tasks: map<string, InputDevice>, discovery: Option<DiscoveryTask>,
                                     result: Result<()>)

  /** The error `None.cancel()` raises. */
  const NONE_HAS_NO_CANCEL: string := "'NoneType' object has no attribute 'cancel'"

  /** The end of `_async_relay_events` as written. A constructor that raises does so outside the `try`, so the
      `finally` clause is skipped and the entry stays. A cancellation calls `cancel` on `_discovery_task`,
      which raises AttributeError when that is None; the `finally` clause still pops the entry, and the
      AttributeError then escapes the task. Every other exit is caught and the entry popped. */
  function RelayExitAsWritten(tasks: map<string, InputDevice>, discovery: Option<DiscoveryTask>,
                              device: InputDevice, exit: RelayExit): ExitOutcome
  {
    match exit
    case ConstructorRaised(e) => ExitOutcome(tasks, discovery, Err(e))
    case Cancelled =>
      if discovery.None? then ExitOutcome(tasks - {device.path}, None, Err(AttributeError(NONE_HAS_NO_CANCEL)))
      else ExitOutcome(tasks - {device.path}, Some(DiscoveryTask(true)), Ok(()))
    case _ => ExitOutcome(tasks - {device.path}, discovery, Ok(()))
  }

  /** The end of `_async_relay_events` as evidently intended: the relay is built inside the `try`, so every
      exit reaches the `finally` clause, and a cancellation cancels the discovery task, which exists. */
  function RelayExitIntended(tasks: map<string, InputDevice>, discovery: DiscoveryTask, device: InputDevice,
                             exit: RelayExit): ExitOutcome
  {
    ExitOutcome(tasks - {device.path}, Some(if exit.Cancelled? then DiscoveryTask(true) else discovery), Ok(()))
  }

  /** As written, a relay whose gadgets cannot be built keeps its entry, so no later pass relays the device
      again, and the constructor's error escapes the task. */
  lemma ConstructorFailureBlocksRediscovery(ids: seq<DeviceIdentifier>, autoDiscover: bool,
                                            tasks: map<string, InputDevice>, discovery: Option<DiscoveryTask>,
                                            device: InputDevice, e: Error)
    requires device.path in tasks
    ensures var o := RelayExitAsWritten(tasks, discovery, device, ConstructorRaised(e));
      o.tasks == tasks && o.discovery == discovery && o.result == Err(e)
      && !ShouldRelayLegacy(ids, autoDiscover, o.tasks, device)
  {
  }

  /** As written, with `_discovery_task` still None, a cancellation cancels nothing and raises AttributeError. */
  lemma CancellationRaisesAttributeError(tasks: map<string, InputDevice>, device: InputDevice)
    ensures RelayExitAsWritten(tasks, None, device, Cancelled)
      == ExitOutcome(tasks - {device.path}, None, Err(AttributeError(NONE_HAS_NO_CANCEL)))
  {
  }

  /** As intended, every exit frees the device's path, so the device can be rediscovered; nothing escapes the
      task; the discovery task is cancelled exactly on a cancellation. */
  lemma IntendedExitFreesPath(ids: seq<DeviceIdentifier>, autoDiscover: bool, tasks: map<string, InputDevice>,
                              discovery: DiscoveryTask, device: InputDevice, exit: RelayExit)
    ensures var o := RelayExitIntended(tasks, discovery, device, exit);
      && o.tasks == tasks - {device.path} && o.result == Ok(())
      && (ShouldRelayLegacy(ids, autoDiscover, o.tasks, device) <==> MatchesDiscoveryCriteria(ids, autoDiscover, device))
      && (exit.Cancelled? ==> o.discovery == Some(DiscoveryTask(true)))
      && (!exit.Cancelled? ==> o.discovery == Some(discovery))
  {
  }

  /** The two differ only where the findings are: on the exits caught inside the `try`, and on a cancellation
      once a discovery task exists, the code does what was intended. */
  lemma AsWrittenAgreesElsewhere(tasks: map<string, InputDevice>, discovery: DiscoveryTask, device: InputDevice,
                                 exit: RelayExit)
    requires !exit.ConstructorRaised?
    ensures RelayExitAsWritten(tasks, Some(discovery), device, exit) == RelayExitIntended(tasks, discovery, device, exit)
  {
  }

  /** `RelayController` of the earlier relay: the identifiers and the auto-discovery flag fixed by `__init__`,
      the table of relay tasks `_device_tasks` (each task stands for the device it relays), and
      `_discovery_task`. */
  class LegacyRelayController {
    const identifiers: seq<DeviceIdentifier>
    const autoDiscover: bool
    var deviceTasks: map<string, InputDevice>
    var discoveryTask: Option<DiscoveryTask>

    /** Every task relays the device whose path it is stored under. */
    predicate Valid()
      reads this
    {
      forall p :: p in deviceTasks ==> deviceTasks[p].path == p
    }

    /** `RelayController(device_identifiers, auto_discover)`; a missing list counts as empty, and there is no
        discovery task yet. */
    constructor(ids: Option<seq<string>>, autoDiscover: bool)
      ensures Valid()
      ensures |identifiers| == (if ids.Some? then |ids.value| else 0)
      ensures forall i :: 0 <= i < |identifiers| ==> identifiers[i] == NewInputDeviceIdentifier(ids.value[i])
      ensures this.autoDiscover == autoDiscover
      ensures deviceTasks == map[] && discoveryTask == None
    {
      var given := if ids.Some? then ids.value else [];
      identifiers := seq(|given|, i requires 0 <= i < |given| => NewInputDeviceIdentifier(given[i]));
      this.autoDiscover := autoDiscover;
      deviceTasks := map[];
      discoveryTask := None;
    }

    /** `_matches_identifier`: every identifier is checked, with no short cut, and the results are ORed. */
    method MatchesIdentifier(device: InputDevice) returns (anyMatch: bool)
      ensures anyMatch == MatchesAny(identifiers, device)
    {
      anyMatch := false;
      for i := 0 to |identifiers|
        invariant anyMatch <==> exists j :: 0 <= j < i && Matches(identifiers[j], device)
      {
        var isMatch := MatchesLegacy(identifiers[i], device);
        anyMatch := anyMatch || isMatch;
      }
    }

    /** `_should_relay`. */
    method ShouldRelay(device: InputDevice) returns (b: bool)
      ensures b == ShouldRelayLegacy(identifiers, autoDiscover, deviceTasks, device)
    {
      var matched := MatchesIdentifier(device);
      b := device.path !in deviceTasks && (IsAutoDiscoverable(autoDiscover, device) || matched);
    }

    /** `_create_device_task`: a task for the device, stored under its path. */
    method CreateDeviceTask(device: InputDevice)
      requires Valid()
      modifies this
      ensures Valid()
      ensures deviceTasks == old(deviceTasks)[device.path := device]
      ensures discoveryTask == old(discoveryTask)
    {
      deviceTasks := deviceTasks[device.path := device];
    }

    /** `_discover_devices`: one pass over the listed devices. */
    method DiscoverDevices(devices: seq<InputDevice>)
      requires Valid()
      modifies this
      ensures Valid()
      ensures deviceTasks == DiscoverLegacy(identifiers, autoDiscover, old(deviceTasks), devices)
      ensures discoveryTask == old(discoveryTask)
    {
      ghost var start := deviceTasks;
      for i := 0 to |devices|
        invariant Valid()
        invariant deviceTasks == DiscoverLegacy(identifiers, autoDiscover, start, devices[..i])
        invariant discoveryTask == old(discoveryTask)
      {
        assert devices[..i + 1][..i] == devices[..i];
        var relay := ShouldRelay(devices[i]);
        if relay {
          CreateDeviceTask(devices[i]);
        }
      }
      assert devices[..|devices|] == devices;
    }

    /** `_create_discovery_task` as written. `_discover_devices_loop` is a plain function, so evaluating the
        argument of `create_task` runs its `while True` loop on the spot, and that call never returns: no task
        is created and `_discovery_task` is never assigned. The listings of the rounds that have run so far
        are a parameter; after any number of them `_discovery_task` is still what it was. */
    method CreateDiscoveryTask(rounds: seq<seq<InputDevice>>)
      requires Valid()
      modifies this
      ensures Valid()
      ensures deviceTasks == DiscoverRounds(identifiers, autoDiscover, old(deviceTasks), rounds)
      ensures discoveryTask == old(discoveryTask)
    {
      ghost var start := deviceTasks;
      for i := 0 to |rounds|
        invariant Valid()
        invariant deviceTasks == DiscoverRounds(identifiers, autoDiscover, start, rounds[..i])
        invariant discoveryTask == old(discoveryTask)
      {
        assert rounds[..i + 1][..i] == rounds[..i];
        DiscoverDevices(rounds[i]);
      }
      assert rounds[..|rounds|] == rounds;
    }

    /** `_create_discovery_task` as evidently intended, with `_discover_devices_loop` a coroutine:
        `create_task` returns the new task and it is stored; its passes then run as `DiscoverDevices`. */
    method CreateDiscoveryTaskIntended()
      requires Valid()
      modifies this
      ensures Valid()
      ensures deviceTasks == old(deviceTasks)
      ensures discoveryTask == Some(DiscoveryTask(false))
    {
      discoveryTask := Some(DiscoveryTask(false));
    }

    /** `_cancel_device_task`: the entry under the device's path is popped, and its task, when there was one, is
        returned to be cancelled. Popping an absent path changes nothing. */
    method CancelDeviceTask(device: InputDevice) returns (task: Option<InputDevice>)
      requires Valid()
      modifies this
      ensures Valid()
      ensures deviceTasks == old(deviceTasks) - {device.path}
      ensures task == if device.path in old(deviceTasks) then Some(old(deviceTasks)[device.path]) else None
      ensures discoveryTask == old(discoveryTask)
    {
      if device.path in deviceTasks {
        task := Some(deviceTasks[device.path]);
      } else {
        task := None;
      }
      deviceTasks := deviceTasks - {device.path};
    }

    /** The end of `_async_relay_events` as written: the handler for the exit runs, then the `finally` clause,
        unless the constructor raised before the `try`; the result is the exception that escapes. */
    method RelayExited(device: InputDevice, exit: RelayExit) returns (r: Result<()>)
      requires Valid()
      modifies this
      ensures Valid()
      ensures var o := RelayExitAsWritten(old(deviceTasks), old(discoveryTask), device, exit);
        deviceTasks == o.tasks && discoveryTask == o.discovery && r == o.result
    {
      if exit.ConstructorRaised? {
        return Err(exit.error);
      }
      r := Ok(());
      if exit.Cancelled? {
        if discoveryTask.None? {
          r := Err(AttributeError(NONE_HAS_NO_CANCEL));
        } else {
          discoveryTask := Some(DiscoveryTask(true));
        }
      }
      var _ := CancelDeviceTask(device);
    }

    /** The end of `_async_relay_events` as evidently intended, once the discovery task exists: every exit
        pops the entry, and a cancellation cancels the discovery task. */
    method RelayExitedIntended(device: InputDevice, exit: RelayExit)
      requires Valid() && discoveryTask.Some?
      modifies this
      ensures Valid()
      ensures var o := RelayExitIntended(old(deviceTasks), old(discoveryTask).value, device, exit);
        deviceTasks == o.tasks && discoveryTask == o.discovery
    {
      if exit.Cancelled? {
        discoveryTask := Some(DiscoveryTask(true));
      }
      var _ := CancelDeviceTask(device);
    }
  }

  // ---------------------------------------------------------------------------------------------------
  // Events.

  /** `InputDeviceRelay._async_send_key`: a key without a usage is dropped; otherwise key-down presses and
      key-up releases the usage on the gadget of the key's channel, and a held key sends nothing. The relay
      creates its three gadgets itself, so no gadget is ever missing. */
  function SendKeyLegacy(event: KeyEvent): (r: Output)
    ensures r.NoOutput? || r.Press? || r.Release?
    ensures r.Press? <==> event.keystate == KeyDown && UsbHid(event.scancode).Some?
    ensures r.Release? <==> event.keystate == KeyUp && UsbHid(event.scancode).Some?
    ensures r.Press? || r.Release? ==>
      && r.channel == OutputChannel(event.scancode) && UsbHid(event.scancode) == Some(r.usage)
      && (r.usage.Consumer? <==> r.channel == ConsumerChannel) && (r.usage.Button? <==> r.channel == MouseChannel)
  {
    TableAgreesWithClassification();
    var id := UsbHid(event.scancode);
    if id.None? then NoOutput
    else
      var channel := OutputChannel(event.scancode);
      match event.keystate
      case KeyDown => Press(channel, id.value)
      case KeyUp => Release(channel, id.value)
      case KeyHold => NoOutput
  }

  /** With its gadgets ready, the later relay sends a key exactly as the earlier one does whenever
      `find_usage_name` names the usage; the earlier relay also sends keys whose usage has no name. */
  lemma SendKeyAgrees(event: KeyEvent, usageName: UsageNamer)
    ensures EvdevToUsbHid(event, usageName).1.Some? ==>
      SendKey(Gadgets(true, true, true), event, usageName) == SendKeyLegacy(event)
    ensures EvdevToUsbHid(event, usageName).1.None? ==> SendKey(Gadgets(true, true, true), event, usageName) == NoOutput
  {
  }

  /** `_async_relay_single_event`: key events are sent as keys, relative events move the mouse, and any other
      event produces nothing. */
  function RelaySingleEvent(event: InputEvent): (r: Output)
    ensures !r.Failed?
    ensures event.OtherInput? ==> r == NoOutput
    ensures r.Move? <==> event.RelInput?
    ensures r.Press? || r.Release? ==> event.KeyInput?
  {
    match event
    case KeyInput(key) => SendKeyLegacy(key)
    case RelInput(rel) =>
      var (x, y, wheel) := GetMouseMovement(rel);
      Move(x, y, wheel)
    case OtherInput => NoOutput
  }
}
