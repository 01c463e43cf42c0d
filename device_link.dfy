/**
 * lib/device_link.py: the link between one input device and the USB gadgets it feeds. `DummyGadget` stands in
 * for a gadget while the gadgets are disabled and swallows every action; `DeviceLink` keeps the list of the
 * gadgets it was given and the connection state of its input device.
 */
module DeviceLink {
  import opened Wrappers
  import opened Bytes

  /** A USB gadget (an adafruit `Keyboard`, `Mouse` or `ConsumerControl` object, which is not part of this
      model), known by an identity. */
  datatype Gadget = Gadget(id: nat)

  /** What a gadget property hands out: the gadget itself, or a `DummyGadget` wrapping it. */
  datatype Handle = Real(gadget: Gadget) | Dummy(actual: Gadget)

  /** The gadget actions `DummyGadget` offers. */
  datatype GadgetAction =
    | PressKeys(keycodes: seq<int>)
    | ReleaseKeys(keycodes: seq<int>)
    | ReleaseAll
    | SendKeys(keycodes: seq<int>)
    | Click(buttons: int)
    | MoveBy(x: int, y: int, wheel: int)

  /** Which gadget an action on a handle reaches: a real gadget receives it, a `DummyGadget` does nothing with
      it. */
  function Forwarded(h: Handle, action: GadgetAction): (r: Option<Gadget>)
    ensures r.None? <==> h.Dummy?
    ensures r.Some? ==> r.value == h.gadget
  {
    match h
    case Real(g) => Some(g)
    case Dummy(_) => None
  }

  /** `DummyGadget.led_status`: a single zero byte, no LED lit. */
  const DUMMY_LED_STATUS: seq<byte> := [0x00]

  /** `DummyGadget.led_on`: no LED is ever reported on. */
  function DummyLedOn(ledCode: int): (on: bool)
    ensures !on
  {
    false
  }

  /** The gadget a handle stands for: a `DummyGadget` prints as the gadget it wraps. */
  function Actual(h: Handle): Gadget
  {
    match h
    case Real(g) => g
    case Dummy(g) => g
  }

  /** `_gadget_or_dummy`: with the gadgets enabled, the gadget itself (possibly None); disabled, a
      `DummyGadget` around a gadget, and None for no gadget. */
  function GadgetOrDummy(enabled: bool, gadget: Option<Gadget>): (r: Option<Handle>)
    ensures r.None? <==> gadget.None?
    ensures r.Some? ==> Actual(r.value) == gadget.value
    ensures r.Some? ==> (r.value.Dummy? <==> !enabled)
  {
    if enabled then (if gadget.Some? then Some(Real(gadget.value)) else None)
    else if gadget.Some? then Some(Dummy(gadget.value))
    else None
  }

  /** While the gadgets are disabled, no action through any handle reaches a gadget. */
  lemma DisabledForwardsNothing(gadget: Option<Gadget>, action: GadgetAction)
    ensures GadgetOrDummy(false, gadget).Some? ==> Forwarded(GadgetOrDummy(false, gadget).value, action).None?
    ensures GadgetOrDummy(true, gadget).Some? ==> Forwarded(GadgetOrDummy(true, gadget).value, action) == gadget
  {
  }

  /** The gadgets of a list that are not None, in list order. */
  function Present(gadgets: seq<Option<Gadget>>): (r: seq<Gadget>)
    ensures |r| <= |gadgets|
    ensures forall g :: g in r <==> Some(g) in gadgets
    decreases |gadgets|
  {
    if gadgets == [] then []
    else
      var rest := Present(gadgets[1..]);
      assert forall x :: x in gadgets <==> x == gadgets[0] || x in gadgets[1..];
      if gadgets[0].Some? then [gadgets[0].value] + rest else rest
  }

  /** `_active_gadgets`: the gadgets given, in the order keyboard, mouse, consumer control, without the missing
      ones. */
  function ActiveGadgets(keyboard: Option<Gadget>, mouse: Option<Gadget>, consumer: Option<Gadget>): (r: seq<Gadget>)
    ensures r == (if keyboard.Some? then [keyboard.value] else [])
               + (if mouse.Some? then [mouse.value] else [])
               + (if consumer.Some? then [consumer.value] else [])
  {
    var gadgets := [keyboard, mouse, consumer];
    assert gadgets[1..] == [mouse, consumer] && gadgets[1..][1..] == [consumer] && gadgets[1..][1..][1..] == [];
    assert Present([consumer]) == if consumer.Some? then [consumer.value] else [];
    assert Present([mouse, consumer]) == (if mouse.Some? then [mouse.value] else []) + Present([consumer]);
    Present(gadgets)
  }

  /** The name a link shows while its input device is not open. */
  function DisconnectedName(path: string): string
  {
    "[Disconnected] " + path
  }

  /** An open evdev `InputDevice`: its path and the name it reports. */
  datatype OpenDevice = OpenDevice(path: string, name: string)

  /** `DeviceLink`. Its input device path, its three gadgets and the list of active gadgets are fixed by
      `__init__`; the input device, its name and `gadgets_enabled` change. */
  class DeviceLink {
    const inputDevicePath: string
    const keyboard: Option<Gadget>
    const mouse: Option<Gadget>
    const consumer: Option<Gadget>
    const activeGadgets: seq<Gadget>
    var inputDevice: Option<OpenDevice>
    var inputDeviceName: string
    var gadgetsEnabled: bool

    /** The state the class keeps: the name is the device's own while it is open and the disconnected name
        otherwise, and the active gadgets are those given. */
    predicate Valid()
      reads this
    {
      && activeGadgets == ActiveGadgets(keyboard, mouse, consumer)
      && (inputDevice.None? ==> inputDeviceName == DisconnectedName(inputDevicePath))
      && (inputDevice.Some? ==> inputDevice.value.path == inputDevicePath && inputDeviceName == inputDevice.value.name)
    }

    /** `DeviceLink(input_device_path, keyboard_gadget, mouse_gadget, consumer_gadget)`: disconnected, with the
        gadgets enabled. */
    constructor(path: string, keyboard: Option<Gadget>, mouse: Option<Gadget>, consumer: Option<Gadget>)
      ensures Valid()
      ensures inputDevicePath == path && this.keyboard == keyboard && this.mouse == mouse && this.consumer == consumer
      ensures !InputDeviceConnected() && inputDeviceName == "[Disconnected] " + path
      ensures gadgetsEnabled
    {
      inputDevicePath := path;
      this.keyboard := keyboard;
      this.mouse := mouse;
      this.consumer := consumer;
      activeGadgets := ActiveGadgets(keyboard, mouse, consumer);
      inputDevice := None;
      inputDeviceName := DisconnectedName(path);
      gadgetsEnabled := true;
    }

    /** `input_device_connected`. */
    predicate InputDeviceConnected()
      reads this
    {
      inputDevice.Some?
    }

    /** The `keyboard_gadget`, `mouse_gadget` and `consumer_gadget` properties. */
    function KeyboardGadget(): Option<Handle>
      reads this
    {
      GadgetOrDummy(gadgetsEnabled, keyboard)
    }

    function MouseGadget(): Option<Handle>
      reads this
    {
      GadgetOrDummy(gadgetsEnabled, mouse)
    }

    function ConsumerGadget(): Option<Handle>
      reads this
    {
      GadgetOrDummy(gadgetsEnabled, consumer)
    }

    /** Setting `gadgets_enabled`: the properties switch between the gadgets and their dummies, while
        `active_gadgets` keeps the gadgets themselves. */
    method SetGadgetsEnabled(enabled: bool)
      requires Valid()
      modifies this
      ensures Valid()
      ensures gadgetsEnabled == enabled
      ensures inputDevice == old(inputDevice) && inputDeviceName == old(inputDeviceName)
    {
      gadgetsEnabled := enabled;
    }

    /** `reset_input_device`. The device is first cleared and the disconnected name restored; then the device
        node is opened, whose outcome (the name the device reports, or the error opening it raised) is a
        parameter. Only a successful open connects the link and takes the device's name; a failed one leaves
        the link disconnected and raises. */
    method ResetInputDevice(outcome: Result<string>) returns (r: Result<()>)
      requires Valid()
      modifies this
      ensures Valid()
      ensures outcome.Ok? ==> r == Ok(()) && inputDevice == Some(OpenDevice(inputDevicePath, outcome.value))
      ensures outcome.Err? ==> r == Err(outcome.error) && inputDevice.None?
      ensures inputDeviceName == if outcome.Ok? then outcome.value else DisconnectedName(inputDevicePath)
      ensures gadgetsEnabled == old(gadgetsEnabled)
    {
      inputDevice := None;
      inputDeviceName := DisconnectedName(inputDevicePath);
      if outcome.Err? {
        return Err(outcome.error);
      }
      inputDevice := Some(OpenDevice(inputDevicePath, outcome.value));
      inputDeviceName := inputDevice.value.name;
      r := Ok(());
    }

    /** `async_reset_input_device`: the device is cleared, and then opening is retried until it succeeds. The
        outcomes of the successive attempts are a parameter. The link connects with the name of the first
        successful attempt, after which no further attempt is made; while every attempt fails it stays
        disconnected. The result is the number of attempts made. */
    method AsyncResetInputDevice(attempts: seq<Result<string>>) returns (made: nat)
      requires Valid()
      modifies this
      ensures Valid()
      ensures made <= |attempts|
      ensures forall i :: 0 <= i < made - 1 ==> attempts[i].Err?
      ensures made > 0 && attempts[made - 1].Ok? ==> inputDevice == Some(OpenDevice(inputDevicePath, attempts[made - 1].value))
      ensures (forall i :: 0 <= i < |attempts| ==> attempts[i].Err?) ==> made == |attempts| && inputDevice.None?
      ensures (exists i :: 0 <= i < |attempts| && attempts[i].Ok?) ==> 0 < made && attempts[made - 1].Ok?
      ensures gadgetsEnabled == old(gadgetsEnabled)
    {
      inputDevice := None;
      inputDeviceName := DisconnectedName(inputDevicePath);
      made := 0;
      while made < |attempts|
        invariant made <= |attempts|
        invariant Valid() && inputDevice.None?
        invariant forall i :: 0 <= i < made ==> attempts[i].Err?
        invariant gadgetsEnabled == old(gadgetsEnabled)
        decreases |attempts| - made
      {
        var attempt := attempts[made];
        made := made + 1;
        if attempt.Ok? {
          inputDevice := Some(OpenDevice(inputDevicePath, attempt.value));
          inputDeviceName := inputDevice.value.name;
          return;
        }
      }
    }
  }
}
