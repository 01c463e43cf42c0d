/**
 * lib/usb_hid.py, `Mouse`: a 4-byte report kept in place (byte 0 the button bits, bytes 1-3 the X, Y and wheel
 * deltas as signed bytes, the boot mouse report of Appendix B.2 of the USB HID specification 1.11) and the
 * reports handed to the device's `send_report`, in order.
 */
module UsbHidMouse {
  import opened Wrappers
  import opened Bytes
  import UsbHid

  /** The button masks of byte 0. */
  const LEFT_BUTTON: int := 1
  const RIGHT_BUTTON: int := 2
  const MIDDLE_BUTTON: int := 4

  /** The message of the ValueError Python raises when a value outside 0..255 is stored into a bytearray. */
  const BYTE_RANGE_MESSAGE: string := "byte must be in range(0, 256)"

  function Abs(v: int): nat
  {
    if v < 0 then -v else v
  }

  /** `_limit`: clamps a distance to the range a signed report byte carries, moving the distance toward zero. */
  function Limit(dist: int): (r: int)
    ensures -127 <= r <= 127
    ensures r == dist <==> -127 <= dist <= 127
    ensures dist > 127 ==> r == 127
    ensures dist < -127 ==> r == -127
    ensures Abs(dist - r) == Abs(dist) - Abs(r)
    ensures dist != 0 ==> r != 0
  {
    if dist > 127 then 127 else if dist < -127 then -127 else dist
  }

  /** The reports `move(x, y, wheel)` sends with button byte `buttons`: while some distance is left, one report
      carrying each distance clamped by `Limit`, and the rest of the way after it. */
  function MoveReports(buttons: byte, x: int, y: int, wheel: int): seq<seq<byte>>
    decreases Abs(x) + Abs(y) + Abs(wheel)
  {
    if x == 0 && y == 0 && wheel == 0 then []
    else
      var dx, dy, dw := Limit(x), Limit(y), Limit(wheel);
      [[buttons, LowByte(dx), LowByte(dy), LowByte(dw)]] + MoveReports(buttons, x - dx, y - dy, wheel - dw)
  }

  /** The sum of the signed deltas at position `axis` of the reports. */
  function AxisSum(reports: seq<seq<byte>>, axis: nat): int
    requires forall i :: 0 <= i < |reports| ==> axis < |reports[i]|
  {
    if reports == [] then 0 else Signed(reports[0][axis]) + AxisSum(reports[1..], axis)
  }

  /** The number of reports needed to cover a distance with steps of at most 127. */
  function Steps(v: int): nat
  {
    (Abs(v) + 126) / 127
  }

  function Max3(a: nat, b: nat, c: nat): nat
  {
    if a >= b && a >= c then a else if b >= c then b else c
  }

  lemma StepsAfterLimit(v: int)
    ensures Steps(v - Limit(v)) == if v == 0 then 0 else Steps(v) - 1
  {
  }

  /** `move` sends nothing exactly when it is asked to move nowhere. */
  lemma MoveReportsEmpty(buttons: byte, x: int, y: int, wheel: int)
    ensures MoveReports(buttons, x, y, wheel) == [] <==> x == 0 && y == 0 && wheel == 0
  {
  }

  /** A report of `move`: 4 bytes, the given button byte, and deltas within -127..127. */
  predicate MoveReport(report: seq<byte>, buttons: byte)
  {
    |report| == 4 && report[0] == buttons
    && -127 <= Signed(report[1]) <= 127 && -127 <= Signed(report[2]) <= 127 && -127 <= Signed(report[3]) <= 127
  }

  /** Every report `move` sends keeps the button byte and carries deltas within -127..127. */
  lemma {:induction false} MoveReportsBounded(buttons: byte, x: int, y: int, wheel: int)
    ensures forall i :: 0 <= i < |MoveReports(buttons, x, y, wheel)| ==>
      MoveReport(MoveReports(buttons, x, y, wheel)[i], buttons)
    decreases Abs(x) + Abs(y) + Abs(wheel)
  {
    if !(x == 0 && y == 0 && wheel == 0) {
      var dx, dy, dw := Limit(x), Limit(y), Limit(wheel);
      SignedLowByte(dx);
      SignedLowByte(dy);
      SignedLowByte(dw);
      MoveReportsBounded(buttons, x - dx, y - dy, wheel - dw);
      var reports, rest := MoveReports(buttons, x, y, wheel), MoveReports(buttons, x - dx, y - dy, wheel - dw);
      assert reports == [[buttons, LowByte(dx), LowByte(dy), LowByte(dw)]] + rest;
      forall i | 0 <= i < |reports| ensures MoveReport(reports[i], buttons) {
        if i > 0 {
          assert reports[i] == rest[i - 1];
        } else {
          assert Signed(reports[0][1]) == dx;
        }
      }
    }
  }

  /** The deltas `move` sends add up exactly to the requested distances on each axis. */
  lemma {:induction false} MoveReportsSum(buttons: byte, x: int, y: int, wheel: int)
    ensures var reports := MoveReports(buttons, x, y, wheel);
      (forall i :: 0 <= i < |reports| ==> |reports[i]| == 4)
      && AxisSum(reports, 1) == x && AxisSum(reports, 2) == y && AxisSum(reports, 3) == wheel
    decreases Abs(x) + Abs(y) + Abs(wheel)
  {
    MoveReportsBounded(buttons, x, y, wheel);
    if !(x == 0 && y == 0 && wheel == 0) {
      var dx, dy, dw := Limit(x), Limit(y), Limit(wheel);
      SignedLowByte(dx);
      SignedLowByte(dy);
      SignedLowByte(dw);
      MoveReportsSum(buttons, x - dx, y - dy, wheel - dw);
      var reports := MoveReports(buttons, x, y, wheel);
      assert reports[1..] == MoveReports(buttons, x - dx, y - dy, wheel - dw);
    }
  }

  /** `move` sends as many reports as the longest distance needs steps of 127. */
  lemma {:induction false} MoveReportsCount(buttons: byte, x: int, y: int, wheel: int)
    ensures |MoveReports(buttons, x, y, wheel)| == Max3(Steps(x), Steps(y), Steps(wheel))
    decreases Abs(x) + Abs(y) + Abs(wheel)
  {
    if !(x == 0 && y == 0 && wheel == 0) {
      StepsAfterLimit(x);
      StepsAfterLimit(y);
      StepsAfterLimit(wheel);
      MoveReportsCount(buttons, x - Limit(x), y - Limit(y), wheel - Limit(wheel));
    }
  }

  /** The report after `press(buttons)`: the button bits ORed into byte 0, deltas cleared; None when the OR
      does not fit a byte, where Python's bytearray raises ValueError. */
  function PressedReport(report: seq<byte>, buttons: int): (r: Option<seq<byte>>)
    requires |report| == 4
    ensures r.Some? <==> 0 <= buttons < 256
    ensures r.Some? ==> |r.value| == 4 && r.value[1..] == [0, 0, 0]
    ensures r.Some? ==> forall i :: 0 <= i < 8 ==> Bit(r.value[0], i) == (Bit(report[0], i) || Bit(buttons, i))
  {
    if 0 <= buttons < 256 then
      BitOrBelow(report[0], buttons, 8);
      BitOrEach(report[0], buttons);
      Some([BitOr(report[0], buttons), 0, 0, 0])
    else None
  }

  /** The report after `release(buttons)`: `report[0] &= ~buttons` clears exactly the bits of the low byte of
      `buttons` (bits above it do not reach byte 0), deltas cleared. */
  function ReleasedReport(report: seq<byte>, buttons: int): (r: seq<byte>)
    requires |report| == 4
    ensures |r| == 4 && r[1..] == [0, 0, 0]
    ensures forall i :: 0 <= i < 8 ==> Bit(r[0], i) == (Bit(report[0], i) && !Bit(LowByte(buttons), i))
  {
    BitAndNotEach(report[0], LowByte(buttons));
    [ClearBits(report[0], buttons), 0, 0, 0]
  }

  /** Pressing buttons that were up and releasing them again (`click`) gives back the button byte. */
  lemma ClickRestoresButtons(report: seq<byte>, buttons: int)
    requires |report| == 4 && 0 <= buttons < 256 && BitAnd(report[0], buttons) == 0
    ensures PressedReport(report, buttons).Some?
    ensures ReleasedReport(PressedReport(report, buttons).value, buttons)[0] == report[0]
  {
    var pressed := PressedReport(report, buttons).value;
    assert pressed[0] == BitOr(report[0], buttons);
    assert LowByte(buttons) == buttons;
    assert ReleasedReport(pressed, buttons)[0] == BitAndNot(pressed[0], buttons);
    SetThenClear(report[0], buttons);
  }

  class Mouse {
    /** The device `find_device` picked. */
    const device: UsbHid.Device
    /** `self.report`: byte 0 buttons, bytes 1-3 X, Y and wheel. */
    const report: array<byte>
    /** The reports handed to `send_report`, oldest first. */
    var sent: seq<seq<byte>>

    predicate Valid()
      reads this
    {
      report.Length == 4
    }

    /** `Mouse.__init__` once `find_device` has found the device: an all-zero report, sent once as the
        readiness no-op. */
    constructor(device: UsbHid.Device)
      ensures Valid() && fresh(report)
      ensures this.device == device
      ensures report[..] == [0, 0, 0, 0] && sent == [[0, 0, 0, 0]]
    {
      this.device := device;
      var r := new byte[4](_ => 0);
      report := r;
      sent := [r[..]];
    }

    /** `_send_no_move`: clears the deltas and sends the report. */
    method SendNoMove()
      requires Valid()
      modifies this, report
      ensures report[..] == [old(report[0]), 0, 0, 0]
      ensures sent == old(sent) + [report[..]]
    {
      report[1] := 0;
      report[2] := 0;
      report[3] := 0;
      sent := sent + [report[..]];
    }

    /** `press`: ORs the buttons into byte 0 and sends a button-only report; ValueError, with nothing changed
        and nothing sent, when the result does not fit a byte. */
    method Press(buttons: int) returns (r: Result<()>)
      requires Valid()
      modifies this, report
      ensures r.Ok? <==> PressedReport(old(report[..]), buttons).Some?
      ensures r.Ok? ==> report[..] == PressedReport(old(report[..]), buttons).value && sent == old(sent) + [report[..]]
      ensures r.Err? ==> r.error == ValueError(BYTE_RANGE_MESSAGE)
      ensures r.Err? ==> report[..] == old(report[..]) && sent == old(sent)
    {
      if !(0 <= buttons < 256) {
        return Err(ValueError(BYTE_RANGE_MESSAGE));
      }
      report[0] := PressedReport(report[..], buttons).value[0];
      SendNoMove();
      return Ok(());
    }

    /** `release`: clears the buttons' bits of byte 0 and sends a button-only report. */
    method Release(buttons: int)
      requires Valid()
      modifies this, report
      ensures report[..] == ReleasedReport(old(report[..]), buttons)
      ensures sent == old(sent) + [report[..]]
    {
      report[0] := ClearBits(report[0], buttons);
      SendNoMove();
    }

    /** `release_all`: clears byte 0 and sends a button-only report. */
    method ReleaseAll()
      requires Valid()
      modifies this, report
      ensures report[..] == [0, 0, 0, 0]
      ensures sent == old(sent) + [report[..]]
    {
      report[0] := 0;
      SendNoMove();
    }

    /** `click`: press, then release; a press that raises skips the release. */
    method Click(buttons: int) returns (r: Result<()>)
      requires Valid()
      modifies this, report
      ensures r.Ok? <==> 0 <= buttons < 256
      ensures r.Ok? ==>
        var pressed := PressedReport(old(report[..]), buttons).value;
        report[..] == ReleasedReport(pressed, buttons) && sent == old(sent) + [pressed, report[..]]
      ensures r.Err? ==> report[..] == old(report[..]) && sent == old(sent)
    {
      r := Press(buttons);
      if r.Ok? {
        Release(buttons);
      }
    }

    /** The body of `move`'s loop: stores the three clamped deltas with `& 0xFF` and sends the report. */
    method SendDeltas(dx: int, dy: int, dw: int)
      requires Valid()
      modifies this, report
      ensures report[..] == [old(report[0]), LowByte(dx), LowByte(dy), LowByte(dw)]
      ensures sent == old(sent) + [report[..]]
    {
      report[1] := LowByte(dx);
      report[2] := LowByte(dy);
      report[3] := LowByte(dw);
      sent := sent + [report[..]];
    }

    /** `move`: sends `MoveReports` for the current button byte; the deltas of the last report stay in the
        buffer, and the buttons are untouched. */
    method Move(x: int, y: int, wheel: int)
      requires Valid()
      modifies this, report
      ensures sent == old(sent) + MoveReports(old(report[0]), x, y, wheel)
      ensures report[0] == old(report[0])
      ensures MoveReports(old(report[0]), x, y, wheel) == [] ==> report[..] == old(report[..])
      ensures MoveReports(old(report[0]), x, y, wheel) != [] ==>
        report[..] == MoveReports(old(report[0]), x, y, wheel)[|MoveReports(old(report[0]), x, y, wheel)| - 1]
    {
      var buttons := report[0];
      var restX, restY, restWheel := x, y, wheel;
      while restX != 0 || restY != 0 || restWheel != 0
        invariant report[0] == buttons
        invariant old(sent) + MoveReports(buttons, x, y, wheel) == sent + MoveReports(buttons, restX, restY, restWheel)
        invariant |sent| >= |old(sent)|
        invariant |sent| == |old(sent)| ==> report[..] == old(report[..])
        invariant |sent| > |old(sent)| ==> report[..] == sent[|sent| - 1]
        decreases Abs(restX) + Abs(restY) + Abs(restWheel)
      {
        var dx, dy, dw := Limit(restX), Limit(restY), Limit(restWheel);
        MoveStep(sent, buttons, restX, restY, restWheel);
        SendDeltas(dx, dy, dw);
        restX, restY, restWheel := restX - dx, restY - dy, restWheel - dw;
      }
      MoveLast(old(sent), sent, MoveReports(buttons, x, y, wheel));
    }
  }

  /** One more report of `move` sent: the remaining distances are covered by the rest of the reports. */
  lemma MoveStep(before: seq<seq<byte>>, buttons: byte, x: int, y: int, wheel: int)
    requires x != 0 || y != 0 || wheel != 0
    ensures before + MoveReports(buttons, x, y, wheel)
      == before + [[buttons, LowByte(Limit(x)), LowByte(Limit(y)), LowByte(Limit(wheel))]]
         + MoveReports(buttons, x - Limit(x), y - Limit(y), wheel - Limit(wheel))
  {
  }

  /** When the sent reports are the old ones followed by `added`, the last sent is the last of `added`. */
  lemma MoveLast(before: seq<seq<byte>>, after: seq<seq<byte>>, added: seq<seq<byte>>)
    requires after == before + added
    ensures added == [] <==> |after| == |before|
    ensures added != [] ==> after[|after| - 1] == added[|added| - 1]
  {
  }

  /** `Mouse.__init__` in full: find the mouse among the devices (usage page 0x01, usage 0x02) or raise
      ValueError. */
  method Open(devices: seq<UsbHid.Device>) returns (r: Result<Mouse>)
    ensures r.Ok? ==> fresh(r.value) && fresh(r.value.report) && r.value.Valid()
    ensures r.Ok? ==> UsbHid.Matches(r.value.device, 0x01, 0x02) && r.value.device in devices
    ensures r.Ok? ==> r.value.report[..] == [0, 0, 0, 0] && r.value.sent == [[0, 0, 0, 0]]
    ensures r.Err? <==> forall d :: d in devices ==> !UsbHid.Matches(d, 0x01, 0x02)
  {
    var found := UsbHid.FindDevice(devices, 0x01, 0x02);
    if found.Err? {
      return Err(found.error);
    }
    var mouse := new Mouse(found.value);
    return Ok(mouse);
  }
}
