/**
 * The vjoy package's device: the handles an application updates (axes,
 * buttons, hats), the Device that holds the position record they write
 * into, and Acquire, which asks the driver for the device and builds the
 * handles from what the driver reports.
 *
 * The vJoy driver is an oracle: a Driver value fixes every answer it gives
 * during Acquire. A ghost trace on the Device records each call made to it.
 */
module Vjoy {
  import opened GoInt
  import opened Dll
  import opened Wrappers
  import opened Controls

  /** The package's error values. */
  datatype Error =
    | ErrDeviceAlreadyOwned
    | ErrDeviceBusy
    | ErrDeviceMissing
    | ErrDeviceUnknown
    | ErrReset
    | ErrUpdate
    | ErrUnknownName

  /** What the driver answers, fixed for one Acquire. */
  datatype Driver = Driver(
    status: Int,                  // GetVJDStatus
    acquires: bool,               // AcquireVJD
    axisExists: nat -> bool,      // GetVJDAxisExist, by HID usage code
    axisMin: nat -> Int32,        // GetVJDAxisMin
    axisMax: nat -> Int32,        // GetVJDAxisMax
    buttonCount: Int,             // GetVJDButtonNumber
    discPovCount: Int,            // GetVJDDiscPovNumber
    contPovCount: Int,            // GetVJDContPovNumber
    updates: bool)                // UpdateVJD

  /** One call into the driver. */
  datatype DriverCall =
    | GetStatus
    | AcquireVJD
    | GetAxisExist(usage: nat)
    | GetAxisMin(usage: nat)
    | GetAxisMax(usage: nat)
    | GetButtonNumber
    | GetDiscPovNumber
    | GetContPovNumber
    | UpdateVJD(sent: Position)

  /**
   * Every cell a handle can write: the position record and the two sink
   * words noi (int32, the invalid axis and button) and nou (uint32, the
   * invalid hat), both kept as 32-bit patterns.
   */
  datatype Cells = Cells(pos: Position, noi: bv32, nou: bv32)

  /** Where an axis handle points: one of the record's axis fields, or noi. */
  datatype AxisTarget = AxisCell(field: AxisField) | AxisSink

  /** Where a button handle points: one of the four button words, or noi. */
  datatype ButtonTarget = ButtonCell(word: ButtonWord) | ButtonSink

  /** Where a hat handle points: one of the four hat words, or nou. */
  datatype HatTarget = HatCell(word: HatWord) | HatSink

  /** The cells after an int32 store of v through an axis handle. */
  function WithAxisValue(c: Cells, t: AxisTarget, v: Int32): Cells {
    match t
    case AxisCell(f) => c.(pos := c.pos.WithAxis(f, v))
    case AxisSink => c.(noi := Uint32(v))
  }

  /** The word a button handle reads. */
  function ButtonWordIn(c: Cells, t: ButtonTarget): bv32 {
    match t
    case ButtonCell(w) => c.pos.Button(w)
    case ButtonSink => c.noi
  }

  /** The cells after a store of b through a button handle. */
  function WithButtonWord(c: Cells, t: ButtonTarget, b: bv32): Cells {
    match t
    case ButtonCell(w) => c.(pos := c.pos.WithButton(w, b))
    case ButtonSink => c.(noi := b)
  }

  /** The word a hat handle reads. */
  function HatWordIn(c: Cells, t: HatTarget): bv32 {
    match t
    case HatCell(w) => c.pos.Hat(w)
    case HatSink => c.nou
  }

  /** The cells after a store of b through a hat handle. */
  function WithHatWord(c: Cells, t: HatTarget, b: bv32): Cells {
    match t
    case HatCell(w) => c.(pos := c.pos.WithHat(w, b))
    case HatSink => c.(nou := b)
  }

  /** An axis handle: where it writes, whether the driver has the axis, and its range. */
  datatype Axis = Axis(dev: Device, target: AxisTarget, present: bool, min: Int32, max: Int32) {
    predicate Exists() {
      present
    }

    /** Setu: store `int32(val & 0x7fff)`. */
    method Setu(val: Int)
      modifies dev`noi, dev.st
      ensures dev.State() == WithAxisValue(old(dev.State()), target, Masked(val))
    {
      var v := Masked(val);
      match target
      case AxisCell(f) =>
        dev.st.SetAxis(f, v);
      case AxisSink =>
        dev.noi := Uint32(v);
    }

    /** Seti: Setu(val - 0x4000); it stores val + 0x4000 modulo 0x8000. */
    method Seti(val: Int)
      modifies dev`noi, dev.st
      ensures dev.State() == WithAxisValue(old(dev.State()), target, (val + 0x4000) % 0x8000)
    {
      SetiStores(val);
      Setu(Wrap(val - 0x4000));
    }

    /** Setc: Setu of val cut down to 0..0x7fff, which it stores as it is. */
    method Setc(val: Int)
      modifies dev`noi, dev.st
      ensures dev.State() == WithAxisValue(old(dev.State()), target, Clamped(val))
    {
      var v := val;
      if v < 0 {
        v := 0;
      } else if 0x7fff < v {
        v := 0x7fff;
      }
      assert v == Clamped(val);
      SetcStores(val);
      Setu(v);
    }
  }

  /** A button handle: the word it writes, its one-bit mask, and whether the button exists. */
  datatype Button = Button(dev: Device, target: ButtonTarget, mask: bv32, present: bool) {
    predicate Exists() {
      present
    }

    /** Set: OR the mask into the word, or AND its complement. */
    method Set(pressed: bool)
      modifies dev`noi, dev.st
      ensures dev.State() == WithButtonWord(old(dev.State()), target, ButtonApply(ButtonWordIn(old(dev.State()), target), mask, pressed))
    {
      var b := dev.ButtonValue(target);
      dev.PutButton(target, ButtonApply(b, mask, pressed));
    }
  }

  /** A hat handle, discrete or continuous: the word it writes and the half selected by shift. */
  datatype Hat = Hat(kind: HatKind, dev: Device, target: HatTarget, shift: HalfShift, present: bool) {
    predicate Exists() {
      present
    }

    /** SetDiscrete: store a HatState (a continuous hat first turns it into hundredths of a degree). */
    method SetDiscrete(s: Int)
      modifies dev`nou, dev.st
      ensures dev.State() == WithHatWord(old(dev.State()), target, SetDiscreteWord(kind, HatWordIn(old(dev.State()), target), shift, s))
    {
      var prev := dev.HatValue(target);
      dev.PutHat(target, SetDiscreteWord(kind, prev, shift, s));
    }

    /** SetDegp: store an angle in hundredths of a degree (a discrete hat first rounds it to a direction). */
    method SetDegp(v: Int)
      modifies dev`nou, dev.st
      ensures dev.State() == WithHatWord(old(dev.State()), target, SetDegpWord(kind, HatWordIn(old(dev.State()), target), shift, v))
    {
      var prev := dev.HatValue(target);
      dev.PutHat(target, SetDegpWord(kind, prev, shift, v));
    }
  }

  /** The value Reset gives the axes. */
  const Centre: Int32 := 0x4000

  /** Every axis at the centre. */
  const CentredAxes: AxisValues := [
    Centre, Centre, Centre, Centre, Centre, Centre, Centre, Centre, Centre,
    Centre, Centre, Centre, Centre, Centre, Centre, Centre, Centre, Centre]

  /** The value Reset gives the hat words. */
  const HatsOff: bv32 := 0xffff_ffff

  /**
   * The record after Reset: every axis at the centre, the first button
   * word cleared, the hat words all ones; the three extra button words and
   * the device byte are left as they were.
   */
  function ResetPosition(p: Position): (r: Position)
    ensures forall f :: r.Axis(f) == Centre
    ensures r.Button(Buttons) == 0
    ensures forall w :: w != Buttons ==> r.Button(w) == p.Button(w)
    ensures forall w :: r.Hat(w) == HatsOff
    ensures r.device == p.device
  {
    Position(p.device, CentredAxes, 0, HatsOff, HatsOff, HatsOff, HatsOff,
      p.buttonsEx1, p.buttonsEx2, p.buttonsEx3)
  }

  /** The handles init points at the sinks. */
  function SinkAxis(dev: Device): Axis {
    Axis(dev, AxisSink, false, 0, 0)
  }

  function SinkButton(dev: Device): Button {
    Button(dev, ButtonSink, 0, false)
  }

  function SinkHat(dev: Device): Hat {
    Hat(DiscreteKind, dev, HatSink, 0, false)
  }

  /** An open device: the record Update sends, the sinks, and the handles. */
  class Device {
    const rid: Uint
    const st: JoystickPosition
    var noi: bv32
    var nou: bv32
    var axes: seq<Axis>
    var buttons: seq<Button>
    var hats: seq<Hat>
    var invalidAxis: Option<Axis>
    var invalidButton: Option<Button>
    var invalidHat: Option<Hat>
    ghost var calls: seq<DriverCall>

    /** `&Device{rid: rid}`: everything else zero or nil. */
    constructor (rid: Uint)
      ensures this.rid == rid && fresh(st)
      ensures st.Value() == ZeroPosition && noi == 0 && nou == 0
      ensures axes == [] && buttons == [] && hats == []
      ensures invalidAxis == None && invalidButton == None && invalidHat == None
      ensures calls == []
    {
      this.rid := rid;
      st := new JoystickPosition();
      noi, nou := 0, 0;
      axes, buttons, hats := [], [], [];
      invalidAxis, invalidButton, invalidHat := None, None, None;
      calls := [];
    }

    function State(): Cells
      reads this, st
    {
      Cells(st.Value(), noi, nou)
    }

    /** The word a button handle's pointer reads. */
    function ButtonValue(t: ButtonTarget): (b: bv32)
      reads this, st
      ensures b == ButtonWordIn(State(), t)
    {
      match t
      case ButtonCell(w) => st.Value().Button(w)
      case ButtonSink => noi
    }

    /** A store through a button handle's pointer. */
    method PutButton(t: ButtonTarget, b: bv32)
      modifies this`noi, st
      ensures State() == WithButtonWord(old(State()), t, b)
    {
      match t
      case ButtonCell(w) =>
        st.SetButton(w, b);
      case ButtonSink =>
        noi := b;
    }

    /** The word a hat handle's pointer reads. */
    function HatValue(t: HatTarget): (b: bv32)
      reads this, st
      ensures b == HatWordIn(State(), t)
    {
      match t
      case HatCell(w) => st.Value().Hat(w)
      case HatSink => nou
    }

    /** A store through a hat handle's pointer. */
    method PutHat(t: HatTarget, b: bv32)
      modifies this`nou, st
      ensures State() == WithHatWord(old(State()), t, b)
    {
      match t
      case HatCell(w) =>
        st.SetHat(w, b);
      case HatSink =>
        nou := b;
    }

    /**
     * Reset: the 18 axes centred at 0x4000, the first button word cleared
     * and the four hat words set to 0xffffffff.
     */
    method Reset()
      modifies st
      ensures st.Value() == ResetPosition(old(st.Value()))
    {
      st.axes := CentredAxes;
      st.buttons := 0;
      st.hats := HatsOff;
      st.hatsEx1 := HatsOff;
      st.hatsEx2 := HatsOff;
      st.hatsEx3 := HatsOff;
    }

    /** Update: send the record to the driver; ErrUpdate when it refuses. */
    method Update(accepted: bool) returns (err: Option<Error>)
      modifies this`calls
      ensures calls == old(calls) + [UpdateVJD(st.Value())]
      ensures err.None? <==> accepted
      ensures err.Some? ==> err.value == ErrUpdate
    {
      calls := calls + [UpdateVJD(st.Value())];
      if accepted {
        return None;
      }
      return Some(ErrUpdate);
    }

    /** Axis(n): the stored handle inside the list, the invalid axis outside it. */
    function AxisAt(n: Int): Option<Axis>
      reads this
    {
      if 0 <= n < |axes| then Some(axes[n]) else invalidAxis
    }

    /** Button(n): the stored handle inside the list, the invalid button outside it. */
    function ButtonAt(n: Int): Option<Button>
      reads this
    {
      if 0 <= n < |buttons| then Some(buttons[n]) else invalidButton
    }

    /** The (not yet exported) Hat(n): the stored handle inside the list, the invalid hat outside it. */
    function HatAt(n: Int): Option<Hat>
      reads this
    {
      if 0 <= n < |hats| then Some(hats[n]) else invalidHat
    }

    /**
     * init: set the device byte, ask the driver for the device's status and
     * then for the device; once it is acquired, build the invalid handles,
     * the eight axis handles, one button handle per reported button and one
     * hat handle per reported hat that has a word.
     */
    method Init(drv: Driver) returns (err: Option<Error>)
      modifies st`device, this`invalidAxis, this`invalidButton, this`invalidHat
      modifies this`axes, this`buttons, this`hats, this`calls
      ensures st.device == ToByte(rid)
      ensures err == InitError(drv.status, drv.acquires)
      ensures calls == old(calls) + InitCalls(drv)
      ensures Opened(drv) ==> Built(this, drv, old(buttons), old(hats))
      ensures !Opened(drv) ==>
        && axes == old(axes) && buttons == old(buttons) && hats == old(hats)
        && invalidAxis == old(invalidAxis) && invalidButton == old(invalidButton)
        && invalidHat == old(invalidHat)
    {
      st.device := ToByte(rid);
      var status := drv.status;
      calls := calls + [GetStatus];
      var e: Option<Error> := None;
      if status == StatOwn {
        return Some(ErrDeviceAlreadyOwned);
      } else if status == StatFree {
      } else if status == StatBusy {
        e := Some(ErrDeviceBusy);
      } else if status == StatMiss {
        e := Some(ErrDeviceMissing);
      } else {
        e := Some(ErrDeviceUnknown);
      }
      calls := calls + [AcquireVJD];
      if !drv.acquires {
        return e;
      }

      OpenHandles(drv);
      return None;
    }

    /** What init does once the device is acquired: the invalid handles, then the handle lists. */
    method OpenHandles(drv: Driver)
      modifies this`invalidAxis, this`invalidButton, this`invalidHat
      modifies this`axes, this`buttons, this`hats, this`calls
      ensures Built(this, drv, old(buttons), old(hats))
      ensures calls == old(calls) + HandleCalls(drv)
    {
      invalidAxis := Some(SinkAxis(this));
      invalidButton := Some(SinkButton(this));
      invalidHat := Some(SinkHat(this));

      BuildAxes(drv);

      var n := drv.buttonCount;
      calls := calls + [GetButtonNumber];
      BuildButtons(n);

      n := drv.discPovCount;
      calls := calls + [GetDiscPovNumber];
      BuildHats(DiscreteKind, n);

      n := drv.contPovCount;
      calls := calls + [GetContPovNumber];
      BuildHats(ContinuousKind, n);
    }

    /** init's axis loop: one handle per axis name, min and max queried only for an existing axis. */
    method BuildAxes(drv: Driver)
      modifies this`axes, this`calls
      ensures axes == AxisHandles(this, drv, MaxAxis)
      ensures calls == old(calls) + AxisCalls(drv, MaxAxis)
    {
      axes := [];
      var i: Int := 0;
      while i < MaxAxis
        invariant 0 <= i <= MaxAxis
        invariant axes == AxisHandles(this, drv, i)
        invariant calls == old(calls) + AxisCalls(drv, i)
      {
        var a := BuildAxis(drv, i);
        axes := axes + [a];
        i := i + 1;
      }
    }

    /** One pass of init's axis loop: the handle of axis name i, min and max queried only if it exists. */
    method BuildAxis(drv: Driver, i: Int) returns (a: Axis)
      requires 0 <= i
      modifies this`calls
      ensures a == AxisHandle(this, drv, i)
      ensures calls == old(calls) + AxisCallsOf(drv, i)
    {
      var axn := AxisNumber(i);
      var present := drv.axisExists(axn);
      calls := calls + [GetAxisExist(axn)];
      var target := AxisTargetOf(i);
      var min, max := 0, 0;
      if present {
        min := drv.axisMin(axn);
        max := drv.axisMax(axn);
        calls := calls + [GetAxisMin(axn), GetAxisMax(axn)];
      }
      a := Axis(this, target, present, min, max);
    }

    /** init's button loop: n handles, the invalid button for indices without a word. */
    method BuildButtons(n: Int)
      requires invalidButton == Some(SinkButton(this))
      modifies this`buttons
      ensures buttons == old(buttons) + ButtonHandles(this, Count(n))
    {
      var i: Int := 0;
      while i < n
        invariant 0 <= i <= Count(n)
        invariant buttons == old(buttons) + ButtonHandles(this, i)
      {
        var w := ButtonWordOf(i);
        if w.Some? {
          buttons := buttons + [Button(this, ButtonCell(w.value), ButtonMask(i), true)];
        } else {
          buttons := buttons + [invalidButton.value];
        }
        i := i + 1;
      }
    }

    /** init's hat loops: a handle of the given kind for each index below n that has a word. */
    method BuildHats(kind: HatKind, n: Int)
      modifies this`hats
      ensures hats == old(hats) + HatHandles(this, kind, Count(n))
    {
      var i: Int := 0;
      while i < n
        invariant 0 <= i <= Count(n)
        invariant hats == old(hats) + HatHandles(this, kind, i)
      {
        var w := HatWordOf(i);
        if w.Some? {
          hats := hats + [Hat(kind, this, HatCell(w.value), HatShift(i), true)];
        }
        i := i + 1;
      }
    }
  }

  /** A Go loop bound: `for i := 0; i < n; i++` runs max(n, 0) times. */
  function Count(n: Int): nat {
    if n < 0 then 0 else n
  }

  /** The error init holds when the acquire call fails, by status. */
  function StatusError(status: Int): Option<Error> {
    if status == StatFree then None
    else if status == StatBusy then Some(ErrDeviceBusy)
    else if status == StatMiss then Some(ErrDeviceMissing)
    else Some(ErrDeviceUnknown)
  }

  /**
   * What init returns for a status and an acquire result: AlreadyOwned for
   * OWN whatever the driver would say, nil once the acquire call succeeds,
   * and on a failed acquire the status's error, which for FREE is nil.
   */
  function InitError(status: Int, acquired: bool): (r: Option<Error>)
    ensures status == StatOwn <==> r == Some(ErrDeviceAlreadyOwned)
    ensures r.None? <==> status != StatOwn && (acquired || status == StatFree)
    ensures r == Some(ErrDeviceBusy) <==> status == StatBusy && !acquired
    ensures r == Some(ErrDeviceMissing) <==> status == StatMiss && !acquired
    ensures r == Some(ErrDeviceUnknown) <==>
      !acquired && status !in {StatOwn, StatFree, StatBusy, StatMiss}
    ensures r != Some(ErrReset) && r != Some(ErrUpdate) && r != Some(ErrUnknownName)
  {
    if status == StatOwn then Some(ErrDeviceAlreadyOwned)
    else if acquired then None
    else StatusError(status)
  }

  /** Whether init gets as far as building the handles. */
  predicate Opened(drv: Driver) {
    drv.status != StatOwn && drv.acquires
  }

  /** Where init points the handle of axis name i. */
  function AxisTargetOf(i: int): AxisTarget {
    match AxisFieldOf(i)
    case Some(f) => AxisCell(f)
    case None => AxisSink
  }

  /** The handle init builds for axis name i; min and max stay 0 unless the axis exists. */
  function AxisHandle(dev: Device, drv: Driver, i: nat): Axis {
    Axis(dev, AxisTargetOf(i), drv.axisExists(AxisNumber(i)),
      if drv.axisExists(AxisNumber(i)) then drv.axisMin(AxisNumber(i)) else 0,
      if drv.axisExists(AxisNumber(i)) then drv.axisMax(AxisNumber(i)) else 0)
  }

  /** The handles of the first k axis names. */
  function AxisHandles(dev: Device, drv: Driver, k: nat): seq<Axis> {
    if k == 0 then [] else AxisHandles(dev, drv, k - 1) + [AxisHandle(dev, drv, k - 1)]
  }

  /** The driver calls for axis name i: the existence query, then min and max if it exists. */
  function AxisCallsOf(drv: Driver, i: nat): seq<DriverCall> {
    [GetAxisExist(AxisNumber(i))] +
      if drv.axisExists(AxisNumber(i)) then [GetAxisMin(AxisNumber(i)), GetAxisMax(AxisNumber(i))] else []
  }

  /** The driver calls for the first k axis names. */
  function AxisCalls(drv: Driver, k: nat): seq<DriverCall> {
    if k == 0 then [] else AxisCalls(drv, k - 1) + AxisCallsOf(drv, k - 1)
  }

  /** The handle init appends for button i: its word and mask, or the invalid button from 128 on. */
  function ButtonHandle(dev: Device, i: nat): (b: Button)
    ensures b.dev == dev
    ensures b.present <==> i < 128
    ensures b.present ==> b.target.ButtonCell? && b.target.word.Group() == i / 32 && b.mask == ButtonMask(i)
    ensures !b.present ==> b == SinkButton(dev)
  {
    match ButtonWordOf(i)
    case Some(w) => Button(dev, ButtonCell(w), ButtonMask(i), true)
    case None => SinkButton(dev)
  }

  /** The handles of the first k buttons. */
  function ButtonHandles(dev: Device, k: nat): seq<Button> {
    if k == 0 then [] else ButtonHandles(dev, k - 1) + [ButtonHandle(dev, k - 1)]
  }

  /** The hat handle of one kind init appends for index i: none when i has no word. */
  function HatHandle(dev: Device, kind: HatKind, i: nat): (h: seq<Hat>)
    ensures |h| <= 1
    ensures |h| == 1 <==> i < 8
    ensures |h| == 1 ==>
      && h[0].kind == kind && h[0].dev == dev && h[0].present
      && h[0].target.HatCell? && h[0].target.word.Group() == i / 2
      && h[0].shift == (i % 2) * 16
  {
    match HatWordOf(i)
    case Some(w) => [Hat(kind, dev, HatCell(w), HatShift(i), true)]
    case None => []
  }

  /** The hat handles of one kind init appends for indices below k: none for an index without a word. */
  function HatHandles(dev: Device, kind: HatKind, k: nat): seq<Hat> {
    if k == 0 then []
    else HatHandles(dev, kind, k - 1) + HatHandle(dev, kind, k - 1)
  }

  /** The driver calls init makes once the device is acquired. */
  function HandleCalls(drv: Driver): seq<DriverCall> {
    AxisCalls(drv, MaxAxis) + [GetButtonNumber, GetDiscPovNumber, GetContPovNumber]
  }

  /** Every driver call init makes, in order. */
  function InitCalls(drv: Driver): seq<DriverCall> {
    [GetStatus] +
      if drv.status == StatOwn then []
      else [AcquireVJD] + if drv.acquires then HandleCalls(drv) else []
  }

  /** The record Acquire sends: zero, with the device byte, then Reset. */
  function AcquiredPosition(rid: Uint): Position {
    ResetPosition(ZeroPosition.WithDevice(ToByte(rid)))
  }

  /**
   * The handles of a device that init has opened with the driver's answers
   * drv, its button and hat lists having held b0 and h0 before.
   */
  ghost predicate Built(dev: Device, drv: Driver, b0: seq<Button>, h0: seq<Hat>)
    reads dev`axes, dev`buttons, dev`hats, dev`invalidAxis, dev`invalidButton, dev`invalidHat
  {
    && dev.axes == AxisHandles(dev, drv, MaxAxis)
    && dev.buttons == b0 + ButtonHandles(dev, Count(drv.buttonCount))
    && dev.hats == h0 + HatHandles(dev, DiscreteKind, Count(drv.discPovCount))
                      + HatHandles(dev, ContinuousKind, Count(drv.contPovCount))
    && dev.invalidAxis == Some(SinkAxis(dev))
    && dev.invalidButton == Some(SinkButton(dev))
    && dev.invalidHat == Some(SinkHat(dev))
  }

  /**
   * Acquire: a new Device, init, and on success Reset and one Update whose
   * result is ignored. When the status was FREE and the acquire call failed,
   * init reports no error: Acquire then returns a device with no handles.
   */
  method Acquire(rid: Uint, drv: Driver) returns (d: Option<Device>, err: Option<Error>)
    ensures err == InitError(drv.status, drv.acquires)
    ensures d.None? <==> err.Some?
    ensures d.Some? ==>
      && fresh(d.value) && fresh(d.value.st) && d.value.rid == rid
      && d.value.st.Value() == AcquiredPosition(rid)
      && d.value.noi == 0 && d.value.nou == 0
      && d.value.calls == InitCalls(drv) + [UpdateVJD(AcquiredPosition(rid))]
    ensures d.Some? && drv.acquires ==> Built(d.value, drv, [], [])
    ensures d.Some? && !drv.acquires ==>
      && d.value.axes == [] && d.value.buttons == [] && d.value.hats == []
      && d.value.invalidAxis == None && d.value.invalidButton == None
      && d.value.invalidHat == None
  {
    var dev := new Device(rid);
    err := dev.Init(drv);
    if err.Some? {
      return None, err;
    }
    dev.Reset();
    var _ := dev.Update(drv.updates);
    return Some(dev), None;
  }

  /**
   * A client of the package: acquire a device, move its X axis with Setc,
   * and submit the record with Update. A device opened without handles
   * (FREE with a failed acquire call) has no X axis to move.
   */
  method AcquireAndMoveX(rid: Uint, drv: Driver, val: Int) returns (d: Option<Device>, err: Option<Error>)
    ensures d.None? <==> InitError(drv.status, drv.acquires).Some?
    ensures d.None? ==> err == InitError(drv.status, drv.acquires)
    ensures d.Some? ==> (err.None? <==> drv.updates)
    ensures d.Some? && drv.acquires ==>
      d.value.st.Value() == AcquiredPosition(rid).WithAxis(X, Clamped(val))
    ensures d.Some? && !drv.acquires ==> d.value.st.Value() == AcquiredPosition(rid)
  {
    d, err := Acquire(rid, drv);
    if d.None? {
      return;
    }
    var dev := d.value;
    if drv.acquires {
      AxisAtBuilt(dev, drv, [], [], AxisX);
      var a := dev.AxisAt(AxisX).value;
      assert a.dev == dev && a.target == AxisCell(X);
      a.Setc(val);
    }
    err := dev.Update(drv.updates);
  }

  /** The least of two counts. */
  function Min(a: nat, b: nat): nat {
    if a < b then a else b
  }

  /** init builds exactly k axis handles for the first k names, handle i for name i. */
  lemma {:induction false} AxisHandlesShape(dev: Device, drv: Driver, k: nat)
    ensures |AxisHandles(dev, drv, k)| == k
    ensures forall i :: 0 <= i < k ==> AxisHandles(dev, drv, k)[i] == AxisHandle(dev, drv, i)
  {
    if k > 0 {
      AxisHandlesShape(dev, drv, k - 1);
    }
  }

  /**
   * The handle of axis name i writes its own record field (two names never
   * share one), exists exactly when the driver reports the axis, and has
   * min and max 0 when it does not exist.
   */
  lemma AxisHandleFields(dev: Device, drv: Driver, i: nat, j: nat)
    requires i < MaxAxis && j < MaxAxis
    ensures AxisHandle(dev, drv, i).dev == dev
    ensures AxisHandle(dev, drv, i).target.AxisCell?
    ensures AxisOrdinal(AxisHandle(dev, drv, i).target.field) == 3 + i
    ensures i != j ==> AxisHandle(dev, drv, i).target != AxisHandle(dev, drv, j).target
    ensures AxisHandle(dev, drv, i).present == drv.axisExists(HidUsageX + i)
    ensures !AxisHandle(dev, drv, i).present ==> AxisHandle(dev, drv, i).min == 0 && AxisHandle(dev, drv, i).max == 0
  {
    assert AxisFieldOf(i).Some? && AxisFieldOf(j).Some?;
  }

  /**
   * The axis loop asks the driver about the usage codes of the first k
   * names, and asks for the range of exactly those that exist.
   */
  lemma {:induction false} AxisCallsQueries(drv: Driver, k: nat, u: nat)
    requires k <= MaxAxis
    ensures GetAxisExist(u) in AxisCalls(drv, k) <==> HidUsageX <= u < HidUsageX + k
    ensures GetAxisMin(u) in AxisCalls(drv, k) <==> HidUsageX <= u < HidUsageX + k && drv.axisExists(u)
    ensures GetAxisMax(u) in AxisCalls(drv, k) <==> HidUsageX <= u < HidUsageX + k && drv.axisExists(u)
  {
    if k > 0 {
      AxisCallsQueries(drv, k - 1, u);
      assert AxisCalls(drv, k) == AxisCalls(drv, k - 1) + AxisCallsOf(drv, k - 1);
    }
  }

  /** The axis loop never sends a record. */
  lemma {:induction false} AxisCallsNoUpdate(drv: Driver, k: nat)
    ensures forall c :: c in AxisCalls(drv, k) ==> !c.UpdateVJD?
  {
    if k > 0 {
      AxisCallsNoUpdate(drv, k - 1);
      assert AxisCalls(drv, k) == AxisCalls(drv, k - 1) + AxisCallsOf(drv, k - 1);
    }
  }

  /** init builds exactly k button handles for a count of k, handle i for button i. */
  lemma {:induction false} ButtonHandlesShape(dev: Device, k: nat)
    ensures |ButtonHandles(dev, k)| == k
    ensures forall i :: 0 <= i < k ==> ButtonHandles(dev, k)[i] == ButtonHandle(dev, i)
  {
    if k > 0 {
      ButtonHandlesShape(dev, k - 1);
    }
  }

  /**
   * A hat loop with count k builds min(k, 8) handles: hats without a word
   * are skipped rather than replaced by the invalid hat, so handle i is hat
   * i, on word i/2 at shift (i%2)*16.
   */
  lemma {:induction false} HatHandlesShape(dev: Device, kind: HatKind, k: nat)
    ensures |HatHandles(dev, kind, k)| == Min(k, 8)
    ensures forall i :: 0 <= i < |HatHandles(dev, kind, k)| ==>
      i < 8 && HatHandles(dev, kind, k)[i] == HatHandle(dev, kind, i)[0]
  {
    if k > 0 {
      HatHandlesShape(dev, kind, k - 1);
      if k <= 8 {
        assert |HatHandle(dev, kind, k - 1)| == 1;
      } else {
        assert HatHandle(dev, kind, k - 1) == [];
      }
    }
  }

  /**
   * Both hat loops start at index 0: continuous hat i points at the same
   * word and the same half as discrete hat i, so the two write the same bits.
   */
  lemma ContinuousAliasesDiscrete(dev: Device, nd: nat, nc: nat, i: nat)
    requires i < |HatHandles(dev, DiscreteKind, nd)| && i < |HatHandles(dev, ContinuousKind, nc)|
    ensures HatHandles(dev, ContinuousKind, nc)[i].target == HatHandles(dev, DiscreteKind, nd)[i].target
    ensures HatHandles(dev, ContinuousKind, nc)[i].shift == HatHandles(dev, DiscreteKind, nd)[i].shift
    ensures HatHandles(dev, ContinuousKind, nc)[i].kind == ContinuousKind
    ensures HatHandles(dev, DiscreteKind, nd)[i].kind == DiscreteKind
  {
    HatHandlesShape(dev, DiscreteKind, nd);
    HatHandlesShape(dev, ContinuousKind, nc);
  }

  /**
   * Axis(n) on an opened device: the handle of name n for the eight names,
   * the invalid axis for any other n.
   */
  lemma AxisAtBuilt(dev: Device, drv: Driver, b0: seq<Button>, h0: seq<Hat>, n: Int)
    requires Built(dev, drv, b0, h0)
    ensures 0 <= n < MaxAxis ==> dev.AxisAt(n) == Some(AxisHandle(dev, drv, n))
    ensures !(0 <= n < MaxAxis) ==> dev.AxisAt(n) == Some(SinkAxis(dev))
  {
    AxisHandlesShape(dev, drv, MaxAxis);
  }

  /**
   * Button(n) on a device opened with no buttons before: the handle of
   * button n below the driver's count (itself the invalid button from 128
   * on), the invalid button outside it.
   */
  lemma ButtonAtBuilt(dev: Device, drv: Driver, h0: seq<Hat>, n: Int)
    requires Built(dev, drv, [], h0)
    ensures 0 <= n < Count(drv.buttonCount) ==> dev.ButtonAt(n) == Some(ButtonHandle(dev, n))
    ensures !(0 <= n < Count(drv.buttonCount)) ==> dev.ButtonAt(n) == Some(SinkButton(dev))
  {
    ButtonHandlesShape(dev, Count(drv.buttonCount));
    assert dev.buttons == ButtonHandles(dev, Count(drv.buttonCount));
  }

  /**
   * The hat list of a device opened with no hats before: min(d, 8)
   * discrete hats, then min(c, 8) continuous hats starting over at hat 0.
   */
  lemma HatAtBuilt(dev: Device, drv: Driver, b0: seq<Button>, n: Int)
    requires Built(dev, drv, b0, [])
    ensures |dev.hats| == Min(Count(drv.discPovCount), 8) + Min(Count(drv.contPovCount), 8)
    ensures 0 <= n < Min(Count(drv.discPovCount), 8) ==>
      dev.HatAt(n) == Some(HatHandle(dev, DiscreteKind, n)[0])
    ensures Min(Count(drv.discPovCount), 8) <= n < |dev.hats| ==>
      dev.HatAt(n) == Some(HatHandle(dev, ContinuousKind, n - Min(Count(drv.discPovCount), 8))[0])
    ensures !(0 <= n < |dev.hats|) ==> dev.HatAt(n) == Some(SinkHat(dev))
  {
    var d := HatHandles(dev, DiscreteKind, Count(drv.discPovCount));
    var c := HatHandles(dev, ContinuousKind, Count(drv.contPovCount));
    HatHandlesShape(dev, DiscreteKind, Count(drv.discPovCount));
    HatHandlesShape(dev, ContinuousKind, Count(drv.contPovCount));
    assert dev.hats == d + c;
    if Min(Count(drv.discPovCount), 8) <= n < |dev.hats| {
      assert dev.hats[n] == c[n - |d|];
    }
  }

  /**
   * Set on the invalid button (mask 0, writing noi) leaves every cell as it
   * was, pressed or not.
   */
  lemma SinkButtonKeeps(dev: Device, c: Cells, pressed: bool)
    ensures WithButtonWord(c, SinkButton(dev).target,
      ButtonApply(ButtonWordIn(c, SinkButton(dev).target), SinkButton(dev).mask, pressed)) == c
  {
    ButtonApplyNoMask(c.noi, pressed);
  }

  /**
   * A store through an axis handle changes only the cell it points at: one
   * axis field, or the sink noi.
   */
  lemma AxisStoreFrame(c: Cells, t: AxisTarget, v: Int32)
    ensures t.AxisCell? ==>
      && WithAxisValue(c, t, v).pos.Axis(t.field) == v
      && (forall g :: g != t.field ==> WithAxisValue(c, t, v).pos.Axis(g) == c.pos.Axis(g))
      && (forall w :: WithAxisValue(c, t, v).pos.Button(w) == c.pos.Button(w))
      && (forall w :: WithAxisValue(c, t, v).pos.Hat(w) == c.pos.Hat(w))
      && WithAxisValue(c, t, v).pos.device == c.pos.device
      && WithAxisValue(c, t, v).noi == c.noi
      && WithAxisValue(c, t, v).nou == c.nou
    ensures t.AxisSink? ==>
      WithAxisValue(c, t, v).pos == c.pos && WithAxisValue(c, t, v).nou == c.nou
  {
  }

  /** A store through a button handle changes only its word, or the sink noi. */
  lemma ButtonStoreFrame(c: Cells, t: ButtonTarget, b: bv32)
    ensures ButtonWordIn(WithButtonWord(c, t, b), t) == b
    ensures t.ButtonCell? ==>
      && (forall w :: w != t.word ==> WithButtonWord(c, t, b).pos.Button(w) == c.pos.Button(w))
      && WithButtonWord(c, t, b).pos.axes == c.pos.axes
      && (forall w :: WithButtonWord(c, t, b).pos.Hat(w) == c.pos.Hat(w))
      && WithButtonWord(c, t, b).pos.device == c.pos.device
      && WithButtonWord(c, t, b).noi == c.noi
      && WithButtonWord(c, t, b).nou == c.nou
    ensures t.ButtonSink? ==>
      WithButtonWord(c, t, b).pos == c.pos && WithButtonWord(c, t, b).nou == c.nou
  {
  }

  /** A store through a hat handle changes only its word, or the sink nou. */
  lemma HatStoreFrame(c: Cells, t: HatTarget, b: bv32)
    ensures HatWordIn(WithHatWord(c, t, b), t) == b
    ensures t.HatCell? ==>
      && (forall w :: w != t.word ==> WithHatWord(c, t, b).pos.Hat(w) == c.pos.Hat(w))
      && WithHatWord(c, t, b).pos.axes == c.pos.axes
      && (forall w :: WithHatWord(c, t, b).pos.Button(w) == c.pos.Button(w))
      && WithHatWord(c, t, b).pos.device == c.pos.device
      && WithHatWord(c, t, b).noi == c.noi
      && WithHatWord(c, t, b).nou == c.nou
    ensures t.HatSink? ==>
      WithHatWord(c, t, b).pos == c.pos && WithHatWord(c, t, b).noi == c.noi
  {
  }

  /** Reset twice is Reset once. */
  lemma ResetIdempotent(p: Position)
    ensures ResetPosition(ResetPosition(p)) == ResetPosition(p)
  {
  }

  /**
   * The record Acquire sends: device byte rid % 256, every axis centred,
   * every button word 0 (the extra ones were never written), hats all ones.
   */
  lemma AcquiredPositionFields(rid: Uint)
    ensures AcquiredPosition(rid).device == rid % 256
    ensures forall f :: AcquiredPosition(rid).Axis(f) == Centre
    ensures forall w :: AcquiredPosition(rid).Button(w) == 0
    ensures forall w :: AcquiredPosition(rid).Hat(w) == HatsOff
  {
    var z := ZeroPosition.WithDevice(ToByte(rid));
    assert forall w :: z.Button(w) == 0;
  }

  /**
   * init's driver calls: the status query always comes first; for OWN
   * nothing follows, in particular no acquire call; otherwise the acquire
   * call comes second; and init never sends a record.
   */
  lemma InitCallsOrder(drv: Driver)
    ensures InitCalls(drv)[0] == GetStatus
    ensures drv.status == StatOwn <==> InitCalls(drv) == [GetStatus]
    ensures AcquireVJD in InitCalls(drv) <==> drv.status != StatOwn
    ensures drv.status != StatOwn ==> InitCalls(drv)[1] == AcquireVJD
    ensures !Opened(drv) ==> |InitCalls(drv)| <= 2
    ensures forall c :: c in InitCalls(drv) ==> !c.UpdateVJD?
  {
    AxisCallsNoUpdate(drv, MaxAxis);
    assert forall c :: c in HandleCalls(drv) ==> !c.UpdateVJD?;
    AxisCallsQueries(drv, MaxAxis, 0);
    if drv.status != StatOwn && drv.acquires {
      assert InitCalls(drv) == [GetStatus, AcquireVJD] + HandleCalls(drv);
      assert AcquireVJD !in HandleCalls(drv) by {
        AxisCallsNoAcquire(drv, MaxAxis);
      }
    }
  }

  /** The axis loop never calls the acquire entry point. */
  lemma {:induction false} AxisCallsNoAcquire(drv: Driver, k: nat)
    ensures AcquireVJD !in AxisCalls(drv, k)
  {
    if k > 0 {
      AxisCallsNoAcquire(drv, k - 1);
      assert AxisCalls(drv, k) == AxisCalls(drv, k - 1) + AxisCallsOf(drv, k - 1);
    }
  }

  /** On an opened device the axis loop queries each of the eight usage codes once for existence. */
  lemma OpenedQueriesAxes(drv: Driver, u: nat)
    requires Opened(drv)
    ensures GetAxisExist(u) in InitCalls(drv) <==> HidUsageX <= u <= HidUsageSL1
    ensures GetAxisMin(u) in InitCalls(drv) <==> HidUsageX <= u <= HidUsageSL1 && drv.axisExists(u)
  {
    AxisCallsQueries(drv, MaxAxis, u);
    assert InitCalls(drv) == [GetStatus, AcquireVJD] + AxisCalls(drv, MaxAxis)
      + [GetButtonNumber, GetDiscPovNumber, GetContPovNumber];
  }

  /** The record is sent once in all: Acquire's trace has exactly one UpdateVJD, its last call. */
  lemma AcquireUpdatesOnce(drv: Driver, p: Position, i: nat)
    requires i < |InitCalls(drv) + [UpdateVJD(p)]|
    ensures (InitCalls(drv) + [UpdateVJD(p)])[i].UpdateVJD? <==> i == |InitCalls(drv)|
  {
    InitCallsOrder(drv);
    if i < |InitCalls(drv)| {
      assert (InitCalls(drv) + [UpdateVJD(p)])[i] == InitCalls(drv)[i];
    }
  }
}
