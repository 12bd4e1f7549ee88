/**
 * The driver interface's data: the status codes returned by GetVJDStatus,
 * the HID usage codes that name axes, and the JOYSTICK_POSITION record that
 * UpdateVJD submits whole. The record is a class (its fields are written in
 * place); Position is its value, used to state what each write does.
 */
module Dll {
  import opened GoInt

  // Results of GetVJDStatus.
  const StatOwn: int := 0   // owned by this application
  const StatFree: int := 1  // owned by no application
  const StatBusy: int := 2  // owned by another application
  const StatMiss: int := 3  // missing, or the driver is down
  const StatUnkn: int := 4  // unknown

  // HID usage codes of the axes.
  const HidUsageX: nat := 0x30
  const HidUsageY: nat := 0x31
  const HidUsageZ: nat := 0x32
  const HidUsageRX: nat := 0x33
  const HidUsageRY: nat := 0x34
  const HidUsageRZ: nat := 0x35
  const HidUsageSL0: nat := 0x36
  const HidUsageSL1: nat := 0x37
  const HidUsageWHL: nat := 0x38
  const HidUsagePOV: nat := 0x39

  /** The 18 axis fields of the record, in declaration order. */
  datatype AxisField =
    | Throttle | Rudder | Aileron
    | X | Y | Z | XRot | YRot | ZRot
    | Slider | Dial | Wheel
    | VX | VY | VZ | VBRX | VBRY | VBRZ

  /** The four button words: Buttons holds buttons 1-32, ButtonsEx1 33-64, and so on. */
  datatype ButtonWord = Buttons | ButtonsEx1 | ButtonsEx2 | ButtonsEx3 {
    /** Which 32-button group the word holds (0 for buttons 1-32). */
    function Group(): nat {
      match this
      case Buttons => 0
      case ButtonsEx1 => 1
      case ButtonsEx2 => 2
      case ButtonsEx3 => 3
    }
  }

  /** The four hat words, each holding two hats, one per 16-bit half. */
  datatype HatWord = Hats | HatsEx1 | HatsEx2 | HatsEx3 {
    /** Which pair of hats the word holds (0 for hats 0 and 1). */
    function Group(): nat {
      match this
      case Hats => 0
      case HatsEx1 => 1
      case HatsEx2 => 2
      case HatsEx3 => 3
    }
  }

  /** A field of the record. */
  datatype Field =
    | DeviceField
    | AxisSlot(axis: AxisField)
    | ButtonSlot(button: ButtonWord)
    | HatSlot(hat: HatWord)

  /**
   * The record's fields in declaration order, which is the order in which the
   * driver reads them: the device byte, the 18 axes, Buttons, the four hat
   * words, then the three extension button words.
   */
  const Declared: seq<Field> := [
    DeviceField,
    AxisSlot(Throttle), AxisSlot(Rudder), AxisSlot(Aileron),
    AxisSlot(X), AxisSlot(Y), AxisSlot(Z),
    AxisSlot(XRot), AxisSlot(YRot), AxisSlot(ZRot),
    AxisSlot(Slider), AxisSlot(Dial), AxisSlot(Wheel),
    AxisSlot(VX), AxisSlot(VY), AxisSlot(VZ),
    AxisSlot(VBRX), AxisSlot(VBRY), AxisSlot(VBRZ),
    ButtonSlot(Buttons),
    HatSlot(Hats), HatSlot(HatsEx1), HatSlot(HatsEx2), HatSlot(HatsEx3),
    ButtonSlot(ButtonsEx1), ButtonSlot(ButtonsEx2), ButtonSlot(ButtonsEx3)
  ]

  /** The position of a field in the record. */
  function Ordinal(f: Field): nat
  {
    match f
    case DeviceField => 0
    case AxisSlot(a) => 1 + AxisOrdinal(a)
    case ButtonSlot(Buttons) => 19
    case HatSlot(h) => 20 + h.Group()
    case ButtonSlot(b) => 23 + b.Group()
  }

  function AxisOrdinal(a: AxisField): (k: nat)
    ensures k < 18
  {
    match a
    case Throttle => 0 case Rudder => 1 case Aileron => 2
    case X => 3 case Y => 4 case Z => 5
    case XRot => 6 case YRot => 7 case ZRot => 8
    case Slider => 9 case Dial => 10 case Wheel => 11
    case VX => 12 case VY => 13 case VZ => 14
    case VBRX => 15 case VBRY => 16 case VBRZ => 17
  }

  /** No field is declared twice: the field at position i has ordinal i. */
  lemma DeclaredOnce()
    ensures |Declared| == 27
    ensures forall i :: 0 <= i < |Declared| ==> Ordinal(Declared[i]) == i
  {
  }

  /** Every field is declared, at the position its ordinal names. */
  lemma DeclaredComplete(f: Field)
    ensures Ordinal(f) < |Declared| && Declared[Ordinal(f)] == f
  {
  }

  /** The 18 axis fields, contiguous int32 values in declaration order. */
  type AxisValues = s: seq<Int32> | |s| == 18 witness seq(18, _ => 0)

  /**
   * The value of the record: the device byte, the axes (indexed by
   * AxisOrdinal), and the bit patterns of the four button words (declared
   * int32) and of the four hat words (declared uint32).
   */
  datatype Position = Position(
    device: Byte,
    axes: AxisValues,
    buttons: bv32,
    hats: bv32, hatsEx1: bv32, hatsEx2: bv32, hatsEx3: bv32,
    buttonsEx1: bv32, buttonsEx2: bv32, buttonsEx3: bv32)
  {
    function Axis(f: AxisField): Int32 {
      axes[AxisOrdinal(f)]
    }

    /** The bit pattern of a button word. */
    function Button(w: ButtonWord): bv32 {
      match w
      case Buttons => buttons
      case ButtonsEx1 => buttonsEx1
      case ButtonsEx2 => buttonsEx2
      case ButtonsEx3 => buttonsEx3
    }

    function Hat(w: HatWord): bv32 {
      match w
      case Hats => hats
      case HatsEx1 => hatsEx1
      case HatsEx2 => hatsEx2
      case HatsEx3 => hatsEx3
    }

    /** The record with one axis field replaced. */
    function WithAxis(f: AxisField, v: Int32): (p: Position)
      ensures p.Axis(f) == v
      ensures forall g :: g != f ==> p.Axis(g) == Axis(g)
      ensures forall w :: p.Button(w) == Button(w)
      ensures forall w :: p.Hat(w) == Hat(w)
      ensures p.device == device
    {
      AxisOrdinalInjective(f);
      this.(axes := axes[AxisOrdinal(f) := v])
    }

    /** The record with one button word replaced. */
    function WithButton(w: ButtonWord, b: bv32): (p: Position)
      ensures p.Button(w) == b
      ensures forall u :: u != w ==> p.Button(u) == Button(u)
      ensures p.axes == axes
      ensures forall u :: p.Hat(u) == Hat(u)
      ensures p.device == device
    {
      match w
      case Buttons => this.(buttons := b)
      case ButtonsEx1 => this.(buttonsEx1 := b)
      case ButtonsEx2 => this.(buttonsEx2 := b)
      case ButtonsEx3 => this.(buttonsEx3 := b)
    }

    /** The record with one hat word replaced. */
    function WithHat(w: HatWord, b: bv32): (p: Position)
      ensures p.Hat(w) == b
      ensures forall u :: u != w ==> p.Hat(u) == Hat(u)
      ensures p.axes == axes
      ensures forall u :: p.Button(u) == Button(u)
      ensures p.device == device
    {
      match w
      case Hats => this.(hats := b)
      case HatsEx1 => this.(hatsEx1 := b)
      case HatsEx2 => this.(hatsEx2 := b)
      case HatsEx3 => this.(hatsEx3 := b)
    }

    /** The record with another device byte. */
    function WithDevice(b: Byte): (p: Position)
      ensures p.device == b
      ensures p.axes == axes
      ensures forall w :: p.Button(w) == Button(w)
      ensures forall w :: p.Hat(w) == Hat(w)
    {
      Position(b, axes, buttons, hats, hatsEx1, hatsEx2, hatsEx3,
        buttonsEx1, buttonsEx2, buttonsEx3)
    }
  }

  /** Distinct axis fields occupy distinct slots. */
  lemma AxisOrdinalInjective(f: AxisField)
    ensures forall g :: g != f ==> AxisOrdinal(g) != AxisOrdinal(f)
  {
  }

  /** The value the driver reads in a field: the byte, an axis, or a word's bit pattern. */
  function FieldValue(p: Position, f: Field): int {
    match f
    case DeviceField => p.device
    case AxisSlot(a) => p.Axis(a)
    case ButtonSlot(w) => p.Button(w) as int
    case HatSlot(w) => p.Hat(w) as int
  }

  /** A record's values in the order of Position's components. */
  function Layout(p: Position): seq<int> {
    [p.device as int] + p.axes
    + [p.buttons as int, p.hats as int, p.hatsEx1 as int, p.hatsEx2 as int, p.hatsEx3 as int,
       p.buttonsEx1 as int, p.buttonsEx2 as int, p.buttonsEx3 as int]
  }

  /**
   * Position's components follow the declaration order: the component at
   * position Ordinal(f) is the one the accessors read for field f.
   */
  lemma LayoutFollowsDeclared(p: Position, f: Field)
    ensures |Layout(p)| == |Declared|
    ensures Layout(p)[Ordinal(f)] == FieldValue(p, f)
  {
  }

  /** Every axis at Go's zero value. */
  const ZeroAxes: AxisValues := [0, 0, 0, 0, 0, 0, 0, 0, 0, 0, 0, 0, 0, 0, 0, 0, 0, 0]

  /** Go's zero value of the record. */
  const ZeroPosition: Position := Position(0, ZeroAxes, 0, 0, 0, 0, 0, 0, 0, 0)

  /** The JOYSTICK_POSITION record, whose fields the package writes in place. */
  class JoystickPosition {
    var device: Byte
    var axes: AxisValues
    var buttons: bv32
    var hats: bv32
    var hatsEx1: bv32
    var hatsEx2: bv32
    var hatsEx3: bv32
    var buttonsEx1: bv32
    var buttonsEx2: bv32
    var buttonsEx3: bv32

    function Value(): Position
      reads this
    {
      Position(device, axes, buttons, hats, hatsEx1, hatsEx2, hatsEx3,
        buttonsEx1, buttonsEx2, buttonsEx3)
    }

    /** A record with Go's zero value in every field. */
    constructor ()
      ensures Value() == ZeroPosition
    {
      device := 0;
      axes := ZeroAxes;
      buttons := 0;
      hats, hatsEx1, hatsEx2, hatsEx3 := 0, 0, 0, 0;
      buttonsEx1, buttonsEx2, buttonsEx3 := 0, 0, 0;
    }

    /** A write through a pointer to one axis field. */
    method SetAxis(f: AxisField, v: Int32)
      modifies this
      ensures Value() == old(Value()).WithAxis(f, v)
    {
      axes := axes[AxisOrdinal(f) := v];
    }

    /** A write through a pointer to one button word. */
    method SetButton(w: ButtonWord, b: bv32)
      modifies this
      ensures Value() == old(Value()).WithButton(w, b)
    {
      match w
      case Buttons => buttons := b;
      case ButtonsEx1 => buttonsEx1 := b;
      case ButtonsEx2 => buttonsEx2 := b;
      case ButtonsEx3 => buttonsEx3 := b;
    }

    /** A write through a pointer to one hat word. */
    method SetHat(w: HatWord, b: bv32)
      modifies this
      ensures Value() == old(Value()).WithHat(w, b)
    {
      match w
      case Hats => hats := b;
      case HatsEx1 => hatsEx1 := b;
      case HatsEx2 => hatsEx2 := b;
      case HatsEx3 => hatsEx3 := b;
    }
  }
}
