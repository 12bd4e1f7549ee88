/**
 * The pure part of the vjoy package: axis names and their HID usage codes,
 * the arithmetic of the axis setters, the mapping of button and hat indices
 * to record words, and the values and words the hat setters compute.
 */
module Controls {
  import opened GoInt
  import opened Dll
  import opened Wrappers

  // Values of AxisName.
  const AxisX: Int := 0
  const AxisY: Int := 1
  const AxisZ: Int := 2
  const AxisRX: Int := 3
  const AxisRY: Int := 4
  const AxisRZ: Int := 5
  const Slider0: Int := 6
  const Slider1: Int := 7
  const MaxAxis: Int := 8

  /**
   * axisNumber: each of the eight axis names has its own HID usage code, the
   * consecutive values 0x30..0x37 in name order; any other value gets 0.
   */
  function AxisNumber(a: int): (code: nat)
    ensures AxisX <= a < MaxAxis ==> code == HidUsageX + a
    ensures !(AxisX <= a < MaxAxis) ==> code == 0
  {
    if a == AxisX then HidUsageX
    else if a == AxisY then HidUsageY
    else if a == AxisZ then HidUsageZ
    else if a == AxisRX then HidUsageRX
    else if a == AxisRY then HidUsageRY
    else if a == AxisRZ then HidUsageRZ
    else if a == Slider0 then HidUsageSL0
    else if a == Slider1 then HidUsageSL1
    else 0
  }

  /**
   * The record field init points an axis name's handle at: the eight names
   * land on the eight consecutive fields AxisX..Dial (ordinals 3 to 10), so
   * no two names share a field; None is the unused `default` branch.
   */
  function AxisFieldOf(a: int): (f: Option<AxisField>)
    ensures f.Some? <==> AxisX <= a < MaxAxis
    ensures f.Some? ==> AxisOrdinal(f.value) == 3 + a
  {
    if a == AxisX then Some(X)
    else if a == AxisY then Some(Y)
    else if a == AxisZ then Some(Z)
    else if a == AxisRX then Some(XRot)
    else if a == AxisRY then Some(YRot)
    else if a == AxisRZ then Some(ZRot)
    else if a == Slider0 then Some(Slider)
    else if a == Slider1 then Some(Dial)
    else None
  }

  /** The value Setu stores: `int32(val & 0x7fff)`, val modulo 0x8000. */
  function Masked(val: Int): (v: Int32)
    ensures 0 <= v <= 0x7fff
    ensures (val - v) % 0x8000 == 0
  {
    val % 0x8000
  }

  /** The argument Seti hands to Setu: `val - 0x4000` in Go's wrapping int. */
  function Centred(val: Int): Int {
    Wrap(val - 0x4000)
  }

  function Dist(a: int, b: int): nat {
    if a <= b then b - a else a - b
  }

  /** The argument Setc hands to Setu: the point of 0..0x7fff nearest val. */
  function Clamped(val: Int): (c: Int)
    ensures 0 <= c <= 0x7fff
    ensures forall y :: 0 <= y <= 0x7fff ==> Dist(val, c) <= Dist(val, y)
  {
    if val < 0 then 0
    else if 0x7fff < val then 0x7fff
    else val
  }

  /**
   * Seti(val) stores val + 0x4000 modulo 0x8000 (Go's wrap-around of
   * val - 0x4000 does not show), so the signed range -0x4000..0x3fff maps
   * one-to-one and in order onto 0..0x7fff with 0 landing on the centre.
   */
  lemma SetiStores(val: Int)
    ensures Masked(Centred(val)) == (val + 0x4000) % 0x8000
    ensures -0x4000 <= val <= 0x3fff ==> Masked(Centred(val)) == val + 0x4000
  {
    WrapMod8000(val - 0x4000);
    assert val - 0x4000 == (val + 0x4000) - 0x8000;
  }

  /** The three reference points of Seti. */
  lemma SetiReferencePoints()
    ensures Masked(Centred(0)) == 0x4000
    ensures Masked(Centred(-0x4000)) == 0
    ensures Masked(Centred(0x3fff)) == 0x7fff
  {
    SetiStores(0);
    SetiStores(-0x4000);
    SetiStores(0x3fff);
  }

  /**
   * Setc never wraps: it stores val itself inside 0..0x7fff, 0 below and
   * 0x7fff above.
   */
  lemma SetcStores(val: Int)
    ensures Masked(Clamped(val)) == Clamped(val)
    ensures 0 <= val <= 0x7fff ==> Masked(Clamped(val)) == val
    ensures val < 0 ==> Masked(Clamped(val)) == 0
    ensures 0x7fff < val ==> Masked(Clamped(val)) == 0x7fff
  {
    var c := Clamped(val);
    assert Dist(val, c) <= Dist(val, 0) && Dist(val, c) <= Dist(val, 0x7fff);
    if 0 <= val <= 0x7fff {
      assert Dist(val, c) <= Dist(val, val);
    }
  }

  /** button(i)'s word: word i/32 of the four, none from index 128 on. */
  function ButtonWordOf(i: nat): (w: Option<ButtonWord>)
    ensures w.Some? <==> i < 128
    ensures w.Some? ==> w.value.Group() == i / 32
  {
    var g := i / 32;
    if g == 0 then Some(Buttons)
    else if g == 1 then Some(ButtonsEx1)
    else if g == 2 then Some(ButtonsEx2)
    else if g == 3 then Some(ButtonsEx3)
    else None
  }

  /** button(i)'s mask: `1 << uint(i%32)`, as an int32 bit pattern. */
  function ButtonMask(i: nat): bv32 {
    1 << (i % 32)
  }

  /** Button.Set on a word: OR the mask in when pressed, AND its complement otherwise. */
  function ButtonApply(word: bv32, mask: bv32, pressed: bool): bv32 {
    if pressed then word | mask else word & !mask
  }

  /** After Set the bits under the mask are all set (pressed) or all clear (released)... */
  lemma ButtonApplyOwnBits(word: bv32, mask: bv32, pressed: bool)
    ensures ButtonApply(word, mask, pressed) & mask == (if pressed then mask else 0)
  {
    if pressed {
    } else {
    }
  }

  /** ...and every bit outside the mask is as it was. */
  lemma ButtonApplyKeeps(word: bv32, mask: bv32, other: bv32, pressed: bool)
    requires mask & other == 0
    ensures ButtonApply(word, mask, pressed) & other == word & other
  {
    if pressed {
    } else {
    }
  }

  /** A button's mask is a single bit, its own bit within its word. */
  lemma ButtonMasksDistinct(i: nat, j: nat)
    ensures ButtonMask(i) != 0
    ensures i % 32 != j % 32 ==> ButtonMask(i) & ButtonMask(j) == 0
  {
  }

  /**
   * Buttons 31 and 32 (0-based) sit in different words: bit 31 of Buttons
   * (button 32 of the driver) and bit 0 of ButtonsEx1 (button 33).
   */
  lemma Buttons31And32()
    ensures ButtonWordOf(31) == Some(Buttons) && ButtonMask(31) == 0x8000_0000
    ensures ButtonWordOf(32) == Some(ButtonsEx1) && ButtonMask(32) == 1
  {
  }

  /**
   * Setting button i never changes another button j of the same word: j has
   * a different bit of it. (A button of another word is another field.)
   */
  lemma ButtonsIndependent(i: nat, j: nat, word: bv32, pressed: bool)
    requires i != j && i < 128 && j < 128
    requires ButtonWordOf(i) == ButtonWordOf(j)
    ensures ButtonApply(word, ButtonMask(i), pressed) & ButtonMask(j) == word & ButtonMask(j)
  {
    assert i / 32 == j / 32;
    ButtonMasksDistinct(i, j);
    ButtonApplyKeeps(word, ButtonMask(i), ButtonMask(j), pressed);
  }

  /** Repeating a Set is idempotent, and the later of two Sets of one button wins. */
  lemma ButtonApplyIdempotent(word: bv32, mask: bv32, first: bool, second: bool)
    ensures ButtonApply(ButtonApply(word, mask, first), mask, second) == ButtonApply(word, mask, second)
  {
    if second {
      if first {} else {}
    } else {
      if first {} else {}
    }
  }

  /** With mask 0 (the invalid button's) Set leaves the word as it was. */
  lemma ButtonApplyNoMask(word: bv32, pressed: bool)
    ensures ButtonApply(word, 0, pressed) == word
  {
    if pressed {
    } else {
    }
  }

  /** hat(i)'s word: word i/2 of the four, none from index 8 on. */
  function HatWordOf(i: nat): (w: Option<HatWord>)
    ensures w.Some? <==> i < 8
    ensures w.Some? ==> w.value.Group() == i / 2
  {
    var g := i / 2;
    if g == 0 then Some(Hats)
    else if g == 1 then Some(HatsEx1)
    else if g == 2 then Some(HatsEx2)
    else if g == 3 then Some(HatsEx3)
    else None
  }

  /** The shift selecting one 16-bit half of a hat word. */
  type HalfShift = s: nat | s == 0 || s == 16

  /** hat(i)'s shift: `(i%2)*16`, the low half for even i and the high half for odd i. */
  function HatShift(i: nat): (s: HalfShift)
    ensures s == 16 <==> i % 2 == 1
  {
    (i % 2) * 16
  }

  // Values of HatState.
  const HatN: Int := 0
  const HatE: Int := 1
  const HatS: Int := 2
  const HatW: Int := 3
  const HatOff: Int := -1

  /**
   * continuousHat.SetDiscrete's value: a state above 0 times 9000
   * hundredths of a degree (in Go's wrapping int), others as they are.
   */
  function DegpOfState(s: Int): Int {
    if s > 0 then Wrap(s * 9000) else s
  }

  /**
   * discreteHat.SetDegp's value: a positive angle becomes
   * `((val + 4500) / 9000) % 4` in Go's int arithmetic, others stay.
   */
  function StateOfDegp(v: Int): Int {
    if v > 0 then Rem(Quo(Wrap(v + 4500), 9000), 4) else v
  }

  /** The continuous hat's reading of the five states. */
  lemma DegpOfStates()
    ensures DegpOfState(HatN) == 0
    ensures DegpOfState(HatE) == 9000
    ensures DegpOfState(HatS) == 18000
    ensures DegpOfState(HatW) == 27000
    ensures DegpOfState(HatOff) == -1
  {
  }

  /**
   * A positive angle is rounded to the nearest quarter turn and taken modulo
   * four quarters, giving a direction 0..3; 0 and negative values pass
   * unchanged. Past MaxInt - 4500 the Go sum wraps: see StateOfDegpWraps.
   */
  lemma StateOfDegpRounds(v: Int)
    ensures 0 < v <= MaxInt - 4500 ==>
      StateOfDegp(v) == ((v + 4500) / 9000) % 4 && 0 <= StateOfDegp(v) <= 3
    ensures v <= 0 ==> StateOfDegp(v) == v
  {
    if 0 < v <= MaxInt - 4500 {
      QuoRemNonNegative(v + 4500, 9000);
      QuoRemNonNegative((v + 4500) / 9000, 4);
    }
  }

  /**
   * Within 4500 of MaxInt, `val + 4500` wraps to a negative int, and the
   * truncating `/` and `%` then give -1 or -2, which is not a direction.
   */
  lemma StateOfDegpWraps(v: Int)
    requires MaxInt - 4500 < v
    ensures -2 <= StateOfDegp(v) <= -1
  {
    var y := TwoTo64 - (v + 4500);
    assert Wrap(v + 4500) == -y;
    var a := 1024819115206086;
    if y < a * 9000 {
      assert y / 9000 == a - 1;
      assert Quo(-y, 9000) == -(a - 1);
      assert Rem(-(a - 1), 4) == -1;
    } else {
      assert y / 9000 == a;
      assert Quo(-y, 9000) == -a;
      assert Rem(-a, 4) == -2;
    }
  }

  lemma StateOfDegpExamples()
    ensures StateOfDegp(13500) == HatS
    ensures StateOfDegp(35999) == HatN
    ensures StateOfDegp(4499) == HatN
    ensures StateOfDegp(4500) == HatE
    ensures StateOfDegp(27000) == HatW
  {
    StateOfDegpRounds(13500);
    StateOfDegpRounds(35999);
    StateOfDegpRounds(4499);
    StateOfDegpRounds(4500);
    StateOfDegpRounds(27000);
  }

  /**
   * The two conversions are inverse on the five states: a state turned into
   * hundredths of a degree and back is the state it was.
   */
  lemma StateDegpRoundTrip(s: Int)
    requires HatOff <= s <= HatW
    ensures StateOfDegp(DegpOfState(s)) == s
  {
    if s > 0 {
      StateOfDegpRounds(s * 9000);
      assert (s * 9000 + 4500) / 9000 == s;
    }
  }

  /** A hat setter's new word: `(old & (m << shift)) | (u << shift)`. */
  function HatPut(prev: bv32, m: bv32, shift: HalfShift, u: bv32): bv32 {
    (prev & (m << shift)) | (u << shift)
  }

  /** The same, for the Go int value val converted with `uint32(val)`. */
  function HatStore(prev: bv32, m: bv32, shift: HalfShift, val: Int): bv32 {
    HatPut(prev, m, shift, Uint32(val))
  }

  function Low(w: bv32): bv32 {
    w & 0xffff
  }

  function High(w: bv32): bv32 {
    w >> 16
  }

  /**
   * A setter on the high half (shift 16), with the masks 0xf and 0xffff the
   * setters use: the hat's half keeps its old bits under m and gains the
   * new value's low 16 bits...
   */
  lemma HatPutHighOwn(prev: bv32, m: bv32, u: bv32)
    requires m == 0xf || m == 0xffff
    ensures High(HatPut(prev, m, 16, u)) == (High(prev) & m) | Low(u)
  {
    if m == 0xf {
    } else {
    }
  }

  /** ...and the neighbouring low half is cleared. */
  lemma HatPutHighClears(prev: bv32, m: bv32, u: bv32)
    requires m == 0xf || m == 0xffff
    ensures Low(HatPut(prev, m, 16, u)) == 0
  {
    if m == 0xf {
    } else {
    }
  }

  /**
   * A setter on the low half (shift 0): the hat's half keeps its old bits
   * under m and gains the new value's low 16 bits...
   */
  lemma HatPutLowOwn(prev: bv32, m: bv32, u: bv32)
    requires m == 0xf || m == 0xffff
    ensures Low(HatPut(prev, m, 0, u)) == (Low(prev) & m) | Low(u)
  {
    if m == 0xf {
    } else {
    }
  }

  /** ...and the neighbouring high half takes the new value's high 16 bits. */
  lemma HatPutLowSpill(prev: bv32, m: bv32, u: bv32)
    requires m == 0xf || m == 0xffff
    ensures High(HatPut(prev, m, 0, u)) == High(u)
  {
    if m == 0xf {
    } else {
    }
  }

  /** The kinds of hat: discrete (four directions) and continuous (hundredths of a degree). */
  datatype HatKind = DiscreteKind | ContinuousKind

  /** Hat.SetDiscrete's new word for a hat of the given kind. */
  function SetDiscreteWord(kind: HatKind, prev: bv32, shift: HalfShift, s: Int): bv32 {
    match kind
    case DiscreteKind => HatStore(prev, 0xf, shift, s)
    case ContinuousKind => HatStore(prev, 0xffff, shift, DegpOfState(s))
  }

  /**
   * continuousHat.SetDiscrete multiplies in Go's wrapping int, yet stores
   * the word the exact product gives: `uint32` sees the product modulo 2^32.
   */
  lemma ContinuousDiscreteExact(prev: bv32, shift: HalfShift, s: Int)
    requires s > 0
    ensures SetDiscreteWord(ContinuousKind, prev, shift, s) == HatPut(prev, 0xffff, shift, Uint32(s * 9000))
  {
    WrapUint32(s * 9000);
  }

  /** Hat.SetDegp's new word for a hat of the given kind. */
  function SetDegpWord(kind: HatKind, prev: bv32, shift: HalfShift, v: Int): bv32 {
    match kind
    case DiscreteKind => HatStore(prev, 0xffff, shift, StateOfDegp(v))
    case ContinuousKind => HatStore(prev, 0xffff, shift, v)
  }

  /** The half of a hat word that the hat at the given shift reads. */
  function OwnHalf(w: bv32, shift: HalfShift): bv32 {
    if shift == 16 then High(w) else Low(w)
  }

  /** uint32 of the four directions: the direction in the low four bits and nothing above bit 3. */
  lemma Uint32Direction(s: Int)
    requires HatN <= s <= HatW
    ensures Low(Uint32(s)) & !0xf == 0
    ensures Low(Uint32(s)) & 0xf == Uint32(s)
  {
    if s == 0 {
      var k := 0 % TwoTo32;
      assert k == 0;
    } else if s == 1 {
      var k := 1 % TwoTo32;
      assert k == 1;
    } else if s == 2 {
      var k := 2 % TwoTo32;
      assert k == 2;
    } else {
      var k := 3 % TwoTo32;
      assert k == 3;
    }
  }

  /**
   * Reset writes 0xffffffff to the hat words, and the setters AND the old
   * word with their own mask: so after Reset, SetDiscrete with a direction
   * leaves a discrete hat's half at 0xf and a continuous hat's half at
   * 0xffff, whatever the direction.
   */
  lemma ResetHatSticks(kind: HatKind, shift: HalfShift, s: Int)
    requires HatN <= s <= HatW
    ensures OwnHalf(SetDiscreteWord(kind, 0xffff_ffff, shift, s), shift)
      == (if kind == DiscreteKind then 0xf else 0xffff)
  {
    match kind
    case DiscreteKind =>
      Uint32Direction(s);
      NibbleSticks(shift, Uint32(s));
    case ContinuousKind =>
      HalfSticks(shift, Uint32(DegpOfState(s)));
  }

  /** From an all-ones word, a mask-0xf store of a value below 16 leaves the half at 0xf. */
  lemma NibbleSticks(shift: HalfShift, u: bv32)
    requires Low(u) & !0xf == 0
    ensures OwnHalf(HatPut(0xffff_ffff, 0xf, shift, u), shift) == 0xf
  {
    if shift == 16 {
      HatPutHighOwn(0xffff_ffff, 0xf, u);
    } else {
      HatPutLowOwn(0xffff_ffff, 0xf, u);
    }
  }

  /** From an all-ones word, a mask-0xffff store leaves the half at 0xffff. */
  lemma HalfSticks(shift: HalfShift, u: bv32)
    ensures OwnHalf(HatPut(0xffff_ffff, 0xffff, shift, u), shift) == 0xffff
  {
    if shift == 16 {
      HatPutHighOwn(0xffff_ffff, 0xffff, u);
    } else {
      HatPutLowOwn(0xffff_ffff, 0xffff, u);
    }
  }

  /** uint32(HatOff), that is uint32(-1): every bit set. */
  lemma Uint32Off()
    ensures Uint32(-1) == 0xffff_ffff
  {
    var k := -1 % TwoTo32;
    assert k == 0xffff_ffff;
  }

  /**
   * SetDiscrete(HatOff) writes all 32 bits of uint32(-1): on a low-half hat
   * it turns the whole word to 0xffffffff, its neighbour included, and on a
   * high-half hat it leaves 0xffff0000, the neighbour cleared to 0.
   */
  lemma HatOffWord(kind: HatKind, prev: bv32, shift: HalfShift)
    ensures shift == 0 ==> SetDiscreteWord(kind, prev, shift, HatOff) == 0xffff_ffff
    ensures shift == 16 ==> SetDiscreteWord(kind, prev, shift, HatOff) == 0xffff_0000
  {
    Uint32Off();
    var m: bv32 := if kind == DiscreteKind then 0xf else 0xffff;
    assert SetDiscreteWord(kind, prev, shift, HatOff) == HatPut(prev, m, shift, 0xffff_ffff);
    OffPut(prev, m, shift);
  }

  lemma OffPut(prev: bv32, m: bv32, shift: HalfShift)
    requires m == 0xf || m == 0xffff
    ensures shift == 0 ==> HatPut(prev, m, shift, 0xffff_ffff) == 0xffff_ffff
    ensures shift == 16 ==> HatPut(prev, m, shift, 0xffff_ffff) == 0xffff_0000
  {
    if shift == 0 {
    } else if m == 0xf {
    } else {
    }
  }
}
