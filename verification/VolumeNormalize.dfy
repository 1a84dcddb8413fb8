/**
  Rounding a volume to the stepping of the slider, with the division of C and in 32-bit signed arithmetic.
*/
module VolumeNormalize {

  const LONG_MAX: int := 0x7FFF_FFFF
  const LONG_MIN: int := -0x8000_0000

  predicate Fits32(v: int) {
    LONG_MIN <= v <= LONG_MAX
  }

  /** The division of C truncates toward zero. */
  function Quotient(a: int, b: int): int
    requires b > 0
  {
    if a >= 0 then a / b else -(-a / b)
  }

  /** An expression's value, unless one of its steps overflows. */
  datatype Result = Value(v: int) | Overflow

  function Checked(v: int): Result {
    if Fits32(v) then Value(v) else Overflow
  }

  /** VALUE_NORMALIZE_P: add half a step, divide, multiply. */
  function NormalizePositive(v: int, step: int): Result
    requires step > 0
  {
    var sum := v + Quotient(step, 2);
    if !Fits32(sum) then Overflow else Checked(Quotient(sum, step) * step)
  }

  /** VALUE_NORMALIZE: negative values are rounded by their absolute value. */
  function Normalize(v: int, step: int): Result
    requires step > 0
  {
    if v > 0 then NormalizePositive(v, step)
    else if !Fits32(-v) then Overflow
    else
      match NormalizePositive(-v, step)
      case Overflow => Overflow
      case Value(p) => Checked(-p)
  }

  function NormalizeInRange(v: int, min: int, max: int, step: int): Result
    requires step > 0
  {
    if v > max then Value(max) else if v < min then Value(min) else Normalize(v, step)
  }

  // ---------- volumes ----------

  const VOLUME_STEP: int := 0x8000
  const VOLUME_MAX: int := 0
  const VOLUME_MIN: int := -96 * 0x10000

  function Volume(v: int): Result {
    NormalizeInRange(v, VOLUME_MIN, VOLUME_MAX, VOLUME_STEP)
  }

  predicate OnScale(v: int) {
    VOLUME_MIN <= v <= VOLUME_MAX && v % VOLUME_STEP == 0
  }

  function Distance(a: int, b: int): nat {
    if a < b then b - a else a - b
  }

  /**
    No 32-bit volume overflows. Each lands on the scale, which has a point for every 0x8000 from -96 * 0x10000 to 0,
    and as near as any point of it: within half a step if it is in range.
  */
  lemma {:induction false} VolumeIsNearest(v: int, w: int)
    requires -0x8000_0000 <= v <= 0x7FFF_FFFF && -96 * 0x10000 <= w <= 0 && w % 0x8000 == 0
    ensures Volume(v).Value? && -96 * 0x10000 <= Volume(v).v <= 0 && Volume(v).v % 0x8000 == 0
    ensures -96 * 0x10000 <= v <= 0 ==> Distance(Volume(v).v, v) <= 0x4000
    ensures Distance(Volume(v).v, v) <= Distance(w, v)
  {
    if VOLUME_MIN <= v <= VOLUME_MAX {
      var k := (-v + VOLUME_STEP / 2) / VOLUME_STEP;
      assert Volume(v) == Value(-(k * VOLUME_STEP));
      assert w == w / VOLUME_STEP * VOLUME_STEP;
      assert -k < w / VOLUME_STEP || -k == w / VOLUME_STEP || w / VOLUME_STEP < -k;
    }
  }

  /** Of two points equally near, the one farther from zero is taken. */
  lemma {:induction false} TiesGoDown(v: int)
    requires -96 * 0x10000 <= v <= 0 && -v % 0x8000 == 0x4000
    ensures Volume(v) == Value(v - 0x4000)
  {
    var q := -v / VOLUME_STEP;
    assert -v + VOLUME_STEP / 2 == (q + 1) * VOLUME_STEP;
  }

  lemma {:induction false} VolumeIsMonotone(v: int, w: int)
    requires -0x8000_0000 <= v <= w <= 0x7FFF_FFFF
    ensures Volume(v).Value? && Volume(w).Value? && Volume(v).v <= Volume(w).v
  {
    VolumeIsNearest(v, VOLUME_MIN);
    VolumeIsNearest(w, VOLUME_MAX);
  }

  /** Exactly the points of the scale stay where they are, so rounding again changes nothing. */
  lemma {:induction false} ScaleIsFixed(v: int)
    requires -0x8000_0000 <= v <= 0x7FFF_FFFF
    ensures Volume(v) == Value(v) <==> -96 * 0x10000 <= v <= 0 && v % 0x8000 == 0
    ensures Volume(v).Value? && Volume(Volume(v).v) == Volume(v)
  {
    VolumeIsNearest(v, VOLUME_MIN);
    if OnScale(v) {
      VolumeIsNearest(v, v);
    }
    VolumeIsNearest(Volume(v).v, Volume(v).v);
  }

  // ---------- peak meters ----------

  const PEAKMETER_STEP: int := 0x1000

  function PeakMeter(v: int): Result {
    NormalizeInRange(v, LONG_MIN, LONG_MAX, PEAKMETER_STEP)
  }

  /** Both ends of the range do. */
  lemma {:induction false} PeakMeterCanOverflow()
    ensures PeakMeter(0x7FFF_FFFF) == Overflow && PeakMeter(-0x8000_0000) == Overflow
  {
    PeakMeterOverflowsIff(LONG_MAX);
    PeakMeterOverflowsIff(LONG_MIN);
  }

  /** A peak meter reading overflows exactly within half a step of either end of the 32-bit range. */
  lemma {:induction false} PeakMeterOverflowsIff(v: int)
    requires -0x8000_0000 <= v <= 0x7FFF_FFFF
    ensures PeakMeter(v) == Overflow <==> v > 0x7FFF_FFFF - 0x800 || v < -0x7FFF_FFFF + 0x800
  {
    var a := if v > 0 then v else -v;
    var q := (a + PEAKMETER_STEP / 2) / PEAKMETER_STEP;
    assert q * PEAKMETER_STEP <= a + PEAKMETER_STEP / 2;
  }

  /** One that does not is rounded to a multiple of 0x1000, within half a step. */
  lemma {:induction false} PeakMeterIsNear(v: int)
    requires -0x8000_0000 <= v <= 0x7FFF_FFFF && PeakMeter(v).Value?
    ensures PeakMeter(v).v % 0x1000 == 0 && Distance(PeakMeter(v).v, v) <= 0x800
  {
    var a := if v > 0 then v else -v;
    var q := (a + PEAKMETER_STEP / 2) / PEAKMETER_STEP;
    assert PeakMeter(v) == Value(if v > 0 then q * PEAKMETER_STEP else -(q * PEAKMETER_STEP));
  }
}
