/** The sawtooth period that main builds before bringing up the clocks:
    a table of 480 signed 32-bit samples rising by a constant step. */
module Sawtooth {

  const I32_MIN: int := -0x8000_0000
  const I32_MAX: int := 0x7fff_ffff
  const U32_MAX: int := 0xffff_ffff

  /** Rust's i32. Every intermediate value of the fill is given this type,
      so each of them is checked to stay inside the range. */
  type i32 = x: int | I32_MIN <= x <= I32_MAX

  /** Number of samples in one period: the length of the table. */
  const PERIOD: nat := 480

  /** i32::MIN / 2. Rust's division truncates toward zero; for a negative
      dividend that is the negated quotient of the magnitudes. */
  const HALF_MIN: i32 := -((-I32_MIN) / 2)

  /** (u32::MAX / 480 / 2) as i32: two unsigned divisions, then a cast. */
  const STEP: i32 := U32_MAX / PERIOD / 2

  /** The value main stores at position i of the table. The ramp starts at
      i32::MIN / 2 and stays below i32::MAX / 2: it covers the middle half of
      the i32 range, not the whole of it. */
  function SampleAt(i: nat): (v: i32)
    requires i < PERIOD
    ensures HALF_MIN <= v < I32_MAX / 2
    ensures i == 0 <==> v == HALF_MIN
  {
    HALF_MIN + i * STEP
  }

  /** Builds the table as main does: a zero-filled array of 480 entries,
      then one pass that writes entry i from its index. */
  method BuildSawtooth() returns (data: array<i32>)
    ensures fresh(data) && data.Length == PERIOD
    ensures forall i :: 0 <= i < PERIOD ==> data[i] == SampleAt(i)
  {
    data := new i32[PERIOD](_ => 0);
    for i := 0 to PERIOD
      invariant forall k :: 0 <= k < i ==> data[k] == SampleAt(k)
    {
      // in main, `i as i32 * step` is itself an i32: it must not overflow
      var product: i32 := i * STEP;
      data[i] := HALF_MIN + product;
    }
  }

  /** Neighbouring samples differ by exactly one step. */
  lemma ConstantStep(i: nat)
    requires i + 1 < PERIOD
    ensures SampleAt(i + 1) - SampleAt(i) == STEP
  {
  }

  /** The step in closed form, and the distance between any two samples. */
  lemma Distance(i: nat, j: nat)
    requires i <= j < PERIOD
    ensures STEP == 4473924
    ensures SampleAt(j) - SampleAt(i) == (j - i) * STEP
  {
  }

  /** The table is strictly increasing. */
  lemma StrictlyIncreasing(i: nat, j: nat)
    requires i < j < PERIOD
    ensures SampleAt(i) < SampleAt(j)
  {
  }

  /** The last sample, and the room left above it: one more step still fits
      in i32, so the ramp never reaches the wrap-around point. */
  lemma LastSample()
    ensures SampleAt(PERIOD - 1) == 1069267772
    ensures SampleAt(PERIOD - 1) + STEP <= I32_MAX
  {
  }
}
