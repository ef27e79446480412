/** The integer part of the DN40 measurement pipeline: saturation ceilings, the
    ripple margin, the IR estimate and the IR-compensated channels, all stored in
    16-bit fields. */
module Dn40 {
  import opened Agc

  /** One raw or compensated reading of the four channels. */
  datatype Rgbc = Rgbc(r: uint16, g: uint16, b: uint16, c: uint16)

  /** Largest value of the 16-bit channel counters (digital saturation). */
  const DigitalCeiling: uint16 := 0xFFFF
  /** Counts the analog front end accumulates per 2.4 ms step (analog saturation). */
  const CountsPerStep := 1024
  /** Integration times below this many milliseconds get the 75% ripple margin. */
  const RippleLimitMs := 150

  /** Conversion of an int into a 16-bit field: the representative modulo 2^16. */
  function Wrap16(x: int): (w: uint16)
    ensures (x - w) % 0x1_0000 == 0
  {
    x % 0x1_0000
  }

  /** Saturation ceiling for an integration of `steps` steps: the smaller of the
      analog limit (1024 per step) and the digital limit (65535). */
  function Ceiling(steps: int): (s: uint16)
    requires 1 <= steps <= 256
    ensures s == Min(DigitalCeiling, CountsPerStep * steps)
  {
    if steps > 63 then DigitalCeiling else CountsPerStep * steps
  }

  /** Ceiling lowered by a quarter (rounded down) for short integration times. */
  function RippleCeiling(sat: uint16, atimeMs: int): (s: uint16)
    ensures s <= sat
    ensures atimeMs < RippleLimitMs ==> 3 * sat <= 4 * s <= 3 * sat + 3
    ensures atimeMs >= RippleLimitMs ==> s == sat
  {
    if atimeMs < RippleLimitMs then sat - sat / 4 else sat
  }

  /** A sample is saturated only for short integration times, when its clear
      count exceeds the lowered ceiling. */
  predicate Saturated(c: uint16, sat75: uint16, atimeMs: int)
    ensures Saturated(c, sat75, atimeMs) ==> sat75 < DigitalCeiling
  {
    atimeMs < RippleLimitMs && c > sat75
  }

  /** A brighter clear count never clears the flag: at a fixed operating point
      the flag is monotone in the clear count, and it never fires at 150 ms or more. */
  lemma {:induction false} SaturatedMonotoneInClear(c1: uint16, c2: uint16, sat75: uint16, atimeMs: int)
    requires c1 <= c2
    ensures Saturated(c1, sat75, atimeMs) ==> Saturated(c2, sat75, atimeMs)
    ensures atimeMs >= RippleLimitMs ==> !Saturated(c2, sat75, atimeMs)
  {
  }

  /** The whole saturation rule for an ATIME register value. */
  predicate SaturatedAt(atime: uint8, c: uint16)
    ensures SaturatedAt(atime, c) ==> AtimeMs(atime) < RippleLimitMs && StepCount(atime) <= 62
  {
    var ms := AtimeMs(atime);
    Saturated(c, RippleCeiling(Ceiling(StepCount(atime)), ms), ms)
  }

  /** Saturation can only be reported for 62 steps or fewer (148 ms), where the
      ceiling is analog and its 75% is exactly 768 counts per step. */
  lemma SaturationClosedForm(atime: uint8, c: uint16)
    ensures SaturatedAt(atime, c) <==> StepCount(atime) <= 62 && c > 768 * StepCount(atime)
  {
    var n := StepCount(atime);
    var ms := AtimeMs(atime);
    if n <= 62 {
      assert ms < RippleLimitMs;
      assert Ceiling(n) == 1024 * n;
      assert RippleCeiling(Ceiling(n), ms) == 768 * n;
    } else {
      assert ms >= RippleLimitMs;
    }
  }

  /** None of the shipped operating points (614 ms and 153 ms) can report saturation. */
  lemma ShippedTableNeverSaturates(i: nat, c: uint16)
    requires i < |Table|
    ensures !SaturatedAt(Table[i].atime, c)
  {
    SaturationClosedForm(Table[i].atime, c);
  }

  /** IR estimate as the code computes it: half the sum of all four channels when
      R+G+B exceeds C, else zero, stored in 16 bits. */
  function Ir(raw: Rgbc): (ir: uint16)
    ensures raw.r + raw.g + raw.b <= raw.c ==> ir == 0
    ensures raw.r + raw.g + raw.b > raw.c ==>
              (ir - (raw.r + raw.g + raw.b + raw.c) / 2) % 0x1_0000 == 0
    ensures raw.r + raw.g + raw.b > raw.c && raw.r + raw.g + raw.b + raw.c < 0x2_0000 ==>
              ir >= raw.c && 2 * ir <= raw.r + raw.g + raw.b + raw.c <= 2 * ir + 1
  {
    if raw.r + raw.g + raw.b > raw.c then Wrap16((raw.r + raw.g + raw.b + raw.c) / 2) else 0
  }

  /** A channel with the IR estimate removed, stored in 16 bits: adding the
      estimate back recovers the raw count, and there is no wrap when the raw
      count is at least the estimate. */
  function Compensate(x: uint16, ir: uint16): (y: uint16)
    ensures (y + ir) % 0x1_0000 == x
    ensures ir <= x ==> y == x - ir
  {
    Wrap16(x - ir)
  }

  /** All four channels with the IR estimate removed. */
  function CompensateAll(raw: Rgbc, ir: uint16): (comp: Rgbc)
    ensures (comp.r + ir) % 0x1_0000 == raw.r && (comp.g + ir) % 0x1_0000 == raw.g
    ensures (comp.b + ir) % 0x1_0000 == raw.b && (comp.c + ir) % 0x1_0000 == raw.c
  {
    Rgbc(Compensate(raw.r, ir), Compensate(raw.g, ir), Compensate(raw.b, ir), Compensate(raw.c, ir))
  }

  /** Because the code adds C instead of subtracting it, whenever the IR branch
      fires (without 17-bit overflow) the compensated clear channel is either 0 or
      wrapped above the raw clear count; it is never a proper reduction. */
  lemma CompensatedClearNeverReduced(raw: Rgbc)
    requires raw.r + raw.g + raw.b > raw.c
    requires raw.r + raw.g + raw.b + raw.c < 0x2_0000
    ensures var cc := CompensateAll(raw, Ir(raw)).c; cc == 0 || cc > raw.c
  {
    var ir := Ir(raw);
    var cc := Compensate(raw.c, ir);
    if ir > raw.c {
      assert cc == raw.c - ir + 0x1_0000;
    }
  }

  /** Worked values: a 64-step integration saturates digitally at 65535, a
      10-step one analogically at 10240; at 100 ms the margin keeps 75% of it,
      at 200 ms none is taken. */
  lemma SaturationExamples()
    ensures Ceiling(64) == 65535 && Ceiling(10) == 10240
    ensures RippleCeiling(10240, 100) == 7680 && RippleCeiling(10240, 200) == 10240
  {
  }

  /** Worked values of the IR estimate and the compensated channels they yield.
      With all four channels at 65535 the half-sum 131070 wraps to 65534, below
      the clear count, so every compensated channel is 1. */
  lemma IrExamples()
    ensures Ir(Rgbc(100, 100, 100, 250)) == 275
    ensures Ir(Rgbc(10, 10, 10, 100)) == 0
    ensures Ir(Rgbc(65535, 65535, 65535, 65535)) == 65534
    ensures CompensateAll(Rgbc(65535, 65535, 65535, 65535), 65534) == Rgbc(1, 1, 1, 1)
    ensures CompensateAll(Rgbc(100, 100, 100, 250), 275) == Rgbc(65361, 65361, 65361, 65511)
  {
  }
}
