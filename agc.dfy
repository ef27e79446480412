/** The operating-point table of the TCS34725 autoranging driver and the rule
    that moves the current row up or down by one according to the clear count. */
module Agc {

  /** Unsigned integer widths of the driver's fields. */
  type uint8 = x: int | 0 <= x < 0x100
  type uint16 = x: int | 0 <= x < 0x1_0000

  /** The analog gain settings of the device. */
  datatype Gain = Gain1X | Gain4X | Gain16X | Gain60X

  /** ATIME register values used by the table: 0x00 integrates over 256 steps of
      2.4 ms (614 ms), 0xC0 over 64 steps (154 ms). */
  const Integration614ms: uint8 := 0x00
  const Integration154ms: uint8 := 0xC0

  /** One operating point: a gain, an integration time, and the clear-count
      window outside which the driver moves to a neighbouring row. A zero
      `mincnt` or `maxcnt` means "no bound on that side". */
  datatype AgcRow = AgcRow(again: Gain, atime: uint8, mincnt: uint16, maxcnt: uint16)

  /** The shipped table, ordered from dim light (most sensitive) to bright light. */
  const Table: seq<AgcRow> := [
    AgcRow(Gain60X, Integration614ms,     0, 20000),
    AgcRow(Gain60X, Integration154ms,  4990, 63000),
    AgcRow(Gain16X, Integration154ms, 16790, 63000),
    AgcRow(Gain4X,  Integration154ms, 15740, 63000),
    AgcRow(Gain1X,  Integration154ms, 15740,     0)
  ]

  /** Row selected by a freshly constructed driver (gain 4x, 154 ms). */
  const DefaultIndex: nat := 3

  /** Multiplier of a gain setting. */
  function GainMultiplier(g: Gain): (x: nat)
    ensures x in {1, 4, 16, 60}
  {
    match g
    case Gain1X => 1
    case Gain4X => 4
    case Gain16X => 16
    case Gain60X => 60
  }

  /** Distinct gain settings have distinct multipliers. */
  lemma GainMultiplierInjective(g1: Gain, g2: Gain)
    ensures GainMultiplier(g1) == GainMultiplier(g2) ==> g1 == g2
  {
  }

  /** Number of 2.4 ms integration steps selected by an ATIME value. */
  function StepCount(atime: uint8): (n: int)
    ensures 1 <= n <= 256
    ensures atime + n == 256
  {
    256 - atime
  }

  /** Integration time in whole milliseconds: steps x 2.4, truncated. */
  function AtimeMs(atime: uint8): (ms: uint16)
    ensures 10 * ms <= 24 * StepCount(atime) < 10 * ms + 10
    ensures ms <= 614
  {
    (StepCount(atime) * 24) / 10
  }

  /** Relative sensitivity of an operating point: counts grow with gain and integration steps. */
  function Sensitivity(row: AgcRow): (s: nat)
    ensures 1 <= s <= 60 * 256
  {
    GainMultiplier(row.again) * StepCount(row.atime)
  }

  /** The clear count is above the row's (non-zero) upper bound. */
  predicate Rises(row: AgcRow, c: uint16)
  {
    row.maxcnt != 0 && c > row.maxcnt
  }

  /** The clear count is below the row's (non-zero) lower bound. */
  predicate Falls(row: AgcRow, c: uint16)
  {
    row.mincnt != 0 && c < row.mincnt
  }

  /** The zero sentinels: no lower bound on the first row, no upper bound on the last. */
  predicate Sentinelled(table: seq<AgcRow>)
  {
    |table| > 0 && table[0].mincnt == 0 && table[|table| - 1].maxcnt == 0
  }

  /** The row index after one autoranging decision on clear count `c`. The upper
      bound is tested first; the index moves by at most one, and the sentinels
      keep it inside the table. */
  function Next(table: seq<AgcRow>, cur: nat, c: uint16): (r: int)
    requires cur < |table|
    ensures r == cur + 1 <==> Rises(table[cur], c)
    ensures r == cur - 1 <==> !Rises(table[cur], c) && Falls(table[cur], c)
    ensures r == cur <==> !Rises(table[cur], c) && !Falls(table[cur], c)
    ensures Sentinelled(table) ==> 0 <= r < |table|
  {
    var row := table[cur];
    if row.maxcnt != 0 && c > row.maxcnt then cur + 1
    else if row.mincnt != 0 && c < row.mincnt then cur - 1
    else cur
  }

  /** The row index after a sequence of autoranging decisions, one per clear count. */
  function Run(table: seq<AgcRow>, cur: nat, cs: seq<uint16>): (r: nat)
    requires Sentinelled(table) && cur < |table|
    ensures r < |table|
    decreases |cs|
  {
    if cs == [] then cur else Run(table, Next(table, cur, cs[0]), cs[1..])
  }

  /** Over any sequence of readings the index moves by at most one per reading. */
  lemma {:induction false} RunMovesAtMostOnePerReading(table: seq<AgcRow>, cur: nat, cs: seq<uint16>)
    requires Sentinelled(table) && cur < |table|
    ensures cur - |cs| <= Run(table, cur, cs) <= cur + |cs|
    decreases |cs|
  {
    if cs != [] {
      RunMovesAtMostOnePerReading(table, Next(table, cur, cs[0]), cs[1..]);
    }
  }

  /** Every row but the last has an upper bound, and every reading exceeds all of
      them without falling below any lower bound. */
  predicate AllBright(table: seq<AgcRow>, cs: seq<uint16>)
  {
    (forall i :: 0 <= i < |table| - 1 ==> table[i].maxcnt != 0) &&
    (forall k, i :: 0 <= k < |cs| && 0 <= i < |table| ==> cs[k] > table[i].maxcnt) &&
    (forall k, i :: 0 <= k < |cs| && 0 <= i < |table| ==> cs[k] >= table[i].mincnt)
  }

  /** Every row but the first has a lower bound, and every reading is below all of
      them while staying within every upper bound. */
  predicate AllDark(table: seq<AgcRow>, cs: seq<uint16>)
  {
    (forall i :: 0 < i < |table| ==> table[i].mincnt != 0) &&
    (forall k, i :: 0 <= k < |cs| && 0 <= i < |table| ==> cs[k] < table[i].mincnt || i == 0) &&
    (forall k, i :: 0 <= k < |cs| && 0 <= i < |table| ==> cs[k] <= table[i].maxcnt || table[i].maxcnt == 0)
  }

  function Min(a: int, b: int): (m: int) { if a <= b then a else b }
  function Max(a: int, b: int): (m: int) { if a >= b then a else b }

  /** Readings that are too bright everywhere climb one row per reading until the
      last row, then stay there. */
  lemma {:induction false} RunClimbsToBrightest(table: seq<AgcRow>, cur: nat, cs: seq<uint16>)
    requires Sentinelled(table) && cur < |table|
    requires AllBright(table, cs)
    ensures Run(table, cur, cs) == Min(cur + |cs|, |table| - 1)
    decreases |cs|
  {
    if cs != [] {
      assert cs[0] > table[cur].maxcnt;
      var next := Next(table, cur, cs[0]);
      assert next == Min(cur + 1, |table| - 1);
      assert AllBright(table, cs[1..]) by {
        forall k, i | 0 <= k < |cs| - 1 && 0 <= i < |table|
          ensures cs[1..][k] > table[i].maxcnt
          ensures cs[1..][k] >= table[i].mincnt
        {
          assert cs[1..][k] == cs[k + 1];
        }
      }
      RunClimbsToBrightest(table, next, cs[1..]);
    }
  }

  /** Readings that are too dark everywhere descend one row per reading until the
      first row, then stay there. */
  lemma {:induction false} RunDescendsToDimmest(table: seq<AgcRow>, cur: nat, cs: seq<uint16>)
    requires Sentinelled(table) && cur < |table|
    requires AllDark(table, cs)
    ensures Run(table, cur, cs) == Max(cur - |cs|, 0)
    decreases |cs|
  {
    if cs != [] {
      assert !Rises(table[cur], cs[0]);
      var next := Next(table, cur, cs[0]);
      assert next == Max(cur - 1, 0);
      assert AllDark(table, cs[1..]) by {
        forall k, i | 0 <= k < |cs| - 1 && 0 <= i < |table|
          ensures cs[1..][k] < table[i].mincnt || i == 0
          ensures cs[1..][k] <= table[i].maxcnt || table[i].maxcnt == 0
        {
          assert cs[1..][k] == cs[k + 1];
        }
      }
      RunDescendsToDimmest(table, next, cs[1..]);
    }
  }

  /** The shipped table carries both sentinels, and only those: every inner bound is set. */
  lemma TableSentinelled()
    ensures Sentinelled(Table)
    ensures forall i :: 0 <= i < |Table| - 1 ==> Table[i].maxcnt != 0
    ensures forall i :: 0 < i < |Table| ==> Table[i].mincnt != 0
  {
  }

  /** The shipped table is ordered from the most to the least sensitive operating point. */
  lemma TableOrderedDimToBright()
    ensures forall i :: 0 <= i < |Table| - 1 ==> Sensitivity(Table[i]) > Sensitivity(Table[i + 1])
  {
  }

  /** The windows of neighbouring rows overlap once rescaled by their sensitivities:
      a reading just above row i's upper bound is, at row i+1, not below row i+1's
      lower bound. */
  predicate Hysteresis(table: seq<AgcRow>)
  {
    forall i :: 0 <= i < |table| - 1 ==>
      table[i + 1].mincnt * Sensitivity(table[i]) <= table[i].maxcnt * Sensitivity(table[i + 1])
  }

  lemma TableHysteresis()
    ensures Hysteresis(Table)
  {
  }

  /** Clear count an ideal linear sensor reports at a row for a steady light
      level, clipped at the 16-bit counter's maximum. */
  function Reading(row: AgcRow, light: nat): (c: uint16)
    ensures c <= light * Sensitivity(row)
    ensures c < 0xFFFF ==> c == light * Sensitivity(row)
  {
    if light * Sensitivity(row) < 0xFFFF then light * Sensitivity(row) else 0xFFFF
  }

  /** The arithmetic behind both no-bounce lemmas: a light level cannot be above
      the upper bound of one row and below the lower bound of the next when the
      two bounds satisfy the hysteresis inequality. */
  lemma {:induction false} WindowsOverlap(light: nat, si: nat, sj: nat, maxi: int, minj: int)
    requires si > 0 && sj > 0
    requires minj * si <= maxi * sj
    ensures !(light * si > maxi && light * sj < minj)
  {
    if light * si > maxi && light * sj < minj {
      assert (light * sj) * si < minj * si by {
        MulStrict(light * sj, minj, si);
      }
      assert maxi * sj < (light * si) * sj by {
        MulStrict(maxi, light * si, sj);
      }
      assert false;
    }
  }

  lemma MulStrict(a: int, b: int, k: int)
    requires a < b && k > 0
    ensures a * k < b * k
  {
  }

  /** Under steady light, after the driver moves up from row i it does not move
      straight back down. */
  lemma NoBounceAfterRise(table: seq<AgcRow>, i: nat, light: nat)
    requires Sentinelled(table) && Hysteresis(table) && i < |table|
    requires Next(table, i, Reading(table[i], light)) == i + 1
    ensures i + 1 < |table|
    ensures Next(table, i + 1, Reading(table[i + 1], light)) != i
  {
    var lo, hi := table[i], table[i + 1];
    var si, sj := Sensitivity(lo), Sensitivity(hi);
    var ci, cj := Reading(lo, light), Reading(hi, light);
    assert ci <= light * si;
    assert light * si > lo.maxcnt;
    if Next(table, i + 1, cj) == i {
      assert cj < hi.mincnt;
      assert light * sj < hi.mincnt;
      WindowsOverlap(light, si, sj, lo.maxcnt, hi.mincnt);
    }
  }

  /** Under steady light, after the driver moves down from row i+1 it does not
      move straight back up. */
  lemma NoBounceAfterFall(table: seq<AgcRow>, i: nat, light: nat)
    requires Sentinelled(table) && Hysteresis(table) && i + 1 < |table|
    requires Next(table, i + 1, Reading(table[i + 1], light)) == i
    ensures Next(table, i, Reading(table[i], light)) != i + 1
  {
    var lo, hi := table[i], table[i + 1];
    var si, sj := Sensitivity(lo), Sensitivity(hi);
    var ci, cj := Reading(lo, light), Reading(hi, light);
    assert cj < hi.mincnt;
    assert light * sj < hi.mincnt;
    if Next(table, i, ci) == i + 1 {
      assert light * si > lo.maxcnt;
      WindowsOverlap(light, si, sj, lo.maxcnt, hi.mincnt);
    }
  }

  /** The shipped table driven by readings above 63000 reaches the last row in at
      most four steps; driven by zero readings it reaches the first row. */
  lemma TableExtremes(cur: nat, n: nat)
    requires cur < |Table|
    ensures Run(Table, cur, seq(n, _ => 0xFFFF)) == Min(cur + n, |Table| - 1)
    ensures Run(Table, cur, seq(n, _ => 0)) == Max(cur - n, 0)
  {
    TableSentinelled();
    RunClimbsToBrightest(Table, cur, seq(n, _ => 0xFFFF));
    RunDescendsToDimmest(Table, cur, seq(n, _ => 0));
  }

  /** From the default row, a clear count of 64000 (above its 63000 bound) moves
      to the last row, which then never moves further up. */
  lemma DefaultRowBrightTransition(c: uint16)
    ensures Next(Table, DefaultIndex, 64000) == DefaultIndex + 1 == |Table| - 1
    ensures !Rises(Table[|Table| - 1], c)
  {
  }
}
