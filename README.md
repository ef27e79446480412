# TCS34725 autoranging driver — Dafny model

This project models the `TCS34725` driver class. The class wraps a lower-level
bus driver for the ams TCS34725 RGBC colour sensor and adds two things:

- Autoranging. The driver keeps an index into a constant table of five
  operating points, ordered from dim to bright light. Each point is a gain
  and an integration time, plus a clear-count window. After every read, the
  index moves up one row when the clear count exceeds the row's upper bound,
  and down one row when the count is below the row's lower bound. A zero
  bound means "no bound". The first row has no lower bound and the last row
  has no upper bound, and these two zeros keep the index inside the table.
- The integer part of the DN40 calculations ("Lux and CCT Calculations",
  an ams application note). This covers the saturation ceiling, the 75%
  ripple margin, the saturation flag, the IR estimate and the four
  IR-compensated channels. All of these are stored in 16-bit fields.

Layout:

- `agc.dfy` (module `Agc`): the table, the transition rule `Next`, and
  `Run`, which applies `Next` to a sequence of readings. It also holds
  lemmas about sequences of readings and the hysteresis property of the
  table.
- `dn40.dfy` (module `Dn40`): the saturation and IR formulas as functions,
  with what they mean.
- `sensor.dfy` (module `Sensor`): class `Tcs34725`. Its fields are the
  driver's fields. Its methods are `Begin`, `SetGainTime`, `Autorange` and
  `UpdateData`, each with a field-level `modifies` frame and a postcondition
  that ties the new state to the functions above.

Modelling decisions:

- Bus reads are parameters.
  - `Begin(present)` receives the answer of the device probe.
  - `Autorange` and `UpdateData` receive the first reading (`first`) and the
    reading that polled mode takes after a transition (`reread`).
- The gain and integration-time constants come from the Adafruit header,
  which is not part of this model. The model assumes these values:
  - 614 ms is ATIME `0x00` (256 steps);
  - 154 ms is ATIME `0xC0` (64 steps);
  - the gain enum is modelled as a datatype with four cases.
- `m_atime_ms = uint16((256 - atime) * 2.4)` is a product in double
  precision. The model computes it in integers as `(steps * 24) / 10`.
  - The two agree for every step count from 1 to 256.
  - The double nearest 2.4 lies below 2.4 by a relative error of about
    3.7·10^-17, which is less than 2^-54 (about 5.6·10^-17).
  - Where 2.4 × steps is an integer k, the exact product of that double and
    steps lies below k by the same relative error. The gap below k to the
    next double is at least 2^-53 × k (2.4 × steps is never a power of two),
    so rounding to nearest gives back k.
  - So the rounded product never falls below an integer it should equal.
  - On AVR targets `double` is IEEE binary32, where 2.4 rounds up to about
    2.4000001. The product then lands at or just above 12 × steps / 5, by
    less than 10^-4 for steps up to 256. When 12 × steps / 5 is not an
    integer, it is at least 0.2 below the next integer, so truncation still
    gives the floor of 2.4 × steps.
- The IR estimate follows the code at `src/tcs34725.cpp:172`, which computes
  `(r + g + b + c) >> 1`. The comment on the line above gives the DN40
  formula `(r + g + b - c) / 2`.
  - When R+G+B > C, the IR branch fires. If also R+G+B+C < 131072, the
    code's estimate is at least the clear count. Lemma
    `CompensatedClearNeverReduced` states the consequence under those two
    conditions: the compensated clear channel is either 0 or wrapped above
    the raw count.
  - When R+G+B ≤ C, ir is 0 and the compensated channels equal the raw ones.
  - When R+G+B > C and R+G+B+C ≥ 131072, the half-sum does not fit in 16 bits and ir
    wraps. Such a sample can reach the IR step: the last row has no upper
    bound, and the shipped table never reports saturation. With all four
    channels at 65535, ir is 65534 and every compensated channel is 1.
  - `IrExamples` works through both cases. It also works through r = g = b =
    100 and c = 250, which give ir = 275 and compensated channels of 65361
    and 65511.
- The constructor zero-initialises the fields that the C++ initialiser list
  leaves out. This matches a driver object of static storage duration.
  `Valid()` records that the cached ATIME fits in 8 bits.
- `Sensitivity` (gain multiplier × step count) and `Reading` model an ideal
  linear sensor. The hysteresis lemmas need this model. It is not code from
  the source.
- Observation: the shipped table uses only 614 ms and 153 ms. Both are at
  least 150 ms, so the shipped table can never report saturation
  (`ShippedTableNeverSaturates`).

## Model

| member | source | states |
|---|---|---|
| `Agc.GainMultiplier` | src/tcs34725.cpp:46-62 | the cached gain multiplier is one of 1, 4, 16, 60 |
| `Agc.GainMultiplierInjective` | src/tcs34725.cpp:46-62 | distinct gain settings give distinct multipliers |
| `Agc.StepCount` | src/tcs34725.h:75 | an 8-bit ATIME gives a step count in 1..256 that complements it to 256 |
| `Agc.AtimeMs` | src/tcs34725.cpp:44 | the cached integration time is the largest whole number of ms not above steps × 2.4, at most 614 |
| `Agc.Sensitivity` | src/tcs34725.cpp:3-4 | the relative sensitivity of an operating point is positive and bounded |
| `Agc.Next` | src/tcs34725.cpp:101-108 | the index goes up exactly when a non-zero maxcnt is exceeded, down exactly when the up test fails and the count is below a non-zero mincnt, and otherwise stays the same; with the sentinels it stays inside the table |
| `Agc.Run` | src/tcs34725.cpp:6-14 | for any sequence of clear readings, the index stays inside a table that has the zero sentinels |
| `Agc.RunMovesAtMostOnePerReading` | src/tcs34725.cpp:101-104 | after n readings the index is within n of where it started |
| `Agc.RunClimbsToBrightest` | src/tcs34725.cpp:101-102 | readings above every upper bound climb one row per reading up to the last row and then stay there |
| `Agc.RunDescendsToDimmest` | src/tcs34725.cpp:103-104 | readings below every lower bound descend one row per reading down to row 0 and then stay there |
| `Agc.TableSentinelled` | src/tcs34725.cpp:6-14 | the shipped table has zero mincnt on its first row, zero maxcnt on its last row, and non-zero bounds everywhere else |
| `Agc.TableOrderedDimToBright` | src/tcs34725.cpp:3-15 | sensitivity strictly decreases from each row to the next |
| `Agc.TableHysteresis` | src/tcs34725.cpp:3-15 | after rescaling by sensitivity, each row's upper bound is not below the next row's lower bound |
| `Agc.NoBounceAfterRise` | src/tcs34725.cpp:101-104 | under steady light, a move up from row i is not followed by a move back down |
| `Agc.NoBounceAfterFall` | src/tcs34725.cpp:101-104 | under steady light, a move down to row i is not followed by a move back up |
| `Agc.TableExtremes` | src/tcs34725.cpp:8-15 | on the shipped table, n readings of 65535 lead to row min(cur+n, 4) and n readings of 0 lead to row max(cur−n, 0) |
| `Agc.DefaultRowBrightTransition` | src/tcs34725.cpp:13-14 | from the default row 3, a count of 64000 moves to row 4, and row 4 never moves up |
| `Dn40.Wrap16` | src/tcs34725.h:59-62 | a value stored in a 16-bit field is congruent to the assigned int modulo 65536 |
| `Dn40.Ceiling` | src/tcs34725.cpp:152 | the saturation ceiling is min(65535, 1024 × steps) |
| `Dn40.RippleCeiling` | src/tcs34725.cpp:164 | below 150 ms the lowered ceiling is 75% of the ceiling, rounded up to within 3/4 of a count; otherwise it equals the ceiling |
| `Dn40.Saturated` | src/tcs34725.cpp:165 | the flag fires only below 150 ms with the clear count above the lowered ceiling; when it fires, that ceiling is below 65535 |
| `Dn40.SaturatedMonotoneInClear` | src/tcs34725.cpp:165 | at a fixed operating point, a larger clear count keeps the flag set, and the flag never fires at 150 ms or more |
| `Dn40.SaturatedAt` | src/tcs34725.cpp:152-165 | the whole flag rule for an ATIME value; it can fire only below 150 ms, which means at most 62 steps (`SaturationClosedForm` gives its closed form) |
| `Dn40.SaturationClosedForm` | src/tcs34725.cpp:152-165 | a sample is saturated iff the step count is at most 62 and the clear count exceeds 768 × steps |
| `Dn40.ShippedTableNeverSaturates` | src/tcs34725.cpp:10-14 | no operating point of the shipped table can set the saturation flag |
| `Dn40.Ir` | src/tcs34725.cpp:172 | ir is 0 when R+G+B ≤ C; otherwise ir is congruent to half of R+G+B+C modulo 65536, and without 17-bit overflow ir is at least C |
| `Dn40.Compensate` | src/tcs34725.cpp:173-176 | adding ir back to a compensated channel modulo 65536 gives the raw count; there is no wrap when raw ≥ ir |
| `Dn40.CompensateAll` | src/tcs34725.cpp:173-176 | for all four channels, the compensated value plus ir modulo 65536 gives back the raw value |
| `Dn40.CompensatedClearNeverReduced` | src/tcs34725.cpp:171-176 | when the IR branch fires and R+G+B+C < 131072 (no 17-bit overflow), the compensated clear channel is 0 or above the raw clear count |
| `Dn40.SaturationExamples` | src/tcs34725.cpp:152-164 | 64 steps give a ceiling of 65535; 10 steps give 10240, which is cut to 7680 at 100 ms and kept at 200 ms |
| `Dn40.IrExamples` | src/tcs34725.cpp:172-176 | (100,100,100,250) gives ir 275 with wrapped compensated channels; (10,10,10,100) gives ir 0; four channels at 65535 give a wrapped ir of 65534 and compensated channels of 1 |
| `Sensor.Tcs34725.constructor` | src/tcs34725.cpp:22 | starts at row 3, not available, not saturated |
| `Sensor.Tcs34725.Begin` | src/tcs34725.cpp:28-34 | returns and records the device's presence; programs and caches the current row only when the device is present |
| `Sensor.Tcs34725.SetGainTime` | src/tcs34725.cpp:40-62 | the cached ATIME, integration time and gain multiplier become those of the current row |
| `Sensor.Tcs34725.Autorange` | src/tcs34725.cpp:95-120 | the index becomes Next of the first clear reading; returns false exactly when the index moved and noDelay is set; the raw fields hold the re-read only after a polled-mode move; cached constants change only on a move |
| `Sensor.Tcs34725.UpdateData` | src/tcs34725.cpp:130-179 | after a rejection, no saturation, IR or compensated field changes; on acceptance, the saturation fields are recomputed from the cached ATIME; returns true iff accepted and not saturated; only then are ir and the compensated channels rewritten |
| `Sensor.CachedGainIdentifiesGain` | src/tcs34725.cpp:46-62 | while the cached constants are in sync, the cached multiplier `againx` equals a gain's multiplier exactly when that gain is the current row's |
| `Sensor.PolledBrightScenario` | src/tcs34725.cpp:95-120 | polled mode at row 3 with a clear count of 64000 moves to row 4, re-reads, and returns true |
| `Sensor.InterruptModeScenario` | src/tcs34725.cpp:112-114 | interrupt mode returns false on the move and true on the next in-window reading |

## Left out

- Floating-point outputs are not modelled: `m_count_per_lux`, `updateLux`
  (`lux`, `maxlux`), `updateClearChannelRatio` and `updateColorTemperature`.
  They use float arithmetic with unguarded division.
- `getRawData_noDelay` and all bus calls are not modelled:
  `Adafruit_TCS34725` construction, `tcs.begin`, `setGain`,
  `setIntegrationTime`, `read16` and `getRawData`. This is foreign code; its
  results are method parameters. Which device registers have been programmed
  is not tracked.
- `delay(m_atime_ms * 2)` is not modelled. It is timing only and changes no
  state.
- C++ access control is not modelled. `autorange` and `setGainTime` are
  private in the source; here they are ordinary methods, and the public
  entry points are still `Begin` and `UpdateData`.
- The model assumes a 32-bit `int`. On a target with a 16-bit `int`, the
  sums `r_raw + g_raw + b_raw` and `r + g + b + c` would wrap before the
  comparison and the shift. The model does not capture that.
