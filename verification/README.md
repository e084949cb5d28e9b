# Ninh Thuan release simulation — Dafny model

`NinhThuanSimulation.run_simulation` is a Monte Carlo estimate of the dose rate that an
accidental Cs-137 release from the planned Ninh Thuan nuclear plant would cause at a
set of downwind distances, over a number of days. Each trial does the following:

- It draws weather and core conditions, then clips the wind speed to [3, 15] m/s and
  the rainfall to [0, 10] mm/day. It wraps the wind direction into [0, 360).
- It scales the baseline emission rate by temperature, pressure and core-damage
  factors. It guards the wind speed against zero.
- For every day and distance it evaluates a Gaussian-plume centreline concentration.
  It reduces the source after day 3, applies radioactive decay and rain scavenging, and
  converts the result to a dose rate.
- It emits one record per trial, day and distance: trial outermost, distance innermost.

The model is split into four modules:

- `Numerics` holds Python's `max`, numpy's `clip` (a `minimum` of a `maximum`) and the
  array modulo `np.remainder` behind `(x + 360) % 360`. The modulo is written as `x - 360 * floor(x / 360)`.
- `Sampler` covers what the code does with the random draws before the trial loop. The
  draws themselves are the input `Draws`.
- `Transport` holds the per-trial source strength, the zero-wind guard, the per-day
  source reduction, radioactive decay, rain scavenging, the plume formula and the
  dose. `exp`, `log`, `pi` and `y ** -0.5` are a `Transcendentals` value. Of those
  functions the model assumes only positivity, plus monotonicity of `exp` where that
  is stated.
- `Assembly` covers the three nested loops and the record each pass produces. The loops
  are modelled as the sequence of `Visit`s they make (trial, day, distance position).
  Each visit is then evaluated to an `Observation`.
  - `Run` is the run with one wind direction per trial.
  - `RunAsWritten` keeps the direction array the code builds.
  - `Simulate` is the same computation written as loops.

The simulation is meant to emit one row per trial, day and distance for every
positive sample count, day count and non-empty distance list, and to reject an empty
configuration up front. The code falls short of both, and the model follows the code:

- For an odd sample count the code raises `IndexError` instead of producing
  `num_samples * time_steps * len(distances)` rows (see Findings). The corrected `Run`
  restores the row count.
- A zero sample count, zero days or an empty distance list is not rejected up front.
  The record list stays empty, and the summary at line 68 then raises `KeyError` (see
  "Left out").

## Model

| member | source | states |
|---|---|---|
| Numerics.Max | NinhThuan2_simulation.py:43 | Python `max` of two values is one of them and no smaller than either |
| Numerics.Min | NinhThuan2_simulation.py:19 | the `minimum` inside numpy's clip is one of its arguments and no larger than either |
| Numerics.Clip | NinhThuan2_simulation.py:19 | the clipped value lies in `[lo, hi]`; it equals the input exactly when the input is in range; an input below `lo` becomes `lo`, one above `hi` becomes `hi` |
| Numerics.ClipMonotone | NinhThuan2_simulation.py:26 | clipping preserves order: a larger input never clips to a smaller value |
| Numerics.Mod360 | NinhThuan2_simulation.py:24 | numpy's `% 360` on the direction array gives a value in `[0, 360)` that differs from its argument by a whole number of turns |
| Numerics.Mod360Shift | NinhThuan2_simulation.py:24 | adding whole turns to the argument does not change the remainder |
| Numerics.Mod360Identity | NinhThuan2_simulation.py:24 | an argument already in `[0, 360)` is its own remainder |
| Numerics.WrapDegrees | NinhThuan2_simulation.py:24 | `(d + 360) % 360` lies in `[0, 360)` and names the same direction as `d` (a whole number of turns away) |
| Numerics.WrapDegreesClosedForm | NinhThuan2_simulation.py:24 | the wrap equals `d - 360 * floor(d / 360)`, so the `+ 360` changes nothing |
| Numerics.WrapDegreesIdentity | NinhThuan2_simulation.py:24 | a direction already in `[0, 360)` is left unchanged |
| Numerics.WrapDegreesIdempotent | NinhThuan2_simulation.py:24 | wrapping twice is wrapping once |
| Numerics.WrapDegreesPeriodic | NinhThuan2_simulation.py:24 | directions a whole number of turns apart wrap to the same value |
| Sampler.DrawnShapesAgreeWhenEven | NinhThuan2_simulation.py:20-22 | for an even sample count, `n // 2` draws per lobe is exactly one direction per trial |
| Sampler.ClipWindSpeed | NinhThuan2_simulation.py:18-19 | every clipped wind speed lies in `[3, 15]`, and it equals the draw exactly when the draw was already in range |
| Sampler.ClipRainfall | NinhThuan2_simulation.py:25-26 | every clipped rainfall lies in `[0, 10]`, and it equals the draw exactly when the draw was already in range |
| Sampler.Direction | NinhThuan2_simulation.py:21-24 | a von Mises draw converted to degrees and wrapped lies in `[0, 360)`, a whole number of turns from the unwrapped value |
| Sampler.WindDirections | NinhThuan2_simulation.py:20-24 | the direction array is the first lobe's converted draws followed by the second's, one entry per draw, all in `[0, 360)` |
| Sampler.Prepare | NinhThuan2_simulation.py:17-29 | the arrays the trial loop reads: the clipped speeds and rainfall (each in range, entry by entry from the draws), the wrapped directions, and the other draws unchanged |
| Sampler.WindDirectionCount | NinhThuan2_simulation.py:20-24 | with `n // 2` draws per lobe the direction array has `2 * (n // 2)` entries, which is `n` exactly when `n` is even and `n - 1` when it is odd; with the intended split it has `n` |
| Transport.DecayConstant | NinhThuan2_simulation.py:13 | the Cs-137 decay constant is positive, and multiplied by the half-life of `30.17 * 365` days it gives `ln 2` |
| Transport.TempFactor | NinhThuan2_simulation.py:33 | the temperature factor is the ratio of the sampled temperature to 2800 °C, and is 1 exactly at 2800 °C |
| Transport.PressureFactor | NinhThuan2_simulation.py:34 | the pressure factor is the ratio of the sampled pressure to 0.84 MPa, and is 1 exactly at 0.84 MPa |
| Transport.DamageFactor | NinhThuan2_simulation.py:35 | the damage factor is 1 exactly at 70 % damage and is positive exactly for positive damage |
| Transport.SourceStrength | NinhThuan2_simulation.py:33-36 | `Q_i_base` is `Q_base` times the product of the three condition ratios; it equals `Q_base` at nominal conditions and is positive when all three conditions are |
| Transport.EffectiveWind | NinhThuan2_simulation.py:37-39 | the speed used is never zero, equals the sampled speed whenever that is non-zero, and is positive for non-negative samples |
| Transport.SourceDecay | NinhThuan2_simulation.py:42-43 | the source reduction lies in `[0.2, 1]`, is exactly 1 through day 3, is exactly 0.2 from day 7 on, and falls by 0.2 per day in between |
| Transport.SourceDecayNonIncreasing | NinhThuan2_simulation.py:43 | the source reduction never increases from one day to a later one |
| Transport.RadioactiveDecay | NinhThuan2_simulation.py:49 | the surviving fraction of activity on day `t` is positive and is `exp(-decay_constant * t)` |
| Transport.RadioactiveDecayNonIncreasing | NinhThuan2_simulation.py:49 | for a monotone `exp`, a later day keeps no more activity than an earlier one |
| Transport.RainMultiplier | NinhThuan2_simulation.py:50-51 | the scavenging multiplier lies in `[0.5, 1]`; it equals the unclipped factor exactly for rainfall in `[0, 44.5]`; it is 1 for no rain and 0.5 from 44.5 mm on |
| Transport.RainMultiplierNonIncreasing | NinhThuan2_simulation.py:50-51 | more rain never lets more activity through |
| Transport.RainMultiplierOnClippedRainfall | NinhThuan2_simulation.py:50-51 | for rainfall already clipped to `[0, 10]` the clip to `[0.5, 1]` never acts, and the multiplier lies in `[1 - 0.5 / 4.45, 1]` |
| Transport.SigmaY | NinhThuan2_simulation.py:46 | the horizontal plume spread is positive at every positive downwind distance |
| Transport.SigmaZ | NinhThuan2_simulation.py:47 | the vertical plume spread is positive at every positive downwind distance |
| Transport.PlumeDenominator | NinhThuan2_simulation.py:48 | `pi u sigma_y sigma_z` is never zero for a non-zero wind, and is positive exactly when the wind speed is |
| Transport.Reflection | NinhThuan2_simulation.py:48 | the ground-reflection term for the 100 m release height is positive |
| Transport.PlumeKernel | NinhThuan2_simulation.py:48 | the concentration per unit emission rate is positive for a positive wind |
| Transport.PlumeConcentration | NinhThuan2_simulation.py:48 | the concentration is linear in the emission rate: rate times the plume kernel |
| Transport.DoseRate | NinhThuan2_simulation.py:48-52 | the dose rate is the day's source rate times the surviving fraction times the plume kernel, the rain multiplier and `Gamma` |
| Transport.DoseRateMonotone | NinhThuan2_simulation.py:48-52 | for a positive wind the dose rate grows with the non-negative source rate and the non-negative surviving fraction |
| Transport.RadiationLevel | NinhThuan2_simulation.py:43-52 | `radiation_level` factors into `Q_i_base`, the source reduction of the day, radioactive decay, the plume kernel at `distance * 1000` m, the rain multiplier and `Gamma` |
| Transport.RadiationLevelSign | NinhThuan2_simulation.py:48-52 | for a positive wind the dose is positive exactly when the trial's emission rate is, and zero exactly when it is zero |
| Transport.RadiationNonIncreasingInDay | NinhThuan2_simulation.py:41-52 | for a non-negative emission rate, a positive wind and a monotone `exp`, the dose at a fixed distance never rises from one day to a later one |
| Assembly.RunTrials | NinhThuan2_simulation.py:32 | with one direction per trial, every trial `i < num_samples` can read all its arrays and does read entry `i` of each |
| Assembly.TrialVisits | NinhThuan2_simulation.py:41-44 | the day loop makes `time_steps * len(distances)` visits, each naming one of the distances |
| Assembly.AllVisits | NinhThuan2_simulation.py:32-44 | the trial loop makes `num_samples * time_steps * len(distances)` visits, each naming one of the distances |
| Assembly.TrialVisitsAt | NinhThuan2_simulation.py:41-44 | within one trial, visit `t * len(distances) + k` is for day `t` and distance `k` |
| Assembly.AllVisitsAt | NinhThuan2_simulation.py:32 | each trial's visits form one contiguous block, the blocks in trial order |
| Assembly.AllVisitsRecord | NinhThuan2_simulation.py:32-44 | the visit at row-major position `(i, t, k)` is for trial `i`, day `t` and distance `k` |
| Assembly.Observe | NinhThuan2_simulation.py:33-64 | the record of one trial, day and distance copies the trial's seven attributes unchanged, with `time_day` the day and `distance` the distance |
| Assembly.ObserveDoseSign | NinhThuan2_simulation.py:33-52 | for a non-negative sampled wind speed, a record's dose is positive exactly when its trial's `Q_i_base` is, and zero exactly when that is zero |
| Assembly.Records | NinhThuan2_simulation.py:53-64 | one record per visit, and record `j` copies the attributes of visit `j`'s trial, its day and its distance |
| Assembly.RunVisits | NinhThuan2_simulation.py:32-44 | a run makes one visit per trial, day and distance, each naming one of the distances |
| Assembly.Run | NinhThuan2_simulation.py:31-64 | a run emits one record per trial, day and distance |
| Assembly.RunLength | NinhThuan2_simulation.py:31-64 | the result holds exactly `num_samples * time_steps * len(distances)` records |
| Assembly.SlotFormula | NinhThuan2_simulation.py:32-44 | the record of trial `i`, day `t` and distance `k` sits at `(i * time_steps + t) * len(distances) + k` |
| Assembly.RunRecord | NinhThuan2_simulation.py:32-64 | that record carries trial `i`'s attributes, `time_day == t`, `distance == distances[k]`, and the dose of trial `i` on day `t` at that distance |
| Assembly.RunRecordFromDraws | NinhThuan2_simulation.py:17-64 | the same record in terms of the raw draws: clipped speed and rainfall, wrapped direction, other draws unchanged, and a dose computed from the clipped speed itself |
| Assembly.ZeroWindGuardNeverFires | NinhThuan2_simulation.py:37-39 | every clipped wind speed is positive, so the zero-wind substitution never fires and `u` is always `wind_speed[i]` |
| Assembly.SlotOf | NinhThuan2_simulation.py:32-44 | every position of the result is the slot of some trial, day and distance in range |
| Assembly.SlotInjective | NinhThuan2_simulation.py:32-44 | distinct trial, day and distance triples occupy distinct positions |
| Assembly.RunRowDecoded | NinhThuan2_simulation.py:53-64 | every record of the result is the record of the trial, day and distance whose slot it occupies |
| Assembly.RunDoseNonIncreasingInDay | NinhThuan2_simulation.py:41-52 | for a trial with positive core conditions, the dose at a fixed distance on day `t + 1` is at most that on day `t` |
| Assembly.TrialVisitsAsWritten | NinhThuan2_simulation.py:41-56 | the trial's loops fail exactly when its index is past the end of the direction array and there is at least one day and one distance |
| Assembly.VisitsAsWritten | NinhThuan2_simulation.py:32-56 | a run of the loops that completes makes visits that each name one of the distances |
| Assembly.VisitsAsWrittenCompletes | NinhThuan2_simulation.py:32-56 | while every trial has a direction, the loops as written make exactly the corrected visits |
| Assembly.VisitsAsWrittenFails | NinhThuan2_simulation.py:32-56 | with at least one day and one distance, the loops as written fail at the first trial without a direction |
| Assembly.VisitsAsWrittenEmpty | NinhThuan2_simulation.py:41-56 | with no day or no distance the direction array is never read and nothing is emitted |
| Assembly.RunAsWritten | NinhThuan2_simulation.py:17-64 | the code as written either fails reading index `len(wind_direction)` of the direction array, with fewer directions than trials, or completes with `num_samples * time_steps * len(distances)` records |
| Assembly.RunAsWrittenFailsIffOdd | NinhThuan2_simulation.py:20-56 | the code as written raises `IndexError` exactly when `num_samples` is odd and there is at least one day and one distance, and then it reads index `n - 1` of an array of `n - 1` entries |
| Assembly.RunAsWrittenAgreesWhenEven | NinhThuan2_simulation.py:20-56 | for an even sample count the code as written produces exactly the corrected run |
| Assembly.SingleTrialFailsAsWritten | NinhThuan2_simulation.py:20-56 | one trial, one day and one 60 km distance fail on the very first record, reading index 0 of an empty direction array |
| Assembly.SingleTrialNominal | NinhThuan2_simulation.py:31-64 | the corrected single-trial run emits one record, for day 0 at 60 km, whose dose at nominal core conditions is computed from `Q_base` itself |
| Assembly.Simulate | NinhThuan2_simulation.py:31-64 | the loops, run trial by trial, produce exactly the records of the corrected run |
| Assembly.SimulateTrial | NinhThuan2_simulation.py:33-64 | the day and distance loops of one trial, with the source strength and the guarded wind computed once, produce that trial's records |
| Assembly.SimulateDay | NinhThuan2_simulation.py:44-64 | the distance loop of one day produces one record per distance, in order |

## Left out

- Random sampling (lines 17-29): the normal, von Mises and uniform draws are the input
  `Draws`. Nothing is stated about their distributions.
- Transcendental functions: `np.exp`, `np.log`, `np.pi` and `** -0.5` (lines 13 and
  46-49) are the fields of `Transcendentals`, whose values are not modelled. Only their
  positivity is assumed, plus monotonicity of `exp` in the lemmas that say so.
- Floating point: all quantities are exact reals. IEEE rounding is not modelled, for
  example `1 - 0.2 * 4` evaluating to slightly less than 0.2 before `max` restores 0.2.
- Non-positive distances: the model requires every distance to be positive. At distance
  0, `sigma_z` is the Python float `0.0`. The left factor of line 48 becomes numpy `inf`
  with a warning, but `self.H / sigma_z` on the same line is Python float division and
  raises `ZeroDivisionError`. Negative distances give negative spreads, or complex
  powers once `1 + 0.0015 * x` is negative. None of these is modelled.
- Negative `num_samples` and `time_steps` are not modelled: both counts are `nat`.
  numpy rejects a negative sample count, and `range` of a negative day count is empty.
- The records are a datatype with one field per dictionary key. The pandas `DataFrame`,
  the CSV export, the grouped summary print (lines 66-69) and the `__main__` driver
  (lines 71-74) are I/O and are not modelled.
- The unused `stability_class` field (line 12) has no behaviour.
- NinhThuan2_analyze.py is not part of this model: it only reads the CSV and plots.
- The `IndexError` outcome records the index read and the array length, not numpy's
  message text.
- Assembly.RunAsWritten: when no record is produced (`num_samples`, `time_steps` or
  `len(distances)` is zero), it returns the empty record list. The code instead
  builds a `DataFrame` without columns, and the `groupby` of the summary at line 68
  raises `KeyError: 'time_day'` before line 69 returns. The summary is I/O and is not
  modelled, so neither is this failure. Its full behaviour is stated by
  Assembly.RunAsWrittenFailsIffOdd and Assembly.RunAsWrittenAgreesWhenEven.

## Findings

| source | as written | input that shows it | evidently intended | confidence | as-written member | corrected member |
|---|---|---|---|---|---|---|
| NinhThuan2_simulation.py:20-22 | each von Mises lobe draws `num_samples // 2` directions, so `wind_direction` has `2 * (num_samples // 2)` entries and the lookup `wind_direction[i]` at line 56 is out of bounds for the last trial when `num_samples` is odd | `num_samples = 1`, `distances = [60]`, `time_steps = 1`: the direction array is empty and the first record raises `IndexError` | one direction per trial: the second lobe draws `num_samples - num_samples // 2` directions | not executed | Assembly.RunAsWrittenFailsIffOdd | Assembly.RunTrials |
