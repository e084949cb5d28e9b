/** The dataset assembler of `run_simulation`: the loops over trials, days and distances
    and the record each combination produces. The loops are modelled as the sequence of
    `Visit`s they make, in order; each visit is then evaluated to one record. `Run` uses
    the intended split of the wind-direction draws; `RunAsWritten` keeps the split the
    code makes, under which the per-trial direction lookup can fall off the end of the
    direction array. */
module Assembly {
  import opened Numerics
  import opened Transport
  import opened Sampler

  /** The constructor arguments: sample count, distances in km, number of days. */
  datatype Config = Config(numSamples: nat, distances: seq<real>, timeSteps: nat)

  predicate PositiveDistances(ds: seq<real>) {
    forall k :: 0 <= k < |ds| ==> ds[k] > 0.0
  }

  // ---------------------------------------------------------------- block arithmetic

  /** The number of entries in `blocks` consecutive blocks of `size` entries each: the
      product `blocks * size`, counted block by block. */
  function Cells(blocks: nat, size: nat): nat
  {
    if blocks == 0 then 0 else Cells(blocks - 1, size) + size
  }

  lemma {:induction false} CellsProduct(blocks: nat, size: nat)
    ensures Cells(blocks, size) == blocks * size
  {
    if blocks > 0 {
      CellsProduct(blocks - 1, size);
      assert (blocks - 1) * size + size == blocks * size;
    }
  }

  lemma {:induction false} CellsMonotone(a: nat, b: nat, size: nat)
    requires a <= b
    ensures Cells(a, size) <= Cells(b, size)
  {
    if a < b {
      CellsMonotone(a, b - 1, size);
    }
  }

  lemma {:induction false} CellsAdd(a: nat, b: nat, size: nat)
    ensures Cells(a + b, size) == Cells(a, size) + Cells(b, size)
  {
    if b > 0 {
      CellsAdd(a, b - 1, size);
    }
  }

  /** `a` blocks of `b` blocks of `size` entries are `a` blocks of `b * size` entries. */
  lemma {:induction false} CellsNested(a: nat, b: nat, size: nat)
    ensures Cells(Cells(a, b), size) == Cells(a, Cells(b, size))
  {
    if a > 0 {
      CellsNested(a - 1, b, size);
      CellsAdd(Cells(a - 1, b), b, size);
    }
  }

  lemma {:induction false} CellsOfEmpty(blocks: nat)
    ensures Cells(blocks, 0) == 0
  {
    if blocks > 0 {
      CellsOfEmpty(blocks - 1);
    }
  }

  /** Entry `r` of block `q` lies inside the first `blocks` blocks. */
  lemma {:induction false} BlockBelow(q: nat, r: nat, size: nat, blocks: nat)
    requires q < blocks && r < size
    ensures Cells(q, size) + r < Cells(blocks, size)
  {
    CellsMonotone(q + 1, blocks, size);
  }

  /** Every position inside the first `blocks` blocks is entry `r` of some block `q`. */
  lemma {:induction false} BlockOf(j: nat, blocks: nat, size: nat) returns (q: nat, r: nat)
    requires j < Cells(blocks, size)
    ensures q < blocks && r < size && j == Cells(q, size) + r
  {
    if j < Cells(blocks - 1, size) {
      q, r := BlockOf(j, blocks - 1, size);
    } else {
      q, r := blocks - 1, j - Cells(blocks - 1, size);
    }
  }

  /** The block and the entry of a position are unique. */
  lemma {:induction false} BlockUnique(q1: nat, r1: nat, q2: nat, r2: nat, size: nat)
    requires r1 < size && r2 < size
    requires Cells(q1, size) + r1 == Cells(q2, size) + r2
    ensures q1 == q2 && r1 == r2
  {
    if q1 < q2 {
      CellsMonotone(q1 + 1, q2, size);
      assert false;
    } else if q2 < q1 {
      CellsMonotone(q2 + 1, q1, size);
      assert false;
    }
  }

  // ---------------------------------------------------------------- trials and records

  /** One trial's sampled attributes, as read from the per-trial arrays. */
  datatype Trial = Trial(
    baseRadiation: real,
    windSpeed: real,
    windDirection: real,
    rainfall: real,
    coreTemperature: real,
    pressure: real,
    coreDamage: real)

  /** One output record: a row of the result table. */
  datatype Observation = Observation(
    baseRadiation: real,
    windSpeed: real,
    windDirection: real,
    rainfall: real,
    coreTemperature: real,
    pressure: real,
    coreDamage: real,
    radiationLevel: real,
    distance: real,
    timeDay: nat)

  /** The outcome of a run: a value, or the `IndexError` numpy raises when the direction
      array is read at `index` but holds only `length` entries. */
  datatype Outcome<T> = Completed(value: T) | IndexError(index: nat, length: nat)

  /** Every per-trial array except the direction array has an entry for trial `i`. */
  predicate HasAttributes(s: Samples, i: nat) {
    && i < |s.baseRadiation| && i < |s.windSpeed| && i < |s.rainfall|
    && i < |s.coreTemperature| && i < |s.pressure| && i < |s.coreDamage|
  }

  /** Every per-trial array, the direction array included, has an entry for trial `i`. */
  predicate HasTrial(s: Samples, i: nat) {
    HasAttributes(s, i) && i < |s.windDirection|
  }

  function TrialAt(s: Samples, i: nat): (trial: Trial)
    requires HasTrial(s, i)
  {
    Trial(s.baseRadiation[i], s.windSpeed[i], s.windDirection[i], s.rainfall[i],
          s.coreTemperature[i], s.pressure[i], s.coreDamage[i])
  }

  /** The first `n` trials of the sampled arrays. */
  function Trials(s: Samples, n: nat): (trials: seq<Trial>)
    requires n == 0 || HasTrial(s, n - 1)
    ensures |trials| == n
    ensures forall i :: 0 <= i < n ==> HasTrial(s, i) && trials[i] == TrialAt(s, i)
  {
    seq(n, i requires 0 <= i < n => TrialAt(s, i))
  }

  /** `Q_i_base` of a trial. */
  function TrialSource(trial: Trial): real
  {
    SourceStrength(trial.coreTemperature, trial.pressure, trial.coreDamage)
  }

  /** The record for one trial, day and distance: the trial's attributes, then the dose
      at that distance on that day. */
  function Observe(tr: Transcendentals, trial: Trial, t: nat, distance: real): (o: Observation)
    requires tr.Valid() && distance > 0.0
    ensures Copies(o, trial, t, distance)
  {
    Observation(
      trial.baseRadiation, trial.windSpeed, trial.windDirection, trial.rainfall,
      trial.coreTemperature, trial.pressure, trial.coreDamage,
      RadiationLevel(tr, TrialSource(trial), EffectiveWind(trial.windSpeed), trial.rainfall,
                     t, distance),
      distance, t)
  }

  /** For a non-negative wind speed a record's dose is positive exactly when its trial's
      emission rate is, and zero exactly when that rate is zero. */
  lemma {:induction false} ObserveDoseSign(tr: Transcendentals, trial: Trial, t: nat, distance: real)
    requires tr.Valid() && distance > 0.0 && trial.windSpeed >= 0.0
    ensures Observe(tr, trial, t, distance).radiationLevel > 0.0 <==> TrialSource(trial) > 0.0
    ensures Observe(tr, trial, t, distance).radiationLevel == 0.0 <==> TrialSource(trial) == 0.0
  {
    RadiationLevelSign(tr, TrialSource(trial), EffectiveWind(trial.windSpeed), trial.rainfall,
                       t, distance);
  }

  /** A record carries the trial's seven sampled attributes unchanged, with its day and
      its distance. */
  predicate Copies(o: Observation, trial: Trial, t: nat, distance: real) {
    && o.baseRadiation == trial.baseRadiation && o.windSpeed == trial.windSpeed
    && o.windDirection == trial.windDirection && o.rainfall == trial.rainfall
    && o.coreTemperature == trial.coreTemperature && o.pressure == trial.pressure
    && o.coreDamage == trial.coreDamage
    && o.timeDay == t && o.distance == distance
  }

  // ---------------------------------------------------------------- the loops

  /** One pass through the body of the innermost loop: a trial, a day and the position
      `site` of the distance in `distances`. */
  datatype Visit = Visit(trial: Trial, day: nat, site: nat)

  /** The innermost loop: one visit per distance, in the order of `distances`. */
  function DayVisits(trial: Trial, t: nat, width: nat): (visits: seq<Visit>)
    ensures |visits| == width
    ensures forall k :: 0 <= k < width ==> visits[k] == Visit(trial, t, k)
  {
    seq(width, k requires 0 <= k < width => Visit(trial, t, k))
  }

  /** The loop over days `0 .. days - 1` for one trial, with `width` distances. */
  function TrialVisits(trial: Trial, width: nat, days: nat): (visits: seq<Visit>)
    ensures |visits| == Cells(days, width)
    ensures forall j :: 0 <= j < |visits| ==> visits[j].site < width
  {
    if days == 0 then []
    else TrialVisits(trial, width, days - 1) + DayVisits(trial, days - 1, width)
  }

  /** The outer loop over trials: each trial's visits follow those of the trials before it. */
  function AllVisits(trials: seq<Trial>, width: nat, days: nat): (visits: seq<Visit>)
    ensures |visits| == Cells(|trials|, Cells(days, width))
    ensures forall j :: 0 <= j < |visits| ==> visits[j].site < width
  {
    if |trials| == 0 then []
    else AllVisits(trials[..|trials| - 1], width, days) + TrialVisits(trials[|trials| - 1], width, days)
  }

  /** Every visit names one of the `width` distances. */
  predicate WithinSites(visits: seq<Visit>, width: nat) {
    forall j :: 0 <= j < |visits| ==> visits[j].site < width
  }

  /** The records of a sequence of visits, one each, in order. */
  function Records(tr: Transcendentals, ds: seq<real>, visits: seq<Visit>): (rows: seq<Observation>)
    requires tr.Valid() && PositiveDistances(ds) && WithinSites(visits, |ds|)
    ensures |rows| == |visits|
    ensures forall j :: 0 <= j < |visits| ==>
              Copies(rows[j], visits[j].trial, visits[j].day, ds[visits[j].site])
  {
    seq(|visits|, j requires 0 <= j < |visits| =>
      Observe(tr, visits[j].trial, visits[j].day, ds[visits[j].site]))
  }

  lemma RecordAt(tr: Transcendentals, ds: seq<real>, visits: seq<Visit>, j: nat)
    requires tr.Valid() && PositiveDistances(ds) && WithinSites(visits, |ds|) && j < |visits|
    ensures Records(tr, ds, visits)[j]
            == Observe(tr, visits[j].trial, visits[j].day, ds[visits[j].site])
  {
  }

  /** Evaluating visits one after another is the same as evaluating them in two halves. */
  lemma RecordsAppend(tr: Transcendentals, ds: seq<real>, a: seq<Visit>, b: seq<Visit>)
    requires tr.Valid() && PositiveDistances(ds)
    requires WithinSites(a, |ds|) && WithinSites(b, |ds|)
    ensures WithinSites(a + b, |ds|)
    ensures Records(tr, ds, a + b) == Records(tr, ds, a) + Records(tr, ds, b)
  {
    assert WithinSites(a + b, |ds|) by {
      forall j | 0 <= j < |a + b|
        ensures (a + b)[j].site < |ds|
      {
        if j >= |a| { assert (a + b)[j] == b[j - |a|]; }
      }
    }
    forall j | 0 <= j < |a + b|
      ensures Records(tr, ds, a + b)[j] == (Records(tr, ds, a) + Records(tr, ds, b))[j]
    {
      if j < |a| {
        assert (a + b)[j] == a[j];
      } else {
        assert (a + b)[j] == b[j - |a|];
      }
    }
  }

  // ---------------------------------------------------------------- the corrected run

  /** Everything a run needs from its inputs. */
  ghost predicate RunInputs(cfg: Config, d: Draws, tr: Transcendentals) {
    tr.Valid() && PositiveDistances(cfg.distances) && DrawnSplit(d, cfg.numSamples)
  }

  /** The trials of a run: trial `i` reads entry `i` of every prepared array. */
  function RunTrials(cfg: Config, d: Draws, tr: Transcendentals): (trials: seq<Trial>)
    requires RunInputs(cfg, d, tr)
    ensures |trials| == cfg.numSamples
    ensures forall i :: 0 <= i < cfg.numSamples ==>
              HasTrial(Prepare(d, tr.pi), i) && trials[i] == TrialAt(Prepare(d, tr.pi), i)
  {
    WindDirectionCount(d, cfg.numSamples, tr.pi);
    Trials(Prepare(d, tr.pi), cfg.numSamples)
  }

  /** `run_simulation` with one wind direction per trial: clip and wrap the draws, then
      emit the records trial by trial, day by day, distance by distance. */
  function Run(cfg: Config, d: Draws, tr: Transcendentals): (rows: seq<Observation>)
    requires RunInputs(cfg, d, tr)
    ensures |rows| == Cells(cfg.numSamples, Cells(cfg.timeSteps, |cfg.distances|))
  {
    Records(tr, cfg.distances, RunVisits(cfg, d, tr))
  }

  /** The visits the three loops of a run make. */
  function RunVisits(cfg: Config, d: Draws, tr: Transcendentals): (visits: seq<Visit>)
    requires RunInputs(cfg, d, tr)
    ensures |visits| == Cells(cfg.numSamples, Cells(cfg.timeSteps, |cfg.distances|))
    ensures WithinSites(visits, |cfg.distances|)
  {
    AllVisits(RunTrials(cfg, d, tr), |cfg.distances|, cfg.timeSteps)
  }

  /** A run holds one record per trial, day and distance. */
  lemma {:induction false} RunLength(cfg: Config, d: Draws, tr: Transcendentals)
    requires RunInputs(cfg, d, tr)
    ensures |Run(cfg, d, tr)| == cfg.numSamples * cfg.timeSteps * |cfg.distances|
  {
    var n, days, width := cfg.numSamples, cfg.timeSteps, |cfg.distances|;
    CellsProduct(days, width);
    CellsProduct(n, days * width);
    assert n * (days * width) == n * days * width;
  }

  // ---------------------------------------------------------------- record order

  /** Visit `Cells(t, width) + k` of a trial is the one for day `t` and distance `k`. */
  lemma {:induction false} TrialVisitsAt(trial: Trial, width: nat, days: nat, t: nat, k: nat)
    requires t < days && k < width
    ensures Cells(t, width) + k < |TrialVisits(trial, width, days)|
    ensures TrialVisits(trial, width, days)[Cells(t, width) + k] == Visit(trial, t, k)
  {
    BlockBelow(t, k, width, days);
    if t < days - 1 {
      TrialVisitsAt(trial, width, days - 1, t, k);
    }
  }

  /** Visit `Cells(i, w) + m` of the whole run, with `w` visits per trial, is visit `m` of
      trial `i`. */
  lemma {:induction false} AllVisitsAt(trials: seq<Trial>, width: nat, days: nat, i: nat, m: nat)
    requires i < |trials| && m < Cells(days, width)
    ensures Cells(i, Cells(days, width)) + m < |AllVisits(trials, width, days)|
    ensures AllVisits(trials, width, days)[Cells(i, Cells(days, width)) + m]
            == TrialVisits(trials[i], width, days)[m]
  {
    BlockBelow(i, m, Cells(days, width), |trials|);
    var front := trials[..|trials| - 1];
    if i < |trials| - 1 {
      assert front[i] == trials[i];
      AllVisitsAt(front, width, days, i, m);
    }
  }

  /** The position of the record for trial `i`, day `t` and distance number `k`: trials
      outermost, then days, then distances. */
  function Slot(cfg: Config, i: nat, t: nat, k: nat): nat
  {
    NestedIndex(i, t, k, cfg.timeSteps, |cfg.distances|)
  }

  /** Row-major position of `(i, t, k)`, that is `(i * days + t) * width + k`: the
      `i * days + t` whole rows of `width` entries before it, then `k` entries. */
  function NestedIndex(i: nat, t: nat, k: nat, days: nat, width: nat): nat
  {
    Cells(Cells(i, days) + t, width) + k
  }

  /** The slot is the row-major position `(i * time_steps + t) * |distances| + k`. */
  lemma {:induction false} SlotFormula(cfg: Config, i: nat, t: nat, k: nat)
    ensures Slot(cfg, i, t, k) == (i * cfg.timeSteps + t) * |cfg.distances| + k
  {
    CellsProduct(i, cfg.timeSteps);
    CellsProduct(i * cfg.timeSteps + t, |cfg.distances|);
  }

  /** A row-major position is entry `Cells(t, width) + k` of the `i`-th block of
      `days * width` entries. */
  lemma {:induction false} NestedIndexSplit(i: nat, t: nat, k: nat, days: nat, width: nat)
    ensures NestedIndex(i, t, k, days, width) == Cells(i, Cells(days, width)) + (Cells(t, width) + k)
  {
    CellsAdd(Cells(i, days), t, width);
    CellsNested(i, days, width);
  }

  /** The loops visit trial `i`, day `t` and distance `k` at `NestedIndex(i, t, k, days, width)`. */
  lemma {:induction false} AllVisitsRecord(trials: seq<Trial>, width: nat, days: nat,
                                           i: nat, t: nat, k: nat)
    requires i < |trials| && t < days && k < width
    ensures NestedIndex(i, t, k, days, width) < |AllVisits(trials, width, days)|
    ensures AllVisits(trials, width, days)[NestedIndex(i, t, k, days, width)] == Visit(trials[i], t, k)
  {
    BlockBelow(t, k, width, days);
    NestedIndexSplit(i, t, k, days, width);
    AllVisitsAt(trials, width, days, i, Cells(t, width) + k);
    TrialVisitsAt(trials[i], width, days, t, k);
  }

  /** The record for trial `i`, day `t` and the `k`-th distance sits at `Slot(cfg, i, t, k)`:
      it carries the trial's attributes, the day and the distance, and the radiation level
      computed from the trial's source strength, its guarded wind speed and its rainfall. */
  lemma {:induction false} RunRecord(cfg: Config, d: Draws, tr: Transcendentals, i: nat, t: nat, k: nat)
    requires RunInputs(cfg, d, tr)
    requires i < cfg.numSamples && t < cfg.timeSteps && k < |cfg.distances|
    ensures Slot(cfg, i, t, k) < |Run(cfg, d, tr)|
    ensures Run(cfg, d, tr)[Slot(cfg, i, t, k)]
            == Observe(tr, RunTrials(cfg, d, tr)[i], t, cfg.distances[k])
  {
    AllVisitsRecord(RunTrials(cfg, d, tr), |cfg.distances|, cfg.timeSteps, i, t, k);
    RecordAt(tr, cfg.distances, RunVisits(cfg, d, tr), Slot(cfg, i, t, k));
  }

  /** The same record, stated in terms of the raw draws of trial `i`: the clipped wind
      speed and rainfall, the wrapped direction, the other draws unchanged, and a dose
      in which the zero-wind guard plays no part. */
  lemma {:induction false} RunRecordFromDraws(cfg: Config, d: Draws, tr: Transcendentals,
                                              i: nat, t: nat, k: nat)
    requires RunInputs(cfg, d, tr)
    requires i < cfg.numSamples && t < cfg.timeSteps && k < |cfg.distances|
    ensures Slot(cfg, i, t, k) < |Run(cfg, d, tr)|
    ensures var o := Run(cfg, d, tr)[Slot(cfg, i, t, k)];
      && o.baseRadiation == d.baseRadiation[i]
      && o.windSpeed == ClipWindSpeed(d.windSpeed[i])
      && o.windDirection == WindDirections(d, tr.pi)[i]
      && o.rainfall == ClipRainfall(d.rainfall[i])
      && o.coreTemperature == d.coreTemperature[i]
      && o.pressure == d.pressure[i]
      && o.coreDamage == d.coreDamage[i]
      && o.timeDay == t
      && o.distance == cfg.distances[k]
      && o.radiationLevel
         == RadiationLevel(tr, SourceStrength(d.coreTemperature[i], d.pressure[i], d.coreDamage[i]),
                           ClipWindSpeed(d.windSpeed[i]), ClipRainfall(d.rainfall[i]),
                           t, cfg.distances[k])
  {
    RunRecord(cfg, d, tr, i, t, k);
    ZeroWindGuardNeverFires(d, tr.pi, i);
  }

  /** The zero-wind guard never changes a clipped wind speed: every clipped speed is at
      least 3 m/s. */
  lemma ZeroWindGuardNeverFires(d: Draws, pi: real, i: nat)
    requires pi > 0.0 && i < |d.windSpeed|
    ensures EffectiveWind(Prepare(d, pi).windSpeed[i]) == ClipWindSpeed(d.windSpeed[i])
    ensures Prepare(d, pi).windSpeed[i] > 0.0
  {
  }

  /** Every position of the run is the slot of some trial, day and distance. */
  lemma {:induction false} SlotOf(cfg: Config, j: nat) returns (i: nat, t: nat, k: nat)
    requires j < Cells(cfg.numSamples, Cells(cfg.timeSteps, |cfg.distances|))
    ensures i < cfg.numSamples && t < cfg.timeSteps && k < |cfg.distances|
    ensures j == Slot(cfg, i, t, k)
  {
    i, t, k := NestedIndexOf(j, cfg.numSamples, cfg.timeSteps, |cfg.distances|);
  }

  /** Row-major positions cover the whole array. */
  lemma {:induction false} NestedIndexOf(j: nat, n: nat, days: nat, width: nat)
    returns (i: nat, t: nat, k: nat)
    requires j < Cells(n, Cells(days, width))
    ensures i < n && t < days && k < width
    ensures j == NestedIndex(i, t, k, days, width)
  {
    var m;
    i, m := BlockOf(j, n, Cells(days, width));
    t, k := BlockOf(m, days, width);
    NestedIndexSplit(i, t, k, days, width);
  }

  /** Distinct trial, day and distance triples occupy distinct slots. */
  lemma {:induction false} SlotInjective(cfg: Config, i1: nat, t1: nat, k1: nat,
                                         i2: nat, t2: nat, k2: nat)
    requires t1 < cfg.timeSteps && k1 < |cfg.distances|
    requires t2 < cfg.timeSteps && k2 < |cfg.distances|
    requires Slot(cfg, i1, t1, k1) == Slot(cfg, i2, t2, k2)
    ensures i1 == i2 && t1 == t2 && k1 == k2
  {
    NestedIndexInjective(i1, t1, k1, i2, t2, k2, cfg.timeSteps, |cfg.distances|);
  }

  lemma {:induction false} NestedIndexInjective(i1: nat, t1: nat, k1: nat, i2: nat, t2: nat, k2: nat,
                                                days: nat, width: nat)
    requires t1 < days && k1 < width && t2 < days && k2 < width
    requires NestedIndex(i1, t1, k1, days, width) == NestedIndex(i2, t2, k2, days, width)
    ensures i1 == i2 && t1 == t2 && k1 == k2
  {
    NestedIndexSplit(i1, t1, k1, days, width);
    NestedIndexSplit(i2, t2, k2, days, width);
    BlockBelow(t1, k1, width, days);
    BlockBelow(t2, k2, width, days);
    BlockUnique(i1, Cells(t1, width) + k1, i2, Cells(t2, width) + k2, Cells(days, width));
    BlockUnique(t1, k1, t2, k2, width);
  }

  /** Every record of the run is the record of the trial, day and distance whose slot it
      occupies. */
  lemma {:induction false} RunRowDecoded(cfg: Config, d: Draws, tr: Transcendentals, j: nat)
    returns (i: nat, t: nat, k: nat)
    requires RunInputs(cfg, d, tr)
    requires j < |Run(cfg, d, tr)|
    ensures i < cfg.numSamples && t < cfg.timeSteps && k < |cfg.distances|
    ensures j == Slot(cfg, i, t, k)
    ensures Run(cfg, d, tr)[j] == Observe(tr, RunTrials(cfg, d, tr)[i], t, cfg.distances[k])
  {
    i, t, k := SlotOf(cfg, j);
    RunRecord(cfg, d, tr, i, t, k);
  }

  // ---------------------------------------------------------------- consequences for the dose

  /** Along the days of one trial at one distance the dose never rises, provided the
      trial's core parameters are positive (so its source strength is) and `exp` is
      monotone. */
  lemma {:induction false} RunDoseNonIncreasingInDay(cfg: Config, d: Draws, tr: Transcendentals,
                                                     i: nat, t: nat, k: nat)
    requires RunInputs(cfg, d, tr) && tr.ExpMonotone()
    requires i < cfg.numSamples && t + 1 < cfg.timeSteps && k < |cfg.distances|
    requires d.coreTemperature[i] > 0.0 && d.pressure[i] > 0.0 && d.coreDamage[i] > 0.0
    ensures Slot(cfg, i, t, k) < |Run(cfg, d, tr)| && Slot(cfg, i, t + 1, k) < |Run(cfg, d, tr)|
    ensures Run(cfg, d, tr)[Slot(cfg, i, t + 1, k)].radiationLevel
            <= Run(cfg, d, tr)[Slot(cfg, i, t, k)].radiationLevel
  {
    RunRecord(cfg, d, tr, i, t, k);
    RunRecord(cfg, d, tr, i, t + 1, k);
    var trial := RunTrials(cfg, d, tr)[i];
    assert trial.windSpeed >= MinWindSpeed;
    RadiationNonIncreasingInDay(tr, TrialSource(trial), EffectiveWind(trial.windSpeed),
                                trial.rainfall, cfg.distances[k], t, t + 1);
  }

  // ---------------------------------------------------------------- the code as written

  /** The visits of trial `i` as the code makes them: the direction array is read inside
      the innermost loop, so the lookup happens only when there is at least one day and
      one distance, and it fails when `i` is past the end of the array. */
  function TrialVisitsAsWritten(s: Samples, i: nat, width: nat, days: nat): (r: Outcome<seq<Visit>>)
    requires HasAttributes(s, i)
    ensures r.IndexError? <==> i >= |s.windDirection| && days > 0 && width > 0
    ensures r.IndexError? ==> r == IndexError(i, |s.windDirection|)
    ensures r.Completed? ==> WithinSites(r.value, width) && |r.value| == Cells(days, width)
  {
    if i < |s.windDirection| then Completed(TrialVisits(TrialAt(s, i), width, days))
    else if days == 0 || width == 0 then CellsOfEmpty(days); Completed([])
    else IndexError(i, |s.windDirection|)
  }

  /** The outer loop over the first `n` trials as the code runs it: the first failing
      lookup ends the run. */
  function VisitsAsWritten(s: Samples, n: nat, width: nat, days: nat): (r: Outcome<seq<Visit>>)
    requires n == 0 || HasAttributes(s, n - 1)
    requires forall i :: 0 <= i < n ==> HasAttributes(s, i)
    ensures r.Completed? ==> WithinSites(r.value, width)
    ensures r.Completed? ==> |r.value| == Cells(n, Cells(days, width))
    ensures r.Completed? && days > 0 && width > 0 ==> n <= |s.windDirection|
    ensures r.IndexError? ==> r.index == r.length == |s.windDirection| < n
  {
    if n == 0 then Completed([])
    else
      match VisitsAsWritten(s, n - 1, width, days)
      case IndexError(index, length) => IndexError(index, length)
      case Completed(earlier) =>
        match TrialVisitsAsWritten(s, n - 1, width, days)
        case IndexError(index, length) => IndexError(index, length)
        case Completed(visits) =>
          assert WithinSites(earlier + visits, width) by {
            forall j | 0 <= j < |earlier + visits|
              ensures (earlier + visits)[j].site < width
            {
              if j >= |earlier| { assert (earlier + visits)[j] == visits[j - |earlier|]; }
            }
          }
          Completed(earlier + visits)
  }

  /** `run_simulation` exactly as written: `n // 2` direction draws per lobe. */
  function RunAsWritten(cfg: Config, d: Draws, tr: Transcendentals): (r: Outcome<seq<Observation>>)
    requires tr.Valid() && PositiveDistances(cfg.distances) && DrawnAsWritten(d, cfg.numSamples)
    ensures r.IndexError? ==> r.index == r.length == |Prepare(d, tr.pi).windDirection| < cfg.numSamples
    ensures r.Completed? ==>
              |r.value| == Cells(cfg.numSamples, Cells(cfg.timeSteps, |cfg.distances|))
  {
    match VisitsAsWritten(Prepare(d, tr.pi), cfg.numSamples, |cfg.distances|, cfg.timeSteps)
    case IndexError(index, length) => IndexError(index, length)
    case Completed(visits) => Completed(Records(tr, cfg.distances, visits))
  }

  /** While every trial has a wind direction, the loops as written make exactly the
      visits of the corrected assembly. */
  lemma {:induction false} VisitsAsWrittenCompletes(s: Samples, n: nat, width: nat, days: nat)
    requires n == 0 || HasTrial(s, n - 1)
    requires forall i :: 0 <= i < n ==> HasAttributes(s, i)
    ensures VisitsAsWritten(s, n, width, days) == Completed(AllVisits(Trials(s, n), width, days))
  {
    if n > 0 {
      assert Trials(s, n)[..n - 1] == Trials(s, n - 1);
      VisitsAsWrittenCompletes(s, n - 1, width, days);
    }
  }

  /** With at least one day and one distance, the loops as written stop at the first
      trial past the end of the direction array. */
  lemma {:induction false} VisitsAsWrittenFails(s: Samples, n: nat, width: nat, days: nat)
    requires n == 0 || HasAttributes(s, n - 1)
    requires forall i :: 0 <= i < n ==> HasAttributes(s, i)
    requires |s.windDirection| < n && days > 0 && width > 0
    ensures VisitsAsWritten(s, n, width, days) == IndexError(|s.windDirection|, |s.windDirection|)
  {
    if n - 1 == |s.windDirection| {
      VisitsAsWrittenCompletes(s, n - 1, width, days);
    } else {
      VisitsAsWrittenFails(s, n - 1, width, days);
    }
  }

  /** With no day or no distance the direction array is never read, and the loops as
      written make no visit. */
  lemma {:induction false} VisitsAsWrittenEmpty(s: Samples, n: nat, width: nat, days: nat)
    requires n == 0 || HasAttributes(s, n - 1)
    requires forall i :: 0 <= i < n ==> HasAttributes(s, i)
    requires days == 0 || width == 0
    ensures VisitsAsWritten(s, n, width, days) == Completed([])
  {
    if n > 0 {
      VisitsAsWrittenEmpty(s, n - 1, width, days);
      if n - 1 < |s.windDirection| {
        assert TrialVisits(TrialAt(s, n - 1), width, days) == [] by {
          CellsOfEmpty(days);
        }
      }
      assert TrialVisitsAsWritten(s, n - 1, width, days) == Completed([]);
      assert VisitsAsWritten(s, n - 1, width, days).value + [] == [];
    }
  }

  /** The finding: the run as written raises `IndexError` exactly when the sample count is
      odd and there is at least one day and one distance, and then it fails on the last
      trial, reading entry `n - 1` of an array of `n - 1` directions. */
  lemma {:induction false} RunAsWrittenFailsIffOdd(cfg: Config, d: Draws, tr: Transcendentals)
    requires tr.Valid() && PositiveDistances(cfg.distances) && DrawnAsWritten(d, cfg.numSamples)
    ensures RunAsWritten(cfg, d, tr).IndexError?
            <==> cfg.numSamples % 2 == 1 && cfg.timeSteps > 0 && |cfg.distances| > 0
    ensures RunAsWritten(cfg, d, tr).IndexError? ==>
              RunAsWritten(cfg, d, tr) == IndexError(cfg.numSamples - 1, cfg.numSamples - 1)
  {
    var n, ds, days := cfg.numSamples, cfg.distances, cfg.timeSteps;
    var s := Prepare(d, tr.pi);
    WindDirectionCount(d, n, tr.pi);
    if days == 0 || |ds| == 0 {
      VisitsAsWrittenEmpty(s, n, |ds|, days);
    } else if n % 2 == 1 {
      VisitsAsWrittenFails(s, n, |ds|, days);
    } else {
      VisitsAsWrittenCompletes(s, n, |ds|, days);
    }
  }

  /** For an even sample count the code as written and the corrected run agree. */
  lemma {:induction false} RunAsWrittenAgreesWhenEven(cfg: Config, d: Draws, tr: Transcendentals)
    requires tr.Valid() && PositiveDistances(cfg.distances) && DrawnAsWritten(d, cfg.numSamples)
    requires cfg.numSamples % 2 == 0
    ensures RunInputs(cfg, d, tr)
    ensures RunAsWritten(cfg, d, tr) == Completed(Run(cfg, d, tr))
  {
    DrawnShapesAgreeWhenEven(d, cfg.numSamples);
    WindDirectionCount(d, cfg.numSamples, tr.pi);
    VisitsAsWrittenCompletes(Prepare(d, tr.pi), cfg.numSamples, |cfg.distances|, cfg.timeSteps);
  }

  /** One trial, one day, one distance of 60 km: the code as written fails on its very
      first record, reading the direction of trial 0 from an empty array. */
  lemma {:induction false} SingleTrialFailsAsWritten(d: Draws, tr: Transcendentals)
    requires tr.Valid() && DrawnAsWritten(d, 1)
    ensures RunAsWritten(Config(1, [60.0], 1), d, tr) == IndexError(0, 0)
  {
    RunAsWrittenFailsIffOdd(Config(1, [60.0], 1), d, tr);
  }

  /** The same scenario with one direction per trial yields one record, for day 0 at
      60 km, whose dose is computed from the nominal source strength when the core
      parameters are nominal. */
  lemma {:induction false} SingleTrialNominal(d: Draws, tr: Transcendentals)
    requires tr.Valid() && DrawnSplit(d, 1)
    requires d.coreTemperature[0] == NominalTemperature && d.pressure[0] == NominalPressure
    requires d.coreDamage[0] == NominalDamage
    ensures RunInputs(Config(1, [60.0], 1), d, tr)
    ensures |Run(Config(1, [60.0], 1), d, tr)| == 1
    ensures var o := Run(Config(1, [60.0], 1), d, tr)[0];
      && o.timeDay == 0 && o.distance == 60.0
      && o.windSpeed == ClipWindSpeed(d.windSpeed[0])
      && o.radiationLevel
         == RadiationLevel(tr, QBase, ClipWindSpeed(d.windSpeed[0]), ClipRainfall(d.rainfall[0]),
                           0, 60.0)
  {
    var cfg := Config(1, [60.0], 1);
    RunRecordFromDraws(cfg, d, tr, 0, 0, 0);
    assert Slot(cfg, 0, 0, 0) == 0;
  }

  // ---------------------------------------------------------------- the loops as a method

  /** The outer loop of `run_simulation`: the trials in order, each appending its records
      to those of the trials before it. */
  method Simulate(cfg: Config, d: Draws, tr: Transcendentals) returns (rows: seq<Observation>)
    requires RunInputs(cfg, d, tr)
    ensures rows == Run(cfg, d, tr)
  {
    var trials := RunTrials(cfg, d, tr);
    ghost var width := |cfg.distances|;
    rows := [];
    var i := 0;
    while i < cfg.numSamples
      invariant i <= cfg.numSamples
      invariant rows == Records(tr, cfg.distances, AllVisits(trials[..i], width, cfg.timeSteps))
    {
      var block := SimulateTrial(tr, trials[i], cfg.distances, cfg.timeSteps);
      AllVisitsExtend(trials, width, cfg.timeSteps, i);
      RecordsAppend(tr, cfg.distances, AllVisits(trials[..i], width, cfg.timeSteps),
                    TrialVisits(trials[i], width, cfg.timeSteps));
      rows := rows + block;
      i := i + 1;
    }
    assert trials[..cfg.numSamples] == trials;
  }

  /** Taking one more trial appends that trial's visits. */
  lemma AllVisitsExtend(trials: seq<Trial>, width: nat, days: nat, i: nat)
    requires i < |trials|
    ensures AllVisits(trials[..i + 1], width, days)
            == AllVisits(trials[..i], width, days) + TrialVisits(trials[i], width, days)
  {
    assert trials[..i + 1][..i] == trials[..i];
  }

  /** The loop over days for one trial: the source strength and the guarded wind speed are
      computed once, before the first day. */
  method SimulateTrial(tr: Transcendentals, trial: Trial, ds: seq<real>, days: nat)
    returns (rows: seq<Observation>)
    requires tr.Valid() && PositiveDistances(ds)
    ensures rows == Records(tr, ds, TrialVisits(trial, |ds|, days))
  {
    var q := TrialSource(trial);
    var u := EffectiveWind(trial.windSpeed);
    rows := [];
    var t := 0;
    while t < days
      invariant t <= days
      invariant rows == Records(tr, ds, TrialVisits(trial, |ds|, t))
    {
      var day := SimulateDay(tr, trial, q, u, t, ds);
      RecordsAppend(tr, ds, TrialVisits(trial, |ds|, t), DayVisits(trial, t, |ds|));
      rows := rows + day;
      t := t + 1;
    }
  }

  /** The loop over distances for one trial and day. */
  method SimulateDay(tr: Transcendentals, trial: Trial, q: real, u: real, t: nat, ds: seq<real>)
    returns (rows: seq<Observation>)
    requires tr.Valid() && PositiveDistances(ds)
    requires q == TrialSource(trial) && u == EffectiveWind(trial.windSpeed)
    ensures rows == Records(tr, ds, DayVisits(trial, t, |ds|))
  {
    rows := [];
    var k := 0;
    while k < |ds|
      invariant k <= |ds|
      invariant |rows| == k
      invariant forall j :: 0 <= j < k ==> rows[j] == Observe(tr, trial, t, ds[j])
    {
      var level := RadiationLevel(tr, q, u, trial.rainfall, t, ds[k]);
      rows := rows + [Observation(trial.baseRadiation, trial.windSpeed, trial.windDirection,
                                  trial.rainfall, trial.coreTemperature, trial.pressure,
                                  trial.coreDamage, level, ds[k], t)];
      k := k + 1;
    }
  }
}
