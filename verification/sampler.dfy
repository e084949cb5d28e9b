/** The parameter sampler of `run_simulation`. The random draws themselves are inputs
    (`Draws`); this module models what the code does with them before the trial loop:
    wind speeds and rainfall are clipped, the two von Mises lobes of wind direction are
    converted to degrees, concatenated and wrapped into a full turn. */
module Sampler {
  import opened Numerics

  const MinWindSpeed: real := 3.0
  const MaxWindSpeed: real := 15.0
  const MinRainfall: real := 0.0
  const MaxRainfall: real := 10.0

  /** The raw random draws of one run. `northEastLobe` and `southWestLobe` are the von
      Mises draws (radians) centred on 45° and 225°; every other field holds one draw
      per trial. */
  datatype Draws = Draws(
    baseRadiation: seq<real>,
    windSpeed: seq<real>,
    northEastLobe: seq<real>,
    southWestLobe: seq<real>,
    rainfall: seq<real>,
    coreTemperature: seq<real>,
    pressure: seq<real>,
    coreDamage: seq<real>)

  /** The per-trial arrays as the trial loop reads them. */
  datatype Samples = Samples(
    baseRadiation: seq<real>,
    windSpeed: seq<real>,
    windDirection: seq<real>,
    rainfall: seq<real>,
    coreTemperature: seq<real>,
    pressure: seq<real>,
    coreDamage: seq<real>)

  /** Every per-trial draw sequence has one entry per trial. */
  predicate PerTrialLengths(d: Draws, n: nat) {
    && |d.baseRadiation| == n && |d.windSpeed| == n && |d.rainfall| == n
    && |d.coreTemperature| == n && |d.pressure| == n && |d.coreDamage| == n
  }

  /** The draws numpy produces for `num_samples = n`: `n // 2` draws in each lobe. */
  predicate DrawnAsWritten(d: Draws, n: nat) {
    PerTrialLengths(d, n) && |d.northEastLobe| == n / 2 && |d.southWestLobe| == n / 2
  }

  /** The intended split: the two lobes together hold one direction per trial. */
  predicate DrawnSplit(d: Draws, n: nat) {
    PerTrialLengths(d, n) && |d.northEastLobe| == n / 2 && |d.southWestLobe| == n - n / 2
  }

  /** For an even sample count the two shapes of draws coincide. */
  lemma DrawnShapesAgreeWhenEven(d: Draws, n: nat)
    requires n % 2 == 0
    ensures DrawnAsWritten(d, n) <==> DrawnSplit(d, n)
  {
  }

  /** `np.clip(wind_speed, 3, 15)` for one draw. */
  function ClipWindSpeed(w: real): (r: real)
    ensures MinWindSpeed <= r <= MaxWindSpeed
    ensures r == w <==> MinWindSpeed <= w <= MaxWindSpeed
  {
    Clip(w, MinWindSpeed, MaxWindSpeed)
  }

  /** `np.clip(rainfall, 0, 10)` for one draw. */
  function ClipRainfall(r: real): (c: real)
    ensures MinRainfall <= c <= MaxRainfall
    ensures c == r <==> MinRainfall <= r <= MaxRainfall
  {
    Clip(r, MinRainfall, MaxRainfall)
  }

  /** One von Mises draw in radians converted with `* 180 / pi` and wrapped by
      `(x + 360) % 360`. */
  function Direction(radians: real, pi: real): (deg: real)
    requires pi > 0.0
    ensures 0.0 <= deg < 360.0
    ensures exists k: int :: radians * 180.0 / pi == deg + Turns(k)
  {
    WrapDegrees(radians * 180.0 / pi)
  }

  /** The direction array: the first lobe's draws followed by the second's, each
      converted and wrapped. */
  function WindDirections(d: Draws, pi: real): (w: seq<real>)
    requires pi > 0.0
    ensures |w| == |d.northEastLobe| + |d.southWestLobe|
    ensures forall i :: 0 <= i < |w| ==> 0.0 <= w[i] < 360.0
    ensures forall i :: 0 <= i < |d.northEastLobe| ==> w[i] == Direction(d.northEastLobe[i], pi)
    ensures forall i :: 0 <= i < |d.southWestLobe| ==>
              w[|d.northEastLobe| + i] == Direction(d.southWestLobe[i], pi)
  {
    var lobes := d.northEastLobe + d.southWestLobe;
    seq(|lobes|, i requires 0 <= i < |lobes| => Direction(lobes[i], pi))
  }

  /** The arrays the trial loop reads: clipped wind speeds and rainfall, wrapped wind
      directions, and the remaining draws unchanged. */
  function Prepare(d: Draws, pi: real): (s: Samples)
    requires pi > 0.0
    ensures s.baseRadiation == d.baseRadiation
    ensures s.coreTemperature == d.coreTemperature
    ensures s.pressure == d.pressure
    ensures s.coreDamage == d.coreDamage
    ensures |s.windSpeed| == |d.windSpeed| && |s.rainfall| == |d.rainfall|
    ensures forall i :: 0 <= i < |s.windSpeed| ==> MinWindSpeed <= s.windSpeed[i] <= MaxWindSpeed
    ensures forall i :: 0 <= i < |s.rainfall| ==> MinRainfall <= s.rainfall[i] <= MaxRainfall
    ensures forall i :: 0 <= i < |s.windDirection| ==> 0.0 <= s.windDirection[i] < 360.0
    ensures forall i :: 0 <= i < |s.windSpeed| ==> s.windSpeed[i] == ClipWindSpeed(d.windSpeed[i])
    ensures forall i :: 0 <= i < |s.rainfall| ==> s.rainfall[i] == ClipRainfall(d.rainfall[i])
    ensures s.windDirection == WindDirections(d, pi)
  {
    Samples(
      d.baseRadiation,
      seq(|d.windSpeed|, i requires 0 <= i < |d.windSpeed| => ClipWindSpeed(d.windSpeed[i])),
      WindDirections(d, pi),
      seq(|d.rainfall|, i requires 0 <= i < |d.rainfall| => ClipRainfall(d.rainfall[i])),
      d.coreTemperature,
      d.pressure,
      d.coreDamage)
  }

  /** The direction array has `2 * (n // 2)` entries for draws shaped as numpy draws them,
      which covers every trial exactly when `n` is even; with the intended split it
      always has `n`. */
  lemma WindDirectionCount(d: Draws, n: nat, pi: real)
    requires pi > 0.0
    ensures DrawnAsWritten(d, n) ==> |Prepare(d, pi).windDirection| == 2 * (n / 2)
    ensures DrawnAsWritten(d, n) ==> (|Prepare(d, pi).windDirection| == n <==> n % 2 == 0)
    ensures DrawnAsWritten(d, n) && n % 2 == 1 ==> |Prepare(d, pi).windDirection| == n - 1
    ensures DrawnSplit(d, n) ==> |Prepare(d, pi).windDirection| == n
  {
  }
}
