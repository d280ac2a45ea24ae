/**
The load curve and the session launcher it drives: a base rate shaped by the
time of day and the weekday, a mean-reverting noise clamped to three sigma, and
a fractional budget from which whole sessions are launched.

Cosines, the lunch-dip exponential and the random shock are inputs; of the first
two only their ranges are used, of the shock nothing.
*/
module LoadShape {
  import opened Common

  datatype Config = Config(
    baseRPS: real,
    amplitude: real,
    weekendFactor: real,
    lunchDip: real,
    noiseSigma: real,
    noiseReversion: real,
    minRPS: real)

  datatype Weekday = Weekend | Friday | Monday | Midweek

  /** The two cosines, the exponential, and the weekday of a virtual time. */
  datatype Moment = Moment(mainCos: real, secondCos: real, gauss: real, weekday: Weekday)

  predicate ValidMoment(m: Moment) {
    -1.0 <= m.mainCos <= 1.0 && -1.0 <= m.secondCos <= 1.0 && 0.0 < m.gauss <= 1.0
  }

  function Diurnal(c: Config, m: Moment): real {
    if c.amplitude <= 0.0 then 1.0
    else Max(0.05, Humps(c.amplitude, 0.7 * m.mainCos + 0.35 * m.secondCos, c.lunchDip, m.gauss))
  }

  function Humps(amplitude: real, wave: real, dip: real, gauss: real): real {
    1.0 + amplitude * wave / 1.05 - dip * gauss
  }

  function Weekly(c: Config, m: Moment): real {
    match m.weekday
    case Weekend => c.weekendFactor
    case Friday => 0.92
    case Monday => 1.05
    case Midweek => 1.0
  }

  function WithDefaults(c: Config): Config {
    c.(baseRPS := if c.baseRPS <= 0.0 then 10.0 else c.baseRPS,
       weekendFactor := if c.weekendFactor <= 0.0 then 0.45 else c.weekendFactor,
       noiseReversion := if c.noiseReversion <= 0.0 then 0.2 else c.noiseReversion)
  }

  predicate Sane(c: Config) { c.baseRPS > 0.0 && c.weekendFactor > 0.0 }

  // ---------- bounds ----------

  /** The most the time of day can make of the base rate. */
  function DiurnalPeak(c: Config): real { 1.0 + Max(c.amplitude, 0.0) + Max(-c.lunchDip, 0.0) }

  function WeeklyPeak(c: Config): real { Max(c.weekendFactor, 1.05) }

  function NoisePeak(c: Config): real { 1.0 + 3.0 * Max(c.noiseSigma, 0.0) }

  /** No request rate ever exceeds this, however the noise goes. */
  function Ceiling(c: Config): real {
    Rate(c, DiurnalPeak(c), WeeklyPeak(c), NoisePeak(c))
  }

  /** The least the noise factor can be, negative if three sigma exceed 1. */
  function NoiseFloor(c: Config): real { 1.0 - 3.0 * Max(c.noiseSigma, 0.0) }

  /** The least the shape can make of the base rate. */
  function LeastShaped(c: Config): real {
    if NoiseFloor(c) >= 0.0 then Shaped(c.baseRPS, 0.05, Min(c.weekendFactor, 0.92), NoiseFloor(c))
    else Shaped(c.baseRPS, DiurnalPeak(c), WeeklyPeak(c), NoiseFloor(c))
  }

  /** No request rate ever falls below this, however the noise goes. */
  function LeastRate(c: Config): real { Max(c.minRPS, LeastShaped(c)) }

  function Shaped(base: real, diurnal: real, weekly: real, noise: real): real { base * diurnal * weekly * noise }

  function Rate(c: Config, diurnal: real, weekly: real, noise: real): real {
    Max(c.minRPS, Shaped(c.baseRPS, diurnal, weekly, noise))
  }

  lemma Times(a: real, b: real, c: real, d: real)
    requires 0.0 <= a <= c && 0.0 <= b <= d
    ensures 0.0 <= a * b <= c * d
  {
    assert a * b <= c * b;
    assert c * b <= c * d;
  }

  lemma HumpsBound(a: real, u: real, dip: real, g: real)
    requires a > 0.0 && u <= 1.05 && 0.0 < g <= 1.0
    ensures Humps(a, u, dip, g) <= 1.0 + a + Max(-dip, 0.0)
  {
    assert a * u <= a * 1.05;
    if dip >= 0.0 {
      assert dip * g >= 0.0;
    } else {
      assert (-dip) * g <= -dip;
    }
  }

  lemma DiurnalInRange(c: Config, m: Moment)
    requires ValidMoment(m)
    ensures 0.05 <= Diurnal(c, m) <= DiurnalPeak(c)
  {
    if c.amplitude > 0.0 {
      HumpsBound(c.amplitude, 0.7 * m.mainCos + 0.35 * m.secondCos, c.lunchDip, m.gauss);
    }
  }

  /** A non-negative rate times a noise of either sign. */
  lemma Noisy(x: real, n: real, y: real, n': real)
    requires 0.0 <= x <= y && n <= n' && 0.0 <= n'
    ensures x * n <= y * n'
  {
    if n >= 0.0 {
      Times(x, n, y, n');
    } else {
      assert x * n <= 0.0;
      Times(0.0, 0.0, y, n');
    }
  }

  lemma ShapedInRange(base: real, d: real, w: real, d': real, w': real, n: real, n': real)
    requires 0.0 <= base && 0.0 <= d <= d' && 0.0 <= w <= w' && n <= n' && 0.0 <= n'
    ensures Shaped(base, d, w, n) <= Shaped(base, d', w', n')
  {
    Times(base, d, base, d');
    var x, x' := base * d, base * d';
    Times(x, w, x', w');
    var y, y' := x * w, x' * w';
    Noisy(y, n, y', n');
  }

  /** A non-negative rate times a noise above a negative one. */
  lemma NoisyFromBelow(x: real, n: real, y: real, n': real)
    requires 0.0 <= x <= y && n' <= n && n' < 0.0
    ensures y * n' <= x * n
  {
    if n >= 0.0 {
      Times(0.0, 0.0, x, n);
      Times(0.0, 0.0, y, -n');
      assert y * n' == -(y * -n');
    } else {
      Times(x, -n, y, -n');
      assert x * n == -(x * -n) && y * n' == -(y * -n');
    }
  }

  lemma ShapedFromBelow(base: real, d: real, w: real, d': real, w': real, n: real, n': real)
    requires 0.0 <= base && 0.0 <= d <= d' && 0.0 <= w <= w' && n' <= n && n' < 0.0
    ensures Shaped(base, d', w', n') <= Shaped(base, d, w, n)
  {
    Times(base, d, base, d');
    var x, x' := base * d, base * d';
    Times(x, w, x', w');
    var y, y' := x * w, x' * w';
    NoisyFromBelow(y, n, y', n');
  }

  lemma ShapedAboveLeast(c: Config, m: Moment, noise: real)
    requires Sane(c) && ValidMoment(m) && NoiseFloor(c) <= noise
    ensures LeastShaped(c) <= Shaped(c.baseRPS, Diurnal(c, m), Weekly(c, m), noise)
  {
    DiurnalInRange(c, m);
    if NoiseFloor(c) >= 0.0 {
      ShapedInRange(c.baseRPS, 0.05, Min(c.weekendFactor, 0.92), Diurnal(c, m), Weekly(c, m), NoiseFloor(c), noise);
    } else {
      ShapedFromBelow(c.baseRPS, Diurnal(c, m), Weekly(c, m), DiurnalPeak(c), WeeklyPeak(c), noise, NoiseFloor(c));
    }
  }

  lemma ShapedBelowPeak(c: Config, m: Moment, noise: real)
    requires Sane(c) && ValidMoment(m) && noise <= NoisePeak(c)
    ensures Shaped(c.baseRPS, Diurnal(c, m), Weekly(c, m), noise)
         <= Shaped(c.baseRPS, DiurnalPeak(c), WeeklyPeak(c), NoisePeak(c))
  {
    DiurnalInRange(c, m);
    ShapedInRange(c.baseRPS, Diurnal(c, m), Weekly(c, m), DiurnalPeak(c), WeeklyPeak(c), noise, NoisePeak(c));
  }

  /** The rate stays between what the least time of day, weekday and noise make of
      the base rate - or the configured minimum, if that is more - and what the
      greatest make of it. */
  lemma RateInRange(c: Config, m: Moment, noise: real)
    requires Sane(c) && ValidMoment(m) && NoiseFloor(c) <= noise <= NoisePeak(c)
    ensures LeastRate(c) <= Rate(c, Diurnal(c, m), Weekly(c, m), noise) <= Ceiling(c)
  {
    ShapedAboveLeast(c, m, noise);
    ShapedBelowPeak(c, m, noise);
    var x := Shaped(c.baseRPS, Diurnal(c, m), Weekly(c, m), noise);
    MaxGrows(c.minRPS, LeastShaped(c), x);
    MaxGrows(c.minRPS, x, Shaped(c.baseRPS, DiurnalPeak(c), WeeklyPeak(c), NoisePeak(c)));
  }

  /** With the default shape the least rate is 1.71 percent of the base rate, or the
      minimum rate of 0.5 if that is more, and the ceiling a little more than
      twice the base rate. */
  lemma DefaultRates(base: real, c: Config)
    requires base > 0.0 && c == Config(base, 0.6, 0.45, 0.15, 0.08, 0.2, 0.5)
    ensures LeastRate(c) == Max(0.5, base * 0.0171)
    ensures Ceiling(c) == Max(0.5, base * 2.0832)
  {
    assert base * 0.05 * 0.45 * 0.76 == base * 0.0171;
    assert base * 1.6 * 1.05 * 1.24 == base * 2.0832;
  }

  lemma MaxGrows(low: real, x: real, y: real)
    requires x <= y
    ensures low <= Max(low, x) <= Max(low, y)
  {
  }

  /** The curve of a business day, exactly: away from its floor of 0.05 the factor
      is 1 plus the amplitude times the two cosines, 0.7 and 0.35 parts of 1.05,
      less the lunch dip; without an amplitude it is 1. */
  lemma DiurnalExactly(c: Config, m: Moment)
    ensures c.amplitude <= 0.0 ==> Diurnal(c, m) == 1.0
    ensures c.amplitude > 0.0 && Diurnal(c, m) > 0.05 ==>
      (Diurnal(c, m) - 1.0 + c.lunchDip * m.gauss) * 1.05 == c.amplitude * (0.7 * m.mainCos + 0.35 * m.secondCos)
    ensures c.amplitude > 0.0 && Diurnal(c, m) <= 0.05 ==>
      (0.05 - 1.0 + c.lunchDip * m.gauss) * 1.05 >= c.amplitude * (0.7 * m.mainCos + 0.35 * m.secondCos)
  {
    var wave := 0.7 * m.mainCos + 0.35 * m.secondCos;
    WaveOver(c.amplitude * wave);
  }

  lemma WaveOver(x: real)
    ensures x / 1.05 * 1.05 == x
  {
  }

  /** The weekday: the configured fraction at the weekend, less on Fridays, more on
      Mondays. */
  lemma WeeklyExactly(c: Config, m: Moment)
    ensures m.weekday == Weekend ==> Weekly(c, m) == c.weekendFactor
    ensures m.weekday == Friday ==> Weekly(c, m) == 0.92
    ensures m.weekday == Monday ==> Weekly(c, m) == 1.05
    ensures m.weekday == Midweek ==> Weekly(c, m) == 1.0
  {
  }

  /** The rate is in proportion to the base rate, the two factors and the noise,
      unless that is below the minimum. */
  lemma RateIsInProportion(c: Config, diurnal: real, weekly: real, noise: real)
    ensures Rate(c, diurnal, weekly, noise) >= c.minRPS
    ensures Rate(c, diurnal, weekly, noise) != c.minRPS ==>
      Rate(c, diurnal, weekly, noise) == c.baseRPS * diurnal * weekly * noise
    ensures Rate(c, diurnal, weekly, noise) >= c.baseRPS * diurnal * weekly * noise
  {
  }

  // ---------- noise ----------

  /** Minutes since the last advance, at most 30. */
  function MinutesSince(last: int, t: int): real {
    var dt := (t - last) as real / MINUTE as real;
    if dt > 30.0 then 30.0 else dt
  }

  function Within(x: real, limit: real): real {
    if x > limit then limit else if x < -limit then -limit else x
  }

  function NextNoise(c: Config, noise: real, dt: real, shock: real): real {
    Within(noise - c.noiseReversion * noise * dt + c.noiseSigma * shock, 3.0 * c.noiseSigma)
  }

  function Abs(x: real): real { if x >= 0.0 then x else -x }

  /** The noise is mean-reverting only over short enough steps: left to itself a
      deviation short of the limit does not grow if and only if the reversion
      rate times the minutes since the last advance is at most 2. */
  lemma NoiseRevertsIff(c: Config, noise: real, dt: real)
    requires c.noiseSigma > 0.0 && c.noiseReversion > 0.0 && dt > 0.0
    requires 0.0 < Abs(noise) < 3.0 * c.noiseSigma
    ensures Abs(NextNoise(c, noise, dt, 0.0)) <= Abs(noise) <==> c.noiseReversion * dt <= 2.0
  {
    var k := c.noiseReversion * dt;
    assert k > 0.0;
    assert c.noiseReversion * noise * dt == noise * k;
    ScaledBy(noise, k);
  }

  /** What a shock does: as long as neither limit is reached the deviation keeps what
      reversion leaves of it and gets sigma times the shock; at a limit it stays
      at three sigma. Longer gaps than half an hour count as half an hour. */
  lemma ShocksMoveTheNoise(c: Config, noise: real, last: int, t: int, shock: real)
    requires c.noiseSigma > 0.0 && last < t
    ensures var minutes := if t - last > 30 * MINUTE then 30.0 else (t - last) as real / 60_000_000_000.0;
      var next := NextNoise(c, noise, MinutesSince(last, t), shock);
      && MinutesSince(last, t) == minutes
      && (-3.0 * c.noiseSigma < next < 3.0 * c.noiseSigma ==>
            next - noise == c.noiseSigma * shock - c.noiseReversion * noise * minutes)
      && (next == 3.0 * c.noiseSigma ==>
            noise - c.noiseReversion * noise * minutes + c.noiseSigma * shock >= 3.0 * c.noiseSigma)
  {
    MinutesAgainst(t - last, 30);
  }

  lemma MinutesAgainst(d: int, n: int)
    ensures d as real / MINUTE as real > n as real <==> d > n * MINUTE
  {
    var q := d as real / MINUTE as real;
    assert q * MINUTE as real == d as real;
  }

  /** At the default reversion the noise overshoots exactly when it was not
      advanced for more than ten minutes, say because nobody asked for the rate. */
  lemma DefaultNoiseOvershootsIff(c: Config, noise: real, last: int, t: int)
    requires c.noiseSigma > 0.0 && c.noiseReversion == 0.2 && last < t
    requires 0.0 < Abs(noise) < 3.0 * c.noiseSigma
    ensures Abs(NextNoise(c, noise, MinutesSince(last, t), 0.0)) > Abs(noise) <==> t - last > 10 * MINUTE
  {
    var dt := MinutesSince(last, t);
    MinutesInOrder(t - last);
    NoiseRevertsIff(c, noise, dt);
  }

  lemma MinutesInOrder(d: int)
    requires d > 0
    ensures d as real / MINUTE as real > 0.0
    ensures d as real / MINUTE as real > 10.0 <==> d > 10 * MINUTE
  {
    var q := d as real / MINUTE as real;
    assert q * MINUTE as real == d as real;
  }

  /** After a quarter of an hour the default noise doubles a deviation of half a
      sigma, with the other sign. */
  lemma QuarterHourOvershoots(c: Config, last: int)
    requires c.noiseSigma == 0.08 && c.noiseReversion == 0.2
    ensures NextNoise(c, 0.04, MinutesSince(last, last + 15 * MINUTE), 0.0) == -0.08
  {
    assert MinutesSince(last, last + 15 * MINUTE) == 15.0;
  }

  lemma ScaledBy(x: real, k: real)
    requires x != 0.0 && k > 0.0
    ensures Abs(x - x * k) <= Abs(x) <==> k <= 2.0
  {
    var a := if x > 0.0 then x else -x;
    Ordered(a, k, 2.0);
    Positive(a, k);
    if x < 0.0 { assert a * k == -(x * k); }
  }

  lemma Ordered(x: real, k: real, m: real)
    requires x > 0.0
    ensures x * k <= m * x <==> k <= m
  {
    if k <= m { Times(0.0, 0.0, x, m - k); } else { Times(0.0, 0.0, x, k - m); Positive(x, k - m); }
    assert x * (m - k) == m * x - x * k;
  }

  lemma Positive(x: real, y: real)
    requires x > 0.0 && y > 0.0
    ensures x * y > 0.0
  {
  }

  // ---------- the shape ----------

  /** The deviation and when it was last advanced. */
  datatype Drift = Drift(noise: real, last: int)

  /** The clock only moves the noise forward. */
  function Drifted(c: Config, d: Drift, t: int, shock: real): Drift {
    if c.noiseSigma <= 0.0 || t <= d.last then d
    else Drift(NextNoise(c, d.noise, MinutesSince(d.last, t), shock), t)
  }

  function FactorOf(c: Config, d: Drift): real { if c.noiseSigma <= 0.0 then 1.0 else 1.0 + d.noise }

  /** The rate with the noise as it stands. */
  function RateUnder(c: Config, d: Drift, m: Moment): real {
    Rate(c, Diurnal(c, m), Weekly(c, m), FactorOf(c, d))
  }

  /** What a shape makes of its configuration: 10 requests a second, 45 percent at
      weekends and a reversion of 0.2 where those are missing. */
  lemma DefaultsExactly(c: Config)
    ensures var d := WithDefaults(c);
      && d == c.(baseRPS := d.baseRPS, weekendFactor := d.weekendFactor, noiseReversion := d.noiseReversion)
      && (c.baseRPS > 0.0 ==> d.baseRPS == c.baseRPS) && (c.baseRPS <= 0.0 ==> d.baseRPS == 10.0)
      && (c.weekendFactor > 0.0 ==> d.weekendFactor == c.weekendFactor)
      && (c.weekendFactor <= 0.0 ==> d.weekendFactor == 0.45)
      && (c.noiseReversion > 0.0 ==> d.noiseReversion == c.noiseReversion)
      && (c.noiseReversion <= 0.0 ==> d.noiseReversion == 0.2)
  {
  }

  /** A clock that has not moved leaves the noise alone, and so does a sigma of zero. */
  lemma NoiseOnlyMovesForward(c: Config, d: Drift, t: int, shock: real)
    ensures t <= d.last || c.noiseSigma <= 0.0 ==> Drifted(c, d, t, shock) == d
    ensures t > d.last && c.noiseSigma > 0.0 ==> Drifted(c, d, t, shock).last == t
    ensures c.noiseSigma <= 0.0 ==> FactorOf(c, d) == 1.0
    ensures c.noiseSigma > 0.0 ==> FactorOf(c, d) - d.noise == 1.0
  {
  }

  class Shape {
    const cfg: Config
    var noise: real
    var lastNoise: int

    constructor (given: Config, now: int)
      ensures cfg == WithDefaults(given) && Valid() && noise == 0.0 && lastNoise == now
    {
      var c := given;
      if c.baseRPS <= 0.0 { c := c.(baseRPS := 10.0); }
      if c.weekendFactor <= 0.0 { c := c.(weekendFactor := 0.45); }
      if c.noiseReversion <= 0.0 { c := c.(noiseReversion := 0.2); }
      cfg, noise, lastNoise := c, 0.0, now;
    }

    /** The deviation never leaves three sigma. */
    predicate Valid()
      reads this
    {
      Sane(cfg) && -3.0 * Max(cfg.noiseSigma, 0.0) <= noise <= 3.0 * Max(cfg.noiseSigma, 0.0)
    }

    /** Advances the noise; `shock` is the random step, square root and all. */
    method NoiseFactor(t: int, shock: real) returns (f: real)
      requires Valid()
      modifies this
      ensures Valid()
      ensures f == FactorOf(cfg, Now())
      ensures NoiseFloor(cfg) <= f <= NoisePeak(cfg)
      ensures Now() == Drifted(cfg, old(Now()), t, shock)
    {
      if cfg.noiseSigma <= 0.0 { return 1.0; }
      if t > lastNoise {
        var dtMin := (t - lastNoise) as real / MINUTE as real;
        if dtMin > 30.0 { dtMin := 30.0; }
        noise := Advanced(cfg, noise, dtMin, shock);
        lastNoise := t;
      }
      return 1.0 + noise;
    }

    static method Advanced(c: Config, noise: real, dtMin: real, shock: real) returns (n: real)
      requires c.noiseSigma > 0.0
      ensures n == NextNoise(c, noise, dtMin, shock)
      ensures -3.0 * c.noiseSigma <= n <= 3.0 * c.noiseSigma
    {
      n := noise - c.noiseReversion * noise * dtMin + c.noiseSigma * shock;
      var limit := 3.0 * c.noiseSigma;
      if n > limit { n := limit; }
      if n < -limit { n := -limit; }
    }

    function Now(): Drift
      reads this
    {
      Drift(noise, lastNoise)
    }

    /** The rate is shaped by the advanced noise, and stays in range. */
    method RPSAt(t: int, m: Moment, shock: real) returns (rps: real)
      requires Valid() && ValidMoment(m)
      modifies this
      ensures Valid() && LeastRate(cfg) <= rps <= Ceiling(cfg)
      ensures Now() == Drifted(cfg, old(Now()), t, shock)
      ensures rps == RateUnder(cfg, Now(), m)
    {
      var factor := NoiseFactor(t, shock);
      RateInRange(cfg, m, factor);
      rps := Floored(cfg, Diurnal(cfg, m), Weekly(cfg, m), factor);
    }

    static method Floored(c: Config, diurnal: real, weekly: real, factor: real) returns (rps: real)
      ensures rps == Rate(c, diurnal, weekly, factor)
    {
      rps := c.baseRPS * diurnal * weekly * factor;
      if rps < c.minRPS { return c.minRPS; }
    }
  }

  // ---------- journeys ----------

  datatype Journey = Journey(name: string, weight: real, steps: nat)

  const JOURNEYS: seq<Journey> := [
    Journey("browser", 0.46, 4),
    Journey("buyer", 0.27, 5),
    Journey("returning-quick-check", 0.17, 2),
    Journey("signup", 0.07, 4),
    Journey("converter", 0.03, 3)
  ]

  function StepWeight(js: seq<Journey>): real {
    if js == [] then 0.0 else StepWeight(js[..|js| - 1]) + js[|js| - 1].steps as real * js[|js| - 1].weight
  }

  function TotalWeight(js: seq<Journey>): real {
    if js == [] then 0.0 else TotalWeight(js[..|js| - 1]) + js[|js| - 1].weight
  }

  /** One more journey adds its weight, and its steps times its weight. */
  lemma MixGrows(js: seq<Journey>, k: nat)
    requires k < |js|
    ensures StepWeight(js[..k + 1]) == StepWeight(js[..k]) + js[k].steps as real * js[k].weight
    ensures TotalWeight(js[..k + 1]) == TotalWeight(js[..k]) + js[k].weight
  {
    assert js[..k + 1][..k] == js[..k] && js[..k + 1][k] == js[k];
  }

  lemma JourneyMix()
    ensures StepWeight(JOURNEYS) == 3.9 && TotalWeight(JOURNEYS) == 1.0
  {
    var js := JOURNEYS;
    MixGrows(js, 0);
    MixGrows(js, 1);
    MixGrows(js, 2);
    MixGrows(js, 3);
    MixGrows(js, 4);
    assert js[..0] == [] && js[..5] == js;
  }

  /** The journey mix has 3.9 requests in the average session. */
  method AvgStepsPerJourney() returns (avg: real)
    ensures avg == 3.9
  {
    var total, weight := 0.0, 0.0;
    for i := 0 to |JOURNEYS|
      invariant total == StepWeight(JOURNEYS[..i]) && weight == TotalWeight(JOURNEYS[..i])
    {
      MixGrows(JOURNEYS, i);
      total := total + JOURNEYS[i].steps as real * JOURNEYS[i].weight;
      weight := weight + JOURNEYS[i].weight;
    }
    assert JOURNEYS[..|JOURNEYS|] == JOURNEYS;
    JourneyMix();
    avg := total / weight;
  }

  // ---------- launching sessions ----------

  /** Users leave a degraded site: full traffic in full health, 0.55 at none. */
  function HealthFactor(health: real): real { 0.55 + 0.45 * health }

  /** What one tick of a quarter second adds to the budget. */
  function Accrual(targetRPS: real): real { targetRPS / 3.9 * 0.25 }

  /** What one tick adds at a given rate and health of the system. */
  function Earned(rps: real, health: real): real { Accrual(rps * HealthFactor(health)) }

  /** What wakes the main loop: a tick of the launcher, or the minute log, which
      also asks for the rate and so advances the noise. */
  datatype Wakeup = Tick(t: int, m: Moment, shock: real, health: real) | Log(t: int, m: Moment, shock: real)

  predicate ValidWakeup(w: Wakeup) {
    ValidMoment(w.m) && (w.Tick? ==> 0.0 <= w.health <= 1.0)
  }

  /** What the wakeup earns, with the noise already advanced for it. */
  function Yield(c: Config, d: Drift, w: Wakeup): seq<real> {
    if w.Tick? then [Earned(RateUnder(c, d, w.m), w.health)] else []
  }

  /** What each tick of a sequence of wakeups earns, beginning with the noise at d. */
  function Earnings(c: Config, d: Drift, ws: seq<Wakeup>): seq<real>
    decreases |ws|
  {
    if ws == [] then []
    else
      var d' := Drifted(c, d, ws[0].t, ws[0].shock);
      Yield(c, d', ws[0]) + Earnings(c, d', ws[1..])
  }

  function Sum(xs: seq<real>): real { if xs == [] then 0.0 else xs[0] + Sum(xs[1..]) }

  class Launcher {
    const shape: Shape
    const stepsPerJourney: real
    var budget: real
    var launched: nat

    constructor (shape: Shape, stepsPerJourney: real)
      requires shape.Valid() && stepsPerJourney == 3.9
      ensures this.shape == shape && Valid() && launched == 0 && budget == 0.0
    {
      this.shape, this.stepsPerJourney, budget, launched := shape, stepsPerJourney, 0.0, 0;
    }

    /** Less than one session is ever held back, and none is owed unless the rate
        can become negative. */
    ghost predicate Valid()
      reads this, shape
    {
      shape.Valid() && stepsPerJourney == 3.9 && budget < 1.0 && (LeastRate(shape.cfg) >= 0.0 ==> budget >= 0.0)
    }

    /** Everything accrued so far: launched, or still in the budget. */
    ghost function Held(): real
      reads this
    {
      launched as real + budget
    }

    /** The main loop over the wakeups before it is cancelled. What is launched and
        what is held back together grow by the sum of what the ticks earn. */
    method Run(ws: seq<Wakeup>)
      requires Valid() && forall w :: w in ws ==> ValidWakeup(w)
      modifies this, shape
      ensures Valid() && launched >= old(launched)
      ensures Held() == old(Held()) + Sum(Earnings(shape.cfg, old(shape.Now()), ws))
      ensures LeastRate(shape.cfg) >= 0.0 ==>
        launched == (old(Held()) + Sum(Earnings(shape.cfg, old(shape.Now()), ws))).Floor
    {
      for i := 0 to |ws|
        invariant Valid() && launched >= old(launched)
        invariant Held() + Sum(Earnings(shape.cfg, shape.Now(), ws[i..]))
               == old(Held()) + Sum(Earnings(shape.cfg, old(shape.Now()), ws))
      {
        assert ws[i..][0] == ws[i] && ws[i..][1..] == ws[i + 1..];
        OnWakeup(ws[i], ws[i + 1..]);
        assert [ws[i]] + ws[i + 1..] == ws[i..];
      }
      assert ws[|ws|..] == [];
    }

    method OnWakeup(w: Wakeup, ghost rest: seq<Wakeup>)
      requires Valid() && ValidWakeup(w)
      modifies this, shape
      ensures Valid() && launched >= old(launched)
      ensures Held() + Sum(Earnings(shape.cfg, shape.Now(), rest))
           == old(Held()) + Sum(Earnings(shape.cfg, old(shape.Now()), [w] + rest))
    {
      ghost var d := shape.Now();
      if w.Tick? { OnTick(w.t, w.m, w.shock, w.health); } else { var rps := shape.RPSAt(w.t, w.m, w.shock); }
      EarningsStep(shape.cfg, d, w, rest);
    }

    method OnTick(t: int, m: Moment, shock: real, health: real)
      requires Valid() && ValidMoment(m) && 0.0 <= health <= 1.0
      modifies this, shape
      ensures Valid() && launched >= old(launched)
      ensures shape.Now() == Drifted(shape.cfg, old(shape.Now()), t, shock)
      ensures Held() == old(Held()) + Earned(RateUnder(shape.cfg, shape.Now(), m), health)
    {
      var rps := shape.RPSAt(t, m, shock);
      EarnedInRange(shape.cfg, rps, health);
      var earned := SessionsPerTick(rps, health);
      Accrue(earned);
    }

    method SessionsPerTick(rps: real, health: real) returns (x: real)
      requires stepsPerJourney == 3.9
      ensures x == Earned(rps, health)
    {
      var target := rps * HealthFactor(health);
      var sessionsPerSec := target / stepsPerJourney;
      x := sessionsPerSec * 0.25;
    }

    /** Adds to the budget and launches whole sessions from it; the inner loop
        ends, with less than a session left. */
    method Accrue(x: real)
      requires budget < 1.0
      modifies `budget, `launched
      ensures budget < 1.0 && launched >= old(launched)
      ensures old(budget) >= 0.0 && x >= 0.0 ==> budget >= 0.0
      ensures Held() == old(Held()) + x
    {
      budget := budget + x;
      while budget >= 1.0
        invariant launched >= old(launched) && (old(budget) >= 0.0 && x >= 0.0 ==> budget >= 0.0)
        invariant Held() == old(Held()) + x
        modifies `budget, `launched
        decreases if budget >= 0.0 then budget.Floor else 0
      {
        budget := budget - 1.0;
        launched := launched + 1;
      }
    }
  }

  lemma OneMore(n: nat, x: real)
    ensures (n + 1) as real * x == n as real * x + x
  {
  }

  /** The least and the most one tick can accrue: the least rate at worst health -
      or in full health, if it is negative - and the ceiling in full health. */
  function LeastAccrual(c: Config): real { Accrual(AtWorstHealth(LeastRate(c))) }

  function AtWorstHealth(rate: real): real { if rate >= 0.0 then rate * 0.55 else rate }

  function MostAccrual(c: Config): real { Accrual(Ceiling(c)) }

  lemma HealthInRange(low: real, x: real, high: real, h: real)
    requires low <= x <= high && 0.0 <= high && 0.55 <= h <= 1.0
    ensures AtWorstHealth(low) <= x * h <= high
    ensures low >= 0.0 ==> AtWorstHealth(low) >= 0.0
  {
    if x >= 0.0 {
      Times(x, h, high, 1.0);
      if low >= 0.0 { Times(low, 0.55, x, h); }
    } else {
      Times(-x, h, -x, 1.0);
      assert x * h == -(-x * h);
    }
  }

  /** Four ticks make a second's worth of sessions of 3.9 requests each, at the rate
      for the health: all of it in full health, 55 percent at none, and in
      proportion between. */
  lemma FourTicksMakeASecond(rps: real, health: real)
    ensures 4.0 * Earned(rps, health) * 3.9 == rps * HealthFactor(health)
    ensures HealthFactor(1.0) == 1.0 && HealthFactor(0.0) == 0.55
    ensures HealthFactor(health) - HealthFactor(0.0) == (HealthFactor(1.0) - HealthFactor(0.0)) * health
  {
    var target := rps * HealthFactor(health);
    assert target / 3.9 * 3.9 == target;
  }

  lemma CeilingIsPositive(c: Config)
    requires Sane(c)
    ensures Ceiling(c) >= 0.0
  {
    Times(0.0, 0.0, c.baseRPS, DiurnalPeak(c));
    Times(0.0, 0.0, c.baseRPS * DiurnalPeak(c), WeeklyPeak(c));
    Times(0.0, 0.0, c.baseRPS * DiurnalPeak(c) * WeeklyPeak(c), NoisePeak(c));
  }

  lemma EarnedInRange(c: Config, rps: real, health: real)
    requires Sane(c) && LeastRate(c) <= rps <= Ceiling(c) && 0.0 <= health <= 1.0
    ensures LeastAccrual(c) <= Earned(rps, health) <= MostAccrual(c)
    ensures LeastRate(c) >= 0.0 ==> Earned(rps, health) >= 0.0
  {
    CeilingIsPositive(c);
    HealthInRange(LeastRate(c), rps, Ceiling(c), HealthFactor(health));
    AccrualGrows(AtWorstHealth(LeastRate(c)), rps * HealthFactor(health));
    AccrualGrows(rps * HealthFactor(health), Ceiling(c));
  }

  lemma AccrualGrows(x: real, y: real)
    requires x <= y
    ensures Accrual(x) <= Accrual(y)
    ensures x >= 0.0 ==> Accrual(x) >= 0.0
  {
  }

  lemma EarningsStep(c: Config, d: Drift, w: Wakeup, rest: seq<Wakeup>)
    ensures var d' := Drifted(c, d, w.t, w.shock);
      Sum(Earnings(c, d, [w] + rest)) == Sum(Yield(c, d', w)) + Sum(Earnings(c, d', rest))
    ensures w.Tick? ==>
      Sum(Yield(c, Drifted(c, d, w.t, w.shock), w)) == Earned(RateUnder(c, Drifted(c, d, w.t, w.shock), w.m), w.health)
    ensures w.Log? ==> Sum(Yield(c, Drifted(c, d, w.t, w.shock), w)) == 0.0
  {
    assert ([w] + rest)[1..] == rest;
    var d' := Drifted(c, d, w.t, w.shock);
    SumConcat(Yield(c, d', w), Earnings(c, d', rest));
    if w.Tick? { SumOne(Earned(RateUnder(c, d', w.m), w.health)); }
  }

  lemma SumOne(x: real)
    ensures Sum([x]) == x
  {
    assert [x][1..] == [];
  }

  lemma {:induction false} SumConcat(a: seq<real>, b: seq<real>)
    ensures Sum(a + b) == Sum(a) + Sum(b)
  {
    if a == [] {
      assert a + b == b;
    } else {
      assert (a + b)[1..] == a[1..] + b;
      SumConcat(a[1..], b);
    }
  }

  predicate Clamped(c: Config, d: Drift) {
    -3.0 * Max(c.noiseSigma, 0.0) <= d.noise <= 3.0 * Max(c.noiseSigma, 0.0)
  }

  lemma DriftStaysClamped(c: Config, d: Drift, t: int, shock: real)
    requires Clamped(c, d)
    ensures Clamped(c, Drifted(c, d, t, shock))
  {
  }

  lemma YieldInRange(c: Config, d: Drift, w: Wakeup)
    requires Sane(c) && Clamped(c, d) && ValidWakeup(w)
    ensures forall x :: x in Yield(c, d, w) ==> LeastAccrual(c) <= x <= MostAccrual(c)
    ensures |Yield(c, d, w)| == if w.Tick? then 1 else 0
  {
    if w.Tick? {
      RateInRange(c, w.m, FactorOf(c, d));
      EarnedInRange(c, RateUnder(c, d, w.m), w.health);
    }
  }

  /** Whatever the shocks, every tick earns between the least and the most a tick
      can accrue, and nothing else earns. */
  lemma {:induction false} EarningsInRange(c: Config, d: Drift, ws: seq<Wakeup>)
    requires Sane(c) && Clamped(c, d) && forall w :: w in ws ==> ValidWakeup(w)
    ensures forall x :: x in Earnings(c, d, ws) ==> LeastAccrual(c) <= x <= MostAccrual(c)
    ensures |Earnings(c, d, ws)| == Ticks(ws)
    decreases |ws|
  {
    if ws != [] {
      var d' := Drifted(c, d, ws[0].t, ws[0].shock);
      DriftStaysClamped(c, d, ws[0].t, ws[0].shock);
      YieldInRange(c, d', ws[0]);
      EarningsInRange(c, d', ws[1..]);
    }
  }

  function Ticks(ws: seq<Wakeup>): nat {
    if ws == [] then 0 else (if ws[0].Tick? then 1 else 0) + Ticks(ws[1..])
  }

  /** n ticks that earn x each. */
  function Repeated(n: nat, x: real): real { if n == 0 then 0.0 else x + Repeated(n - 1, x) }

  lemma {:induction false} RepeatedIsProduct(n: nat, x: real)
    ensures Repeated(n, x) == n as real * x
  {
    if n > 0 {
      RepeatedIsProduct(n - 1, x);
      OneMore(n - 1, x);
    }
  }

  lemma {:induction false} SumInRange(xs: seq<real>, least: real, most: real)
    requires forall x :: x in xs ==> least <= x <= most
    ensures Repeated(|xs|, least) <= Sum(xs) <= Repeated(|xs|, most)
    ensures Repeated(|xs|, least).Floor <= Sum(xs).Floor <= Repeated(|xs|, most).Floor
  {
    if xs != [] {
      assert xs[0] in xs && forall x :: x in xs[1..] ==> x in xs;
      SumInRange(xs[1..], least, most);
    }
  }

  /** The launcher in closed form: after any wakeups a new launcher has launched
      the whole part of the sum of what the ticks earned, which for n ticks lies
      between n times the least and n times the most one can accrue. If the least
      rate is negative - a negative minimum and three sigma above 1 - ticks can
      run the budget into debt, and the sum only bounds what was launched from
      below. */
  method RunJourneyMode(shape: Shape, ws: seq<Wakeup>) returns (launched: nat)
    requires shape.Valid()
    requires forall w :: w in ws ==> ValidWakeup(w)
    modifies shape
    ensures Sum(Earnings(shape.cfg, old(shape.Now()), ws)) < launched as real + 1.0
    ensures LeastRate(shape.cfg) >= 0.0 ==>
      && launched == Sum(Earnings(shape.cfg, old(shape.Now()), ws)).Floor
      && Repeated(Ticks(ws), LeastAccrual(shape.cfg)).Floor <= launched
      && launched <= Repeated(Ticks(ws), MostAccrual(shape.cfg)).Floor
  {
    var stepsPerJourney := AvgStepsPerJourney();
    TotalInRange(shape.cfg, shape.Now(), ws);
    var l := new Launcher(shape, stepsPerJourney);
    l.Run(ws);
    launched := l.launched;
  }

  /** The whole part of the sum can be the number of sessions only if it is never
      negative, and that is so if and only if the configured minimum rate is not
      negative or three sigma are at most 1. */
  lemma SumIsNeverNegativeIff(c: Config, d: Drift)
    requires Sane(c) && Clamped(c, d)
    ensures (forall ws | forall w :: w in ws ==> ValidWakeup(w) :: Sum(Earnings(c, d, ws)) >= 0.0) <==>
            c.minRPS >= 0.0 || NoiseFloor(c) >= 0.0
    ensures LeastRate(c) >= 0.0 <==> c.minRPS >= 0.0 || NoiseFloor(c) >= 0.0
  {
    LeastRateSign(c);
    if LeastRate(c) >= 0.0 {
      forall ws | forall w :: w in ws ==> ValidWakeup(w) ensures Sum(Earnings(c, d, ws)) >= 0.0 {
        EarningsInRange(c, d, ws);
        AtLeastZeroEach(Earnings(c, d, ws), LeastAccrual(c));
      }
    } else {
      var w := LowPoint(c, d);
      LowPointEarnsLess(c, d);
      assert [w] + [] == [w];
      EarningsStep(c, d, w, []);
      assert Sum(Earnings(c, d, [w])) < 0.0;
    }
  }

  lemma LeastRateSign(c: Config)
    requires Sane(c)
    ensures LeastRate(c) >= 0.0 <==> c.minRPS >= 0.0 || NoiseFloor(c) >= 0.0
    ensures NoiseFloor(c) >= 0.0 ==> LeastShaped(c) >= 0.0
    ensures LeastRate(c) >= 0.0 ==> LeastAccrual(c) >= 0.0
  {
    if NoiseFloor(c) >= 0.0 {
      var low := Min(c.weekendFactor, 0.92);
      Times(0.0, 0.0, c.baseRPS * 0.05, low);
      Times(0.0, 0.0, c.baseRPS * 0.05 * low, NoiseFloor(c));
    } else {
      SignOfShaped(c.baseRPS, DiurnalPeak(c), WeeklyPeak(c), NoiseFloor(c));
    }
  }

  lemma SignOfShaped(base: real, d: real, w: real, n: real)
    requires base > 0.0 && d > 0.0 && w > 0.0 && n < 0.0
    ensures Shaped(base, d, w, n) < 0.0
  {
    Positive(base, d);
    Positive(base * d, w);
    Positive(base * d * w, -n);
    assert base * d * w * n == -(base * d * w * -n);
  }

  lemma {:induction false} AtLeastZeroEach(xs: seq<real>, least: real)
    requires least >= 0.0 && forall x :: x in xs ==> least <= x
    ensures Sum(xs) >= 0.0
  {
    if xs != [] {
      assert xs[0] in xs && forall x :: x in xs[1..] ==> x in xs;
      AtLeastZeroEach(xs[1..], least);
    }
  }

  /** A tick whose shock takes the noise to its lower limit. */
  function LowPoint(c: Config, d: Drift): Wakeup
    requires c.noiseSigma > 0.0
  {
    var dt := MinutesSince(d.last, d.last + MINUTE);
    Tick(d.last + MINUTE, Moment(0.0, 0.0, 1.0, Midweek),
         -3.0 - (d.noise - c.noiseReversion * d.noise * dt) / c.noiseSigma, 1.0)
  }

  lemma LowPointEarnsLess(c: Config, d: Drift)
    requires Sane(c) && c.minRPS < 0.0 && NoiseFloor(c) < 0.0
    ensures var w := LowPoint(c, d);
      ValidWakeup(w) && Earned(RateUnder(c, Drifted(c, d, w.t, w.shock), w.m), w.health) < 0.0
  {
    var w := LowPoint(c, d);
    var d' := Drifted(c, d, w.t, w.shock);
    var dt := MinutesSince(d.last, d.last + MINUTE);
    ShockTo(d.noise - c.noiseReversion * d.noise * dt, c.noiseSigma);
    assert d'.noise == -3.0 * c.noiseSigma;
    DiurnalInRange(c, w.m);
    SignOfShaped(c.baseRPS, Diurnal(c, w.m), Weekly(c, w.m), FactorOf(c, d'));
  }

  lemma ShockTo(x: real, sigma: real)
    requires sigma > 0.0
    ensures x + sigma * (-3.0 - x / sigma) == -3.0 * sigma
  {
    var q := x / sigma;
    assert q * sigma == x;
    assert sigma * (-3.0 - q) == -3.0 * sigma - q * sigma;
  }

  lemma TotalInRange(c: Config, d: Drift, ws: seq<Wakeup>)
    requires Sane(c) && Clamped(c, d) && forall w :: w in ws ==> ValidWakeup(w)
    ensures Repeated(Ticks(ws), LeastAccrual(c)).Floor <= Sum(Earnings(c, d, ws)).Floor
    ensures Sum(Earnings(c, d, ws)).Floor <= Repeated(Ticks(ws), MostAccrual(c)).Floor
  {
    EarningsInRange(c, d, ws);
    SumInRange(Earnings(c, d, ws), LeastAccrual(c), MostAccrual(c));
  }
}
