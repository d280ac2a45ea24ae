/**
The effective intensity a service reads: base intensity, times the onset shape
at this instant, times the scope fraction, divided by the simulated capacity.
*/
module ChaosShape {
  import opened Common
  import opened Chaos
  import opened ChaosRuns

  function Seconds(d: int): real { d as real / 1_000_000_000.0 }

  /** Conversion of a float to an integer, towards zero. */
  function Truncate(x: real): int { if x >= 0.0 then x.Floor else -(-x).Floor }

  function SquareWave(elapsed: real, period: real): real
    requires period > 0.0
  {
    if Truncate(elapsed / period) % 2 == 0 then 1.0 else 0.0
  }

  function OnsetFactor(s: State, now: int): real {
    var elapsed := Seconds(now - s.startedAt);
    match s.onset
    case Ramp =>
      if s.rampSeconds <= 0.0 then 1.0 else Min(1.0, elapsed / s.rampSeconds)
    case SlowLeak =>
      var total := if s.sticky || Seconds(s.duration) <= 0.0 then Seconds(30 * MINUTE) else Seconds(s.duration);
      Min(1.0, elapsed / total)
    case Flap =>
      SquareWave(elapsed, if s.flapPeriodSeconds <= 0.0 then 60.0 else s.flapPeriodSeconds)
    case _ => 1.0
  }

  predicate CapacitySensitive(ct: ChaosType) {
    ct.LatencyInjection? || ct.DBSlow? || ct.QueueBacklog? || ct.CPUStress?
  }

  function CapacityFor(w: World, ct: ChaosType): (c: real)
    ensures c >= 1.0
  {
    if CapacitySensitive(ct) && w.capacity >= 1.0 then w.capacity else 1.0
  }

  /** Base intensity times onset factor, times the scope fraction if there is one. */
  function Scoped(s: State, factor: real): real {
    Narrow(s.intensity * factor, s.scopePercent)
  }

  function Narrow(x: real, scope: real): real {
    if 0.0 < scope < 1.0 then x * scope else x
  }

  function EffectiveIntensity(w: World, ct: ChaosType): real {
    if !IsActive(w, ct) then 0.0
    else Scoped(w.states[ct], OnsetFactor(w.states[ct], w.now)) / CapacityFor(w, ct)
  }

  // ---------- arithmetic ----------

  lemma ProductInRange(a: real, b: real)
    requires 0.0 <= a && 0.0 <= b <= 1.0
    ensures 0.0 <= a * b <= a
  {
  }

  lemma ProductMonotone(a: real, b: real, c: real)
    requires a <= b && 0.0 <= c
    ensures c * a <= c * b && a * c <= b * c
  {
  }

  lemma ProductStrict(a: real, b: real, c: real)
    requires a < b && 0.0 < c
    ensures c * a < c * b && a * c < b * c
  {
  }

  lemma QuotientUnique(a: real, c: real, q: real)
    requires c > 0.0 && q * c == a
    ensures a / c == q
  {
    assert (a / c) * c == a;
    assert (a / c - q) * c == 0.0;
  }

  lemma AtLeast(q: real, c: real, m: real, a: real)
    requires q * c == a && c > 0.0
    ensures q >= m <==> a >= m * c
  {
    if q >= m { ProductMonotone(m, q, c); } else { ProductStrict(q, m, c); }
  }

  lemma QuotientAtLeast(a: real, c: real, m: real)
    requires c > 0.0
    ensures a / c >= m <==> a >= m * c
  {
    AtLeast(a / c, c, m, a);
  }

  lemma QuotientMonotone(a: real, b: real, c: real)
    requires a <= b && c > 0.0
    ensures a / c <= b / c
  {
  }

  lemma QuotientAntitone(a: real, c: real, d: real)
    requires a >= 0.0 && 0.0 < c <= d
    ensures 0.0 <= a / d <= a / c
    ensures a / d > 0.0 <==> a > 0.0
  {
    var q := a / d;
    assert q * d == a;
    assert q >= 0.0;
    assert q * c <= q * d;
    var p := a / c;
    assert p * c == a;
    if p < q { ProductStrict(p, q, c); }
  }

  // ---------- range ----------

  lemma OnsetFactorInRange(s: State, now: int)
    requires s.startedAt <= now
    ensures 0.0 <= OnsetFactor(s, now) <= 1.0
  {
  }

  lemma NarrowInRange(x: real, scope: real)
    requires 0.0 <= x
    ensures 0.0 <= Narrow(x, scope) <= x
  {
  }

  lemma NarrowMonotone(x: real, y: real, scope: real)
    requires x <= y
    ensures Narrow(x, scope) <= Narrow(y, scope)
  {
  }

  lemma NarrowedProductInRange(base: real, factor: real, scope: real)
    requires 0.0 <= base && 0.0 <= factor <= 1.0
    ensures 0.0 <= Narrow(base * factor, scope) <= base
  {
    var x := base * factor;
    assert 0.0 <= x <= base by { ProductInRange(base, factor); }
    NarrowInRange(x, scope);
  }

  lemma ScopedInRange(s: State, factor: real)
    requires 0.0 <= s.intensity && 0.0 <= factor <= 1.0
    ensures 0.0 <= Scoped(s, factor) <= s.intensity
  {
    NarrowedProductInRange(s.intensity, factor, s.scopePercent);
  }

  lemma ScopedMonotone(s: State, f: real, g: real)
    requires 0.0 <= s.intensity && f <= g
    ensures Scoped(s, f) <= Scoped(s, g)
  {
    ProductMonotone(f, g, s.intensity);
    NarrowMonotone(s.intensity * f, s.intensity * g, s.scopePercent);
  }

  /** In every reachable state the effective intensity of an active fault lies
      between zero and its base intensity, which is at most one. */
  lemma EffectiveIntensityInRange(w: World, ct: ChaosType)
    requires Inv(w) && IsActive(w, ct)
    ensures 0.0 <= EffectiveIntensity(w, ct) <= w.states[ct].intensity <= 1.0
  {
    assert GoodState(w, ct);
    var s := w.states[ct];
    OnsetFactorInRange(s, w.now);
    ScopedInRange(s, OnsetFactor(s, w.now));
    var x := Scoped(s, OnsetFactor(s, w.now));
    QuotientAntitone(x, 1.0, CapacityFor(w, ct));
    QuotientUnique(x, 1.0, x);
  }

  // ---------- time ----------

  lemma OnsetFactorGrows(s: State, now: int, later: int)
    requires s.startedAt <= now <= later && s.onset != Flap
    ensures OnsetFactor(s, now) <= OnsetFactor(s, later)
  {
    var e, e' := Seconds(now - s.startedAt), Seconds(later - s.startedAt);
    assert e <= e';
    if s.onset == Ramp && s.rampSeconds > 0.0 {
      QuotientMonotone(e, e', s.rampSeconds);
    } else if s.onset == SlowLeak {
      var total := if s.sticky || Seconds(s.duration) <= 0.0 then Seconds(30 * MINUTE) else Seconds(s.duration);
      QuotientMonotone(e, e', total);
    }
  }

  /** As long as an activation that does not flap lasts, waiting never lowers
      its effective intensity. */
  lemma EffectiveIntensityGrows(w: World, ct: ChaosType, wait: nat)
    requires Inv(w) && ct in w.states && w.states[ct].onset != Flap
    requires IsActive(Next(w, Tick(wait)), ct)
    ensures EffectiveIntensity(w, ct) <= EffectiveIntensity(Next(w, Tick(wait)), ct)
  {
    assert GoodState(w, ct);
    var s := w.states[ct];
    OnsetFactorGrows(s, w.now, w.now + wait);
    ScopedMonotone(s, OnsetFactor(s, w.now), OnsetFactor(s, w.now + wait));
    QuotientMonotone(Scoped(s, OnsetFactor(s, w.now)), Scoped(s, OnsetFactor(s, w.now + wait)), CapacityFor(w, ct));
  }

  /** With full scope and a single replica, an active ramp fault has reached its
      base intensity exactly when its ramp time is over. */
  lemma RampReachesBaseExactly(w: World, ct: ChaosType)
    requires Inv(w) && IsActive(w, ct) && w.capacity == 1.0
    requires w.states[ct].onset == Ramp && w.states[ct].scopePercent == 1.0 && w.states[ct].intensity > 0.0
    ensures var s := w.states[ct];
      EffectiveIntensity(w, ct) == s.intensity <==> Seconds(w.now - s.startedAt) >= s.rampSeconds
  {
    assert GoodState(w, ct);
    var s := w.states[ct];
    QuotientAtLeast(Seconds(w.now - s.startedAt), s.rampSeconds, 1.0);
    FactorBelowOne(s.intensity, OnsetFactor(s, w.now));
    QuotientUnique(s.intensity * OnsetFactor(s, w.now), 1.0, s.intensity * OnsetFactor(s, w.now));
  }

  lemma FactorBelowOne(base: real, factor: real)
    requires base > 0.0 && factor <= 1.0
    ensures base * factor == base <==> factor == 1.0
  {
    if factor < 1.0 { ProductStrict(factor, 1.0, base); }
  }

  // ---------- scaling ----------

  /** Scaling out never raises an effective intensity, scaling in never lowers
      one, and no request to scale makes a positive one vanish. */
  lemma ScalingRelievesButNeverClears(w: World, ct: ChaosType, replicas: real)
    requires Inv(w) && ct in w.states
    ensures var w' := Next(w, Scale(replicas));
      && (replicas >= w.capacity ==> EffectiveIntensity(w', ct) <= EffectiveIntensity(w, ct))
      && (replicas <= w.capacity ==> EffectiveIntensity(w', ct) >= EffectiveIntensity(w, ct))
      && (EffectiveIntensity(w', ct) > 0.0 <==> EffectiveIntensity(w, ct) > 0.0)
      && (!CapacitySensitive(ct) ==> EffectiveIntensity(w', ct) == EffectiveIntensity(w, ct))
  {
    assert GoodState(w, ct);
    var w' := Next(w, Scale(replicas));
    assert w'.states == w.states && w'.now == w.now;
    if IsActive(w, ct) {
      var s := w.states[ct];
      OnsetFactorInRange(s, w.now);
      ScopedInRange(s, OnsetFactor(s, w.now));
      var x := Scoped(s, OnsetFactor(s, w.now));
      var c, c' := CapacityFor(w, ct), CapacityFor(w', ct);
      if c <= c' { QuotientAntitone(x, c, c'); } else { QuotientAntitone(x, c', c); }
      QuotientAntitone(x, c, c);
      QuotientAntitone(x, c', c');
    }
  }

  /** Scaling to r replicas divides the effective intensity of a capacity-sensitive
      fault by r, compared with a single replica, and leaves every other fault
      as it is. A request below one replica changes nothing; a restart undoes the
      scaling, the other remediations do not. */
  lemma ScalingDividesExactly(w: World, ct: ChaosType, r: real)
    requires r >= 1.0
    ensures ct == LatencyInjection || ct == DBSlow || ct == QueueBacklog || ct == CPUStress ==>
      EffectiveIntensity(Next(w, Scale(r)), ct) * r == EffectiveIntensity(w.(capacity := 1.0), ct)
    ensures ct != LatencyInjection && ct != DBSlow && ct != QueueBacklog && ct != CPUStress ==>
      EffectiveIntensity(Next(w, Scale(r)), ct) == EffectiveIntensity(w, ct)
    ensures forall below: real :: below < 1.0 ==> Next(w, Scale(below)) == w
    ensures Next(w, Ops(Restart)).capacity == 1.0
    ensures Next(w, Ops(ResetPool)).capacity == w.capacity && Next(w, Ops(ClearBacklog)).capacity == w.capacity
  {
    var w' := Next(w, Scale(r));
    assert w'.states == w.states && w'.now == w.now && w'.capacity == r;
    if IsActive(w, ct) {
      var x := Scoped(w.states[ct], OnsetFactor(w.states[ct], w.now));
      QuotientTimes(x, r);
      QuotientUnique(x, 1.0, x);
    }
  }

  lemma QuotientTimes(a: real, c: real)
    requires c > 0.0
    ensures a / c * c == a
  {
  }

  /** Its onset has reached this part of a fault's base intensity after so many
      seconds: all of it for a step, in proportion to the time for a ramp, and for
      a slow leak over its duration, or over 30 minutes if it is sticky. */
  predicate Reached(s: State, seconds: real, factor: real)
    requires s.flapPeriodSeconds > 0.0
  {
    match s.onset
    case Ramp => InProportion(factor, seconds, s.rampSeconds)
    case SlowLeak => InProportion(factor, seconds, if s.sticky then 1800.0 else Seconds(s.duration))
    case Flap => factor == SquareWave(seconds, s.flapPeriodSeconds)
    case _ => factor == 1.0
  }

  predicate InProportion(factor: real, seconds: real, total: real) {
    if seconds >= total then factor == 1.0 else factor * total == seconds
  }

  /** The exact value of an active fault: base intensity, times the part of it its
      onset has reached, times the scope, over the replicas if the type is one
      that scaling relieves. */
  lemma EffectiveIntensityExactly(w: World, ct: ChaosType)
    requires Inv(w) && IsActive(w, ct)
    ensures var s := w.states[ct];
      EffectiveIntensity(w, ct) * Divisor(w, ct) == s.intensity * OnsetFactor(s, w.now) * s.scopePercent
  {
    ScopeIsValid(w, ct);
    ScopeMultiplies(w.states[ct].intensity, OnsetFactor(w.states[ct], w.now), w.states[ct].scopePercent);
    EffectiveIsShaped(w, ct);
  }

  /** The replicas, for the types scaling relieves. */
  function Divisor(w: World, ct: ChaosType): real {
    if ct == LatencyInjection || ct == DBSlow || ct == QueueBacklog || ct == CPUStress then w.capacity else 1.0
  }

  lemma ScopeIsValid(w: World, ct: ChaosType)
    requires Inv(w) && IsActive(w, ct)
    ensures 0.0 < w.states[ct].scopePercent <= 1.0
  {
    assert GoodState(w, ct);
  }

  lemma EffectiveIsShaped(w: World, ct: ChaosType)
    requires IsActive(w, ct) && w.capacity >= 1.0
    ensures EffectiveIntensity(w, ct) * Divisor(w, ct) == Scoped(w.states[ct], OnsetFactor(w.states[ct], w.now))
  {
    assert CapacityFor(w, ct) == Divisor(w, ct);
    QuotientTimes(Scoped(w.states[ct], OnsetFactor(w.states[ct], w.now)), Divisor(w, ct));
  }

  lemma ScopeMultiplies(base: real, factor: real, scope: real)
    requires 0.0 < scope <= 1.0
    ensures Narrow(base * factor, scope) == base * factor * scope
  {
  }

  /** The onset factor of every activation is the part reached. */
  lemma OnsetReaches(s: State, now: int)
    requires s.startedAt <= now && s.rampSeconds > 0.0 && s.flapPeriodSeconds > 0.0
    requires !s.sticky ==> s.duration > 0
    ensures Reached(s, Seconds(now - s.startedAt), OnsetFactor(s, now))
  {
    if s.onset == Ramp {
      RampReaches(s, now);
    } else if s.onset == SlowLeak {
      SlowLeakReaches(s, now);
    }
  }

  lemma RampReaches(s: State, now: int)
    requires s.startedAt <= now && s.rampSeconds > 0.0 && s.onset == Ramp
    ensures InProportion(OnsetFactor(s, now), Seconds(now - s.startedAt), s.rampSeconds)
  {
    MinOfQuotient(Seconds(now - s.startedAt), s.rampSeconds);
  }

  lemma SlowLeakReaches(s: State, now: int)
    requires s.startedAt <= now && s.onset == SlowLeak && (!s.sticky ==> s.duration > 0)
    ensures InProportion(
      OnsetFactor(s, now), Seconds(now - s.startedAt), if s.sticky then 1800.0 else Seconds(s.duration))
  {
    assert Seconds(30 * MINUTE) == 1800.0;
    MinOfQuotient(Seconds(now - s.startedAt), if s.sticky then 1800.0 else Seconds(s.duration));
  }

  lemma MinOfQuotient(e: real, total: real)
    requires e >= 0.0 && total > 0.0
    ensures InProportion(Min(1.0, e / total), e, total)
  {
    QuotientAtLeast(e, total, 1.0);
    QuotientTimes(e, total);
  }

  // ---------- flapping ----------

  lemma QuotientShift(e: real, p: real)
    requires p > 0.0
    ensures (e + p) / p == e / p + 1.0
  {
    assert (e / p) * p == e;
    QuotientUnique(e + p, p, e / p + 1.0);
  }

  lemma OnDuringMeansEven(elapsed: real, period: real, k: nat)
    requires elapsed >= 0.0 && period > 0.0
    ensures OnDuring(elapsed, period, k) <==> (elapsed / period).Floor == 2 * k
  {
    QuotientAtLeast(elapsed, period, (2 * k) as real);
    QuotientAtLeast(elapsed, period, (2 * k + 1) as real);
  }

  /** Flapping is a square wave: half a cycle later it has the other value, a
      whole cycle later the same one, and it is on exactly during the even
      half-cycles. */
  lemma FlapIsASquareWave(elapsed: real, period: real)
    requires elapsed >= 0.0 && period > 0.0
    ensures SquareWave(elapsed, period) + SquareWave(elapsed + period, period) == 1.0
    ensures SquareWave(elapsed + 2.0 * period, period) == SquareWave(elapsed, period)
    ensures SquareWave(elapsed, period) == 1.0 <==>
            exists k: nat :: OnDuring(elapsed, period, k)
  {
    QuotientShift(elapsed, period);
    QuotientShift(elapsed + period, period);
    assert elapsed + period + period == elapsed + 2.0 * period;
    var q := elapsed / period;
    assert q >= 0.0;
    assert (q + 1.0).Floor == q.Floor + 1 && (q + 1.0 + 1.0).Floor == q.Floor + 2;
    if q.Floor % 2 == 0 {
      OnDuringMeansEven(elapsed, period, q.Floor / 2);
    }
    forall k: nat | OnDuring(elapsed, period, k) ensures q.Floor % 2 == 0 {
      OnDuringMeansEven(elapsed, period, k);
    }
  }

  predicate OnDuring(elapsed: real, period: real, k: nat) {
    (2 * k) as real * period <= elapsed < (2 * k + 1) as real * period
  }
}
