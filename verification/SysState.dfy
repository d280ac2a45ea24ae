/**
The time-deterministic health schedule: 30-minute epochs, some holding one
incident, and four views of the same moment that must agree - the health score,
the mask of active faults, the health of one fault, and the phase name. A forced
scenario overrides all four until its deadline.

The random draws of an epoch are an arbitrary function of the epoch number.
*/
module SysState {
  import opened Common

  const EPOCH: int := 30 * MINUTE

  type Fault = bv32

  const NO_FAULT: Fault := 0
  const DB_CONTENTION: Fault := 0x2
  const PAYMENT_GATEWAY: Fault := 0x4
  const AUTH_SERVICE: Fault := 0x8
  const NETWORK_CONGESTION: Fault := 0x10
  const MEMORY_PRESSURE: Fault := 0x20
  const CACHE_STAMPEDE: Fault := 0x40
  const CONNECTION_POOL: Fault := 0x80
  const RETRY_STORM: Fault := 0x100
  const CLOCK_SKEW: Fault := 0x200
  const QUEUE_BACKPRESSURE: Fault := 0x400

  predicate SingleBit(f: Fault) { f != 0 && f & (f - 1) == 0 }

  datatype Incident = Incident(
    name: string,
    primary: Fault,
    cascade: Fault,
    ramp: int,
    peak: int,
    recovery: int,
    peakHealth: real
  )

  const INCIDENTS: seq<Incident> := [
    Incident("db_contention", DB_CONTENTION, NETWORK_CONGESTION, 3 * MINUTE, 8 * MINUTE, 7 * MINUTE, 0.15),
    Incident("payment_degradation", PAYMENT_GATEWAY, NO_FAULT, 2 * MINUTE, 6 * MINUTE, 8 * MINUTE, 0.20),
    Incident("auth_service_degradation", AUTH_SERVICE, NO_FAULT, 90 * SECOND, 5 * MINUTE, 5 * MINUTE, 0.25),
    Incident("network_saturation", NETWORK_CONGESTION, PAYMENT_GATEWAY | DB_CONTENTION,
             4 * MINUTE, 10 * MINUTE, 10 * MINUTE, 0.10),
    Incident("memory_pressure", MEMORY_PRESSURE, NETWORK_CONGESTION, 5 * MINUTE, 7 * MINUTE, 12 * MINUTE, 0.30),
    Incident("cache_stampede", CACHE_STAMPEDE, DB_CONTENTION, 2 * MINUTE, 8 * MINUTE, 6 * MINUTE, 0.20),
    Incident("connection_pool_exhaustion", CONNECTION_POOL, DB_CONTENTION,
             3 * MINUTE, 10 * MINUTE, 8 * MINUTE, 0.18),
    Incident("retry_amplification", RETRY_STORM, PAYMENT_GATEWAY, 3 * MINUTE, 9 * MINUTE, 6 * MINUTE, 0.22),
    Incident("clock_skew_auth", CLOCK_SKEW, AUTH_SERVICE, 90 * SECOND, 6 * MINUTE, 4 * MINUTE, 0.28),
    Incident("queue_consumer_lag", QUEUE_BACKPRESSURE, MEMORY_PRESSURE, 4 * MINUTE, 8 * MINUTE, 10 * MINUTE, 0.25)
  ]

  datatype Draws = Draws(quietRoll: real, pick: nat, lengthRoll: real)

  predicate ValidDraws(d: Draws) {
    0.0 <= d.quietRoll < 1.0 && d.pick < |INCIDENTS| && 0.0 <= d.lengthRoll < 1.0
  }

  datatype Epoch = Quiet | Troubled(inc: Incident, calm: int)

  function EpochInfo(d: Draws): Epoch
    requires ValidDraws(d)
  {
    if d.quietRoll < 0.55 then Quiet
    else Troubled(INCIDENTS[d.pick], (EPOCH as real * (0.20 + d.lengthRoll * 0.25)).Floor)
  }

  datatype Forced = Forced(inc: Incident, until: int, intensity: real)

  datatype Sys = Sys(forced: Option<Forced>, auto: bool, draws: int -> Draws)

  ghost predicate ValidSys(s: Sys) {
    && (forall n: int :: ValidDraws(s.draws(n)))
    && (s.forced.Some? ==> GoodIncident(s.forced.value.inc) && 0.1 <= s.forced.value.intensity <= 10.0)
  }

  predicate IsForced(s: Sys, t: int) { s.forced.Some? && t <= s.forced.value.until }

  function PlanAt(s: Sys, t: int): Epoch
    requires ValidDraws(s.draws(t / EPOCH))
  {
    EpochInfo(s.draws(t / EPOCH))
  }

  // ---------- the four views ----------

  /** Health at offset x into an epoch with this incident. */
  function Curve(inc: Incident, calm: int, x: int): real
    requires inc.ramp > 0 && inc.recovery > 0
  {
    var rampEnd := calm + inc.ramp;
    var peakEnd := rampEnd + inc.peak;
    if x < calm then 1.0
    else if x < rampEnd then 1.0 - Share(x - calm, inc.ramp, 1.0 - inc.peakHealth)
    else if x < peakEnd then inc.peakHealth
    else if x < peakEnd + inc.recovery then inc.peakHealth + Share(x - peakEnd, inc.recovery, 1.0 - inc.peakHealth)
    else 1.0
  }

  /** The part of a total drop reached after `d` of `span`. */
  function Share(d: int, span: int, drop: real): real
    requires span > 0
  {
    d as real / span as real * drop
  }

  function ForcedPeak(f: Forced): real
    requires f.intensity > 0.0
  {
    var pk := f.inc.peakHealth / f.intensity;
    if pk < 0.01 then 0.01 else if pk > 1.0 then 1.0 else pk
  }

  function HealthAt(s: Sys, t: int): real
    requires ValidSys(s)
  {
    if IsForced(s, t) then ForcedPeak(s.forced.value)
    else if !s.auto then 1.0
    else
      match PlanAt(s, t)
      case Quiet => 1.0
      case Troubled(inc, calm) => PlanIsGood(s, t); Curve(inc, calm, t % EPOCH)
  }

  function WholeMask(inc: Incident): Fault { inc.primary | inc.cascade }

  function ActiveFaultsAt(s: Sys, t: int): Fault
    requires ValidSys(s)
  {
    if IsForced(s, t) then WholeMask(s.forced.value.inc)
    else if HealthAt(s, t) >= 0.95 then NO_FAULT
    else
      match PlanAt(s, t)
      case Quiet => NO_FAULT
      case Troubled(inc, calm) =>
        if t % EPOCH > calm + inc.ramp / 2 then WholeMask(inc) else inc.primary
  }

  datatype Phase = Normal | Degraded | Critical | Recovering

  function StateNameAt(s: Sys, t: int): Phase
    requires ValidSys(s)
  {
    if IsForced(s, t) then Critical
    else if !s.auto then Normal
    else
      match PlanAt(s, t)
      case Quiet => Normal
      case Troubled(inc, calm) =>
        var x := t % EPOCH;
        var rampEnd := calm + inc.ramp;
        if x < calm then Normal
        else if x < rampEnd then Degraded
        else if x < rampEnd + inc.peak then Critical
        else if x < rampEnd + inc.peak + inc.recovery then Recovering
        else Normal
  }

  function UncappedPeak(f: Forced): real
    requires f.intensity > 0.0
  {
    var pk := f.inc.peakHealth / f.intensity;
    if pk < 0.01 then 0.01 else pk
  }

  /** Unlike the health score, a forced fault's health is not capped at 1. */
  function FaultHealth(s: Sys, f: Fault, t: int): real
    requires ValidSys(s)
  {
    if IsForced(s, t) then
      InvolvedHealth(s.forced.value.inc, f, UncappedPeak(s.forced.value))
    else if HealthAt(s, t) >= 0.95 then 1.0
    else
      match PlanAt(s, t)
      case Quiet => 1.0
      case Troubled(inc, _) => InvolvedHealth(inc, f, HealthAt(s, t))
  }

  function InvolvedHealth(inc: Incident, f: Fault, health: real): real {
    if inc.primary == f then Max(health * 0.5, 0.01)
    else if inc.cascade & f != 0 then Max(health * 0.75, 0.01)
    else 1.0
  }

  predicate Active(s: Sys, f: Fault, t: int)
    requires ValidSys(s)
  {
    ActiveFaultsAt(s, t) & f != 0
  }

  /** The fault takes part in the incident. */
  predicate Involved(inc: Incident, f: Fault) { f == inc.primary || inc.cascade & f != 0 }

  function ScaledErrorRate(base: real, max: real, health: real): real {
    var rate := base + (max - base) * (1.0 - health);
    if rate < 0.0 then 0.0 else if rate > 1.0 then 1.0 else rate
  }

  // ---------- the incident table ----------

  /** What the curve and the views need of an incident. The two bounds on the
      drop say that neither ramp nor recovery is steeper than 0.5 a minute. */
  predicate GoodIncident(inc: Incident) {
    && 0 < inc.ramp && 0 < inc.peak && 0 < inc.recovery
    && inc.ramp + inc.peak <= 14 * MINUTE
    && 0.1 <= inc.peakHealth <= 0.3
    && 2.0 * (1.0 - inc.peakHealth) * MINUTE as real <= inc.ramp as real
    && 2.0 * (1.0 - inc.peakHealth) * MINUTE as real <= inc.recovery as real
    && SingleBit(inc.primary) && inc.primary & inc.cascade == 0
  }

  lemma EveryIncidentIsGood(i: nat)
    requires i < |INCIDENTS|
    ensures GoodIncident(INCIDENTS[i])
  {
    if i == 0 { assert GoodIncident(INCIDENTS[0]); }
    else if i == 1 { assert GoodIncident(INCIDENTS[1]); }
    else if i == 2 { assert GoodIncident(INCIDENTS[2]); }
    else if i == 3 { assert GoodIncident(INCIDENTS[3]); }
    else if i == 4 { assert GoodIncident(INCIDENTS[4]); }
    else if i == 5 { assert GoodIncident(INCIDENTS[5]); }
    else if i == 6 { assert GoodIncident(INCIDENTS[6]); }
    else if i == 7 { assert GoodIncident(INCIDENTS[7]); }
    else if i == 8 { assert GoodIncident(INCIDENTS[8]); }
    else { assert GoodIncident(INCIDENTS[9]); }
  }

  predicate GoodCalm(calm: int) { 6 * MINUTE <= calm && 2 * calm < 27 * MINUTE }

  lemma PlanIsGood(s: Sys, t: int)
    requires ValidSys(s)
    ensures PlanAt(s, t).Troubled? ==> GoodIncident(PlanAt(s, t).inc) && GoodCalm(PlanAt(s, t).calm)
    ensures PlanAt(s, t).Troubled? ==> 6 * MINUTE <= PlanAt(s, t).calm && 2 * PlanAt(s, t).calm < 27 * MINUTE
  {
    var d := s.draws(t / EPOCH);
    assert ValidDraws(d);
    EveryIncidentIsGood(d.pick);
    var frac := 0.20 + d.lengthRoll * 0.25;
    assert 0.20 <= frac < 0.45;
    var length := EPOCH as real * frac;
    assert (6 * MINUTE) as real <= length && 2.0 * length < (27 * MINUTE) as real;
  }

  // ---------- the curve ----------

  lemma ShareAdds(a: int, b: int, span: int, drop: real)
    requires span > 0
    ensures Share(a, span, drop) + Share(b, span, drop) == Share(a + b, span, drop)
    ensures Share(span, span, drop) == drop
    ensures Share(0, span, drop) == 0.0
  {
  }

  /** A part of the drop is never negative, positive for a positive time, and
      grows by at most 0.5 a minute. */
  lemma ShareBounds(d: int, span: int, drop: real)
    requires d >= 0 && span > 0 && 0.0 < drop && 2.0 * drop * MINUTE as real <= span as real
    ensures 0.0 <= Share(d, span, drop) <= 0.5 * d as real / MINUTE as real
    ensures d > 0 ==> Share(d, span, drop) > 0.0
  {
    var q := d as real / span as real;
    assert q * span as real == d as real;
    assert q >= 0.0;
    assert q * (2.0 * drop * MINUTE as real) <= q * span as real;
  }

  lemma CurveInRange(inc: Incident, calm: int, x: int)
    requires GoodIncident(inc)
    ensures inc.peakHealth <= Curve(inc, calm, x) <= 1.0
  {
    var drop := 1.0 - inc.peakHealth;
    var rampEnd, peakEnd := calm + inc.ramp, calm + inc.ramp + inc.peak;
    if calm <= x < rampEnd {
      ShareAdds(x - calm, rampEnd - x, inc.ramp, drop);
      ShareBounds(x - calm, inc.ramp, drop);
      ShareBounds(rampEnd - x, inc.ramp, drop);
    } else if peakEnd <= x < peakEnd + inc.recovery {
      ShareAdds(x - peakEnd, peakEnd + inc.recovery - x, inc.recovery, drop);
      ShareBounds(x - peakEnd, inc.recovery, drop);
      ShareBounds(peakEnd + inc.recovery - x, inc.recovery, drop);
    }
  }

  /** Between x and y the curve changes by at most 0.5 a minute. */
  predicate Gentle(inc: Incident, calm: int, x: int, y: int)
    requires inc.ramp > 0 && inc.recovery > 0 && x <= y
  {
    var c, c' := Curve(inc, calm, x), Curve(inc, calm, y);
    var bound := 0.5 * (y - x) as real / MINUTE as real;
    -bound <= c' - c <= bound
  }

  /** The ramp, its end included, goes down as a straight line. */
  lemma OnTheRamp(inc: Incident, calm: int, x: int, y: int)
    requires GoodIncident(inc) && calm <= x <= y <= calm + inc.ramp
    ensures Curve(inc, calm, x) >= Curve(inc, calm, y)
    ensures Gentle(inc, calm, x, y)
  {
    var drop := 1.0 - inc.peakHealth;
    ShareAdds(x - calm, y - x, inc.ramp, drop);
    ShareBounds(y - x, inc.ramp, drop);
  }

  /** The recovery, its end included, goes up as a straight line. */
  lemma OnTheRecovery(inc: Incident, calm: int, x: int, y: int)
    requires GoodIncident(inc)
    requires calm + inc.ramp + inc.peak <= x <= y <= calm + inc.ramp + inc.peak + inc.recovery
    ensures Curve(inc, calm, x) <= Curve(inc, calm, y)
    ensures Gentle(inc, calm, x, y)
  {
    var drop := 1.0 - inc.peakHealth;
    var peakEnd := calm + inc.ramp + inc.peak;
    ShareAdds(x - peakEnd, y - x, inc.recovery, drop);
    ShareBounds(y - x, inc.recovery, drop);
  }

  lemma GentleJoins(inc: Incident, calm: int, x: int, m: int, y: int)
    requires inc.ramp > 0 && inc.recovery > 0 && x <= m <= y
    requires Gentle(inc, calm, x, m) && Gentle(inc, calm, m, y)
    ensures Gentle(inc, calm, x, y)
  {
    assert (y - x) as real == (y - m) as real + (m - x) as real;
  }

  function Clamp(x: int, lo: int, hi: int): int { if x < lo then lo else if x > hi then hi else x }

  /** The curve is flat before and after its two slopes. */
  lemma FlatOffTheSlopes(inc: Incident, calm: int, x: int)
    requires GoodIncident(inc)
    ensures var rampEnd, peakEnd := calm + inc.ramp, calm + inc.ramp + inc.peak;
      && (x <= peakEnd ==> Curve(inc, calm, x) == Curve(inc, calm, Clamp(x, calm, rampEnd)))
      && (x >= rampEnd ==> Curve(inc, calm, x) == Curve(inc, calm, Clamp(x, peakEnd, peakEnd + inc.recovery)))
  {
    ShareAdds(0, 0, inc.recovery, 1.0 - inc.peakHealth);
    ShareAdds(0, 0, inc.ramp, 1.0 - inc.peakHealth);
  }

  /** Up to the end of the peak the curve only falls. */
  lemma FallingHalf(inc: Incident, calm: int, x: int, y: int)
    requires GoodIncident(inc) && x <= y <= calm + inc.ramp + inc.peak
    ensures Curve(inc, calm, x) >= Curve(inc, calm, y)
    ensures Gentle(inc, calm, x, y)
  {
    var a, b := Clamp(x, calm, calm + inc.ramp), Clamp(y, calm, calm + inc.ramp);
    FlatOffTheSlopes(inc, calm, x);
    FlatOffTheSlopes(inc, calm, y);
    OnTheRamp(inc, calm, a, b);
    assert (b - a) as real <= (y - x) as real;
  }

  /** From the start of the peak on it only rises. */
  lemma RisingHalf(inc: Incident, calm: int, x: int, y: int)
    requires GoodIncident(inc) && calm + inc.ramp <= x <= y
    ensures Curve(inc, calm, x) <= Curve(inc, calm, y)
    ensures Gentle(inc, calm, x, y)
  {
    var peakEnd := calm + inc.ramp + inc.peak;
    var a, b := Clamp(x, peakEnd, peakEnd + inc.recovery), Clamp(y, peakEnd, peakEnd + inc.recovery);
    FlatOffTheSlopes(inc, calm, x);
    FlatOffTheSlopes(inc, calm, y);
    OnTheRecovery(inc, calm, a, b);
    assert (b - a) as real <= (y - x) as real;
  }

  /** Strictly inside a slope neither end value is reached. */
  lemma InsideTheSlopes(inc: Incident, calm: int, x: int)
    requires GoodIncident(inc)
    ensures var rampEnd, peakEnd := calm + inc.ramp, calm + inc.ramp + inc.peak;
      && (calm <= x < rampEnd ==> Curve(inc, calm, x) > inc.peakHealth)
      && (peakEnd <= x < peakEnd + inc.recovery ==> Curve(inc, calm, x) < 1.0)
  {
    var drop := 1.0 - inc.peakHealth;
    var rampEnd, peakEnd := calm + inc.ramp, calm + inc.ramp + inc.peak;
    if calm <= x < rampEnd {
      ShareAdds(x - calm, rampEnd - x, inc.ramp, drop);
      ShareBounds(rampEnd - x, inc.ramp, drop);
    } else if peakEnd <= x < peakEnd + inc.recovery {
      ShareAdds(x - peakEnd, peakEnd + inc.recovery - x, inc.recovery, drop);
      ShareBounds(peakEnd + inc.recovery - x, inc.recovery, drop);
    }
  }

  /** Inside one epoch, whatever the draws, the health score stays between the
      incident's peak health and 1, falls, holds, then rises, and never changes
      faster than 0.5 a minute. */
  lemma HealthCurve(s: Sys, t: int, u: int)
    requires ValidSys(s) && t <= u && t / EPOCH == u / EPOCH
    requires !IsForced(s, t) && !IsForced(s, u)
    ensures var bound := 0.5 * (u - t) as real / MINUTE as real;
      -bound <= HealthAt(s, u) - HealthAt(s, t) <= bound
    ensures s.auto && PlanAt(s, t).Troubled? ==>
      var inc := PlanAt(s, t).inc;
      var rampEnd := PlanAt(s, t).calm + inc.ramp;
      && inc.peakHealth <= HealthAt(s, t) <= 1.0
      && (u % EPOCH <= rampEnd + inc.peak ==> HealthAt(s, t) >= HealthAt(s, u))
      && (rampEnd <= t % EPOCH <= rampEnd + inc.peak ==> HealthAt(s, t) == inc.peakHealth)
      && (rampEnd <= t % EPOCH ==> HealthAt(s, t) <= HealthAt(s, u))
    ensures !(s.auto && PlanAt(s, t).Troubled?) ==> HealthAt(s, t) == 1.0
  {
    PlanIsGood(s, t);
    var x, y := t % EPOCH, u % EPOCH;
    assert y - x == u - t;
    match PlanAt(s, t)
    case Quiet =>
    case Troubled(inc, calm) =>
      ShareAdds(0, 0, inc.recovery, 1.0 - inc.peakHealth);
      CurveInRange(inc, calm, x);
      var m := calm + inc.ramp;
      if y <= m + inc.peak {
        FallingHalf(inc, calm, x, y);
      }
      if m <= x {
        RisingHalf(inc, calm, x, y);
      } else if m < y {
        FallingHalf(inc, calm, x, m);
        RisingHalf(inc, calm, m, y);
        GentleJoins(inc, calm, x, m, y);
      }
  }

  function Rank(s: Sys, t: int): nat
    requires ValidSys(s)
  {
    match StateNameAt(s, t)
    case Normal => if s.auto && PlanAt(s, t).Troubled? && t % EPOCH >= PlanAt(s, t).calm then 4 else 0
    case Degraded => 1
    case Critical => 2
    case Recovering => 3
  }

  /** Inside an epoch the phases follow one another in the order normal,
      degraded, critical, recovering, normal. */
  lemma PhasesInOrder(s: Sys, t: int, u: int)
    requires ValidSys(s) && t <= u && t / EPOCH == u / EPOCH
    requires !IsForced(s, t) && !IsForced(s, u)
    ensures Rank(s, t) <= Rank(s, u)
  {
    PlanIsGood(s, t);
    assert u % EPOCH - t % EPOCH == u - t;
  }

  /** The phase name agrees with the health score, and a critical phase always
      ends before its epoch does. */
  lemma PhaseMatchesHealth(s: Sys, t: int)
    requires ValidSys(s) && !IsForced(s, t)
    ensures StateNameAt(s, t) == Normal ==> HealthAt(s, t) == 1.0
    ensures StateNameAt(s, t) != Normal ==>
      && s.auto && PlanAt(s, t).Troubled?
      && var inc, calm := PlanAt(s, t).inc, PlanAt(s, t).calm;
      && (StateNameAt(s, t) == Critical ==> HealthAt(s, t) == inc.peakHealth)
      && (StateNameAt(s, t) == Degraded ==> inc.peakHealth < HealthAt(s, t) <= 1.0)
      && (StateNameAt(s, t) == Recovering ==> inc.peakHealth <= HealthAt(s, t) < 1.0)
      && calm + inc.ramp + inc.peak < EPOCH
  {
    PlanIsGood(s, t);
    match PlanAt(s, t)
    case Quiet =>
    case Troubled(inc, calm) =>
      CurveInRange(inc, calm, t % EPOCH);
      InsideTheSlopes(inc, calm, t % EPOCH);
  }

  /** Every epoch begins in full health, so at a boundary the score can only
      jump up; and it does so exactly when the epoch cuts the recovery short. */
  lemma BoundaryJump(s: Sys, n: int)
    requires ValidSys(s)
    requires !IsForced(s, n * EPOCH) && !IsForced(s, n * EPOCH - 1)
    ensures HealthAt(s, n * EPOCH) == 1.0
    ensures HealthAt(s, n * EPOCH - 1) < 1.0 <==>
      s.auto && PlanAt(s, n * EPOCH - 1).Troubled? &&
      var inc := PlanAt(s, n * EPOCH - 1).inc;
      PlanAt(s, n * EPOCH - 1).calm + inc.ramp + inc.peak + inc.recovery >= EPOCH
  {
    var t := n * EPOCH;
    assert t % EPOCH == 0;
    assert (t - 1) % EPOCH == EPOCH - 1;
    PlanIsGood(s, t);
    PlanIsGood(s, t - 1);
    match PlanAt(s, t - 1)
    case Quiet =>
    case Troubled(inc, calm) =>
      InsideTheSlopes(inc, calm, EPOCH - 1);
  }

  // ---------- the fault views ----------

  lemma SingleBitsMeet(f: Fault, g: Fault)
    requires SingleBit(f) && SingleBit(g)
    ensures f & g != 0 <==> f == g
  {
  }

  lemma MaskMeets(f: Fault, p: Fault, c: Fault)
    requires SingleBit(f) && SingleBit(p)
    ensures (p | c) & f != 0 <==> f == p || c & f != 0
  {
    SingleBitsMeet(p, f);
    assert (p | c) & f == (p & f) | (c & f);
    assert (p & f) | (c & f) == 0 <==> p & f == 0 && c & f == 0;
  }

  /** The whole mask of an incident holds exactly the faults it involves. */
  lemma MaskOf(inc: Incident, f: Fault)
    requires SingleBit(inc.primary) && SingleBit(f)
    ensures WholeMask(inc) & f != 0 <==> Involved(inc, f)
  {
    MaskOfParts(inc, inc.primary, inc.cascade, f);
  }

  lemma MaskOfParts(inc: Incident, p: Fault, c: Fault, f: Fault)
    requires SingleBit(p) && SingleBit(f) && inc.primary == p && inc.cascade == c
    ensures WholeMask(inc) & f != 0 <==> Involved(inc, f)
  {
    MaskMeets(f, p, c);
  }

  /** The incident troubling the schedule at t, if the score shows it. */
  predicate Shows(s: Sys, t: int)
    requires ValidSys(s)
  {
    s.auto && PlanAt(s, t).Troubled? && HealthAt(s, t) < 0.95
  }

  lemma CascadeIsNotPrimary(p: Fault, c: Fault, f: Fault)
    requires SingleBit(p) && p & c == 0
    ensures c & f != 0 ==> f != p
    ensures (p | c) & p != 0
  {
  }

  /** What the mask holds at t. */
  predicate MaskHolds(s: Sys, f: Fault, t: int)
    requires ValidSys(s)
  {
    Shows(s, t) &&
    var inc, calm := PlanAt(s, t).inc, PlanAt(s, t).calm;
    f == inc.primary || (inc.cascade & f != 0 && t % EPOCH > calm + inc.ramp / 2)
  }

  /** The middle of the ramp is over. */
  predicate PastMidRamp(s: Sys, t: int)
    requires ValidSys(s) && PlanAt(s, t).Troubled?
  {
    t % EPOCH > PlanAt(s, t).calm + PlanAt(s, t).inc.ramp / 2
  }

  lemma MaskOnSchedule(s: Sys, f: Fault, t: int)
    requires ValidSys(s) && SingleBit(f) && !IsForced(s, t)
    ensures Active(s, f, t) <==> MaskHolds(s, f, t)
  {
    MaskUnfolds(s, t);
    if Shows(s, t) {
      PlanIsGood(s, t);
      if PastMidRamp(s, t) { MaskOf(PlanAt(s, t).inc, f); } else { SingleBitsMeet(PlanAt(s, t).inc.primary, f); }
    }
  }

  lemma MaskUnfolds(s: Sys, t: int)
    requires ValidSys(s) && !IsForced(s, t)
    ensures !Shows(s, t) ==> ActiveFaultsAt(s, t) == NO_FAULT
    ensures Shows(s, t) && PastMidRamp(s, t) ==> ActiveFaultsAt(s, t) == WholeMask(PlanAt(s, t).inc)
    ensures Shows(s, t) && !PastMidRamp(s, t) ==> ActiveFaultsAt(s, t) == PlanAt(s, t).inc.primary
  {
  }

  lemma FaultHealthOnSchedule(s: Sys, f: Fault, t: int)
    requires ValidSys(s) && SingleBit(f) && !IsForced(s, t)
    ensures FaultHealth(s, f, t) == if Shows(s, t) then InvolvedHealth(PlanAt(s, t).inc, f, HealthAt(s, t)) else 1.0
    ensures Shows(s, t) ==> 0.1 <= HealthAt(s, t)
  {
    PlanIsGood(s, t);
    if s.auto && PlanAt(s, t).Troubled? { CurveInRange(PlanAt(s, t).inc, PlanAt(s, t).calm, t % EPOCH); }
  }

  /** How the mask, the health of one fault and the health score relate on the
      schedule. The mask shows the primary fault as long as the score is below
      0.95, and cascade faults only after the middle of the ramp; the health of
      a fault shows both all that time. So a fault in the mask always has
      health below 1, the converse fails exactly for cascade faults up to the
      middle of the ramp, and uninvolved faults are healthy. */
  lemma FaultViewsAgree(s: Sys, f: Fault, t: int)
    requires ValidSys(s) && SingleBit(f) && !IsForced(s, t)
    ensures Active(s, f, t) <==> MaskHolds(s, f, t)
    ensures FaultHealth(s, f, t) < 1.0 <==> Shows(s, t) && Involved(PlanAt(s, t).inc, f)
    ensures FaultHealth(s, f, t) == 1.0 <==> !(Shows(s, t) && Involved(PlanAt(s, t).inc, f))
    ensures Active(s, f, t) ==>
      FaultHealth(s, f, t) < 1.0 && s.auto && PlanAt(s, t).Troubled? && Active(s, PlanAt(s, t).inc.primary, t)
  {
    MaskOnSchedule(s, f, t);
    FaultHealthOnSchedule(s, f, t);
    if Shows(s, t) {
      PlanIsGood(s, t);
      MaskOnSchedule(s, PlanAt(s, t).inc.primary, t);
    }
  }

  /** While the score shows an incident, the directly affected service is worse
      off than the whole; the ones drawn in, if any, are between the two. */
  lemma PrimaryWorstThenCascade(s: Sys, f: Fault, t: int)
    requires ValidSys(s) && SingleBit(f) && !IsForced(s, t) && Shows(s, t)
    ensures FaultHealth(s, PlanAt(s, t).inc.primary, t) < HealthAt(s, t)
    ensures PlanAt(s, t).inc.cascade & f != 0 ==>
      FaultHealth(s, PlanAt(s, t).inc.primary, t) < FaultHealth(s, f, t) < HealthAt(s, t)
  {
    var inc := PlanAt(s, t).inc;
    PlanIsGood(s, t);
    FaultHealthOnSchedule(s, f, t);
    FaultHealthOnSchedule(s, inc.primary, t);
    CascadeIsNotPrimary(inc.primary, inc.cascade, f);
  }

  /** Exactly: the primary has half the health of the whole and each cascade fault
      three quarters of it. */
  lemma FaultHealthShares(s: Sys, f: Fault, t: int)
    requires ValidSys(s) && SingleBit(f) && !IsForced(s, t) && Shows(s, t)
    ensures FaultHealth(s, PlanAt(s, t).inc.primary, t) * 2.0 == HealthAt(s, t)
    ensures PlanAt(s, t).inc.cascade & f != 0 ==> FaultHealth(s, f, t) * 4.0 == HealthAt(s, t) * 3.0
  {
    var inc := PlanAt(s, t).inc;
    PlanIsGood(s, t);
    FaultHealthOnSchedule(s, f, t);
    FaultHealthOnSchedule(s, inc.primary, t);
    CascadeIsNotPrimary(inc.primary, inc.cascade, f);
  }

  /** The health h, x after the calm part of the epoch: on the ramp the health
      lost is to the whole drop as the time on it to its length, and on the
      recovery the health won back. */
  predicate OnTheLine(inc: Incident, x: int, h: real) {
    && (x < 0 ==> h == 1.0)
    && (0 <= x < inc.ramp ==> (1.0 - h) * inc.ramp as real == x as real * (1.0 - inc.peakHealth))
    && (inc.ramp <= x < inc.ramp + inc.peak ==> h == inc.peakHealth)
    && (inc.ramp + inc.peak <= x < inc.ramp + inc.peak + inc.recovery ==>
          (h - inc.peakHealth) * inc.recovery as real == (x - inc.ramp - inc.peak) as real * (1.0 - inc.peakHealth))
    && (inc.ramp + inc.peak + inc.recovery <= x ==> h == 1.0)
  }

  /** The two slopes of the health score are straight lines. */
  lemma SlopesAreStraight(s: Sys, t: int)
    requires ValidSys(s) && !IsForced(s, t) && s.auto && PlanAt(s, t).Troubled?
    ensures OnTheLine(PlanAt(s, t).inc, t % EPOCH - PlanAt(s, t).calm, HealthAt(s, t))
  {
    HealthIsTheCurve(s, t);
    PlanIsGood(s, t);
    CurveIsStraight(PlanAt(s, t).inc, PlanAt(s, t).calm, t % EPOCH);
  }

  lemma HealthIsTheCurve(s: Sys, t: int)
    requires ValidSys(s) && !IsForced(s, t) && s.auto && PlanAt(s, t).Troubled?
    ensures PlanAt(s, t).inc.ramp > 0 && PlanAt(s, t).inc.recovery > 0
    ensures HealthAt(s, t) == Curve(PlanAt(s, t).inc, PlanAt(s, t).calm, t % EPOCH)
  {
    PlanIsGood(s, t);
  }

  lemma CurveIsStraight(inc: Incident, calm: int, x: int)
    requires inc.ramp > 0 && inc.peak > 0 && inc.recovery > 0
    ensures OnTheLine(inc, x - calm, Curve(inc, calm, x))
  {
    var d := x - calm;
    if 0 <= d < inc.ramp {
      ShareTimes(d, inc.ramp, 1.0 - inc.peakHealth);
    } else if inc.ramp + inc.peak <= d < inc.ramp + inc.peak + inc.recovery {
      ShareTimes(d - inc.ramp - inc.peak, inc.recovery, 1.0 - inc.peakHealth);
    }
  }

  lemma ShareTimes(d: int, span: int, drop: real)
    requires span > 0
    ensures Share(d, span, drop) * span as real == d as real * drop
  {
    var q := d as real / span as real;
    assert q * span as real == d as real;
    assert q * drop * span as real == q * span as real * drop;
  }

  /** How often and when: an epoch is quiet for 55 of 100 rolls, and otherwise its
      incident begins after a fifth of it and up to a quarter more, as drawn. */
  lemma EpochsFollowTheirDraws(s: Sys, t: int)
    requires ValidSys(s)
    ensures var d := s.draws(t / (30 * MINUTE));
      && (PlanAt(s, t) == Quiet <==> d.quietRoll < 0.55)
      && (PlanAt(s, t).Troubled? ==>
            && PlanAt(s, t).inc == INCIDENTS[d.pick]
            && PlanAt(s, t).calm as real <= 1800_000_000_000.0 * 0.20 + 1800_000_000_000.0 * 0.25 * d.lengthRoll
                                         < PlanAt(s, t).calm as real + 1.0)
  {
  }

  /** The phase names by the clock of the epoch: the incident begins after the calm
      part and ramps, peaks and recovers for the times of the table. */
  lemma PhasesByTheClock(s: Sys, t: int)
    requires ValidSys(s) && !IsForced(s, t)
    ensures !s.auto || PlanAt(s, t) == Quiet ==> StateNameAt(s, t) == Normal && HealthAt(s, t) == 1.0
    ensures s.auto && PlanAt(s, t).Troubled? ==>
      var inc, x := PlanAt(s, t).inc, t % (30 * MINUTE) - PlanAt(s, t).calm;
      && (StateNameAt(s, t) == Degraded <==> 0 <= x < inc.ramp)
      && (StateNameAt(s, t) == Critical <==> inc.ramp <= x < inc.ramp + inc.peak)
      && (StateNameAt(s, t) == Recovering <==> inc.ramp + inc.peak <= x < inc.ramp + inc.peak + inc.recovery)
      && (StateNameAt(s, t) == Normal <==> x < 0 || inc.ramp + inc.peak + inc.recovery <= x)
  {
    PlanIsGood(s, t);
  }

  /** The health score dips at most once per epoch. */
  lemma HealthDipsOnce(s: Sys, t: int, u: int, v: int)
    requires ValidSys(s)
    requires t <= u <= v && t / EPOCH == v / EPOCH
    requires !IsForced(s, t) && !IsForced(s, u) && !IsForced(s, v)
    ensures HealthAt(s, u) <= Max(HealthAt(s, t), HealthAt(s, v))
  {
    assert u / EPOCH == t / EPOCH;
    HealthCurve(s, t, u);
    HealthCurve(s, u, v);
  }

  lemma OffsetsInOrder(t: int, u: int, v: int)
    requires t <= u <= v && t / EPOCH == v / EPOCH
    ensures u / EPOCH == t / EPOCH && t % EPOCH <= u % EPOCH <= v % EPOCH
  {
    assert u / EPOCH == t / EPOCH;
    assert u % EPOCH - t % EPOCH == u - t && v % EPOCH - u % EPOCH == v - u;
  }

  lemma MaskHoldsOnOneInterval(s: Sys, f: Fault, t: int, u: int, v: int)
    requires ValidSys(s)
    requires t <= u <= v && t / EPOCH == v / EPOCH
    requires !IsForced(s, t) && !IsForced(s, u) && !IsForced(s, v)
    requires MaskHolds(s, f, t) && MaskHolds(s, f, v)
    ensures MaskHolds(s, f, u)
  {
    OffsetsInOrder(t, u, v);
    HealthDipsOnce(s, t, u, v);
  }

  /** Each fault is active on one contiguous interval of an epoch. */
  lemma ActiveOnOneInterval(s: Sys, f: Fault, t: int, u: int, v: int)
    requires ValidSys(s) && SingleBit(f)
    requires t <= u <= v && t / EPOCH == v / EPOCH
    requires !IsForced(s, t) && !IsForced(s, u) && !IsForced(s, v)
    requires Active(s, f, t) && Active(s, f, v)
    ensures Active(s, f, u)
  {
    MaskOnSchedule(s, f, t);
    MaskOnSchedule(s, f, v);
    MaskHoldsOnOneInterval(s, f, t, u, v);
    MaskOnSchedule(s, f, u);
  }

  /** Peak health over intensity against a bound. */
  lemma RawPeak(f: Forced, bound: real)
    requires f.intensity > 0.0
    ensures f.inc.peakHealth / f.intensity <= bound <==> f.inc.peakHealth <= bound * f.intensity
    ensures f.inc.peakHealth / f.intensity < bound <==> f.inc.peakHealth < bound * f.intensity
  {
    var q := f.inc.peakHealth / f.intensity;
    assert q * f.intensity == f.inc.peakHealth;
    RatioAtMost(q, f.intensity, f.inc.peakHealth, bound);
  }

  /** Under a forced scenario the health of a cascade fault stays within the
      health score if and only if the intensity is at least three quarters of
      the incident's peak health, that of the primary fault if and only if it is
      at least half of it. A fault in the mask has health below 1 exactly above
      the same bounds; at and below them it reads as healthy. */
  lemma ForcedViewsAgreeIff(s: Sys, f: Fault, t: int)
    requires ValidSys(s) && SingleBit(f) && IsForced(s, t)
    ensures Active(s, f, t) <==> Involved(s.forced.value.inc, f)
    ensures !Involved(s.forced.value.inc, f) ==> FaultHealth(s, f, t) == 1.0
    ensures f == s.forced.value.inc.primary ==>
      && (FaultHealth(s, f, t) <= HealthAt(s, t) <==>
            s.forced.value.intensity >= 0.5 * s.forced.value.inc.peakHealth)
      && (FaultHealth(s, f, t) < 1.0 <==> s.forced.value.intensity > 0.5 * s.forced.value.inc.peakHealth)
    ensures s.forced.value.inc.cascade & f != 0 ==>
      && FaultHealth(s, s.forced.value.inc.primary, t) <= FaultHealth(s, f, t)
      && (FaultHealth(s, f, t) <= HealthAt(s, t) <==>
            s.forced.value.intensity >= 0.75 * s.forced.value.inc.peakHealth)
      && (FaultHealth(s, f, t) < 1.0 <==> s.forced.value.intensity > 0.75 * s.forced.value.inc.peakHealth)
  {
    var inc := s.forced.value.inc;
    MaskOf(inc, f);
    CascadeIsNotPrimary(inc.primary, inc.cascade, f);
    ForcedUnfolds(s, f, t);
    ForcedUnfolds(s, inc.primary, t);
    ForcedShares(s.forced.value);
  }

  /** The two healths under a forced scenario. */
  lemma ForcedUnfolds(s: Sys, f: Fault, t: int)
    requires ValidSys(s) && IsForced(s, t)
    ensures HealthAt(s, t) == ForcedPeak(s.forced.value)
    ensures FaultHealth(s, f, t) == InvolvedHealth(s.forced.value.inc, f, UncappedPeak(s.forced.value))
    ensures Active(s, f, t) <==> WholeMask(s.forced.value.inc) & f != 0
  {
  }

  /** The arithmetic of half and three quarters of the uncapped peak. */
  lemma ForcedShares(f: Forced)
    requires 0.1 <= f.intensity <= 10.0 && 0.1 <= f.inc.peakHealth <= 0.3
    ensures var pk, peak, k := UncappedPeak(f), f.inc.peakHealth, f.intensity;
      && Max(pk * 0.5, 0.01) <= Max(pk * 0.75, 0.01)
      && (Max(pk * 0.5, 0.01) <= ForcedPeak(f) <==> k >= 0.5 * peak)
      && (Max(pk * 0.5, 0.01) < 1.0 <==> k > 0.5 * peak)
      && (Max(pk * 0.75, 0.01) <= ForcedPeak(f) <==> k >= 0.75 * peak)
      && (Max(pk * 0.75, 0.01) < 1.0 <==> k > 0.75 * peak)
  {
    RawPeak(f, 4.0 / 3.0);
    RawPeak(f, 2.0);
  }

  /** The health h is half of the peak over the intensity, but at least 0.01. */
  predicate HalfOf(h: real, peak: real, k: real) {
    if peak >= 0.02 * k then h * 2.0 * k == peak else h == 0.01
  }

  /** Three quarters of it, but at least 0.01. */
  predicate ThreeQuartersOf(h: real, peak: real, k: real) {
    if 3.0 * peak >= 0.04 * k then h * 4.0 * k == 3.0 * peak else h == 0.01
  }

  /** The healths of the faults under a forced scenario, exactly. */
  lemma ForcedFaultHealthShares(s: Sys, f: Fault, t: int)
    requires ValidSys(s) && SingleBit(f) && IsForced(s, t)
    ensures HalfOf(FaultHealth(s, s.forced.value.inc.primary, t), s.forced.value.inc.peakHealth, s.forced.value.intensity)
    ensures s.forced.value.inc.cascade & f != 0 ==>
      ThreeQuartersOf(FaultHealth(s, f, t), s.forced.value.inc.peakHealth, s.forced.value.intensity)
  {
    var inc := s.forced.value.inc;
    CascadeIsNotPrimary(inc.primary, inc.cascade, f);
    ForcedUnfolds(s, f, t);
    ForcedUnfolds(s, inc.primary, t);
    HalfOfThePeak(s.forced.value);
    ThreeQuartersOfThePeak(s.forced.value);
  }

  lemma HalfOfThePeak(f: Forced)
    requires 0.1 <= f.intensity <= 10.0 && 0.1 <= f.inc.peakHealth <= 0.3
    ensures HalfOf(Max(UncappedPeak(f) * 0.5, 0.01), f.inc.peakHealth, f.intensity)
  {
    RawPeak(f, 0.02);
    RawPeak(f, 0.01);
    var q := f.inc.peakHealth / f.intensity;
    assert q * f.intensity == f.inc.peakHealth;
    assert q * 0.5 * 2.0 * f.intensity == q * f.intensity;
  }

  lemma ThreeQuartersOfThePeak(f: Forced)
    requires 0.1 <= f.intensity <= 10.0 && 0.1 <= f.inc.peakHealth <= 0.3
    ensures ThreeQuartersOf(Max(UncappedPeak(f) * 0.75, 0.01), f.inc.peakHealth, f.intensity)
  {
    RawPeak(f, 0.04 / 3.0);
    RawPeak(f, 0.01);
    var q := f.inc.peakHealth / f.intensity;
    assert q * f.intensity == f.inc.peakHealth;
    assert q * 0.75 * 4.0 * f.intensity == 3.0 * (q * f.intensity);
  }

  /** Forcing db_contention at intensity 0.1 puts network congestion into the mask
      with a health above 1. */
  lemma WeakForceReadsHealthy(s: Sys, t: int)
    requires ValidSys(s) && IsForced(s, t) && s.forced.value.inc == INCIDENTS[0] && s.forced.value.intensity == 0.1
    ensures Active(s, NETWORK_CONGESTION, t) && FaultHealth(s, NETWORK_CONGESTION, t) == 1.125
  {
    assert INCIDENTS[0].cascade == NETWORK_CONGESTION && INCIDENTS[0].primary == DB_CONTENTION;
    assert DB_CONTENTION != NETWORK_CONGESTION && NETWORK_CONGESTION & NETWORK_CONGESTION != 0;
    assert (DB_CONTENTION | NETWORK_CONGESTION) & NETWORK_CONGESTION != 0;
    assert 0.15 / 0.1 == 1.5;
  }

  lemma RatioAtMost(q: real, d: real, n: real, bound: real)
    requires q * d == n && d > 0.0
    ensures q <= bound <==> n <= bound * d
    ensures q < bound <==> n < bound * d
  {
    assert (bound - q) * d == bound * d - n;
  }

  /** Error rates follow health, also above 1 where a weakly forced fault may have
      it: they stay probabilities, never exceed their maximum, are the base rate
      in full health, and never fall as health falls. */
  lemma ErrorRateFollowsHealth(base: real, max: real, h: real, g: real)
    requires 0.0 <= base <= max <= 1.0 && 0.0 <= h <= g
    ensures 0.0 <= ScaledErrorRate(base, max, g) <= ScaledErrorRate(base, max, h) <= max
    ensures h <= 1.0 ==> ScaledErrorRate(base, max, h) >= base
    ensures ScaledErrorRate(base, max, 1.0) == base && ScaledErrorRate(base, max, 0.0) == max
  {
    var span := max - base;
    var less, more := SharesInOrder(span, 1.0 - g, 1.0 - h);
    RateOfShare(base, max, g, less);
    RateOfShare(base, max, h, more);
    RateOfShare(base, max, 1.0, 0.0);
    RateOfShare(base, max, 0.0, span);
  }

  lemma RateOfShare(base: real, max: real, h: real, share: real)
    requires 0.0 <= base <= max <= 1.0 && share <= max - base
    requires share == (max - base) * (1.0 - h)
    ensures ScaledErrorRate(base, max, h) == Max(base + share, 0.0)
  {
  }

  lemma SharesInOrder(span: real, x: real, y: real) returns (less: real, more: real)
    requires span >= 0.0 && x <= y <= 1.0
    ensures less == span * x && more == span * y
    ensures less <= more <= span && (y >= 0.0 ==> more >= 0.0)
  {
    less, more := span * x, span * y;
    AtLeastZero(span, y - x);
    AtLeastZero(span, 1.0 - y);
    if y >= 0.0 { AtLeastZero(span, y); }
    assert span * (y - x) == more - less;
    assert span * (1.0 - y) == span - more;
  }

  lemma AtLeastZero(a: real, b: real)
    requires a >= 0.0 && b >= 0.0
    ensures a * b >= 0.0
  {
  }

  /** Between its two ends the error rate is a straight line: halfway in health is
      halfway in rate. */
  lemma ErrorRateIsLinear(base: real, max: real, h: real, g: real)
    requires 0.0 <= base <= max <= 1.0 && 0.0 <= h <= 1.0 && 0.0 <= g <= 1.0
    ensures 2.0 * ScaledErrorRate(base, max, (h + g) / 2.0)
         == ScaledErrorRate(base, max, h) + ScaledErrorRate(base, max, g)
  {
    var a, b, c := MeanOfShares(max - base, h, g);
    RateOnTheLine(base, max, h, a);
    RateOnTheLine(base, max, g, b);
    RateOnTheLine(base, max, (h + g) / 2.0, c);
  }

  lemma MeanOfShares(span: real, h: real, g: real) returns (a: real, b: real, c: real)
    requires span >= 0.0 && 0.0 <= h <= 1.0 && 0.0 <= g <= 1.0
    ensures a == span * h && b == span * g && c == span * ((h + g) / 2.0)
    ensures 2.0 * c == a + b
    ensures 0.0 <= a <= span && 0.0 <= b <= span && 0.0 <= c <= span
  {
    a, b, c := span * h, span * g, span * ((h + g) / 2.0);
    assert span * ((h + g) / 2.0) == (span * h + span * g) / 2.0;
    AtLeastZero(span, h);
    AtLeastZero(span, g);
    AtLeastZero(span, 1.0 - h);
    AtLeastZero(span, 1.0 - g);
    assert span * (1.0 - h) == span - a && span * (1.0 - g) == span - b;
  }

  lemma RateOnTheLine(base: real, max: real, h: real, share: real)
    requires 0.0 <= base <= max <= 1.0 && 0.0 <= share <= max - base
    requires share == (max - base) * h
    ensures ScaledErrorRate(base, max, h) == max - share
  {
    assert (max - base) * (1.0 - h) == max - base - share;
  }

  // ---------- forcing ----------

  /** All four views agree at t. */
  ghost predicate SameViews(s: Sys, s': Sys, t: int)
    requires ValidSys(s) && ValidSys(s')
  {
    && HealthAt(s, t) == HealthAt(s', t)
    && ActiveFaultsAt(s, t) == ActiveFaultsAt(s', t)
    && StateNameAt(s, t) == StateNameAt(s', t)
    && forall f: Fault :: FaultHealth(s, f, t) == FaultHealth(s', f, t)
  }

  /** A forced scenario is in force up to its deadline and not a moment longer.
      After it all four views are those of a system that was never forced; up to
      it the state is critical, the mask is the incident's, and the health is
      the incident's peak health over the intensity, within 0.01 and 1. */
  lemma ForceLastsUntilItsDeadline(s: Sys, t: int)
    requires ValidSys(s) && s.forced.Some?
    ensures t > s.forced.value.until ==> SameViews(s, s.(forced := None), t)
    ensures t <= s.forced.value.until ==>
      var inc, k := s.forced.value.inc, s.forced.value.intensity;
      && StateNameAt(s, t) == Critical
      && ActiveFaultsAt(s, t) == inc.primary | inc.cascade
      && (0.01 * k <= inc.peakHealth <= k ==> HealthAt(s, t) * k == inc.peakHealth)
      && (inc.peakHealth > k ==> HealthAt(s, t) == 1.0)
      && (inc.peakHealth < 0.01 * k ==> HealthAt(s, t) == 0.01)
  {
    if t <= s.forced.value.until {
      ForceInForce(s, t);
      ForcedHealth(s.forced.value);
    } else {
      ForceIsOver(s, t);
    }
  }

  lemma ForceInForce(s: Sys, t: int)
    requires ValidSys(s) && s.forced.Some? && t <= s.forced.value.until
    ensures StateNameAt(s, t) == Critical && HealthAt(s, t) == ForcedPeak(s.forced.value)
    ensures ActiveFaultsAt(s, t) == s.forced.value.inc.primary | s.forced.value.inc.cascade
  {
  }

  lemma ForceIsOver(s: Sys, t: int)
    requires ValidSys(s) && s.forced.Some? && t > s.forced.value.until
    ensures SameViews(s, s.(forced := None), t)
  {
    var s' := s.(forced := None);
    assert HealthAt(s, t) == HealthAt(s', t);
    forall f: Fault ensures FaultHealth(s, f, t) == FaultHealth(s', f, t) { }
  }

  lemma ForcedHealth(f: Forced)
    requires f.intensity > 0.0
    ensures var peak, k := f.inc.peakHealth, f.intensity;
      && (0.01 * k <= peak <= k ==> ForcedPeak(f) * k == peak)
      && (peak > k ==> ForcedPeak(f) == 1.0)
      && (peak < 0.01 * k ==> ForcedPeak(f) == 0.01)
  {
    RawPeak(f, 0.01);
    RawPeak(f, 1.0);
    var q := f.inc.peakHealth / f.intensity;
    assert q * f.intensity == f.inc.peakHealth;
  }

  /** What forcing a scenario leaves. */
  function AfterForce(s: Sys, i: nat, now: int, duration: int, intensity: real): Sys
    requires i < |INCIDENTS|
  {
    s.(forced := Some(Forced(INCIDENTS[i], now + duration, ClampIntensity(intensity))))
  }

  /** Forced for so long at `now`, a scenario shows at t exactly if no more than
      that has passed: with automatic incidents off it is critical then, and
      normal, healthy and without faults afterwards. */
  lemma ForceShowsExactlyForItsDuration(s: Sys, i: nat, now: int, duration: int, intensity: real, t: int)
    requires ValidSys(s) && !s.auto && i < |INCIDENTS|
    ensures var s' := AfterForce(s, i, now, duration, intensity);
      && ValidSys(s')
      && (StateNameAt(s', t) == Critical <==> t - now <= duration)
      && (ActiveFaultsAt(s', t) != 0 <==> t - now <= duration)
      && (t - now > duration ==> StateNameAt(s', t) == Normal && HealthAt(s', t) == 1.0)
      && (t - now > duration ==> forall f: Fault :: FaultHealth(s', f, t) == 1.0)
  {
    EveryIncidentIsGood(i);
    var s' := AfterForce(s, i, now, duration, intensity);
    ForceLastsUntilItsDeadline(s', t);
    WholeMaskIsNotEmpty(INCIDENTS[i]);
  }

  lemma WholeMaskIsNotEmpty(inc: Incident)
    requires SingleBit(inc.primary)
    ensures inc.primary | inc.cascade != 0
  {
  }

  /** The first incident of that name. */
  ghost predicate IsFirstNamed(name: string, i: nat) {
    i < |INCIDENTS| && INCIDENTS[i].name == name &&
    forall j :: 0 <= j < i ==> INCIDENTS[j].name != name
  }

  function ClampIntensity(k: real): (r: real)
    ensures 0.1 <= r <= 10.0
    ensures 0.1 <= k <= 10.0 ==> r == k
    ensures k <= 0.0 ==> r == 1.0
    ensures 0.0 < k < 0.1 ==> r == 0.1
    ensures k > 10.0 ==> r == 10.0
  {
    if k <= 0.0 then 1.0 else if k > 10.0 then 10.0 else Max(k, 0.1)
  }

  class Switch {
    var forced: Option<Forced>

    constructor ()
      ensures forced == None
    {
      forced := None;
    }

    /** Any positive intensity is brought into [0.1, 10]; others mean 1. An
        unknown name changes nothing. */
    method ForceScenario(name: string, duration: int, intensity: real, now: int) returns (ok: bool)
      modifies this
      ensures ok <==> exists i: nat :: IsFirstNamed(name, i)
      ensures !ok ==> forced == old(forced)
      ensures forall i: nat :: IsFirstNamed(name, i) ==>
        forced == Some(Forced(INCIDENTS[i], now + duration, ClampIntensity(intensity)))
    {
      var i := 0;
      while i < |INCIDENTS| && INCIDENTS[i].name != name
        invariant i <= |INCIDENTS|
        invariant forall j :: 0 <= j < i ==> INCIDENTS[j].name != name
      {
        i := i + 1;
      }
      if i == |INCIDENTS| { return false; }
      assert IsFirstNamed(name, i);
      var k := intensity;
      if k <= 0.0 { k := 1.0; }
      if k > 10.0 { k := 10.0; }
      if k < 0.1 { k := 0.1; }
      forced := Some(Forced(INCIDENTS[i], now + duration, k));
      return true;
    }

    method ClearForce()
      modifies this
      ensures forced == None
    {
      forced := None;
    }
  }
}
