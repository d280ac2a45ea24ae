/**
How the payment service decides one request: a timeout and a failure
probability that rise as health falls, scaled per gateway, the failure
probability lifted further during a retry storm, and one roll in [0, 1).
*/
module PaymentOutcome {
  import opened Common
  import opened SysState

  datatype Verdict = TimedOut | Declined | Completed

  function GatewayMultiplier(gateway: string): (m: real)
    ensures 0.6 <= m <= 1.4
  {
    if gateway == "adyen" then 1.4 else if gateway == "paypal" then 0.6 else 1.0
  }

  /** `storm` is the health of the retry-storm fault while that is active. */
  datatype Conditions = Conditions(gateway: string, health: real, storm: Option<real>)

  /** The health of a fault is never negative; weakly forced it may exceed 1. */
  predicate ValidConditions(c: Conditions) {
    0.0 <= c.health && (c.storm.Some? ==> 0.0 <= c.storm.value)
  }

  /** No better in any respect: same gateway, health and storm no better, and a
      storm counts as worse than none. */
  predicate NoBetter(c: Conditions, d: Conditions) {
    && c.gateway == d.gateway && c.health <= d.health
    && (d.storm.Some? ==> c.storm.Some? && c.storm.value <= d.storm.value)
  }

  function TimeoutProb(c: Conditions): real {
    ScaledErrorRate(0.01, 0.25, c.health) * GatewayMultiplier(c.gateway)
  }

  function FailureProb(c: Conditions): real {
    var p := ScaledErrorRate(0.05, 0.40, c.health) * GatewayMultiplier(c.gateway);
    if c.storm.Some? then Max(p, ScaledErrorRate(0.20, 0.70, c.storm.value)) else p
  }

  /** The chance that a request does not go through, if it is below one. */
  function Loss(c: Conditions): real { TimeoutProb(c) + FailureProb(c) }

  method Decide(c: Conditions, roll: real) returns (v: Verdict)
    ensures v == TimedOut <==> roll < TimeoutProb(c)
    ensures v == Completed <==> roll >= TimeoutProb(c) && roll >= Loss(c)
  {
    var timeoutProb := ScaledErrorRate(0.01, 0.25, c.health);
    var failureProb := ScaledErrorRate(0.05, 0.40, c.health);
    var m := GatewayMultiplier(c.gateway);
    timeoutProb := timeoutProb * m;
    failureProb := failureProb * m;
    if c.storm.Some? {
      var boost := ScaledErrorRate(0.20, 0.70, c.storm.value);
      if boost > failureProb { failureProb := boost; }
    }
    if roll < timeoutProb { return TimedOut; }
    if roll < timeoutProb + failureProb { return Declined; }
    return Completed;
  }

  /** The ends of the scales: in full health one payment in a hundred times out and
      five fail, at none 25 and 40; adyen has 1.4 times that, paypal 0.6 times;
      and a retry storm raises failures to at least 20, and at worst 70. */
  lemma EndsOfTheScales(gateway: string)
    ensures var m := if gateway == "adyen" then 1.4 else if gateway == "paypal" then 0.6 else 1.0;
      && TimeoutProb(Conditions(gateway, 1.0, None)) == 0.01 * m
      && FailureProb(Conditions(gateway, 1.0, None)) == 0.05 * m
      && TimeoutProb(Conditions(gateway, 0.0, None)) == 0.25 * m
      && FailureProb(Conditions(gateway, 0.0, None)) == 0.40 * m
      && FailureProb(Conditions(gateway, 1.0, Some(1.0))) == 0.20
      && FailureProb(Conditions(gateway, 0.0, Some(0.0))) == 0.70
  {
  }

  lemma ScaledByGateway(a: real, b: real, m: real)
    requires 0.0 <= a <= b && 0.0 <= m
    ensures 0.0 <= a * m <= b * m
  {
  }

  /** Worse conditions never turn a failure into a success: the rolls that
      complete under them complete under better ones, and timeouts only grow. */
  lemma WorseConditionsNeverHelp(c: Conditions, d: Conditions)
    requires ValidConditions(c) && ValidConditions(d) && NoBetter(c, d)
    ensures 0.0 <= TimeoutProb(d) <= TimeoutProb(c)
    ensures 0.0 <= FailureProb(d) <= FailureProb(c)
    ensures d.health <= 1.0 ==> 0.0 < TimeoutProb(d) && 0.0 < FailureProb(d)
  {
    ErrorRateFollowsHealth(0.01, 0.25, c.health, d.health);
    ErrorRateFollowsHealth(0.05, 0.40, c.health, d.health);
    var m := GatewayMultiplier(c.gateway);
    ScaledByGateway(ScaledErrorRate(0.01, 0.25, d.health), ScaledErrorRate(0.01, 0.25, c.health), m);
    ScaledByGateway(ScaledErrorRate(0.05, 0.40, d.health), ScaledErrorRate(0.05, 0.40, c.health), m);
    if d.health <= 1.0 {
      ErrorRateFollowsHealth(0.01, 0.25, d.health, d.health);
      ErrorRateFollowsHealth(0.05, 0.40, d.health, d.health);
      ScaledByGateway(0.01, ScaledErrorRate(0.01, 0.25, d.health), m);
      ScaledByGateway(0.05, ScaledErrorRate(0.05, 0.40, d.health), m);
    }
    if d.storm.Some? { ErrorRateFollowsHealth(0.20, 0.70, c.storm.value, d.storm.value); }
  }

  /** Without a retry storm some payments always go through, on every gateway
      and however bad the health: at least nine in a hundred. */
  lemma SomePaymentsSucceedWithoutStorm(c: Conditions)
    requires ValidConditions(c) && c.storm == None
    ensures Loss(c) <= 0.91
  {
    ErrorRateFollowsHealth(0.01, 0.25, c.health, c.health);
    ErrorRateFollowsHealth(0.05, 0.40, c.health, c.health);
    var m := GatewayMultiplier(c.gateway);
    ScaledByGateway(ScaledErrorRate(0.01, 0.25, c.health), 0.25, m);
    ScaledByGateway(ScaledErrorRate(0.05, 0.40, c.health), 0.40, m);
  }

  /** Nor does a storm cut off any gateway but adyen, at whatever intensity: at
      least five payments in a hundred go through. */
  lemma OnlyAdyenCanBeCutOff(c: Conditions)
    requires ValidConditions(c) && c.gateway != "adyen"
    ensures Loss(c) <= 0.95
  {
    ErrorRateFollowsHealth(0.01, 0.25, c.health, c.health);
    ErrorRateFollowsHealth(0.05, 0.40, c.health, c.health);
    var m := GatewayMultiplier(c.gateway);
    ScaledByGateway(ScaledErrorRate(0.01, 0.25, c.health), 0.25, m);
    ScaledByGateway(ScaledErrorRate(0.05, 0.40, c.health), 0.40, m);
    if c.storm.Some? { ErrorRateFollowsHealth(0.20, 0.70, c.storm.value, c.storm.value); }
  }

  /** What the service decides an adyen payment by at t. */
  function AdyenAt(s: Sys, t: int): Conditions
    requires ValidSys(s)
  {
    Conditions("adyen", FaultHealth(s, PAYMENT_GATEWAY, t),
               if Active(s, RETRY_STORM, t) then Some(FaultHealth(s, RETRY_STORM, t)) else None)
  }

  /** With one, adyen can be cut off altogether, but only by force. At any moment,
      whatever is scheduled or forced, every payment through adyen fails,
      whatever the roll, if and only if the retry-amplification scenario is
      forced with an intensity of at least 2.2088; it drags the payment gateway
      down with it. */
  lemma AdyenIsCutOffIff(s: Sys, t: int)
    requires ValidSys(s) && (s.forced.Some? ==> s.forced.value.inc in INCIDENTS)
    ensures Loss(AdyenAt(s, t)) >= 1.0 <==>
            IsForced(s, t) && s.forced.value.inc == INCIDENTS[7] && s.forced.value.intensity >= 2.2088
  {
    if !Active(s, RETRY_STORM, t) {
      NoStormNoCutOff(s, t);
    } else if IsForced(s, t) {
      ForcedUnfolds(s, RETRY_STORM, t);
      MaskOf(s.forced.value.inc, RETRY_STORM);
      OnlyRetryAmplificationStorms(s.forced.value.inc);
      ForcedStorm(s, t);
    } else {
      ScheduledStorm(s, t);
    }
  }

  lemma HealthIsNeverNegative(s: Sys, f: Fault, t: int)
    requires ValidSys(s)
    ensures FaultHealth(s, f, t) >= 0.0
  {
  }

  /** Without a storm in the mask the gateway is not cut off, and retry
      amplification is not forced. */
  lemma NoStormNoCutOff(s: Sys, t: int)
    requires ValidSys(s) && !Active(s, RETRY_STORM, t)
    ensures Loss(AdyenAt(s, t)) < 1.0
    ensures !(IsForced(s, t) && s.forced.value.inc == INCIDENTS[7])
  {
    HealthIsNeverNegative(s, PAYMENT_GATEWAY, t);
    SomePaymentsSucceedWithoutStorm(AdyenAt(s, t));
    if IsForced(s, t) {
      ForcedUnfolds(s, RETRY_STORM, t);
      MaskOf(s.forced.value.inc, RETRY_STORM);
      assert INCIDENTS[7].primary == RETRY_STORM;
    }
  }

  /** No other incident of the table touches the retry storm. */
  lemma OnlyRetryAmplificationStorms(inc: Incident)
    requires inc in INCIDENTS && Involved(inc, RETRY_STORM)
    ensures inc == INCIDENTS[7]
  {
    var i :| 0 <= i < |INCIDENTS| && INCIDENTS[i] == inc;
    assert INCIDENTS[0].cascade & RETRY_STORM == 0 && INCIDENTS[1].cascade & RETRY_STORM == 0;
    assert INCIDENTS[2].cascade & RETRY_STORM == 0 && INCIDENTS[3].cascade & RETRY_STORM == 0;
    assert INCIDENTS[4].cascade & RETRY_STORM == 0 && INCIDENTS[5].cascade & RETRY_STORM == 0;
    assert INCIDENTS[6].cascade & RETRY_STORM == 0 && INCIDENTS[8].cascade & RETRY_STORM == 0;
    assert INCIDENTS[9].cascade & RETRY_STORM == 0;
  }

  /** What retry amplification makes of the two faults the service asks for. */
  lemma StormHealths(health: real)
    requires health >= 0.022
    ensures InvolvedHealth(INCIDENTS[7], RETRY_STORM, health) == Max(0.5 * health, 0.01)
    ensures InvolvedHealth(INCIDENTS[7], PAYMENT_GATEWAY, health) == 0.75 * health
  {
    assert INCIDENTS[7].primary == RETRY_STORM && INCIDENTS[7].cascade == PAYMENT_GATEWAY;
    assert PAYMENT_GATEWAY != RETRY_STORM && PAYMENT_GATEWAY & PAYMENT_GATEWAY != 0;
  }

  lemma ForcedStorm(s: Sys, t: int)
    requires ValidSys(s) && IsForced(s, t) && s.forced.value.inc == INCIDENTS[7] && Active(s, RETRY_STORM, t)
    ensures Loss(AdyenAt(s, t)) >= 1.0 <==> s.forced.value.intensity >= 2.2088
  {
    var pk := UncappedPeak(s.forced.value);
    assert s.forced.value.inc.peakHealth == 0.22;
    PeakUnderForce(s.forced.value);
    ForcedUnfolds(s, RETRY_STORM, t);
    ForcedUnfolds(s, PAYMENT_GATEWAY, t);
    StormHealths(pk);
    LossUnderStorm(pk);
  }

  lemma PeakUnderForce(f: Forced)
    requires 0.1 <= f.intensity <= 10.0 && f.inc.peakHealth == 0.22
    ensures UncappedPeak(f) >= 0.022
    ensures UncappedPeak(f) <= 25.0 / 251.0 <==> f.intensity >= 2.2088
  {
    RawPeak(f, 25.0 / 251.0);
    RawPeak(f, 0.022);
  }

  lemma ScheduledStorm(s: Sys, t: int)
    requires ValidSys(s) && !IsForced(s, t) && Active(s, RETRY_STORM, t)
    ensures Loss(AdyenAt(s, t)) < 1.0
  {
    MaskOnSchedule(s, RETRY_STORM, t);
    var inc := PlanAt(s, t).inc;
    assert inc in INCIDENTS;
    OnlyRetryAmplificationStorms(inc);
    PlanIsGood(s, t);
    CurveInRange(inc, PlanAt(s, t).calm, t % EPOCH);
    assert INCIDENTS[7].peakHealth == 0.22;
    FaultHealthOnSchedule(s, RETRY_STORM, t);
    FaultHealthOnSchedule(s, PAYMENT_GATEWAY, t);
    StormHealths(HealthAt(s, t));
    LossUnderStorm(HealthAt(s, t));
  }

  lemma LossUnderStorm(pk: real)
    requires pk >= 0.022
    ensures Loss(Conditions("adyen", 0.75 * pk, Some(Max(0.5 * pk, 0.01)))) >= 1.0 <==> pk <= 25.0 / 251.0
  {
    if pk <= 1.0 {
      assert ScaledErrorRate(0.01, 0.25, 0.75 * pk) == 0.25 - 0.18 * pk;
      assert ScaledErrorRate(0.05, 0.40, 0.75 * pk) == 0.40 - 0.2625 * pk;
      assert ScaledErrorRate(0.20, 0.70, 0.5 * pk) == 0.70 - 0.25 * pk;
    }
  }
}
