/**
The anomaly injector's perturbation of a metric series: each active scenario
scales or shifts the value of the families it concerns, if its sanitized target
is the series' dimension or it is a global scenario.
*/
module EcomPerturb {
  import opened Common
  import opened EcomNames

  datatype Scenario =
    | ConversionDrop | PricingAnomaly | VariantMismatch | CouponAbuse | TrafficLowConv
    | FulfillmentDelay | WarehouseSLABreach | ReturnsSpike | SearchFailures

  datatype Family =
    | ProductViews | AddToCart | CheckoutComplete | ConversionRate | VariantMismatchRate | Returns
    | ReturnRate | AvgItemPrice | FulfillmentLatency | SLABreachRate | SearchTotal | SearchZeroResultRate
    | CouponRedemptions | SignupsMaxPerIP | Sessions | Orders | ConversionRateOverall

  const ALL_SCENARIOS: seq<Scenario> := [
    ConversionDrop, PricingAnomaly, VariantMismatch, CouponAbuse, TrafficLowConv,
    FulfillmentDelay, WarehouseSLABreach, ReturnsSpike, SearchFailures
  ]

  predicate DimScoped(s: Scenario) { !s.CouponAbuse? && !s.TrafficLowConv? }

  datatype Injection = Injection(intensity: real, dimension: string)

  /** The injections active at this moment. */
  type Injector = Scenario -> Option<Injection>

  /** The intensity with which a scenario hits a series of this dimension. */
  function Hit(inj: Injector, s: Scenario, dim: string): Option<real> {
    if inj(s) == None then None
    else if DimScoped(s) && Sanitize(inj(s).value.dimension) != dim then None
    else Some(inj(s).value.intensity)
  }

  /** What each scenario does to the series of one dimension. */
  type Hits = Scenario -> Option<real>

  function HitsOn(inj: Injector, dim: string): Hits { s => Hit(inj, s, dim) }

  /** Scale multiplies by 1 + factor * intensity, Shift adds factor * intensity. */
  datatype Effect = Scale(factor: real) | Shift(factor: real) | Nothing

  function EffectOn(s: Scenario, f: Family): Effect {
    match s
    case ConversionDrop =>
      (match f
       case AddToCart => Scale(-0.70)
       case CheckoutComplete => Scale(-0.82)
       case ConversionRate => Scale(-0.78)
       case _ => Nothing)
    case PricingAnomaly => if f == AvgItemPrice then Scale(-0.55) else Nothing
    case VariantMismatch => if f == VariantMismatchRate then Shift(45.0) else Nothing
    case CouponAbuse =>
      if f == CouponRedemptions then Scale(6.0) else if f == SignupsMaxPerIP then Shift(60.0) else Nothing
    case TrafficLowConv =>
      if f == Sessions then Scale(3.5) else if f == ConversionRateOverall then Scale(-0.72) else Nothing
    case FulfillmentDelay => if f == FulfillmentLatency then Scale(7.0) else Nothing
    case WarehouseSLABreach =>
      if f == SLABreachRate then Shift(55.0) else if f == FulfillmentLatency then Scale(4.0) else Nothing
    case ReturnsSpike => if f == Returns || f == ReturnRate then Scale(5.0) else Nothing
    case SearchFailures => if f == SearchZeroResultRate then Shift(80.0) else Nothing
  }

  function Perturb(e: Effect, intensity: real, v: real): real {
    match e
    case Scale(factor) => v * (1.0 + factor * intensity)
    case Shift(factor) => v + factor * intensity
    case Nothing => v
  }

  function Step(hit: Hits, f: Family, s: Scenario, v: real): real {
    if hit(s) == None then v else Perturb(EffectOn(s, f), hit(s).value, v)
  }

  /** All scenarios of a list, one after the other. */
  function Fold(hit: Hits, f: Family, order: seq<Scenario>, v: real): real {
    if order == [] then v else Fold(hit, f, order[1..], Step(hit, f, order[0], v))
  }

  /** The chain of conditionals that rewrites the value, one call each. */
  method Apply(inj: Injector, f: Family, dim: string, value: real) returns (v: real)
    ensures v == Fold(HitsOn(inj, dim), f, ALL_SCENARIOS, value)
  {
    v := ApplyAll(HitsOn(inj, dim), f, value);
  }

  method ApplyAll(hit: Hits, f: Family, value: real) returns (v: real)
    ensures v == Fold(hit, f, ALL_SCENARIOS, value)
  {
    var v1 := ApplyConversionDrop(hit, f, value);
    var v2 := ApplyPricingAnomaly(hit, f, v1);
    var v3 := ApplyVariantMismatch(hit, f, v2);
    var v4 := ApplyCouponAbuse(hit, f, v3);
    var v5 := ApplyTrafficLowConv(hit, f, v4);
    var v6 := ApplyFulfillmentDelay(hit, f, v5);
    var v7 := ApplyWarehouseSLABreach(hit, f, v6);
    var v8 := ApplyReturnsSpike(hit, f, v7);
    v := ApplySearchFailures(hit, f, v8);
    FoldIsTheTrace(hit, f, ALL_SCENARIOS, [value, v1, v2, v3, v4, v5, v6, v7, v8, v]);
  }

  method ApplyConversionDrop(hit: Hits, f: Family, value: real) returns (v: real)
    ensures v == Step(hit, f, ConversionDrop, value)
  {
    v := value;
    var on := hit(ConversionDrop);
    if on.Some? {
      match f {
        case AddToCart => v := v * (1.0 - 0.70 * on.value);
        case CheckoutComplete => v := v * (1.0 - 0.82 * on.value);
        case ConversionRate => v := v * (1.0 - 0.78 * on.value);
        case _ =>
      }
    }
  }

  method ApplyPricingAnomaly(hit: Hits, f: Family, value: real) returns (v: real)
    ensures v == Step(hit, f, PricingAnomaly, value)
  {
    v := value;
    var on := hit(PricingAnomaly);
    if on.Some? && f == AvgItemPrice { v := v * (1.0 - 0.55 * on.value); }
  }

  method ApplyVariantMismatch(hit: Hits, f: Family, value: real) returns (v: real)
    ensures v == Step(hit, f, VariantMismatch, value)
  {
    v := value;
    var on := hit(VariantMismatch);
    if on.Some? && f == VariantMismatchRate { v := v + 45.0 * on.value; }
  }

  method ApplyCouponAbuse(hit: Hits, f: Family, value: real) returns (v: real)
    ensures v == Step(hit, f, CouponAbuse, value)
  {
    v := value;
    var on := hit(CouponAbuse);
    if on.Some? {
      match f {
        case CouponRedemptions => v := v * (1.0 + 6.0 * on.value);
        case SignupsMaxPerIP => v := v + 60.0 * on.value;
        case _ =>
      }
    }
  }

  method ApplyTrafficLowConv(hit: Hits, f: Family, value: real) returns (v: real)
    ensures v == Step(hit, f, TrafficLowConv, value)
  {
    v := value;
    var on := hit(TrafficLowConv);
    if on.Some? {
      match f {
        case Sessions => v := v * (1.0 + 3.5 * on.value);
        case ConversionRateOverall => v := v * (1.0 - 0.72 * on.value);
        case _ =>
      }
    }
  }

  method ApplyFulfillmentDelay(hit: Hits, f: Family, value: real) returns (v: real)
    ensures v == Step(hit, f, FulfillmentDelay, value)
  {
    v := value;
    var on := hit(FulfillmentDelay);
    if on.Some? && f == FulfillmentLatency { v := v * (1.0 + 7.0 * on.value); }
  }

  method ApplyWarehouseSLABreach(hit: Hits, f: Family, value: real) returns (v: real)
    ensures v == Step(hit, f, WarehouseSLABreach, value)
  {
    v := value;
    var on := hit(WarehouseSLABreach);
    if on.Some? {
      match f {
        case SLABreachRate => v := v + 55.0 * on.value;
        case FulfillmentLatency => v := v * (1.0 + 4.0 * on.value);
        case _ =>
      }
    }
  }

  method ApplyReturnsSpike(hit: Hits, f: Family, value: real) returns (v: real)
    ensures v == Step(hit, f, ReturnsSpike, value)
  {
    v := value;
    var on := hit(ReturnsSpike);
    if on.Some? {
      match f {
        case Returns => v := v * (1.0 + 5.0 * on.value);
        case ReturnRate => v := v * (1.0 + 5.0 * on.value);
        case _ =>
      }
    }
  }

  method ApplySearchFailures(hit: Hits, f: Family, value: real) returns (v: real)
    ensures v == Step(hit, f, SearchFailures, value)
  {
    v := value;
    var on := hit(SearchFailures);
    if on.Some? && f == SearchZeroResultRate { v := v + 80.0 * on.value; }
  }

  lemma FoldOne(hit: Hits, f: Family, s: Scenario, rest: seq<Scenario>, v: real)
    ensures Fold(hit, f, [s] + rest, v) == Fold(hit, f, rest, Step(hit, f, s, v))
  {
    assert ([s] + rest)[1..] == rest;
  }

  lemma {:induction false} FoldIsTheTrace(hit: Hits, f: Family, order: seq<Scenario>, trace: seq<real>)
    requires |trace| == |order| + 1
    requires forall i :: 0 <= i < |order| ==> trace[i + 1] == Step(hit, f, order[i], trace[i])
    ensures trace[|order|] == Fold(hit, f, order, trace[0])
    decreases |order|
  {
    if order != [] { FoldIsTheTrace(hit, f, order[1..], trace[1..]); }
  }

  // ---------- what a hit does ----------

  /** The value becomes this part more, or less, of what it was. */
  predicate GrowsBy(v': real, v: real, part: real) { v' - v == v * part }

  /** What each scenario does to the families it concerns, at full intensity and in
      proportion below it; it leaves every other family alone. */
  lemma WhatAHitDoes(hit: Hits, s: Scenario, f: Family, v: real)
    requires hit(s).Some?
    ensures var k, v' := hit(s).value, Step(hit, f, s, v);
      match s
      case ConversionDrop =>
        && (f == AddToCart ==> GrowsBy(v', v, -0.70 * k))
        && (f == CheckoutComplete ==> GrowsBy(v', v, -0.82 * k))
        && (f == ConversionRate ==> GrowsBy(v', v, -0.78 * k))
        && (f != AddToCart && f != CheckoutComplete && f != ConversionRate ==> v' == v)
      case PricingAnomaly => if f == AvgItemPrice then GrowsBy(v', v, -0.55 * k) else v' == v
      case VariantMismatch => if f == VariantMismatchRate then v' - v == 45.0 * k else v' == v
      case CouponAbuse =>
        && (f == CouponRedemptions ==> GrowsBy(v', v, 6.0 * k))
        && (f == SignupsMaxPerIP ==> v' - v == 60.0 * k)
        && (f != CouponRedemptions && f != SignupsMaxPerIP ==> v' == v)
      case TrafficLowConv =>
        && (f == Sessions ==> GrowsBy(v', v, 3.5 * k))
        && (f == ConversionRateOverall ==> GrowsBy(v', v, -0.72 * k))
        && (f != Sessions && f != ConversionRateOverall ==> v' == v)
      case FulfillmentDelay => if f == FulfillmentLatency then GrowsBy(v', v, 7.0 * k) else v' == v
      case WarehouseSLABreach =>
        && (f == SLABreachRate ==> v' - v == 55.0 * k)
        && (f == FulfillmentLatency ==> GrowsBy(v', v, 4.0 * k))
        && (f != SLABreachRate && f != FulfillmentLatency ==> v' == v)
      case ReturnsSpike => if f == Returns || f == ReturnRate then GrowsBy(v', v, 5.0 * k) else v' == v
      case SearchFailures => if f == SearchZeroResultRate then v' - v == 80.0 * k else v' == v
  {
    PerturbGrows(EffectOn(s, f), hit(s).value, v);
  }

  lemma PerturbGrows(e: Effect, k: real, v: real)
    ensures e.Scale? ==> GrowsBy(Perturb(e, k, v), v, e.factor * k)
  {
  }

  /** A scenario that matches a series with a positive value changes it. */
  lemma AMatchChangesTheValue(inj: Injector, s: Scenario, f: Family, dim: string, v: real)
    requires Matches(inj, s, f, dim) && inj(s).value.intensity > 0.0 && v > 0.0
    ensures Step(HitsOn(inj, dim), f, s, v) != v
  {
    var e, k := EffectOn(s, f), inj(s).value.intensity;
    if e.Scale? {
      PerturbGrows(e, k, v);
      NonZeroProduct(e.factor, k);
      NonZeroProduct(e.factor * k, v);
      FactorsAreNotZero(s, f);
    } else {
      NonZeroProduct(e.factor, k);
      FactorsAreNotZero(s, f);
    }
  }

  lemma FactorsAreNotZero(s: Scenario, f: Family)
    ensures EffectOn(s, f) != Nothing ==> EffectOn(s, f).factor != 0.0
  {
  }

  lemma NonZeroProduct(a: real, b: real)
    requires b > 0.0 || a == 0.0
    ensures a * b == 0.0 <==> a == 0.0
  {
    if a > 0.0 { ProductIsPositive(a, b); }
    if a < 0.0 { ProductIsPositive(-a, b); assert a * b == -(-a * b); }
  }

  // ---------- order ----------

  /** No family is scaled by one scenario and shifted by another, and no factor
      reaches down to -1. */
  lemma EffectsAreOfOneKind(a: Scenario, b: Scenario, f: Family)
    ensures EffectOn(a, f).Scale? ==> !EffectOn(b, f).Shift? && EffectOn(a, f).factor > -1.0
    ensures EffectOn(a, f).Shift? ==> !EffectOn(b, f).Scale? && EffectOn(a, f).factor > 0.0
  {
  }

  lemma PerturbationsCommute(e: Effect, k: real, e': Effect, k': real, v: real)
    requires !(e.Scale? && e'.Shift?) && !(e.Shift? && e'.Scale?)
    ensures Perturb(e, k, Perturb(e', k', v)) == Perturb(e', k', Perturb(e, k, v))
  {
  }

  lemma StepsCommute(hit: Hits, f: Family, a: Scenario, b: Scenario, v: real)
    ensures Step(hit, f, a, Step(hit, f, b, v)) == Step(hit, f, b, Step(hit, f, a, v))
  {
    EffectsAreOfOneKind(a, b, f);
    EffectsAreOfOneKind(b, a, f);
    if hit(a).Some? && hit(b).Some? {
      PerturbationsCommute(EffectOn(a, f), hit(a).value, EffectOn(b, f), hit(b).value, v);
    }
  }

  /** A scenario may as well come first. */
  lemma {:induction false} FoldBubbles(
      hit: Hits, f: Family, front: seq<Scenario>, s: Scenario, back: seq<Scenario>, v: real)
    ensures Fold(hit, f, front + [s] + back, v) == Fold(hit, f, [s] + (front + back), v)
    decreases |front|
  {
    if front == [] {
      assert front + [s] + back == [s] + (front + back);
    } else {
      var a, rest := front[0], front[1..];
      assert front + [s] + back == [a] + (rest + [s] + back);
      assert front + back == [a] + (rest + back);
      FoldOne(hit, f, a, rest + [s] + back, v);
      FoldBubbles(hit, f, rest, s, back, Step(hit, f, a, v));
      FoldOne(hit, f, s, rest + back, Step(hit, f, a, v));
      StepsCommute(hit, f, a, s, v);
      FoldOne(hit, f, s, front + back, v);
      FoldOne(hit, f, a, rest + back, Step(hit, f, s, v));
    }
  }

  /** The value of a series does not depend on the order in which scenarios are
      applied to it. */
  lemma {:induction false} OrderDoesNotMatter(
      hit: Hits, f: Family, order: seq<Scenario>, other: seq<Scenario>, v: real)
    requires multiset(order) == multiset(other)
    ensures Fold(hit, f, order, v) == Fold(hit, f, other, v)
    decreases |order|
  {
    if order == [] {
      assert |multiset(other)| == |other|;
    } else {
      var s, rest := order[0], order[1..];
      assert order == [s] + rest;
      assert s in multiset(other);
      var k :| 0 <= k < |other| && other[k] == s;
      var front, back := other[..k], other[k + 1..];
      assert other == front + [s] + back;
      RemoveOne(order, other, front, s, back);
      FoldBubbles(hit, f, front, s, back, v);
      FoldOne(hit, f, s, front + back, v);
      FoldOne(hit, f, s, rest, v);
      OrderDoesNotMatter(hit, f, rest, front + back, Step(hit, f, s, v));
    }
  }

  lemma RemoveOne(order: seq<Scenario>, other: seq<Scenario>, front: seq<Scenario>, s: Scenario, back: seq<Scenario>)
    requires order != [] && order[0] == s && other == front + [s] + back
    requires multiset(order) == multiset(other)
    ensures multiset(order[1..]) == multiset(front + back)
  {
    assert order == [s] + order[1..];
    assert multiset(order) == multiset{s} + multiset(order[1..]);
    assert multiset(other) == multiset(front) + multiset{s} + multiset(back);
    assert multiset(order[1..]) == multiset(order) - multiset{s};
    assert multiset(front) + multiset(back) == multiset(other) - multiset{s};
  }

  // ---------- who perturbs what ----------

  /** The scenario is active, targets this dimension or all, and concerns the
      family. */
  predicate Matches(inj: Injector, s: Scenario, f: Family, dim: string) {
    && inj(s).Some?
    && (DimScoped(s) ==> Sanitize(inj(s).value.dimension) == dim)
    && EffectOn(s, f) != Nothing
  }

  /** Coupon abuse and low-converting traffic hit every dimension; the others hit the
      one their target sanitizes to, and all hit with the injected intensity. */
  lemma WhoIsHit(inj: Injector, s: Scenario, dim: string)
    ensures HitsOn(inj, dim)(s).Some? <==>
      inj(s).Some? && (s == CouponAbuse || s == TrafficLowConv || Sanitize(inj(s).value.dimension) == dim)
    ensures HitsOn(inj, dim)(s).Some? ==> HitsOn(inj, dim)(s).value == inj(s).value.intensity
  {
  }

  /** In terms of labels: a scoped scenario aimed at one label matches a series
      registered under another exactly if the two labels give that series the
      same metric name. */
  lemma ScopedMatchIsANameMatch(inj: Injector, s: Scenario, f: Family, name: string, own: string)
    requires inj(s).Some? && DimScoped(s) && EffectOn(s, f) != Nothing
    requires own != "" && inj(s).value.dimension != ""
    ensures Matches(inj, s, f, Sanitize(own)) <==>
            MetricName(name, inj(s).value.dimension) == MetricName(name, own)
  {
    NamesRoundTrip(name, own);
    NamesRoundTrip(name, inj(s).value.dimension);
  }

  /** Scenarios that do not match a series leave it alone: two injectors whose
      matching scenarios agree perturb it alike, and without a matching scenario
      it keeps its value. */
  lemma OnlyMatchingScenariosPerturb(
      inj: Injector, other: Injector, f: Family, dim: string, order: seq<Scenario>, v: real)
    requires forall s :: Matches(inj, s, f, dim) || Matches(other, s, f, dim) ==> inj(s) == other(s)
    ensures Fold(HitsOn(inj, dim), f, order, v) == Fold(HitsOn(other, dim), f, order, v)
    ensures (forall s :: !Matches(inj, s, f, dim)) ==> Fold(HitsOn(inj, dim), f, order, v) == v
  {
    var a, b := HitsOn(inj, dim), HitsOn(other, dim);
    forall s | EffectOn(s, f) != Nothing ensures a(s) == b(s) {
      assert Matches(inj, s, f, dim) || Matches(other, s, f, dim) ==> inj(s) == other(s);
    }
    OnlyHitsPerturb(a, b, f, order, v);
    if forall s :: !Matches(inj, s, f, dim) {
      forall s | EffectOn(s, f) != Nothing ensures a(s) == None { assert !Matches(inj, s, f, dim); }
    }
  }

  lemma {:induction false} OnlyHitsPerturb(a: Hits, b: Hits, f: Family, order: seq<Scenario>, v: real)
    requires forall s :: EffectOn(s, f) != Nothing ==> a(s) == b(s)
    ensures Fold(a, f, order, v) == Fold(b, f, order, v)
    ensures (forall s :: EffectOn(s, f) != Nothing ==> a(s) == None) ==> Fold(a, f, order, v) == v
    decreases |order|
  {
    if order != [] {
      assert Step(a, f, order[0], v) == Step(b, f, order[0], v);
      OnlyHitsPerturb(a, b, f, order[1..], Step(a, f, order[0], v));
    }
  }

  /** Injected intensities lie in (0, 1]; then a positive series stays positive
      whatever hits it. */
  lemma {:induction false} PositiveStaysPositive(hit: Hits, f: Family, order: seq<Scenario>, v: real)
    requires v > 0.0
    requires forall s :: hit(s).Some? ==> 0.0 < hit(s).value <= 1.0
    ensures Fold(hit, f, order, v) > 0.0
    decreases |order|
  {
    if order != [] {
      var s := order[0];
      EffectsAreOfOneKind(s, s, f);
      if hit(s).Some? { EffectKeepsPositive(EffectOn(s, f), hit(s).value, v); }
      PositiveStaysPositive(hit, f, order[1..], Step(hit, f, s, v));
    }
  }

  lemma EffectKeepsPositive(e: Effect, k: real, v: real)
    requires 0.0 < k <= 1.0 && v > 0.0
    requires e.Scale? ==> e.factor > -1.0
    requires e.Shift? ==> e.factor >= 0.0
    ensures Perturb(e, k, v) > 0.0
  {
    if e.Scale? {
      ScaleStaysAbove(e.factor, k);
      ProductIsPositive(v, 1.0 + e.factor * k);
    } else if e.Shift? {
      ScaleStaysAbove(e.factor, k);
    }
  }

  lemma ScaleStaysAbove(a: real, k: real)
    requires 0.0 < k <= 1.0 && a > -1.0
    ensures a * k > -1.0
    ensures a >= 0.0 ==> a * k >= 0.0
  {
    if a < 0.0 { assert a * k - a == -a * (1.0 - k); assert -a * (1.0 - k) >= 0.0; }
  }

  lemma ProductIsPositive(x: real, y: real)
    requires x > 0.0 && y > 0.0
    ensures x * y > 0.0
  {
  }
}
