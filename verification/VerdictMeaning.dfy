/**
What a verdict means in plain terms: clock readings, replies and the numbers of
the scenario file, without the vocabulary the runner is specified in. Every
deadline is so many seconds after the phase began, as the scenario says, or the
phase's default.
*/
module VerdictMeaning {
  import opened Common
  import opened Text
  import opened Alerts
  import opened Verdict

  const NANOS: int := 1_000_000_000

  /** Seconds after which a phase gives up, given the scenario's number. */
  predicate InSeconds(elapsed: int, seconds: int, default: int) {
    (seconds > 0 ==> elapsed < seconds * NANOS) && (seconds <= 0 ==> elapsed < default * NANOS)
  }

  lemma WindowInSeconds(start: int, seconds: int, default: int, at: int)
    requires default > 0
    ensures at < start + Window(seconds, default * SECOND) <==> InSeconds(at - start, seconds, default)
  {
  }

  // ---------- pages ----------

  /** Row i of poll p was seen in time, after no cancellation, and lights up the
      pager. */
  ghost predicate Paged(w: Watch, service: string, injected: int, seconds: int, p: nat, i: nat) {
    && p < |w.polls| && w.polls[p].reply.Some? && i < |w.polls[p].reply.value|
    && (forall q :: 0 <= q <= p ==> InSeconds(w.polls[q].at - w.start, seconds, 600))
    && (forall q :: 0 <= q < p ==> !w.polls[q].cancelled)
    && LightsUp(w.baseline, w.polls[p].reply.value[i], service, injected)
  }

  lemma PagedIsHit(w: Watch, service: string, injected: int, seconds: int, p: nat, i: nat)
    ensures Paged(w, service, injected, seconds, p, i) <==>
            Hit(w, service, injected, Window(seconds, 10 * MINUTE), p, i)
  {
    var window := Window(seconds, 10 * MINUTE);
    HitMeans(w, service, injected, window, p, i);
    forall q | 0 <= q < |w.polls|
      ensures w.polls[q].at - w.start < window <==> InSeconds(w.polls[q].at - w.start, seconds, 600)
    {
      WindowInSeconds(w.start, seconds, 600, w.polls[q].at);
    }
  }

  /** Nothing paged. */
  ghost predicate QuietHolds(q: ExpectQuiet, env: Env) {
    forall p: nat, i: nat :: !Paged(env.quiet, q.service, env.injectAt, q.withinSeconds, p, i)
  }

  /** Row i of poll p is the first that paged. */
  ghost predicate FirstPage(w: Watch, service: string, injected: int, seconds: int, p: nat, i: nat) {
    && Paged(w, service, injected, seconds, p, i)
    && forall q: nat, j: nat :: q < p || (q == p && j < i) ==> !Paged(w, service, injected, seconds, q, j)
  }

  /** The first row that paged has a severity the scenario allows. */
  ghost predicate DetectHolds(d: ExpectDetect, env: Env) {
    exists p: nat, i: nat ::
      && FirstPage(env.detect, d.service, env.injectAt, d.withinSeconds, p, i)
      && (d.severitiesAny == [] ||
            exists s :: s in d.severitiesAny && Lower(s) == Lower(env.detect.polls[p].reply.value[i].severity))
  }

  lemma QuietMeans(q: ExpectQuiet, env: Env)
    ensures QuietOk(q, env) <==> QuietHolds(q, env)
  {
    forall p: nat, i: nat
      ensures Paged(env.quiet, q.service, env.injectAt, q.withinSeconds, p, i) <==>
              Hit(env.quiet, q.service, env.injectAt, Window(q.withinSeconds, 10 * MINUTE), p, i)
    {
      PagedIsHit(env.quiet, q.service, env.injectAt, q.withinSeconds, p, i);
    }
  }

  lemma FirstPageIsFirstHit(w: Watch, service: string, injected: int, seconds: int, p: nat, i: nat)
    ensures FirstPage(w, service, injected, seconds, p, i) <==>
            FirstHit(w, service, injected, Window(seconds, 10 * MINUTE), p, i)
  {
    forall q: nat, j: nat
      ensures Paged(w, service, injected, seconds, q, j) <==>
              Hit(w, service, injected, Window(seconds, 10 * MINUTE), q, j)
    {
      PagedIsHit(w, service, injected, seconds, q, j);
    }
  }

  lemma DetectMeans(d: ExpectDetect, env: Env)
    ensures DetectOk(d, env) <==> DetectHolds(d, env)
  {
    forall p: nat, i: nat
      ensures FirstPage(env.detect, d.service, env.injectAt, d.withinSeconds, p, i) <==>
              FirstHit(env.detect, d.service, env.injectAt, Window(d.withinSeconds, 10 * MINUTE), p, i)
    {
      FirstPageIsFirstHit(env.detect, d.service, env.injectAt, d.withinSeconds, p, i);
    }
  }

  /** A detected alert was polled less than the scenario's seconds into the phase. */
  lemma DetectedInTime(d: ExpectDetect, env: Env) returns (p: nat, i: nat)
    requires DetectOk(d, env)
    ensures FirstPage(env.detect, d.service, env.injectAt, d.withinSeconds, p, i)
    ensures d.withinSeconds > 0 ==> env.detect.polls[p].at < env.detect.start + d.withinSeconds * NANOS
    ensures d.withinSeconds <= 0 ==> env.detect.polls[p].at < env.detect.start + 600 * NANOS
  {
    DetectMeans(d, env);
    p, i :| FirstPage(env.detect, d.service, env.injectAt, d.withinSeconds, p, i);
  }

  // ---------- the analysis ----------

  /** The service asked about: the one to be detected, or else the first origin. */
  predicate AskedAbout(sc: Scenario, e: ExpectRCA, service: string) {
    if sc.detect.Some? then service == sc.detect.value.service
    else if e.originAny != [] then service == e.originAny[0]
    else service == ""
  }

  /** Poll p brought an analysis of this run, in time and before any cancellation,
      and no earlier one did. */
  predicate Analysed(sc: Scenario, e: ExpectRCA, env: Env, p: nat) {
    var polls := env.rca.polls;
    && !AskedAbout(sc, e, "")
    && (e.triggerDelaySeconds >= 0 ==> !env.rca.delayCancelled)
    && env.rca.triggered
    && p < |polls|
    && (forall q :: 0 <= q <= p ==> InSeconds(polls[q].at - env.rca.start, e.timeoutSeconds, 360))
    && (forall q :: 0 <= q < p ==> !polls[q].cancelled)
    && AnalysedAfter(polls[p].reply, env.injectAt)
    && (forall q :: 0 <= q < p ==> !AnalysedAfter(polls[q].reply, env.injectAt))
  }

  predicate AnalysedAfter(reply: Option<Analysis>, injected: int) {
    reply.Some? && reply.value.analyzedAt.Some? && reply.value.analyzedAt.value - injected > 0
  }

  /** The text or root cause of the analysis mentions the word. */
  predicate Says(a: Analysis, word: string) {
    Contains(Lower(a.text + " " + a.rootCause), Lower(word))
  }

  /** What an analysis that is not a fallback must get right: name one of the
      origins, with the confidence asked for if any; mention one of the keywords;
      and mention the version of a change, if one is demanded. */
  predicate Accurate(a: Analysis, e: ExpectRCA, sc: Scenario) {
    && (e.originAny != [] ==>
          && a.origin.Some?
          && (exists o :: o in e.originAny && ContainsFold(a.origin.value.service, o))
          && (e.confidenceMin > 0.0 ==> a.origin.value.confidence >= e.confidenceMin))
    && (e.keywordsAny != [] ==> exists kw :: kw in e.keywordsAny && Says(a, kw))
    && (e.requireChange ==> exists c :: c in sc.changes && c.version != "" && Says(a, c.version))
  }

  ghost predicate RcaHolds(sc: Scenario, e: ExpectRCA, env: Env) {
    exists p: nat :: Analysed(sc, e, env, p) &&
      (env.rca.polls[p].reply.value.degraded || Accurate(env.rca.polls[p].reply.value, e, sc))
  }

  lemma AnalysedIsFirst(sc: Scenario, e: ExpectRCA, env: Env, p: nat)
    ensures Analysed(sc, e, env, p) <==> FirstAnalysis(sc, e, env, p)
  {
    var window := Window(e.timeoutSeconds, 6 * MINUTE);
    assert AskedAbout(sc, e, "") <==> RcaService(sc, e) == "";
    assert TriggerDelay(e) > 0 <==> e.triggerDelaySeconds >= 0;
    forall q | 0 <= q < |env.rca.polls|
      ensures env.rca.polls[q].at < env.rca.start + window <==>
              InSeconds(env.rca.polls[q].at - env.rca.start, e.timeoutSeconds, 360)
    {
      WindowInSeconds(env.rca.start, e.timeoutSeconds, 360, env.rca.polls[q].at);
    }
    forall q | 0 <= q < |env.rca.polls|
      ensures IsFreshAnalysis(env.rca.polls[q], env.injectAt) <==> AnalysedAfter(env.rca.polls[q].reply, env.injectAt)
    {
    }
  }

  lemma AccurateMeetsEveryCriterion(a: Analysis, e: ExpectRCA, sc: Scenario)
    ensures Accurate(a, e, sc) <==> MeetsEveryCriterion(a, e, sc)
  {
    if a.origin.Some? {
      forall o ensures ServiceMatches(a.origin.value.service, o) <==> ContainsFold(a.origin.value.service, o) {
        ServiceMatchesIsContainment(a.origin.value.service, o);
      }
    }
    assert forall word :: Says(a, word) <==> ContainsFold(AnalysisText(a), word);
  }

  lemma RcaMeans(sc: Scenario, e: ExpectRCA, env: Env)
    ensures RcaOk(sc, e, env) <==> RcaHolds(sc, e, env)
  {
    forall p: nat ensures Analysed(sc, e, env, p) <==> FirstAnalysis(sc, e, env, p) {
      AnalysedIsFirst(sc, e, env, p);
    }
    forall p: nat | p < |env.rca.polls| && env.rca.polls[p].reply.Some?
      ensures Accurate(env.rca.polls[p].reply.value, e, sc) <==>
              MeetsEveryCriterion(env.rca.polls[p].reply.value, e, sc)
    {
      AccurateMeetsEveryCriterion(env.rca.polls[p].reply.value, e, sc);
    }
  }

  // ---------- recovery and business ----------

  /** The target of the remediation: the one named, or that of the first injection. */
  function NamedTarget(sc: Scenario, rem: ExpectRemediation): string {
    if rem.target != "" || sc.injectTargets == [] then rem.target else sc.injectTargets[0]
  }

  /** Look p took place in time and before any cancellation and did not find the
      fault active: the target is unknown, or answered that no fault is, or what
      does not decode. */
  predicate LookedClear(sc: Scenario, rem: ExpectRemediation, env: Env, targets: set<string>, p: nat) {
    var probes := env.recovery.probes;
    && p < |probes|
    && (forall q :: 0 <= q <= p ==> InSeconds(probes[q].at - env.recovery.start, rem.withinSeconds, 300))
    && (forall q :: 0 <= q < p ==> !probes[q].cancelled)
    && (NamedTarget(sc, rem) !in targets || probes[p].reply == Status(false) || probes[p].reply == Undecodable)
  }

  /** The runbook was triggered, approved and dispatched, and some look was clear. */
  ghost predicate RecoveryHolds(sc: Scenario, rem: ExpectRemediation, env: Env, targets: set<string>) {
    && env.recovery.triggered && env.recovery.approved && env.recovery.dispatched
    && exists p: nat :: LookedClear(sc, rem, env, targets, p)
  }

  lemma LookedClearMeans(sc: Scenario, rem: ExpectRemediation, env: Env, targets: set<string>, p: nat)
    ensures LookedClear(sc, rem, env, targets, p) <==>
      && ProbeReached(env.recovery.probes, env.recovery.start + Window(rem.withinSeconds, 5 * MINUTE), p)
      && !LooksActive(RemediationTarget(sc, rem) in targets, env.recovery.probes[p].reply)
  {
    forall q | 0 <= q < |env.recovery.probes|
      ensures env.recovery.probes[q].at < env.recovery.start + Window(rem.withinSeconds, 5 * MINUTE) <==>
              InSeconds(env.recovery.probes[q].at - env.recovery.start, rem.withinSeconds, 300)
    {
      WindowInSeconds(env.recovery.start, rem.withinSeconds, 300, env.recovery.probes[q].at);
    }
  }

  lemma RecoveryMeans(sc: Scenario, rem: ExpectRemediation, env: Env, targets: set<string>)
    ensures RemediationOk(sc, rem, env, targets) <==> RecoveryHolds(sc, rem, env, targets)
  {
    forall p: nat
      ensures LookedClear(sc, rem, env, targets, p) <==>
        && ProbeReached(env.recovery.probes, env.recovery.start + Window(rem.withinSeconds, 5 * MINUTE), p)
        && !LooksActive(RemediationTarget(sc, rem) in targets, env.recovery.probes[p].reply)
    {
      LookedClearMeans(sc, rem, env, targets, p);
    }
  }

  /** Poll p took place in time and mentioned one of the keywords. */
  predicate Mentioned(b: ExpectBusiness, env: Env, p: nat) {
    && p < |env.business.polls|
    && (forall q :: 0 <= q <= p ==> InSeconds(env.business.polls[q].at - env.business.start, b.timeoutSeconds, 480))
    && exists kw :: kw in b.keywordsAny && Contains(Lower(env.business.polls[p].raw), Lower(kw))
  }

  ghost predicate BusinessHolds(b: ExpectBusiness, env: Env) { exists p: nat :: Mentioned(b, env, p) }

  lemma MentionedMeans(b: ExpectBusiness, env: Env, p: nat)
    ensures Mentioned(b, env, p) <==>
      && RawReached(env.business.polls, env.business.start + Window(b.timeoutSeconds, 8 * MINUTE), p)
      && Mentions(b, env.business.polls[p].raw)
  {
    forall q | 0 <= q < |env.business.polls|
      ensures env.business.polls[q].at < env.business.start + Window(b.timeoutSeconds, 8 * MINUTE) <==>
              InSeconds(env.business.polls[q].at - env.business.start, b.timeoutSeconds, 480)
    {
      WindowInSeconds(env.business.start, b.timeoutSeconds, 480, env.business.polls[q].at);
    }
  }

  lemma BusinessMeans(b: ExpectBusiness, env: Env)
    ensures BusinessOk(b, env) <==> BusinessHolds(b, env)
  {
    forall p: nat
      ensures Mentioned(b, env, p) <==>
        && RawReached(env.business.polls, env.business.start + Window(b.timeoutSeconds, 8 * MINUTE), p)
        && Mentions(b, env.business.polls[p].raw)
    {
      MentionedMeans(b, env, p);
    }
  }

  // ---------- the whole verdict ----------

  /** A scenario passes if and only if the engine was not degraded and every target
      known and reachable, every change was accepted, nothing paged in the quiet
      phase, the first page of the detect phase was of an allowed severity, the
      analysis was accurate or a fallback, the remediation was dispatched and did
      not find the fault active, or was switched off, and the business endpoint
      mentioned the fault - each as far as the scenario asks for it, and in time. */
  lemma PassingMeans(sc: Scenario, env: Env, targets: set<string>, skip: bool)
    ensures Deserved(sc, env, targets, skip) <==>
      && env.saturation != Some(true)
      && (forall i :: 0 <= i < |sc.injectTargets| ==> sc.injectTargets[i] in targets && env.reachable(i))
      && (forall i :: 0 <= i < |sc.changes| ==> env.changeAccepted(i))
      && (sc.quiet.Some? ==> QuietHolds(sc.quiet.value, env))
      && (sc.detect.Some? ==> DetectHolds(sc.detect.value, env))
      && (sc.rca.Some? ==> RcaHolds(sc, sc.rca.value, env))
      && (sc.remediation.Some? ==> skip || RecoveryHolds(sc, sc.remediation.value, env, targets))
      && (sc.business.Some? ==> BusinessHolds(sc.business.value, env))
  {
    WatchedMeans(sc, env);
    GradedMeans(sc, env, targets, skip);
    if sc.business.Some? { BusinessMeans(sc.business.value, env); }
  }

  lemma WatchedMeans(sc: Scenario, env: Env)
    ensures WatchedOk(sc, env) <==>
      && (sc.quiet.Some? ==> QuietHolds(sc.quiet.value, env))
      && (sc.detect.Some? ==> DetectHolds(sc.detect.value, env))
  {
    if sc.quiet.Some? { QuietMeans(sc.quiet.value, env); }
    if sc.detect.Some? { DetectMeans(sc.detect.value, env); }
  }

  lemma GradedMeans(sc: Scenario, env: Env, targets: set<string>, skip: bool)
    ensures GradedOk(sc, env, targets, skip) <==>
      && (sc.rca.Some? ==> RcaHolds(sc, sc.rca.value, env))
      && (sc.remediation.Some? ==> skip || RecoveryHolds(sc, sc.remediation.value, env, targets))
  {
    if sc.rca.Some? { RcaMeans(sc, sc.rca.value, env); }
    if sc.remediation.Some? { RecoveryMeans(sc, sc.remediation.value, env, targets); }
  }

  /** The phase that is reported as failed is the one that did, skipped is only a
      remediation that was switched off, and degraded only an analysis whose
      first fresh reply was a fallback. */
  lemma ReportMeans(sc: Scenario, env: Env, targets: set<string>, skip: bool, r: RunResult, p: PhaseResult)
    requires Ledger(sc, env, targets, skip, r.phases, ExpectedPhases(sc, env, targets), r.passed) && p in r.phases
    ensures p.phase == Quiet && sc.quiet.Some? ==>
      p.outcome == if QuietHolds(sc.quiet.value, env) then Pass else Fail
    ensures p.phase == Detect && sc.detect.Some? ==>
      p.outcome == if DetectHolds(sc.detect.value, env) then Pass else Fail
    ensures p.phase == Remediation && sc.remediation.Some? ==>
      p.outcome == if skip then Skip else if RecoveryHolds(sc, sc.remediation.value, env, targets) then Pass else Fail
    ensures p.phase == Business && sc.business.Some? ==>
      p.outcome == if BusinessHolds(sc.business.value, env) then Pass else Fail
    ensures p.phase == Rca && sc.rca.Some? ==> (p.outcome == Fail <==> !RcaHolds(sc, sc.rca.value, env))
    ensures p.phase == Rca && sc.rca.Some? ==>
      (p.outcome == DegradedOutcome <==>
         exists k: nat :: Analysed(sc, sc.rca.value, env, k) && env.rca.polls[k].reply.value.degraded)
    ensures p.phase == Inject || p.phase == Cooldown ==> p.outcome == Pass
  {
    assert Honest(sc, env, targets, skip, p);
    WatchedReport(sc, env);
    if sc.rca.Some? {
      RcaMeans(sc, sc.rca.value, env);
      DegradedMeans(sc, sc.rca.value, env);
    }
    if sc.remediation.Some? { RecoveryMeans(sc, sc.remediation.value, env, targets); }
    if sc.business.Some? { BusinessMeans(sc.business.value, env); }
  }

  lemma WatchedReport(sc: Scenario, env: Env)
    ensures sc.quiet.Some? ==> (QuietOk(sc.quiet.value, env) <==> QuietHolds(sc.quiet.value, env))
    ensures sc.detect.Some? ==> (DetectOk(sc.detect.value, env) <==> DetectHolds(sc.detect.value, env))
  {
    if sc.quiet.Some? { QuietMeans(sc.quiet.value, env); }
    if sc.detect.Some? { DetectMeans(sc.detect.value, env); }
  }

  lemma DegradedMeans(sc: Scenario, e: ExpectRCA, env: Env)
    ensures RcaDegraded(sc, e, env) <==>
            exists k: nat :: Analysed(sc, e, env, k) && env.rca.polls[k].reply.value.degraded
  {
    forall p: nat ensures Analysed(sc, e, env, p) <==> FirstAnalysis(sc, e, env, p) {
      AnalysedIsFirst(sc, e, env, p);
    }
  }
}
