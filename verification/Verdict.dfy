/**
The verdict of one scenario run: phases in a fixed order, polling loops with
deadlines, grading, and a result that passes unless a phase failed. The system
under test and the targets answer whatever they like: `Env` holds every reply
and every clock reading a run can depend on.
*/
module Verdict {
  import opened Common
  import opened Text
  import opened Alerts

  datatype Phase = Preflight | Setup | Inject | Quiet | Detect | Rca | Remediation | Business | Cooldown

  datatype Outcome = Pass | Fail | Skip | DegradedOutcome

  datatype PhaseResult = PhaseResult(phase: Phase, outcome: Outcome)

  datatype RunResult = RunResult(phases: seq<PhaseResult>, passed: bool)

  // ---------- scenarios ----------

  datatype Change = Change(service: string, version: string)

  datatype ExpectDetect = ExpectDetect(service: string, withinSeconds: int, severitiesAny: seq<string>)

  datatype ExpectQuiet = ExpectQuiet(service: string, withinSeconds: int)

  datatype ExpectRCA = ExpectRCA(
    originAny: seq<string>, confidenceMin: real, keywordsAny: seq<string>, requireChange: bool,
    timeoutSeconds: int, triggerDelaySeconds: int)

  datatype ExpectRemediation = ExpectRemediation(target: string, withinSeconds: int)

  datatype ExpectBusiness = ExpectBusiness(keywordsAny: seq<string>, timeoutSeconds: int)

  /** `injectTargets` are the targets of the injections, in order. */
  datatype Scenario = Scenario(
    changes: seq<Change>,
    injectTargets: seq<string>,
    quiet: Option<ExpectQuiet>,
    detect: Option<ExpectDetect>,
    rca: Option<ExpectRCA>,
    remediation: Option<ExpectRemediation>,
    business: Option<ExpectBusiness>)

  // ---------- replies ----------

  datatype Origin = Origin(service: string, confidence: real)

  /** `analyzedAt` is None when its time does not parse. */
  datatype Analysis = Analysis(
    analyzedAt: Option<int>, text: string, rootCause: string, degraded: bool, origin: Option<Origin>)

  datatype RcaPoll = RcaPoll(at: int, reply: Option<Analysis>, cancelled: bool)

  datatype RcaWatch = RcaWatch(delayCancelled: bool, triggered: bool, start: int, polls: seq<RcaPoll>)

  /** A status request to the target whose fault must clear. */
  datatype Reply = Unreachable | Undecodable | Status(active: bool)

  datatype Probe = Probe(at: int, reply: Reply, cancelled: bool)

  datatype Recovery = Recovery(triggered: bool, approved: bool, dispatched: bool, start: int, probes: seq<Probe>)

  datatype RawPoll = RawPoll(at: int, raw: string)

  datatype BusinessWatch = BusinessWatch(start: int, polls: seq<RawPoll>)

  /** `saturation` is None when the endpoint fails, else whether the engine is
      degraded; `reachable(i)` says whether the target of injection i answers,
      `changeAccepted(i)` whether change event i is accepted. */
  datatype Env = Env(
    saturation: Option<bool>,
    reachable: nat -> bool,
    changeAccepted: nat -> bool,
    injectAt: int,
    quiet: Watch,
    detect: Watch,
    rca: RcaWatch,
    recovery: Recovery,
    business: BusinessWatch)

  function Window(seconds: int, default: int): int {
    if seconds * SECOND <= 0 then default else seconds * SECOND
  }

  // ---------- what each phase should say ----------

  predicate PreflightOk(sc: Scenario, env: Env, targets: set<string>) {
    && env.saturation != Some(true)
    && forall i :: 0 <= i < |sc.injectTargets| ==> sc.injectTargets[i] in targets && env.reachable(i)
  }

  predicate SetupOk(sc: Scenario, env: Env) {
    forall i :: 0 <= i < |sc.changes| ==> env.changeAccepted(i)
  }

  ghost predicate QuietOk(q: ExpectQuiet, env: Env) {
    NothingHit(env.quiet, q.service, env.injectAt, Window(q.withinSeconds, 10 * MINUTE))
  }

  predicate SeverityAllowed(d: ExpectDetect, a: Alert) {
    d.severitiesAny == [] || exists s :: s in d.severitiesAny && EqualFold(s, a.severity)
  }

  ghost predicate DetectOk(d: ExpectDetect, env: Env) {
    exists p: nat, i: nat ::
      FirstHit(env.detect, d.service, env.injectAt, Window(d.withinSeconds, 10 * MINUTE), p, i) &&
      SeverityAllowed(d, Table(env.detect.polls[p])[i])
  }

  /** The service an analysis is asked for, or "" if the scenario names none. */
  function RcaService(sc: Scenario, e: ExpectRCA): string {
    if sc.detect.Some? then sc.detect.value.service
    else if |e.originAny| > 0 then e.originAny[0]
    else ""
  }

  function TriggerDelay(e: ExpectRCA): int {
    if e.triggerDelaySeconds == 0 then 240 * SECOND
    else if e.triggerDelaySeconds < 0 then 0
    else e.triggerDelaySeconds * SECOND
  }

  predicate RcaReached(polls: seq<RcaPoll>, deadline: int, p: nat) {
    p < |polls| &&
    forall q :: 0 <= q <= p ==> polls[q].at < deadline && (q < p ==> !polls[q].cancelled)
  }

  predicate IsFreshAnalysis(p: RcaPoll, injectAt: int) {
    p.reply.Some? && p.reply.value.analyzedAt.Some? && p.reply.value.analyzedAt.value > injectAt
  }

  predicate FirstAnalysis(sc: Scenario, e: ExpectRCA, env: Env, p: nat) {
    && RcaService(sc, e) != ""
    && (TriggerDelay(e) > 0 ==> !env.rca.delayCancelled)
    && env.rca.triggered
    && RcaReached(env.rca.polls, env.rca.start + Window(e.timeoutSeconds, 6 * MINUTE), p)
    && IsFreshAnalysis(env.rca.polls[p], env.injectAt)
    && forall q :: 0 <= q < p ==> !IsFreshAnalysis(env.rca.polls[q], env.injectAt)
  }

  function AnalysisText(a: Analysis): string { a.text + " " + a.rootCause }

  predicate NamesOrigin(a: Analysis, e: ExpectRCA) {
    a.origin.Some? && exists s :: s in e.originAny && ServiceMatches(a.origin.value.service, s)
  }

  /** Confidence is graded only together with an origin. */
  predicate OriginCriterion(a: Analysis, e: ExpectRCA) {
    e.originAny == [] ||
    (NamesOrigin(a, e) && (e.confidenceMin <= 0.0 || a.origin.value.confidence >= e.confidenceMin))
  }

  predicate EvidenceCriterion(a: Analysis, e: ExpectRCA) {
    e.keywordsAny == [] || exists kw :: kw in e.keywordsAny && ContainsFold(AnalysisText(a), kw)
  }

  predicate ChangeCriterion(a: Analysis, e: ExpectRCA, sc: Scenario) {
    e.requireChange ==>
      exists c :: c in sc.changes && c.version != "" && ContainsFold(AnalysisText(a), c.version)
  }

  predicate MeetsEveryCriterion(a: Analysis, e: ExpectRCA, sc: Scenario) {
    OriginCriterion(a, e) && EvidenceCriterion(a, e) && ChangeCriterion(a, e, sc)
  }

  /** A fallback analysis is neither accurate nor a failure. */
  ghost predicate RcaOk(sc: Scenario, e: ExpectRCA, env: Env) {
    exists p: nat :: FirstAnalysis(sc, e, env, p) &&
      (env.rca.polls[p].reply.value.degraded || MeetsEveryCriterion(env.rca.polls[p].reply.value, e, sc))
  }

  ghost predicate RcaDegraded(sc: Scenario, e: ExpectRCA, env: Env) {
    exists p: nat :: FirstAnalysis(sc, e, env, p) && env.rca.polls[p].reply.value.degraded
  }

  function RemediationTarget(sc: Scenario, rem: ExpectRemediation): string {
    if rem.target == "" && |sc.injectTargets| > 0 then sc.injectTargets[0] else rem.target
  }

  /** What the harness concludes: an unknown target and a body that does not
      decode both read as no fault active. */
  predicate LooksActive(known: bool, r: Reply) {
    known && (r == Unreachable || r == Status(true))
  }

  predicate ProbeReached(probes: seq<Probe>, deadline: int, p: nat) {
    p < |probes| &&
    forall q :: 0 <= q <= p ==> probes[q].at < deadline && (q < p ==> !probes[q].cancelled)
  }

  ghost predicate LooksCleared(sc: Scenario, rem: ExpectRemediation, env: Env, targets: set<string>) {
    exists p: nat ::
      ProbeReached(env.recovery.probes, env.recovery.start + Window(rem.withinSeconds, 5 * MINUTE), p) &&
      !LooksActive(RemediationTarget(sc, rem) in targets, env.recovery.probes[p].reply)
  }

  ghost predicate RemediationOk(sc: Scenario, rem: ExpectRemediation, env: Env, targets: set<string>) {
    env.recovery.triggered && env.recovery.approved && env.recovery.dispatched &&
    LooksCleared(sc, rem, env, targets)
  }

  predicate Mentions(b: ExpectBusiness, raw: string) {
    exists kw :: kw in b.keywordsAny && ContainsFold(raw, kw)
  }

  predicate RawReached(polls: seq<RawPoll>, deadline: int, p: nat) {
    p < |polls| && forall q :: 0 <= q <= p ==> polls[q].at < deadline
  }

  ghost predicate BusinessOk(b: ExpectBusiness, env: Env) {
    exists p: nat ::
      RawReached(env.business.polls, env.business.start + Window(b.timeoutSeconds, 8 * MINUTE), p) &&
      Mentions(b, env.business.polls[p].raw)
  }

  ghost predicate WatchedOk(sc: Scenario, env: Env) {
    && (sc.quiet.Some? ==> QuietOk(sc.quiet.value, env))
    && (sc.detect.Some? ==> DetectOk(sc.detect.value, env))
  }

  ghost predicate GradedOk(sc: Scenario, env: Env, targets: set<string>, skip: bool) {
    && (sc.rca.Some? ==> RcaOk(sc, sc.rca.value, env))
    && (sc.remediation.Some? && !skip ==> RemediationOk(sc, sc.remediation.value, env, targets))
  }

  ghost predicate ConcludedOk(sc: Scenario, env: Env) {
    sc.business.Some? ==> BusinessOk(sc.business.value, env)
  }

  /** The ground truth of a run: everything the scenario expects came true. */
  ghost predicate Deserved(sc: Scenario, env: Env, targets: set<string>, skip: bool) {
    && PreflightOk(sc, env, targets) && SetupOk(sc, env)
    && WatchedOk(sc, env) && GradedOk(sc, env, targets, skip) && ConcludedOk(sc, env)
  }

  // ---------- which phases appear ----------

  function Also(ps: seq<Phase>, present: bool, p: Phase): seq<Phase> { if present then ps + [p] else ps }

  function StartNames(sc: Scenario): seq<Phase> {
    Also([Preflight], sc.changes != [], Setup) + [Inject]
  }

  function WatchedNames(sc: Scenario): seq<Phase> {
    Also(Also(StartNames(sc), sc.quiet.Some?, Quiet), sc.detect.Some?, Detect)
  }

  function GradedNames(sc: Scenario): seq<Phase> {
    Also(Also(WatchedNames(sc), sc.rca.Some?, Rca), sc.remediation.Some?, Remediation)
  }

  /** The phases a run goes through, in the order it does. */
  function ExpectedPhases(sc: Scenario, env: Env, targets: set<string>): seq<Phase> {
    if !PreflightOk(sc, env, targets) then [Preflight]
    else if !SetupOk(sc, env) then [Preflight, Setup]
    else Also(GradedNames(sc), sc.business.Some?, Business) + [Cooldown]
  }

  function PhaseNames(rs: seq<PhaseResult>): seq<Phase> {
    seq(|rs|, i requires 0 <= i < |rs| => rs[i].phase)
  }

  function Rank(p: Phase): nat {
    match p
    case Preflight => 0 case Setup => 1 case Inject => 2 case Quiet => 3 case Detect => 4
    case Rca => 5 case Remediation => 6 case Business => 7 case Cooldown => 8
  }

  ghost predicate Canonical(ps: seq<Phase>) {
    forall i, j :: 0 <= i < j < |ps| ==> Rank(ps[i]) < Rank(ps[j])
  }

  /** What the scenario expects of one phase came true. */
  ghost predicate PhaseOk(sc: Scenario, env: Env, targets: set<string>, phase: Phase) {
    match phase
    case Preflight => PreflightOk(sc, env, targets)
    case Setup => SetupOk(sc, env)
    case Quiet => sc.quiet.Some? ==> QuietOk(sc.quiet.value, env)
    case Detect => sc.detect.Some? ==> DetectOk(sc.detect.value, env)
    case Rca => sc.rca.Some? ==> RcaOk(sc, sc.rca.value, env)
    case Remediation => sc.remediation.Some? ==> RemediationOk(sc, sc.remediation.value, env, targets)
    case Business => sc.business.Some? ==> BusinessOk(sc.business.value, env)
    case _ => true
  }

  /** A phase is reported as failed exactly if what it expects did not come true;
      a fallback analysis is the only degraded phase, a suppressed remediation the
      only skipped one. */
  ghost predicate Honest(sc: Scenario, env: Env, targets: set<string>, skip: bool, p: PhaseResult) {
    && (p.outcome == Fail <==> !PhaseOk(sc, env, targets, p.phase) && !(p.phase == Remediation && skip))
    && (p.outcome == DegradedOutcome <==>
          p.phase == Rca && sc.rca.Some? && RcaDegraded(sc, sc.rca.value, env))
    && (p.outcome == Skip <==> p.phase == Remediation && skip)
  }

  /** The phases so far have these names, are honest, and none of them failed
      exactly if `ok`. */
  ghost predicate Ledger(
      sc: Scenario, env: Env, targets: set<string>, skip: bool, phases: seq<PhaseResult>, names: seq<Phase>, ok: bool)
  {
    && PhaseNames(phases) == names
    && (forall p :: p in phases ==> Honest(sc, env, targets, skip, p))
    && (ok <==> forall p :: p in phases ==> p.outcome != Fail)
  }

  lemma LedgerGrows(
      sc: Scenario, env: Env, targets: set<string>, skip: bool, phases: seq<PhaseResult>, names: seq<Phase>, ok: bool,
      p: PhaseResult)
    requires Ledger(sc, env, targets, skip, phases, names, ok) && Honest(sc, env, targets, skip, p)
    ensures Ledger(sc, env, targets, skip, phases + [p], names + [p.phase], ok && p.outcome != Fail)
  {
  }

  // ---------- the runner ----------

  class Runner {
    const targets: set<string>
    const skipRemediation: bool

    constructor (targets: set<string>, skipRemediation: bool)
      ensures this.targets == targets && this.skipRemediation == skipRemediation
    {
      this.targets, this.skipRemediation := targets, skipRemediation;
    }

    method CheckTargets(sc: Scenario, env: Env) returns (ok: bool)
      ensures ok == PreflightOk(sc, env, targets)
    {
      if env.saturation.Some? && env.saturation.value { return false; }
      for i := 0 to |sc.injectTargets|
        invariant forall j :: 0 <= j < i ==> sc.injectTargets[j] in targets && env.reachable(j)
      {
        if sc.injectTargets[i] !in targets { return false; }
        if !env.reachable(i) { return false; }
      }
      return true;
    }

    method PostChanges(sc: Scenario, env: Env) returns (ok: bool, versions: seq<string>)
      ensures ok == SetupOk(sc, env)
      ensures ok ==> forall v :: v in versions <==> v != "" && exists c :: c in sc.changes && c.version == v
    {
      versions := [];
      for i := 0 to |sc.changes|
        invariant forall j :: 0 <= j < i ==> env.changeAccepted(j)
        invariant forall v :: v in versions <==> v != "" && exists c :: c in sc.changes[..i] && c.version == v
      {
        if !env.changeAccepted(i) { return false, versions; }
        assert sc.changes[..i + 1] == sc.changes[..i] + [sc.changes[i]];
        if sc.changes[i].version != "" {
          versions := versions + [sc.changes[i].version];
        }
      }
      assert sc.changes[..|sc.changes|] == sc.changes;
      ok := true;
    }

    /** Collects the criteria an analysis misses; none missed is a pass. */
    method GradeRCA(a: Analysis, e: ExpectRCA, versions: seq<string>, ghost sc: Scenario) returns (outcome: Outcome)
      requires forall v :: v in versions <==> v != "" && exists c :: c in sc.changes && c.version == v
      ensures outcome == if MeetsEveryCriterion(a, e, sc) then Pass else Fail
    {
      var fails := 0;
      if |e.originAny| > 0 {
        var ok := false;
        if a.origin.Some? {
          for i := 0 to |e.originAny|
            invariant ok <==> exists s :: s in e.originAny[..i] && ServiceMatches(a.origin.value.service, s)
          {
            assert e.originAny[..i + 1] == e.originAny[..i] + [e.originAny[i]];
            if ServiceMatches(a.origin.value.service, e.originAny[i]) { ok := true; }
          }
          assert e.originAny[..|e.originAny|] == e.originAny;
        }
        if !ok {
          fails := fails + 1;
        } else if e.confidenceMin > 0.0 && a.origin.value.confidence < e.confidenceMin {
          fails := fails + 1;
        }
      }
      assert fails == 0 <==> OriginCriterion(a, e);
      if |e.keywordsAny| > 0 {
        var hit := AnyMentioned(AnalysisText(a), e.keywordsAny);
        if !hit { fails := fails + 1; }
      }
      if e.requireChange {
        var hit := AnyMentioned(AnalysisText(a), versions);
        if !hit { fails := fails + 1; }
        VersionsAreEvidence(a, e, versions, sc);
      }
      return if fails > 0 then Fail else Pass;
    }

    static method AnyMentioned(text: string, words: seq<string>) returns (hit: bool)
      ensures hit <==> exists kw :: kw in words && ContainsFold(text, kw)
    {
      hit := false;
      for i := 0 to |words|
        invariant hit <==> exists kw :: kw in words[..i] && ContainsFold(text, kw)
      {
        assert words[..i + 1] == words[..i] + [words[i]];
        if ContainsFold(text, words[i]) { hit := true; }
      }
      assert words[..|words|] == words;
    }

    method RunRCA(sc: Scenario, e: ExpectRCA, env: Env) returns (r: Option<Analysis>)
      ensures r == None <==> forall p: nat :: !FirstAnalysis(sc, e, env, p)
      ensures forall p: nat :: FirstAnalysis(sc, e, env, p) ==> r == env.rca.polls[p].reply
    {
      if RcaService(sc, e) == "" { return None; }
      var delay := TriggerDelay(e);
      if delay > 0 && env.rca.delayCancelled { return None; }
      if !env.rca.triggered { return None; }
      var deadline := env.rca.start + Window(e.timeoutSeconds, 6 * MINUTE);
      var p, found := PollAnalyses(env.rca.polls, deadline, env.injectAt);
      if !found { return None; }
      assert FirstAnalysis(sc, e, env, p);
      return env.rca.polls[p].reply;
    }

    /** Polls until there is a fresh analysis, the deadline is over, or the run is
        cancelled. */
    static method PollAnalyses(polls: seq<RcaPoll>, deadline: int, injectAt: int) returns (p: nat, found: bool)
      ensures found ==> RcaReached(polls, deadline, p) && IsFreshAnalysis(polls[p], injectAt)
      ensures found ==> forall q :: 0 <= q < p ==> !IsFreshAnalysis(polls[q], injectAt)
      ensures !found ==> forall q: nat :: RcaReached(polls, deadline, q) ==> !IsFreshAnalysis(polls[q], injectAt)
    {
      p := 0;
      while p < |polls| && polls[p].at < deadline
        invariant 0 <= p <= |polls|
        invariant forall q :: 0 <= q < p ==> polls[q].at < deadline && !polls[q].cancelled
        invariant forall q :: 0 <= q < p ==> !IsFreshAnalysis(polls[q], injectAt)
      {
        if IsFreshAnalysis(polls[p], injectAt) { return p, true; }
        if polls[p].cancelled { return p, false; }
        p := p + 1;
      }
      found := false;
    }

    method RunRemediation(sc: Scenario, rem: ExpectRemediation, env: Env) returns (outcome: Outcome)
      ensures outcome == if RemediationOk(sc, rem, env, targets) then Pass else Fail
    {
      if !env.recovery.triggered { return Fail; }
      if !env.recovery.approved { return Fail; }
      if !env.recovery.dispatched { return Fail; }
      var target := rem.target;
      if target == "" && |sc.injectTargets| > 0 { target := sc.injectTargets[0]; }
      var deadline := env.recovery.start + Window(rem.withinSeconds, 5 * MINUTE);
      var probes := env.recovery.probes;
      var p := 0;
      while p < |probes| && probes[p].at < deadline
        invariant 0 <= p <= |probes|
        invariant forall q :: 0 <= q < p ==> probes[q].at < deadline && !probes[q].cancelled
        invariant forall q :: 0 <= q < p ==> LooksActive(target in targets, probes[q].reply)
      {
        assert ProbeReached(probes, deadline, p);
        if !LooksActive(target in targets, probes[p].reply) { return Pass; }
        if probes[p].cancelled { return Fail; }
        p := p + 1;
      }
      return Fail;
    }

    method WatchBusiness(b: ExpectBusiness, env: Env) returns (hit: bool)
      ensures hit == BusinessOk(b, env)
    {
      var deadline := env.business.start + Window(b.timeoutSeconds, 8 * MINUTE);
      var polls := env.business.polls;
      hit := false;
      var p := 0;
      while p < |polls| && polls[p].at < deadline && !hit
        invariant 0 <= p <= |polls|
        invariant forall q :: 0 <= q < p ==> polls[q].at < deadline
        invariant hit <==> exists q :: 0 <= q < p && Mentions(b, polls[q].raw)
        decreases |polls| - p
      {
        hit := AnyMentioned(polls[p].raw, b.keywordsAny);
        assert hit == Mentions(b, polls[p].raw);
        p := p + 1;
      }
      if hit {
        var q :| 0 <= q < p && Mentions(b, polls[q].raw);
        assert RawReached(polls, deadline, q);
      }
    }

    /** The targets sent a kill-switch: every known target of the scenario, once. */
    method KillAll(sc: Scenario) returns (posts: seq<string>)
      ensures forall t :: t in posts <==> t in sc.injectTargets && t in targets
      ensures forall i, j :: 0 <= i < j < |posts| ==> posts[i] != posts[j]
    {
      posts := [];
      var seen: set<string> := {};
      for i := 0 to |sc.injectTargets|
        invariant forall t :: t in seen <==> t in sc.injectTargets[..i]
        invariant forall t :: t in posts <==> t in seen && t in targets
        invariant forall j, k :: 0 <= j < k < |posts| ==> posts[j] != posts[k]
      {
        assert sc.injectTargets[..i + 1] == sc.injectTargets[..i] + [sc.injectTargets[i]];
        var t := sc.injectTargets[i];
        if t in seen { continue; }
        seen := seen + {t};
        if t in targets { posts := posts + [t]; }
      }
      assert sc.injectTargets[..|sc.injectTargets|] == sc.injectTargets;
    }

    static method Finish(phases: seq<PhaseResult>) returns (r: RunResult)
      ensures r.phases == phases
      ensures r.passed <==> forall p :: p in phases ==> p.outcome != Fail
    {
      var passed := true;
      for i := 0 to |phases|
        invariant passed <==> forall p :: p in phases[..i] ==> p.outcome != Fail
      {
        assert phases[..i + 1] == phases[..i] + [phases[i]];
        if phases[i].outcome == Fail { passed := false; }
      }
      assert phases[..|phases|] == phases;
      return RunResult(phases, passed);
    }

    /** One scenario run. It passes exactly when everything the scenario expects
        came true, goes through exactly the expected phases in order, and
        reports an analysis as degraded exactly when it got a fallback. */
    method Run(sc: Scenario, env: Env) returns (r: RunResult)
      ensures r.passed <==> Deserved(sc, env, targets, skipRemediation)
      ensures Ledger(sc, env, targets, skipRemediation, r.phases, ExpectedPhases(sc, env, targets), r.passed)
    {
      var phases, versions, started := Begin(sc, env);
      if !started {
        r := Finish(phases);
        return;
      }
      phases := Watched(sc, env, phases, StartNames(sc));
      ghost var ok := WatchedOk(sc, env);
      phases := Graded(sc, env, versions, phases, WatchedNames(sc), ok);
      ok := ok && GradedOk(sc, env, targets, skipRemediation);
      phases := Concluded(sc, env, phases, GradedNames(sc), ok);
      r := Finish(phases);
    }

    /** Preflight, change events, and the dispatch of the injections. */
    method Begin(sc: Scenario, env: Env)
      returns (phases: seq<PhaseResult>, versions: seq<string>, started: bool)
      ensures started <==> PreflightOk(sc, env, targets) && SetupOk(sc, env)
      ensures started ==> Ledger(sc, env, targets, skipRemediation, phases, StartNames(sc), true)
      ensures !started ==> Ledger(sc, env, targets, skipRemediation, phases, ExpectedPhases(sc, env, targets), false)
      ensures started ==> forall v :: v in versions <==> v != "" && exists c :: c in sc.changes && c.version == v
    {
      versions := [];
      var reachable := CheckTargets(sc, env);
      phases := [PhaseResult(Preflight, if reachable then Pass else Fail)];
      LedgerGrows(sc, env, targets, skipRemediation, [], [], true, phases[0]);
      if !reachable { return phases, versions, false; }

      var posted;
      posted, versions := PostChanges(sc, env);
      if |sc.changes| > 0 {
        var p := PhaseResult(Setup, if posted then Pass else Fail);
        LedgerGrows(sc, env, targets, skipRemediation, phases, [Preflight], true, p);
        phases := phases + [p];
        if !posted { return phases, versions, false; }
      }
      LedgerGrows(sc, env, targets, skipRemediation, phases, Also([Preflight], sc.changes != [], Setup), true,
                  PhaseResult(Inject, Pass));
      phases := phases + [PhaseResult(Inject, Pass)];
      started := true;
    }

    /** The business phase, then cleanup and cooldown. */
    method Concluded(sc: Scenario, env: Env, given: seq<PhaseResult>, ghost names: seq<Phase>, ghost before: bool)
      returns (phases: seq<PhaseResult>)
      requires Ledger(sc, env, targets, skipRemediation, given, names, before)
      ensures Ledger(sc, env, targets, skipRemediation, phases, Also(names, sc.business.Some?, Business) + [Cooldown],
                     before && ConcludedOk(sc, env))
    {
      phases := given;
      ghost var ok := before;
      if sc.business.Some? {
        var hit := WatchBusiness(sc.business.value, env);
        var p := PhaseResult(Business, if hit then Pass else Fail);
        LedgerGrows(sc, env, targets, skipRemediation, phases, names, ok, p);
        phases := phases + [p];
        ok := ok && hit;
      }
      var p := PhaseResult(Cooldown, Pass);
      LedgerGrows(sc, env, targets, skipRemediation, phases, Also(names, sc.business.Some?, Business), ok, p);
      phases := phases + [p];
    }

    /** The false-positive control and the detection phase. */
    method Watched(sc: Scenario, env: Env, given: seq<PhaseResult>, ghost names: seq<Phase>)
      returns (phases: seq<PhaseResult>)
      requires Ledger(sc, env, targets, skipRemediation, given, names, true)
      ensures Ledger(sc, env, targets, skipRemediation, phases,
                     Also(Also(names, sc.quiet.Some?, Quiet), sc.detect.Some?, Detect), WatchedOk(sc, env))
    {
      phases := given;
      ghost var ok := true;
      if sc.quiet.Some? {
        var q := sc.quiet.value;
        var fired := WaitForAlert(env.quiet, q.service, env.injectAt, Window(q.withinSeconds, 10 * MINUTE));
        var p := PhaseResult(Quiet, if fired.Some? then Fail else Pass);
        LedgerGrows(sc, env, targets, skipRemediation, phases, names, ok, p);
        phases := phases + [p];
        ok := fired == None;
      }
      if sc.detect.Some? {
        var outcome := RunDetect(sc.detect.value, env);
        var p := PhaseResult(Detect, outcome);
        LedgerGrows(sc, env, targets, skipRemediation, phases, Also(names, sc.quiet.Some?, Quiet), ok, p);
        phases := phases + [p];
      }
    }

    /** The analysis and the remediation phase. */
    method Graded(sc: Scenario, env: Env, versions: seq<string>, given: seq<PhaseResult>,
                  ghost names: seq<Phase>, ghost before: bool)
      returns (phases: seq<PhaseResult>)
      requires Ledger(sc, env, targets, skipRemediation, given, names, before)
      requires forall v :: v in versions <==> v != "" && exists c :: c in sc.changes && c.version == v
      ensures Ledger(sc, env, targets, skipRemediation, phases,
                     Also(Also(names, sc.rca.Some?, Rca), sc.remediation.Some?, Remediation),
                     before && GradedOk(sc, env, targets, skipRemediation))
    {
      phases := given;
      ghost var ok := before;
      if sc.rca.Some? {
        var outcome := RunRcaPhase(sc, sc.rca.value, env, versions);
        var p := PhaseResult(Rca, outcome);
        LedgerGrows(sc, env, targets, skipRemediation, phases, names, ok, p);
        phases := phases + [p];
        ok := ok && outcome != Fail;
      }
      if sc.remediation.Some? {
        var outcome := Skip;
        if !skipRemediation { outcome := RunRemediation(sc, sc.remediation.value, env); }
        var p := PhaseResult(Remediation, outcome);
        LedgerGrows(sc, env, targets, skipRemediation, phases, Also(names, sc.rca.Some?, Rca), ok, p);
        phases := phases + [p];
      }
    }

    method RunDetect(d: ExpectDetect, env: Env) returns (outcome: Outcome)
      ensures outcome == if DetectOk(d, env) then Pass else Fail
    {
      var window := Window(d.withinSeconds, 10 * MINUTE);
      var detected := WaitForAlert(env.detect, d.service, env.injectAt, window);
      if detected == None { return Fail; }
      ghost var p: nat, i: nat :| FirstHit(env.detect, d.service, env.injectAt, window, p, i) &&
                                  detected.value == Table(env.detect.polls[p])[i];
      FirstHitIsUnique(env.detect, d.service, env.injectAt, window, p, i);
      if |d.severitiesAny| > 0 && !SeverityAllowed(d, detected.value) { return Fail; }
      return Pass;
    }

    method RunRcaPhase(sc: Scenario, e: ExpectRCA, env: Env, versions: seq<string>) returns (outcome: Outcome)
      requires forall v :: v in versions <==> v != "" && exists c :: c in sc.changes && c.version == v
      ensures outcome != Fail <==> RcaOk(sc, e, env)
      ensures outcome == DegradedOutcome <==> RcaDegraded(sc, e, env)
      ensures outcome != Skip
    {
      var analysis := RunRCA(sc, e, env);
      if analysis == None { return Fail; }
      ghost var p: nat :| FirstAnalysis(sc, e, env, p);
      FirstAnalysisIsUnique(sc, e, env, p);
      if analysis.value.degraded { return DegradedOutcome; }
      outcome := GradeRCA(analysis.value, e, versions, sc);
    }
  }

  lemma VersionsAreEvidence(a: Analysis, e: ExpectRCA, versions: seq<string>, sc: Scenario)
    requires forall v :: v in versions <==> v != "" && exists c :: c in sc.changes && c.version == v
    requires e.requireChange
    ensures ChangeCriterion(a, e, sc) <==> exists v :: v in versions && ContainsFold(AnalysisText(a), v)
  {
    if c :| c in sc.changes && c.version != "" && ContainsFold(AnalysisText(a), c.version) {
      assert c.version in versions;
    }
  }

  lemma FirstHitIsUnique(w: Watch, service: string, after: int, window: int, p: nat, i: nat)
    requires FirstHit(w, service, after, window, p, i)
    ensures forall q: nat, j: nat :: FirstHit(w, service, after, window, q, j) ==> q == p && j == i
  {
  }

  lemma FirstAnalysisIsUnique(sc: Scenario, e: ExpectRCA, env: Env, p: nat)
    requires FirstAnalysis(sc, e, env, p)
    ensures forall q: nat :: FirstAnalysis(sc, e, env, q) ==> q == p
  {
  }

  // ---------- what a verdict means ----------

  function Bit(b: bool): nat { if b then 1 else 0 }

  /** A canonical list of phases that all come before rank r. */
  ghost predicate Stage(ps: seq<Phase>, r: nat) {
    Canonical(ps) && forall q :: q in ps ==> Rank(q) < r
  }

  lemma StageGrows(ps: seq<Phase>, present: bool, p: Phase, r: nat)
    requires Stage(ps, r) && r <= Rank(p)
    ensures var ps' := Also(ps, present, p);
      && Stage(ps', Rank(p) + 1)
      && (forall q :: q in ps' <==> q in ps || (present && q == p))
      && |ps'| == |ps| + Bit(present)
  {
    assert forall q :: q in ps + [p] <==> q in ps || q == p;
  }

  lemma StartStage(sc: Scenario)
    ensures var ps := StartNames(sc);
      && Stage(ps, 3)
      && |ps| == 2 + Bit(sc.changes != [])
      && forall q :: q in ps ==> q == Preflight || q == Setup || q == Inject
  {
    StageGrows([], true, Preflight, 0);
    StageGrows([Preflight], sc.changes != [], Setup, 1);
    StageGrows(Also([Preflight], sc.changes != [], Setup), true, Inject, 2);
  }

  lemma WatchedStage(sc: Scenario)
    ensures var ps := WatchedNames(sc);
      && Stage(ps, 5)
      && |ps| == 2 + Bit(sc.changes != []) + Bit(sc.quiet.Some?) + Bit(sc.detect.Some?)
      && (Quiet in ps <==> sc.quiet.Some?) && (Detect in ps <==> sc.detect.Some?)
  {
    StartStage(sc);
    StageGrows(StartNames(sc), sc.quiet.Some?, Quiet, 3);
    StageGrows(Also(StartNames(sc), sc.quiet.Some?, Quiet), sc.detect.Some?, Detect, 4);
  }

  lemma GradedStage(sc: Scenario)
    ensures var ps := GradedNames(sc);
      && Stage(ps, 7)
      && |ps| == 2 + Bit(sc.changes != []) + Bit(sc.quiet.Some?) + Bit(sc.detect.Some?)
                 + Bit(sc.rca.Some?) + Bit(sc.remediation.Some?)
      && (Quiet in ps <==> sc.quiet.Some?) && (Detect in ps <==> sc.detect.Some?)
      && (Rca in ps <==> sc.rca.Some?) && (Remediation in ps <==> sc.remediation.Some?)
  {
    WatchedStage(sc);
    StageGrows(WatchedNames(sc), sc.rca.Some?, Rca, 5);
    StageGrows(Also(WatchedNames(sc), sc.rca.Some?, Rca), sc.remediation.Some?, Remediation, 6);
  }

  /** Every phase appears at most once and in canonical order; a run that gets
      past its setup has exactly one result per expectation the scenario holds,
      besides preflight, setup, injection and cooldown. */
  lemma PhasesAreCanonical(sc: Scenario, env: Env, targets: set<string>)
    ensures Canonical(ExpectedPhases(sc, env, targets))
    ensures PreflightOk(sc, env, targets) && SetupOk(sc, env) ==>
      var ps := ExpectedPhases(sc, env, targets);
      && |ps| == 3 + Bit(sc.changes != []) + Bit(sc.quiet.Some?) + Bit(sc.detect.Some?)
                 + Bit(sc.rca.Some?) + Bit(sc.remediation.Some?) + Bit(sc.business.Some?)
      && (Quiet in ps <==> sc.quiet.Some?) && (Detect in ps <==> sc.detect.Some?)
      && (Rca in ps <==> sc.rca.Some?) && (Remediation in ps <==> sc.remediation.Some?)
      && (Business in ps <==> sc.business.Some?)
  {
    ConcludedStage(sc);
  }

  /** A run that fails preflight or setup ends there and injects nothing; any other
      injects, and concludes with the cooldown. */
  lemma EarlyFailureInjectsNothing(sc: Scenario, env: Env, targets: set<string>)
    ensures var ps := ExpectedPhases(sc, env, targets);
      && ps != [] && ps[0] == Preflight
      && (Inject in ps <==> PreflightOk(sc, env, targets) && SetupOk(sc, env))
      && (Cooldown in ps <==> Inject in ps)
      && (!PreflightOk(sc, env, targets) ==> |ps| == 1)
      && (PreflightOk(sc, env, targets) && !SetupOk(sc, env) ==> |ps| == 2 && ps[1] == Setup)
  {
    if PreflightOk(sc, env, targets) && SetupOk(sc, env) { FirstAndLast(sc); }
  }

  lemma FirstAndLast(sc: Scenario)
    ensures var ps := Also(GradedNames(sc), sc.business.Some?, Business) + [Cooldown];
      ps[0] == Preflight && Inject in ps && Cooldown in ps
  {
    assert Inject in StartNames(sc) && StartNames(sc)[0] == Preflight;
    assert Inject in WatchedNames(sc) && WatchedNames(sc)[0] == Preflight;
    assert Inject in GradedNames(sc) && GradedNames(sc)[0] == Preflight;
  }

  /** How long after the injection an analysis is asked for. */
  lemma TriggerDelayInSeconds(e: ExpectRCA)
    ensures e.triggerDelaySeconds == 0 ==> TriggerDelay(e) == 240_000_000_000
    ensures e.triggerDelaySeconds > 0 ==> TriggerDelay(e) == e.triggerDelaySeconds * 1_000_000_000
    ensures e.triggerDelaySeconds < 0 ==> TriggerDelay(e) == 0
  {
  }

  lemma ConcludedStage(sc: Scenario)
    ensures var ps := Also(GradedNames(sc), sc.business.Some?, Business) + [Cooldown];
      && Canonical(ps)
      && |ps| == 3 + Bit(sc.changes != []) + Bit(sc.quiet.Some?) + Bit(sc.detect.Some?)
                 + Bit(sc.rca.Some?) + Bit(sc.remediation.Some?) + Bit(sc.business.Some?)
      && (Quiet in ps <==> sc.quiet.Some?) && (Detect in ps <==> sc.detect.Some?)
      && (Rca in ps <==> sc.rca.Some?) && (Remediation in ps <==> sc.remediation.Some?)
      && (Business in ps <==> sc.business.Some?)
  {
    GradedStage(sc);
    StageGrows(GradedNames(sc), sc.business.Some?, Business, 7);
    StageGrows(Also(GradedNames(sc), sc.business.Some?, Business), true, Cooldown, 8);
  }

  /** All clock readings up to the p-th are before the deadline. */
  predicate InTime(ats: seq<int>, deadline: int, p: nat) {
    p < |ats| && forall q :: 0 <= q <= p ==> ats[q] < deadline
  }

  function PollTimes(polls: seq<Poll>): seq<int> {
    seq(|polls|, i requires 0 <= i < |polls| => polls[i].at)
  }

  /** The table of poll p, polled before the quiet deadline, holds an alert that
      counts. */
  predicate CountableInWindow(q: ExpectQuiet, quiet: Watch, injectAt: int, p: nat, i: nat) {
    && InTime(PollTimes(quiet.polls), quiet.start + Window(q.withinSeconds, 10 * MINUTE), p)
    && i < |Table(quiet.polls[p])|
    && Detects(Table(quiet.polls[p])[i], q.service, injectAt, WatchBaseline(quiet, q.service))
  }

  lemma CountableIsHit(q: ExpectQuiet, quiet: Watch, injectAt: int, p: nat, i: nat)
    requires CountableInWindow(q, quiet, injectAt, p, i)
    requires forall r :: 0 <= r < p ==> !quiet.polls[r].cancelled
    ensures Hit(quiet, q.service, injectAt, Window(q.withinSeconds, 10 * MINUTE), p, i)
  {
    assert forall k :: 0 <= k < |quiet.polls| ==> PollTimes(quiet.polls)[k] == quiet.polls[k].at;
  }

  /** A passing verdict vouches for every table polled before the quiet deadline
      and not after a cancellation: none held a countable alert. */
  lemma UncancelledQuietIsSound(sc: Scenario, env: Env, targets: set<string>, skip: bool, p: nat, i: nat)
    requires Deserved(sc, env, targets, skip) && sc.quiet.Some?
    requires p < |env.quiet.polls| && forall r :: 0 <= r < p ==> !env.quiet.polls[r].cancelled
    ensures !CountableInWindow(sc.quiet.value, env.quiet, env.injectAt, p, i)
  {
    if CountableInWindow(sc.quiet.value, env.quiet, env.injectAt, p, i) {
      CountableIsHit(sc.quiet.value, env.quiet, env.injectAt, p, i);
    }
  }

  /** A cancelled one vouches for nothing after the cancellation: whatever the
      later polls hold, the quiet phase passes if the polls up to it were clean. */
  lemma CancelledQuietPassesRegardless(q: ExpectQuiet, env: Env, later: seq<Poll>)
    requires QuietOk(q, env)
    requires exists k :: 0 <= k < |env.quiet.polls| && env.quiet.polls[k].cancelled
    ensures QuietOk(q, Continued(env, later))
  {
    CancelledWatchSeesNothingMore(env.quiet, later, q.service, env.injectAt, Window(q.withinSeconds, 10 * MINUTE));
  }

  /** What the alert table went on to hold. */
  function Continued(env: Env, later: seq<Poll>): Env {
    env.(quiet := env.quiet.(polls := env.quiet.polls + later))
  }

  /** However the table goes on, a quiet phase that passes had no countable alert
      in its window. */
  ghost predicate VouchesForItsWindow(q: ExpectQuiet, env: Env) {
    forall later: seq<Poll>, p: nat, i: nat ::
      (forall r :: 0 <= r < |later| ==> !later[r].cancelled) && QuietOk(q, Continued(env, later)) ==>
        !CountableInWindow(q, Continued(env, later).quiet, env.injectAt, p, i)
  }

  /** An alert that counts in every window: fresh, on the service itself. */
  function FreshAlert(q: ExpectQuiet, injectAt: int): Alert {
    Alert("", "", q.service, injectAt, 0)
  }

  lemma FreshAlertDetects(q: ExpectQuiet, injectAt: int, baseline: map<string, nat>)
    ensures Detects(FreshAlert(q, injectAt), q.service, injectAt, baseline)
  {
  }

  /** The quiet phase is a false-positive control exactly while it is not
      cancelled: at any moment within its window, passing will mean that no
      countable alert fired before the deadline if and only if no poll so far was
      cancelled. */
  lemma QuietVouchesIff(q: ExpectQuiet, env: Env)
    requires QuietOk(q, env)
    requires forall r :: 0 <= r < |env.quiet.polls| ==>
      env.quiet.polls[r].at < env.quiet.start + Window(q.withinSeconds, 10 * MINUTE)
    ensures VouchesForItsWindow(q, env) <==>
      forall r :: 0 <= r < |env.quiet.polls| ==> !env.quiet.polls[r].cancelled
  {
    if k :| 0 <= k < |env.quiet.polls| && env.quiet.polls[k].cancelled {
      MissedAfterCancellation(q, env);
    } else {
      forall later: seq<Poll>, p: nat, i: nat |
        (forall r :: 0 <= r < |later| ==> !later[r].cancelled) && QuietOk(q, Continued(env, later))
        ensures !CountableInWindow(q, Continued(env, later).quiet, env.injectAt, p, i)
      {
        if CountableInWindow(q, Continued(env, later).quiet, env.injectAt, p, i) {
          CountableIsHit(q, Continued(env, later).quiet, env.injectAt, p, i);
        }
      }
    }
  }

  /** One poll just before the deadline, holding a fresh alert, is missed by a
      quiet phase that was cancelled earlier and passes. */
  lemma MissedAfterCancellation(q: ExpectQuiet, env: Env)
    requires QuietOk(q, env)
    requires forall r :: 0 <= r < |env.quiet.polls| ==>
      env.quiet.polls[r].at < env.quiet.start + Window(q.withinSeconds, 10 * MINUTE)
    requires exists k :: 0 <= k < |env.quiet.polls| && env.quiet.polls[k].cancelled
    ensures var deadline := env.quiet.start + Window(q.withinSeconds, 10 * MINUTE);
      var later := [Poll(deadline - 1, Some([FreshAlert(q, env.injectAt)]), false)];
      && QuietOk(q, Continued(env, later))
      && CountableInWindow(q, Continued(env, later).quiet, env.injectAt, |env.quiet.polls|, 0)
    ensures !VouchesForItsWindow(q, env)
  {
    var deadline := env.quiet.start + Window(q.withinSeconds, 10 * MINUTE);
    var later := [Poll(deadline - 1, Some([FreshAlert(q, env.injectAt)]), false)];
    var env' := Continued(env, later);
    CancelledQuietPassesRegardless(q, env, later);
    FreshAlertDetects(q, env.injectAt, WatchBaseline(env'.quiet, q.service));
    assert forall k :: 0 <= k < |env'.quiet.polls| ==> PollTimes(env'.quiet.polls)[k] == env'.quiet.polls[k].at;
    assert CountableInWindow(q, env'.quiet, env.injectAt, |env.quiet.polls|, 0);
  }

  // ---------- was the recovery seen? ----------

  function RecoveryDeadline(rem: ExpectRemediation, env: Env): int {
    env.recovery.start + Window(rem.withinSeconds, 5 * MINUTE)
  }

  /** The look that decides: the first, in time, that does not find the fault
      active. */
  predicate DecisiveLook(sc: Scenario, rem: ExpectRemediation, env: Env, targets: set<string>, p: nat) {
    var probes, known := env.recovery.probes, RemediationTarget(sc, rem) in targets;
    && ProbeReached(probes, RecoveryDeadline(rem, env), p)
    && !LooksActive(known, probes[p].reply)
    && forall q :: 0 <= q < p ==> LooksActive(known, probes[q].reply)
  }

  /** The fault was seen cleared: before the loop ended, the target was asked and
      answered that no fault is active. */
  ghost predicate SeenCleared(sc: Scenario, rem: ExpectRemediation, env: Env, targets: set<string>) {
    RemediationTarget(sc, rem) in targets &&
    exists p: nat ::
      && ProbeReached(env.recovery.probes, RecoveryDeadline(rem, env), p)
      && env.recovery.probes[p].reply == Status(false)
      && forall q :: 0 <= q < p ==> LooksActive(true, env.recovery.probes[q].reply)
  }

  lemma {:induction false} SomeLookDecides(
      sc: Scenario, rem: ExpectRemediation, env: Env, targets: set<string>, p: nat) returns (first: nat)
    requires ProbeReached(env.recovery.probes, RecoveryDeadline(rem, env), p)
    requires !LooksActive(RemediationTarget(sc, rem) in targets, env.recovery.probes[p].reply)
    ensures DecisiveLook(sc, rem, env, targets, first) && first <= p
    decreases p
  {
    if q :| 0 <= q < p && !LooksActive(RemediationTarget(sc, rem) in targets, env.recovery.probes[q].reply) {
      first := SomeLookDecides(sc, rem, env, targets, q);
    } else {
      first := p;
    }
  }

  /** When a recovery passes, some look decided; and the pass is an observation if
      and only if the target is known and the body of the deciding reply
      decoded. An unknown target is never asked, and a body that does not decode
      reads as no fault. */
  lemma PassIsObservedIff(sc: Scenario, rem: ExpectRemediation, env: Env, targets: set<string>)
    ensures LooksCleared(sc, rem, env, targets) <==> exists p: nat :: DecisiveLook(sc, rem, env, targets, p)
    ensures forall p: nat :: DecisiveLook(sc, rem, env, targets, p) ==>
      (SeenCleared(sc, rem, env, targets) <==>
         RemediationTarget(sc, rem) in targets && env.recovery.probes[p].reply != Undecodable)
  {
    if p: nat :| ProbeReached(env.recovery.probes, RecoveryDeadline(rem, env), p) &&
                 !LooksActive(RemediationTarget(sc, rem) in targets, env.recovery.probes[p].reply) {
      var first := SomeLookDecides(sc, rem, env, targets, p);
    }
  }

  /** With a known target and status bodies that all decode, passing and seeing
      the fault cleared are the same. The target is known after preflight
      whenever the scenario leaves it to be that of its first injection. */
  lemma RemediationPassIsObserved(sc: Scenario, rem: ExpectRemediation, env: Env, targets: set<string>)
    requires RemediationTarget(sc, rem) in targets ||
      (PreflightOk(sc, env, targets) && rem.target == "" && |sc.injectTargets| > 0)
    requires forall p :: p in env.recovery.probes ==> p.reply != Undecodable
    ensures LooksCleared(sc, rem, env, targets) <==> SeenCleared(sc, rem, env, targets)
  {
    assert RemediationTarget(sc, rem) in targets by {
      if rem.target == "" && |sc.injectTargets| > 0 { assert sc.injectTargets[0] == RemediationTarget(sc, rem); }
    }
    PassIsObservedIff(sc, rem, env, targets);
    if p: nat :| DecisiveLook(sc, rem, env, targets, p) {
      assert env.recovery.probes[p] in env.recovery.probes;
    }
  }

  /** With an unknown target the first look passes, even if every status says the
      fault is active. */
  lemma UnknownTargetPassesUnseen(sc: Scenario, rem: ExpectRemediation, env: Env, targets: set<string>)
    requires RemediationTarget(sc, rem) !in targets
    ensures LooksCleared(sc, rem, env, targets) <==>
      |env.recovery.probes| > 0 && env.recovery.probes[0].at < RecoveryDeadline(rem, env)
    ensures !SeenCleared(sc, rem, env, targets)
  {
    if |env.recovery.probes| > 0 && env.recovery.probes[0].at < RecoveryDeadline(rem, env) {
      assert ProbeReached(env.recovery.probes, RecoveryDeadline(rem, env), 0);
    }
  }

  /** So does a known target whose first reply in time does not decode, whatever
      it would have answered next. */
  lemma UndecodableStatusPassesUnseen(sc: Scenario, rem: ExpectRemediation, env: Env, targets: set<string>)
    requires RemediationTarget(sc, rem) in targets
    requires |env.recovery.probes| > 0 && env.recovery.probes[0].at < RecoveryDeadline(rem, env)
    requires env.recovery.probes[0].reply == Undecodable
    ensures LooksCleared(sc, rem, env, targets) && !SeenCleared(sc, rem, env, targets)
  {
    assert DecisiveLook(sc, rem, env, targets, 0);
    PassIsObservedIff(sc, rem, env, targets);
  }

  // ---------- the suite ----------

  datatype SuiteReport = SuiteReport(passed: nat, failed: nat, degradedRCA: nat)

  predicate HasDegraded(r: RunResult) {
    exists i :: 0 <= i < |r.phases| && r.phases[i].outcome == DegradedOutcome
  }

  /** What every run leaves: distinct phases, of which only one can be degraded. */
  ghost predicate OneDegradedAtMost(r: RunResult) {
    forall i, j :: 0 <= i < j < |r.phases| ==>
      !(r.phases[i].outcome == DegradedOutcome && r.phases[j].outcome == DegradedOutcome)
  }

  /** The verdict every run delivers is one a report can count. */
  lemma RunsHaveOneDegradedAtMost(sc: Scenario, env: Env, targets: set<string>, skip: bool, r: RunResult)
    requires Ledger(sc, env, targets, skip, r.phases, ExpectedPhases(sc, env, targets), r.passed)
    ensures OneDegradedAtMost(r)
  {
    PhasesAreCanonical(sc, env, targets);
    var names := PhaseNames(r.phases);
    forall i, j | 0 <= i < j < |r.phases|
      ensures !(r.phases[i].outcome == DegradedOutcome && r.phases[j].outcome == DegradedOutcome)
    {
      assert Rank(names[i]) < Rank(names[j]);
      assert r.phases[i] in r.phases && r.phases[j] in r.phases;
    }
  }

  /** The suite's counters: every run is counted once as passed or failed, and
      the degraded count is the number of runs graded on a fallback. */
  method BuildSuiteReport(runs: seq<RunResult>) returns (rep: SuiteReport)
    requires forall r :: r in runs ==> OneDegradedAtMost(r)
    ensures rep.passed == Count(runs, (r: RunResult) => r.passed)
    ensures rep.passed + rep.failed == |runs|
    ensures rep.degradedRCA == Count(runs, HasDegraded)
  {
    rep := SuiteReport(0, 0, 0);
    for i := 0 to |runs|
      invariant rep.passed == Count(runs[..i], (r: RunResult) => r.passed)
      invariant rep.passed + rep.failed == i
      invariant rep.degradedRCA == Count(runs[..i], HasDegraded)
    {
      assert runs[..i + 1][..i] == runs[..i];
      var r := runs[i];
      assert r in runs;
      if r.passed {
        rep := rep.(passed := rep.passed + 1);
      } else {
        rep := rep.(failed := rep.failed + 1);
      }
      ghost var before := rep.degradedRCA;
      for k := 0 to |r.phases|
        invariant rep.passed == Count(runs[..i + 1], (r: RunResult) => r.passed)
        invariant rep.passed + rep.failed == i + 1
        invariant rep.degradedRCA ==
          before + Bit(exists j :: 0 <= j < k && r.phases[j].outcome == DegradedOutcome)
      {
        if r.phases[k].outcome == DegradedOutcome {
          rep := rep.(degradedRCA := rep.degradedRCA + 1);
        }
      }
    }
    assert runs[..|runs|] == runs;
  }
}
