/**
Runs of the chaos engine: any interleaving of activations, timers, disables,
remediations, scaling, kill-switches, campaigns and the passing of time.
*/
module ChaosRuns {
  import opened Common
  import opened Chaos

  datatype Event =
    | Enable(spec: Spec)
    | Disable(kind: ChaosType)
    | Fire(timer: Timer)
    | Ops(action: Action)
    | Scale(replicas: real)
    | KillSwitch
    | Tick(elapsed: nat)
    | Start(req: CampaignRequest, generatedID: string)
    | Wake(sleeper: Sleeper)
    | End(ender: Ender)

  function Next(w: World, e: Event): World {
    match e
    case Enable(spec) => AfterEnable(w, spec)
    case Disable(kind) => AfterDisable(w, kind)
    case Fire(t) => AfterFire(w, t)
    case Ops(a) => AfterOps(w, a)
    case Scale(r) => AfterScale(w, r)
    case KillSwitch => AfterKillSwitch(w)
    case Tick(d) => w.(now := w.now + d)
    case Start(req, id) => AfterStartCampaign(w, req, id)
    case Wake(sl) => AfterWake(w, sl)
    case End(en) => AfterEnd(w, en)
  }

  /** No timer still pending for the type was armed at this very instant:
      the clock has moved since the type was last activated. */
  predicate FreshStamp(w: World, ct: ChaosType) {
    forall t :: t in w.timers && t.kind == ct ==> t.startedAt != w.now
  }

  /** Sleeping goroutines wake at or after their time, never before it. */
  predicate Legal(w: World, e: Event) {
    match e
    case Enable(spec) => FreshStamp(w, spec.kind)
    case Fire(t) => t in w.timers && t.due <= w.now
    case Wake(sl) => sl in w.sleepers && sl.due <= w.now && FreshStamp(w, sl.step.kind)
    case End(en) => en in w.enders && en.due <= w.now
    case _ => true
  }

  function Run(w: World, es: seq<Event>): World
    decreases |es|
  {
    if es == [] then w else Run(Next(w, es[0]), es[1..])
  }

  predicate LegalRun(w: World, es: seq<Event>)
    decreases |es|
  {
    es == [] || (Legal(w, es[0]) && LegalRun(Next(w, es[0]), es[1..]))
  }

  // ---------- the invariant ----------

  predicate GoodState(w: World, ct: ChaosType)
    requires ct in w.states && ct in w.activations
  {
    var s := w.states[ct];
    s.enabled ==>
      && ZERO_TIME < s.startedAt <= w.now
      && 0.0 <= s.intensity <= 1.0 && 0.0 < s.scopePercent <= 1.0
      && s.rampSeconds > 0.0 && s.flapPeriodSeconds > 0.0 && s.onset != Unset
      && (!s.sticky ==>
            && 0 < s.duration <= MAX_DURATION
            && Timer(ct, s.startedAt + s.duration, s.startedAt, w.activations[ct]) in w.timers)
  }

  predicate GoodTimer(w: World, t: Timer) {
    && t.kind in w.states && t.kind in w.activations
    && ZERO_TIME < t.startedAt <= w.now
    && t.startedAt < t.due
    && t.activation <= w.activations[t.kind]
    && var s := w.states[t.kind];
       s.enabled ==>
         && (t.startedAt == s.startedAt <==> t.activation == w.activations[t.kind])
         && (t.activation == w.activations[t.kind] ==> !s.sticky && t.due == s.startedAt + s.duration)
  }

  ghost predicate Inv(w: World) {
    && w.states.Keys == w.activations.Keys
    && w.now > ZERO_TIME && w.capacity >= 1.0
    && (forall ct :: ct in w.states ==> GoodState(w, ct))
    && (forall t :: t in w.timers ==> GoodTimer(w, t))
  }

  /** Writing a well-formed activation, with its timer, keeps the invariant. */
  lemma InstallKeepsInv(w: World, ct: ChaosType, s: State)
    requires Inv(w) && FreshStamp(w, ct) && ct in w.states
    requires s.enabled && s.startedAt == w.now
    requires 0.0 <= s.intensity <= 1.0 && 0.0 < s.scopePercent <= 1.0
    requires s.rampSeconds > 0.0 && s.flapPeriodSeconds > 0.0 && s.onset != Unset
    requires !s.sticky ==> 0 < s.duration <= MAX_DURATION
    ensures Inv(Installed(w, ct, s))
  {
    var w' := Installed(w, ct, s);
    forall t | t in w'.timers ensures GoodTimer(w', t) {
      if t in w.timers { assert GoodTimer(w, t); }
    }
    forall k | k in w'.states ensures GoodState(w', k) {
      assert k in w.states && GoodState(w, k);
    }
  }

  function Installed(w: World, ct: ChaosType, s: State): World
    requires ct in w.activations
  {
    var n := w.activations[ct] + 1;
    w.(states := w.states[ct := s], activations := w.activations[ct := n],
       timers := if s.sticky then w.timers else w.timers + {Timer(ct, w.now + s.duration, w.now, n)})
  }

  lemma EnableKeepsInv(w: World, spec: Spec)
    requires Inv(w) && FreshStamp(w, spec.kind)
    ensures Inv(AfterEnable(w, spec))
  {
    if spec.kind in w.states {
      InstallKeepsInv(w, spec.kind, Activation(spec, w.now));
      assert AfterEnable(w, spec) == Installed(w, spec.kind, Activation(spec, w.now));
    }
  }

  /** Operations that only disable records, drop a timer whose type they leave
      disabled or superseded, or touch neither, keep the invariant. */
  lemma ShrinkKeepsInv(w: World, w': World)
    requires Inv(w)
    requires w'.states.Keys == w.states.Keys && w'.activations == w.activations
    requires w'.timers <= w.timers && w'.now >= w.now && w'.capacity >= 1.0
    requires forall ct :: ct in w.states ==>
      w'.states[ct] == w.states[ct] || w'.states[ct] == Cleared(w.states[ct])
    requires forall t :: t in w.timers && t !in w'.timers && w'.states[t.kind].enabled ==>
      t.activation != w.activations[t.kind]
    ensures Inv(w')
  {
    forall t | t in w'.timers ensures GoodTimer(w', t) { assert GoodTimer(w, t); }
    forall ct | ct in w'.states ensures GoodState(w', ct) {
      assert GoodState(w, ct);
    }
  }

  /** Starting a campaign touches no record, timer or clock; only its sleeping
      goroutines and its status are new. */
  lemma StartTouchesNoRecord(w: World, req: CampaignRequest, id: string)
    ensures var w' := AfterStartCampaign(w, req, id);
      w'.states == w.states && w'.activations == w.activations && w'.timers == w.timers &&
      w'.capacity == w.capacity && w'.now == w.now
  {
  }

  lemma FireKeepsInv(w: World, t: Timer)
    requires Inv(w) && t in w.timers
    ensures Inv(AfterFire(w, t))
  {
    assert GoodTimer(w, t);
    ShrinkKeepsInv(w, AfterFire(w, t));
  }

  lemma WakeKeepsInv(w: World, sl: Sleeper)
    requires Inv(w) && FreshStamp(w, sl.step.kind)
    ensures Inv(AfterWake(w, sl))
  {
    var w' := w.(sleepers := w.sleepers - multiset{sl});
    ShrinkKeepsInv(w, w');
    EnableKeepsInv(w', StepSpec(sl.step));
  }

  lemma NextKeepsInv(w: World, e: Event)
    requires Inv(w) && Legal(w, e)
    ensures Inv(Next(w, e))
  {
    match e {
      case Enable(spec) => EnableKeepsInv(w, spec);
      case Wake(sl) => WakeKeepsInv(w, sl);
      case Fire(t) => FireKeepsInv(w, t);
      case Start(req, id) =>
        StartTouchesNoRecord(w, req, id);
        ShrinkKeepsInv(w, AfterStartCampaign(w, req, id));
      case Disable(kind) => ShrinkKeepsInv(w, AfterDisable(w, kind));
      case Ops(a) => ShrinkKeepsInv(w, AfterOps(w, a));
      case Scale(r) => ShrinkKeepsInv(w, AfterScale(w, r));
      case KillSwitch => ShrinkKeepsInv(w, AfterKillSwitch(w));
      case Tick(d) => ShrinkKeepsInv(w, w.(now := w.now + d));
      case End(en) => ShrinkKeepsInv(w, AfterEnd(w, en));
    }
  }

  lemma {:induction false} RunKeepsInv(w: World, es: seq<Event>)
    requires Inv(w) && LegalRun(w, es)
    ensures Inv(Run(w, es))
    decreases |es|
  {
    if es != [] {
      NextKeepsInv(w, es[0]);
      RunKeepsInv(Next(w, es[0]), es[1..]);
    }
  }

  lemma {:induction false} RunKeepsTypes(w: World, es: seq<Event>)
    requires Inv(w) && LegalRun(w, es)
    ensures Run(w, es).states.Keys == w.states.Keys
    decreases |es|
  {
    if es != [] {
      NextKeepsTypes(w, es[0]);
      NextKeepsInv(w, es[0]);
      RunKeepsTypes(Next(w, es[0]), es[1..]);
    }
  }

  lemma NextKeepsTypes(w: World, e: Event)
    requires Inv(w)
    ensures Next(w, e).states.Keys == w.states.Keys
  {
    match e {
      case Start(req, id) => StartTouchesNoRecord(w, req, id);
      case _ =>
    }
  }

  lemma InitialInv(now: int)
    requires now > ZERO_TIME
    ensures Inv(InitialWorld(now))
  {
  }

  // ---------- timers ----------

  /** The step e switches the type off. */
  predicate Ends(w: World, e: Event, ct: ChaosType) {
    && ct in w.states && w.states[ct].enabled
    && ct in Next(w, e).states && !Next(w, e).states[ct].enabled
  }

  /** Over every run: a timer that fires ends its type exactly when the
      activation it finds is the one that armed it. That activation is then not
      sticky and has had its whole duration; no other type is touched. */
  lemma TimerEndsOnlyItsOwnActivation(now: int, es: seq<Event>, t: Timer)
    requires now > ZERO_TIME
    requires LegalRun(InitialWorld(now), es)
    requires Legal(Run(InitialWorld(now), es), Fire(t))
    ensures var w := Run(InitialWorld(now), es);
      && t.kind in w.states && t.kind in w.activations
      && (Ends(w, Fire(t), t.kind) <==> w.states[t.kind].enabled && t.activation == w.activations[t.kind])
      && (Ends(w, Fire(t), t.kind) ==>
            !w.states[t.kind].sticky && w.now - w.states[t.kind].startedAt >= w.states[t.kind].duration)
      && (forall ct :: ct in w.states && ct != t.kind ==> Next(w, Fire(t)).states[ct] == w.states[ct])
  {
    InitialInv(now);
    RunKeepsInv(InitialWorld(now), es);
    assert GoodTimer(Run(InitialWorld(now), es), t);
  }

  /** What the distinctness of start times is for. Let a type be activated anew
      while an older timer of it is pending, and let time pass until that timer
      is due: it ends the new activation, sticky or not, exactly when both
      activations carry the same start time. */
  lemma OldTimerEndsNewActivationIff(w: World, spec: Spec, t: Timer, wait: nat)
    requires Inv(w) && spec.kind in w.states
    requires t in w.timers && t.kind == spec.kind && t.due <= w.now + wait
    ensures var w' := Run(w, [Enable(spec), Tick(wait)]);
      && spec.kind in w'.activations && t.activation < w'.activations[spec.kind]
      && Legal(w', Fire(t))
      && (Ends(w', Fire(t), spec.kind) <==> t.startedAt == w.now)
  {
    assert GoodTimer(w, t);
    var w1 := Next(w, Enable(spec));
    assert [Enable(spec), Tick(wait)][1..] == [Tick(wait)];
    assert Run(w1, [Tick(wait)]) == Next(w1, Tick(wait));
  }

  /** Such a pair of activations exists: re-enabling within one clock reading,
      15 minutes after 60 seconds, is over after the 60 seconds. */
  lemma SameInstantReenableIsCutShort(now: int, ct: ChaosType, spec: Spec)
    requires now > ZERO_TIME && ct in REGISTERED
    requires spec == Spec(ct, 1.0, 60 * SECOND, Step, 0.0, 0.0, false, 1.0)
    ensures var t := Timer(ct, now + 60 * SECOND, now, 1);
      var w := Run(InitialWorld(now),
                   [Enable(spec), Enable(spec.(duration := MAX_DURATION)), Tick(60 * SECOND)]);
      && IsActive(w, ct) && w.states[ct].duration == MAX_DURATION
      && t in w.timers && t.due <= w.now
      && !IsActive(Next(w, Fire(t)), ct)
  {
    var e0, e1, e2 := Enable(spec), Enable(spec.(duration := MAX_DURATION)), Tick(60 * SECOND);
    var w0 := InitialWorld(now);
    RunOfThree(w0, e0, e1, e2);
    EnablingAgain(w0, spec, spec.(duration := MAX_DURATION));
  }

  lemma RunOfThree(w: World, e0: Event, e1: Event, e2: Event)
    ensures Run(w, [e0, e1, e2]) == Next(Next(Next(w, e0), e1), e2)
    ensures LegalRun(w, [e0, e1, e2]) <==>
            Legal(w, e0) && Legal(Next(w, e0), e1) && Legal(Next(Next(w, e0), e1), e2)
  {
    var w2 := Next(Next(w, e0), e1);
    assert [e0, e1, e2][1..] == [e1, e2] && [e1, e2][1..] == [e2] && [e2][1..] == [];
    assert Run(w2, [e2]) == Next(w2, e2);
    assert LegalRun(w2, [e2]) <==> Legal(w2, e2);
  }

  /** Two activations at one instant leave the second record and both timers. */
  lemma EnablingAgain(w: World, spec: Spec, again: Spec)
    requires spec.kind in w.states && spec.kind in w.activations && again.kind == spec.kind
    requires !spec.sticky && !again.sticky
    ensures var w' := Next(Next(w, Enable(spec)), Enable(again));
      && w'.now == w.now && spec.kind in w'.states
      && w'.states[spec.kind] == Activation(again, w.now)
      && Timer(spec.kind, w.now + NormalizeDuration(spec.duration), w.now, w.activations[spec.kind] + 1) in w'.timers
  {
  }

  // ---------- what an activation means ----------

  /** How long an activation asked for lasts: 60 seconds without a duration, never
      more than 15 minutes, for ever if it is sticky. It then starts at once, at
      its asked-for intensity, a percentage if that is above 1. */
  lemma ActivationLastsAsAsked(w: World, spec: Spec, wait: nat)
    requires spec.kind in w.states && spec.kind in w.activations
    ensures var w' := Next(Next(w, Enable(spec)), Tick(wait));
      IsActive(w', spec.kind) <==>
        spec.sticky || wait <= (if spec.duration <= 0 then 60 * SECOND
                                else if spec.duration > 15 * MINUTE then 15 * MINUTE else spec.duration)
    ensures var s := Next(w, Enable(spec)).states[spec.kind];
      && s.startedAt == w.now && s.sticky == spec.sticky
      && (0.0 <= spec.intensity <= 1.0 ==> s.intensity == spec.intensity)
      && (1.0 < spec.intensity <= 100.0 ==> s.intensity * 100.0 == spec.intensity)
      && (spec.intensity > 100.0 ==> s.intensity == 1.0) && (spec.intensity < 0.0 ==> s.intensity == 0.0)
  {
  }

  /** The shape is the one asked for; what is missing or out of range is a step, a
      ramp of 120 seconds, a flap of 60, and full scope. */
  lemma ActivationShape(w: World, spec: Spec)
    requires spec.kind in w.states && spec.kind in w.activations
    ensures var s := Next(w, Enable(spec)).states[spec.kind];
      && (spec.onset != Unset ==> s.onset == spec.onset) && (spec.onset == Unset ==> s.onset == Step)
      && (spec.rampSeconds > 0.0 ==> s.rampSeconds == spec.rampSeconds)
      && (spec.rampSeconds <= 0.0 ==> s.rampSeconds == 120.0)
      && (spec.flapPeriodSeconds > 0.0 ==> s.flapPeriodSeconds == spec.flapPeriodSeconds)
      && (spec.flapPeriodSeconds <= 0.0 ==> s.flapPeriodSeconds == 60.0)
      && (0.0 < spec.scopePercent <= 1.0 ==> s.scopePercent == spec.scopePercent)
      && (spec.scopePercent <= 0.0 || spec.scopePercent > 1.0 ==> s.scopePercent == 1.0)
  {
  }

  // ---------- enabled against active ----------

  /** Every timer that is due has run. */
  predicate Settled(w: World) {
    forall t :: t in w.timers ==> w.now < t.due
  }

  /** The reported types are the active ones and those whose own timer is
      overdue but has not run; nothing else. Once all due timers have run,
      reported and active coincide. */
  lemma ReportedTypesExactly(w: World, ct: ChaosType)
    requires Inv(w)
    ensures ct in ActiveTypes(w) <==>
            IsActive(w, ct) ||
            exists t :: t in w.timers && t.kind == ct && ct in w.activations && ct in w.states &&
                        w.states[ct].enabled && t.activation == w.activations[ct] && t.due < w.now
    ensures Settled(w) ==> (ct in ActiveTypes(w) <==> IsActive(w, ct))
  {
    if ct in w.states {
      assert GoodState(w, ct);
      var s := w.states[ct];
      if s.enabled && !s.sticky {
        assert Timer(ct, s.startedAt + s.duration, s.startedAt, w.activations[ct]) in w.timers;
      }
    }
  }

  /** A fault that is not sticky is never active beyond its duration, which is
      at most 15 minutes; once due timers have run it is not even reported. */
  lemma NonStickyLifetime(now: int, es: seq<Event>, ct: ChaosType)
    requires now > ZERO_TIME && LegalRun(InitialWorld(now), es) && ct in REGISTERED
    ensures var w := Run(InitialWorld(now), es);
      ct in w.states && !w.states[ct].sticky &&
      (IsActive(w, ct) || (Settled(w) && ct in ActiveTypes(w))) ==>
        0 <= w.now - w.states[ct].startedAt <= w.states[ct].duration <= MAX_DURATION
  {
    InitialInv(now);
    RunKeepsInv(InitialWorld(now), es);
    RunKeepsTypes(InitialWorld(now), es);
    var w := Run(InitialWorld(now), es);
    assert GoodState(w, ct);
    ReportedTypesExactly(w, ct);
  }

  // ---------- remediation ----------

  /** A new activation of the type. */
  predicate Activates(e: Event, ct: ChaosType) {
    (e.Enable? && e.spec.kind == ct) || (e.Wake? && e.sleeper.step.kind == ct)
  }

  /** A deliberate end: an explicit disable, the kill-switch, or a remediation
      whose clear set holds the type. */
  predicate Removes(e: Event, ct: ChaosType) {
    match e
    case Disable(kind) => kind == ct
    case KillSwitch => true
    case Ops(a) => ct in OpsClears(a)
    case _ => false
  }

  /** A step that does not activate the type leaves its record or clears it. */
  lemma RecordStaysOrIsCleared(w: World, e: Event, ct: ChaosType)
    requires !Activates(e, ct)
    ensures ct in Next(w, e).states <==> ct in w.states
    ensures ct in w.states ==> Next(w, e).states[ct] == w.states[ct] || Next(w, e).states[ct] == Cleared(w.states[ct])
  {
    match e {
      case Enable(spec) => EnableTouchesOneType(w, spec, ct);
      case Wake(sl) => EnableTouchesOneType(w.(sleepers := w.sleepers - multiset{sl}), StepSpec(sl.step), ct);
      case Start(req, id) => StartTouchesNoRecord(w, req, id);
      case _ =>
    }
  }

  lemma EnableTouchesOneType(w: World, spec: Spec, ct: ChaosType)
    requires spec.kind != ct
    ensures ct in AfterEnable(w, spec).states <==> ct in w.states
    ensures ct in w.states ==> AfterEnable(w, spec).states[ct] == w.states[ct]
  {
  }

  lemma StickyStep(w: World, e: Event, ct: ChaosType)
    requires Inv(w) && Legal(w, e) && ct in w.states && !Activates(e, ct)
    ensures ct in Next(w, e).states
    ensures !w.states[ct].enabled ==> !Next(w, e).states[ct].enabled
    ensures w.states[ct].enabled && w.states[ct].sticky ==>
            Next(w, e).states[ct] == if Removes(e, ct) then Cleared(w.states[ct]) else w.states[ct]
  {
    RecordStaysOrIsCleared(w, e, ct);
    match e {
      case Fire(t) => FireSparesSticky(w, t, ct);
      case Enable(spec) => EnableTouchesOneType(w, spec, ct);
      case Wake(sl) => EnableTouchesOneType(w.(sleepers := w.sleepers - multiset{sl}), StepSpec(sl.step), ct);
      case Start(req, id) => StartTouchesNoRecord(w, req, id);
      case _ =>
    }
  }

  lemma FireSparesSticky(w: World, t: Timer, ct: ChaosType)
    requires GoodTimer(w, t) && ct in w.states
    ensures ct in AfterFire(w, t).states
    ensures !w.states[ct].enabled ==> !AfterFire(w, t).states[ct].enabled
    ensures w.states[ct].enabled && w.states[ct].sticky ==> AfterFire(w, t).states[ct] == w.states[ct]
  {
  }

  lemma {:induction false} StaysOff(w: World, es: seq<Event>, ct: ChaosType)
    requires Inv(w) && LegalRun(w, es) && ct in w.states && !w.states[ct].enabled
    requires forall i :: 0 <= i < |es| ==> !Activates(es[i], ct)
    ensures ct in Run(w, es).states && !Run(w, es).states[ct].enabled
    decreases |es|
  {
    if es != [] {
      StickyStep(w, es[0], ct);
      NextKeepsInv(w, es[0]);
      StaysOff(Next(w, es[0]), es[1..], ct);
    }
  }

  /** Recovery is attributable. Over any run that does not activate the type
      again, a sticky fault is still active at the end if and only if the run
      holds no disable of it, no kill-switch and no remediation that clears it:
      neither time nor any timer, scaling or campaign end can do it. */
  lemma {:induction false} StickyFaultNeedsRemediation(w: World, es: seq<Event>, ct: ChaosType)
    requires Inv(w) && LegalRun(w, es)
    requires ct in w.states && w.states[ct].enabled && w.states[ct].sticky
    requires forall i :: 0 <= i < |es| ==> !Activates(es[i], ct)
    ensures IsActive(Run(w, es), ct) <==> forall i :: 0 <= i < |es| ==> !Removes(es[i], ct)
    decreases |es|
  {
    if es != [] {
      var w' := Next(w, es[0]);
      StickyStep(w, es[0], ct);
      NextKeepsInv(w, es[0]);
      if Removes(es[0], ct) {
        StaysOff(w', es[1..], ct);
      } else {
        StickyFaultNeedsRemediation(w', es[1..], ct);
        assert forall i :: 1 <= i < |es| ==> es[i] == es[1..][i - 1];
      }
    }
  }

  lemma RestartClears(ct: ChaosType)
    ensures ct in OpsClears(Restart) <==>
            ct.CPUStress? || ct.MemoryLeak? || ct.ErrorInjection? || ct.LatencyInjection? ||
            ct.LogStorm? || ct.NovelLog? || ct.ErrorBudget? || ct.LatencyTail?
  {
    var kinds := OpsClears(Restart);
    assert kinds[0] == CPUStress && kinds[1] == MemoryLeak && kinds[2] == ErrorInjection;
    assert kinds[3] == LatencyInjection && kinds[4] == LogStorm && kinds[5] == NovelLog;
    assert kinds[6] == ErrorBudget && kinds[7] == LatencyTail;
  }

  /** No two remediations clear the same type, and every registered type but
      pod crash has one. */
  lemma RemediationsPartitionTheTypes(ct: ChaosType)
    ensures (exists a :: ct in OpsClears(a)) <==> ct in REGISTERED && ct != PodCrash
    ensures forall a, b :: ct in OpsClears(a) && ct in OpsClears(b) ==> a == b
  {
    RestartClears(ct);
    assert ct in OpsClears(ResetPool) <==> ct == DBSlow;
    assert ct in OpsClears(ClearBacklog) <==> ct == QueueBacklog;
  }
}
