/**
Campaigns over runs of the chaos engine: who clears the Running flag, what a
kill-switch leaves asleep, and when a campaign leaves nothing behind.
*/
module ChaosCampaigns {
  import opened Common
  import opened Chaos
  import opened ChaosRuns

  // ---------- the Running flag ----------

  /** What clears the Running flag of the campaign named id. */
  predicate Stops(e: Event, id: string) {
    e.KillSwitch? || (e.End? && e.ender.campaignID == id)
  }

  lemma CampaignStatusStep(w: World, e: Event)
    requires w.campaign.Some? && !e.Start?
    ensures Next(w, e).campaign ==
            if Stops(e, w.campaign.value.id) then Some(w.campaign.value.(running := false)) else w.campaign
  {
  }

  /** Over any run that starts no further campaign, the campaign in progress is
      reported as finished exactly when the run holds a kill-switch or an end
      step bearing its own name. So an earlier campaign's end step never stops
      a later one of another name, and does stop one of the same name. */
  lemma {:induction false} RunningFlagAttribution(w: World, es: seq<Event>)
    requires LegalRun(w, es) && w.campaign.Some? && w.campaign.value.running
    requires forall i :: 0 <= i < |es| ==> !es[i].Start?
    ensures var c := Run(w, es).campaign;
      && c.Some? && c.value.id == w.campaign.value.id
      && (c.value.running <==> forall i :: 0 <= i < |es| ==> !Stops(es[i], w.campaign.value.id))
    decreases |es|
  {
    if es != [] {
      var w' := Next(w, es[0]);
      CampaignStatusStep(w, es[0]);
      if Stops(es[0], w.campaign.value.id) {
        StaysStopped(w', es[1..]);
      } else {
        RunningFlagAttribution(w', es[1..]);
        assert forall i :: 1 <= i < |es| ==> es[i] == es[1..][i - 1];
      }
    }
  }

  lemma {:induction false} StaysStopped(w: World, es: seq<Event>)
    requires w.campaign.Some? && !w.campaign.value.running
    requires forall i :: 0 <= i < |es| ==> !es[i].Start?
    ensures var c := Run(w, es).campaign;
      c.Some? && c.value.id == w.campaign.value.id && !c.value.running
    decreases |es|
  {
    if es != [] {
      CampaignStatusStep(w, es[0]);
      StaysStopped(Next(w, es[0]), es[1..]);
    }
  }

  // ---------- after a kill-switch ----------

  /** Nothing new is asked of the engine: no activation, no campaign. */
  predicate Unprompted(es: seq<Event>) {
    forall i :: 0 <= i < |es| ==> !es[i].Enable? && !es[i].Start?
  }

  /** Some fault of the type comes back by itself after a kill-switch. */
  ghost predicate ComesBack(w: World, ct: ChaosType, es: seq<Event>) {
    LegalRun(Next(w, KillSwitch), es) && Unprompted(es) && IsActive(Run(Next(w, KillSwitch), es), ct)
  }

  predicate Asleep(w: World, ct: ChaosType) {
    exists sl :: sl in w.sleepers && sl.step.kind == ct
  }

  /** The kill-switch does not reach campaign steps that are still asleep. From
      every reachable state: a fault can come back after the kill-switch without
      anybody asking for it if and only if a campaign step of its type sleeps. */
  lemma KillSwitchSparesExactlyTheSleepers(w: World, ct: ChaosType)
    requires Inv(w) && ct in w.states
    ensures (exists es :: ComesBack(w, ct, es)) <==> Asleep(w, ct)
  {
    NextKeepsInv(w, KillSwitch);
    KilledAndWaited(w, 0);
    if es :| ComesBack(w, ct, es) {
      if !Asleep(w, ct) { NobodyWakes(Next(w, KillSwitch), es, ct); }
    }
    if sl :| sl in w.sleepers && sl.step.kind == ct {
      SleeperOutlivesKillSwitch(w, sl);
    }
  }

  lemma {:induction false} NobodyWakes(w: World, es: seq<Event>, ct: ChaosType)
    requires Inv(w) && LegalRun(w, es) && Unprompted(es) && !Asleep(w, ct)
    requires ct in w.states && !w.states[ct].enabled
    ensures !IsActive(Run(w, es), ct)
    decreases |es|
  {
    if es != [] {
      assert !Activates(es[0], ct);
      StickyStep(w, es[0], ct);
      NextKeepsInv(w, es[0]);
      SleepersOnlyLeave(w, es[0]);
      NobodyWakes(Next(w, es[0]), es[1..], ct);
    }
  }

  lemma SleepersOnlyLeave(w: World, e: Event)
    requires !e.Start?
    ensures forall sl :: sl in Next(w, e).sleepers ==> sl in w.sleepers
  {
  }

  /** A step that is overdue may wake as soon as the clock has moved. */
  function WaitFor(w: World, sl: Sleeper): nat { if sl.due > w.now then sl.due - w.now else 1 }

  lemma SleeperOutlivesKillSwitch(w: World, sl: Sleeper)
    requires Inv(w) && sl in w.sleepers && sl.step.kind in w.states
    ensures ComesBack(w, sl.step.kind, [Tick(WaitFor(w, sl)), Wake(sl)])
  {
    StampsAreOld(w);
    SleeperMayWake(w, sl);
    RunOfTwo(Next(w, KillSwitch), Tick(WaitFor(w, sl)), Wake(sl));
    WakingActivates(Next(Next(w, KillSwitch), Tick(WaitFor(w, sl))), sl);
  }

  lemma SleeperMayWake(w: World, sl: Sleeper)
    requires w.states.Keys == w.activations.Keys && forall t :: t in w.timers ==> t.startedAt <= w.now
    requires sl in w.sleepers && sl.step.kind in w.states
    ensures var w2 := Next(Next(w, KillSwitch), Tick(WaitFor(w, sl)));
      Legal(w2, Wake(sl)) && sl.step.kind in w2.states && sl.step.kind in w2.activations
  {
    KilledAndWaited(w, WaitFor(w, sl));
  }

  lemma KilledAndWaited(w: World, wait: nat)
    requires w.states.Keys == w.activations.Keys
    ensures var w2 := Next(Next(w, KillSwitch), Tick(wait));
      && w2.states.Keys == w.states.Keys && w2.activations == w.activations
      && w2.timers == w.timers && w2.sleepers == w.sleepers && w2.now == w.now + wait
  {
  }

  lemma StampsAreOld(w: World)
    requires Inv(w)
    ensures forall t :: t in w.timers ==> t.startedAt <= w.now
  {
    forall t | t in w.timers ensures t.startedAt <= w.now { assert GoodTimer(w, t); }
  }

  lemma RunOfTwo(w: World, e0: Event, e1: Event)
    ensures Run(w, [e0, e1]) == Next(Next(w, e0), e1)
    ensures LegalRun(w, [e0, e1]) <==> Legal(w, e0) && Legal(Next(w, e0), e1)
  {
    var w1 := Next(w, e0);
    assert [e0, e1][1..] == [e1] && [e1][1..] == [];
    assert Run(w1, [e1]) == Next(w1, e1);
    assert LegalRun(w1, [e1]) <==> Legal(w1, e1);
  }

  lemma WakingActivates(w: World, sl: Sleeper)
    requires sl.step.kind in w.states && sl.step.kind in w.activations
    ensures IsActive(AfterWake(w, sl), sl.step.kind)
  {
  }

  // ---------- what a campaign leaves behind ----------

  lemma NanosAdds(a: real, b: real)
    requires a >= 0.0 && b >= 0.0
    ensures Nanos(a) + Nanos(b) <= Nanos(a + b)
    ensures Nanos(a) >= 0
  {
    var x, y := a * 1_000_000_000.0, b * 1_000_000_000.0;
    assert (a + b) * 1_000_000_000.0 == x + y;
    assert x.Floor as real + y.Floor as real <= x + y;
  }

  lemma NanosMonotone(a: real, b: real)
    requires 0.0 <= a <= b
    ensures Nanos(a) <= Nanos(b)
  {
    assert a * 1_000_000_000.0 <= b * 1_000_000_000.0;
  }

  // ---------- what a campaign starts ----------

  /** The seconds to a campaign step's start and end, as asked for; no step starts
      before the campaign, and one without a duration lasts 60 seconds. */
  function StartOf(s: CampaignStep): real { if s.startAfterSeconds < 0.0 then 0.0 else s.startAfterSeconds }

  function EndOf(s: CampaignStep): real {
    StartOf(s) + if s.durationSeconds <= 0.0 then 60.0 else s.durationSeconds
  }

  /** An accepted campaign puts each of its steps to sleep until its own start, for
      the type asked for, and no dry run does. */
  lemma EveryStepIsPutToSleep(w: World, req: CampaignRequest, id: string, i: nat)
    requires Accepted(w, req) && i < |req.steps|
    ensures var w1, given := Next(w, Start(req, id)), req.steps[i];
      var sl := SleeperFor(w.now, NormalizeSteps(req.steps)[i]);
      && sl in w1.sleepers && sl.step.kind == given.kind
      && sl.due == w.now + (StartOf(given) * 1_000_000_000.0).Floor
      && sl.step.startAfterSeconds + sl.step.durationSeconds == EndOf(given)
      && (0.0 <= given.intensity <= 1.0 ==> sl.step.intensity == given.intensity)
    ensures Next(w, Start(req.(dryRun := true), id)).sleepers == w.sleepers
  {
    StartPutsToSleep(w, req, id, i);
  }

  /** And it is marked as finished, under its name, a second after the end of the
      step that ends last. */
  lemma CampaignEndsASecondAfterItsLastStep(w: World, req: CampaignRequest, id: string) returns (last: nat)
    requires Accepted(w, req)
    ensures last < |req.steps|
    ensures forall j :: 0 <= j < |req.steps| ==> EndOf(req.steps[j]) <= EndOf(req.steps[last])
    ensures Ender(w.now + (EndOf(req.steps[last]) * 1_000_000_000.0).Floor + 1_000_000_000,
                  if req.id == "" then id else req.id) in Next(w, Start(req, id)).enders
    ensures Next(w, Start(req, id)).campaign.Some? && Next(w, Start(req, id)).campaign.value.running
  {
    var steps := NormalizeSteps(req.steps);
    var m := MaxSeconds(steps);
    assert steps[0].startAfterSeconds + steps[0].durationSeconds <= m;
    last :| 0 <= last < |steps| && steps[last].startAfterSeconds + steps[last].durationSeconds == m;
    assert forall j :: 0 <= j < |req.steps| ==>
      EndOf(req.steps[j]) == steps[j].startAfterSeconds + steps[j].durationSeconds;
  }

  predicate Accepted(w: World, req: CampaignRequest) {
    CampaignVerdict(w, req) == None && !req.dryRun
  }

  /** One of the sleepers of a campaign of these steps begun at `start`. */
  predicate OfCampaign(start: int, given: seq<CampaignStep>, sl: Sleeper) {
    exists i :: 0 <= i < |given| && sl == SleeperFor(start, NormalizeSteps(given)[i])
  }

  /** No wakeup of the campaign is late. */
  predicate OnTime(w: World, es: seq<Event>, start: int, given: seq<CampaignStep>)
    decreases |es|
  {
    es == [] || (
      && (es[0].Wake? && OfCampaign(start, given, es[0].sleeper) ==> w.now == es[0].sleeper.due)
      && OnTime(Next(w, es[0]), es[1..], start, given))
  }

  /** Event k is the last activation of the type and a wakeup of the campaign. */
  predicate LastActivation(es: seq<Event>, ct: ChaosType, start: int, given: seq<CampaignStep>, k: nat) {
    && k < |es| && es[k].Wake? && es[k].sleeper.step.kind == ct && OfCampaign(start, given, es[k].sleeper)
    && forall j :: k < j < |es| ==> !Activates(es[j], ct)
  }

  lemma ActivationStep(w: World, e: Event, ct: ChaosType, s: State)
    requires Inv(w) && Legal(w, e) && !Activates(e, ct)
    requires ct in w.states ==> w.states[ct] == s || !w.states[ct].enabled
    ensures var w' := Next(w, e);
      ct in w'.states ==> w'.states[ct] == s || !w'.states[ct].enabled
  {
    RecordStaysOrIsCleared(w, e, ct);
  }

  /** Without a further activation a record is as it was, or off. */
  lemma {:induction false} RecordStaysOrIsOff(w: World, es: seq<Event>, ct: ChaosType, s: State)
    requires Inv(w) && LegalRun(w, es)
    requires ct in w.states ==> w.states[ct] == s || !w.states[ct].enabled
    requires forall j :: 0 <= j < |es| ==> !Activates(es[j], ct)
    ensures var w' := Run(w, es);
      ct in w'.states ==> w'.states[ct] == s || !w'.states[ct].enabled
    decreases |es|
  {
    if es != [] {
      ActivationStep(w, es[0], ct, s);
      NextKeepsInv(w, es[0]);
      RecordStaysOrIsOff(Next(w, es[0]), es[1..], ct, s);
    }
  }

  /** What a campaign's wakeup wrote is what is there at the end of the run. */
  lemma {:induction false} RecordAfterLastActivation(
      w: World, es: seq<Event>, ct: ChaosType, start: int, given: seq<CampaignStep>, k: nat)
    requires Inv(w) && LegalRun(w, es) && OnTime(w, es, start, given) && LastActivation(es, ct, start, given, k)
    ensures var w', sl := Run(w, es), es[k].sleeper;
      ct in w'.states ==> w'.states[ct] == Activation(StepSpec(sl.step), sl.due) || !w'.states[ct].enabled
    decreases |es|
  {
    var w1 := Next(w, es[0]);
    NextKeepsInv(w, es[0]);
    if k == 0 {
      RecordStaysOrIsOff(w1, es[1..], ct, Activation(StepSpec(es[0].sleeper.step), es[0].sleeper.due));
    } else {
      RecordAfterLastActivation(w1, es[1..], ct, start, given, k - 1);
    }
  }

  /** The record of a step, at or after the campaign's end. */
  lemma StepRecordAtEnd(start: int, given: seq<CampaignStep>, sl: Sleeper, now: int)
    requires OfCampaign(start, given, sl)
    requires now >= start + CampaignEndDuration(NormalizeSteps(given))
    ensures start <= sl.due < now
    ensures LiveAt(Activation(StepSpec(sl.step), sl.due), now) <==>
            Nanos(sl.step.durationSeconds) == 0 && now - sl.due <= DEFAULT_STEP_SECONDS * SECOND
  {
    var steps := NormalizeSteps(given);
    var i :| 0 <= i < |given| && sl == SleeperFor(start, steps[i]);
    var s, m := steps[i], MaxSeconds(steps);
    assert s.startAfterSeconds + s.durationSeconds <= m;
    NanosAdds(s.startAfterSeconds, s.durationSeconds);
    NanosAdds(s.durationSeconds, 0.0);
    NanosMonotone(s.startAfterSeconds + s.durationSeconds, m);
  }

  /** A run after the start of an accepted campaign, in which the campaign's
      wakeups are not late, the last activation of the type is one of them, and
      which reaches the end time the campaign computes. */
  ghost predicate PastTheEnd(w: World, req: CampaignRequest, id: string, es: seq<Event>, ct: ChaosType, k: nat) {
    var w1 := Next(w, Start(req, id));
    && LegalRun(w1, es) && OnTime(w1, es, w.now, req.steps) && LastActivation(es, ct, w.now, req.steps, k)
    && Run(w1, es).now >= w.now + CampaignEndDuration(NormalizeSteps(req.steps))
  }

  /** What such a run leaves of the campaign, exactly: the activation is still in
      force if and only if nothing has switched it off, its step was shorter than
      a nanosecond, and no more than the default of 60 seconds has passed since
      it woke. A shorter duration is cut to zero and then replaced by the
      default. */
  lemma CampaignClosure(w: World, req: CampaignRequest, id: string, es: seq<Event>, ct: ChaosType, k: nat)
    requires Inv(w) && Accepted(w, req) && PastTheEnd(w, req, id, es, ct, k)
    ensures var w', sl := Run(Next(w, Start(req, id)), es), es[k].sleeper;
      IsActive(w', ct) <==>
        && ct in w'.states && w'.states[ct].enabled
        && Nanos(sl.step.durationSeconds) == 0
        && w'.now - sl.due <= DEFAULT_STEP_SECONDS * SECOND
  {
    var w1 := Next(w, Start(req, id));
    NextKeepsInv(w, Start(req, id));
    RecordAfterLastActivation(w1, es, ct, w.now, req.steps, k);
    StepRecordAtEnd(w.now, req.steps, es[k].sleeper, Run(w1, es).now);
  }

  /** The step's activation is over by the end of the campaign. */
  predicate EndsInTime(given: seq<CampaignStep>, i: nat)
    requires i < |given|
  {
    var steps := NormalizeSteps(given);
    Nanos(steps[i].durationSeconds) > 0 ||
    CampaignEndDuration(steps) - Nanos(steps[i].startAfterSeconds) > DEFAULT_STEP_SECONDS * SECOND
  }

  /** No run past the end of the campaign finds one of its activations active. */
  ghost predicate LeavesNothing(w: World, req: CampaignRequest, id: string) {
    forall es: seq<Event>, ct: ChaosType, k: nat :: PastTheEnd(w, req, id, es, ct, k) ==> !IsActive(Run(Next(w, Start(req, id)), es), ct)
  }

  lemma StepsInTimeLeaveNothing(w: World, req: CampaignRequest, id: string)
    requires Inv(w) && Accepted(w, req)
    requires forall i :: 0 <= i < |req.steps| ==> EndsInTime(req.steps, i)
    ensures LeavesNothing(w, req, id)
  {
    forall es: seq<Event>, ct: ChaosType, k: nat | PastTheEnd(w, req, id, es, ct, k)
      ensures !IsActive(Run(Next(w, Start(req, id)), es), ct)
    {
      CampaignClosure(w, req, id, es, ct, k);
      var sl := es[k].sleeper;
      var i :| 0 <= i < |req.steps| && sl == SleeperFor(w.now, NormalizeSteps(req.steps)[i]);
      assert EndsInTime(req.steps, i);
    }
  }

  /** With whole-second durations a campaign leaves nothing behind, whatever else
      goes on in the run. */
  lemma WholeSecondCampaignClosure(w: World, req: CampaignRequest, id: string)
    requires Inv(w) && Accepted(w, req)
    requires forall i :: 0 <= i < |req.steps| ==>
      req.steps[i].durationSeconds == req.steps[i].durationSeconds.Floor as real
    ensures LeavesNothing(w, req, id)
  {
    forall i | 0 <= i < |req.steps| ensures EndsInTime(req.steps, i) {
      var step := NormalizeSteps(req.steps)[i];
      assert step.durationSeconds >= 1.0;
      NanosMonotone(1.0, step.durationSeconds);
    }
    StepsInTimeLeaveNothing(w, req, id);
  }

  /** No type of the campaign was activated at this very clock reading. */
  predicate FreshSteps(w: World, req: CampaignRequest) {
    forall i :: 0 <= i < |req.steps| ==> FreshStamp(w, req.steps[i].kind)
  }

  /** In general: a campaign leaves nothing behind if and only if each of its steps
      lasts at least a nanosecond or starts more than 60 seconds before the
      campaign's end. */
  lemma CampaignLeavesNothingIff(w: World, req: CampaignRequest, id: string)
    requires Inv(w) && Accepted(w, req) && FreshSteps(w, req)
    ensures LeavesNothing(w, req, id) <==> forall i :: 0 <= i < |req.steps| ==> EndsInTime(req.steps, i)
  {
    if forall i :: 0 <= i < |req.steps| ==> EndsInTime(req.steps, i) {
      StepsInTimeLeaveNothing(w, req, id);
    } else {
      var i :| 0 <= i < |req.steps| && !EndsInTime(req.steps, i);
      ShortStepOutlives(w, req, id, i);
    }
  }

  /** Waking the step on time and waiting for the end of the campaign. */
  function OutlivingRun(req: CampaignRequest, sl: Sleeper, now: int): (es: seq<Event>)
    requires now <= sl.due < now + CampaignEndDuration(NormalizeSteps(req.steps))
    ensures |es| == 3 && es[1] == Wake(sl) && es[0].Tick? && es[2].Tick?
  {
    [Tick(sl.due - now), Wake(sl), Tick(now + CampaignEndDuration(NormalizeSteps(req.steps)) - sl.due)]
  }

  lemma ShortStepOutlives(w: World, req: CampaignRequest, id: string, i: nat)
    requires Inv(w) && Accepted(w, req) && FreshSteps(w, req)
    requires i < |req.steps| && !EndsInTime(req.steps, i)
    ensures !LeavesNothing(w, req, id)
  {
    var sl := SleeperFor(w.now, NormalizeSteps(req.steps)[i]);
    var w1 := Next(w, Start(req, id));
    StepRecordAtEnd(w.now, req.steps, sl, w.now + CampaignEndDuration(NormalizeSteps(req.steps)));
    var es := OutlivingRun(req, sl, w.now);
    StartPutsToSleep(w, req, id, i);
    StampsAreOld(w);
    WakesAndWaits(w1, es[0].elapsed, sl, es[2].elapsed);
    assert OnTime(w1, es, w.now, req.steps) by { OnTimeOfThree(w1, es[0], es[1], es[2], w.now, req.steps); }
    assert PastTheEnd(w, req, id, es, sl.step.kind, 1);
  }

  lemma StartPutsToSleep(w: World, req: CampaignRequest, id: string, i: nat)
    requires Accepted(w, req) && i < |req.steps|
    ensures var w1 := Next(w, Start(req, id));
      && SleeperFor(w.now, NormalizeSteps(req.steps)[i]) in w1.sleepers
      && NormalizeSteps(req.steps)[i].kind in w1.states && w1.states == w.states && w1.activations == w.activations
      && w1.timers == w.timers && w1.now == w.now
  {
    var steps := NormalizeSteps(req.steps);
    var list := seq(|steps|, j requires 0 <= j < |steps| => SleeperFor(w.now, steps[j]));
    assert list[i] in multiset(list);
  }

  lemma OnTimeOfThree(w: World, e0: Event, e1: Event, e2: Event, start: int, given: seq<CampaignStep>)
    requires e0.Tick? && e2.Tick? && e1.Wake? && Next(w, e0).now == e1.sleeper.due
    ensures OnTime(w, [e0, e1, e2], start, given)
  {
    var w1, w2 := Next(w, e0), Next(Next(w, e0), e1);
    assert [e0, e1, e2][1..] == [e1, e2] && [e1, e2][1..] == [e2] && [e2][1..] == [];
    assert OnTime(w2, [e2], start, given);
    assert OnTime(w1, [e1, e2], start, given);
  }

  lemma WakesAndWaits(w: World, before: nat, sl: Sleeper, after: nat)
    requires sl in w.sleepers && sl.due == w.now + before && FreshStamp(w, sl.step.kind)
    requires forall t :: t in w.timers ==> t.startedAt <= w.now
    requires sl.step.kind in w.states && sl.step.kind in w.activations
    ensures var es := [Tick(before), Wake(sl), Tick(after)];
      && LegalRun(w, es) && sl.step.kind in Run(w, es).states
      && Run(w, es).now == sl.due + after
      && Run(w, es).states[sl.step.kind] == Activation(StepSpec(sl.step), sl.due)
  {
    RunOfThree(w, Tick(before), Wake(sl), Tick(after));
  }

  /** One campaign that leaves something behind: a single step of half a
      nanosecond, on a new engine. */
  lemma HalfNanosecondStepOutlivesItsCampaign(now: int, ct: ChaosType)
    requires now > ZERO_TIME && ct in REGISTERED
    ensures var req := CampaignRequest("c", false, [CampaignStep(ct, 1.0, 0.000_000_000_5, 0.0)]);
      && Accepted(InitialWorld(now), req)
      && CampaignEndDuration(NormalizeSteps(req.steps)) == SECOND
      && !LeavesNothing(InitialWorld(now), req, "")
  {
    var req := CampaignRequest("c", false, [CampaignStep(ct, 1.0, 0.000_000_000_5, 0.0)]);
    InitialInv(now);
    var steps := NormalizeSteps(req.steps);
    assert steps[..0] == [] && MaxSeconds(steps) == 0.000_000_000_5;
    assert Nanos(0.000_000_000_5) == 0 && Nanos(0.0) == 0;
    assert !EndsInTime(req.steps, 0);
    CampaignLeavesNothingIff(InitialWorld(now), req, "");
  }
}
