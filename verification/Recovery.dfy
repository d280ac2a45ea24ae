/**
What a recovery the harness has seen says about the engine it watched: the status
probes of the harness answered by a run of the chaos engine.
*/
module Recovery {
  import opened Common
  import opened Chaos
  import Engine = ChaosRuns
  import Harness = Verdict

  /** Every status reply that decoded tells whether the target's engine reported
      any active fault, at some moment of its run since the dispatch. */
  ghost predicate Answered(probes: seq<Harness.Probe>, w: World, es: seq<Engine.Event>) {
    forall p :: 0 <= p < |probes| && probes[p].reply.Status? ==>
      exists n: nat :: n <= |es| && Tells(probes[p].reply.active, w, es, n)
  }

  predicate Tells(active: bool, w: World, es: seq<Engine.Event>, n: nat)
    requires n <= |es|
  {
    active <==> ActiveTypes(Engine.Run(w, es[..n])) != {}
  }

  lemma {:induction false} PrefixIsLegal(w: World, es: seq<Engine.Event>, n: nat)
    requires n <= |es| && Engine.LegalRun(w, es)
    ensures Engine.LegalRun(w, es[..n])
    decreases |es|
  {
    if n > 0 {
      assert es[..n][1..] == es[1..][..n - 1];
      PrefixIsLegal(Engine.Next(w, es[0]), es[1..], n - 1);
    }
  }

  /** The run holds a deliberate end of the fault. */
  ghost predicate RemovedIn(es: seq<Engine.Event>, ct: ChaosType) {
    exists i :: 0 <= i < |es| && Engine.Removes(es[i], ct)
  }

  /** Attribution, not luck. If a sticky fault was active when the runbook was
      dispatched and nobody activated it again, then a recovery seen by the
      harness means that something removed the fault in between: an explicit
      disable, the kill-switch or a remediation whose clear set holds it; and if
      nobody used one of the first two, such a remediation. */
  lemma RecoveryIsAttributable(
      sc: Harness.Scenario, rem: Harness.ExpectRemediation, env: Harness.Env, targets: set<string>,
      w: World, es: seq<Engine.Event>, ct: ChaosType)
    requires Harness.SeenCleared(sc, rem, env, targets) && Answered(env.recovery.probes, w, es)
    requires Engine.Inv(w) && Engine.LegalRun(w, es)
    requires ct in w.states && w.states[ct].enabled && w.states[ct].sticky
    requires forall i :: 0 <= i < |es| ==> !Engine.Activates(es[i], ct)
    ensures RemovedIn(es, ct)
    ensures (forall i :: 0 <= i < |es| ==> !es[i].Disable? && !es[i].KillSwitch?) ==>
      exists i :: 0 <= i < |es| && es[i].Ops? && ct in OpsClears(es[i].action)
  {
    var p: nat :|
      Harness.ProbeReached(env.recovery.probes, Harness.RecoveryDeadline(rem, env), p) &&
      env.recovery.probes[p].reply == Harness.Status(false);
    var n: nat :| n <= |es| && Tells(false, w, es, n);
    PrefixIsLegal(w, es, n);
    Engine.StickyFaultNeedsRemediation(w, es[..n], ct);
    assert ct !in ActiveTypes(Engine.Run(w, es[..n]));
    assert !IsActive(Engine.Run(w, es[..n]), ct);
    var i :| 0 <= i < n && Engine.Removes(es[..n][i], ct);
    assert es[i] == es[..n][i];
  }

  /** It takes the fault to have been active: a target without any fault at
      dispatch is seen cleared at the first look that gets through, and nothing
      has remediated anything. */
  lemma NothingToRecoverIsSeenCleared(
      sc: Harness.Scenario, rem: Harness.ExpectRemediation, env: Harness.Env, targets: set<string>,
      w: World, none: seq<Engine.Event>)
    requires Harness.RemediationTarget(sc, rem) in targets
    requires env.recovery.probes != [] && env.recovery.probes[0].at < Harness.RecoveryDeadline(rem, env)
    requires none == [] && Answered(env.recovery.probes, w, none)
    requires env.recovery.probes[0].reply.Status? && ActiveTypes(w) == {}
    ensures Harness.SeenCleared(sc, rem, env, targets)
  {
    var n: nat :| n <= |none| && Tells(env.recovery.probes[0].reply.active, w, none, n);
    assert none[..n] == none;
    assert Harness.ProbeReached(env.recovery.probes, Harness.RecoveryDeadline(rem, env), 0);
  }
}
