/**
Deciding whether the operator got paged: the harness polls the table of firing
alerts of the system under test and compares it with a baseline taken when the
phase began. Every poll is an arbitrary reply at an arbitrary time.
*/
module Alerts {
  import opened Common
  import opened Text

  datatype Alert = Alert(id: string, severity: string, service: string, firedAt: int, dedupCount: nat)

  /** One round of the polling loop: when it looked at the clock, what the table
      held (None for a failed request), and whether the run had been cancelled
      by the time it slept. */
  datatype Poll = Poll(at: int, reply: Option<seq<Alert>>, cancelled: bool)

  function Table(p: Poll): seq<Alert> {
    if p.reply.Some? then p.reply.value else []
  }

  /** What one phase sees: its baseline request, the clock when it begins to
      poll, and its polls. After the last one the deadline is over. */
  datatype Watch = Watch(baseline: Option<seq<Alert>>, start: int, polls: seq<Poll>)

  /** Service names may be tenant-qualified. */
  predicate ServiceMatches(got: string, want: string) {
    var g, w := Lower(got), Lower(want);
    g == w || HasSuffix(g, "/" + w) || HasSuffix(g, ":" + w) || Contains(g, w)
  }

  /** The suffix cases are no restriction: a service matches whenever the wanted
      name occurs anywhere in it. */
  lemma ServiceMatchesIsContainment(got: string, want: string)
    ensures ServiceMatches(got, want) <==> ContainsFold(got, want)
  {
    var g, w := Lower(got), Lower(want);
    if g == w { assert OccursAt(g, w, 0); }
    if HasSuffix(g, "/" + w) { SuffixOccurs(g, "/", w); }
    if HasSuffix(g, ":" + w) { SuffixOccurs(g, ":", w); }
  }

  lemma SuffixOccurs(g: string, mark: string, w: string)
    requires HasSuffix(g, mark + w)
    ensures OccursAt(g, w, |g| - |w|)
  {
    assert g[|g| - |w|..] == g[|g| - |mark + w|..][|mark|..];
  }

  // ---------- the baseline ----------

  /** Dedup counts of the matching alerts; a repeated id keeps its last row. */
  function BaselineOf(table: seq<Alert>, service: string): map<string, nat> {
    if table == [] then map[]
    else
      var m := BaselineOf(table[..|table| - 1], service);
      var a := table[|table| - 1];
      if ServiceMatches(a.service, service) then m[a.id := a.dedupCount] else m
  }

  predicate DistinctIds(table: seq<Alert>) {
    forall i, j :: 0 <= i < j < |table| ==> table[i].id != table[j].id
  }

  lemma {:induction false} BaselineHolds(table: seq<Alert>, service: string)
    ensures forall id :: id in BaselineOf(table, service) <==>
              exists i :: 0 <= i < |table| && table[i].id == id && ServiceMatches(table[i].service, service)
    ensures DistinctIds(table) ==>
              forall i :: 0 <= i < |table| && ServiceMatches(table[i].service, service) ==>
                table[i].id in BaselineOf(table, service) &&
                BaselineOf(table, service)[table[i].id] == table[i].dedupCount
  {
    if table != [] {
      var n := |table| - 1;
      var front := table[..n];
      BaselineHolds(front, service);
      var m, m' := BaselineOf(front, service), BaselineOf(table, service);
      forall id ensures id in m' <==>
        exists i :: 0 <= i < |table| && table[i].id == id && ServiceMatches(table[i].service, service)
      {
        if id in m {
          var i :| 0 <= i < n && front[i].id == id && ServiceMatches(front[i].service, service);
          assert table[i] == front[i];
        }
        if i :| 0 <= i < |table| && table[i].id == id && ServiceMatches(table[i].service, service) {
          if i < n { assert front[i] == table[i]; }
        }
      }
      if DistinctIds(table) {
        assert DistinctIds(front);
        forall i | 0 <= i < |table| && ServiceMatches(table[i].service, service)
          ensures table[i].id in m' && m'[table[i].id] == table[i].dedupCount
        {
          if i < n { assert front[i] == table[i]; }
        }
      }
    }
  }

  // ---------- detection ----------

  predicate IsFresh(a: Alert, after: int) {
    a.firedAt > after - MINUTE
  }

  /** The pager lit up: a fresh alert, one that absorbed further occurrences, or
      one that was not firing when the phase began. */
  predicate Detects(a: Alert, service: string, after: int, baseline: map<string, nat>) {
    && ServiceMatches(a.service, service)
    && (IsFresh(a, after) || a.id !in baseline || a.dedupCount > baseline[a.id])
  }

  /** Poll p takes place unless an earlier one ends the loop by detecting: all
      clock readings up to it are before the deadline and the run was not
      cancelled before it. */
  predicate Reached(polls: seq<Poll>, deadline: int, p: nat) {
    p < |polls| &&
    forall q :: 0 <= q <= p ==> polls[q].at < deadline && (q < p ==> !polls[q].cancelled)
  }

  function WatchBaseline(w: Watch, service: string): map<string, nat> {
    if w.baseline.Some? then BaselineOf(w.baseline.value, service) else map[]
  }

  /** Row i of poll p is an alert the watch counts. */
  predicate Hit(w: Watch, service: string, after: int, window: int, p: nat, i: nat) {
    && Reached(w.polls, w.start + window, p)
    && i < |Table(w.polls[p])|
    && Detects(Table(w.polls[p])[i], service, after, WatchBaseline(w, service))
  }

  ghost predicate NothingHit(w: Watch, service: string, after: int, window: int) {
    forall p: nat, i: nat :: !Hit(w, service, after, window, p, i)
  }

  ghost predicate FirstHit(w: Watch, service: string, after: int, window: int, p: nat, i: nat) {
    && Hit(w, service, after, window, p, i)
    && (forall q: nat, j: nat :: q < p || (q == p && j < i) ==> !Hit(w, service, after, window, q, j))
  }

  /** Polls for a page. The result is exactly the first counted alert of the
      first poll that holds one, and nothing if and only if no poll that takes
      place holds one. */
  method WaitForAlert(w: Watch, service: string, after: int, window: int) returns (r: Option<Alert>)
    ensures r == None <==> NothingHit(w, service, after, window)
    ensures r.Some? ==> exists p: nat, i: nat ::
      FirstHit(w, service, after, window, p, i) && r.value == Table(w.polls[p])[i]
  {
    var baseline: map<string, nat> := map[];
    if w.baseline.Some? {
      var alerts := w.baseline.value;
      for k := 0 to |alerts|
        invariant baseline == BaselineOf(alerts[..k], service)
      {
        assert alerts[..k + 1][..k] == alerts[..k];
        if ServiceMatches(alerts[k].service, service) {
          baseline := baseline[alerts[k].id := alerts[k].dedupCount];
        }
      }
      assert alerts[..|alerts|] == alerts;
    }
    var deadline := w.start + window;
    var p := 0;
    while p < |w.polls| && w.polls[p].at < deadline
      invariant 0 <= p <= |w.polls|
      invariant baseline == WatchBaseline(w, service)
      invariant forall q :: 0 <= q < p ==> w.polls[q].at < deadline && !w.polls[q].cancelled
      invariant forall q: nat, j: nat :: q < p ==> !Hit(w, service, after, window, q, j)
    {
      assert Reached(w.polls, deadline, p);
      var alerts := Table(w.polls[p]);
      for i := 0 to |alerts|
        invariant forall j: nat :: j < i ==> !Hit(w, service, after, window, p, j)
      {
        var a := alerts[i];
        if !ServiceMatches(a.service, service) { continue; }
        if IsFresh(a, after) {
          assert FirstHit(w, service, after, window, p, i);
          return Some(a);
        }
        if a.id !in baseline || a.dedupCount > baseline[a.id] {
          assert FirstHit(w, service, after, window, p, i);
          return Some(a);
        }
      }
      if w.polls[p].cancelled { return None; }
      p := p + 1;
    }
    return None;
  }

  // ---------- the ways to be paged ----------

  /** Row k is the last of the table with this id on the service. */
  predicate IsLastRow(table: seq<Alert>, service: string, id: string, k: nat) {
    && k < |table| && table[k].id == id && ContainsFold(table[k].service, service)
    && forall l :: k < l < |table| && table[l].id == id ==> !ContainsFold(table[l].service, service)
  }

  lemma {:induction false} BaselineHoldsTheLastRow(table: seq<Alert>, service: string, id: string)
    ensures id in BaselineOf(table, service) <==> exists k: nat :: IsLastRow(table, service, id, k)
    ensures forall k: nat :: IsLastRow(table, service, id, k) ==>
      id in BaselineOf(table, service) && BaselineOf(table, service)[id] == table[k].dedupCount
  {
    if table != [] {
      var n := |table| - 1;
      var front := table[..n];
      BaselineHoldsTheLastRow(front, service, id);
      ServiceMatchesIsContainment(table[n].service, service);
      if table[n].id == id && ContainsFold(table[n].service, service) {
        assert IsLastRow(table, service, id, n);
      } else {
        forall k: nat ensures IsLastRow(table, service, id, k) <==> IsLastRow(front, service, id, k) {
          LastRowOfFront(table, service, id, k);
        }
      }
    }
  }

  lemma LastRowOfFront(table: seq<Alert>, service: string, id: string, k: nat)
    requires table != []
    requires table[|table| - 1].id != id || !ContainsFold(table[|table| - 1].service, service)
    ensures IsLastRow(table, service, id, k) <==> IsLastRow(table[..|table| - 1], service, id, k)
  {
    assert forall l :: 0 <= l < |table| - 1 ==> table[..|table| - 1][l] == table[l];
  }

  /** The operator's pager lights up for a row on the service in exactly three ways:
      it fired less than a minute before the injection or later, no baseline row
      has its id, or the last baseline row that does has a smaller dedup count. */
  ghost predicate LightsUp(baseline: Option<seq<Alert>>, a: Alert, service: string, injected: int) {
    && ContainsFold(a.service, service)
    && (|| a.firedAt > injected - 60_000_000_000
        || baseline == None
        || (forall k: nat :: !IsLastRow(baseline.value, service, a.id, k))
        || (exists k: nat :: IsLastRow(baseline.value, service, a.id, k) && a.dedupCount > baseline.value[k].dedupCount))
  }

  lemma DetectsIffLightsUp(baseline: Option<seq<Alert>>, a: Alert, service: string, injected: int)
    ensures Detects(a, service, injected, if baseline.Some? then BaselineOf(baseline.value, service) else map[]) <==>
            LightsUp(baseline, a, service, injected)
  {
    ServiceMatchesIsContainment(a.service, service);
    if baseline.Some? { BaselineHoldsTheLastRow(baseline.value, service, a.id); }
  }

  /** What the polling loop counts: a row of a table that was fetched before the
      deadline, with no poll before it late or cancelled, that lights up the
      pager. */
  lemma HitMeans(w: Watch, service: string, injected: int, window: int, p: nat, i: nat)
    ensures Hit(w, service, injected, window, p, i) <==>
      && p < |w.polls| && w.polls[p].reply.Some? && i < |w.polls[p].reply.value|
      && (forall q :: 0 <= q <= p ==> w.polls[q].at - w.start < window)
      && (forall q :: 0 <= q < p ==> !w.polls[q].cancelled)
      && LightsUp(w.baseline, w.polls[p].reply.value[i], service, injected)
  {
    if p < |w.polls| && i < |Table(w.polls[p])| {
      DetectsIffLightsUp(w.baseline, Table(w.polls[p])[i], service, injected);
    }
  }

  /** An alert of the baseline that has not fired anew pages if and only if it has
      absorbed further occurrences since. */
  lemma OldAlertPagesIffItGrew(w: Watch, service: string, injected: int, window: int, p: nat, i: nat, k: nat)
    requires w.baseline.Some? && DistinctIds(w.baseline.value) && k < |w.baseline.value|
    requires ContainsFold(w.baseline.value[k].service, service)
    requires Reached(w.polls, w.start + window, p) && i < |Table(w.polls[p])|
    requires var a := Table(w.polls[p])[i];
      a.id == w.baseline.value[k].id && a.firedAt <= injected - 60_000_000_000 && ContainsFold(a.service, service)
    ensures Hit(w, service, injected, window, p, i) <==>
            Table(w.polls[p])[i].dedupCount > w.baseline.value[k].dedupCount
  {
    HitMeans(w, service, injected, window, p, i);
    var id := Table(w.polls[p])[i].id;
    assert IsLastRow(w.baseline.value, service, id, k);
    assert forall l: nat :: IsLastRow(w.baseline.value, service, id, l) ==> l == k;
  }

  /** A table that has not changed since a baseline that was taken pages exactly
      if one of its matching alerts is fresh; old alerts alone never do. */
  lemma UnchangedTableHitsOnlyFresh(w: Watch, service: string, after: int, window: int, p: nat)
    requires w.baseline.Some? && DistinctIds(w.baseline.value)
    requires Reached(w.polls, w.start + window, p) && w.polls[p].reply == w.baseline
    ensures (exists i: nat :: Hit(w, service, after, window, p, i)) <==>
            exists a :: a in w.baseline.value && ServiceMatches(a.service, service) && IsFresh(a, after)
  {
    var table := w.baseline.value;
    BaselineHolds(table, service);
    if a :| a in table && ServiceMatches(a.service, service) && IsFresh(a, after) {
      var i: nat :| i < |table| && table[i] == a;
      assert Hit(w, service, after, window, p, i);
    }
  }

  /** Without the baseline the same table pages for every matching alert,
      however old. */
  lemma LostBaselineHitsOldAlerts(w: Watch, service: string, after: int, window: int, p: nat)
    requires w.baseline == None && Reached(w.polls, w.start + window, p)
    ensures (exists i: nat :: Hit(w, service, after, window, p, i)) <==>
            exists a :: a in Table(w.polls[p]) && ServiceMatches(a.service, service)
  {
    var table := Table(w.polls[p]);
    if a :| a in table && ServiceMatches(a.service, service) {
      var i: nat :| i < |table| && table[i] == a;
      assert Hit(w, service, after, window, p, i);
    }
  }

  /** Once a run is cancelled nothing later is looked at: two watches that agree
      up to the first cancelled poll have the same hits. */
  lemma CancelledWatchSeesNothingMore(w: Watch, later: seq<Poll>, service: string, after: int, window: int)
    requires exists q :: 0 <= q < |w.polls| && w.polls[q].cancelled
    ensures NothingHit(w.(polls := w.polls + later), service, after, window) <==>
            NothingHit(w, service, after, window)
  {
    var w' := w.(polls := w.polls + later);
    var q :| 0 <= q < |w.polls| && w.polls[q].cancelled;
    forall p: nat, i: nat
      ensures Hit(w', service, after, window, p, i) <==> Hit(w, service, after, window, p, i)
    {
      if Reached(w'.polls, w.start + window, p) {
        assert w'.polls[q] == w.polls[q];
        assert p <= q;
        assert forall r :: 0 <= r <= p ==> w'.polls[r] == w.polls[r];
      }
      if Reached(w.polls, w.start + window, p) {
        assert forall r :: 0 <= r <= p ==> w'.polls[r] == w.polls[r];
      }
    }
  }

  // ---------- resolving ----------

  function ResolvedIds(listed: seq<Alert>, after: int, accepted: nat -> bool): set<string> {
    set i | 0 <= i < |listed| && IsFresh(listed[i], after) && accepted(i) :: listed[i].id
  }

  /** The alerts the system under test has firing. */
  class AlertTable {
    var firing: set<string>

    /** Closes every alert of this run that the listing shows; `accepted` says
        for which of its rows the request succeeds. */
    method ResolveRunAlerts(listing: Option<seq<Alert>>, after: int, accepted: nat -> bool)
      modifies this
      ensures firing == old(firing) -
        if listing.Some? then ResolvedIds(listing.value, after, accepted) else {}
    {
      if listing == None { return; }
      var listed := listing.value;
      for i := 0 to |listed|
        invariant firing == old(firing) - ResolvedIds(listed[..i], after, accepted)
      {
        assert listed[..i + 1] == listed[..i] + [listed[i]];
        ResolvedIdsGrow(listed, after, accepted, i);
        var a := listed[i];
        if !IsFresh(a, after) { continue; }
        if !accepted(i) { continue; }
        firing := firing - {a.id};
      }
      assert listed[..|listed|] == listed;
    }
  }

  lemma ResolvedIdsGrow(listed: seq<Alert>, after: int, accepted: nat -> bool, i: nat)
    requires i < |listed|
    ensures ResolvedIds(listed[..i + 1], after, accepted) ==
            ResolvedIds(listed[..i], after, accepted) +
            if IsFresh(listed[i], after) && accepted(i) then {listed[i].id} else {}
  {
    var front, more := listed[..i], listed[..i + 1];
    forall id | id in ResolvedIds(front, after, accepted)
      ensures id in ResolvedIds(more, after, accepted)
    {
      var k :| 0 <= k < i && IsFresh(front[k], after) && accepted(k) && front[k].id == id;
      assert more[k] == front[k];
    }
    assert more[i] == listed[i];
    forall k | 0 <= k < i ensures more[k] == front[k] { }
  }

  /** Closing the pages is complete and feeds the next run: if every request
      succeeds, no listed alert of the run is still firing, every other alert
      is, and such an alert, should it fire again during a later watch whose
      baseline was listed after the resolve, is detected whatever start time
      its row carries. */
  lemma ResolvedAlertsAreDetectedAgain(
      firing: set<string>, listed: seq<Alert>, after: int, accepted: nat -> bool,
      w: Watch, service: string, later: int, a: Alert)
    requires forall i :: 0 <= i < |listed| ==> accepted(i)
    requires a in listed && IsFresh(a, after)
    requires w.baseline.Some? && forall b :: b in w.baseline.value ==>
      b.id in firing - ResolvedIds(listed, after, accepted)
    ensures var left := firing - ResolvedIds(listed, after, accepted);
      && (forall b :: b in listed && IsFresh(b, after) ==> b.id !in left)
      && (forall id :: id in firing && (forall b :: b in listed && b.id == id ==> !IsFresh(b, after)) ==> id in left)
    ensures forall b: Alert :: b.id == a.id && ServiceMatches(b.service, service) ==>
      Detects(b, service, later, WatchBaseline(w, service))
  {
    forall b | b in listed && IsFresh(b, after) ensures b.id in ResolvedIds(listed, after, accepted) {
      var i :| 0 <= i < |listed| && listed[i] == b;
    }
    BaselineHolds(w.baseline.value, service);
    assert a.id !in WatchBaseline(w, service);
  }
}
