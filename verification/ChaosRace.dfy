/**
The auto-disable timer without the assumption that its steps are atomic.

Activating a fault writes the record under the lock, lets go of it, and only
then reads the start time its timer will compare with. A timer that wakes
checks the record under the lock, lets go of it, and only then disables the
type. Either gap can be entered by another activation of the same type. This
module splits both operations at their gaps and proves that these two gaps are
the only way for a timer to end an activation that is not its own.
*/
module ChaosRace {
  import opened Chaos

  /** `serial` counts the writes to the record, so it names the activation that
      is current; `writtenAt` is the clock of the last one. */
  datatype Cell = Cell(enabled: bool, sticky: bool, writtenAt: int, serial: nat)

  /** The start time in the record: disabling resets it. */
  function Stamp(c: Cell): int { if c.enabled then c.writtenAt else ZERO_TIME }

  /** An activation in its gap: written, not yet re-read. */
  datatype Arming = Arming(kind: ChaosType, owner: nat, duration: int)

  /** An armed timer. `seen` is the activation whose start time it read. */
  datatype Waiting = Waiting(kind: ChaosType, owner: nat, due: int, stamp: int, seen: nat)

  /** A timer in its gap: its check held when `found` was current. */
  datatype Checked = Checked(kind: ChaosType, owner: nat, seen: nat, found: nat)

  datatype Race = Race(
    cells: map<ChaosType, Cell>,
    arming: set<Arming>,
    waiting: set<Waiting>,
    checked: set<Checked>,
    now: int
  )

  datatype Event =
    | Write(kind: ChaosType, duration: int, sticky: bool)
    | Arm(arming: Arming)
    | Check(waiting: Waiting)
    | Act(checked: Checked)
    | Clear(kind: ChaosType)
    | Tick(elapsed: nat)

  function Written(r: Race, k: ChaosType, sticky: bool): Cell
    requires k in r.cells
  {
    Cell(true, sticky, r.now, r.cells[k].serial + 1)
  }

  function Armed(r: Race, a: Arming): Waiting
    requires a.kind in r.cells
  {
    Waiting(a.kind, a.owner, r.now + a.duration, Stamp(r.cells[a.kind]), r.cells[a.kind].serial)
  }

  predicate Passes(r: Race, w: Waiting) {
    w.kind in r.cells && r.cells[w.kind].enabled && Stamp(r.cells[w.kind]) == w.stamp
  }

  function Held(r: Race, w: Waiting): Checked
    requires w.kind in r.cells
  {
    Checked(w.kind, w.owner, w.seen, r.cells[w.kind].serial)
  }

  function Off(r: Race, k: ChaosType): Race {
    if k in r.cells then r.(cells := r.cells[k := r.cells[k].(enabled := false)]) else r
  }

  function Next(r: Race, e: Event): Race {
    match e
    case Write(k, d, sticky) =>
      if k !in r.cells then r
      else
        var c := Written(r, k, sticky);
        r.(cells := r.cells[k := c],
           arming := if sticky then r.arming else r.arming + {Arming(k, c.serial, NormalizeDuration(d))})
    case Arm(a) =>
      if a.kind !in r.cells then r
      else r.(arming := r.arming - {a}, waiting := r.waiting + {Armed(r, a)})
    case Check(w) =>
      r.(waiting := r.waiting - {w},
         checked := if Passes(r, w) then r.checked + {Held(r, w)} else r.checked)
    case Act(c) => Off(r.(checked := r.checked - {c}), c.kind)
    case Clear(k) => Off(r, k)
    case Tick(d) => r.(now := r.now + d)
  }

  /** Activations of one type carry distinct start times. */
  predicate Legal(r: Race, e: Event) {
    match e
    case Write(k, _, _) => k in r.cells ==> r.cells[k].writtenAt < r.now
    case Arm(a) => a in r.arming
    case Check(w) => w in r.waiting && w.due <= r.now
    case Act(c) => c in r.checked
    case _ => true
  }

  function Run(r: Race, es: seq<Event>): Race
    decreases |es|
  {
    if es == [] then r else Run(Next(r, es[0]), es[1..])
  }

  predicate LegalRun(r: Race, es: seq<Event>)
    decreases |es|
  {
    es == [] || (Legal(r, es[0]) && LegalRun(Next(r, es[0]), es[1..]))
  }

  predicate GoodWaiting(r: Race, w: Waiting) {
    && w.kind in r.cells
    && var c := r.cells[w.kind];
       && w.owner <= w.seen <= c.serial
       && (w.stamp != ZERO_TIME ==> w.stamp <= c.writtenAt && (w.stamp == c.writtenAt ==> w.seen == c.serial))
  }

  predicate GoodChecked(r: Race, c: Checked) {
    c.kind in r.cells && c.owner <= c.seen == c.found <= r.cells[c.kind].serial
  }

  ghost predicate Inv(r: Race) {
    && r.now > ZERO_TIME
    && (forall k :: k in r.cells ==>
          r.cells[k].writtenAt <= r.now && (r.cells[k].enabled ==> ZERO_TIME < r.cells[k].writtenAt))
    && (forall a :: a in r.arming ==> a.kind in r.cells && a.owner <= r.cells[a.kind].serial)
    && (forall w :: w in r.waiting ==> GoodWaiting(r, w))
    && (forall c :: c in r.checked ==> GoodChecked(r, c))
  }

  lemma NextKeepsInv(r: Race, e: Event)
    requires Inv(r) && Legal(r, e)
    ensures Inv(Next(r, e))
  {
    var r' := Next(r, e);
    forall w | w in r'.waiting ensures GoodWaiting(r', w) {
      if w in r.waiting { assert GoodWaiting(r, w); }
    }
    forall c | c in r'.checked ensures GoodChecked(r', c) {
      if c in r.checked { assert GoodChecked(r, c); } else { assert GoodWaiting(r, e.waiting); }
    }
  }

  function Writes(es: seq<Event>, k: ChaosType): nat {
    if es == [] then 0
    else (if es[0].Write? && es[0].kind == k then 1 else 0) + Writes(es[1..], k)
  }

  /** The serial number counts writes, and without a write stickiness stays. */
  lemma {:induction false} RunCountsWrites(r: Race, es: seq<Event>, k: ChaosType)
    requires Inv(r) && LegalRun(r, es) && k in r.cells
    ensures Inv(Run(r, es)) && k in Run(r, es).cells
    ensures Run(r, es).cells[k].serial == r.cells[k].serial + Writes(es, k)
    ensures Writes(es, k) == 0 ==> Run(r, es).cells[k].sticky == r.cells[k].sticky
    decreases |es|
  {
    if es != [] {
      NextKeepsInv(r, es[0]);
      RunCountsWrites(Next(r, es[0]), es[1..], k);
    }
  }

  /** Follow one timer through any interleaving: its activation is written;
      `gap1` happens; it is armed; `asleep` happens; it checks and the check
      holds; `gap2` happens; it is about to disable the type, which is on. What
      it ends is another activation than its own if and only if the type was
      activated again inside one of the two gaps. Activations while it slept
      never matter, and an activation of its own is never sticky. */
  lemma TimerEndsAnotherActivationIff(
      r0: Race, k: ChaosType, d: int, gap1: seq<Event>, asleep: seq<Event>, gap2: seq<Event>)
    requires Inv(r0) && k in r0.cells && Legal(r0, Write(k, d, false))
    requires var r1 := Next(r0, Write(k, d, false));
      var own := Arming(k, r1.cells[k].serial, NormalizeDuration(d));
      LegalRun(r1, gap1) &&
      var r2 := Run(r1, gap1);
      Legal(r2, Arm(own)) && k in r2.cells &&
      var timer := Armed(r2, own);
      var r3 := Next(r2, Arm(own));
      LegalRun(r3, asleep) &&
      var r4 := Run(r3, asleep);
      Legal(r4, Check(timer)) && Passes(r4, timer) &&
      var r5 := Next(r4, Check(timer));
      LegalRun(r5, gap2) &&
      var r6 := Run(r5, gap2);
      Legal(r6, Act(Held(r4, timer))) && k in r6.cells && r6.cells[k].enabled
    ensures var r1 := Next(r0, Write(k, d, false));
      var own := Arming(k, r1.cells[k].serial, NormalizeDuration(d));
      var r2 := Run(r1, gap1);
      k in r2.cells &&
      var timer := Armed(r2, own);
      var r4 := Run(Next(r2, Arm(own)), asleep);
      k in r4.cells &&
      var r6 := Run(Next(r4, Check(timer)), gap2);
      k in r6.cells &&
      var r7 := Next(r6, Act(Held(r4, timer)));
      && k in r7.cells && !r7.cells[k].enabled
      && (r6.cells[k].serial != own.owner <==> Writes(gap1, k) > 0 || Writes(gap2, k) > 0)
      && (r6.cells[k].serial == own.owner ==> !r6.cells[k].sticky)
  {
    var r1 := Next(r0, Write(k, d, false));
    NextKeepsInv(r0, Write(k, d, false));
    var own := Arming(k, r1.cells[k].serial, NormalizeDuration(d));
    RunCountsWrites(r1, gap1, k);
    var r2 := Run(r1, gap1);
    var timer := Armed(r2, own);
    NextKeepsInv(r2, Arm(own));
    var r3 := Next(r2, Arm(own));
    RunCountsWrites(r3, asleep, k);
    var r4 := Run(r3, asleep);
    assert GoodWaiting(r4, timer);
    NextKeepsInv(r4, Check(timer));
    RunCountsWrites(Next(r4, Check(timer)), gap2, k);
  }

  /** A timer is armed once, checks once, and disables at most once for it. */
  lemma TimersActOnce(r: Race, a: Arming, w: Waiting, c: Checked)
    requires Inv(r) && a in r.arming && w in r.waiting && c in r.checked
    ensures a !in Next(r, Arm(a)).arming && w !in Next(r, Check(w)).waiting && c !in Next(r, Act(c)).checked
    ensures Next(r, Check(w)).checked == r.checked || Next(r, Check(w)).checked == r.checked + {Held(r, w)}
    ensures Next(r, Check(w)).cells == r.cells && Next(r, Arm(a)).cells == r.cells
  {
    assert GoodWaiting(r, w);
  }

  /** Undisturbed, an activation is ended by its own timer once its duration is over,
      and a sticky one arms none. */
  lemma OwnTimerRunsOnTime(r: Race, k: ChaosType, d: int)
    requires Inv(r) && k in r.cells && Legal(r, Write(k, d, false))
    ensures Next(r, Write(k, d, true)).arming == r.arming
    ensures var lasts := NormalizeDuration(d);
      var r1 := Next(r, Write(k, d, false));
      var own := Arming(k, r1.cells[k].serial, lasts);
      && r1.cells[k].enabled && Legal(r1, Arm(own))
      && var r2 := Next(r1, Arm(own));
      var timer := Armed(r1, own);
      && (forall wait: nat :: Legal(Next(r2, Tick(wait)), Check(timer)) <==> wait >= lasts)
      && var r3 := Next(r2, Tick(lasts));
      && Passes(r3, timer)
      && Legal(Next(r3, Check(timer)), Act(Held(r3, timer)))
      && !Next(Next(r3, Check(timer)), Act(Held(r3, timer))).cells[k].enabled
  {
  }

  /** The second gap is real, and reaches sticky faults: after any check that
      held, a sticky activation written before the disable is ended by it. */
  lemma StickyFaultEndedThroughTheCheckGap(r: Race, c: Checked, d: int)
    requires Inv(r) && c in r.checked && r.cells[c.kind].writtenAt < r.now
    ensures var es := [Write(c.kind, d, true), Act(c)];
      && LegalRun(r, es)
      && Next(r, es[0]).cells[c.kind].enabled && Next(r, es[0]).cells[c.kind].sticky
      && c.kind in Run(r, es).cells && !Run(r, es).cells[c.kind].enabled
  {
    var es := [Write(c.kind, d, true), Act(c)];
    var r1 := Next(r, es[0]);
    assert es[1..] == [Act(c)] && [Act(c)][1..] == [];
    assert LegalRun(Next(r1, Act(c)), []) && Run(Next(r1, Act(c)), []) == Next(r1, Act(c));
  }

  /** So is the first: a sticky activation written before the timer of an
      earlier one is armed is ended when that timer runs. */
  lemma StickyFaultEndedThroughTheArmingGap(r: Race, a: Arming, d: int)
    requires Inv(r) && a in r.arming && a.duration >= 0 && r.cells[a.kind].writtenAt < r.now
    ensures var r1 := Next(r, Write(a.kind, d, true));
      var r2 := Next(Next(r1, Arm(a)), Tick(a.duration));
      var timer := Armed(r1, a);
      && Legal(r, Write(a.kind, d, true)) && Legal(r1, Arm(a)) && Legal(r2, Check(timer))
      && a.kind in r2.cells && r2.cells[a.kind].enabled && r2.cells[a.kind].sticky
      && var r3 := Next(r2, Check(timer));
         && Legal(r3, Act(Held(r2, timer)))
         && !Next(r3, Act(Held(r2, timer))).cells[a.kind].enabled
  {
  }
}
