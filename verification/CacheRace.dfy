/**
The same cache with the handlers split at their database and cache steps, and
any number of them interleaved. A fill reads the database and later stores what
it read; an update reads the record, later writes the database, and later still
deletes the cached entry.
*/
module CacheRace {
  import opened UserCache

  /** A value read for the cache; it was version `version` of the record. */
  datatype Fill = Fill(id: string, user: User, version: nat)

  /** A cached value. `missed` is how many writes of the record happened between
      the read and the store of the fill it came from. */
  datatype Entry = Entry(user: User, version: nat, missed: int)

  datatype PendingWrite = PendingWrite(id: string, user: User)

  /** `history` holds all values a record ever had, the current one last. */
  datatype Race = Race(
    history: map<string, seq<User>>,
    cache: map<string, Entry>,
    fills: multiset<Fill>,
    writes: multiset<PendingWrite>,
    deletes: multiset<string>)

  datatype Event =
    | Create(id: string, user: User)
    | ReadForFill(id: string)
    | Store(fill: Fill)
    | ReadForUpdate(id: string, body: Body)
    | Write(write: PendingWrite)
    | Delete(id: string)

  predicate Known(r: Race, id: string) { id in r.history && |r.history[id]| > 0 }

  function Latest(r: Race, id: string): nat
    requires Known(r, id)
  {
    |r.history[id]| - 1
  }

  function Current(r: Race, id: string): User
    requires Known(r, id)
  {
    r.history[id][Latest(r, id)]
  }

  /** Ids are fresh, records are read only when present, and a pending step must
      be pending to happen. */
  predicate Legal(r: Race, e: Event) {
    match e
    case Create(id, _) => id !in r.history
    case ReadForFill(id) => Known(r, id)
    case Store(f) => f in r.fills && Known(r, f.id)
    case ReadForUpdate(id, _) => Known(r, id)
    case Write(w) => w in r.writes && Known(r, w.id)
    case Delete(id) => id in r.deletes
  }

  function Next(r: Race, e: Event): Race
    requires Legal(r, e)
  {
    match e
    case Create(id, u) => r.(history := r.history[id := [u]])
    case ReadForFill(id) => r.(fills := r.fills + multiset{Fill(id, Current(r, id), Latest(r, id))})
    case Store(f) =>
      r.(fills := r.fills - multiset{f},
         cache := r.cache[f.id := Entry(f.user, f.version, Latest(r, f.id) - f.version)])
    case ReadForUpdate(id, body) =>
      r.(writes := r.writes + multiset{PendingWrite(id, Merge(Current(r, id), body))})
    case Write(w) =>
      r.(writes := r.writes - multiset{w},
         history := r.history[w.id := r.history[w.id] + [w.user]],
         deletes := r.deletes + multiset{w.id})
    case Delete(id) =>
      r.(deletes := r.deletes - multiset{id}, cache := r.cache - {id})
  }

  predicate GoodFill(r: Race, f: Fill) {
    f.id in r.history && f.version < |r.history[f.id]| && f.user == r.history[f.id][f.version]
  }

  /** A cached value is one the record once had; every write its fill missed is
      later than it, and every other later write has its delete still to come. */
  predicate GoodEntry(r: Race, id: string) {
    && id in r.cache && id in r.history
    && var e := r.cache[id];
       && e.version < |r.history[id]|
       && e.user == r.history[id][e.version]
       && 0 <= e.missed <= |r.history[id]| - 1 - e.version <= e.missed + r.deletes[id]
  }

  /** No update ever changes who a user is. */
  predicate SameIdentity(u: User, v: User) { u.id == v.id && u.createdAt == v.createdAt }

  predicate GoodWrite(r: Race, w: PendingWrite) {
    Known(r, w.id) && SameIdentity(w.user, Current(r, w.id))
  }

  /** Records never disappear, so a pending step always finds its record. */
  ghost predicate Inv(r: Race) {
    && (forall f :: f in r.fills ==> GoodFill(r, f))
    && (forall id :: id in r.cache ==> GoodEntry(r, id))
    && (forall w :: w in r.writes ==> GoodWrite(r, w))
  }

  lemma FillsStayGood(r: Race, e: Event, f: Fill)
    requires Inv(r) && Legal(r, e) && f in Next(r, e).fills
    ensures GoodFill(Next(r, e), f)
  {
    if f in r.fills {
      OldFillStaysGood(r, e, f);
    } else {
      assert f == Fill(e.id, Current(r, e.id), Latest(r, e.id)) && Next(r, e).history == r.history;
    }
  }

  lemma OldFillStaysGood(r: Race, e: Event, f: Fill)
    requires Legal(r, e) && GoodFill(r, f)
    ensures GoodFill(Next(r, e), f)
  {
    HistoryStep(r, e, f.id);
  }

  lemma EntryStaysGood(r: Race, e: Event, id: string)
    requires Inv(r) && Legal(r, e) && id in Next(r, e).cache
    ensures GoodEntry(Next(r, e), id)
  {
    if e.Store? && e.fill.id == id {
      StoredEntryIsGood(r, e.fill);
    } else {
      assert GoodEntry(r, id);
      OldEntryStaysGood(r, e, id);
    }
  }

  lemma StoredEntryIsGood(r: Race, f: Fill)
    requires Legal(r, Store(f)) && GoodFill(r, f)
    ensures GoodEntry(Next(r, Store(f)), f.id)
  {
  }

  lemma OldEntryStaysGood(r: Race, e: Event, id: string)
    requires Legal(r, e) && GoodEntry(r, id) && id in Next(r, e).cache && !(e.Store? && e.fill.id == id)
    ensures GoodEntry(Next(r, e), id)
  {
    HistoryStep(r, e, id);
  }

  /** A step writes at most one record, and not another user into it. */
  lemma RecordStep(r: Race, e: Event, id: string)
    requires Inv(r) && Legal(r, e) && Known(r, id)
    ensures Known(Next(r, e), id)
    ensures SameIdentity(Current(Next(r, e), id), Current(r, id))
    ensures !(e.Write? && e.write.id == id) ==> Current(Next(r, e), id) == Current(r, id)
  {
    HistoryStep(r, e, id);
    if e.Write? { assert GoodWrite(r, e.write); }
  }

  lemma HistoryStep(r: Race, e: Event, id: string)
    requires Legal(r, e) && Known(r, id)
    ensures id in Next(r, e).history
    ensures Next(r, e).history[id]
         == if e.Write? && e.write.id == id then r.history[id] + [e.write.user] else r.history[id]
  {
  }

  lemma WriteStaysGood(r: Race, e: Event, w: PendingWrite)
    requires Inv(r) && Legal(r, e) && w in r.writes
    ensures GoodWrite(Next(r, e), w)
  {
    assert GoodWrite(r, w);
    RecordStep(r, e, w.id);
  }

  lemma NextKeepsInv(r: Race, e: Event)
    requires Inv(r) && Legal(r, e)
    ensures Inv(Next(r, e))
  {
    forall f | f in Next(r, e).fills ensures GoodFill(Next(r, e), f) { FillsStayGood(r, e, f); }
    forall id | id in Next(r, e).cache ensures GoodEntry(Next(r, e), id) { EntryStaysGood(r, e, id); }
    forall w | w in Next(r, e).writes ensures GoodWrite(Next(r, e), w) {
      if w in r.writes { WriteStaysGood(r, e, w); }
    }
  }

  predicate LegalRun(r: Race, es: seq<Event>)
    decreases |es|
  {
    es == [] || (Legal(r, es[0]) && LegalRun(Next(r, es[0]), es[1..]))
  }

  function Run(r: Race, es: seq<Event>): Race
    requires LegalRun(r, es)
    decreases |es|
  {
    if es == [] then r else Run(Next(r, es[0]), es[1..])
  }

  const EMPTY: Race := Race(map[], map[], multiset{}, multiset{}, multiset{})

  lemma {:induction false} RunKeepsInv(r: Race, es: seq<Event>)
    requires Inv(r) && LegalRun(r, es)
    ensures Inv(Run(r, es))
    decreases |es|
  {
    if es != [] {
      NextKeepsInv(r, es[0]);
      RunKeepsInv(Next(r, es[0]), es[1..]);
    }
  }

  /** Over every interleaving: a cached value is one the database once held for
      that id. With no delete of it pending it is behind the record by exactly
      the writes its fill missed, so it is the current version if and only if no
      write of the record fell between the read and the store of its fill. */
  lemma StaleIffTheFillOverlapped(es: seq<Event>, id: string)
    requires LegalRun(EMPTY, es) && id in Run(EMPTY, es).cache
    ensures var r := Run(EMPTY, es);
      var e := r.cache[id];
      && Known(r, id)
      && e.version <= Latest(r, id) && e.user == r.history[id][e.version]
      && (id !in r.deletes ==> Latest(r, id) - e.version == e.missed)
      && (id !in r.deletes ==> (e.version == Latest(r, id) <==> e.missed == 0))
      && (id !in r.deletes && e.user != Current(r, id) ==> e.missed > 0)
  {
    RunKeepsInv(EMPTY, es);
    assert GoodEntry(Run(EMPTY, es), id);
  }

  function Writes(es: seq<Event>, id: string): nat {
    if es == [] then 0
    else (if es[0].Write? && es[0].write.id == id then 1 else 0) + Writes(es[1..], id)
  }

  lemma {:induction false} RunCountsWrites(r: Race, es: seq<Event>, id: string)
    requires LegalRun(r, es) && Known(r, id)
    ensures Known(Run(r, es), id)
    ensures |Run(r, es).history[id]| == |r.history[id]| + Writes(es, id)
    decreases |es|
  {
    if es != [] {
      RunCountsWrites(Next(r, es[0]), es[1..], id);
    }
  }

  /** What `missed` counts: follow a fill from its read through any `gap` to its
      store; the entry missed exactly the writes of its record inside the gap. */
  lemma MissedWritesAreThoseInTheGap(r: Race, id: string, gap: seq<Event>)
    requires Legal(r, ReadForFill(id)) && LegalRun(Next(r, ReadForFill(id)), gap)
    requires Legal(Run(Next(r, ReadForFill(id)), gap), Store(Fill(id, Current(r, id), Latest(r, id))))
    ensures var f := Fill(id, Current(r, id), Latest(r, id));
      Next(Run(Next(r, ReadForFill(id)), gap), Store(f)).cache[id].missed == Writes(gap, id)
  {
    RunCountsWrites(Next(r, ReadForFill(id)), gap, id);
  }

  // ---------- pending steps ----------

  /** How many steps of a kind a run has. */
  function Steps(es: seq<Event>, kind: Event -> bool): nat {
    if es == [] then 0 else (if kind(es[0]) then 1 else 0) + Steps(es[1..], kind)
  }

  /** Every pending step happens at most once: over any run the fills stored and
      still to come are those read, the writes made and still to come are the
      updates that read, and the deletes of a record made and still to come are
      its writes. */
  lemma {:induction false} PendingStepsBalance(r: Race, es: seq<Event>, id: string)
    requires LegalRun(r, es)
    ensures |Run(r, es).fills| + Steps(es, (e: Event) => e.Store?) == |r.fills| + Steps(es, (e: Event) => e.ReadForFill?)
    ensures |Run(r, es).writes| + Steps(es, (e: Event) => e.Write?) == |r.writes| + Steps(es, (e: Event) => e.ReadForUpdate?)
    ensures Run(r, es).deletes[id] + Steps(es, (e: Event) => e.Delete? && e.id == id) == r.deletes[id] + Writes(es, id)
    decreases |es|
  {
    if es != [] {
      StepBalances(r, es[0], id);
      PendingStepsBalance(Next(r, es[0]), es[1..], id);
    }
  }

  lemma StepBalances(r: Race, e: Event, id: string)
    requires Legal(r, e)
    ensures |Next(r, e).fills| + (if e.Store? then 1 else 0) == |r.fills| + (if e.ReadForFill? then 1 else 0)
    ensures |Next(r, e).writes| + (if e.Write? then 1 else 0) == |r.writes| + (if e.ReadForUpdate? then 1 else 0)
    ensures Next(r, e).deletes[id] + (if e.Delete? && e.id == id then 1 else 0)
         == r.deletes[id] + (if e.Write? && e.write.id == id then 1 else 0)
  {
  }

  // ---------- lost updates ----------

  /** Over a run a record stays the same user, and the same altogether if nobody
      writes it. */
  lemma {:induction false} RecordOverRun(r: Race, es: seq<Event>, id: string)
    requires Inv(r) && LegalRun(r, es) && Known(r, id)
    ensures Known(Run(r, es), id)
    ensures SameIdentity(Current(Run(r, es), id), Current(r, id))
    ensures Writes(es, id) == 0 ==> Current(Run(r, es), id) == Current(r, id)
    decreases |es|
  {
    if es != [] {
      NextKeepsInv(r, es[0]);
      RecordStep(r, es[0], id);
      RecordOverRun(Next(r, es[0]), es[1..], id);
    }
  }

  /** The two values differ in a field that an update with this body copies. */
  predicate CopiedFieldDiffers(u: User, v: User, body: Body) {
    (body.name == "" && u.name != v.name) || (body.email == "" && u.email != v.email)
  }

  /** When an acknowledged update is lost. Follow one update from its read of the
      record through any `gap` to its write. What it leaves is the update applied
      to the record it found there, and so nobody's update is undone, unless and
      only unless another write of the record fell into the gap and the value it
      left differs from the one read in a field this update copied. */
  lemma UpdateIsLostIff(r: Race, id: string, body: Body, gap: seq<Event>)
    requires Inv(r) && Known(r, id) && LegalRun(Next(r, ReadForUpdate(id, body)), gap)
    requires Legal(Run(Next(r, ReadForUpdate(id, body)), gap), Write(PendingWrite(id, Merge(Current(r, id), body))))
    ensures var found := Run(Next(r, ReadForUpdate(id, body)), gap);
      var left := Next(found, Write(PendingWrite(id, Merge(Current(r, id), body))));
      && Known(found, id) && Known(left, id)
      && (Current(left, id) != Merge(Current(found, id), body) <==>
            Writes(gap, id) > 0 && CopiedFieldDiffers(Current(r, id), Current(found, id), body))
  {
    NextKeepsInv(r, ReadForUpdate(id, body));
    RecordStep(r, ReadForUpdate(id, body), id);
    RecordOverRun(Next(r, ReadForUpdate(id, body)), gap, id);
    var u, v := Current(r, id), Current(Run(Next(r, ReadForUpdate(id, body)), gap), id);
    MergesDifferIff(u, v, body);
  }

  lemma MergesDifferIff(u: User, v: User, body: Body)
    requires SameIdentity(u, v)
    ensures Merge(u, body) != Merge(v, body) <==> CopiedFieldDiffers(u, v, body)
  {
  }

  /** Two concurrent updates of different fields lose one of them: both read, the
      one of the name writes, the one of the email writes, and the name is back. */
  lemma NameUpdateLostToEmailUpdate(r: Race, id: string, name: string, email: string)
    requires Inv(r) && Known(r, id)
    requires name != "" && email != "" && name != Current(r, id).name
    ensures var first := PendingWrite(id, Merge(Current(r, id), Body(name, "")));
      var second := PendingWrite(id, Merge(Current(r, id), Body("", email)));
      var r2 := Next(Next(r, ReadForUpdate(id, Body(name, ""))), ReadForUpdate(id, Body("", email)));
      && Legal(Next(r, ReadForUpdate(id, Body(name, ""))), ReadForUpdate(id, Body("", email)))
      && Legal(r2, Write(first)) && Legal(Next(r2, Write(first)), Write(second))
      && Current(Next(r2, Write(first)), id).name == name
      && Current(Next(Next(r2, Write(first)), Write(second)), id).name == Current(r, id).name
  {
  }

  // ---------- one entry, followed ----------

  /** One cached entry from its read to any later moment: the fill is read,
      `gap` happens, it is stored, and `after` happens without another store or a
      delete of it. With no delete pending at the end, the entry is behind the
      record by exactly the writes in the gap, and every write after the store
      would have left its delete pending. */
  lemma FillIsBehindByItsGap(r: Race, id: string, gap: seq<Event>, after: seq<Event>)
    requires Inv(r) && Legal(r, ReadForFill(id)) && LegalRun(Next(r, ReadForFill(id)), gap)
    requires var f := Fill(id, Current(r, id), Latest(r, id));
      var r2 := Run(Next(r, ReadForFill(id)), gap);
      Legal(r2, Store(f)) && LegalRun(Next(r2, Store(f)), after)
    requires forall i :: 0 <= i < |after| ==>
      !(after[i].Store? && after[i].fill.id == id) && !(after[i].Delete? && after[i].id == id)
    ensures var f := Fill(id, Current(r, id), Latest(r, id));
      var end := Run(Next(Run(Next(r, ReadForFill(id)), gap), Store(f)), after);
      && id in end.cache && Known(end, id)
      && end.cache[id].user == Current(r, id)
      && Latest(end, id) - end.cache[id].version == Writes(gap, id) + Writes(after, id)
      && (id !in end.deletes ==> Writes(after, id) == 0)
  {
    var f := Fill(id, Current(r, id), Latest(r, id));
    var r1 := Next(r, ReadForFill(id));
    NextKeepsInv(r, ReadForFill(id));
    RunKeepsInv(r1, gap);
    RunCountsWrites(r1, gap, id);
    var r2 := Run(r1, gap);
    NextKeepsInv(r2, Store(f));
    var r3 := Next(r2, Store(f));
    RunCountsWrites(r3, after, id);
    EntryStays(r3, after, id);
  }

  /** Without a store or a delete of it an entry stays, and each write of its
      record leaves a delete pending. */
  lemma {:induction false} EntryStays(r: Race, es: seq<Event>, id: string)
    requires LegalRun(r, es) && id in r.cache
    requires forall i :: 0 <= i < |es| ==>
      !(es[i].Store? && es[i].fill.id == id) && !(es[i].Delete? && es[i].id == id)
    ensures id in Run(r, es).cache && Run(r, es).cache[id] == r.cache[id]
    ensures Run(r, es).deletes[id] == r.deletes[id] + Writes(es, id)
    decreases |es|
  {
    if es != [] {
      EntryStays(Next(r, es[0]), es[1..], id);
    }
  }

  /** The overlap does happen, from every state in which a changing write of a
      record is pending and no delete is: the entry is left stale with nothing
      pending that would remove it. */
  lemma OverlappedFillStaysStale(r: Race, w: PendingWrite)
    requires w in r.writes && Known(r, w.id) && w.id !in r.deletes && w.user != Current(r, w.id)
    ensures var f := Fill(w.id, Current(r, w.id), Latest(r, w.id));
      && Legal(r, ReadForFill(w.id))
      && var r1 := Next(r, ReadForFill(w.id));
      && Legal(r1, Write(w))
      && var r2 := Next(r1, Write(w));
      && Legal(r2, Delete(w.id))
      && var r3 := Next(r2, Delete(w.id));
      && Legal(r3, Store(f))
      && var r4 := Next(r3, Store(f));
      && w.id in r4.cache && w.id !in r4.deletes && Known(r4, w.id)
      && Current(r4, w.id) == w.user != r4.cache[w.id].user
  {
  }
}
