/**
Reading orders through the cache while orders are being placed. Unlike the user
service, nothing ever deletes a cached order, so an order read while it was
pending can be served as pending for good. A read that misses fetches the
record in a later step, and stores it in the cache in a still later one.
*/
module OrderReads {
  import opened Common
  import opened Platform
  import Saga = OrderSaga

  /** `looks` holds the ids of reads that have missed and not fetched yet, `fills`
      the records fetched and not stored yet. */
  datatype World = World(
    saga: Saga.World, cache: map<string, Saga.Order>, looks: multiset<string>, fills: multiset<Saga.Order>)

  /** `evicted` is a forced cache miss. */
  datatype Event =
    | Place(step: Saga.Event)
    | Read(id: string, evicted: bool)
    | Fetch(id: string)
    | Store(order: Saga.Order)

  predicate Misses(w: World, e: Event) {
    e.Read? && (e.evicted || e.id !in w.cache)
  }

  predicate Legal(w: World, e: Event) {
    match e
    case Place(s) => Saga.Legal(w.saga, s)
    case Read(_, _) => true
    case Fetch(id) => id in w.looks
    case Store(o) => o in w.fills
  }

  function Next(w: World, e: Event): World
    requires Legal(w, e)
  {
    match e
    case Place(s) => w.(saga := Saga.Next(w.saga, s))
    case Read(id, _) => if Misses(w, e) then w.(looks := w.looks + multiset{id}) else w
    case Fetch(id) =>
      w.(looks := w.looks - multiset{id},
         fills := if id in w.saga.orders then w.fills + multiset{w.saga.orders[id]} else w.fills)
    case Store(o) => w.(fills := w.fills - multiset{o}, cache := w.cache[o.id := o])
  }

  predicate LegalRun(w: World, es: seq<Event>)
    decreases |es|
  {
    es == [] || (Legal(w, es[0]) && LegalRun(Next(w, es[0]), es[1..]))
  }

  function Run(w: World, es: seq<Event>): World
    requires LegalRun(w, es)
    decreases |es|
  {
    if es == [] then w else Run(Next(w, es[0]), es[1..])
  }

  /** What a fetch of an id brings bears that id. */
  predicate RecordsBearTheirIds(w: World) {
    forall id :: id in w.saga.orders ==> w.saga.orders[id].id == id
  }

  /** A copy of an order is its record, or its record before it was settled. */
  predicate GoodCopy(w: World, o: Saga.Order) {
    o.id in w.saga.orders && (w.saga.orders[o.id] == o || Saga.SettledFrom(w.saga.orders[o.id], o))
  }

  ghost predicate Inv(w: World) {
    && Saga.Inv(w.saga)
    && RecordsBearTheirIds(w)
    && (forall o :: o in w.fills ==> GoodCopy(w, o))
    && (forall id :: id in w.cache ==> w.cache[id].id == id && GoodCopy(w, w.cache[id]))
  }

  lemma CopiesStayGood(w: World, s: Saga.Event, o: Saga.Order)
    requires Inv(w) && Saga.Legal(w.saga, s) && GoodCopy(w, o)
    ensures GoodCopy(Next(w, Place(s)), o)
  {
    Saga.StepOnlySettles(w.saga, s, o.id);
  }

  lemma RecordsKeepTheirIds(w: Saga.World, s: Saga.Event)
    requires Saga.Inv(w) && Saga.Legal(w, s)
    requires forall id :: id in w.orders ==> w.orders[id].id == id
    ensures forall id :: id in Saga.Next(w, s).orders ==> Saga.Next(w, s).orders[id].id == id
  {
  }

  lemma NextKeepsInv(w: World, e: Event)
    requires Inv(w) && Legal(w, e)
    ensures Inv(Next(w, e))
  {
    if e.Place? {
      Saga.NextKeepsInv(w.saga, e.step);
      RecordsKeepTheirIds(w.saga, e.step);
      forall o | o in w.fills ensures GoodCopy(Next(w, e), o) { CopiesStayGood(w, e.step, o); }
      forall id | id in w.cache ensures GoodCopy(Next(w, e), w.cache[id]) { CopiesStayGood(w, e.step, w.cache[id]); }
    }
  }

  lemma {:induction false} RunKeepsInv(w: World, es: seq<Event>)
    requires Inv(w) && LegalRun(w, es)
    ensures Inv(Run(w, es))
    decreases |es|
  {
    if es != [] {
      NextKeepsInv(w, es[0]);
      RunKeepsInv(Next(w, es[0]), es[1..]);
    }
  }

  ghost predicate Initial(w: World) {
    && Saga.Initial(w.saga) && w.cache == map[] && w.looks == multiset{} && w.fills == multiset{}
    && RecordsBearTheirIds(w)
  }

  predicate Stale(w: World, id: string) {
    id in w.cache && id in w.saga.orders && w.cache[id] != w.saga.orders[id]
  }

  /** Over every interleaving of placing and reading orders: a cached order is
      out of date if and only if it says pending and its record no longer does.
      In everything else it always agrees with the record. */
  lemma OnlyThePendingGoStale(w0: World, es: seq<Event>, id: string)
    requires Initial(w0) && LegalRun(w0, es) && id in Run(w0, es).cache
    ensures var w := Run(w0, es);
      && id in w.saga.orders
      && (Stale(w, id) <==> w.cache[id].status == Saga.Pending && w.saga.orders[id].status != Saga.Pending)
      && w.cache[id].(status := Saga.Pending) == w.saga.orders[id].(status := Saga.Pending)
  {
    Saga.InitialIsGood(w0.saga);
    RunKeepsInv(w0, es);
  }

  /** No fill of this order is on its way, nor a read that has already missed. */
  predicate NoFill(w: World, id: string) {
    id !in w.looks && forall o :: o in w.fills ==> o.id != id
  }

  /** And a stale order stays stale: over any run in which no read of it is forced
      to miss, every read is answered with the same outdated copy. */
  lemma {:induction false} StaleOrdersStayStale(w: World, es: seq<Event>, id: string)
    requires Inv(w) && LegalRun(w, es) && Stale(w, id) && NoFill(w, id)
    requires forall i :: 0 <= i < |es| ==> !(es[i].Read? && es[i].id == id && es[i].evicted)
    ensures Stale(Run(w, es), id) && Run(w, es).cache[id] == w.cache[id]
    decreases |es|
  {
    if es != [] {
      NextKeepsInv(w, es[0]);
      StaleStep(w, es[0], id);
      StaleOrdersStayStale(Next(w, es[0]), es[1..], id);
    }
  }

  lemma StaleStep(w: World, e: Event, id: string)
    requires Inv(w) && Legal(w, e) && Stale(w, id) && NoFill(w, id)
    requires !(e.Read? && e.id == id && e.evicted)
    ensures Stale(Next(w, e), id) && NoFill(Next(w, e), id) && Next(w, e).cache[id] == w.cache[id]
  {
    if e.Place? { StaleThroughPlacing(w, e.step, id); } else { NoStoreOf(w, e, id); }
  }

  /** Whatever becomes of the record, it does not go back to the stale copy. */
  lemma StaleThroughPlacing(w: World, s: Saga.Event, id: string)
    requires Inv(w) && Saga.Legal(w.saga, s) && Stale(w, id)
    ensures Stale(Next(w, Place(s)), id)
  {
    assert GoodCopy(w, w.cache[id]);
    Saga.StepOnlySettles(w.saga, s, id);
  }

  lemma NoStoreOf(w: World, e: Event, id: string)
    requires Legal(w, e) && !e.Place? && id in w.cache && NoFill(w, id) && RecordsBearTheirIds(w)
    requires !(e.Read? && e.id == id && e.evicted)
    ensures NoFill(Next(w, e), id) && id in Next(w, e).cache && Next(w, e).cache[id] == w.cache[id]
  {
  }

  /** Only a read that misses repairs it: its fetch and store bring the record. */
  lemma FetchRepairs(w: World, id: string)
    requires Inv(w) && id in w.saga.orders && id in w.looks
    ensures var o := w.saga.orders[id];
      var w' := Next(w, Fetch(id));
      Legal(w', Store(o)) && !Stale(Next(w', Store(o)), id) && id in Next(w', Store(o)).cache
  {
  }

  /** A forced miss is such a read. */
  lemma ForcedMissRepairs(w: World, id: string)
    requires Inv(w) && id in w.saga.orders
    ensures var o := w.saga.orders[id];
      var w1 := Next(w, Read(id, true));
      && Legal(w1, Fetch(id))
      && var w2 := Next(w1, Fetch(id));
      && Legal(w2, Store(o)) && !Stale(Next(w2, Store(o)), id) && id in Next(w2, Store(o)).cache
  {
    NextKeepsInv(w, Read(id, true));
    FetchRepairs(Next(w, Read(id, true)), id);
  }

  // ---------- pending steps ----------

  /** How many steps of a kind a run has. */
  function Steps(es: seq<Event>, kind: Event -> bool): nat {
    if es == [] then 0 else (if kind(es[0]) then 1 else 0) + Steps(es[1..], kind)
  }

  /** Every read that misses fetches at most once, and every record fetched is stored
      at most once. */
  lemma {:induction false} PendingStepsBalance(w: World, es: seq<Event>)
    requires LegalRun(w, es)
    ensures |Run(w, es).looks| + Steps(es, (e: Event) => e.Fetch?) <= |w.looks| + Steps(es, (e: Event) => e.Read?)
    ensures |Run(w, es).fills| + Steps(es, (e: Event) => e.Store?) <= |w.fills| + Steps(es, (e: Event) => e.Fetch?)
    decreases |es|
  {
    if es != [] { PendingStepsBalance(Next(w, es[0]), es[1..]); }
  }

  // ---------- why a cached order is stale ----------

  /** The step settles the order. */
  predicate Settles(w: World, e: Event, id: string) {
    e.Place? && e.step.Settle? && e.step.rid in w.saga.requests && w.saga.requests[e.step.rid].order.id == id
  }

  predicate SettledIn(w: World, es: seq<Event>, id: string) {
    exists i :: 0 <= i < |es| && Settles(w, es[i], id)
  }

  lemma StepChangesRecordIffSettles(w: World, e: Event, id: string)
    requires Inv(w) && Legal(w, e) && id in w.saga.orders
    ensures var w' := Next(w, e);
      && id in w'.saga.orders
      && (w'.saga.orders[id] != w.saga.orders[id] <==> Settles(w, e, id))
      && (Settles(w, e, id) ==> w.saga.orders[id].status == Saga.Pending && w'.saga.orders[id].status != Saga.Pending)
      && forall e': Event :: Settles(w', e', id) <==> Settles(w, e', id)
  {
    if e.Place? {
      assert Saga.GoodRequest(w.saga, e.step.rid);
      RequestsKeepTheirOrders(w.saga, e.step);
    }
  }

  lemma RequestsKeepTheirOrders(w: Saga.World, s: Saga.Event)
    requires Saga.Legal(w, s)
    ensures Saga.Next(w, s).requests.Keys == w.requests.Keys
    ensures forall rid :: rid in w.requests ==> Saga.Next(w, s).requests[rid].order.id == w.requests[rid].order.id
  {
  }

  /** Over a run a record changes if and only if the run settles the order. */
  lemma {:induction false} RecordChangesIffSettled(w: World, es: seq<Event>, id: string)
    requires Inv(w) && LegalRun(w, es) && id in w.saga.orders
    ensures var w' := Run(w, es);
      && id in w'.saga.orders
      && (w'.saga.orders[id] != w.saga.orders[id] <==> SettledIn(w, es, id))
      && (w.saga.orders[id].status != Saga.Pending ==> w'.saga.orders[id] == w.saga.orders[id])
      && forall e': Event :: Settles(w', e', id) <==> Settles(w, e', id)
    decreases |es|
  {
    if es != [] {
      var w1 := Next(w, es[0]);
      NextKeepsInv(w, es[0]);
      StepChangesRecordIffSettles(w, es[0], id);
      RecordChangesIffSettled(w1, es[1..], id);
      SettledInHeadOrTail(w, w1, es, id);
    }
  }

  lemma SettledInHeadOrTail(w: World, w1: World, es: seq<Event>, id: string)
    requires es != [] && forall e: Event :: Settles(w1, e, id) <==> Settles(w, e, id)
    ensures SettledIn(w, es, id) <==> Settles(w, es[0], id) || SettledIn(w1, es[1..], id)
  {
    if i :| 0 <= i < |es| && Settles(w, es[i], id) {
      if i > 0 { assert Settles(w1, es[1..][i - 1], id); }
    }
    if i :| 0 <= i < |es[1..]| && Settles(w1, es[1..][i], id) { assert Settles(w, es[i + 1], id); }
  }

  predicate StoresNo(es: seq<Event>, id: string) {
    forall i :: 0 <= i < |es| ==> !(es[i].Store? && es[i].order.id == id)
  }

  lemma {:induction false} CachedCopyStays(w: World, es: seq<Event>, id: string)
    requires LegalRun(w, es) && id in w.cache && StoresNo(es, id)
    ensures id in Run(w, es).cache && Run(w, es).cache[id] == w.cache[id]
    decreases |es|
  {
    if es != [] { CachedCopyStays(Next(w, es[0]), es[1..], id); }
  }

  /** Follow one cached copy: its record is fetched, `gap` happens, it is stored,
      and `after` happens without another store of it. In the end it is stale if
      and only if the order was settled since it was fetched, in the gap or after
      the store. */
  lemma StaleIffSettledSinceTheFetch(w: World, id: string, gap: seq<Event>, after: seq<Event>)
    requires Inv(w) && id in w.looks && id in w.saga.orders && LegalRun(Next(w, Fetch(id)), gap)
    requires var w1 := Run(Next(w, Fetch(id)), gap);
      Legal(w1, Store(w.saga.orders[id])) && LegalRun(Next(w1, Store(w.saga.orders[id])), after)
    requires StoresNo(after, id)
    ensures var w1 := Run(Next(w, Fetch(id)), gap);
      var end := Run(Next(w1, Store(w.saga.orders[id])), after);
      id in end.cache && (Stale(end, id) <==> SettledIn(w, gap, id) || SettledIn(w, after, id))
  {
    var o, fetched := w.saga.orders[id], Next(w, Fetch(id));
    assert o.id == id;
    NextKeepsInv(w, Fetch(id));
    RunKeepsInv(fetched, gap);
    RecordChangesIffSettled(fetched, gap, id);
    var w1 := Run(fetched, gap);
    NextKeepsInv(w1, Store(o));
    var w2 := Next(w1, Store(o));
    RecordChangesIffSettled(w2, after, id);
    CachedCopyStays(w2, after, id);
    SettlesAlike(w, fetched, gap, id);
    SettlesAlike(w, w2, after, id);
    SettledLeavesPending(fetched, gap, id);
  }

  lemma SettlesAlike(w: World, w': World, es: seq<Event>, id: string)
    requires forall e: Event :: Settles(w', e, id) <==> Settles(w, e, id)
    ensures SettledIn(w', es, id) <==> SettledIn(w, es, id)
  {
  }

  /** A record that has changed was pending and is no longer. */
  lemma {:induction false} SettledLeavesPending(w: World, es: seq<Event>, id: string)
    requires Inv(w) && LegalRun(w, es) && id in w.saga.orders
    ensures id in Run(w, es).saga.orders
    ensures Run(w, es).saga.orders[id] != w.saga.orders[id] ==>
      w.saga.orders[id].status == Saga.Pending && Run(w, es).saga.orders[id].status != Saga.Pending
    decreases |es|
  {
    if es != [] {
      NextKeepsInv(w, es[0]);
      StepChangesRecordIffSettles(w, es[0], id);
      SettledLeavesPending(Next(w, es[0]), es[1..], id);
    }
  }

  /** Between being placed and being settled. */
  predicate UnderWay(s: Saga.Stage) { s.Paying? || s.Awaiting? || s.Settling? }

  /** How many steps a request under way is from being settled, at most. */
  function StepsLeft(s: Saga.Stage): nat {
    match s
    case Paying(k) => if k <= Saga.MAX_RETRIES then 2 * (Saga.MAX_RETRIES + 1 - k) else 1
    case Awaiting(k, _) => if k <= Saga.MAX_RETRIES then 2 * (Saga.MAX_RETRIES + 1 - k) + 1 else 1
    case _ => 0
  }

  /** The attempt fails, on the way there or on the way back. */
  function FailedAttempt(s: Saga.Stage, rid: nat): Saga.Event {
    if s.Paying? then Saga.LoseRequest(rid) else Saga.Reply(rid, false)
  }

  lemma FailingAdvances(w: Saga.World, rid: nat)
    requires rid in w.requests && Saga.GoodRequest(w, rid)
    requires w.requests[rid].stage.Paying? || w.requests[rid].stage.Awaiting?
    ensures var e := FailedAttempt(w.requests[rid].stage, rid);
      && Saga.Legal(w, e) && rid in Saga.Next(w, e).requests
      && UnderWay(Saga.Next(w, e).requests[rid].stage)
      && StepsLeft(Saga.Next(w, e).requests[rid].stage) < StepsLeft(w.requests[rid].stage)
      && Saga.Next(w, e).requests[rid].order == w.requests[rid].order
  {
  }

  /** A request under way can always be settled: at worst every further attempt is
      lost. */
  lemma CanSettle(w: World, rid: nat) returns (es: seq<Event>)
    requires Inv(w) && rid in w.saga.requests && UnderWay(w.saga.requests[rid].stage)
    ensures LegalRun(w, es) && SettledIn(w, es, w.saga.requests[rid].order.id)
    ensures forall i :: 0 <= i < |es| ==> es[i].Place?
    decreases StepsLeft(w.saga.requests[rid].stage)
  {
    assert Saga.GoodRequest(w.saga, rid);
    if w.saga.requests[rid].stage.Settling? {
      es := [Place(Saga.Settle(rid))];
      assert es[1..] == [] && Settles(w, es[0], w.saga.requests[rid].order.id);
    } else {
      FailingAdvances(w.saga, rid);
      var e := Place(FailedAttempt(w.saga.requests[rid].stage, rid));
      NextKeepsInv(w, e);
      var rest := CanSettle(Next(w, e), rid);
      es := [e] + rest;
      SettledLater(w, e, rest, w.saga.requests[rid].order.id);
    }
  }

  lemma SettledLater(w: World, e: Event, rest: seq<Event>, id: string)
    requires Inv(w) && Legal(w, e) && id in w.saga.orders
    requires LegalRun(Next(w, e), rest) && SettledIn(Next(w, e), rest, id)
    ensures LegalRun(w, [e] + rest) && SettledIn(w, [e] + rest, id)
  {
    assert ([e] + rest)[1..] == rest;
    StepChangesRecordIffSettles(w, e, id);
    SettledInHeadOrTail(w, Next(w, e), [e] + rest, id);
  }

  /** The record a read finds that misses now, fetches at once and stores at once. */
  lemma FillsAtOnce(w: World, id: string)
    requires Inv(w) && id in w.saga.orders && id !in w.cache
    ensures var o := w.saga.orders[id];
      && Misses(w, Read(id, false))
      && var w1 := Next(w, Read(id, false));
      && Legal(w1, Fetch(id))
      && var w2 := Next(w1, Fetch(id));
      && Legal(w2, Store(o))
      && var w3 := Next(w2, Store(o));
      && Inv(w3) && w3.saga == w.saga && id in w3.cache && w3.cache[id] == o
  {
    NextKeepsInv(w, Read(id, false));
    NextKeepsInv(Next(w, Read(id, false)), Fetch(id));
    NextKeepsInv(Next(Next(w, Read(id, false)), Fetch(id)), Store(w.saga.orders[id]));
  }

  /** The staleness is reachable from everywhere: an order that is first read while
      it is under way can be stored at once, and goes stale when it is settled. */
  lemma ReadWhilePayingGoesStale(w: World, rid: nat) returns (es: seq<Event>)
    requires Inv(w) && rid in w.saga.requests && UnderWay(w.saga.requests[rid].stage)
    requires w.saga.requests[rid].order.id !in w.cache
    ensures var o := w.saga.requests[rid].order;
      && Legal(Next(w, Read(o.id, false)), Fetch(o.id))
      && var w2 := Next(Next(w, Read(o.id, false)), Fetch(o.id));
      && Legal(w2, Store(o))
      && var w3 := Next(w2, Store(o));
      && !Stale(w3, o.id)
      && LegalRun(w3, es) && Stale(Run(w3, es), o.id)
  {
    var o := w.saga.requests[rid].order;
    assert Saga.GoodRequest(w.saga, rid);
    FillsAtOnce(w, o.id);
    var w3 := Next(Next(Next(w, Read(o.id, false)), Fetch(o.id)), Store(o));
    es := CanSettle(w3, rid);
    RecordChangesIffSettled(w3, es, o.id);
    CachedCopyStays(w3, es, o.id);
  }

  // ---------- the handler ----------

  function Key(id: string): string { "order:" + id }

  lemma KeyInjective(a: string, b: string)
    requires Key(a) == Key(b)
    ensures a == b
  {
    assert a == Key(a)[6..] && b == Key(b)[6..];
  }

  /** The store holds the cache of the machine, under its keys. */
  ghost predicate Shows(store: map<string, Saga.Order>, w: World) {
    forall id :: (Key(id) in store <==> id in w.cache) && (id in w.cache ==> store[Key(id)] == w.cache[id])
  }

  class OrderReader {
    const db: DB<Saga.Order>
    const cache: Cache<Saga.Order>

    constructor (db: DB<Saga.Order>)
      ensures this.db == db && fresh(cache) && cache.store == map[]
    {
      this.db := db;
      cache := new Cache<Saga.Order>();
    }

    /** Undisturbed, the handler is a read and, if it misses, the fetch and the
        store of what it fetched; it answers with what the cache then holds. */
    method GetOrder(id: string, evicted: bool, ghost w: World) returns (reply: Option<Saga.Order>, ghost w': World)
      requires Inv(w) && w.saga.orders == TableOf(db.data, "orders") && Shows(cache.store, w)
      modifies cache
      ensures w' == AfterGet(w, id, evicted)
      ensures Shows(cache.store, w')
      ensures reply == if id in w'.cache then Some(w'.cache[id]) else None
    {
      w' := AfterGet(w, id, evicted);
      var hit := cache.Get(Key(id), evicted);
      if hit.Some? { return hit, w'; }
      var order := db.Get("orders", id);
      if order == None { return None, w'; }
      cache.Set(Key(id), order.value);
      StoreShows(old(cache.store), w, order.value, w');
      return order, w';
    }
  }

  /** What one undisturbed read comes to. */
  function AfterGet(w: World, id: string, evicted: bool): World {
    var w1 := Next(w, Read(id, evicted));
    if !Misses(w, Read(id, evicted)) then w1
    else
      var w2 := Next(w1, Fetch(id));
      if id in w.saga.orders then Next(w2, Store(w.saga.orders[id])) else w2
  }

  lemma StoreShows(store: map<string, Saga.Order>, w: World, o: Saga.Order, w': World)
    requires Shows(store, w) && w'.cache == w.cache[o.id := o]
    ensures Shows(store[Key(o.id) := o], w')
  {
    var store' := store[Key(o.id) := o];
    forall id
      ensures (Key(id) in store' <==> id in w'.cache) && (id in w'.cache ==> store'[Key(id)] == w'.cache[id])
    {
      KeysDiffer(id, o.id);
    }
  }

  lemma KeysDiffer(a: string, b: string)
    ensures Key(a) == Key(b) <==> a == b
  {
    if Key(a) == Key(b) { KeyInjective(a, b); }
  }
}
