/**
Placing an order: the order service stores a pending order, asks the payment
service up to three times, then confirms the order and announces it or marks it
failed. Any number of requests run interleaved; requests to the payment service
and its replies may be lost, its own records may fail to be stored, and an
attempt that the order service has given up on may still be processed later.
*/
module OrderSaga {
  import opened Platform

  const MAX_RETRIES: nat := 3

  /** Only orders the service is seeded with are Completed. */
  datatype Status = Pending | Confirmed | PaymentFailed | Completed

  datatype Order = Order(id: string, userID: string, total: real, status: Status)

  datatype Payment = Payment(orderID: string, amount: real, completed: bool)

  /** Where a request stands. Attempts are numbered from 1; after Process the
      payment service has decided and its reply is on the way. */
  datatype Stage =
    | Placing
    | Paying(attempt: nat)
    | Awaiting(attempt: nat, completed: bool)
    | Settling(paid: bool)
    | Announcing
    | Done(confirmed: bool)

  /** `orphans` counts the attempts given up on that the payment service may still
      process, `lost` the completed payments whose reply was not heard, `unstored`
      those whose record was not stored. None is known to the program. */
  datatype Request = Request(order: Order, stage: Stage, orphans: nat, lost: nat, unstored: nat)

  datatype World = World(
    requests: map<nat, Request>,
    orders: map<string, Order>,
    payments: map<string, Payment>,
    events: seq<Order>)

  datatype Event =
    | Place(rid: nat)
    | LoseRequest(rid: nat)
    | GiveUp(rid: nat)
    | ProcessLate(rid: nat, paymentID: string, completed: bool, stored: bool)
    | Process(rid: nat, paymentID: string, completed: bool, stored: bool)
    | Reply(rid: nat, delivered: bool)
    | Settle(rid: nat)
    | Announce(rid: nat)

  predicate Legal(w: World, e: Event) {
    && e.rid in w.requests
    && var s := w.requests[e.rid].stage;
       match e
       case Place(_) => s.Placing?
       case LoseRequest(_) => s.Paying?
       case GiveUp(_) => s.Paying?
       case ProcessLate(_, pid, _, _) => w.requests[e.rid].orphans > 0 && pid !in w.payments
       case Process(_, pid, _, _) => s.Paying? && pid !in w.payments
       case Reply(_, _) => s.Awaiting?
       case Settle(_) => s.Settling?
       case Announce(_) => s.Announcing?
  }

  /** After a failed attempt: another one, or give up. */
  function Retry(attempt: nat): Stage {
    if attempt < MAX_RETRIES then Paying(attempt + 1) else Settling(false)
  }

  function Next(w: World, e: Event): World
    requires Legal(w, e)
  {
    var r := w.requests[e.rid];
    match e
    case Place(rid) =>
      w.(orders := w.orders[r.order.id := r.order],
         requests := w.requests[rid := r.(stage := Paying(1))])
    case LoseRequest(rid) =>
      w.(requests := w.requests[rid := r.(stage := Retry(r.stage.attempt))])
    case GiveUp(rid) =>
      w.(requests := w.requests[rid := r.(stage := Retry(r.stage.attempt), orphans := r.orphans + 1)])
    case ProcessLate(rid, pid, completed, stored) =>
      w.(payments := if stored then w.payments[pid := Payment(r.order.id, r.order.total, completed)] else w.payments,
         requests := w.requests[rid := r.(orphans := r.orphans - 1,
                                          lost := r.lost + (if completed then 1 else 0),
                                          unstored := r.unstored + (if completed && !stored then 1 else 0))])
    case Process(rid, pid, completed, stored) =>
      w.(payments := if stored then w.payments[pid := Payment(r.order.id, r.order.total, completed)] else w.payments,
         requests := w.requests[rid := r.(stage := Awaiting(r.stage.attempt, completed),
                                          unstored := r.unstored + (if completed && !stored then 1 else 0))])
    case Reply(rid, delivered) =>
      var lost := r.stage.completed && !delivered;
      w.(requests := w.requests[rid := r.(
           stage := if r.stage.completed && delivered then Settling(true) else Retry(r.stage.attempt),
           lost := r.lost + (if lost then 1 else 0))])
    case Settle(rid) =>
      var order := r.order.(status := if r.stage.paid then Confirmed else PaymentFailed);
      w.(orders := if order.id in w.orders then w.orders[order.id := order] else w.orders,
         requests := w.requests[rid := r.(order := order, stage := if r.stage.paid then Announcing else Done(false))])
    case Announce(rid) =>
      w.(events := w.events + [r.order], requests := w.requests[rid := r.(stage := Done(true))])
  }

  predicate LegalRun(w: World, es: seq<Event>)
    decreases |es|
  {
    es == [] || (Legal(w, es[0]) && LegalRun(Next(w, es[0]), es[1..]))
  }

  function Run(w: World, es: seq<Event>): World
    requires LegalRun(w, es)
    decreases |es|
  {
    if es == [] then w else Run(Next(w, es[0]), es[1..])
  }

  lemma {:induction false} RunExtends(w: World, es: seq<Event>, e: Event)
    requires LegalRun(w, es) && Legal(Run(w, es), e)
    ensures LegalRun(w, es + [e]) && Run(w, es + [e]) == Next(Run(w, es), e)
    decreases |es|
  {
    if es == [] {
      assert [e][1..] == [];
      assert es + [e] == [e];
    } else {
      assert (es + [e])[1..] == es[1..] + [e];
      RunExtends(Next(w, es[0]), es[1..], e);
    }
  }

  // ---------- the invariant ----------

  function CompletedPayments(payments: map<string, Payment>, orderID: string): set<string> {
    set pid | pid in payments && payments[pid].orderID == orderID && payments[pid].completed
  }

  /** Payments the service took for this request that it has accepted, or is
      about to hear of. */
  function Accepted(s: Stage): nat {
    match s
    case Awaiting(_, completed) => if completed then 1 else 0
    case Settling(paid) => if paid then 1 else 0
    case Announcing => 1
    case Done(confirmed) => if confirmed then 1 else 0
    case _ => 0
  }

  function StoredStatus(s: Stage): Status {
    match s
    case Announcing => Confirmed
    case Done(confirmed) => if confirmed then Confirmed else PaymentFailed
    case _ => Pending
  }

  predicate GoodRequest(w: World, rid: nat)
    requires rid in w.requests
  {
    var r := w.requests[rid];
    var s := r.stage;
    && r.order.status == StoredStatus(s)
    && (s.Placing? <==> r.order.id !in w.orders)
    && (!s.Placing? ==> w.orders[r.order.id] == r.order)
    && (s.Paying? || s.Awaiting? ==> 1 <= s.attempt <= MAX_RETRIES)
    && |CompletedPayments(w.payments, r.order.id)| + r.unstored == r.lost + Accepted(s)
    && (r.order in w.events <==> s == Done(true))
  }

  ghost predicate DistinctOrders(w: World) {
    forall a, b :: a in w.requests && b in w.requests && a != b ==>
      w.requests[a].order.id != w.requests[b].order.id
  }

  ghost predicate Inv(w: World) {
    && DistinctOrders(w)
    && (forall rid :: rid in w.requests ==> GoodRequest(w, rid))
    && (forall o :: o in w.events ==> o.id in w.orders && w.orders[o.id] == o && o.status == Confirmed)
    && (forall i, j :: 0 <= i < j < |w.events| ==> w.events[i].id != w.events[j].id)
  }

  lemma PaymentCounts(payments: map<string, Payment>, pid: string, p: Payment, orderID: string)
    requires pid !in payments
    ensures |CompletedPayments(payments[pid := p], orderID)| ==
            |CompletedPayments(payments, orderID)| + (if p.completed && p.orderID == orderID then 1 else 0)
  {
    var before, after := CompletedPayments(payments, orderID), CompletedPayments(payments[pid := p], orderID);
    if p.completed && p.orderID == orderID {
      assert after == before + {pid};
    } else {
      assert after == before;
    }
  }

  /** A step concerns one request only. */
  lemma OtherRequestsStayGood(w: World, e: Event, rid: nat)
    requires Inv(w) && Legal(w, e) && rid in w.requests && rid != e.rid
    ensures rid in Next(w, e).requests && GoodRequest(Next(w, e), rid)
  {
    assert GoodRequest(w, rid) && GoodRequest(w, e.rid);
    if (e.Process? || e.ProcessLate?) && e.stored {
      var o := w.requests[e.rid].order;
      PaymentCounts(w.payments, e.paymentID, Payment(o.id, o.total, e.completed), w.requests[rid].order.id);
    }
  }

  lemma OwnRequestStaysGood(w: World, e: Event)
    requires Inv(w) && Legal(w, e)
    ensures e.rid in Next(w, e).requests && GoodRequest(Next(w, e), e.rid)
  {
    assert GoodRequest(w, e.rid);
    if (e.Process? || e.ProcessLate?) && e.stored {
      var o := w.requests[e.rid].order;
      PaymentCounts(w.payments, e.paymentID, Payment(o.id, o.total, e.completed), o.id);
    }
  }

  lemma OrdersStayDistinct(w: World, e: Event)
    requires DistinctOrders(w) && Legal(w, e)
    ensures DistinctOrders(Next(w, e)) && Next(w, e).requests.Keys == w.requests.Keys
  {
  }

  lemma EventsStayGood(w: World, e: Event)
    requires Inv(w) && Legal(w, e)
    ensures var w' := Next(w, e);
      && (forall o :: o in w'.events ==> o.id in w'.orders && w'.orders[o.id] == o && o.status == Confirmed)
      && (forall i, j :: 0 <= i < j < |w'.events| ==> w'.events[i].id != w'.events[j].id)
  {
    assert GoodRequest(w, e.rid);
    if e.Announce? {
      var o := w.requests[e.rid].order;
      forall k | 0 <= k < |w.events| ensures w.events[k].id != o.id { assert w.events[k] in w.events; }
    }
  }

  lemma NextKeepsInv(w: World, e: Event)
    requires Inv(w) && Legal(w, e)
    ensures Inv(Next(w, e))
  {
    EventsStayGood(w, e);
    OwnRequestStaysGood(w, e);
    OrdersStayDistinct(w, e);
    forall rid | rid in w.requests && rid != e.rid ensures GoodRequest(Next(w, e), rid) {
      OtherRequestsStayGood(w, e, rid);
    }
  }

  lemma {:induction false} RunKeepsInv(w: World, es: seq<Event>)
    requires Inv(w) && LegalRun(w, es)
    ensures Inv(Run(w, es))
    ensures Run(w, es).requests.Keys == w.requests.Keys
    decreases |es|
  {
    if es != [] {
      NextKeepsInv(w, es[0]);
      RunKeepsInv(Next(w, es[0]), es[1..]);
    }
  }

  /** Requests about to be made, for distinct orders that nothing knows yet. */
  ghost predicate Initial(w: World) {
    && DistinctOrders(w)
    && w.events == []
    && forall rid :: rid in w.requests ==>
         var r := w.requests[rid];
         && r.stage == Placing && r.order.status == Pending && r.orphans == 0 && r.lost == 0 && r.unstored == 0
         && r.order.id !in w.orders
         && forall pid :: pid in w.payments ==> w.payments[pid].orderID != r.order.id
  }

  lemma InitialIsGood(w: World)
    requires Initial(w)
    ensures Inv(w)
  {
    forall rid | rid in w.requests ensures GoodRequest(w, rid) {
      assert CompletedPayments(w.payments, w.requests[rid].order.id) == {};
    }
  }

  // ---------- what every run keeps ----------

  /** The record was settled and nothing else of it changed. */
  predicate SettledFrom(o': Order, o: Order) {
    o.status == Pending && (o' == o.(status := Confirmed) || o' == o.(status := PaymentFailed))
  }

  lemma StepOnlySettles(w: World, e: Event, id: string)
    requires Inv(w) && Legal(w, e) && id in w.orders
    ensures id in Next(w, e).orders
    ensures Next(w, e).orders[id] == w.orders[id] || SettledFrom(Next(w, e).orders[id], w.orders[id])
  {
    assert GoodRequest(w, e.rid);
  }

  /** In every interleaving and whatever is lost: a record's status only moves
      from pending to confirmed or failed and nothing else of it changes, and
      the update that settles a request finds its record. */
  lemma OrdersOnlySettle(w0: World, es: seq<Event>, e: Event, id: string)
    requires Initial(w0) && LegalRun(w0, es) && Legal(Run(w0, es), e)
    ensures var w := Run(w0, es);
      && (id in w.orders ==>
            id in Next(w, e).orders &&
            (Next(w, e).orders[id] == w.orders[id] || SettledFrom(Next(w, e).orders[id], w.orders[id])))
      && (e.Settle? ==> w.requests[e.rid].order.id in w.orders)
  {
    InitialIsGood(w0);
    RunKeepsInv(w0, es);
    SettleFindsItsRecord(Run(w0, es), e);
    if id in Run(w0, es).orders { StepOnlySettles(Run(w0, es), e, id); }
  }

  lemma SettleFindsItsRecord(w: World, e: Event)
    requires Inv(w) && Legal(w, e)
    ensures e.Settle? ==> w.requests[e.rid].order.id in w.orders
  {
    assert GoodRequest(w, e.rid);
  }

  /** In every interleaving and whatever is lost: each order.created event equals
      the confirmed record in the database, no order has two, and exactly the
      requests that finished as confirmed have one. */
  lemma EventsAnnounceConfirmedOrders(w0: World, es: seq<Event>, rid: nat)
    requires Initial(w0) && LegalRun(w0, es) && rid in w0.requests
    ensures var w := Run(w0, es);
      && (forall o :: o in w.events ==> o.id in w.orders && w.orders[o.id] == o && o.status == Confirmed)
      && (forall i, j :: 0 <= i < j < |w.events| ==> w.events[i].id != w.events[j].id)
      && rid in w.requests
      && (w.requests[rid].order in w.events <==> w.requests[rid].stage == Done(true))
  {
    InitialIsGood(w0);
    RunKeepsInv(w0, es);
    assert GoodRequest(Run(w0, es), rid);
  }

  // ---------- payments ----------

  /** The completed payments of a request that the step makes. */
  predicate Charges(e: Event, rid: nat) {
    (e.Process? || e.ProcessLate?) && e.rid == rid && e.completed
  }

  /** The step leaves a completed payment of the request unheard: its reply is
      lost, or the attempt was given up on before it was processed. */
  predicate GoesUnheard(w: World, e: Event, rid: nat)
    requires Legal(w, e)
  {
    e.rid == rid && ((e.Reply? && !e.delivered && w.requests[rid].stage.completed) || (e.ProcessLate? && e.completed))
  }

  /** How many steps of a run do. */
  function Unheard(w: World, es: seq<Event>, rid: nat): nat
    requires LegalRun(w, es)
    decreases |es|
  {
    if es == [] then 0 else (if GoesUnheard(w, es[0], rid) then 1 else 0) + Unheard(Next(w, es[0]), es[1..], rid)
  }

  /** The completed payments of a request in a run. */
  function ChargesIn(es: seq<Event>, rid: nat): nat {
    if es == [] then 0 else (if Charges(es[0], rid) then 1 else 0) + ChargesIn(es[1..], rid)
  }

  /** The completed payments of a request whose record a run did not store. */
  function UnstoredIn(es: seq<Event>, rid: nat): nat {
    if es == [] then 0
    else (if Charges(es[0], rid) && !es[0].stored then 1 else 0) + UnstoredIn(es[1..], rid)
  }

  lemma StepCounts(w: World, e: Event, rid: nat)
    requires Legal(w, e) && rid in w.requests
    ensures rid in Next(w, e).requests
    ensures var r, r' := w.requests[rid], Next(w, e).requests[rid];
      && r'.order.id == r.order.id
      && r'.lost == r.lost + (if GoesUnheard(w, e, rid) then 1 else 0)
      && r'.unstored == r.unstored + (if Charges(e, rid) && !e.stored then 1 else 0)
      && r'.lost + Accepted(r'.stage) == r.lost + Accepted(r.stage) + (if Charges(e, rid) then 1 else 0)
  {
  }

  /** The two counters of a request are counts of the run's steps, and so is what
      has been charged. */
  lemma {:induction false} CountersAreCountsOfTheRun(w: World, es: seq<Event>, rid: nat)
    requires LegalRun(w, es) && rid in w.requests
    ensures rid in Run(w, es).requests
    ensures var r, r' := w.requests[rid], Run(w, es).requests[rid];
      && r'.order.id == r.order.id
      && r'.lost == r.lost + Unheard(w, es, rid)
      && r'.unstored == r.unstored + UnstoredIn(es, rid)
      && r'.lost + Accepted(r'.stage) == r.lost + Accepted(r.stage) + ChargesIn(es, rid)
    decreases |es|
  {
    if es != [] {
      StepCounts(w, es[0], rid);
      CountersAreCountsOfTheRun(Next(w, es[0]), es[1..], rid);
    }
  }

  /** Money is conserved. From the moment a request is done, the completed
      payments on record for its order are: one if it was confirmed, plus one for
      every completed payment the run left unheard, less those it did not store.
      So an order is charged exactly if it was confirmed, if and only if as many
      completed payments went unheard as were not stored. A reply that is lost,
      or an attempt processed after it was given up on, is otherwise a charge too
      many: a second one on a confirmed order, or one on a failed order. */
  lemma PaymentsBalance(w0: World, es: seq<Event>, rid: nat)
    requires Initial(w0) && LegalRun(w0, es) && rid in w0.requests
    requires rid in Run(w0, es).requests && Run(w0, es).requests[rid].stage.Done?
    ensures var w := Run(w0, es);
      var r := w.requests[rid];
      var charged, due := |CompletedPayments(w.payments, r.order.id)|, if r.stage.confirmed then 1 else 0;
      && r.order.id in w.orders
      && (w.orders[r.order.id].status == Confirmed <==> r.stage.confirmed)
      && (w.orders[r.order.id].status == PaymentFailed <==> !r.stage.confirmed)
      && charged + UnstoredIn(es, rid) == Unheard(w0, es, rid) + due
      && charged + UnstoredIn(es, rid) == ChargesIn(es, rid)
      && (charged == due <==> Unheard(w0, es, rid) == UnstoredIn(es, rid))
  {
    InitialIsGood(w0);
    RunKeepsInv(w0, es);
    CountersAreCountsOfTheRun(w0, es, rid);
    assert GoodRequest(Run(w0, es), rid);
  }

  /** The charge too many does happen: from every state in which an attempt is on its
      way, giving up on it and processing it late puts a completed payment on
      record that goes unheard. */
  lemma GivenUpAttemptMayStillCharge(w: World, rid: nat, pid: string)
    requires Inv(w) && rid in w.requests && w.requests[rid].stage.Paying? && pid !in w.payments
    ensures Legal(w, GiveUp(rid))
    ensures var w1, late := Next(w, GiveUp(rid)), ProcessLate(rid, pid, true, true);
      && Legal(w1, late) && GoesUnheard(w1, late, rid)
      && var id := w.requests[rid].order.id;
      |CompletedPayments(Next(w1, late).payments, id)| == |CompletedPayments(w.payments, id)| + 1
  {
    var o := w.requests[rid].order;
    PaymentCounts(w.payments, pid, Payment(o.id, o.total, true), o.id);
  }

  /** The replies to the request are delivered, its payments are stored, and none
      of its attempts is processed after it was given up on. */
  predicate Reliable(es: seq<Event>, rid: nat) {
    forall i :: 0 <= i < |es| && es[i].rid == rid ==>
      && (es[i].Reply? ==> es[i].delivered)
      && (es[i].Process? ==> es[i].stored)
      && !es[i].ProcessLate?
  }

  lemma {:induction false} ReliableLosesNothing(w: World, es: seq<Event>, rid: nat)
    requires LegalRun(w, es) && Reliable(es, rid)
    ensures Unheard(w, es, rid) == 0 && UnstoredIn(es, rid) == 0
    decreases |es|
  {
    if es != [] {
      assert es[0].rid == rid ==> !es[0].ProcessLate?;
      assert forall i :: 0 <= i < |es[1..]| ==> es[1..][i] == es[i + 1];
      ReliableLosesNothing(Next(w, es[0]), es[1..], rid);
    }
  }

  /** With reliable replies and stored payments, in every interleaving: a confirmed
      order has exactly one completed payment and a failed order none. */
  lemma ReliableOrdersAreChargedOnce(w0: World, es: seq<Event>, rid: nat)
    requires Initial(w0) && LegalRun(w0, es) && rid in w0.requests && Reliable(es, rid)
    requires rid in Run(w0, es).requests && Run(w0, es).requests[rid].stage.Done?
    ensures var w := Run(w0, es);
      var id := w.requests[rid].order.id;
      && id in w.orders
      && (w.orders[id].status == Confirmed ==> |CompletedPayments(w.payments, id)| == 1)
      && (w.orders[id].status == PaymentFailed ==> |CompletedPayments(w.payments, id)| == 0)
      && (w.orders[id].status == Confirmed || w.orders[id].status == PaymentFailed)
  {
    PaymentsBalance(w0, es, rid);
    ReliableLosesNothing(w0, es, rid);
  }

  /** A step changes nothing of the order a request is for but its status. */
  lemma StepKeepsTheOrder(w: World, e: Event, rid: nat)
    requires Legal(w, e) && rid in w.requests
    ensures rid in Next(w, e).requests
    ensures Next(w, e).requests[rid].order.(status := Pending) == w.requests[rid].order.(status := Pending)
  {
  }

  /** The payment is for this order, and for its whole total. */
  predicate PaysFor(p: Payment, o: Order) { p.orderID == o.id && p.amount == o.total }

  /** Nobody is charged anything but an order's total: over every run, every payment
      that is on record and was not before is for the order of one of the
      requests, as it was placed, and for its whole total. */
  lemma {:induction false} PaymentsAreOfTheTotal(w: World, es: seq<Event>, pid: string) returns (rid: nat)
    requires LegalRun(w, es) && pid in Run(w, es).payments && pid !in w.payments
    ensures rid in w.requests && PaysFor(Run(w, es).payments[pid], w.requests[rid].order)
    decreases |es|
  {
    var w1 := Next(w, es[0]);
    if pid in w1.payments {
      rid := es[0].rid;
      PaymentsAreKept(w1, es[1..], pid);
    } else {
      rid := PaymentsAreOfTheTotal(w1, es[1..], pid);
      StepKeepsTheOrder(w, es[0], rid);
    }
  }

  /** A payment on record stays as it is. */
  lemma {:induction false} PaymentsAreKept(w: World, es: seq<Event>, pid: string)
    requires LegalRun(w, es) && pid in w.payments
    ensures pid in Run(w, es).payments && Run(w, es).payments[pid] == w.payments[pid]
    decreases |es|
  {
    if es != [] { PaymentsAreKept(Next(w, es[0]), es[1..], pid); }
  }

  // ---------- attempts ----------

  /** An attempt is lost on the way, given up on, or processed. */
  predicate IsAttempt(e: Event) { e.LoseRequest? || e.GiveUp? || e.Process? }

  /** The attempts made in a run. */
  function Attempts(es: seq<Event>, rid: nat): nat {
    if es == [] then 0
    else (if IsAttempt(es[0]) && es[0].rid == rid then 1 else 0) + Attempts(es[1..], rid)
  }

  function AttemptsMade(s: Stage): nat {
    match s
    case Placing => 0
    case Paying(k) => if k > 0 then k - 1 else 0
    case Awaiting(k, _) => k
    case _ => MAX_RETRIES
  }

  lemma {:induction false} RunLast(w: World, es: seq<Event>)
    requires es != [] && LegalRun(w, es)
    ensures var front, e := es[..|es| - 1], es[|es| - 1];
      LegalRun(w, front) && Legal(Run(w, front), e) && Run(w, es) == Next(Run(w, front), e)
    decreases |es|
  {
    var front := es[..|es| - 1];
    if |es| > 1 {
      assert front[1..] == es[1..][..|es| - 2] && front[0] == es[0];
      RunLast(Next(w, es[0]), es[1..]);
    } else {
      assert es[1..] == [] && Run(Next(w, es[0]), []) == Next(w, es[0]);
    }
  }

  lemma {:induction false} AttemptsAppend(front: seq<Event>, e: Event, rid: nat)
    ensures Attempts(front + [e], rid) == Attempts(front, rid) + if IsAttempt(e) && e.rid == rid then 1 else 0
  {
    if front == [] {
      assert front + [e] == [e] && [e][1..] == [];
    } else {
      assert (front + [e])[1..] == front[1..] + [e];
      AttemptsAppend(front[1..], e, rid);
    }
  }

  /** A request that has come this far has made so many attempts. */
  predicate HasMade(s: Stage, attempts: nat) {
    match s
    case Placing => attempts == 0
    case Paying(k) => attempts + 1 == k <= 3
    case Awaiting(k, _) => 1 <= attempts == k <= 3
    case Settling(paid) => if paid then 1 <= attempts <= 3 else attempts == 3
    case Announcing => 1 <= attempts <= 3
    case Done(confirmed) => if confirmed then 1 <= attempts <= 3 else attempts == 3
  }

  /** In every interleaving: an order fails only after exactly three attempts, a
      confirmed one took one to three, and attempts are made one at a time. */
  lemma {:induction false} AttemptsExactly(w0: World, es: seq<Event>, rid: nat)
    requires Initial(w0) && LegalRun(w0, es) && rid in w0.requests
    ensures rid in Run(w0, es).requests && HasMade(Run(w0, es).requests[rid].stage, Attempts(es, rid))
    decreases |es|
  {
    if es != [] {
      var front, e := es[..|es| - 1], es[|es| - 1];
      RunLast(w0, es);
      AttemptsExactly(w0, front, rid);
      AttemptsAppend(front, e, rid);
      assert front + [e] == es;
      StepMakesAttempts(Run(w0, front), e, rid, Attempts(front, rid));
    }
  }

  lemma StepMakesAttempts(w: World, e: Event, rid: nat, attempts: nat)
    requires Legal(w, e) && rid in w.requests && HasMade(w.requests[rid].stage, attempts)
    ensures rid in Next(w, e).requests
    ensures HasMade(Next(w, e).requests[rid].stage, attempts + if IsAttempt(e) && e.rid == rid then 1 else 0)
  {
  }

  /** At most three attempts are made for one order, and a request that heard of
      a completed payment makes no further one. */
  lemma {:induction false} AttemptsAreBounded(w: World, es: seq<Event>, rid: nat)
    requires Inv(w) && LegalRun(w, es) && rid in w.requests
    ensures Attempts(es, rid) + AttemptsMade(w.requests[rid].stage) <= 3
    decreases |es|
  {
    if es != [] {
      NextKeepsInv(w, es[0]);
      StepCountsAttempts(w, es[0], rid);
      AttemptsAreBounded(Next(w, es[0]), es[1..], rid);
    } else {
      assert GoodRequest(w, rid);
    }
  }

  lemma StepCountsAttempts(w: World, e: Event, rid: nat)
    requires Legal(w, e) && rid in w.requests && GoodRequest(w, rid)
    ensures rid in Next(w, e).requests
    ensures AttemptsMade(w.requests[rid].stage) + (if IsAttempt(e) && e.rid == rid then 1 else 0)
         <= AttemptsMade(Next(w, e).requests[rid].stage)
  {
  }

  /** The payment service never decides more often than it was asked, however
      late: an order is charged at most three times, whatever happens. */
  lemma {:induction false} ChargesAreBounded(w: World, es: seq<Event>, rid: nat)
    requires Inv(w) && LegalRun(w, es) && rid in w.requests
    ensures ChargesIn(es, rid) <= w.requests[rid].orphans + 3 - AttemptsMade(w.requests[rid].stage)
    decreases |es|
  {
    if es != [] {
      NextKeepsInv(w, es[0]);
      StepCountsCharges(w, es[0], rid);
      ChargesAreBounded(Next(w, es[0]), es[1..], rid);
    } else {
      assert GoodRequest(w, rid);
    }
  }

  lemma StepCountsCharges(w: World, e: Event, rid: nat)
    requires Legal(w, e) && rid in w.requests && GoodRequest(w, rid)
    ensures rid in Next(w, e).requests
    ensures var r, r' := w.requests[rid], Next(w, e).requests[rid];
      (if Charges(e, rid) then 1 else 0) + r'.orphans - AttemptsMade(r'.stage) <= r.orphans - AttemptsMade(r.stage)
  {
  }

  // ---------- the handler ----------

  /** What becomes of one attempt. */
  datatype Fate = RequestLost | GivenUp | Served(paymentID: string, completed: bool, stored: bool, delivered: bool)

  predicate Succeeds(f: Fate) { f.Served? && f.completed && f.delivered }

  class OrderService {
    const db: DB<Order>
    var payments: map<string, Payment>
    var events: seq<Order>
    ghost var requests: map<nat, Request>

    constructor ()
      ensures fresh(db)
    {
      db := new DB<Order>();
      payments, events, requests := map[], [], map[];
    }

    ghost function At(): World
      reads this, db
    {
      World(requests, TableOf(db.data, "orders"), payments, events)
    }

    /** One attempt: the payment service decides, and the order service hears of
        it or does not. */
    method DoPaymentRequest(rid: nat, order: Order, f: Fate, ghost start: World, ghost before: seq<Event>)
      returns (ok: bool, ghost trace: seq<Event>)
      requires LegalRun(start, before) && Run(start, before) == At()
      requires rid in requests && requests[rid].stage.Paying? && requests[rid].order == order
      requires f.Served? ==> f.paymentID !in payments
      modifies this`payments, this`requests
      ensures LegalRun(start, trace) && Run(start, trace) == At()
      ensures ok == Succeeds(f)
      ensures rid in requests && requests[rid].order == order
      ensures requests[rid].stage ==
              if ok then Settling(true) else Retry(old(requests)[rid].stage.attempt)
      ensures payments.Keys <= old(payments.Keys) + if f.Served? then {f.paymentID} else {}
    {
      if !f.Served? {
        trace := Note(if f.RequestLost? then LoseRequest(rid) else GiveUp(rid), start, before);
        return false, trace;
      }
      if f.stored { payments := payments[f.paymentID := Payment(order.id, order.total, f.completed)]; }
      ghost var process := Process(rid, f.paymentID, f.completed, f.stored);
      RunExtends(start, before, process);
      requests := Next(old(At()), process).requests;
      trace := Note(Reply(rid, f.delivered), start, before + [process]);
      ok := f.completed && f.delivered;
    }

    /** Records a step that moves only the request. */
    ghost method Note(e: Event, start: World, before: seq<Event>) returns (trace: seq<Event>)
      requires LegalRun(start, before) && Run(start, before) == At()
      requires Legal(At(), e) && (e.LoseRequest? || e.GiveUp? || e.Reply?)
      modifies this`requests
      ensures trace == before + [e] && LegalRun(start, trace) && Run(start, trace) == At()
      ensures requests == Next(old(At()), e).requests
    {
      RunExtends(start, before, e);
      requests := Next(At(), e).requests;
      trace := before + [e];
    }

    /** The retry loop: the first success ends it, three failures give up. */
    method CallPaymentService(rid: nat, order: Order, fates: nat -> Fate, ghost start: World, ghost before: seq<Event>)
      returns (ok: bool, ghost trace: seq<Event>)
      requires LegalRun(start, before) && Run(start, before) == At()
      requires rid in requests && requests[rid].stage == Paying(1) && requests[rid].order == order
      requires forall k :: 1 <= k <= MAX_RETRIES && fates(k).Served? ==> fates(k).paymentID !in payments
      requires forall j, k :: 1 <= j < k <= MAX_RETRIES && fates(j).Served? && fates(k).Served? ==>
        fates(j).paymentID != fates(k).paymentID
      modifies this`payments, this`requests
      ensures LegalRun(start, trace) && Run(start, trace) == At()
      ensures ok <==> exists k: nat :: 1 <= k <= MAX_RETRIES && Succeeds(fates(k))
      ensures rid in requests && requests[rid].order == order && requests[rid].stage == Settling(ok)
    {
      trace := before;
      var attempt := 1;
      while attempt <= MAX_RETRIES
        invariant 1 <= attempt <= MAX_RETRIES + 1
        invariant LegalRun(start, trace) && Run(start, trace) == At()
        invariant rid in requests && requests[rid].order == order
        invariant requests[rid].stage == if attempt <= MAX_RETRIES then Paying(attempt) else Settling(false)
        invariant forall k :: 1 <= k < attempt ==> !Succeeds(fates(k))
        invariant forall k :: attempt <= k <= MAX_RETRIES && fates(k).Served? ==> fates(k).paymentID !in payments
      {
        ok, trace := DoPaymentRequest(rid, order, fates(attempt), start, trace);
        if ok { return; }
        attempt := attempt + 1;
      }
      ok := false;
    }

    /** The whole handler, run without interference, is one run of the machine:
        all that holds of every run holds of it. It confirms the order exactly
        if one of the three attempts succeeds and is heard of. */
    method CreateOrder(rid: nat, given: Order, fates: nat -> Fate) returns (ok: bool, ghost trace: seq<Event>)
      requires rid in requests && requests[rid].stage == Placing && requests[rid].order == given
      requires given.status == Pending
      requires forall k :: 1 <= k <= MAX_RETRIES && fates(k).Served? ==> fates(k).paymentID !in payments
      requires forall j, k :: 1 <= j < k <= MAX_RETRIES && fates(j).Served? && fates(k).Served? ==>
        fates(j).paymentID != fates(k).paymentID
      modifies this`payments, this`events, this`requests, db
      ensures LegalRun(old(At()), trace) && Run(old(At()), trace) == At()
      ensures ok <==> exists k: nat :: 1 <= k <= MAX_RETRIES && Succeeds(fates(k))
      ensures rid in requests && requests[rid].stage == Done(ok)
    {
      ghost var start := At();
      var order := given;
      db.Insert("orders", order.id, order);
      RunExtends(start, [], Place(rid));
      requests := Next(start, Place(rid)).requests;
      trace := [] + [Place(rid)];

      ok, trace := CallPaymentService(rid, order, fates, start, trace);
      trace := Conclude(rid, order, ok, start, trace);
    }

    /** Settles the order and announces it if it was paid. */
    method Conclude(rid: nat, given: Order, paid: bool, ghost start: World, ghost before: seq<Event>)
      returns (ghost trace: seq<Event>)
      requires LegalRun(start, before) && Run(start, before) == At()
      requires rid in requests && requests[rid].stage == Settling(paid) && requests[rid].order == given
      modifies this`events, this`requests, db
      ensures LegalRun(start, trace) && Run(start, trace) == At()
      ensures rid in requests && requests[rid].stage == Done(paid)
    {
      ghost var settling := At();
      RunExtends(start, before, Settle(rid));
      trace := before + [Settle(rid)];
      var order := given.(status := if paid then Confirmed else PaymentFailed);
      var updated := db.Update("orders", order.id, order);
      requests := Next(settling, Settle(rid)).requests;
      if !paid { return; }

      RunExtends(start, trace, Announce(rid));
      trace := trace + [Announce(rid)];
      events := events + [order];
      requests := Next(Next(settling, Settle(rid)), Announce(rid)).requests;
    }
  }
}
