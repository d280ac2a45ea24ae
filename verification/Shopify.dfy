/**
The storefront's event emitter: an event of the shop under incident may be
suppressed, declined or fanned out into cancellations and refunds on its way to
the webhook endpoint. The conditions read for an event, its random draws and
the id drawn for its refund are inputs.
*/
module Shopify {
  import opened Common
  import opened Text

  datatype LineItem = LineItem(title: string, productType: string)

  /** `details` stands for the fields the emitter only copies. */
  datatype Order = Order(id: int, totalPrice: string, gateway: string, lineItems: seq<LineItem>, details: string)
  datatype Transaction = Transaction(id: int, orderId: int, status: string, details: string)
  datatype RefundTxn = RefundTxn(amount: string, kind: string, gateway: string)
  datatype Refund = Refund(id: int, orderId: int, createdAt: string, transactions: seq<RefundTxn>)

  datatype Payload =
    | OrderBody(order: Order)
    | TransactionBody(transaction: Transaction)
    | RefundBody(refund: Refund)
    | OtherBody(details: string)

  datatype Event = Event(shop: string, topic: string, payload: Payload)

  const ORDER_CREATED := "orders/create"
  const ORDER_PAID := "orders/paid"
  const ORDER_CANCELLED := "orders/cancelled"
  const TRANSACTION_CREATED := "transactions/create"
  const REFUND_CREATED := "refunds/create"

  /** The two incidents, when they are active. */
  datatype Slump = Slump(shop: string, target: string, fraction: real)
  datatype Meltdown = Meltdown(shop: string, decline: real, cancel: real, refund: real)

  /** What handling one event reads and draws. */
  datatype Conditions = Conditions(
    slump: Option<Slump>, meltdown: Option<Meltdown>,
    slumpDraw: real, declineDraw: real, cancelDraw: real, refundDraw: real,
    refundId: int, now: string)

  datatype Input = Input(event: Event, given: Conditions)

  // ---------- when an event is affected ----------

  predicate IsSale(ev: Event) {
    (ev.topic == ORDER_CREATED || ev.topic == ORDER_PAID) && ev.payload.OrderBody?
  }

  predicate IsPayment(ev: Event) {
    ev.topic == TRANSACTION_CREATED && ev.payload.TransactionBody?
  }

  /** Some line item has the target in its title or product type; an empty
      target is in none. */
  predicate HasProduct(o: Order, target: string) {
    target != "" &&
    exists li :: li in o.lineItems &&
                 (Contains(Lower(li.title), target) || Contains(Lower(li.productType), target))
  }

  predicate Suppressed(x: Input) {
    var s := x.given.slump;
    s.Some? && x.event.shop == s.value.shop && IsSale(x.event) &&
    HasProduct(x.event.payload.order, s.value.target) && x.given.slumpDraw < s.value.fraction
  }

  predicate Targeted(x: Input) {
    x.given.meltdown.Some? && x.event.shop == x.given.meltdown.value.shop
  }

  /** The event passes the slump and its shop is in a payment meltdown. */
  predicate Melting(x: Input) { !Suppressed(x) && Targeted(x) }

  predicate Declined(x: Input) {
    Melting(x) && IsPayment(x.event) && x.given.declineDraw < x.given.meltdown.value.decline
  }

  predicate Cancelled(x: Input) {
    Melting(x) && IsSale(x.event) && x.given.cancelDraw < x.given.meltdown.value.cancel
  }

  predicate Refunded(x: Input) {
    Melting(x) && IsSale(x.event) && x.given.refundDraw < x.given.meltdown.value.refund
  }

  // ---------- what is emitted ----------

  function Decline(ev: Event): Event
    requires ev.payload.TransactionBody?
  {
    ev.(payload := TransactionBody(ev.payload.transaction.(status := "failure")))
  }

  /** A surviving event as it is emitted. */
  function Survivor(x: Input): Event {
    if Declined(x) then Decline(x.event) else x.event
  }

  predicate IsCancellationOf(ev: Event, sale: Event) {
    sale.payload.OrderBody? && ev == Event(sale.shop, ORDER_CANCELLED, sale.payload)
  }

  /** One refund of the order's full price through the order's gateway. */
  predicate IsRefundOf(ev: Event, sale: Event) {
    && sale.payload.OrderBody?
    && ev.shop == sale.shop && ev.topic == REFUND_CREATED && ev.payload.RefundBody?
    && var o, r := sale.payload.order, ev.payload.refund;
       r.orderId == o.id && r.transactions == [RefundTxn(o.totalPrice, "refund", o.gateway)]
  }

  function CancellationOf(sale: Event): Event
    requires sale.payload.OrderBody?
  {
    Event(sale.shop, ORDER_CANCELLED, sale.payload)
  }

  function RefundOf(sale: Event, id: int, now: string): Event
    requires sale.payload.OrderBody?
  {
    var o := sale.payload.order;
    Event(sale.shop, REFUND_CREATED,
          RefundBody(Refund(id, o.id, now, [RefundTxn(o.totalPrice, "refund", o.gateway)])))
  }

  /** What a sale gives rise to. */
  function Derived(sale: Event, cancelled: bool, refunded: bool, id: int, now: string): seq<Event>
    requires (cancelled || refunded) ==> sale.payload.OrderBody?
  {
    (if cancelled then [CancellationOf(sale)] else [])
    + (if refunded then [RefundOf(sale, id, now)] else [])
  }

  /** The events emitted for one input. */
  function Expand(x: Input): seq<Event> {
    if Suppressed(x) then []
    else [Survivor(x)] + Derived(x.event, Cancelled(x), Refunded(x), x.given.refundId, x.given.now)
  }

  function FlatMap<X, Y>(xs: seq<X>, f: X -> seq<Y>): seq<Y> {
    if xs == [] then [] else FlatMap(xs[..|xs| - 1], f) + f(xs[|xs| - 1])
  }

  /** The events emitted for a stream of inputs. */
  function Stream(xs: seq<Input>): seq<Event> { FlatMap(xs, Expand) }

  // ---------- the emitter ----------

  method OrderHasProduct(o: Order, target: string) returns (found: bool)
    ensures found == HasProduct(o, target)
  {
    if target == "" { return false; }
    for i := 0 to |o.lineItems|
      invariant forall j :: 0 <= j < i ==>
        !Contains(Lower(o.lineItems[j].title), target) && !Contains(Lower(o.lineItems[j].productType), target)
    {
      var li := o.lineItems[i];
      if Contains(Lower(li.title), target) || Contains(Lower(li.productType), target) { return true; }
    }
    return false;
  }

  class Emitter {
    var declines: nat
    var slumped: nat
    var posted: seq<Event>

    constructor ()
      ensures declines == 0 && slumped == 0 && posted == []
    {
      declines, slumped, posted := 0, 0, [];
    }

    method ApplyIncident(x: Input) returns (out: seq<Event>)
      modifies this`declines, this`slumped
      ensures out == Expand(x)
      ensures slumped == old(slumped) + if Suppressed(x) then 1 else 0
      ensures declines == old(declines) + if Declined(x) then 1 else 0
    {
      var ev, given := x.event, x.given;
      if given.slump.Some? && ev.shop == given.slump.value.shop
         && (ev.topic == ORDER_CREATED || ev.topic == ORDER_PAID)
      {
        if ev.payload.OrderBody? {
          var has := OrderHasProduct(ev.payload.order, given.slump.value.target);
          if has && given.slumpDraw < given.slump.value.fraction {
            slumped := slumped + 1;
            return [];
          }
        }
      }
      if given.meltdown.None? || ev.shop != given.meltdown.value.shop { return [ev]; }
      var meltdown := given.meltdown.value;
      out := [ev];
      if ev.topic == TRANSACTION_CREATED {
        if ev.payload.TransactionBody? && given.declineDraw < meltdown.decline {
          out := [ev.(payload := TransactionBody(ev.payload.transaction.(status := "failure")))];
          declines := declines + 1;
        }
      } else if ev.topic == ORDER_CREATED || ev.topic == ORDER_PAID {
        if ev.payload.OrderBody? {
          var o := ev.payload.order;
          if given.cancelDraw < meltdown.cancel {
            out := out + [Event(ev.shop, ORDER_CANCELLED, OrderBody(o))];
          }
          if given.refundDraw < meltdown.refund {
            var refund := Refund(given.refundId, o.id, given.now, [RefundTxn(o.totalPrice, "refund", o.gateway)]);
            out := out + [Event(ev.shop, REFUND_CREATED, RefundBody(refund))];
          }
        }
      }
    }

    /** The event loop, over the events that arrive before it is cancelled. */
    method Run(xs: seq<Input>)
      modifies this
      ensures posted == old(posted) + Stream(xs)
      ensures slumped == old(slumped) + Count(xs, Suppressed)
      ensures declines == old(declines) + Count(xs, Declined)
    {
      for i := 0 to |xs|
        invariant posted == old(posted) + Stream(xs[..i])
        invariant slumped == old(slumped) + Count(xs[..i], Suppressed)
        invariant declines == old(declines) + Count(xs[..i], Declined)
      {
        assert xs[..i + 1][..i] == xs[..i];
        var out := ApplyIncident(xs[i]);
        posted := posted + out;
      }
      assert xs[..|xs|] == xs;
    }
  }

  // ---------- conservation ----------

  /** Counting with output only what the topic says: sales survive unless
      suppressed, and the meltdown adds exactly its cancellations and refunds. */
  lemma {:induction false} TopicsBalance(xs: seq<Input>, topic: string)
    ensures Count(Stream(xs), (ev: Event) => ev.topic == topic)
          + Count(xs, (x: Input) => x.event.topic == topic && Suppressed(x))
         == Count(xs, (x: Input) => x.event.topic == topic)
          + (if topic == ORDER_CANCELLED then Count(xs, Cancelled) else 0)
          + (if topic == REFUND_CREATED then Count(xs, Refunded) else 0)
  {
    if xs != [] {
      var front, x := xs[..|xs| - 1], xs[|xs| - 1];
      TopicsBalance(front, topic);
      CountConcat(Stream(front), Expand(x), (ev: Event) => ev.topic == topic);
      ExpandTopics(x, topic);
    }
  }

  lemma {:induction false} CountConcat<T>(a: seq<T>, b: seq<T>, p: T -> bool)
    ensures Count(a + b, p) == Count(a, p) + Count(b, p)
    decreases |b|
  {
    if b == [] {
      assert a + b == a;
    } else {
      assert (a + b)[..|a + b| - 1] == a + b[..|b| - 1];
      CountConcat(a, b[..|b| - 1], p);
    }
  }

  lemma CountOne<T>(x: T, p: T -> bool)
    ensures Count([x], p) == if p(x) then 1 else 0
  {
    assert [x][..0] == [];
  }

  lemma DerivedTopics(sale: Event, cancelled: bool, refunded: bool, id: int, now: string, topic: string)
    requires (cancelled || refunded) ==> sale.payload.OrderBody?
    ensures Count(Derived(sale, cancelled, refunded, id, now), (ev: Event) => ev.topic == topic)
         == (if topic == ORDER_CANCELLED && cancelled then 1 else 0)
          + (if topic == REFUND_CREATED && refunded then 1 else 0)
  {
    var p := (ev: Event) => ev.topic == topic;
    if cancelled { CountOne(CancellationOf(sale), p); }
    if refunded { CountOne(RefundOf(sale, id, now), p); }
    if cancelled && refunded { CountConcat([CancellationOf(sale)], [RefundOf(sale, id, now)], p); }
  }

  lemma ExpandTopics(x: Input, topic: string)
    ensures Count(Expand(x), (ev: Event) => ev.topic == topic)
         == (if x.event.topic == topic && !Suppressed(x) then 1 else 0)
          + (if topic == ORDER_CANCELLED && Cancelled(x) then 1 else 0)
          + (if topic == REFUND_CREATED && Refunded(x) then 1 else 0)
  {
    var p := (ev: Event) => ev.topic == topic;
    if !Suppressed(x) {
      var derived := Derived(x.event, Cancelled(x), Refunded(x), x.given.refundId, x.given.now);
      CountConcat([Survivor(x)], derived, p);
      CountOne(Survivor(x), p);
      DerivedTopics(x.event, Cancelled(x), Refunded(x), x.given.refundId, x.given.now, topic);
    }
  }

  /** Output and suppressed events together are the input and the events derived
      from it. */
  lemma {:induction false} StreamConserves(xs: seq<Input>)
    ensures |Stream(xs)| + Count(xs, Suppressed) == |xs| + Count(xs, Cancelled) + Count(xs, Refunded)
    ensures |Stream(xs)| <= 3 * |xs|
  {
    if xs != [] { StreamConserves(xs[..|xs| - 1]); }
  }

  // ---------- who is left alone ----------

  /** The events of one shop, in order. */
  function OfShop(evs: seq<Event>, shop: string): seq<Event> {
    if evs == [] then []
    else OfShop(evs[..|evs| - 1], shop) + if evs[|evs| - 1].shop == shop then [evs[|evs| - 1]] else []
  }

  function EventsOf(xs: seq<Input>): seq<Event> {
    seq(|xs|, i requires 0 <= i < |xs| => xs[i].event)
  }

  lemma {:induction false} OfShopConcat(a: seq<Event>, b: seq<Event>, shop: string)
    ensures OfShop(a + b, shop) == OfShop(a, shop) + OfShop(b, shop)
    decreases |b|
  {
    if b == [] {
      assert a + b == a;
    } else {
      assert (a + b)[..|a + b| - 1] == a + b[..|b| - 1];
      OfShopConcat(a, b[..|b| - 1], shop);
    }
  }

  /** Every event emitted for an input is of that input's shop. */
  lemma ExpandStaysInTheShop(x: Input, shop: string)
    ensures OfShop(Expand(x), shop) == if x.event.shop == shop then Expand(x) else []
  {
    AllOfOneShop(Expand(x), x.event.shop, shop);
  }

  lemma {:induction false} AllOfOneShop(evs: seq<Event>, own: string, shop: string)
    requires forall ev :: ev in evs ==> ev.shop == own
    ensures OfShop(evs, shop) == if own == shop then evs else []
  {
    if evs != [] { AllOfOneShop(evs[..|evs| - 1], own, shop); }
  }

  predicate Aimed(x: Input, shop: string) {
    (x.given.slump.Some? && x.given.slump.value.shop == shop) ||
    (x.given.meltdown.Some? && x.given.meltdown.value.shop == shop)
  }

  lemma UnaimedIsKept(x: Input)
    ensures !Aimed(x, x.event.shop) ==> Expand(x) == [x.event]
  {
  }

  lemma OtherShopStep(out: seq<Event>, x: Input, shop: string)
    requires !Aimed(x, shop)
    ensures OfShop(out + Expand(x), shop) == OfShop(out, shop) + if x.event.shop == shop then [x.event] else []
  {
    OfShopConcat(out, Expand(x), shop);
    ExpandStaysInTheShop(x, shop);
    UnaimedIsKept(x);
  }

  /** A shop at which neither incident is aimed has its events passed on
      unchanged, all of them and in order, whatever happens to other shops. */
  lemma {:induction false} OtherShopsAreUntouched(xs: seq<Input>, shop: string)
    requires forall x :: x in xs ==> !Aimed(x, shop)
    ensures OfShop(Stream(xs), shop) == OfShop(EventsOf(xs), shop)
  {
    if xs != [] {
      var front, x := xs[..|xs| - 1], xs[|xs| - 1];
      OtherShopsAreUntouched(front, shop);
      OtherShopStep(Stream(front), x, shop);
      EventsAppend(front, x, shop);
      assert xs == front + [x];
    }
  }

  lemma EventsAppend(front: seq<Input>, x: Input, shop: string)
    ensures OfShop(EventsOf(front + [x]), shop)
         == OfShop(EventsOf(front), shop) + if x.event.shop == shop then [x.event] else []
  {
    assert EventsOf(front + [x]) == EventsOf(front) + [x.event];
  }

  // ---------- where derived events stand ----------

  lemma {:induction false} BlockAt<X, Y>(xs: seq<X>, f: X -> seq<Y>, i: nat)
    requires i < |xs|
    ensures |FlatMap(xs[..i], f)| + |f(xs[i])| == |FlatMap(xs[..i + 1], f)| <= |FlatMap(xs, f)|
    ensures FlatMap(xs, f)[|FlatMap(xs[..i], f)|..|FlatMap(xs[..i + 1], f)|] == f(xs[i])
  {
    var front := xs[..|xs| - 1];
    if i == |xs| - 1 {
      assert xs[..i + 1] == xs && xs[..i] == front;
    } else {
      BlockAt(front, f, i);
      assert front[..i] == xs[..i] && front[..i + 1] == xs[..i + 1];
      var lo, hi := |FlatMap(xs[..i], f)|, |FlatMap(xs[..i + 1], f)|;
      assert FlatMap(xs, f)[lo..hi] == FlatMap(front, f)[lo..hi];
    }
  }

  lemma {:induction false} BlockOf<X, Y>(xs: seq<X>, f: X -> seq<Y>, k: nat) returns (i: nat)
    requires k < |FlatMap(xs, f)|
    ensures i < |xs| && |FlatMap(xs[..i], f)| <= k < |FlatMap(xs[..i + 1], f)|
  {
    var front := xs[..|xs| - 1];
    if k < |FlatMap(front, f)| {
      i := BlockOf(front, f, k);
      assert front[..i] == xs[..i] && front[..i + 1] == xs[..i + 1];
    } else {
      i := |xs| - 1;
      assert xs[..i + 1] == xs;
    }
  }

  lemma BlocksAreInOrder<X, Y>(xs: seq<X>, f: X -> seq<Y>, i: nat, j: nat)
    requires i < j < |xs|
    ensures |FlatMap(xs[..i], f)| + |f(xs[i])| <= |FlatMap(xs[..j], f)|
  {
    BlockAt(xs[..j], f, i);
    assert xs[..j][..i] == xs[..i] && xs[..j][..i + 1] == xs[..i + 1];
  }

  /** Where the events emitted for input i begin. */
  function Offset(xs: seq<Input>, i: nat): nat
    requires i <= |xs|
  {
    |Stream(xs[..i])|
  }

  /** Event k is a surviving input, declined or unchanged. */
  predicate Survives(xs: seq<Input>, k: nat)
    requires k < |Stream(xs)|
  {
    exists i: nat :: i < |xs| && k == Offset(xs, i) && !Suppressed(xs[i]) && Stream(xs)[k] == Survivor(xs[i])
  }

  /** Event k is the cancellation or the refund of a sale emitted just before it,
      at most two places earlier and with nothing but its cancellation between. */
  predicate FollowsItsSale(out: seq<Event>, k: nat)
    requires k < |out|
  {
    || (k >= 1 && IsSale(out[k - 1]) && (IsCancellationOf(out[k], out[k - 1]) || IsRefundOf(out[k], out[k - 1])))
    || (k >= 2 && IsSale(out[k - 2]) && IsCancellationOf(out[k - 1], out[k - 2]) && IsRefundOf(out[k], out[k - 2]))
  }

  /** The events emitted for a surviving input, one by one. */
  lemma ExpandExplained(x: Input)
    requires !Suppressed(x)
    ensures var block := Expand(x);
      && 1 <= |block| <= 3 && block[0] == Survivor(x)
      && (|block| > 1 ==> block[0] == x.event && IsSale(x.event))
      && (|block| > 1 ==> IsCancellationOf(block[1], x.event) || IsRefundOf(block[1], x.event))
      && (|block| > 2 ==> IsCancellationOf(block[1], x.event) && IsRefundOf(block[2], x.event))
  {
    DerivedExplained(x.event, Cancelled(x), Refunded(x), x.given.refundId, x.given.now);
  }

  lemma DerivedExplained(sale: Event, cancelled: bool, refunded: bool, id: int, now: string)
    requires (cancelled || refunded) ==> sale.payload.OrderBody?
    ensures var block := Derived(sale, cancelled, refunded, id, now);
      && |block| <= 2
      && (|block| > 0 <==> cancelled || refunded)
      && (|block| > 0 ==> IsCancellationOf(block[0], sale) || IsRefundOf(block[0], sale))
      && (|block| > 1 ==> IsCancellationOf(block[0], sale) && IsRefundOf(block[1], sale))
  {
  }

  /** What the slump does: a sale at its shop of an order with the product does not
      go through if the draw is below the fraction, and nothing else is held
      back. */
  lemma SlumpSuppresses(x: Input)
    ensures Expand(x) == [] <==>
      && x.given.slump.Some? && x.event.shop == x.given.slump.value.shop
      && (x.event.topic == "orders/create" || x.event.topic == "orders/paid") && x.event.payload.OrderBody?
      && x.given.slump.value.target != ""
      && (exists li :: li in x.event.payload.order.lineItems &&
            (Contains(Lower(li.title), x.given.slump.value.target) ||
             Contains(Lower(li.productType), x.given.slump.value.target)))
      && x.given.slumpDraw < x.given.slump.value.fraction
  {
  }

  /** What the meltdown does to a payment at its shop: below the decline fraction it
      fails, and nothing else of it changes. */
  lemma MeltdownDeclines(x: Input)
    requires x.given.meltdown.Some? && x.event.shop == x.given.meltdown.value.shop
    requires x.event.topic == "transactions/create" && x.event.payload.TransactionBody?
    ensures |Expand(x)| == 1 && Expand(x)[0].shop == x.event.shop && Expand(x)[0].topic == x.event.topic
    ensures Expand(x)[0].payload.TransactionBody?
    ensures var t, t' := x.event.payload.transaction, Expand(x)[0].payload.transaction;
      && t'.id == t.id && t'.orderId == t.orderId && t'.details == t.details
      && t'.status == if x.given.declineDraw < x.given.meltdown.value.decline then "failure" else t.status
  {
  }

  /** And to a sale that goes through: it is passed on as it is, followed by its
      cancellation if that draw is below its fraction, and by its refund if that
      one is. */
  lemma MeltdownFansOut(x: Input)
    requires x.given.meltdown.Some? && x.event.shop == x.given.meltdown.value.shop
    requires (x.event.topic == "orders/create" || x.event.topic == "orders/paid") && x.event.payload.OrderBody?
    requires Expand(x) != []
    ensures var o, out := x.event.payload.order, Expand(x);
      var cancels := x.given.cancelDraw < x.given.meltdown.value.cancel;
      var refunds := x.given.refundDraw < x.given.meltdown.value.refund;
      && |out| == 1 + (if cancels then 1 else 0) + (if refunds then 1 else 0)
      && out[0] == x.event
      && (cancels ==> out[1] == Event(x.event.shop, "orders/cancelled", OrderBody(o)))
      && (refunds ==> out[|out| - 1] == Event(x.event.shop, "refunds/create", RefundBody(
            Refund(x.given.refundId, o.id, x.given.now, [RefundTxn(o.totalPrice, "refund", o.gateway)]))))
  {
  }

  /** Everything else is passed on as it is. */
  lemma EverythingElsePasses(x: Input)
    requires Expand(x) != []
    requires x.given.meltdown == None || x.event.shop != x.given.meltdown.value.shop ||
             (x.event.topic != "transactions/create" && x.event.topic != "orders/create" && x.event.topic != "orders/paid")
    ensures Expand(x) == [x.event]
  {
  }

  /** Nothing is emitted that is not a surviving input or derived from one. */
  lemma EveryEventIsExplained(xs: seq<Input>, k: nat)
    requires k < |Stream(xs)|
    ensures Survives(xs, k) || FollowsItsSale(Stream(xs), k)
  {
    var i := BlockOf(xs, Expand, k);
    BlockAt(xs, Expand, i);
    ExpandExplained(xs[i]);
    var lo, out := Offset(xs, i), Stream(xs);
    if k == lo {
      assert out[k] == out[lo..Offset(xs, i + 1)][0];
    } else {
      FollowsInBlock(out, lo, Expand(xs[i]), xs[i].event, k);
    }
  }

  lemma FollowsInBlock(out: seq<Event>, lo: nat, block: seq<Event>, sale: Event, k: nat)
    requires lo < k < lo + |block| <= |out| && |block| <= 3
    requires out[lo..lo + |block|] == block
    requires block[0] == sale && IsSale(sale)
    requires IsCancellationOf(block[1], sale) || IsRefundOf(block[1], sale)
    requires |block| > 2 ==> IsCancellationOf(block[1], sale) && IsRefundOf(block[2], sale)
    ensures FollowsItsSale(out, k)
  {
    assert out[lo] == block[0] && out[lo + 1] == block[1];
    if k == lo + 2 { assert out[lo + 2] == block[2]; }
  }

  /** Every input that is not suppressed is emitted, after every earlier input
      and what that one gave rise to. */
  lemma EverySurvivorIsEmitted(xs: seq<Input>, j: nat)
    requires j < |xs| && !Suppressed(xs[j])
    ensures Offset(xs, j) < |Stream(xs)| && Stream(xs)[Offset(xs, j)] == Survivor(xs[j])
    ensures forall i: nat :: i < j ==> Offset(xs, i) + |Expand(xs[i])| <= Offset(xs, j)
  {
    BlockAt(xs, Expand, j);
    ExpandExplained(xs[j]);
    assert Stream(xs)[Offset(xs, j)] == Stream(xs)[Offset(xs, j)..Offset(xs, j + 1)][0];
    forall i: nat | i < j ensures Offset(xs, i) + |Expand(xs[i])| <= Offset(xs, j) {
      BlocksAreInOrder(xs, Expand, i, j);
    }
  }
}
