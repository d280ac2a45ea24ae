/**
The in-memory pub/sub queue: one bounded channel per subscriber, publishing
that drops what does not fit, and one consumer per channel that takes a
message, handles it, and takes the next.
*/
module Queue {
  import opened Common

  const CAPACITY: nat := 256

  /** `log` records every message published to the channel since it was
      subscribed and whether it was accepted; the program keeps no such log. */
  datatype Channel<M> = Channel(
    log: seq<(M, bool)>, buffer: seq<M>, inHand: Option<M>, handled: seq<M>)

  type Topics<M> = map<string, seq<Channel<M>>>

  /** Interleaved steps. A publisher offers its message to the topic's channels
      one after the other, so other steps may come between two offers. */
  datatype Event<M> =
    | Subscribe(topic: string)
    | Offer(topic: string, index: nat, message: M)
    | Take(topic: string, index: nat)
    | Finish(topic: string, index: nat)

  function Offered<M>(c: Channel<M>, m: M): Channel<M> {
    if |c.buffer| < CAPACITY then c.(buffer := c.buffer + [m], log := c.log + [(m, true)])
    else c.(log := c.log + [(m, false)])
  }

  function Taken<M>(c: Channel<M>): Channel<M>
    requires c.buffer != []
  {
    c.(inHand := Some(c.buffer[0]), buffer := c.buffer[1..])
  }

  function Finished<M>(c: Channel<M>): Channel<M>
    requires c.inHand.Some?
  {
    c.(inHand := None, handled := c.handled + [c.inHand.value])
  }

  function ChannelsOf<M>(q: Topics<M>, topic: string): seq<Channel<M>> {
    if topic in q then q[topic] else []
  }

  predicate Legal<M>(q: Topics<M>, e: Event<M>) {
    match e
    case Subscribe(_) => true
    case Offer(t, i, _) => i < |ChannelsOf(q, t)|
    case Take(t, i) =>
      i < |ChannelsOf(q, t)| && ChannelsOf(q, t)[i].inHand == None && ChannelsOf(q, t)[i].buffer != []
    case Finish(t, i) => i < |ChannelsOf(q, t)| && ChannelsOf(q, t)[i].inHand.Some?
  }

  function Next<M>(q: Topics<M>, e: Event<M>): Topics<M>
    requires Legal(q, e)
  {
    var cs := ChannelsOf(q, e.topic);
    match e
    case Subscribe(t) => q[t := cs + [Channel([], [], None, [])]]
    case Offer(t, i, m) => q[t := cs[i := Offered(cs[i], m)]]
    case Take(t, i) => q[t := cs[i := Taken(cs[i])]]
    case Finish(t, i) => q[t := cs[i := Finished(cs[i])]]
  }

  predicate LegalRun<M>(q: Topics<M>, es: seq<Event<M>>)
    decreases |es|
  {
    es == [] || (Legal(q, es[0]) && LegalRun(Next(q, es[0]), es[1..]))
  }

  function Run<M>(q: Topics<M>, es: seq<Event<M>>): Topics<M>
    requires LegalRun(q, es)
    decreases |es|
  {
    if es == [] then q else Run(Next(q, es[0]), es[1..])
  }

  // ---------- conservation ----------

  /** What was published, with the drops removed, in publish order. */
  function Accepted<M>(log: seq<(M, bool)>): seq<M> {
    if log == [] then []
    else
      var last := log[|log| - 1];
      Accepted(log[..|log| - 1]) + if last.1 then [last.0] else []
  }

  function Dropped<M>(log: seq<(M, bool)>): nat {
    if log == [] then 0 else Dropped(log[..|log| - 1]) + if log[|log| - 1].1 then 0 else 1
  }

  lemma {:induction false} AcceptedCounts<M>(log: seq<(M, bool)>)
    ensures |log| == |Accepted(log)| + Dropped(log)
  {
    if log != [] { AcceptedCounts(log[..|log| - 1]); }
  }

  function InHand<M>(c: Channel<M>): seq<M> { if c.inHand.Some? then [c.inHand.value] else [] }

  /** Handled, then in hand, then buffered, is what was accepted. */
  ghost predicate Conserved<M>(c: Channel<M>) {
    && Accepted(c.log) == c.handled + InHand(c) + c.buffer
    && |c.buffer| <= CAPACITY
    && |c.log| == Dropped(c.log) + |c.handled| + |InHand(c)| + |c.buffer|
  }

  ghost predicate Inv<M>(q: Topics<M>) {
    forall t, i :: t in q && 0 <= i < |q[t]| ==> Conserved(q[t][i])
  }

  lemma OfferConserves<M>(c: Channel<M>, m: M)
    requires Conserved(c)
    ensures Conserved(Offered(c, m))
  {
    var c' := Offered(c, m);
    assert c'.log[..|c'.log| - 1] == c.log;
    assert c.handled + InHand(c) + (c.buffer + [m]) == c.handled + InHand(c) + c.buffer + [m];
  }

  lemma TakeConserves<M>(c: Channel<M>)
    requires Conserved(c) && c.inHand == None && c.buffer != []
    ensures Conserved(Taken(c))
  {
    assert c.handled + [] + c.buffer == c.handled + [c.buffer[0]] + c.buffer[1..];
  }

  lemma FinishConserves<M>(c: Channel<M>)
    requires Conserved(c) && c.inHand.Some?
    ensures Conserved(Finished(c))
  {
    assert c.handled + [c.inHand.value] + [] + c.buffer == c.handled + [c.inHand.value] + c.buffer;
  }

  lemma NextConserves<M>(q: Topics<M>, e: Event<M>)
    requires Inv(q) && Legal(q, e)
    ensures Inv(Next(q, e))
  {
    var cs := ChannelsOf(q, e.topic);
    match e
    case Subscribe(_) =>
    case Offer(t, i, m) => OfferConserves(cs[i], m);
    case Take(t, i) => TakeConserves(cs[i]);
    case Finish(t, i) => FinishConserves(cs[i]);
  }

  lemma {:induction false} RunConserves<M>(q: Topics<M>, es: seq<Event<M>>)
    requires Inv(q) && LegalRun(q, es)
    ensures Inv(Run(q, es))
    decreases |es|
  {
    if es != [] {
      NextConserves(q, es[0]);
      RunConserves(Next(q, es[0]), es[1..]);
    }
  }

  // ---------- the log and the publishes of a run ----------

  /** The messages a run offers to one channel, in order. */
  function OffersTo<M>(es: seq<Event<M>>, topic: string, i: nat): seq<M> {
    if es == [] then []
    else (if es[0].Offer? && es[0].topic == topic && es[0].index == i then [es[0].message] else [])
         + OffersTo(es[1..], topic, i)
  }

  function Messages<M>(log: seq<(M, bool)>): seq<M> {
    seq(|log|, k requires 0 <= k < |log| => log[k].0)
  }

  /** What a channel has logged; nothing before it is subscribed. */
  function Logged<M>(q: Topics<M>, topic: string, i: nat): seq<M> {
    if i < |ChannelsOf(q, topic)| then Messages(ChannelsOf(q, topic)[i].log) else []
  }

  lemma StepLogs<M>(q: Topics<M>, e: Event<M>, topic: string, i: nat)
    requires Legal(q, e)
    ensures Logged(Next(q, e), topic, i)
         == Logged(q, topic, i)
          + if e.Offer? && e.topic == topic && e.index == i then [e.message] else []
  {
    if e.Offer? && e.topic == topic && e.index == i {
      var c := ChannelsOf(q, topic)[i];
      assert Messages(Offered(c, e.message).log) == Messages(c.log) + [e.message];
    }
  }

  /** A channel's log is what the run offered to it. */
  lemma {:induction false} LogIsWhatWasOffered<M>(q: Topics<M>, es: seq<Event<M>>, topic: string, i: nat)
    requires LegalRun(q, es)
    ensures Logged(Run(q, es), topic, i) == Logged(q, topic, i) + OffersTo(es, topic, i)
    decreases |es|
  {
    if es != [] {
      StepLogs(q, es[0], topic, i);
      LogIsWhatWasOffered(Next(q, es[0]), es[1..], topic, i);
    }
  }

  /** The messages kept, given for each whether it was accepted. */
  function Kept<M>(ms: seq<M>, accepted: seq<bool>): seq<M>
    requires |ms| == |accepted|
  {
    if ms == [] then []
    else Kept(ms[..|ms| - 1], accepted[..|ms| - 1]) + if accepted[|ms| - 1] then [ms[|ms| - 1]] else []
  }

  function Verdicts<M>(log: seq<(M, bool)>): seq<bool> {
    seq(|log|, k requires 0 <= k < |log| => log[k].1)
  }

  lemma {:induction false} AcceptedIsKept<M>(log: seq<(M, bool)>)
    ensures Accepted(log) == Kept(Messages(log), Verdicts(log))
  {
    if log != [] {
      var n := |log| - 1;
      AcceptedIsKept(log[..n]);
      assert Messages(log)[..n] == Messages(log[..n]) && Verdicts(log)[..n] == Verdicts(log[..n]);
    }
  }

  /** For every subscriber and every interleaving of publishes and consumes:
      what it has handled, what it has in hand and what is buffered for it are,
      in this order, exactly the messages the run has offered to it since it
      subscribed, with the dropped ones taken out. So nothing is delivered twice,
      out of order, or lost silently; the buffer never exceeds its capacity; and
      the next message is dropped exactly if 256 accepted ones still wait. */
  lemma DeliveryIsPublishOrderWithoutDrops<M>(es: seq<Event<M>>, topic: string, i: nat, m: M)
    requires LegalRun<M>(map[], es) && i < |ChannelsOf(Run<M>(map[], es), topic)|
    ensures var c := ChannelsOf(Run<M>(map[], es), topic)[i];
      var offered, accepted := OffersTo(es, topic, i), Verdicts(c.log);
      && |offered| == |accepted|
      && c.handled + InHand(c) + c.buffer == Kept(offered, accepted)
      && |offered| == |c.handled| + |InHand(c)| + |c.buffer| + Dropped(c.log)
      && |c.buffer| <= 256
      && (Offered(c, m).buffer == c.buffer <==> |Kept(offered, accepted)| - |c.handled| - |InHand(c)| == 256)
  {
    RunConserves<M>(map[], es);
    LogIsWhatWasOffered<M>(map[], es, topic, i);
    var c := ChannelsOf(Run<M>(map[], es), topic)[i];
    assert Conserved(c);
    var offered := OffersTo(es, topic, i);
    assert Logged<M>(map[], topic, i) == [] && [] + offered == offered;
    assert Messages(c.log) == offered;
    AcceptedIsKept(c.log);
    AcceptedCounts(c.log);
  }

  /** What publishing does: one offer to each channel of the topic, in turn. */
  function PublishSteps<M>(topic: string, m: M, from: nat, count: nat): seq<Event<M>>
    requires from <= count
    decreases count - from
  {
    if from == count then [] else [Offer(topic, from, m)] + PublishSteps(topic, m, from + 1, count)
  }

  /** From the moment the first `from` channels have been offered the message. */
  lemma {:induction false} PublishIsARunOfOffers<M>(
      before: seq<Channel<M>>, q: Topics<M>, topic: string, m: M, from: nat, after: Topics<M>)
    requires topic in q && |q[topic]| == |before| && from <= |before|
    requires forall i :: 0 <= i < |before| ==> q[topic][i] == if i < from then Offered(before[i], m) else before[i]
    requires topic in after && after == q[topic := after[topic]] && |after[topic]| == |before|
    requires forall i :: 0 <= i < |before| ==> after[topic][i] == Offered(before[i], m)
    ensures LegalRun(q, PublishSteps(topic, m, from, |before|))
    ensures Run(q, PublishSteps(topic, m, from, |before|)) == after
    decreases |before| - from
  {
    if from == |before| {
      assert q[topic] == after[topic];
      assert q == after;
    } else {
      var e: Event<M> := Offer(topic, from, m);
      var steps := PublishSteps(topic, m, from + 1, |before|);
      assert ([e] + steps)[1..] == steps;
      PublishIsARunOfOffers(before, Next(q, e), topic, m, from + 1, after);
    }
  }

  // ---------- the queue, updated in place ----------

  class PubSub<M> {
    var subscribers: Topics<M>

    constructor ()
      ensures subscribers == map[]
    {
      subscribers := map[];
    }

    /** Undisturbed, a publish offers its message once to every channel of its
        topic, dropping it exactly where the buffer is full, and touches no
        other topic. */
    method Publish(topic: string, m: M)
      modifies this
      ensures subscribers.Keys == old(subscribers).Keys
      ensures forall t :: t in subscribers && t != topic ==> subscribers[t] == old(subscribers)[t]
      ensures |ChannelsOf(subscribers, topic)| == |ChannelsOf(old(subscribers), topic)|
      ensures forall i :: 0 <= i < |ChannelsOf(subscribers, topic)| ==>
        ChannelsOf(subscribers, topic)[i] == Offered(ChannelsOf(old(subscribers), topic)[i], m)
      ensures var steps := PublishSteps(topic, m, 0, |ChannelsOf(old(subscribers), topic)|);
        LegalRun(old(subscribers), steps) && Run(old(subscribers), steps) == subscribers
    {
      if topic !in subscribers { return; }
      var cs := subscribers[topic];
      for i := 0 to |cs|
        invariant |cs| == |old(subscribers)[topic]|
        invariant forall j :: 0 <= j < i ==> cs[j] == Offered(old(subscribers)[topic][j], m)
        invariant forall j :: i <= j < |cs| ==> cs[j] == old(subscribers)[topic][j]
      {
        var c := cs[i];
        if |c.buffer| < CAPACITY {
          cs := cs[i := Channel(c.log + [(m, true)], c.buffer + [m], c.inHand, c.handled)];
        } else {
          cs := cs[i := Channel(c.log + [(m, false)], c.buffer, c.inHand, c.handled)];
        }
      }
      subscribers := subscribers[topic := cs];
      PublishIsARunOfOffers(old(subscribers)[topic], old(subscribers), topic, m, 0, subscribers);
    }

    method AddSubscriber(topic: string) returns (index: nat)
      modifies this
      ensures subscribers == Next(old(subscribers), Subscribe(topic))
      ensures index == |ChannelsOf(old(subscribers), topic)|
    {
      if topic !in subscribers { subscribers := subscribers[topic := []]; }
      index := |subscribers[topic]|;
      subscribers := subscribers[topic := subscribers[topic] + [Channel([], [], None, [])]];
    }

    /** One round of the consumer loop. */
    method Consume(topic: string, index: nat) returns (m: M)
      requires Legal(subscribers, Take(topic, index))
      modifies this
      ensures LegalRun(old(subscribers), [Take(topic, index), Finish(topic, index)])
      ensures subscribers == Run(old(subscribers), [Take(topic, index), Finish(topic, index)])
      ensures m == old(subscribers)[topic][index].buffer[0]
    {
      ghost var q := subscribers;
      var c := subscribers[topic][index];
      m := c.buffer[0];
      subscribers := subscribers[topic := subscribers[topic][index := c.(inHand := Some(m), buffer := c.buffer[1..])]];
      ghost var q1 := subscribers;
      c := subscribers[topic][index];
      subscribers := subscribers[topic := subscribers[topic][index := c.(inHand := None, handled := c.handled + [m])]];
      ghost var es: seq<Event<M>> := [Take(topic, index), Finish(topic, index)];
      assert es[1..] == [es[1]] && es[1..][1..] == [];
      assert LegalRun(Next(q1, es[1]), es[1..][1..]) && Run(q1, es[1..]) == Next(q1, es[1]);
    }
  }
}
