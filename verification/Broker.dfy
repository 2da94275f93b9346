/** app/pubsub/broker.py: fan-out of events to one bounded queue per consumer. */
module Broker {
  import opened Names
  import opened MapSum
  import opened Snapshot
  import opened Queue

  /** `retired` is history: the queues `remove_consumer` discarded. `puts` and `drops` are the hub metrics. */
  datatype BrokerState = BrokerState(
    maxsize: int,
    subscribers: map<Topic, set<ConsumerId>>,
    queues: map<ConsumerId, QueueState>,
    created: nat,
    retired: seq<QueueState>,
    puts: nat,
    drops: nat)

  function Empty(maxsize: int): BrokerState {
    BrokerState(maxsize, map[], map[], 0, [], 0, 0)
  }

  function Bucket(subscribers: map<Topic, set<ConsumerId>>, t: Topic): set<ConsumerId> {
    if t in subscribers then subscribers[t] else {}
  }

  predicate Attached(b: BrokerState, t: Topic, c: ConsumerId) {
    c in Bucket(b.subscribers, t)
  }

  /** The state once `c` has a queue. */
  function WithQueue(b: BrokerState, c: ConsumerId): BrokerState {
    if c in b.queues then b
    else b.(queues := b.queues[c := NewQueue(b.created, b.maxsize)], created := b.created + 1)
  }

  /** `subscribe_consumer` */
  function Attach(b: BrokerState, t: Topic, c: ConsumerId): BrokerState {
    WithQueue(b, c).(subscribers := b.subscribers[t := Bucket(b.subscribers, t) + {c}])
  }

  /** `unsubscribe_consumer`: an empty bucket is deleted. */
  function Detach(b: BrokerState, t: Topic, c: ConsumerId): BrokerState {
    if Bucket(b.subscribers, t) == {} then b
    else if b.subscribers[t] - {c} == {} then b.(subscribers := b.subscribers - {t})
    else b.(subscribers := b.subscribers[t := b.subscribers[t] - {c}])
  }

  /** The buckets after `c` has been taken out of those of `topics`. */
  function Without(subscribers: map<Topic, set<ConsumerId>>, c: ConsumerId, topics: set<Topic>)
    : map<Topic, set<ConsumerId>>
  {
    map t | t in subscribers && !(t in topics && c in subscribers[t] && subscribers[t] - {c} == {}) ::
      if t in topics then subscribers[t] - {c} else subscribers[t]
  }

  lemma WithoutOneMore(subscribers: map<Topic, set<ConsumerId>>, c: ConsumerId, done: set<Topic>, t: Topic)
    requires t in subscribers && t !in done
    ensures var w := Without(subscribers, c, done);
      && t in w && w[t] == subscribers[t]
      && Without(subscribers, c, done + {t}) ==
        if c in subscribers[t] && subscribers[t] - {c} == {} then w - {t} else w[t := subscribers[t] - {c}]
  {
  }

  /** `remove_consumer` */
  function Remove(b: BrokerState, c: ConsumerId): BrokerState {
    b.(subscribers := Without(b.subscribers, c, b.subscribers.Keys),
       queues := b.queues - {c},
       retired := b.retired + if c in b.queues then [b.queues[c]] else [])
  }

  /** The consumers a published event reaches. */
  function Targets(b: BrokerState, t: Topic): set<ConsumerId> {
    set c | c in Bucket(b.subscribers, t) && c in b.queues
  }

  function FullAmong(queues: map<ConsumerId, QueueState>, cs: set<ConsumerId>): set<ConsumerId> {
    set c | c in cs && c in queues && Full(queues[c])
  }

  /** The queues after `e` has been put on those of `cs`. */
  function PutOnAll(queues: map<ConsumerId, QueueState>, cs: set<ConsumerId>, e: MarketEvent)
    : map<ConsumerId, QueueState>
  {
    map c | c in queues :: if c in cs then PutDropOldest(queues[c], e) else queues[c]
  }

  /** `publish` */
  function FanOut(b: BrokerState, t: Topic, e: MarketEvent): BrokerState {
    var cs := Targets(b, t);
    b.(queues := PutOnAll(b.queues, cs, e),
       puts := b.puts + |cs|,
       drops := b.drops + |FullAmong(b.queues, cs)|)
  }

  /** The pump's `queue.get`. */
  function ReadFrom(b: BrokerState, c: ConsumerId): BrokerState
    requires c in b.queues && b.queues[c].items != []
  {
    b.(queues := b.queues[c := Take(b.queues[c], true)])
  }

  // -------------------------------------------------------------- well-formedness

  ghost predicate ValidQueues(b: BrokerState) {
    && (forall c | c in b.queues ::
          ValidQueue(b.queues[c]) && b.queues[c].maxsize == b.maxsize && b.queues[c].serial < b.created)
    && (forall i | 0 <= i < |b.retired| :: ValidQueue(b.retired[i]) && b.retired[i].maxsize == b.maxsize)
  }

  /** Buckets are never empty, and whoever is in one has a queue. */
  ghost predicate ValidBuckets(b: BrokerState) {
    && (forall t | t in b.subscribers :: b.subscribers[t] != {})
    && (forall t, c | t in b.subscribers && c in b.subscribers[t] :: c in b.queues)
  }

  /** Queues of distinct consumers are distinct. */
  ghost predicate DistinctQueues(b: BrokerState) {
    forall c, d | c in b.queues && d in b.queues && c != d :: b.queues[c].serial != b.queues[d].serial
  }

  ghost predicate ValidBroker(b: BrokerState) {
    ValidQueues(b) && ValidBuckets(b) && DistinctQueues(b)
  }

  lemma BucketHasSubscriber(b: BrokerState, t: Topic)
    requires ValidBuckets(b) && t in b.subscribers
    ensures exists c :: Attached(b, t, c)
  {
    var c :| c in b.subscribers[t];
    assert Attached(b, t, c);
  }

  lemma AttachKeeps(b: BrokerState, t: Topic, c: ConsumerId)
    requires ValidBroker(b)
    ensures ValidBroker(Attach(b, t, c))
    ensures forall u, d :: Attached(Attach(b, t, c), u, d) <==> Attached(b, u, d) || (u == t && d == c)
    ensures Attach(b, t, c).queues.Keys == b.queues.Keys + {c}
    ensures forall d | d in b.queues :: Attach(b, t, c).queues[d] == b.queues[d]
  {
  }

  lemma DetachKeeps(b: BrokerState, t: Topic, c: ConsumerId)
    requires ValidBroker(b)
    ensures ValidBroker(Detach(b, t, c))
    ensures forall u, d :: Attached(Detach(b, t, c), u, d) <==> Attached(b, u, d) && !(u == t && d == c)
    ensures Detach(b, t, c).queues == b.queues
  {
  }

  lemma RemoveKeeps(b: BrokerState, c: ConsumerId)
    requires ValidBroker(b)
    ensures ValidBroker(Remove(b, c))
    ensures forall u, d :: Attached(Remove(b, c), u, d) <==> Attached(b, u, d) && d != c
    ensures Remove(b, c).queues == b.queues - {c}
  {
    var r := Remove(b, c);
    forall t | t in r.subscribers ensures r.subscribers[t] != {} {
      assert r.subscribers[t] == b.subscribers[t] - {c};
    }
    forall t, d | t in r.subscribers && d in r.subscribers[t] ensures d in r.queues {
      assert d in b.subscribers[t];
    }
  }

  /** One publish, seen from each queue: exactly one put on every subscriber's, none on any other. */
  lemma PublishIsolated(b: BrokerState, t: Topic, e: MarketEvent)
    requires ValidBroker(b)
    ensures Targets(b, t) == Bucket(b.subscribers, t)
    ensures FanOut(b, t, e).queues.Keys == b.queues.Keys
    ensures forall c | c in b.queues && Attached(b, t, c) ::
      var q := FanOut(b, t, e).queues[c];
      q.put == b.queues[c].put + [e] && Read(q) == Read(b.queues[c]) && ValidQueue(q)
    ensures forall c | c in b.queues && !Attached(b, t, c) :: FanOut(b, t, e).queues[c] == b.queues[c]
  {
    forall c | c in b.queues && Attached(b, t, c)
      ensures var q := FanOut(b, t, e).queues[c];
        q.put == b.queues[c].put + [e] && Read(q) == Read(b.queues[c]) && ValidQueue(q)
    {
      PutMoves(b.queues[c], e);
    }
  }

  lemma PublishKeeps(b: BrokerState, t: Topic, e: MarketEvent)
    requires ValidBroker(b)
    ensures ValidBroker(FanOut(b, t, e))
    ensures forall c | c in b.queues :: FanOut(b, t, e).queues[c].serial == b.queues[c].serial
  {
    var r := FanOut(b, t, e);
    forall c | c in b.queues
      ensures ValidQueue(r.queues[c]) && r.queues[c].maxsize == b.maxsize && r.queues[c].serial == b.queues[c].serial
    {
      PutMoves(b.queues[c], e);
    }
  }

  lemma ReadKeeps(b: BrokerState, c: ConsumerId)
    requires ValidBroker(b) && c in b.queues && b.queues[c].items != []
    ensures ValidBroker(ReadFrom(b, c))
  {
    TakeMoves(b.queues[c], true);
  }

  // ----------------------------------------------------------------- conservation

  function PutCount(q: QueueState): nat { |q.put| }
  function ReadCount(q: QueueState): nat { |Read(q)| }
  function DropCount(q: QueueState): nat { |Dropped(q)| }
  function QueuedCount(q: QueueState): nat { |q.items| }

  function Measured(queues: map<ConsumerId, QueueState>, f: QueueState -> nat): map<ConsumerId, nat> {
    map c | c in queues :: f(queues[c])
  }

  /** The sum of a measure over the live queues, and over the discarded ones. */
  ghost function Live(queues: map<ConsumerId, QueueState>, f: QueueState -> nat): nat {
    Sum(Measured(queues, f))
  }

  ghost function Past(qs: seq<QueueState>, f: QueueState -> nat): nat {
    if qs == [] then 0 else Past(qs[..|qs| - 1], f) + f(qs[|qs| - 1])
  }

  lemma LiveUpdate(queues: map<ConsumerId, QueueState>, f: QueueState -> nat, c: ConsumerId, q: QueueState)
    ensures Live(queues[c := q], f) + (if c in queues then f(queues[c]) else 0) == Live(queues, f) + f(q)
  {
    assert Measured(queues[c := q], f) == Measured(queues, f)[c := f(q)];
    SumUpdate(Measured(queues, f), c, f(q));
  }

  lemma LiveRemove(queues: map<ConsumerId, QueueState>, f: QueueState -> nat, c: ConsumerId)
    requires c in queues
    ensures Live(queues, f) == Live(queues - {c}, f) + f(queues[c])
  {
    assert Measured(queues - {c}, f) == Measured(queues, f) - {c};
    SumRemove(Measured(queues, f), c);
  }

  /** The metric counters agree with the histories of the live and the discarded queues. */
  ghost predicate Accounted(b: BrokerState) {
    && b.puts == Live(b.queues, PutCount) + Past(b.retired, PutCount)
    && b.drops == Live(b.queues, DropCount) + Past(b.retired, DropCount)
  }

  lemma {:induction false} LiveBalances(queues: map<ConsumerId, QueueState>)
    requires forall c | c in queues :: ValidQueue(queues[c])
    ensures Live(queues, PutCount) == Live(queues, ReadCount) + Live(queues, DropCount) + Live(queues, QueuedCount)
    decreases |queues|
  {
    if queues == map[] {
    } else {
      var c :| c in queues;
      var rest := queues - {c};
      assert rest.Keys == queues.Keys - {c};
      LiveBalances(rest);
      HistoryOf(queues[c]);
      LiveRemove(queues, PutCount, c);
      LiveRemove(queues, ReadCount, c);
      LiveRemove(queues, DropCount, c);
      LiveRemove(queues, QueuedCount, c);
    }
  }

  lemma {:induction false} PastBalances(qs: seq<QueueState>)
    requires forall i | 0 <= i < |qs| :: ValidQueue(qs[i])
    ensures Past(qs, PutCount) == Past(qs, ReadCount) + Past(qs, DropCount) + Past(qs, QueuedCount)
  {
    if qs != [] {
      PastBalances(qs[..|qs| - 1]);
      HistoryOf(qs[|qs| - 1]);
    }
  }

  /** Conservation: what the metrics count as put was read, dropped, is still queued, or was discarded. */
  lemma Conservation(b: BrokerState)
    requires ValidQueues(b) && Accounted(b)
    ensures b.puts == (Live(b.queues, ReadCount) + Past(b.retired, ReadCount))
                    + b.drops
                    + Live(b.queues, QueuedCount)
                    + Past(b.retired, QueuedCount)
  {
    LiveBalances(b.queues);
    PastBalances(b.retired);
  }

  lemma PutOnOneMore(queues: map<ConsumerId, QueueState>, cs: set<ConsumerId>, c: ConsumerId, e: MarketEvent)
    requires c in queues && c !in cs
    ensures PutOnAll(queues, cs + {c}, e) == PutOnAll(queues, cs, e)[c := PutDropOldest(queues[c], e)]
    ensures PutOnAll(queues, cs, e)[c] == queues[c]
    ensures |FullAmong(queues, cs + {c})| == |FullAmong(queues, cs)| + if Full(queues[c]) then 1 else 0
  {
    assert FullAmong(queues, cs + {c}) == FullAmong(queues, cs) + if Full(queues[c]) then {c} else {};
  }

  /** The deliveries of a fan-out one after the other, in a given order. */
  function DeliverInOrder(queues: map<ConsumerId, QueueState>, order: seq<ConsumerId>, e: MarketEvent)
    : map<ConsumerId, QueueState>
  {
    if order == [] then queues
    else
      var q, c := DeliverInOrder(queues, order[..|order| - 1], e), order[|order| - 1];
      if c in q then q[c := PutDropOldest(q[c], e)] else q
  }

  /** Whatever order the subscriber set is iterated in, the queues end up the same. */
  lemma {:induction false} FanOutOrderFree(queues: map<ConsumerId, QueueState>, order: seq<ConsumerId>, e: MarketEvent)
    requires forall i | 0 <= i < |order| :: order[i] in queues
    requires forall i, j | 0 <= i < j < |order| :: order[i] != order[j]
    ensures DeliverInOrder(queues, order, e) == PutOnAll(queues, (set c | c in order), e)
  {
    if order == [] {
      assert PutOnAll(queues, (set c | c in order), e) == queues;
    } else {
      var front, c := order[..|order| - 1], order[|order| - 1];
      FanOutOrderFree(queues, front, e);
      assert order == front + [c];
      assert (set d | d in order) == (set d | d in front) + {c};
      PutOnOneMore(queues, (set d | d in front), c, e);
    }
  }

  lemma {:induction false} PutOnAllCounts(queues: map<ConsumerId, QueueState>, cs: set<ConsumerId>, e: MarketEvent)
    requires forall c | c in queues :: ValidQueue(queues[c])
    requires cs <= queues.Keys
    ensures Live(PutOnAll(queues, cs, e), PutCount) == Live(queues, PutCount) + |cs|
    ensures Live(PutOnAll(queues, cs, e), DropCount) == Live(queues, DropCount) + |FullAmong(queues, cs)|
    decreases |cs|
  {
    if cs == {} {
      assert PutOnAll(queues, cs, e) == queues && FullAmong(queues, cs) == {};
    } else {
      var c :| c in cs;
      PutOnAllCounts(queues, cs - {c}, e);
      PutMoves(queues[c], e);
      var before := PutOnAll(queues, cs - {c}, e);
      var q := PutDropOldest(queues[c], e);
      assert cs - {c} + {c} == cs;
      PutOnOneMore(queues, cs - {c}, c, e);
      LiveUpdate(before, PutCount, c, q);
      LiveUpdate(before, DropCount, c, q);
    }
  }

  lemma PublishAccounts(b: BrokerState, t: Topic, e: MarketEvent)
    requires ValidBroker(b) && Accounted(b)
    ensures Accounted(FanOut(b, t, e))
  {
    PutOnAllCounts(b.queues, Targets(b, t), e);
  }

  lemma AttachAccounts(b: BrokerState, t: Topic, c: ConsumerId)
    requires Accounted(b)
    ensures Accounted(Attach(b, t, c))
  {
    if c !in b.queues {
      LiveUpdate(b.queues, PutCount, c, NewQueue(b.created, b.maxsize));
      LiveUpdate(b.queues, DropCount, c, NewQueue(b.created, b.maxsize));
    }
  }

  lemma RemoveAccounts(b: BrokerState, c: ConsumerId)
    requires Accounted(b)
    ensures Accounted(Remove(b, c))
  {
    if c in b.queues {
      LiveRemove(b.queues, PutCount, c);
      LiveRemove(b.queues, DropCount, c);
      assert (b.retired + [b.queues[c]])[..|b.retired|] == b.retired;
    } else {
      assert b.queues - {c} == b.queues && b.retired + [] == b.retired;
    }
  }

  lemma ReadAccounts(b: BrokerState, c: ConsumerId)
    requires ValidBroker(b) && Accounted(b) && c in b.queues && b.queues[c].items != []
    ensures Accounted(ReadFrom(b, c))
  {
    TakeMoves(b.queues[c], true);
    LiveUpdate(b.queues, PutCount, c, Take(b.queues[c], true));
    LiveUpdate(b.queues, DropCount, c, Take(b.queues[c], true));
  }

  lemma PutOnNone(queues: map<ConsumerId, QueueState>, e: MarketEvent)
    ensures PutOnAll(queues, {}, e) == queues && FullAmong(queues, {}) == {}
  {
  }

  lemma NoneLeft<T>(all: set<T>, remaining: set<T>)
    requires remaining == {}
    ensures all - remaining == all
  {
  }

  lemma OneFewer<T>(all: set<T>, remaining: set<T>, x: T)
    requires x in remaining && remaining <= all
    ensures all - (remaining - {x}) == all - remaining + {x}
    ensures x !in all - remaining
  {
  }

  // ------------------------------------------------------------------- the class

  /** `HubMetrics`: the two counters the broker maintains (app/runtime.py:22-50). */
  class HubMetrics {
    var puts: nat
    var drops: nat

    constructor ()
      ensures puts == 0 && drops == 0
    {
      puts, drops := 0, 0;
    }
  }

  class PubSubBroker {
    const maxsize: int
    const metrics: HubMetrics
    var subscribers: map<Topic, set<ConsumerId>>
    var queues: map<ConsumerId, BoundedQueue>
    /** What the broker stands for, with its history. */
    ghost var model: BrokerState
    ghost var Repr: set<object>

    /** No two consumers share a queue object, and no queue is over its bound. */
    ghost predicate Distinct()
      reads this`queues, queues.Values
    {
      && (forall c, d | c in queues && d in queues && c != d :: queues[c] != queues[d])
      && (forall c | c in queues :: queues[c].Valid())
    }

    ghost predicate Stands(queueStates: map<ConsumerId, QueueState>)
      reads this`queues, queues.Values
    {
      queueStates.Keys == queues.Keys && forall c | c in queues :: queues[c].View() == queueStates[c]
    }

    ghost predicate Valid()
      reads this, Repr
    {
      && this in Repr && metrics in Repr
      && (forall c | c in queues :: queues[c] in Repr)
      && Distinct() && Stands(model.queues)
      && model.maxsize == maxsize && model.subscribers == subscribers
      && model.puts == metrics.puts && model.drops == metrics.drops
    }

    constructor (maxsize: int)
      ensures Valid() && fresh(Repr) && model == Empty(maxsize)
      ensures this.maxsize == maxsize && model.maxsize == maxsize
    {
      this.maxsize := maxsize;
      metrics := new HubMetrics();
      subscribers, queues := map[], map[];
      model := Empty(maxsize);
      Repr := {this, metrics};
    }

    method SubscribeConsumer(t: Topic, c: ConsumerId)
      requires Valid()
      modifies this
      ensures Valid() && fresh(Repr - old(Repr))
      ensures forall d | d in old(queues) :: d in queues && queues[d] == old(queues)[d]
      ensures model == Attach(old(model), t, c)
    {
      if c !in queues {
        OpenQueue(c);
      }
      JoinBucket(t, c);
    }

    method JoinBucket(t: Topic, c: ConsumerId)
      requires Valid()
      modifies this`subscribers, this`model
      ensures Valid()
      ensures model == old(model).(subscribers := model.subscribers)
      ensures model.subscribers == old(model).subscribers[t := Bucket(old(model).subscribers, t) + {c}]
    {
      subscribers := subscribers[t := (if t in subscribers then subscribers[t] else {}) + {c}];
      model := model.(subscribers := subscribers);
    }

    method OpenQueue(c: ConsumerId)
      requires Valid() && c !in queues
      modifies this`queues, this`model, this`Repr
      ensures Valid() && c in queues && queues == old(queues)[c := queues[c]]
      ensures Repr == old(Repr) + {queues[c]} && fresh(queues[c])
      ensures model == WithQueue(old(model), c)
    {
      var queue := new BoundedQueue(maxsize, model.created);
      queues, Repr := queues[c := queue], Repr + {queue};
      model := WithQueue(model, c);
    }

    method UnsubscribeConsumer(t: Topic, c: ConsumerId)
      requires Valid()
      modifies this`subscribers, this`model
      ensures Valid() && Repr == old(Repr)
      ensures model == Detach(old(model), t, c)
    {
      if t !in subscribers || subscribers[t] == {} {
        return;
      }
      var subs := subscribers[t] - {c};
      if subs == {} {
        subscribers := subscribers - {t};
      } else {
        subscribers := subscribers[t := subs];
      }
      model := Detach(model, t, c);
    }

    method RemoveConsumer(c: ConsumerId)
      requires Valid()
      modifies this
      ensures Valid() && Repr == old(Repr) && queues == old(queues) - {c}
      ensures model == Remove(old(model), c)
    {
      LeaveBuckets(c);
      queues := queues - {c};
      model := Remove(model, c);
    }

    /** The loop over the buckets, deleting the ones it empties. */
    method LeaveBuckets(c: ConsumerId)
      modifies this`subscribers
      ensures subscribers == Without(old(subscribers), c, old(subscribers).Keys)
    {
      var remaining := subscribers.Keys;
      ghost var before, done := subscribers, {};
      assert subscribers == Without(before, c, {});
      while remaining != {}
        invariant remaining <= before.Keys && done == before.Keys - remaining
        invariant subscribers == Without(before, c, done)
        decreases remaining
      {
        var t :| t in remaining;
        OneFewer(before.Keys, remaining, t);
        WithoutOneMore(before, c, done, t);
        if c in subscribers[t] {
          var subs := subscribers[t] - {c};
          if subs == {} {
            subscribers := subscribers - {t};
          } else {
            subscribers := subscribers[t := subs];
          }
        } else {
          assert subscribers[t] - {c} == subscribers[t] && subscribers[t := subscribers[t]] == subscribers;
        }
        remaining, done := remaining - {t}, done + {t};
      }
      assert done == before.Keys;
    }

    /** Fan out to the subscribers of `t`, in whatever order the set yields them. */
    method Publish(t: Topic, e: MarketEvent)
      requires Valid()
      modifies Repr
      ensures Valid() && Repr == old(Repr) && queues == old(queues)
      ensures model == FanOut(old(model), t, e)
    {
      var targets := set c | c in (if t in subscribers then subscribers[t] else {}) && c in queues;
      assert targets == Targets(model, t);
      ghost var after := FanOut(model, t, e);
      DeliverAll(targets, e, model.queues);
      assert Stands(after.queues);
      model := after;
    }

    method DeliverAll(targets: set<ConsumerId>, e: MarketEvent, ghost states: map<ConsumerId, QueueState>)
      requires Distinct() && Stands(states) && targets <= queues.Keys
      modifies metrics, queues.Values
      ensures Distinct() && Stands(PutOnAll(states, targets, e))
      ensures metrics.puts == old(metrics.puts) + |targets|
      ensures metrics.drops == old(metrics.drops) + |FullAmong(states, targets)|
    {
      var remaining := targets;
      ghost var done := {};
      PutOnNone(states, e);
      while remaining != {}
        invariant remaining <= targets && done == targets - remaining
        invariant Distinct() && Stands(PutOnAll(states, done, e))
        invariant metrics.puts == old(metrics.puts) + |done|
        invariant metrics.drops == old(metrics.drops) + |FullAmong(states, done)|
        decreases remaining
      {
        var c :| c in remaining;
        OneFewer(targets, remaining, c);
        PutOnOneMore(states, done, c, e);
        Deliver(c, e, PutOnAll(states, done, e));
        remaining, done := remaining - {c}, done + {c};
      }
      NoneLeft(targets, remaining);
    }

    /** One delivery of a fan-out: no other consumer's queue is touched. */
    method Deliver(c: ConsumerId, e: MarketEvent, ghost states: map<ConsumerId, QueueState>)
      requires Distinct() && Stands(states) && c in queues
      modifies metrics, queues[c]
      ensures Distinct() && Stands(states[c := PutDropOldest(states[c], e)])
      ensures metrics.puts == old(metrics.puts) + 1
      ensures metrics.drops == old(metrics.drops) + if Full(states[c]) then 1 else 0
    {
      var retry := EnqueueDropOldest(queues[c], e);
    }

    /**
     * Drop the oldest item if the queue is full, then put. `retry` reports whether the put still
     * found the queue full, the case the source answers by dropping again: it never does.
     */
    method EnqueueDropOldest(queue: BoundedQueue, e: MarketEvent) returns (retry: bool)
      requires queue.Valid()
      modifies metrics, queue
      ensures queue.Valid()
      ensures !retry
      ensures queue.View() == PutDropOldest(old(queue.View()), e)
      ensures metrics.puts == old(metrics.puts) + 1
      ensures metrics.drops == old(metrics.drops) + if Full(old(queue.View())) then 1 else 0
    {
      if queue.IsFull() {
        var oldest := queue.GetNowait(false);
        if oldest.Some? {
          metrics.drops := metrics.drops + 1;
        }
      }
      var ok := queue.PutNowait(e);
      if ok {
        metrics.puts := metrics.puts + 1;
      }
      retry := !ok;
    }

    /** `queue.get` by the pump that holds the queue of `c`. */
    method PumpGet(c: ConsumerId, queue: BoundedQueue) returns (item: MarketEvent)
      requires Valid() && c in queues && queues[c] == queue && queue.items != []
      modifies Repr
      ensures Valid() && Repr == old(Repr) && queues == old(queues)
      ensures c in old(model).queues && old(model).queues[c].items != []
      ensures item == old(model).queues[c].items[0] && model == ReadFrom(old(model), c)
    {
      item := Get(c, model.queues);
      model := ReadFrom(model, c);
    }

    /** One read: no other consumer's queue is touched. */
    method Get(c: ConsumerId, ghost states: map<ConsumerId, QueueState>) returns (item: MarketEvent)
      requires Distinct() && Stands(states) && c in queues && queues[c].items != []
      modifies queues[c]
      ensures Distinct() && states[c].items != [] && Stands(states[c := Take(states[c], true)])
      ensures item == states[c].items[0]
    {
      var r := queues[c].GetNowait(true);
      item := r.value;
    }

    method GetConsumerQueue(c: ConsumerId) returns (queue: Option<BoundedQueue>)
      ensures queue == if c in queues then Some(queues[c]) else None
    {
      queue := if c in queues then Some(queues[c]) else None;
    }
  }
}
