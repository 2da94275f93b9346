/** What every step of the hub keeps: the data plane, from the snapshot rows to the queues. */
module HubData {
  import opened Names
  import opened Registry
  import opened Snapshot
  import opened Queue
  import Broker
  import Client
  import opened Hub
  import opened HubInvariant
  import opened HubRuns

  type Since = map<(ConsumerId, Topic), Baseline>

  /** The stream never runs ahead of the snapshot: the topic's row is at least as recent. */
  ghost predicate NotAhead(store: Store, put: seq<MarketEvent>) {
    forall i | 0 <= i < |put| :: put[i].topic in store && put[i].receivedAt.Utc() <= store[put[i].topic].updatedAt
  }

  ghost predicate StoreLeads(store: Store, b: Broker.BrokerState) {
    && (forall c | c in b.queues :: NotAhead(store, b.queues[c].put))
    && (forall i | 0 <= i < |b.retired| :: NotAhead(store, b.retired[i].put))
  }

  /** Replaying what was put for `t` since the subscribe onto the row of that moment gives the row of now. */
  ghost predicate DeltasCatchUp(store: Store, put: seq<MarketEvent>, t: Topic, base: Baseline) {
    base.mark <= |put| && FoldRow(base.row, Project(put[base.mark..], t)) == RowOf(store, t)
  }

  /** Every current subscription, and no other, has a baseline from which the deltas catch up. */
  ghost predicate SinceRight(m: Subscriptions, store: Store, queues: map<ConsumerId, QueueState>, since: Since) {
    && (forall c, t :: (c, t) in since <==> Holds(m, c, t))
    && (forall c, t | (c, t) in since :: c in queues && DeltasCatchUp(store, queues[c].put, t, since[(c, t)]))
  }

  ghost predicate Data(s: HubState) {
    StoreLeads(s.store, s.broker) && SinceRight(s.registry, s.store, s.broker.queues, s.since)
  }

  // ------------------------------------------------------------------ one event

  lemma ApplyAdvances(store: Store, e: MarketEvent, put: seq<MarketEvent>)
    requires NotAhead(store, put)
    ensures NotAhead(Apply(store, e), put) && NotAhead(Apply(store, e), put + [e])
  {
    var r := Apply(store, e);
    forall i | 0 <= i < |put + [e]|
      ensures (put + [e])[i].topic in r && (put + [e])[i].receivedAt.Utc() <= r[(put + [e])[i].topic].updatedAt
    {
      if i < |put| {
        assert put[i].topic in store;
      }
    }
  }

  /** A subscriber of the event's topic gets it; any other baseline is about another topic. */
  lemma DeltaExtends(store: Store, e: MarketEvent, put: seq<MarketEvent>, t: Topic, base: Baseline)
    requires DeltasCatchUp(store, put, t, base)
    ensures DeltasCatchUp(Apply(store, e), put + [e], t, base)
    ensures t != e.topic ==> DeltasCatchUp(Apply(store, e), put, t, base)
  {
    assert (put + [e])[base.mark..] == put[base.mark..] + [e];
    ProjectAppend(put[base.mark..], e, t);
    FoldRowAppend(base.row, Project(put[base.mark..], t), e);
  }

  lemma DispatchLeads(s: HubState, e: MarketEvent)
    requires StoreLeads(s.store, s.broker)
    ensures StoreLeads(OnDispatch(s, e).store, OnDispatch(s, e).broker)
  {
    if e.topic in s.client.topics {
      var r := OnDispatch(s, e);
      forall c | c in r.broker.queues ensures NotAhead(r.store, r.broker.queues[c].put) {
        ApplyAdvances(s.store, e, s.broker.queues[c].put);
      }
      forall i | 0 <= i < |r.broker.retired| ensures NotAhead(r.store, r.broker.retired[i].put) {
        ApplyAdvances(s.store, e, s.broker.retired[i].put);
      }
    }
  }

  /** What a fan-out puts on one queue. */
  lemma FanOutPuts(b: Broker.BrokerState, e: MarketEvent, c: ConsumerId)
    requires c in b.queues
    ensures c in Broker.FanOut(b, e.topic, e).queues
    ensures Broker.FanOut(b, e.topic, e).queues[c].put ==
      if Broker.Attached(b, e.topic, c) then b.queues[c].put + [e] else b.queues[c].put
  {
  }

  lemma DispatchCatchesUp(s: HubState, e: MarketEvent)
    requires Agree(s.registry, s.broker) && SinceRight(s.registry, s.store, s.broker.queues, s.since)
    ensures SinceRight(s.registry, Apply(s.store, e), Broker.FanOut(s.broker, e.topic, e).queues, s.since)
  {
    var queues := Broker.FanOut(s.broker, e.topic, e).queues;
    forall c, t | (c, t) in s.since
      ensures c in queues && DeltasCatchUp(Apply(s.store, e), queues[c].put, t, s.since[(c, t)])
    {
      FanOutPuts(s.broker, e, c);
      DeltaExtends(s.store, e, s.broker.queues[c].put, t, s.since[(c, t)]);
      assert Holds(s.registry, c, t) && (Broker.Attached(s.broker, t, c) <==> Holds(s.registry, c, t));
    }
  }

  // --------------------------------------------------------------- handler steps

  lemma AddPairData(s: HubState, c: ConsumerId, t: Topic)
    requires Data(s) && c in s.registry
    ensures Data(AddPair(s, c, t))
  {
    var r := AddPair(s, c, t);
    forall d, u | (d, u) in r.since
      ensures d in r.broker.queues && DeltasCatchUp(r.store, r.broker.queues[d].put, u, r.since[(d, u)])
    {
      if (d, u) !in s.since {
        var put := r.broker.queues[c].put;
        assert put[|put|..] == [];
      }
    }
  }

  lemma DropPairData(s: HubState, c: ConsumerId, t: Topic)
    requires Data(s)
    ensures Data(DropPair(s, c, t))
  {
    assert DropPair(s, c, t).broker.queues == s.broker.queues;
  }

  lemma RemoveLeads(store: Store, b: Broker.BrokerState, c: ConsumerId)
    requires StoreLeads(store, b)
    ensures StoreLeads(store, Broker.Remove(b, c))
  {
    var r := Broker.Remove(b, c);
    forall i | 0 <= i < |r.retired| ensures NotAhead(store, r.retired[i].put) {
      if i < |b.retired| {
        assert r.retired[i] == b.retired[i];
      }
    }
  }

  lemma UnregisteredData(s: HubState, c: ConsumerId)
    requires Data(s)
    ensures Data(Unregistered(s, c))
  {
    RemoveLeads(s.store, s.broker, c);
  }

  lemma SameData(s: HubState, r: HubState)
    requires Data(s) && r.registry == s.registry && r.store == s.store && r.broker == s.broker && r.since == s.since
    ensures Data(r)
  {
  }

  lemma ContinueCleanupData(s: HubState, c: ConsumerId, topics: seq<Topic>, final: map<Topic, nat>)
    requires Data(s)
    ensures Data(ContinueCleanup(s, c, topics, final))
  {
    SameData(s, ContinueCleanup(s, c, topics, final));
  }

  lemma HandlerData(s: HubState, l: Label)
    requires Data(s) && Enabled(s, l) && (l.Subscribe? || l.Unsubscribe? || l.Disconnect?)
    ensures Data(Next(s, l))
  {
    match l {
      case Subscribe(c, t) =>
        if c in s.registry {
          AddPairData(s, c, t);
          SameData(AddPair(s, c, t), OnSubscribe(s, c, t));
        }
      case Unsubscribe(c, t) =>
        DropPairData(s, c, t);
        SameData(DropPair(s, c, t), OnUnsubscribe(s, c, t));
      case Disconnect(c) =>
        if c in s.broken {
          SameData(s, Abandon(s, c));
        } else {
          UnregisteredData(s, c);
          ContinueCleanupData(Unregistered(s, c), c, Sorted(TopicsOf(s.registry, c)), Counts(s.registry - {c}));
        }
    }
  }

  lemma ResumeData(s: HubState, owner: Client.Owner, raised: bool)
    requires Data(s)
    ensures Data(Resume(s, owner, raised))
  {
    if owner.Handler? && owner.consumer in s.tasks {
      var c := owner.consumer;
      match s.tasks[c] {
        case Subscribing(t) =>
          if raised {
            DropPairData(s, c, t);
            SameData(DropPair(s, c, t), Rollback(s, c, t));
          } else {
            SameData(s, Resume(s, owner, raised));
          }
        case Cleaning(rest, final) => ContinueCleanupData(s, c, rest, final);
        case _ => SameData(s, Resume(s, owner, raised));
      }
    }
  }

  lemma TurnData(s: HubState, result: SendResult)
    requires Data(s) && Enabled(s, LockTurn(result))
    ensures Data(OnLockTurn(s, result))
  {
    if s.client.waiters[0].Send? && !Begins(s.client) {
      var delivered, raised := s.client.sending && result == Sent, s.client.sending && result == Raised;
      TurnFinishes(s, result);
      RetiredShape(s, delivered, raised);
      SameData(s, Retired(s, delivered, raised));
      ResumeData(Retired(s, delivered, raised), s.client.waiters[0].owner, raised);
    } else {
      SetWsShape(s, result);
      SameData(s, OnLockTurn(s, result));
    }
  }

  lemma ConnectData(s: HubState, c: ConsumerId)
    requires Data(s) && c !in s.registry
    ensures Data(OnConnect(s, c))
  {
    assert forall d, t :: Holds(OnConnect(s, c).registry, d, t) <==> Holds(s.registry, d, t);
  }

  lemma PumpReadsData(s: HubState, c: ConsumerId)
    requires Data(s) && Enabled(s, PumpReads(c))
    ensures Data(Next(s, PumpReads(c)))
  {
    var r := Next(s, PumpReads(c));
    assert forall d | d in r.broker.queues :: d in s.broker.queues && r.broker.queues[d].put == s.broker.queues[d].put;
  }

  lemma NextData(s: HubState, l: Label)
    requires Control(s, None) && Data(s) && Enabled(s, l)
    ensures Data(Next(s, l))
  {
    if l.Connect? {
      ConnectData(s, l.c);
    } else if l.Subscribe? || l.Unsubscribe? || l.Disconnect? {
      HandlerData(s, l);
    } else if l.LockTurn? {
      TurnData(s, l.result);
    } else if l.Dispatch? {
      DispatchLeads(s, l.e);
      if l.e.topic in s.client.topics { DispatchCatchesUp(s, l.e); }
    } else if l.PumpReads? {
      PumpReadsData(s, l.c);
    } else {
      SameData(s, Next(s, l));
    }
  }

  lemma {:induction false} RunData(s: HubState, run: seq<Label>)
    requires Control(s, None) && Data(s) && Exec(s, run).Some?
    ensures Data(Exec(s, run).value)
  {
    if run != [] {
      RunData(s, run[..|run| - 1]);
      RunKeeps(s, run[..|run| - 1]);
      NextData(Exec(s, run[..|run| - 1]).value, run[|run| - 1]);
    }
  }

  lemma ReachableData(s: HubState)
    requires Reachable(s)
    ensures Control(s, None) && Data(s)
  {
    ReachableHolds(s);
    var maxsize, run :| Exec(Init(maxsize), run) == Some(s);
    InitHolds(maxsize);
    RunData(Init(maxsize), run);
  }

  // -------------------------------------------------------------------- theorems

  /** Of what was put from position `mark` on, what the consumer has read or still has queued. */
  function KeptSince(q: QueueState, mark: nat): seq<MarketEvent>
    requires |q.taken| <= |q.put| && mark <= |q.put|
  {
    if |q.taken| <= mark then q.put[mark..]
    else Select(q.put[mark..], q.taken[mark..], true) + q.items
  }

  predicate NoDropSince(q: QueueState, mark: nat) {
    forall i | mark <= i < |q.taken| :: q.taken[i]
  }

  lemma {:induction false} AllReadIsPrefix(put: seq<MarketEvent>, taken: seq<bool>)
    requires |taken| <= |put| && forall i | 0 <= i < |taken| :: taken[i]
    ensures Select(put, taken, true) == put[..|taken|]
  {
    if taken != [] {
      var n := |taken| - 1;
      AllReadIsPrefix(put, taken[..n]);
      assert put[..|taken|] == put[..n] + [put[n]];
    }
  }

  lemma NoDropMeansAllKept(q: QueueState, mark: nat)
    requires ValidQueue(q) && mark <= |q.put| && NoDropSince(q, mark)
    ensures KeptSince(q, mark) == q.put[mark..]
  {
    if |q.taken| > mark {
      AllReadIsPrefix(q.put[mark..], q.taken[mark..]);
      assert q.put[mark..] == q.put[mark..|q.taken|] + q.put[|q.taken|..];
      assert q.put[mark..][..|q.taken| - mark] == q.put[mark..|q.taken|];
    }
  }

  lemma SinceOf(s: HubState, c: ConsumerId, t: Topic)
    requires Data(s) && Holds(s.registry, c, t)
    ensures (c, t) in s.since && c in s.broker.queues
    ensures DeltasCatchUp(s.store, s.broker.queues[c].put, t, s.since[(c, t)])
  {
  }

  lemma QueueOf(s: HubState, c: ConsumerId)
    requires Structure(s) && c in s.broker.queues
    ensures ValidQueue(s.broker.queues[c])
  {
  }

  /**
   * Snapshot plus deltas: for a consumer holding `t` whose queue has dropped nothing since its
   * subscribe, applying the events of `t` that it has read or still has queued since then, in
   * order, to the row as of that subscribe gives the current row.
   */
  lemma SnapshotPlusDeltas(s: HubState, c: ConsumerId, t: Topic, base: Baseline, q: QueueState)
    requires Reachable(s) && Holds(s.registry, c, t)
    requires (c, t) in s.since ==> base == s.since[(c, t)]
    requires c in s.broker.queues ==> q == s.broker.queues[c]
    ensures (c, t) in s.since && c in s.broker.queues && ValidQueue(q) && base.mark <= |q.put|
    ensures NoDropSince(q, base.mark) ==> FoldRow(base.row, Project(KeptSince(q, base.mark), t)) == RowOf(s.store, t)
  {
    ReachableData(s);
    SinceOf(s, c, t);
    QueueOf(s, c);
    if NoDropSince(q, base.mark) {
      NoDropMeansAllKept(q, base.mark);
    }
  }

  /** An item of a queue, delivered or not, was put on it. */
  lemma ItemWasPut(q: QueueState, e: MarketEvent)
    requires ValidQueue(q) && (e in q.items || e in Read(q))
    ensures exists i :: 0 <= i < |q.put| && q.put[i] == e
  {
    if e in q.items {
      var i :| 0 <= i < |q.items| && q.items[i] == e;
      assert q.put[|q.taken| + i] == e;
    } else {
      var at := SelectInOrder(q.put, q.taken, true);
      var i :| 0 <= i < |Read(q)| && Read(q)[i] == e;
      assert q.put[at[i]] == e;
    }
  }

  /** A queue of the broker, or one that was discarded when its consumer left. */
  ghost predicate EverQueue(b: Broker.BrokerState, q: QueueState) {
    (exists c :: c in b.queues && b.queues[c] == q) || (exists i :: 0 <= i < |b.retired| && b.retired[i] == q)
  }

  /** Whatever is queued or was ever delivered is covered by the snapshot of its topic. */
  lemma StreamNeverAhead(s: HubState, q: QueueState, e: MarketEvent)
    requires Reachable(s) && EverQueue(s.broker, q) && (e in q.items || e in Read(q))
    ensures e.topic in s.store && e.receivedAt.Utc() <= s.store[e.topic].updatedAt
  {
    ReachableData(s);
    assert ValidQueue(q) && NotAhead(s.store, q.put);
    ItemWasPut(q, e);
  }

  lemma ResumeLeavesQueues(s: HubState, owner: Client.Owner, raised: bool)
    ensures Resume(s, owner, raised).broker.queues == s.broker.queues && Resume(s, owner, raised).store == s.store
  {
    if owner.Handler? && owner.consumer in s.tasks {
      match s.tasks[owner.consumer] {
        case Subscribing(t) =>
        case Cleaning(rest, final) =>
        case _ =>
      }
    }
  }

  lemma TurnLeavesQueues(s: HubState, result: SendResult)
    requires Enabled(s, LockTurn(result))
    ensures OnLockTurn(s, result).broker.queues == s.broker.queues && OnLockTurn(s, result).store == s.store
  {
    if s.client.waiters[0].Send? && !Begins(s.client) {
      var delivered, raised := s.client.sending && result == Sent, s.client.sending && result == Raised;
      TurnFinishes(s, result);
      RetiredShape(s, delivered, raised);
      ResumeLeavesQueues(Retired(s, delivered, raised), s.client.waiters[0].owner, raised);
    } else {
      SetWsShape(s, result);
    }
  }

  lemma HandlerLeavesPuts(s: HubState, l: Label, c: ConsumerId)
    requires Enabled(s, l) && (l.Subscribe? || l.Unsubscribe? || l.Disconnect?)
    requires c in s.broker.queues && c in Next(s, l).broker.queues
    ensures Next(s, l).broker.queues[c] == s.broker.queues[c] && Next(s, l).store == s.store
  {
    match l {
      case Subscribe(d, t) => if d in s.registry { AddPairLeaves(s, d, t); }
      case Unsubscribe(d, t) =>
      case Disconnect(d) => DisconnectLeaves(s, d);
    }
  }

  lemma AddPairLeaves(s: HubState, d: ConsumerId, t: Topic)
    requires d in s.registry
    ensures OnSubscribe(s, d, t).broker == Broker.Attach(s.broker, t, d) && OnSubscribe(s, d, t).store == s.store
  {
  }

  lemma DisconnectLeaves(s: HubState, c: ConsumerId)
    ensures OnDisconnect(s, c).broker == if c in s.broken then s.broker else Broker.Remove(s.broker, c)
    ensures OnDisconnect(s, c).store == s.store
  {
  }

  /** Only `Dispatch` puts anything on a queue or touches a row. */
  lemma OnlyDispatchPuts(s: HubState, l: Label, c: ConsumerId)
    requires Enabled(s, l) && !l.Dispatch? && c in s.broker.queues && c in Next(s, l).broker.queues
    ensures Next(s, l).broker.queues[c].put == s.broker.queues[c].put
    ensures Next(s, l).store == s.store
  {
    if l.Subscribe? || l.Unsubscribe? || l.Disconnect? {
      HandlerLeavesPuts(s, l, c);
    } else if l.LockTurn? {
      TurnLeavesQueues(s, l.result);
    }
  }

  lemma StoreAfter(s: HubState, l: Label)
    requires Enabled(s, l)
    ensures Next(s, l).store == if l.Dispatch? && l.e.topic in s.client.topics then Apply(s.store, l.e) else s.store
  {
    if l.LockTurn? {
      TurnLeavesQueues(s, l.result);
    } else if l.Disconnect? {
      DisconnectLeaves(s, l.c);
    }
  }

  /** No step replaces a queue, and only the consumer's own disconnect takes it away. */
  lemma StepKeepsQueue(s: HubState, l: Label, c: ConsumerId)
    requires Enabled(s, l) && c in s.broker.queues
    ensures c !in Next(s, l).broker.queues ==> l == Disconnect(c)
    ensures c in Next(s, l).broker.queues ==> Next(s, l).broker.queues[c].serial == s.broker.queues[c].serial
  {
    if l.LockTurn? {
      TurnLeavesQueues(s, l.result);
    } else if l.Disconnect? {
      DisconnectLeaves(s, l.c);
    } else if l.Subscribe? {
      if l.c in s.registry { AddPairLeaves(s, l.c, l.t); }
    }
  }

  /** Over any run without its own disconnect a consumer keeps one and the same queue. */
  lemma {:induction false} QueueNeverReplaced(s: HubState, run: seq<Label>, c: ConsumerId)
    requires Exec(s, run).Some? && c in s.broker.queues && Disconnect(c) !in run
    ensures var queues := Exec(s, run).value.broker.queues;
      c in queues && queues[c].serial == s.broker.queues[c].serial
  {
    if run != [] {
      QueueNeverReplaced(s, run[..|run| - 1], c);
      StepKeepsQueue(Exec(s, run[..|run| - 1]).value, run[|run| - 1], c);
    }
  }

  /** Over whole runs rows are never removed and their update time never goes back. */
  lemma {:induction false} RowsOnlyAdvance(s: HubState, run: seq<Label>, t: Topic)
    requires Exec(s, run).Some? && t in s.store
    ensures var r := Exec(s, run).value; t in r.store && s.store[t].updatedAt <= r.store[t].updatedAt
  {
    if run != [] {
      RowsOnlyAdvance(s, run[..|run| - 1], t);
      StoreAfter(Exec(s, run[..|run| - 1]).value, run[|run| - 1]);
    }
  }

  /** What a step puts on a queue that was there before. */
  lemma StepPuts(s: HubState, l: Label, c: ConsumerId)
    requires Control(s, None) && Enabled(s, l) && c in s.broker.queues && c in Next(s, l).broker.queues
    ensures var before, after := s.broker.queues[c].put, Next(s, l).broker.queues[c].put;
      after == before ||
      (l.Dispatch? && after == before + [l.e] && l.e.topic in s.client.topics && Holds(s.registry, c, l.e.topic))
  {
    if l.Dispatch? {
      if l.e.topic in s.client.topics { Broker.PublishIsolated(s.broker, l.e.topic, l.e); }
    } else {
      OnlyDispatchPuts(s, l, c);
    }
  }

  /** An event enters a consumer's queue only if it is in `_topics` and the consumer holds its topic. */
  lemma OnlyWantedIsPut(s: HubState, l: Label, c: ConsumerId)
    requires Reachable(s) && Enabled(s, l) && c in s.broker.queues && c in Next(s, l).broker.queues
    ensures var before, after := s.broker.queues[c].put, Next(s, l).broker.queues[c].put;
      after == before ||
      (l.Dispatch? && after == before + [l.e] && l.e.topic in s.client.topics && Holds(s.registry, c, l.e.topic))
  {
    ReachableHolds(s);
    StepPuts(s, l, c);
  }

  // ------------------------------------------------------------------ a lost topic

  lemma ResumeLeavesSerials(s: HubState, owner: Client.Owner, raised: bool)
    ensures Resume(s, owner, raised).broker.created == s.broker.created
    ensures Resume(s, owner, raised).broker.maxsize == s.broker.maxsize
  {
    if owner.Handler? && owner.consumer in s.tasks {
      match s.tasks[owner.consumer] {
        case Subscribing(t) =>
        case Cleaning(rest, final) =>
        case _ =>
      }
    }
  }

  lemma TurnLeavesSerials(s: HubState, result: SendResult)
    requires Enabled(s, LockTurn(result))
    ensures OnLockTurn(s, result).broker.created == s.broker.created
    ensures OnLockTurn(s, result).broker.maxsize == s.broker.maxsize
  {
    if s.client.waiters[0].Send? && !Begins(s.client) {
      var delivered, raised := s.client.sending && result == Sent, s.client.sending && result == Raised;
      TurnFinishes(s, result);
      RetiredShape(s, delivered, raised);
      ResumeLeavesSerials(Retired(s, delivered, raised), s.client.waiters[0].owner, raised);
    } else {
      SetWsShape(s, result);
    }
  }

  /** A queue that a step creates is empty and has a serial that no queue had before. */
  lemma StepCreates(s: HubState, l: Label)
    requires Enabled(s, l)
    ensures s.broker.created <= Next(s, l).broker.created
    ensures forall c | c in Next(s, l).broker.queues && c !in s.broker.queues ::
      Next(s, l).broker.queues[c].put == [] && Next(s, l).broker.queues[c].serial == s.broker.created
  {
    match l {
      case LockTurn(result) =>
        TurnLeavesSerials(s, result);
        TurnLeavesQueues(s, result);
      case Disconnect(c) => DisconnectLeaves(s, c);
      case Subscribe(c, t) => if c in s.registry { AddPairLeaves(s, c, t); }
      case _ =>
    }
  }

  /** What has been put on the queue `now` since `was` was the state of the queues. */
  function PutSince(was: map<ConsumerId, QueueState>, c: ConsumerId, now: QueueState): seq<MarketEvent> {
    if c in was && was[c].serial == now.serial && was[c].put <= now.put then now.put[|was[c].put|..] else now.put
  }

  ghost predicate NoneOf(es: seq<MarketEvent>, t: Topic) {
    forall i | 0 <= i < |es| :: es[i].topic != t
  }

  /** On `now`, the queue of `c`, nothing of `t` has been put since `was`. */
  ghost predicate Unheard(was: map<ConsumerId, QueueState>, c: ConsumerId, now: QueueState, t: Topic) {
    && (c in was && was[c].serial == now.serial ==> was[c].put <= now.put)
    && NoneOf(PutSince(was, c, now), t)
  }

  lemma UnheardExtends(was: map<ConsumerId, QueueState>, c: ConsumerId, q: QueueState, now: QueueState, t: Topic)
    requires Unheard(was, c, q, t) && now.serial == q.serial
    requires now.put == q.put || exists e: MarketEvent :: e.topic != t && now.put == q.put + [e]
    ensures Unheard(was, c, now, t)
  {
    if now.put != q.put {
      var e: MarketEvent :| e.topic != t && now.put == q.put + [e];
      assert PutSince(was, c, now) == PutSince(was, c, q) + [e];
    }
  }

  lemma UnheardStep(s: HubState, m: HubState, l: Label, t: Topic, c: ConsumerId)
    requires Broker.ValidQueues(s.broker) && s.broker.created <= m.broker.created
    requires Control(m, None) && Enabled(m, l) && t !in m.client.topics && c in Next(m, l).broker.queues
    requires c in m.broker.queues ==> Unheard(s.broker.queues, c, m.broker.queues[c], t)
    ensures Unheard(s.broker.queues, c, Next(m, l).broker.queues[c], t)
  {
    if c in m.broker.queues {
      StepKeepsQueue(m, l, c);
      StepPuts(m, l, c);
      UnheardExtends(s.broker.queues, c, m.broker.queues[c], Next(m, l).broker.queues[c], t);
    } else {
      StepCreates(m, l);
      NewIsUnheard(s.broker, c, Next(m, l).broker.queues[c], t);
    }
  }

  lemma NewIsUnheard(b: Broker.BrokerState, c: ConsumerId, now: QueueState, t: Topic)
    requires Broker.ValidQueues(b) && now.put == [] && b.created <= now.serial
    ensures Unheard(b.queues, c, now, t)
  {
  }

  lemma {:induction false} LostRowStays(s: HubState, run: seq<Label>, t: Topic)
    requires t !in s.client.topics && WantedThroughout(s, run, t)
    ensures RowOf(Exec(s, run).value.store, t) == RowOf(s.store, t)
    ensures s.broker.created <= Exec(s, run).value.broker.created
  {
    if run != [] {
      LostRowStays(s, run[..|run| - 1], t);
      LostWhileWanted(s, run[..|run| - 1], t);
      StoreAfter(Exec(s, run[..|run| - 1]).value, run[|run| - 1]);
      StepCreates(Exec(s, run[..|run| - 1]).value, run[|run| - 1]);
    }
  }

  lemma LostMeanwhile(s: HubState, run: seq<Label>, t: Topic, m: HubState)
    requires Control(s, None) && t !in s.client.topics && WantedThroughout(s, run, t) && Exec(s, run) == Some(m)
    ensures Control(m, None) && t !in m.client.topics && s.broker.created <= m.broker.created
  {
    RunKeeps(s, run);
    LostWhileWanted(s, run, t);
    LostRowStays(s, run, t);
  }

  lemma {:induction false} LostIsUnheard(s: HubState, run: seq<Label>, t: Topic, c: ConsumerId, r: HubState)
    requires Control(s, None) && t !in s.client.topics && WantedThroughout(s, run, t)
    requires Exec(s, run) == Some(r) && c in r.broker.queues
    ensures Unheard(s.broker.queues, c, r.broker.queues[c], t)
  {
    if run == [] {
      assert PutSince(s.broker.queues, c, s.broker.queues[c]) == [];
    } else {
      var m := Exec(s, run[..|run| - 1]).value;
      LostMeanwhile(s, run[..|run| - 1], t, m);
      if c in m.broker.queues { LostIsUnheard(s, run[..|run| - 1], t, c, m); }
      UnheardStep(s, m, run[|run| - 1], t, c);
    }
  }

  /**
   * A wanted topic that has left `_topics` is silent as long as it is wanted: over any such run its
   * row does not change, and nothing of it is put on any queue, whether that was there before or not.
   */
  lemma LostTopicIsSilent(s: HubState, run: seq<Label>, t: Topic, r: HubState)
    requires Reachable(s) && t !in s.client.topics && WantedThroughout(s, run, t) && Exec(s, run) == Some(r)
    ensures RowOf(r.store, t) == RowOf(s.store, t)
    ensures forall c | c in r.broker.queues :: NoneOf(PutSince(s.broker.queues, c, r.broker.queues[c]), t)
    ensures forall c | c in r.broker.queues && c in s.broker.queues
      && s.broker.queues[c].serial == r.broker.queues[c].serial :: s.broker.queues[c].put <= r.broker.queues[c].put
  {
    ReachableHolds(s);
    LostRowStays(s, run, t);
    forall c | c in r.broker.queues ensures Unheard(s.broker.queues, c, r.broker.queues[c], t) {
      LostIsUnheard(s, run, t, c, r);
    }
  }
}
