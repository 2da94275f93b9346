/** What each message of a consumer changes and what it leaves, and what follows over the runs after it. */
module HubEffects {
  import opened Names
  import opened Registry
  import opened Snapshot
  import opened Queue
  import Broker
  import Client
  import opened Hub
  import opened HubInvariant
  import opened HubRuns
  import opened HubRollback
  import opened HubData
  import opened HubHistory
  import opened HubQuiesce

  /** The consumer's task is free to handle a message. */
  predicate Listening(s: HubState, c: ConsumerId) {
    c in s.tasks && s.tasks[c] == Receiving && !s.client.running
  }

  /** Only `c` may hold other topics than before; it holds exactly `now`. */
  ghost predicate HoldsNow(before: Subscriptions, after: Subscriptions, c: ConsumerId, now: set<Topic>) {
    && after.Keys == before.Keys && TopicsOf(after, c) == now
    && forall d | d != c :: TopicsOf(after, d) == TopicsOf(before, d)
  }

  function FrameOf(subscribe: bool, t: Topic, c: ConsumerId): Client.Waiter {
    Client.Send(Client.Frame(subscribe, [t]), Client.Handler(c))
  }

  // ------------------------------------------------------------------- subscribe

  lemma RegistryGains(m: Subscriptions, c: ConsumerId, t: Topic)
    requires c in m
    ensures HoldsNow(m, m[c := m[c] + {t}], c, TopicsOf(m, c) + {t})
  {
  }

  /** The pair, and an empty queue for a first subscriber. */
  ghost predicate Joined(b: Broker.BrokerState, r: Broker.BrokerState, c: ConsumerId, t: Topic) {
    && (forall u, d :: Broker.Attached(r, u, d) <==> Broker.Attached(b, u, d) || (u == t && d == c))
    && r.queues.Keys == b.queues.Keys + {c}
    && (forall d | d in b.queues :: r.queues[d] == b.queues[d])
    && (c !in b.queues ==> r.queues[c].items == [] && r.queues[c].put == [])
  }

  lemma BrokerGains(b: Broker.BrokerState, c: ConsumerId, t: Topic)
    requires Broker.ValidBroker(b)
    ensures Joined(b, Broker.Attach(b, t, c), c, t)
  {
    Broker.AttachKeeps(b, t, c);
  }

  /** Registry and broker gain the pair and nothing else; a first subscriber gets an empty queue. */
  lemma SubscribeGainsPair(s: HubState, c: ConsumerId, t: Topic)
    requires Reachable(s) && Listening(s, c)
    ensures Enabled(s, Subscribe(c, t))
    ensures var r := Next(s, Subscribe(c, t));
      && HoldsNow(s.registry, r.registry, c, TopicsOf(s.registry, c) + {t})
      && Joined(s.broker, r.broker, c, t) && r.store == s.store
  {
    ReachableHolds(s);
    AddPairLeaves(s, c, t);
    SubscribeRegisters(s, c, t);
    RegistryGains(s.registry, c, t);
    BrokerGains(s.broker, c, t);
  }

  lemma SubscribeRegisters(s: HubState, c: ConsumerId, t: Topic)
    requires c in s.registry
    ensures OnSubscribe(s, c, t).registry == s.registry[c := s.registry[c] + {t}]
  {
  }

  /**
   * Upstream, the first subscriber of a topic puts it into `_topics` and asks for the lock to send the
   * frame; any other is acknowledged at once, with its pump free to start.
   */
  lemma SubscribeGoesUpstream(s: HubState, c: ConsumerId, t: Topic)
    requires Reachable(s) && Listening(s, c)
    ensures Enabled(s, Subscribe(c, t))
    ensures var r := Next(s, Subscribe(c, t));
      if Wanted(s.registry, t) then
        r.client == s.client && r.tasks == s.tasks && c in r.ready
      else
        && r.client.topics == s.client.topics + {t}
        && r.client.waiters == s.client.waiters + [FrameOf(true, t, c)]
        && r.tasks == s.tasks[c := Subscribing(t)]
  {
    ReachableHolds(s);
  }

  // ----------------------------------------------------------------- unsubscribe

  lemma RegistryLoses(m: Subscriptions, c: ConsumerId, t: Topic)
    requires c in m
    ensures HoldsNow(m, m[c := m[c] - {t}], c, TopicsOf(m, c) - {t})
  {
  }

  lemma UnsubscribeShape(s: HubState, c: ConsumerId, t: Topic)
    requires c in s.registry
    ensures var r := OnUnsubscribe(s, c, t);
      && r.registry == s.registry[c := s.registry[c] - {t}] && r.broker == Broker.Detach(s.broker, t, c)
      && r.store == s.store
  {
  }

  /** Registry and broker lose the pair and nothing else; no queue changes. */
  lemma UnsubscribeLosesPair(s: HubState, c: ConsumerId, t: Topic)
    requires Reachable(s) && Listening(s, c)
    ensures Enabled(s, Unsubscribe(c, t))
    ensures var r := Next(s, Unsubscribe(c, t));
      && HoldsNow(s.registry, r.registry, c, TopicsOf(s.registry, c) - {t})
      && (forall u, d :: Broker.Attached(r.broker, u, d) <==> Broker.Attached(s.broker, u, d) && !(u == t && d == c))
      && r.broker.queues == s.broker.queues && r.store == s.store
  {
    ReachableHolds(s);
    UnsubscribeShape(s, c, t);
    RegistryLoses(s.registry, c, t);
    Broker.DetachKeeps(s.broker, t, c);
  }

  /** Upstream, the last holder takes the topic out of `_topics` and asks for the lock to send the frame. */
  lemma UnsubscribeGoesUpstream(s: HubState, c: ConsumerId, t: Topic)
    requires Reachable(s) && Listening(s, c)
    ensures Enabled(s, Unsubscribe(c, t))
    ensures var r := Next(s, Unsubscribe(c, t));
      if Holders(s.registry, t) == {c} then
        && r.client.topics == s.client.topics - {t}
        && r.client.waiters == s.client.waiters + [FrameOf(false, t, c)]
        && r.tasks == s.tasks[c := Unsubscribing(t)]
      else
        r.client == s.client && r.tasks == s.tasks
  {
    ReachableHolds(s);
    var dropped := DropPair(s, c, t).registry;
    if Holds(s.registry, c, t) {
      WantedByOthers(s.registry, c, t);
    } else {
      assert c !in Holders(s.registry, t);
      assert dropped[c] == s.registry[c] && dropped == s.registry;
    }
  }

  // ------------------------------------------------------------------ connect, disconnect

  /** A new consumer starts with nothing: no topic, no place in a bucket, no queue, no pump. */
  lemma ConnectStartsEmpty(s: HubState, c: ConsumerId)
    requires Reachable(s) && !s.client.running && c !in s.tasks && c !in s.registry
    ensures Enabled(s, Connect(c))
    ensures var r := Next(s, Connect(c));
      && c in r.registry && HoldsNow(s.registry[c := {}], r.registry, c, {}) && Listening(r, c)
      && (forall u :: !Broker.Attached(r.broker, u, c)) && c !in r.broker.queues && c !in r.ready && c !in r.pumps
      && r.broker == s.broker && r.client == s.client
  {
    ReachableHolds(s);
  }

  /** Registry and broker forget a consumer that leaves, and nobody else. */
  lemma DisconnectForgets(s: HubState, c: ConsumerId)
    requires Reachable(s) && Listening(s, c) && c !in s.broken
    ensures Enabled(s, Disconnect(c))
    ensures var r := Next(s, Disconnect(c));
      && r.registry.Keys == s.registry.Keys - {c}
      && (forall d | d != c :: TopicsOf(r.registry, d) == TopicsOf(s.registry, d))
      && (forall u, d :: Broker.Attached(r.broker, u, d) <==> Broker.Attached(s.broker, u, d) && d != c)
      && r.broker.queues == s.broker.queues - {c}
      && c !in r.ready && c !in r.pumps && c !in r.delivering
  {
    ReachableHolds(s);
    ContinueCleanupMoves(Unregistered(s, c), c, Sorted(TopicsOf(s.registry, c)), Counts(s.registry - {c}));
    DisconnectLeaves(s, c);
    Broker.RemoveKeeps(s.broker, c);
  }

  // ----------------------------------------------------------- who does not hold a topic

  lemma ResumeAddsNobody(s: HubState, owner: Client.Owner, raised: bool, c: ConsumerId, t: Topic)
    requires !Holds(s.registry, c, t)
    ensures !Holds(Resume(s, owner, raised).registry, c, t)
  {
    if owner.Handler? && owner.consumer in s.tasks {
      ResumeRegistry(s, owner.consumer, raised);
    }
  }

  lemma ResumeRegistry(s: HubState, c: ConsumerId, raised: bool)
    requires c in s.tasks
    ensures forall d, t | Holds(Resume(s, Client.Handler(c), raised).registry, d, t) :: Holds(s.registry, d, t)
  {
    match s.tasks[c] {
      case Cleaning(rest, final) => ContinueCleanupMoves(s, c, rest, final);
      case _ =>
    }
  }

  lemma TurnAddsNobody(s: HubState, result: SendResult, c: ConsumerId, t: Topic)
    requires Enabled(s, LockTurn(result)) && !Holds(s.registry, c, t)
    ensures !Holds(OnLockTurn(s, result).registry, c, t)
  {
    if s.client.waiters[0].Send? && !Begins(s.client) {
      var delivered, raised := s.client.sending && result == Sent, s.client.sending && result == Raised;
      TurnFinishes(s, result);
      RetiredShape(s, delivered, raised);
      ResumeAddsNobody(Retired(s, delivered, raised), s.client.waiters[0].owner, raised, c, t);
    } else {
      SetWsShape(s, result);
    }
  }

  lemma CleanupAddsNobody(s: HubState, d: ConsumerId, c: ConsumerId, t: Topic)
    requires !Holds(s.registry, c, t)
    ensures !Holds(Cleanup(s, d).registry, c, t)
  {
    ContinueCleanupMoves(Unregistered(s, d), d, Sorted(TopicsOf(s.registry, d)), Counts(s.registry - {d}));
  }

  /** Only its own subscribe of a topic makes a consumer hold it. */
  lemma StepAddsNobody(s: HubState, l: Label, c: ConsumerId, t: Topic)
    requires Enabled(s, l) && l != Subscribe(c, t) && !Holds(s.registry, c, t)
    ensures !Holds(Next(s, l).registry, c, t)
  {
    match l {
      case LockTurn(result) => TurnAddsNobody(s, result, c, t);
      case Disconnect(d) => if d !in s.broken { CleanupAddsNobody(s, d, c, t); }
      case _ =>
    }
  }

  lemma UnheldStep(s: HubState, m: HubState, l: Label, t: Topic, c: ConsumerId)
    requires Broker.ValidQueues(s.broker) && s.broker.created <= m.broker.created
    requires Reachable(m) && Enabled(m, l) && !Holds(m.registry, c, t) && c in Next(m, l).broker.queues
    requires c in m.broker.queues ==> Unheard(s.broker.queues, c, m.broker.queues[c], t)
    ensures Unheard(s.broker.queues, c, Next(m, l).broker.queues[c], t)
  {
    if c in m.broker.queues {
      StepKeepsQueue(m, l, c);
      OnlyWantedIsPut(m, l, c);
      UnheardExtends(s.broker.queues, c, m.broker.queues[c], Next(m, l).broker.queues[c], t);
    } else {
      StepCreates(m, l);
      NewIsUnheard(s.broker, c, Next(m, l).broker.queues[c], t);
    }
  }

  lemma {:induction false} UnheldMeanwhile(s: HubState, run: seq<Label>, c: ConsumerId, t: Topic, m: HubState)
    requires Reachable(s) && !Holds(s.registry, c, t) && Subscribe(c, t) !in run && Exec(s, run) == Some(m)
    ensures Reachable(m) && !Holds(m.registry, c, t) && s.broker.created <= m.broker.created
  {
    if run != [] {
      var front, l := run[..|run| - 1], run[|run| - 1];
      UnheldMeanwhile(s, front, c, t, Exec(s, front).value);
      StepAddsNobody(Exec(s, front).value, l, c, t);
      StepCreates(Exec(s, front).value, l);
      ReachableNext(Exec(s, front).value, l);
    }
  }

  /**
   * A consumer that does not hold a topic, because it has unsubscribed or never subscribed, holds it in
   * no later state before its next subscribe of it, and nothing of it is put on its queue meanwhile.
   */
  lemma UnheldIsUnheard(s: HubState, run: seq<Label>, c: ConsumerId, t: Topic, r: HubState)
    requires Reachable(s) && !Holds(s.registry, c, t) && Subscribe(c, t) !in run && Exec(s, run) == Some(r)
    ensures !Holds(r.registry, c, t)
    ensures c in r.broker.queues ==> Unheard(s.broker.queues, c, r.broker.queues[c], t)
  {
    UnheldMeanwhile(s, run, c, t, r);
    if c in r.broker.queues {
      ReachableQueues(s);
      UnheldQueue(s, run, c, t, r);
    }
  }

  lemma ReachableQueues(s: HubState)
    requires Reachable(s)
    ensures Broker.ValidQueues(s.broker)
  {
    ReachableHolds(s);
  }

  lemma {:induction false} UnheldQueue(s: HubState, run: seq<Label>, c: ConsumerId, t: Topic, r: HubState)
    requires Reachable(s) && !Holds(s.registry, c, t) && Subscribe(c, t) !in run && Exec(s, run) == Some(r)
    requires Broker.ValidQueues(s.broker) && c in r.broker.queues
    ensures Unheard(s.broker.queues, c, r.broker.queues[c], t)
  {
    if run == [] {
      assert PutSince(s.broker.queues, c, s.broker.queues[c]) == [];
    } else {
      var front := run[..|run| - 1];
      var m := Exec(s, front).value;
      UnheldMeanwhile(s, front, c, t, m);
      if c in m.broker.queues { UnheldQueue(s, front, c, t, m); }
      UnheldStep(s, m, run[|run| - 1], t, c);
    }
  }

  /** Unsubscribing stops the stream: until `c` subscribes `t` again, it is put no event of it. */
  lemma UnsubscribeStopsStream(s: HubState, c: ConsumerId, t: Topic, run: seq<Label>, r: HubState)
    requires Reachable(s)
    requires Enabled(s, Unsubscribe(c, t)) && Exec(Next(s, Unsubscribe(c, t)), run) == Some(r)
    requires Subscribe(c, t) !in run
    ensures !Holds(r.registry, c, t)
    ensures c in r.broker.queues ==> NoneOf(PutSince(s.broker.queues, c, r.broker.queues[c]), t)
  {
    UnsubscribeLosesPair(s, c, t);
    var m := Next(s, Unsubscribe(c, t));
    ReachableNext(s, Unsubscribe(c, t));
    assert !Holds(m.registry, c, t);
    UnheldIsUnheard(m, run, c, t, r);
  }

  // --------------------------------------------------------------- ready subscribers

  /** Whoever holds a topic it is not just subscribing has its pump free to start. */
  ghost predicate HeldIsReady(m: Subscriptions, tasks: map<ConsumerId, Task>, ready: set<ConsumerId>) {
    forall c, t | c in tasks && Holds(m, c, t) && tasks[c] != Subscribing(t) :: c in ready
  }

  ghost predicate Served(s: HubState) {
    HeldIsReady(s.registry, s.tasks, s.ready)
  }

  lemma SubscribeServes(s: HubState, c: ConsumerId, t: Topic)
    requires Served(s) && c in s.tasks && s.tasks[c] == Receiving
    ensures Served(OnSubscribe(s, c, t))
  {
    if c in s.registry {
      SubscribeRegisters(s, c, t);
      if Wanted(s.registry, t) {
        JoinServes(s.registry, s.tasks, s.tasks, s.ready, s.ready + {c}, c, t);
      } else {
        JoinServes(s.registry, s.tasks, s.tasks[c := Subscribing(t)], s.ready, s.ready, c, t);
      }
    }
  }

  /** A pair that joins is served if its pump may start, or while it is being subscribed. */
  lemma JoinServes(m: Subscriptions, tasks: map<ConsumerId, Task>, now: map<ConsumerId, Task>,
                   ready: set<ConsumerId>, free: set<ConsumerId>, c: ConsumerId, t: Topic)
    requires HeldIsReady(m, tasks, ready) && c in m && c in tasks && tasks[c] == Receiving && ready <= free
    requires now == tasks[c := Subscribing(t)] || (now == tasks && c in free)
    ensures HeldIsReady(m[c := m[c] + {t}], now, free)
  {
  }

  lemma UnsubscribeServes(s: HubState, c: ConsumerId, t: Topic)
    requires Served(s) && c in s.tasks && s.tasks[c] == Receiving
    ensures Served(OnUnsubscribe(s, c, t))
  {
  }

  lemma CleanupServes(s: HubState, c: ConsumerId)
    requires Served(s) && c in s.tasks
    ensures Served(Cleanup(s, c))
  {
    ContinueServes(Unregistered(s, c), c, Sorted(TopicsOf(s.registry, c)), Counts(s.registry - {c}));
  }

  lemma ContinueServes(s: HubState, c: ConsumerId, topics: seq<Topic>, final: map<Topic, nat>)
    requires Served(s) && c !in s.registry
    ensures Served(ContinueCleanup(s, c, topics, final))
  {
  }

  lemma ResumeServes(s: HubState, c: ConsumerId, raised: bool)
    requires Served(s) && c in s.tasks && s.tasks[c] != Receiving
    requires s.tasks[c].Cleaning? ==> c !in s.registry
    ensures Served(Resume(s, Client.Handler(c), raised))
  {
    match s.tasks[c] {
      case Cleaning(rest, final) => ContinueServes(s, c, rest, final);
      case Subscribing(t) =>
      case Unsubscribing(_) =>
    }
  }

  lemma TurnServes(s: HubState, result: SendResult)
    requires WaitersRight(s.tasks, s.client.waiters, None) && TasksRight(s.registry, s.tasks, s.abandoned)
    requires Served(s) && Enabled(s, LockTurn(result))
    ensures Served(OnLockTurn(s, result))
  {
    if s.client.waiters[0].Send? && !Begins(s.client) {
      var delivered, raised := s.client.sending && result == Sent, s.client.sending && result == Raised;
      TurnFinishes(s, result);
      RetiredShape(s, delivered, raised);
      if s.client.waiters[0].owner.Handler? {
        assert WaitsAt(s.client.waiters, 0, s.client.waiters[0].owner.consumer);
        ResumeServes(Retired(s, delivered, raised), s.client.waiters[0].owner.consumer, raised);
      }
    } else {
      SetWsShape(s, result);
    }
  }

  lemma NextServes(s: HubState, l: Label)
    requires WaitersRight(s.tasks, s.client.waiters, None) && TasksRight(s.registry, s.tasks, s.abandoned)
    requires Served(s) && Enabled(s, l)
    ensures Served(Next(s, l))
  {
    if l.Connect? {
      ConnectServes(s, l.c);
    } else if l.Subscribe? {
      SubscribeServes(s, l.c, l.t);
    } else if l.Unsubscribe? {
      UnsubscribeServes(s, l.c, l.t);
    } else if l.Disconnect? {
      DisconnectServes(s, l.c);
    } else if l.LockTurn? {
      TurnServes(s, l.result);
    } else {
      SameServes(s, Next(s, l));
    }
  }

  lemma SameServes(s: HubState, r: HubState)
    requires Served(s) && r.registry == s.registry && r.tasks == s.tasks && r.ready == s.ready
    ensures Served(r)
  {
  }

  lemma ConnectServes(s: HubState, c: ConsumerId)
    requires Served(s) && c !in s.registry && c !in s.tasks
    ensures Served(OnConnect(s, c))
  {
  }

  lemma DisconnectServes(s: HubState, c: ConsumerId)
    requires Served(s) && c in s.tasks
    ensures Served(OnDisconnect(s, c))
  {
    if c in s.broken {
      assert Served(Abandon(s, c));
    } else {
      CleanupServes(s, c);
    }
  }

  lemma {:induction false} RunServes(s: HubState, run: seq<Label>)
    requires Control(s, None) && Served(s) && Exec(s, run).Some?
    ensures Served(Exec(s, run).value)
  {
    if run != [] {
      RunServes(s, run[..|run| - 1]);
      RunKeeps(s, run[..|run| - 1]);
      NextServes(Exec(s, run[..|run| - 1]).value, run[|run| - 1]);
    }
  }

  /**
   * No acknowledged subscriber is left without a pump: whoever holds a topic, other than by a first
   * subscribe still on its way, has one, or one that can start as soon as no task is running.
   */
  lemma AcknowledgedIsReady(s: HubState, c: ConsumerId, t: Topic)
    requires Reachable(s) && c in s.tasks && Holds(s.registry, c, t) && s.tasks[c] != Subscribing(t)
    ensures c in s.ready && c in s.broker.queues
    ensures !s.client.running ==> c in s.pumps || Enabled(s, PumpStarts(c))
  {
    ReachableServes(s);
    HandlersAndPumpsFindTheirs(s, c);
  }

  lemma ReachableServes(s: HubState)
    requires Reachable(s)
    ensures Served(s)
  {
    var maxsize, run :| Exec(Init(maxsize), run) == Some(s);
    InitHolds(maxsize);
    RunServes(Init(maxsize), run);
  }

  // ------------------------------------------------------------------- the way to the consumer

  /** Only the queue and the pump of `c` differ. */
  ghost predicate OnlyReads(s: HubState, r: HubState, c: ConsumerId) {
    && r == s.(broker := r.broker, delivering := r.delivering)
    && r.broker == s.broker.(queues := r.broker.queues)
    && r.broker.queues.Keys == s.broker.queues.Keys
    && forall d | d in s.broker.queues && d != c :: r.broker.queues[d] == s.broker.queues[d]
  }

  /** The pump of `c` has a queue, has not failed, and may go on. */
  predicate Pumps(s: HubState, c: ConsumerId) {
    !s.client.running && c in s.pumps && c !in s.broken
  }

  lemma DeliveryReturns(s: HubState, c: ConsumerId) returns (run: seq<Label>, r: HubState)
    requires Reachable(s) && Pumps(s, c)
    ensures Exec(s, run) == Some(r) && (forall i | 0 <= i < |run| :: run[i] == PumpDelivers(c))
    ensures r == s.(delivering := s.delivering - {c})
  {
    run, r := [], s;
    if c in s.delivering {
      run, r := [PumpDelivers(c)], Next(s, PumpDelivers(c));
      assert Exec(s, run[..0]) == Some(s);
    } else {
      assert s.delivering - {c} == s.delivering;
    }
  }

  lemma TakesOne(s: HubState, c: ConsumerId) returns (r: HubState)
    requires Reachable(s) && Pumps(s, c) && c !in s.delivering && c in s.broker.queues && s.broker.queues[c].items != []
    ensures Enabled(s, PumpReads(c)) && r == Next(s, PumpReads(c)) && Reachable(r) && Pumps(r, c)
    ensures OnlyReads(s, r, c)
    ensures var q, p := s.broker.queues[c], r.broker.queues[c];
      p.items == q.items[1..] && Read(p) == Read(q) + [q.items[0]]
  {
    ReachableHolds(s);
    QueueOf(s, c);
    TakeMoves(s.broker.queues[c], true);
    ReachableNext(s, PumpReads(c));
    r := Next(s, PumpReads(c));
  }

  predicate IsPumping(l: Label, c: ConsumerId) {
    l == PumpReads(c) || l == PumpDelivers(c)
  }

  /** A pump that has not failed can deliver everything queued, in order, whatever the others do or wait for. */
  lemma {:induction false} DeliversAll(s: HubState, c: ConsumerId) returns (run: seq<Label>, r: HubState)
    requires Reachable(s) && Pumps(s, c)
    ensures c in s.broker.queues
    ensures Exec(s, run) == Some(r) && forall i | 0 <= i < |run| :: IsPumping(run[i], c)
    ensures OnlyReads(s, r, c) && c !in r.delivering
    ensures r.broker.queues[c].items == []
    ensures Read(r.broker.queues[c]) == Read(s.broker.queues[c]) + s.broker.queues[c].items
    decreases if c in s.broker.queues then |s.broker.queues[c].items| else 0
  {
    HandlersAndPumpsFindTheirs(s, c);
    var first, m := DeliveryReturns(s, c);
    RunReachable(s, first, m);
    if m.broker.queues[c].items == [] {
      run, r := first, m;
    } else {
      var next := TakesOne(m, c);
      var rest, last := DeliversAll(next, c);
      ReadsOn(s.broker.queues[c], next.broker.queues[c], last.broker.queues[c]);
      ExecThen(s, first, m, PumpReads(c), rest);
      run, r := first + [PumpReads(c)] + rest, last;
    }
  }

  lemma ReadsOn(q: QueueState, next: QueueState, last: QueueState)
    requires q.items != [] && next.items == q.items[1..] && Read(next) == Read(q) + [q.items[0]]
    requires Read(last) == Read(next) + next.items
    ensures Read(last) == Read(q) + q.items
  {
    assert q.items == [q.items[0]] + q.items[1..];
  }

  lemma ExecThen(s: HubState, first: seq<Label>, m: HubState, l: Label, rest: seq<Label>)
    requires Exec(s, first) == Some(m) && Enabled(m, l)
    ensures Exec(s, first + [l] + rest) == Exec(Next(m, l), rest)
  {
    ExecConcat(s, first, m, [l] + rest);
    ExecFirst(m, l, rest);
    assert first + [l] + rest == first + ([l] + rest);
  }

  /** If its pump has not started, it can. */
  lemma PumpCanStart(s: HubState, c: ConsumerId, t: Topic) returns (run: seq<Label>, r: HubState)
    requires Reachable(s) && c in s.tasks && Holds(s.registry, c, t) && s.tasks[c] != Subscribing(t)
    requires !s.client.running && c !in s.broken
    ensures Exec(s, run) == Some(r) && Reachable(r) && Pumps(r, c) && r == s.(pumps := r.pumps)
  {
    AcknowledgedIsReady(s, c, t);
    run, r := [], s;
    if c !in s.pumps {
      run, r := [PumpStarts(c)], Next(s, PumpStarts(c));
      assert Exec(s, run[..0]) == Some(s);
      ReachableNext(s, PumpStarts(c));
    }
  }

  lemma DispatchReaches(s: HubState, c: ConsumerId, t: Topic, e: MarketEvent)
    requires Reachable(s) && Pumps(s, c) && Holds(s.registry, c, t) && e.topic == t && t in s.client.topics
    requires s.client.phase == Client.Streaming
    ensures Enabled(s, Dispatch(e))
    ensures var r := Next(s, Dispatch(e));
      && Reachable(r) && Pumps(r, c) && c in s.broker.queues && c in r.broker.queues
      && |r.broker.queues[c].items| > 0 && r.broker.queues[c].items[|r.broker.queues[c].items| - 1] == e
  {
    ReachableHolds(s);
    ReachableNext(s, Dispatch(e));
    PutReaches(s, e, c);
  }

  /**
   * An event of a topic in `_topics` can reach everybody who holds it: from any state between steps, an
   * acknowledged subscriber whose pump has not failed can be the next to be handed it.
   */
  lemma EventCanReach(s: HubState, c: ConsumerId, t: Topic, e: MarketEvent) returns (run: seq<Label>, r: HubState)
    requires Reachable(s) && c in s.tasks && Holds(s.registry, c, t) && s.tasks[c] != Subscribing(t)
    requires !s.client.running && c !in s.broken
    requires s.client.phase == Client.Streaming && t in s.client.topics && e.topic == t
    ensures Exec(s, run) == Some(r) && c in r.broker.queues
    ensures var read := Read(r.broker.queues[c]); |read| > 0 && read[|read| - 1] == e
  {
    var first, m := PumpCanStart(s, c, t);
    DispatchReaches(m, c, t, e);
    var rest, last := DeliversAll(Next(m, Dispatch(e)), c);
    ExecThen(s, first, m, Dispatch(e), rest);
    run, r := first + [Dispatch(e)] + rest, last;
  }

  // ------------------------------------------------------- snapshot plus deltas over a run

  ghost predicate HeldThroughout(s: HubState, run: seq<Label>, c: ConsumerId, t: Topic) {
    && Exec(s, run).Some? && Holds(Exec(s, run).value.registry, c, t)
    && (run == [] || HeldThroughout(s, run[..|run| - 1], c, t))
  }

  lemma ResumeKeepsBaseline(s: HubState, owner: Client.Owner, raised: bool, c: ConsumerId, t: Topic)
    requires (c, t) in s.since
    ensures (c, t) in Resume(s, owner, raised).since ==> Resume(s, owner, raised).since[(c, t)] == s.since[(c, t)]
  {
    if owner.Handler? && owner.consumer in s.tasks {
      match s.tasks[owner.consumer] {
        case Cleaning(rest, final) => assert ContinueCleanup(s, owner.consumer, rest, final).since == s.since;
        case _ =>
      }
    }
  }

  lemma TurnKeepsBaseline(s: HubState, result: SendResult, c: ConsumerId, t: Topic)
    requires Enabled(s, LockTurn(result)) && (c, t) in s.since
    ensures var r := OnLockTurn(s, result); (c, t) in r.since ==> r.since[(c, t)] == s.since[(c, t)]
  {
    if s.client.waiters[0].Send? && !Begins(s.client) {
      var delivered, raised := s.client.sending && result == Sent, s.client.sending && result == Raised;
      TurnFinishes(s, result);
      RetiredShape(s, delivered, raised);
      ResumeKeepsBaseline(Retired(s, delivered, raised), s.client.waiters[0].owner, raised, c, t);
    } else {
      SetWsShape(s, result);
    }
  }

  lemma StepKeepsBaseline(s: HubState, l: Label, c: ConsumerId, t: Topic)
    requires Enabled(s, l) && (c, t) in s.since
    ensures (c, t) in Next(s, l).since ==> Next(s, l).since[(c, t)] == s.since[(c, t)]
  {
    match l {
      case LockTurn(result) => TurnKeepsBaseline(s, result, c, t);
      case Disconnect(d) => if d !in s.broken { assert Cleanup(s, d).since == Forget(s.since, d); }
      case _ =>
    }
  }

  lemma {:induction false} BaselineStays(s: HubState, run: seq<Label>, c: ConsumerId, t: Topic)
    requires Reachable(s) && HeldThroughout(s, run, c, t)
    ensures (c, t) in s.since && (c, t) in Exec(s, run).value.since
    ensures Exec(s, run).value.since[(c, t)] == s.since[(c, t)]
  {
    ReachableData(s);
    RunData(s, run);
    if run != [] {
      BaselineStays(s, run[..|run| - 1], c, t);
      StepKeepsBaseline(Exec(s, run[..|run| - 1]).value, run[|run| - 1], c, t);
    }
    HoldsAtStart(s, run, c, t);
  }

  lemma {:induction false} HoldsAtStart(s: HubState, run: seq<Label>, c: ConsumerId, t: Topic)
    requires HeldThroughout(s, run, c, t)
    ensures Holds(s.registry, c, t)
  {
    if run != [] {
      HoldsAtStart(s, run[..|run| - 1], c, t);
    }
  }

  /** What a subscribe by somebody who did not hold the topic takes as its baseline. */
  lemma SubscribeBaseline(s: HubState, c: ConsumerId, t: Topic)
    requires Reachable(s) && Listening(s, c) && !Holds(s.registry, c, t)
    ensures Enabled(s, Subscribe(c, t))
    ensures var r := Next(s, Subscribe(c, t));
      && c in r.broker.queues && (c, t) in r.since
      && r.since[(c, t)] == Baseline(|r.broker.queues[c].put|, RowOf(s.store, t))
  {
    ReachableData(s);
    BaselineTaken(s, c, t);
  }

  lemma BaselineTaken(s: HubState, c: ConsumerId, t: Topic)
    requires c in s.registry && (c, t) !in s.since
    ensures var r := OnSubscribe(s, c, t);
      && c in r.broker.queues && (c, t) in r.since
      && r.since[(c, t)] == Baseline(|r.broker.queues[c].put|, RowOf(s.store, t))
  {
    AddPairLeaves(s, c, t);
    assert OnSubscribe(s, c, t).since == AddPair(s, c, t).since;
  }

  /**
   * Snapshot plus deltas, over any run from a subscribe on in which the consumer holds the topic
   * throughout: if its queue dropped nothing that was put after the subscribe, the events of the topic
   * it has read or still has queued since then, applied in order to the row as of the subscribe, give
   * the row at the end. `before` and `q` are its queue right after the subscribe and at the end.
   */
  lemma DeltasSinceSubscribe(s: HubState, c: ConsumerId, t: Topic, joined: HubState, run: seq<Label>, r: HubState,
                             before: QueueState, q: QueueState)
    requires Reachable(s) && !Holds(s.registry, c, t)
    requires Enabled(s, Subscribe(c, t)) && joined == Next(s, Subscribe(c, t))
    requires HeldThroughout(joined, run, c, t) && Exec(joined, run) == Some(r)
    requires c in joined.broker.queues ==> before == joined.broker.queues[c]
    requires c in r.broker.queues ==> q == r.broker.queues[c]
    ensures c in joined.broker.queues && c in r.broker.queues
    ensures ValidQueue(q) && |before.put| <= |q.put|
    ensures NoDropSince(q, |before.put|) ==>
      FoldRow(RowOf(s.store, t), Project(KeptSince(q, |before.put|), t)) == RowOf(r.store, t)
  {
    SubscribeBaseline(s, c, t);
    ReachableNext(s, Subscribe(c, t));
    BaselineStays(joined, run, c, t);
    RunReachable(joined, run, r);
    SnapshotPlusDeltas(r, c, t, r.since[(c, t)], q);
  }
}
