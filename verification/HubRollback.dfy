/** The rolled-back first subscribe, the pumps, and what is left when everybody has gone. */
module HubRollback {
  import opened Names
  import opened Registry
  import opened Snapshot
  import opened Queue
  import Broker
  import Client
  import opened Hub
  import opened HubInvariant
  import opened HubRuns

  // ------------------------------------------------------------------- rollback

  /** All through the run the handler of `c` is suspended in its first subscribe of `t`. */
  ghost predicate SuspendedThroughout(s: HubState, run: seq<Label>, c: ConsumerId, t: Topic) {
    && Exec(s, run).Some?
    && var r := Exec(s, run).value;
    && c in r.tasks && r.tasks[c] == Subscribing(t)
    && (run == [] || SuspendedThroughout(s, run[..|run| - 1], c, t))
  }

  lemma ResumeTouchesOnly(s: HubState, c: ConsumerId, d: ConsumerId, raised: bool)
    requires c in s.tasks && c != d
    ensures TopicsOf(Resume(s, Client.Handler(c), raised).registry, d) == TopicsOf(s.registry, d)
  {
    if s.tasks[c].Cleaning? {
      ContinueCleanupMoves(s, c, s.tasks[c].rest, s.tasks[c].final);
    }
  }

  lemma TurnTouchesOnly(s: HubState, result: SendResult, d: ConsumerId)
    requires Enabled(s, LockTurn(result))
    requires d in s.tasks ==>
      s.tasks[d].Subscribing? && d in OnLockTurn(s, result).tasks && OnLockTurn(s, result).tasks[d] == s.tasks[d]
    ensures TopicsOf(OnLockTurn(s, result).registry, d) == TopicsOf(s.registry, d)
  {
    if s.client.waiters[0].Send? && !Begins(s.client) {
      TurnFinishes(s, result);
      var delivered, raised := s.client.sending && result == Sent, s.client.sending && result == Raised;
      var owner, m := s.client.waiters[0].owner, Retired(s, delivered, raised);
      RetiredShape(s, delivered, raised);
      if owner.Handler? && owner.consumer in m.tasks && owner.consumer != d {
        ResumeTouchesOnly(m, owner.consumer, d, raised);
      }
    } else {
      SetWsShape(s, result);
    }
  }

  lemma CleanupTouchesOnly(s: HubState, c: ConsumerId, d: ConsumerId)
    requires c != d
    ensures TopicsOf(Cleanup(s, c).registry, d) == TopicsOf(s.registry, d)
  {
    ContinueCleanupMoves(Unregistered(s, c), c, Sorted(TopicsOf(s.registry, c)), Counts(s.registry - {c}));
  }

  /** While a handler is suspended, or after its end, nobody else changes what its consumer holds. */
  lemma StepTouchesOnly(s: HubState, l: Label, d: ConsumerId)
    requires Enabled(s, l) && (d in s.tasks || d in s.registry)
    requires d in s.tasks ==>
      s.tasks[d].Subscribing? && d in Next(s, l).tasks && Next(s, l).tasks[d] == s.tasks[d]
    ensures TopicsOf(Next(s, l).registry, d) == TopicsOf(s.registry, d)
  {
    if l.Disconnect? {
      CleanupTouchesOnly(s, l.c, d);
    } else if l.LockTurn? {
      TurnTouchesOnly(s, l.result, d);
    } else if l.Subscribe? {
      assert l.c != d;
    } else if l.Unsubscribe? {
      assert l.c != d;
    }
  }

  lemma {:induction false} SuspendedKeepsTopics(s: HubState, run: seq<Label>, c: ConsumerId, t: Topic)
    requires SuspendedThroughout(s, run, c, t)
    ensures TopicsOf(Exec(s, run).value.registry, c) == TopicsOf(s.registry, c)
  {
    if run != [] {
      SuspendedKeepsTopics(s, run[..|run| - 1], c, t);
      StepTouchesOnly(Exec(s, run[..|run| - 1]).value, run[|run| - 1], c);
    }
  }

  /** The turn in which a suspended first subscribe fails is exactly the rollback of its pair. */
  lemma FailureIsRollback(s: HubState, c: ConsumerId, t: Topic)
    requires c in s.tasks && s.tasks[c] == Subscribing(t)
    requires Enabled(s, LockTurn(Raised)) && s.client.sending && WaitsAt(s.client.waiters, 0, c)
    ensures OnLockTurn(s, Raised) == Rollback(Retired(s, false, true), c, t)
  {
    TurnFinishes(s, Raised);
    RetiredShape(s, false, true);
  }

  /** The failing turn takes out the pair and nothing else. */
  ghost predicate TakesOutOnly(m: HubState, r: HubState, c: ConsumerId, t: Topic) {
    && r.registry.Keys == m.registry.Keys
    && TopicsOf(r.registry, c) == TopicsOf(m.registry, c) - {t}
    && (forall d | d != c :: TopicsOf(r.registry, d) == TopicsOf(m.registry, d))
    && (forall u, d :: Broker.Attached(r.broker, u, d) <==> Broker.Attached(m.broker, u, d) && !(u == t && d == c))
    && r.broker.queues == m.broker.queues
    && c in r.tasks && r.tasks[c] == Receiving
    && r.client.topics == m.client.topics
  }

  lemma FailureTakesOutOnly(m: HubState, c: ConsumerId, t: Topic)
    requires Control(m, None) && c in m.tasks && m.tasks[c] == Subscribing(t)
    requires Enabled(m, LockTurn(Raised)) && m.client.sending && WaitsAt(m.client.waiters, 0, c)
    ensures TakesOutOnly(m, Next(m, LockTurn(Raised)), c, t)
  {
    FailureIsRollback(m, c, t);
    RetiredShape(m, false, true);
    Broker.DetachKeeps(m.broker, t, c);
    assert Holds(m.registry, c, t);
  }

  lemma FirstSubscribeAdds(s: HubState, c: ConsumerId, t: Topic)
    requires Control(s, None) && Enabled(s, Subscribe(c, t)) && !Wanted(s.registry, t)
    ensures TopicsOf(Next(s, Subscribe(c, t)).registry, c) - {t} == TopicsOf(s.registry, c)
  {
    var held := TopicsOf(s.registry, c);
    assert t !in held && held + {t} - {t} == held;
  }

  lemma FailureAfterRun(joined: HubState, run: seq<Label>, m: HubState, c: ConsumerId, t: Topic)
    requires Control(joined, None) && SuspendedThroughout(joined, run, c, t) && Exec(joined, run) == Some(m)
    requires Enabled(m, LockTurn(Raised)) && m.client.sending && WaitsAt(m.client.waiters, 0, c)
    ensures TakesOutOnly(m, Next(m, LockTurn(Raised)), c, t)
    ensures TopicsOf(Next(m, LockTurn(Raised)).registry, c) == TopicsOf(joined.registry, c) - {t}
  {
    RunKeeps(joined, run);
    SuspendedKeepsTopics(joined, run, c, t);
    FailureTakesOutOnly(m, c, t);
  }

  /**
   * Rollback is exact, whatever happened meanwhile. `s` is the state before the first subscribe,
   * `joined` the one in which it asks for the lock, `m` the state in which its send fails, `r` the
   * state after `upstream_subscribe_failed`: the consumer holds what it held in `s`, everybody else
   * holds what they held in `m`, in registry and broker alike, and every queue is what it was in `m`.
   */
  lemma RollbackIsExact(s: HubState, c: ConsumerId, t: Topic, joined: HubState, run: seq<Label>,
                        m: HubState, r: HubState)
    requires Reachable(s) && Enabled(s, Subscribe(c, t)) && !Wanted(s.registry, t)
    requires joined == Next(s, Subscribe(c, t))
    requires SuspendedThroughout(joined, run, c, t) && Exec(joined, run) == Some(m)
    requires Enabled(m, LockTurn(Raised)) && m.client.sending && WaitsAt(m.client.waiters, 0, c)
    requires r == Next(m, LockTurn(Raised))
    ensures TakesOutOnly(m, r, c, t) && TopicsOf(r.registry, c) == TopicsOf(s.registry, c)
  {
    ReachableHolds(s);
    NextKeeps(s, Subscribe(c, t));
    FirstSubscribeAdds(s, c, t);
    FailureAfterRun(joined, run, m, c, t);
  }

  /**
   * docs/TOPICS.md:160 promises that a rollback leaves local demand consistent with upstream: the
   * topic is in `_topics` exactly if somebody wants it. That holds if and only if just before the
   * rollback it was in `_topics` exactly if somebody besides `c` held it.
   */
  lemma RollbackConsistentIff(s: HubState, c: ConsumerId, t: Topic, r: HubState)
    requires Reachable(s) && c in s.tasks && s.tasks[c] == Subscribing(t)
    requires Enabled(s, LockTurn(Raised)) && s.client.sending && WaitsAt(s.client.waiters, 0, c)
    requires r == Next(s, LockTurn(Raised))
    ensures (t in r.client.topics <==> Wanted(r.registry, t)) <==>
      (t in s.client.topics <==> Holders(s.registry, t) != {c})
    ensures r.client.topics == s.client.topics
    ensures t in s.client.topics ==> t in r.failed
  {
    ReachableHolds(s);
    FailureIsRollback(s, c, t);
    RetiredShape(s, false, true);
    WantedByOthers(s.registry, c, t);
  }

  lemma WantedByOthers(m: Subscriptions, c: ConsumerId, t: Topic)
    requires Holds(m, c, t)
    ensures Wanted(m[c := m[c] - {t}], t) <==> Holders(m, t) != {c}
  {
    var n := m[c := m[c] - {t}];
    if Wanted(n, t) {
      var d :| d in n && t in n[d];
      assert d in Holders(m, t) && d != c;
    }
    if Holders(m, t) != {c} {
      assert c in Holders(m, t);
      var d :| d in Holders(m, t) && d != c;
      assert d in n && t in n[d];
    }
  }

  /** How a suspended first subscribe that leaves the queue goes on. */
  lemma SubscribeGoesOn(s: HubState, c: ConsumerId, t: Topic, delivered: bool, raised: bool)
    requires Control(s, None) && c in s.tasks && s.tasks[c] == Subscribing(t) && WaitsAt(s.client.waiters, 0, c)
    ensures var r := Finish(s, delivered, raised);
      && c in r.tasks && r.tasks[c] == Receiving
      && (Holds(r.registry, c, t) <==> !raised)
      && (!raised ==> c in r.ready)
      && (!delivered ==> r.client.wire == s.client.wire)
  {
    RetiredShape(s, delivered, raised);
    assert Holds(s.registry, c, t);
  }

  /**
   * When a first subscribe is refused: exactly when its `ws.send` had begun and raises. A subscribe
   * whose turn comes while there is no open socket is acknowledged, and nothing has been sent.
   */
  lemma RefusedIffSendRaises(s: HubState, c: ConsumerId, t: Topic, result: SendResult, r: HubState)
    requires Reachable(s) && c in s.tasks && s.tasks[c] == Subscribing(t) && WaitsAt(s.client.waiters, 0, c)
    requires Enabled(s, LockTurn(result)) && r == OnLockTurn(s, result)
    ensures c in r.tasks && (r.tasks[c] == Receiving <==> !Begins(s.client))
    ensures !Holds(r.registry, c, t) <==> s.client.sending && result == Raised
    ensures !Begins(s.client) && Holds(r.registry, c, t) ==> c in r.ready
    ensures !s.client.sending ==> r.client.wire == s.client.wire
  {
    ReachableHolds(s);
    if Begins(s.client) {
      SetWsShape(s, result);
    } else {
      TurnFinishes(s, result);
      SubscribeGoesOn(s, c, t, s.client.sending && result == Sent, s.client.sending && result == Raised);
    }
  }

  // ------------------------------------------------------- registry, broker and pump

  /** In every reachable state registry and broker hold the same pairs and every holder has a queue. */
  lemma RegistryAndBrokerAgree(s: HubState)
    requires Reachable(s)
    ensures forall t, c :: Broker.Attached(s.broker, t, c) <==> Holds(s.registry, c, t)
    ensures forall t, c | Holds(s.registry, c, t) :: c in s.broker.queues
    ensures forall c | c in s.broker.queues :: c in s.registry
  {
    ReachableHolds(s);
    forall t, c | Holds(s.registry, c, t) ensures c in s.broker.queues {
      assert Broker.Attached(s.broker, t, c);
    }
  }

  /** No handler meets an unknown consumer, and every pump reads the queue that `publish` writes. */
  lemma HandlersAndPumpsFindTheirs(s: HubState, c: ConsumerId)
    requires Reachable(s)
    ensures c in s.tasks && s.tasks[c] == Receiving ==> c in s.registry
    ensures c in s.ready ==> c in s.broker.queues
    ensures c in s.pumps ==> c in s.broker.queues && s.broker.queues[c].serial == s.pumps[c]
    ensures c in s.delivering || c in s.broken ==> c in s.pumps
  {
    ReachableHolds(s);
  }

  /** Conservation over whole runs: every put is read, dropped, still queued or was discarded. */
  lemma NothingUnaccounted(s: HubState)
    requires Reachable(s)
    ensures s.broker.puts ==
      (Broker.Live(s.broker.queues, Broker.ReadCount) + Broker.Past(s.broker.retired, Broker.ReadCount))
      + s.broker.drops
      + Broker.Live(s.broker.queues, Broker.QueuedCount)
      + Broker.Past(s.broker.retired, Broker.QueuedCount)
  {
    ReachableHolds(s);
    Broker.Conservation(s.broker);
  }

  // ------------------------------------------------------------------------ leaks

  /** No excess interest: why a topic can be in `_topics`. */
  lemma WhyUpstream(s: HubState, t: Topic)
    requires Reachable(s) && t in s.client.topics
    ensures Wanted(s.registry, t) || Listed(s, t) || t in s.failed
  {
    ReachableHolds(s);
  }

  /** Demand is served, unless the first subscribe met a suspended cleanup that listed the topic. */
  lemma DemandIsServed(s: HubState, t: Topic)
    requires Reachable(s) && Wanted(s.registry, t) && t !in s.exposed
    ensures t in s.client.topics
  {
    ReachableHolds(s);
  }

  /** At some disconnect of the run, the pump of `c` had already ended with an exception. */
  ghost predicate LeftBroken(s: HubState, run: seq<Label>, c: ConsumerId) {
    run != [] &&
    var before := Exec(s, run[..|run| - 1]);
    LeftBroken(s, run[..|run| - 1], c) || (run[|run| - 1] == Disconnect(c) && before.Some? && c in before.value.broken)
  }

  lemma ResumeAbandonsNobody(s: HubState, owner: Client.Owner, raised: bool)
    ensures Resume(s, owner, raised).abandoned == s.abandoned
  {
    if owner.Handler? && owner.consumer in s.tasks {
      match s.tasks[owner.consumer] {
        case Cleaning(rest, final) => assert ContinueCleanup(s, owner.consumer, rest, final).abandoned == s.abandoned;
        case _ =>
      }
    }
  }

  lemma TurnAbandonsNobody(s: HubState, result: SendResult)
    requires Enabled(s, LockTurn(result))
    ensures OnLockTurn(s, result).abandoned == s.abandoned
  {
    if s.client.waiters[0].Send? && !Begins(s.client) {
      var delivered, raised := s.client.sending && result == Sent, s.client.sending && result == Raised;
      TurnFinishes(s, result);
      RetiredShape(s, delivered, raised);
      ResumeAbandonsNobody(Retired(s, delivered, raised), s.client.waiters[0].owner, raised);
    } else {
      SetWsShape(s, result);
    }
  }

  lemma StepAbandons(s: HubState, l: Label)
    requires Enabled(s, l)
    ensures Next(s, l).abandoned == s.abandoned + if l.Disconnect? && l.c in s.broken then {l.c} else {}
  {
    match l {
      case LockTurn(result) => TurnAbandonsNobody(s, result);
      case Disconnect(c) => if c !in s.broken { assert Cleanup(s, c).abandoned == s.abandoned; }
      case _ =>
    }
  }

  /** Who has been abandoned is told by the run alone. */
  lemma {:induction false} AbandonedIffLeftBroken(maxsize: int, run: seq<Label>, c: ConsumerId)
    requires Exec(Init(maxsize), run).Some?
    ensures c in Exec(Init(maxsize), run).value.abandoned <==> LeftBroken(Init(maxsize), run, c)
  {
    if run != [] {
      AbandonedIffLeftBroken(maxsize, run[..|run| - 1], c);
      StepAbandons(Exec(Init(maxsize), run[..|run| - 1]).value, run[|run| - 1]);
    }
  }

  /** In every state, buckets and counts are those of what is held. */
  lemma KeysAreHeld(s: HubState)
    requires Agree(s.registry, s.broker)
    ensures s.broker.subscribers.Keys == HeldTopics(s.registry) == Counts(s.registry).Keys
  {
    HeldIffWanted(s.registry);
    forall t ensures t in s.broker.subscribers <==> Wanted(s.registry, t) {
      if t in s.broker.subscribers { Broker.BucketHasSubscriber(s.broker, t); }
      if c :| c in s.registry && t in s.registry[c] { assert Broker.Attached(s.broker, t, c); }
    }
    forall t ensures t in Counts(s.registry) <==> Wanted(s.registry, t) {
      CountPositive(s.registry, t);
    }
  }

  /** Nothing ever takes back what an abandoned consumer holds. */
  lemma {:induction false} AbandonedHolds(s: HubState, run: seq<Label>, c: ConsumerId, r: HubState)
    requires Reachable(s) && c in s.abandoned && Exec(s, run) == Some(r)
    ensures c in r.abandoned && c in r.registry && TopicsOf(r.registry, c) == TopicsOf(s.registry, c)
    ensures forall t | t in TopicsOf(s.registry, c) :: Wanted(r.registry, t)
  {
    ReachableHolds(s);
    if run != [] {
      var m, l := Exec(s, run[..|run| - 1]).value, run[|run| - 1];
      AbandonedHolds(s, run[..|run| - 1], c, m);
      RunKeeps(s, run[..|run| - 1]);
      NextKeeps(m, l);
      StepAbandons(m, l);
      StepTouchesOnly(m, l, c);
    }
  }

  /** With every task ended, what is left is what the abandoned consumers hold, and leftovers. */
  lemma OnlyAbandonedRemain(s: HubState)
    requires Control(s, None) && s.tasks == map[]
    ensures s.registry.Keys == s.abandoned && s.broker.queues.Keys == s.abandoned
    ensures s.ready == {} && s.pumps == map[]
    ensures s.client.topics <= HeldTopics(s.registry) + s.failed
  {
    HeldIffWanted(s.registry);
    assert forall t :: !Listed(s, t);
  }

  lemma NobodyWaits(s: HubState)
    requires Control(s, None) && s.tasks == map[]
    ensures forall i | 0 <= i < |s.client.waiters| :: !Client.FromHandler(s.client.waiters[i])
  {
    assert forall i, c :: !WaitsAt(s.client.waiters, i, c);
    forall i | 0 <= i < |s.client.waiters| ensures !Client.FromHandler(s.client.waiters[i]) {
      match s.client.waiters[i] {
        case Send(_, Handler(c)) => assert !WaitsAt(s.client.waiters, i, c);
        case _ =>
      }
    }
  }

  ghost predicate NothingHeld(s: HubState) {
    && s.registry == map[] && Counts(s.registry) == map[]
    && s.broker.subscribers == map[] && s.broker.queues == map[]
  }

  /**
   * docs/SYSTEM_ARCHITECTURE.md:357 promises the same cleanup for every end of a connection. Once
   * every task has ended, the consumers left in the registry, and the queues left in the broker, are
   * exactly those that disconnected after their pump had failed; so registry, counts, buckets and
   * queues are empty if and only if there was no such disconnect. Beyond what the remaining
   * consumers hold, `_topics` has only rolled-back leftovers.
   */
  lemma NothingLeaksIff(maxsize: int, run: seq<Label>, s: HubState)
    requires Exec(Init(maxsize), run) == Some(s) && s.tasks == map[]
    ensures forall c :: c in s.registry <==> LeftBroken(Init(maxsize), run, c)
    ensures forall c :: c in s.broker.queues <==> LeftBroken(Init(maxsize), run, c)
    ensures NothingHeld(s) <==> forall c :: !LeftBroken(Init(maxsize), run, c)
    ensures s.broker.subscribers.Keys == HeldTopics(s.registry)
    ensures s.client.topics <= HeldTopics(s.registry) + s.failed
    ensures NothingHeld(s) ==> s.client.topics == s.failed
    ensures s.pumps == map[] && forall i | 0 <= i < |s.client.waiters| :: !Client.FromHandler(s.client.waiters[i])
  {
    assert Reachable(s);
    ReachableHolds(s);
    OnlyAbandonedRemain(s);
    KeysAreHeld(s);
    NobodyWaits(s);
    forall c ensures c in s.abandoned <==> LeftBroken(Init(maxsize), run, c) {
      AbandonedIffLeftBroken(maxsize, run, c);
    }
    if s.abandoned == {} {
      assert s.registry == map[] && s.broker.queues == map[];
    } else {
      var c :| c in s.abandoned;
      assert LeftBroken(Init(maxsize), run, c);
    }
  }
}
