/** Runs that happen: what the documentation does not expect, each reached from the start. */
module HubExamples {
  import opened Names
  import opened Registry
  import opened Snapshot
  import opened Queue
  import Broker
  import Client
  import opened Hub
  import opened HubInvariant
  import opened HubRuns
  import opened HubRollback

  /** A connected, resynced client with nothing pending, subscribed to exactly `topics`. */
  function Online(topics: set<Topic>): Client.ClientState {
    Client.ClientState(topics, [], false, false, true, true, topics, Client.Streaming)
  }

  function SubscribeOf(c: ConsumerId, t: Topic): Client.Waiter {
    Client.Send(Client.Frame(true, [t]), Client.Handler(c))
  }

  /** Every consumer is receiving and holds what `held` says, no pump has started, the client is online. */
  ghost predicate Calm(s: HubState, held: Subscriptions, topics: set<Topic>) {
    && Reachable(s) && s.registry == held && s.client == Online(topics) && s.pumps == map[]
    && s.tasks.Keys == held.Keys && forall c | c in s.tasks :: s.tasks[c] == Receiving
  }

  lemma ComesOnline(maxsize: int) returns (s: HubState)
    ensures Calm(s, map[], {})
  {
    var s0 := Init(maxsize);
    InitReachable(maxsize);
    ReachableNext(s0, UpstreamOpens);
    var s1 := Next(s0, UpstreamOpens);
    assert s1.client.waiters == [Client.SetWs(true)];
    ReachableNext(s1, LockTurn(Swallowed));
    s := Next(s1, LockTurn(Swallowed));
  }

  lemma Joins(s: HubState, held: Subscriptions, topics: set<Topic>, c: ConsumerId) returns (r: HubState)
    requires Calm(s, held, topics) && c !in held
    ensures Calm(r, held[c := {}], topics)
  {
    ReachableNext(s, Connect(c));
    r := Next(s, Connect(c));
  }

  /** The first subscribe of `t` is inside `ws.send`. */
  ghost predicate Sending(m: HubState, s: HubState, c: ConsumerId, t: Topic) {
    && Reachable(m) && c in s.registry && m.registry == s.registry[c := s.registry[c] + {t}]
    && m.tasks == s.tasks[c := Subscribing(t)] && m.pumps == s.pumps
    && m.client == s.client.(topics := s.client.topics + {t}, waiters := [SubscribeOf(c, t)], sending := true)
  }

  lemma SubscribeBegins(s: HubState, held: Subscriptions, topics: set<Topic>, c: ConsumerId, t: Topic)
    returns (m: HubState)
    requires Calm(s, held, topics) && c in held && !Wanted(held, t)
    ensures Sending(m, s, c, t)
  {
    ReachableNext(s, Subscribe(c, t));
    var s1 := Next(s, Subscribe(c, t));
    assert s1.client.waiters == [SubscribeOf(c, t)];
    ReachableNext(s1, LockTurn(Sent));
    m := Next(s1, LockTurn(Sent));
  }

  lemma Subscribes(s: HubState, held: Subscriptions, topics: set<Topic>, c: ConsumerId, t: Topic)
    returns (r: HubState)
    requires Calm(s, held, topics) && c in held && !Wanted(held, t)
    ensures Calm(r, held[c := held[c] + {t}], topics + {t}) && c in r.ready
  {
    var m := SubscribeBegins(s, held, topics, c, t);
    ReachableNext(m, LockTurn(Sent));
    r := Next(m, LockTurn(Sent));
    TurnFinishes(m, Sent);
    RetiredShape(m, true, false);
    assert Client.AsSet([t]) == {t};
    assert m.client.waiters[1..] == [];
  }

  // -------------------------------------------------------------- the stale cleanup

  lemma CalmIsUnbroken(s: HubState, held: Subscriptions, topics: set<Topic>)
    requires Calm(s, held, topics)
    ensures s.broken == {}
  {
    ReachableHolds(s);
  }

  lemma OneLeft(held: Subscriptions, a: ConsumerId, b: ConsumerId)
    requires held.Keys == {a, b} && a != b && held[b] == {}
    ensures held - {a} == map[b := {}] && Counts(held - {a}) == map[]
  {
    assert held - {a} == map[b := {}];
    assert HeldTopics(held - {a}) == {};
  }

  /** The holder of `t` and `u` leaves: its cleanup asks for the lock for `t` and still lists `u`. */
  lemma LeavesListing(s: HubState, a: ConsumerId, b: ConsumerId, t: Topic, u: Topic, m: HubState)
    requires s.registry == map[a := {t, u}, b := {}] && s.tasks.Keys == {a, b} && s.tasks[b] == Receiving
    requires a != b && t != u && Le(t, u) && m == Cleanup(s, a)
    ensures m.registry == map[b := {}] && m.client == Client.UnsubscribeTopic(s.client, t, a)
    ensures m.tasks == map[a := Cleaning([u], map[]), b := Receiving]
  {
    OneLeft(s.registry, a, b);
    SortedPair(t, u);
    assert TopicsOf(s.registry, a) == {t, u};
    ListsSecond(Unregistered(s, a), a, t, u, m);
  }

  lemma ListsSecond(s: HubState, a: ConsumerId, t: Topic, u: Topic, m: HubState)
    requires m == ContinueCleanup(s, a, [t, u], map[])
    ensures m.registry == s.registry && m.tasks == s.tasks[a := Cleaning([u], map[])]
    ensures m.client == Client.UnsubscribeTopic(s.client, t, a)
  {
    assert SkipCounted([t, u], map[]) == [t, u] && [t, u][1..] == [u];
  }

  lemma ListedAndWanted(m: HubState, a: ConsumerId, b: ConsumerId, u: Topic, r: HubState)
    requires a != b && m.registry == map[b := {}] && m.tasks == map[a := Cleaning([u], map[]), b := Receiving]
    requires !m.client.running && r == Next(m, Subscribe(b, u))
    ensures Holds(r.registry, b, u) && u in r.client.topics && Listed(r, u)
    ensures !r.client.running || m.client.waiters == []
  {
    assert !Wanted(m.registry, u);
    assert r.tasks[a] == m.tasks[a];
    assert a in r.tasks && WillDiscard(r.tasks[a], u);
  }

  /**
   * For any two consumers and any two topics in order the hub reaches a state, with an open and
   * resynced socket and a cleanup inside `ws.send`, in which a consumer holds a topic in `_topics`
   * that it can lose while it still wants it.
   */
  lemma StaleCleanupTakesWantedTopic(maxsize: int, a: ConsumerId, b: ConsumerId, t: Topic, u: Topic)
    returns (s: HubState)
    requires a != b && t != u && Le(t, u)
    ensures Reachable(s) && Holds(s.registry, b, u) && u in s.client.topics && CanBeLost(s, u)
    ensures s.client.phase == Client.Streaming && s.client.open && s.client.sending && !s.client.running
  {
    s := TwoCalm(maxsize, a, b, t, u);
    CalmIsUnbroken(s, map[a := {t, u}, b := {}], {t, u});
    LeavesListing(s, a, b, t, u, Cleanup(s, a));
    ReachableNext(s, Disconnect(a));
    s := Next(s, Disconnect(a));
    assert Begins(s.client);
    ReachableNext(s, LockTurn(Sent));
    s := Next(s, LockTurn(Sent));
    ReachableNext(s, Subscribe(b, u));
    ListedAndWanted(s, a, b, u, Next(s, Subscribe(b, u)));
    s := Next(s, Subscribe(b, u));
    LostIffListed(s, u);
  }

  lemma Taking(a: ConsumerId, b: ConsumerId, x: set<Topic>, t: Topic)
    requires a != b
    ensures map[a := x, b := {}][a := x + {t}] == map[a := x + {t}, b := {}]
  {
  }

  lemma TwoCalm(maxsize: int, a: ConsumerId, b: ConsumerId, t: Topic, u: Topic) returns (s: HubState)
    requires a != b && t != u
    ensures Calm(s, map[a := {t, u}, b := {}], {t, u})
  {
    s := ComesOnline(maxsize);
    s := Joins(s, map[], {}, a);
    s := Joins(s, map[a := {}], {}, b);
    s := Subscribes(s, map[a := {}, b := {}], {}, a, t);
    Taking(a, b, {}, t);
    s := Subscribes(s, map[a := {} + {t}, b := {}], {} + {t}, a, u);
    Taking(a, b, {} + {t}, u);
    assert {} + {t} + {u} == {t, u};
  }

  // ------------------------------------------------------------ the leftover topic

  /** A refused first subscribe leaves its topic in `_topics` with nobody wanting it. */
  lemma RollbackLeavesTopic(maxsize: int, a: ConsumerId, t: Topic) returns (s: HubState)
    ensures Reachable(s) && !Wanted(s.registry, t) && t in s.client.topics && t in s.failed
    ensures a in s.tasks && s.tasks[a] == Receiving && !s.client.running
  {
    s := ComesOnline(maxsize);
    s := Joins(s, map[], {}, a);
    var m := SubscribeBegins(s, map[a := {}], {}, a, t);
    ReachableNext(m, UpstreamCloses);
    m := Next(m, UpstreamCloses);
    ReachableNext(m, LockTurn(Raised));
    s := Next(m, LockTurn(Raised));
    FailureIsRollback(m, a, t);
    RetiredShape(m, false, true);
  }

  // -------------------------------------------------------------- the failed pump

  lemma PumpTakesItem(s: HubState, a: ConsumerId, t: Topic, e: MarketEvent) returns (r: HubState)
    requires Calm(s, map[a := {t}], {t}) && a in s.ready && e.topic == t
    ensures Reachable(r) && r.registry == s.registry && r.tasks == s.tasks && r.client == s.client
    ensures a in r.delivering
  {
    ReachableHolds(s);
    ReachableNext(s, PumpStarts(a));
    var s1 := Next(s, PumpStarts(a));
    ReachableNext(s1, Dispatch(e));
    var s2 := Next(s1, Dispatch(e));
    ReachableHolds(s2);
    assert Holds(s.registry, a, t);
    ReachableNext(s2, PumpReads(a));
    r := Next(s2, PumpReads(a));
  }

  lemma OneHolder(a: ConsumerId, t: Topic)
    ensures Counts(map[a := {t}]) == map[t := 1]
  {
    var m: Subscriptions := map[a := {t}];
    forall u ensures u in HeldTopics(m) <==> u == t {
      if u == t { assert a in m && u in m[a]; }
    }
    forall c ensures c in Holders(m, t) <==> c == a {}
    assert HeldTopics(m) == {t};
    assert Holders(m, t) == {a};
  }

  /** The pump of `a` fails and `a` disconnects. */
  lemma FailsAndLeaves(s: HubState, a: ConsumerId) returns (r: HubState)
    requires Reachable(s) && a in s.delivering && a in s.tasks && s.tasks[a] == Receiving && !s.client.running
    ensures Reachable(r) && r.registry == s.registry && r.tasks == s.tasks - {a} && r.client == s.client
  {
    ReachableNext(s, PumpFails(a));
    var s1 := Next(s, PumpFails(a));
    ReachableNext(s1, Disconnect(a));
    r := Next(s1, Disconnect(a));
  }

  /**
   * A pump whose `websocket.send_json` raised makes the cleanup not run: with every task ended, the
   * consumer is still registered, counted and subscribed, keeps its queue, and is served upstream.
   */
  lemma FailedPumpLeaks(maxsize: int, a: ConsumerId, t: Topic, e: MarketEvent) returns (s: HubState)
    requires e.topic == t
    ensures Reachable(s) && s.tasks == map[] && !s.client.running
    ensures s.registry == map[a := {t}] && Counts(s.registry) == map[t := 1]
    ensures Broker.Attached(s.broker, t, a) && a in s.broker.queues
    ensures t in s.client.topics && s.client.open && t in s.client.wire
  {
    s := ComesOnline(maxsize);
    s := Joins(s, map[], {}, a);
    s := Subscribes(s, map[a := {}], {}, a, t);
    assert s.registry[a] == {t} && s.client.topics == {t};
    assert s.registry == map[a := {t}];
    s := PumpTakesItem(s, a, t, e);
    s := FailsAndLeaves(s, a);
    OneHolder(a, t);
    RegistryAndBrokerAgree(s);
    assert Holds(s.registry, a, t);
  }
}
