/** What every step of the hub keeps: the control plane. */
module HubInvariant {
  import opened Names
  import opened Registry
  import opened Snapshot
  import opened Queue
  import Broker
  import Client
  import opened Hub

  /** Registry and broker hold the same pairs, and only registered consumers have queues. */
  ghost predicate Agree(m: Subscriptions, b: Broker.BrokerState) {
    && Broker.ValidBroker(b)
    && Broker.Accounted(b)
    && (forall t, c :: Broker.Attached(b, t, c) <==> Holds(m, c, t))
    && (forall c | c in b.queues :: c in m)
  }

  /**
   * A consumer is registered until its cleanup, or for ever if its task has ended without one, and
   * holds what it is subscribing.
   */
  ghost predicate TasksRight(m: Subscriptions, tasks: map<ConsumerId, Task>, abandoned: set<ConsumerId>) {
    && (forall c :: c in m <==> (c in tasks && !tasks[c].Cleaning?) || c in abandoned)
    && (forall c | c in abandoned :: c !in tasks)
    && (forall c | c in tasks && tasks[c].Subscribing? :: Holds(m, c, tasks[c].topic))
  }

  /** Every pump that may start finds a queue, and the queue it took is still the broker's. */
  ghost predicate PumpsRight(queues: map<ConsumerId, QueueState>, ready: set<ConsumerId>, pumps: map<ConsumerId, nat>) {
    && (forall c | c in ready :: c in queues)
    && (forall c | c in pumps :: c in ready && queues[c].serial == pumps[c])
  }

  /** Only a pump that took a queue delivers or breaks. */
  ghost predicate PumpsEnd(pumps: map<ConsumerId, nat>, delivering: set<ConsumerId>, broken: set<ConsumerId>) {
    delivering <= pumps.Keys && broken <= pumps.Keys && delivering !! broken
  }

  /** Who was abandoned has a queue, and no pump that could still start. */
  ghost predicate AbandonedRight(queues: map<ConsumerId, QueueState>, ready: set<ConsumerId>,
                                 abandoned: set<ConsumerId>)
  {
    abandoned <= queues.Keys && abandoned !! ready
  }

  predicate WaitsAt(q: seq<Client.Waiter>, i: int, c: ConsumerId) {
    0 <= i < |q| && q[i].Send? && q[i].owner == Client.Handler(c)
  }

  /** Suspended handlers and waiters correspond one to one, except for a handler that is running. */
  ghost predicate WaitersRight(tasks: map<ConsumerId, Task>, q: seq<Client.Waiter>, active: Option<ConsumerId>) {
    && (forall i, c | WaitsAt(q, i, c) :: c in tasks && tasks[c] != Receiving && active != Some(c))
    && (forall i, j, c | WaitsAt(q, i, c) && WaitsAt(q, j, c) :: i == j)
    && (forall c | c in tasks && tasks[c] != Receiving && active != Some(c) :: exists i :: WaitsAt(q, i, c))
    && (active.Some? ==> active.value in tasks && tasks[active.value] != Receiving)
  }

  /** Demand is served: a wanted topic is in `_topics`, unless it was exposed to a stale cleanup. */
  ghost predicate DemandServed(s: HubState) {
    forall t | Wanted(s.registry, t) && t !in s.exposed :: t in s.client.topics && !Listed(s, t)
  }

  /** No excess: what is in `_topics` is wanted, about to be discarded, or a rolled-back leftover. */
  ghost predicate NoExcess(s: HubState) {
    && (forall t | t in s.client.topics :: Wanted(s.registry, t) || Listed(s, t) || t in s.failed)
    && s.failed <= s.client.topics
  }

  ghost predicate Structure(s: HubState) {
    && Agree(s.registry, s.broker)
    && TasksRight(s.registry, s.tasks, s.abandoned)
    && PumpsRight(s.broker.queues, s.ready, s.pumps)
    && PumpsEnd(s.pumps, s.delivering, s.broken)
    && AbandonedRight(s.broker.queues, s.ready, s.abandoned)
  }

  ghost predicate Waiting(s: HubState, active: Option<ConsumerId>) {
    WaitersRight(s.tasks, s.client.waiters, active) && Client.ValidClient(s.client)
  }

  ghost predicate Interest(s: HubState) {
    DemandServed(s) && NoExcess(s)
  }

  /** The invariant; `active` is the handler that is running in the middle of a step, if any. */
  ghost predicate Control(s: HubState, active: Option<ConsumerId>) {
    Structure(s) && Waiting(s, active) && Interest(s)
  }

  // -------------------------------------------------------------------- vocabulary

  lemma WantedAfterAdd(m: Subscriptions, c: ConsumerId, t: Topic)
    ensures var n := m[c := TopicsOf(m, c) + {t}]; forall u :: Wanted(n, u) <==> Wanted(m, u) || u == t
  {
    var n := m[c := TopicsOf(m, c) + {t}];
    forall u ensures Wanted(n, u) <==> Wanted(m, u) || u == t {
      if Wanted(m, u) { var d :| d in m && u in m[d]; assert d in n && u in n[d]; }
      if u == t { assert c in n && u in n[c]; }
    }
  }

  lemma WantedAfterDrop(m: Subscriptions, c: ConsumerId, t: Topic)
    requires c in m
    ensures var n := m[c := m[c] - {t}];
      && (forall u | u != t :: Wanted(n, u) <==> Wanted(m, u))
      && (Wanted(n, t) ==> Wanted(m, t))
  {
    var n := m[c := m[c] - {t}];
    forall u | u != t ensures Wanted(n, u) <==> Wanted(m, u) {
      if Wanted(m, u) { var d :| d in m && u in m[d]; assert d in n && u in n[d]; }
      if Wanted(n, u) { var d :| d in n && u in n[d]; assert d in m && u in m[d]; }
    }
    if Wanted(n, t) { var d :| d in n && t in n[d]; assert d in m && t in m[d]; }
  }

  lemma WantedAfterLeave(m: Subscriptions, c: ConsumerId)
    ensures forall u :: Wanted(m - {c}, u) ==> Wanted(m, u)
    ensures forall u | Wanted(m, u) && !Wanted(m - {c}, u) :: c in m && u in m[c]
  {
    var n := m - {c};
    forall u ensures Wanted(n, u) ==> Wanted(m, u) {
      if Wanted(n, u) { var d :| d in n && u in n[d]; assert d in m && u in m[d]; }
    }
    forall u | Wanted(m, u) ensures Wanted(n, u) || (c in m && u in m[c]) {
      var d :| d in m && u in m[d];
      if d != c { assert d in n && u in n[d]; }
    }
  }

  /** Only the task of `c` differs, and no cleanup is involved: the same topics are listed. */
  lemma SameListed(s: HubState, r: HubState, c: ConsumerId)
    requires forall d | d != c :: (d in s.tasks <==> d in r.tasks) && (d in s.tasks ==> s.tasks[d] == r.tasks[d])
    requires c in s.tasks ==> !s.tasks[c].Cleaning?
    requires c in r.tasks ==> !r.tasks[c].Cleaning?
    ensures forall t :: Listed(s, t) <==> Listed(r, t)
  {
    forall t ensures Listed(s, t) <==> Listed(r, t) {
      if Listed(s, t) {
        var d :| d in s.tasks && WillDiscard(s.tasks[d], t);
        assert d in r.tasks && WillDiscard(r.tasks[d], t);
      }
      if Listed(r, t) {
        var d :| d in r.tasks && WillDiscard(r.tasks[d], t);
        assert d in s.tasks && WillDiscard(s.tasks[d], t);
      }
    }
  }

  // ---------------------------------------------------------- registry and broker

  lemma AddPairAgrees(s: HubState, c: ConsumerId, t: Topic)
    requires Agree(s.registry, s.broker) && c in s.registry
    ensures var r := AddPair(s, c, t); Agree(r.registry, r.broker)
    ensures forall d | d in s.broker.queues :: AddPair(s, c, t).broker.queues[d] == s.broker.queues[d]
    ensures AddPair(s, c, t).broker.queues.Keys == s.broker.queues.Keys + {c}
  {
    Broker.AttachKeeps(s.broker, t, c);
    Broker.AttachAccounts(s.broker, t, c);
  }

  lemma DropPairAgrees(s: HubState, c: ConsumerId, t: Topic)
    requires Agree(s.registry, s.broker) && c in s.registry
    ensures var r := DropPair(s, c, t); Agree(r.registry, r.broker)
    ensures DropPair(s, c, t).broker.queues == s.broker.queues
  {
    Broker.DetachKeeps(s.broker, t, c);
  }

  lemma LeaveAgrees(s: HubState, c: ConsumerId)
    requires Agree(s.registry, s.broker)
    ensures var r := Unregistered(s, c); Agree(r.registry, r.broker)
  {
    Broker.RemoveKeeps(s.broker, c);
    Broker.RemoveAccounts(s.broker, c);
  }

  // --------------------------------------------------------------- handler steps

  lemma EmptyWantsNothing(m: Subscriptions, c: ConsumerId)
    requires c !in m
    ensures forall u :: Wanted(m[c := {}], u) <==> Wanted(m, u)
  {
    var n := m[c := {}];
    forall u ensures Wanted(n, u) <==> Wanted(m, u) {
      if Wanted(m, u) { var d :| d in m && u in m[d]; assert d in n && u in n[d]; }
      if Wanted(n, u) { var d :| d in n && u in n[d]; assert d in m && u in m[d]; }
    }
  }

  lemma ConnectAgrees(m: Subscriptions, b: Broker.BrokerState, c: ConsumerId)
    requires Agree(m, b) && c !in m
    ensures Agree(m[c := {}], b)
  {
    assert forall t, d :: Holds(m[c := {}], d, t) <==> Holds(m, d, t);
  }

  lemma ConnectTasks(m: Subscriptions, tasks: map<ConsumerId, Task>, abandoned: set<ConsumerId>, c: ConsumerId)
    requires TasksRight(m, tasks, abandoned) && c !in m && c !in tasks
    ensures TasksRight(m[c := {}], tasks[c := Receiving], abandoned)
  {
  }

  lemma ConnectWaiters(tasks: map<ConsumerId, Task>, q: seq<Client.Waiter>, c: ConsumerId)
    requires WaitersRight(tasks, q, None) && c !in tasks
    ensures WaitersRight(tasks[c := Receiving], q, None)
  {
  }

  lemma ConnectKeeps(s: HubState, c: ConsumerId)
    requires Control(s, None) && c !in s.tasks && c !in s.registry
    ensures Control(OnConnect(s, c), None)
  {
    ConnectAgrees(s.registry, s.broker, c);
    ConnectTasks(s.registry, s.tasks, s.abandoned, c);
    ConnectWaiters(s.tasks, s.client.waiters, c);
    EmptyWantsNothing(s.registry, c);
    SameListed(s, OnConnect(s, c), c);
  }

  lemma QueueUp(s: HubState, r: HubState, w: Client.Waiter, c: ConsumerId, active: Option<ConsumerId>)
    requires WaitersRight(s.tasks, s.client.waiters, active)
    requires active == None || active == Some(c)
    requires c in s.tasks && (s.tasks[c] == Receiving || active == Some(c))
    requires w.Send? && w.owner == Client.Handler(c) && r.client.waiters == s.client.waiters + [w]
    requires c in r.tasks && r.tasks[c] != Receiving
    requires forall d | d != c :: (d in s.tasks <==> d in r.tasks) && (d in s.tasks ==> s.tasks[d] == r.tasks[d])
    ensures WaitersRight(r.tasks, r.client.waiters, None)
  {
    var q, p := s.client.waiters, r.client.waiters;
    forall i, d | WaitsAt(p, i, d)
      ensures d in r.tasks && r.tasks[d] != Receiving && (i < |q| ==> WaitsAt(q, i, d) && d != c)
    {
      if i < |q| { assert WaitsAt(q, i, d); }
    }
    forall d | d in r.tasks && r.tasks[d] != Receiving ensures exists i :: WaitsAt(p, i, d) {
      if d == c {
        assert WaitsAt(p, |q|, c);
      } else {
        var i :| WaitsAt(q, i, d);
        assert WaitsAt(p, i, d);
      }
    }
  }

  lemma RetaskKeeps(m: Subscriptions, tasks: map<ConsumerId, Task>, abandoned: set<ConsumerId>, c: ConsumerId,
                    task: Task)
    requires TasksRight(m, tasks, abandoned) && c in tasks && tasks[c].Cleaning? == task.Cleaning?
    requires task.Subscribing? ==> Holds(m, c, task.topic)
    ensures TasksRight(m, tasks[c := task], abandoned)
  {
  }

  lemma AddPairTasks(s: HubState, c: ConsumerId, t: Topic)
    requires TasksRight(s.registry, s.tasks, s.abandoned) && c in s.registry
    ensures TasksRight(AddPair(s, c, t).registry, s.tasks, s.abandoned)
  {
  }

  /** Queues that keep their identity, and new ones, are no concern of the pumps. */
  lemma SameQueues(queues: map<ConsumerId, QueueState>, now: map<ConsumerId, QueueState>, ready: set<ConsumerId>,
                   pumps: map<ConsumerId, nat>, abandoned: set<ConsumerId>)
    requires PumpsRight(queues, ready, pumps) && AbandonedRight(queues, ready, abandoned)
    requires forall c | c in queues :: c in now && now[c].serial == queues[c].serial
    ensures PumpsRight(now, ready, pumps) && AbandonedRight(now, ready, abandoned)
  {
  }

  lemma LeavePumps(queues: map<ConsumerId, QueueState>, ready: set<ConsumerId>, pumps: map<ConsumerId, nat>,
                   delivering: set<ConsumerId>, broken: set<ConsumerId>, abandoned: set<ConsumerId>, c: ConsumerId)
    requires PumpsRight(queues, ready, pumps) && PumpsEnd(pumps, delivering, broken)
    requires AbandonedRight(queues, ready, abandoned) && c !in broken && c !in abandoned
    ensures PumpsRight(queues - {c}, ready - {c}, pumps - {c})
    ensures PumpsEnd(pumps - {c}, delivering - {c}, broken)
    ensures AbandonedRight(queues - {c}, ready - {c}, abandoned)
  {
  }

  lemma PairAdded(s: HubState, c: ConsumerId, t: Topic)
    requires Structure(s) && c in s.registry
    ensures Structure(AddPair(s, c, t))
    ensures c in AddPair(s, c, t).broker.queues && Holds(AddPair(s, c, t).registry, c, t)
  {
    AddPairAgrees(s, c, t);
    AddPairTasks(s, c, t);
    SameQueues(s.broker.queues, AddPair(s, c, t).broker.queues, s.ready, s.pumps, s.abandoned);
  }

  lemma SubscribeStructure(s: HubState, c: ConsumerId, t: Topic)
    requires Structure(s) && c in s.tasks && s.tasks[c] == Receiving
    ensures Structure(OnSubscribe(s, c, t))
  {
    var r := AddPair(s, c, t);
    PairAdded(s, c, t);
    if Wanted(s.registry, t) {
      NowReady(r, c);
    } else {
      RetaskKeeps(r.registry, s.tasks, s.abandoned, c, Subscribing(t));
    }
  }

  lemma NowReady(s: HubState, c: ConsumerId)
    requires Structure(s) && c in s.broker.queues && c in s.tasks
    ensures Structure(s.(ready := s.ready + {c}))
  {
  }

  lemma SubscribeWaiting(s: HubState, c: ConsumerId, t: Topic)
    requires Waiting(s, None) && c in s.tasks && s.tasks[c] == Receiving
    ensures Waiting(OnSubscribe(s, c, t), None)
  {
    var r := OnSubscribe(s, c, t);
    if r.client != s.client {
      Client.TopicChangeKeeps(s.client, true, t, c);
      QueueUp(s, r, Client.Send(Client.Frame(true, [t]), Client.Handler(c)), c, None);
    } else {
      assert r.tasks == s.tasks;
    }
  }

  lemma SubscribeInterest(s: HubState, c: ConsumerId, t: Topic)
    requires Interest(s) && c in s.tasks && s.tasks[c] == Receiving && c in s.registry
    ensures Interest(OnSubscribe(s, c, t))
  {
    WantedAfterAdd(s.registry, c, t);
    SameListed(s, OnSubscribe(s, c, t), c);
  }

  lemma SubscribeKeeps(s: HubState, c: ConsumerId, t: Topic)
    requires Control(s, None) && c in s.tasks && s.tasks[c] == Receiving
    ensures Control(OnSubscribe(s, c, t), None)
  {
    SubscribeStructure(s, c, t);
    SubscribeWaiting(s, c, t);
    SubscribeInterest(s, c, t);
  }

  lemma DropPairTasks(s: HubState, c: ConsumerId, t: Topic)
    requires TasksRight(s.registry, s.tasks, s.abandoned) && c in s.tasks
    requires s.tasks[c].Subscribing? ==> s.tasks[c].topic != t
    ensures TasksRight(DropPair(s, c, t).registry, s.tasks, s.abandoned)
  {
  }

  lemma UnsubscribeStructure(s: HubState, c: ConsumerId, t: Topic)
    requires Structure(s) && c in s.tasks && s.tasks[c] == Receiving
    ensures Structure(OnUnsubscribe(s, c, t))
  {
    DropPairAgrees(s, c, t);
    DropPairTasks(s, c, t);
    if Wanted(s.registry, t) && !Wanted(DropPair(s, c, t).registry, t) {
      RetaskKeeps(DropPair(s, c, t).registry, s.tasks, s.abandoned, c, Unsubscribing(t));
    }
  }

  lemma UnsubscribeWaiting(s: HubState, c: ConsumerId, t: Topic)
    requires Waiting(s, None) && c in s.tasks && s.tasks[c] == Receiving
    ensures Waiting(OnUnsubscribe(s, c, t), None)
  {
    if Wanted(s.registry, t) && !Wanted(DropPair(s, c, t).registry, t) {
      Client.TopicChangeKeeps(s.client, false, t, c);
      QueueUp(s, OnUnsubscribe(s, c, t), Client.Send(Client.Frame(false, [t]), Client.Handler(c)), c, None);
    }
  }

  lemma UnsubscribeInterest(s: HubState, c: ConsumerId, t: Topic)
    requires Interest(s) && c in s.tasks && s.tasks[c] == Receiving && c in s.registry
    ensures Interest(OnUnsubscribe(s, c, t))
  {
    WantedAfterDrop(s.registry, c, t);
    SameListed(s, OnUnsubscribe(s, c, t), c);
  }

  lemma UnsubscribeKeeps(s: HubState, c: ConsumerId, t: Topic)
    requires Control(s, None) && c in s.tasks && s.tasks[c] == Receiving
    ensures Control(OnUnsubscribe(s, c, t), None)
  {
    UnsubscribeStructure(s, c, t);
    UnsubscribeWaiting(s, c, t);
    UnsubscribeInterest(s, c, t);
  }

  // --------------------------------------------------------------------- cleanup

  lemma {:induction false} SkipCountedFinds(topics: seq<Topic>, final: map<Topic, nat>)
    ensures var todo := SkipCounted(topics, final);
      && |todo| <= |topics|
      && (todo != [] ==> CountOf(final, todo[0]) == 0)
      && (forall t :: (t in topics && CountOf(final, t) == 0) <==> (t in todo && CountOf(final, t) == 0))
  {
    if topics != [] && CountOf(final, topics[0]) != 0 {
      SkipCountedFinds(topics[1..], final);
      assert topics == [topics[0]] + topics[1..];
    }
  }

  lemma LeaveTasks(m: Subscriptions, tasks: map<ConsumerId, Task>, abandoned: set<ConsumerId>, c: ConsumerId,
                   task: Task)
    requires TasksRight(m, tasks, abandoned) && c in tasks && task.Cleaning?
    ensures TasksRight(m - {c}, tasks[c := task], abandoned)
  {
  }

  lemma UnregisteredInterest(s: HubState, c: ConsumerId)
    requires Interest(s) && c in s.tasks && s.tasks[c] == Receiving
    ensures Interest(Unregistered(s, c))
  {
    var r := Unregistered(s, c);
    WantedAfterLeave(s.registry, c);
    SortedIsSorted(TopicsOf(s.registry, c));
    forall t ensures CountOf(r.tasks[c].final, t) == 0 <==> !Wanted(r.registry, t) {
      CountPositive(r.registry, t);
    }
    forall t | Listed(s, t) ensures Listed(r, t) {
      var d :| d in s.tasks && WillDiscard(s.tasks[d], t);
      assert d in r.tasks && WillDiscard(r.tasks[d], t);
    }
    forall t | Listed(r, t) ensures Listed(s, t) || !Wanted(r.registry, t) {
      var d :| d in r.tasks && WillDiscard(r.tasks[d], t);
      if d != c { assert d in s.tasks && WillDiscard(s.tasks[d], t); }
    }
    forall t | t in r.client.topics && !Wanted(r.registry, t) && t !in r.failed ensures Listed(r, t) {
      if Wanted(s.registry, t) {
        assert c in r.tasks && WillDiscard(r.tasks[c], t);
      }
    }
  }

  lemma NowCleaning(tasks: map<ConsumerId, Task>, q: seq<Client.Waiter>, c: ConsumerId, task: Task)
    requires WaitersRight(tasks, q, None) && c in tasks && tasks[c] == Receiving && task.Cleaning?
    ensures WaitersRight(tasks[c := task], q, Some(c))
  {
  }

  lemma UnregisteredStructure(s: HubState, c: ConsumerId)
    requires Structure(s) && c in s.tasks && s.tasks[c] == Receiving && c !in s.broken
    ensures Structure(Unregistered(s, c))
  {
    LeaveAgrees(s, c);
    LeaveTasks(s.registry, s.tasks, s.abandoned, c, Unregistered(s, c).tasks[c]);
    LeavePumps(s.broker.queues, s.ready, s.pumps, s.delivering, s.broken, s.abandoned, c);
  }

  /** Registry and broker let go of `c`: everything holds, with the cleanup of `c` running. */
  lemma UnregisteredKeeps(s: HubState, c: ConsumerId)
    requires Control(s, None) && c in s.tasks && s.tasks[c] == Receiving && c !in s.broken
    ensures Control(Unregistered(s, c), Some(c))
  {
    UnregisteredStructure(s, c);
    NowCleaning(s.tasks, s.client.waiters, c, Unregistered(s, c).tasks[c]);
    UnregisteredInterest(s, c);
  }

  lemma ContinueCleanupWaiting(s: HubState, c: ConsumerId, topics: seq<Topic>, final: map<Topic, nat>)
    requires Waiting(s, Some(c)) && s.tasks[c] == Cleaning(topics, final)
    ensures Waiting(ContinueCleanup(s, c, topics, final), None)
  {
    var todo := SkipCounted(topics, final);
    if todo != [] {
      var r := ContinueCleanup(s, c, topics, final);
      Client.TopicChangeKeeps(s.client, false, todo[0], c);
      QueueUp(s, r, Client.Send(Client.Frame(false, [todo[0]]), Client.Handler(c)), c, Some(c));
    }
  }

  /** Going on with a cleanup takes the topic it discards, if any, off the lists, and no other. */
  lemma ContinueCleanupLists(s: HubState, c: ConsumerId, topics: seq<Topic>, final: map<Topic, nat>)
    requires c in s.tasks && s.tasks[c] == Cleaning(topics, final)
    ensures var r, todo := ContinueCleanup(s, c, topics, final), SkipCounted(topics, final);
      && (forall t | Listed(r, t) :: Listed(s, t))
      && (forall t | Listed(s, t) :: Listed(r, t) || (todo != [] && t == todo[0]))
      && (todo != [] ==> Listed(s, todo[0]))
  {
    var r := ContinueCleanup(s, c, topics, final);
    var todo := SkipCounted(topics, final);
    SkipCountedFinds(topics, final);
    forall t | Listed(r, t) ensures Listed(s, t) {
      var d :| d in r.tasks && WillDiscard(r.tasks[d], t);
      assert d in s.tasks && WillDiscard(s.tasks[d], t);
    }
    forall t | Listed(s, t) ensures Listed(r, t) || (todo != [] && t == todo[0]) {
      var d :| d in s.tasks && WillDiscard(s.tasks[d], t);
      if d != c {
        assert d in r.tasks && WillDiscard(r.tasks[d], t);
      } else if t != todo[0] {
        assert todo == [todo[0]] + todo[1..];
        assert c in r.tasks && WillDiscard(r.tasks[c], t);
      }
    }
    if todo != [] {
      assert c in s.tasks && WillDiscard(s.tasks[c], todo[0]);
    }
  }

  lemma ContinueCleanupInterest(s: HubState, c: ConsumerId, topics: seq<Topic>, final: map<Topic, nat>)
    requires Interest(s) && c in s.tasks && s.tasks[c] == Cleaning(topics, final)
    ensures Interest(ContinueCleanup(s, c, topics, final))
  {
    ContinueCleanupLists(s, c, topics, final);
  }

  lemma ContinueCleanupStructure(s: HubState, c: ConsumerId, topics: seq<Topic>, final: map<Topic, nat>)
    requires Structure(s) && c in s.tasks && s.tasks[c] == Cleaning(topics, final)
    ensures Structure(ContinueCleanup(s, c, topics, final))
  {
    var todo := SkipCounted(topics, final);
    if todo != [] {
      RetaskKeeps(s.registry, s.tasks, s.abandoned, c, Cleaning(todo[1..], final));
    }
  }

  lemma ContinueCleanupKeeps(s: HubState, c: ConsumerId, topics: seq<Topic>, final: map<Topic, nat>)
    requires Control(s, Some(c)) && s.tasks[c] == Cleaning(topics, final)
    ensures Control(ContinueCleanup(s, c, topics, final), None)
  {
    ContinueCleanupWaiting(s, c, topics, final);
    ContinueCleanupInterest(s, c, topics, final);
    ContinueCleanupStructure(s, c, topics, final);
  }

  lemma CleanupKeeps(s: HubState, c: ConsumerId)
    requires Control(s, None) && c in s.tasks && s.tasks[c] == Receiving && c !in s.broken
    ensures Control(Cleanup(s, c), None)
  {
    UnregisteredKeeps(s, c);
    ContinueCleanupKeeps(Unregistered(s, c), c, Sorted(TopicsOf(s.registry, c)), Counts(s.registry - {c}));
  }

  lemma AbandonTasks(m: Subscriptions, tasks: map<ConsumerId, Task>, abandoned: set<ConsumerId>, c: ConsumerId)
    requires TasksRight(m, tasks, abandoned) && c in tasks && tasks[c] == Receiving
    ensures TasksRight(m, tasks - {c}, abandoned + {c})
  {
  }

  lemma AbandonWaiters(tasks: map<ConsumerId, Task>, q: seq<Client.Waiter>, c: ConsumerId)
    requires WaitersRight(tasks, q, None) && c in tasks && tasks[c] == Receiving
    ensures WaitersRight(tasks - {c}, q, None)
  {
  }

  /** A task that ends without its cleanup leaves everything else in order. */
  lemma AbandonKeeps(s: HubState, c: ConsumerId)
    requires Control(s, None) && c in s.tasks && s.tasks[c] == Receiving && c in s.broken
    ensures Control(Abandon(s, c), None)
  {
    AbandonStructure(s, c);
    AbandonWaiters(s.tasks, s.client.waiters, c);
    AbandonInterest(s, c);
  }

  lemma AbandonInterest(s: HubState, c: ConsumerId)
    requires Interest(s) && c in s.tasks && s.tasks[c] == Receiving
    ensures Interest(Abandon(s, c))
  {
    SameListed(s, Abandon(s, c), c);
  }

  lemma AbandonStructure(s: HubState, c: ConsumerId)
    requires Structure(s) && c in s.tasks && s.tasks[c] == Receiving && c in s.broken
    ensures Structure(Abandon(s, c))
  {
    AbandonTasks(s.registry, s.tasks, s.abandoned, c);
    AbandonPumps(s.broker.queues, s.ready, s.pumps, s.delivering, s.broken, s.abandoned, c);
  }

  lemma AbandonPumps(queues: map<ConsumerId, QueueState>, ready: set<ConsumerId>, pumps: map<ConsumerId, nat>,
                     delivering: set<ConsumerId>, broken: set<ConsumerId>, abandoned: set<ConsumerId>, c: ConsumerId)
    requires PumpsRight(queues, ready, pumps) && PumpsEnd(pumps, delivering, broken)
    requires AbandonedRight(queues, ready, abandoned) && c in broken
    ensures PumpsRight(queues, ready - {c}, pumps - {c})
    ensures PumpsEnd(pumps - {c}, delivering, broken - {c})
    ensures AbandonedRight(queues, ready - {c}, abandoned + {c})
  {
  }

  lemma DisconnectKeeps(s: HubState, c: ConsumerId)
    requires Control(s, None) && c in s.tasks && s.tasks[c] == Receiving
    ensures Control(OnDisconnect(s, c), None)
  {
    if c in s.broken {
      AbandonKeeps(s, c);
    } else {
      CleanupKeeps(s, c);
    }
  }

  // ----------------------------------------------------------------- the lock turn

  lemma RollbackInterest(s: HubState, c: ConsumerId, t: Topic)
    requires Interest(s) && c in s.tasks && s.tasks[c] == Subscribing(t) && c in s.registry
    ensures Interest(Rollback(s, c, t))
  {
    WantedAfterDrop(s.registry, c, t);
    SameListed(s, Rollback(s, c, t), c);
  }

  lemma RollbackKeeps(s: HubState, c: ConsumerId, t: Topic)
    requires Control(s, Some(c)) && s.tasks[c] == Subscribing(t)
    ensures Control(Rollback(s, c, t), None)
  {
    DropPairAgrees(s, c, t);
    RollbackInterest(s, c, t);
    DropPairTasks(s.(tasks := s.tasks[c := Receiving]), c, t);
    NowReceiving(s, c);
  }

  /** The handler of `c` has nothing left to do upstream and goes back to receiving. */
  lemma BackToReceivingKeeps(s: HubState, c: ConsumerId, ready: set<ConsumerId>)
    requires Control(s, Some(c)) && (s.tasks[c].Subscribing? || s.tasks[c].Unsubscribing?)
    requires ready == s.ready || (s.tasks[c].Subscribing? && ready == s.ready + {c})
    ensures Control(s.(tasks := s.tasks[c := Receiving], ready := ready), None)
  {
    var r := s.(tasks := s.tasks[c := Receiving], ready := ready);
    ReceivingStructure(s, c);
    if ready != s.ready {
      HolderHasQueue(s, c);
      NowReady(s.(tasks := s.tasks[c := Receiving]), c);
    }
    NowReceiving(s, c);
    SameListed(s, r, c);
    assert Interest(r);
  }

  lemma ReceivingStructure(s: HubState, c: ConsumerId)
    requires Structure(s) && c in s.tasks && !s.tasks[c].Cleaning?
    ensures Structure(s.(tasks := s.tasks[c := Receiving]))
  {
    RetaskKeeps(s.registry, s.tasks, s.abandoned, c, Receiving);
  }

  lemma HolderHasQueue(s: HubState, c: ConsumerId)
    requires Structure(s) && c in s.tasks && s.tasks[c].Subscribing?
    ensures c in s.broker.queues
  {
    assert Broker.Attached(s.broker, s.tasks[c].topic, c);
  }

  lemma NowReceiving(s: HubState, c: ConsumerId)
    requires WaitersRight(s.tasks, s.client.waiters, Some(c))
    ensures WaitersRight(s.tasks[c := Receiving], s.client.waiters, None)
  {
  }

  lemma ResumeKeeps(s: HubState, c: ConsumerId, raised: bool)
    requires Control(s, Some(c))
    ensures Control(Resume(s, Client.Handler(c), raised), None)
  {
    match s.tasks[c] {
      case Subscribing(t) =>
        if raised { RollbackKeeps(s, c, t); } else { BackToReceivingKeeps(s, c, s.ready + {c}); }
      case Unsubscribing(_) => BackToReceivingKeeps(s, c, s.ready);
      case Cleaning(rest, final) => ContinueCleanupKeeps(s, c, rest, final);
    }
  }

  /** The head leaves the queue, and its task, if it is a handler, runs. */
  lemma RetireKeeps(s: HubState, delivered: bool, raised: bool)
    requires Control(s, None) && s.client.waiters != [] && s.client.waiters[0].Send?
    requires delivered ==> s.client.sending && s.client.open && !raised
    requires !delivered ==> !(s.client.attached && s.client.open)
    ensures var k := if delivered then Client.Deliver(s.client) else s.client;
      var owner := s.client.waiters[0].owner;
      Control(s.(client := Client.Retire(k, raised)), if owner.Runner? then None else Some(owner.consumer))
  {
    var k := if delivered then Client.Deliver(s.client) else s.client;
    var owner := s.client.waiters[0].owner;
    var r := s.(client := Client.Retire(k, raised));
    var q, p := s.client.waiters, r.client.waiters;
    Client.RetireKeeps(s.client, delivered, raised);
    if owner.Handler? { assert WaitsAt(q, 0, owner.consumer); }
    assert forall i, d | WaitsAt(p, i, d) :: WaitsAt(q, i + 1, d);
    forall d, i | WaitsAt(q, i, d) && owner != Client.Handler(d) ensures WaitsAt(p, i - 1, d) {}
    assert forall t :: Listed(s, t) <==> Listed(r, t);
  }

  lemma FinishKeeps(s: HubState, delivered: bool, raised: bool)
    requires Control(s, None) && s.client.waiters != [] && s.client.waiters[0].Send?
    requires delivered ==> s.client.sending && s.client.open && !raised
    requires !delivered ==> !(s.client.attached && s.client.open)
    ensures Control(Finish(s, delivered, raised), None)
  {
    RetireKeeps(s, delivered, raised);
    var k := if delivered then Client.Deliver(s.client) else s.client;
    var owner := s.client.waiters[0].owner;
    if owner.Handler? {
      ResumeKeeps(s.(client := Client.Retire(k, raised)), owner.consumer, raised);
    }
  }

  /** A change of the client that leaves `_topics` and every handler's place in the queue. */
  lemma ClientStepKeeps(s: HubState, k: Client.ClientState)
    requires Control(s, None) && Client.ValidClient(k) && k.topics == s.client.topics
    requires forall i, c | WaitsAt(k.waiters, i, c) :: exists j :: WaitsAt(s.client.waiters, j, c)
    requires forall i, c | WaitsAt(s.client.waiters, i, c) :: exists j :: WaitsAt(k.waiters, j, c)
    requires forall i, j, c | WaitsAt(k.waiters, i, c) && WaitsAt(k.waiters, j, c) :: i == j
    ensures Control(s.(client := k), None)
  {
    var r := s.(client := k);
    assert forall t :: Listed(s, t) <==> Listed(r, t);
  }

  lemma ShiftedQueue(q: seq<Client.Waiter>, p: seq<Client.Waiter>, w: Client.Waiter, popped: bool, pushed: bool)
    requires popped ==> q != [] && !Client.FromHandler(q[0])
    requires pushed ==> !Client.FromHandler(w)
    requires p == (if popped then q[1..] else q) + (if pushed then [w] else [])
    requires forall i, j, c | WaitsAt(q, i, c) && WaitsAt(q, j, c) :: i == j
    ensures forall i, c | WaitsAt(p, i, c) :: exists j :: WaitsAt(q, j, c)
    ensures forall i, c | WaitsAt(q, i, c) :: exists j :: WaitsAt(p, j, c)
    ensures forall i, j, c | WaitsAt(p, i, c) && WaitsAt(p, j, c) :: i == j
  {
    var n := if popped then 1 else 0;
    forall i, c | WaitsAt(p, i, c) ensures WaitsAt(q, i + n, c) {}
    forall i, c | WaitsAt(q, i, c) ensures WaitsAt(p, i - n, c) {}
  }

  lemma LockTurnKeeps(s: HubState, result: SendResult)
    requires Control(s, None) && Enabled(s, LockTurn(result))
    ensures Control(OnLockTurn(s, result), None)
  {
    var k := s.client;
    match k.waiters[0] {
      case SetWs(true) =>
        Client.AttachKeeps(k);
        var resync := Client.Send(Client.Frame(true, Sorted(k.topics)), Client.Runner);
        ShiftedQueue(k.waiters, Client.Attach(k).waiters, resync, true, k.topics != {});
        ClientStepKeeps(s, Client.Attach(k));
      case SetWs(false) =>
        Client.DetachKeeps(k);
        ShiftedQueue(k.waiters, k.waiters[1..], Client.SetWs(false), true, false);
        ClientStepKeeps(s, Client.Detach(k));
      case Send(_, _) =>
        if k.sending {
          FinishKeeps(s, result == Sent, result == Raised);
        } else if k.attached && k.open {
          Client.BeginSendKeeps(k);
          ClientStepKeeps(s, Client.BeginSend(k));
        } else {
          FinishKeeps(s, false, false);
        }
    }
  }

  // -------------------------------------------------------------------- other steps

  lemma UpstreamKeeps(s: HubState, l: Label)
    requires Control(s, None) && Enabled(s, l)
    requires l.UpstreamOpens? || l.UpstreamCloses? || l.UpstreamFails? || l.ReceiveEnds?
    ensures Control(Next(s, l), None)
  {
    var k := s.client;
    match l {
      case UpstreamOpens =>
        Client.ConnectedKeeps(k);
        ShiftedQueue(k.waiters, Client.Connected(k).waiters, Client.SetWs(true), false, true);
        ClientStepKeeps(s, Client.Connected(k));
      case UpstreamCloses =>
        Client.SocketClosedKeeps(k);
        ClientStepKeeps(s, Client.SocketClosed(k));
      case _ =>
        Client.LeaveKeeps(k);
        ShiftedQueue(k.waiters, Client.Leave(k).waiters, Client.SetWs(false), false, true);
        ClientStepKeeps(s, Client.Leave(k));
    }
  }

  lemma DispatchKeeps(s: HubState, e: MarketEvent)
    requires Control(s, None)
    ensures Control(OnDispatch(s, e), None)
  {
    var r := OnDispatch(s, e);
    Broker.PublishKeeps(s.broker, e.topic, e);
    Broker.PublishAccounts(s.broker, e.topic, e);
    SameControl(s, r);
  }

  lemma SameControl(s: HubState, r: HubState)
    requires Waiting(s, None) && Interest(s)
    requires r == s.(broker := r.broker, store := r.store, pumps := r.pumps,
                     delivering := r.delivering, broken := r.broken)
    ensures Waiting(r, None) && Interest(r)
  {
    assert forall t :: Listed(s, t) <==> Listed(r, t);
  }

  lemma PumpStartsKeeps(s: HubState, c: ConsumerId)
    requires Control(s, None) && Enabled(s, PumpStarts(c))
    ensures Control(Next(s, PumpStarts(c)), None)
  {
    StartStructure(s, c);
    SameControl(s, OnPumpStarts(s, c));
  }

  lemma StartStructure(s: HubState, c: ConsumerId)
    requires Structure(s) && c in s.ready && c !in s.pumps
    ensures Structure(OnPumpStarts(s, c))
  {
    PumpTakes(s.broker.queues, s.ready, s.pumps, s.delivering, s.broken, c);
  }

  lemma PumpTakes(queues: map<ConsumerId, QueueState>, ready: set<ConsumerId>, pumps: map<ConsumerId, nat>,
                  delivering: set<ConsumerId>, broken: set<ConsumerId>, c: ConsumerId)
    requires PumpsRight(queues, ready, pumps) && PumpsEnd(pumps, delivering, broken) && c in ready
    ensures PumpsRight(queues, ready, pumps[c := queues[c].serial])
    ensures PumpsEnd(pumps[c := queues[c].serial], delivering, broken)
  {
  }

  lemma PumpReadsKeeps(s: HubState, c: ConsumerId)
    requires Control(s, None) && Enabled(s, PumpReads(c))
    ensures Control(Next(s, PumpReads(c)), None)
  {
    ReadStructure(s, c);
    SameControl(s, OnPumpReads(s, c));
  }

  lemma ReadStructure(s: HubState, c: ConsumerId)
    requires Structure(s) && c in s.pumps && c !in s.broken && c in s.broker.queues && s.broker.queues[c].items != []
    ensures Structure(OnPumpReads(s, c))
  {
    ReadAgrees(s.registry, s.broker, c);
    SameQueues(s.broker.queues, Broker.ReadFrom(s.broker, c).queues, s.ready, s.pumps, s.abandoned);
  }

  lemma ReadAgrees(m: Subscriptions, b: Broker.BrokerState, c: ConsumerId)
    requires Agree(m, b) && c in b.queues && b.queues[c].items != []
    ensures Agree(m, Broker.ReadFrom(b, c))
  {
    Broker.ReadKeeps(b, c);
    Broker.ReadAccounts(b, c);
    assert forall t, d :: Broker.Attached(Broker.ReadFrom(b, c), t, d) <==> Broker.Attached(b, t, d);
  }

  lemma PumpEndsKeeps(s: HubState, l: Label)
    requires Control(s, None) && Enabled(s, l) && (l.PumpDelivers? || l.PumpFails?)
    ensures Control(Next(s, l), None)
  {
    EndStructure(s, l);
    SameControl(s, Next(s, l));
  }

  lemma EndStructure(s: HubState, l: Label)
    requires Structure(s) && Enabled(s, l) && (l.PumpDelivers? || l.PumpFails?)
    ensures Structure(Next(s, l))
  {
    assert PumpsEnd(s.pumps, Next(s, l).delivering, Next(s, l).broken);
  }

  lemma NextKeeps(s: HubState, l: Label)
    requires Control(s, None) && Enabled(s, l)
    ensures Control(Next(s, l), None)
  {
    match l {
      case Connect(c) => ConnectKeeps(s, c);
      case Subscribe(c, t) => SubscribeKeeps(s, c, t);
      case Unsubscribe(c, t) => UnsubscribeKeeps(s, c, t);
      case Disconnect(c) => DisconnectKeeps(s, c);
      case LockTurn(result) => LockTurnKeeps(s, result);
      case Dispatch(e) => DispatchKeeps(s, e);
      case PumpStarts(c) => PumpStartsKeeps(s, c);
      case PumpReads(c) => PumpReadsKeeps(s, c);
      case PumpDelivers(_) => PumpEndsKeeps(s, l);
      case PumpFails(_) => PumpEndsKeeps(s, l);
      case _ => UpstreamKeeps(s, l);
    }
  }

  lemma InitHolds(maxsize: int)
    ensures Control(Init(maxsize), None)
  {
    assert !exists c :: c in Init(maxsize).tasks;
  }

  /** The invariant holds after every run from the start. */
  lemma {:induction false} RunKeeps(s: HubState, run: seq<Label>)
    requires Control(s, None) && Exec(s, run).Some?
    ensures Control(Exec(s, run).value, None)
  {
    if run != [] {
      RunKeeps(s, run[..|run| - 1]);
      NextKeeps(Exec(s, run[..|run| - 1]).value, run[|run| - 1]);
    }
  }

  lemma ReachableNext(s: HubState, l: Label)
    requires Reachable(s) && Enabled(s, l)
    ensures Reachable(Next(s, l))
  {
    var maxsize, run :| Exec(Init(maxsize), run) == Some(s);
    assert (run + [l])[..|run|] == run;
    assert Exec(Init(maxsize), run + [l]) == Some(Next(s, l));
  }

  lemma {:induction false} RunReachable(s: HubState, run: seq<Label>, r: HubState)
    requires Reachable(s) && Exec(s, run) == Some(r)
    ensures Reachable(r)
  {
    if run != [] {
      RunReachable(s, run[..|run| - 1], Exec(s, run[..|run| - 1]).value);
      ReachableNext(Exec(s, run[..|run| - 1]).value, run[|run| - 1]);
    }
  }

  lemma ReachableHolds(s: HubState)
    requires Reachable(s)
    ensures Control(s, None)
  {
    var maxsize, run :| Exec(Init(maxsize), run) == Some(s);
    InitHolds(maxsize);
    RunKeeps(Init(maxsize), run);
  }

  /** Where the running task suspends is a reachable state again. */
  lemma {:induction false} ReachableSettles(s: HubState)
    requires Reachable(s)
    ensures Reachable(Settle(s)) && !Settle(s).client.running
    decreases Ahead(s)
  {
    ReachableHolds(s);
    if s.client.running {
      TurnGoesOn(s);
      ReachableNext(s, LockTurn(Swallowed));
      ReachableSettles(OnLockTurn(s, Swallowed));
    }
  }

  lemma InitReachable(maxsize: int)
    ensures Reachable(Init(maxsize))
  {
    assert Exec(Init(maxsize), []) == Some(Init(maxsize));
  }

  /** A step together with what its task does before it suspends leads from reachable to reachable. */
  lemma StepSettles(s: HubState, l: Label)
    requires Reachable(s) && Enabled(s, l)
    ensures Control(s, None) && Control(Next(s, l), None)
    ensures Reachable(Settle(Next(s, l))) && !Settle(Next(s, l)).client.running
  {
    ReachableHolds(s);
    NextKeeps(s, l);
    ReachableNext(s, l);
    ReachableSettles(Next(s, l));
  }

  // --------------------------------------------------------------- suspension to suspension

  /** The state after a run each step of which is taken on to where its task suspends. */
  ghost function ExecWhole(s: HubState, run: seq<Label>): Option<HubState> {
    if run == [] then Some(s)
    else
      match ExecWhole(s, run[..|run| - 1])
      case None => None
      case Some(m) =>
        if Enabled(m, run[|run| - 1]) then Some(Settle(Next(m, run[|run| - 1]))) else None
  }

  /** How the head's send ends does not matter while its task is running: it has not begun to send. */
  lemma RunningTurn(s: HubState, result: SendResult)
    requires s.client.running && Alone(s.client)
    ensures Settle(OnLockTurn(s, result)) == Settle(s)
  {
    assert OnLockTurn(s, result) == OnLockTurn(s, Swallowed);
  }

  /** Going from suspension to suspension misses nothing: every run is one of whole steps. */
  lemma {:induction false} RunsAreWhole(s: HubState, run: seq<Label>, r: HubState) returns (whole: seq<Label>)
    requires Control(s, None) && !s.client.running && Exec(s, run) == Some(r)
    ensures ExecWhole(s, whole) == Some(Settle(r)) && |whole| <= |run|
  {
    whole := [];
    if run != [] {
      var m, l := Exec(s, run[..|run| - 1]).value, run[|run| - 1];
      RunIsAlone(s, run[..|run| - 1], m);
      whole := RunsAreWhole(s, run[..|run| - 1], m);
      if m.client.running {
        RunningTurn(m, l.result);
      } else {
        WholeStep(s, whole, m, l);
        whole := whole + [l];
      }
    }
  }

  lemma RunIsAlone(s: HubState, run: seq<Label>, r: HubState)
    requires Control(s, None) && Exec(s, run) == Some(r)
    ensures Alone(r.client)
  {
    RunKeeps(s, run);
  }

  lemma WholeStep(s: HubState, whole: seq<Label>, m: HubState, l: Label)
    requires ExecWhole(s, whole) == Some(m) && Enabled(m, l)
    ensures ExecWhole(s, whole + [l]) == Some(Settle(Next(m, l)))
  {
    assert (whole + [l])[..|whole|] == whole;
  }

  /** ... and invents nothing: what whole steps lead to is reachable, and nobody is running there. */
  lemma {:induction false} WholeIsReachable(s: HubState, whole: seq<Label>)
    requires Reachable(s) && !s.client.running && ExecWhole(s, whole).Some?
    ensures Reachable(ExecWhole(s, whole).value) && !ExecWhole(s, whole).value.client.running
  {
    if whole != [] {
      WholeIsReachable(s, whole[..|whole| - 1]);
      StepSettles(ExecWhole(s, whole[..|whole| - 1]).value, whole[|whole| - 1]);
    }
  }

  /** The states in which every task is suspended are exactly those that whole steps lead to. */
  lemma SuspendedIffWhole(s: HubState)
    ensures Reachable(s) && !s.client.running <==> exists maxsize, whole :: ExecWhole(Init(maxsize), whole) == Some(s)
  {
    if Reachable(s) && !s.client.running {
      var maxsize, run :| Exec(Init(maxsize), run) == Some(s);
      InitHolds(maxsize);
      var whole := RunsAreWhole(Init(maxsize), run, s);
      assert ExecWhole(Init(maxsize), whole) == Some(s);
    }
    if maxsize, whole :| ExecWhole(Init(maxsize), whole) == Some(s) {
      InitReachable(maxsize);
      WholeIsReachable(Init(maxsize), whole);
    }
  }
}
