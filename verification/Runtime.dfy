/**
 * app/main.py and app/runtime.py: the handlers over the four mutable services. A method takes a task
 * up to its next request for `_ws_lock`, with exactly the effect of the hub's step of that name;
 * `RunOn` takes it on to where it suspends. `Perform` does both for any step that can happen.
 */
module Runtime {
  import opened Names
  import R = Registry
  import opened Snapshot
  import Queue
  import B = Broker
  import Client
  import Coinbase
  import H = Hub
  import I = HubInvariant

  ghost function Serials(pumps: map<ConsumerId, Queue.BoundedQueue>): map<ConsumerId, nat> {
    map c | c in pumps :: pumps[c].serial
  }

  lemma SerialsChange(pumps: map<ConsumerId, Queue.BoundedQueue>, c: ConsumerId, queue: Queue.BoundedQueue)
    ensures Serials(pumps[c := queue]) == Serials(pumps)[c := queue.serial]
  {
  }

  lemma SerialsRemove(pumps: map<ConsumerId, Queue.BoundedQueue>, c: ConsumerId)
    ensures Serials(pumps - {c}) == Serials(pumps) - {c}
  {
  }

  class HubRuntime {
    const registry: R.ConnectionRegistry
    const broker: B.PubSubBroker
    const client: Coinbase.CoinbaseClient
    const store: SnapshotStore

    var tasks: map<ConsumerId, H.Task>
    var ready: set<ConsumerId>
    /** The queue object each pump took. */
    var pumps: map<ConsumerId, Queue.BoundedQueue>
    /** The pumps inside `websocket.send_json`, and those that ended with the exception it raised. */
    var delivering: set<ConsumerId>
    var broken: set<ConsumerId>
    ghost var failed: set<Topic>
    ghost var exposed: set<Topic>
    ghost var abandoned: set<ConsumerId>
    ghost var since: map<(ConsumerId, Topic), H.Baseline>

    /** The services share nothing. */
    ghost predicate Apart()
      reads registry`Repr, broker`Repr, client`Repr, store`Repr
    {
      && registry.Repr !! broker.Repr && registry.Repr !! client.Repr && registry.Repr !! store.Repr
      && broker.Repr !! client.Repr && broker.Repr !! store.Repr && client.Repr !! store.Repr
      && this !in registry.Repr && this !in broker.Repr && this !in client.Repr && this !in store.Repr
    }

    ghost predicate ServicesValid()
      reads registry, broker, client, store, registry.Repr, broker.Repr, client.Repr, store.Repr
    {
      Apart() && registry.Valid() && broker.Valid() && client.Valid() && store.Valid()
    }

    /** The services are well-formed, and every pump reads its consumer's queue. */
    ghost predicate Valid()
      reads this`pumps, registry, broker, client, store
      reads registry.Repr, broker.Repr, client.Repr, store.Repr
    {
      ServicesValid() && forall c | c in pumps :: c in broker.queues && pumps[c] == broker.queues[c]
    }

    ghost function View(): H.HubState
      reads this, registry`model, broker`model, client`model, store`model
    {
      H.HubState(registry.model, broker.model, client.model, store.model,
                 tasks, ready, Serials(pumps), delivering, broken, failed, exposed, abandoned, since)
    }

    constructor (queueSize: int, threshold: real)
      requires threshold > 0.0
      ensures Valid()
      ensures View() == H.Init(queueSize) && H.Reachable(View())
      ensures View().broker.maxsize == queueSize
    {
      I.InitReachable(queueSize);
      var noConsumers, noQueues, offline, noRows := HubRuntime.NewServices(queueSize, threshold);
      registry, broker, client, store := noConsumers, noQueues, offline, noRows;
      tasks, ready, pumps := map[], {}, map[];
      delivering, broken := {}, {};
      failed, exposed, abandoned, since := {}, {}, {}, map[];
    }

    static method NewServices(queueSize: int, threshold: real)
      returns (registry: R.ConnectionRegistry, broker: B.PubSubBroker, client: Coinbase.CoinbaseClient,
               store: SnapshotStore)
      requires threshold > 0.0
      ensures registry.Valid() && registry.model == map[] && fresh(registry.Repr)
      ensures broker.Valid() && broker.model == B.Empty(queueSize) && fresh(broker.Repr) && broker.queues == map[]
      ensures broker.model.maxsize == queueSize
      ensures client.Valid() && client.model == Client.INITIAL && fresh(client.Repr)
      ensures store.Valid() && store.model == map[] && fresh(store.Repr)
      ensures registry.Repr !! broker.Repr !! client.Repr !! store.Repr
    {
      registry := new R.ConnectionRegistry();
      broker := new B.PubSubBroker(queueSize);
      client := new Coinbase.CoinbaseClient();
      store := new SnapshotStore(threshold);
    }

    // ------------------------------------------------- one service at a time

    /** `_topic_refcount` of a fresh `get_status`. */
    method Refcount(t: Topic) returns (n: nat)
      requires Valid()
      ensures Valid() && View() == old(View())
      ensures n > 0 <==> R.Wanted(View().registry, t)
    {
      var status := registry.GetStatus();
      R.CountPositive(registry.model, t);
      n := R.CountOf(status.refcounts, t);
    }

    method Register(c: ConsumerId)
      requires Valid() && c !in View().registry
      modifies registry.Repr
      ensures Valid()
      ensures View() == old(View()).(registry := old(View()).registry[c := {}])
    {
      var r := registry.RegisterConsumer(c);
      assert forall o | o in registry.Repr :: o in old(registry.Repr) || fresh(o);
    }

    method JoinRegistry(c: ConsumerId, t: Topic) returns (outcome: R.Outcome)
      requires Valid()
      modifies registry.Repr
      ensures Valid()
      ensures outcome.ValueError? <==> c !in old(View()).registry
      ensures var s := old(View());
        View() == if outcome.ValueError? then s else s.(registry := s.registry[c := s.registry[c] + {t}])
    {
      outcome := registry.Subscribe(c, t);
    }

    method LeaveRegistry(c: ConsumerId, t: Topic)
      requires Valid()
      modifies registry.Repr
      ensures Valid()
      ensures var s := old(View());
        View() == if c in s.registry then s.(registry := s.registry[c := s.registry[c] - {t}]) else s
    {
      registry.Unsubscribe(c, t);
    }

    method JoinBroker(c: ConsumerId, t: Topic)
      requires Valid()
      modifies broker.Repr
      ensures Valid()
      ensures View() == old(View()).(broker := B.Attach(old(View()).broker, t, c))
    {
      broker.SubscribeConsumer(t, c);
      assert forall o | o in broker.Repr :: o in old(broker.Repr) || fresh(o);
    }

    method LeaveBroker(c: ConsumerId, t: Topic)
      requires Valid()
      modifies broker.Repr
      ensures Valid()
      ensures View() == old(View()).(broker := B.Detach(old(View()).broker, t, c))
    {
      broker.UnsubscribeConsumer(t, c);
    }

    method ClientSubscribe(c: ConsumerId, t: Topic)
      requires Valid()
      modifies client.Repr
      ensures Valid()
      ensures client.Repr == old(client.Repr)
      ensures View() == old(View()).(client := Client.SubscribeTopic(old(View()).client, t, c))
    {
      client.SubscribeTopic(t, c);
    }

    method ClientUnsubscribe(c: ConsumerId, t: Topic)
      requires Valid()
      modifies client.Repr
      ensures Valid()
      ensures client.Repr == old(client.Repr)
      ensures View() == old(View()).(client := Client.UnsubscribeTopic(old(View()).client, t, c))
    {
      client.UnsubscribeTopic(t, c);
    }

    method Retask(c: ConsumerId, task: H.Task)
      requires Valid()
      modifies this`tasks
      ensures Valid() && View() == old(View()).(tasks := old(tasks)[c := task])
    {
      tasks := tasks[c := task];
    }

    method EndTask(c: ConsumerId)
      requires Valid()
      modifies this`tasks
      ensures Valid() && View() == old(View()).(tasks := old(tasks) - {c})
    {
      tasks := tasks - {c};
    }

    /** History that no step reads. */
    ghost method NoteFailed(leftovers: set<Topic>)
      requires Valid()
      modifies this`failed
      ensures Valid() && View() == old(View()).(failed := leftovers)
    {
      failed := leftovers;
    }

    ghost method NoteAbandoned(c: ConsumerId)
      requires Valid()
      modifies this`abandoned
      ensures Valid() && View() == old(View()).(abandoned := old(abandoned) + {c})
    {
      abandoned := abandoned + {c};
    }

    ghost method NoteExposed(atRisk: set<Topic>)
      requires Valid()
      modifies this`exposed
      ensures Valid() && View() == old(View()).(exposed := atRisk)
    {
      exposed := atRisk;
    }

    ghost method NoteSince(baselines: map<(ConsumerId, Topic), H.Baseline>)
      requires Valid()
      modifies this`since
      ensures Valid() && View() == old(View()).(since := baselines)
    {
      since := baselines;
    }

    method MarkReady(c: ConsumerId)
      requires Valid()
      modifies this`ready
      ensures Valid() && View() == old(View()).(ready := old(ready) + {c})
    {
      ready := ready + {c};
    }

    // ---------------------------------------------------------- stretches of handlers

    /** app/main.py:209-223: registry first, then broker; an unknown consumer is refused. */
    method JoinPair(c: ConsumerId, t: Topic) returns (outcome: R.Outcome)
      requires Valid()
      modifies this`since, registry.Repr, broker.Repr
      ensures Valid()
      ensures outcome.ValueError? <==> c !in old(View()).registry
      ensures View() == if outcome.ValueError? then old(View()) else H.AddPair(old(View()), c, t)
    {
      ghost var s := View();
      outcome := JoinRegistry(c, t);
      if outcome.ValueError? {
        return;
      }
      JoinBroker(c, t);
      NoteSince(H.AddPair(s, c, t).since);
    }

    /** app/main.py:282-283 */
    method LeavePair(c: ConsumerId, t: Topic)
      requires Valid()
      modifies this`since, registry.Repr, broker.Repr
      ensures Valid() && View() == H.DropPair(old(View()), c, t)
    {
      ghost var s := View();
      LeaveRegistry(c, t);
      LeaveBroker(c, t);
      NoteSince(s.since - {(c, t)});
    }

    method AskToSubscribe(c: ConsumerId, t: Topic, ghost atRisk: set<Topic>)
      requires Valid()
      modifies this`tasks, this`exposed, client.Repr
      ensures Valid() && client.Repr == old(client.Repr)
      ensures View() == old(View()).(client := Client.SubscribeTopic(old(View()).client, t, c),
                                     tasks := old(tasks)[c := H.Subscribing(t)], exposed := atRisk)
    {
      ClientSubscribe(c, t);
      Retask(c, H.Subscribing(t));
      NoteExposed(atRisk);
    }

    method AskToUnsubscribe(c: ConsumerId, t: Topic, task: H.Task)
      requires Valid()
      modifies this`tasks, this`failed, client.Repr
      ensures Valid() && client.Repr == old(client.Repr)
      ensures View() == old(View()).(client := Client.UnsubscribeTopic(old(View()).client, t, c),
                                     tasks := old(tasks)[c := task], failed := old(failed) - {t})
    {
      ClientUnsubscribe(c, t);
      Retask(c, task);
      NoteFailed(failed - {t});
    }

    // ------------------------------------------------------------- handlers

    /** app/main.py:121-136 */
    method Connect(c: ConsumerId)
      requires Valid() && c !in View().registry
      modifies this`tasks, registry.Repr
      ensures Valid() && View() == H.OnConnect(old(View()), c)
    {
      Register(c);
      Retask(c, H.Receiving);
    }

    /** app/main.py:206-229, and 248 when nothing is to be sent. */
    method StartSubscribe(c: ConsumerId, t: Topic)
      requires Valid()
      modifies this`tasks, this`exposed, this`ready, this`since, registry.Repr, broker.Repr, client.Repr
      ensures Valid() && client.Repr == old(client.Repr) && View() == H.OnSubscribe(old(View()), c, t)
    {
      ghost var s := View();
      var rcBefore := Refcount(t);
      var outcome := JoinPair(c, t);
      if outcome.ValueError? {
        return;
      }
      var rcAfter := Refcount(t);
      assert R.Holds(View().registry, c, t);
      if rcBefore == 0 && rcAfter > 0 {
        AskToSubscribe(c, t, H.OnSubscribe(s, c, t).exposed);
      } else {
        MarkReady(c);
      }
    }

    /** app/main.py:279-289 */
    method StartUnsubscribe(c: ConsumerId, t: Topic)
      requires Valid()
      modifies this`tasks, this`failed, this`since, registry.Repr, broker.Repr, client.Repr
      ensures Valid() && client.Repr == old(client.Repr) && View() == H.OnUnsubscribe(old(View()), c, t)
    {
      var rcBefore := Refcount(t);
      LeavePair(c, t);
      var rcAfter := Refcount(t);
      if rcBefore > 0 && rcAfter == 0 {
        AskToUnsubscribe(c, t, H.Unsubscribing(t));
      }
    }

    // -------------------------------------------------------------- disconnect

    method Unregister(c: ConsumerId)
      requires Valid()
      modifies registry.Repr
      ensures Valid() && View() == old(View()).(registry := old(View()).registry - {c})
    {
      registry.UnregisterConsumer(c);
    }

    method CancelPump(c: ConsumerId)
      requires Valid()
      modifies this`pumps
      ensures Valid() && c !in pumps
      ensures View() == old(View()).(pumps := old(View()).pumps - {c})
    {
      SerialsRemove(pumps, c);
      pumps := pumps - {c};
    }

    method ForgetDelivery(c: ConsumerId)
      requires Valid()
      modifies this`delivering
      ensures Valid() && View() == old(View()).(delivering := old(delivering) - {c})
    {
      delivering := delivering - {c};
    }

    method ForgetBroken(c: ConsumerId)
      requires Valid()
      modifies this`broken
      ensures Valid() && View() == old(View()).(broken := old(broken) - {c})
    {
      broken := broken - {c};
    }

    method ForgetReady(c: ConsumerId)
      requires Valid()
      modifies this`ready
      ensures Valid() && View() == old(View()).(ready := old(ready) - {c})
    {
      ready := ready - {c};
    }

    method RemoveQueue(c: ConsumerId)
      requires Valid() && c !in pumps
      modifies broker.Repr
      ensures Valid() && View() == old(View()).(broker := B.Remove(old(View()).broker, c))
    {
      broker.RemoveConsumer(c);
    }

    /** The list of `c` in a fresh `get_status` (app/main.py:305-310). */
    method ListedTopics(c: ConsumerId) returns (topics: seq<Topic>)
      requires Valid()
      ensures Valid() && View() == old(View())
      ensures topics == Sorted(R.TopicsOf(View().registry, c))
    {
      var status := registry.GetStatus();
      R.StatusFindsTopics(registry.model, c);
      topics := R.TopicsIn(status.rows, c);
    }

    method FinalCounts() returns (final: map<Topic, nat>)
      requires Valid()
      ensures Valid() && View() == old(View()) && final == R.Counts(View().registry)
    {
      var status := registry.GetStatus();
      final := status.refcounts;
    }

    /** app/main.py:168-172 and 304-315 */
    method BeginCleanup(c: ConsumerId) returns (topics: seq<Topic>, final: map<Topic, nat>)
      requires Valid()
      modifies this`tasks, this`ready, this`pumps, this`delivering, this`since, registry.Repr, broker.Repr
      ensures Valid() && View() == H.Unregistered(old(View()), c)
      ensures topics == Sorted(R.TopicsOf(old(View()).registry, c)) && final == R.Counts(View().registry)
    {
      ghost var s := View();
      CancelPump(c);
      ForgetDelivery(c);
      ForgetReady(c);
      topics := ListedTopics(c);
      Unregister(c);
      RemoveQueue(c);
      final := FinalCounts();
      Retask(c, H.Cleaning(topics, final));
      NoteSince(H.Forget(s.since, c));
    }

    /** app/main.py:316-319, from one request for the lock to the next. */
    method ContinueCleanup(c: ConsumerId, topics: seq<Topic>, final: map<Topic, nat>)
      requires Valid()
      modifies this`tasks, this`failed, client.Repr
      ensures Valid() && client.Repr == old(client.Repr)
      ensures View() == H.ContinueCleanup(old(View()), c, topics, final)
    {
      var rest := NextToDiscard(topics, final);
      if rest == [] {
        EndTask(c);
      } else {
        AskToUnsubscribe(c, rest[0], H.Cleaning(rest[1..], final));
      }
    }

    /** The loop of the cleanup passes over topics that are still counted. */
    method NextToDiscard(topics: seq<Topic>, final: map<Topic, nat>) returns (rest: seq<Topic>)
      ensures rest == H.SkipCounted(topics, final)
    {
      rest := topics;
      while rest != [] && R.CountOf(final, rest[0]) != 0
        invariant H.SkipCounted(rest, final) == H.SkipCounted(topics, final)
        decreases |rest|
      {
        rest := rest[1..];
      }
    }

    /** `_cleanup_ws_consumer` up to its first request for the lock. */
    method StartCleanup(c: ConsumerId)
      requires Valid()
      modifies this`tasks, this`failed, this`ready, this`pumps, this`delivering, this`since
      modifies registry.Repr, broker.Repr, client.Repr
      ensures Valid() && client.Repr == old(client.Repr) && View() == H.Cleanup(old(View()), c)
    {
      var topics, final := BeginCleanup(c);
      ContinueCleanup(c, topics, final);
    }

    /** The exception of the pump ends the task; its locals go with it, and nothing else does. */
    method Abandon(c: ConsumerId)
      requires Valid()
      modifies this`tasks, this`ready, this`pumps, this`broken, this`abandoned
      ensures Valid() && View() == H.Abandon(old(View()), c)
    {
      EndTask(c);
      ForgetReady(c);
      CancelPump(c);
      ForgetBroken(c);
      NoteAbandoned(c);
    }

    /** app/main.py:168-172: awaiting a pump that has failed raises, before the cleanup is called. */
    method StartDisconnect(c: ConsumerId)
      requires Valid()
      modifies this`tasks, this`failed, this`ready, this`pumps, this`delivering, this`broken, this`abandoned, this`since
      modifies registry.Repr, broker.Repr, client.Repr
      ensures Valid() && client.Repr == old(client.Repr) && View() == H.OnDisconnect(old(View()), c)
    {
      if c in broken {
        Abandon(c);
      } else {
        StartCleanup(c);
      }
    }

    // ------------------------------------------------------------ turns of the lock

    /** app/main.py:232-233: broker first, then registry. */
    method RollBack(c: ConsumerId, t: Topic)
      requires Valid()
      modifies this`tasks, this`failed, this`since, registry.Repr, broker.Repr
      ensures Valid() && View() == H.Rollback(old(View()), c, t)
    {
      ghost var s := View();
      LeaveBroker(c, t);
      LeaveRegistry(c, t);
      NoteSince(s.since - {(c, t)});
      Retask(c, H.Receiving);
      NoteFailed(H.Rollback(s, c, t).failed);
    }

    /** app/main.py:248-258: the subscribe stands. */
    method Accept(c: ConsumerId)
      requires Valid()
      modifies this`tasks, this`ready
      ensures Valid()
      ensures View() == old(View()).(tasks := old(tasks)[c := H.Receiving], ready := old(ready) + {c})
    {
      Retask(c, H.Receiving);
      MarkReady(c);
    }

    /** A handler whose send has not raised goes on. */
    method GoOn(owner: Client.Owner)
      requires Valid()
      modifies this`tasks, this`failed, this`ready, client.Repr
      ensures Valid() && client.Repr == old(client.Repr)
      ensures View() == H.Resume(old(View()), owner, false)
    {
      if owner.Runner? || owner.consumer !in tasks {
        return;
      }
      var c := owner.consumer;
      match tasks[c] {
        case Receiving =>
        case Subscribing(_) => Accept(c);
        case Unsubscribing(_) => Retask(c, H.Receiving);
        case Cleaning(rest, final) => ContinueCleanup(c, rest, final);
      }
    }

    /** A handler goes on after its send; an error matters only to a first subscribe. */
    method Resume(owner: Client.Owner, raised: bool)
      requires Valid()
      modifies this`tasks, this`failed, this`ready, this`since, registry.Repr, broker.Repr, client.Repr
      ensures Valid() && client.Repr == old(client.Repr) && View() == H.Resume(old(View()), owner, raised)
    {
      if raised && owner.Handler? && owner.consumer in tasks && tasks[owner.consumer].Subscribing? {
        RollBack(owner.consumer, tasks[owner.consumer].topic);
      } else {
        GoOn(owner);
      }
    }

    method SetWsTurn()
      requires Valid() && client.waiters != [] && client.waiters[0].SetWs?
      requires client.waiters[0].connected ==> client.phase == Client.Attaching
      modifies client.Repr
      ensures Valid() && client.Repr == old(client.Repr)
      ensures View().client ==
        if old(client.waiters)[0].connected then Client.Attach(old(View()).client)
        else Client.Detach(old(View()).client)
      ensures View() == old(View()).(client := View().client)
    {
      client.SetWsTurn();
    }

    method SendBegins() returns (suspended: bool)
      requires Valid() && client.waiters != [] && client.waiters[0].Send? && !client.sending
      modifies client.Repr
      ensures Valid() && client.Repr == old(client.Repr)
      ensures suspended <==> old(View()).client.attached && old(View()).client.open
      ensures View() == if suspended then old(View()).(client := Client.BeginSend(old(View()).client)) else old(View())
    {
      suspended := client.SendBegins();
    }

    method SendDelivers()
      requires Valid() && client.waiters != [] && client.waiters[0].Send? && View().client.open
      modifies client.Repr
      ensures Valid() && client.Repr == old(client.Repr)
      ensures View() == old(View()).(client := Client.Deliver(old(View()).client))
    {
      client.SendDelivers();
    }

    method Retire(raised: bool) returns (owner: Client.Owner)
      requires Valid() && client.waiters != [] && client.waiters[0].Send?
      requires client.waiters[0].owner.Runner? ==> client.phase == Client.Resyncing
      modifies client.Repr
      ensures Valid() && client.Repr == old(client.Repr) && owner == old(client.waiters)[0].owner
      ensures View() == old(View()).(client := Client.Retire(old(View()).client, raised))
    {
      owner := client.Retire(raised);
    }

    method Finish(delivered: bool, raised: bool)
      requires Valid() && client.waiters != [] && client.waiters[0].Send?
      requires client.waiters[0].owner.Runner? ==> client.phase == Client.Resyncing
      requires delivered ==> View().client.open
      modifies this`tasks, this`failed, this`ready, this`since, registry.Repr, broker.Repr, client.Repr
      ensures Valid() && client.Repr == old(client.Repr) && View() == H.Finish(old(View()), delivered, raised)
    {
      if delivered {
        SendDelivers();
      }
      var owner := Retire(raised);
      Resume(owner, raised);
    }

    /** One turn of `_ws_lock`; `result` is how a `ws.send` that was begun ends. */
    method LockTurn(result: H.SendResult)
      requires Valid() && client.waiters != []
      requires Client.ValidClient(View().client)
      requires client.sending ==> (result == H.Sent <==> View().client.open)
      modifies this`tasks, this`failed, this`ready, this`since, registry.Repr, broker.Repr, client.Repr
      ensures Valid() && client.Repr == old(client.Repr) && View() == H.OnLockTurn(old(View()), result)
    {
      if !Client.FromHandler(client.waiters[0]) { Client.HeadIsRunner(View().client); }
      if client.waiters[0].SetWs? {
        SetWsTurn();
      } else if client.sending {
        Finish(result == H.Sent, result == H.Raised);
      } else {
        var suspended := SendBegins();
        if !suspended {
          Finish(false, false);
        }
      }
    }

    // --------------------------------------------------------------- without suspending

    /** A task that got a free lock goes on: there is no socket, or it suspends in `ws.send`. */
    method RunTurn()
      requires Valid() && client.running && H.Alone(View().client) && Client.ValidClient(View().client)
      modifies this`tasks, this`failed, this`ready, client.Repr
      ensures Valid() && client.Repr == old(client.Repr)
      ensures View() == H.OnLockTurn(old(View()), H.Swallowed)
    {
      if !Client.FromHandler(client.waiters[0]) { Client.HeadIsRunner(View().client); }
      if client.waiters[0].SetWs? {
        SetWsTurn();
      } else {
        var suspended := SendBegins();
        if !suspended {
          var owner := Retire(false);
          GoOn(owner);
        }
      }
    }

    /** The running task, if any, goes on to where it suspends or ends. */
    method RunOn(ghost s: H.HubState)
      requires Valid() && View() == s && I.Control(s, None)
      modifies this`tasks, this`failed, this`ready, client.Repr
      ensures Valid() && !client.running && View() == H.Settle(s)
    {
      ghost var now := s;
      while client.running
        invariant Valid() && client.Repr == old(client.Repr) && View() == now
        invariant I.Control(now, None) && H.Settle(now) == H.Settle(s)
        decreases H.Ahead(now)
      {
        H.TurnGoesOn(now);
        I.LockTurnKeeps(now, H.Swallowed);
        RunTurn();
        now := H.OnLockTurn(now, H.Swallowed);
      }
    }

    // -------------------------------------------------------- upstream, events, pumps

    method UpstreamOpens()
      requires Valid() && client.phase == Client.Down && Client.ValidClient(View().client)
      modifies client.Repr
      ensures Valid() && fresh(client.Repr - old(client.Repr))
      ensures View() == old(View()).(client := Client.Connected(old(View()).client))
    {
      client.ConnectReturns();
      assert forall o | o in client.Repr :: o in old(client.Repr) || fresh(o);
    }

    method UpstreamCloses()
      requires Valid() && View().client.open
      modifies client.Repr
      ensures Valid() && client.Repr == old(client.Repr)
      ensures View() == old(View()).(client := Client.SocketClosed(old(View()).client))
    {
      client.SocketCloses();
    }

    /** The receive loop ends, or the connect has failed (app/ingestion/coinbase_client.py:158-171). */
    method LeaveUpstream()
      requires Valid()
      modifies client.Repr
      ensures Valid() && client.Repr == old(client.Repr)
      ensures View() == old(View()).(client := Client.Leave(old(View()).client))
    {
      client.Leave();
    }

    method ApplyToStore(e: MarketEvent)
      requires Valid()
      modifies store.Repr
      ensures Valid() && View() == old(View()).(store := Apply(old(View()).store, e))
    {
      store.ApplyEvent(e);
      assert forall o | o in store.Repr :: o in old(store.Repr) || fresh(o);
    }

    method PublishToBroker(e: MarketEvent)
      requires Valid()
      modifies broker.Repr
      ensures Valid() && View() == old(View()).(broker := B.FanOut(old(View()).broker, e.topic, e))
    {
      broker.Publish(e.topic, e);
    }

    /** app/ingestion/coinbase_client.py:248-260: the snapshot first, then the fan-out. */
    method Dispatch(e: MarketEvent)
      requires Valid()
      modifies store.Repr, broker.Repr
      ensures Valid() && View() == H.OnDispatch(old(View()), e)
    {
      var stillWanted := e.topic in client.topics;
      if !stillWanted {
        return;
      }
      ApplyToStore(e);
      PublishToBroker(e);
    }

    method TakeQueue(c: ConsumerId, queue: Queue.BoundedQueue)
      requires Valid() && c in broker.queues && broker.queues[c] == queue
      modifies this`pumps
      ensures Valid() && View() == old(View()).(pumps := old(View()).pumps[c := queue.serial])
    {
      SerialsChange(pumps, c, queue);
      pumps := pumps[c := queue];
    }

    /** app/main.py:125-128: the pump takes the queue object, once. */
    method PumpStarts(c: ConsumerId)
      requires Valid()
      modifies this`pumps
      ensures Valid() && View() == H.OnPumpStarts(old(View()), c)
    {
      var queue := broker.GetConsumerQueue(c);
      if queue.Some? {
        assert queue.value.View() == broker.model.queues[c];
        TakeQueue(c, queue.value);
      }
    }

    method GetItem(c: ConsumerId) returns (item: MarketEvent)
      requires Valid() && c in pumps && pumps[c].items != []
      modifies broker.Repr
      ensures Valid()
      ensures var b := old(View()).broker;
        && c in b.queues && b.queues[c].items != [] && item == b.queues[c].items[0]
        && View() == old(View()).(broker := B.ReadFrom(b, c))
    {
      item := broker.PumpGet(c, pumps[c]);
    }

    method BeginDelivery(c: ConsumerId)
      requires Valid()
      modifies this`delivering
      ensures Valid() && View() == old(View()).(delivering := old(delivering) + {c})
    {
      delivering := delivering + {c};
    }

    /** app/main.py:130-131, on the queue object the pump took; `item` is what is to be sent. */
    method PumpReads(c: ConsumerId) returns (item: MarketEvent)
      requires Valid() && c in pumps && pumps[c].items != []
      modifies this`delivering, broker.Repr
      ensures Valid()
      ensures var b := old(View()).broker;
        c in b.queues && b.queues[c].items != [] && item == b.queues[c].items[0]
      ensures View() == H.OnPumpReads(old(View()), c)
    {
      item := GetItem(c);
      BeginDelivery(c);
    }

    method BreakPump(c: ConsumerId)
      requires Valid()
      modifies this`broken
      ensures Valid() && View() == old(View()).(broken := old(broken) + {c})
    {
      broken := broken + {c};
    }

    /** The pump's `websocket.send_json` returns, or raises and so ends the pump (app/main.py:131). */
    method DeliveryEnds(c: ConsumerId, raised: bool)
      requires Valid()
      modifies this`delivering, this`broken
      ensures Valid()
      ensures View() == old(View()).(delivering := old(delivering) - {c},
                                     broken := if raised then old(broken) + {c} else old(broken))
    {
      ForgetDelivery(c);
      if raised {
        BreakPump(c);
      }
    }

    // -------------------------------------------------------------------- any step

    /** The first half of a step of a consumer's task. */
    method StartMessage(ghost s: H.HubState, l: H.Label)
      requires Valid() && View() == s && H.Enabled(s, l)
      requires l.Connect? || l.Subscribe? || l.Unsubscribe? || l.Disconnect?
      modifies this`tasks, this`failed, this`exposed, this`ready, this`pumps, this`delivering, this`broken
      modifies this`abandoned, this`since, registry.Repr, broker.Repr, client.Repr
      ensures Valid() && client.Repr == old(client.Repr) && View() == H.Next(s, l)
    {
      match l {
        case Connect(c) => Connect(c);
        case Subscribe(c, t) => StartSubscribe(c, t);
        case Unsubscribe(c, t) => StartUnsubscribe(c, t);
        case Disconnect(c) => StartDisconnect(c);
      }
    }

    /** The first half of a step of the reconnect loop or of whoever has the lock. */
    method StartUpstream(ghost s: H.HubState, l: H.Label)
      requires Valid() && View() == s && Client.ValidClient(s.client) && H.Enabled(s, l)
      requires l.UpstreamOpens? || l.UpstreamFails? || l.UpstreamCloses? || l.ReceiveEnds? || l.LockTurn?
      modifies this`tasks, this`failed, this`ready, this`since, registry.Repr, broker.Repr, client.Repr
      ensures Valid() && fresh(client.Repr - old(client.Repr)) && View() == H.Next(s, l)
    {
      if l.UpstreamOpens? {
        UpstreamOpens();
      } else if l.UpstreamCloses? {
        UpstreamCloses();
      } else if l.LockTurn? {
        LockTurn(l.result);
      } else {
        LeaveUpstream();
      }
    }

    method StartPump(ghost s: H.HubState, l: H.Label)
      requires Valid() && View() == s && H.Enabled(s, l)
      requires l.PumpStarts? || l.PumpReads? || l.PumpDelivers? || l.PumpFails?
      modifies this`pumps, this`delivering, this`broken, broker.Repr
      ensures Valid() && client.Repr == old(client.Repr) && View() == H.Next(s, l)
    {
      if l.PumpStarts? {
        PumpStarts(l.c);
      } else if l.PumpReads? {
        var item := PumpReads(l.c);
      } else {
        DeliveryEnds(l.c, l.PumpFails?);
      }
    }

    method Start(ghost s: H.HubState, l: H.Label)
      requires Valid() && View() == s && Client.ValidClient(s.client) && H.Enabled(s, l)
      modifies this, registry.Repr, broker.Repr, client.Repr, store.Repr
      ensures Valid() && fresh(client.Repr - old(client.Repr)) && View() == H.Next(s, l)
    {
      if l.Connect? || l.Subscribe? || l.Unsubscribe? || l.Disconnect? {
        StartMessage(s, l);
      } else if l.UpstreamOpens? || l.UpstreamFails? || l.UpstreamCloses? || l.ReceiveEnds? || l.LockTurn? {
        StartUpstream(s, l);
      } else if l.Dispatch? {
        Dispatch(l.e);
      } else {
        StartPump(s, l);
      }
    }

    /** Any step that can happen, up to the suspension that ends it: runs of the hub are calls of this. */
    method Perform(l: H.Label)
      requires Valid() && H.Reachable(View()) && H.Enabled(View(), l)
      modifies this, registry.Repr, broker.Repr, client.Repr, store.Repr
      ensures Valid() && !client.running && H.Reachable(View())
      ensures View() == H.Settle(H.Next(old(View()), l))
    {
      ghost var s := View();
      I.StepSettles(s, l);
      Start(s, l);
      RunOn(H.Next(s, l));
    }

    // -------------------------------------------------------------------- whole handlers

    /** The subscribe handler up to where it suspends or ends. */
    method HandleSubscribe(c: ConsumerId, t: Topic)
      requires Valid() && H.Reachable(View()) && H.Enabled(View(), H.Subscribe(c, t))
      modifies this`tasks, this`failed, this`exposed, this`ready, this`since, registry.Repr, broker.Repr, client.Repr
      ensures Valid() && View() == H.Settle(H.OnSubscribe(old(View()), c, t))
    {
      ghost var s := View();
      I.StepSettles(s, H.Subscribe(c, t));
      StartSubscribe(c, t);
      RunOn(H.OnSubscribe(s, c, t));
    }

    method HandleUnsubscribe(c: ConsumerId, t: Topic)
      requires Valid() && H.Reachable(View()) && H.Enabled(View(), H.Unsubscribe(c, t))
      modifies this`tasks, this`failed, this`ready, this`since, registry.Repr, broker.Repr, client.Repr
      ensures Valid() && View() == H.Settle(H.OnUnsubscribe(old(View()), c, t))
    {
      ghost var s := View();
      I.StepSettles(s, H.Unsubscribe(c, t));
      StartUnsubscribe(c, t);
      RunOn(H.OnUnsubscribe(s, c, t));
    }

    /** The end of a connection, up to where its cleanup suspends or the task ends. */
    method HandleDisconnect(c: ConsumerId)
      requires Valid() && H.Reachable(View()) && H.Enabled(View(), H.Disconnect(c))
      modifies this`tasks, this`failed, this`ready, this`pumps, this`delivering, this`broken, this`abandoned, this`since
      modifies registry.Repr, broker.Repr, client.Repr
      ensures Valid() && View() == H.Settle(H.OnDisconnect(old(View()), c))
    {
      ghost var s := View();
      I.StepSettles(s, H.Disconnect(c));
      StartDisconnect(c);
      RunOn(H.OnDisconnect(s, c));
    }
  }
}
