/**
 * The hub as one transition system: the WebSocket handlers of app/main.py, the reconnect loop and
 * the event dispatch of app/ingestion/coinbase_client.py, over registry, broker, client and store.
 *
 * A step is what one task does up to its next suspension or its next request for `_ws_lock`. A task
 * suspends only while it waits for `_ws_lock` or in network input or output; one that finds the lock
 * free goes on at once (`client.running`), and no other step comes between: `Settle` takes such a
 * task to its suspension. Each consumer's messages and its final cleanup run in one task.
 */
module Hub {
  import opened Names
  import opened Registry
  import opened Snapshot
  import opened Queue
  import Broker
  import Client

  /** What a consumer's task is doing. `Cleaning` is the loop of `_cleanup_ws_consumer`. */
  datatype Task =
    | Receiving
    | Subscribing(topic: Topic)
    | Unsubscribing(topic: Topic)
    | Cleaning(rest: seq<Topic>, final: map<Topic, nat>)

  /** How far a consumer's event stream reached when it subscribed, and the topic's row then. */
  datatype Baseline = Baseline(mark: nat, row: Option<Row>)

  /**
   * `ready` are the consumers whose `queue_ready` is set, `pumps` the serial of the queue each
   * pump took, `delivering` those whose pump is inside `websocket.send_json`, `broken` those whose
   * pump has ended with the exception that call raised. History, read by no step: `failed` are the
   * topics a rolled-back first subscribe left in `_topics`; `exposed` those first subscribed while
   * an unfinished cleanup still listed them; `abandoned` the consumers whose task has ended without
   * a cleanup; `since` the baseline of every current subscription.
   */
  datatype HubState = HubState(
    registry: Subscriptions,
    broker: Broker.BrokerState,
    client: Client.ClientState,
    store: Store,
    tasks: map<ConsumerId, Task>,
    ready: set<ConsumerId>,
    pumps: map<ConsumerId, nat>,
    delivering: set<ConsumerId>,
    broken: set<ConsumerId>,
    failed: set<Topic>,
    exposed: set<Topic>,
    abandoned: set<ConsumerId>,
    since: map<(ConsumerId, Topic), Baseline>)

  function Init(maxsize: int): HubState {
    HubState(map[], Broker.Empty(maxsize), Client.INITIAL, map[], map[], {}, map[], {}, {}, {}, {}, {}, map[])
  }

  /** How a `ws.send` that was begun ends: with the frame sent, with the error swallowed, or raising. */
  datatype SendResult = Sent | Swallowed | Raised

  datatype Label =
    | Connect(c: ConsumerId)
    | Subscribe(c: ConsumerId, t: Topic)
    | Unsubscribe(c: ConsumerId, t: Topic)
    | Disconnect(c: ConsumerId)
    | UpstreamOpens
    | UpstreamFails
    | UpstreamCloses
    | ReceiveEnds
    | LockTurn(result: SendResult)
    | Dispatch(e: MarketEvent)
    | PumpStarts(c: ConsumerId)
    | PumpReads(c: ConsumerId)
    | PumpDelivers(c: ConsumerId)
    | PumpFails(c: ConsumerId)

  // ------------------------------------------------------------------- vocabulary

  predicate WillDiscard(task: Task, t: Topic) {
    task.Cleaning? && t in task.rest && CountOf(task.final, t) == 0
  }

  /** Some unfinished cleanup will still discard `t`. */
  ghost predicate Listed(s: HubState, t: Topic) {
    exists c :: c in s.tasks && WillDiscard(s.tasks[c], t)
  }

  function Forget(since: map<(ConsumerId, Topic), Baseline>, c: ConsumerId): map<(ConsumerId, Topic), Baseline> {
    map p | p in since && p.0 != c :: since[p]
  }

  /** The pair (c, t) is added to registry and broker. */
  function AddPair(s: HubState, c: ConsumerId, t: Topic): HubState {
    var b := Broker.Attach(s.broker, t, c);
    var known := (c, t) in s.since;
    s.(registry := s.registry[c := TopicsOf(s.registry, c) + {t}],
       broker := b,
       since := if known || c !in b.queues then s.since
                else s.since[(c, t) := Baseline(|b.queues[c].put|, RowOf(s.store, t))])
  }

  /** The pair (c, t) is taken out of registry and broker. */
  function DropPair(s: HubState, c: ConsumerId, t: Topic): HubState {
    s.(registry := if c in s.registry then s.registry[c := s.registry[c] - {t}] else s.registry,
       broker := Broker.Detach(s.broker, t, c),
       since := s.since - {(c, t)})
  }

  // -------------------------------------------------------------------- the steps

  function OnConnect(s: HubState, c: ConsumerId): HubState {
    s.(registry := s.registry[c := {}], tasks := s.tasks[c := Receiving])
  }

  /**
   * app/main.py:206-229 and, when nothing is to be sent, 248. An unknown consumer is refused. The
   * refcount is positive exactly when the topic is wanted (`Registry.CountPositive`).
   */
  ghost function OnSubscribe(s: HubState, c: ConsumerId, t: Topic): HubState {
    if c !in s.registry then s
    else if !Wanted(s.registry, t) then
      AddPair(s, c, t).(
        client := Client.SubscribeTopic(s.client, t, c),
        tasks := s.tasks[c := Subscribing(t)],
        exposed := if Listed(s, t) then s.exposed + {t} else s.exposed - {t})
    else
      AddPair(s, c, t).(ready := s.ready + {c})
  }

  /** app/main.py:279-289 */
  function OnUnsubscribe(s: HubState, c: ConsumerId, t: Topic): HubState {
    var parted := DropPair(s, c, t);
    if Wanted(s.registry, t) && !Wanted(parted.registry, t) then
      parted.(client := Client.UnsubscribeTopic(s.client, t, c),
              tasks := s.tasks[c := Unsubscribing(t)],
              failed := s.failed - {t})
    else
      parted
  }

  /** The cleanup loop passes over topics that are still counted. */
  function SkipCounted(topics: seq<Topic>, final: map<Topic, nat>): seq<Topic> {
    if topics != [] && CountOf(final, topics[0]) != 0 then SkipCounted(topics[1..], final) else topics
  }

  /** app/main.py:316-319: discard the next uncounted topic and ask for the lock, or finish. */
  function ContinueCleanup(s: HubState, c: ConsumerId, topics: seq<Topic>, final: map<Topic, nat>): HubState {
    var todo := SkipCounted(topics, final);
    if todo == [] then
      s.(tasks := s.tasks - {c})
    else
      s.(client := Client.UnsubscribeTopic(s.client, todo[0], c),
         tasks := s.tasks[c := Cleaning(todo[1..], final)],
         failed := s.failed - {todo[0]})
  }

  /** Registry and broker forget `c`; its cleanup has every topic of `c` ahead of it. */
  function Unregistered(s: HubState, c: ConsumerId): HubState {
    s.(registry := s.registry - {c},
       broker := Broker.Remove(s.broker, c),
       tasks := s.tasks[c := Cleaning(Sorted(TopicsOf(s.registry, c)), Counts(s.registry - {c}))],
       ready := s.ready - {c},
       pumps := s.pumps - {c},
       delivering := s.delivering - {c},
       since := Forget(s.since, c))
  }

  /** app/main.py:304-319 */
  function Cleanup(s: HubState, c: ConsumerId): HubState {
    var topics := Sorted(TopicsOf(s.registry, c));
    ContinueCleanup(Unregistered(s, c), c, topics, Counts(s.registry - {c}))
  }

  /** The task of `c` ends without its cleanup: registry, broker and client are left as they are. */
  function Abandon(s: HubState, c: ConsumerId): HubState {
    s.(tasks := s.tasks - {c},
       ready := s.ready - {c},
       pumps := s.pumps - {c},
       broken := s.broken - {c},
       abandoned := s.abandoned + {c})
  }

  /**
   * app/main.py:168-172. Cancelling a pump that has ended does nothing, and awaiting it raises the
   * exception it ended with, so the cleanup on the next line is not reached.
   */
  function OnDisconnect(s: HubState, c: ConsumerId): HubState {
    if c in s.broken then Abandon(s, c) else Cleanup(s, c)
  }

  /** app/main.py:232-233: registry and broker give the pair back; `_topics` keeps the topic. */
  function Rollback(s: HubState, c: ConsumerId, t: Topic): HubState {
    DropPair(s, c, t).(tasks := s.tasks[c := Receiving],
                       failed := if t in s.client.topics then s.failed + {t} else s.failed)
  }

  /** The task that waited at the head of the queue goes on, up to its next suspension or request. */
  function Resume(s: HubState, owner: Client.Owner, raised: bool): HubState {
    if owner.Runner? || owner.consumer !in s.tasks then s
    else
      var c := owner.consumer;
      match s.tasks[c]
      case Receiving => s
      case Subscribing(t) =>
        if raised then Rollback(s, c, t) else s.(tasks := s.tasks[c := Receiving], ready := s.ready + {c})
      case Unsubscribing(_) => s.(tasks := s.tasks[c := Receiving])
      case Cleaning(rest, final) => ContinueCleanup(s, c, rest, final)
  }

  function Finish(s: HubState, delivered: bool, raised: bool): HubState
    requires s.client.waiters != [] && s.client.waiters[0].Send?
  {
    var k := if delivered then Client.Deliver(s.client) else s.client;
    Resume(s.(client := Client.Retire(k, raised)), s.client.waiters[0].owner, raised)
  }

  /** app/ingestion/coinbase_client.py:134-136 and 215-223, up to the next suspension or request. */
  function OnLockTurn(s: HubState, result: SendResult): HubState
    requires s.client.waiters != []
  {
    var k := s.client;
    match k.waiters[0]
    case SetWs(true) => s.(client := Client.Attach(k))
    case SetWs(false) => s.(client := Client.Detach(k))
    case Send(_, owner) =>
      if k.sending then Finish(s, result == Sent, result == Raised)
      else if k.attached && k.open then s.(client := Client.BeginSend(k))
      else Finish(s, false, false)
  }

  /** app/ingestion/coinbase_client.py:242-260 */
  function OnDispatch(s: HubState, e: MarketEvent): HubState {
    if e.topic in s.client.topics then
      s.(store := Apply(s.store, e), broker := Broker.FanOut(s.broker, e.topic, e))
    else s
  }

  /** app/main.py:125-128: the pump takes the consumer's queue, or ends if there is none. */
  function OnPumpStarts(s: HubState, c: ConsumerId): HubState {
    if c in s.broker.queues then s.(pumps := s.pumps[c := s.broker.queues[c].serial]) else s
  }

  /** app/main.py:130: the pump takes the next item and calls `websocket.send_json`. */
  function OnPumpReads(s: HubState, c: ConsumerId): HubState
    requires c in s.broker.queues && s.broker.queues[c].items != []
  {
    s.(broker := Broker.ReadFrom(s.broker, c), delivering := s.delivering + {c})
  }

  // ---------------------------------------------------------------- without suspending

  /** How many turns `w` may take before its task suspends. */
  function TurnsOf(tasks: map<ConsumerId, Task>, w: Client.Waiter): nat {
    match w
    case SetWs(_) => 2
    case Send(_, Runner) => 1
    case Send(_, Handler(c)) => if c in tasks && tasks[c].Cleaning? then 1 + |tasks[c].rest| else 1
  }

  function Ahead(s: HubState): nat {
    if s.client.running && s.client.waiters != [] then TurnsOf(s.tasks, s.client.waiters[0]) else 0
  }

  /** Whoever runs has the lock to itself. */
  predicate Alone(k: Client.ClientState) {
    k.running ==> |k.waiters| == 1 && !k.sending
  }

  lemma {:induction false} SkipCountedShortens(topics: seq<Topic>, final: map<Topic, nat>)
    ensures |SkipCounted(topics, final)| <= |topics|
  {
    if topics != [] {
      SkipCountedShortens(topics[1..], final);
    }
  }

  lemma ContinueGoesOn(s: HubState, c: ConsumerId, rest: seq<Topic>, final: map<Topic, nat>)
    requires s.client.waiters == [] && !s.client.running && !s.client.sending
    ensures var r := ContinueCleanup(s, c, rest, final); Alone(r.client) && Ahead(r) <= |rest|
  {
    SkipCountedShortens(rest, final);
    var todo := SkipCounted(rest, final);
    if todo != [] {
      assert ContinueCleanup(s, c, rest, final).client.waiters ==
        [Client.Send(Client.Frame(false, [todo[0]]), Client.Handler(c))];
    }
  }

  lemma ResumeGoesOn(s: HubState, c: ConsumerId)
    requires s.client.waiters == [] && !s.client.running && !s.client.sending
    ensures var r := Resume(s, Client.Handler(c), false);
      && Alone(r.client)
      && Ahead(r) <= if c in s.tasks && s.tasks[c].Cleaning? then |s.tasks[c].rest| else 0
  {
    if c in s.tasks {
      match s.tasks[c] {
        case Cleaning(rest, final) => ContinueGoesOn(s, c, rest, final);
        case _ =>
      }
    }
  }

  lemma SetWsGoesOn(s: HubState)
    requires s.client.running && Alone(s.client) && s.client.waiters[0].SetWs?
    ensures var r := OnLockTurn(s, Swallowed); Alone(r.client) && Ahead(r) < Ahead(s)
  {
  }

  lemma TurnGoesOn(s: HubState)
    requires s.client.running && Alone(s.client)
    ensures var r := OnLockTurn(s, Swallowed); Alone(r.client) && Ahead(r) < Ahead(s)
  {
    var k := s.client;
    if k.waiters[0].SetWs? {
      SetWsGoesOn(s);
    } else if !(k.attached && k.open) && k.waiters[0].owner.Handler? {
      ResumeGoesOn(s.(client := Client.Retire(k, false)), k.waiters[0].owner.consumer);
    }
  }

  /** The running task, if any, goes on until it suspends or ends. */
  function Settle(s: HubState): (r: HubState)
    ensures Alone(s.client) ==> !r.client.running
    decreases Ahead(s)
  {
    if s.client.running && Alone(s.client) then
      TurnGoesOn(s);
      Settle(OnLockTurn(s, Swallowed))
    else s
  }

  // ------------------------------------------------------------------ transitions

  /**
   * The step can happen. A `ws.send` that was begun fails only if the socket is no longer open; a
   * connecting consumer has a new identifier; nothing comes before the turn of a running task.
   */
  predicate Enabled(s: HubState, l: Label) {
    && (s.client.running ==> l.LockTurn?)
    && match l
    case Connect(c) => c !in s.tasks && c !in s.registry
    case Subscribe(c, t) => c in s.tasks && s.tasks[c] == Receiving
    case Unsubscribe(c, t) => c in s.tasks && s.tasks[c] == Receiving
    case Disconnect(c) => c in s.tasks && s.tasks[c] == Receiving
    case UpstreamOpens => s.client.phase == Client.Down
    case UpstreamFails => s.client.phase == Client.Down
    case UpstreamCloses => s.client.open
    case ReceiveEnds => s.client.phase == Client.Streaming
    case LockTurn(result) =>
      s.client.waiters != [] && (s.client.sending ==> (result == Sent <==> s.client.open))
    case Dispatch(e) => s.client.phase == Client.Streaming
    case PumpStarts(c) => c in s.ready && c !in s.pumps
    case PumpReads(c) =>
      && c in s.pumps && c !in s.delivering && c !in s.broken
      && c in s.broker.queues && s.broker.queues[c].serial == s.pumps[c] && s.broker.queues[c].items != []
    case PumpDelivers(c) => c in s.delivering
    case PumpFails(c) => c in s.delivering
  }

  ghost function Next(s: HubState, l: Label): HubState
    requires Enabled(s, l)
  {
    match l
    case Connect(c) => OnConnect(s, c)
    case Subscribe(c, t) => OnSubscribe(s, c, t)
    case Unsubscribe(c, t) => OnUnsubscribe(s, c, t)
    case Disconnect(c) => OnDisconnect(s, c)
    case UpstreamOpens => s.(client := Client.Connected(s.client))
    case UpstreamCloses => s.(client := Client.SocketClosed(s.client))
    case UpstreamFails => s.(client := Client.Leave(s.client))
    case ReceiveEnds => s.(client := Client.Leave(s.client))
    case LockTurn(result) => OnLockTurn(s, result)
    case Dispatch(e) => OnDispatch(s, e)
    case PumpStarts(c) => OnPumpStarts(s, c)
    case PumpReads(c) => OnPumpReads(s, c)
    case PumpDelivers(c) => s.(delivering := s.delivering - {c})
    case PumpFails(c) => s.(delivering := s.delivering - {c}, broken := s.broken + {c})
  }

  /** The state after a run, or None if some step of it was not enabled. */
  ghost function Exec(s: HubState, run: seq<Label>): Option<HubState> {
    if run == [] then Some(s)
    else
      match Exec(s, run[..|run| - 1])
      case None => None
      case Some(m) => if Enabled(m, run[|run| - 1]) then Some(Next(m, run[|run| - 1])) else None
  }

  ghost predicate Reachable(s: HubState) {
    exists maxsize, run :: Exec(Init(maxsize), run) == Some(s)
  }
}
