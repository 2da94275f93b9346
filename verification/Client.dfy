/**
 * app/ingestion/coinbase_client.py: the topics wanted upstream, the FIFO of tasks waiting for
 * `_ws_lock`, and the connection they send on.
 *
 * `_lock` is never held across a suspension, so a handler changes `_topics` and takes its place in
 * the queue for `_ws_lock` in one step. `_ws_lock` is held across `ws.send`; asyncio serves its
 * waiters in order. `waiters[0]` is the task that holds the lock or is next to get it. A task that
 * asks for the lock while it is free and nobody waits gets it without suspending: it is `running`.
 */
module Client {
  import opened Names

  datatype Owner = Runner | Handler(consumer: ConsumerId)

  /** A frame for the venue: subscribe or unsubscribe the given products. */
  datatype Frame = Frame(subscribe: bool, products: seq<Topic>)

  /** What a task wants `_ws_lock` for: to send a frame, or to set `_ws` to the new socket or to None. */
  datatype Waiter =
    | Send(frame: Frame, owner: Owner)
    | SetWs(connected: bool)

  /** Where the reconnect loop is. */
  datatype Phase = Down | Attaching | Resyncing | Streaming | Detaching

  /**
   * `topics` is `_topics`; `attached` says that `_ws` is the reconnect loop's socket and not None;
   * `open` and `wire` belong to that socket: whether it can still send, and what the frames sent
   * on it have subscribed. `sending` says that waiters[0] is suspended inside `ws.send`;
   * `running` that it has got a free lock and goes on at once, before any other task.
   */
  datatype ClientState = ClientState(
    topics: set<Topic>,
    waiters: seq<Waiter>,
    sending: bool,
    running: bool,
    attached: bool,
    open: bool,
    wire: set<Topic>,
    phase: Phase)

  const INITIAL := ClientState({}, [], false, false, false, false, {}, Down)

  function AsSet(products: seq<Topic>): set<Topic> {
    set t | t in products
  }

  /** What a frame does to the set subscribed at the venue. */
  function OnWire(wire: set<Topic>, f: Frame): set<Topic> {
    if f.subscribe then wire + AsSet(f.products) else wire - AsSet(f.products)
  }

  function Step(wire: set<Topic>, w: Waiter): set<Topic> {
    match w
    case Send(f, _) => OnWire(wire, f)
    case SetWs(_) => wire
  }

  /** The set subscribed once every frame of the queue has been sent. */
  function Replay(wire: set<Topic>, q: seq<Waiter>): set<Topic> {
    if q == [] then wire else Step(Replay(wire, q[..|q| - 1]), q[|q| - 1])
  }

  // ------------------------------------------------------------------- operations

  /** A task asks for `_ws_lock`: if nobody has it or waits for it, the task goes on at once. */
  function Wait(k: ClientState, w: Waiter): ClientState {
    k.(waiters := k.waiters + [w], running := k.waiters == [])
  }

  /** `subscribe_topic` up to its request for the lock. */
  function SubscribeTopic(k: ClientState, t: Topic, c: ConsumerId): ClientState {
    Wait(k.(topics := k.topics + {t}), Send(Frame(true, [t]), Handler(c)))
  }

  /** `unsubscribe_topic` up to its request for the lock. */
  function UnsubscribeTopic(k: ClientState, t: Topic, c: ConsumerId): ClientState {
    Wait(k.(topics := k.topics - {t}), Send(Frame(false, [t]), Handler(c)))
  }

  /** `websockets.connect` has succeeded; the loop calls `_set_ws(ws)`. */
  function Connected(k: ClientState): ClientState {
    Wait(k.(open := true, wire := {}, phase := Attaching), SetWs(true))
  }

  /** The socket closes under the hub's feet. */
  function SocketClosed(k: ClientState): ClientState {
    k.(open := false)
  }

  /** The receive loop ends, or the resync or the connect has failed; the loop calls `_set_ws(None)`. */
  function Leave(k: ClientState): ClientState {
    Wait(k.(phase := Detaching), SetWs(false))
  }

  /** `_set_ws(ws)` gets the lock, and the loop goes on to `_wire_subscribe_all`. */
  function Attach(k: ClientState): ClientState
    requires k.waiters != []
  {
    var current := k.(attached := true, waiters := k.waiters[1..], running := false);
    if k.topics == {} then current.(phase := Streaming)
    else Wait(current.(phase := Resyncing), Send(Frame(true, Sorted(k.topics)), Runner))
  }

  /** `_set_ws(None)` gets the lock, and the loop closes a socket that is still open. */
  function Detach(k: ClientState): ClientState
    requires k.waiters != []
  {
    k.(attached := false, open := false, phase := Down, waiters := k.waiters[1..], running := false)
  }

  /** The sender at the head finds a socket it can send on, and suspends in `ws.send`. */
  function BeginSend(k: ClientState): ClientState {
    k.(sending := true, running := false)
  }

  /** The frame at the head has reached the venue. */
  function Deliver(k: ClientState): ClientState
    requires k.waiters != []
  {
    k.(wire := Step(k.wire, k.waiters[0]))
  }

  /** The task at the head leaves the queue; if it is the reconnect loop, that moves on. */
  function Retire(k: ClientState, raised: bool): ClientState
    requires k.waiters != [] && k.waiters[0].Send?
  {
    var popped := k.(waiters := k.waiters[1..], sending := false, running := false);
    if k.waiters[0].owner != Runner then popped
    else if raised then Leave(popped)
    else popped.(phase := Streaming)
  }

  // --------------------------------------------------------------------- the queue

  predicate FromHandler(w: Waiter) {
    w.Send? && w.owner.Handler?
  }

  ghost predicate OnlyHandlers(q: seq<Waiter>) {
    forall i | 0 <= i < |q| :: FromHandler(q[i])
  }

  /** Exactly one waiter of `q`, the one at `i`, belongs to the reconnect loop. */
  ghost predicate OneRunnerAt(q: seq<Waiter>, i: nat) {
    i < |q| && !FromHandler(q[i]) && forall j | 0 <= j < |q| && j != i :: FromHandler(q[j])
  }

  predicate Mentions(w: Waiter, t: Topic) {
    w.Send? && t in w.frame.products
  }

  /** Wherever the pending frames speak of a topic, the last of them agrees with `_topics`. */
  ghost predicate Agrees(q: seq<Waiter>, topics: set<Topic>) {
    forall t, i | 0 <= i < |q| && Mentions(q[i], t) :: t in Replay({}, q) <==> t in topics
  }

  lemma ReplayAppend(wire: set<Topic>, q: seq<Waiter>, w: Waiter)
    ensures Replay(wire, q + [w]) == Step(Replay(wire, q), w)
  {
    assert (q + [w])[..|q|] == q;
  }

  lemma {:induction false} ReplayHead(wire: set<Topic>, q: seq<Waiter>)
    requires q != []
    ensures Replay(wire, q) == Replay(Step(wire, q[0]), q[1..])
  {
    if |q| > 1 {
      ReplayHead(wire, q[..|q| - 1]);
      assert q[..|q| - 1][1..] == q[1..][..|q| - 2];
    } else {
      assert q[1..] == [] && q[..0] == [];
    }
  }

  /** A topic no pending frame speaks of is subscribed after the frames as it was before. */
  lemma {:induction false} ReplayFrame(wire: set<Topic>, q: seq<Waiter>, t: Topic)
    ensures (exists i :: 0 <= i < |q| && Mentions(q[i], t)) || (t in Replay(wire, q) <==> t in wire)
  {
    if q != [] {
      var n := |q| - 1;
      ReplayFrame(wire, q[..n], t);
      if i :| 0 <= i < n && Mentions(q[..n][i], t) {
        assert Mentions(q[i], t);
      }
    }
  }

  /** Before the resync, the pending frames yield a subset of `_topics`. */
  lemma AgreeingIsSubset(q: seq<Waiter>, topics: set<Topic>)
    requires Agrees(q, topics)
    ensures Replay({}, q) <= topics
  {
    forall t | t in Replay({}, q) ensures t in topics {
      ReplayFrame({}, q, t);
    }
  }

  // --------------------------------------------------------------------- invariant

  /** Which waiter the reconnect loop has in the queue, by phase. */
  ghost predicate RunnerInQueue(k: ClientState) {
    match k.phase
    case Down => OnlyHandlers(k.waiters) && !k.attached && !k.open
    case Attaching => !k.attached && exists i: nat :: OneRunnerAt(k.waiters, i) && k.waiters[i] == SetWs(true)
    case Resyncing => k.attached && exists i: nat :: OneRunnerAt(k.waiters, i) && k.waiters[i].Send?
    case Streaming => k.attached && OnlyHandlers(k.waiters)
    case Detaching => exists i: nat :: OneRunnerAt(k.waiters, i) && k.waiters[i] == SetWs(false)
  }

  ghost predicate LockHeld(k: ClientState) {
    && (k.sending ==> k.waiters != [] && k.waiters[0].Send? && k.attached)
    && (k.running ==> |k.waiters| == 1 && !k.sending)
  }

  /**
   * The agreement with the venue. Once the resync is in the queue of an open socket, sending what
   * is queued makes the subscribed set equal `_topics`; between the connect and that moment, what
   * will be sent on the new socket agrees with `_topics` on every topic it mentions.
   */
  ghost predicate WireAgrees(k: ClientState) {
    && (k.open && k.phase in {Resyncing, Streaming} ==> Replay(k.wire, k.waiters) == k.topics)
    && (k.phase == Attaching ==> k.wire == {})
    && (k.phase == Attaching ==> forall i: nat | OneRunnerAt(k.waiters, i) :: Agrees(k.waiters[i + 1..], k.topics))
  }

  ghost predicate ValidClient(k: ClientState) {
    RunnerInQueue(k) && LockHeld(k) && WireAgrees(k)
  }

  lemma AppendHandler(q: seq<Waiter>, w: Waiter)
    requires FromHandler(w)
    ensures OnlyHandlers(q) ==> OnlyHandlers(q + [w])
    ensures forall i: nat | OneRunnerAt(q, i) :: OneRunnerAt(q + [w], i) && (q + [w])[i] == q[i]
    ensures forall i: nat | OneRunnerAt(q + [w], i) :: OneRunnerAt(q, i) && (q + [w])[i + 1..] == q[i + 1..] + [w]
  {
    forall i: nat | OneRunnerAt(q + [w], i) ensures OneRunnerAt(q, i) {
      forall j | 0 <= j < |q| && j != i ensures FromHandler(q[j]) {
        assert (q + [w])[j] == q[j];
      }
    }
  }

  lemma PopHandler(q: seq<Waiter>)
    requires q != [] && FromHandler(q[0])
    ensures OnlyHandlers(q) ==> OnlyHandlers(q[1..])
    ensures forall i: nat | OneRunnerAt(q, i) :: i > 0 && OneRunnerAt(q[1..], i - 1) && q[1..][i - 1] == q[i]
    ensures forall i: nat | OneRunnerAt(q[1..], i) :: OneRunnerAt(q, i + 1) && q[i + 2..] == q[1..][i + 1..]
  {
    forall i: nat | OneRunnerAt(q[1..], i) ensures OneRunnerAt(q, i + 1) && q[i + 2..] == q[1..][i + 1..] {
      forall j | 0 <= j < |q| && j != i + 1 ensures FromHandler(q[j]) {
        if j > 0 { assert q[j] == q[1..][j - 1]; }
      }
    }
  }

  /** Changing `_topics` and queueing the matching frame in one step keeps the agreement. */
  lemma AgreesAppend(q: seq<Waiter>, topics: set<Topic>, add: bool, t: Topic, o: Owner)
    requires Agrees(q, topics)
    ensures Agrees(q + [Send(Frame(add, [t]), o)], if add then topics + {t} else topics - {t})
  {
    var w := Send(Frame(add, [t]), o);
    var r := q + [w];
    var now := if add then topics + {t} else topics - {t};
    ReplayAppend({}, q, w);
    assert AsSet([t]) == {t};
    forall u, i | 0 <= i < |r| && Mentions(r[i], u) ensures u in Replay({}, r) <==> u in now {
      if u != t {
        assert i < |q| && Mentions(q[i], u);
      }
    }
  }

  /** While the reconnect loop's waiter stays in the queue, the phase stays right. */
  lemma RunnerStays(k: ClientState, r: ClientState)
    requires RunnerInQueue(k) && r.phase == k.phase && r.attached == k.attached && (r.open ==> k.open)
    requires OnlyHandlers(k.waiters) ==> OnlyHandlers(r.waiters)
    requires forall i: nat | OneRunnerAt(k.waiters, i) ::
      exists j: nat :: OneRunnerAt(r.waiters, j) && r.waiters[j] == k.waiters[i]
    ensures RunnerInQueue(r)
  {
    if k.phase in {Attaching, Resyncing, Detaching} {
      var i: nat :| OneRunnerAt(k.waiters, i);
      var j: nat :| OneRunnerAt(r.waiters, j) && r.waiters[j] == k.waiters[i];
    }
  }

  lemma TopicChangeKeeps(k: ClientState, add: bool, t: Topic, c: ConsumerId)
    requires ValidClient(k)
    ensures ValidClient(if add then SubscribeTopic(k, t, c) else UnsubscribeTopic(k, t, c))
  {
    var w := Send(Frame(add, [t]), Handler(c));
    var r := if add then SubscribeTopic(k, t, c) else UnsubscribeTopic(k, t, c);
    AppendHandler(k.waiters, w);
    ReplayAppend(k.wire, k.waiters, w);
    assert AsSet([t]) == {t};
    forall i: nat | k.phase == Attaching && OneRunnerAt(r.waiters, i) ensures Agrees(r.waiters[i + 1..], r.topics) {
      AgreesAppend(k.waiters[i + 1..], k.topics, add, t, Handler(c));
    }
    RunnerStays(k, r);
  }

  lemma ConnectedKeeps(k: ClientState)
    requires ValidClient(k) && k.phase == Down
    ensures ValidClient(Connected(k))
  {
    var r := Connected(k);
    var n := |k.waiters|;
    assert OneRunnerAt(r.waiters, n) && r.waiters[n] == SetWs(true);
    forall i: nat | OneRunnerAt(r.waiters, i) ensures Agrees(r.waiters[i + 1..], r.topics) {
      assert i == n;
    }
  }

  lemma SocketClosedKeeps(k: ClientState)
    requires ValidClient(k)
    ensures ValidClient(SocketClosed(k))
  {
    RunnerStays(k, SocketClosed(k));
  }

  lemma LeaveKeeps(k: ClientState)
    requires OnlyHandlers(k.waiters) && LockHeld(k)
    ensures ValidClient(Leave(k))
  {
    var n := |k.waiters|;
    assert OneRunnerAt(Leave(k).waiters, n) && Leave(k).waiters[n] == SetWs(false);
  }

  lemma HeadIsRunner(k: ClientState)
    requires RunnerInQueue(k) && k.waiters != [] && !FromHandler(k.waiters[0])
    ensures OnlyHandlers(k.waiters[1..]) && OneRunnerAt(k.waiters, 0)
    ensures k.waiters[0] == SetWs(true) ==> k.phase == Attaching
    ensures k.waiters[0] == SetWs(false) ==> k.phase == Detaching
    ensures k.waiters[0].Send? ==> k.phase == Resyncing
  {
    if i: nat :| OneRunnerAt(k.waiters, i) {
      assert i == 0;
    }
  }

  /** Setting `_ws` makes a connection usable with a resync that leaves nothing out and nothing over. */
  lemma AttachKeeps(k: ClientState)
    requires ValidClient(k) && k.waiters != [] && k.waiters[0] == SetWs(true)
    ensures ValidClient(Attach(k))
  {
    HeadIsRunner(k);
    var q, r := k.waiters[1..], Attach(k);
    AgreeingIsSubset(q, k.topics);
    if k.topics != {} {
      var resync := Send(Frame(true, Sorted(k.topics)), Runner);
      SortedIsSorted(k.topics);
      assert AsSet(Sorted(k.topics)) == k.topics;
      ReplayAppend({}, q, resync);
      assert OneRunnerAt(r.waiters, |q|) && r.waiters[|q|] == resync;
    }
  }

  lemma DetachKeeps(k: ClientState)
    requires ValidClient(k) && k.waiters != [] && k.waiters[0] == SetWs(false)
    ensures ValidClient(Detach(k))
  {
    HeadIsRunner(k);
  }

  lemma BeginSendKeeps(k: ClientState)
    requires ValidClient(k) && k.waiters != [] && k.waiters[0].Send? && k.attached
    ensures ValidClient(BeginSend(k))
  {
    RunnerStays(k, BeginSend(k));
  }

  lemma PoppedAgrees(k: ClientState, r: ClientState)
    requires ValidClient(k) && k.waiters != [] && FromHandler(k.waiters[0])
    requires r == k.(waiters := k.waiters[1..], sending := false, running := false, wire := r.wire)
    requires r.wire == Step(k.wire, k.waiters[0]) || (r.wire == k.wire && !(k.attached && k.open))
    requires k.phase == Attaching ==> r.wire == k.wire
    ensures ValidClient(r)
  {
    ReplayHead(k.wire, k.waiters);
    PopHandler(k.waiters);
    RunnerStays(k, r);
    forall i: nat | k.phase == Attaching && OneRunnerAt(r.waiters, i) ensures Agrees(r.waiters[i + 1..], r.topics) {
      assert r.waiters[i + 1..] == k.waiters[i + 2..];
    }
  }

  lemma RetireHandler(k: ClientState, delivered: bool, raised: bool)
    requires ValidClient(k) && k.waiters != [] && FromHandler(k.waiters[0])
    requires if delivered then k.attached else !(k.attached && k.open)
    ensures ValidClient(Retire(if delivered then Deliver(k) else k, raised))
  {
    PoppedAgrees(k, Retire(if delivered then Deliver(k) else k, raised));
  }

  lemma RetireRunner(k: ClientState, delivered: bool, raised: bool)
    requires ValidClient(k) && k.waiters != [] && k.waiters[0].Send? && k.waiters[0].owner == Runner
    requires delivered || !(k.attached && k.open)
    ensures ValidClient(Retire(if delivered then Deliver(k) else k, raised))
  {
    var m := if delivered then Deliver(k) else k;
    ReplayHead(k.wire, k.waiters);
    HeadIsRunner(k);
    if raised {
      LeaveKeeps(m.(waiters := m.waiters[1..], sending := false, running := false));
    }
  }

  /** A head that leaves: delivered on the open socket, or without effect when nothing can be sent. */
  lemma RetireKeeps(k: ClientState, delivered: bool, raised: bool)
    requires ValidClient(k) && k.waiters != [] && k.waiters[0].Send?
    requires delivered ==> k.sending && k.open && !raised
    requires !delivered ==> !(k.attached && k.open)
    ensures ValidClient(Retire(if delivered then Deliver(k) else k, raised))
  {
    if k.waiters[0].owner == Runner {
      RetireRunner(k, delivered, raised);
    } else {
      RetireHandler(k, delivered, raised);
    }
  }

  // --------------------------------------------------------------------- agreement

  /** Between the connect and the resync, what the queue would subscribe is only a subset. */
  lemma BeforeResyncSubset(k: ClientState, i: nat)
    requires ValidClient(k) && k.phase == Attaching && OneRunnerAt(k.waiters, i)
    ensures Replay(k.wire, k.waiters[i + 1..]) <= k.topics
  {
    AgreeingIsSubset(k.waiters[i + 1..], k.topics);
  }
}
