/** What the hub keeps of a run: bounds, rows, and the meaning of the histories, told by the run alone. */
module HubHistory {
  import opened Names
  import opened Registry
  import opened Snapshot
  import opened Queue
  import Broker
  import Client
  import opened Hub
  import opened HubInvariant
  import opened HubRuns
  import opened HubData

  // ------------------------------------------------------------------ bounded queues

  lemma StepKeepsBound(s: HubState, l: Label)
    requires Enabled(s, l)
    ensures Next(s, l).broker.maxsize == s.broker.maxsize
  {
    match l {
      case LockTurn(result) => TurnLeavesSerials(s, result);
      case Disconnect(c) => DisconnectLeaves(s, c);
      case Subscribe(c, t) => if c in s.registry { AddPairLeaves(s, c, t); }
      case _ =>
    }
  }

  lemma {:induction false} RunKeepsBound(s: HubState, run: seq<Label>)
    requires Exec(s, run).Some?
    ensures Exec(s, run).value.broker.maxsize == s.broker.maxsize
  {
    if run != [] {
      RunKeepsBound(s, run[..|run| - 1]);
      StepKeepsBound(Exec(s, run[..|run| - 1]).value, run[|run| - 1]);
    }
  }

  /** Every queue there ever was has the configured bound and kept to it. */
  lemma QueuesAreBounded(maxsize: int, run: seq<Label>, s: HubState, q: QueueState)
    requires Exec(Init(maxsize), run) == Some(s) && EverQueue(s.broker, q)
    ensures q.maxsize == maxsize && (maxsize >= 1 ==> |q.items| <= maxsize)
  {
    RunKeepsBound(Init(maxsize), run);
    InitHolds(maxsize);
    RunKeeps(Init(maxsize), run);
    assert ValidQueue(q) && q.maxsize == s.broker.maxsize;
  }

  /** The event of a dispatch reaches the queue of `c`. */
  predicate Reaches(s: HubState, l: Label, c: ConsumerId) {
    l.Dispatch? && l.e.topic in s.client.topics && Holds(s.registry, c, l.e.topic)
  }

  /**
   * What becomes of a queue, step by step: a dispatch of a topic its consumer holds puts the event at
   * its end, and drops the oldest item exactly if there are `maxsize` of them; a read of its pump
   * takes the oldest item; no other step touches it.
   */
  lemma QueueAfter(maxsize: int, run: seq<Label>, s: HubState, l: Label, c: ConsumerId, q: QueueState, r: QueueState)
    requires Exec(Init(maxsize), run) == Some(s) && Enabled(s, l)
    requires c in s.broker.queues && q == s.broker.queues[c]
    requires c in Next(s, l).broker.queues && r == Next(s, l).broker.queues[c]
    ensures Reaches(s, l, c) ==>
      var full := maxsize >= 1 && |q.items| == maxsize;
      && r.put == q.put + [l.e] && Read(r) == Read(q)
      && r.items == (if full then q.items[1..] else q.items) + [l.e]
      && Dropped(r) == (if full then Dropped(q) + [q.items[0]] else Dropped(q))
    ensures l == PumpReads(c) ==>
      q.items != [] && r.items == q.items[1..] && Read(r) == Read(q) + [q.items[0]]
      && r.put == q.put && Dropped(r) == Dropped(q)
    ensures !Reaches(s, l, c) && l != PumpReads(c) ==> r == q
  {
    QueueIsBounded(maxsize, run, s, c);
    if Reaches(s, l, c) {
      PutReaches(s, l.e, c);
      PutMoves(q, l.e);
    } else if l.Dispatch? {
      PutPassesBy(s, l.e, c);
    } else if l == PumpReads(c) {
      TakeMoves(q, true);
    } else {
      OthersLeaveQueue(s, l, c);
    }
  }

  lemma QueueIsBounded(maxsize: int, run: seq<Label>, s: HubState, c: ConsumerId)
    requires Exec(Init(maxsize), run) == Some(s) && c in s.broker.queues
    ensures Agree(s.registry, s.broker)
    ensures ValidQueue(s.broker.queues[c]) && s.broker.queues[c].maxsize == maxsize
  {
    RunKeepsBound(Init(maxsize), run);
    InitHolds(maxsize);
    RunKeeps(Init(maxsize), run);
  }

  lemma PutReaches(s: HubState, e: MarketEvent, c: ConsumerId)
    requires Agree(s.registry, s.broker) && e.topic in s.client.topics && Holds(s.registry, c, e.topic)
    requires c in s.broker.queues
    ensures c in OnDispatch(s, e).broker.queues
    ensures OnDispatch(s, e).broker.queues[c] == PutDropOldest(s.broker.queues[c], e)
  {
    assert Broker.Attached(s.broker, e.topic, c);
  }

  lemma PutPassesBy(s: HubState, e: MarketEvent, c: ConsumerId)
    requires Agree(s.registry, s.broker) && !(e.topic in s.client.topics && Holds(s.registry, c, e.topic))
    requires c in s.broker.queues
    ensures c in OnDispatch(s, e).broker.queues
    ensures OnDispatch(s, e).broker.queues[c] == s.broker.queues[c]
  {
    assert Broker.Attached(s.broker, e.topic, c) <==> Holds(s.registry, c, e.topic);
  }

  lemma OthersLeaveQueue(s: HubState, l: Label, c: ConsumerId)
    requires Enabled(s, l) && !l.Dispatch? && l != PumpReads(c)
    requires c in s.broker.queues && c in Next(s, l).broker.queues
    ensures Next(s, l).broker.queues[c] == s.broker.queues[c]
  {
    if l.Subscribe? || l.Unsubscribe? || l.Disconnect? {
      HandlerLeavesPuts(s, l, c);
    } else if l.LockTurn? {
      TurnLeavesQueues(s, l.result);
    }
  }

  // --------------------------------------------------------------- the store and the run

  /** The events of the run that were of a topic in `_topics` when they arrived. */
  ghost function Accepted(s: HubState, run: seq<Label>): seq<MarketEvent> {
    if run == [] then []
    else
      var front, l := run[..|run| - 1], run[|run| - 1];
      Accepted(s, front) +
      if l.Dispatch? && Exec(s, front).Some? && l.e.topic in Exec(s, front).value.client.topics then [l.e] else []
  }

  /** The snapshot store is the fold of the accepted events of the run, in their order. */
  lemma {:induction false} StoreIsHistory(maxsize: int, run: seq<Label>)
    requires Exec(Init(maxsize), run).Some?
    ensures Exec(Init(maxsize), run).value.store == Fold(map[], Accepted(Init(maxsize), run))
  {
    if run != [] {
      var front, l := run[..|run| - 1], run[|run| - 1];
      var m := Exec(Init(maxsize), front).value;
      StoreIsHistory(maxsize, front);
      StoreAfter(m, l);
      if l.Dispatch? && l.e.topic in m.client.topics {
        FoldAppend(map[], Accepted(Init(maxsize), front), l.e);
      } else {
        assert Accepted(Init(maxsize), run) == Accepted(Init(maxsize), front);
      }
    }
  }

  // ------------------------------------------------------------------ exposed topics

  /** A first subscribe of `t`. */
  ghost predicate FirstSubscribe(s: HubState, l: Label, t: Topic) {
    l.Subscribe? && l.t == t && l.c in s.registry && !Wanted(s.registry, t)
  }

  /** The last first subscribe of `t` in the run met an unfinished cleanup that listed it. */
  ghost predicate MetListing(s: HubState, run: seq<Label>, t: Topic) {
    run != [] && Exec(s, run[..|run| - 1]).Some? &&
    var m := Exec(s, run[..|run| - 1]).value;
    if FirstSubscribe(m, run[|run| - 1], t) then Listed(m, t) else MetListing(s, run[..|run| - 1], t)
  }

  lemma ResumeExposes(s: HubState, owner: Client.Owner, raised: bool)
    ensures Resume(s, owner, raised).exposed == s.exposed
  {
    if owner.Handler? && owner.consumer in s.tasks {
      match s.tasks[owner.consumer] {
        case Cleaning(rest, final) => assert ContinueCleanup(s, owner.consumer, rest, final).exposed == s.exposed;
        case _ =>
      }
    }
  }

  lemma TurnExposes(s: HubState, result: SendResult)
    requires Enabled(s, LockTurn(result))
    ensures OnLockTurn(s, result).exposed == s.exposed
  {
    if s.client.waiters[0].Send? && !Begins(s.client) {
      var delivered, raised := s.client.sending && result == Sent, s.client.sending && result == Raised;
      TurnFinishes(s, result);
      RetiredShape(s, delivered, raised);
      ResumeExposes(Retired(s, delivered, raised), s.client.waiters[0].owner, raised);
    } else {
      SetWsShape(s, result);
    }
  }

  lemma DisconnectExposesNobody(s: HubState, c: ConsumerId)
    ensures OnDisconnect(s, c).exposed == s.exposed
  {
    assert Cleanup(s, c).exposed == s.exposed;
  }

  lemma StepExposes(s: HubState, l: Label, t: Topic)
    requires Enabled(s, l)
    ensures t in Next(s, l).exposed <==> if FirstSubscribe(s, l, t) then Listed(s, t) else t in s.exposed
  {
    if l.LockTurn? {
      TurnExposes(s, l.result);
    } else if l.Disconnect? {
      DisconnectExposesNobody(s, l.c);
    }
  }

  /** Which topics are exposed to a stale cleanup is told by the run alone. */
  lemma {:induction false} ExposedIffMet(maxsize: int, run: seq<Label>, t: Topic)
    requires Exec(Init(maxsize), run).Some?
    ensures t in Exec(Init(maxsize), run).value.exposed <==> MetListing(Init(maxsize), run, t)
  {
    if run != [] {
      ExposedIffMet(maxsize, run[..|run| - 1], t);
      StepExposes(Exec(Init(maxsize), run[..|run| - 1]).value, run[|run| - 1], t);
    }
  }

  // --------------------------------------------------------------------- leftovers

  /** The step refuses the first subscribe of `t`, whose send raises. */
  ghost predicate Refuses(s: HubState, l: Label, t: Topic) {
    && l == LockTurn(Raised) && s.client.sending
    && exists c :: c in s.tasks && s.tasks[c] == Subscribing(t) && WaitsAt(s.client.waiters, 0, c)
  }

  /** A first subscribe of `t` was refused in the run, and `t` has been in `_topics` ever since. */
  ghost predicate LeftSince(s: HubState, run: seq<Label>, t: Topic) {
    && run != [] && Exec(s, run).Some? && t in Exec(s, run).value.client.topics
    && (LeftSince(s, run[..|run| - 1], t) || Refuses(Exec(s, run[..|run| - 1]).value, run[|run| - 1], t))
  }

  /** `_topics` after a step still has what was left before, unless it was discarded. */
  ghost predicate Leaves(s: HubState, r: HubState, refused: set<Topic>) {
    forall t :: t in r.failed <==> t in r.client.topics && (t in s.failed || t in refused)
  }

  lemma ContinueLeaves(s: HubState, c: ConsumerId, topics: seq<Topic>, final: map<Topic, nat>)
    requires s.failed <= s.client.topics
    ensures Leaves(s, ContinueCleanup(s, c, topics, final), {})
  {
  }

  lemma ResumeLeaves(s: HubState, c: ConsumerId, raised: bool)
    requires c in s.tasks && s.failed <= s.client.topics
    ensures Leaves(s, Resume(s, Client.Handler(c), raised),
                   if raised && s.tasks[c].Subscribing? then {s.tasks[c].topic} else {})
  {
    match s.tasks[c] {
      case Cleaning(rest, final) => ContinueLeaves(s, c, rest, final);
      case _ =>
    }
  }

  lemma HandlerLeaves(s: HubState, delivered: bool, raised: bool, c: ConsumerId)
    requires Control(s, None) && WaitsAt(s.client.waiters, 0, c)
    ensures c in s.tasks
    ensures Leaves(s, Finish(s, delivered, raised),
                   if raised && s.tasks[c].Subscribing? then {s.tasks[c].topic} else {})
  {
    RetiredShape(s, delivered, raised);
    ResumeLeaves(Retired(s, delivered, raised), c, raised);
  }

  lemma NothingLeft(s: HubState, r: HubState)
    requires NoExcess(s) && r == s.(client := r.client) && r.client.topics == s.client.topics
    ensures Leaves(s, r, {})
  {
  }

  lemma TurnLeaves(s: HubState, result: SendResult, t: Topic)
    requires Control(s, None) && Enabled(s, LockTurn(result))
    ensures t in OnLockTurn(s, result).failed <==>
      t in OnLockTurn(s, result).client.topics && (t in s.failed || Refuses(s, LockTurn(result), t))
  {
    if s.client.waiters[0].Send? && !Begins(s.client) {
      var delivered, raised := s.client.sending && result == Sent, s.client.sending && result == Raised;
      TurnFinishes(s, result);
      if s.client.waiters[0].owner.Handler? {
        var c := s.client.waiters[0].owner.consumer;
        assert WaitsAt(s.client.waiters, 0, c);
        HandlerLeaves(s, delivered, raised, c);
        assert Refuses(s, LockTurn(result), t) <==> raised && s.tasks[c] == Subscribing(t);
      } else {
        RetiredShape(s, delivered, raised);
        NothingLeft(s, OnLockTurn(s, result));
      }
    } else {
      SetWsShape(s, result);
      NothingLeft(s, OnLockTurn(s, result));
    }
  }

  lemma CleanupLeaves(s: HubState, c: ConsumerId)
    requires s.failed <= s.client.topics
    ensures Leaves(s, Cleanup(s, c), {})
  {
    ContinueLeaves(Unregistered(s, c), c, Sorted(TopicsOf(s.registry, c)), Counts(s.registry - {c}));
  }

  lemma HandlerStepLeaves(s: HubState, l: Label)
    requires s.failed <= s.client.topics && Enabled(s, l) && (l.Subscribe? || l.Unsubscribe? || l.Disconnect?)
    ensures Leaves(s, Next(s, l), {})
  {
    match l {
      case Subscribe(c, u) =>
      case Unsubscribe(c, u) =>
      case Disconnect(c) => if c !in s.broken { CleanupLeaves(s, c); }
    }
  }

  lemma StepLeaves(s: HubState, l: Label, t: Topic)
    requires Control(s, None) && Enabled(s, l)
    ensures t in Next(s, l).failed <==> t in Next(s, l).client.topics && (t in s.failed || Refuses(s, l, t))
  {
    if l.LockTurn? {
      TurnLeaves(s, l.result, t);
    } else if l.Subscribe? || l.Unsubscribe? || l.Disconnect? {
      HandlerStepLeaves(s, l);
    }
  }

  /** Which topics are leftovers of a refused first subscribe is told by the run alone. */
  lemma {:induction false} FailedIffLeft(maxsize: int, run: seq<Label>, t: Topic)
    requires Exec(Init(maxsize), run).Some?
    ensures t in Exec(Init(maxsize), run).value.failed <==> LeftSince(Init(maxsize), run, t)
  {
    if run != [] {
      FailedIffLeft(maxsize, run[..|run| - 1], t);
      InitHolds(maxsize);
      RunKeeps(Init(maxsize), run[..|run| - 1]);
      StepLeaves(Exec(Init(maxsize), run[..|run| - 1]).value, run[|run| - 1], t);
    }
  }
}
