/** Theorems over whole runs of the hub's control plane. */
module HubRuns {
  import opened Names
  import opened Registry
  import opened Snapshot
  import opened Queue
  import Broker
  import Client
  import opened Hub
  import opened HubInvariant

  // ------------------------------------------------------- the agreement with the venue

  /**
   * In every reachable state: on an open socket whose resync is queued or done, sending what is
   * queued makes the subscribed set equal `_topics`; with nothing queued it already is.
   */
  lemma WireAgreement(s: HubState)
    requires Reachable(s)
    ensures s.client.open && s.client.phase in {Client.Resyncing, Client.Streaming} ==>
      Client.Replay(s.client.wire, s.client.waiters) == s.client.topics
    ensures s.client.open && s.client.phase == Client.Streaming && s.client.waiters == [] ==>
      s.client.wire == s.client.topics
    ensures forall i: nat | s.client.phase == Client.Attaching && Client.OneRunnerAt(s.client.waiters, i) ::
      Client.Replay(s.client.wire, s.client.waiters[i + 1..]) <= s.client.topics
  {
    ReachableHolds(s);
    forall i: nat | s.client.phase == Client.Attaching && Client.OneRunnerAt(s.client.waiters, i)
      ensures Client.Replay(s.client.wire, s.client.waiters[i + 1..]) <= s.client.topics
    {
      Client.BeforeResyncSubset(s.client, i);
    }
  }

  /**
   * End to end, with nothing queued on an open, resynced socket: the venue serves every wanted
   * topic that was not exposed, and nothing but wanted topics and rolled-back leftovers.
   */
  lemma WireFollowsDemand(s: HubState)
    requires Reachable(s)
    requires s.client.open && s.client.phase == Client.Streaming && s.client.waiters == []
    ensures forall t | Wanted(s.registry, t) && t !in s.exposed :: t in s.client.wire
    ensures forall t | t in s.client.wire :: Wanted(s.registry, t) || t in s.failed
    ensures s.failed == {} && s.exposed == {} ==> s.client.wire == HeldTopics(s.registry)
  {
    ReachableHolds(s);
    WireAgreement(s);
    assert forall i, c :: !WaitsAt(s.client.waiters, i, c);
    assert forall c | c in s.tasks :: s.tasks[c] == Receiving;
    HeldIffWanted(s.registry);
  }

  // --------------------------------------------------- demand and the suspended cleanup

  ghost predicate WantedThroughout(s: HubState, run: seq<Label>, t: Topic) {
    && Exec(s, run).Some?
    && Wanted(Exec(s, run).value.registry, t)
    && (run == [] || WantedThroughout(s, run[..|run| - 1], t))
  }

  lemma UnregisteredLists(s: HubState, c: ConsumerId)
    requires c in s.tasks && s.tasks[c] == Receiving
    ensures forall t | Listed(Unregistered(s, c), t) :: Listed(s, t) || !Wanted(Unregistered(s, c).registry, t)
  {
    var r := Unregistered(s, c);
    forall t | Listed(r, t) ensures Listed(s, t) || !Wanted(r.registry, t) {
      var d :| d in r.tasks && WillDiscard(r.tasks[d], t);
      if d == c {
        CountPositive(r.registry, t);
      } else {
        assert d in s.tasks && WillDiscard(s.tasks[d], t);
      }
    }
  }

  lemma {:induction false} SkipCountedIsSuffix(topics: seq<Topic>, final: map<Topic, nat>)
    ensures var todo := SkipCounted(topics, final);
      && |todo| <= |topics| && todo == topics[|topics| - |todo|..]
      && forall i | 0 <= i < |topics| - |todo| :: CountOf(final, topics[i]) != 0
  {
    if topics != [] && CountOf(final, topics[0]) != 0 {
      SkipCountedIsSuffix(topics[1..], final);
    }
  }

  lemma LeftHasPredecessor(topics: seq<Topic>, final: map<Topic, nat>, t: Topic)
    requires Ascending(topics) && SkipCounted(topics, final) != [] && t in SkipCounted(topics, final)[1..]
    ensures t in topics
    ensures exists u :: u in topics && CountOf(final, u) == 0 && u != t && Le(u, t)
  {
    var todo := SkipCounted(topics, final);
    SkipCountedIsSuffix(topics, final);
    SkipCountedFinds(topics, final);
    SuffixAscends(topics, todo, t);
    assert todo[0] in topics && CountOf(final, todo[0]) == 0 && todo[0] != t && Le(todo[0], t);
  }

  lemma SuffixAscends(topics: seq<Topic>, todo: seq<Topic>, t: Topic)
    requires Ascending(topics) && 0 < |todo| <= |topics| && todo == topics[|topics| - |todo|..] && t in todo[1..]
    ensures todo[0] in topics && t in topics && todo[0] != t && Le(todo[0], t)
  {
    var n := |topics| - |todo|;
    var i :| 0 <= i < |todo| - 1 && todo[1..][i] == t;
    assert topics[n] == todo[0] && topics[n + i + 1] == t;
  }

  lemma PredecessorMeansLeft(topics: seq<Topic>, final: map<Topic, nat>, t: Topic, u: Topic)
    requires Ascending(topics) && SkipCounted(topics, final) != []
    requires t in topics && u in topics && CountOf(final, t) == 0 && CountOf(final, u) == 0 && u != t && Le(u, t)
    ensures t in SkipCounted(topics, final)[1..]
  {
    var todo := SkipCounted(topics, final);
    var n := |topics| - |todo|;
    SkipCountedIsSuffix(topics, final);
    var i, j :| 0 <= i < |topics| && topics[i] == u && 0 <= j < |topics| && topics[j] == t;
    assert n <= i && n <= j;
    if j < i { TextLeAntisymmetric(t.text, u.text); NamesEqual(t, u); }
    assert todo[1..][j - n - 1] == t;
  }

  /** In an ascending list, what is left after the first uncounted topic is what follows it. */
  lemma LeftAfterFirst(topics: seq<Topic>, final: map<Topic, nat>, t: Topic)
    requires Ascending(topics) && SkipCounted(topics, final) != []
    ensures t in SkipCounted(topics, final)[1..] && CountOf(final, t) == 0 <==>
      t in topics && CountOf(final, t) == 0 && exists u :: u in topics && CountOf(final, u) == 0 && u != t && Le(u, t)
  {
    if t in SkipCounted(topics, final)[1..] {
      LeftHasPredecessor(topics, final, t);
    }
    if u :| u in topics && CountOf(final, u) == 0 && u != t && Le(u, t) && t in topics && CountOf(final, t) == 0 {
      PredecessorMeansLeft(topics, final, t, u);
    }
  }

  lemma NamesEqual(a: Name, b: Name)
    requires a.text == b.text
    ensures a == b
  {
  }

  /** `_topics` loses only listed topics, and no topic becomes listed. */
  ghost predicate OnlyDiscards(s: HubState, r: HubState) {
    && r.client.topics <= s.client.topics
    && (forall t | t in s.client.topics && t !in r.client.topics :: Listed(s, t))
    && (forall t | Listed(r, t) :: Listed(s, t))
  }

  lemma SameTasksDiscard(s: HubState, r: HubState)
    requires r.tasks == s.tasks && r.client.topics == s.client.topics
    ensures OnlyDiscards(s, r)
    ensures forall t :: Listed(s, t) <==> Listed(r, t)
  {
    forall t ensures Listed(s, t) <==> Listed(r, t) {
      if Listed(s, t) {
        var d :| d in s.tasks && WillDiscard(s.tasks[d], t);
        assert d in r.tasks && WillDiscard(r.tasks[d], t);
      }
      if Listed(r, t) {
        var d :| d in r.tasks && WillDiscard(r.tasks[d], t);
        assert d in s.tasks && WillDiscard(s.tasks[d], t);
      }
    }
  }

  lemma ResumeDiscards(s: HubState, c: ConsumerId, raised: bool)
    requires c in s.tasks
    ensures OnlyDiscards(s, Resume(s, Client.Handler(c), raised))
  {
    if s.tasks[c].Cleaning? {
      ContinueCleanupLists(s, c, s.tasks[c].rest, s.tasks[c].final);
    } else {
      SameListed(s, Resume(s, Client.Handler(c), raised), c);
    }
  }

  /** The state between the head's leaving the queue and its task's going on. */
  function Retired(s: HubState, delivered: bool, raised: bool): HubState
    requires s.client.waiters != [] && s.client.waiters[0].Send?
  {
    s.(client := Client.Retire(if delivered then Client.Deliver(s.client) else s.client, raised))
  }

  lemma RetiredShape(s: HubState, delivered: bool, raised: bool)
    requires s.client.waiters != [] && s.client.waiters[0].Send?
    ensures var m := Retired(s, delivered, raised);
      && m.client.topics == s.client.topics && s.client.waiters[1..] <= m.client.waiters
      && Finish(s, delivered, raised) == Resume(m, s.client.waiters[0].owner, raised)
  {
  }

  lemma FinishDiscards(s: HubState, delivered: bool, raised: bool)
    requires s.client.waiters != [] && s.client.waiters[0].Send?
    ensures OnlyDiscards(s, Finish(s, delivered, raised))
  {
    var owner, m := s.client.waiters[0].owner, Retired(s, delivered, raised);
    RetiredShape(s, delivered, raised);
    SameTasksDiscard(s, m);
    if owner.Handler? && owner.consumer in m.tasks {
      ResumeDiscards(m, owner.consumer, raised);
    }
  }

  /** Some waiters may have been added at the end, nobody but `c` has another task, the registry stays. */
  ghost predicate OnlyMoves(s: HubState, r: HubState, c: ConsumerId) {
    && (forall d | d != c && d in s.tasks :: d in r.tasks && r.tasks[d] == s.tasks[d])
    && s.client.waiters <= r.client.waiters
  }

  lemma ContinueCleanupMoves(s: HubState, c: ConsumerId, topics: seq<Topic>, final: map<Topic, nat>)
    ensures OnlyMoves(s, ContinueCleanup(s, c, topics, final), c)
    ensures ContinueCleanup(s, c, topics, final).registry == s.registry
  {
    if SkipCounted(topics, final) != [] {
    }
  }

  /** A handler that goes on rolls back only on an error. */
  lemma ResumeMoves(s: HubState, c: ConsumerId, raised: bool)
    requires c in s.tasks
    ensures OnlyMoves(s, Resume(s, Client.Handler(c), raised), c)
    ensures !raised ==> Resume(s, Client.Handler(c), raised).registry == s.registry
  {
    match s.tasks[c] {
      case Cleaning(rest, final) => ContinueCleanupMoves(s, c, rest, final);
      case _ =>
    }
  }

  /** The head will not leave in this turn: it is about to begin its send. */
  predicate Begins(k: Client.ClientState) {
    k.waiters != [] && k.waiters[0].Send? && !k.sending && k.attached && k.open
  }

  /** Every turn of the lock, whoever is at the head. */
  lemma TurnDiscards(s: HubState, result: SendResult)
    requires Enabled(s, LockTurn(result))
    ensures OnlyDiscards(s, OnLockTurn(s, result))
  {
    if s.client.waiters[0].Send? && !Begins(s.client) {
      TurnFinishes(s, result);
      FinishDiscards(s, s.client.sending && result == Sent, s.client.sending && result == Raised);
    } else {
      SetWsShape(s, result);
      SameTasksDiscard(s, OnLockTurn(s, result));
    }
  }

  lemma FinishShape(s: HubState, delivered: bool, raised: bool)
    requires s.client.waiters != [] && s.client.waiters[0].Send?
    ensures var q, r := s.client.waiters, Finish(s, delivered, raised);
      && (forall d | d in s.tasks && !WaitsAt(q, 0, d) :: d in r.tasks && r.tasks[d] == s.tasks[d])
      && q[1..] <= r.client.waiters
      && (!raised ==> r.registry == s.registry)
  {
    var owner, m := s.client.waiters[0].owner, Retired(s, delivered, raised);
    RetiredShape(s, delivered, raised);
    if owner.Handler? && owner.consumer in m.tasks {
      ResumeMoves(m, owner.consumer, raised);
    }
  }

  /** What a turn in which the head leaves the queue is. */
  lemma TurnFinishes(s: HubState, result: SendResult)
    requires Enabled(s, LockTurn(result)) && s.client.waiters[0].Send? && !Begins(s.client)
    ensures OnLockTurn(s, result) == Finish(s, s.client.sending && result == Sent, s.client.sending && result == Raised)
  {
  }

  lemma SetWsShape(s: HubState, result: SendResult)
    requires s.client.waiters != [] && (s.client.waiters[0].SetWs? || Begins(s.client))
    ensures var r := OnLockTurn(s, result);
      && r == s.(client := r.client) && r.client.topics == s.client.topics
      && (if Begins(s.client) then r.client == Client.BeginSend(s.client)
          else s.client.waiters[1..] <= r.client.waiters)
  {
    if Begins(s.client) {
    } else if s.client.waiters[0].connected {
      assert OnLockTurn(s, result) == s.(client := Client.Attach(s.client));
    } else {
      assert OnLockTurn(s, result) == s.(client := Client.Detach(s.client));
    }
  }

  lemma TurnShape(s: HubState, result: SendResult)
    requires Enabled(s, LockTurn(result))
    ensures var q, r := s.client.waiters, OnLockTurn(s, result);
      && (forall d | d in s.tasks && (Begins(s.client) || !WaitsAt(q, 0, d)) ::
            d in r.tasks && r.tasks[d] == s.tasks[d])
      && (if Begins(s.client) then r.client == Client.BeginSend(s.client) else q[1..] <= r.client.waiters)
      && (result != Raised ==> r.registry == s.registry)
  {
    if s.client.waiters[0].Send? && !Begins(s.client) {
      TurnFinishes(s, result);
      FinishShape(s, s.client.sending && result == Sent, s.client.sending && result == Raised);
    } else {
      SetWsShape(s, result);
    }
  }

  lemma CleanupDiscards(s: HubState, c: ConsumerId, t: Topic)
    requires c in s.tasks && s.tasks[c] == Receiving && Wanted(Cleanup(s, c).registry, t)
    requires t in s.client.topics && !Listed(s, t)
    ensures t in Cleanup(s, c).client.topics && !Listed(Cleanup(s, c), t)
  {
    var topics, final := Sorted(TopicsOf(s.registry, c)), Counts(s.registry - {c});
    UnregisteredLists(s, c);
    ContinueCleanupLists(Unregistered(s, c), c, topics, final);
    ContinueCleanupMoves(Unregistered(s, c), c, topics, final);
  }

  lemma HandlerStepServes(s: HubState, l: Label, t: Topic)
    requires Enabled(s, l) && Wanted(Next(s, l).registry, t)
    requires l.Connect? || l.Subscribe? || l.Unsubscribe? || l.Disconnect?
    requires t in s.client.topics && !Listed(s, t)
    ensures t in Next(s, l).client.topics && !Listed(Next(s, l), t)
  {
    match l {
      case Connect(c) => SameListed(s, OnConnect(s, c), c);
      case Subscribe(c, u) => SameListed(s, OnSubscribe(s, c, u), c);
      case Unsubscribe(c, u) => SameListed(s, OnUnsubscribe(s, c, u), c);
      case Disconnect(c) => if c in s.broken { SameListed(s, Abandon(s, c), c); } else { CleanupDiscards(s, c, t); }
    }
  }

  lemma StepServes(s: HubState, l: Label, t: Topic)
    requires Enabled(s, l) && Wanted(Next(s, l).registry, t)
    requires t in s.client.topics && !Listed(s, t)
    ensures t in Next(s, l).client.topics && !Listed(Next(s, l), t)
  {
    if l.Connect? || l.Subscribe? || l.Unsubscribe? || l.Disconnect? {
      HandlerStepServes(s, l, t);
    } else if l.LockTurn? {
      TurnDiscards(s, l.result);
    } else {
      SameTasksDiscard(s, Next(s, l));
    }
  }

  /** A topic in `_topics` that no suspended cleanup lists stays there as long as it is wanted. */
  lemma {:induction false} ServedWhileWanted(s: HubState, run: seq<Label>, t: Topic)
    requires t in s.client.topics && !Listed(s, t)
    requires WantedThroughout(s, run, t)
    ensures var r := Exec(s, run).value; t in r.client.topics && !Listed(r, t)
  {
    if run != [] {
      ServedWhileWanted(s, run[..|run| - 1], t);
      StepServes(Exec(s, run[..|run| - 1]).value, run[|run| - 1], t);
    }
  }

  lemma StepStaysLost(s: HubState, l: Label, t: Topic)
    requires Enabled(s, l) && Wanted(s.registry, t) && t !in s.client.topics
    ensures t !in Next(s, l).client.topics
  {
    match l {
      case LockTurn(result) => TurnDiscards(s, result);
      case _ =>
    }
  }

  /** A wanted topic that has been lost stays lost until nobody wants it any more. */
  lemma {:induction false} LostWhileWanted(s: HubState, run: seq<Label>, t: Topic)
    requires t !in s.client.topics && WantedThroughout(s, run, t)
    ensures t !in Exec(s, run).value.client.topics
  {
    if run != [] {
      LostWhileWanted(s, run[..|run| - 1], t);
      StepStaysLost(Exec(s, run[..|run| - 1]).value, run[|run| - 1], t);
    }
  }

  lemma {:induction false} RunFrom(s: HubState, l: Label, run: seq<Label>, t: Topic)
    requires Enabled(s, l)
    ensures Exec(s, [l] + run) == Exec(Next(s, l), run)
    ensures Wanted(s.registry, t) && WantedThroughout(Next(s, l), run, t) ==> WantedThroughout(s, [l] + run, t)
  {
    var whole := [l] + run;
    if run == [] {
      assert whole[..0] == [] && whole == [l];
      assert Exec(s, []) == Some(s) && Exec(s, whole[..|whole| - 1]) == Some(s);
    } else {
      var front := run[..|run| - 1];
      assert whole[..|whole| - 1] == [l] + front;
      RunFrom(s, l, front, t);
    }
  }

  /** The turn of the lock in which no send fails with an exception. */
  function QuietResult(s: HubState): SendResult {
    if s.client.open then Sent else Swallowed
  }

  /** A quiet turn brings every waiter behind the head one place forward and leaves its task alone. */
  lemma QuietTurn(s: HubState, c: ConsumerId, i: int)
    requires Control(s, None) && WaitsAt(s.client.waiters, i, c)
    ensures Enabled(s, LockTurn(QuietResult(s)))
    ensures Next(s, LockTurn(QuietResult(s))).registry == s.registry
    ensures c in s.tasks && (Begins(s.client) || i > 0) ==>
      var r := Next(s, LockTurn(QuietResult(s)));
      && c in r.tasks && r.tasks[c] == s.tasks[c]
      && WaitsAt(r.client.waiters, if Begins(s.client) then i else i - 1, c)
  {
    var q, r := s.client.waiters, Next(s, LockTurn(QuietResult(s)));
    TurnShape(s, QuietResult(s));
    if !Begins(s.client) && i > 0 {
      assert q[0].Send? && q[0].owner == Client.Handler(c) ==> WaitsAt(q, 0, c);
      assert r.client.waiters[i - 1] == q[1..][i - 1];
    }
  }

  /** When its turn comes, a suspended cleanup discards the first topic it still lists. */
  lemma CleanupTurn(s: HubState, c: ConsumerId)
    requires Control(s, None) && WaitsAt(s.client.waiters, 0, c) && !Begins(s.client)
    requires c in s.tasks && s.tasks[c].Cleaning? && SkipCounted(s.tasks[c].rest, s.tasks[c].final) != []
    ensures var r, todo := Next(s, LockTurn(QuietResult(s))), SkipCounted(s.tasks[c].rest, s.tasks[c].final);
      && todo[0] !in r.client.topics
      && c in r.tasks && r.tasks[c] == Cleaning(todo[1..], s.tasks[c].final)
  {
    var delivered := s.client.sending && QuietResult(s) == Sent;
    TurnFinishes(s, QuietResult(s));
    RetiredShape(s, delivered, false);
    assert Next(s, LockTurn(QuietResult(s))) ==
      ContinueCleanup(Retired(s, delivered, false), c, s.tasks[c].rest, s.tasks[c].final);
  }

  /** What is left of a cleanup after its turn, when the discarded topic was not the one in question. */
  lemma CleanupGoesOn(s: HubState, c: ConsumerId, t: Topic) returns (j: int)
    requires Control(s, None) && WaitsAt(s.client.waiters, 0, c) && !Begins(s.client)
    requires c in s.tasks && WillDiscard(s.tasks[c], t)
    ensures var r := Next(s, LockTurn(QuietResult(s)));
      t !in r.client.topics ||
      (c in r.tasks && WillDiscard(r.tasks[c], t) && |r.tasks[c].rest| < |s.tasks[c].rest|
       && WaitsAt(r.client.waiters, j, c))
  {
    j := 0;
    var r, todo := Next(s, LockTurn(QuietResult(s))), SkipCounted(s.tasks[c].rest, s.tasks[c].final);
    SkipCountedFinds(s.tasks[c].rest, s.tasks[c].final);
    CleanupTurn(s, c);
    if todo[0] != t {
      assert todo == [todo[0]] + todo[1..];
      NextKeeps(s, LockTurn(QuietResult(s)));
      j := PlaceOf(r, c);
    }
  }

  lemma PlaceOf(s: HubState, c: ConsumerId) returns (i: int)
    requires Control(s, None) && c in s.tasks && s.tasks[c] != Receiving
    ensures WaitsAt(s.client.waiters, i, c)
  {
    i :| WaitsAt(s.client.waiters, i, c);
  }

  /** A quiet turn discards the topic or brings the cleanup that lists it closer to doing so. */
  lemma CleanupComesCloser(s: HubState, c: ConsumerId, i: int, t: Topic) returns (j: int)
    requires Control(s, None) && c in s.tasks && WillDiscard(s.tasks[c], t) && WaitsAt(s.client.waiters, i, c)
    ensures var r := Next(s, LockTurn(QuietResult(s)));
      t !in r.client.topics ||
      (c in r.tasks && WillDiscard(r.tasks[c], t) && WaitsAt(r.client.waiters, j, c)
       && (|r.tasks[c].rest| < |s.tasks[c].rest|
           || (r.tasks[c] == s.tasks[c] && (0 <= j < i || (j == i && !s.client.sending && r.client.sending)))))
  {
    QuietTurn(s, c, i);
    if Begins(s.client) {
      TurnShape(s, QuietResult(s));
      j := i;
    } else if i > 0 {
      j := i - 1;
    } else {
      j := CleanupGoesOn(s, c, t);
    }
  }

  /** Letting the lock turn, a suspended cleanup reaches and discards each topic it lists. */
  lemma {:induction false} CleanupReaches(s: HubState, c: ConsumerId, i: int, t: Topic) returns (run: seq<Label>)
    requires Control(s, None) && Wanted(s.registry, t)
    requires c in s.tasks && WillDiscard(s.tasks[c], t) && WaitsAt(s.client.waiters, i, c)
    ensures WantedThroughout(s, run, t) && t !in Exec(s, run).value.client.topics
    decreases |s.tasks[c].rest|, i, if s.client.sending then 0 else 1
  {
    var l := LockTurn(QuietResult(s));
    QuietTurn(s, c, i);
    NextKeeps(s, l);
    var r := Next(s, l);
    var j := CleanupComesCloser(s, c, i, t);
    if t in r.client.topics {
      run := CleanupReaches(r, c, j, t);
    } else {
      run := [];
    }
    RunFrom(s, l, run, t);
    run := [l] + run;
  }

  ghost predicate CanBeLost(s: HubState, t: Topic) {
    exists run :: WantedThroughout(s, run, t) && t !in Exec(s, run).value.client.topics
  }

  /**
   * Exactly when demand is at risk: a wanted topic in `_topics` can be lost while it stays wanted
   * if and only if some suspended cleanup still lists it.
   */
  lemma LostIffListed(s: HubState, t: Topic)
    requires Reachable(s) && Wanted(s.registry, t) && t in s.client.topics
    ensures CanBeLost(s, t) <==> Listed(s, t)
  {
    ReachableHolds(s);
    if Listed(s, t) {
      var c :| c in s.tasks && WillDiscard(s.tasks[c], t);
      var i :| WaitsAt(s.client.waiters, i, c);
      var run := CleanupReaches(s, c, i, t);
    } else {
      forall run | WantedThroughout(s, run, t) ensures t in Exec(s, run).value.client.topics {
        ServedWhileWanted(s, run, t);
      }
    }
  }

  // ---------------------------------------------------------- what a disconnect exposes

  /** What the cleanup still lists when it asks for the lock for the first time. */
  lemma CleanupLists(s: HubState, c: ConsumerId, t: Topic, r: HubState)
    requires r == Cleanup(s, c)
    ensures c in r.tasks && WillDiscard(r.tasks[c], t) <==>
      && t in TopicsOf(s.registry, c) && !Wanted(r.registry, t)
      && exists u :: u in TopicsOf(s.registry, c) && !Wanted(r.registry, u) && u != t && Le(u, t)
  {
    var topics, final := Sorted(TopicsOf(s.registry, c)), Counts(s.registry - {c});
    SortedIsSorted(TopicsOf(s.registry, c));
    ContinueCleanupMoves(Unregistered(s, c), c, topics, final);
    assert r.registry == s.registry - {c};
    forall u ensures CountOf(final, u) == 0 <==> !Wanted(r.registry, u) {
      CountPositive(r.registry, u);
    }
    if SkipCounted(topics, final) != [] {
      LeftAfterFirst(topics, final, t);
    } else {
      SkipCountedIsSuffix(topics, final);
      assert forall u | u in topics :: CountOf(final, u) != 0;
    }
  }

  /** A task that asks for the lock suspends: somebody is before it, or it has a socket to send on. */
  predicate Suspends(k: Client.ClientState) {
    k.waiters != [] || (k.attached && k.open)
  }

  lemma UnsubscribeWaits(k: Client.ClientState, t: Topic, c: ConsumerId, r: Client.ClientState)
    requires r == Client.UnsubscribeTopic(k, t, c)
    ensures r == k.(topics := r.topics, waiters := r.waiters, running := k.waiters == [])
    ensures k.waiters == [] ==> |r.waiters| == 1 && WaitsAt(r.waiters, 0, c)
  {
  }

  /** A cleanup asks for the lock, unless it has ended; with nobody there it has it at once. */
  lemma CleanupWaits(s: HubState, c: ConsumerId, topics: seq<Topic>, final: map<Topic, nat>, r: HubState)
    requires !s.client.running && r == ContinueCleanup(s, c, topics, final)
    ensures r.registry == s.registry && r.client.attached == s.client.attached && r.client.open == s.client.open
    ensures r.client.sending == s.client.sending
    ensures c in r.tasks ==> r.tasks[c].Cleaning? && |r.tasks[c].rest| < |topics|
    ensures r.client.running <==> c in r.tasks && s.client.waiters == []
    ensures r.client.running ==> |r.client.waiters| == 1 && WaitsAt(r.client.waiters, 0, c)
  {
    SkipCountedIsSuffix(topics, final);
    var todo := SkipCounted(topics, final);
    if todo != [] {
      UnsubscribeWaits(s.client, todo[0], c, r.client);
    }
  }

  lemma CleanupTurns(s: HubState, c: ConsumerId)
    requires s.client.running && |s.client.waiters| == 1 && !s.client.sending && WaitsAt(s.client.waiters, 0, c)
    requires c in s.tasks && s.tasks[c].Cleaning? && !(s.client.attached && s.client.open)
    ensures OnLockTurn(s, Swallowed) ==
      ContinueCleanup(Retired(s, false, false), c, s.tasks[c].rest, s.tasks[c].final)
  {
    RetiredShape(s, false, false);
  }

  /** With nothing to wait for, the loop of a cleanup goes through to its end. */
  lemma {:induction false} CleanupEnds(s: HubState, c: ConsumerId)
    requires s.client.running && |s.client.waiters| == 1 && !s.client.sending && WaitsAt(s.client.waiters, 0, c)
    requires c in s.tasks && s.tasks[c].Cleaning? && !(s.client.attached && s.client.open)
    ensures c !in Settle(s).tasks && Settle(s).registry == s.registry
    decreases |s.tasks[c].rest|
  {
    CleanupTurns(s, c);
    var m := Retired(s, false, false);
    assert m.client.waiters == [];
    var r := OnLockTurn(s, Swallowed);
    CleanupWaits(m, c, s.tasks[c].rest, s.tasks[c].final, r);
    if r.client.running {
      CleanupEnds(r, c);
    }
  }

  lemma BeginsAndSettles(s: HubState)
    requires s.client.running && Alone(s.client) && Begins(s.client)
    ensures Settle(s) == s.(client := Client.BeginSend(s.client))
  {
    assert OnLockTurn(s, Swallowed) == s.(client := Client.BeginSend(s.client));
  }

  /** Where a disconnect that runs its cleanup suspends. */
  lemma CleanupSettles(s: HubState, c: ConsumerId)
    requires !s.client.running && (s.client.sending ==> s.client.waiters != [])
    ensures var m := Cleanup(s, c);
      && Alone(m.client) && Settle(m).registry == m.registry
      && if Suspends(s.client) then Settle(m).tasks == m.tasks else c !in Settle(m).tasks
  {
    var m := Cleanup(s, c);
    CleanupWaits(Unregistered(s, c), c, Sorted(TopicsOf(s.registry, c)), Counts(s.registry - {c}), m);
    if m.client.running {
      if Begins(m.client) {
        BeginsAndSettles(m);
      } else {
        CleanupEnds(m, c);
      }
    }
  }

  /**
   * Which topics a disconnect puts at risk. If its cleanup suspends at all, because others wait for
   * the lock or there is an open socket, then those the consumer was the last to hold, except the
   * first of them, which is discarded before that. Otherwise none.
   */
  lemma DisconnectExposes(s: HubState, c: ConsumerId, t: Topic, r: HubState)
    requires Reachable(s) && Enabled(s, Disconnect(c)) && c !in s.broken
    requires r == Settle(Next(s, Disconnect(c)))
    ensures !r.client.running && r.registry == s.registry - {c}
    ensures c in r.tasks && WillDiscard(r.tasks[c], t) <==>
      && Suspends(s.client)
      && t in TopicsOf(s.registry, c) && !Wanted(r.registry, t)
      && exists u :: u in TopicsOf(s.registry, c) && !Wanted(r.registry, u) && u != t && Le(u, t)
  {
    ReachableHolds(s);
    CleanupSettles(s, c);
    CleanupLists(s, c, t, Cleanup(s, c));
    ContinueCleanupMoves(Unregistered(s, c), c, Sorted(TopicsOf(s.registry, c)), Counts(s.registry - {c}));
  }
}
