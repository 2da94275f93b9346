/** How waiting ends: no handler starves, the lock runs out of turns, and the hub can always come to rest. */
module HubQuiesce {
  import opened Names
  import opened Registry
  import Broker
  import Client
  import opened Hub
  import opened HubInvariant
  import opened HubRuns
  import opened HubRollback

  lemma ExecStep(s: HubState, run: seq<Label>, m: HubState, l: Label)
    requires Exec(s, run) == Some(m) && Enabled(m, l)
    ensures Exec(s, run + [l]) == Some(Next(m, l))
  {
    assert (run + [l])[..|run|] == run;
  }

  lemma {:induction false} ExecConcat(s: HubState, a: seq<Label>, m: HubState, b: seq<Label>)
    requires Exec(s, a) == Some(m)
    ensures Exec(s, a + b) == Exec(m, b)
  {
    if b == [] {
      assert a + b == a;
    } else {
      assert (a + b)[..|a + b| - 1] == a + b[..|b| - 1];
      ExecConcat(s, a, m, b[..|b| - 1]);
    }
  }

  // ------------------------------------------------------------ the lock runs out of turns

  /** How many waiters, itself included, a waiter can still cause. */
  function Weight(tasks: map<ConsumerId, Task>, w: Client.Waiter): nat {
    match w
    case SetWs(connected) => if connected then 3 else 1
    case Send(_, Runner) => 2
    case Send(_, Handler(c)) => if c in tasks && tasks[c].Cleaning? then 1 + |tasks[c].rest| else 1
  }

  function Work(tasks: map<ConsumerId, Task>, q: seq<Client.Waiter>): nat {
    if q == [] then 0 else Work(tasks, q[..|q| - 1]) + Weight(tasks, q[|q| - 1])
  }

  lemma {:induction false} WorkHead(tasks: map<ConsumerId, Task>, q: seq<Client.Waiter>)
    requires q != []
    ensures Work(tasks, q) == Weight(tasks, q[0]) + Work(tasks, q[1..])
  {
    if |q| == 1 {
      assert q[..0] == [] && q[1..] == [];
    } else {
      WorkHead(tasks, q[..|q| - 1]);
      assert q[1..][..|q| - 2] == q[..|q| - 1][1..];
    }
  }

  lemma WorkAppend(tasks: map<ConsumerId, Task>, q: seq<Client.Waiter>, w: Client.Waiter)
    ensures Work(tasks, q + [w]) == Work(tasks, q) + Weight(tasks, w)
  {
    assert (q + [w])[..|q|] == q;
  }

  lemma {:induction false} WorkFrame(tasks: map<ConsumerId, Task>, now: map<ConsumerId, Task>, q: seq<Client.Waiter>)
    requires forall i, c | WaitsAt(q, i, c) :: (c in tasks <==> c in now) && (c in tasks ==> tasks[c] == now[c])
    ensures Work(now, q) == Work(tasks, q)
  {
    if q != [] {
      var n := |q| - 1;
      assert forall i, c | WaitsAt(q[..n], i, c) :: WaitsAt(q, i, c);
      WorkFrame(tasks, now, q[..n]);
      match q[n] {
        case Send(_, Handler(c)) => assert WaitsAt(q, n, c);
        case _ =>
      }
    }
  }

  /** Cleanups only go on or end; no task starts one in a turn of the lock. */
  ghost predicate CleanupsStay(s: HubState, r: HubState) {
    forall d | d in r.tasks :: d in s.tasks && r.tasks[d].Cleaning? == s.tasks[d].Cleaning?
  }

  /** A handler that goes on queues less work than it had. */
  lemma ResumeLightens(s: HubState, c: ConsumerId, raised: bool)
    requires c in s.tasks && s.tasks[c] != Receiving
    requires forall i :: !WaitsAt(s.client.waiters, i, c)
    ensures var r, turn := Resume(s, Client.Handler(c), raised), Client.Send(Client.Frame(true, []), Client.Handler(c));
      && CleanupsStay(s, r)
      && Work(r.tasks, r.client.waiters) < Work(s.tasks, s.client.waiters) + Weight(s.tasks, turn)
  {
    match s.tasks[c] {
      case Cleaning(rest, final) => ContinueLightens(s, c, rest, final);
      case _ => WorkFrame(s.tasks, s.tasks[c := Receiving], s.client.waiters);
    }
  }

  lemma ContinueLightens(s: HubState, c: ConsumerId, rest: seq<Topic>, final: map<Topic, nat>)
    requires c in s.tasks && s.tasks[c] == Cleaning(rest, final)
    requires forall i :: !WaitsAt(s.client.waiters, i, c)
    ensures var r := ContinueCleanup(s, c, rest, final);
      CleanupsStay(s, r) && Work(r.tasks, r.client.waiters) <= Work(s.tasks, s.client.waiters) + |rest|
  {
    var q, todo := s.client.waiters, SkipCounted(rest, final);
    SkipCountedFinds(rest, final);
    if todo == [] {
      WorkFrame(s.tasks, s.tasks - {c}, q);
    } else {
      var now := s.tasks[c := Cleaning(todo[1..], final)];
      WorkFrame(s.tasks, now, q);
      WorkAppend(now, q, Client.Send(Client.Frame(false, [todo[0]]), Client.Handler(c)));
    }
  }

  lemma RunnerLightens(s: HubState, delivered: bool, raised: bool)
    requires s.client.waiters != [] && s.client.waiters[0].Send? && s.client.waiters[0].owner.Runner?
    ensures var r := Finish(s, delivered, raised);
      CleanupsStay(s, r) && Work(r.tasks, r.client.waiters) < Work(s.tasks, s.client.waiters)
  {
    var q, m := s.client.waiters, Retired(s, delivered, raised);
    RetiredShape(s, delivered, raised);
    WorkHead(s.tasks, q);
    if raised {
      assert m.client.waiters == q[1..] + [Client.SetWs(false)];
      WorkAppend(s.tasks, q[1..], Client.SetWs(false));
    }
  }

  lemma HandlerLightens(s: HubState, delivered: bool, raised: bool)
    requires Control(s, None) && s.client.waiters != [] && Client.FromHandler(s.client.waiters[0])
    ensures var r := Finish(s, delivered, raised);
      CleanupsStay(s, r) && Work(r.tasks, r.client.waiters) < Work(s.tasks, s.client.waiters)
  {
    var q, c, m := s.client.waiters, s.client.waiters[0].owner.consumer, Retired(s, delivered, raised);
    RetiredShape(s, delivered, raised);
    WorkHead(s.tasks, q);
    assert m.client.waiters == q[1..];
    assert WaitsAt(q, 0, c);
    forall i ensures !WaitsAt(q[1..], i, c) {
      assert WaitsAt(q[1..], i, c) ==> WaitsAt(q, i + 1, c);
    }
    ResumeLightens(m, c, raised);
  }

  lemma SetWsQueue(k: Client.ClientState)
    requires k.waiters != []
    ensures Client.Detach(k).waiters == k.waiters[1..]
    ensures Client.Attach(k).waiters == k.waiters[1..] +
      if k.topics == {} then [] else [Client.Send(Client.Frame(true, Sorted(k.topics)), Client.Runner)]
  {
  }

  lemma SetWsLightens(s: HubState, result: SendResult)
    requires s.client.waiters != [] && s.client.waiters[0].SetWs?
    ensures var r := OnLockTurn(s, result);
      r.tasks == s.tasks && Work(s.tasks, r.client.waiters) < Work(s.tasks, s.client.waiters)
  {
    var k := s.client;
    WorkHead(s.tasks, k.waiters);
    SetWsQueue(k);
    if !k.waiters[0].connected {
      assert OnLockTurn(s, result) == s.(client := Client.Detach(k));
    } else {
      assert OnLockTurn(s, result) == s.(client := Client.Attach(k));
      if k.topics == {} {
        assert k.waiters[1..] + [] == k.waiters[1..];
      } else {
        WorkAppend(s.tasks, k.waiters[1..], Client.Send(Client.Frame(true, Sorted(k.topics)), Client.Runner));
      }
    }
  }

  /** Every turn of the lock, whatever a send comes to, brings the queue closer to empty. */
  lemma TurnLightens(s: HubState, result: SendResult)
    requires Control(s, None) && Enabled(s, LockTurn(result))
    ensures var r := OnLockTurn(s, result);
      && CleanupsStay(s, r)
      && (if Begins(s.client) then r.client.waiters == s.client.waiters && r.tasks == s.tasks && r.client.sending
          else Work(r.tasks, r.client.waiters) < Work(s.tasks, s.client.waiters))
  {
    var delivered, raised := s.client.sending && result == Sent, s.client.sending && result == Raised;
    if s.client.waiters[0].SetWs? || Begins(s.client) {
      SetWsShape(s, result);
      if s.client.waiters[0].SetWs? { SetWsLightens(s, result); }
    } else {
      TurnFinishes(s, result);
      if s.client.waiters[0].owner.Runner? {
        RunnerLightens(s, delivered, raised);
      } else {
        HandlerLightens(s, delivered, raised);
      }
    }
  }

  /** An upper bound for the turns the lock can still make without a new request for it. */
  function Potential(s: HubState): nat {
    2 * Work(s.tasks, s.client.waiters) + if s.client.sending then 0 else 1
  }

  lemma TurnSpends(s: HubState, result: SendResult)
    requires Control(s, None) && Enabled(s, LockTurn(result))
    ensures Potential(OnLockTurn(s, result)) < Potential(s)
  {
    TurnLightens(s, result);
  }

  function Turns(run: seq<Label>): nat {
    if run == [] then 0 else Turns(run[..|run| - 1]) + if run[|run| - 1].LockTurn? then 1 else 0
  }

  /** A step in which no task asks for `_ws_lock`, other than one whose turn it is. */
  predicate NoRequest(l: Label) {
    l.LockTurn? || l.Connect? || l.UpstreamCloses? || l.Dispatch?
    || l.PumpStarts? || l.PumpReads? || l.PumpDelivers? || l.PumpFails?
  }

  lemma StepSpends(s: HubState, l: Label)
    requires Control(s, None) && Enabled(s, l) && NoRequest(l)
    ensures Potential(Next(s, l)) + (if l.LockTurn? then 1 else 0) <= Potential(s)
  {
    match l {
      case LockTurn(result) => TurnSpends(s, result);
      case Connect(c) => ConnectWeighsNothing(s, c);
      case _ =>
    }
  }

  lemma ConnectWeighsNothing(s: HubState, c: ConsumerId)
    requires Waiting(s, None) && c !in s.tasks
    ensures Potential(OnConnect(s, c)) == Potential(s)
  {
    WorkFrame(s.tasks, OnConnect(s, c).tasks, s.client.waiters);
  }

  lemma {:induction false} RunSpends(s: HubState, run: seq<Label>)
    requires Control(s, None) && Exec(s, run).Some? && forall i | 0 <= i < |run| :: NoRequest(run[i])
    ensures Turns(run) + Potential(Exec(s, run).value) <= Potential(s)
  {
    if run != [] {
      RunSpends(s, run[..|run| - 1]);
      RunKeeps(s, run[..|run| - 1]);
      StepSpends(Exec(s, run[..|run| - 1]).value, run[|run| - 1]);
    }
  }

  lemma AtRest(s: HubState)
    requires Control(s, None) && s.client.waiters == []
    ensures forall c | c in s.tasks :: s.tasks[c] == Receiving
  {
    assert forall i, c :: !WaitsAt(s.client.waiters, i, c);
  }

  /**
   * As long as nobody asks for the lock anew, it turns at most `Potential` times over any run, with
   * any outcome of the sends; while anybody waits it can turn; and when it cannot, every handler has
   * returned and every cleanup has ended.
   */
  lemma TurnsRunOut(s: HubState, run: seq<Label>, r: HubState)
    requires Reachable(s) && Exec(s, run) == Some(r) && forall i | 0 <= i < |run| :: NoRequest(run[i])
    ensures Turns(run) + Potential(r) <= Potential(s)
    ensures r.client.waiters != [] <==> exists result :: Enabled(r, LockTurn(result))
    ensures r.client.waiters == [] ==> forall c | c in r.tasks :: r.tasks[c] == Receiving
  {
    ReachableHolds(s);
    RunKeeps(s, run);
    RunSpends(s, run);
    if r.client.waiters == [] {
      AtRest(r);
    } else {
      assert Enabled(r, LockTurn(QuietResult(r)));
    }
  }

  // -------------------------------------------------------------------- every turn comes

  /** A step that is no turn of the lock only adds waiters at the end. */
  lemma OthersQueueBehind(s: HubState, l: Label)
    requires Enabled(s, l) && !l.LockTurn?
    ensures s.client.waiters <= Next(s, l).client.waiters && Next(s, l).client.sending == s.client.sending
  {
    match l {
      case Disconnect(c) =>
        if c !in s.broken {
          CleanupQueuesBehind(s, c);
        }
      case _ =>
    }
  }

  lemma CleanupQueuesBehind(s: HubState, c: ConsumerId)
    ensures s.client.waiters <= Cleanup(s, c).client.waiters && Cleanup(s, c).client.sending == s.client.sending
  {
    ContinueCleanupMoves(Unregistered(s, c), c, Sorted(TopicsOf(s.registry, c)), Counts(s.registry - {c}));
  }

  predicate StandsAt(q: seq<Client.Waiter>, i: int, w: Client.Waiter) {
    0 <= i < |q| && q[i] == w
  }

  /** At some point of the run `w` was at the head, had its turn and left the queue. */
  ghost predicate HadTurn(s: HubState, run: seq<Label>, w: Client.Waiter) {
    run != [] &&
    (HadTurn(s, run[..|run| - 1], w)
     || (run[|run| - 1].LockTurn? && Exec(s, run[..|run| - 1]).Some?
         && var k := Exec(s, run[..|run| - 1]).value.client; StandsAt(k.waiters, 0, w) && !Begins(k)))
  }

  /** How many turns of the lock until the waiter at `i` has had its own. */
  function TurnsUntil(k: Client.ClientState, i: nat): nat {
    2 * i + if k.sending then 1 else 2
  }

  lemma TurnMovesUp(s: HubState, result: SendResult, i: nat, w: Client.Waiter)
    requires Control(s, None) && Enabled(s, LockTurn(result)) && StandsAt(s.client.waiters, i, w)
    requires Begins(s.client) || i > 0
    ensures var k, j := OnLockTurn(s, result).client, if Begins(s.client) then i else i - 1;
      StandsAt(k.waiters, j, w) && TurnsUntil(k, j) < TurnsUntil(s.client, i)
  {
    TurnShape(s, result);
    if !Begins(s.client) {
      var q, p := s.client.waiters, OnLockTurn(s, result).client.waiters;
      assert p[i - 1] == q[1..][i - 1];
    }
  }

  /** Nobody overtakes: over any run, a waiter has its turn or is that much closer to it. */
  lemma {:induction false} MovesUp(s: HubState, run: seq<Label>, i: nat, w: Client.Waiter) returns (j: nat)
    requires Control(s, None) && Exec(s, run).Some? && StandsAt(s.client.waiters, i, w)
    ensures var k := Exec(s, run).value.client;
      HadTurn(s, run, w) || (StandsAt(k.waiters, j, w) && Turns(run) + TurnsUntil(k, j) <= TurnsUntil(s.client, i))
  {
    j := i;
    if run != [] {
      var front, l := run[..|run| - 1], run[|run| - 1];
      var m := Exec(s, front).value;
      j := MovesUp(s, front, i, w);
      RunKeeps(s, front);
      if !HadTurn(s, front, w) {
        if !l.LockTurn? {
          OthersQueueBehind(m, l);
        } else if Begins(m.client) || j > 0 {
          TurnMovesUp(m, l.result, j, w);
          j := if Begins(m.client) then j else j - 1;
        }
      }
    }
  }

  /**
   * Nobody starves: in any run, whatever else happens in it, the handler or reconnect loop waiting
   * behind `i` others has had its turn once the lock has made two for each of them and two for itself.
   */
  lemma TurnComes(s: HubState, run: seq<Label>, i: nat, w: Client.Waiter)
    requires Reachable(s) && Exec(s, run).Some? && StandsAt(s.client.waiters, i, w) && Turns(run) >= 2 * (i + 1)
    ensures HadTurn(s, run, w)
  {
    ReachableHolds(s);
    var j := MovesUp(s, run, i, w);
  }

  // ---------------------------------------------------------------- coming to rest

  lemma QuietTurnKeepsRegistry(s: HubState)
    requires Control(s, None) && s.client.waiters != []
    ensures Enabled(s, LockTurn(QuietResult(s)))
    ensures OnLockTurn(s, QuietResult(s)).registry == s.registry
  {
    TurnShape(s, QuietResult(s));
  }

  /** Letting the lock turn, with no send raising, empties the queue: no two wait for each other. */
  lemma {:induction false} Drain(s: HubState) returns (run: seq<Label>, r: HubState)
    requires Control(s, None)
    ensures Exec(s, run) == Some(r) && (forall i | 0 <= i < |run| :: run[i].LockTurn?)
    ensures Control(r, None) && CleanupsStay(s, r) && r.registry == s.registry
    ensures r.client.waiters == []
    decreases Work(s.tasks, s.client.waiters), if s.client.sending then 0 else 1
  {
    if s.client.waiters == [] {
      run, r := [], s;
    } else {
      var m := QuietStep(s);
      run, r := Drain(m);
      ExecFirst(s, LockTurn(QuietResult(s)), run);
      run := [LockTurn(QuietResult(s))] + run;
    }
  }

  lemma QuietStep(s: HubState) returns (m: HubState)
    requires Control(s, None) && s.client.waiters != []
    ensures Enabled(s, LockTurn(QuietResult(s))) && m == Next(s, LockTurn(QuietResult(s)))
    ensures Control(m, None) && CleanupsStay(s, m) && m.registry == s.registry
    ensures Work(m.tasks, m.client.waiters) < Work(s.tasks, s.client.waiters)
      || (Work(m.tasks, m.client.waiters) == Work(s.tasks, s.client.waiters) && m.client.sending && !s.client.sending)
  {
    QuietTurnKeepsRegistry(s);
    TurnLightens(s, QuietResult(s));
    NextKeeps(s, LockTurn(QuietResult(s)));
    m := Next(s, LockTurn(QuietResult(s)));
  }

  lemma ExecFirst(s: HubState, l: Label, run: seq<Label>)
    requires Enabled(s, l)
    ensures Exec(s, [l] + run) == Exec(Next(s, l), run)
  {
    ExecStep(s, [], s, l);
    assert [] + [l] == [l];
    ExecConcat(s, [l], Next(s, l), run);
  }

  lemma Leaves(s: HubState, c: ConsumerId) returns (m: HubState)
    requires Control(s, None) && s.client.waiters == [] && c in s.tasks && s.tasks[c] == Receiving
    ensures Enabled(s, Disconnect(c)) && m == Next(s, Disconnect(c)) && Control(m, None)
    ensures m.tasks.Keys <= s.tasks.Keys && (c in m.tasks ==> m.tasks[c].Cleaning?)
  {
    NextKeeps(s, Disconnect(c));
    DisconnectEnds(s, c);
    m := Next(s, Disconnect(c));
  }

  /** One consumer disconnects and its cleanup ends. */
  lemma OneLeaves(s: HubState, c: ConsumerId) returns (run: seq<Label>, r: HubState)
    requires Control(s, None) && s.client.waiters == [] && c in s.tasks
    ensures Exec(s, run) == Some(r) && Control(r, None) && r.client.waiters == []
    ensures r.tasks.Keys <= s.tasks.Keys - {c}
  {
    AtRest(s);
    var m := Leaves(s, c);
    run, r := Drain(m);
    AtRest(r);
    ExecStep(s, [], s, Disconnect(c));
    ExecConcat(s, [Disconnect(c)], m, run);
    run := [Disconnect(c)] + run;
  }

  /** Everybody disconnects and every cleanup ends. */
  lemma {:induction false} EmptyOut(s: HubState) returns (run: seq<Label>, r: HubState)
    requires Control(s, None) && s.client.waiters == []
    ensures Exec(s, run) == Some(r) && r.tasks == map[]
    decreases |s.tasks|
  {
    run, r := [], s;
    if s.tasks != map[] {
      var c :| c in s.tasks;
      var first, m := OneLeaves(s, c);
      FewerTasks(m.tasks, s.tasks, c);
      var rest, last := EmptyOut(m);
      ExecConcat(s, first, m, rest);
      run, r := first + rest, last;
    }
  }

  lemma FewerTasks(fewer: map<ConsumerId, Task>, tasks: map<ConsumerId, Task>, c: ConsumerId)
    requires c in tasks && fewer.Keys <= tasks.Keys - {c}
    ensures |fewer| < |tasks|
  {
    SubsetSize(fewer.Keys, tasks.Keys - {c});
    assert |fewer| == |fewer.Keys| && |tasks| == |tasks.Keys|;
  }

  lemma {:induction false} SubsetSize<T>(a: set<T>, b: set<T>)
    requires a <= b
    ensures |a| <= |b|
  {
    if a != {} {
      var x :| x in a;
      SubsetSize(a - {x}, b - {x});
    }
  }

  lemma DisconnectEnds(s: HubState, c: ConsumerId)
    requires c in s.tasks && s.tasks[c] == Receiving
    ensures var r := OnDisconnect(s, c);
      && r.tasks.Keys <= s.tasks.Keys
      && (c in r.tasks ==> r.tasks[c].Cleaning?)
      && (forall d | d in r.tasks && d != c :: r.tasks[d] == s.tasks[d])
  {
    if c in s.broken {
      assert OnDisconnect(s, c) == Abandon(s, c);
    } else {
      assert OnDisconnect(s, c) == Cleanup(s, c);
    }
  }

  /** From every reachable state the hub can come to rest with every consumer gone. */
  lemma CanAlwaysComeToRest(s: HubState)
    requires Reachable(s)
    ensures exists run :: Exec(s, run).Some? && Exec(s, run).value.tasks == map[]
  {
    ReachableHolds(s);
    var a, m := Drain(s);
    var b, r := EmptyOut(m);
    ExecConcat(s, a, m, b);
    assert Exec(s, a + b).Some? && Exec(s, a + b).value.tasks == map[];
  }
}
