/** How the hub gets back upstream: the reconnect loop of app/ingestion/coinbase_client.py:138-184. */
module HubRecovery {
  import opened Names
  import opened Registry
  import Client
  import opened Hub
  import opened HubInvariant
  import opened HubRuns
  import opened HubHistory
  import opened HubQuiesce

  // ------------------------------------------------------------------ leaving the socket

  /** The loop has no connection and may try for one. */
  predicate Disconnected(k: Client.ClientState) {
    k.phase == Client.Down && !k.attached && !k.open
  }

  /** The loop waits, behind whoever waits already, to set `_ws` to None. */
  predicate IsLeaving(k: Client.ClientState, r: Client.ClientState) {
    r == k.(phase := Client.Detaching, waiters := k.waiters + [Client.SetWs(false)], running := k.waiters == [])
  }

  /** The receive loop may end whenever it runs, and a connect may fail whenever it is tried. */
  predicate Ends(k: Client.ClientState, l: Label) {
    !k.running && ((l.ReceiveEnds? && k.phase == Client.Streaming) || (l.UpstreamFails? && k.phase == Client.Down))
  }

  /** The end of the receive loop, and a connect that fails, make the loop leave. */
  lemma EndsByLeaving(s: HubState, l: Label)
    requires Ends(s.client, l)
    ensures Enabled(s, l)
    ensures var r := Next(s, l); r == s.(client := r.client) && IsLeaving(s.client, r.client)
  {
  }

  /** A resync goes over to receiving, unless its send raises: then the loop leaves. */
  lemma ResyncEnds(s: HubState, result: SendResult)
    requires Enabled(s, LockTurn(result)) && !Begins(s.client)
    requires s.client.waiters[0].Send? && s.client.waiters[0].owner.Runner?
    ensures var r, q := Next(s, LockTurn(result)), s.client.waiters[1..];
      && r == s.(client := r.client) && !r.client.sending
      && if s.client.sending && result == Raised
         then r.client.phase == Client.Detaching && r.client.waiters == q + [Client.SetWs(false)]
         else r.client.phase == Client.Streaming && r.client.waiters == q
  {
    TurnFinishes(s, result);
    RetiredShape(s, s.client.sending && result == Sent, s.client.sending && result == Raised);
  }

  /** At some point of the run, or at its start, the loop had no connection. */
  ghost predicate PassedDown(s: HubState, run: seq<Label>) {
    && Exec(s, run).Some?
    && (Disconnected(Exec(s, run).value.client) || (run != [] && PassedDown(s, run[..|run| - 1])))
  }

  lemma DetachTurn(s: HubState, result: SendResult)
    requires Enabled(s, LockTurn(result)) && s.client.waiters[0] == Client.SetWs(false)
    ensures Disconnected(OnLockTurn(s, result).client)
  {
  }

  lemma {:induction false} HadDetachTurn(s: HubState, run: seq<Label>)
    requires Exec(s, run).Some? && HadTurn(s, run, Client.SetWs(false))
    ensures PassedDown(s, run)
  {
    var front := run[..|run| - 1];
    if HadTurn(s, front, Client.SetWs(false)) {
      HadDetachTurn(s, front);
    } else {
      DetachTurn(Exec(s, front).value, run[|run| - 1].result);
    }
  }

  /**
   * A dead socket is given up: in any run from the end of the receive loop on, once the lock has made
   * two turns for everybody who was waiting and two more, the loop has been without a connection.
   */
  lemma SocketIsGivenUp(s: HubState, l: Label, run: seq<Label>)
    requires Reachable(s) && Ends(s.client, l) && Turns(run) >= 2 * (|s.client.waiters| + 1)
    ensures Enabled(s, l)
    ensures Exec(Next(s, l), run).Some? ==> PassedDown(Next(s, l), run)
  {
    EndsByLeaving(s, l);
    var r := Next(s, l);
    ReachableNext(s, l);
    assert StandsAt(r.client.waiters, |s.client.waiters|, Client.SetWs(false));
    if Exec(r, run).Some? {
      TurnComes(r, run, |s.client.waiters|, Client.SetWs(false));
      HadDetachTurn(r, run);
    }
  }

  // -------------------------------------------------------------------- coming back up

  /** A label of the reconnect loop, or a turn of the lock: no consumer does anything new. */
  predicate NoConsumer(l: Label) {
    l.LockTurn? || l.UpstreamOpens? || l.ReceiveEnds?
  }

  ghost predicate OnlyUpstream(run: seq<Label>) {
    forall i | 0 <= i < |run| :: NoConsumer(run[i])
  }

  /** On an open socket, resynced, with nothing waiting. */
  predicate IsUp(k: Client.ClientState) {
    k.phase == Client.Streaming && k.attached && k.open && k.waiters == []
  }

  /** With nobody waiting the loop is receiving or without a connection. */
  lemma RestsUpOrDown(s: HubState)
    requires Control(s, None) && s.client.waiters == []
    ensures !s.client.running && !s.client.sending
    ensures Disconnected(s.client) || (s.client.phase == Client.Streaming && s.client.attached)
  {
    if i: nat :| Client.OneRunnerAt(s.client.waiters, i) {
      assert false;
    }
  }

  /** From Streaming with nobody waiting, the end of the receive loop and one turn lead to no connection. */
  lemma GoesDown(s: HubState) returns (run: seq<Label>, r: HubState)
    requires Control(s, None) && s.client.waiters == [] && s.client.phase == Client.Streaming
    ensures Exec(s, run) == Some(r) && run == [ReceiveEnds] + [LockTurn(Swallowed)]
    ensures Control(r, None) && Disconnected(r.client) && r.client.waiters == [] && r.registry == s.registry
  {
    RestsUpOrDown(s);
    EndsByLeaving(s, ReceiveEnds);
    var m := Next(s, ReceiveEnds);
    assert m.client.waiters == [Client.SetWs(false)];
    r := Next(m, LockTurn(Swallowed));
    TwoSteps(s, ReceiveEnds, LockTurn(Swallowed));
    run := [ReceiveEnds] + [LockTurn(Swallowed)];
    StaysControlled(s, run, r);
    assert r.client == Client.Detach(m.client) && m.client.waiters[1..] == [];
  }

  lemma StaysControlled(s: HubState, run: seq<Label>, r: HubState)
    requires Control(s, None) && Exec(s, run) == Some(r)
    ensures Control(r, None)
  {
    RunKeeps(s, run);
  }

  lemma TwoSteps(s: HubState, l: Label, k: Label)
    requires Enabled(s, l) && Enabled(Next(s, l), k)
    ensures Exec(s, [l] + [k]) == Some(Next(Next(s, l), k))
  {
    ExecFirst(Next(s, l), k, []);
    assert [k] + [] == [k];
    ExecFirst(s, l, [k]);
  }

  /** From no connection, a connect and one turn set `_ws`; what is left to do is the resync, if any. */
  lemma Attaches(s: HubState) returns (run: seq<Label>, r: HubState)
    requires Control(s, None) && s.client.waiters == [] && s.client.phase == Client.Down
    ensures Exec(s, run) == Some(r) && run == [UpstreamOpens] + [LockTurn(Swallowed)]
    ensures Control(r, None) && r.registry == s.registry && r.client.attached && r.client.open && !r.client.sending
    ensures IsUp(r.client)
      || (r.client.phase == Client.Resyncing
          && r.client.waiters == [Client.Send(Client.Frame(true, Sorted(s.client.topics)), Client.Runner)])
  {
    RestsUpOrDown(s);
    var m := Next(s, UpstreamOpens);
    assert m.client.waiters == [Client.SetWs(true)];
    r := Next(m, LockTurn(Swallowed));
    assert r == m.(client := Client.Attach(m.client)) && m.client.waiters[1..] == [];
    TwoSteps(s, UpstreamOpens, LockTurn(Swallowed));
    run := [UpstreamOpens] + [LockTurn(Swallowed)];
    StaysControlled(s, run, r);
  }

  lemma Resyncs(s: HubState, resync: Client.Waiter) returns (run: seq<Label>, r: HubState)
    requires Control(s, None) && s.client.phase == Client.Resyncing && s.client.waiters == [resync]
    requires resync.Send? && resync.owner.Runner? && s.client.attached && s.client.open && !s.client.sending
    ensures Exec(s, run) == Some(r) && run == [LockTurn(Sent)] + [LockTurn(Sent)]
    ensures Control(r, None) && r.registry == s.registry && IsUp(r.client)
  {
    var m := Next(s, LockTurn(Sent));
    NextKeeps(s, LockTurn(Sent));
    assert m == s.(client := Client.BeginSend(s.client));
    r := Next(m, LockTurn(Sent));
    NextKeeps(m, LockTurn(Sent));
    ResyncEnds(m, Sent);
    assert m.client.waiters[1..] == [];
    assert r.client == Client.Retire(Client.Deliver(m.client), false);
    TwoSteps(s, LockTurn(Sent), LockTurn(Sent));
    run := [LockTurn(Sent)] + [LockTurn(Sent)];
  }

  lemma ComesUp(s: HubState) returns (run: seq<Label>, r: HubState)
    requires Control(s, None) && s.client.waiters == [] && s.client.phase == Client.Down
    ensures Exec(s, run) == Some(r) && OnlyUpstream(run)
    ensures r.registry == s.registry && IsUp(r.client)
  {
    run, r := Attaches(s);
    if !IsUp(r.client) {
      var more, last := Resyncs(r, r.client.waiters[0]);
      ExecConcat(s, run, r, more);
      run, r := run + more, last;
    }
  }

  /** From nobody waiting, whatever has become of the connection. */
  lemma RecoversFromRest(s: HubState) returns (run: seq<Label>, r: HubState)
    requires Control(s, None) && s.client.waiters == []
    ensures Exec(s, run) == Some(r) && OnlyUpstream(run)
    ensures r.registry == s.registry && IsUp(r.client)
  {
    RestsUpOrDown(s);
    if IsUp(s.client) {
      run, r := [], s;
    } else if s.client.phase == Client.Down {
      run, r := ComesUp(s);
    } else {
      var down, m := GoesDown(s);
      var up, last := ComesUp(m);
      ExecConcat(s, down, m, up);
      run, r := down + up, last;
    }
  }

  lemma {:induction false} UpstreamExposes(s: HubState, run: seq<Label>, t: Topic)
    requires Exec(s, run).Some? && OnlyUpstream(run)
    ensures t in Exec(s, run).value.exposed <==> t in s.exposed
  {
    if run != [] {
      UpstreamExposes(s, run[..|run| - 1], t);
      StepExposes(Exec(s, run[..|run| - 1]).value, run[|run| - 1], t);
    }
  }

  /**
   * Recovery is always possible: from every reachable state, whatever has become of the connection and
   * whoever waits, some run in which no consumer does anything new and nobody loses a subscription
   * leads to an open, resynced socket with nothing waiting. There the venue has exactly `_topics`, and
   * serves every wanted topic that was not exposed to a stale cleanup.
   */
  lemma RecoveryIsPossible(s: HubState) returns (run: seq<Label>, r: HubState)
    requires Reachable(s)
    ensures Exec(s, run) == Some(r) && OnlyUpstream(run) && r.registry == s.registry
    ensures IsUp(r.client) && r.client.wire == r.client.topics
    ensures forall t | Wanted(s.registry, t) && t !in s.exposed :: t in r.client.wire
  {
    ReachableHolds(s);
    var rest, m := Drain(s);
    var back, last := RecoversFromRest(m);
    ExecConcat(s, rest, m, back);
    run, r := rest + back, last;
    RunReachable(s, run, r);
    WireAgreement(r);
    WireFollowsDemand(r);
    forall t ensures t in r.exposed <==> t in s.exposed { UpstreamExposes(s, run, t); }
  }
}
