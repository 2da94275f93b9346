/** The mutable client of app/ingestion/coinbase_client.py, one method per stretch between suspensions. */
module Coinbase {
  import opened Names
  import Client

  /** The upstream connection; `wire` is what the frames sent on it have subscribed. */
  class Socket {
    var open: bool
    ghost var wire: set<Topic>

    constructor ()
      ensures open && wire == {}
    {
      open, wire := true, {};
    }
  }

  class CoinbaseClient {
    var topics: set<Topic>
    var waiters: seq<Client.Waiter>
    var sending: bool
    /** waiters[0] has got a free `_ws_lock` and goes on before any other task. */
    var running: bool
    /** `_ws`, and the reconnect loop's own `ws`. */
    var ws: Socket?
    var connection: Socket?
    var phase: Client.Phase
    ghost var model: Client.ClientState
    ghost var Repr: set<object>

    /** `_ws` is the reconnect loop's socket or None. */
    ghost predicate Valid()
      reads this, Repr
    {
      && this in Repr
      && (connection != null ==> connection in Repr)
      && (phase in {Client.Attaching, Client.Resyncing, Client.Streaming} ==> connection != null)
      && (ws != null ==> ws == connection)
      && model == View()
    }

    ghost function View(): Client.ClientState
      reads this, connection
    {
      Client.ClientState(
        topics, waiters, sending, running, ws != null,
        connection != null && connection.open,
        if connection == null then {} else connection.wire,
        phase)
    }

    constructor ()
      ensures Valid() && fresh(Repr) && model == Client.INITIAL
    {
      topics, waiters, sending, running := {}, [], false, false;
      ws, connection, phase := null, null, Client.Down;
      model := Client.INITIAL;
      Repr := {this};
    }

    method SubscribeTopic(t: Topic, c: ConsumerId)
      requires Valid()
      modifies this`topics, this`waiters, this`running, this`model
      ensures Valid() && Repr == old(Repr) && model == Client.SubscribeTopic(old(model), t, c)
    {
      topics := topics + {t};
      SendSubscribe([t], Client.Handler(c));
      model := View();
    }

    method UnsubscribeTopic(t: Topic, c: ConsumerId)
      requires Valid()
      modifies this`topics, this`waiters, this`running, this`model
      ensures Valid() && Repr == old(Repr) && model == Client.UnsubscribeTopic(old(model), t, c)
    {
      topics := topics - {t};
      SendUnsubscribe([t], Client.Handler(c));
      model := View();
    }

    /** A task asks for `_ws_lock`; if it is free and nobody waits for it, the task does not suspend. */
    method Wait(w: Client.Waiter)
      modifies this`waiters, this`running
      ensures waiters == old(waiters) + [w] && (running <==> old(waiters) == [])
    {
      running := waiters == [];
      waiters := waiters + [w];
    }

    method SendSubscribe(products: seq<Topic>, owner: Client.Owner)
      modifies this`waiters, this`running
      ensures products == [] ==> waiters == old(waiters) && running == old(running)
      ensures products != [] ==> waiters == old(waiters) + [Client.Send(Client.Frame(true, products), owner)]
      ensures products != [] ==> (running <==> old(waiters) == [])
    {
      if products == [] {
        return;
      }
      Wait(Client.Send(Client.Frame(true, products), owner));
    }

    method SendUnsubscribe(products: seq<Topic>, owner: Client.Owner)
      modifies this`waiters, this`running
      ensures products == [] ==> waiters == old(waiters) && running == old(running)
      ensures products != [] ==> waiters == old(waiters) + [Client.Send(Client.Frame(false, products), owner)]
      ensures products != [] ==> (running <==> old(waiters) == [])
    {
      if products == [] {
        return;
      }
      Wait(Client.Send(Client.Frame(false, products), owner));
    }

    /** `websockets.connect` returns; the loop waits for the lock in `_set_ws(ws)`. */
    method ConnectReturns()
      requires Valid() && ws == null
      modifies this
      ensures Valid() && fresh(Repr - old(Repr))
      ensures model == Client.Connected(old(model))
    {
      connection := new Socket();
      Repr := Repr + {connection};
      phase := Client.Attaching;
      Wait(Client.SetWs(true));
      model := View();
    }

    method SocketCloses()
      requires Valid() && connection != null
      modifies Repr
      ensures Valid() && Repr == old(Repr) && model == Client.SocketClosed(old(model))
    {
      connection.open := false;
      model := View();
    }

    /** The loop leaves its `try` block, connected or not, and waits for the lock in `_set_ws(None)`. */
    method Leave()
      requires Valid()
      modifies this`phase, this`waiters, this`running, this`model
      ensures Valid() && Repr == old(Repr) && model == Client.Leave(old(model))
    {
      phase := Client.Detaching;
      Wait(Client.SetWs(false));
      model := View();
    }

    /** `_set_ws` gets the lock; the loop goes on to the resync, or closes the socket. */
    method SetWsTurn()
      requires Valid() && waiters != [] && waiters[0].SetWs?
      requires waiters[0].connected ==> phase == Client.Attaching
      modifies Repr
      ensures Valid() && Repr == old(Repr)
      ensures model == if old(waiters)[0].connected then Client.Attach(old(model)) else Client.Detach(old(model))
    {
      var connected := waiters[0].connected;
      waiters, running := waiters[1..], false;
      if connected {
        ws := connection;
        WireSubscribeAll();
      } else {
        ws := null;
        if connection != null && connection.open {
          connection.open := false;
        }
        phase := Client.Down;
      }
      model := View();
    }

    method WireSubscribeAll()
      modifies this`waiters, this`running, this`phase
      ensures topics == {} ==> waiters == old(waiters) && running == old(running) && phase == Client.Streaming
      ensures topics != {} ==>
        && waiters == old(waiters) + [Client.Send(Client.Frame(true, Sorted(topics)), Client.Runner)]
        && (running <==> old(waiters) == []) && phase == Client.Resyncing
    {
      SortedIsSorted(topics);
      var products := Sorted(topics);
      if products != [] {
        SendSubscribe(products, Client.Runner);
        phase := Client.Resyncing;
      } else {
        assert topics == {};
        phase := Client.Streaming;
      }
    }

    /** `_send_json` with the lock: suspend in `ws.send`, or find nothing to send on. */
    method SendBegins() returns (suspended: bool)
      requires Valid() && waiters != [] && waiters[0].Send? && !sending
      modifies this`sending, this`running, this`model
      ensures Valid() && Repr == old(Repr)
      ensures suspended <==> old(model).attached && old(model).open
      ensures model == if suspended then Client.BeginSend(old(model)) else old(model)
    {
      if ws == null || !ws.open {
        return false;
      }
      sending, running := true, false;
      model := View();
      suspended := true;
    }

    /** `ws.send` has delivered the frame. */
    method SendDelivers()
      requires Valid() && waiters != [] && waiters[0].Send? && connection != null
      modifies Repr
      ensures Valid() && Repr == old(Repr) && model == Client.Deliver(old(model))
    {
      ghost var f := waiters[0].frame;
      connection.wire := Client.OnWire(connection.wire, f);
      model := View();
    }

    /** The head releases the lock; the reconnect loop goes on to receive, or to leave. */
    method Retire(raised: bool) returns (owner: Client.Owner)
      requires Valid() && waiters != [] && waiters[0].Send?
      requires waiters[0].owner.Runner? ==> phase == Client.Resyncing
      modifies this`waiters, this`sending, this`running, this`phase, this`model
      ensures Valid() && Repr == old(Repr) && owner == old(waiters)[0].owner
      ensures model == Client.Retire(old(model), raised)
    {
      owner := waiters[0].owner;
      waiters, sending, running := waiters[1..], false, false;
      model := View();
      if owner == Client.Runner {
        if raised {
          Leave();
        } else {
          phase := Client.Streaming;
          model := View();
        }
      }
    }
  }
}
