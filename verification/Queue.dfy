/** The bounded per-consumer queue of app/pubsub/broker.py, with the history of what went through it. */
module Queue {
  import opened Names
  import opened Snapshot

  /**
   * `items` is the queue. `put` is everything ever put on it; the first |taken| of those have left,
   * read by the consumer (`true`) or dropped to make room (`false`).
   */
  datatype QueueState = QueueState(
    serial: nat,
    maxsize: int,
    items: seq<MarketEvent>,
    put: seq<MarketEvent>,
    taken: seq<bool>)

  ghost predicate ValidQueue(q: QueueState) {
    && |q.taken| + |q.items| == |q.put|
    && q.items == q.put[|q.taken|..]
    && (q.maxsize >= 1 ==> |q.items| <= q.maxsize)
  }

  /** `asyncio.Queue.full`: a maxsize of zero or less means unbounded. */
  predicate Full(q: QueueState) {
    q.maxsize > 0 && |q.items| >= q.maxsize
  }

  function NewQueue(serial: nat, maxsize: int): QueueState {
    QueueState(serial, maxsize, [], [], [])
  }

  function Take(q: QueueState, read: bool): QueueState
    requires q.items != []
  {
    q.(items := q.items[1..], taken := q.taken + [read])
  }

  function Append(q: QueueState, e: MarketEvent): QueueState {
    q.(items := q.items + [e], put := q.put + [e])
  }

  /** Drop the oldest item if the queue is full, then append the newest. */
  function PutDropOldest(q: QueueState, e: MarketEvent): QueueState {
    Append(if Full(q) then Take(q, false) else q, e)
  }

  /** The items of a history that left with the given fate, in order. */
  function Select(put: seq<MarketEvent>, taken: seq<bool>, fate: bool): seq<MarketEvent>
  {
    if taken == [] then []
    else
      var n := |taken| - 1;
      Select(put, taken[..n], fate) + if n < |put| && taken[n] == fate then [put[n]] else []
  }

  function Read(q: QueueState): seq<MarketEvent> {
    Select(q.put, q.taken, true)
  }

  function Dropped(q: QueueState): seq<MarketEvent> {
    Select(q.put, q.taken, false)
  }

  /** `s` is made of the items of `t` at strictly increasing positions. */
  ghost predicate InOrderSubsequence(s: seq<MarketEvent>, t: seq<MarketEvent>) {
    exists at: seq<nat> ::
      && |at| == |s|
      && (forall i | 0 <= i < |at| :: at[i] < |t| && s[i] == t[at[i]])
      && (forall i, j | 0 <= i < j < |at| :: at[i] < at[j])
  }

  lemma {:induction false} SelectInOrder(put: seq<MarketEvent>, taken: seq<bool>, fate: bool) returns (at: seq<nat>)
    requires |taken| <= |put|
    ensures var s := Select(put, taken, fate);
      && |at| == |s|
      && (forall i | 0 <= i < |at| :: at[i] < |taken| && s[i] == put[at[i]])
      && (forall i, j | 0 <= i < j < |at| :: at[i] < at[j])
  {
    at := [];
    if taken != [] {
      var n := |taken| - 1;
      at := SelectInOrder(put, taken[..n], fate);
      if taken[n] == fate {
        at := at + [n];
      }
    }
  }

  lemma {:induction false} SelectCounts(put: seq<MarketEvent>, taken: seq<bool>)
    requires |taken| <= |put|
    ensures |Select(put, taken, true)| + |Select(put, taken, false)| == |taken|
  {
    if taken != [] {
      SelectCounts(put, taken[..|taken| - 1]);
    }
  }

  lemma {:induction false} SelectFrame(put: seq<MarketEvent>, more: seq<MarketEvent>, taken: seq<bool>, fate: bool)
    requires |taken| <= |put|
    ensures Select(put + more, taken, fate) == Select(put, taken, fate)
  {
    if taken != [] {
      SelectFrame(put, more, taken[..|taken| - 1], fate);
    }
  }

  /** Each step keeps the queue valid, and says where the items it moves end up. */
  lemma TakeMoves(q: QueueState, read: bool)
    requires ValidQueue(q) && q.items != []
    ensures ValidQueue(Take(q, read))
    ensures Read(Take(q, read)) == if read then Read(q) + [q.items[0]] else Read(q)
    ensures Dropped(Take(q, read)) == if read then Dropped(q) else Dropped(q) + [q.items[0]]
    ensures q.items[0] == q.put[|q.taken|]
    ensures q.maxsize >= 1 ==> |q.put[|q.taken| + 1..]| < q.maxsize
  {
    var r := Take(q, read);
    assert r.taken[..|q.taken|] == q.taken;
  }

  lemma PutMoves(q: QueueState, e: MarketEvent)
    requires ValidQueue(q)
    ensures ValidQueue(PutDropOldest(q, e))
    ensures Read(PutDropOldest(q, e)) == Read(q)
    ensures Dropped(PutDropOldest(q, e)) == if Full(q) then Dropped(q) + [q.items[0]] else Dropped(q)
    ensures Full(q) ==> |q.put| - |q.taken| == q.maxsize
    ensures PutDropOldest(q, e).put == q.put + [e]
    ensures PutDropOldest(q, e).serial == q.serial && PutDropOldest(q, e).maxsize == q.maxsize
  {
    var m := q;
    if Full(q) {
      TakeMoves(q, false);
      m := Take(q, false);
    }
    SelectFrame(m.put, [e], m.taken, true);
    SelectFrame(m.put, [e], m.taken, false);
  }

  // ------------------------------------------------------------- whole histories

  datatype QueueOp = PutOp(event: MarketEvent) | GetOp

  /** Any mix of publishes and reads; a read of an empty queue would wait, so it changes nothing. */
  function RunOps(q: QueueState, ops: seq<QueueOp>): QueueState {
    if ops == [] then q
    else
      var p := RunOps(q, ops[..|ops| - 1]);
      match ops[|ops| - 1]
      case PutOp(e) => PutDropOldest(p, e)
      case GetOp => if p.items == [] then p else Take(p, true)
  }

  function PutsOf(ops: seq<QueueOp>): seq<MarketEvent> {
    if ops == [] then []
    else
      var front := PutsOf(ops[..|ops| - 1]);
      match ops[|ops| - 1]
      case PutOp(e) => front + [e]
      case GetOp => front
  }

  lemma {:induction false} RunKeepsValid(serial: nat, maxsize: int, ops: seq<QueueOp>)
    ensures var q := RunOps(NewQueue(serial, maxsize), ops);
      q.put == PutsOf(ops) && ValidQueue(q) && q.serial == serial && q.maxsize == maxsize
  {
    if ops != [] {
      RunKeepsValid(serial, maxsize, ops[..|ops| - 1]);
      var p := RunOps(NewQueue(serial, maxsize), ops[..|ops| - 1]);
      match ops[|ops| - 1] {
        case PutOp(e) => PutMoves(p, e);
        case GetOp => if p.items != [] { TakeMoves(p, true); }
      }
    }
  }

  /**
   * What every valid queue says about its history: the queue is the last |queue| items put, what
   * was read is an in-order subsequence of what was put, and every put is read, dropped or queued.
   */
  lemma HistoryOf(q: QueueState)
    requires ValidQueue(q)
    ensures |q.items| <= |q.put| && q.items == q.put[|q.put| - |q.items|..]
    ensures InOrderSubsequence(Read(q), q.put)
    ensures |q.put| == |Read(q)| + |Dropped(q)| + |q.items|
  {
    SelectCounts(q.put, q.taken);
    var at := SelectInOrder(q.put, q.taken, true);
    assert Read(q) == Select(q.put, q.taken, true);
  }

  /** The lossy stream, for any mix of publishes and reads: see `HistoryOf`; the bound is never exceeded. */
  lemma LossyStream(serial: nat, maxsize: int, ops: seq<QueueOp>)
    ensures var q := RunOps(NewQueue(serial, maxsize), ops);
      && ValidQueue(q)
      && |q.items| <= |PutsOf(ops)|
      && q.items == PutsOf(ops)[|PutsOf(ops)| - |q.items|..]
      && InOrderSubsequence(Read(q), PutsOf(ops))
      && |PutsOf(ops)| == |Read(q)| + |Dropped(q)| + |q.items|
      && (maxsize >= 1 ==> |q.items| <= maxsize)
  {
    RunKeepsValid(serial, maxsize, ops);
    HistoryOf(RunOps(NewQueue(serial, maxsize), ops));
  }

  // ------------------------------------------------------------------- the class

  /** The part of `asyncio.Queue` the broker uses; `put` and `taken` are history. */
  class BoundedQueue {
    ghost const serial: nat
    const maxsize: int
    var items: seq<MarketEvent>
    ghost var put: seq<MarketEvent>
    ghost var taken: seq<bool>

    ghost function View(): QueueState
      reads this
    {
      QueueState(serial, maxsize, items, put, taken)
    }

    ghost predicate Valid()
      reads this
    {
      maxsize >= 1 ==> |items| <= maxsize
    }

    constructor (maxsize: int, ghost serial: nat)
      ensures View() == NewQueue(serial, maxsize)
    {
      this.maxsize := maxsize;
      this.serial := serial;
      items, put, taken := [], [], [];
    }

    predicate IsFull()
      reads this
      ensures IsFull() == Full(View())
    {
      maxsize > 0 && |items| >= maxsize
    }

    /** `None` stands for `QueueEmpty`. `read` records on whose behalf the item is taken. */
    method GetNowait(ghost read: bool) returns (r: Option<MarketEvent>)
      modifies this
      ensures old(items) == [] ==> r == None && View() == old(View())
      ensures old(items) != [] ==> r == Some(old(items)[0]) && View() == Take(old(View()), read)
    {
      if items == [] {
        return None;
      }
      r := Some(items[0]);
      items := items[1..];
      taken := taken + [read];
    }

    /** `false` stands for `QueueFull`. */
    method PutNowait(e: MarketEvent) returns (ok: bool)
      modifies this
      ensures ok <==> !old(IsFull())
      ensures View() == if ok then Append(old(View()), e) else old(View())
    {
      if IsFull() {
        return false;
      }
      items := items + [e];
      put := put + [e];
      ok := true;
    }
  }
}
