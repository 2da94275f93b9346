/** app/models/market_data.py and app/cache/snapshot_store.py: events, and the row they are folded into. */
module Snapshot {
  import opened Names

  datatype EventKind = Trade | Ticker | L2

  /** A `datetime`: with an offset from UTC, or naive. The store reads a naive one as UTC. */
  datatype Timestamp = Naive(local: int) | Aware(local: int, offset: int) {
    function Utc(): int {
      match this
      case Naive(t) => t
      case Aware(t, o) => t - o
    }
  }

  /** The same instant has one UTC value however it is written, and later instants have later ones. */
  lemma SameInstant(t: int, later: int, offset: int)
    ensures Aware(t + offset, offset).Utc() == Naive(t).Utc()
    ensures Naive(later).Utc() - Naive(t).Utc() == later - t
  {
  }

  datatype MarketEvent = MarketEvent(
    topic: Topic,
    kind: EventKind,
    price: Option<real>,
    size: Option<real>,
    bestBid: Option<real>,
    bestAsk: Option<real>,
    exchangeMs: Option<int>,
    receivedAt: Timestamp)

  /** One topic's row once at least one event has been applied to it. */
  datatype Row = Row(lastTrade: Option<real>, bestBid: Option<real>, bestAsk: Option<real>, updatedAt: int)

  type Store = map<Topic, Row>

  function Or<T>(newer: Option<T>, older: Option<T>): Option<T> {
    if newer.Some? then newer else older
  }

  function Max(a: int, b: int): int {
    if a < b then b else a
  }

  function RowOf(store: Store, t: Topic): Option<Row> {
    if t in store then Some(store[t]) else None
  }

  /** One event on its own, as a row. */
  function Fresh(e: MarketEvent): Row {
    Row(e.price, e.bestBid, e.bestAsk, e.receivedAt.Utc())
  }

  /** The later row wins wherever it says something; the update time is the later of the two. */
  function Over(older: Option<Row>, newer: Option<Row>): Option<Row> {
    match (older, newer)
    case (_, None) => older
    case (None, _) => newer
    case (Some(o), Some(n)) =>
      Some(Row(Or(n.lastTrade, o.lastTrade), Or(n.bestBid, o.bestBid), Or(n.bestAsk, o.bestAsk),
               Max(o.updatedAt, n.updatedAt)))
  }

  function ApplyTo(row: Option<Row>, e: MarketEvent): Row {
    Over(row, Some(Fresh(e))).value
  }

  function Apply(store: Store, e: MarketEvent): Store {
    store[e.topic := ApplyTo(RowOf(store, e.topic), e)]
  }

  function FoldRow(row: Option<Row>, es: seq<MarketEvent>): Option<Row> {
    if es == [] then row
    else Some(ApplyTo(FoldRow(row, es[..|es| - 1]), es[|es| - 1]))
  }

  function Fold(store: Store, es: seq<MarketEvent>): Store {
    if es == [] then store
    else Apply(Fold(store, es[..|es| - 1]), es[|es| - 1])
  }

  /** The events of one topic, in order. */
  function Project(es: seq<MarketEvent>, t: Topic): seq<MarketEvent> {
    if es == [] then []
    else
      var front, e := Project(es[..|es| - 1], t), es[|es| - 1];
      if e.topic == t then front + [e] else front
  }

  lemma ProjectAppend(es: seq<MarketEvent>, e: MarketEvent, t: Topic)
    ensures Project(es + [e], t) == if e.topic == t then Project(es, t) + [e] else Project(es, t)
  {
    assert (es + [e])[..|es|] == es;
  }

  lemma FoldAppend(store: Store, es: seq<MarketEvent>, e: MarketEvent)
    ensures Fold(store, es + [e]) == Apply(Fold(store, es), e)
  {
    assert (es + [e])[..|es|] == es;
  }

  lemma FoldRowAppend(row: Option<Row>, es: seq<MarketEvent>, e: MarketEvent)
    ensures FoldRow(row, es + [e]) == Some(ApplyTo(FoldRow(row, es), e))
  {
    assert (es + [e])[..|es|] == es;
  }

  // ----------------------------------------------------- the row and its history

  /** The last non-null value of a field in a history. */
  function LastSome(es: seq<MarketEvent>, field: MarketEvent -> Option<real>): Option<real> {
    if es == [] then None
    else if field(es[|es| - 1]).Some? then field(es[|es| - 1])
    else LastSome(es[..|es| - 1], field)
  }

  /** What `LastSome` means, by position: the value at the last index that has one. */
  lemma {:induction false} LastSomeIsLast(es: seq<MarketEvent>, field: MarketEvent -> Option<real>)
    ensures LastSome(es, field).None? <==> forall i | 0 <= i < |es| :: field(es[i]).None?
    ensures LastSome(es, field).Some? ==>
      exists i :: 0 <= i < |es| && field(es[i]) == LastSome(es, field) && forall j | i < j < |es| :: field(es[j]).None?
  {
    if es != [] {
      var front, n := es[..|es| - 1], |es| - 1;
      LastSomeIsLast(front, field);
      if field(es[n]).Some? {
      } else if LastSome(front, field).Some? {
        var i :| 0 <= i < |front| && field(front[i]) == LastSome(front, field)
          && forall j | i < j < |front| :: field(front[j]).None?;
        assert field(es[i]) == LastSome(es, field) && forall j | i < j < |es| :: j == n || es[j] == front[j];
      } else {
        forall i | 0 <= i < |es| ensures field(es[i]).None? {
          if i < n { assert es[i] == front[i]; }
        }
      }
    }
  }

  /** The incremental row is its history: last non-null fields and the latest receive time. */
  lemma {:induction false} RowIsHistory(es: seq<MarketEvent>)
    requires es != []
    ensures var row := FoldRow(None, es).value;
      && row.lastTrade == LastSome(es, (e: MarketEvent) => e.price)
      && row.bestBid == LastSome(es, (e: MarketEvent) => e.bestBid)
      && row.bestAsk == LastSome(es, (e: MarketEvent) => e.bestAsk)
      && (forall i | 0 <= i < |es| :: es[i].receivedAt.Utc() <= row.updatedAt)
      && (exists i :: 0 <= i < |es| && es[i].receivedAt.Utc() == row.updatedAt)
  {
    var front, n := es[..|es| - 1], |es| - 1;
    if front == [] {
      assert es[0].receivedAt.Utc() == FoldRow(None, es).value.updatedAt;
    } else {
      RowIsHistory(front);
      var before := FoldRow(None, front).value;
      var i :| 0 <= i < |front| && front[i].receivedAt.Utc() == before.updatedAt;
      assert es[i] == front[i];
      var row := FoldRow(None, es).value;
      assert es[i].receivedAt.Utc() == row.updatedAt || es[n].receivedAt.Utc() == row.updatedAt;
      forall j | 0 <= j < |es| ensures es[j].receivedAt.Utc() <= row.updatedAt {
        if j < n { assert es[j] == front[j]; }
      }
    }
  }

  lemma OverAssociates(a: Option<Row>, b: Option<Row>, c: Option<Row>)
    ensures Over(Over(a, b), c) == Over(a, Over(b, c))
  {
  }

  /** Folding a history onto a row is merging the fold of that history over the row. */
  lemma {:induction false} FoldIsOver(row: Option<Row>, es: seq<MarketEvent>)
    ensures FoldRow(row, es) == Over(row, FoldRow(None, es))
  {
    if es != [] {
      var front, e := es[..|es| - 1], es[|es| - 1];
      FoldIsOver(row, front);
      OverAssociates(row, FoldRow(None, front), Some(Fresh(e)));
    }
  }

  /** A concatenated history folds to the right-biased merge of the two folds. */
  lemma {:induction false} FoldConcat(row: Option<Row>, a: seq<MarketEvent>, b: seq<MarketEvent>)
    ensures FoldRow(row, a + b) == Over(FoldRow(row, a), FoldRow(None, b))
  {
    if b == [] {
      assert a + b == a;
    } else {
      var front, e := b[..|b| - 1], b[|b| - 1];
      assert (a + b)[..|a + b| - 1] == a + front;
      FoldConcat(row, a, front);
      OverAssociates(FoldRow(row, a), FoldRow(None, front), Some(Fresh(e)));
    }
  }

  /** In the whole store a topic's row is the fold of that topic's own events. */
  lemma {:induction false} StoreRowIsProjection(store: Store, es: seq<MarketEvent>, t: Topic)
    ensures RowOf(Fold(store, es), t) == FoldRow(RowOf(store, t), Project(es, t))
  {
    if es != [] {
      var front, e := es[..|es| - 1], es[|es| - 1];
      StoreRowIsProjection(store, front, t);
      if e.topic == t {
        FoldRowAppend(RowOf(store, t), Project(front, t), e);
      }
    }
  }

  /** Histories that differ only in how the topics interleave give the same store. */
  lemma InterleavingIrrelevant(store: Store, a: seq<MarketEvent>, b: seq<MarketEvent>)
    requires forall t :: Project(a, t) == Project(b, t)
    ensures Fold(store, a) == Fold(store, b)
  {
    forall t ensures RowOf(Fold(store, a), t) == RowOf(Fold(store, b), t) {
      StoreRowIsProjection(store, a, t);
      StoreRowIsProjection(store, b, t);
    }
    forall t ensures t in Fold(store, a) <==> t in Fold(store, b) {
      assert RowOf(Fold(store, a), t).Some? <==> t in Fold(store, a);
      assert RowOf(Fold(store, b), t).Some? <==> t in Fold(store, b);
    }
    forall t | t in Fold(store, a) ensures Fold(store, a)[t] == Fold(store, b)[t] {
      assert RowOf(Fold(store, a), t) == Some(Fold(store, a)[t]);
      assert RowOf(Fold(store, b), t) == Some(Fold(store, b)[t]);
    }
  }

  /** Rows are never removed and their update time never goes back. */
  lemma {:induction false} StoreOnlyAdvances(store: Store, es: seq<MarketEvent>, t: Topic)
    requires t in store
    ensures t in Fold(store, es) && store[t].updatedAt <= Fold(store, es)[t].updatedAt
  {
    if es != [] {
      StoreOnlyAdvances(store, es[..|es| - 1], t);
    }
  }

  // -------------------------------------------------------------------- classes

  /** `TopicSnapshot`, the read-time view of a row. */
  datatype TopicSnapshot = TopicSnapshot(
    topic: Topic,
    lastTrade: Option<real>,
    bestBid: Option<real>,
    bestAsk: Option<real>,
    midPrice: Option<real>,
    updatedAt: Option<int>,
    stale: bool)

  /** Mid only when both sides of the book are known. */
  function MidPrice(bid: Option<real>, ask: Option<real>): Option<real> {
    if bid.None? || ask.None? then None else Some((bid.value + ask.value) / 2.0)
  }

  predicate IsStale(updatedAt: Option<int>, now: int, threshold: real) {
    updatedAt.None? || (now - updatedAt.value) as real > threshold
  }

  /** The snapshot of a row read at `now`. */
  function SnapshotOf(t: Topic, row: Row, now: int, threshold: real): TopicSnapshot {
    TopicSnapshot(t, row.lastTrade, row.bestBid, row.bestAsk, MidPrice(row.bestBid, row.bestAsk),
                  Some(row.updatedAt), IsStale(Some(row.updatedAt), now, threshold))
  }

  // -------------------------------------------------------- what a read says of the history

  /** `v` is the value of the field at the last position of `es` that has one, if any has. */
  ghost predicate IsLast(es: seq<MarketEvent>, field: MarketEvent -> Option<real>, v: Option<real>) {
    if v.None? then forall i | 0 <= i < |es| :: field(es[i]).None?
    else exists i :: 0 <= i < |es| && field(es[i]) == v && forall j | i < j < |es| :: field(es[j]).None?
  }

  /** `u` is the latest receive time among `es`. */
  ghost predicate IsLatest(es: seq<MarketEvent>, u: int) {
    && (forall i | 0 <= i < |es| :: es[i].receivedAt.Utc() <= u)
    && (exists i :: 0 <= i < |es| && es[i].receivedAt.Utc() == u)
  }

  /** The mid price is there when both sides are, as far above the bid as below the ask. */
  ghost predicate InTheMiddle(mid: Option<real>, bid: Option<real>, ask: Option<real>) {
    && (mid.Some? <==> bid.Some? && ask.Some?)
    && (mid.Some? ==> mid.value - bid.value == ask.value - mid.value)
  }

  /** What a read of `t` at `now` is to say after `es`, the events of `t`, have been applied. */
  ghost predicate Tells(es: seq<MarketEvent>, t: Topic, now: int, threshold: real, r: TopicSnapshot) {
    && r.topic == t
    && IsLast(es, (e: MarketEvent) => e.price, r.lastTrade)
    && IsLast(es, (e: MarketEvent) => e.bestBid, r.bestBid)
    && IsLast(es, (e: MarketEvent) => e.bestAsk, r.bestAsk)
    && InTheMiddle(r.midPrice, r.bestBid, r.bestAsk)
    && r.updatedAt.Some? && IsLatest(es, r.updatedAt.value)
    && (r.stale <==> forall i | 0 <= i < |es| :: (now - es[i].receivedAt.Utc()) as real > threshold)
  }

  lemma LastIsLast(es: seq<MarketEvent>, field: MarketEvent -> Option<real>)
    ensures IsLast(es, field, LastSome(es, field))
  {
    LastSomeIsLast(es, field);
  }

  lemma StaleWhenAllAreOld(es: seq<MarketEvent>, u: int, now: int, threshold: real)
    requires IsLatest(es, u)
    ensures IsStale(Some(u), now, threshold) <==>
      forall i | 0 <= i < |es| :: (now - es[i].receivedAt.Utc()) as real > threshold
  {
    var i :| 0 <= i < |es| && es[i].receivedAt.Utc() == u;
    forall j | 0 <= j < |es| ensures (now - es[j].receivedAt.Utc()) as real >= (now - u) as real {}
  }

  /**
   * What the store answers, told by the events alone: nothing for a topic without events; otherwise
   * the last known trade, bid and ask, the latest receive time, and whether all events are too old.
   */
  lemma ReadTellsHistory(es: seq<MarketEvent>, t: Topic, now: int, threshold: real)
    ensures t in Fold(map[], es) <==> Project(es, t) != []
    ensures t in Fold(map[], es) ==>
      Tells(Project(es, t), t, now, threshold, SnapshotOf(t, Fold(map[], es)[t], now, threshold))
  {
    var p := Project(es, t);
    StoreRowIsProjection(map[], es, t);
    if p != [] {
      RowIsHistory(p);
      LastIsLast(p, (e: MarketEvent) => e.price);
      LastIsLast(p, (e: MarketEvent) => e.bestBid);
      LastIsLast(p, (e: MarketEvent) => e.bestAsk);
      StaleWhenAllAreOld(p, FoldRow(None, p).value.updatedAt, now, threshold);
    }
  }

  predicate HasEvents(es: seq<MarketEvent>, t: Topic) {
    Project(es, t) != []
  }

  /** The listing: the topics that have events, each once and in order, and what each read tells. */
  ghost predicate Lists(es: seq<MarketEvent>, now: int, threshold: real, r: seq<TopicSnapshot>) {
    && (forall i, j | 0 <= i < j < |r| :: r[i].topic != r[j].topic && Le(r[i].topic, r[j].topic))
    && (forall t | HasEvents(es, t) :: exists i :: 0 <= i < |r| && r[i].topic == t)
    && (forall i | 0 <= i < |r| ::
          HasEvents(es, r[i].topic) && Tells(Project(es, r[i].topic), r[i].topic, now, threshold, r[i]))
  }

  lemma ListedTells(es: seq<MarketEvent>, t: Topic, now: int, threshold: real, r: TopicSnapshot)
    requires t in Fold(map[], es) && r == SnapshotOf(t, Fold(map[], es)[t], now, threshold)
    ensures r.topic == t && HasEvents(es, t) && Tells(Project(es, t), t, now, threshold, r)
  {
    ReadTellsHistory(es, t, now, threshold);
  }

  lemma ListsEvery(es: seq<MarketEvent>, keys: seq<Topic>, t: Topic, now: int, threshold: real)
    requires HasEvents(es, t) && forall u :: u in keys <==> u in Fold(map[], es)
    ensures exists i :: 0 <= i < |keys| && keys[i] == t
  {
    ReadTellsHistory(es, t, now, threshold);
    assert t in keys;
  }

  lemma ListingTellsHistory(es: seq<MarketEvent>, now: int, threshold: real)
    ensures Lists(es, now, threshold, SnapshotsFor(Fold(map[], es), Sorted(Fold(map[], es).Keys), now, threshold))
  {
    var store := Fold(map[], es);
    var keys := Sorted(store.Keys);
    SortedIsSorted(store.Keys);
    SnapshotsForCoversStore(store, keys, now, threshold);
    ListingOf(es, keys, now, threshold, SnapshotsFor(store, keys, now, threshold));
  }

  lemma ListingOf(es: seq<MarketEvent>, keys: seq<Topic>, now: int, threshold: real, r: seq<TopicSnapshot>)
    requires Ascending(keys) && |r| == |keys| && forall u :: u in keys <==> u in Fold(map[], es)
    requires forall i | 0 <= i < |r| :: r[i] == SnapshotOf(keys[i], Fold(map[], es)[keys[i]], now, threshold)
    ensures Lists(es, now, threshold, r)
  {
    forall i | 0 <= i < |r|
      ensures r[i].topic == keys[i] && HasEvents(es, keys[i])
      ensures Tells(Project(es, keys[i]), keys[i], now, threshold, r[i])
    {
      ListedTells(es, keys[i], now, threshold, r[i]);
    }
    forall t | HasEvents(es, t) ensures exists i :: 0 <= i < |r| && r[i].topic == t {
      ListsEvery(es, keys, t, now, threshold);
      var i :| 0 <= i < |keys| && keys[i] == t;
      assert r[i].topic == t;
    }
  }

  function SnapshotsFor(store: Store, keys: seq<Topic>, now: int, threshold: real): seq<TopicSnapshot> {
    if keys == [] then []
    else
      var t := keys[|keys| - 1];
      SnapshotsFor(store, keys[..|keys| - 1], now, threshold) +
      if t in store then [SnapshotOf(t, store[t], now, threshold)] else []
  }

  lemma SnapshotsForStep(store: Store, keys: seq<Topic>, k: nat, now: int, threshold: real)
    requires k < |keys| && keys[k] in store
    ensures SnapshotsFor(store, keys[..k + 1], now, threshold) ==
      SnapshotsFor(store, keys[..k], now, threshold) + [SnapshotOf(keys[k], store[keys[k]], now, threshold)]
  {
    assert keys[..k + 1][..k] == keys[..k];
  }

  /** The listing over a store's sorted keys has one snapshot per row, in topic order. */
  lemma {:induction false} SnapshotsForCoversStore(store: Store, keys: seq<Topic>, now: int, threshold: real)
    requires forall t | t in keys :: t in store
    ensures var r := SnapshotsFor(store, keys, now, threshold);
      && |r| == |keys|
      && forall i | 0 <= i < |keys| :: r[i] == SnapshotOf(keys[i], store[keys[i]], now, threshold)
  {
    if keys != [] {
      SnapshotsForCoversStore(store, keys[..|keys| - 1], now, threshold);
    }
  }

  /** `_TopicRow`: created empty, so every field is optional. */
  class TopicRow {
    var lastTrade: Option<real>
    var bestBid: Option<real>
    var bestAsk: Option<real>
    var updatedAt: Option<int>

    constructor ()
      ensures lastTrade == None && bestBid == None && bestAsk == None && updatedAt == None
    {
      lastTrade, bestBid, bestAsk, updatedAt := None, None, None, None;
    }

    /** A row that has seen no event yet is empty. */
    ghost predicate Valid()
      reads this
    {
      updatedAt.None? ==> lastTrade == None && bestBid == None && bestAsk == None
    }

    ghost function View(): Option<Row>
      reads this
    {
      if updatedAt.None? then None else Some(Row(lastTrade, bestBid, bestAsk, updatedAt.value))
    }

    method Merge(e: MarketEvent)
      requires Valid()
      modifies this
      ensures Valid() && View() == Some(ApplyTo(old(View()), e))
    {
      if e.price.Some? {
        lastTrade := e.price;
      }
      if e.bestBid.Some? {
        bestBid := e.bestBid;
      }
      if e.bestAsk.Some? {
        bestAsk := e.bestAsk;
      }
      var received := match e.receivedAt case Naive(t) => t case Aware(t, o) => t - o;
      if updatedAt.None? {
        updatedAt := Some(received);
      } else {
        updatedAt := Some(if updatedAt.value < received then received else updatedAt.value);
      }
    }
  }

  class SnapshotStore {
    const threshold: real
    var topics: map<Topic, TopicRow>
    ghost var model: Store
    /** Every event ever applied, in order. */
    ghost var history: seq<MarketEvent>
    ghost var Repr: set<object>

    /** The rows stand for what the history folds to. */
    ghost predicate Valid()
      reads this, Repr
    {
      Stands() && model == Fold(map[], history)
    }

    /** Rows are not shared, and a stored row has seen at least one event. */
    ghost predicate Stands()
      reads this, Repr
    {
      && this in Repr
      && (forall t | t in topics :: topics[t] in Repr)
      && (forall t, u | t in topics && u in topics && t != u :: topics[t] != topics[u])
      && (forall t | t in topics :: topics[t].Valid())
      && model.Keys == topics.Keys
      && (forall t | t in topics :: topics[t].View() == Some(model[t]))
    }

    constructor (threshold: real)
      requires threshold > 0.0
      ensures Valid() && fresh(Repr) && model == map[] && history == [] && this.threshold == threshold
    {
      this.threshold := threshold;
      topics, model, history := map[], map[], [];
      Repr := {this};
    }

    method ApplyEvent(e: MarketEvent)
      requires Valid()
      modifies Repr
      ensures Valid() && fresh(Repr - old(Repr))
      ensures model == Apply(old(model), e) && history == old(history) + [e]
    {
      FoldAppend(map[], history, e);
      MergeIntoRow(e);
      Remember(e);
    }

    ghost method Remember(e: MarketEvent)
      requires Stands()
      modifies this`history
      ensures Stands() && history == old(history) + [e]
    {
      history := history + [e];
    }

    method MergeIntoRow(e: MarketEvent)
      requires Stands()
      modifies Repr
      ensures Stands() && fresh(Repr - old(Repr)) && history == old(history)
      ensures model == Apply(old(model), e)
    {
      ghost var before := model;
      var row;
      if e.topic in topics {
        row := topics[e.topic];
      } else {
        row := new TopicRow();
        topics, Repr := topics[e.topic := row], Repr + {row};
      }
      assert row.View() == RowOf(before, e.topic);
      row.Merge(e);
      model := Apply(before, e);
    }

    method GetSnapshot(t: Topic, now: int) returns (r: Option<TopicSnapshot>)
      requires Valid()
      ensures r == if t in model then Some(SnapshotOf(t, model[t], now, threshold)) else None
      ensures r.None? <==> Project(history, t) == []
      ensures r.Some? ==> Tells(Project(history, t), t, now, threshold, r.value)
    {
      ReadTellsHistory(history, t, now, threshold);
      if t !in topics {
        return None;
      }
      r := Some(RowToSnapshot(t, topics[t], now));
    }

    method ListSnapshots(now: int) returns (r: seq<TopicSnapshot>)
      requires Valid()
      ensures r == SnapshotsFor(model, Sorted(model.Keys), now, threshold)
      ensures Lists(history, now, threshold, r)
    {
      ListingTellsHistory(history, now, threshold);
      ghost var store := model;
      assert store.Keys == topics.Keys;
      var keys := Sorted(topics.Keys);
      SortedIsSorted(topics.Keys);
      r := [];
      var k := 0;
      while k < |keys|
        invariant 0 <= k <= |keys|
        invariant r == SnapshotsFor(store, keys[..k], now, threshold)
      {
        SnapshotsForStep(store, keys, k, now, threshold);
        var snapshot := RowToSnapshot(keys[k], topics[keys[k]], now);
        assert topics[keys[k]].View() == Some(store[keys[k]]);
        assert snapshot == SnapshotOf(keys[k], store[keys[k]], now, threshold);
        r := r + [snapshot];
        k := k + 1;
      }
      assert keys[..k] == keys;
    }

    function RowToSnapshot(t: Topic, row: TopicRow, now: int): (r: TopicSnapshot)
      reads row
      ensures row.View().Some? ==> r == SnapshotOf(t, row.View().value, now, threshold)
    {
      TopicSnapshot(t, row.lastTrade, row.bestBid, row.bestAsk, MidPrice(row.bestBid, row.bestAsk),
                    row.updatedAt, IsStale(row.updatedAt, now, threshold))
    }
  }
}
