/** app/registry/connection_registry.py: who wants which topics, and the redundant reference counts. */
module Registry {
  import opened Names
  import opened MapSum

  /** The relation the registry stands for: every registered consumer with its topic set. */
  type Subscriptions = map<ConsumerId, set<Topic>>

  predicate Holds(m: Subscriptions, c: ConsumerId, t: Topic) {
    c in m && t in m[c]
  }

  function TopicsOf(m: Subscriptions, c: ConsumerId): set<Topic> {
    if c in m then m[c] else {}
  }

  function Holders(m: Subscriptions, t: Topic): set<ConsumerId> {
    set c | c in m && t in m[c]
  }

  predicate Wanted(m: Subscriptions, t: Topic) {
    exists c :: c in m && t in m[c]
  }

  function HeldTopics(m: Subscriptions): set<Topic> {
    set c, t | c in m && t in m[c] :: t
  }

  /** What the reference counts should be: one key per held topic, counting its holders. */
  function Counts(m: Subscriptions): map<Topic, nat> {
    map t | t in HeldTopics(m) :: |Holders(m, t)|
  }

  /** `_topic_refcount`: a missing key reads as zero (app/main.py:35-36). */
  function CountOf(refcounts: map<Topic, nat>, t: Topic): nat {
    if t in refcounts then refcounts[t] else 0
  }

  lemma HeldIffWanted(m: Subscriptions)
    ensures forall t :: t in HeldTopics(m) <==> Wanted(m, t)
  {
    forall t ensures t in HeldTopics(m) <==> Wanted(m, t) {
      if t in HeldTopics(m) { var c :| c in m && t in m[c]; assert Holds(m, c, t); }
    }
  }

  function Sizes(m: Subscriptions): map<ConsumerId, nat> {
    map c | c in m :: |m[c]|
  }

  // ---------------------------------------------------------------- counting

  /** A count is positive, and a key exists, exactly when somebody holds the topic. */
  lemma CountPositive(m: Subscriptions, t: Topic)
    ensures t in Counts(m) <==> Wanted(m, t)
    ensures CountOf(Counts(m), t) > 0 <==> Wanted(m, t)
    ensures CountOf(Counts(m), t) == |Holders(m, t)|
  {
    HeldIffWanted(m);
    if Wanted(m, t) {
      var c :| c in m && t in m[c];
      assert Holders(m, t) == {c} + (Holders(m, t) - {c});
    } else {
      assert Holders(m, t) == {};
    }
  }

  /** Adding one new pair adds one to that topic's count and leaves the others. */
  lemma CountsAdd(m: Subscriptions, c: ConsumerId, t: Topic)
    requires c in m && t !in m[c]
    ensures Counts(m[c := m[c] + {t}]) == Counts(m)[t := CountOf(Counts(m), t) + 1]
  {
    var n := m[c := m[c] + {t}];
    assert Holds(n, c, t);
    CountPositive(m, t);
    assert Holders(n, t) == Holders(m, t) + {c};
    HeldIffWanted(m);
    HeldIffWanted(n);
    forall u | u != t ensures Wanted(n, u) <==> Wanted(m, u) {
      if Wanted(m, u) { var d :| d in m && u in m[d]; assert Holds(n, d, u); }
      if Wanted(n, u) { var d :| d in n && u in n[d]; assert Holds(m, d, u); }
    }
    forall u | u != t ensures Holders(n, u) == Holders(m, u) {}
    assert Counts(n).Keys == Counts(m).Keys + {t};
  }

  /** `_decrement_topic_refcount`: the key goes when the count reaches zero. */
  function Decremented(refcounts: map<Topic, nat>, t: Topic): map<Topic, nat> {
    if CountOf(refcounts, t) - 1 <= 0 then refcounts - {t} else refcounts[t := CountOf(refcounts, t) - 1]
  }

  /** Removing one pair is one decrement, and the decrement finds a key that is at least one. */
  lemma CountsRemove(m: Subscriptions, c: ConsumerId, t: Topic)
    requires Holds(m, c, t)
    ensures t in Counts(m) && Counts(m)[t] >= 1
    ensures Counts(m[c := m[c] - {t}]) == Decremented(Counts(m), t)
  {
    var n := m[c := m[c] - {t}];
    CountPositive(m, t);
    CountPositive(n, t);
    assert Holders(n, t) == Holders(m, t) - {c};
    HeldIffWanted(m);
    HeldIffWanted(n);
    forall u | u != t ensures Wanted(n, u) <==> Wanted(m, u) {
      if Wanted(m, u) { var d :| d in m && u in m[d]; assert Holds(n, d, u); }
      if Wanted(n, u) { var d :| d in n && u in n[d]; assert Holds(m, d, u); }
    }
    forall u | u != t ensures Holders(n, u) == Holders(m, u) {}
    assert forall u :: u in Counts(n) <==> u in Decremented(Counts(m), t);
  }

  /** A consumer without topics does not count. */
  lemma CountsIgnoreEmpty(m: Subscriptions, c: ConsumerId)
    requires c !in m
    ensures Counts(m[c := {}]) == Counts(m)
  {
    var n := m[c := {}];
    forall u ensures Holders(n, u) == Holders(m, u) {}
    HeldIffWanted(m);
    HeldIffWanted(n);
    forall u ensures Wanted(n, u) <==> Wanted(m, u) {
      if Wanted(m, u) { var d :| d in m && u in m[d]; assert Holds(n, d, u); }
      if Wanted(n, u) { var d :| d in n && u in n[d]; assert Holds(m, d, u); }
    }
    assert Counts(n).Keys == Counts(m).Keys;
  }

  /** Taking one pair away lowers both sums by one. */
  lemma OnePairFewer(m: Subscriptions, c: ConsumerId, t: Topic)
    requires Holds(m, c, t)
    ensures Sum(Counts(m)) == Sum(Counts(m[c := m[c] - {t}])) + 1
    ensures Sum(Sizes(m)) == Sum(Sizes(m[c := m[c] - {t}])) + 1
  {
    var n := m[c := m[c] - {t}];
    SumUpdate(Sizes(m), c, |m[c] - {t}|);
    assert Sizes(n) == Sizes(m)[c := |m[c] - {t}|];
    CountsRemove(m, c, t);
    var counts := Counts(m);
    if counts[t] == 1 {
      SumRemove(counts, t);
    } else {
      SumUpdate(counts, t, counts[t] - 1);
    }
  }

  /** Double counting: summing the holders per topic equals summing the topics per consumer. */
  lemma {:induction false} PairsCountedTwice(m: Subscriptions)
    ensures Sum(Counts(m)) == Sum(Sizes(m))
    decreases |m|, Sum(Sizes(m))
  {
    if m == map[] {
      assert Counts(m) == map[] && Sizes(m) == map[];
    } else {
      var c :| c in m;
      if m[c] == {} {
        var n := m - {c};
        assert n.Keys == m.Keys - {c} && m == n[c := {}];
        CountsIgnoreEmpty(n, c);
        PairsCountedTwice(n);
        assert Sizes(m) - {c} == Sizes(n);
        SumRemove(Sizes(m), c);
      } else {
        var t :| t in m[c];
        OnePairFewer(m, c, t);
        var n := m[c := m[c] - {t}];
        assert |n| == |m| by { assert n.Keys == m.Keys && |n.Keys| == |n| && |m.Keys| == |m|; }
        PairsCountedTwice(n);
      }
    }
  }

  // ------------------------------------------------------------------ classes

  /** `_ConsumerState`: the in-memory record of one downstream connection. */
  class ConsumerState {
    var topics: set<Topic>

    constructor ()
      ensures topics == {}
    {
      topics := {};
    }
  }

  datatype Outcome = Ok | ValueError

  datatype ConsumerRow = ConsumerRow(consumer: ConsumerId, topics: seq<Topic>)

  /** What `get_status` returns (the connection ages are left out). */
  datatype Status = Status(
    activeConsumers: nat,
    refcounts: map<Topic, nat>,
    activeTopics: seq<Topic>,
    totalPairs: nat,
    rows: seq<ConsumerRow>)

  /** The record of `c` in a status, or the empty list when there is none (app/main.py:306-310). */
  function TopicsIn(rows: seq<ConsumerRow>, c: ConsumerId): seq<Topic> {
    if rows == [] then []
    else if rows[0].consumer == c then rows[0].topics
    else TopicsIn(rows[1..], c)
  }

  function RowsFor(m: Subscriptions, ids: seq<ConsumerId>): seq<ConsumerRow>
  {
    if ids == [] then []
    else
      var c := ids[|ids| - 1];
      RowsFor(m, ids[..|ids| - 1]) + [ConsumerRow(c, Sorted(TopicsOf(m, c)))]
  }

  /** The rows `get_status` lists: one per consumer, by identifier. */
  function Rows(m: Subscriptions): seq<ConsumerRow> {
    RowsFor(m, Sorted(m.Keys))
  }

  lemma {:induction false} LookupAppended(rows: seq<ConsumerRow>, row: ConsumerRow, c: ConsumerId)
    ensures TopicsIn(rows + [row], c) ==
      if forall i | 0 <= i < |rows| :: rows[i].consumer != c
      then (if row.consumer == c then row.topics else [])
      else TopicsIn(rows, c)
  {
    if rows != [] {
      assert (rows + [row])[1..] == rows[1..] + [row];
      LookupAppended(rows[1..], row, c);
      assert rows == [rows[0]] + rows[1..];
      if rows[0].consumer != c {
        assert (forall i | 0 <= i < |rows| :: rows[i].consumer != c) <==>
          (forall i | 0 <= i < |rows[1..]| :: rows[1..][i].consumer != c) by {
          assert forall i | 0 < i < |rows| :: rows[i] == rows[1..][i - 1];
        }
      }
    }
  }

  lemma {:induction false} RowsAreNamed(m: Subscriptions, ids: seq<ConsumerId>)
    ensures |RowsFor(m, ids)| == |ids|
    ensures forall i | 0 <= i < |ids| :: RowsFor(m, ids)[i].consumer == ids[i]
  {
    if ids != [] {
      RowsAreNamed(m, ids[..|ids| - 1]);
    }
  }

  /** Looking a consumer up in the listed rows finds exactly its topics. */
  lemma {:induction false} LookupInRows(m: Subscriptions, ids: seq<ConsumerId>, c: ConsumerId)
    requires forall d | d in ids :: d in m
    ensures TopicsIn(RowsFor(m, ids), c) == if c in ids then Sorted(TopicsOf(m, c)) else []
  {
    if ids != [] {
      var front, last := ids[..|ids| - 1], ids[|ids| - 1];
      assert ids == front + [last];
      LookupInRows(m, front, c);
      RowsAreNamed(m, front);
      LookupAppended(RowsFor(m, front), ConsumerRow(last, Sorted(TopicsOf(m, last))), c);
      if c in front {
        var i :| 0 <= i < |front| && front[i] == c;
        assert RowsFor(m, front)[i].consumer == c;
      }
    }
  }

  lemma RowsForStep(m: Subscriptions, ids: seq<ConsumerId>, k: nat)
    requires k < |ids|
    ensures RowsFor(m, ids[..k + 1]) == RowsFor(m, ids[..k]) + [ConsumerRow(ids[k], Sorted(TopicsOf(m, ids[k])))]
  {
    assert ids[..k + 1][..k] == ids[..k];
  }

  lemma StatusFindsTopics(m: Subscriptions, c: ConsumerId)
    ensures TopicsIn(Rows(m), c) == if c in m then Sorted(m[c]) else []
  {
    SortedIsSorted(m.Keys);
    LookupInRows(m, Sorted(m.Keys), c);
  }

  /** The rows are one per consumer, in the order of the identifiers, each with its sorted topics. */
  lemma RowsListAll(m: Subscriptions)
    ensures |Rows(m)| == |m|
    ensures forall i, j | 0 <= i < j < |Rows(m)| ::
      Rows(m)[i].consumer != Rows(m)[j].consumer && Le(Rows(m)[i].consumer, Rows(m)[j].consumer)
    ensures forall i | 0 <= i < |Rows(m)| :: Rows(m)[i].consumer in m
    ensures forall i | 0 <= i < |Rows(m)| ::
      var row := Rows(m)[i];
      Ascending(row.topics) && forall t :: t in row.topics <==> Holds(m, row.consumer, t)
  {
    var ids := Sorted(m.Keys);
    SortedIsSorted(m.Keys);
    assert |m| == |m.Keys|;
    RowsAreNamed(m, ids);
    forall i | 0 <= i < |Rows(m)|
      ensures Rows(m)[i].consumer in m && Rows(m)[i].topics == Sorted(m[Rows(m)[i].consumer])
    {
      RowsHaveTopics(m, ids, i);
      assert ids[i] in m.Keys;
    }
    forall i | 0 <= i < |Rows(m)|
      ensures Ascending(Rows(m)[i].topics) && forall t :: t in Rows(m)[i].topics <==> Holds(m, Rows(m)[i].consumer, t)
    {
      SortedIsSorted(m[Rows(m)[i].consumer]);
    }
  }

  lemma {:induction false} RowsHaveTopics(m: Subscriptions, ids: seq<ConsumerId>, i: nat)
    requires i < |ids|
    ensures |RowsFor(m, ids)| == |ids|
    ensures RowsFor(m, ids)[i] == ConsumerRow(ids[i], Sorted(TopicsOf(m, ids[i])))
  {
    RowsAreNamed(m, ids);
    if i < |ids| - 1 {
      RowsHaveTopics(m, ids[..|ids| - 1], i);
    }
  }

  function Positive(refcounts: map<Topic, nat>, keys: seq<Topic>): seq<Topic>
  {
    if keys == [] then []
    else
      var t := keys[|keys| - 1];
      Positive(refcounts, keys[..|keys| - 1]) + if CountOf(refcounts, t) > 0 then [t] else []
  }

  function Total(refcounts: map<Topic, nat>, keys: seq<Topic>): nat
  {
    if keys == [] then 0
    else Total(refcounts, keys[..|keys| - 1]) + CountOf(refcounts, keys[|keys| - 1])
  }

  lemma {:induction false} PositiveIsAll(refcounts: map<Topic, nat>, keys: seq<Topic>)
    requires forall t | t in keys :: CountOf(refcounts, t) > 0
    ensures Positive(refcounts, keys) == keys
  {
    if keys != [] {
      var front, t := keys[..|keys| - 1], keys[|keys| - 1];
      assert keys == front + [t];
      PositiveIsAll(refcounts, front);
    }
  }

  lemma WithoutLast(refcounts: map<Topic, nat>, keys: seq<Topic>)
    requires keys != [] && forall t :: t in keys <==> t in refcounts
    requires forall i, j | 0 <= i < j < |keys| :: keys[i] != keys[j]
    ensures var front, t := keys[..|keys| - 1], keys[|keys| - 1];
      t in refcounts && t !in front && forall u :: u in front <==> u in refcounts - {t}
  {
    assert keys == keys[..|keys| - 1] + [keys[|keys| - 1]];
  }

  lemma {:induction false} TotalIsSum(refcounts: map<Topic, nat>, keys: seq<Topic>)
    requires forall t :: t in keys <==> t in refcounts
    requires forall i, j | 0 <= i < j < |keys| :: keys[i] != keys[j]
    ensures Total(refcounts, keys) == Sum(refcounts)
  {
    if keys == [] {
      assert refcounts == map[];
    } else {
      var front, t := keys[..|keys| - 1], keys[|keys| - 1];
      WithoutLast(refcounts, keys);
      TotalIsSum(refcounts - {t}, front);
      TotalFrame(refcounts, t, front);
      SumRemove(refcounts, t);
    }
  }

  lemma {:induction false} TotalFrame(refcounts: map<Topic, nat>, t: Topic, keys: seq<Topic>)
    requires t !in keys
    ensures Total(refcounts, keys) == Total(refcounts - {t}, keys)
  {
    if keys != [] {
      TotalFrame(refcounts, t, keys[..|keys| - 1]);
    }
  }

  /** The topics `get_status` lists as active, and the total it reports, mean what they say. */
  lemma StatusTotals(m: Subscriptions)
    ensures Positive(Counts(m), Sorted(Counts(m).Keys)) == Sorted(HeldTopics(m))
    ensures Total(Counts(m), Sorted(Counts(m).Keys)) == Sum(Sizes(m))
  {
    var keys := Sorted(Counts(m).Keys);
    SortedIsSorted(Counts(m).Keys);
    TotalIsSum(Counts(m), keys);
    PairsCountedTwice(m);
    assert Counts(m).Keys == HeldTopics(m);
    forall t | t in keys ensures CountOf(Counts(m), t) > 0 {
      CountPositive(m, t);
    }
    PositiveIsAll(Counts(m), keys);
  }

  class ConnectionRegistry {
    var consumers: map<ConsumerId, ConsumerState>
    var refcounts: map<Topic, nat>
    /** The relation the two maps stand for. */
    ghost var model: Subscriptions
    ghost var Repr: set<object>

    /** Consumers do not share records; the records and the counts agree with the relation. */
    ghost predicate Valid()
      reads this, Repr
    {
      && this in Repr
      && (forall c | c in consumers :: consumers[c] in Repr)
      && (forall a, b | a in consumers && b in consumers && a != b :: consumers[a] != consumers[b])
      && model.Keys == consumers.Keys
      && (forall c | c in consumers :: consumers[c].topics == model[c])
      && refcounts == Counts(model)
    }

    constructor ()
      ensures Valid() && fresh(Repr)
      ensures model == map[]
    {
      consumers, refcounts := map[], map[];
      model := map[];
      Repr := {this};
    }

    method RegisterConsumer(c: ConsumerId) returns (r: Outcome)
      requires Valid()
      modifies this
      ensures Valid() && fresh(Repr - old(Repr))
      ensures r == ValueError <==> c in old(model)
      ensures model == if c in old(model) then old(model) else old(model)[c := {}]
    {
      if c in consumers {
        return ValueError;
      }
      CountsIgnoreEmpty(model, c);
      var state := new ConsumerState();
      consumers := consumers[c := state];
      model := model[c := {}];
      Repr := Repr + {state};
      r := Ok;
    }

    method UnregisterConsumer(c: ConsumerId)
      requires Valid()
      modifies Repr
      ensures Valid() && Repr == old(Repr)
      ensures model == old(model) - {c}
    {
      if c !in consumers {
        assert model - {c} == model;
        return;
      }
      var state := consumers[c];
      consumers := consumers - {c};
      DecrementAll(c, state.topics);
      state.topics := {};
      model := model - {c};
    }

    /** The loop of `unregister_consumer`: one decrement for every topic `c` held. */
    method DecrementAll(c: ConsumerId, topics: set<Topic>)
      requires c in model && topics == model[c] && refcounts == Counts(model)
      modifies this`refcounts
      ensures refcounts == Counts(model - {c})
    {
      ghost var rest := model - {c};
      assert rest[c := topics] == model;
      var remaining := topics;
      while remaining != {}
        invariant remaining <= topics
        invariant refcounts == Counts(rest[c := remaining])
        decreases remaining
      {
        var t :| t in remaining;
        CountsRemove(rest[c := remaining], c, t);
        assert rest[c := remaining][c := remaining - {t}] == rest[c := remaining - {t}];
        DecrementRefcount(t);
        remaining := remaining - {t};
      }
      CountsIgnoreEmpty(rest, c);
    }

    method Subscribe(c: ConsumerId, t: Topic) returns (r: Outcome)
      requires Valid()
      modifies Repr
      ensures Valid() && Repr == old(Repr)
      ensures r == ValueError <==> c !in old(model)
      ensures model == if c in old(model) then old(model)[c := old(model)[c] + {t}] else old(model)
    {
      if c !in consumers {
        return ValueError;
      }
      r := Ok;
      var state := consumers[c];
      if t in state.topics {
        assert model[c] + {t} == model[c] && model[c := model[c]] == model;
        return;
      }
      CountsAdd(model, c, t);
      state.topics := state.topics + {t};
      IncrementRefcount(t);
      model := model[c := model[c] + {t}];
    }

    method Unsubscribe(c: ConsumerId, t: Topic)
      requires Valid()
      modifies Repr
      ensures Valid() && Repr == old(Repr)
      ensures model == if c in old(model) then old(model)[c := old(model)[c] - {t}] else old(model)
    {
      if c !in consumers {
        return;
      }
      var state := consumers[c];
      if t !in state.topics {
        assert model[c] - {t} == model[c] && model[c := model[c]] == model;
        return;
      }
      CountsRemove(model, c, t);
      assert t in refcounts;
      state.topics := state.topics - {t};
      DecrementRefcount(t);
      model := model[c := model[c] - {t}];
    }

    method GetStatus() returns (s: Status)
      requires Valid()
      ensures s.activeConsumers == |model|
      ensures s.refcounts == Counts(model)
      ensures s.activeTopics == Sorted(HeldTopics(model)) && Ascending(s.activeTopics)
      ensures forall t :: t in s.activeTopics <==> Wanted(model, t)
      ensures s.totalPairs == Sum(Sizes(model))
      ensures s.rows == Rows(model)
    {
      assert |consumers| == |model| by {
        assert model.Keys == consumers.Keys && |model| == |model.Keys| && |consumers| == |consumers.Keys|;
      }
      StatusTotals(model);
      SortedIsSorted(HeldTopics(model));
      HeldIffWanted(model);
      var rows := ConsumerRows();
      var active, total := Totals();
      s := Status(|consumers|, refcounts, active, total, rows);
    }

    /** The topics with a positive count, in order, and the sum of the counts. */
    method Totals() returns (active: seq<Topic>, total: nat)
      ensures active == Positive(refcounts, Sorted(refcounts.Keys))
      ensures total == Total(refcounts, Sorted(refcounts.Keys))
    {
      var keys := Sorted(refcounts.Keys);
      active, total := [], 0;
      var j := 0;
      while j < |keys|
        invariant 0 <= j <= |keys|
        invariant active == Positive(refcounts, keys[..j])
        invariant total == Total(refcounts, keys[..j])
      {
        assert keys[..j + 1][..j] == keys[..j];
        var n := CountOf(refcounts, keys[j]);
        if n > 0 {
          active := active + [keys[j]];
        }
        total := total + n;
        j := j + 1;
      }
      assert keys[..j] == keys;
    }

    /** The per-consumer rows of the status, in the order of the identifiers. */
    method ConsumerRows() returns (rows: seq<ConsumerRow>)
      requires Valid()
      ensures rows == Rows(model)
    {
      ghost var m := model;
      assert m.Keys == consumers.Keys;
      var ids := Sorted(consumers.Keys);
      SortedIsSorted(consumers.Keys);
      rows := [];
      var k := 0;
      while k < |ids|
        invariant 0 <= k <= |ids|
        invariant rows == RowsFor(m, ids[..k])
      {
        RowsForStep(m, ids, k);
        assert TopicsOf(m, ids[k]) == consumers[ids[k]].topics;
        rows := rows + [ConsumerRow(ids[k], Sorted(consumers[ids[k]].topics))];
        k := k + 1;
      }
      assert ids[..k] == ids;
    }

    method IncrementRefcount(t: Topic)
      modifies this`refcounts
      ensures refcounts == old(refcounts)[t := CountOf(old(refcounts), t) + 1]
    {
      refcounts := refcounts[t := (if t in refcounts then refcounts[t] else 0) + 1];
    }

    method DecrementRefcount(t: Topic)
      modifies this`refcounts
      ensures refcounts == Decremented(old(refcounts), t)
    {
      var n: int := if t in refcounts then refcounts[t] as int - 1 else -1;
      if n <= 0 {
        refcounts := refcounts - {t};
      } else {
        refcounts := refcounts[t := n];
      }
    }
  }
}
