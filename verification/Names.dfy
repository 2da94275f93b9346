/** Identifiers shared by every component, and the order Python's `sorted` puts them in. */
module Names {
  datatype Name = Name(text: string)

  type Topic = Name
  type ConsumerId = Name

  datatype Option<+T> = None | Some(value: T)

  /** Lexicographic order on strings, as used by `sorted`. */
  predicate TextLe(a: string, b: string) {
    a == [] || (b != [] && (a[0] < b[0] || (a[0] == b[0] && TextLe(a[1..], b[1..]))))
  }

  predicate Le(a: Name, b: Name) {
    TextLe(a.text, b.text)
  }

  lemma {:induction false} TextLeTotal(a: string, b: string)
    ensures TextLe(a, b) || TextLe(b, a)
  {
    if a != [] && b != [] && a[0] == b[0] {
      TextLeTotal(a[1..], b[1..]);
    }
  }

  lemma {:induction false} TextLeAntisymmetric(a: string, b: string)
    requires TextLe(a, b) && TextLe(b, a)
    ensures a == b
  {
    if a != [] && b != [] {
      TextLeAntisymmetric(a[1..], b[1..]);
      assert a == [a[0]] + a[1..] && b == [b[0]] + b[1..];
    }
  }

  lemma {:induction false} TextLeTransitive(a: string, b: string, c: string)
    requires TextLe(a, b) && TextLe(b, c)
    ensures TextLe(a, c)
  {
    if a != [] && a[0] == b[0] == c[0] {
      TextLeTransitive(a[1..], b[1..], c[1..]);
    }
  }

  /** `a` agrees with `b` up to position `i`. */
  predicate SameUpTo(a: string, b: string, i: nat) {
    i <= |a| && i <= |b| && a[..i] == b[..i]
  }

  /**
   * What the order is: `a` comes first if it is a prefix of `b`, or has the smaller character where
   * the two differ for the first time.
   */
  lemma {:induction false} TextLeByPosition(a: string, b: string)
    ensures TextLe(a, b) <==>
      a <= b || exists i :: 0 <= i < |a| && i < |b| && SameUpTo(a, b, i) && a[i] < b[i]
  {
    if a != [] && b != [] && a[0] == b[0] {
      TextLeByPosition(a[1..], b[1..]);
      if a[1..] <= b[1..] {
        assert a == [a[0]] + a[1..] && b == [b[0]] + b[1..];
      }
      if i :| 0 <= i < |a[1..]| && i < |b[1..]| && SameUpTo(a[1..], b[1..], i) && a[1..][i] < b[1..][i] {
        assert a[..i + 1] == [a[0]] + a[1..][..i] && b[..i + 1] == [b[0]] + b[1..][..i];
        assert SameUpTo(a, b, i + 1) && a[i + 1] < b[i + 1];
      }
      if a <= b {
        assert a[1..] <= b[1..];
      }
      if i :| 0 <= i < |a| && i < |b| && SameUpTo(a, b, i) && a[i] < b[i] {
        assert a[1..][..i - 1] == a[..i][1..] && b[1..][..i - 1] == b[..i][1..];
        assert SameUpTo(a[1..], b[1..], i - 1) && a[1..][i - 1] < b[1..][i - 1];
      }
    } else if a != [] && b != [] {
      assert SameUpTo(a, b, 0);
      if i :| 0 <= i < |a| && i < |b| && SameUpTo(a, b, i) && a[i] < b[i] {
        if i > 0 { assert a[..i][0] == b[..i][0]; }
      }
    }
  }

  predicate IsLeast(x: Name, s: set<Name>) {
    x in s && forall y | y in s :: Le(x, y)
  }

  lemma {:induction false} LeastExists(s: set<Name>)
    requires s != {}
    ensures exists x :: IsLeast(x, s)
  {
    var a :| a in s;
    TextLeTotal(a.text, a.text);
    if s == {a} {
      assert IsLeast(a, s);
    } else {
      var rest := s - {a};
      assert s == rest + {a};
      assert rest != {};
      LeastExists(rest);
      var b :| IsLeast(b, rest);
      TextLeTotal(a.text, b.text);
      if Le(b, a) {
        assert IsLeast(b, s);
      } else {
        forall y | y in s ensures Le(a, y) {
          if y != a { TextLeTransitive(a.text, b.text, y.text); }
        }
        assert IsLeast(a, s);
      }
    }
  }

  lemma LeastUnique(s: set<Name>)
    ensures forall x, y | IsLeast(x, s) && IsLeast(y, s) :: x == y
  {
    forall x, y | IsLeast(x, s) && IsLeast(y, s) ensures x == y {
      TextLeAntisymmetric(x.text, y.text);
    }
  }

  function Least(s: set<Name>): (x: Name)
    requires s != {}
    ensures IsLeast(x, s)
  {
    LeastExists(s); LeastUnique(s);
    var x :| x in s && IsLeast(x, s);
    x
  }

  /** Python's `sorted` on a set. */
  function Sorted(s: set<Name>): seq<Name>
    decreases |s|
  {
    if s == {} then [] else [Least(s)] + Sorted(s - {Least(s)})
  }

  predicate Ascending(r: seq<Name>) {
    forall i, j | 0 <= i < j < |r| :: r[i] != r[j] && Le(r[i], r[j])
  }

  lemma {:induction false} SortedHas(s: set<Name>)
    ensures forall x :: x in Sorted(s) <==> x in s
    ensures |Sorted(s)| == |s|
    decreases |s|
  {
    if s != {} {
      var x := Least(s);
      SortedHas(s - {x});
      assert Sorted(s) == [x] + Sorted(s - {x});
    }
  }

  lemma AscendingCons(x: Name, rest: seq<Name>)
    requires Ascending(rest) && forall y | y in rest :: Le(x, y) && x != y
    ensures Ascending([x] + rest)
  {
  }

  lemma {:induction false} SortedAscends(s: set<Name>)
    ensures Ascending(Sorted(s))
    decreases |s|
  {
    if s != {} {
      var x := Least(s);
      SortedHas(s - {x});
      SortedAscends(s - {x});
      AscendingCons(x, Sorted(s - {x}));
    }
  }

  /** `Sorted` lists every element once, in ascending order. */
  lemma SortedIsSorted(s: set<Name>)
    ensures forall x :: x in Sorted(s) <==> x in s
    ensures |Sorted(s)| == |s|
    ensures Ascending(Sorted(s))
  {
    SortedHas(s);
    SortedAscends(s);
  }

  lemma SortedPair(a: Name, b: Name)
    requires a != b && Le(a, b)
    ensures Sorted({a, b}) == [a, b]
  {
    SortedIsSorted({a, b});
    var r := Sorted({a, b});
    assert |{a, b}| == 2;
    assert r[0] in {a, b} && r[1] in {a, b} && r[0] != r[1];
    if r[0] == b { TextLeAntisymmetric(a.text, b.text); }
    assert r == [a, b];
  }
}
