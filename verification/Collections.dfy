/** Shared value types and facts about sequences read as sets, used by every other module. */
module Collections {

  datatype Option<+T> = None | Some(value: T)

  /** The elements of a list, as Python's `set(xs)`. */
  function Elems<T>(xs: seq<T>): set<T> {
    set x | x in xs
  }

  predicate Disjoint(xs: seq<string>, ys: seq<string>) {
    Elems(xs) * Elems(ys) == {}
  }

  lemma ElemsCons<T>(x: T, xs: seq<T>)
    ensures Elems([x] + xs) == {x} + Elems(xs)
  {
  }

  lemma ElemsEmpty<T>(xs: seq<T>)
    ensures Elems(xs) == {} <==> xs == []
  {
    if xs != [] {
      assert xs[0] in Elems(xs);
    }
  }

  lemma ElemsConcat<T>(xs: seq<T>, ys: seq<T>)
    ensures Elems(xs + ys) == Elems(xs) + Elems(ys)
  {
  }

  /** Taking the head of one listing out of another listing of the same multiset. */
  lemma RemoveFirst<T>(a: seq<T>, b: seq<T>, i: nat)
    requires a != [] && i < |b| && b[i] == a[0]
    requires multiset(a) == multiset(b)
    ensures multiset(a[1..]) == multiset(b[..i] + b[i + 1..])
  {
    assert a == [a[0]] + a[1..];
    assert b == b[..i] + ([b[i]] + b[i + 1..]);
    assert multiset(a) == multiset{a[0]} + multiset(a[1..]);
    assert multiset(b) == multiset(b[..i]) + multiset{b[i]} + multiset(b[i + 1..]);
    assert multiset(a[1..]) == multiset(a) - multiset{a[0]};
    assert multiset(b[..i] + b[i + 1..]) == multiset(b) - multiset{b[i]};
  }

  /** Lexicographic order on strings by code point, as Python compares `str`. */
  predicate Before(a: string, b: string) {
    if b == [] then false
    else if a == [] then true
    else if a[0] != b[0] then a[0] < b[0]
    else Before(a[1..], b[1..])
  }

  lemma {:induction false} BeforeTotal(a: string, b: string)
    ensures a == b || Before(a, b) || Before(b, a)
    decreases |a|
  {
    if a != [] && b != [] && a[0] == b[0] {
      BeforeTotal(a[1..], b[1..]);
      assert a == [a[0]] + a[1..] && b == [b[0]] + b[1..];
    }
  }

  lemma {:induction false} BeforeTransitive(a: string, b: string, c: string)
    requires Before(a, b) && Before(b, c)
    ensures Before(a, c)
    decreases |a|
  {
    if a != [] && a[0] == b[0] == c[0] {
      BeforeTransitive(a[1..], b[1..], c[1..]);
    }
  }

  lemma {:induction false} BeforeIrreflexive(a: string)
    ensures !Before(a, a)
    decreases |a|
  {
    if a != [] {
      BeforeIrreflexive(a[1..]);
    }
  }

  /** Strictly increasing, hence free of duplicates. */
  ghost predicate Ascending(xs: seq<string>) {
    forall i, j :: 0 <= i < j < |xs| ==> Before(xs[i], xs[j])
  }

  function Insert(x: string, xs: seq<string>): (r: seq<string>)
    ensures Elems(r) == Elems(xs) + {x}
  {
    if xs == [] then [x]
    else if x == xs[0] then xs
    else if Before(x, xs[0]) then [x] + xs
    else
      assert xs == [xs[0]] + xs[1..];
      ElemsCons(xs[0], Insert(x, xs[1..]));
      [xs[0]] + Insert(x, xs[1..])
  }

  /** `sorted(set(xs))`. */
  function SortedSet(xs: seq<string>): (r: seq<string>)
    ensures Elems(r) == Elems(xs)
  {
    if xs == [] then []
    else
      assert xs == [xs[0]] + xs[1..];
      Insert(xs[0], SortedSet(xs[1..]))
  }

  lemma {:induction false} InsertKeepsAscending(x: string, xs: seq<string>)
    requires Ascending(xs)
    ensures Ascending(Insert(x, xs))
    decreases |xs|
  {
    if xs == [] || x == xs[0] {
    } else if Before(x, xs[0]) {
      forall j | 0 <= j < |xs| ensures Before(x, xs[j]) {
        if j > 0 { BeforeTransitive(x, xs[0], xs[j]); }
      }
    } else {
      BeforeTotal(x, xs[0]);
      InsertKeepsAscending(x, xs[1..]);
      var rest := Insert(x, xs[1..]);
      forall j | 0 <= j < |rest| ensures Before(xs[0], rest[j]) {
        assert rest[j] in Elems(rest);
      }
    }
  }

  lemma {:induction false} SortedSetIsAscending(xs: seq<string>)
    ensures Ascending(SortedSet(xs))
    decreases |xs|
  {
    if xs != [] {
      SortedSetIsAscending(xs[1..]);
      InsertKeepsAscending(xs[0], SortedSet(xs[1..]));
    }
  }

  /** A set of strings has one ascending listing. */
  lemma {:induction false} AscendingIsCanonical(a: seq<string>, b: seq<string>)
    requires Ascending(a) && Ascending(b) && Elems(a) == Elems(b)
    ensures a == b
    decreases |a|
  {
    if a == [] {
      ElemsEmpty(b);
    } else {
      assert a[0] in Elems(a);
      assert a[0] in Elems(b);
      assert b[0] in Elems(b);
      assert b[0] in Elems(a);
      var i :| 0 <= i < |a| && a[i] == b[0];
      var j :| 0 <= j < |b| && b[j] == a[0];
      if i > 0 && j > 0 {
        BeforeTransitive(a[0], b[0], a[0]);
        BeforeIrreflexive(a[0]);
      }
      assert a[0] == b[0];
      forall x ensures x in Elems(a[1..]) <==> x in Elems(b[1..]) {
        TailElems(a, x);
        TailElems(b, x);
      }
      AscendingIsCanonical(a[1..], b[1..]);
      assert a == [a[0]] + a[1..] && b == [b[0]] + b[1..];
    }
  }

  lemma TailElems(a: seq<string>, x: string)
    requires Ascending(a) && a != []
    ensures x in Elems(a[1..]) <==> x in Elems(a) && x != a[0]
  {
    BeforeIrreflexive(a[0]);
    assert a == [a[0]] + a[1..];
    if x in a[1..] {
      var i :| 0 <= i < |a[1..]| && a[1..][i] == x;
      assert Before(a[0], a[i + 1]);
    }
  }

  /** Sorting a list that has the same elements as an already sorted one gives the sorted one back. */
  lemma SortedSetCanonical(xs: seq<string>, ys: seq<string>)
    requires Elems(xs) == Elems(ys)
    ensures SortedSet(xs) == SortedSet(ys)
  {
    SortedSetIsAscending(xs);
    SortedSetIsAscending(ys);
    AscendingIsCanonical(SortedSet(xs), SortedSet(ys));
  }

  /** The members of `xs` that are also in `ys`. */
  function Common(xs: seq<string>, ys: seq<string>): (r: seq<string>)
    ensures Elems(r) == Elems(xs) * Elems(ys)
  {
    if xs == [] then []
    else
      assert xs == [xs[0]] + xs[1..];
      ElemsCons(xs[0], Common(xs[1..], ys));
      if xs[0] in ys then [xs[0]] + Common(xs[1..], ys) else Common(xs[1..], ys)
  }

  /** `sorted(set(xs) & set(ys))`. */
  function SortedCommon(xs: seq<string>, ys: seq<string>): (r: seq<string>)
    ensures Elems(r) == Elems(xs) * Elems(ys)
  {
    SortedSet(Common(xs, ys))
  }

  /** `sorted(set(xs) | set(ys))`. */
  function SortedUnion(xs: seq<string>, ys: seq<string>): (r: seq<string>)
    ensures Elems(r) == Elems(xs) + Elems(ys)
  {
    SortedSet(xs + ys)
  }

  function MinInt(a: int, b: int): int {
    if a <= b then a else b
  }

  function MaxInt(a: int, b: int): int {
    if a >= b then a else b
  }
}
