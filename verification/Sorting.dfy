/** The library sort the program calls (sort.Slice), as a stable insertion sort over any
    strict weak order, with the two facts callers rely on: it permutes its input into order,
    and on pairwise comparable elements its result depends only on the multiset sorted. */
module Sorting {

  predicate Distinct<T(==)>(s: seq<T>) { forall i, j :: 0 <= i < j < |s| ==> s[i] != s[j] }

  /** What sort.Slice demands of its comparison. */
  ghost predicate StrictWeak<T(!new)>(less: (T, T) -> bool) {
    && (forall x :: !less(x, x))
    && (forall x, y, z :: less(x, y) && less(y, z) ==> less(x, z))
    && (forall x, y, z :: !less(x, y) && !less(y, z) ==> !less(x, z))
  }

  ghost predicate InOrder<T>(s: seq<T>, less: (T, T) -> bool) {
    forall i, j :: 0 <= i < j < |s| ==> !less(s[j], s[i])
  }

  ghost predicate StrictlyInOrder<T>(s: seq<T>, less: (T, T) -> bool) {
    forall i, j :: 0 <= i < j < |s| ==> less(s[i], s[j])
  }

  /** No two positions tie. */
  ghost predicate NoTies<T>(s: seq<T>, less: (T, T) -> bool) {
    forall i, j :: 0 <= i < j < |s| ==> less(s[i], s[j]) || less(s[j], s[i])
  }

  function Insert<T>(x: T, s: seq<T>, less: (T, T) -> bool): seq<T> {
    if |s| == 0 then [x]
    else if less(x, s[|s| - 1]) then Insert(x, s[..|s| - 1], less) + [s[|s| - 1]]
    else s + [x]
  }

  function Sort<T>(s: seq<T>, less: (T, T) -> bool): seq<T> {
    if |s| == 0 then [] else Insert(s[|s| - 1], Sort(s[..|s| - 1], less), less)
  }

  lemma OrderedSnoc<T(!new)>(s: seq<T>, x: T, less: (T, T) -> bool)
    requires InOrder(s, less) && forall y <- multiset(s) :: !less(x, y)
    ensures InOrder(s + [x], less)
  {
    forall i | 0 <= i < |s| ensures !less(x, s[i]) {
      assert s[i] in multiset(s);
    }
  }

  lemma LastIsLargest<T(!new)>(front: seq<T>, last: T, less: (T, T) -> bool)
    requires InOrder(front + [last], less)
    ensures InOrder(front, less) && forall y <- multiset(front) :: !less(last, y)
  {
    var s := front + [last];
    forall i, j | 0 <= i < j < |front| ensures !less(front[j], front[i]) { assert s[i] == front[i] && s[j] == front[j]; }
    forall y <- multiset(front) ensures !less(last, y) {
      var i := IndexIn(front, y);
      assert s[i] == y && s[|front|] == last;
    }
  }

  lemma NotBefore<T(!new)>(front: seq<T>, last: T, x: T, less: (T, T) -> bool)
    requires StrictWeak(less) && !less(x, last) && forall y <- multiset(front) :: !less(last, y)
    ensures forall y <- multiset(front + [last]) :: !less(x, y)
  {
    forall y | y in multiset(front + [last]) ensures !less(x, y) { assert y == last || y in multiset(front); }
  }

  lemma {:induction false} InsertKeepsOrder<T(!new)>(x: T, s: seq<T>, less: (T, T) -> bool)
    requires StrictWeak(less) && InOrder(s, less)
    ensures InOrder(Insert(x, s, less), less)
    ensures multiset(Insert(x, s, less)) == multiset(s) + multiset{x}
  {
    if |s| > 0 {
      var front, last := s[..|s| - 1], s[|s| - 1];
      assert s == front + [last];
      LastIsLargest(front, last, less);
      if less(x, last) {
        InsertKeepsOrder(x, front, less);
        OrderedSnoc(Insert(x, front, less), last, less);
      } else {
        NotBefore(front, last, x, less);
        OrderedSnoc(s, x, less);
      }
    }
  }

  lemma {:induction false} SortSorts<T(!new)>(s: seq<T>, less: (T, T) -> bool)
    requires StrictWeak(less)
    ensures InOrder(Sort(s, less), less)
    ensures multiset(Sort(s, less)) == multiset(s)
    ensures |Sort(s, less)| == |s|
  {
    if |s| > 0 {
      SortSorts(s[..|s| - 1], less);
      InsertKeepsOrder(s[|s| - 1], Sort(s[..|s| - 1], less), less);
      assert s == s[..|s| - 1] + [s[|s| - 1]];
    }
    assert |multiset(Sort(s, less))| == |multiset(s)|;
  }

  lemma PairIsContained<T>(s: seq<T>, i: nat, j: nat)
    requires i < j < |s|
    ensures multiset{s[i], s[j]} <= multiset(s)
  {
    assert s == s[..j] + ([s[j]] + s[j + 1..]);
    assert s[i] in s[..j];
    assert multiset(s) == multiset(s[..j]) + (multiset{s[j]} + multiset(s[j + 1..]));
  }

  lemma PairIsFound<T>(s: seq<T>, x: T, y: T) returns (k: nat, l: nat)
    requires multiset{x, y} <= multiset(s)
    ensures k < |s| && l < |s| && k != l && s[k] == x && s[l] == y
  {
    k := IndexIn(s, x);
    var rest := s[..k] + s[k + 1..];
    assert s == s[..k] + ([x] + s[k + 1..]);
    assert multiset(s) == multiset(s[..k]) + (multiset{x} + multiset(s[k + 1..]));
    assert multiset(rest) == multiset(s) - multiset{x};
    l := IndexIn(rest, y);
    l := if l < k then l else l + 1;
  }

  /** Ties are a property of the multiset, so sorting cannot introduce one. */
  lemma NoTiesIsPermutable<T(!new)>(a: seq<T>, b: seq<T>, less: (T, T) -> bool)
    requires NoTies(a, less) && multiset(a) == multiset(b)
    ensures NoTies(b, less)
  {
    forall i, j | 0 <= i < j < |b| ensures less(b[i], b[j]) || less(b[j], b[i]) {
      PairIsContained(b, i, j);
      var k, l := PairIsFound(a, b[i], b[j]);
    }
  }

  lemma SameMultisetSameSize<T>(a: seq<T>, b: seq<T>)
    requires multiset(a) == multiset(b)
    ensures |a| == |b|
  {
    assert |multiset(a)| == |a| && |multiset(b)| == |b|;
  }

  lemma IndexIn<T>(s: seq<T>, x: T) returns (i: nat)
    requires x in multiset(s)
    ensures i < |s| && s[i] == x
  {
    assert x in s;
    i :| 0 <= i < |s| && s[i] == x;
  }

  /** Permutations stay permutations when a common element is taken out of both. */
  lemma TakeOut<T>(a: seq<T>, b: seq<T>, i: nat)
    requires |a| > 0 && i < |b| && b[i] == a[0] && multiset(a) == multiset(b)
    ensures multiset(a[1..]) == multiset(b[..i] + b[i + 1..])
  {
    assert a == [a[0]] + a[1..];
    assert b == b[..i] + ([b[i]] + b[i + 1..]);
    assert multiset(a) == multiset{a[0]} + multiset(a[1..]);
    assert multiset(b) == multiset(b[..i]) + (multiset{b[i]} + multiset(b[i + 1..]));
    assert multiset(b[..i] + b[i + 1..]) == multiset(b[..i]) + multiset(b[i + 1..]);
    assert multiset(a[1..]) == multiset(a) - multiset{a[0]};
    assert multiset(b[..i] + b[i + 1..]) == multiset(b) - multiset{b[i]};
  }

  lemma SortIsStrict<T(!new)>(s: seq<T>, less: (T, T) -> bool)
    requires StrictWeak(less) && NoTies(s, less)
    ensures StrictlyInOrder(Sort(s, less), less)
  {
    SortSorts(s, less);
    NoTiesIsPermutable(s, Sort(s, less), less);
  }

  lemma SameFirst<T(!new)>(a: seq<T>, b: seq<T>, less: (T, T) -> bool)
    requires StrictWeak(less) && StrictlyInOrder(a, less) && StrictlyInOrder(b, less)
    requires |a| > 0 && |b| > 0 && multiset(a) == multiset(b)
    ensures a[0] == b[0]
  {
    assert a[0] in multiset(a) && b[0] in multiset(b);
    var i := IndexIn(b, a[0]);
    var j := IndexIn(a, b[0]);
    assert i > 0 ==> less(b[0], b[i]);
  }

  lemma {:induction false} StrictOrderIsUnique<T(!new)>(a: seq<T>, b: seq<T>, less: (T, T) -> bool)
    requires StrictWeak(less) && StrictlyInOrder(a, less) && StrictlyInOrder(b, less)
    requires multiset(a) == multiset(b)
    ensures a == b
  {
    assert |multiset(a)| == |a| && |multiset(b)| == |b|;
    if |a| > 0 {
      SameFirst(a, b, less);
      assert a == [a[0]] + a[1..] && b == [b[0]] + b[1..];
      assert multiset(a[1..]) == multiset(a) - multiset{a[0]};
      assert multiset(b[1..]) == multiset(b) - multiset{b[0]};
      StrictOrderIsUnique(a[1..], b[1..], less);
    }
  }

  /** Sorting permutations of tie-free input gives one and the same sequence. */
  lemma SortForgetsInputOrder<T(!new)>(a: seq<T>, b: seq<T>, less: (T, T) -> bool)
    requires StrictWeak(less) && NoTies(a, less) && multiset(a) == multiset(b)
    ensures Sort(a, less) == Sort(b, less)
  {
    SortSorts(a, less);
    SortSorts(b, less);
    NoTiesIsPermutable(a, b, less);
    SortIsStrict(a, less);
    SortIsStrict(b, less);
    StrictOrderIsUnique(Sort(a, less), Sort(b, less), less);
  }

  /** An already ordered sequence is left as it is. */
  lemma {:induction false} SortOfOrdered<T(!new)>(s: seq<T>, less: (T, T) -> bool)
    requires InOrder(s, less)
    ensures Sort(s, less) == s
  {
    if |s| > 0 {
      SortOfOrdered(s[..|s| - 1], less);
      assert s == s[..|s| - 1] + [s[|s| - 1]];
      if |s| > 1 { assert !less(s[|s| - 1], s[|s| - 2]); }
    }
  }
}
