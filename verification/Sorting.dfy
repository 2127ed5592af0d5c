/** Sorting by a strict weak order, and removing one element from a rearranged list. */
module Sorting {

  ghost predicate SortedBy<T>(s: seq<T>, lt: (T, T) -> bool) {
    forall i, j :: 0 <= i < j < |s| ==> !lt(s[j], s[i])
  }

  /** What the Go sort functions demand of a less-than function. */
  ghost predicate WeakOrder<T(!new)>(lt: (T, T) -> bool) {
    && (forall a, b :: lt(a, b) ==> !lt(b, a))
    && (forall a, b, c :: !lt(b, a) && !lt(c, b) ==> !lt(c, a))
  }

  /** Stands for sort.Float64s and sort.Slice: callers may rely on order and contents only, not on stability. */
  method Sort<T(!new)>(s: seq<T>, lt: (T, T) -> bool) returns (r: seq<T>)
    requires WeakOrder(lt)
    ensures SortedBy(r, lt) && multiset(r) == multiset(s)
  {
    r := [];
    for n := 0 to |s|
      invariant SortedBy(r, lt) && multiset(r) == multiset(s[..n])
    {
      r := Insert(r, s[n], lt);
      assert s[..n + 1] == s[..n] + [s[n]];
    }
    assert s[..|s|] == s;
  }

  method Insert<T(!new)>(s: seq<T>, x: T, lt: (T, T) -> bool) returns (r: seq<T>)
    requires WeakOrder(lt) && SortedBy(s, lt)
    ensures SortedBy(r, lt) && multiset(r) == multiset(s + [x])
  {
    var k := |s|;
    while k > 0 && lt(x, s[k - 1])
      invariant 0 <= k <= |s| && (k < |s| ==> lt(x, s[k]))
    {
      k := k - 1;
    }
    r := s[..k] + [x] + s[k..];
    InsertedSorted(s, x, k, lt);
    hide *;
    InsertedContents(s, x, k);
  }

  lemma InsertedContents<T>(s: seq<T>, x: T, k: nat)
    requires k <= |s|
    ensures multiset(s[..k] + [x] + s[k..]) == multiset(s + [x])
  {
    assert s == s[..k] + s[k..];
    assert multiset(s) == multiset(s[..k]) + multiset(s[k..]);
  }

  lemma InsertedSorted<T(!new)>(s: seq<T>, x: T, k: nat, lt: (T, T) -> bool)
    requires WeakOrder(lt) && SortedBy(s, lt) && k <= |s|
    requires k > 0 ==> !lt(x, s[k - 1])
    requires k < |s| ==> lt(x, s[k])
    ensures SortedBy(s[..k] + [x] + s[k..], lt)
  {
    var r := s[..k] + [x] + s[k..];
    forall i, j | 0 <= i < j < |r| ensures !lt(r[j], r[i]) {
      var a, b := if i < k then i else i - 1, if j < k then j else j - 1;
      assert i != k ==> r[i] == s[a];
      assert j != k ==> r[j] == s[b];
      if j == k && i < k - 1 {
        assert !lt(s[k - 1], s[i]);
      } else if i == k && k < b {
        assert !lt(s[b], s[k]);
      }
    }
  }

  lemma Removable<T>(a: seq<T>, b: seq<T>) returns (k: nat)
    requires multiset(a) == multiset(b) && a != []
    ensures k < |b| && b[k] == a[0] && a == [a[0]] + a[1..] && b == b[..k] + ([a[0]] + b[k + 1..])
    ensures multiset(a[1..]) == multiset(b[k + 1..] + b[..k])
  {
    assert a[0] in multiset(b);
    k :| 0 <= k < |b| && b[k] == a[0];
    SplitAt(a, 0);
    SplitAt(b, k);
    WithoutFirst(a);
    Without(b, k);
  }

  lemma SplitAt<T>(b: seq<T>, k: nat)
    requires k < |b|
    ensures b == b[..k] + ([b[k]] + b[k + 1..])
  {
  }

  lemma Without<T>(b: seq<T>, k: nat)
    requires k < |b|
    ensures multiset(b[k + 1..] + b[..k]) == multiset(b) - multiset{b[k]}
  {
    MultisetAround(b, k);
  }

  lemma WithoutFirst<T>(a: seq<T>)
    requires a != []
    ensures multiset(a[1..]) == multiset(a) - multiset{a[0]} && a == [a[0]] + a[1..]
  {
    Without(a, 0);
    assert a[0 + 1..] + a[..0] == a[1..];
  }

  lemma MultisetAround<T>(b: seq<T>, k: nat)
    requires k < |b|
    ensures multiset(b) == multiset{b[k]} + multiset(b[k + 1..] + b[..k])
  {
    var front, back := b[..k], b[k + 1..];
    SplitAt(b, k);
    assert multiset(b) == multiset(front) + multiset([b[k]] + back);
    assert multiset([b[k]] + back) == multiset{b[k]} + multiset(back);
    assert multiset(back + front) == multiset(back) + multiset(front);
  }

  /** Every non-empty finite set has a least element. */
  lemma {:induction false} LeastOf<T(!new)>(s: set<T>, lt: (T, T) -> bool) returns (m: T)
    requires s != {} && WeakOrder(lt)
    ensures m in s && forall y :: y in s ==> !lt(y, m)
    decreases |s|
  {
    var x :| x in s;
    var rest := s - {x};
    if rest == {} {
      assert s == {x};
      m := x;
    } else {
      var k := LeastOf(rest, lt);
      assert forall y :: y in s ==> y == x || y in rest;
      m := if lt(k, x) then k else x;
    }
  }
}
