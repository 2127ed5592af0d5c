/** Quantile estimates from cumulative buckets. */
module Quantiles {
  import opened Histograms
  import opened Sorting

  predicate Below(a: Bound, b: Bound) {
    a.Finite? && (b.Finite? ==> a.x < b.x)
  }

  function Target(count: real, q: real): real {
    if count * q < 1.0 then 1.0 else count * q
  }

  predicate Reaches(buckets: map<Bound, real>, x: real, target: real) {
    Finite(x) in buckets && buckets[Finite(x)] >= target
  }

  /** `r` is the greatest finite bound, or 0 when every bound is infinite. */
  ghost predicate IsTop(buckets: map<Bound, real>, r: real) {
    && (forall y :: Finite(y) in buckets ==> y <= r)
    && (if exists y :: Finite(y) in buckets then Finite(r) in buckets else r == 0.0)
  }

  /** `r` is the least finite bound whose bucket reaches the target, or the top when none does. */
  ghost predicate IsReached(buckets: map<Bound, real>, target: real, r: real) {
    if exists x :: Reaches(buckets, x, target) then
      Reaches(buckets, r, target) && forall y :: Reaches(buckets, y, target) ==> r <= y
    else IsTop(buckets, r)
  }

  ghost predicate IsQuantile(buckets: map<Bound, real>, count: real, q: real, r: real) {
    if buckets == map[] || count <= 0.0 then r == 0.0 else IsReached(buckets, Target(count, q), r)
  }

  ghost function Quantile(buckets: map<Bound, real>, count: real, q: real): (r: real)
    ensures IsQuantile(buckets, count, q, r)
  {
    QuantileExists(buckets, count, q);
    var r :| IsQuantile(buckets, count, q, r);
    r
  }

  lemma QuantileUnique(buckets: map<Bound, real>, count: real, q: real, r: real)
    requires IsQuantile(buckets, count, q, r)
    ensures r == Quantile(buckets, count, q)
  {
  }

  lemma QuantileExists(buckets: map<Bound, real>, count: real, q: real)
    ensures exists r :: IsQuantile(buckets, count, q, r)
  {
    var target := Target(count, q);
    var finite := set b | b in buckets && b.Finite?;
    var reaching := set b | b in finite && buckets[b] >= target;
    var r := 0.0;
    if buckets == map[] || count <= 0.0 {
    } else if reaching != {} {
      var least := LeastOf(reaching, Below);
      r := least.x;
      assert Reaches(buckets, r, target);
      forall y | Reaches(buckets, y, target) ensures r <= y {
        assert Finite(y) in reaching;
      }
    } else if finite != {} {
      var top := LeastOf(finite, (a: Bound, b: Bound) => Below(b, a));
      r := top.x;
      assert Finite(r) in buckets;
      forall y | Finite(y) in buckets ensures y <= r && !Reaches(buckets, y, target) {
        assert Finite(y) in finite && Finite(y) !in reaching;
      }
    } else {
      assert forall y :: Finite(y) !in finite;
    }
    assert IsQuantile(buckets, count, q, r);
  }

  /** Collect the bounds in whatever order the map yields them, sort, and scan. */
  method HistogramQuantile(buckets: map<Bound, real>, count: real, q: real) returns (r: real)
    ensures r == Quantile(buckets, count, q)
  {
    if buckets == map[] || count <= 0.0 {
      QuantileUnique(buckets, count, q, 0.0);
      return 0.0;
    }
    var bounds := SortedBounds(buckets.Keys);
    var target := count * q;
    if target < 1.0 {
      target := 1.0;
    }
    r := ScanBounds(buckets, bounds, target);
    QuantileUnique(buckets, count, q, r);
  }

  method SortedBounds(keys: set<Bound>) returns (bounds: seq<Bound>)
    ensures SortedBy(bounds, Below) && forall b :: b in bounds <==> b in keys
  {
    bounds := [];
    var left := keys;
    while left != {}
      invariant forall b :: b in keys <==> b in bounds || b in left
      decreases left
    {
      var bound :| bound in left;
      bounds := bounds + [bound];
      left := left - {bound};
    }
    var sorted := Sort(bounds, Below);
    assert forall b :: b in sorted <==> b in multiset(sorted);
    assert forall b :: b in bounds <==> b in multiset(bounds);
    bounds := sorted;
  }

  method ScanBounds(buckets: map<Bound, real>, bounds: seq<Bound>, target: real) returns (r: real)
    requires SortedBy(bounds, Below) && forall b :: b in bounds <==> b in buckets
    ensures IsReached(buckets, target, r)
  {
    var lastFinite := 0.0;
    for n := 0 to |bounds|
      invariant forall j :: 0 <= j < n ==> buckets[bounds[j]] < target
      invariant forall j :: 0 <= j < n && bounds[j].Finite? ==> bounds[j].x <= lastFinite
      invariant if exists j :: 0 <= j < n && bounds[j].Finite? then Finite(lastFinite) in buckets else lastFinite == 0.0
    {
      var bound := bounds[n];
      assert bound in bounds;
      var cum := buckets[bound];
      if bound.Finite? {
        assert forall j :: 0 <= j < n && bounds[j].Finite? ==> !Below(bound, bounds[j]);
        lastFinite := bound.x;
      }
      if cum >= target {
        FirstReached(buckets, bounds, target, n);
        if bound.PosInf? {
          return lastFinite;
        }
        assert bound == Finite(bound.x) && Reaches(buckets, bound.x, target);
        return bound.x;
      }
    }
    FirstReached(buckets, bounds, target, |bounds|);
    return lastFinite;
  }

  /** When the bounds before position `n` miss the target, any finite bound that reaches it is at `n` or later. */
  lemma FirstReached(buckets: map<Bound, real>, bounds: seq<Bound>, target: real, n: nat)
    requires SortedBy(bounds, Below) && (forall b :: b in bounds <==> b in buckets) && n <= |bounds|
    requires forall j :: 0 <= j < n ==> bounds[j] in buckets && buckets[bounds[j]] < target
    ensures forall y :: Reaches(buckets, y, target) ==> n < |bounds| && bounds[n].Finite? && bounds[n].x <= y
    ensures forall y :: Finite(y) in buckets && (n == |bounds| || bounds[n].PosInf?) ==>
              exists j :: 0 <= j < n && bounds[j] == Finite(y)
  {
    forall y | Finite(y) in buckets
      ensures exists j :: 0 <= j < |bounds| && bounds[j] == Finite(y) && (n < j ==> !Below(bounds[j], bounds[n]))
    {
      assert Finite(y) in bounds;
    }
  }

  lemma TargetMonotone(count: real, q1: real, q2: real)
    requires q1 <= q2 && count >= 0.0
    ensures Target(count, q1) <= Target(count, q2)
  {
    var a, b := count * q1, count * q2;
    assert a <= b;
    assert Target(count, q1) == if a < 1.0 then 1.0 else a;
  }

  /** More demanding quantiles are never smaller, whatever the buckets hold. */
  lemma QuantileMonotone(buckets: map<Bound, real>, count: real, q1: real, q2: real)
    requires q1 <= q2
    ensures Quantile(buckets, count, q1) <= Quantile(buckets, count, q2)
  {
    var r1, r2 := Quantile(buckets, count, q1), Quantile(buckets, count, q2);
    if buckets != map[] && count > 0.0 {
      var t1, t2 := Target(count, q1), Target(count, q2);
      TargetMonotone(count, q1, q2);
      assert IsReached(buckets, t1, r1) && IsReached(buckets, t2, r2);
      assert forall x :: Reaches(buckets, x, t2) ==> Reaches(buckets, x, t1);
    }
  }
}
