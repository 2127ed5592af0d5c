/** What the bucket counts say about the samples behind them. */
module Samples {
  import opened Histograms
  import opened Sorting
  import opened Quantiles

  predicate Within(x: real, b: Bound) {
    b.Finite? ==> x <= b.x
  }

  /** How many samples a cumulative bucket has counted. */
  function CountLe(samples: seq<real>, b: Bound): (n: nat)
    ensures n <= |samples|
  {
    if samples == [] then 0 else (if Within(samples[0], b) then 1 else 0) + CountLe(samples[1..], b)
  }

  /** The cumulative buckets an exporter keeps for a list of samples. */
  function Cumulative(samples: seq<real>, bounds: set<Bound>): map<Bound, real> {
    map b | b in bounds :: CountLe(samples, b) as real
  }

  function Ceil(x: real): (n: int)
    ensures n as real - 1.0 < x <= n as real
  {
    -((-x).Floor)
  }

  /** The nearest-rank position, counted from 1. */
  function Rank(n: nat, q: real): int {
    Ceil(Target(n as real, q))
  }

  ghost predicate Ascending(s: seq<real>) {
    forall i, j :: 0 <= i < j < |s| ==> s[i] <= s[j]
  }

  lemma {:induction false} CountAppend(a: seq<real>, c: seq<real>, b: Bound)
    ensures CountLe(a + c, b) == CountLe(a, b) + CountLe(c, b)
  {
    if a == [] {
      assert a + c == c;
    } else {
      assert (a + c)[1..] == a[1..] + c;
      CountAppend(a[1..], c, b);
    }
  }

  lemma {:induction false} CountPermutation(a: seq<real>, c: seq<real>, b: Bound)
    requires multiset(a) == multiset(c)
    ensures CountLe(a, b) == CountLe(c, b)
  {
    if a == [] {
      assert |multiset(c)| == 0;
    } else {
      var k := Removable(a, c);
      var front, back := c[..k], c[k + 1..];
      CountPermutation(a[1..], back + front, b);
      CountAppend(back, front, b);
      assert c == front + ([a[0]] + back) && ([a[0]] + back)[1..] == back;
      CountAppend(front, [a[0]] + back, b);
    }
  }

  /** In sorted order, at least `k` samples are within a bound exactly when the `k`-th one is. */
  lemma {:induction false} CountSorted(s: seq<real>, x: real, k: int)
    requires Ascending(s) && 1 <= k <= |s|
    ensures CountLe(s, Finite(x)) >= k <==> s[k - 1] <= x
  {
    var rest := s[1..];
    if s[0] > x {
      CountNone(rest, x);
    } else if k > 1 {
      CountSorted(rest, x, k - 1);
    }
  }

  lemma {:induction false} CountNone(s: seq<real>, x: real)
    requires forall i :: 0 <= i < |s| ==> s[i] > x
    ensures CountLe(s, Finite(x)) == 0
  {
    if s != [] {
      CountNone(s[1..], x);
    }
  }

  lemma RankInRange(n: nat, q: real)
    requires n >= 1 && q <= 1.0
    ensures 1 <= Rank(n, q) <= n
  {
    TargetMonotone(n as real, q, 1.0);
    assert n as real * 1.0 == n as real;
  }

  lemma ReachesRank(samples: seq<real>, ordered: seq<real>, bounds: set<Bound>, q: real, x: real)
    requires samples != [] && q <= 1.0 && Ascending(ordered) && multiset(ordered) == multiset(samples)
    ensures 1 <= Rank(|samples|, q) <= |ordered| == |samples|
    ensures Reaches(Cumulative(samples, bounds), x, Target(|samples| as real, q)) <==>
              Finite(x) in bounds && ordered[Rank(|samples|, q) - 1] <= x
  {
    assert |multiset(ordered)| == |multiset(samples)|;
    RankInRange(|samples|, q);
    CountPermutation(samples, ordered, Finite(x));
    CountSorted(ordered, x, Rank(|samples|, q));
  }

  /** The estimate is the least bound covering the nearest-rank sample, or the greatest finite bound when none does. */
  lemma QuantileSound(samples: seq<real>, ordered: seq<real>, bounds: set<Bound>, q: real)
    requires samples != [] && q <= 1.0 && Ascending(ordered) && multiset(ordered) == multiset(samples)
    ensures 1 <= Rank(|samples|, q) <= |ordered|
    ensures var r, s := Quantile(Cumulative(samples, bounds), |samples| as real, q), ordered[Rank(|samples|, q) - 1];
            if exists x :: Finite(x) in bounds && s <= x then
              Finite(r) in bounds && s <= r && forall y :: Finite(y) in bounds && s <= y ==> r <= y
            else IsTop(Cumulative(samples, bounds), r)
  {
    hide CountLe, Rank, Target;
    var buckets, target := Cumulative(samples, bounds), Target(|samples| as real, q);
    ReachesRank(samples, ordered, bounds, q, 0.0);
    var s := ordered[Rank(|samples|, q) - 1];
    forall x ensures Reaches(buckets, x, target) <==> Finite(x) in bounds && s <= x {
      ReachesRank(samples, ordered, bounds, q, x);
    }
    if buckets == map[] {
      assert forall x :: Finite(x) in bounds ==> Finite(x) in buckets;
    } else {
      assert IsReached(buckets, target, Quantile(buckets, |samples| as real, q));
    }
  }

  /** Some finite bucket reaches the target of the `q`-quantile. */
  ghost predicate InFiniteBucket(samples: seq<real>, bounds: set<Bound>, q: real) {
    var buckets, target := Cumulative(samples, bounds), Target(|samples| as real, q);
    exists x :: Reaches(buckets, x, target)
  }

  lemma CeilOfShare(n: real, q: real, c: int)
    requires c as real >= Target(n, q)
    ensures c >= Ceil(n * q)
  {
    var share := n * q;
    assert Ceil(share) as real - 1.0 < share <= c as real;
  }

  lemma ReachedCount(samples: seq<real>, bounds: set<Bound>, x: real, target: real)
    ensures Reaches(Cumulative(samples, bounds), x, target) ==> CountLe(samples, Finite(x)) as real >= target
  {
    hide CountLe;
  }

  /** A finite estimate that reaches its target covers the demanded share of the samples. */
  lemma QuantileCovers(samples: seq<real>, bounds: set<Bound>, q: real)
    requires samples != [] && InFiniteBucket(samples, bounds, q)
    ensures var r := Quantile(Cumulative(samples, bounds), |samples| as real, q);
            CountLe(samples, Finite(r)) >= Ceil(|samples| as real * q)
  {
    hide CountLe, Target, Ceil, Cumulative;
    var n := |samples| as real;
    var buckets := Cumulative(samples, bounds);
    var r := Quantile(buckets, n, q);
    assert Reaches(buckets, r, Target(n, q));
    ReachedCount(samples, bounds, r, Target(n, q));
    CeilOfShare(n, q, CountLe(samples, Finite(r)));
  }

  // ---------- Merging ----------

  lemma CumulativeAppend(a: seq<real>, c: seq<real>, bounds: set<Bound>)
    ensures Cumulative(a + c, bounds) == AddBuckets(Cumulative(a, bounds), Cumulative(c, bounds))
  {
    forall b | b in bounds ensures CountLe(a + c, b) == CountLe(a, b) + CountLe(c, b) {
      CountAppend(a, c, b);
    }
  }

  /** Whole-number counts that never fall as the bound grows. */
  ghost predicate IsCumulative(buckets: map<Bound, real>) {
    && (forall b :: b in buckets ==> buckets[b] == buckets[b].Floor as real)
    && (forall x, y :: Finite(x) in buckets && Finite(y) in buckets && x <= y ==>
          buckets[Finite(x)] <= buckets[Finite(y)])
  }

  lemma MergedReach(a: map<Bound, real>, na: real, c: map<Bound, real>, nc: real, q: real, x: real)
    requires a.Keys == c.Keys && IsCumulative(a) && IsCumulative(c) && na > 0.0 && nc > 0.0 && q > 0.0
    ensures Reaches(a, x, Target(na, q)) && Reaches(c, x, Target(nc, q)) ==>
      Reaches(AddBuckets(a, c), x, Target(na + nc, q))
    ensures Reaches(AddBuckets(a, c), x, Target(na + nc, q)) ==>
      Reaches(a, x, Target(na, q)) || Reaches(c, x, Target(nc, q))
  {
    assert (na + nc) * q == na * q + nc * q;
    assert na * q > 0.0 && nc * q > 0.0;
  }

  /** Merging two status classes keeps every positive quantile between the separate ones. */
  lemma MergeInRange(a: map<Bound, real>, na: real, c: map<Bound, real>, nc: real, q: real)
    requires a.Keys == c.Keys && IsCumulative(a) && IsCumulative(c) && na > 0.0 && nc > 0.0 && q > 0.0
    ensures var r, ra, rc := Quantile(AddBuckets(a, c), na + nc, q), Quantile(a, na, q), Quantile(c, nc, q);
            (ra <= r <= rc) || (rc <= r <= ra)
  {
    var m := AddBuckets(a, c);
    if a != map[] {
      var t, ta, tc := Target(na + nc, q), Target(na, q), Target(nc, q);
      var r, ra, rc := Quantile(m, na + nc, q), Quantile(a, na, q), Quantile(c, nc, q);
      assert m.Keys == a.Keys && m != map[];
      assert IsReached(m, t, r) && IsReached(a, ta, ra) && IsReached(c, tc, rc);
      hide *;
      MergedReach(a, na, c, nc, q, r);
      MergedReach(a, na, c, nc, q, ra);
      MergedReach(a, na, c, nc, q, rc);
      Between(a, ta, ra, c, tc, rc, m, t, r);
    }
  }

  lemma Between(a: map<Bound, real>, ta: real, ra: real, c: map<Bound, real>, tc: real, rc: real,
                m: map<Bound, real>, t: real, r: real)
    requires a.Keys == c.Keys == m.Keys && IsCumulative(a) && IsCumulative(c)
    requires IsReached(a, ta, ra) && IsReached(c, tc, rc) && IsReached(m, t, r)
    requires forall x :: x in {ra, rc} && Reaches(a, x, ta) && Reaches(c, x, tc) ==> Reaches(m, x, t)
    requires Reaches(m, r, t) ==> Reaches(a, r, ta) || Reaches(c, r, tc)
    ensures (ra <= r <= rc) || (rc <= r <= ra)
  {
    assert forall y :: Finite(y) in a <==> Finite(y) in m;
    assert forall y :: Finite(y) in c <==> Finite(y) in m;
    if Reaches(a, ra, ta) && Reaches(c, rc, tc) {
      var x := if ra <= rc then rc else ra;
      assert Reaches(a, x, ta) && Reaches(c, x, tc);
      assert Reaches(m, x, t);
    }
  }

  lemma CumulativeIsCumulative(samples: seq<real>, bounds: set<Bound>)
    ensures IsCumulative(Cumulative(samples, bounds))
  {
    forall x, y | x <= y ensures CountLe(samples, Finite(x)) <= CountLe(samples, Finite(y)) {
      CountMonotone(samples, x, y);
    }
  }

  lemma {:induction false} CountMonotone(samples: seq<real>, x: real, y: real)
    requires x <= y
    ensures CountLe(samples, Finite(x)) <= CountLe(samples, Finite(y))
  {
    if samples != [] {
      CountMonotone(samples[1..], x, y);
    }
  }
}
