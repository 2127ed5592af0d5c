/** Labelled cumulative histograms and their pointwise sum. */
module Histograms {

  datatype Bound = Finite(x: real) | PosInf

  datatype Histogram = Histogram(buckets: map<Bound, real>, sum: real, count: real)

  datatype SeriesKey = SeriesKey(routeId: string, upstreamId: string, serviceId: string)

  datatype PhaseSeries = PhaseSeries(key: SeriesKey, phase: string)

  type SeriesMap = map<PhaseSeries, Histogram>

  const EMPTY := Histogram(map[], 0.0, 0.0)

  /** Reading an absent bucket gives zero. */
  function Bucket(buckets: map<Bound, real>, b: Bound): real {
    if b in buckets then buckets[b] else 0.0
  }

  function AddBuckets(a: map<Bound, real>, b: map<Bound, real>): map<Bound, real> {
    map le | le in a.Keys + b.Keys :: Bucket(a, le) + Bucket(b, le)
  }

  function AddHistogram(g: Histogram, h: Histogram): Histogram {
    Histogram(AddBuckets(g.buckets, h.buckets), g.sum + h.sum, g.count + h.count)
  }

  function Lookup(m: SeriesMap, k: PhaseSeries): Histogram {
    if k in m then m[k] else EMPTY
  }

  /** Pointwise sum: the key sets and the bucket sets are united. */
  function Plus(m: SeriesMap, n: SeriesMap): SeriesMap {
    map k | k in m.Keys + n.Keys :: AddHistogram(Lookup(m, k), Lookup(n, k))
  }

  lemma AddBucketsUnit(a: map<Bound, real>)
    ensures AddBuckets(a, map[]) == a == AddBuckets(map[], a)
  {
  }

  lemma AddHistogramUnit(h: Histogram)
    ensures AddHistogram(h, EMPTY) == h && AddHistogram(EMPTY, h) == h
  {
    AddBucketsUnit(h.buckets);
  }

  lemma AddHistogramCommutes(g: Histogram, h: Histogram)
    ensures AddHistogram(g, h) == AddHistogram(h, g)
  {
    assert AddBuckets(g.buckets, h.buckets) == AddBuckets(h.buckets, g.buckets);
  }

  lemma AddHistogramAssociates(f: Histogram, g: Histogram, h: Histogram)
    ensures AddHistogram(AddHistogram(f, g), h) == AddHistogram(f, AddHistogram(g, h))
  {
    AddBucketsAssociates(f.buckets, g.buckets, h.buckets);
  }

  lemma AddBucketsAssociates(a: map<Bound, real>, b: map<Bound, real>, c: map<Bound, real>)
    ensures AddBuckets(AddBuckets(a, b), c) == AddBuckets(a, AddBuckets(b, c))
  {
    var l, r := AddBuckets(AddBuckets(a, b), c), AddBuckets(a, AddBuckets(b, c));
    assert l.Keys == r.Keys;
    forall le | le in l ensures l[le] == r[le] {
      BucketOfSum(a, b, le);
      BucketOfSum(b, c, le);
    }
  }

  lemma BucketOfSum(a: map<Bound, real>, b: map<Bound, real>, le: Bound)
    ensures Bucket(AddBuckets(a, b), le) == Bucket(a, le) + Bucket(b, le)
  {
  }

  lemma PlusUnit(m: SeriesMap)
    ensures Plus(m, map[]) == m && Plus(map[], m) == m
  {
    forall k | k in m ensures AddHistogram(m[k], EMPTY) == m[k] == AddHistogram(EMPTY, m[k]) {
      AddHistogramUnit(m[k]);
    }
    assert Plus(m, map[]) == m;
    assert Plus(map[], m) == m;
  }

  lemma PlusCommutes(m: SeriesMap, n: SeriesMap)
    ensures Plus(m, n) == Plus(n, m)
  {
    forall k | k in m.Keys + n.Keys ensures Plus(m, n)[k] == Plus(n, m)[k] {
      AddHistogramCommutes(Lookup(m, k), Lookup(n, k));
    }
  }

  lemma PlusLookup(m: SeriesMap, n: SeriesMap, k: PhaseSeries)
    ensures Lookup(Plus(m, n), k) == AddHistogram(Lookup(m, k), Lookup(n, k))
  {
    AddHistogramUnit(EMPTY);
  }

  lemma PlusAssociates(l: SeriesMap, m: SeriesMap, n: SeriesMap)
    ensures Plus(Plus(l, m), n) == Plus(l, Plus(m, n))
  {
    hide AddHistogram, Lookup;
    var a, b := Plus(Plus(l, m), n), Plus(l, Plus(m, n));
    assert a.Keys == b.Keys;
    forall k | k in a ensures a[k] == b[k] {
      PlusLookup(l, m, k);
      PlusLookup(m, n, k);
      AddHistogramAssociates(Lookup(l, k), Lookup(m, k), Lookup(n, k));
    }
  }
}
