/**
 * The rent histogram of `/api/stats/buckets` (index.js:240-267).
 *
 * Edges are in yuan and stored rents in cents, so a rent `c` is compared with
 * an edge `a` as `c >= a * 100`. One COUNT query runs per edge: bucket `i`
 * holds the rents in `[edges[i], edges[i+1])`, the last one those at or above
 * the last edge.
 */
module RentBuckets {
  import opened DecimalText

  /** The edge list the endpoint uses, in yuan. */
  const StatsEdges: seq<nat> := [0, 1000, 2000, 3000, 5000, 8000, 10000]

  const CentsPerYuan: nat := 100

  predicate Ascending(edges: seq<nat>)
  {
    forall i, j :: 0 <= i < j < |edges| ==> edges[i] <= edges[j]
  }

  /** `SELECT COUNT(*) ... WHERE monthly_rent >= lo`. */
  function CountAtLeast(rents: seq<int>, lo: int): (n: nat)
    ensures n <= |rents|
  {
    if rents == [] then 0
    else (if lo <= rents[0] then 1 else 0) + CountAtLeast(rents[1..], lo)
  }

  /** `SELECT COUNT(*) ... WHERE monthly_rent >= lo AND monthly_rent < hi`. */
  function CountBetween(rents: seq<int>, lo: int, hi: int): (n: nat)
    ensures n <= |rents|
  {
    if rents == [] then 0
    else (if lo <= rents[0] < hi then 1 else 0) + CountBetween(rents[1..], lo, hi)
  }

  /** Whether rent `c` (cents) lies in bucket `j`. */
  predicate InBucket(edges: seq<nat>, j: nat, c: int)
    requires j < |edges|
  {
    if j + 1 < |edges| then edges[j] * CentsPerYuan <= c < edges[j + 1] * CentsPerYuan
    else edges[j] * CentsPerYuan <= c
  }

  function BucketLabel(edges: seq<nat>, j: nat): string
    requires j < |edges|
  {
    if j + 1 < |edges| then FromNat(edges[j]) + "-" + FromNat(edges[j + 1])
    else FromNat(edges[j]) + "+"
  }

  function BucketCount(edges: seq<nat>, j: nat, rents: seq<int>): nat
    requires j < |edges|
  {
    if j + 1 < |edges| then CountBetween(rents, edges[j] * CentsPerYuan, edges[j + 1] * CentsPerYuan)
    else CountAtLeast(rents, edges[j] * CentsPerYuan)
  }

  function Labels(edges: seq<nat>): (labels: seq<string>)
    ensures |labels| == |edges|
  {
    seq(|edges|, j requires 0 <= j < |edges| => BucketLabel(edges, j))
  }

  function Histogram(edges: seq<nat>, rents: seq<int>): (counts: seq<nat>)
    ensures |counts| == |edges|
  {
    seq(|edges|, j requires 0 <= j < |edges| => BucketCount(edges, j, rents))
  }

  function Total(counts: seq<nat>): nat
  {
    if counts == [] then 0 else Total(counts[..|counts| - 1]) + counts[|counts| - 1]
  }

  /** The loop of the endpoint: one label and one count per edge, pushed in order. */
  method Buckets(edges: seq<nat>, rents: seq<int>) returns (labels: seq<string>, counts: seq<nat>)
    ensures labels == Labels(edges)
    ensures counts == Histogram(edges, rents)
  {
    labels, counts := [], [];
    for i := 0 to |edges|
      invariant |labels| == i && |counts| == i
      invariant forall j :: 0 <= j < i ==> labels[j] == BucketLabel(edges, j)
      invariant forall j :: 0 <= j < i ==> counts[j] == BucketCount(edges, j, rents)
    {
      var a := edges[i];
      var name: string, c: nat;
      if i + 1 == |edges| {
        name := FromNat(a) + "+";
        c := CountAtLeast(rents, a * CentsPerYuan);
      } else {
        var b := edges[i + 1];
        name := FromNat(a) + "-" + FromNat(b);
        c := CountBetween(rents, a * CentsPerYuan, b * CentsPerYuan);
      }
      assert name == BucketLabel(edges, i) && c == BucketCount(edges, i, rents);
      labels := labels + [name];
      counts := counts + [c];
    }
    assert forall j :: 0 <= j < |edges| ==> Labels(edges)[j] == labels[j];
    assert forall j :: 0 <= j < |edges| ==> Histogram(edges, rents)[j] == counts[j];
  }

  /** An ascending edge list starting at or below a rent puts that rent in exactly one bucket. */
  lemma ExactlyOneBucket(edges: seq<nat>, c: int)
    requires |edges| > 0 && Ascending(edges) && edges[0] * CentsPerYuan <= c
    ensures exists j :: 0 <= j < |edges| && InBucket(edges, j, c)
    ensures forall i, j :: 0 <= i < |edges| && 0 <= j < |edges| && InBucket(edges, i, c) && InBucket(edges, j, c) ==> i == j
  {
    var k := 0;
    while k + 1 < |edges| && edges[k + 1] * CentsPerYuan <= c
      invariant 0 <= k < |edges| && edges[k] * CentsPerYuan <= c
    {
      k := k + 1;
    }
    assert InBucket(edges, k, c);
  }

  lemma {:induction false} CountBetweenEmpty(rents: seq<int>, lo: int)
    ensures CountBetween(rents, lo, lo) == 0
  {
    if rents != [] {
      CountBetweenEmpty(rents[1..], lo);
    }
  }

  lemma {:induction false} SplitBetween(rents: seq<int>, lo: int, mid: int, hi: int)
    requires lo <= mid <= hi
    ensures CountBetween(rents, lo, mid) + CountBetween(rents, mid, hi) == CountBetween(rents, lo, hi)
  {
    if rents != [] {
      SplitBetween(rents[1..], lo, mid, hi);
    }
  }

  lemma {:induction false} SplitAtLeast(rents: seq<int>, lo: int, hi: int)
    requires lo <= hi
    ensures CountBetween(rents, lo, hi) + CountAtLeast(rents, hi) == CountAtLeast(rents, lo)
  {
    if rents != [] {
      SplitAtLeast(rents[1..], lo, hi);
    }
  }

  lemma {:induction false} AllAtLeast(rents: seq<int>, lo: int)
    requires forall k :: 0 <= k < |rents| ==> lo <= rents[k]
    ensures CountAtLeast(rents, lo) == |rents|
  {
    if rents != [] {
      AllAtLeast(rents[1..], lo);
    }
  }

  /** The first `k` bounded buckets together count the rents in `[edges[0], edges[k])`. */
  lemma {:induction false} PrefixTotal(edges: seq<nat>, rents: seq<int>, k: nat)
    requires Ascending(edges) && k < |edges|
    ensures Total(Histogram(edges, rents)[..k]) == CountBetween(rents, edges[0] * CentsPerYuan, edges[k] * CentsPerYuan)
  {
    var h := Histogram(edges, rents);
    if k == 0 {
      CountBetweenEmpty(rents, edges[0] * CentsPerYuan);
    } else {
      PrefixTotal(edges, rents, k - 1);
      assert h[..k][..k - 1] == h[..k - 1];
      SplitBetween(rents, edges[0] * CentsPerYuan, edges[k - 1] * CentsPerYuan, edges[k] * CentsPerYuan);
    }
  }

  /**
   * The buckets partition the rents: when every rent is at or above the first
   * edge (with the edges of the endpoint: every non-negative rent), the counts
   * add up to the number of rents.
   */
  lemma HistogramCountsEveryRent(edges: seq<nat>, rents: seq<int>)
    requires |edges| > 0 && Ascending(edges)
    requires forall k :: 0 <= k < |rents| ==> edges[0] * CentsPerYuan <= rents[k]
    ensures Total(Histogram(edges, rents)) == |rents|
  {
    var h := Histogram(edges, rents);
    var last := |edges| - 1;
    PrefixTotal(edges, rents, last);
    assert h == h[..last] + [h[last]];
    SplitAtLeast(rents, edges[0] * CentsPerYuan, edges[last] * CentsPerYuan);
    AllAtLeast(rents, edges[0] * CentsPerYuan);
  }

  /** Edges [0, 1000, 2000] are labelled "0-1000", "1000-2000" and "2000+". */
  lemma SmallLabelsExample()
    ensures Labels([0, 1000, 2000]) == ["0-1000", "1000-2000", "2000+"]
  {
    ThousandsDigits();
    var edges: seq<nat> := [0, 1000, 2000];
    assert BucketLabel(edges, 0) == "0-1000";
    assert BucketLabel(edges, 1) == "1000-2000";
    assert BucketLabel(edges, 2) == "2000+";
  }

  /** Edges [0, 1000, 2000] over rents of 500, 1500 and 2500 yuan: one rent per bucket. */
  lemma SmallHistogramExample()
    ensures Histogram([0, 1000, 2000], [50000, 150000, 250000]) == [1, 1, 1]
  {
    var edges: seq<nat> := [0, 1000, 2000];
    var rents := [50000, 150000, 250000];
    assert rents[1..] == [150000, 250000] && rents[1..][1..] == [250000] && rents[1..][1..][1..] == [];
    assert CountBetween(rents[1..][1..], 0, 100000) == 0;
    assert CountBetween(rents[1..], 0, 100000) == 0;
    assert BucketCount(edges, 0, rents) == 1;
    assert CountBetween(rents[1..][1..], 100000, 200000) == 0;
    assert CountBetween(rents[1..], 100000, 200000) == 1;
    assert BucketCount(edges, 1, rents) == 1;
    assert CountAtLeast(rents[1..][1..], 200000) == 1;
    assert CountAtLeast(rents[1..], 200000) == 1;
    assert BucketCount(edges, 2, rents) == 1;
  }
}
