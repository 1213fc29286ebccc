/**
 * The aggregate update at the end of `LoadGeneratorClient::Create_Send_Request`: four
 * process-wide statistics (the sum of total latencies, the sum of times to first byte, and
 * the smallest and largest total latency) that every successful request folds its sample
 * into. The libcurl transfer is reduced to what it yields, and the four mutexes that
 * serialise the updates to the sequential effect of one update.
 */
module Aggregates {

  import opened Wrappers

  /** The two timings libcurl reports for a completed transfer. */
  datatype Sample = Sample(total: real, ttfb: real)

  /** What one request attempt yields. */
  datatype Transfer =
    | NoHandle                     // `curl_easy_init` returned no handle
    | PerformFailed(reason: string) // `curl_easy_perform` did not return CURLE_OK
    | Completed(sample: Sample)

  /** The four aggregates as one value. */
  datatype Totals = Totals(latencySum: real, firstByteSum: real, minLatency: real, maxLatency: real)

  function Min(a: real, b: real): real { if b < a then b else a }

  function Max(a: real, b: real): real { if a < b then b else a }

  /** One successful sample folded into the aggregates. */
  function Add(t: Totals, s: Sample): Totals
  {
    Totals(t.latencySum + s.total, t.firstByteSum + s.ttfb,
           Min(t.minLatency, s.total), Max(t.maxLatency, s.total))
  }

  /** The aggregates after the samples, in the order they were recorded. */
  function Fold(t: Totals, samples: seq<Sample>): Totals
  {
    if samples == [] then t
    else Add(Fold(t, samples[..|samples| - 1]), samples[|samples| - 1])
  }

  function SumTotal(samples: seq<Sample>): real
  {
    if samples == [] then 0.0 else samples[0].total + SumTotal(samples[1..])
  }

  function SumTtfb(samples: seq<Sample>): real
  {
    if samples == [] then 0.0 else samples[0].ttfb + SumTtfb(samples[1..])
  }

  lemma {:induction false} SumsAppend(a: seq<Sample>, s: Sample)
    ensures SumTotal(a + [s]) == SumTotal(a) + s.total
    ensures SumTtfb(a + [s]) == SumTtfb(a) + s.ttfb
  {
    if a != [] {
      assert (a + [s])[1..] == a[1..] + [s];
      SumsAppend(a[1..], s);
    }
  }

  /** The two running sums grow by exactly the sum of the recorded samples. */
  lemma {:induction false} FoldSums(t: Totals, samples: seq<Sample>)
    ensures Fold(t, samples).latencySum == t.latencySum + SumTotal(samples)
    ensures Fold(t, samples).firstByteSum == t.firstByteSum + SumTtfb(samples)
  {
    if samples != [] {
      var front := samples[..|samples| - 1];
      assert samples == front + [samples[|samples| - 1]];
      FoldSums(t, front);
      SumsAppend(front, samples[|samples| - 1]);
    }
  }

  /**
   * The minimum is at most every recorded total and at most its starting value, and it is
   * one of them; the maximum is the same from above.
   */
  lemma {:induction false} FoldBounds(t: Totals, samples: seq<Sample>)
    ensures var r := Fold(t, samples);
      && r.minLatency <= t.minLatency && t.maxLatency <= r.maxLatency
      && (forall k :: 0 <= k < |samples| ==> r.minLatency <= samples[k].total <= r.maxLatency)
      && (r.minLatency == t.minLatency || exists k :: 0 <= k < |samples| && r.minLatency == samples[k].total)
      && (r.maxLatency == t.maxLatency || exists k :: 0 <= k < |samples| && r.maxLatency == samples[k].total)
  {
    if samples != [] {
      var n := |samples| - 1;
      var front := samples[..n];
      FoldBounds(t, front);
      forall k | 0 <= k < n
        ensures samples[k] == front[k]
      {
      }
    }
  }

  /** Once a sample has been recorded, the minimum does not exceed the maximum. */
  lemma MinAtMostMax(t: Totals, samples: seq<Sample>)
    requires samples != []
    ensures Fold(t, samples).minLatency <= Fold(t, samples).maxLatency
  {
  }

  /** Folding two samples in either order gives the same aggregates. */
  lemma AddCommutes(t: Totals, x: Sample, y: Sample)
    ensures Add(Add(t, x), y) == Add(Add(t, y), x)
  {
  }

  /** A sample recorded somewhere in the middle has the same effect as one recorded last. */
  lemma {:induction false} MoveToEnd(t: Totals, a: seq<Sample>, x: Sample, b: seq<Sample>)
    ensures Fold(t, a + [x] + b) == Add(Fold(t, a + b), x)
    decreases |b|
  {
    if b == [] {
      assert a + [x] + b == a + [x];
      assert a + b == a;
      assert (a + [x])[..|a|] == a;
    } else {
      var front := b[..|b| - 1];
      var y := b[|b| - 1];
      assert (a + [x] + b)[..|a + [x] + b| - 1] == a + [x] + front;
      assert (a + b)[..|a + b| - 1] == a + front;
      MoveToEnd(t, a, x, front);
      AddCommutes(Fold(t, a + front), x, y);
    }
  }

  /** Finds, in a permutation of `ys`, a copy of the last sample of `ys`. */
  lemma PickLast(xs: seq<Sample>, ys: seq<Sample>) returns (j: nat)
    requires ys != [] && multiset(xs) == multiset(ys)
    ensures j < |xs| && xs[j] == ys[|ys| - 1]
    ensures xs == xs[..j] + [xs[j]] + xs[j + 1..]
    ensures multiset(xs[..j] + xs[j + 1..]) == multiset(ys[..|ys| - 1])
  {
    var y := ys[|ys| - 1];
    assert ys == ys[..|ys| - 1] + [y];
    assert y in multiset(xs);
    j :| 0 <= j < |xs| && xs[j] == y;
    assert xs == xs[..j] + [y] + xs[j + 1..];
    assert multiset(xs) == multiset(xs[..j] + xs[j + 1..]) + multiset{y};
    assert multiset(ys) == multiset(ys[..|ys| - 1]) + multiset{y};
    assert multiset(xs[..j] + xs[j + 1..]) == multiset(xs) - multiset{y};
    assert multiset(ys[..|ys| - 1]) == multiset(ys) - multiset{y};
  }

  /**
   * The aggregates depend only on which samples were recorded, not on the order in which
   * the concurrent requests completed.
   */
  lemma {:induction false} FoldOrderIrrelevant(t: Totals, xs: seq<Sample>, ys: seq<Sample>)
    requires multiset(xs) == multiset(ys)
    ensures Fold(t, xs) == Fold(t, ys)
    decreases |ys|
  {
    if ys == [] {
      assert |xs| == |multiset(xs)| == 0;
    } else {
      var j := PickLast(xs, ys);
      var a, b := xs[..j], xs[j + 1..];
      FoldOrderIrrelevant(t, a + b, ys[..|ys| - 1]);
      MoveToEnd(t, a, xs[j], b);
    }
  }

  /**
   * The static statistics of `LoadGeneratorClient`. The sums start at zero; the starting
   * minimum and maximum (the largest double, and the smallest positive double) are taken as
   * parameters. `recorded` is the history of successful samples, which the fields always
   * equal the fold of.
   */
  class LatencyAggregates {
    var latencySum: real
    var firstByteSum: real
    var minLatency: real
    var maxLatency: real

    ghost const start: Totals
    ghost var recorded: seq<Sample>

    function Current(): Totals
      reads this
    {
      Totals(latencySum, firstByteSum, minLatency, maxLatency)
    }

    ghost predicate Valid()
      reads this
    {
      Current() == Fold(start, recorded)
    }

    constructor (initialMin: real, initialMax: real)
      ensures Valid() && recorded == []
      ensures Current() == Totals(0.0, 0.0, initialMin, initialMax)
    {
      latencySum, firstByteSum := 0.0, 0.0;
      minLatency, maxLatency := initialMin, initialMax;
      start := Totals(0.0, 0.0, initialMin, initialMax);
      recorded := [];
    }

    /**
     * The effect of one request on the aggregates. A completed transfer folds its sample in;
     * a failed perform throws before any aggregate is touched; no handle does nothing.
     */
    method Record(t: Transfer) returns (thrown: Option<string>)
      requires Valid()
      modifies this
      ensures Valid()
      ensures thrown == if t.PerformFailed? then Some("curl_easy_perform() failed: " + t.reason) else None
      ensures t.Completed? ==> recorded == old(recorded) + [t.sample] && Current() == Add(old(Current()), t.sample)
      ensures t.Completed? ==> minLatency <= t.sample.total <= maxLatency
      ensures !t.Completed? ==> unchanged(this)
    {
      match t {
        case NoHandle =>
          return None;
        case PerformFailed(reason) =>
          return Some("curl_easy_perform() failed: " + reason);
        case Completed(sample) =>
          latencySum := latencySum + sample.total;
          firstByteSum := firstByteSum + sample.ttfb;
          minLatency := Min(minLatency, sample.total);
          maxLatency := Max(maxLatency, sample.total);
          recorded := recorded + [sample];
          assert recorded[..|recorded| - 1] == old(recorded);
          thrown := None;
      }
    }
  }
}
