/**
Request statistics: running totals, and the latencies of the current window,
whose summary reports their mean and their 99th percentile and starts the next
window.
*/
module Latency {
  datatype Summary =
    | NoRequests
    | Report(total: nat, successes: nat, failures: nat, mean: int, p99: int)
    | DivisionByZero

  // ---------- sorting and ranks ----------

  predicate Sorted(s: seq<int>) {
    forall i, j :: 0 <= i < j < |s| ==> s[i] <= s[j]
  }

  /** Sorted insertion; its result holds the same samples and x. */
  function Insert(x: int, s: seq<int>): (r: seq<int>)
    requires Sorted(s)
    ensures Sorted(r) && |r| == |s| + 1
    ensures forall y :: y in r <==> y == x || y in s
  {
    if s == [] || x <= s[0] then [x] + s
    else
      var t := Insert(x, s[1..]);
      assert forall k :: 0 <= k < |t| ==> s[0] <= t[k] by {
        forall k | 0 <= k < |t| ensures s[0] <= t[k] {
          assert t[k] in t;
        }
      }
      [s[0]] + t
  }

  function SortedCopy(s: seq<int>): (r: seq<int>)
    ensures Sorted(r) && |r| == |s|
    ensures forall y :: y in r <==> y in s
  {
    if s == [] then [] else Insert(s[0], SortedCopy(s[1..]))
  }

  function Sum(s: seq<int>): int {
    if s == [] then 0 else Sum(s[..|s| - 1]) + s[|s| - 1]
  }

  lemma {:induction false} SumAdds(a: seq<int>, b: seq<int>)
    ensures Sum(a + b) == Sum(a) + Sum(b)
    ensures |b| == 1 ==> Sum(b) == b[0]
    decreases |b|
  {
    if b == [] {
      assert a + b == a;
    } else {
      assert (a + b)[..|a + b| - 1] == a + b[..|b| - 1];
      SumAdds(a, b[..|b| - 1]);
    }
  }

  /** The samples at most x. */
  function AtMost(s: seq<int>, x: int): nat {
    if s == [] then 0 else (if s[0] <= x then 1 else 0) + AtMost(s[1..], x)
  }

  /** The samples below x. */
  function Below(s: seq<int>, x: int): nat { AtMost(s, x - 1) }

  lemma {:induction false} InsertCounts(x: int, s: seq<int>, y: int)
    requires Sorted(s)
    ensures AtMost(Insert(x, s), y) == AtMost(s, y) + if x <= y then 1 else 0
  {
    if s == [] || x <= s[0] {
      assert ([x] + s)[1..] == s;
    } else {
      InsertCounts(x, s[1..], y);
      assert ([s[0]] + Insert(x, s[1..]))[1..] == Insert(x, s[1..]);
    }
  }

  /** Sorting keeps the samples: every count is the same. */
  lemma {:induction false} SortingKeepsCounts(s: seq<int>, y: int)
    ensures AtMost(SortedCopy(s), y) == AtMost(s, y)
  {
    if s != [] {
      SortingKeepsCounts(s[1..], y);
      InsertCounts(s[0], SortedCopy(s[1..]), y);
    }
  }

  lemma {:induction false} PrefixCounts(s: seq<int>, x: int, n: nat)
    requires n <= |s| && forall i :: 0 <= i < n ==> s[i] <= x
    ensures AtMost(s, x) >= n
  {
    if n > 0 { PrefixCounts(s[1..], x, n - 1); }
  }

  lemma {:induction false} SuffixDoesNotCount(s: seq<int>, x: int, n: nat)
    requires n <= |s| && forall i :: n <= i < |s| ==> s[i] > x
    ensures AtMost(s, x) <= n
  {
    if s != [] { SuffixDoesNotCount(s[1..], x, if n > 0 then n - 1 else 0); }
  }

  /** The smallest rank holding at least 99 of 100 samples. */
  function Rank99(n: nat): (r: nat)
    requires n > 0
    ensures 1 <= r <= n && 100 * r >= 99 * n && 100 * (r - 1) < 99 * n
  {
    (99 * n + 99) / 100
  }

  /** The nearest-rank percentile, by counting: enough samples are at most x,
      too few are below it. */
  predicate IsP99(samples: seq<int>, x: int) {
    && samples != [] && x in samples
    && AtMost(samples, x) >= Rank99(|samples|)
    && Below(samples, x) < Rank99(|samples|)
  }

  lemma RankOfSorted(s: seq<int>, k: nat)
    requires Sorted(s) && k < |s|
    ensures AtMost(s, s[k]) >= k + 1 && Below(s, s[k]) <= k
  {
    PrefixCounts(s, s[k], k + 1);
    SuffixDoesNotCount(s, s[k] - 1, k);
  }

  lemma SortedPickIsP99(samples: seq<int>, s: seq<int>)
    requires samples != [] && s == SortedCopy(samples)
    ensures IsP99(samples, s[Rank99(|samples|) - 1])
  {
    var k := Rank99(|samples|) - 1;
    RankOfSorted(s, k);
    SortedCounts(samples, s[k]);
    assert s[k] in s;
  }

  lemma SortedCounts(samples: seq<int>, x: int)
    ensures AtMost(samples, x) == AtMost(SortedCopy(samples), x)
    ensures Below(samples, x) == Below(SortedCopy(samples), x)
  {
    SortingKeepsCounts(samples, x);
    SortingKeepsCounts(samples, x - 1);
  }

  lemma MeanBounds(sum: int, n: int)
    requires n > 0
    ensures sum / n * n <= sum < (sum / n + 1) * n
  {
    var q := sum / n;
    assert sum == q * n + sum % n;
    assert (q + 1) * n == q * n + n;
  }

  /** No other sample satisfies the definition. */
  lemma P99IsUnique(samples: seq<int>, x: int, y: int)
    requires IsP99(samples, x) && IsP99(samples, y)
    ensures x == y
  {
    if x < y { AtMostMonotone(samples, x, y - 1); }
    if y < x { AtMostMonotone(samples, y, x - 1); }
  }

  lemma {:induction false} AtMostMonotone(s: seq<int>, x: int, y: int)
    requires x <= y
    ensures AtMost(s, x) <= AtMost(s, y)
  {
    if s != [] { AtMostMonotone(s[1..], x, y); }
  }

  // ---------- the statistics ----------

  class Statistics {
    var total: nat
    var successes: nat
    var failures: nat
    var latencies: seq<int>

    constructor ()
      ensures Valid() && total == 0 && latencies == []
    {
      total, successes, failures, latencies := 0, 0, 0, [];
    }

    predicate Valid()
      reads this
    {
      total == successes + failures && |latencies| <= total && forall d :: d in latencies ==> d >= 0
    }

    method Record(statusCode: int, latency: int)
      requires Valid() && latency >= 0
      modifies this
      ensures Valid() && total == old(total) + 1
      ensures successes == old(successes) + if 200 <= statusCode < 400 then 1 else 0
      ensures latencies == old(latencies) + [latency]
    {
      total := total + 1;
      if 200 <= statusCode < 400 { successes := successes + 1; } else { failures := failures + 1; }
      latencies := latencies + [latency];
    }

    /** Reports the nearest-rank percentile and the mean, cut to whole
        nanoseconds, of the current window, and empties it; the totals run on.
        The totals alone decide whether there is anything to report, so a
        window without requests after one with some divides by zero. */
    method Summarize() returns (r: Summary)
      requires Valid()
      modifies `latencies
      ensures Valid() && latencies == []
      ensures r == NoRequests <==> total == 0
      ensures r == DivisionByZero <==> total > 0 && old(latencies) == []
      ensures r.Report? ==>
        && r.total == total && r.successes == successes && r.failures == failures
        && r.total == r.successes + r.failures
        && IsP99(old(latencies), r.p99)
        && r.mean * |old(latencies)| <= Sum(old(latencies)) < (r.mean + 1) * |old(latencies)|
    {
      var window := latencies;
      latencies := [];
      if total == 0 { return NoRequests; }
      if |window| == 0 { return DivisionByZero; }
      var mean, p99 := Statistics.Digest(window);
      return Report(total, successes, failures, mean, p99);
    }

    static method Digest(window: seq<int>) returns (mean: int, p99: int)
      requires window != []
      ensures IsP99(window, p99)
      ensures mean * |window| <= Sum(window) < (mean + 1) * |window|
    {
      var sorted := SortedCopy(window);
      var sum := 0;
      for i := 0 to |window|
        invariant sum == Sum(window[..i])
      {
        assert window[..i + 1][..i] == window[..i];
        sum := sum + window[i];
      }
      assert window[..|window|] == window;
      mean := sum / |window|;
      MeanBounds(sum, |window|);
      p99 := sorted[Rank99(|window|) - 1];
      SortedPickIsP99(window, sorted);
    }
  }
}
