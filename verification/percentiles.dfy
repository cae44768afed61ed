/** The two nearest-rank percentiles of the reporting scripts, in exact arithmetic. */
module Percentiles {
  import opened Options

  ghost predicate Ascending(s: seq<int>) {
    forall i, j :: 0 <= i < j < |s| ==> s[i] <= s[j]
  }

  /** The least integer not below a / b. */
  function Ceiling(a: int, b: int): (q: int)
    requires 0 < b
    ensures (q - 1) * b < a <= q * b
  {
    -((-a) / b)
  }

  /** singit-uptime.py */
  function UptimePercentile(ordered: seq<int>, pct: int): Option<int>
    requires 1 <= pct <= 100
  {
    if ordered == [] then None
    else
      var rank := Ceiling(pct * |ordered|, 100) - 1;
      RankInRange(|ordered|, pct);
      Some(ordered[if rank < 0 then 0 else rank])
  }

  /** daily-metrics.py */
  function DailyPercentile(ordered: seq<int>, pct: int): Option<int>
    requires 1 <= pct <= 100
  {
    if ordered == [] then None
    else
      var ceiling := Ceiling(pct * |ordered|, 100);
      var rank := if ceiling < 1 then 1 else ceiling;
      Some(ordered[(if rank < |ordered| then rank else |ordered|) - 1])
  }

  lemma RankInRange(n: nat, pct: int)
    requires 0 < n && 1 <= pct <= 100
    ensures 1 <= Ceiling(pct * n, 100) <= n
  {
    assert 0 < pct * n <= 100 * n;
  }

  function AtMost(s: seq<int>, x: int): nat {
    if s == [] then 0 else AtMost(s[..|s| - 1], x) + if s[|s| - 1] <= x then 1 else 0
  }

  /** At least pct percent of the values are at most r, and that holds of nothing smaller. */
  ghost predicate IsPercentile(r: int, s: seq<int>, pct: int) {
    100 * AtMost(s, r) >= pct * |s| && forall x :: x < r ==> 100 * AtMost(s, x) < pct * |s|
  }

  /** How many values lie at most at s[i], and below it. */
  lemma {:induction false} AtMostAt(s: seq<int>, i: nat, x: int)
    requires Ascending(s) && i < |s|
    ensures AtMost(s, s[i]) >= i + 1
    ensures x < s[i] ==> AtMost(s, x) <= i
  {
    var n := |s| - 1;
    if i < n {
      AtMostAt(s[..n], i, x);
    } else {
      AllAtMost(s, s[i]);
      SomeAbove(s, x);
    }
  }

  lemma {:induction false} AllAtMost(s: seq<int>, x: int)
    requires forall i :: 0 <= i < |s| ==> s[i] <= x
    ensures AtMost(s, x) == |s|
  {
    if s != [] { AllAtMost(s[..|s| - 1], x); }
  }

  lemma {:induction false} SomeAbove(s: seq<int>, x: int)
    ensures AtMost(s, x) <= |s|
    ensures s != [] && x < s[|s| - 1] ==> AtMost(s, x) < |s|
  {
    if s != [] { SomeAbove(s[..|s| - 1], x); }
  }

  /** Both scripts pick the same value, and it is the percentile. */
  lemma BothPickThePercentile(s: seq<int>, pct: int, r: int)
    requires Ascending(s) && s != [] && 1 <= pct <= 100
    ensures DailyPercentile(s, pct) == UptimePercentile(s, pct)
    ensures UptimePercentile(s, pct) == Some(r) <==> IsPercentile(r, s, pct)
  {
    var n := |s|;
    RankInRange(n, pct);
    var i := Ceiling(pct * n, 100) - 1;
    forall x
      ensures AtMost(s, s[i]) >= i + 1 && (x < s[i] ==> AtMost(s, x) <= i)
    {
      AtMostAt(s, i, x);
    }
    assert IsPercentile(s[i], s, pct);
  }
}
