/** One-pass scans over trade results: drawdown and streaks. */
module Scans {
  import opened Options
  import opened Seqs

  // ---------------------------------------------------------------- drawdown

  /** The cumulative result after k trades. */
  function Prefix(pnls: seq<real>, k: nat): real
    requires k <= |pnls|
  {
    if k == 0 then 0.0 else Prefix(pnls, k - 1) + pnls[k-1]
  }

  ghost predicate IsFall(pnls: seq<real>, i: int, j: int, d: real) {
    0 <= i <= j <= |pnls| && d == Prefix(pnls, i) - Prefix(pnls, j)
  }

  /** d is the largest fall from a point of the cumulative curve to a later one, up to k trades. */
  ghost predicate LargestFall(pnls: seq<real>, k: nat, d: real)
    requires k <= |pnls|
  {
    (exists i, j :: j <= k && IsFall(pnls, i, j, d)) && forall i, j, f :: j <= k && IsFall(pnls, i, j, f) ==> f <= d
  }

  ghost predicate IsMaxDrawdown(pnls: seq<real>, d: real) {
    LargestFall(pnls, |pnls|, d)
  }

  /** A gain of 3, a loss of 5 and a gain of 2 fall by 5 from their peak. */
  lemma DrawdownExample(pnls: seq<real>)
    requires pnls == [3.0, -5.0, 2.0]
    ensures IsMaxDrawdown(pnls, 5.0)
  {
    assert Prefix(pnls, 0) == 0.0 && Prefix(pnls, 1) == 3.0 && Prefix(pnls, 2) == -2.0 && Prefix(pnls, 3) == 0.0;
    assert IsFall(pnls, 1, 2, 5.0);
    forall i, j, f | j <= 3 && IsFall(pnls, i, j, f)
      ensures f <= 5.0
    {
      assert i == 0 || i == 1 || i == 2 || i == 3;
      assert j == 0 || j == 1 || j == 2 || j == 3;
    }
  }

  /** Any two loops that compute it agree. */
  lemma MaxDrawdownUnique(pnls: seq<real>, a: real, b: real)
    requires IsMaxDrawdown(pnls, a) && IsMaxDrawdown(pnls, b)
    ensures a == b
  {
    var i, j :| j <= |pnls| && IsFall(pnls, i, j, a);
    var k, l :| l <= |pnls| && IsFall(pnls, k, l, b);
  }

  /** peak is the highest point of the curve up to k trades. */
  ghost predicate HighPoint(pnls: seq<real>, k: nat, peak: real)
    requires k <= |pnls|
  {
    (exists i :: 0 <= i <= k && peak == Prefix(pnls, i)) && forall i :: 0 <= i <= k ==> Prefix(pnls, i) <= peak
  }

  ghost predicate ScannedTo(pnls: seq<real>, k: nat, peak: real, d: real)
    requires k <= |pnls|
  {
    HighPoint(pnls, k, peak) && LargestFall(pnls, k, d)
  }

  function Higher(x: real, y: real): real { if x < y then y else x }

  lemma HighStep(pnls: seq<real>, k: nat, peak: real)
    requires k < |pnls| && HighPoint(pnls, k, peak)
    ensures HighPoint(pnls, k + 1, Higher(peak, Prefix(pnls, k + 1)))
  {
    var i :| 0 <= i <= k && peak == Prefix(pnls, i);
  }

  lemma FallStep(pnls: seq<real>, k: nat, peak: real, d: real)
    requires k < |pnls| && HighPoint(pnls, k + 1, peak) && LargestFall(pnls, k, d)
    ensures LargestFall(pnls, k + 1, Higher(d, peak - Prefix(pnls, k + 1)))
  {
    var now := peak - Prefix(pnls, k + 1);
    var t :| 0 <= t <= k + 1 && peak == Prefix(pnls, t);
    var a, b :| b <= k && IsFall(pnls, a, b, d);
    assert IsFall(pnls, t, k + 1, now);
    forall i, j, f | j <= k + 1 && IsFall(pnls, i, j, f)
      ensures f <= Higher(d, now)
    {
    }
  }

  lemma ScanStep(pnls: seq<real>, k: nat, peak: real, d: real)
    requires k < |pnls| && ScannedTo(pnls, k, peak, d)
    ensures var now := Prefix(pnls, k + 1);
      ScannedTo(pnls, k + 1, Higher(peak, now), Higher(d, Higher(peak, now) - now))
  {
    HighStep(pnls, k, peak);
    FallStep(pnls, k, Higher(peak, Prefix(pnls, k + 1)), d);
  }

  lemma ScanStart(pnls: seq<real>)
    ensures ScannedTo(pnls, 0, 0.0, 0.0)
  {
    assert Prefix(pnls, 0) == 0.0 && IsFall(pnls, 0, 0, 0.0);
  }

  /** AnalyticsAgent._compute_max_drawdown. */
  method AgentMaxDrawdown(pnls: seq<real>) returns (maxDrawdown: real)
    ensures IsMaxDrawdown(pnls, maxDrawdown)
  {
    var cumulative, peak := 0.0, 0.0;
    maxDrawdown := 0.0;
    ScanStart(pnls);
    for k := 0 to |pnls|
      invariant cumulative == Prefix(pnls, k) && ScannedTo(pnls, k, peak, maxDrawdown)
    {
      ScanStep(pnls, k, peak, maxDrawdown);
      cumulative := cumulative + pnls[k];
      if cumulative > peak {
        peak := cumulative;
      }
      var drawdown := peak - cumulative;
      if drawdown > maxDrawdown {
        maxDrawdown := drawdown;
      }
    }
  }

  function Reals(pnls: seq<int>): seq<real> {
    seq(|pnls|, i requires 0 <= i < |pnls| => pnls[i] as real)
  }

  function IntSum(s: seq<int>): int {
    if s == [] then 0 else IntSum(s[..|s|-1]) + s[|s|-1]
  }

  function Positive(): int -> bool { (p: int) => p > 0 }

  datatype Metrics = Metrics(total: int, hits: nat, maxDrawdown: int, trades: nat)

  lemma MetricsPlainly(pnls: seq<int>, p: int)
    ensures IntSum([]) == 0 && IntSum(pnls + [p]) == IntSum(pnls) + p
    ensures |Filter(pnls + [p], Positive())| == |Filter(pnls, Positive())| + if p > 0 then 1 else 0
  {
    assert (pnls + [p])[..|pnls|] == pnls;
    FilterAppend(pnls, [p], Positive());
    FilterOne(p, Positive());
  }

  /** The drawdown loop of compute_metrics: it does not depend on the starting capital. */
  method CentsDrawdown(pnls: seq<int>, capital: int) returns (maxDrawdown: int)
    ensures IsMaxDrawdown(Reals(pnls), maxDrawdown as real)
  {
    var equity, peak := capital, capital;
    maxDrawdown := 0;
    ScanStart(Reals(pnls));
    for k := 0 to |pnls|
      invariant equity as real == capital as real + Prefix(Reals(pnls), k)
      invariant ScannedTo(Reals(pnls), k, (peak - capital) as real, maxDrawdown as real)
    {
      ScanStep(Reals(pnls), k, (peak - capital) as real, maxDrawdown as real);
      equity := equity + pnls[k];
      peak := if peak < equity then equity else peak;
      maxDrawdown := if maxDrawdown < peak - equity then peak - equity else maxDrawdown;
    }
  }

  /** compute_metrics in cents. */
  method ComputeMetrics(pnls: seq<int>, capital: int) returns (m: Metrics)
    ensures m.trades == |pnls| && m.total == IntSum(pnls) && m.hits == |Filter(pnls, Positive())|
    ensures IsMaxDrawdown(Reals(pnls), m.maxDrawdown as real)
  {
    if pnls == [] {
      ScanStart([]);
      return Metrics(0, 0, 0, 0);
    }
    var maxDrawdown := CentsDrawdown(pnls, capital);
    m := Metrics(IntSum(pnls), |Filter(pnls, Positive())|, maxDrawdown, |pnls|);
  }

  // ---------------------------------------------------------------- streaks

  /** A stored trade: its realised result, or nothing readable. */
  type Stored = Option<real>

  function Decisive(): Stored -> bool {
    (t: Stored) => t.Some? && t.value != 0.0
  }

  function Reverse(s: seq<Stored>): seq<Stored> {
    if s == [] then [] else Reverse(s[1..]) + [s[0]]
  }

  /** The wins (true) and losses (false) in order of time; trades arrive newest first. */
  function Signs(trades: seq<Stored>): seq<bool> {
    Wins(Filter(Reverse(trades), Decisive()))
  }

  function Wins(s: seq<Stored>): (r: seq<bool>)
    ensures |r| == |s|
  {
    seq(|s|, i requires 0 <= i < |s| => s[i].Some? && s[i].value > 0.0)
  }

  predicate AllAre(s: seq<bool>, i: int, j: int, b: bool) {
    0 <= i <= j <= |s| && forall k :: i <= k < j ==> s[k] == b
  }

  /** m is the length of the longest run of b. */
  ghost predicate LongestRun(s: seq<bool>, b: bool, m: nat) {
    (exists i, j :: AllAre(s, i, j, b) && j - i == m) && forall i, j :: AllAre(s, i, j, b) ==> j - i <= m
  }

  /** c is the length of the run of b at the end. */
  ghost predicate TrailingRun(s: seq<bool>, b: bool, c: nat) {
    AllAre(s, |s| - c, |s|, b) && (c < |s| ==> s[|s|-c-1] != b)
  }

  lemma RunsSnoc(s: seq<bool>, x: bool, b: bool, c: nat, m: nat)
    requires TrailingRun(s, b, c) && LongestRun(s, b, m)
    ensures var c' := if x == b then c + 1 else 0;
      TrailingRun(s + [x], b, c') && LongestRun(s + [x], b, if m < c' then c' else m)
  {
    var c' := if x == b then c + 1 else 0;
    var t := s + [x];
    assert AllAre(t, |t| - c', |t|, b);
    assert forall k :: 0 <= k < |s| ==> t[k] == s[k];
    var i, j :| AllAre(s, i, j, b) && j - i == m;
    assert AllAre(t, i, j, b);
    forall i, j | AllAre(t, i, j, b)
      ensures j - i <= if m < c' then c' else m
    {
      if j <= |s| {
        assert AllAre(s, i, j, b);
      } else {
        EndsAtTrailing(t, b, c', i);
      }
    }
  }

  lemma EndsAtTrailing(t: seq<bool>, b: bool, c: nat, i: int)
    requires AllAre(t, i, |t|, b) && c <= |t| && (c < |t| ==> t[|t|-c-1] != b)
    ensures |t| - i <= c
  {
  }

  /** Trades as they are stored, newest first, without the flat and the unreadable one: a loss, a loss and a win. */
  lemma SignsExample()
    ensures Signs([Some(1.0), Some(-2.0), None, Some(0.0), Some(-3.0)]) == [false, false, true]
  {
    SignsOf(Some(-3.0), []);
    SignsOf(Some(0.0), [Some(-3.0)]);
    SignsOf(None, [Some(0.0), Some(-3.0)]);
    SignsOf(Some(-2.0), [None, Some(0.0), Some(-3.0)]);
    SignsOf(Some(1.0), [Some(-2.0), None, Some(0.0), Some(-3.0)]);
  }

  /** A newer trade adds its sign at the end if it has one: true for a win. */
  lemma SignsOf(t: Stored, older: seq<Stored>)
    ensures Signs([]) == [] && Signs([t] + older) ==
      Signs(older) + if t.None? || t.value == 0.0 then [] else if t.value > 0.0 then [true] else [false]
  {
    var trades := [t] + older;
    assert trades[0..] == trades && trades[1..] == older;
    SignsOlder(trades, 0);
  }

  datatype Streaks = Streaks(losses: nat, maxLosses: nat, wins: nat, maxWins: nat)

  lemma {:induction false} ReverseLast(s: seq<Stored>, k: nat)
    requires k < |s|
    ensures Reverse(s[k..]) == Reverse(s[k+1..]) + [s[k]]
  {
    assert s[k..][1..] == s[k+1..];
  }

  lemma SignsOlder(trades: seq<Stored>, k: nat)
    requires k < |trades|
    ensures Signs(trades[k..]) == Signs(trades[k+1..]) + if Decisive()(trades[k]) then [trades[k].value > 0.0] else []
  {
    ReverseLast(trades, k);
    FilterAppend(Reverse(trades[k+1..]), [trades[k]], Decisive());
    assert [trades[k]][1..] == [];
    assert Filter([trades[k]], Decisive()) == if Decisive()(trades[k]) then [trades[k]] else [];
  }

  /** The current and the longest runs of losses and of wins. */
  ghost predicate Counts(signs: seq<bool>, r: Streaks) {
    TrailingRun(signs, false, r.losses) && LongestRun(signs, false, r.maxLosses) &&
    TrailingRun(signs, true, r.wins) && LongestRun(signs, true, r.maxWins)
  }

  function Larger(a: nat, b: nat): nat { if a < b then b else a }

  lemma CountsSnoc(signs: seq<bool>, r: Streaks, won: bool)
    requires Counts(signs, r)
    ensures Counts(signs + [won],
      if won then Streaks(0, r.maxLosses, r.wins + 1, Larger(r.maxWins, r.wins + 1))
      else Streaks(r.losses + 1, Larger(r.maxLosses, r.losses + 1), 0, r.maxWins))
  {
    RunsSnoc(signs, won, false, r.losses, r.maxLosses);
    RunsSnoc(signs, won, true, r.wins, r.maxWins);
  }

  lemma CountsNothing()
    ensures Counts([], Streaks(0, 0, 0, 0))
  {
    assert AllAre([], 0, 0, false) && AllAre([], 0, 0, true);
  }

  /** AnalyticsAgent._compute_streaks: the current and the longest runs of losses and of wins, once
      flat and unreadable trades are taken out. */
  method ComputeStreaks(trades: seq<Stored>) returns (r: Streaks)
    ensures TrailingRun(Signs(trades), false, r.losses) && LongestRun(Signs(trades), false, r.maxLosses)
    ensures TrailingRun(Signs(trades), true, r.wins) && LongestRun(Signs(trades), true, r.maxWins)
  {
    var losses, maxLosses, wins, maxWins := 0, 0, 0, 0;
    var k := |trades|;
    assert trades[k..] == [];
    CountsNothing();
    while k > 0
      invariant 0 <= k <= |trades|
      invariant Counts(Signs(trades[k..]), Streaks(losses, maxLosses, wins, maxWins))
    {
      k := k - 1;
      SignsOlder(trades, k);
      ghost var before := Signs(trades[k+1..]);
      assert before + [] == before;
      if trades[k].Some? {
        var pnl := trades[k].value;
        if pnl < 0.0 {
          CountsSnoc(before, Streaks(losses, maxLosses, wins, maxWins), false);
          losses := losses + 1;
          maxLosses := if maxLosses < losses then losses else maxLosses;
          wins := 0;
        } else if pnl > 0.0 {
          CountsSnoc(before, Streaks(losses, maxLosses, wins, maxWins), true);
          wins := wins + 1;
          maxWins := if maxWins < wins then wins else maxWins;
          losses := 0;
        }
      }
    }
    assert trades[0..] == trades;
    r := Streaks(losses, maxLosses, wins, maxWins);
  }
}
