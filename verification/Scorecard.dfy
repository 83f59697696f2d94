/** Strategy scorecard: summary, equity curve, rolling expectancy and symbol breakdown. */
module Scorecard {
  import opened Options
  import opened Seqs
  import opened Sorting
  import opened Dicts
  import opened Scans

  datatype Outcome = Win | Loss | Flat

  /** One closed trade of the analytics table. */
  datatype Row = Row(symbol: string, exitTime: int, net: real, outcome: Outcome)

  /** The outcome derive_analytics_row stores for a net result. */
  function OutcomeOf(net: real): Outcome {
    if net > 0.0 then Win else if net < 0.0 then Loss else Flat
  }

  /** Rows whose stored outcome follows the sign of their net result. */
  predicate SignRule(rows: seq<Row>) {
    forall r :: r in rows ==> r.outcome == OutcomeOf(r.net)
  }

  function ByExit(): Row -> real { (r: Row) => r.exitTime as real }

  function NetOf(): Row -> real { (r: Row) => r.net }

  function Having(o: Outcome): Row -> bool { (r: Row) => r.outcome == o }

  function Count(rows: seq<Row>, o: Outcome): nat { |Filter(rows, Having(o))| }

  function Net(rows: seq<Row>): real { SumOf(rows, NetOf()) }

  function NetWith(rows: seq<Row>, o: Outcome): real { Net(Filter(rows, Having(o))) }

  /** What these stand for, row by row: a win is a positive net result, a loss a negative one. */
  lemma OutcomePlainly(net: real)
    ensures OutcomeOf(net) == Win <==> net > 0.0
    ensures OutcomeOf(net) == Loss <==> net < 0.0
  {
  }

  lemma SumsPlainly(r: Row, rows: seq<Row>, o: Outcome)
    ensures Net([]) == 0.0 && Net([r] + rows) == r.net + Net(rows)
    ensures Count([], o) == 0 && Count([r] + rows, o) == Count(rows, o) + if r.outcome == o then 1 else 0
    ensures NetWith([], o) == 0.0 && NetWith([r] + rows, o) == NetWith(rows, o) + if r.outcome == o then r.net else 0.0
  {
    assert ([r] + rows)[1..] == rows;
    var rest := Filter(rows, Having(o));
    assert ([r] + rest)[1..] == rest;
  }

  /** Rows sorted by exit are the same rows, the earliest exit first. */
  lemma SortedByExit(rows: seq<Row>)
    ensures multiset(Sort(rows, ByExit())) == multiset(rows)
    ensures forall i, j :: 0 <= i < j < |rows| ==> Sort(rows, ByExit())[i].exitTime <= Sort(rows, ByExit())[j].exitTime
  {
    SortAscending(rows, ByExit());
    forall i, j | 0 <= i < j < |rows|
      ensures Sort(rows, ByExit())[i].exitTime <= Sort(rows, ByExit())[j].exitTime
    {
      assert ByExit()(Sort(rows, ByExit())[i]) <= ByExit()(Sort(rows, ByExit())[j]);
    }
  }

  // ---------------------------------------------------------------- expectancy

  function Ratio(x: real, y: real): real { if y == 0.0 then 0.0 else x / y }

  /** The mean net result of the rows with an outcome, 0 without any. */
  function AverageOf(rows: seq<Row>, o: Outcome): real { Ratio(NetWith(rows, o), Count(rows, o) as real) }

  function Rate(rows: seq<Row>, o: Outcome): real { Ratio(Count(rows, o) as real, |rows| as real) }

  /** win_rate * avg_win + loss_rate * avg_loss */
  function Expectancy(rows: seq<Row>): real {
    Rate(rows, Win) * AverageOf(rows, Win) + Rate(rows, Loss) * AverageOf(rows, Loss)
  }

  function Mean(rows: seq<Row>): real { Ratio(Net(rows), |rows| as real) }

  lemma {:induction false} NetSplits(rows: seq<Row>)
    ensures Net(rows) == NetWith(rows, Win) + NetWith(rows, Loss) + NetWith(rows, Flat)
    ensures |rows| == Count(rows, Win) + Count(rows, Loss) + Count(rows, Flat)
  {
    if rows != [] { NetSplits(rows[1..]); }
  }

  lemma Share(rows: seq<Row>, o: Outcome)
    requires rows != []
    ensures Rate(rows, o) * AverageOf(rows, o) == NetWith(rows, o) / |rows| as real
  {
    if Count(rows, o) == 0 {
      assert Filter(rows, Having(o)) == [];
      assert NetWith(rows, o) == 0.0;
    } else {
      Cancel(Count(rows, o) as real, |rows| as real, NetWith(rows, o));
    }
  }

  lemma Cancel(k: real, n: real, x: real)
    requires k != 0.0 && n != 0.0
    ensures k / n * (x / k) == x / n
  {
    assert x / k * k == x;
    assert k / n * (x / k) == x / k * k / n;
  }

  /** Expectancy is the mean net result exactly when the rows marked flat cancel out. */
  lemma ExpectancyIsMean(rows: seq<Row>)
    requires rows != []
    ensures Expectancy(rows) == Mean(rows) <==> NetWith(rows, Flat) == 0.0
    ensures Expectancy(rows) * |rows| as real == NetWith(rows, Win) + NetWith(rows, Loss)
    ensures Mean(rows) * |rows| as real == Net(rows)
  {
    TimesCount(rows);
    NetSplits(rows);
    Share(rows, Win);
    Share(rows, Loss);
    SumOfShares(NetWith(rows, Win), NetWith(rows, Loss), NetWith(rows, Flat), |rows| as real);
  }

  lemma TimesCount(rows: seq<Row>)
    requires rows != []
    ensures Expectancy(rows) * |rows| as real == NetWith(rows, Win) + NetWith(rows, Loss)
    ensures Mean(rows) * |rows| as real == Net(rows)
  {
    Share(rows, Win);
    Share(rows, Loss);
    var n := |rows| as real;
    assert NetWith(rows, Win) / n * n == NetWith(rows, Win) && NetWith(rows, Loss) / n * n == NetWith(rows, Loss);
  }

  lemma SumOfShares(w: real, l: real, f: real, n: real)
    requires n > 0.0
    ensures w / n + l / n == (w + l + f) / n <==> f == 0.0
  {
    assert (w + l + f) / n == w / n + l / n + f / n;
    assert f / n * n == f;
  }

  lemma {:induction false} SignRuleFlat(rows: seq<Row>)
    requires SignRule(rows)
    ensures NetWith(rows, Flat) == 0.0
  {
    if rows != [] {
      assert rows[0] in rows;
      SignRuleFlat(rows[1..]);
    }
  }

  /** So it is wherever outcomes follow the sign rule: in the summary, in every window, per symbol. */
  lemma SignRuleExpectancy(rows: seq<Row>)
    requires rows != [] && SignRule(rows)
    ensures Expectancy(rows) == Mean(rows)
  {
    SignRuleFlat(rows);
    ExpectancyIsMean(rows);
  }

  // ---------------------------------------------------------------- summary

  datatype Summary = Summary(tradeCount: nat, wins: nat, losses: nat, flats: nat, net: real, expectancy: real, maxDrawdown: real)

  function Nets(rows: seq<Row>): (r: seq<real>)
    ensures |r| == |rows| && forall i :: 0 <= i < |rows| ==> r[i] == rows[i].net
  {
    seq(|rows|, i requires 0 <= i < |rows| => rows[i].net)
  }

  lemma {:induction false} FilterKeepsBag(a: seq<Row>, b: seq<Row>, o: Outcome)
    requires multiset(a) == multiset(b)
    ensures Count(a, o) == Count(b, o) && NetWith(a, o) == NetWith(b, o)
  {
    FilterPermuted(a, b, Having(o));
    SumOfPermuted(Filter(a, Having(o)), Filter(b, Having(o)), NetOf());
  }

  /** Neither counts nor sums nor the expectancy depend on the order of the rows. */
  lemma ExpectancyIgnoresOrder(a: seq<Row>, b: seq<Row>)
    requires multiset(a) == multiset(b)
    ensures Expectancy(a) == Expectancy(b) && Net(a) == Net(b) && |a| == |b|
  {
    SumOfPermuted(a, b, NetOf());
    FilterKeepsBag(a, b, Win);
    FilterKeepsBag(a, b, Loss);
  }

  /** The summary of rows with a given drawdown. */
  function SummaryOf(rows: seq<Row>, drawdown: real): Summary {
    Summary(|rows|, Count(rows, Win), Count(rows, Loss), Count(rows, Flat), Net(rows), Expectancy(rows), -drawdown)
  }

  lemma SummaryIgnoresOrder(rows: seq<Row>, sorted: seq<Row>, drawdown: real)
    requires multiset(rows) == multiset(sorted)
    ensures SummaryOf(sorted, drawdown) == SummaryOf(rows, drawdown)
  {
    ExpectancyIgnoresOrder(rows, sorted);
    FilterKeepsBag(rows, sorted, Win);
    FilterKeepsBag(rows, sorted, Loss);
    FilterKeepsBag(rows, sorted, Flat);
  }

  /** What a summary says: its counts partition the trades, and where outcomes follow the sign rule its
      expectancy is the mean net result. */
  lemma SummaryMeaning(rows: seq<Row>, drawdown: real)
    ensures var s := SummaryOf(rows, drawdown);
      s.tradeCount == |rows| == s.wins + s.losses + s.flats && s.net == Net(rows) &&
      (rows != [] && SignRule(rows) ==> s.expectancy == s.net / s.tradeCount as real)
  {
    NetSplits(rows);
    if rows != [] && SignRule(rows) { SignRuleExpectancy(rows); }
  }

  /** Won and lost trades are counted by their outcome, and only they make up the expectancy. */
  lemma SummaryPlainly(rows: seq<Row>, drawdown: real)
    ensures var s := SummaryOf(rows, drawdown);
      s.wins == Count(rows, Win) && s.losses == Count(rows, Loss) && s.maxDrawdown == -drawdown &&
      (rows != [] ==> s.expectancy * |rows| as real == NetWith(rows, Win) + NetWith(rows, Loss))
  {
    if rows != [] { TimesCount(rows); }
  }

  /** compute_summary on the rows in any order; the reported drawdown is not positive. */
  method ComputeSummary(rows: seq<Row>) returns (s: Summary)
    ensures s == SummaryOf(rows, -s.maxDrawdown)
    ensures IsMaxDrawdown(Nets(Sort(rows, ByExit())), -s.maxDrawdown)
  {
    if rows == [] {
      NothingFalls();
      return Summary(0, 0, 0, 0, 0.0, 0.0, 0.0);
    }
    var sorted := Sort(rows, ByExit());
    var drawdown := MaxDrawdown(sorted);
    s := SummaryOf(sorted, drawdown);
    SummaryReport(rows, sorted, drawdown);
  }

  lemma NothingFalls()
    ensures SummaryOf([], 0.0) == Summary(0, 0, 0, 0, 0.0, 0.0, 0.0)
    ensures IsMaxDrawdown(Nets(Sort([], ByExit())), 0.0)
  {
    ScanStart(Nets([]));
  }

  lemma SummaryReport(rows: seq<Row>, sorted: seq<Row>, drawdown: real)
    requires multiset(rows) == multiset(sorted)
    ensures var s := SummaryOf(sorted, drawdown);
      s == SummaryOf(rows, -s.maxDrawdown) && -s.maxDrawdown == drawdown
  {
    SummaryIgnoresOrder(rows, sorted, drawdown);
  }

  /** The drawdown loop of the summary. */
  method MaxDrawdown(sorted: seq<Row>) returns (maxDd: real)
    ensures IsMaxDrawdown(Nets(sorted), maxDd)
  {
    var cumulative, peak := 0.0, 0.0;
    maxDd := 0.0;
    ScanStart(Nets(sorted));
    for k := 0 to |sorted|
      invariant cumulative == Prefix(Nets(sorted), k) && ScannedTo(Nets(sorted), k, peak, maxDd)
    {
      ScanStep(Nets(sorted), k, peak, maxDd);
      cumulative := cumulative + sorted[k].net;
      if cumulative > peak {
        peak := cumulative;
      }
      var dd := peak - cumulative;
      if dd > maxDd {
        maxDd := dd;
      }
    }
  }

  // ---------------------------------------------------------------- curves

  datatype Point = Point(exitTime: int, cumulative: real, expectancy: Option<real>)

  /** Point k of the equity curve of sorted rows. */
  function CurvePoint(sorted: seq<Row>, k: nat): Point
    requires k < |sorted|
  {
    Point(sorted[k].exitTime, Net(sorted[..k+1]), None)
  }

  /** The index of sample i when n points are reduced to cap. */
  function SampleIndex(i: nat, n: nat, cap: nat): int
    requires cap > 0
  {
    (i as real * (n as real / cap as real)).Floor
  }

  lemma Division(a: int, d: int)
    requires d > 0
    ensures a == a / d * d + a % d && 0 <= a % d < d
  {
  }

  lemma FloorOfQuotient(m: nat, d: nat)
    requires d > 0
    ensures (m as real / d as real).Floor == m / d
  {
    Division(m, d);
    var q, r := m / d, m % d;
    assert m as real == q as real * d as real + r as real;
    assert m as real / d as real == q as real + r as real / d as real;
    assert r as real / d as real < 1.0;
  }

  /** int(i * step) is the exact quotient. */
  lemma SampleIndexExact(i: nat, n: nat, cap: nat)
    requires cap > 0
    ensures SampleIndex(i, n, cap) == (i * n) / cap
  {
    assert i as real * (n as real / cap as real) == (i * n) as real / cap as real;
    FloorOfQuotient(i * n, cap);
  }

  lemma QuotientGrows(a: int, b: int, d: int)
    requires d > 0 && b >= a + d
    ensures b / d > a / d
  {
    Division(a, d);
    Division(b, d);
    var qa, qb := a / d, b / d;
    assert (qb - qa) * d > 0;
  }

  lemma StaysBelow(a: int, m: int, d: int)
    requires d > 0 && a < m * d
    ensures a / d < m
  {
    Division(a, d);
    var q := a / d;
    assert (m - q) * d > 0;
  }

  /** Over the cap, samples start at the first point, strictly advance and stay before the last. */
  lemma SamplesAdvance(i: nat, n: nat, cap: nat)
    requires n > cap > 0
    ensures SampleIndex(0, n, cap) == 0
    ensures 0 <= SampleIndex(i, n, cap) < SampleIndex(i + 1, n, cap)
  {
    SampleIndexExact(i, n, cap);
    SampleIndexExact(i + 1, n, cap);
    SampleIndexExact(0, n, cap);
    assert (i + 1) * n == i * n + n;
    QuotientGrows(i * n, (i + 1) * n, cap);
  }

  lemma SamplesStayInside(i: nat, n: nat, cap: nat)
    requires n > cap > 0 && i < cap - 1
    ensures SampleIndex(i, n, cap) < n - 1
  {
    SampleIndexExact(i, n, cap);
    BelowLast(i, n, cap);
    StaysBelow(i * n, n - 1, cap);
  }

  lemma BelowLast(i: nat, n: nat, cap: nat)
    requires n > cap > 0 && i < cap - 1
    ensures i * n < (n - 1) * cap
  {
    var left := cap - 2 - i;
    Expands(left, i + 2, n);
    Expands(i, 2, n);
    Expands(n - 1, 1, cap);
    assert left * n >= 0;
  }

  lemma Expands(x: int, y: int, z: int)
    ensures (x + y) * z == x * z + y * z
  {
  }

  /** `picked` are the indices of the sampled points: strictly increasing, first to last. */
  ghost predicate Spread(picked: seq<nat>, n: nat) {
    (forall i :: 0 <= i < |picked| ==> picked[i] < n) &&
    (forall i, j :: 0 <= i < j < |picked| ==> picked[i] < picked[j]) &&
    (|picked| >= 2 ==> picked[0] == 0) && (picked != [] ==> picked[|picked|-1] == n - 1)
  }

  /** The down-sampling of the equity curve: over the cap, exactly cap points in order, the last one
      always and the first one as soon as there are two. */
  method DownSample(points: seq<Point>, cap: nat) returns (sampled: seq<Point>, ghost picked: seq<nat>)
    requires cap > 0
    ensures |points| <= cap ==> sampled == points
    ensures |points| > cap ==> |sampled| == cap == |picked| && Spread(picked, |points|)
    ensures |points| > cap ==> forall i :: 0 <= i < cap ==> picked[i] < |points| && sampled[i] == points[picked[i]]
  {
    picked := [];
    if |points| <= cap {
      return points, picked;
    }
    var n := |points|;
    sampled := [];
    SamplesAdvance(0, n, cap);
    for i := 0 to cap - 1
      invariant |sampled| == |picked| == i
      invariant forall j :: 0 <= j < i ==> picked[j] == SampleIndex(j, n, cap) < n - 1 && sampled[j] == points[picked[j]]
      invariant forall j, k :: 0 <= j < k < i ==> picked[j] < picked[k]
      invariant forall j :: 0 <= j < i ==> picked[j] < SampleIndex(i, n, cap)
    {
      SamplesAdvance(i, n, cap);
      SamplesStayInside(i, n, cap);
      sampled := sampled + [points[SampleIndex(i, n, cap)]];
      picked := picked + [SampleIndex(i, n, cap)];
    }
    sampled := sampled + [points[n-1]];
    picked := picked + [n - 1];
  }

  /** compute_equity_curve: the curve before down-sampling, and its sample. */
  method EquityCurve(rows: seq<Row>, cap: nat) returns (curve: seq<Point>, sampled: seq<Point>)
    requires cap > 0
    ensures var sorted := Sort(rows, ByExit());
      |curve| == |rows| && forall k :: 0 <= k < |curve| ==> curve[k] == CurvePoint(sorted, k)
    ensures |rows| <= cap ==> sampled == curve
    ensures |rows| > cap ==> |sampled| == cap && sampled[cap-1] == curve[|curve|-1] && (cap >= 2 ==> sampled[0] == curve[0])
  {
    var sorted := Sort(rows, ByExit());
    curve := [];
    var cumulative := 0.0;
    for k := 0 to |sorted|
      invariant |curve| == k && cumulative == Net(sorted[..k])
      invariant forall j :: 0 <= j < k ==> curve[j] == CurvePoint(sorted, j)
    {
      assert sorted[..k+1] == sorted[..k] + [sorted[k]];
      SumOfSnoc(sorted[..k], sorted[k], NetOf());
      cumulative := cumulative + sorted[k].net;
      curve := curve + [Point(sorted[k].exitTime, cumulative, None)];
    }
    ghost var picked;
    sampled, picked := DownSample(curve, cap);
  }

  /** Point k of the rolling series: a point of the un-sampled equity curve, with the expectancy of its window. */
  function RollingPoint(sorted: seq<Row>, window: nat, k: nat): Point
    requires window > 0 && k + window <= |sorted|
  {
    CurvePoint(sorted, k + window - 1).(expectancy := Some(Expectancy(sorted[k..k+window])))
  }

  /** A curve point is the running total of the results up to it, a rolling point that and the expectancy of its window. */
  lemma CurvePlainly(sorted: seq<Row>, k: nat)
    requires k < |sorted|
    ensures CurvePoint(sorted, k) == Point(sorted[k].exitTime, Net(sorted[..k+1]), None)
  {
  }

  lemma RollingPlainly(sorted: seq<Row>, window: nat, k: nat)
    requires window > 0 && k + window <= |sorted|
    ensures RollingPoint(sorted, window, k) ==
      Point(sorted[k+window-1].exitTime, Net(sorted[..k+window]), Some(Expectancy(sorted[k..k+window])))
  {
  }

  /** compute_rolling_expectancy: one point per full window. */
  method RollingExpectancy(rows: seq<Row>, window: nat) returns (points: seq<Point>)
    requires window > 0
    ensures |points| == if window <= |rows| then |rows| - window + 1 else 0
    ensures forall k :: 0 <= k < |points| ==> points[k] == RollingPoint(Sort(rows, ByExit()), window, k)
  {
    var sorted := Sort(rows, ByExit());
    points := [];
    var i := window;
    while i < |sorted| + 1
      invariant window <= i && |points| == i - window && (i <= |sorted| + 1 || i == window)
      invariant forall k :: 0 <= k < |points| ==> points[k] == RollingPoint(sorted, window, k)
    {
      points := points + [Point(sorted[i-1].exitTime, Net(sorted[..i]), Some(Expectancy(sorted[i-window..i])))];
      i := i + 1;
    }
  }

  /** Where outcomes follow the sign rule, every rolling value is the mean net result of its window. */
  lemma {:induction false} RollingIsMean(rows: seq<Row>, window: nat, k: nat)
    requires window > 0 && k + window <= |rows| && SignRule(rows)
    ensures var sorted := Sort(rows, ByExit());
      RollingPoint(sorted, window, k).expectancy == Some(Mean(sorted[k..k+window])) &&
      RollingPoint(sorted, window, k).cumulative == CurvePoint(sorted, k + window - 1).cumulative
  {
    WindowMean(rows, Sort(rows, ByExit()), window, k);
  }

  lemma WindowMean(rows: seq<Row>, sorted: seq<Row>, window: nat, k: nat)
    requires window > 0 && k + window <= |sorted| && SignRule(rows) && multiset(sorted) == multiset(rows)
    ensures RollingPoint(sorted, window, k).expectancy == Some(Mean(sorted[k..k+window]))
    ensures RollingPoint(sorted, window, k).cumulative == CurvePoint(sorted, k + window - 1).cumulative
  {
    WindowSignRule(rows, sorted, k, k + window);
    SignRuleExpectancy(sorted[k..k+window]);
  }

  lemma WindowSignRule(rows: seq<Row>, sorted: seq<Row>, from: nat, to: nat)
    requires SignRule(rows) && multiset(sorted) == multiset(rows) && from <= to <= |sorted|
    ensures SignRule(sorted[from..to])
  {
    forall r | r in sorted[from..to]
      ensures r.outcome == OutcomeOf(r.net)
    {
      assert r in multiset(sorted);
      assert r in rows;
    }
  }

  // ---------------------------------------------------------------- symbols

  datatype SymbolStats = SymbolStats(count: nat, net: real, expectancy: real)

  function OfSymbol(symbol: string): Row -> bool { (r: Row) => r.symbol == symbol }

  function RowsOf(groups: Dict<string, seq<Row>>, symbol: string): seq<Row> {
    var found := Find(groups, symbol);
    if found.Some? then found.value else []
  }

  const GroupNet := (symbol: string, rows: seq<Row>) => Net(rows)

  const GroupCount := (symbol: string, rows: seq<Row>) => |rows| as real

  /** by_symbol: a defaultdict of lists. */
  method GroupBySymbol(rows: seq<Row>) returns (groups: Dict<string, seq<Row>>)
    ensures UniqueKeys(groups)
    ensures forall s :: RowsOf(groups, s) == Filter(rows, OfSymbol(s))
    ensures forall i :: 0 <= i < |groups| ==> groups[i].1 == Filter(rows, OfSymbol(groups[i].0)) != []
    ensures Total(groups, GroupNet) == Net(rows) && Total(groups, GroupCount) == |rows| as real
  {
    groups := [];
    assert forall s :: RowsOf(groups, s) == Filter([], OfSymbol(s));
    for n := 0 to |rows|
      invariant UniqueKeys(groups) && forall s :: RowsOf(groups, s) == Filter(rows[..n], OfSymbol(s))
      invariant forall i :: 0 <= i < |groups| ==> groups[i].1 != []
      invariant Total(groups, GroupNet) == Net(rows[..n]) && Total(groups, GroupCount) == n as real
    {
      GroupStep(groups, rows[..n], rows[n]);
      assert rows[..n+1] == rows[..n] + [rows[n]];
      groups := Put(groups, rows[n].symbol, RowsOf(groups, rows[n].symbol) + [rows[n]]);
    }
    assert rows[..|rows|] == rows;
    forall i | 0 <= i < |groups|
      ensures groups[i].1 == Filter(rows, OfSymbol(groups[i].0))
    {
      FindAt(groups, i);
      assert RowsOf(groups, groups[i].0) == groups[i].1;
    }
  }

  lemma GroupStep(groups: Dict<string, seq<Row>>, done: seq<Row>, r: Row)
    requires UniqueKeys(groups) && forall s :: RowsOf(groups, s) == Filter(done, OfSymbol(s))
    requires forall i :: 0 <= i < |groups| ==> groups[i].1 != []
    ensures var next := Put(groups, r.symbol, RowsOf(groups, r.symbol) + [r]);
      UniqueKeys(next) && (forall s :: RowsOf(next, s) == Filter(done + [r], OfSymbol(s))) &&
      (forall i :: 0 <= i < |next| ==> next[i].1 != []) &&
      Total(next, GroupNet) == Total(groups, GroupNet) + r.net && Total(next, GroupCount) == Total(groups, GroupCount) + 1.0 &&
      Net(done + [r]) == Net(done) + r.net
  {
    var mine := RowsOf(groups, r.symbol) + [r];
    var next := Put(groups, r.symbol, mine);
    PutUnique(groups, r.symbol, mine);
    forall s
      ensures RowsOf(next, s) == Filter(done + [r], OfSymbol(s))
    {
      FindPut(groups, r.symbol, mine, s);
      FilterAppend(done, [r], OfSymbol(s));
      assert [r][1..] == [];
    }
    forall i | 0 <= i < |next|
      ensures next[i].1 != []
    {
      FindAt(next, i);
      FindPut(groups, r.symbol, mine, r.symbol);
    }
    TotalPut(groups, r.symbol, mine, GroupNet);
    TotalPut(groups, r.symbol, mine, GroupCount);
    SumOfSnoc(RowsOf(groups, r.symbol), r, NetOf());
    SumOfSnoc(done, r, NetOf());
  }

  /** What is measured on the rows of one symbol. */
  function StatsOf(rows: seq<Row>): SymbolStats { SymbolStats(|rows|, Net(rows), Expectancy(rows)) }

  function Measured(groups: Dict<string, seq<Row>>): (results: Dict<string, SymbolStats>)
    ensures |results| == |groups|
    ensures forall i :: 0 <= i < |groups| ==> results[i] == (groups[i].0, StatsOf(groups[i].1))
  {
    seq(|groups|, i requires 0 <= i < |groups| => (groups[i].0, StatsOf(groups[i].1)))
  }

  const NetOfSymbol := (symbol: string, s: SymbolStats) => s.net

  const CountOfSymbol := (symbol: string, s: SymbolStats) => s.count as real

  lemma {:induction false} MeasuredTotals(groups: Dict<string, seq<Row>>)
    ensures Total(Measured(groups), NetOfSymbol) == Total(groups, GroupNet)
    ensures Total(Measured(groups), CountOfSymbol) == Total(groups, GroupCount)
  {
    if groups != [] {
      assert Measured(groups)[1..] == Measured(groups[1..]);
      MeasuredTotals(groups[1..]);
    }
  }

  lemma {:induction false} MeasuredFound(groups: Dict<string, seq<Row>>, symbol: string)
    ensures Find(Measured(groups), symbol) ==
      if Find(groups, symbol).Some? then Some(StatsOf(Find(groups, symbol).value)) else None
  {
    if groups != [] {
      assert Measured(groups)[1..] == Measured(groups[1..]);
      MeasuredFound(groups[1..], symbol);
    }
  }

  /** The breakdown has exactly the traded symbols, each measured on exactly its own rows. */
  ghost predicate Breaks(results: Dict<string, SymbolStats>, rows: seq<Row>) {
    UniqueKeys(results) &&
    forall s :: Find(results, s) ==
      var mine := Filter(rows, OfSymbol(s)); if mine == [] then None else Some(SymbolStats(|mine|, Net(mine), Expectancy(mine)))
  }

  lemma SymbolPlainly(rows: seq<Row>, symbol: string, r: Row)
    ensures r in Filter(rows, OfSymbol(symbol)) <==> r in rows && r.symbol == symbol
  {
    FilterMembers(rows, OfSymbol(symbol));
  }

  lemma MeasuredBreaks(rows: seq<Row>, groups: Dict<string, seq<Row>>)
    requires UniqueKeys(groups) && forall s :: RowsOf(groups, s) == Filter(rows, OfSymbol(s))
    requires forall i :: 0 <= i < |groups| ==> groups[i].1 != []
    ensures Breaks(Measured(groups), rows)
  {
    forall s
      ensures Find(Measured(groups), s) ==
        if Filter(rows, OfSymbol(s)) == [] then None else Some(StatsOf(Filter(rows, OfSymbol(s))))
    {
      MeasuredFound(groups, s);
      FindIndex(groups, s);
      assert RowsOf(groups, s) == Filter(rows, OfSymbol(s));
    }
  }

  /** Per symbol, too, expectancy is the mean net result where outcomes follow the sign rule. */
  lemma SymbolIsMean(rows: seq<Row>, symbol: string)
    requires SignRule(rows) && Filter(rows, OfSymbol(symbol)) != []
    ensures StatsOf(Filter(rows, OfSymbol(symbol))).expectancy == Mean(Filter(rows, OfSymbol(symbol)))
  {
    var mine := Filter(rows, OfSymbol(symbol));
    FilterMembers(rows, OfSymbol(symbol));
    assert SignRule(mine);
    SignRuleExpectancy(mine);
  }

  method Measure(groups: Dict<string, seq<Row>>) returns (results: Dict<string, SymbolStats>)
    ensures results == Measured(groups)
  {
    results := [];
    for i := 0 to |groups|
      invariant |results| == i
      invariant forall j :: 0 <= j < i ==> results[j] == (groups[j].0, StatsOf(groups[j].1))
    {
      var (symbol, group) := groups[i];
      results := results + [(symbol, SymbolStats(|group|, Net(group), Expectancy(group)))];
    }
  }

  /** compute_symbol_breakdown: counts and results add up to the totals. */
  method SymbolBreakdown(rows: seq<Row>) returns (results: Dict<string, SymbolStats>)
    ensures Breaks(results, rows)
    ensures Total(results, NetOfSymbol) == Net(rows) && Total(results, CountOfSymbol) == |rows| as real
  {
    var bySymbol := GroupBySymbol(rows);
    MeasuredTotals(bySymbol);
    MeasuredBreaks(rows, bySymbol);
    results := Measure(bySymbol);
  }
}
