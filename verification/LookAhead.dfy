/** What the agents of a backtest are shown, and when none of it lies in the future. */
module LookAhead {
  import opened Seqs
  import opened Sorting
  import opened Replays
  import opened Backtests

  ghost predicate NoneAfter(bars: seq<Bar>, now: int) {
    forall j :: 0 <= j < |bars| ==> bars[j].timestamp <= now
  }

  ghost predicate NothingLater(view: View, now: int) {
    (forall k :: 0 <= k < |view.bars| ==> view.bars[k].1.timestamp <= now) &&
    forall k :: 0 <= k < |view.past| ==> NoneAfter(view.past[k].1, now)
  }

  /** At no bar of a run from the start index are agents shown anything later than the time of that bar. */
  ghost predicate NoFuture(raw: History, start: nat) {
    var data := Ordered(raw);
    forall n :: start <= n < Length(data) ==> NothingLater(ViewAt(data, raw, n), TimeAt(data, n))
  }

  /** These are the views the agents of a run are shown. */
  lemma {:induction false} ShownInRun(data: History, raw: History, start: nat, n: nat, m: nat)
    requires start + n <= Length(data) && m < n
    ensures Views(data, raw, start, n)[m] == ViewAt(data, raw, start + m)
  {
    if m < n - 1 { ShownInRun(data, raw, start, n - 1, m); }
  }

  function Later(i: nat, j: nat): nat { if i < j then j else i }

  function SuppliedTime(raw: History, k: nat, j: nat): int
    requires k < |raw| && j < Length(Ordered(raw))
  {
    assert |Ordered(raw)[k].1| == |raw[k].1|;
    raw[k].1[j].timestamp
  }

  /** The bars as the caller supplied them are no later than the bar of the first ticker at the same place,
      or at the start index for those before it. */
  ghost predicate Timely(raw: History, start: nat) {
    start < Length(Ordered(raw)) ==>
      forall k, j :: 0 <= k < |raw| && 0 <= j < Length(Ordered(raw)) ==>
        SuppliedTime(raw, k, j) <= TimeAt(Ordered(raw), Later(j, start))
  }

  function Before(ts: int): Bar -> bool {
    (b: Bar) => b.timestamp < ts
  }

  function NotAfter(ts: int): Bar -> bool {
    (b: Bar) => b.timestamp <= ts
  }

  lemma {:induction false} CountPrefix(s: seq<Bar>, n: nat, p: Bar -> bool)
    requires n <= |s| && forall i :: 0 <= i < n ==> p(s[i])
    ensures |Filter(s, p)| >= n
  {
    if n > 0 { CountPrefix(s[1..], n - 1, p); }
  }

  lemma {:induction false} CountSuffix(s: seq<Bar>, n: nat, p: Bar -> bool)
    requires n <= |s| && forall i :: n <= i < |s| ==> !p(s[i])
    ensures |Filter(s, p)| <= n
  {
    if n == 0 {
      FilterNone(s, p);
    } else {
      CountSuffix(s[1..], n - 1, p);
    }
  }

  /** If place i of the sorted bars and all places behind it fail a test, at most i bars pass it. */
  lemma FewPass(bars: seq<Bar>, i: nat, p: Bar -> bool)
    requires i <= |bars| && forall k :: i <= k < |bars| ==> !p(Sort(bars, ByTime())[k])
    ensures |Filter(bars, p)| <= i
  {
    CountSuffix(Sort(bars, ByTime()), i, p);
    FilterPermuted(bars, Sort(bars, ByTime()), p);
    assert |multiset(Filter(bars, p))| == |multiset(Filter(Sort(bars, ByTime()), p))|;
  }

  lemma SortedTimes(bars: seq<Bar>, i: nat, k: nat)
    requires i <= k < |bars|
    ensures Sort(bars, ByTime())[i].timestamp <= Sort(bars, ByTime())[k].timestamp
  {
    SortAscending(bars, ByTime());
    var sorted := Sort(bars, ByTime());
    assert i < k ==> ByTime()(sorted[i]) <= ByTime()(sorted[k]);
  }

  /** If the first i+1 bars supplied are not after a time, neither is place i of the sorted bars. */
  lemma SortedNotAfter(bars: seq<Bar>, i: nat, now: int)
    requires i < |bars| && forall j :: 0 <= j <= i ==> bars[j].timestamp <= now
    ensures Sort(bars, ByTime())[i].timestamp <= now
  {
    CountPrefix(bars, i + 1, NotAfter(now));
    if Sort(bars, ByTime())[i].timestamp > now {
      forall k | i <= k < |bars|
        ensures !NotAfter(now)(Sort(bars, ByTime())[k])
      {
        SortedTimes(bars, i, k);
      }
      FewPass(bars, i, NotAfter(now));
    }
  }

  lemma FirstTickerInOrder(raw: History, m: nat, n: nat)
    requires m <= n < Length(Ordered(raw))
    ensures TimeAt(Ordered(raw), m) <= TimeAt(Ordered(raw), n)
  {
    SortedTimes(raw[0].1, m, n);
  }

  lemma PastAt(raw: History, n: nat, k: nat)
    ensures n < Length(Ordered(raw)) && k < |raw| ==> n < |raw[k].1| && Past(raw, n)[k].1 == raw[k].1[..n+1]
  {
    if n < Length(Ordered(raw)) && k < |raw| {
      assert |Ordered(raw)[k].1| == |raw[k].1|;
      assert Least(n + 1, |raw[k].1|) == n + 1;
    }
  }

  lemma TimelyShowsPast(raw: History, start: nat, n: nat)
    requires start <= n && Timely(raw, start)
    ensures n < Length(Ordered(raw)) ==> NothingLater(ViewAt(Ordered(raw), raw, n), TimeAt(Ordered(raw), n))
  {
    if n < Length(Ordered(raw)) {
      forall k | 0 <= k < |raw|
        ensures NoneAfter(Past(raw, n)[k].1, TimeAt(Ordered(raw), n))
        ensures Column(Ordered(raw), n)[k].1.timestamp <= TimeAt(Ordered(raw), n)
      {
        TickerShowsPast(raw, start, n, k);
      }
    }
  }

  lemma TickerShowsPast(raw: History, start: nat, n: nat, k: nat)
    requires start <= n && Timely(raw, start) && k < |raw|
    ensures n < Length(Ordered(raw)) ==>
      NoneAfter(Past(raw, n)[k].1, TimeAt(Ordered(raw), n)) &&
      Column(Ordered(raw), n)[k].1.timestamp <= TimeAt(Ordered(raw), n)
  {
    if n < Length(Ordered(raw)) {
      PastAt(raw, n, k);
      PrefixNotLater(raw, start, n, k);
      SortedNotAfter(raw[k].1, n, TimeAt(Ordered(raw), n));
    }
  }

  lemma PrefixNotLater(raw: History, start: nat, n: nat, k: nat)
    requires start <= n && Timely(raw, start) && k < |raw| && n < |raw[k].1|
    ensures n < Length(Ordered(raw)) ==> forall j :: 0 <= j <= n ==> raw[k].1[j].timestamp <= TimeAt(Ordered(raw), n)
  {
    if n < Length(Ordered(raw)) {
      forall j | 0 <= j <= n
        ensures raw[k].1[j].timestamp <= TimeAt(Ordered(raw), n)
      {
        assert SuppliedTime(raw, k, j) <= TimeAt(Ordered(raw), Later(j, start));
        FirstTickerInOrder(raw, Later(j, start), n);
      }
    }
  }

  lemma NoFutureAt(raw: History, start: nat, k: nat, j: nat)
    requires start < Length(Ordered(raw)) && NoFuture(raw, start) && k < |raw| && j < Length(Ordered(raw))
    ensures SuppliedTime(raw, k, j) <= TimeAt(Ordered(raw), Later(j, start))
  {
    var n := Later(j, start);
    PastAt(raw, n, k);
    assert NothingLater(ViewAt(Ordered(raw), raw, n), TimeAt(Ordered(raw), n));
    assert NoneAfter(Past(raw, n)[k].1, TimeAt(Ordered(raw), n));
    assert Past(raw, n)[k].1[j] == raw[k].1[j];
  }

  /** Exactly when the agents of a run are shown no future bar: the cursor aligns tickers by place and sorts its
      own copy of their bars, but the past is cut from the caller's. */
  lemma NoFutureIffTimely(raw: History, start: nat)
    ensures NoFuture(raw, start) <==> Timely(raw, start)
  {
    if Timely(raw, start) {
      forall n | start <= n < Length(Ordered(raw))
        ensures NothingLater(ViewAt(Ordered(raw), raw, n), TimeAt(Ordered(raw), n))
      {
        TimelyShowsPast(raw, start, n);
      }
    }
    if NoFuture(raw, start) && start < Length(Ordered(raw)) {
      forall k, j | 0 <= k < |raw| && 0 <= j < Length(Ordered(raw))
        ensures SuppliedTime(raw, k, j) <= TimeAt(Ordered(raw), Later(j, start))
      {
        NoFutureAt(raw, start, k, j);
      }
    }
  }

  /** Every ticker has the times of the first one. */
  ghost predicate Aligned(raw: History) {
    forall k, j :: 0 <= k < |raw| && 0 <= j < Length(Ordered(raw)) ==> SuppliedTime(raw, k, j) == SuppliedTime(raw, 0, j)
  }

  /** Sorted and aligned bars are enough, from any start index. */
  lemma AlignedShowsPast(raw: History, start: nat)
    requires SortedInputs(raw) && Aligned(raw)
    ensures NoFuture(raw, start)
  {
    OrderedInputs(raw);
    if start < Length(Ordered(raw)) {
      forall k, j | 0 <= k < |raw| && 0 <= j < Length(Ordered(raw))
        ensures SuppliedTime(raw, k, j) <= TimeAt(Ordered(raw), Later(j, start))
      {
        FirstTickerInOrder(raw, j, Later(j, start));
        assert SuppliedTime(raw, k, j) == SuppliedTime(raw, 0, j) == TimeAt(Ordered(raw), j);
      }
    }
    NoFutureIffTimely(raw, start);
  }

  function At(ts: int): Bar { Bar(ts, 1.0, 1.0, 1.0, 1.0, 0) }

  /** Sorted bars alone are not: at the first bar, stamped 1, agents see the other ticker's bar stamped 10. */
  lemma SortedIsNotEnough()
    ensures var raw := [("A", [At(1), At(2)]), ("B", [At(10), At(20)])];
      SortedInputs(raw) && Length(Ordered(raw)) == 2 && !NoFuture(raw, 0)
  {
    var raw: History := [("A", [At(1), At(2)]), ("B", [At(10), At(20)])];
    assert SortedInputs(raw);
    OrderedInputs(raw);
    assert SuppliedTime(raw, 1, 0) > TimeAt(Ordered(raw), Later(0, 0));
    NoFutureIffTimely(raw, 0);
  }

  // ---------------------------------------------------------------- one ticker

  function Alone(ticker: string, bars: seq<Bar>): (raw: History) { [(ticker, bars)] }

  lemma AloneTimes(ticker: string, bars: seq<Bar>, j: nat)
    ensures Length(Ordered(Alone(ticker, bars))) == |bars|
    ensures j < |bars| ==> SuppliedTime(Alone(ticker, bars), 0, j) == bars[j].timestamp
    ensures j < |bars| ==> TimeAt(Ordered(Alone(ticker, bars)), j) == Sort(bars, ByTime())[j].timestamp
  {
    assert Ordered(Alone(ticker, bars)) == [(ticker, Sort(bars, ByTime()))];
  }

  /** No bar is later than the one the cursor shows at its place, or at the start index. */
  ghost predicate CaughtUp(bars: seq<Bar>, start: nat)
    requires start < |bars|
  {
    forall j :: 0 <= j < |bars| ==> bars[j].timestamp <= Sort(bars, ByTime())[Later(j, start)].timestamp
  }

  lemma AloneAt(ticker: string, bars: seq<Bar>, start: nat, j: nat)
    requires start < |bars| == Length(Ordered(Alone(ticker, bars))) && j < |bars|
    ensures SuppliedTime(Alone(ticker, bars), 0, j) <= TimeAt(Ordered(Alone(ticker, bars)), Later(j, start)) <==>
      bars[j].timestamp <= Sort(bars, ByTime())[Later(j, start)].timestamp
  {
    AloneTimes(ticker, bars, j);
    AloneTimes(ticker, bars, Later(j, start));
  }

  lemma AloneTimely(ticker: string, bars: seq<Bar>, start: nat)
    requires start < |bars|
    ensures NoFuture(Alone(ticker, bars), start) <==> CaughtUp(bars, start)
  {
    var raw := Alone(ticker, bars);
    AloneTimes(ticker, bars, start);
    NoFutureIffTimely(raw, start);
    if Timely(raw, start) {
      forall j | 0 <= j < |bars|
        ensures bars[j].timestamp <= Sort(bars, ByTime())[Later(j, start)].timestamp
      {
        AloneAt(ticker, bars, start, j);
      }
    }
    if CaughtUp(bars, start) {
      forall k, j | 0 <= k < |raw| && 0 <= j < |bars|
        ensures SuppliedTime(raw, k, j) <= TimeAt(Ordered(raw), Later(j, start))
      {
        AloneAt(ticker, bars, start, j);
      }
    }
  }

  /** The first bar that has an earlier bar somewhere behind it. */
  lemma FirstInversion(bars: seq<Bar>) returns (i: nat, j: nat)
    requires !Ascending(bars, ByTime())
    ensures i < j < |bars| && bars[j].timestamp < bars[i].timestamp
    ensures forall k :: 0 <= k < i ==> bars[k].timestamp <= bars[j].timestamp
  {
    i := 0;
    while !exists j :: i < j < |bars| && bars[j].timestamp < bars[i].timestamp
      invariant i <= |bars|
      invariant forall k, l :: 0 <= k < i && k < l < |bars| ==> bars[k].timestamp <= bars[l].timestamp
      decreases |bars| - i
    {
      assert i == |bars| ==> Ascending(bars, ByTime());
      i := i + 1;
    }
    j :| i < j < |bars| && bars[j].timestamp < bars[i].timestamp;
  }

  /** Bar j moved in front of bar i. */
  lemma Moved(bars: seq<Bar>, i: nat, j: nat, p: Bar -> bool)
    requires i < j < |bars| && p(bars[j]) && forall k :: 0 <= k < i ==> p(bars[k])
    ensures |Filter(bars, p)| >= i + 1
  {
    FilterAppend(bars[..i], bars[i..], p);
    assert bars == bars[..i] + bars[i..];
    CountPrefix(bars[..i], i, p);
    FilterMembers(bars[i..], p);
    assert bars[j] == bars[i..][j - i];
    assert bars[j] in Filter(bars[i..], p);
  }

  /** Bars out of order show a bar that is later than the one the cursor has reached. */
  lemma InversionShowsFuture(bars: seq<Bar>) returns (i: nat)
    requires !Ascending(bars, ByTime())
    ensures i < |bars| && bars[i].timestamp > Sort(bars, ByTime())[i].timestamp
  {
    var j;
    i, j := FirstInversion(bars);
    var early := Before(bars[i].timestamp);
    Moved(bars, i, j, early);
    if bars[i].timestamp <= Sort(bars, ByTime())[i].timestamp {
      forall k | i <= k < |bars|
        ensures !early(Sort(bars, ByTime())[k])
      {
        SortedTimes(bars, i, k);
      }
      FewPass(bars, i, early);
    }
  }

  /** A run on one ticker from its first bar shows no future bar if and only if its bars are supplied sorted. */
  lemma OneTickerIffSorted(ticker: string, bars: seq<Bar>)
    requires bars != []
    ensures NoFuture(Alone(ticker, bars), 0) <==> Ascending(bars, ByTime())
  {
    AloneTimely(ticker, bars, 0);
    if Ascending(bars, ByTime()) {
      SortSorted(bars, ByTime());
    } else {
      var i := InversionShowsFuture(bars);
      assert Later(i, 0) == i;
    }
  }

  /** A run that warms up to the last bar of its ticker shows none in any order. */
  lemma WarmedUpShowsPast(ticker: string, bars: seq<Bar>)
    requires bars != []
    ensures NoFuture(Alone(ticker, bars), |bars| - 1)
  {
    var last := |bars| - 1;
    AloneTimely(ticker, bars, last);
    forall j | 0 <= j < |bars|
      ensures bars[j].timestamp <= Sort(bars, ByTime())[Later(j, last)].timestamp
    {
      assert bars[j] in multiset(Sort(bars, ByTime()));
      var k :| 0 <= k < |bars| && Sort(bars, ByTime())[k] == bars[j];
      SortedTimes(bars, k, last);
    }
  }
}
