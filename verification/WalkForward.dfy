/** Rolling train and test windows. Times are in seconds. */
module WalkForward {
  import opened Options
  import opened Dicts

  const DAY := 86400

  datatype Engine = Engine(trainDays: int, testDays: int, stepDays: int)
  {
    function Train(): int { trainDays * DAY }
    function Test(): int { testDays * DAY }
    function Step(): int { stepDays * DAY }
  }

  datatype Window = Window(trainStart: int, trainEnd: int, testStart: int, testEnd: int)

  function WindowAt(e: Engine, start: int, k: nat): Window {
    var s := start + k * e.Step();
    Window(s, s + e.Train(), s + e.Train(), s + e.Train() + e.Test())
  }

  /** The time left over once the first window is placed. */
  function Slack(e: Engine, start: int, end: int): int {
    end - start - e.Train() - e.Test()
  }

  /** The loop ends normally exactly when it moves forward or never starts. With a window that fits it runs for
      ever on a step of zero, and until dates overflow on a negative one. */
  predicate Terminates(e: Engine, start: int, end: int) {
    e.stepDays > 0 || Slack(e, start, end) < 0
  }

  function WindowCount(e: Engine, start: int, end: int): nat
    requires Terminates(e, start, end)
  {
    if Slack(e, start, end) < 0 then 0 else Slack(e, start, end) / e.Step() + 1
  }

  lemma FitsIffCounted(e: Engine, start: int, end: int, k: nat)
    requires Terminates(e, start, end)
    ensures k < WindowCount(e, start, end) <==>
      WindowAt(e, start, k).testEnd <= end && (e.stepDays > 0 || k == 0)
  {
    if Slack(e, start, end) >= 0 {
      Floors(Slack(e, start, end), e.Step(), k);
    } else if e.stepDays > 0 {
      assert k * e.Step() >= 0;
    }
  }

  /** That is: the loop ends if and only if some window no longer fits. */
  lemma LoopEndsIff(e: Engine, start: int, end: int)
    ensures Terminates(e, start, end) <==> exists k: nat :: WindowAt(e, start, k).testEnd > end
  {
    if e.stepDays > 0 {
      var k := if Slack(e, start, end) < 0 then 0 else Slack(e, start, end) + 1;
      assert k * e.Step() >= k;
      assert WindowAt(e, start, k).testEnd > end;
    } else if Slack(e, start, end) < 0 {
      assert WindowAt(e, start, 0).testEnd > end;
    } else {
      forall k: nat
        ensures WindowAt(e, start, k).testEnd <= end
      {
        assert k * e.Step() <= 0;
      }
    }
  }

  lemma Floors(a: int, d: int, k: nat)
    requires d > 0 && a >= 0
    ensures k <= a / d <==> k * d <= a
  {
    var q := a / d;
    assert a == q * d + a % d;
    if k <= q {
      assert (q - k) * d >= 0;
    } else {
      assert (k - q - 1) * d >= 0;
    }
  }

  /** generate_windows: exactly floor(slack / step) + 1 windows, one step apart. */
  method GenerateWindows(e: Engine, start: int, end: int) returns (windows: seq<Window>)
    requires Terminates(e, start, end)
    ensures |windows| == WindowCount(e, start, end)
    ensures forall k :: 0 <= k < |windows| ==> windows[k] == WindowAt(e, start, k) && windows[k].testEnd <= end
  {
    windows := [];
    var current := start;
    while true
      invariant current == start + |windows| * e.Step()
      invariant |windows| <= WindowCount(e, start, end)
      invariant forall k :: 0 <= k < |windows| ==> windows[k] == WindowAt(e, start, k) && windows[k].testEnd <= end
      decreases WindowCount(e, start, end) - |windows|
    {
      FitsIffCounted(e, start, end, |windows|);
      var trainEnd := current + e.Train();
      var testEnd := trainEnd + e.Test();
      if testEnd > end {
        break;
      }
      Advance(|windows|, e.Step());
      windows := windows + [Window(current, trainEnd, trainEnd, testEnd)];
      current := current + e.Step();
    }
  }

  lemma Advance(n: nat, step: int)
    ensures (n + 1) * step == n * step + step
  {
  }

  // ---------------------------------------------------------------- samples

  predicate InTrain(w: Window, t: int) { w.trainStart <= t < w.trainEnd }

  predicate InTest(w: Window, t: int) { !InTrain(w, t) && w.testStart <= t < w.testEnd }

  /** The returns whose timestamps satisfy p. */
  function Picked(daily: seq<real>, times: seq<int>, p: int -> bool): seq<real>
    requires |daily| == |times|
  {
    if times == [] then []
    else Picked(daily[..|times|-1], times[..|times|-1], p) + if p(times[|times|-1]) then [daily[|times|-1]] else []
  }

  function Training(w: Window): int -> bool { (t: int) => InTrain(w, t) }

  function Testing(w: Window): int -> bool { (t: int) => InTest(w, t) }

  method Split(w: Window, daily: seq<real>, times: seq<int>) returns (train: seq<real>, test: seq<real>)
    requires |daily| == |times|
    ensures train == Picked(daily, times, Training(w)) && test == Picked(daily, times, Testing(w))
  {
    train, test := [], [];
    for i := 0 to |times|
      invariant train == Picked(daily[..i], times[..i], Training(w))
      invariant test == Picked(daily[..i], times[..i], Testing(w))
    {
      assert daily[..i+1][..i] == daily[..i] && times[..i+1][..i] == times[..i];
      var t := times[i];
      if w.trainStart <= t && t < w.trainEnd {
        train := train + [daily[i]];
      } else if w.testStart <= t && t < w.testEnd {
        test := test + [daily[i]];
      }
    }
    assert daily[..|times|] == daily && times[..|times|] == times;
  }

  /** Every training sample of a window is strictly earlier than every test sample of it. */
  lemma TrainBeforeTest(e: Engine, start: int, k: nat, t: int, u: int)
    requires InTrain(WindowAt(e, start, k), t) && InTest(WindowAt(e, start, k), u)
    ensures t < u
  {
    assert WindowAt(e, start, k).trainEnd == WindowAt(e, start, k).testStart;
  }

  // ---------------------------------------------------------------- each sample is tested once

  predicate TestedBy(e: Engine, start: int, k: nat, t: int) {
    InTest(WindowAt(e, start, k), t)
  }

  lemma TestedAtMostOnce(e: Engine, start: int, t: int, j: nat, k: nat)
    requires e.Step() >= e.Test() && e.stepDays > 0 && TestedBy(e, start, j, t) && TestedBy(e, start, k, t)
    ensures j == k
  {
    OnePlace(start + e.Train(), e.Step(), e.Test(), t, j, k);
    OnePlace(start + e.Train(), e.Step(), e.Test(), t, k, j);
  }

  lemma OnePlace(a: int, d: int, width: int, t: int, j: nat, k: nat)
    requires d >= width && d > 0
    requires a + j * d <= t < a + j * d + width && a + k * d <= t
    ensures k <= j
  {
    StepsGrow(j + 1, k, d);
    Advance(j, d);
  }

  lemma StepsGrow(j: nat, k: nat, d: int)
    requires d > 0
    ensures j <= k ==> j * d <= k * d
  {
    if j <= k { assert (k - j) * d >= 0; }
  }

  lemma Place(a: int, d: int) returns (q: int)
    requires d > 0
    ensures q * d <= a < q * d + d && (a >= 0 ==> q >= 0)
  {
    q := a / d;
    assert a == q * d + a % d;
  }

  /** With step equal to test, every time from the first test start to the last test end falls in
      exactly one test window. */
  lemma TestedExactlyOnce(e: Engine, start: int, end: int, t: int) returns (k: nat)
    requires e.stepDays == e.testDays > 0 && WindowCount(e, start, end) > 0
    requires WindowAt(e, start, 0).testStart <= t < WindowAt(e, start, WindowCount(e, start, end) - 1).testEnd
    ensures k < WindowCount(e, start, end) && TestedBy(e, start, k, t)
    ensures forall j: nat :: TestedBy(e, start, j, t) ==> j == k
  {
    var n := WindowCount(e, start, end);
    var q := Place(t - start - e.Train(), e.Step());
    k := q;
    StepsGrow(n, k, e.Step());
    Advance(n - 1, e.Step());
    forall j: nat | TestedBy(e, start, j, t)
      ensures j == k
    {
      TestedAtMostOnce(e, start, t, j, k);
    }
  }

  /** Test windows are disjoint exactly when a step covers a test period. */
  lemma DisjointIffStepCovers(e: Engine, start: int)
    requires e.stepDays > 0 && e.testDays > 0
    ensures (forall t, j: nat, k: nat :: TestedBy(e, start, j, t) && TestedBy(e, start, k, t) ==> j == k)
       <==> e.stepDays >= e.testDays
  {
    if e.stepDays >= e.testDays {
      forall t, j: nat, k: nat | TestedBy(e, start, j, t) && TestedBy(e, start, k, t)
        ensures j == k
      {
        TestedAtMostOnce(e, start, t, j, k);
      }
    } else {
      var t := start + e.Step() + e.Train();
      assert TestedBy(e, start, 0, t) && TestedBy(e, start, 1, t);
    }
  }

  /** How many of the first n windows test the time t. */
  function Hits(e: Engine, start: int, n: nat, t: int): nat {
    if n == 0 then 0 else Hits(e, start, n - 1, t) + if TestedBy(e, start, n - 1, t) then 1 else 0
  }

  lemma {:induction false} HitsAtMostOnce(e: Engine, start: int, n: nat, t: int)
    requires e.Step() >= e.Test() && e.stepDays > 0
    ensures Hits(e, start, n, t) <= 1
    ensures Hits(e, start, n, t) == 1 ==> exists k: nat :: k < n && TestedBy(e, start, k, t)
  {
    if n > 0 {
      HitsAtMostOnce(e, start, n - 1, t);
      if Hits(e, start, n - 1, t) == 1 {
        var k: nat :| k < n - 1 && TestedBy(e, start, k, t);
        if TestedBy(e, start, n - 1, t) { TestedAtMostOnce(e, start, t, k, n - 1); }
      }
    }
  }

  /** Test samples of the first n windows, counted window by window ... */
  function TestSamples(e: Engine, start: int, n: nat, times: seq<int>): nat {
    if n == 0 then 0 else TestSamples(e, start, n - 1, times) + Tested(WindowAt(e, start, n - 1), times)
  }

  function Tested(w: Window, times: seq<int>): nat {
    if times == [] then 0 else Tested(w, times[..|times|-1]) + if InTest(w, times[|times|-1]) then 1 else 0
  }

  /** ... and sample by sample. */
  lemma {:induction false} TestSamplesByTime(e: Engine, start: int, n: nat, times: seq<int>)
    ensures TestSamples(e, start, n, times) ==
      if times == [] then 0 else TestSamples(e, start, n, times[..|times|-1]) + Hits(e, start, n, times[|times|-1])
  {
    if n > 0 { TestSamplesByTime(e, start, n - 1, times); }
  }

  lemma {:induction false} TestSamplesAtMostAll(e: Engine, start: int, n: nat, times: seq<int>)
    requires e.Step() >= e.Test() && e.stepDays > 0
    ensures TestSamples(e, start, n, times) <= |times|
  {
    TestSamplesByTime(e, start, n, times);
    if times != [] {
      TestSamplesAtMostAll(e, start, n, times[..|times|-1]);
      HitsAtMostOnce(e, start, n, times[|times|-1]);
    }
  }

  lemma {:induction false} PickedTested(w: Window, daily: seq<real>, times: seq<int>)
    requires |daily| == |times|
    ensures |Picked(daily, times, Testing(w))| == Tested(w, times)
  {
    if times != [] { PickedTested(w, daily[..|times|-1], times[..|times|-1]); }
  }

  // ---------------------------------------------------------------- the analysis

  datatype Scores = Scores(trainSharpe: real, testSharpe: real)

  datatype WindowResult = WindowResult(window: Window, scores: Scores, testTrades: nat, overfit: bool)

  datatype Result = LengthMismatch | Analysis(windows: seq<WindowResult>, totalTestTrades: nat)

  function Overfit(s: Scores, threshold: real): bool {
    if s.testSharpe > 0.0 && s.trainSharpe > threshold * s.testSharpe then true
    else s.testSharpe <= 0.0 && s.trainSharpe > 0.0
  }

  function Trades(windows: seq<WindowResult>): nat {
    if windows == [] then 0 else Trades(windows[..|windows|-1]) + windows[|windows|-1].testTrades
  }

  /** How a train and a test sample are scored. */
  type Evaluation = (seq<real>, seq<real>) -> Scores

  /** What is reported of window k: its own samples, counted, scored and judged. */
  function ResultAt(e: Engine, start: int, daily: seq<real>, times: seq<int>, evaluate: Evaluation, threshold: real, k: nat): WindowResult
    requires |daily| == |times|
  {
    var w := WindowAt(e, start, k);
    var train, test := Picked(daily, times, Training(w)), Picked(daily, times, Testing(w));
    WindowResult(w, evaluate(train, test), |test|, Overfit(evaluate(train, test), threshold))
  }

  predicate Enough(e: Engine, start: int, daily: seq<real>, times: seq<int>, k: nat)
    requires |daily| == |times|
  {
    |Picked(daily, times, Training(WindowAt(e, start, k)))| >= 2 && |Picked(daily, times, Testing(WindowAt(e, start, k)))| >= 1
  }

  lemma TradesPlainly(windows: seq<WindowResult>, w: WindowResult)
    ensures Trades([]) == 0 && Trades(windows + [w]) == Trades(windows) + w.testTrades
  {
    assert (windows + [w])[..|windows|] == windows;
  }

  /** A window in plain terms, in seconds: a day has 86400. */
  lemma WindowPlainly(e: Engine, start: int, k: nat)
    ensures var w, from := WindowAt(e, start, k), start + k * (e.stepDays * 86400);
      w.trainStart == from && w.trainEnd == w.testStart == from + e.trainDays * 86400 &&
      w.testEnd == from + e.trainDays * 86400 + e.testDays * 86400
  {
  }

  /** Overfit means a training score above the threshold times a positive test score, or a positive one that tests at or
      below zero. */
  lemma OverfitPlainly(s: Scores, threshold: real)
    ensures s.testSharpe > 0.0 ==> (Overfit(s, threshold) <==> s.trainSharpe > threshold * s.testSharpe)
    ensures s.testSharpe <= 0.0 ==> (Overfit(s, threshold) <==> s.trainSharpe > 0.0)
  {
  }

  function Within(from: int, to: int): int -> bool { (t: int) => from <= t < to }

  lemma {:induction false} PickedAgree(daily: seq<real>, times: seq<int>, p: int -> bool, q: int -> bool)
    requires |daily| == |times| && forall t :: p(t) == q(t)
    ensures Picked(daily, times, p) == Picked(daily, times, q)
  {
    if times != [] { PickedAgree(daily[..|times|-1], times[..|times|-1], p, q); }
  }

  /** A reported window is scored on the returns inside its training period and on those inside its test period, in that
      order. */
  lemma ResultPlainly(e: Engine, start: int, daily: seq<real>, times: seq<int>, evaluate: Evaluation, threshold: real, k: nat)
    requires |daily| == |times|
    ensures var r, w := ResultAt(e, start, daily, times, evaluate, threshold, k), WindowAt(e, start, k);
      var train, test := Picked(daily, times, Within(w.trainStart, w.trainEnd)), Picked(daily, times, Within(w.testStart, w.testEnd));
      r.window == w && r.scores == evaluate(train, test) && r.testTrades == |test| && r.overfit == Overfit(r.scores, threshold) &&
      (Enough(e, start, daily, times, k) <==> |train| >= 2 && |test| >= 1)
  {
    var w := WindowAt(e, start, k);
    PickedAgree(daily, times, Training(w), Within(w.trainStart, w.trainEnd));
    PickedAgree(daily, times, Testing(w), Within(w.testStart, w.testEnd));
  }

  lemma PickedPlainly(daily: seq<real>, times: seq<int>, p: int -> bool, x: real, t: int)
    requires |daily| == |times|
    ensures Picked([], [], p) == [] && Picked(daily + [x], times + [t], p) == Picked(daily, times, p) + if p(t) then [x] else []
  {
    assert (daily + [x])[..|times|] == daily && (times + [t])[..|times|] == times;
  }

  /** The results of the first n windows, skipping those without two training samples and one test sample. */
  function Results(e: Engine, start: int, daily: seq<real>, times: seq<int>, evaluate: Evaluation, threshold: real, n: nat): seq<WindowResult>
    requires |daily| == |times|
  {
    if n == 0 then []
    else
      Results(e, start, daily, times, evaluate, threshold, n - 1) +
      if Enough(e, start, daily, times, n - 1) then [ResultAt(e, start, daily, times, evaluate, threshold, n - 1)] else []
  }

  /** One more window adds its result if it has two training samples and one test sample at least. */
  lemma ResultsPlainly(e: Engine, start: int, daily: seq<real>, times: seq<int>, evaluate: Evaluation, threshold: real, n: nat)
    requires |daily| == |times|
    ensures Results(e, start, daily, times, evaluate, threshold, 0) == []
    ensures var w, before := WindowAt(e, start, n), Results(e, start, daily, times, evaluate, threshold, n);
      Results(e, start, daily, times, evaluate, threshold, n + 1) ==
      if |Picked(daily, times, Within(w.trainStart, w.trainEnd))| >= 2 && |Picked(daily, times, Within(w.testStart, w.testEnd))| >= 1
      then before + [ResultAt(e, start, daily, times, evaluate, threshold, n)] else before
  {
    ResultPlainly(e, start, daily, times, evaluate, threshold, n);
    var before := Results(e, start, daily, times, evaluate, threshold, n);
    assert before + [] == before;
  }

  lemma {:induction false} TradesOfResults(e: Engine, start: int, daily: seq<real>, times: seq<int>, evaluate: Evaluation, threshold: real, n: nat)
    requires |daily| == |times|
    ensures Trades(Results(e, start, daily, times, evaluate, threshold, n)) <= TestSamples(e, start, n, times)
  {
    if n > 0 {
      TradesOfResults(e, start, daily, times, evaluate, threshold, n - 1);
      PickedTested(WindowAt(e, start, n - 1), daily, times);
      OneMoreResult(Results(e, start, daily, times, evaluate, threshold, n - 1), Enough(e, start, daily, times, n - 1),
                    ResultAt(e, start, daily, times, evaluate, threshold, n - 1));
    }
  }

  lemma OneMoreResult(before: seq<WindowResult>, enough: bool, r: WindowResult)
    ensures Trades(before + if enough then [r] else []) == Trades(before) + if enough then r.testTrades else 0
  {
    TradesPlainly(before, r);
    assert before + [] == before;
  }

  method EvaluateWindows(e: Engine, specs: seq<Window>, start: int, daily: seq<real>, times: seq<int>,
                         evaluate: Evaluation, threshold: real)
    returns (results: seq<WindowResult>)
    requires |daily| == |times| && forall k :: 0 <= k < |specs| ==> specs[k] == WindowAt(e, start, k)
    ensures results == Results(e, start, daily, times, evaluate, threshold, |specs|)
  {
    results := [];
    for k := 0 to |specs|
      invariant results == Results(e, start, daily, times, evaluate, threshold, k)
    {
      var train, test := Split(specs[k], daily, times);
      if |train| >= 2 && |test| >= 1 {
        var scores := evaluate(train, test);
        results := results + [WindowResult(specs[k], scores, |test|, Overfit(scores, threshold))];
      }
    }
  }

  /** The range that run looks at: the last day is included. */
  function RangeEnd(times: seq<int>): int
    requires times != []
  {
    times[|times|-1] + DAY
  }

  /** The windows of a run end, or there is nothing to run on. */
  predicate Ends(e: Engine, daily: seq<real>, times: seq<int>) {
    |daily| == |times| && times != [] ==> Terminates(e, times[0], RangeEnd(times))
  }

  /** The analysis of a series: every usable window, in order, and the sum of their test trades. */
  function Analysed(e: Engine, daily: seq<real>, times: seq<int>, evaluate: Evaluation, threshold: real): Result
    requires Ends(e, daily, times)
  {
    if daily == [] || times == [] then Analysis([], 0)
    else if |daily| != |times| then LengthMismatch
    else
      var results := Results(e, times[0], daily, times, evaluate, threshold, WindowCount(e, times[0], RangeEnd(times)));
      Analysis(results, Trades(results))
  }

  /** No sample is counted twice when windows advance by at least a test period, or there is none. */
  lemma TestTradesAtMostAll(e: Engine, daily: seq<real>, times: seq<int>, evaluate: Evaluation, threshold: real)
    requires Ends(e, daily, times) && e.stepDays >= e.testDays
    ensures var r := Analysed(e, daily, times, evaluate, threshold); r.Analysis? ==> r.totalTestTrades <= |times|
  {
    if times != [] && |daily| == |times| {
      var n := WindowCount(e, times[0], RangeEnd(times));
      TradesOfResults(e, times[0], daily, times, evaluate, threshold, n);
      if n > 0 { TestSamplesAtMostAll(e, times[0], n, times); }
    }
  }

  /** run: `evaluate` gives the two Sharpe ratios of a train and a test sample. */
  method Run(e: Engine, daily: seq<real>, times: seq<int>, evaluate: Evaluation, threshold: real) returns (result: Result)
    requires Ends(e, daily, times)
    ensures result == Analysed(e, daily, times, evaluate, threshold)
    // from the first timestamp to a day after the last one
    ensures daily == [] || times == [] ==> result == Analysis([], 0)
    ensures daily != [] && times != [] && |daily| != |times| ==> result == LengthMismatch
    ensures daily != [] && times != [] && |daily| == |times| ==>
      result.Analysis? && result.totalTestTrades == Trades(result.windows) &&
      result.windows == Results(e, times[0], daily, times, evaluate, threshold, WindowCount(e, times[0], times[|times|-1] + 86400))
    ensures result.Analysis? && e.stepDays >= e.testDays ==> result.totalTestTrades <= |times|
  {
    if e.stepDays >= e.testDays { TestTradesAtMostAll(e, daily, times, evaluate, threshold); }
    if daily == [] || times == [] {
      return Analysis([], 0);
    }
    if |daily| != |times| {
      return LengthMismatch;
    }
    var start, end := times[0], times[|times|-1] + DAY;
    var specs := GenerateWindows(e, start, end);
    var results := EvaluateWindows(e, specs, start, daily, times, evaluate, threshold);
    var total := SumTrades(results);
    return Analysis(results, total);
  }

  method SumTrades(windows: seq<WindowResult>) returns (total: nat)
    ensures total == Trades(windows)
  {
    total := 0;
    for i := 0 to |windows|
      invariant total == Trades(windows[..i])
    {
      assert windows[..i+1][..i] == windows[..i];
      total := total + windows[i].testTrades;
    }
    assert windows[..|windows|] == windows;
  }

  /** The engine of a split steps by its own test period. */
  function EngineOf(split: (int, int)): Engine { Engine(split.0, split.1, split.1) }

  /** Exactly the given splits have a result: the analysis by their own engine. */
  ghost predicate Holds(results: Dict<(int, int), Result>, splits: seq<(int, int)>, daily: seq<real>, times: seq<int>,
                        evaluate: Evaluation, threshold: real)
    requires forall s :: s in splits ==> Ends(Engine(s.0, s.1, s.1), daily, times)
  {
    forall s :: Find(results, s) ==
      if s in splits then Some(Analysed(Engine(s.0, s.1, s.1), daily, times, evaluate, threshold)) else None
  }

  /** run_multi_split: under each split, and no other key, the analysis by its own engine; none counts a sample
      twice. */
  method RunMultiSplit(splits: seq<(int, int)>, daily: seq<real>, times: seq<int>, evaluate: Evaluation, threshold: real)
    returns (results: Dict<(int, int), Result>)
    requires forall s :: s in splits ==> Ends(Engine(s.0, s.1, s.1), daily, times)
    ensures Holds(results, splits, daily, times, evaluate, threshold)
    ensures forall s :: s in splits && Find(results, s).value.Analysis? ==> Find(results, s).value.totalTestTrades <= |times|
  {
    results := [];
    for i := 0 to |splits|
      invariant Holds(results, splits[..i], daily, times, evaluate, threshold)
    {
      assert splits[i] in splits;
      var r := Run(EngineOf(splits[i]), daily, times, evaluate, threshold);
      forall s ensures Find(Put(results, splits[i], r), s) == if s == splits[i] then Some(r) else Find(results, s) {
        FindPut(results, splits[i], r, s);
      }
      results := Put(results, splits[i], r);
    }
    assert splits[..|splits|] == splits;
    forall s | s in splits
      ensures Find(results, s).value.Analysis? ==> Find(results, s).value.totalTestTrades <= |times|
    {
      TestTradesAtMostAll(EngineOf(s), daily, times, evaluate, threshold);
    }
  }
}
