/** The append log on ordered runs: superseded votes count again, and exactly when that makes a difference. */
module ConsensusRepeats {
  import opened Options
  import opened Sides
  import opened Seqs
  import opened ConsensusVotes
  import opened ConsensusRuns
  import opened ConsensusLog

  /** Live votes among a key's arrivals from `from` on: inside the newest window, repeats included. */
  function Live(p: Policy, m: seq<VoteRecord>, from: nat): seq<VoteRecord>
    requires m != [] && from <= |m|
  {
    Filter(m[from..], FreshSince(m[|m|-1].timestamp - p.Window()))
  }

  predicate IsSuperseded(p: Policy, m: seq<VoteRecord>, i: nat)
    requires i < |m|
  {
    !LastWord(m, i) && m[i].timestamp >= m[|m|-1].timestamp - p.Window()
  }

  /** The live votes that their agents have replaced. */
  function Superseded(p: Policy, m: seq<VoteRecord>, from: nat): seq<VoteRecord>
    decreases |m| - from
  {
    if from >= |m| then []
    else (if IsSuperseded(p, m, from) then [m[from]] else []) + Superseded(p, m, from + 1)
  }

  lemma WeightAppend(a: seq<VoteRecord>, b: seq<VoteRecord>)
    ensures TotalWeight(a + b) == TotalWeight(a) + TotalWeight(b)
  {
    SumOfAppend(a, b, (v: VoteRecord) => v.weight);
  }

  /** Live votes are the standing ones and the superseded ones, in number and in weight. */
  lemma {:induction false} LiveSplits(p: Policy, m: seq<VoteRecord>, from: nat)
    requires InOrder(m) && m != [] && from <= |m|
    ensures |Live(p, m, from)| == |Standing(p, m, from)| + |Superseded(p, m, from)|
    ensures TotalWeight(Live(p, m, from)) == TotalWeight(Standing(p, m, from)) + TotalWeight(Superseded(p, m, from))
    decreases |m| - from
  {
    if from < |m| {
      var recent := m[from].timestamp >= m[|m|-1].timestamp - p.Window();
      LiveSplits(p, m, from + 1);
      StandsIffCurrent(p, m, from);
      assert m[from..][1..] == m[from+1..];
      assert Live(p, m, from) == If(recent, m[from]) + Live(p, m, from + 1);
      WeightAppend(If(recent, m[from]), Live(p, m, from + 1));
      WeightAppend(If(Stands(p, m, from), m[from]), Standing(p, m, from + 1));
      WeightAppend(If(IsSuperseded(p, m, from), m[from]), Superseded(p, m, from + 1));
    }
  }

  lemma StandsIffCurrent(p: Policy, m: seq<VoteRecord>, i: nat)
    requires InOrder(m) && i < |m|
    ensures Stands(p, m, i) <==> Current(p, m, i)
  {
    OrderedLosesNone(p, m, i);
    if Stands(p, m, i) { assert m[i].timestamp >= m[|m|-1].timestamp - p.Window(); }
  }

  /** With ordered timestamps nothing in the newest window has been swept away. */
  lemma {:induction false} OrderedRemaining(p: Policy, h: seq<VoteRecord>, key: Key, from: nat)
    requires InOrder(h) && h != [] && from <= |h|
    ensures var cutoff := h[|h|-1].timestamp - p.Window();
      Filter(Remaining(p, false, h, key, from), FreshSince(cutoff)) == Filter(h[from..], OnKeySince(key, cutoff))
    decreases |h| - from
  {
    if from < |h| {
      var cutoff := h[|h|-1].timestamp - p.Window();
      var yes := h[from].key == key && Remains(p, false, h, from);
      OrderedRemaining(p, h, key, from + 1);
      FilterAppend(If(yes, h[from]), Remaining(p, false, h, key, from + 1), FreshSince(cutoff));
      FilterIf(yes, h[from], FreshSince(cutoff));
      if h[from].timestamp >= cutoff { NotSwept(p, h, from); }
      assert h[from..][1..] == h[from+1..];
    }
  }

  lemma NotSwept(p: Policy, h: seq<VoteRecord>, i: nat)
    requires InOrder(h) && i < |h| && h[i].timestamp >= h[|h|-1].timestamp - p.Window()
    ensures !Swept(p, h, i)
  {
    forall j | i < j < |h|
      ensures h[i].timestamp >= h[j].timestamp - p.Window()
    {
      assert j < |h| - 1 ==> h[j].timestamp <= h[|h|-1].timestamp;
    }
  }

  lemma OrderedCounted(p: Policy, h: seq<VoteRecord>, from: nat)
    requires InOrder(h) && h != [] && from < |h|
    ensures var m := Arrivals(h[from..], h[|h|-1].key);
      m != [] && m[|m|-1] == h[|h|-1] && InOrder(m) && Counted(p, false, h, from) == Live(p, m, 0)
  {
    var v := h[|h|-1];
    var m := Arrivals(h[from..], v.key);
    var cutoff := v.timestamp - p.Window();
    assert h[from..] == h[from..|h|-1] + [v];
    ArrivalsSnoc(h[from..|h|-1], v, v.key);
    SliceInOrder(h, from);
    ArrivalsInOrder(h[from..], v.key);
    OrderedRemaining(p, h, v.key, from);
    FilterFilter(h[from..], OnKey(v.key), FreshSince(cutoff), OnKeySince(v.key, cutoff));
    assert m[0..] == m;
  }

  lemma SliceInOrder(h: seq<VoteRecord>, from: nat)
    requires InOrder(h) && from <= |h|
    ensures InOrder(h[from..])
  {
  }

  /** The standing votes from `from` on are enough once the superseded ones count and weigh with them. */
  predicate EnoughWithRepeats(p: Policy, m: seq<VoteRecord>, from: nat, regime: Option<string>) {
    Enough(p, regime, |Standing(p, m, from)| + |Superseded(p, m, from)|,
           TotalWeight(Standing(p, m, from)) + TotalWeight(Superseded(p, m, from)))
  }

  /** A decision on live votes, in numbers. */
  lemma LiveInNumbers(p: Policy, m: seq<VoteRecord>, from: nat, live: seq<VoteRecord>, regime: Option<string>)
    requires InOrder(m) && m != [] && from <= |m| && live == Live(p, m, from)
    ensures Agreed(p, live, regime) <==> EnoughWithRepeats(p, m, from, regime)
  {
    LiveSplits(p, m, from);
    AgreedByNumbers(p, live, regime);
  }

  /** At any arrival of any ordered run, the append log counts and weighs the superseded votes since its latest
      consensus on top of the standing ones. */
  lemma AppendLogCountsRepeats(p: Policy, g: seq<VoteRecord>, v: VoteRecord)
    requires InOrder(g + [v])
    ensures var m := Arrivals((g + [v])[Cleared(p, false, g, v.key)..], v.key);
      |StoredVotes(p, false, Rows(p, false, g), v)| == |Standing(p, m, 0)| + |Superseded(p, m, 0)| &&
      (StoreElevates(p, false, Rows(p, false, g), v) <==> EnoughWithRepeats(p, m, 0, v.regime))
  {
    var counted := Counted(p, false, g + [v], Cleared(p, false, g, v.key));
    DecidedOnRun(p, false, g, v);
    CountedInNumbers(p, g + [v], Cleared(p, false, g, v.key), v, counted);
  }

  lemma CountedInNumbers(p: Policy, h: seq<VoteRecord>, from: nat, v: VoteRecord, counted: seq<VoteRecord>)
    requires InOrder(h) && from < |h| && v == h[|h|-1] && counted == Counted(p, false, h, from)
    ensures var m := Arrivals(h[from..], v.key);
      |counted| == |Standing(p, m, 0)| + |Superseded(p, m, 0)| &&
      (Agreed(p, counted, v.regime) <==> EnoughWithRepeats(p, m, 0, v.regime))
  {
    var m := Arrivals(h[from..], v.key);
    OrderedCounted(p, h, from);
    LiveSplits(p, m, 0);
    LiveInNumbers(p, m, 0, counted, v.regime);
  }

  // ---------------------------------------------------------------- on ordered runs

  lemma SliceSnoc(g: seq<VoteRecord>, v: VoteRecord, key: Key, from: nat, used: nat)
    requires from <= |g| && used <= |Arrivals(g, key)| && Arrivals(g[from..], key) == Arrivals(g, key)[used..]
    ensures |Arrivals(g, key)| <= |Arrivals(g + [v], key)|
    ensures Arrivals((g + [v])[from..], key) == Arrivals(g + [v], key)[used..]
  {
    assert (g + [v])[from..] == g[from..] + [v];
    ArrivalsSnoc(g, v, key);
    ArrivalsSnoc(g[from..], v, key);
  }

  lemma UsedUpSnoc(p: Policy, g: seq<VoteRecord>, v: VoteRecord)
    ensures UsedUp(p, g + [v]) == if ConsensusNow(p, g + [v]) then |g| + 1 else UsedUp(p, g)
    ensures ConsensusNow(p, g + [v]) <==> Agreed(p, Standing(p, g + [v], UsedUp(p, g)), v.regime)
  {
    assert (g + [v])[..|g|] == g;
  }

  ghost predicate Since(p: Policy, h: seq<VoteRecord>, key: Key) {
    Arrivals(h[UsedOn(p, h, key)..], key) == Arrivals(h, key)[UsedUp(p, Arrivals(h, key))..]
  }

  lemma SinceOneMore(p: Policy, g: seq<VoteRecord>, v: VoteRecord, h: seq<VoteRecord>, key: Key)
    requires h == g + [v] && Since(p, g, key)
    ensures Since(p, h, key)
  {
    assert h[..|h|-1] == g && h[|h|-1] == v;
    SliceSnoc(g, v, key, UsedOn(p, g, key), UsedUp(p, Arrivals(g, key)));
    ArrivalsSnoc(g, v, key);
    if v.key == key {
      UsedUpSnoc(p, Arrivals(g, key), v);
    } else {
      assert Arrivals(h, key) == Arrivals(g, key);
    }
  }

  /** What a key has seen since memory's latest consensus on it. */
  lemma {:induction false} SinceConsensus(p: Policy, h: seq<VoteRecord>, key: Key)
    ensures Since(p, h, key)
  {
    if h != [] {
      SinceConsensus(p, h[..|h|-1], key);
      SinceOneMore(p, h[..|h|-1], h[|h|-1], h, key);
    }
  }

  lemma CountedIsLive(p: Policy, g: seq<VoteRecord>, v: VoteRecord)
    requires InOrder(g + [v])
    ensures var prev, m := Arrivals(g, v.key), Arrivals(g + [v], v.key);
      m == prev + [v] && InOrder(m) && Counted(p, false, g + [v], UsedOn(p, g, v.key)) == Live(p, m, UsedUp(p, prev))
  {
    var h, from, used := g + [v], UsedOn(p, g, v.key), UsedUp(p, Arrivals(g, v.key));
    SinceConsensus(p, g, v.key);
    SliceSnoc(g, v, v.key, from, used);
    ArrivalsSnoc(g, v, v.key);
    ArrivalsInOrder(h, v.key);
    assert h[|g|] == v;
    OrderedCounted(p, h, from);
    LiveOfTail(p, Arrivals(h, v.key), used);
  }

  lemma LiveOfTail(p: Policy, m: seq<VoteRecord>, used: nat)
    requires m != [] && used < |m|
    ensures Live(p, m[used..], 0) == Live(p, m, used)
  {
    assert m[used..][0..] == m[used..];
  }

  /** On the newest arrival of a key, the superseded votes since memory's latest consensus make no difference. */
  predicate RepeatsMakeNoDifference(p: Policy, m: seq<VoteRecord>)
    requires m != []
  {
    var regime, used := m[|m|-1].regime, UsedUp(p, m[..|m|-1]);
    EnoughWithRepeats(p, m, used, regime) == Enough(p, regime, |Standing(p, m, used)|, TotalWeight(Standing(p, m, used)))
  }

  lemma AlikeInNumbers(p: Policy, g: seq<VoteRecord>, v: VoteRecord)
    requires InOrder(g + [v])
    ensures Arrivals(g + [v], v.key) == Arrivals(g, v.key) + [v]
    ensures Alike(p, false, g + [v]) <==> RepeatsMakeNoDifference(p, Arrivals(g, v.key) + [v])
  {
    var prev := Arrivals(g, v.key);
    var counted := Counted(p, false, g + [v], UsedOn(p, g, v.key));
    CountedIsLive(p, g, v);
    LiveInNumbers(p, prev + [v], UsedUp(p, prev), counted, v.regime);
    StandingInNumbers(p, prev, v);
    AlikeOnNewest(p, g, v);
    assert (prev + [v])[..|prev|] == prev;
  }

  lemma StandingInNumbers(p: Policy, prev: seq<VoteRecord>, v: VoteRecord)
    ensures var standing := Standing(p, prev + [v], UsedUp(p, prev));
      ConsensusNow(p, prev + [v]) <==> Enough(p, v.regime, |standing|, TotalWeight(standing))
  {
    UsedUpSnoc(p, prev, v);
    AgreedByNumbers(p, Standing(p, prev + [v], UsedUp(p, prev)), v.regime);
  }

  lemma AlikeOnNewest(p: Policy, g: seq<VoteRecord>, v: VoteRecord)
    ensures Alike(p, false, g + [v]) <==>
      Agreed(p, Counted(p, false, g + [v], UsedOn(p, g, v.key)), v.regime) == ConsensusNow(p, Arrivals(g + [v], v.key))
  {
    assert (g + [v])[..|g|] == g;
  }

  /** The history of the key of arrival n, up to and including it. */
  function Mine(h: seq<VoteRecord>, n: nat): (m: seq<VoteRecord>)
    requires n < |h|
    ensures m != []
  {
    ArrivalsSnoc(h[..n], h[n], h[n].key);
    assert h[..n+1] == h[..n] + [h[n]];
    Arrivals(h[..n+1], h[n].key)
  }

  lemma AlikeAt(p: Policy, h: seq<VoteRecord>, n: nat)
    requires InOrder(h) && n < |h|
    ensures Alike(p, false, h[..n+1]) <==> RepeatsMakeNoDifference(p, Mine(h, n))
  {
    assert h[..n+1] == h[..n] + [h[n]];
    PrefixInOrder(h, n + 1);
    AlikeInNumbers(p, h[..n], h[n]);
  }

  lemma PrefixInOrder(h: seq<VoteRecord>, n: nat)
    requires InOrder(h) && n <= |h|
    ensures InOrder(h[..n])
  {
  }

  ghost predicate NeverADifference(p: Policy, h: seq<VoteRecord>) {
    forall n :: 0 <= n < |h| ==> RepeatsMakeNoDifference(p, Mine(h, n))
  }

  /** Exactly when both forms elevate the same arrivals of an ordered run, under either policy: when at no arrival the
      superseded live votes, counted and weighed on top of the standing ones, change the decision. */
  lemma OrderedRunsAlikeIff(p: Policy, h: seq<VoteRecord>)
    requires InOrder(h)
    ensures StoreElevations(p, false, h) == MemoryElevations(p, h) <==> NeverADifference(p, h)
  {
    RunsAlikeIff(p, false, h);
    if AlikeThroughout(p, false, h) {
      forall n | 0 <= n < |h|
        ensures RepeatsMakeNoDifference(p, Mine(h, n))
      {
        AlikeAt(p, h, n);
      }
    }
    if NeverADifference(p, h) { AlikeFromIndices(p, h); }
  }

  lemma AlikeFromIndices(p: Policy, h: seq<VoteRecord>)
    requires InOrder(h) && NeverADifference(p, h)
    ensures AlikeThroughout(p, false, h)
  {
    forall n | 0 < n <= |h|
      ensures Alike(p, false, h[..n])
    {
      assert RepeatsMakeNoDifference(p, Mine(h, n - 1));
      AlikeAt(p, h, n - 1);
    }
  }

  /** The standing votes are too few, and with the superseded ones they are enough. */
  predicate RepeatsSuffice(p: Policy, m: seq<VoteRecord>)
    requires m != []
  {
    var used := UsedUp(p, m[..|m|-1]);
    |Standing(p, m, used)| < Needed(p, m[|m|-1].regime) <= |Standing(p, m, used)| + |Superseded(p, m, used)|
  }

  /** Where votes are counted and not weighed: both forms elevate the same arrivals of an ordered run if and only if at
      none of them the standing votes are too few and the superseded ones make up the number. */
  lemma AppendLogDecidesAlikeIff(p: Policy, h: seq<VoteRecord>)
    requires InOrder(h) && !Weighs(p)
    ensures StoreElevations(p, false, h) == MemoryElevations(p, h) <==>
      forall n :: 0 <= n < |h| ==> !RepeatsSuffice(p, Mine(h, n))
  {
    OrderedRunsAlikeIff(p, h);
    forall n | 0 <= n < |h|
      ensures RepeatsMakeNoDifference(p, Mine(h, n)) <==> !RepeatsSuffice(p, Mine(h, n))
    {
    }
  }

  // ---------------------------------------------------------------- runs on which they differ

  lemma {:induction false} RemainingShort(p: Policy, upsert: bool, h: seq<VoteRecord>, key: Key, from: nat)
    requires from <= |h|
    ensures |Remaining(p, upsert, h, key, from)| <= |h| - from
    decreases |h| - from
  {
    if from < |h| { RemainingShort(p, upsert, h, key, from + 1); }
  }

  lemma {:induction false} NeverClears(p: Policy, upsert: bool, h: seq<VoteRecord>, key: Key)
    requires forall v :: v in h ==> Needed(p, v.regime) > |h|
    ensures Cleared(p, upsert, h, key) == 0
  {
    if h != [] {
      var v := h[|h|-1];
      NeverClears(p, upsert, h[..|h|-1], key);
      NeverClears(p, upsert, h[..|h|-1], v.key);
      RemainingShort(p, upsert, h, v.key, 0);
      FilterShorter(Remaining(p, upsert, h, v.key, 0), FreshSince(v.timestamp - p.Window()));
      AgreedByNumbers(p, Counted(p, upsert, h, 0), v.regime);
      assert v in h;
    }
  }

  /** As many live votes on one key as are needed, the first two of them of one agent: the append log elevates the
      last of them, and memory does not. */
  lemma RepeatsDecide(p: Policy, g: seq<VoteRecord>, v: VoteRecord)
    requires !Weighs(p) && InOrder(g + [v]) && g != [] && g[0].agent == (g + [v])[1].agent
    requires forall x :: x in g + [v] ==> x.key == v.key && Needed(p, x.regime) == |g| + 1 && x.timestamp >= v.timestamp - p.Window()
    ensures StoreElevates(p, false, Rows(p, false, g), v) && !Elevates(p, PendingOf(Memory(p, g), v.key), v)
  {
    var h := g + [v];
    assert h[..|g|] == g && h[|g|] == v && v in h;
    forall x | x in g ensures Needed(p, x.regime) > |g| { assert x in h; }
    NeverClears(p, false, g, v.key);
    AppendLogCountsAll(p, g, v);
    NeverAgrees(p, g);
    ElevatedIsConsensus(p, g, v);
    FilterAll(h, OnKey(v.key));
    assert !LastWord(h, 0);
    StandingShort(p, h, 1);
    AgreedByNumbers(p, Standing(p, h, 0), v.regime);
  }

  lemma AppendLogCountsAll(p: Policy, g: seq<VoteRecord>, v: VoteRecord)
    requires !Weighs(p) && InOrder(g + [v]) && Cleared(p, false, g, v.key) == 0
    requires forall x :: x in g + [v] ==> x.key == v.key && x.timestamp >= v.timestamp - p.Window()
    requires Needed(p, v.regime) <= |g| + 1
    ensures StoreElevates(p, false, Rows(p, false, g), v)
  {
    DecidedOnRun(p, false, g, v);
    CountsAll(p, g + [v], v);
    AgreedByNumbers(p, g + [v], v.regime);
  }

  lemma CountsAll(p: Policy, h: seq<VoteRecord>, v: VoteRecord)
    requires InOrder(h) && h != [] && h[|h|-1] == v
    requires forall x :: x in h ==> x.key == v.key && x.timestamp >= v.timestamp - p.Window()
    ensures Counted(p, false, h, 0) == h
  {
    OrderedRemaining(p, h, v.key, 0);
    assert h[0..] == h;
    FilterAll(h, OnKeySince(v.key, v.timestamp - p.Window()));
  }

  function Vote(agent: string, id: string, timestamp: int): VoteRecord {
    VoteRecord(agent, Key("X", Buy), id, 1.0, timestamp, None)
  }

  /** With a threshold of two, one agent that votes twice is enough for the append log of the weighted router, and not
      for memory. */
  lemma OneAgentElevatesAlone()
    ensures var p, g, v := Enhanced(Config(2, 0.0, 10, map[], 1, {})), [Vote("a", "1", 0)], Vote("a", "2", 1);
      StoreElevates(p, false, Rows(p, false, g), v) && !Elevates(p, PendingOf(Memory(p, g), v.key), v)
  {
    var a, b := Vote("a", "1", 0), Vote("a", "2", 1);
    assert [a] + [b] == [a, b];
    RepeatsDecide(Enhanced(Config(2, 0.0, 10, map[], 1, {})), [a], b);
  }

  /** With a threshold of three, so is a third vote that repeats nothing itself. */
  lemma RepeatCountsOn()
    ensures var p, g, v := Enhanced(Config(3, 0.0, 10, map[], 1, {})), [Vote("a", "1", 0), Vote("a", "2", 1)], Vote("b", "3", 2);
      StoreElevates(p, false, Rows(p, false, g), v) && !Elevates(p, PendingOf(Memory(p, g), v.key), v)
  {
    var a, b, c := Vote("a", "1", 0), Vote("a", "2", 1), Vote("b", "3", 2);
    assert [a, b] + [c] == [a, b, c];
    RepeatsDecide(Enhanced(Config(3, 0.0, 10, map[], 1, {})), [a, b], c);
  }
}
