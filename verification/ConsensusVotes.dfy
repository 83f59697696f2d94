/** Votes, the consensus rules, and the voting history of one (ticker, side) key. */
module ConsensusVotes {
  import opened Options
  import opened Sides
  import opened Reals
  import opened Seqs

  datatype Key = Key(ticker: string, side: Side)

  datatype VoteRecord = VoteRecord(agent: string, key: Key, opportunityId: string, weight: real,
                                   timestamp: int, regime: Option<string>)

  datatype Config = Config(threshold: int, weightThreshold: real, window: int,
                           regimeThresholds: map<string, int>, minAgents: int,
                           unanimousRegimes: set<string>)

  /** What turns the votes in hand into a decision: the N-of-M rule of ConsensusRouter or the
      weighted rule of EnhancedConsensusRouter. */
  datatype Policy = Basic(threshold: int, basicWindow: int) | Enhanced(config: Config) {
    function Window(): int {
      if Basic? then basicWindow else config.window
    }
  }

  function Max(a: int, b: int): int { if a < b then b else a }

  function Threshold(c: Config, regime: Option<string>): int {
    if regime.Some? && regime.value in c.regimeThresholds then c.regimeThresholds[regime.value] else c.threshold
  }

  predicate Unanimous(c: Config, regime: Option<string>) {
    regime.Some? && regime.value in c.unanimousRegimes
  }

  function TotalWeight(votes: seq<VoteRecord>): real {
    SumOf(votes, (v: VoteRecord) => v.weight)
  }

  /** EnhancedConsensusRouter._check_consensus: note that it counts records, not distinct agents. */
  predicate CheckConsensus(c: Config, votes: seq<VoteRecord>, regime: Option<string>) {
    var count := |votes|;
    votes != [] &&
    count >= Max(c.minAgents, 1) &&
    if Unanimous(c, regime) then
      if c.weightThreshold > 0.0 then TotalWeight(votes) >= c.weightThreshold * count as real
      else count >= Threshold(c, regime)
    else if c.weightThreshold > 0.0 then
      TotalWeight(votes) / count as real >= c.weightThreshold && count >= Threshold(c, regime)
    else count >= Threshold(c, regime)
  }

  predicate Agreed(p: Policy, votes: seq<VoteRecord>, regime: Option<string>) {
    match p
    case Basic(threshold, _) => |votes| >= threshold
    case Enhanced(config) => CheckConsensus(config, votes, regime)
  }

  /** The decision depends on which votes are in hand, never on their order. */
  lemma AgreedIgnoresOrder(p: Policy, a: seq<VoteRecord>, b: seq<VoteRecord>, regime: Option<string>)
    requires multiset(a) == multiset(b)
    ensures Agreed(p, a, regime) == Agreed(p, b, regime)
  {
    SumOfPermuted(a, b, (v: VoteRecord) => v.weight);
  }

  /** Policies that weigh votes as well as count them. */
  predicate Weighs(p: Policy) {
    p.Enhanced? && p.config.weightThreshold > 0.0
  }

  /** The number of votes a policy asks for. */
  function Needed(p: Policy, regime: Option<string>): int {
    if p.Basic? then p.threshold
    else if Weighs(p) && Unanimous(p.config, regime) then Max(p.config.minAgents, 1)
    else Max(Max(p.config.minAgents, 1), Threshold(p.config, regime))
  }

  /** n votes of total weight w are enough. */
  predicate Enough(p: Policy, regime: Option<string>, n: int, w: real) {
    n >= Needed(p, regime) && (Weighs(p) ==> w >= Times(p.config.weightThreshold, n as real))
  }

  /** Every decision is one on the number of votes and their total weight. */
  lemma AgreedByNumbers(p: Policy, votes: seq<VoteRecord>, regime: Option<string>)
    ensures Agreed(p, votes, regime) <==> Enough(p, regime, |votes|, TotalWeight(votes))
  {
    if p.Enhanced? && votes != [] {
      MeanReaches(TotalWeight(votes), |votes| as real, p.config.weightThreshold);
    }
  }

  /** The weighted rule in plain terms. The number asked for is that of the regime where it has one of its own. */
  lemma RulePlainly(c: Config, votes: seq<VoteRecord>, regime: Option<string>, asked: int)
    requires asked == if regime.Some? && regime.value in c.regimeThresholds then c.regimeThresholds[regime.value] else c.threshold
    ensures votes == [] || |votes| < c.minAgents ==> !CheckConsensus(c, votes, regime)
    // without a weight threshold votes are counted
    ensures c.weightThreshold <= 0.0 && votes != [] && |votes| >= c.minAgents ==>
      (CheckConsensus(c, votes, regime) <==> |votes| >= asked)
    // with one, the mean weight must reach it as well; in a unanimous regime that alone decides
    ensures c.weightThreshold > 0.0 && votes != [] && |votes| >= c.minAgents ==>
      (CheckConsensus(c, votes, regime) <==>
        TotalWeight(votes) >= c.weightThreshold * |votes| as real &&
        ((regime.Some? && regime.value in c.unanimousRegimes) || |votes| >= asked))
  {
    if votes != [] { MeanReaches(TotalWeight(votes), |votes| as real, c.weightThreshold); }
  }

  lemma BasicPlainly(threshold: int, window: int, c: Config, votes: seq<VoteRecord>, regime: Option<string>)
    ensures Agreed(Basic(threshold, window), votes, regime) <==> |votes| >= threshold
    ensures Agreed(Enhanced(c), votes, regime) <==> CheckConsensus(c, votes, regime)
    ensures Basic(threshold, window).Window() == window && Enhanced(c).Window() == c.window
  {
  }

  lemma WeightIsSum(votes: seq<VoteRecord>)
    ensures TotalWeight(votes) == if votes == [] then 0.0 else votes[0].weight + TotalWeight(votes[1..])
  {
    assert votes != [] ==> TotalWeight(votes[1..]) == SumOf(votes[1..], (v: VoteRecord) => v.weight);
  }

  lemma MeanReaches(total: real, n: real, least: real)
    requires n > 0.0
    ensures total / n >= least <==> total >= least * n
  {
    var mean := total / n;
    assert total == mean * n;
    assert (mean - least) * n == total - least * n;
  }

  // ---------------------------------------------------------------- the pending dict of one key

  function FreshSince(cutoff: int): VoteRecord -> bool {
    (x: VoteRecord) => x.timestamp >= cutoff
  }

  function OthersSince(agent: string, cutoff: int): VoteRecord -> bool {
    (x: VoteRecord) => x.agent != agent && x.timestamp >= cutoff
  }

  /** pending[key][v.agent] = v, on the values of the dict in insertion order. */
  function PutVote(votes: seq<VoteRecord>, v: VoteRecord): (r: seq<VoteRecord>) {
    if votes == [] then [v]
    else if votes[0].agent == v.agent then [v] + votes[1..]
    else [votes[0]] + PutVote(votes[1..], v)
  }

  ghost predicate OneVoteEach(votes: seq<VoteRecord>) {
    forall i, j :: 0 <= i < j < |votes| ==> votes[i].agent != votes[j].agent
  }

  /** The valid votes in hand when v arrives. */
  function InHand(p: Policy, pending: seq<VoteRecord>, v: VoteRecord): seq<VoteRecord> {
    Filter(PutVote(pending, v), FreshSince(v.timestamp - p.Window()))
  }

  predicate Elevates(p: Policy, pending: seq<VoteRecord>, v: VoteRecord) {
    Agreed(p, InHand(p, pending, v), v.regime)
  }

  function NextPending(p: Policy, pending: seq<VoteRecord>, v: VoteRecord): seq<VoteRecord> {
    if Elevates(p, pending, v) then [] else InHand(p, pending, v)
  }

  /** The pending votes of a key after the arrivals h on that key. */
  function PendingAfter(p: Policy, h: seq<VoteRecord>): seq<VoteRecord> {
    if h == [] then [] else NextPending(p, PendingAfter(p, h[..|h|-1]), h[|h|-1])
  }

  lemma {:induction false} PutVoteMembers(votes: seq<VoteRecord>, v: VoteRecord)
    ensures forall x :: x in PutVote(votes, v) ==> x == v || x in votes
    ensures |PutVote(votes, v)| <= |votes| + 1
  {
    if votes != [] { PutVoteMembers(votes[1..], v); }
  }

  lemma {:induction false} PutVoteOneEach(votes: seq<VoteRecord>, v: VoteRecord)
    requires OneVoteEach(votes)
    ensures OneVoteEach(PutVote(votes, v))
  {
    if votes != [] && votes[0].agent != v.agent {
      PutVoteOneEach(votes[1..], v);
      PutVoteMembers(votes[1..], v);
      var rest := PutVote(votes[1..], v);
      forall i | 0 <= i < |rest|
        ensures rest[i].agent != votes[0].agent
      {
        assert rest[i] in rest;
      }
    }
  }

  lemma {:induction false} FilterKeepsOneEach(votes: seq<VoteRecord>, f: VoteRecord -> bool)
    requires OneVoteEach(votes)
    ensures OneVoteEach(Filter(votes, f))
  {
    if votes != [] {
      FilterKeepsOneEach(votes[1..], f);
      FilterMembers(votes[1..], f);
      var rest := Filter(votes[1..], f);
      forall i | 0 <= i < |rest|
        ensures rest[i].agent != votes[0].agent
      {
        assert rest[i] in rest;
      }
    }
  }

  lemma {:induction false} PendingOneEach(p: Policy, h: seq<VoteRecord>)
    ensures OneVoteEach(PendingAfter(p, h))
  {
    if h != [] {
      var g, v := h[..|h|-1], h[|h|-1];
      PendingOneEach(p, g);
      PutVoteOneEach(PendingAfter(p, g), v);
      FilterKeepsOneEach(PutVote(PendingAfter(p, g), v), FreshSince(v.timestamp - p.Window()));
    }
  }

  /** The votes in hand: every pending vote of another agent inside the window, and the arriving
      vote if its own window admits it. */
  lemma {:induction false} InHandCount(p: Policy, pending: seq<VoteRecord>, v: VoteRecord)
    requires OneVoteEach(pending)
    ensures multiset(InHand(p, pending, v))
         == multiset(Filter(pending, OthersSince(v.agent, v.timestamp - p.Window()))) + multiset(Arriving(p, v))
  {
    var recent, others := FreshSince(v.timestamp - p.Window()), OthersSince(v.agent, v.timestamp - p.Window());
    if pending == [] {
      assert [v][1..] == [] && Filter([v][1..], recent) == [];
      assert Filter([v], recent) == Arriving(p, v);
    } else {
      var first, rest := pending[0], pending[1..];
      if first.agent == v.agent {
        FilterAgree(rest, recent, others);
        assert PutVote(pending, v) == [v] + rest;
        assert InHand(p, pending, v) == Arriving(p, v) + Filter(rest, others);
        assert Filter(pending, others) == Filter(rest, others);
        BagSwap(Arriving(p, v), Filter(rest, others));
      } else {
        InHandCount(p, rest, v);
        var head := if recent(first) then [first] else [];
        assert InHand(p, pending, v) == head + InHand(p, rest, v);
        assert Filter(pending, others) == head + Filter(rest, others);
        BagPrefix(head, InHand(p, rest, v), Filter(rest, others), Arriving(p, v));
      }
    }
  }

  lemma BagPrefix<T>(head: seq<T>, whole: seq<T>, a: seq<T>, b: seq<T>)
    requires multiset(whole) == multiset(a) + multiset(b)
    ensures multiset(head + whole) == multiset(head + a) + multiset(b)
  {
  }

  lemma BagSwap<T>(a: seq<T>, b: seq<T>)
    ensures multiset(a + b) == multiset(b) + multiset(a)
  {
  }

  /** The arriving vote, if it is inside its own window (a negative window admits nothing). */
  function Arriving(p: Policy, v: VoteRecord): seq<VoteRecord> {
    if p.Window() >= 0 then [v] else []
  }

  // ---------------------------------------------------------------- the history of one key

  /** Vote i is still its agent's word, and no arrival since, itself included, came too late for it. */
  predicate Stands(p: Policy, h: seq<VoteRecord>, i: nat)
    requires i < |h|
  {
    LastWord(h, i) && !Expelled(p, h, i)
  }

  predicate LastWord(h: seq<VoteRecord>, i: nat)
    requires i < |h|
  {
    forall j :: i < j < |h| ==> h[j].agent != h[i].agent
  }

  /** Some arrival had a window that left vote i out. */
  predicate Expelled(p: Policy, h: seq<VoteRecord>, i: nat)
    requires i < |h|
  {
    exists j :: i <= j < |h| && h[i].timestamp < h[j].timestamp - p.Window()
  }

  /** The standing votes among arrivals from, from+1, ..., in order of arrival. */
  function Standing(p: Policy, h: seq<VoteRecord>, from: nat): seq<VoteRecord>
    decreases |h| - from
  {
    if from >= |h| then []
    else (if Stands(p, h, from) then [h[from]] else []) + Standing(p, h, from + 1)
  }

  /** How many arrivals the latest consensus has used up: everything up to and including it. */
  function UsedUp(p: Policy, h: seq<VoteRecord>): (n: nat)
    ensures n <= |h|
  {
    if h == [] then 0
    else
      var before := UsedUp(p, h[..|h|-1]);
      if Agreed(p, Standing(p, h, before), h[|h|-1].regime) then |h| else before
  }

  /** A consensus falls on the newest arrival. */
  predicate ConsensusNow(p: Policy, h: seq<VoteRecord>) {
    h != [] && UsedUp(p, h) == |h|
  }

  lemma {:induction false} StandingMembers(p: Policy, h: seq<VoteRecord>, from: nat)
    ensures forall x :: x in Standing(p, h, from) <==> exists i :: from <= i < |h| && h[i] == x && Stands(p, h, i)
    decreases |h| - from
  {
    if from < |h| {
      StandingMembers(p, h, from + 1);
      forall x
        ensures x in Standing(p, h, from) <==> exists i :: from <= i < |h| && h[i] == x && Stands(p, h, i)
      {
        if x in Standing(p, h, from + 1) {
          var i :| from + 1 <= i < |h| && h[i] == x && Stands(p, h, i);
        }
      }
    }
  }

  /** One more arrival: the standing votes of other agents that its window admits, then the new one. */
  lemma {:induction false} StandingSnoc(p: Policy, g: seq<VoteRecord>, v: VoteRecord, from: nat)
    requires from <= |g|
    ensures Standing(p, g + [v], from)
         == Filter(Standing(p, g, from), OthersSince(v.agent, v.timestamp - p.Window())) + Arriving(p, v)
    decreases |g| - from
  {
    var h := g + [v];
    var keep := OthersSince(v.agent, v.timestamp - p.Window());
    if from == |g| {
      assert Standing(p, h, from + 1) == [];
      assert Standing(p, g, from) == [];
    } else {
      StandingSnoc(p, g, v, from + 1);
      StandsSnoc(p, g, v, from);
      FilterAppend(if Stands(p, g, from) then [g[from]] else [], Standing(p, g, from + 1), keep);
    }
  }

  lemma StandsSnoc(p: Policy, g: seq<VoteRecord>, v: VoteRecord, i: nat)
    requires i < |g|
    ensures Stands(p, g + [v], i) <==> Stands(p, g, i) && OthersSince(v.agent, v.timestamp - p.Window())(g[i])
  {
    var h := g + [v];
    assert h[|g|] == v;
    assert forall j :: 0 <= j < |g| ==> h[j] == g[j];
    if Stands(p, h, i) {
      assert forall j :: i < j < |g| ==> h[j].agent != h[i].agent;
    }
    if Expelled(p, g, i) {
      var j :| i <= j < |g| && g[i].timestamp < g[j].timestamp - p.Window();
      assert h[i].timestamp < h[j].timestamp - p.Window();
    }
  }

  /** The pending dict is a cache of the history, whatever the clock does: it holds exactly each agent's
      last vote since the latest consensus that no arrival since has pushed out of its window. */
  lemma {:induction false} PendingIsStanding(p: Policy, h: seq<VoteRecord>)
    ensures multiset(PendingAfter(p, h)) == multiset(Standing(p, h, UsedUp(p, h)))
    decreases |h|, 1
  {
    if h != [] {
      ElevatesIsConsensus(p, h);
      assert Standing(p, h, |h|) == [];
    }
  }

  /** An arrival is elevated exactly when the set derived from the history agrees. */
  lemma {:induction false} ElevatesIsConsensus(p: Policy, h: seq<VoteRecord>)
    requires h != []
    ensures var g := h[..|h|-1];
      multiset(InHand(p, PendingAfter(p, g), h[|h|-1])) == multiset(Standing(p, h, UsedUp(p, g))) &&
      (Elevates(p, PendingAfter(p, g), h[|h|-1]) <==> ConsensusNow(p, h))
    decreases |h|, 0
  {
    var g, v := h[..|h|-1], h[|h|-1];
    assert h == g + [v];
    PendingIsStanding(p, g);
    PendingOneEach(p, g);
    InHandCount(p, PendingAfter(p, g), v);
    StandingSnoc(p, g, v, UsedUp(p, g));
    FilterPermuted(PendingAfter(p, g), Standing(p, g, UsedUp(p, g)), OthersSince(v.agent, v.timestamp - p.Window()));
    AgreedIgnoresOrder(p, InHand(p, PendingAfter(p, g), v), Standing(p, h, UsedUp(p, g)), v.regime);
  }

  // ---------------------------------------------------------------- the window of the newest arrival

  /** Timestamps never go back. */
  ghost predicate InOrder(h: seq<VoteRecord>) {
    forall i, j :: 0 <= i < j < |h| ==> h[i].timestamp <= h[j].timestamp
  }

  /** Vote i is still its agent's word, and inside the window of the newest arrival. */
  predicate Current(p: Policy, h: seq<VoteRecord>, i: nat)
    requires i < |h|
  {
    LastWord(h, i) && h[i].timestamp >= h[|h|-1].timestamp - p.Window()
  }

  function Recent(p: Policy, h: seq<VoteRecord>, from: nat): seq<VoteRecord>
    decreases |h| - from
  {
    if from >= |h| then []
    else (if Current(p, h, from) then [h[from]] else []) + Recent(p, h, from + 1)
  }

  /** Arrivals from, from+1, ... that the newest window still admits were never pushed out before. */
  ghost predicate NoneLost(p: Policy, h: seq<VoteRecord>, from: nat) {
    forall i :: from <= i < |h| && Current(p, h, i) ==> !Expelled(p, h, i)
  }

  lemma {:induction false} StandingIsRecent(p: Policy, h: seq<VoteRecord>, from: nat)
    ensures |Standing(p, h, from)| <= |Recent(p, h, from)|
    ensures if NoneLost(p, h, from) then Standing(p, h, from) == Recent(p, h, from)
            else |Standing(p, h, from)| < |Recent(p, h, from)|
    decreases |h| - from
  {
    if from < |h| {
      StandingIsRecent(p, h, from + 1);
      if Stands(p, h, from) {
        assert h[from].timestamp >= h[|h|-1].timestamp - p.Window();
      }
    }
  }

  /** Exactly when the pending dict is each agent's last vote since the latest consensus inside the window of
      the newest arrival: when no such vote had been pushed out by an arrival in between. */
  lemma PendingIsRecentIff(p: Policy, h: seq<VoteRecord>)
    ensures multiset(PendingAfter(p, h)) == multiset(Recent(p, h, UsedUp(p, h))) <==> NoneLost(p, h, UsedUp(p, h))
  {
    PendingIsStanding(p, h);
    StandingIsRecent(p, h, UsedUp(p, h));
    var standing, recent := Standing(p, h, UsedUp(p, h)), Recent(p, h, UsedUp(p, h));
    assert |multiset(standing)| == |standing| && |multiset(recent)| == |recent|;
  }

  /** Nothing is lost as long as timestamps do not go back: then pending votes, and the sets that consensus is
      decided on, are those of the window of the newest arrival. */
  lemma OrderedIsRecent(p: Policy, h: seq<VoteRecord>)
    requires InOrder(h)
    ensures multiset(PendingAfter(p, h)) == multiset(Recent(p, h, UsedUp(p, h)))
    ensures h != [] ==>
      var before := UsedUp(p, h[..|h|-1]);
      UsedUp(p, h) == if Agreed(p, Recent(p, h, before), h[|h|-1].regime) then |h| else before
  {
    OrderedLosesNone(p, h, UsedUp(p, h));
    PendingIsRecentIff(p, h);
    if h != [] {
      OrderedLosesNone(p, h, UsedUp(p, h[..|h|-1]));
      StandingIsRecent(p, h, UsedUp(p, h[..|h|-1]));
    }
  }

  lemma OrderedLosesNone(p: Policy, h: seq<VoteRecord>, from: nat)
    requires InOrder(h)
    ensures NoneLost(p, h, from)
  {
    forall i | from <= i < |h| && Current(p, h, i)
      ensures !Expelled(p, h, i)
    {
      forall j | i <= j < |h|
        ensures h[i].timestamp >= h[j].timestamp - p.Window()
      {
        assert j < |h| - 1 ==> h[j].timestamp <= h[|h|-1].timestamp;
      }
    }
  }

  /** A timestamp that goes back can lose a vote: that of b, dropped while the clock stood at 20, is inside
      the window of the later arrival stamped 5. */
  lemma LateClockLosesVote()
    ensures var k := Key("X", Buy);
      var b := VoteRecord("b", k, "1", 1.0, 0, None);
      var h := [b, VoteRecord("c", k, "2", 1.0, 20, None), VoteRecord("d", k, "3", 1.0, 5, None)];
      var p := Basic(4, 10);
      !NoneLost(p, h, UsedUp(p, h)) && multiset(PendingAfter(p, h)) != multiset(Recent(p, h, UsedUp(p, h)))
  {
    var k := Key("X", Buy);
    var h := [VoteRecord("b", k, "1", 1.0, 0, None), VoteRecord("c", k, "2", 1.0, 20, None), VoteRecord("d", k, "3", 1.0, 5, None)];
    var p := Basic(4, 10);
    NeverAgrees(p, h);
    assert Current(p, h, 0);
    assert h[0].timestamp < h[1].timestamp - p.Window();
    PendingIsRecentIff(p, h);
  }

  /** More votes than there are arrivals are never in hand. */
  lemma {:induction false} NeverAgrees(p: Policy, h: seq<VoteRecord>)
    requires forall v :: v in h ==> Needed(p, v.regime) > |h|
    ensures UsedUp(p, h) == 0
  {
    if h != [] {
      var g, v := h[..|h|-1], h[|h|-1];
      NeverAgrees(p, g);
      StandingShort(p, h, 0);
      AgreedByNumbers(p, Standing(p, h, 0), v.regime);
      assert v in h;
    }
  }

  lemma {:induction false} StandingShort(p: Policy, h: seq<VoteRecord>, from: nat)
    requires from <= |h|
    ensures |Standing(p, h, from)| <= |h| - from
    decreases |h| - from
  {
    if from < |h| { StandingShort(p, h, from + 1); }
  }

  // ---------------------------------------------------------------- votes are not reused

  /** Number of elevations over a run on one key. */
  function Elevations(p: Policy, h: seq<VoteRecord>): nat {
    if h == [] then 0
    else Elevations(p, h[..|h|-1]) + if Elevates(p, PendingAfter(p, h[..|h|-1]), h[|h|-1]) then 1 else 0
  }

  /** Number of votes that the elevations of a run consumed. */
  function Consumed(p: Policy, h: seq<VoteRecord>): nat {
    if h == [] then 0
    else
      var pending, v := PendingAfter(p, h[..|h|-1]), h[|h|-1];
      Consumed(p, h[..|h|-1]) + if Elevates(p, pending, v) then |InHand(p, pending, v)| else 0
  }

  /** Every arrival is consumed by at most one elevation, under any clock and any policy. */
  lemma {:induction false} VotesNotReused(p: Policy, h: seq<VoteRecord>)
    ensures Consumed(p, h) + |PendingAfter(p, h)| <= |h|
  {
    if h != [] {
      var g, v := h[..|h|-1], h[|h|-1];
      VotesNotReused(p, g);
      PutVoteMembers(PendingAfter(p, g), v);
      FilterShorter(PutVote(PendingAfter(p, g), v), FreshSince(v.timestamp - p.Window()));
    }
  }

  /** N-of-M: each elevation spends at least `threshold` arrivals of its own. */
  lemma BasicElevationsBounded(p: Policy, h: seq<VoteRecord>)
    requires p.Basic?
    ensures Elevations(p, h) * p.threshold + |PendingAfter(p, h)| <= |h|
  {
    VotesNotReused(p, h);
    ElevationsCostThreshold(p, h);
  }

  lemma {:induction false} ElevationsCostThreshold(p: Policy, h: seq<VoteRecord>)
    requires p.Basic?
    ensures Elevations(p, h) * p.threshold <= Consumed(p, h)
  {
    if h != [] {
      var g := h[..|h|-1];
      ElevationsCostThreshold(p, g);
      assert (Elevations(p, g) + 1) * p.threshold == Elevations(p, g) * p.threshold + p.threshold;
    }
  }

  /** The weighted router configured with raw counts decides like the basic one on all votes exactly
      when its minimum number of agents does not exceed its threshold. */
  lemma LegacyConfigIsBasic(c: Config)
    requires c.weightThreshold <= 0.0 && c.regimeThresholds == map[]
    ensures (forall votes, regime :: Agreed(Enhanced(c), votes, regime) == Agreed(Basic(c.threshold, c.window), votes, regime))
       <==> Max(c.minAgents, 1) <= c.threshold
  {
    if c.threshold < Max(c.minAgents, 1) {
      var v := VoteRecord("a", Key("X", Buy), "1", 1.0, 0, None);
      var votes := seq(Max(c.threshold, 0), _ => v);
      assert !Agreed(Enhanced(c), votes, None) && Agreed(Basic(c.threshold, c.window), votes, None);
    }
  }

  /** A unanimous regime never demands more than another regime with the same threshold: with a weight
      threshold it only drops the count, and on raw counts it changes nothing. */
  lemma UnanimousDemandsNoMore(c: Config, votes: seq<VoteRecord>, unanimous: Option<string>, plain: Option<string>)
    requires Unanimous(c, unanimous) && !Unanimous(c, plain) && Threshold(c, unanimous) == Threshold(c, plain)
    ensures CheckConsensus(c, votes, plain) <==> CheckConsensus(c, votes, unanimous) && |votes| >= Threshold(c, unanimous)
  {
    if votes != [] {
      MeanReaches(TotalWeight(votes), |votes| as real, c.weightThreshold);
    }
  }
}
