/** Counting in the consensus simulator. */
module ConsensusSim {
  import opened Options
  import opened Sides
  import opened Reals
  import opened Seqs
  import opened Dicts
  import opened ConsensusVotes

  /** An opportunity as the simulator sees it; without a suggested trade it is ignored. */
  datatype Opportunity = Opportunity(key: Option<Key>, vote: VoteRecord)

  /** The opportunities of all agents at one bar, and the tickers that have a bar. */
  datatype BarInput = BarInput(opportunities: seq<Opportunity>, priced: set<string>)

  function Agents(votes: seq<VoteRecord>): set<string> {
    set v | v in votes :: v.agent
  }

  /** check_votes_consensus: it counts distinct agents, and under a unanimous regime it does not look
      at weights. */
  predicate VotesReachConsensus(c: Config, votes: seq<VoteRecord>, regime: Option<string>) {
    var unique := |Agents(votes)|;
    votes != [] && unique >= Max(c.minAgents, 1) &&
    if Unanimous(c, regime) then unique >= Threshold(c, regime)
    else if c.weightThreshold > 0.0 then
      TotalWeight(votes) / Max(unique, 1) as real >= c.weightThreshold && unique >= Threshold(c, regime)
    else unique >= Threshold(c, regime)
  }

  lemma {:induction false} DistinctAgents(votes: seq<VoteRecord>)
    requires OneVoteEach(votes)
    ensures |Agents(votes)| == |votes|
  {
    if votes != [] {
      DistinctAgents(votes[1..]);
      assert Agents(votes) == {votes[0].agent} + Agents(votes[1..]);
      forall v | v in votes[1..]
        ensures v.agent != votes[0].agent
      {
        var i :| 0 <= i < |votes[1..]| && votes[1..][i] == v;
      }
    }
  }

  lemma DecidesAlike(c: Config, votes: seq<VoteRecord>, regime: Option<string>)
    requires OneVoteEach(votes) && !(Unanimous(c, regime) && c.weightThreshold > 0.0)
    ensures VotesReachConsensus(c, votes, regime) == CheckConsensus(c, votes, regime)
  {
    DistinctAgents(votes);
  }

  /** n agents whose votes weigh nothing. */
  function Weightless(n: nat): (votes: seq<VoteRecord>)
    ensures |votes| == n && OneVoteEach(votes)
  {
    seq(n, i requires 0 <= i < n => VoteRecord(seq(i, _ => 'a'), Key("X", Buy), "1", 0.0, 0, None))
  }

  lemma {:induction false} NothingWeighs(votes: seq<VoteRecord>)
    requires forall v :: v in votes ==> v.weight == 0.0
    ensures TotalWeight(votes) == 0.0
  {
    if votes != [] {
      assert votes[0] in votes;
      NothingWeighs(votes[1..]);
      assert TotalWeight(votes[1..]) == SumOf(votes[1..], (v: VoteRecord) => v.weight);
    }
  }

  /** On one vote per agent the simulator decides like the live router under a regime exactly when the
      regime is not unanimous or there is no weight threshold: there, only the router weighs. */
  lemma SimulatorDecidesLikeRouter(c: Config, regime: Option<string>)
    ensures (forall votes :: OneVoteEach(votes) ==> VotesReachConsensus(c, votes, regime) == CheckConsensus(c, votes, regime))
       <==> !(Unanimous(c, regime) && c.weightThreshold > 0.0)
  {
    if Unanimous(c, regime) && c.weightThreshold > 0.0 {
      var votes := Weightless(Max(Max(c.minAgents, 1), Threshold(c, regime)));
      DistinctAgents(votes);
      NothingWeighs(votes);
      assert VotesReachConsensus(c, votes, regime);
      assert c.weightThreshold * |votes| as real > 0.0;
      assert !CheckConsensus(c, votes, regime);
    } else {
      forall votes | OneVoteEach(votes)
        ensures VotesReachConsensus(c, votes, regime) == CheckConsensus(c, votes, regime)
      {
        DecidesAlike(c, votes, regime);
      }
    }
  }

  /** The last vote of each agent: what a router keeps of the votes. */
  function Latest(votes: seq<VoteRecord>): seq<VoteRecord> {
    if votes == [] then []
    else (if votes[0].agent in Agents(votes[1..]) then [] else [votes[0]]) + Latest(votes[1..])
  }

  lemma {:induction false} LatestOfEach(votes: seq<VoteRecord>)
    ensures Agents(Latest(votes)) == Agents(votes) && OneVoteEach(Latest(votes))
  {
    if votes != [] {
      LatestOfEach(votes[1..]);
      assert [votes[0]] + votes[1..] == votes;
      if votes[0].agent in Agents(votes[1..]) {
        LatestSkips(votes[0], votes[1..]);
      } else {
        LatestKeeps(votes[0], votes[1..]);
      }
    }
  }

  lemma LatestSkips(v: VoteRecord, votes: seq<VoteRecord>)
    requires v.agent in Agents(votes)
    ensures Latest([v] + votes) == Latest(votes) && Agents([v] + votes) == Agents(votes)
    ensures TotalWeight([v] + votes) == v.weight + TotalWeight(votes)
  {
    assert ([v] + votes)[1..] == votes;
  }

  lemma LatestKeeps(v: VoteRecord, votes: seq<VoteRecord>)
    requires v.agent !in Agents(votes) && Agents(Latest(votes)) == Agents(votes) && OneVoteEach(Latest(votes))
    ensures Agents(Latest([v] + votes)) == Agents([v] + votes) && OneVoteEach(Latest([v] + votes))
  {
    assert ([v] + votes)[1..] == votes;
    assert Latest([v] + votes) == [v] + Latest(votes);
    assert Agents([v] + votes) == {v.agent} + Agents(votes);
    OneMoreAgent(v, Latest(votes));
  }

  lemma OneMoreAgent(v: VoteRecord, votes: seq<VoteRecord>)
    requires OneVoteEach(votes) && v.agent !in Agents(votes)
    ensures OneVoteEach([v] + votes) && Agents([v] + votes) == {v.agent} + Agents(votes)
  {
    forall i | 0 <= i < |votes|
      ensures votes[i].agent != v.agent
    {
      assert votes[i].agent in Agents(votes);
    }
  }

  lemma {:induction false} LatestOfOneEach(votes: seq<VoteRecord>)
    requires OneVoteEach(votes)
    ensures Latest(votes) == votes
  {
    if votes != [] { LatestOfOneEach(votes[1..]); }
  }

  /** u agents with votes of total weight w reach consensus in the simulator. */
  predicate SimulatorEnough(c: Config, regime: Option<string>, u: int, w: real) {
    u >= Max(Max(c.minAgents, 1), Threshold(c, regime)) &&
    (!Unanimous(c, regime) && c.weightThreshold > 0.0 ==> w >= Times(c.weightThreshold, u as real))
  }

  lemma SimulatorByNumbers(c: Config, votes: seq<VoteRecord>, regime: Option<string>)
    ensures VotesReachConsensus(c, votes, regime) <==> SimulatorEnough(c, regime, |Agents(votes)|, TotalWeight(votes))
  {
    var u := |Agents(votes)|;
    if u > 0 { MeanReaches(TotalWeight(votes), u as real, c.weightThreshold); }
    if votes != [] { assert votes[0].agent in Agents(votes); }
  }

  /** On any votes, repeated ones included, the simulator decides like the router on each agent's last vote exactly when
      their two rules agree on the number of agents with, on one side, the weight of all votes and, on the other, that
      of the last ones. */
  lemma RepeatsInSimulatorIff(c: Config, votes: seq<VoteRecord>, regime: Option<string>)
    ensures VotesReachConsensus(c, votes, regime) == CheckConsensus(c, Latest(votes), regime) <==>
      SimulatorEnough(c, regime, |Agents(votes)|, TotalWeight(votes)) ==
      Enough(Enhanced(c), regime, |Agents(votes)|, TotalWeight(Latest(votes)))
  {
    SimulatorByNumbers(c, votes, regime);
    LatestOfEach(votes);
    DistinctAgents(Latest(votes));
    AgreedByNumbers(Enhanced(c), Latest(votes), regime);
  }

  /** An earlier vote of weight w put in front of votes that weigh nothing. */
  lemma HeavyVotes(light: seq<VoteRecord>, heavy: VoteRecord)
    requires OneVoteEach(light) && light != [] && heavy.agent == light[0].agent && forall v :: v in light ==> v.weight == 0.0
    ensures |Agents([heavy] + light)| == |light| && TotalWeight([heavy] + light) == heavy.weight
    ensures TotalWeight(Latest([heavy] + light)) == 0.0
  {
    assert light[0] in light;
    LatestSkips(heavy, light);
    LatestOfOneEach(light);
    DistinctAgents(light);
    NothingWeighs(light);
  }

  lemma HeavyRepeat(c: Config, regime: Option<string>) returns (votes: seq<VoteRecord>)
    requires !Unanimous(c, regime) && c.weightThreshold > 0.0
    ensures VotesReachConsensus(c, votes, regime) != CheckConsensus(c, Latest(votes), regime)
  {
    var n := Max(Max(c.minAgents, 1), Threshold(c, regime));
    var light := Weightless(n);
    var heavy := light[0].(weight := Times(c.weightThreshold, n as real));
    votes := [heavy] + light;
    HeavyVotes(light, heavy);
    HeavyDiffers(c, regime, votes, n);
  }

  lemma HeavyDiffers(c: Config, regime: Option<string>, votes: seq<VoteRecord>, n: int)
    requires !Unanimous(c, regime) && c.weightThreshold > 0.0 && n == Max(Max(c.minAgents, 1), Threshold(c, regime))
    requires |Agents(votes)| == n && TotalWeight(votes) == Times(c.weightThreshold, n as real) && TotalWeight(Latest(votes)) == 0.0
    ensures VotesReachConsensus(c, votes, regime) != CheckConsensus(c, Latest(votes), regime)
  {
    HeavyNumbers(c, regime, n);
    RepeatsInSimulatorIff(c, votes, regime);
  }

  lemma HeavyNumbers(c: Config, regime: Option<string>, n: int)
    requires !Unanimous(c, regime) && c.weightThreshold > 0.0 && n == Max(Max(c.minAgents, 1), Threshold(c, regime))
    ensures SimulatorEnough(c, regime, n, Times(c.weightThreshold, n as real)) && !Enough(Enhanced(c), regime, n, 0.0)
  {
    assert Times(c.weightThreshold, n as real) > 0.0;
  }

  /** With repeated votes simulator and router decide alike under a regime, whatever the votes, exactly when there is
      no weight threshold: an agent's earlier votes do not count again, but they weigh again. */
  lemma RepeatsDecideLikeRouter(c: Config, regime: Option<string>)
    ensures (forall votes :: VotesReachConsensus(c, votes, regime) == CheckConsensus(c, Latest(votes), regime))
       <==> c.weightThreshold <= 0.0
  {
    if c.weightThreshold <= 0.0 {
      forall votes
        ensures VotesReachConsensus(c, votes, regime) == CheckConsensus(c, Latest(votes), regime)
      {
        RepeatsInSimulatorIff(c, votes, regime);
      }
    } else if Unanimous(c, regime) {
      SimulatorDecidesLikeRouter(c, regime);
      var votes :| OneVoteEach(votes) && VotesReachConsensus(c, votes, regime) != CheckConsensus(c, votes, regime);
      LatestOfOneEach(votes);
    } else {
      var votes := HeavyRepeat(c, regime);
    }
  }

  // ---------------------------------------------------------------- grouping

  type Groups = Dict<Key, seq<VoteRecord>>

  function VotesOn(os: seq<Opportunity>, key: Key): seq<VoteRecord> {
    if os == [] then []
    else VotesOn(os[..|os|-1], key) + if os[|os|-1].key == Some(key) then [os[|os|-1].vote] else []
  }

  function Group(g: Groups, key: Key): seq<VoteRecord> {
    if Find(g, key).Some? then Find(g, key).value else []
  }

  /** The defaultdict of lists after the opportunities of a bar. */
  function GroupsOf(os: seq<Opportunity>): Groups {
    if os == [] then []
    else
      var g, o := GroupsOf(os[..|os|-1]), os[|os|-1];
      if o.key.Some? then Put(g, o.key.value, Group(g, o.key.value) + [o.vote]) else g
  }

  /** Every opportunity with a trade is in the group of its (ticker, side), in order; no group is empty. */
  lemma {:induction false} GroupsMeaning(os: seq<Opportunity>)
    ensures UniqueKeys(GroupsOf(os))
    ensures forall key :: Group(GroupsOf(os), key) == VotesOn(os, key)
    ensures forall i :: 0 <= i < |GroupsOf(os)| ==> GroupsOf(os)[i].1 == VotesOn(os, GroupsOf(os)[i].0) != []
  {
    if os != [] {
      var g, o := GroupsOf(os[..|os|-1]), os[|os|-1];
      GroupsMeaning(os[..|os|-1]);
      if o.key.Some? { GroupStep(g, o.key.value, o.vote); }
    }
    var g := GroupsOf(os);
    forall i | 0 <= i < |g|
      ensures g[i].1 == VotesOn(os, g[i].0)
    {
      FindAt(g, i);
      assert Group(g, g[i].0) == g[i].1;
    }
  }

  method GroupByKey(os: seq<Opportunity>) returns (g: Groups)
    ensures g == GroupsOf(os)
  {
    g := [];
    for n := 0 to |os|
      invariant g == GroupsOf(os[..n])
    {
      assert os[..n+1][..n] == os[..n];
      if os[n].key.Some? {
        g := Put(g, os[n].key.value, Group(g, os[n].key.value) + [os[n].vote]);
      }
    }
    assert os[..|os|] == os;
  }

  lemma GroupStep(g: Groups, key: Key, v: VoteRecord)
    requires UniqueKeys(g) && forall i :: 0 <= i < |g| ==> g[i].1 != []
    ensures var next := Put(g, key, Group(g, key) + [v]);
      UniqueKeys(next) && (forall i :: 0 <= i < |next| ==> next[i].1 != []) &&
      forall k :: Group(next, k) == if k == key then Group(g, key) + [v] else Group(g, k)
  {
    var next := Put(g, key, Group(g, key) + [v]);
    PutUnique(g, key, Group(g, key) + [v]);
    forall k
      ensures Find(next, k) == if k == key then Some(Group(g, key) + [v]) else Find(g, k)
    {
      FindPut(g, key, Group(g, key) + [v], k);
    }
    forall i | 0 <= i < |next|
      ensures next[i].1 != []
    {
      FindAt(next, i);
    }
  }

  // ---------------------------------------------------------------- metrics

  /** One group that was put to the vote: its regime, size and weight, and whether it was elevated. */
  datatype Ballot = Ballot(regime: string, size: nat, weight: real, reached: bool)

  datatype RegimeStats = RegimeStats(total: nat, consensus: nat, filtered: nat)

  const NO_STATS := RegimeStats(0, 0, 0)

  function BallotOf(c: Config, votes: seq<VoteRecord>, regime: Option<string>): Ballot {
    Ballot(if regime.Some? then regime.value else "unknown", |votes|, TotalWeight(votes), VotesReachConsensus(c, votes, regime))
  }

  /** Each group whose ticker has a bar is put to the vote once, under the regime of its first opportunity. */
  function BarBallots(c: Config, groups: Groups, priced: set<string>): seq<Ballot> {
    if groups == [] then []
    else
      var (key, votes) := groups[|groups|-1];
      BarBallots(c, groups[..|groups|-1], priced) +
      if key.ticker in priced && votes != [] then [BallotOf(c, votes, votes[0].regime)] else []
  }

  /** The ballots of a bar: one for every group whose ticker has a bar, and for no other, under the regime of the group's
      first opportunity, with its size, its total weight and its decision. */
  lemma {:induction false} BallotsPlainly(c: Config, groups: Groups, priced: set<string>, b: Ballot)
    requires forall i :: 0 <= i < |groups| ==> groups[i].1 != []
    ensures b in BarBallots(c, groups, priced) <==>
      exists i :: 0 <= i < |groups| && groups[i].0.ticker in priced && IsBallotOf(c, groups[i].1, b)
  {
    if groups != [] {
      var n := |groups| - 1;
      BallotsPlainly(c, groups[..n], priced, b);
      if i :| 0 <= i < n && groups[i].0.ticker in priced && IsBallotOf(c, groups[i].1, b) {
        assert groups[..n][i] == groups[i];
      }
      if i :| 0 <= i < n && groups[..n][i].0.ticker in priced && IsBallotOf(c, groups[..n][i].1, b) {
        assert groups[i] == groups[..n][i];
      }
      assert b == BallotOf(c, groups[n].1, groups[n].1[0].regime) <==> IsBallotOf(c, groups[n].1, b);
    }
  }

  predicate IsBallotOf(c: Config, votes: seq<VoteRecord>, b: Ballot) {
    votes != [] && b.size == |votes| && b.weight == TotalWeight(votes) &&
    b.regime == (if votes[0].regime.Some? then votes[0].regime.value else "unknown") &&
    (b.reached <==> VotesReachConsensus(c, votes, votes[0].regime))
  }

  /** How many opportunities of a bar come with a trade on a ticker that has a bar. */
  function Tradable(os: seq<Opportunity>, priced: set<string>): nat {
    if os == [] then 0
    else
      var o := os[|os|-1];
      Tradable(os[..|os|-1], priced) + if o.key.Some? && o.key.value.ticker in priced then 1 else 0
  }

  function SizesOn(groups: Groups, priced: set<string>): real {
    if groups == [] then 0.0
    else (if groups[0].0.ticker in priced then |groups[0].1| as real else 0.0) + SizesOn(groups[1..], priced)
  }

  lemma {:induction false} SizesAppend(g: Groups, h: Groups, priced: set<string>)
    ensures SizesOn(g + h, priced) == SizesOn(g, priced) + SizesOn(h, priced)
  {
    if g == [] {
      assert g + h == h;
    } else {
      assert (g + h)[1..] == g[1..] + h;
      SizesAppend(g[1..], h, priced);
    }
  }

  lemma {:induction false} BallotSizes(c: Config, groups: Groups, priced: set<string>)
    requires forall i :: 0 <= i < |groups| ==> groups[i].1 != []
    ensures SumOf(BarBallots(c, groups, priced), SizeOf()) == SizesOn(groups, priced)
  {
    if groups != [] {
      var n := |groups| - 1;
      BallotSizes(c, groups[..n], priced);
      assert groups == groups[..n] + [groups[n]];
      SizesAppend(groups[..n], [groups[n]], priced);
      assert [groups[n]][1..] == [];
      if groups[n].0.ticker in priced {
        SumOfSnoc(BarBallots(c, groups[..n], priced), BallotOf(c, groups[n].1, groups[n].1[0].regime), SizeOf());
      } else {
        assert BarBallots(c, groups[..n], priced) + [] == BarBallots(c, groups[..n], priced);
      }
    }
  }

  lemma {:induction false} SizesPut(g: Groups, key: Key, v: VoteRecord, priced: set<string>)
    ensures SizesOn(Put(g, key, Group(g, key) + [v]), priced) == SizesOn(g, priced) + if key.ticker in priced then 1.0 else 0.0
  {
    if g != [] {
      if g[0].0 == key {
        assert Put(g, key, Group(g, key) + [v])[1..] == g[1..];
      } else {
        assert Group(g, key) == Group(g[1..], key);
        SizesPut(g[1..], key, v, priced);
        assert Put(g, key, Group(g, key) + [v])[1..] == Put(g[1..], key, Group(g[1..], key) + [v]);
      }
    }
  }

  lemma {:induction false} GroupSizes(os: seq<Opportunity>, priced: set<string>)
    ensures SizesOn(GroupsOf(os), priced) == Tradable(os, priced) as real
  {
    if os != [] {
      var o := os[|os|-1];
      GroupSizes(os[..|os|-1], priced);
      if o.key.Some? { SizesPut(GroupsOf(os[..|os|-1]), o.key.value, o.vote, priced); }
    }
  }

  /** The ballots of a bar count every opportunity with a trade on a ticker that has a bar, and no other, once. */
  lemma BarCountsTradable(c: Config, os: seq<Opportunity>, priced: set<string>)
    ensures SumOf(BarBallots(c, GroupsOf(os), priced), SizeOf()) == Tradable(os, priced) as real
  {
    GroupsMeaning(os);
    BallotSizes(c, GroupsOf(os), priced);
    GroupSizes(os, priced);
  }

  function RunBallots(c: Config, bars: seq<BarInput>): seq<Ballot> {
    if bars == [] then []
    else RunBallots(c, bars[..|bars|-1]) + BarBallots(c, GroupsOf(bars[|bars|-1].opportunities), bars[|bars|-1].priced)
  }

  function SizeOf(): Ballot -> real { (b: Ballot) => b.size as real }
  function FilteredOf(): Ballot -> real { (b: Ballot) => if b.reached then 0.0 else b.size as real }
  function ReachedOf(): Ballot -> real { (b: Ballot) => if b.reached then 1.0 else 0.0 }
  function ReachedSize(): Ballot -> real { (b: Ballot) => if b.reached then b.size as real else 0.0 }
  function ReachedWeight(): Ballot -> real { (b: Ballot) => if b.reached then b.weight else 0.0 }

  function InRegime(regime: string, f: Ballot -> real): Ballot -> real {
    (b: Ballot) => if b.regime == regime then f(b) else 0.0
  }

  const RegimeTotal := (k: string, s: RegimeStats) => s.total as real
  const RegimeConsensus := (k: string, s: RegimeStats) => s.consensus as real
  const RegimeFiltered := (k: string, s: RegimeStats) => s.filtered as real

  function StatsOf(d: Dict<string, RegimeStats>, k: string): RegimeStats {
    if Find(d, k).Some? then Find(d, k).value else NO_STATS
  }

  /** The running average after one more value. */
  function RunningAverage(avg: real, n: nat, x: real): real
    requires n > 0
  {
    (avg * (n as real - 1.0) + x) / n as real
  }

  lemma AverageTotals(avg: real, n: nat, x: real)
    requires n > 0
    ensures Times(RunningAverage(avg, n, x), n as real) == Times(avg, n as real - 1.0) + x
  {
  }

  datatype Counters = Counters(opportunities: nat, consensus: nat, filtered: nat, avgWeight: real, avgVotes: real,
                               regimes: Dict<string, RegimeStats>)

  /** The regime statistics are those of the ballots cast under each regime, and add up to the global ones. */
  ghost predicate RegimesAgree(c: Counters, bs: seq<Ballot>) {
    UniqueKeys(c.regimes) &&
    (forall k :: StatsOf(c.regimes, k).total as real == SumOf(bs, InRegime(k, SizeOf()))) &&
    (forall k :: StatsOf(c.regimes, k).consensus as real == SumOf(bs, InRegime(k, ReachedOf()))) &&
    (forall k :: StatsOf(c.regimes, k).filtered as real == SumOf(bs, InRegime(k, FilteredOf()))) &&
    Total(c.regimes, RegimeTotal) == c.opportunities as real &&
    Total(c.regimes, RegimeConsensus) == c.consensus as real &&
    Total(c.regimes, RegimeFiltered) == c.filtered as real
  }

  /** The counters are those of the ballots, and each running average is the true mean over the ballots
      that reached consensus. */
  ghost predicate CountersAgree(c: Counters, bs: seq<Ballot>) {
    c.opportunities as real == SumOf(bs, SizeOf()) &&
    c.consensus as real == SumOf(bs, ReachedOf()) &&
    c.filtered as real == SumOf(bs, FilteredOf()) &&
    Times(c.avgVotes, c.consensus as real) == SumOf(bs, ReachedSize()) &&
    Times(c.avgWeight, c.consensus as real) == SumOf(bs, ReachedWeight())
  }

  function AddStats(s: RegimeStats, b: Ballot): RegimeStats {
    if b.reached then s.(total := s.total + b.size, consensus := s.consensus + 1)
    else s.(total := s.total + b.size, filtered := s.filtered + b.size)
  }

  function Counted(c: Counters, b: Ballot): Counters {
    var regimes := Put(c.regimes, b.regime, AddStats(StatsOf(c.regimes, b.regime), b));
    if b.reached then
      Counters(c.opportunities + b.size, c.consensus + 1, c.filtered,
               RunningAverage(c.avgWeight, c.consensus + 1, b.weight), RunningAverage(c.avgVotes, c.consensus + 1, b.size as real), regimes)
    else c.(opportunities := c.opportunities + b.size, filtered := c.filtered + b.size, regimes := regimes)
  }

  lemma CountersStep(c: Counters, bs: seq<Ballot>, b: Ballot)
    requires CountersAgree(c, bs)
    ensures CountersAgree(Counted(c, b), bs + [b])
  {
    SumOfSnoc(bs, b, SizeOf());
    SumOfSnoc(bs, b, ReachedOf());
    SumOfSnoc(bs, b, FilteredOf());
    SumOfSnoc(bs, b, ReachedSize());
    SumOfSnoc(bs, b, ReachedWeight());
    AverageTotals(c.avgVotes, c.consensus + 1, b.size as real);
    AverageTotals(c.avgWeight, c.consensus + 1, b.weight);
  }

  lemma RegimesStep(c: Counters, bs: seq<Ballot>, b: Ballot)
    requires RegimesAgree(c, bs)
    ensures RegimesAgree(Counted(c, b), bs + [b])
  {
    var was := StatsOf(c.regimes, b.regime);
    var now := AddStats(was, b);
    PutUnique(c.regimes, b.regime, now);
    forall k
      ensures StatsOf(Counted(c, b).regimes, k) == if k == b.regime then now else StatsOf(c.regimes, k)
    {
      FindPut(c.regimes, b.regime, now, k);
    }
    RegimeSums(c, bs, b);
    TotalPut(c.regimes, b.regime, now, RegimeTotal);
    TotalPut(c.regimes, b.regime, now, RegimeConsensus);
    TotalPut(c.regimes, b.regime, now, RegimeFiltered);
  }

  lemma RegimeSums(c: Counters, bs: seq<Ballot>, b: Ballot)
    ensures forall k :: SumOf(bs + [b], InRegime(k, SizeOf())) == SumOf(bs, InRegime(k, SizeOf())) + InRegime(k, SizeOf())(b)
    ensures forall k :: SumOf(bs + [b], InRegime(k, ReachedOf())) == SumOf(bs, InRegime(k, ReachedOf())) + InRegime(k, ReachedOf())(b)
    ensures forall k :: SumOf(bs + [b], InRegime(k, FilteredOf())) == SumOf(bs, InRegime(k, FilteredOf())) + InRegime(k, FilteredOf())(b)
  {
    forall k
      ensures SumOf(bs + [b], InRegime(k, SizeOf())) == SumOf(bs, InRegime(k, SizeOf())) + InRegime(k, SizeOf())(b)
      ensures SumOf(bs + [b], InRegime(k, ReachedOf())) == SumOf(bs, InRegime(k, ReachedOf())) + InRegime(k, ReachedOf())(b)
      ensures SumOf(bs + [b], InRegime(k, FilteredOf())) == SumOf(bs, InRegime(k, FilteredOf())) + InRegime(k, FilteredOf())(b)
    {
      SumOfSnoc(bs, b, InRegime(k, SizeOf()));
      SumOfSnoc(bs, b, InRegime(k, ReachedOf()));
      SumOfSnoc(bs, b, InRegime(k, FilteredOf()));
    }
  }

  lemma {:induction false} SizesSplit(bs: seq<Ballot>)
    ensures SumOf(bs, FilteredOf()) + SumOf(bs, ReachedSize()) == SumOf(bs, SizeOf())
  {
    if bs != [] { SizesSplit(bs[1..]); }
  }

  lemma {:induction false} ReachedAtMostSize(bs: seq<Ballot>)
    requires forall b :: b in bs ==> b.size > 0
    ensures 0.0 <= SumOf(bs, ReachedOf()) <= SumOf(bs, SizeOf())
  {
    if bs != [] {
      assert bs[0] in bs;
      ReachedAtMostSize(bs[1..]);
    }
  }

  function ConsensusRate(c: Counters): real {
    if c.opportunities > 0 then c.consensus as real / c.opportunities as real * 100.0 else 0.0
  }

  lemma RatePlainly(c: Counters, bs: seq<Ballot>)
    requires CountersAgree(c, bs) && forall b :: b in bs ==> b.size > 0
    ensures ConsensusRate(c) * c.opportunities as real == 100.0 * c.consensus as real
  {
    ReachedAtMostSize(bs);
    if c.opportunities > 0 {
      var n, m := c.opportunities as real, c.consensus as real;
      assert m / n * n == m;
      assert m / n * 100.0 * n == m / n * n * 100.0;
    }
  }

  /** On every run: filtered trades plus the mean number of votes times the consensus trades make up all
      opportunities, and the consensus rate is a percentage. */
  lemma CountsReconcile(c: Counters, bs: seq<Ballot>)
    requires CountersAgree(c, bs) && forall b :: b in bs ==> b.size > 0
    ensures c.filtered as real + Times(c.avgVotes, c.consensus as real) == c.opportunities as real
    ensures 0.0 <= ConsensusRate(c) <= 100.0
    ensures ConsensusRate(c) * c.opportunities as real == 100.0 * c.consensus as real
  {
    RatePlainly(c, bs);
    SizesSplit(bs);
    ReachedAtMostSize(bs);
  }

  function TradableInAll(bars: seq<BarInput>): nat {
    if bars == [] then 0
    else TradableInAll(bars[..|bars|-1]) + Tradable(bars[|bars|-1].opportunities, bars[|bars|-1].priced)
  }

  lemma {:induction false} RunCountsTradable(c: Config, bars: seq<BarInput>)
    ensures SumOf(RunBallots(c, bars), SizeOf()) == TradableInAll(bars) as real
  {
    if bars != [] {
      var last := bars[|bars|-1];
      RunCountsTradable(c, bars[..|bars|-1]);
      BarCountsTradable(c, last.opportunities, last.priced);
      SumOfAppend(RunBallots(c, bars[..|bars|-1]), BarBallots(c, GroupsOf(last.opportunities), last.priced), SizeOf());
    }
  }

  lemma RunIsCounted(c: Config, bars: seq<BarInput>, counters: Counters)
    requires CountersAgree(counters, RunBallots(c, bars))
    ensures counters.opportunities == TradableInAll(bars)
  {
    RunCountsTradable(c, bars);
  }

  // ---------------------------------------------------------------- the simulator

  class ConsensusMetrics {
    var counters: Counters
    ghost var ballots: seq<Ballot>

    ghost predicate Valid()
      reads this
    {
      CountersAgree(counters, ballots) && RegimesAgree(counters, ballots) && forall b :: b in ballots ==> b.size > 0
    }

    constructor ()
      ensures Valid() && ballots == [] && counters == Counters(0, 0, 0, 0.0, 0.0, [])
    {
      counters, ballots := Counters(0, 0, 0, 0.0, 0.0, []), [];
      new;
      assert forall k :: StatsOf([], k) == NO_STATS;
    }

    /** One group of a bar: filtered, or a consensus trade. */
    method Tally(c: Config, votes: seq<VoteRecord>, regime: Option<string>)
      modifies this`counters
      ensures counters == Counted(old(counters), BallotOf(c, votes, regime))
    {
      var key := if regime.Some? then regime.value else "unknown";
      var stats := StatsOf(counters.regimes, key);
      var m := counters.(opportunities := counters.opportunities + |votes|);
      if !VotesReachConsensus(c, votes, regime) {
        m := m.(filtered := m.filtered + |votes|,
                regimes := Put(m.regimes, key, stats.(total := stats.total + |votes|, filtered := stats.filtered + |votes|)));
      } else {
        var n := m.consensus + 1;
        m := m.(consensus := n,
                avgWeight := RunningAverage(m.avgWeight, n, TotalWeight(votes)),
                avgVotes := RunningAverage(m.avgVotes, n, |votes| as real),
                regimes := Put(m.regimes, key, stats.(total := stats.total + |votes|, consensus := stats.consensus + 1)));
      }
      counters := m;
    }

    method Count(c: Config, votes: seq<VoteRecord>, regime: Option<string>)
      requires Valid() && votes != []
      modifies this
      ensures Valid()
      ensures ballots == old(ballots) + [BallotOf(c, votes, regime)]
    {
      CountersStep(counters, ballots, BallotOf(c, votes, regime));
      RegimesStep(counters, ballots, BallotOf(c, votes, regime));
      Tally(c, votes, regime);
      ballots := ballots + [BallotOf(c, votes, regime)];
    }
  }

  ghost predicate NoneEmpty(g: Groups) {
    forall i :: 0 <= i < |g| ==> g[i].1 != []
  }

  lemma GroupsAreNotEmpty(os: seq<Opportunity>)
    ensures NoneEmpty(GroupsOf(os))
  {
    GroupsMeaning(os);
  }

  /** The loop over the groups of one bar. */
  method CountGroups(c: Config, groups: Groups, priced: set<string>, metrics: ConsensusMetrics)
    requires metrics.Valid() && NoneEmpty(groups)
    modifies metrics
    ensures metrics.Valid()
    ensures metrics.ballots == old(metrics.ballots) + BarBallots(c, groups, priced)
  {
    ghost var was := metrics.ballots;
    for i := 0 to |groups|
      invariant metrics.Valid()
      invariant metrics.ballots == was + BarBallots(c, groups[..i], priced)
    {
      BallotsStep(c, groups, i, priced);
      var votes: seq<VoteRecord> := groups[i].1;
      if groups[i].0.ticker in priced {
        metrics.Count(c, votes, votes[0].regime);
      }
    }
    assert groups[..|groups|] == groups;
  }

  lemma BallotsStep(c: Config, groups: Groups, i: nat, priced: set<string>)
    requires i < |groups| && NoneEmpty(groups)
    ensures BarBallots(c, groups[..i+1], priced) ==
      BarBallots(c, groups[..i], priced) +
      if groups[i].0.ticker in priced then [BallotOf(c, groups[i].1, groups[i].1[0].regime)] else []
  {
    assert groups[..i+1][..i] == groups[..i];
  }

  method SimulateBar(c: Config, bar: BarInput, metrics: ConsensusMetrics)
    requires metrics.Valid()
    modifies metrics
    ensures metrics.Valid()
    ensures metrics.ballots == old(metrics.ballots) + BarBallots(c, GroupsOf(bar.opportunities), bar.priced)
  {
    var groups := GroupByKey(bar.opportunities);
    GroupsAreNotEmpty(bar.opportunities);
    CountGroups(c, groups, bar.priced, metrics);
  }

  /** ConsensusSimulator.run, counting only. */
  method Run(c: Config, bars: seq<BarInput>) returns (counters: Counters)
    ensures CountersAgree(counters, RunBallots(c, bars)) && RegimesAgree(counters, RunBallots(c, bars))
    ensures counters.filtered as real + Times(counters.avgVotes, counters.consensus as real) == counters.opportunities as real
    ensures 0.0 <= ConsensusRate(counters) <= 100.0
    // every opportunity with a trade on a ticker that has a bar is counted once
    ensures counters.opportunities == TradableInAll(bars)
  {
    var metrics := new ConsensusMetrics();
    for i := 0 to |bars|
      invariant metrics.Valid() && metrics.ballots == RunBallots(c, bars[..i])
    {
      assert bars[..i+1][..i] == bars[..i];
      SimulateBar(c, bars[i], metrics);
    }
    assert bars[..|bars|] == bars;
    counters := metrics.counters;
    CountsReconcile(counters, metrics.ballots);
    RunIsCounted(c, bars, counters);
  }
}
