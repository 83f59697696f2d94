/** Vote weights from agent profiles. */
module ConsensusWeights {
  import opened Options

  datatype WeightSource = Equal | Confidence | Sharpe | Elo | Composite

  datatype WeightConfig = WeightConfig(source: WeightSource, confidenceWeight: real, sharpeWeight: real, eloWeight: real)

  datatype Profile = Profile(sharpeRatio: real, eloRating: int)

  function AtLeast(floor: real, x: real): real { if x < floor then floor else x }

  function AtMost(cap: real, x: real): real { if cap < x then cap else x }

  function Tier(elo: int): real {
    if elo >= 1400 then 1.5 else if elo >= 1200 then 1.0 else if elo >= 1000 then 0.8 else 0.0
  }

  /** A score clamped to [0.01, 1]. */
  function Score(x: real): (r: real)
    ensures 0.01 <= r <= 1.0
  {
    AtLeast(0.01, AtMost(1.0, x))
  }

  function SharpeScore(p: Profile): real { Score((p.sharpeRatio + 2.0) / 6.0) }

  /** The ELO weight and the composite weight normalise the rating over different ranges. */
  function EloScore(p: Profile, range: real): real
    requires range > 0.0
  {
    Score((p.eloRating as real - 800.0) / range)
  }

  function Blend(c: WeightConfig, confidence: real, p: Profile): real {
    c.confidenceWeight * AtLeast(0.01, confidence) + c.sharpeWeight * SharpeScore(p) + c.eloWeight * EloScore(p, 1600.0)
  }

  /** AgentWeightProvider.compute_vote_weight; no profile means the agent is unknown. */
  function VoteWeight(c: WeightConfig, confidence: real, profile: Option<Profile>): real {
    if c.source.Equal? then 1.0
    else if c.source.Confidence? || profile.None? then AtLeast(0.01, confidence)
    else if c.source.Sharpe? then SharpeScore(profile.value)
    else if c.source.Elo? then EloScore(profile.value, 1400.0) * Tier(profile.value.eloRating)
    else Score(Blend(c, confidence, profile.value)) * Tier(profile.value.eloRating)
  }

  /** A vote is silent exactly when it is weighed by rating and its agent is in the bottom tier; and no
      weight except a bare confidence exceeds one and a half. */
  lemma SilentIffBottomTier(c: WeightConfig, confidence: real, profile: Option<Profile>)
    ensures VoteWeight(c, confidence, profile) >= 0.0
    ensures VoteWeight(c, confidence, profile) == 0.0 <==>
      (c.source.Elo? || c.source.Composite?) && profile.Some? && profile.value.eloRating < 1000
    ensures !c.source.Confidence? && profile.Some? ==> VoteWeight(c, confidence, profile) <= 1.5
  {
    if profile.Some? && (c.source.Elo? || c.source.Composite?) {
      var base := if c.source.Elo? then EloScore(profile.value, 1400.0) else Score(Blend(c, confidence, profile.value));
      Tiered(base, Tier(profile.value.eloRating));
    }
  }

  lemma Tiered(base: real, tier: real)
    requires 0.01 <= base <= 1.0 && 0.0 <= tier <= 1.5
    ensures 0.0 <= base * tier <= 1.5 && (base * tier == 0.0 <==> tier == 0.0)
  {
    ProductGrows(0.0, base, 0.0, tier);
    ProductGrows(base, 1.0, tier, 1.5);
    ProductGrows(0.01, base, tier, tier);
  }

  /** What each source of weight says, in its own terms. */
  lemma WeightBySource(c: WeightConfig, confidence: real, profile: Option<Profile>)
    ensures c.source == Equal ==> VoteWeight(c, confidence, profile) == 1.0
    // by confidence, and for agents without a profile
    ensures c.source == Confidence || (c.source != Equal && profile.None?) ==>
      VoteWeight(c, confidence, profile) == if confidence > 0.01 then confidence else 0.01
    // a Sharpe ratio from -2 to 4 is spread over the unit interval, and clamped outside
    ensures c.source == Sharpe && profile.Some? ==>
      var w, sharpe := VoteWeight(c, confidence, profile), profile.value.sharpeRatio;
      if sharpe >= 4.0 then w == 1.0 else if sharpe <= -1.94 then w == 0.01 else 6.0 * w == sharpe + 2.0
  {
  }

  /** A rating from 800 to 2200 is spread over the unit interval, and weighs by its tier. */
  lemma WeightByRating(c: WeightConfig, confidence: real, p: Profile)
    requires c.source == Elo
    ensures p.eloRating < 1000 ==> VoteWeight(c, confidence, Some(p)) == 0.0
    ensures 1000 <= p.eloRating < 1200 ==> VoteWeight(c, confidence, Some(p)) * 1400.0 == 0.8 * (p.eloRating - 800) as real
    ensures 1200 <= p.eloRating < 1400 ==> VoteWeight(c, confidence, Some(p)) * 1400.0 == (p.eloRating - 800) as real
    ensures 1400 <= p.eloRating < 2200 ==> VoteWeight(c, confidence, Some(p)) * 1400.0 == 1.5 * (p.eloRating - 800) as real
    ensures p.eloRating >= 2200 ==> VoteWeight(c, confidence, Some(p)) == 1.5
  {
    var x := (p.eloRating as real - 800.0) / 1400.0;
    assert x * 1400.0 == (p.eloRating - 800) as real;
  }

  /** A rating of 1600, a Sharpe ratio of 1 and a confidence of 0.6, blended by 0.5, 0.3 and 0.2. */
  lemma BlendedWeight(p: Profile)
    requires p == Profile(1.0, 1600)
    ensures VoteWeight(WeightConfig(Composite, 0.5, 0.3, 0.2), 0.6, Some(p)) == 0.825
    ensures VoteWeight(WeightConfig(Composite, 0.0, 0.0, 1.0), 0.6, Some(p)) == 0.75
    ensures VoteWeight(WeightConfig(Composite, 0.0, 1.0, 0.0), 0.6, Some(p)) == 0.75
    ensures VoteWeight(WeightConfig(Composite, 1.0, 0.0, 0.0), 0.4, Some(p)) == 0.6
  {
  }

  lemma ProductGrows(a: real, b: real, x: real, y: real)
    requires 0.0 <= a <= b && 0.0 <= x <= y
    ensures a * x <= b * y
  {
    assert a * x <= b * x;
    assert b * x <= b * y;
  }

  lemma ScaledGrows(w: real, x: real, y: real)
    requires w >= 0.0 && x <= y
    ensures w * x <= w * y
  {
  }

  lemma SharpeScoreGrows(p: Profile, p': Profile)
    requires p.sharpeRatio <= p'.sharpeRatio
    ensures SharpeScore(p) <= SharpeScore(p')
  {
  }

  lemma EloScoreGrows(p: Profile, p': Profile, range: real)
    requires p.eloRating <= p'.eloRating && range > 0.0
    ensures EloScore(p, range) <= EloScore(p', range)
  {
    QuotientGrows(p.eloRating as real - 800.0, p'.eloRating as real - 800.0, range);
  }

  lemma QuotientGrows(x: real, y: real, d: real)
    requires x <= y && d > 0.0
    ensures x / d <= y / d
  {
  }

  lemma BlendGrows(c: WeightConfig, confidence: real, confidence': real, p: Profile, p': Profile)
    requires c.confidenceWeight >= 0.0 && c.sharpeWeight >= 0.0 && c.eloWeight >= 0.0
    requires confidence <= confidence' && p.sharpeRatio <= p'.sharpeRatio && p.eloRating <= p'.eloRating
    ensures Blend(c, confidence, p) <= Blend(c, confidence', p')
  {
    SharpeScoreGrows(p, p');
    EloScoreGrows(p, p', 1600.0);
    SumGrows(c.confidenceWeight, c.sharpeWeight, c.eloWeight, AtLeast(0.01, confidence), SharpeScore(p), EloScore(p, 1600.0),
             AtLeast(0.01, confidence'), SharpeScore(p'), EloScore(p', 1600.0));
  }

  lemma SumGrows(u: real, v: real, w: real, x: real, y: real, z: real, x': real, y': real, z': real)
    requires u >= 0.0 && v >= 0.0 && w >= 0.0 && x <= x' && y <= y' && z <= z'
    ensures u * x + v * y + w * z <= u * x' + v * y' + w * z'
  {
    ScaledGrows(u, x, x');
    ScaledGrows(v, y, y');
    ScaledGrows(w, z, z');
  }

  /** A more confident agent with a better record never weighs less, across tier boundaries too. */
  lemma BetterWeighsNoLess(c: WeightConfig, confidence: real, confidence': real, p: Profile, p': Profile)
    requires c.confidenceWeight >= 0.0 && c.sharpeWeight >= 0.0 && c.eloWeight >= 0.0
    requires confidence <= confidence' && p.sharpeRatio <= p'.sharpeRatio && p.eloRating <= p'.eloRating
    ensures VoteWeight(c, confidence, Some(p)) <= VoteWeight(c, confidence', Some(p'))
  {
    if c.source.Elo? {
      EloScoreGrows(p, p', 1400.0);
      ProductGrows(EloScore(p, 1400.0), EloScore(p', 1400.0), Tier(p.eloRating), Tier(p'.eloRating));
    } else if c.source.Composite? {
      BlendGrows(c, confidence, confidence', p, p');
      ProductGrows(Score(Blend(c, confidence, p)), Score(Blend(c, confidence', p')), Tier(p.eloRating), Tier(p'.eloRating));
    }
  }
}

/** The two consensus routers as objects: they collect votes and forward to a target router. */
module ConsensusRouters {
  import opened Options
  import opened Sides
  import opened ConsensusVotes
  import opened ConsensusRuns
  import opened ConsensusLog
  import opened ConsensusWeights

  datatype ActionLevel = Notify | SuggestTrade | AutoExecute

  datatype Opportunity = Opportunity(id: string, agent: string, ticker: string, side: Option<Side>,
                                     confidence: real, timestamp: int, regime: Option<string>)

  /** One call of target.route. */
  datatype Sent = Sent(opportunity: Opportunity, level: ActionLevel)

  function VoteOf(o: Opportunity, weight: real): VoteRecord
    requires o.side.Some?
  {
    VoteRecord(o.agent, Key(o.ticker, o.side.value), o.id, weight, o.timestamp, o.regime)
  }

  /** What is pending on each key is the standing part of the key's history. */
  ghost predicate Cached(p: Policy, m: PendingMap, h: seq<VoteRecord>) {
    forall key :: var mine := Arrivals(h, key);
      multiset(PendingOf(m, key)) == multiset(Standing(p, mine, UsedUp(p, mine)))
  }

  /** On each key, elevations cost `threshold` arrivals of their own, and pending votes come on top. */
  ghost predicate NotReused(p: Policy, m: PendingMap, h: seq<VoteRecord>)
    requires p.Basic?
  {
    forall key :: Elevations(p, Arrivals(h, key)) * p.threshold + |PendingOf(m, key)| <= |Arrivals(h, key)|
  }

  /** The newest arrival of a history is elevated: by the rows that remain, or by the standing votes of its key. */
  predicate Consensus(p: Policy, persistent: bool, upsert: bool, h: seq<VoteRecord>)
    requires h != []
  {
    if persistent then StoredConsensusNow(p, upsert, h) else ConsensusNow(p, Arrivals(h, h[|h|-1].key))
  }

  /** With ordered timestamps, and where rows are not replaced nobody repeating a live vote, both forms elevate the same. */
  ghost predicate SameInBoth(p: Policy, upsert: bool, h: seq<VoteRecord>)
    requires h != []
  {
    InOrder(h) && (upsert || NobodyVotesAgain(p, h)) ==> Consensus(p, true, upsert, h) == Consensus(p, false, upsert, h)
  }

  class EnhancedConsensusRouter {
    const enabled: bool
    const config: Config
    const weights: WeightConfig
    const persistent: bool
    var profiles: map<string, Profile>
    var pending: PendingMap
    var rows: seq<VoteRecord>
    var sent: seq<Sent>
    ghost var history: seq<VoteRecord>

    ghost predicate Valid()
      reads this
    {
      if persistent then rows == Rows(Enhanced(config), false, history) else pending == Memory(Enhanced(config), history)
    }

    predicate Counts(o: Opportunity, level: ActionLevel) {
      enabled && o.side.Some? && level != Notify
    }

    /** The decision of the router's mode on what it holds. */
    predicate Elevated(pending: PendingMap, rows: seq<VoteRecord>, v: VoteRecord) {
      if persistent then StoreElevates(Enhanced(config), false, rows, v)
      else Elevates(Enhanced(config), PendingOf(pending, v.key), v)
    }

    function Weigh(o: Opportunity): real
      reads this`profiles
    {
      VoteWeight(weights, o.confidence, if o.agent in profiles then Some(profiles[o.agent]) else None)
    }

    constructor (enabled: bool, config: Config, weights: WeightConfig, persistent: bool)
      ensures Valid() && history == [] && sent == []
      ensures this.enabled == enabled && this.config == config && this.weights == weights && this.persistent == persistent
    {
      this.enabled, this.config, this.weights, this.persistent := enabled, config, weights, persistent;
      profiles, pending, rows, sent, history := map[], map[], [], [], [];
    }

    method Route(o: Opportunity, level: ActionLevel)
      requires Valid()
      modifies this`pending, this`rows, this`sent, this`history
      ensures Valid()
      // disabled, without a trade, or below SUGGEST_TRADE: passed through
      ensures !enabled || o.side.None? || level == Notify ==>
        history == old(history) && pending == old(pending) && rows == old(rows) && sent == old(sent) + [Sent(o, level)]
      // any other vote joins the history, weighed by its agent's profile ...
      ensures enabled && o.side.Some? && level != Notify ==>
        history == old(history) + [VoteRecord(o.agent, Key(o.ticker, o.side.value), o.id,
          VoteWeight(weights, o.confidence, if o.agent in profiles then Some(profiles[o.agent]) else None), o.timestamp, o.regime)]
      // ... and is sent at AUTO_EXECUTE on a consensus of that history, under any clock, and otherwise at its own level
      ensures enabled && o.side.Some? && level != Notify && Consensus(Enhanced(config), persistent, false, history) ==>
        sent == old(sent) + [Sent(o, AutoExecute)]
      ensures enabled && o.side.Some? && level != Notify && !Consensus(Enhanced(config), persistent, false, history) ==>
        sent == old(sent) + [Sent(o, level)]
      ensures enabled && o.side.Some? && level != Notify ==> SameInBoth(Enhanced(config), false, history)
      // the pending dict is the standing part of the history, on every key
      ensures !persistent ==> Cached(Enhanced(config), pending, history)
    {
      if !Counts(o, level) {
        sent := sent + [Sent(o, level)];
        PendingEverywhere(Enhanced(config), history);
        return;
      }
      RouteVote(o, level);
    }

    method RouteVote(o: Opportunity, level: ActionLevel)
      requires Valid() && o.side.Some?
      modifies this`pending, this`rows, this`sent, this`history
      ensures Valid()
      ensures history == old(history) + [VoteOf(o, Weigh(o))]
      ensures Consensus(Enhanced(config), persistent, false, history) ==> sent == old(sent) + [Sent(o, AutoExecute)]
      ensures !Consensus(Enhanced(config), persistent, false, history) ==> sent == old(sent) + [Sent(o, level)]
      ensures SameInBoth(Enhanced(config), false, history)
      ensures !persistent ==> Cached(Enhanced(config), pending, history)
    {
      var v := VoteOf(o, Weigh(o));
      Decided(Enhanced(config), false, history, v);
      Take(v, o, level);
      PendingEverywhere(Enhanced(config), history);
    }

    /** A vote that counts: collected, decided on and sent. */
    method Take(v: VoteRecord, o: Opportunity, level: ActionLevel)
      modifies this`pending, this`rows, this`sent, this`history
      ensures history == old(history) + [v]
      ensures pending == if persistent then old(pending) else NextMemory(Enhanced(config), old(pending), v)
      ensures rows == if persistent then NextRows(Enhanced(config), false, old(rows), v) else old(rows)
      ensures sent == old(sent) + [Sent(o, if Elevated(old(pending), old(rows), v) then AutoExecute else level)]
    {
      var elevated := Elevated(pending, rows, v);
      if persistent {
        rows := NextRows(Enhanced(config), false, rows, v);
      } else {
        pending := NextMemory(Enhanced(config), pending, v);
      }
      sent := sent + [Sent(o, if elevated then AutoExecute else level)];
      history := history + [v];
    }
  }

  /** The basic router: N agents of M, whatever the action level. */
  class ConsensusRouter {
    const threshold: int
    const window: int
    const persistent: bool
    var pending: PendingMap
    var rows: seq<VoteRecord>
    var sent: seq<Sent>
    ghost var history: seq<VoteRecord>

    ghost predicate Valid()
      reads this
    {
      if persistent then rows == Rows(Basic(threshold, window), true, history)
      else pending == Memory(Basic(threshold, window), history)
    }

    constructor (threshold: int, window: int, persistent: bool)
      ensures Valid() && history == [] && sent == []
      ensures this.threshold == threshold && this.window == window && this.persistent == persistent
    {
      this.threshold, this.window, this.persistent := threshold, window, persistent;
      pending, rows, sent, history := map[], [], [], [];
    }

    method Route(o: Opportunity, level: ActionLevel)
      requires Valid()
      modifies this
      ensures Valid()
      ensures o.side.None? ==> history == old(history) && pending == old(pending) && rows == old(rows)
      ensures o.side.None? ==> sent == old(sent) + [Sent(o, level)]
      ensures o.side.Some? ==>
        history == old(history) + [VoteRecord(o.agent, Key(o.ticker, o.side.value), o.id, 1.0, o.timestamp, o.regime)]
      // both forms elevate exactly on a consensus of the history, under any clock
      ensures o.side.Some? && Consensus(Basic(threshold, window), persistent, true, history) ==>
        sent == old(sent) + [Sent(o, AutoExecute)]
      ensures o.side.Some? && !Consensus(Basic(threshold, window), persistent, true, history) ==>
        sent == old(sent) + [Sent(o, level)]
      ensures o.side.Some? ==> SameInBoth(Basic(threshold, window), true, history)
      // votes are not reused
      ensures !persistent ==> NotReused(Basic(threshold, window), pending, history)
    {
      var p := Basic(threshold, window);
      if o.side.None? {
        sent := sent + [Sent(o, level)];
        NotReusedEverywhere(p, history);
        return;
      }
      var v := VoteOf(o, 1.0);
      Decided(p, true, history, v);
      Take(v, o, level);
      NotReusedEverywhere(p, history);
    }

    method Take(v: VoteRecord, o: Opportunity, level: ActionLevel)
      modifies this`pending, this`rows, this`sent, this`history
      ensures history == old(history) + [v]
      ensures pending == if persistent then old(pending) else NextMemory(Basic(threshold, window), old(pending), v)
      ensures rows == if persistent then NextRows(Basic(threshold, window), true, old(rows), v) else old(rows)
      ensures sent == old(sent) + [Sent(o,
        if (if persistent then StoreElevates(Basic(threshold, window), true, old(rows), v)
            else Elevates(Basic(threshold, window), PendingOf(old(pending), v.key), v))
        then AutoExecute else level)]
    {
      var p := Basic(threshold, window);
      var elevated;
      if persistent {
        elevated := StoreElevates(p, true, rows, v);
        rows := NextRows(p, true, rows, v);
      } else {
        elevated := Elevates(p, PendingOf(pending, v.key), v);
        pending := NextMemory(p, pending, v);
      }
      sent := sent + [Sent(o, if elevated then AutoExecute else level)];
      history := history + [v];
    }
  }

  /** One arrival at a router that holds what its history says. */
  lemma Decided(p: Policy, upsert: bool, g: seq<VoteRecord>, v: VoteRecord)
    ensures StoreElevates(p, upsert, Rows(p, upsert, g), v) == Consensus(p, true, upsert, g + [v])
    ensures Elevates(p, PendingOf(Memory(p, g), v.key), v) == Consensus(p, false, upsert, g + [v])
    ensures NextRows(p, upsert, Rows(p, upsert, g), v) == Rows(p, upsert, g + [v])
    ensures NextMemory(p, Memory(p, g), v) == Memory(p, g + [v])
    ensures SameInBoth(p, upsert, g + [v])
  {
    assert (g + [v])[..|g|] == g;
    StoredElevatesIff(p, upsert, g, v);
    ElevatedIsConsensus(p, g, v);
    StoredAsInMemory(p, upsert, g, v);
  }

  lemma StoredAsInMemory(p: Policy, upsert: bool, g: seq<VoteRecord>, v: VoteRecord)
    ensures SameInBoth(p, upsert, g + [v])
  {
    if InOrder(g + [v]) && (upsert || NobodyVotesAgain(p, g + [v])) {
      StoredElevatesIff(p, upsert, g, v);
      ElevatedIsConsensus(p, g, v);
      InOrderPrefix(g, v);
      if !upsert { NobodyVotesAgainPrefix(p, g, v); }
      MirrorsThroughout(p, upsert, g, v);
      MirrorsStep(p, upsert, Rows(p, upsert, g), g, v, Clock(g, v));
    }
  }

  lemma PendingEverywhere(p: Policy, h: seq<VoteRecord>)
    ensures Cached(p, Memory(p, h), h)
  {
    forall key
      ensures var mine := Arrivals(h, key);
        multiset(PendingOf(Memory(p, h), key)) == multiset(Standing(p, mine, UsedUp(p, mine)))
    {
      MemoryPerKey(p, h, key);
      PendingIsStanding(p, Arrivals(h, key));
    }
  }

  lemma NotReusedEverywhere(p: Policy, h: seq<VoteRecord>)
    requires p.Basic?
    ensures NotReused(p, Memory(p, h), h)
  {
    forall key
      ensures Elevations(p, Arrivals(h, key)) * p.threshold + |PendingOf(Memory(p, h), key)| <= |Arrivals(h, key)|
    {
      MemoryPerKey(p, h, key);
      BasicElevationsBounded(p, Arrivals(h, key));
    }
  }
}
