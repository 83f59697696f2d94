/** The bar cursor of a backtest. */
module Replays {
  import opened Options
  import opened Sorting
  import opened Dicts

  datatype Bar = Bar(timestamp: int, open: real, high: real, low: real, close: real, volume: int)

  type History = Dict<string, seq<Bar>>

  function ByTime(): Bar -> real {
    (b: Bar) => b.timestamp as real
  }

  /** from_bars_dict sorts every ticker's bars. */
  function Ordered(raw: History): (data: History)
    ensures |data| == |raw|
    ensures forall k :: 0 <= k < |raw| ==> data[k].0 == raw[k].0 && |data[k].1| == |raw[k].1|
  {
    seq(|raw|, k requires 0 <= k < |raw| => (raw[k].0, Sort(raw[k].1, ByTime())))
  }

  /** The cursor keeps the tickers in their order and all their bars, and puts the bars in order of time. */
  lemma OrderedSorts(raw: History)
    ensures |Ordered(raw)| == |raw|
    ensures forall k :: 0 <= k < |raw| ==>
      Ordered(raw)[k].0 == raw[k].0 && multiset(Ordered(raw)[k].1) == multiset(raw[k].1) && Ascending(Ordered(raw)[k].1, ByTime())
  {
    forall k | 0 <= k < |raw|
      ensures Ascending(Ordered(raw)[k].1, ByTime())
    {
      SortAscending(raw[k].1, ByTime());
    }
  }

  /** The number of bars every ticker has. */
  function Length(data: History): (n: nat)
    ensures forall k :: 0 <= k < |data| ==> n <= |data[k].1|
    ensures data != [] ==> exists k :: 0 <= k < |data| && n == |data[k].1|
    ensures data == [] ==> n == 0
  {
    if data == [] then 0
    else if |data| == 1 then assert |data[0].1| == |data[0].1|; |data[0].1|
    else
      var rest := Length(data[1..]);
      assert forall k :: 1 <= k < |data| ==> data[k] == data[1..][k-1];
      assert exists k :: 0 <= k < |data[1..]| && rest == |data[1..][k].1|;
      if |data[0].1| < rest then |data[0].1| else rest
  }

  function Column(data: History, i: nat): Dict<string, Bar>
    requires forall k :: 0 <= k < |data| ==> i < |data[k].1|
  {
    seq(|data|, k requires 0 <= k < |data| => (data[k].0, data[k].1[i]))
  }

  class HistoricalReplay {
    const data: History
    var indices: seq<nat>

    ghost predicate Valid()
      reads this
    {
      |indices| == |data|
    }

    ghost predicate AtBar(i: nat)
      reads this
    {
      Valid() && forall k :: 0 <= k < |indices| ==> indices[k] == i
    }

    constructor (raw: History)
      ensures data == Ordered(raw) && AtBar(0)
    {
      data := Ordered(raw);
      indices := seq(|raw|, _ => 0);
    }

    /** Jump: each ticker to the index, or to its own end. */
    method Seek(index: nat)
      requires Valid()
      modifies this
      ensures Valid()
      ensures forall k :: 0 <= k < |data| ==> indices[k] == if index < |data[k].1| then index else |data[k].1|
    {
      for k := 0 to |indices|
        invariant Valid()
        invariant forall j :: 0 <= j < k ==> indices[j] == if index < |data[j].1| then index else |data[j].1|
      {
        indices := indices[k := if index < |data[k].1| then index else |data[k].1|];
      }
    }

    predicate Exhausted()
      requires Valid()
      reads this
    {
      exists k :: 0 <= k < |data| && indices[k] >= |data[k].1|
    }

    /** All tickers move by one bar together, or none moves and there is nothing. */
    method Advance() returns (bars: Option<Dict<string, Bar>>)
      requires Valid()
      modifies this
      ensures Valid() && (bars.None? <==> old(Exhausted()))
      ensures bars.None? ==> indices == old(indices)
      ensures bars.Some? ==> |bars.value| == |data| && forall k :: 0 <= k < |data| ==>
        old(indices[k]) < |data[k].1| && bars.value[k] == (data[k].0, data[k].1[old(indices[k])]) && indices[k] == old(indices[k]) + 1
    {
      if Exhausted() {
        return None;
      }
      var result: Dict<string, Bar> := [];
      for k := 0 to |data|
        invariant |result| == k && indices == old(indices)
        invariant forall j :: 0 <= j < k ==> result[j] == (data[j].0, data[j].1[old(indices[j])])
      {
        result := result + [(data[k].0, data[k].1[indices[k]])];
      }
      for k := 0 to |indices|
        invariant |indices| == |old(indices)|
        invariant forall j :: 0 <= j < |indices| ==> indices[j] == old(indices[j]) + if j < k then 1 else 0
      {
        indices := indices[k := indices[k] + 1];
      }
      return Some(result);
    }
  }
}

/** The backtest engine. */
module Backtests {
  import opened Options
  import opened Sides
  import opened Reals
  import opened Sorting
  import opened Dicts
  import opened Portfolios
  import opened Replays

  datatype Idea = Idea(ticker: string, side: Side, quantity: real)

  /** An opportunity of an agent; without a suggested trade it is ignored. */
  datatype Opportunity = Opportunity(trade: Option<Idea>)

  /** All that an agent can see through the data bus at one bar. */
  datatype View = View(bars: Dict<string, Bar>, past: History)

  /** A deterministic agent answers from the views it has been shown so far; None is a failed scan. */
  datatype Agent = Agent(name: string, scan: seq<View> -> Option<seq<Opportunity>>)

  datatype Config = Config(initialCapital: real, commission: (real, real, string) -> real, slippageBps: real, warmup: nat)

  datatype OpenTrade = OpenTrade(side: Side, entryPrice: real)

  /** Keyed by agent and ticker. */
  type OpenTrades = Dict<(string, string), OpenTrade>

  /** A fill, what it cost in commission as the code books it, and the gain it realised on average cost. */
  datatype Fill = Fill(ticker: string, side: Side, quantity: real, charge: real, gain: real)

  datatype RunState = RunState(portfolio: Portfolio, openTrades: OpenTrades, fills: seq<Fill>)

  function Slipped(price: real, side: Side, bps: real): real {
    if bps <= 0.0 then price else if side == Buy then price * (1.0 + bps / 10000.0) else price * (1.0 - bps / 10000.0)
  }

  predicate Crosses(p: Portfolio, ticker: string, side: Side) {
    if side == Buy then Held(p, ticker) < 0.0 else Held(p, ticker) > 0.0
  }

  /** Close the whole position with an order of the given side. */
  function CloseAll(st: RunState, ticker: string, side: Side, price: real, commission: real, ts: int): RunState {
    var pos := Find(st.portfolio.positions, ticker);
    if pos.None? then st
    else
      var q := Abs(pos.value.quantity);
      st.(portfolio := Closed(st.portfolio, ticker, side, q, price, commission, ts),
          fills := st.fills + [Fill(ticker, side, q, commission, Gain(pos.value.avgCost, side, q, price))])
  }

  function Flipped(c: Config, st: RunState, agent: string, ticker: string, side: Side, price: real, ts: int): RunState {
    if Crosses(st.portfolio, ticker, side) then
      var q := Abs(Held(st.portfolio, ticker));
      CloseAll(st, ticker, side, price, c.commission(q, price, ticker), ts).(openTrades := Del(st.openTrades, (agent, ticker)))
    else st
  }

  function NewTrade(c: Config, agent: string, i: Idea, price: real, ts: int): TradeRecord {
    TradeRecord(agent, i.ticker, i.side, ts, price, i.quantity, c.commission(i.quantity, price, i.ticker), None)
  }

  function Open(st: RunState, t: TradeRecord): RunState {
    RunState(Opened(st.portfolio, t),
             Put(st.openTrades, (t.agent, t.ticker), OpenTrade(t.side, t.entryPrice)),
             st.fills + [Fill(t.ticker, t.side, t.quantity, if t.side == Buy then t.commission else -t.commission, 0.0)])
  }

  /** One opportunity: skipped, or a fill at the slipped close that first closes a crossed position. */
  function Filled(c: Config, st: RunState, agent: string, bars: Dict<string, Bar>, ts: int, o: Opportunity): RunState {
    if o.trade.None? || Find(bars, o.trade.value.ticker).None? then st
    else
      var i := o.trade.value;
      var price := Slipped(Find(bars, i.ticker).value.close, i.side, c.slippageBps);
      Open(Flipped(c, st, agent, i.ticker, i.side, price, ts), NewTrade(c, agent, i, price, ts))
  }

  /** A fill is never better than the close: a buyer pays the slippage on top and a seller gives it up. */
  lemma SlippedPlainly(close: real, bps: real)
    ensures bps <= 0.0 ==> Slipped(close, Buy, bps) == Slipped(close, Sell, bps) == close
    ensures bps > 0.0 ==>
      Slipped(close, Buy, bps) - close == close * bps / 10000.0 && close - Slipped(close, Sell, bps) == close * bps / 10000.0
    ensures close > 0.0 ==> Slipped(close, Buy, bps) >= close >= Slipped(close, Sell, bps)
  {
    if bps > 0.0 && close > 0.0 { assert close * bps > 0.0; }
  }

  /** What a filled opportunity appends and tracks: a trade of its own side and size at the slipped close of its ticker's
      bar, with the commission on that size and price, and an open-trade entry at the same price. */
  lemma FilledPlainly(c: Config, st: RunState, agent: string, bars: Dict<string, Bar>, ts: int, o: Opportunity)
    requires o.trade.Some? && Find(bars, o.trade.value.ticker).Some?
    ensures var after, i, close := Filled(c, st, agent, bars, ts, o), o.trade.value, Find(bars, o.trade.value.ticker).value.close;
      after.portfolio.trades != [] &&
      var t := after.portfolio.trades[|after.portfolio.trades|-1];
      t.agent == agent && t.ticker == i.ticker && t.side == i.side && t.quantity == i.quantity && t.entryTime == ts && t.exit == None &&
      t.commission == c.commission(i.quantity, t.entryPrice, i.ticker) &&
      (c.slippageBps <= 0.0 ==> t.entryPrice == close) &&
      (c.slippageBps > 0.0 ==> t.entryPrice - close == if i.side == Buy then close * c.slippageBps / 10000.0 else -(close * c.slippageBps / 10000.0)) &&
      Find(after.openTrades, (agent, i.ticker)) == Some(OpenTrade(i.side, t.entryPrice))
  {
    var i, close := o.trade.value, Find(bars, o.trade.value.ticker).value.close;
    var price := Slipped(close, i.side, c.slippageBps);
    var flipped := Flipped(c, st, agent, i.ticker, i.side, price, ts);
    SlippedPlainly(close, c.slippageBps);
    OpenPlainly(flipped.portfolio, NewTrade(c, agent, i, price, ts));
    FindPut(flipped.openTrades, (agent, i.ticker), OpenTrade(i.side, price), (agent, i.ticker));
  }

  /** A position held against an opportunity is closed first, whole, at the same price; any other is kept. */
  lemma FlippedPlainly(c: Config, st: RunState, agent: string, ticker: string, side: Side, price: real, ts: int)
    ensures var held := Held(st.portfolio, ticker);
      Flipped(c, st, agent, ticker, side, price, ts).portfolio ==
      if side == Buy && held < 0.0 then Closed(st.portfolio, ticker, Buy, -held, price, c.commission(-held, price, ticker), ts)
      else if side == Sell && held > 0.0 then Closed(st.portfolio, ticker, Sell, held, price, c.commission(held, price, ticker), ts)
      else st.portfolio
  {
  }

  /** A final close sells what was bought and buys back what was sold, whole, at the price it was entered at. */
  lemma FinalClosePlainly(st: RunState, key: (string, string), trade: OpenTrade, ts: int)
    ensures CloseOut(st, [(key, trade)], ts).portfolio ==
      var held := Held(st.portfolio, key.1);
      Closed(st.portfolio, key.1, if trade.side == Buy then Sell else Buy, if held < 0.0 then -held else held, trade.entryPrice, 0.0, ts)
  {
    assert [(key, trade)][1..] == [];
    assert CloseOut(st, [(key, trade)], ts) == CloseAll(st, key.1, Other(trade.side), trade.entryPrice, 0.0, ts);
  }

  /** A run starts after the warm-up, but leaves one bar at least, and it starts with the initial capital and nothing
      else. */
  lemma StartPlainly(c: Config, length: nat)
    requires length > 0
    ensures Begin(c).portfolio == Portfolio(c.initialCapital, [], [], [], 0.0) && Begin(c).openTrades == []
    ensures var start := StartIndex(c, length);
      start <= c.warmup && start < length && (start == c.warmup || start == length - 1)
  {
  }

  function FillAll(c: Config, st: RunState, agent: string, bars: Dict<string, Bar>, ts: int, os: seq<Opportunity>): RunState
    decreases |os|
  {
    if os == [] then st else FillAll(c, Filled(c, st, agent, bars, ts, os[0]), agent, bars, ts, os[1..])
  }

  function ScanAll(c: Config, st: RunState, agents: seq<Agent>, views: seq<View>, bars: Dict<string, Bar>, ts: int): RunState
    decreases |agents|
  {
    if agents == [] then st
    else
      var os := agents[0].scan(views);
      ScanAll(c, if os.Some? then FillAll(c, st, agents[0].name, bars, ts, os.value) else st, agents[1..], views, bars, ts)
  }

  function Closes(bars: Dict<string, Bar>): Dict<string, real> {
    seq(|bars|, k requires 0 <= k < |bars| => (bars[k].0, bars[k].1.close))
  }

  function AfterBar(c: Config, st: RunState, agents: seq<Agent>, views: seq<View>, bars: Dict<string, Bar>): RunState
    requires bars != []
  {
    var ts := bars[0].1.timestamp;
    ScanAll(c, st.(portfolio := WithEquity(st.portfolio, ts, Closes(bars))), agents, views, bars, ts)
  }

  function Least(a: nat, b: nat): nat { if a < b then a else b }

  /** get_historical at bar i: the first i+1 bars of each ticker as the caller supplied them. */
  function Past(raw: History, i: nat): History {
    seq(|raw|, k requires 0 <= k < |raw| => (raw[k].0, raw[k].1[..Least(i + 1, |raw[k].1|)]))
  }

  /** What agents see at bar i: the bars of the cursor's data, and the past of the raw data. */
  function ViewAt(data: History, raw: History, i: nat): View
    requires i < Length(data)
  {
    View(Column(data, i), Past(raw, i))
  }

  function Views(data: History, raw: History, start: nat, n: nat): (r: seq<View>)
    requires start + n <= Length(data)
    ensures |r| == n
  {
    if n == 0 then [] else Views(data, raw, start, n - 1) + [ViewAt(data, raw, start + n - 1)]
  }

  function Begin(c: Config): RunState {
    RunState(Portfolio(c.initialCapital, [], [], [], 0.0), [], [])
  }

  /** The state after n bars from the start index. */
  function RunSteps(c: Config, agents: seq<Agent>, data: History, raw: History, start: nat, n: nat): RunState
    requires start + n <= Length(data)
  {
    if n == 0 then Begin(c)
    else AfterBar(c, RunSteps(c, agents, data, raw, start, n - 1), agents, Views(data, raw, start, n), Column(data, start + n - 1))
  }

  /** The final closes: every open-trade entry in turn, at its entry price and free of commission. */
  function CloseOut(st: RunState, items: OpenTrades, ts: int): RunState
    decreases |items|
  {
    if items == [] then st
    else
      var (key, trade) := items[0];
      CloseOut(CloseAll(st, key.1, Other(trade.side), trade.entryPrice, 0.0, ts), items[1..], ts)
  }

  function StartIndex(c: Config, length: nat): nat
    requires length > 0
  {
    if c.warmup < length - 1 then c.warmup else length - 1
  }

  /** The state when the bars have run out. */
  function Played(c: Config, agents: seq<Agent>, data: History, raw: History): RunState
    requires Length(data) > 0
  {
    RunSteps(c, agents, data, raw, StartIndex(c, Length(data)), Length(data) - StartIndex(c, Length(data)))
  }

  function TimeAt(data: History, i: nat): int
    requires i < Length(data)
  {
    data[0].1[i].timestamp
  }

  /** The whole run over sorted data: every bar from the start index, then the final closes. */
  function WholeRun(c: Config, agents: seq<Agent>, data: History, raw: History): RunState
    requires Length(data) > 0
  {
    CloseOut(Played(c, agents, data, raw), Played(c, agents, data, raw).openTrades, TimeAt(data, Length(data) - 1))
  }

  // ---------------------------------------------------------------- causality

  ghost predicate SortedInputs(raw: History) {
    forall k :: 0 <= k < |raw| ==> Ascending(raw[k].1, ByTime())
  }

  /** The same tickers, each with the same first m bars. */
  ghost predicate AgreeUpTo(a: History, b: History, m: nat) {
    |a| == |b| && forall k :: 0 <= k < |a| ==>
      a[k].0 == b[k].0 && m <= |a[k].1| && m <= |b[k].1| && a[k].1[..m] == b[k].1[..m]
  }

  lemma OrderedInputs(raw: History)
    requires SortedInputs(raw)
    ensures Ordered(raw) == raw
  {
    forall k | 0 <= k < |raw|
      ensures Ordered(raw)[k] == raw[k]
    {
      SortSorted(raw[k].1, ByTime());
    }
  }

  lemma SamePrefix(x: seq<Bar>, y: seq<Bar>, m: nat, i: nat)
    requires m <= |x| && m <= |y| && x[..m] == y[..m] && i < m
    ensures x[i] == y[i] && x[..i] == y[..i] && x[..i+1] == y[..i+1]
  {
    assert x[i] == x[..m][i] && y[i] == y[..m][i];
    assert x[..i] == x[..m][..i] && y[..i] == y[..m][..i];
    assert x[..i+1] == x[..m][..i+1] && y[..i+1] == y[..m][..i+1];
  }

  lemma SameColumn(a: History, b: History, m: nat, i: nat)
    requires AgreeUpTo(a, b, m) && i < m
    ensures Column(a, i) == Column(b, i)
  {
    forall k | 0 <= k < |a|
      ensures a[k].1[i] == b[k].1[i]
    {
      SamePrefix(a[k].1, b[k].1, m, i);
    }
  }

  lemma SamePast(a: History, b: History, m: nat, i: nat)
    requires AgreeUpTo(a, b, m) && i < m
    ensures Past(a, i) == Past(b, i)
  {
    forall k | 0 <= k < |a|
      ensures Past(a, i)[k] == Past(b, i)[k]
    {
      SamePrefix(a[k].1, b[k].1, m, i);
      assert Least(i + 1, |a[k].1|) == i + 1 && Least(i + 1, |b[k].1|) == i + 1;
    }
  }

  lemma SameView(a: History, b: History, i: nat)
    requires AgreeUpTo(a, b, i + 1) && i < Length(a) && i < Length(b)
    ensures ViewAt(a, a, i) == ViewAt(b, b, i)
  {
    SameColumn(a, b, i + 1, i);
    SamePast(a, b, i + 1, i);
  }

  lemma {:induction false} SameViews(a: History, b: History, start: nat, n: nat)
    requires AgreeUpTo(a, b, start + n) && start + n <= Length(a) && start + n <= Length(b)
    ensures Views(a, a, start, n) == Views(b, b, start, n)
  {
    if n > 0 {
      var i := start + n - 1;
      AgreeEarlier(a, b, i);
      SameViews(a, b, start, n - 1);
      SameView(a, b, i);
      assert Views(a, a, start, n) == Views(a, a, start, n - 1) + [ViewAt(a, a, i)];
      assert Views(b, b, start, n) == Views(b, b, start, n - 1) + [ViewAt(b, b, i)];
    }
  }

  lemma AgreeEarlier(a: History, b: History, m: nat)
    requires AgreeUpTo(a, b, m + 1)
    ensures AgreeUpTo(a, b, m)
  {
    forall k | 0 <= k < |a|
      ensures a[k].1[..m] == b[k].1[..m]
    {
      SamePrefix(a[k].1, b[k].1, m + 1, m);
    }
  }

  lemma {:induction false} SameSteps(c: Config, agents: seq<Agent>, a: History, b: History, start: nat, n: nat)
    requires AgreeUpTo(a, b, start + n) && start + n <= Length(a) && start + n <= Length(b)
    ensures RunSteps(c, agents, a, a, start, n) == RunSteps(c, agents, b, b, start, n)
  {
    if n > 0 {
      AgreeEarlier(a, b, start + n - 1);
      SameSteps(c, agents, a, b, start, n - 1);
      SameViews(a, b, start, n);
      SameColumn(a, b, start + n, start + n - 1);
      var before, views, bars := RunSteps(c, agents, a, a, start, n - 1), Views(a, a, start, n), Column(a, start + n - 1);
      assert RunSteps(c, agents, a, a, start, n) == AfterBar(c, before, agents, views, bars);
      assert RunSteps(c, agents, b, b, start, n) == AfterBar(c, before, agents, views, bars);
    }
  }

  /** No look-ahead: with sorted inputs, what the engine has done after n bars depends only on the
      bars seen so far. */
  lemma Causality(c: Config, agents: seq<Agent>, a: History, b: History, start: nat, n: nat)
    requires SortedInputs(a) && SortedInputs(b) && AgreeUpTo(a, b, start + n)
    requires start + n <= Length(Ordered(a)) && start + n <= Length(Ordered(b))
    ensures RunSteps(c, agents, Ordered(a), a, start, n) == RunSteps(c, agents, Ordered(b), b, start, n)
  {
    OrderedInputs(a);
    OrderedInputs(b);
    SameSteps(c, agents, a, b, start, n);
  }

  // ---------------------------------------------------------------- the engine

  datatype Result = Failed | Completed(final: Portfolio, barCount: nat)

  method FillOpportunities(c: Config, portfolio: SimulatedPortfolio, openTrades: OpenTrades, ghost fills: seq<Fill>,
                           agent: string, bars: Dict<string, Bar>, ts: int, os: seq<Opportunity>)
    returns (openTrades': OpenTrades, ghost fills': seq<Fill>)
    modifies portfolio
    ensures RunState(portfolio.State(), openTrades', fills')
         == FillAll(c, old(RunState(portfolio.State(), openTrades, fills)), agent, bars, ts, os)
  {
    openTrades', fills' := openTrades, fills;
    ghost var st := RunState(portfolio.State(), openTrades, fills);
    for n := 0 to |os|
      invariant st == RunState(portfolio.State(), openTrades', fills')
      invariant FillAll(c, st, agent, bars, ts, os[n..]) == FillAll(c, old(RunState(portfolio.State(), openTrades, fills)), agent, bars, ts, os)
    {
      assert os[n..][1..] == os[n+1..];
      st := Filled(c, st, agent, bars, ts, os[n]);
      if os[n].trade.Some? && Find(bars, os[n].trade.value.ticker).Some? {
        var i := os[n].trade.value;
        var price := Slipped(Find(bars, i.ticker).value.close, i.side, c.slippageBps);
        var existing := Find(portfolio.positions, i.ticker);
        if existing.Some? && existing.value.quantity != 0.0 {
          var held := existing.value.quantity;
          if (i.side == Buy && held < 0.0) || (i.side == Sell && held > 0.0) {
            var closeSide := if held > 0.0 then Sell else Buy;
            fills' := fills' + [Fill(i.ticker, closeSide, Abs(held), c.commission(Abs(held), price, i.ticker),
                                     Gain(existing.value.avgCost, closeSide, Abs(held), price))];
            portfolio.ClosePosition(i.ticker, closeSide, Abs(held), price, c.commission(Abs(held), price, i.ticker), ts);
            openTrades' := Del(openTrades', (agent, i.ticker));
          }
        }
        var t := NewTrade(c, agent, i, price, ts);
        portfolio.OpenPosition(t);
        openTrades' := Put(openTrades', (agent, i.ticker), OpenTrade(t.side, t.entryPrice));
        fills' := fills' + [Fill(t.ticker, t.side, t.quantity, if t.side == Buy then t.commission else -t.commission, 0.0)];
      }
    }
    assert os[|os|..] == [];
  }

  method ScanAgents(c: Config, portfolio: SimulatedPortfolio, openTrades: OpenTrades, ghost fills: seq<Fill>,
                    agents: seq<Agent>, views: seq<View>, bars: Dict<string, Bar>, ts: int)
    returns (openTrades': OpenTrades, ghost fills': seq<Fill>)
    modifies portfolio
    ensures RunState(portfolio.State(), openTrades', fills')
         == ScanAll(c, old(RunState(portfolio.State(), openTrades, fills)), agents, views, bars, ts)
  {
    openTrades', fills' := openTrades, fills;
    for n := 0 to |agents|
      invariant ScanAll(c, RunState(portfolio.State(), openTrades', fills'), agents[n..], views, bars, ts)
             == ScanAll(c, old(RunState(portfolio.State(), openTrades, fills)), agents, views, bars, ts)
    {
      assert agents[n..][1..] == agents[n+1..];
      var os := agents[n].scan(views);
      if os.Some? {
        openTrades', fills' := FillOpportunities(c, portfolio, openTrades', fills', agents[n].name, bars, ts, os.value);
      }
    }
    assert agents[|agents|..] == [];
  }

  method CloseRemaining(portfolio: SimulatedPortfolio, openTrades: OpenTrades, ghost fills: seq<Fill>, ts: int)
    returns (ghost fills': seq<Fill>)
    modifies portfolio
    ensures RunState(portfolio.State(), openTrades, fills')
         == CloseOut(old(RunState(portfolio.State(), openTrades, fills)), openTrades, ts)
  {
    fills' := fills;
    for n := 0 to |openTrades|
      invariant CloseOut(RunState(portfolio.State(), openTrades, fills'), openTrades[n..], ts)
             == CloseOut(old(RunState(portfolio.State(), openTrades, fills)), openTrades, ts)
    {
      assert openTrades[n..][1..] == openTrades[n+1..];
      var (key, trade) := openTrades[n];
      var found := Find(portfolio.positions, key.1);
      if found.Some? {
        var q := Abs(found.value.quantity);
        fills' := fills' + [Fill(key.1, Other(trade.side), q, 0.0, Gain(found.value.avgCost, Other(trade.side), q, trade.entryPrice))];
        portfolio.ClosePosition(key.1, Other(trade.side), q, trade.entryPrice, 0.0, ts);
      }
    }
    assert openTrades[|openTrades|..] == [];
  }

  method PlayBar(c: Config, portfolio: SimulatedPortfolio, openTrades: OpenTrades, ghost fills: seq<Fill>,
                 agents: seq<Agent>, views: seq<View>, bars: Dict<string, Bar>)
    returns (openTrades': OpenTrades, ghost fills': seq<Fill>)
    requires bars != []
    modifies portfolio
    ensures RunState(portfolio.State(), openTrades', fills')
         == AfterBar(c, old(RunState(portfolio.State(), openTrades, fills)), agents, views, bars)
  {
    portfolio.RecordEquity(bars[0].1.timestamp, Closes(bars));
    openTrades', fills' := ScanAgents(c, portfolio, openTrades, fills, agents, views, bars, bars[0].1.timestamp);
  }

  /** The next bars of a cursor standing at bar i. */
  method NextBars(replay: HistoricalReplay, i: nat) returns (bars: Option<Dict<string, Bar>>)
    requires replay.AtBar(i) && i <= Length(replay.data) && replay.data != []
    modifies replay
    ensures i == Length(replay.data) ==> bars.None? && replay.AtBar(i)
    ensures i < Length(replay.data) ==> bars == Some(Column(replay.data, i)) && replay.AtBar(i + 1)
  {
    bars := replay.Advance();
    if i < Length(replay.data) {
      assert bars.Some?;
      assert bars.value == Column(replay.data, i);
    } else {
      var k :| 0 <= k < |replay.data| && Length(replay.data) == |replay.data[k].1|;
    }
  }

  /** One turn of the bar loop, with the cursor at bar i. */
  method PlayNext(c: Config, agents: seq<Agent>, replay: HistoricalReplay, raw: History, i: nat, views: seq<View>,
                  portfolio: SimulatedPortfolio, openTrades: OpenTrades, ghost fills: seq<Fill>)
    returns (more: bool, views': seq<View>, openTrades': OpenTrades, ghost fills': seq<Fill>, ts: int)
    requires replay.AtBar(i) && i <= Length(replay.data) && replay.data != []
    modifies replay, portfolio
    ensures more <==> i < Length(replay.data)
    ensures !more ==> replay.AtBar(i) && portfolio.State() == old(portfolio.State())
    ensures more ==> replay.AtBar(i + 1) && views' == views + [ViewAt(replay.data, raw, i)] && ts == TimeAt(replay.data, i)
    ensures more ==>
      RunState(portfolio.State(), openTrades', fills')
        == AfterBar(c, old(RunState(portfolio.State(), openTrades, fills)), agents, views', Column(replay.data, i))
  {
    views', openTrades', fills', ts := views, openTrades, fills, 0;
    var bars := NextBars(replay, i);
    more := bars.Some?;
    if more {
      ts := bars.value[0].1.timestamp;
      views' := views + [View(bars.value, Past(raw, i))];
      openTrades', fills' := PlayBar(c, portfolio, openTrades, fills, agents, views', bars.value);
    }
  }

  lemma OneMoreBar(c: Config, agents: seq<Agent>, data: History, raw: History, start: nat, n: nat)
    requires start + n < Length(data)
    ensures Views(data, raw, start, n + 1) == Views(data, raw, start, n) + [ViewAt(data, raw, start + n)]
    ensures RunSteps(c, agents, data, raw, start, n + 1)
         == AfterBar(c, RunSteps(c, agents, data, raw, start, n), agents, Views(data, raw, start, n + 1), Column(data, start + n))
  {
  }

  /** The bar loop: it plays exactly the bars from the start index to the end. */
  method PlayBars(c: Config, agents: seq<Agent>, replay: HistoricalReplay, raw: History, start: nat, portfolio: SimulatedPortfolio)
    returns (openTrades: OpenTrades, ghost fills: seq<Fill>, barCount: nat, ts: int)
    requires replay.AtBar(start) && start < Length(replay.data)
    requires portfolio.State() == Begin(c).portfolio
    modifies replay, portfolio
    ensures barCount == Length(replay.data) - start
    ensures RunState(portfolio.State(), openTrades, fills) == RunSteps(c, agents, replay.data, raw, start, barCount)
    ensures ts == TimeAt(replay.data, Length(replay.data) - 1)
  {
    var views: seq<View> := [];
    openTrades, fills, barCount, ts := [], [], 0, 0;
    ghost var data, at, last := replay.data, start, start;
    while true
      invariant at == start + barCount && replay.AtBar(at) && at <= Length(data)
      invariant views == Views(data, raw, start, barCount)
      invariant RunState(portfolio.State(), openTrades, fills) == RunSteps(c, agents, data, raw, start, barCount)
      invariant barCount > 0 ==> last == at - 1 && ts == TimeAt(data, last)
      decreases Length(data) - barCount
    {
      var more, views', openTrades', fills', ts' :=
        PlayNext(c, agents, replay, raw, start + barCount, views, portfolio, openTrades, fills);
      if !more {
        break;
      }
      OneMoreBar(c, agents, data, raw, start, barCount);
      views, openTrades, fills, ts, barCount := views', openTrades', fills', ts', barCount + 1;
      last, at := at, at + 1;
    }
  }

  /** The bar loop and the final closes. */
  method PlayOut(c: Config, agents: seq<Agent>, replay: HistoricalReplay, raw: History, portfolio: SimulatedPortfolio)
    returns (barCount: nat)
    requires Length(replay.data) > 0 && replay.AtBar(StartIndex(c, Length(replay.data)))
    requires portfolio.State() == Begin(c).portfolio
    modifies replay, portfolio
    ensures barCount == Length(replay.data) - StartIndex(c, Length(replay.data))
    ensures portfolio.State() == WholeRun(c, agents, replay.data, raw).portfolio
  {
    var openTrades, fills, n, ts := PlayBars(c, agents, replay, raw, StartIndex(c, Length(replay.data)), portfolio);
    barCount := n;
    ghost var played := RunState(portfolio.State(), openTrades, fills);
    assert played == Played(c, agents, replay.data, raw);
    fills := CloseRemaining(portfolio, openTrades, fills, ts);
    assert RunState(portfolio.State(), openTrades, fills) == CloseOut(played, openTrades, ts);
  }

  /** BacktestEngine.run. */
  method Run(c: Config, agents: seq<Agent>, raw: History) returns (result: Result)
    ensures result.Failed? <==> Length(Ordered(raw)) == 0
    ensures result.Completed? ==>
      result.final == WholeRun(c, agents, Ordered(raw), raw).portfolio &&
      result.barCount == Length(Ordered(raw)) - StartIndex(c, Length(Ordered(raw)))
  {
    var replay := new HistoricalReplay(raw);
    var length := Length(replay.data);
    if length == 0 {
      return Failed;
    }
    replay.Seek(StartIndex(c, length));
    var portfolio := new SimulatedPortfolio(c.initialCapital);
    var barCount := PlayOut(c, agents, replay, raw, portfolio);
    return Completed(portfolio.State(), barCount);
  }
}
