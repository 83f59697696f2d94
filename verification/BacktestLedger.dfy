/** What every reachable state of a backtest keeps, and how a run ends. */
module BacktestLedger {
  import opened Options
  import opened Sides
  import opened Reals
  import opened Seqs
  import opened Dicts
  import opened Portfolios
  import opened Replays
  import opened Backtests

  const NetOf := (f: Fill) => f.gain - f.charge

  function SignedOn(ticker: string): Fill -> real {
    (f: Fill) => if f.ticker == ticker then Signed(f.side, f.quantity) else 0.0
  }

  /** Quantities are the signed sums of the fills; cash plus cost has moved by realised gain on
      average cost less the booked commissions. */
  ghost predicate Balanced(st: RunState, capital: real) {
    Sound(st.portfolio) &&
    Worth(st.portfolio) == capital + SumOf(st.fills, NetOf) &&
    forall k :: Held(st.portfolio, k) == SumOf(st.fills, SignedOn(k))
  }

  /** The side of the last open-trade entry of the ticker. */
  function LastSide(items: OpenTrades, ticker: string): Option<Side> {
    if items == [] then None
    else if LastSide(items[1..], ticker).Some? then LastSide(items[1..], ticker)
    else if items[0].0.1 == ticker then Some(items[0].1.side) else None
  }

  /** The side on which a ticker is held. */
  function HeldSide(p: Portfolio, ticker: string): Option<Side> {
    if !Has(p.positions, ticker) then None else if Held(p, ticker) > 0.0 then Some(Buy) else Some(Sell)
  }

  /** A ticker is held exactly when it has open-trade entries, and on the side of the last of them. */
  ghost predicate Tracked(st: RunState) {
    UniqueKeys(st.openTrades) && forall k :: LastSide(st.openTrades, k) == HeldSide(st.portfolio, k)
  }

  ghost predicate Sane(st: RunState, capital: real) {
    Balanced(st, capital) && Tracked(st)
  }

  predicate PositiveSize(o: Opportunity) {
    o.trade.Some? ==> o.trade.value.quantity > 0.0
  }

  /** No agent ever suggests a trade of no or negative size. */
  ghost predicate PositiveAgents(agents: seq<Agent>) {
    forall a, views :: a in agents && a.scan(views).Some? ==> forall o :: o in a.scan(views).value ==> PositiveSize(o)
  }

  // ---------------------------------------------------------------- one fill

  lemma CloseBalanced(st: RunState, capital: real, ticker: string, side: Side, price: real, commission: real, ts: int)
    requires Balanced(st, capital)
    ensures Balanced(CloseAll(st, ticker, side, price, commission, ts), capital)
  {
    if Has(st.portfolio.positions, ticker) {
      var pos := Find(st.portfolio.positions, ticker).value;
      var after := CloseAll(st, ticker, side, price, commission, ts);
      var f := after.fills[|st.fills|];
      CloseHeld(st.portfolio, ticker, side, price, commission, ts);
      CloseLedger(st.portfolio, ticker, side, price, commission, ts);
      SumOfSnoc(st.fills, f, NetOf);
      forall k
        ensures Held(after.portfolio, k) == SumOf(after.fills, SignedOn(k))
      {
        SumOfSnoc(st.fills, f, SignedOn(k));
        assert Held(st.portfolio, k) == SumOf(st.fills, SignedOn(k));
      }
    }
  }

  lemma OpenBalanced(st: RunState, capital: real, t: TradeRecord)
    requires Balanced(st, capital) && Extends(st.portfolio, t)
    ensures Balanced(Open(st, t), capital)
  {
    var after := Open(st, t);
    var f := after.fills[|st.fills|];
    OpenHeld(st.portfolio, t);
    OpenLedger(st.portfolio, t);
    SumOfSnoc(st.fills, f, NetOf);
    forall k
      ensures Held(after.portfolio, k) == SumOf(after.fills, SignedOn(k))
    {
      SumOfSnoc(st.fills, f, SignedOn(k));
      assert Held(st.portfolio, k) == SumOf(st.fills, SignedOn(k));
    }
  }

  // ---------------------------------------------------------------- the open-trade entries

  lemma {:induction false} LastSidePut(items: OpenTrades, key: (string, string), t: OpenTrade, ticker: string)
    ensures var r := LastSide(Put(items, key, t), ticker);
      if key.1 != ticker then r == LastSide(items, ticker)
      else r == Some(t.side) || (Has(items, key) && r == LastSide(items, ticker) && r.Some?)
  {
    if items != [] {
      if items[0].0 == key {
        assert Put(items, key, t)[1..] == items[1..];
      } else {
        LastSidePut(items[1..], key, t, ticker);
        assert Put(items, key, t)[1..] == Put(items[1..], key, t);
      }
    }
  }

  lemma {:induction false} LastSideDel(items: OpenTrades, key: (string, string), ticker: string)
    requires key.1 != ticker
    ensures LastSide(Del(items, key), ticker) == LastSide(items, ticker)
  {
    if items != [] && items[0].0 != key {
      LastSideDel(items[1..], key, ticker);
      assert Del(items, key)[1..] == Del(items[1..], key);
    }
  }

  // ---------------------------------------------------------------- one opportunity

  /** After the flip, the new trade extends what is held: a crossed position is gone. */
  lemma FlippedExtends(c: Config, st: RunState, capital: real, agent: string, t: TradeRecord)
    requires Balanced(st, capital) && t.quantity > 0.0
    ensures Extends(Flipped(c, st, agent, t.ticker, t.side, t.entryPrice, t.entryTime).portfolio, t)
    ensures Balanced(Flipped(c, st, agent, t.ticker, t.side, t.entryPrice, t.entryTime), capital)
  {
    var p := st.portfolio;
    if Crosses(p, t.ticker, t.side) {
      var q := Abs(Held(p, t.ticker));
      CloseHeld(p, t.ticker, t.side, t.entryPrice, c.commission(q, t.entryPrice, t.ticker), t.entryTime);
      CloseBalanced(st, capital, t.ticker, t.side, t.entryPrice, c.commission(q, t.entryPrice, t.ticker), t.entryTime);
    }
  }

  lemma FlippedTracked(c: Config, st: RunState, capital: real, t: TradeRecord)
    requires Sane(st, capital) && t.quantity > 0.0
    ensures Tracked(Open(Flipped(c, st, t.agent, t.ticker, t.side, t.entryPrice, t.entryTime), t))
  {
    var mid := Flipped(c, st, t.agent, t.ticker, t.side, t.entryPrice, t.entryTime);
    var after := Open(mid, t);
    var key := (t.agent, t.ticker);
    FlippedExtends(c, st, capital, t.agent, t);
    OpenHeld(mid.portfolio, t);
    DelUnique(st.openTrades, key);
    FindDel(st.openTrades, key, key);
    PutUnique(mid.openTrades, key, OpenTrade(t.side, t.entryPrice));
    forall k
      ensures LastSide(after.openTrades, k) == HeldSide(after.portfolio, k)
    {
      LastSidePut(mid.openTrades, key, OpenTrade(t.side, t.entryPrice), k);
      assert LastSide(st.openTrades, k) == HeldSide(st.portfolio, k);
      if k != t.ticker {
        LastSideDel(st.openTrades, key, k);
        FlippedOther(c, st, capital, t, k);
      }
    }
  }

  lemma FlippedOther(c: Config, st: RunState, capital: real, t: TradeRecord, k: string)
    requires Balanced(st, capital) && k != t.ticker
    ensures Find(Flipped(c, st, t.agent, t.ticker, t.side, t.entryPrice, t.entryTime).portfolio.positions, k) == Find(st.portfolio.positions, k)
  {
    if Crosses(st.portfolio, t.ticker, t.side) {
      var q := Abs(Held(st.portfolio, t.ticker));
      CloseHeld(st.portfolio, t.ticker, t.side, t.entryPrice, c.commission(q, t.entryPrice, t.ticker), t.entryTime);
    }
  }

  lemma FilledSane(c: Config, st: RunState, capital: real, agent: string, bars: Dict<string, Bar>, ts: int, o: Opportunity)
    requires Sane(st, capital) && PositiveSize(o)
    ensures Sane(Filled(c, st, agent, bars, ts, o), capital)
  {
    if o.trade.Some? && Find(bars, o.trade.value.ticker).Some? {
      var i := o.trade.value;
      var price := Slipped(Find(bars, i.ticker).value.close, i.side, c.slippageBps);
      var t := NewTrade(c, agent, i, price, ts);
      FlippedExtends(c, st, capital, agent, t);
      OpenBalanced(Flipped(c, st, agent, i.ticker, i.side, price, ts), capital, t);
      FlippedTracked(c, st, capital, t);
    }
  }

  // ---------------------------------------------------------------- the whole run

  lemma {:induction false} FillAllSane(c: Config, st: RunState, capital: real, agent: string, bars: Dict<string, Bar>, ts: int, os: seq<Opportunity>)
    requires Sane(st, capital) && forall o :: o in os ==> PositiveSize(o)
    ensures Sane(FillAll(c, st, agent, bars, ts, os), capital)
    decreases |os|
  {
    if os != [] {
      FilledSane(c, st, capital, agent, bars, ts, os[0]);
      FillAllSane(c, Filled(c, st, agent, bars, ts, os[0]), capital, agent, bars, ts, os[1..]);
    }
  }

  lemma {:induction false} ScanAllSane(c: Config, st: RunState, capital: real, agents: seq<Agent>, views: seq<View>, bars: Dict<string, Bar>, ts: int)
    requires Sane(st, capital) && PositiveAgents(agents)
    ensures Sane(ScanAll(c, st, agents, views, bars, ts), capital)
    decreases |agents|
  {
    if agents != [] {
      var os := agents[0].scan(views);
      if os.Some? {
        FillAllSane(c, st, capital, agents[0].name, bars, ts, os.value);
      }
      ScanAllSane(c, if os.Some? then FillAll(c, st, agents[0].name, bars, ts, os.value) else st, capital, agents[1..], views, bars, ts);
    }
  }

  lemma BeginSane(c: Config)
    ensures Sane(Begin(c), c.initialCapital)
  {
    assert forall k :: SumOf([], SignedOn(k)) == 0.0;
  }

  lemma AfterBarSane(c: Config, st: RunState, capital: real, agents: seq<Agent>, views: seq<View>, bars: Dict<string, Bar>)
    requires Sane(st, capital) && PositiveAgents(agents) && bars != []
    ensures Sane(AfterBar(c, st, agents, views, bars), capital)
  {
    var ts := bars[0].1.timestamp;
    var recorded := st.(portfolio := WithEquity(st.portfolio, ts, Closes(bars)));
    assert forall k :: Held(recorded.portfolio, k) == Held(st.portfolio, k);
    assert forall k :: HeldSide(recorded.portfolio, k) == HeldSide(st.portfolio, k);
    ScanAllSane(c, recorded, capital, agents, views, bars, ts);
  }

  /** In every state reachable by the bar loop the books balance and the entries track the positions. */
  lemma {:induction false} RunBalances(c: Config, agents: seq<Agent>, data: History, raw: History, start: nat, n: nat)
    requires start + n <= Length(data) && PositiveAgents(agents)
    ensures Sane(RunSteps(c, agents, data, raw, start, n), c.initialCapital)
  {
    if n == 0 {
      BeginSane(c);
    } else {
      RunBalances(c, agents, data, raw, start, n - 1);
      AfterBarSane(c, RunSteps(c, agents, data, raw, start, n - 1), c.initialCapital, agents,
                   Views(data, raw, start, n), Column(data, start + n - 1));
    }
  }

  /** The final closes keep the books and, however many agents traded, leave nothing held: entries of
      the wrong side only double a position, and the last entry of its ticker removes it. */
  lemma {:induction false} CloseOutEmpties(st: RunState, capital: real, items: OpenTrades, ts: int)
    requires Balanced(st, capital)
    requires forall k :: Has(st.portfolio.positions, k) ==> LastSide(items, k) == HeldSide(st.portfolio, k)
    ensures Balanced(CloseOut(st, items, ts), capital)
    ensures CloseOut(st, items, ts).portfolio.positions == []
    decreases |items|
  {
    if items == [] {
      if st.portfolio.positions != [] {
        var (k, pos) := st.portfolio.positions[0];
        FindAt(st.portfolio.positions, 0);
        assert Has(st.portfolio.positions, k);
      }
    } else {
      var (key, trade) := items[0];
      var next := CloseAll(st, key.1, Other(trade.side), trade.entryPrice, 0.0, ts);
      CloseBalanced(st, capital, key.1, Other(trade.side), trade.entryPrice, 0.0, ts);
      forall k | Has(next.portfolio.positions, k)
        ensures LastSide(items[1..], k) == HeldSide(next.portfolio, k)
      {
        CloseStep(st, key.1, trade, ts, k);
        assert LastSide(items, k) == HeldSide(st.portfolio, k);
      }
      CloseOutEmpties(next, capital, items[1..], ts);
    }
  }

  /** What one final close does to the ticker k. */
  lemma CloseStep(st: RunState, ticker: string, trade: OpenTrade, ts: int, k: string)
    requires Sound(st.portfolio)
    ensures var next := CloseAll(st, ticker, Other(trade.side), trade.entryPrice, 0.0, ts);
      Has(next.portfolio.positions, k) ==>
        Has(st.portfolio.positions, k) && HeldSide(next.portfolio, k) == HeldSide(st.portfolio, k) &&
        (k == ticker ==> HeldSide(st.portfolio, k) != Some(trade.side))
  {
    if Has(st.portfolio.positions, ticker) {
      assert Held(st.portfolio, ticker) != 0.0;
      CloseHeld(st.portfolio, ticker, Other(trade.side), trade.entryPrice, 0.0, ts);
    }
  }

  /** A whole run ends flat, and its final cash is the initial capital plus every gain realised on
      average cost less every booked commission. */
  lemma RunEndsFlat(c: Config, agents: seq<Agent>, data: History, raw: History)
    requires Length(data) > 0 && PositiveAgents(agents)
    ensures var final := WholeRun(c, agents, data, raw);
      final.portfolio.positions == [] && final.portfolio.cash == c.initialCapital + SumOf(final.fills, NetOf)
  {
    var st := Played(c, agents, data, raw);
    RunBalances(c, agents, data, raw, StartIndex(c, Length(data)), Length(data) - StartIndex(c, Length(data)));
    EndsFlat(st, c.initialCapital, TimeAt(data, Length(data) - 1));
  }

  lemma EndsFlat(st: RunState, capital: real, ts: int)
    requires Sane(st, capital)
    ensures CloseOut(st, st.openTrades, ts).portfolio.positions == []
    ensures CloseOut(st, st.openTrades, ts).portfolio.cash == capital + SumOf(CloseOut(st, st.openTrades, ts).fills, NetOf)
  {
    assert forall k :: LastSide(st.openTrades, k) == HeldSide(st.portfolio, k);
    CloseOutEmpties(st, capital, st.openTrades, ts);
  }
}
