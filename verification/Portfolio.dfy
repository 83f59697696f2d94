/** The simulated portfolio of a backtest, as a value and as the object that updates it in place. */
module Portfolios {
  import opened Options
  import opened Sides
  import opened Reals
  import opened Dicts

  datatype Position = Position(quantity: real, avgCost: real)

  datatype Exit = Exit(time: int, price: real, pnl: real)

  datatype TradeRecord = TradeRecord(agent: string, ticker: string, side: Side, entryTime: int, entryPrice: real,
                                     quantity: real, commission: real, exit: Option<Exit>)

  datatype EquityPoint = EquityPoint(timestamp: int, equity: real, cash: real, positionsValue: real)

  datatype Portfolio = Portfolio(cash: real, positions: Dict<string, Position>, trades: seq<TradeRecord>,
                                 equity: seq<EquityPoint>, commissions: real)

  function Signed(side: Side, q: real): real { if side == Buy then q else -q }

  function Notional(q: real, price: real): real { q * price }

  /** The cost of `size` held at `avg` together with q more at `price`. */
  function Pooled(size: real, avg: real, q: real, price: real): real { Notional(size, avg) + Notional(q, price) }

  /** Average cost; an emptied position has cost 0. */
  function Average(total: real, size: real): real {
    if size == 0.0 then 0.0 else total / size
  }

  /** The position after adding. */
  function Added(pos: Position, side: Side, q: real, price: real): Position {
    var quantity := pos.quantity + Signed(side, q);
    Position(quantity,
      if side == Buy then Average(Pooled(pos.quantity, pos.avgCost, q, price), quantity)
      else Average(Pooled(Abs(pos.quantity), pos.avgCost, q, price), Abs(quantity)))
  }

  /** open_position. A SELL credits its commission. */
  function Opened(p: Portfolio, t: TradeRecord): Portfolio {
    var cost := Notional(t.quantity, t.entryPrice) + t.commission;
    var pos := Find(p.positions, t.ticker);
    p.(cash := if t.side == Buy then p.cash - cost else p.cash + cost,
       commissions := p.commissions + t.commission,
       positions := Put(p.positions, t.ticker,
                        if pos.None? then Position(Signed(t.side, t.quantity), t.entryPrice)
                        else Added(pos.value, t.side, t.quantity, t.entryPrice)),
       trades := p.trades + [t])
  }

  predicate Matches(t: TradeRecord, ticker: string, side: Side) {
    t.ticker == ticker && t.side != side && t.exit.None?
  }

  /** The latest open trade on the other side, if any. */
  function LastMatch(trades: seq<TradeRecord>, ticker: string, side: Side): (r: Option<nat>)
    ensures r.Some? ==>
      r.value < |trades| && trades[r.value].ticker == ticker && trades[r.value].side != side && trades[r.value].exit.None?
    ensures forall j :: (if r.Some? then r.value + 1 else 0) <= j < |trades| ==>
      !(trades[j].ticker == ticker && trades[j].side != side && trades[j].exit.None?)
  {
    if trades == [] then None
    else if Matches(trades[|trades|-1], ticker, side) then Some(|trades| - 1)
    else LastMatch(trades[..|trades|-1], ticker, side)
  }

  function PerShare(side: Side, entry: real, exit: real): real {
    if side == Sell then exit - entry else entry - exit
  }

  function Settled(trades: seq<TradeRecord>, ticker: string, side: Side, q: real, price: real, commission: real, ts: int)
    : seq<TradeRecord>
  {
    var m := LastMatch(trades, ticker, side);
    if m.None? || trades[m.value].entryPrice == 0.0 then trades
    else trades[m.value := trades[m.value].(exit :=
      Some(Exit(ts, price, Notional(q, PerShare(side, trades[m.value].entryPrice, price)) - commission)))]
  }

  /** close_position: `side` is the side of the closing order. */
  function Closed(p: Portfolio, ticker: string, side: Side, quantity: real, price: real, commission: real, ts: int): Portfolio {
    var pos := Find(p.positions, ticker);
    if pos.None? then p
    else
      var q := Min(quantity, Abs(pos.value.quantity));
      var left := pos.value.quantity + Signed(side, q);
      p.(cash := if side == Sell then p.cash + (Notional(q, price) - commission) else p.cash - (Notional(q, price) + commission),
         commissions := p.commissions + commission,
         trades := Settled(p.trades, ticker, side, q, price, commission, ts),
         positions := if left == 0.0 then Del(p.positions, ticker)
                      else Put(p.positions, ticker, pos.value.(quantity := left)))
  }

  function PriceOf(prices: Dict<string, real>, ticker: string, pos: Position): real {
    var found := Find(prices, ticker);
    if found.Some? then found.value else pos.avgCost
  }

  function ValueAt(prices: Dict<string, real>): (string, Position) -> real {
    (ticker: string, pos: Position) => pos.quantity * PriceOf(prices, ticker, pos)
  }

  function WithEquity(p: Portfolio, ts: int, prices: Dict<string, real>): Portfolio {
    var value := Total(p.positions, ValueAt(prices));
    p.(equity := p.equity + [EquityPoint(ts, p.cash + value, p.cash, value)])
  }

  class SimulatedPortfolio {
    var cash: real
    var positions: Dict<string, Position>
    var trades: seq<TradeRecord>
    var equity: seq<EquityPoint>
    var commissions: real

    function State(): Portfolio
      reads this
    {
      Portfolio(cash, positions, trades, equity, commissions)
    }

    constructor (initialCapital: real)
      ensures State() == Portfolio(initialCapital, [], [], [], 0.0)
    {
      cash, positions, trades, equity, commissions := initialCapital, [], [], [], 0.0;
    }

    method RecordEquity(ts: int, prices: Dict<string, real>)
      modifies this
      ensures State() == WithEquity(old(State()), ts, prices)
    {
      var value := 0.0;
      ghost var f := ValueAt(prices);
      for i := 0 to |positions|
        invariant State() == old(State())
        invariant value + Total(positions[i..], f) == Total(positions, f)
      {
        var (ticker, pos) := positions[i];
        value := value + pos.quantity * PriceOf(prices, ticker, pos);
        assert positions[i..][1..] == positions[i+1..];
      }
      assert positions[|positions|..] == [];
      equity := equity + [EquityPoint(ts, cash + value, cash, value)];
    }

    method OpenPosition(t: TradeRecord)
      modifies this
      ensures State() == Opened(old(State()), t)
    {
      var cost := Notional(t.quantity, t.entryPrice) + t.commission;
      cash := cash - (if t.side == Buy then cost else -cost);
      commissions := commissions + t.commission;
      var found := Find(positions, t.ticker);
      if found.None? {
        positions := Put(positions, t.ticker, Position(Signed(t.side, t.quantity), t.entryPrice));
      } else {
        var pos := found.value;
        if t.side == Buy {
          var total := Pooled(pos.quantity, pos.avgCost, t.quantity, t.entryPrice);
          var quantity := pos.quantity + t.quantity;
          positions := Put(positions, t.ticker, Position(quantity, Average(total, quantity)));
        } else {
          var total := Pooled(Abs(pos.quantity), pos.avgCost, t.quantity, t.entryPrice);
          var quantity := pos.quantity - t.quantity;
          positions := Put(positions, t.ticker, Position(quantity, Average(total, Abs(quantity))));
        }
      }
      trades := trades + [t];
    }

    method FindMatch(ticker: string, side: Side) returns (m: Option<nat>)
      ensures m == LastMatch(trades, ticker, side)
    {
      var i := |trades|;
      assert trades[..i] == trades;
      while i > 0 && !Matches(trades[i-1], ticker, side)
        invariant 0 <= i <= |trades|
        invariant LastMatch(trades[..i], ticker, side) == LastMatch(trades, ticker, side)
      {
        i := i - 1;
        assert trades[..i+1][..i] == trades[..i];
      }
      m := if i > 0 then Some(i - 1) else None;
    }

    method SettleTrade(ticker: string, side: Side, q: real, price: real, commission: real, ts: int)
      modifies this`trades
      ensures trades == Settled(old(trades), ticker, side, q, price, commission, ts)
      // one record, the latest open one of the other side, takes the whole result
      ensures var m := LastMatch(old(trades), ticker, side);
        Recorded(trades) == Recorded(old(trades)) +
          if m.None? || old(trades)[m.value].entryPrice == 0.0 then 0.0
          else Gain(old(trades)[m.value].entryPrice, side, q, price) - commission
    {
      SettledRecords(trades, ticker, side, q, price, commission, ts);
      var m := FindMatch(ticker, side);
      if m.Some? && trades[m.value].entryPrice != 0.0 {
        var t := trades[m.value];
        trades := trades[m.value := t.(exit := Some(Exit(ts, price, Notional(q, PerShare(side, t.entryPrice, price)) - commission)))];
      }
    }

    method ClosePosition(ticker: string, side: Side, quantity: real, price: real, commission: real, ts: int)
      modifies this
      ensures State() == Closed(old(State()), ticker, side, quantity, price, commission, ts)
    {
      var found := Find(positions, ticker);
      if found.None? {
        return;
      }
      var pos := found.value;
      var q := Min(quantity, Abs(pos.quantity));
      var notional := Notional(q, price);
      cash := cash + (if side == Sell then notional - commission else -(notional + commission));
      commissions := commissions + commission;
      SettleTrade(ticker, side, q, price, commission, ts);
      var left := pos.quantity - (if side == Sell then q else -q);
      if left == 0.0 {
        positions := Del(positions, ticker);
      } else {
        positions := Put(positions, ticker, pos.(quantity := left));
      }
    }
  }

  // ---------------------------------------------------------------- recorded results

  function ResultOf(t: TradeRecord): real { if t.exit.Some? then t.exit.value.pnl else 0.0 }

  /** The results the trade records show. */
  function Recorded(trades: seq<TradeRecord>): real {
    if trades == [] then 0.0 else Recorded(trades[..|trades|-1]) + ResultOf(trades[|trades|-1])
  }

  lemma {:induction false} RecordedReplace(trades: seq<TradeRecord>, i: nat, t: TradeRecord)
    requires i < |trades|
    ensures Recorded(trades[i := t]) == Recorded(trades) - ResultOf(trades[i]) + ResultOf(t)
  {
    var n := |trades| - 1;
    if i == n {
      assert trades[i := t][..n] == trades[..n];
    } else {
      assert trades[i := t][..n] == trades[..n][i := t];
      RecordedReplace(trades[..n], i, t);
    }
  }

  /** A close settles at most one record, the latest open one of the other side, and only its exit. */
  lemma SettlesOne(trades: seq<TradeRecord>, ticker: string, side: Side, q: real, price: real, commission: real, ts: int)
    ensures var after, m := Settled(trades, ticker, side, q, price, commission, ts), LastMatch(trades, ticker, side);
      |after| == |trades| &&
      (forall i :: 0 <= i < |trades| && m != Some(i) ==> after[i] == trades[i]) &&
      (m.Some? ==> after[m.value] == trades[m.value].(exit := after[m.value].exit)) &&
      (m.Some? && trades[m.value].entryPrice == 0.0 ==> after[m.value].exit == None) &&
      (m.Some? && trades[m.value].entryPrice != 0.0 ==> after[m.value].exit.Some?)
  {
  }

  /** The exit it is given: the time and price of the close, and the result on its own entry price less the commission. */
  lemma SettledPlainly(trades: seq<TradeRecord>, ticker: string, side: Side, q: real, price: real, commission: real, ts: int, m: nat)
    requires LastMatch(trades, ticker, side) == Some(m) && trades[m].entryPrice != 0.0
    ensures var after, entry := Settled(trades, ticker, side, q, price, commission, ts), trades[m].entryPrice;
      |after| == |trades| && after[m].exit.Some? && after[m].exit.value.time == ts && after[m].exit.value.price == price &&
      after[m].exit.value.pnl + commission == if side == Sell then q * (price - entry) else q * (entry - price)
  {
  }

  /** The gain of closing q that was entered at a given price, or on average cost. */
  function Gain(entry: real, side: Side, q: real, price: real): real { Notional(q, PerShare(side, entry, price)) }

  lemma SettledRecords(trades: seq<TradeRecord>, ticker: string, side: Side, q: real, price: real, commission: real, ts: int)
    ensures var m := LastMatch(trades, ticker, side);
      Recorded(Settled(trades, ticker, side, q, price, commission, ts)) == Recorded(trades) +
        if m.None? || trades[m.value].entryPrice == 0.0 then 0.0
        else Gain(trades[m.value].entryPrice, side, q, price) - commission
  {
    var m := LastMatch(trades, ticker, side);
    if m.Some? && trades[m.value].entryPrice != 0.0 {
      RecordedReplace(trades, m.value, Settled(trades, ticker, side, q, price, commission, ts)[m.value]);
    }
  }

  lemma SameGain(side: Side, q: real, a: real, b: real, price: real)
    ensures Gain(a, side, q, price) == Gain(b, side, q, price) <==> q == 0.0 || a == b
  {
    Subtracts(q, price, a);
    Subtracts(q, a, price);
    Subtracts(q, price, b);
    Subtracts(q, b, price);
    SameNotional(q, a, b);
  }

  lemma SameNotional(q: real, a: real, b: real)
    ensures Notional(q, a) == Notional(q, b) <==> q == 0.0 || a == b
  {
    if Notional(q, a) == Notional(q, b) && q != 0.0 {
      assert q * (a - b) == 0.0;
    }
  }

  /** What a close records is the gain on average cost less the commission exactly when the matched record was
      entered at the average cost, or nothing was closed; without a record to settle, when that is nothing. */
  lemma RecordsGainIff(p: Portfolio, ticker: string, side: Side, quantity: real, price: real, commission: real, ts: int)
    requires Has(p.positions, ticker)
    ensures var pos, m := Find(p.positions, ticker).value, LastMatch(p.trades, ticker, side);
      var q := Min(quantity, Abs(pos.quantity));
      Recorded(Closed(p, ticker, side, quantity, price, commission, ts).trades) == Recorded(p.trades) + Gain(pos.avgCost, side, q, price) - commission
      <==>
      if m.None? || p.trades[m.value].entryPrice == 0.0 then Gain(pos.avgCost, side, q, price) == commission
      else q == 0.0 || p.trades[m.value].entryPrice == pos.avgCost
  {
    var pos, m := Find(p.positions, ticker).value, LastMatch(p.trades, ticker, side);
    var q := Min(quantity, Abs(pos.quantity));
    SettledRecords(p.trades, ticker, side, q, price, commission, ts);
    if m.Some? {
      SameGain(side, q, p.trades[m.value].entryPrice, pos.avgCost, price);
    }
  }

  function Bought(quantity: real, price: real, ts: int): TradeRecord {
    TradeRecord("a", "X", Buy, ts, price, quantity, 0.0, None)
  }

  /** A portfolio that bought one share at 100 and another at 110. */
  function TwoBought(): Portfolio {
    Opened(Opened(Portfolio(1000.0, [], [], [], 0.0), Bought(1.0, 100.0, 1)), Bought(1.0, 110.0, 2))
  }

  lemma OpensFirst(p: Portfolio, t: TradeRecord)
    requires p.positions == []
    ensures Opened(p, t).positions == [(t.ticker, Position(Signed(t.side, t.quantity), t.entryPrice))]
  {
  }

  lemma OpensMore(p: Portfolio, t: TradeRecord, pos: Position)
    requires p.positions == [(t.ticker, pos)]
    ensures Opened(p, t).positions == [(t.ticker, Added(pos, t.side, t.quantity, t.entryPrice))]
  {
  }

  lemma TwoBoughtState()
    ensures TwoBought().positions == [("X", Position(2.0, 105.0))]
    ensures TwoBought().trades == [Bought(1.0, 100.0, 1), Bought(1.0, 110.0, 2)]
  {
    var p := Portfolio(1000.0, [], [], [], 0.0);
    OpensFirst(p, Bought(1.0, 100.0, 1));
    OpensMore(Opened(p, Bought(1.0, 100.0, 1)), Bought(1.0, 110.0, 2), Position(1.0, 100.0));
    assert Pooled(1.0, 100.0, 1.0, 110.0) == 210.0;
    assert Added(Position(1.0, 100.0), Buy, 1.0, 110.0) == Position(2.0, 105.0);
  }

  lemma LatestOfTwo(trades: seq<TradeRecord>, first: TradeRecord, second: TradeRecord)
    requires trades == [first, second] && first.exit.None? && second.exit.None?
    ensures LastMatch(trades, second.ticker, Other(second.side)) == Some(1) && Recorded(trades) == 0.0
  {
    assert trades[..1] == [first] && [first][..0] == [];
    assert Recorded(trades) == Recorded([first]) + ResultOf(second);
  }

  lemma ClosedTrades(p: Portfolio, ticker: string, pos: Position, side: Side, quantity: real, price: real, commission: real, ts: int)
    requires Find(p.positions, ticker) == Some(pos)
    ensures Closed(p, ticker, side, quantity, price, commission, ts).trades
         == Settled(p.trades, ticker, side, Min(quantity, Abs(pos.quantity)), price, commission, ts)
  {
  }

  lemma SaleOfTwo(trades: seq<TradeRecord>)
    requires trades == [Bought(1.0, 100.0, 1), Bought(1.0, 110.0, 2)]
    ensures var after := Settled(trades, "X", Sell, 2.0, 120.0, 0.0, 3);
      Recorded(after) == 20.0 && |after| == 2 && after[0].exit.None?
  {
    LatestOfTwo(trades, Bought(1.0, 100.0, 1), Bought(1.0, 110.0, 2));
    SettledRecords(trades, "X", Sell, 2.0, 120.0, 0.0, 3);
    SettlesOne(trades, "X", Sell, 2.0, 120.0, 0.0, 3);
    assert Gain(110.0, Sell, 2.0, 120.0) == 20.0;
  }

  /** Sold at 120 they gain 30; the records show 20, as if both had cost 110, and the first trade stays open. */
  lemma TwoBuysOneSale(p: Portfolio)
    requires p.positions == TwoBought().positions && p.trades == TwoBought().trades
    ensures var after := Closed(p, "X", Sell, 2.0, 120.0, 0.0, 3);
      Gain(105.0, Sell, 2.0, 120.0) == 30.0 &&
      Recorded(after.trades) == 20.0 && |after.trades| == 2 && after.trades[0].exit.None?
  {
    TwoBoughtState();
    SaleOfTwo(p.trades);
    ClosedTrades(p, "X", Position(2.0, 105.0), Sell, 2.0, 120.0, 0.0, 3);
  }

  // ---------------------------------------------------------------- the ledger

  function Cost(pos: Position): real { Notional(pos.quantity, pos.avgCost) }

  const AtCost := (ticker: string, pos: Position) => Cost(pos)

  /** Cash plus what the open positions cost. */
  function Worth(p: Portfolio): real {
    p.cash + Total(p.positions, AtCost)
  }

  function Held(p: Portfolio, ticker: string): real {
    var pos := Find(p.positions, ticker);
    if pos.Some? then pos.value.quantity else 0.0
  }

  /** Positions are keyed once and never empty. */
  ghost predicate Sound(p: Portfolio) {
    UniqueKeys(p.positions) && forall k :: Has(p.positions, k) ==> Held(p, k) != 0.0
  }

  /** A trade of positive size that does not cross an existing position. */
  predicate Extends(p: Portfolio, t: TradeRecord) {
    t.quantity > 0.0 && (Has(p.positions, t.ticker) ==> if t.side == Buy then Held(p, t.ticker) > 0.0 else Held(p, t.ticker) < 0.0)
  }

  lemma AddedAtCost(pos: Position, side: Side, q: real, price: real)
    requires q > 0.0 && if side == Buy then pos.quantity > 0.0 else pos.quantity < 0.0
    ensures Cost(Added(pos, side, q, price)) == Cost(pos) + Signed(side, Notional(q, price))
  {
    var quantity := pos.quantity + Signed(side, q);
    if side == Buy {
      AverageCosts(Pooled(pos.quantity, pos.avgCost, q, price), quantity);
    } else {
      var total := Pooled(Abs(pos.quantity), pos.avgCost, q, price);
      AverageCosts(total, Abs(quantity));
      Negated(Abs(quantity), Average(total, Abs(quantity)));
      Negated(Abs(pos.quantity), pos.avgCost);
      Negated(q, price);
    }
  }

  lemma AverageCosts(total: real, size: real)
    requires size != 0.0
    ensures Notional(size, Average(total, size)) == total
  {
  }

  lemma Negated(x: real, y: real)
    ensures Notional(-x, y) == -Notional(x, y)
  {
  }

  /** The position of the ticker after the opening trade. */
  function AfterOpen(p: Portfolio, t: TradeRecord): Position {
    var found := Find(p.positions, t.ticker);
    if found.None? then Position(Signed(t.side, t.quantity), t.entryPrice)
    else Added(found.value, t.side, t.quantity, t.entryPrice)
  }

  lemma OpenHeld(p: Portfolio, t: TradeRecord)
    requires Sound(p) && Extends(p, t)
    ensures Sound(Opened(p, t))
    ensures forall k :: Find(Opened(p, t).positions, k) == if k == t.ticker then Some(AfterOpen(p, t)) else Find(p.positions, k)
    ensures AfterOpen(p, t).quantity == Held(p, t.ticker) + Signed(t.side, t.quantity)
  {
    PutUnique(p.positions, t.ticker, AfterOpen(p, t));
    forall k
      ensures Find(Opened(p, t).positions, k) == if k == t.ticker then Some(AfterOpen(p, t)) else Find(p.positions, k)
    {
      FindPut(p.positions, t.ticker, AfterOpen(p, t), k);
    }
    forall k | Has(Opened(p, t).positions, k)
      ensures Held(Opened(p, t), k) != 0.0
    {
      if k != t.ticker { assert Has(p.positions, k); }
    }
  }

  lemma OpenCost(p: Portfolio, t: TradeRecord)
    requires Sound(p) && Extends(p, t)
    ensures Total(Opened(p, t).positions, AtCost)
         == Total(p.positions, AtCost) + Signed(t.side, Notional(t.quantity, t.entryPrice))
  {
    var found := Find(p.positions, t.ticker);
    TotalPut(p.positions, t.ticker, AfterOpen(p, t), AtCost);
    if found.Some? {
      AddedAtCost(found.value, t.side, t.quantity, t.entryPrice);
      assert AtCost(t.ticker, found.value) == Cost(found.value);
    } else {
      Negated(t.quantity, t.entryPrice);
    }
    assert AtCost(t.ticker, AfterOpen(p, t)) == Cost(AfterOpen(p, t));
  }

  /** A fill books its trade and its commission, and pays for both: a BUY with cash, while a SELL is credited. */
  lemma OpenPlainly(p: Portfolio, t: TradeRecord)
    ensures Opened(p, t).trades == p.trades + [t] && Opened(p, t).commissions == p.commissions + t.commission
    ensures Opened(p, t).cash == if t.side == Buy then p.cash - t.quantity * t.entryPrice - t.commission
                                 else p.cash + t.quantity * t.entryPrice + t.commission
    ensures Opened(p, t).equity == p.equity
  {
  }

  /** A close books its commission, takes the proceeds of a SELL or pays for a BUY, and never more than is held. */
  lemma ClosePlainly(p: Portfolio, ticker: string, side: Side, quantity: real, price: real, commission: real, ts: int)
    ensures var after := Closed(p, ticker, side, quantity, price, commission, ts);
      after.equity == p.equity &&
      if !Has(p.positions, ticker) then after == p
      else
        var held := Held(p, ticker);
        var size := if held < 0.0 then -held else held;
        var q := if quantity < size then quantity else size;
        after.commissions == p.commissions + commission &&
        after.cash == if side == Sell then p.cash + q * price - commission else p.cash - q * price - commission
  {
  }

  /** The value of the positions: each at its price, or at cost where there is none. */
  lemma ValuePlainly(positions: Dict<string, Position>, prices: Dict<string, real>)
    ensures Total(positions, ValueAt(prices)) ==
      if positions == [] then 0.0
      else
        var (ticker, pos) := positions[0];
        Total(positions[1..], ValueAt(prices)) +
        if Find(prices, ticker).Some? then pos.quantity * Find(prices, ticker).value else pos.quantity * pos.avgCost
  {
  }

  /** An equity point is taken of cash and that value, and changes nothing else. */
  lemma EquityPlainly(p: Portfolio, ts: int, prices: Dict<string, real>)
    ensures var value := Total(p.positions, ValueAt(prices));
      WithEquity(p, ts, prices) == p.(equity := p.equity + [EquityPoint(ts, p.cash + value, p.cash, value)])
  {
  }

  /** Opening moves worth by the commission alone: charged on a BUY, credited on a SELL. */
  lemma OpenLedger(p: Portfolio, t: TradeRecord)
    requires Sound(p) && Extends(p, t)
    ensures Worth(Opened(p, t)) == Worth(p) + if t.side == Buy then -t.commission else t.commission
  {
    OpenCost(p, t);
  }

  /** The position left by an order of its whole size: none, or twice as much if the side is wrong. */
  function Left(pos: Position, side: Side): Position {
    pos.(quantity := pos.quantity + Signed(side, Abs(pos.quantity)))
  }

  predicate Unwinds(pos: Position, side: Side) {
    side == Sell <==> pos.quantity > 0.0
  }

  /** Closing the whole size of a position removes it, or doubles it if the side is wrong. */
  lemma CloseHeld(p: Portfolio, ticker: string, side: Side, price: real, commission: real, ts: int)
    requires Sound(p) && Has(p.positions, ticker)
    ensures var pos := Find(p.positions, ticker).value;
      var after := Closed(p, ticker, side, Abs(pos.quantity), price, commission, ts);
      Sound(after) &&
      forall k :: Find(after.positions, k) ==
        if k != ticker then Find(p.positions, k) else if Unwinds(pos, side) then None else Some(Left(pos, side))
  {
    var pos := Find(p.positions, ticker).value;
    var after := Closed(p, ticker, side, Abs(pos.quantity), price, commission, ts);
    assert Held(p, ticker) != 0.0;
    forall k
      ensures Find(after.positions, k) ==
        if k != ticker then Find(p.positions, k) else if Unwinds(pos, side) then None else Some(Left(pos, side))
    {
      FindDel(p.positions, ticker, k);
      FindPut(p.positions, ticker, Left(pos, side), k);
    }
    DelUnique(p.positions, ticker);
    PutUnique(p.positions, ticker, Left(pos, side));
    forall k | Has(after.positions, k)
      ensures Held(after, k) != 0.0
    {
      if k != ticker { assert Has(p.positions, k); }
    }
  }

  lemma CloseCost(p: Portfolio, ticker: string, side: Side, price: real, commission: real, ts: int)
    requires Sound(p) && Has(p.positions, ticker)
    ensures var pos := Find(p.positions, ticker).value;
      Total(Closed(p, ticker, side, Abs(pos.quantity), price, commission, ts).positions, AtCost)
        == Total(p.positions, AtCost) - Cost(pos) + Cost(Left(pos, side))
  {
    var pos := Find(p.positions, ticker).value;
    TotalDel(p.positions, ticker, AtCost);
    TotalPut(p.positions, ticker, Left(pos, side), AtCost);
    assert AtCost(ticker, pos) == Cost(pos) && AtCost(ticker, Left(pos, side)) == Cost(Left(pos, side));
  }

  /** Closing moves worth by the gain realised on average cost, less the commission. */
  lemma CloseLedger(p: Portfolio, ticker: string, side: Side, price: real, commission: real, ts: int)
    requires Sound(p) && Has(p.positions, ticker)
    ensures var pos := Find(p.positions, ticker).value;
      Worth(Closed(p, ticker, side, Abs(pos.quantity), price, commission, ts))
        == Worth(p) + Gain(pos.avgCost, side, Abs(pos.quantity), price) - commission
  {
    CloseCost(p, ticker, side, price, commission, ts);
    ClosingGain(Find(p.positions, ticker).value, side, price);
  }

  lemma ClosingGain(pos: Position, side: Side, price: real)
    ensures var q := Abs(pos.quantity);
      Cost(Left(pos, side)) == Cost(pos) + Gain(pos.avgCost, side, q, price) - (if side == Sell then Notional(q, price) else -Notional(q, price))
  {
    var q := Abs(pos.quantity);
    Distributes(pos.quantity, Signed(side, q), pos.avgCost);
    Negated(q, pos.avgCost);
    Subtracts(q, price, pos.avgCost);
    Subtracts(q, pos.avgCost, price);
  }

  lemma Distributes(x: real, y: real, z: real)
    ensures Notional(x + y, z) == Notional(x, z) + Notional(y, z)
  {
  }

  lemma Subtracts(x: real, y: real, z: real)
    ensures Notional(x, y - z) == Notional(x, y) - Notional(x, z)
  {
  }
}
