/** The paper trader and its ledger. */
module PaperTrading {
  import opened Options
  import opened Sides
  import opened Reals
  import opened Seqs
  import opened Dicts

  datatype OrderType = Market | Limit | StopLoss | TakeProfit

  datatype Status = Pending | Filled | Cancelled

  datatype Order = Order(id: nat, symbol: string, side: Side, orderType: OrderType, quantity: real, price: real,
                         status: Status, filledPrice: Option<real>, filledQuantity: Option<real>, commission: real)

  datatype Position = Position(quantity: real, avgEntry: real, current: real, unrealized: real, realized: real)

  datatype Trade = Trade(symbol: string, quantity: real, entry: real, exit: real, pnl: real)

  datatype Account = Account(cash: real, positions: Dict<string, Position>, orders: seq<Order>, history: seq<Trade>,
                             totalTrades: nat, winning: nat, losing: nat)

  const COMMISSION_RATE := 0.001

  function Commission(o: Order): real { Times(o.price, o.quantity) * COMMISSION_RATE }

  /** The order as filled at its own price. */
  function AsFilled(o: Order, status: Status): Order {
    o.(filledPrice := Some(o.price), filledQuantity := Some(o.quantity), commission := Commission(o), status := status)
  }

  function QuantityOf(a: Account, symbol: string): real {
    var pos := Find(a.positions, symbol);
    if pos.Some? then pos.value.quantity else 0.0
  }

  /** A buy needs the cash for price and commission; a sale needs the shares. */
  predicate Fills(a: Account, o: Order) {
    if o.side == Buy then a.cash >= Times(o.price, o.quantity) + Commission(o)
    else Has(a.positions, o.symbol) && QuantityOf(a, o.symbol) >= o.quantity
  }

  function Bought(pos: Option<Position>, o: Order): Position {
    if pos.None? then Position(o.quantity, o.price, o.price, 0.0, 0.0)
    else
      var total := pos.value.quantity + o.quantity;
      pos.value.(avgEntry := if total == 0.0 then 0.0
                             else (Times(pos.value.avgEntry, pos.value.quantity) + Times(o.price, o.quantity)) / total,
                 quantity := total)
  }

  function Proceeds(o: Order): real { Times(o.price, o.quantity) - Commission(o) }

  function SalePnl(pos: Position, o: Order): real { Proceeds(o) - Times(pos.avgEntry, o.quantity) }

  function Remaining(pos: Position, o: Order): Position {
    pos.(quantity := pos.quantity - o.quantity, realized := pos.realized + SalePnl(pos, o))
  }

  function AfterBuy(a: Account, o: Order): Account {
    a.(cash := a.cash - (Times(o.price, o.quantity) + Commission(o)),
       positions := Put(a.positions, o.symbol, Bought(Find(a.positions, o.symbol), o)))
  }

  function AfterSale(a: Account, o: Order, pos: Position): Account {
    var left := Remaining(pos, o);
    a.(cash := a.cash + Proceeds(o),
       positions := if left.quantity == 0.0 then Del(a.positions, o.symbol) else Put(a.positions, o.symbol, left),
       history := a.history + [Trade(o.symbol, o.quantity, pos.avgEntry, o.price, SalePnl(pos, o))],
       totalTrades := a.totalTrades + 1,
       winning := a.winning + if SalePnl(pos, o) > 0.0 then 1 else 0,
       losing := a.losing + if SalePnl(pos, o) > 0.0 then 0 else 1)
  }

  /** The account after placing a new order: only market orders are filled, or cancelled. */
  function Placed(a: Account, o: Order): Account {
    if o.orderType != Market then a.(orders := a.orders + [o])
    else if !Fills(a, o) then a.(orders := a.orders + [AsFilled(o, Cancelled)])
    else
      (if o.side == Buy then AfterBuy(a, o) else AfterSale(a, o, Find(a.positions, o.symbol).value))
        .(orders := a.orders + [AsFilled(o, Filled)])
  }

  // ---------------------------------------------------------------- in plain terms

  /** A buy is filled exactly with cash for its price and a commission of a tenth of a percent, a sale exactly with the
      shares. */
  lemma FillsPlainly(a: Account, o: Order)
    ensures o.side == Buy ==> (Fills(a, o) <==> a.cash >= o.price * o.quantity + 0.001 * (o.price * o.quantity))
    ensures o.side == Sell ==>
      (Fills(a, o) <==> Find(a.positions, o.symbol).Some? && Find(a.positions, o.symbol).value.quantity >= o.quantity)
    ensures AsFilled(o, Filled) ==
      Order(o.id, o.symbol, o.side, o.orderType, o.quantity, o.price, Filled, Some(o.price), Some(o.quantity), 0.001 * (o.price * o.quantity))
    ensures AsFilled(o, Cancelled) == AsFilled(o, Filled).(status := Cancelled)
  {
  }

  /** A buy opens a position at its price, or adds to one and moves its entry price to the average. */
  lemma BuyPlainly(a: Account, o: Order, k: string)
    ensures var after, before := AfterBuy(a, o), Find(a.positions, o.symbol);
      after.cash == a.cash - o.price * o.quantity - 0.001 * (o.price * o.quantity) &&
      after.history == a.history && after.totalTrades == a.totalTrades &&
      (k != o.symbol ==> Find(after.positions, k) == Find(a.positions, k)) &&
      (before.None? ==> Find(after.positions, o.symbol) == Some(Position(o.quantity, o.price, o.price, 0.0, 0.0))) &&
      (before.Some? && before.value.quantity + o.quantity != 0.0 ==>
        var pos := Find(after.positions, o.symbol);
        pos.Some? && pos.value == before.value.(quantity := pos.value.quantity, avgEntry := pos.value.avgEntry) &&
        pos.value.quantity == before.value.quantity + o.quantity &&
        pos.value.avgEntry * pos.value.quantity == before.value.avgEntry * before.value.quantity + o.price * o.quantity)
  {
    var before := Find(a.positions, o.symbol);
    FindPut(a.positions, o.symbol, Bought(before, o), k);
    FindPut(a.positions, o.symbol, Bought(before, o), o.symbol);
    if before.Some? && before.value.quantity + o.quantity != 0.0 {
      Quotient(before.value.avgEntry * before.value.quantity + o.price * o.quantity, before.value.quantity + o.quantity);
    }
  }

  lemma Quotient(x: real, y: real)
    requires y != 0.0
    ensures x / y * y == x
  {
  }

  /** A sale takes in its proceeds less the commission, records its result against the entry price, and counts as won
      exactly if that is positive; the position shrinks, or is gone when sold out. */
  lemma SalePlainly(a: Account, o: Order, pos: Position, k: string)
    requires Find(a.positions, o.symbol) == Some(pos) && UniqueKeys(a.positions)
    ensures var after, pnl := AfterSale(a, o, pos), (o.price - pos.avgEntry) * o.quantity - 0.001 * (o.price * o.quantity);
      after.cash == a.cash + o.price * o.quantity - 0.001 * (o.price * o.quantity) &&
      after.history == a.history + [Trade(o.symbol, o.quantity, pos.avgEntry, o.price, after.history[|a.history|].pnl)] &&
      after.history[|a.history|].pnl == pnl && after.totalTrades == a.totalTrades + 1 &&
      (if pnl > 0.0 then after.winning == a.winning + 1 && after.losing == a.losing
       else after.winning == a.winning && after.losing == a.losing + 1) &&
      (k != o.symbol ==> Find(after.positions, k) == Find(a.positions, k)) &&
      (pos.quantity == o.quantity ==> Find(after.positions, o.symbol) == None) &&
      (pos.quantity != o.quantity ==>
        Find(after.positions, o.symbol) == Some(pos.(quantity := pos.quantity - o.quantity, realized := pos.realized + SalePnl(pos, o))))
  {
    assert SalePnl(pos, o) == (o.price - pos.avgEntry) * o.quantity - 0.001 * (o.price * o.quantity);
    FindDel(a.positions, o.symbol, k);
    FindDel(a.positions, o.symbol, o.symbol);
    FindPut(a.positions, o.symbol, Remaining(pos, o), k);
    FindPut(a.positions, o.symbol, Remaining(pos, o), o.symbol);
  }

  /** Only a market order acts when it is placed; any other is stored as it is. */
  lemma PlacedPlainly(a: Account, o: Order)
    ensures o.orderType != Market ==> Placed(a, o) == a.(orders := a.orders + [o])
    ensures o.orderType == Market && !Fills(a, o) ==> Placed(a, o) == a.(orders := a.orders + [AsFilled(o, Cancelled)])
    ensures o.orderType == Market && Fills(a, o) && o.side == Buy ==>
      Placed(a, o) == AfterBuy(a, o).(orders := a.orders + [AsFilled(o, Filled)])
    ensures o.orderType == Market && Fills(a, o) && o.side == Sell ==>
      Placed(a, o) == AfterSale(a, o, Find(a.positions, o.symbol).value).(orders := a.orders + [AsFilled(o, Filled)])
  {
  }

  // ---------------------------------------------------------------- the ledger

  const AtCost := (symbol: string, pos: Position) => Times(pos.avgEntry, pos.quantity)

  const PnlOf := (t: Trade) => t.pnl

  /** The commission an order took out of the cost basis: that of a filled buy. */
  const BuyCommission := (o: Order) => if o.side == Buy && o.status == Filled then o.commission else 0.0

  ghost predicate Held(a: Account) {
    UniqueKeys(a.positions) && forall k :: Has(a.positions, k) ==> QuantityOf(a, k) > 0.0
  }

  /** Every cent is accounted for: cash, shares at cost and commissions of filled buys add up to the
      initial capital and the recorded trade results. */
  ghost predicate Balanced(a: Account, capital: real) {
    a.cash + Total(a.positions, AtCost) + SumOf(a.orders, BuyCommission) == capital + SumOf(a.history, PnlOf)
  }

  ghost predicate Sound(a: Account, capital: real) {
    Held(a) && Balanced(a, capital) && a.cash >= 0.0 && a.winning + a.losing == a.totalTrades == |a.history|
  }

  lemma Pooled(avg: real, held: real, price: real, q: real)
    requires held + q != 0.0
    ensures Times((Times(avg, held) + Times(price, q)) / (held + q), held + q) == Times(avg, held) + Times(price, q)
  {
  }

  lemma BuyKeeps(a: Account, o: Order)
    requires Held(a) && o.quantity > 0.0
    ensures Held(AfterBuy(a, o))
    ensures Total(AfterBuy(a, o).positions, AtCost) == Total(a.positions, AtCost) + Times(o.price, o.quantity)
  {
    var pos := Find(a.positions, o.symbol);
    var next := Bought(pos, o);
    if pos.Some? {
      assert QuantityOf(a, o.symbol) > 0.0;
      Pooled(pos.value.avgEntry, pos.value.quantity, o.price, o.quantity);
      assert AtCost(o.symbol, pos.value) == Times(pos.value.avgEntry, pos.value.quantity);
    }
    assert AtCost(o.symbol, next) == Times(next.avgEntry, next.quantity);
    PutUnique(a.positions, o.symbol, next);
    TotalPut(a.positions, o.symbol, next, AtCost);
    forall k | Has(AfterBuy(a, o).positions, k)
      ensures QuantityOf(AfterBuy(a, o), k) > 0.0
    {
      FindPut(a.positions, o.symbol, next, k);
      if k != o.symbol { assert Has(a.positions, k); }
    }
  }

  lemma SaleKeeps(a: Account, o: Order, pos: Position)
    requires Held(a) && o.quantity > 0.0 && Find(a.positions, o.symbol) == Some(pos) && pos.quantity >= o.quantity
    ensures Held(AfterSale(a, o, pos))
    ensures Total(AfterSale(a, o, pos).positions, AtCost) == Total(a.positions, AtCost) - Times(pos.avgEntry, o.quantity)
  {
    SaleHeld(a, o, pos);
    SaleCost(a, o, pos);
  }

  lemma SaleCost(a: Account, o: Order, pos: Position)
    requires Find(a.positions, o.symbol) == Some(pos)
    ensures Total(AfterSale(a, o, pos).positions, AtCost) == Total(a.positions, AtCost) - Times(pos.avgEntry, o.quantity)
  {
    var left := Remaining(pos, o);
    TotalDel(a.positions, o.symbol, AtCost);
    TotalPut(a.positions, o.symbol, left, AtCost);
    assert AtCost(o.symbol, pos) == Times(pos.avgEntry, pos.quantity);
    assert AtCost(o.symbol, left) == Times(pos.avgEntry, pos.quantity - o.quantity);
    Less(pos.avgEntry, pos.quantity, o.quantity);
  }

  lemma SaleHeld(a: Account, o: Order, pos: Position)
    requires Held(a) && o.quantity > 0.0 && Find(a.positions, o.symbol) == Some(pos) && pos.quantity >= o.quantity
    ensures Held(AfterSale(a, o, pos))
  {
    var left := Remaining(pos, o);
    DelUnique(a.positions, o.symbol);
    PutUnique(a.positions, o.symbol, left);
    forall k | Has(AfterSale(a, o, pos).positions, k)
      ensures QuantityOf(AfterSale(a, o, pos), k) > 0.0
    {
      FindDel(a.positions, o.symbol, k);
      FindPut(a.positions, o.symbol, left, k);
      if k != o.symbol { assert Has(a.positions, k); }
    }
  }

  lemma Less(avg: real, held: real, q: real)
    ensures Times(avg, held - q) == Times(avg, held) - Times(avg, q)
  {
  }

  lemma ProceedsPositive(o: Order)
    requires o.price > 0.0 && o.quantity > 0.0
    ensures Proceeds(o) > 0.0
  {
    assert Times(o.price, o.quantity) > 0.0;
  }

  /** Placing any order of positive price and quantity keeps the account sound. */
  lemma PlacedSound(a: Account, capital: real, o: Order)
    requires Sound(a, capital) && o.price > 0.0 && o.quantity > 0.0 && o.status == Pending
    ensures Sound(Placed(a, o), capital)
  {
    var after := Placed(a, o);
    var last := after.orders[|a.orders|];
    SumOfSnoc(a.orders, last, BuyCommission);
    if o.orderType == Market && Fills(a, o) {
      if o.side == Buy {
        BuyKeeps(a, o);
        assert Held(AfterBuy(a, o));
      } else {
        var pos := Find(a.positions, o.symbol).value;
        SaleKeeps(a, o, pos);
        ProceedsPositive(o);
        SumOfSnoc(a.history, after.history[|a.history|], PnlOf);
        assert Held(AfterSale(a, o, pos));
      }
    }
    HeldOnPositions(a, after, o);
  }

  lemma HeldOnPositions(a: Account, after: Account, o: Order)
    requires Held(a) && after == Placed(a, o)
    requires o.orderType == Market && Fills(a, o) ==>
      Held(if o.side == Buy then AfterBuy(a, o) else AfterSale(a, o, Find(a.positions, o.symbol).value))
    ensures Held(after)
  {
    var before := if o.orderType == Market && Fills(a, o) then
      (if o.side == Buy then AfterBuy(a, o) else AfterSale(a, o, Find(a.positions, o.symbol).value)) else a;
    assert before.positions == after.positions;
    forall k | Has(after.positions, k)
      ensures QuantityOf(after, k) > 0.0
    {
      assert QuantityOf(before, k) == QuantityOf(after, k);
    }
  }

  // ---------------------------------------------------------------- results of positions sold out

  predicate IsSale(o: Order) { o.status == Filled && o.side == Sell }

  /** What the filled orders have left of a symbol. */
  function Net(orders: seq<Order>, symbol: string): real {
    if orders == [] then 0.0
    else
      var o := orders[|orders|-1];
      Net(orders[..|orders|-1], symbol) +
      if o.symbol == symbol && o.status == Filled then (if o.side == Buy then o.quantity else -o.quantity) else 0.0
  }

  /** The number of filled sales: each records one trade. */
  function Sales(orders: seq<Order>): nat {
    if orders == [] then 0 else Sales(orders[..|orders|-1]) + if IsSale(orders[|orders|-1]) then 1 else 0
  }

  /** The newest order sells the symbol out. */
  predicate SellsOut(orders: seq<Order>, symbol: string)
    requires orders != []
  {
    IsSale(orders[|orders|-1]) && orders[|orders|-1].symbol == symbol && Net(orders, symbol) == 0.0
  }

  /** How many trades were recorded up to the last time the symbol was sold out. */
  function SettledTrades(orders: seq<Order>, symbol: string): (n: nat)
    ensures n <= Sales(orders)
  {
    if orders == [] then 0
    else if SellsOut(orders, symbol) then Sales(orders)
    else SettledTrades(orders[..|orders|-1], symbol)
  }

  /** The results of the first n trades that were recorded before their symbol was last sold out. */
  function Gone(orders: seq<Order>, history: seq<Trade>, n: nat): real
    requires n <= |history|
  {
    if n == 0 then 0.0
    else Gone(orders, history, n - 1) + if n - 1 < SettledTrades(orders, history[n-1].symbol) then history[n-1].pnl else 0.0
  }

  /** The results of the symbol among the first n trades, from trade `from` on. */
  function Running(history: seq<Trade>, symbol: string, from: nat, n: nat): real
    requires n <= |history|
  {
    if n == 0 then 0.0
    else Running(history, symbol, from, n - 1) + if history[n-1].symbol == symbol && n - 1 >= from then history[n-1].pnl else 0.0
  }

  function RealizedOf(a: Account, symbol: string): real {
    var pos := Find(a.positions, symbol);
    if pos.Some? then pos.value.realized else 0.0
  }

  function GoneOf(a: Account): real { Gone(a.orders, a.history, |a.history|) }

  const Realized := (symbol: string, pos: Position) => pos.realized

  /** The symbol's position is what its orders left, and shows the results since it was last sold out. */
  ghost predicate Followed(a: Account, symbol: string) {
    QuantityOf(a, symbol) == Net(a.orders, symbol) &&
    RealizedOf(a, symbol) == Running(a.history, symbol, SettledTrades(a.orders, symbol), |a.history|)
  }

  /** Every recorded result is on a position still open, or was recorded before its symbol was last sold out. */
  ghost predicate Traced(a: Account) {
    |a.history| == Sales(a.orders) && (forall k :: Followed(a, k)) &&
    SumOf(a.history, PnlOf) == Total(a.positions, Realized) + GoneOf(a)
  }

  /** The results that leave the open positions with an order that sells one of them out. */
  function SoldOut(a: Account, o: Order): real {
    if o.orderType == Market && o.side == Sell && Fills(a, o) && QuantityOf(a, o.symbol) == o.quantity
    then RealizedOf(a, o.symbol) + SalePnl(Find(a.positions, o.symbol).value, o)
    else 0.0
  }

  lemma {:induction false} SameGone(orders: seq<Order>, orders': seq<Order>, history: seq<Trade>, history': seq<Trade>, n: nat)
    requires n <= |history| <= |history'| && history'[..|history|] == history
    requires forall k :: SettledTrades(orders', k) == SettledTrades(orders, k)
    ensures Gone(orders', history', n) == Gone(orders, history, n)
  {
    if n > 0 {
      SameGone(orders, orders', history, history', n - 1);
      assert history'[n-1] == history[n-1];
    }
  }

  lemma {:induction false} MoreGone(orders: seq<Order>, orders': seq<Order>, history: seq<Trade>, history': seq<Trade>, symbol: string, n: nat)
    requires n <= |history| <= |history'| && history'[..|history|] == history
    requires forall k :: k != symbol ==> SettledTrades(orders', k) == SettledTrades(orders, k)
    requires SettledTrades(orders', symbol) >= |history|
    ensures Gone(orders', history', n) == Gone(orders, history, n) + Running(history, symbol, SettledTrades(orders, symbol), n)
  {
    if n > 0 {
      MoreGone(orders, orders', history, history', symbol, n - 1);
      assert history'[n-1] == history[n-1];
    }
  }

  lemma {:induction false} RunningOn(history: seq<Trade>, history': seq<Trade>, symbol: string, from: nat, n: nat)
    requires n <= |history| <= |history'| && history'[..|history|] == history
    ensures Running(history', symbol, from, n) == Running(history, symbol, from, n)
  {
    if n > 0 {
      RunningOn(history, history', symbol, from, n - 1);
      assert history'[n-1] == history[n-1];
    }
  }

  lemma {:induction false} NothingRuns(history: seq<Trade>, symbol: string, from: nat, n: nat)
    requires n <= |history| && n <= from
    ensures Running(history, symbol, from, n) == 0.0
  {
    if n > 0 { NothingRuns(history, symbol, from, n - 1); }
  }

  /** What one more order does to the log. */
  lemma LogStep(orders: seq<Order>, o: Order, k: string)
    ensures Sales(orders + [o]) == Sales(orders) + if IsSale(o) then 1 else 0
    ensures Net(orders + [o], k) == Net(orders, k) +
      if o.symbol == k && o.status == Filled then (if o.side == Buy then o.quantity else -o.quantity) else 0.0
    ensures SettledTrades(orders + [o], k) ==
      if IsSale(o) && o.symbol == k && Net(orders, k) - o.quantity == 0.0 then Sales(orders) + 1 else SettledTrades(orders, k)
  {
    assert (orders + [o])[..|orders|] == orders;
  }

  // the three ways an order can go

  lemma UnfilledTraced(a: Account, o: Order)
    requires Traced(a) && o.status != Filled
    ensures Traced(a.(orders := a.orders + [o])) && GoneOf(a.(orders := a.orders + [o])) == GoneOf(a)
  {
    var b := a.(orders := a.orders + [o]);
    forall k
      ensures SettledTrades(b.orders, k) == SettledTrades(a.orders, k) && Followed(b, k)
    {
      LogStep(a.orders, o, k);
      assert Followed(a, k);
    }
    LogStep(a.orders, o, "");
    SameGone(a.orders, b.orders, a.history, b.history, |a.history|);
  }

  lemma BuyTraced(a: Account, o: Order)
    requires Traced(a) && o.side == Buy
    ensures var b := AfterBuy(a, o).(orders := a.orders + [AsFilled(o, Filled)]); Traced(b) && GoneOf(b) == GoneOf(a)
  {
    var filled := AsFilled(o, Filled);
    var next := Bought(Find(a.positions, o.symbol), o);
    var b := AfterBuy(a, o).(orders := a.orders + [filled]);
    forall k
      ensures SettledTrades(b.orders, k) == SettledTrades(a.orders, k) && Followed(b, k)
    {
      LogStep(a.orders, filled, k);
      FindPut(a.positions, o.symbol, next, k);
      assert Followed(a, k);
    }
    LogStep(a.orders, filled, "");
    SameGone(a.orders, b.orders, a.history, b.history, |a.history|);
    TotalPut(a.positions, o.symbol, next, Realized);
  }

  lemma SaleFollowed(a: Account, o: Order, pos: Position, k: string)
    requires Held(a) && Traced(a) && o.side == Sell && Find(a.positions, o.symbol) == Some(pos)
    ensures Followed(AfterSale(a, o, pos).(orders := a.orders + [AsFilled(o, Filled)]), k)
  {
    var filled, left := AsFilled(o, Filled), Remaining(pos, o);
    var b := AfterSale(a, o, pos).(orders := a.orders + [filled]);
    LogStep(a.orders, filled, k);
    FindDel(a.positions, o.symbol, k);
    FindPut(a.positions, o.symbol, left, k);
    assert Followed(a, k) && Followed(a, o.symbol);
    RunningOn(a.history, b.history, k, SettledTrades(a.orders, k), |a.history|);
    if k == o.symbol && left.quantity == 0.0 {
      NothingRuns(b.history, k, SettledTrades(b.orders, k), |b.history|);
    }
  }

  lemma SaleGone(a: Account, o: Order, pos: Position)
    requires Traced(a) && o.side == Sell && Find(a.positions, o.symbol) == Some(pos)
    ensures var b := AfterSale(a, o, pos).(orders := a.orders + [AsFilled(o, Filled)]);
      GoneOf(b) == GoneOf(a) + if pos.quantity == o.quantity then pos.realized + SalePnl(pos, o) else 0.0
  {
    var filled := AsFilled(o, Filled);
    var b := AfterSale(a, o, pos).(orders := a.orders + [filled]);
    forall k
      ensures SettledTrades(b.orders, k) == if k == o.symbol && pos.quantity == o.quantity then |b.history| else SettledTrades(a.orders, k)
    {
      LogStep(a.orders, filled, k);
      assert Followed(a, o.symbol);
    }
    assert b.history[..|a.history|] == a.history;
    if pos.quantity == o.quantity {
      MoreGone(a.orders, b.orders, a.history, b.history, o.symbol, |a.history|);
      assert Followed(a, o.symbol);
    } else {
      SameGone(a.orders, b.orders, a.history, b.history, |a.history|);
    }
  }

  lemma SaleTraced(a: Account, o: Order, pos: Position)
    requires Held(a) && Traced(a) && o.side == Sell && Find(a.positions, o.symbol) == Some(pos)
    ensures Traced(AfterSale(a, o, pos).(orders := a.orders + [AsFilled(o, Filled)]))
  {
    var filled, left := AsFilled(o, Filled), Remaining(pos, o);
    var b := AfterSale(a, o, pos).(orders := a.orders + [filled]);
    forall k ensures Followed(b, k) {
      SaleFollowed(a, o, pos, k);
    }
    LogStep(a.orders, filled, o.symbol);
    SaleGone(a, o, pos);
    SumOfSnoc(a.history, b.history[|a.history|], PnlOf);
    TotalPut(a.positions, o.symbol, left, Realized);
    TotalDel(a.positions, o.symbol, Realized);
  }

  /** An order keeps results traced, and moves to the gone ones exactly those of the position it sells out. */
  lemma PlacedTraced(a: Account, o: Order)
    requires Held(a) && Traced(a) && o.status == Pending
    ensures Traced(Placed(a, o)) && GoneOf(Placed(a, o)) == GoneOf(a) + SoldOut(a, o)
  {
    if o.orderType != Market {
      UnfilledTraced(a, o);
    } else if !Fills(a, o) {
      UnfilledTraced(a, AsFilled(o, Cancelled));
    } else if o.side == Buy {
      BuyTraced(a, o);
    } else {
      var pos := Find(a.positions, o.symbol).value;
      SaleTraced(a, o, pos);
      SaleGone(a, o, pos);
    }
  }

  const Unrealized := (symbol: string, pos: Position) => pos.unrealized

  /** The reported total P&L is what is recorded plus what is unrealised, less what was recorded before a symbol
      was last sold out: it is complete if and only if those results cancel out. */
  lemma TotalPnlDropsClosed(a: Account)
    requires Traced(a)
    ensures Total(a.positions, OpenPnl) == Total(a.positions, Unrealized) + SumOf(a.history, PnlOf) - GoneOf(a)
    ensures Total(a.positions, OpenPnl) == Total(a.positions, Unrealized) + SumOf(a.history, PnlOf) <==> GoneOf(a) == 0.0
  {
    OpenIsBoth(a.positions);
  }

  lemma {:induction false} OpenIsBoth(positions: Dict<string, Position>)
    ensures Total(positions, OpenPnl) == Total(positions, Unrealized) + Total(positions, Realized)
  {
    if positions != [] { OpenIsBoth(positions[1..]); }
  }

  function MarketOrder(id: nat, side: Side, price: real): Order { NewOrder(id, "X", side, Market, 1.0, price) }

  /** One share bought at 100 and sold out at 110 records 9.89, of which the reported total shows nothing. */
  lemma SaleForgotten(a: Account)
    requires a == Account(1000.0, [], [], [], 0, 0, 0)
    ensures var after := Placed(Placed(a, MarketOrder(1, Buy, 100.0)), MarketOrder(2, Sell, 110.0));
      SumOf(after.history, PnlOf) == 9.89 && Total(after.positions, OpenPnl) == 0.0
  {
    var mid := Placed(a, MarketOrder(1, Buy, 100.0));
    assert mid.positions == [("X", Position(1.0, 100.0, 100.0, 0.0, 0.0))];
    var after := Placed(mid, MarketOrder(2, Sell, 110.0));
    assert after.positions == [];
    assert |after.history| == 1 && after.history[0].pnl == 9.89 && after.history[1..] == [];
  }

  // ---------------------------------------------------------------- prices

  function Repriced(pos: Position, price: real): Position {
    pos.(current := price, unrealized := Times(price - pos.avgEntry, pos.quantity))
  }

  function WithPrices(positions: Dict<string, Position>, prices: seq<(string, real)>): Dict<string, Position>
    decreases |prices|
  {
    if prices == [] then positions
    else
      var (symbol, price) := prices[0];
      WithPrices(if Has(positions, symbol) then Put(positions, symbol, Repriced(Find(positions, symbol).value, price)) else positions,
                 prices[1..])
  }

  /** The last of the prices given for a symbol. */
  function LastPrice(prices: seq<(string, real)>, symbol: string): Option<real> {
    if prices == [] then None
    else if LastPrice(prices[1..], symbol).Some? then LastPrice(prices[1..], symbol)
    else if prices[0].0 == symbol then Some(prices[0].1) else None
  }

  /** A held position is marked at that price: a higher one gains, a lower one loses. Nothing else changes. */
  lemma {:induction false} PricesPlainly(positions: Dict<string, Position>, prices: seq<(string, real)>, k: string)
    ensures var before, after, price := Find(positions, k), Find(WithPrices(positions, prices), k), LastPrice(prices, k);
      if before.None? || price.None? then after == before
      else after.Some? && after == Some(Position(before.value.quantity, before.value.avgEntry, price.value,
                                  after.value.unrealized, before.value.realized)) &&
           after.value.unrealized == (price.value - before.value.avgEntry) * before.value.quantity
    decreases |prices|
  {
    if prices != [] {
      var (symbol, price) := prices[0];
      if Has(positions, symbol) {
        var marked := Repriced(Find(positions, symbol).value, price);
        FindPut(positions, symbol, marked, k);
        PricesPlainly(Put(positions, symbol, marked), prices[1..], k);
      } else {
        PricesPlainly(positions, prices[1..], k);
      }
    }
  }

  const OpenPnl := (symbol: string, pos: Position) => pos.unrealized + pos.realized

  const AtMarket := (symbol: string, pos: Position) => Times(pos.current, pos.quantity)

  const Paper := (symbol: string, pos: Position) => Times(pos.current - pos.avgEntry, pos.quantity)

  /** New prices move neither quantities nor costs. */
  lemma {:induction false} PricesKeepHoldings(positions: Dict<string, Position>, prices: seq<(string, real)>)
    requires UniqueKeys(positions)
    ensures var after := WithPrices(positions, prices);
      UniqueKeys(after) && Total(after, AtCost) == Total(positions, AtCost) && Total(after, Realized) == Total(positions, Realized) &&
      forall k :: Has(after, k) == Has(positions, k) &&
        (Has(positions, k) ==> Find(after, k).value.quantity == Find(positions, k).value.quantity) &&
        (Has(positions, k) ==> Find(after, k).value.realized == Find(positions, k).value.realized)
    decreases |prices|
  {
    if prices != [] {
      var (symbol, price) := prices[0];
      if Has(positions, symbol) {
        var pos := Find(positions, symbol).value;
        var mid := Put(positions, symbol, Repriced(pos, price));
        PutUnique(positions, symbol, Repriced(pos, price));
        TotalPut(positions, symbol, Repriced(pos, price), AtCost);
        TotalPut(positions, symbol, Repriced(pos, price), Realized);
        assert AtCost(symbol, pos) == AtCost(symbol, Repriced(pos, price));
        forall k ensures Find(mid, k) == if k == symbol then Some(Repriced(pos, price)) else Find(positions, k) {
          FindPut(positions, symbol, Repriced(pos, price), k);
        }
        PricesKeepHoldings(mid, prices[1..]);
      } else {
        PricesKeepHoldings(positions, prices[1..]);
      }
    }
  }

  lemma {:induction false} MarketIsCostAndPaper(positions: Dict<string, Position>)
    ensures Total(positions, AtMarket) == Total(positions, AtCost) + Total(positions, Paper)
  {
    if positions != [] {
      var pos := positions[0].1;
      MarketIsCostAndPaper(positions[1..]);
      assert Times(pos.current, pos.quantity) == Times(pos.avgEntry, pos.quantity) + Times(pos.current - pos.avgEntry, pos.quantity);
    }
  }

  /** The summary reconciles: the total value is the initial capital, plus every recorded trade result,
      plus the paper gain on what is held, less the commissions of filled buys. */
  lemma SummaryReconciles(a: Account, capital: real)
    requires Sound(a, capital)
    ensures a.cash + Total(a.positions, AtMarket)
         == capital + SumOf(a.history, PnlOf) + Total(a.positions, Paper) - SumOf(a.orders, BuyCommission)
  {
    MarketIsCostAndPaper(a.positions);
  }

  // ---------------------------------------------------------------- the trader

  function NewOrder(id: nat, symbol: string, side: Side, orderType: OrderType, quantity: real, price: real): Order {
    Order(id, symbol, side, orderType, quantity, price, Pending, None, None, 0.0)
  }

  /** From a to b, by the order o: a sound account stays sound if price and quantity are positive, and results
      stay traced, those of a position sold out by the order joining the gone ones. */
  ghost predicate Keeps(a: Account, b: Account, capital: real, o: Order) {
    (o.price > 0.0 && o.quantity > 0.0 && Sound(a, capital) ==> Sound(b, capital)) &&
    (Held(a) && Traced(a) ==> Traced(b) && GoneOf(b) == GoneOf(a) + SoldOut(a, o))
  }

  lemma PlacedKeeps(a: Account, capital: real, o: Order)
    requires o.status == Pending
    ensures Keeps(a, Placed(a, o), capital, o)
  {
    if o.price > 0.0 && o.quantity > 0.0 && Sound(a, capital) { PlacedSound(a, capital, o); }
    if Held(a) && Traced(a) { PlacedTraced(a, o); }
  }

  class PaperTrader {
    const initialCapital: real
    var cash: real
    var positions: Dict<string, Position>
    var orders: seq<Order>
    var history: seq<Trade>
    var totalTrades: nat
    var winning: nat
    var losing: nat
    var totalPnl: real
    var winRate: real
    var orderCounter: nat

    function State(): Account
      reads this
    {
      Account(cash, positions, orders, history, totalTrades, winning, losing)
    }

    constructor (initialCapital: real)
      ensures State() == Account(initialCapital, [], [], [], 0, 0, 0) && this.initialCapital == initialCapital
      ensures totalPnl == winRate == 0.0 && orderCounter == 0
      ensures initialCapital >= 0.0 ==> Sound(State(), initialCapital)
      ensures Traced(State()) && GoneOf(State()) == 0.0
    {
      this.initialCapital := initialCapital;
      cash, positions, orders, history := initialCapital, [], [], [];
      totalTrades, winning, losing, totalPnl, winRate, orderCounter := 0, 0, 0, 0.0, 0.0, 0;
    }

    method PlaceOrder(symbol: string, side: Side, orderType: OrderType, quantity: real, price: real) returns (order: Order)
      modifies this
      ensures orderCounter == old(orderCounter) + 1 && totalPnl == old(totalPnl) && winRate == old(winRate)
      ensures State() == Placed(old(State()), Order(orderCounter, symbol, side, orderType, quantity, price, Pending, None, None, 0.0))
      ensures order == orders[|orders|-1]
      ensures Keeps(old(State()), State(), initialCapital, NewOrder(orderCounter, symbol, side, orderType, quantity, price))
    {
      orderCounter := orderCounter + 1;
      order := NewOrder(orderCounter, symbol, side, orderType, quantity, price);
      PlacedKeeps(State(), initialCapital, order);
      if orderType == Market {
        order := FillOrder(order);
      }
      orders := orders + [order];
    }

    method FillOrder(o: Order) returns (order: Order)
      modifies this`cash, this`positions, this`history, this`totalTrades, this`winning, this`losing
      ensures order == AsFilled(o, if old(Fills(State(), o)) then Filled else Cancelled)
      ensures !old(Fills(State(), o)) ==> State() == old(State())
      ensures old(Fills(State(), o)) && o.side == Buy ==> State() == AfterBuy(old(State()), o)
      ensures old(Fills(State(), o)) && o.side == Sell ==> State() == AfterSale(old(State()), o, old(Find(positions, o.symbol)).value)
    {
      order := AsFilled(o, Filled);
      var totalCost := Times(o.price, o.quantity) + order.commission;
      if o.side == Buy {
        if cash < totalCost {
          order := order.(status := Cancelled);
          return;
        }
        cash := cash - totalCost;
        positions := Put(positions, o.symbol, Bought(Find(positions, o.symbol), o));
      } else {
        var found := Find(positions, o.symbol);
        if found.None? || found.value.quantity < o.quantity {
          order := order.(status := Cancelled);
          return;
        }
        FillSale(o, found.value);
      }
    }

    /** The part of a sale that can no longer fail. */
    method FillSale(o: Order, pos: Position)
      modifies this`cash, this`positions, this`history, this`totalTrades, this`winning, this`losing
      ensures State() == AfterSale(old(State()), o, pos)
    {
      var proceeds := Times(o.price, o.quantity) - Commission(o);
      cash := cash + proceeds;
      var pnl := proceeds - Times(pos.avgEntry, o.quantity);
      var left := pos.(realized := pos.realized + pnl, quantity := pos.quantity - o.quantity);
      positions := if left.quantity == 0.0 then Del(positions, o.symbol) else Put(positions, o.symbol, left);
      totalTrades := totalTrades + 1;
      if pnl > 0.0 {
        winning := winning + 1;
      } else {
        losing := losing + 1;
      }
      history := history + [Trade(o.symbol, o.quantity, pos.avgEntry, o.price, pnl)];
    }

    /** update_prices: marks positions, then totals what the open ones have made; results of positions
        already closed are no longer in the total. */
    method UpdatePrices(prices: seq<(string, real)>)
      modifies this`positions, this`totalPnl, this`winRate
      ensures positions == WithPrices(old(positions), prices)
      ensures totalPnl == Total(positions, OpenPnl)
      ensures old(Sound(State(), initialCapital) && Traced(State())) ==>
        Traced(State()) && totalPnl == Total(positions, Unrealized) + SumOf(history, PnlOf) - GoneOf(State())
      ensures winRate == if totalTrades > 0 then winning as real / totalTrades as real * 100.0 else old(winRate)
      ensures old(Sound(State(), initialCapital)) ==> Sound(State(), initialCapital)
    {
      for i := 0 to |prices|
        invariant WithPrices(positions, prices[i..]) == WithPrices(old(positions), prices)
        invariant State() == old(State()).(positions := positions)
        invariant totalPnl == old(totalPnl) && winRate == old(winRate)
      {
        assert prices[i..][1..] == prices[i+1..];
        var (symbol, price) := prices[i];
        if Has(positions, symbol) {
          positions := Put(positions, symbol, Repriced(Find(positions, symbol).value, price));
        }
      }
      assert prices[|prices|..] == [];
      if old(Sound(State(), initialCapital)) {
        KeepsSound(old(State()), State(), prices, initialCapital);
        KeepsTraced(old(State()), State(), prices);
      }
      totalPnl := 0.0;
      var marked := positions;
      ghost var state := State();
      for i := 0 to |marked|
        invariant totalPnl + Total(marked[i..], OpenPnl) == Total(marked, OpenPnl)
        invariant State() == state && winRate == old(winRate)
      {
        assert marked[i..][1..] == marked[i+1..];
        totalPnl := totalPnl + (marked[i].1.unrealized + marked[i].1.realized);
      }
      assert marked[|marked|..] == [];
      if totalTrades > 0 {
        winRate := winning as real / totalTrades as real * 100.0;
      }
    }
  }

  lemma KeepsSound(a: Account, b: Account, prices: seq<(string, real)>, capital: real)
    requires Sound(a, capital) && b == a.(positions := WithPrices(a.positions, prices))
    ensures Sound(b, capital)
  {
    PricesKeepHoldings(a.positions, prices);
    forall k | Has(b.positions, k)
      ensures QuantityOf(b, k) > 0.0
    {
      assert QuantityOf(a, k) > 0.0;
    }
  }

  lemma KeepsTraced(a: Account, b: Account, prices: seq<(string, real)>)
    requires Held(a) && b == a.(positions := WithPrices(a.positions, prices))
    ensures Traced(a) ==> Traced(b) && Total(b.positions, OpenPnl) == Total(b.positions, Unrealized) + SumOf(b.history, PnlOf) - GoneOf(b)
  {
    PricesKeepHoldings(a.positions, prices);
    if Traced(a) {
      forall k
        ensures Followed(b, k)
      {
        assert Followed(a, k);
      }
      TotalPnlDropsClosed(b);
    }
  }
}
