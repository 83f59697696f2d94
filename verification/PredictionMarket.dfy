/** Replay of a prediction-market strategy over historical snapshots. */
module PredictionMarkets {
  import opened Options
  import opened Seqs

  datatype Snapshot = Snapshot(ticker: string, ts: int, yesPrice: int, resolved: bool, yes: bool)

  datatype Order = Order(ticker: string, size: int, price: int)

  type Strategy = Snapshot -> seq<Order>

  datatype Position = Position(entryTs: int, entryCents: int, size: int, fees: int)

  datatype Trade = Trade(ticker: string, entryTs: int, exitTs: int, pnl: int)

  datatype Book = Book(open: map<string, Position>, closed: seq<Trade>)

  /** The matching order that wins: each one overwrites the position the one before it set. */
  function Winner(orders: seq<Order>, ticker: string): Option<Order> {
    if orders == [] then None
    else if orders[|orders|-1].ticker == ticker then Some(orders[|orders|-1])
    else Winner(orders[..|orders|-1], ticker)
  }

  function Entered(s: Snapshot, o: Order, fee: int): Position {
    Position(s.ts, o.price, o.size, fee * o.size)
  }

  function Settle(s: Snapshot): int { if s.yes then 100 else 0 }

  function Exited(s: Snapshot, pos: Position): Trade {
    Trade(s.ticker, pos.entryTs, s.ts, (Settle(s) - pos.entryCents) * pos.size - pos.fees)
  }

  /** The order placed on an open market by this snapshot, if any. */
  function Entry(strategy: Strategy, s: Snapshot): Option<Order> {
    if s.resolved then None else Winner(strategy(s), s.ticker)
  }

  function Next(strategy: Strategy, fee: int, b: Book, s: Snapshot): Book {
    if s.resolved then
      if s.ticker in b.open then Book(b.open - {s.ticker}, b.closed + [Exited(s, b.open[s.ticker])]) else b
    else if s.ticker in b.open || Entry(strategy, s).None? then b
    else b.(open := b.open[s.ticker := Entered(s, Entry(strategy, s).value, fee)])
  }

  function After(strategy: Strategy, fee: int, h: seq<Snapshot>): Book {
    if h == [] then Book(map[], []) else Next(strategy, fee, After(strategy, fee, h[..|h|-1]), h[|h|-1])
  }

  /** PredictionMarketBacktest.run. */
  method Run(strategy: Strategy, fee: int, snapshots: seq<Snapshot>) returns (closed: seq<Trade>)
    ensures closed == After(strategy, fee, snapshots).closed
  {
    var open: map<string, Position> := map[];
    closed := [];
    for n := 0 to |snapshots|
      invariant Book(open, closed) == After(strategy, fee, snapshots[..n])
    {
      assert snapshots[..n+1][..n] == snapshots[..n];
      var s := snapshots[n];
      if s.resolved {
        if s.ticker in open {
          closed := closed + [Exited(s, open[s.ticker])];
          open := open - {s.ticker};
        }
      } else if s.ticker !in open {
        open := Enter(strategy(s), s, fee, open);
      }
    }
    assert snapshots[..|snapshots|] == snapshots;
  }

  method Enter(orders: seq<Order>, s: Snapshot, fee: int, open: map<string, Position>) returns (open': map<string, Position>)
    ensures open' == if Winner(orders, s.ticker).Some? then open[s.ticker := Entered(s, Winner(orders, s.ticker).value, fee)] else open
  {
    open' := open;
    for n := 0 to |orders|
      invariant open' == if Winner(orders[..n], s.ticker).Some? then open[s.ticker := Entered(s, Winner(orders[..n], s.ticker).value, fee)] else open
    {
      assert orders[..n+1][..n] == orders[..n];
      if orders[n].ticker == s.ticker {
        open' := open'[s.ticker := Entered(s, orders[n], fee)];
      }
    }
    assert orders[..|orders|] == orders;
  }

  /** The entry on an open market is the last of the strategy's orders for its own ticker. */
  lemma {:induction false} WinnerIsLast(orders: seq<Order>, ticker: string)
    ensures Winner(orders, ticker).None? <==> forall i :: 0 <= i < |orders| ==> orders[i].ticker != ticker
    ensures Winner(orders, ticker).Some? ==>
      exists i :: 0 <= i < |orders| && orders[i] == Winner(orders, ticker).value && orders[i].ticker == ticker &&
        forall j :: i < j < |orders| ==> orders[j].ticker != ticker
  {
    if orders != [] {
      var n := |orders| - 1;
      WinnerIsLast(orders[..n], ticker);
      if orders[n].ticker == ticker {
        assert orders[n] == Winner(orders, ticker).value;
      } else if Winner(orders[..n], ticker).Some? {
        var i :| 0 <= i < n && orders[..n][i] == Winner(orders[..n], ticker).value && orders[..n][i].ticker == ticker &&
          forall j :: i < j < n ==> orders[..n][j].ticker != ticker;
        assert orders[i] == Winner(orders, ticker).value;
      }
    }
  }

  lemma EntryPlainly(strategy: Strategy, s: Snapshot)
    ensures Entry(strategy, s) == if s.resolved then None else Winner(strategy(s), s.ticker)
  {
  }

  /** A resolution closes the open position of its ticker at 100 or 0 cents a contract and records the trade; an order on
      an open market opens a position at its price, with the fee on its size; nothing else changes the book. */
  lemma NextPlainly(strategy: Strategy, fee: int, b: Book, s: Snapshot)
    ensures s.resolved && s.ticker in b.open ==>
      var pos := b.open[s.ticker];
      Next(strategy, fee, b, s).open == b.open - {s.ticker} &&
      Next(strategy, fee, b, s).closed == b.closed + [Trade(s.ticker, pos.entryTs, s.ts,
        (if s.yes then 100 - pos.entryCents else 0 - pos.entryCents) * pos.size - pos.fees)]
    ensures s.ticker !in b.open && Entry(strategy, s).Some? ==>
      var o := Entry(strategy, s).value;
      Next(strategy, fee, b, s) == Book(b.open[s.ticker := Position(s.ts, o.price, o.size, fee * o.size)], b.closed)
    ensures (s.resolved && s.ticker !in b.open) || (!s.resolved && (s.ticker in b.open || Entry(strategy, s).None?)) ==>
      Next(strategy, fee, b, s) == b
  {
  }

  lemma AfterPlainly(strategy: Strategy, fee: int, g: seq<Snapshot>, s: Snapshot)
    ensures After(strategy, fee, []) == Book(map[], [])
    ensures After(strategy, fee, g + [s]) == Next(strategy, fee, After(strategy, fee, g), s)
  {
    assert (g + [s])[..|g|] == g;
  }

  // ---------------------------------------------------------------- projection

  function Of(ticker: string): Snapshot -> bool {
    (s: Snapshot) => s.ticker == ticker
  }

  function By(ticker: string): Trade -> bool {
    (t: Trade) => t.ticker == ticker
  }

  function PositionOf(b: Book, ticker: string): Option<Position> {
    if ticker in b.open then Some(b.open[ticker]) else None
  }

  lemma OneMore<T>(s: seq<T>, x: T, p: T -> bool)
    ensures Filter(s + [x], p) == Filter(s, p) + if p(x) then [x] else []
  {
    FilterAppend(s, [x], p);
    assert [x][1..] == [];
    assert Filter([x], p) == if p(x) then [x] else [];
  }

  /** One snapshot moves the full run and the run on the ticker alone together. */
  lemma ProjectionStep(strategy: Strategy, fee: int, full: Book, own: Book, s: Snapshot, ticker: string)
    requires Filter(full.closed, By(ticker)) == own.closed && PositionOf(full, ticker) == PositionOf(own, ticker)
    ensures var own' := if s.ticker == ticker then Next(strategy, fee, own, s) else own;
      var full' := Next(strategy, fee, full, s);
      Filter(full'.closed, By(ticker)) == own'.closed && PositionOf(full', ticker) == PositionOf(own', ticker)
  {
    if s.resolved && s.ticker in full.open {
      OneMore(full.closed, Exited(s, full.open[s.ticker]), By(ticker));
    }
  }

  /** Tickers do not disturb each other: the closed trades of a ticker in the full run are the closed
      trades of the run on that ticker's snapshots alone. */
  lemma {:induction false} Projection(strategy: Strategy, fee: int, h: seq<Snapshot>, ticker: string)
    ensures Filter(After(strategy, fee, h).closed, By(ticker)) == After(strategy, fee, Filter(h, Of(ticker))).closed
    ensures PositionOf(After(strategy, fee, h), ticker) == PositionOf(After(strategy, fee, Filter(h, Of(ticker))), ticker)
  {
    if h != [] {
      var g, s := h[..|h|-1], h[|h|-1];
      var mine := Filter(g, Of(ticker));
      assert h == g + [s];
      Projection(strategy, fee, g, ticker);
      OneMore(g, s, Of(ticker));
      ProjectionStep(strategy, fee, After(strategy, fee, g), After(strategy, fee, mine), s, ticker);
      if s.ticker == ticker {
        assert (mine + [s])[..|mine|] == mine;
      } else {
        assert Filter(h, Of(ticker)) == mine;
      }
    }
  }

  // ---------------------------------------------------------------- what a trade is

  /** After the first n snapshots, the market of the ticker is entered by snapshot i: it is the first
      unresolved snapshot with an order since the ticker last resolved. */
  ghost predicate EnteredBy(strategy: Strategy, h: seq<Snapshot>, ticker: string, i: int) {
    0 <= i < |h| && h[i].ticker == ticker && Entry(strategy, h[i]).Some? &&
    (forall k :: i < k < |h| && h[k].ticker == ticker ==> !h[k].resolved) &&
    forall k :: 0 <= k < i && h[k].ticker == ticker && Entry(strategy, h[k]).Some? ==> ResolvedWithin(h, ticker, k, i)
  }

  ghost predicate ResolvedWithin(h: seq<Snapshot>, ticker: string, from: int, to: int) {
    exists m :: from < m < to && 0 <= m < |h| && h[m].ticker == ticker && h[m].resolved
  }

  ghost function Held(strategy: Strategy, fee: int, h: seq<Snapshot>, ticker: string): Option<Position> {
    if exists i :: EnteredBy(strategy, h, ticker, i) then
      var i :| EnteredBy(strategy, h, ticker, i);
      var o := Entry(strategy, h[i]).value;
      Some(Position(h[i].ts, o.price, o.size, fee * o.size))
    else None
  }

  lemma NotBefore(strategy: Strategy, h: seq<Snapshot>, ticker: string, i: int, j: int)
    requires EnteredBy(strategy, h, ticker, i) && EnteredBy(strategy, h, ticker, j)
    ensures i >= j
  {
    assert ResolvedWithin(h, ticker, i, j) ==> i >= j;
  }

  lemma OneEntry(strategy: Strategy, h: seq<Snapshot>, ticker: string, i: int, j: int)
    requires EnteredBy(strategy, h, ticker, i) && EnteredBy(strategy, h, ticker, j)
    ensures i == j
  {
    NotBefore(strategy, h, ticker, i, j);
    NotBefore(strategy, h, ticker, j, i);
  }

  lemma EnteredBySnoc(strategy: Strategy, g: seq<Snapshot>, s: Snapshot, ticker: string, i: nat)
    requires i < |g|
    ensures EnteredBy(strategy, g + [s], ticker, i) <==> EnteredBy(strategy, g, ticker, i) && !(s.ticker == ticker && s.resolved)
  {
    var h := g + [s];
    assert forall k :: 0 <= k < |g| ==> h[k] == g[k];
    assert h[|g|] == s;
    assert forall k :: 0 <= k < i ==> (ResolvedWithin(h, ticker, k, i) <==> ResolvedWithin(g, ticker, k, i));
    if EnteredBy(strategy, g, ticker, i) && !(s.ticker == ticker && s.resolved) {
      assert forall k :: i < k < |h| && h[k].ticker == ticker ==> !h[k].resolved;
    }
    if EnteredBy(strategy, h, ticker, i) {
      assert forall k :: i < k < |g| && g[k].ticker == ticker ==> h[k].ticker == ticker && !h[k].resolved;
    }
  }

  /** The newest snapshot enters exactly when it has an order and the market was not entered. */
  lemma EnteredNow(strategy: Strategy, g: seq<Snapshot>, s: Snapshot)
    ensures EnteredBy(strategy, g + [s], s.ticker, |g|) <==>
      Entry(strategy, s).Some? && !exists i :: EnteredBy(strategy, g, s.ticker, i)
  {
    var h := g + [s];
    assert h[|g|] == s;
    assert forall k :: 0 <= k < |g| ==> h[k] == g[k];
    if i :| EnteredBy(strategy, g, s.ticker, i) {
      assert !ResolvedWithin(h, s.ticker, i, |g|);
      assert h[i].ticker == s.ticker && Entry(strategy, h[i]).Some?;
    } else if Entry(strategy, s).Some? {
      forall k | 0 <= k < |g| && h[k].ticker == s.ticker && Entry(strategy, h[k]).Some?
        ensures ResolvedWithin(h, s.ticker, k, |g|)
      {
        if !ResolvedWithin(h, s.ticker, k, |g|) {
          FirstEntry(strategy, g, s.ticker, k);
        }
      }
    }
  }

  /** An order with no resolution behind it means that the market is entered. */
  lemma {:induction false} FirstEntry(strategy: Strategy, g: seq<Snapshot>, ticker: string, k: nat)
    requires k < |g| && g[k].ticker == ticker && Entry(strategy, g[k]).Some?
    requires forall m :: k < m < |g| && g[m].ticker == ticker ==> !g[m].resolved
    ensures exists i :: EnteredBy(strategy, g, ticker, i)
  {
    if j :| 0 <= j < k && g[j].ticker == ticker && Entry(strategy, g[j]).Some? && !ResolvedWithin(g, ticker, j, k) {
      assert !g[k].resolved;
      FirstEntry(strategy, g, ticker, j);
    } else {
      assert EnteredBy(strategy, g, ticker, k);
    }
  }

  /** The positions of the run are the entered markets of the history. */
  lemma {:induction false} OpenIsEntered(strategy: Strategy, fee: int, h: seq<Snapshot>, ticker: string)
    ensures PositionOf(After(strategy, fee, h), ticker) == Held(strategy, fee, h, ticker)
  {
    if h != [] {
      var g, s := h[..|h|-1], h[|h|-1];
      assert h == g + [s];
      OpenIsEntered(strategy, fee, g, ticker);
      HeldSnoc(strategy, fee, g, s, ticker);
    } else {
      assert !exists i :: EnteredBy(strategy, h, ticker, i);
    }
  }

  lemma HeldSnoc(strategy: Strategy, fee: int, g: seq<Snapshot>, s: Snapshot, ticker: string)
    ensures Held(strategy, fee, g + [s], ticker) ==
      if s.ticker != ticker then Held(strategy, fee, g, ticker)
      else if s.resolved then None
      else if Held(strategy, fee, g, ticker).Some? || Entry(strategy, s).None? then Held(strategy, fee, g, ticker)
      else Some(Entered(s, Entry(strategy, s).value, fee))
  {
    var h := g + [s];
    assert h[|g|] == s;
    if s.ticker == ticker { EnteredNow(strategy, g, s); }
    if i :| EnteredBy(strategy, h, ticker, i) {
      if i < |g| { EnteredBySnoc(strategy, g, s, ticker, i); }
      if j :| EnteredBy(strategy, g, ticker, j) {
        EnteredBySnoc(strategy, g, s, ticker, j);
        if i < |g| { OneEntry(strategy, g, ticker, i, j); }
      }
      HeldIs(strategy, fee, h, ticker, i);
      if i < |g| { HeldIs(strategy, fee, g, ticker, i); }
    } else if j :| EnteredBy(strategy, g, ticker, j) {
      EnteredBySnoc(strategy, g, s, ticker, j);
    }
  }

  lemma HeldIs(strategy: Strategy, fee: int, h: seq<Snapshot>, ticker: string, i: int)
    requires EnteredBy(strategy, h, ticker, i)
    ensures Held(strategy, fee, h, ticker) == Some(Entered(h[i], Entry(strategy, h[i]).value, fee))
  {
    forall j | EnteredBy(strategy, h, ticker, j)
      ensures i == j
    {
      OneEntry(strategy, h, ticker, i, j);
    }
  }

  /** The result of the round that s ends, coming after g: (settlement - entry price - fee) per contract. */
  ghost function RoundPnl(strategy: Strategy, fee: int, g: seq<Snapshot>, s: Snapshot): int {
    if s.resolved && exists i :: EnteredBy(strategy, g, s.ticker, i) then
      var i :| EnteredBy(strategy, g, s.ticker, i);
      ((if s.yes then 100 else 0) - Entry(strategy, g[i]).value.price - fee) * Entry(strategy, g[i]).value.size
    else 0
  }

  ghost function RoundsPnl(strategy: Strategy, fee: int, h: seq<Snapshot>): int {
    if h == [] then 0 else RoundsPnl(strategy, fee, h[..|h|-1]) + RoundPnl(strategy, fee, h[..|h|-1], h[|h|-1])
  }

  function TotalPnl(trades: seq<Trade>): int {
    if trades == [] then 0 else TotalPnl(trades[..|trades|-1]) + trades[|trades|-1].pnl
  }

  /** A closed trade is worth what its round is worth. */
  lemma TradePnl(strategy: Strategy, fee: int, g: seq<Snapshot>, s: Snapshot, pos: Position)
    requires s.resolved && Held(strategy, fee, g, s.ticker) == Some(pos)
    ensures Exited(s, pos).pnl == RoundPnl(strategy, fee, g, s)
  {
    var i :| EnteredBy(strategy, g, s.ticker, i);
    HeldIs(strategy, fee, g, s.ticker, i);
    forall j | EnteredBy(strategy, g, s.ticker, j)
      ensures i == j
    {
      OneEntry(strategy, g, s.ticker, i, j);
    }
    Fees(Settle(s), pos.entryCents, fee, pos.size);
  }

  lemma Fees(settle: int, entry: int, fee: int, size: int)
    ensures (settle - entry) * size - fee * size == (settle - entry - fee) * size
  {
  }

  lemma TotalSnoc(trades: seq<Trade>, t: Trade)
    ensures TotalPnl(trades + [t]) == TotalPnl(trades) + t.pnl
  {
    assert (trades + [t])[..|trades|] == trades;
  }

  /** Total P&L is the sum over all rounds of (settlement - entry price - fee) times size. */
  lemma {:induction false} PnlIsSumOfRounds(strategy: Strategy, fee: int, h: seq<Snapshot>)
    ensures TotalPnl(After(strategy, fee, h).closed) == RoundsPnl(strategy, fee, h)
  {
    if h != [] {
      var g, s := h[..|h|-1], h[|h|-1];
      PnlIsSumOfRounds(strategy, fee, g);
      OpenIsEntered(strategy, fee, g, s.ticker);
      var b := After(strategy, fee, g);
      if s.resolved && s.ticker in b.open {
        TotalSnoc(b.closed, Exited(s, b.open[s.ticker]));
        TradePnl(strategy, fee, g, s, b.open[s.ticker]);
      }
    }
  }

  // ---------------------------------------------------------------- no overlap

  ghost predicate InOrder(h: seq<Snapshot>) {
    forall i, j :: 0 <= i < j < |h| ==> h[i].ts <= h[j].ts
  }

  /** Trades of a ticker come one after the other, and its open position comes after all of them. */
  ghost predicate Disjoint(b: Book, ticker: string, now: int) {
    (forall i :: 0 <= i < |b.closed| && b.closed[i].ticker == ticker ==> b.closed[i].entryTs <= b.closed[i].exitTs <= now) &&
    (forall i, j :: 0 <= i < j < |b.closed| && b.closed[i].ticker == b.closed[j].ticker == ticker ==>
      b.closed[i].exitTs <= b.closed[j].entryTs) &&
    (ticker in b.open ==> b.open[ticker].entryTs <= now) &&
    (ticker in b.open ==>
      forall i :: 0 <= i < |b.closed| && b.closed[i].ticker == ticker ==> b.closed[i].exitTs <= b.open[ticker].entryTs)
  }

  lemma DisjointStep(strategy: Strategy, fee: int, b: Book, s: Snapshot, ticker: string, now: int)
    requires Disjoint(b, ticker, now) && now <= s.ts
    ensures Disjoint(Next(strategy, fee, b, s), ticker, s.ts)
  {
  }

  /** With ordered timestamps, trades on one ticker never overlap. */
  lemma {:induction false} NeverOverlap(strategy: Strategy, fee: int, h: seq<Snapshot>, ticker: string, now: int)
    requires InOrder(h) && (h != [] ==> h[|h|-1].ts <= now)
    ensures Disjoint(After(strategy, fee, h), ticker, now)
  {
    if h != [] {
      var g, s := h[..|h|-1], h[|h|-1];
      NeverOverlap(strategy, fee, g, ticker, s.ts);
      DisjointStep(strategy, fee, After(strategy, fee, g), s, ticker, s.ts);
    }
  }
}
