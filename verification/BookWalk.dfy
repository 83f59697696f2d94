/** Walking an order book to price a paper fill. */
module BookWalk {
  import opened Options
  import opened Reals

  datatype Level = Level(price: real, volume: real)

  /** The cost of walking quantity q through the levels; what they cannot supply is priced at `tail`. */
  function Cost(levels: seq<Level>, q: real, tail: real): real
    decreases |levels|
  {
    if levels == [] then Times(q, tail)
    else
      var take := Min(q, levels[0].volume);
      Times(take, levels[0].price) + if q - take <= 0.0 then 0.0 else Cost(levels[1..], q - take, tail)
  }

  /** The penalty price for the part beyond the book: the same for both sides. */
  function Tail(levels: seq<Level>, slippage: real): real
    requires levels != []
  {
    levels[|levels|-1].price * (1.0 + slippage)
  }

  /** _estimate_slippage on the levels of one side. None: no usable book, the caller falls back to
      random slippage. */
  method EstimateFill(levels: seq<Level>, quantity: real, maxSlippage: real) returns (fill: Option<real>)
    ensures fill.None? <==> levels == [] || quantity == 0.0
    ensures fill.Some? ==>
      fill.value == Cost(levels, Abs(quantity), levels[|levels|-1].price * (1.0 + maxSlippage)) / Abs(quantity)
  {
    if levels == [] {
      return None;
    }
    var remaining, totalCost := Abs(quantity), 0.0;
    ghost var tail := Tail(levels, maxSlippage);
    var i := 0;
    while i < |levels|
      invariant 0 <= i <= |levels|
      invariant remaining > 0.0 || i == 0
      invariant totalCost + Cost(levels[i..], remaining, tail) == Cost(levels, Abs(quantity), tail)
    {
      assert levels[i..][1..] == levels[i+1..];
      var take := Min(remaining, levels[i].volume);
      totalCost := totalCost + Times(take, levels[i].price);
      remaining := remaining - take;
      i := i + 1;
      if remaining <= 0.0 {
        break;
      }
    }
    if remaining > 0.0 {
      assert levels[|levels|..] == [];
      totalCost := totalCost + Times(remaining, levels[|levels|-1].price * (1.0 + maxSlippage));
    }
    assert totalCost == Cost(levels, Abs(quantity), tail);
    if quantity == 0.0 {
      return None;
    }
    fill := Some(totalCost / Abs(quantity));
  }

  // ---------------------------------------------------------------- a rising book

  function FirstPrice(levels: seq<Level>, tail: real): real {
    if levels == [] then tail else levels[0].price
  }

  /** Prices never fall along the book, nor at the penalty price behind it; volumes are not negative. */
  predicate Rising(levels: seq<Level>, tail: real) {
    levels == [] ||
    (levels[0].volume >= 0.0 && levels[0].price <= FirstPrice(levels[1..], tail) && Rising(levels[1..], tail))
  }

  /** Ascending non-negative asks with a non-negative slippage rise. */
  lemma {:induction false} AsksRise(levels: seq<Level>, slippage: real)
    requires levels != [] && slippage >= 0.0
    requires forall i :: 0 <= i < |levels| ==> levels[i].volume >= 0.0 && levels[i].price >= 0.0
    requires forall i, j :: 0 <= i < j < |levels| ==> levels[i].price <= levels[j].price
    ensures Rising(levels, Tail(levels, slippage))
  {
    if |levels| == 1 {
      assert levels[1..] == [];
      NonNegative(levels[0].price, slippage);
    } else {
      assert levels[1..][|levels|-2] == levels[|levels|-1];
      assert Tail(levels[1..], slippage) == Tail(levels, slippage);
      AsksRise(levels[1..], slippage);
      assert FirstPrice(levels[1..], Tail(levels, slippage)) == levels[1].price;
    }
  }

  lemma Apart(x: real, y: real, p: real)
    ensures Times(x, p) - Times(y, p) == Times(x - y, p)
  {
  }

  lemma Dearer(x: real, p: real, q: real)
    requires x >= 0.0 && p <= q
    ensures Times(x, p) <= Times(x, q)
  {
    NonNegative(x, q - p);
    assert Times(x, q - p) == Times(x, q) - Times(x, p);
  }

  /** Buying more costs at least the best price for every further unit. */
  lemma {:induction false} MoreCosts(levels: seq<Level>, x: real, y: real, tail: real)
    requires Rising(levels, tail) && 0.0 <= x <= y
    ensures Cost(levels, y, tail) - Cost(levels, x, tail) >= Times(y - x, FirstPrice(levels, tail))
    decreases |levels|
  {
    if levels == [] {
      Apart(y, x, tail);
    } else {
      var p, v, rest := levels[0].price, levels[0].volume, levels[1..];
      var next := FirstPrice(rest, tail);
      if y <= v {
        Apart(y, x, p);
      } else if x <= v {
        MoreCosts(rest, 0.0, y - v, tail);
        NothingCostsNothing(rest, tail);
        Dearer(y - v, p, next);
        Apart(v, x, p);
        Apart(y - x, v - x, p);
      } else {
        MoreCosts(rest, x - v, y - v, tail);
        Dearer(y - x, p, next);
      }
    }
  }

  lemma NothingCostsNothing(levels: seq<Level>, tail: real)
    requires Rising(levels, tail)
    ensures Cost(levels, 0.0, tail) == 0.0
  {
  }

  /** The whole walk is between the best price and the penalty price for every unit. */
  lemma {:induction false} CostAtMost(levels: seq<Level>, q: real, tail: real)
    requires Rising(levels, tail) && q >= 0.0
    ensures Cost(levels, q, tail) <= Times(q, tail) && FirstPrice(levels, tail) <= tail
    decreases |levels|
  {
    if levels != [] {
      var p, v, rest := levels[0].price, levels[0].volume, levels[1..];
      CostAtMost(rest, if q <= v then 0.0 else q - v, tail);
      if q <= v {
        Dearer(q, p, tail);
      } else {
        Dearer(v, p, tail);
        Apart(q, v, tail);
      }
    }
  }

  // ---------------------------------------------------------------- the walk is the cheapest fill

  /** An allocation of quantity to levels, none above its volume. */
  predicate Feasible(levels: seq<Level>, a: seq<real>) {
    |a| == |levels| && forall i :: 0 <= i < |a| ==> 0.0 <= a[i] <= levels[i].volume
  }

  function Quantity(a: seq<real>): real {
    if a == [] then 0.0 else a[0] + Quantity(a[1..])
  }

  function Price(levels: seq<Level>, a: seq<real>): real
    requires |a| == |levels|
  {
    if a == [] then 0.0 else Times(a[0], levels[0].price) + Price(levels[1..], a[1..])
  }

  lemma {:induction false} QuantityNotNegative(levels: seq<Level>, a: seq<real>)
    requires Feasible(levels, a)
    ensures Quantity(a) >= 0.0
  {
    if a != [] { QuantityNotNegative(levels[1..], a[1..]); }
  }

  /** No allocation of the same quantity is cheaper than the walk ... */
  lemma {:induction false} WalkIsCheapest(levels: seq<Level>, a: seq<real>, tail: real)
    requires Rising(levels, tail) && Feasible(levels, a)
    ensures Cost(levels, Quantity(a), tail) <= Price(levels, a)
    decreases |levels|
  {
    if a != [] {
      var p, v, rest := levels[0].price, levels[0].volume, levels[1..];
      var s := Quantity(a[1..]);
      var q := a[0] + s;
      WalkIsCheapest(rest, a[1..], tail);
      QuantityNotNegative(rest, a[1..]);
      var next := FirstPrice(rest, tail);
      if q <= v {
        MoreCosts(rest, 0.0, s, tail);
        NothingCostsNothing(rest, tail);
        Dearer(s, p, next);
        Apart(q, a[0], p);
      } else {
        MoreCosts(rest, q - v, s, tail);
        Dearer(v - a[0], p, next);
        Apart(v, a[0], p);
      }
    }
  }

  function Depth(levels: seq<Level>): real {
    if levels == [] then 0.0 else levels[0].volume + Depth(levels[1..])
  }

  /** What the walk takes from each level. */
  function Greedy(levels: seq<Level>, q: real): seq<real>
    decreases |levels|
  {
    if levels == [] then []
    else
      var take := Min(q, levels[0].volume);
      [take] + Greedy(levels[1..], q - take)
  }

  /** ... and with enough depth the walk is itself such an allocation. */
  lemma {:induction false} WalkIsFeasible(levels: seq<Level>, q: real, tail: real)
    requires Rising(levels, tail) && 0.0 <= q <= Depth(levels)
    ensures var a := Greedy(levels, q);
      Feasible(levels, a) && Quantity(a) == q && Price(levels, a) == Cost(levels, q, tail)
    decreases |levels|
  {
    if levels != [] {
      var take := Min(q, levels[0].volume);
      DepthNotNegative(levels[1..], tail);
      WalkIsFeasible(levels[1..], q - take, tail);
      NothingCostsNothing(levels[1..], tail);
    }
  }

  lemma {:induction false} DepthNotNegative(levels: seq<Level>, tail: real)
    requires Rising(levels, tail)
    ensures Depth(levels) >= 0.0
  {
    if levels != [] { DepthNotNegative(levels[1..], tail); }
  }

  // ---------------------------------------------------------------- selling into the bids

  /** The same book with prices mirrored at zero. */
  function Mirrored(levels: seq<Level>): (r: seq<Level>)
    ensures |r| == |levels| && forall i :: 0 <= i < |levels| ==> r[i] == Level(-levels[i].price, levels[i].volume)
  {
    seq(|levels|, i requires 0 <= i < |levels| => Level(-levels[i].price, levels[i].volume))
  }

  lemma Opposite(x: real, p: real)
    ensures Times(x, -p) == -Times(x, p)
  {
  }

  lemma {:induction false} MirroredCost(levels: seq<Level>, q: real, tail: real)
    ensures Cost(Mirrored(levels), q, -tail) == -Cost(levels, q, tail)
    decreases |levels|
  {
    if levels == [] {
      Opposite(q, tail);
    } else {
      var take := Min(q, levels[0].volume);
      assert Mirrored(levels)[1..] == Mirrored(levels[1..]);
      Opposite(take, levels[0].price);
      MirroredCost(levels[1..], q - take, tail);
    }
  }

  lemma {:induction false} MirroredPrice(levels: seq<Level>, a: seq<real>)
    requires |a| == |levels|
    ensures Price(Mirrored(levels), a) == -Price(levels, a)
  {
    if a != [] {
      assert Mirrored(levels)[1..] == Mirrored(levels[1..]);
      Opposite(a[0], levels[0].price);
      MirroredPrice(levels[1..], a[1..]);
    }
  }

  /** Within the depth of the book the penalty price plays no part. */
  lemma {:induction false} TailUnused(levels: seq<Level>, q: real, tail: real, tail': real)
    requires Stocked(levels) && 0.0 <= q <= Depth(levels)
    ensures Cost(levels, q, tail) == Cost(levels, q, tail')
    decreases |levels|
  {
    if levels == [] {
      assert Times(0.0, tail) == Times(0.0, tail') == 0.0;
    } else if q > levels[0].volume {
      TailUnused(levels[1..], q - levels[0].volume, tail, tail');
    }
  }

  lemma {:induction false} FitsTheBook(levels: seq<Level>, a: seq<real>)
    requires Feasible(levels, a)
    ensures 0.0 <= Quantity(a) <= Depth(levels)
  {
    if a != [] { FitsTheBook(levels[1..], a[1..]); }
  }

  /** Prices never rise along the bids. */
  predicate Descending(levels: seq<Level>) {
    forall i, j :: 0 <= i < j < |levels| ==> levels[i].price >= levels[j].price
  }

  lemma {:induction false} MirroredBidsRise(levels: seq<Level>, tail: real)
    requires Stocked(levels) && Descending(levels) && (levels != [] ==> tail <= levels[|levels|-1].price)
    ensures Rising(Mirrored(levels), -tail)
  {
    if levels != [] {
      assert Mirrored(levels)[1..] == Mirrored(levels[1..]);
      assert levels[1..] != [] ==> levels[1..][|levels[1..]|-1] == levels[|levels|-1];
      MirroredBidsRise(levels[1..], tail);
    }
  }

  /** Within the bids no allocation of the same quantity fetches more than the walk. */
  lemma WalkFetchesMost(levels: seq<Level>, a: seq<real>, tail: real)
    requires forall i :: 0 <= i < |levels| ==> levels[i].volume >= 0.0
    requires forall i, j :: 0 <= i < j < |levels| ==> levels[i].price >= levels[j].price
    requires Feasible(levels, a)
    ensures Cost(levels, Quantity(a), tail) >= Price(levels, a)
  {
    var last := if levels == [] then 0.0 else levels[|levels|-1].price;
    MirroredBidsRise(levels, last);
    WalkIsCheapest(Mirrored(levels), a, -last);
    MirroredCost(levels, Quantity(a), last);
    MirroredPrice(levels, a);
    FitsTheBook(levels, a);
    TailUnused(levels, Quantity(a), tail, last);
  }

  // ---------------------------------------------------------------- the average price

  /** Cross-multiplied: the average price of the larger quantity is no lower. */
  lemma {:induction false} AverageRises(levels: seq<Level>, x: real, y: real, tail: real)
    requires Rising(levels, tail) && 0.0 <= x <= y
    ensures Times(Cost(levels, x, tail), y) <= Times(Cost(levels, y, tail), x)
    decreases |levels|
  {
    if levels == [] {
      assert Times(Times(x, tail), y) == Times(Times(y, tail), x);
    } else {
      var p, v, rest := levels[0].price, levels[0].volume, levels[1..];
      if x <= v {
        MoreCosts(levels, 0.0, y, tail);
        NothingCostsNothing(levels, tail);
        AtBest(Cost(levels, y, tail), p, x, y);
      } else {
        AverageRises(rest, x - v, y - v, tail);
        MoreCosts(rest, x - v, y - v, tail);
        Dearer(y - x, p, FirstPrice(rest, tail));
        Shifted(Cost(rest, x - v, tail), Cost(rest, y - v, tail), p, v, x, y);
      }
    }
  }

  lemma AtBest(c: real, p: real, x: real, y: real)
    requires c >= Times(y, p) && x >= 0.0
    ensures Times(Times(x, p), y) <= Times(c, x)
  {
    Dearer(x, Times(y, p), c);
    assert Times(x, Times(y, p)) == Times(Times(x, p), y);
  }

  lemma Shifted(cx: real, cy: real, p: real, v: real, x: real, y: real)
    requires v >= 0.0 && Times(cx, y - v) <= Times(cy, x - v) && cy - cx >= Times(y - x, p)
    ensures Times(Times(v, p) + cx, y) <= Times(Times(v, p) + cy, x)
  {
    Dearer(v, Times(y - x, p), cy - cx);
    assert Times(Times(v, p) + cx, y) == Times(cx, y - v) + Times(v, cx) + Times(v, Times(y, p));
    assert Times(Times(v, p) + cy, x) == Times(cy, x - v) + Times(v, cy) + Times(v, Times(x, p));
    assert Times(v, Times(y - x, p)) == Times(v, Times(y, p)) - Times(v, Times(x, p));
    assert Times(v, cy - cx) == Times(v, cy) - Times(v, cx);
  }

  lemma Quotients(a: real, b: real, x: real, y: real)
    requires x > 0.0 && y > 0.0 && Times(a, y) <= Times(b, x)
    ensures a / x <= b / y
  {
    var s, t := a / x, b / y;
    assert a == s * x && b == t * y;
    assert Times(a, y) - Times(b, x) == (s - t) * (x * y);
    if s > t {
      Positive(s - t, x, y);
    }
  }

  lemma Positive(d: real, x: real, y: real)
    requires d > 0.0 && x > 0.0 && y > 0.0
    ensures d * (x * y) > 0.0
  {
    assert x * y > 0.0;
  }

  /** The fill price of a buy never falls as the quantity grows, and it lies between the best ask and
      the penalty price, whether or not the book is deep enough. */
  lemma FillPriceRises(levels: seq<Level>, x: real, y: real, slippage: real)
    requires levels != [] && Rising(levels, Tail(levels, slippage)) && 0.0 < x <= y
    ensures Cost(levels, x, Tail(levels, slippage)) / x <= Cost(levels, y, Tail(levels, slippage)) / y
    ensures levels[0].price <= Cost(levels, x, Tail(levels, slippage)) / x <= Tail(levels, slippage)
  {
    var tail := Tail(levels, slippage);
    AverageRises(levels, x, y, tail);
    Quotients(Cost(levels, x, tail), Cost(levels, y, tail), x, y);
    MoreCosts(levels, 0.0, x, tail);
    NothingCostsNothing(levels, tail);
    CostAtMost(levels, x, tail);
    Between(Cost(levels, x, tail), levels[0].price, tail, x);
  }

  lemma Between(c: real, low: real, high: real, x: real)
    requires x > 0.0 && Times(x, low) <= c <= Times(x, high)
    ensures low <= c / x <= high
  {
    Quotients(low, c, 1.0, x);
    Quotients(c, high, x, 1.0);
  }

  // ---------------------------------------------------------------- beyond the book

  predicate Stocked(levels: seq<Level>) {
    forall i :: 0 <= i < |levels| ==> levels[i].volume >= 0.0
  }

  /** Every unit beyond the book is priced at the penalty price, on either side of the market. */
  lemma {:induction false} BeyondTheBook(levels: seq<Level>, q: real, tail: real)
    requires Stocked(levels) && q >= Depth(levels) >= 0.0
    ensures Cost(levels, q, tail) == Cost(levels, Depth(levels), tail) + Times(q - Depth(levels), tail)
    decreases |levels|
  {
    if levels == [] {
      assert Times(0.0, tail) == 0.0;
    } else {
      var rest := levels[1..];
      StockedDepth(rest);
      BeyondTheBook(rest, q - levels[0].volume, tail);
      if Depth(rest) == 0.0 { EmptyDepth(rest, tail); assert Times(0.0, tail) == 0.0; }
    }
  }

  lemma {:induction false} StockedDepth(levels: seq<Level>)
    requires Stocked(levels)
    ensures Depth(levels) >= 0.0
  {
    if levels != [] { StockedDepth(levels[1..]); }
  }

  lemma EmptyDepth(levels: seq<Level>, tail: real)
    requires Stocked(levels)
    ensures Cost(levels, 0.0, tail) == 0.0
  {
  }

  /** A sale that exceeds the bids fetches a better average price than one that exactly exhausts them
      if and only if the penalty price is above the average of the book: the penalty of a buyer is
      a premium for a seller. */
  lemma OversellingPays(levels: seq<Level>, q: real, tail: real)
    requires (forall i :: 0 <= i < |levels| ==> levels[i].volume >= 0.0) && q > Depth(levels) > 0.0
    ensures Cost(levels, q, tail) / q > Cost(levels, Depth(levels), tail) / Depth(levels)
       <==> tail > Cost(levels, Depth(levels), tail) / Depth(levels)
  {
    var d := Depth(levels);
    var c := Cost(levels, d, tail);
    BeyondTheBook(levels, q, tail);
    Mixed(c, d, q, tail);
  }

  lemma Mixed(c: real, d: real, q: real, tail: real)
    requires q > d > 0.0
    ensures (c + Times(q - d, tail)) / q > c / d <==> tail > c / d
  {
    var avg, mix := c / d, (c + Times(q - d, tail)) / q;
    assert c == avg * d;
    assert mix * q == avg * d + (q - d) * tail;
    assert (mix - avg) * q == (tail - avg) * (q - d);
    SameSign(mix - avg, q, tail - avg, q - d);
  }

  lemma SameSign(a: real, x: real, b: real, y: real)
    requires x > 0.0 && y > 0.0 && a * x == b * y
    ensures a > 0.0 <==> b > 0.0
  {
    assert a > 0.0 ==> a * x > 0.0;
    assert b > 0.0 ==> b * y > 0.0;
    assert a <= 0.0 ==> a * x <= 0.0;
    assert b <= 0.0 ==> b * y <= 0.0;
  }
}
