/** The pre-order gates of OpportunityRouter: live execution and its shadow rehearsal. */
module Execution {
  import opened Options

  datatype HealthStatus = Normal | Watchlist | Throttled | ShadowOnly | Retired

  datatype Decision = Allowed | BlockedRisk | BlockedHealth | BlockedBrokerUnavailable | BlockedAccountUnavailable
                    | BlockedInvalidQuantity | BlockedPrecondition | BlockedQuoteMissing | BlockedBalanceMissing
                    | BlockedCalibration

  datatype Status = Rejected | Executed

  datatype Recommendation = Recommendation(multiplier: real, wouldReject: bool)

  datatype RiskResult = RiskResult(passed: bool, adjusted: Option<real>)

  datatype SizingEngine = NoEngine | Failing | Sizes(quantity: real)

  /** What every collaborator answers during one attempt. None stands for a collaborator that is
      absent or whose answer is missing; the risk engine answers for the quantity it is shown. */
  datatype Answers = Answers(
    health: Option<HealthStatus>,          // first reading, before any work
    brokerResolved: bool,
    riskEngine: Option<real -> RiskResult>,
    accounts: Option<seq<string>>,
    quote: bool,
    balance: bool,
    recommendation: Option<Recommendation>,
    sizing: SizingEngine,
    maxComposedKelly: real,
    healthAgain: Option<HealthStatus>,     // second reading, after sizing
    throttle: real,
    heldPosition: Option<real>             // quantity of the symbol at the broker
  )

  /** The immutable part of an opportunity. */
  datatype Terms = Terms(id: string, isExit: bool, exitFraction: real)

  datatype Order = Order(accountId: string, quantity: real)

  datatype Record = Record(id: string, decision: Decision, finalQuantity: Option<real>)

  const MONITORED_KELLY := 0.25

  // ---------------------------------------------------------------- quantity arithmetic

  /** int(x), and quantize with ROUND_DOWN: towards zero. */
  function Truncate(x: real): int {
    if x >= 0.0 then x.Floor else -((-x).Floor)
  }

  /** quantize with the default rounding: to nearest, ties to even. */
  function RoundHalfEven(x: real): int {
    var d := x - x.Floor as real;
    if d < 0.5 then x.Floor
    else if d > 0.5 then x.Floor + 1
    else if x.Floor % 2 == 0 then x.Floor else x.Floor + 1
  }

  function Scale(q: real, factor: real): real { q * factor }

  function EffectiveMultiplier(a: Answers, r: Recommendation): real {
    if a.sizing.NoEngine? || MONITORED_KELLY * r.multiplier <= a.maxComposedKelly then r.multiplier
    else a.maxComposedKelly / MONITORED_KELLY
  }

  function Scaled(q: real, multiplier: real): real {
    var scaled := Truncate(Scale(q, multiplier)) as real;
    if scaled <= 0.0 && multiplier > 0.0 && q > 0.0 then 1.0 else scaled
  }

  // ---------------------------------------------------------------- specification

  /** One gate: whether it stops the attempt, how, and the final quantity it reports. A silent gate
      rehearses in both modes: it never touches the stored status. */
  datatype Gate = Gate(stops: bool, decision: Decision, finalQuantity: Option<real>, silent: bool)

  datatype Verdict = Blocked(gate: Gate) | Pass(order: Order)

  function FirstStop(gates: seq<Gate>, order: Order): Verdict {
    if gates == [] then Pass(order)
    else if gates[0].stops then Blocked(gates[0])
    else FirstStop(gates[1..], order)
  }

  function SizedQuantity(a: Answers, t: Terms, q: real): real {
    if !t.isExit && a.sizing.Sizes? && a.sizing.quantity > 0.0 then a.sizing.quantity else q
  }

  function Calibrates(a: Answers, t: Terms): bool {
    a.recommendation.Some? && !t.isExit
  }

  function CalibratedQuantity(a: Answers, t: Terms, q: real): real {
    if Calibrates(a, t) then Scaled(q, EffectiveMultiplier(a, a.recommendation.value)) else q
  }

  function Throttles(a: Answers, t: Terms): bool {
    a.health.Some? && a.healthAgain == Some(Throttled) && !t.isExit
  }

  function ThrottledQuantity(a: Answers, t: Terms, q: real): real {
    if Throttles(a, t) then Truncate(Scale(q, a.throttle)) as real else q
  }

  function ExitsPartly(a: Answers, t: Terms): bool {
    t.exitFraction < 1.0 && a.heldPosition.Some? && a.heldPosition.value > 0.0
  }

  function ExitQuantity(a: Answers, t: Terms, q: real): real {
    if ExitsPartly(a, t) then RoundHalfEven(Scale(a.heldPosition.value, t.exitFraction)) as real else q
  }

  /** The quantity the risk engine is shown. */
  function RiskQuantity(a: Answers, t: Terms, q: real): real {
    ExitQuantity(a, t, ThrottledQuantity(a, t, CalibratedQuantity(a, t, SizedQuantity(a, t, q))))
  }

  function Risk(a: Answers, t: Terms, q: real): RiskResult {
    if a.riskEngine.Some? then (a.riskEngine.value)(RiskQuantity(a, t, q)) else RiskResult(false, None)
  }

  function AccountOf(a: Answers, accountId: string): string {
    if accountId == "" && a.accounts.Some? && a.accounts.value != [] then a.accounts.value[0] else accountId
  }

  /** The quantity the order would carry. */
  function OrderQuantity(a: Answers, t: Terms, q: real): real {
    var risk := Risk(a, t, q);
    if risk.adjusted.Some? then risk.adjusted.value else RiskQuantity(a, t, q)
  }

  /** Gates on the state of the system, in the order they are asked. */
  function SystemGates(a: Answers, trade: Option<Order>): seq<Gate> {
    [ Gate(a.health == Some(Retired), BlockedHealth, None, false),
      Gate(a.health == Some(ShadowOnly), BlockedHealth, None, true),
      Gate(!a.brokerResolved, BlockedBrokerUnavailable, None, false),
      Gate(a.riskEngine.None?, BlockedPrecondition, None, false),
      Gate(trade.None?, BlockedPrecondition, None, false) ]
  }

  /** Gates on the suggested trade and on the market data it needs. */
  function TradeGates(a: Answers, t: Terms, trade: Order): seq<Gate> {
    var q := trade.quantity;
    [ Gate(trade.accountId == "" && (a.accounts.None? || a.accounts.value == []), BlockedAccountUnavailable, None, false),
      Gate(q < 0.0 || (q == 0.0 && (a.sizing.NoEngine? || t.isExit)), BlockedInvalidQuantity, None, false),
      Gate(!a.quote, BlockedQuoteMissing, None, false),
      Gate(!a.balance, BlockedBalanceMissing, None, false),
      Gate(Calibrates(a, t) && a.recommendation.value.wouldReject, BlockedCalibration, None, false) ]
  }

  function EntryGates(a: Answers, t: Terms, trade: Option<Order>): seq<Gate> {
    SystemGates(a, trade) + if trade.Some? then TradeGates(a, t, trade.value) else []
  }

  /** Gates on the quantity while it is sized, calibrated and throttled. */
  function SizingGates(a: Answers, t: Terms, q: real): seq<Gate> {
    var sized := SizedQuantity(a, t, q);
    var calibrated := CalibratedQuantity(a, t, sized);
    [ Gate(sized <= 0.0, BlockedInvalidQuantity, Some(sized), false),
      Gate(Calibrates(a, t) && calibrated <= 0.0, BlockedCalibration, None, false),
      Gate(Throttles(a, t) && ThrottledQuantity(a, t, calibrated) <= 0.0, BlockedHealth, Some(0.0), false) ]
  }

  /** Gates of the risk engine on the quantity it is shown. */
  function RiskGates(a: Answers, t: Terms, q: real): seq<Gate> {
    var risk := Risk(a, t, q);
    [ Gate(!risk.passed, BlockedRisk, Some(RiskQuantity(a, t, q)), false),
      Gate(risk.adjusted.Some? && risk.adjusted.value <= 0.0, BlockedInvalidQuantity, risk.adjusted, false) ]
  }

  function Quantity(trade: Option<Order>): real {
    if trade.Some? then trade.value.quantity else 0.0
  }

  function Gates(a: Answers, t: Terms, trade: Option<Order>): seq<Gate> {
    EntryGates(a, t, trade) + SizingGates(a, t, Quantity(trade)) + RiskGates(a, t, Quantity(trade))
  }

  /** The order an attempt leads to if no gate stops it. */
  function Intended(a: Answers, t: Terms, trade: Option<Order>): Order {
    Order(AccountOf(a, if trade.Some? then trade.value.accountId else ""), OrderQuantity(a, t, Quantity(trade)))
  }

  /** The mode-free outcome of an attempt: the first gate that stops it, or the order it leads to. */
  function Judge(a: Answers, t: Terms, trade: Option<Order>): Verdict {
    FirstStop(Gates(a, t, trade), Intended(a, t, trade))
  }

  lemma {:induction false} FirstStopAppend(g: seq<Gate>, h: seq<Gate>, order: Order)
    ensures FirstStop(g + h, order) == if FirstStop(g, order).Blocked? then FirstStop(g, order) else FirstStop(h, order)
  {
    if g == [] {
      assert g + h == h;
    } else {
      assert (g + h)[1..] == g[1..] + h;
      FirstStopAppend(g[1..], h, order);
    }
  }

  lemma JudgeByPhases(a: Answers, t: Terms, trade: Option<Order>)
    ensures var order, q := Intended(a, t, trade), Quantity(trade);
      var entry, sizing := FirstStop(EntryGates(a, t, trade), order), FirstStop(SizingGates(a, t, q), order);
      Judge(a, t, trade) == if entry.Blocked? then entry else if sizing.Blocked? then sizing
                            else FirstStop(RiskGates(a, t, q), order)
  {
    var order, q := Intended(a, t, trade), Quantity(trade);
    FirstStopAppend(EntryGates(a, t, trade) + SizingGates(a, t, q), RiskGates(a, t, q), order);
    FirstStopAppend(EntryGates(a, t, trade), SizingGates(a, t, q), order);
  }

  lemma {:induction false} StopsAt(gates: seq<Gate>, k: nat, order: Order)
    requires k < |gates| && gates[k].stops && forall i :: 0 <= i < k ==> !gates[i].stops
    ensures FirstStop(gates, order) == Blocked(gates[k])
  {
    if k > 0 { StopsAt(gates[1..], k - 1, order); }
  }

  lemma {:induction false} NeverStops(gates: seq<Gate>, order: Order)
    requires forall i :: 0 <= i < |gates| ==> !gates[i].stops
    ensures FirstStop(gates, order) == Pass(order)
  {
    if gates != [] { NeverStops(gates[1..], order); }
  }

  /** What an attempt leaves in the world. */
  datatype Effects = Effects(orders: seq<Order>, statuses: seq<(string, Status)>, records: seq<Record>)

  const NOTHING := Effects([], [], [])

  /** A record is written only where a shadow executor is configured. */
  function Recorded(executor: bool, r: Record): Effects {
    if executor then Effects([], [], [r]) else NOTHING
  }

  function Outcome(verdict: Verdict, t: Terms, shadow: bool, executor: bool): Effects {
    match verdict
    case Blocked(g) =>
      if shadow || g.silent then Recorded(executor, Record(t.id, g.decision, g.finalQuantity))
      else Effects([], [(t.id, Rejected)], [])
    case Pass(order) =>
      if shadow then Recorded(executor, Record(t.id, Allowed, Some(order.quantity)))
      else Effects([order], [(t.id, Executed)], [])
  }

  // ---------------------------------------------------------------- the router

  class Trade {
    var accountId: string
    var quantity: real

    constructor (accountId: string, quantity: real)
      ensures this.accountId == accountId && this.quantity == quantity
    {
      this.accountId, this.quantity := accountId, quantity;
    }
  }

  function Suggested(trade: Trade?): Option<Order>
    reads trade
  {
    if trade == null then None else Some(Order(trade.accountId, trade.quantity))
  }

  class OpportunityRouter {
    const shadowExecutor: bool
    var orders: seq<Order>
    var statuses: seq<(string, Status)>
    var records: seq<Record>

    constructor (shadowExecutor: bool)
      ensures this.shadowExecutor == shadowExecutor && orders == [] && statuses == [] && records == []
    {
      this.shadowExecutor := shadowExecutor;
      orders, statuses, records := [], [], [];
    }

    /** The world has gained exactly the effects e. */
    twostate predicate Gained(e: Effects)
      reads this
    {
      orders == old(orders) + e.orders && statuses == old(statuses) + e.statuses && records == old(records) + e.records
    }

    /** _finalize_pre_order_decision: true means the attempt ends here. */
    method Finalize(t: Terms, shadowMode: bool, decision: Decision, finalQuantity: Option<real>) returns (done: bool)
      modifies this
      ensures done <==> shadowMode || decision != Allowed
      ensures Gained(if shadowMode then Recorded(shadowExecutor, Record(t.id, decision, finalQuantity))
                     else if decision != Allowed then Effects([], [(t.id, Rejected)], []) else NOTHING)
    {
      if shadowMode {
        if shadowExecutor {
          records := records + [Record(t.id, decision, finalQuantity)];
        }
        return true;
      }
      if decision != Allowed {
        statuses := statuses + [(t.id, Rejected)];
        return true;
      }
      return false;
    }

    /** _try_execute, up to and including the placing of the order. Its three phases follow. */
    method TryExecute(t: Terms, trade: Trade?, a: Answers, shadowMode: bool)
      modifies this, trade
      ensures Gained(Outcome(old(Judge(a, t, Suggested(trade))), t, shadowMode, shadowExecutor))
      // an order is placed in live mode if and only if every condition holds, and never in a rehearsal
      ensures var wanted := old(Suggested(trade));
        orders == old(orders) <==> shadowMode || wanted.None? || !MayTrade(a, t, wanted.value)
    {
      AttemptPlainly(a, t, Suggested(trade), shadowMode, shadowExecutor);
      AskAllGates(t, trade, a, shadowMode);
    }

    method AskAllGates(t: Terms, trade: Trade?, a: Answers, shadowMode: bool)
      modifies this, trade
      ensures Gained(Outcome(old(Judge(a, t, Suggested(trade))), t, shadowMode, shadowExecutor))
    {
      JudgeByPhases(a, t, Suggested(trade));
      var done := AskEntryGates(t, trade, a, shadowMode, old(Intended(a, t, Suggested(trade))));
      if done { return; }
      done := SizeTrade(t, trade, a, shadowMode, old(Intended(a, t, Suggested(trade))));
      if done { return; }
      AskRiskAndOrder(t, trade, a, shadowMode, old(trade.quantity));
    }

    method AskEntryGates(t: Terms, trade: Trade?, a: Answers, shadowMode: bool, ghost order: Order) returns (done: bool)
      modifies this, trade
      ensures var entry := FirstStop(EntryGates(a, t, old(Suggested(trade))), order);
        done == entry.Blocked? && Gained(if done then Outcome(entry, t, shadowMode, shadowExecutor) else NOTHING)
      ensures !done ==> trade != null && a.riskEngine.Some?
      ensures !done ==> trade.quantity == old(trade.quantity) && trade.accountId == old(AccountOf(a, trade.accountId))
    {
      ghost var system := SystemGates(a, Suggested(trade));
      if trade != null {
        FirstStopAppend(system, TradeGates(a, t, Order(trade.accountId, trade.quantity)), order);
      } else {
        FirstStopAppend(system, [], order);
      }
      done := AskSystemGates(t, trade, a, shadowMode, order);
      if done { return; }
      done := AskTradeGates(t, trade, a, shadowMode, order);
    }

    method AskSystemGates(t: Terms, trade: Trade?, a: Answers, shadowMode: bool, ghost order: Order) returns (done: bool)
      modifies this
      ensures var verdict := FirstStop(SystemGates(a, old(Suggested(trade))), order);
        done == verdict.Blocked? && Gained(if done then Outcome(verdict, t, shadowMode, shadowExecutor) else NOTHING)
      ensures !done ==> trade != null && a.riskEngine.Some?
    {
      ghost var gates := SystemGates(a, Suggested(trade));
      if a.health == Some(Retired) {
        StopsAt(gates, 0, order);
        done := Finalize(t, shadowMode, BlockedHealth, None);
        if done { return; }
      }
      if a.health == Some(ShadowOnly) {
        StopsAt(gates, 1, order);
        done := Finalize(t, true, BlockedHealth, None);
        if done { return; }
      }
      if !a.brokerResolved {
        StopsAt(gates, 2, order);
        done := Finalize(t, shadowMode, BlockedBrokerUnavailable, None);
        return true;
      }
      if a.riskEngine.None? {
        StopsAt(gates, 3, order);
        done := Finalize(t, shadowMode, BlockedPrecondition, None);
        return true;
      }
      if trade == null {
        StopsAt(gates, 4, order);
        done := Finalize(t, shadowMode, BlockedPrecondition, None);
        return true;
      }
      NeverStops(gates, order);
      done := false;
    }

    method AskTradeGates(t: Terms, trade: Trade, a: Answers, shadowMode: bool, ghost order: Order) returns (done: bool)
      modifies this, trade`accountId
      ensures var verdict := FirstStop(TradeGates(a, t, old(Order(trade.accountId, trade.quantity))), order);
        done == verdict.Blocked? && Gained(if done then Outcome(verdict, t, shadowMode, shadowExecutor) else NOTHING)
      ensures !done ==> trade.accountId == old(AccountOf(a, trade.accountId))
    {
      ghost var gates := TradeGates(a, t, Order(trade.accountId, trade.quantity));
      if trade.accountId == "" {
        if a.accounts.Some? && a.accounts.value != [] {
          trade.accountId := a.accounts.value[0];
        } else {
          StopsAt(gates, 0, order);
          done := Finalize(t, shadowMode, BlockedAccountUnavailable, None);
          if done { return; }
        }
      }
      var q := trade.quantity;
      if q < 0.0 || (q == 0.0 && (a.sizing.NoEngine? || t.isExit)) {
        StopsAt(gates, 1, order);
        done := Finalize(t, shadowMode, BlockedInvalidQuantity, None);
        if done { return; }
      }
      if !a.quote {
        StopsAt(gates, 2, order);
        done := Finalize(t, shadowMode, BlockedQuoteMissing, None);
        if done { return; }
      }
      if !a.balance {
        StopsAt(gates, 3, order);
        done := Finalize(t, shadowMode, BlockedBalanceMissing, None);
        if done { return; }
      }
      if Calibrates(a, t) && a.recommendation.value.wouldReject {
        StopsAt(gates, 4, order);
        done := Finalize(t, shadowMode, BlockedCalibration, None);
        if done { return; }
      }
      NeverStops(gates, order);
      done := false;
    }

    method SizeTrade(t: Terms, trade: Trade, a: Answers, shadowMode: bool, ghost order: Order) returns (done: bool)
      modifies this, trade`quantity
      ensures var sizing := FirstStop(SizingGates(a, t, old(trade.quantity)), order);
        done == sizing.Blocked? && Gained(if done then Outcome(sizing, t, shadowMode, shadowExecutor) else NOTHING)
      ensures !done ==> trade.quantity == RiskQuantity(a, t, old(trade.quantity))
    {
      ghost var gates := SizingGates(a, t, trade.quantity);
      ghost var sized := SizedQuantity(a, t, trade.quantity);
      ghost var calibrated := CalibratedQuantity(a, t, sized);
      if a.sizing.Sizes? && !t.isExit {
        if a.sizing.quantity > 0.0 {
          trade.quantity := a.sizing.quantity;
        }
      }
      assert trade.quantity == sized;
      if trade.quantity <= 0.0 {
        StopsAt(gates, 0, order);
        done := Finalize(t, shadowMode, BlockedInvalidQuantity, Some(trade.quantity));
        if done { return; }
      }
      if Calibrates(a, t) {
        var scaled := Scaled(trade.quantity, EffectiveMultiplier(a, a.recommendation.value));
        if scaled > 0.0 {
          trade.quantity := scaled;
        } else {
          StopsAt(gates, 1, order);
          done := Finalize(t, shadowMode, BlockedCalibration, None);
          if done { return; }
        }
      }
      assert trade.quantity == calibrated;
      if a.health.Some? && !t.isExit && a.healthAgain == Some(Throttled) {
        var throttled := Truncate(Scale(trade.quantity, a.throttle));
        if throttled > 0 {
          trade.quantity := throttled as real;
        } else {
          StopsAt(gates, 2, order);
          done := Finalize(t, shadowMode, BlockedHealth, Some(0.0));
          if done { return; }
        }
      }
      assert trade.quantity == ThrottledQuantity(a, t, calibrated);
      if t.exitFraction < 1.0 {
        if a.heldPosition.Some? && a.heldPosition.value > 0.0 {
          trade.quantity := RoundHalfEven(Scale(a.heldPosition.value, t.exitFraction)) as real;
        }
      }
      assert trade.quantity == ExitQuantity(a, t, ThrottledQuantity(a, t, calibrated));
      NeverStops(gates, order);
      done := false;
    }

    method AskRiskAndOrder(t: Terms, trade: Trade, a: Answers, shadowMode: bool, ghost q: real)
      requires a.riskEngine.Some? && trade.quantity == RiskQuantity(a, t, q)
      modifies this, trade`quantity
      ensures Gained(Outcome(FirstStop(RiskGates(a, t, q), Order(trade.accountId, OrderQuantity(a, t, q))), t, shadowMode, shadowExecutor))
    {
      ghost var gates := RiskGates(a, t, q);
      ghost var order := Order(trade.accountId, OrderQuantity(a, t, q));
      var done;
      var result := (a.riskEngine.value)(trade.quantity);
      if !result.passed {
        StopsAt(gates, 0, order);
        done := Finalize(t, shadowMode, BlockedRisk, Some(trade.quantity));
        if done { return; }
      }
      if result.adjusted.Some? {
        trade.quantity := result.adjusted.value;
        if result.adjusted.value <= 0.0 {
          StopsAt(gates, 1, order);
          done := Finalize(t, shadowMode, BlockedInvalidQuantity, Some(result.adjusted.value));
          if done { return; }
        }
      }
      NeverStops(gates, order);
      if shadowMode {
        done := Finalize(t, true, Allowed, Some(trade.quantity));
        if done { return; }
      }
      orders := orders + [Order(trade.accountId, trade.quantity)];
      statuses := statuses + [(t.id, Executed)];
    }
  }

  // ---------------------------------------------------------------- two runs

  /** Shadow mode is a faithful dry run. With a shadow executor configured and the same answers, the
      shadow attempt places no order and touches no status, and it records ALLOWED with quantity q
      exactly when the live attempt reaches place_order with quantity q. */
  method RehearseThenTrade(t: Terms, suggested: Option<Order>, a: Answers)
    returns (rehearsed: seq<Record>, placed: seq<Order>, tradedInRehearsal: seq<Order>, markedInRehearsal: seq<(string, Status)>)
    ensures tradedInRehearsal == [] && markedInRehearsal == []
    ensures |rehearsed| == 1 && rehearsed[0].id == t.id && |placed| <= 1
    ensures forall q :: rehearsed == [Record(t.id, Allowed, Some(q))] <==> |placed| == 1 && placed[0].quantity == q
    ensures placed == [] <==> rehearsed[0].decision != Allowed
  {
    var shadow := new OpportunityRouter(true);
    var live := new OpportunityRouter(true);
    var forShadow := Copy(suggested);
    var forLive := Copy(suggested);
    StopsAreNotAllowed(a, t, suggested);
    shadow.TryExecute(t, forShadow, a, true);
    live.TryExecute(t, forLive, a, false);
    rehearsed, tradedInRehearsal, markedInRehearsal := shadow.records, shadow.orders, shadow.statuses;
    placed := live.orders;
  }

  /** A suggested trade of its own for each attempt. */
  method Copy(suggested: Option<Order>) returns (trade: Trade?)
    ensures Suggested(trade) == suggested && (trade != null ==> fresh(trade))
  {
    trade := null;
    if suggested.Some? {
      trade := new Trade(suggested.value.accountId, suggested.value.quantity);
    }
  }

  /** No gate stops an attempt with the decision ALLOWED. */
  lemma StopsAreNotAllowed(a: Answers, t: Terms, trade: Option<Order>)
    ensures Judge(a, t, trade).Blocked? ==> Judge(a, t, trade).gate.decision != Allowed
  {
    var order, q := Intended(a, t, trade), Quantity(trade);
    JudgeByPhases(a, t, trade);
    FirstStopAppend(SystemGates(a, trade), if trade.Some? then TradeGates(a, t, trade.value) else [], order);
    var system := FirstStopAt(SystemGates(a, trade), order);
    var sizing := FirstStopAt(SizingGates(a, t, q), order);
    var risk := FirstStopAt(RiskGates(a, t, q), order);
    if trade.Some? {
      var ofTrade := FirstStopAt(TradeGates(a, t, trade.value), order);
    }
  }

  lemma {:induction false} FirstStopIsAGate(gates: seq<Gate>, order: Order)
    ensures var v := FirstStop(gates, order);
      (v.Blocked? ==> v.gate in gates && v.gate.stops) && (v.Pass? ==> v.order == order && forall g :: g in gates ==> !g.stops)
  {
    if gates != [] && !gates[0].stops {
      FirstStopIsAGate(gates[1..], order);
    }
  }

  lemma RoundsUpPastHalf(x: real)
    ensures RoundHalfEven(x) > 0 <==> x > 0.5
  {
    assert x.Floor as real <= x < x.Floor as real + 1.0;
    if x.Floor < 0 {
      assert x.Floor + 1 <= 0;
    }
  }

  /** When an allowed quantity is not positive: exactly when a partial exit replaced it with half a
      unit or less and the risk engine did not adjust it. */
  lemma AllowedQuantityPositive(a: Answers, t: Terms, trade: Option<Order>)
    requires Judge(a, t, trade).Pass? && trade.Some?
    ensures Judge(a, t, trade).order.quantity <= 0.0 <==>
      ExitsPartly(a, t) && Scale(a.heldPosition.value, t.exitFraction) <= 0.5 && Risk(a, t, trade.value.quantity).adjusted.None?
  {
    var order, q := Intended(a, t, trade), trade.value.quantity;
    JudgeByPhases(a, t, trade);
    SizedIsPositive(a, t, q, order);
    FirstStopIsAGate(RiskGates(a, t, q), order);
    var risk := RiskGates(a, t, q);
    assert Judge(a, t, trade) == FirstStop(risk, order) && risk[1] in risk;
    assert Judge(a, t, trade).order == order;
    var throttled := ThrottledQuantity(a, t, CalibratedQuantity(a, t, SizedQuantity(a, t, q)));
    assert throttled > 0.0 && RiskQuantity(a, t, q) == ExitQuantity(a, t, throttled);
    if ExitsPartly(a, t) {
      RoundsUpPastHalf(Scale(a.heldPosition.value, t.exitFraction));
    }
  }

  /** Past the sizing gates the throttled quantity is positive. */
  lemma SizedIsPositive(a: Answers, t: Terms, q: real, order: Order)
    requires FirstStop(SizingGates(a, t, q), order).Pass?
    ensures ThrottledQuantity(a, t, CalibratedQuantity(a, t, SizedQuantity(a, t, q))) > 0.0
  {
    var gates := SizingGates(a, t, q);
    FirstStopIsAGate(gates, order);
    assert !gates[0].stops && !gates[1].stops && !gates[2].stops;
  }

  /** So with an exit fraction of one, on entries and on exits, an allowed quantity is always positive. */
  lemma FullExitIsPositive(a: Answers, t: Terms, trade: Option<Order>)
    requires Judge(a, t, trade).Pass? && trade.Some? && t.exitFraction >= 1.0
    ensures Judge(a, t, trade).order.quantity > 0.0
  {
    AllowedQuantityPositive(a, t, trade);
  }

  /** A partial exit of 0.4 of one held unit goes out as an order for nothing. */
  lemma PartialExitOfNothing(a: Answers, t: Terms)
    requires a.health.None? && a.brokerResolved && a.riskEngine.Some? && a.quote && a.balance && a.sizing.NoEngine?
    requires (a.riskEngine.value)(0.0) == RiskResult(true, None)
    requires t.isExit && t.exitFraction == 0.4 && a.heldPosition == Some(1.0)
    ensures Judge(a, t, Some(Order("acct", 1.0))) == Pass(Order("acct", 0.0))
  {
    var trade, order := Some(Order("acct", 1.0)), Order("acct", 0.0);
    var x := Scale(1.0, 0.4);
    assert x.Floor == 0;
    assert RoundHalfEven(x) == 0;
    assert RiskQuantity(a, t, 1.0) == 0.0;
    JudgeByPhases(a, t, trade);
    NeverStops(EntryGates(a, t, trade), order);
    NeverStops(SizingGates(a, t, 1.0), order);
    NeverStops(RiskGates(a, t, 1.0), order);
  }

  // ---------------------------------------------------------------- sizes

  /** With a sizing engine the multiplier times the base fraction never exceeds the configured maximum, and
      the cap only ever lowers the multiplier. */
  lemma KellyIsCapped(a: Answers, r: Recommendation)
    requires !a.sizing.NoEngine?
    ensures MONITORED_KELLY * EffectiveMultiplier(a, r) <= a.maxComposedKelly
    ensures EffectiveMultiplier(a, r) <= r.multiplier
  {
  }

  lemma TruncateBelow(x: real)
    ensures x >= 0.0 ==> 0.0 <= Truncate(x) as real <= x
    ensures x < 0.0 ==> Truncate(x) <= 0
  {
  }

  lemma ScaledDown(q: real, factor: real)
    requires q >= 0.0 && factor <= 1.0
    ensures Scale(q, factor) <= q
  {
    assert q * (1.0 - factor) >= 0.0;
  }

  function AtLeastOne(x: real): real { if x < 1.0 then 1.0 else x }

  lemma ScaledAtMost(q: real, multiplier: real)
    requires q > 0.0 && multiplier <= 1.0
    ensures Scaled(q, multiplier) <= AtLeastOne(q)
  {
    ScaledDown(q, multiplier);
    TruncateBelow(Scale(q, multiplier));
  }

  /** Calibration and throttling never raise the size of an entry, except that calibration keeps one unit. */
  lemma EntryNeverGrows(a: Answers, t: Terms, trade: Option<Order>)
    requires Judge(a, t, trade).Pass? && trade.Some? && !t.isExit && t.exitFraction >= 1.0
    requires (a.recommendation.Some? ==> EffectiveMultiplier(a, a.recommendation.value) <= 1.0) && a.throttle <= 1.0
    requires Risk(a, t, trade.value.quantity).adjusted.None?
    ensures Judge(a, t, trade).order.quantity <= 1.0 ||
      Judge(a, t, trade).order.quantity <= SizedQuantity(a, t, trade.value.quantity)
  {
    var order, q := Intended(a, t, trade), trade.value.quantity;
    JudgeByPhases(a, t, trade);
    FirstStopIsAGate(SizingGates(a, t, q), order);
    FirstStopIsAGate(RiskGates(a, t, q), order);
    var gates, sized := SizingGates(a, t, q), SizedQuantity(a, t, q);
    assert !gates[0].stops && !gates[1].stops;
    var calibrated := CalibratedQuantity(a, t, sized);
    if Calibrates(a, t) {
      ScaledAtMost(sized, EffectiveMultiplier(a, a.recommendation.value));
    }
    ScaledDown(calibrated, a.throttle);
    TruncateBelow(Scale(calibrated, a.throttle));
  }

  /** Nothing but the risk engine resizes a full exit. */
  lemma FullExitKeepsQuantity(a: Answers, t: Terms, trade: Option<Order>)
    requires Judge(a, t, trade).Pass? && trade.Some? && t.isExit && t.exitFraction >= 1.0
    ensures Judge(a, t, trade).order.quantity ==
      var risk := Risk(a, t, trade.value.quantity); if risk.adjusted.Some? then risk.adjusted.value else trade.value.quantity
  {
    FirstStopIsAGate(Gates(a, t, trade), Intended(a, t, trade));
  }

  // ---------------------------------------------------------------- in plain terms

  /** An engine that sizes an entry positively replaces the quantity, and nothing else does. */
  lemma SizedPlainly(a: Answers, t: Terms, q: real)
    ensures !t.isExit && a.sizing.Sizes? && a.sizing.quantity > 0.0 ==> SizedQuantity(a, t, q) == a.sizing.quantity
    ensures t.isExit || !a.sizing.Sizes? || a.sizing.quantity <= 0.0 ==> SizedQuantity(a, t, q) == q
  {
  }

  /** A recommendation scales an entry to a whole number of units, and to one unit at least. */
  lemma CalibratedPlainly(a: Answers, t: Terms, q: real)
    ensures t.isExit || a.recommendation.None? ==> CalibratedQuantity(a, t, q) == q
    ensures !t.isExit && a.recommendation.Some? && q > 0.0 ==>
      var m, c := EffectiveMultiplier(a, a.recommendation.value), CalibratedQuantity(a, t, q);
      if m <= 0.0 then c <= 0.0
      else c == c.Floor as real && if q * m < 1.0 then c == 1.0 else c <= q * m < c + 1.0
  {
    if !t.isExit && a.recommendation.Some? && q > 0.0 {
      ScaledPlainly(q, EffectiveMultiplier(a, a.recommendation.value));
    }
  }

  /** A throttled strategy enters with the whole part of its share. */
  lemma ThrottledPlainly(a: Answers, t: Terms, q: real)
    ensures t.isExit || a.health.None? || a.healthAgain != Some(Throttled) ==> ThrottledQuantity(a, t, q) == q
    ensures !t.isExit && a.health.Some? && a.healthAgain == Some(Throttled) && q > 0.0 && a.throttle >= 0.0 ==>
      var c := ThrottledQuantity(a, t, q); c == c.Floor as real && c <= q * a.throttle < c + 1.0
  {
    if !t.isExit && a.health.Some? && a.healthAgain == Some(Throttled) && q > 0.0 && a.throttle >= 0.0 {
      TruncatePlainly(q, a.throttle);
    }
  }

  /** A partial exit takes its fraction of the position, rounded to the nearest unit, and to the even one from halfway. */
  lemma ExitPlainly(a: Answers, t: Terms, q: real)
    ensures t.exitFraction >= 1.0 || a.heldPosition.None? || a.heldPosition.value <= 0.0 ==> ExitQuantity(a, t, q) == q
    ensures t.exitFraction < 1.0 && a.heldPosition.Some? && a.heldPosition.value > 0.0 ==>
      var x, c := a.heldPosition.value * t.exitFraction, ExitQuantity(a, t, q);
      c == c.Floor as real && -0.5 <= x - c <= 0.5 && (x - c == 0.5 || x - c == -0.5 ==> c.Floor % 2 == 0)
  {
    if t.exitFraction < 1.0 && a.heldPosition.Some? && a.heldPosition.value > 0.0 {
      RoundPlainly(Scale(a.heldPosition.value, t.exitFraction));
    }
  }

  lemma TruncatePlainly(q: real, m: real)
    requires q > 0.0 && m >= 0.0
    ensures Scale(q, m) >= 0.0
    ensures var c := Truncate(Scale(q, m)) as real; c == c.Floor as real && 0.0 <= c <= q * m < c + 1.0
  {
    assert q * m >= 0.0;
  }

  lemma ScaledPlainly(q: real, m: real)
    requires q > 0.0
    ensures var c := Scaled(q, m);
      if m <= 0.0 then c <= 0.0
      else c == c.Floor as real && if q * m < 1.0 then c == 1.0 else c <= q * m < c + 1.0
  {
    if m > 0.0 {
      TruncatePlainly(q, m);
    } else {
      assert q * m <= 0.0;
      TruncateBelow(Scale(q, m));
    }
  }

  lemma RoundPlainly(x: real)
    ensures var c := RoundHalfEven(x) as real;
      c == c.Floor as real && -0.5 <= x - c <= 0.5 && (x - c == 0.5 || x - c == -0.5 ==> c.Floor % 2 == 0)
  {
    var n, c := RoundHalfEven(x), RoundHalfEven(x) as real;
    assert c.Floor == n;
    assert x.Floor as real <= x < x.Floor as real + 1.0;
    if n == x.Floor + 1 { assert n % 2 == (x.Floor % 2 + 1) % 2; }
  }

  /** The multiplier is the recommended one; where an engine sizes, times the base fraction it is held to the maximum. */
  lemma MultiplierPlainly(a: Answers, r: Recommendation)
    ensures a.sizing.NoEngine? ==> EffectiveMultiplier(a, r) == r.multiplier
    ensures !a.sizing.NoEngine? ==>
      0.25 * EffectiveMultiplier(a, r) == if 0.25 * r.multiplier < a.maxComposedKelly then 0.25 * r.multiplier else a.maxComposedKelly
  {
  }

  /** What the risk engine says of the quantity it is shown. */
  function RiskSays(a: Answers, t: Terms, q: real): RiskResult
    requires a.riskEngine.Some?
  {
    (a.riskEngine.value)(ExitQuantity(a, t, ThrottledQuantity(a, t, CalibratedQuantity(a, t, SizedQuantity(a, t, q)))))
  }

  /** An attempt in plain terms: the decision that is recorded and the final quantity recorded with it. */
  function Expected(a: Answers, t: Terms, trade: Option<Order>): (Decision, Option<real>) {
    if a.health == Some(Retired) || a.health == Some(ShadowOnly) then (BlockedHealth, None)
    else if !a.brokerResolved then (BlockedBrokerUnavailable, None)
    else if a.riskEngine.None? || trade.None? then (BlockedPrecondition, None)
    else ExpectedOfTrade(a, t, trade.value)
  }

  function ExpectedOfTrade(a: Answers, t: Terms, trade: Order): (Decision, Option<real>)
    requires a.riskEngine.Some?
  {
    var q := trade.quantity;
    if trade.accountId == "" && (a.accounts.None? || a.accounts.value == []) then (BlockedAccountUnavailable, None)
    else if q < 0.0 || (q == 0.0 && (a.sizing.NoEngine? || t.isExit)) then (BlockedInvalidQuantity, None)
    else if !a.quote then (BlockedQuoteMissing, None)
    else if !a.balance then (BlockedBalanceMissing, None)
    else if !t.isExit && a.recommendation.Some? && a.recommendation.value.wouldReject then (BlockedCalibration, None)
    else ExpectedOfSize(a, t, q)
  }

  function ExpectedOfSize(a: Answers, t: Terms, q: real): (Decision, Option<real>)
    requires a.riskEngine.Some?
  {
    var sized := SizedQuantity(a, t, q);
    var calibrated := CalibratedQuantity(a, t, sized);
    var throttled := ThrottledQuantity(a, t, calibrated);
    var shown := ExitQuantity(a, t, throttled);
    var risk := (a.riskEngine.value)(shown);
    if sized <= 0.0 then (BlockedInvalidQuantity, Some(sized))
    else if calibrated <= 0.0 then (BlockedCalibration, None)
    else if throttled <= 0.0 then (BlockedHealth, Some(0.0))
    else if !risk.passed then (BlockedRisk, Some(shown))
    else if risk.adjusted.Some? && risk.adjusted.value <= 0.0 then (BlockedInvalidQuantity, risk.adjusted)
    else (Allowed, Some(if risk.adjusted.Some? then risk.adjusted.value else shown))
  }

  function VerdictOf(v: Verdict): (Decision, Option<real>) {
    if v.Pass? then (Allowed, Some(v.order.quantity)) else (v.gate.decision, v.gate.finalQuantity)
  }

  lemma SystemPlainly(a: Answers, trade: Option<Order>, order: Order)
    ensures var v := FirstStop(SystemGates(a, trade), order);
      if a.health == Some(Retired) then v == Blocked(Gate(true, BlockedHealth, None, false))
      else if a.health == Some(ShadowOnly) then v == Blocked(Gate(true, BlockedHealth, None, true))
      else if !a.brokerResolved then v == Blocked(Gate(true, BlockedBrokerUnavailable, None, false))
      else if a.riskEngine.None? || trade.None? then v == Blocked(Gate(true, BlockedPrecondition, None, false))
      else v == Pass(order)
  {
    var gates := SystemGates(a, trade);
    var k := FirstStopAt(gates, order);
    assert gates[0].stops <==> a.health == Some(Retired);
    assert gates[1].stops <==> a.health == Some(ShadowOnly);
    assert gates[2].stops <==> !a.brokerResolved;
    assert gates[3].stops <==> a.riskEngine.None?;
    assert gates[4].stops <==> trade.None?;
  }

  lemma TradePlainly(a: Answers, t: Terms, trade: Order, order: Order)
    ensures var v, q := FirstStop(TradeGates(a, t, trade), order), trade.quantity;
      (v.Blocked? ==> !v.gate.silent && v.gate.finalQuantity == None) &&
      if trade.accountId == "" && (a.accounts.None? || a.accounts.value == []) then v.Blocked? && v.gate.decision == BlockedAccountUnavailable
      else if q < 0.0 || (q == 0.0 && (a.sizing.NoEngine? || t.isExit)) then v.Blocked? && v.gate.decision == BlockedInvalidQuantity
      else if !a.quote then v.Blocked? && v.gate.decision == BlockedQuoteMissing
      else if !a.balance then v.Blocked? && v.gate.decision == BlockedBalanceMissing
      else if !t.isExit && a.recommendation.Some? && a.recommendation.value.wouldReject then v.Blocked? && v.gate.decision == BlockedCalibration
      else v == Pass(order)
  {
    var gates := TradeGates(a, t, trade);
    var k := FirstStopAt(gates, order);
    assert gates[0].stops <==> trade.accountId == "" && (a.accounts.None? || a.accounts.value == []);
    assert gates[1].stops <==> trade.quantity < 0.0 || (trade.quantity == 0.0 && (a.sizing.NoEngine? || t.isExit));
    assert gates[2].stops <==> !a.quote;
    assert gates[3].stops <==> !a.balance;
    assert gates[4].stops <==> Calibrates(a, t) && a.recommendation.value.wouldReject;
  }

  /** The sizing and risk gates one after the other. */
  lemma SizePlainly(a: Answers, t: Terms, q: real, order: Order)
    requires a.riskEngine.Some? && order.quantity == OrderQuantity(a, t, q)
    ensures var sizing := FirstStop(SizingGates(a, t, q), order);
      var v := if sizing.Blocked? then sizing else FirstStop(RiskGates(a, t, q), order);
      (v.Blocked? ==> !v.gate.silent) && VerdictOf(v) == ExpectedOfSize(a, t, q) && (v.Pass? ==> v.order == order)
  {
    var sizing, risk := SizingGates(a, t, q), RiskGates(a, t, q);
    var j := FirstStopAt(sizing, order);
    var k := FirstStopAt(risk, order);
    CalibrationOff(a, t, SizedQuantity(a, t, q));
    var calibrated := CalibratedQuantity(a, t, SizedQuantity(a, t, q));
    assert sizing[0].stops <==> SizedQuantity(a, t, q) <= 0.0;
    assert sizing[1].stops <==> Calibrates(a, t) && calibrated <= 0.0;
    assert sizing[2].stops <==> Throttles(a, t) && ThrottledQuantity(a, t, calibrated) <= 0.0;
    assert risk[0].stops <==> !Risk(a, t, q).passed;
    assert risk[1].stops <==> Risk(a, t, q).adjusted.Some? && Risk(a, t, q).adjusted.value <= 0.0;
  }

  /** Where nothing is calibrated or throttled, a positive quantity stays positive. */
  lemma CalibrationOff(a: Answers, t: Terms, q: real)
    ensures !Calibrates(a, t) ==> CalibratedQuantity(a, t, q) == q
    ensures !Throttles(a, t) ==> forall c :: ThrottledQuantity(a, t, c) == c
  {
  }

  lemma {:induction false} FirstStopAt(gates: seq<Gate>, order: Order) returns (k: nat)
    ensures k <= |gates| && forall i :: 0 <= i < k ==> !gates[i].stops
    ensures if k < |gates| then gates[k].stops && FirstStop(gates, order) == Blocked(gates[k]) else FirstStop(gates, order) == Pass(order)
  {
    if gates == [] {
      k := 0;
    } else if gates[0].stops {
      k := 0;
    } else {
      k := FirstStopAt(gates[1..], order);
      k := k + 1;
    }
  }

  /** Every gate counts, in its order: the verdict of an attempt is the expected decision, with the expected quantity. */
  lemma JudgePlainly(a: Answers, t: Terms, trade: Option<Order>)
    ensures VerdictOf(Judge(a, t, trade)) == Expected(a, t, trade)
    ensures Judge(a, t, trade).Blocked? ==>
      (Judge(a, t, trade).gate.silent <==> a.health == Some(ShadowOnly))
    ensures Judge(a, t, trade).Pass? ==>
      trade.Some? && Judge(a, t, trade).order.accountId ==
        if trade.value.accountId == "" && a.accounts.Some? && a.accounts.value != [] then a.accounts.value[0] else trade.value.accountId
  {
    var order := Intended(a, t, trade);
    JudgeByPhases(a, t, trade);
    SystemPlainly(a, trade, order);
    StopsAreNotAllowed(a, t, trade);
    if trade.Some? {
      FirstStopAppend(SystemGates(a, trade), TradeGates(a, t, trade.value), order);
      TradePlainly(a, t, trade.value, order);
      if a.riskEngine.Some? { SizePlainly(a, t, trade.value.quantity, order); }
    } else {
      FirstStopAppend(SystemGates(a, trade), [], order);
    }
  }

  /** Every condition an order needs. */
  predicate MayTrade(a: Answers, t: Terms, trade: Order) {
    a.health != Some(Retired) && a.health != Some(ShadowOnly) && a.brokerResolved && a.riskEngine.Some? &&
    (trade.accountId != "" || (a.accounts.Some? && a.accounts.value != [])) &&
    (trade.quantity > 0.0 || (trade.quantity == 0.0 && !t.isExit && !a.sizing.NoEngine?)) && a.quote && a.balance &&
    (t.isExit || a.recommendation.None? || !a.recommendation.value.wouldReject) &&
    var sized := SizedQuantity(a, t, trade.quantity);
    var calibrated := CalibratedQuantity(a, t, sized);
    sized > 0.0 && calibrated > 0.0 && ThrottledQuantity(a, t, calibrated) > 0.0 &&
    var risk := RiskSays(a, t, trade.quantity);
    risk.passed && (risk.adjusted.None? || risk.adjusted.value > 0.0)
  }

  /** An attempt leaves an order exactly if it is live and every condition holds; a live attempt that fails one rejects,
      except that of a shadow-only strategy; and a rehearsal records the decision and its quantity, and nothing else. */
  lemma AttemptPlainly(a: Answers, t: Terms, trade: Option<Order>, shadow: bool, executor: bool)
    ensures var e := Outcome(Judge(a, t, trade), t, shadow, executor);
      (e.orders != [] <==> !shadow && trade.Some? && MayTrade(a, t, trade.value)) &&
      (Expected(a, t, trade).0 == Allowed <==> trade.Some? && MayTrade(a, t, trade.value)) &&
      (shadow ==>
        e.statuses == [] && e.records == if executor then [Record(t.id, Expected(a, t, trade).0, Expected(a, t, trade).1)] else [])
    ensures var e := Outcome(Judge(a, t, trade), t, false, executor);
      if trade.Some? && MayTrade(a, t, trade.value) then
        e.records == [] && e.statuses == [(t.id, Executed)] && |e.orders| == 1 && Some(e.orders[0].quantity) == Expected(a, t, trade).1 &&
        e.orders[0].accountId == if trade.value.accountId == "" then a.accounts.value[0] else trade.value.accountId
      else if a.health == Some(ShadowOnly) then
        e.statuses == [] && e.records == if executor then [Record(t.id, BlockedHealth, None)] else []
      else e.records == [] && e.statuses == [(t.id, Rejected)]
  {
    JudgePlainly(a, t, trade);
    StopsAreNotAllowed(a, t, trade);
    AllowedIffMayTrade(a, t, trade);
  }

  lemma AllowedIffMayTrade(a: Answers, t: Terms, trade: Option<Order>)
    ensures Expected(a, t, trade).0 == Allowed <==> trade.Some? && MayTrade(a, t, trade.value)
  {
  }
}
