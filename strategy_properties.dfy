/**
 * What the strategy guarantees: an invariant of the strategy state that every
 * candle preserves, and the facts about the final state, the summary and the
 * chart data that follow from it.
 */
module StrategyProperties {
  import opened Wrappers
  import opened InvestmentModels
  import opened Strategy
  import Text

  // ---------------------------------------------------------------------------
  // Aggregates over the trade log (built by appending) and the task queue

  function CountType(trades: seq<TradeRecord>, orderType: string): nat {
    if trades == [] then 0
    else CountType(trades[..|trades| - 1], orderType) + (if trades[|trades| - 1].orderType == orderType then 1 else 0)
  }

  /** The sum of the profits of the log, an absent profit counting as 0. */
  function SumProfits(trades: seq<TradeRecord>): real {
    if trades == [] then 0.0 else SumProfits(trades[..|trades| - 1]) + ChartProfit(trades[|trades| - 1])
  }

  /** The order ids of the BUY records. */
  function BuyIdBag(trades: seq<TradeRecord>): multiset<string> {
    if trades == [] then multiset{}
    else
      var r := trades[|trades| - 1];
      BuyIdBag(trades[..|trades| - 1]) + (if r.orderType == "BUY" then multiset{r.orderId} else multiset{})
  }

  /** The buy ids that SELL records refer to. */
  function SoldIdBag(trades: seq<TradeRecord>): multiset<string> {
    if trades == [] then multiset{}
    else
      var r := trades[|trades| - 1];
      SoldIdBag(trades[..|trades| - 1]) +
        (if r.orderType == "SELL" && r.relatedOrderId.Some? then multiset{r.relatedOrderId.value} else multiset{})
  }

  function SumReals(xs: seq<real>): real {
    if xs == [] then 0.0 else SumReals(xs[..|xs| - 1]) + xs[|xs| - 1]
  }

  function SumEth(tasks: seq<SellTask>): real {
    if tasks == [] then 0.0 else tasks[0].ethAmount + SumEth(tasks[1..])
  }

  /** The cash tied up in the queued tasks. */
  function SumCost(tasks: seq<SellTask>): real {
    if tasks == [] then 0.0 else tasks[0].costUsdt + SumCost(tasks[1..])
  }

  /** The buy ids of the queued tasks. */
  function PendingIdBag(tasks: seq<SellTask>): multiset<string> {
    if tasks == [] then multiset{} else multiset{tasks[0].buyId} + PendingIdBag(tasks[1..])
  }

  /** The tasks a candle at `price` leaves queued, in queue order. */
  function Unsold(price: real, tasks: seq<SellTask>): seq<SellTask> {
    if tasks == [] then []
    else if price < tasks[0].targetPrice then [tasks[0]] + Unsold(price, tasks[1..])
    else Unsold(price, tasks[1..])
  }

  /** The tasks a candle at `price` sells, in queue order. */
  function Matured(price: real, tasks: seq<SellTask>): seq<SellTask> {
    if tasks == [] then []
    else if price >= tasks[0].targetPrice then [tasks[0]] + Matured(price, tasks[1..])
    else Matured(price, tasks[1..])
  }

  lemma AppendTrade(trades: seq<TradeRecord>, r: TradeRecord, orderType: string)
    ensures CountType(trades + [r], orderType) == CountType(trades, orderType) + (if r.orderType == orderType then 1 else 0)
    ensures SumProfits(trades + [r]) == SumProfits(trades) + ChartProfit(r)
    ensures BuyIdBag(trades + [r]) == BuyIdBag(trades) + (if r.orderType == "BUY" then multiset{r.orderId} else multiset{})
    ensures SoldIdBag(trades + [r]) == SoldIdBag(trades) +
      (if r.orderType == "SELL" && r.relatedOrderId.Some? then multiset{r.relatedOrderId.value} else multiset{})
  {
    assert (trades + [r])[..|trades|] == trades;
  }

  lemma {:induction false} AppendTask(tasks: seq<SellTask>, t: SellTask)
    ensures SumEth(tasks + [t]) == SumEth(tasks) + t.ethAmount
    ensures SumCost(tasks + [t]) == SumCost(tasks) + t.costUsdt
    ensures PendingIdBag(tasks + [t]) == PendingIdBag(tasks) + multiset{t.buyId}
  {
    if tasks == [] {
      assert [] + [t] == [t];
    } else {
      assert (tasks + [t])[1..] == tasks[1..] + [t];
      AppendTask(tasks[1..], t);
    }
  }

  /** Removing a queued task takes away exactly its coins and its id. */
  lemma {:induction false} RemoveFacts(tasks: seq<SellTask>, x: SellTask)
    requires x in tasks
    ensures |Remove(tasks, x)| == |tasks| - 1
    ensures SumEth(Remove(tasks, x)) == SumEth(tasks) - x.ethAmount
    ensures SumCost(Remove(tasks, x)) == SumCost(tasks) - x.costUsdt
    ensures PendingIdBag(Remove(tasks, x)) + multiset{x.buyId} == PendingIdBag(tasks)
    ensures forall u :: u in Remove(tasks, x) ==> u in tasks
  {
    if tasks[0] == x {
      assert Remove(tasks, x) == tasks[1..];
    } else {
      RemoveFacts(tasks[1..], x);
      var rest := Remove(tasks[1..], x);
      assert Remove(tasks, x) == [tasks[0]] + rest;
      assert ([tasks[0]] + rest)[0] == tasks[0] && ([tasks[0]] + rest)[1..] == rest;
    }
  }

  /** `list.remove` of an element that none of the first elements equals removes that element. */
  lemma {:induction false} RemoveSkipsKept(kept: seq<SellTask>, x: SellTask, rest: seq<SellTask>)
    requires x !in kept
    ensures Remove(kept + [x] + rest, x) == kept + rest
  {
    if kept == [] {
      assert [] + [x] + rest == [x] + rest;
    } else {
      assert (kept + [x] + rest)[1..] == kept[1..] + [x] + rest;
      RemoveSkipsKept(kept[1..], x, rest);
      assert kept + rest == [kept[0]] + (kept[1..] + rest);
    }
  }

  // ---------------------------------------------------------------------------
  // Positivity of the amounts

  lemma BoughtEthPositive(p: StrategyParams, price: real)
    requires ValidStrategyParams(p) && price > 0.0
    ensures BoughtEth(p, price) > 0.0
  {
    var net := p.tradeAmount - BuyCommission(p);
    assert net == p.tradeAmount * (1.0 - p.commissionRate);
    assert net > 0.0;
  }

  lemma SaleNetPositive(p: StrategyParams, t: SellTask, price: real)
    requires ValidStrategyParams(p) && t.ethAmount > 0.0 && price > 0.0
    ensures SaleNet(p, t, price) > 0.0
  {
    var gross := SaleGross(t, price);
    assert gross > 0.0;
    assert SaleNet(p, t, price) == gross * (1.0 - p.commissionRate);
  }

  // ---------------------------------------------------------------------------
  // The invariant, in three parts: the trade log, the queue, the money

  /** Record `r` is the `n`-th of the log: a BUY or a SELL numbered `n`, with positive price and amount. */
  ghost predicate RecordOk(r: TradeRecord, n: nat) {
    && ((r.orderType == "BUY" && r.orderId == OrderId("BUY_", n)) ||
        (r.orderType == "SELL" && r.orderId == OrderId("SELL_", n) && r.relatedOrderId.Some?))
    && r.price > 0.0
    && r.usdtAmount > 0.0
  }

  ghost predicate Numbered(trades: seq<TradeRecord>) {
    forall i :: 0 <= i < |trades| ==> RecordOk(trades[i], i + 1)
  }

  /**
   * The log is numbered by the order counter; every queued task is an unsold
   * BUY, every SELL sold one of the BUYs.
   */
  ghost predicate LogInv(s: State) {
    && s.orderCounter == |s.trades| + 1
    && Numbered(s.trades)
    && CountType(s.trades, "BUY") == s.totalTrades + |s.pendingSells|
    && CountType(s.trades, "SELL") == s.totalTrades
    && BuyIdBag(s.trades) == PendingIdBag(s.pendingSells) + SoldIdBag(s.trades)
  }

  /** A queued task of this run: target above a positive buy price, positive coins, cost = trade amount. */
  ghost predicate TaskOk(p: StrategyParams, t: SellTask) {
    && t.buyPrice > 0.0
    && t.targetPrice == t.buyPrice * (1.0 + p.thresholdPercent)
    && t.ethAmount > 0.0
    && t.costUsdt == p.tradeAmount
  }

  /** The coins held are exactly the coins of the queued tasks. */
  ghost predicate QueueInv(p: StrategyParams, s: State) {
    && (forall t :: t in s.pendingSells ==> TaskOk(p, t))
    && s.ethBalance == SumEth(s.pendingSells)
  }

  /**
   * The cash: never negative once trading has begun, bounded below by the
   * minimum, and equal to the initial balance plus the realised profit less
   * the cost of the open positions.
   */
  ghost predicate MoneyInv(p: StrategyParams, s: State) {
    && (s.balance >= 0.0 || (s.trades == [] && s.balance == p.initialBalance))
    && (p.initialBalance >= 0.0 ==> s.minBalance >= 0.0)
    && s.minBalance <= p.initialBalance
    && s.lastBuyPrice > 0.0
    && s.totalProfit == SumProfits(s.trades)
    && s.balance + SumCost(s.pendingSells) == p.initialBalance + s.totalProfit
  }

  ghost predicate Inv(p: StrategyParams, s: State) {
    ValidStrategyParams(p) && LogInv(s) && QueueInv(p, s) && MoneyInv(p, s)
  }

  lemma InitialInv(p: StrategyParams, history: seq<Candle>)
    requires ValidStrategyParams(p) && |history| > 0 && history[0].close > 0.0
    ensures Inv(p, InitialState(p, history))
  {
  }

  // --- the buy

  lemma BuyKeepsLog(p: StrategyParams, fmt: int -> string, s: State, price: real, timestamp: int)
    requires ValidStrategyParams(p) && LogInv(s) && price > 0.0 && BuySignal(p, s, price)
    ensures LogInv(Buy(p, fmt, s, price, timestamp))
  {
    var record := ExecuteBuyOrder(p, fmt, price, timestamp, s.orderCounter, s.balance, s.ethBalance);
    var task := CreateSellTask(s.orderCounter, price, p.thresholdPercent, record.ethAmount, p.tradeAmount, timestamp);
    var s' := Buy(p, fmt, s, price, timestamp);
    assert s'.trades == s.trades + [record] && s'.pendingSells == s.pendingSells + [task];
    AppendTrade(s.trades, record, "BUY");
    AppendTrade(s.trades, record, "SELL");
    AppendTask(s.pendingSells, task);
    BoughtEthPositive(p, price);
    forall i | 0 <= i < |s'.trades|
      ensures RecordOk(s'.trades[i], i + 1)
    {
      if i < |s.trades| {
        assert s'.trades[i] == s.trades[i];
      }
    }
  }

  lemma BuyKeepsQueue(p: StrategyParams, fmt: int -> string, s: State, price: real, timestamp: int)
    requires ValidStrategyParams(p) && QueueInv(p, s) && price > 0.0 && BuySignal(p, s, price)
    ensures QueueInv(p, Buy(p, fmt, s, price, timestamp))
  {
    var record := ExecuteBuyOrder(p, fmt, price, timestamp, s.orderCounter, s.balance, s.ethBalance);
    var task := CreateSellTask(s.orderCounter, price, p.thresholdPercent, record.ethAmount, p.tradeAmount, timestamp);
    var s' := Buy(p, fmt, s, price, timestamp);
    assert s'.pendingSells == s.pendingSells + [task];
    AppendTask(s.pendingSells, task);
    BoughtEthPositive(p, price);
    forall t | t in s'.pendingSells
      ensures TaskOk(p, t)
    {
      if t != task {
        assert t in s.pendingSells;
      }
    }
  }

  lemma BuyKeepsMoney(p: StrategyParams, fmt: int -> string, s: State, price: real, timestamp: int)
    requires ValidStrategyParams(p) && MoneyInv(p, s) && price > 0.0 && BuySignal(p, s, price)
    ensures MoneyInv(p, Buy(p, fmt, s, price, timestamp))
  {
    var record := ExecuteBuyOrder(p, fmt, price, timestamp, s.orderCounter, s.balance, s.ethBalance);
    var task := CreateSellTask(s.orderCounter, price, p.thresholdPercent, record.ethAmount, p.tradeAmount, timestamp);
    var s' := Buy(p, fmt, s, price, timestamp);
    assert s'.trades == s.trades + [record] && s'.pendingSells == s.pendingSells + [task];
    AppendTrade(s.trades, record, "BUY");
    AppendTask(s.pendingSells, task);
  }

  lemma BuyPreservesInv(p: StrategyParams, fmt: int -> string, s: State, price: real, timestamp: int)
    requires Inv(p, s) && price > 0.0
    ensures Inv(p, Buy(p, fmt, s, price, timestamp))
  {
    if BuySignal(p, s, price) {
      BuyKeepsLog(p, fmt, s, price, timestamp);
      BuyKeepsQueue(p, fmt, s, price, timestamp);
      BuyKeepsMoney(p, fmt, s, price, timestamp);
    }
  }

  // --- one sale

  lemma QueuedMeansTraded(s: State)
    requires LogInv(s) && s.pendingSells != []
    ensures s.trades != []
  {
  }

  lemma SellKeepsLog(p: StrategyParams, fmt: int -> string, s: State, price: real, timestamp: int, t: SellTask)
    requires ValidStrategyParams(p) && LogInv(s) && price > 0.0 && t in s.pendingSells && TaskOk(p, t)
    ensures LogInv(ExecuteSell(p, fmt, s, price, timestamp, t))
  {
    var record := ExecuteSellOrder(p, fmt, price, timestamp, s.orderCounter, t, s.balance, s.ethBalance);
    var s' := ExecuteSell(p, fmt, s, price, timestamp, t);
    assert s'.trades == s.trades + [record];
    SaleNetPositive(p, t, price);
    RemoveFacts(s.pendingSells, t);
    AppendTrade(s.trades, record, "BUY");
    AppendTrade(s.trades, record, "SELL");
    forall i | 0 <= i < |s'.trades|
      ensures RecordOk(s'.trades[i], i + 1)
    {
      if i < |s.trades| {
        assert s'.trades[i] == s.trades[i];
      }
    }
  }

  lemma SellKeepsQueue(p: StrategyParams, fmt: int -> string, s: State, price: real, timestamp: int, t: SellTask)
    requires QueueInv(p, s) && t in s.pendingSells
    ensures QueueInv(p, ExecuteSell(p, fmt, s, price, timestamp, t))
  {
    RemoveFacts(s.pendingSells, t);
  }

  lemma SellKeepsMoney(p: StrategyParams, fmt: int -> string, s: State, price: real, timestamp: int, t: SellTask)
    requires ValidStrategyParams(p) && MoneyInv(p, s) && price > 0.0 && t in s.pendingSells && TaskOk(p, t)
    requires s.trades != []
    ensures MoneyInv(p, ExecuteSell(p, fmt, s, price, timestamp, t))
  {
    var record := ExecuteSellOrder(p, fmt, price, timestamp, s.orderCounter, t, s.balance, s.ethBalance);
    var s' := ExecuteSell(p, fmt, s, price, timestamp, t);
    assert s'.trades == s.trades + [record];
    SaleNetPositive(p, t, price);
    RemoveFacts(s.pendingSells, t);
    AppendTrade(s.trades, record, "BUY");
  }

  lemma SellPreservesInv(p: StrategyParams, fmt: int -> string, s: State, price: real, timestamp: int, t: SellTask)
    requires Inv(p, s) && price > 0.0 && t in s.pendingSells
    ensures Inv(p, ExecuteSell(p, fmt, s, price, timestamp, t))
  {
    assert TaskOk(p, t);
    QueuedMeansTraded(s);
    SellKeepsLog(p, fmt, s, price, timestamp, t);
    SellKeepsQueue(p, fmt, s, price, timestamp, t);
    SellKeepsMoney(p, fmt, s, price, timestamp, t);
  }

  // --- the sell pass, the candle, the run

  /**
   * The sell pass over the unprocessed part `snap` of the snapshot, when the
   * queue is `kept + snap` and every task in `kept` was left unsold: exactly
   * the unsold tasks stay queued, in order.
   */
  lemma {:induction false} ScanQueue(p: StrategyParams, fmt: int -> string, s: State, price: real,
                                     timestamp: int, kept: seq<SellTask>, snap: seq<SellTask>)
    requires s.pendingSells == kept + snap
    requires forall t :: t in kept ==> price < t.targetPrice
    ensures SellScan(p, fmt, s, price, timestamp, snap).pendingSells == kept + Unsold(price, snap)
    decreases |snap|
  {
    if snap == [] {
      assert kept + [] == kept;
    } else {
      var x := snap[0];
      if price >= x.targetPrice {
        assert x !in kept;
        assert s.pendingSells == kept + [x] + snap[1..];
        RemoveSkipsKept(kept, x, snap[1..]);
        ScanQueue(p, fmt, ExecuteSell(p, fmt, s, price, timestamp, x), price, timestamp, kept, snap[1..]);
      } else {
        assert s.pendingSells == (kept + [x]) + snap[1..];
        ScanQueue(p, fmt, s, price, timestamp, kept + [x], snap[1..]);
        assert [x] + Unsold(price, snap[1..]) == Unsold(price, snap);
        assert kept + [x] + Unsold(price, snap[1..]) == kept + Unsold(price, snap);
      }
    }
  }

  /** The sell pass adds a SELL record for exactly the matured tasks, and no BUY record. */
  lemma {:induction false} ScanLog(p: StrategyParams, fmt: int -> string, s: State, price: real,
                                   timestamp: int, snap: seq<SellTask>)
    ensures var r := SellScan(p, fmt, s, price, timestamp, snap);
      && SoldIdBag(r.trades) == SoldIdBag(s.trades) + PendingIdBag(Matured(price, snap))
      && CountType(r.trades, "BUY") == CountType(s.trades, "BUY")
    decreases |snap|
  {
    if snap != [] {
      var x := snap[0];
      if price >= x.targetPrice {
        var record := ExecuteSellOrder(p, fmt, price, timestamp, s.orderCounter, x, s.balance, s.ethBalance);
        var s1 := ExecuteSell(p, fmt, s, price, timestamp, x);
        assert s1.trades == s.trades + [record];
        AppendTrade(s.trades, record, "BUY");
        assert SoldIdBag(s1.trades) == SoldIdBag(s.trades) + multiset{x.buyId};
        assert PendingIdBag(Matured(price, snap)) == multiset{x.buyId} + PendingIdBag(Matured(price, snap[1..])) by {
          assert Matured(price, snap) == [x] + Matured(price, snap[1..]);
          assert ([x] + Matured(price, snap[1..]))[1..] == Matured(price, snap[1..]);
        }
        ScanLog(p, fmt, s1, price, timestamp, snap[1..]);
      } else {
        assert Matured(price, snap) == Matured(price, snap[1..]);
        ScanLog(p, fmt, s, price, timestamp, snap[1..]);
      }
    }
  }

  /** The sell pass keeps the invariant. */
  lemma {:induction false} ScanPreservesInv(p: StrategyParams, fmt: int -> string, s: State, price: real,
                                            timestamp: int, kept: seq<SellTask>, snap: seq<SellTask>)
    requires Inv(p, s) && price > 0.0
    requires s.pendingSells == kept + snap
    requires forall t :: t in kept ==> price < t.targetPrice
    ensures Inv(p, SellScan(p, fmt, s, price, timestamp, snap))
    decreases |snap|
  {
    if snap != [] {
      var x := snap[0];
      if price >= x.targetPrice {
        SellPreservesInv(p, fmt, s, price, timestamp, x);
        assert x !in kept;
        assert s.pendingSells == kept + [x] + snap[1..];
        RemoveSkipsKept(kept, x, snap[1..]);
        ScanPreservesInv(p, fmt, ExecuteSell(p, fmt, s, price, timestamp, x), price, timestamp, kept, snap[1..]);
      } else {
        assert s.pendingSells == (kept + [x]) + snap[1..];
        ScanPreservesInv(p, fmt, s, price, timestamp, kept + [x], snap[1..]);
      }
    }
  }

  lemma TrackMinPreservesInv(p: StrategyParams, s: State)
    requires Inv(p, s)
    ensures Inv(p, TrackMin(s))
  {
  }

  lemma StepPreservesInv(p: StrategyParams, fmt: int -> string, s: State, c: Candle)
    requires Inv(p, s) && c.close > 0.0
    ensures Inv(p, Step(p, fmt, s, c))
  {
    var s0 := TrackMin(s);
    TrackMinPreservesInv(p, s);
    BuyPreservesInv(p, fmt, s0, c.close, c.timestamp);
    var b := Buy(p, fmt, s0, c.close, c.timestamp);
    assert b.pendingSells == [] + b.pendingSells;
    ScanPreservesInv(p, fmt, b, c.close, c.timestamp, [], b.pendingSells);
  }

  lemma {:induction false} RunFromPreservesInv(p: StrategyParams, fmt: int -> string, s: State, history: seq<Candle>)
    requires Inv(p, s) && PositivePrices(history)
    ensures Inv(p, RunFrom(p, fmt, s, history))
    decreases |history|
  {
    if history != [] {
      StepPreservesInv(p, fmt, s, history[0]);
      RunFromPreservesInv(p, fmt, Step(p, fmt, s, history[0]), history[1..]);
    }
  }

  /** The invariant holds after the whole history. */
  lemma FinalInv(p: StrategyParams, fmt: int -> string, history: seq<Candle>)
    requires ValidStrategyParams(p) && |history| > 0 && PositivePrices(history)
    ensures Inv(p, FinalState(p, fmt, history))
  {
    InitialInv(p, history);
    RunFromPreservesInv(p, fmt, InitialState(p, history), history);
  }

  // ---------------------------------------------------------------------------
  // One candle

  /** A task stays queued exactly when the price is below its target. */
  lemma {:induction false} UnsoldMembers(price: real, tasks: seq<SellTask>, t: SellTask)
    ensures t in Unsold(price, tasks) <==> t in tasks && price < t.targetPrice
  {
    if tasks != [] {
      UnsoldMembers(price, tasks[1..], t);
    }
  }

  /** A task is sold exactly when the price reaches its target. */
  lemma {:induction false} MaturedMembers(price: real, tasks: seq<SellTask>, t: SellTask)
    ensures t in Matured(price, tasks) <==> t in tasks && price >= t.targetPrice
  {
    if tasks != [] {
      MaturedMembers(price, tasks[1..], t);
    }
  }

  /** A candle adds a BUY record exactly when the buy guard holds. */
  lemma StepBuysIff(p: StrategyParams, fmt: int -> string, s: State, c: Candle)
    requires c.close > 0.0
    ensures CountType(Step(p, fmt, s, c).trades, "BUY") ==
            CountType(s.trades, "BUY") + (if BuySignal(p, s, c.close) then 1 else 0)
  {
    var s0 := TrackMin(s);
    assert s0.trades == s.trades && (BuySignal(p, s0, c.close) <==> BuySignal(p, s, c.close));
    var b := Buy(p, fmt, s0, c.close, c.timestamp);
    if BuySignal(p, s, c.close) {
      var record := ExecuteBuyOrder(p, fmt, c.close, c.timestamp, s0.orderCounter, s0.balance, s0.ethBalance);
      assert b.trades == s.trades + [record];
      AppendTrade(s.trades, record, "BUY");
    } else {
      assert b.trades == s.trades;
    }
    ScanLog(p, fmt, b, c.close, c.timestamp, b.pendingSells);
    var r := SellScan(p, fmt, b, c.close, c.timestamp, b.pendingSells);
    assert Step(p, fmt, s, c).trades == r.trades;
  }

  /**
   * After the buy, the sell pass sells exactly the queued tasks whose target
   * the close reaches and keeps the others in order; so every task still
   * queued after a candle has its target above that close.
   */
  lemma StepSellsMatured(p: StrategyParams, fmt: int -> string, s: State, c: Candle)
    requires c.close > 0.0
    ensures var b := Buy(p, fmt, TrackMin(s), c.close, c.timestamp);
      var r := Step(p, fmt, s, c);
      && r.pendingSells == Unsold(c.close, b.pendingSells)
      && SoldIdBag(r.trades) == SoldIdBag(b.trades) + PendingIdBag(Matured(c.close, b.pendingSells))
      && (forall t :: t in r.pendingSells ==> c.close < t.targetPrice)
  {
    var b := Buy(p, fmt, TrackMin(s), c.close, c.timestamp);
    assert b.pendingSells == [] + b.pendingSells;
    ScanQueue(p, fmt, b, c.close, c.timestamp, [], b.pendingSells);
    ScanLog(p, fmt, b, c.close, c.timestamp, b.pendingSells);
    forall t | t in Step(p, fmt, s, c).pendingSells
      ensures c.close < t.targetPrice
    {
      UnsoldMembers(c.close, b.pendingSells, t);
    }
  }

  /** With nothing queued after a candle, the reference price is at least its close. */
  lemma StepRatchet(p: StrategyParams, fmt: int -> string, s: State, c: Candle)
    requires c.close > 0.0
    ensures Step(p, fmt, s, c).pendingSells == [] ==> Step(p, fmt, s, c).lastBuyPrice >= c.close
  {
  }

  /** A buy appends one record and one task that names it, at the threshold above the price. */
  lemma BuyRecordAndTask(p: StrategyParams, fmt: int -> string, s: State, price: real, timestamp: int)
    requires price > 0.0 && BuySignal(p, s, price)
    ensures var r := Buy(p, fmt, s, price, timestamp);
      && |r.trades| == |s.trades| + 1 && r.trades[..|s.trades|] == s.trades
      && |r.pendingSells| == |s.pendingSells| + 1 && r.pendingSells[..|s.pendingSells|] == s.pendingSells
      && var record := r.trades[|s.trades|];
         var task := r.pendingSells[|s.pendingSells|];
         && record.orderId == OrderId("BUY_", s.orderCounter) && task.buyId == record.orderId
         && task.targetPrice == price * (1.0 + p.thresholdPercent)
         && task.ethAmount == record.ethAmount
         && record.orderType == "BUY" && record.status == "OPEN" && record.profit.None?
         && record.price == price && record.usdtAmount == p.tradeAmount
         && record.ethAmount * price + BuyCommission(p) == p.tradeAmount
         && record.balanceAfter == r.balance && record.ethBalanceAfter == r.ethBalance
    ensures var r := Buy(p, fmt, s, price, timestamp);
      && r.balance == s.balance - p.tradeAmount
      && r.ethBalance == s.ethBalance + BoughtEth(p, price)
      && r.lastBuyPrice == price
      && r.orderCounter == s.orderCounter + 1
      && r.totalProfit == s.totalProfit && r.totalTrades == s.totalTrades && r.minBalance == s.minBalance
  {
  }

  /**
   * A sale appends one CLOSED record `SELL_n` that names the buy and whose
   * profit is the net proceeds less the task's cost; the cash grows by the
   * net proceeds, the task's coins leave, and the price becomes the reference.
   */
  lemma SaleRecord(p: StrategyParams, fmt: int -> string, s: State, price: real, timestamp: int, t: SellTask)
    ensures var r := ExecuteSell(p, fmt, s, price, timestamp, t);
      && |r.trades| == |s.trades| + 1 && r.trades[..|s.trades|] == s.trades
      && var record := r.trades[|s.trades|];
         && record.relatedOrderId == Some(t.buyId)
         && record.orderId == OrderId("SELL_", s.orderCounter)
         && record.orderType == "SELL" && record.status == "CLOSED" && record.price == price
         && record.profit == Some(r.totalProfit - s.totalProfit)
         && record.profit == Some(record.usdtAmount - t.costUsdt)
         && record.usdtAmount == t.ethAmount * price * (1.0 - p.commissionRate)
         && record.usdtAmount + record.commission == t.ethAmount * price
         && record.balanceAfter == r.balance && record.ethBalanceAfter == r.ethBalance
    ensures var r := ExecuteSell(p, fmt, s, price, timestamp, t);
      && r.balance == s.balance + SaleNet(p, t, price)
      && r.ethBalance == s.ethBalance - t.ethAmount
      && r.lastBuyPrice == price
      && r.orderCounter == s.orderCounter + 1
      && r.totalTrades == s.totalTrades + 1
      && r.minBalance == s.minBalance
      && r.pendingSells == Remove(s.pendingSells, t)
  {
  }

  // ---------------------------------------------------------------------------
  // Order ids

  /** Different prefixes or different counters give different ids. */
  lemma OrderIdInjective(prefix1: string, n1: nat, prefix2: string, n2: nat)
    requires prefix1 == "BUY_" || prefix1 == "SELL_"
    requires prefix2 == "BUY_" || prefix2 == "SELL_"
    requires OrderId(prefix1, n1) == OrderId(prefix2, n2)
    ensures prefix1 == prefix2 && n1 == n2
  {
    assert OrderId(prefix1, n1)[0] == prefix1[0];
    assert OrderId(prefix2, n2)[0] == prefix2[0];
    assert OrderId(prefix1, n1)[|prefix1|..] == Text.Format04(n1);
    assert OrderId(prefix2, n2)[|prefix2|..] == Text.Format04(n2);
    Text.Format04Injective(n1, n2);
  }

  lemma NumberedPrefix(trades: seq<TradeRecord>, n: nat)
    requires Numbered(trades) && n <= |trades|
    ensures Numbered(trades[..n])
  {
    forall i | 0 <= i < n
      ensures RecordOk(trades[..n][i], i + 1)
    {
      assert trades[..n][i] == trades[i];
    }
  }

  /** No two records of a numbered log share an order id. */
  lemma OrderIdsDistinct(trades: seq<TradeRecord>)
    requires Numbered(trades)
    ensures forall i, j :: 0 <= i < j < |trades| ==> trades[i].orderId != trades[j].orderId
  {
    forall i, j | 0 <= i < j < |trades|
      ensures trades[i].orderId != trades[j].orderId
    {
      assert RecordOk(trades[i], i + 1) && RecordOk(trades[j], j + 1);
      var pi := if trades[i].orderType == "BUY" then "BUY_" else "SELL_";
      var pj := if trades[j].orderType == "BUY" then "BUY_" else "SELL_";
      if trades[i].orderId == trades[j].orderId {
        OrderIdInjective(pi, i + 1, pj, j + 1);
      }
    }
  }

  lemma {:induction false} BuyIdInBag(trades: seq<TradeRecord>, x: string)
    requires x in BuyIdBag(trades)
    ensures exists i :: 0 <= i < |trades| && trades[i].orderType == "BUY" && trades[i].orderId == x
  {
    var n := |trades|;
    var pre := trades[..n - 1];
    if x in BuyIdBag(pre) {
      BuyIdInBag(pre, x);
      var i :| 0 <= i < |pre| && pre[i].orderType == "BUY" && pre[i].orderId == x;
      assert trades[i] == pre[i];
    } else {
      assert trades[n - 1].orderType == "BUY" && trades[n - 1].orderId == x;
    }
  }

  /** Every BUY id occurs once in a numbered log. */
  lemma {:induction false} BuyIdsUnique(trades: seq<TradeRecord>)
    requires Numbered(trades)
    ensures forall x :: BuyIdBag(trades)[x] <= 1
  {
    if trades != [] {
      var n := |trades|;
      var pre := trades[..n - 1];
      var r := trades[n - 1];
      NumberedPrefix(trades, n - 1);
      BuyIdsUnique(pre);
      if r.orderType == "BUY" && r.orderId in BuyIdBag(pre) {
        BuyIdInBag(pre, r.orderId);
        var i :| 0 <= i < |pre| && pre[i].orderType == "BUY" && pre[i].orderId == r.orderId;
        assert pre[i] == trades[i];
        OrderIdsDistinct(trades);
        assert false;
      }
    }
  }

  /** Every record of a numbered log is a BUY or a SELL. */
  lemma {:induction false} BuysAndSellsCoverLog(trades: seq<TradeRecord>)
    requires Numbered(trades)
    ensures |trades| == CountType(trades, "BUY") + CountType(trades, "SELL")
  {
    if trades != [] {
      NumberedPrefix(trades, |trades| - 1);
      BuysAndSellsCoverLog(trades[..|trades| - 1]);
      assert RecordOk(trades[|trades| - 1], |trades|);
    }
  }

  // ---------------------------------------------------------------------------
  // The final state

  /** The coins held are those of the open positions; the cash balances profit against their cost. */
  lemma FinalHoldings(p: StrategyParams, fmt: int -> string, history: seq<Candle>)
    requires ValidStrategyParams(p) && |history| > 0 && PositivePrices(history)
    ensures var s := FinalState(p, fmt, history);
      && s.ethBalance == SumEth(s.pendingSells)
      && s.balance + SumCost(s.pendingSells) == p.initialBalance + s.totalProfit
      && SumCost(s.pendingSells) == p.tradeAmount * (|s.pendingSells| as real)
      && (forall t :: t in s.pendingSells ==> t.ethAmount > 0.0 && t.targetPrice > t.buyPrice > 0.0)
      && s.totalProfit == SumProfits(s.trades)
      && (p.initialBalance >= 0.0 ==> s.balance >= 0.0 && 0.0 <= s.minBalance <= p.initialBalance)
  {
    var s := FinalState(p, fmt, history);
    FinalInv(p, fmt, history);
    CostOfTasks(p, s.pendingSells);
    forall t | t in s.pendingSells
      ensures t.ethAmount > 0.0 && t.targetPrice > t.buyPrice > 0.0
    {
      assert TaskOk(p, t);
      assert t.buyPrice * (1.0 + p.thresholdPercent) == t.buyPrice + t.buyPrice * p.thresholdPercent;
    }
  }

  lemma {:induction false} CostOfTasks(p: StrategyParams, tasks: seq<SellTask>)
    requires forall t :: t in tasks ==> TaskOk(p, t)
    ensures SumCost(tasks) == p.tradeAmount * (|tasks| as real)
  {
    if tasks != [] {
      CostOfTasks(p, tasks[1..]);
      assert tasks[0] in tasks;
      assert p.tradeAmount * (|tasks| as real) == p.tradeAmount + p.tradeAmount * (|tasks[1..]| as real);
    }
  }

  /**
   * Every SELL is one completed round trip: the log holds a BUY per sale plus
   * one per open position, ids are unique, and no buy is both open and sold,
   * nor sold twice.
   */
  lemma FinalLog(p: StrategyParams, fmt: int -> string, history: seq<Candle>)
    requires ValidStrategyParams(p) && |history| > 0 && PositivePrices(history)
    ensures var s := FinalState(p, fmt, history);
      && s.orderCounter == |s.trades| + 1
      && CountType(s.trades, "SELL") == s.totalTrades
      && CountType(s.trades, "BUY") == s.totalTrades + |s.pendingSells|
      && |s.trades| == 2 * s.totalTrades + |s.pendingSells|
      && (forall i, j :: 0 <= i < j < |s.trades| ==> s.trades[i].orderId != s.trades[j].orderId)
      && (forall x :: SoldIdBag(s.trades)[x] + PendingIdBag(s.pendingSells)[x] <= 1)
      && (forall x :: x in SoldIdBag(s.trades) ==> x in BuyIdBag(s.trades))
  {
    var s := FinalState(p, fmt, history);
    FinalInv(p, fmt, history);
    BuysAndSellsCoverLog(s.trades);
    OrderIdsDistinct(s.trades);
    BuyIdsUnique(s.trades);
    forall x
      ensures SoldIdBag(s.trades)[x] + PendingIdBag(s.pendingSells)[x] <= 1
    {
      assert BuyIdBag(s.trades)[x] <= 1;
    }
  }

  // ---------------------------------------------------------------------------
  // Summary and chart data

  /** The summary fails exactly on a zero initial balance; otherwise the ROI is the relative gain. */
  lemma SummaryFacts(p: StrategyParams, s: State, lastClose: real)
    ensures CreateSummary(p, s, lastClose).Err? <==> p.initialBalance == 0.0
    ensures CreateSummary(p, s, lastClose).Err? ==> CreateSummary(p, s, lastClose).error == ZeroDivisionError
    ensures CreateSummary(p, s, lastClose).Ok? ==>
      var sm := CreateSummary(p, s, lastClose).value;
      && sm.finalBalance == s.balance + s.ethBalance * lastClose
      && sm.initialBalance + sm.initialBalance * sm.roiPercent / 100.0 == sm.finalBalance
      && sm.totalProfit == s.totalProfit && sm.totalTrades == s.totalTrades
      && sm.minBalance == s.minBalance && sm.pendingPositions == |s.pendingSells|
  {
    if p.initialBalance != 0.0 {
      var sm := CreateSummary(p, s, lastClose).value;
      var i := p.initialBalance;
      var f := sm.finalBalance;
      assert sm.roiPercent == (f - i) / i * 100.0;
      assert i * ((f - i) / i) == f - i;
    }
  }

  lemma ChartPrefix(trades: seq<TradeRecord>, n: nat)
    requires n <= |trades|
    ensures CreateChartData(trades[..n]).profits == CreateChartData(trades).profits[..n]
  {
  }

  /** One entry per trade in every series, and the profit series sums to the realised profit. */
  lemma {:induction false} ChartDataFacts(trades: seq<TradeRecord>)
    ensures var cd := CreateChartData(trades);
      && |cd.dates| == |cd.prices| == |cd.balances| == |cd.profits| == |trades|
      && (forall i :: 0 <= i < |trades| ==>
            cd.dates[i] == trades[i].dateTime && cd.prices[i] == trades[i].price &&
            cd.balances[i] == trades[i].balanceAfter &&
            cd.profits[i] == (if trades[i].profit.Some? then trades[i].profit.value else 0.0))
      && SumReals(cd.profits) == SumProfits(trades)
  {
    if trades != [] {
      var n := |trades|;
      ChartDataFacts(trades[..n - 1]);
      ChartPrefix(trades, n - 1);
      var ps := CreateChartData(trades).profits;
      assert ps[..n - 1] == CreateChartData(trades[..n - 1]).profits;
    }
  }

  /**
   * The analysis fails exactly on a zero initial balance; otherwise it
   * returns the log, a summary that agrees with it, and chart data whose
   * profits sum to the summary's total profit.
   */
  lemma AnalysisFacts(p: StrategyParams, fmt: int -> string, history: seq<Candle>)
    requires ValidStrategyParams(p) && |history| > 0 && PositivePrices(history)
    ensures StrategyAnalysis(p, fmt, history).Err? <==> p.initialBalance == 0.0
    ensures StrategyAnalysis(p, fmt, history).Ok? ==>
      var a := StrategyAnalysis(p, fmt, history).value;
      && a.trades == FinalState(p, fmt, history).trades
      && a.summary.totalTrades == CountType(a.trades, "SELL")
      && a.summary.pendingPositions == CountType(a.trades, "BUY") - CountType(a.trades, "SELL")
      && SumReals(a.chartData.profits) == a.summary.totalProfit
      && |a.chartData.dates| == |a.trades|
      && a.summary.minBalance <= a.summary.initialBalance
  {
    var s := FinalState(p, fmt, history);
    SummaryFacts(p, s, history[|history| - 1].close);
    FinalInv(p, fmt, history);
    ChartDataFacts(s.trades);
  }
}
