/**
 * The threshold ("grid") backtesting strategy shared by the sync service, the
 * async service and the inline copy in the backend entry point, as pure
 * functions over a strategy state: the definition every imperative copy is
 * proved against.
 *
 * On each candle, in this order: the running minimum balance is updated; a
 * fixed amount is bought when the balance allows it and the price lies the
 * threshold below the last buy price, which queues a sell task; every queued
 * task whose target price is reached is sold and removed; with nothing
 * queued, the reference price ratchets up to the current price.
 */
module Strategy {
  import opened Wrappers
  import opened InvestmentModels
  import Text

  /** A queued sale: the coins of one buy, to be sold at `targetPrice`. */
  datatype SellTask = SellTask(
    taskId: string,
    buyId: string,
    buyPrice: real,
    targetPrice: real,
    ethAmount: real,
    costUsdt: real,
    buyTimestamp: int)

  /** The local variables of the strategy loop. */
  datatype State = State(
    balance: real,
    ethBalance: real,
    pendingSells: seq<SellTask>,
    orderCounter: nat,
    trades: seq<TradeRecord>,
    lastBuyPrice: real,
    minBalance: real,
    totalProfit: real,
    totalTrades: nat)

  predicate PositivePrices(history: seq<Candle>) {
    forall i :: 0 <= i < |history| ==> history[i].close > 0.0
  }

  /** `f"{prefix}{counter:04d}"`, the shape of every order and task id. */
  function OrderId(prefix: string, counter: nat): string {
    prefix + Text.Format04(counter)
  }

  // ---------------------------------------------------------------------------
  // Amounts of one buy and one sale

  function BuyCommission(p: StrategyParams): real {
    p.tradeAmount * p.commissionRate
  }

  /** The coins one buy yields: the trade amount less commission, over the price. */
  function BoughtEth(p: StrategyParams, price: real): real
    requires price > 0.0
  {
    (p.tradeAmount - BuyCommission(p)) / price
  }

  function SaleGross(task: SellTask, price: real): real {
    task.ethAmount * price
  }

  function SaleCommission(p: StrategyParams, task: SellTask, price: real): real {
    SaleGross(task, price) * p.commissionRate
  }

  function SaleNet(p: StrategyParams, task: SellTask, price: real): real {
    SaleGross(task, price) - SaleCommission(p, task, price)
  }

  // ---------------------------------------------------------------------------
  // Record and task builders

  /** `_execute_buy_order`. */
  function ExecuteBuyOrder(p: StrategyParams, fmt: int -> string, price: real, timestamp: int,
                           orderCounter: nat, balance: real, ethBalance: real): TradeRecord
    requires price > 0.0
  {
    var eth := BoughtEth(p, price);
    TradeRecord(
      orderId := OrderId("BUY_", orderCounter),
      orderType := "BUY",
      dateTime := fmt(timestamp),
      price := price,
      ethAmount := eth,
      usdtAmount := p.tradeAmount,
      commission := BuyCommission(p),
      balanceAfter := balance - p.tradeAmount,
      ethBalanceAfter := ethBalance + eth,
      levelPrice := price,
      relatedOrderId := None,
      status := "OPEN",
      profit := None)
  }

  /** `_create_sell_task`. */
  function CreateSellTask(orderCounter: nat, buyPrice: real, thresholdPercent: real,
                          ethAmount: real, costUsdt: real, timestamp: int): SellTask
  {
    SellTask(
      taskId := OrderId("TASK_", orderCounter),
      buyId := OrderId("BUY_", orderCounter),
      buyPrice := buyPrice,
      targetPrice := buyPrice * (1.0 + thresholdPercent),
      ethAmount := ethAmount,
      costUsdt := costUsdt,
      buyTimestamp := timestamp)
  }

  /** `_execute_sell_order`. */
  function ExecuteSellOrder(p: StrategyParams, fmt: int -> string, price: real, timestamp: int,
                            orderCounter: nat, task: SellTask, balance: real, ethBalance: real): TradeRecord
  {
    var net := SaleNet(p, task, price);
    TradeRecord(
      orderId := OrderId("SELL_", orderCounter),
      orderType := "SELL",
      dateTime := fmt(timestamp),
      price := price,
      ethAmount := -task.ethAmount,
      usdtAmount := net,
      commission := SaleCommission(p, task, price),
      balanceAfter := balance + net,
      ethBalanceAfter := ethBalance - task.ethAmount,
      levelPrice := task.buyPrice,
      relatedOrderId := Some(task.buyId),
      status := "CLOSED",
      profit := Some(net - task.costUsdt))
  }

  // ---------------------------------------------------------------------------
  // One candle

  /** The state before the first candle: the first close is the reference price. */
  function InitialState(p: StrategyParams, history: seq<Candle>): State
    requires |history| > 0
  {
    State(
      balance := p.initialBalance,
      ethBalance := 0.0,
      pendingSells := [],
      orderCounter := 1,
      trades := [],
      lastBuyPrice := history[0].close,
      minBalance := p.initialBalance,
      totalProfit := 0.0,
      totalTrades := 0)
  }

  function TrackMin(s: State): State {
    if s.balance < s.minBalance then s.(minBalance := s.balance) else s
  }

  /** The buy guard. */
  predicate BuySignal(p: StrategyParams, s: State, price: real) {
    s.balance >= p.tradeAmount && price <= s.lastBuyPrice * (1.0 - p.thresholdPercent)
  }

  function Buy(p: StrategyParams, fmt: int -> string, s: State, price: real, timestamp: int): State
    requires price > 0.0
  {
    if BuySignal(p, s, price) then
      var record := ExecuteBuyOrder(p, fmt, price, timestamp, s.orderCounter, s.balance, s.ethBalance);
      var task := CreateSellTask(s.orderCounter, price, p.thresholdPercent, record.ethAmount, p.tradeAmount, timestamp);
      s.(trades := s.trades + [record],
         pendingSells := s.pendingSells + [task],
         balance := s.balance - p.tradeAmount,
         ethBalance := s.ethBalance + BoughtEth(p, price),
         lastBuyPrice := price,
         orderCounter := s.orderCounter + 1)
    else s
  }

  /** Python's `list.remove`: drops the first element equal to `x` (absent: unchanged). */
  function Remove(tasks: seq<SellTask>, x: SellTask): seq<SellTask> {
    if tasks == [] then []
    else if tasks[0] == x then tasks[1..]
    else [tasks[0]] + Remove(tasks[1..], x)
  }

  /** Sells one task at `price` and removes it from the queue. */
  function ExecuteSell(p: StrategyParams, fmt: int -> string, s: State, price: real, timestamp: int,
                       task: SellTask): State
  {
    var record := ExecuteSellOrder(p, fmt, price, timestamp, s.orderCounter, task, s.balance, s.ethBalance);
    var net := SaleNet(p, task, price);
    s.(trades := s.trades + [record],
       totalProfit := s.totalProfit + (net - task.costUsdt),
       totalTrades := s.totalTrades + 1,
       balance := s.balance + net,
       ethBalance := s.ethBalance - task.ethAmount,
       lastBuyPrice := price,
       orderCounter := s.orderCounter + 1,
       pendingSells := Remove(s.pendingSells, task))
  }

  /** The sell pass: walks a snapshot of the queue, selling every task whose target is reached. */
  function SellScan(p: StrategyParams, fmt: int -> string, s: State, price: real, timestamp: int,
                    snapshot: seq<SellTask>): State
    decreases |snapshot|
  {
    if snapshot == [] then s
    else
      var s' := if price >= snapshot[0].targetPrice then ExecuteSell(p, fmt, s, price, timestamp, snapshot[0]) else s;
      SellScan(p, fmt, s', price, timestamp, snapshot[1..])
  }

  function Ratchet(s: State, price: real): State {
    if s.pendingSells == [] && price > s.lastBuyPrice then s.(lastBuyPrice := price) else s
  }

  /** Everything the loop body does for one candle. */
  function Step(p: StrategyParams, fmt: int -> string, s: State, c: Candle): State
    requires c.close > 0.0
  {
    var bought := Buy(p, fmt, TrackMin(s), c.close, c.timestamp);
    Ratchet(SellScan(p, fmt, bought, c.close, c.timestamp, bought.pendingSells), c.close)
  }

  /** The loop over the remaining candles. */
  function RunFrom(p: StrategyParams, fmt: int -> string, s: State, history: seq<Candle>): State
    requires PositivePrices(history)
    decreases |history|
  {
    if history == [] then s else RunFrom(p, fmt, Step(p, fmt, s, history[0]), history[1..])
  }

  function FinalState(p: StrategyParams, fmt: int -> string, history: seq<Candle>): State
    requires |history| > 0 && PositivePrices(history)
  {
    RunFrom(p, fmt, InitialState(p, history), history)
  }

  // ---------------------------------------------------------------------------
  // Summary and chart data

  /** `_create_summary`; the ROI division raises when the initial balance is 0. */
  function CreateSummary(p: StrategyParams, s: State, lastClose: real): Result<Summary, AnalysisError> {
    var finalBalance := s.balance + s.ethBalance * lastClose;
    if p.initialBalance == 0.0 then Err(ZeroDivisionError)
    else Ok(Summary(
      initialBalance := p.initialBalance,
      finalBalance := finalBalance,
      totalProfit := s.totalProfit,
      totalTrades := s.totalTrades,
      minBalance := s.minBalance,
      roiPercent := (finalBalance - p.initialBalance) / p.initialBalance * 100.0,
      pendingPositions := |s.pendingSells|))
  }

  /** `trade.profit if trade.profit else 0`. */
  function ChartProfit(t: TradeRecord): real {
    match t.profit
    case Some(v) => v
    case None => 0.0
  }

  /** `_create_chart_data`. */
  function CreateChartData(trades: seq<TradeRecord>): ChartData {
    ChartData(
      dates := seq(|trades|, i requires 0 <= i < |trades| => trades[i].dateTime),
      prices := seq(|trades|, i requires 0 <= i < |trades| => trades[i].price),
      balances := seq(|trades|, i requires 0 <= i < |trades| => trades[i].balanceAfter),
      profits := seq(|trades|, i requires 0 <= i < |trades| => ChartProfit(trades[i])))
  }

  /** `_execute_strategy_analysis`: the loop, then the summary, then the chart data. */
  function StrategyAnalysis(p: StrategyParams, fmt: int -> string, history: seq<Candle>): Result<AnalysisResult, AnalysisError>
    requires |history| > 0 && PositivePrices(history)
  {
    var s := FinalState(p, fmt, history);
    match CreateSummary(p, s, history[|history| - 1].close)
    case Err(e) => Err(e)
    case Ok(summary) => Ok(AnalysisResult(s.trades, summary, CreateChartData(s.trades)))
  }
}
