/**
 * The two analysis services: the synchronous InvestmentAnalysisService and
 * its asynchronous copy. Both run the same candle loop over local variables;
 * the loop body is written once here, imperatively, and proved to compute
 * `Strategy.Step`. The repository each service calls is a function parameter.
 */
module AnalysisService {
  import opened Wrappers
  import opened InvestmentModels
  import opened Strategy

  const NoDataDetail: string := "No data available for the specified period"

  /**
   * The body of the candle loop, on the loop's local variables: the minimum
   * tracking, the buy branch, the sell pass over a copy of the queue with
   * `list.remove`, and the ratchet.
   */
  method ProcessCandle(p: StrategyParams, fmt: int -> string, s: State, row: Candle) returns (r: State)
    requires row.close > 0.0
    ensures r == Step(p, fmt, s, row)
  {
    var balance, ethBalance, pendingSells, orderCounter, trades := s.balance, s.ethBalance, s.pendingSells, s.orderCounter, s.trades;
    var lastBuyPrice, minBalance, totalProfit, totalTrades := s.lastBuyPrice, s.minBalance, s.totalProfit, s.totalTrades;
    var price := row.close;
    var timestamp := row.timestamp;

    if balance < minBalance {
      minBalance := balance;
    }
    ghost var tracked := State(balance, ethBalance, pendingSells, orderCounter, trades, lastBuyPrice, minBalance, totalProfit, totalTrades);
    assert tracked == TrackMin(s);

    if balance >= p.tradeAmount {
      if price <= lastBuyPrice * (1.0 - p.thresholdPercent) {
        var tradeRecord := ExecuteBuyOrder(p, fmt, price, timestamp, orderCounter, balance, ethBalance);
        trades := trades + [tradeRecord];
        var sellTask := CreateSellTask(orderCounter, price, p.thresholdPercent, tradeRecord.ethAmount, p.tradeAmount, timestamp);
        pendingSells := pendingSells + [sellTask];
        var commission := p.tradeAmount * p.commissionRate;
        var ethAmount := (p.tradeAmount - commission) / price;
        balance := balance - p.tradeAmount;
        ethBalance := ethBalance + ethAmount;
        lastBuyPrice := price;
        orderCounter := orderCounter + 1;
      }
    }
    ghost var bought := State(balance, ethBalance, pendingSells, orderCounter, trades, lastBuyPrice, minBalance, totalProfit, totalTrades);
    assert bought == Buy(p, fmt, tracked, price, timestamp);

    if pendingSells != [] {
      var snapshot := pendingSells;
      var j := 0;
      while j < |snapshot|
        invariant 0 <= j <= |snapshot|
        invariant SellScan(p, fmt, State(balance, ethBalance, pendingSells, orderCounter, trades, lastBuyPrice, minBalance, totalProfit, totalTrades),
                           price, timestamp, snapshot[j..])
               == SellScan(p, fmt, bought, price, timestamp, bought.pendingSells)
      {
        var task := snapshot[j];
        ghost var before := State(balance, ethBalance, pendingSells, orderCounter, trades, lastBuyPrice, minBalance, totalProfit, totalTrades);
        assert snapshot[j..][0] == task && snapshot[j..][1..] == snapshot[j + 1..];
        if price >= task.targetPrice {
          var tradeRecord := ExecuteSellOrder(p, fmt, price, timestamp, orderCounter, task, balance, ethBalance);
          trades := trades + [tradeRecord];
          var ethToSell := task.ethAmount;
          var grossUsdt := ethToSell * price;
          var commission := grossUsdt * p.commissionRate;
          var netUsdt := grossUsdt - commission;
          var invested := task.costUsdt;
          var profit := netUsdt - invested;
          totalProfit := totalProfit + profit;
          totalTrades := totalTrades + 1;
          balance := balance + netUsdt;
          ethBalance := ethBalance - ethToSell;
          lastBuyPrice := price;
          orderCounter := orderCounter + 1;
          pendingSells := Remove(pendingSells, task);
          assert State(balance, ethBalance, pendingSells, orderCounter, trades, lastBuyPrice, minBalance, totalProfit, totalTrades)
              == ExecuteSell(p, fmt, before, price, timestamp, task);
        }
        j := j + 1;
      }
    }

    if pendingSells == [] && price > lastBuyPrice {
      lastBuyPrice := price;
    }
    r := State(balance, ethBalance, pendingSells, orderCounter, trades, lastBuyPrice, minBalance, totalProfit, totalTrades);
  }

  lemma RunFromUnfold(p: StrategyParams, fmt: int -> string, s: State, history: seq<Candle>, i: nat)
    requires PositivePrices(history) && i < |history|
    ensures PositivePrices(history[i..]) && PositivePrices(history[i + 1..])
    ensures RunFrom(p, fmt, s, history[i..]) == RunFrom(p, fmt, Step(p, fmt, s, history[i]), history[i + 1..])
  {
    assert history[i..][0] == history[i];
    assert history[i..][1..] == history[i + 1..];
  }

  /** `_execute_strategy_analysis` of the synchronous service. */
  method ExecuteStrategyAnalysis(p: StrategyParams, fmt: int -> string, historyList: seq<Candle>)
    returns (r: Result<AnalysisResult, AnalysisError>)
    requires |historyList| > 0 && PositivePrices(historyList)
    ensures r == StrategyAnalysis(p, fmt, historyList)
  {
    var s := InitialState(p, historyList);
    var i := 0;
    assert historyList[0..] == historyList;
    while i < |historyList|
      invariant 0 <= i <= |historyList|
      invariant PositivePrices(historyList[i..])
      invariant RunFrom(p, fmt, s, historyList[i..]) == FinalState(p, fmt, historyList)
    {
      RunFromUnfold(p, fmt, s, historyList, i);
      s := ProcessCandle(p, fmt, s, historyList[i]);
      i := i + 1;
    }
    var summary := CreateSummary(p, s, historyList[|historyList| - 1].close);
    var chartData := CreateChartData(s.trades);
    match summary
    case Err(e) =>
      r := Err(e);
    case Ok(sm) =>
      r := Ok(AnalysisResult(s.trades, sm, chartData));
  }

  /** `analyze_investment_strategy` of the synchronous service: an empty history is a 400. */
  method AnalyzeInvestmentStrategy(params: InvestmentParams, fmt: int -> string,
                                   getHistoricalPriceData: (int, int, int, string, string) -> seq<Candle>)
    returns (r: Result<AnalysisResult, AnalysisError>)
    requires params.startTimestamp.Some? && params.endTimestamp.Some?
    requires PositivePrices(getHistoricalPriceData(params.startTimestamp.value, params.endTimestamp.value, 1000, params.symbol, params.interval))
    ensures var history := getHistoricalPriceData(params.startTimestamp.value, params.endTimestamp.value, 1000, params.symbol, params.interval);
      && (history == [] ==> r == Err(HttpError(400, NoDataDetail)))
      && (history != [] ==> r == StrategyAnalysis(params.Strategy(), fmt, history))
  {
    var historyList := getHistoricalPriceData(params.startTimestamp.value, params.endTimestamp.value, 1000, params.symbol, params.interval);
    if historyList == [] {
      return Err(HttpError(400, NoDataDetail));
    }
    r := ExecuteStrategyAnalysis(params.Strategy(), fmt, historyList);
  }

  // ---------------------------------------------------------------------------
  // The asynchronous copy

  /**
   * How many times the calendar day changes along the history, counting the
   * first candle (the loop's `current_day` starts unset).
   */
  function DayChanges(dayOf: int -> int, history: seq<Candle>): nat {
    if history == [] then 0
    else
      var n := |history|;
      DayChanges(dayOf, history[..n - 1]) +
        (if n == 1 || dayOf(history[n - 1].timestamp) != dayOf(history[n - 2].timestamp) then 1 else 0)
  }

  /** The day counter counts the first candle and never exceeds the number of candles. */
  lemma {:induction false} DayChangesBounds(dayOf: int -> int, history: seq<Candle>)
    ensures history != [] ==> 1 <= DayChanges(dayOf, history)
    ensures DayChanges(dayOf, history) <= |history|
  {
    if history != [] {
      DayChangesBounds(dayOf, history[..|history| - 1]);
    }
  }

  /**
   * `_execute_strategy_analysis` of the asynchronous service: the same loop
   * body plus the day counter, which only feeds logging; the analysis is the
   * synchronous one.
   */
  method AsyncExecuteStrategyAnalysis(p: StrategyParams, fmt: int -> string, dayOf: int -> int, historyList: seq<Candle>)
    returns (r: Result<AnalysisResult, AnalysisError>, dayCounter: nat)
    requires |historyList| > 0 && PositivePrices(historyList)
    ensures r == StrategyAnalysis(p, fmt, historyList)
    ensures dayCounter == DayChanges(dayOf, historyList)
  {
    var s := InitialState(p, historyList);
    dayCounter := 0;
    var currentDay: Option<int> := None;
    var i := 0;
    assert historyList[0..] == historyList;
    while i < |historyList|
      invariant 0 <= i <= |historyList|
      invariant PositivePrices(historyList[i..])
      invariant RunFrom(p, fmt, s, historyList[i..]) == FinalState(p, fmt, historyList)
      invariant dayCounter == DayChanges(dayOf, historyList[..i])
      invariant currentDay == if i == 0 then None else Some(dayOf(historyList[i - 1].timestamp))
    {
      var row := historyList[i];
      var currentDate := dayOf(row.timestamp);
      assert historyList[..i + 1][..i] == historyList[..i];
      if currentDay != Some(currentDate) {
        currentDay := Some(currentDate);
        dayCounter := dayCounter + 1;
      }
      RunFromUnfold(p, fmt, s, historyList, i);
      s := ProcessCandle(p, fmt, s, row);
      i := i + 1;
    }
    assert historyList[..i] == historyList;
    var summary := CreateSummary(p, s, historyList[|historyList| - 1].close);
    var chartData := CreateChartData(s.trades);
    match summary
    case Err(e) =>
      r := Err(e);
    case Ok(sm) =>
      r := Ok(AnalysisResult(s.trades, sm, chartData));
  }

  /** `analyze_investment_strategy` of the asynchronous service: an empty history is a 400. */
  method AsyncAnalyzeInvestmentStrategy(params: InvestmentParams, fmt: int -> string, dayOf: int -> int,
                                        getHistoricalPriceDataParallel: (int, int, string, string) -> seq<Candle>)
    returns (r: Result<AnalysisResult, AnalysisError>)
    requires params.startTimestamp.Some? && params.endTimestamp.Some?
    requires PositivePrices(getHistoricalPriceDataParallel(params.startTimestamp.value, params.endTimestamp.value, params.symbol, params.interval))
    ensures var history := getHistoricalPriceDataParallel(params.startTimestamp.value, params.endTimestamp.value, params.symbol, params.interval);
      && (history == [] ==> r == Err(HttpError(400, NoDataDetail)))
      && (history != [] ==> r == StrategyAnalysis(params.Strategy(), fmt, history))
  {
    var historyList := getHistoricalPriceDataParallel(params.startTimestamp.value, params.endTimestamp.value, params.symbol, params.interval);
    if historyList == [] {
      return Err(HttpError(400, NoDataDetail));
    }
    var dayCounter;
    r, dayCounter := AsyncExecuteStrategyAnalysis(params.Strategy(), fmt, dayOf, historyList);
  }
}
