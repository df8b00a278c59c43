/**
 * The single-file backend (backend/main.py): its own copy of the strategy
 * loop, written inline with the balances updated before each record is
 * built; the `/analyze` endpoint around it; and the `/symbols` route. Its
 * kline parsing and pagination are the repository's, `BinanceRepository`.
 */
module MainApp {
  import opened Wrappers
  import opened InvestmentModels
  import opened Strategy
  import Sequences
  import BinanceRepository

  const NoDataDetail: string := "No data available for the specified period"
  const InvalidDateDetail: string := "Invalid date format. Use ISO format (YYYY-MM-DDTHH:MM:SS)"
  const SymbolsLimit: nat := 50

  /**
   * The inline buy branch: the balances are updated first, then the sell
   * task and the record are built from the updated values; the result is the
   * shared strategy's buy.
   */
  method InlineBuy(p: StrategyParams, fmt: int -> string, s: State, price: real, timestamp: int) returns (r: State)
    requires price > 0.0
    ensures r == Buy(p, fmt, s, price, timestamp)
  {
    r := s;
    if s.balance >= p.tradeAmount {
      if price <= s.lastBuyPrice * (1.0 - p.thresholdPercent) {
        var commission := p.tradeAmount * p.commissionRate;
        var ethAmount := (p.tradeAmount - commission) / price;
        assert commission == BuyCommission(p) && ethAmount == BoughtEth(p, price);
        var balance := s.balance - p.tradeAmount;
        var ethBalance := s.ethBalance + ethAmount;
        var sellTask := SellTask(
          taskId := OrderId("TASK_", s.orderCounter),
          buyId := OrderId("BUY_", s.orderCounter),
          buyPrice := price,
          targetPrice := price * (1.0 + p.thresholdPercent),
          ethAmount := ethAmount,
          costUsdt := p.tradeAmount,
          buyTimestamp := timestamp);
        var tradeRecord := TradeRecord(
          orderId := OrderId("BUY_", s.orderCounter),
          orderType := "BUY",
          dateTime := fmt(timestamp),
          price := price,
          ethAmount := ethAmount,
          usdtAmount := p.tradeAmount,
          commission := commission,
          balanceAfter := balance,
          ethBalanceAfter := ethBalance,
          levelPrice := price,
          relatedOrderId := None,
          status := "OPEN",
          profit := None);
        assert tradeRecord == ExecuteBuyOrder(p, fmt, price, timestamp, s.orderCounter, s.balance, s.ethBalance);
        r := s.(balance := balance, ethBalance := ethBalance, lastBuyPrice := price,
                pendingSells := s.pendingSells + [sellTask],
                trades := s.trades + [tradeRecord],
                orderCounter := s.orderCounter + 1);
      }
    }
  }

  /**
   * The inline sale of one matured task: the balances are updated first and
   * the record is built from the updated values; the result is the shared
   * strategy's sale.
   */
  method InlineSell(p: StrategyParams, fmt: int -> string, s: State, price: real, timestamp: int, task: SellTask)
    returns (r: State)
    ensures r == ExecuteSell(p, fmt, s, price, timestamp, task)
  {
    var buyPrice := task.buyPrice;
    var ethToSell := task.ethAmount;
    var grossUsdt := ethToSell * price;
    var commission := grossUsdt * p.commissionRate;
    var netUsdt := grossUsdt - commission;
    assert commission == SaleCommission(p, task, price) && netUsdt == SaleNet(p, task, price);
    var invested := task.costUsdt;
    var profit := netUsdt - invested;
    var balance := s.balance + netUsdt;
    var ethBalance := s.ethBalance - ethToSell;
    var tradeRecord := TradeRecord(
      orderId := OrderId("SELL_", s.orderCounter),
      orderType := "SELL",
      dateTime := fmt(timestamp),
      price := price,
      ethAmount := -ethToSell,
      usdtAmount := netUsdt,
      commission := commission,
      balanceAfter := balance,
      ethBalanceAfter := ethBalance,
      levelPrice := buyPrice,
      relatedOrderId := Some(task.buyId),
      status := "CLOSED",
      profit := Some(profit));
    assert tradeRecord == ExecuteSellOrder(p, fmt, price, timestamp, s.orderCounter, task, s.balance, s.ethBalance);
    r := s.(totalProfit := s.totalProfit + profit, totalTrades := s.totalTrades + 1,
            balance := balance, ethBalance := ethBalance, lastBuyPrice := price,
            trades := s.trades + [tradeRecord], orderCounter := s.orderCounter + 1,
            pendingSells := Remove(s.pendingSells, task));
  }

  /**
   * The inline loop body: minimum tracking, the buy branch, the sell pass
   * over a copy of the queue with `list.remove`, and the ratchet; the state
   * it leaves is the shared strategy's step.
   */
  method InlineProcessCandle(p: StrategyParams, fmt: int -> string, s: State, row: Candle) returns (r: State)
    requires row.close > 0.0
    ensures r == Step(p, fmt, s, row)
  {
    var price := row.close;
    var timestamp := row.timestamp;
    var cur := s;
    if cur.balance < cur.minBalance {
      cur := cur.(minBalance := cur.balance);
    }
    cur := InlineBuy(p, fmt, cur, price, timestamp);
    ghost var bought := cur;

    if cur.pendingSells != [] {
      var snapshot := cur.pendingSells;
      var j := 0;
      while j < |snapshot|
        invariant 0 <= j <= |snapshot|
        invariant SellScan(p, fmt, cur, price, timestamp, snapshot[j..]) == SellScan(p, fmt, bought, price, timestamp, bought.pendingSells)
      {
        var task := snapshot[j];
        assert snapshot[j..][0] == task && snapshot[j..][1..] == snapshot[j + 1..];
        if price >= task.targetPrice {
          cur := InlineSell(p, fmt, cur, price, timestamp, task);
        }
        j := j + 1;
      }
    }

    if cur.pendingSells == [] && price > cur.lastBuyPrice {
      cur := cur.(lastBuyPrice := price);
    }
    r := cur;
  }

  lemma RunFromUnfold(p: StrategyParams, fmt: int -> string, s: State, history: seq<Candle>, i: nat)
    requires PositivePrices(history) && i < |history|
    ensures PositivePrices(history[i..]) && PositivePrices(history[i + 1..])
    ensures RunFrom(p, fmt, s, history[i..]) == RunFrom(p, fmt, Step(p, fmt, s, history[i]), history[i + 1..])
  {
    assert history[i..][0] == history[i];
    assert history[i..][1..] == history[i + 1..];
  }

  /** The inline `chart_data` dictionary: one entry per trade in each series. */
  method InlineChartData(trades: seq<TradeRecord>) returns (chartData: ChartData)
    ensures chartData == CreateChartData(trades)
  {
    chartData := ChartData(
      dates := seq(|trades|, k requires 0 <= k < |trades| => trades[k].dateTime),
      prices := seq(|trades|, k requires 0 <= k < |trades| => trades[k].price),
      balances := seq(|trades|, k requires 0 <= k < |trades| => trades[k].balanceAfter),
      profits := seq(|trades|, k requires 0 <= k < |trades| => if trades[k].profit.Some? then trades[k].profit.value else 0.0));
  }

  /**
   * The inline `summary` dictionary, which writes the final balance out twice;
   * a zero initial balance raises in the ROI division.
   */
  method InlineSummary(p: StrategyParams, s: State, lastClose: real) returns (r: Result<Summary, AnalysisError>)
    ensures r == CreateSummary(p, s, lastClose)
  {
    if p.initialBalance == 0.0 {
      assert CreateSummary(p, s, lastClose) == Err(ZeroDivisionError);
      return Err(ZeroDivisionError);
    }
    ghost var finalBalance := s.balance + s.ethBalance * lastClose;
    assert CreateSummary(p, s, lastClose).Ok?;
    assert CreateSummary(p, s, lastClose).value.finalBalance == finalBalance;
    assert CreateSummary(p, s, lastClose).value.roiPercent == (finalBalance - p.initialBalance) / p.initialBalance * 100.0;
    r := Ok(Summary(
      initialBalance := p.initialBalance,
      finalBalance := s.balance + s.ethBalance * lastClose,
      totalProfit := s.totalProfit,
      totalTrades := s.totalTrades,
      minBalance := s.minBalance,
      roiPercent := ((s.balance + s.ethBalance * lastClose) - p.initialBalance) / p.initialBalance * 100.0,
      pendingPositions := |s.pendingSells|));
  }

  /**
   * The inline loop over the history, then the chart data and the summary
   * written out inline (a zero initial balance raises in the ROI division):
   * together the shared analysis of the history.
   */
  method InlineStrategyAnalysis(p: StrategyParams, fmt: int -> string, historyList: seq<Candle>)
    returns (r: Result<AnalysisResult, AnalysisError>)
    requires |historyList| > 0 && PositivePrices(historyList)
    ensures r == StrategyAnalysis(p, fmt, historyList)
  {
    var s := InitialState(p, historyList);
    var i := 0;
    assert historyList[0..] == historyList;
    while i < |historyList|
      invariant 0 <= i <= |historyList|
      invariant PositivePrices(historyList[i..])
      invariant RunFrom(p, fmt, s, historyList[i..]) == FinalState(p, fmt, historyList)
    {
      RunFromUnfold(p, fmt, s, historyList, i);
      s := InlineProcessCandle(p, fmt, s, historyList[i]);
      i := i + 1;
    }
    assert historyList[i..] == [];
    assert s == FinalState(p, fmt, historyList);

    var chartData := InlineChartData(s.trades);
    var summary := InlineSummary(p, s, historyList[|historyList| - 1].close);
    match summary
    case Err(e) =>
      r := Err(e);
    case Ok(sm) =>
      r := Ok(AnalysisResult(s.trades, sm, chartData));
  }

  /**
   * The inline `analyze_investment_strategy`: an unparsable date and an
   * empty history are 400s; otherwise the result is the shared analysis of
   * the paginated history.
   * `convertDate` is `convert_date_to_timestamp`, None where it raises.
   */
  method AnalyzeInvestmentStrategy(params: InvestmentParams, fmt: int -> string, convertDate: string -> Option<int>,
                                   getPrice: (int, int, string, string) -> seq<Candle>)
    returns (r: Result<AnalysisResult, AnalysisError>)
    requires BinanceRepository.StartsAtOrAfter(getPrice, 1000, params.symbol, params.interval)
    requires convertDate(params.startDate).Some? && convertDate(params.endDate).Some? ==>
      PositivePrices(BinanceRepository.Paginate(getPrice, convertDate(params.startDate).value, convertDate(params.endDate).value,
                                                1000, params.symbol, params.interval))
    ensures convertDate(params.startDate).None? || convertDate(params.endDate).None? ==> r == Err(HttpError(400, InvalidDateDetail))
    ensures convertDate(params.startDate).Some? && convertDate(params.endDate).Some? ==>
      var history := BinanceRepository.Paginate(getPrice, convertDate(params.startDate).value, convertDate(params.endDate).value,
                                                 1000, params.symbol, params.interval);
      && (history == [] ==> r == Err(HttpError(400, NoDataDetail)))
      && (history != [] ==> r == StrategyAnalysis(params.Strategy(), fmt, history))
  {
    var startTimestamp := convertDate(params.startDate);
    if startTimestamp.None? {
      return Err(HttpError(400, InvalidDateDetail));
    }
    var endTimestamp := convertDate(params.endDate);
    if endTimestamp.None? {
      return Err(HttpError(400, InvalidDateDetail));
    }
    var historyList := BinanceRepository.GetHistoricalPriceData(getPrice, startTimestamp.value, endTimestamp.value,
                                                                1000, params.symbol, params.interval);
    if historyList == [] {
      return Err(HttpError(400, NoDataDetail));
    }

    r := InlineStrategyAnalysis(params.Strategy(), fmt, historyList);
  }

  // ---------------------------------------------------------------------------
  // The `/analyze` endpoint

  /**
   * `analyze_investments` as written: `except Exception` also catches the
   * HTTPException the analysis raises, so every failure is a 500 whose
   * detail is `str(e)`, given here by `describe`.
   */
  function AnalyzeInvestmentsAsWritten(outcome: Result<AnalysisResult, AnalysisError>,
                                       describe: AnalysisError -> string): (r: Result<AnalysisResult, AnalysisError>)
    ensures outcome.Ok? ==> r == outcome
    ensures outcome.Err? ==> r.Err? && r.error.HttpError? && r.error.statusCode == 500
  {
    match outcome
    case Ok(_) => outcome
    case Err(e) => Err(HttpError(500, describe(e)))
  }

  /** An empty history reaches the client as a 500, not as the 400 the analysis raised. */
  lemma NoDataBecomesServerError(describe: AnalysisError -> string)
    ensures AnalyzeInvestmentsAsWritten(Err(HttpError(400, NoDataDetail)), describe) != Err(HttpError(400, NoDataDetail))
    ensures AnalyzeInvestmentsAsWritten(Err(HttpError(400, NoDataDetail)), describe).error.statusCode == 500
  {
  }

  /** The endpoint with the HTTPException re-raised unchanged; any other failure is a 500. */
  function AnalyzeInvestments(outcome: Result<AnalysisResult, AnalysisError>,
                              describe: AnalysisError -> string): (r: Result<AnalysisResult, AnalysisError>)
    ensures outcome.Ok? ==> r == outcome
    ensures outcome.Err? && outcome.error.HttpError? ==> r == outcome
    ensures outcome.Err? && !outcome.error.HttpError? ==> r.Err? && r.error.HttpError? && r.error.statusCode == 500
  {
    match outcome
    case Ok(_) => outcome
    case Err(e) => if e.HttpError? then outcome else Err(HttpError(500, describe(e)))
  }

  /** The analysis' own 400s (a bad date, no data) reach the client unchanged. */
  lemma ClientErrorsPreserved(describe: AnalysisError -> string, detail: string)
    ensures AnalyzeInvestments(Err(HttpError(400, detail)), describe) == Err(HttpError(400, detail))
    ensures AnalyzeInvestments(Err(ZeroDivisionError), describe).error.statusCode == 500
  {
  }

  // ---------------------------------------------------------------------------
  // The `/symbols` route

  predicate IsTrading(info: BinanceRepository.SymbolInfo) {
    info.status == "TRADING"
  }

  function TradingSymbols(infos: seq<BinanceRepository.SymbolInfo>): seq<string> {
    BinanceRepository.SymbolNames(Sequences.Filter(infos, IsTrading))
  }

  /** `get_available_symbols`: the first 50 trading symbols; a failed request is a 500 with `str(e)`. */
  function GetAvailableSymbols(exchangeInfo: Option<seq<BinanceRepository.SymbolInfo>>, failureDetail: string): Result<seq<string>, AnalysisError> {
    match exchangeInfo
    case None => Err(HttpError(500, failureDetail))
    case Some(infos) =>
      var symbols := TradingSymbols(infos);
      Ok(if |symbols| <= SymbolsLimit then symbols else symbols[..SymbolsLimit])
  }

  /**
   * The route returns at most 50 names: the first ones, in the exchange's
   * order, of the trading symbols, each the name of a trading entry.
   */
  lemma SymbolsRouteFacts(exchangeInfo: Option<seq<BinanceRepository.SymbolInfo>>, failureDetail: string)
    ensures exchangeInfo.None? ==> GetAvailableSymbols(exchangeInfo, failureDetail) == Err(HttpError(500, failureDetail))
    ensures exchangeInfo.Some? ==>
      var infos := exchangeInfo.value;
      var all := TradingSymbols(infos);
      var r := GetAvailableSymbols(exchangeInfo, failureDetail);
      && r.Ok?
      && |r.value| == (if |all| < SymbolsLimit then |all| else SymbolsLimit)
      && r.value == all[..|r.value|]
      && Sequences.Subsequence(Sequences.Filter(infos, IsTrading), infos)
      && forall name :: name in r.value ==> exists info :: info in infos && info.status == "TRADING" && info.symbol == name
  {
    if exchangeInfo.Some? {
      var infos := exchangeInfo.value;
      var kept := Sequences.Filter(infos, IsTrading);
      Sequences.FilterFacts(infos, IsTrading);
      var r := GetAvailableSymbols(exchangeInfo, failureDetail).value;
      forall name | name in r
        ensures exists info :: info in infos && info.status == "TRADING" && info.symbol == name
      {
        var i :| 0 <= i < |r| && r[i] == name;
        assert kept[i] in kept;
      }
    }
  }
}
