/**
 * The records of backend/app/models/investment_models.py: the request
 * parameters (an object whose timestamps are set after construction), the
 * trade record, the analysis result, and the price candle the repositories
 * return.
 */
module InvestmentModels {
  import opened Wrappers

  const DefaultInitialBalance: real := 10000.0
  const DefaultTradeAmount: real := 1000.0
  const DefaultThresholdPercent: real := 0.05
  const DefaultCommissionRate: real := 0.00075
  const DefaultSymbol: string := "ETHUSDT"
  const DefaultInterval: string := "1h"

  /** One parsed kline: open time, the four prices, the volume and the close time. */
  datatype Candle = Candle(
    timestamp: int,
    open: real,
    high: real,
    low: real,
    close: real,
    volume: real,
    closeTime: int)

  /** The four numbers of the request that the strategy loop reads. */
  datatype StrategyParams = StrategyParams(
    initialBalance: real,
    tradeAmount: real,
    thresholdPercent: real,
    commissionRate: real)

  /**
   * The ranges on which the strategy is modelled: a positive trade amount, a
   * threshold strictly between 0 and 1 and a commission in [0, 1).
   */
  predicate ValidStrategyParams(p: StrategyParams) {
    p.tradeAmount > 0.0 && 0.0 < p.thresholdPercent < 1.0 && 0.0 <= p.commissionRate < 1.0
  }

  /** The request body of `/analyze`; the route fills in the two timestamps later. */
  class InvestmentParams {
    var initialBalance: real
    var tradeAmount: real
    var thresholdPercent: real
    var commissionRate: real
    var startDate: string
    var endDate: string
    var symbol: string
    var interval: string
    var startTimestamp: Option<int>
    var endTimestamp: Option<int>

    /** A request that gives only the two required dates: every default applies. */
    constructor (startDate: string, endDate: string)
      ensures this.startDate == startDate && this.endDate == endDate
      ensures initialBalance == DefaultInitialBalance && tradeAmount == DefaultTradeAmount
      ensures thresholdPercent == DefaultThresholdPercent && commissionRate == DefaultCommissionRate
      ensures symbol == DefaultSymbol && interval == DefaultInterval
      ensures startTimestamp == None && endTimestamp == None
    {
      this.startDate := startDate;
      this.endDate := endDate;
      initialBalance := DefaultInitialBalance;
      tradeAmount := DefaultTradeAmount;
      thresholdPercent := DefaultThresholdPercent;
      commissionRate := DefaultCommissionRate;
      symbol := DefaultSymbol;
      interval := DefaultInterval;
      startTimestamp := None;
      endTimestamp := None;
    }

    /** A request that gives every field; the timestamps still start unset. */
    constructor WithFields(initialBalance: real, tradeAmount: real, thresholdPercent: real,
                           commissionRate: real, startDate: string, endDate: string,
                           symbol: string, interval: string)
      ensures this.initialBalance == initialBalance && this.tradeAmount == tradeAmount
      ensures this.thresholdPercent == thresholdPercent && this.commissionRate == commissionRate
      ensures this.startDate == startDate && this.endDate == endDate
      ensures this.symbol == symbol && this.interval == interval
      ensures startTimestamp == None && endTimestamp == None
    {
      this.initialBalance := initialBalance;
      this.tradeAmount := tradeAmount;
      this.thresholdPercent := thresholdPercent;
      this.commissionRate := commissionRate;
      this.startDate := startDate;
      this.endDate := endDate;
      this.symbol := symbol;
      this.interval := interval;
      startTimestamp := None;
      endTimestamp := None;
    }

    /** `set_timestamps`: sets the two timestamps and nothing else. */
    method SetTimestamps(startTimestamp: int, endTimestamp: int)
      modifies this
      ensures this.startTimestamp == Some(startTimestamp) && this.endTimestamp == Some(endTimestamp)
      ensures initialBalance == old(initialBalance) && tradeAmount == old(tradeAmount)
      ensures thresholdPercent == old(thresholdPercent) && commissionRate == old(commissionRate)
      ensures startDate == old(startDate) && endDate == old(endDate)
      ensures symbol == old(symbol) && interval == old(interval)
    {
      this.startTimestamp := Some(startTimestamp);
      this.endTimestamp := Some(endTimestamp);
    }

    /** The numbers the strategy reads. */
    function Strategy(): StrategyParams
      reads this
    {
      StrategyParams(initialBalance, tradeAmount, thresholdPercent, commissionRate)
    }
  }

  /** One executed order; `relatedOrderId` and `profit` are the optional fields. */
  datatype TradeRecord = TradeRecord(
    orderId: string,
    orderType: string,
    dateTime: string,
    price: real,
    ethAmount: real,
    usdtAmount: real,
    commission: real,
    balanceAfter: real,
    ethBalanceAfter: real,
    levelPrice: real,
    relatedOrderId: Option<string>,
    status: string,
    profit: Option<real>)

  /** The `summary` dictionary of an analysis. */
  datatype Summary = Summary(
    initialBalance: real,
    finalBalance: real,
    totalProfit: real,
    totalTrades: nat,
    minBalance: real,
    roiPercent: real,
    pendingPositions: nat)

  /** The `chart_data` dictionary: four series with one entry per trade. */
  datatype ChartData = ChartData(
    dates: seq<string>,
    prices: seq<real>,
    balances: seq<real>,
    profits: seq<real>)

  datatype AnalysisResult = AnalysisResult(trades: seq<TradeRecord>, summary: Summary, chartData: ChartData)

  /** What the analysis can raise: FastAPI's `HTTPException`, or Python's `ZeroDivisionError`. */
  datatype AnalysisError = HttpError(statusCode: int, detail: string) | ZeroDivisionError
}
