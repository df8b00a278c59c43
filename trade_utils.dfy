/**
 * The per-row market deltas of the trade history: `getMarketData` of
 * frontend/src/utils/tradeUtils.js, its copy inside the TradesTable component,
 * and the inputs each table row hands to the market indicator.
 */
module TradeUtils {
  import opened InvestmentModels
  import opened JsNumber
  import StrategyProperties

  /** What `getMarketData` returns: the previous price and the percent change of the USDT amount. */
  datatype MarketData = MarketData(previousPrice: real, volumeChange: Num)

  /** `((cur - prev) / prev) * 100` on the rows' USDT amounts, in JavaScript arithmetic. */
  function VolumeChange(current: TradeRecord, previous: TradeRecord): Num {
    Times(Quotient(current.usdtAmount - previous.usdtAmount, previous.usdtAmount), 100.0)
  }

  /**
   * `getMarketData(trade, index, trades)`: the first row compares with
   * itself; every later row with the row before it. (`priceChange` is
   * computed and dropped.)
   */
  function GetMarketData(trade: TradeRecord, index: nat, trades: seq<TradeRecord>): (r: MarketData)
    requires index <= |trades|
    ensures index == 0 ==> r == MarketData(trade.price, Fin(0.0))
    ensures index > 0 ==> r.previousPrice == trades[index - 1].price
    ensures index > 0 ==> r.volumeChange == VolumeChange(trade, trades[index - 1])
  {
    if index == 0 then MarketData(trade.price, Fin(0.0))
    else
      var previousTrade := trades[index - 1];
      MarketData(previousTrade.price, VolumeChange(trade, previousTrade))
  }

  /**
   * With a nonzero previous amount the change is finite, zero exactly when
   * the amounts are equal, and, for a positive previous amount, of the sign
   * of the difference.
   */
  lemma VolumeChangeFacts(current: TradeRecord, previous: TradeRecord)
    requires previous.usdtAmount != 0.0
    ensures VolumeChange(current, previous).Fin?
    ensures VolumeChange(current, previous).v * previous.usdtAmount == (current.usdtAmount - previous.usdtAmount) * 100.0
    ensures VolumeChange(current, previous) == Fin(0.0) <==> current.usdtAmount == previous.usdtAmount
    ensures previous.usdtAmount > 0.0 ==>
      && (VolumeChange(current, previous).v > 0.0 <==> current.usdtAmount > previous.usdtAmount)
      && (VolumeChange(current, previous).v < 0.0 <==> current.usdtAmount < previous.usdtAmount)
  {
    var d := current.usdtAmount - previous.usdtAmount;
    var b := previous.usdtAmount;
    var q := d / b;
    assert q * b == d;
    assert VolumeChange(current, previous) == Fin(q * 100.0);
    if b > 0.0 {
      if d > 0.0 { DivPositive(d, b); }
      if d < 0.0 { DivPositive(-d, b); assert -q == (-d) / b; }
      if q > 0.0 && d <= 0.0 { MulPositive(q, b); }
      if q < 0.0 && d >= 0.0 { MulPositive(-q, b); }
    }
  }

  lemma DivPositive(x: real, y: real)
    requires x > 0.0 && y > 0.0
    ensures x / y > 0.0
  {
  }

  lemma MulPositive(x: real, y: real)
    requires x > 0.0 && y > 0.0
    ensures x * y > 0.0
  {
  }

  /** A zero previous amount makes the change non-finite, as JavaScript's division does. */
  lemma VolumeChangeFromZero(current: TradeRecord, previous: TradeRecord)
    requires previous.usdtAmount == 0.0
    ensures current.usdtAmount > 0.0 ==> VolumeChange(current, previous) == PosInf
    ensures current.usdtAmount == 0.0 ==> VolumeChange(current, previous) == NaN
  {
  }

  /** Every trade the strategy logs has a positive USDT amount, so every row's change is finite. */
  lemma StrategyVolumeChangesFinite(trades: seq<TradeRecord>)
    requires StrategyProperties.Numbered(trades)
    ensures forall i :: 0 < i < |trades| ==> GetMarketData(trades[i], i, trades).volumeChange.Fin?
  {
    forall i | 0 < i < |trades|
      ensures GetMarketData(trades[i], i, trades).volumeChange.Fin?
    {
      assert StrategyProperties.RecordOk(trades[i - 1], i);
      VolumeChangeFacts(trades[i], trades[i - 1]);
    }
  }

  // ---------------------------------------------------------------------------
  // TradesTable

  /** The component's own `getMarketData(trade, index)`, which reads the `trades` prop. */
  function TableMarketData(trades: seq<TradeRecord>, trade: TradeRecord, index: nat): (r: MarketData)
    requires index <= |trades|
    ensures index == 0 ==> r == MarketData(trade.price, Fin(0.0))
    ensures index > 0 ==> r.previousPrice == trades[index - 1].price
    ensures index > 0 ==> r.volumeChange == VolumeChange(trade, trades[index - 1])
  {
    if index == 0 then MarketData(trade.price, Fin(0.0))
    else
      var previousTrade := trades[index - 1];
      MarketData(previousTrade.price, Times(Quotient(trade.usdtAmount - previousTrade.usdtAmount, previousTrade.usdtAmount), 100.0))
  }

  /** The table's copy and the shared utility agree on every row. */
  lemma TableAgreesWithUtil(trades: seq<TradeRecord>, trade: TradeRecord, index: nat)
    requires index <= |trades|
    ensures TableMarketData(trades, trade, index) == GetMarketData(trade, index, trades)
  {
  }

  /** The props of one row's MarketIndicator. */
  datatype IndicatorProps = IndicatorProps(price: real, previousPrice: real, volume: real, volumeChange: Num)

  /** `trades.map((trade, index) => ...)`: one indicator per row. */
  function IndicatorRows(trades: seq<TradeRecord>): seq<IndicatorProps> {
    seq(|trades|, i requires 0 <= i < |trades| =>
      var marketData := TableMarketData(trades, trades[i], i);
      IndicatorProps(trades[i].price, marketData.previousPrice, trades[i].usdtAmount, marketData.volumeChange))
  }

  /**
   * Each row's indicator gets the row's price and USDT amount, the previous
   * row's price (its own on the first row), and the change of the USDT
   * amount from the previous row (zero on the first).
   */
  lemma IndicatorRowsFacts(trades: seq<TradeRecord>)
    ensures |IndicatorRows(trades)| == |trades|
    ensures forall i :: 0 <= i < |trades| ==>
      && IndicatorRows(trades)[i].price == trades[i].price
      && IndicatorRows(trades)[i].volume == trades[i].usdtAmount
      && IndicatorRows(trades)[i].previousPrice == (if i == 0 then trades[i].price else trades[i - 1].price)
      && IndicatorRows(trades)[i].volumeChange == (if i == 0 then Fin(0.0) else VolumeChange(trades[i], trades[i - 1]))
  {
    forall i | 0 <= i < |trades|
      ensures IndicatorRows(trades)[i].previousPrice == (if i == 0 then trades[i].price else trades[i - 1].price)
      ensures IndicatorRows(trades)[i].volumeChange == (if i == 0 then Fin(0.0) else VolumeChange(trades[i], trades[i - 1]))
    {
      var marketData := TableMarketData(trades, trades[i], i);
      assert IndicatorRows(trades)[i] == IndicatorProps(trades[i].price, marketData.previousPrice, trades[i].usdtAmount, marketData.volumeChange);
    }
  }
}
