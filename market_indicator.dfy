/**
 * frontend/src/components/MarketIndicator/index.jsx: the values the
 * indicator derives from its props before rendering them: the percent change
 * of the price, the bullish and bearish flags, the two volume bars and the
 * volume status.
 */
module MarketIndicator {
  import opened JsNumber
  import TradeUtils
  import opened InvestmentModels

  datatype VolumeStatus = Bull | Bear | Neutral

  /** What the component computes from `price`, `previousPrice` and `volumeChange`. */
  datatype Indicator = Indicator(
    priceChangePercent: real,
    isBullish: bool,
    isBearish: bool,
    volumeRatio: real,
    bearishVolumeRatio: real,
    volumeStatus: VolumeStatus)

  /** `previousPrice ? (priceChange / previousPrice) * 100 : 0`. */
  function PriceChangePercent(price: real, previousPrice: real): (r: real)
    ensures previousPrice == 0.0 ==> r == 0.0
    ensures previousPrice != 0.0 ==> r * previousPrice == (price - previousPrice) * 100.0
    ensures previousPrice > 0.0 ==> (r > 0.0 <==> price > previousPrice) && (r < 0.0 <==> price < previousPrice)
  {
    if previousPrice != 0.0 then
      var q := (price - previousPrice) / previousPrice;
      assert q * previousPrice == price - previousPrice;
      SignOfQuotient(price - previousPrice, previousPrice);
      q * 100.0
    else 0.0
  }

  lemma SignOfQuotient(x: real, y: real)
    requires y > 0.0 || y < 0.0
    ensures y > 0.0 ==> (x / y > 0.0 <==> x > 0.0) && (x / y < 0.0 <==> x < 0.0)
  {
    if y > 0.0 {
      var q := x / y;
      assert q * y == x;
      if q > 0.0 { assert q * y > 0.0; }
      if q < 0.0 { assert (-q) * y > 0.0; }
    }
  }

  /** `volumeChange > 0 ? Math.min(volumeChange / 100, 1) : 0`: the bull bar's fill. */
  function VolumeRatio(volumeChange: Num): (r: real)
    ensures 0.0 <= r <= 1.0
    ensures !Greater(volumeChange, 0.0) ==> r == 0.0
    ensures volumeChange == PosInf || (volumeChange.Fin? && volumeChange.v >= 100.0) ==> r == 1.0
    ensures volumeChange.Fin? && 0.0 < volumeChange.v < 100.0 ==> r * 100.0 == volumeChange.v
  {
    if Greater(volumeChange, 0.0) then MinOne(Over(volumeChange, 100.0)) else 0.0
  }

  /** `volumeChange < 0 ? Math.min(Math.abs(volumeChange) / 100, 1) : 0`: the bear bar's fill. */
  function BearishVolumeRatio(volumeChange: Num): (r: real)
    ensures 0.0 <= r <= 1.0
    ensures !Less(volumeChange, 0.0) ==> r == 0.0
    ensures volumeChange == NegInf || (volumeChange.Fin? && volumeChange.v <= -100.0) ==> r == 1.0
    ensures volumeChange.Fin? && -100.0 < volumeChange.v < 0.0 ==> r * 100.0 == -volumeChange.v
  {
    if Less(volumeChange, 0.0) then MinOne(Over(Abs(volumeChange), 100.0)) else 0.0
  }

  /** `getVolumeStatus`: a change of more than 20% either way; NaN and exactly ±20 are neutral. */
  function GetVolumeStatus(volumeChange: Num): (r: VolumeStatus)
    ensures r == Bull <==> Greater(volumeChange, 20.0)
    ensures r == Bear <==> Less(volumeChange, -20.0)
    ensures volumeChange == Fin(20.0) || volumeChange == Fin(-20.0) || volumeChange == NaN ==> r == Neutral
  {
    if Greater(volumeChange, 20.0) then Bull
    else if Less(volumeChange, -20.0) then Bear
    else Neutral
  }

  /** The whole indicator. */
  function MarketIndicator(price: real, previousPrice: real, volumeChange: Num): (r: Indicator)
    ensures !(r.isBullish && r.isBearish)
    ensures r.priceChangePercent == 0.0 ==> !r.isBullish && !r.isBearish
    ensures previousPrice > 0.0 ==> (r.isBullish <==> price > previousPrice) && (r.isBearish <==> price < previousPrice)
    ensures r.volumeRatio == 0.0 || r.bearishVolumeRatio == 0.0
    ensures r.volumeStatus == Bull ==> r.volumeRatio > 0.2 && r.bearishVolumeRatio == 0.0
    ensures r.volumeStatus == Bear ==> r.bearishVolumeRatio > 0.2 && r.volumeRatio == 0.0
  {
    var pct := PriceChangePercent(price, previousPrice);
    Indicator(pct, pct > 0.0, pct < 0.0, VolumeRatio(volumeChange), BearishVolumeRatio(volumeChange), GetVolumeStatus(volumeChange))
  }

  /**
   * On a table row the bull and bear bars follow the USDT amounts: with a
   * positive previous amount, the bull bar fills exactly when the amount grew
   * and the bear bar exactly when it shrank.
   */
  lemma RowBarsFollowAmounts(trades: seq<TradeRecord>, i: nat)
    requires 0 < i < |trades|
    requires trades[i - 1].usdtAmount > 0.0
    ensures var row := TradeUtils.IndicatorRows(trades)[i];
      var ind := MarketIndicator(row.price, row.previousPrice, row.volumeChange);
      && (ind.volumeRatio > 0.0 <==> trades[i].usdtAmount > trades[i - 1].usdtAmount)
      && (ind.bearishVolumeRatio > 0.0 <==> trades[i].usdtAmount < trades[i - 1].usdtAmount)
  {
    TradeUtils.IndicatorRowsFacts(trades);
    TradeUtils.VolumeChangeFacts(trades[i], trades[i - 1]);
  }
}
