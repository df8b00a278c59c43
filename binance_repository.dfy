/**
 * The synchronous BinanceRepository: kline parsing, the pagination loop that
 * collects a price history page by page, and the USDT symbol filter. The
 * HTTP call is a parameter: a page is what the request returned, and the
 * page fetch of the pagination loop is a function of the start time.
 */
module BinanceRepository {
  import opened Wrappers
  import opened InvestmentModels
  import Text
  import Sequences

  // ---------------------------------------------------------------------------
  // Klines

  /** A JSON value as `response.json()` returns it. */
  datatype Json = JInt(i: int) | JNum(r: real) | JStr(s: string) | JOther

  /**
   * An HTTP response: its status, and its body when the body is a JSON list
   * of lists (None when `response.json()` fails or returns something else).
   */
  datatype KlineResponse = KlineResponse(status: int, body: Option<seq<seq<Json>>>)

  /**
   * One kline as `get_price_data` reads it: the open time at index 0, the
   * four prices and the volume at indexes 1 to 5 through `float()`, the close
   * time at index 6. `toFloat` is Python's `float()`, None where it raises.
   */
  function ParseKline(k: seq<Json>, toFloat: Json -> Option<real>): (r: Option<Candle>)
    ensures r.Some? <==> (|k| >= 7 && k[0].JInt? && k[6].JInt? &&
      toFloat(k[1]).Some? && toFloat(k[2]).Some? && toFloat(k[3]).Some? && toFloat(k[4]).Some? && toFloat(k[5]).Some?)
    ensures r.Some? ==> (r.value.timestamp == k[0].i && r.value.closeTime == k[6].i &&
      Some(r.value.open) == toFloat(k[1]) && Some(r.value.high) == toFloat(k[2]) && Some(r.value.low) == toFloat(k[3]) &&
      Some(r.value.close) == toFloat(k[4]) && Some(r.value.volume) == toFloat(k[5]))
  {
    if |k| < 7 || !k[0].JInt? || !k[6].JInt? then None
    else
      var o, h, l, c, v := toFloat(k[1]), toFloat(k[2]), toFloat(k[3]), toFloat(k[4]), toFloat(k[5]);
      if o.Some? && h.Some? && l.Some? && c.Some? && v.Some? then
        Some(Candle(k[0].i, o.value, h.value, l.value, c.value, v.value, k[6].i))
      else None
  }

  /** The loop over the klines; any kline that raises aborts it. */
  function ParseAll(klines: seq<seq<Json>>, toFloat: Json -> Option<real>): Option<seq<Candle>> {
    if klines == [] then Some([])
    else
      match ParseAll(klines[..|klines| - 1], toFloat)
      case None => None
      case Some(cs) =>
        match ParseKline(klines[|klines| - 1], toFloat)
        case None => None
        case Some(c) => Some(cs + [c])
  }

  /** Parsing succeeds exactly when every kline parses, and yields one candle per kline, in order. */
  lemma {:induction false} ParseAllFacts(klines: seq<seq<Json>>, toFloat: Json -> Option<real>)
    ensures ParseAll(klines, toFloat).Some? <==> forall i :: 0 <= i < |klines| ==> ParseKline(klines[i], toFloat).Some?
    ensures ParseAll(klines, toFloat).Some? ==>
      var cs := ParseAll(klines, toFloat).value;
      |cs| == |klines| && forall i :: 0 <= i < |klines| ==> Some(cs[i]) == ParseKline(klines[i], toFloat)
  {
    if klines != [] {
      var n := |klines|;
      var pre := klines[..n - 1];
      ParseAllFacts(pre, toFloat);
      assert forall i :: 0 <= i < n - 1 ==> pre[i] == klines[i];
    }
  }

  lemma {:induction false} ParseAllAborts(klines: seq<seq<Json>>, toFloat: Json -> Option<real>, n: nat)
    requires n <= |klines| && ParseAll(klines[..n], toFloat).None?
    ensures ParseAll(klines, toFloat).None?
    decreases |klines| - n
  {
    if n < |klines| {
      assert klines[..n + 1][..n] == klines[..n];
      ParseAllAborts(klines, toFloat, n + 1);
    } else {
      assert klines[..n] == klines;
    }
  }

  /** The parse loop on a body that is a list of klines; [] when some kline raises. */
  method ParseKlines(klines: seq<seq<Json>>, toFloat: Json -> Option<real>) returns (data: seq<Candle>)
    ensures data == match ParseAll(klines, toFloat) case Some(cs) => cs case None => []
  {
    data := [];
    var i := 0;
    while i < |klines|
      invariant 0 <= i <= |klines|
      invariant ParseAll(klines[..i], toFloat) == Some(data)
    {
      assert klines[..i + 1][..i] == klines[..i];
      var priceData := ParseKline(klines[i], toFloat);
      if priceData.None? {
        ParseAllAborts(klines, toFloat, i + 1);
        return [];
      }
      data := data + [priceData.value];
      i := i + 1;
    }
    assert klines[..i] == klines;
  }

  /**
   * `get_price_data`: None is a request that raised; `raise_for_status`
   * raises on a 4xx or 5xx status; every failure yields [].
   */
  method GetPriceData(response: Option<KlineResponse>, toFloat: Json -> Option<real>) returns (data: seq<Candle>)
    ensures response.None? ==> data == []
    ensures response.Some? && 400 <= response.value.status < 600 ==> data == []
    ensures response.Some? && response.value.body.None? ==> data == []
    ensures response.Some? && !(400 <= response.value.status < 600) && response.value.body.Some? ==>
      data == match ParseAll(response.value.body.value, toFloat) case Some(cs) => cs case None => []
  {
    if response.None? || 400 <= response.value.status < 600 || response.value.body.None? {
      return [];
    }
    data := ParseKlines(response.value.body.value, toFloat);
  }

  // ---------------------------------------------------------------------------
  // Pagination

  /** Python's `max(item["timestamp"] for item in data)`. */
  function MaxTimestamp(data: seq<Candle>): (m: int)
    requires data != []
    ensures forall c :: c in data ==> c.timestamp <= m
    ensures exists c :: c in data && c.timestamp == m
  {
    if |data| == 1 then
      assert data[0] in data;
      data[0].timestamp
    else
      var rest := MaxTimestamp(data[1..]);
      assert forall c :: c in data ==> c == data[0] || c in data[1..];
      if data[0].timestamp >= rest then data[0].timestamp else rest
  }

  /**
   * Binance returns candles that open at or after the requested start time;
   * the loop relies on it to make progress.
   */
  ghost predicate StartsAtOrAfter(getPriceData: (int, int, string, string) -> seq<Candle>,
                                  limit: int, symbol: string, interval: string) {
    forall t: int, c: Candle :: c in getPriceData(t, limit, symbol, interval) ==> t <= c.timestamp
  }

  /** The history the loop collects from `currentStart` on: pages until the end time or an empty page. */
  function Paginate(getPriceData: (int, int, string, string) -> seq<Candle>, currentStart: int, endTime: int,
                    limit: int, symbol: string, interval: string): seq<Candle>
    requires StartsAtOrAfter(getPriceData, limit, symbol, interval)
    decreases endTime - currentStart
  {
    if currentStart >= endTime then []
    else
      var data := getPriceData(currentStart, limit, symbol, interval);
      if data == [] then []
      else
        assert data[0] in data;
        data + Paginate(getPriceData, MaxTimestamp(data) + 1, endTime, limit, symbol, interval)
  }

  /** `get_historical_price_data`. */
  method GetHistoricalPriceData(getPriceData: (int, int, string, string) -> seq<Candle>, startTime: int, endTime: int,
                                limit: int, symbol: string, interval: string) returns (historyList: seq<Candle>)
    requires StartsAtOrAfter(getPriceData, limit, symbol, interval)
    ensures historyList == Paginate(getPriceData, startTime, endTime, limit, symbol, interval)
  {
    historyList := [];
    var currentStart := startTime;
    while currentStart < endTime
      invariant historyList + Paginate(getPriceData, currentStart, endTime, limit, symbol, interval)
             == Paginate(getPriceData, startTime, endTime, limit, symbol, interval)
      decreases endTime - currentStart
    {
      var data := getPriceData(currentStart, limit, symbol, interval);
      if data == [] {
        break;
      }
      assert data[0] in data;
      var maxUnixtime := MaxTimestamp(data);
      assert currentStart <= data[0].timestamp <= maxUnixtime;
      ghost var rest := Paginate(getPriceData, maxUnixtime + 1, endTime, limit, symbol, interval);
      assert Paginate(getPriceData, currentStart, endTime, limit, symbol, interval) == data + rest;
      assert historyList + (data + rest) == (historyList + data) + rest;
      currentStart := maxUnixtime + 1;
      historyList := historyList + data;
    }
  }

  /** Every collected candle opens at or after the start time. */
  lemma {:induction false} PaginateBounds(getPriceData: (int, int, string, string) -> seq<Candle>, currentStart: int,
                                          endTime: int, limit: int, symbol: string, interval: string)
    requires StartsAtOrAfter(getPriceData, limit, symbol, interval)
    ensures forall c :: c in Paginate(getPriceData, currentStart, endTime, limit, symbol, interval) ==> currentStart <= c.timestamp
    decreases endTime - currentStart
  {
    if currentStart < endTime {
      var data := getPriceData(currentStart, limit, symbol, interval);
      if data != [] {
        assert data[0] in data;
        PaginateBounds(getPriceData, MaxTimestamp(data) + 1, endTime, limit, symbol, interval);
      }
    }
  }

  /**
   * The loop stops exactly on a start at or past the end time or an empty
   * page; otherwise the history is the page followed by the rest, and every
   * later candle opens after every candle of the page.
   */
  lemma PaginatePages(getPriceData: (int, int, string, string) -> seq<Candle>, currentStart: int, endTime: int,
                      limit: int, symbol: string, interval: string)
    requires StartsAtOrAfter(getPriceData, limit, symbol, interval)
    ensures var data := getPriceData(currentStart, limit, symbol, interval);
      && (Paginate(getPriceData, currentStart, endTime, limit, symbol, interval) == [] <==> currentStart >= endTime || data == [])
      && (currentStart < endTime && data != [] ==>
            var rest := Paginate(getPriceData, MaxTimestamp(data) + 1, endTime, limit, symbol, interval);
            && Paginate(getPriceData, currentStart, endTime, limit, symbol, interval) == data + rest
            && forall a, b :: a in data && b in rest ==> a.timestamp < b.timestamp)
  {
    var data := getPriceData(currentStart, limit, symbol, interval);
    if currentStart < endTime && data != [] {
      PaginateBounds(getPriceData, MaxTimestamp(data) + 1, endTime, limit, symbol, interval);
    }
  }

  // ---------------------------------------------------------------------------
  // Symbols

  /** An entry of `exchangeInfo`'s `symbols` list. */
  datatype SymbolInfo = SymbolInfo(symbol: string, status: string)

  predicate IsUsdtTrading(info: SymbolInfo) {
    info.status == "TRADING" && Text.EndsWith(info.symbol, "USDT")
  }

  function SymbolNames(infos: seq<SymbolInfo>): seq<string> {
    seq(|infos|, i requires 0 <= i < |infos| => infos[i].symbol)
  }

  /** The comprehension of `get_available_symbols`. */
  function UsdtTradingSymbols(infos: seq<SymbolInfo>): seq<string> {
    SymbolNames(Sequences.Filter(infos, IsUsdtTrading))
  }

  /** `get_available_symbols`: None is an exchange-info request that raised. */
  function GetAvailableSymbols(exchangeInfo: Option<seq<SymbolInfo>>): seq<string> {
    match exchangeInfo
    case None => []
    case Some(infos) => UsdtTradingSymbols(infos)
  }

  /**
   * A failed request yields []; otherwise the result names exactly the
   * trading USDT pairs, in the order of the exchange's list.
   */
  lemma AvailableSymbolsFacts(exchangeInfo: Option<seq<SymbolInfo>>)
    ensures exchangeInfo.None? ==> GetAvailableSymbols(exchangeInfo) == []
    ensures exchangeInfo.Some? ==>
      var infos := exchangeInfo.value;
      var kept := Sequences.Filter(infos, IsUsdtTrading);
      && Sequences.Subsequence(kept, infos)
      && GetAvailableSymbols(exchangeInfo) == SymbolNames(kept)
      && forall name :: name in GetAvailableSymbols(exchangeInfo) <==>
           exists info :: info in infos && IsUsdtTrading(info) && info.symbol == name
  {
    if exchangeInfo.Some? {
      UsdtTradingSymbolsFacts(exchangeInfo.value);
    }
  }

  lemma UsdtTradingSymbolsFacts(infos: seq<SymbolInfo>)
    ensures var kept := Sequences.Filter(infos, IsUsdtTrading);
      && Sequences.Subsequence(kept, infos)
      && forall name :: name in UsdtTradingSymbols(infos) <==>
           exists info :: info in infos && IsUsdtTrading(info) && info.symbol == name
  {
    var kept := Sequences.Filter(infos, IsUsdtTrading);
    Sequences.FilterFacts(infos, IsUsdtTrading);
    forall name | name in UsdtTradingSymbols(infos)
      ensures exists info :: info in infos && IsUsdtTrading(info) && info.symbol == name
    {
      var i :| 0 <= i < |kept| && SymbolNames(kept)[i] == name;
      assert kept[i] in kept;
    }
    forall name | exists info :: info in infos && IsUsdtTrading(info) && info.symbol == name
      ensures name in UsdtTradingSymbols(infos)
    {
      var info :| info in infos && IsUsdtTrading(info) && info.symbol == name;
      assert info in kept;
      var i :| 0 <= i < |kept| && kept[i] == info;
      assert SymbolNames(kept)[i] == name;
    }
  }
}
