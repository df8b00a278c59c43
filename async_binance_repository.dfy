/**
 * The AsyncBinanceRepository: the interval table, the split of a time range
 * into chunks of at most 1000 candles, the merge and sort of the chunk
 * results, the 24-hour statistics of a symbol and the sorted list of USDT
 * pairs with their statistics. The concurrent requests are a function
 * parameter: what each chunk request returned, None where it raised.
 */
module AsyncBinanceRepository {
  import opened Wrappers
  import opened InvestmentModels
  import Text
  import Sorting
  import Sequences
  import BinanceRepository

  const ChunkSize: int := 1000
  const DayMs: int := 24 * 60 * 60 * 1000

  /** `_get_interval_ms`: the six known intervals, and one minute for any other. */
  function GetIntervalMs(interval: string): (ms: int)
    ensures ms > 0
    ensures interval == "1m" ==> ms == 60000
    ensures interval == "5m" ==> ms == 300000
    ensures interval == "15m" ==> ms == 900000
    ensures interval == "1h" ==> ms == 3600000
    ensures interval == "4h" ==> ms == 14400000
    ensures interval == "1d" ==> ms == 86400000
    ensures interval !in ["1m", "5m", "15m", "1h", "4h", "1d"] ==> ms == 60000
  {
    var intervalMap := map["1m" := 60 * 1000, "5m" := 5 * 60 * 1000, "15m" := 15 * 60 * 1000,
                           "1h" := 60 * 60 * 1000, "4h" := 4 * 60 * 60 * 1000, "1d" := 24 * 60 * 60 * 1000];
    if interval in intervalMap then intervalMap[interval] else 60 * 1000
  }

  /** `get_price_data_chunk`: a status other than 200, or anything that raises, yields []. */
  function GetPriceDataChunk(response: Option<BinanceRepository.KlineResponse>, toFloat: BinanceRepository.Json -> Option<real>): (data: seq<Candle>)
    ensures response.None? || response.value.status != 200 || response.value.body.None? ==> data == []
    ensures response.Some? && response.value.status == 200 && response.value.body.Some? ==>
      data == match BinanceRepository.ParseAll(response.value.body.value, toFloat) case Some(cs) => cs case None => []
  {
    match response
    case None => []
    case Some(resp) =>
      if resp.status != 200 || resp.body.None? then []
      else match BinanceRepository.ParseAll(resp.body.value, toFloat)
        case Some(cs) => cs
        case None => []
  }

  // ---------------------------------------------------------------------------
  // Chunks

  /** The windows the chunk loop builds from `current` on, each `width` wide or cut at the end. */
  function Chunks(current: int, endTime: int, width: int): seq<(int, int)>
    requires width > 0
    decreases endTime - current
  {
    if current >= endTime then []
    else
      var chunkEnd := if current + width < endTime then current + width else endTime;
      [(current, chunkEnd)] + Chunks(chunkEnd, endTime, width)
  }

  /**
   * The windows cover `[current, endTime)` without gap or overlap: each is
   * non-empty and at most `width` wide, the first starts at `current` and
   * the last ends at `endTime`.
   */
  lemma {:induction false} ChunksFacts(current: int, endTime: int, width: int)
    requires width > 0
    ensures var cs := Chunks(current, endTime, width);
      && (cs == [] <==> current >= endTime)
      && (cs != [] ==> cs[0].0 == current && cs[|cs| - 1].1 == endTime)
      && (forall k :: 0 <= k < |cs| ==> cs[k].0 < cs[k].1 <= cs[k].0 + width)
      && (forall k :: 0 <= k < |cs| - 1 ==> cs[k].1 == cs[k + 1].0)
    decreases endTime - current
  {
    if current < endTime {
      var chunkEnd := if current + width < endTime then current + width else endTime;
      ChunksFacts(chunkEnd, endTime, width);
      var cs := Chunks(current, endTime, width);
      assert forall k :: 1 <= k < |cs| ==> cs[k] == Chunks(chunkEnd, endTime, width)[k - 1];
    }
  }

  /** The chunk loop of `get_historical_price_data_parallel`. */
  method SplitChunks(startTime: int, endTime: int, intervalMs: int) returns (chunks: seq<(int, int)>)
    requires intervalMs > 0
    ensures chunks == Chunks(startTime, endTime, ChunkSize * intervalMs)
  {
    chunks := [];
    var currentStart := startTime;
    while currentStart < endTime
      invariant chunks + Chunks(currentStart, endTime, ChunkSize * intervalMs) == Chunks(startTime, endTime, ChunkSize * intervalMs)
      decreases endTime - currentStart
    {
      var chunkEnd := if currentStart + ChunkSize * intervalMs < endTime then currentStart + ChunkSize * intervalMs else endTime;
      ghost var rest := Chunks(chunkEnd, endTime, ChunkSize * intervalMs);
      assert chunks + ([(currentStart, chunkEnd)] + rest) == (chunks + [(currentStart, chunkEnd)]) + rest;
      chunks := chunks + [(currentStart, chunkEnd)];
      currentStart := chunkEnd;
    }
  }

  // ---------------------------------------------------------------------------
  // Merge and sort

  /** The candles of the results that are lists, in chunk order. */
  function Merged(results: seq<Option<seq<Candle>>>): seq<Candle> {
    if results == [] then []
    else
      var last := results[|results| - 1];
      Merged(results[..|results| - 1]) + (if last.Some? then last.value else [])
  }

  /** A candle is merged exactly when it is in one of the results that are lists. */
  lemma {:induction false} MergedFacts(results: seq<Option<seq<Candle>>>)
    ensures forall c :: c in Merged(results) <==> exists k :: 0 <= k < |results| && results[k].Some? && c in results[k].value
  {
    if results != [] {
      var n := |results|;
      var pre := results[..n - 1];
      MergedFacts(pre);
      assert forall k :: 0 <= k < n - 1 ==> pre[k] == results[k];
      forall c | c in Merged(results)
        ensures exists k :: 0 <= k < n && results[k].Some? && c in results[k].value
      {
        if c in Merged(pre) {
          var k :| 0 <= k < n - 1 && pre[k].Some? && c in pre[k].value;
          assert results[k] == pre[k];
        }
      }
      forall c | exists k :: 0 <= k < n && results[k].Some? && c in results[k].value
        ensures c in Merged(results)
      {
        var k :| 0 <= k < n && results[k].Some? && c in results[k].value;
        if k < n - 1 {
          assert pre[k] == results[k];
        }
      }
    }
  }

  /** The merge loop over the gathered results; a result that is an exception is dropped. */
  method MergeResults(results: seq<Option<seq<Candle>>>) returns (allData: seq<Candle>)
    ensures allData == Merged(results)
  {
    allData := [];
    var i := 0;
    while i < |results|
      invariant 0 <= i <= |results|
      invariant allData == Merged(results[..i])
    {
      assert results[..i + 1][..i] == results[..i];
      if results[i].Some? {
        allData := allData + results[i].value;
      }
      i := i + 1;
    }
    assert results[..i] == results;
  }

  function CandleTime(c: Candle): int {
    c.timestamp
  }

  predicate IntLeq(a: int, b: int) {
    a <= b
  }

  /** `sorted(all_data, key=lambda x: x["timestamp"])`. */
  function SortByTimestamp(data: seq<Candle>): seq<Candle> {
    Sorting.SortBy(data, CandleTime, IntLeq)
  }

  /** The sorted list is a permutation of the collected candles, in timestamp order. */
  lemma SortByTimestampFacts(data: seq<Candle>)
    ensures multiset(SortByTimestamp(data)) == multiset(data)
    ensures forall i, j :: 0 <= i < j < |SortByTimestamp(data)| ==> SortByTimestamp(data)[i].timestamp <= SortByTimestamp(data)[j].timestamp
  {
    assert Sorting.TotalPreorder(IntLeq);
    Sorting.SortBySorted(data, CandleTime, IntLeq);
    Sorting.SortByPermutes(data, CandleTime, IntLeq);
  }

  /**
   * What `get_historical_price_data_parallel` returns, None where it raises:
   * a range of at most 1000 candles is one request at the start time;
   * a longer one is one request per chunk, merged and sorted.
   */
  function ParallelHistory(fetchChunk: (int, int, string, string) -> Option<seq<Candle>>,
                           startTime: int, endTime: int, symbol: string, interval: string): Option<seq<Candle>>
  {
    var intervalMs := GetIntervalMs(interval);
    if (endTime - startTime) / intervalMs <= ChunkSize then fetchChunk(startTime, ChunkSize, symbol, interval)
    else
      var chunks := Chunks(startTime, endTime, ChunkSize * intervalMs);
      var results := seq(|chunks|, k requires 0 <= k < |chunks| => fetchChunk(chunks[k].0, ChunkSize, symbol, interval));
      Some(SortByTimestamp(Merged(results)))
  }

  /** `get_historical_price_data_parallel`. */
  method GetHistoricalPriceDataParallel(fetchChunk: (int, int, string, string) -> Option<seq<Candle>>,
                                        startTime: int, endTime: int, symbol: string, interval: string)
    returns (r: Option<seq<Candle>>)
    ensures r == ParallelHistory(fetchChunk, startTime, endTime, symbol, interval)
  {
    var intervalMs := GetIntervalMs(interval);
    var totalDuration := endTime - startTime;
    // Dafny's `/` with a positive divisor is Python's floor division `//`
    var totalCandles := totalDuration / intervalMs;
    if totalCandles <= ChunkSize {
      return fetchChunk(startTime, ChunkSize, symbol, interval);
    }
    var chunks := SplitChunks(startTime, endTime, intervalMs);
    var tasks: seq<Option<seq<Candle>>> := [];
    var k := 0;
    while k < |chunks|
      invariant 0 <= k <= |chunks|
      invariant tasks == seq(k, j requires 0 <= j < k => fetchChunk(chunks[j].0, ChunkSize, symbol, interval))
    {
      tasks := tasks + [fetchChunk(chunks[k].0, ChunkSize, symbol, interval)];
      k := k + 1;
    }
    var allData := MergeResults(tasks);
    r := Some(SortByTimestamp(allData));
  }

  /**
   * A range of at most 1000 candles is the single request's result; a
   * longer range never raises, and returns exactly the candles of the chunk
   * results that are lists, sorted by timestamp.
   */
  lemma ParallelHistoryFacts(fetchChunk: (int, int, string, string) -> Option<seq<Candle>>,
                             startTime: int, endTime: int, symbol: string, interval: string)
    ensures (endTime - startTime) / GetIntervalMs(interval) <= ChunkSize ==>
      ParallelHistory(fetchChunk, startTime, endTime, symbol, interval) == fetchChunk(startTime, ChunkSize, symbol, interval)
    ensures (endTime - startTime) / GetIntervalMs(interval) > ChunkSize ==>
      var chunks := Chunks(startTime, endTime, ChunkSize * GetIntervalMs(interval));
      var r := ParallelHistory(fetchChunk, startTime, endTime, symbol, interval);
      && r.Some?
      && (forall i, j :: 0 <= i < j < |r.value| ==> r.value[i].timestamp <= r.value[j].timestamp)
      && (forall c :: c in r.value <==>
            (exists k :: 0 <= k < |chunks| && fetchChunk(chunks[k].0, ChunkSize, symbol, interval).Some? &&
                         c in fetchChunk(chunks[k].0, ChunkSize, symbol, interval).value))
  {
    var intervalMs := GetIntervalMs(interval);
    if (endTime - startTime) / intervalMs > ChunkSize {
      var chunks := Chunks(startTime, endTime, ChunkSize * intervalMs);
      var results := seq(|chunks|, k requires 0 <= k < |chunks| => fetchChunk(chunks[k].0, ChunkSize, symbol, interval));
      assert forall k :: 0 <= k < |chunks| ==> results[k] == fetchChunk(chunks[k].0, ChunkSize, symbol, interval);
      MergedFacts(results);
      SortByTimestampFacts(Merged(results));
      var sorted := SortByTimestamp(Merged(results));
      forall c
        ensures c in sorted <==> c in Merged(results)
      {
        assert c in sorted <==> c in multiset(sorted);
      }
    }
  }

  // ---------------------------------------------------------------------------
  // 24-hour statistics

  /** The dictionary `get_symbol_24h_data` returns. */
  datatype SymbolStats = SymbolStats(
    symbol: string,
    price: real,
    priceChange: real,
    priceChangePercent: real,
    high24h: real,
    low24h: real,
    volume: real,
    openPrice: real,
    closePrice: real,
    candleCount: nat)

  function MaxHigh(data: seq<Candle>): (m: real)
    requires data != []
    ensures forall i :: 0 <= i < |data| ==> data[i].high <= m
    ensures exists i :: 0 <= i < |data| && data[i].high == m
  {
    if |data| == 1 then data[0].high
    else
      var rest := MaxHigh(data[1..]);
      assert forall i :: 1 <= i < |data| ==> data[i] == data[1..][i - 1];
      if data[0].high >= rest then data[0].high else rest
  }

  function MinLow(data: seq<Candle>): (m: real)
    requires data != []
    ensures forall i :: 0 <= i < |data| ==> m <= data[i].low
    ensures exists i :: 0 <= i < |data| && data[i].low == m
  {
    if |data| == 1 then data[0].low
    else
      var rest := MinLow(data[1..]);
      assert forall i :: 1 <= i < |data| ==> data[i] == data[1..][i - 1];
      if data[0].low <= rest then data[0].low else rest
  }

  function SumVolume(data: seq<Candle>): real {
    if data == [] then 0.0 else data[0].volume + SumVolume(data[1..])
  }

  /** The statistics of a non-empty candle list: the first open against the last close. */
  function Stats(symbol: string, data: seq<Candle>): SymbolStats
    requires data != []
  {
    var firstPrice := data[0].open;
    var lastPrice := data[|data| - 1].close;
    var priceChange := lastPrice - firstPrice;
    SymbolStats(
      symbol := symbol,
      price := lastPrice,
      priceChange := priceChange,
      priceChangePercent := if firstPrice > 0.0 then priceChange / firstPrice * 100.0 else 0.0,
      high24h := MaxHigh(data),
      low24h := MinLow(data),
      volume := SumVolume(data),
      openPrice := firstPrice,
      closePrice := lastPrice,
      candleCount := |data|)
  }

  /** The high is the greatest high, the low the least low; the change is relative to the first open, 0 on a first open ≤ 0. */
  lemma StatsFacts(symbol: string, data: seq<Candle>)
    requires data != []
    ensures var st := Stats(symbol, data);
      && st.symbol == symbol && st.candleCount == |data|
      && (forall i :: 0 <= i < |data| ==> st.low24h <= data[i].low && data[i].high <= st.high24h)
      && (exists i :: 0 <= i < |data| && data[i].high == st.high24h)
      && (exists i :: 0 <= i < |data| && data[i].low == st.low24h)
      && st.volume == SumVolume(data)
      && st.openPrice + st.priceChange == st.closePrice
      && (st.openPrice > 0.0 ==> st.openPrice * st.priceChangePercent == st.priceChange * 100.0)
      && (st.openPrice <= 0.0 ==> st.priceChangePercent == 0.0)
  {
    var st := Stats(symbol, data);
    if st.openPrice > 0.0 {
      assert st.openPrice * (st.priceChange / st.openPrice) == st.priceChange;
    }
  }

  /**
   * `get_symbol_24h_data` at time `now` (milliseconds): the 1h candles of the
   * preceding 24 hours; None when there are none or the request raised.
   */
  function Symbol24hData(fetchChunk: (int, int, string, string) -> Option<seq<Candle>>, symbol: string, now: int): Option<SymbolStats> {
    match ParallelHistory(fetchChunk, now - DayMs, now, symbol, "1h")
    case None => None
    case Some(data) => if data == [] then None else Some(Stats(symbol, data))
  }

  /** The 24 hours are 24 one-hour candles, so the statistics come from one request at `now` − 24h. */
  lemma Symbol24hSingleRequest(fetchChunk: (int, int, string, string) -> Option<seq<Candle>>, symbol: string, now: int)
    ensures var single := fetchChunk(now - DayMs, ChunkSize, symbol, "1h");
      Symbol24hData(fetchChunk, symbol, now) ==
        if single.None? || single.value == [] then None else Some(Stats(symbol, single.value))
    ensures Symbol24hData(fetchChunk, symbol, now).Some? ==> Symbol24hData(fetchChunk, symbol, now).value.symbol == symbol
  {
    assert GetIntervalMs("1h") == 3600000;
    assert (now - (now - DayMs)) / 3600000 == 24;
  }

  // ---------------------------------------------------------------------------
  // The symbol list

  predicate SymbolLeq(a: string, b: string) {
    Text.LexLeq(a, b)
  }

  function StatsSymbol(st: SymbolStats): string {
    st.symbol
  }

  function ValidResults(results: seq<Option<SymbolStats>>): seq<SymbolStats> {
    if results == [] then []
    else (if results[0].Some? then [results[0].value] else []) + ValidResults(results[1..])
  }

  lemma {:induction false} ValidResultsMembers(results: seq<Option<SymbolStats>>, st: SymbolStats)
    ensures st in ValidResults(results) <==> Some(st) in results
  {
    if results != [] {
      ValidResultsMembers(results[1..], st);
      assert results == [results[0]] + results[1..];
    }
  }

  /**
   * `get_available_symbols`: None is an exchange-info request that raised;
   * a status other than 200 yields []. Every trading USDT pair that has
   * statistics appears, sorted by symbol.
   */
  function GetAvailableSymbols(fetchChunk: (int, int, string, string) -> Option<seq<Candle>>, now: int,
                               exchangeInfo: Option<(int, seq<BinanceRepository.SymbolInfo>)>): seq<SymbolStats>
  {
    match exchangeInfo
    case None => []
    case Some((status, infos)) =>
      if status != 200 then []
      else
        var usdtSymbols := BinanceRepository.UsdtTradingSymbols(infos);
        var results := seq(|usdtSymbols|, k requires 0 <= k < |usdtSymbols| => Symbol24hData(fetchChunk, usdtSymbols[k], now));
        Sorting.SortBy(ValidResults(results), StatsSymbol, SymbolLeq)
  }

  lemma SymbolLeqTotal()
    ensures Sorting.TotalPreorder(SymbolLeq)
  {
    forall a, b
      ensures SymbolLeq(a, b) || SymbolLeq(b, a)
    {
      Text.LexTotal(a, b);
    }
    forall a, b, c | SymbolLeq(a, b) && SymbolLeq(b, c)
      ensures SymbolLeq(a, c)
    {
      Text.LexTransitive(a, b, c);
    }
  }

  /**
   * The list is sorted by symbol, and holds exactly the statistics of the
   * trading USDT pairs for which there were any; a failed request or a
   * status other than 200 gives [].
   */
  lemma AvailableSymbolsFacts(fetchChunk: (int, int, string, string) -> Option<seq<Candle>>, now: int,
                              exchangeInfo: Option<(int, seq<BinanceRepository.SymbolInfo>)>)
    ensures exchangeInfo.None? || exchangeInfo.value.0 != 200 ==> GetAvailableSymbols(fetchChunk, now, exchangeInfo) == []
    ensures var r := GetAvailableSymbols(fetchChunk, now, exchangeInfo);
      && (forall i, j :: 0 <= i < j < |r| ==> Text.LexLeq(r[i].symbol, r[j].symbol))
      && (exchangeInfo.Some? && exchangeInfo.value.0 == 200 ==>
            forall st :: st in r <==> exists name :: name in BinanceRepository.UsdtTradingSymbols(exchangeInfo.value.1) &&
                                                      Symbol24hData(fetchChunk, name, now) == Some(st))
  {
    if exchangeInfo.Some? && exchangeInfo.value.0 == 200 {
      var infos := exchangeInfo.value.1;
      var usdtSymbols := BinanceRepository.UsdtTradingSymbols(infos);
      var results := seq(|usdtSymbols|, k requires 0 <= k < |usdtSymbols| => Symbol24hData(fetchChunk, usdtSymbols[k], now));
      var valid := ValidResults(results);
      var r := GetAvailableSymbols(fetchChunk, now, exchangeInfo);
      assert r == Sorting.SortBy(valid, StatsSymbol, SymbolLeq);
      SymbolLeqTotal();
      Sorting.SortBySorted(valid, StatsSymbol, SymbolLeq);
      Sorting.SortByPermutes(valid, StatsSymbol, SymbolLeq);
      forall st
        ensures st in r <==> exists name :: name in usdtSymbols && Symbol24hData(fetchChunk, name, now) == Some(st)
      {
        assert st in r <==> st in multiset(r);
        assert st in r <==> st in valid;
        ResultsMembers(fetchChunk, now, usdtSymbols, st);
      }
    }
  }

  lemma ResultsMembers(fetchChunk: (int, int, string, string) -> Option<seq<Candle>>, now: int, names: seq<string>, st: SymbolStats)
    ensures var results := seq(|names|, k requires 0 <= k < |names| => Symbol24hData(fetchChunk, names[k], now));
      st in ValidResults(results) <==> exists name :: name in names && Symbol24hData(fetchChunk, name, now) == Some(st)
  {
    var results := seq(|names|, k requires 0 <= k < |names| => Symbol24hData(fetchChunk, names[k], now));
    ValidResultsMembers(results, st);
    if Some(st) in results {
      var k :| 0 <= k < |results| && results[k] == Some(st);
      assert names[k] in names;
    }
    if exists name :: name in names && Symbol24hData(fetchChunk, name, now) == Some(st) {
      var name :| name in names && Symbol24hData(fetchChunk, name, now) == Some(st);
      var k :| 0 <= k < |names| && names[k] == name;
      assert results[k] == Some(st);
    }
  }
}
