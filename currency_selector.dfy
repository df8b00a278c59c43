/**
 * frontend/src/components/CurrencySelector/index.jsx: the list shown from the
 * backend's symbol statistics, the search filter over it, the volume label's
 * suffix and the rule that selects the first symbol when nothing is selected.
 */
module CurrencySelector {
  import opened Wrappers
  import opened Text
  import Sequences
  import AsyncBinanceRepository

  type SymbolEntry = AsyncBinanceRepository.SymbolStats

  /** `setSymbols(data.symbols || [])`: a response without a list shows nothing. */
  function ShownSymbols(responseSymbols: Option<seq<SymbolEntry>>): seq<SymbolEntry> {
    match responseSymbols
    case Some(list) => list
    case None => []
  }

  /** The search predicate: the lower-cased symbol contains the lower-cased term. */
  predicate Matches(searchTerm: string, entry: SymbolEntry) {
    Includes(ToLower(entry.symbol), ToLower(searchTerm))
  }

  /** `filteredSymbols`. */
  function FilteredSymbols(symbols: seq<SymbolEntry>, searchTerm: string): seq<SymbolEntry> {
    Sequences.Filter(symbols, entry => Matches(searchTerm, entry))
  }

  /**
   * The filter keeps, in order, exactly the entries whose lower-cased symbol
   * contains the lower-cased term somewhere; an empty term keeps them all.
   */
  lemma FilteredSymbolsFacts(symbols: seq<SymbolEntry>, searchTerm: string)
    ensures Sequences.Subsequence(FilteredSymbols(symbols, searchTerm), symbols)
    ensures forall e :: e in FilteredSymbols(symbols, searchTerm) <==>
      e in symbols && exists i :: OccursAt(ToLower(searchTerm), ToLower(e.symbol), i)
    ensures searchTerm == "" ==> FilteredSymbols(symbols, searchTerm) == symbols
  {
    var keep := (entry: SymbolEntry) => Matches(searchTerm, entry);
    Sequences.FilterFacts(symbols, keep);
    forall e: SymbolEntry
      ensures keep(e) <==> exists i :: OccursAt(ToLower(searchTerm), ToLower(e.symbol), i)
    {
      IncludesIffOccurs(ToLower(e.symbol), ToLower(searchTerm));
    }
    if searchTerm == "" {
      forall i | 0 <= i < |symbols|
        ensures keep(symbols[i])
      {
        assert ToLower(searchTerm) == "";
        IncludesEmpty(ToLower(symbols[i].symbol));
      }
      Sequences.FilterKeepsAll(symbols, keep);
    }
  }

  /** The filter ignores the case of ASCII letters: "eth" and "ETH" keep the same entries. */
  lemma FilterIgnoresCase(symbols: seq<SymbolEntry>, a: string, b: string)
    requires ToLower(a) == ToLower(b)
    ensures FilteredSymbols(symbols, a) == FilteredSymbols(symbols, b)
  {
    var ka := (entry: SymbolEntry) => Matches(a, entry);
    var kb := (entry: SymbolEntry) => Matches(b, entry);
    Sequences.FilterAgree(symbols, ka, kb);
  }

  /** The volume label: the scaled value (printed with `toFixed(2)`) and its suffix. */
  datatype VolumeLabel = VolumeLabel(scaled: real, suffix: string)

  /** `formatVolume`. */
  function FormatVolume(volume: real): (r: VolumeLabel)
    ensures r.suffix == "M" <==> volume >= 1000000.0
    ensures r.suffix == "K" <==> 1000.0 <= volume < 1000000.0
    ensures r.suffix == "" <==> volume < 1000.0
    ensures r.scaled * (if r.suffix == "M" then 1000000.0 else if r.suffix == "K" then 1000.0 else 1.0) == volume
    ensures r.suffix != "" ==> 1.0 <= r.scaled
    ensures r.suffix == "K" ==> r.scaled < 1000.0
  {
    if volume >= 1000000.0 then VolumeLabel(volume / 1000000.0, "M")
    else if volume >= 1000.0 then VolumeLabel(volume / 1000.0, "K")
    else VolumeLabel(volume, "")
  }

  /**
   * The symbol `onSymbolChange` is called with after loading: the first one,
   * only when the response has a non-empty list and nothing is selected
   * (an absent or empty selection is falsy).
   */
  function AutoSelect(responseSymbols: Option<seq<SymbolEntry>>, selectedSymbol: Option<string>): (r: Option<string>)
    ensures r.Some? <==> responseSymbols.Some? && |responseSymbols.value| > 0 && (selectedSymbol.None? || selectedSymbol.value == "")
    ensures r.Some? ==> r.value == ShownSymbols(responseSymbols)[0].symbol
  {
    if responseSymbols.Some? && |responseSymbols.value| > 0 && (selectedSymbol.None? || selectedSymbol.value == "") then
      Some(responseSymbols.value[0].symbol)
    else None
  }

  /** The symbol auto-selected is one the selector lists under an empty search. */
  lemma AutoSelectIsListed(responseSymbols: Option<seq<SymbolEntry>>, selectedSymbol: Option<string>)
    requires AutoSelect(responseSymbols, selectedSymbol).Some?
    ensures exists e :: (e in FilteredSymbols(ShownSymbols(responseSymbols), "") &&
                          e.symbol == AutoSelect(responseSymbols, selectedSymbol).value)
  {
    var shown := ShownSymbols(responseSymbols);
    FilteredSymbolsFacts(shown, "");
    assert shown[0] in FilteredSymbols(shown, "");
  }
}
