/** The request path built by `get_quotes`. */
module Quotes {
  import opened Text

  const ApiUrl := "https://api.tradestation.com/v2"
  const QuotePrefix := ApiUrl + "/data/quote/"

  /** The argument of `get_quotes`: a string, used as it is, or a list of symbols. */
  datatype Symbols = Symbol(text: string) | SymbolList(items: seq<string>)

  /** The argument as it appears in the path: a list is joined with ','. */
  function SymbolsText(symbols: Symbols): string {
    match symbols
    case Symbol(text) => text
    case SymbolList(items) => Join(items, ',')
  }

  function QuotesPath(symbols: Symbols): (path: string)
    ensures |path| >= |QuotePrefix| && path[..|QuotePrefix|] == QuotePrefix
  {
    QuotePrefix + SymbolsText(symbols)
  }

  /** A string argument follows the prefix unchanged. */
  lemma QuotesPathSymbol(text: string)
    ensures QuotesPath(Symbol(text))[|QuotePrefix|..] == text
  {
  }

  /** The symbols of a non-empty list can be read back from the path by splitting at
      ',', provided no symbol holds a comma. */
  lemma QuotesPathListRoundTrip(items: seq<string>)
    requires |items| >= 1
    requires forall j :: 0 <= j < |items| ==> ',' !in items[j]
    ensures Split(QuotesPath(SymbolList(items))[|QuotePrefix|..], ',') == items
  {
    assert QuotesPath(SymbolList(items))[|QuotePrefix|..] == Join(items, ',');
    SplitJoin(items, ',');
  }
}
