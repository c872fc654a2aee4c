/** The exclusion filter applied to cash-journal records (`include_transaction`). */
module Filter {
  import opened Json
  import opened Text

  /** The exclusion texts, written in lower case. */
  const Exclusions: seq<string> := ["transfer", "currency conversion", "wire in"]

  /** `any(e in text for e in texts)`, scanning the texts in order. */
  function AnyContained(text: string, texts: seq<string>): (hit: bool)
    decreases |texts|
  {
    texts != [] && (Contains(text, texts[0]) || AnyContained(text, texts[1..]))
  }

  /** The scan hits exactly when one of the texts occurs in `text`. */
  lemma {:induction false} AnyContainedIff(text: string, texts: seq<string>)
    ensures AnyContained(text, texts) <==> exists j :: 0 <= j < |texts| && Contains(text, texts[j])
    decreases |texts|
  {
    if texts != [] {
      AnyContainedIff(text, texts[1..]);
      if AnyContained(text, texts[1..]) {
        var j :| 0 <= j < |texts| - 1 && Contains(text, texts[1..][j]);
        assert Contains(text, texts[j + 1]);
      }
      if !Contains(text, texts[0]) && !AnyContained(text, texts[1..]) {
        forall j | 0 <= j < |texts| ensures !Contains(text, texts[j]) {
          if j > 0 {
            assert texts[j] == texts[1..][j - 1];
          }
        }
      }
    }
  }

  /** The test on the upper-cased description: some exclusion text occurs in it. */
  predicate Excluded(description: string) {
    AnyContained(Upper(description), Exclusions)
  }

  /** `include_transaction(tx)`: reads `tx['Description']` (a `KeyError` when absent),
      upper-cases it (an `AttributeError` when it is not a string) and keeps the record
      unless an exclusion text occurs in the upper-cased description. */
  function IncludeTransaction(tx: Record): (r: Result<bool>)
    ensures r.Ok? <==> "Description" in tx && tx["Description"].Str?
    ensures "Description" !in tx ==> r == Err(KeyError("Description"))
    ensures "Description" in tx && !tx["Description"].Str? ==> r == Err(AttributeError("upper"))
    ensures r.Ok? ==> (r.value <==> !Excluded(tx["Description"].s))
  {
    if "Description" !in tx then Err(KeyError("Description"))
    else match tx["Description"]
      case Str(d) => Ok(!Excluded(d))
      case _ => Err(AttributeError("upper"))
  }

  /** As written the filter never fires: the description is upper-cased, yet every
      exclusion text holds a lower-case letter, so none can occur in it. */
  lemma NeverExcluded(description: string)
    ensures !Excluded(description)
  {
    var u := Upper(description);
    forall j | 0 <= j < |Exclusions| ensures !Contains(u, Exclusions[j]) {
      assert IsLowerAscii(Exclusions[j][0]);
      NoLowerNoMatch(u, Exclusions[j], 0);
    }
    AnyContainedIff(u, Exclusions);
  }

  /** Hence every record with a string description is included. */
  lemma IncludeTransactionNeverExcludes(tx: Record)
    requires "Description" in tx && tx["Description"].Str?
    ensures IncludeTransaction(tx) == Ok(true)
  {
    NeverExcluded(tx["Description"].s);
  }

  /** A description whose lower-cased form holds "wire in" is still included. */
  lemma WireInIncluded()
    ensures IncludeTransaction(map["Description" := Str("Wire In - ACH")]) == Ok(true)
    ensures IncludeTransaction(map["Description" := Str("WIRE IN - ACH")]) == Ok(true)
  {
    IncludeTransactionNeverExcludes(map["Description" := Str("Wire In - ACH")]);
    IncludeTransactionNeverExcludes(map["Description" := Str("WIRE IN - ACH")]);
  }
}
