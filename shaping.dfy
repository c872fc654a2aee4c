/** How `get_transaction_history` rewrites each fetched record in place before
    appending it: the date, type, description and owning account it stamps on every
    record, and the currency rewrite of cash-journal amounts. */
module Shaping {
  import opened Json
  import opened Text
  import opened Filter

  const CashJournal := "Cash Journal"
  const ClosedPositions := "Closed Positions"
  const FeesAndCommissions := "Fees & Commissions"

  /** The keys every appended record is given. */
  const StampedKeys: set<string> := {"TradeDate", "Type", "Description", "Account"}

  /** The rounded conversion `round(amount * rate, 2)`, where `rate` is the historical
      mid rate from `base` to `quote` on the given formatted date. */
  type Converter = (Value, string, string, string) -> Value

  /** The new description: the type, ": ", and the right-stripped source text. */
  function Describe(kind: string, src: string): (d: string)
    ensures |d| >= |kind| + 2 && d[..|kind|] == kind && d[|kind|..|kind| + 2] == ": "
    ensures d[|kind| + 2..] == RStrip(src)
  {
    kind + ": " + RStrip(src)
  }

  /** The fields stamped on a record appended on `date` for account `index`. */
  predicate Stamped(r: Record, index: nat, date: string, kind: string, src: string) {
    && "TradeDate" in r && r["TradeDate"] == Str(date)
    && "Type" in r && r["Type"] == Str(kind)
    && "Description" in r && r["Description"] == Str(Describe(kind, src))
    && "Account" in r && r["Account"] == AccountRef(index)
  }

  /** Every key the stamping and the currency rewrite do not touch keeps its value. */
  predicate KeepsOthers(tx: Record, r: Record, touched: set<string>) {
    forall k :: k in tx && k !in touched ==> k in r && r[k] == tx[k]
  }

  /** The key that keeps the original amount of a converted record. */
  function OriginalAmountKey(base: string): string {
    "DebitCredit" + base
  }

  /** The suffixed key never collides with a stamped key. */
  lemma OriginalAmountKeyNotStamped(base: string)
    ensures OriginalAmountKey(base) !in StampedKeys
  {
    var key := OriginalAmountKey(base);
    assert key[0] == 'D' && key[2] == 'b';
    assert "Description"[2] == 's';
  }

  /** The keys a cash record and its account must hold, and the strings they must be,
      for the loop body to run through without an exception. */
  predicate CashLookupsSucceed(tx: Record, account: Record) {
    && "Description" in tx && tx["Description"].Str?
    && "Currency" in tx && "Currency" in account
    && (!PyEq(tx["Currency"], account["Currency"]) ==>
          tx["Currency"].Str? && account["Currency"].Str? && "DebitCredit" in tx)
  }

  /** The outcome of the loop body for one cash record. */
  datatype Shaped = Dropped | Kept(rec: Record) | Failed(err: Error)

  /** The loop body for one cash-journal record of `account` (at position `index`),
      fetched for the formatted `date`. */
  function ShapeCash(tx: Record, account: Record, index: nat, date: string, convert: Converter): (s: Shaped)
    // A record is kept only when every lookup the body makes succeeds.
    ensures s.Kept? ==> CashLookupsSucceed(tx, account)
    // The description is read first, by the filter.
    ensures "Description" !in tx ==> s == Failed(KeyError("Description"))
    ensures s.Kept? ==> Stamped(s.rec, index, date, CashJournal, tx["Description"].s)
    // Same currency, by Python's `==`: no conversion, nothing but the stamped keys changes.
    ensures s.Kept? && PyEq(tx["Currency"], account["Currency"]) ==>
      && s.rec.Keys == tx.Keys + StampedKeys
      && KeepsOthers(tx, s.rec, StampedKeys)
    // Different currency: the original amount moves to a currency-suffixed key and
    // the converted amount replaces it.
    ensures s.Kept? && !PyEq(tx["Currency"], account["Currency"]) ==>
      var base := tx["Currency"].s;
      && s.rec.Keys == tx.Keys + StampedKeys + {OriginalAmountKey(base)}
      && s.rec["DebitCredit"] == convert(tx["DebitCredit"], base, account["Currency"].s, date)
      && (base != "" ==> s.rec[OriginalAmountKey(base)] == tx["DebitCredit"])
      && KeepsOthers(tx, s.rec, StampedKeys + {"DebitCredit", OriginalAmountKey(base)})
  {
    match IncludeTransaction(tx)
    case Err(e) => Failed(e)
    case Ok(included) =>
      if !included then Dropped
      else
        var stamped := tx["TradeDate" := Str(date)]
                         ["Type" := Str(CashJournal)]
                         ["Description" := Str(Describe(CashJournal, tx["Description"].s))]
                         ["Account" := AccountRef(index)];
        if "Currency" !in stamped then Failed(KeyError("Currency"))
        else if "Currency" !in account then Failed(KeyError("Currency"))
        else if PyEq(stamped["Currency"], account["Currency"]) then Kept(stamped)
        // historical_currency_rate upper-cases the base, then the quote currency
        else if !stamped["Currency"].Str? then Failed(AttributeError("upper"))
        else if !account["Currency"].Str? then Failed(AttributeError("upper"))
        else if "DebitCredit" !in stamped then Failed(KeyError("DebitCredit"))
        else
          var base := stamped["Currency"].s;
          var amount := stamped["DebitCredit"];
          OriginalAmountKeyNotStamped(base);
          var saved := stamped[OriginalAmountKey(base) := amount];
          Kept(saved["DebitCredit" := convert(saved["DebitCredit"], base, account["Currency"].s, date)])
  }

  /** The filter never drops a record, so a cash record is either kept or raises: it
      is kept exactly when every lookup the loop body makes succeeds. */
  lemma ShapeCashOutcome(tx: Record, account: Record, index: nat, date: string, convert: Converter)
    ensures !ShapeCash(tx, account, index, date, convert).Dropped?
    ensures ShapeCash(tx, account, index, date, convert).Kept? <==> CashLookupsSucceed(tx, account)
  {
    if "Description" in tx && tx["Description"].Str? {
      IncludeTransactionNeverExcludes(tx);
    }
  }

  /** The exception each failing lookup of the cash loop body raises, in the order the
      body makes them: the filter's `Description` lookup and `.upper()`, the two
      `Currency` lookups of the comparison, `base.upper()` and `quote.upper()` in the
      rate lookup, then `DebitCredit`. */
  lemma ShapeCashRaises(tx: Record, account: Record, index: nat, date: string, convert: Converter)
    ensures var s := ShapeCash(tx, account, index, date, convert);
      && ("Description" !in tx ==> s == Failed(KeyError("Description")))
      && ("Description" in tx && !tx["Description"].Str? ==> s == Failed(AttributeError("upper")))
      && ("Description" in tx && tx["Description"].Str? ==>
            && ("Currency" !in tx ==> s == Failed(KeyError("Currency")))
            && ("Currency" in tx && "Currency" !in account ==> s == Failed(KeyError("Currency")))
            && ("Currency" in tx && "Currency" in account && !PyEq(tx["Currency"], account["Currency"]) ==>
                  && (!tx["Currency"].Str? || !account["Currency"].Str? ==> s == Failed(AttributeError("upper")))
                  && (tx["Currency"].Str? && account["Currency"].Str? && "DebitCredit" !in tx ==>
                        s == Failed(KeyError("DebitCredit")))))
  {
    if "Description" in tx && tx["Description"].Str? {
      IncludeTransactionNeverExcludes(tx);
    }
  }

  /** The currency test is Python's `!=`: a record whose `Currency` is `True` on an account
      whose `Currency` is `1` is kept unconverted, with nothing raised. */
  lemma ShapeCashBoolCurrency(index: nat, date: string, convert: Converter)
    ensures var tx := map["Description" := Str("Dividend"), "Currency" := Bool(true), "DebitCredit" := Num(5.0)];
      var s := ShapeCash(tx, map["Currency" := Num(1.0)], index, date, convert);
      s.Kept? && s.rec["DebitCredit"] == Num(5.0) && s.rec.Keys == tx.Keys + StampedKeys
  {
    var tx := map["Description" := Str("Dividend"), "Currency" := Bool(true), "DebitCredit" := Num(5.0)];
    var account := map["Currency" := Num(1.0)];
    assert tx["Description"] == Str("Dividend") && tx["Currency"] == Bool(true);
    assert PyEq(tx["Currency"], account["Currency"]);
    assert CashLookupsSucceed(tx, account);
    ShapeCashOutcome(tx, account, index, date, convert);
    var s := ShapeCash(tx, account, index, date, convert);
    OriginalAmountKeyNotStamped("");
    assert OriginalAmountKey("") == "DebitCredit";
    assert "DebitCredit" in tx && tx["DebitCredit"] == Num(5.0);
    assert KeepsOthers(tx, s.rec, StampedKeys);
  }

  /** The loop body for one closed-position or fee record: the source text of the
      description is its `Contract`; no filter and no conversion, so nothing is dropped. */
  function ShapeOther(tx: Record, kind: string, index: nat, date: string): (s: Shaped)
    ensures !s.Dropped?
    ensures s.Kept? <==> "Contract" in tx && tx["Contract"].Str?
    ensures "Contract" !in tx ==> s == Failed(KeyError("Contract"))
    ensures "Contract" in tx && !tx["Contract"].Str? ==> s == Failed(AttributeError("rstrip"))
    ensures s.Kept? ==>
      && Stamped(s.rec, index, date, kind, tx["Contract"].s)
      && s.rec.Keys == tx.Keys + StampedKeys
      && KeepsOthers(tx, s.rec, StampedKeys)
  {
    var dated := tx["TradeDate" := Str(date)]["Type" := Str(kind)];
    if "Contract" !in dated then Failed(KeyError("Contract"))
    else match dated["Contract"]
      case Str(contract) =>
        Kept(dated["Description" := Str(Describe(kind, contract))]["Account" := AccountRef(index)])
      case _ => Failed(AttributeError("rstrip"))
  }

  /** The description ends in a non-blank character exactly when the source text is
      not all whitespace: for a blank source it ends with the space of ": ". */
  lemma DescribeTrailing(kind: string, src: string)
    requires kind != []
    ensures var d := Describe(kind, src);
      !IsSpace(d[|d| - 1]) <==> exists k :: 0 <= k < |src| && !IsSpace(src[k])
  {
    var d := Describe(kind, src);
    var r := RStrip(src);
    assert d[|d| - 1] == (if r == [] then ' ' else r[|r| - 1]);
    if r != [] {
      assert src[|r| - 1] == r[|r| - 1];
    }
  }

  /** A blank cash description yields "Cash Journal: ", with a trailing space. */
  lemma BlankDescription()
    ensures Describe(CashJournal, "   ") == "Cash Journal: "
  {
    assert RStrip("   ") == "";
  }
}
