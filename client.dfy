/** The client object and its `get_transaction_history` method, which resets and then
    fills, in place, the `Transactions` list of the accounts it holds. */
module Client {
  import opened Json
  import opened Filter
  import opened Shaping
  import opened History
  import opened HistoryProperties

  class Tradestation {
    /** The account dictionaries, in the order the accounts endpoint returned them. */
    var accounts: seq<Record>

    constructor (accounts: seq<Record>)
      ensures this.accounts == accounts
    {
      this.accounts := accounts;
    }

    /** The loop body for one cash-journal record, updating the record step by step
        as the client does; nothing else changes. */
    static method ShapeCashRecord(tx0: Record, account: Record, index: nat, date: string, convert: Converter)
      returns (s: Shaped)
      ensures s == ShapeCash(tx0, account, index, date, convert)
    {
      var tx := tx0;
      var included := IncludeTransaction(tx);
      if included.Err? {
        return Failed(included.error);
      }
      if !included.value {
        return Dropped;
      }
      tx := tx["TradeDate" := Str(date)];
      tx := tx["Type" := Str(CashJournal)];
      tx := tx["Description" := Str(Describe(tx["Type"].s, tx["Description"].s))];
      tx := tx["Account" := AccountRef(index)];
      if "Currency" !in tx || "Currency" !in account {
        return Failed(KeyError("Currency"));
      }
      if !PyEq(tx["Currency"], account["Currency"]) {
        var base := tx["Currency"];
        if !base.Str? || !account["Currency"].Str? {
          return Failed(AttributeError("upper"));
        }
        if "DebitCredit" !in tx {
          return Failed(KeyError("DebitCredit"));
        }
        OriginalAmountKeyNotStamped(base.s);
        tx := tx[OriginalAmountKey(base.s) := tx["DebitCredit"]];
        tx := tx["DebitCredit" := convert(tx["DebitCredit"], base.s, account["Currency"].s, date)];
      }
      return Kept(tx);
    }

    /** The loop body for one closed-position or fee record; nothing else changes. */
    static method ShapeOtherRecord(tx0: Record, kind: string, index: nat, date: string) returns (s: Shaped)
      ensures s == ShapeOther(tx0, kind, index, date)
    {
      var tx := tx0;
      tx := tx["TradeDate" := Str(date)];
      tx := tx["Type" := Str(kind)];
      if "Contract" !in tx {
        return Failed(KeyError("Contract"));
      }
      if !tx["Contract"].Str? {
        return Failed(AttributeError("rstrip"));
      }
      tx := tx["Description" := Str(Describe(tx["Type"].s, tx["Contract"].s))];
      tx := tx["Account" := AccountRef(index)];
      return Kept(tx);
    }

    /** `self.accounts[i]['Transactions'].append(r)`. */
    method AppendTransaction(i: nat, r: Record, ghost entry: seq<Record>, ghost account: Record,
                             ghost txs: seq<Record>)
      requires i < |entry| && accounts == entry[i := account["Transactions" := TxList(txs)]]
      modifies this
      ensures accounts == entry[i := account["Transactions" := TxList(txs + [r])]]
    {
      var list := accounts[i]["Transactions"];
      TxListAppend(txs, r);
      accounts := accounts[i := accounts[i]["Transactions" := List(list.items + [Obj(r)])]];
      assert accounts[i] == account["Transactions" := TxList(txs + [r])];
    }

    /** The cash-journal `for` loop of one day: each kept record is appended to the
        account's `Transactions` as soon as it is shaped. */
    method AppendCash(i: nat, account: Record, date: string, batch: seq<Record>, convert: Converter,
                      txs0: seq<Record>, ghost entry: seq<Record>, ghost shape: Shape)
      returns (p: Progress)
      requires i < |entry| && accounts == entry[i := account["Transactions" := TxList(txs0)]]
      requires forall tx :: shape(tx) == ShapeCash(tx, account, i, date, convert)
      modifies this
      ensures p == Append(txs0, batch, shape)
      ensures accounts == entry[i := account["Transactions" := TxList(p.txs)]]
    {
      var txs := txs0;
      for k := 0 to |batch|
        invariant accounts == entry[i := account["Transactions" := TxList(txs)]]
        invariant Append(txs, batch[k..], shape) == Append(txs0, batch, shape)
      {
        assert batch[k..][0] == batch[k] && batch[k..][1..] == batch[k + 1..];
        var s := ShapeCashRecord(batch[k], account, i, date, convert);
        if s.Failed? {
          return Progress(txs, Some(s.err));
        }
        if s.Kept? {
          AppendTransaction(i, s.rec, entry, account, txs);
          txs := txs + [s.rec];
        }
      }
      assert batch[|batch|..] == [];
      return Progress(txs, None);
    }

    /** The closed-position or fee `for` loop of one day. */
    method AppendOther(i: nat, account: Record, date: string, kind: string, batch: seq<Record>,
                       txs0: seq<Record>, ghost entry: seq<Record>, ghost shape: Shape)
      returns (p: Progress)
      requires i < |entry| && accounts == entry[i := account["Transactions" := TxList(txs0)]]
      requires forall tx :: shape(tx) == ShapeOther(tx, kind, i, date)
      modifies this
      ensures p == Append(txs0, batch, shape)
      ensures accounts == entry[i := account["Transactions" := TxList(p.txs)]]
    {
      var txs := txs0;
      for k := 0 to |batch|
        invariant accounts == entry[i := account["Transactions" := TxList(txs)]]
        invariant Append(txs, batch[k..], shape) == Append(txs0, batch, shape)
      {
        assert batch[k..][0] == batch[k] && batch[k..][1..] == batch[k + 1..];
        var s := ShapeOtherRecord(batch[k], kind, i, date);
        if s.Failed? {
          return Progress(txs, Some(s.err));
        }
        AppendTransaction(i, s.rec, entry, account, txs);
        txs := txs + [s.rec];
      }
      assert batch[|batch|..] == [];
      return Progress(txs, None);
    }

    /** One pass of the `while` loop: the three fetches of the formatted `date` and
        their loops, in order. */
    method VisitDayInPlace(i: nat, account: Record, date: string, feeds: Feeds, convert: Converter,
                           txs0: seq<Record>, ghost entry: seq<Record>)
      returns (p: Progress)
      requires i < |entry| && accounts == entry[i := account["Transactions" := TxList(txs0)]]
      modifies this
      ensures p == VisitDay(txs0, account, date, feeds, DayBodies(account, i, date, convert))
      ensures accounts == entry[i := account["Transactions" := TxList(p.txs)]]
    {
      ghost var b := DayBodies(account, i, date, convert);
      if "Name" !in account {
        return Progress(txs0, Some(KeyError("Name")));
      }
      if "TypeDescription" !in account {
        return Progress(txs0, Some(KeyError("TypeDescription")));
      }
      var name, kind := account["Name"], account["TypeDescription"];
      p := AppendCash(i, account, date, feeds.cash(name, kind, date), convert, txs0, entry, b.cash);
      if p.err.Some? {
        return;
      }
      p := AppendOther(i, account, date, ClosedPositions, feeds.closed(name, kind, date), p.txs, entry, b.closed);
      if p.err.Some? {
        return;
      }
      p := AppendOther(i, account, date, FeesAndCommissions, feeds.fees(name, kind, date), p.txs, entry, b.fees);
    }

    /** The `while date >= from_date` loop for the account at position `i`, whose
        `Transactions` has just been reset; returns the walk's outcome and where
        `date` ends. */
    method WalkInPlace(i: nat, account: Record, date0: int, fromDate: int, fmt: int -> string,
                       feeds: Feeds, convert: Converter, ghost entry: seq<Record>)
      returns (p: Progress, date: int)
      requires i < |entry| && accounts == entry[i := account["Transactions" := TxList([])]]
      modifies this
      ensures p == WalkDays([], Days(date0, fromDate), account, fmt, feeds, BodiesOf(account, i, convert))
      ensures accounts == entry[i := account["Transactions" := TxList(p.txs)]]
      ensures p.err.None? ==> date == if date0 >= fromDate then fromDate - 1 else date0
    {
      ghost var bodies := BodiesOf(account, i, convert);
      ghost var walk := WalkDays([], Days(date0, fromDate), account, fmt, feeds, bodies);
      var txs := [];
      date := date0;
      while date >= fromDate
        invariant accounts == entry[i := account["Transactions" := TxList(txs)]]
        invariant WalkDays(txs, Days(date, fromDate), account, fmt, feeds, bodies) == walk
        invariant date0 >= fromDate ==> fromDate - 1 <= date <= date0
        invariant date0 < fromDate ==> date == date0
        decreases date - fromDate
      {
        var dateFormatted := fmt(date);
        assert bodies(dateFormatted) == DayBodies(account, i, dateFormatted, convert);
        WalkFrom(txs, date, fromDate, account, fmt, feeds, bodies);
        p := VisitDayInPlace(i, account, dateFormatted, feeds, convert, txs, entry);
        txs := p.txs;
        if p.err.Some? {
          return;
        }
        date := date - 1;
      }
      p := Progress(txs, None);
    }

    /** `get_transaction_history(days_back)`, with `yesterday` the clock's previous day,
        `fmt` the date formatting, `feeds` the three web-channel fetches and `convert`
        the currency conversion. On an exception, `err` is that exception and
        `accounts` holds whatever the run had done up to it. */
    method GetTransactionHistory(daysBack: int, yesterday: int, fmt: int -> string, feeds: Feeds,
                                 convert: Converter)
      returns (result: seq<Record>, err: Option<Error>)
      modifies this
      ensures Run(accounts, err) == TransactionHistory(old(accounts), yesterday, daysBack, fmt, feeds, convert)
      ensures result == accounts
    {
      var date := yesterday;
      var fromDate := yesterday - daysBack;
      var i := 0;
      while i < |accounts|
        invariant i <= |accounts|
        invariant RunAccounts(accounts, i, date, fromDate, fmt, feeds, convert)
               == TransactionHistory(old(accounts), yesterday, daysBack, fmt, feeds, convert)
      {
        ghost var entry := accounts;
        var account := accounts[i]["Transactions" := TxList([])];
        accounts := accounts[i := account];
        assert account["Transactions" := TxList([])] == account;
        RunStep(entry, i, date, fromDate, fmt, feeds, convert);
        var p;
        p, date := WalkInPlace(i, account, date, fromDate, fmt, feeds, convert, entry);
        if p.err.Some? {
          return accounts, p.err;
        }
        i := i + 1;
      }
      return accounts, None;
    }
  }
}
