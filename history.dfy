/** What `get_transaction_history` computes, as functions: the backward walk over
    days, the three fetches per day, the order in which shaped records are appended,
    and where a raised exception leaves the accounts. */
module History {
  import opened Json
  import opened Shaping

  /** One web-channel fetch: the `Results` of the GET for an account's `Name` and
      `TypeDescription` values and a formatted date (used as both ends of the range). */
  type Fetch = (Value, Value, string) -> seq<Record>

  /** The three per-day sources: cash journal, purchase/sale (closed positions) and
      per-contract fees. */
  datatype Feeds = Feeds(cash: Fetch, closed: Fetch, fees: Fetch)

  /** The records appended so far to one account's `Transactions`, and the exception
      that stopped the run, if any. */
  datatype Progress = Progress(txs: seq<Record>, err: Option<Error>)

  /** The account list after a run, and the exception that ended it, if any. */
  datatype Run = Run(accounts: seq<Record>, err: Option<Error>)

  /** The days `while date >= lo` visits from `date == hi`, stepping back one day at a time. */
  function Days(hi: int, lo: int): (days: seq<int>)
    ensures |days| == if hi >= lo then hi - lo + 1 else 0
    ensures forall k :: 0 <= k < |days| ==> days[k] == hi - k
    decreases hi - lo
  {
    if hi < lo then [] else [hi] + Days(hi - 1, lo)
  }

  /** The loop body applied to each fetched record of one source. */
  type Shape = Record -> Shaped

  /** The loop bodies of one visited day, one per source. */
  datatype Bodies = Bodies(cash: Shape, closed: Shape, fees: Shape)

  /** The loop bodies `get_transaction_history` runs for `account` (at position
      `index`) on the formatted `date`. */
  function DayBodies(account: Record, index: nat, date: string, convert: Converter): Bodies {
    Bodies(tx => ShapeCash(tx, account, index, date, convert),
           tx => ShapeOther(tx, ClosedPositions, index, date),
           tx => ShapeOther(tx, FeesAndCommissions, index, date))
  }

  /** The loop bodies for `account`, for every formatted date. */
  function BodiesOf(account: Record, index: nat, convert: Converter): string -> Bodies {
    date => DayBodies(account, index, date, convert)
  }

  /** One `for` loop over a fetch: shapes and appends the records in fetch order,
      skipping dropped ones and stopping at the first exception. */
  function Append(txs: seq<Record>, batch: seq<Record>, shape: Shape): (p: Progress)
    decreases |batch|
  {
    if batch == [] then Progress(txs, None)
    else match shape(batch[0])
      case Failed(e) => Progress(txs, Some(e))
      case Dropped => Append(txs, batch[1..], shape)
      case Kept(r) => Append(txs + [r], batch[1..], shape)
  }

  /** One visited day: the URLs read `Name`, then `TypeDescription`; then cash records,
      closed positions and fees are fetched and appended in that order. */
  function VisitDay(txs: seq<Record>, account: Record, date: string, feeds: Feeds, b: Bodies): (p: Progress)
  {
    if "Name" !in account then Progress(txs, Some(KeyError("Name")))
    else if "TypeDescription" !in account then Progress(txs, Some(KeyError("TypeDescription")))
    else
      var name, kind := account["Name"], account["TypeDescription"];
      var afterCash := Append(txs, feeds.cash(name, kind, date), b.cash);
      if afterCash.err.Some? then afterCash
      else
        var afterClosed := Append(afterCash.txs, feeds.closed(name, kind, date), b.closed);
        if afterClosed.err.Some? then afterClosed
        else Append(afterClosed.txs, feeds.fees(name, kind, date), b.fees)
  }

  /** The days in the given order, each formatted with `fmt`. */
  function WalkDays(txs: seq<Record>, days: seq<int>, account: Record, fmt: int -> string,
                    feeds: Feeds, bodies: string -> Bodies): (p: Progress)
    decreases |days|
  {
    if days == [] then Progress(txs, None)
    else
      var date := fmt(days[0]);
      var p := VisitDay(txs, account, date, feeds, bodies(date));
      if p.err.Some? then p else WalkDays(p.txs, days[1..], account, fmt, feeds, bodies)
  }

  /** The account loop from position `i`, with the walk at `date`: each account's
      `Transactions` is reset to `[]`, then the walk runs from wherever `date` stands. */
  function RunAccounts(accs: seq<Record>, i: nat, date: int, fromDate: int,
                       fmt: int -> string, feeds: Feeds, convert: Converter): (r: Run)
    requires i <= |accs|
    ensures |r.accounts| == |accs|
    decreases |accs| - i
  {
    if i == |accs| then Run(accs, None)
    else
      var account := accs[i]["Transactions" := TxList([])];
      var p := WalkDays([], Days(date, fromDate), account, fmt, feeds, BodiesOf(account, i, convert));
      var updated := accs[i := account["Transactions" := TxList(p.txs)]];
      if p.err.Some? then Run(updated, p.err)
      else RunAccounts(updated, i + 1, if date >= fromDate then fromDate - 1 else date,
                       fromDate, fmt, feeds, convert)
  }

  /** `get_transaction_history(days_back)` with `yesterday` for the clock's day. */
  function TransactionHistory(accs: seq<Record>, yesterday: int, daysBack: int,
                   fmt: int -> string, feeds: Feeds, convert: Converter): Run
  {
    RunAccounts(accs, 0, yesterday, yesterday - daysBack, fmt, feeds, convert)
  }

  // ---------------------------------------------------------------------------
  // Reference definitions: what a run appends when no exception is raised.

  /** The records a loop keeps, in fetch order. */
  function KeptRecords(batch: seq<Record>, shape: Shape): seq<Record>
    decreases |batch|
  {
    if batch == [] then []
    else (match shape(batch[0]) case Kept(r) => [r] case _ => [])
         + KeptRecords(batch[1..], shape)
  }

  /** No record of the fetch makes the loop body raise. */
  predicate NoneFails(batch: seq<Record>, shape: Shape) {
    forall j :: 0 <= j < |batch| ==> !shape(batch[j]).Failed?
  }

  /** No lookup of the given day raises. */
  predicate DayOk(account: Record, date: string, feeds: Feeds, b: Bodies) {
    && "Name" in account && "TypeDescription" in account
    && NoneFails(feeds.cash(account["Name"], account["TypeDescription"], date), b.cash)
    && NoneFails(feeds.closed(account["Name"], account["TypeDescription"], date), b.closed)
    && NoneFails(feeds.fees(account["Name"], account["TypeDescription"], date), b.fees)
  }

  /** The records of one day: cash, then closed positions, then fees. */
  function DayRecords(account: Record, date: string, feeds: Feeds, b: Bodies): seq<Record>
  {
    if "Name" !in account || "TypeDescription" !in account then []
    else
      var name, kind := account["Name"], account["TypeDescription"];
      KeptRecords(feeds.cash(name, kind, date), b.cash)
      + KeptRecords(feeds.closed(name, kind, date), b.closed)
      + KeptRecords(feeds.fees(name, kind, date), b.fees)
  }

  /** The records of the given days, day after day. */
  function DaysRecords(days: seq<int>, account: Record, fmt: int -> string, feeds: Feeds,
                       bodies: string -> Bodies): seq<Record>
    decreases |days|
  {
    if days == [] then []
    else DayRecords(account, fmt(days[0]), feeds, bodies(fmt(days[0])))
         + DaysRecords(days[1..], account, fmt, feeds, bodies)
  }
}
