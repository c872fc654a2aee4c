/** Properties of the transaction-history run: which days are visited, what is
    appended for each and in what order, and which accounts end with records. */
module HistoryProperties {
  import opened Json
  import opened Shaping
  import opened History

  // ---------------------------------------------------------------------------
  // The date walk

  /** Day of the week, Monday = 0, for day numbers counted from 1970-01-01 (a Thursday). */
  function Weekday(day: int): (w: int)
    ensures 0 <= w < 7
  {
    (day + 3) % 7
  }

  /** The walk visits every day of its window, newest first, each once. */
  lemma DaysWindow(hi: int, lo: int)
    ensures forall d :: d in Days(hi, lo) <==> lo <= d <= hi
    ensures forall j, k :: 0 <= j < k < |Days(hi, lo)| ==> Days(hi, lo)[j] > Days(hi, lo)[k]
  {
    var days := Days(hi, lo);
    forall d | lo <= d <= hi ensures d in days {
      assert days[hi - d] == d;
    }
  }

  /** Weekends are not skipped: a window of a week or more visits a Saturday and a Sunday. */
  lemma WeekendsVisited(hi: int, lo: int)
    requires hi - lo >= 6
    ensures exists k :: 0 <= k < |Days(hi, lo)| && Weekday(Days(hi, lo)[k]) == 5
    ensures exists k :: 0 <= k < |Days(hi, lo)| && Weekday(Days(hi, lo)[k]) == 6
  {
    var days := Days(hi, lo);
    var sat := (hi + 3 - 5) % 7;
    var sun := (hi + 3 - 6) % 7;
    assert days[sat] == hi - sat;
    assert days[sun] == hi - sun;
    assert Weekday(days[sat]) == 5;
    assert Weekday(days[sun]) == 6;
  }

  // ---------------------------------------------------------------------------
  // What one fetch appends

  /** A loop over a fetch raises exactly when some record makes the body raise. */
  lemma {:induction false} AppendRaises(txs: seq<Record>, batch: seq<Record>, shape: Shape)
    ensures Append(txs, batch, shape).err.None? <==> NoneFails(batch, shape)
    decreases |batch|
  {
    if batch != [] {
      var tail := batch[1..];
      assert NoneFails(batch, shape) <==> !shape(batch[0]).Failed? && NoneFails(tail, shape) by {
        forall j | 1 <= j < |batch| ensures tail[j - 1] == batch[j] { }
      }
      match shape(batch[0])
      case Failed(e) =>
      case Dropped =>
        AppendRaises(txs, tail, shape);
      case Kept(r) =>
        AppendRaises(txs + [r], tail, shape);
    }
  }

  /** When no record raises, the loop appends the kept records, in fetch order. */
  lemma {:induction false} AppendKeeps(txs: seq<Record>, batch: seq<Record>, shape: Shape)
    requires NoneFails(batch, shape)
    ensures Append(txs, batch, shape).txs == txs + KeptRecords(batch, shape)
    decreases |batch|
  {
    if batch != [] {
      var tail := batch[1..];
      assert NoneFails(tail, shape) by {
        forall j | 0 <= j < |tail| ensures tail[j] == batch[j + 1] { }
      }
      var s := shape(batch[0]);
      if s.Kept? {
        assert Append(txs, batch, shape) == Append(txs + [s.rec], tail, shape);
        assert KeptRecords(batch, shape) == [s.rec] + KeptRecords(tail, shape);
        AppendKeeps(txs + [s.rec], tail, shape);
        assert txs + [s.rec] + KeptRecords(tail, shape) == txs + ([s.rec] + KeptRecords(tail, shape));
      } else {
        assert Append(txs, batch, shape) == Append(txs, tail, shape);
        assert KeptRecords(batch, shape) == KeptRecords(tail, shape);
        AppendKeeps(txs, tail, shape);
      }
    }
  }

  /** Whatever happens, what was appended before stays in place: the loop only appends. */
  lemma {:induction false} AppendExtends(txs: seq<Record>, batch: seq<Record>, shape: Shape)
    ensures txs <= Append(txs, batch, shape).txs
    decreases |batch|
  {
    if batch != [] {
      match shape(batch[0])
      case Failed(e) =>
      case Dropped =>
        AppendExtends(txs, batch[1..], shape);
      case Kept(r) =>
        AppendExtends(txs + [r], batch[1..], shape);
    }
  }

  /** When nothing is dropped, every fetched record is kept, and the j-th kept record
      is the shaped j-th fetched record. */
  lemma {:induction false} KeptPointwise(batch: seq<Record>, shape: Shape)
    requires forall j :: 0 <= j < |batch| ==> shape(batch[j]).Kept?
    ensures |KeptRecords(batch, shape)| == |batch|
    ensures forall j :: 0 <= j < |batch| ==> shape(batch[j]) == Kept(KeptRecords(batch, shape)[j])
    decreases |batch|
  {
    if batch != [] {
      var tail := batch[1..];
      assert forall j :: 0 <= j < |tail| ==> shape(tail[j]).Kept? by {
        forall j | 0 <= j < |tail| ensures tail[j] == batch[j + 1] { }
      }
      KeptPointwise(tail, shape);
      forall j | 1 <= j < |batch| ensures shape(batch[j]) == Kept(KeptRecords(batch, shape)[j]) {
        assert tail[j - 1] == batch[j];
      }
    }
  }

  // ---------------------------------------------------------------------------
  // One visited day

  /** A visited day raises exactly when one of its lookups does. */
  lemma VisitDayRaises(txs: seq<Record>, account: Record, date: string, feeds: Feeds, b: Bodies)
    ensures VisitDay(txs, account, date, feeds, b).err.None? <==> DayOk(account, date, feeds, b)
  {
    if "Name" in account && "TypeDescription" in account {
      var name, kind := account["Name"], account["TypeDescription"];
      AppendRaises(txs, feeds.cash(name, kind, date), b.cash);
      var afterCash := Append(txs, feeds.cash(name, kind, date), b.cash);
      AppendRaises(afterCash.txs, feeds.closed(name, kind, date), b.closed);
      var afterClosed := Append(afterCash.txs, feeds.closed(name, kind, date), b.closed);
      AppendRaises(afterClosed.txs, feeds.fees(name, kind, date), b.fees);
    }
  }

  /** A visited day that raises nothing appends exactly `DayRecords`. */
  lemma VisitDayAppends(txs: seq<Record>, account: Record, date: string, feeds: Feeds, b: Bodies)
    requires DayOk(account, date, feeds, b)
    ensures VisitDay(txs, account, date, feeds, b).txs == txs + DayRecords(account, date, feeds, b)
  {
    var name, kind := account["Name"], account["TypeDescription"];
    var cash, closed, fees := feeds.cash(name, kind, date), feeds.closed(name, kind, date), feeds.fees(name, kind, date);
    AppendRaises(txs, cash, b.cash);
    AppendKeeps(txs, cash, b.cash);
    var afterCash := Append(txs, cash, b.cash);
    AppendRaises(afterCash.txs, closed, b.closed);
    AppendKeeps(afterCash.txs, closed, b.closed);
    var afterClosed := Append(afterCash.txs, closed, b.closed);
    AppendKeeps(afterClosed.txs, fees, b.fees);
    var x, y, z := KeptRecords(cash, b.cash), KeptRecords(closed, b.closed), KeptRecords(fees, b.fees);
    assert txs + x + y + z == txs + (x + y + z);
  }

  /** A visited day only appends, whether or not it raises. */
  lemma VisitDayExtends(txs: seq<Record>, account: Record, date: string, feeds: Feeds, b: Bodies)
    ensures txs <= VisitDay(txs, account, date, feeds, b).txs
  {
    if "Name" in account && "TypeDescription" in account {
      var name, kind := account["Name"], account["TypeDescription"];
      AppendExtends(txs, feeds.cash(name, kind, date), b.cash);
      var afterCash := Append(txs, feeds.cash(name, kind, date), b.cash);
      AppendExtends(afterCash.txs, feeds.closed(name, kind, date), b.closed);
      var afterClosed := Append(afterCash.txs, feeds.closed(name, kind, date), b.closed);
      AppendExtends(afterClosed.txs, feeds.fees(name, kind, date), b.fees);
    }
  }

  /** The filter lets every cash record through: when none raises, every one is kept. */
  lemma CashAllKept(batch: seq<Record>, account: Record, index: nat, date: string, convert: Converter)
    requires NoneFails(batch, DayBodies(account, index, date, convert).cash)
    ensures forall j :: 0 <= j < |batch| ==> DayBodies(account, index, date, convert).cash(batch[j]).Kept?
  {
    forall j | 0 <= j < |batch| ensures DayBodies(account, index, date, convert).cash(batch[j]).Kept? {
      ShapeCashOutcome(batch[j], account, index, date, convert);
    }
  }

  /** When no record is dropped, a day's records are the shaped cash records, then
      the shaped closed positions, then the shaped fees, each group in fetch order. */
  lemma DayRecordsSplit(account: Record, date: string, feeds: Feeds, b: Bodies)
    requires "Name" in account && "TypeDescription" in account
    requires var cash := feeds.cash(account["Name"], account["TypeDescription"], date);
      forall j :: 0 <= j < |cash| ==> b.cash(cash[j]).Kept?
    requires var closed := feeds.closed(account["Name"], account["TypeDescription"], date);
      forall j :: 0 <= j < |closed| ==> b.closed(closed[j]).Kept?
    requires var fees := feeds.fees(account["Name"], account["TypeDescription"], date);
      forall j :: 0 <= j < |fees| ==> b.fees(fees[j]).Kept?
    ensures var name, kind := account["Name"], account["TypeDescription"];
      var cash, closed, fees := feeds.cash(name, kind, date), feeds.closed(name, kind, date), feeds.fees(name, kind, date);
      var day := DayRecords(account, date, feeds, b);
      && |day| == |cash| + |closed| + |fees|
      && (forall j :: 0 <= j < |cash| ==> b.cash(cash[j]) == Kept(day[j]))
      && (forall j :: 0 <= j < |closed| ==> b.closed(closed[j]) == Kept(day[|cash| + j]))
      && (forall j :: 0 <= j < |fees| ==> b.fees(fees[j]) == Kept(day[|cash| + |closed| + j]))
  {
    var name, kind := account["Name"], account["TypeDescription"];
    var cash, closed, fees := feeds.cash(name, kind, date), feeds.closed(name, kind, date), feeds.fees(name, kind, date);
    KeptPointwise(cash, b.cash);
    KeptPointwise(closed, b.closed);
    KeptPointwise(fees, b.fees);
    var x, y, z := KeptRecords(cash, b.cash), KeptRecords(closed, b.closed), KeptRecords(fees, b.fees);
    var day := DayRecords(account, date, feeds, b);
    assert day == x + y + z;
    forall j | 0 <= j < |cash| ensures b.cash(cash[j]) == Kept(day[j]) {
      assert day[j] == x[j];
    }
    forall j | 0 <= j < |closed| ensures b.closed(closed[j]) == Kept(day[|cash| + j]) {
      assert day[|cash| + j] == y[j];
    }
    forall j | 0 <= j < |fees| ensures b.fees(fees[j]) == Kept(day[|cash| + |closed| + j]) {
      assert day[|cash| + |closed| + j] == z[j];
    }
  }

  /** The layout of one day's records: the cash records, then the closed positions,
      then the fees, each group in fetch order and each record shaped from its fetched
      record; no fetched record is left out. */
  lemma DayRecordsLayout(account: Record, index: nat, date: string, feeds: Feeds, convert: Converter)
    requires DayOk(account, date, feeds, DayBodies(account, index, date, convert))
    ensures var name, kind := account["Name"], account["TypeDescription"];
      var cash := feeds.cash(name, kind, date);
      var closed := feeds.closed(name, kind, date);
      var fees := feeds.fees(name, kind, date);
      var day := DayRecords(account, date, feeds, DayBodies(account, index, date, convert));
      && |day| == |cash| + |closed| + |fees|
      && (forall j :: 0 <= j < |cash| ==>
            ShapeCash(cash[j], account, index, date, convert) == Kept(day[j]))
      && (forall j :: 0 <= j < |closed| ==>
            ShapeOther(closed[j], ClosedPositions, index, date) == Kept(day[|cash| + j]))
      && (forall j :: 0 <= j < |fees| ==>
            ShapeOther(fees[j], FeesAndCommissions, index, date) == Kept(day[|cash| + |closed| + j]))
  {
    var b := DayBodies(account, index, date, convert);
    var name, kind := account["Name"], account["TypeDescription"];
    var cash, closed, fees := feeds.cash(name, kind, date), feeds.closed(name, kind, date), feeds.fees(name, kind, date);
    CashAllKept(cash, account, index, date, convert);
    assert forall j :: 0 <= j < |closed| ==> b.closed(closed[j]).Kept?;
    assert forall j :: 0 <= j < |fees| ==> b.fees(fees[j]).Kept?;
    DayRecordsSplit(account, date, feeds, b);
  }

  /** The fields every appended record carries. */
  ghost predicate AppendedOn(r: Record, index: nat, date: string) {
    && "TradeDate" in r && r["TradeDate"] == Str(date)
    && "Account" in r && r["Account"] == AccountRef(index)
    && "Type" in r && r["Type"] in {Str(CashJournal), Str(ClosedPositions), Str(FeesAndCommissions)}
    && "Description" in r && r["Description"].Str?
    && exists src :: r["Description"].s == Describe(r["Type"].s, src)
  }

  /** A loop over a fetch keeps only records its body keeps. */
  lemma {:induction false} KeptFrom(batch: seq<Record>, shape: Shape, r: Record)
    requires r in KeptRecords(batch, shape)
    ensures exists j :: 0 <= j < |batch| && shape(batch[j]) == Kept(r)
    decreases |batch|
  {
    var tail := batch[1..];
    if shape(batch[0]) == Kept(r) {
      assert shape(batch[0]) == Kept(r);
    } else {
      assert r in KeptRecords(tail, shape);
      KeptFrom(tail, shape, r);
      var j :| 0 <= j < |tail| && shape(tail[j]) == Kept(r);
      assert tail[j] == batch[j + 1];
    }
  }

  /** A loop keeps only records its body stamps for `index` and `date`. */
  lemma KeptAppendedOn(batch: seq<Record>, shape: Shape, index: nat, date: string)
    requires forall tx :: shape(tx).Kept? ==> AppendedOn(shape(tx).rec, index, date)
    ensures forall r :: r in KeptRecords(batch, shape) ==> AppendedOn(r, index, date)
  {
    forall r | r in KeptRecords(batch, shape) ensures AppendedOn(r, index, date) {
      KeptFrom(batch, shape, r);
      var j :| 0 <= j < |batch| && shape(batch[j]) == Kept(r);
    }
  }

  /** Each of a day's loop bodies stamps what it keeps with the day and the account. */
  lemma DayBodiesStamp(account: Record, index: nat, date: string, convert: Converter)
    ensures var b := DayBodies(account, index, date, convert);
      && (forall tx :: b.cash(tx).Kept? ==> AppendedOn(b.cash(tx).rec, index, date))
      && (forall tx :: b.closed(tx).Kept? ==> AppendedOn(b.closed(tx).rec, index, date))
      && (forall tx :: b.fees(tx).Kept? ==> AppendedOn(b.fees(tx).rec, index, date))
  {
    var b := DayBodies(account, index, date, convert);
    forall tx: Record | b.cash(tx).Kept? ensures AppendedOn(b.cash(tx).rec, index, date) {
      assert b.cash(tx).rec["Description"].s == Describe(CashJournal, tx["Description"].s);
    }
    forall tx: Record | b.closed(tx).Kept? ensures AppendedOn(b.closed(tx).rec, index, date) {
      assert b.closed(tx).rec["Description"].s == Describe(ClosedPositions, tx["Contract"].s);
    }
    forall tx: Record | b.fees(tx).Kept? ensures AppendedOn(b.fees(tx).rec, index, date) {
      assert b.fees(tx).rec["Description"].s == Describe(FeesAndCommissions, tx["Contract"].s);
    }
  }

  /** Every record a day appends carries that day's date, the owning account and one
      of the three types, with a description built from that type. */
  lemma DayRecordsAppendedOn(account: Record, index: nat, date: string, feeds: Feeds, convert: Converter)
    ensures forall r :: r in DayRecords(account, date, feeds, DayBodies(account, index, date, convert)) ==>
      AppendedOn(r, index, date)
  {
    var b := DayBodies(account, index, date, convert);
    if "Name" in account && "TypeDescription" in account {
      var name, kind := account["Name"], account["TypeDescription"];
      var cash, closed, fees := feeds.cash(name, kind, date), feeds.closed(name, kind, date), feeds.fees(name, kind, date);
      DayBodiesStamp(account, index, date, convert);
      KeptAppendedOn(cash, b.cash, index, date);
      KeptAppendedOn(closed, b.closed, index, date);
      KeptAppendedOn(fees, b.fees, index, date);
      assert DayRecords(account, date, feeds, b) == KeptRecords(cash, b.cash) + KeptRecords(closed, b.closed) + KeptRecords(fees, b.fees);
    }
  }

  // ---------------------------------------------------------------------------
  // The whole walk of one account

  /** No visited day raises. */
  predicate AllDaysOk(days: seq<int>, account: Record, fmt: int -> string, feeds: Feeds,
                      bodies: string -> Bodies)
    decreases |days|
  {
    days != [] ==> DayOk(account, fmt(days[0]), feeds, bodies(fmt(days[0])))
                   && AllDaysOk(days[1..], account, fmt, feeds, bodies)
  }

  /** A walk raises nothing exactly when no visited day raises. */
  lemma {:induction false} WalkRaises(txs: seq<Record>, days: seq<int>, account: Record,
                                      fmt: int -> string, feeds: Feeds, bodies: string -> Bodies)
    ensures WalkDays(txs, days, account, fmt, feeds, bodies).err.None? <==> AllDaysOk(days, account, fmt, feeds, bodies)
    decreases |days|
  {
    if days != [] {
      var tail := days[1..];
      var date := fmt(days[0]);
      VisitDayRaises(txs, account, date, feeds, bodies(date));
      var p := VisitDay(txs, account, date, feeds, bodies(date));
      WalkRaises(p.txs, tail, account, fmt, feeds, bodies);
    }
  }

  /** A walk that raises nothing appends the visited days' records, day after day. */
  lemma {:induction false} WalkAppends(txs: seq<Record>, days: seq<int>, account: Record,
                                       fmt: int -> string, feeds: Feeds, bodies: string -> Bodies)
    requires AllDaysOk(days, account, fmt, feeds, bodies)
    ensures WalkDays(txs, days, account, fmt, feeds, bodies).txs == txs + DaysRecords(days, account, fmt, feeds, bodies)
    decreases |days|
  {
    if days != [] {
      var day := DayRecords(account, fmt(days[0]), feeds, bodies(fmt(days[0])));
      var rest := DaysRecords(days[1..], account, fmt, feeds, bodies);
      WalkStep(txs, days, account, fmt, feeds, bodies);
      WalkAppends(txs + day, days[1..], account, fmt, feeds, bodies);
      assert txs + day + rest == txs + (day + rest);
    }
  }

  /** The walk from `date` down to `fromDate` is the day `date`, then the walk from
      the day before. */
  lemma WalkFrom(txs: seq<Record>, date: int, fromDate: int, account: Record,
                 fmt: int -> string, feeds: Feeds, bodies: string -> Bodies)
    requires date >= fromDate
    ensures WalkDays(txs, Days(date, fromDate), account, fmt, feeds, bodies) ==
      var p := VisitDay(txs, account, fmt(date), feeds, bodies(fmt(date)));
      if p.err.Some? then p else WalkDays(p.txs, Days(date - 1, fromDate), account, fmt, feeds, bodies)
  {
    assert Days(date, fromDate) == [date] + Days(date - 1, fromDate);
  }

  /** One step of a walk on which the first day raises nothing. */
  lemma WalkStep(txs: seq<Record>, days: seq<int>, account: Record,
                 fmt: int -> string, feeds: Feeds, bodies: string -> Bodies)
    requires days != [] && AllDaysOk(days, account, fmt, feeds, bodies)
    ensures var day := DayRecords(account, fmt(days[0]), feeds, bodies(fmt(days[0])));
      && WalkDays(txs, days, account, fmt, feeds, bodies) == WalkDays(txs + day, days[1..], account, fmt, feeds, bodies)
      && DaysRecords(days, account, fmt, feeds, bodies) == day + DaysRecords(days[1..], account, fmt, feeds, bodies)
  {
    var date := fmt(days[0]);
    VisitDayRaises(txs, account, date, feeds, bodies(date));
    VisitDayAppends(txs, account, date, feeds, bodies(date));
  }

  /** A walk only appends: the records of the days before an exception stay. */
  lemma {:induction false} WalkExtends(txs: seq<Record>, days: seq<int>, account: Record,
                                       fmt: int -> string, feeds: Feeds, bodies: string -> Bodies)
    ensures txs <= WalkDays(txs, days, account, fmt, feeds, bodies).txs
    decreases |days|
  {
    if days != [] {
      var date := fmt(days[0]);
      VisitDayExtends(txs, account, date, feeds, bodies(date));
      var p := VisitDay(txs, account, date, feeds, bodies(date));
      if p.err.None? {
        WalkExtends(p.txs, days[1..], account, fmt, feeds, bodies);
      }
    }
  }

  /** `n` copies of `k`. */
  function Repeat(k: nat, n: nat): (r: seq<nat>)
    ensures |r| == n && forall p :: 0 <= p < n ==> r[p] == k
  {
    if n == 0 then [] else [k] + Repeat(k, n - 1)
  }

  /** For each record of `DaysRecords(days[k..])`, the position in `days` of the day
      it was appended on. */
  function DayTags(days: seq<int>, k: nat, account: Record, fmt: int -> string, feeds: Feeds,
                   bodies: string -> Bodies): seq<nat>
    requires k <= |days|
    decreases |days| - k
  {
    if k == |days| then []
    else Repeat(k, |DayRecords(account, fmt(days[k]), feeds, bodies(fmt(days[k])))|)
         + DayTags(days, k + 1, account, fmt, feeds, bodies)
  }

  /** Each record is tagged with the position of a day from `k` on, and carries that
      day's date. */
  ghost predicate TaggedOn(recs: seq<Record>, tags: seq<nat>, days: seq<int>, k: nat, index: nat, fmt: int -> string) {
    && |recs| == |tags|
    && forall p :: 0 <= p < |recs| ==> k <= tags[p] < |days| && AppendedOn(recs[p], index, fmt(days[tags[p]]))
  }

  /** Putting the records of day `k` before the tagged records of the later days. */
  lemma TaggedOnCons(day: seq<Record>, recs: seq<Record>, tags: seq<nat>, days: seq<int>, k: nat,
                     index: nat, fmt: int -> string)
    requires k < |days|
    requires TaggedOn(recs, tags, days, k + 1, index, fmt)
    requires forall r :: r in day ==> AppendedOn(r, index, fmt(days[k]))
    ensures TaggedOn(day + recs, Repeat(k, |day|) + tags, days, k, index, fmt)
  {
    var allRecs, allTags := day + recs, Repeat(k, |day|) + tags;
    forall p | 0 <= p < |allRecs|
      ensures k <= allTags[p] < |days| && AppendedOn(allRecs[p], index, fmt(days[allTags[p]]))
    {
      if p < |day| {
        assert allRecs[p] == day[p] && day[p] in day && allTags[p] == k;
      } else {
        assert allRecs[p] == recs[p - |day|] && allTags[p] == tags[p - |day|];
      }
    }
  }

  /** Every record appended from day `k` on carries the date and account of the day it
      was appended on. */
  lemma {:induction false} DaysRecordsTagged(days: seq<int>, k: nat, account: Record, index: nat,
                                             fmt: int -> string, feeds: Feeds, convert: Converter)
    requires k <= |days|
    ensures var bodies := BodiesOf(account, index, convert);
      TaggedOn(DaysRecords(days[k..], account, fmt, feeds, bodies),
               DayTags(days, k, account, fmt, feeds, bodies), days, k, index, fmt)
    decreases |days| - k
  {
    var bodies := BodiesOf(account, index, convert);
    if k < |days| {
      var d := days[k];
      var day := DayRecords(account, fmt(d), feeds, bodies(fmt(d)));
      assert bodies(fmt(d)) == DayBodies(account, index, fmt(d), convert);
      DayRecordsAppendedOn(account, index, fmt(d), feeds, convert);
      DaysRecordsTagged(days, k + 1, account, index, fmt, feeds, convert);
      var restRecs := DaysRecords(days[k + 1..], account, fmt, feeds, bodies);
      var restTags := DayTags(days, k + 1, account, fmt, feeds, bodies);
      assert days[k..][0] == d && days[k..][1..] == days[k + 1..];
      assert DaysRecords(days[k..], account, fmt, feeds, bodies) == day + restRecs;
      assert DayTags(days, k, account, fmt, feeds, bodies) == Repeat(k, |day|) + restTags;
      TaggedOnCons(day, restRecs, restTags, days, k, index, fmt);
    }
  }

  /** Tags from `k` on, never decreasing. */
  predicate SortedFrom(tags: seq<nat>, k: nat) {
    && (forall p :: 0 <= p < |tags| ==> k <= tags[p])
    && (forall p, q :: 0 <= p < q < |tags| ==> tags[p] <= tags[q])
  }

  /** Tags `k` put before sorted tags from `k + 1` on stay sorted. */
  lemma SortedCons(k: nat, n: nat, rest: seq<nat>)
    requires SortedFrom(rest, k + 1)
    ensures SortedFrom(Repeat(k, n) + rest, k)
  {
    var tags := Repeat(k, n) + rest;
    forall p | 0 <= p < |tags| ensures k <= tags[p] {
      if p >= n {
        assert tags[p] == rest[p - n];
      }
    }
    forall p, q | 0 <= p < q < |tags| ensures tags[p] <= tags[q] {
      if q < n {
        assert tags[p] == k && tags[q] == k;
      } else if p < n {
        assert tags[p] == k && tags[q] == rest[q - n];
      } else {
        assert tags[p] == rest[p - n] && tags[q] == rest[q - n];
      }
    }
  }

  /** The tags never decrease: records of an earlier day come before those of a later one. */
  lemma {:induction false} DayTagsSorted(days: seq<int>, k: nat, account: Record, fmt: int -> string,
                                         feeds: Feeds, bodies: string -> Bodies)
    requires k <= |days|
    ensures SortedFrom(DayTags(days, k, account, fmt, feeds, bodies), k)
    decreases |days| - k
  {
    if k < |days| {
      DayTagsSorted(days, k + 1, account, fmt, feeds, bodies);
      var n := |DayRecords(account, fmt(days[k]), feeds, bodies(fmt(days[k])))|;
      SortedCons(k, n, DayTags(days, k + 1, account, fmt, feeds, bodies));
    }
  }

  /** Over the window from `hi` down to `lo`, tagged records in tag order are
      records of days `hi - tag`, never increasing. */
  lemma WindowTags(hi: int, lo: int, recs: seq<Record>, tags: seq<nat>, index: nat, fmt: int -> string)
    requires TaggedOn(recs, tags, Days(hi, lo), 0, index, fmt) && SortedFrom(tags, 0)
    ensures |recs| == |tags|
    ensures forall p :: 0 <= p < |recs| ==> lo <= hi - tags[p] <= hi && AppendedOn(recs[p], index, fmt(hi - tags[p]))
    ensures forall p, q :: 0 <= p < q < |recs| ==> hi - tags[p] >= hi - tags[q]
  {
    var days := Days(hi, lo);
    forall p | 0 <= p < |recs| ensures lo <= hi - tags[p] <= hi && AppendedOn(recs[p], index, fmt(hi - tags[p])) {
      assert days[tags[p]] == hi - tags[p];
    }
  }

  /** Over the window from `hi` down to `lo`, record `p` was appended on day
      `hi - tags[p]`, and those days never increase: newest day first. */
  lemma WindowNewestFirst(hi: int, lo: int, account: Record, index: nat, fmt: int -> string,
                          feeds: Feeds, convert: Converter)
    ensures var days, bodies := Days(hi, lo), BodiesOf(account, index, convert);
      var recs, tags := DaysRecords(days, account, fmt, feeds, bodies), DayTags(days, 0, account, fmt, feeds, bodies);
      && |recs| == |tags|
      && (forall p :: 0 <= p < |recs| ==> lo <= hi - tags[p] <= hi && AppendedOn(recs[p], index, fmt(hi - tags[p])))
      && (forall p, q :: 0 <= p < q < |recs| ==> hi - tags[p] >= hi - tags[q])
  {
    var days, bodies := Days(hi, lo), BodiesOf(account, index, convert);
    DaysRecordsTagged(days, 0, account, index, fmt, feeds, convert);
    DayTagsSorted(days, 0, account, fmt, feeds, bodies);
    assert days[0..] == days;
    var recs, tags := DaysRecords(days, account, fmt, feeds, bodies), DayTags(days, 0, account, fmt, feeds, bodies);
    assert TaggedOn(recs, tags, days, 0, index, fmt) && SortedFrom(tags, 0);
    WindowTags(hi, lo, recs, tags, index, fmt);
  }

  // ---------------------------------------------------------------------------
  // The account loop

  /** Once the walk has passed `from_date`, the remaining accounts are only reset. */
  lemma {:induction false} SpentWalkOnlyResets(accs: seq<Record>, i: nat, date: int, fromDate: int,
                                               fmt: int -> string, feeds: Feeds, convert: Converter)
    requires i <= |accs| && date < fromDate
    ensures var r := RunAccounts(accs, i, date, fromDate, fmt, feeds, convert);
      && r.err.None?
      && (forall j :: 0 <= j < i ==> r.accounts[j] == accs[j])
      && (forall j :: i <= j < |accs| ==> r.accounts[j] == accs[j]["Transactions" := TxList([])])
    decreases |accs| - i
  {
    if i < |accs| {
      var account := accs[i]["Transactions" := TxList([])];
      assert Days(date, fromDate) == [];
      assert account["Transactions" := TxList([])] == account;
      var updated := accs[i := account];
      SpentWalkOnlyResets(updated, i + 1, date, fromDate, fmt, feeds, convert);
    }
  }

  /** One step of the account loop. */
  lemma RunStep(accs: seq<Record>, i: nat, date: int, fromDate: int,
                fmt: int -> string, feeds: Feeds, convert: Converter)
    requires i < |accs|
    ensures var account := accs[i]["Transactions" := TxList([])];
      var p := WalkDays([], Days(date, fromDate), account, fmt, feeds, BodiesOf(account, i, convert));
      var updated := accs[i := account["Transactions" := TxList(p.txs)]];
      RunAccounts(accs, i, date, fromDate, fmt, feeds, convert)
        == if p.err.Some? then Run(updated, p.err)
           else RunAccounts(updated, i + 1, if date >= fromDate then fromDate - 1 else date, fromDate, fmt, feeds, convert)
  {
  }

  /** `date` is set once, before the account loop: the first account walks the whole
      window; every later account only has `Transactions` reset to `[]`, and is not
      touched at all when the first account's walk raised. */
  lemma HistoryFirstAccountOnly(accs: seq<Record>, yesterday: int, daysBack: int,
                                fmt: int -> string, feeds: Feeds, convert: Converter)
    requires |accs| >= 1
    ensures var account := accs[0]["Transactions" := TxList([])];
      var p := WalkDays([], Days(yesterday, yesterday - daysBack), account, fmt, feeds, BodiesOf(account, 0, convert));
      var r := TransactionHistory(accs, yesterday, daysBack, fmt, feeds, convert);
      && r.err == p.err
      && r.accounts[0] == account["Transactions" := TxList(p.txs)]
      && (forall j :: 1 <= j < |accs| ==>
            r.accounts[j] == if p.err.None? then accs[j]["Transactions" := TxList([])] else accs[j])
  {
    var fromDate := yesterday - daysBack;
    var account := accs[0]["Transactions" := TxList([])];
    var p := WalkDays([], Days(yesterday, fromDate), account, fmt, feeds, BodiesOf(account, 0, convert));
    var updated := accs[0 := account["Transactions" := TxList(p.txs)]];
    var r := TransactionHistory(accs, yesterday, daysBack, fmt, feeds, convert);
    assert r == RunAccounts(accs, 0, yesterday, fromDate, fmt, feeds, convert);
    RunStep(accs, 0, yesterday, fromDate, fmt, feeds, convert);
    if p.err.None? {
      var next := if yesterday >= fromDate then fromDate - 1 else yesterday;
      assert r == RunAccounts(updated, 1, next, fromDate, fmt, feeds, convert);
      SpentWalkOnlyResets(updated, 1, next, fromDate, fmt, feeds, convert);
    } else {
      assert r == Run(updated, p.err);
    }
  }

  /** The whole run: it raises nothing exactly when no day of the window raises; then
      the first account holds the window's records, newest day first, and every
      other account holds none. */
  lemma HistoryContents(accs: seq<Record>, yesterday: int, daysBack: int,
                        fmt: int -> string, feeds: Feeds, convert: Converter)
    requires |accs| >= 1
    ensures var account := accs[0]["Transactions" := TxList([])];
      var days, bodies := Days(yesterday, yesterday - daysBack), BodiesOf(account, 0, convert);
      var r := TransactionHistory(accs, yesterday, daysBack, fmt, feeds, convert);
      && (r.err.None? <==> AllDaysOk(days, account, fmt, feeds, bodies))
      && (r.err.None? ==>
            && r.accounts[0] == account["Transactions" := TxList(DaysRecords(days, account, fmt, feeds, bodies))]
            && forall j :: 1 <= j < |accs| ==> r.accounts[j] == accs[j]["Transactions" := TxList([])])
  {
    var account := accs[0]["Transactions" := TxList([])];
    var days, bodies := Days(yesterday, yesterday - daysBack), BodiesOf(account, 0, convert);
    HistoryFirstAccountOnly(accs, yesterday, daysBack, fmt, feeds, convert);
    var p := WalkDays([], days, account, fmt, feeds, bodies);
    WalkRaises([], days, account, fmt, feeds, bodies);
    if p.err.None? {
      WalkAppends([], days, account, fmt, feeds, bodies);
      assert p.txs == DaysRecords(days, account, fmt, feeds, bodies);
    }
  }

  /** The items of a `Transactions` list, each a record appended on day `hi - tags[p]`
      within `[lo, hi]` for account `index`, the days never increasing. */
  ghost predicate ItemsNewestFirst(items: seq<Value>, tags: seq<nat>, hi: int, lo: int, index: nat,
                                   fmt: int -> string) {
    && |items| == |tags|
    && (forall p :: 0 <= p < |tags| ==>
          && lo <= hi - tags[p] <= hi
          && items[p].Obj? && AppendedOn(items[p].fields, index, fmt(hi - tags[p])))
    && (forall p, q :: 0 <= p < q < |tags| ==> tags[p] <= tags[q])
  }

  /** Day-tagged records keep their tags once put into a `Transactions` list. */
  lemma TxListNewestFirst(recs: seq<Record>, tags: seq<nat>, hi: int, lo: int, index: nat,
                          fmt: int -> string)
    requires |recs| == |tags|
    requires forall p :: 0 <= p < |recs| ==> lo <= hi - tags[p] <= hi && AppendedOn(recs[p], index, fmt(hi - tags[p]))
    requires forall p, q :: 0 <= p < q < |recs| ==> hi - tags[p] >= hi - tags[q]
    ensures ItemsNewestFirst(TxList(recs).items, tags, hi, lo, index, fmt)
  {
    var items := TxList(recs).items;
    forall p | 0 <= p < |tags| ensures items[p].Obj? && AppendedOn(items[p].fields, index, fmt(hi - tags[p])) {
      assert items[p] == Obj(recs[p]);
    }
  }

  /** The record shaping, read off the first account's `Transactions` after a run
      without an exception: item `p` is a record appended on day `yesterday - tags[p]`
      of the window, carrying that day's formatted date, the first account, one of the
      three types and a description `Type: text`; the days never increase. */
  lemma HistoryRecordsStamped(accs: seq<Record>, yesterday: int, daysBack: int,
                              fmt: int -> string, feeds: Feeds, convert: Converter)
    requires |accs| >= 1
    ensures var account := accs[0]["Transactions" := TxList([])];
      var days, bodies := Days(yesterday, yesterday - daysBack), BodiesOf(account, 0, convert);
      var r := TransactionHistory(accs, yesterday, daysBack, fmt, feeds, convert);
      r.err.None? ==>
        && "Transactions" in r.accounts[0] && r.accounts[0]["Transactions"].List?
        && ItemsNewestFirst(r.accounts[0]["Transactions"].items, DayTags(days, 0, account, fmt, feeds, bodies),
                            yesterday, yesterday - daysBack, 0, fmt)
  {
    var account := accs[0]["Transactions" := TxList([])];
    var days, bodies := Days(yesterday, yesterday - daysBack), BodiesOf(account, 0, convert);
    var recs, tags := DaysRecords(days, account, fmt, feeds, bodies), DayTags(days, 0, account, fmt, feeds, bodies);
    WindowNewestFirst(yesterday, yesterday - daysBack, account, 0, fmt, feeds, convert);
    TxListNewestFirst(recs, tags, yesterday, yesterday - daysBack, 0, fmt);
    assert ItemsNewestFirst(TxList(recs).items, tags, yesterday, yesterday - daysBack, 0, fmt);
    var r := TransactionHistory(accs, yesterday, daysBack, fmt, feeds, convert);
    if r.err.None? {
      assert "Transactions" in r.accounts[0] && r.accounts[0]["Transactions"] == TxList(recs) by {
        HistoryContents(accs, yesterday, daysBack, fmt, feeds, convert);
      }
    }
  }

  /** A negative `days_back` visits no day: every account ends with no records. */
  lemma HistoryNegativeDaysBack(accs: seq<Record>, yesterday: int, daysBack: int,
                                fmt: int -> string, feeds: Feeds, convert: Converter)
    requires daysBack < 0
    ensures var r := TransactionHistory(accs, yesterday, daysBack, fmt, feeds, convert);
      && r.err.None?
      && forall j :: 0 <= j < |accs| ==> r.accounts[j] == accs[j]["Transactions" := TxList([])]
  {
    SpentWalkOnlyResets(accs, 0, yesterday, yesterday - daysBack, fmt, feeds, convert);
  }
}
