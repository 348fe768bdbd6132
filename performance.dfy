/**
 * The trading-performance endpoints (Controllers/PerformanceController.cs): the
 * case-insensitive PATCH body over twelve columns and its `UpdatedAt` stamp, the
 * PUT/POST/DELETE outcomes, the by-FxId and by-week listings, and the per-FxId summary.
 */
module PerformanceRecords {

  import opened Wrappers
  import opened Text
  import opened Models
  import opened Data
  import Query
  import Grouping

  // ---------------------------------------------------------------------------
  // Queries

  /** `OrderByDescending(p => p.DateTime)`. */
  predicate NewerFirst(a: Performance, b: Performance) {
    a.dateTime >= b.dateTime
  }

  lemma NewerFirstIsTotalPreorder()
    ensures Query.TotalPreorder(NewerFirst)
  {
  }

  /** `OrderBy(p => p.FxId)`, compared ordinally. */
  predicate ByFxId(a: Performance, b: Performance) {
    OrdinalLe(a.fxId, b.fxId)
  }

  lemma ByFxIdIsTotalPreorder()
    ensures Query.TotalPreorder(ByFxId)
  {
    forall a: Performance, b: Performance
      ensures ByFxId(a, b) || ByFxId(b, a)
    {
      OrdinalLeTotal(a.fxId, b.fxId);
    }
    forall a: Performance, b: Performance, c: Performance | ByFxId(a, b) && ByFxId(b, c)
      ensures ByFxId(a, c)
    {
      OrdinalLeTransitive(a.fxId, b.fxId, c.fxId);
    }
  }

  /** GET api/performance/by-fxid/{fxid}: exactly the records of that FxId (exact match), newest first. */
  function GetPerformanceByFxId(performance: seq<Performance>, fxId: string): (r: seq<Performance>)
    ensures forall p :: multiset(r)[p] == if p.fxId == fxId then multiset(performance)[p] else 0
    ensures forall i, j :: 0 <= i < j < |r| ==> r[i].dateTime >= r[j].dateTime
  {
    NewerFirstIsTotalPreorder();
    Query.SortBy(Query.Filter(performance, (p: Performance) => p.fxId == fxId), NewerFirst)
  }

  /** GET api/performance/week/{week}/year/{year}: exactly the records of that week of that year, by ascending FxId. */
  function GetPerformanceByWeek(performance: seq<Performance>, week: int, year: int): (r: seq<Performance>)
    ensures forall p :: multiset(r)[p] == if p.week == week && p.year == year then multiset(performance)[p] else 0
    ensures forall i, j :: 0 <= i < j < |r| ==> OrdinalLe(r[i].fxId, r[j].fxId)
  {
    ByFxIdIsTotalPreorder();
    Query.SortBy(Query.Filter(performance, (p: Performance) => p.week == week && p.year == year), ByFxId)
  }

  function FxIdOf(p: Performance): string { p.fxId }
  function ResultsOf(p: Performance): Cents { p.results }
  function DateTimeOf(p: Performance): Timestamp { p.dateTime }

  /** One row of the summary; the average of `Results` is not part of this model. */
  datatype FxSummary = FxSummary(fxId: string, totalResults: Cents, recordCount: int, lastUpdated: Timestamp)

  /** Some record has FxId `fxId`: its group is not empty. */
  predicate HasRecords(performance: seq<Performance>, fxId: string) {
    exists p :: p in performance && FxIdOf(p) == fxId
  }

  /**
   * `Sum(p => p.Results)`, `Count()` and `Max(p => p.DateTime)` over the group of `fxId`:
   * the group has at least one record, and `LastUpdated` is the latest `DateTime` in it.
   */
  function FxGroup(performance: seq<Performance>, fxId: string): (r: FxSummary)
    requires HasRecords(performance, fxId)
    ensures r.fxId == fxId
    ensures r.recordCount >= 1
    ensures exists p :: p in performance && p.fxId == fxId && p.dateTime == r.lastUpdated
    ensures forall p :: p in performance && p.fxId == fxId ==> p.dateTime <= r.lastUpdated
  {
    PresentKeyIsCounted(performance, fxId);
    var last := Grouping.MaxWhere(performance, FxIdOf, fxId, DateTimeOf);
    FxSummary(
      fxId,
      Grouping.SumWhere(performance, FxIdOf, fxId, ResultsOf),
      Grouping.SumWhere(performance, FxIdOf, fxId, Grouping.One),
      last)
  }

  lemma {:induction false} PresentKeyIsCounted(performance: seq<Performance>, fxId: string)
    requires HasRecords(performance, fxId)
    decreases |performance|
    ensures Grouping.SumWhere(performance, FxIdOf, fxId, Grouping.One) >= 1
  {
    var init, last := performance[..|performance| - 1], performance[|performance| - 1];
    assert performance == init + [last];
    if last.fxId != fxId {
      var p :| p in performance && FxIdOf(p) == fxId;
      assert p in init;
      PresentKeyIsCounted(init, fxId);
    } else {
      CountIsNonNegative(init, fxId);
    }
  }

  lemma {:induction false} CountIsNonNegative(performance: seq<Performance>, fxId: string)
    decreases |performance|
    ensures Grouping.SumWhere(performance, FxIdOf, fxId, Grouping.One) >= 0
  {
    if performance != [] {
      CountIsNonNegative(performance[..|performance| - 1], fxId);
    }
  }

  /** One summary row per FxId of `fxIds`, in that order. */
  function FxGroups(performance: seq<Performance>, fxIds: seq<string>): (r: seq<FxSummary>)
    requires forall k :: k in fxIds ==> HasRecords(performance, k)
    decreases |fxIds|
    ensures |r| == |fxIds|
    ensures forall i :: 0 <= i < |r| ==> r[i] == FxGroup(performance, fxIds[i])
    ensures forall i :: 0 <= i < |r| ==> r[i].fxId == fxIds[i]
  {
    if fxIds == [] then []
    else FxGroups(performance, fxIds[..|fxIds| - 1]) + [FxGroup(performance, fxIds[|fxIds| - 1])]
  }

  /**
   * GET api/performance/summary: one row per FxId in use (no FxId twice, none missing,
   * none invented), each holding the aggregates of its FxId's records. The rows come in
   * order of first appearance.
   */
  function GetPerformanceSummary(performance: seq<Performance>): (r: seq<FxSummary>)
    ensures forall i, j :: 0 <= i < j < |r| ==> r[i].fxId != r[j].fxId
    ensures forall p :: p in performance ==> exists i :: 0 <= i < |r| && r[i].fxId == p.fxId
    ensures forall i :: 0 <= i < |r| ==> HasRecords(performance, r[i].fxId)
    ensures forall i :: 0 <= i < |r| ==> r[i] == FxGroup(performance, r[i].fxId)
  {
    var fxIds := Grouping.Keys(performance, FxIdOf);
    assert forall k :: k in fxIds ==> HasRecords(performance, k);
    var r := FxGroups(performance, fxIds);
    EveryFxIdHasARow(performance, fxIds, r);
    EveryRowHasRecords(performance, fxIds, r);
    r
  }

  lemma EveryFxIdHasARow(performance: seq<Performance>, fxIds: seq<string>, rows: seq<FxSummary>)
    requires forall p :: p in performance ==> FxIdOf(p) in fxIds
    requires |rows| == |fxIds| && forall i :: 0 <= i < |rows| ==> rows[i].fxId == fxIds[i]
    ensures forall p :: p in performance ==> exists i :: 0 <= i < |rows| && rows[i].fxId == p.fxId
  {
    forall p | p in performance
      ensures exists i :: 0 <= i < |rows| && rows[i].fxId == p.fxId
    {
      var i :| 0 <= i < |fxIds| && fxIds[i] == FxIdOf(p);
      assert rows[i].fxId == p.fxId;
    }
  }

  lemma EveryRowHasRecords(performance: seq<Performance>, fxIds: seq<string>, rows: seq<FxSummary>)
    requires forall k :: k in fxIds ==> HasRecords(performance, k)
    requires |rows| == |fxIds| && forall i :: 0 <= i < |rows| ==> rows[i].fxId == fxIds[i]
    ensures forall i :: 0 <= i < |rows| ==> HasRecords(performance, rows[i].fxId)
  {
    forall i | 0 <= i < |rows|
      ensures HasRecords(performance, rows[i].fxId)
    {
      assert fxIds[i] in fxIds;
    }
  }

  function SumResults(rows: seq<FxSummary>): Cents {
    if rows == [] then 0 else SumResults(rows[..|rows| - 1]) + rows[|rows| - 1].totalResults
  }

  function SumRecordCounts(rows: seq<FxSummary>): int {
    if rows == [] then 0 else SumRecordCounts(rows[..|rows| - 1]) + rows[|rows| - 1].recordCount
  }

  lemma {:induction false} GroupColumnsAreKeySums(performance: seq<Performance>, fxIds: seq<string>)
    requires forall k :: k in fxIds ==> HasRecords(performance, k)
    decreases |fxIds|
    ensures SumResults(FxGroups(performance, fxIds)) == Grouping.SumOverKeys(performance, FxIdOf, fxIds, ResultsOf)
    ensures SumRecordCounts(FxGroups(performance, fxIds)) == Grouping.SumOverKeys(performance, FxIdOf, fxIds, Grouping.One)
  {
    if fxIds != [] {
      var init := fxIds[..|fxIds| - 1];
      GroupColumnsAreKeySums(performance, init);
      var rows := FxGroups(performance, fxIds);
      assert rows[..|rows| - 1] == FxGroups(performance, init);
    }
  }

  /**
   * The FxId groups partition the records: the record counts add up to the number of
   * records, and the per-FxId totals of `Results` add up to the overall total.
   */
  lemma SummaryAddsUp(performance: seq<Performance>)
    ensures SumRecordCounts(GetPerformanceSummary(performance)) == |performance|
    ensures SumResults(GetPerformanceSummary(performance)) == Grouping.Total(performance, ResultsOf)
  {
    var fxIds := Grouping.Keys(performance, FxIdOf);
    assert forall k :: k in fxIds ==> HasRecords(performance, k);
    GroupColumnsAreKeySums(performance, fxIds);
    Grouping.GroupsPartition(performance, FxIdOf, Grouping.One);
    Grouping.GroupsPartition(performance, FxIdOf, ResultsOf);
    Grouping.CountIsLength(performance);
  }

  // ---------------------------------------------------------------------------
  // The PATCH body

  /** The keys the `switch (update.Key.ToLower())` recognises. */
  const PatchableFields: set<string> := {
    "results", "comments", "filepath", "totaltrades", "totalprofit", "maxwin",
    "minwin", "accounttype", "week", "month", "year", "datetime"}

  const DecimalFields: set<string> := {"results", "totalprofit", "maxwin", "minwin"}
  const IntegerFields: set<string> := {"totaltrades", "week", "month", "year"}

  /** The conversion this entry's key calls for throws on its value. */
  predicate Throws(u: Update) {
    var field := ToLower(u.key);
    || (field in DecimalFields && u.value.decimal.None?)
    || (field in IntegerFields && u.value.int32.None?)
    || (field == "datetime" && u.value.dateTime.None?)
  }

  /** One iteration of the `foreach`; None when a conversion throws. */
  function PatchStep(p: Performance, u: Update): Option<Performance> {
    var field := ToLower(u.key);
    var v := u.value;
    if field == "results" then
      (match v.decimal case None => None case Some(x) => Some(p.(results := x)))
    else if field == "comments" then Some(p.(comments := v.text))
    else if field == "filepath" then Some(p.(filePath := v.text))
    else if field == "totaltrades" then
      (match v.int32 case None => None case Some(n) => Some(p.(totalTrades := Some(n))))
    else if field == "totalprofit" then
      (match v.decimal case None => None case Some(x) => Some(p.(totalProfit := Some(x))))
    else if field == "maxwin" then
      (match v.decimal case None => None case Some(x) => Some(p.(maxWin := Some(x))))
    else if field == "minwin" then
      (match v.decimal case None => None case Some(x) => Some(p.(minWin := Some(x))))
    else if field == "accounttype" then Some(p.(accountType := v.text))
    else if field == "week" then
      (match v.int32 case None => None case Some(n) => Some(p.(week := n)))
    else if field == "month" then
      (match v.int32 case None => None case Some(n) => Some(p.(month := n)))
    else if field == "year" then
      (match v.int32 case None => None case Some(n) => Some(p.(year := n)))
    else if field == "datetime" then
      (match v.dateTime case None => None case Some(t) => Some(p.(dateTime := t)))
    else Some(p)
  }

  function PatchFrom(p: Performance, us: seq<Update>): Option<Performance>
    decreases |us|
  {
    if us == [] then Some(p)
    else match PatchStep(p, us[0])
      case None => None
      case Some(p') => PatchFrom(p', us[1..])
  }

  /** The record after the whole body and the `UpdatedAt` stamp; None when a conversion throws. */
  function Patched(p: Performance, updates: seq<Update>, now: Timestamp): Option<Performance> {
    match PatchFrom(p, updates)
    case None => None
    case Some(r) => Some(r.(updatedAt := now))
  }

  /** The `foreach` over the body followed by the stamp. */
  method ApplyPatch(p: Performance, updates: seq<Update>, now: Timestamp) returns (r: Option<Performance>)
    ensures r == Patched(p, updates, now)
  {
    var performance := p;
    var i := 0;
    while i < |updates|
      invariant 0 <= i <= |updates|
      invariant PatchFrom(p, updates) == PatchFrom(performance, updates[i..])
    {
      var update := updates[i];
      assert updates[i..][0] == update && updates[i..][1..] == updates[i + 1..];
      var field := ToLower(update.key);
      var v := update.value;
      if field == "results" {
        if v.decimal.None? { return None; }
        performance := performance.(results := v.decimal.value);
      } else if field == "comments" {
        performance := performance.(comments := v.text);
      } else if field == "filepath" {
        performance := performance.(filePath := v.text);
      } else if field == "totaltrades" {
        if v.int32.None? { return None; }
        performance := performance.(totalTrades := Some(v.int32.value));
      } else if field == "totalprofit" {
        if v.decimal.None? { return None; }
        performance := performance.(totalProfit := Some(v.decimal.value));
      } else if field == "maxwin" {
        if v.decimal.None? { return None; }
        performance := performance.(maxWin := Some(v.decimal.value));
      } else if field == "minwin" {
        if v.decimal.None? { return None; }
        performance := performance.(minWin := Some(v.decimal.value));
      } else if field == "accounttype" {
        performance := performance.(accountType := v.text);
      } else if field == "week" {
        if v.int32.None? { return None; }
        performance := performance.(week := v.int32.value);
      } else if field == "month" {
        if v.int32.None? { return None; }
        performance := performance.(month := v.int32.value);
      } else if field == "year" {
        if v.int32.None? { return None; }
        performance := performance.(year := v.int32.value);
      } else if field == "datetime" {
        if v.dateTime.None? { return None; }
        performance := performance.(dateTime := v.dateTime.value);
      }
      i := i + 1;
    }
    performance := performance.(updatedAt := now);
    r := Some(performance);
  }

  /** `r` differs from `p` only in the columns `sel` names. */
  predicate KeepsUnselected(p: Performance, r: Performance, sel: set<string>) {
    && r.id == p.id
    && r.fxId == p.fxId
    && r.accountBase == p.accountBase
    && r.createdAt == p.createdAt
    && r.updatedAt == p.updatedAt
    && ("results" !in sel ==> r.results == p.results)
    && ("comments" !in sel ==> r.comments == p.comments)
    && ("filepath" !in sel ==> r.filePath == p.filePath)
    && ("totaltrades" !in sel ==> r.totalTrades == p.totalTrades)
    && ("totalprofit" !in sel ==> r.totalProfit == p.totalProfit)
    && ("maxwin" !in sel ==> r.maxWin == p.maxWin)
    && ("minwin" !in sel ==> r.minWin == p.minWin)
    && ("accounttype" !in sel ==> r.accountType == p.accountType)
    && ("week" !in sel ==> r.week == p.week)
    && ("month" !in sel ==> r.month == p.month)
    && ("year" !in sel ==> r.year == p.year)
    && ("datetime" !in sel ==> r.dateTime == p.dateTime)
  }

  lemma PatchStepChangesOnlyItsField(p: Performance, u: Update)
    requires PatchStep(p, u).Some?
    ensures KeepsUnselected(p, PatchStep(p, u).value, {ToLower(u.key)})
  {
  }

  lemma {:induction false} PatchFromChangesOnlyNamedFields(p: Performance, us: seq<Update>)
    requires PatchFrom(p, us).Some?
    decreases |us|
    ensures KeepsUnselected(p, PatchFrom(p, us).value, Selected(us))
  {
    if us != [] {
      var p' := PatchStep(p, us[0]).value;
      PatchStepChangesOnlyItsField(p, us[0]);
      PatchFromChangesOnlyNamedFields(p', us[1..]);
      assert Selected(us) == {ToLower(us[0].key)} + Selected(us[1..]);
    }
  }

  /**
   * The body changes only what it names, and `UpdatedAt` is stamped whatever it holds:
   * `Id`, `FxId`, `AccountBase` and `CreatedAt` never change.
   */
  lemma PatchChangesOnlyNamedFields(p: Performance, updates: seq<Update>, now: Timestamp)
    requires Patched(p, updates, now).Some?
    ensures var r := Patched(p, updates, now).value;
      && r.id == p.id
      && r.fxId == p.fxId
      && r.accountBase == p.accountBase
      && r.createdAt == p.createdAt
      && r.updatedAt == now
      && (!Mentions(updates, "results") ==> r.results == p.results)
      && (!Mentions(updates, "comments") ==> r.comments == p.comments)
      && (!Mentions(updates, "filepath") ==> r.filePath == p.filePath)
      && (!Mentions(updates, "totaltrades") ==> r.totalTrades == p.totalTrades)
      && (!Mentions(updates, "totalprofit") ==> r.totalProfit == p.totalProfit)
      && (!Mentions(updates, "maxwin") ==> r.maxWin == p.maxWin)
      && (!Mentions(updates, "minwin") ==> r.minWin == p.minWin)
      && (!Mentions(updates, "accounttype") ==> r.accountType == p.accountType)
      && (!Mentions(updates, "week") ==> r.week == p.week)
      && (!Mentions(updates, "month") ==> r.month == p.month)
      && (!Mentions(updates, "year") ==> r.year == p.year)
      && (!Mentions(updates, "datetime") ==> r.dateTime == p.dateTime)
  {
    PatchFromChangesOnlyNamedFields(p, updates);
    assert forall field :: field in Selected(updates) <==> Mentions(updates, field);
  }

  /** An empty body still stamps `UpdatedAt` and changes nothing else. */
  lemma EmptyPatchOnlyStamps(p: Performance, now: Timestamp)
    ensures Patched(p, [], now) == Some(p.(updatedAt := now))
  {
  }

  lemma {:induction false} PatchFromIgnoresUnknownKeys(p: Performance, us: seq<Update>)
    decreases |us|
    ensures PatchFrom(p, us) == PatchFrom(p, KnownOnly(us, PatchableFields))
  {
    if us != [] {
      if ToLower(us[0].key) in PatchableFields {
        var known := [us[0]] + KnownOnly(us[1..], PatchableFields);
        assert known[0] == us[0] && known[1..] == KnownOnly(us[1..], PatchableFields);
        match PatchStep(p, us[0])
        case None =>
        case Some(p') => PatchFromIgnoresUnknownKeys(p', us[1..]);
      } else {
        assert PatchStep(p, us[0]) == Some(p);
        assert KnownOnly(us, PatchableFields) == KnownOnly(us[1..], PatchableFields);
        PatchFromIgnoresUnknownKeys(p, us[1..]);
      }
    }
  }

  /** Unknown keys are ignored: the body acts as its recognised entries alone. */
  lemma UnknownKeysIgnored(p: Performance, updates: seq<Update>, now: Timestamp)
    ensures Patched(p, updates, now) == Patched(p, KnownOnly(updates, PatchableFields), now)
  {
    PatchFromIgnoresUnknownKeys(p, updates);
  }

  lemma {:induction false} PatchFromIgnoresKeyCase(p: Performance, us: seq<Update>)
    decreases |us|
    ensures PatchFrom(p, us) == PatchFrom(p, LoweredKeys(us))
  {
    if us != [] {
      var lowered := LoweredKeys(us);
      assert lowered[1..] == LoweredKeys(us[1..]);
      ToLowerIdempotent(us[0].key);
      assert PatchStep(p, us[0]) == PatchStep(p, lowered[0]);
      match PatchStep(p, us[0])
      case None =>
      case Some(p') => PatchFromIgnoresKeyCase(p', us[1..]);
    }
  }

  /** Keys are matched whatever their case: "Results", "RESULTS" and "results" act alike. */
  lemma KeyCaseIgnored(p: Performance, updates: seq<Update>, now: Timestamp)
    ensures Patched(p, updates, now) == Patched(p, LoweredKeys(updates), now)
  {
    PatchFromIgnoresKeyCase(p, updates);
  }

  /** Some entry's conversion throws. */
  predicate AnyThrows(us: seq<Update>) {
    exists i :: 0 <= i < |us| && Throws(us[i])
  }

  lemma PatchStepFailsOnlyOnThrow(p: Performance, u: Update)
    ensures PatchStep(p, u).None? <==> Throws(u)
  {
  }

  lemma {:induction false} PatchFromFailsOnlyOnThrow(p: Performance, us: seq<Update>)
    decreases |us|
    ensures PatchFrom(p, us).None? <==> AnyThrows(us)
  {
    if us != [] {
      PatchStepFailsOnlyOnThrow(p, us[0]);
      if AnyThrows(us[1..]) {
        var i :| 0 <= i < |us[1..]| && Throws(us[1..][i]);
        assert Throws(us[i + 1]);
      }
      if AnyThrows(us) && !Throws(us[0]) {
        var i :| 0 <= i < |us| && Throws(us[i]);
        assert i > 0 && us[1..][i - 1] == us[i];
      }
      match PatchStep(p, us[0])
      case None =>
      case Some(p') => PatchFromFailsOnlyOnThrow(p', us[1..]);
    }
  }

  /** The patch fails exactly when some recognised numeric or date entry cannot be converted, whatever the record. */
  lemma PatchFailsExactlyOnThrow(p: Performance, updates: seq<Update>, now: Timestamp)
    ensures Patched(p, updates, now).None? <==> AnyThrows(updates)
  {
    PatchFromFailsOnlyOnThrow(p, updates);
  }

  // ---------------------------------------------------------------------------
  // The controller

  class PerformanceController {

    const context: AppDbContext

    constructor (context: AppDbContext)
      ensures this.context == context
    {
      this.context := context;
    }

    /** GET api/performance/{id}. */
    method GetPerformance(id: int) returns (status: Status, record: Option<Performance>)
      requires context.Valid()
      ensures record.Some? <==> exists j :: 0 <= j < |context.performance| && context.performance[j].id == id
      ensures record.Some? ==> status == Ok && record.value in context.performance && record.value.id == id
      ensures record.None? ==> status == NotFound
    {
      var found := FindPerformance(context.performance, id);
      if found.None? {
        return NotFound, None;
      }
      return Ok, Some(context.performance[found.value]);
    }

    /**
     * PATCH api/performance/{id}: applies the body to the stored record, stamps
     * `UpdatedAt` and saves; a conversion that throws fails the request unsaved.
     */
    method PatchPerformance(id: int, updates: seq<Update>, now: Timestamp) returns (status: Status)
      requires context.Valid()
      modifies context`performance
      ensures context.Valid()
      ensures FindPerformance(old(context.performance), id).None? ==> status == NotFound && unchanged(context)
      ensures FindPerformance(old(context.performance), id).Some? ==>
        var k := FindPerformance(old(context.performance), id).value;
        match Patched(old(context.performance)[k], updates, now)
        case None => status == ServerError && unchanged(context)
        case Some(r) => status == NoContent && context.performance == old(context.performance)[k := r]
    {
      var found := FindPerformance(context.performance, id);
      if found.None? {
        return NotFound;
      }
      var k := found.value;
      var patched := ApplyPatch(context.performance[k], updates, now);
      if patched.None? {
        return ServerError;
      }
      PatchChangesOnlyNamedFields(context.performance[k], updates, now);
      context.performance := context.performance[k := patched.value];
      status := NoContent;
    }

    /** PUT api/performance/{id}: the stored record with that id is replaced by the body. */
    method PutPerformance(id: int, performance: Performance) returns (status: Status)
      requires context.Valid()
      modifies context`performance
      ensures context.Valid()
      ensures id != performance.id ==> status == BadRequest && unchanged(context)
      ensures id == performance.id && FindPerformance(old(context.performance), id).None? ==>
        status == NotFound && unchanged(context)
      ensures id == performance.id && FindPerformance(old(context.performance), id).Some? ==>
        status == NoContent
        && context.performance == old(context.performance)[FindPerformance(old(context.performance), id).value := performance]
    {
      if id != performance.id {
        return BadRequest;
      }
      var found := FindPerformance(context.performance, id);
      if found.None? {
        return NotFound;
      }
      context.performance := context.performance[found.value := performance];
      status := NoContent;
    }

    /** POST api/performance: the record is inserted with the next identity value; a body carrying its own `Id` fails the save. */
    method PostPerformance(performance: Performance) returns (status: Status)
      requires context.Valid()
      modifies context`performance, context`performanceSeed
      ensures context.Valid()
      ensures var row := performance.(id := old(context.performanceSeed));
        if performance.id == 0 then
          status == Created(row.id) && context.performance == old(context.performance) + [row]
        else
          status == ServerError && unchanged(context)
    {
      if performance.id != 0 {
        return ServerError;
      }
      var row := performance.(id := context.performanceSeed);
      context.performance := context.performance + [row];
      context.performanceSeed := context.performanceSeed + 1;
      status := Created(row.id);
    }

    /** DELETE api/performance/{id}: exactly the record with that id is removed. */
    method DeletePerformance(id: int) returns (status: Status)
      requires context.Valid()
      modifies context`performance
      ensures context.Valid()
      ensures FindPerformance(old(context.performance), id).None? ==> status == NotFound && unchanged(context)
      ensures FindPerformance(old(context.performance), id).Some? ==>
        status == NoContent
        && context.performance == RemoveAt(old(context.performance), FindPerformance(old(context.performance), id).value)
        && multiset(context.performance) == multiset(old(context.performance)) - multiset{old(context.performance)[FindPerformance(old(context.performance), id).value]}
        && forall j :: 0 <= j < |context.performance| ==> context.performance[j].id != id
    {
      var found := FindPerformance(context.performance, id);
      if found.None? {
        return NotFound;
      }
      var k := found.value;
      RemovalDropsExactlyTheRecord(context.performance, k);
      context.performance := RemoveAt(context.performance, k);
      status := NoContent;
    }
  }

  /** Removing row `k` of a table with unique ids takes out that record, one copy of it, and its id. */
  lemma RemovalDropsExactlyTheRecord(performance: seq<Performance>, k: nat)
    requires k < |performance| && UniquePerformanceIds(performance)
    ensures multiset(RemoveAt(performance, k)) == multiset(performance) - multiset{performance[k]}
    ensures forall j :: 0 <= j < |performance| - 1 ==> RemoveAt(performance, k)[j].id != performance[k].id
  {
    assert performance == performance[..k] + [performance[k]] + performance[k + 1..];
    var rest := RemoveAt(performance, k);
    forall j | 0 <= j < |rest|
      ensures rest[j].id != performance[k].id
    {
      if j < k {
        assert rest[j] == performance[j];
      } else {
        assert rest[j] == performance[j + 1];
      }
    }
  }
}
