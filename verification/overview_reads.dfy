/**
 The overview of a request window: the finalized part from the cache, the recent
 gap from the live source, merged into the figures one pass over the raw log gives.
 Every statement may run against a different committed database.
 */
module OverviewReads {
  import opened Common
  import opened UsageRows
  import opened CacheDatabase
  import opened Consolidation
  import opened CostStatuses
  import opened Windows
  import opened RollupReads
  import Rollups

  datatype Overview = Overview(totals: Totals, sessions: nat, days: nat, costs: Option<CostSummary>)

  /** One pass over a set of rows. */
  ghost function OverviewOf(rows: set<Message>): Overview {
    Overview(Sum(AllColumns, rows), |SessionIds(rows)|, |Days(rows)|, CostOf(rows))
  }

  /** The measure of the cached half: a filtered read sums the model-attributed tokens. */
  function CacheMeasure(f: ModelFilter): Measure {
    if f.Active() then ModelColumns else AllColumns
  }

  /** A committed database of this source whose rows before the given cutoff are those of the log. */
  ghost predicate Consistent(db: Database, log: set<Message>, cutoff: int) {
    Derived(db) && Below(db.messages, cutoff) == Below(log, cutoff)
  }

  /**
   Every database committed during a steady run is consistent with the log the source
   shows at its end, and records no earlier cutoff.
   */
  lemma SteadyRunsAreConsistent(worlds: seq<World>, events: seq<Event>, digest: string, cutoff: nat, dbs: seq<Database>)
    requires IsRun(worlds, events) && Invariant(worlds[0]) && Shows(worlds[0], digest, cutoff)
    requires forall i :: 0 <= i < |events| ==> Steady(events[i], digest)
    requires |dbs| == |worlds|
    requires forall i :: 0 <= i < |dbs| ==> Derived(dbs[i]) && Cache(dbs[i].messages, dbs[i].state) == worlds[i].cache
    ensures forall i :: 0 <= i < |dbs| ==>
              Consistent(dbs[i], worlds[|worlds| - 1].logs(digest), cutoff) && cutoff <= Recorded(dbs[i].state)
  {
    hide Derived, Invariant, Below;
    SteadyRunsShowTheSameFinalRows(worlds, events, digest, cutoff);
    forall i | 0 <= i < |dbs|
      ensures Consistent(dbs[i], worlds[|worlds| - 1].logs(digest), cutoff) && cutoff <= Recorded(dbs[i].state)
    {
      assert Shows(worlds[i], digest, cutoff);
    }
  }

  function SelectAll(f: ModelFilter): Selection {
    Selection(f, AnyTime, None)
  }

  predicate IsAllTime(pq: PeriodQuery) {
    pq.fromTime.None? && pq.fromDate.None? && pq.preset.AllTime?
  }

  // ---- the cached half ----

  /** Where all time starts: with the day of the earliest cached row, or with today when nothing is cached. */
  ghost predicate IsTrendStart(rows: set<Message>, now: int, start: int) {
    if rows == {} then start == DayOf(now) * DAY_MS
    else (exists m :: m in rows && start == DayOf(m.time) * DAY_MS) && forall m :: m in rows ==> start <= m.time
  }

  /** The days of the cached rows, or today when nothing is cached. */
  method ObservedWindow(db: Database, now: int) returns (s: Span)
    ensures forall m :: m in db.messages ==> InSpan(m.time, s)
    ensures IsTrendStart(db.messages, now, s.start) && s.start < s.end
  {
    if db.messages == {} {
      return Span(DayOf(now) * DAY_MS, (DayOf(now) + 1) * DAY_MS);
    }
    var first :| first in db.messages;
    var low, high := first.time, first.time;
    var todo := db.messages;
    while todo != {}
      invariant forall m :: m in db.messages - todo ==> low <= m.time <= high
      invariant low <= high && exists m :: m in db.messages && m.time == low
      decreases todo
    {
      var m :| m in todo;
      low, high := if m.time < low then m.time else low, if high < m.time then m.time else high;
      todo := todo - {m};
    }
    s := Span(DayOf(low) * DAY_MS, (DayOf(high) + 1) * DAY_MS);
    forall m | m in db.messages
      ensures InSpan(m.time, s)
    {
      assert DayOf(low) * DAY_MS <= low && high < (DayOf(high) + 1) * DAY_MS;
    }
  }

  function RecordedCap(db: Database): Option<int> {
    if Recorded(db.state) > 0 then Some(Recorded(db.state)) else None
  }

  /**
   Resolves a query against the cache and clamps it at the cutoff it reads for itself.
   That read goes through the memo, so the clamp may be older or newer than the split's.
   */
  method PeriodWindow(observed: Database, clamp: Option<int>, sp: SplitWindows, now: int,
                      ghost query: PeriodQuery, ghost cutoff: Option<int>)
    returns (r: Span)
    requires SplitPeriod(query, cutoff, now) == Ok(sp) && cutoff.Some?
    ensures EndsByTheCutoff(sp, now, r, cutoff.value)
    ensures !IsAllTime(sp.cachePQ) ==> ResolvedAt(sp, now, clamp, r, 0)
    ensures forall m :: m in observed.messages ==> ResolvedAt(sp, now, clamp, r, m.time)
    ensures IsAllTime(sp.cachePQ) ==> IsTrendStart(observed.messages, now, r.start) && IsEmptyByACap(sp, clamp, r)
  {
    var pq := sp.cachePQ;
    if IsAllTime(pq) {
      r := ObservedWindow(observed, now);
      r := r.(end := Earlier(r.end, pq.toTime));
    } else {
      var (start, end) := ResolveQuery(pq, now).value;
      r := Span(start.value, end);
    }
    r := r.(end := Earlier(r.end, clamp));
  }

  /** The rows of the cached half, as the log has them. */
  ghost function CachedRows(log: set<Message>, sp: SplitWindows): set<Message> {
    Window(log, sp.CacheWindow().start, sp.CacheWindow().end)
  }

  /** A window for all time is empty only when the split's end or the clamp is not after its start. */
  predicate IsEmptyByACap(sp: SplitWindows, clamp: Option<int>, span: Span) {
    span.end <= span.start <==> (sp.cachePQ.toTime.Some? && sp.cachePQ.toTime.value <= span.start)
                                || (clamp.Some? && clamp.value <= span.start)
  }

  /** The rows of the cached half that a clamp from before the split's cutoff leaves out. */
  ghost function LostRows(log: set<Message>, sp: SplitWindows, clamp: Option<int>): set<Message> {
    if clamp.None? then {}
    else Window(log, if clamp.value < sp.CacheWindow().start then sp.CacheWindow().start else clamp.value, sp.CacheWindow().end)
  }

  /** The rows of the cached half that the cache serves under its own clamp. */
  ghost function ServedRows(log: set<Message>, sp: SplitWindows, clamp: Option<int>): set<Message> {
    CachedRows(log, sp) - LostRows(log, sp, clamp)
  }

  /** The clamp is no older than the split's cutoff, or no requested row of the cached half lies at or after it. */
  ghost predicate NothingLost(log: set<Message>, sp: SplitWindows, clamp: Option<int>, f: ModelFilter) {
    || !sp.hasCache || clamp.None? || sp.cutoff.None? || sp.cutoff.value <= clamp.value
    || forall m :: m in log && f.Matches(m) && sp.CacheWindow().start <= m.time < sp.CacheWindow().end ==>
         m.time < clamp.value
  }

  /** The cache serves all requested rows of its half exactly when nothing is lost. */
  lemma WhenAClampLosesNothing(log: set<Message>, sp: SplitWindows, clamp: Option<int>, f: ModelFilter,
                               pq: PeriodQuery, now: int)
    requires SplitPeriod(pq, sp.cutoff, now) == Ok(sp) && sp.hasCache && sp.cutoff.Some?
    ensures Matching(ServedRows(log, sp, clamp), SelectAll(f)) == Matching(CachedRows(log, sp), SelectAll(f))
            <==> NothingLost(log, sp, clamp, f)
  {
    CacheEndsByTheCutoff(sp, pq, sp.cutoff.value, now);
    hide SplitPeriod, SplitWindows.CacheWindow;
    var served, cached := Matching(ServedRows(log, sp, clamp), SelectAll(f)), Matching(CachedRows(log, sp), SelectAll(f));
    if served == cached {
      forall m | m in log && f.Matches(m) && clamp.Some? && sp.CacheWindow().start <= m.time < sp.CacheWindow().end
        ensures m.time < clamp.value
      {
        assert m in cached;
        assert m in served;
      }
    }
  }

  lemma AllMatch(rows: set<Message>)
    ensures Matching(rows, SelectAll(NO_FILTER)) == rows
  {
  }

  /** In a steady run a clamp that read a row no older than the split's loses nothing. */
  lemma AClampNoOlderLosesNothing(worlds: seq<World>, events: seq<Event>, digest: string, cutoff: nat, dbs: seq<Database>,
                                  sp: SplitWindows, version: nat, f: ModelFilter)
    requires IsRun(worlds, events) && Invariant(worlds[0]) && Shows(worlds[0], digest, cutoff)
    requires forall i :: 0 <= i < |events| ==> Steady(events[i], digest)
    requires |dbs| == |worlds| && version < |dbs|
    requires forall i :: 0 <= i < |dbs| ==> Derived(dbs[i]) && Cache(dbs[i].messages, dbs[i].state) == worlds[i].cache
    requires sp.cutoff == Some(cutoff)
    ensures NothingLost(worlds[|worlds| - 1].logs(digest), sp, RecordedCap(dbs[version]), f)
  {
    hide Derived, Invariant, Consistent;
    SteadyRunsAreConsistent(worlds, events, digest, cutoff, dbs);
    assert cutoff <= Recorded(dbs[version].state);
  }

  /** A split at one hour and a clamp at the hour before lose the rows between: they are before the gap and not served. */
  lemma AnEarlierClampLosesARow(m: Message, hour: nat, now: int)
    requires hour % HOUR_MS == 0 && 0 < hour <= m.time < hour + HOUR_MS <= now
    ensures var pq := PeriodQuery(LastHours(0), None, None, Some(0), Some(now + 1));
            var split := SplitPeriod(pq, Some(hour + HOUR_MS), now);
            && split.Ok? && split.value.hasCache && split.value.hasLive && split.value.GapStart() == hour + HOUR_MS
            && CachedRows({m}, split.value) == RequestedRows({m}, split.value.start, split.value.end, NO_FILTER) == {m}
            && ServedRows({m}, split.value, Some(hour)) == {} && Window({m}, split.value.GapStart(), split.value.end) == {}
  {
  }

  /** The window the cache resolved, seen from one instant at which a final row may lie. */
  ghost predicate ResolvedAt(sp: SplitWindows, now: int, cap: Option<int>, span: Span, t: int) {
    if IsAllTime(sp.cachePQ) then
      && span.start <= t
      && (t < span.end <==> (sp.cachePQ.toTime.Some? ==> t < sp.cachePQ.toTime.value) && (cap.Some? ==> t < cap.value))
    else
      ResolveQuery(sp.cachePQ, now).Ok? && ResolveQuery(sp.cachePQ, now).value.0.Some?
      && span == Span(ResolveQuery(sp.cachePQ, now).value.0.value, Earlier(ResolveQuery(sp.cachePQ, now).value.1, cap))
  }

  lemma ResolvedInstant(sp: SplitWindows, pq: PeriodQuery, cutoff: int, now: int, cap: Option<int>, span: Span, t: nat)
    requires SplitPeriod(pq, Some(cutoff), now) == Ok(sp)
    requires t < cutoff <= now && ResolvedAt(sp, now, cap, span, t)
    ensures InSpan(t, span) <==> InSpan(t, sp.CacheWindow()) && (cap.Some? ==> t < cap.value)
  {
  }

  /** The window of a cached half never reaches past the cutoff. */
  ghost predicate EndsByTheCutoff(sp: SplitWindows, now: int, span: Span, cutoff: int) {
    IsAllTime(sp.cachePQ) ==> sp.cachePQ.toTime.Some? && span.end <= sp.cachePQ.toTime.value
  }

  lemma ResolvedEnd(sp: SplitWindows, pq: PeriodQuery, cutoff: int, now: int, cap: Option<int>, span: Span)
    requires SplitPeriod(pq, Some(cutoff), now) == Ok(sp) && EndsByTheCutoff(sp, now, span, cutoff)
    requires cutoff <= now
    requires !IsAllTime(sp.cachePQ) ==> ResolvedAt(sp, now, cap, span, 0)
    ensures span.end <= cutoff
  {
  }

  /** Whatever window the cache resolves, its rows are those the clamp leaves of the cached half, in every later database. */
  lemma ResolvedRows(sp: SplitWindows, pq: PeriodQuery, cutoff: int, now: int, log: set<Message>,
                     observed: Database, clamp: Option<int>, span: Span, db: Database)
    requires SplitPeriod(pq, Some(cutoff), now) == Ok(sp) && cutoff <= now
    requires Consistent(observed, log, cutoff) && Consistent(db, log, cutoff)
    requires EndsByTheCutoff(sp, now, span, cutoff)
    requires !IsAllTime(sp.cachePQ) ==> ResolvedAt(sp, now, clamp, span, 0)
    requires forall m :: m in observed.messages ==> ResolvedAt(sp, now, clamp, span, m.time)
    ensures Window(log, span.start, span.end) == ServedRows(log, sp, clamp)
    ensures Sees(db, log, span.start, span.end)
  {
    hide Derived, SplitPeriod, EndsByTheCutoff, ResolvedAt, SplitWindows.CacheWindow;
    ResolvedEnd(sp, pq, cutoff, now, clamp, span);
    forall m: Message | m.time < cutoff
      ensures m in db.messages <==> m in log
      ensures m in observed.messages <==> m in log
    {
      assert m in Below(db.messages, cutoff) <==> m in Below(log, cutoff);
      assert m in Below(observed.messages, cutoff) <==> m in Below(log, cutoff);
    }
    forall m | m in log && m.time < cutoff
      ensures InSpan(m.time, span) <==> InSpan(m.time, sp.CacheWindow()) && (clamp.Some? ==> m.time < clamp.value)
    {
      ResolvedInstant(sp, pq, cutoff, now, clamp, span, m.time);
    }
    CacheEndsByTheCutoff(sp, pq, cutoff, now);
  }

  lemma CacheEndsByTheCutoff(sp: SplitWindows, pq: PeriodQuery, cutoff: int, now: int)
    requires SplitPeriod(pq, Some(cutoff), now) == Ok(sp)
    ensures sp.CacheWindow().end <= cutoff
  {
  }

  // ---- the statements of a read ----

  // Each statement of a read has its own number, because each may see another database.
  const OBSERVED: nat := 0
  const SESSIONS: nat := 2
  const DAYS: nat := 3
  const COSTS: nat := 4
  const ACTIVITY: nat := 5
  const TOTALS: nat := 6
  const OVERLAP: nat := 10

  /**
   The resolved window of the cached half, under whatever cutoff the clamp reads: its
   rows are those the clamp leaves of that half, in every database a later statement sees.
   */
  method CachedWindow(dbAt: nat -> Database, sp: SplitWindows, now: int, clamp: Option<int>,
                      ghost query: PeriodQuery, ghost cutoff: int, ghost log: set<Message>)
    returns (span: Span)
    requires SplitPeriod(query, Some(cutoff), now) == Ok(sp) && cutoff <= now
    requires forall k :: Consistent(dbAt(k), log, cutoff)
    ensures Window(log, span.start, span.end) == ServedRows(log, sp, clamp) && span.end <= cutoff
    ensures forall k :: Sees(dbAt(k), log, span.start, span.end)
    ensures !IsAllTime(sp.cachePQ) ==> sp.start.Some? && span == Span(sp.start.value, Earlier(sp.CacheWindow().end, clamp))
    ensures IsAllTime(sp.cachePQ) ==> IsTrendStart(dbAt(OBSERVED).messages, now, span.start) && IsEmptyByACap(sp, clamp, span)
  {
    hide Consistent, Derived, EndsByTheCutoff;
    span := PeriodWindow(dbAt(OBSERVED), clamp, sp, now, query, Some(cutoff));
    forall k: nat
      ensures Sees(dbAt(k), log, span.start, span.end)
      ensures Window(log, span.start, span.end) == ServedRows(log, sp, clamp)
    {
      assert Consistent(dbAt(k), log, cutoff) && Consistent(dbAt(OBSERVED), log, cutoff);
      ResolvedRows(sp, query, cutoff, now, log, dbAt(OBSERVED), clamp, span, dbAt(k));
    }
    ResolvedEnd(sp, query, cutoff, now, clamp, span);
    ResolvedIsTheWindow(sp, query, cutoff, now, clamp, span);
  }

  lemma ResolvedIsTheWindow(sp: SplitWindows, pq: PeriodQuery, cutoff: int, now: int, cap: Option<int>, span: Span)
    requires SplitPeriod(pq, Some(cutoff), now) == Ok(sp) && cutoff <= now
    requires !IsAllTime(sp.cachePQ) ==> ResolvedAt(sp, now, cap, span, 0)
    ensures !IsAllTime(sp.cachePQ) ==> sp.start.Some? && span == Span(sp.start.value, Earlier(sp.CacheWindow().end, cap))
  {
  }

  /** The figures of a selection in the cached half, from rollups and edges. */
  method StoreFigures(dbAt: nat -> Database, span: Span, sel: Selection, ghost log: set<Message>) returns (r: Overview)
    requires forall k :: Sees(dbAt(k), log, span.start, span.end)
    ensures var rows := Matching(Window(log, span.start, span.end), sel);
            r == OverviewOf(rows).(totals := Sum(Rollups.MeasureOf(TotalsTable(sel)), rows))
  {
    hide Sum, Derived, CountsOf, Summary, Totals.Plus, Selection.Matches;
    CountedIsMatching(Window(log, span.start, span.end), sel);
    var totals := ReadTotals(dbAt, TOTALS, span.start, span.end, sel, log);
    var sessions := ReadSessions(dbAt(SESSIONS), span.start, span.end, sel, log);
    var days := ReadDays(dbAt(DAYS), span.start, span.end, sel, log);
    var counts := ReadCosts(dbAt(COSTS), span.start, span.end, sel, log);
    CountsAreSound(Matching(Window(log, span.start, span.end), sel));
    var costs := counts.Result();
    r := Overview(totals, |sessions|, |days|, costs);
  }

  // ---- the live half ----

  /** Keeps the gap rows of the window and the filter; the raw gap may cover more. */
  method FilterGap(raw: seq<Message>, f: ModelFilter, start: int, end: int) returns (gap: seq<Message>)
    requires forall i, j :: 0 <= i < j < |raw| ==> raw[i] != raw[j]
    ensures Elements(gap) == Matching(Window(Elements(raw), start, end), SelectAll(f))
    ensures forall i, j :: 0 <= i < j < |gap| ==> gap[i] != gap[j]
  {
    gap := [];
    for i := 0 to |raw|
      invariant Elements(gap) == Matching(Window(Elements(raw[..i]), start, end), SelectAll(f))
      invariant forall i, j :: 0 <= i < j < |gap| ==> gap[i] != gap[j]
    {
      assert raw[..i + 1] == raw[..i] + [raw[i]];
      assert Elements(raw[..i + 1]) == Elements(raw[..i]) + {raw[i]};
      assert Elements(gap + [raw[i]]) == Elements(gap) + {raw[i]};
      assert raw[i] !in raw[..i];
      assert forall m :: m in gap ==> m in Elements(gap);
      if start <= raw[i].time < end && f.Matches(raw[i]) {
        gap := gap + [raw[i]];
      }
    }
    assert raw[..|raw|] == raw;
  }

  /** The running aggregate of live rows. */
  datatype BucketAgg = BucketAgg(totals: Totals, sessions: set<string>, costs: CostCounts, days: set<int>) {
    function Add(entry: Message): BucketAgg {
      BucketAgg(AllColumns.Of(entry).Plus(totals), sessions + {entry.session},
                if entry.role == ASSISTANT then costs.Add(entry.costStatus, 1) else costs,
                days + {DayOf(entry.time)})
    }
  }

  ghost function AggOf(rows: set<Message>): BucketAgg {
    BucketAgg(Sum(AllColumns, rows), SessionIds(rows), CountsOf(rows), Days(rows))
  }

  lemma AggGrows(rows: set<Message>, m: Message)
    requires m !in rows
    ensures AggOf(rows + {m}) == AggOf(rows).Add(m)
  {
    hide Sum, CountsOf, CostCounts.Add, Totals.Plus, DayOf;
    SumPick(AllColumns, rows + {m}, m);
    assert rows + {m} - {m} == rows;
    if m.role == ASSISTANT {
      CountsGrow(rows, {m}, m.costStatus);
    } else {
      CountsIgnore(rows, {m});
    }
    assert SessionIds(rows + {m}) == SessionIds(rows) + {m.session};
    assert Days(rows + {m}) == Days(rows) + {DayOf(m.time)};
  }

  method AggregateGap(gap: seq<Message>) returns (agg: BucketAgg)
    requires forall i, j :: 0 <= i < j < |gap| ==> gap[i] != gap[j]
    ensures agg == AggOf(Elements(gap))
  {
    hide Sum, CountsOf, AggOf, BucketAgg.Add;
    agg := BucketAgg(ZERO, {}, NO_COUNTS, {});
    NothingAggregated();
    assert Elements(gap[..0]) == {};
    for i := 0 to |gap|
      invariant agg == AggOf(Elements(gap[..i]))
    {
      assert gap[..i + 1] == gap[..i] + [gap[i]];
      assert gap[i] !in gap[..i];
      assert Elements(gap[..i + 1]) == Elements(gap[..i]) + {gap[i]};
      AggGrows(Elements(gap[..i]), gap[i]);
      agg := agg.Add(gap[i]);
    }
    assert gap[..|gap|] == gap;
  }

  lemma NothingAggregated()
    ensures AggOf({}) == BucketAgg(ZERO, {}, NO_COUNTS, {})
  {
    NothingCounted();
    SumEmpty(AllColumns);
  }

  // ---- de-duplication at the cutoff ----

  const SESSION_ID_CHUNK: nat := 500

  ghost function Ids(ids: seq<string>): set<string> {
    set id | id in ids
  }

  method Listed(ids: set<string>) returns (r: seq<string>)
    ensures Ids(r) == ids && |r| == |ids|
    ensures forall i, j :: 0 <= i < j < |r| ==> r[i] != r[j]
  {
    r := [];
    var todo := ids;
    while todo != {}
      invariant todo <= ids && Ids(r) == ids - todo && |r| + |todo| == |ids|
      invariant forall i, j :: 0 <= i < j < |r| ==> r[i] != r[j]
      decreases todo
    {
      var id :| id in todo;
      assert id !in r;
      assert Ids(r + [id]) == Ids(r) + {id};
      r, todo := r + [id], todo - {id};
    }
  }

  /** How many of the ids have a cached row in the window, chunk by chunk; each chunk is its own statement. */
  method DistinctSessionOverlap(dbAt: nat -> Database, start: int, end: int, ids: seq<string>, sel: Selection,
                                ghost rows: set<Message>)
    returns (total: nat)
    requires forall i, j :: 0 <= i < j < |ids| ==> ids[i] != ids[j]
    requires forall k :: Window(dbAt(k).messages, start, end) == rows
    ensures total == |Ids(ids) * SessionIds(Matching(rows, sel))|
  {
    hide Ids, SessionIds, Matching;
    total := 0;
    var from, chunk := 0, 0;
    ghost var cached := SessionIds(Matching(rows, sel));
    ChunkAdds(ids, 0, 0, cached);
    while from < |ids|
      invariant 0 <= from <= |ids|
      invariant total == |Ids(ids[..from]) * cached|
    {
      var to := if from + SESSION_ID_CHUNK > |ids| then |ids| else from + SESSION_ID_CHUNK;
      var db := dbAt(OVERLAP + chunk);
      assert Window(db.messages, start, end) == rows;
      ChunkFound(db.messages, start, end, ids[from..to], sel);
      var found := set m | m in db.messages && start <= m.time < end && sel.Matches(m) && m.session in ids[from..to] :: m.session;
      ChunkAdds(ids, from, to, cached);
      total := total + |found|;
      from, chunk := to, chunk + 1;
    }
    assert ids[..|ids|] == ids;
  }

  lemma ChunkFound(rows: set<Message>, start: int, end: int, chunk: seq<string>, sel: Selection)
    ensures (set m | m in rows && start <= m.time < end && sel.Matches(m) && m.session in chunk :: m.session)
            == Ids(chunk) * SessionIds(Matching(Window(rows, start, end), sel))
  {
    forall id | id in Ids(chunk) * SessionIds(Matching(Window(rows, start, end), sel))
      ensures exists m :: m in rows && start <= m.time < end && sel.Matches(m) && m.session in chunk && m.session == id
    {
      var m :| m in Matching(Window(rows, start, end), sel) && m.session == id;
    }
  }

  /** Each id lies in exactly one chunk, so the chunks' counts add up. */
  lemma ChunkAdds(ids: seq<string>, from: nat, to: nat, cached: set<string>)
    requires from <= to <= |ids| && forall i, j :: 0 <= i < j < |ids| ==> ids[i] != ids[j]
    ensures |Ids(ids[..to]) * cached| == |Ids(ids[..from]) * cached| + |Ids(ids[from..to]) * cached|
    ensures to == 0 ==> |Ids(ids[..to]) * cached| == 0
  {
    assert ids[..to] == ids[..from] + ids[from..to];
    assert Ids(ids[..from]) !! Ids(ids[from..to]);
    DisjointSizes(Ids(ids[..from]) * cached, Ids(ids[from..to]) * cached, Ids(ids[..to]) * cached);
  }

  method HasActivity(db: Database, start: int, end: int, f: ModelFilter) returns (active: bool)
    ensures active <==> Matching(Window(db.messages, start, end), SelectAll(f)) != {}
  {
    if end <= start {
      return false;
    }
    active := exists m :: m in db.messages && start <= m.time < end && f.Matches(m);
    if active {
      var m :| m in db.messages && start <= m.time < end && f.Matches(m);
      assert m in Matching(Window(db.messages, start, end), SelectAll(f));
    }
  }

  lemma UnionSize<T>(a: set<T>, b: set<T>)
    ensures |a + b| == |a| + |b| - |a * b|
  {
    assert a + b == a + (b - a);
    assert b == (b - a) + a * b;
  }

  /** Only the cutoff's day can be active on both sides of the cutoff. */
  lemma SharedDays(cached: set<Message>, gap: set<Message>, cutoff: int)
    requires (forall m :: m in cached ==> m.time < cutoff) && forall m :: m in gap ==> cutoff <= m.time
    ensures Days(cached) * Days(gap) == if DayOf(cutoff) in Days(gap) && DayOf(cutoff) in Days(cached) then {DayOf(cutoff)} else {}
    ensures DayOf(cutoff) in Days(cached) <==> exists m :: m in cached && DayOf(cutoff) * DAY_MS <= m.time
  {
    forall m | m in cached
      ensures DayOf(m.time) <= DayOf(cutoff)
      ensures DayOf(m.time) == DayOf(cutoff) <==> DayOf(cutoff) * DAY_MS <= m.time
    {
    }
    forall m | m in gap
      ensures DayOf(cutoff) <= DayOf(m.time)
    {
    }
  }

  // ---- the merged read ----

  /** The rows a request is about. */
  ghost function RequestedRows(log: set<Message>, start: Option<int>, end: int, f: ModelFilter): set<Message> {
    set m | m in log && InWindow(m.time, start, end) && f.Matches(m)
  }

  /** Equal figures; a filtered read sums model-attributed tokens in its cached half, so its tokens are not compared. */
  predicate SameFigures(a: Overview, b: Overview, f: ModelFilter) {
    && a.sessions == b.sessions && a.days == b.days && a.costs == b.costs
    && a.totals.messages == b.totals.messages && a.totals.requests == b.totals.requests && a.totals.cost == b.totals.cost
    && (f.Active() || a.totals.tokens == b.totals.tokens)
  }

  lemma {:induction false} MeasuresAgree(rows: set<Message>)
    ensures var a, b := Sum(AllColumns, rows), Sum(ModelColumns, rows);
            a.messages == b.messages && a.requests == b.requests && a.cost == b.cost
    decreases rows
  {
    if rows != {} {
      MeasuresAgree(rows - {Pick(rows)});
    }
  }

  /** Adds the live gap to what the cache served, counting sessions and days that span the cutoff once. */
  method MergeOverview(dbAt: nat -> Database, sp: SplitWindows, cached: Overview, gap: seq<Message>, f: ModelFilter,
                       ghost log: set<Message>, ghost cutoff: int, ghost cachedRows: set<Message>, ghost served: set<Message>)
    returns (r: Overview)
    requires sp.cutoff == Some(cutoff) && sp.CacheWindow().end <= cutoff && 0 < cutoff
    requires forall k :: Consistent(dbAt(k), log, cutoff)
    requires cachedRows == Matching(CachedRows(log, sp), SelectAll(f))
    requires served <= cachedRows && cached == OverviewOf(served).(totals := Sum(CacheMeasure(f), served))
    requires forall m :: m in gap ==> cutoff <= m.time
    requires forall i, j :: 0 <= i < j < |gap| ==> gap[i] != gap[j]
    requires cutoff < sp.end || gap == []
    ensures served == cachedRows ==> SameFigures(r, OverviewOf(cachedRows + Elements(gap)), f)
    ensures r.totals.messages == |served| + |Elements(gap)|
  {
    hide Sum, CountsOf, Summary, Derived, Totals.Plus, MergeCost, DayOf, SplitWindows.CacheWindow, Ids, OverviewOf,
         SameFigures;
    ghost var gapRows := Elements(gap);
    if gap == [] {
      FiguresOfTheServed(cached, served, f);
      assert cachedRows + gapRows == cachedRows && gapRows == {};
      return cached;
    }
    var agg := AggregateGap(gap);
    var window := sp.CacheWindow();
    forall k: nat
      ensures Window(dbAt(k).messages, window.start, window.end) == CachedRows(log, sp)
    {
      assert Consistent(dbAt(k), log, cutoff);
      SameWindow(dbAt(k).messages, log, cutoff, window);
    }
    var ids := Listed(agg.sessions);
    var overlap := DistinctSessionOverlap(dbAt, window.start, window.end, ids, SelectAll(f), CachedRows(log, sp));

    var boundary := DayOf(sp.cutoff.value);
    var shared := 0;
    if boundary in agg.days {
      var low := if boundary * DAY_MS < window.start then window.start else boundary * DAY_MS;
      var active := HasActivity(dbAt(ACTIVITY), low, window.end, f);
      BoundaryActivity(dbAt(ACTIVITY).messages, log, sp, f, cutoff, low);
      if active {
        shared := 1;
      }
    }
    MergedFigures(f, served, cachedRows, gapRows, cutoff, cached, agg, overlap, shared);
    CountsAreSound(gapRows);
    var costs := agg.costs.Result();
    r := Overview(cached.totals.Plus(agg.totals), cached.sessions + |agg.sessions| - overlap,
                  cached.days + |agg.days| - shared, MergeCost(cached.costs, costs));
  }

  /** The figures of both halves: rows and costs add up, shared sessions and the cutoff's day count once. */
  lemma MergedFigures(f: ModelFilter, served: set<Message>, cachedRows: set<Message>, gapRows: set<Message>, cutoff: int,
                      cached: Overview, agg: BucketAgg, overlap: nat, shared: nat)
    requires served <= cachedRows
    requires (forall m :: m in cachedRows ==> m.time < cutoff) && forall m :: m in gapRows ==> cutoff <= m.time
    requires cached == OverviewOf(served).(totals := Sum(CacheMeasure(f), served)) && agg == AggOf(gapRows)
    requires overlap == |SessionIds(gapRows) * SessionIds(cachedRows)|
    requires shared == if DayOf(cutoff) in Days(gapRows) && DayOf(cutoff) in Days(cachedRows) then 1 else 0
    ensures 0 <= cached.sessions + |agg.sessions| - overlap && 0 <= cached.days + |agg.days| - shared
    ensures var r := Overview(cached.totals.Plus(agg.totals), cached.sessions + |agg.sessions| - overlap,
                              cached.days + |agg.days| - shared, MergeCost(cached.costs, CostOf(gapRows)));
            && r.totals.messages == |served| + |gapRows|
            && (served == cachedRows ==> SameFigures(r, OverviewOf(cachedRows + gapRows), f))
  {
    hide Sum, CountsOf, Summary, Totals.Plus, MergeCost, DayOf, SessionIds, Days;
    assert served !! gapRows;
    SubsetIsSmaller(SessionIds(gapRows) * SessionIds(cachedRows), SessionIds(gapRows));
    if shared == 1 {
      SubsetIsSmaller({DayOf(cutoff)}, Days(gapRows));
    }
    MeasuresAgree(served);
    SumCounts(AllColumns, served);
    SumCounts(AllColumns, gapRows);
    MessagesAdd(Sum(AllColumns, served), agg.totals);
    PlusIsFieldwise(Sum(CacheMeasure(f), served), Sum(AllColumns, served), agg.totals);
    MergedCostIsExact(served, gapRows);
    SumDisjoint(AllColumns, served, gapRows);
    MergedSessions(cachedRows, gapRows);
    MergedDays(cachedRows, gapRows, cutoff);
  }

  lemma SameWindow(a: set<Message>, b: set<Message>, cutoff: int, window: Span)
    requires Below(a, cutoff) == Below(b, cutoff) && window.end <= cutoff
    ensures Window(a, window.start, window.end) == Window(b, window.start, window.end)
  {
    forall m: Message
      ensures m in Window(a, window.start, window.end) <==> m in Window(b, window.start, window.end)
    {
      assert m in Below(a, cutoff) <==> m in Below(b, cutoff);
    }
  }

  /** Below the cutoff every database of a read sees the log. */
  lemma SeesBelow(db: Database, log: set<Message>, cutoff: int, window: Span)
    requires Consistent(db, log, cutoff) && window.end <= cutoff
    ensures Sees(db, log, window.start, window.end)
  {
    hide Derived;
    SameWindow(db.messages, log, cutoff, window);
  }

  lemma MergedSessions(a: set<Message>, b: set<Message>)
    ensures |SessionIds(a + b)| == |SessionIds(a)| + |SessionIds(b)| - |SessionIds(b) * SessionIds(a)|
  {
    UnionSize(SessionIds(a), SessionIds(b));
    assert SessionIds(a + b) == SessionIds(a) + SessionIds(b);
    assert SessionIds(b) * SessionIds(a) == SessionIds(a) * SessionIds(b);
  }

  lemma MergedDays(a: set<Message>, b: set<Message>, cutoff: int)
    requires (forall m :: m in a ==> m.time < cutoff) && forall m :: m in b ==> cutoff <= m.time
    ensures |Days(a + b)| == |Days(a)| + |Days(b)|
                             - if DayOf(cutoff) in Days(b) && DayOf(cutoff) in Days(a) then 1 else 0
  {
    SharedDays(a, b, cutoff);
    UnionSize(Days(a), Days(b));
    assert Days(a + b) == Days(a) + Days(b);
  }

  /** The activity probe decides whether the cutoff's day is active in the cached half. */
  lemma BoundaryActivity(rows: set<Message>, log: set<Message>, sp: SplitWindows, f: ModelFilter, cutoff: int, low: int)
    requires Window(rows, sp.CacheWindow().start, sp.CacheWindow().end) == CachedRows(log, sp)
    requires sp.CacheWindow().end <= cutoff
    requires low == if DayOf(cutoff) * DAY_MS < sp.CacheWindow().start then sp.CacheWindow().start else DayOf(cutoff) * DAY_MS
    ensures Matching(Window(rows, low, sp.CacheWindow().end), SelectAll(f)) != {}
            <==> DayOf(cutoff) in Days(Matching(CachedRows(log, sp), SelectAll(f)))
  {
    hide DayOf, SplitWindows.CacheWindow;
    var cached := Matching(CachedRows(log, sp), SelectAll(f));
    SharedDays(cached, {}, cutoff);
    var active := Matching(Window(rows, low, sp.CacheWindow().end), SelectAll(f));
    forall m: Message
      ensures m in active <==> m in cached && DayOf(cutoff) * DAY_MS <= m.time
    {
      assert m in Window(rows, sp.CacheWindow().start, sp.CacheWindow().end) <==> m in CachedRows(log, sp);
    }
  }

  lemma MessagesAdd(a: Totals, b: Totals)
    ensures a.Plus(b).messages == a.messages + b.messages
  {
  }

  lemma PlusIsFieldwise(a: Totals, b: Totals, c: Totals)
    requires a.messages == b.messages && a.requests == b.requests && a.cost == b.cost
    ensures var x, y := a.Plus(c), b.Plus(c);
            x.messages == y.messages && x.requests == y.requests && x.cost == y.cost
  {
  }

  /** A live source answers a query with one pass over its log. */
  method LiveOverview(live: seq<Message>, pq: PeriodQuery, now: int) returns (r: Overview)
    requires ResolveQuery(pq, now).Ok?
    requires forall i, j :: 0 <= i < j < |live| ==> live[i] != live[j]
    ensures var window := ResolveQuery(pq, now).value;
            r == OverviewOf(RequestedRows(Elements(live), window.0, window.1, NO_FILTER))
  {
    hide Sum, CountsOf, Summary;
    var (start, end) := ResolveQuery(pq, now).value;
    var from := if start.Some? then start.value else 0;
    var rows := FilterGap(live, NO_FILTER, from, end);
    assert Elements(rows) == RequestedRows(Elements(live), start, end, NO_FILTER);
    var agg := AggregateGap(rows);
    CountsAreSound(Elements(rows));
    var costs := agg.costs.Result();
    r := Overview(agg.totals, |agg.sessions|, |agg.days|, costs);
  }

  function CutoffOf(db: Database): Option<int> {
    RecordedCap(db)
  }

  /**
   An overview request. The split takes its cutoff from one database; consolidations may
   commit before every later statement and before the gap fetch, so each of them may see
   a later database, and the clamp may read any cutoff. The answer is one pass over the
   raw log exactly when that clamp loses no requested row.
   */
  method CachedOverview(pq: PeriodQuery, f: ModelFilter, now: int, splitDb: Database, dbAt: nat -> Database,
                        clamp: Option<int>, live: seq<Message>, raw: seq<Message>)
    returns (r: Result<Overview, QueryError>)
    requires Recorded(splitDb.state) <= now
    requires forall k :: Consistent(dbAt(k), Elements(live), Recorded(splitDb.state))
    requires forall i, j :: 0 <= i < j < |live| ==> live[i] != live[j]
    requires forall i, j :: 0 <= i < j < |raw| ==> raw[i] != raw[j]
    requires FetchedGap(pq, now, splitDb, Elements(raw), Elements(live))
    ensures r.Err? <==> ResolveQuery(pq, now).Err? || (f.Active() && !SplitPeriod(pq, CutoffOf(splitDb), now).value.hasCache)
    ensures r.Ok? ==>
              var window := ResolveQuery(pq, now).value;
              SameFigures(r.value, OverviewOf(RequestedRows(Elements(live), window.0, window.1, f)), f)
              <==> NothingLost(Elements(live), SplitPeriod(pq, CutoffOf(splitDb), now).value, clamp, f)
  {
    hide Sum, CountsOf, Summary, Consistent, Matching, NothingLost, CachedRows, LostRows, SameFigures, OverviewOf;
    match SplitPeriod(pq, CutoffOf(splitDb), now)
    case Err(e) =>
      return Err(e);
    case Ok(sp) =>
      if !sp.hasCache {
        if f.Active() {
          return Err(FilterUnavailable);
        }
        var o := LiveOverview(live, sp.livePQ, now);
        LiveOnlyRows(pq, CutoffOf(splitDb), now, Elements(live), f);
        NoHalfToLose(Elements(live), sp, clamp, f);
        FiguresAreTheirs(o, f);
        return Ok(o);
      }
      ghost var log, cutoff := Elements(live), Recorded(splitDb.state);
      ghost var cachedRows := Matching(CachedRows(log, sp), SelectAll(f));
      ghost var served := Matching(ServedRows(log, sp, clamp), SelectAll(f));
      var span := CachedWindow(dbAt, sp, now, clamp, pq, cutoff, log);
      var cached := StoreFigures(dbAt, span, SelectAll(f), log);
      RequestedIsBothHalves(pq, cutoff, now, log, Elements(raw), f);
      WhenAClampLosesNothing(log, sp, clamp, f, pq, now);
      ServedAreCached(log, sp, clamp, f);
      if !sp.hasLive {
        FiguresOfTheServed(cached, served, f);
        assert cachedRows + {} == cachedRows;
        FewerRowsShow(cached, served, cachedRows, {}, f);
        return Ok(cached);
      }
      var gap := FilterGap(raw, f, sp.GapStart(), sp.end);
      GapIsLate(Elements(raw), f, sp.GapStart(), sp.end, gap);
      CacheEndsByTheCutoff(sp, pq, cutoff, now);
      var o := MergeOverview(dbAt, sp, cached, gap, f, log, cutoff, cachedRows, served);
      HalvesAreApart(log, sp, f, cutoff, Elements(gap));
      FewerRowsShow(o, served, cachedRows, Elements(gap), f);
      return Ok(o);
  }

  lemma NoHalfToLose(log: set<Message>, sp: SplitWindows, clamp: Option<int>, f: ModelFilter)
    requires !sp.hasCache
    ensures NothingLost(log, sp, clamp, f)
  {
  }

  lemma FiguresAreTheirs(o: Overview, f: ModelFilter)
    ensures SameFigures(o, o, f)
  {
  }

  lemma ServedAreCached(log: set<Message>, sp: SplitWindows, clamp: Option<int>, f: ModelFilter)
    ensures Matching(ServedRows(log, sp, clamp), SelectAll(f)) <= Matching(CachedRows(log, sp), SelectAll(f))
  {
  }

  lemma FiguresOfTheServed(o: Overview, served: set<Message>, f: ModelFilter)
    requires o == OverviewOf(served).(totals := Sum(CacheMeasure(f), served))
    ensures SameFigures(o, OverviewOf(served), f) && o.totals.messages == |served|
  {
    hide *;
    ServedTotals(o.totals, served, f);
    SameButTotals(o, served, f);
  }

  lemma ServedTotals(totals: Totals, served: set<Message>, f: ModelFilter)
    requires totals == Sum(CacheMeasure(f), served)
    ensures totals.messages == |served|
  {
    hide Sum;
    SumCounts(CacheMeasure(f), served);
  }

  lemma SameButTotals(o: Overview, served: set<Message>, f: ModelFilter)
    requires o == OverviewOf(served).(totals := Sum(CacheMeasure(f), served))
    ensures SameFigures(o, OverviewOf(served), f)
  {
    hide Sum, CountsOf, Summary, SessionIds, Days;
    MeasuresAgree(served);
  }

  lemma HalvesAreApart(log: set<Message>, sp: SplitWindows, f: ModelFilter, cutoff: int, gap: set<Message>)
    requires sp.CacheWindow().end <= cutoff && forall m :: m in gap ==> cutoff <= m.time
    ensures Matching(CachedRows(log, sp), SelectAll(f)) !! gap
  {
  }

  /** Figures that leave a row out are not those of all rows. */
  lemma FewerRowsShow(o: Overview, served: set<Message>, cached: set<Message>, gap: set<Message>, f: ModelFilter)
    requires served <= cached && cached !! gap && o.totals.messages == |served| + |gap|
    ensures SameFigures(o, OverviewOf(cached + gap), f) ==> served == cached
  {
    hide Sum, CostOf, SessionIds, Days;
    SumCounts(AllColumns, cached + gap);
    assert |cached + gap| == |cached| + |gap|;
    if |served| == |cached| {
      EqualSizes(served, cached);
    }
  }

  /** The fetched rows hold the gap exactly, as those of a fetch do, and of a memo hit on an unchanged gap. */
  ghost predicate FetchedGap(pq: PeriodQuery, now: int, splitDb: Database, raw: set<Message>, log: set<Message>) {
    match SplitPeriod(pq, CutoffOf(splitDb), now)
    case Err(_) => true
    case Ok(sp) => sp.hasCache && sp.hasLive ==> Window(raw, sp.GapStart(), sp.end) == Window(log, sp.GapStart(), sp.end)
  }

  lemma LiveOnlyRows(pq: PeriodQuery, cutoff: Option<int>, now: int, log: set<Message>, f: ModelFilter)
    requires SplitPeriod(pq, cutoff, now).Ok? && !SplitPeriod(pq, cutoff, now).value.hasCache && !f.Active()
    requires cutoff.Some? ==> 0 < cutoff.value
    ensures var sp := SplitPeriod(pq, cutoff, now).value;
            var asked, requested := ResolveQuery(sp.livePQ, now), ResolveQuery(pq, now);
            asked.Ok? && RequestedRows(log, asked.value.0, asked.value.1, NO_FILTER)
                         == RequestedRows(log, requested.value.0, requested.value.1, f)
  {
    var sp := SplitPeriod(pq, cutoff, now).value;
    if cutoff.Some? {
      LiveHalfAsksForTheGap(pq, cutoff.value, now);
    }
  }

  lemma RequestedIsBothHalves(pq: PeriodQuery, cutoff: int, now: int, log: set<Message>, raw: set<Message>, f: ModelFilter)
    requires SplitPeriod(pq, Some(cutoff), now).Ok? && SplitPeriod(pq, Some(cutoff), now).value.hasCache
    requires var sp := SplitPeriod(pq, Some(cutoff), now).value;
             sp.hasLive ==> Window(raw, sp.GapStart(), sp.end) == Window(log, sp.GapStart(), sp.end)
    ensures var sp := SplitPeriod(pq, Some(cutoff), now).value;
            var window := ResolveQuery(pq, now).value;
            var cached := Matching(CachedRows(log, sp), SelectAll(f));
            var gap := if sp.hasLive then Matching(Window(raw, sp.GapStart(), sp.end), SelectAll(f)) else {};
            RequestedRows(log, window.0, window.1, f) == cached + gap
  {
    var sp := SplitPeriod(pq, Some(cutoff), now).value;
    forall m: Message
      ensures InWindow(m.time, sp.start, sp.end) <==>
              InSpan(m.time, sp.CacheWindow()) || (sp.hasLive && sp.GapStart() <= m.time < sp.end)
    {
      HalvesMakeTheWindow(pq, cutoff, now, m.time);
    }
    hide SplitPeriod, SplitWindows.CacheWindow, SplitWindows.GapStart, InSpan;
    assert ResolveQuery(pq, now).value == (sp.start, sp.end) by { SplitKeepsTheWindow(pq, cutoff, now); }
  }

  lemma SplitKeepsTheWindow(pq: PeriodQuery, cutoff: int, now: int)
    requires SplitPeriod(pq, Some(cutoff), now).Ok?
    ensures var sp := SplitPeriod(pq, Some(cutoff), now).value;
            ResolveQuery(pq, now) == Ok((sp.start, sp.end)) && sp.cutoff == Some(cutoff)
  {
  }

  lemma GapIsLate(raw: set<Message>, f: ModelFilter, start: int, end: int, gap: seq<Message>)
    requires Elements(gap) == Matching(Window(raw, start, end), SelectAll(f))
    ensures forall m :: m in gap ==> start <= m.time < end
  {
    forall m | m in gap
      ensures start <= m.time < end
    {
      assert m in Elements(gap);
    }
  }
}
