/**
 The daily trend of a request window: one bucket per UTC day, each merged from its
 cached and its live part. Only the cutoff's own day can have both.
 */
module DailyReads {
  import opened Common
  import opened UsageRows
  import opened CacheDatabase
  import opened Consolidation
  import opened CostStatuses
  import opened Windows
  import opened RollupReads
  import opened Ordering
  import opened OverviewReads

  /** One bucket of a trend; its date is a UTC day, or the start of an hour. */
  datatype DayStats = DayStats(date: int, totals: Totals, sessions: nat, costs: Option<CostSummary>)

  function EmptyDay(day: int): DayStats {
    DayStats(day, ZERO, 0, None)
  }

  ghost function OnDay(rows: set<Message>, day: int): set<Message> {
    set m | m in rows && DayOf(m.time) == day
  }

  /** One pass over the rows of a day, with the given measure for their numbers. */
  ghost function DayFigures(day: int, rows: set<Message>, what: Measure): DayStats {
    DayStats(day, Sum(what, OnDay(rows, day)), |SessionIds(OnDay(rows, day))|, CostOf(OnDay(rows, day)))
  }

  /** The number of rows a merged bucket counts, whatever its other figures. */
  ghost predicate CountsDay(s: DayStats, day: int, rows: set<Message>) {
    s.date == day && s.totals.messages == |OnDay(rows, day)|
  }

  predicate SameDay(a: DayStats, b: DayStats, f: ModelFilter) {
    && a.date == b.date && a.sessions == b.sessions && a.costs == b.costs
    && a.totals.messages == b.totals.messages && a.totals.requests == b.totals.requests && a.totals.cost == b.totals.cost
    && (f.Active() || a.totals.tokens == b.totals.tokens)
  }

  // ---- the cached half ----

  /** The cached days of the resolved window, idle ones included. */
  method StoreDaily(dbAt: nat -> Database, span: Span, f: ModelFilter, ghost log: set<Message>)
    returns (byDay: map<int, DayStats>)
    requires forall k :: Sees(dbAt(k), log, span.start, span.end)
    ensures forall d: int :: d in byDay <==> DayOf(span.start) <= d && d * DAY_MS < span.end
    ensures var rows := Matching(Window(log, span.start, span.end), SelectAll(f));
            forall d :: d in byDay ==> byDay[d] == DayFigures(d, rows, CacheMeasure(f))
  {
    hide Sees, Sum, CostOf, DayOf, Selection.Matches;
    byDay := map[];
    var day := DayOf(span.start);
    ghost var rows := Matching(Window(log, span.start, span.end), SelectAll(f));
    while day * DAY_MS < span.end
      invariant DayOf(span.start) <= day
      invariant forall d: int :: d in byDay <==> DayOf(span.start) <= d < day && d * DAY_MS < span.end
      invariant forall d :: d in byDay ==> byDay[d] == DayFigures(d, rows, CacheMeasure(f))
      decreases span.end - day * DAY_MS
    {
      var o := StoreFigures(dbAt, span, Selection(f, Day(day), None), log);
      SelectedDay(Window(log, span.start, span.end), f, day);
      byDay := byDay[day := DayStats(day, o.totals, o.sessions, o.costs)];
      day := day + 1;
    }
  }

  lemma SelectedDay(rows: set<Message>, f: ModelFilter, day: int)
    ensures Matching(rows, Selection(f, Day(day), None)) == OnDay(Matching(rows, SelectAll(f)), day)
  {
  }

  // ---- the live half ----

  /** The rows whose time has a key. */
  ghost function Keyed(rows: set<Message>, keyOf: int -> int, key: int): set<Message> {
    set m | m in rows && keyOf(m.time) == key
  }

  ghost function KeysOf(rows: set<Message>, keyOf: int -> int): set<int> {
    set m | m in rows :: keyOf(m.time)
  }

  /** Groups live rows by a key of their time. */
  method AggregateGapBy(gap: seq<Message>, keyOf: int -> int) returns (buckets: map<int, BucketAgg>)
    requires forall i, j :: 0 <= i < j < |gap| ==> gap[i] != gap[j]
    ensures buckets.Keys == KeysOf(Elements(gap), keyOf)
    ensures forall k :: k in buckets ==> buckets[k] == AggOf(Keyed(Elements(gap), keyOf, k))
  {
    hide AggOf, BucketAgg.Add, Keyed, KeysOf;
    buckets := map[];
    assert Elements(gap[..0]) == {};
    NoKeys(keyOf);
    for i := 0 to |gap|
      invariant buckets.Keys == KeysOf(Elements(gap[..i]), keyOf)
      invariant forall k :: k in buckets ==> buckets[k] == AggOf(Keyed(Elements(gap[..i]), keyOf, k))
    {
      var key := keyOf(gap[i].time);
      var bucket := if key in buckets then buckets[key] else BucketAgg(ZERO, {}, NO_COUNTS, {});
      ghost var rows := Elements(gap[..i]);
      assert gap[..i + 1] == gap[..i] + [gap[i]];
      assert gap[i] !in gap[..i];
      assert Elements(gap[..i + 1]) == rows + {gap[i]};
      IdleKey(rows, keyOf, key);
      assert gap[i] !in rows;
      KeysGrow(rows, keyOf, gap[i]);
      NothingAggregated();
      AggGrows(Keyed(rows, keyOf, key), gap[i]);
      buckets := buckets[key := bucket.Add(gap[i])];
    }
    assert gap[..|gap|] == gap;
  }

  lemma NoKeys(keyOf: int -> int)
    ensures KeysOf({}, keyOf) == {}
  {
  }

  lemma IdleKey(rows: set<Message>, keyOf: int -> int, key: int)
    ensures key !in KeysOf(rows, keyOf) ==> Keyed(rows, keyOf, key) == {}
  {
  }

  lemma KeysGrow(rows: set<Message>, keyOf: int -> int, m: Message)
    ensures KeysOf(rows + {m}, keyOf) == KeysOf(rows, keyOf) + {keyOf(m.time)}
    ensures forall k: int ::
              Keyed(rows + {m}, keyOf, k) == if k == keyOf(m.time) then Keyed(rows, keyOf, k) + {m} else Keyed(rows, keyOf, k)
    ensures forall k: int :: Keyed(rows, keyOf, k) <= rows
  {
  }

  lemma DaysAreKeys(rows: set<Message>)
    ensures KeysOf(rows, DayOf) == Days(rows) && forall d: int :: Keyed(rows, DayOf, d) == OnDay(rows, d)
  {
    forall d: int
      ensures Keyed(rows, DayOf, d) == OnDay(rows, d)
    {
    }
  }

  lemma IdleDay(rows: set<Message>, day: int)
    ensures day !in Days(rows) ==> OnDay(rows, day) == {}
  {
  }

  // ---- the merged trend ----

  /**
   Adds the live buckets to the days the cache served; a session on both sides of the
   cutoff counts once. The days are exact when the cache served its whole half.
   */
  method MergeDays(dbAt: nat -> Database, sp: SplitWindows, byDay: map<int, DayStats>, gap: seq<Message>, f: ModelFilter,
                   ghost log: set<Message>, ghost cutoff: int, ghost cachedRows: set<Message>, ghost served: set<Message>)
    returns (merged: map<int, DayStats>)
    requires sp.cutoff == Some(cutoff) && sp.CacheWindow().end <= cutoff
    requires forall k :: Consistent(dbAt(k), log, cutoff)
    requires cachedRows == Matching(CachedRows(log, sp), SelectAll(f))
    requires served <= cachedRows && Days(served) <= byDay.Keys
    requires forall d :: d in byDay ==> byDay[d] == DayFigures(d, served, CacheMeasure(f))
    requires forall m :: m in gap ==> cutoff <= m.time
    requires forall i, j :: 0 <= i < j < |gap| ==> gap[i] != gap[j]
    ensures merged.Keys == byDay.Keys + Days(Elements(gap))
    ensures forall d :: d in merged ==> IsMergedDay(merged[d], d, served, cachedRows, Elements(gap), f)
  {
    hide Sum, CostOf, Derived, AggOf, SplitWindows.CacheWindow, Consistent, Matching, CachedRows, DayFigures,
         SameDay, Keyed, KeysOf, OnDay, DayOf, IsMergedDay, CountsDay;
    ghost var gapRows := Elements(gap);
    var buckets := AggregateGapBy(gap, DayOf);
    DaysAreKeys(gapRows);
    HalvesApart(log, sp, f, cutoff, gap);
    merged := byDay;
    forall d | d in byDay
      ensures d !in Days(gapRows) ==> IsMergedDay(byDay[d], d, served, cachedRows, gapRows, f)
    {
      if d !in Days(gapRows) {
        CachedOnlyDay(d, served, cachedRows, gapRows, f);
      }
    }
    var todo := buckets.Keys;
    while todo != {}
      invariant todo <= buckets.Keys && merged.Keys == byDay.Keys + (buckets.Keys - todo)
      invariant forall d :: d in byDay && d in todo ==> merged[d] == byDay[d]
      invariant forall d :: d in merged && d !in todo ==> IsMergedDay(merged[d], d, served, cachedRows, gapRows, f)
      decreases todo
    {
      var d :| d in todo;
      var day := MergeDay(dbAt, sp, d, if d in merged then Some(merged[d]) else None, buckets[d], f,
                          log, cutoff, cachedRows, served, gapRows);
      merged := merged[d := day];
      todo := todo - {d};
    }
  }

  lemma HalvesApart(log: set<Message>, sp: SplitWindows, f: ModelFilter, cutoff: int, gap: seq<Message>)
    requires sp.CacheWindow().end <= cutoff && forall m :: m in gap ==> cutoff <= m.time
    ensures forall m :: m in Matching(CachedRows(log, sp), SelectAll(f)) ==> m.time < cutoff
    ensures forall m :: m in Elements(gap) ==> cutoff <= m.time
  {
  }

  method MergeDay(dbAt: nat -> Database, sp: SplitWindows, d: int, known: Option<DayStats>, bucket: BucketAgg,
                  f: ModelFilter, ghost log: set<Message>, ghost cutoff: int, ghost cachedRows: set<Message>,
                  ghost served: set<Message>, ghost gapRows: set<Message>)
    returns (day: DayStats)
    requires sp.cutoff == Some(cutoff) && sp.CacheWindow().end <= cutoff
    requires forall k :: Consistent(dbAt(k), log, cutoff)
    requires cachedRows == Matching(CachedRows(log, sp), SelectAll(f))
    requires (forall m :: m in cachedRows ==> m.time < cutoff) && forall m :: m in gapRows ==> cutoff <= m.time
    requires served <= cachedRows
    requires if known.Some? then known.value == DayFigures(d, served, CacheMeasure(f)) else d !in Days(served)
    requires d in Days(gapRows) && bucket == AggOf(OnDay(gapRows, d))
    ensures IsMergedDay(day, d, served, cachedRows, gapRows, f)
  {
    hide *;
    var cached := if known.Some? then known.value else EmptyDay(d);
    var overlap := 0;
    if d == DayOf(sp.cutoff.value) && known.Some? {
      overlap := DayOverlap(dbAt, sp, d, bucket.sessions, f, log, cutoff, cachedRows);
    }
    MergedDay(d, served, cachedRows, gapRows, f, cutoff, cached, bucket, overlap, known.Some?);
    BucketIsSound(bucket, OnDay(gapRows, d));
    var costs := bucket.costs.Result();
    day := DayStats(d, cached.totals.Plus(bucket.totals), cached.sessions + |bucket.sessions| - overlap,
                    MergeCost(cached.costs, costs));
  }

  lemma BucketIsSound(bucket: BucketAgg, rows: set<Message>)
    requires bucket == AggOf(rows)
    ensures bucket.costs.statuses == {} ==> bucket.costs.reported + bucket.costs.computed + bucket.costs.missing == 0
    ensures Summary(bucket.costs) == CostOf(rows)
  {
    CountsAreSound(rows);
  }

  /** The sessions of the cutoff's day that are in both halves. */
  method DayOverlap(dbAt: nat -> Database, sp: SplitWindows, day: int, sessions: set<string>, f: ModelFilter,
                    ghost log: set<Message>, ghost cutoff: int, ghost cachedRows: set<Message>)
    returns (overlap: nat)
    requires sp.cutoff == Some(cutoff) && sp.CacheWindow().end <= cutoff && day == DayOf(cutoff)
    requires forall k :: Consistent(dbAt(k), log, cutoff)
    requires cachedRows == Matching(CachedRows(log, sp), SelectAll(f))
    ensures overlap == |sessions * SessionIds(OnDay(cachedRows, day))|
  {
    hide Derived, DayOf, SplitWindows.CacheWindow;
    var window := sp.CacheWindow();
    var low := if day * DAY_MS < window.start then window.start else day * DAY_MS;
    ghost var rows := Window(log, low, window.end);
    forall k: nat
      ensures Window(dbAt(k).messages, low, window.end) == rows
    {
      assert Consistent(dbAt(k), log, cutoff);
      SameWindow(dbAt(k).messages, log, cutoff, Span(low, window.end));
    }
    var ids := Listed(sessions);
    overlap := DistinctSessionOverlap(dbAt, low, window.end, ids, SelectAll(f), rows);
    SharedDays(cachedRows, {}, cutoff);
    BoundaryDayRows(log, sp, f, cutoff, low);
  }

  lemma BoundaryDayRows(log: set<Message>, sp: SplitWindows, f: ModelFilter, cutoff: int, low: int)
    requires sp.CacheWindow().end <= cutoff
    requires low == if DayOf(cutoff) * DAY_MS < sp.CacheWindow().start then sp.CacheWindow().start else DayOf(cutoff) * DAY_MS
    ensures Matching(Window(log, low, sp.CacheWindow().end), SelectAll(f))
            == OnDay(Matching(CachedRows(log, sp), SelectAll(f)), DayOf(cutoff))
  {
    hide SplitWindows.CacheWindow;
    forall m: Message | m.time < cutoff
      ensures DayOf(m.time) == DayOf(cutoff) <==> DayOf(cutoff) * DAY_MS <= m.time
    {
    }
  }

  /** A merged day counts the served and the live rows, and is exact when the cache served its whole half. */
  ghost predicate IsMergedDay(day: DayStats, d: int, served: set<Message>, cachedRows: set<Message>, gapRows: set<Message>,
                              f: ModelFilter) {
    && CountsDay(day, d, served + gapRows)
    && (served == cachedRows ==> SameDay(day, DayFigures(d, cachedRows + gapRows, AllColumns), f))
  }

  lemma CachedOnlyDay(d: int, served: set<Message>, cachedRows: set<Message>, gapRows: set<Message>, f: ModelFilter)
    requires d !in Days(gapRows)
    ensures IsMergedDay(DayFigures(d, served, CacheMeasure(f)), d, served, cachedRows, gapRows, f)
  {
    hide Sum, CostOf;
    assert OnDay(served + gapRows, d) == OnDay(served, d);
    MeasuresAgree(OnDay(served, d));
    SumCounts(AllColumns, OnDay(served, d));
  }

  /** Merging one day: only the cutoff's day can have rows on both sides. */
  lemma MergedDay(d: int, served: set<Message>, cachedRows: set<Message>, gapRows: set<Message>, f: ModelFilter, cutoff: int,
                  cached: DayStats, bucket: BucketAgg, overlap: nat, hadCache: bool)
    requires served <= cachedRows
    requires (forall m :: m in cachedRows ==> m.time < cutoff) && forall m :: m in gapRows ==> cutoff <= m.time
    requires cached == if hadCache then DayFigures(d, served, CacheMeasure(f)) else EmptyDay(d)
    requires hadCache || d !in Days(served)
    requires d in Days(gapRows) && bucket == AggOf(OnDay(gapRows, d))
    requires overlap == if d == DayOf(cutoff) && hadCache then |bucket.sessions * SessionIds(OnDay(cachedRows, d))| else 0
    ensures 0 <= cached.sessions + |bucket.sessions| - overlap
    ensures IsMergedDay(DayStats(d, cached.totals.Plus(bucket.totals), cached.sessions + |bucket.sessions| - overlap,
                                 MergeCost(cached.costs, CostOf(OnDay(gapRows, d)))),
                        d, served, cachedRows, gapRows, f)
  {
    var a, b := OnDay(served, d), OnDay(gapRows, d);
    assert bucket.sessions == SessionIds(b);
    hide Sum, CostOf, DayOf, Totals.Plus, MergeCost, OnDay, Days, SessionIds, SameDay, DayFigures, AggOf, CacheMeasure,
         ModelFilter.Active, EmptyDay;
    HalvesOfADay(d, served, cachedRows, gapRows, cutoff, hadCache, overlap);
    PartsOfADay(d, served, gapRows, cached, bucket, hadCache, f);
    MergedTotals(a, b, f);
    if served == cachedRows {
      DayOfBothHalves(d, a, b, cachedRows + gapRows, f);
    }
  }

  /** What the cache and the gap give for a day, row set by row set. */
  lemma PartsOfADay(d: int, served: set<Message>, gapRows: set<Message>, cached: DayStats, bucket: BucketAgg, hadCache: bool,
                    f: ModelFilter)
    requires cached == if hadCache then DayFigures(d, served, CacheMeasure(f)) else EmptyDay(d)
    requires hadCache || OnDay(served, d) == {}
    requires bucket == AggOf(OnDay(gapRows, d))
    ensures var a, b := OnDay(served, d), OnDay(gapRows, d);
            && cached.totals == Sum(CacheMeasure(f), a) && cached.sessions == |SessionIds(a)| && cached.costs == CostOf(a)
            && bucket.totals == Sum(AllColumns, b) && bucket.sessions == SessionIds(b)
  {
    EmptyFigures();
    assert SessionIds({}) == {};
    hide Sum, CountsOf, Summary, OnDay, Days, SessionIds;
  }

  lemma DayOfBothHalves(d: int, a: set<Message>, b: set<Message>, rows: set<Message>, f: ModelFilter)
    requires a !! b && OnDay(rows, d) == a + b
    ensures 0 <= |SessionIds(a)| + |SessionIds(b)| - |SessionIds(b) * SessionIds(a)|
    ensures SameDay(DayStats(d, Sum(CacheMeasure(f), a).Plus(Sum(AllColumns, b)),
                             |SessionIds(a)| + |SessionIds(b)| - |SessionIds(b) * SessionIds(a)|,
                             MergeCost(CostOf(a), CostOf(b))),
                    DayFigures(d, rows, AllColumns), f)
  {
    hide Sum, CountsOf, Summary, Totals.Plus, MergeCost, OnDay, SessionIds;
    MergedSessions(a, b);
    MergedCostIsExact(a, b);
    MergedTotals(a, b, f);
  }

  /** The served and the live rows of a day, and the sessions they share. */
  lemma HalvesOfADay(d: int, served: set<Message>, cachedRows: set<Message>, gapRows: set<Message>, cutoff: int,
                     hadCache: bool, overlap: nat)
    requires served <= cachedRows && (hadCache || d !in Days(served))
    requires (forall m :: m in cachedRows ==> m.time < cutoff) && forall m :: m in gapRows ==> cutoff <= m.time
    requires d in Days(gapRows)
    requires overlap == if d != DayOf(cutoff) || !hadCache then 0
                        else |SessionIds(OnDay(gapRows, d)) * SessionIds(OnDay(cachedRows, d))|
    ensures var a, b := OnDay(served, d), OnDay(gapRows, d);
            && a !! b && OnDay(served + gapRows, d) == a + b
            && (served == cachedRows ==> OnDay(cachedRows + gapRows, d) == a + b)
            && (hadCache || a == {}) && overlap <= |SessionIds(b)|
            && (served == cachedRows ==> overlap == |SessionIds(b) * SessionIds(a)|)
  {
    var a, b := OnDay(served, d), OnDay(gapRows, d);
    assert OnDay(served + gapRows, d) == a + b;
    SharedDays(served, gapRows, cutoff);
    hide DayOf;
    assert d != DayOf(cutoff) ==> d !in Days(served) * Days(gapRows);
    assert d !in Days(served) ==> a == {};
    SubsetIsSmaller(SessionIds(b) * SessionIds(OnDay(cachedRows, d)), SessionIds(b));
    assert a == {} ==> SessionIds(b) * SessionIds(a) == {};
  }

  lemma MergedTotals(a: set<Message>, b: set<Message>, f: ModelFilter)
    requires a !! b
    ensures var merged, whole := Sum(CacheMeasure(f), a).Plus(Sum(AllColumns, b)), Sum(AllColumns, a + b);
            && merged.messages == |a + b| && merged.messages == whole.messages && merged.requests == whole.requests
            && merged.cost == whole.cost && (f.Active() || merged == whole)
  {
    hide Sum, Totals.Plus;
    SumDisjoint(AllColumns, a, b);
    SumCounts(AllColumns, a + b);
    MeasuresAgree(a);
    PlusIsFieldwise(Sum(CacheMeasure(f), a), Sum(AllColumns, a), Sum(AllColumns, b));
  }

  lemma EmptyFigures()
    ensures CostOf({}) == None
    ensures forall what :: Sum(what, {}) == ZERO
  {
    NothingCounted();
  }

  // ---- the list of days ----

  /** Consecutive days that hold every row, each with the figures of its rows. */
  ghost predicate IsTrend(days: seq<DayStats>, rows: set<Message>, f: ModelFilter) {
    && (forall i :: 0 <= i < |days| ==> days[i].date == days[0].date + i)
    && (forall i :: 0 <= i < |days| ==> SameDay(days[i], DayFigures(days[i].date, rows, AllColumns), f))
    && (forall m :: m in rows ==> days != [] && 0 <= DayOf(m.time) - days[0].date < |days|)
  }

  /** The days from first on that start before end, idle ones included. */
  ghost predicate ListsDays(days: seq<DayStats>, first: int, end: int, byDay: map<int, DayStats>) {
    && end <= (first + |days|) * DAY_MS
    && forall i :: 0 <= i < |days| ==> days[i] == if first + i in byDay then byDay[first + i] else EmptyDay(first + i)
  }

  /** Lists the days from first on that start before end, filling idle days in. */
  method ListDays(first: int, end: int, byDay: map<int, DayStats>) returns (days: seq<DayStats>)
    ensures ListsDays(days, first, end, byDay)
  {
    days := [];
    var day := first;
    while day * DAY_MS < end
      invariant day == first + |days|
      invariant forall i :: 0 <= i < |days| ==> days[i] == if first + i in byDay then byDay[first + i] else EmptyDay(first + i)
      decreases end - day * DAY_MS
    {
      days := days + [if day in byDay then byDay[day] else EmptyDay(day)];
      day := day + 1;
    }
  }

  /** Exact days, listed from before the first row to after the last, are a trend of the rows. */
  lemma ListedDaysAreATrend(days: seq<DayStats>, first: int, end: int, byDay: map<int, DayStats>, f: ModelFilter,
                            rows: set<Message>)
    requires ListsDays(days, first, end, byDay) && Days(rows) <= byDay.Keys
    requires forall d :: d in byDay ==> SameDay(byDay[d], DayFigures(d, rows, AllColumns), f)
    requires forall m :: m in rows ==> first <= DayOf(m.time) && m.time < end
    ensures IsTrend(days, rows, f)
  {
    hide DayOf, DayFigures, SameDay;
    forall i | 0 <= i < |days|
      ensures days[i].date == first + i && SameDay(days[i], DayFigures(first + i, rows, AllColumns), f)
    {
      if first + i !in byDay {
        IdleDayFigures(first + i, rows, f);
      }
      SameDayKeepsItsDay(days[i], first + i, rows, f);
    }
    forall m | m in rows
      ensures DayOf(m.time) < first + |days|
    {
      DayStartsBefore(m.time, end, first + |days|);
    }
  }

  /** Days that count only some of the rows are no trend of all rows. */
  lemma ACountIsMissing(days: seq<DayStats>, first: int, end: int, byDay: map<int, DayStats>, f: ModelFilter,
                        counted: set<Message>, rows: set<Message>)
    requires ListsDays(days, first, end, byDay) && Days(counted) <= byDay.Keys && counted <= rows
    requires forall d :: d in byDay ==> CountsDay(byDay[d], d, counted)
    ensures IsTrend(days, rows, f) ==> counted == rows
  {
    if IsTrend(days, rows, f) {
      forall m | m in rows
        ensures m in counted
      {
        var i := DayOf(m.time) - days[0].date;
        var day := days[i].date;
        assert SameDay(days[i], DayFigures(day, rows, AllColumns), f) && day == DayOf(m.time);
        SumCounts(AllColumns, OnDay(rows, day));
        if day !in byDay {
          IdleDay(counted, day);
        }
        assert days[i].totals.messages == |OnDay(counted, day)|;
        assert OnDay(counted, day) <= OnDay(rows, day);
        EqualSizes(OnDay(counted, day), OnDay(rows, day));
        assert m in OnDay(rows, day);
      }
    }
  }

  lemma DayStartsBefore(time: int, end: int, day: int)
    requires time < end <= day * DAY_MS
    ensures DayOf(time) < day
  {
  }

  lemma IdleDayFigures(day: int, rows: set<Message>, f: ModelFilter)
    requires day !in Days(rows)
    ensures SameDay(EmptyDay(day), DayFigures(day, rows, AllColumns), f)
  {
    hide Sum, CostOf;
    IdleDay(rows, day);
    EmptyFigures();
    assert SessionIds({}) == {};
  }

  lemma SameDayKeepsItsDay(s: DayStats, day: int, rows: set<Message>, f: ModelFilter)
    requires SameDay(s, DayFigures(day, rows, AllColumns), f)
    ensures s.date == day
  {
  }

  lemma SomeDay(days: set<int>)
    requires days != {}
    ensures exists d :: d in days
  {
    assert (forall d :: d !in days) ==> days == {};
  }

  method EarliestDay(byDay: map<int, DayStats>) returns (first: Option<int>)
    ensures first.None? <==> byDay == map[]
    ensures first.Some? ==> forall d :: d in byDay ==> first.value <= d
  {
    first := None;
    var todo := byDay.Keys;
    while todo != {}
      invariant todo <= byDay.Keys
      invariant first.None? <==> todo == byDay.Keys
      invariant first.Some? ==> forall d :: d in byDay && d !in todo ==> first.value <= d
      decreases todo
    {
      SomeDay(todo);
      var d :| d in todo;
      first := Some(if first.Some? && first.value < d then first.value else d);
      todo := todo - {d};
    }
  }

  /**
   The daily trend of a request with a cached half, under the same freedom of every
   statement to see a later database: the trend of the requested rows of the raw log
   exactly when the clamp loses none of them.
   */
  method CachedDaily(pq: PeriodQuery, f: ModelFilter, now: int, splitDb: Database, dbAt: nat -> Database,
                     clamp: Option<int>, sp: SplitWindows, raw: seq<Message>, ghost log: set<Message>)
    returns (days: seq<DayStats>)
    requires 0 < Recorded(splitDb.state) <= now
    requires SplitPeriod(pq, CutoffOf(splitDb), now) == Ok(sp) && sp.hasCache
    requires forall k :: Consistent(dbAt(k), log, Recorded(splitDb.state))
    requires forall i, j :: 0 <= i < j < |raw| ==> raw[i] != raw[j]
    requires FetchedGap(pq, now, splitDb, Elements(raw), log)
    ensures IsTrend(days, RequestedRows(log, sp.start, sp.end, f), f) <==> NothingLost(log, sp, clamp, f)
  {
    hide Sum, CostOf, Consistent, Matching, IsTrend, DayOf, SplitPeriod, SplitWindows.CacheWindow, DayFigures, SameDay,
         NothingLost, LostRows, CachedRows, ServedRows, CountsDay, IsMergedDay, ListsDays;
    ghost var cutoff := Recorded(splitDb.state);
    ghost var cachedRows := Matching(CachedRows(log, sp), SelectAll(f));
    ghost var served := Matching(ServedRows(log, sp, clamp), SelectAll(f));
    var span := CachedWindow(dbAt, sp, now, clamp, pq, cutoff, log);
    var byDay := StoreDaily(dbAt, span, f, log);
    RequestedIsBothHalves(pq, cutoff, now, log, Elements(raw), f);
    SplitKeepsTheWindow(pq, cutoff, now);
    CacheEndsByTheCutoff(sp, pq, cutoff, now);
    DaysOfTheSpan(log, span, f, byDay.Keys);
    WhenAClampLosesNothing(log, sp, clamp, f, pq, now);
    ServedAreCached(log, sp, clamp, f);
    ghost var rows := RequestedRows(log, sp.start, sp.end, f);
    if !sp.hasLive {
      assert cachedRows + {} == cachedRows;
      forall d | d in byDay
        ensures SameDay(byDay[d], DayFigures(d, served, AllColumns), f) && CountsDay(byDay[d], d, served)
      {
        CachedDay(d, served, f);
      }
      days := ListDays(DayOf(span.start), span.end, byDay);
      ACountIsMissing(days, DayOf(span.start), span.end, byDay, f, served, cachedRows);
      ListedDaysAreATrend(days, DayOf(span.start), span.end, byDay, f, served);
      return;
    }
    var gap := FilterGap(raw, f, sp.GapStart(), sp.end);
    GapIsLate(Elements(raw), f, sp.GapStart(), sp.end, gap);
    var merged := MergeDays(dbAt, sp, byDay, gap, f, log, cutoff, cachedRows, served);
    assert rows == cachedRows + Elements(gap);
    DaysOfUnion(served, Elements(gap));
    var first := EarliestDay(merged);
    var from := if sp.start.Some? then DayOf(sp.start.value)
                else if first.Some? then first.value else DayOf(sp.GapStart());
    days := ListDays(from, sp.end, merged);
    HalvesAreApart(log, sp, f, cutoff, Elements(gap));
    MergedDaysAre(merged, served, cachedRows, Elements(gap), f);
    ACountIsMissing(days, from, sp.end, merged, f, served + Elements(gap), rows);
    if served == cachedRows {
      forall m | m in rows
        ensures from <= DayOf(m.time) && m.time < sp.end
      {
        assert DayOf(m.time) in Days(rows);
        StartDay(sp.start, sp.end, m.time);
      }
      ListedDaysAreATrend(days, from, sp.end, merged, f, rows);
    } else {
      UnionsDiffer(served, cachedRows, Elements(gap));
    }
  }

  lemma MergedDaysAre(merged: map<int, DayStats>, served: set<Message>, cachedRows: set<Message>, gapRows: set<Message>,
                      f: ModelFilter)
    requires forall d :: d in merged ==> IsMergedDay(merged[d], d, served, cachedRows, gapRows, f)
    ensures forall d :: d in merged ==> CountsDay(merged[d], d, served + gapRows)
    ensures served == cachedRows ==>
              forall d :: d in merged ==> SameDay(merged[d], DayFigures(d, cachedRows + gapRows, AllColumns), f)
  {
  }

  lemma UnionsDiffer(a: set<Message>, b: set<Message>, c: set<Message>)
    requires a <= b && b !! c
    ensures a + c == b + c ==> a == b
  {
    if a + c == b + c {
      forall m | m in b
        ensures m in a
      {
        assert m in b + c;
      }
    }
  }

  lemma StartDay(start: Option<int>, end: int, time: int)
    requires InWindow(time, start, end)
    ensures start.Some? ==> DayOf(start.value) <= DayOf(time)
  {
  }

  lemma DaysOfUnion(a: set<Message>, b: set<Message>)
    ensures Days(a + b) == Days(a) + Days(b)
  {
  }

  lemma CachedDay(d: int, rows: set<Message>, f: ModelFilter)
    ensures SameDay(DayFigures(d, rows, CacheMeasure(f)), DayFigures(d, rows, AllColumns), f)
    ensures CountsDay(DayFigures(d, rows, CacheMeasure(f)), d, rows)
  {
    hide Sum, CostOf;
    MeasuresAgree(OnDay(rows, d));
    SumCounts(AllColumns, OnDay(rows, d));
  }

  /** The days of the resolved window are those the cached rows can lie on. */
  lemma DaysOfTheSpan(log: set<Message>, span: Span, f: ModelFilter, keys: set<int>)
    requires forall d: int :: d in keys <==> DayOf(span.start) <= d && d * DAY_MS < span.end
    ensures Days(Matching(Window(log, span.start, span.end), SelectAll(f))) <= keys
    ensures forall m :: m in Matching(Window(log, span.start, span.end), SelectAll(f)) ==>
              DayOf(span.start) <= DayOf(m.time) && m.time < span.end
  {
  }

  // ---- conservation ----

  function SumDays(days: seq<DayStats>): Totals {
    if days == [] then ZERO else days[0].totals.Plus(SumDays(days[1..]))
  }

  ghost function FromDay(rows: set<Message>, day: int): set<Message> {
    set m | m in rows && day <= DayOf(m.time)
  }

  /** The day buckets of an unfiltered trend add up to the overview of the same window. */
  lemma DaysSumToTheOverview(days: seq<DayStats>, rows: set<Message>)
    requires IsTrend(days, rows, NO_FILTER)
    ensures SumDays(days) == OverviewOf(rows).totals
  {
    if days == [] {
      assert rows == {};
      SumEmpty(AllColumns);
    } else {
      assert FromDay(rows, days[0].date) == rows;
      DaysSumFrom(days, rows);
    }
  }

  lemma {:induction false} DaysSumFrom(days: seq<DayStats>, rows: set<Message>)
    requires days != []
    requires forall i :: 0 <= i < |days| ==> days[i].date == days[0].date + i
    requires forall i :: 0 <= i < |days| ==> days[i].totals == Sum(AllColumns, OnDay(rows, days[i].date))
    requires forall m :: m in rows ==> DayOf(m.time) < days[0].date + |days|
    ensures SumDays(days) == Sum(AllColumns, FromDay(rows, days[0].date))
  {
    hide Sum, Totals.Plus, DayOf;
    var day := days[0].date;
    assert FromDay(rows, day) == OnDay(rows, day) + FromDay(rows, day + 1);
    SumDisjoint(AllColumns, OnDay(rows, day), FromDay(rows, day + 1));
    if |days| == 1 {
      assert FromDay(rows, day + 1) == {};
      SumEmpty(AllColumns);
      assert SumDays(days[1..]) == ZERO;
    } else {
      DaysSumFrom(days[1..], rows);
    }
  }
}
