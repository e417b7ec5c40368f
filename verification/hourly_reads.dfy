/**
 The hourly trend of a request window: one bucket per hour from the hour the window
 starts in. The cutoff is on an hour, so every bucket comes whole from one half.
 */
module HourlyReads {
  import opened Common
  import opened UsageRows
  import opened CacheDatabase
  import opened Consolidation
  import opened CostStatuses
  import opened Windows
  import opened RollupReads
  import opened OverviewReads
  import opened DailyReads
  import Rollups

  /** One pass over the rows of an hour. */
  ghost function HourFigures(hour: int, rows: set<Message>, what: Measure): DayStats {
    var bucket := Keyed(rows, HourStart, hour);
    DayStats(hour, Sum(what, bucket), |SessionIds(bucket)|, CostOf(bucket))
  }

  /** The rows a trend is about: those of the log from the first hour shown to the end of the window. */
  ghost function RowsFrom(log: set<Message>, from: int, end: int, f: ModelFilter): set<Message> {
    Matching(Window(log, from, end), SelectAll(f))
  }

  /** A trend shows one hour at least. */
  function HourlyEnd(start: int, end: int): int {
    if end <= start then start + HOUR_MS else end
  }

  /**
   The hours of a window that starts on an hour and ends by the cutoff, idle ones
   included. An empty window is read as its first hour; past the cutoff that hour has
   some figures or other, which no one uses.
   */
  method StoreHourly(dbAt: nat -> Database, start: int, end: int, f: ModelFilter, cutoff: int, ghost log: set<Message>)
    returns (byHour: map<int, DayStats>)
    requires start % HOUR_MS == 0 && cutoff % HOUR_MS == 0 && end <= cutoff
    requires forall k :: Consistent(dbAt(k), log, cutoff)
    ensures forall h: int :: h in byHour <==> h % HOUR_MS == 0 && start <= h < HourlyEnd(start, end)
    ensures forall h :: h in byHour && h < cutoff ==>
              byHour[h] == HourFigures(h, RowsFrom(log, start, HourlyEnd(start, end), f), CacheMeasure(f))
  {
    if end <= start && cutoff <= start {
      byHour := StrayHour(dbAt, start, f, log, cutoff);
      return;
    }
    FirstHourIsEarly(start, end, cutoff);
    forall k: nat
      ensures Sees(dbAt(k), log, start, HourlyEnd(start, end))
    {
      assert Consistent(dbAt(k), log, cutoff);
      SeesBelow(dbAt(k), log, cutoff, Span(start, HourlyEnd(start, end)));
    }
    byHour := StoreHours(dbAt, start, HourlyEnd(start, end), f, log);
  }

  lemma FirstHourIsEarly(start: int, end: int, cutoff: int)
    requires start % HOUR_MS == 0 && cutoff % HOUR_MS == 0 && end <= cutoff && (start < end || start < cutoff)
    ensures HourlyEnd(start, end) <= cutoff
  {
    if end <= start {
      NextHour(start);
    }
  }

  /** An hour at or after the cutoff: its statements may see different rows. */
  method StrayHour(dbAt: nat -> Database, hour: int, f: ModelFilter, ghost log: set<Message>, ghost cutoff: int)
    returns (byHour: map<int, DayStats>)
    requires hour % HOUR_MS == 0 && forall k :: Consistent(dbAt(k), log, cutoff)
    ensures forall h: int :: h in byHour <==> h % HOUR_MS == 0 && hour <= h < hour + HOUR_MS
  {
    hide Sum, CostOf, Derived;
    assert Consistent(dbAt(TOTALS), log, cutoff);
    var o := StoreFigures((k: nat) => dbAt(TOTALS), Span(hour, hour + HOUR_MS), Selection(f, Hour(hour), None),
                          dbAt(TOTALS).messages);
    byHour := map[hour := DayStats(hour, o.totals, o.sessions, o.costs)];
    NextHour(hour);
  }

  method StoreHours(dbAt: nat -> Database, start: int, end: int, f: ModelFilter, ghost log: set<Message>)
    returns (byHour: map<int, DayStats>)
    requires start % HOUR_MS == 0 && forall k :: Sees(dbAt(k), log, start, end)
    ensures forall h: int :: h in byHour <==> h % HOUR_MS == 0 && start <= h < end
    ensures forall h :: h in byHour ==> byHour[h] == HourFigures(h, RowsFrom(log, start, end, f), CacheMeasure(f))
  {
    hide Sees, Sum, CostOf, HourStart, Selection.Matches, HourFigures;
    byHour := map[];
    var hour := start;
    ghost var rows := Matching(Window(log, start, end), SelectAll(f));
    while hour < end
      invariant start <= hour && hour % HOUR_MS == 0
      invariant forall h: int :: h in byHour <==> h % HOUR_MS == 0 && start <= h < hour && h < end
      invariant forall h :: h in byHour ==> byHour[h] == HourFigures(h, rows, CacheMeasure(f))
      decreases end - hour
    {
      var o := StoreFigures(dbAt, Span(start, end), Selection(f, Hour(hour), None), log);
      SelectedHour(Window(log, start, end), f, hour);
      FiguresOfHour(hour, rows, CacheMeasure(f));
      NextHour(hour);
      byHour := byHour[hour := DayStats(hour, o.totals, o.sessions, o.costs)];
      hour := hour + HOUR_MS;
    }
  }

  lemma SelectedHour(rows: set<Message>, f: ModelFilter, hour: int)
    ensures Matching(rows, Selection(f, Hour(hour), None)) == Keyed(Matching(rows, SelectAll(f)), HourStart, hour)
  {
  }

  lemma FiguresOfHour(hour: int, rows: set<Message>, what: Measure)
    ensures var bucket := Keyed(rows, HourStart, hour);
            HourFigures(hour, rows, what) == DayStats(hour, Sum(what, bucket), |SessionIds(bucket)|, CostOf(bucket))
  {
  }

  /** The next hour start after an hour start. */
  lemma NextHour(hour: int)
    requires hour % HOUR_MS == 0
    ensures (hour + HOUR_MS) % HOUR_MS == 0
    ensures forall h: int :: h % HOUR_MS == 0 && hour < h ==> hour + HOUR_MS <= h
  {
    forall h: int | h % HOUR_MS == 0 && hour < h
      ensures hour + HOUR_MS <= h
    {
      assert h == h / HOUR_MS * HOUR_MS && hour == hour / HOUR_MS * HOUR_MS;
    }
  }

  /** Consecutive hours from the given one with the figures of their rows; they hold every row from that hour on. */
  ghost predicate IsHourlyTrend(hours: seq<DayStats>, from: int, rows: set<Message>, f: ModelFilter) {
    && (forall i :: 0 <= i < |hours| ==>
          hours[i].date == from + i * HOUR_MS && SameDay(hours[i], HourFigures(from + i * HOUR_MS, rows, AllColumns), f))
    && (forall m :: m in rows && from <= m.time ==> m.time < from + |hours| * HOUR_MS)
  }

  /** Takes each hour before the cutoff from the cache and each other hour from the gap. */
  method MergeHours(cutoff: int, from: int, end: int, byHour: map<int, DayStats>, gap: seq<Message>, f: ModelFilter,
                    ghost cachedRows: set<Message>)
    returns (hours: seq<DayStats>)
    requires cutoff % HOUR_MS == 0 && from % HOUR_MS == 0
    requires forall h :: h in byHour && h < cutoff ==> byHour[h] == HourFigures(h, cachedRows, CacheMeasure(f))
    requires forall m :: m in cachedRows ==> m.time < cutoff && HourStart(m.time) in byHour
    requires cutoff < end && forall m :: m in gap ==> cutoff <= m.time < end
    requires forall i, j :: 0 <= i < j < |gap| ==> gap[i] != gap[j]
    ensures IsHourlyTrend(hours, from, cachedRows + Elements(gap), f)
  {
    hide Sum, CostOf, AggOf, HourStart, HourFigures, SameDay, Keyed, KeysOf;
    ghost var gapRows := Elements(gap);
    var buckets := AggregateGapBy(gap, HourStart);
    hours := [];
    var hour := from;
    while hour < HourlyEnd(from, end)
      invariant hour % HOUR_MS == 0 && hour == from + |hours| * HOUR_MS
      invariant forall i :: 0 <= i < |hours| ==>
                  hours[i].date == from + i * HOUR_MS
                  && SameDay(hours[i], HourFigures(from + i * HOUR_MS, cachedRows + gapRows, AllColumns), f)
      decreases HourlyEnd(from, end) - hour
    {
      var bucket := EmptyDay(hour);
      if hour + HOUR_MS <= cutoff {
        if hour in byHour {
          bucket := byHour[hour];
        }
        CachedHour(hour, cachedRows, gapRows, cutoff, byHour, f);
      } else {
        if hour in buckets {
          HourBucketIsSound(buckets[hour], Keyed(gapRows, HourStart, hour));
          var costs := buckets[hour].costs.Result();
          bucket := DayStats(hour, buckets[hour].totals, |buckets[hour].sessions|, costs);
        }
        LiveHour(hour, cachedRows, gapRows, cutoff, buckets, bucket, f);
      }
      NextHour(hour);
      hours := hours + [bucket];
      hour := hour + HOUR_MS;
    }
  }

  lemma HourBucketIsSound(bucket: BucketAgg, rows: set<Message>)
    requires bucket == AggOf(rows)
    ensures bucket.costs.statuses == {} ==> bucket.costs.reported + bucket.costs.computed + bucket.costs.missing == 0
    ensures Summary(bucket.costs) == CostOf(rows)
  {
    BucketIsSound(bucket, rows);
  }

  /** An hour before the cutoff has no live rows. */
  lemma CachedHour(hour: int, cachedRows: set<Message>, gapRows: set<Message>, cutoff: int,
                   byHour: map<int, DayStats>, f: ModelFilter)
    requires hour % HOUR_MS == 0 && hour + HOUR_MS <= cutoff
    requires (forall m :: m in cachedRows ==> HourStart(m.time) in byHour) && forall m :: m in gapRows ==> cutoff <= m.time
    requires forall h :: h in byHour && h < cutoff ==> byHour[h] == HourFigures(h, cachedRows, CacheMeasure(f))
    ensures var bucket := if hour in byHour then byHour[hour] else EmptyDay(hour);
            bucket.date == hour && SameDay(bucket, HourFigures(hour, cachedRows + gapRows, AllColumns), f)
  {
    hide Sum, CostOf;
    forall m | m in gapRows
      ensures HourStart(m.time) != hour
    {
      DayOfHour(m.time);
    }
    hide HourStart;
    assert Keyed(cachedRows + gapRows, HourStart, hour) == Keyed(cachedRows, HourStart, hour);
    MeasuresAgree(Keyed(cachedRows, HourStart, hour));
    if hour !in byHour {
      assert Keyed(cachedRows, HourStart, hour) == {};
      EmptyFigures();
      assert SessionIds({}) == {};
    }
  }

  /** An hour from the cutoff on has no cached rows. */
  lemma LiveHour(hour: int, cachedRows: set<Message>, gapRows: set<Message>, cutoff: int,
                 buckets: map<int, BucketAgg>, bucket: DayStats, f: ModelFilter)
    requires hour % HOUR_MS == 0 && cutoff % HOUR_MS == 0 && cutoff < hour + HOUR_MS
    requires forall m :: m in cachedRows ==> m.time < cutoff
    requires buckets.Keys == KeysOf(gapRows, HourStart)
    requires forall h :: h in buckets ==> buckets[h] == AggOf(Keyed(gapRows, HourStart, h))
    requires bucket == if hour !in buckets then EmptyDay(hour)
                       else DayStats(hour, buckets[hour].totals, |buckets[hour].sessions|, Summary(buckets[hour].costs))
    ensures bucket.date == hour && SameDay(bucket, HourFigures(hour, cachedRows + gapRows, AllColumns), f)
  {
    hide Sum, CountsOf, Summary;
    if hour < cutoff {
      NextHour(hour);
    }
    forall m | m in cachedRows
      ensures HourStart(m.time) != hour
    {
      DayOfHour(m.time);
    }
    hide HourStart;
    assert Keyed(cachedRows + gapRows, HourStart, hour) == Keyed(gapRows, HourStart, hour);
    if hour !in buckets {
      IdleKey(gapRows, HourStart, hour);
      EmptyFigures();
      assert SessionIds({}) == {};
    }
  }

  /** How far a clamped trend is read: to the clamp, but its first hour to its end. */
  function ReadTo(from: int, clamp: int): int {
    if clamp <= from then from + HOUR_MS else clamp
  }

  /** The clamp leaves out no requested row that the trend should show. */
  ghost predicate NoneLostFrom(log: set<Message>, from: int, cutoff: int, clamp: Option<int>, f: ModelFilter) {
    || clamp.None? || cutoff <= clamp.value
    || forall m :: m in log && f.Matches(m) && from <= m.time < cutoff ==> m.time < ReadTo(from, clamp.value)
  }

  /** A trend from the cache alone reads what is requested and no more: its first hour it reads to its end. */
  ghost predicate ReadsTheRequest(log: set<Message>, from: int, end: int, clamp: Option<int>, f: ModelFilter) {
    forall m :: m in log && f.Matches(m) && from <= m.time ==> (m.time < end <==> m.time < HourlyEnd(from, Earlier(end, clamp)))
  }

  /**
   The hourly trend of a request with a cached half, under the same freedom of every
   statement to see a later database: that of the log from the first hour shown, exactly
   when the clamp leaves out none of its rows. A window with a start is shown from the
   hour it starts in; all time from the day of the first row cached, or from today when
   nothing is cached. From the cache alone the first hour is read whole, requested or not.
   */
  method CachedHourly(pq: PeriodQuery, f: ModelFilter, now: int, splitDb: Database, dbAt: nat -> Database,
                      clamp: Option<int>, sp: SplitWindows, raw: seq<Message>, ghost log: set<Message>)
    returns (hours: seq<DayStats>, from: int)
    requires 0 < Recorded(splitDb.state) <= now && Recorded(splitDb.state) % HOUR_MS == 0
    requires SplitPeriod(pq, CutoffOf(splitDb), now) == Ok(sp) && sp.hasCache
    requires forall k :: Consistent(dbAt(k), log, Recorded(splitDb.state))
    requires forall i, j :: 0 <= i < j < |raw| ==> raw[i] != raw[j]
    requires FetchedGap(pq, now, splitDb, Elements(raw), log)
    ensures sp.hasLive ==>
              (IsHourlyTrend(hours, from, RowsFrom(log, from, sp.end, f), f)
               <==> NoneLostFrom(log, from, Recorded(splitDb.state), clamp, f))
    ensures !sp.hasLive && from < Recorded(splitDb.state) ==>
              (IsHourlyTrend(hours, from, RowsFrom(log, from, sp.end, f), f) <==> ReadsTheRequest(log, from, sp.end, clamp, f))
    ensures sp.start.Some? ==> from == HourStart(sp.start.value)
    ensures sp.start.None? ==> IsTrendStart(dbAt(OBSERVED).messages, now, from)
  {
    hide Sum, CostOf, Consistent, Matching, IsHourlyTrend, SplitPeriod, SplitWindows.CacheWindow, HourFigures,
         SameDay, Window, HourStart, RowsFrom, CachedRows, DayOf, NoneLostFrom, ServedRows, IsTrendStart, Since,
         ReadsTheRequest;
    ghost var cutoff := Recorded(splitDb.state);
    var span := CachedWindow(dbAt, sp, now, clamp, pq, cutoff, log);
    SplitKeepsTheWindow(pq, cutoff, now);
    SplitForHours(sp, pq, cutoff, now);
    var start := HourStart(span.start);
    from := start;
    HourIsAligned(span.start);
    if sp.start.None? {
      TrendStartsOnAnHour(dbAt(OBSERVED).messages, now, span.start);
    }
    var byHour := StoreHourly(dbAt, start, span.end, f, sp.cutoff.value, log);
    if !sp.hasLive {
      hours := ListHours(start, span.end, byHour, f, cutoff, log);
      if start < cutoff {
        FirstHourIsEarly(start, span.end, cutoff);
        ReadAlone(log, sp, clamp, span, cutoff, f);
        RowsStartThere(log, start, sp.end, f);
        RowsStartThere(log, start, HourlyEnd(start, span.end), f);
        ShownIsAll(hours, start, RowsFrom(log, start, HourlyEnd(start, span.end), f), RowsFrom(log, start, sp.end, f), f);
      }
      return;
    }
    SplitAtTheCutoff(sp, pq, cutoff, now);
    var gap := FilterGap(raw, f, sp.GapStart(), sp.end);
    GapIsLate(Elements(raw), f, sp.GapStart(), sp.end, gap);
    ghost var until := Earlier(HourlyEnd(start, span.end), Some(cutoff));
    ghost var cached := RowsFrom(log, start, until, f);
    CachedHoursAreListed(log, start, until, f, byHour.Keys);
    HoursToTheCutoff(log, start, span.end, cutoff, f, byHour);
    hours := MergeHours(sp.cutoff.value, start, sp.end, byHour, gap, f, cached);
    ShownRows(log, sp, clamp, span, cutoff, f, Elements(raw));
    RowsStartThere(log, start, sp.end, f);
    EarlierRowsDoNotMatter(hours, start, cached + Elements(gap), f);
    ShownIsAll(hours, start, Since(cached + Elements(gap), start), RowsFrom(log, start, sp.end, f), f);
  }

  /** Lists the hours the cache has, one after the other. */
  method ListHours(start: int, end: int, byHour: map<int, DayStats>, f: ModelFilter, ghost cutoff: int,
                   ghost log: set<Message>)
    returns (hours: seq<DayStats>)
    requires start % HOUR_MS == 0 && cutoff % HOUR_MS == 0 && end <= cutoff
    requires forall h: int :: h in byHour <==> h % HOUR_MS == 0 && start <= h < HourlyEnd(start, end)
    requires forall h :: h in byHour && h < cutoff ==>
               byHour[h] == HourFigures(h, RowsFrom(log, start, HourlyEnd(start, end), f), CacheMeasure(f))
    ensures start < cutoff ==> IsHourlyTrend(hours, start, RowsFrom(log, start, HourlyEnd(start, end), f), f)
  {
    hide HourFigures, SameDay, Sum, CostOf, RowsFrom, HourlyEnd;
    hours := [];
    var hour := start;
    ghost var rows := RowsFrom(log, start, HourlyEnd(start, end), f);
    if start < cutoff {
      FirstHourIsEarly(start, end, cutoff);
    }
    while hour < HourlyEnd(start, end)
      invariant hour % HOUR_MS == 0 && hour == start + |hours| * HOUR_MS && start <= hour
      invariant start < cutoff ==> forall i :: 0 <= i < |hours| ==>
                  hours[i].date == start + i * HOUR_MS
                  && SameDay(hours[i], HourFigures(start + i * HOUR_MS, rows, AllColumns), f)
      decreases HourlyEnd(start, end) - hour
    {
      StoredHour(hour, rows, f);
      hours := hours + [byHour[hour]];
      NextHour(hour);
      hour := hour + HOUR_MS;
    }
    RowsEndThere(log, start, HourlyEnd(start, end), f);
  }

  lemma StoredHour(hour: int, rows: set<Message>, f: ModelFilter)
    ensures var s := HourFigures(hour, rows, CacheMeasure(f));
            s.date == hour && SameDay(s, HourFigures(hour, rows, AllColumns), f)
  {
    hide Sum, CostOf;
    MeasuresAgree(Keyed(rows, HourStart, hour));
  }

  lemma RowsEndThere(log: set<Message>, from: int, end: int, f: ModelFilter)
    ensures forall m :: m in RowsFrom(log, from, end, f) ==> m.time < end
  {
  }

  /** What the split says of a request with a cached half, for the hours read from it. */
  lemma SplitForHours(sp: SplitWindows, pq: PeriodQuery, cutoff: int, now: int)
    requires SplitPeriod(pq, Some(cutoff), now) == Ok(sp) && sp.hasCache && cutoff <= now
    ensures sp.cutoff == Some(cutoff) && (IsAllTime(sp.cachePQ) <==> sp.start.None?)
    ensures !sp.hasLive ==> sp.end <= cutoff && sp.CacheWindow() == Span(if sp.start.Some? then sp.start.value else 0, sp.end)
    ensures !sp.hasLive && sp.start.None? ==> sp.cachePQ.toTime == Some(sp.end)
  {
  }

  /** The rows read from the cache alone, beside those requested. */
  lemma ReadAlone(log: set<Message>, sp: SplitWindows, clamp: Option<int>, span: Span, cutoff: int, f: ModelFilter)
    requires Window(log, span.start, span.end) == ServedRows(log, sp, clamp) && span.end <= cutoff && sp.end <= cutoff
    requires cutoff % HOUR_MS == 0 && HourStart(span.start) < cutoff
    requires sp.CacheWindow() == Span(if sp.start.Some? then sp.start.value else 0, sp.end)
    requires if sp.start.None? then
               HourStart(span.start) == span.start && sp.cachePQ.toTime == Some(sp.end) && IsEmptyByACap(sp, clamp, span)
             else span == Span(sp.start.value, Earlier(sp.end, clamp))
    ensures var from := HourStart(span.start);
            var read, asked := RowsFrom(log, from, HourlyEnd(from, span.end), f), RowsFrom(log, from, sp.end, f);
            (read <= asked || asked <= read) && (read == asked <==> ReadsTheRequest(log, from, sp.end, clamp, f))
  {
    var from := HourStart(span.start);
    HourIsAligned(span.start);
    FirstHourIsEarly(from, span.end, cutoff);
    var read, asked := RowsFrom(log, from, HourlyEnd(from, span.end), f), RowsFrom(log, from, sp.end, f);
    forall m | m in log && from <= m.time
      ensures m.time < HourlyEnd(from, span.end) <==> m.time < HourlyEnd(from, Earlier(sp.end, clamp))
    {
      if sp.start.None? {
        assert m in Window(log, span.start, span.end) <==> m in ServedRows(log, sp, clamp);
      }
    }
    hide HourStart, SplitWindows.CacheWindow, ServedRows, IsEmptyByACap, HourlyEnd;
    forall m: Message
      ensures m in read <==> m in log && f.Matches(m) && from <= m.time < HourlyEnd(from, span.end)
      ensures m in asked <==> m in log && f.Matches(m) && from <= m.time < sp.end
    {
    }
    if read == asked {
      forall m | m in log && f.Matches(m) && from <= m.time
        ensures m.time < sp.end <==> m.time < HourlyEnd(from, Earlier(sp.end, clamp))
      {
        assert m in read <==> m in asked;
      }
    }
  }

  /** The figures read before the cutoff are those of the rows read before it. */
  lemma HoursToTheCutoff(log: set<Message>, start: int, end: int, cutoff: int, f: ModelFilter, byHour: map<int, DayStats>)
    requires start % HOUR_MS == 0 && cutoff % HOUR_MS == 0 && end <= cutoff
    requires forall h :: h in byHour && h < cutoff ==>
               start <= h && byHour[h] == HourFigures(h, RowsFrom(log, start, HourlyEnd(start, end), f), CacheMeasure(f))
    ensures forall h :: h in byHour && h < cutoff ==>
              byHour[h] == HourFigures(h, RowsFrom(log, start, Earlier(HourlyEnd(start, end), Some(cutoff)), f), CacheMeasure(f))
  {
    hide RowsFrom, HourFigures;
    if start < cutoff {
      FirstHourIsEarly(start, end, cutoff);
    }
  }

  /** Without a lower bound a row is missing from the trend exactly when it is earlier than the day it starts with. */
  lemma WhenAllTimeShowsEveryRow(observed: Database, log: set<Message>, cutoff: int, now: int, from: int, end: int,
                                 f: ModelFilter)
    requires Consistent(observed, log, cutoff) && cutoff < end && IsTrendStart(observed.messages, now, from)
    ensures RowsFrom(log, from, end, f) == RowsFrom(log, 0, end, f)
            <==> forall m :: m in RowsFrom(log, cutoff, end, f) ==> from <= m.time
    ensures Below(observed.messages, cutoff) != {} ==> RowsFrom(log, from, end, f) == RowsFrom(log, 0, end, f)
    ensures observed.messages == {} ==> from == DayOf(now) * DAY_MS
  {
    hide Derived, DayOf;
    forall m: Message | m.time < cutoff
      ensures m in log <==> m in observed.messages
    {
      assert m in Below(log, cutoff) <==> m in Below(observed.messages, cutoff);
    }
    EarlyRowsAreShown(observed.messages, log, cutoff, now, from, end, f);
    if first :| first in Below(observed.messages, cutoff) {
      assert from <= first.time;
    }
  }

  lemma EarlyRowsAreShown(observed: set<Message>, log: set<Message>, cutoff: int, now: int, from: int, end: int,
                          f: ModelFilter)
    requires cutoff < end && IsTrendStart(observed, now, from)
    requires forall m: Message :: m.time < cutoff ==> (m in log <==> m in observed)
    ensures RowsFrom(log, from, end, f) == RowsFrom(log, 0, end, f)
            <==> forall m :: m in RowsFrom(log, cutoff, end, f) ==> from <= m.time
  {
    hide DayOf;
    var shown, all, late := RowsFrom(log, from, end, f), RowsFrom(log, 0, end, f), RowsFrom(log, cutoff, end, f);
    forall m: Message
      ensures m in shown <==> m in all && from <= m.time
      ensures m in late <==> m in all && cutoff <= m.time
      ensures m in all && m.time < cutoff ==> from <= m.time
    {
    }
    hide RowsFrom, IsTrendStart;
    if forall m :: m in late ==> from <= m.time {
      assert shown == all;
    }
  }

  /**
   A row of yesterday evening, past a cutoff taken in the first hours of today, when no
   row is older: it is requested and fetched, and the trend starts after it.
   */
  lemma ARowOfYesterdayIsNotShown(today: nat, m: Message, fingerprint: string, version: nat)
    requires 1 <= today && today * DAY_MS - 5 * HOUR_MS <= m.time < today * DAY_MS
    ensures var now := today * DAY_MS + HOUR_MS;
            var cutoff := DefaultSafeCutoff(now);
            var state := SourceState(fingerprint, Ready, cutoff, cutoff, now, version);
            var tables := map table | table in Rollups.ALL_TABLES :: Rollups.Rebuild(table, {});
            var empty := Database({}, {}, map[], tables, Some(state));
            var pq := PeriodQuery(AllTime, None, None, None, None);
            && Recorded(empty.state) == cutoff && Consistent(empty, {m}, cutoff) && IsTrendStart({}, now, today * DAY_MS)
            && SplitPeriod(pq, Some(cutoff), now).Ok? && SplitPeriod(pq, Some(cutoff), now).value.hasCache
            && SplitPeriod(pq, Some(cutoff), now).value.hasLive
            && RequestedRows({m}, None, now, NO_FILTER) == {m} && Window({m}, cutoff, now) == {m}
            && RowsFrom({m}, today * DAY_MS, now, NO_FILTER) == {}
  {
  }

  lemma HourIsAligned(ms: int)
    ensures HourStart(ms) % HOUR_MS == 0 && HourStart(ms) <= ms
  {
  }

  lemma TrendStartsOnAnHour(rows: set<Message>, now: int, start: int)
    requires IsTrendStart(rows, now, start)
    ensures HourStart(start) == start
  {
    if rows != {} {
      var m :| m in rows && start == DayOf(m.time) * DAY_MS;
      DayIsAligned(DayOf(m.time));
    } else {
      DayIsAligned(DayOf(now));
    }
  }

  /** With both halves the window starts before the cutoff, and the gap at it. */
  lemma SplitAtTheCutoff(sp: SplitWindows, pq: PeriodQuery, cutoff: int, now: int)
    requires SplitPeriod(pq, Some(cutoff), now) == Ok(sp) && sp.hasCache && sp.hasLive
    ensures sp.cutoff == Some(cutoff) && sp.GapStart() == cutoff < sp.end
    ensures sp.CacheWindow() == Span(if sp.start.Some? then sp.start.value else 0, cutoff)
    ensures IsAllTime(sp.cachePQ) <==> sp.start.None?
    ensures sp.start.None? ==> sp.cachePQ.toTime == Some(cutoff)
    ensures sp.start.Some? ==> sp.start.value < cutoff
  {
  }

  lemma CachedHoursAreListed(log: set<Message>, start: int, end: int, f: ModelFilter, hours: set<int>)
    requires start % HOUR_MS == 0 && forall h: int :: h % HOUR_MS == 0 && start <= h < end ==> h in hours
    ensures forall m :: m in RowsFrom(log, start, end, f) ==> HourStart(m.time) in hours && m.time < end
  {
    forall m | m in RowsFrom(log, start, end, f)
      ensures HourStart(m.time) in hours
    {
      DayOfHour(m.time);
      AlignedBoundary(m.time, start);
      HourIsAligned(m.time);
    }
  }

  /** From the first hour shown on, rows read and gap are the rows of the log, but for those the clamp leaves out. */
  lemma ShownRows(log: set<Message>, sp: SplitWindows, clamp: Option<int>, span: Span, cutoff: int, f: ModelFilter,
                  raw: set<Message>)
    requires Window(log, span.start, span.end) == ServedRows(log, sp, clamp) && span.end <= cutoff < sp.end
    requires cutoff % HOUR_MS == 0 && sp.CacheWindow() == Span(if sp.start.Some? then sp.start.value else 0, cutoff)
    requires if sp.start.None? then
               HourStart(span.start) == span.start && sp.cachePQ.toTime == Some(cutoff) && IsEmptyByACap(sp, clamp, span)
             else span == Span(sp.start.value, Earlier(cutoff, clamp)) && sp.start.value < cutoff
    requires Window(raw, cutoff, sp.end) == Window(log, cutoff, sp.end)
    ensures var from := HourStart(span.start);
            var until := Earlier(HourlyEnd(from, span.end), Some(cutoff));
            var shown := RowsFrom(log, from, until, f) + Matching(Window(raw, cutoff, sp.end), SelectAll(f));
            Since(shown, from) <= RowsFrom(log, from, sp.end, f)
            && (Since(shown, from) == RowsFrom(log, from, sp.end, f) <==> NoneLostFrom(log, from, cutoff, clamp, f))
  {
    var from := HourStart(span.start);
    HourIsAligned(span.start);
    var until := Earlier(HourlyEnd(from, span.end), Some(cutoff));
    forall m | m in log && from <= m.time < cutoff
      ensures m.time < until <==> (clamp.Some? ==> m.time < ReadTo(from, clamp.value))
    {
      ReadUntil(log, sp, clamp, span, cutoff, m);
    }
    hide HourStart, SplitWindows.CacheWindow, ServedRows, IsEmptyByACap, HourlyEnd, ReadTo;
    var both := RowsFrom(log, from, until, f) + Matching(Window(raw, cutoff, sp.end), SelectAll(f));
    var shown, all := Since(both, from), RowsFrom(log, from, sp.end, f);
    forall m: Message
      ensures m in shown <==> m in all && (m.time < cutoff ==> m.time < until)
    {
      assert m in Window(raw, cutoff, sp.end) <==> m in Window(log, cutoff, sp.end);
    }
    forall m | m in log && from <= m.time < cutoff && clamp.Some? && cutoff <= clamp.value
      ensures m.time < ReadTo(from, clamp.value)
    {
      ClampIsPast(from, cutoff, clamp.value, m.time);
    }
    if shown == all {
      forall m | m in log && f.Matches(m) && from <= m.time < cutoff && clamp.Some?
        ensures m.time < ReadTo(from, clamp.value)
      {
        assert m in all;
      }
    }
  }

  lemma ClampIsPast(from: int, cutoff: int, clamp: int, t: int)
    requires from <= t < cutoff <= clamp
    ensures t < ReadTo(from, clamp)
  {
  }

  /** A row before the cutoff is read exactly when it lies before the clamp, or in the first hour of an empty window. */
  lemma ReadUntil(log: set<Message>, sp: SplitWindows, clamp: Option<int>, span: Span, cutoff: int, m: Message)
    requires Window(log, span.start, span.end) == ServedRows(log, sp, clamp) && span.end <= cutoff < sp.end
    requires cutoff % HOUR_MS == 0 && sp.CacheWindow() == Span(if sp.start.Some? then sp.start.value else 0, cutoff)
    requires if sp.start.None? then
               HourStart(span.start) == span.start && sp.cachePQ.toTime == Some(cutoff) && IsEmptyByACap(sp, clamp, span)
             else span == Span(sp.start.value, Earlier(cutoff, clamp)) && sp.start.value < cutoff
    requires m in log && HourStart(span.start) <= m.time < cutoff
    ensures m.time < Earlier(HourlyEnd(HourStart(span.start), span.end), Some(cutoff))
            <==> (clamp.Some? ==> m.time < ReadTo(HourStart(span.start), clamp.value))
  {
    var from := HourStart(span.start);
    HourIsAligned(span.start);
    hide HourStart;
    if sp.start.None? {
      assert m in Window(log, span.start, span.end) <==> m in ServedRows(log, sp, clamp);
    }
  }

  ghost function Since(rows: set<Message>, from: int): set<Message> {
    set m | m in rows && from <= m.time
  }

  lemma EarlierRowsDoNotMatter(hours: seq<DayStats>, from: int, rows: set<Message>, f: ModelFilter)
    requires IsHourlyTrend(hours, from, rows, f) && from % HOUR_MS == 0
    ensures IsHourlyTrend(hours, from, Since(rows, from), f)
  {
    hide Sum, CostOf, SameDay;
    forall i | 0 <= i < |hours|
      ensures Keyed(rows, HourStart, from + i * HOUR_MS) == Keyed(Since(rows, from), HourStart, from + i * HOUR_MS)
    {
      var hour := from + i * HOUR_MS;
      forall m: Message | HourStart(m.time) == hour
        ensures from <= m.time
      {
        DayOfHour(m.time);
      }
      hide HourStart;
    }
  }

  lemma RowsStartThere(log: set<Message>, from: int, end: int, f: ModelFilter)
    ensures forall m :: m in RowsFrom(log, from, end, f) ==> from <= m.time
  {
  }

  /** Of two sets of rows from an hour on, one part of the other, hours are the trend of both only when they are the same. */
  lemma ShownIsAll(hours: seq<DayStats>, from: int, shown: set<Message>, all: set<Message>, f: ModelFilter)
    requires IsHourlyTrend(hours, from, shown, f) && (shown <= all || all <= shown) && from % HOUR_MS == 0
    requires forall m :: m in all + shown ==> from <= m.time
    ensures IsHourlyTrend(hours, from, all, f) <==> shown == all
  {
    hide Sum, CostOf, SameDay, Keyed, IsHourlyTrend;
    if IsHourlyTrend(hours, from, all, f) {
      if shown <= all {
        NoRowMore(hours, from, shown, all, f);
      } else {
        NoRowMore(hours, from, all, shown, f);
      }
    }
  }

  lemma NoRowMore(hours: seq<DayStats>, from: int, shown: set<Message>, all: set<Message>, f: ModelFilter)
    requires IsHourlyTrend(hours, from, shown, f) && IsHourlyTrend(hours, from, all, f)
    requires shown <= all && from % HOUR_MS == 0
    requires forall m :: m in all ==> from <= m.time
    ensures shown == all
  {
    hide Sum, CostOf, SameDay, Keyed;
    forall m | m in all
      ensures m in shown
    {
      var i := (HourStart(m.time) - from) / HOUR_MS;
      HourIndex(m.time, from, |hours|);
      SameHourSameRows(hours[i], HourStart(m.time), shown, all, f, m);
    }
  }

  lemma HourIndex(time: int, from: int, n: nat)
    requires from % HOUR_MS == 0 && from <= time < from + n * HOUR_MS
    ensures var i := (HourStart(time) - from) / HOUR_MS;
            0 <= i < n && from + i * HOUR_MS == HourStart(time)
  {
    var a, b := from / HOUR_MS, time / HOUR_MS;
    assert from == a * HOUR_MS && HourStart(time) == b * HOUR_MS;
    assert b * HOUR_MS - a * HOUR_MS == (b - a) * HOUR_MS;
    assert (b - a) * HOUR_MS / HOUR_MS == b - a;
  }

  lemma SameHourSameRows(s: DayStats, hour: int, shown: set<Message>, all: set<Message>, f: ModelFilter, m: Message)
    requires SameDay(s, HourFigures(hour, shown, AllColumns), f) && SameDay(s, HourFigures(hour, all, AllColumns), f)
    requires shown <= all && m in all && HourStart(m.time) == hour
    ensures m in shown
  {
    hide Sum, CostOf, HourStart;
    var a, b := Keyed(shown, HourStart, hour), Keyed(all, HourStart, hour);
    SumCounts(AllColumns, a);
    SumCounts(AllColumns, b);
    assert a <= b;
    EqualSizes(a, b);
    assert m in b;
  }

  /** Today starts after the safe cutoff exactly in the first six hours of a UTC day: the gap then reaches into yesterday. */
  lemma WhenTheGapReachesIntoYesterday(now: nat)
    requires DAY_MS <= now
    ensures DefaultSafeCutoff(now) < DayOf(now) * DAY_MS <==> now % DAY_MS < SYNC_SAFETY_DELAY
  {
    var today := DayOf(now) * DAY_MS;
    assert now == today + now % DAY_MS;
    DayIsAligned(DayOf(now));
    hide HourStart, DayOf;
    AlignedBoundary(now - SYNC_SAFETY_DELAY, today);
  }

  lemma DayIsAligned(day: int)
    ensures (day * DAY_MS) % HOUR_MS == 0
  {
    assert day * DAY_MS == (day * 24) * HOUR_MS;
  }
}
