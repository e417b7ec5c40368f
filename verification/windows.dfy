/**
 Request windows: how a query resolves to [start, end), how that window divides at
 the finality cutoff, and how a cached window divides into full hours and edges.
 Dates are UTC day numbers; a malformed date is rejected before this point.
 */
module Windows {
  import opened Common
  import opened UsageRows

  datatype Span = Span(start: int, end: int)

  // ---- full hours and edges ----

  /** Complete hours, answered by the rollups, and at most two partial-hour edges. */
  datatype WindowParts = WindowParts(full: Span, edges: seq<Span>) {
    predicate HasFullHours() {
      full.start < full.end
    }
  }

  function SplitOverviewMillis(start: int, end: int): WindowParts {
    if end <= start then WindowParts(Span(0, 0), [])
    else
      var firstFull := if HourStart(start) < start then HourStart(start) + HOUR_MS else HourStart(start);
      var lastFullEnd := HourStart(end);
      if firstFull >= lastFullEnd then WindowParts(Span(0, 0), [Span(start, end)])
      else
        WindowParts(Span(firstFull, lastFullEnd),
                    (if start < firstFull then [Span(start, firstFull)] else [])
                    + (if lastFullEnd < end then [Span(lastFullEnd, end)] else []))
  }

  predicate InSpan(t: int, s: Span) {
    s.start <= t < s.end
  }

  /** The number of parts that hold an instant. */
  function PartsHolding(t: int, parts: WindowParts): nat {
    (if InSpan(t, parts.full) then 1 else 0)
    + (if |parts.edges| > 0 && InSpan(t, parts.edges[0]) then 1 else 0)
    + (if |parts.edges| > 1 && InSpan(t, parts.edges[1]) then 1 else 0)
  }

  /**
   The parts cut the window into disjoint pieces that cover it, the middle one
   consists of whole hours, and each edge is shorter than two hours.
   */
  lemma SplitIsAPartition(start: int, end: int)
    ensures var parts := SplitOverviewMillis(start, end);
            && |parts.edges| <= 2
            && parts.full.start % HOUR_MS == 0 && parts.full.end % HOUR_MS == 0
            && (forall t: int :: PartsHolding(t, parts) == if start <= t < end then 1 else 0)
            && (forall e :: e in parts.edges ==> 0 < e.end - e.start < 2 * HOUR_MS)
  {
    DayOfHour(start);
    DayOfHour(end);
    assert HourStart(start) % HOUR_MS == 0 && HourStart(end) % HOUR_MS == 0;
  }

  /** The rows of the window, part by part. */
  lemma RowsByPart(rows: set<Message>, start: int, end: int)
    ensures var parts := SplitOverviewMillis(start, end);
            var full := Window(rows, parts.full.start, parts.full.end);
            var first := if |parts.edges| > 0 then Window(rows, parts.edges[0].start, parts.edges[0].end) else {};
            var second := if |parts.edges| > 1 then Window(rows, parts.edges[1].start, parts.edges[1].end) else {};
            full !! first && full + first !! second && Window(rows, start, end) == full + first + second
  {
    SplitIsAPartition(start, end);
    var parts := SplitOverviewMillis(start, end);
    forall m: Message
      ensures PartsHolding(m.time, parts) == if start <= m.time < end then 1 else 0
    {
    }
  }

  // ---- queries ----

  datatype Preset = AllTime | LastHours(n: nat) | LastDays(n: nat) | UnknownPreset

  datatype PeriodQuery = PeriodQuery(
    preset: Preset, fromDate: Option<int>, toDate: Option<int>, fromTime: Option<int>, toTime: Option<int>)

  datatype QueryError = InvalidPeriod | FilterUnavailable

  function Earlier(a: int, b: Option<int>): int {
    if b.Some? && b.value < a then b.value else a
  }

  /** [start, end) of a query; start is absent for all time. */
  function ResolveQuery(pq: PeriodQuery, now: int): Result<(Option<int>, int), QueryError> {
    if pq.fromTime.Some? then Ok((pq.fromTime, if pq.toTime.Some? then pq.toTime.value else now))
    else if pq.fromDate.Some? then
      var end := if pq.toDate.Some? then (pq.toDate.value + 1) * DAY_MS else now;
      Ok((Some(pq.fromDate.value * DAY_MS), Earlier(end, pq.toTime)))
    else
      match pq.preset
      case AllTime => Ok((None, Earlier(now, pq.toTime)))
      case LastHours(n) => Ok((Some(now - n * HOUR_MS), Earlier(now, pq.toTime)))
      case LastDays(n) =>
        var end := (DayOf(now) + 1) * DAY_MS;
        Ok((Some(end - n * DAY_MS), Earlier(end, pq.toTime)))
      case UnknownPreset => Err(InvalidPeriod)
  }

  /** How a request divides at the cutoff; an absent cutoff means nothing is consolidated. */
  datatype SplitWindows = SplitWindows(
    cachePQ: PeriodQuery, livePQ: PeriodQuery, hasCache: bool, hasLive: bool,
    start: Option<int>, cutoff: Option<int>, end: int)
  {
    /** The half the cache covers, as bounds on message times. */
    function CacheWindow(): Span {
      Span(if start.Some? then start.value else 0, Earlier(end, cutoff))
    }

    function GapStart(): int
      requires cutoff.Some?
    {
      if start.Some? && cutoff.value < start.value then start.value else cutoff.value
    }
  }

  function SplitPeriod(pq: PeriodQuery, cutoff: Option<int>, now: int): Result<SplitWindows, QueryError> {
    match ResolveQuery(pq, now)
    case Err(e) => Err(e)
    case Ok((start, end)) =>
      if cutoff.None? then Ok(SplitWindows(pq, pq, false, true, start, cutoff, end))
      else
        var cacheEnd := Earlier(end, cutoff);
        var reachesCache, hasLive := start.None? || start.value < cacheEnd, cutoff.value < end;
        var gapStart := if start.Some? && cutoff.value < start.value then start.value else cutoff.value;
        var cacheTo := if pq.toTime.None? || cutoff.value < pq.toTime.value then cutoff else pq.toTime;
        Ok(SplitWindows(pq.(toTime := cacheTo), pq.(fromTime := Some(gapStart), toTime := Some(end)),
                        reachesCache || !hasLive, hasLive, start, cutoff, end))
  }

  predicate InWindow(t: int, start: Option<int>, end: int) {
    (start.None? || start.value <= t) && t < end
  }

  /**
   The two halves never overlap and together are the window: what the cache serves
   lies before the cutoff, what is read live at or after it.
   */
  lemma HalvesMakeTheWindow(pq: PeriodQuery, cutoff: int, now: int, t: nat)
    requires SplitPeriod(pq, Some(cutoff), now).Ok?
    ensures var sp := SplitPeriod(pq, Some(cutoff), now).value;
            var cached := sp.hasCache && InSpan(t, sp.CacheWindow());
            var live := sp.hasLive && sp.GapStart() <= t < sp.end;
            (InWindow(t, sp.start, sp.end) <==> cached || live) && !(cached && live)
            && (cached ==> t < cutoff) && (live ==> cutoff <= t)
  {
  }

  /** The live half asks the source for exactly the gap. */
  lemma LiveHalfAsksForTheGap(pq: PeriodQuery, cutoff: int, now: int)
    requires SplitPeriod(pq, Some(cutoff), now).Ok?
    ensures var sp := SplitPeriod(pq, Some(cutoff), now).value;
            ResolveQuery(sp.livePQ, now) == Ok((Some(sp.GapStart()), sp.end))
  {
  }
}
