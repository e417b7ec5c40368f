/**
 The memo of the recent gap: one live read of [from, to) is reused for two seconds
 by every request whose gap starts no earlier. The memo records its lower bound
 only; the upper bound and the log as it was then are kept here as ghosts.
 */
module GapMemo {
  import opened Common
  import opened UsageRows
  import opened CacheDatabase
  import opened Windows
  import opened RollupReads
  import opened OverviewReads

  const GAP_MEMO_TTL_MS: int := 2000

  ghost predicate Distinct(rows: seq<Message>) {
    forall i, j :: 0 <= i < j < |rows| ==> rows[i] != rows[j]
  }

  class GapMemo {
    var raw: seq<Message>
    var from: int
    var at: Option<int>
    var generation: nat
    ghost var to: int
    ghost var log: set<Message>

    ghost predicate Valid()
      reads this
    {
      at.Some? ==> Distinct(raw) && Elements(raw) == Window(log, from, to)
    }

    constructor ()
      ensures Valid() && at.None?
    {
      raw, from, at, generation := [], 0, None, 0;
    }

    /** Drops the memo and disowns every fetch in flight. */
    method Invalidate()
      modifies this
      ensures Valid() && at.None? && generation == old(generation) + 1
    {
      raw, from, at, generation := [], 0, None, generation + 1;
    }

    predicate Hits(start: int, now: int)
      reads this
    {
      at.Some? && now - at.value <= GAP_MEMO_TTL_MS && from <= start
    }

    /**
     The rows of [start, end) that pass the filter, from the memo or from the live
     source. A fetch is kept unless an invalidation came in while it ran.
     */
    method GapMessages(live: seq<Message>, start: int, end: int, f: ModelFilter, now: int, invalidatedMeanwhile: bool)
      returns (gap: seq<Message>)
      requires Valid() && Distinct(live)
      modifies this
      ensures Valid() && Distinct(gap)
      ensures old(Hits(start, now)) ==>
                && Elements(gap) == HitRows(old(log), old(from), old(to), start, end, f)
                && raw == old(raw) && from == old(from) && at == old(at) && log == old(log) && to == old(to)
      ensures !old(Hits(start, now)) ==>
                && Elements(gap) == Matching(Window(Elements(live), start, end), SelectAll(f))
                && (invalidatedMeanwhile ==> at.None?)
                && (!invalidatedMeanwhile ==> at == Some(now) && from == start && to == end && log == Elements(live))
    {
      if Hits(start, now) {
        gap := FilterGap(raw, f, start, end);
        return;
      }
      var before := generation;
      var fetched := FilterGap(live, NO_FILTER, start, end);
      assert Elements(fetched) == Window(Elements(live), start, end);
      if invalidatedMeanwhile {
        Invalidate();
      }
      if generation == before {
        raw, from, at := fetched, start, Some(now);
        to, log := end, Elements(live);
      }
      gap := FilterGap(fetched, f, start, end);
      assert Window(Elements(fetched), start, end) == Window(Elements(live), start, end);
    }
  }

  function Smaller(a: int, b: int): int {
    if a < b then a else b
  }

  /** What a hit answers to a request for [start, end): the rows of a log fetched earlier over [from, to). */
  ghost function HitRows(fetched: set<Message>, from: int, to: int, start: int, end: int, f: ModelFilter): set<Message> {
    Matching(Window(Window(fetched, from, to), start, end), SelectAll(f))
  }

  /**
   When a memo hit is the answer of the log as it is now: exactly when no requested row
   came or went before the fetched end since the fetch, and none lies past that end.
   */
  lemma WhenAHitIsExact(fetched: set<Message>, log: set<Message>, from: int, to: int, start: int, end: int, f: ModelFilter)
    requires from <= start
    ensures var kept := Smaller(end, to);
            HitRows(fetched, from, to, start, end, f) == Matching(Window(log, start, end), SelectAll(f))
            <==> (forall m :: m in fetched + log && start <= m.time < kept && f.Matches(m) ==> m in fetched && m in log)
                 && !exists m :: m in log && to <= m.time && start <= m.time < end && f.Matches(m)
  {
    var hit, now := HitRows(fetched, from, to, start, end, f), Matching(Window(log, start, end), SelectAll(f));
    forall m: Message
      ensures m in hit <==> m in fetched && start <= m.time < Smaller(end, to) && f.Matches(m)
      ensures m in now <==> m in log && start <= m.time < end && f.Matches(m)
    {
    }
    hide HitRows, ModelFilter.Matches;
    if hit == now {
      forall m: Message
        ensures m in hit <==> m in now
      {
      }
    }
  }

  /** While the log has not changed since the fetch, only the end of the request matters. */
  lemma WhenTheLogIsUnchanged(log: set<Message>, from: int, to: int, start: int, end: int, f: ModelFilter)
    requires from <= start
    ensures HitRows(log, from, to, start, end, f) == Matching(Window(log, start, end), SelectAll(f))
            <==> !exists m :: m in log && to <= m.time && start <= m.time < end && f.Matches(m)
    ensures end <= to ==> HitRows(log, from, to, start, end, f) == Matching(Window(log, start, end), SelectAll(f))
  {
    hide HitRows, Matching, ModelFilter.Matches;
    WhenAHitIsExact(log, log, from, to, start, end, f);
  }

  /** A row newer than the earlier fetch is missing from a hit that asks for it. */
  lemma AHitCanMissANewRow(m: Message)
    ensures HitRows({m}, 0, m.time, 0, m.time + 1, NO_FILTER) == {} && Window({m}, 0, m.time + 1) == {m}
  {
  }

  /**
   So is a row appended after the fetch, however far the fetch reached: a window that
   ends at the next midnight is fetched to there, and misses every row until it expires.
   */
  lemma AHitCanMissAnAppendedRow(m: Message, to: int)
    requires m.time < to
    ensures HitRows({}, 0, to, 0, to, NO_FILTER) == {} && Window({m}, 0, to) == {m}
  {
  }
}
