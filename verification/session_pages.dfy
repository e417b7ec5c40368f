/**
 Pages of the session list: a page is cut from the top cached rows, the cached rows
 of the sessions that are active in the gap, and the gap sessions themselves, and is
 meant to be that page of the full merged list.
 */
module SessionPages {
  import opened Common
  import opened UsageRows
  import opened CacheDatabase
  import opened Consolidation
  import opened Windows
  import opened RollupReads
  import opened OverviewReads
  import opened Ordering
  import opened MessagePages

  datatype SessionEntry = SessionEntry(id: string, created: int, updated: int, count: nat, cost: real)

  /** A session as the live source lists it; an unknown creation time is the zero time. */
  datatype LiveSession = LiveSession(id: string, created: int, updated: int)

  const ZERO_TIME: int := -62135596800000

  datatype Activity = Activity(count: nat, cost: real)

  const NO_ACTIVITY := Activity(0, 0.0)

  // ---- the order of sessions ----

  datatype SessionSort = Newest | Oldest | ByTotalCost | ByCount

  predicate NewerFirst(a: SessionEntry, b: SessionEntry) {
    if a.created != b.created then a.created > b.created else CompareText(a.id, b.id) < 0
  }

  predicate SessionLess(a: SessionEntry, b: SessionEntry, mode: SessionSort) {
    match mode
    case Newest => NewerFirst(a, b)
    case Oldest => if a.created != b.created then a.created < b.created else CompareText(a.id, b.id) < 0
    case ByTotalCost => if a.cost != b.cost then a.cost > b.cost else NewerFirst(a, b)
    case ByCount => if a.count != b.count then a.count > b.count else NewerFirst(a, b)
  }

  function SessionOrder(mode: SessionSort): (SessionEntry, SessionEntry) -> bool {
    (a, b) => SessionLess(a, b, mode)
  }

  /** Rows by their id, as the maps of the merge hold them. */
  ghost predicate KeyedById(rows: map<string, SessionEntry>) {
    forall id :: id in rows ==> rows[id].id == id
  }

  function Rows(rows: map<string, SessionEntry>): set<SessionEntry> {
    set id | id in rows :: rows[id]
  }

  lemma SessionLessIsTransitive(a: SessionEntry, b: SessionEntry, c: SessionEntry, mode: SessionSort)
    requires SessionLess(a, b, mode) && SessionLess(b, c, mode)
    ensures SessionLess(a, c, mode)
  {
    hide CompareText;
    CompareTextOrders(a.id, b.id, c.id);
    CompareTextOrders(b.id, c.id, a.id);
    CompareTextOrders(c.id, a.id, b.id);
    CompareTextOrders(c.id, b.id, a.id);
  }

  lemma SessionsAreOrdered(rows: map<string, SessionEntry>, mode: SessionSort)
    requires KeyedById(rows)
    ensures StrictOrder(SessionOrder(mode), Rows(rows))
  {
    hide CompareText;
    forall x, y, z | x in Rows(rows) && y in Rows(rows) && z in Rows(rows) && SessionLess(x, y, mode) && SessionLess(y, z, mode)
      ensures SessionLess(x, z, mode)
    {
      SessionLessIsTransitive(x, y, z, mode);
    }
    forall x, y | x in Rows(rows) && y in Rows(rows) && x != y
      ensures SessionLess(x, y, mode) || SessionLess(y, x, mode)
    {
      CompareTextOrders(x.id, y.id, x.id);
    }
  }

  // ---- the cached half ----

  /** The statement's ORDER BY: the keys of the order without its id tie-break. */
  predicate RanksBefore(a: SessionEntry, b: SessionEntry, mode: SessionSort) {
    match mode
    case Newest => a.created > b.created
    case Oldest => a.created < b.created
    case ByTotalCost => a.cost > b.cost || (a.cost == b.cost && a.created > b.created)
    case ByCount => a.count > b.count || (a.count == b.count && a.created > b.created)
  }

  /** One of the answers ORDER BY ... LIMIT n may give: rows that tie come in any order. */
  ghost predicate IsRanking(ranked: seq<SessionEntry>, rows: set<SessionEntry>, n: nat, mode: SessionSort) {
    |ranked| == Least(n, |rows|) && RanksFirst(ranked, rows, mode)
  }

  ghost predicate RanksFirst(ranked: seq<SessionEntry>, rows: set<SessionEntry>, mode: SessionSort) {
    && (forall x :: x in ranked ==> x in rows)
    && (forall i, j :: 0 <= i < j < |ranked| ==> ranked[i] != ranked[j] && !RanksBefore(ranked[j], ranked[i], mode))
    && (forall x, i :: x in rows && x !in ranked && 0 <= i < |ranked| ==> !RanksBefore(x, ranked[i], mode))
  }

  /** The cached sessions with rows in the window that pass the text and project filters. */
  ghost function SessionEntries(db: Database, span: Span, shown: string -> bool): map<string, SessionEntry> {
    var rows := Window(db.messages, span.start, span.end);
    map id | id in SessionIds(rows) && id in db.sessions && shown(id) :: WindowEntry(db, rows, id)
  }

  ghost function WindowEntry(db: Database, rows: set<Message>, id: string): SessionEntry
    requires id in db.sessions
  {
    SessionEntry(id, db.sessions[id].created, db.sessions[id].updated,
                 |OfSession(rows, id)|, Sum(AllColumns, OfSession(rows, id)).cost)
  }

  method WindowRows(db: Database, span: Span, shown: string -> bool) returns (r: map<string, SessionEntry>)
    ensures r == SessionEntries(db, span, shown)
  {
    hide Sum, SessionRollupOf;
    var rows := set m | m in db.messages && span.start <= m.time < span.end;
    assert rows == Window(db.messages, span.start, span.end);
    r := map[];
    var todo := set m | m in rows :: m.session;
    while todo != {}
      invariant todo <= SessionIds(rows)
      invariant r == map id | id in SessionIds(rows) - todo && id in db.sessions && shown(id) :: WindowEntry(db, rows, id)
      decreases todo
    {
      var id :| id in todo;
      if id in db.sessions && shown(id) {
        var row := AggregateSession(rows, id);
        RollupCounts(rows, id);
        r := r[id := SessionEntry(id, db.sessions[id].created, db.sessions[id].updated, row.count, row.cost)];
      }
      todo := todo - {id};
    }
  }

  lemma RollupCounts(rows: set<Message>, id: string)
    requires id in SessionIds(rows)
    ensures var row := SessionRollupOf(rows, id);
            row.count == |OfSession(rows, id)| && row.cost == Sum(AllColumns, OfSession(rows, id)).cost
  {
    hide Sum;
  }

  /** ORDER BY ... LIMIT n. */
  method Ranked(rows: set<SessionEntry>, n: nat, mode: SessionSort) returns (ranked: seq<SessionEntry>)
    ensures IsRanking(ranked, rows, n, mode)
  {
    hide RanksBefore, RanksFirst;
    ranked := [];
    var todo := rows;
    NothingRanked(ranked, rows, mode);
    while |ranked| < n && todo != {}
      invariant RanksFirst(ranked, rows, mode) && |ranked| <= n
      invariant todo == rows - Members(ranked) && |ranked| + |todo| == |rows|
      decreases todo
    {
      ghost var first := SomeRowIsFirst(todo, mode);
      assert IsFirst(first, todo, mode);
      var e :| e in todo && forall x :: x in todo ==> !RanksBefore(x, e, mode);
      RankingGrows(ranked, rows, e, mode);
      ranked, todo := ranked + [e], todo - {e};
    }
  }

  lemma NothingRanked(none: seq<SessionEntry>, rows: set<SessionEntry>, mode: SessionSort)
    requires |none| == 0
    ensures RanksFirst(none, rows, mode) && Members(none) == {}
  {
    assert Members(none) == {};
    assert Members(none) <= rows;
  }

  lemma RankingGrows(ranked: seq<SessionEntry>, rows: set<SessionEntry>, e: SessionEntry, mode: SessionSort)
    requires RanksFirst(ranked, rows, mode)
    requires e in rows - Members(ranked) && forall x :: x in rows - Members(ranked) ==> !RanksBefore(x, e, mode)
    ensures RanksFirst(ranked + [e], rows, mode) && Members(ranked + [e]) == Members(ranked) + {e}
  {
    hide RanksBefore;
    assert Members(ranked + [e]) == Members(ranked) + {e};
    assert forall i :: 0 <= i < |ranked| ==> ranked[i] in Members(ranked);
  }

  lemma RankingKeys(a: SessionEntry, b: SessionEntry, c: SessionEntry, mode: SessionSort)
    ensures RanksBefore(a, b, mode) && RanksBefore(b, c, mode) ==> RanksBefore(a, c, mode)
    ensures !RanksBefore(a, a, mode) && !RanksBefore(b, b, mode)
  {
  }

  ghost predicate IsFirst(e: SessionEntry, rows: set<SessionEntry>, mode: SessionSort) {
    e in rows && forall x :: x in rows ==> !RanksBefore(x, e, mode)
  }

  lemma {:induction false} SomeRowIsFirst(rows: set<SessionEntry>, mode: SessionSort) returns (first: SessionEntry)
    requires rows != {}
    ensures IsFirst(first, rows, mode)
    decreases rows
  {
    hide RanksBefore, IsFirst;
    var e :| e in rows;
    var rest := rows - {e};
    if rest == {} {
      first := e;
      assert rows == {e};
      OnlyRowIsFirst(e, mode);
    } else {
      var f := SomeRowIsFirst(rest, mode);
      first := if RanksBefore(e, f, mode) then e else f;
      assert rows == rest + {e};
      BetterRowIsFirst(rest, e, f, mode);
    }
  }

  lemma OnlyRowIsFirst(e: SessionEntry, mode: SessionSort)
    ensures IsFirst(e, {e}, mode)
  {
  }

  lemma BetterRowIsFirst(rest: set<SessionEntry>, e: SessionEntry, f: SessionEntry, mode: SessionSort)
    requires IsFirst(f, rest, mode)
    ensures IsFirst(if RanksBefore(e, f, mode) then e else f, rest + {e}, mode)
  {
    hide RanksBefore;
    forall x | x in rest + {e}
      ensures !RanksBefore(x, if RanksBefore(e, f, mode) then e else f, mode)
    {
      RankingKeys(x, e, f, mode);
    }
  }

  /** The same sessions with the same figures; only a last update may differ, because a session can go on past the window. */
  ghost predicate SameButUpdates(a: map<string, SessionEntry>, b: map<string, SessionEntry>) {
    a.Keys == b.Keys && forall id :: id in a ==> a[id] == b[id].(updated := a[id].updated)
  }

  /** Every statement sees the same session rows of the window, but for their last updates. */
  ghost predicate SeeSessions(dbAt: nat -> Database, span: Span, shown: string -> bool, cached: map<string, SessionEntry>) {
    KeyedById(cached) && forall k :: SameButUpdates(SessionEntries(dbAt(k), span, shown), cached)
  }

  /** The cached rows of some sessions, whatever their rank; each chunk of ids is its own statement. */
  method RowsById(dbAt: nat -> Database, span: Span, shown: string -> bool, ids: seq<string>,
                  ghost cached: map<string, SessionEntry>)
    returns (r: map<string, SessionEntry>)
    requires SeeSessions(dbAt, span, shown, cached)
    ensures SameButUpdates(r, Restricted(cached, Members(ids)))
  {
    hide SessionEntries, SameButUpdates, Restricted;
    r := map[];
    NothingIsThere(cached, ids);
    var from, chunk := 0, 0;
    while from < |ids|
      invariant 0 <= from <= |ids|
      invariant SameButUpdates(r, Restricted(cached, Members(ids[..from])))
    {
      var to := Least(from + SESSION_ID_CHUNK, |ids|);
      var rows := WindowRows(dbAt(BY_ID + chunk), span, shown);
      assert SameButUpdates(SessionEntries(dbAt(BY_ID + chunk), span, shown), cached);
      ChunkIsAdded(ids, from, to, r, rows, cached);
      r := r + map id | id in rows && id in ids[from..to] :: rows[id];
      from, chunk := to, chunk + 1;
    }
    assert ids[..|ids|] == ids;
  }

  lemma NothingIsThere(cached: map<string, SessionEntry>, ids: seq<string>)
    ensures SameButUpdates(map[], Restricted(cached, Members(ids[..0])))
  {
  }

  lemma ChunkIsAdded(ids: seq<string>, from: nat, to: nat, before: map<string, SessionEntry>,
                     rows: map<string, SessionEntry>,
                     cached: map<string, SessionEntry>)
    requires from <= to <= |ids| && SameButUpdates(rows, cached)
    requires SameButUpdates(before, Restricted(cached, Members(ids[..from])))
    ensures SameButUpdates(before + map id | id in rows && id in ids[from..to] :: rows[id],
                           Restricted(cached, Members(ids[..to])))
  {
    assert ids[..to] == ids[..from] + ids[from..to];
    assert Members(ids[..to]) == Members(ids[..from]) + Members(ids[from..to]);
  }

  ghost function Restricted(rows: map<string, SessionEntry>, ids: set<string>): map<string, SessionEntry> {
    map id | id in rows && id in ids :: rows[id]
  }

  // The statements of a session page.
  const COUNTED: nat := 0
  const RANKED: nat := 1
  const BY_ID: nat := 2

  // ---- the gap ----

  /** What the gap adds to a session. */
  ghost function ActivityOf(rows: set<Message>, id: string): Activity {
    Activity(|OfSession(rows, id)|, Sum(AllColumns, OfSession(rows, id)).cost)
  }

  /** Activity per session, for the sessions that are kept. */
  ghost function RollupsOf(rows: set<Message>, keep: set<string>): map<string, Activity> {
    map id | id in SessionIds(rows) * keep :: ActivityOf(rows, id)
  }

  method GapSessionRollups(msgs: seq<Message>, keep: set<string>) returns (r: map<string, Activity>)
    requires forall i, j :: 0 <= i < j < |msgs| ==> msgs[i] != msgs[j]
    requires forall m :: m in msgs ==> m.session != ""
    ensures r == RollupsOf(Elements(msgs), keep)
  {
    hide RollupsOf;
    r := map[];
    NoRollups(keep);
    assert Elements(msgs[..0]) == {};
    for i := 0 to |msgs|
      invariant r == RollupsOf(Elements(msgs[..i]), keep)
    {
      var m := msgs[i];
      assert msgs[..i + 1] == msgs[..i] + [m];
      assert m !in msgs[..i];
      assert Elements(msgs[..i + 1]) == Elements(msgs[..i]) + {m};
      RollupsGrow(Elements(msgs[..i]), keep, m);
      if m.session != "" && m.session in keep {
        var a := if m.session in r then r[m.session] else NO_ACTIVITY;
        r := r[m.session := Activity(a.count + 1, a.cost + m.cost)];
      }
    }
    assert msgs[..|msgs|] == msgs;
  }

  lemma NoRollups(keep: set<string>)
    ensures RollupsOf({}, keep) == map[]
  {
  }

  lemma RollupsGrow(rows: set<Message>, keep: set<string>, m: Message)
    requires m !in rows
    ensures var before, after := RollupsOf(rows, keep), RollupsOf(rows + {m}, keep);
            if m.session !in keep then after == before
            else
              var a := if m.session in before then before[m.session] else NO_ACTIVITY;
              after == before[m.session := Activity(a.count + 1, a.cost + m.cost)]
  {
    hide ActivityOf;
    ActivityGrows(rows, m);
    NoActivity(rows, m.session);
    assert SessionIds(rows + {m}) == SessionIds(rows) + {m.session};
  }

  lemma ActivityGrows(rows: set<Message>, m: Message)
    requires m !in rows
    ensures var before := ActivityOf(rows, m.session);
            ActivityOf(rows + {m}, m.session) == Activity(before.count + 1, before.cost + m.cost)
    ensures forall id :: id != m.session ==> ActivityOf(rows + {m}, id) == ActivityOf(rows, id)
  {
    hide Sum;
    var of := OfSession(rows, m.session);
    assert OfSession(rows + {m}, m.session) == of + {m};
    SumPick(AllColumns, of + {m}, m);
    assert of + {m} - {m} == of;
    forall id | id != m.session
      ensures OfSession(rows + {m}, id) == OfSession(rows, id)
    {
    }
  }

  lemma NoActivity(rows: set<Message>, id: string)
    ensures id !in SessionIds(rows) ==> ActivityOf(rows, id) == NO_ACTIVITY
  {
    if id !in SessionIds(rows) {
      forall m | m in rows
        ensures m.session != id
      {
        assert m.session in SessionIds(rows);
      }
      assert OfSession(rows, id) == {};
    }
  }

  // ---- the full merged list ----

  /** A cached row with the gap added to it. */
  function Combined(e: SessionEntry, g: LiveSession, a: Activity): SessionEntry {
    SessionEntry(e.id, if g.created < e.created && g.created != ZERO_TIME then g.created else e.created,
                 if g.updated > e.updated then g.updated else e.updated, e.count + a.count, e.cost + a.cost)
  }

  function FullEntry(cached: map<string, SessionEntry>, gap: map<string, LiveSession>, added: string -> Activity,
                     id: string): SessionEntry
    requires id in cached || id in gap
  {
    if id !in gap then cached[id]
    else if id in cached then Combined(cached[id], gap[id], added(id))
    else SessionEntry(id, gap[id].created, gap[id].updated, added(id).count, added(id).cost)
  }

  /** The list a page is a page of: every cached and every gap session, merged. */
  ghost function FullList(cached: map<string, SessionEntry>, gap: map<string, LiveSession>,
                          added: string -> Activity): map<string, SessionEntry> {
    Merge(cached, gap, added, cached.Keys + gap.Keys)
  }

  ghost function Merge(cached: map<string, SessionEntry>, gap: map<string, LiveSession>, added: string -> Activity,
                       ids: set<string>): map<string, SessionEntry>
    requires ids <= cached.Keys + gap.Keys
  {
    map id | id in ids :: FullEntry(cached, gap, added, id)
  }

  // ---- the merge ----

  ghost predicate DistinctIds(sessions: seq<LiveSession>) {
    forall i, j :: 0 <= i < j < |sessions| ==> sessions[i].id != sessions[j].id
  }

  ghost function ById(sessions: seq<LiveSession>): map<string, LiveSession> {
    if sessions == [] then map[]
    else
      var last := sessions[|sessions| - 1];
      ById(sessions[..|sessions| - 1])[last.id := last]
  }

  function IdsOf(ranked: seq<SessionEntry>): set<string> {
    set e | e in ranked :: e.id
  }

  ghost function AddedBy(rows: set<Message>): string -> Activity {
    id => ActivityOf(rows, id)
  }

  datatype SessionList = SessionList(sessions: seq<SessionEntry>, total: int)

  /** The rows a page is cut from: the ranked rows and every gap session, merged. */
  ghost function Candidates(cached: map<string, SessionEntry>, gap: map<string, LiveSession>, added: string -> Activity,
                            ranked: seq<SessionEntry>): map<string, SessionEntry>
    requires IdsOf(ranked) <= cached.Keys
  {
    Merge(cached, gap, added, IdsOf(ranked) + gap.Keys)
  }

  lemma RankedIds(cached: map<string, SessionEntry>, ranked: seq<SessionEntry>, n: nat, mode: SessionSort)
    requires KeyedById(cached) && IsRanking(ranked, Rows(cached), n, mode)
    ensures IdsOf(ranked) <= cached.Keys && forall e :: e in ranked ==> cached[e.id] == e
  {
    forall e | e in ranked
      ensures e.id in cached && cached[e.id] == e
    {
      assert e in Members(ranked);
    }
  }

  ghost function GapIds(sessions: seq<LiveSession>): set<string> {
    set g | g in sessions :: g.id
  }

  /** Adds a gap session to the candidates: into the row of its id, or as a row of its own. */
  function WithGapSession(candidates: map<string, SessionEntry>, g: LiveSession, a: Activity): map<string, SessionEntry> {
    candidates[g.id := if g.id in candidates then Combined(candidates[g.id], g, a)
                       else SessionEntry(g.id, g.created, g.updated, a.count, a.cost)]
  }

  /** The rows of the given ids that are cached; those already known may come with another last update. */
  ghost predicate FillsIn(byId: map<string, SessionEntry>, cached: map<string, SessionEntry>, ids: set<string>,
                          known: set<string>) {
    byId.Keys == cached.Keys * ids && forall id :: id in byId && id !in known ==> byId[id] == cached[id]
  }

  /** Gathers the ranked rows, the cached rows of the gap sessions, and the gap sessions, merging by id. */
  method CollectCandidates(ranked: seq<SessionEntry>, byId: map<string, SessionEntry>, gapSessions: seq<LiveSession>,
                           rollups: map<string, Activity>, ghost cached: map<string, SessionEntry>, ghost gapRows: set<Message>)
    returns (candidates: map<string, SessionEntry>)
    requires DistinctIds(gapSessions) && IdsOf(ranked) <= cached.Keys && forall e :: e in ranked ==> cached[e.id] == e
    requires FillsIn(byId, cached, GapIds(gapSessions), IdsOf(ranked)) && rollups == RollupsOf(gapRows, GapIds(gapSessions))
    ensures candidates == Candidates(cached, ById(gapSessions), AddedBy(gapRows), ranked)
  {
    hide Merge, ById, Restricted, RollupsOf, GapIds, IdsOf, AddedBy, DistinctIds, FillsIn;
    candidates := BaseRows(ranked, byId, GapIds(gapSessions), cached);
    ghost var base := IdsOf(ranked) + cached.Keys * GapIds(gapSessions);
    candidates := AddGapSessions(candidates, gapSessions, rollups, cached, gapRows, base);
    GapKeys(gapSessions);
    assert base + GapIds(gapSessions) == IdsOf(ranked) + ById(gapSessions).Keys;
  }

  method AddGapSessions(rows: map<string, SessionEntry>, gapSessions: seq<LiveSession>, rollups: map<string, Activity>,
                        ghost cached: map<string, SessionEntry>, ghost gapRows: set<Message>, ghost base: set<string>)
    returns (candidates: map<string, SessionEntry>)
    requires DistinctIds(gapSessions) && cached.Keys * GapIds(gapSessions) <= base <= cached.Keys
    requires rows == Restricted(cached, base) && rollups == RollupsOf(gapRows, GapIds(gapSessions))
    ensures base + GapIds(gapSessions) <= cached.Keys + ById(gapSessions).Keys
    ensures candidates == Merge(cached, ById(gapSessions), AddedBy(gapRows), base + GapIds(gapSessions))
  {
    hide *;
    candidates := rows;
    ghost var added := AddedBy(gapRows);
    NothingMerged(cached, added, base, gapSessions);
    for i := 0 to |gapSessions|
      invariant base + GapIds(gapSessions[..i]) <= cached.Keys + ById(gapSessions[..i]).Keys
      invariant candidates == Merge(cached, ById(gapSessions[..i]), added, base + GapIds(gapSessions[..i]))
    {
      var g := gapSessions[i];
      AddedToSession(gapRows, gapSessions, i);
      var a := if g.id in rollups then rollups[g.id] else NO_ACTIVITY;
      MergeStep(cached, gapSessions, i, added, base);
      candidates := WithGapSession(candidates, g, a);
    }
    assert gapSessions[..|gapSessions|] == gapSessions;
  }

  lemma MergeStep(cached: map<string, SessionEntry>, gapSessions: seq<LiveSession>, i: nat,
                  added: string -> Activity, base: set<string>)
    requires DistinctIds(gapSessions) && i < |gapSessions| && cached.Keys * GapIds(gapSessions) <= base <= cached.Keys
    requires base + GapIds(gapSessions[..i]) <= cached.Keys + ById(gapSessions[..i]).Keys
    ensures base + GapIds(gapSessions[..i + 1]) <= cached.Keys + ById(gapSessions[..i + 1]).Keys
    ensures Merge(cached, ById(gapSessions[..i + 1]), added, base + GapIds(gapSessions[..i + 1]))
            == WithGapSession(Merge(cached, ById(gapSessions[..i]), added, base + GapIds(gapSessions[..i])), gapSessions[i],
                              added(gapSessions[i].id))
  {
    var g := gapSessions[i];
    assert g.id in GapIds(gapSessions);
    hide Merge, ById, DistinctIds, GapIds, WithGapSession;
    GapGrows(gapSessions, i);
    GapKeys(gapSessions[..i]);
    var ids := base + GapIds(gapSessions[..i]);
    assert base + GapIds(gapSessions[..i + 1]) == ids + {g.id};
    MergeGrows(cached, ById(gapSessions[..i]), g, added, ids);
  }

  method BaseRows(ranked: seq<SessionEntry>, byId: map<string, SessionEntry>, ghost gapIds: set<string>,
                  ghost cached: map<string, SessionEntry>)
    returns (candidates: map<string, SessionEntry>)
    requires IdsOf(ranked) <= cached.Keys && forall e :: e in ranked ==> cached[e.id] == e
    requires FillsIn(byId, cached, gapIds, IdsOf(ranked))
    ensures candidates == Restricted(cached, IdsOf(ranked) + cached.Keys * gapIds)
  {
    candidates := map[];
    for i := 0 to |ranked|
      invariant candidates == Restricted(cached, IdsOf(ranked[..i]))
    {
      assert IdsOf(ranked[..i + 1]) == IdsOf(ranked[..i]) + {ranked[i].id} by { assert ranked[..i + 1] == ranked[..i] + [ranked[i]]; }
      candidates := candidates[ranked[i].id := ranked[i]];
    }
    assert ranked[..|ranked|] == ranked;
    candidates := byId + candidates;
  }

  lemma AddedToSession(gapRows: set<Message>, gapSessions: seq<LiveSession>, i: nat)
    requires i < |gapSessions|
    ensures var id, rollups := gapSessions[i].id, RollupsOf(gapRows, GapIds(gapSessions));
            AddedBy(gapRows)(id) == if id in rollups then rollups[id] else NO_ACTIVITY
  {
    hide ActivityOf;
    NoActivity(gapRows, gapSessions[i].id);
  }

  lemma {:induction false} GapKeys(gapSessions: seq<LiveSession>)
    ensures ById(gapSessions).Keys == GapIds(gapSessions)
    decreases |gapSessions|
  {
    if gapSessions != [] {
      var n := |gapSessions| - 1;
      assert gapSessions[..n + 1] == gapSessions;
      GapGrows(gapSessions, n);
      hide ById, GapIds;
      GapKeys(gapSessions[..n]);
    }
  }

  lemma {:induction false} GapCount(gapSessions: seq<LiveSession>)
    requires DistinctIds(gapSessions)
    ensures |GapIds(gapSessions)| == |gapSessions|
    decreases |gapSessions|
  {
    if gapSessions != [] {
      var n := |gapSessions| - 1;
      assert gapSessions[..n + 1] == gapSessions;
      GapGrows(gapSessions, n);
      hide ById, GapIds;
      GapCount(gapSessions[..n]);
    }
  }

  lemma GapGrows(gapSessions: seq<LiveSession>, i: nat)
    requires i < |gapSessions|
    ensures var g := gapSessions[i];
            && GapIds(gapSessions[..i + 1]) == GapIds(gapSessions[..i]) + {g.id}
            && ById(gapSessions[..i + 1]) == ById(gapSessions[..i])[g.id := g]
            && (DistinctIds(gapSessions) ==> g.id !in GapIds(gapSessions[..i]))
  {
    assert gapSessions[..i + 1] == gapSessions[..i] + [gapSessions[i]];
    assert gapSessions[..i + 1][..i] == gapSessions[..i];
  }

  lemma NothingMerged(cached: map<string, SessionEntry>, added: string -> Activity, base: set<string>,
                      gapSessions: seq<LiveSession>)
    requires base <= cached.Keys
    ensures GapIds(gapSessions[..0]) == {} && ById(gapSessions[..0]) == map[]
    ensures Merge(cached, ById(gapSessions[..0]), added, base + GapIds(gapSessions[..0])) == Restricted(cached, base)
  {
    assert GapIds(gapSessions[..0]) == {} && ById(gapSessions[..0]) == map[];
  }

  lemma MergeGrows(cached: map<string, SessionEntry>, before: map<string, LiveSession>, g: LiveSession,
                   added: string -> Activity, ids: set<string>)
    requires g.id !in before && ids <= cached.Keys + before.Keys && (g.id in cached ==> g.id in ids)
    ensures var earlier, later := Merge(cached, before, added, ids), Merge(cached, before[g.id := g], added, ids + {g.id});
            later == WithGapSession(earlier, g, added(g.id))
  {
  }

  /** The page of the sorted listing of some rows that starts at an offset. */
  ghost function PageRows(rows: map<string, SessionEntry>, offset: nat, size: nat, mode: SessionSort): seq<SessionEntry> {
    Slice(Listing(SessionOrder(mode), Rows(rows)), offset, offset + size)
  }

  /**
   One page of the merged list and its total; also the ranking the statement gave, and
   the cached rows as the statements gave them: a row's last update is that of the
   statement it was taken from.
   */
  method MergeSessions(dbAt: nat -> Database, span: Span, shown: string -> bool, gapSessions: seq<LiveSession>,
                       gapMsgs: seq<Message>,
                       page: int, size: int, mode: SessionSort, ghost cached: map<string, SessionEntry>)
    returns (r: SessionList, ranked: seq<SessionEntry>, rows: map<string, SessionEntry>)
    requires SeeSessions(dbAt, span, shown, cached) && |cached| <= MAX_PAGE_OFFSET && DistinctIds(gapSessions)
    requires forall i, j :: 0 <= i < j < |gapMsgs| ==> gapMsgs[i] != gapMsgs[j]
    requires forall m :: m in gapMsgs ==> m.session != ""
    requires 1 <= page && 1 <= size <= 100
    ensures SameButUpdates(rows, cached) && KeyedById(rows)
    ensures IsRanking(ranked, Rows(rows), PageOffset(page, size) + size, mode) && IdsOf(ranked) <= rows.Keys
    ensures var gap, added := ById(gapSessions), AddedBy(Elements(gapMsgs));
            && r.sessions == PageRows(Candidates(rows, gap, added, ranked), PageOffset(page, size), size, mode)
            && r.total == |FullList(rows, gap, added)|
  {
    hide *;
    var rankLimit := Wrap64(PageOffset(page, size) + size);
    var gapIds, keep := ListGapIds(gapSessions);
    var total, top, byId;
    total, top, byId, rows := SessionWindowRows(dbAt, span, shown, rankLimit, gapIds, mode, cached);
    ranked := top;
    SameCount(rows, cached);
    RankLimitIsEnough(ranked, rows, PageOffset(page, size), size, mode);
    RankedIds(rows, ranked, PageOffset(page, size) + size, mode);
    ghost var added := AddedBy(Elements(gapMsgs));
    var rollups := GapSessionRollups(gapMsgs, keep);
    var candidates := CollectCandidates(top, byId, gapSessions, rollups, rows, Elements(gapMsgs));
    CandidatesAreKeyed(rows, gapSessions, added, ranked);
    SessionTotal(rows, gapSessions, added, byId, IdsOf(ranked));
    var pageRows := CutPage(candidates, page, size, mode);
    r := SessionList(pageRows, total + |gapSessions| - |byId|);
  }

  lemma SameCount(a: map<string, SessionEntry>, b: map<string, SessionEntry>)
    requires SameButUpdates(a, b)
    ensures |a| == |b|
  {
    assert |a| == |a.Keys| && |b| == |b.Keys|;
  }

  /** The number of rows a statement is asked for: without a positive limit, all of them. */
  function Limited(limit: int, count: nat): nat {
    if limit > 0 then limit else count
  }

  /** A limit that wrapped is no limit; either way the rows up to the end of the page are ranked. */
  lemma RankLimitIsEnough(ranked: seq<SessionEntry>, rows: map<string, SessionEntry>, offset: nat, size: nat,
                          mode: SessionSort)
    requires KeyedById(rows) && |rows| <= MAX_PAGE_OFFSET && offset <= MAX_INT && 1 <= size <= 100
    requires IsRanking(ranked, Rows(rows), Limited(Wrap64(offset + size), |rows|), mode)
    ensures IsRanking(ranked, Rows(rows), offset + size, mode)
  {
    hide RanksFirst;
    RowsOfKeyed(rows);
    EndOfPage(offset, size);
  }

  /** The count, the top rows, and the rows of some ids, each its own statement; and what they say of the cached rows. */
  method SessionWindowRows(dbAt: nat -> Database, span: Span, shown: string -> bool, limit: int, ids: seq<string>,
                           mode: SessionSort,
                           ghost cached: map<string, SessionEntry>)
    returns (total: nat, ranked: seq<SessionEntry>, byId: map<string, SessionEntry>, rows: map<string, SessionEntry>)
    requires SeeSessions(dbAt, span, shown, cached)
    ensures total == |cached| && SameButUpdates(rows, cached) && KeyedById(rows)
    ensures IsRanking(ranked, Rows(rows), Limited(limit, |rows|), mode) && IdsOf(ranked) <= rows.Keys
    ensures forall e :: e in ranked ==> rows[e.id] == e
    ensures FillsIn(byId, rows, Members(ids), IdsOf(ranked))
  {
    hide *;
    SeeSessionsAt(dbAt, span, shown, cached, COUNTED);
    SeeSessionsAt(dbAt, span, shown, cached, RANKED);
    var counted := WindowRows(dbAt(COUNTED), span, shown);
    SameCount(counted, cached);
    total := |counted|;
    var seen := WindowRows(dbAt(RANKED), span, shown);
    SameCount(seen, cached);
    ranked := Ranked(Rows(seen), Limited(limit, |seen|), mode);
    byId := RowsById(dbAt, span, shown, ids, cached);
    RankedIds(seen, ranked, Limited(limit, |seen|), mode);
    rows := TakenRows(counted, seen, byId, ranked, cached, Members(ids));
    SameCount(rows, cached);
    RankingIgnoresUpdates(ranked, seen, rows, Limited(limit, |seen|), mode, cached);
  }

  /** The cached rows as they were taken: ranked rows first, then rows by id, then the rest. */
  method TakenRows(counted: map<string, SessionEntry>, seen: map<string, SessionEntry>, byId: map<string, SessionEntry>,
                   ranked: seq<SessionEntry>, ghost cached: map<string, SessionEntry>, ghost ids: set<string>)
    returns (rows: map<string, SessionEntry>)
    requires KeyedById(cached) && SameButUpdates(counted, cached) && SameButUpdates(seen, cached)
    requires SameButUpdates(byId, Restricted(cached, ids))
    requires IdsOf(ranked) <= seen.Keys && forall e :: e in ranked ==> seen[e.id] == e
    ensures SameButUpdates(rows, cached) && KeyedById(rows) && FillsIn(byId, rows, ids, IdsOf(ranked))
    ensures forall e :: e in ranked ==> e.id in rows && rows[e.id] == e
  {
    var top := map id | id in seen && id in IdsOf(ranked) :: seen[id];
    rows := counted + byId + top;
    forall e | e in ranked
      ensures e.id in IdsOf(ranked) && rows[e.id] == e
    {
    }
  }

  /** A ranking does not depend on last updates. */
  lemma RankingIgnoresUpdates(ranked: seq<SessionEntry>, seen: map<string, SessionEntry>, rows: map<string, SessionEntry>,
                              n: nat, mode: SessionSort, cached: map<string, SessionEntry>)
    requires IsRanking(ranked, Rows(seen), n, mode) && KeyedById(seen) && KeyedById(rows)
    requires SameButUpdates(seen, cached) && SameButUpdates(rows, cached)
    requires forall e :: e in ranked ==> e.id in rows && rows[e.id] == e
    ensures IsRanking(ranked, Rows(rows), n, mode) && IdsOf(ranked) <= rows.Keys
  {
    RowsOfKeyed(seen);
    RowsOfKeyed(rows);
    SameCount(seen, cached);
    SameCount(rows, cached);
    RankedIds(seen, ranked, n, mode);
    forall x, i | x in Rows(rows) && x !in ranked && 0 <= i < |ranked|
      ensures !RanksBefore(x, ranked[i], mode)
    {
      var y := seen[x.id];
      assert y in Rows(seen);
      assert y !in ranked && !RanksBefore(y, ranked[i], mode);
      assert rows[x.id] == cached[x.id].(updated := x.updated) && y == cached[x.id].(updated := y.updated);
      UpdatesDoNotRank(x, y, ranked[i], mode);
    }
  }

  lemma UpdatesDoNotRank(x: SessionEntry, y: SessionEntry, z: SessionEntry, mode: SessionSort)
    requires x == y.(updated := x.updated)
    ensures RanksBefore(x, z, mode) == RanksBefore(y, z, mode)
  {
  }

  lemma SeeSessionsAt(dbAt: nat -> Database, span: Span, shown: string -> bool, cached: map<string, SessionEntry>, k: nat)
    requires SeeSessions(dbAt, span, shown, cached)
    ensures SameButUpdates(SessionEntries(dbAt(k), span, shown), cached)
    ensures KeyedById(SessionEntries(dbAt(k), span, shown)) && KeyedById(cached)
  {
    EntriesAreKeyed(dbAt(k), span, shown);
  }

  method ListGapIds(gapSessions: seq<LiveSession>) returns (ids: seq<string>, keep: set<string>)
    ensures Members(ids) == keep == GapIds(gapSessions)
  {
    hide ById;
    ids, keep := [], {};
    for i := 0 to |gapSessions|
      invariant Members(ids) == keep == GapIds(gapSessions[..i])
    {
      GapGrows(gapSessions, i);
      assert Members(ids + [gapSessions[i].id]) == Members(ids) + {gapSessions[i].id};
      ids, keep := ids + [gapSessions[i].id], keep + {gapSessions[i].id};
    }
    assert gapSessions[..|gapSessions|] == gapSessions;
  }

  lemma CandidatesAreKeyed(cached: map<string, SessionEntry>, gapSessions: seq<LiveSession>,
                           added: string -> Activity, ranked: seq<SessionEntry>)
    requires KeyedById(cached) && DistinctIds(gapSessions) && IdsOf(ranked) <= cached.Keys
    ensures KeyedById(Candidates(cached, ById(gapSessions), added, ranked))
  {
  }

  /** Cached sessions and gap sessions, those on both sides counted once. */
  lemma SessionTotal(cached: map<string, SessionEntry>, gapSessions: seq<LiveSession>, added: string -> Activity,
                     byId: map<string, SessionEntry>, known: set<string>)
    requires DistinctIds(gapSessions) && FillsIn(byId, cached, GapIds(gapSessions), known)
    ensures |cached| + |gapSessions| - |byId| == |FullList(cached, ById(gapSessions), added)|
  {
    hide FullList, ById, GapIds;
    assert |byId| == |byId.Keys|;
    GapKeys(gapSessions);
    GapCount(gapSessions);
    UnionSize(cached.Keys, GapIds(gapSessions));
    SessionKeys(cached, ById(gapSessions), added, GapIds(gapSessions));
  }

  lemma SessionKeys(cached: map<string, SessionEntry>, gap: map<string, LiveSession>, added: string -> Activity,
                    ids: set<string>)
    requires gap.Keys == ids
    ensures FullList(cached, gap, added).Keys == cached.Keys + ids && Restricted(cached, ids).Keys == cached.Keys * ids
    ensures |FullList(cached, gap, added)| == |cached.Keys + ids| && |Restricted(cached, ids)| == |cached.Keys * ids|
  {
    hide FullEntry;
    var full, both := FullList(cached, gap, added), Restricted(cached, ids);
    assert full.Keys == cached.Keys + ids;
    assert both.Keys == cached.Keys * ids;
  }

  method CutPage(candidates: map<string, SessionEntry>, page: int, size: int,
                 mode: SessionSort) returns (rows: seq<SessionEntry>)
    requires KeyedById(candidates) && 1 <= page && 1 <= size
    ensures rows == PageRows(candidates, PageOffset(page, size), size, mode)
  {
    hide SessionLess, StrictOrder, Lists, Listing, Rows, KeyedById, PageOffset;
    var list := ListElements(Rows(candidates));
    SessionsAreOrdered(candidates, mode);
    var merged := SortSlice(SessionOrder(mode), list);
    var lo := Least(PageOffset(page, size), |merged|);
    var hi := Least(lo + size, |merged|);
    rows := merged[lo..hi];
  }

  lemma EntriesAreKeyed(db: Database, span: Span, shown: string -> bool)
    ensures KeyedById(SessionEntries(db, span, shown))
  {
  }

  // ---- when a page is the page of the full list ----

  /** The sessions no statement fetched: cached, ranked too low, without gap activity. */
  ghost function Unfetched(cached: map<string, SessionEntry>, gap: map<string, LiveSession>,
                           ranked: seq<SessionEntry>): set<string> {
    cached.Keys - IdsOf(ranked) - gap.Keys
  }

  /**
   The page is exact exactly when the full list ends before it or every session that
   was not fetched is preceded, in the merged order, by enough fetched ones.
   */
  lemma WhenASessionPageIsExact(cached: map<string, SessionEntry>, gap: map<string, LiveSession>, added: string -> Activity,
                                ranked: seq<SessionEntry>, offset: nat, size: nat, mode: SessionSort)
    requires KeyedById(cached) && (forall id :: id in gap ==> gap[id].id == id) && IdsOf(ranked) <= cached.Keys
    requires 1 <= size
    ensures var some, all := Candidates(cached, gap, added, ranked), FullList(cached, gap, added);
            PageRows(some, offset, size, mode) == PageRows(all, offset, size, mode)
            <==> |all| <= offset
                 || forall id :: id in Unfetched(cached, gap, ranked) ==>
                      Preceded(SessionOrder(mode), Rows(some), cached[id], offset + size)
  {
    var some, all := Candidates(cached, gap, added, ranked), FullList(cached, gap, added);
    CandidatesAreListed(cached, gap, added, ranked);
    hide *;
    WhenAPageOfCandidatesIsExact(some, all, offset, size, mode);
    UnfetchedRows(cached, gap, added, ranked, SessionOrder(mode), offset + size);
  }

  lemma WhenAPageOfCandidatesIsExact(some: map<string, SessionEntry>, all: map<string, SessionEntry>, offset: nat, size: nat,
                                     mode: SessionSort)
    requires KeyedById(some) && KeyedById(all) && Rows(some) <= Rows(all) && |Rows(all)| == |all| && 1 <= size
    ensures PageRows(some, offset, size, mode) == PageRows(all, offset, size, mode)
            <==> |all| <= offset
                 || forall x :: x in Rows(all) - Rows(some) ==> Preceded(SessionOrder(mode), Rows(some), x, offset + size)
  {
    hide *;
    var less := SessionOrder(mode);
    SessionsAreOrdered(all, mode);
    SessionsAreOrdered(some, mode);
    ListingLists(less, Rows(all));
    ListingLists(less, Rows(some));
    ListedIs(less, Listing(less, Rows(all)), Rows(all));
    WhenThePageIsExact(less, Rows(all), Listing(less, Rows(all)), Rows(some), Listing(less, Rows(some)), offset, offset + size);
    PageRowsAre(some, offset, size, mode);
    PageRowsAre(all, offset, size, mode);
  }

  lemma PageRowsAre(rows: map<string, SessionEntry>, offset: nat, size: nat, mode: SessionSort)
    ensures PageRows(rows, offset, size, mode) == Slice(Listing(SessionOrder(mode), Rows(rows)), offset, offset + size)
  {
  }

  lemma RowsOfKeyed(rows: map<string, SessionEntry>)
    requires KeyedById(rows)
    ensures |Rows(rows)| == |rows|
    decreases |rows|
  {
    if rows == map[] {
      assert Rows(rows) == {};
    } else {
      var id :| id in rows;
      var rest := rows - {id};
      forall k | k in rows
        ensures rows[k] in Rows(rest) + {rows[id]}
      {
        assert k != id ==> rest[k] == rows[k];
      }
      assert Rows(rows) == Rows(rest) + {rows[id]};
      assert rows[id] !in Rows(rest);
      RowsOfKeyed(rest);
    }
  }

  lemma CandidatesAreListed(cached: map<string, SessionEntry>, gap: map<string, LiveSession>,
                            added: string -> Activity, ranked: seq<SessionEntry>)
    requires KeyedById(cached) && (forall id :: id in gap ==> gap[id].id == id) && IdsOf(ranked) <= cached.Keys
    ensures var some, all := Candidates(cached, gap, added, ranked), FullList(cached, gap, added);
            KeyedById(some) && KeyedById(all) && Rows(some) <= Rows(all) && |Rows(all)| == |all|
  {
    hide IdsOf;
    var some, all := Candidates(cached, gap, added, ranked), FullList(cached, gap, added);
    forall id | id in some
      ensures id in all && all[id] == some[id]
    {
    }
    RowsOfKeyed(all);
  }

  lemma UnfetchedRows(cached: map<string, SessionEntry>, gap: map<string, LiveSession>, added: string -> Activity,
                      ranked: seq<SessionEntry>,
                      less: (SessionEntry, SessionEntry) -> bool, n: nat)
    requires KeyedById(cached) && (forall id :: id in gap ==> gap[id].id == id) && IdsOf(ranked) <= cached.Keys
    ensures var some, all := Rows(Candidates(cached, gap, added, ranked)), Rows(FullList(cached, gap, added));
            (forall x :: x in all - some ==> Preceded(less, some, x, n))
            <==> forall id :: id in Unfetched(cached, gap, ranked) ==> Preceded(less, some, cached[id], n)
  {
    hide IdsOf, Preceded;
    var some, all := Candidates(cached, gap, added, ranked), FullList(cached, gap, added);
    forall id | id in Unfetched(cached, gap, ranked)
      ensures cached[id] in Rows(all) - Rows(some)
    {
      assert all[id] == cached[id];
    }
    forall id | id in some
      ensures all[id] in Rows(some)
    {
      assert all[id] == some[id];
    }
    forall x | x in Rows(all) - Rows(some)
      ensures x.id in Unfetched(cached, gap, ranked) && cached[x.id] == x
    {
      var id :| id in all && all[id] == x;
    }
  }

  /** Every ranked session comes before every cached session left out, ties included. */
  ghost predicate SharesTheOrder(cached: map<string, SessionEntry>, ranked: seq<SessionEntry>, mode: SessionSort) {
    forall e, id :: e in ranked && id in cached && id !in IdsOf(ranked) ==> SessionLess(e, cached[id], mode)
  }

  /** No gap session is older than its cached row says. */
  ghost predicate NoneLowered(cached: map<string, SessionEntry>, gap: map<string, LiveSession>) {
    forall id :: id in cached && id in gap && gap[id].created != ZERO_TIME ==> gap[id].created >= cached[id].created
  }

  /** No two sessions tie on the keys of the statement. */
  ghost predicate WithoutTies(rows: map<string, SessionEntry>, mode: SessionSort) {
    forall a, b :: a in rows && b in rows && a != b ==>
      RanksBefore(rows[a], rows[b], mode) || RanksBefore(rows[b], rows[a], mode)
  }

  /** A ranking cut where no two sessions tie is cut in the order of the list. */
  lemma WithoutTiesTheOrderIsShared(cached: map<string, SessionEntry>, ranked: seq<SessionEntry>, n: nat, mode: SessionSort)
    requires KeyedById(cached) && IsRanking(ranked, Rows(cached), n, mode) && IdsOf(ranked) <= cached.Keys
    requires WithoutTies(cached, mode)
    ensures SharesTheOrder(cached, ranked, mode)
  {
    hide CompareText;
    RankedIds(cached, ranked, n, mode);
    forall e, id | e in ranked && id in cached && id !in IdsOf(ranked)
      ensures SessionLess(e, cached[id], mode)
    {
      assert cached[id] in Rows(cached) && cached[id] !in ranked;
      var i :| 0 <= i < |ranked| && ranked[i] == e;
      assert !RanksBefore(cached[id], ranked[i], mode);
      assert e.id in IdsOf(ranked);
    }
  }

  /** Merging raises a session in the list, or leaves it where it is. */
  lemma MergingRaises(e: SessionEntry, g: LiveSession, a: Activity, x: SessionEntry, mode: SessionSort)
    requires SessionLess(e, x, mode) && a.cost >= 0.0
    requires mode.Oldest? || g.created == ZERO_TIME || g.created >= e.created
    ensures SessionLess(Combined(e, g, a), x, mode)
  {
    hide CompareText;
  }

  /** Ranked in the order of the list, with costs that only grow and no creation time lowered, every page is exact. */
  lemma PagesAreExact(cached: map<string, SessionEntry>, gap: map<string, LiveSession>, added: string -> Activity,
                      ranked: seq<SessionEntry>, offset: nat, size: nat, mode: SessionSort)
    requires KeyedById(cached) && (forall id :: id in gap ==> gap[id].id == id) && IdsOf(ranked) <= cached.Keys
    requires 1 <= size && IsRanking(ranked, Rows(cached), offset + size, mode)
    requires SharesTheOrder(cached, ranked, mode) && (mode.Oldest? || NoneLowered(cached, gap))
    requires forall id :: id in gap ==> added(id).cost >= 0.0
    ensures PageRows(Candidates(cached, gap, added, ranked), offset, size, mode)
            == PageRows(FullList(cached, gap, added), offset, size, mode)
  {
    hide IsRanking, Candidates, Preceded, KeyedById, SessionLess, PageRows, FullList, Rows, IdsOf, SharesTheOrder;
    RankedIds(cached, ranked, offset + size, mode);
    WhenASessionPageIsExact(cached, gap, added, ranked, offset, size, mode);
    forall id | id in Unfetched(cached, gap, ranked)
      ensures Preceded(SessionOrder(mode), Rows(Candidates(cached, gap, added, ranked)), cached[id], offset + size)
    {
      RankedPrecede(cached, gap, added, ranked, offset + size, mode, id);
    }
  }

  lemma RankedPrecede(cached: map<string, SessionEntry>, gap: map<string, LiveSession>, added: string -> Activity,
                      ranked: seq<SessionEntry>, n: nat, mode: SessionSort, id: string)
    requires KeyedById(cached) && (forall k :: k in gap ==> gap[k].id == k) && IdsOf(ranked) <= cached.Keys
    requires IsRanking(ranked, Rows(cached), n, mode) && forall e :: e in ranked ==> cached[e.id] == e
    requires SharesTheOrder(cached, ranked, mode) && (mode.Oldest? || NoneLowered(cached, gap))
    requires forall k :: k in gap ==> added(k).cost >= 0.0
    requires id in Unfetched(cached, gap, ranked)
    ensures Preceded(SessionOrder(mode), Rows(Candidates(cached, gap, added, ranked)), cached[id], n)
  {
    hide SessionLess, RanksBefore, RanksFirst;
    FullRanking(cached, ranked, n, mode, id);
    var some := Candidates(cached, gap, added, ranked);
    assert forall i :: 0 <= i < |ranked| ==> ranked[i].id in IdsOf(ranked);
    var images := seq(|ranked|, i requires 0 <= i < |ranked| => some[ranked[i].id]);
    forall i | 0 <= i < |ranked|
      ensures images[i] in Rows(some) && images[i].id == ranked[i].id && SessionLess(images[i], cached[id], mode)
    {
      var e := ranked[i];
      assert e in ranked && SessionLess(e, cached[id], mode);
      if e.id in gap {
        MergingRaises(e, gap[e.id], added(e.id), cached[id], mode);
      }
    }
    forall i, j | 0 <= i < j < |images|
      ensures images[i] != images[j]
    {
      RankedOnce(cached, ranked, n, mode, i, j);
    }
    assert forall i :: 0 <= i < |images| ==> SessionOrder(mode)(images[i], cached[id]);
    DistinctRowsPrecede(SessionOrder(mode), images, Rows(some), cached[id]);
  }

  lemma RankedOnce(cached: map<string, SessionEntry>, ranked: seq<SessionEntry>, n: nat, mode: SessionSort, i: nat, j: nat)
    requires IsRanking(ranked, Rows(cached), n, mode) && IdsOf(ranked) <= cached.Keys && forall e :: e in ranked ==> cached[e.id] == e
    requires i < j < |ranked|
    ensures ranked[i].id != ranked[j].id
  {
    assert ranked[i] in ranked && ranked[j] in ranked && ranked[i] != ranked[j];
    assert ranked[i].id in IdsOf(ranked) && ranked[j].id in IdsOf(ranked);
  }

  /** A ranking that leaves a session out is as long as it was asked to be. */
  lemma FullRanking(cached: map<string, SessionEntry>, ranked: seq<SessionEntry>, n: nat, mode: SessionSort, id: string)
    requires IsRanking(ranked, Rows(cached), n, mode) && id in cached && id !in IdsOf(ranked) && cached[id].id == id
    ensures |ranked| == n
  {
    hide RanksBefore;
    DistinctCount(ranked, |ranked|);
    assert ranked[..|ranked|] == ranked;
    assert cached[id] in Rows(cached);
    assert cached[id] in ranked ==> id in IdsOf(ranked);
    var members := Members(ranked);
    SubsetIsSmaller(members + {cached[id]}, Rows(cached));
    assert |members + {cached[id]}| == |ranked| + 1;
  }

  // ---- when it is not ----

  function One(x: SessionEntry): map<string, SessionEntry> {
    map[x.id := x]
  }

  function Two(x: SessionEntry, y: SessionEntry): map<string, SessionEntry> {
    map[x.id := x, y.id := y]
  }

  lemma RowsOfOne(x: SessionEntry)
    ensures Rows(One(x)) == {x} && KeyedById(One(x)) && One(x).Keys == {x.id}
  {
    assert One(x)[x.id] in Rows(One(x));
  }

  lemma RowsOfTwo(x: SessionEntry, y: SessionEntry)
    requires x.id != y.id
    ensures Rows(Two(x, y)) == {x, y} && KeyedById(Two(x, y)) && Two(x, y).Keys == {x.id, y.id} && |{x, y}| == 2
    ensures Two(x, y) == Two(y, x)
  {
    assert Two(x, y)[x.id] in Rows(Two(x, y)) && Two(x, y)[y.id] in Rows(Two(x, y));
  }

  lemma PageOfTwo(x: SessionEntry, y: SessionEntry, mode: SessionSort)
    requires SessionLess(x, y, mode) && x.id != y.id
    ensures PageRows(Two(x, y), 0, 1, mode) == [x] && PageRows(Two(x, y), 1, 1, mode) == [y]
  {
    RowsOfTwo(x, y);
    SessionsAreOrdered(Two(x, y), mode);
    assert Members([x, y]) == {x, y};
    hide SessionLess, Rows, Two;
    assert SessionOrder(mode)(x, y);
    hide SessionOrder;
    ListedIs(SessionOrder(mode), [x, y], {x, y});
  }

  lemma PageOfOne(x: SessionEntry, mode: SessionSort)
    ensures PageRows(One(x), 0, 1, mode) == [x]
  {
    RowsOfOne(x);
    SessionsAreOrdered(One(x), mode);
    assert Members([x]) == {x};
    hide SessionLess, Rows, SessionOrder, One;
    ListedIs(SessionOrder(mode), [x], {x});
  }

  function Nothing(): string -> Activity {
    id => NO_ACTIVITY
  }

  /**
   Two cached sessions created at the same instant. The statement may rank either
   first, since it has no id tie-break; the list puts "a" first. With pages of one row
   both the first and the second page may then be "b": "a" is on no page.
   */
  lemma TiesCanHideASession()
    ensures var a, b := SessionEntry("a", 5, 5, 1, 0.0), SessionEntry("b", 5, 5, 1, 0.0);
            var cached := Two(a, b);
            && IsRanking([b], Rows(cached), 1, Newest) && IsRanking([b, a], Rows(cached), 2, Newest)
            && FullList(cached, map[], Nothing()) == cached
            && Candidates(cached, map[], Nothing(), [b]) == One(b) && PageRows(One(b), 0, 1, Newest) == [b]
            && Candidates(cached, map[], Nothing(), [b, a]) == cached && PageRows(cached, 1, 1, Newest) == [b]
  {
    var a, b := SessionEntry("a", 5, 5, 1, 0.0), SessionEntry("b", 5, 5, 1, 0.0);
    assert a.id != b.id && SessionLess(a, b, Newest) && !RanksBefore(a, b, Newest) && !RanksBefore(b, a, Newest);
    hide SessionLess, RanksBefore, IsRanking, FullList, Candidates, PageRows;
    RowsOfTwo(a, b);
    EitherMayRankFirst(a, b, Newest);
    PageOfOne(b, Newest);
    PageOfTwo(a, b, Newest);
    WithoutAGap(a, b);
  }

  lemma EitherMayRankFirst(a: SessionEntry, b: SessionEntry, mode: SessionSort)
    requires a != b && !RanksBefore(a, b, mode) && !RanksBefore(b, a, mode)
    ensures IsRanking([b], {a, b}, 1, mode) && IsRanking([b, a], {a, b}, 2, mode)
  {
    assert |{a, b}| == 2;
  }

  lemma WithoutAGap(a: SessionEntry, b: SessionEntry)
    requires a.id != b.id
    ensures IdsOf([b]) <= Two(a, b).Keys && IdsOf([b, a]) <= Two(a, b).Keys
    ensures FullList(Two(a, b), map[], Nothing()) == Two(a, b)
    ensures Candidates(Two(a, b), map[], Nothing(), [b]) == One(b) && Candidates(Two(a, b), map[], Nothing(), [b, a]) == Two(a, b)
  {
    assert IdsOf([b]) == {b.id} && IdsOf([b, a]) == {a.id, b.id};
  }

  /**
   A gap session older than its cached row moves down when it is merged. Ranked on
   the cached row it takes the only place of the first page, and the session that
   should have it is never fetched.
   */
  lemma ALoweredCreationCanMisplaceASession()
    ensures var a, b := SessionEntry("a", 10, 10, 1, 0.0), SessionEntry("b", 5, 5, 1, 0.0);
            var cached, gap, merged := Two(a, b), map["a" := LiveSession("a", 1, 20)], SessionEntry("a", 1, 20, 1, 0.0);
            && IsRanking([a], Rows(cached), 1, Newest) && SharesTheOrder(cached, [a], Newest)
            && Candidates(cached, gap, Nothing(), [a]) == One(merged) && PageRows(One(merged), 0, 1, Newest) == [merged]
            && FullList(cached, gap, Nothing()) == Two(b, merged) && PageRows(Two(b, merged), 0, 1, Newest) == [b]
  {
    var a, b := SessionEntry("a", 10, 10, 1, 0.0), SessionEntry("b", 5, 5, 1, 0.0);
    var merged := SessionEntry("a", 1, 20, 1, 0.0);
    assert a.id == merged.id && a.id != b.id && SessionLess(b, merged, Newest) && SessionLess(a, b, Newest);
    assert RanksBefore(a, b, Newest) && !RanksBefore(b, a, Newest);
    assert Combined(a, LiveSession("a", 1, 20), NO_ACTIVITY) == merged;
    hide SessionLess, RanksBefore, IsRanking, FullList, Candidates, PageRows, SharesTheOrder, Combined;
    RowsOfTwo(a, b);
    TheFirstRanksFirst(a, b, Newest);
    PageOfOne(merged, Newest);
    PageOfTwo(b, merged, Newest);
    WithOneGapSession(a, b, LiveSession("a", 1, 20));
  }

  lemma TheFirstRanksFirst(a: SessionEntry, b: SessionEntry, mode: SessionSort)
    requires a.id != b.id && !RanksBefore(b, a, mode) && SessionLess(a, b, mode)
    ensures IsRanking([a], {a, b}, 1, mode) && SharesTheOrder(Two(a, b), [a], mode)
  {
    hide SessionLess, RanksBefore;
    assert |{a, b}| == 2;
    assert a in [a];
    assert a.id in IdsOf([a]);
  }

  lemma WithOneGapSession(a: SessionEntry, b: SessionEntry, g: LiveSession)
    requires a.id != b.id && g.id == a.id
    ensures var merged := Combined(a, g, NO_ACTIVITY);
            && IdsOf([a]) <= Two(a, b).Keys
            && FullList(Two(a, b), map[g.id := g], Nothing()) == Two(b, merged)
            && Candidates(Two(a, b), map[g.id := g], Nothing(), [a]) == One(merged)
  {
    assert IdsOf([a]) == {a.id};
  }

  // ---- the list and the raw log ----

  /** What the merged list has of a session: the cached activity if the cache shows it, the live one if the source does. */
  ghost function ShownActivity(cachedRows: set<Message>, gapRows: set<Message>, shown: string -> bool,
                               shownLive: string -> bool,
                               id: string): Activity {
    var x := if shown(id) then ActivityOf(cachedRows, id) else NO_ACTIVITY;
    var y := if shownLive(id) then ActivityOf(gapRows, id) else NO_ACTIVITY;
    Activity(x.count + y.count, x.cost + y.cost)
  }

  /** The sessions of the cached rows that the cache shows, and those of the live rows that the source shows. */
  ghost function ShownIds(cachedRows: set<Message>, gapRows: set<Message>, shown: string -> bool,
                          shownLive: string -> bool): set<string> {
    (set id | id in SessionIds(cachedRows) && shown(id)) + (set id | id in SessionIds(gapRows) && shownLive(id))
  }

  /**
   The merged list holds every shown session of the two halves once, with the count and
   the cost that the filters of the two halves show of it.
   */
  lemma TheListIsTheLogs(db: Database, span: Span, shown: string -> bool, shownLive: string -> bool,
                         cached: map<string, SessionEntry>,
                         cachedRows: set<Message>, gapRows: set<Message>, gap: map<string, LiveSession>)
    requires Derived(db) && Window(db.messages, span.start, span.end) == cachedRows && cachedRows !! gapRows
    requires SameButUpdates(cached, SessionEntries(db, span, shown))
    requires gap.Keys == set id | id in SessionIds(gapRows) && shownLive(id)
    ensures var all := FullList(cached, gap, AddedBy(gapRows));
            && all.Keys == ShownIds(cachedRows, gapRows, shown, shownLive)
            && forall id :: id in all ==>
                 Activity(all[id].count, all[id].cost) == ShownActivity(cachedRows, gapRows, shown, shownLive, id)
  {
    hide Derived, ActivityOf, Sum, Window, SessionIds;
    var all := FullList(cached, gap, AddedBy(gapRows));
    WindowSessions(db, span);
    EntriesAre(db, span, shown);
    hide SessionEntries;
    forall id | id in all
      ensures Activity(all[id].count, all[id].cost) == ShownActivity(cachedRows, gapRows, shown, shownLive, id)
    {
      NoActivity(gapRows, id);
      NoActivity(cachedRows, id);
    }
  }

  /** A session is shown with all its activity exactly when neither half filters out rows of it. */
  lemma WhenASessionIsShownInFull(cachedRows: set<Message>, gapRows: set<Message>, shown: string -> bool,
                                  shownLive: string -> bool, id: string)
    requires cachedRows !! gapRows
    ensures ShownActivity(cachedRows, gapRows, shown, shownLive, id) == ActivityOf(cachedRows + gapRows, id)
            <==> (shown(id) || id !in SessionIds(cachedRows)) && (shownLive(id) || id !in SessionIds(gapRows))
  {
    hide Sum;
    ActivityAdds(cachedRows, gapRows, id);
    SomeActivity(cachedRows, id);
    SomeActivity(gapRows, id);
    hide ActivityOf;
    NoActivity(cachedRows, id);
    NoActivity(gapRows, id);
  }

  lemma SomeActivity(rows: set<Message>, id: string)
    ensures id in SessionIds(rows) ==> ActivityOf(rows, id).count > 0
  {
    if id in SessionIds(rows) {
      var m :| m in rows && m.session == id;
      assert m in OfSession(rows, id);
    }
  }

  lemma EntriesAre(db: Database, span: Span, shown: string -> bool)
    requires SessionIds(Window(db.messages, span.start, span.end)) <= db.sessions.Keys
    ensures var cached, rows := SessionEntries(db, span, shown), Window(db.messages, span.start, span.end);
            && cached.Keys == (set id | id in SessionIds(rows) && shown(id))
            && forall id :: id in cached ==> Activity(cached[id].count, cached[id].cost) == ActivityOf(rows, id)
  {
    hide Sum, Window, SessionIds;
  }

  lemma WindowSessions(db: Database, span: Span)
    requires Derived(db)
    ensures SessionIds(Window(db.messages, span.start, span.end)) <= db.sessions.Keys
  {
  }

  lemma ActivityAdds(a: set<Message>, b: set<Message>, id: string)
    requires a !! b
    ensures var x, y := ActivityOf(a, id), ActivityOf(b, id);
            ActivityOf(a + b, id) == Activity(x.count + y.count, x.cost + y.cost)
  {
    hide Sum;
    assert OfSession(a + b, id) == OfSession(a, id) + OfSession(b, id);
    SumDisjoint(AllColumns, OfSession(a, id), OfSession(b, id));
  }

  // ---- the request ----

  lemma CreationIsFinal(a: set<Message>, b: set<Message>, cutoff: int, m: Message)
    requires Below(a, cutoff) == Below(b, cutoff) && m in a && m in b && m.time < cutoff
    ensures SessionRollupOf(a, m.session).created == SessionRollupOf(b, m.session).created
  {
    hide Sum, MaxTime;
    var inA, inB := OfSession(a, m.session), OfSession(b, m.session);
    assert m in inA && m in inB;
    EarliestIsFinal(a, b, cutoff, m);
    EarliestIsFinal(b, a, cutoff, m);
  }

  lemma EarliestIsFinal(a: set<Message>, b: set<Message>, cutoff: int, m: Message)
    requires Below(a, cutoff) == Below(b, cutoff) && m in a && m in b && m.time < cutoff
    ensures OfSession(a, m.session) != {} && OfSession(b, m.session) != {}
    ensures MinTime(OfSession(b, m.session)) <= MinTime(OfSession(a, m.session))
  {
    var inA, inB := OfSession(a, m.session), OfSession(b, m.session);
    assert m in inA && m in inB;
    var earliest := MinTime(inA);
    assert earliest <= m.time;
    var first :| first in inA && first.time == earliest;
    assert first in Below(a, cutoff);
    assert first in Below(b, cutoff);
    assert first in inB;
  }

  /** Databases that agree below the cutoff agree on the sessions of a window before it, but for last updates. */
  lemma EntriesAgree(a: Database, b: Database, span: Span, shown: string -> bool, log: set<Message>, cutoff: int)
    requires Consistent(a, log, cutoff) && Consistent(b, log, cutoff) && span.end <= cutoff
    requires Sees(a, log, span.start, span.end) && Sees(b, log, span.start, span.end)
    ensures SameButUpdates(SessionEntries(a, span, shown), SessionEntries(b, span, shown))
  {
    hide Sum, SessionRollupOf;
    WindowSessions(a, span);
    WindowSessions(b, span);
    var rows := Window(log, span.start, span.end);
    assert Window(a.messages, span.start, span.end) == rows == Window(b.messages, span.start, span.end);
    forall id | id in SessionIds(rows)
      ensures a.sessions[id].created == b.sessions[id].created
    {
      var m :| m in rows && m.session == id;
      assert m in Window(a.messages, span.start, span.end) && m in Window(b.messages, span.start, span.end);
      CreationIsFinal(a.messages, b.messages, cutoff, m);
    }
  }

  lemma {:induction false} SessionsAreFewer(rows: set<Message>)
    ensures |SessionIds(rows)| <= |rows|
    decreases rows
  {
    if rows != {} {
      var m := Pick(rows);
      SessionsAreFewer(rows - {m});
      assert rows == rows - {m} + {m};
      assert SessionIds(rows) == SessionIds(rows - {m}) + {m.session};
    }
  }

  lemma EntriesAreFewer(db: Database, span: Span, shown: string -> bool, log: set<Message>)
    requires Window(db.messages, span.start, span.end) == Window(log, span.start, span.end)
    ensures |SessionEntries(db, span, shown)| <= |log|
  {
    var rows := Window(log, span.start, span.end);
    SessionsAreFewer(rows);
    SubsetIsSmaller(rows, log);
    SubsetIsSmaller(SessionEntries(db, span, shown).Keys, SessionIds(rows));
  }

  lemma {:induction false} CostsAreNotNegative(rows: set<Message>)
    requires forall m :: m in rows ==> m.cost >= 0.0
    ensures Sum(AllColumns, rows).cost >= 0.0
    decreases rows
  {
    if rows != {} {
      CostsAreNotNegative(rows - {Pick(rows)});
    }
  }

  /** The three conditions under which pages of merged sessions are exact. */
  ghost predicate PagesCanBeTrusted(rows: map<string, SessionEntry>, gap: map<string, LiveSession>,
                                    ranked: seq<SessionEntry>,
                                    gapRows: set<Message>, mode: SessionSort) {
    && SharesTheOrder(rows, ranked, mode) && (mode.Oldest? || NoneLowered(rows, gap))
    && forall m :: m in gapRows ==> m.cost >= 0.0
  }

  /**
   A session list request with both halves, under the freedom of every statement to see
   a later database and of the clamp to read any cutoff. The two halves filter texts
   differently. The total is the number of sessions they show of the rows that the clamp
   leaves, every count and cost in the list is what they show of those rows in one pass,
   and the page is that page of the list exactly when enough sessions were fetched:
   always when the ranking shares the list's order, nothing is lowered and no cost is
   negative. When the clamp loses nothing, the rows are the requested ones of the log.
   Also what the statements said of the cached sessions, and their ranking.
   */
  method CachedSessions(pq: PeriodQuery, shown: string -> bool, page: int, size: int, mode: SessionSort, now: int,
                        splitDb: Database, dbAt: nat -> Database, clamp: Option<int>, sp: SplitWindows,
                        gapSessions: seq<LiveSession>, raw: seq<Message>,
                        ghost shownLive: string -> bool, ghost log: set<Message>)
    returns (r: SessionList, ranked: seq<SessionEntry>, rows: map<string, SessionEntry>)
    requires 0 < Recorded(splitDb.state) <= now
    requires SplitPeriod(pq, CutoffOf(splitDb), now) == Ok(sp) && sp.hasCache && sp.hasLive
    requires forall k :: Consistent(dbAt(k), log, Recorded(splitDb.state))
    requires WellFormedLog(log) && |log| <= MAX_PAGE_OFFSET
    requires forall i, j :: 0 <= i < j < |raw| ==> raw[i] != raw[j]
    requires FetchedGap(pq, now, splitDb, Elements(raw), log)
    requires DistinctIds(gapSessions)
    requires GapIds(gapSessions) == set id | id in SessionIds(Window(log, sp.GapStart(), sp.end)) && shownLive(id)
    requires 1 <= page && 1 <= size <= 100
    ensures KeyedById(rows) && IdsOf(ranked) <= rows.Keys
    ensures var served, gapRows := ServedRows(log, sp, clamp), Window(log, sp.GapStart(), sp.end);
            var gap, offset := ById(gapSessions), PageOffset(page, size);
            var all := FullList(rows, gap, AddedBy(gapRows));
            && all.Keys == ShownIds(served, gapRows, shown, shownLive) && r.total == |all|
            && (r.sessions == PageRows(all, offset, size, mode)
                <==> |all| <= offset || EnoughFetched(rows, gap, AddedBy(gapRows), ranked, offset + size, mode))
            && (PagesCanBeTrusted(rows, gap, ranked, gapRows, mode) ==> r.sessions == PageRows(all, offset, size, mode))
            && forall id :: id in all ==>
                 Activity(all[id].count, all[id].cost) == ShownActivity(served, gapRows, shown, shownLive, id)
    ensures var served, gapRows := ServedRows(log, sp, clamp), Window(log, sp.GapStart(), sp.end);
            && served !! gapRows
            && (served + gapRows == RequestedRows(log, sp.start, sp.end, NO_FILTER) <==> NothingLost(log, sp, clamp, NO_FILTER))
  {
    hide *;
    ghost var cutoff := Recorded(splitDb.state);
    SplitAtTheGap(sp, pq, splitDb, now);
    var span := CachedWindow(dbAt, sp, now, clamp, pq, cutoff, log);
    ghost var cached := SessionEntries(dbAt(0), span, shown);
    SessionsOfTheWindow(dbAt, span, shown, log, cutoff);
    var gap := FilterGap(raw, NO_FILTER, sp.GapStart(), sp.end);
    ghost var served, gapRows := ServedRows(log, sp, clamp), Window(log, sp.GapStart(), sp.end);
    GapOfTheLog(gap, pq, now, splitDb, sp, raw, log);
    r, ranked, rows := MergeSessions(dbAt, span, shown, gapSessions, gap, page, size, mode, cached);
    GapIsKeyed(gapSessions);
    PagesOfTheList(rows, ById(gapSessions), gapRows, ranked, PageOffset(page, size), size, mode);
    ServedHalves(log, sp, clamp, pq, now, splitDb, raw);
    WindowOfTheLog(dbAt, span, log);
    TheListIsTheLogs(dbAt(0), span, shown, shownLive, rows, served, gapRows, ById(gapSessions));
  }

  /** Every session that was not fetched is preceded by enough fetched ones. */
  ghost predicate EnoughFetched(cached: map<string, SessionEntry>, gap: map<string, LiveSession>, added: string -> Activity,
                                ranked: seq<SessionEntry>, n: nat, mode: SessionSort)
    requires IdsOf(ranked) <= cached.Keys
  {
    forall id :: id in Unfetched(cached, gap, ranked) ==>
      Preceded(SessionOrder(mode), Rows(Candidates(cached, gap, added, ranked)), cached[id], n)
  }

  lemma SplitAtTheGap(sp: SplitWindows, pq: PeriodQuery, splitDb: Database, now: int)
    requires 0 < Recorded(splitDb.state) && SplitPeriod(pq, CutoffOf(splitDb), now) == Ok(sp) && sp.hasCache && sp.hasLive
    ensures SplitPeriod(pq, Some(Recorded(splitDb.state)), now) == Ok(sp) && sp.cutoff == Some(Recorded(splitDb.state))
    ensures sp.CacheWindow().end <= Recorded(splitDb.state) <= sp.GapStart()
  {
  }

  lemma SessionsOfTheWindow(dbAt: nat -> Database, span: Span, shown: string -> bool, log: set<Message>, cutoff: int)
    requires forall k :: Consistent(dbAt(k), log, cutoff)
    requires span.end <= cutoff && forall k :: Sees(dbAt(k), log, span.start, span.end)
    ensures SeeSessions(dbAt, span, shown, SessionEntries(dbAt(0), span, shown))
    ensures |SessionEntries(dbAt(0), span, shown)| <= |log|
  {
    hide SessionEntries, SameButUpdates, Consistent;
    assert Consistent(dbAt(0), log, cutoff) && Sees(dbAt(0), log, span.start, span.end);
    EntriesAreKeyed(dbAt(0), span, shown);
    EntriesAreFewer(dbAt(0), span, shown, log);
    forall k: nat
      ensures SameButUpdates(SessionEntries(dbAt(k), span, shown), SessionEntries(dbAt(0), span, shown))
    {
      assert Consistent(dbAt(k), log, cutoff) && Sees(dbAt(k), log, span.start, span.end);
      EntriesAgree(dbAt(k), dbAt(0), span, shown, log, cutoff);
    }
  }

  lemma GapOfTheLog(gap: seq<Message>, pq: PeriodQuery, now: int, splitDb: Database, sp: SplitWindows, raw: seq<Message>,
                    log: set<Message>)
    requires SplitPeriod(pq, CutoffOf(splitDb), now) == Ok(sp) && sp.hasCache && sp.hasLive && sp.cutoff.Some?
    requires FetchedGap(pq, now, splitDb, Elements(raw), log) && WellFormedLog(log)
    requires Elements(gap) == Matching(Window(Elements(raw), sp.GapStart(), sp.end), SelectAll(NO_FILTER))
    ensures Elements(gap) == Window(log, sp.GapStart(), sp.end) && forall m :: m in gap ==> m.session != ""
  {
    hide SplitPeriod;
    assert forall m :: m in gap ==> m in Elements(gap);
  }

  lemma GapIsKeyed(gapSessions: seq<LiveSession>)
    ensures ById(gapSessions).Keys == GapIds(gapSessions)
    ensures forall id :: id in ById(gapSessions) ==> ById(gapSessions)[id].id == id
    decreases |gapSessions|
  {
    GapKeys(gapSessions);
    if gapSessions != [] {
      GapIsKeyed(gapSessions[..|gapSessions| - 1]);
    }
  }

  lemma WhenEnoughIsFetched(cached: map<string, SessionEntry>, gap: map<string, LiveSession>, added: string -> Activity,
                            ranked: seq<SessionEntry>, offset: nat, size: nat, mode: SessionSort)
    requires KeyedById(cached) && (forall id :: id in gap ==> gap[id].id == id) && IdsOf(ranked) <= cached.Keys
    requires 1 <= size
    ensures PageRows(Candidates(cached, gap, added, ranked), offset, size, mode)
            == PageRows(FullList(cached, gap, added), offset, size, mode)
            <==> |FullList(cached, gap, added)| <= offset || EnoughFetched(cached, gap, added, ranked, offset + size, mode)
  {
    hide Candidates, FullList, Unfetched, PageRows, Preceded, KeyedById, IdsOf, Rows;
    WhenASessionPageIsExact(cached, gap, added, ranked, offset, size, mode);
  }

  lemma TrustedPages(cached: map<string, SessionEntry>, gap: map<string, LiveSession>, gapRows: set<Message>,
                     ranked: seq<SessionEntry>, offset: nat, size: nat, mode: SessionSort)
    requires KeyedById(cached) && (forall id :: id in gap ==> gap[id].id == id) && IdsOf(ranked) <= cached.Keys
    requires 1 <= size && IsRanking(ranked, Rows(cached), offset + size, mode)
    requires PagesCanBeTrusted(cached, gap, ranked, gapRows, mode)
    ensures PageRows(Candidates(cached, gap, AddedBy(gapRows), ranked), offset, size, mode)
            == PageRows(FullList(cached, gap, AddedBy(gapRows)), offset, size, mode)
  {
    hide Candidates, FullList, PageRows, KeyedById, IdsOf, Rows, IsRanking, SharesTheOrder, NoneLowered, Sum;
    forall id | id in gap
      ensures AddedBy(gapRows)(id).cost >= 0.0
    {
      CostsAreNotNegative(OfSession(gapRows, id));
    }
    PagesAreExact(cached, gap, AddedBy(gapRows), ranked, offset, size, mode);
  }

  lemma PagesOfTheList(cached: map<string, SessionEntry>, gap: map<string, LiveSession>, gapRows: set<Message>,
                       ranked: seq<SessionEntry>, offset: nat, size: nat, mode: SessionSort)
    requires KeyedById(cached) && (forall id :: id in gap ==> gap[id].id == id) && IdsOf(ranked) <= cached.Keys
    requires 1 <= size && IsRanking(ranked, Rows(cached), offset + size, mode)
    ensures var some, all := Candidates(cached, gap, AddedBy(gapRows), ranked), FullList(cached, gap, AddedBy(gapRows));
            && (PageRows(some, offset, size, mode) == PageRows(all, offset, size, mode)
                <==> |all| <= offset || EnoughFetched(cached, gap, AddedBy(gapRows), ranked, offset + size, mode))
            && (PagesCanBeTrusted(cached, gap, ranked, gapRows, mode) ==>
                  PageRows(some, offset, size, mode) == PageRows(all, offset, size, mode))
  {
    hide *;
    WhenEnoughIsFetched(cached, gap, AddedBy(gapRows), ranked, offset, size, mode);
    if PagesCanBeTrusted(cached, gap, ranked, gapRows, mode) {
      TrustedPages(cached, gap, gapRows, ranked, offset, size, mode);
    }
  }

  lemma ServedHalves(log: set<Message>, sp: SplitWindows, clamp: Option<int>, pq: PeriodQuery, now: int, splitDb: Database,
                     raw: seq<Message>)
    requires 0 < Recorded(splitDb.state) && SplitPeriod(pq, CutoffOf(splitDb), now) == Ok(sp) && sp.hasCache && sp.hasLive
    requires sp.cutoff.Some? && FetchedGap(pq, now, splitDb, Elements(raw), log)
    ensures var served, gapRows := ServedRows(log, sp, clamp), Window(log, sp.GapStart(), sp.end);
            && served !! gapRows
            && (served + gapRows == RequestedRows(log, sp.start, sp.end, NO_FILTER) <==> NothingLost(log, sp, clamp, NO_FILTER))
  {
    var cutoff := Recorded(splitDb.state);
    SplitAtTheGap(sp, pq, splitDb, now);
    hide SplitWindows.CacheWindow, SplitWindows.GapStart, SplitPeriod, NothingLost;
    AllMatch(ServedRows(log, sp, clamp));
    AllMatch(CachedRows(log, sp));
    AllMatch(Window(Elements(raw), sp.GapStart(), sp.end));
    WhenAClampLosesNothing(log, sp, clamp, NO_FILTER, pq, now);
    RequestedIsBothHalves(pq, cutoff, now, log, Elements(raw), NO_FILTER);
    SplitKeepsTheWindow(pq, cutoff, now);
    HalvesAreApart(log, sp, NO_FILTER, cutoff, Window(log, sp.GapStart(), sp.end));
    SameUnion(ServedRows(log, sp, clamp), CachedRows(log, sp), Window(log, sp.GapStart(), sp.end));
  }

  lemma SameUnion(some: set<Message>, all: set<Message>, others: set<Message>)
    requires some <= all && all !! others
    ensures some + others == all + others <==> some == all
  {
    if some + others == all + others {
      forall m | m in all
        ensures m in some
      {
        assert m in all + others;
      }
    }
  }

  lemma WindowOfTheLog(dbAt: nat -> Database, span: Span, log: set<Message>)
    requires forall k :: Sees(dbAt(k), log, span.start, span.end)
    ensures Derived(dbAt(0)) && Window(dbAt(0).messages, span.start, span.end) == Window(log, span.start, span.end)
  {
    hide Derived;
    assert Sees(dbAt(0), log, span.start, span.end);
  }

  // ---- the request from the cache alone ----

  /** Without ties the ranking is the start of the list. */
  lemma RankingIsTheList(rows: map<string, SessionEntry>, ranked: seq<SessionEntry>, n: nat, mode: SessionSort)
    requires KeyedById(rows) && IsRanking(ranked, Rows(rows), n, mode) && WithoutTies(rows, mode)
    ensures Take(Listing(SessionOrder(mode), Rows(rows)), n) == Take(ranked, n)
  {
    hide CompareText;
    RankedIds(rows, ranked, n, mode);
    forall i, j | 0 <= i < j < |ranked|
      ensures SessionOrder(mode)(ranked[i], ranked[j])
    {
      assert ranked[i] in ranked && ranked[j] in ranked && ranked[i] != ranked[j];
      assert !RanksBefore(ranked[j], ranked[i], mode);
      TheyDoNotTie(rows, ranked[i], ranked[j], mode);
    }
    forall x | x in Rows(rows) - Members(ranked)
      ensures Preceded(SessionOrder(mode), Members(ranked), x, n)
    {
      var id :| id in rows && rows[id] == x;
      RankedBefore(rows, ranked, n, mode, x);
    }
    SessionsAreOrdered(rows, mode);
    hide SessionOrder, RanksFirst, RanksBefore;
    ListingLists(SessionOrder(mode), Rows(rows));
    FirstRowsAgree(SessionOrder(mode), Rows(rows), Listing(SessionOrder(mode), Rows(rows)), Members(ranked), ranked, n);
  }

  lemma TheyDoNotTie(rows: map<string, SessionEntry>, a: SessionEntry, b: SessionEntry, mode: SessionSort)
    requires WithoutTies(rows, mode) && a.id in rows && b.id in rows && rows[a.id] == a && rows[b.id] == b && a != b
    requires !RanksBefore(b, a, mode)
    ensures SessionLess(a, b, mode)
  {
    hide CompareText;
    assert a.id != b.id;
  }

  lemma RankedBefore(rows: map<string, SessionEntry>, ranked: seq<SessionEntry>, n: nat, mode: SessionSort, x: SessionEntry)
    requires KeyedById(rows) && IsRanking(ranked, Rows(rows), n, mode) && WithoutTies(rows, mode)
    requires x in Rows(rows) - Members(ranked)
    ensures Preceded(SessionOrder(mode), Members(ranked), x, n)
  {
    hide CompareText;
    RankedIds(rows, ranked, n, mode);
    var id :| id in rows && rows[id] == x;
    forall i | 0 <= i < |ranked|
      ensures ranked[i] in Members(ranked) && SessionOrder(mode)(ranked[i], x)
    {
      assert ranked[i] in ranked && !RanksBefore(x, ranked[i], mode);
      TheyDoNotTie(rows, ranked[i], x, mode);
    }
    DistinctCount(ranked, |ranked|);
    assert ranked[..|ranked|] == ranked;
    SubsetIsSmaller(Members(ranked) + {x}, Rows(rows));
    assert |Members(ranked) + {x}| == |ranked| + 1;
    DistinctRowsPrecede(SessionOrder(mode), ranked, Members(ranked), x);
  }

  /**
   A session list request served by the cache alone, under the same freedom of its
   statements and of the clamp: total, ids, counts and costs are those of one pass over
   the rows the clamp leaves, and the page is cut from an order the statement allows;
   without ties it is the page of the list.
   */
  method StoredSessions(pq: PeriodQuery, shown: string -> bool, page: int, size: int, mode: SessionSort, now: int,
                        splitDb: Database, dbAt: nat -> Database, clamp: Option<int>, sp: SplitWindows,
                        ghost log: set<Message>)
    returns (r: SessionList, ranked: seq<SessionEntry>, rows: map<string, SessionEntry>)
    requires 0 < Recorded(splitDb.state) <= now
    requires SplitPeriod(pq, CutoffOf(splitDb), now) == Ok(sp) && sp.hasCache && !sp.hasLive
    requires forall k :: Consistent(dbAt(k), log, Recorded(splitDb.state))
    requires 1 <= page && 1 <= size <= 100
    ensures var served, offset := ServedRows(log, sp, clamp), StatementOffset(page, size);
            && rows.Keys == (set id | id in SessionIds(served) && shown(id)) && r.total == |rows|
            && KeyedById(rows) && IsRanking(ranked, Rows(rows), offset + size, mode)
            && r.sessions == Slice(ranked, offset, offset + size)
            && (WithoutTies(rows, mode) ==> r.sessions == PageRows(rows, offset, size, mode))
            && forall id :: id in rows ==> Activity(rows[id].count, rows[id].cost) == ActivityOf(served, id)
    ensures ServedRows(log, sp, clamp) == RequestedRows(log, sp.start, sp.end, NO_FILTER) <==> NothingLost(log, sp, clamp, NO_FILTER)
  {
    hide *;
    ghost var cutoff := Recorded(splitDb.state);
    SplitBeforeTheGap(sp, pq, splitDb, now);
    var span := CachedWindow(dbAt, sp, now, clamp, pq, cutoff, log);
    ghost var cached := SessionEntries(dbAt(0), span, shown);
    SessionsOfTheWindow(dbAt, span, shown, log, cutoff);
    SeeSessionsAt(dbAt, span, shown, cached, COUNTED);
    SeeSessionsAt(dbAt, span, shown, cached, RANKED);
    var counted := WindowRows(dbAt(COUNTED), span, shown);
    rows := WindowRows(dbAt(RANKED), span, shown);
    SameCount(counted, cached);
    SameCount(rows, cached);
    var offset := StatementOffset(page, size);
    ranked := Ranked(Rows(rows), offset + size, mode);
    r := SessionList(Slice(ranked, offset, offset + size), |counted|);
    if WithoutTies(rows, mode) {
      RankingIsTheList(rows, ranked, offset + size, mode);
      PagesAgree(Listing(SessionOrder(mode), Rows(rows)), ranked, offset, offset + size);
      PageRowsAre(rows, offset, size, mode);
    }
    StoredEntries(dbAt, span, shown, log);
    ServedAlone(log, sp, clamp, pq, now, splitDb);
  }

  lemma SplitBeforeTheGap(sp: SplitWindows, pq: PeriodQuery, splitDb: Database, now: int)
    requires 0 < Recorded(splitDb.state) && SplitPeriod(pq, CutoffOf(splitDb), now) == Ok(sp) && sp.hasCache
    ensures SplitPeriod(pq, Some(Recorded(splitDb.state)), now) == Ok(sp) && sp.cutoff == Some(Recorded(splitDb.state))
  {
  }

  lemma StoredEntries(dbAt: nat -> Database, span: Span, shown: string -> bool, log: set<Message>)
    requires forall k :: Sees(dbAt(k), log, span.start, span.end)
    ensures var rows, served := SessionEntries(dbAt(RANKED), span, shown), Window(log, span.start, span.end);
            && rows.Keys == (set id | id in SessionIds(served) && shown(id))
            && forall id :: id in rows ==> Activity(rows[id].count, rows[id].cost) == ActivityOf(served, id)
  {
    hide Derived, ActivityOf, Window, SessionIds, SessionEntries;
    assert Sees(dbAt(RANKED), log, span.start, span.end);
    WindowSessions(dbAt(RANKED), span);
    EntriesAre(dbAt(RANKED), span, shown);
  }

  lemma ServedAlone(log: set<Message>, sp: SplitWindows, clamp: Option<int>, pq: PeriodQuery, now: int, splitDb: Database)
    requires 0 < Recorded(splitDb.state) && SplitPeriod(pq, CutoffOf(splitDb), now) == Ok(sp) && sp.hasCache && !sp.hasLive
    ensures ServedRows(log, sp, clamp) == RequestedRows(log, sp.start, sp.end, NO_FILTER) <==> NothingLost(log, sp, clamp, NO_FILTER)
  {
    var cutoff := Recorded(splitDb.state);
    SplitBeforeTheGap(sp, pq, splitDb, now);
    hide SplitWindows.CacheWindow, SplitWindows.GapStart, SplitPeriod, NothingLost;
    AllMatch(ServedRows(log, sp, clamp));
    AllMatch(CachedRows(log, sp));
    WhenAClampLosesNothing(log, sp, clamp, NO_FILTER, pq, now);
    RequestedIsBothHalves(pq, cutoff, now, log, {}, NO_FILTER);
    SplitKeepsTheWindow(pq, cutoff, now);
    assert CachedRows(log, sp) + {} == CachedRows(log, sp);
  }
}
