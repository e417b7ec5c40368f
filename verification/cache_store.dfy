/**
 The cache store: collecting a sync window from the source and committing it. The
 statements of a transaction work on a copy of the database; committing assigns it.
 */
module CacheStore {
  import opened Common
  import opened UsageRows
  import opened Rollups
  import opened Fingerprints
  import opened CacheDatabase
  import opened Consolidation

  /** What a collection hands to the write transaction. Session rows carry the source's own totals. */
  datatype Payload = Payload(messages: seq<Message>, sessions: seq<(string, SessionRow)>, tools: seq<ToolRow>)

  ghost function PayloadSessions(p: Payload): set<string> {
    set s | s in p.sessions :: s.0
  }

  /** The payload holds the rows of a set, each session among them, and their tools. */
  ghost predicate Carries(p: Payload, rows: set<Message>) {
    && Elements(p.messages) == rows
    && PayloadSessions(p) == SessionIds(rows)
    && (set tool | tool in p.tools) == ToolRows(rows)
  }

  datatype CollectSummary = CollectSummary(skippedRecent: nat, skippedOld: nat)

  /** The rows of a snapshot that a window leaves out: those before it, and those past its end. */
  function Skipped(data: seq<Message>, since: nat, cutoff: nat): CollectSummary {
    if data == [] then CollectSummary(0, 0)
    else
      var before, last := Skipped(data[..|data| - 1], since, cutoff), data[|data| - 1];
      if last.time < since then before.(skippedOld := before.skippedOld + 1)
      else if cutoff <= last.time then before.(skippedRecent := before.skippedRecent + 1)
      else before
  }

  lemma NothingYet(since: nat, cutoff: nat)
    ensures Skipped([], since, cutoff) == CollectSummary(0, 0)
    ensures Window(Elements([]), since, cutoff) == {}
    ensures ToolRows(Elements([])) == {}
  {
  }

  lemma SkippedGrows(data: seq<Message>, i: nat, since: nat, cutoff: nat)
    requires i < |data|
    ensures Skipped(data[..i + 1], since, cutoff)
            == var before := Skipped(data[..i], since, cutoff);
               if data[i].time < since then before.(skippedOld := before.skippedOld + 1)
               else if cutoff <= data[i].time then before.(skippedRecent := before.skippedRecent + 1)
               else before
  {
    assert data[..i + 1][..i] == data[..i];
  }

  lemma WindowGrows(data: seq<Message>, i: nat, since: nat, cutoff: nat)
    requires i < |data|
    ensures Window(Elements(data[..i + 1]), since, cutoff)
            == Window(Elements(data[..i]), since, cutoff)
               + (if since <= data[i].time < cutoff then {data[i]} else {})
  {
    assert data[..i + 1] == data[..i] + [data[i]];
    assert Elements(data[..i + 1]) == Elements(data[..i]) + {data[i]};
  }

  lemma RowsHaveSessions(data: seq<Message>, kept: seq<Message>, since: nat, cutoff: nat)
    requires WellFormedLog(Elements(data)) && Elements(kept) == Window(Elements(data), since, cutoff)
    ensures forall m :: m in kept ==> m.session != ""
  {
    assert forall m :: m in kept ==> m in Elements(kept);
  }

  /** One pass over the snapshot, keeping the half-open window [since, cutoff). */
  method CollectConsolidation(data: seq<Message>, known: map<string, SessionRow>, since: nat, cutoff: nat)
    returns (payload: Payload, summary: CollectSummary)
    requires WellFormedLog(Elements(data))
    ensures Carries(payload, Window(Elements(data), since, cutoff))
    ensures summary == Skipped(data, since, cutoff)
    ensures |payload.messages| + summary.skippedOld + summary.skippedRecent == |data|
  {
    hide Skipped, Window, ToolRows, WellFormedLog;
    var messages: seq<Message>, tools: seq<ToolRow> := [], [];
    var skippedRecent, skippedOld := 0, 0;
    NothingYet(since, cutoff);
    assert data[..0] == [];
    for i := 0 to |data|
      invariant Elements(messages) == Window(Elements(data[..i]), since, cutoff)
      invariant (set tool | tool in tools) == ToolRows(Elements(messages))
      invariant |messages| + skippedOld + skippedRecent == i
      invariant CollectSummary(skippedRecent, skippedOld) == Skipped(data[..i], since, cutoff)
    {
      var entry := data[i];
      SkippedGrows(data, i, since, cutoff);
      WindowGrows(data, i, since, cutoff);
      if entry.time < since {
        skippedOld := skippedOld + 1;
      } else if cutoff <= entry.time {
        skippedRecent := skippedRecent + 1;
      } else {
        var rows := CollectTools(entry);
        ToolRowsGrow(Elements(messages), entry);
        assert Elements(messages + [entry]) == Elements(messages) + {entry};
        messages, tools := messages + [entry], tools + rows;
      }
    }
    assert data[..|data|] == data;
    RowsHaveSessions(data, messages, since, cutoff);
    var sessions := SessionsFromMessages(known, messages);
    payload := Payload(messages, sessions, tools);
    summary := CollectSummary(skippedRecent, skippedOld);
  }

  method CollectTools(entry: Message) returns (tools: seq<ToolRow>)
    ensures (set tool | tool in tools) == ToolRows({entry})
  {
    tools := [];
    for i := 0 to |entry.tools|
      invariant forall tool :: tool in tools <==>
                  exists k :: 0 <= k < i && entry.tools[k].name != "" && tool == ToolRowOf(entry, k)
    {
      if entry.tools[i].name != "" {
        tools := tools + [ToolRowOf(entry, i)];
      }
    }
  }

  lemma ToolRowsGrow(rows: set<Message>, m: Message)
    ensures ToolRows(rows + {m}) == ToolRows(rows) + ToolRows({m})
  {
    forall tool | tool in ToolRows(rows + {m})
      ensures tool in ToolRows(rows) + ToolRows({m})
    {
      var row, i :| row in rows + {m} && 0 <= i < |row.tools| && row.tools[i].name != "" && tool == ToolRowOf(row, i);
      if row == m {
        assert tool in ToolRows({m});
      } else {
        assert tool in ToolRows(rows);
      }
    }
  }

  /** One session row for each session of the messages, in order of first appearance. */
  method SessionsFromMessages(known: map<string, SessionRow>, messages: seq<Message>)
    returns (rows: seq<(string, SessionRow)>)
    requires forall m :: m in messages ==> m.session != ""
    ensures (set s | s in rows :: s.0) == SessionIds(Elements(messages))
  {
    rows := [];
    var seen: set<string> := {};
    for i := 0 to |messages|
      invariant seen == set m | m in messages[..i] :: m.session
      invariant seen == set s | s in rows :: s.0
    {
      var m := messages[i];
      assert messages[..i + 1] == messages[..i] + [m];
      if m.session != "" && m.session !in seen {
        var row := if m.session in known then known[m.session] else SessionRow(m.time, m.time, 1, 0.0);
        rows := rows + [(m.session, row)];
        seen := seen + {m.session};
      }
    }
    assert messages[..|messages|] == messages;
  }

  /** INSERT ... ON CONFLICT(session_id) DO UPDATE, row by row. */
  method InsertSessions(table: map<string, SessionRow>, rows: seq<(string, SessionRow)>)
    returns (r: map<string, SessionRow>)
    requires forall s :: s in rows ==> s.0 != ""
    ensures r.Keys == table.Keys + set s | s in rows :: s.0
    ensures forall id :: id in table && id !in (set s | s in rows :: s.0) ==> r[id] == table[id]
  {
    r := table;
    for i := 0 to |rows|
      invariant r.Keys == table.Keys + set s | s in rows[..i] :: s.0
      invariant forall id :: id in table && id !in (set s | s in rows[..i] :: s.0) ==> r[id] == table[id]
    {
      assert rows[..i + 1] == rows[..i] + [rows[i]];
      if rows[i].0 != "" {
        r := r[rows[i].0 := rows[i].1];
      }
    }
    assert rows[..|rows|] == rows;
  }

  /** The sessions a fill may touch: those with cached rows in the suffix and those of the payload. */
  method PrepareChangedSessions(messages: set<Message>, boundary: nat, payload: Payload) returns (changed: set<string>)
    ensures changed == SessionIds(messages - Below(messages, boundary))
                       + (PayloadSessions(payload) + SessionIds(Elements(payload.messages)) - {""})
  {
    changed := (set m | m in messages && boundary <= m.time :: m.session)
               + (set s | s in payload.sessions && s.0 != "" :: s.0)
               + (set m | m in payload.messages && m.session != "" :: m.session);
  }

  /** Deletes the hours from the bucket of since on and aggregates them again, table by table. */
  method RefreshTables(rollups: map<Table, Rollup>, tables: set<Table>, rows: set<Message>, since: nat,
                       ghost before: set<Message>)
    returns (r: map<Table, Rollup>)
    requires tables <= rollups.Keys
    requires forall t :: t in tables ==> rollups[t] == Rollups.Rebuild(t, before)
    requires Below(before, since) == Below(rows, since)
    ensures r.Keys == rollups.Keys
    ensures forall t :: t in rollups ==> r[t] == if t in tables then Rollups.Rebuild(t, rows) else rollups[t]
  {
    hide Rollups.Rebuild;
    r := rollups;
    var bucket := HourStart(since);
    AlignedStart(since);
    BelowIsMonotone(before, rows, since, bucket);
    var suffix := set m | m in rows && bucket <= m.time;
    assert suffix == rows - Below(rows, bucket);
    var todo := tables;
    while todo != {}
      invariant todo <= tables && r.Keys == rollups.Keys
      invariant forall t :: t in rollups ==>
                  r[t] == if t in tables - todo then Rollups.Rebuild(t, rows) else rollups[t]
      decreases todo
    {
      var t :| t in todo;
      var part := Aggregate(t, suffix);
      SuffixRefreshIsRebuild(t, before, rows, bucket);
      r := r[t := DropFrom(r[t], bucket) + part];
      todo := todo - {t};
    }
  }

  method RebuildTables(rows: set<Message>) returns (r: map<Table, Rollup>)
    ensures RollupsExact(r, rows)
  {
    hide Rollups.Rebuild;
    r := map[];
    var todo := ALL_TABLES;
    while todo != {}
      invariant todo <= ALL_TABLES && r.Keys == ALL_TABLES - todo
      invariant forall t :: t in r ==> r[t] == Rollups.Rebuild(t, rows)
      decreases todo
    {
      var t :| t in todo;
      var table := Aggregate(t, rows);
      r := r[t := table];
      todo := todo - {t};
    }
  }

  lemma ToolRowsOfUnion(a: set<Message>, b: set<Message>)
    ensures ToolRows(a + b) == ToolRows(a) + ToolRows(b)
  {
    forall tool | tool in ToolRows(a + b)
      ensures tool in ToolRows(a) + ToolRows(b)
    {
      var m, i :| m in a + b && 0 <= i < |m.tools| && m.tools[i].name != "" && tool == ToolRowOf(m, i);
      assert m in a ==> tool in ToolRows(a);
    }
  }

  /** A tool row carries the id and the time of its message. */
  lemma ToolRowsOfSuffix(rows: set<Message>, boundary: nat)
    ensures (set tool | tool in ToolRows(rows) && tool.time < boundary) == ToolRows(Below(rows, boundary))
  {
    forall tool | tool in ToolRows(rows) && tool.time < boundary
      ensures tool in ToolRows(Below(rows, boundary))
    {
      var m, i :| m in rows && 0 <= i < |m.tools| && m.tools[i].name != "" && tool == ToolRowOf(m, i);
      assert m in Below(rows, boundary);
    }
  }

  lemma ToolRowsKeepTheirMessage(rows: set<Message>, others: seq<Message>)
    requires forall m, other :: m in rows && other in others ==> m.id != other.id
    ensures forall tool, other :: tool in ToolRows(rows) && other in others ==> other.id != tool.message
  {
  }

  /** Sessions without rows in the suffix or the payload keep their aggregates. */
  lemma UntouchedSession(before: set<Message>, after: set<Message>, boundary: nat, id: string)
    requires Below(before, boundary) == Below(after, boundary)
    requires id in SessionIds(before)
    requires id !in SessionIds(before - Below(before, boundary)) && id !in SessionIds(after - Below(after, boundary))
    ensures id in SessionIds(after) && SessionRollupOf(before, id) == SessionRollupOf(after, id)
  {
    forall m: Message | m.session == id
      ensures m in before <==> m in after
    {
      assert m in before ==> m in Below(before, boundary);
      assert m in after ==> m in Below(after, boundary);
    }
    assert OfSession(before, id) == OfSession(after, id);
  }

  class Store {
    var db: Database

    /** The derived tables are exact and row ids and session ids are sound. */
    ghost predicate Valid()
      reads this
    {
      Derived(db) && WellFormedLog(db.messages)
    }

    ghost function Snapshot(): Cache
      reads this
    {
      Cache(db.messages, db.state)
    }

    constructor ()
      ensures Valid() && Snapshot() == Cache({}, None)
    {
      var rollups := RebuildTables({});
      db := Database({}, {}, map[], rollups, None);
    }

    /** Writes the source's state row and nothing else. */
    method WriteState(state: SourceState)
      requires Valid()
      modifies this
      ensures Valid() && Snapshot() == old(Snapshot()).(state := Some(state))
    {
      db := db.(state := Some(state));
    }

    /** Replaces everything cached for the source by the payload. */
    method ReplaceSource(payload: Payload, state: SourceState, ghost rows: set<Message>)
      requires Carries(payload, rows) && WellFormedLog(rows)
      modifies this
      ensures Valid() && Snapshot() == Cache(rows, Some(state))
    {
      hide RollupsExact;
      assert forall m :: m in payload.messages ==> m in rows;
      assert {} + Elements(payload.messages) == rows;
      SessionIdsAreNamed(payload, rows);
      var sessions := InsertSessions(map[], payload.sessions);
      var messages := InsertMessages({}, payload.messages);
      var tools := InsertTools({}, payload.tools);
      ToolRowsAreNamed(rows);
      assert tools == ToolRows(rows);
      sessions := RefreshSessions(sessions, sessions.Keys, messages);
      var rollups := RebuildTables(messages);
      db := Database(messages, tools, sessions, rollups, Some(state));
    }

    /**
     Consolidates [since, cutoff): the rows from the boundary on give way to the
     payload, and only the sessions and hours they touch are aggregated again.
     Afterwards every derived table is what a rebuild would give.
     */
    method FillSource(payload: Payload, state: SourceState, since: nat, cutoff: nat, ghost rows: set<Message>)
      requires Valid() && Carries(payload, rows)
      requires forall m :: m in rows ==> Boundary(since, cutoff) <= m.time
      requires WellFormedLog(Below(db.messages, Boundary(since, cutoff)) + rows)
      modifies this
      ensures Valid()
      ensures Snapshot() == Cache(Below(old(db.messages), Boundary(since, cutoff)) + rows, Some(state))
    {
      hide RollupsExact, UniqueIds, ToolRows, SessionRollupOf;
      var boundary := if cutoff < since then cutoff else since;
      ghost var kept := Below(db.messages, boundary);
      var changed := PrepareChangedSessions(db.messages, boundary, payload);
      var tools := set tool | tool in db.tools && tool.time < boundary;
      var messages := set m | m in db.messages && m.time < boundary;
      assert messages == kept;
      SessionIdsAreNamed(payload, rows);
      var sessions := InsertSessions(db.sessions, payload.sessions);
      messages := InsertMessages(messages, payload.messages);
      assert messages == kept + rows;
      FilledTools(db.messages, kept, rows, boundary, payload);
      tools := DeleteToolsForMessages(tools, payload.messages);
      tools := InsertTools(tools, payload.tools);
      assert tools == ToolRows(messages);
      assert Below(messages, boundary) == kept;
      ChangedSessionsSuffice(db.messages, messages, boundary, payload, rows, changed);
      sessions := RefreshSessions(sessions, changed, messages);
      var rollups := RefreshAll(db.rollups, messages, boundary, db.messages);
      db := Database(messages, tools, sessions, rollups, Some(state));
    }

    /** One sync of the source: plan, collect, and commit at most one transaction. */
    method SyncSource(live: LiveSource, known: map<string, SessionRow>, opts: SyncOptions, now: nat, mishap: Mishap,
                      ghost logs: string -> set<Message>)
      returns (report: SyncReport)
      requires Valid() && Consolidation.Invariant(World(logs, Snapshot()))
      requires live.Valid() && Elements(live.log) == logs(live.pricingDigest)
      modifies this
      ensures Valid() && Snapshot() == Synced(old(Snapshot()), live, opts, now, mishap)
      ensures Consolidation.Invariant(World(logs, Snapshot()))
      ensures !report.ok ==> report.messages == 0
      ensures report.ok && !(mishap.LockHeld? && opts.readTriggered) && PlanSync(old(db.state), live, opts, now).Collect? ==>
                report.messages + report.skippedOld + report.skippedRecent == |live.log|
    {
      hide Derived, WellFormedLog, PricingIdentityChanged;
      ghost var w := World(logs, Snapshot());
      SyncKeepsInvariant(w, live, opts, now, mishap);
      report := SyncReport(0, 0, 0, false);
      if mishap.LockHeld? && opts.readTriggered {
        return report.(ok := true);
      }
      match PlanSync(db.state, live, opts, now)
      case Refuse =>
      case MarkUnavailable =>
        if !mishap.WriteFails? {
          WriteState(UnavailableState(db.state, live, now));
          report := report.(ok := true);
        }
      case Advance(cutoff) =>
        if !mishap.WriteFails? {
          WriteState(ReadyState(live.Fingerprint(), cutoff, now));
          report := report.(ok := true);
        }
      case Collect(mode, since, cutoff, _) =>
        if live.collectFails {
          if !opts.readTriggered && !mishap.WriteFails? {
            WriteState(FailedState(db.state, live, now));
          }
        } else {
          LogIsWellFormed(w, live);
          var payload, summary := CollectConsolidation(live.log, known, since, cutoff);
          if !mishap.WriteFails? {
            ghost var rows := Window(Elements(live.log), since, cutoff);
            var state := ReadyState(live.Fingerprint(), cutoff, now);
            if mode == Mode.Rebuild {
              WindowFromStart(Elements(live.log), cutoff);
              ReplaceSource(payload, state, rows);
            } else {
              FillIsRebuild(w, live, cutoff, now);
              SubsetIsWellFormed(Elements(live.log), Below(Elements(live.log), cutoff));
              FillSource(payload, state, since, cutoff, rows);
            }
            report := SyncReport(|payload.messages|, summary.skippedOld, summary.skippedRecent, true);
          }
        }
    }

    /** Opening the cache under the current data version. */
    method ResetOutdatedDataVersions()
      requires Valid()
      modifies this
      ensures Valid() && Snapshot() == Reopened(old(Snapshot()))
    {
      if db.state.Some? && db.state.value.dataVersion != DATA_VERSION {
        db := db.(state := Some(db.state.value.(fingerprint := "", cutoff := 0, freshThrough := 0, lastSynced := 0,
                                                dataVersion := DATA_VERSION)));
      }
    }
  }

  datatype SyncReport = SyncReport(messages: nat, skippedOld: nat, skippedRecent: nat, ok: bool)

  lemma LogIsWellFormed(w: World, live: LiveSource)
    requires Consolidation.Invariant(w) && Elements(live.log) == w.logs(live.pricingDigest)
    ensures WellFormedLog(Elements(live.log))
  {
    assert WellFormedLog(w.logs(live.pricingDigest));
  }

  lemma SubsetIsWellFormed(rows: set<Message>, part: set<Message>)
    requires WellFormedLog(rows) && part <= rows
    ensures WellFormedLog(part)
  {
  }

  lemma WindowFromStart(rows: set<Message>, cutoff: nat)
    requires WellFormedLog(rows)
    ensures Window(rows, 0, cutoff) == Below(rows, cutoff) && WellFormedLog(Below(rows, cutoff))
  {
  }

  method RefreshAll(rollups: map<Table, Rollup>, rows: set<Message>, since: nat, ghost before: set<Message>)
    returns (r: map<Table, Rollup>)
    requires RollupsExact(rollups, before) && Below(before, since) == Below(rows, since)
    ensures RollupsExact(r, rows)
  {
    r := RefreshTables(rollups, {HourlyUsage}, rows, since, before);
    r := RefreshTables(r, OVERVIEW_TABLES, rows, since, before);
  }

  lemma SessionIdsAreNamed(payload: Payload, rows: set<Message>)
    requires Carries(payload, rows) && forall m :: m in rows ==> m.session != ""
    ensures forall s :: s in payload.sessions ==> s.0 != ""
  {
    forall s | s in payload.sessions
      ensures s.0 != ""
    {
      assert s.0 in PayloadSessions(payload);
    }
  }

  lemma ToolRowsAreNamed(rows: set<Message>)
    ensures forall tool :: tool in ToolRows(rows) ==> tool.name != ""
  {
  }

  /** What the two tool deletions and the tool inserts leave. */
  lemma FilledTools(before: set<Message>, kept: set<Message>, rows: set<Message>, boundary: nat, payload: Payload)
    requires kept == Below(before, boundary) && Carries(payload, rows) && WellFormedLog(kept + rows)
    requires forall m :: m in rows ==> boundary <= m.time
    ensures forall m :: m in payload.messages ==> m.id != ""
    ensures forall tool :: tool in ToolRows(before) && tool.time < boundary ==>
              forall m :: m in payload.messages ==> m.id != tool.message
    ensures (set tool | tool in ToolRows(before) && tool.time < boundary) + (set row | row in payload.tools && row.name != "")
            == ToolRows(kept + rows)
  {
    assert forall m :: m in payload.messages ==> m in rows;
    ToolRowsOfSuffix(before, boundary);
    ToolRowsKeepTheirMessage(kept, payload.messages);
    ToolRowsAreNamed(rows);
    assert (set row | row in payload.tools && row.name != "") == ToolRows(rows);
    ToolRowsOfUnion(kept, rows);
  }

  lemma ChangedSessionsSuffice(before: set<Message>, after: set<Message>, boundary: nat, payload: Payload,
                               rows: set<Message>, changed: set<string>)
    requires Below(before, boundary) == Below(after, boundary) && after == Below(before, boundary) + rows
    requires Carries(payload, rows) && forall m :: m in rows ==> m.session != ""
    requires changed == SessionIds(before - Below(before, boundary))
                        + (PayloadSessions(payload) + SessionIds(Elements(payload.messages)) - {""})
    ensures SessionIds(after) <= SessionIds(before) + PayloadSessions(payload)
    ensures forall id :: id in SessionIds(before) + PayloadSessions(payload) && id !in changed ==>
              id in SessionIds(after) && id in SessionIds(before) && id !in PayloadSessions(payload)
              && SessionRollupOf(before, id) == SessionRollupOf(after, id)
  {
    hide SessionRollupOf;
    forall id | id in SessionIds(before) + PayloadSessions(payload) && id !in changed
      ensures id in SessionIds(after) && id in SessionIds(before) && id !in PayloadSessions(payload)
              && SessionRollupOf(before, id) == SessionRollupOf(after, id)
    {
      assert "" !in PayloadSessions(payload);
      assert id !in PayloadSessions(payload);
      assert after - Below(after, boundary) <= rows;
      assert id !in SessionIds(after - Below(after, boundary));
      UntouchedSession(before, after, boundary, id);
    }
  }
}
