/**
 The cache database of one source and the aggregates its derived tables must
 hold. A database is a value: a transaction works on a copy and commits by
 assigning it, so a statement always sees one committed database.
 */
module CacheDatabase {
  import opened Common
  import opened UsageRows
  import opened Rollups

  datatype ToolRow = ToolRow(message: string, session: string, time: nat, position: nat, name: string, status: string)

  datatype SessionRow = SessionRow(created: nat, updated: nat, count: nat, cost: real)

  datatype Status = Ready | Failed | Unavailable

  /** The persisted state of a source; a cutoff of 0 means nothing is consolidated. */
  datatype SourceState = SourceState(
    fingerprint: string, status: Status, cutoff: nat, freshThrough: nat, lastSynced: nat, dataVersion: nat)

  datatype Database = Database(
    messages: set<Message>, tools: set<ToolRow>, sessions: map<string, SessionRow>,
    rollups: map<Table, Rollup>, state: Option<SourceState>)

  // ---- what the derived tables are derived from ----

  ghost function ToolRows(rows: set<Message>): set<ToolRow> {
    set m, i | m in rows && 0 <= i < |m.tools| && m.tools[i].name != "" :: ToolRowOf(m, i)
  }

  function ToolRowOf(m: Message, i: nat): ToolRow
    requires i < |m.tools|
  {
    ToolRow(m.id, m.session, m.time, i, m.tools[i].name, m.tools[i].status)
  }

  ghost function OfSession(rows: set<Message>, id: string): set<Message> {
    set m | m in rows && m.session == id
  }

  ghost function MinTime(rows: set<Message>): (t: nat)
    requires rows != {}
    ensures (exists m :: m in rows && m.time == t) && forall m :: m in rows ==> t <= m.time
  {
    var m := Pick(rows);
    if rows == {m} then m.time
    else
      var rest := MinTime(rows - {m});
      if m.time < rest then m.time else rest
  }

  ghost function MaxTime(rows: set<Message>): (t: nat)
    requires rows != {}
    ensures (exists m :: m in rows && m.time == t) && forall m :: m in rows ==> m.time <= t
  {
    var m := Pick(rows);
    if rows == {m} then m.time
    else
      var rest := MaxTime(rows - {m});
      if rest < m.time then m.time else rest
  }

  ghost function SessionRollup(rows: set<Message>): SessionRow
    requires rows != {}
  {
    SessionRow(MinTime(rows), MaxTime(rows), |rows|, Sum(AllColumns, rows).cost)
  }

  /** The sessions table: one row per session with messages, aggregated over them. */
  ghost function SessionRows(rows: set<Message>): map<string, SessionRow> {
    map id | id in SessionIds(rows) :: SessionRollupOf(rows, id)
  }

  ghost function SessionRollupOf(rows: set<Message>, id: string): SessionRow
    requires id in SessionIds(rows)
  {
    var m :| m in rows && m.session == id;
    assert m in OfSession(rows, id);
    SessionRollup(OfSession(rows, id))
  }

  /** Every derived table is what a rebuild over the message table would give. */
  ghost predicate Derived(db: Database) {
    && db.tools == ToolRows(db.messages)
    && db.sessions == SessionRows(db.messages)
    && RollupsExact(db.rollups, db.messages)
  }

  // ---- statements ----

  ghost function Elements(rows: seq<Message>): set<Message> {
    set m | m in rows
  }

  /** INSERT ... ON CONFLICT(message_id) DO UPDATE, row by row. */
  method InsertMessages(table: set<Message>, rows: seq<Message>) returns (r: set<Message>)
    requires WellFormedLog(table + Elements(rows))
    ensures r == table + Elements(rows)
  {
    r := table;
    for i := 0 to |rows|
      invariant r == table + Elements(rows[..i])
    {
      var row := rows[i];
      assert row in Elements(rows);
      assert rows[..i + 1] == rows[..i] + [row];
      if row.id != "" {
        assert forall m :: m in r && m.id == row.id ==> m == row;
        r := (set m | m in r && m.id != row.id) + {row};
      }
    }
    assert rows[..|rows|] == rows;
  }

  method InsertTools(table: set<ToolRow>, rows: seq<ToolRow>) returns (r: set<ToolRow>)
    ensures r == table + set row | row in rows && row.name != ""
  {
    r := table;
    for i := 0 to |rows|
      invariant r == table + set row | row in rows[..i] && row.name != ""
    {
      assert rows[..i + 1] == rows[..i] + [rows[i]];
      if rows[i].name != "" {
        r := r + {rows[i]};
      }
    }
    assert rows[..|rows|] == rows;
  }

  /** DELETE FROM tool_index WHERE message_id = ?, for every payload message. */
  method DeleteToolsForMessages(table: set<ToolRow>, rows: seq<Message>) returns (r: set<ToolRow>)
    requires forall m :: m in rows ==> m.id != ""
    ensures r == set tool | tool in table && forall m :: m in rows ==> m.id != tool.message
  {
    r := table;
    for i := 0 to |rows|
      invariant r == set tool | tool in table && forall m :: m in rows[..i] ==> m.id != tool.message
    {
      assert rows[..i + 1] == rows[..i] + [rows[i]];
      r := set tool | tool in r && tool.message != rows[i].id;
    }
    assert rows[..|rows|] == rows;
  }

  /** SELECT MIN(time), MAX(time), COUNT(*), SUM(cost) FROM message_index WHERE session_id = ?. */
  method AggregateSession(rows: set<Message>, id: string) returns (row: SessionRow)
    requires id in SessionIds(rows)
    ensures row == SessionRollupOf(rows, id)
  {
    hide Sum, IsSessionRow, Extended, SessionRollup;
    var first :| first in rows && first.session == id;
    var todo := (set m | m in rows && m.session == id) - {first};
    ghost var done := {first};
    row := SessionRow(first.time, first.time, 1, first.cost);
    SingleSessionRow(first);
    while todo != {}
      invariant done !! todo && done + todo == OfSession(rows, id)
      invariant IsSessionRow(done, row)
      decreases todo
    {
      var m :| m in todo;
      SessionRowGrows(done, row, m);
      row := Extended(row, m);
      todo, done := todo - {m}, done + {m};
    }
    assert done == OfSession(rows, id);
    SessionRowIsUnique(done, row);
  }

  ghost predicate IsSessionRow(rows: set<Message>, row: SessionRow) {
    && (exists m :: m in rows && m.time == row.created)
    && (exists m :: m in rows && m.time == row.updated)
    && (forall m :: m in rows ==> row.created <= m.time <= row.updated)
    && row.count == |rows|
    && row.cost == Sum(AllColumns, rows).cost
  }

  function Extended(row: SessionRow, m: Message): SessionRow {
    SessionRow(if m.time < row.created then m.time else row.created,
               if row.updated < m.time then m.time else row.updated,
               row.count + 1, row.cost + m.cost)
  }

  lemma SingleSessionRow(m: Message)
    ensures IsSessionRow({m}, SessionRow(m.time, m.time, 1, m.cost))
  {
    SumPick(AllColumns, {m}, m);
    assert {m} - {m} == {};
  }

  lemma SessionRowIsUnique(rows: set<Message>, row: SessionRow)
    requires rows != {} && IsSessionRow(rows, row)
    ensures row == SessionRollup(rows)
  {
    hide Sum;
  }

  lemma SessionRowGrows(rows: set<Message>, row: SessionRow, m: Message)
    requires IsSessionRow(rows, row) && m !in rows
    ensures IsSessionRow(rows + {m}, Extended(row, m))
  {
    var all := rows + {m};
    SumPick(AllColumns, all, m);
    assert all - {m} == rows;
    hide Sum;
    var created :| created in rows && created.time == row.created;
    var updated :| updated in rows && updated.time == row.updated;
    assert created in all && updated in all && m in all;
  }

  /** Removes the changed sessions that lost their last message and re-aggregates the others. */
  method RefreshSessions(sessions: map<string, SessionRow>, changed: set<string>, rows: set<Message>)
    returns (r: map<string, SessionRow>)
    requires SessionIds(rows) <= sessions.Keys
    requires forall id :: id in sessions && id !in changed ==>
               id in SessionIds(rows) && sessions[id] == SessionRollupOf(rows, id)
    ensures r == SessionRows(rows)
  {
    hide SessionRollupOf;
    r := sessions;
    var todo := changed;
    while todo != {}
      invariant todo <= changed
      invariant SessionIds(rows) <= r.Keys <= sessions.Keys
      invariant forall id :: id in r && id !in todo ==>
                  id in SessionIds(rows) && r[id] == SessionRollupOf(rows, id)
      decreases todo
    {
      var id :| id in todo;
      if !(exists m :: m in rows && m.session == id) {
        r := r - {id};
      } else {
        var row := AggregateSession(rows, id);
        r := r[id := row];
      }
      todo := todo - {id};
    }
  }
}
