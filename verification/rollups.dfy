/**
 The hourly rollup tables. Every one of them is a GROUP BY over the message table:
 a row that applies to the table is filed under a key (its hour and, depending on
 the table, its model, provider, cost status or session) and the table holds the
 sum of a measure over the rows filed under each key.
 */
module Rollups {
  import opened UsageRows

  datatype Table = HourlyUsage | OverviewHourly | OverviewSessions | OverviewCost | ModelSessions | ModelCost

  const ALL_TABLES := {HourlyUsage, OverviewHourly, OverviewSessions, OverviewCost, ModelSessions, ModelCost}
  const OVERVIEW_TABLES := {OverviewHourly, OverviewSessions, OverviewCost, ModelSessions, ModelCost}

  datatype GroupKey = GroupKey(hour: int, model: string, provider: string, status: string, session: string)

  type Rollup = map<GroupKey, Totals>

  predicate HasModel(m: Message) {
    m.role == ASSISTANT && m.model != ""
  }

  predicate Applies(t: Table, m: Message) {
    match t
    case OverviewHourly | OverviewSessions => true
    case OverviewCost => m.role == ASSISTANT
    case HourlyUsage | ModelSessions | ModelCost => HasModel(m)
  }

  function KeyOf(t: Table, m: Message): GroupKey {
    var hour := HourStart(m.time);
    match t
    case OverviewHourly => GroupKey(hour, "", "", "", "")
    case OverviewSessions => GroupKey(hour, "", "", "", m.session)
    case OverviewCost => GroupKey(hour, "", "", m.costStatus, "")
    case HourlyUsage => GroupKey(hour, m.model, m.provider, "", "")
    case ModelSessions => GroupKey(hour, m.model, m.provider, "", m.session)
    case ModelCost => GroupKey(hour, m.model, m.provider, m.costStatus, "")
  }

  function MeasureOf(t: Table): Measure {
    match t
    case OverviewHourly => AllColumns
    case HourlyUsage => ModelColumns
    case OverviewCost | ModelCost => RowCount
    case OverviewSessions | ModelSessions => Presence
  }

  ghost function Keys(t: Table, rows: set<Message>): set<GroupKey> {
    set m | m in rows && Applies(t, m) :: KeyOf(t, m)
  }

  ghost function Group(t: Table, rows: set<Message>, k: GroupKey): set<Message> {
    set m | m in rows && Applies(t, m) && KeyOf(t, m) == k
  }

  /** What a rebuild of table t over the whole message table gives. */
  ghost function Rebuild(t: Table, rows: set<Message>): Rollup {
    map k | k in Keys(t, rows) :: Sum(MeasureOf(t), Group(t, rows, k))
  }

  ghost predicate RollupsExact(rollups: map<Table, Rollup>, rows: set<Message>) {
    rollups.Keys == ALL_TABLES && forall t :: t in ALL_TABLES ==> rollups[t] == Rebuild(t, rows)
  }

  /** INSERT ... SELECT ... GROUP BY: aggregates the rows one by one. */
  method Aggregate(t: Table, rows: set<Message>) returns (r: Rollup)
    ensures r == Rebuild(t, rows)
  {
    r := map[];
    var todo := rows;
    ghost var done: set<Message> := {};
    while todo != {}
      invariant done !! todo && done + todo == rows
      invariant r == Rebuild(t, done)
      decreases todo
    {
      var m :| m in todo;
      if Applies(t, m) {
        var k := KeyOf(t, m);
        RebuildGrows(t, done, m);
        r := r[k := MeasureOf(t).Of(m).Plus(if k in r then r[k] else ZERO)];
      } else {
        RebuildIgnores(t, done, m);
      }
      todo, done := todo - {m}, done + {m};
    }
    assert done == rows;
  }

  lemma RebuildGrows(t: Table, rows: set<Message>, m: Message)
    requires m !in rows && Applies(t, m)
    ensures var k := KeyOf(t, m);
            var before := if k in Rebuild(t, rows) then Rebuild(t, rows)[k] else ZERO;
            Rebuild(t, rows + {m}) == Rebuild(t, rows)[k := MeasureOf(t).Of(m).Plus(before)]
  {
    hide HourStart, KeyOf, Applies, MeasureOf, Sum, Totals.Plus, Measure.Of;
    var k, all := KeyOf(t, m), rows + {m};
    GroupGrows(t, rows, m);
    assert Keys(t, all) == Keys(t, rows) + {k};
    forall other | other in Keys(t, rows) && other != k
      ensures Rebuild(t, all)[other] == Rebuild(t, rows)[other]
    {
      assert Group(t, all, other) == Group(t, rows, other);
    }
  }

  lemma GroupGrows(t: Table, rows: set<Message>, m: Message)
    requires m !in rows && Applies(t, m)
    ensures var k := KeyOf(t, m);
            var before := if k in Keys(t, rows) then Sum(MeasureOf(t), Group(t, rows, k)) else ZERO;
            Sum(MeasureOf(t), Group(t, rows + {m}, k)) == MeasureOf(t).Of(m).Plus(before)
  {
    var k, all := KeyOf(t, m), rows + {m};
    SumPick(MeasureOf(t), Group(t, all, k), m);
    assert Group(t, all, k) - {m} == Group(t, rows, k);
    KeyHasGroup(t, rows, k);
  }

  lemma RebuildIgnores(t: Table, rows: set<Message>, m: Message)
    requires !Applies(t, m)
    ensures Rebuild(t, rows + {m}) == Rebuild(t, rows)
  {
    hide HourStart, KeyOf, Applies, MeasureOf, Sum, Totals.Plus, Measure.Of;
    assert Keys(t, rows + {m}) == Keys(t, rows);
    forall k | k in Keys(t, rows)
      ensures Group(t, rows + {m}, k) == Group(t, rows, k)
    {
    }
  }

  lemma KeyHour(t: Table, m: Message)
    ensures KeyOf(t, m).hour == HourStart(m.time)
  {
  }

  /** DELETE FROM t WHERE bucket_start_ms >= boundary. */
  function DropFrom(r: Rollup, boundary: int): Rollup {
    map k | k in r && k.hour < boundary :: r[k]
  }

  /**
   Refreshing only the hours from an aligned boundary on gives what a rebuild of
   the whole table gives, provided the rows before the boundary did not change.
   */
  lemma SuffixRefreshIsRebuild(t: Table, before: set<Message>, after: set<Message>, boundary: int)
    requires boundary % HOUR_MS == 0
    requires Below(before, boundary) == Below(after, boundary)
    ensures DropFrom(Rebuild(t, before), boundary) + Rebuild(t, after - Below(after, boundary)) == Rebuild(t, after)
  {
    hide HourStart, KeyOf, Applies, MeasureOf, Sum, Totals.Plus, Measure.Of;
    var suffix := after - Below(after, boundary);
    forall m: Message
      ensures m.time < boundary <==> KeyOf(t, m).hour < boundary
    {
      KeyHour(t, m);
      AlignedBoundary(m.time, boundary);
    }
    forall k: GroupKey | k.hour < boundary
      ensures Group(t, before, k) == Group(t, after, k)
      ensures k !in Keys(t, suffix)
      ensures k in Keys(t, before) <==> k in Keys(t, after)
    {
      GroupOfBoundedRows(t, before, after, boundary, k);
      KeyHasGroup(t, before, k);
      KeyHasGroup(t, after, k);
    }
    forall k: GroupKey | k.hour >= boundary
      ensures Group(t, suffix, k) == Group(t, after, k)
      ensures k in Keys(t, suffix) <==> k in Keys(t, after)
    {
      KeyHasGroup(t, suffix, k);
      KeyHasGroup(t, after, k);
    }
  }

  lemma KeyHasGroup(t: Table, rows: set<Message>, k: GroupKey)
    ensures k in Keys(t, rows) <==> Group(t, rows, k) != {}
  {
    if k in Keys(t, rows) {
      var m :| m in rows && Applies(t, m) && KeyOf(t, m) == k;
      assert m in Group(t, rows, k);
    }
  }

  lemma GroupOfBoundedRows(t: Table, before: set<Message>, after: set<Message>, boundary: int, k: GroupKey)
    requires Below(before, boundary) == Below(after, boundary)
    requires forall m: Message :: m.time < boundary <==> KeyOf(t, m).hour < boundary
    requires k.hour < boundary
    ensures Group(t, before, k) == Group(t, after, k)
  {
    forall m: Message
      ensures m in Group(t, before, k) <==> m in Group(t, after, k)
    {
      assert m in Below(before, boundary) <==> m in Below(after, boundary);
    }
  }
}
