/**
 Reading the cache: a window is answered from the rollup tables for its full hours
 and from the message table for its partial-hour edges. Each statement may see a
 different committed database; what they share is the rows of the window.
 */
module RollupReads {
  import opened Common
  import opened UsageRows
  import opened Rollups
  import opened CacheDatabase
  import opened CostStatuses
  import opened Windows

  /** Restricts a read to requests of one model and, or, one provider. */
  datatype ModelFilter = ModelFilter(model: string, provider: string) {
    predicate Active() {
      model != "" || provider != ""
    }

    predicate Matches(m: Message) {
      !Active() || (HasModel(m) && (model == "" || m.model == model) && (provider == "" || m.provider == provider))
    }
  }

  const NO_FILTER := ModelFilter("", "")

  /** A part of the time axis: all of it, one UTC day, or the hour that starts at an instant. */
  datatype Bucket = AnyTime | Day(day: int) | Hour(start: int) {
    predicate Holds(ms: int) {
      match this
      case AnyTime => true
      case Day(day) => DayOf(ms) == day
      case Hour(start) => HourStart(ms) == start
    }
  }

  datatype ModelKey = ModelKey(model: string, provider: string)

  function ModelOf(m: Message): ModelKey {
    ModelKey(m.model, m.provider)
  }

  /** The rows one figure is about: those of a filter and, in a trend, of one bucket, or, in a list of models, of one model. */
  datatype Selection = Selection(filter: ModelFilter, bucket: Bucket, only: Option<ModelKey>) {
    /** Only requests that name a model can match. */
    predicate Modelled() {
      filter.Active() || only.Some?
    }

    predicate Matches(m: Message) {
      filter.Matches(m) && bucket.Holds(m.time) && (only.None? || (HasModel(m) && ModelOf(m) == only.value))
    }

    predicate MatchesKey(k: GroupKey) {
      && (filter.model == "" || k.model == filter.model)
      && (filter.provider == "" || k.provider == filter.provider)
      && bucket.Holds(k.hour)
      && (only.None? || ModelKey(k.model, k.provider) == only.value)
    }
  }

  /** The three rollups a selection reads: totals, session sets, cost statuses. */
  function TotalsTable(sel: Selection): Table {
    if sel.Modelled() then HourlyUsage else OverviewHourly
  }

  function SessionsTable(sel: Selection): Table {
    if sel.Modelled() then ModelSessions else OverviewSessions
  }

  function CostTable(sel: Selection): Table {
    if sel.Modelled() then ModelCost else OverviewCost
  }

  /** The table keeps what the selection asks about. */
  predicate Fits(t: Table, sel: Selection) {
    sel.Modelled() ==> t == HourlyUsage || t == ModelSessions || t == ModelCost
  }

  ghost function Matching(rows: set<Message>, sel: Selection): set<Message> {
    set m | m in rows && sel.Matches(m)
  }

  /** The rows behind one table's part of a read. */
  ghost function Counted(t: Table, rows: set<Message>, sel: Selection): set<Message> {
    set m | m in rows && sel.Matches(m) && Applies(t, m)
  }

  function KeysIn(r: Rollup, span: Span, sel: Selection): set<GroupKey> {
    set k | k in r && span.start <= k.hour < span.end && sel.MatchesKey(k)
  }

  // ---- a table read is a scan ----

  ghost function Filed(t: Table, rows: set<Message>, keys: set<GroupKey>): set<Message> {
    set m | m in rows && Applies(t, m) && KeyOf(t, m) in keys
  }

  lemma KeyMatchesItsRows(t: Table, sel: Selection, m: Message)
    requires Fits(t, sel) && Applies(t, m)
    ensures sel.MatchesKey(KeyOf(t, m)) <==> sel.Matches(m)
    ensures KeyOf(t, m).hour == HourStart(m.time)
  {
    DayOfHour(m.time);
    HourOfHour(m.time);
  }

  lemma HourOfHour(ms: int)
    ensures HourStart(HourStart(ms)) == HourStart(ms)
  {
  }

  /** The keys of whole hours stand for exactly the rows of those hours. */
  lemma FiledRowsAreTheSpan(t: Table, rows: set<Message>, span: Span, sel: Selection)
    requires Fits(t, sel) && span.start % HOUR_MS == 0 && span.end % HOUR_MS == 0
    ensures Filed(t, rows, KeysIn(Rebuild(t, rows), span, sel)) == Counted(t, Window(rows, span.start, span.end), sel)
  {
    hide Sum, KeyOf, Applies, MeasureOf, HourStart, Fits, Selection.Matches, Selection.MatchesKey;
    forall m | m in rows && Applies(t, m)
      ensures KeyOf(t, m) in KeysIn(Rebuild(t, rows), span, sel) <==> span.start <= m.time < span.end && sel.Matches(m)
    {
      KeyMatchesItsRows(t, sel, m);
      AlignedBoundary(m.time, span.start);
      AlignedBoundary(m.time, span.end);
    }
  }

  method SumTable(t: Table, r: Rollup, keys: set<GroupKey>, ghost rows: set<Message>) returns (total: Totals)
    requires r == Rebuild(t, rows) && keys <= r.Keys
    ensures total == Sum(MeasureOf(t), Filed(t, rows, keys))
  {
    hide Sum, KeyOf, Applies, MeasureOf, Totals.Plus;
    total := ZERO;
    var todo := keys;
    ghost var done: set<GroupKey> := {};
    assert Filed(t, rows, {}) == {};
    SumEmpty(MeasureOf(t));
    while todo != {}
      invariant done !! todo && done + todo == keys
      invariant total == Sum(MeasureOf(t), Filed(t, rows, done))
      decreases todo
    {
      var k :| k in todo;
      assert Filed(t, rows, done + {k}) == Filed(t, rows, done) + Group(t, rows, k);
      SumDisjoint(MeasureOf(t), Filed(t, rows, done), Group(t, rows, k));
      total := total.Plus(r[k]);
      todo, done := todo - {k}, done + {k};
    }
    assert done == keys;
  }

  method SumRows(what: Measure, rows: set<Message>) returns (total: Totals)
    ensures total == Sum(what, rows)
  {
    hide Sum, Totals.Plus, Measure.Of;
    total := ZERO;
    var todo := rows;
    ghost var done: set<Message> := {};
    SumEmpty(what);
    while todo != {}
      invariant done !! todo && done + todo == rows
      invariant total == Sum(what, done)
      decreases todo
    {
      var m :| m in todo;
      SumPick(what, done + {m}, m);
      assert done + {m} - {m} == done;
      PlusCommutes(total, what.Of(m));
      total := total.Plus(what.Of(m));
      todo, done := todo - {m}, done + {m};
    }
    assert done == rows;
  }

  lemma PlusCommutes(a: Totals, b: Totals)
    ensures a.Plus(b) == b.Plus(a)
  {
  }

  // ---- reading a window part by part ----

  /** A committed database whose derived tables are exact and whose rows in the window are the given ones. */
  ghost predicate Sees(db: Database, rows: set<Message>, start: int, end: int) {
    Derived(db) && Window(db.messages, start, end) == Window(rows, start, end)
  }

  ghost function EdgeRows(rows: set<Message>, parts: WindowParts, i: nat): set<Message> {
    if i < |parts.edges| then Window(rows, parts.edges[i].start, parts.edges[i].end) else {}
  }

  /** The rows of the full hours and of the first n edges. */
  ghost function Covered(rows: set<Message>, parts: WindowParts, n: nat): set<Message> {
    Window(rows, parts.full.start, parts.full.end)
    + (if n > 0 then EdgeRows(rows, parts, 0) else {}) + (if n > 1 then EdgeRows(rows, parts, 1) else {})
  }

  lemma CoveredIsTheWindow(rows: set<Message>, start: int, end: int)
    ensures var parts := SplitOverviewMillis(start, end);
            && |parts.edges| <= 2
            && parts.full.start % HOUR_MS == 0 && parts.full.end % HOUR_MS == 0
            && Covered(rows, parts, |parts.edges|) == Window(rows, start, end)
            && (!parts.HasFullHours() ==> Covered(rows, parts, 0) == {})
            && (forall i: nat :: i < |parts.edges| ==>
                  && Covered(rows, parts, i) !! EdgeRows(rows, parts, i)
                  && Covered(rows, parts, i + 1) == Covered(rows, parts, i) + EdgeRows(rows, parts, i))
  {
    SplitIsAPartition(start, end);
    RowsByPart(rows, start, end);
  }

  /** Databases that agree on the window agree on each of its parts. */
  lemma SeesItsParts(db: Database, rows: set<Message>, start: int, end: int)
    requires Sees(db, rows, start, end)
    ensures var parts := SplitOverviewMillis(start, end);
            && Window(db.messages, parts.full.start, parts.full.end) == Window(rows, parts.full.start, parts.full.end)
            && forall i: nat :: i < |parts.edges| ==> EdgeRows(db.messages, parts, i) == EdgeRows(rows, parts, i)
  {
    hide Derived, HourStart;
    var parts := SplitOverviewMillis(start, end);
    SplitIsAPartition(start, end);
    forall m: Message | start <= m.time < end
      ensures m in db.messages <==> m in rows
    {
      assert m in Window(db.messages, start, end) <==> m in Window(rows, start, end);
    }
    forall m: Message
      ensures PartsHolding(m.time, parts) == if start <= m.time < end then 1 else 0
    {
    }
    hide SplitOverviewMillis;
    forall i: nat | i < |parts.edges|
      ensures EdgeRows(db.messages, parts, i) == EdgeRows(rows, parts, i)
    {
      assert i == 0 || i == 1;
    }
  }

  lemma CountedGrows(t: Table, a: set<Message>, b: set<Message>, sel: Selection)
    requires a !! b
    ensures Counted(t, a, sel) !! Counted(t, b, sel)
    ensures Counted(t, a + b, sel) == Counted(t, a, sel) + Counted(t, b, sel)
  {
  }

  /** Numeric totals of the window: the rollup's full hours plus the scanned edges. */
  method ReadTotals(dbAt: nat -> Database, first: nat, start: int, end: int, sel: Selection, ghost rows: set<Message>)
    returns (total: Totals)
    requires forall k :: Sees(dbAt(k), rows, start, end)
    ensures var t := TotalsTable(sel);
            total == Sum(MeasureOf(t), Counted(t, Window(rows, start, end), sel))
  {
    hide Sum, MeasureOf, Applies, KeyOf, Totals.Plus, SplitOverviewMillis, Selection.Matches, Selection.MatchesKey,
         Rollups.Rebuild, Covered, EdgeRows, ToolRows, SessionRows;
    var t, parts := TotalsTable(sel), SplitOverviewMillis(start, end);
    CoveredIsTheWindow(rows, start, end);
    total := ZERO;
    SumEmpty(MeasureOf(t));
    assert Counted(t, {}, sel) == {};
    if parts.HasFullHours() {
      var db := dbAt(first);
      SeesItsParts(db, rows, start, end);
      FullHours(t, db, parts, sel);
      total := SumTable(t, db.rollups[t], KeysIn(db.rollups[t], parts.full, sel), db.messages);
      assert Covered(rows, parts, 0) == Window(rows, parts.full.start, parts.full.end) by { CoveredByFullHours(rows, parts); }
    }
    for i := 0 to |parts.edges|
      invariant total == Sum(MeasureOf(t), Counted(t, Covered(rows, parts, i), sel))
    {
      var db, edge := dbAt(first + 1 + i), parts.edges[i];
      SeesItsParts(db, rows, start, end);
      EdgeScan(t, db.messages, parts, i, sel);
      var scanned := set m | m in db.messages && edge.start <= m.time < edge.end && sel.Matches(m) && Applies(t, m);
      var part := SumRows(MeasureOf(t), scanned);
      CountedGrows(t, Covered(rows, parts, i), EdgeRows(rows, parts, i), sel);
      SumDisjoint(MeasureOf(t), Counted(t, Covered(rows, parts, i), sel), Counted(t, EdgeRows(rows, parts, i), sel));
      total := total.Plus(part);
    }
  }

  lemma CoveredByFullHours(rows: set<Message>, parts: WindowParts)
    ensures Covered(rows, parts, 0) == Window(rows, parts.full.start, parts.full.end)
  {
  }

  lemma EdgeScan(t: Table, rows: set<Message>, parts: WindowParts, i: nat, sel: Selection)
    requires i < |parts.edges|
    ensures var edge := parts.edges[i];
            (set m | m in rows && edge.start <= m.time < edge.end && sel.Matches(m) && Applies(t, m))
            == Counted(t, EdgeRows(rows, parts, i), sel)
  {
  }

  /** The full hours' table entries stand for the full hours' rows. */
  lemma FullHours(t: Table, db: Database, parts: WindowParts, sel: Selection)
    requires Derived(db) && Fits(t, sel)
    requires parts.full.start % HOUR_MS == 0 && parts.full.end % HOUR_MS == 0
    ensures t in db.rollups && db.rollups[t] == Rollups.Rebuild(t, db.messages)
    ensures Filed(t, db.messages, KeysIn(db.rollups[t], parts.full, sel))
            == Counted(t, Window(db.messages, parts.full.start, parts.full.end), sel)
  {
    FiledRowsAreTheSpan(t, db.messages, parts.full, sel);
  }

  lemma SessionsOfKeys(t: Table, rows: set<Message>, keys: set<GroupKey>)
    requires (t == OverviewSessions || t == ModelSessions) && keys <= Keys(t, rows)
    ensures (set k | k in keys :: k.session) == SessionIds(Filed(t, rows, keys))
  {
    forall k | k in keys
      ensures k.session in SessionIds(Filed(t, rows, keys))
    {
      var m :| m in rows && Applies(t, m) && KeyOf(t, m) == k;
      assert m in Filed(t, rows, keys);
    }
  }

  lemma DaysOfKeys(t: Table, rows: set<Message>, keys: set<GroupKey>)
    requires keys <= Keys(t, rows)
    ensures (set k | k in keys :: DayOf(k.hour)) == Days(Filed(t, rows, keys))
  {
    hide DayOf, HourStart;
    forall k | k in keys
      ensures DayOf(k.hour) in Days(Filed(t, rows, keys))
    {
      var m :| m in rows && Applies(t, m) && KeyOf(t, m) == k;
      assert m in Filed(t, rows, keys);
      DayOfHour(m.time);
    }
    forall m | m in Filed(t, rows, keys)
      ensures DayOf(m.time) in set k | k in keys :: DayOf(k.hour)
    {
      DayOfHour(m.time);
      assert KeyOf(t, m) in keys;
    }
  }

  lemma HoursHaveMessages(rows: set<Message>, k: GroupKey)
    requires k in Keys(OverviewHourly, rows)
    ensures Rollups.Rebuild(OverviewHourly, rows)[k].messages > 0
  {
    KeyHasGroup(OverviewHourly, rows, k);
    SumCounts(AllColumns, Group(OverviewHourly, rows, k));
  }

  /** The distinct sessions of the window. */
  method ReadSessions(db: Database, start: int, end: int, sel: Selection, ghost rows: set<Message>)
    returns (ids: set<string>)
    requires Sees(db, rows, start, end)
    ensures ids == SessionIds(Counted(SessionsTable(sel), Window(rows, start, end), sel))
  {
    hide Sum, MeasureOf, Applies, KeyOf, SplitOverviewMillis, Selection.Matches, Selection.MatchesKey, Covered,
         EdgeRows, ToolRows, SessionRows;
    var t, parts := SessionsTable(sel), SplitOverviewMillis(start, end);
    CoveredIsTheWindow(rows, start, end);
    SeesItsParts(db, rows, start, end);
    ids := {};
    if parts.HasFullHours() {
      FullHours(t, db, parts, sel);
      var keys := KeysIn(db.rollups[t], parts.full, sel);
      SessionsOfKeys(t, db.messages, keys);
      CoveredByFullHours(rows, parts);
      ids := set k | k in keys :: k.session;
    }
    for i := 0 to |parts.edges|
      invariant ids == SessionIds(Counted(t, Covered(rows, parts, i), sel))
    {
      var edge := parts.edges[i];
      EdgeScan(t, db.messages, parts, i, sel);
      CountedGrows(t, Covered(rows, parts, i), EdgeRows(rows, parts, i), sel);
      ids := ids + set m | m in db.messages && edge.start <= m.time < edge.end && sel.Matches(m) && Applies(t, m) :: m.session;
    }
  }

  function DaysTable(sel: Selection): Table {
    if sel.Modelled() then ModelSessions else OverviewHourly
  }

  /** The distinct active UTC days of the window. */
  method ReadDays(db: Database, start: int, end: int, sel: Selection, ghost rows: set<Message>) returns (days: set<int>)
    requires Sees(db, rows, start, end)
    ensures days == Days(Counted(DaysTable(sel), Window(rows, start, end), sel))
  {
    hide Sum, MeasureOf, Applies, KeyOf, SplitOverviewMillis, Selection.Matches, Selection.MatchesKey, Covered,
         EdgeRows, ToolRows, SessionRows, DayOf;
    var t, parts := DaysTable(sel), SplitOverviewMillis(start, end);
    CoveredIsTheWindow(rows, start, end);
    SeesItsParts(db, rows, start, end);
    days := {};
    if parts.HasFullHours() {
      FullHours(t, db, parts, sel);
      var keys := KeysIn(db.rollups[t], parts.full, sel);
      forall k | k in keys && t == OverviewHourly
        ensures db.rollups[t][k].messages > 0
      {
        HoursHaveMessages(db.messages, k);
      }
      DaysOfKeys(t, db.messages, keys);
      CoveredByFullHours(rows, parts);
      days := set k | k in keys && (t == OverviewHourly ==> db.rollups[t][k].messages > 0) :: DayOf(k.hour);
    }
    for i := 0 to |parts.edges|
      invariant days == Days(Counted(t, Covered(rows, parts, i), sel))
    {
      var edge := parts.edges[i];
      EdgeScan(t, db.messages, parts, i, sel);
      CountedGrows(t, Covered(rows, parts, i), EdgeRows(rows, parts, i), sel);
      days := days + set m | m in db.messages && edge.start <= m.time < edge.end && sel.Matches(m) && Applies(t, m) :: DayOf(m.time);
    }
  }

  method CountTable(t: Table, r: Rollup, keys: set<GroupKey>, ghost rows: set<Message>) returns (counts: CostCounts)
    requires r == Rollups.Rebuild(t, rows) && keys <= r.Keys && (t == OverviewCost || t == ModelCost)
    ensures counts == CountsOf(Filed(t, rows, keys))
  {
    hide CountsOf, CostCounts.Add, Filed, Rollups.Rebuild;
    counts := NO_COUNTS;
    var todo := keys;
    ghost var done: set<GroupKey> := {};
    NothingCounted();
    NothingFiled(t, rows);
    while todo != {}
      invariant done !! todo && done + todo == keys
      invariant counts == CountsOf(Filed(t, rows, done))
      decreases todo
    {
      var k :| k in todo;
      CountsOfKey(t, rows, done, k);
      counts := counts.Add(k.status, r[k].messages);
      todo, done := todo - {k}, done + {k};
    }
    assert done == keys;
  }

  lemma NothingFiled(t: Table, rows: set<Message>)
    ensures Filed(t, rows, {}) == {}
  {
  }

  lemma CountsOfKey(t: Table, rows: set<Message>, done: set<GroupKey>, k: GroupKey)
    requires (t == OverviewCost || t == ModelCost) && k in Rollups.Rebuild(t, rows) && k !in done
    ensures CountsOf(Filed(t, rows, done + {k}))
            == CountsOf(Filed(t, rows, done)).Add(k.status, Rollups.Rebuild(t, rows)[k].messages)
  {
    hide Sum, MeasureOf, Applies, KeyOf, CountsOf, CostCounts.Add;
    assert Filed(t, rows, done + {k}) == Filed(t, rows, done) + Group(t, rows, k);
    CostGroup(t, rows, k);
    CountsGrow(Filed(t, rows, done), Group(t, rows, k), k.status);
  }

  lemma NothingCounted()
    ensures CountsOf({}) == NO_COUNTS
  {
    assert Billed({}) == {};
    assert forall s :: BilledAs({}, s) == {};
  }

  lemma CostGroup(t: Table, rows: set<Message>, k: GroupKey)
    requires t == OverviewCost || t == ModelCost
    ensures Sum(MeasureOf(t), Group(t, rows, k)).messages == |Group(t, rows, k)|
    ensures forall m :: m in Group(t, rows, k) ==> m.role == ASSISTANT && m.costStatus == k.status
  {
    SumCounts(MeasureOf(t), Group(t, rows, k));
  }

  method CountRows(rows: set<Message>) returns (counts: CostCounts)
    requires forall m :: m in rows ==> m.role == ASSISTANT
    ensures counts == CountsOf(rows)
  {
    hide CountsOf, CostCounts.Add;
    counts := NO_COUNTS;
    var todo := rows;
    ghost var done: set<Message> := {};
    NothingCounted();
    while todo != {}
      invariant done !! todo && done + todo == rows
      invariant counts == CountsOf(done)
      decreases todo
    {
      var m :| m in todo;
      CountsGrow(done, {m}, m.costStatus);
      counts := counts.Add(m.costStatus, 1);
      todo, done := todo - {m}, done + {m};
    }
    assert done == rows;
  }

  /** The cost-status counts of the window. */
  method ReadCosts(db: Database, start: int, end: int, sel: Selection, ghost rows: set<Message>) returns (counts: CostCounts)
    requires Sees(db, rows, start, end)
    ensures counts == CountsOf(Counted(CostTable(sel), Window(rows, start, end), sel))
  {
    hide Sum, MeasureOf, KeyOf, SplitOverviewMillis, Selection.Matches, Selection.MatchesKey, Covered, EdgeRows,
         ToolRows, SessionRows, CountsOf, CostCounts.Join;
    var t, parts := CostTable(sel), SplitOverviewMillis(start, end);
    CoveredIsTheWindow(rows, start, end);
    SeesItsParts(db, rows, start, end);
    counts := NO_COUNTS;
    NothingCounted();
    assert Counted(t, {}, sel) == {};
    if parts.HasFullHours() {
      FullHours(t, db, parts, sel);
      counts := CountTable(t, db.rollups[t], KeysIn(db.rollups[t], parts.full, sel), db.messages);
      CoveredByFullHours(rows, parts);
    }
    for i := 0 to |parts.edges|
      invariant counts == CountsOf(Counted(t, Covered(rows, parts, i), sel))
    {
      var edge := parts.edges[i];
      EdgeScan(t, db.messages, parts, i, sel);
      CountedGrows(t, Covered(rows, parts, i), EdgeRows(rows, parts, i), sel);
      var part := CountRows(set m | m in db.messages && edge.start <= m.time < edge.end && sel.Matches(m) && Applies(t, m));
      CountsOfUnion(Counted(t, Covered(rows, parts, i), sel), Counted(t, EdgeRows(rows, parts, i), sel));
      counts := counts.Join(part);
    }
  }

  /** What the tables count is what the selection means: only rows without a cost status drop out of the cost table. */
  lemma CountedIsMatching(rows: set<Message>, sel: Selection)
    ensures Counted(TotalsTable(sel), rows, sel) == Matching(rows, sel)
    ensures Counted(SessionsTable(sel), rows, sel) == Matching(rows, sel)
    ensures Counted(DaysTable(sel), rows, sel) == Matching(rows, sel)
    ensures CountsOf(Counted(CostTable(sel), rows, sel)) == CountsOf(Matching(rows, sel))
  {
    var counted := Counted(CostTable(sel), rows, sel);
    var others := Matching(rows, sel) - counted;
    CountsIgnore(counted, others);
    assert counted + others == Matching(rows, sel);
  }
}
