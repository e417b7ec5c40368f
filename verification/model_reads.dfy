/**
 The list of models of a request window: one entry per model and provider, each merged
 from its rollup hours, its edges and the live half.
 */
module ModelReads {
  import opened Common
  import opened UsageRows
  import opened Rollups
  import opened CacheDatabase
  import opened Consolidation
  import opened CostStatuses
  import opened Windows
  import opened RollupReads
  import opened OverviewReads

  datatype ModelEntry = ModelEntry(totals: Totals, sessions: nat, costs: Option<CostSummary>)

  const NO_USE := ModelEntry(ZERO, 0, None)

  ghost function RowsOf(rows: set<Message>, key: ModelKey): set<Message> {
    set m | m in rows && HasModel(m) && ModelOf(m) == key
  }

  ghost function ModelsOf(rows: set<Message>): set<ModelKey> {
    set m | m in rows && HasModel(m) :: ModelOf(m)
  }

  ghost function EntryOf(rows: set<Message>): ModelEntry {
    ModelEntry(Sum(ModelColumns, rows), |SessionIds(rows)|, CostOf(rows))
  }

  /** One pass over the rows: what a live source answers, and what the merged list must be. */
  ghost function ModelList(rows: set<Message>): map<ModelKey, ModelEntry> {
    map key | key in ModelsOf(rows) :: EntryOf(RowsOf(rows, key))
  }

  // ---- the cached half ----

  function OnlyModel(key: ModelKey): Selection {
    Selection(NO_FILTER, AnyTime, Some(key))
  }

  lemma OnlyRowsOf(rows: set<Message>, key: ModelKey)
    ensures Matching(rows, OnlyModel(key)) == RowsOf(rows, key)
  {
  }

  /** The models with requests in the window, from the hourly table and the edges. */
  method ReadModels(db: Database, start: int, end: int, ghost rows: set<Message>) returns (keys: set<ModelKey>)
    requires Sees(db, rows, start, end)
    ensures keys == ModelsOf(Window(rows, start, end))
  {
    hide Sum, MeasureOf, Applies, KeyOf, SplitOverviewMillis, Covered, EdgeRows, ToolRows, SessionRows, ModelsOf,
         Selection.Matches, Selection.MatchesKey;
    var all, parts := SelectAll(NO_FILTER), SplitOverviewMillis(start, end);
    CoveredIsTheWindow(rows, start, end);
    SeesItsParts(db, rows, start, end);
    keys := {};
    NoModels();
    if parts.HasFullHours() {
      FullHours(HourlyUsage, db, parts, all);
      var hours := KeysIn(db.rollups[HourlyUsage], parts.full, all);
      ModelsOfKeys(db.messages, hours);
      CountedModels(Window(db.messages, parts.full.start, parts.full.end));
      CoveredByFullHours(rows, parts);
      keys := set k | k in hours :: ModelKey(k.model, k.provider);
    }
    for i := 0 to |parts.edges|
      invariant keys == ModelsOf(Covered(rows, parts, i))
    {
      var edge := parts.edges[i];
      ModelsOfEdge(db.messages, parts, i);
      ModelsOfUnion(Covered(rows, parts, i), EdgeRows(rows, parts, i));
      keys := keys + set m | m in db.messages && edge.start <= m.time < edge.end && HasModel(m) :: ModelOf(m);
    }
  }

  lemma NoModels()
    ensures ModelsOf({}) == {}
  {
  }

  lemma ModelsOfUnion(a: set<Message>, b: set<Message>)
    ensures ModelsOf(a + b) == ModelsOf(a) + ModelsOf(b)
  {
  }

  lemma ModelsOfEdge(rows: set<Message>, parts: WindowParts, i: nat)
    requires i < |parts.edges|
    ensures var edge := parts.edges[i];
            (set m | m in rows && edge.start <= m.time < edge.end && HasModel(m) :: ModelOf(m)) == ModelsOf(EdgeRows(rows, parts, i))
  {
  }

  lemma CountedModels(rows: set<Message>)
    ensures ModelsOf(Counted(HourlyUsage, rows, SelectAll(NO_FILTER))) == ModelsOf(rows)
  {
  }

  lemma ModelsOfKeys(rows: set<Message>, keys: set<GroupKey>)
    requires keys <= Keys(HourlyUsage, rows)
    ensures (set k | k in keys :: ModelKey(k.model, k.provider)) == ModelsOf(Filed(HourlyUsage, rows, keys))
  {
    forall k | k in keys
      ensures ModelKey(k.model, k.provider) in ModelsOf(Filed(HourlyUsage, rows, keys))
    {
      var m :| m in rows && Applies(HourlyUsage, m) && KeyOf(HourlyUsage, m) == k;
      assert m in Filed(HourlyUsage, rows, keys);
    }
  }

  /** The models of the window with totals, sessions and costs, each read in its own statements. */
  method StoreModels(dbAt: nat -> Database, span: Span, ghost log: set<Message>) returns (models: map<ModelKey, ModelEntry>)
    requires forall k :: Sees(dbAt(k), log, span.start, span.end)
    ensures models == ModelList(Window(log, span.start, span.end))
  {
    hide Sees, Sum, CostOf, Summary, CountsOf, MeasureOf, RowsOf, Selection.Matches, EntryOf;
    var keys := ReadModels(dbAt(MODELS), span.start, span.end, log);
    models := map[];
    var todo := keys;
    ghost var rows := Window(log, span.start, span.end);
    while todo != {}
      invariant todo <= keys && models.Keys == keys - todo
      invariant forall key :: key in models ==> models[key] == EntryOf(RowsOf(rows, key))
      decreases todo
    {
      var key :| key in todo;
      var entry := StoreModel(dbAt, span, key, log);
      models := models[key := entry];
      todo := todo - {key};
    }
  }

  const MODELS: nat := 9

  method StoreModel(dbAt: nat -> Database, span: Span, key: ModelKey, ghost log: set<Message>) returns (entry: ModelEntry)
    requires forall k :: Sees(dbAt(k), log, span.start, span.end)
    ensures entry == EntryOf(RowsOf(Window(log, span.start, span.end), key))
  {
    hide Sees, Sum, CountsOf, Summary, RowsOf, Selection.Matches;
    ghost var rows := Window(log, span.start, span.end);
    var only := OnlyModel(key);
    CountedIsMatching(rows, only);
    OnlyRowsOf(rows, key);
    CountsAreSound(RowsOf(rows, key));
    var totals := ReadTotals(dbAt, TOTALS, span.start, span.end, only, log);
    var sessions := ReadSessions(dbAt(SESSIONS), span.start, span.end, only, log);
    var counts := ReadCosts(dbAt(COSTS), span.start, span.end, only, log);
    var costs := counts.Result();
    entry := ModelEntry(totals, |sessions|, costs);
  }

  // ---- the live half ----

  /** The sessions of the gap messages by model. */
  method GapSessionsByModel(gap: seq<Message>) returns (sessions: map<ModelKey, set<string>>)
    ensures sessions.Keys == ModelsOf(Elements(gap))
    ensures forall key :: key in sessions ==> sessions[key] == SessionIds(RowsOf(Elements(gap), key))
  {
    hide RowsOf, ModelsOf;
    sessions := map[];
    assert Elements(gap[..0]) == {};
    NoModels();
    for i := 0 to |gap|
      invariant sessions.Keys == ModelsOf(Elements(gap[..i]))
      invariant forall key :: key in sessions ==> sessions[key] == SessionIds(RowsOf(Elements(gap[..i]), key))
    {
      var m := gap[i];
      assert gap[..i + 1] == gap[..i] + [m];
      assert Elements(gap[..i + 1]) == Elements(gap[..i]) + {m};
      ModelsGrow(Elements(gap[..i]), m);
      if m.role == ASSISTANT && m.model != "" {
        var key := ModelOf(m);
        var known := if key in sessions then sessions[key] else {};
        sessions := sessions[key := known + {m.session}];
      }
    }
    assert gap[..|gap|] == gap;
  }

  lemma ModelsGrow(rows: set<Message>, m: Message)
    ensures ModelsOf(rows + {m}) == ModelsOf(rows) + if HasModel(m) then {ModelOf(m)} else {}
    ensures forall key :: SessionIds(RowsOf(rows + {m}, key))
                          == SessionIds(RowsOf(rows, key)) + if HasModel(m) && key == ModelOf(m) then {m.session} else {}
    ensures forall key :: key !in ModelsOf(rows) ==> SessionIds(RowsOf(rows, key)) == {}
  {
    forall key
      ensures RowsOf(rows + {m}, key) == if HasModel(m) && key == ModelOf(m) then RowsOf(rows, key) + {m} else RowsOf(rows, key)
      ensures key !in ModelsOf(rows) ==> RowsOf(rows, key) == {}
    {
    }
  }

  // ---- the merged list ----

  /** A merged entry counts the served and the live requests, and is exact when the cache served all of the model's. */
  ghost predicate IsMergedEntry(entry: ModelEntry, key: ModelKey, served: set<Message>, cachedRows: set<Message>,
                                gapRows: set<Message>) {
    && entry.totals.messages == |RowsOf(served + gapRows, key)|
    && (RowsOf(served, key) == RowsOf(cachedRows, key) ==> entry == EntryOf(RowsOf(cachedRows + gapRows, key)))
  }

  /** Adds the live entries to those the cache served; a session on both sides of the cutoff counts once per model. */
  method MergeModels(dbAt: nat -> Database, window: Span, cached: map<ModelKey, ModelEntry>, live: map<ModelKey, ModelEntry>,
                     gap: seq<Message>, ghost cachedRows: set<Message>, ghost served: set<Message>)
    returns (merged: map<ModelKey, ModelEntry>)
    requires forall k :: Window(dbAt(k).messages, window.start, window.end) == cachedRows
    requires served <= cachedRows && cached == ModelList(served)
    requires live == ModelList(Elements(gap)) && cachedRows !! Elements(gap)
    ensures merged.Keys == ModelsOf(served + Elements(gap))
    ensures forall key :: key in merged ==> IsMergedEntry(merged[key], key, served, cachedRows, Elements(gap))
  {
    hide Sum, CostOf, RowsOf, ModelsOf, EntryOf, MergeCost, Totals.Plus, SessionIds, IsMergedEntry;
    ghost var gapRows := Elements(gap);
    var gapSessions := GapSessionsByModel(gap);
    merged := cached;
    ModelsOfUnion(served, gapRows);
    forall key | key in cached
      ensures key !in ModelsOf(gapRows) ==> IsMergedEntry(cached[key], key, served, cachedRows, gapRows)
    {
      CachedOnlyModel(served, cachedRows, gapRows, key);
    }
    var todo := live.Keys;
    while todo != {}
      invariant todo <= live.Keys && merged.Keys == cached.Keys + (live.Keys - todo)
      invariant forall key :: key in cached && key in todo ==> merged[key] == cached[key]
      invariant forall key :: key in merged && key !in todo ==> IsMergedEntry(merged[key], key, served, cachedRows, gapRows)
      decreases todo
    {
      var key :| key in todo;
      var entry := MergeModel(dbAt, window, key, if key in merged then Some(merged[key]) else None,
                              live[key], gapSessions[key], cachedRows, served, gapRows);
      merged := merged[key := entry];
      todo := todo - {key};
    }
  }

  method MergeModel(dbAt: nat -> Database, window: Span, key: ModelKey, known: Option<ModelEntry>,
                    gapEntry: ModelEntry, gapSessions: set<string>,
                    ghost cachedRows: set<Message>, ghost served: set<Message>, ghost gapRows: set<Message>)
    returns (entry: ModelEntry)
    requires served <= cachedRows && forall k :: Window(dbAt(k).messages, window.start, window.end) == cachedRows
    requires cachedRows !! gapRows && gapEntry == EntryOf(RowsOf(gapRows, key)) && gapSessions == SessionIds(RowsOf(gapRows, key))
    requires if known.Some? then known.value == EntryOf(RowsOf(served, key)) else key !in ModelsOf(served)
    ensures IsMergedEntry(entry, key, served, cachedRows, gapRows)
  {
    hide Sum, CostOf, RowsOf, ModelsOf, EntryOf, MergeCost, Totals.Plus, SessionIds;
    var before := if known.Some? then known.value else NO_USE;
    var overlap := 0;
    NoRowsOf(served, key);
    if known.Some? && before.sessions > 0 {
      var ids := Listed(gapSessions);
      OnlyRowsOf(cachedRows, key);
      overlap := DistinctSessionOverlap(dbAt, window.start, window.end, ids, OnlyModel(key), cachedRows);
    }
    MergedModel(served, cachedRows, gapRows, key, before, gapEntry, overlap);
    entry := ModelEntry(before.totals.Plus(gapEntry.totals), before.sessions + gapEntry.sessions - overlap,
                        MergeCost(before.costs, gapEntry.costs));
  }

  lemma NoRowsOf(rows: set<Message>, key: ModelKey)
    ensures key !in ModelsOf(rows) ==> EntryOf(RowsOf(rows, key)) == NO_USE
  {
    if key !in ModelsOf(rows) {
      assert RowsOf(rows, key) == {};
      SumEmpty(ModelColumns);
      NothingCounted();
      assert SessionIds({}) == {};
    }
  }

  /** An entry of both halves: disjoint rows add up, shared sessions count once. */
  lemma MergedModel(served: set<Message>, cachedRows: set<Message>, gapRows: set<Message>, key: ModelKey, cached: ModelEntry,
                    gapEntry: ModelEntry, overlap: nat)
    requires served <= cachedRows && cachedRows !! gapRows
    requires cached == EntryOf(RowsOf(served, key)) && gapEntry == EntryOf(RowsOf(gapRows, key))
    requires overlap == if cached.sessions == 0 then 0
                        else |SessionIds(RowsOf(gapRows, key)) * SessionIds(RowsOf(cachedRows, key))|
    ensures 0 <= cached.sessions + gapEntry.sessions - overlap
    ensures IsMergedEntry(ModelEntry(cached.totals.Plus(gapEntry.totals), cached.sessions + gapEntry.sessions - overlap,
                                     MergeCost(cached.costs, gapEntry.costs)),
                          key, served, cachedRows, gapRows)
  {
    var a, b := RowsOf(served, key), RowsOf(gapRows, key);
    RowsOfHalves(served, cachedRows, gapRows, key);
    SharedIsPart(SessionIds(a), SessionIds(b), SessionIds(RowsOf(cachedRows, key)));
    hide Sum, CostOf, MergeCost, Totals.Plus, RowsOf, SessionIds;
    SumCounts(ModelColumns, a);
    SumCounts(ModelColumns, b);
    MessagesAdd(Sum(ModelColumns, a), Sum(ModelColumns, b));
    EntryOfBothHalves(a, b);
  }

  lemma SharedIsPart(a: set<string>, b: set<string>, c: set<string>)
    ensures |b * c| <= |b| && (|a| == 0 ==> b * a == {})
  {
    SubsetIsSmaller(b * c, b);
  }

  lemma EntryOfBothHalves(a: set<Message>, b: set<Message>)
    requires a !! b
    ensures 0 <= |SessionIds(a)| + |SessionIds(b)| - |SessionIds(b) * SessionIds(a)|
    ensures EntryOf(a + b)
            == ModelEntry(Sum(ModelColumns, a).Plus(Sum(ModelColumns, b)),
                          |SessionIds(a)| + |SessionIds(b)| - |SessionIds(b) * SessionIds(a)|,
                          MergeCost(CostOf(a), CostOf(b)))
  {
    hide Sum, CountsOf, Summary, Totals.Plus, MergeCost, SessionIds;
    SumDisjoint(ModelColumns, a, b);
    MergedCostIsExact(a, b);
    MergedSessions(a, b);
  }

  lemma RowsOfHalves(served: set<Message>, cachedRows: set<Message>, gapRows: set<Message>, key: ModelKey)
    requires served <= cachedRows && cachedRows !! gapRows
    ensures RowsOf(served, key) !! RowsOf(gapRows, key)
    ensures RowsOf(served + gapRows, key) == RowsOf(served, key) + RowsOf(gapRows, key)
    ensures RowsOf(cachedRows + gapRows, key) == RowsOf(cachedRows, key) + RowsOf(gapRows, key)
    ensures |RowsOf(served + gapRows, key)| == |RowsOf(served, key)| + |RowsOf(gapRows, key)|
  {
    assert RowsOf(served + gapRows, key) == RowsOf(served, key) + RowsOf(gapRows, key);
  }

  lemma CachedOnlyModel(served: set<Message>, cachedRows: set<Message>, gapRows: set<Message>, key: ModelKey)
    ensures key !in ModelsOf(gapRows) ==> IsMergedEntry(EntryOf(RowsOf(served, key)), key, served, cachedRows, gapRows)
  {
    hide Sum, CostOf;
    if key !in ModelsOf(gapRows) {
      assert RowsOf(served + gapRows, key) == RowsOf(served, key);
      assert RowsOf(cachedRows + gapRows, key) == RowsOf(cachedRows, key);
      SumCounts(ModelColumns, RowsOf(served, key));
    }
  }

  /** The clamp leaves out no request of the cached half that has a model. */
  ghost predicate NoModelLost(log: set<Message>, sp: SplitWindows, clamp: Option<int>) {
    || clamp.None? || sp.cutoff.None? || sp.cutoff.value <= clamp.value
    || forall m :: m in log && HasModel(m) && sp.CacheWindow().start <= m.time < sp.CacheWindow().end ==>
         m.time < clamp.value
  }

  lemma WhenNoModelIsLost(log: set<Message>, sp: SplitWindows, clamp: Option<int>, pq: PeriodQuery, now: int)
    requires SplitPeriod(pq, sp.cutoff, now) == Ok(sp) && sp.hasCache && sp.cutoff.Some?
    ensures NoModelLost(log, sp, clamp)
            <==> forall m :: m in CachedRows(log, sp) && HasModel(m) ==> m in ServedRows(log, sp, clamp)
  {
    CacheEndsByTheCutoff(sp, pq, sp.cutoff.value, now);
    hide SplitPeriod, SplitWindows.CacheWindow, HasModel;
    if forall m :: m in CachedRows(log, sp) && HasModel(m) ==> m in ServedRows(log, sp, clamp) {
      forall m | m in log && HasModel(m) && clamp.Some? && sp.CacheWindow().start <= m.time < sp.CacheWindow().end
        ensures m.time < clamp.value
      {
        assert m in CachedRows(log, sp);
        assert m in ServedRows(log, sp, clamp);
      }
    }
  }

  /** Requests without a model do not matter to the list. */
  lemma OnlyModelsMatter(a: set<Message>, b: set<Message>)
    requires a <= b && forall m :: m in b && HasModel(m) ==> m in a
    ensures ModelList(a) == ModelList(b) && forall key :: RowsOf(a, key) == RowsOf(b, key)
  {
    forall key
      ensures RowsOf(a, key) == RowsOf(b, key)
    {
    }
    assert ModelsOf(a) == ModelsOf(b);
    hide EntryOf, RowsOf;
  }

  /** A list that counts only some requests with models is not the list of all. */
  lemma AModelIsMissing(models: map<ModelKey, ModelEntry>, some: set<Message>, all: set<Message>)
    requires some <= all && models.Keys == ModelsOf(some)
    requires forall key :: key in models ==> models[key].totals.messages == |RowsOf(some, key)|
    ensures models == ModelList(all) ==> forall m :: m in all && HasModel(m) ==> m in some
  {
    hide Sum, CostOf, HasModel;
    if models == ModelList(all) {
      assert models.Keys == ModelsOf(all);
      forall m | m in all && HasModel(m)
        ensures m in some
      {
        var key := ModelOf(m);
        assert key in ModelsOf(all);
        SumCounts(ModelColumns, RowsOf(all, key));
        assert RowsOf(some, key) <= RowsOf(all, key);
        EqualSizes(RowsOf(some, key), RowsOf(all, key));
        assert m in RowsOf(all, key);
      }
    }
  }

  /**
   The model list of a request with a cached half, under the freedom of every statement
   to see a later database, is the group-by of one pass over the raw log, tokens included,
   exactly when the clamp leaves out no request with a model: both halves count
   model-attributed tokens. The live list and the gap rows are taken from the same log.
   */
  method CachedModels(pq: PeriodQuery, now: int, splitDb: Database, dbAt: nat -> Database, clamp: Option<int>,
                      sp: SplitWindows,
                      live: map<ModelKey, ModelEntry>, raw: seq<Message>, ghost log: set<Message>)
    returns (models: map<ModelKey, ModelEntry>)
    requires 0 < Recorded(splitDb.state) <= now
    requires SplitPeriod(pq, CutoffOf(splitDb), now) == Ok(sp) && sp.hasCache
    requires forall k :: Consistent(dbAt(k), log, Recorded(splitDb.state))
    requires forall i, j :: 0 <= i < j < |raw| ==> raw[i] != raw[j]
    requires FetchedGap(pq, now, splitDb, Elements(raw), log)
    requires sp.hasLive ==> live == ModelList(Window(log, sp.GapStart(), sp.end))
    ensures models == ModelList(RequestedRows(log, sp.start, sp.end, NO_FILTER)) <==> NoModelLost(log, sp, clamp)
  {
    hide Sum, CostOf, Consistent, ModelList, SplitPeriod, SplitWindows.CacheWindow, NoModelLost, HasModel,
         ServedRows, EntryOf,
         RowsOf, ModelsOf;
    ghost var cutoff := Recorded(splitDb.state);
    ghost var cachedRows, served := CachedRows(log, sp), ServedRows(log, sp, clamp);
    var span := CachedWindow(dbAt, sp, now, clamp, pq, cutoff, log);
    var cached := StoreModels(dbAt, span, log);
    RequestedIsBothHalves(pq, cutoff, now, log, Elements(raw), NO_FILTER);
    SplitKeepsTheWindow(pq, cutoff, now);
    CacheEndsByTheCutoff(sp, pq, cutoff, now);
    WhenNoModelIsLost(log, sp, clamp, pq, now);
    ServedArePart(log, sp, clamp);
    AllMatch(cachedRows);
    if !sp.hasLive {
      assert cachedRows + {} == cachedRows;
      CachedListIsMerged(cached, served, cachedRows);
      MergedListIs(cached, served, cachedRows, {});
      return cached;
    }
    var gap := FilterGap(raw, NO_FILTER, sp.GapStart(), sp.end);
    GapIsLate(Elements(raw), NO_FILTER, sp.GapStart(), sp.end, gap);
    AllMatch(Window(log, sp.GapStart(), sp.end));
    assert Elements(gap) == Window(log, sp.GapStart(), sp.end);
    var window := sp.CacheWindow();
    forall k: nat
      ensures Window(dbAt(k).messages, window.start, window.end) == cachedRows
    {
      assert Consistent(dbAt(k), log, cutoff);
      SeesBelow(dbAt(k), log, cutoff, window);
    }
    models := MergeModels(dbAt, window, cached, live, gap, cachedRows, served);
    MergedListIs(models, served, cachedRows, Elements(gap));
  }

  lemma ServedArePart(log: set<Message>, sp: SplitWindows, clamp: Option<int>)
    ensures ServedRows(log, sp, clamp) <= CachedRows(log, sp)
  {
  }

  lemma CachedListIsMerged(cached: map<ModelKey, ModelEntry>, served: set<Message>, cachedRows: set<Message>)
    requires cached == ModelList(served)
    ensures cached.Keys == ModelsOf(served + {})
    ensures forall key :: key in cached ==> IsMergedEntry(cached[key], key, served, cachedRows, {})
  {
    hide EntryOf, IsMergedEntry;
    NoModels();
    assert served + {} == served;
    forall key | key in cached
      ensures IsMergedEntry(cached[key], key, served, cachedRows, {})
    {
      CachedOnlyModel(served, cachedRows, {}, key);
    }
  }

  /** The merged list is that of all rows exactly when the cache served all requests that have a model. */
  lemma MergedListIs(models: map<ModelKey, ModelEntry>, served: set<Message>, cachedRows: set<Message>,
                     gapRows: set<Message>)
    requires served <= cachedRows && cachedRows !! gapRows && models.Keys == ModelsOf(served + gapRows)
    requires forall key :: key in models ==> IsMergedEntry(models[key], key, served, cachedRows, gapRows)
    ensures models == ModelList(cachedRows + gapRows) <==> forall m :: m in cachedRows && HasModel(m) ==> m in served
  {
    forall key | key in models
      ensures models[key].totals.messages == |RowsOf(served + gapRows, key)|
    {
      assert IsMergedEntry(models[key], key, served, cachedRows, gapRows);
    }
    AModelIsMissing(models, served + gapRows, cachedRows + gapRows);
    if forall m :: m in cachedRows && HasModel(m) ==> m in served {
      OnlyModelsMatter(served, cachedRows);
      OnlyModelsMatter(served + gapRows, cachedRows + gapRows);
      hide EntryOf, RowsOf, HasModel;
      forall key | key in models
        ensures models[key] == EntryOf(RowsOf(cachedRows + gapRows, key))
      {
        assert IsMergedEntry(models[key], key, served, cachedRows, gapRows);
      }
    }
  }
}
