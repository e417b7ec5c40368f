/**
 The memo of a source's watermark row. Readers that miss it read the row outside the
 lock and seed the memo afterwards; writers invalidate it after their commit. A
 generation number keeps a read that began before an invalidation from seeding.
 */
module StateMemo {
  import opened Common

  // ---- the guarded sections ----

  /** The watermark row: the time of the last sync and the finality cutoff. */
  datatype Row = Row(lastSyncedMs: int, cutoffMs: int)

  datatype Memo = Memo(row: Option<Row>, generation: nat)

  function Invalidated(m: Memo): Memo {
    Memo(None, m.generation + 1)
  }

  function Seeded(m: Memo, generation: nat, row: Row): Memo {
    if m.generation == generation then m.(row := Some(row)) else m
  }

  /** What a reader finds under the lock: the memoised row, or the generation it must seed under. */
  datatype Lookup = Hit(row: Row) | Miss(generation: nat)

  function LookedUp(m: Memo): Lookup {
    if m.row.Some? then Hit(m.row.value) else Miss(m.generation)
  }

  class MemoStore {
    var stateMemo: map<string, Row>
    var memoGen: map<string, nat>

    function Of(source: string): Memo
      reads this
    {
      Memo(if source in stateMemo then Some(stateMemo[source]) else None, if source in memoGen then memoGen[source] else 0)
    }

    constructor ()
      ensures forall source :: Of(source) == Memo(None, 0)
    {
      stateMemo, memoGen := map[], map[];
    }

    method InvalidateStateMemo(source: string)
      requires source != ""
      modifies this
      ensures Of(source) == Invalidated(old(Of(source)))
      ensures forall other :: other != source ==> Of(other) == old(Of(other))
    {
      stateMemo := stateMemo - {source};
      var generation := if source in memoGen then memoGen[source] else 0;
      memoGen := memoGen[source := generation + 1];
    }

    method LookUp(source: string) returns (found: Lookup)
      ensures found == LookedUp(Of(source))
    {
      if source in stateMemo {
        return Hit(stateMemo[source]);
      }
      found := Miss(if source in memoGen then memoGen[source] else 0);
    }

    method Seed(source: string, generation: nat, row: Row)
      modifies this
      ensures Of(source) == Seeded(old(Of(source)), generation, row)
      ensures forall other :: other != source ==> Of(other) == old(Of(other))
    {
      if (if source in memoGen then memoGen[source] else 0) == generation {
        stateMemo := stateMemo[source := row];
      }
    }
  }

  // ---- any number of readers and writers of one source ----

  /**
   Where a thread is: a reader that missed the memo, one that has read the row, a
   writer that has committed. A reader remembers the last commit invalidated when it
   began; commits are numbered, and row k is the row after commit k.
   */
  datatype Pc = Missed(generation: nat, since: nat) | HasRow(generation: nat, version: nat, since: nat) | Committed(version: nat)

  datatype World = World(rows: seq<Row>, memo: Memo, memoVersion: nat, invalidated: nat, threads: map<nat, Pc>)

  /** A read that hits the memo is one step; one that misses it begins, reads the row, and ends by seeding. */
  datatype Step =
    | Commit(t: nat, row: Row) | Invalidate(t: nat) | UseMemo | Begin(t: nat) | ReadRow(t: nat) | End(t: nat)

  predicate Can(w: World, step: Step) {
    match step
    case Commit(t, _) => t !in w.threads
    case UseMemo => LookedUp(w.memo).Hit?
    case Begin(t) => t !in w.threads && LookedUp(w.memo).Miss?
    case Invalidate(t) => t in w.threads && w.threads[t].Committed?
    case ReadRow(t) => t in w.threads && w.threads[t].Missed? && w.rows != []
    case End(t) => t in w.threads && w.threads[t].HasRow? && w.threads[t].version < |w.rows|
  }

  function Do(w: World, step: Step): World
    requires Can(w, step)
  {
    match step
    case Commit(t, row) => w.(rows := w.rows + [row], threads := w.threads[t := Committed(|w.rows|)])
    case Invalidate(t) =>
      var version := w.threads[t].version;
      w.(memo := Invalidated(w.memo), invalidated := if version > w.invalidated then version else w.invalidated,
         threads := w.threads - {t})
    case UseMemo => w
    case Begin(t) => w.(threads := w.threads[t := Missed(LookedUp(w.memo).generation, w.invalidated)])
    case ReadRow(t) =>
      w.(threads := w.threads[t := HasRow(w.threads[t].generation, |w.rows| - 1, w.threads[t].since)])
    case End(t) =>
      var pc := w.threads[t];
      var memo := Seeded(w.memo, pc.generation, w.rows[pc.version]);
      w.(memo := memo, memoVersion := if w.memo.generation == pc.generation then pc.version else w.memoVersion,
         threads := w.threads - {t})
  }

  /** The source has a row before anyone reads it. */
  function Start(first: Row): World {
    World([first], Memo(None, 0), 0, 0, map[])
  }

  /** The memo holds the row of a commit no older than the last one whose invalidation has finished. */
  predicate MemoIsRecent(w: World) {
    w.memo.row.Some? ==> w.invalidated <= w.memoVersion < |w.rows| && w.memo.row.value == w.rows[w.memoVersion]
  }

  ghost predicate ThreadsOk(w: World) {
    forall t :: t in w.threads ==>
      match w.threads[t]
      case Missed(generation, since) => generation <= w.memo.generation && since <= w.invalidated
      case HasRow(generation, version, since) =>
        generation <= w.memo.generation && since <= version < |w.rows|
        && (generation == w.memo.generation ==> w.invalidated <= version)
      case Committed(version) => version < |w.rows|
  }

  ghost predicate Sound(w: World) {
    w.rows != [] && w.invalidated < |w.rows| && MemoIsRecent(w) && ThreadsOk(w)
  }

  lemma StepKeepsSound(w: World, step: Step)
    requires Can(w, step) && Sound(w)
    ensures Sound(Do(w, step))
  {
  }

  ghost predicate IsRun(worlds: seq<World>, steps: seq<Step>, first: Row) {
    && |worlds| == |steps| + 1 && worlds[0] == Start(first)
    && forall i :: 0 <= i < |steps| ==> Can(worlds[i], steps[i]) && worlds[i + 1] == Do(worlds[i], steps[i])
  }

  lemma {:induction false} EveryWorldIsSound(worlds: seq<World>, steps: seq<Step>, first: Row, n: nat)
    requires IsRun(worlds, steps, first) && n <= |steps|
    ensures Sound(worlds[n])
    decreases n
  {
    hide Do, Can, Sound;
    if n == 0 {
      StartIsSound(first);
    } else {
      EveryWorldIsSound(worlds, steps, first, n - 1);
      StepKeepsSound(worlds[n - 1], steps[n - 1]);
    }
  }

  lemma StartIsSound(first: Row)
    ensures Sound(Start(first))
  {
  }

  /**
   With any number of readers and writers: a memoised row is never older than the last
   commit whose invalidation has finished, and neither is the row a read returns,
   counting the commits invalidated before it began.
   */
  lemma ReadsAreNeverOlderThanAnInvalidation(worlds: seq<World>, steps: seq<Step>, first: Row, n: nat)
    requires IsRun(worlds, steps, first) && n <= |steps|
    ensures MemoIsRecent(worlds[n])
    ensures forall t :: t in worlds[n].threads && worlds[n].threads[t].HasRow? ==>
              worlds[n].threads[t].since <= worlds[n].threads[t].version < |worlds[n].rows|
  {
    EveryWorldIsSound(worlds, steps, first, n);
  }

  /** A row that an invalidation has overtaken does not reach the memo. */
  lemma AnOldRowIsNotSeeded(w: World, t: nat)
    requires Sound(w) && Can(w, End(t)) && w.threads[t].version < w.invalidated
    ensures Do(w, End(t)).memo == w.memo && w.threads[t].generation != w.memo.generation
  {
  }

  // ---- two reads of one request ----

  /** The version of the row that a step takes for a read. */
  function Taken(w: World, step: Step): Option<nat>
    requires Sound(w) && Can(w, step)
  {
    match step
    case UseMemo => Some(w.memoVersion)
    case ReadRow(_) => Some(|w.rows| - 1)
    case _ => None
  }

  /** Some continuation, ending in a read, takes a row older than the given version. */
  ghost predicate TakesOlder(w: World, steps: seq<Step>, version: nat)
    requires Sound(w)
    decreases |steps|
  {
    && steps != [] && Can(w, steps[0])
    && (var taken := Taken(w, steps[0]);
        StepKeepsSound(w, steps[0]);
        (taken.Some? && taken.value < version) || TakesOlder(Do(w, steps[0]), steps[1..], version))
  }

  /** The memo holds an older row, or a reader holds one that it may still seed. */
  ghost predicate MayGoBack(w: World, version: nat) {
    || (w.memo.row.Some? && w.memoVersion < version)
    || exists t :: SeedsOlder(w, version, t)
  }

  predicate SeedsOlder(w: World, version: nat, t: nat) {
    t in w.threads && w.threads[t].HasRow? && w.threads[t].generation == w.memo.generation && w.threads[t].version < version
  }

  /**
   After a read has taken a row, a later read can take an older one exactly when the
   memo holds an older row or a reader of the current generation is about to seed one.
   */
  lemma WhenALaterReadGoesBack(w: World, version: nat)
    requires Sound(w) && version < |w.rows|
    ensures (exists steps :: TakesOlder(w, steps, version)) <==> MayGoBack(w, version)
  {
    hide *;
    if MayGoBack(w, version) {
      var steps := ReadsAnOldRow(w, version);
      assert TakesOlder(w, steps, version);
    }
    if exists steps :: TakesOlder(w, steps, version) {
      var steps :| TakesOlder(w, steps, version);
      OlderReadsNeedAnOldRow(w, steps, version);
    }
  }

  lemma ReadsAnOldRow(w: World, version: nat) returns (steps: seq<Step>)
    requires Sound(w) && MayGoBack(w, version)
    ensures TakesOlder(w, steps, version)
  {
    if w.memo.row.Some? && w.memoVersion < version {
      steps := [UseMemo];
    } else {
      var t :| SeedsOlder(w, version, t);
      StepKeepsSound(w, End(t));
      assert TakesOlder(Do(w, End(t)), [UseMemo], version);
      steps := [End(t), UseMemo];
      assert steps[1..] == [UseMemo];
    }
  }

  lemma {:induction false} OlderReadsNeedAnOldRow(w: World, steps: seq<Step>, version: nat)
    requires Sound(w) && version < |w.rows| && TakesOlder(w, steps, version)
    ensures MayGoBack(w, version)
    decreases |steps|
  {
    var step := steps[0];
    StepKeepsSound(w, step);
    if !(Taken(w, step).Some? && Taken(w, step).value < version) {
      OlderReadsNeedAnOldRow(Do(w, step), steps[1..], version);
      OldRowsAreNotNew(w, step, version);
    }
  }

  /** No step makes an older row available again. */
  lemma OldRowsAreNotNew(w: World, step: Step, version: nat)
    requires Sound(w) && Can(w, step) && version < |w.rows|
    ensures MayGoBack(Do(w, step), version) ==> MayGoBack(w, version)
  {
    var after := Do(w, step);
    if !(after.memo.row.Some? && after.memoVersion < version) {
      if t :| SeedsOlder(after, version, t) {
        assert SeedsOlder(w, version, t);
      }
    } else if step.End? {
      assert (w.memo.row.Some? && w.memoVersion < version) || SeedsOlder(w, version, step.t);
    }
  }

  /** The writer of a commit has not invalidated the memo yet. */
  ghost predicate Pending(w: World, version: nat) {
    exists t :: t in w.threads && w.threads[t] == Committed(version)
  }

  ghost predicate NewerArePending(w: World) {
    forall version: nat :: w.invalidated < version < |w.rows| ==> Pending(w, version)
  }

  lemma StepKeepsPending(w: World, step: Step)
    requires Can(w, step) && Sound(w) && NewerArePending(w)
    ensures NewerArePending(Do(w, step))
  {
    var after := Do(w, step);
    forall version: nat | after.invalidated < version < |after.rows|
      ensures Pending(after, version)
    {
      if version == |w.rows| {
        assert step.Commit? && step.t in after.threads && after.threads[step.t] == Committed(version);
      } else {
        assert Pending(w, version);
        var t :| t in w.threads && w.threads[t] == Committed(version);
        assert t in after.threads && after.threads[t] == Committed(version);
      }
    }
  }

  lemma {:induction false} EveryWorldHasPending(worlds: seq<World>, steps: seq<Step>, first: Row, n: nat)
    requires IsRun(worlds, steps, first) && n <= |steps|
    ensures NewerArePending(worlds[n])
    decreases n
  {
    hide Do, Can, Sound, NewerArePending;
    if n == 0 {
      NoneArePending(first);
    } else {
      EveryWorldHasPending(worlds, steps, first, n - 1);
      EveryWorldIsSound(worlds, steps, first, n - 1);
      StepKeepsPending(worlds[n - 1], steps[n - 1]);
    }
  }

  lemma NoneArePending(first: Row)
    ensures NewerArePending(Start(first))
  {
  }

  /**
   Reads of one request go back only between a commit and its invalidation: while a
   later read can take an older row, the writer of the row taken has not finished.
   */
  lemma GoingBackNeedsAPendingWriter(worlds: seq<World>, steps: seq<Step>, first: Row, n: nat, version: nat)
    requires IsRun(worlds, steps, first) && n <= |steps| && version < |worlds[n].rows|
    requires MayGoBack(worlds[n], version)
    ensures worlds[n].invalidated < version && Pending(worlds[n], version)
  {
    EveryWorldIsSound(worlds, steps, first, n);
    EveryWorldHasPending(worlds, steps, first, n);
  }

  predicate Leads(w: World, step: Step, next: World) {
    Can(w, step) && Do(w, step) == next
  }

  /** Two readers and a writer, before and after each step of the run below. */
  function Stage(old0: Row, new1: Row, k: nat): World {
    var begun := World([old0, new1], Memo(None, 0), 0, 0, map[1 := HasRow(0, 0, 0), 2 := Committed(1)]);
    match k
    case 0 => Start(old0)
    case 1 => Start(old0).(threads := map[1 := Missed(0, 0)])
    case 2 => Start(old0).(threads := map[1 := HasRow(0, 0, 0)])
    case 3 => begun
    case 4 => begun.(threads := begun.threads[3 := Missed(0, 0)])
    case 5 => begun.(threads := begun.threads[3 := HasRow(0, 1, 0)])
    case 6 => begun.(memo := Memo(Some(new1), 0), memoVersion := 1)
    case 7 => begun.(memo := Memo(Some(new1), 0), memoVersion := 1)
    case _ => begun.(memo := Memo(Some(old0), 0), threads := map[2 := Committed(1)])
  }

  lemma StageZero(old0: Row, new1: Row)
    ensures Stage(old0, new1, 0) == Start(old0)
  {
  }

  lemma TheFirstReaderTakesTheOldRow(old0: Row, new1: Row)
    ensures Leads(Stage(old0, new1, 0), Begin(1), Stage(old0, new1, 1))
    ensures Leads(Stage(old0, new1, 1), ReadRow(1), Stage(old0, new1, 2))
    ensures Leads(Stage(old0, new1, 2), Commit(2, new1), Stage(old0, new1, 3))
  {
  }

  lemma TheSecondReaderSeedsTheNewRow(old0: Row, new1: Row)
    ensures Leads(Stage(old0, new1, 3), Begin(3), Stage(old0, new1, 4))
    ensures Leads(Stage(old0, new1, 4), ReadRow(3), Stage(old0, new1, 5))
    ensures Leads(Stage(old0, new1, 5), End(3), Stage(old0, new1, 6))
  {
    assert Do(Stage(old0, new1, 5), End(3)).threads == Stage(old0, new1, 6).threads;
  }

  lemma TheFirstReaderSeedsTheOldRow(old0: Row, new1: Row)
    ensures Leads(Stage(old0, new1, 6), UseMemo, Stage(old0, new1, 7))
    ensures Leads(Stage(old0, new1, 7), End(1), Stage(old0, new1, 8))
    ensures Leads(Stage(old0, new1, 8), UseMemo, Stage(old0, new1, 8))
    ensures LookedUp(Stage(old0, new1, 6).memo) == Hit(new1) && LookedUp(Stage(old0, new1, 8).memo) == Hit(old0)
  {
    assert Do(Stage(old0, new1, 7), End(1)).threads == Stage(old0, new1, 8).threads;
  }

  /**
   A reader takes row 0, a writer commits row 1, a second reader seeds row 1 and the
   first one then seeds row 0: whoever reads before and after sees the cutoff fall.
   */
  lemma AReadCanGoBack(old0: Row, new1: Row) returns (worlds: seq<World>, steps: seq<Step>)
    ensures IsRun(worlds, steps, old0) && |steps| == 9
    ensures steps[6] == UseMemo && LookedUp(worlds[6].memo) == Hit(new1)
    ensures steps[8] == UseMemo && LookedUp(worlds[8].memo) == Hit(old0)
  {
    hide Do, Can, Stage, LookedUp;
    steps := [Begin(1), ReadRow(1), Commit(2, new1), Begin(3), ReadRow(3), End(3), UseMemo, End(1), UseMemo];
    worlds := seq(10, k requires 0 <= k => Stage(old0, new1, if k == 9 then 8 else k));
    StageZero(old0, new1);
    TheFirstReaderTakesTheOldRow(old0, new1);
    TheSecondReaderSeedsTheNewRow(old0, new1);
    TheFirstReaderSeedsTheOldRow(old0, new1);
    forall i | 0 <= i < |steps|
      ensures Leads(worlds[i], steps[i], worlds[i + 1])
    {
    }
  }
}
