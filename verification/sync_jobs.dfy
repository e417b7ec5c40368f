/**
 The sync-job scheduler: one job at a time, two queues of work that waits for it, and
 any number of threads that notify, tick, sync, change preferences and end jobs. A
 step is one section under the runtime's lock, or a read outside it.
 */
module SyncJobs {
  import opened Common

  type Id = string

  /** What the lock guards: whether a job runs, the queues, the remembered sources; and the jobs started so far. */
  datatype Shared = Shared(
    running: bool, pendingInitial: seq<Id>, pendingPricing: set<Id>, known: set<Id>, jobs: seq<set<Id>>)

  // ---- sections ----

  function StartJob(c: Shared, targets: set<Id>): Shared {
    c.(running := true, jobs := c.jobs + [targets])
  }

  datatype NoticeStatus = NoticeUnavailable | NoticeQueued | NoticeStarted

  /** NotifyPricingChange once the source was seen enabled. */
  function NoticeSection(c: Shared, id: Id): (Shared, NoticeStatus) {
    if id !in c.known then (c, NoticeUnavailable)
    else if c.running then (c.(pendingPricing := c.pendingPricing + {id}), NoticeQueued)
    else (StartJob(c.(pendingPricing := c.pendingPricing - {id}), {id}), NoticeStarted)
  }

  /** startPendingPricingSync. */
  function PricingSection(c: Shared, enabled: set<Id>): (Shared, bool) {
    if c.running || c.pendingPricing == {} then (c, false)
    else
      var targets, drained := c.pendingPricing * c.known * enabled, c.(pendingPricing := c.pendingPricing - c.known);
      if targets == {} then (drained, false) else (StartJob(drained, targets), true)
  }

  function Queued(ids: seq<Id>): set<Id> {
    set id | id in ids
  }

  /** startPendingInitialSync. */
  function InitialSection(c: Shared, enabled: set<Id>): (Shared, bool) {
    if c.running || c.pendingInitial == [] then (c, false)
    else
      var targets, drained := Queued(c.pendingInitial) * c.known * enabled, c.(pendingInitial := []);
      if targets == {} then (drained, false) else (StartJob(drained, targets), true)
  }

  /** runAutoSyncTick, with the sources it found available before it took the lock. */
  function TickSection(c: Shared, available: set<Id>): (Shared, bool) {
    if c.running then (c, false) else (StartJob(c.(pendingInitial := []), available), true)
  }

  /** A manual sync of one source or of all. */
  function SyncSection(c: Shared, enabled: set<Id>, selected: Option<Id>): (Shared, bool) {
    if c.running then (c, false)
    else if selected.None? then (StartJob(c, c.known * enabled), true)
    else if selected.value in c.known * enabled then (StartJob(c, {selected.value}), true)
    else (c, false)
  }

  function QueueSection(c: Shared, enabled: set<Id>, id: Id): Shared {
    if id in enabled && id !in c.pendingInitial then c.(pendingInitial := c.pendingInitial + [id]) else c
  }

  function Dropped(ids: seq<Id>, id: Id): seq<Id> {
    if ids == [] then [] else (if ids[0] == id then [] else [ids[0]]) + Dropped(ids[1..], id)
  }

  /** A preference change, with what the handler read before it took the lock. */
  function PreferenceSection(c: Shared, id: Id, enabled: bool): Shared {
    if enabled then c else c.(pendingPricing := c.pendingPricing - {id}, pendingInitial := Dropped(c.pendingInitial, id))
  }

  function FinishSection(c: Shared): Shared {
    c.(running := false)
  }

  // ---- threads ----

  /** Where a thread is between two sections. */
  datatype Pc =
    | Working
    | PricingTail
    | InitialTail
    | Starting
    | Noticing(id: Id)
    | Ticking(available: set<Id>)
    | Preferences(todo: seq<Id>)
    | PreferenceRead(id: Id, enabled: bool, todo: seq<Id>)
    | Queueing(id: Id, todo: seq<Id>)

  datatype World = World(shared: Shared, enabled: set<Id>, shutdown: bool, threads: map<nat, Pc>)

  datatype Step =
    | Remember(id: Id)
    | ChangePreferences(t: nat, enabled: set<Id>, changed: seq<Id>)
    | Register(t: nat, id: Id)
    | Notify(t: nat, id: Id)
    | Tick(t: nat, available: set<Id>)
    | Sync(t: nat, selected: Option<Id>)
    | Shutdown
    | Run(t: nat, spawned: nat)

  predicate Can(w: World, step: Step) {
    match step
    case ChangePreferences(t, _, _) => t !in w.threads
    case Register(t, _) => t !in w.threads
    case Notify(t, id) => t !in w.threads && id in w.enabled
    case Tick(t, available) => t !in w.threads && available != {} && available <= w.shared.known * w.enabled
    case Sync(t, _) => t !in w.threads
    case Run(t, spawned) => t in w.threads && spawned !in w.threads
    case _ => true
  }

  function Ends(w: World, t: nat): map<nat, Pc> {
    w.threads - {t}
  }

  /** One section of a thread; a thread that starts a job goes on as the job, the job's own tail lets another thread run it. */
  function RunThread(w: World, t: nat, spawned: nat): World
    requires t in w.threads
  {
    match w.threads[t]
    case Working => w.(shared := FinishSection(w.shared), threads := w.threads[t := PricingTail])
    case PricingTail =>
      if w.shutdown then w.(threads := w.threads[t := InitialTail])
      else
        var (c, started) := PricingSection(w.shared, w.enabled);
        w.(shared := c, threads := if started then w.threads[t := InitialTail][spawned := Working] else w.threads[t := InitialTail])
    case InitialTail => StartInitial(w, t)
    case Starting => StartInitial(w, t)
    case Noticing(id) =>
      var (c, status) := NoticeSection(w.shared, id);
      w.(shared := c, threads := if status.NoticeStarted? then w.threads[t := Working] else Ends(w, t))
    case Ticking(available) =>
      var (c, started) := TickSection(w.shared, available);
      w.(shared := c, threads := if started then w.threads[t := Working] else Ends(w, t))
    case Preferences(todo) =>
      w.(threads := w.threads[t := if todo == [] then Starting else PreferenceRead(todo[0], todo[0] in w.enabled, todo[1..])])
    case PreferenceRead(id, enabled, todo) =>
      w.(shared := PreferenceSection(w.shared, id, enabled),
         threads := w.threads[t := if enabled && id in w.shared.known then Queueing(id, todo) else Preferences(todo)])
    case Queueing(id, todo) =>
      w.(shared := QueueSection(w.shared, w.enabled, id), threads := w.threads[t := Preferences(todo)])
  }

  function StartInitial(w: World, t: nat): World
    requires t in w.threads
  {
    if w.shutdown then w.(threads := Ends(w, t))
    else
      var (c, started) := InitialSection(w.shared, w.enabled);
      w.(shared := c, threads := if started then w.threads[t := Working] else Ends(w, t))
  }

  function Do(w: World, step: Step): World
    requires Can(w, step)
  {
    match step
    case Remember(id) => w.(shared := w.shared.(known := w.shared.known + {id}))
    case ChangePreferences(t, enabled, changed) => w.(enabled := enabled, threads := w.threads[t := Preferences(changed)])
    case Register(t, id) => w.(threads := w.threads[t := Queueing(id, [])])
    case Notify(t, id) => w.(threads := w.threads[t := Noticing(id)])
    case Tick(t, available) => w.(threads := w.threads[t := Ticking(available)])
    case Sync(t, selected) =>
      var (c, started) := SyncSection(w.shared, w.enabled, selected);
      w.(shared := c, threads := if started then w.threads[t := Working] else w.threads)
    case Shutdown => w.(shutdown := true)
    case Run(t, spawned) => RunThread(w, t, spawned)
  }

  const START := World(Shared(false, [], {}, {}, []), {}, false, map[])

  // ---- what every step keeps ----

  /** The runtime says a job runs exactly while one thread runs it. */
  ghost predicate JobIs(w: World, job: Option<nat>) {
    && w.shared.running == job.Some?
    && (job.Some? ==> job.value in w.threads)
    && forall t :: t in w.threads ==> (w.threads[t].Working? <==> job == Some(t))
  }

  ghost predicate OneJob(w: World) {
    exists job :: JobIs(w, job)
  }

  function StartingThread(w: World, step: Step): nat {
    match step
    case Sync(t, _) => t
    case Run(t, spawned) => if t in w.threads && w.threads[t].PricingTail? then spawned else t
    case _ => 0
  }

  function JobAfter(w: World, step: Step, job: Option<nat>): Option<nat>
    requires Can(w, step)
  {
    var after := Do(w, step);
    if !after.shared.running then None
    else if w.shared.running then job
    else Some(StartingThread(w, step))
  }

  lemma StepKeepsOneJob(w: World, step: Step)
    requires Can(w, step) && OneJob(w)
    ensures OneJob(Do(w, step))
  {
    var job :| JobIs(w, job);
    StepKeepsTheJob(w, step, job);
    assert JobIs(Do(w, step), JobAfter(w, step, job));
  }

  lemma StepKeepsTheJob(w: World, step: Step, job: Option<nat>)
    requires Can(w, step) && JobIs(w, job)
    ensures JobIs(Do(w, step), JobAfter(w, step, job))
  {
    match step
    case Run(t, spawned) => ThreadKeepsTheJob(w, t, spawned, job);
    case _ =>
  }

  lemma ThreadKeepsTheJob(w: World, t: nat, spawned: nat, job: Option<nat>)
    requires t in w.threads && spawned !in w.threads && JobIs(w, job)
    ensures JobIs(Do(w, Run(t, spawned)), JobAfter(w, Run(t, spawned), job))
  {
    match w.threads[t]
    case PricingTail => hide Queued;
    case InitialTail => hide Queued;
    case Starting => hide Queued;
    case _ =>
  }

  predicate WillStartInitial(pc: Pc) {
    pc.PricingTail? || pc.InitialTail? || pc.Starting? || pc.Preferences? || pc.PreferenceRead? || pc.Queueing?
  }

  ghost predicate PricingAttended(w: World) {
    && w.shared.pendingPricing <= w.shared.known
    && (w.shared.pendingPricing != {} && !w.shutdown ==>
          w.shared.running || exists t :: t in w.threads && w.threads[t].PricingTail?)
  }

  ghost predicate InitialAttended(w: World) {
    w.shared.pendingInitial != [] && !w.shutdown ==>
      w.shared.running || exists t :: t in w.threads && WillStartInitial(w.threads[t])
  }

  /** Queued repricing always has a job or a job's tail that will look at it. */
  lemma StepKeepsPricingAttended(w: World, step: Step)
    requires Can(w, step) && OneJob(w) && PricingAttended(w)
    ensures PricingAttended(Do(w, step))
  {
    var w' := Do(w, step);
    if w'.shared.pendingPricing != {} && !w'.shutdown && !w'.shared.running {
      if w.shared.running {
        assert step.Run? && w'.threads[step.t].PricingTail?;
      } else {
        var t :| t in w.threads && w.threads[t].PricingTail?;
        assert t in w'.threads && w'.threads[t].PricingTail?;
      }
    }
  }

  /** Queued initial syncs always have a job or a thread that will start them. */
  lemma StepKeepsInitialAttended(w: World, step: Step)
    requires Can(w, step) && OneJob(w) && InitialAttended(w)
    ensures InitialAttended(Do(w, step))
  {
    var w' := Do(w, step);
    if w'.shared.pendingInitial != [] && !w'.shutdown && !w'.shared.running {
      if w.shared.running {
        assert step.Run? && WillStartInitial(w'.threads[step.t]);
      } else if w.shared.pendingInitial == [] {
        assert step.Run? && WillStartInitial(w'.threads[step.t]);
      } else {
        var t :| t in w.threads && WillStartInitial(w.threads[t]);
        assert t in w'.threads && WillStartInitial(w'.threads[t]);
      }
    }
  }

  // ---- runs ----

  ghost predicate IsRun(worlds: seq<World>, steps: seq<Step>) {
    && |worlds| == |steps| + 1 && worlds[0] == START
    && forall i :: 0 <= i < |steps| ==> Can(worlds[i], steps[i]) && worlds[i + 1] == Do(worlds[i], steps[i])
  }

  ghost predicate Sound(w: World) {
    OneJob(w) && PricingAttended(w) && InitialAttended(w)
  }

  lemma {:induction false} EveryWorldIsSound(worlds: seq<World>, steps: seq<Step>, n: nat)
    requires IsRun(worlds, steps) && n <= |steps|
    ensures Sound(worlds[n])
    decreases n
  {
    hide Do, Can, OneJob, PricingAttended, InitialAttended;
    if n == 0 {
      StartIsSound();
    } else {
      EveryWorldIsSound(worlds, steps, n - 1);
      StepKeepsOneJob(worlds[n - 1], steps[n - 1]);
      StepKeepsPricingAttended(worlds[n - 1], steps[n - 1]);
      StepKeepsInitialAttended(worlds[n - 1], steps[n - 1]);
    }
  }

  lemma StartIsSound()
    ensures Sound(START)
  {
    assert JobIs(START, None);
  }

  /** No thread runs a job, ends one, or is on its way to start the initial queue. */
  ghost predicate Quiet(w: World) {
    forall t :: t in w.threads ==> !w.threads[t].Working? && !WillStartInitial(w.threads[t])
  }

  /** At most one job runs, and once the threads are quiet, and no one shut down, both queues are empty. */
  lemma QuietQueuesAreEmpty(worlds: seq<World>, steps: seq<Step>, n: nat)
    requires IsRun(worlds, steps) && n <= |steps|
    ensures forall t, u ::
              t in worlds[n].threads && u in worlds[n].threads && worlds[n].threads[t].Working? && worlds[n].threads[u].Working? ==>
                t == u
    ensures Quiet(worlds[n]) && !worlds[n].shutdown ==>
              !worlds[n].shared.running && worlds[n].shared.pendingPricing == {} && worlds[n].shared.pendingInitial == []
  {
    hide Do, Can;
    EveryWorldIsSound(worlds, steps, n);
    var job :| JobIs(worlds[n], job);
  }

  // ---- pricing notices ----

  /** A preference handler that read the source as disabled has not reached the lock. */
  ghost predicate StaleHandler(w: World, id: Id) {
    exists t :: t in w.threads && w.threads[t].PreferenceRead? && w.threads[t].id == id && !w.threads[t].enabled
  }

  /** A notice accepted now would wait for a job that runs, and a stale handler could withdraw it. */
  ghost predicate Endangered(w: World, id: Id) {
    w.shared.running && StaleHandler(w, id)
  }

  /** The step accepts a pricing notice for the source: queues it, or starts its job. */
  predicate Accepts(w: World, step: Step, id: Id) {
    && step.Run? && step.t in w.threads && w.threads[step.t] == Noticing(id)
    && !NoticeSection(w.shared, id).1.NoticeUnavailable?
  }

  /** Some job from the given place in the history on targets the source. */
  ghost predicate JobSince(jobs: seq<set<Id>>, from: nat, id: Id) {
    exists j :: from <= j < |jobs| && id in jobs[j]
  }

  ghost predicate Waits(w: World, id: Id) {
    id in w.shared.pendingPricing && !StaleHandler(w, id)
  }

  lemma StepKeepsHistory(w: World, step: Step)
    requires Can(w, step)
    ensures w.shared.jobs <= Do(w, step).shared.jobs
  {
  }

  /** A waiting notice goes on waiting until a job targets its source. */
  lemma StepKeepsWaiting(w: World, step: Step, id: Id, from: nat)
    requires Can(w, step) && PricingAttended(w) && Waits(w, id) && id in w.enabled && id in Do(w, step).enabled
    requires from <= |w.shared.jobs|
    ensures Waits(Do(w, step), id) || JobSince(Do(w, step).shared.jobs, from, id)
  {
    var w' := Do(w, step);
    assert step.Run? && w.threads[step.t].PreferenceRead? && w.threads[step.t].id == id ==> w.threads[step.t].enabled;
    if id !in w'.shared.pendingPricing {
      LeavingIsTargeted(w, step, id);
      assert id in w'.shared.jobs[|w.shared.jobs|];
    }
  }

  /** A notice leaves the queue only for a job or a handler that saw its source disabled. */
  lemma LeavingIsTargeted(w: World, step: Step, id: Id)
    requires Can(w, step) && w.shared.pendingPricing <= w.shared.known && id in w.enabled
    requires id in w.shared.pendingPricing && id !in Do(w, step).shared.pendingPricing
    requires step.Run? && w.threads[step.t].PreferenceRead? && w.threads[step.t].id == id ==> w.threads[step.t].enabled
    ensures |Do(w, step).shared.jobs| == |w.shared.jobs| + 1 && id in Do(w, step).shared.jobs[|w.shared.jobs|]
  {
    if step.Run? && w.threads[step.t].PricingTail? {
      assert id in w.shared.pendingPricing * w.shared.known * w.enabled;
    }
  }

  lemma {:induction false} NoticeWaitsOrIsServed(worlds: seq<World>, steps: seq<Step>, k: nat, m: nat, id: Id)
    requires IsRun(worlds, steps) && k < m <= |steps| && Accepts(worlds[k], steps[k], id) && !Endangered(worlds[k], id)
    requires forall i :: k <= i <= m ==> id in worlds[i].enabled
    ensures |worlds[k].shared.jobs| <= |worlds[m].shared.jobs|
    ensures Waits(worlds[m], id) || JobSince(worlds[m].shared.jobs, |worlds[k].shared.jobs|, id)
    decreases m
  {
    hide Do, Can, Sound;
    var from := |worlds[k].shared.jobs|;
    if m == k + 1 {
      AcceptedNoticeWaits(worlds[k], steps[k], id);
    } else {
      NoticeWaitsOrIsServed(worlds, steps, k, m - 1, id);
      StepKeepsHistory(worlds[m - 1], steps[m - 1]);
      if Waits(worlds[m - 1], id) {
        EveryWorldIsSound(worlds, steps, m - 1);
        SoundIsAttended(worlds[m - 1]);
        StepKeepsWaiting(worlds[m - 1], steps[m - 1], id, from);
      }
    }
  }

  lemma SoundIsAttended(w: World)
    requires Sound(w)
    ensures PricingAttended(w)
  {
  }

  lemma AcceptedNoticeWaits(w: World, step: Step, id: Id)
    requires Can(w, step) && Accepts(w, step, id) && !Endangered(w, id)
    ensures |w.shared.jobs| <= |Do(w, step).shared.jobs|
    ensures Waits(Do(w, step), id) || JobSince(Do(w, step).shared.jobs, |w.shared.jobs|, id)
  {
    var w' := Do(w, step);
    if w.shared.running {
      assert forall t :: t in w'.threads ==> t in w.threads && w'.threads[t] == w.threads[t];
    } else {
      assert w'.shared.jobs[|w.shared.jobs|] == {id};
    }
  }

  /**
   Every accepted pricing notice of a source that stays enabled is followed by a job
   that targets the source and started no earlier than the notice, unless the notice
   had to wait for a job while a preference handler still took the source for disabled.
   */
  lemma AcceptedNoticesAreServed(worlds: seq<World>, steps: seq<Step>, k: nat, n: nat, id: Id)
    requires IsRun(worlds, steps) && k < n <= |steps| && Accepts(worlds[k], steps[k], id) && !Endangered(worlds[k], id)
    requires forall i :: k <= i <= n ==> id in worlds[i].enabled
    requires Quiet(worlds[n]) && !worlds[n].shutdown
    ensures JobSince(worlds[n].shared.jobs, |worlds[k].shared.jobs|, id)
  {
    NoticeWaitsOrIsServed(worlds, steps, k, n, id);
    QuietQueuesAreEmpty(worlds, steps, n);
  }

  /** Steps that can be taken one after the other while the source stays enabled. */
  ghost predicate Continues(w: World, steps: seq<Step>, id: Id)
    decreases |steps|
  {
    id in w.enabled && (steps != [] ==> Can(w, steps[0]) && Continues(Do(w, steps[0]), steps[1..], id))
  }

  ghost function Final(w: World, steps: seq<Step>, id: Id): World
    requires Continues(w, steps, id)
    decreases |steps|
  {
    if steps == [] then w else Final(Do(w, steps[0]), steps[1..], id)
  }

  /** The steps take the notice out of the queue, and no job from the given place in the history on targets its source. */
  ghost predicate Loses(w: World, steps: seq<Step>, from: nat, id: Id) {
    && Continues(w, steps, id)
    && id !in Final(w, steps, id).shared.pendingPricing && !JobSince(Final(w, steps, id).shared.jobs, from, id)
  }

  ghost predicate CanBeLost(w: World, from: nat, id: Id) {
    exists steps :: Loses(w, steps, from, id)
  }

  /**
   An accepted notice of a source that stays enabled can be lost exactly when it had to
   wait for a job and a handler that read the source as disabled is still before the lock.
   */
  lemma WhenANoticeCanBeLost(w: World, step: Step, id: Id)
    requires Sound(w) && Can(w, step) && Accepts(w, step, id) && id in w.enabled
    ensures CanBeLost(Do(w, step), |w.shared.jobs|, id) <==> Endangered(w, id)
  {
    hide Do, Can, Loses, Sound, StaleHandler;
    if Endangered(w, id) {
      var steps := TheHandlerWithdraws(w, step, id);
      assert Loses(Do(w, step), steps, |w.shared.jobs|, id);
    } else if CanBeLost(Do(w, step), |w.shared.jobs|, id) {
      var steps :| Loses(Do(w, step), steps, |w.shared.jobs|, id);
      SoundStep(w, step);
      AcceptedNoticeWaits(w, step, id);
      WaitingIsNotLost(Do(w, step), steps, |w.shared.jobs|, id);
    }
  }

  lemma SoundStep(w: World, step: Step)
    requires Sound(w) && Can(w, step)
    ensures Sound(Do(w, step))
  {
    hide Do, Can, OneJob, PricingAttended, InitialAttended;
    StepKeepsOneJob(w, step);
    StepKeepsPricingAttended(w, step);
    StepKeepsInitialAttended(w, step);
  }

  /** The handler runs next and withdraws the notice; no job has started. */
  lemma TheHandlerWithdraws(w: World, step: Step, id: Id) returns (steps: seq<Step>)
    requires Can(w, step) && Accepts(w, step, id) && id in w.enabled && Endangered(w, id)
    ensures Loses(Do(w, step), steps, |w.shared.jobs|, id)
  {
    hide Dropped;
    var t :| t in w.threads && w.threads[t].PreferenceRead? && w.threads[t].id == id && !w.threads[t].enabled;
    var w1 := Do(w, step);
    assert t in w1.threads && w1.threads[t] == w.threads[t];
    var spawned := FreshThread(w1.threads.Keys);
    var next := Run(t, spawned);
    assert Can(w1, next);
    var w2 := Do(w1, next);
    steps := [next];
    assert steps[1..] == [];
    assert Continues(w2, [], id) && Final(w2, [], id) == w2;
    assert Continues(w1, steps, id) && Final(w1, steps, id) == w2;
    assert id !in w2.shared.pendingPricing && w2.shared.jobs == w.shared.jobs;
  }

  lemma {:induction false} FreshThread(threads: set<nat>) returns (t: nat)
    ensures forall u :: u in threads ==> u < t
    decreases threads
  {
    if threads == {} {
      t := 0;
    } else {
      var u :| u in threads;
      var rest := FreshThread(threads - {u});
      t := if u < rest then rest else u + 1;
      forall v | v in threads
        ensures v < t
      {
        assert v == u || v in threads - {u};
      }
    }
  }

  lemma {:induction false} WaitingIsNotLost(w: World, steps: seq<Step>, from: nat, id: Id)
    requires Sound(w) && from <= |w.shared.jobs| && (Waits(w, id) || JobSince(w.shared.jobs, from, id))
    ensures !Loses(w, steps, from, id)
    decreases |steps|
  {
    hide Do, Can, Sound, StaleHandler;
    if Loses(w, steps, from, id) && steps != [] {
      var next := Do(w, steps[0]);
      StepKeepsHistory(w, steps[0]);
      SoundStep(w, steps[0]);
      SoundIsAttended(w);
      assert Loses(next, steps[1..], from, id) && id in w.enabled && id in next.enabled;
      if JobSince(w.shared.jobs, from, id) {
        var j :| from <= j < |w.shared.jobs| && id in w.shared.jobs[j];
        assert next.shared.jobs[j] == w.shared.jobs[j];
      } else {
        StepKeepsWaiting(w, steps[0], id, from);
      }
      WaitingIsNotLost(next, steps[1..], from, id);
    }
  }

  // ---- what can go wrong ----

  lemma {:induction false} DroppedIs(ids: seq<Id>, id: Id)
    ensures Queued(Dropped(ids, id)) == Queued(ids) - {id}
    decreases |ids|
  {
    if ids != [] {
      DroppedIs(ids[1..], id);
      assert ids == [ids[0]] + ids[1..];
      assert Queued(ids) == {ids[0]} + Queued(ids[1..]);
      var rest := Dropped(ids[1..], id);
      assert Queued([ids[0]] + rest) == {ids[0]} + Queued(rest);
      assert [] + rest == rest;
    }
  }

  /**
   An enabled source leaves the initial queue when a job starts, unless a handler that
   read it as disabled withdraws it; the job targets it exactly when it is not that of
   a tick that had not listed it.
   */
  lemma WhenAQueuedSourceIsTargeted(w: World, step: Step, id: Id)
    requires Can(w, step) && id in w.shared.known * w.enabled && step.Run? && !StaleHandler(w, id)
    requires id in Queued(w.shared.pendingInitial) && id !in Queued(Do(w, step).shared.pendingInitial)
    ensures |Do(w, step).shared.jobs| == |w.shared.jobs| + 1
    ensures id in Do(w, step).shared.jobs[|w.shared.jobs|]
            <==> !(w.threads[step.t].Ticking? && id !in w.threads[step.t].available)
  {
    hide Dropped;
    var pc := w.threads[step.t];
    if pc.PreferenceRead? {
      DroppedIs(w.shared.pendingInitial, pc.id);
    }
    if pc.InitialTail? || pc.Starting? {
      assert id in Queued(w.shared.pendingInitial) * w.shared.known * w.enabled;
    }
  }

  const A: Id := "a"
  const B: Id := "b"

  /** Two remembered, enabled sources, with the given queues, jobs and threads. */
  function Scene(running: bool, initial: seq<Id>, pricing: set<Id>, jobs: seq<set<Id>>, threads: map<nat, Pc>): World {
    World(Shared(running, initial, pricing, {A, B}, jobs), {A, B}, false, threads)
  }

  predicate Leads(w: World, step: Step, next: World) {
    Can(w, step) && Do(w, step) == next
  }

  ghost predicate Reachable(w: World) {
    exists worlds, steps :: IsRun(worlds, steps) && worlds[|steps|] == w
  }

  lemma StartIsReachable()
    ensures Reachable(START)
  {
    assert IsRun([START], []) && [START][0] == START;
  }

  lemma ReachableStep(w: World, step: Step, next: World)
    requires Reachable(w) && Leads(w, step, next)
    ensures Reachable(next)
  {
    hide Do, Can;
    var worlds, steps :| IsRun(worlds, steps) && worlds[|steps|] == w;
    var longer, taken := worlds + [next], steps + [step];
    forall i | 0 <= i < |taken|
      ensures Can(longer[i], taken[i]) && longer[i + 1] == Do(longer[i], taken[i])
    {
      if i < |steps| {
        assert longer[i] == worlds[i] && longer[i + 1] == worlds[i + 1] && taken[i] == steps[i];
      } else {
        assert longer[i] == w && taken[i] == step && longer[i + 1] == next;
      }
    }
    assert IsRun(longer, taken) && longer[|taken|] == next;
  }

  /** Both sources remembered, those given enabled, and nothing going on. */
  function Idle(enabled: set<Id>): World {
    World(Shared(false, [], {}, {A, B}, []), enabled, false, map[])
  }

  lemma IdleIsReachable(enabled: set<Id>)
    ensures Reachable(Idle(enabled))
  {
    var one := START.(shared := START.shared.(known := {A}));
    var two := START.(shared := START.shared.(known := {A, B}));
    assert Leads(START, Remember(A), one) && Leads(one, Remember(B), two);
    var set1 := Idle(enabled).(threads := map[0 := Preferences([])]);
    var set2 := Idle(enabled).(threads := map[0 := Starting]);
    assert Leads(two, ChangePreferences(0, enabled, []), set1) && Leads(set1, Run(0, 9), set2);
    assert Do(set2, Run(0, 9)).threads == map[];
    assert Leads(set2, Run(0, 9), Idle(enabled));
    hide Leads;
    StartIsReachable();
    ReachableStep(START, Remember(A), one);
    ReachableStep(one, Remember(B), two);
    ReachableStep(two, ChangePreferences(0, enabled, []), set1);
    ReachableStep(set1, Run(0, 9), set2);
    ReachableStep(set2, Run(0, 9), Idle(enabled));
  }

  /** A tick lists B while A is disabled; then A is enabled, and its handler has read that. */
  lemma TheTickHasListed()
    ensures Reachable(Scene(false, [], {}, [], map[1 := Ticking({B}), 2 := Queueing(A, [])]))
  {
    var ticking := Idle({B}).(threads := map[1 := Ticking({B})]);
    var changed := Scene(false, [], {}, [], map[1 := Ticking({B}), 2 := Preferences([A])]);
    var read := Scene(false, [], {}, [], map[1 := Ticking({B}), 2 := PreferenceRead(A, true, [])]);
    var listed := Scene(false, [], {}, [], map[1 := Ticking({B}), 2 := Queueing(A, [])]);
    assert [A][1..] == [];
    assert Leads(Idle({B}), Tick(1, {B}), ticking) && Leads(ticking, ChangePreferences(2, {A, B}, [A]), changed);
    assert Leads(changed, Run(2, 9), read) && Leads(read, Run(2, 9), listed);
    hide Leads, Idle, Scene;
    IdleIsReachable({B});
    ReachableStep(Idle({B}), Tick(1, {B}), ticking);
    ReachableStep(ticking, ChangePreferences(2, {A, B}, [A]), changed);
    ReachableStep(changed, Run(2, 9), read);
    ReachableStep(read, Run(2, 9), listed);
  }

  /** A job of A runs; A is disabled, and a handler reads that before A is enabled again. */
  lemma TheHandlerHasRead()
    ensures Reachable(Scene(true, [], {}, [{A}], map[1 := Working, 2 := PreferenceRead(A, false, [])]).(enabled := {B}))
  {
    var working := Scene(true, [], {}, [{A}], map[1 := Working]);
    var changed := Scene(true, [], {}, [{A}], map[1 := Working, 2 := Preferences([A])]).(enabled := {B});
    var read := Scene(true, [], {}, [{A}], map[1 := Working, 2 := PreferenceRead(A, false, [])]).(enabled := {B});
    assert [A][1..] == [] && Idle({A, B}).shared.jobs + [{A}] == [{A}];
    assert Do(Idle({A, B}), Sync(1, Some(A))).shared == working.shared;
    assert Leads(Idle({A, B}), Sync(1, Some(A)), working) && Leads(working, ChangePreferences(2, {B}, [A]), changed);
    assert Leads(changed, Run(2, 9), read);
    hide Leads, Idle, Scene;
    IdleIsReachable({A, B});
    ReachableStep(Idle({A, B}), Sync(1, Some(A)), working);
    ReachableStep(working, ChangePreferences(2, {B}, [A]), changed);
    ReachableStep(changed, Run(2, 9), read);
  }

  /** The second handler runs to its end, with A queued for its initial sync, and a notice comes in. */
  lemma TheSourceIsEnabledAgain()
    ensures Reachable(Scene(true, [A], {}, [{A}], map[1 := Working, 2 := PreferenceRead(A, false, []), 3 := Noticing(A)]))
  {
    var stale := map[1 := Working, 2 := PreferenceRead(A, false, [])];
    var changed := Scene(true, [], {}, [{A}], stale[4 := Preferences([A])]);
    var read := Scene(true, [], {}, [{A}], stale[4 := PreferenceRead(A, true, [])]);
    var queueing := Scene(true, [], {}, [{A}], stale[4 := Queueing(A, [])]);
    var queued := Scene(true, [A], {}, [{A}], stale[4 := Preferences([])]);
    var starting := Scene(true, [A], {}, [{A}], stale[4 := Starting]);
    TheHandlerHasRead();
    var before := Scene(true, [], {}, [{A}], stale).(enabled := {B});
    ASecondHandlerQueues(stale);
    ASecondHandlerEnds(stale);
    hide Leads, Scene;
    ReachableStep(before, ChangePreferences(4, {A, B}, [A]), changed);
    ReachableStep(changed, Run(4, 9), read);
    ReachableStep(read, Run(4, 9), queueing);
    ReachableStep(queueing, Run(4, 9), queued);
    ReachableStep(queued, Run(4, 9), starting);
    ReachableStep(starting, Run(4, 9), Scene(true, [A], {}, [{A}], stale));
    ReachableStep(Scene(true, [A], {}, [{A}], stale), Notify(3, A), Scene(true, [A], {}, [{A}], stale[3 := Noticing(A)]));
    assert stale[3 := Noticing(A)] == map[1 := Working, 2 := PreferenceRead(A, false, []), 3 := Noticing(A)];
  }

  lemma ASecondHandlerQueues(stale: map<nat, Pc>)
    requires 3 !in stale && 4 !in stale && 9 !in stale
    ensures Leads(Scene(true, [], {}, [{A}], stale).(enabled := {B}), ChangePreferences(4, {A, B}, [A]),
                  Scene(true, [], {}, [{A}], stale[4 := Preferences([A])]))
    ensures Leads(Scene(true, [], {}, [{A}], stale[4 := Preferences([A])]), Run(4, 9),
                  Scene(true, [], {}, [{A}], stale[4 := PreferenceRead(A, true, [])]))
    ensures Leads(Scene(true, [], {}, [{A}], stale[4 := PreferenceRead(A, true, [])]), Run(4, 9),
                  Scene(true, [], {}, [{A}], stale[4 := Queueing(A, [])]))
  {
    assert [A][1..] == [];
    assert stale[4 := Preferences([A])][4 := PreferenceRead(A, true, [])] == stale[4 := PreferenceRead(A, true, [])];
    assert stale[4 := PreferenceRead(A, true, [])][4 := Queueing(A, [])] == stale[4 := Queueing(A, [])];
  }

  lemma ASecondHandlerEnds(stale: map<nat, Pc>)
    requires 3 !in stale && 4 !in stale && 9 !in stale
    ensures Leads(Scene(true, [], {}, [{A}], stale[4 := Queueing(A, [])]), Run(4, 9),
                  Scene(true, [A], {}, [{A}], stale[4 := Preferences([])]))
    ensures Leads(Scene(true, [A], {}, [{A}], stale[4 := Preferences([])]), Run(4, 9),
                  Scene(true, [A], {}, [{A}], stale[4 := Starting]))
    ensures Leads(Scene(true, [A], {}, [{A}], stale[4 := Starting]), Run(4, 9), Scene(true, [A], {}, [{A}], stale))
    ensures Leads(Scene(true, [A], {}, [{A}], stale), Notify(3, A), Scene(true, [A], {}, [{A}], stale[3 := Noticing(A)]))
  {
    assert [] + [A] == [A];
    assert stale[4 := Starting] - {4} == stale;
    assert stale[4 := Queueing(A, [])][4 := Preferences([])] == stale[4 := Preferences([])];
    assert stale[4 := Preferences([])][4 := Starting] == stale[4 := Starting];
  }

  /**
   A tick lists the available sources before it takes the lock and then clears the
   initial queue. A source enabled in between is queued and dropped: no job targets it.
   A run of the scheduler comes to this.
   */
  lemma ATickCanDropAQueuedSource()
    ensures Reachable(Scene(false, [], {}, [], map[1 := Ticking({B}), 2 := Queueing(A, [])]))
    ensures var listed := Scene(false, [], {}, [], map[1 := Ticking({B}), 2 := Queueing(A, [])]);
            var queued := Scene(false, [A], {}, [], map[1 := Ticking({B}), 2 := Preferences([])]);
            var dropped := Scene(true, [], {}, [{B}], map[1 := Working, 2 := Preferences([])]);
            Leads(listed, Run(2, 9), queued) && Leads(queued, Run(1, 9), dropped)
  {
    var listed := Scene(false, [], {}, [], map[1 := Ticking({B}), 2 := Queueing(A, [])]);
    var queued := Scene(false, [A], {}, [], map[1 := Ticking({B}), 2 := Preferences([])]);
    var dropped := Scene(true, [], {}, [{B}], map[1 := Working, 2 := Preferences([])]);
    hide Reachable;
    TheTickHasListed();
    assert Do(listed, Run(2, 9)).threads == queued.threads;
    assert Do(queued, Run(1, 9)).threads == dropped.threads;
  }

  /**
   Preference handlers run concurrently. One that read a source as disabled and takes
   the lock after the source was enabled again withdraws the repricing accepted, and
   the initial sync queued, in between, although the source is enabled throughout.
   A run of the scheduler comes to this.
   */
  lemma AStaleHandlerCanDropANotice()
    ensures Reachable(Scene(true, [A], {}, [{A}], map[1 := Working, 2 := PreferenceRead(A, false, []), 3 := Noticing(A)]))
    ensures var enabledAgain := Scene(true, [A], {}, [{A}], map[1 := Working, 2 := PreferenceRead(A, false, []), 3 := Noticing(A)]);
            var accepted := Scene(true, [A], {A}, [{A}], map[1 := Working, 2 := PreferenceRead(A, false, [])]);
            var dropped := Scene(true, [], {}, [{A}], map[1 := Working, 2 := Preferences([])]);
            && Accepts(enabledAgain, Run(3, 9), A)
            && Leads(enabledAgain, Run(3, 9), accepted) && Leads(accepted, Run(2, 9), dropped)
  {
    var enabledAgain := Scene(true, [A], {}, [{A}], map[1 := Working, 2 := PreferenceRead(A, false, []), 3 := Noticing(A)]);
    var accepted := Scene(true, [A], {A}, [{A}], map[1 := Working, 2 := PreferenceRead(A, false, [])]);
    var dropped := Scene(true, [], {}, [{A}], map[1 := Working, 2 := Preferences([])]);
    hide Reachable;
    TheSourceIsEnabledAgain();
    assert Do(enabledAgain, Run(3, 9)).threads == accepted.threads;
    assert Do(accepted, Run(2, 9)).threads == dropped.threads;
    assert [A][1..] == [];
    assert Dropped([A], A) == [];
  }
}
