/**
 Consolidation seen from outside the tables: the cached rows and the recorded
 state of one source, the steps that change them, and what every run of steps
 keeps. The source is modelled by the log it would show under each rebuild
 identity, because a new pricing catalog or data layout rewrites every row.
 */
module Consolidation {
  import opened Common
  import opened UsageRows
  import opened Fingerprints
  import opened CacheDatabase

  const DATA_VERSION: nat := 9
  const SYNC_SAFETY_DELAY: nat := 6 * HOUR_MS

  datatype Mode = Incremental | Rebuild

  datatype SyncOptions = SyncOptions(mode: Mode, cutoff: Option<nat>, readTriggered: bool)

  /**
   The source as one sync finds it: its identity text and digests, the rows it
   shows, and whether it is available, fingerprintable and collectable.
   */
  datatype LiveSource = LiveSource(
    available: bool, identity: string, pricingDigest: string, dataDigest: string,
    fingerprintReliable: bool, collectFails: bool, log: seq<Message>)
  {
    function Fingerprint(): string {
      TagFingerprint(pricingDigest, dataDigest)
    }

    predicate Valid() {
      IsDigest(pricingDigest) && IsDigest(dataDigest)
    }
  }

  /** What befalls a sync from outside: another sync holds the source lock, or its transaction fails. */
  datatype Mishap = NoMishap | LockHeld | WriteFails

  // ---- planning ----

  datatype Plan =
    | Refuse
    | MarkUnavailable
    | Advance(cutoff: nat)
    | Collect(mode: Mode, since: nat, cutoff: nat, pricingChanged: bool)

  function DefaultSafeCutoff(now: nat): nat {
    if now < SYNC_SAFETY_DELAY then 0 else HourStart(now - SYNC_SAFETY_DELAY)
  }

  function Recorded(state: Option<SourceState>): nat {
    if state.Some? then state.value.cutoff else 0
  }

  function Requested(opts: SyncOptions, now: nat): nat {
    if opts.cutoff.Some? then opts.cutoff.value else DefaultSafeCutoff(now)
  }

  predicate MustReprice(state: Option<SourceState>, live: LiveSource) {
    state.Some? && PricingIdentityChanged(state.value.fingerprint, live.Fingerprint(), live.identity)
  }

  /** What SyncSourceWithOptions decides to do before it collects or writes anything. */
  function PlanSync(state: Option<SourceState>, live: LiveSource, opts: SyncOptions, now: nat): Plan {
    if !live.available then
      if opts.readTriggered then Refuse else MarkUnavailable
    else
      var pricingChanged := MustReprice(state, live);
      var mode := if pricingChanged then Rebuild else opts.mode;
      var recorded, requested := Recorded(state), Requested(opts, now);
      if mode == Rebuild then
        Collect(Rebuild, 0, HourStart(requested), pricingChanged)
      else
        var cutoff := HourStart(if requested < recorded then recorded else requested);
        if && state.Some? && state.value.status == Ready && live.fingerprintReliable
           && state.value.fingerprint == live.Fingerprint() && state.value.freshThrough > 0 && cutoff <= recorded
        then Advance(cutoff)
        else Collect(Incremental, recorded, cutoff, pricingChanged)
  }

  // ---- the steps on the cached rows ----

  datatype Cache = Cache(rows: set<Message>, state: Option<SourceState>)

  function ReadyState(fingerprint: string, cutoff: nat, now: nat): SourceState {
    SourceState(fingerprint, Ready, cutoff, cutoff, now, DATA_VERSION)
  }

  function Boundary(since: nat, cutoff: nat): nat {
    if cutoff < since then cutoff else since
  }

  /** An incremental fill: the suffix from the boundary on gives way to the collected window. */
  ghost function Filled(c: Cache, live: LiveSource, since: nat, cutoff: nat, now: nat): Cache {
    Cache(Below(c.rows, Boundary(since, cutoff)) + Window(Elements(live.log), since, cutoff),
          Some(ReadyState(live.Fingerprint(), cutoff, now)))
  }

  /** A rebuild: whatever was cached gives way to every row before the cutoff. */
  ghost function Rebuilt(live: LiveSource, cutoff: nat, now: nat): Cache {
    Cache(Below(Elements(live.log), cutoff), Some(ReadyState(live.Fingerprint(), cutoff, now)))
  }

  function FailedState(state: Option<SourceState>, live: LiveSource, now: nat): SourceState {
    SourceState(if MustReprice(state, live) then state.value.fingerprint else live.Fingerprint(), Failed,
                Recorded(state), if state.Some? then state.value.freshThrough else 0, now, DATA_VERSION)
  }

  function UnavailableState(state: Option<SourceState>, live: LiveSource, now: nat): SourceState {
    SourceState(if state.Some? then state.value.fingerprint else live.Fingerprint(), Unavailable,
                Recorded(state), if state.Some? then state.value.freshThrough else 0, now, DATA_VERSION)
  }

  ghost function Synced(c: Cache, live: LiveSource, opts: SyncOptions, now: nat, mishap: Mishap): Cache {
    if mishap.WriteFails? || (mishap.LockHeld? && opts.readTriggered) then c
    else
      match PlanSync(c.state, live, opts, now)
      case Refuse => c
      case MarkUnavailable => c.(state := Some(UnavailableState(c.state, live, now)))
      case Advance(cutoff) => c.(state := Some(ReadyState(live.Fingerprint(), cutoff, now)))
      case Collect(mode, since, cutoff, _) =>
        if live.collectFails then
          if opts.readTriggered then c else c.(state := Some(FailedState(c.state, live, now)))
        else if mode == Rebuild then Rebuilt(live, cutoff, now)
        else Filled(c, live, since, cutoff, now)
  }

  /** Opening the cache: state written under another data version starts over, its rows stay. */
  function Reopened(c: Cache): Cache {
    if c.state.Some? && c.state.value.dataVersion != DATA_VERSION
    then c.(state := Some(c.state.value.(fingerprint := "", cutoff := 0, freshThrough := 0, lastSynced := 0,
                                         dataVersion := DATA_VERSION)))
    else c
  }

  // ---- worlds and runs ----

  /** The log the source shows under each rebuild identity (named by its digest), and the cache. */
  datatype World = World(logs: string -> set<Message>, cache: Cache)

  datatype Event =
    | SourceMoves(logs: string -> set<Message>)
    | Sync(live: LiveSource, opts: SyncOptions, now: nat, mishap: Mishap)
    | DataVersionChanges(version: nat)
    | Open

  /** Rows older than the recorded cutoff are final: the source never changes them. */
  ghost predicate KeepsFinalRows(w: World, logs: string -> set<Message>) {
    forall digest :: WellFormedLog(logs(digest)) &&
                     Below(logs(digest), Recorded(w.cache.state)) == Below(w.logs(digest), Recorded(w.cache.state))
  }

  ghost predicate Allowed(w: World, e: Event) {
    match e
    case SourceMoves(logs) => KeepsFinalRows(w, logs)
    case Sync(live, _, _, _) => live.Valid() && Elements(live.log) == w.logs(live.pricingDigest)
    case DataVersionChanges(_) => true
    case Open => true
  }

  /** DataVersionChanges: the cache was last written by a program of another data version. */
  ghost function Next(w: World, e: Event): World {
    match e
    case SourceMoves(logs) => w.(logs := logs)
    case Sync(live, opts, now, mishap) => w.(cache := Synced(w.cache, live, opts, now, mishap))
    case DataVersionChanges(version) =>
      if w.cache.state.Some?
      then w.(cache := w.cache.(state := Some(w.cache.state.value.(dataVersion := version))))
      else w
    case Open => w.(cache := Reopened(w.cache))
  }

  /** The visible rows are the raw rows before the cutoff, as the identity in the stored fingerprint shows them. */
  ghost predicate VisibleRowsAreRaw(w: World) {
    var cutoff := Recorded(w.cache.state);
    cutoff > 0 ==>
      var digest := PricingIdentity(w.cache.state.value.fingerprint);
      digest.Some? && Below(w.cache.rows, cutoff) == Below(w.logs(digest.value), cutoff)
  }

  ghost predicate Invariant(w: World) {
    && (forall digest :: WellFormedLog(w.logs(digest)))
    && WellFormedLog(w.cache.rows)
    && Recorded(w.cache.state) % HOUR_MS == 0
    && VisibleRowsAreRaw(w)
  }

  lemma AlignedStart(ms: nat)
    ensures HourStart(ms) % HOUR_MS == 0 && 0 <= HourStart(ms) <= ms
    ensures ms % HOUR_MS == 0 ==> HourStart(ms) == ms
  {
  }

  lemma PlannedCutoffs(state: Option<SourceState>, live: LiveSource, opts: SyncOptions, now: nat)
    ensures var plan := PlanSync(state, live, opts, now);
            (plan.Advance? || plan.Collect? ==> plan.cutoff % HOUR_MS == 0)
            && (Recorded(state) % HOUR_MS == 0 && (plan.Advance? || (plan.Collect? && plan.mode == Incremental)) ==>
                  Recorded(state) <= plan.cutoff)
            && (Recorded(state) % HOUR_MS == 0 && plan.Advance? ==> plan.cutoff == Recorded(state))
  {
    var recorded, requested := Recorded(state), Requested(opts, now);
    AlignedStart(requested);
    AlignedStart(recorded);
    var wanted := if requested < recorded then recorded else requested;
    AlignedStart(wanted);
    if recorded % HOUR_MS == 0 && HourStart(wanted) < recorded {
      AlignedBoundary(wanted, recorded);
    }
  }

  /**
   An incremental plan over visible raw rows rests on rows of the same identity:
   anything else would have been planned as a rebuild.
   */
  lemma IncrementalKeepsTheIdentity(w: World, live: LiveSource)
    requires Invariant(w) && live.Valid() && Recorded(w.cache.state) > 0
    requires !MustReprice(w.cache.state, live)
    ensures PricingIdentity(w.cache.state.value.fingerprint) == Some(live.pricingDigest)
  {
    TagParses(live.pricingDigest, live.dataDigest);
  }

  /**
   Replacing the suffix gives exactly what a rebuild from scratch gives, so any
   run of fills that ends at a cutoff equals one rebuild at that cutoff.
   */
  lemma FillIsRebuild(w: World, live: LiveSource, cutoff: nat, now: nat)
    requires Invariant(w) && live.Valid() && Elements(live.log) == w.logs(live.pricingDigest)
    requires !MustReprice(w.cache.state, live)
    ensures Filled(w.cache, live, Recorded(w.cache.state), cutoff, now) == Rebuilt(live, cutoff, now)
  {
    hide WellFormedLog;
    var log, since := Elements(live.log), Recorded(w.cache.state);
    var boundary := Boundary(since, cutoff);
    if since > 0 {
      IncrementalKeepsTheIdentity(w, live);
      BelowIsMonotone(w.cache.rows, log, since, boundary);
    }
    assert Below(w.cache.rows, boundary) == Below(log, boundary);
    assert Below(log, boundary) + Window(log, since, cutoff) == Below(log, cutoff);
  }

  lemma BelowIsMonotone(a: set<Message>, b: set<Message>, cutoff: int, earlier: int)
    requires (cutoff > 0 ==> Below(a, cutoff) == Below(b, cutoff)) && earlier <= cutoff
    ensures Below(a, earlier) == Below(b, earlier)
  {
    forall m: Message
      ensures m in Below(a, earlier) <==> m in Below(b, earlier)
    {
      if cutoff > 0 {
        assert m in Below(a, cutoff) <==> m in Below(b, cutoff);
      }
    }
  }

  /** Every allowed step keeps the invariant. */
  lemma StepKeepsInvariant(w: World, e: Event)
    requires Invariant(w) && Allowed(w, e)
    ensures Invariant(Next(w, e))
  {
    match e
    case SourceMoves(logs) =>
    case Sync(live, opts, now, mishap) => SyncKeepsInvariant(w, live, opts, now, mishap);
    case DataVersionChanges(_) =>
    case Open =>
  }

  lemma RebuiltIsExact(w: World, live: LiveSource, cutoff: nat, now: nat)
    requires forall digest :: WellFormedLog(w.logs(digest))
    requires live.Valid() && Elements(live.log) == w.logs(live.pricingDigest) && cutoff % HOUR_MS == 0
    ensures Invariant(w.(cache := Rebuilt(live, cutoff, now)))
  {
    TagParses(live.pricingDigest, live.dataDigest);
    var rows := Below(Elements(live.log), cutoff);
    assert Below(rows, cutoff) == rows;
    assert WellFormedLog(w.logs(live.pricingDigest));
  }

  lemma SyncKeepsInvariant(w: World, live: LiveSource, opts: SyncOptions, now: nat, mishap: Mishap)
    requires Invariant(w) && live.Valid() && Elements(live.log) == w.logs(live.pricingDigest)
    ensures Invariant(w.(cache := Synced(w.cache, live, opts, now, mishap)))
  {
    hide WellFormedLog, PricingIdentity, TagFingerprint;
    PlannedCutoffs(w.cache.state, live, opts, now);
    TagParses(live.pricingDigest, live.dataDigest);
    match PlanSync(w.cache.state, live, opts, now)
    case Refuse =>
    case MarkUnavailable =>
    case Advance(cutoff) =>
      if Recorded(w.cache.state) > 0 {
        IncrementalKeepsTheIdentity(w, live);
      }
    case Collect(mode, since, cutoff, _) =>
      RebuiltIsExact(w, live, cutoff, now);
      if mode == Incremental {
        FillIsRebuild(w, live, cutoff, now);
      }
      if !MustReprice(w.cache.state, live) && Recorded(w.cache.state) > 0 {
        IncrementalKeepsTheIdentity(w, live);
      }
  }

  /** A run: the worlds it passes through and the events between them. */
  ghost predicate IsRun(worlds: seq<World>, events: seq<Event>) {
    && |worlds| == |events| + 1
    && forall i :: 0 <= i < |events| ==> Allowed(worlds[i], events[i]) && worlds[i + 1] == Next(worlds[i], events[i])
  }

  /**
   In every state any mix of steps reaches from an empty cache, the cached rows
   older than the cutoff are exactly the raw rows older than it, priced under the
   identity encoded in the stored fingerprint.
   */
  lemma {:induction false} EveryRunShowsRawRows(worlds: seq<World>, events: seq<Event>)
    requires IsRun(worlds, events)
    requires worlds[0].cache == Cache({}, None) && forall digest :: WellFormedLog(worlds[0].logs(digest))
    ensures forall i :: 0 <= i < |worlds| ==> Invariant(worlds[i])
    decreases |events|
  {
    if events != [] {
      var n := |events| - 1;
      EveryRunShowsRawRows(worlds[..n + 1], events[..n]);
      assert worlds[..n + 1][n] == worlds[n];
      StepKeepsInvariant(worlds[n], events[n]);
      forall i | 0 <= i < |worlds|
        ensures Invariant(worlds[i])
      {
        if i <= n {
          assert worlds[..n + 1][i] == worlds[i];
        }
      }
    }
  }

  /**
   After every successful collection the whole cache, state included, is the one
   a rebuild of an empty cache at the same cutoff gives.
   */
  lemma CollectionIsRebuild(w: World, live: LiveSource, opts: SyncOptions, now: nat)
    requires Invariant(w) && live.Valid() && Elements(live.log) == w.logs(live.pricingDigest)
    requires PlanSync(w.cache.state, live, opts, now).Collect? && !live.collectFails
    ensures var cutoff := PlanSync(w.cache.state, live, opts, now).cutoff;
            Synced(w.cache, live, opts, now, NoMishap)
            == Synced(Cache({}, None), live, SyncOptions(Rebuild, Some(cutoff), false), now, NoMishap)
  {
    hide PricingIdentityChanged;
    var plan := PlanSync(w.cache.state, live, opts, now);
    PlannedCutoffs(w.cache.state, live, opts, now);
    AlignedStart(plan.cutoff);
    if plan.mode == Incremental {
      FillIsRebuild(w, live, plan.cutoff, now);
    }
  }

  /**
   When a sync moves the recorded cutoff back: exactly when it is (or, because
   the identity changed, becomes) a rebuild to an earlier hour that commits. So
   an incremental sync of an unchanged identity never does.
   */
  lemma WhenTheCutoffRegresses(w: World, live: LiveSource, opts: SyncOptions, now: nat, mishap: Mishap)
    requires Invariant(w)
    ensures Recorded(Synced(w.cache, live, opts, now, mishap).state) < Recorded(w.cache.state) <==>
            && live.available && !live.collectFails && !mishap.WriteFails?
            && !(mishap.LockHeld? && opts.readTriggered)
            && (opts.mode == Rebuild || MustReprice(w.cache.state, live))
            && HourStart(Requested(opts, now)) < Recorded(w.cache.state)
  {
    hide PricingIdentityChanged, WellFormedLog, VisibleRowsAreRaw;
    PlannedCutoffs(w.cache.state, live, opts, now);
  }

  /** A catalog cached two hours in that is read again, under another pricing, with a requested cutoff one hour in. */
  lemma RepricingRegresses(before: string, after: string)
    requires IsDigest(before) && IsDigest(after) && before != after
    ensures var c := Cache({}, Some(ReadyState(TagFingerprint(before, before), 2 * HOUR_MS, 0)));
            var live := LiveSource(true, "catalog", after, before, true, false, []);
            Recorded(Synced(c, live, SyncOptions(Incremental, Some(HOUR_MS), false), 0, NoMishap).state) == HOUR_MS
  {
    TagParses(before, before);
    TagParses(after, before);
    hide PricingIdentity, TagFingerprint;
    AlignedStart(HOUR_MS);
  }

  /** The documented promise that the recorded cutoff never regresses fails for an incremental sync that must reprice. */
  lemma RepricingMovesTheCutoffBack()
    ensures var before, after := seq(DIGEST_LENGTH, _ => 'a'), seq(DIGEST_LENGTH, _ => 'b');
            var c := Cache({}, Some(ReadyState(TagFingerprint(before, before), 2 * HOUR_MS, 0)));
            var live := LiveSource(true, "catalog", after, before, true, false, []);
            Recorded(Synced(c, live, SyncOptions(Incremental, Some(HOUR_MS), false), 0, NoMishap).state) == HOUR_MS
  {
    var a, b := seq(DIGEST_LENGTH, _ => 'a'), seq(DIGEST_LENGTH, _ => 'b');
    assert a[0] != b[0];
    hide Synced, TagFingerprint;
    RepricingRegresses(a, b);
  }

  /** While a read runs: the source may grow and incremental syncs of the same identity may commit. */
  ghost predicate Steady(e: Event, digest: string) {
    match e
    case SourceMoves(_) => true
    case Sync(live, opts, _, _) => live.pricingDigest == digest && opts.mode == Incremental
    case DataVersionChanges(_) => false
    case Open => false
  }

  ghost predicate Shows(w: World, digest: string, cutoff: nat) {
    w.cache.state.Some? && PricingIdentity(w.cache.state.value.fingerprint) == Some(digest) && cutoff <= Recorded(w.cache.state)
  }

  lemma SteadyStepKeepsShowing(w: World, e: Event, digest: string, cutoff: nat)
    requires Invariant(w) && Allowed(w, e) && Steady(e, digest) && Shows(w, digest, cutoff)
    ensures Shows(Next(w, e), digest, cutoff)
    ensures Below(Next(w, e).logs(digest), cutoff) == Below(w.logs(digest), cutoff)
  {
    hide WellFormedLog, PricingIdentity, TagFingerprint;
    match e
    case SourceMoves(logs) =>
      BelowIsMonotone(logs(digest), w.logs(digest), Recorded(w.cache.state), cutoff);
    case Sync(live, opts, now, mishap) =>
      TagParses(live.pricingDigest, live.dataDigest);
      PlannedCutoffs(w.cache.state, live, opts, now);
      assert !MustReprice(w.cache.state, live);
  }

  /**
   Whatever a read sees along such a run, its rows before the cutoff it started
   from are the rows the source still shows when the run ends.
   */
  lemma {:induction false} SteadyRunsShowTheSameFinalRows(worlds: seq<World>, events: seq<Event>, digest: string,
                                                          cutoff: nat)
    requires IsRun(worlds, events) && Invariant(worlds[0]) && Shows(worlds[0], digest, cutoff)
    requires forall i :: 0 <= i < |events| ==> Steady(events[i], digest)
    ensures forall i :: 0 <= i < |worlds| ==>
              && Invariant(worlds[i]) && Shows(worlds[i], digest, cutoff)
              && Below(worlds[i].cache.rows, cutoff) == Below(worlds[|worlds| - 1].logs(digest), cutoff)
    decreases |events|
  {
    hide Invariant, Shows, Next, Allowed, Steady, Below;
    if events == [] {
      ShownRowsAreRaw(worlds[0], digest, cutoff);
    } else {
      var n := |events| - 1;
      var earlier := worlds[..n + 1];
      SteadyRunsShowTheSameFinalRows(earlier, events[..n], digest, cutoff);
      assert earlier[n] == worlds[n];
      StepKeepsInvariant(worlds[n], events[n]);
      SteadyStepKeepsShowing(worlds[n], events[n], digest, cutoff);
      ShownRowsAreRaw(worlds[n + 1], digest, cutoff);
      forall i | 0 <= i < |worlds|
        ensures Invariant(worlds[i]) && Shows(worlds[i], digest, cutoff)
        ensures Below(worlds[i].cache.rows, cutoff) == Below(worlds[|worlds| - 1].logs(digest), cutoff)
      {
        if i <= n {
          assert earlier[i] == worlds[i];
        }
      }
    }
  }

  lemma ShownRowsAreRaw(w: World, digest: string, cutoff: nat)
    requires Invariant(w) && Shows(w, digest, cutoff)
    ensures Below(w.cache.rows, cutoff) == Below(w.logs(digest), cutoff)
  {
    BelowIsMonotone(w.cache.rows, w.logs(digest), Recorded(w.cache.state), cutoff);
  }
}
