/**
 The runtime's sections as the code runs them under its lock. Each does to the shared
 state exactly what the scheduler's section of the same name says.
 */
module CacheRuntimes {
  import opened Common
  import opened SyncJobs

  predicate Distinct(ids: seq<Id>) {
    forall i, j :: 0 <= i < j < |ids| ==> ids[i] != ids[j]
  }

  class CacheRuntime {
    var running: bool
    var pendingInitial: seq<Id>
    var pendingPricing: set<Id>
    var order: seq<Id>
    var live: set<Id>
    ghost var jobs: seq<set<Id>>

    /** The sources in registration order are the live ones. */
    ghost predicate Valid()
      reads this
    {
      Distinct(order) && Queued(order) == live
    }

    ghost function State(): Shared
      reads this
    {
      Shared(running, pendingInitial, pendingPricing, live, jobs)
    }

    constructor ()
      ensures Valid() && State() == START.shared
    {
      running, pendingInitial, pendingPricing, order, live, jobs := false, [], {}, [], {}, [];
    }

    method RememberSource(id: Id)
      requires Valid()
      modifies this
      ensures Valid() && State() == old(State()).(known := old(live) + {id})
    {
      if id !in live {
        assert Queued(order + [id]) == Queued(order) + {id};
        assert forall i :: 0 <= i < |order| ==> order[i] in Queued(order);
        order := order + [id];
      }
      live := live + {id};
    }

    /** Marks a job as running; its targets go down in the history. */
    method StartJobLocked(targets: seq<Id>)
      requires Valid()
      modifies this
      ensures Valid() && State() == StartJob(old(State()), Queued(targets))
    {
      running := true;
      jobs := jobs + [Queued(targets)];
    }

    method NotifyPricingChange(id: Id) returns (status: NoticeStatus)
      requires Valid()
      modifies this
      ensures Valid() && (State(), status) == NoticeSection(old(State()), id)
    {
      if id !in live {
        return NoticeUnavailable;
      }
      if running {
        pendingPricing := pendingPricing + {id};
        return NoticeQueued;
      }
      pendingPricing := pendingPricing - {id};
      assert Queued([id]) == {id};
      StartJobLocked([id]);
      status := NoticeStarted;
    }

    /** Drains the repricing queue in registration order, keeping the enabled sources as targets. */
    method StartPendingPricingSync(enabled: set<Id>) returns (started: bool, targets: seq<Id>)
      requires Valid()
      modifies this
      ensures Valid() && (State(), started) == PricingSection(old(State()), enabled)
      ensures started ==> Distinct(targets) && jobs[|jobs| - 1] == Queued(targets)
    {
      targets := [];
      if running || pendingPricing == {} {
        return false, targets;
      }
      ghost var queue := pendingPricing;
      for i := 0 to |order|
        invariant Valid() && order == old(order) && live == old(live) && !running
        invariant pendingInitial == old(pendingInitial) && jobs == old(jobs)
        invariant pendingPricing == queue - Queued(order[..i])
        invariant Queued(targets) == queue * Queued(order[..i]) * enabled
        invariant Distinct(targets)
      {
        var id := order[i];
        assert order[..i + 1] == order[..i] + [id];
        assert Queued(order[..i + 1]) == Queued(order[..i]) + {id};
        assert id !in order[..i];
        if id in pendingPricing {
          pendingPricing := pendingPricing - {id};
          if id in live && id in enabled {
            assert Queued(targets + [id]) == Queued(targets) + {id};
            assert forall k :: 0 <= k < |targets| ==> targets[k] in Queued(targets);
            targets := targets + [id];
          }
        }
      }
      assert order[..|order|] == order;
      SomeTarget(targets);
      if targets == [] {
        return false, targets;
      }
      StartJobLocked(targets);
      started := true;
    }

    method StartPendingInitialSync(enabled: set<Id>) returns (started: bool, targets: seq<Id>)
      requires Valid()
      modifies this
      ensures Valid() && (State(), started) == InitialSection(old(State()), enabled)
      ensures started ==> jobs[|jobs| - 1] == Queued(targets)
    {
      targets := [];
      if running || pendingInitial == [] {
        return false, targets;
      }
      for i := 0 to |pendingInitial|
        invariant Queued(targets) == Queued(pendingInitial[..i]) * live * enabled
      {
        var id := pendingInitial[i];
        assert pendingInitial[..i + 1] == pendingInitial[..i] + [id];
        assert Queued(pendingInitial[..i + 1]) == Queued(pendingInitial[..i]) + {id};
        if id in live && id in enabled {
          assert Queued(targets + [id]) == Queued(targets) + {id};
          targets := targets + [id];
        }
      }
      assert pendingInitial[..|pendingInitial|] == pendingInitial;
      pendingInitial := [];
      SomeTarget(targets);
      if targets == [] {
        return false, targets;
      }
      StartJobLocked(targets);
      started := true;
    }

    /** The tick's section, with the sources listed before the lock was taken. */
    method RunAutoSyncTick(available: seq<Id>) returns (started: bool)
      requires Valid()
      modifies this
      ensures Valid() && (State(), started) == TickSection(old(State()), Queued(available))
    {
      if running {
        return false;
      }
      pendingInitial := [];
      StartJobLocked(available);
      started := true;
    }

    method Sync(enabled: set<Id>, selected: Option<Id>) returns (started: bool)
      requires Valid()
      modifies this
      ensures Valid() && (State(), started) == SyncSection(old(State()), enabled, selected)
    {
      if running {
        return false;
      }
      match selected
      case Some(id) =>
        if id !in enabled || id !in live {
          return false;
        }
        assert Queued([id]) == {id};
        StartJobLocked([id]);
        started := true;
      case None =>
        var targets := [];
        for i := 0 to |order|
          invariant Queued(targets) == Queued(order[..i]) * enabled
        {
          assert order[..i + 1] == order[..i] + [order[i]];
          assert Queued(order[..i + 1]) == Queued(order[..i]) + {order[i]};
          if order[i] in live && order[i] in enabled {
            assert Queued(targets + [order[i]]) == Queued(targets) + {order[i]};
            targets := targets + [order[i]];
          } else {
            assert order[i] in Queued(order);
          }
        }
        assert order[..|order|] == order;
        StartJobLocked(targets);
        started := true;
    }

    method QueueInitialSync(enabled: set<Id>, id: Id)
      requires Valid()
      modifies this
      ensures Valid() && State() == QueueSection(old(State()), enabled, id)
    {
      if id !in enabled {
        return;
      }
      for i := 0 to |pendingInitial|
        invariant id !in pendingInitial[..i]
      {
        if pendingInitial[i] == id {
          return;
        }
        assert pendingInitial[..i + 1] == pendingInitial[..i] + [pendingInitial[i]];
      }
      assert pendingInitial[..|pendingInitial|] == pendingInitial;
      pendingInitial := pendingInitial + [id];
    }

    /** The section of a preference handler that read whether the source is enabled before it took the lock. */
    method PreferenceChanged(id: Id, enabled: bool)
      requires Valid()
      modifies this
      ensures Valid() && State() == PreferenceSection(old(State()), id, enabled)
    {
      if enabled {
        return;
      }
      pendingPricing := pendingPricing - {id};
      var kept := [];
      for i := 0 to |pendingInitial|
        invariant kept + Dropped(pendingInitial[i..], id) == Dropped(pendingInitial, id)
      {
        assert pendingInitial[i..][1..] == pendingInitial[i + 1..];
        if pendingInitial[i] != id {
          kept := kept + [pendingInitial[i]];
        }
      }
      pendingInitial := kept;
    }

    method FinishJob()
      requires Valid()
      modifies this
      ensures Valid() && State() == FinishSection(old(State()))
    {
      running := false;
    }
  }

  lemma SomeTarget(targets: seq<Id>)
    ensures targets == [] <==> Queued(targets) == {}
  {
    if targets != [] {
      assert targets[0] in Queued(targets);
    }
  }
}
