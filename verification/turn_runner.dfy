/**
 The loops of a turn as the code runs them, one agent at a time: the lead's rounds, its
 tool calls, and the specialists it starts, each with the operations of AgentRuns. Every
 run of them is a run of the turn, so all that holds of those holds of the code's loops.
 */
module TurnRunners {
  import opened Common
  import opened TurnBudget
  import opened AgentRuns

  /** What everything outside an agent's loop does, round by round: replies, result sizes, and what ends the turn. */
  datatype Script = Script(
    interrupted: (nat, nat) -> bool,
    reply: (nat, nat) -> Reply,
    resultSize: (nat, nat) -> nat,
    toolFails: (nat, nat) -> bool)

  /** A specialist: its tools, its own limits, and its script. */
  datatype Specialist = Specialist(tools: set<string>, rounds: int, calls: int, script: Script)

  // ---- what a run has to do with the scripts ----

  /** The agent takes a step that its script calls for. */
  ghost predicate Follows(a: Agent, script: Script, step: Local) {
    match step
    case Attempt(reply) =>
      a.phase.Calling? && !script.interrupted(a.rounds, a.phase.made) && reply == script.reply(a.rounds, a.phase.made)
    case Execute(_, size) => exists k: nat :: !script.toolFails(a.rounds, k) && size == script.resultSize(a.rounds, k)
    case Abort => IsStopped(a, script)
    case _ => true
  }

  /** What ends an agent's loop early: an interruption, a call that ends the turn, or the last round behind it. */
  ghost predicate IsStopped(a: Agent, script: Script) {
    match a.phase
    case Calling(made, _) => script.interrupted(a.rounds, made)
    case Running(_) => exists k: nat :: script.toolFails(a.rounds, k)
    case Idle => a.rounds >= a.maxRounds
    case _ => false
  }

  /** A step of a turn in which agent i has the i-th script, and the lead picks its specialists. */
  ghost predicate StepFollows(t: Turn, step: Step, scripts: seq<Script>, specialists: (nat, nat) -> Specialist) {
    match step
    case On(i, local) => i < |scripts| && i < |t.agents| && Follows(t.agents[i], scripts[i], local)
    case StartSpecialist(_, tools, rounds, calls) =>
      && t.agents != [] && |t.agents| < |scripts|
      && exists k: nat :: specialists(t.agents[0].rounds, k) == Specialist(tools, rounds, calls, scripts[|t.agents|])
    case RecordSpecialist(_) => true
  }

  ghost predicate RunFollows(turns: seq<Turn>, steps: seq<Step>, scripts: seq<Script>,
                             specialists: (nat, nat) -> Specialist) {
    |turns| == |steps| + 1 && forall k :: 0 <= k < |steps| ==> StepFollows(turns[k], steps[k], scripts, specialists)
  }

  lemma MoreScripts(turns: seq<Turn>, steps: seq<Step>, scripts: seq<Script>, more: Script,
                    specialists: (nat, nat) -> Specialist)
    requires RunFollows(turns, steps, scripts, specialists)
    ensures RunFollows(turns, steps, scripts + [more], specialists)
  {
    forall k | 0 <= k < |steps|
      ensures StepFollows(turns[k], steps[k], scripts + [more], specialists)
    {
      assert StepFollows(turns[k], steps[k], scripts, specialists);
    }
  }

  lemma StepKeepsSize(t: Turn, limits: Limits, step: Step)
    requires Enabled(t, step)
    ensures |Do(t, limits, step).agents| == |t.agents| + if step.StartSpecialist? then 1 else 0
  {
    hide After, Can;
  }

  // ---- the turn ----

  /** A turn in progress: the records of its specialists, and the steps taken so far with the states they led through. */
  class TurnRunner {
    const specialists: (nat, nat) -> Specialist
    var records: seq<Usage>
    ghost const limits: Limits
    ghost const outputBytes: nat
    ghost const tools: set<string>
    ghost var turns: seq<Turn>
    ghost var steps: seq<Step>
    ghost var scripts: seq<Script>

    ghost predicate Valid()
      reads this
    {
      && IsRun(turns, steps, limits, outputBytes, tools) && RunFollows(turns, steps, scripts, specialists)
      && |scripts| == |turns[|steps|].agents|
    }

    ghost function Now(): Turn
      requires Valid()
      reads this
    {
      turns[|steps|]
    }

    /** Every specialist has finished and is recorded, in the order they were started. */
    ghost predicate AllRecorded()
      requires Valid()
      reads this
    {
      Recorded(Now(), records)
    }

    constructor (limits: Limits, outputBytes: nat, tools: set<string>, script: Script, specialists: (nat, nat) -> Specialist)
      ensures this.limits == limits && this.outputBytes == outputBytes && this.tools == tools
      ensures this.specialists == specialists && scripts == [script]
      ensures Valid() && AllRecorded() && Now() == Start(limits, outputBytes, tools)
    {
      this.limits, this.outputBytes, this.tools, this.specialists := limits, outputBytes, tools, specialists;
      turns, steps, scripts, records := [Start(limits, outputBytes, tools)], [], [script], [];
    }

    ghost method Take(step: Step)
      requires Valid() && Enabled(Now(), step) && StepFollows(Now(), step, scripts, specialists) && !step.StartSpecialist?
      modifies this`turns, this`steps
      ensures Valid() && Now() == Do(old(Now()), limits, step)
    {
      StepKeepsSize(Now(), limits, step);
      hide Do, Enabled, Start, StepFollows;
      ghost var next := Do(Now(), limits, step);
      turns, steps := turns + [next], steps + [step];
    }

    /** A specialist joins the turn with its script. */
    ghost method TakeStart(specialist: Specialist, k: nat)
      requires Valid() && Now().agents != [] && specialist == specialists(Now().agents[0].rounds, k)
      requires Enabled(Now(), StartSpecialist(0, specialist.tools, specialist.rounds, specialist.calls))
      modifies this`turns, this`steps, this`scripts
      ensures Valid() && scripts == old(scripts) + [specialist.script]
      ensures Now() == Do(old(Now()), limits, StartSpecialist(0, specialist.tools, specialist.rounds, specialist.calls))
    {
      ghost var step := StartSpecialist(0, specialist.tools, specialist.rounds, specialist.calls);
      StepKeepsSize(Now(), limits, step);
      hide Do, Enabled, Start, Follows, After;
      ghost var next := Do(Now(), limits, step);
      MoreScripts(turns, steps, scripts, specialist.script, specialists);
      scripts := scripts + [specialist.script];
      turns, steps := turns + [next], steps + [step];
    }
  }

  /** The records are those of the turn's specialists. */
  ghost predicate Recorded(t: Turn, records: seq<Usage>) {
    |t.agents| == 1 + |records| && forall j :: 0 <= j < |records| ==> t.agents[1 + j].recorded == Some(records[j])
  }

  /** Agent i of the turn is this one, in the given phase; the accounts are those of the turn. */
  ghost predicate At(t: Turn, i: nat, agent: Agent, budget: Budget) {
    i < |t.agents| && t.agents[i] == agent && t.budget == budget
  }

  /** Only agent i has moved. */
  ghost predicate OthersStay(before: Turn, after: Turn, i: nat) {
    |after.agents| == |before.agents| && forall j :: 0 <= j < |before.agents| && j != i ==> after.agents[j] == before.agents[j]
  }

  lemma OneStep(t: Turn, limits: Limits, i: nat, agent: Agent, budget: Budget, step: Local)
    requires At(t, i, agent, budget) && Can(agent, step)
    ensures Enabled(t, On(i, step))
    ensures var (b, a) := After(budget, agent, i == 0, step);
            At(Do(t, limits, On(i, step)), i, a, b) && OthersStay(t, Do(t, limits, On(i, step)), i)
  {
    hide After, Can;
  }

  /** Records that agent i took a step. */
  ghost method Advance(runner: TurnRunner, i: nat, agent: Agent, budget: Budget, step: Local)
    requires runner.Valid() && At(runner.Now(), i, agent, budget) && Can(agent, step)
    requires i < |runner.scripts| && Follows(agent, runner.scripts[i], step)
    modifies runner`turns, runner`steps
    ensures runner.Valid() && OthersStay(old(runner.Now()), runner.Now(), i)
    ensures var (b, a) := After(budget, agent, i == 0, step);
            At(runner.Now(), i, a, b)
  {
    OneStep(runner.Now(), runner.limits, i, agent, budget, step);
    assert StepFollows(runner.Now(), On(i, step), runner.scripts, runner.specialists);
    hide At, OthersStay, After, Can, Do, Enabled, Follows, StepFollows;
    runner.Take(On(i, step));
  }

  lemma OthersStayOn(a: Turn, b: Turn, c: Turn, i: nat)
    requires OthersStay(a, b, i) && OthersStay(b, c, i)
    ensures OthersStay(a, c, i)
  {
  }

  lemma NoOneMoved(t: Turn, i: nat)
    ensures OthersStay(t, t, i)
  {
  }

  lemma RecordedStays(a: Turn, b: Turn, records: seq<Usage>)
    requires Recorded(a, records) && OthersStay(a, b, 0)
    ensures Recorded(b, records)
  {
  }

  // ---- the loops ----

  /** The agent is the one of the turn, in a phase of its loop, and has the script. */
  ghost predicate Runs(runner: TurnRunner, run: AgentRun, i: nat, script: Script, phase: Phase)
    reads runner, run, run.budget
  {
    && runner.Valid() && At(runner.Now(), i, run.In(phase), run.budget.State()) && (run.lead <==> i == 0)
    && i < |runner.scripts| && runner.scripts[i] == script
  }

  /** No specialist is running while the lead is not inside a delegation. */
  ghost predicate Settled(runner: TurnRunner, run: AgentRun)
    requires runner.Valid()
    reads runner, run
  {
    run.lead ==> runner.AllRecorded()
  }

  /** What the steps of an agent between two of its items keep. */
  lemma StaysSettled(runner: TurnRunner, run: AgentRun, before: Turn, i: nat)
    requires runner.Valid() && (run.lead <==> i == 0) && OthersStay(before, runner.Now(), i)
    requires run.lead ==> Recorded(before, runner.records)
    ensures Settled(runner, run)
  {
    if run.lead {
      RecordedStays(before, runner.Now(), runner.records);
    }
  }

  /** What a reply leaves to do. */
  function PhaseAfterReply(reply: Reply, final: bool): Phase
    requires reply.Response?
  {
    if reply.calls == [] then Finished(reply.accepted)
    else if !reply.accepted || final || |reply.calls| > MAX_TOOL_CALLS_PER_ROUND then Finished(false)
    else Planning(reply.calls, [])
  }

  /** Ends an agent that its script stops. */
  ghost method Stop(runner: TurnRunner, run: AgentRun, i: nat, script: Script, phase: Phase)
    requires Runs(runner, run, i, script, phase) && !phase.Finished? && IsStopped(run.In(phase), script)
    modifies runner`turns, runner`steps
    ensures Runs(runner, run, i, script, Finished(false)) && OthersStay(old(runner.Now()), runner.Now(), i)
  {
    hide OthersStay, At, IsStopped;
    Advance(runner, i, run.In(phase), run.budget.State(), Abort);
  }

  /** One round's provider requests: a response, or the end of the agent. */
  method CallModel(run: AgentRun, script: Script, final: bool, ghost i: nat, runner: TurnRunner) returns (r: Option<Reply>)
    requires Runs(runner, run, i, script, Calling(0, final))
    modifies run, run.budget, runner`turns, runner`steps
    ensures r.None? ==> Runs(runner, run, i, script, Finished(false))
    ensures r.Some? ==> r.value.Response? && Runs(runner, run, i, script, PhaseAfterReply(r.value, final))
    ensures OthersStay(old(runner.Now()), runner.Now(), i) && run.rounds == old(run.rounds)
  {
    hide OthersStay, At, RunFollows;
    NoOneMoved(runner.Now(), i);
    var attempt := 0;
    while true
      invariant attempt < MAX_PROVIDER_ATTEMPTS && Runs(runner, run, i, script, Calling(attempt, final))
      invariant OthersStay(old(runner.Now()), runner.Now(), i) && run.rounds == old(run.rounds)
      decreases MAX_PROVIDER_ATTEMPTS - attempt
    {
      ghost var turn, agent, budget := runner.Now(), run.In(Calling(attempt, final)), run.budget.State();
      if script.interrupted(run.rounds, attempt) {
        Stop(runner, run, i, script, Calling(attempt, final));
        OthersStayOn(old(runner.Now()), turn, runner.Now(), i);
        return None;
      }
      var reply := script.reply(run.rounds, attempt);
      Advance(runner, i, agent, budget, Attempt(reply));
      OthersStayOn(old(runner.Now()), turn, runner.Now(), i);
      match reply {
        case Response(usage, _, _) =>
          run.CountResponse(usage);
          return Some(reply);
        case Failure(retryable) =>
          run.CountFailure();
          if attempt + 1 >= MAX_PROVIDER_ATTEMPTS || !retryable {
            return None;
          }
      }
      attempt := attempt + 1;
    }
  }

  /** Validates the calls of a round in order; a structural violation ends the agent. */
  method PlanCalls(run: AgentRun, calls: seq<Call>, ghost script: Script, ghost i: nat, runner: TurnRunner)
    returns (planned: Option<seq<Item>>)
    requires Runs(runner, run, i, script, Planning(calls, []))
    modifies run, run.budget, runner`turns, runner`steps
    ensures planned.None? ==> Runs(runner, run, i, script, Finished(false))
    ensures planned.Some? ==> Runs(runner, run, i, script, Planning([], planned.value))
    ensures planned.Some? ==> forall item :: item in planned.value ==> item.Tool? || (item.Delegation? && run.lead)
    ensures OthersStay(old(runner.Now()), runner.Now(), i) && run.rounds == old(run.rounds)
  {
    hide OthersStay, At, AfterPlan, RunFollows;
    NoOneMoved(runner.Now(), i);
    var items: seq<Item> := [];
    assert calls[0..] == calls;
    for k := 0 to |calls|
      invariant Runs(runner, run, i, script, Planning(calls[k..], items))
      invariant forall item :: item in items ==> item.Tool? || (item.Delegation? && run.lead)
      invariant OthersStay(old(runner.Now()), runner.Now(), i) && run.rounds == old(run.rounds)
    {
      ghost var turn, agent, budget := runner.Now(), run.In(Planning(calls[k..], items)), run.budget.State();
      assert calls[k..] == [calls[k]] + calls[k + 1..];
      Advance(runner, i, agent, budget, Local.PlanCall);
      OthersStayOn(old(runner.Now()), turn, runner.Now(), i);
      var r := run.PlanCall(calls[k], calls[k + 1..], items);
      match r {
        case Fatal =>
          return None;
        case Rejected(_) =>
        case Accepted(item) =>
          items := items + [item];
      }
    }
    assert calls[|calls|..] == [];
    planned := Some(items);
  }

  /** Runs one accepted call: a tool, or a specialist to its end. */
  method RunItem(run: AgentRun, item: Item, script: Script, k: nat, limits: Limits, ghost pending: seq<Item>, ghost i: nat,
                 runner: TurnRunner) returns (ok: bool)
    requires Runs(runner, run, i, script, Running(pending)) && Settled(runner, run) && runner.limits == limits
    requires pending != [] && pending[0] == item && (item.Tool? || (item.Delegation? && run.lead))
    modifies run, run.budget, runner
    ensures Runs(runner, run, i, script, if ok then Running(pending[1..]) else Finished(false))
    ensures run.rounds == old(run.rounds) && (ok ==> Settled(runner, run))
    ensures !run.lead ==> OthersStay(old(runner.Now()), runner.Now(), i) && runner.records == old(runner.records)
    ensures !run.lead ==> runner.scripts == old(runner.scripts)
    decreases if run.lead then 1 else 0, 1
  {
    hide OthersStay, At, After, RunFollows, Recorded;
    ghost var turn, agent, budget := runner.Now(), run.In(Running(pending)), run.budget.State();
    NoOneMoved(runner.Now(), i);
    if item.Delegation? {
      ok := RunSpecialist(run, item, script, k, limits, pending, runner);
      return;
    }
    if script.toolFails(run.rounds, k) {
      Stop(runner, run, i, script, Running(pending));
      return false;
    }
    assert Without(pending, 0) == pending[1..];
    Advance(runner, i, agent, budget, Local.Execute(0, script.resultSize(run.rounds, k)));
    var fits := run.ExecuteCall(pending, 0, item.fingerprint, script.resultSize(run.rounds, k));
    StaysSettled(runner, run, turn, i);
    ok := true;
  }

  /** Starts a specialist for the lead, runs it, and records it; the turn may end with it. */
  method RunSpecialist(run: AgentRun, item: Item, script: Script, k: nat, limits: Limits, ghost pending: seq<Item>,
                       runner: TurnRunner) returns (ok: bool)
    requires run.lead && Runs(runner, run, 0, script, Running(pending)) && Settled(runner, run) && runner.limits == limits
    requires pending != [] && pending[0] == item && item.Delegation?
    modifies run, run.budget, runner
    ensures Runs(runner, run, 0, script, if ok then Running(pending[1..]) else Finished(false))
    ensures run.rounds == old(run.rounds) && (ok ==> Settled(runner, run))
    decreases if run.lead then 1 else 0, 0
  {
    hide RunFollows, OthersStay, At, Recorded, Capped, Do, Enabled, IsStopped;
    var specialist := runner.specialists(run.rounds, k);
    ghost var n := 1 + |runner.records|;
    ghost var waiting := pending[0 := Waiting(n)];
    var child := BeginSpecialist(run, item, specialist, k, script, limits, pending, runner);
    ghost var started, lead := runner.Now(), run.In(Running(waiting));
    AtItsBudget(started, 0, lead, run.budget.State());
    var done := RunAgent(child, specialist.script, limits, n, runner);
    SpecialistIsDone(started, runner.Now(), n, lead, runner.records, run.budget.State(), child.In(Finished(done)));
    if script.toolFails(run.rounds, k) {
      ItemStops(lead, script, k);
      Stop(runner, run, 0, script, Running(waiting));
      return false;
    }
    RecordsASpecialist(runner.Now(), limits, lead, run.budget.State(), waiting, n, done, runner.records,
                       child.In(Finished(done)));
    RecordingFollows(runner.Now(), runner.scripts, runner.specialists);
    runner.Take(RecordSpecialist(0));
    runner.records := runner.records + [child.usage];
    assert Without(waiting, 0) == pending[1..];
    ok := true;
  }

  /** The specialist takes its place in the turn, and the lead waits for it. */
  method BeginSpecialist(run: AgentRun, item: Item, specialist: Specialist, k: nat, ghost script: Script, limits: Limits,
                         ghost pending: seq<Item>, runner: TurnRunner) returns (child: AgentRun)
    requires run.lead && Runs(runner, run, 0, script, Running(pending)) && Settled(runner, run) && runner.limits == limits
    requires pending != [] && pending[0] == item && item.Delegation? && specialist == runner.specialists(run.rounds, k)
    modifies run, runner`turns, runner`steps, runner`scripts
    ensures fresh(child) && child.budget == run.budget && !child.lead && child.rounds == 0 && run.rounds == old(run.rounds)
    ensures var n := 1 + |runner.records|;
            && Runs(runner, run, 0, script, Running(pending[0 := Waiting(n)]))
            && Runs(runner, child, n, specialist.script, Idle)
            && |runner.Now().agents| == n + 1 && AllBut(runner.Now(), runner.records)
  {
    hide RunFollows;
    var rounds, calls := Capped(specialist.rounds, limits.maxRounds), Capped(specialist.calls, limits.maxToolCalls);
    StartsASpecialist(runner.Now(), limits, run.In(Running(pending)), run.budget.State(), pending, specialist,
                      runner.records);
    hide Capped, Do, Enabled;
    runner.TakeStart(specialist, k);
    child := run.Delegate(item.fingerprint, specialist.tools, rounds, calls);
  }

  /** The specialists but the last are recorded. */
  ghost predicate AllBut(t: Turn, records: seq<Usage>) {
    |t.agents| == |records| + 2 && forall j :: 0 <= j < |records| ==> t.agents[1 + j].recorded == Some(records[j])
  }

  lemma AtItsBudget(t: Turn, i: nat, agent: Agent, budget: Budget)
    requires At(t, i, agent, budget)
    ensures At(t, i, agent, t.budget)
  {
  }

  lemma ItemStops(lead: Agent, script: Script, k: nat)
    requires lead.phase.Running? && script.toolFails(lead.rounds, k)
    ensures IsStopped(lead, script)
  {
  }

  lemma RecordingFollows(t: Turn, scripts: seq<Script>, specialists: (nat, nat) -> Specialist)
    ensures StepFollows(t, RecordSpecialist(0), scripts, specialists)
  {
  }

  lemma StartsASpecialist(t: Turn, limits: Limits, lead: Agent, budget: Budget, pending: seq<Item>, specialist: Specialist,
                          records: seq<Usage>)
    requires At(t, 0, lead, budget) && lead.phase == Running(pending) && pending != [] && pending[0].Delegation?
    requires Recorded(t, records)
    ensures var step := StartSpecialist(0, specialist.tools, specialist.rounds, specialist.calls);
            var n, after := 1 + |records|, Do(t, limits, step);
            && Enabled(t, step) && |t.agents| == n && AllBut(after, records)
            && At(after, 0, lead.(executed := lead.executed + [pending[0].fingerprint],
                                  phase := Running(pending[0 := Waiting(n)])), budget)
            && At(after, n, NewAgent(specialist.tools, Capped(specialist.rounds, limits.maxRounds),
                                     Capped(specialist.calls, limits.maxToolCalls)), budget)
  {
    hide Capped;
  }

  /** While a specialist runs, the lead waits and the others stay recorded. */
  lemma SpecialistIsDone(before: Turn, after: Turn, n: nat, lead: Agent, records: seq<Usage>, budget: Budget, child: Agent)
    requires OthersStay(before, after, n) && n == 1 + |records| && At(before, 0, lead, before.budget)
    requires AllBut(before, records) && At(after, n, child, budget)
    ensures AllBut(after, records) && At(after, 0, lead, budget)
  {
  }

  lemma RecordsASpecialist(t: Turn, limits: Limits, lead: Agent, budget: Budget, pending: seq<Item>, n: nat, done: bool,
                           records: seq<Usage>, child: Agent)
    requires At(t, 0, lead, budget) && lead.phase == Running(pending) && pending != [] && pending[0] == Waiting(n)
    requires n == 1 + |records| && AllBut(t, records) && At(t, n, child, budget) && child.phase == Finished(done)
    ensures Enabled(t, RecordSpecialist(0))
    ensures var after := Do(t, limits, RecordSpecialist(0));
            && At(after, 0, lead.(phase := Running(Without(pending, 0))), budget) && Recorded(after, records + [child.usage])
  {
  }

  /** Runs the accepted calls of a round, one after the other. */
  method RunItems(run: AgentRun, items: seq<Item>, script: Script, limits: Limits, ghost i: nat, runner: TurnRunner)
    returns (ok: bool)
    requires Runs(runner, run, i, script, Running(items)) && Settled(runner, run) && runner.limits == limits
    requires forall item :: item in items ==> item.Tool? || (item.Delegation? && run.lead)
    modifies run, run.budget, runner
    ensures Runs(runner, run, i, script, if ok then Running([]) else Finished(false))
    ensures run.rounds == old(run.rounds) && (ok ==> Settled(runner, run))
    ensures !run.lead ==> OthersStay(old(runner.Now()), runner.Now(), i) && runner.records == old(runner.records)
    ensures !run.lead ==> runner.scripts == old(runner.scripts)
    decreases if run.lead then 1 else 0, 2
  {
    hide OthersStay, At, RunFollows, Recorded;
    NoOneMoved(runner.Now(), i);
    assert items[0..] == items;
    for k := 0 to |items|
      invariant Runs(runner, run, i, script, Running(items[k..])) && run.rounds == old(run.rounds) && Settled(runner, run)
      invariant !run.lead ==> OthersStay(old(runner.Now()), runner.Now(), i) && runner.records == old(runner.records)
      invariant !run.lead ==> runner.scripts == old(runner.scripts)
    {
      ghost var turn := runner.Now();
      var done := RunItem(run, items[k], script, k, limits, items[k..], i, runner);
      if !run.lead {
        OthersStayOn(old(runner.Now()), turn, runner.Now(), i);
      }
      assert items[k..][1..] == items[k + 1..];
      if !done {
        return false;
      }
    }
    assert items[|items|..] == [];
    ok := true;
  }

  /** An agent's whole loop: rounds until an answer, an error, or the last round. */
  method RunAgent(run: AgentRun, script: Script, limits: Limits, ghost i: nat, runner: TurnRunner) returns (ok: bool)
    requires Runs(runner, run, i, script, Idle) && Settled(runner, run) && runner.limits == limits && run.rounds == 0
    modifies run, run.budget, runner
    ensures Runs(runner, run, i, script, Finished(ok)) && (ok ==> Settled(runner, run))
    ensures !run.lead ==> OthersStay(old(runner.Now()), runner.Now(), i) && runner.records == old(runner.records)
    ensures !run.lead ==> runner.scripts == old(runner.scripts)
    decreases if run.lead then 1 else 0, 4
  {
    hide OthersStay, At, RunFollows, Recorded;
    NoOneMoved(runner.Now(), i);
    while run.rounds < run.maxRounds
      invariant Runs(runner, run, i, script, Idle) && Settled(runner, run)
      invariant !run.lead ==> OthersStay(old(runner.Now()), runner.Now(), i) && runner.records == old(runner.records)
      invariant !run.lead ==> runner.scripts == old(runner.scripts)
      decreases run.maxRounds - run.rounds
    {
      ghost var turn := runner.Now();
      var more;
      more, ok := RunRound(run, script, limits, i, runner);
      if !run.lead {
        OthersStayOn(old(runner.Now()), turn, runner.Now(), i);
      }
      if !more {
        return;
      }
    }
    ghost var turn := runner.Now();
    Stop(runner, run, i, script, Idle);
    if !run.lead {
      OthersStayOn(old(runner.Now()), turn, runner.Now(), i);
    }
    ok := false;
  }

  method RunRound(run: AgentRun, script: Script, limits: Limits, ghost i: nat, runner: TurnRunner)
    returns (more: bool, ok: bool)
    requires Runs(runner, run, i, script, Idle) && Settled(runner, run) && runner.limits == limits
    requires run.rounds < run.maxRounds
    modifies run, run.budget, runner
    ensures Runs(runner, run, i, script, if more then Idle else Finished(ok)) && (more || ok ==> Settled(runner, run))
    ensures run.rounds == old(run.rounds) + 1
    ensures !run.lead ==> OthersStay(old(runner.Now()), runner.Now(), i) && runner.records == old(runner.records)
    ensures !run.lead ==> runner.scripts == old(runner.scripts)
    decreases if run.lead then 1 else 0, 3
  {
    hide OthersStay, At, RunFollows, Recorded;
    ghost var t0 := runner.Now();
    Advance(runner, i, run.In(Idle), run.budget.State(), Local.BeginRound);
    var final := run.BeginRound();
    ghost var t1 := runner.Now();
    var reply := CallModel(run, script, final, i, runner);
    OthersStayOn(t0, t1, runner.Now(), i);
    StaysSettled(runner, run, t0, i);
    if reply.None? {
      return false, false;
    }
    var calls := reply.value.calls;
    if calls == [] {
      return false, reply.value.accepted;
    }
    if !reply.value.accepted || final || |calls| > MAX_TOOL_CALLS_PER_ROUND {
      return false, false;
    }
    more, ok := RunTools(run, calls, script, limits, t0, i, runner);
  }

  /** Plans the calls of a round and runs those accepted. */
  method RunTools(run: AgentRun, calls: seq<Call>, script: Script, limits: Limits, ghost t0: Turn, ghost i: nat,
                  runner: TurnRunner) returns (more: bool, ok: bool)
    requires Runs(runner, run, i, script, Planning(calls, [])) && Settled(runner, run) && runner.limits == limits
    requires OthersStay(t0, runner.Now(), i)
    modifies run, run.budget, runner
    ensures Runs(runner, run, i, script, if more then Idle else Finished(ok)) && !ok && (more ==> Settled(runner, run))
    ensures run.rounds == old(run.rounds)
    ensures !run.lead ==> OthersStay(t0, runner.Now(), i) && runner.records == old(runner.records)
    ensures !run.lead ==> runner.scripts == old(runner.scripts)
    decreases if run.lead then 1 else 0, 3, 0
  {
    hide OthersStay, At, RunFollows, Recorded;
    more, ok := false, false;
    ghost var t2 := runner.Now();
    var planned := PlanCalls(run, calls, script, i, runner);
    OthersStayOn(t0, t2, runner.Now(), i);
    if planned.None? {
      return;
    }
    ghost var t3 := runner.Now();
    Advance(runner, i, run.In(Planning([], planned.value)), run.budget.State(), StartCalls);
    OthersStayOn(t0, t3, runner.Now(), i);
    OthersStayOn(t2, t3, runner.Now(), i);
    StaysSettled(runner, run, t2, i);
    ghost var t4 := runner.Now();
    var done := RunItems(run, planned.value, script, limits, i, runner);
    if !run.lead {
      OthersStayOn(t0, t4, runner.Now(), i);
    }
    if !done {
      return;
    }
    ghost var t5 := runner.Now();
    Advance(runner, i, run.In(Running([])), run.budget.State(), EndRound);
    StaysSettled(runner, run, t5, i);
    if !run.lead {
      OthersStayOn(t0, t5, runner.Now(), i);
    }
    more := true;
  }

  /** The sum of the records. */
  function UsageOf(records: seq<Usage>): Usage {
    if records == [] then NO_USAGE else records[0].Add(UsageOf(records[1..]))
  }

  lemma {:induction false} RecordsAreTheSpecialists(agents: seq<Agent>, records: seq<Usage>)
    requires |agents| == |records| && forall j :: 0 <= j < |records| ==> agents[j].recorded == Some(records[j])
    ensures RecordedUsage(agents) == UsageOf(records)
    decreases |agents|
  {
    if agents != [] {
      assert forall j :: 0 <= j < |records| - 1 ==> agents[1..][j] == agents[j + 1] && records[1..][j] == records[j + 1];
      RecordsAreTheSpecialists(agents[1..], records[1..]);
    }
  }

  /** How a turn ended: its lead, what is left of its budget, whose usage is that of the turn, and its records. */
  datatype Ended = Ended(ok: bool, lead: Agent, left: Budget, records: seq<Usage>)

  /** The end of a turn is that of one of its runs, taken by the scripts. */
  ghost predicate IsEnd(e: Ended, turns: seq<Turn>, steps: seq<Step>, scripts: seq<Script>, script: Script,
                        specialists: (nat, nat) -> Specialist, limits: Limits, outputBytes: nat, tools: set<string>) {
    && IsRun(turns, steps, limits, outputBytes, tools) && RunFollows(turns, steps, scripts, specialists)
    && scripts != [] && scripts[0] == script
    && At(turns[|steps|], 0, e.lead, e.left) && e.lead.phase == Finished(e.ok)
    && (e.ok ==> Recorded(turns[|steps|], e.records))
  }

  /**
   A whole turn: the lead's loop over a fresh budget. It ends as a run of the turn ends
   that follows the scripts, so it is bounded: what it took of the allowance and what is
   left make up the limits, and the usage of a successful turn is the lead's and that of
   the recorded specialists.
   */
  method RunTurn(limits: Limits, outputBytes: nat, tools: set<string>, script: Script, specialists: (nat, nat) -> Specialist)
    returns (e: Ended, ghost turns: seq<Turn>, ghost steps: seq<Step>, ghost scripts: seq<Script>)
    ensures IsEnd(e, turns, steps, scripts, script, specialists, limits, outputBytes, tools)
    ensures e.ok ==> e.left.usage == e.lead.usage.Add(UsageOf(e.records)) && |e.records| <= MAX_DELEGATIONS_PER_TURN
    ensures var agents := turns[|steps|].agents;
            && |agents| <= 1 + MAX_DELEGATIONS_PER_TURN && e.lead == agents[0]
            && Sum(agents, CallsOf()) + e.left.toolCalls == limits.maxToolCalls
            && Sum(agents, KeptOf()) + e.left.outputBytes == outputBytes
            && Sum(agents, AttemptsOf()) <= MAX_PROVIDER_ATTEMPTS * Sum(agents, RoundsOf())
    ensures e.lead.rounds <= limits.maxRounds && e.lead.counted + e.left.toolCalls <= limits.maxToolCalls
    ensures |steps| <= (MAX_DELEGATIONS_PER_TURN + 1) * (1 + ROUND_COST * limits.maxRounds)
  {
    var budget := new RunBudget(limits.maxToolCalls, outputBytes);
    var run := new AgentRun(budget, true, tools, limits.maxRounds, limits.maxToolCalls);
    var runner := new TurnRunner(limits, outputBytes, tools, script, specialists);
    var ok := RunAgent(run, script, limits, 0, runner);
    e := Ended(ok, run.In(Finished(ok)), budget.State(), runner.records);
    turns, steps, scripts := runner.turns, runner.steps, runner.scripts;
    TheEndIsBounded(e, turns, steps, scripts, script, specialists, limits, outputBytes, tools);
  }

  /** What the end of a run of the turn means for what it returns. */
  lemma TheEndIsBounded(e: Ended, turns: seq<Turn>, steps: seq<Step>, scripts: seq<Script>, script: Script,
                        specialists: (nat, nat) -> Specialist, limits: Limits, outputBytes: nat, tools: set<string>)
    requires IsEnd(e, turns, steps, scripts, script, specialists, limits, outputBytes, tools)
    ensures e.ok ==> e.left.usage == e.lead.usage.Add(UsageOf(e.records)) && |e.records| <= MAX_DELEGATIONS_PER_TURN
    ensures var agents := turns[|steps|].agents;
            && 1 <= |agents| <= 1 + MAX_DELEGATIONS_PER_TURN && e.lead == agents[0]
            && Sum(agents, CallsOf()) + e.left.toolCalls == limits.maxToolCalls
            && Sum(agents, KeptOf()) + e.left.outputBytes == outputBytes
            && Sum(agents, AttemptsOf()) <= MAX_PROVIDER_ATTEMPTS * Sum(agents, RoundsOf())
    ensures e.lead.rounds <= limits.maxRounds && e.lead.counted + e.left.toolCalls <= limits.maxToolCalls
    ensures |steps| <= (MAX_DELEGATIONS_PER_TURN + 1) * (1 + ROUND_COST * limits.maxRounds)
  {
    var end := turns[|steps|];
    RunsKeepTheBudgetAndEnd(turns, steps, limits, outputBytes, tools, |steps|);
    EveryTurnIsBounded(turns, steps, limits, outputBytes, tools, |steps|);
    EveryTurnEnds(turns, steps, limits, outputBytes, tools);
    if e.ok {
      ReportedUsageIsTheRecords(turns, steps, limits, outputBytes, tools, |steps|);
      assert forall j :: 0 <= j < |e.records| ==> end.agents[1..][j] == end.agents[1 + j];
      RecordsAreTheSpecialists(end.agents[1..], e.records);
    }
    hide IsRun, RunFollows;
    assert Sum(end.agents, CallsOf()) == CallsOf()(end.agents[0]) + Sum(end.agents[1..], CallsOf());
  }
}
