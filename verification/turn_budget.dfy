/**
 One question's turn: the lead agent and the specialists it starts run interleaved and
 share one budget. A step is what one agent does between two uses of the shared state;
 the provider's answers and the tools' results are whatever the step says they are.
 */
module TurnBudget {
  import opened Common

  const MAX_DELEGATIONS_PER_TURN: nat := 3
  const MAX_PROVIDER_ATTEMPTS: nat := 2
  const MAX_TOOL_CALLS_PER_ROUND: nat := 4
  const DELEGATE_TOOL := "delegate_to_specialist"

  datatype Usage = Usage(requests: nat, input: nat, output: nat, cached: nat, reasoning: nat, total: nat) {
    function Add(other: Usage): Usage {
      Usage(requests + other.requests, input + other.input, output + other.output,
            cached + other.cached, reasoning + other.reasoning, total + other.total)
    }
  }

  const NO_USAGE := Usage(0, 0, 0, 0, 0, 0)

  // ---- agents ----

  /** A tool call as the provider proposes it: structurally sound, its name, its canonical fingerprint, its arguments valid. */
  datatype Call = Call(wellFormed: bool, name: string, fingerprint: string, prepared: bool)

  /** An accepted call that has not finished. */
  datatype Item = Tool(fingerprint: string) | Delegation(fingerprint: string) | Waiting(child: nat)

  datatype Phase =
    | Idle
    | Calling(made: nat, final: bool)
    | Planning(todo: seq<Call>, planned: seq<Item>)
    | Running(pending: seq<Item>)
    | Finished(ok: bool)

  datatype Agent = Agent(
    tools: set<string>, maxRounds: nat, maxToolCalls: nat, rounds: nat, attempts: nat, counted: nat,
    seen: set<string>, executed: seq<string>, kept: nat, usage: Usage, phase: Phase, recorded: Option<Usage>)
  {
    function Items(): seq<Item> {
      match phase
      case Planning(_, planned) => planned
      case Running(pending) => pending
      case _ => []
    }
  }

  datatype Budget = Budget(toolCalls: nat, outputBytes: nat, delegations: nat, usage: Usage) {
    predicate Exhausted() {
      toolCalls == 0 || outputBytes == 0
    }
  }

  function NewAgent(tools: set<string>, maxRounds: nat, maxToolCalls: nat): Agent {
    Agent(tools, maxRounds, maxToolCalls, 0, 0, 0, {}, [], 0, NO_USAGE, Idle, None)
  }

  /** The lead is agent 0; every other agent is a specialist it started. */
  datatype Turn = Turn(budget: Budget, agents: seq<Agent>)

  // ---- what one agent does on its own ----

  datatype Reply = Failure(retryable: bool) | Response(usage: Usage, calls: seq<Call>, accepted: bool)

  datatype Local = BeginRound | Attempt(reply: Reply) | PlanCall | StartCalls | Execute(index: nat, size: nat) | EndRound | Abort

  predicate Can(a: Agent, step: Local) {
    match step
    case BeginRound => a.phase.Idle? && a.rounds < a.maxRounds
    case Attempt(_) => a.phase.Calling? && a.phase.made < MAX_PROVIDER_ATTEMPTS
    case PlanCall => a.phase.Planning? && a.phase.todo != []
    case StartCalls => a.phase.Planning? && a.phase.todo == []
    case Execute(k, _) => a.phase.Running? && k < |a.phase.pending| && a.phase.pending[k].Tool?
    case EndRound => a.phase.Running? && a.phase.pending == []
    case Abort => !a.phase.Finished?
  }

  /** A completed request counts as one even when the provider reports no counters. */
  function Counted(usage: Usage): Usage {
    if usage.requests == 0 then usage.(requests := 1) else usage
  }

  predicate Allows(a: Agent, lead: bool, name: string) {
    if name == DELEGATE_TOOL then lead else name in a.tools
  }

  function AfterReply(b: Budget, a: Agent, reply: Reply): (Budget, Agent)
    requires a.phase.Calling?
  {
    var tried := a.(attempts := a.attempts + 1);
    match reply
    case Failure(retryable) =>
      var again := a.phase.made + 1 < MAX_PROVIDER_ATTEMPTS && retryable;
      (b, tried.(phase := if again then a.phase.(made := a.phase.made + 1) else Finished(false)))
    case Response(usage, calls, accepted) =>
      var counted := Counted(usage);
      var phase :=
        if calls == [] then Finished(accepted)
        else if !accepted || a.phase.final || |calls| > MAX_TOOL_CALLS_PER_ROUND then Finished(false)
        else Planning(calls, []);
      (b.(usage := b.usage.Add(counted)), tried.(usage := a.usage.Add(counted), phase := phase))
  }

  /** Validates and budgets the next proposed call; a rejected one is answered and gone. */
  function AfterPlan(b: Budget, a: Agent, lead: bool): (Budget, Agent)
    requires a.phase.Planning? && a.phase.todo != []
  {
    var call, next := a.phase.todo[0], a.phase.(todo := a.phase.todo[1..]);
    if !call.wellFormed then (b, a.(phase := Finished(false)))
    else if a.counted >= a.maxToolCalls || b.toolCalls == 0 then (b, a.(phase := next))
    else
      var spent, taken := b.(toolCalls := b.toolCalls - 1), a.(counted := a.counted + 1, phase := next);
      if !Allows(a, lead, call.name) || call.fingerprint in a.seen then (spent, taken)
      else
        var noted := taken.(seen := a.seen + {call.fingerprint});
        if !call.prepared then (spent, noted)
        else if call.name != DELEGATE_TOOL then (spent, noted.(phase := next.(planned := next.planned + [Tool(call.fingerprint)])))
        else if b.delegations == 0 then (spent, noted)
        else (spent.(delegations := b.delegations - 1),
              noted.(phase := next.(planned := next.planned + [Delegation(call.fingerprint)])))
  }

  function Without(items: seq<Item>, k: nat): seq<Item>
    requires k < |items|
  {
    items[..k] + items[k + 1..]
  }

  function After(b: Budget, a: Agent, lead: bool, step: Local): (Budget, Agent)
    requires Can(a, step)
  {
    match step
    case BeginRound =>
      (b, a.(rounds := a.rounds + 1, phase := Calling(0, a.rounds + 1 == a.maxRounds || b.Exhausted() || a.counted >= a.maxToolCalls)))
    case Attempt(reply) => AfterReply(b, a, reply)
    case PlanCall => AfterPlan(b, a, lead)
    case StartCalls => (b, a.(phase := Running(a.phase.planned)))
    case Execute(k, size) =>
      var ran := a.(executed := a.executed + [a.phase.pending[k].fingerprint], phase := Running(Without(a.phase.pending, k)));
      if size > b.outputBytes then (b, ran)
      else (b.(outputBytes := b.outputBytes - size), ran.(kept := a.kept + size))
    case EndRound => (b, a.(phase := Idle))
    case Abort => (b, a.(phase := Finished(false)))
  }

  // ---- the turn ----

  datatype Step =
    | On(agent: nat, step: Local)
    | StartSpecialist(item: nat, tools: set<string>, definedRounds: int, definedCalls: int)
    | RecordSpecialist(item: nat)

  /** What the service allows any agent. */
  datatype Limits = Limits(maxRounds: nat, maxToolCalls: nat)

  /** A specialist's own limit, unless it has none or the service's is lower. */
  function Capped(defined: int, cap: nat): (r: nat)
    ensures r <= cap && (0 < defined <= cap ==> r == defined)
  {
    if defined <= 0 || defined > cap then cap else defined
  }

  function PendingItem(t: Turn, k: nat): Option<Item> {
    if t.agents != [] && t.agents[0].phase.Running? && k < |t.agents[0].phase.pending|
    then Some(t.agents[0].phase.pending[k]) else None
  }

  predicate Enabled(t: Turn, step: Step) {
    match step
    case On(i, local) => i < |t.agents| && Can(t.agents[i], local)
    case StartSpecialist(k, _, _, _) => PendingItem(t, k).Some? && PendingItem(t, k).value.Delegation?
    case RecordSpecialist(k) =>
      PendingItem(t, k).Some? && PendingItem(t, k).value.Waiting?
      && PendingItem(t, k).value.child < |t.agents| && t.agents[PendingItem(t, k).value.child].phase.Finished?
  }

  function Do(t: Turn, limits: Limits, step: Step): Turn
    requires Enabled(t, step)
  {
    match step
    case On(i, local) =>
      var (b, a) := After(t.budget, t.agents[i], i == 0, local);
      Turn(b, t.agents[i := a])
    case StartSpecialist(k, tools, rounds, calls) =>
      var lead := t.agents[0];
      var started := lead.(executed := lead.executed + [lead.phase.pending[k].fingerprint],
                           phase := Running(lead.phase.pending[k := Waiting(|t.agents|)]));
      Turn(t.budget, t.agents[0 := started] + [NewAgent(tools, Capped(rounds, limits.maxRounds), Capped(calls, limits.maxToolCalls))])
    case RecordSpecialist(k) =>
      var lead := t.agents[0];
      var child := t.agents[lead.phase.pending[k].child];
      var done := lead.(phase := Running(Without(lead.phase.pending, k)));
      Turn(t.budget, t.agents[lead.phase.pending[k].child := child.(recorded := Some(child.usage))][0 := done])
  }

  function Start(limits: Limits, outputBytes: nat, tools: set<string>): Turn {
    Turn(Budget(limits.maxToolCalls, outputBytes, MAX_DELEGATIONS_PER_TURN, NO_USAGE),
         [NewAgent(tools, limits.maxRounds, limits.maxToolCalls)])
  }

  // ---- sums ----

  function Sum<T>(xs: seq<T>, weight: T -> nat): nat {
    if xs == [] then 0 else weight(xs[0]) + Sum(xs[1..], weight)
  }

  lemma {:induction false} SumConcat<T>(xs: seq<T>, ys: seq<T>, weight: T -> nat)
    ensures Sum(xs + ys, weight) == Sum(xs, weight) + Sum(ys, weight)
    decreases |xs|
  {
    if xs == [] {
      assert xs + ys == ys;
    } else {
      assert (xs + ys)[1..] == xs[1..] + ys;
      SumConcat(xs[1..], ys, weight);
    }
  }

  lemma SumAppend<T>(xs: seq<T>, x: T, weight: T -> nat)
    ensures Sum(xs + [x], weight) == Sum(xs, weight) + weight(x)
  {
    SumConcat(xs, [x], weight);
    assert [x][1..] == [];
  }

  lemma SumOne<T>(x: T, weight: T -> nat)
    ensures Sum([x], weight) == weight(x)
  {
    assert [x][1..] == [];
  }

  lemma SumAt<T>(xs: seq<T>, k: nat, weight: T -> nat)
    requires k < |xs|
    ensures Sum(xs, weight) == Sum(xs[..k], weight) + weight(xs[k]) + Sum(xs[k + 1..], weight)
  {
    assert xs == xs[..k] + xs[k..];
    SumConcat(xs[..k], xs[k..], weight);
    assert xs[k..][1..] == xs[k + 1..];
  }

  lemma SumUpdate<T>(xs: seq<T>, k: nat, x: T, weight: T -> nat)
    requires k < |xs|
    ensures Sum(xs[k := x], weight) + weight(xs[k]) == Sum(xs, weight) + weight(x)
  {
    SumAt(xs, k, weight);
    SumAt(xs[k := x], k, weight);
    assert xs[k := x][..k] == xs[..k] && xs[k := x][k + 1..] == xs[k + 1..];
  }

  lemma SumWithout(items: seq<Item>, k: nat, weight: Item -> nat)
    requires k < |items|
    ensures Sum(items, weight) == Sum(Without(items, k), weight) + weight(items[k])
  {
    SumAt(items, k, weight);
    SumConcat(items[..k], items[k + 1..], weight);
  }

  // ---- what every step keeps ----

  function CallsOf(): Agent -> nat {
    (a: Agent) => a.counted
  }

  function KeptOf(): Agent -> nat {
    (a: Agent) => a.kept
  }

  function AttemptsOf(): Agent -> nat {
    (a: Agent) => a.attempts
  }

  function RoundsOf(): Agent -> nat {
    (a: Agent) => a.rounds
  }

  function UsesOf(fingerprint: string): Item -> nat {
    (item: Item) => if !item.Waiting? && item.fingerprint == fingerprint then 1 else 0
  }

  function DelegationsIn(): Item -> nat {
    (item: Item) => if item.Delegation? then 1 else 0
  }

  function WaitsFor(child: nat): Item -> nat {
    (item: Item) => if item == Waiting(child) then 1 else 0
  }

  /** How often an agent has run or is about to run a call. */
  function Uses(a: Agent, fingerprint: string): nat {
    multiset(a.executed)[fingerprint] + Sum(a.Items(), UsesOf(fingerprint))
  }

  predicate PhaseOk(a: Agent) {
    match a.phase
    case Calling(made, _) =>
      made < MAX_PROVIDER_ATTEMPTS && a.attempts + MAX_PROVIDER_ATTEMPTS <= MAX_PROVIDER_ATTEMPTS * a.rounds + made
    case Planning(todo, planned) => |todo| + |planned| <= MAX_TOOL_CALLS_PER_ROUND && a.attempts <= MAX_PROVIDER_ATTEMPTS * a.rounds
    case Running(pending) => |pending| <= MAX_TOOL_CALLS_PER_ROUND && a.attempts <= MAX_PROVIDER_ATTEMPTS * a.rounds
    case _ => a.attempts <= MAX_PROVIDER_ATTEMPTS * a.rounds
  }

  ghost predicate EachCallOnce(a: Agent) {
    forall fingerprint :: Uses(a, fingerprint) <= if fingerprint in a.seen then 1 else 0
  }

  ghost predicate AgentOk(a: Agent, lead: bool) {
    && a.rounds <= a.maxRounds && a.counted <= a.maxToolCalls
    && PhaseOk(a) && EachCallOnce(a)
    && (!lead ==> forall item :: item in a.Items() ==> item.Tool?)
  }

  /** Nothing pending, or the same calls pending as before. */
  lemma OnceStays(a: Agent, a': Agent)
    requires EachCallOnce(a) && a'.executed == a.executed && a.seen <= a'.seen
    requires a'.Items() == a.Items() || a'.Items() == []
    ensures EachCallOnce(a') && Sum(a'.Items(), DelegationsIn()) <= Sum(a.Items(), DelegationsIn())
  {
    forall fingerprint
      ensures Uses(a', fingerprint) <= if fingerprint in a'.seen then 1 else 0
    {
      assert Uses(a, fingerprint) <= if fingerprint in a.seen then 1 else 0;
    }
  }

  /** A call whose fingerprint is new becomes pending. */
  lemma OnceWithItem(a: Agent, a': Agent, item: Item)
    requires EachCallOnce(a) && !item.Waiting? && item.fingerprint !in a.seen
    requires a'.executed == a.executed && a'.seen == a.seen + {item.fingerprint} && a'.Items() == a.Items() + [item]
    ensures EachCallOnce(a')
    ensures Sum(a'.Items(), DelegationsIn()) == Sum(a.Items(), DelegationsIn()) + if item.Delegation? then 1 else 0
  {
    forall fingerprint
      ensures Uses(a', fingerprint) <= if fingerprint in a'.seen then 1 else 0
    {
      assert Uses(a, fingerprint) <= if fingerprint in a.seen then 1 else 0;
      SumAppend(a.Items(), item, UsesOf(fingerprint));
    }
    SumAppend(a.Items(), item, DelegationsIn());
  }

  /** A pending call is run: it moves from the pending calls to the executed ones. */
  lemma OnceWhenRun(a: Agent, a': Agent, k: nat)
    requires EachCallOnce(a) && k < |a.Items()| && !a.Items()[k].Waiting?
    requires a'.executed == a.executed + [a.Items()[k].fingerprint] && a'.seen == a.seen
    requires a'.Items() == Without(a.Items(), k) || exists j :: a'.Items() == a.Items()[k := Waiting(j)]
    ensures EachCallOnce(a')
    ensures Sum(a'.Items(), DelegationsIn()) + (if a.Items()[k].Delegation? then 1 else 0) == Sum(a.Items(), DelegationsIn())
  {
    var items := a.Items();
    forall fingerprint
      ensures Uses(a', fingerprint) <= if fingerprint in a'.seen then 1 else 0
    {
      assert Uses(a, fingerprint) <= if fingerprint in a.seen then 1 else 0;
      ItemRun(items, a'.Items(), k, UsesOf(fingerprint));
    }
    ItemRun(items, a'.Items(), k, DelegationsIn());
  }

  lemma ItemRun(items: seq<Item>, after: seq<Item>, k: nat, weight: Item -> nat)
    requires k < |items| && forall j :: weight(Waiting(j)) == 0
    requires after == Without(items, k) || exists j :: after == items[k := Waiting(j)]
    ensures Sum(items, weight) == Sum(after, weight) + weight(items[k])
  {
    if after == Without(items, k) {
      SumWithout(items, k, weight);
    } else {
      var j :| after == items[k := Waiting(j)];
      SumUpdate(items, k, Waiting(j), weight);
    }
  }

  /** Planning a call keeps each call planned or run at most once. */
  lemma PlanKeepsOnce(b: Budget, a: Agent, lead: bool)
    requires Can(a, PlanCall) && EachCallOnce(a)
    ensures var (b', a') := AfterPlan(b, a, lead);
            EachCallOnce(a') && b'.delegations + Sum(a'.Items(), DelegationsIn()) <= b.delegations + Sum(a.Items(), DelegationsIn())
  {
    hide EachCallOnce;
    var (b', a') := AfterPlan(b, a, lead);
    var call := a.phase.todo[0];
    if a'.phase.Planning? && |a'.phase.planned| > |a.phase.planned| {
      OnceWithItem(a, a', if call.name != DELEGATE_TOOL then Tool(call.fingerprint) else Delegation(call.fingerprint));
    } else {
      OnceStays(a, a');
    }
  }

  lemma StepKeepsOnce(b: Budget, a: Agent, lead: bool, step: Local)
    requires Can(a, step) && EachCallOnce(a)
    ensures var (b', a') := After(b, a, lead, step);
            EachCallOnce(a') && b'.delegations + Sum(a'.Items(), DelegationsIn()) <= b.delegations + Sum(a.Items(), DelegationsIn())
  {
    var (b', a') := After(b, a, lead, step);
    hide EachCallOnce, AfterPlan;
    if step.PlanCall? {
      PlanKeepsOnce(b, a, lead);
    } else if step.Execute? {
      OnceWhenRun(a, a', step.index);
    } else {
      OnceStays(a, a');
    }
  }

  /** One agent's step keeps the agent's own bounds and only moves allowance from the budget to the agent. */
  lemma LocalStepKeeps(b: Budget, a: Agent, lead: bool, step: Local)
    requires Can(a, step) && AgentOk(a, lead)
    ensures var (b', a') := After(b, a, lead, step);
            && AgentOk(a', lead)
            && b'.toolCalls + a'.counted == b.toolCalls + a.counted
            && b'.outputBytes + a'.kept == b.outputBytes + a.kept
            && b'.delegations + Sum(a'.Items(), DelegationsIn()) <= b.delegations + Sum(a.Items(), DelegationsIn())
            && a'.tools == a.tools && a'.maxRounds == a.maxRounds && a'.recorded == a.recorded
  {
    StepKeepsOnce(b, a, lead, step);
    StepKeepsPhase(b, a, lead, step);
    StepConserves(b, a, lead, step);
    if !lead {
      SpecialistItems(b, a, step);
    }
    hide EachCallOnce, Sum, After, PhaseOk, Agent.Items;
  }

  lemma StepConserves(b: Budget, a: Agent, lead: bool, step: Local)
    requires Can(a, step)
    ensures var (b', a') := After(b, a, lead, step);
            && b'.toolCalls + a'.counted == b.toolCalls + a.counted
            && b'.outputBytes + a'.kept == b.outputBytes + a.kept
            && a'.tools == a.tools && a'.maxRounds == a.maxRounds && a'.recorded == a.recorded
  {
  }

  lemma StepKeepsPhase(b: Budget, a: Agent, lead: bool, step: Local)
    requires Can(a, step) && PhaseOk(a) && a.rounds <= a.maxRounds && a.counted <= a.maxToolCalls
    ensures var a' := After(b, a, lead, step).1;
            PhaseOk(a') && a'.rounds <= a'.maxRounds && a'.counted <= a'.maxToolCalls
  {
  }

  /** A specialist never delegates: its pending calls are tools. */
  lemma SpecialistItems(b: Budget, a: Agent, step: Local)
    requires Can(a, step) && forall item :: item in a.Items() ==> item.Tool?
    ensures forall item :: item in After(b, a, false, step).1.Items() ==> item.Tool?
  {
    if step.Execute? {
      assert forall item :: item in Without(a.Items(), step.index) ==> item in a.Items();
    }
  }

  // ---- the whole turn ----

  function TotalUsage(agents: seq<Agent>): Usage {
    if agents == [] then NO_USAGE else agents[0].usage.Add(TotalUsage(agents[1..]))
  }

  /** The shared allowance and what the agents took of it make up what the turn started with. */
  ghost predicate BudgetOk(t: Turn, limits: Limits, outputBytes: nat) {
    && t.agents != []
    && (forall i :: 0 <= i < |t.agents| ==> AgentOk(t.agents[i], i == 0) && t.agents[i].maxRounds <= limits.maxRounds)
    && t.budget.toolCalls + Sum(t.agents, CallsOf()) == limits.maxToolCalls
    && t.budget.outputBytes + Sum(t.agents, KeptOf()) == outputBytes
    && |t.agents| - 1 + t.budget.delegations + Sum(t.agents[0].Items(), DelegationsIn()) <= MAX_DELEGATIONS_PER_TURN
    && t.budget.usage == TotalUsage(t.agents)
  }

  /** A specialist is waited for until it is recorded, and it is recorded, once finished, with the usage it had. */
  ghost predicate RecordsOk(t: Turn) {
    && t.agents != [] && t.agents[0].recorded.None?
    && (forall j :: 1 <= j < |t.agents| && t.agents[j].recorded.Some? ==>
          t.agents[j].phase.Finished? && t.agents[j].recorded == Some(t.agents[j].usage))
    && (t.agents[0].phase != Finished(false) ==>
          forall j: nat :: Sum(t.agents[0].Items(), WaitsFor(j)) == if 1 <= j < |t.agents| && t.agents[j].recorded.None? then 1 else 0)
  }

  lemma {:induction false} UsageUpdate(agents: seq<Agent>, i: nat, a: Agent, more: Usage)
    requires i < |agents| && a.usage == agents[i].usage.Add(more)
    ensures TotalUsage(agents[i := a]) == TotalUsage(agents).Add(more)
    decreases |agents|
  {
    var updated := agents[i := a];
    if i == 0 {
      assert updated[1..] == agents[1..];
    } else {
      assert updated[1..] == agents[1..][i - 1 := a];
      UsageUpdate(agents[1..], i - 1, a, more);
    }
  }

  lemma {:induction false} UsageAppend(agents: seq<Agent>, a: Agent)
    requires a.usage == NO_USAGE
    ensures TotalUsage(agents + [a]) == TotalUsage(agents)
    decreases |agents|
  {
    if agents != [] {
      assert (agents + [a])[1..] == agents[1..] + [a];
      UsageAppend(agents[1..], a);
    } else {
      assert agents + [a] == [a];
      assert [a][1..] == [];
    }
  }

  /** What a step adds to the agent's usage it adds to the turn's. */
  lemma StepUsage(b: Budget, a: Agent, lead: bool, step: Local) returns (more: Usage)
    requires Can(a, step)
    ensures var (b', a') := After(b, a, lead, step);
            b'.usage == b.usage.Add(more) && a'.usage == a.usage.Add(more)
  {
    more := match step case Attempt(Response(usage, _, _)) => Counted(usage) case _ => NO_USAGE;
  }

  lemma LocalKeepsBudget(t: Turn, limits: Limits, outputBytes: nat, i: nat, step: Local)
    requires BudgetOk(t, limits, outputBytes) && Enabled(t, On(i, step))
    ensures BudgetOk(Do(t, limits, On(i, step)), limits, outputBytes)
  {
    hide Sum, TotalUsage, AgentOk, After;
    var a := t.agents[i];
    var (b', a') := After(t.budget, a, i == 0, step);
    LocalStepKeeps(t.budget, a, i == 0, step);
    SumUpdate(t.agents, i, a', CallsOf());
    SumUpdate(t.agents, i, a', KeptOf());
    var more := StepUsage(t.budget, a, i == 0, step);
    UsageUpdate(t.agents, i, a', more);
    SpecialistDelegations(t.budget, a, i == 0, step);
  }

  /** Only the lead spends delegations. */
  lemma SpecialistDelegations(b: Budget, a: Agent, lead: bool, step: Local)
    requires Can(a, step)
    ensures !lead ==> After(b, a, lead, step).0.delegations == b.delegations
  {
  }

  lemma {:induction false} ToolsOnly(items: seq<Item>)
    requires forall item :: item in items ==> item.Tool?
    ensures Sum(items, DelegationsIn()) == 0
    decreases |items|
  {
    if items != [] {
      assert items[0] in items;
      ToolsOnly(items[1..]);
    }
  }

  lemma StartKeepsBudget(t: Turn, limits: Limits, outputBytes: nat, step: Step)
    requires BudgetOk(t, limits, outputBytes) && Enabled(t, step) && step.StartSpecialist?
    ensures BudgetOk(Do(t, limits, step), limits, outputBytes)
  {
    var lead, k := t.agents[0], step.item;
    var started := lead.(executed := lead.executed + [lead.phase.pending[k].fingerprint],
                         phase := Running(lead.phase.pending[k := Waiting(|t.agents|)]));
    var child := NewAgent(step.tools, Capped(step.definedRounds, limits.maxRounds), Capped(step.definedCalls, limits.maxToolCalls));
    OnceWhenRun(lead, started, k);
    NewAgentIsOk(step.tools, child.maxRounds, child.maxToolCalls);
    assert AgentOk(started, true);
    hide Sum, TotalUsage, AgentOk;
    ReplaceLead(t.agents, started);
    AppendAgent(t.agents[0 := started], child);
  }

  lemma NewAgentIsOk(tools: set<string>, maxRounds: nat, maxToolCalls: nat)
    ensures AgentOk(NewAgent(tools, maxRounds, maxToolCalls), false)
  {
  }

  lemma ReplaceLead(agents: seq<Agent>, lead: Agent)
    requires agents != [] && lead.counted == agents[0].counted && lead.kept == agents[0].kept && lead.usage == agents[0].usage
    ensures Sum(agents[0 := lead], CallsOf()) == Sum(agents, CallsOf()) && Sum(agents[0 := lead], KeptOf()) == Sum(agents, KeptOf())
    ensures TotalUsage(agents[0 := lead]) == TotalUsage(agents)
  {
    SumUpdate(agents, 0, lead, CallsOf());
    SumUpdate(agents, 0, lead, KeptOf());
    assert agents[0 := lead][1..] == agents[1..];
  }

  lemma AppendAgent(agents: seq<Agent>, a: Agent)
    requires a.counted == 0 && a.kept == 0 && a.usage == NO_USAGE
    ensures Sum(agents + [a], CallsOf()) == Sum(agents, CallsOf()) && Sum(agents + [a], KeptOf()) == Sum(agents, KeptOf())
    ensures TotalUsage(agents + [a]) == TotalUsage(agents)
  {
    SumAppend(agents, a, CallsOf());
    SumAppend(agents, a, KeptOf());
    UsageAppend(agents, a);
  }

  lemma RecordKeepsBudget(t: Turn, limits: Limits, outputBytes: nat, step: Step)
    requires BudgetOk(t, limits, outputBytes) && Enabled(t, step) && step.RecordSpecialist?
    requires RecordsOk(t)
    ensures BudgetOk(Do(t, limits, step), limits, outputBytes)
  {
    var lead, k := t.agents[0], step.item;
    var c := lead.phase.pending[k].child;
    var done := lead.(phase := Running(Without(lead.phase.pending, k)));
    var child := t.agents[c].(recorded := Some(t.agents[c].usage));
    WaitedForIsSpecialist(t, k);
    hide Sum, TotalUsage, EachCallOnce, RecordsOk;
    WaitingRemoved(lead, done, k);
    RecordedIsOk(lead, done, t.agents[c], child);
    hide AgentOk;
    SumUpdate(t.agents, c, child, CallsOf());
    SumUpdate(t.agents, c, child, KeptOf());
    UsageUpdate(t.agents, c, child, NO_USAGE);
    ReplaceLead(t.agents[c := child], done);
  }

  lemma WaitedForIsSpecialist(t: Turn, k: nat)
    requires RecordsOk(t) && Enabled(t, RecordSpecialist(k))
    ensures 1 <= t.agents[0].phase.pending[k].child < |t.agents|
  {
    SumAt(t.agents[0].phase.pending, k, WaitsFor(t.agents[0].phase.pending[k].child));
  }

  lemma RecordedIsOk(lead: Agent, done: Agent, before: Agent, child: Agent)
    requires AgentOk(lead, true) && AgentOk(before, false) && EachCallOnce(done)
    requires child == before.(recorded := child.recorded)
    requires lead.phase.Running? && done.phase.Running? && |done.phase.pending| <= |lead.phase.pending|
    requires done == lead.(phase := done.phase)
    ensures AgentOk(done, true) && AgentOk(child, false)
  {
    hide Sum;
    assert forall fingerprint :: Uses(child, fingerprint) == Uses(before, fingerprint);
    assert EachCallOnce(child);
  }

  lemma WaitingRemoved(lead: Agent, done: Agent, k: nat)
    requires EachCallOnce(lead) && lead.phase.Running? && k < |lead.phase.pending| && lead.phase.pending[k].Waiting?
    requires done == lead.(phase := Running(Without(lead.phase.pending, k)))
    ensures EachCallOnce(done) && Sum(done.Items(), DelegationsIn()) == Sum(lead.Items(), DelegationsIn())
  {
    forall fingerprint
      ensures Uses(done, fingerprint) <= if fingerprint in done.seen then 1 else 0
    {
      assert Uses(lead, fingerprint) <= if fingerprint in lead.seen then 1 else 0;
      SumWithout(lead.phase.pending, k, UsesOf(fingerprint));
    }
    SumWithout(lead.phase.pending, k, DelegationsIn());
  }

  // ---- records ----

  lemma LocalKeepsRecords(t: Turn, limits: Limits, i: nat, step: Local)
    requires RecordsOk(t) && Enabled(t, On(i, step))
    ensures RecordsOk(Do(t, limits, On(i, step)))
  {
    hide Sum;
    var a := t.agents[i];
    var a' := After(t.budget, a, i == 0, step).1;
    StepConserves(t.budget, a, i == 0, step);
    RecordedIsIdle(t, i, step);
    if i == 0 && a'.phase != Finished(false) {
      forall j: nat
        ensures Sum(a'.Items(), WaitsFor(j)) == Sum(a.Items(), WaitsFor(j))
      {
        WaitsStay(t.budget, a, step, j);
      }
    }
    hide After;
  }

  lemma RecordedIsIdle(t: Turn, i: nat, step: Local)
    requires RecordsOk(t) && Enabled(t, On(i, step))
    ensures t.agents[i].recorded.None?
  {
  }

  lemma WaitsStay(b: Budget, a: Agent, step: Local, j: nat)
    requires Can(a, step) && After(b, a, true, step).1.phase != Finished(false)
    ensures Sum(After(b, a, true, step).1.Items(), WaitsFor(j)) == Sum(a.Items(), WaitsFor(j))
  {
    hide Sum;
    if step.Execute? {
      SumWithout(a.phase.pending, step.index, WaitsFor(j));
    } else if step.PlanCall? {
      PlanAddsNoWait(b, a, j);
    }
  }

  lemma PlanAddsNoWait(b: Budget, a: Agent, j: nat)
    requires Can(a, PlanCall) && AfterPlan(b, a, true).1.phase != Finished(false)
    ensures Sum(AfterPlan(b, a, true).1.Items(), WaitsFor(j)) == Sum(a.Items(), WaitsFor(j))
  {
    hide Sum;
    var a' := AfterPlan(b, a, true).1;
    if |a'.phase.planned| > |a.phase.planned| {
      SumAppend(a.phase.planned, a'.phase.planned[|a.phase.planned|], WaitsFor(j));
    }
  }

  lemma StartKeepsRecords(t: Turn, limits: Limits, step: Step)
    requires RecordsOk(t) && Enabled(t, step) && step.StartSpecialist?
    ensures RecordsOk(Do(t, limits, step))
  {
    hide Sum;
    var t' := Do(t, limits, step);
    var pending := t.agents[0].phase.pending;
    forall j: nat
      ensures Sum(t'.agents[0].Items(), WaitsFor(j)) == if 1 <= j < |t'.agents| && t'.agents[j].recorded.None? then 1 else 0
    {
      SumUpdate(pending, step.item, Waiting(|t.agents|), WaitsFor(j));
      assert Sum(t.agents[0].Items(), WaitsFor(j)) == if 1 <= j < |t.agents| && t.agents[j].recorded.None? then 1 else 0;
    }
  }

  lemma RecordKeepsRecords(t: Turn, limits: Limits, step: Step)
    requires RecordsOk(t) && Enabled(t, step) && step.RecordSpecialist?
    ensures RecordsOk(Do(t, limits, step))
  {
    hide Sum;
    var t' := Do(t, limits, step);
    var pending := t.agents[0].phase.pending;
    var c := pending[step.item].child;
    SumWithout(pending, step.item, WaitsFor(c));
    assert Sum(t.agents[0].Items(), WaitsFor(c)) == if 1 <= c < |t.agents| && t.agents[c].recorded.None? then 1 else 0;
    forall j: nat
      ensures Sum(t'.agents[0].Items(), WaitsFor(j)) == if 1 <= j < |t'.agents| && t'.agents[j].recorded.None? then 1 else 0
    {
      SumWithout(pending, step.item, WaitsFor(j));
      assert Sum(t.agents[0].Items(), WaitsFor(j)) == if 1 <= j < |t.agents| && t.agents[j].recorded.None? then 1 else 0;
    }
  }

  // ---- termination ----

  const ROUND_COST: nat := 21

  /** A delegation may still cost all the rounds a specialist is allowed. */
  function ItemCost(specialist: nat): Item -> nat {
    (item: Item) => if item.Tool? then 2 else if item.Delegation? then 2 + specialist else 1
  }

  function PhaseCost(phase: Phase, specialist: nat): nat {
    match phase
    case Calling(made, _) => if made <= 20 then 20 - made else 0
    case Planning(todo, planned) => 2 + 3 * |todo| + Sum(planned, ItemCost(specialist))
    case Running(pending) => 1 + Sum(pending, ItemCost(specialist))
    case _ => 0
  }

  function AgentCost(specialist: nat): Agent -> nat {
    (a: Agent) =>
      if a.phase.Finished? then 0
      else 1 + ROUND_COST * (if a.rounds > a.maxRounds then 0 else a.maxRounds - a.rounds) + PhaseCost(a.phase, specialist)
  }

  function SpecialistCost(limits: Limits): nat {
    1 + ROUND_COST * limits.maxRounds
  }

  /** An upper bound on the steps a turn can still take. */
  function Cost(t: Turn, limits: Limits): nat {
    t.budget.delegations * SpecialistCost(limits) + Sum(t.agents, AgentCost(SpecialistCost(limits)))
  }

  lemma PlanCosts(b: Budget, a: Agent, lead: bool, specialist: nat)
    requires Can(a, PlanCall) && a.rounds <= a.maxRounds
    ensures var (b', a') := AfterPlan(b, a, lead);
            b'.delegations * specialist + AgentCost(specialist)(a') < b.delegations * specialist + AgentCost(specialist)(a)
  {
    hide Sum;
    var (b', a') := AfterPlan(b, a, lead);
    if a'.phase.Planning? && |a'.phase.planned| > |a.phase.planned| {
      SumAppend(a.phase.planned, a'.phase.planned[|a.phase.planned|], ItemCost(specialist));
    }
    assert b.delegations > 0 ==> (b.delegations - 1) * specialist == b.delegations * specialist - specialist;
  }

  lemma ReplyCosts(b: Budget, a: Agent, reply: Reply, specialist: nat)
    requires Can(a, Attempt(reply)) && a.rounds <= a.maxRounds
    ensures AgentCost(specialist)(AfterReply(b, a, reply).1) < AgentCost(specialist)(a)
  {
  }

  lemma LocalStepCosts(b: Budget, a: Agent, lead: bool, specialist: nat, step: Local)
    requires Can(a, step) && PhaseOk(a) && a.rounds <= a.maxRounds
    ensures var (b', a') := After(b, a, lead, step);
            b'.delegations * specialist + AgentCost(specialist)(a') < b.delegations * specialist + AgentCost(specialist)(a)
  {
    match step
    case PlanCall => PlanCosts(b, a, lead, specialist);
    case Attempt(reply) => ReplyCosts(b, a, reply, specialist);
    case Execute(k, _) => SumWithout(a.phase.pending, k, ItemCost(specialist));
    case _ =>
  }

  /** Every step uses up some of what the turn can still do. */
  lemma StepCosts(t: Turn, limits: Limits, outputBytes: nat, step: Step)
    requires BudgetOk(t, limits, outputBytes) && RecordsOk(t) && Enabled(t, step)
    ensures Cost(Do(t, limits, step), limits) < Cost(t, limits)
  {
    hide BudgetOk;
    var cost := AgentCost(SpecialistCost(limits));
    match step
    case On(i, local) =>
      AgentsAreOk(t, limits, outputBytes, i);
      LocalStepCosts(t.budget, t.agents[i], i == 0, SpecialistCost(limits), local);
      hide Sum, After, RecordsOk, AgentCost;
      SumUpdate(t.agents, i, After(t.budget, t.agents[i], i == 0, local).1, cost);
    case StartSpecialist(k, tools, rounds, calls) =>
      hide Sum, RecordsOk;
      StartCosts(t, limits, step);
    case RecordSpecialist(k) =>
      WaitedForIsSpecialist(t, k);
      hide Sum, RecordsOk;
      RecordCosts(t, limits, step);
  }

  lemma AgentsAreOk(t: Turn, limits: Limits, outputBytes: nat, i: nat)
    requires BudgetOk(t, limits, outputBytes) && i < |t.agents|
    ensures PhaseOk(t.agents[i]) && t.agents[i].rounds <= t.agents[i].maxRounds
  {
    hide Sum, EachCallOnce;
  }

  lemma StartCosts(t: Turn, limits: Limits, step: Step)
    requires Enabled(t, step) && step.StartSpecialist?
    ensures Cost(Do(t, limits, step), limits) < Cost(t, limits)
  {
    hide Sum, Capped;
    var w := SpecialistCost(limits);
    var lead, t' := t.agents[0], Do(t, limits, step);
    var child := t'.agents[|t.agents|];
    SumUpdate(lead.phase.pending, step.item, Waiting(|t.agents|), ItemCost(w));
    SumUpdate(t.agents, 0, t'.agents[0], AgentCost(w));
    SumAppend(t.agents[0 := t'.agents[0]], child, AgentCost(w));
    assert AgentCost(w)(child) <= w;
  }

  lemma RecordCosts(t: Turn, limits: Limits, step: Step)
    requires Enabled(t, step) && step.RecordSpecialist? && 1 <= t.agents[0].phase.pending[step.item].child < |t.agents|
    ensures Cost(Do(t, limits, step), limits) < Cost(t, limits)
  {
    hide Sum;
    var w := SpecialistCost(limits);
    var lead, t' := t.agents[0], Do(t, limits, step);
    var c := lead.phase.pending[step.item].child;
    SumWithout(lead.phase.pending, step.item, ItemCost(w));
    SumUpdate(t.agents, c, t'.agents[c], AgentCost(w));
    SumUpdate(t.agents[c := t'.agents[c]], 0, t'.agents[0], AgentCost(w));
  }

  // ---- runs ----

  ghost predicate IsRun(turns: seq<Turn>, steps: seq<Step>, limits: Limits, outputBytes: nat, tools: set<string>) {
    && |turns| == |steps| + 1 && turns[0] == Start(limits, outputBytes, tools)
    && forall i :: 0 <= i < |steps| ==> Enabled(turns[i], steps[i]) && turns[i + 1] == Do(turns[i], limits, steps[i])
  }

  lemma StartIsOk(limits: Limits, outputBytes: nat, tools: set<string>)
    ensures BudgetOk(Start(limits, outputBytes, tools), limits, outputBytes) && RecordsOk(Start(limits, outputBytes, tools))
  {
    StartHasItsBudget(limits, outputBytes, tools);
    StartHasNoRecords(limits, outputBytes, tools);
  }

  lemma SumNone<T>(weight: T -> nat)
    ensures Sum([], weight) == 0
  {
  }

  lemma StartHasItsBudget(limits: Limits, outputBytes: nat, tools: set<string>)
    ensures BudgetOk(Start(limits, outputBytes, tools), limits, outputBytes)
  {
    hide AgentOk, Sum, TotalUsage, Agent.Items, CallsOf, KeptOf, DelegationsIn;
    var lead := NewAgent(tools, limits.maxRounds, limits.maxToolCalls);
    NewLeadIsOk(tools, limits.maxRounds, limits.maxToolCalls);
    OneAgentTotals(lead);
    var t := Start(limits, outputBytes, tools);
    assert t.agents[0] == lead && |t.agents| == 1;
  }

  lemma NewLeadIsOk(tools: set<string>, maxRounds: nat, maxToolCalls: nat)
    ensures AgentOk(NewAgent(tools, maxRounds, maxToolCalls), true)
    ensures Sum(NewAgent(tools, maxRounds, maxToolCalls).Items(), DelegationsIn()) == 0
  {
  }

  lemma OneAgentTotals(a: Agent)
    requires a.counted == 0 && a.kept == 0 && a.usage == NO_USAGE
    ensures Sum([a], CallsOf()) == 0 && Sum([a], KeptOf()) == 0 && TotalUsage([a]) == NO_USAGE
  {
    SumOne(a, CallsOf());
    SumOne(a, KeptOf());
    assert [a][1..] == [];
  }

  lemma StartHasNoRecords(limits: Limits, outputBytes: nat, tools: set<string>)
    ensures RecordsOk(Start(limits, outputBytes, tools))
  {
    hide Sum;
    forall j: nat
      ensures Sum([], WaitsFor(j)) == 0
    {
      SumNone(WaitsFor(j));
    }
  }

  lemma StepKeepsTurn(t: Turn, limits: Limits, outputBytes: nat, step: Step)
    requires BudgetOk(t, limits, outputBytes) && RecordsOk(t) && Enabled(t, step)
    ensures BudgetOk(Do(t, limits, step), limits, outputBytes) && RecordsOk(Do(t, limits, step))
  {
    hide BudgetOk, RecordsOk, Do, Enabled;
    match step
    case On(i, local) =>
      LocalKeepsBudget(t, limits, outputBytes, i, local);
      LocalKeepsRecords(t, limits, i, local);
    case StartSpecialist(_, _, _, _) =>
      StartKeepsBudget(t, limits, outputBytes, step);
      StartKeepsRecords(t, limits, step);
    case RecordSpecialist(_) =>
      RecordKeepsBudget(t, limits, outputBytes, step);
      RecordKeepsRecords(t, limits, step);
  }

  /** Every turn ends: no run is longer than what its limits allow. */
  lemma {:induction false} RunsKeepTheBudgetAndEnd(turns: seq<Turn>, steps: seq<Step>, limits: Limits,
                                                   outputBytes: nat, tools: set<string>, n: nat)
    requires IsRun(turns, steps, limits, outputBytes, tools) && n <= |steps|
    ensures BudgetOk(turns[n], limits, outputBytes) && RecordsOk(turns[n])
    ensures n + Cost(turns[n], limits) <= Cost(turns[0], limits)
    decreases n
  {
    hide BudgetOk, RecordsOk, Do, Enabled, Cost;
    if n == 0 {
      StartIsOk(limits, outputBytes, tools);
    } else {
      RunsKeepTheBudgetAndEnd(turns, steps, limits, outputBytes, tools, n - 1);
      StepKeepsTurn(turns[n - 1], limits, outputBytes, steps[n - 1]);
      StepCosts(turns[n - 1], limits, outputBytes, steps[n - 1]);
    }
  }

  /** No run of a turn takes more steps than four agents can spend. */
  lemma EveryTurnEnds(turns: seq<Turn>, steps: seq<Step>, limits: Limits, outputBytes: nat, tools: set<string>)
    requires IsRun(turns, steps, limits, outputBytes, tools)
    ensures |steps| <= (MAX_DELEGATIONS_PER_TURN + 1) * (1 + ROUND_COST * limits.maxRounds)
  {
    RunsKeepTheBudgetAndEnd(turns, steps, limits, outputBytes, tools, |steps|);
    SumOne(NewAgent(tools, limits.maxRounds, limits.maxToolCalls), AgentCost(SpecialistCost(limits)));
  }

  /** Counted calls, kept bytes and specialists stay within the turn's allowance, and requests within two per round. */
  lemma EveryTurnIsBounded(turns: seq<Turn>, steps: seq<Step>, limits: Limits, outputBytes: nat, tools: set<string>, n: nat)
    requires IsRun(turns, steps, limits, outputBytes, tools) && n <= |steps|
    ensures var agents := turns[n].agents;
            && 1 <= |agents| <= 1 + MAX_DELEGATIONS_PER_TURN
            && Sum(agents, CallsOf()) <= limits.maxToolCalls && Sum(agents, KeptOf()) <= outputBytes
            && Sum(agents, AttemptsOf()) <= MAX_PROVIDER_ATTEMPTS * Sum(agents, RoundsOf())
            && forall i :: 0 <= i < |agents| ==> agents[i].rounds <= limits.maxRounds
  {
    RunsKeepTheBudgetAndEnd(turns, steps, limits, outputBytes, tools, n);
    hide Sum, EachCallOnce;
    forall i | 0 <= i < |turns[n].agents|
      ensures turns[n].agents[i].attempts <= MAX_PROVIDER_ATTEMPTS * turns[n].agents[i].rounds
    {
      assert AgentOk(turns[n].agents[i], i == 0);
    }
    AttemptsFollowRounds(turns[n].agents);
  }

  lemma {:induction false} AttemptsFollowRounds(agents: seq<Agent>)
    requires forall i :: 0 <= i < |agents| ==> agents[i].attempts <= MAX_PROVIDER_ATTEMPTS * agents[i].rounds
    ensures Sum(agents, AttemptsOf()) <= MAX_PROVIDER_ATTEMPTS * Sum(agents, RoundsOf())
    decreases |agents|
  {
    if agents != [] {
      AttemptsFollowRounds(agents[1..]);
    }
  }

  /** No agent runs one canonical call twice, and only the lead delegates. */
  lemma NoCallRunsTwice(turns: seq<Turn>, steps: seq<Step>, limits: Limits, outputBytes: nat, tools: set<string>,
                        n: nat, i: nat)
    requires IsRun(turns, steps, limits, outputBytes, tools) && n <= |steps| && i < |turns[n].agents|
    ensures var executed := turns[n].agents[i].executed;
            forall j, k :: 0 <= j < k < |executed| ==> executed[j] != executed[k]
    ensures i > 0 ==> forall item :: item in turns[n].agents[i].Items() ==> item.Tool?
  {
    RunsKeepTheBudgetAndEnd(turns, steps, limits, outputBytes, tools, n);
    var a := turns[n].agents[i];
    hide Sum;
    assert AgentOk(a, i == 0);
    forall j, k | 0 <= j < k < |a.executed|
      ensures a.executed[j] != a.executed[k]
    {
      assert Uses(a, a.executed[j]) <= 1;
      RepeatsCount(a.executed, j, k);
    }
  }

  lemma RepeatsCount(xs: seq<string>, j: nat, k: nat)
    requires j < k < |xs|
    ensures xs[j] == xs[k] ==> multiset(xs)[xs[j]] >= 2
  {
    assert xs == xs[..k] + [xs[k]] + xs[k + 1..];
    assert xs[j] in xs[..k] by { assert xs[..k][j] == xs[j]; }
    assert multiset(xs) == multiset(xs[..k]) + multiset{xs[k]} + multiset(xs[k + 1..]);
  }

  // ---- the reported usage ----

  /** What the records of the specialists add up to. */
  function RecordedUsage(agents: seq<Agent>): Usage {
    if agents == [] then NO_USAGE
    else (if agents[0].recorded.Some? then agents[0].recorded.value else NO_USAGE).Add(RecordedUsage(agents[1..]))
  }

  /**
   On a successful turn the usage reported is the lead's and that of every recorded
   specialist, those that failed part way included, and every specialist is recorded.
   */
  lemma ReportedUsageIsTheRecords(turns: seq<Turn>, steps: seq<Step>, limits: Limits, outputBytes: nat,
                                  tools: set<string>, n: nat)
    requires IsRun(turns, steps, limits, outputBytes, tools) && n <= |steps|
    requires turns[n].agents != [] && turns[n].agents[0].phase == Finished(true)
    ensures var t := turns[n];
            && t.budget.usage == t.agents[0].usage.Add(RecordedUsage(t.agents[1..]))
            && forall j :: 1 <= j < |t.agents| ==> t.agents[j].phase.Finished? && t.agents[j].recorded.Some?
  {
    RunsKeepTheBudgetAndEnd(turns, steps, limits, outputBytes, tools, n);
    var t := turns[n];
    hide AgentOk;
    forall j | 1 <= j < |t.agents|
      ensures t.agents[j].phase.Finished? && t.agents[j].recorded == Some(t.agents[j].usage)
    {
      assert Sum(t.agents[0].Items(), WaitsFor(j)) == 0;
    }
    assert forall j :: 0 <= j < |t.agents[1..]| ==> t.agents[1..][j] == t.agents[j + 1];
    RecordsAddUp(t.agents[1..]);
  }

  lemma {:induction false} RecordsAddUp(agents: seq<Agent>)
    requires forall j :: 0 <= j < |agents| ==> agents[j].recorded == Some(agents[j].usage)
    ensures RecordedUsage(agents) == TotalUsage(agents)
    decreases |agents|
  {
    if agents != [] {
      RecordsAddUp(agents[1..]);
    }
  }
}
