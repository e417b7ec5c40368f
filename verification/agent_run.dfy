/**
 The shared budget and an agent's own bookkeeping as the code updates them, each
 operation doing exactly the step of the turn that TurnBudget says it does.
 */
module AgentRuns {
  import opened Common
  import opened TurnBudget

  class RunBudget {
    var toolCalls: nat
    var outputBytes: nat
    var delegations: nat
    var usage: Usage

    function State(): Budget
      reads this
    {
      Budget(toolCalls, outputBytes, delegations, usage)
    }

    constructor (toolCalls: nat, outputBytes: nat)
      ensures State() == Budget(toolCalls, outputBytes, MAX_DELEGATIONS_PER_TURN, NO_USAGE)
    {
      this.toolCalls, this.outputBytes, delegations, usage := toolCalls, outputBytes, MAX_DELEGATIONS_PER_TURN, NO_USAGE;
    }

    method TakeToolCall() returns (ok: bool)
      modifies this
      ensures ok <==> old(toolCalls) > 0
      ensures State() == if ok then old(State()).(toolCalls := old(toolCalls) - 1) else old(State())
    {
      if toolCalls == 0 {
        return false;
      }
      toolCalls := toolCalls - 1;
      ok := true;
    }

    method TakeDelegation() returns (ok: bool)
      modifies this
      ensures ok <==> old(delegations) > 0
      ensures State() == if ok then old(State()).(delegations := old(delegations) - 1) else old(State())
    {
      if delegations == 0 {
        return false;
      }
      delegations := delegations - 1;
      ok := true;
    }

    /** Reserves the bytes of a result, all of them or none. */
    method TakeOutput(size: nat) returns (ok: bool)
      modifies this
      ensures ok <==> size <= old(outputBytes)
      ensures State() == if ok then old(State()).(outputBytes := old(outputBytes) - size) else old(State())
    {
      if size > outputBytes {
        return false;
      }
      outputBytes := outputBytes - size;
      ok := true;
    }

    method AddUsage(more: Usage)
      modifies this
      ensures State() == old(State()).(usage := old(usage).Add(more))
    {
      usage := usage.Add(more);
    }
  }

  datatype Rejection =
    AgentBudgetExhausted | BudgetExhausted | UnknownTool | DuplicateCall | InvalidArguments | DelegationBudgetExhausted

  datatype Planned = Fatal | Rejected(code: Rejection) | Accepted(item: Item)

  function PhaseAfter(r: Planned, todo: seq<Call>, planned: seq<Item>): Phase {
    match r
    case Fatal => Finished(false)
    case Rejected(_) => Planning(todo, planned)
    case Accepted(item) => Planning(todo, planned + [item])
  }

  class AgentRun {
    const budget: RunBudget
    const lead: bool
    const tools: set<string>
    const maxRounds: nat
    const maxToolCalls: nat
    var rounds: nat
    var attempts: nat
    var toolCallCount: nat
    var seen: set<string>
    var executed: seq<string>
    var kept: nat
    var usage: Usage

    /** The agent as a value, in a phase of its loop. */
    function In(phase: Phase): Agent
      reads this
    {
      Agent(tools, maxRounds, maxToolCalls, rounds, attempts, toolCallCount, seen, executed, kept, usage, phase, None)
    }

    constructor (budget: RunBudget, lead: bool, tools: set<string>, maxRounds: nat, maxToolCalls: nat)
      ensures this.budget == budget && this.lead == lead
      ensures In(Idle) == NewAgent(tools, maxRounds, maxToolCalls)
    {
      this.budget, this.lead, this.tools, this.maxRounds, this.maxToolCalls := budget, lead, tools, maxRounds, maxToolCalls;
      rounds, attempts, toolCallCount, seen, executed, kept, usage := 0, 0, 0, {}, [], 0, NO_USAGE;
    }

    method BeginRound() returns (final: bool)
      requires rounds < maxRounds
      modifies this
      ensures (budget.State(), In(Calling(0, final))) == After(old(budget.State()), old(In(Idle)), lead, Local.BeginRound)
    {
      rounds := rounds + 1;
      final := rounds == maxRounds || budget.toolCalls == 0 || budget.outputBytes == 0 || toolCallCount >= maxToolCalls;
    }

    /** A completed provider request: one request at least, counted for the agent and for the turn. */
    method CountResponse(reported: Usage)
      modifies this, budget
      ensures attempts == old(attempts) + 1 && usage == old(usage).Add(Counted(reported))
      ensures budget.State() == old(budget.State()).(usage := old(budget.usage).Add(Counted(reported)))
      ensures In(Idle) == old(In(Idle)).(attempts := attempts, usage := usage)
    {
      attempts := attempts + 1;
      var counted := reported;
      if counted.requests == 0 {
        counted := counted.(requests := 1);
      }
      usage := usage.Add(counted);
      budget.AddUsage(counted);
    }

    /** A provider request that failed. */
    method CountFailure()
      modifies this
      ensures attempts == old(attempts) + 1 && In(Idle) == old(In(Idle)).(attempts := attempts)
    {
      attempts := attempts + 1;
    }

    predicate AllowsName(name: string) {
      if name == DELEGATE_TOOL then lead else name in tools
    }

    /** Validates one proposed call; what the model could correct is rejected, the rest is fatal. */
    method PlanCall(call: Call, ghost todo: seq<Call>, ghost planned: seq<Item>) returns (r: Planned)
      modifies this, budget
      ensures (budget.State(), In(PhaseAfter(r, todo, planned)))
              == AfterPlan(old(budget.State()), old(In(Planning([call] + todo, planned))), lead)
      ensures rounds == old(rounds)
      ensures r == Rejected(DuplicateCall) ==> call.fingerprint in old(seen)
      ensures r.Accepted? ==> call.prepared && call.fingerprint !in old(seen)
      ensures r.Accepted? ==> !r.item.Waiting? && r.item.fingerprint == call.fingerprint && (r.item.Delegation? ==> lead)
    {
      assert ([call] + todo)[1..] == todo;
      if !call.wellFormed {
        return Fatal;
      }
      if toolCallCount >= maxToolCalls {
        return Rejected(AgentBudgetExhausted);
      }
      var taken := budget.TakeToolCall();
      if !taken {
        return Rejected(BudgetExhausted);
      }
      toolCallCount := toolCallCount + 1;
      if !AllowsName(call.name) {
        return Rejected(UnknownTool);
      }
      if call.fingerprint in seen {
        return Rejected(DuplicateCall);
      }
      seen := seen + {call.fingerprint};
      if !call.prepared {
        return Rejected(InvalidArguments);
      }
      if call.name == DELEGATE_TOOL {
        var delegated := budget.TakeDelegation();
        if !delegated {
          return Rejected(DelegationBudgetExhausted);
        }
        return Accepted(Delegation(call.fingerprint));
      }
      r := Accepted(Tool(call.fingerprint));
    }

    /** Hands an accepted delegation to a specialist of its own. */
    method Delegate(fingerprint: string, tools: set<string>, maxRounds: nat, maxToolCalls: nat) returns (child: AgentRun)
      modifies this
      ensures In(Idle) == old(In(Idle)).(executed := old(executed) + [fingerprint])
      ensures rounds == old(rounds) && fresh(child) && child.budget == budget && !child.lead
      ensures child.In(Idle) == NewAgent(tools, maxRounds, maxToolCalls)
    {
      executed := executed + [fingerprint];
      child := new AgentRun(budget, false, tools, maxRounds, maxToolCalls);
    }

    /** Runs an accepted tool call; a result that does not fit the turn's bytes is replaced by a refusal. */
    method ExecuteCall(ghost pending: seq<Item>, ghost k: nat, fingerprint: string, size: nat) returns (fits: bool)
      requires k < |pending| && pending[k] == Tool(fingerprint)
      modifies this, budget
      ensures (budget.State(), In(Running(Without(pending, k))))
              == After(old(budget.State()), old(In(Running(pending))), lead, Execute(k, size))
      ensures fits <==> size <= old(budget.outputBytes)
      ensures rounds == old(rounds)
    {
      executed := executed + [fingerprint];
      fits := budget.TakeOutput(size);
      if fits {
        kept := kept + size;
      }
    }
  }
}
