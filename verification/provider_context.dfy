/**
 The messages an agent sends its provider: every tool request is followed by its
 results in order, and a request too large for the context window loses the fewest
 oldest browser turns that make it fit.
 */
module ProviderContext {
  import opened Common

  datatype Role = System | User | Assistant

  /** A provider message and its encoded size. */
  datatype Message = Text(role: Role, bytes: nat) | ToolRequest(calls: seq<string>, bytes: nat) | ToolResult(call: string, bytes: nat)

  const MAX_COMPLETION_TOKENS: nat := 8192
  const MIN_RESERVED_TOKENS: nat := 1024
  const ENVELOPE_BYTES: nat := 15

  // ---- sizes ----

  function ReservedOutput(contextLimit: nat): nat {
    var share := contextLimit / 8;
    if share > MAX_COMPLETION_TOKENS then MAX_COMPLETION_TOKENS
    else if share < MIN_RESERVED_TOKENS then MIN_RESERVED_TOKENS
    else share
  }

  function TotalBytes(messages: seq<Message>): nat {
    if messages == [] then 0 else messages[0].bytes + TotalBytes(messages[1..])
  }

  /** The encoded request, its tool definitions included; three bytes count as one token. */
  function RequestTokens(messages: seq<Message>, toolBytes: nat): nat {
    var commas := if messages == [] then 0 else |messages| - 1;
    (ENVELOPE_BYTES + TotalBytes(messages) + commas + toolBytes + 2) / 3
  }

  predicate Fits(messages: seq<Message>, toolBytes: nat, available: int) {
    RequestTokens(messages, toolBytes) <= available
  }

  // ---- dropping browser turns ----

  predicate IsQuestion(m: Message) {
    m.Text? && m.role.User?
  }

  /** The messages without the k oldest pairs after the first message. */
  function DropPairs(messages: seq<Message>, k: nat): seq<Message>
    requires 2 * k < |messages|
  {
    messages[..1] + messages[1 + 2 * k..]
  }

  /** The index of the last user message after the first message, if any. */
  ghost predicate IsLatestUser(messages: seq<Message>, latest: int) {
    && -1 <= latest < |messages| && latest != 0
    && (latest > 0 ==> IsQuestion(messages[latest]))
    && forall i :: (if latest > 0 then latest else 0) < i < |messages| ==> !IsQuestion(messages[i])
  }

  /** Dropping k pairs leaves the last user message and everything after it. */
  predicate MayDrop(latest: int, k: nat) {
    k == 0 || 2 * k < latest
  }

  datatype ContextError = ContextTooSmall

  /**
   Drops the fewest pairs that make the request fit. It fails only when none of the
   drops that spare the latest question does.
   */
  method FitProviderContext(messages: seq<Message>, toolBytes: nat, contextLimit: int, ghost latest: int)
    returns (r: Result<seq<Message>, ContextError>, ghost dropped: nat)
    requires IsLatestUser(messages, latest) && messages != []
    ensures contextLimit <= 0 ==> r == Ok(messages)
    ensures contextLimit > 0 ==> var available := contextLimit - ReservedOutput(contextLimit);
            && (r.Ok? ==> MayDrop(latest, dropped) && r.value == DropPairs(messages, dropped) && Fits(r.value, toolBytes, available)
                          && forall k: nat :: k < dropped ==> !Fits(DropPairs(messages, k), toolBytes, available))
            && (r.Err? && available > 0 ==>
                  forall k: nat :: MayDrop(latest, k) ==> !Fits(DropPairs(messages, k), toolBytes, available))
    ensures r.Ok? ==> MayDrop(latest, dropped) && r.value == DropPairs(messages, dropped)
  {
    hide RequestTokens;
    dropped := 0;
    assert messages[..1] + messages[1..] == messages;
    if contextLimit <= 0 {
      return Ok(messages), 0;
    }
    var available := contextLimit - ReservedOutput(contextLimit);
    if available <= 0 {
      return Err(ContextTooSmall), 0;
    }
    var result := messages;
    if Fits(result, toolBytes, available) {
      return Ok(result), 0;
    }
    var latestUser := FindLatestUser(messages, latest);
    while latestUser > 2 && |result| > 2
      invariant 2 * dropped < |messages| && MayDrop(latest, dropped) && latestUser == latest - 2 * dropped
      invariant result == DropPairs(messages, dropped)
      invariant forall k: nat :: k <= dropped ==> !Fits(DropPairs(messages, k), toolBytes, available)
      decreases latestUser
    {
      if 1 + 2 > latestUser {
        break;
      }
      DropOneMore(messages, dropped);
      result := result[..1] + result[3..];
      latestUser := latestUser - 2;
      dropped := dropped + 1;
      if Fits(result, toolBytes, available) {
        return Ok(result), dropped;
      }
    }
    r := Err(ContextTooSmall);
  }

  lemma DropNone(messages: seq<Message>)
    requires messages != []
    ensures DropPairs(messages, 0) == messages
  {
  }

  lemma DropOneMore(messages: seq<Message>, k: nat)
    requires 2 * k + 2 < |messages|
    ensures var fewer := DropPairs(messages, k);
            fewer[..1] + fewer[3..] == DropPairs(messages, k + 1)
  {
  }

  method FindLatestUser(messages: seq<Message>, ghost latest: int) returns (r: int)
    requires IsLatestUser(messages, latest) && messages != []
    ensures r == latest
  {
    r := |messages| - 1;
    while r >= 1
      invariant 0 <= r < |messages| && forall i :: r < i < |messages| ==> !IsQuestion(messages[i])
    {
      if IsQuestion(messages[r]) {
        return;
      }
      r := r - 1;
    }
    r := -1;
  }

  // ---- the tool protocol ----

  /** The results at the front answer the calls, one each and in order. */
  predicate Answers(messages: seq<Message>, calls: seq<string>) {
    |calls| <= |messages| && forall i :: 0 <= i < |calls| ==> messages[i].ToolResult? && messages[i].call == calls[i]
  }

  /** Every tool request is followed at once by its results, and no result stands alone. */
  predicate ToolProtocol(messages: seq<Message>)
    decreases |messages|
  {
    if messages == [] then true
    else
      match messages[0]
      case Text(_, _) => ToolProtocol(messages[1..])
      case ToolRequest(calls, _) => Answers(messages[1..], calls) && ToolProtocol(messages[1 + |calls|..])
      case ToolResult(_, _) => false
  }

  lemma {:induction false} ProtocolsJoin(a: seq<Message>, b: seq<Message>)
    requires ToolProtocol(a) && ToolProtocol(b)
    ensures ToolProtocol(a + b)
    decreases |a|
  {
    if a == [] {
      assert a + b == b;
    } else {
      hide Answers;
      assert (a + b)[1..] == a[1..] + b;
      match a[0]
      case Text(_, _) =>
        ProtocolsJoin(a[1..], b);
      case ToolRequest(calls, _) =>
        AnswersStay(a[1..], b, calls);
        ProtocolsJoin(a[1 + |calls|..], b);
        assert (a + b)[1 + |calls|..] == a[1 + |calls|..] + b;
    }
  }

  lemma AnswersStay(messages: seq<Message>, more: seq<Message>, calls: seq<string>)
    requires Answers(messages, calls)
    ensures |calls| <= |messages| && Answers(messages + more, calls)
  {
    assert forall i :: 0 <= i < |calls| ==> (messages + more)[i] == messages[i];
  }

  /** The system prompt, complete user and assistant pairs, the question, then the turn's own messages. */
  ghost predicate WellFormedRequest(messages: seq<Message>, pairs: nat) {
    && 2 * pairs + 2 <= |messages|
    && messages[0].Text? && messages[0].role.System?
    && (forall i :: 1 <= i <= 2 * pairs + 1 ==> messages[i].Text? && messages[i].role == if i % 2 == 1 then User else Assistant)
    && ToolProtocol(messages[2 * pairs + 2..])
    && forall i :: 2 * pairs + 2 <= i < |messages| ==> !IsQuestion(messages[i])
  }

  /** What the shape means for the whole request. */
  lemma {:induction false} RequestKeepsTheProtocol(messages: seq<Message>, from: nat)
    requires from <= |messages| && ToolProtocol(messages[from..])
    requires forall i :: 0 <= i < from ==> messages[i].Text?
    ensures ToolProtocol(messages)
    decreases from
  {
    if from == 0 {
      assert messages[0..] == messages;
    } else {
      var rest := messages[1..];
      assert ToolProtocol(rest) ==> ToolProtocol(messages);
      hide ToolProtocol;
      assert rest[from - 1..] == messages[from..];
      RequestKeepsTheProtocol(rest, from - 1);
    }
  }

  /** Dropping pairs keeps the shape, the system prompt, the question and all that follows it. */
  lemma DroppingKeepsTheShape(messages: seq<Message>, pairs: nat, k: nat)
    requires WellFormedRequest(messages, pairs) && k <= pairs
    ensures var fewer := DropPairs(messages, k);
            && WellFormedRequest(fewer, pairs - k)
            && fewer[0] == messages[0] && fewer[2 * (pairs - k) + 1..] == messages[2 * pairs + 1..]
  {
    hide ToolProtocol;
    var fewer, rest := DropPairs(messages, k), pairs - k;
    assert forall i :: 1 <= i < |fewer| ==> fewer[i] == messages[i + 2 * k];
    assert fewer[2 * rest + 2..] == messages[2 * pairs + 2..];
    assert fewer[2 * rest + 1..] == messages[2 * pairs + 1..];
  }

  lemma QuestionIsLatestUser(messages: seq<Message>, pairs: nat)
    requires WellFormedRequest(messages, pairs)
    ensures IsLatestUser(messages, 2 * pairs + 1)
  {
  }

  datatype ToolCall = ToolCall(id: string)

  /** One agent's conversation with its provider. */
  class Conversation {
    var messages: seq<Message>
    ghost var pairs: nat
    var noticeSent: bool

    ghost predicate Valid()
      reads this
    {
      WellFormedRequest(messages, pairs)
    }

    /** From the system prompt and the browser's messages, which alternate and end with the question. */
    constructor (system: nat, browser: seq<Message>)
      requires |browser| % 2 == 1
      requires forall i :: 0 <= i < |browser| ==> browser[i].Text? && browser[i].role == if i % 2 == 0 then User else Assistant
      ensures Valid() && messages == [Text(System, system)] + browser && !noticeSent
    {
      messages := [Text(System, system)] + browser;
      pairs := |browser| / 2;
      noticeSent := false;
    }

    method AppendBudgetNotice(bytes: nat)
      requires Valid()
      modifies this
      ensures Valid() && noticeSent && pairs == old(pairs)
      ensures messages == if old(noticeSent) then old(messages) else old(messages) + [Text(System, bytes)]
    {
      if noticeSent {
        return;
      }
      noticeSent := true;
      AppendToRequest(messages, pairs, [Text(System, bytes)]);
      messages := messages + [Text(System, bytes)];
    }

    /** A tool round: the assistant's message as it came, then one result per call, in call order. */
    method AppendToolRound(assistantBytes: nat, calls: seq<ToolCall>, resultBytes: seq<nat>)
      requires Valid() && |calls| == |resultBytes|
      modifies this
      ensures Valid() && pairs == old(pairs) && |messages| == |old(messages)| + 1 + |calls|
      ensures messages[..|old(messages)|] == old(messages)
      ensures forall i :: 0 <= i < |calls| ==> messages[|old(messages)| + 1 + i] == ToolResult(calls[i].id, resultBytes[i])
    {
      ghost var before := messages;
      var ids := seq(|calls|, i requires 0 <= i < |calls| => calls[i].id);
      var results: seq<Message> := [];
      for i := 0 to |calls|
        invariant |results| == i && forall j :: 0 <= j < i ==> results[j] == ToolResult(calls[j].id, resultBytes[j])
      {
        results := results + [ToolResult(calls[i].id, resultBytes[i])];
      }
      var round := [ToolRequest(ids, assistantBytes)] + results;
      assert round[1..] == results && round[1 + |ids|..] == [];
      AppendToRequest(messages, pairs, round);
      messages := messages + round;
    }

    /** What the next request sends: the conversation, trimmed to the context window; the trimming lasts. */
    method Fit(toolBytes: nat, contextLimit: int) returns (ok: bool)
      requires Valid()
      modifies this
      ensures Valid() && ToolProtocol(messages)
      ensures !ok ==> messages == old(messages) && contextLimit > 0
      ensures ok && contextLimit > 0 ==> Fits(messages, toolBytes, contextLimit - ReservedOutput(contextLimit))
      ensures messages[0] == old(messages)[0] && messages[2 * pairs + 1..] == old(messages)[2 * old(pairs) + 1..]
    {
      hide ToolProtocol, RequestTokens, IsLatestUser, DropPairs;
      QuestionIsLatestUser(messages, pairs);
      var r, dropped := FitProviderContext(messages, toolBytes, contextLimit, 2 * pairs + 1);
      ok := r.Ok?;
      ghost var kept := if ok then dropped else 0;
      DropNone(messages);
      DroppingKeepsTheShape(messages, pairs, kept);
      ShapeIsProtocol(DropPairs(messages, kept), pairs - kept);
      if ok {
        messages := r.value;
        pairs := pairs - dropped;
      }
    }
  }

  lemma ShapeIsProtocol(messages: seq<Message>, pairs: nat)
    requires WellFormedRequest(messages, pairs)
    ensures ToolProtocol(messages)
  {
    RequestKeepsTheProtocol(messages, 2 * pairs + 2);
  }

  lemma AppendToRequest(messages: seq<Message>, pairs: nat, more: seq<Message>)
    requires WellFormedRequest(messages, pairs) && ToolProtocol(more) && forall m :: m in more ==> !IsQuestion(m)
    ensures WellFormedRequest(messages + more, pairs)
  {
    hide ToolProtocol;
    ProtocolsJoin(messages[2 * pairs + 2..], more);
    assert (messages + more)[2 * pairs + 2..] == messages[2 * pairs + 2..] + more;
  }

  // ---- the loop ----

  /** How a provider attempt ends: a failure, an answer, or a request for tools with the sizes of the results it gets. */
  datatype Reply = Failure(retryable: bool) | Answer | Tools(bytes: nat, calls: seq<ToolCall>, resultBytes: nat -> nat, fatal: bool)

  /** What everything outside the loop does; the tool definitions are sent in every round but a final one. */
  datatype Script = Script(
    maxRounds: nat, contextLimit: int, definitionBytes: nat, noticeBytes: nat,
    exhausted: nat -> bool, interrupted: (nat, nat) -> bool, reply: (nat, nat) -> Reply)

  const MAX_ATTEMPTS: nat := 2

  /** What holds of every request the loop sends: the protocol, the prompt first, the question the last of the user's messages. */
  ghost predicate IsGoodRequest(request: seq<Message>, prompt: Message, question: Message, toolBytes: nat,
                                contextLimit: int) {
    && ToolProtocol(request) && request != [] && request[0] == prompt
    && (exists q :: IsLatestUser(request, q) && q > 0 && request[q] == question)
    && (contextLimit > 0 ==> Fits(request, toolBytes, contextLimit - ReservedOutput(contextLimit)))
  }

  /** One agent's provider loop, and every request it has sent with the tool definitions it went with. */
  class AgentLoop {
    const script: Script
    const conversation: Conversation
    var sent: seq<(seq<Message>, nat)>

    constructor (script: Script, conversation: Conversation)
      ensures this.script == script && this.conversation == conversation && sent == []
    {
      this.script, this.conversation, sent := script, conversation, [];
    }

    ghost predicate Holds(prompt: Message, question: Message)
      reads this, conversation
    {
      && conversation.Valid() && conversation.messages[0] == prompt
      && conversation.messages[2 * conversation.pairs + 1] == question
      && forall r :: r in sent ==> IsGoodRequest(r.0, prompt, question, r.1, script.contextLimit)
    }

    /** Sends the conversation, trimmed, and takes the reply; a failure may be worth one more attempt. */
    method CallModel(round: nat, toolBytes: nat, ghost prompt: Message, ghost question: Message) returns (r: Option<Reply>)
      requires Holds(prompt, question)
      modifies this, conversation
      ensures Holds(prompt, question) && |sent| <= |old(sent)| + MAX_ATTEMPTS
      ensures r.Some? ==> !r.value.Failure? && exists attempt :: r.value == script.reply(round, attempt)
    {
      hide ToolProtocol, Fits, IsGoodRequest;
      var attempt := 1;
      while attempt <= MAX_ATTEMPTS
        invariant 1 <= attempt <= MAX_ATTEMPTS + 1 && |sent| <= |old(sent)| + attempt - 1 && Holds(prompt, question)
      {
        if script.interrupted(round, attempt) {
          return None;
        }
        ghost var before, pairs := conversation.messages, conversation.pairs;
        var ok := conversation.Fit(toolBytes, script.contextLimit);
        assert conversation.messages[2 * conversation.pairs + 1..][0] == before[2 * pairs + 1..][0];
        if !ok {
          return None;
        }
        RequestIsGood(conversation.messages, conversation.pairs, prompt, question, toolBytes, script.contextLimit);
        sent := sent + [(conversation.messages, toolBytes)];
        var reply := script.reply(round, attempt);
        if !reply.Failure? {
          return Some(reply);
        }
        if !reply.retryable {
          return None;
        }
        attempt := attempt + 1;
      }
      r := None;
    }

    /**
     The loop: every request it ever sends keeps the tool protocol and the prompt, has the
     question as the last message of the user, and fits; at most two a round.
     */
    method Execute(ghost prompt: Message, ghost question: Message) returns (answered: bool)
      requires Holds(prompt, question)
      modifies this, conversation
      ensures Holds(prompt, question)
      ensures |sent| <= |old(sent)| + MAX_ATTEMPTS * script.maxRounds
    {
      hide ToolProtocol, Fits, IsGoodRequest;
      answered := false;
      for round := 1 to script.maxRounds + 1
        invariant Holds(prompt, question) && |sent| <= |old(sent)| + MAX_ATTEMPTS * (round - 1)
      {
        var final := round == script.maxRounds || script.exhausted(round);
        if final {
          conversation.AppendBudgetNotice(script.noticeBytes);
        }
        var reply := CallModel(round, if final then 0 else script.definitionBytes, prompt, question);
        if reply.None? {
          return;
        }
        if reply.value.Answer? {
          answered := true;
          return;
        }
        if final || reply.value.fatal {
          return;
        }
        var calls := reply.value.calls;
        var sizes := seq(|calls|, i requires 0 <= i < |calls| => reply.value.resultBytes(i));
        conversation.AppendToolRound(reply.value.bytes, calls, sizes);
      }
    }
  }

  lemma RequestIsGood(messages: seq<Message>, pairs: nat, prompt: Message, question: Message, toolBytes: nat,
                      contextLimit: int)
    requires WellFormedRequest(messages, pairs) && messages[0] == prompt && messages[2 * pairs + 1] == question
    requires contextLimit > 0 ==> Fits(messages, toolBytes, contextLimit - ReservedOutput(contextLimit))
    ensures IsGoodRequest(messages, prompt, question, toolBytes, contextLimit)
  {
    QuestionIsLatestUser(messages, pairs);
    ShapeIsProtocol(messages, pairs);
    hide ToolProtocol;
    assert IsLatestUser(messages, 2 * pairs + 1);
  }

}
