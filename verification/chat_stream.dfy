/**
 A streamed answer: what the browser has on screen, through retries, tool rounds and
 withdrawals, against the message the service signs. The provider, the tools and the
 browser connection are scripted: every run of the loop follows some script.
 */
module ChatStream {
  import opened Common
  import opened Text
  import opened ThinkFilter
  import TurnBudget

  const MAX_BROWSER_MESSAGE_BYTES: nat := 16384
  const MAX_PROVIDER_ATTEMPTS: nat := TurnBudget.MAX_PROVIDER_ATTEMPTS

  // ---- the browser ----

  datatype Event = Start | RoundStart(round: nat) | ContentDelta(text: string) | ContentReset | ToolProgress

  function OnScreen(shown: string, e: Event): string {
    match e
    case ContentDelta(text) => shown + text
    case ContentReset => ""
    case _ => shown
  }

  /** The answer text on screen: every delta since the last reset. */
  function BrowserText(events: seq<Event>): string {
    if events == [] then ""
    else OnScreen(BrowserText(events[..|events| - 1]), events[|events| - 1])
  }

  lemma BrowserTextAfter(events: seq<Event>, e: Event)
    ensures BrowserText(events + [e]) == OnScreen(BrowserText(events), e)
  {
    assert (events + [e])[..|events|] == events;
  }

  /** Sends events to the browser; the first failure is final. The connection takes so many events, or any number. */
  class EventSink {
    const accepts: Option<nat>
    var delivered: seq<Event>
    var failed: bool

    constructor (accepts: Option<nat>)
      ensures delivered == [] && !failed
    {
      this.accepts := accepts;
      delivered, failed := [], false;
    }

    method Send(e: Event) returns (ok: bool)
      modifies this
      ensures ok <==> !old(failed) && (accepts.None? || |old(delivered)| < accepts.value)
      ensures failed == !ok && delivered == if ok then old(delivered) + [e] else old(delivered)
    {
      if failed {
        return false;
      }
      if accepts.Some? && |delivered| >= accepts.value {
        failed := true;
        return false;
      }
      delivered := delivered + [e];
      ok := true;
    }

    function Text(): string
      reads this
    {
      BrowserText(delivered)
    }
  }

  // ---- one provider round ----

  datatype Sending = Sent | Refused(error: ContentError) | Broken

  /** The visible text of one provider attempt. */
  class RoundStream {
    const sink: EventSink
    const content: VisibleContentStream
    var published: bool
    var discarded: bool

    constructor (sink: EventSink, limit: nat)
      requires sink.Text() == ""
      ensures this.sink == sink && fresh(content) && content.State() == StreamState("", "", limit)
      ensures Shows()
    {
      this.sink := sink;
      this.content := new VisibleContentStream(limit);
      published, discarded := false, false;
    }

    /** The browser shows exactly what the filter let through. */
    ghost predicate Shows()
      reads this, sink, content
    {
      !discarded && sink.Text() == content.emitted && (published <==> content.emitted != "")
    }

    method Publish(chunk: string) returns (ok: bool)
      requires !sink.failed && !discarded && (published <==> sink.Text() != "")
      modifies this, sink
      ensures sink.failed == !ok && (chunk == "" || sink.accepts.None? ==> ok)
      ensures ok ==> sink.Text() == old(sink.Text()) + chunk && !discarded && (published <==> sink.Text() != "")
    {
      hide BrowserText;
      if chunk == "" {
        return true;
      }
      BrowserTextAfter(sink.delivered, ContentDelta(chunk));
      ok := sink.Send(ContentDelta(chunk));
      if ok {
        published := true;
      }
    }

    /** Takes a delta of the provider's text and publishes what it lets through. */
    method Push(delta: string) returns (r: Sending)
      requires !sink.failed && Shows()
      modifies this, sink, content
      ensures sink.failed == r.Broken? && (!r.Broken? ==> Shows()) && (sink.accepts.None? ==> !r.Broken?)
      ensures var (after, pushed) := ThinkFilter.Push(old(content.State()), delta);
              content.State() == after && (r.Refused? <==> pushed.Err?) && (r.Refused? ==> r.error == pushed.error)
    {
      hide BrowserText, ThinkFilter.Push;
      PushAdds(content.State(), delta);
      var chunk := content.PushDelta(delta);
      if chunk.Err? {
        return Refused(chunk.error);
      }
      var ok := Publish(chunk.value);
      r := if ok then Sent else Broken;
    }

    /** Withdraws everything published for this attempt. */
    method Reset() returns (ok: bool)
      requires !sink.failed && !discarded && (sink.Text() != "" ==> published)
      modifies this, sink
      ensures sink.failed == !ok && (ok ==> sink.Text() == "") && (sink.accepts.None? ==> ok)
      ensures sink.delivered == if old(published) && ok then old(sink.delivered) + [ContentReset] else old(sink.delivered)
    {
      hide BrowserText;
      if discarded || !published {
        return true;
      }
      discarded := true;
      BrowserTextAfter(sink.delivered, ContentReset);
      ok := sink.Send(ContentReset);
    }

    /** Ends a round of tool calls: the prose before them is withdrawn. */
    method FinishRound(authoritative: string) returns (r: Sending)
      requires !sink.failed && Shows()
      modifies this, sink, content
      ensures sink.failed == r.Broken? && (!r.Broken? ==> sink.Text() == "") && (sink.accepts.None? ==> !r.Broken?)
      ensures var finished := Finish(old(content.State()), authoritative).1;
              !r.Broken? ==> r == if finished.Err? then Refused(finished.error) else Sent
    {
      var rest := content.FinishWith(authoritative);
      var ok := Reset();
      if !ok {
        return Broken;
      }
      r := if rest.Err? then Refused(rest.error) else Sent;
    }

    /** Ends an answer: publishes what is left of the confirmed content. */
    method Flush(authoritative: string) returns (r: Sending)
      requires !sink.failed && Shows()
      modifies this, sink, content
      ensures sink.failed == r.Broken? && (sink.accepts.None? ==> !r.Broken?)
      ensures var finished := Finish(old(content.State()), authoritative).1;
              !r.Broken? ==> r == if finished.Err? then Refused(finished.error) else Sent
      ensures r.Sent? ==> Strip(authoritative) == Ok(sink.Text())
      ensures r.Refused? ==> sink.Text() == ""
      ensures old(InSync(content.State())) && old(content.raw) == authoritative && Strip(authoritative).Ok? ==> !r.Refused?
    {
      hide BrowserText, Strip, Streamable;
      if InSync(content.State()) && content.raw == authoritative && Strip(authoritative).Ok? {
        StripExtendsShown(authoritative);
      }
      FinishAdds(content.State(), authoritative);
      var rest := content.FinishWith(authoritative);
      if rest.Err? {
        var ok := Reset();
        return if ok then Refused(rest.error) else Broken;
      }
      var ok := Publish(rest.value);
      r := if ok then Sent else Broken;
    }
  }

  lemma PushAdds(s: StreamState, delta: string)
    ensures var (after, r) := ThinkFilter.Push(s, delta);
            after.emitted == if r.Ok? then s.emitted + r.value else s.emitted
  {
  }

  lemma FinishAdds(s: StreamState, authoritative: string)
    ensures var (after, r) := Finish(s, authoritative);
            r.Ok? ==> Strip(authoritative) == Ok(s.emitted + r.value)
  {
    hide Strip;
    if Finish(s, authoritative).1.Ok? {
      var visible := Strip(authoritative).value;
      assert visible == s.emitted + visible[|s.emitted|..];
    }
  }

  // ---- the loop ----

  datatype Response = Response(content: string, finishReason: string, toolCalls: bool)

  /** How a provider attempt ends; a failure may be worth a retry. A response that cannot be replayed is a failure. */
  datatype Outcome = Responded(response: Response) | Failed(retryable: bool)

  /** One attempt: the deltas the provider streams, then its outcome. A client that does not stream has one delta. */
  datatype Attempt = Attempt(chunks: seq<string>, outcome: Outcome)

  datatype RunError =
    Transport | Cancelled | ProviderFailed | ToolProtocol | Unsafe(error: ContentError)
    | Incomplete | UnsafeAnswer | EmptyAnswer | AnswerTooLarge | ToolsFailed | LoopLimit

  /**
   What everything outside the loop does: the provider per round and attempt, whether the
   turn's time is up before an attempt and when one has failed, the shared budget per
   round, the tools a round runs and the notices due after it.
   */
  datatype Script = Script(
    maxRounds: nat,
    reply: (nat, nat) -> Attempt,
    interrupted: (nat, nat) -> bool,
    timedOut: (nat, nat) -> bool,
    exhausted: nat -> bool,
    toolEvents: nat -> nat,
    toolsFail: nat -> bool,
    notices: nat -> seq<string>)

  function JoinNotices(notices: seq<string>): string {
    if notices == [] then "" else "\n\n" + notices[0] + JoinNotices(notices[1..])
  }

  /** The room left for prose once the notices have theirs. */
  function VisibleLimit(notices: seq<string>): nat {
    var suffix := ByteLen(JoinNotices(notices));
    if suffix > MAX_BROWSER_MESSAGE_BYTES then 0 else MAX_BROWSER_MESSAGE_BYTES - suffix
  }

  // ---- what a script comes to on a connection that holds ----

  function NoticesOf(script: Script, round: nat): seq<string> {
    script.notices(if round == 0 then 0 else round - 1)
  }

  /** The filter's state when the deltas of an attempt have arrived, and whether it refused one. */
  function Arrived(script: Script, round: nat, attempt: nat): (StreamState, Result<string, ContentError>) {
    PushAll(StreamState("", "", VisibleLimit(NoticesOf(script, round))), script.reply(round, attempt).chunks)
  }

  /** How the attempts of a round end; what is on screen when they answer or are stopped is what the filter let through. */
  datatype CallEnd = Answered(response: Response, state: StreamState) | Stopped(shown: string) | GaveUp(error: RunError)

  function CallFrom(script: Script, round: nat, attempt: nat): CallEnd
    decreases MAX_PROVIDER_ATTEMPTS - attempt
  {
    if script.interrupted(round, attempt) then Stopped("")
    else
      var (state, pushed) := Arrived(script, round, attempt);
      var outcome := script.reply(round, attempt).outcome;
      if pushed.Ok? && outcome.Responded? then Answered(outcome.response, state)
      else if script.timedOut(round, attempt) then Stopped(state.emitted)
      else if pushed.Err? then GaveUp(Unsafe(pushed.error))
      else if attempt >= MAX_PROVIDER_ATTEMPTS || !outcome.retryable then GaveUp(ProviderFailed)
      else CallFrom(script, round, attempt + 1)
  }

  predicate LastRound(script: Script, round: nat) {
    round == script.maxRounds || script.exhausted(round)
  }

  /** How a run ends: in which round, with which error, and with what answer text on screen. */
  datatype Ending = Ending(round: nat, error: Option<RunError>, text: string)

  function FinalOf(script: Script, round: nat, response: Response, state: StreamState): Ending {
    var stripped, finished := Strip(response.content), Finish(state, response.content).1;
    if response.finishReason != "stop" then Ending(round, Some(Incomplete), "")
    else if stripped.Err? then Ending(round, Some(UnsafeAnswer), "")
    else if stripped.value == "" then Ending(round, Some(EmptyAnswer), "")
    else if ByteLen(stripped.value) > VisibleLimit(NoticesOf(script, round)) then Ending(round, Some(AnswerTooLarge), "")
    else if finished.Err? then Ending(round, Some(Unsafe(finished.error)), "")
    else Ending(round, None, stripped.value)
  }

  function RunFrom(script: Script, round: nat): Ending
    requires round <= script.maxRounds
    decreases script.maxRounds - round
  {
    match CallFrom(script, round, 1)
    case Stopped(shown) => Ending(round, Some(Cancelled), shown)
    case GaveUp(e) => Ending(round, Some(e), "")
    case Answered(response, state) =>
      if !response.toolCalls then FinalOf(script, round, response, state)
      else if response.finishReason != "tool_calls" || LastRound(script, round) then
        Ending(round, Some(ToolProtocol), state.emitted)
      else if Finish(state, response.content).1.Err? then
        Ending(round, Some(Unsafe(Finish(state, response.content).1.error)), "")
      else if script.toolsFail(round) then Ending(round, Some(ToolsFailed), "")
      else RunFrom(script, round + 1)
  }

  /** The whole run; on success the notices follow the answer. */
  function RunOf(script: Script): Ending {
    if script.maxRounds == 0 then Ending(0, Some(LoopLimit), "")
    else
      var e := RunFrom(script, 1);
      if e.error.Some? then e else e.(text := e.text + JoinNotices(NoticesOf(script, e.round)))
  }

  lemma {:induction false} PushAllSplits(s: StreamState, a: seq<string>, b: seq<string>)
    ensures var (state, first) := PushAll(s, a);
            && (first.Err? ==> PushAll(s, a + b) == (state, first))
            && (first.Ok? ==> PushAll(s, a + b).0 == PushAll(state, b).0 && PushAll(s, a + b).1.Ok? == PushAll(state, b).1.Ok?
                              && (PushAll(state, b).1.Err? ==> PushAll(s, a + b).1 == PushAll(state, b).1))
    decreases |a|
  {
    hide ThinkFilter.Push;
    if a == [] {
      assert a + b == b;
    } else {
      assert (a + b)[1..] == a[1..] + b && (a + b)[0] == a[0];
      var (next, r) := ThinkFilter.Push(s, a[0]);
      if r.Ok? {
        PushAllSplits(next, a[1..], b);
      }
    }
  }

  lemma NothingPushed(s: StreamState)
    ensures forall none: seq<string> :: |none| == 0 ==> PushAll(s, none) == (s, Ok(""))
  {
  }

  lemma OnePush(s: StreamState, chunk: string)
    ensures PushAll(s, [chunk]) == ThinkFilter.Push(s, chunk)
  {
    hide ThinkFilter.Push;
    assert [chunk][1..] == [];
    var r := ThinkFilter.Push(s, chunk).1;
    assert r.Ok? ==> r.value + "" == r.value;
  }

  /** One more chunk: the state moves by its push; a refused chunk is the error of the whole attempt. */
  lemma NextChunk(s: StreamState, chunks: seq<string>, i: nat)
    requires i < |chunks| && PushAll(s, chunks[..i]).1.Ok?
    ensures var (state, r) := ThinkFilter.Push(PushAll(s, chunks[..i]).0, chunks[i]);
            && PushAll(s, chunks[..i + 1]).0 == state && PushAll(s, chunks[..i + 1]).1.Ok? == r.Ok?
            && (r.Err? ==> PushAll(s, chunks) == (state, Err(r.error)))
  {
    hide ThinkFilter.Push, PushAll;
    var state := PushAll(s, chunks[..i]).0;
    assert chunks[..i + 1] == chunks[..i] + [chunks[i]] && chunks == chunks[..i + 1] + chunks[i + 1..];
    PushAllSplits(s, chunks[..i], [chunks[i]]);
    OnePush(state, chunks[i]);
    PushAllSplits(s, chunks[..i + 1], chunks[i + 1..]);
  }

  /** The filtered content of a complete response of a round, leaving room for the notices. */
  ghost predicate AnswerOf(script: Script, round: nat, content: string) {
    && content != "" && ByteLen(content) <= VisibleLimit(NoticesOf(script, round))
    && exists a: nat, response: Response :: AnswersWith(script, round, a, response, content)
  }

  predicate AnswersWith(script: Script, round: nat, attempt: nat, response: Response, content: string) {
    && 1 <= attempt <= MAX_PROVIDER_ATTEMPTS && script.reply(round, attempt).outcome == Responded(response)
    && response.finishReason == "stop" && !response.toolCalls && Strip(response.content) == Ok(content)
  }

  lemma ThatIsTheAnswer(script: Script, round: nat, attempt: nat, response: Response, content: string)
    requires content != "" && ByteLen(content) <= VisibleLimit(NoticesOf(script, round))
    requires AnswersWith(script, round, attempt, response, content)
    ensures AnswerOf(script, round, content)
  {
  }

  /** What one provider request comes to. */
  ghost predicate Invoked(script: Script, round: nat, attempt: nat, err: Option<RunError>, retryable: bool,
                          response: Response, state: StreamState) {
    var (arrived, pushed) := Arrived(script, round, attempt);
    var outcome := script.reply(round, attempt).outcome;
    && state == arrived
    && (err.None? <==> pushed.Ok? && outcome.Responded?)
    && (err.None? ==> response == outcome.response)
    && (pushed.Err? ==> err == Some(Unsafe(pushed.error)) && !retryable)
    && (pushed.Ok? && outcome.Failed? ==> err == Some(ProviderFailed) && retryable == outcome.retryable)
  }

  lemma AttemptEnds(script: Script, round: nat, attempt: nat, err: Option<RunError>, retryable: bool,
                    response: Response, state: StreamState)
    requires !script.interrupted(round, attempt) && Invoked(script, round, attempt, err, retryable, response, state)
    ensures CallFrom(script, round, attempt) ==
            if err.None? then Answered(response, state)
            else if script.timedOut(round, attempt) then Stopped(state.emitted)
            else if attempt >= MAX_PROVIDER_ATTEMPTS || !retryable then GaveUp(err.value)
            else CallFrom(script, round, attempt + 1)
  {
    hide PushAll;
    assert Arrived(script, round, attempt).1.Ok? || Arrived(script, round, attempt).1.Err?;
    assert script.reply(round, attempt).outcome.Responded? || script.reply(round, attempt).outcome.Failed?;
  }

  lemma StoppedAtOnce(script: Script, round: nat)
    ensures forall attempt: nat :: script.interrupted(round, attempt) ==> CallFrom(script, round, attempt) == Stopped("")
  {
  }

  lemma ToolRound(script: Script, round: nat, response: Response, state: StreamState)
    requires round <= script.maxRounds && CallFrom(script, round, 1) == Answered(response, state) && response.toolCalls
    ensures var finished := Finish(state, response.content).1;
            RunFrom(script, round) ==
            if response.finishReason != "tool_calls" || LastRound(script, round) then
              Ending(round, Some(ToolProtocol), state.emitted)
            else if finished.Err? then Ending(round, Some(Unsafe(finished.error)), "")
            else if script.toolsFail(round) then Ending(round, Some(ToolsFailed), "")
            else RunFrom(script, round + 1)
  {
    hide Finish, CallFrom;
  }

  lemma OtherRound(script: Script, round: nat, err: Option<RunError>, response: Response, state: StreamState, text: string)
    requires round <= script.maxRounds && Called(CallFrom(script, round, 1), err, response, state, text)
    ensures err.Some? ==> RunFrom(script, round) == Ending(round, err, text)
    ensures err.None? ==> CallFrom(script, round, 1) == Answered(response, state)
    ensures err.None? && !response.toolCalls ==> RunFrom(script, round) == FinalOf(script, round, response, state)
  {
    hide Finish, CallFrom, FinalOf;
  }

  /** What the attempts of a round come to, from the given one on. */
  ghost predicate Called(end: CallEnd, err: Option<RunError>, response: Response, state: StreamState, text: string) {
    match end
    case Answered(r, arrived) => err.None? && response == r && state == arrived
    case Stopped(shown) => err == Some(Cancelled) && text == shown
    case GaveUp(e) => err == Some(e) && text == ""
  }

  /** The lead agent's run. */
  class ChatRun {
    const script: Script
    const sink: EventSink
    var round: nat
    var attempts: nat

    constructor (script: Script, sink: EventSink)
      ensures this.script == script && this.sink == sink && round == 0 && attempts == 0
    {
      this.script, this.sink, round, attempts := script, sink, 0, 0;
    }

    /** Notices change only when tools run, so those of a round are those after the round before it. */
    function Notices(): seq<string>
      reads this
    {
      NoticesOf(script, round)
    }

    /** One provider request; its deltas are published as they come. */
    method InvokeProvider(attempt: nat, visible: RoundStream) returns (err: Option<RunError>, retryable: bool,
                          response: Response)
      requires visible.sink == sink && !sink.failed && visible.Shows()
      requires visible.content.State() == StreamState("", "", VisibleLimit(Notices()))
      modifies this`attempts, visible, sink, visible.content
      ensures attempts == old(attempts) + 1 && (sink.accepts.None? ==> !sink.failed)
      ensures !sink.failed ==> Invoked(script, round, attempt, err, retryable, response, visible.content.State())
      ensures sink.failed == (err == Some(Transport)) && (!sink.failed ==> visible.Shows())
      ensures err.None? ==> script.reply(round, attempt).outcome == Responded(response)
      ensures err == Some(ProviderFailed) ==> script.reply(round, attempt).outcome == Failed(retryable)
      ensures err.Some? ==> err.value in {Transport, ProviderFailed} || (err.value.Unsafe? && !retryable)
    {
      hide BrowserText, Streamable, ByteLen, ThinkFilter.Push, PushAll, JoinNotices;
      attempts := attempts + 1;
      NothingPushed(visible.content.State());
      var plan := script.reply(round, attempt);
      response := Response("", "", false);
      ghost var start := visible.content.State();
      for i := 0 to |plan.chunks|
        invariant !sink.failed && visible.Shows() && attempts == old(attempts) + 1
        invariant PushAll(start, plan.chunks[..i]).0 == visible.content.State() && PushAll(start, plan.chunks[..i]).1.Ok?
      {
        NextChunk(start, plan.chunks, i);
        ghost var (_, pushed) := ThinkFilter.Push(visible.content.State(), plan.chunks[i]);
        var sent := visible.Push(plan.chunks[i]);
        assert pushed.Ok? || pushed.Err?;
        match sent {
          case Sent =>
          case Refused(e) =>
            return Some(Unsafe(e)), false, response;
          case Broken =>
            return Some(Transport), false, response;
        }
      }
      assert plan.chunks[..|plan.chunks|] == plan.chunks;
      match plan.outcome {
        case Responded(answered) =>
          return None, false, answered;
        case Failed(again) =>
          return Some(ProviderFailed), again, response;
      }
    }

    /** One round with one bounded retry; a partial answer is withdrawn before the next attempt. */
    method CallModel() returns (err: Option<RunError>, response: Response, visible: RoundStream)
      requires !sink.failed && sink.Text() == ""
      modifies this`attempts, sink
      ensures old(attempts) <= attempts <= old(attempts) + MAX_PROVIDER_ATTEMPTS
      ensures err != Some(Cancelled) ==> old(attempts) < attempts
      ensures err.Some? ==> err.value in {Transport, Cancelled, ProviderFailed} || err.value.Unsafe?
      ensures attempts > old(attempts) + 1 ==> script.reply(round, 1).outcome == Failed(true)
      ensures err == Some(ProviderFailed) && attempts == old(attempts) + 1 ==> script.reply(round, 1).outcome == Failed(false)
      ensures fresh(visible) && fresh(visible.content) && visible.sink == sink
      ensures sink.failed == (err == Some(Transport)) && (sink.accepts.None? ==> !sink.failed)
      ensures !sink.failed ==> Called(CallFrom(script, round, 1), err, response, visible.content.State(), sink.Text())
      ensures err.None? ==> visible.Shows()
      ensures err.None? ==> script.reply(round, attempts - old(attempts)).outcome == Responded(response)
      ensures err.Some? && !(err.value in {Transport, Cancelled}) ==> sink.Text() == ""
    {
      hide BrowserText, Streamable, ByteLen, JoinNotices, PushAll, Invoked, CallFrom;
      StoppedAtOnce(script, round);
      response := Response("", "", false);
      visible := new RoundStream(sink, VisibleLimit(Notices()));
      var attempt := 1;
      while attempt <= MAX_PROVIDER_ATTEMPTS
        invariant 1 <= attempt <= MAX_PROVIDER_ATTEMPTS && attempts == old(attempts) + attempt - 1
        invariant attempt > 1 ==> script.reply(round, 1).outcome == Failed(true)
        decreases MAX_PROVIDER_ATTEMPTS - attempt
        invariant !sink.failed && sink.Text() == ""
        invariant fresh(visible) && fresh(visible.content) && visible.sink == sink
        invariant CallFrom(script, round, 1) == CallFrom(script, round, attempt)
      {
        if script.interrupted(round, attempt) {
          return Some(Cancelled), response, visible;
        }
        visible := new RoundStream(sink, VisibleLimit(Notices()));
        var failure, retryable, answered := InvokeProvider(attempt, visible);
        if !sink.failed {
          AttemptEnds(script, round, attempt, failure, retryable, answered, visible.content.State());
        }
        if failure.None? {
          return None, answered, visible;
        }
        if failure.value.Transport? {
          return failure, response, visible;
        }
        if script.timedOut(round, attempt) {
          return Some(Cancelled), response, visible;
        }
        var ok := visible.Reset();
        if !ok {
          return Some(Transport), response, visible;
        }
        if attempt == MAX_PROVIDER_ATTEMPTS || !retryable {
          return failure, response, visible;
        }
        attempt := attempt + 1;
      }
      err := Some(ProviderFailed);
    }

    /** Turns a terminal response into the answer, reconciled with what was streamed. */
    method FinalContent(response: Response, visible: RoundStream) returns (err: Option<RunError>, content: string)
      requires visible.sink == sink && !sink.failed && visible.Shows()
      modifies visible, sink, visible.content
      ensures sink.failed == (err == Some(Transport)) && (sink.accepts.None? ==> !sink.failed)
      ensures !sink.failed ==>
                Ending(round, err, sink.Text()) == FinalOf(script, round, response, old(visible.content.State()))
      ensures err.None? ==> response.finishReason == "stop" && Strip(response.content) == Ok(content) && content != ""
      ensures err.None? ==> ByteLen(content) <= VisibleLimit(Notices()) && sink.Text() == content
      ensures err.Some? && err.value != Transport ==> sink.Text() == ""
      ensures err == Some(Incomplete) ==> response.finishReason != "stop"
      ensures err == Some(UnsafeAnswer) ==> Strip(response.content).Err?
      ensures err == Some(EmptyAnswer) ==> Strip(response.content) == Ok("")
      ensures err == Some(AnswerTooLarge) ==>
                Strip(response.content).Ok? && ByteLen(Strip(response.content).value) > VisibleLimit(Notices())
      ensures err.Some? ==> err.value in {Transport, Incomplete, UnsafeAnswer, EmptyAnswer, AnswerTooLarge} || err.value.Unsafe?
    {
      hide BrowserText, Strip, ByteLen, JoinNotices, Streamable;
      content := "";
      var stripped := StripLeadingThinkBlocks(response.content);
      err := None;
      if response.finishReason != "stop" {
        err := Some(Incomplete);
      } else if stripped.Err? {
        err := Some(UnsafeAnswer);
      } else if stripped.value == "" {
        err := Some(EmptyAnswer);
      } else if ByteLen(stripped.value) > VisibleLimit(Notices()) {
        err := Some(AnswerTooLarge);
      }
      if err.Some? {
        var ok := visible.Reset();
        if !ok {
          err := Some(Transport);
        }
        return;
      }
      var sent := visible.Flush(response.content);
      match sent {
        case Sent =>
          content := stripped.value;
        case Refused(e) =>
          err := Some(Unsafe(e));
        case Broken =>
          err := Some(Transport);
      }
    }

    /** Announces and runs the round's tools; their progress does not touch the answer text. */
    method RunToolCalls() returns (err: Option<RunError>)
      requires !sink.failed
      modifies sink
      ensures sink.failed == (err == Some(Transport)) && (!sink.failed ==> sink.Text() == old(sink.Text()))
      ensures sink.accepts.None? ==> !sink.failed
      ensures !sink.failed ==> err == if script.toolsFail(round) then Some(ToolsFailed) else None
    {
      hide BrowserText;
      for i := 0 to script.toolEvents(round)
        invariant !sink.failed && sink.Text() == old(sink.Text())
      {
        BrowserTextAfter(sink.delivered, ToolProgress);
        var ok := sink.Send(ToolProgress);
        if !ok {
          return Some(Transport);
        }
      }
      err := if script.toolsFail(round) then Some(ToolsFailed) else None;
    }

    /** A round that asked for tools: withdraws its prose and runs them, unless it may not ask. */
    method ToolRoundEnds(response: Response, visible: RoundStream, final: bool) returns (err: Option<RunError>)
      requires visible.sink == sink && !sink.failed && visible.Shows()
      requires final == LastRound(script, round)
      modifies visible, sink, visible.content
      ensures sink.failed == (err == Some(Transport)) && (sink.accepts.None? ==> !sink.failed)
      ensures var protocol := response.finishReason == "tool_calls" && !final;
              var finished := Finish(old(visible.content.State()), response.content).1;
              !sink.failed ==>
                && err == (if !protocol then Some(ToolProtocol)
                           else if finished.Err? then Some(Unsafe(finished.error))
                           else if script.toolsFail(round) then Some(ToolsFailed) else None)
                && sink.Text() == if protocol then "" else old(visible.content.emitted)
    {
      hide BrowserText, Strip, Streamable, Finish;
      if response.finishReason != "tool_calls" || final {
        return Some(ToolProtocol);
      }
      var sent := visible.FinishRound(response.content);
      match sent {
        case Sent =>
        case Refused(e) =>
          return Some(Unsafe(e));
        case Broken =>
          return Some(Transport);
      }
      err := RunToolCalls();
    }

    /** Errors that leave on screen what the last attempt had streamed: the loop ends without a reset. */
    static predicate LeavesText(err: RunError) {
      err in {Transport, Cancelled, ToolProtocol}
    }

    /** One round, announced: its provider call, then its answer or its tools. */
    method PlayRound(final: bool) returns (err: Option<RunError>, content: Option<string>)
      requires !sink.failed && sink.Text() == "" && 1 <= round <= script.maxRounds && final == LastRound(script, round)
      modifies this`attempts, sink
      ensures old(attempts) <= attempts <= old(attempts) + MAX_PROVIDER_ATTEMPTS
      ensures sink.failed == (err == Some(Transport)) && (sink.accepts.None? ==> !sink.failed)
      ensures !sink.failed && (err.Some? || content.Some?) ==> Ending(round, err, sink.Text()) == RunFrom(script, round)
      ensures err.None? && content.None? ==> !final && sink.Text() == "" && RunFrom(script, round) == RunFrom(script, round + 1)
      ensures err.None? && content.Some? ==> AnswerOf(script, round, content.value) && sink.Text() == content.value
      ensures err.Some? && !LeavesText(err.value) ==> sink.Text() == ""
      ensures err != Some(LoopLimit)
    {
      hide BrowserText, ByteLen, JoinNotices, Strip, Streamable, CallFrom, Finish, FinalOf, Arrived, PushAll,
           RunFrom, Called,
           VisibleLimit, NoticesOf, AnswerOf;
      content := None;
      ghost var before := attempts;
      var failure, response, visible := CallModel();
      ghost var state := visible.content.State();
      if !sink.failed {
        OtherRound(script, round, failure, response, state, sink.Text());
      }
      if failure.Some? {
        return failure, None;
      }
      if !response.toolCalls {
        var answer;
        err, answer := FinalContent(response, visible);
        if err.None? {
          ThatIsTheAnswer(script, round, attempts - before, response, answer);
          content := Some(answer);
        }
        return;
      }
      ToolRound(script, round, response, state);
      err := ToolRoundEnds(response, visible, final);
    }

    /** The provider loop: ends with an answer or an error, after at most two attempts a round. */
    method Execute() returns (err: Option<RunError>, content: string)
      requires !sink.failed && sink.Text() == "" && round == 0 && attempts == 0
      modifies this`round, this`attempts, sink
      ensures round <= script.maxRounds && attempts <= MAX_PROVIDER_ATTEMPTS * round
      ensures sink.failed == (err == Some(Transport)) && (sink.accepts.None? ==> !sink.failed)
      ensures !sink.failed && script.maxRounds > 0 ==> Ending(round, err, sink.Text()) == RunFrom(script, 1)
      ensures err.None? ==> AnswerOf(script, round, content) && sink.Text() == content
      ensures err.Some? && !LeavesText(err.value) ==> sink.Text() == ""
      ensures err == Some(LoopLimit) <==> script.maxRounds == 0
    {
      hide BrowserText, RunFrom, AnswerOf;
      content := "";
      while round < script.maxRounds
        invariant round <= script.maxRounds && attempts <= MAX_PROVIDER_ATTEMPTS * round
        invariant round > 0 ==> round < script.maxRounds
        invariant !sink.failed && sink.Text() == ""
        invariant script.maxRounds > 0 ==> RunFrom(script, 1) == RunFrom(script, round + 1)
      {
        round := round + 1;
        var final := round == script.maxRounds || script.exhausted(round);
        BrowserTextAfter(sink.delivered, RoundStart(round));
        var ok := sink.Send(RoundStart(round));
        if !ok {
          return Some(Transport), content;
        }
        var failure, answer := PlayRound(final);
        if failure.Some? {
          return failure, content;
        }
        if answer.Some? {
          return None, answer.value;
        }
      }
      err := Some(LoopLimit);
    }

    /** The message the service signs: the answer and the notices. What the browser shows is that message. */
    method RunChat() returns (err: Option<RunError>, message: string)
      requires sink.delivered == [] && !sink.failed && round == 0 && attempts == 0
      modifies this`round, this`attempts, sink
      ensures err.None? ==> sink.Text() == message && ByteLen(message) <= MAX_BROWSER_MESSAGE_BYTES
      ensures err.None? ==> exists content :: AnswerOf(script, round, content) && message == content + JoinNotices(Notices())
      ensures err.Some? && !LeavesText(err.value) ==> sink.Text() == ""
      ensures round <= script.maxRounds && attempts <= MAX_PROVIDER_ATTEMPTS * round
      ensures err == Some(Transport) ==> sink.accepts.Some?
      ensures err != Some(Transport) ==> Ending(round, err, sink.Text()) == RunOf(script)
    {
      hide BrowserText, ByteLen, JoinNotices, Strip, Streamable, CallFrom, RunFrom, Arrived;
      message := "";
      NothingShown(sink.delivered);
      BrowserTextAfter(sink.delivered, Start);
      var ok := sink.Send(Start);
      if !ok {
        return Some(Transport), message;
      }
      var failure, content := Execute();
      if failure.Some? {
        return failure, message;
      }
      var suffix := JoinNotices(Notices());
      ByteLenConcat(content, suffix);
      AnswerFits(content, Notices());
      if suffix != "" {
        BrowserTextAfter(sink.delivered, ContentDelta(suffix));
        var sent := sink.Send(ContentDelta(suffix));
        if !sent {
          return Some(Transport), message;
        }
      } else {
        assert content + suffix == content;
      }
      assert AnswerOf(script, round, content);
      return None, content + suffix;
    }
  }

  // ---- when a failed turn leaves its partial text on screen ----

  /** The answer text the filter had let through when the deltas of an attempt have arrived. */
  function ShownBy(script: Script, round: nat, attempt: nat): string {
    Arrived(script, round, attempt).0.emitted
  }

  /** The round ran tools and went on to the next. */
  predicate GoesOn(script: Script, round: nat) {
    var end := CallFrom(script, round, 1);
    && end.Answered? && end.response.toolCalls && end.response.finishReason == "tool_calls" && !LastRound(script, round)
    && Finish(end.state, end.response.content).1.Ok? && !script.toolsFail(round)
  }

  /** The attempt failed in a way that is worth another one. */
  predicate Retried(script: Script, round: nat, attempt: nat) {
    && !script.interrupted(round, attempt) && Arrived(script, round, attempt).1.Ok?
    && script.reply(round, attempt).outcome == Failed(true) && !script.timedOut(round, attempt)
  }

  /** The run comes to this attempt. */
  ghost predicate Reached(script: Script, round: nat, attempt: nat) {
    && 1 <= round <= script.maxRounds && 1 <= attempt <= MAX_PROVIDER_ATTEMPTS && !script.interrupted(round, attempt)
    && (forall r: nat :: 1 <= r < round ==> GoesOn(script, r))
    && (forall a: nat :: 1 <= a < attempt ==> Retried(script, round, a))
  }

  /** The attempt fails, and the turn's time is up by then. */
  predicate TimesOut(script: Script, round: nat, attempt: nat) {
    && (Arrived(script, round, attempt).1.Err? || script.reply(round, attempt).outcome.Failed?)
    && script.timedOut(round, attempt)
  }

  /** The attempt asks for tools without saying so, or when none are offered any more. */
  predicate BreaksProtocol(script: Script, round: nat, attempt: nat) {
    var outcome := script.reply(round, attempt).outcome;
    && Arrived(script, round, attempt).1.Ok? && outcome.Responded? && outcome.response.toolCalls
    && (outcome.response.finishReason != "tool_calls" || LastRound(script, round))
  }

  ghost predicate LeavesOnScreen(script: Script, round: nat, attempt: nat, text: string) {
    && Reached(script, round, attempt) && ShownBy(script, round, attempt) == text
    && (TimesOut(script, round, attempt) || BreaksProtocol(script, round, attempt))
  }

  /**
   A failed turn leaves a text on screen exactly when it comes to an attempt that times
   out or breaks the tool protocol, and that text is what the attempt had streamed.
   */
  lemma WhenTextStays(script: Script, text: string)
    requires text != ""
    ensures RunOf(script).error.Some? && RunOf(script).text == text
            <==> exists round: nat, attempt: nat :: LeavesOnScreen(script, round, attempt, text)
  {
    hide RunFrom, Reached, TimesOut, BreaksProtocol, ShownBy;
    if exists round: nat, attempt: nat :: LeavesOnScreen(script, round, attempt, text) {
      var round: nat, attempt: nat :| LeavesOnScreen(script, round, attempt, text);
      RoundsWereReached(script, round, attempt);
      EndsThere(script, round, attempt);
      RunGoesOn(script, 1, round);
    }
    if script.maxRounds > 0 && RunFrom(script, 1).error.Some? && RunFrom(script, 1).text == text {
      var round, attempt := FindTheLast(script, 1, text);
      assert LeavesOnScreen(script, round, attempt, text);
    }
  }

  lemma RoundsWereReached(script: Script, round: nat, attempt: nat)
    requires Reached(script, round, attempt)
    ensures 1 <= round <= script.maxRounds && forall r: nat :: 1 <= r < round ==> GoesOn(script, r)
  {
  }

  lemma {:induction false} RunGoesOn(script: Script, from: nat, round: nat)
    requires from <= round <= script.maxRounds && forall r: nat :: from <= r < round ==> GoesOn(script, r)
    ensures RunFrom(script, from) == RunFrom(script, round)
    decreases round - from
  {
    hide CallFrom, RunFrom, Finish;
    if from < round {
      assert GoesOn(script, from);
      var end := CallFrom(script, from, 1);
      ToolRound(script, from, end.response, end.state);
      RunGoesOn(script, from + 1, round);
    }
  }

  /** Where the first attempt of a round, and its second after a retry, lead. */
  lemma AttemptsOfARound(script: Script, round: nat, attempt: nat)
    requires 1 <= attempt <= MAX_PROVIDER_ATTEMPTS && forall a: nat :: 1 <= a < attempt ==> Retried(script, round, a)
    ensures CallFrom(script, round, 1) == CallFrom(script, round, attempt)
  {
    hide PushAll;
    if attempt == 2 {
      assert Retried(script, round, 1);
    }
  }

  lemma EndsThere(script: Script, round: nat, attempt: nat)
    requires Reached(script, round, attempt) && (TimesOut(script, round, attempt) || BreaksProtocol(script, round, attempt))
    ensures RunFrom(script, round) ==
            Ending(round, Some(if BreaksProtocol(script, round, attempt) then ToolProtocol else Cancelled),
                   ShownBy(script, round, attempt))
  {
    hide PushAll, RunFrom;
    AttemptsOfARound(script, round, attempt);
    var (state, pushed) := Arrived(script, round, attempt);
    if BreaksProtocol(script, round, attempt) {
      ToolRound(script, round, script.reply(round, attempt).outcome.response, state);
    } else {
      assert pushed.Ok? || pushed.Err?;
      OtherRound(script, round, Some(Cancelled), Response("", "", false), state, state.emitted);
    }
  }

  /** The attempt that left its text. */
  lemma {:induction false} FindTheLast(script: Script, from: nat, text: string) returns (round: nat, attempt: nat)
    requires 1 <= from <= script.maxRounds && forall r: nat :: 1 <= r < from ==> GoesOn(script, r)
    requires RunFrom(script, from).error.Some? && RunFrom(script, from).text == text != ""
    ensures LeavesOnScreen(script, round, attempt, text)
    decreases script.maxRounds - from
  {
    hide PushAll, Finish, RunFrom;
    if GoesOn(script, from) {
      RunGoesOn(script, from, from + 1);
      round, attempt := FindTheLast(script, from + 1, text);
    } else {
      round := from;
      attempt := TheLastAttempt(script, from, text);
    }
  }

  lemma TheLastAttempt(script: Script, round: nat, text: string) returns (attempt: nat)
    requires 1 <= round <= script.maxRounds && !GoesOn(script, round)
    requires RunFrom(script, round).error.Some? && RunFrom(script, round).text == text != ""
    ensures 1 <= attempt <= MAX_PROVIDER_ATTEMPTS && !script.interrupted(round, attempt)
    ensures forall a: nat :: 1 <= a < attempt ==> Retried(script, round, a)
    ensures ShownBy(script, round, attempt) == text && (TimesOut(script, round, attempt) || BreaksProtocol(script, round, attempt))
  {
    hide PushAll, RunFrom;
    attempt := if Retried(script, round, 1) then 2 else 1;
    AttemptsOfARound(script, round, attempt);
    TextOfTheRound(script, round);
  }

  /** A round that ends the run with an error and a text is one of two kinds. */
  lemma TextOfTheRound(script: Script, round: nat)
    requires round <= script.maxRounds && !GoesOn(script, round)
    requires RunFrom(script, round).error.Some? && RunFrom(script, round).text != ""
    ensures var end := CallFrom(script, round, 1);
            || (end.Stopped? && end.shown == RunFrom(script, round).text)
            || (end.Answered? && end.state.emitted == RunFrom(script, round).text && end.response.toolCalls
                && (end.response.finishReason != "tool_calls" || LastRound(script, round)))
  {
    hide CallFrom, Strip, Finish, ByteLen;
  }

  /** A script of one round in which the provider streams a text and then does what is given. */
  function OneRound(text: string, outcome: Outcome, late: bool): Script {
    Script(1, (_: nat, _: nat) => Attempt([text], outcome), (_: nat, _: nat) => false, (_: nat, _: nat) => late,
           (_: nat) => false, (_: nat) => 0, (_: nat) => false, (_: nat) => [])
  }

  /** Time runs out while an answer is streaming: the turn ends and the text stays. */
  lemma ATimeoutLeavesText(again: bool)
    ensures RunOf(OneRound("x", Failed(again), true)) == Ending(1, Some(Cancelled), "x")
  {
    var script := OneRound("x", Failed(again), true);
    OneLetterIsShown(script);
    hide Arrived, CallFrom, RunFrom, GoesOn, Retried;
    assert Reached(script, 1, 1);
    EndsThere(script, 1, 1);
  }

  /** So does the prose before a tool call in the last round. */
  lemma AToolCallInTheLastRoundLeavesText(content: string)
    ensures RunOf(OneRound("x", Responded(Response(content, "tool_calls", true)), false)) == Ending(1, Some(ToolProtocol), "x")
  {
    var script := OneRound("x", Responded(Response(content, "tool_calls", true)), false);
    OneLetterIsShown(script);
    hide Arrived, CallFrom, RunFrom, GoesOn, Retried;
    assert Reached(script, 1, 1);
    EndsThere(script, 1, 1);
  }

  lemma OneLetterIsShown(script: Script)
    requires script.reply(1, 1).chunks == ["x"] && script.notices(0) == []
    ensures Arrived(script, 1, 1) == (StreamState("x", "x", MAX_BROWSER_MESSAGE_BYTES), Ok("x"))
  {
    hide PushAll;
    assert JoinNotices([]) == "" && ByteLen("") == 0;
    OneLetterIsPushed();
    OnePush(StreamState("", "", MAX_BROWSER_MESSAGE_BYTES), "x");
  }

  lemma OneLetterIsPushed()
    ensures ThinkFilter.Push(StreamState("", "", MAX_BROWSER_MESSAGE_BYTES), "x")
            == (StreamState("x", "x", MAX_BROWSER_MESSAGE_BYTES), Ok("x"))
  {
    OneLetterStreams();
    hide Streamable;
    assert ByteLen("x") == 1 && ByteLen("") == 0;
    assert "" + "x" == "x" && "x"[0..] == "x";
  }

  lemma OneLetterStreams()
    ensures Streamable("x") == Ok("x")
  {
    hide HeldFrom, Held, TrimLeft, TrimRight;
    HeldTextHasABracket("x", OPEN);
    HeldTextHasABracket("x", CLOSE);
    TrimmedLetter();
    assert "x"[..1] == "x";
    assert Settle("x") == Answer("x");
  }

  lemma TrimmedLetter()
    ensures TrimLeft("x") == "x" && TrimRight("x") == "x"
  {
  }

  lemma NothingShown(events: seq<Event>)
    ensures events == [] ==> BrowserText(events) == ""
  {
  }

  lemma AnswerFits(content: string, notices: seq<string>)
    requires content != "" && ByteLen(content) <= VisibleLimit(notices)
    ensures ByteLen(content) + ByteLen(JoinNotices(notices)) <= MAX_BROWSER_MESSAGE_BYTES
  {
    assert ByteLen(content) > 0;
  }
}
