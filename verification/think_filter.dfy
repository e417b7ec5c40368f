/**
 The think-tag filter: which part of a provider's text is answer prose, while the
 text is still arriving and once it is complete. Reasoning envelopes at the front are
 dropped, a tag anywhere else is an error, and nothing that could still turn into a
 tag is shown.
 */
module ThinkFilter {
  import opened Common
  import opened Text

  const OPEN := "<think>"
  const CLOSE := "</think>"

  datatype ContentError =
    TooLarge | VisibleTooLarge | UnclosedThink | UnexpectedTag | ChangedAfterStreamed | FinalMismatch

  // ---- white space ----

  /** unicode.IsSpace. */
  predicate IsSpace(c: char) {
    || '\t' <= c <= '\r' || c == ' ' || c == '\U{85}' || c == '\U{A0}' || c == '\U{1680}'
    || '\U{2000}' <= c <= '\U{200A}' || c == '\U{2028}' || c == '\U{2029}' || c == '\U{202F}' || c == '\U{205F}' || c == '\U{3000}'
  }

  function TrimLeft(s: string): (r: string)
    ensures |r| <= |s| && (r != "" ==> !IsSpace(r[0]))
  {
    if s != "" && IsSpace(s[0]) then TrimLeft(s[1..]) else s
  }

  function TrimRight(s: string): (r: string)
    ensures r <= s && (r != "" ==> !IsSpace(r[|r| - 1]))
    ensures forall i :: |r| <= i < |s| ==> IsSpace(s[i])
  {
    if s != "" && IsSpace(s[|s| - 1]) then TrimRight(s[..|s| - 1]) else s
  }

  function TrimSpace(s: string): string {
    TrimRight(TrimLeft(s))
  }

  lemma {:induction false} TrimLeftAppend(s: string, more: string)
    requires TrimLeft(s) != ""
    ensures TrimLeft(s + more) == TrimLeft(s) + more
  {
    if s != "" && IsSpace(s[0]) {
      TrimLeftAppend(s[1..], more);
      assert (s + more)[1..] == s[1..] + more;
    }
  }

  /** Of two texts, one the start of the other, the trimmed one is the start of the other trimmed. */
  lemma {:induction false} TrimRightGrows(a: string, b: string)
    requires a <= b
    ensures TrimRight(a) <= TrimRight(b)
    decreases |b|
  {
    if a != b && IsSpace(b[|b| - 1]) {
      TrimRightGrows(a, b[..|b| - 1]);
    }
  }

  // ---- the filter on a complete text ----

  predicate HasTag(s: string) {
    Contains(s, OPEN) || Contains(s, CLOSE)
  }

  /** Drops the reasoning envelopes at the front of a trimmed text. */
  function StripFrom(c: string): Result<string, ContentError>
    decreases |c|
  {
    if OPEN <= c then
      match IndexOf(c, CLOSE)
      case None => Err(UnclosedThink)
      case Some(end) => StripFrom(TrimSpace(c[end + |CLOSE|..]))
    else if HasTag(c) then Err(UnexpectedTag)
    else Ok(c)
  }

  function Strip(content: string): Result<string, ContentError> {
    StripFrom(TrimSpace(content))
  }

  method StripLeadingThinkBlocks(text: string) returns (r: Result<string, ContentError>)
    ensures r == Strip(text)
  {
    var content := TrimSpace(text);
    while OPEN <= content
      invariant StripFrom(content) == Strip(text)
      decreases |content|
    {
      match IndexOf(content, CLOSE) {
        case None =>
          return Err(UnclosedThink);
        case Some(end) =>
          content := TrimSpace(content[end + |CLOSE|..]);
      }
    }
    if Contains(content, OPEN) || Contains(content, CLOSE) {
      return Err(UnexpectedTag);
    }
    r := Ok(content);
  }

  // ---- the filter on a text that is still arriving ----

  /** Either the answer may still be preceded by reasoning, or it has begun. */
  datatype Settled = Withheld | Answer(rest: string)

  function Settle(c: string): Settled
    decreases |c|
  {
    if c == "" || c <= OPEN then Withheld
    else if !(OPEN <= c) then Answer(c)
    else
      match IndexOf(c, CLOSE)
      case None => Withheld
      case Some(end) => Settle(TrimLeft(c[end + |CLOSE|..]))
  }

  /** The length of the shortest end of c, from n on, that is a partial tag; 0 when none is. */
  function HeldFrom(c: string, tag: string, n: nat): (h: nat)
    requires 1 <= n <= |tag|
    ensures h == 0 || (n <= h < |tag| && EndsWith(c, tag[..h]))
    decreases |tag| - n
  {
    if n == |tag| then 0 else if EndsWith(c, tag[..n]) then n else HeldFrom(c, tag, n + 1)
  }

  function Held(c: string, tag: string): (h: nat)
    requires tag != ""
    ensures h <= |c|
  {
    HeldFrom(c, tag, 1)
  }

  /** Where the text that is safe to show ends. */
  function SafeEnd(c: string): (r: nat)
    ensures r <= |c|
  {
    var end := |c| - Held(c, OPEN);
    end - Held(c[..end], CLOSE)
  }

  function Shown(rest: string): string {
    TrimRight(rest[..SafeEnd(rest)])
  }

  function Streamable(content: string): Result<string, ContentError> {
    match Settle(TrimLeft(content))
    case Withheld => Ok("")
    case Answer(rest) => if HasTag(rest) then Err(UnexpectedTag) else Ok(Shown(rest))
  }

  method StreamableVisibleContent(text: string) returns (r: Result<string, ContentError>)
    ensures r == Streamable(text)
  {
    hide SafeEnd, Held, HeldFrom, Contains, TrimLeft, TrimRight;
    var content := TrimLeft(text);
    while true
      invariant Settle(content) == Settle(TrimLeft(text))
      decreases |content|
    {
      if content == "" || content <= OPEN {
        return Ok("");
      }
      if !(OPEN <= content) {
        break;
      }
      match IndexOf(content, CLOSE) {
        case None =>
          return Ok("");
        case Some(end) =>
          content := TrimLeft(content[end + |CLOSE|..]);
      }
    }
    if Contains(content, OPEN) || Contains(content, CLOSE) {
      return Err(UnexpectedTag);
    }
    var safeEnd := WithoutPartialTags(content);
    r := Ok(TrimRight(content[..safeEnd]));
  }

  method WithoutPartialTags(content: string) returns (safeEnd: nat)
    ensures safeEnd == SafeEnd(content)
  {
    var held := PartialTag(content, OPEN);
    safeEnd := |content| - held;
    held := PartialTag(content[..safeEnd], CLOSE);
    safeEnd := safeEnd - held;
  }

  method PartialTag(content: string, tag: string) returns (held: nat)
    requires tag != ""
    ensures held == Held(content, tag)
  {
    var n := 1;
    while n < |tag|
      invariant 1 <= n <= |tag| && HeldFrom(content, tag, n) == Held(content, tag)
    {
      if EndsWith(content, tag[..n]) {
        return n;
      }
      n := n + 1;
    }
    held := 0;
  }

  // ---- what arrives later only adds ----

  /** A tag starts with '<' and has no other. */
  predicate IsTag(tag: string) {
    tag == OPEN || tag == CLOSE
  }

  lemma TagShape(tag: string)
    requires IsTag(tag)
    ensures tag != "" && tag[0] == '<' && forall i :: 0 < i < |tag| ==> tag[i] != '<'
  {
  }

  /** At most one length of partial tag fits the end of a text, so the shortest is the only one. */
  lemma OnePartialTag(c: string, a: string, b: string, n: nat, m: nat)
    requires IsTag(a) && IsTag(b) && 1 <= n < |a| && 1 <= m < |b|
    requires EndsWith(c, a[..n]) && EndsWith(c, b[..m])
    ensures n == m
  {
    PartialTagShape(c, a, n);
    PartialTagShape(c, b, m);
  }

  lemma PartialTagShape(c: string, tag: string, n: nat)
    requires IsTag(tag) && 1 <= n < |tag| && EndsWith(c, tag[..n])
    ensures c[|c| - n] == '<' && forall i :: |c| - n < i < |c| ==> c[i] != '<'
  {
    TagShape(tag);
    assert forall i :: |c| - n <= i < |c| ==> c[i] == tag[..n][i - (|c| - n)];
  }

  lemma {:induction false} HeldFromIs(c: string, tag: string, from: nat, n: nat)
    requires IsTag(tag) && 1 <= from <= n < |tag| && EndsWith(c, tag[..n])
    ensures HeldFrom(c, tag, from) == n
    decreases |tag| - from
  {
    if EndsWith(c, tag[..from]) {
      OnePartialTag(c, tag, tag, from, n);
    } else {
      HeldFromIs(c, tag, from + 1, n);
    }
  }

  /** What is held back is the partial tag at the end, if there is one. */
  lemma HeldIs(c: string, tag: string, n: nat)
    requires IsTag(tag)
    ensures Held(c, tag) == 0 || (Held(c, tag) < |tag| && EndsWith(c, tag[..Held(c, tag)]))
    ensures 1 <= n < |tag| && EndsWith(c, tag[..n]) ==> Held(c, tag) == n
  {
    if 1 <= n < |tag| && EndsWith(c, tag[..n]) {
      HeldFromIs(c, tag, 1, n);
    }
  }

  /** Only text with a '<' has a partial tag. */
  lemma HeldTextHasABracket(c: string, tag: string)
    requires IsTag(tag)
    ensures Held(c, tag) > 0 ==> '<' in c
  {
    hide Held, EndsWith;
    HeldIs(c, tag, 1);
    if Held(c, tag) > 0 {
      PartialTagShape(c, tag, Held(c, tag));
    }
  }

  /** A partial tag grows by its next character or ends. */
  lemma PartialTagGrows(c: string, x: char, tag: string, n: nat)
    requires n < |tag|
    ensures EndsWith(c + [x], tag[..n + 1]) <==> EndsWith(c, tag[..n]) && x == tag[n]
  {
    var longer, shorter := tag[..n + 1], tag[..n];
    assert longer == shorter + [tag[n]];
    if n <= |c| {
      assert (c + [x])[|c| + 1 - (n + 1)..] == c[|c| - n..] + [x];
      if c[|c| - n..] + [x] == shorter + [tag[n]] {
        assert (c[|c| - n..] + [x])[..n] == (shorter + [tag[n]])[..n];
        assert (c[|c| - n..] + [x])[n] == (shorter + [tag[n]])[n];
      }
    }
  }

  /** One more character never makes shown text unsafe. */
  lemma SafeEndGrows(c: string, x: char)
    ensures SafeEnd(c) <= SafeEnd(c + [x])
  {
    hide Held, EndsWith, SafeEnd;
    var longer := c + [x];
    HeldIs(longer, OPEN, 1);
    HeldIs(longer, CLOSE, 1);
    NoLessSafe(c);
    SafeEndIs(c);
    SafeEndIs(longer);
    var h, g := Held(longer, OPEN), Held(longer, CLOSE);
    if h > 1 {
      PartialTagGrows(c, x, OPEN, h - 1);
      HeldIs(c, OPEN, h - 1);
      assert longer[..|longer| - h] == c[..|c| - (h - 1)];
    } else if h == 1 {
      assert longer[..|longer| - h] == c;
    } else if g > 1 {
      PartialTagGrows(c, x, CLOSE, g - 1);
      HeldIs(c, CLOSE, g - 1);
    } else if g == 1 {
      LoneBracket(longer);
    }
  }

  lemma SafeEndIs(c: string)
    ensures var end := |c| - Held(c, OPEN);
            SafeEnd(c) == end - Held(c[..end], CLOSE)
    ensures Held(c, OPEN) == 0 ==> SafeEnd(c) == |c| - Held(c, CLOSE)
  {
    hide Held;
    assert c[..|c|] == c;
  }

  /** A lone '<' is a partial tag of either kind. */
  lemma LoneBracket(c: string)
    ensures Held(c, CLOSE) == 1 <==> Held(c, OPEN) == 1
  {
    hide HeldFrom;
    HeldIs(c, OPEN, 1);
    HeldIs(c, CLOSE, 1);
    assert OPEN[0] == '<' == CLOSE[0];
    assert OPEN[..1] == ['<'] == CLOSE[..1];
  }

  /** Holding back a partial closing tag alone shows at least as much as holding back both. */
  lemma NoLessSafe(c: string)
    ensures SafeEnd(c) <= |c| - Held(c, CLOSE)
  {
    hide Held, EndsWith, SafeEnd;
    var k := Held(c, CLOSE);
    SafeEndIs(c);
    HeldIs(c, CLOSE, 1);
    HeldIs(c, OPEN, 1);
    if k == 1 {
      LoneBracket(c);
    } else if k > 1 && Held(c, OPEN) > 0 {
      OnePartialTag(c, OPEN, CLOSE, Held(c, OPEN), k);
    }
  }

  lemma {:induction false} ShownGrows(rest: string, more: string)
    ensures Shown(rest) <= Shown(rest + more)
    decreases |more|
  {
    hide SafeEnd, TrimRight;
    if more == "" {
      assert rest + more == rest;
    } else {
      var longer := rest + [more[0]];
      SafeEndGrows(rest, more[0]);
      assert rest[..SafeEnd(rest)] <= longer[..SafeEnd(longer)];
      TrimRightGrows(rest[..SafeEnd(rest)], longer[..SafeEnd(longer)]);
      ShownGrows(longer, more[1..]);
      assert longer + more[1..] == rest + more;
    }
  }

  /** Once the answer has begun, later text belongs to it. */
  lemma {:induction false} SettleAppend(c: string, more: string)
    requires Settle(c).Answer?
    ensures Settle(c + more) == Answer(Settle(c).rest + more)
    decreases |c|
  {
    hide IndexOf, TrimLeft;
    PrefixOfAppend(c, more, OPEN);
    if OPEN <= c {
      IndexOfAppend(c, CLOSE, more);
      var end := IndexOf(c, CLOSE).value;
      var tail := c[end + |CLOSE|..];
      assert (c + more)[end + |CLOSE|..] == tail + more;
      TrimLeftAppend(tail, more);
      SettleAppend(TrimLeft(tail), more);
    }
  }

  lemma PrefixOfAppend(c: string, more: string, tag: string)
    ensures tag <= c ==> tag <= c + more
    ensures tag <= c + more ==> tag <= c || c <= tag
    ensures c + more <= tag ==> c <= tag
  {
    assert (c + more)[..|c|] == c;
  }

  /**
   The shown text only ever grows, and an error stays an error, as the provider's
   text does: appending cannot change what was shown.
   */
  lemma StreamableIsMonotone(content: string, more: string)
    ensures Streamable(content).Err? ==> Streamable(content + more).Err?
    ensures Streamable(content).Ok? && Streamable(content + more).Ok? ==> Streamable(content).value <= Streamable(content + more).value
  {
    hide Shown, Settle, TrimLeft, Contains;
    var settled := Settle(TrimLeft(content));
    if settled.Answer? {
      AnswerIsNotEmpty(TrimLeft(content));
      TrimLeftAppend(content, more);
      SettleAppend(TrimLeft(content), more);
      ShownGrows(settled.rest, more);
      if HasTag(settled.rest) {
        TagsStay(settled.rest, more);
      }
    }
  }

  lemma AnswerIsNotEmpty(c: string)
    requires Settle(c).Answer?
    ensures c != ""
  {
  }

  lemma TagsStay(s: string, more: string)
    requires HasTag(s)
    ensures HasTag(s + more)
  {
    if Contains(s, OPEN) {
      ContainsAppend(s, OPEN, more);
    } else {
      ContainsAppend(s, CLOSE, more);
    }
  }

  /** Nothing shown ever becomes part of a tag: a tag that later text completes starts past the shown text. */
  lemma ShownTextStaysClear(rest: string, more: string, tag: string, at: nat)
    requires IsTag(tag) && !HasTag(rest) && OccursAt(rest + more, tag, at)
    ensures |Shown(rest)| <= SafeEnd(rest) <= at
  {
    hide Held, SafeEnd;
    EarlyOccurrence(rest, more, tag, at);
    var n := |rest| - at;
    if 0 < n < |tag| {
      assert (rest + more)[at..at + |tag|][..n] == rest[at..] == tag[..n];
      HeldIs(rest, tag, n);
      SafeEndIs(rest);
      NoLessSafe(rest);
    }
  }

  lemma EarlyOccurrence(rest: string, more: string, tag: string, at: nat)
    requires OccursAt(rest + more, tag, at)
    ensures at + |tag| <= |rest| ==> Contains(rest, tag)
  {
    if at + |tag| <= |rest| {
      assert (rest + more)[at..at + |tag|] == rest[at..at + |tag|];
      assert OccursAt(rest, tag, at);
    }
  }

  // ---- the complete text and the arriving text ----

  predicate AllSpace(s: string) {
    forall c :: c in s ==> IsSpace(c)
  }

  predicate Trimmed(s: string) {
    s != "" ==> !IsSpace(s[0]) && !IsSpace(s[|s| - 1])
  }

  lemma {:induction false} TrimLeftOfSpace(s: string, rest: string)
    requires AllSpace(s) && (rest != "" ==> !IsSpace(rest[0]))
    ensures TrimLeft(s + rest) == rest
  {
    if s == "" {
      assert s + rest == rest;
    } else {
      assert (s + rest)[1..] == s[1..] + rest;
      TrimLeftOfSpace(s[1..], rest);
    }
  }

  lemma {:induction false} TrimRightOfSpace(rest: string, s: string)
    requires AllSpace(s) && (rest != "" ==> !IsSpace(rest[|rest| - 1]))
    ensures TrimRight(rest + s) == rest
  {
    if s == "" {
      assert rest + s == rest;
    } else {
      assert (rest + s)[..|rest + s| - 1] == rest + s[..|s| - 1];
      TrimRightOfSpace(rest, s[..|s| - 1]);
    }
  }

  lemma {:induction false} TrimLeftDrops(s: string) returns (spaces: string)
    ensures AllSpace(spaces) && s == spaces + TrimLeft(s)
  {
    if s != "" && IsSpace(s[0]) {
      var rest := TrimLeftDrops(s[1..]);
      spaces := [s[0]] + rest;
    } else {
      spaces := "";
    }
  }

  lemma TrimRightDrops(s: string) returns (spaces: string)
    ensures AllSpace(spaces) && s == TrimRight(s) + spaces
  {
    spaces := s[|TrimRight(s)|..];
  }

  lemma TrimSpaceIgnoresTrailing(s: string, spaces: string)
    requires AllSpace(spaces)
    ensures TrimSpace(s + spaces) == TrimSpace(s)
  {
    hide TrimLeft, TrimRight;
    var front := TrimLeftDrops(s);
    var core := TrimLeft(s);
    if core == "" {
      assert s + spaces == (front + spaces) + "";
      TrimLeftOfSpace(front + spaces, "");
    } else {
      TrimLeftAppend(s, spaces);
      TrimRightIgnoresTrailing(core, spaces);
    }
  }

  lemma TrimRightIgnoresTrailing(s: string, spaces: string)
    requires AllSpace(spaces)
    ensures TrimRight(s + spaces) == TrimRight(s)
  {
    hide TrimRight;
    var back := TrimRightDrops(s);
    var core := TrimRight(s);
    assert s + spaces == core + (back + spaces);
    assert AllSpace(back + spaces);
    TrimRightOfSpace(core, back + spaces);
  }

  /** A tag ends in '>', so trimming white space at the end neither removes nor moves one. */
  lemma TrimRightKeepsTags(c: string, tag: string)
    requires IsTag(tag)
    ensures IndexOf(TrimRight(c), tag) == IndexOf(c, tag)
    ensures tag <= c <==> tag <= TrimRight(c)
  {
    var spaces := TrimRightDrops(c);
    var core := TrimRight(c);
    if IndexOf(core, tag).Some? {
      IndexOfAppend(core, tag, spaces);
    } else if IndexOf(c, tag).Some? {
      TagEndsInText(c, tag, IndexOf(c, tag).value);
    }
    if tag <= c {
      TagEndsInText(c, tag, 0);
    }
  }

  lemma TagEndsInText(c: string, tag: string, at: nat)
    requires IsTag(tag) && OccursAt(c, tag, at)
    ensures OccursAt(TrimRight(c), tag, at)
  {
    var core := TrimRight(c);
    assert tag[|tag| - 1] == '>';
    assert c[at + |tag| - 1] == c[at..at + |tag|][|tag| - 1] == '>';
    assert !IsSpace('>');
    assert at + |tag| <= |core|;
    assert core[at..at + |tag|] == c[at..at + |tag|];
  }

  /** Stripping a text that starts with an envelope strips what follows the envelope. */
  lemma StripUnfolds(c: string)
    requires OPEN <= c
    ensures IndexOf(c, CLOSE).None? ==> StripFrom(TrimRight(c)) == Err(UnclosedThink)
    ensures IndexOf(c, CLOSE).Some? ==> StripFrom(TrimRight(c)) == Strip(c[IndexOf(c, CLOSE).value + |CLOSE|..])
  {
    hide TrimRight, TrimLeft, IndexOf;
    TrimRightKeepsTags(c, OPEN);
    TrimRightKeepsTags(c, CLOSE);
    if IndexOf(c, CLOSE).Some? {
      var past := IndexOf(c, CLOSE).value + |CLOSE|;
      var spaces := TrimRightDrops(c);
      assert c[past..] == TrimRight(c)[past..] + spaces;
      TrimSpaceIgnoresTrailing(TrimRight(c)[past..], spaces);
    }
  }

  /** When the complete text is accepted, what was shown of it is the start of the answer. */
  lemma StripExtendsShown(content: string)
    requires Strip(content).Ok?
    ensures Streamable(content).Ok? && Streamable(content).value <= Strip(content).value
    decreases |content|
  {
    hide TrimLeft, TrimRight, Shown, IndexOf, StripFrom;
    var c := TrimLeft(content);
    TrimRightKeepsTags(c, OPEN);
    TrimRightKeepsTags(c, CLOSE);
    if c == "" || c <= OPEN {
    } else if OPEN <= c {
      StripUnfolds(c);
      var tail := c[IndexOf(c, CLOSE).value + |CLOSE|..];
      StripExtendsShown(tail);
      assert Streamable(tail) == Streamable(content);
    } else {
      StripWithoutEnvelope(TrimRight(c));
      ShownIsPrefix(c);
    }
  }

  lemma StripWithoutEnvelope(c: string)
    requires !(OPEN <= c)
    ensures StripFrom(c) == if HasTag(c) then Err(UnexpectedTag) else Ok(c)
  {
  }

  lemma ShownIsPrefix(rest: string)
    ensures Shown(rest) <= TrimRight(rest)
  {
    hide SafeEnd;
    TrimRightGrows(rest[..SafeEnd(rest)], rest);
  }

  /** White space and complete reasoning envelopes, and nothing else. */
  ghost predicate LeadingReasoning(p: string)
    decreases |p|
  {
    var c := TrimLeft(p);
    c == "" || (OPEN <= c && IndexOf(c, CLOSE).Some? && LeadingReasoning(c[IndexOf(c, CLOSE).value + |CLOSE|..]))
  }

  /** The text is leading reasoning, the answer v, and white space; v is trimmed and holds no tag. */
  ghost predicate HasAnswer(content: string, v: string) {
    !HasTag(v) && Trimmed(v) && exists p, spaces :: content == p + v + spaces && LeadingReasoning(p) && AllSpace(spaces)
  }

  /** Stripping succeeds with v exactly when v is the text's answer. */
  lemma WhenStripSucceeds(content: string, v: string)
    ensures Strip(content) == Ok(v) <==> HasAnswer(content, v)
  {
    if Strip(content) == Ok(v) {
      var p, spaces := FindAnswer(content, v);
      assert content == p + v + spaces;
    }
    if HasAnswer(content, v) {
      var p, spaces :| content == p + v + spaces && LeadingReasoning(p) && AllSpace(spaces);
      AnswerIsFound(p, v, spaces);
    }
  }

  lemma {:induction false} AnswerIsFound(p: string, v: string, spaces: string)
    requires LeadingReasoning(p) && AllSpace(spaces) && Trimmed(v) && !HasTag(v)
    ensures Strip(p + v + spaces) == Ok(v)
    decreases |p|
  {
    hide TrimLeft, TrimRight, IndexOf, StripFrom;
    var front := TrimLeftDrops(p);
    var c := TrimLeft(p);
    if c == "" {
      assert front == p;
      SpacesAroundAnswer(front, v, spaces);
      assert OPEN <= v ==> OccursAt(v, OPEN, 0);
      StripWithoutEnvelope(v);
    } else {
      var past := IndexOf(c, CLOSE).value + |CLOSE|;
      AnswerIsFound(c[past..], v, spaces);
      assert p + v + spaces == p + (v + spaces);
      TrimLeftAppend(p, v + spaces);
      IndexOfAppend(c, CLOSE, v + spaces);
      PrefixOfAppend(c, v + spaces, OPEN);
      StripUnfolds(c + (v + spaces));
      assert (c + (v + spaces))[past..] == c[past..] + v + spaces;
    }
  }

  lemma SpacesAroundAnswer(front: string, v: string, spaces: string)
    requires AllSpace(front) && AllSpace(spaces) && Trimmed(v)
    ensures TrimSpace(front + v + spaces) == v
  {
    TrimSpaceIgnoresTrailing(front + v, spaces);
    TrimLeftOfSpace(front, v);
    TrimRightOfSpace(v, "");
    assert v + "" == v;
  }

  lemma {:induction false} FindAnswer(content: string, v: string) returns (p: string, spaces: string)
    requires Strip(content) == Ok(v)
    ensures content == p + v + spaces && LeadingReasoning(p) && AllSpace(spaces) && Trimmed(v) && !HasTag(v)
    decreases |content|
  {
    hide TrimLeft, TrimRight, IndexOf, StripFrom, LeadingReasoning;
    var front := TrimLeftDrops(content);
    var c := TrimLeft(content);
    TrimRightKeepsTags(c, OPEN);
    if OPEN <= c {
      StripUnfolds(c);
      var past := IndexOf(c, CLOSE).value + |CLOSE|;
      var inner;
      inner, spaces := FindAnswer(c[past..], v);
      p := front + c[..past] + inner;
      assert c == c[..past] + c[past..];
      Regroup(front, c[..past], inner, v, spaces);
      EnvelopeLeads(front, c, inner);
    } else {
      StripWithoutEnvelope(TrimRight(c));
      spaces := TrimRightDrops(c);
      p := front;
      SpacesAroundAnswer(front, "", "");
      assert front + "" + "" == front;
      SpacesLead(front);
    }
  }

  lemma SpacesLead(front: string)
    requires AllSpace(front)
    ensures LeadingReasoning(front)
  {
    TrimLeftOfSpace(front, "");
    assert front + "" == front;
  }

  lemma EnvelopeLeads(front: string, c: string, inner: string)
    requires AllSpace(front) && OPEN <= c && IndexOf(c, CLOSE).Some? && LeadingReasoning(inner)
    ensures LeadingReasoning(front + c[..IndexOf(c, CLOSE).value + |CLOSE|] + inner)
  {
    var end := IndexOf(c, CLOSE).value;
    var envelope := c[..end + |CLOSE|];
    EnvelopeThen(c, end, inner);
    var whole := envelope + inner;
    assert whole[0] == OPEN[0];
    TrimLeftOfSpace(front, whole);
    assert front + envelope + inner == front + whole;
    hide TrimLeft, IndexOf;
    assert LeadingReasoning(whole[end + |CLOSE|..]);
  }

  lemma EnvelopeThen(c: string, end: nat, inner: string)
    requires OPEN <= c && IndexOf(c, CLOSE) == Some(end)
    ensures var whole := c[..end + |CLOSE|] + inner;
            OPEN <= whole && IndexOf(whole, CLOSE) == Some(end) && whole[end + |CLOSE|..] == inner
  {
    hide IndexOf;
    var envelope := c[..end + |CLOSE|];
    assert c == envelope + c[end + |CLOSE|..];
    assert OccursAt(envelope, CLOSE, end) by { assert envelope[end..end + |CLOSE|] == c[end..end + |CLOSE|]; }
    IndexOfAppend(envelope, CLOSE, c[end + |CLOSE|..]);
    IndexOfAppend(envelope, CLOSE, inner);
    EnvelopeOpens(c, end);
    PrefixOfAppend(envelope, inner, OPEN);
  }

  lemma Regroup(front: string, envelope: string, inner: string, v: string, spaces: string)
    ensures front + (envelope + (inner + v + spaces)) == front + envelope + inner + v + spaces
  {
  }

  lemma EnvelopeOpens(c: string, end: nat)
    requires OPEN <= c && OccursAt(c, CLOSE, end)
    ensures OPEN <= c[..end + |CLOSE|]
  {
    assert c[end..end + |CLOSE|][1] == '/' == c[end + 1];
  }

  // ---- the stream ----

  const MAX_PROVIDER_ASSISTANT_BYTES: nat := 262144

  /** What the stream has received and what it has shown. */
  datatype StreamState = StreamState(raw: string, emitted: string, maxVisibleBytes: nat)

  function Push(s: StreamState, delta: string): (StreamState, Result<string, ContentError>) {
    if delta == "" then (s, Ok(""))
    else if ByteLen(s.raw) + ByteLen(delta) > MAX_PROVIDER_ASSISTANT_BYTES then (s, Err(TooLarge))
    else
      var received := s.(raw := s.raw + delta);
      match Streamable(received.raw)
      case Err(e) => (received, Err(e))
      case Ok(visible) =>
        if ByteLen(visible) > s.maxVisibleBytes then (received, Err(VisibleTooLarge))
        else if !(s.emitted <= visible) then (received, Err(ChangedAfterStreamed))
        else (received.(emitted := visible), Ok(visible[|s.emitted|..]))
  }

  function Finish(s: StreamState, authoritative: string): (StreamState, Result<string, ContentError>) {
    match Strip(authoritative)
    case Err(e) => (s, Err(e))
    case Ok(visible) =>
      if !(s.emitted <= visible) then (s, Err(FinalMismatch))
      else (s.(raw := authoritative, emitted := visible), Ok(visible[|s.emitted|..]))
  }

  class VisibleContentStream {
    var raw: string
    var emitted: string
    var maxVisibleBytes: nat

    function State(): StreamState
      reads this
    {
      StreamState(raw, emitted, maxVisibleBytes)
    }

    constructor (limit: nat)
      ensures State() == StreamState("", "", limit)
    {
      raw, emitted, maxVisibleBytes := "", "", limit;
    }

    method PushDelta(delta: string) returns (r: Result<string, ContentError>)
      modifies this
      ensures (State(), r) == Push(old(State()), delta)
    {
      hide Streamable, ByteLen;
      if delta == "" {
        return Ok("");
      }
      if ByteLen(raw) + ByteLen(delta) > MAX_PROVIDER_ASSISTANT_BYTES {
        return Err(TooLarge);
      }
      raw := raw + delta;
      var visible := StreamableVisibleContent(raw);
      if visible.Err? {
        return visible;
      }
      if ByteLen(visible.value) > maxVisibleBytes {
        return Err(VisibleTooLarge);
      }
      if !(emitted <= visible.value) {
        return Err(ChangedAfterStreamed);
      }
      r := Ok(visible.value[|emitted|..]);
      emitted := visible.value;
    }

    method FinishWith(authoritative: string) returns (r: Result<string, ContentError>)
      modifies this
      ensures (State(), r) == Finish(old(State()), authoritative)
    {
      hide Strip;
      var visible := StripLeadingThinkBlocks(authoritative);
      if visible.Err? {
        return visible;
      }
      if !(emitted <= visible.value) {
        return Err(FinalMismatch);
      }
      r := Ok(visible.value[|emitted|..]);
      raw := authoritative;
      emitted := visible.value;
    }
  }

  /** The shown text is what the received text allows to be shown. */
  ghost predicate InSync(s: StreamState) {
    Streamable(s.raw) == Ok(s.emitted)
  }

  lemma FreshStreamIsInSync(limit: nat)
    ensures InSync(StreamState("", "", limit))
  {
  }

  /**
   A push succeeds exactly when the text so far is within the limits and has no stray
   tag; it adds its result to the shown text. Shown text never changes.
   */
  lemma PushKeepsSync(s: StreamState, delta: string)
    requires InSync(s) && ByteLen(s.raw) <= MAX_PROVIDER_ASSISTANT_BYTES && ByteLen(s.emitted) <= s.maxVisibleBytes
    ensures var (after, r) := Push(s, delta);
            && r != Err(ChangedAfterStreamed)
            && (r.Ok? <==> Streamed(s.raw + delta, s.maxVisibleBytes))
            && (r.Ok? ==> InSync(after) && after.raw == s.raw + delta && after.emitted == s.emitted + r.value
                          && after.maxVisibleBytes == s.maxVisibleBytes)
  {
    StreamableErrors(s.raw + delta);
    hide Streamable, ByteLen;
    ByteLenConcat(s.raw, delta);
    StreamableIsMonotone(s.raw, delta);
    if delta == "" {
      assert s.raw + delta == s.raw;
    }
  }

  lemma StreamableErrors(content: string)
    ensures Streamable(content).Err? ==> Streamable(content) == Err(UnexpectedTag)
  {
  }

  /** The text may be shown as far as it goes. */
  predicate Streamed(text: string, maxVisibleBytes: nat) {
    && ByteLen(text) <= MAX_PROVIDER_ASSISTANT_BYTES
    && Streamable(text).Ok? && ByteLen(Streamable(text).value) <= maxVisibleBytes
  }

  // ---- chunking ----

  function Concat(chunks: seq<string>): string {
    if chunks == [] then "" else chunks[0] + Concat(chunks[1..])
  }

  /** Pushes the chunks one by one; the shown deltas, or the first error. */
  function PushAll(s: StreamState, chunks: seq<string>): (StreamState, Result<string, ContentError>)
    decreases |chunks|
  {
    if chunks == [] then (s, Ok(""))
    else
      var (next, r) := Push(s, chunks[0]);
      if r.Err? then (next, r)
      else
        var (last, rest) := PushAll(next, chunks[1..]);
        (last, if rest.Err? then rest else Ok(r.value + rest.value))
  }

  /** Everything shown for a text that arrives in chunks and is then confirmed. */
  function Deliver(chunks: seq<string>, maxVisibleBytes: nat): Result<string, ContentError> {
    var (s, shown) := PushAll(StreamState("", "", maxVisibleBytes), chunks);
    if shown.Err? then shown
    else
      var (_, rest) := Finish(s, Concat(chunks));
      if rest.Err? then rest else Ok(shown.value + rest.value)
  }

  lemma StreamedPrefix(text: string, more: string, maxVisibleBytes: nat)
    requires Streamed(text + more, maxVisibleBytes)
    ensures Streamed(text, maxVisibleBytes)
  {
    hide Streamable, ByteLen;
    StreamableIsMonotone(text, more);
    ByteLenConcat(text, more);
    var shown, longer := Streamable(text).value, Streamable(text + more).value;
    assert longer == shown + longer[|shown|..];
    ByteLenConcat(shown, longer[|shown|..]);
  }

  lemma {:induction false} PushAllStreams(s: StreamState, chunks: seq<string>)
    requires InSync(s) && Streamed(s.raw, s.maxVisibleBytes)
    ensures var (after, r) := PushAll(s, chunks);
            && r != Err(ChangedAfterStreamed)
            && (r.Ok? <==> Streamed(s.raw + Concat(chunks), s.maxVisibleBytes))
            && (r.Ok? ==> InSync(after) && after.raw == s.raw + Concat(chunks) && after.emitted == s.emitted + r.value)
    decreases |chunks|
  {
    hide Streamed, InSync, Push;
    if chunks == [] {
      assert s.raw + Concat(chunks) == s.raw;
      assert s.emitted + "" == s.emitted;
    } else {
      LimitsHold(s);
      PushKeepsSync(s, chunks[0]);
      var (next, r) := Push(s, chunks[0]);
      var rest := Concat(chunks[1..]);
      assert s.raw + Concat(chunks) == s.raw + chunks[0] + rest;
      if Streamed(s.raw + chunks[0] + rest, s.maxVisibleBytes) {
        StreamedPrefix(s.raw + chunks[0], rest, s.maxVisibleBytes);
      }
      if r.Ok? {
        PushAllStreams(next, chunks[1..]);
        var (after, shown) := PushAll(next, chunks[1..]);
        if shown.Ok? {
          assert next.emitted + shown.value == s.emitted + (r.value + shown.value);
        }
      }
    }
  }

  lemma LimitsHold(s: StreamState)
    requires InSync(s) && Streamed(s.raw, s.maxVisibleBytes)
    ensures ByteLen(s.raw) <= MAX_PROVIDER_ASSISTANT_BYTES && ByteLen(s.emitted) <= s.maxVisibleBytes
  {
    hide Streamable, ByteLen;
  }

  lemma NothingStreams(maxVisibleBytes: nat)
    ensures InSync(StreamState("", "", maxVisibleBytes)) && Streamed("", maxVisibleBytes)
  {
    FreshStreamIsInSync(maxVisibleBytes);
  }

  lemma SyncedShows(s: StreamState)
    requires InSync(s)
    ensures Streamable(s.raw) == Ok(s.emitted)
  {
  }

  lemma {:induction false} StripErrors(c: string)
    ensures StripFrom(c).Err? ==> StripFrom(c).error.UnclosedThink? || StripFrom(c).error.UnexpectedTag?
    decreases |c|
  {
    if OPEN <= c && IndexOf(c, CLOSE).Some? {
      StripErrors(TrimSpace(c[IndexOf(c, CLOSE).value + |CLOSE|..]));
    }
  }

  /**
   However the provider cuts its text, delivery succeeds exactly when the complete
   text is acceptable and within the limits, and then what was shown, delta by delta,
   is the answer.
   */
  lemma ChunkingDoesNotMatter(chunks: seq<string>, maxVisibleBytes: nat)
    ensures var text := Concat(chunks);
            && (Deliver(chunks, maxVisibleBytes).Ok? <==> Strip(text).Ok? && Streamed(text, maxVisibleBytes))
            && (Deliver(chunks, maxVisibleBytes).Ok? ==> Deliver(chunks, maxVisibleBytes) == Strip(text))
            && Deliver(chunks, maxVisibleBytes) != Err(ChangedAfterStreamed)
            && (Streamed(text, maxVisibleBytes) ==> Deliver(chunks, maxVisibleBytes) != Err(FinalMismatch))
  {
    hide Streamable, Streamed, InSync, StripFrom, TrimSpace, PushAll;
    var start, text := StreamState("", "", maxVisibleBytes), Concat(chunks);
    NothingStreams(maxVisibleBytes);
    PushAllStreams(start, chunks);
    assert "" + text == text;
    var (s, shown) := PushAll(start, chunks);
    if shown.Ok? {
      assert start.emitted + shown.value == shown.value;
      assert Streamable(s.raw) == Ok(s.emitted) by { SyncedShows(s); }
      StripErrors(TrimSpace(text));
      if Strip(text).Ok? {
        StripExtendsShown(text);
        assert shown.value + Strip(text).value[|shown.value|..] == Strip(text).value;
      }
    }
  }
}
