/** Searching in text, and the size of text in UTF-8 bytes. */
module Text {
  import opened Common

  predicate OccursAt(s: string, sub: string, at: nat) {
    at + |sub| <= |s| && s[at..at + |sub|] == sub
  }

  predicate EndsWith(s: string, suffix: string) {
    |suffix| <= |s| && s[|s| - |suffix|..] == suffix
  }

  /** The first index at which sub occurs in s. */
  function IndexOf(s: string, sub: string): (r: Option<nat>)
    ensures r.Some? ==> OccursAt(s, sub, r.value)
    ensures r.Some? ==> forall k: nat :: k < r.value ==> !OccursAt(s, sub, k)
    ensures r.None? ==> forall k: nat :: !OccursAt(s, sub, k)
  {
    if |s| < |sub| then None
    else if sub <= s then Some(0)
    else
      var rest := IndexOf(s[1..], sub);
      OccursLater(s, sub);
      if rest.None? then None else Some(rest.value + 1)
  }

  lemma OccursLater(s: string, sub: string)
    requires 0 < |s| && !(sub <= s)
    ensures forall k: nat :: OccursAt(s, sub, k) <==> 0 < k && OccursAt(s[1..], sub, k - 1)
  {
    forall k: nat
      ensures OccursAt(s, sub, k) <==> 0 < k && OccursAt(s[1..], sub, k - 1)
    {
      if 0 < k && k + |sub| <= |s| {
        var here, there := s[k..k + |sub|], s[1..][k - 1..k - 1 + |sub|];
        assert forall i :: 0 <= i < |sub| ==> here[i] == s[k + i] == there[i];
        assert here == there;
      }
    }
  }

  lemma OccurrenceStarts(s: string, sub: string, at: nat)
    requires sub != ""
    ensures OccursAt(s, sub, at) ==> s[at] == sub[0]
  {
    if OccursAt(s, sub, at) {
      assert s[at..at + |sub|][0] == s[at];
    }
  }

  predicate Contains(s: string, sub: string) {
    IndexOf(s, sub).Some?
  }

  /** Appending text does not move the first occurrence. */
  lemma IndexOfAppend(s: string, sub: string, more: string)
    requires IndexOf(s, sub).Some?
    ensures IndexOf(s + more, sub) == IndexOf(s, sub)
  {
    hide IndexOf;
    var at := IndexOf(s, sub).value;
    assert (s + more)[at..at + |sub|] == s[at..at + |sub|];
    assert OccursAt(s + more, sub, at);
    var found := IndexOf(s + more, sub).value;
    assert found + |sub| <= |s| ==> s[found..found + |sub|] == (s + more)[found..found + |sub|];
    assert found + |sub| <= |s| ==> OccursAt(s, sub, found);
  }

  /** What a text contains, every text that has it as a prefix contains too. */
  lemma ContainsAppend(s: string, sub: string, more: string)
    requires Contains(s, sub)
    ensures Contains(s + more, sub)
  {
    IndexOfAppend(s, sub, more);
  }

  function Utf8Width(c: char): nat {
    if c < '\U{80}' then 1 else if c < '\U{800}' then 2 else if c < '\U{10000}' then 3 else 4
  }

  /** len(s) of the UTF-8 encoding. */
  function ByteLen(s: string): nat {
    if s == "" then 0 else Utf8Width(s[0]) + ByteLen(s[1..])
  }

  lemma {:induction false} ByteLenConcat(a: string, b: string)
    ensures ByteLen(a + b) == ByteLen(a) + ByteLen(b)
  {
    if a == "" {
      assert a + b == b;
    } else {
      assert (a + b)[1..] == a[1..] + b;
      ByteLenConcat(a[1..], b);
    }
  }
}
