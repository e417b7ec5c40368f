/**
 Reading a provider's stream that may be cumulative or incremental: a value that
 extends the text so far is taken as the text, every other value as a chunk of it.
 */
module AdaptiveText {
  import opened Common
  import opened ThinkFilter

  /** The new text, and the part of it that is new. */
  function Advance(current: string, next: string): (string, string) {
    if next == "" then (current, "")
    else if current <= next then (next, next[|current|..])
    else (current + next, next)
  }

  /** The text after all values, and the deltas published on the way. */
  function ReadAll(current: string, values: seq<string>): (string, seq<string>)
    decreases |values|
  {
    if values == [] then (current, [])
    else
      var (text, delta) := Advance(current, values[0]);
      var (all, deltas) := ReadAll(text, values[1..]);
      (all, [delta] + deltas)
  }

  /** Whatever the provider sends, the published deltas are the text the client ends with. */
  lemma {:induction false} DeltasAddUp(current: string, values: seq<string>)
    ensures var (text, deltas) := ReadAll(current, values);
            |deltas| == |values| && text == current + Concat(deltas)
    decreases |values|
  {
    if values == [] {
      assert current + Concat([]) == current;
    } else {
      var (text, delta) := Advance(current, values[0]);
      assert text == current + delta;
      DeltasAddUp(text, values[1..]);
      var deltas := ReadAll(text, values[1..]).1;
      assert ([delta] + deltas)[1..] == deltas;
      assert text + Concat(deltas) == current + (delta + Concat(deltas));
    }
  }

  /** A stream of whole texts, each extending the one before, is read as its last text. */
  lemma {:induction false} CumulativeStreamsAreRead(current: string, values: seq<string>)
    requires values != [] && current <= values[0] && values[0] != ""
    requires forall i :: 0 < i < |values| ==> values[i - 1] <= values[i]
    ensures ReadAll(current, values).0 == values[|values| - 1]
    decreases |values|
  {
    if |values| > 1 {
      CumulativeStreamsAreRead(values[0], values[1..]);
    }
  }

  /** No chunk repeats the whole text before it and goes on. */
  predicate NoChunkRepeats(current: string, values: seq<string>)
    decreases |values|
  {
    values == []
    || ((values[0] == "" || current == "" || !(current <= values[0])) && NoChunkRepeats(current + values[0], values[1..]))
  }

  /** A stream of chunks is read as their concatenation exactly when no chunk starts with all the text before it. */
  lemma {:induction false} WhenChunksAreRead(current: string, values: seq<string>)
    ensures |ReadAll(current, values).0| <= |current + Concat(values)|
    ensures ReadAll(current, values).0 == current + Concat(values) <==> NoChunkRepeats(current, values)
    decreases |values|
  {
    if values == [] {
      assert current + Concat([]) == current;
    } else {
      var text, joined, rest := Advance(current, values[0]).0, current + values[0], values[1..];
      assert current + Concat(values) == joined + Concat(rest);
      WhenChunksAreRead(joined, rest);
      if values[0] == "" || current == "" || !(current <= values[0]) {
        assert text == joined;
      } else {
        WhenChunksAreRead(text, rest);
        assert |text| < |joined|;
      }
    }
  }

  /** A chunk that repeats the text so far is lost. */
  lemma ARepeatedChunkIsLost()
    ensures ReadAll("", ["ha", "ha"]).0 == "ha" && Concat(["ha", "ha"]) == "haha"
  {
    assert ["ha", "ha"][1..] == ["ha"];
    assert ReadAll("ha", ["ha"]).0 == "ha";
    assert ReadAll("", ["ha", "ha"]).0 == ReadAll("ha", ["ha"]).0;
    assert Concat(["ha", "ha"]) == "ha" + Concat(["ha"]);
    assert Concat(["ha"]) == "ha" + Concat([]) == "ha";
  }

  /**
   What the browser is shown of a provider's stream is the filtered text the client
   ends with, and delivery depends on that text and the limits alone.
   */
  lemma ReadStreamsAreDelivered(values: seq<string>, maxVisibleBytes: nat)
    ensures var (text, deltas) := ReadAll("", values);
            && (Deliver(deltas, maxVisibleBytes).Ok? <==> Strip(text).Ok? && Streamed(text, maxVisibleBytes))
            && (Deliver(deltas, maxVisibleBytes).Ok? ==> Deliver(deltas, maxVisibleBytes) == Strip(text))
  {
    hide Deliver, Strip, Streamed;
    DeltasAddUp("", values);
    var (text, deltas) := ReadAll("", values);
    assert "" + Concat(deltas) == Concat(deltas);
    ChunkingDoesNotMatter(deltas, maxVisibleBytes);
  }
}
