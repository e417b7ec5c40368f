/**
 Message rows, their numeric totals, and the aggregates the dashboard derives
 from a set of rows. Times are milliseconds since the epoch; a table is a set of
 rows whose ids are unique, because the id is the table's primary key.
 */
module UsageRows {

  const HOUR_MS: nat := 3600000
  const DAY_MS: nat := 86400000
  const ASSISTANT := "assistant"

  datatype Tokens = Tokens(input: nat, output: nat, reasoning: nat, cacheRead: nat, cacheWrite: nat) {
    function Plus(other: Tokens): Tokens {
      Tokens(input + other.input, output + other.output, reasoning + other.reasoning,
             cacheRead + other.cacheRead, cacheWrite + other.cacheWrite)
    }

    function Sum(): nat {
      input + output + reasoning + cacheRead + cacheWrite
    }
  }

  const NO_TOKENS := Tokens(0, 0, 0, 0, 0)

  datatype ToolUse = ToolUse(name: string, status: string)

  datatype Message = Message(
    id: string, session: string, role: string, time: nat, cost: real, tokens: Tokens,
    modelTokens: Tokens, model: string, provider: string, costStatus: string, tools: seq<ToolUse>)

  datatype Totals = Totals(messages: nat, requests: nat, cost: real, tokens: Tokens) {
    function Plus(other: Totals): Totals {
      Totals(messages + other.messages, requests + other.requests, cost + other.cost, tokens.Plus(other.tokens))
    }
  }

  const ZERO := Totals(0, 0, 0.0, NO_TOKENS)

  function HourStart(ms: int): int {
    ms / HOUR_MS * HOUR_MS
  }

  function DayOf(ms: int): int {
    ms / DAY_MS
  }

  /** An hour lies within one day, so the day of a row is the day of its hour. */
  lemma DayOfHour(ms: int)
    ensures DayOf(HourStart(ms)) == DayOf(ms)
    ensures HourStart(ms) <= ms < HourStart(ms) + HOUR_MS
  {
    var day, rest := ms / DAY_MS, ms % DAY_MS;
    var hour := rest / HOUR_MS;
    assert ms == (day * 24 + hour) * HOUR_MS + rest % HOUR_MS;
    assert ms / HOUR_MS == day * 24 + hour;
    assert HourStart(ms) == day * DAY_MS + hour * HOUR_MS;
  }

  /** An aligned boundary separates rows exactly as it separates their hours. */
  lemma AlignedBoundary(ms: int, boundary: int)
    requires boundary % HOUR_MS == 0
    ensures ms < boundary <==> HourStart(ms) < boundary
  {
    var b := boundary / HOUR_MS;
    assert boundary == b * HOUR_MS;
    if ms < boundary {
      assert ms / HOUR_MS < b;
    } else {
      assert ms / HOUR_MS >= b;
    }
  }

  // ---- row sets ----

  ghost predicate UniqueIds(rows: set<Message>) {
    forall a, b :: a in rows && b in rows && a.id == b.id ==> a == b
  }

  /** Ids and session ids are never empty. */
  ghost predicate WellFormedLog(rows: set<Message>) {
    UniqueIds(rows) && forall m :: m in rows ==> m.id != "" && m.session != ""
  }

  ghost function Below(rows: set<Message>, cutoff: int): set<Message> {
    set m | m in rows && m.time < cutoff
  }

  ghost function Window(rows: set<Message>, start: int, end: int): set<Message> {
    set m | m in rows && start <= m.time < end
  }

  ghost function SessionIds(rows: set<Message>): set<string> {
    set m | m in rows :: m.session
  }

  ghost function Days(rows: set<Message>): set<int> {
    set m | m in rows :: DayOf(m.time)
  }

  // ---- measures and their sums ----

  /** Which numbers a row contributes: all of them, the model-attributed ones, just its presence, or nothing. */
  datatype Measure = AllColumns | ModelColumns | RowCount | Presence {
    function Of(m: Message): Totals {
      var requests := if m.role == ASSISTANT then 1 else 0;
      match this
      case AllColumns => Totals(1, requests, m.cost, m.tokens)
      case ModelColumns => Totals(1, requests, m.cost, m.modelTokens)
      case RowCount => Totals(1, 0, 0.0, NO_TOKENS)
      case Presence => ZERO
    }
  }

  ghost function Pick(rows: set<Message>): Message
    requires rows != {}
  {
    var m :| m in rows; m
  }

  ghost function Sum(what: Measure, rows: set<Message>): Totals {
    if rows == {} then ZERO else what.Of(Pick(rows)).Plus(Sum(what, rows - {Pick(rows)}))
  }

  lemma PlusShuffle(a: Totals, b: Totals, c: Totals)
    ensures a.Plus(b.Plus(c)) == b.Plus(a.Plus(c)) == a.Plus(b).Plus(c)
  {
  }

  lemma ZeroPlus(a: Totals)
    ensures ZERO.Plus(a) == a == a.Plus(ZERO)
  {
    match a
    case Totals(_, _, _, Tokens(_, _, _, _, _)) =>
  }

  /** The sum does not depend on the order in which rows are visited. */
  lemma {:induction false} SumPick(what: Measure, rows: set<Message>, x: Message)
    requires x in rows
    ensures Sum(what, rows) == what.Of(x).Plus(Sum(what, rows - {x}))
    decreases rows
  {
    hide Totals.Plus, Measure.Of;
    var m := Pick(rows);
    if m != x {
      SumPick(what, rows - {m}, x);
      SumPick(what, rows - {x}, m);
      assert rows - {m} - {x} == rows - {x} - {m};
      PlusShuffle(what.Of(m), what.Of(x), Sum(what, rows - {x} - {m}));
    }
  }

  lemma SumEmpty(what: Measure)
    ensures Sum(what, {}) == ZERO
  {
  }

  lemma {:induction false} SumDisjoint(what: Measure, a: set<Message>, b: set<Message>)
    requires a !! b
    ensures Sum(what, a + b) == Sum(what, a).Plus(Sum(what, b))
    decreases a
  {
    hide *;
    if a == {} {
      assert a + b == b;
      SumEmpty(what);
      ZeroPlus(Sum(what, b));
    } else {
      var m :| m in a;
      SumPick(what, a, m);
      SumPick(what, a + b, m);
      assert a + b - {m} == (a - {m}) + b;
      SumDisjoint(what, a - {m}, b);
      PlusShuffle(what.Of(m), Sum(what, a - {m}), Sum(what, b));
    }
  }

  lemma {:induction false} SumCounts(what: Measure, rows: set<Message>)
    requires !what.Presence?
    ensures Sum(what, rows).messages == |rows|
    decreases rows
  {
    if rows != {} {
      SumCounts(what, rows - {Pick(rows)});
    }
  }
}
