/** Cost-status accounting: how many requests carry which status, and the label of a total. */
module CostStatuses {
  import opened Common
  import opened UsageRows

  const REPORTED := "reported"
  const MISSING := "missing"
  const MIXED := "mixed"

  /** The label and the counts shown beside a cost; an absent summary means no request carries a status. */
  datatype CostSummary = CostSummary(status: string, reported: nat, computed: nat, missing: nat)

  /** Requests by cost status, and the set of statuses seen. */
  datatype CostCounts = CostCounts(reported: nat, computed: nat, missing: nat, statuses: set<string>) {
    function Add(status: string, count: nat): CostCounts {
      if status == "" || count == 0 then this
      else
        var seen := this.(statuses := statuses + {status});
        if status == REPORTED then seen.(reported := reported + count)
        else if status == MISSING then seen.(missing := missing + count)
        else seen.(computed := computed + count)
    }

    function Join(other: CostCounts): CostCounts {
      CostCounts(reported + other.reported, computed + other.computed, missing + other.missing,
                 statuses + other.statuses)
    }

    /** One status names the total, several mix. */
    method Result() returns (r: Option<CostSummary>)
      requires statuses == {} ==> reported + computed + missing == 0
      ensures r == Summary(this)
    {
      if reported + computed + missing == 0 {
        return None;
      }
      var only :| only in statuses;
      var status := if statuses == {only} then only else MIXED;
      return Some(CostSummary(status, reported, computed, missing));
    }
  }

  const NO_COUNTS := CostCounts(0, 0, 0, {})

  ghost function Summary(c: CostCounts): Option<CostSummary> {
    if c.reported + c.computed + c.missing == 0 then None
    else Some(CostSummary(Label(c.statuses), c.reported, c.computed, c.missing))
  }

  ghost function Label(statuses: set<string>): string {
    if only :| statuses == {only} then only else MIXED
  }

  // ---- the same for a set of rows ----

  /** The requests that carry a cost status. */
  ghost function Billed(rows: set<Message>): set<Message> {
    set m | m in rows && m.role == ASSISTANT && m.costStatus != ""
  }

  ghost function BilledAs(rows: set<Message>, status: string): set<Message> {
    set m | m in Billed(rows) && m.costStatus == status
  }

  ghost function Computed(rows: set<Message>): set<Message> {
    set m | m in Billed(rows) && m.costStatus != REPORTED && m.costStatus != MISSING
  }

  ghost function StatusesOf(rows: set<Message>): set<string> {
    set m | m in Billed(rows) :: m.costStatus
  }

  ghost function CountsOf(rows: set<Message>): CostCounts {
    CostCounts(|BilledAs(rows, REPORTED)|, |Computed(rows)|, |BilledAs(rows, MISSING)|, StatusesOf(rows))
  }

  lemma DisjointSizes<T>(a: set<T>, b: set<T>, both: set<T>)
    requires a !! b && both == a + b
    ensures |both| == |a| + |b|
  {
  }

  lemma BilledAsUnion(a: set<Message>, b: set<Message>, status: string)
    requires a !! b
    ensures |BilledAs(a + b, status)| == |BilledAs(a, status)| + |BilledAs(b, status)|
  {
    DisjointSizes(BilledAs(a, status), BilledAs(b, status), BilledAs(a + b, status));
  }

  lemma ComputedUnion(a: set<Message>, b: set<Message>)
    requires a !! b
    ensures |Computed(a + b)| == |Computed(a)| + |Computed(b)|
  {
    DisjointSizes(Computed(a), Computed(b), Computed(a + b));
  }

  lemma StatusesUnion(a: set<Message>, b: set<Message>)
    ensures StatusesOf(a + b) == StatusesOf(a) + StatusesOf(b)
  {
    assert Billed(a + b) == Billed(a) + Billed(b);
  }

  /** Counting two disjoint halves and adding the counts is counting the whole. */
  lemma CountsOfUnion(a: set<Message>, b: set<Message>)
    requires a !! b
    ensures CountsOf(a + b) == CountsOf(a).Join(CountsOf(b))
  {
    hide BilledAs, Computed, StatusesOf;
    BilledAsUnion(a, b, REPORTED);
    BilledAsUnion(a, b, MISSING);
    ComputedUnion(a, b);
    StatusesUnion(a, b);
  }

  lemma CountsOfGroup(group: set<Message>, status: string)
    requires forall m :: m in group ==> m.role == ASSISTANT && m.costStatus == status
    ensures CountsOf(group) == NO_COUNTS.Add(status, |group|)
  {
    if status == "" || group == {} {
      assert Billed(group) == {};
      assert BilledAs(group, REPORTED) == {} && BilledAs(group, MISSING) == {} && Computed(group) == {};
    } else {
      assert Billed(group) == group;
      assert forall s :: BilledAs(group, s) == if s == status then group else {};
      assert Computed(group) == if status == REPORTED || status == MISSING then {} else group;
      var m :| m in group;
      assert StatusesOf(group) == {status} by {
        assert m.costStatus in StatusesOf(group);
      }
    }
  }

  /** Counting a group of requests that share a status at once. */
  lemma CountsGrow(rows: set<Message>, group: set<Message>, status: string)
    requires rows !! group
    requires forall m :: m in group ==> m.role == ASSISTANT && m.costStatus == status
    ensures CountsOf(rows + group) == CountsOf(rows).Add(status, |group|)
  {
    hide *;
    CountsOfUnion(rows, group);
    CountsOfGroup(group, status);
    JoinAdds(CountsOf(rows), status, |group|);
  }

  lemma JoinAdds(c: CostCounts, status: string, count: nat)
    ensures c.Join(NO_COUNTS.Add(status, count)) == c.Add(status, count)
  {
    match c
    case CostCounts(_, _, _, statuses) =>
      assert statuses + {} == statuses && {} + {status} == {status};
  }

  /** Rows that are not requests do not count. */
  lemma CountsIgnore(rows: set<Message>, others: set<Message>)
    requires forall m :: m in others ==> m.role != ASSISTANT || m.costStatus == ""
    ensures CountsOf(rows + others) == CountsOf(rows)
  {
    assert Billed(rows + others) == Billed(rows);
    assert forall s :: BilledAs(rows + others, s) == BilledAs(rows, s);
    assert Computed(rows + others) == Computed(rows);
  }

  lemma CountsAreSound(rows: set<Message>)
    ensures var c := CountsOf(rows);
            && c.reported + c.computed + c.missing == |Billed(rows)|
            && (c.statuses == {} <==> Billed(rows) == {})
  {
    var reported, missing, computed := BilledAs(rows, REPORTED), BilledAs(rows, MISSING), Computed(rows);
    assert Billed(rows) == reported + missing + computed;
    if m :| m in Billed(rows) {
      assert m.costStatus in CountsOf(rows).statuses;
    }
  }

  // ---- merging the cached and the live summary ----

  function MergeCost(a: Option<CostSummary>, b: Option<CostSummary>): Option<CostSummary> {
    if b.None? then a
    else if a.None? then b
    else Some(CostSummary(if a.value.status == b.value.status then a.value.status else MIXED,
                          a.value.reported + b.value.reported, a.value.computed + b.value.computed,
                          a.value.missing + b.value.missing))
  }

  ghost function CostOf(rows: set<Message>): Option<CostSummary> {
    Summary(CountsOf(rows))
  }

  lemma LabelIs(statuses: set<string>, only: string)
    requires statuses == {only}
    ensures Label(statuses) == only
  {
    assert only in statuses;
  }

  lemma LabelOfUnion(a: set<string>, b: set<string>)
    requires a != {} && b != {}
    ensures Label(a + b) == if Label(a) == Label(b) then Label(a) else MIXED
  {
    var x :| x in a;
    var y :| y in b;
    if a == {x} && b == {y} {
      LabelIs(a, x);
      LabelIs(b, y);
      if x == y {
        LabelIs(a + b, x);
      } else {
        assert x in a + b && y in a + b;
      }
    } else {
      assert forall only :: a + b != {only} by {
        assert x in a + b && y in a + b;
        assert a != {x} ==> exists other :: other in a && other != x;
        assert b != {y} ==> exists other :: other in b && other != y;
      }
      if a == {x} {
        LabelIs(a, x);
      }
      if b == {y} {
        LabelIs(b, y);
      }
    }
  }

  /** Merging the summaries of two disjoint halves gives the summary of the whole. */
  lemma MergedCostIsExact(a: set<Message>, b: set<Message>)
    requires a !! b
    ensures CostOf(a + b) == MergeCost(CostOf(a), CostOf(b))
  {
    hide CountsOf, Label, Billed;
    CountsOfUnion(a, b);
    CountsAreSound(a);
    CountsAreSound(b);
    var ca, cb := CountsOf(a), CountsOf(b);
    if Billed(a) != {} && Billed(b) != {} {
      LabelOfUnion(ca.statuses, cb.statuses);
    } else if Billed(a) == {} {
      assert ca.statuses + cb.statuses == cb.statuses;
    } else {
      assert ca.statuses + cb.statuses == ca.statuses;
    }
  }
}
