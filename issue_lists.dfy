/** Status filtering and per-status counting of issue lists, shared by the
    department dashboard (frontend/src/pages/OfficialDashboard.tsx) and the
    profile page (frontend/src/pages/UserProfile.tsx). */
module IssueLists {
  import opened Schema

  /** The dashboard's status filter: everything, or one status. */
  datatype StatusFilter = All | Only(status: IssueStatus)

  predicate Matches(f: StatusFilter, i: Issue) {
    f.All? || i.status == f.status
  }

  /** `issues.filter(...)`: the issues the filter keeps, in their original
      order. */
  function Filter(issues: seq<Issue>, f: StatusFilter): (r: seq<Issue>)
    ensures |r| <= |issues|
    ensures forall x :: x in r <==> x in issues && Matches(f, x)
  {
    if issues == [] then []
    else if Matches(f, issues[0]) then [issues[0]] + Filter(issues[1..], f)
    else Filter(issues[1..], f)
  }

  /** Number of issues with status `s`, counted from the back so that it is
      independent of `Filter`. */
  function CountStatus(issues: seq<Issue>, s: IssueStatus): nat {
    if issues == [] then 0
    else CountStatus(issues[..|issues| - 1], s) + (if issues[|issues| - 1].status == s then 1 else 0)
  }

  lemma {:induction false} CountStatusAppend(a: seq<Issue>, b: seq<Issue>, s: IssueStatus)
    ensures CountStatus(a + b, s) == CountStatus(a, s) + CountStatus(b, s)
    decreases |b|
  {
    if b == [] {
      assert a + b == a;
    } else {
      CountStatusAppend(a, b[..|b| - 1], s);
      assert (a + b)[..|a + b| - 1] == a + b[..|b| - 1];
    }
  }

  /** The "all" filter returns the list unchanged. */
  lemma {:induction false} FilterAllIsIdentity(issues: seq<Issue>)
    ensures Filter(issues, All) == issues
  {
    if issues != [] {
      FilterAllIsIdentity(issues[1..]);
    }
  }

  /** Filtering distributes over concatenation, so the kept issues stay in
      their original order. */
  lemma {:induction false} FilterAppend(a: seq<Issue>, b: seq<Issue>, f: StatusFilter)
    ensures Filter(a + b, f) == Filter(a, f) + Filter(b, f)
  {
    if a == [] {
      assert a + b == b;
    } else {
      assert (a + b)[1..] == a[1..] + b;
      FilterAppend(a[1..], b, f);
    }
  }

  /** Each issue keeps its multiplicity if it matches and is dropped
      otherwise: the filter is exactly the sub-multiset of matching issues. */
  lemma {:induction false} FilterMultiplicity(issues: seq<Issue>, f: StatusFilter, x: Issue)
    ensures multiset(Filter(issues, f))[x] == if Matches(f, x) then multiset(issues)[x] else 0
  {
    if issues != [] {
      FilterMultiplicity(issues[1..], f, x);
      assert issues == [issues[0]] + issues[1..];
    }
  }

  /** The filtered list for status `s` is as long as that status's count. */
  lemma {:induction false} FilterLengthIsCount(issues: seq<Issue>, s: IssueStatus)
    ensures |Filter(issues, Only(s))| == CountStatus(issues, s)
  {
    if issues != [] {
      FilterLengthIsCount(issues[1..], s);
      CountStatusAppend([issues[0]], issues[1..], s);
      assert [issues[0]] + issues[1..] == issues;
      assert [issues[0]][..0] == [];
    }
  }

  /** A count never exceeds the list's length. */
  lemma {:induction false} CountAtMostTotal(issues: seq<Issue>, s: IssueStatus)
    ensures CountStatus(issues, s) <= |issues|
  {
    if issues != [] {
      CountAtMostTotal(issues[..|issues| - 1], s);
    }
  }

  /** The three statuses partition every list. */
  lemma {:induction false} StatusCountsPartition(issues: seq<Issue>)
    ensures CountStatus(issues, New) + CountStatus(issues, InProgress) + CountStatus(issues, Resolved) == |issues|
  {
    if issues != [] {
      StatusCountsPartition(issues[..|issues| - 1]);
    }
  }
}
