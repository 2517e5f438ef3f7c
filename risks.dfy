/**
 * The risk detection page: a fixed list of risk records, three filter
 * criteria (free text, severity, status), the filtered list, the summary
 * cards and the per-record action buttons.
 */
module Risks {
  import opened Optional
  import opened JsArray
  import opened JsString

  datatype RiskType = Stale | Blocked | Overdue | Inactive
  datatype Severity = Critical | High | Medium | Low
  datatype Status = Open | Resolved

  datatype Risk = Risk(
    id: int, kind: RiskType, severity: Severity, title: string, description: string,
    assignee: string, project: string, createdAt: string, status: Status)

  /** The severity select: "all" or one severity. */
  datatype SeverityFilter = AnySeverity | OnlySeverity(severity: Severity)
  /** The status select: "all" or one status. */
  datatype StatusFilter = AnyStatus | OnlyStatus(status: Status)

  datatype Criteria = Criteria(query: string, severity: SeverityFilter, status: StatusFilter)

  /** The criteria the page starts with. */
  const DefaultCriteria := Criteria("", AnySeverity, OnlyStatus(Open))

  const AllRisks: seq<Risk> := [
    Risk(1, Stale, High, "PR #887 stale for 5 days",
      "No activity on auth refactor PR. Waiting on code review from senior developers.",
      "Mike R.", "Project Alpha", "5 days ago", Open),
    Risk(2, Blocked, Critical, "PROJ-142 blocked",
      "Waiting on external API access from third-party vendor. Escalation ticket created.",
      "Sarah M.", "Project Beta", "3 days ago", Open),
    Risk(3, Overdue, Medium, "Sprint goal at risk",
      "3 tickets still in To Do with 2 days left. Consider scope adjustment or resource reallocation.",
      "Team", "Project Alpha", "2 days ago", Open),
    Risk(4, Inactive, High, "High priority inactive - PROJ-145",
      "No updates in 24h on critical authentication feature. Developer may need assistance.",
      "John D.", "Project Alpha", "1 day ago", Open),
    Risk(5, Blocked, Medium, "Dependency conflict",
      "Package version conflict blocking deployment pipeline.",
      "Tom C.", "Project Gamma", "4 hours ago", Open),
    Risk(6, Stale, Low, "Documentation PR pending",
      "Documentation updates waiting on approval for 7 days.",
      "Anna K.", "Project Beta", "7 days ago", Resolved)
  ]

  predicate MatchesSearch(r: Risk, query: string) {
    Includes(ToLower(r.title), ToLower(query)) || Includes(ToLower(r.description), ToLower(query))
  }

  predicate MatchesSeverity(r: Risk, f: SeverityFilter) {
    f.AnySeverity? || r.severity == f.severity
  }

  predicate MatchesStatus(r: Risk, f: StatusFilter) {
    f.AnyStatus? || r.status == f.status
  }

  /** The filter callback: all three criteria must hold. */
  predicate Keep(r: Risk, c: Criteria) {
    MatchesSearch(r, c.query) && MatchesSeverity(r, c.severity) && MatchesStatus(r, c.status)
  }

  function Matches(c: Criteria): Risk -> bool {
    (r: Risk) => Keep(r, c)
  }

  /** `allRisks.filter(...)` with the page's criteria, over any record list. */
  function FilterRisks(rs: seq<Risk>, c: Criteria): (r: seq<Risk>)
    ensures IsSubsequence(r, rs)
    ensures forall k :: 0 <= k < |r| ==> Keep(r[k], c)
    ensures forall k :: 0 <= k < |rs| && Keep(rs[k], c) ==> rs[k] in r
    ensures forall k :: 0 <= k < |rs| ==>
      multiset(r)[rs[k]] == if Keep(rs[k], c) then multiset(rs)[rs[k]] else 0
  {
    forall k | 0 <= k < |rs| ensures multiset(Filter(rs, Matches(c)))[rs[k]] == if Keep(rs[k], c) then multiset(rs)[rs[k]] else 0 {
      FilterMultiplicity(rs, Matches(c), rs[k]);
    }
    Filter(rs, Matches(c))
  }

  /** Filtering the filtered list again with the same criteria changes nothing. */
  lemma FilterRisksIdempotent(rs: seq<Risk>, c: Criteria)
    ensures FilterRisks(FilterRisks(rs, c), c) == FilterRisks(rs, c)
  {
    FilterIdempotent(rs, Matches(c));
  }

  /** The empty query with "all" severities and "all" statuses keeps every record. */
  lemma FilterRisksNoCriteria(rs: seq<Risk>)
    ensures FilterRisks(rs, Criteria("", AnySeverity, AnyStatus)) == rs
  {
    var c := Criteria("", AnySeverity, AnyStatus);
    forall k | 0 <= k < |rs| ensures Matches(c)(rs[k]) {
      IncludesEmpty(ToLower(rs[k].title));
    }
    FilterKeepsAll(rs, Matches(c));
  }

  /** The search is case-insensitive: queries equal up to case select the same records. */
  lemma FilterRisksIgnoresCase(rs: seq<Risk>, c: Criteria, q1: string, q2: string)
    requires ToLower(q1) == ToLower(q2)
    ensures FilterRisks(rs, c.(query := q1)) == FilterRisks(rs, c.(query := q2))
  {
    FilterCongruent(rs, Matches(c.(query := q1)), Matches(c.(query := q2)));
  }

  lemma FilterRisksIgnoresCaseExample(c: Criteria)
    ensures FilterRisks(AllRisks, c.(query := "proj-142")) == FilterRisks(AllRisks, c.(query := "PROJ-142"))
  {
    FilterRisksIgnoresCase(AllRisks, c, "proj-142", "PROJ-142");
  }

  /** With the empty query, search matches every record, so only the selects decide. */
  lemma EmptyQueryMatches(rs: seq<Risk>, sev: SeverityFilter, st: StatusFilter)
    ensures forall k :: 0 <= k < |rs| ==>
      (Keep(rs[k], Criteria("", sev, st)) <==> MatchesSeverity(rs[k], sev) && MatchesStatus(rs[k], st))
  {
    forall k | 0 <= k < |rs| ensures MatchesSearch(rs[k], "") {
      IncludesEmpty(ToLower(rs[k].title));
    }
  }

  /** The severities and statuses of the sample records, in order. */
  predicate SampleShaped(rs: seq<Risk>) {
    |rs| == 6 &&
    rs[0].severity == High && rs[0].status == Open &&
    rs[1].severity == Critical && rs[1].status == Open &&
    rs[2].severity == Medium && rs[2].status == Open &&
    rs[3].severity == High && rs[3].status == Open &&
    rs[4].severity == Medium && rs[4].status == Open &&
    rs[5].severity == Low && rs[5].status == Resolved
  }

  lemma SampleShape()
    ensures SampleShaped(AllRisks)
  {
  }

  /** The default criteria keep the five open records and drop the resolved one. */
  lemma DefaultCriteriaOnShape(rs: seq<Risk>)
    requires SampleShaped(rs)
    ensures FilterRisks(rs, DefaultCriteria) == rs[..5]
    ensures rs[5] !in FilterRisks(rs, DefaultCriteria)
  {
    var p := Matches(DefaultCriteria);
    var open, closed := rs[..5], rs[5..];
    EmptyQueryMatches(open, AnySeverity, OnlyStatus(Open));
    forall k | 0 <= k < |open| ensures p(open[k]) {
      assert open[k].status == Open;
    }
    FilterKeepsAll(open, p);
    assert !p(closed[0]);
    FilterKeepsNone(closed, p);
    assert rs == open + closed;
    FilterAppend(open, closed, p);
    assert Filter(rs, p) == open;
    forall k | 0 <= k < 5 ensures open[k] != rs[5] {
      assert open[k].status != rs[5].status;
    }
  }

  /** The page as first shown lists records 1 to 5 and hides the resolved record 6. */
  lemma DefaultCriteriaOnSample()
    ensures FilterRisks(AllRisks, DefaultCriteria) == AllRisks[..5]
    ensures AllRisks[5].status == Resolved && AllRisks[5] !in FilterRisks(AllRisks, DefaultCriteria)
  {
    SampleShape();
    DefaultCriteriaOnShape(AllRisks);
  }

  /** The four summary cards. */
  datatype Summary = Summary(critical: nat, high: nat, medium: nat, resolved: nat)

  function OpenWithSeverity(s: Severity): Risk -> bool {
    (r: Risk) => r.severity == s && r.status == Open
  }

  function IsResolved(): Risk -> bool {
    (r: Risk) => r.status == Resolved
  }

  function OpenLow(): Risk -> bool {
    (r: Risk) => r.severity == Low && r.status == Open
  }

  /** The summary counts: severity buckets count open records only, "Resolved"
      counts resolved records of any severity. They take the record list and not
      the criteria, so the filters never change them. */
  function SummaryOf(rs: seq<Risk>): (s: Summary)
    ensures s.critical + s.high + s.medium + s.resolved + Count(rs, OpenLow()) == |rs|
  {
    SummaryPartition(rs);
    Summary(
      Count(rs, OpenWithSeverity(Critical)), Count(rs, OpenWithSeverity(High)),
      Count(rs, OpenWithSeverity(Medium)), Count(rs, IsResolved()))
  }

  /** Each severity card counts what the list would show for that severity with
      the "open" status selected and no query; the resolved card what "resolved" shows. */
  lemma SummaryAgreesWithFilter(rs: seq<Risk>)
    ensures SummaryOf(rs).critical == |FilterRisks(rs, Criteria("", OnlySeverity(Critical), OnlyStatus(Open)))|
    ensures SummaryOf(rs).high == |FilterRisks(rs, Criteria("", OnlySeverity(High), OnlyStatus(Open)))|
    ensures SummaryOf(rs).medium == |FilterRisks(rs, Criteria("", OnlySeverity(Medium), OnlyStatus(Open)))|
    ensures SummaryOf(rs).resolved == |FilterRisks(rs, Criteria("", AnySeverity, OnlyStatus(Resolved)))|
  {
    EmptyQueryMatches(rs, OnlySeverity(Critical), OnlyStatus(Open));
    FilterCongruent(rs, OpenWithSeverity(Critical), Matches(Criteria("", OnlySeverity(Critical), OnlyStatus(Open))));
    EmptyQueryMatches(rs, OnlySeverity(High), OnlyStatus(Open));
    FilterCongruent(rs, OpenWithSeverity(High), Matches(Criteria("", OnlySeverity(High), OnlyStatus(Open))));
    EmptyQueryMatches(rs, OnlySeverity(Medium), OnlyStatus(Open));
    FilterCongruent(rs, OpenWithSeverity(Medium), Matches(Criteria("", OnlySeverity(Medium), OnlyStatus(Open))));
    EmptyQueryMatches(rs, AnySeverity, OnlyStatus(Resolved));
    FilterCongruent(rs, IsResolved(), Matches(Criteria("", AnySeverity, OnlyStatus(Resolved))));
  }

  /** The cards together with the open low-severity records account for every record once. */
  lemma {:induction false} SummaryPartition(rs: seq<Risk>)
    ensures Count(rs, OpenWithSeverity(Critical)) + Count(rs, OpenWithSeverity(High))
      + Count(rs, OpenWithSeverity(Medium)) + Count(rs, IsResolved()) + Count(rs, OpenLow()) == |rs|
  {
    if rs != [] {
      SummaryPartition(rs[1..]);
      CountCons(rs, OpenWithSeverity(Critical));
      CountCons(rs, OpenWithSeverity(High));
      CountCons(rs, OpenWithSeverity(Medium));
      CountCons(rs, IsResolved());
      CountCons(rs, OpenLow());
    }
  }

  lemma SummaryOfShape(rs: seq<Risk>)
    requires SampleShaped(rs)
    ensures SummaryOf(rs) == Summary(1, 2, 2, 1)
  {
    CountOfSix(rs, OpenWithSeverity(Critical));
    CountOfSix(rs, OpenWithSeverity(High));
    CountOfSix(rs, OpenWithSeverity(Medium));
    CountOfSix(rs, IsResolved());
  }

  /** On the sample data the cards read critical 1, high 2, medium 2, resolved 1. */
  lemma SampleSummary()
    ensures SummaryOf(AllRisks) == Summary(1, 2, 2, 1)
  {
    SampleShape();
    SummaryOfShape(AllRisks);
  }

  /** "Resolve" is offered for open records only. */
  predicate ShowsResolve(r: Risk) {
    r.status == Open
  }

  /** "Escalate" is offered for open critical or high records only. */
  predicate ShowsEscalate(r: Risk) {
    r.status == Open && (r.severity == Critical || r.severity == High)
  }

  function Escalatable(): Risk -> bool {
    (r: Risk) => ShowsEscalate(r)
  }

  function Resolvable(): Risk -> bool {
    (r: Risk) => ShowsResolve(r)
  }

  /** The buttons agree with the cards: as many records offer Escalate as the
      Critical and High cards count together, and every record either offers
      Resolve or is counted by the Resolved card. */
  lemma ActionButtonsMatchCards(rs: seq<Risk>)
    ensures forall k :: 0 <= k < |rs| ==> (ShowsEscalate(rs[k]) ==> ShowsResolve(rs[k]))
    ensures Count(rs, Escalatable()) == SummaryOf(rs).critical + SummaryOf(rs).high
    ensures Count(rs, Resolvable()) + SummaryOf(rs).resolved == |rs|
  {
    CountSplit(rs, Escalatable(), OpenWithSeverity(Critical), OpenWithSeverity(High));
    CountComplement(rs, Resolvable(), IsResolved());
  }

  const NoOpenRisksMessage := "Great job! There are no open risks matching your filters."
  const NoMatchMessage := "No risks match your current filters."

  /** The empty-state card: shown only when nothing is listed; its text depends
      on whether the status select is "open". */
  function EmptyStateMessage(filtered: seq<Risk>, status: StatusFilter): (m: Option<string>)
    ensures m.None? <==> filtered != []
    ensures m.Some? ==> (m.value == NoOpenRisksMessage <==> status == OnlyStatus(Open))
  {
    if filtered != [] then None
    else if status == OnlyStatus(Open) then Some(NoOpenRisksMessage)
    else Some(NoMatchMessage)
  }

  class RisksPage {
    var searchQuery: string
    var severityFilter: SeverityFilter
    var statusFilter: StatusFilter

    constructor ()
      ensures Criteria(searchQuery, severityFilter, statusFilter) == DefaultCriteria
    {
      searchQuery := "";
      severityFilter := AnySeverity;
      statusFilter := OnlyStatus(Open);
    }

    function CurrentCriteria(): Criteria
      reads this
    {
      Criteria(searchQuery, severityFilter, statusFilter)
    }

    /** The list the page renders. */
    function FilteredRisks(): (r: seq<Risk>)
      reads this
      ensures IsSubsequence(r, AllRisks)
      ensures forall k :: 0 <= k < |r| ==> Keep(r[k], CurrentCriteria())
      ensures forall k :: 0 <= k < |AllRisks| && Keep(AllRisks[k], CurrentCriteria()) ==> AllRisks[k] in r
    {
      FilterRisks(AllRisks, CurrentCriteria())
    }

    method SetSearchQuery(q: string)
      modifies this
      ensures CurrentCriteria() == old(CurrentCriteria()).(query := q)
    {
      searchQuery := q;
    }

    method SetSeverityFilter(f: SeverityFilter)
      modifies this
      ensures CurrentCriteria() == old(CurrentCriteria()).(severity := f)
    {
      severityFilter := f;
    }

    method SetStatusFilter(f: StatusFilter)
      modifies this
      ensures CurrentCriteria() == old(CurrentCriteria()).(status := f)
    {
      statusFilter := f;
    }
  }
}
