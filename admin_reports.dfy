/** The admin's reports page: a fixed list of reports and a filter on their type. */
module AdminReports {
  import opened Common
  import ListOps

  /** `kind` is the report's `type` field (a reserved word in Dafny). */
  datatype Report = Report(id: int, title: string, date: string, kind: string)

  datatype State = State(reports: seq<Report>, filter: string, filteredReports: seq<Report>)

  const REPORTS: seq<Report> := [
    Report(1, "Monthly Revenue", "2025-04-01", "Finance"),
    Report(2, "Patient Statistics", "2025-04-05", "Patient"),
    Report(3, "Doctor Performance", "2025-04-10", "Doctor"),
    Report(4, "Appointment Trends", "2025-04-15", "Appointment")
  ]

  /** The page's first state: no filter, every report shown. */
  const INITIAL := State(REPORTS, "", REPORTS)

  predicate TypeMatches(rep: Report, value: string) {
    Contains(Lower(rep.kind), Lower(value))
  }

  /**
   * `handleFilterChange`: the text is stored as typed; a non-empty text keeps the reports
   * whose type includes it, ignoring case, and an empty one shows the full list. Either
   * way the result is drawn from the full list.
   */
  function FilterChange(s: State, value: string): (r: State)
    ensures r.filter == value && r.reports == s.reports
    ensures ListOps.IsSubsequence(r.filteredReports, s.reports)
    ensures forall rep :: rep in r.filteredReports <==> rep in s.reports && TypeMatches(rep, value)
    ensures forall rep :: multiset(r.filteredReports)[rep] == (if TypeMatches(rep, value) then multiset(s.reports)[rep] else 0)
    ensures value == "" ==> r.filteredReports == s.reports
  {
    forall rep: Report ensures value == "" ==> TypeMatches(rep, value) {
      ContainsEmpty(Lower(rep.kind));
    }
    if Truthy(value) then
      var keep := (rep: Report) => TypeMatches(rep, value);
      ListOps.FilterCounts(s.reports, keep);
      s.(filter := value, filteredReports := ListOps.Filter(s.reports, keep))
    else
      ListOps.SubsequenceReflexive(s.reports);
      s.(filter := value, filteredReports := s.reports)
  }

  /** The empty-text branch shows what the filter itself would: every type includes the empty string. */
  lemma {:induction false} EmptyBranchIsFilter(s: State)
    ensures FilterChange(s, "").filteredReports == ListOps.Filter(s.reports, (rep: Report) => TypeMatches(rep, ""))
  {
    forall i | 0 <= i < |s.reports| ensures TypeMatches(s.reports[i], "") {
      ContainsEmpty(Lower(s.reports[i].kind));
    }
  }

  /** Only the type is matched: a report whose title includes the text, but whose type does not, is hidden. */
  lemma {:induction false} TitleNotMatched(s: State, rep: Report, value: string)
    requires rep in s.reports && Contains(Lower(rep.title), Lower(value)) && !TypeMatches(rep, value)
    ensures rep !in FilterChange(s, value).filteredReports
  {
  }

  /** The text is kept with its capitals, while matching ignores them. */
  lemma StoredAsTyped()
    ensures FilterChange(INITIAL, "Doctor").filter == "Doctor"
    ensures forall rep :: rep in FilterChange(INITIAL, "Doctor").filteredReports <==>
      rep in REPORTS && TypeMatches(rep, "doctor")
  {
    assert Lower("Doctor") == Lower("doctor");
  }
}
