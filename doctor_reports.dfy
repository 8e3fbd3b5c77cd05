/** The doctor's reports page: the fetched reports and a search on title or type. */
module DoctorReports {
  import opened Common
  import ListOps

  /** `kind` is the report's `type` field (a reserved word in Dafny). */
  datatype Report = Report(id: Option<string>, title: string, kind: string)

  datatype State = State(reports: seq<Report>, filter: string, filteredReports: seq<Report>)

  /** A report is kept when its lower-cased title or type includes the lower-cased query. */
  predicate Matches(rep: Report, query: string) {
    Contains(Lower(rep.title), query) || Contains(Lower(rep.kind), query)
  }

  /**
   * `handleFilterChange`: the text is lower-cased before it is stored and matched; the
   * result is drawn from the full list, never from the previous result.
   */
  function FilterChange(s: State, typed: string): (r: State)
    ensures r.filter == Lower(typed) && r.reports == s.reports
    ensures ListOps.IsSubsequence(r.filteredReports, s.reports)
    ensures forall rep :: rep in r.filteredReports <==> rep in s.reports && Matches(rep, Lower(typed))
    ensures forall rep :: multiset(r.filteredReports)[rep] == (if Matches(rep, Lower(typed)) then multiset(s.reports)[rep] else 0)
    ensures typed == "" ==> r.filteredReports == s.reports
  {
    var query := Lower(typed);
    forall rep: Report ensures query == "" ==> Matches(rep, query) {
      ContainsEmpty(Lower(rep.title));
    }
    var keep := (rep: Report) => Matches(rep, query);
    ListOps.FilterCounts(s.reports, keep);
    s.(filter := query, filteredReports := ListOps.Filter(s.reports, keep))
  }

  /** Typing the same text again, or its stored lower-case form, shows the same reports. */
  lemma {:induction false} RefilterIsStable(s: State, typed: string)
    ensures var r := FilterChange(s, typed); FilterChange(r, r.filter) == r
  {
    LowerIdempotent(typed);
  }

  /** A longer query shows no more reports: every report a query keeps, each shorter prefix of it keeps. */
  lemma {:induction false} NarrowingQuery(s: State, typed: string, k: nat)
    requires k <= |typed|
    ensures forall rep :: rep in FilterChange(s, typed).filteredReports ==> rep in FilterChange(s, typed[..k]).filteredReports
  {
    forall rep | rep in FilterChange(s, typed).filteredReports
      ensures rep in FilterChange(s, typed[..k]).filteredReports
    {
      var q := Lower(typed);
      assert Lower(typed[..k]) == q[..k];
      if Contains(Lower(rep.title), q) {
        PrefixContained(Lower(rep.title), q, k);
      } else {
        PrefixContained(Lower(rep.kind), q, k);
      }
    }
  }

  lemma {:induction false} PrefixContained(s: string, q: string, k: nat)
    requires k <= |q| && Contains(s, q)
    ensures Contains(s, q[..k])
  {
    var i :| OccursAt(s, q, i);
    assert s[i..i + k] == q[..k];
    assert OccursAt(s, q[..k], i);
  }
}
