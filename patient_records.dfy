/**
 * The doctor's patient records page: the full list, the list shown after a search, the
 * form and the record being edited. The stored token and each server answer are inputs.
 */
module PatientRecords {
  import opened Common
  import ListOps

  datatype Record = Record(id: Option<string>, name: string, age: string, contact: string, address: string, medicalHistory: string)

  datatype Field = Name | Age | Contact | Address | MedicalHistory

  datatype State = State(
    patients: seq<Record>, searchQuery: string, filteredPatients: seq<Record>,
    formData: Record, editing: Option<Record>)

  const EMPTY_FORM := Record(None, "", "", "", "", "")

  /** A record is shown for a lower-cased query when its lower-cased name or contact includes it. */
  predicate MatchesQuery(p: Record, query: string) {
    Contains(Lower(p.name), query) || Contains(Lower(p.contact), query)
  }

  /**
   * `handleSearchChange`: the query is lower-cased and stored, and the shown list is
   * recomputed from the full list, never from the previous result.
   */
  function Search(s: State, typed: string): (r: State)
    ensures r.searchQuery == Lower(typed)
    ensures ListOps.IsSubsequence(r.filteredPatients, s.patients)
    ensures forall p :: p in r.filteredPatients <==> p in s.patients && MatchesQuery(p, Lower(typed))
    ensures forall p :: multiset(r.filteredPatients)[p] == (if MatchesQuery(p, Lower(typed)) then multiset(s.patients)[p] else 0)
    ensures typed == "" ==> r.filteredPatients == s.patients
    ensures r.patients == s.patients && r.formData == s.formData && r.editing == s.editing
  {
    var query := Lower(typed);
    forall p: Record ensures query == "" ==> MatchesQuery(p, query) {
      ContainsEmpty(Lower(p.name));
    }
    var keep := (p: Record) => MatchesQuery(p, query);
    ListOps.FilterCounts(s.patients, keep);
    s.(searchQuery := query, filteredPatients := ListOps.Filter(s.patients, keep))
  }

  /** The result of a search does not depend on what was shown before it. */
  lemma SearchForgetsPreviousResult(s: State, shown: seq<Record>, typed: string)
    ensures Search(s.(filteredPatients := shown), typed) == Search(s, typed)
  {
  }

  /** Searching again with the stored query shows the same list: the stored query is already lower-case. */
  lemma {:induction false} SearchAgainIsStable(s: State, typed: string)
    ensures Search(Search(s, typed), Search(s, typed).searchQuery) == Search(s, typed)
  {
    LowerIdempotent(typed);
  }

  /** `handleInputChange`: one field of the form set. */
  function InputChange(s: State, f: Field, value: string): (r: State)
    ensures r.patients == s.patients && r.filteredPatients == s.filteredPatients && r.editing == s.editing
    ensures r.searchQuery == s.searchQuery && r.formData.id == s.formData.id
    ensures r.formData.name == (if f == Name then value else s.formData.name)
    ensures r.formData.age == (if f == Age then value else s.formData.age)
    ensures r.formData.contact == (if f == Contact then value else s.formData.contact)
    ensures r.formData.address == (if f == Address then value else s.formData.address)
    ensures r.formData.medicalHistory == (if f == MedicalHistory then value else s.formData.medicalHistory)
  {
    var d := s.formData;
    var e := match f
      case Name => d.(name := value)
      case Age => d.(age := value)
      case Contact => d.(contact := value)
      case Address => d.(address := value)
      case MedicalHistory => d.(medicalHistory := value);
    s.(formData := e)
  }

  /** `handleEdit`. */
  function Edit(s: State, p: Record): (r: State)
    ensures r.patients == s.patients && r.filteredPatients == s.filteredPatients
    ensures r.editing == Some(p) && r.formData == p
    ensures r.searchQuery == s.searchQuery
  {
    s.(editing := Some(p), formData := p)
  }

  /**
   * `handleSubmit`. Without a stored token nothing is sent and nothing changes; a failed
   * request changes nothing. A successful edit leaves both lists as they were; a
   * successful add appends the server's record and shows the whole new list. Either
   * success clears the form and the edit.
   */
  function Submit(s: State, token: Option<string>, server: ServerResult<Record>): (r: State)
    ensures !Present(token) || server.Failed? ==> r == s
    ensures Present(token) && server.Ok? ==> r.formData == EMPTY_FORM && r.editing.None? && r.searchQuery == s.searchQuery
    ensures Present(token) && server.Ok? && s.editing.Some? ==>
      r.patients == s.patients && r.filteredPatients == s.filteredPatients
    ensures Present(token) && server.Ok? && s.editing.None? ==>
      r.patients == s.patients + [server.data] && r.filteredPatients == r.patients
  {
    if !Present(token) then s
    else match server
      case Failed => s
      case Ok(d) =>
        var saved := if s.editing.Some? then s else s.(patients := s.patients + [d], filteredPatients := s.patients + [d]);
        saved.(formData := EMPTY_FORM, editing := None)
  }

  /** An add discards the active search: afterwards every record is shown, with the query still displayed. */
  lemma AddDiscardsSearch(s: State, typed: string, token: string, d: Record)
    requires token != "" && s.editing.None?
    ensures var r := Submit(Search(s, typed), Some(token), Ok(d));
      r.filteredPatients == s.patients + [d] && r.searchQuery == Lower(typed)
  {
  }

  /**
   * `handleDelete`. Without a stored token, or when the request fails, nothing changes;
   * otherwise the id is removed from both lists, each keeping its order.
   */
  function Delete(s: State, token: Option<string>, id: Option<string>, server: ServerResult<()>): (r: State)
    ensures !Present(token) || server.Failed? ==> r == s
    ensures Present(token) && server.Ok? ==>
      ListOps.IsSubsequence(r.patients, s.patients)
      && ListOps.IsSubsequence(r.filteredPatients, s.filteredPatients)
      && (forall p :: p in r.patients <==> p in s.patients && p.id != id)
      && (forall p :: p in r.filteredPatients <==> p in s.filteredPatients && p.id != id)
      && (forall p :: multiset(r.patients)[p] == (if p.id != id then multiset(s.patients)[p] else 0))
      && (forall p :: multiset(r.filteredPatients)[p] == (if p.id != id then multiset(s.filteredPatients)[p] else 0))
      && r.formData == s.formData && r.editing == s.editing && r.searchQuery == s.searchQuery
  {
    if !Present(token) then s
    else match server
      case Failed => s
      case Ok(_) =>
        var keep := (p: Record) => p.id != id;
        ListOps.FilterCounts(s.patients, keep);
        ListOps.FilterCounts(s.filteredPatients, keep);
        s.(patients := ListOps.Filter(s.patients, keep), filteredPatients := ListOps.Filter(s.filteredPatients, keep))
  }

  /** Deleting after a search shows what searching after the delete would: delete and search commute. */
  lemma {:induction false} DeleteKeepsSearchResult(s: State, typed: string, token: string, id: Option<string>)
    requires token != ""
    ensures Delete(Search(s, typed), Some(token), id, Ok(())) == Search(Delete(s, Some(token), id, Ok(())), typed)
  {
    var query := Lower(typed);
    ListOps.FilterCommutes(s.patients, (p: Record) => MatchesQuery(p, query), (p: Record) => p.id != id);
  }
}
