/**
 * The admin's patient list page. Every handler builds the next state from the current one
 * (the list, the form and the record being edited); `Date.now()` is the parameter `now`.
 * The form is a record too: editing copies a whole list entry, id included, into it.
 */
module ManagePatients {
  import opened Common
  import ListOps

  datatype Patient = Patient(id: Option<int>, name: string, age: string, contact: string, address: string, image: string)

  datatype Field = Name | Age | Contact | Address | Image

  datatype State = State(patients: seq<Patient>, newPatient: Patient, editing: Option<Patient>)

  const EMPTY_FORM := Patient(None, "", "", "", "", "")

  /** The form's id follows the page's mode: none while adding, the edited record's while editing. */
  predicate Valid(s: State) {
    (s.editing.None? ==> s.newPatient.id.None?)
    && (s.editing.Some? ==> s.newPatient.id == s.editing.value.id)
  }

  /** `handleInputChange` (and `handleImageChange` with the file's data URL): one field of the form set. */
  function InputChange(s: State, f: Field, value: string): (r: State)
    ensures r.patients == s.patients && r.editing == s.editing && r.newPatient.id == s.newPatient.id
    ensures r.newPatient.name == (if f == Name then value else s.newPatient.name)
    ensures r.newPatient.age == (if f == Age then value else s.newPatient.age)
    ensures r.newPatient.contact == (if f == Contact then value else s.newPatient.contact)
    ensures r.newPatient.address == (if f == Address then value else s.newPatient.address)
    ensures r.newPatient.image == (if f == Image then value else s.newPatient.image)
    ensures Valid(s) ==> Valid(r)
  {
    var p := s.newPatient;
    var q := match f
      case Name => p.(name := value)
      case Age => p.(age := value)
      case Contact => p.(contact := value)
      case Address => p.(address := value)
      case Image => p.(image := value);
    s.(newPatient := q)
  }

  predicate Filled(p: Patient) {
    Truthy(p.name) && Truthy(p.age) && Truthy(p.contact) && Truthy(p.address) && Truthy(p.image)
  }

  /** `{ id: Date.now(), ...newPatient }`: an id the form carries overrides the fresh one. */
  function Stamped(p: Patient, now: int): (r: Patient)
    ensures r.id == StampId(p.id, now) && r.id.Some?
    ensures r.(id := p.id) == p
  {
    p.(id := StampId(p.id, now))
  }

  /**
   * `handleAddPatient`: refused, changing nothing, unless all five fields are filled;
   * otherwise the stamped form is appended and the form cleared. The page offers it only
   * while no record is being edited.
   */
  function Add(s: State, now: int): (r: State)
    ensures !Filled(s.newPatient) ==> r == s
    ensures Filled(s.newPatient) ==>
      |r.patients| == |s.patients| + 1 && r.patients[..|s.patients|] == s.patients
      && r.patients[|s.patients|] == Stamped(s.newPatient, now)
      && r.newPatient == EMPTY_FORM && r.editing == s.editing
    ensures Valid(s) && s.editing.None? ==> Valid(r)
    ensures Valid(s) && s.editing.None? && Filled(s.newPatient) ==> r.patients[|s.patients|].id == Some(now)
  {
    if !Filled(s.newPatient) then s
    else s.(patients := s.patients + [Stamped(s.newPatient, now)], newPatient := EMPTY_FORM)
  }

  /** `handleEditPatient`: the record becomes both the one being edited and the form's content. */
  function Edit(s: State, p: Patient): (r: State)
    ensures r.patients == s.patients && r.editing == Some(p) && r.newPatient == p
    ensures Valid(r)
  {
    s.(editing := Some(p), newPatient := p)
  }

  /**
   * `handleUpdatePatient`: every entry whose id equals the edited record's is replaced by
   * the form, with no check of the fields; the others stay in place. It dereferences the
   * edited record, so the page offers it only while editing.
   */
  function Update(s: State): (r: State)
    requires s.editing.Some?
    ensures |r.patients| == |s.patients|
    ensures forall i :: 0 <= i < |s.patients| ==>
      r.patients[i] == (if s.patients[i].id == s.editing.value.id then s.newPatient else s.patients[i])
    ensures r.newPatient == EMPTY_FORM && r.editing.None?
    ensures Valid(r)
  {
    var target := s.editing.value.id;
    var patients := ListOps.ReplaceWhere(s.patients, (p: Patient) => p.id == target, s.newPatient);
    State(patients, EMPTY_FORM, None)
  }

  /** `handleDeletePatient`: the entries with the id removed, the others kept in order. */
  function Delete(s: State, id: Option<int>): (r: State)
    ensures ListOps.IsSubsequence(r.patients, s.patients)
    ensures forall p :: p in r.patients <==> p in s.patients && p.id != id
    ensures forall p :: multiset(r.patients)[p] == (if p.id != id then multiset(s.patients)[p] else 0)
    ensures r.newPatient == s.newPatient && r.editing == s.editing
  {
    var keep := (p: Patient) => p.id != id;
    ListOps.FilterCounts(s.patients, keep);
    s.(patients := ListOps.Filter(s.patients, keep))
  }

  /** While the page keeps its invariant, an update never changes an entry's id. */
  lemma {:induction false} UpdateKeepsIds(s: State)
    requires Valid(s) && s.editing.Some?
    ensures forall i :: 0 <= i < |s.patients| ==> Update(s).patients[i].id == s.patients[i].id
  {
    var r := Update(s);
    forall i | 0 <= i < |s.patients|
      ensures r.patients[i].id == s.patients[i].id
    {
      if s.patients[i].id == s.editing.value.id {
        assert r.patients[i] == s.newPatient;
      }
    }
  }

  /** Editing an entry, changing fields and updating replaces exactly the entries with its id; each keeps its id. */
  lemma {:induction false} EditChangeUpdate(s: State, i: int, f: Field, value: string)
    requires 0 <= i < |s.patients|
    ensures var p := s.patients[i];
      var r := Update(InputChange(Edit(s, p), f, value));
      |r.patients| == |s.patients| && r.patients[i].id == p.id
      && (forall j :: 0 <= j < |s.patients| && s.patients[j].id != p.id ==> r.patients[j] == s.patients[j])
  {
    var p := s.patients[i];
    var e := InputChange(Edit(s, p), f, value);
    assert Valid(e);
    UpdateKeepsIds(e);
  }

  /** An update accepts a form whose fields are empty, which an add refuses. */
  lemma UpdateSkipsAddCheck(s: State)
    requires |s.patients| > 0
    ensures var e := Edit(s, s.patients[0]).(newPatient := s.patients[0].(name := ""));
      !Filled(e.newPatient) && Add(e, 0).patients == s.patients
      && Update(e).patients[0].name == ""
  {
  }
}
