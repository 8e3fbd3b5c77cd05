/**
 * The admin's doctor list page. The list changes only after the server answers; each
 * server call is an input, the doctor the server returns or a rejected promise.
 */
module ManageDoctors {
  import opened Common
  import ListOps
  import Router
  import DoctorRoutes
  import Doctors

  /** A doctor as the page holds it, in the list and in the form; `id` is undefined (None) on a fresh form. */
  datatype DoctorEntry = DoctorEntry(
    id: Option<string>, name: string, age: string, gender: string, specialty: string,
    phoneNumber: string, yearsOfExperience: string, availability: seq<Doctors.Slot>,
    fees: string, ProfileImage: string)

  datatype State = State(doctors: seq<DoctorEntry>, newDoctor: DoctorEntry, editing: Option<DoctorEntry>)

  const EMPTY_FORM := DoctorEntry(None, "", "", "", "", "", "", [], "", "")

  datatype Field = Name | Age | Gender | Specialty | PhoneNumber | YearsOfExperience | Fees | ProfileImage

  /** `handleInputChange` (and `handleImageChange` with the file's data URL): one field of the form set. */
  function InputChange(s: State, f: Field, value: string): (r: State)
    ensures r.doctors == s.doctors && r.editing == s.editing
    ensures r.newDoctor.id == s.newDoctor.id && r.newDoctor.availability == s.newDoctor.availability
    ensures r.newDoctor.name == (if f == Name then value else s.newDoctor.name)
    ensures r.newDoctor.age == (if f == Age then value else s.newDoctor.age)
    ensures r.newDoctor.gender == (if f == Gender then value else s.newDoctor.gender)
    ensures r.newDoctor.specialty == (if f == Specialty then value else s.newDoctor.specialty)
    ensures r.newDoctor.phoneNumber == (if f == PhoneNumber then value else s.newDoctor.phoneNumber)
    ensures r.newDoctor.yearsOfExperience == (if f == YearsOfExperience then value else s.newDoctor.yearsOfExperience)
    ensures r.newDoctor.fees == (if f == Fees then value else s.newDoctor.fees)
    ensures r.newDoctor.ProfileImage == (if f == ProfileImage then value else s.newDoctor.ProfileImage)
  {
    var d := s.newDoctor;
    var e := match f
      case Name => d.(name := value)
      case Age => d.(age := value)
      case Gender => d.(gender := value)
      case Specialty => d.(specialty := value)
      case PhoneNumber => d.(phoneNumber := value)
      case YearsOfExperience => d.(yearsOfExperience := value)
      case Fees => d.(fees := value)
      case ProfileImage => d.(ProfileImage := value);
    s.(newDoctor := e)
  }

  /** The guard of `handleAddDoctor`: all eight fields, the picture included, filled. */
  predicate Filled(d: DoctorEntry) {
    Truthy(d.name) && Truthy(d.age) && Truthy(d.gender) && Truthy(d.specialty)
    && Truthy(d.phoneNumber) && Truthy(d.yearsOfExperience) && Truthy(d.fees) && Truthy(d.ProfileImage)
  }

  /**
   * `handleAddDoctor`: with a field missing no request is made; a failed request changes
   * nothing; otherwise the server's doctor is appended and the form reset.
   */
  function Add(s: State, server: ServerResult<DoctorEntry>): (r: State)
    ensures !Filled(s.newDoctor) || server.Failed? ==> r == s
    ensures Filled(s.newDoctor) && server.Ok? ==>
      r.newDoctor == EMPTY_FORM && r.editing == s.editing
    ensures Filled(s.newDoctor) && server.Ok? ==>
      |r.doctors| == |s.doctors| + 1 && r.doctors[..|s.doctors|] == s.doctors
      && r.doctors[|s.doctors|] == server.data
  {
    if !Filled(s.newDoctor) then s
    else match server
      case Failed => s
      case Ok(d) => s.(doctors := s.doctors + [d], newDoctor := EMPTY_FORM)
  }

  /** `handleEditDoctor`. */
  function Edit(s: State, d: DoctorEntry): (r: State)
    ensures r.doctors == s.doctors && r.editing == Some(d) && r.newDoctor == d
  {
    s.(editing := Some(d), newDoctor := d)
  }

  /**
   * `handleUpdateDoctor`: after a successful request the entries with the edited id are
   * replaced by the server's doctor, the others kept; a failed request changes nothing.
   */
  function Update(s: State, server: ServerResult<DoctorEntry>): (r: State)
    requires s.editing.Some?
    ensures server.Failed? ==> r == s
    ensures server.Ok? ==>
      |r.doctors| == |s.doctors| && r.newDoctor == EMPTY_FORM && r.editing.None?
      && forall i :: 0 <= i < |s.doctors| ==>
           r.doctors[i] == (if s.doctors[i].id == s.editing.value.id then server.data else s.doctors[i])
  {
    match server
    case Failed => s
    case Ok(d) =>
      var target := s.editing.value.id;
      State(ListOps.ReplaceWhere(s.doctors, (doc: DoctorEntry) => doc.id == target, d), EMPTY_FORM, None)
  }

  /** `handleDeleteDoctor`: the id is filtered out only once the server call has succeeded. */
  function Delete(s: State, id: Option<string>, server: ServerResult<()>): (r: State)
    ensures server.Failed? ==> r == s
    ensures server.Ok? ==>
      ListOps.IsSubsequence(r.doctors, s.doctors)
      && (forall d :: d in r.doctors <==> d in s.doctors && d.id != id)
      && (forall d :: multiset(r.doctors)[d] == (if d.id != id then multiset(s.doctors)[d] else 0))
      && r.newDoctor == s.newDoctor && r.editing == s.editing
  {
    match server
    case Failed => s
    case Ok(_) =>
      var keep := (doc: DoctorEntry) => doc.id != id;
      ListOps.FilterCounts(s.doctors, keep);
      s.(doctors := ListOps.Filter(s.doctors, keep))
  }

  /**
   * The page's view of a request: axios resolves the promise only if the router hands the
   * request to a handler and that handler answers with a 2xx `status`. An unmatched route,
   * a refused role check and every 4xx or 5xx answer reject it.
   */
  function Through<T>(o: Router.Outcome<DoctorRoutes.DoctorHandler>, status: int, data: T): (r: ServerResult<T>)
    ensures r.Ok? <==> o.Reached? && 200 <= status < 300
    ensures r.Ok? ==> r.data == data
  {
    if o.Reached? && 200 <= status < 300 then Ok(data) else Failed
  }

  /**
   * `handleUpdateDoctor` sends a PUT, for which the doctor router has no route: whatever
   * the path, the role and the doctor, the update leaves the page's state as it was.
   */
  lemma {:induction false} UpdateNeverApplies(s: State, path: seq<string>, role: Option<string>, status: int, d: DoctorEntry)
    requires s.editing.Some?
    ensures Update(s, Through(DoctorRoutes.Request(Router.PUT, path, role), status, d)) == s
  {
    DoctorRoutes.NoPutRoute(path, role);
  }

  /** Adding a doctor then deleting the id the server gave it restores the list, when no other entry has that id. */
  lemma {:induction false} AddThenDelete(s: State, d: DoctorEntry)
    requires Filled(s.newDoctor)
    requires forall e :: e in s.doctors ==> e.id != d.id
    ensures Delete(Add(s, Ok(d)), d.id, Ok(())).doctors == s.doctors
  {
    ListOps.FilterAppendRejected(s.doctors, d, (doc: DoctorEntry) => doc.id != d.id);
  }
}
