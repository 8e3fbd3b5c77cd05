/**
 * The admin's appointment list page: the same add/edit/update/delete handlers as the
 * patient list, over appointments. `Date.now()` is the parameter `now`.
 */
module Appointments {
  import opened Common
  import ListOps

  datatype Appointment = Appointment(id: Option<int>, patient: string, doctor: string, date: string, time: string)

  datatype Field = PatientName | DoctorName | Date | Time

  datatype State = State(appointments: seq<Appointment>, newAppointment: Appointment, editing: Option<Appointment>)

  const EMPTY_FORM := Appointment(None, "", "", "", "")

  /** The form's id follows the page's mode: none while adding, the edited record's while editing. */
  predicate Valid(s: State) {
    (s.editing.None? ==> s.newAppointment.id.None?)
    && (s.editing.Some? ==> s.newAppointment.id == s.editing.value.id)
  }

  /** `handleInputChange`: one field of the form set. */
  function InputChange(s: State, f: Field, value: string): (r: State)
    ensures r.appointments == s.appointments && r.editing == s.editing && r.newAppointment.id == s.newAppointment.id
    ensures r.newAppointment.patient == (if f == PatientName then value else s.newAppointment.patient)
    ensures r.newAppointment.doctor == (if f == DoctorName then value else s.newAppointment.doctor)
    ensures r.newAppointment.date == (if f == Date then value else s.newAppointment.date)
    ensures r.newAppointment.time == (if f == Time then value else s.newAppointment.time)
    ensures Valid(s) ==> Valid(r)
  {
    var a := s.newAppointment;
    var b := match f
      case PatientName => a.(patient := value)
      case DoctorName => a.(doctor := value)
      case Date => a.(date := value)
      case Time => a.(time := value);
    s.(newAppointment := b)
  }

  predicate Filled(a: Appointment) {
    Truthy(a.patient) && Truthy(a.doctor) && Truthy(a.date) && Truthy(a.time)
  }

  /** `{ id: Date.now(), ...newAppointment }`: an id the form carries overrides the fresh one. */
  function Stamped(a: Appointment, now: int): (r: Appointment)
    ensures r.id == StampId(a.id, now) && r.id.Some?
    ensures r.(id := a.id) == a
  {
    a.(id := StampId(a.id, now))
  }

  /**
   * `handleAddAppointment`: refused, changing nothing, unless all four fields are filled;
   * otherwise the stamped form is appended and the form cleared. The page offers it only
   * while no appointment is being edited.
   */
  function Add(s: State, now: int): (r: State)
    ensures !Filled(s.newAppointment) ==> r == s
    ensures Filled(s.newAppointment) ==>
      |r.appointments| == |s.appointments| + 1 && r.appointments[..|s.appointments|] == s.appointments
      && r.appointments[|s.appointments|] == Stamped(s.newAppointment, now)
      && r.newAppointment == EMPTY_FORM && r.editing == s.editing
    ensures Valid(s) && s.editing.None? ==> Valid(r)
    ensures Valid(s) && s.editing.None? && Filled(s.newAppointment) ==> r.appointments[|s.appointments|].id == Some(now)
  {
    if !Filled(s.newAppointment) then s
    else s.(appointments := s.appointments + [Stamped(s.newAppointment, now)], newAppointment := EMPTY_FORM)
  }

  /** `handleEditAppointment`: the appointment becomes both the one being edited and the form's content. */
  function Edit(s: State, a: Appointment): (r: State)
    ensures r.appointments == s.appointments && r.editing == Some(a) && r.newAppointment == a
    ensures Valid(r)
  {
    s.(editing := Some(a), newAppointment := a)
  }

  /**
   * `handleUpdateAppointment`: every entry whose id equals the edited appointment's is
   * replaced by the form; the others stay in place. The page offers it only while editing.
   */
  function Update(s: State): (r: State)
    requires s.editing.Some?
    ensures |r.appointments| == |s.appointments|
    ensures forall i :: 0 <= i < |s.appointments| ==>
      r.appointments[i] == (if s.appointments[i].id == s.editing.value.id then s.newAppointment else s.appointments[i])
    ensures r.newAppointment == EMPTY_FORM && r.editing.None?
    ensures Valid(r)
  {
    var target := s.editing.value.id;
    var appointments := ListOps.ReplaceWhere(s.appointments, (a: Appointment) => a.id == target, s.newAppointment);
    State(appointments, EMPTY_FORM, None)
  }

  /** `handleDeleteAppointment`: exactly the entries with the id removed, the others kept in order. */
  function Delete(s: State, id: Option<int>): (r: State)
    ensures ListOps.IsSubsequence(r.appointments, s.appointments)
    ensures forall a :: a in r.appointments <==> a in s.appointments && a.id != id
    ensures forall a :: multiset(r.appointments)[a] == (if a.id != id then multiset(s.appointments)[a] else 0)
    ensures r.newAppointment == s.newAppointment && r.editing == s.editing
  {
    var keep := (a: Appointment) => a.id != id;
    ListOps.FilterCounts(s.appointments, keep);
    s.(appointments := ListOps.Filter(s.appointments, keep))
  }

  /** While the page keeps its invariant, an update never changes an entry's id. */
  lemma {:induction false} UpdateKeepsIds(s: State)
    requires Valid(s) && s.editing.Some?
    ensures forall i :: 0 <= i < |s.appointments| ==> Update(s).appointments[i].id == s.appointments[i].id
  {
    var r := Update(s);
    forall i | 0 <= i < |s.appointments|
      ensures r.appointments[i].id == s.appointments[i].id
    {
      if s.appointments[i].id == s.editing.value.id {
        assert r.appointments[i] == s.newAppointment;
      }
    }
  }

  /** Adding then deleting the new appointment's id gives back the list, when that id was not in use. */
  lemma {:induction false} AddThenDelete(s: State, now: int)
    requires Valid(s) && s.editing.None? && Filled(s.newAppointment)
    requires forall a :: a in s.appointments ==> a.id != Some(now)
    ensures Delete(Add(s, now), Some(now)).appointments == s.appointments
  {
    var added := Add(s, now);
    ListOps.FilterAppendRejected(s.appointments, Stamped(s.newAppointment, now), (a: Appointment) => a.id != Some(now));
  }
}
