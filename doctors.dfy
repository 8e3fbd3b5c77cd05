/**
 * The doctor schema and the doctor controller. The Doctor collection is the map field of
 * `DoctorStore`, keyed by document id. Numbers are integers; a request body names each
 * field it carries, and None is a field it leaves out.
 */
module Doctors {
  import opened Common

  type Id = string

  datatype Slot = Slot(day: string, startTime: string, endTime: string)

  /** A stored doctor: every path is optional except `fees`; `isApproved` and `availability` have defaults. */
  datatype Doctor = Doctor(
    name: Option<string>, age: Option<int>, gender: Option<string>, ProfileImage: Option<string>,
    phoneNumber: Option<string>, specialty: Option<string>, yearsOfExperience: Option<int>,
    availability: seq<Slot>, fees: int, isApproved: bool)

  /** `req.body` of createDoctor and updateDoctor. */
  datatype DoctorBody = DoctorBody(
    name: Option<string>, age: Option<int>, gender: Option<string>, ProfileImage: Option<string>,
    phoneNumber: Option<string>, specialty: Option<string>, yearsOfExperience: Option<int>,
    availability: Option<seq<Slot>>, fees: Option<int>, isApproved: Option<bool>)

  const EMPTY_BODY := DoctorBody(None, None, None, None, None, None, None, None, None, None)

  /** JavaScript truthiness of a number that may be absent: 0 counts as missing. */
  predicate TruthyNum(o: Option<int>) {
    o.Some? && o.value != 0
  }

  /** The guard of createDoctor: all five key fields truthy. */
  predicate CreateGuard(b: DoctorBody) {
    Present(b.name) && Present(b.phoneNumber) && Present(b.specialty)
    && TruthyNum(b.yearsOfExperience) && TruthyNum(b.fees)
  }

  /** The guard of updateDoctor: at least one of the same five fields truthy. */
  predicate UpdateGuard(b: DoctorBody) {
    Present(b.name) || Present(b.phoneNumber) || Present(b.specialty)
    || TruthyNum(b.yearsOfExperience) || TruthyNum(b.fees)
  }

  /** The schema's own validation of a new document: `fees` is its only required path, and 0 satisfies it. */
  predicate SchemaAccepts(b: DoctorBody) {
    b.fees.Some?
  }

  /** Every body the controller accepts, the schema accepts; the converse fails. */
  lemma ControllerStricterThanSchema()
    ensures forall b :: CreateGuard(b) ==> SchemaAccepts(b)
    ensures var b := EMPTY_BODY.(fees := Some(0)); SchemaAccepts(b) && !CreateGuard(b)
    ensures var b := EMPTY_BODY.(fees := Some(500)); SchemaAccepts(b) && !CreateGuard(b)
  {
  }

  /** `new Doctor({...})`: the supplied fields, `availability` defaulting to [] and `isApproved` to false. */
  function NewDoctor(b: DoctorBody): (d: Doctor)
    requires SchemaAccepts(b)
    ensures d.name == b.name && d.age == b.age && d.gender == b.gender && d.ProfileImage == b.ProfileImage
    ensures d.phoneNumber == b.phoneNumber && d.specialty == b.specialty
    ensures d.yearsOfExperience == b.yearsOfExperience && d.fees == b.fees.value
    ensures b.availability.None? ==> d.availability == []
    ensures b.availability.Some? ==> d.availability == b.availability.value
    ensures d.isApproved <==> b.isApproved == Some(true)
  {
    Doctor(b.name, b.age, b.gender, b.ProfileImage, b.phoneNumber, b.specialty, b.yearsOfExperience,
           if b.availability.Some? then b.availability.value else [],
           b.fees.value,
           if b.isApproved.Some? then b.isApproved.value else false)
  }

  function SetField<T>(given: Option<T>, current: Option<T>): Option<T> {
    if given.Some? then given else current
  }

  function SetValue<T>(given: Option<T>, current: T): T {
    if given.Some? then given.value else current
  }

  /** `{ $set: body }` on one document: the fields the body carries are replaced, all others kept. */
  function ApplySet(d: Doctor, b: DoctorBody): (r: Doctor)
    ensures b.name.Some? ==> r.name == b.name
    ensures b.name.None? ==> r.name == d.name
    ensures b.age.Some? ==> r.age == b.age
    ensures b.age.None? ==> r.age == d.age
    ensures b.gender.Some? ==> r.gender == b.gender
    ensures b.gender.None? ==> r.gender == d.gender
    ensures b.ProfileImage.Some? ==> r.ProfileImage == b.ProfileImage
    ensures b.ProfileImage.None? ==> r.ProfileImage == d.ProfileImage
    ensures b.phoneNumber.Some? ==> r.phoneNumber == b.phoneNumber
    ensures b.phoneNumber.None? ==> r.phoneNumber == d.phoneNumber
    ensures b.specialty.Some? ==> r.specialty == b.specialty
    ensures b.specialty.None? ==> r.specialty == d.specialty
    ensures b.yearsOfExperience.Some? ==> r.yearsOfExperience == b.yearsOfExperience
    ensures b.yearsOfExperience.None? ==> r.yearsOfExperience == d.yearsOfExperience
    ensures b.availability.Some? ==> r.availability == b.availability.value
    ensures b.availability.None? ==> r.availability == d.availability
    ensures b.fees.Some? ==> r.fees == b.fees.value
    ensures b.fees.None? ==> r.fees == d.fees
    ensures b.isApproved.Some? ==> r.isApproved == b.isApproved.value
    ensures b.isApproved.None? ==> r.isApproved == d.isApproved
  {
    Doctor(SetField(b.name, d.name), SetField(b.age, d.age), SetField(b.gender, d.gender),
           SetField(b.ProfileImage, d.ProfileImage), SetField(b.phoneNumber, d.phoneNumber),
           SetField(b.specialty, d.specialty), SetField(b.yearsOfExperience, d.yearsOfExperience),
           SetValue(b.availability, d.availability), SetValue(b.fees, d.fees),
           SetValue(b.isApproved, d.isApproved))
  }

  /** The body that carries every field of `second`, and the fields of `first` that `second` leaves out. */
  function Overlay(first: DoctorBody, second: DoctorBody): DoctorBody {
    DoctorBody(SetField(second.name, first.name), SetField(second.age, first.age),
               SetField(second.gender, first.gender), SetField(second.ProfileImage, first.ProfileImage),
               SetField(second.phoneNumber, first.phoneNumber), SetField(second.specialty, first.specialty),
               SetField(second.yearsOfExperience, first.yearsOfExperience),
               SetField(second.availability, first.availability), SetField(second.fees, first.fees),
               SetField(second.isApproved, first.isApproved))
  }

  /** Applying the same `$set` twice is applying it once. */
  lemma ApplySetIdempotent(d: Doctor, b: DoctorBody)
    ensures ApplySet(ApplySet(d, b), b) == ApplySet(d, b)
  {
  }

  /** A body with no fields changes nothing. */
  lemma ApplySetEmpty(d: Doctor)
    ensures ApplySet(d, EMPTY_BODY) == d
  {
  }

  /** Two updates in a row are one update with the later values winning. */
  lemma ApplySetTwice(d: Doctor, first: DoctorBody, second: DoctorBody)
    ensures ApplySet(ApplySet(d, first), second) == ApplySet(d, Overlay(first, second))
  {
  }

  /** Creating a doctor is setting the body's fields on the schema's defaults. */
  lemma NewDoctorIsSetOnDefaults(b: DoctorBody)
    requires SchemaAccepts(b)
    ensures NewDoctor(b) == ApplySet(Doctor(None, None, None, None, None, None, None, [], 0, false), b)
  {
  }

  class DoctorStore {
    /** The Doctor collection, by document id. */
    var doctors: map<Id, Doctor>

    constructor ()
      ensures doctors == map[]
    {
      doctors := map[];
    }

    /** createDoctor: the guard, then exactly one new document holding the supplied fields. */
    method Create(b: DoctorBody, freshId: Id) returns (reply: Reply<Doctor>)
      requires freshId !in doctors
      modifies this
      ensures !CreateGuard(b) ==> reply == Reply(400, "Required fields are missing", None) && doctors == old(doctors)
      ensures CreateGuard(b) ==>
        doctors == old(doctors)[freshId := NewDoctor(b)]
        && reply == Reply(201, "Doctor created successfully", Some(NewDoctor(b)))
    {
      if !CreateGuard(b) {
        return Reply(400, "Required fields are missing", None);
      }
      var d := NewDoctor(b);
      doctors := doctors[freshId := d];
      reply := Reply(201, "Doctor created successfully", Some(d));
    }

    /** getDoctorById. */
    method GetById(id: Id) returns (reply: Reply<Doctor>)
      ensures id !in doctors ==> reply == Reply(404, "Doctor not found", None)
      ensures id in doctors ==> reply == Reply(200, "", Some(doctors[id]))
    {
      if id !in doctors {
        return Reply(404, "Doctor not found", None);
      }
      reply := Reply(200, "", Some(doctors[id]));
    }

    /** updateDoctor: the guard comes before the lookup; a found document gets the `$set`. */
    method Update(id: Id, b: DoctorBody) returns (reply: Reply<Doctor>)
      modifies this
      ensures !UpdateGuard(b) ==>
        reply == Reply(400, "At least one field is required to update", None) && doctors == old(doctors)
      ensures UpdateGuard(b) && id !in old(doctors) ==>
        reply == Reply(404, "Doctor not found", None) && doctors == old(doctors)
      ensures UpdateGuard(b) && id in old(doctors) ==>
        doctors == old(doctors)[id := ApplySet(old(doctors)[id], b)]
        && reply == Reply(200, "Doctor updated successfully", Some(ApplySet(old(doctors)[id], b)))
    {
      if !UpdateGuard(b) {
        return Reply(400, "At least one field is required to update", None);
      }
      if id !in doctors {
        return Reply(404, "Doctor not found", None);
      }
      var updated := ApplySet(doctors[id], b);
      doctors := doctors[id := updated];
      reply := Reply(200, "Doctor updated successfully", Some(updated));
    }

    /** deleteDoctor. */
    method Delete(id: Id) returns (reply: Reply<()>)
      modifies this
      ensures id !in old(doctors) ==> reply == Reply(404, "Doctor not found", None) && doctors == old(doctors)
      ensures id in old(doctors) ==>
        reply == Reply(200, "Doctor deleted successfully", None) && doctors == old(doctors) - {id}
    {
      if id !in doctors {
        return Reply(404, "Doctor not found", None);
      }
      doctors := doctors - {id};
      reply := Reply(200, "Doctor deleted successfully", None);
    }
  }

  /**
   * After a delete the doctor is gone: a get and a second delete answer 404, and so does an
   * update whose body passes the guard (one that fails it is refused first, with 400).
   */
  method DeleteThenAccess(store: DoctorStore, id: Id, b: DoctorBody)
    returns (got: Reply<Doctor>, updated: Reply<Doctor>, again: Reply<()>)
    requires id in store.doctors
    modifies store
    ensures got.status == 404 && again.status == 404
    ensures updated.status == (if UpdateGuard(b) then 404 else 400)
    ensures store.doctors == old(store.doctors) - {id}
  {
    var first := store.Delete(id);
    got := store.GetById(id);
    updated := store.Update(id, b);
    again := store.Delete(id);
  }
}
