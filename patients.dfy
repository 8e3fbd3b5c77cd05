/**
 * The patient profile schema and the patient controller. The profiles collection is the
 * map field of `PatientStore`, keyed by document id; the set of existing user ids is a
 * parameter, standing for `User.findById`.
 */
module Patients {
  import opened Common

  type Id = string

  /** GENDER_ENUM and BLOOD_GROUP_ENUM, as the controller lists them. */
  const GENDER_ENUM: seq<string> := ["Male", "Female", "Other"]
  const BLOOD_GROUP_ENUM: seq<string> := ["A+", "A-", "B+", "B-", "O+", "O-", "AB+", "AB-"]

  /** The enum lists of the schema's gender and bloodGroup paths. */
  const SCHEMA_GENDERS: seq<string> := ["Male", "Female", "Other"]
  const SCHEMA_BLOOD_GROUPS: seq<string> := ["A+", "A-", "B+", "B-", "AB+", "AB-", "O+", "O-"]

  datatype Address = Address(street: string, city: string, state: string, zipCode: string)

  /**
   * A stored profile. `age` is kept as the submitted text; `profilePicture` is None where
   * the source stores null.
   */
  datatype Profile = Profile(
    user: Id, fullName: string, email: string, mobile_no: string, age: string,
    gender: string, bloodGroup: string, profilePicture: Option<string>,
    allergies: seq<string>, address: Address)

  /** The schema's validators: the seven required paths, the two enums and the trimmed name. */
  predicate SchemaValid(p: Profile) {
    Truthy(p.user) && Truthy(p.fullName) && Truthy(p.email) && Truthy(p.mobile_no) && Truthy(p.age)
    && p.gender in SCHEMA_GENDERS && p.bloodGroup in SCHEMA_BLOOD_GROUPS
    && p.fullName == Trim(p.fullName)
  }

  /** The unique index on `user`: no two documents belong to the same user. */
  ghost predicate UniqueUsers(profiles: map<Id, Profile>) {
    forall a, b :: a in profiles && b in profiles && a != b ==> profiles[a].user != profiles[b].user
  }

  predicate HasProfile(profiles: map<Id, Profile>, user: Id) {
    exists k :: k in profiles && profiles[k].user == user
  }

  /** The controller's lists contain the same values as the schema's, the blood groups in another order. */
  lemma EnumsAgree()
    ensures forall g :: g in GENDER_ENUM <==> g in SCHEMA_GENDERS
    ensures forall b :: b in BLOOD_GROUP_ENUM <==> b in SCHEMA_BLOOD_GROUPS
    ensures BLOOD_GROUP_ENUM != SCHEMA_BLOOD_GROUPS
  {
    assert BLOOD_GROUP_ENUM[4] != SCHEMA_BLOOD_GROUPS[4];
  }

  // ---------------------------------------------------------------------------
  // createOrUpdatePatient

  /** `req.body.address`; each subfield may be missing. */
  datatype AddressInput = AddressInput(street: Option<string>, city: Option<string>, state: Option<string>, zipCode: Option<string>)

  /** The request of createOrUpdatePatient; `file` is the uploaded picture's path, if any. */
  datatype UpsertRequest = UpsertRequest(
    user: Id, fullName: string, email: string, mobile_no: string, age: string,
    gender: string, bloodGroup: string, allergies: seq<string>,
    address: Option<AddressInput>, file: Option<string>)

  datatype UpsertError = MissingField | BadGender | BadBloodGroup

  function UpsertErrorMessage(e: UpsertError): string {
    match e
    case MissingField => "All required fields must be provided."
    case BadGender => "Invalid gender value."
    case BadBloodGroup => "Invalid blood group value."
  }

  predicate RequiredPresent(r: UpsertRequest) {
    Truthy(r.user) && Truthy(r.fullName) && Truthy(r.email) && Truthy(r.mobile_no)
    && Truthy(r.age) && Truthy(r.gender) && Truthy(r.bloodGroup)
  }

  /** The controller's checks before the user lookup: required fields first, then gender, then blood group. */
  function CheckUpsert(r: UpsertRequest): (e: Option<UpsertError>)
    ensures e == Some(MissingField) <==> !RequiredPresent(r)
    ensures e == Some(BadGender) <==> RequiredPresent(r) && r.gender !in GENDER_ENUM
    ensures e == Some(BadBloodGroup) <==>
      RequiredPresent(r) && r.gender in GENDER_ENUM && r.bloodGroup !in BLOOD_GROUP_ENUM
    ensures e == None <==> RequiredPresent(r) && r.gender in GENDER_ENUM && r.bloodGroup in BLOOD_GROUP_ENUM
  {
    if !RequiredPresent(r) then Some(MissingField)
    else if r.gender !in GENDER_ENUM then Some(BadGender)
    else if r.bloodGroup !in BLOOD_GROUP_ENUM then Some(BadBloodGroup)
    else None
  }

  /** `address: { street: address?.street || '', ... }`; an absent address gives four empty strings. */
  function DefaultAddress(a: Option<AddressInput>): (r: Address)
    ensures a.None? ==> r == Address("", "", "", "")
    ensures a.Some? ==> r == Address(OrEmpty(a.value.street), OrEmpty(a.value.city),
                                     OrEmpty(a.value.state), OrEmpty(a.value.zipCode))
  {
    match a
    case None => Address("", "", "", "")
    case Some(x) => Address(OrEmpty(x.street), OrEmpty(x.city), OrEmpty(x.state), OrEmpty(x.zipCode))
  }

  /**
   * `patientData` as the schema stores it: the name trimmed, the picture the upload's path
   * or null, the address defaulted.
   */
  function BuildProfile(r: UpsertRequest): (p: Profile)
    ensures p.user == r.user && p.email == r.email && p.mobile_no == r.mobile_no && p.age == r.age
    ensures p.gender == r.gender && p.bloodGroup == r.bloodGroup && p.allergies == r.allergies
    ensures p.fullName == Trim(r.fullName)
    ensures p.profilePicture == r.file
    ensures p.address == DefaultAddress(r.address)
  {
    Profile(r.user, Trim(r.fullName), r.email, r.mobile_no, r.age, r.gender, r.bloodGroup,
            r.file, r.allergies, DefaultAddress(r.address))
  }

  /** A request the controller accepts, with a name that is not only white space, gives a document the schema's validators accept. */
  lemma AcceptedRequestIsSchemaValid(r: UpsertRequest)
    requires CheckUpsert(r).None? && Trim(r.fullName) != ""
    ensures SchemaValid(BuildProfile(r))
  {
    var p := BuildProfile(r);
    TrimIdempotent(r.fullName);
    assert p.gender in GENDER_ENUM && p.bloodGroup in BLOOD_GROUP_ENUM;
    EnumsAgree();
  }

  lemma TrimIdempotent(s: string)
    ensures Trim(Trim(s)) == Trim(s)
  {
    var t := Trim(s);
    if t != [] {
      assert TrimStart(t) == t;
      assert TrimEnd(t) == t;
    }
  }

  // ---------------------------------------------------------------------------
  // updatePatient

  /**
   * The body of updatePatient; None is a field the request leaves out. `contactNumber`
   * is not a path of the schema, so strict mode drops it.
   */
  datatype PatchRequest = PatchRequest(
    age: Option<string>, gender: Option<string>, bloodGroup: Option<string>,
    allergies: Option<seq<string>>, address: Option<Address>, contactNumber: Option<string>)

  /** The enum checks of updatePatient: a value is checked only when it is supplied and truthy. */
  function CheckPatch(b: PatchRequest): (msg: Option<string>)
    ensures msg == Some("Invalid gender value") <==> Present(b.gender) && b.gender.value !in GENDER_ENUM
    ensures msg == Some("Invalid blood group value") <==>
      !(Present(b.gender) && b.gender.value !in GENDER_ENUM)
      && Present(b.bloodGroup) && b.bloodGroup.value !in BLOOD_GROUP_ENUM
    ensures msg == None <==>
      !(Present(b.gender) && b.gender.value !in GENDER_ENUM)
      && !(Present(b.bloodGroup) && b.bloodGroup.value !in BLOOD_GROUP_ENUM)
  {
    if Present(b.gender) && b.gender.value !in GENDER_ENUM then Some("Invalid gender value")
    else if Present(b.bloodGroup) && b.bloodGroup.value !in BLOOD_GROUP_ENUM then Some("Invalid blood group value")
    else None
  }

  function Pick<T>(given: Option<T>, current: T): T {
    match given
    case Some(v) => v
    case None => current
  }

  /** `findByIdAndUpdate(id, { age, gender, bloodGroup, allergies, address, contactNumber })` on one document. */
  function Patch(p: Profile, b: PatchRequest): (r: Profile)
    ensures r.user == p.user && r.fullName == p.fullName && r.email == p.email
    ensures r.mobile_no == p.mobile_no && r.profilePicture == p.profilePicture
    ensures r.age == Pick(b.age, p.age) && r.gender == Pick(b.gender, p.gender)
    ensures r.bloodGroup == Pick(b.bloodGroup, p.bloodGroup)
    ensures r.allergies == Pick(b.allergies, p.allergies) && r.address == Pick(b.address, p.address)
  {
    p.(age := Pick(b.age, p.age), gender := Pick(b.gender, p.gender),
       bloodGroup := Pick(b.bloodGroup, p.bloodGroup), allergies := Pick(b.allergies, p.allergies),
       address := Pick(b.address, p.address))
  }

  lemma OverwriteKeepsUnique(profiles: map<Id, Profile>, k: Id, p: Profile)
    requires UniqueUsers(profiles) && k in profiles && profiles[k].user == p.user
    ensures UniqueUsers(profiles[k := p])
  {
    var m := profiles[k := p];
    forall a, b | a in m && b in m && a != b
      ensures m[a].user != m[b].user
    {
      assert m[a].user == profiles[a].user && m[b].user == profiles[b].user;
    }
  }

  lemma InsertKeepsUnique(profiles: map<Id, Profile>, k: Id, p: Profile)
    requires UniqueUsers(profiles) && k !in profiles && !HasProfile(profiles, p.user)
    ensures UniqueUsers(profiles[k := p])
  {
    var m := profiles[k := p];
    forall a, b | a in m && b in m && a != b
      ensures m[a].user != m[b].user
    {
      if a == k {
        assert b in profiles && profiles[b].user != p.user;
      } else if b == k {
        assert a in profiles && profiles[a].user != p.user;
      }
    }
  }

  // ---------------------------------------------------------------------------

  class PatientStore {
    /** The profiles collection, by document id. */
    var profiles: map<Id, Profile>

    ghost predicate Valid()
      reads this
    {
      UniqueUsers(profiles)
    }

    constructor ()
      ensures Valid() && profiles == map[]
    {
      profiles := map[];
    }

    /**
     * createOrUpdatePatient. `knownUsers` are the ids `User.findById` finds and `freshId`
     * the id a new document gets. A profile of the same user is overwritten (200), else a
     * new one is created (201); a name of only white space passes the controller but fails
     * the schema's required check on save (500).
     */
    method CreateOrUpdate(r: UpsertRequest, knownUsers: set<Id>, freshId: Id) returns (reply: Reply<Profile>)
      requires Valid()
      requires freshId !in profiles
      modifies this
      ensures Valid()
      ensures CheckUpsert(r).Some? ==>
        reply == Reply(400, UpsertErrorMessage(CheckUpsert(r).value), None) && profiles == old(profiles)
      ensures CheckUpsert(r).None? && r.user !in knownUsers ==>
        reply == Reply(404, "User not found. Please create a user first.", None) && profiles == old(profiles)
      ensures CheckUpsert(r).None? && r.user in knownUsers && Trim(r.fullName) == "" ==>
        reply == Reply(500, "Error processing patient profile.", None) && profiles == old(profiles)
      ensures CheckUpsert(r).None? && r.user in knownUsers && Trim(r.fullName) != ""
              && HasProfile(old(profiles), r.user) ==>
        reply == Reply(200, "Patient profile updated successfully.", Some(BuildProfile(r)))
        && (exists k :: k in old(profiles) && old(profiles)[k].user == r.user
                        && profiles == old(profiles)[k := BuildProfile(r)])
      ensures CheckUpsert(r).None? && r.user in knownUsers && Trim(r.fullName) != ""
              && !HasProfile(old(profiles), r.user) ==>
        reply == Reply(201, "Patient profile created successfully.", Some(BuildProfile(r)))
        && profiles == old(profiles)[freshId := BuildProfile(r)]
    {
      var check := CheckUpsert(r);
      if check.Some? {
        return Reply(400, UpsertErrorMessage(check.value), None);
      }
      if r.user !in knownUsers {
        return Reply(404, "User not found. Please create a user first.", None);
      }
      var data := BuildProfile(r);
      if data.fullName == "" {
        return Reply(500, "Error processing patient profile.", None);
      }
      if HasProfile(profiles, r.user) {
        var k :| k in profiles && profiles[k].user == r.user;
        OverwriteKeepsUnique(profiles, k, data);
        profiles := profiles[k := data];
        reply := Reply(200, "Patient profile updated successfully.", Some(data));
      } else {
        InsertKeepsUnique(profiles, freshId, data);
        profiles := profiles[freshId := data];
        reply := Reply(201, "Patient profile created successfully.", Some(data));
      }
    }

    /** getPatientById: the profile whose `user` is `userId`, or 404. */
    method GetByUser(userId: Id) returns (reply: Reply<Profile>)
      requires Valid()
      ensures HasProfile(profiles, userId) <==> reply.status == 200
      ensures !HasProfile(profiles, userId) ==> reply == Reply(404, "Patient not found.", None)
      ensures reply.status == 200 ==>
        reply.body.Some? && reply.body.value.user == userId && reply.body.value in profiles.Values
    {
      if !HasProfile(profiles, userId) {
        return Reply(404, "Patient not found.", None);
      }
      var k :| k in profiles && profiles[k].user == userId;
      reply := Reply(200, "", Some(profiles[k]));
    }

    /**
     * getMedicalHistory for the route parameter the handler reads (`req.params.id`, None
     * when the route does not bind it). `medicalHistory` is no path of the schema, so a
     * found document answers 200 with no payload.
     */
    method GetMedicalHistory(id: Option<Id>) returns (reply: Reply<()>)
      ensures id.None? || id.value !in profiles ==> reply == Reply(404, "Patient not found", None)
      ensures id.Some? && id.value in profiles ==> reply == Reply(200, "", None)
    {
      if id.None? || id.value !in profiles {
        return Reply(404, "Patient not found", None);
      }
      reply := Reply(200, "", None);
    }

    /** updatePatient: the enum checks come before the lookup; the supplied fields replace the stored ones. */
    method Update(id: Id, b: PatchRequest) returns (reply: Reply<Profile>)
      requires Valid()
      modifies this
      ensures Valid()
      ensures CheckPatch(b).Some? ==> reply == Reply(400, CheckPatch(b).value, None) && profiles == old(profiles)
      ensures CheckPatch(b).None? && id !in old(profiles) ==>
        reply == Reply(404, "Patient not found", None) && profiles == old(profiles)
      ensures CheckPatch(b).None? && id in old(profiles) ==>
        profiles == old(profiles)[id := Patch(old(profiles)[id], b)]
        && reply == Reply(200, "Patient updated successfully", Some(Patch(old(profiles)[id], b)))
    {
      var check := CheckPatch(b);
      if check.Some? {
        return Reply(400, check.value, None);
      }
      if id !in profiles {
        return Reply(404, "Patient not found", None);
      }
      var updated := Patch(profiles[id], b);
      profiles := profiles[id := updated];
      reply := Reply(200, "Patient updated successfully", Some(updated));
    }

    /** deletePatient. */
    method Delete(id: Id) returns (reply: Reply<()>)
      requires Valid()
      modifies this
      ensures Valid()
      ensures id !in old(profiles) ==> reply == Reply(404, "Patient not found", None) && profiles == old(profiles)
      ensures id in old(profiles) ==>
        reply == Reply(200, "Patient deleted successfully", None) && profiles == old(profiles) - {id}
    {
      if id !in profiles {
        return Reply(404, "Patient not found", None);
      }
      profiles := profiles - {id};
      reply := Reply(200, "Patient deleted successfully", None);
    }
  }

  /** Submitting the same request twice leaves one profile for the user: created first, then overwritten. */
  method UpsertTwice(store: PatientStore, r: UpsertRequest, knownUsers: set<Id>, id1: Id, id2: Id)
    returns (first: Reply<Profile>, second: Reply<Profile>)
    requires store.Valid() && id1 !in store.profiles && id2 !in store.profiles && id1 != id2
    requires CheckUpsert(r).None? && r.user in knownUsers && Trim(r.fullName) != ""
    requires !HasProfile(store.profiles, r.user)
    modifies store
    ensures first.status == 201 && second.status == 200
    ensures store.profiles == old(store.profiles)[id1 := BuildProfile(r)]
    ensures store.Valid()
  {
    first := store.CreateOrUpdate(r, knownUsers, id1);
    ghost var mid := store.profiles;
    second := store.CreateOrUpdate(r, knownUsers, id2);
    ghost var k :| k in mid && mid[k].user == r.user && store.profiles == mid[k := BuildProfile(r)];
    OverwriteOwnProfile(mid, k, id1);
  }

  /** Under the unique index, the profile of a user is the only one under that user's key. */
  lemma OverwriteOwnProfile(profiles: map<Id, Profile>, k: Id, id: Id)
    requires UniqueUsers(profiles) && k in profiles && id in profiles && profiles[k].user == profiles[id].user
    ensures profiles[k := profiles[id]] == profiles
  {
    assert k == id;
  }

  /** Resubmitting a user's profile without a file clears the picture stored before. */
  method ResubmitWithoutFile(store: PatientStore, r: UpsertRequest, knownUsers: set<Id>, freshId: Id)
    returns (reply: Reply<Profile>)
    requires store.Valid() && freshId !in store.profiles
    requires CheckUpsert(r).None? && r.user in knownUsers && Trim(r.fullName) != "" && r.file.None?
    requires HasProfile(store.profiles, r.user)
    modifies store
    ensures reply.status == 200
    ensures forall k :: k in store.profiles && store.profiles[k].user == r.user ==> store.profiles[k].profilePicture.None?
  {
    reply := store.CreateOrUpdate(r, knownUsers, freshId);
  }
}
