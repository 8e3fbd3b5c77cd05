/**
 * The patient's profile page: the form, its field-wise updates, the normalisation of a
 * fetched profile and the payload the submit builds. The stored token and user id are
 * inputs; a chosen file (a `File` object, always truthy) is named by a string.
 */
module PatientProfile {
  import opened Common
  import Patients

  datatype Address = Address(street: string, city: string, state: string, zipCode: string)

  datatype Form = Form(
    fullName: string, email: string, mobile_no: string, age: string, gender: string, bloodGroup: string,
    profilePicture: Option<string>, allergies: seq<string>, address: Address)

  datatype Field = FullName | Email | MobileNo | Age | Gender | BloodGroup

  datatype AddressField = Street | City | State | ZipCode

  const EMPTY_ADDRESS := Address("", "", "", "")

  const INITIAL := Form("", "", "", "", "", "", None, [], EMPTY_ADDRESS)

  /** `handleInputChange`: only the named top-level field changes. */
  function InputChange(f: Form, field: Field, value: string): (r: Form)
    ensures r.fullName == (if field == FullName then value else f.fullName)
    ensures r.email == (if field == Email then value else f.email)
    ensures r.mobile_no == (if field == MobileNo then value else f.mobile_no)
    ensures r.age == (if field == Age then value else f.age)
    ensures r.gender == (if field == Gender then value else f.gender)
    ensures r.bloodGroup == (if field == BloodGroup then value else f.bloodGroup)
    ensures r.profilePicture == f.profilePicture && r.allergies == f.allergies && r.address == f.address
  {
    match field
    case FullName => f.(fullName := value)
    case Email => f.(email := value)
    case MobileNo => f.(mobile_no := value)
    case Age => f.(age := value)
    case Gender => f.(gender := value)
    case BloodGroup => f.(bloodGroup := value)
  }

  /** `handleAddressChange`: only the named address subfield changes; every other field is kept. */
  function AddressChange(f: Form, field: AddressField, value: string): (r: Form)
    ensures r.address.street == (if field == Street then value else f.address.street)
    ensures r.address.city == (if field == City then value else f.address.city)
    ensures r.address.state == (if field == State then value else f.address.state)
    ensures r.address.zipCode == (if field == ZipCode then value else f.address.zipCode)
    ensures r.(address := f.address) == f
  {
    var a := f.address;
    var b := match field
      case Street => a.(street := value)
      case City => a.(city := value)
      case State => a.(state := value)
      case ZipCode => a.(zipCode := value);
    f.(address := b)
  }

  /** `handleAllergiesChange`: the text split at every comma. */
  function AllergiesChange(f: Form, text: string): (r: Form)
    ensures r.allergies == Split(text, ',') && r.(allergies := f.allergies) == f
    ensures |r.allergies| >= 1
  {
    f.(allergies := Split(text, ','))
  }

  /** `handleFileChange`: the chosen file, or none when the selection is empty. */
  function FileChange(f: Form, file: Option<string>): (r: Form)
    ensures r.profilePicture == file && r.(profilePicture := f.profilePicture) == f
  {
    f.(profilePicture := file)
  }

  /**
   * What the allergies input shows: the list joined with commas. Splitting it at its
   * commas gives back a non-empty list none of whose entries holds a comma.
   */
  function AllergiesText(f: Form): (t: string)
    ensures |f.allergies| >= 1 && (forall i :: 0 <= i < |f.allergies| ==> ',' !in f.allergies[i]) ==>
      Split(t, ',') == f.allergies
    ensures (forall i :: 0 <= i < |f.allergies| ==> ',' !in f.allergies[i]) ==> (',' in t <==> |f.allergies| >= 2)
  {
    var t := Join(f.allergies, ',');
    assert (forall i :: 0 <= i < |f.allergies| ==> ',' !in f.allergies[i]) ==> (',' in t <==> |f.allergies| >= 2) by {
      if f.allergies != [] {
        JoinEnds(f.allergies, ',');
      }
    }
    assert |f.allergies| >= 1 && (forall i :: 0 <= i < |f.allergies| ==> ',' !in f.allergies[i]) ==>
      Split(t, ',') == f.allergies by {
      if |f.allergies| >= 1 && (forall i :: 0 <= i < |f.allergies| ==> ',' !in f.allergies[i]) {
        SplitJoin(f.allergies, ',');
      }
    }
    t
  }

  /** The input shows exactly what was typed into it. */
  lemma AllergiesRoundTrip(f: Form, text: string)
    ensures AllergiesText(AllergiesChange(f, text)) == text
  {
    JoinSplit(text, ',');
  }

  /** Retyping what the input shows gives back the list, when the list is non-empty and no entry holds a comma. */
  lemma AllergiesStable(f: Form)
    requires |f.allergies| >= 1 && forall i :: 0 <= i < |f.allergies| ==> ',' !in f.allergies[i]
    ensures AllergiesChange(f, AllergiesText(f)) == f
  {
    SplitJoin(f.allergies, ',');
  }

  // ---------------------------------------------------------------------------
  // Fetching

  /** The profile the server returns; None is a field that is absent or null. */
  datatype Fetched = Fetched(
    fullName: Option<string>, email: Option<string>, mobile_no: Option<string>, age: Option<string>,
    gender: Option<string>, bloodGroup: Option<string>, allergies: Option<seq<string>>, address: Option<Address>)

  /** The form set from a fetched profile: falsy scalars become '', allergies default to [], the address to four empty strings; no picture. */
  function Normalise(p: Fetched): (f: Form)
    ensures f.fullName == OrEmpty(p.fullName) && f.email == OrEmpty(p.email) && f.mobile_no == OrEmpty(p.mobile_no)
    ensures f.age == OrEmpty(p.age) && f.gender == OrEmpty(p.gender) && f.bloodGroup == OrEmpty(p.bloodGroup)
    ensures f.profilePicture.None?
    ensures f.allergies == (if p.allergies.Some? then p.allergies.value else [])
    ensures f.address == (if p.address.Some? then p.address.value else EMPTY_ADDRESS)
  {
    Form(OrEmpty(p.fullName), OrEmpty(p.email), OrEmpty(p.mobile_no), OrEmpty(p.age),
         OrEmpty(p.gender), OrEmpty(p.bloodGroup), None,
         if p.allergies.Some? then p.allergies.value else [],
         if p.address.Some? then p.address.value else EMPTY_ADDRESS)
  }

  /** A profile with nothing in it gives the page's initial form. */
  lemma NormaliseEmpty()
    ensures Normalise(Fetched(None, None, None, None, None, None, None, None)) == INITIAL
  {
  }

  // ---------------------------------------------------------------------------
  // Submitting

  /**
   * A value of the multipart payload: text, the JSON text of a list or of an address
   * (the serialisation itself is not modelled), or the chosen file.
   */
  datatype Value = Text(text: string) | JsonList(list: seq<string>) | JsonAddress(address: Address) | File(name: string)

  datatype Entry = Entry(key: string, value: Value)

  function Keys(entries: seq<Entry>): (ks: seq<string>)
    ensures |ks| == |entries| && forall i :: 0 <= i < |entries| ==> ks[i] == entries[i].key
  {
    if entries == [] then [] else [entries[0].key] + Keys(entries[1..])
  }

  const TEXT_KEYS := ["user", "fullName", "email", "mobile_no", "age", "gender", "bloodGroup", "allergies", "address"]

  /**
   * `handleSubmit` up to the request: None when the token or the user id is missing,
   * otherwise the payload, which carries `profilePicture` only when a file was chosen.
   */
  function Payload(f: Form, token: Option<string>, userId: Option<string>): (r: Option<seq<Entry>>)
    ensures r.None? <==> !Present(token) || !Present(userId)
    ensures r.Some? ==> Keys(r.value) == TEXT_KEYS + (if f.profilePicture.Some? then ["profilePicture"] else [])
    ensures r.Some? ==> r.value[0] == Entry("user", Text(userId.value))
    ensures r.Some? ==> r.value[1..7] == [
      Entry("fullName", Text(f.fullName)), Entry("email", Text(f.email)), Entry("mobile_no", Text(f.mobile_no)),
      Entry("age", Text(f.age)), Entry("gender", Text(f.gender)), Entry("bloodGroup", Text(f.bloodGroup))]
    ensures r.Some? ==> r.value[7] == Entry("allergies", JsonList(f.allergies)) && r.value[8] == Entry("address", JsonAddress(f.address))
    ensures r.Some? && |r.value| == 10 ==> r.value[9] == Entry("profilePicture", File(f.profilePicture.value))
  {
    if !Present(token) || !Present(userId) then None
    else
      var entries := [
        Entry("user", Text(userId.value)), Entry("fullName", Text(f.fullName)), Entry("email", Text(f.email)),
        Entry("mobile_no", Text(f.mobile_no)), Entry("age", Text(f.age)), Entry("gender", Text(f.gender)),
        Entry("bloodGroup", Text(f.bloodGroup)), Entry("allergies", JsonList(f.allergies)),
        Entry("address", JsonAddress(f.address))];
      var all := if f.profilePicture.Some?
                 then entries + [Entry("profilePicture", File(f.profilePicture.value))] else entries;
      assert Keys(entries) == TEXT_KEYS;
      Some(all)
  }

  /** Entry `i` is the first one under `key`. */
  predicate FirstWithKey(entries: seq<Entry>, key: string, i: int) {
    0 <= i < |entries| && entries[i].key == key && forall j :: 0 <= j < i ==> entries[j].key != key
  }

  /** The first entry of the payload under `key`, as `req.body[key]` finds it. */
  function Find(entries: seq<Entry>, key: string): (v: Option<Value>)
    ensures v.None? <==> key !in Keys(entries)
    ensures v.Some? ==> exists i :: FirstWithKey(entries, key, i) && entries[i].value == v.value
  {
    if entries == [] then None
    else if entries[0].key == key then
      assert FirstWithKey(entries, key, 0);
      Some(entries[0].value)
    else
      var rest := Find(entries[1..], key);
      FindStep(entries, key, rest);
      rest
  }

  /** An entry under another key in front does not change what a lookup finds. */
  lemma FindStep(entries: seq<Entry>, key: string, rest: Option<Value>)
    requires entries != [] && entries[0].key != key
    requires rest.None? <==> key !in Keys(entries[1..])
    requires rest.Some? ==> exists i :: FirstWithKey(entries[1..], key, i) && entries[1..][i].value == rest.value
    ensures rest.None? <==> key !in Keys(entries)
    ensures rest.Some? ==> exists i :: FirstWithKey(entries, key, i) && entries[i].value == rest.value
  {
    assert Keys(entries) == [entries[0].key] + Keys(entries[1..]);
    if rest.Some? {
      var i :| FirstWithKey(entries[1..], key, i) && entries[1..][i].value == rest.value;
      assert FirstWithKey(entries, key, i + 1);
    }
  }

  /**
   * `req.body.address` as createOrUpdatePatient reads it from the payload. A multipart
   * body holds only strings, so a sent address arrives as its JSON text, and
   * `address?.street` (like the other subfields) is undefined on a string.
   */
  function ReceivedAddress(entries: seq<Entry>): (a: Option<Patients.AddressInput>)
    ensures a.None? <==> "address" !in Keys(entries)
    ensures a.Some? ==> a.value == Patients.AddressInput(None, None, None, None)
  {
    match Find(entries, "address")
    case None => None
    case Some(_) => Some(Patients.AddressInput(None, None, None, None))
  }

  /**
   * The address typed on the profile page never reaches the stored profile: whatever the
   * form holds, the backend stores four empty strings.
   */
  lemma SubmittedAddressIsLost(f: Form, token: string, userId: string)
    requires token != "" && userId != ""
    ensures var sent := Payload(f, Some(token), Some(userId)).value;
      ReceivedAddress(sent).Some?
      && Patients.DefaultAddress(ReceivedAddress(sent)) == Patients.Address("", "", "", "")
  {
    var sent := Payload(f, Some(token), Some(userId)).value;
    assert Keys(sent)[8] == "address";
  }
}
