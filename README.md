# Docucare core, modelled in Dafny

Docucare is a clinic application: an Express/MongoDB backend and a React frontend. This
project models the parts of it that hold logic and proves what they promise.

- **OTP login** (`Auth`). The authentication controller keeps a module-level `otpStorage`
  object (contact key to `{ otp, expiresAt }`) and the users collection. Together they form
  the class `AuthController`.
  - `Register` runs the six ordered checks of `registerUser`.
  - `Login` writes a fresh six-digit code that expires after five minutes.
  - `VerifyOtp` runs the guard chain of `verifyOTP`, which spends a code on a match.
  - `Logout` clears a stored access token.
  - Scenario methods prove single use, overwrite by a second login, and retry followed by
    expiry.
- **Backend records** (`Patients`, `Doctors`, `AppointmentSchema`).
  - The three mongoose schemas are modelled as datatypes with validity predicates.
  - The patient and doctor controllers are classes whose collection is a `map` field keyed
    by document id. Their handlers return a `Reply` (status, message, optional payload)
    and update the map.
  - Patient upserts keep at most one profile per user, which is the schema's unique index.
  - Doctor updates follow `$set` semantics: the fields a body carries are replaced and the
    rest are kept.
- **Route tables** (`Router`, `PatientRoutes`, `DoctorRoutes`).
  - Express routing is modelled as first-match over (method, path pattern) in registration
    order, followed by a middleware chain: role check, upload, handler.
  - Lemmas state who reaches which handler. They also prove three facts about the tables:
    - `/patients/doctors` is shadowed by `/:userId`;
    - the medical-history route binds `userid` while its handler reads `id`;
    - the doctor router has no PUT route.
- **Frontend state** (`AuthContext`, `ManagePatients`, `Appointments`, `ManageDoctors`,
  `PatientRecords`, `AdminReports`, `DoctorReports`, `PatientProfile`).
  - The auth context is a class with its three state fields and `localStorage` as a map.
  - Every page handler is a function from the page state to the next state. Server answers
    are an input: the response data or a rejected promise.
  - List updates are stated as "appends one entry", "replaces exactly the entries with
    this id", or "an order-preserving subsequence that keeps exactly the matching entries".
- **Shared pieces** (`Common`, `ListOps`).
  - JavaScript truthiness, ASCII `toLowerCase`, `includes`, `trim`, and `split`/`join` on
    one character, with the split/join round trips proved.
  - `filter` and a keyed `map`.

The clock (`Date.now()`), the random code of `generateOTP`, new document ids, the validator
library, mail delivery and every HTTP call are parameters of the members that use them.

## Model

| member | source | states |
|---|---|---|
| Auth.Decimal | backend/controller/Auth/authControllers.js:28 | `toString` of a natural number: decimal digits only, denoting the number, no leading zero, and exactly as many digits as its magnitude needs |
| Auth.GenerateOtp | backend/controller/Auth/authControllers.js:28 | the code string is exactly six decimal digits with no leading zero, and its value is the drawn integer in [100000, 999999] |
| Auth.GenerateOtpInjective | backend/controller/Auth/authControllers.js:28 | different drawn integers give different code strings |
| Auth.OtpKey | backend/controller/Auth/authControllers.js:111 | the storage key is the email when one is given, else the mobile number; it is non-empty when either is given (the same key is used by verify at :147) |
| Auth.CheckRegistration | backend/controller/Auth/authControllers.js:39-64 | each registration error is reported exactly when its own check fails and every earlier check passed, in the order fields, role, email, mobile, duplicate email, duplicate mobile; no error iff all pass |
| Auth.RegisteredEmailIsTaken | backend/controller/Auth/authControllers.js:56-59 | once a user with an email is stored, registering that email again with otherwise valid fields is refused as taken |
| Auth.AuthController.constructor | backend/controller/Auth/authControllers.js:31 | a freshly loaded controller has an empty OTP store |
| Auth.AuthController.Register | backend/controller/Auth/authControllers.js:34-94 | a failing check answers 400 with its message and stores nothing; otherwise the user is stored with its token before the welcome mail, and the reply is 200 with the token, or 500 when the mail fails |
| Auth.AuthController.Login | backend/controller/Auth/authControllers.js:97-132 | no contact answers 400 and an unknown user 404, both leaving the store unchanged; otherwise the key's entry is overwritten with the six-digit code expiring at now + 300000 before delivery, and only a delivered email answers 200 (the mobile path always answers 500) |
| Auth.AuthController.VerifyOtp | backend/controller/Auth/authControllers.js:135-185 | no contact, a code whose length is not 6, a missing entry or a different code each answer 400 and leave the store unchanged; a match deletes the entry (`Forget`: under the key `__proto__` nothing is removed), answers "OTP expired" when now > expiresAt, otherwise 200 with the token of a matching user or 404 |
| Auth.AuthController.Logout | backend/controller/Auth/authControllers.js:188-209 | a known id has its access token cleared, nothing else changes, and the reply is 200; an unknown id answers 400 with the store unchanged |
| Auth.Forget | backend/controller/Auth/authControllers.js:155-160 | `delete otpStorage[key]` removes the key and keeps every other entry; under `__proto__`, which a plain object holds as its prototype rather than an own property, the storage is unchanged |
| Auth.SingleUse | backend/controller/Auth/authControllers.js:150-165 | after a login, the delivered code verifies once inside the window and its replay is refused as invalid, for every email other than `__proto__` |
| Auth.SecondLoginWins | backend/controller/Auth/authControllers.js:111-114 | a second login overwrites the first code: the first code is refused and the second verifies |
| Auth.RetryThenExpire | backend/controller/Auth/authControllers.js:150-157 | a wrong code leaves the entry for a retry; after the window the right code answers expired, and then invalid because the entry is gone (for every email other than `__proto__`) |
| Auth.PrototypeKeyReplays | backend/controller/Auth/authControllers.js:105-160 | with the email `__proto__` and a stored user's mobile number, the login's code verifies twice and stays in the storage: the delete on a match does nothing |
| Patients.EnumsAgree | backend/models/Patient.js:28-37 | the controller's gender and blood-group lists hold the same values as the schema's enums (controller :6-7), and the blood groups are listed in a different order |
| Patients.CheckUpsert | backend/controller/Patient/patientController.js:17-27 | missing-field, bad-gender and bad-blood-group errors each hold exactly when their own check fails after the earlier ones passed; no error iff all seven fields are truthy and both enums hold |
| Patients.DefaultAddress | backend/controller/Patient/patientController.js:46-51 | each address subfield is the submitted value when truthy and '' otherwise; an absent address gives four empty strings |
| Patients.BuildProfile | backend/controller/Patient/patientController.js:36-52 | the stored document carries the submitted fields, the name trimmed (schema :13), the upload's path or null as picture, and the defaulted address |
| Patients.AcceptedRequestIsSchemaValid | backend/models/Patient.js:5-37 | a request the controller accepts whose name is not only white space gives a document satisfying the schema's required paths, enums and trimmed name |
| Patients.CheckPatch | backend/controller/Patient/patientController.js:119-124 | gender and blood group are checked only when supplied and truthy, gender first; no error iff neither supplied value is outside its list |
| Patients.Patch | backend/controller/Patient/patientController.js:126-130 | the supplied fields among age, gender, blood group, allergies and address replace the stored ones; user, name, email, mobile and picture are kept |
| Patients.PatientStore.constructor | backend/models/Patient.js:9 | an empty collection, which satisfies the unique index on `user` |
| Patients.PatientStore.CreateOrUpdate | backend/controller/Patient/patientController.js:10-80 | 400 with the first failing check's message, 404 for an unknown user, 500 for a name of only white space, each leaving the collection unchanged; otherwise the user's existing profile is overwritten (200), else one is inserted (201), and at most one profile per user is kept |
| Patients.PatientStore.GetByUser | backend/controller/Patient/patientController.js:86-110 | 200 iff a profile of the user exists, and then the payload is such a stored profile; otherwise 404 |
| Patients.PatientStore.GetMedicalHistory | backend/controller/Patient/patientController.js:140-149 | an unbound or unknown id answers 404; a found document answers 200 |
| Patients.PatientStore.Update | backend/controller/Patient/patientController.js:114-137 | an enum failure answers 400 and an unknown id 404, both leaving the collection unchanged; otherwise the document is patched, the others are kept, and the reply is 200 with it |
| Patients.PatientStore.Delete | backend/controller/Patient/patientController.js:162-171 | an unknown id answers 404 with the collection unchanged; otherwise exactly that document is removed and the reply is 200 |
| Patients.UpsertTwice | backend/controller/Patient/patientController.js:55-75 | the same request sent twice creates one profile (201) and then overwrites it (200), leaving exactly one document for the user |
| Patients.ResubmitWithoutFile | backend/controller/Patient/patientController.js:14 | resubmitting a profile without a file clears the picture stored before |
| Doctors.ControllerStricterThanSchema | backend/controller/Doctor/doctorController.js:20 | every body createDoctor accepts satisfies the schema's `fees` requirement (Doctor.js :18), and bodies with fees 0 or with only fees pass the schema but not the controller |
| Doctors.NewDoctor | backend/controller/Doctor/doctorController.js:25-36 | the new document holds exactly the supplied fields; availability defaults to [] and isApproved to false (Doctor.js :11-19) |
| Doctors.ApplySet | backend/controller/Doctor/doctorController.js:77-81 | each field the body carries is replaced and each field it leaves out is kept |
| Doctors.ApplySetIdempotent | backend/controller/Doctor/doctorController.js:79 | applying the same `$set` twice equals applying it once |
| Doctors.ApplySetEmpty | backend/controller/Doctor/doctorController.js:79 | a body with no fields changes nothing |
| Doctors.ApplySetTwice | backend/controller/Doctor/doctorController.js:79 | two updates in a row equal one update with the later values winning |
| Doctors.NewDoctorIsSetOnDefaults | backend/models/Doctor.js:4-19 | creating a doctor equals setting the body's fields on the schema's defaults |
| Doctors.DoctorStore.Create | backend/controller/Doctor/doctorController.js:4-44 | a body failing the five-field guard (0 counts as missing) answers 400 with the collection unchanged; otherwise exactly one new document holding the supplied fields is added and the reply is 201 with it |
| Doctors.DoctorStore.GetById | backend/controller/Doctor/doctorController.js:47-57 | an unknown id answers 404; otherwise 200 with the stored document |
| Doctors.DoctorStore.Update | backend/controller/Doctor/doctorController.js:68-90 | a body with none of the five key fields truthy answers 400 and an unknown id 404, both leaving the collection unchanged; otherwise only that document gets the `$set`, and the reply is 200 with it |
| Doctors.DoctorStore.Delete | backend/controller/Doctor/doctorController.js:93-103 | an unknown id answers 404 with the collection unchanged; otherwise exactly that document is removed |
| Doctors.DeleteThenAccess | backend/controller/Doctor/doctorController.js:50-96 | after a delete, a get and a second delete of the id both answer 404, and an update answers 404 when its body passes the guard and 400 otherwise |
| AppointmentSchema.Create | backend/models/Appointment.js:3-26 | a new document is valid iff user, doctor and appointment time are set and any given status is in the enum; it then carries them, status 'booked' by default, and both timestamps equal the save time |
| AppointmentSchema.SetStatus | backend/models/Appointment.js:19-25 | a status change is valid iff the status is in the enum; only status and updatedAt change, and the document stays well formed |
| AppointmentSchema.CreatedThenCancelled | backend/models/Appointment.js:19-25 | a document created without a status is booked, and cancelling it later keeps its creation time and moves updatedAt |
| Router.Bindings | backend/routes/Patient/patientRoutes.js:23-30 | `req.params` binds exactly the pattern's parameter names, each to the path segment in its place |
| Router.FirstMatch | backend/routes/Patient/patientRoutes.js:12-35 | the index found is the first route in registration order that matches; none is found iff no route matches |
| Router.RunChain | backend/routes/Patient/patientRoutes.js:14-20 | a chain that starts with a role check refuses every role outside its list before any upload; a handler reached is in the chain and gets the route's parameters |
| Router.Dispatch | backend/routes/Doctor/doctorRoutes.js:13-37 | no matching route gives no handler; a reached handler belongs to the first matching route, gets its bindings, and passed its role check; in a table where every route is guarded, reaching a handler needs a verified role |
| PatientRoutes.CreateOrUpdateAccess | backend/routes/Patient/patientRoutes.js:14-20 | POST / reaches createOrUpdatePatient, with the picture uploaded, iff the role is Patient or Admin; any other role is refused before the upload |
| PatientRoutes.GetByUserAccess | backend/routes/Patient/patientRoutes.js:23-25 | GET /:userId reaches getPatientById with `userId` bound iff the role is Patient or Admin; Doctor is refused |
| PatientRoutes.DoctorsIsShadowed | backend/routes/Patient/patientRoutes.js:23-35 | GET /doctors never reaches getAllDoctors; for Patient and Admin it is a patient lookup with `userId` = "doctors" |
| PatientRoutes.MedicalHistoryAccess | backend/routes/Patient/patientRoutes.js:28-30 | GET /:userid/medical-history is reached iff the role is Patient or Doctor, Admin is refused, and the parameter `id` is never bound |
| PatientRoutes.NoHandlerWithoutRole | backend/routes/Patient/patientRoutes.js:12-35 | a request without a verified role reaches no handler |
| PatientRoutes.NeverReached | backend/routes/Patient/patientRoutes.js:2-7 | whatever the request, only createOrUpdatePatient, getPatientById and getMedicalHistory can be reached: updatePatient and deletePatient are not routed, and getAllDoctors is shadowed |
| PatientRoutes.MedicalHistoryAlwaysNotFound | backend/controller/Patient/patientController.js:142-143 | a medical-history request that passes the role check answers 404 whatever the store holds, because the route does not bind `id` |
| DoctorRoutes.RootAccess | backend/routes/Doctor/doctorRoutes.js:13-21 | POST / and GET / are reached iff the role is Admin |
| DoctorRoutes.GetByIdAccess | backend/routes/Doctor/doctorRoutes.js:24-28 | GET /:id is reached iff the role is Admin, Doctor or Patient, and binds `id` |
| DoctorRoutes.WriteByIdAccess | backend/routes/Doctor/doctorRoutes.js:24-36 | PATCH /:id and DELETE /:id are reached iff the role is Admin, and bind `id` |
| DoctorRoutes.NoPutRoute | backend/routes/Doctor/doctorRoutes.js:24-37 | no PUT request, on any path and with any role, matches a route |
| DoctorRoutes.WritesAdminOnly | backend/routes/Doctor/doctorRoutes.js:13-37 | a POST, PATCH or DELETE that reaches a handler carries the Admin role |
| DoctorRoutes.ReachedRoleListed | backend/routes/Doctor/doctorRoutes.js:13-37 | a request that reaches a handler carries one of Admin, Doctor and Patient |
| AuthContext.DashboardFor | frontend/src/context/AuthContext.jsx:38-44 | '/admin-dashboard' iff the role is 'admin', '/doctor-dashboard' iff 'doctor', and '/patient-dashboard' for every other role |
| AuthContext.BackendRolesLandOnPatientDashboard | frontend/src/context/AuthContext.jsx:38-44 | every role the backend issues (authControllers.js :43), Admin and Doctor included, navigates to the patient dashboard |
| AuthContext.AuthState.constructor | frontend/src/context/AuthContext.jsx:8-10 | no user, no role and not authenticated, with storage as the browser holds it |
| AuthContext.AuthState.Mount | frontend/src/context/AuthContext.jsx:14-27 | authenticated iff a non-empty token and a non-empty role are stored, and then user and role are the stored ones; otherwise user and role are null |
| AuthContext.AuthState.Login | frontend/src/context/AuthContext.jsx:30-45 | both keys stored, authenticated, role and user set, and the returned target is the role's dashboard |
| AuthContext.AuthState.Logout | frontend/src/context/AuthContext.jsx:48-55 | both keys removed, the three fields cleared, and '/' returned |
| AuthContext.Lookup | frontend/src/context/AuthContext.jsx:15-16 | `getItem` yields the stored value iff the key is stored, else null |
| AuthContext.LoginThenLogout | frontend/src/context/AuthContext.jsx:30-55 | login then logout leaves no session and no stored token or role, whatever was stored before |
| AuthContext.LoginThenReload | frontend/src/context/AuthContext.jsx:14-45 | a reload after login restores the same session iff the token and the role are both non-empty |
| ManagePatients.InputChange | frontend/src/pages/Admin/ManagePatients.jsx:33-47 | exactly the named form field changes; list, mode and the form's id are kept |
| Common.StampId | frontend/src/pages/Admin/ManagePatients.jsx:54 | the id of `{ id: Date.now(), ...form }` is the form's own id when it has one, else the time (also Appointments.jsx:35) |
| ManagePatients.Stamped | frontend/src/pages/Admin/ManagePatients.jsx:54 | the entry's id is StampId of the form's id, so always present; the other fields are the form's |
| ManagePatients.Add | frontend/src/pages/Admin/ManagePatients.jsx:49-56 | an empty field changes nothing; otherwise exactly one stamped entry is appended, earlier entries are kept in order, the form is reset, and a fresh add gets the time as id |
| ManagePatients.Edit | frontend/src/pages/Admin/ManagePatients.jsx:58-61 | the record becomes the edited one and the form's content, id included |
| ManagePatients.Update | frontend/src/pages/Admin/ManagePatients.jsx:63-71 | the length is kept, the entries with the edited id become the form and all others stay in place; the form is reset and editing cleared |
| ManagePatients.Delete | frontend/src/pages/Admin/ManagePatients.jsx:73-75 | an order-preserving subsequence holding exactly the entries without the id, with each entry kept as often as it occurs in the old list |
| ManagePatients.UpdateKeepsIds | frontend/src/pages/Admin/ManagePatients.jsx:60-66 | while the form's id follows the mode, an update never changes an entry's id |
| ManagePatients.EditChangeUpdate | frontend/src/pages/Admin/ManagePatients.jsx:58-71 | edit, change a field, update: the edited entry keeps its id and entries with other ids are unchanged |
| ManagePatients.UpdateSkipsAddCheck | frontend/src/pages/Admin/ManagePatients.jsx:49-71 | an update stores a form with an empty field, which an add refuses |
| Appointments.InputChange | frontend/src/pages/Admin/Appointments.jsx:23-26 | exactly the named form field changes; list, mode and the form's id are kept |
| Appointments.Stamped | frontend/src/pages/Admin/Appointments.jsx:33-36 | the entry's id is StampId of the form's id, so always present; the other fields are the form's |
| Appointments.Add | frontend/src/pages/Admin/Appointments.jsx:28-38 | an empty field changes nothing; otherwise exactly one stamped entry is appended, earlier entries are kept in order, and the form is reset |
| Appointments.Edit | frontend/src/pages/Admin/Appointments.jsx:40-43 | the appointment becomes the edited one and the form's content |
| Appointments.Update | frontend/src/pages/Admin/Appointments.jsx:45-53 | the length is kept, the entries with the edited id become the form and the others stay in place; the form is reset and editing cleared |
| Appointments.Delete | frontend/src/pages/Admin/Appointments.jsx:55-57 | an order-preserving subsequence holding exactly the entries without the id, with each entry kept as often as it occurs in the old list |
| Appointments.UpdateKeepsIds | frontend/src/pages/Admin/Appointments.jsx:42-50 | while the form's id follows the mode, an update never changes an entry's id |
| Appointments.AddThenDelete | frontend/src/pages/Admin/Appointments.jsx:28-57 | adding and then deleting the new id gives back the list when that id was not in use |
| ManageDoctors.InputChange | frontend/src/pages/Admin/ManageDoctors.jsx:46-60 | exactly the named form field changes; the list, the mode, the id and the availability are kept |
| ManageDoctors.Add | frontend/src/pages/Admin/ManageDoctors.jsx:63-94 | an empty field among the eight, or a failed request, changes nothing; otherwise the server's doctor is appended, earlier entries are kept, and the form is reset |
| ManageDoctors.Edit | frontend/src/pages/Admin/ManageDoctors.jsx:97-100 | the doctor becomes the edited one and the form's content |
| ManageDoctors.Update | frontend/src/pages/Admin/ManageDoctors.jsx:103-126 | a failed request changes nothing; otherwise the entries with the edited id become the server's doctor, the others stay in place, and the form is reset |
| ManageDoctors.Delete | frontend/src/pages/Admin/ManageDoctors.jsx:129-136 | a failed request changes nothing; otherwise an order-preserving subsequence holding exactly the entries without the id, with each entry kept as often as it occurs in the old list |
| ManageDoctors.Through | frontend/src/pages/Admin/ManageDoctors.jsx:104-105 | a request's promise resolves with the data iff the router hands it to a handler and the handler answers 2xx; no route, a refused role and 4xx/5xx answers reject it |
| ManageDoctors.UpdateNeverApplies | frontend/src/pages/Admin/ManageDoctors.jsx:105 | the update's PUT matches no route of the doctor router, so the page's state never changes whatever the path and role |
| ManageDoctors.AddThenDelete | frontend/src/pages/Admin/ManageDoctors.jsx:63-136 | adding a doctor and deleting the id the server gave it restores the list when no other entry had that id |
| PatientRecords.Search | frontend/src/pages/Doctors/PatientRecords.jsx:48-56 | the query is stored lower-cased; the shown list is an order-preserving subsequence of the full list holding exactly the records whose lower-cased name or contact includes it, each as often as in the full list; an empty query shows every record |
| PatientRecords.SearchForgetsPreviousResult | frontend/src/pages/Doctors/PatientRecords.jsx:51-55 | the search result does not depend on the list shown before |
| PatientRecords.SearchAgainIsStable | frontend/src/pages/Doctors/PatientRecords.jsx:49-55 | searching again with the stored query shows the same records |
| PatientRecords.InputChange | frontend/src/pages/Doctors/PatientRecords.jsx:59-62 | exactly the named form field changes |
| PatientRecords.Edit | frontend/src/pages/Doctors/PatientRecords.jsx:107-110 | the record becomes the edited one and the form's content; both lists and the search query are kept |
| PatientRecords.Submit | frontend/src/pages/Doctors/PatientRecords.jsx:65-104 | without a token, or when the request fails, nothing changes; a saved edit keeps both lists; a saved add appends the server's record and shows the whole new list; either success resets the form and clears editing |
| PatientRecords.AddDiscardsSearch | frontend/src/pages/Doctors/PatientRecords.jsx:91-92 | after a search, an add shows every record while the query stays displayed |
| PatientRecords.Delete | frontend/src/pages/Doctors/PatientRecords.jsx:113-134 | without a token, or when the request fails, nothing changes; otherwise both lists become order-preserving subsequences holding exactly the entries without the id, each as often as before |
| PatientRecords.DeleteKeepsSearchResult | frontend/src/pages/Doctors/PatientRecords.jsx:113-134 | deleting after a search gives the same state as searching after the delete: delete and search commute |
| AdminReports.FilterChange | frontend/src/pages/Admin/Reports.jsx:13-21 | the text is stored as typed; the shown list is an order-preserving subsequence of the full list holding exactly the reports whose lower-cased type includes the lower-cased text, each as often as in the full list; an empty text shows every report |
| AdminReports.EmptyBranchIsFilter | frontend/src/pages/Admin/Reports.jsx:16-20 | the empty-text branch shows what filtering with the empty text would |
| AdminReports.TitleNotMatched | frontend/src/pages/Admin/Reports.jsx:17 | a report whose title includes the text but whose type does not is hidden |
| AdminReports.StoredAsTyped | frontend/src/pages/Admin/Reports.jsx:4-21 | on the initial reports, the text 'Doctor' is stored with its capital and matches as 'doctor' would |
| DoctorReports.FilterChange | frontend/src/pages/Doctors/Reports.jsx:39-47 | the text is stored lower-cased; the shown list is an order-preserving subsequence of the full list holding exactly the reports whose lower-cased title or type includes it, each as often as in the full list; an empty text shows every report |
| DoctorReports.RefilterIsStable | frontend/src/pages/Doctors/Reports.jsx:40-46 | filtering again with the stored text shows the same state |
| DoctorReports.NarrowingQuery | frontend/src/pages/Doctors/Reports.jsx:43-45 | a report shown for a query is shown for each of its prefixes |
| PatientProfile.InputChange | frontend/src/pages/Patient/PatientProfile.jsx:69-72 | exactly the named top-level field changes |
| PatientProfile.AddressChange | frontend/src/pages/Patient/PatientProfile.jsx:74-80 | exactly the named address subfield changes; every other field is kept |
| PatientProfile.AllergiesChange | frontend/src/pages/Patient/PatientProfile.jsx:82-84 | the allergies become the comma-split of the text, a non-empty list; nothing else changes |
| PatientProfile.FileChange | frontend/src/pages/Patient/PatientProfile.jsx:86-88 | the picture becomes the chosen file; nothing else changes |
| PatientProfile.AllergiesText | frontend/src/pages/Patient/PatientProfile.jsx:251 | the shown text holds a comma iff the list has two entries or more, when no entry holds one; splitting it gives back such a non-empty list |
| PatientProfile.AllergiesRoundTrip | frontend/src/pages/Patient/PatientProfile.jsx:251 | the allergies input shows exactly the text typed into it |
| PatientProfile.AllergiesStable | frontend/src/pages/Patient/PatientProfile.jsx:82-84 | retyping the shown text gives back a non-empty list whose entries hold no comma |
| PatientProfile.Normalise | frontend/src/pages/Patient/PatientProfile.jsx:43-58 | falsy scalars become '', allergies default to [], the address defaults to four empty strings, and the picture is null |
| PatientProfile.NormaliseEmpty | frontend/src/pages/Patient/PatientProfile.jsx:6-21 | an empty fetched profile gives the page's initial form |
| PatientProfile.Payload | frontend/src/pages/Patient/PatientProfile.jsx:95-115 | nothing is built iff the token or the user id is missing; otherwise the payload's keys are the nine text fields in order, plus profilePicture exactly when a file was chosen; the user entry carries the stored id, the six scalar entries the form's values, and the last entries the allergies, the address and the file |
| PatientProfile.Find | frontend/src/pages/Patient/PatientProfile.jsx:103-115 | a key's value is absent iff no entry has the key, and otherwise is the value of the first entry under that key |
| PatientProfile.ReceivedAddress | frontend/src/pages/Patient/PatientProfile.jsx:112 | the address arrives as JSON text, so each subfield the controller reads (patientController.js :47-50) is undefined |
| PatientProfile.SubmittedAddressIsLost | frontend/src/pages/Patient/PatientProfile.jsx:112 | whatever address the profile form holds, the backend stores four empty strings |
| Common.Contains | frontend/src/pages/Doctors/Reports.jsx:43-45 | `includes` holds iff some position starts an occurrence of the query |
| Common.ContainsEmpty | frontend/src/pages/Doctors/Reports.jsx:44 | every string includes the empty string |
| Common.Lower | frontend/src/pages/Doctors/Reports.jsx:41 | `toLowerCase` keeps the length and maps each character on its own |
| Common.LowerIdempotent | frontend/src/pages/Doctors/PatientRecords.jsx:49-52 | lower-casing twice is lower-casing once |
| Common.Trim | backend/models/Patient.js:13 | the trimmed text is a slice of the input with only white space before and after it; it is empty iff every character is white space, and otherwise starts and ends on a non-space |
| Common.Split | frontend/src/pages/Patient/PatientProfile.jsx:83 | `split` gives a non-empty list of pieces, none holding the separator |
| Common.JoinSplit | frontend/src/pages/Patient/PatientProfile.jsx:83 | joining the pieces of a split gives back the text |
| Common.Join | frontend/src/pages/Patient/PatientProfile.jsx:251 | `join` of no pieces is empty, and otherwise starts with the first piece |
| Common.JoinEnds | frontend/src/pages/Patient/PatientProfile.jsx:251 | a join ends with the last piece; when no piece holds the separator, the separator occurs in it iff there are two pieces or more |
| Common.SplitJoin | frontend/src/pages/Patient/PatientProfile.jsx:251 | splitting a join of a non-empty list whose pieces hold no separator gives back the list |
| ListOps.Filter | frontend/src/pages/Admin/ManagePatients.jsx:74 | `filter` gives an order-preserving subsequence of exactly the elements satisfying the predicate, and the whole list when all do |
| ListOps.FilterCounts | frontend/src/pages/Admin/ManagePatients.jsx:73-75 | a filter keeps each element that satisfies the predicate as often as it occurs in the list, and no other element |
| ListOps.FilterCommutes | frontend/src/pages/Doctors/PatientRecords.jsx:51-55 | two filters applied in either order give the same list |
| ListOps.ReplaceWhere | frontend/src/pages/Admin/ManagePatients.jsx:64-68 | the keyed `map` keeps the length and replaces exactly the elements satisfying the predicate |
| ListOps.FilterAppendRejected | frontend/src/pages/Admin/Appointments.jsx:33-56 | filtering out an appended element from a list whose elements all pass gives the list back |

## Left out

- Database internals: `find*`, `save`, `populate` and `toObject` become map reads and writes, and mongoose casting is not modelled. Two consequences:
  - An unknown or malformed ObjectId answers 404 in the model; mongoose would raise a CastError, and the handler would answer 500.
  - Each field a request leaves undefined is dropped from updates.
- Mongoose version: no version is fixed, and two members assume different ones. Dropping undefined fields from `findByIdAndUpdate` (Patients.Patch) is the behaviour of mongoose 6 and later; mongoose 5 without `omitUndefined` writes them as null. Letting `populate('medicalHistory')` pass on a path the schema lacks (Patients.PatientStore.GetMedicalHistory) is the behaviour before mongoose 6, whose strict populate throws, giving 500.
- getAllDoctors (in both controllers) is not modelled: it lists the collection with no logic of its own. The routing lemmas still name it.
- Numbers arriving as text: the patient's and the form's `age` and `fees` are strings, so a numeric 0 that `||` or `!` rejects (in `profile.age || ''`, say) is not distinguished from "0". The doctor model keeps numbers as integers and does treat 0 as missing.
- Patients.Patch: a body field is either left out (None) or a value, so an explicit JSON null cannot be sent. `{"gender": null}` passes the guard, since null is falsy, and `findByIdAndUpdate` writes null into the document; the model keeps the stored field instead. A partial `address` object would replace the stored address with only its given subfields; the model's body carries a whole four-field address. The same gap applies to Patients.PatientStore.Update.
- Doctors.ApplySet: an explicit null in the `$set` body (`fees: null` beside a truthy `name`, which passes the update guard) is stored as null, because no validators run on update. The model cannot express it: None means the field is left out, and the stored `fees` is an integer. The same gap applies to Doctors.DoctorStore.Update.
- Patients.PatientStore.GetByUser: the populated `user` and the extra `profileImageUrl` field of the reply are not modelled.
- Patients.PatientStore.CreateOrUpdate: a validation failure on save is modelled only for a name of only white space. The allergies that the profile page sends as JSON text are stored as given.
- Patients.PatientStore.GetMedicalHistory: the 200 answer for a found document assumes `populate` ignores a path the schema lacks (`medicalHistory`). A mongoose version with strict populate would throw there, and the handler would answer 500. No mongoose version is fixed.
- AppointmentSchema.Create: reports only the first failing path in the order user, doctor, appointment time, status. A mongoose validation error collects every failing path.
- The schema timestamps of patient profiles are not modelled. Those of appointments are.
- Express details: trailing slashes, case-insensitive paths and URL decoding are not modelled. `VerifyToken` is taken to yield a verified role or none, since its body is not shown.
- Token signing (`jsonwebtoken`, `JWT_SECRET`, the 2-day expiry) is taken as the constructor `Token(id, role)`. A failing `createToken` is not modelled.
- `validator.isEmail` and `isMobilePhone(_, 'en-IN')` are predicate parameters.
- Email and SMS delivery are boolean parameters (whether the send resolved); `sendSMS` is undefined, so the mobile path always fails.
- `Math.random` and `Date.now` are parameters: the drawn integer of `generateOTP`, and `now`.
- Auth.AuthController.VerifyOtp: the token issued on success is stated for some user matching the request, not for the first one `findOne` returns, because document order is not modelled.
- Concurrent requests against the shared `otpStorage` are not modelled; calls are sequential.
- Each page handler is taken as atomic. ManageDoctors and PatientRecords rebuild their lists from the state seen before the request was awaited, so overlapping requests can lose an update; the model does not capture this.
- Cloudinary and Multer storage, `FileReader`, `FormData` and JSON serialisation are not modelled. A chosen file is named by a string, and a serialised value is kept as the value it serialises.
- The fetch effects (`fetchDoctors`, `fetchPatients`, `fetchReports` and the profile fetch) are not modelled, beyond the normalisation of the profile they return.
- Loading flags, toasts, `alert`, JSX rendering and the dashboards' view switching are not modelled.
- A user's `accessToken` of '' is modelled as None.
- The frontend pages compare `.id` where the backend sends `_id`. The model keeps the pages' own field, so it says nothing about that mismatch.
- `toLowerCase` is modelled on ASCII letters only. `trim` removes exactly ECMAScript's white space and line terminators.
