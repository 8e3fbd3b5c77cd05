/**
 * The Appointment schema: three required paths, a status enum defaulting to 'booked', and
 * the `createdAt`/`updatedAt` timestamps the schema keeps. Times are milliseconds.
 */
module AppointmentSchema {
  import opened Common

  type Id = string

  const STATUS_ENUM: seq<string> := ["booked", "completed", "cancelled"]
  const DEFAULT_STATUS := "booked"

  datatype Appointment = Appointment(
    user: Id, doctor: Id, appointmentTime: int, status: string, createdAt: int, updatedAt: int)

  /** The values a new document is given; None is a path left unset. */
  datatype AppointmentInput = AppointmentInput(
    user: Option<Id>, doctor: Option<Id>, appointmentTime: Option<int>, status: Option<string>)

  datatype SchemaError = Required(path: string) | NotInEnum(value: string)

  datatype Validated = Valid(doc: Appointment) | Invalid(error: SchemaError)

  predicate WellFormed(a: Appointment) {
    a.status in STATUS_ENUM && a.createdAt <= a.updatedAt
  }

  /** Validating and saving a new document at time `now`; the first failing path is reported. */
  function Create(input: AppointmentInput, now: int): (r: Validated)
    ensures r.Valid? <==>
      input.user.Some? && input.doctor.Some? && input.appointmentTime.Some?
      && (input.status.None? || input.status.value in STATUS_ENUM)
    ensures r.Valid? ==> WellFormed(r.doc)
    ensures r.Valid? ==>
      r.doc.user == input.user.value && r.doc.doctor == input.doctor.value
      && r.doc.appointmentTime == input.appointmentTime.value
      && r.doc.createdAt == now && r.doc.updatedAt == now
    ensures r.Valid? && input.status.None? ==> r.doc.status == "booked"
    ensures r.Valid? && input.status.Some? ==> r.doc.status == input.status.value
  {
    if input.user.None? then Invalid(Required("user"))
    else if input.doctor.None? then Invalid(Required("doctor"))
    else if input.appointmentTime.None? then Invalid(Required("appointmentTime"))
    else if input.status.Some? && input.status.value !in STATUS_ENUM then Invalid(NotInEnum(input.status.value))
    else
      var status := if input.status.Some? then input.status.value else DEFAULT_STATUS;
      Valid(Appointment(input.user.value, input.doctor.value, input.appointmentTime.value, status, now, now))
  }

  /** Saving a change of status at time `now` (not before the last save): only `status` and `updatedAt` move. */
  function SetStatus(a: Appointment, status: string, now: int): (r: Validated)
    requires WellFormed(a) && a.updatedAt <= now
    ensures r.Valid? <==> status in STATUS_ENUM
    ensures r.Valid? ==> WellFormed(r.doc) && r.doc == a.(status := status, updatedAt := now)
    ensures r.Invalid? ==> r.error == NotInEnum(status)
  {
    if status in STATUS_ENUM then Valid(a.(status := status, updatedAt := now))
    else Invalid(NotInEnum(status))
  }

  /** A document created without a status is booked, and a later change keeps its creation time. */
  lemma CreatedThenCancelled(input: AppointmentInput, t0: int, t1: int)
    requires input.user.Some? && input.doctor.Some? && input.appointmentTime.Some? && input.status.None?
    requires t0 <= t1
    ensures Create(input, t0).Valid? && Create(input, t0).doc.status == "booked"
    ensures var c := SetStatus(Create(input, t0).doc, "cancelled", t1);
            c.Valid? && c.doc.createdAt == t0 && c.doc.updatedAt == t1 && c.doc.status == "cancelled"
  {
  }
}
