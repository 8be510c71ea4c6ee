/**
 * Request and record shapes of the appointment API, with the field-length
 * bounds the request models enforce and the defaults the record models fill
 * in. Identifiers (uuid4) and timestamps (utcnow) are chosen by the caller.
 */
module Models {
  import opened Wrappers

  /** A point in time, as the store orders it (a datetime of the source). */
  type Timestamp = int

  /** The four appointment statuses the server accepts and the panel offers. */
  const Statuses: seq<string> := ["pending", "confirmed", "completed", "cancelled"]

  predicate ValidStatus(s: string) {
    s == "pending" || s == "confirmed" || s == "completed" || s == "cancelled"
  }

  lemma StatusesAreTheValidOnes(s: string)
    ensures s in Statuses <==> ValidStatus(s)
  {
  }

  /** A required text field bounded by min_length and max_length. */
  predicate Within(s: string, lo: nat, hi: nat) {
    lo <= |s| <= hi
  }

  /** An Optional text field with a max_length: absent, or not too long. */
  predicate AtMost(o: Option<string>, hi: nat) {
    o.None? || |o.value| <= hi
  }

  /** The request fields that carry a bound (wire names in snake_case). */
  datatype Field =
    | ClientName | FirstName | LastName | Name | Phone | Company | Business
    | Industry | Service | ServiceInterests | Message

  /** The field when its check fails, nothing otherwise. */
  function Blame(ok: bool, field: Field): (errs: seq<Field>)
    ensures field in errs <==> !ok
    ensures forall e :: e in errs ==> e == field
  {
    if ok then [] else [field]
  }

  // ---------------------------------------------------------------- status checks

  datatype StatusCheckCreate = StatusCheckCreate(clientName: string, message: Option<string>)

  datatype StatusCheck = StatusCheck(id: string, clientName: string, message: Option<string>,
                                     timestamp: Timestamp)

  predicate ValidStatusCheckCreate(c: StatusCheckCreate) {
    Within(c.clientName, 1, 100) && AtMost(c.message, 500)
  }

  /** Whether field f of a status-check request breaks its bound. */
  predicate StatusCheckFieldBroken(c: StatusCheckCreate, f: Field) {
    match f
    case ClientName => !Within(c.clientName, 1, 100)
    case Message => !AtMost(c.message, 500)
    case _ => false
  }

  /** The fields of a status-check request that break their bounds, each once. */
  function StatusCheckCreateErrors(c: StatusCheckCreate): (errs: seq<Field>)
    ensures forall f :: f in errs <==> StatusCheckFieldBroken(c, f)
    ensures errs == [] <==> ValidStatusCheckCreate(c)
  {
    Blame(Within(c.clientName, 1, 100), ClientName) + Blame(AtMost(c.message, 500), Message)
  }

  /** StatusCheck(**data): the request's fields, a fresh id and the current time. */
  function NewStatusCheck(c: StatusCheckCreate, id: string, now: Timestamp): (r: StatusCheck)
    ensures r.id == id && r.timestamp == now
    ensures StatusCheckCreate(r.clientName, r.message) == c
  {
    StatusCheck(id, c.clientName, c.message, now)
  }

  // ---------------------------------------------------------------- contact forms

  datatype ContactFormCreate = ContactFormCreate(
    firstName: string, lastName: string, email: string,
    phone: Option<string>, company: Option<string>, industry: Option<string>,
    service: Option<string>, message: string)

  datatype ContactForm = ContactForm(
    id: string, firstName: string, lastName: string, email: string,
    phone: Option<string>, company: Option<string>, industry: Option<string>,
    service: Option<string>, message: string, submittedAt: Timestamp, status: string)

  predicate ValidContactFormCreate(c: ContactFormCreate) {
    Within(c.firstName, 1, 50) && Within(c.lastName, 1, 50) &&
    AtMost(c.phone, 20) && AtMost(c.company, 100) && AtMost(c.industry, 50) &&
    AtMost(c.service, 50) && Within(c.message, 1, 1000)
  }

  /** Whether field f of a contact-form request breaks its bound. */
  predicate ContactFormFieldBroken(c: ContactFormCreate, f: Field) {
    match f
    case FirstName => !Within(c.firstName, 1, 50)
    case LastName => !Within(c.lastName, 1, 50)
    case Phone => !AtMost(c.phone, 20)
    case Company => !AtMost(c.company, 100)
    case Industry => !AtMost(c.industry, 50)
    case Service => !AtMost(c.service, 50)
    case Message => !Within(c.message, 1, 1000)
    case _ => false
  }

  /** The fields of a contact-form request that break their bounds, each once. */
  function ContactFormCreateErrors(c: ContactFormCreate): (errs: seq<Field>)
    ensures forall f :: f in errs <==> ContactFormFieldBroken(c, f)
    ensures errs == [] <==> ValidContactFormCreate(c)
  {
    var personal := Blame(Within(c.firstName, 1, 50), FirstName) +
                    Blame(Within(c.lastName, 1, 50), LastName) +
                    Blame(AtMost(c.phone, 20), Phone);
    var business := Blame(AtMost(c.company, 100), Company) +
                    Blame(AtMost(c.industry, 50), Industry) +
                    Blame(AtMost(c.service, 50), Service);
    personal + business + Blame(Within(c.message, 1, 1000), Message)
  }

  /** The request fields a stored contact form was built from. */
  function ContactFormFields(f: ContactForm): ContactFormCreate {
    ContactFormCreate(f.firstName, f.lastName, f.email, f.phone, f.company, f.industry,
                      f.service, f.message)
  }

  /** ContactForm(**data): the request's fields, a fresh id, the time, status "new". */
  function NewContactForm(c: ContactFormCreate, id: string, now: Timestamp): (r: ContactForm)
    ensures r.id == id && r.submittedAt == now && r.status == "new"
    ensures ContactFormFields(r) == c
  {
    ContactForm(id, c.firstName, c.lastName, c.email, c.phone, c.company, c.industry,
                c.service, c.message, now, "new")
  }

  // ---------------------------------------------------------------- appointments

  datatype AppointmentCreate = AppointmentCreate(
    name: string, email: string, phone: string,
    business: Option<string>, industry: Option<string>, serviceInterests: Option<string>,
    appointmentDate: string, appointmentTime: string, message: Option<string>)

  /** A stored appointment; status is free text, as in the record model. */
  datatype Appointment = Appointment(
    id: string, name: string, email: string, phone: string,
    business: Option<string>, industry: Option<string>, serviceInterests: Option<string>,
    appointmentDate: string, appointmentTime: string, message: Option<string>,
    createdAt: Timestamp, status: string)

  predicate ValidAppointmentCreate(c: AppointmentCreate) {
    Within(c.name, 1, 100) && Within(c.phone, 10, 20) &&
    AtMost(c.business, 100) && AtMost(c.industry, 50) &&
    AtMost(c.serviceInterests, 200) && AtMost(c.message, 1000)
  }

  /**
   * Whether field f of an appointment request breaks its bound. The date and
   * the time carry no bound: their format is only documented, never checked.
   */
  predicate AppointmentFieldBroken(c: AppointmentCreate, f: Field) {
    match f
    case Name => !Within(c.name, 1, 100)
    case Phone => !Within(c.phone, 10, 20)
    case Business => !AtMost(c.business, 100)
    case Industry => !AtMost(c.industry, 50)
    case ServiceInterests => !AtMost(c.serviceInterests, 200)
    case Message => !AtMost(c.message, 1000)
    case _ => false
  }

  /** The fields of an appointment request that break their bounds, each once. */
  function AppointmentCreateErrors(c: AppointmentCreate): (errs: seq<Field>)
    ensures forall f :: f in errs <==> AppointmentFieldBroken(c, f)
    ensures errs == [] <==> ValidAppointmentCreate(c)
  {
    var contact := Blame(Within(c.name, 1, 100), Name) + Blame(Within(c.phone, 10, 20), Phone);
    var business := Blame(AtMost(c.business, 100), Business) +
                    Blame(AtMost(c.industry, 50), Industry) +
                    Blame(AtMost(c.serviceInterests, 200), ServiceInterests);
    contact + business + Blame(AtMost(c.message, 1000), Message)
  }

  /** The request fields a stored appointment was built from. */
  function AppointmentFields(a: Appointment): AppointmentCreate {
    AppointmentCreate(a.name, a.email, a.phone, a.business, a.industry, a.serviceInterests,
                      a.appointmentDate, a.appointmentTime, a.message)
  }

  /** Appointment(**data): the request's fields, a fresh id, the time, status "pending". */
  function NewAppointment(c: AppointmentCreate, id: string, now: Timestamp): (r: Appointment)
    ensures r.id == id && r.createdAt == now && r.status == "pending"
    ensures ValidStatus(r.status)
    ensures AppointmentFields(r) == c
  {
    Appointment(id, c.name, c.email, c.phone, c.business, c.industry, c.serviceInterests,
                c.appointmentDate, c.appointmentTime, c.message, now, "pending")
  }

  /** Changing the status of a record keeps everything it was created from. */
  lemma StatusChangeKeepsFields(a: Appointment, s: string)
    ensures AppointmentFields(a.(status := s)) == AppointmentFields(a)
    ensures a.(status := s).id == a.id && a.(status := s).createdAt == a.createdAt
  {
  }
}
