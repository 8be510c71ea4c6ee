/**
 * The appointment API: handlers over an in-memory store that stands for the
 * document database. Each collection is a map from document id to record.
 * Store failures are a parameter (the database raising on its read or on its
 * write); identifiers and timestamps are parameters too.
 */
module Server {
  import opened Wrappers
  import opened Models
  import Decimal

  // Status codes of section 15.5 and 15.6 of RFC 9110.
  const BadRequest := 400
  const NotFound := 404
  const Conflict := 409
  const UnprocessableContent := 422
  const InternalServerError := 500

  /** What a handler answers instead of a result. */
  datatype ApiError =
    | HttpError(code: int, detail: string)
      /** The body broke its request model's bounds; the handler never ran. */
    | Unprocessable(fields: seq<Field>)

  const InvalidStatusDetail := "Invalid status. Must be one of: pending, confirmed, completed, cancelled"
  const NotFoundDetail := "Appointment not found"
  const SlotBookedDetail := "This appointment slot is already booked. Please select a different time."
  const StatusUpdatedMessage := "Appointment status updated successfully"

  /** Whether the store raises, and at which of a handler's store calls. */
  datatype StoreFault = Healthy | ReadFails | WriteFails

  /** What escaped a handler's try block: an error it raised itself, or a store exception. */
  datatype Raised = Deliberate(error: ApiError) | StoreException

  /**
   * The handlers' except clauses: an error raised on purpose passes through
   * unchanged, anything else becomes a 500 with the handler's fixed detail.
   */
  function Rethrow(raised: Raised, detail: string): (e: ApiError)
    ensures raised.Deliberate? ==> e == raised.error
    ensures raised.StoreException? ==> e.HttpError? && e.code == InternalServerError && e.detail == detail
  {
    match raised
    case Deliberate(err) => err
    case StoreException => HttpError(InternalServerError, detail)
  }

  datatype StatusUpdated = StatusUpdated(success: bool, message: string)

  datatype Availability =
    | SlotAvailability(available: bool, date: string, time: string, message: string)
    | DayBookings(date: string, bookedTimes: seq<string>, message: string)

  // ---------------------------------------------------------------- store rules

  /** Pending and confirmed appointments hold their slot; completed and cancelled ones do not. */
  predicate HoldsSlot(status: string) {
    status == "pending" || status == "confirmed"
  }

  predicate BooksDay(a: Appointment, date: string) {
    a.appointmentDate == date && HoldsSlot(a.status)
  }

  predicate Books(a: Appointment, date: string, time: string) {
    BooksDay(a, date) && a.appointmentTime == time
  }

  /** Some stored appointment holds the slot at this date and time. */
  predicate SlotTaken(m: map<string, Appointment>, date: string, time: string) {
    exists k :: k in m && Books(m[k], date, time)
  }

  /** The store after `update({'status': s})` on document id. */
  function WithStatus(m: map<string, Appointment>, id: string, s: string): map<string, Appointment>
    requires id in m
  {
    m[id := m[id].(status := s)]
  }

  /** An empty filter (absent or "") keeps every record; otherwise the status must equal it. */
  predicate PassesFilter(filter: string, status: string) {
    filter == "" || status == filter
  }

  /** The query after `where('status', '==', filter)` when the filter is given. */
  function Filtered<T>(m: map<string, T>, statusOf: T -> string, filter: string): (r: map<string, T>)
    ensures r.Keys <= m.Keys
    ensures forall k :: k in r ==> r[k] == m[k] && PassesFilter(filter, statusOf(r[k]))
    ensures forall k :: k in m && PassesFilter(filter, statusOf(m[k])) ==> k in r
    ensures filter == "" ==> r == m
  {
    map k | k in m && PassesFilter(filter, statusOf(m[k])) :: m[k]
  }

  function Min(a: nat, b: nat): nat {
    if a <= b then a else b
  }

  /**
   * docs is an answer of `order_by(key, DESCENDING).limit(limit)` over m:
   * stored records under their own ids, each at most once, newest first,
   * as many as the limit allows, and none left out that is newer than one kept.
   */
  ghost predicate ListedNewestFirst<T>(m: map<string, T>, idOf: T -> string, key: T -> int,
                                       limit: nat, docs: seq<T>) {
    |docs| == Min(limit, |m|) &&
    (forall i :: 0 <= i < |docs| ==> idOf(docs[i]) in m && m[idOf(docs[i])] == docs[i]) &&
    (forall i, j :: 0 <= i < j < |docs| ==> idOf(docs[i]) != idOf(docs[j])) &&
    (forall i, j :: 0 <= i < j < |docs| ==> key(docs[i]) >= key(docs[j])) &&
    (forall k, i :: k in m && 0 <= i < |docs| && (forall j :: 0 <= j < |docs| ==> idOf(docs[j]) != k)
       ==> key(m[k]) <= key(docs[i]))
  }

  /** A key of pool whose record has the largest key. */
  method Newest<T>(m: map<string, T>, key: T -> int, pool: set<string>) returns (best: string)
    requires pool != {} && pool <= m.Keys
    ensures best in pool
    ensures forall k :: k in pool ==> key(m[k]) <= key(m[best])
  {
    best :| best in pool;
    var unseen := pool - {best};
    while unseen != {}
      invariant unseen <= pool && best in pool
      invariant forall k :: k in pool && k !in unseen ==> key(m[k]) <= key(m[best])
      decreases |unseen|
    {
      var k :| k in unseen;
      if key(m[k]) > key(m[best]) {
        best := k;
      }
      unseen := unseen - {k};
    }
  }

  /** The ids of the `limit` records of m with the largest keys, largest first. */
  method NewestFirst<T>(m: map<string, T>, key: T -> int, limit: nat) returns (ids: seq<string>)
    ensures |ids| == Min(limit, |m|)
    ensures forall i :: 0 <= i < |ids| ==> ids[i] in m
    ensures forall i, j :: 0 <= i < j < |ids| ==> ids[i] != ids[j]
    ensures forall i, j :: 0 <= i < j < |ids| ==> key(m[ids[i]]) >= key(m[ids[j]])
    ensures forall k, i :: k in m && k !in ids && 0 <= i < |ids| ==> key(m[k]) <= key(m[ids[i]])
  {
    var rest := m.Keys;
    ids := [];
    while |ids| < limit && rest != {}
      invariant rest <= m.Keys
      invariant forall k :: k in m ==> (k in rest <==> k !in ids)
      invariant forall i :: 0 <= i < |ids| ==> ids[i] in m
      invariant |ids| + |rest| == |m.Keys| && |ids| <= limit
      invariant forall i, j :: 0 <= i < j < |ids| ==> ids[i] != ids[j]
      invariant forall i, j :: 0 <= i < j < |ids| ==> key(m[ids[i]]) >= key(m[ids[j]])
      invariant forall k, i :: k in rest && 0 <= i < |ids| ==> key(m[k]) <= key(m[ids[i]])
      decreases rest
    {
      var best := Newest(m, key, rest);
      ids := ids + [best];
      rest := rest - {best};
    }
    assert |m.Keys| == |m|;
  }

  /** The ids of m, each once, in whatever order the store returns them. */
  method AllKeys<T>(m: map<string, T>) returns (ids: seq<string>)
    ensures forall k :: k in m <==> k in ids
    ensures forall i, j :: 0 <= i < j < |ids| ==> ids[i] != ids[j]
  {
    var rest := m.Keys;
    ids := [];
    while rest != {}
      invariant rest <= m.Keys
      invariant forall k :: k in m ==> (k in rest <==> k !in ids)
      invariant forall k :: k in ids ==> k in m
      invariant forall i, j :: 0 <= i < j < |ids| ==> ids[i] != ids[j]
      decreases rest
    {
      var k :| k in rest;
      ids := ids + [k];
      rest := rest - {k};
    }
  }

  // ---------------------------------------------------------------- lemmas about the rules

  /** A status write keeps every document, and of that document every field but its status. */
  lemma WithStatusTouchesOnlyStatus(m: map<string, Appointment>, id: string, s: string)
    requires id in m
    ensures WithStatus(m, id, s).Keys == m.Keys && |WithStatus(m, id, s)| == |m|
    ensures forall k :: k in m && k != id ==> WithStatus(m, id, s)[k] == m[k]
    ensures WithStatus(m, id, s)[id].status == s
    ensures WithStatus(m, id, s)[id].id == m[id].id && WithStatus(m, id, s)[id].createdAt == m[id].createdAt
    ensures AppointmentFields(WithStatus(m, id, s)[id]) == AppointmentFields(m[id])
  {
    assert WithStatus(m, id, s).Keys == m.Keys;
  }

  /** Writing the same status again changes nothing more. */
  lemma WithStatusIdempotent(m: map<string, Appointment>, id: string, s: string)
    requires id in m
    ensures WithStatus(WithStatus(m, id, s), id, s) == WithStatus(m, id, s)
  {
  }

  /** Once an appointment is booked, its slot is taken: booking it again gets 409. */
  lemma BookingTakesSlot(m: map<string, Appointment>, c: AppointmentCreate, id: string, now: Timestamp)
    ensures SlotTaken(m[id := NewAppointment(c, id, now)], c.appointmentDate, c.appointmentTime)
  {
    var m' := m[id := NewAppointment(c, id, now)];
    assert id in m' && Books(m'[id], c.appointmentDate, c.appointmentTime);
  }

  /**
   * Completing or cancelling the only appointment that holds a slot frees
   * the slot for a new booking.
   */
  lemma ReleasingFreesSlot(m: map<string, Appointment>, id: string, s: string, date: string, time: string)
    requires id in m && !HoldsSlot(s)
    requires forall k :: k in m && k != id ==> !Books(m[k], date, time)
    ensures !SlotTaken(WithStatus(m, id, s), date, time)
  {
    var m' := WithStatus(m, id, s);
    forall k | k in m' ensures !Books(m'[k], date, time) {
      if k == id {
        assert !HoldsSlot(m'[k].status);
      }
    }
  }

  /** The ids of a list of documents. */
  function IdSet<T>(docs: seq<T>, idOf: T -> string): set<string> {
    set i | 0 <= i < |docs| :: idOf(docs[i])
  }

  lemma {:induction false} DistinctIdsCount<T>(docs: seq<T>, idOf: T -> string)
    requires forall i, j :: 0 <= i < j < |docs| ==> idOf(docs[i]) != idOf(docs[j])
    ensures |IdSet(docs, idOf)| == |docs|
  {
    if docs != [] {
      var init := docs[..|docs| - 1];
      DistinctIdsCount(init, idOf);
      var last := idOf(docs[|docs| - 1]);
      assert IdSet(docs, idOf) == IdSet(init, idOf) + {last};
      assert last !in IdSet(init, idOf);
    }
  }

  lemma {:induction false} SubsetCard(a: set<string>, b: set<string>)
    requires a <= b
    ensures |a| <= |b|
    decreases b
  {
    if a != {} {
      var x :| x in a;
      SubsetCard(a - {x}, b - {x});
    }
  }

  /** A listing whose limit is at least the number of matches returns every match. */
  lemma ListingCompleteUnderLimit<T>(m: map<string, T>, idOf: T -> string, key: T -> int,
                                     limit: nat, docs: seq<T>)
    requires ListedNewestFirst(m, idOf, key, limit, docs)
    requires |m| <= limit
    ensures forall k :: k in m ==> exists i :: 0 <= i < |docs| && idOf(docs[i]) == k
  {
    var ids := IdSet(docs, idOf);
    DistinctIdsCount(docs, idOf);
    assert ids <= m.Keys;
    assert |m.Keys| == |m|;
    forall k | k in m ensures exists i :: 0 <= i < |docs| && idOf(docs[i]) == k {
      if k !in ids {
        SubsetCard(ids, m.Keys - {k});
        assert false;
      }
    }
  }

  /** The document database behind the API: three collections keyed by document id. */
  class Database {
    var appointments: map<string, Appointment>
    var contactForms: map<string, ContactForm>
    var statusChecks: map<string, StatusCheck>

    /**
     * Every record sits under its own id, and every appointment status is
     * one of the four, since only the handlers below write the store.
     */
    ghost predicate Valid()
      reads this
    {
      (forall k :: k in appointments ==> appointments[k].id == k && ValidStatus(appointments[k].status)) &&
      (forall k :: k in contactForms ==> contactForms[k].id == k) &&
      (forall k :: k in statusChecks ==> statusChecks[k].id == k)
    }

    constructor ()
      ensures Valid()
      ensures appointments == map[] && contactForms == map[] && statusChecks == map[]
    {
      appointments, contactForms, statusChecks := map[], map[], map[];
    }

    /** POST /status: store a status check under a fresh id. */
    method CreateStatusCheck(input: StatusCheckCreate, newId: string, now: Timestamp, writeFails: bool)
      returns (r: Result<StatusCheck, ApiError>)
      requires Valid()
      modifies this
      ensures Valid()
      ensures appointments == old(appointments) && contactForms == old(contactForms)
      ensures !ValidStatusCheckCreate(input) ==> r == Failure(Unprocessable(StatusCheckCreateErrors(input)))
      ensures ValidStatusCheckCreate(input) && writeFails ==>
                r == Failure(HttpError(InternalServerError, "Failed to create status check"))
      ensures r.Success? <==> ValidStatusCheckCreate(input) && !writeFails
      ensures r.Success? ==> r.value == NewStatusCheck(input, newId, now) &&
                             statusChecks == old(statusChecks)[newId := r.value]
      ensures r.Failure? ==> statusChecks == old(statusChecks)
    {
      var errs := StatusCheckCreateErrors(input);
      if errs != [] {
        return Failure(Unprocessable(errs));
      }
      var check := NewStatusCheck(input, newId, now);
      if writeFails {
        return Failure(HttpError(InternalServerError, "Failed to create status check"));
      }
      statusChecks := statusChecks[newId := check];
      return Success(check);
    }

    /** GET /status: the newest status checks, at most limit of them. */
    method GetStatusChecks(limit: int := 100, readFails: bool := false) returns (r: Result<seq<StatusCheck>, ApiError>)
      requires Valid()
      ensures r.Failure? <==> readFails || limit < 0
      ensures r.Failure? ==> r.error == HttpError(InternalServerError, "Failed to retrieve status checks")
      ensures r.Success? ==> ListedNewestFirst(statusChecks, (c: StatusCheck) => c.id,
                                               (c: StatusCheck) => c.timestamp, limit, r.value)
    {
      if readFails || limit < 0 {
        return Failure(HttpError(InternalServerError, "Failed to retrieve status checks"));
      }
      var key := (c: StatusCheck) => c.timestamp;
      var ids := NewestFirst(statusChecks, key, limit);
      var found: seq<StatusCheck> := [];
      for i := 0 to |ids|
        invariant |found| == i
        invariant forall j :: 0 <= j < i ==> found[j] == statusChecks[ids[j]]
      {
        found := found + [statusChecks[ids[i]]];
      }
      return Success(found);
    }

    /** POST /contact: store a contact form under a fresh id, status "new". */
    method SubmitContactForm(input: ContactFormCreate, newId: string, now: Timestamp, writeFails: bool)
      returns (r: Result<ContactForm, ApiError>)
      requires Valid()
      modifies this
      ensures Valid()
      ensures appointments == old(appointments) && statusChecks == old(statusChecks)
      ensures !ValidContactFormCreate(input) ==> r == Failure(Unprocessable(ContactFormCreateErrors(input)))
      ensures ValidContactFormCreate(input) && writeFails ==>
                r == Failure(HttpError(InternalServerError, "Failed to submit contact form"))
      ensures r.Success? <==> ValidContactFormCreate(input) && !writeFails
      ensures r.Success? ==> r.value == NewContactForm(input, newId, now) &&
                             contactForms == old(contactForms)[newId := r.value]
      ensures r.Failure? ==> contactForms == old(contactForms)
    {
      var errs := ContactFormCreateErrors(input);
      if errs != [] {
        return Failure(Unprocessable(errs));
      }
      var form := NewContactForm(input, newId, now);
      if writeFails {
        return Failure(HttpError(InternalServerError, "Failed to submit contact form"));
      }
      contactForms := contactForms[newId := form];
      return Success(form);
    }

    /** GET /contact: the newest contact forms passing the status filter, at most limit. */
    method GetContactForms(limit: int := 100, statusFilter: string := "", readFails: bool := false)
      returns (r: Result<seq<ContactForm>, ApiError>)
      requires Valid()
      ensures r.Failure? <==> readFails || limit < 0
      ensures r.Failure? ==> r.error == HttpError(InternalServerError, "Failed to retrieve contact forms")
      ensures r.Success? ==> forall f :: f in r.value ==> PassesFilter(statusFilter, f.status)
      ensures r.Success? ==>
        ListedNewestFirst(Filtered(contactForms, (f: ContactForm) => f.status, statusFilter),
                          (f: ContactForm) => f.id, (f: ContactForm) => f.submittedAt, limit, r.value)
    {
      if readFails || limit < 0 {
        return Failure(HttpError(InternalServerError, "Failed to retrieve contact forms"));
      }
      var query := Filtered(contactForms, (f: ContactForm) => f.status, statusFilter);
      var ids := NewestFirst(query, (f: ContactForm) => f.submittedAt, limit);
      var found: seq<ContactForm> := [];
      for i := 0 to |ids|
        invariant |found| == i
        invariant forall j :: 0 <= j < i ==> found[j] == query[ids[j]]
      {
        found := found + [query[ids[i]]];
      }
      return Success(found);
    }

    /**
     * POST /appointments: refuse a slot that a pending or confirmed
     * appointment holds (409), otherwise store the request as a pending
     * appointment under a fresh id.
     */
    method CreateAppointment(input: AppointmentCreate, newId: string, now: Timestamp, fault: StoreFault)
      returns (r: Result<Appointment, ApiError>)
      requires Valid()
      modifies this
      ensures Valid()
      ensures contactForms == old(contactForms) && statusChecks == old(statusChecks)
      ensures !ValidAppointmentCreate(input) ==>
                r == Failure(Unprocessable(AppointmentCreateErrors(input)))
      ensures ValidAppointmentCreate(input) && fault == ReadFails ==>
                r == Failure(HttpError(InternalServerError, "Failed to create appointment"))
      ensures ValidAppointmentCreate(input) && fault != ReadFails &&
              SlotTaken(old(appointments), input.appointmentDate, input.appointmentTime) ==>
                r == Failure(HttpError(Conflict, SlotBookedDetail))
      ensures ValidAppointmentCreate(input) && fault == WriteFails &&
              !SlotTaken(old(appointments), input.appointmentDate, input.appointmentTime) ==>
                r == Failure(HttpError(InternalServerError, "Failed to create appointment"))
      ensures r.Success? <==> ValidAppointmentCreate(input) && fault == Healthy &&
                              !SlotTaken(old(appointments), input.appointmentDate, input.appointmentTime)
      ensures r.Success? ==> r.value == NewAppointment(input, newId, now) &&
                             appointments == old(appointments)[newId := r.value]
      ensures r.Failure? ==> appointments == old(appointments)
    {
      var errs := AppointmentCreateErrors(input);
      if errs != [] {
        return Failure(Unprocessable(errs));
      }
      var raised: Option<Raised> := None;
      if fault == ReadFails {
        raised := Some(StoreException);
      } else {
        var existing := map k | k in appointments &&
                                Books(appointments[k], input.appointmentDate, input.appointmentTime)
                              :: appointments[k];
        if |existing| > 0 {
          assert existing != map[];
          assert exists k :: k in existing;
          raised := Some(Deliberate(HttpError(Conflict, SlotBookedDetail)));
        } else {
          assert existing == map[];
          assert !SlotTaken(appointments, input.appointmentDate, input.appointmentTime) by {
            forall k | k in appointments
              ensures !Books(appointments[k], input.appointmentDate, input.appointmentTime)
            {
              assert k !in existing;
            }
          }
          var appointment := NewAppointment(input, newId, now);
          if fault == WriteFails {
            raised := Some(StoreException);
          } else {
            appointments := appointments[newId := appointment];
            return Success(appointment);
          }
        }
      }
      return Failure(Rethrow(raised.value, "Failed to create appointment"));
    }

    /** GET /appointments: the newest appointments passing the status filter, at most limit. */
    method GetAppointments(limit: int := 100, statusFilter: string := "", readFails: bool := false)
      returns (r: Result<seq<Appointment>, ApiError>)
      requires Valid()
      ensures r.Failure? <==> readFails || limit < 0
      ensures r.Failure? ==> r.error == HttpError(InternalServerError, "Failed to retrieve appointments")
      ensures r.Success? ==> forall a :: a in r.value ==>
                               a.id in appointments && appointments[a.id] == a &&
                               PassesFilter(statusFilter, a.status)
      ensures r.Success? ==>
        ListedNewestFirst(Filtered(appointments, (a: Appointment) => a.status, statusFilter),
                          (a: Appointment) => a.id, (a: Appointment) => a.createdAt, limit, r.value)
    {
      if readFails || limit < 0 {
        return Failure(HttpError(InternalServerError, "Failed to retrieve appointments"));
      }
      var query := Filtered(appointments, (a: Appointment) => a.status, statusFilter);
      var ids := NewestFirst(query, (a: Appointment) => a.createdAt, limit);
      var found: seq<Appointment> := [];
      for i := 0 to |ids|
        invariant |found| == i
        invariant forall j :: 0 <= j < i ==> found[j] == query[ids[j]]
      {
        found := found + [query[ids[i]]];
      }
      return Success(found);
    }

    /**
     * PUT /appointments/{id}/status: check the new status against the four
     * values (400), then that the appointment exists (404), then write its
     * status field alone.
     */
    method UpdateAppointmentStatus(appointmentId: string, requested: Option<string>, fault: StoreFault)
      returns (r: Result<StatusUpdated, ApiError>)
      requires Valid()
      modifies this
      ensures Valid()
      ensures contactForms == old(contactForms) && statusChecks == old(statusChecks)
      ensures (requested.None? || !ValidStatus(requested.value)) ==>
                r == Failure(HttpError(BadRequest, InvalidStatusDetail))
      ensures requested.Some? && ValidStatus(requested.value) && fault == ReadFails ==>
                r == Failure(HttpError(InternalServerError, "Failed to update appointment status"))
      ensures requested.Some? && ValidStatus(requested.value) && fault != ReadFails &&
              appointmentId !in old(appointments) ==>
                r == Failure(HttpError(NotFound, NotFoundDetail))
      ensures requested.Some? && ValidStatus(requested.value) && fault == WriteFails &&
              appointmentId in old(appointments) ==>
                r == Failure(HttpError(InternalServerError, "Failed to update appointment status"))
      ensures r.Success? <==> requested.Some? && ValidStatus(requested.value) && fault == Healthy &&
                              appointmentId in old(appointments)
      ensures r.Success? ==> r.value == StatusUpdated(true, StatusUpdatedMessage) &&
                             appointments == WithStatus(old(appointments), appointmentId, requested.value)
      ensures r.Failure? ==> appointments == old(appointments)
    {
      var raised: Raised;
      if requested.None? || !ValidStatus(requested.value) {
        raised := Deliberate(HttpError(BadRequest, InvalidStatusDetail));
      } else if fault == ReadFails {
        raised := StoreException;
      } else if appointmentId !in appointments {
        raised := Deliberate(HttpError(NotFound, NotFoundDetail));
      } else if fault == WriteFails {
        raised := StoreException;
      } else {
        appointments := WithStatus(appointments, appointmentId, requested.value);
        return Success(StatusUpdated(true, StatusUpdatedMessage));
      }
      return Failure(Rethrow(raised, "Failed to update appointment status"));
    }

    /**
     * GET /appointments/availability: with a time, whether the slot is free;
     * without one (absent or ""), the times held on that date. docs are the
     * appointments the query returned, in the store's order.
     */
    method CheckAvailability(date: string, time: string, readFails: bool)
      returns (r: Result<Availability, ApiError>, ghost docs: seq<string>)
      requires Valid()
      ensures r.Failure? <==> readFails
      ensures r.Failure? ==> r.error == HttpError(InternalServerError, "Failed to check availability")
      ensures r.Success? && time != "" ==>
                r.value.SlotAvailability? && r.value.date == date && r.value.time == time &&
                (r.value.available <==> !SlotTaken(appointments, date, time)) &&
                r.value.message == (if r.value.available then "Time slot is available"
                                    else "Time slot is already booked")
      ensures r.Success? && time == "" ==>
                r.value.DayBookings? && r.value.date == date &&
                |r.value.bookedTimes| == |docs| &&
                (forall i :: 0 <= i < |docs| ==>
                   docs[i] in appointments && BooksDay(appointments[docs[i]], date) &&
                   r.value.bookedTimes[i] == appointments[docs[i]].appointmentTime) &&
                (forall i, j :: 0 <= i < j < |docs| ==> docs[i] != docs[j]) &&
                (forall k :: k in appointments && BooksDay(appointments[k], date) ==> k in docs) &&
                r.value.message == "Found " + Decimal.Show(|r.value.bookedTimes|) +
                                   " booked appointments for this date"
    {
      docs := [];
      if readFails {
        return Failure(HttpError(InternalServerError, "Failed to check availability")), docs;
      }
      if time != "" {
        var query := map k | k in appointments && Books(appointments[k], date, time) :: appointments[k];
        var available := |query| == 0;
        if available {
          assert query == map[];
          forall k | k in appointments ensures !Books(appointments[k], date, time) {
            assert k !in query;
          }
        } else {
          assert query != map[];
          assert exists k :: k in query;
        }
        var message := if available then "Time slot is available" else "Time slot is already booked";
        return Success(SlotAvailability(available, date, time, message)), docs;
      }
      var query := map k | k in appointments && BooksDay(appointments[k], date) :: appointments[k];
      var ids := AllKeys(query);
      var bookedTimes := seq(|ids|, i requires 0 <= i < |ids| => query[ids[i]].appointmentTime);
      docs := ids;
      forall i | 0 <= i < |docs|
        ensures docs[i] in appointments && BooksDay(appointments[docs[i]], date)
        ensures bookedTimes[i] == appointments[docs[i]].appointmentTime
      {
        assert ids[i] in query;
      }
      return Success(DayBookings(date, bookedTimes,
                                 "Found " + Decimal.Show(|bookedTimes|) + " booked appointments for this date")),
             docs;
    }
  }

  /**
   * GET /appointments with neither query parameter: the limit defaults to
   * 100 and no filter applies, so the newest 100 appointments come back,
   * and a store holding at most 100 is listed in full.
   */
  method ListAppointmentsByDefault(db: Database) returns (r: Result<seq<Appointment>, ApiError>)
    requires db.Valid()
    ensures r.Success?
    ensures |r.value| == Min(100, |db.appointments|)
    ensures |db.appointments| <= 100 ==>
              forall k :: k in db.appointments ==> exists i :: 0 <= i < |r.value| && r.value[i].id == k
  {
    r := db.GetAppointments();
    var all := Filtered(db.appointments, (a: Appointment) => a.status, "");
    assert all == db.appointments;
    if |db.appointments| <= 100 {
      ListingCompleteUnderLimit(all, (a: Appointment) => a.id, (a: Appointment) => a.createdAt, 100, r.value);
    }
  }
}
