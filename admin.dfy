/**
 * The admin panel's data logic: the component state (the appointment list,
 * the loading flag, the error text, the status filter, the selected
 * appointment and the id whose status update is in flight) and the steps
 * that change it, plus the pure helpers the panel renders with. A network
 * call is split at its await: a Begin step issues the request, a Finish
 * step takes the response as a parameter.
 */
module Admin {
  import opened Wrappers
  import opened Models
  import Decimal
  import Text

  const FetchFailedFallback := "Failed to fetch appointments"
  const LoadFailedFallback := "Failed to load appointments"
  const UpdateFailedFallback := "Failed to update status"
  const UpdateAlertPrefix := "Failed to update appointment status: "

  /** JavaScript's `detail || fallback`: a missing or empty detail gives way to the fallback. */
  function OrElse(detail: Option<string>, fallback: string): (m: string)
    ensures detail.Some? && detail.value != "" ==> m == detail.value
    ensures detail.None? || detail.value == "" ==> m == fallback
  {
    if detail.Some? && detail.value != "" then detail.value else fallback
  }

  // ---------------------------------------------------------------- requests

  /** The list request's target: the filter travels as status_filter only when it is non-empty. */
  function LoadTarget(statusFilter: string): string {
    if statusFilter != "" then "/api/appointments?status_filter=" + statusFilter
    else "/api/appointments"
  }

  /**
   * The list request, against the backend's base URL: it carries a query
   * string exactly when a filter is chosen, and then ends with the filter.
   */
  function LoadUrl(backend: string, statusFilter: string): (url: string)
    ensures |url| >= |backend| + |statusFilter| && url[..|backend|] == backend
    ensures '?' in url[|backend|..] <==> statusFilter != ""
    ensures url[|url| - |statusFilter|..] == statusFilter
  {
    var path := "/api/appointments";
    assert '?' !in path;
    assert statusFilter != "" ==> LoadTarget(statusFilter)[|path|] == '?';
    var url := backend + LoadTarget(statusFilter);
    assert url[|backend|..] == LoadTarget(statusFilter);
    url
  }

  /** The status update request; its JSON body carries the new status alone. */
  function StatusUrl(backend: string, appointmentId: string): (url: string)
    ensures |url| >= |backend| + |appointmentId| + 7 && url[..|backend|] == backend
    ensures url[|url| - |appointmentId| - 7..|url| - 7] == appointmentId
    ensures url[|url| - 7..] == "/status"
    ensures url[|backend|..|url| - |appointmentId| - 7] == "/api/appointments/"
  {
    backend + "/api/appointments/" + appointmentId + "/status"
  }

  /** How a list request ends: a 2xx with the list, another status with an optional detail, or a throw. */
  datatype LoadResponse =
    | LoadOk(data: seq<Appointment>)
    | LoadNotOk(detail: Option<string>)
    | LoadThrew(message: string)

  /** How a status update ends. */
  datatype UpdateResponse =
    | UpdateOk
    | UpdateNotOk(detail: Option<string>)
    | UpdateThrew(message: string)

  /** The error a failed load shows: the detail, else the fetch fallback; a thrown error's message, else the load fallback. */
  function LoadError(response: LoadResponse): (m: string)
    requires !response.LoadOk?
    ensures m != ""
    ensures response.LoadNotOk? && response.detail.Some? && response.detail.value != "" ==>
              m == response.detail.value
    ensures response.LoadNotOk? && (response.detail.None? || response.detail.value == "") ==>
              m == FetchFailedFallback
    ensures response.LoadThrew? ==> m == OrElse(Some(response.message), LoadFailedFallback)
  {
    match response
    case LoadNotOk(detail) => OrElse(Some(OrElse(detail, FetchFailedFallback)), LoadFailedFallback)
    case LoadThrew(message) => OrElse(Some(message), LoadFailedFallback)
  }

  /** The alert a status update raises: none on success, otherwise the prefix and the reason. */
  function UpdateAlert(response: UpdateResponse): (alert: Option<string>)
    ensures alert.None? <==> response.UpdateOk?
    ensures response.UpdateNotOk? ==>
              alert == Some(UpdateAlertPrefix + OrElse(response.detail, UpdateFailedFallback))
    ensures response.UpdateThrew? ==> alert == Some(UpdateAlertPrefix + response.message)
  {
    match response
    case UpdateOk => None
    case UpdateNotOk(detail) => Some(UpdateAlertPrefix + OrElse(detail, UpdateFailedFallback))
    case UpdateThrew(message) => Some(UpdateAlertPrefix + message)
  }

  // ---------------------------------------------------------------- local patches

  /** `appointments.map(apt => apt.id === id ? {...apt, status} : apt)` */
  function PatchStatus(appointments: seq<Appointment>, id: string, s: string): seq<Appointment> {
    seq(|appointments|, i requires 0 <= i < |appointments| =>
      if appointments[i].id == id then appointments[i].(status := s) else appointments[i])
  }

  /**
   * Only the status of the entries with that id changes: same length, same
   * other entries, and those entries keep every field they were created with.
   */
  lemma PatchStatusOnlyTouchesTarget(appointments: seq<Appointment>, id: string, s: string)
    ensures |PatchStatus(appointments, id, s)| == |appointments|
    ensures forall i :: 0 <= i < |appointments| && appointments[i].id != id ==>
              PatchStatus(appointments, id, s)[i] == appointments[i]
    ensures forall i :: 0 <= i < |appointments| && appointments[i].id == id ==>
              PatchStatus(appointments, id, s)[i].status == s &&
              PatchStatus(appointments, id, s)[i].id == id &&
              PatchStatus(appointments, id, s)[i].createdAt == appointments[i].createdAt &&
              AppointmentFields(PatchStatus(appointments, id, s)[i]) == AppointmentFields(appointments[i])
  {
  }

  /** Patching twice with the same status is patching once; an absent id changes nothing. */
  lemma PatchStatusIdempotent(appointments: seq<Appointment>, id: string, s: string)
    ensures PatchStatus(PatchStatus(appointments, id, s), id, s) == PatchStatus(appointments, id, s)
    ensures (forall i :: 0 <= i < |appointments| ==> appointments[i].id != id) ==>
              PatchStatus(appointments, id, s) == appointments
  {
  }

  /**
   * Line 69-71 as written: the test reads the selection captured when the
   * button was clicked, the patch applies to the selection current when the
   * response arrives. The selection is never cleared once set, so a captured
   * selection implies a current one.
   */
  function PatchSelectionAsWritten(captured: Option<Appointment>, current: Option<Appointment>,
                                   id: string, s: string): (r: Option<Appointment>)
    requires captured.Some? ==> current.Some?
    ensures r.Some? <==> current.Some?
    ensures captured.None? || captured.value.id != id ==> r == current
    ensures captured.Some? && captured.value.id == id ==>
              r.value.status == s && r.value.id == current.value.id &&
              r.value.createdAt == current.value.createdAt &&
              AppointmentFields(r.value) == AppointmentFields(current.value)
  {
    if captured.Some? && captured.value.id == id then Some(current.value.(status := s)) else current
  }

  /** What the code means: patch the current selection only if it is the appointment updated. */
  function PatchSelection(current: Option<Appointment>, id: string, s: string): (r: Option<Appointment>)
    ensures r.None? <==> current.None?
    ensures current.Some? && current.value.id != id ==> r == current
    ensures current.Some? && current.value.id == id ==>
              r.value.status == s && r.value == current.value.(status := s)
  {
    if current.Some? && current.value.id == id then Some(current.value.(status := s)) else current
  }

  /** When the selection did not change while the request was in flight, both agree. */
  lemma PatchSelectionAgreesWhenSelectionKept(selection: Option<Appointment>, id: string, s: string)
    ensures PatchSelectionAsWritten(selection, selection, id, s) == PatchSelection(selection, id, s)
  {
  }

  /**
   * Select A, click "confirmed", select B (pending) before the response: as
   * written, B is shown as confirmed although only A was updated.
   */
  lemma StaleSelectionPatchesWrongAppointment(a: Appointment, b: Appointment)
    requires a.id == "a" && b.id == "b" && b.status == "pending"
    ensures PatchSelectionAsWritten(Some(a), Some(b), "a", "confirmed") == Some(b.(status := "confirmed"))
    ensures PatchSelectionAsWritten(Some(a), Some(b), "a", "confirmed") != Some(b)
    ensures PatchSelection(Some(b), "a", "confirmed") == Some(b)
  {
    assert "a" != "b";
    assert "pending" != "confirmed";
  }

  // ---------------------------------------------------------------- buttons

  /** A status button is disabled while the selection's update is in flight, or when it names its current status. */
  predicate StatusButtonDisabled(updatingStatus: Option<string>, selected: Appointment, button: string) {
    updatingStatus == Some(selected.id) || selected.status == button
  }

  /** The buttons, in order, that a click can reach (the panel shows the four of Statuses). */
  function EnabledButtons(buttons: seq<string>, updatingStatus: Option<string>, selected: Appointment)
    : (r: seq<string>)
    ensures |r| <= |buttons|
    ensures forall b :: b in r <==> b in buttons && !StatusButtonDisabled(updatingStatus, selected, b)
  {
    if buttons == [] then []
    else (if StatusButtonDisabled(updatingStatus, selected, buttons[0]) then [] else [buttons[0]]) +
         EnabledButtons(buttons[1..], updatingStatus, selected)
  }

  /** While the selection's own update is in flight, no status can be requested for it. */
  lemma {:induction false} InFlightSelectionOffersNothing(buttons: seq<string>, updatingStatus: Option<string>,
                                                          selected: Appointment)
    requires updatingStatus == Some(selected.id)
    ensures EnabledButtons(buttons, updatingStatus, selected) == []
  {
    if buttons != [] {
      InFlightSelectionOffersNothing(buttons[1..], updatingStatus, selected);
    }
  }

  /**
   * Otherwise every status but the current one can be requested, so a click
   * never asks for the status the appointment already has.
   */
  lemma IdleSelectionOffersOtherStatuses(updatingStatus: Option<string>, selected: Appointment)
    requires updatingStatus != Some(selected.id)
    ensures selected.status !in EnabledButtons(Statuses, updatingStatus, selected)
    ensures forall b :: b in Statuses && b != selected.status ==> b in EnabledButtons(Statuses, updatingStatus, selected)
  {
  }

  // ---------------------------------------------------------------- counts

  datatype Counts = Counts(total: nat, pending: nat, confirmed: nat, completed: nat, cancelled: nat)

  /** `appointments.filter(apt => apt.status === s).length` */
  function CountStatus(appointments: seq<Appointment>, s: string): (n: nat)
    ensures n <= |appointments|
  {
    if appointments == [] then 0
    else (if appointments[0].status == s then 1 else 0) + CountStatus(appointments[1..], s)
  }

  /** The totals shown above the list: the list length and one bucket per status. */
  function AppointmentCounts(appointments: seq<Appointment>): (c: Counts)
    ensures c.total == |appointments|
    ensures c.pending <= c.total && c.confirmed <= c.total && c.completed <= c.total && c.cancelled <= c.total
  {
    Counts(|appointments|,
           CountStatus(appointments, "pending"), CountStatus(appointments, "confirmed"),
           CountStatus(appointments, "completed"), CountStatus(appointments, "cancelled"))
  }

  function StatusesOf(appointments: seq<Appointment>): seq<string> {
    seq(|appointments|, i requires 0 <= i < |appointments| => appointments[i].status)
  }

  /** A bucket is the number of exact matches: the multiplicity of s among the statuses. */
  lemma {:induction false} CountIsMultiplicity(appointments: seq<Appointment>, s: string)
    ensures CountStatus(appointments, s) == multiset(StatusesOf(appointments))[s]
  {
    if appointments != [] {
      assert StatusesOf(appointments) == [appointments[0].status] + StatusesOf(appointments[1..]);
      CountIsMultiplicity(appointments[1..], s);
    }
  }

  /** When every status is one of the four, the four buckets add up to the total. */
  lemma {:induction false} BucketsSumToTotal(appointments: seq<Appointment>)
    requires forall i :: 0 <= i < |appointments| ==> ValidStatus(appointments[i].status)
    ensures var c := AppointmentCounts(appointments);
            c.pending + c.confirmed + c.completed + c.cancelled == c.total
  {
    if appointments != [] {
      BucketsSumToTotal(appointments[1..]);
    }
  }

  lemma PatchStatusFirst(appointments: seq<Appointment>, id: string, s: string)
    requires appointments != []
    ensures PatchStatus(appointments, id, s) ==
              [if appointments[0].id == id then appointments[0].(status := s) else appointments[0]] +
              PatchStatus(appointments[1..], id, s)
  {
  }

  /**
   * A successful update of the one entry with that id moves it from its old
   * bucket to the new one and leaves every other bucket as it was.
   */
  lemma {:induction false} PatchMovesOneCount(appointments: seq<Appointment>, k: nat, s: string, t: string)
    requires k < |appointments|
    requires forall i :: 0 <= i < |appointments| && i != k ==> appointments[i].id != appointments[k].id
    ensures CountStatus(PatchStatus(appointments, appointments[k].id, s), t) ==
              CountStatus(appointments, t) - (if appointments[k].status == t then 1 else 0)
                                           + (if s == t then 1 else 0)
  {
    var id := appointments[k].id;
    PatchStatusFirst(appointments, id, s);
    if k == 0 {
      PatchStatusIdempotent(appointments[1..], id, s);
    } else {
      PatchMovesOneCount(appointments[1..], k - 1, s, t);
    }
  }

  /** The panel's own example: one pending and one confirmed appointment, then the first is confirmed. */
  lemma CountsExample(a: Appointment, b: Appointment)
    requires a.id == "1" && a.status == "pending" && b.id == "2" && b.status == "confirmed"
    ensures AppointmentCounts([a, b]) == Counts(2, 1, 1, 0, 0)
    ensures PatchStatus([a, b], "1", "confirmed") == [a.(status := "confirmed"), b]
    ensures AppointmentCounts(PatchStatus([a, b], "1", "confirmed")) == Counts(2, 0, 2, 0, 0)
  {
    var confirmedA := a.(status := "confirmed");
    assert [a, b][1..] == [b] && [confirmedA, b][1..] == [b] && [b][1..] == [];
    assert CountStatus([b], "pending") == 0 && CountStatus([b], "confirmed") == 1;
    assert CountStatus([b], "completed") == 0 && CountStatus([b], "cancelled") == 0;
    assert "1" != "2";
    assert PatchStatus([a, b], "1", "confirmed") == [confirmedA, b];
  }

  // ---------------------------------------------------------------- display helpers

  const ConfirmedClasses := "bg-green-500/10 border-green-500/20 text-green-400"
  const CompletedClasses := "bg-blue-500/10 border-blue-500/20 text-blue-400"
  const CancelledClasses := "bg-red-500/10 border-red-500/20 text-red-400"
  const PendingClasses := "bg-yellow-500/10 border-yellow-500/20 text-yellow-400"

  /** The badge colours: green, blue and red for three statuses, yellow for pending and anything else. */
  function StatusColor(status: string): (c: string)
    ensures status == "confirmed" ==> c == ConfirmedClasses
    ensures status == "completed" ==> c == CompletedClasses
    ensures status == "cancelled" ==> c == CancelledClasses
    ensures status != "confirmed" && status != "completed" && status != "cancelled" ==> c == PendingClasses
  {
    if status == "confirmed" then ConfirmedClasses
    else if status == "completed" then CompletedClasses
    else if status == "cancelled" then CancelledClasses
    else PendingClasses
  }

  /** The four statuses get four different colours. */
  lemma StatusColorsDistinct()
    ensures StatusColor("pending") != StatusColor("confirmed")
    ensures StatusColor("pending") != StatusColor("completed")
    ensures StatusColor("pending") != StatusColor("cancelled")
    ensures StatusColor("confirmed") != StatusColor("completed")
    ensures StatusColor("confirmed") != StatusColor("cancelled")
    ensures StatusColor("completed") != StatusColor("cancelled")
  {
  }

  /** The hour (text before the first colon) and the minute (between the first and second), if any. */
  function HourAndMinute(text: string): (hm: (string, Option<string>))
    ensures ':' !in hm.0 && (hm.1.Some? ==> ':' !in hm.1.value)
    ensures hm.1.None? <==> ':' !in text
    ensures hm.1.None? ==> hm.0 == text
  {
    var (hour, rest) := Text.SplitAt(text, ':');
    (hour, if rest.None? then None else Some(Text.SplitAt(rest.value, ':').0))
  }

  /** 12-hour clock: 0 is 12, 13 and later lose 12; the other hours are kept. */
  function DisplayHour(h: nat): (d: nat)
    ensures d % 12 == h % 12
    ensures h <= 24 ==> 1 <= d <= 12
  {
    if h > 12 then h - 12 else if h == 0 then 12 else h
  }

  /**
   * formatTime: "h:mm AM/PM". A missing minute prints as "undefined" and an
   * hour that does not start with a digit (parseInt gives NaN) as "NaN" with "AM".
   */
  function FormatTime(text: string): (t: string)
    ensures |t| > 3 && (t[|t| - 3..] == " AM" || t[|t| - 3..] == " PM")
    ensures t[|t| - 3..] == " PM" <==> Decimal.ParseLeading(HourAndMinute(text).0).Some? &&
                                       Decimal.ParseLeading(HourAndMinute(text).0).value >= 12
  {
    var (hour, minute) := HourAndMinute(text);
    var parsed := Decimal.ParseLeading(hour);
    var hourText := if parsed.None? then "NaN" else Decimal.Show(DisplayHour(parsed.value));
    var minuteText := if minute.None? then "undefined" else minute.value;
    var period := if parsed.Some? && parsed.value >= 12 then "PM" else "AM";
    var t := hourText + ":" + minuteText + " " + period;
    assert t[|t| - 3..] == " " + period;
    assert (" " + "AM")[1] != (" " + "PM")[1];
    t
  }

  /** The pieces `split(':')` yields for hh:mm, with or without seconds. */
  lemma HourAndMinuteOfClock(hh: string, mm: string, seconds: string)
    requires ':' !in hh && ':' !in mm
    requires seconds == [] || seconds[0] == ':'
    ensures HourAndMinute(hh + ":" + mm + seconds) == (hh, Some(mm))
  {
    assert hh + ":" + mm + seconds == hh + [':'] + (mm + seconds);
    Text.SplitAtJoin(hh, ':', mm + seconds);
    if seconds == [] {
      assert mm + seconds == mm;
      Text.SplitAtAbsent(mm, ':');
    } else {
      assert mm + seconds == mm + [':'] + seconds[1..];
      Text.SplitAtJoin(mm, ':', seconds[1..]);
    }
  }

  /**
   * For an hour of 0 to 23 written in digits and a minute without a colon
   * (seconds may follow after another colon): 0 reads 12 AM, 1 to 11 keep
   * their value with AM, 12 reads 12 PM and 13 to 23 lose 12 with PM; the
   * minute is copied as it is.
   */
  lemma FormatTimeOfClock(hh: string, mm: string, seconds: string)
    requires hh != [] && Decimal.AllDigits(hh) && Decimal.Value(hh) < 24
    requires ':' !in mm
    requires seconds == [] || seconds[0] == ':'
    ensures var h := Decimal.Value(hh);
            var (display, period) := if h == 0 then (12, "AM")
                                     else if h < 12 then (h, "AM")
                                     else if h == 12 then (12, "PM")
                                     else (h - 12, "PM");
            FormatTime(hh + ":" + mm + seconds) == Decimal.Show(display) + ":" + mm + " " + period
  {
    assert ':' !in hh by {
      forall i | 0 <= i < |hh| ensures hh[i] != ':' {
        assert Decimal.IsDigit(hh[i]);
      }
    }
    HourAndMinuteOfClock(hh, mm, seconds);
    Decimal.ParseLeadingDigits(hh, []);
    assert hh + [] == hh;
  }


  // ---------------------------------------------------------------- component state

  /** The admin panel's state and the handlers that update it. */
  class AdminPanel {
    var appointments: seq<Appointment>
    var loading: bool
    var error: string
    var statusFilter: string
    var selectedAppointment: Option<Appointment>
    /** The id whose status update is in flight: at most one. */
    var updatingStatus: Option<string>

    constructor ()
      ensures appointments == [] && loading && error == "" && statusFilter == ""
      ensures selectedAppointment == None && updatingStatus == None
    {
      appointments, loading, error, statusFilter := [], true, "", "";
      selectedAppointment, updatingStatus := None, None;
    }

    /** The filter drop-down; changing the filter is what triggers a new load. */
    method ChooseStatusFilter(filter: string)
      modifies this`statusFilter
      ensures statusFilter == filter
    {
      statusFilter := filter;
    }

    /** A click on a list entry selects it as the one detail view. */
    method SelectAppointment(appointment: Appointment)
      modifies this`selectedAppointment
      ensures selectedAppointment == Some(appointment)
    {
      selectedAppointment := Some(appointment);
    }

    /** The start of a load: spinner on, error cleared, the request for the current filter issued. */
    method BeginLoad(backend: string) returns (url: string)
      modifies this`loading, this`error
      ensures loading && error == ""
      ensures url == LoadUrl(backend, statusFilter)
    {
      loading := true;
      error := "";
      url := LoadUrl(backend, statusFilter);
    }

    /**
     * The end of a load: a 2xx replaces the list wholesale; anything else
     * empties it and shows the error. The spinner stops either way.
     */
    method FinishLoad(response: LoadResponse)
      modifies this`appointments, this`error, this`loading
      ensures !loading
      ensures response.LoadOk? ==> appointments == response.data && error == old(error)
      ensures !response.LoadOk? ==> appointments == [] && error == LoadError(response)
    {
      match response {
        case LoadOk(data) =>
          appointments := data;
        case _ =>
          error := LoadError(response);
          appointments := [];
      }
      loading := false;
    }

    /** fetchAppointments from start to end, given how its request ends. */
    method FetchAppointments(backend: string, response: LoadResponse) returns (url: string)
      modifies this`appointments, this`error, this`loading
      ensures url == LoadUrl(backend, statusFilter)
      ensures !loading
      ensures response.LoadOk? ==> appointments == response.data && error == ""
      ensures !response.LoadOk? ==> appointments == [] && error == LoadError(response) && error != ""
    {
      url := BeginLoad(backend);
      FinishLoad(response);
    }

    /**
     * The start of a status update: the id is marked in flight (so the
     * selection's buttons are disabled) and the request is issued.
     */
    method BeginStatusUpdate(backend: string, appointmentId: string) returns (url: string)
      modifies this`updatingStatus
      ensures updatingStatus == Some(appointmentId)
      ensures url == StatusUrl(backend, appointmentId)
      ensures selectedAppointment.Some? && selectedAppointment.value.id == appointmentId ==>
                forall b :: StatusButtonDisabled(updatingStatus, selectedAppointment.value, b)
    {
      updatingStatus := Some(appointmentId);
      url := StatusUrl(backend, appointmentId);
    }

    /**
     * The end of a status update: on a 2xx the entries with that id and, if
     * it is that appointment, the selection take the new status; otherwise
     * nothing changes and an alert says why. The in-flight mark is cleared.
     */
    method FinishStatusUpdate(appointmentId: string, newStatus: string, response: UpdateResponse)
      returns (alert: Option<string>)
      modifies this`appointments, this`selectedAppointment, this`updatingStatus
      ensures updatingStatus == None
      ensures alert == UpdateAlert(response)
      ensures response.UpdateOk? ==>
                appointments == PatchStatus(old(appointments), appointmentId, newStatus) &&
                selectedAppointment == PatchSelection(old(selectedAppointment), appointmentId, newStatus)
      ensures !response.UpdateOk? ==>
                appointments == old(appointments) && selectedAppointment == old(selectedAppointment)
    {
      if response.UpdateOk? {
        appointments := PatchStatus(appointments, appointmentId, newStatus);
        selectedAppointment := PatchSelection(selectedAppointment, appointmentId, newStatus);
      }
      alert := UpdateAlert(response);
      updatingStatus := None;
    }

    /** updateAppointmentStatus from start to end, given how its request ends. */
    method UpdateAppointmentStatus(backend: string, appointmentId: string, newStatus: string,
                                   response: UpdateResponse)
      returns (url: string, alert: Option<string>)
      modifies this`appointments, this`selectedAppointment, this`updatingStatus
      ensures url == StatusUrl(backend, appointmentId)
      ensures updatingStatus == None
      ensures alert == UpdateAlert(response)
      ensures response.UpdateOk? ==>
                appointments == PatchStatus(old(appointments), appointmentId, newStatus) &&
                selectedAppointment == PatchSelection(old(selectedAppointment), appointmentId, newStatus)
      ensures !response.UpdateOk? ==>
                appointments == old(appointments) && selectedAppointment == old(selectedAppointment)
    {
      url := BeginStatusUpdate(backend, appointmentId);
      alert := FinishStatusUpdate(appointmentId, newStatus, response);
    }
  }
}
