# Appointment admin panel and appointment API, modelled in Dafny

This project models the two parts of the Lead G site that hold state and rules:

- **The appointment API** (`backend/server.py`). Its handlers run over an in-memory `Database` with three collections (appointments, contact forms, status checks). Each collection is a map from document id to record. Booking refuses a slot that a pending or confirmed appointment already holds (409). A status update checks the value against the four statuses (400), then checks that the appointment exists (404), then writes the `status` field and nothing else. The listings filter by status, return the newest records first and stop at `limit`. The availability query reports whether one slot is free, or which times are held on a day.
- **The request models** (`backend/models.py`). They set the length bounds of every request field. They also fill in the defaults: a fresh id, a timestamp, status `"pending"` for an appointment and `"new"` for a contact form. Every record keeps `status` as free text. `ValidStatus` names the four values the server accepts and the panel offers.
- **The admin panel's data logic** (`frontend/src/components/Admin.jsx`). This is the `AdminPanel` class, which holds the list, the loading flag, the error text, the filter, the selection and the in-flight marker. Each network call is split at its `await`. A `Begin` step issues the request. A `Finish` step takes the response as a parameter. The pure helpers are also modelled: per-status counts, the button-disable rule, the badge colours and the 12-hour time formatter.

A last module, `Consistency`, connects the two sides. The filter the panel sends is the filter the API applies. A listing copies stored records. The panel's local patch after a successful update matches the store's write.

Files: `wrappers.dfy` (Option, Result), `text.dfy` (split at a character), `decimal.dfy` (decimal text of numbers and JavaScript's `parseInt` prefix), `models.dfy`, `server.dfy`, `admin.dfy`, `consistency.dfy`.

Store failures, identifiers (`uuid4`), timestamps (`utcnow`), the backend URL and network responses are all parameters of the operations.

Three points about the code shape the model:
- In the code, `status` is free text in every record. The four values the server accepts form the predicate `ValidStatus`.
- A failed update's alert is `"Failed to update appointment status: "` followed by the detail or the thrown message.
- The panel's four count buckets add up to the total only when every listed status is one of the four.

## Model

| member | source | states |
|---|---|---|
| `Decimal.Show` | frontend/src/components/Admin.jsx:125 | the printed form of a number is digits only, with no leading zero, and it denotes that number |
| `Decimal.DigitRun` | frontend/src/components/Admin.jsx:122 | the leading run of digits that `parseInt` reads, ending at the first non-digit |
| `Decimal.ParseLeading` | frontend/src/components/Admin.jsx:122 | `parseInt` gives NaN (None) exactly when the text does not start with a digit |
| `Decimal.ParseLeadingDigits` | frontend/src/components/Admin.jsx:122 | digits followed by a non-digit are read back as their value |
| `Decimal.ParseShow` | frontend/src/components/Admin.jsx:122-125 | parsing a printed number gives the number back (round trip) |
| `Text.SplitAt` | frontend/src/components/Admin.jsx:121 | the text before the first separator has no separator; rejoining the pieces gives the text back |
| `Text.SplitAtJoin` | frontend/src/components/Admin.jsx:121 | splitting `before + sep + after`, with no separator in `before`, gives back both sides |
| `Models.ValidStatus` | backend/server.py:246 | the four statuses the update endpoint accepts; its set form is stated by `StatusesAreTheValidOnes` |
| `Models.StatusesAreTheValidOnes` | backend/server.py:246 | the panel's four buttons are exactly the statuses the server accepts |
| `Models.Blame` | backend/models.py:11 | a failed bound names its field, and a passed one names nothing |
| `Models.StatusCheckCreateErrors` | backend/models.py:9-12 | the reported fields are exactly those that break their bounds (client_name 1..100, message at most 500); none is reported iff the request is valid |
| `Models.NewStatusCheck` | backend/models.py:14-19 | the record keeps the request's fields and takes the given id and time |
| `Models.ContactFormCreateErrors` | backend/models.py:26-35 | the reported fields are exactly those that break their bounds (names 1..50, message 1..1000, optional phone 20, company 100, industry 50, service 50); none is reported iff valid |
| `Models.NewContactForm` | backend/models.py:37-49 | the record keeps the request's fields, takes the given id and time, and has status "new" |
| `Models.AppointmentCreateErrors` | backend/models.py:56-66 | the reported fields are exactly those that break their bounds (name 1..100, phone 10..20, optional business 100, industry 50, service_interests 200, message 1000); date and time are never reported |
| `Models.NewAppointment` | backend/models.py:68-81 | the record keeps the request's fields, takes the given id and time, and has status "pending" |
| `Models.StatusChangeKeepsFields` | backend/server.py:261 | changing the status keeps the id, the creation time and every request field |
| `Server.SlotTaken` | backend/server.py:185-191 | some stored appointment with the same date and time is pending or confirmed; the booking and release lemmas below state how writes change it |
| `Server.WithStatus` | backend/server.py:261 | the store after `update({'status': s})` on one document; what it keeps is stated by `WithStatusTouchesOnlyStatus` |
| `Server.Filtered` | backend/server.py:221-222 | the filtered query keeps exactly the stored records passing the filter, each unchanged; an empty filter keeps the whole collection |
| `Server.Rethrow` | backend/server.py:206-213 | an error the handler raised on purpose passes through unchanged; any other failure becomes a 500 with the handler's fixed detail |
| `Server.Newest` | backend/server.py:219 | picks a record of the pool whose created time is the largest |
| `Server.NewestFirst` | backend/server.py:219-224 | returns min(limit, size) distinct ids, newest first, and leaves out no record newer than one it keeps |
| `Server.AllKeys` | backend/server.py:286 | the query returns every matching document exactly once |
| `Server.WithStatusTouchesOnlyStatus` | backend/server.py:261 | a status write keeps every document and every other field of the target |
| `Server.WithStatusIdempotent` | backend/server.py:261 | writing the same status twice is the same as writing it once |
| `Server.BookingTakesSlot` | backend/server.py:185-204 | after a booking, its slot is taken, so a second booking of that slot gets 409 |
| `Server.ReleasingFreesSlot` | backend/server.py:185-191 | completing or cancelling the only holder of a slot frees that slot |
| `Server.ListingCompleteUnderLimit` | backend/server.py:219-224 | when the limit is at least the number of matches, the listing returns every match |
| `Server.Database.constructor` | backend/database.py:53-55 | the store starts with three empty collections |
| `Server.Database.CreateStatusCheck` | backend/server.py:88-106 | invalid body: 422 with its fields; write failure: 500 "Failed to create status check"; otherwise exactly one record is stored under the new id |
| `Server.Database.GetStatusChecks` | backend/server.py:108-127 | the newest status checks by timestamp, min(limit, size) of them, limit defaulting to 100; a store failure gives 500 "Failed to retrieve status checks" |
| `Server.Database.SubmitContactForm` | backend/server.py:130-148 | invalid body: 422; write failure: 500; otherwise the form is stored under the new id with status "new" |
| `Server.Database.GetContactForms` | backend/server.py:150-174 | only forms passing the status filter, newest first by submission time, min(limit, matches) of them, limit defaulting to 100 and the filter to none; a store failure gives 500 "Failed to retrieve contact forms" |
| `Server.Database.CreateAppointment` | backend/server.py:177-213 | 409 iff a pending or confirmed appointment holds the same date and time; otherwise exactly one pending record is inserted under the new id; on every error the store is unchanged |
| `Server.Database.GetAppointments` | backend/server.py:215-239 | only stored records passing the filter, newest first by created time, min(limit, matches) of them, limit defaulting to 100 and the filter to none; a store failure gives 500 "Failed to retrieve appointments" |
| `Server.ListAppointmentsByDefault` | backend/server.py:215-224 | a call with neither query parameter always succeeds on a healthy store and returns the newest min(100, size) appointments, all of them when there are at most 100 |
| `Server.Database.UpdateAppointmentStatus` | backend/server.py:241-273 | 400 for a value outside the four (checked before the store is read), then 404 "Appointment not found", else only that record's status changes and the answer is success with the fixed message |
| `Server.Database.CheckAvailability` | backend/server.py:275-311 | with a time: available iff no pending or confirmed appointment holds that slot; without one: the held times of that day, each held appointment once, and a message whose count is their number |
| `Admin.StatusUrl` | frontend/src/components/Admin.jsx:50 | the PUT target is the backend's base URL, then "/api/appointments/", then the appointment id, then "/status" |
| `Admin.OrElse` | frontend/src/components/Admin.jsx:34 | a missing or empty detail gives way to the fallback |
| `Admin.LoadUrl` | frontend/src/components/Admin.jsx:24-26 | the list request starts with the backend's base URL, has a query string iff a filter is chosen, and ends with the filter |
| `Admin.LoadError` | frontend/src/components/Admin.jsx:33-39 | a failed load shows the detail, or "Failed to fetch appointments" without one; a thrown error shows its message, or "Failed to load appointments"; never empty |
| `Admin.UpdateAlert` | frontend/src/components/Admin.jsx:72-78 | no alert iff the update succeeded; otherwise the prefix followed by the detail (fallback "Failed to update status") or by the thrown message |
| `Admin.PatchStatus` | frontend/src/components/Admin.jsx:62-66 | the functional update of the list; what it changes is stated by `PatchStatusOnlyTouchesTarget` |
| `Admin.PatchStatusOnlyTouchesTarget` | frontend/src/components/Admin.jsx:60-66 | the patched list has the same length; entries with another id are unchanged; entries with the id get the new status and keep every other field |
| `Admin.PatchStatusIdempotent` | frontend/src/components/Admin.jsx:62-66 | patching twice is patching once, and an id not in the list changes nothing |
| `Admin.PatchSelectionAsWritten` | frontend/src/components/Admin.jsx:69-71 | lines 69-71 as written: when the selection captured at the click has the updated id, the current selection takes the new status and keeps its own id, creation time and every other field, whatever that id is |
| `Admin.PatchSelection` | frontend/src/components/Admin.jsx:68-71 | the selection takes the new status only if it is the updated appointment; otherwise it is unchanged |
| `Admin.PatchSelectionAgreesWhenSelectionKept` | frontend/src/components/Admin.jsx:69-71 | if the selection did not change during the request, the code as written and the corrected patch agree |
| `Admin.StaleSelectionPatchesWrongAppointment` | frontend/src/components/Admin.jsx:69-71 | as written, an appointment selected during the request can take a status that was never sent for it |
| `Admin.StatusButtonDisabled` | frontend/src/components/Admin.jsx:331 | the disable rule: the selection's update is in flight, or the button names its current status |
| `Admin.EnabledButtons` | frontend/src/components/Admin.jsx:327-331 | a status button can be clicked iff it is not disabled |
| `Admin.InFlightSelectionOffersNothing` | frontend/src/components/Admin.jsx:331 | while the selection's own update is in flight, every status button is disabled |
| `Admin.IdleSelectionOffersOtherStatuses` | frontend/src/components/Admin.jsx:327-331 | otherwise every status but the current one can be clicked, and the current one cannot |
| `Admin.CountStatus` | frontend/src/components/Admin.jsx:142-145 | a bucket is never larger than the list |
| `Admin.AppointmentCounts` | frontend/src/components/Admin.jsx:139-148 | the total is the list length, and no bucket exceeds it |
| `Admin.CountIsMultiplicity` | frontend/src/components/Admin.jsx:142-145 | a bucket equals the number of exact matches of its status (its multiplicity) |
| `Admin.BucketsSumToTotal` | frontend/src/components/Admin.jsx:139-148 | when every status is one of the four, the four buckets add up to the total |
| `Admin.PatchStatusFirst` | frontend/src/components/Admin.jsx:63-65 | patching a list patches its first entry and then the rest |
| `Admin.PatchMovesOneCount` | frontend/src/components/Admin.jsx:139-148 | updating the one entry with an id moves it from its old bucket to the new one and leaves the other buckets alone |
| `Admin.CountsExample` | frontend/src/components/Admin.jsx:139-148 | one pending and one confirmed appointment count (2, 1, 1, 0, 0); after confirming the first, (2, 0, 2, 0, 0) |
| `Admin.StatusColor` | frontend/src/components/Admin.jsx:97-108 | green, blue and red for confirmed, completed and cancelled; yellow for pending and for any other text |
| `Admin.StatusColorsDistinct` | frontend/src/components/Admin.jsx:97-108 | the four statuses get four different badge colours |
| `Admin.HourAndMinute` | frontend/src/components/Admin.jsx:121 | `const [hour, minute] = timeString.split(':')`: neither piece holds a colon; the minute is undefined (None) exactly when the text has no colon, and then the hour is the whole text; which pieces a text with a colon yields is stated by `HourAndMinuteOfClock` |
| `Admin.DisplayHour` | frontend/src/components/Admin.jsx:124 | the 12-hour display keeps the hour modulo 12, and for hours up to 24 lies between 1 and 12 |
| `Admin.FormatTime` | frontend/src/components/Admin.jsx:120-126 | the text ends in " PM" exactly when the hour parses to 12 or more, and in " AM" otherwise (also for NaN) |
| `Admin.HourAndMinuteOfClock` | frontend/src/components/Admin.jsx:121 | `split(':')` of hh:mm, with or without seconds, yields hh and mm |
| `Admin.FormatTimeOfClock` | frontend/src/components/Admin.jsx:120-126 | hour 0 reads 12 AM, 1 to 11 read as themselves with AM, 12 reads 12 PM, 13 to 23 lose 12 with PM; the minutes are copied |
| `Admin.AdminPanel.constructor` | frontend/src/components/Admin.jsx:8-13 | starts with an empty list, loading on, no error, no filter, no selection and nothing in flight |
| `Admin.AdminPanel.ChooseStatusFilter` | frontend/src/components/Admin.jsx:203 | the drop-down sets the filter and changes nothing else; the next `BeginLoad` builds its request from it |
| `Admin.AdminPanel.SelectAppointment` | frontend/src/components/Admin.jsx:269 | a click makes that appointment the one selection |
| `Admin.AdminPanel.BeginLoad` | frontend/src/components/Admin.jsx:19-28 | loading on, error cleared, and the request built from the current filter |
| `Admin.AdminPanel.FinishLoad` | frontend/src/components/Admin.jsx:28-42 | success replaces the list wholesale; failure empties the list and sets the error; loading is off after either |
| `Admin.AdminPanel.FetchAppointments` | frontend/src/components/Admin.jsx:19-43 | the whole load: the request for the filter, then the list or an empty list with a non-empty error, then loading off |
| `Admin.AdminPanel.BeginStatusUpdate` | frontend/src/components/Admin.jsx:45-58 | marks the id in flight, which disables all of that selection's buttons, and issues the request |
| `Admin.AdminPanel.FinishStatusUpdate` | frontend/src/components/Admin.jsx:60-81 | success patches the list and the matching selection; failure changes neither and raises the alert; the in-flight mark is cleared either way |
| `Admin.AdminPanel.UpdateAppointmentStatus` | frontend/src/components/Admin.jsx:45-82 | the whole update from request to cleared marker |
| `Consistency.FilterQueryReadsBack` | backend/server.py:216 | the query `status_filter=<f>` is read back by the API as f |
| `Consistency.LoadRequestCarriesFilter` | frontend/src/components/Admin.jsx:24-26 | the list request carries status_filter exactly when the filter is non-empty, and the API then filters by exactly that value |
| `Consistency.ListingMirrorsStore` | backend/server.py:226-232 | every appointment the list endpoint returns is the stored record under its id |
| `Consistency.PatchAgreesWithStore` | frontend/src/components/Admin.jsx:60-66 | if the list copied the store, the locally patched list copies the store after the server's write |
| `Consistency.MirroredCountsAddUp` | frontend/src/components/Admin.jsx:139-148 | the counts of a list copied from the store add up to its total |

## Left out

- Rendering: the JSX, `getStatusIcon` (it returns icon elements), `formatDate` and `formatDateTime`. The last two depend on the locale formatting of JavaScript's `Date`.
- `fetch`, `alert` and `console`. Responses are parameters and the alert text is a result. Logging is not modelled.
- Interleavings are modelled only as sequences of `Begin`/`Finish` steps. The race between a reload and an update response is not analysed. Two updates of different appointments can be in flight at once. The marker holds one id, and the first response clears it. No property about that case is proved.
- The document database, FastAPI wiring, CORS, the health endpoints and the startup hook. The store is an in-memory map. Its failures are the `StoreFault` and `readFails` parameters.
- `EmailStr` validation: email fields take any text. The documented date and time formats are not checked, because the code does not check them.
- A rejected body is modelled as `Unprocessable` with the failing fields, which is how the framework answers 422. The framework's error body is not modelled.
- Re-parsing stored documents on read (`Appointment(**data)` in the listing): the store holds typed records.
- `backend/config.py`, the connection set-up in `backend/database.py`, and the marketing pages. None of them is part of this model.
- `Decimal.ParseLeading`: JavaScript's `parseInt` also skips leading spaces, reads a sign, and reads text starting with "0x" or "0X" as hexadecimal. None of these is modelled. The model reads the digits into an exact `nat`, while `parseInt` returns a double. So only an hour of at most 15 decimal digits, without such a prefix, is read exactly.
- `Admin.FormatTime`: the hour is a `nat`, not a JavaScript Number. Above 2^53 the source rounds the hour, and from 1e21 on `${displayHour}` prints it in exponent form. For example, "12345678901234567890:00" prints as "12345678901234567000:00 PM" in the source, but as the exact digits minus 12 in the model. Hours of at most 15 digits agree.
- `Consistency.ReadTarget`: the query string is split at `&` and `=` without percent-decoding. The lemma covers the drop-down's five values, which need no encoding.
- `Server.Database.GetAppointments`: among appointments with the same `created_at`, the store's order is left open. The same holds for `GetContactForms` and `GetStatusChecks`.
- `Server.Database.GetAppointments`: a negative `limit` is treated as a store error, so it answers 500. The database's own handling of it is not modelled.
- `Server.Database.CheckAvailability`: `booked_times` comes back in the store's order, which is left open. The ghost `docs` names that order.
- `Server.Database.UpdateAppointmentStatus`: the model returns the handler's 404 with "Appointment not found". The app's `exception_handler(404)` at backend/server.py:314-322 is not modelled. The framework routes every 404 raised in a handler to it, so a client receives `{"success": false, "message": "Endpoint not found"}` and never that detail. backend_test.py:481 expects the detail. The same applies to every 404 the model returns.
- `Server.Database.CreateAppointment`: each handler is one atomic step over the store. In the code the slot query (backend/server.py:185-189) and the write (:200-201) are separate store calls, not a transaction. So "409 iff the slot is taken" and `Server.BookingTakesSlot` hold only for bookings served one after another. Two concurrent bookings of one free slot can both succeed.
- `Admin.AdminPanel.FinishStatusUpdate`: applies the corrected `Admin.PatchSelection` to the selection, not lines 69-71 as written. After `BeginStatusUpdate` for A, a selection of B and a successful finish, the model leaves B unchanged. The code gives B the new status. The as-written behaviour is `Admin.PatchSelectionAsWritten`, and `Admin.StaleSelectionPatchesWrongAppointment` exhibits it (see Findings).
- `Admin.AdminPanel.FinishLoad`: the response body is taken to be a list of appointment records, and `detail` to be text or absent. Other JSON shapes are not modelled.

## Findings

| source | as written | input that shows it | evidently intended | confidence | as-written member | corrected member |
|---|---|---|---|---|---|---|
| frontend/src/components/Admin.jsx:69-71 | whether to patch is decided from the selection captured when the button was clicked, but the patch is applied to the selection current when the response arrives | select A (id "a") and click "confirmed"; before the response arrives, select B (id "b", status "pending"); on success B is shown as confirmed while B's list entry and the server still say pending | patch the current selection only when its id is the updated one | medium, not executed | Admin.StaleSelectionPatchesWrongAppointment | Admin.PatchSelection |

`Admin.PatchSelectionAsWritten` models lines 69-71 as written. `Admin.AdminPanel.FinishStatusUpdate` uses the corrected `Admin.PatchSelection`. `Admin.PatchSelectionAgreesWhenSelectionKept` shows the two differ only when the selection changed while the request was in flight.
