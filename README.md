# Appointment booking screen of a physiotherapy clinic — a Dafny model

This project models the logic inside the clinic's "Request Appointment" screen
(`MakeAppointmentScreen`), with the rendering stripped away. That logic has
five parts:

- **Availability calculator.** For a chosen day it builds one slot per hour from
  11:00 to 23:00. Each slot gets the therapists whose schedule has no booked
  entry at exactly that minute, an availability flag and a time-of-day category.
  The slots are then grouped by category for display.
- **Booking wizard.** Three steps (date, time and therapist, patient details).
  Continue and Back are clamped to those steps. There are guarded slot clicks, a
  therapist dialog and the new/existing-patient choice.
- **Guards.** The details form is valid only when a slot and a therapist are
  chosen and the phone number (and, for a new patient, the name) has text.
  Booking and the appointment lookup each start with a guard of their own.
- **Booking request.** The chosen day and the slot's time are written in the
  stored text pattern `yyyy/MM/dd & h:mm a`. The calculator parses the same
  pattern when it reads bookings back.
- **Date strip.** Starting today, the seven next days that are not Fridays.

Modules, one file each:

- `Options`: an optional value (JavaScript's null).
- `Calendar`: the date record, the day after, a day count and the weekday.
  These replace the date library and are the model's own definitions. The
  calendar is the proleptic Gregorian one. Day 0 is 0001-01-01, a Monday.
  Weekdays are numbered as JavaScript's `getDay()` numbers them (0 = Sunday,
  5 = Friday).
- `TimestampText`: a formatter and a parser for `yyyy/MM/dd & h:mm a`, written
  for this model.
- `Availability`: therapists, slots, the booked-time test, the free-therapist
  filter, slot generation and grouping.
- `DateStrip`: the Friday-skipping date loop.
- `Wizard`: steps, trimming, form validity, the request and confirmation, and
  the `BookingScreen` class. Its fields are the screen's state. Its methods are
  the event handlers, each run to completion. Each one states the whole new
  state as `State() == old(State()).(…)`. The effect that recomputes the slots
  whenever the date or the therapist list changes (lines 94–98) is
  `RefreshTimeBlocks`. `ChangeDate` and `LoadTherapists` end with it, and all
  three ensure `Refreshed()`: with therapists, the listed slots are exactly
  `Slots` of the chosen day for them. Every other handler's `State()` clause
  leaves the slots, the date and the therapist list unchanged, so `Refreshed()`
  persists. A selected slot is a listed one (`Valid()`), so with therapists it
  lies on the chosen day (`SlotsOnDay`).

Server replies and the remembered phone number of the cookie are inputs to the
handlers. The request sent, the confirmation data and a found patient id are
their outputs.

Three behaviours of the source are easy to misread:

- A successful HTTP reply whose `message` is not `"Requested Successfully"` sets
  no error and does nothing else (src/screens/MakeAppointmentScreen.js:211–231).
- Back only changes the step (287–289). It does not clear the chosen date, slot
  or therapist at any step.
- `isExisting` starts as null (line 65) and is sent as-is in the request. Only
  `true` counts as "existing" (JavaScript truthiness). The wizard is reached with
  it still null when the patient-type dialog is dismissed (line 652).

## Model

| member | source | states |
|---|---|---|
| `Calendar.Weekday` | src/screens/MakeAppointmentScreen.js:344 | the weekday of a real date, numbered as getDay() numbers it (0 = Sunday); always below 7. Pinned to real weekdays by UnixEpochWasThursday and NextWeekday |
| `Calendar.NextDay` | src/screens/MakeAppointmentScreen.js:367 | the day after a real date is a real date |
| `Calendar.NextDayNumber` | src/screens/MakeAppointmentScreen.js:367 | the day after is exactly one day later in the day count, across month and year ends and leap days |
| `Calendar.NextWeekday` | src/screens/MakeAppointmentScreen.js:344 | the weekday of the day after is the next weekday, modulo 7 |
| `Calendar.DaysBeforeYearClosedForm` | src/screens/MakeAppointmentScreen.js:344 | the recursive year count equals the Gregorian closed form with 4/100/400 leap rules |
| `Calendar.UnixEpochWasThursday` | src/screens/MakeAppointmentScreen.js:344 | the weekday numbering gives Thursday (4) for 1970-01-01, as getDay() does |
| `TimestampText.FormatTimestamp` | src/screens/MakeAppointmentScreen.js:200 | writes a timestamp as 4-digit year, 2-digit month and day, " & ", then the clock text; RoundTrip states that its output reads back |
| `TimestampText.ClockText` | src/screens/MakeAppointmentScreen.js:224 | writes "h:mm a": the 12-hour hour without padding, a 2-digit minute, a space and AM or PM; ClockTextRoundTrip states that it reads back |
| `TimestampText.Hour12` | src/screens/MakeAppointmentScreen.js:200 | the 12-hour hour of hour 0–23 lies in 1–12 (0 and 12 become 12); inverted by Hour24 as HourRoundTrip states |
| `TimestampText.Period` | src/screens/MakeAppointmentScreen.js:200 | AM below hour 12, PM from 12 on; read back by the parser as PeriodReadsBack states |
| `TimestampText.Hour24` | src/screens/MakeAppointmentScreen.js:130 | the 24-hour hour of a 12-hour hour and a day period (12 AM is 0, 12 PM is 12); the inverse of Hour12 by HourRoundTrip |
| `TimestampText.ParseTimestamp` | src/screens/MakeAppointmentScreen.js:130 | whatever text parses names a real date and a time of day with hour < 24 and minute < 60 |
| `TimestampText.HourRoundTrip` | src/screens/MakeAppointmentScreen.js:130 | for every hour 0–23, the 12-hour hour with AM/PM converts back to that hour (12 AM is 0, 12 PM is 12) |
| `TimestampText.DateTextRoundTrip` | src/screens/MakeAppointmentScreen.js:200 | "yyyy/MM/dd" text reads back as its year, month and day and leaves the rest of the text untouched |
| `TimestampText.ClockTextRoundTrip` | src/screens/MakeAppointmentScreen.js:224 | "h:mm a" text reads back as the 12-hour hour, the minute and the day period |
| `TimestampText.RoundTrip` | src/screens/MakeAppointmentScreen.js:130 | a timestamp formatted in the pattern parses back to the same year, month, day, hour and minute, for years 1 to 9999 |
| `TimestampText.ExampleText` | src/screens/MakeAppointmentScreen.js:200 | 14:00 on 2025-06-10 is written "2025/06/10 & 2:00 PM" |
| `Availability.BookedTimes` | src/screens/MakeAppointmentScreen.js:128 | a therapist's booked entries are the schedule's list, or none when the schedule or the list is missing (`?.` and `|| []`) |
| `Availability.Matches` | src/screens/MakeAppointmentScreen.js:129-137 | an entry names a minute when its text parses and year, month, day, hour and minute all agree; unparseable text names none |
| `Availability.AnyMatches` | src/screens/MakeAppointmentScreen.js:129-138 | the `some` over the entries; characterised by AnyMatchesIff and AnyMatchesAppend |
| `Availability.IsBooked` | src/screens/MakeAppointmentScreen.js:128-138 | a therapist is booked at a minute when some booked entry names it |
| `Availability.AnyMatchesAppend` | src/screens/MakeAppointmentScreen.js:129-138 | `some` over two joined entry lists holds iff it holds over one of them |
| `Availability.FreeTherapists` | src/screens/MakeAppointmentScreen.js:127-140 | the filter keeping therapists not booked at the minute; characterised by FreeTherapistsMembers, FreeTherapistsAppend and FreeTherapistsSingle |
| `Availability.AnyMatchesIff` | src/screens/MakeAppointmentScreen.js:128-138 | a list of booked entries names a minute iff some entry's text parses to exactly that minute |
| `Availability.FreeTherapistsMembers` | src/screens/MakeAppointmentScreen.js:127-140 | a therapist is in the result iff listed and not booked at that minute; the result is no longer than the list |
| `Availability.FreeTherapistsAppend` | src/screens/MakeAppointmentScreen.js:127-140 | filtering distributes over concatenation, so the original order is kept |
| `Availability.FreeTherapistsSingle` | src/screens/MakeAppointmentScreen.js:127-140 | one therapist is kept exactly when not booked |
| `Availability.UnparseableEntryIgnored` | src/screens/MakeAppointmentScreen.js:129-137 | inserting an entry whose text does not parse anywhere in the list never changes whether a therapist is booked |
| `Availability.CategoryOf` | src/screens/MakeAppointmentScreen.js:142-144 | Morning before hour 12, Afternoon before 17, Evening after; by slot index in SlotCategories |
| `Availability.MakeSlot` | src/screens/MakeAppointmentScreen.js:119-151 | a slot at the given hour and minute of the day, with the free therapists, availability iff that list is non-empty, and its category; stated by SlotAvailability and SlotsConsistent |
| `Availability.Slots` | src/screens/MakeAppointmentScreen.js:117-118 | a day has LastHour - FirstHour + 1 slots |
| `Availability.SlotAt` | src/screens/MakeAppointmentScreen.js:119-151 | slot i is the one at hour 11 + i, minute 0 |
| `Availability.GenerateTimeBlocks` | src/screens/MakeAppointmentScreen.js:114-153 | the nested hour/minute loops produce exactly the slot list of the day |
| `Availability.SlotsShape` | src/screens/MakeAppointmentScreen.js:117-125 | 13 slots, hours 11 to 23 strictly ascending, minute 0, all on the chosen date |
| `Availability.SlotAvailability` | src/screens/MakeAppointmentScreen.js:127-149 | a slot's free list holds exactly the listed therapists with no entry parsing to the slot's minute; the slot is available iff some listed therapist is not booked |
| `Availability.SlotsOnDay` | src/screens/MakeAppointmentScreen.js:119-123 | every slot of a day's list lies on that day |
| `Availability.SlotsConsistent` | src/screens/MakeAppointmentScreen.js:148-149 | in every slot, isAvailable holds iff its free list is non-empty |
| `Availability.NoTherapistsNoSlots` | src/screens/MakeAppointmentScreen.js:148 | with no therapists, every slot is unavailable |
| `Availability.SlotCategories` | src/screens/MakeAppointmentScreen.js:142-144 | 11:00 is Morning, 12:00–16:00 Afternoon, 17:00–23:00 Evening |
| `Availability.BookedAtTwoPm` | src/screens/MakeAppointmentScreen.js:127-140 | a therapist booked at "2025/06/10 & 2:00 PM" is not free at 14:00 on that day; every other therapist there is free iff not booked |
| `Availability.InCategory` | src/screens/MakeAppointmentScreen.js:292-298 | the slots of one category in their original order; the reduce builds these lists (GroupByCategory, InCategoryAppend, InCategoryUniform) |
| `Availability.CategoryOrder` | src/screens/MakeAppointmentScreen.js:292-298 | the categories in order of first occurrence, which is the key order of Object.keys at line 408 (GroupByCategory, CategoryOrderOfSlots) |
| `Availability.GroupByCategory` | src/screens/MakeAppointmentScreen.js:292-298 | the reduce yields the categories in first-occurrence order, and for each one the slots of that category in their original order |
| `Availability.InCategoryAppend` | src/screens/MakeAppointmentScreen.js:292-298 | grouping distributes over concatenation of slot lists |
| `Availability.InCategoryUniform` | src/screens/MakeAppointmentScreen.js:292-298 | a run of slots of one category lands whole in that group and nowhere else |
| `Availability.CategoryOrderOfSlots` | src/screens/MakeAppointmentScreen.js:408 | for a day's slots the group keys come out Morning, Afternoon, Evening |
| `Availability.GroupsOfSlots` | src/screens/MakeAppointmentScreen.js:292-298 | a day's groups are the 11:00 slot, the 12:00–16:00 slots and the 17:00–23:00 slots, each in ascending order |
| `DateStrip.IsFriday` | src/screens/MakeAppointmentScreen.js:344 | a date whose getDay() number is 5 |
| `DateStrip.AfterFriday` | src/screens/MakeAppointmentScreen.js:344 | the day after a Friday is not a Friday |
| `DateStrip.NonFridaysFrom` | src/screens/MakeAppointmentScreen.js:338-369 | n real dates, none a Friday |
| `DateStrip.BuildDateStrip` | src/screens/MakeAppointmentScreen.js:338-369 | the while loop collects exactly the first seven non-Friday days from today |
| `DateStrip.StripStart` | src/screens/MakeAppointmentScreen.js:339-344 | the strip starts today, or tomorrow when today is a Friday |
| `DateStrip.StripConsecutive` | src/screens/MakeAppointmentScreen.js:342-368 | each date is followed by the next day, or by the day after when the next day is a Friday: no non-Friday day is skipped |
| `DateStrip.StripIncreasing` | src/screens/MakeAppointmentScreen.js:342-368 | later positions hold strictly later days |
| `DateStrip.StripShape` | src/screens/MakeAppointmentScreen.js:338-369 | seven dates, no Friday, not before today, strictly increasing |
| `Wizard.NextStep` | src/screens/MakeAppointmentScreen.js:283-285 | Math.min(step + 1, 2); with BackStep related by StepMovesInverse and StepStaysInRange |
| `Wizard.BackStep` | src/screens/MakeAppointmentScreen.js:287-289 | Math.max(step - 1, 0); with NextStep related by StepMovesInverse and StepStaysInRange |
| `Wizard.StepStaysInRange` | src/screens/MakeAppointmentScreen.js:283-289 | from a valid step, any sequence of Continue/Back clicks stays within the three steps |
| `Wizard.StepMovesInverse` | src/screens/MakeAppointmentScreen.js:283-289 | Back undoes Continue below the last step, Continue undoes Back above the first; both clamp at the ends |
| `Wizard.TrimStart` | src/screens/MakeAppointmentScreen.js:248 | the result is a suffix; only white space was removed; it starts with a non-space |
| `Wizard.TrimEnd` | src/screens/MakeAppointmentScreen.js:248 | the result is a prefix; only white space was removed; it ends with a non-space |
| `Wizard.Trim` | src/screens/MakeAppointmentScreen.js:248 | trim(): TrimEnd after TrimStart, removing exactly the leading and trailing white space as TrimStart and TrimEnd state |
| `Wizard.TrimmedEmpty` | src/screens/MakeAppointmentScreen.js:248-250 | a trimmed field is empty iff the field holds only white space |
| `Wizard.IsBlank` | src/screens/MakeAppointmentScreen.js:255 | `!s.trim()` holds iff s has no non-space character |
| `Wizard.IsTruthy` | src/screens/MakeAppointmentScreen.js:247 | only `true` counts as existing; null and false do not (also the tests at lines 201 and 226) |
| `Wizard.IsFormValid` | src/screens/MakeAppointmentScreen.js:243-252 | valid iff slot and therapist are set, the phone has text, and the name has text unless the patient is existing |
| `Wizard.BuildRequest` | src/screens/MakeAppointmentScreen.js:191-205 | date_time parses back to the chosen day at the slot's hour and minute; patient_name is "" for an existing patient, else the name; therapist id, phone and the raw flag are passed on |
| `Wizard.BuildConfirmation` | src/screens/MakeAppointmentScreen.js:222-227 | the time text reads back as the slot's hour and minute; therapist name; the phone for an existing patient, else the name |
| `Wizard.BookingScreen.constructor` | src/screens/MakeAppointmentScreen.js:58-74 | the initial state: today, nothing chosen, patient-type dialog open, step 0 |
| `Wizard.BookingScreen.LoadTherapists` | src/screens/MakeAppointmentScreen.js:100-112 | a list replaces the therapists and clears the error, and a non-empty one makes the slots those of the chosen day for it, with the selected slot cleared (the effect of lines 94–98); a failed request only sets the load error. A list leaves the slots refreshed (`Refreshed()`) |
| `Wizard.BookingScreen.RefreshTimeBlocks` | src/screens/MakeAppointmentScreen.js:94-98 | the effect: with therapists, the slots become the day's slot list and the selected slot is cleared; without, nothing changes. It re-establishes the invariant that, with therapists, the listed slots are those of the chosen day |
| `Wizard.BookingScreen.ChangeDate` | src/screens/MakeAppointmentScreen.js:158-162 | sets the date and clears the selected slot and therapist; with therapists, the slots become those of the new day (the effect), so the slots are refreshed (`Refreshed()`); nothing else changes |
| `Wizard.BookingScreen.ClickTimeBlock` | src/screens/MakeAppointmentScreen.js:164-173 | an unavailable slot changes nothing; an available one becomes the selection, its free list is copied and the dialog opens |
| `Wizard.BookingScreen.SelectTherapist` | src/screens/MakeAppointmentScreen.js:175-179 | sets the therapist, closes the dialog and moves one step on (clamped) |
| `Wizard.BookingScreen.DismissPatientTypeDialog` | src/screens/MakeAppointmentScreen.js:652 | dismissing the patient-type dialog only closes it, leaving isExisting as it was (null at first) |
| `Wizard.BookingScreen.DismissPhoneNumberDialog` | src/screens/MakeAppointmentScreen.js:717 | dismissing the lookup dialog only closes it |
| `Wizard.BookingScreen.CloseTherapistDialog` | src/screens/MakeAppointmentScreen.js:643 | only the dialog flag changes |
| `Wizard.BookingScreen.GoNext` | src/screens/MakeAppointmentScreen.js:283-285 | step becomes min(step + 1, 2), nothing else changes |
| `Wizard.BookingScreen.GoBack` | src/screens/MakeAppointmentScreen.js:287-289 | step becomes max(step - 1, 0), nothing else changes |
| `Wizard.BookingScreen.ChooseNewPatient` | src/screens/MakeAppointmentScreen.js:666-670 | new patient: flag false, dialog closed, phone cleared |
| `Wizard.BookingScreen.ChooseExistingPatient` | src/screens/MakeAppointmentScreen.js:684-691 | existing patient: a non-empty remembered phone fills the field, flag true, dialog closed |
| `Wizard.BookingScreen.ChooseViewAppointments` | src/screens/MakeAppointmentScreen.js:700-703 | moves from the patient-type dialog to the lookup dialog |
| `Wizard.BookingScreen.LeaveAppointmentsLookup` | src/screens/MakeAppointmentScreen.js:750-753 | moves from the lookup dialog back to the patient-type dialog |
| `Wizard.BookingScreen.EditName` | src/screens/MakeAppointmentScreen.js:545 | only the name changes |
| `Wizard.BookingScreen.EditPhoneNumber` | src/screens/MakeAppointmentScreen.js:531 | only the phone number changes |
| `Wizard.BookingScreen.EditTempPhoneNumber` | src/screens/MakeAppointmentScreen.js:733 | only the lookup phone number changes |
| `Wizard.BookingScreen.DismissError` | src/screens/MakeAppointmentScreen.js:742 | only the error is cleared |
| `Wizard.BookingScreen.BookEnabled` | src/screens/MakeAppointmentScreen.js:573 | the Book button is enabled iff a slot and a therapist are chosen, the phone has text, the name has text unless the patient is existing, and the booking has not yet succeeded |
| `Wizard.FailureMessage` | src/screens/MakeAppointmentScreen.js:234-237 | the server's error text when present and non-empty, else "Error booking appointment. Please try again later." |
| `Wizard.IsTruthyId` | src/screens/MakeAppointmentScreen.js:269 | a patient id is truthy when present and non-zero |
| `Wizard.Book` | src/screens/MakeAppointmentScreen.js:181-241 | a request exists iff a slot and a therapist are chosen, else only the selection error. The request is the one built from the choices. It books (with the confirmation) iff the reply carries the success message. A failed request shows the server's error if non-empty, else the generic one. Any other reply sets no error |
| `Wizard.Lookup` | src/screens/MakeAppointmentScreen.js:254-281 | a lookup is made iff the phone field has text, else only the missing-phone error. A patient id is found iff the reply holds a truthy id, and then no error. A missing or 0 id gives the not-found error; a failed request gives the lookup error |
| `Wizard.BookingScreen.BookAppointment` | src/screens/MakeAppointmentScreen.js:181-241 | returns Book's request and confirmation on the current state; only the error changes, and success becomes set once it books |
| `Wizard.BookingScreen.ViewAppointments` | src/screens/MakeAppointmentScreen.js:254-281 | returns Lookup's request and patient id for the lookup phone field; only the error changes |

## Left out

- Rendering (JSX, dialogs as visuals, styling, icons, the stepper) and the other
  screens and components. They only display state or fall back with `||` for
  display.
- Network calls. Replies are handler inputs (`BookingReply`, `LookupReply`, the
  therapist list as `Option<seq<Therapist>>`). Concurrency of requests in flight
  and React's deferred state updates are not modelled. Each handler is one
  atomic transition, so the `loading` flag, false between handlers, is not a
  field.
- Cookies. The remembered phone number is an input of `ChooseExistingPatient`.
  Writing the phone number and the patient id, and the redirect on a stored
  patient id (lines 79–88), are left out.
- Navigation and the `setTimeout` delay. The confirmation data and the found
  patient id are returned instead.
- The date library and JavaScript `Date`. `Calendar` and `TimestampText` are the
  model's own definitions. Time zones, seconds, month overflow of JavaScript
  `Date` and locale text ("EEEE, MMMM d, yyyy", "EEE", "d") are not modelled. The
  confirmation's long date text is therefore missing from `Confirmation`.
- `TimestampText.ParseTimestamp` is a strict parser for the one pattern. It
  rejects trailing white space, and it reads AM/PM only as two letters in either
  case. The library's parser accepts more spellings. Years above 9999 do not
  round-trip, because the year field reads at most four digits.
- The date strip's `daysAdded` counter is only a rendering key and is not kept.
  The date picker's bounds (today to 30 days ahead, Fridays disabled) constrain
  only the picker's UI. `ChangeDate` accepts any real date.
- Wizard.BookingScreen.ChangeDate: takes only a real date. The picker's
  `onChange` (line 310) can also pass null, when the field is cleared, or an
  Invalid Date, while a date is half typed. The source stores either one. With
  null, `generateTimeBlocks` then throws at `getFullYear()` (line 120). With an
  Invalid Date, no booked entry compares equal, so every slot with a listed
  therapist is free. Neither path is modelled.
- Error logging with `console.error` (lines 107, 233, 276) is output only and is
  not modelled.
- The `disabled` conditions of the Continue buttons are not modelled. Continue is
  modelled as the clamped `GoNext`.
- `Wizard.BookingScreen.Valid` does not require that the selected therapist be
  free at the selected slot. A later slot click followed by cancelling the dialog
  keeps the earlier therapist, and the source does the same.
