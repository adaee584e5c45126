/**
 * The booking wizard of the appointment screen: three steps (date, time and
 * therapist, patient details), the patient-type choice, the guards on booking
 * and on the appointment lookup, and the request the screen sends.
 */
module Wizard {
  import opened Options
  import opened Calendar
  import opened TimestampText
  import opened Availability

  // ----- Steps -----

  const Steps: seq<string> := ["Select Date", "Choose Time", "Your Details"]
  const LastStep: nat := |Steps| - 1

  /** "Continue": one step on, never past the last. */
  function NextStep(step: nat): nat {
    if step + 1 < LastStep then step + 1 else LastStep
  }

  /** "Back": one step back, never before the first. */
  function BackStep(step: nat): nat {
    if step >= 1 then step - 1 else 0
  }

  datatype Move = Next | Back

  function Run(step: nat, moves: seq<Move>): nat
    decreases moves
  {
    if moves == [] then step
    else Run(if moves[0] == Next then NextStep(step) else BackStep(step), moves[1..])
  }

  /** Whatever the user clicks, the step index stays among the three steps. */
  lemma {:induction false} StepStaysInRange(step: nat, moves: seq<Move>)
    requires step <= LastStep
    ensures Run(step, moves) <= LastStep
    decreases moves
  {
    if moves != [] {
      StepStaysInRange(if moves[0] == Next then NextStep(step) else BackStep(step), moves[1..]);
    }
  }

  /** Inside the range Back undoes Continue and Continue undoes Back; at the ends they stay put. */
  lemma StepMovesInverse(step: nat)
    requires step <= LastStep
    ensures step < LastStep ==> BackStep(NextStep(step)) == step
    ensures 0 < step ==> NextStep(BackStep(step)) == step
    ensures NextStep(LastStep) == LastStep && BackStep(0) == 0
  {
  }

  // ----- Text fields -----

  /** The characters JavaScript's String.prototype.trim removes (white space and line terminators). */
  predicate IsSpace(c: char) {
    c == ' ' || c == '\t' || c == '\n' || c == '\r' || c == '\U{000B}' || c == '\U{000C}'
    || c == '\U{00A0}' || c == '\U{1680}' || ('\U{2000}' <= c <= '\U{200A}')
    || c == '\U{2028}' || c == '\U{2029}' || c == '\U{202F}' || c == '\U{205F}'
    || c == '\U{3000}' || c == '\U{FEFF}'
  }

  function TrimStart(s: string): (r: string)
    ensures |r| <= |s| && r == s[|s| - |r|..]
    ensures r == [] || !IsSpace(r[0])
    ensures forall i :: 0 <= i < |s| - |r| ==> IsSpace(s[i])
  {
    if s != [] && IsSpace(s[0]) then TrimStart(s[1..]) else s
  }

  function TrimEnd(s: string): (r: string)
    ensures |r| <= |s| && r == s[..|r|]
    ensures r == [] || !IsSpace(r[|r| - 1])
    ensures forall i :: |r| <= i < |s| ==> IsSpace(s[i])
  {
    if s != [] && IsSpace(s[|s| - 1]) then TrimEnd(s[..|s| - 1]) else s
  }

  function Trim(s: string): string {
    TrimEnd(TrimStart(s))
  }

  /** Some character of s is not white space. */
  predicate HasText(s: string) {
    exists i :: 0 <= i < |s| && !IsSpace(s[i])
  }

  /** A field is empty after trimming exactly when it holds nothing but white space. */
  lemma TrimmedEmpty(s: string)
    ensures (Trim(s) == "") <==> !HasText(s)
  {
    var t := TrimStart(s);
    if Trim(s) == "" {
      assert t == [];
    } else {
      var r := Trim(s);
      assert r[0] == t[0] == s[|s| - |t|];
    }
  }

  /** `!s.trim()`: the field is empty once trimmed, that is, it holds only white space. */
  function IsBlank(s: string): (blank: bool)
    ensures blank <==> !HasText(s)
  {
    TrimmedEmpty(s);
    Trim(s) == ""
  }

  /** JavaScript truthiness of the patient-type flag, which starts out null. */
  predicate IsTruthy(b: Option<bool>) {
    b == Some(true)
  }

  /**
   * The details form may be submitted when a slot and a therapist are chosen and
   * the phone number has text, and also the name unless the patient said they
   * are an existing patient.
   */
  function IsFormValid(slot: Option<Slot>, therapist: Option<Therapist>, isExisting: Option<bool>,
                       name: string, phone: string): (ok: bool)
    ensures ok <==> slot.Some? && therapist.Some? && HasText(phone) && (IsTruthy(isExisting) || HasText(name))
  {
    if slot.None? || therapist.None? then false
    else if IsTruthy(isExisting) then !IsBlank(phone)
    else !IsBlank(name) && !IsBlank(phone)
  }

  // ----- Request and confirmation -----

  datatype AppointmentRequest = AppointmentRequest(
    dateTime: string, patientName: string, therapistId: int, phoneNumber: string, isExisting: Option<bool>)

  /**
   * The booking request: the chosen day at the slot's hour and minute, in the
   * stored text pattern, and the patient's details (no name for an existing patient).
   */
  function BuildRequest(date: Date, slot: Slot, therapist: Therapist, isExisting: Option<bool>,
                        name: string, phone: string): (p: AppointmentRequest)
    ensures ValidTimestamp(Timestamp(date, slot.at.hour, slot.at.minute)) && date.year <= 9999 ==>
      ParseTimestamp(p.dateTime) == Some(Timestamp(date, slot.at.hour, slot.at.minute))
    ensures p.patientName == if IsTruthy(isExisting) then "" else name
    ensures p.therapistId == therapist.id && p.phoneNumber == phone && p.isExisting == isExisting
  {
    var at := Timestamp(date, slot.at.hour, slot.at.minute);
    var text := FormatTimestamp(at);
    assert ValidTimestamp(at) && date.year <= 9999 ==> ParseTimestamp(text) == Some(at) by {
      if ValidTimestamp(at) && date.year <= 9999 {
        RoundTrip(at);
      }
    }
    AppointmentRequest(text, if IsTruthy(isExisting) then "" else name, therapist.id, phone, isExisting)
  }

  /** What the confirmation screen is given (its long date text is not modelled). */
  datatype Confirmation = Confirmation(time: string, therapistName: string, patientName: string)

  function BuildConfirmation(slot: Slot, therapist: Therapist, isExisting: Option<bool>,
                             name: string, phone: string): (c: Confirmation)
    ensures slot.at.minute < 60 ==>
      ParseClockText(c.time) == Some(ClockField(Hour12(slot.at.hour), slot.at.minute, slot.at.hour >= 12))
    ensures c.therapistName == therapist.name
    ensures c.patientName == if IsTruthy(isExisting) then phone else name
  {
    var time := ClockText(slot.at.hour, slot.at.minute);
    assert slot.at.minute < 60 ==>
      ParseClockText(time) == Some(ClockField(Hour12(slot.at.hour), slot.at.minute, slot.at.hour >= 12)) by {
      if slot.at.minute < 60 {
        ClockTextRoundTrip(slot.at.hour, slot.at.minute);
      }
    }
    Confirmation(time, therapist.name, if IsTruthy(isExisting) then phone else name)
  }

  // ----- Server replies, given as inputs -----

  /** A reply to the booking request: a body with a `message`, or a failed request with an optional `error` text. */
  datatype BookingReply = Replied(message: Option<string>) | RequestFailed(serverError: Option<string>)

  /** A reply to the lookup by phone number: a body with a `patient_id`, or a failed request. */
  datatype LookupReply = Answered(patientId: Option<int>) | LookupFailed

  /** JavaScript truthiness of a returned patient id: present and not 0. */
  predicate IsTruthyId(id: Option<int>) {
    id.Some? && id.value != 0
  }

  const SuccessMessage := "Requested Successfully"
  const LoadError := "Failed to load therapists. Please try again later."
  const SelectionError := "Please select a time and therapist"
  const BookingError := "Error booking appointment. Please try again later."
  const PhoneMissingError := "Please enter your phone number"
  const NoPatientError := "No patient found with this phone number"
  const LookupError := "Failed to fetch patient ID. Please try again later."

  /** The message shown when a booking request fails: the server's text if it sent one, else a generic one. */
  function FailureMessage(serverError: Option<string>): string {
    if serverError.Some? && serverError.value != "" then serverError.value else BookingError
  }

  /** What "Book Appointment" does: the request sent, the confirmation, the error shown, and whether it booked. */
  datatype BookingOutcome = BookingOutcome(
    request: Option<AppointmentRequest>, confirmation: Option<Confirmation>, error: Option<string>, booked: bool)

  /**
   * "Book Appointment" on a chosen date, slot and therapist and the patient's
   * details, given the server's reply to the request.
   */
  function Book(date: Date, slot: Option<Slot>, therapist: Option<Therapist>, isExisting: Option<bool>,
                name: string, phone: string, reply: BookingReply): (o: BookingOutcome)
    ensures o.request.Some? <==> slot.Some? && therapist.Some?
    ensures o.request.None? ==> o.error == Some(SelectionError)
    ensures o.request.Some? ==>
      o.request == Some(BuildRequest(date, slot.value, therapist.value, isExisting, name, phone))
    ensures o.booked <==> o.request.Some? && reply == Replied(Some(SuccessMessage))
    ensures o.confirmation.Some? <==> o.booked
    ensures o.booked ==> o.confirmation == Some(BuildConfirmation(slot.value, therapist.value, isExisting, name, phone))
    ensures o.request.Some? && reply.Replied? ==> o.error == None
    ensures o.request.Some? && reply.RequestFailed? ==> o.error == Some(FailureMessage(reply.serverError))
  {
    if slot.None? || therapist.None? then BookingOutcome(None, None, Some(SelectionError), false)
    else
      var request := Some(BuildRequest(date, slot.value, therapist.value, isExisting, name, phone));
      match reply
      case Replied(message) =>
        if message == Some(SuccessMessage)
        then BookingOutcome(request, Some(BuildConfirmation(slot.value, therapist.value, isExisting, name, phone)), None, true)
        else BookingOutcome(request, None, None, false)
      case RequestFailed(serverError) =>
        BookingOutcome(request, None, Some(FailureMessage(serverError)), false)
  }

  /** What "View Appointments" does: the phone number looked up, the patient id found, the error shown. */
  datatype LookupOutcome = LookupOutcome(request: Option<string>, patientId: Option<int>, error: Option<string>)

  /** "View Appointments" with the text of the phone field, given the server's reply to the lookup. */
  function Lookup(phone: string, reply: LookupReply): (o: LookupOutcome)
    ensures o.request.Some? <==> HasText(phone)
    ensures o.request.Some? ==> o.request.value == phone
    ensures !HasText(phone) ==> o.error == Some(PhoneMissingError)
    ensures o.patientId.Some? <==> HasText(phone) && reply.Answered? && IsTruthyId(reply.patientId)
    ensures o.patientId.Some? ==> o.patientId == reply.patientId && o.error == None
    ensures HasText(phone) && reply.Answered? && !IsTruthyId(reply.patientId) ==> o.error == Some(NoPatientError)
    ensures HasText(phone) && reply.LookupFailed? ==> o.error == Some(LookupError)
  {
    if IsBlank(phone) then LookupOutcome(None, None, Some(PhoneMissingError))
    else
      match reply
      case Answered(id) =>
        if IsTruthyId(id) then LookupOutcome(Some(phone), id, None)
        else LookupOutcome(Some(phone), None, Some(NoPatientError))
      case LookupFailed =>
        LookupOutcome(Some(phone), None, Some(LookupError))
  }

  // ----- The screen's state -----

  datatype ScreenState = ScreenState(
    therapists: seq<Therapist>,
    timeBlocks: seq<Slot>,
    selectedDate: Date,
    selectedTimeBlock: Option<Slot>,
    selectedTherapist: Option<Therapist>,
    name: string,
    phoneNumber: string,
    tempPhoneNumber: string,
    isExisting: Option<bool>,
    error: Option<string>,
    showPatientTypeDialog: bool,
    showTherapistDialog: bool,
    showPhoneNumberDialog: bool,
    availableTherapists: seq<Therapist>,
    activeStep: nat,
    success: bool)

  function InitialState(today: Date): ScreenState {
    ScreenState([], [], today, None, None, "", "", "", None, None, true, false, false, [], 0, false)
  }

  /** The appointment screen; each method is one event handler, run to completion. */
  class BookingScreen {
    var therapists: seq<Therapist>
    var timeBlocks: seq<Slot>
    var selectedDate: Date
    var selectedTimeBlock: Option<Slot>
    var selectedTherapist: Option<Therapist>
    var name: string
    var phoneNumber: string
    var tempPhoneNumber: string
    var isExisting: Option<bool>
    var error: Option<string>
    var showPatientTypeDialog: bool
    var showTherapistDialog: bool
    var showPhoneNumberDialog: bool
    var availableTherapists: seq<Therapist>
    var activeStep: nat
    var success: bool

    function State(): ScreenState
      reads this
    {
      ScreenState(therapists, timeBlocks, selectedDate, selectedTimeBlock, selectedTherapist,
                  name, phoneNumber, tempPhoneNumber, isExisting, error, showPatientTypeDialog,
                  showTherapistDialog, showPhoneNumberDialog, availableTherapists, activeStep, success)
    }

    /**
     * The step is one of the three; every listed slot is available exactly when
     * someone is free in it; a selected slot is a listed, available one; the
     * therapist dialog only opens on a non-empty list; at most one of the two
     * start dialogs shows.
     */
    ghost predicate Valid()
      reads this
    {
      && activeStep <= LastStep
      && ValidDate(selectedDate)
      && (forall b :: b in timeBlocks ==> b.isAvailable == (|b.availableTherapists| > 0))
      && (selectedTimeBlock.Some? ==> selectedTimeBlock.value in timeBlocks && selectedTimeBlock.value.isAvailable)
      && (showTherapistDialog ==> |availableTherapists| > 0)
      && !(showPatientTypeDialog && showPhoneNumberDialog)
    }

    /**
     * The effect on the date and the therapist list has run: with therapists,
     * the listed slots are those of the chosen day for them.
     */
    ghost predicate Refreshed()
      reads this
    {
      |therapists| > 0 ==> timeBlocks == Slots(selectedDate, therapists)
    }

    constructor (today: Date)
      requires ValidDate(today)
      ensures Valid() && State() == InitialState(today)
    {
      therapists, timeBlocks, selectedDate := [], [], today;
      selectedTimeBlock, selectedTherapist := None, None;
      name, phoneNumber, tempPhoneNumber := "", "", "";
      isExisting, error := None, None;
      showPatientTypeDialog, showTherapistDialog, showPhoneNumberDialog := true, false, false;
      availableTherapists, activeStep, success := [], 0, false;
    }

    /**
     * The therapist list arrives (Some), or its request fails (None). A new
     * non-empty list recomputes the slots of the chosen day.
     */
    method LoadTherapists(reply: Option<seq<Therapist>>)
      requires Valid()
      modifies this
      ensures Valid()
      ensures reply.Some? || old(Refreshed()) ==> Refreshed()
      ensures reply.None? ==> State() == old(State()).(error := Some(LoadError))
      ensures reply.Some? && |reply.value| > 0 ==>
        State() == old(State()).(therapists := reply.value, error := None,
                                 timeBlocks := Slots(old(selectedDate), reply.value), selectedTimeBlock := None)
      ensures reply.Some? && |reply.value| == 0 ==>
        State() == old(State()).(therapists := reply.value, error := None)
    {
      if reply.None? {
        error := Some(LoadError);
      } else {
        ghost var before := State();
        error := None;
        therapists := reply.value;
        ghost var loaded := State();
        assert loaded == before.(therapists := reply.value, error := None);
        RefreshTimeBlocks();
      }
    }

    /**
     * The effect run after the date or the therapist list changed: with
     * therapists, the slots of the chosen day replace the list and the selected
     * slot is cleared; without, nothing changes.
     */
    method RefreshTimeBlocks()
      requires Valid()
      modifies this
      ensures Valid() && Refreshed()
      ensures |old(therapists)| > 0 ==>
        State() == old(State()).(timeBlocks := Slots(old(selectedDate), old(therapists)), selectedTimeBlock := None)
      ensures |old(therapists)| == 0 ==> State() == old(State())
    {
      if |therapists| > 0 {
        var blocks := GenerateTimeBlocks(selectedDate, therapists);
        SlotsConsistent(selectedDate, therapists);
        timeBlocks := blocks;
        selectedTimeBlock := None;
      }
    }

    /** A new date clears the chosen slot and therapist, and the slots of that day are listed. */
    method ChangeDate(date: Date)
      requires Valid() && ValidDate(date)
      modifies this
      ensures Valid() && Refreshed()
      ensures |old(therapists)| > 0 ==>
        State() == old(State()).(selectedDate := date, selectedTimeBlock := None, selectedTherapist := None,
                                 timeBlocks := Slots(date, old(therapists)))
      ensures |old(therapists)| == 0 ==>
        State() == old(State()).(selectedDate := date, selectedTimeBlock := None, selectedTherapist := None)
    {
      ghost var before := State();
      selectedDate := date;
      selectedTimeBlock := None;
      selectedTherapist := None;
      ghost var cleared := State();
      assert cleared == before.(selectedDate := date, selectedTimeBlock := None, selectedTherapist := None);
      RefreshTimeBlocks();
    }

    /**
     * A click on a listed slot: nothing happens when it is unavailable; otherwise
     * it becomes the selection and the dialog opens on its free therapists.
     */
    method ClickTimeBlock(block: Slot)
      requires Valid() && block in timeBlocks
      modifies this
      ensures Valid()
      ensures State() == if !block.isAvailable then old(State())
                         else old(State()).(selectedTimeBlock := Some(block),
                                            availableTherapists := block.availableTherapists,
                                            showTherapistDialog := true)
    {
      if !block.isAvailable {
        return;
      }
      selectedTimeBlock := Some(block);
      availableTherapists := block.availableTherapists;
      showTherapistDialog := true;
    }

    /** Choosing a therapist in the dialog closes it and moves one step on. */
    method SelectTherapist(therapist: Therapist)
      requires Valid()
      modifies this
      ensures Valid()
      ensures State() == old(State()).(selectedTherapist := Some(therapist), showTherapistDialog := false,
                                       activeStep := NextStep(old(activeStep)))
    {
      selectedTherapist := Some(therapist);
      showTherapistDialog := false;
      GoNext();
    }

    /** The patient-type dialog is dismissed (backdrop or Escape) without a choice. */
    method DismissPatientTypeDialog()
      requires Valid()
      modifies this
      ensures Valid()
      ensures State() == old(State()).(showPatientTypeDialog := false)
    {
      showPatientTypeDialog := false;
    }

    /** The lookup dialog is dismissed (backdrop or Escape). */
    method DismissPhoneNumberDialog()
      requires Valid()
      modifies this
      ensures Valid()
      ensures State() == old(State()).(showPhoneNumberDialog := false)
    {
      showPhoneNumberDialog := false;
    }

    /** The therapist dialog is dismissed or cancelled. */
    method CloseTherapistDialog()
      requires Valid()
      modifies this
      ensures Valid()
      ensures State() == old(State()).(showTherapistDialog := false)
    {
      showTherapistDialog := false;
    }

    method GoNext()
      requires Valid()
      modifies this
      ensures Valid()
      ensures State() == old(State()).(activeStep := NextStep(old(activeStep)))
    {
      activeStep := NextStep(activeStep);
    }

    method GoBack()
      requires Valid()
      modifies this
      ensures Valid()
      ensures State() == old(State()).(activeStep := BackStep(old(activeStep)))
    {
      activeStep := BackStep(activeStep);
    }

    /** "New Patient": the phone number is cleared. */
    method ChooseNewPatient()
      requires Valid()
      modifies this
      ensures Valid()
      ensures State() == old(State()).(isExisting := Some(false), showPatientTypeDialog := false, phoneNumber := "")
    {
      isExisting := Some(false);
      showPatientTypeDialog := false;
      phoneNumber := "";
    }

    /** "Existing Patient": a remembered phone number, if non-empty, fills the field. */
    method ChooseExistingPatient(savedPhone: Option<string>)
      requires Valid()
      modifies this
      ensures Valid()
      ensures State() == old(State()).(
        phoneNumber := if savedPhone.Some? && savedPhone.value != "" then savedPhone.value else old(phoneNumber),
        isExisting := Some(true), showPatientTypeDialog := false)
    {
      if savedPhone.Some? && savedPhone.value != "" {
        phoneNumber := savedPhone.value;
      }
      isExisting := Some(true);
      showPatientTypeDialog := false;
    }

    /** "View My Appointments": from the patient-type dialog to the phone lookup dialog. */
    method ChooseViewAppointments()
      requires Valid()
      modifies this
      ensures Valid()
      ensures State() == old(State()).(showPatientTypeDialog := false, showPhoneNumberDialog := true)
    {
      showPatientTypeDialog := false;
      showPhoneNumberDialog := true;
    }

    /** "Back" in the phone lookup dialog. */
    method LeaveAppointmentsLookup()
      requires Valid()
      modifies this
      ensures Valid()
      ensures State() == old(State()).(showPhoneNumberDialog := false, showPatientTypeDialog := true)
    {
      showPhoneNumberDialog := false;
      showPatientTypeDialog := true;
    }

    method EditName(text: string)
      requires Valid()
      modifies this
      ensures Valid()
      ensures State() == old(State()).(name := text)
    {
      name := text;
    }

    method EditPhoneNumber(text: string)
      requires Valid()
      modifies this
      ensures Valid()
      ensures State() == old(State()).(phoneNumber := text)
    {
      phoneNumber := text;
    }

    method EditTempPhoneNumber(text: string)
      requires Valid()
      modifies this
      ensures Valid()
      ensures State() == old(State()).(tempPhoneNumber := text)
    {
      tempPhoneNumber := text;
    }

    method DismissError()
      requires Valid()
      modifies this
      ensures Valid()
      ensures State() == old(State()).(error := None)
    {
      error := None;
    }

    /** Whether "Book Appointment" is enabled (no request is ever in flight between handlers). */
    function BookEnabled(): (enabled: bool)
      reads this
      ensures enabled <==> && selectedTimeBlock.Some? && selectedTherapist.Some? && HasText(phoneNumber)
                           && (IsTruthy(isExisting) || HasText(name)) && !success
    {
      IsFormValid(selectedTimeBlock, selectedTherapist, isExisting, name, phoneNumber) && !success
    }

    /** "Book Appointment": the outcome of Book on the current state; success, once set, stays set. */
    method BookAppointment(reply: BookingReply) returns (request: Option<AppointmentRequest>, confirmation: Option<Confirmation>)
      requires Valid()
      modifies this
      ensures Valid()
      ensures var o := Book(old(selectedDate), old(selectedTimeBlock), old(selectedTherapist), old(isExisting),
                            old(name), old(phoneNumber), reply);
        && request == o.request && confirmation == o.confirmation
        && State() == old(State()).(error := o.error, success := old(success) || o.booked)
    {
      var o := Book(selectedDate, selectedTimeBlock, selectedTherapist, isExisting, name, phoneNumber, reply);
      request, confirmation := o.request, o.confirmation;
      error := o.error;
      success := success || o.booked;
    }

    /** "View Appointments": the outcome of Lookup on the lookup dialog's phone field. */
    method ViewAppointments(reply: LookupReply) returns (request: Option<string>, patientId: Option<int>)
      requires Valid()
      modifies this
      ensures Valid()
      ensures var o := Lookup(old(tempPhoneNumber), reply);
        && request == o.request && patientId == o.patientId
        && State() == old(State()).(error := o.error)
    {
      var o := Lookup(tempPhoneNumber, reply);
      request, patientId := o.request, o.patientId;
      ShowError(o.error);
    }

    /** Replaces the error shown; nothing else changes. */
    method ShowError(e: Option<string>)
      requires Valid()
      modifies this
      ensures Valid()
      ensures State() == old(State()).(error := e)
    {
      error := e;
    }
  }
}
