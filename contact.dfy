/** The inquiry form of the contact page: its field rules, the optimistic
    clearing of a field's error on input, and the submission that races one
    record-store write against a 15-second timer and reports the outcome in
    a notification that dismisses itself after 5 seconds.

    The record store and the browser's timers are abstract: the controller
    records each write it issues and each callback it schedules, and the
    environment delivers their completions as events (`StoreSettles`,
    `TimerFires`). */
module Contact {
  import opened Wrappers
  import opened Text

  // ---------------------------------------------------------------- data

  /** The fields of the form (`FormData`'s keys). */
  datatype Field = FirstName | LastName | Email | Institution | InquiryType | Message | Consent

  /** `FormData`. */
  datatype FormData = FormData(
    firstName: string,
    lastName: string,
    email: string,
    institution: string,
    inquiryType: string,
    message: string,
    consent: bool)

  /** The form as the page creates it and as a successful submission leaves it. */
  const EmptyForm := FormData("", "", "", "", "", "", false)

  /** `FormErrors`: an error message per failing field; an absent key means
      the field shows no error. */
  type FormErrors = map<Field, string>

  const FirstNameRequired := "First name is required"
  const LastNameRequired := "Last name is required"
  const EmailRequired := "Email is required"
  const EmailInvalid := "Please enter a valid email address"
  const InquiryTypeRequired := "Please select an inquiry type"
  const MessageRequired := "Message is required"
  const MessageTooShort := "Message must be at least 10 characters"
  const ConsentRequired := "You must agree to the privacy policy"

  /** The first option of the inquiry-type select, which stands for "nothing chosen". */
  const InquiryPlaceholder := "Select an option"

  /** The shortest accepted message, in UTF-16 code units after trimming. */
  const MinMessageLength := 10

  // ------------------------------------------------------- email pattern

  /** A character of the class `[^\s@]`. */
  predicate EmailChar(c: char)
  {
    !IsSpace(c) && c != '@'
  }

  ghost predicate AllEmailChars(s: string)
  {
    forall k :: 0 <= k < |s| ==> EmailChar(s[k])
  }

  /** s matches `^[^\s@]+@[^\s@]+\.[^\s@]+$` with its '@' at index i and the
      literal '.' at index j: three non-empty runs of `[^\s@]` around them. */
  ghost predicate EmailPatternAt(s: string, i: nat, j: nat)
  {
    && 0 < i && i + 1 < j && j + 1 < |s|
    && s[i] == '@' && s[j] == '.'
    && AllEmailChars(s[..i]) && AllEmailChars(s[i + 1..j]) && AllEmailChars(s[j + 1..])
  }

  /** The language of the page's email regular expression. */
  ghost predicate MatchesEmailPattern(s: string)
  {
    exists i: nat, j: nat :: EmailPatternAt(s, i, j)
  }

  /** A direct test of the email pattern: no white space anywhere, exactly
      one '@' and not at the start, and a '.' in the domain that is neither
      its first nor its last character. */
  function EmailShapeOk(s: string): bool
  {
    var at := IndexOf(s, '@');
    && (forall k :: 0 <= k < |s| ==> !IsSpace(s[k]))
    && 0 < at && at + 3 <= |s|
    && '@' !in s[at + 1..]
    && '.' in s[at + 2..|s| - 1]
  }

  /** What the direct test accepts, the regular expression matches. */
  lemma EmailShapeSound(s: string)
    requires EmailShapeOk(s)
    ensures MatchesEmailPattern(s)
  {
    var i := IndexOf(s, '@');
    var d := s[i + 2..|s| - 1];
    var j := i + 2 + IndexOf(d, '.');
    assert s[j] == d[j - i - 2];
    var local, mid, top, rest := s[..i], s[i + 1..j], s[j + 1..], s[i + 1..];
    forall k | 0 <= k < |local| ensures EmailChar(local[k]) {
      assert local[k] == s[k];
    }
    forall k | 0 <= k < |mid| ensures EmailChar(mid[k]) {
      assert mid[k] == rest[k];
      assert rest[k] in rest;
    }
    forall k | 0 <= k < |top| ensures EmailChar(top[k]) {
      assert top[k] == rest[k + j - i];
      assert rest[k + j - i] in rest;
    }
    assert EmailPatternAt(s, i, j);
  }

  /** What the regular expression matches, the direct test accepts. */
  lemma EmailShapeComplete(s: string)
    requires MatchesEmailPattern(s)
    ensures EmailShapeOk(s)
  {
    var i: nat, j: nat :| EmailPatternAt(s, i, j);
    forall k | 0 <= k < |s| ensures !IsSpace(s[k]) && (k != i ==> s[k] != '@') {
      if k < i {
        assert s[k] == s[..i][k];
      } else if i < k < j {
        assert s[k] == s[i + 1..j][k - i - 1];
      } else if j < k {
        assert s[k] == s[j + 1..][k - j - 1];
      }
    }
    assert IndexOf(s, '@') == i;
    var rest := s[i + 1..];
    assert '@' !in rest by {
      forall k | 0 <= k < |rest| ensures rest[k] != '@' {
        assert rest[k] == s[k + i + 1];
      }
    }
    assert s[i + 2..|s| - 1][j - i - 2] == '.';
  }

  /** The direct test accepts exactly the strings the regular expression matches. */
  lemma EmailShapeIffPattern(s: string)
    ensures EmailShapeOk(s) <==> MatchesEmailPattern(s)
  {
    if EmailShapeOk(s) {
      EmailShapeSound(s);
    }
    if MatchesEmailPattern(s) {
      EmailShapeComplete(s);
    }
  }

  // ----------------------------------------------------------- validation

  /** Every field of the form. */
  const AllFields: set<Field> := {FirstName, LastName, Email, Institution, InquiryType, Message, Consent}

  /** The rule `validateForm` applies to one field: the message it records
      for that field, if any. The institution has no rule. */
  function FieldError(f: FormData, fld: Field): (e: Option<string>)
    ensures fld == FirstName ==> (e.Some? <==> Blank(f.firstName)) && (e.Some? ==> e.value == FirstNameRequired)
    ensures fld == LastName ==> (e.Some? <==> Blank(f.lastName)) && (e.Some? ==> e.value == LastNameRequired)
    ensures fld == Email ==>
      && (e.Some? <==> Blank(f.email) || !MatchesEmailPattern(f.email))
      && (e.Some? ==> e.value == if Blank(f.email) then EmailRequired else EmailInvalid)
    ensures fld == Institution ==> e.None?
    ensures fld == InquiryType ==>
      && (e.Some? <==> f.inquiryType == "" || f.inquiryType == InquiryPlaceholder)
      && (e.Some? ==> e.value == InquiryTypeRequired)
    ensures fld == Message ==>
      && (e.Some? <==> Utf16Length(Trim(f.message)) < MinMessageLength)
      && (e.Some? ==> e.value == if Blank(f.message) then MessageRequired else MessageTooShort)
    ensures fld == Consent ==> (e.Some? <==> !f.consent) && (e.Some? ==> e.value == ConsentRequired)
  {
    match fld
    case FirstName =>
      TrimEmptyIff(f.firstName);
      if Trim(f.firstName) == "" then Some(FirstNameRequired) else None
    case LastName =>
      TrimEmptyIff(f.lastName);
      if Trim(f.lastName) == "" then Some(LastNameRequired) else None
    case Email =>
      TrimEmptyIff(f.email);
      EmailShapeIffPattern(f.email);
      if Trim(f.email) == "" then Some(EmailRequired)
      else if !EmailShapeOk(f.email) then Some(EmailInvalid)
      else None
    case Institution => None
    case InquiryType =>
      if f.inquiryType == "" || f.inquiryType == InquiryPlaceholder then Some(InquiryTypeRequired) else None
    case Message =>
      TrimEmptyIff(f.message);
      if Trim(f.message) == "" then Some(MessageRequired)
      else if Utf16Length(Trim(f.message)) < MinMessageLength then Some(MessageTooShort)
      else None
    case Consent => if !f.consent then Some(ConsentRequired) else None
  }

  /** `validateForm`'s error map. */
  function Validate(f: FormData): FormErrors
  {
    map fld | fld in AllFields && FieldError(f, fld).Some? :: FieldError(f, fld).value
  }

  /** Every rule of `validateForm` runs, independently of the others: a field
      is a key of the error map exactly when its rule fails, with that
      rule's message, and the institution is never one. */
  lemma ValidateRules(f: FormData)
    ensures var errors := Validate(f);
      && (FirstName in errors <==> Blank(f.firstName))
      && (LastName in errors <==> Blank(f.lastName))
      && (Email in errors <==> Blank(f.email) || !MatchesEmailPattern(f.email))
      && (InquiryType in errors <==> f.inquiryType == "" || f.inquiryType == InquiryPlaceholder)
      && (Message in errors <==> Utf16Length(Trim(f.message)) < MinMessageLength)
      && (Consent in errors <==> !f.consent)
      && Institution !in errors
      && (FirstName in errors ==> errors[FirstName] == FirstNameRequired)
      && (LastName in errors ==> errors[LastName] == LastNameRequired)
      && (Email in errors ==> errors[Email] == if Blank(f.email) then EmailRequired else EmailInvalid)
      && (InquiryType in errors ==> errors[InquiryType] == InquiryTypeRequired)
      && (Message in errors ==>
            errors[Message] == if Blank(f.message) then MessageRequired else MessageTooShort)
      && (Consent in errors ==> errors[Consent] == ConsentRequired)
  {
    var _ := FieldError(f, FirstName);
    var _ := FieldError(f, LastName);
    var _ := FieldError(f, Email);
    var _ := FieldError(f, Institution);
    var _ := FieldError(f, InquiryType);
    var _ := FieldError(f, Message);
    var _ := FieldError(f, Consent);
  }

  /** The form may be submitted exactly when every required field passes its rule. */
  lemma ValidIff(f: FormData)
    ensures |Validate(f)| == 0 <==>
      && !Blank(f.firstName) && !Blank(f.lastName)
      && MatchesEmailPattern(f.email) && !Blank(f.email)
      && f.inquiryType != "" && f.inquiryType != InquiryPlaceholder
      && Utf16Length(Trim(f.message)) >= MinMessageLength
      && f.consent
  {
    ValidateRules(f);
    var errors := Validate(f);
    if forall fld: Field :: fld !in errors {
      assert errors.Keys == {};
    }
  }

  /** A message of exactly ten trimmed code units passes; one code unit fewer fails. */
  lemma MessageBoundary(f: FormData)
    ensures Utf16Length(Trim(f.message)) == MinMessageLength ==> Message !in Validate(f)
    ensures Utf16Length(Trim(f.message)) == MinMessageLength - 1 ==>
      Validate(f)[Message] == MessageTooShort
  {
    ValidateRules(f);
    TrimEmptyIff(f.message);
  }

  /** The pattern is tested on the untrimmed email, so any white space in a
      non-blank email, surrounding spaces included, makes it invalid. */
  lemma EmailWithSpaceIsInvalid(f: FormData, k: nat)
    requires k < |f.email| && IsSpace(f.email[k]) && !Blank(f.email)
    ensures Validate(f)[Email] == EmailInvalid
  {
    ValidateRules(f);
    EmailShapeIffPattern(f.email);
  }

  // --------------------------------------------------------------- input

  /** A change event from the form: a text input (its `name` and `value`)
      or the consent checkbox (its `checked`). */
  datatype Edit = SetText(field: Field, text: string) | SetConsent(checked: bool)
  {
    /** The only checkbox of the form is the consent box. */
    predicate WellFormed()
    {
      SetText? ==> field != Consent
    }

    function Target(): Field
    {
      if SetText? then field else Consent
    }
  }

  /** A field's value, text or boolean. */
  datatype Value = Text(s: string) | Checked(b: bool)

  function ValueOf(f: FormData, fld: Field): Value
  {
    match fld
    case FirstName => Text(f.firstName)
    case LastName => Text(f.lastName)
    case Email => Text(f.email)
    case Institution => Text(f.institution)
    case InquiryType => Text(f.inquiryType)
    case Message => Text(f.message)
    case Consent => Checked(f.consent)
  }

  function EditValue(e: Edit): Value
  {
    if e.SetText? then Text(e.text) else Checked(e.checked)
  }

  /** Two forms that agree on every field are the same form. */
  lemma FormExtensionality(f: FormData, g: FormData)
    requires forall fld: Field :: ValueOf(f, fld) == ValueOf(g, fld)
    ensures f == g
  {
    assert ValueOf(f, FirstName) == ValueOf(g, FirstName);
    assert ValueOf(f, LastName) == ValueOf(g, LastName);
    assert ValueOf(f, Email) == ValueOf(g, Email);
    assert ValueOf(f, Institution) == ValueOf(g, Institution);
    assert ValueOf(f, InquiryType) == ValueOf(g, InquiryType);
    assert ValueOf(f, Message) == ValueOf(g, Message);
    assert ValueOf(f, Consent) == ValueOf(g, Consent);
  }

  /** `{ ...prev, [name]: value }`: the named field takes the new value and
      every other field keeps its old one. */
  function ApplyEdit(f: FormData, e: Edit): (g: FormData)
    requires e.WellFormed()
    ensures ValueOf(g, e.Target()) == EditValue(e)
    ensures forall fld: Field :: fld != e.Target() ==> ValueOf(g, fld) == ValueOf(f, fld)
  {
    match e
    case SetConsent(b) => f.(consent := b)
    case SetText(fld, v) =>
      match fld
      case FirstName => f.(firstName := v)
      case LastName => f.(lastName := v)
      case Email => f.(email := v)
      case Institution => f.(institution := v)
      case InquiryType => f.(inquiryType := v)
      case Message => f.(message := v)
  }

  /** Applying the same change twice gives the form applying it once gives. */
  lemma ApplyEditIdempotent(f: FormData, e: Edit)
    requires e.WellFormed()
    ensures ApplyEdit(ApplyEdit(f, e), e) == ApplyEdit(f, e)
  {
    var g := ApplyEdit(f, e);
    var h := ApplyEdit(g, e);
    forall fld: Field ensures ValueOf(h, fld) == ValueOf(g, fld) {
    }
    FormExtensionality(h, g);
  }

  /** The error clearing of `handleInputChange`: the edited field loses its
      error if it had one, and every other entry stays as it was. */
  function ClearError(errors: FormErrors, fld: Field): (r: FormErrors)
    ensures fld !in r
    ensures forall other: Field :: other != fld ==> (other in r <==> other in errors)
    ensures forall other: Field :: other != fld && other in r ==> r[other] == errors[other]
    ensures fld !in errors ==> r == errors
  {
    if fld in errors then errors - {fld} else errors
  }

  // ---------------------------------------------------------- submission

  const ThankYouText := "Thank you for contacting us! We'll get back to you within 24-48 hours."
  const TimeoutText := "Request timed out. Please check your connection and try again."
  const GenericFailureText := "Something went wrong. Please try again or email us directly."

  /** What a rejected promise carries: an `Error` with its message, or any other value. */
  datatype Thrown = ErrorValue(message: string) | OtherValue

  /** The rejection of the page's own 15-second timer. */
  const TimeoutError := ErrorValue("Request timed out")

  /** The failure text the `catch` block chooses: the timeout text for an
      `Error` whose message is exactly "Request timed out" (whoever threw
      it), the generic text for anything else. */
  function FailureText(t: Thrown): (text: string)
    ensures text == TimeoutText <==> t == TimeoutError
    ensures text == TimeoutText || text == GenericFailureText
  {
    if t.ErrorValue? && t.message == "Request timed out" then TimeoutText else GenericFailureText
  }

  /** `serverTimestamp()`: a marker the store replaces with its own clock. */
  datatype Timestamp = ServerTimestamp

  /** The document written to the 'contacts' collection. */
  datatype SubmissionRecord = SubmissionRecord(fields: FormData, submittedAt: Timestamp, status: string)

  function RecordOf(f: FormData): (r: SubmissionRecord)
    ensures r.fields == f && r.status == "new"
  {
    SubmissionRecord(f, ServerTimestamp, "new")
  }

  /** `submitStatus`. */
  datatype SubmitStatus = Idle | Success | Failure

  /** What the store's write promise did. */
  datatype StoreResult = Stored | Rejected(thrown: Thrown)

  /** What a scheduled timer will do when it fires: dismiss the notification,
      or reject the race of the given submission attempt. */
  datatype TimerCallback = ResetStatus | RejectAttempt(attempt: nat)

  /** A submission awaiting its race: the index of its write in the store
      log and the handle of its timeout timer. */
  datatype Flight = Flight(attempt: nat, timeoutId: nat)

  const NotificationDelayMs := 5000
  const SubmissionTimeoutMs := 15000

  /** The pending timers after `showNotification` cancels the old dismissal
      (if any) and schedules a new one under the handle id. */
  function RescheduleReset(timers: map<nat, TimerCallback>, current: Option<nat>, id: nat): (r: map<nat, TimerCallback>)
    ensures id in r && r[id] == ResetStatus
    ensures current.Some? && current.value != id ==> current.value !in r
    ensures forall t :: t in r && t != id ==> t in timers && r[t] == timers[t]
    ensures forall t :: t in timers && t != id && (current.None? || t != current.value) ==> t in r
  {
    (if current.Some? then timers - {current.value} else timers)[id := ResetStatus]
  }

  /** The handles of the pending dismissal timers. */
  function ResetIds(timers: map<nat, TimerCallback>): set<nat>
  {
    set t | t in timers && timers[t] == ResetStatus
  }

  /** When every pending dismissal timer is the one the page's ref holds,
      at most one is pending. */
  lemma AtMostOneReset(timers: map<nat, TimerCallback>, current: Option<nat>)
    requires forall t :: t in timers && timers[t] == ResetStatus ==> current == Some(t)
    ensures |ResetIds(timers)| <= 1
  {
    var ids := ResetIds(timers);
    if current.Some? {
      assert ids <= {current.value};
      if ids != {} {
        assert ids == {current.value};
      }
    } else {
      assert ids == {};
    }
  }

  // ---------------------------------------------------------- controller

  /** The state of `ContactPage` and the handlers that change it. */
  class InquiryController {
    var formData: FormData
    var errors: FormErrors
    var isSubmitting: bool
    var submitStatus: SubmitStatus
    var submitMessage: string
    /** `notificationTimeoutRef.current`: the last dismissal timer scheduled. */
    var notificationTimeout: Option<nat>
    /** The callbacks scheduled with `setTimeout` that have neither fired nor been cleared. */
    var timers: map<nat, TimerCallback>
    /** The handle the next `setTimeout` returns; browsers hand out positive handles. */
    var nextTimerId: nat
    /** Every document handed to the store, in the order of the calls. */
    var store: seq<SubmissionRecord>
    /** The submission whose race has not settled yet. */
    var inFlight: Option<Flight>

    ghost predicate Valid()
      reads this
    {
      && 0 < nextTimerId
      && (forall t :: t in timers ==> 0 < t < nextTimerId)
      && (notificationTimeout.Some? ==> 0 < notificationTimeout.value < nextTimerId)
      && (forall t :: t in timers && timers[t] == ResetStatus ==> notificationTimeout == Some(t))
      && (notificationTimeout.Some? && notificationTimeout.value in timers ==>
            timers[notificationTimeout.value] == ResetStatus)
      && (forall t :: t in timers && timers[t].RejectAttempt? ==> inFlight == Some(Flight(timers[t].attempt, t)))
      && (isSubmitting <==> inFlight.Some?)
      && (inFlight.Some? ==>
            && inFlight.value.attempt == |store| - 1
            && inFlight.value.timeoutId in timers
            && timers[inFlight.value.timeoutId] == RejectAttempt(inFlight.value.attempt))
    }

    /** The page as first rendered. */
    constructor ()
      ensures Valid()
      ensures formData == EmptyForm && errors == map[] && !isSubmitting
      ensures submitStatus == Idle && submitMessage == ""
      ensures notificationTimeout == None && timers == map[] && store == [] && inFlight == None
    {
      formData := EmptyForm;
      errors := map[];
      isSubmitting := false;
      submitStatus := Idle;
      submitMessage := "";
      notificationTimeout := None;
      timers := map[];
      nextTimerId := 1;
      store := [];
      inFlight := None;
    }

    /** At most one dismissal timer is ever pending. */
    lemma OneResetPending()
      requires Valid()
      ensures |ResetIds(timers)| <= 1
    {
      AtMostOneReset(timers, notificationTimeout);
    }

    /** `validateForm`: replaces the error map wholesale and reports whether it is empty. */
    method ValidateForm() returns (ok: bool)
      requires Valid()
      modifies this`errors
      ensures Valid()
      ensures errors == Validate(formData)
      ensures ok <==> |errors| == 0
    {
      var f := formData;
      var found := Validate(f);
      ok := |found| == 0;
      errors := found;
      assert formData == f;
    }

    /** `handleInputChange`. */
    method HandleInputChange(e: Edit)
      requires Valid() && e.WellFormed()
      modifies this`formData, this`errors
      ensures Valid()
      ensures formData == ApplyEdit(old(formData), e)
      ensures errors == ClearError(old(errors), e.Target())
    {
      formData := ApplyEdit(formData, e);
      if e.Target() in errors {
        errors := errors - {e.Target()};
      }
    }

    /** `showNotification`: show the banner and (re)start its 5-second dismissal. */
    method ShowNotification(status: SubmitStatus, message: string)
      requires Valid() && status != Idle
      modifies this`submitStatus, this`submitMessage, this`notificationTimeout, this`timers, this`nextTimerId
      ensures Valid()
      ensures submitStatus == status && submitMessage == message
      ensures notificationTimeout == Some(old(nextTimerId)) && nextTimerId == old(nextTimerId) + 1
      ensures timers == RescheduleReset(old(timers), old(notificationTimeout), old(nextTimerId))
    {
      submitStatus := status;
      submitMessage := message;
      if notificationTimeout.Some? {
        timers := timers - {notificationTimeout.value};
      }
      var id := nextTimerId;
      nextTimerId := nextTimerId + 1;
      timers := timers[id := ResetStatus];
      notificationTimeout := Some(id);
    }

    /** `handleSubmit` up to its `await`: validate; if the form passes, go
        busy, arm the 15-second timer and issue the store write. The submit
        button is disabled while a submission is in flight, so the page
        never calls this while `isSubmitting`. */
    method Submit() returns (started: bool)
      requires Valid() && !isSubmitting
      modifies this
      ensures Valid()
      ensures errors == Validate(old(formData))
      ensures started <==> |Validate(old(formData))| == 0
      ensures formData == old(formData) && submitMessage == old(submitMessage)
      ensures notificationTimeout == old(notificationTimeout)
      ensures !started ==>
        && store == old(store) && timers == old(timers) && nextTimerId == old(nextTimerId)
        && !isSubmitting && inFlight == None && submitStatus == old(submitStatus)
      ensures started ==>
        && store == old(store) + [RecordOf(old(formData))]
        && isSubmitting && submitStatus == Idle
        && inFlight == Some(Flight(|old(store)|, old(nextTimerId)))
        && timers == old(timers)[old(nextTimerId) := RejectAttempt(|old(store)|)]
        && nextTimerId == old(nextTimerId) + 1
    {
      started := ValidateForm();
      if started {
        Launch();
      }
    }

    /** The part of `handleSubmit` after validation has passed: go busy,
        clear the banner, arm the 15-second timer and issue the store write. */
    method Launch()
      requires Valid() && !isSubmitting
      modifies this`isSubmitting, this`submitStatus, this`nextTimerId, this`timers, this`store, this`inFlight
      ensures Valid()
      ensures store == old(store) + [RecordOf(formData)]
      ensures isSubmitting && submitStatus == Idle
      ensures inFlight == Some(Flight(|old(store)|, old(nextTimerId)))
      ensures timers == old(timers)[old(nextTimerId) := RejectAttempt(|old(store)|)]
      ensures nextTimerId == old(nextTimerId) + 1
    {
      isSubmitting := true;
      submitStatus := Idle;
      var attempt := |store|;
      var timeoutId := nextTimerId;
      nextTimerId := nextTimerId + 1;
      timers := timers[timeoutId := RejectAttempt(attempt)];
      store := store + [RecordOf(formData)];
      inFlight := Some(Flight(attempt, timeoutId));
    }

    /** The rest of `handleSubmit` once its race has settled with outcome
        `result`: notify, reset the form on success, and in the `finally`
        step clear the timeout timer and leave the busy state. */
    method Settle(result: StoreResult)
      requires Valid() && inFlight.Some?
      modifies this
      ensures Valid()
      ensures !isSubmitting && inFlight == None
      ensures errors == old(errors) && store == old(store)
      ensures notificationTimeout == Some(old(nextTimerId)) && nextTimerId == old(nextTimerId) + 1
      ensures timers == RescheduleReset(old(timers) - {old(inFlight).value.timeoutId}, old(notificationTimeout), old(nextTimerId))
      ensures result.Stored? ==>
        submitStatus == Success && submitMessage == ThankYouText && formData == EmptyForm
      ensures result.Rejected? ==>
        submitStatus == Failure && submitMessage == FailureText(result.thrown) && formData == old(formData)
    {
      // The notification, the form reset and the `finally` block run in one
      // synchronous continuation; the busy state is left first here so that
      // the controller's invariant holds while the notification is shown.
      EndFlight();
      if result.Stored? {
        ShowNotification(Success, ThankYouText);
        formData := EmptyForm;
      } else {
        ShowNotification(Failure, FailureText(result.thrown));
      }
    }

    /** The `finally` block: cancel the submission's timer and leave the busy state. */
    method EndFlight()
      requires Valid() && inFlight.Some?
      modifies this`inFlight, this`timers, this`isSubmitting
      ensures Valid()
      ensures !isSubmitting && inFlight == None
      ensures timers == old(timers) - {old(inFlight).value.timeoutId}
    {
      timers := timers - {inFlight.value.timeoutId};
      inFlight := None;
      isSubmitting := false;
    }

    /** The store's write promise for `attempt` settles. If that attempt's
        race is still open, its result decides the outcome; otherwise the
        timer already won and the late result changes nothing. */
    method StoreSettles(attempt: nat, result: StoreResult)
      requires Valid() && attempt < |store|
      modifies this
      ensures Valid()
      ensures !(old(inFlight).Some? && old(inFlight).value.attempt == attempt) ==>
        && formData == old(formData) && errors == old(errors) && isSubmitting == old(isSubmitting)
        && submitStatus == old(submitStatus) && submitMessage == old(submitMessage)
        && notificationTimeout == old(notificationTimeout) && timers == old(timers)
        && nextTimerId == old(nextTimerId) && store == old(store) && inFlight == old(inFlight)
      ensures old(inFlight).Some? && old(inFlight).value.attempt == attempt ==>
        && !isSubmitting && inFlight == None && old(inFlight).value.timeoutId !in timers
        && errors == old(errors) && store == old(store)
        && notificationTimeout == Some(old(nextTimerId)) && nextTimerId == old(nextTimerId) + 1
        && timers == RescheduleReset(old(timers) - {old(inFlight).value.timeoutId}, old(notificationTimeout), old(nextTimerId))
        && (result.Stored? ==> submitStatus == Success && submitMessage == ThankYouText && formData == EmptyForm)
        && (result.Rejected? ==>
              submitStatus == Failure && submitMessage == FailureText(result.thrown) && formData == old(formData))
    {
      if inFlight.Some? && inFlight.value.attempt == attempt {
        Settle(result);
      }
    }

    /** A pending timer fires: a dismissal returns the banner to idle; a
        submission timeout settles that submission's race as a failure. */
    method TimerFires(id: nat)
      requires Valid() && id in timers
      modifies this
      ensures Valid()
      ensures id !in timers
      ensures old(timers)[id] == ResetStatus ==>
        && submitStatus == Idle && timers == old(timers) - {id}
        && formData == old(formData) && errors == old(errors) && isSubmitting == old(isSubmitting)
        && submitMessage == old(submitMessage) && notificationTimeout == old(notificationTimeout)
        && nextTimerId == old(nextTimerId) && store == old(store) && inFlight == old(inFlight)
      ensures old(timers)[id].RejectAttempt? ==>
        && !isSubmitting && inFlight == None
        && submitStatus == Failure && submitMessage == TimeoutText && formData == old(formData)
        && errors == old(errors) && store == old(store)
        && notificationTimeout == Some(old(nextTimerId)) && nextTimerId == old(nextTimerId) + 1
        && timers == RescheduleReset(old(timers) - {id}, old(notificationTimeout), old(nextTimerId))
    {
      var callback := timers[id];
      if callback == ResetStatus {
        timers := timers - {id};
        submitStatus := Idle;
      } else {
        Settle(Rejected(TimeoutError));
      }
    }

    /** The effect cleanup on unmount: cancel the pending dismissal. */
    method Teardown()
      requires Valid()
      modifies this`timers
      ensures Valid()
      ensures timers == if notificationTimeout.Some? then old(timers) - {notificationTimeout.value} else old(timers)
    {
      if notificationTimeout.Some? {
        timers := timers - {notificationTimeout.value};
      }
    }
  }
}
