/** The contact form (src/components/ContactForm.tsx): five text fields, a
    validator that builds a fresh error map, and a simulated submission in
    three phases (errors shown, submitting, submitted) ending in a reset. The
    1.5-second pause that stands in for an API call and the 3-second timer
    before the reset are steps here; their durations are not modelled. */
module Contact {
  import opened Js

  datatype Form = Form(name: string, email: string, company: string, license: string, message: string)

  const EmptyForm := Form("", "", "", "", "")

  const NameRequired := "Name is required"
  const EmailRequired := "Email is required"
  const EmailInvalid := "Please enter a valid email address"
  const LicenseRequired := "Please select a license type"

  /** The values of the license `<select>`: the placeholder, then the four
      license types. */
  const LicenseOptions: seq<string> := ["", "Office", "Adobe", "Antivirus", "Other"]

  /** What `/^\S+@\S+\.\S+$/` accepts: no white space anywhere, and an `@`
      and a later `.` with at least one character before the `@`, between
      the two, and after the `.`. */
  ghost predicate MatchesEmailPattern(s: string) {
    && NoSpace(s)
    && exists at, dot :: 0 < at && at + 1 < dot && dot + 1 < |s| && s[at] == '@' && s[dot] == '.'
  }

  /** The first position at or after `from` holding `c`. */
  function IndexFrom(s: string, c: char, from: nat): (r: Option<nat>)
    requires from <= |s|
    ensures r.Some? ==> from <= r.value < |s| && s[r.value] == c
    ensures r.Some? ==> forall k :: from <= k < r.value ==> s[k] != c
    ensures r.None? ==> forall k :: from <= k < |s| ==> s[k] != c
    decreases |s| - from
  {
    if from == |s| then None
    else if s[from] == c then Some(from)
    else IndexFrom(s, c, from + 1)
  }

  /** The last position before `end` holding `c`. */
  function LastIndexBefore(s: string, c: char, end: nat): (r: Option<nat>)
    requires end <= |s|
    ensures r.Some? ==> r.value < end && s[r.value] == c
    ensures r.Some? ==> forall k :: r.value < k < end ==> s[k] != c
    ensures r.None? ==> forall k :: 0 <= k < end ==> s[k] != c
    decreases end
  {
    if end == 0 then None
    else if s[end - 1] == c then Some(end - 1)
    else LastIndexBefore(s, c, end - 1)
  }

  /** `/^\S+@\S+\.\S+$/.test(s)`, decided by one scan: the first `@` after
      the first character and the last `.` before the last character must
      leave a character between them. */
  function IsEmail(s: string): (b: bool)
    ensures b <==> MatchesEmailPattern(s)
  {
    if |s| == 0 || !NoSpace(s) then false
    else
      EmailScanCorrect(s);
      var at := IndexFrom(s, '@', 1);
      var dot := LastIndexBefore(s, '.', |s| - 1);
      at.Some? && dot.Some? && at.value + 1 < dot.value
  }

  lemma EmailScanCorrect(s: string)
    requires |s| > 0 && NoSpace(s)
    ensures var at := IndexFrom(s, '@', 1);
      var dot := LastIndexBefore(s, '.', |s| - 1);
      (at.Some? && dot.Some? && at.value + 1 < dot.value) <==> MatchesEmailPattern(s)
  {
  }

  /** `validate`: name required (after trimming), email required (after
      trimming) and matching the pattern (as typed, untrimmed), license
      required. Company and message are never checked. */
  function Validate(f: Form): (errs: map<string, string>)
    ensures errs.Keys <= {"name", "email", "license"}
    ensures "name" in errs <==> IsBlank(f.name)
    ensures "email" in errs <==> IsBlank(f.email) || !MatchesEmailPattern(f.email)
    ensures "license" in errs <==> f.license == ""
    ensures "name" in errs ==> errs["name"] == NameRequired
    ensures "email" in errs ==> errs["email"] == if IsBlank(f.email) then EmailRequired else EmailInvalid
    ensures "license" in errs ==> errs["license"] == LicenseRequired
  {
    var errs := map[];
    var errs := if Trim(f.name) == "" then errs["name" := NameRequired] else errs;
    var errs :=
      if Trim(f.email) == "" then errs["email" := EmailRequired]
      else if !IsEmail(f.email) then errs["email" := EmailInvalid]
      else errs;
    if f.license == "" then errs["license" := LicenseRequired] else errs
  }

  /** Every form with a non-blank name, an address matching the pattern and a
      chosen license has no errors, whatever its company and message. */
  lemma ValidFormPasses(f: Form)
    requires !IsBlank(f.name) && MatchesEmailPattern(f.email) && f.license != ""
    ensures Validate(f) == map[]
  {
    assert Validate(f).Keys == {};
  }

  /** The pattern is tested on the email as typed: white space around an
      otherwise valid address makes it invalid, not merely trimmed. */
  lemma PaddedEmailInvalid(f: Form, e: string)
    requires MatchesEmailPattern(e)
    ensures "email" !in Validate(f.(email := e))
    ensures Validate(f.(email := " " + e))["email"] == EmailInvalid
  {
  }

  /** Every real license type passes the license check; the placeholder does
      not. */
  lemma LicenseOptionsChecked(f: Form)
    ensures "license" in Validate(f.(license := LicenseOptions[0]))
    ensures forall i :: 1 <= i < |LicenseOptions| ==> "license" !in Validate(f.(license := LicenseOptions[i]))
  {
  }

  datatype Field = NameField | EmailField | CompanyField | LicenseField | MessageField

  /** `setForm({ ...form, <field>: value })`. */
  function WithField(f: Form, field: Field, value: string): Form {
    match field
    case NameField => f.(name := value)
    case EmailField => f.(email := value)
    case CompanyField => f.(company := value)
    case LicenseField => f.(license := value)
    case MessageField => f.(message := value)
  }

  datatype ContactState = ContactState(
    form: Form, errors: map<string, string>, isSubmitting: bool, isSubmitted: bool)

  const Initial := ContactState(EmptyForm, map[], false, false)

  /** An edit of one field, a click on submit, the end of the simulated API
      call, and the firing of the reset timer. */
  datatype ContactEvent =
    | Edited(field: Field, value: string)
    | SubmitClicked
    | CallFinished
    | ResetTimerFired

  /** `handleSubmit` up to its `await`: with errors, show them and change
      nothing else; without, start submitting and clear the errors. */
  function AfterSubmit(s: ContactState): (t: ContactState)
    ensures Validate(s.form) != map[] ==> t == s.(errors := Validate(s.form))
    ensures Validate(s.form) == map[] ==>
      t.isSubmitting && t.errors == map[] && t.form == s.form && t.isSubmitted == s.isSubmitted
  {
    var errs := Validate(s.form);
    if |errs| > 0 then s.(errors := errs)
    else s.(isSubmitting := true, errors := map[])
  }

  function Step(s: ContactState, e: ContactEvent): ContactState {
    match e
    case Edited(field, value) => s.(form := WithField(s.form, field, value))
    case SubmitClicked => AfterSubmit(s)
    case CallFinished => s.(isSubmitting := false, isSubmitted := true)
    case ResetTimerFired => s.(form := EmptyForm, isSubmitted := false)
  }

  /** Which events can happen: the form (and so every edit and submission)
      is replaced by the thank-you panel while submitted; the submit button
      is disabled while submitting; the simulated call is outstanding exactly
      while submitting, and the reset timer exactly while submitted. */
  predicate Allowed(s: ContactState, e: ContactEvent): (ok: bool)
    ensures s.isSubmitted && !s.isSubmitting ==> (ok <==> e.ResetTimerFired?)
    ensures ok && e.SubmitClicked? ==> !s.isSubmitting && !s.isSubmitted
    ensures e.CallFinished? ==> (ok <==> s.isSubmitting)
    ensures !s.isSubmitted && e.Edited? ==> ok
  {
    match e
    case Edited(_, _) => !s.isSubmitted
    case SubmitClicked => !s.isSubmitting && !s.isSubmitted
    case CallFinished => s.isSubmitting
    case ResetTimerFired => s.isSubmitted
  }

  function Run(s: ContactState, events: seq<ContactEvent>): ContactState
    decreases |events|
  {
    if events == [] then s else Run(Step(s, events[0]), events[1..])
  }

  predicate AllowedRun(s: ContactState, events: seq<ContactEvent>)
    decreases |events|
  {
    events == [] || (Allowed(s, events[0]) && AllowedRun(Step(s, events[0]), events[1..]))
  }

  /** The phases are exclusive, and no error is shown while submitting or
      after a submission. */
  predicate PhasesConsistent(s: ContactState) {
    && !(s.isSubmitting && s.isSubmitted)
    && (s.isSubmitting || s.isSubmitted ==> s.errors == map[])
  }

  lemma {:induction false} RunKeepsPhasesConsistent(s: ContactState, events: seq<ContactEvent>)
    requires PhasesConsistent(s) && AllowedRun(s, events)
    ensures PhasesConsistent(Run(s, events))
    decreases |events|
  {
    if events != [] {
      var t := Step(s, events[0]);
      assert PhasesConsistent(t);
      RunKeepsPhasesConsistent(t, events[1..]);
    }
  }

  /** On mount the phases are consistent, and they stay so under every
      allowed sequence of events. */
  lemma InitialRunsKeepPhasesConsistent(events: seq<ContactEvent>)
    requires AllowedRun(Initial, events)
    ensures PhasesConsistent(Run(Initial, events))
  {
    RunKeepsPhasesConsistent(Initial, events);
  }

  /** A valid form goes through submitting and submitted and comes back to
      the initial state: all five fields empty, no errors, idle. */
  lemma SuccessfulSubmission(s: ContactState)
    requires Validate(s.form) == map[] && !s.isSubmitted
    ensures var t := Run(s, [SubmitClicked]);
      t.isSubmitting && !t.isSubmitted && t.errors == map[] && t.form == s.form
    ensures var t := Run(s, [SubmitClicked, CallFinished]);
      !t.isSubmitting && t.isSubmitted && t.errors == map[] && t.form == s.form
    ensures Run(s, [SubmitClicked, CallFinished, ResetTimerFired]) == Initial
  {
  }

  /** The component's state, updated in place by its handlers. */
  class ContactForm {
    var form: Form
    var errors: map<string, string>
    var isSubmitting: bool
    var isSubmitted: bool

    function State(): ContactState
      reads this
    {
      ContactState(form, errors, isSubmitting, isSubmitted)
    }

    constructor ()
      ensures State() == Initial
    {
      form := EmptyForm;
      errors := map[];
      isSubmitting := false;
      isSubmitted := false;
    }

    /** A field's `onChange`. */
    method OnChange(field: Field, value: string)
      modifies this
      ensures State() == Step(old(State()), Edited(field, value))
    {
      form := WithField(form, field, value);
    }

    /** `handleSubmit` up to its `await`. */
    method HandleSubmit()
      modifies this
      ensures State() == Step(old(State()), SubmitClicked)
    {
      var errs := Validate(form);
      if |errs| > 0 {
        errors := errs;
      } else {
        isSubmitting := true;
        errors := map[];
      }
    }

    /** `handleSubmit` after its `await`: submitting ends, submitted begins
        (and the reset timer is armed). */
    method FinishSubmit()
      modifies this
      ensures State() == Step(old(State()), CallFinished)
    {
      isSubmitting := false;
      isSubmitted := true;
    }

    /** The reset timer: every field emptied, back to the form. */
    method ResetAfterSuccess()
      modifies this
      ensures State() == Step(old(State()), ResetTimerFired)
    {
      form := EmptyForm;
      isSubmitted := false;
    }
  }
}
