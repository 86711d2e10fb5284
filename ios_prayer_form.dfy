/** The iOS-style prayer-request form (src/components/IOSPrayerForm.tsx):
    it refuses a form without a name or a request, sends the trimmed fields
    and the signed-in user's id to the `send-prayer-request` function, and
    shows the thank-you screen once the function accepted them. The call is
    split at its `await`: the submission returns the payload it sends, and
    the completion takes the outcome. */
module IOSPrayerForm {
  import opened Wrappers
  import opened Text
  import opened PrayerFields

  /** The body of the `send-prayer-request` call. */
  datatype Payload = Payload(name: string, email: string, prayerRequest: string, userId: Option<string>)

  /** `user?.id || null`: the id of the signed-in user, `null` when there is
      none or it is empty. */
  function UserIdOf(user: Option<string>): (r: Option<string>)
    ensures r.Some? <==> user.Some? && user.value != ""
    ensures r.Some? ==> r == user
  {
    if user.Some? && user.value != "" then user else None
  }

  /** What `handleSubmit` sends for the fields: nothing for a form that is
      not filled, otherwise the three fields trimmed and the user's id. */
  function PayloadFor(name: string, email: string, request: string, user: Option<string>): (r: Option<Payload>)
    ensures r.None? <==> !Filled(name, request)
    ensures r.Some? ==> r.value == Payload(Trim(name), Trim(email), Trim(request), UserIdOf(user))
  {
    if IsBlank(name) || IsBlank(request) then None
    else Some(Payload(Trim(name), Trim(email), Trim(request), UserIdOf(user)))
  }

  /** The fields sent are already trimmed, the name and request are not
      blank, and none is longer than its input allows. */
  lemma PayloadIsClean(name: string, email: string, request: string, user: Option<string>)
    requires PayloadFor(name, email, request, user).Some?
    ensures var p := PayloadFor(name, email, request, user).value;
      && Trim(p.name) == p.name && Trim(p.email) == p.email && Trim(p.prayerRequest) == p.prayerRequest
      && !IsBlank(p.name) && !IsBlank(p.prayerRequest)
      && (WithinLimits(name, email, request) ==> WithinLimits(p.name, p.email, p.prayerRequest))
  {
    TrimIdempotent(name);
    TrimIdempotent(email);
    TrimIdempotent(request);
    TrimmedUtf16Shorter(name);
    TrimmedUtf16Shorter(email);
    TrimmedUtf16Shorter(request);
  }

  /** What the call came to: accepted, an error it reports, or an exception. */
  datatype Outcome = Sent | ReportedError | Threw

  const FailedMessage := "Failed to send prayer request. Please try again."
  const SentMessage := "Your prayer request has been sent"

  /** The state of the form. */
  class Form {
    /** The signed-in user's id, if any. */
    const user: Option<string>
    var name: string
    var email: string
    var request: string
    var isSubmitting: bool
    var isSubmitted: bool

    /** The fields hold what their inputs allow. */
    predicate Valid()
      reads this
    {
      WithinLimits(name, email, request)
    }

    /** An empty form. */
    constructor(user: Option<string>)
      ensures this.user == user && Valid()
      ensures name == "" && email == "" && request == ""
      ensures !isSubmitting && !isSubmitted
    {
      this.user := user;
      name, email, request := "", "", "";
      isSubmitting, isSubmitted := false, false;
    }

    /** Typing in a field; the inputs' `maxLength` keeps it within its limit. */
    method SetFields(newName: string, newEmail: string, newRequest: string)
      requires WithinLimits(newName, newEmail, newRequest)
      modifies this
      ensures name == newName && email == newEmail && request == newRequest && Valid()
      ensures isSubmitting == old(isSubmitting) && isSubmitted == old(isSubmitted)
    {
      name, email, request := newName, newEmail, newRequest;
    }

    /** Pressing submit, up to the `await` of `handleSubmit`. An e-mail the
        browser refuses stops the form before `handleSubmit` runs; otherwise
        a form that is not filled shows the fill-in toast and changes
        nothing, and a filled one starts submitting and sends the payload. */
    method HandleSubmit(emailAccepted: bool) returns (payload: Option<Payload>, toast: Option<Toast>)
      requires Valid()
      modifies this
      ensures payload == if EmailPasses(email, emailAccepted) then PayloadFor(name, email, request, user) else None
      ensures !EmailPasses(email, emailAccepted) ==> toast == None
      ensures EmailPasses(email, emailAccepted) && payload.None? ==> toast == Some(Failure(FillInMessage))
      ensures payload.None? ==> isSubmitting == old(isSubmitting)
      ensures payload.Some? ==> toast == None && isSubmitting
      ensures name == old(name) && email == old(email) && request == old(request)
      ensures isSubmitted == old(isSubmitted) && Valid()
    {
      if !EmailPasses(email, emailAccepted) {
        return None, None;
      }
      payload := PayloadFor(name, email, request, user);
      if payload.None? {
        return payload, Some(Failure(FillInMessage));
      }
      isSubmitting := true;
      toast := None;
    }

    /** `handleSubmit` after its `await`: only an accepted request shows the
        thank-you screen; submitting ends whatever happened. */
    method CompleteSubmit(outcome: Outcome) returns (toast: Toast)
      modifies this
      ensures toast == (if outcome == Sent then Success(SentMessage) else Failure(FailedMessage))
      ensures isSubmitted == (old(isSubmitted) || outcome == Sent)
      ensures !isSubmitting
      ensures name == old(name) && email == old(email) && request == old(request)
    {
      if outcome != Sent {
        toast := Failure(FailedMessage);
      } else {
        isSubmitted := true;
        toast := Success(SentMessage);
      }
      isSubmitting := false;
    }

    /** "Submit Another Request": back to an empty form. */
    method SubmitAnother()
      modifies this
      ensures name == "" && email == "" && request == "" && !isSubmitted && Valid()
      ensures isSubmitting == old(isSubmitting)
    {
      isSubmitted := false;
      name := "";
      email := "";
      request := "";
    }
  }

  /** A whole submission of an unfilled form, or of one whose e-mail the
      browser refuses, sends nothing; otherwise it sends the payload, and the
      form ends submitted exactly when the call succeeded. */
  method Submit(user: Option<string>, name: string, email: string, request: string, emailAccepted: bool, outcome: Outcome)
    returns (sent: Option<Payload>, submitted: bool, submitting: bool)
    requires WithinLimits(name, email, request)
    ensures sent == if EmailPasses(email, emailAccepted) then PayloadFor(name, email, request, user) else None
    ensures sent.None? ==> !submitted && !submitting
    ensures sent.Some? ==> (submitted <==> outcome == Sent) && !submitting
  {
    var form := new Form(user);
    form.SetFields(name, email, request);
    var refused;
    sent, refused := form.HandleSubmit(emailAccepted);
    if sent.Some? {
      var toast := form.CompleteSubmit(outcome);
    }
    submitted, submitting := form.isSubmitted, form.isSubmitting;
  }
}
