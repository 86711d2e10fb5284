/** The classic prayer-request form (src/components/PrayerRequestForm.tsx):
    it refuses a form without a name or a request; an accepted submission
    sends nothing anywhere, it only shows the thank-you screen when a
    one-second timer fires. The timer is the separate `TimerFires` step. */
module PrayerRequestForm {
  import opened Wrappers
  import opened Text
  import opened PrayerFields

  const ReceivedMessage := "Your prayer request has been received"

  /** The state of the form. */
  class Form {
    var name: string
    var email: string
    var request: string
    var isSubmitting: bool
    var isSubmitted: bool

    /** The fields hold what their inputs allow. */
    predicate Valid()
      reads this
    {
      WithinLimits(name, email, request)
    }

    /** An empty form. */
    constructor()
      ensures Valid() && name == "" && email == "" && request == ""
      ensures !isSubmitting && !isSubmitted
    {
      name, email, request := "", "", "";
      isSubmitting, isSubmitted := false, false;
    }

    /** Typing in a field; the inputs' `maxLength` keeps it within its limit. */
    method SetFields(newName: string, newEmail: string, newRequest: string)
      requires WithinLimits(newName, newEmail, newRequest)
      modifies this
      ensures name == newName && email == newEmail && request == newRequest && Valid()
      ensures isSubmitting == old(isSubmitting) && isSubmitted == old(isSubmitted)
    {
      name, email, request := newName, newEmail, newRequest;
    }

    /** Pressing submit. An e-mail the browser refuses stops the form before
        `handleSubmit` runs; otherwise a form that is not filled shows the
        fill-in toast and changes nothing, and a filled one starts
        submitting and sets the timer. */
    method HandleSubmit(emailAccepted: bool) returns (timerSet: bool, toast: Option<Toast>)
      modifies this
      ensures timerSet <==> EmailPasses(email, emailAccepted) && Filled(name, request)
      ensures !EmailPasses(email, emailAccepted) ==> toast == None
      ensures EmailPasses(email, emailAccepted) && !Filled(name, request) ==>
        toast == Some(Failure(FillInMessage))
      ensures !timerSet ==> isSubmitting == old(isSubmitting)
      ensures timerSet ==> toast == None && isSubmitting
      ensures name == old(name) && email == old(email) && request == old(request)
      ensures isSubmitted == old(isSubmitted)
    {
      if !EmailPasses(email, emailAccepted) {
        return false, None;
      }
      if IsBlank(name) || IsBlank(request) {
        return false, Some(Failure(FillInMessage));
      }
      isSubmitting := true;
      timerSet := true;
      toast := None;
    }

    /** The timer callback: submitting ends and the thank-you screen shows. */
    method TimerFires() returns (toast: Toast)
      modifies this
      ensures !isSubmitting && isSubmitted && toast == Success(ReceivedMessage)
      ensures name == old(name) && email == old(email) && request == old(request)
    {
      isSubmitting := false;
      isSubmitted := true;
      toast := Success(ReceivedMessage);
    }

    /** "Submit Another Request": back to an empty form. */
    method SubmitAnother()
      modifies this
      ensures name == "" && email == "" && request == "" && !isSubmitted && Valid()
      ensures isSubmitting == old(isSubmitting)
    {
      isSubmitted := false;
      name := "";
      email := "";
      request := "";
    }
  }

  /** A whole submission: a filled form whose e-mail the browser lets
      through ends on the thank-you screen once the timer fires; the form
      code itself never looks at the e-mail. Any other form stays as it was. */
  method Submit(name: string, email: string, request: string, emailAccepted: bool)
    returns (submitted: bool, submitting: bool)
    requires WithinLimits(name, email, request)
    ensures submitted <==> EmailPasses(email, emailAccepted) && Filled(name, request)
    ensures !submitting
  {
    var form := new Form();
    form.SetFields(name, email, request);
    var timerSet, toast := form.HandleSubmit(emailAccepted);
    if timerSet {
      var shown := form.TimerFires();
    }
    submitted, submitting := form.isSubmitted, form.isSubmitting;
  }
}
