/** What the two prayer-request forms (src/components/IOSPrayerForm.tsx and
    src/components/PrayerRequestForm.tsx) have in common: the three fields,
    the length limits their inputs impose, and the check both submissions
    start with. */
module PrayerFields {
  import opened Text

  /** The `maxLength` of the name, e-mail and request inputs. */
  const MaxNameLength := 100
  const MaxEmailLength := 255
  const MaxRequestLength := 2000

  /** The values the inputs can hold: `maxLength` counts UTF-16 code units. */
  predicate WithinLimits(name: string, email: string, request: string)
  {
    Utf16Length(name) <= MaxNameLength && Utf16Length(email) <= MaxEmailLength
    && Utf16Length(request) <= MaxRequestLength
  }

  /** `name.trim() && request.trim()`: both the name and the request have a
      non-whitespace character; the e-mail is not looked at. */
  predicate Filled(name: string, request: string)
  {
    !IsBlank(name) && !IsBlank(request)
  }

  /** The browser's own check of the optional `type="email"` input, in a form
      without `noValidate`: an empty value passes, and a non-empty one passes
      when the browser takes it for an address (`accepted`). A form that
      fails it fires no submit event, so `handleSubmit` does not run. */
  predicate EmailPasses(email: string, accepted: bool)
  {
    email == "" || accepted
  }

  const FillInMessage := "Please fill in your name and prayer request"

  /** A toast. */
  datatype Toast = Success(text: string) | Failure(text: string)

  /** A filled form has a visible character in the name and in the request,
      and a whitespace-only name or request is refused. */
  lemma FilledMeansVisibleText(name: string, request: string)
    ensures Filled(name, request) <==>
      (exists i | 0 <= i < |name| :: !IsWhitespace(name[i]))
      && (exists j | 0 <= j < |request| :: !IsWhitespace(request[j]))
  {
    BlankIffAllWhitespace(name);
    BlankIffAllWhitespace(request);
  }
}
