/** The support form (Contact): three required fields, a simulated send that
    keeps the button busy, and a reset of the fields when the send completes. */
module Support {
  import opened Toasts
  import Html

  const FillAllFields := "Please fill in all fields"
  const ThankYou := "Thank you for your message! We will get back to you soon."

  /** The validator of handleSubmit: every field is non-empty. A name or message of
      whitespace only counts as filled; the email arrives sanitised, so one typed as
      whitespace only is empty. */
  predicate AllFilled(name: string, email: string, message: string) {
    name != "" && email != "" && message != ""
  }

  /** The toast handleSubmit raises for the given fields. */
  function SubmitToast(name: string, email: string, message: string): (t: Toast)
    ensures t == ErrorToast(FillAllFields) <==> name == "" || email == "" || message == ""
    ensures t == NoToast <==> AllFilled(name, email, message)
  {
    if AllFilled(name, email, message) then NoToast else ErrorToast(FillAllFields)
  }

  /** An email typed as whitespace only reaches the handler as an empty value (no
      type mismatch), so the handler raises the missing-field toast. */
  lemma WhitespaceEmailIsMissing(name: string, raw: string, message: string)
    requires Html.AllAsciiWhitespace(raw)
    ensures !Html.TypeMismatch(Html.EmailValue(raw))
    ensures SubmitToast(name, Html.EmailValue(raw), message) == ErrorToast(FillAllFields)
  {
    Html.EmailValueEmpty(raw);
  }

  class Contact {
    var name: string
    var email: string
    var message: string
    /** True from an accepted submission until its timer fires. */
    var loading: bool

    constructor ()
      ensures name == "" && email == "" && message == "" && !loading
    {
      name, email, message := "", "", "";
      loading := false;
    }

    /** The send button is disabled while loading. */
    predicate SendEnabled()
      reads this
    {
      !loading
    }

    method SetName(s: string)
      modifies this
      ensures name == s && email == old(email) && message == old(message) && loading == old(loading)
    {
      name := s;
    }

    /** Typing in the email field: the state receives the sanitised value. */
    method SetEmail(s: string)
      modifies this
      ensures email == Html.EmailValue(s) && name == old(name) && message == old(message) && loading == old(loading)
    {
      email := Html.EmailValue(s);
    }

    method SetMessage(s: string)
      modifies this
      ensures message == s && name == old(name) && email == old(email) && loading == old(loading)
    {
      message := s;
    }

    /** Submitting the form. The browser checks the email field first: a non-empty
        value that is not a valid address stops the submission, so handleSubmit does
        not run and no toast is raised. Otherwise handleSubmit runs: a missing field
        raises the error toast and changes nothing; otherwise the form starts loading. */
    method Submit() returns (t: Toast)
      requires SendEnabled()
      modifies this
      ensures name == old(name) && email == old(email) && message == old(message)
      ensures Html.TypeMismatch(old(email)) ==> t == NoToast && !loading
      ensures !Html.TypeMismatch(old(email)) ==> t == SubmitToast(old(name), old(email), old(message))
      ensures loading <==> Html.IsValidEmail(old(email)) && old(name) != "" && old(message) != ""
    {
      if Html.TypeMismatch(email) {
        return NoToast;
      }
      t := SubmitToast(name, email, message);
      if !AllFilled(name, email, message) {
        return;
      }
      loading := true;
    }

    /** The send timer fires: loading ends, the thank-you toast is raised and every
        field is cleared, including what was typed while loading. */
    method Complete() returns (t: Toast)
      requires loading
      modifies this
      ensures !loading && name == "" && email == "" && message == ""
      ensures t == SuccessToast(ThankYou)
    {
      loading := false;
      t := SuccessToast(ThankYou);
      name, email, message := "", "", "";
    }
  }
}
