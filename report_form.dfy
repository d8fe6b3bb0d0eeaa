/** The issue-report wizard (ReportForm): four steps (category, location and
    details, review, success) over one form record. The footer offers Back from
    step 2 on, Next at steps 1 and 2, Submit at step 3, and nothing at step 4. */
module Wizard {
  import opened Toasts

  datatype Category = Category(id: string, caption: string)

  /** The category buttons of step 1 (icons and colours are presentation). */
  const Categories: seq<Category> := [
    Category("drainage", "Drainage"),
    Category("roads", "Roads"),
    Category("lights", "Street Lights"),
    Category("garbage", "Garbage")
  ]

  predicate IsCategoryId(id: string) {
    exists c :: c in Categories && c.id == id
  }

  datatype FormData = FormData(category: string, location: string, description: string, voiceNote: bool)

  const EmptyForm := FormData("", "", "", false)

  /** The complaint id every submission shows: it is a fixed string, not generated. */
  const SubmissionId := "SB-98234"

  const CategoryRequired := "Please select a category"
  const Submitted := "Complaint submitted successfully! ID: " + SubmissionId

  /** The footer's two controls: the Back link and the primary button. */
  datatype Primary = NextStep | SubmitComplaint
  datatype Footer = NoFooter | Footer(back: bool, primary: Primary)

  /** The footer a step shows. */
  function FooterAt(step: int): (f: Footer)
    ensures f.NoFooter? <==> step >= 4
    ensures f.Footer? ==> (f.back <==> step > 1)
    ensures f.Footer? ==> (f.primary == SubmitComplaint <==> step == 3)
  {
    if step < 4 then Footer(step > 1, if step == 3 then SubmitComplaint else NextStep) else NoFooter
  }

  const LocationFallback := "Not specified"
  const DescriptionFallback := "No description provided."

  /** What the review screen shows for a field (`value || fallback`): the value
      when it is non-empty, the fallback text when it is empty. */
  function ReviewLine(value: string, fallback: string): (s: string)
    ensures value == "" ==> s == fallback
    ensures value != "" ==> s == value
  {
    if value != "" then value else fallback
  }

  /** The review screen's location and description lines, as the step-3 panel shows them. */
  function ReviewScreen(data: FormData): (lines: (string, string))
    ensures lines.0 == LocationFallback <==> data.location == "" || data.location == LocationFallback
    ensures lines.1 == DescriptionFallback <==> data.description == "" || data.description == DescriptionFallback
  {
    (ReviewLine(data.location, LocationFallback), ReviewLine(data.description, DescriptionFallback))
  }

  class ReportForm {
    var step: int
    var formData: FormData

    /** The wizard invariant: the step is one of the four, the category is empty or
        one of the offered ids, and from step 2 on a category has been chosen. */
    ghost predicate Valid()
      reads this
    {
      && 1 <= step <= 4
      && (formData.category == "" || IsCategoryId(formData.category))
      && (step >= 2 ==> IsCategoryId(formData.category))
    }

    constructor ()
      ensures Valid() && step == 1 && formData == EmptyForm
    {
      step := 1;
      formData := EmptyForm;
    }

    /** A click on one of the category buttons, which step 1 shows. */
    method SelectCategory(id: string)
      requires Valid() && step == 1 && IsCategoryId(id)
      modifies this
      ensures Valid()
      ensures step == old(step) && formData == old(formData).(category := id)
    {
      formData := formData.(category := id);
    }

    /** Typing in the location field, which step 2 shows. */
    method SetLocation(location: string)
      requires Valid() && step == 2
      modifies this
      ensures Valid()
      ensures step == old(step) && formData == old(formData).(location := location)
    {
      formData := formData.(location := location);
    }

    /** Typing in the description field, which step 2 shows. */
    method SetDescription(description: string)
      requires Valid() && step == 2
      modifies this
      ensures Valid()
      ensures step == old(step) && formData == old(formData).(description := description)
    {
      formData := formData.(description := description);
    }

    /** handleNext, reached from the primary button at steps 1 and 2. Only step 1
        checks a field (the category); step 2 moves on whatever the description is. */
    method Next() returns (t: Toast)
      requires Valid() && FooterAt(step).Footer? && FooterAt(step).primary == NextStep
      modifies this
      ensures Valid()
      ensures formData == old(formData)
      ensures old(step) == 1 && old(formData).category == "" ==>
        step == old(step) && t == ErrorToast(CategoryRequired)
      ensures !(old(step) == 1 && old(formData).category == "") ==>
        step == old(step) + 1 && t == NoToast
      ensures step <= 3
    {
      if step == 1 && formData.category == "" {
        return ErrorToast(CategoryRequired);
      }
      step := step + 1;
      t := NoToast;
    }

    /** handleBack, reached from the Back link. */
    method Back()
      requires Valid() && FooterAt(step).Footer? && FooterAt(step).back
      modifies this
      ensures Valid()
      ensures step == old(step) - 1 && formData == old(formData)
    {
      step := step - 1;
    }

    /** handleSubmit, reached from the primary button at step 3: the only way into step 4. */
    method Submit() returns (t: Toast)
      requires Valid() && FooterAt(step).Footer? && FooterAt(step).primary == SubmitComplaint
      modifies this
      ensures Valid()
      ensures old(step) == 3 && step == 4 && formData == old(formData)
      ensures t == SuccessToast(Submitted)
    {
      step := 4;
      t := SuccessToast(Submitted);
    }

    /** "Report Another Issue" on the success screen: back to step 1, fields kept. */
    method ReportAnother()
      requires Valid() && step == 4
      modifies this
      ensures Valid()
      ensures step == 1 && formData == old(formData)
    {
      step := 1;
    }
  }

  /** A category and three clicks reach the success screen with the location and
      description still empty: no step after the first checks a field. */
  method SubmitWithoutDetails() returns (f: ReportForm)
    ensures f.Valid() && f.step == 4
    ensures f.formData == FormData("roads", "", "", false)
  {
    f := new ReportForm();
    assert Categories[1].id == "roads";
    f.SelectCategory("roads");
    var t := f.Next();
    t := f.Next();
    t := f.Submit();
  }
}
