/** The "Create Job" dialog: the job form's schema and default values, and the
    `open` / `isLoading` / form-value transitions of a submission. */
module JobDialog {
  import opened Common
  import opened Text

  /** The job form's fields (`work_type` in the form). Salary is a whole
      number here. */
  datatype FormValues = FormValues(title: string, description: string, location: string, salary: int, workType: string)

  /** `defaultValues`, also what `form.reset()` restores. */
  const DefaultValues: FormValues := FormValues("", "", "", 0, "")

  const SuccessMessage: string := "Job created successfully!"
  const FailureMessage: string := "Failed to create job. Please try again."
  const TitleIssue: Issue := Issue("title", "Title must be at least 2 characters.")

  /** The schema's five rules. */
  predicate Valid(v: FormValues) {
    Utf16Length(v.title) >= 2 && Utf16Length(v.description) >= 10 && Utf16Length(v.location) >= 2 && v.salary >= 0 && Utf16Length(v.workType) >= 1
  }

  /** The issues the schema reports, in field order. */
  function Issues(v: FormValues): seq<Issue> {
      Check(Utf16Length(v.title) >= 2, TitleIssue)
    + Check(Utf16Length(v.description) >= 10, Issue("description", "Description must be at least 10 characters."))
    + Check(Utf16Length(v.location) >= 2, Issue("location", "Location must be at least 2 characters."))
    + Check(v.salary >= 0, Issue("salary", "Salary must be a positive number."))
    + Check(Utf16Length(v.workType) >= 1, Issue("work_type", "Please select a work type."))
  }

  /** The form passes exactly when no issue is reported. */
  lemma ValidIffNoIssues(v: FormValues)
    ensures Valid(v) <==> Issues(v) == []
  {
  }

  /** Lengths are counted in UTF-16 code units: a one-character title from
      outside the Basic Multilingual Plane is two units long and meets the
      two-character rule, while a one-character ASCII title does not. */
  lemma AstralTitleAccepted(v: FormValues)
    ensures v.title == "\U{1F600}" ==> TitleIssue !in Issues(v)
    ensures v.title == "A" ==> TitleIssue in Issues(v)
  {
    if v.title == "\U{1F600}" {
      assert v.title[1..] == [];
    }
  }

  /** The empty default form does not pass: every text field is reported, the
      zero salary is accepted. */
  lemma DefaultsInvalid()
    ensures !Valid(DefaultValues)
    ensures Issues(DefaultValues) == [
      TitleIssue,
      Issue("description", "Description must be at least 10 characters."),
      Issue("location", "Location must be at least 2 characters."),
      Issue("work_type", "Please select a work type.")]
  {
  }

  /** The dialog's state: whether it is `open`, whether a submission is in
      flight (`isLoading`), the form's current values, and the job-creation
      calls issued so far. Notifications go to `toaster`. */
  class CreateJobDialog {
    var open: bool
    var isLoading: bool
    var values: FormValues
    var calls: seq<FormValues>
    const toaster: Toaster

    constructor (toaster: Toaster)
      ensures this.toaster == toaster
      ensures !open && !isLoading && values == DefaultValues && calls == []
    {
      this.toaster := toaster;
      open := false;
      isLoading := false;
      values := DefaultValues;
      calls := [];
    }

    /** The submit button is disabled while a submission is in flight. */
    function SubmitDisabled(): bool
      reads this
    {
      isLoading
    }

    /** `onOpenChange`: the trigger button and the dialog's close control. */
    method SetOpen(b: bool)
      modifies this
      ensures open == b
      ensures isLoading == old(isLoading) && values == old(values) && calls == old(calls)
    {
      open := b;
    }

    /** The user edits the form. */
    method Edit(v: FormValues)
      modifies this
      ensures values == v
      ensures open == old(open) && isLoading == old(isLoading) && calls == old(calls)
    {
      values := v;
    }

    /** Pressing submit: nothing happens while the button is disabled or when
      the schema rejects the values; otherwise `isLoading` is set and the
      job-creation call is issued with the current values. */
    method BeginSubmit() returns (sent: bool)
      modifies this
      ensures sent <==> !old(SubmitDisabled()) && Valid(old(values))
      ensures sent ==> isLoading && calls == old(calls) + [old(values)]
      ensures !sent ==> isLoading == old(isLoading) && calls == old(calls)
      ensures open == old(open) && values == old(values)
    {
      if isLoading || !Valid(values) {
        sent := false;
      } else {
        isLoading := true;
        calls := calls + [values];
        sent := true;
      }
    }

    /** The call settles. On success: one success notification, the dialog
      closes and the form is reset. On failure: one error notification, the
      dialog and the form stay as they are. Either way `isLoading` ends false. */
    method FinishSubmit(succeeded: bool)
      requires isLoading
      modifies this, toaster
      ensures !isLoading && calls == old(calls)
      ensures succeeded ==> !open && values == DefaultValues
      ensures succeeded ==> toaster.log == old(toaster.log) + [Toast(SuccessToast, SuccessMessage)]
      ensures !succeeded ==> open == old(open) && values == old(values)
      ensures !succeeded ==> toaster.log == old(toaster.log) + [Toast(ErrorToast, FailureMessage)]
    {
      if succeeded {
        toaster.Success(SuccessMessage);
        open := false;
        values := DefaultValues;
      } else {
        toaster.Error(FailureMessage);
      }
      isLoading := false;
    }

    /** Pressing submit, then the call settling. When the button is disabled
      or the values fail the schema nothing changes; otherwise the call is
      issued once, with those values, and the dialog ends idle in the state
      `FinishSubmit` describes. */
    method Submit(succeeded: bool) returns (sent: bool)
      modifies this, toaster
      ensures sent <==> !old(isLoading) && Valid(old(values))
      ensures sent ==> calls == old(calls) + [old(values)] && !isLoading
      ensures sent && succeeded ==> !open && values == DefaultValues &&
                                    toaster.log == old(toaster.log) + [Toast(SuccessToast, SuccessMessage)]
      ensures sent && !succeeded ==> open == old(open) && values == old(values) &&
                                     toaster.log == old(toaster.log) + [Toast(ErrorToast, FailureMessage)]
      ensures !sent ==> open == old(open) && values == old(values) && isLoading == old(isLoading) &&
                        calls == old(calls) && toaster.log == old(toaster.log)
    {
      sent := BeginSubmit();
      if sent {
        FinishSubmit(succeeded);
      }
    }
  }
}
