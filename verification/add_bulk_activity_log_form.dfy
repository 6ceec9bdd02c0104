/** The pen-wide activity-log form: it validates its values with the same
    schema as the single-animal form and hands them to its caller unchanged.
    What the caller does with them is not part of this model. */
module AddBulkActivityLogForm {
  import opened Collections
  import opened Types
  import opened LivestockForm
  import opened AddActivityLogForm

  /** Submitting forwards the form's values, unchanged, exactly when they
      pass the schema; otherwise the callback is not called. */
  function FormSubmit(d: LogFormEntry): (forwarded: Option<LogFormEntry>)
    ensures forwarded.Some? <==> ValidActivityLogForm(d)
    ensures forwarded.Some? ==> forwarded.value == d
  {
    if ValidActivityLogForm(d) then Some(d) else None
  }

  /** Submitting the untouched form forwards nothing; forwarded values
      always carry a date, a type and a description of 1 to 200 characters. */
  lemma SubmitGuards(today: Timestamp, d: LogFormEntry)
    ensures FormSubmit(DefaultLogForm(today)).None?
    ensures FormSubmit(d).Some? ==> d.date.Some? && d.kind.Some? && 1 <= |d.description| <= 200
  {
    UntouchedFormInvalid(today);
  }
}
