/** The pen settings panel: the pen form (shown on demand), its schema and
    submit handler, and the table of existing pens. */
module PenManagement {
  import opened Collections
  import opened Types
  import opened DataStore

  datatype PenFormData = PenFormData(name: string, description: Option<string>)

  /** The schema: a non-empty name; the description is optional. */
  predicate ValidPenForm(d: PenFormData) {
    |d.name| >= 1
  }

  /** The values the form starts with and is reset to. */
  const DefaultPenForm: PenFormData := PenFormData("", Some(""))

  /** The untouched or reset form cannot be submitted: its name is empty. */
  lemma DefaultPenFormInvalid()
    ensures DefaultPenForm.name == "" && DefaultPenForm.description == Some("")
    ensures !ValidPenForm(DefaultPenForm)
  {
  }

  /** The pen handed to the store: the form's fields, no allowed type, and
      an empty id (the store assigns it). */
  function PenFromForm(d: PenFormData): (p: Pen)
    ensures p.name == d.name && p.description == d.description && IsFlexible(p) && p.id == ""
  {
    Pen("", d.name, d.description, None)
  }

  /** The description cell: the description, or "N/A" when it is absent or empty. */
  function DescriptionCell(pen: Pen): (cell: string)
    ensures pen.description.None? || pen.description == Some("") ==> cell == "N/A"
    ensures pen.description.Some? && pen.description.value != "" ==> cell == pen.description.value
    ensures cell != ""
  {
    if pen.description.None? || pen.description.value == "" then "N/A" else pen.description.value
  }

  /** The count cell: the number of animals assigned to the pen. */
  function CountCell(pen: Pen, xs: seq<Livestock>): (n: nat)
    ensures n <= |xs|
    ensures n == 0 <==> forall i :: 0 <= i < |xs| ==> xs[i].penId != Some(pen.id)
  {
    CountInPen(xs, pen.id)
  }

  /** The panel's state: whether the form is shown and what it holds. */
  class PenManagement {
    const store: Store
    var showForm: bool
    var form: PenFormData

    constructor (store: Store)
      ensures this.store == store && !showForm && form == DefaultPenForm
    {
      this.store := store;
      showForm := false;
      form := DefaultPenForm;
    }

    /** "Add New Pen" shows the form. */
    method OpenForm()
      modifies this
      ensures showForm && form == old(form)
    {
      showForm := true;
    }

    /** "Cancel" hides the form and resets its values. */
    method Cancel()
      modifies this
      ensures !showForm && form == DefaultPenForm
    {
      showForm := false;
      form := DefaultPenForm;
    }

    /** Submitting: a form that fails the schema changes nothing; a valid
        one adds exactly one pen with the form's values, then resets and
        hides the form. */
    method HandleSubmit(newId: string) returns (added: bool)
      modifies this, store
      ensures added == ValidPenForm(old(form))
      ensures added ==> store.pens == old(store.pens) + [Pen(newId, old(form).name, old(form).description, None)]
      ensures added ==> !showForm && form == DefaultPenForm
      ensures !added ==> store.pens == old(store.pens) && showForm == old(showForm) && form == old(form)
      ensures store.livestock == old(store.livestock)
    {
      if !ValidPenForm(form) {
        return false;
      }
      store.AddPen(PenFromForm(form), newId);
      form := DefaultPenForm;
      showForm := false;
      added := true;
    }
  }
}
