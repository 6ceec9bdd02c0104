/** The livestock form: the validation schema (a discriminated union of an
    individual and a batch shape), the rule that decides which pens are
    offered for the selected category, and the effect that clears the
    fields the selected category does not use. */
module LivestockForm {
  import opened Collections
  import opened Types
  import opened DataStore

  /** One activity-log row of the form; a missing date or type is `None`. */
  datatype LogFormEntry = LogFormEntry(date: Option<Timestamp>, kind: Option<ActivityType>, description: string)

  /** One important-date row of the form. */
  datatype DateFormEntry = DateFormEntry(date: Option<Timestamp>, eventName: string, notes: Option<string>)

  /** The values the livestock form holds before validation. */
  datatype LivestockFormData = LivestockFormData(
    livestockType: Option<LivestockType>,
    animalId: string,
    breed: string,
    birthDate: Option<Timestamp>,
    gender: Option<Gender>,
    quantity: Option<int>,
    penId: Option<string>,
    healthRecords: Option<string>,
    imageUrl: Option<string>,
    dataAiHint: Option<string>,
    activityLogs: seq<LogFormEntry>,
    importantDates: seq<DateFormEntry>)

  predicate ValidLogEntry(e: LogFormEntry) {
    e.date.Some? && e.kind.Some? && |e.description| >= 1
  }

  predicate ValidDateEntry(e: DateFormEntry) {
    e.date.Some? && |e.eventName| >= 1
  }

  /** The constraints every variant shares: its nested rows are valid. */
  predicate ValidBase(d: LivestockFormData) {
    && (forall i :: 0 <= i < |d.activityLogs| ==> ValidLogEntry(d.activityLogs[i]))
    && (forall i :: 0 <= i < |d.importantDates| ==> ValidDateEntry(d.importantDates[i]))
  }

  /** The individual shape: id and breed non-empty, birth date and gender present, no quantity. */
  predicate IndividualSchema(d: LivestockFormData) {
    && |d.animalId| >= 1 && |d.breed| >= 1
    && d.birthDate.Some? && d.gender.Some? && d.quantity.None?
    && ValidBase(d)
  }

  /** The batch shape: id and breed non-empty, quantity at least 1, no gender; birth date optional. */
  predicate BatchSchema(d: LivestockFormData) {
    && |d.animalId| >= 1 && |d.breed| >= 1
    && d.quantity.Some? && d.quantity.value >= 1 && d.gender.None?
    && ValidBase(d)
  }

  /** The discriminated union: the type tag selects the shape to check. */
  predicate ValidLivestockForm(d: LivestockFormData) {
    match d.livestockType
    case None => false
    case Some(t) => if IsIndividualType(t) then IndividualSchema(d) else BatchSchema(d)
  }

  /** A valid form has a type, and exactly one of gender and quantity;
      an individual form also has a birth date. */
  lemma ValidFormShape(d: LivestockFormData)
    requires ValidLivestockForm(d)
    ensures d.livestockType.Some?
    ensures d.gender.Some? <==> d.quantity.None?
    ensures d.gender.Some? <==> IsIndividualType(d.livestockType.value)
    ensures IsIndividualType(d.livestockType.value) ==> d.birthDate.Some?
    ensures d.quantity.Some? ==> d.quantity.value >= 1
  {
  }

  /** The pen-eligibility rule, written as the filter callback is: a pen
      restricted to another type is refused; a flexible pen that already
      holds an animal of another type is refused; any other pen is offered. */
  predicate IsEligible(pen: Pen, t: LivestockType, livestock: seq<Livestock>) {
    if pen.allowedLivestockType.Some? && pen.allowedLivestockType.value != t then false
    else if pen.allowedLivestockType.None? then
      var inPen := LivestockInPen(livestock, pen.id);
      !(|inPen| > 0 && exists i :: 0 <= i < |inPen| && inPen[i].livestockType != Some(t))
    else true
  }

  /** The pens the form offers. With no type selected, every pen. */
  function AvailablePens(allPens: seq<Pen>, selected: Option<LivestockType>, livestock: seq<Livestock>): (r: seq<Pen>)
    ensures selected.None? ==> r == allPens
    ensures IsSubsequence(r, allPens)
    ensures selected.Some? ==> forall i :: 0 <= i < |r| ==> IsEligible(r[i], selected.value, livestock)
    ensures selected.Some? ==> forall i :: 0 <= i < |allPens| && IsEligible(allPens[i], selected.value, livestock) ==> allPens[i] in r
    ensures selected.Some? ==> forall i :: 0 <= i < |allPens| ==>
              multiset(r)[allPens[i]] == if IsEligible(allPens[i], selected.value, livestock) then multiset(allPens)[allPens[i]] else 0
  {
    if selected.None? then
      SubsequenceOfItself(allPens);
      allPens
    else
      FilterMultiplicity(allPens, (p: Pen) => IsEligible(p, selected.value, livestock));
      Filter(allPens, (p: Pen) => IsEligible(p, selected.value, livestock))
  }

  /** The rule in closed form: a pen of the list is offered for type `t`
      exactly when it is restricted to `t`, or it is flexible and every
      animal assigned to it is of type `t`. */
  lemma AvailablePensRule(allPens: seq<Pen>, t: LivestockType, livestock: seq<Livestock>, pen: Pen)
    requires pen in allPens
    ensures pen in AvailablePens(allPens, Some(t), livestock) <==>
            match pen.allowedLivestockType
            case Some(u) => u == t
            case None => forall i :: 0 <= i < |livestock| && livestock[i].penId == Some(pen.id) ==> livestock[i].livestockType == Some(t)
  {
    var r := AvailablePens(allPens, Some(t), livestock);
    var k :| 0 <= k < |allPens| && allPens[k] == pen;
    if pen in r {
      var j :| 0 <= j < |r| && r[j] == pen;
      assert IsEligible(pen, t, livestock);
    } else {
      assert !IsEligible(pen, t, livestock);
    }
    EligibleRule(pen, t, livestock);
  }

  /** The eligibility predicate against its closed form. */
  lemma EligibleRule(pen: Pen, t: LivestockType, livestock: seq<Livestock>)
    ensures IsEligible(pen, t, livestock) <==>
            match pen.allowedLivestockType
            case Some(u) => u == t
            case None => forall i :: 0 <= i < |livestock| && livestock[i].penId == Some(pen.id) ==> livestock[i].livestockType == Some(t)
  {
    if pen.allowedLivestockType.None? {
      var inPen := LivestockInPen(livestock, pen.id);
      if exists i :: 0 <= i < |livestock| && livestock[i].penId == Some(pen.id) && livestock[i].livestockType != Some(t) {
        var i :| 0 <= i < |livestock| && livestock[i].penId == Some(pen.id) && livestock[i].livestockType != Some(t);
        assert livestock[i] in inPen;
        var j :| 0 <= j < |inPen| && inPen[j] == livestock[i];
        assert !IsEligible(pen, t, livestock);
      } else {
        forall j | 0 <= j < |inPen| ensures inPen[j].livestockType == Some(t) {
          var i :| 0 <= i < |livestock| && livestock[i] == inPen[j];
        }
      }
    }
  }

  /** The form values after the effect that follows a type change: an
      individual type clears the quantity; a batch type clears the birth
      date and the gender. */
  function ClearConditionalFields(d: LivestockFormData): (r: LivestockFormData)
    ensures r.livestockType == d.livestockType
    ensures d.livestockType.Some? && IsIndividualType(d.livestockType.value) ==> r.quantity.None?
    ensures d.livestockType.Some? && !IsIndividualType(d.livestockType.value) ==> r.birthDate.None? && r.gender.None?
  {
    match d.livestockType
    case None => d
    case Some(t) => if IsIndividualType(t) then d.(quantity := None) else d.(birthDate := None, gender := None)
  }

  /** After the effect, the selected shape no longer depends on the cleared
      fields: a batch form is valid exactly when id, breed, quantity and
      rows are, whatever gender or birth date it held; an individual form
      exactly when id, breed, birth date, gender and rows are, whatever
      quantity it held. */
  lemma ClearedFormValidity(d: LivestockFormData, t: LivestockType)
    ensures var c := ClearConditionalFields(d.(livestockType := Some(t)));
            ValidLivestockForm(c) <==>
              && |d.animalId| >= 1 && |d.breed| >= 1 && ValidBase(d)
              && if IsIndividualType(t) then d.birthDate.Some? && d.gender.Some?
                 else d.quantity.Some? && d.quantity.value >= 1
  {
  }

  /** The form's values, which the type-change effect updates in place.
      The effect runs once after the form mounts and then again only when
      the watched type changes. */
  class LivestockFormState {
    var values: LivestockFormData

    /** The form starts from its initial values; the effect's first run
        then clears the fields that do not belong to the initial type. */
    constructor (initial: LivestockFormData)
      ensures values == ClearConditionalFields(initial)
    {
      values := ClearConditionalFields(initial);
    }

    /** Selecting a type sets the tag. When the tag changes, the clearing
        effect runs; re-selecting the current type changes nothing. */
    method SelectLivestockType(t: LivestockType)
      modifies this
      ensures old(values).livestockType == Some(t) ==> values == old(values)
      ensures old(values).livestockType != Some(t) ==> values == ClearConditionalFields(old(values).(livestockType := Some(t)))
      ensures old(values).livestockType != Some(t) && IsIndividualType(t) ==>
                values == old(values).(livestockType := Some(t), quantity := None)
      ensures old(values).livestockType != Some(t) && !IsIndividualType(t) ==>
                values == old(values).(livestockType := Some(t), birthDate := None, gender := None)
    {
      if values.livestockType == Some(t) {
        return;
      }
      values := values.(livestockType := Some(t));
      if IsIndividualType(t) {
        values := values.(quantity := None);
      } else {
        values := values.(birthDate := None, gender := None);
      }
    }
  }
}
