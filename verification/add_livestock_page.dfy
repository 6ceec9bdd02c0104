/** The add-livestock page: it maps validated form data to the record it
    hands to the store. The mapping converts the birth date unconditionally
    and does not copy the quantity. */
module AddLivestockPage {
  import opened Collections
  import opened Types
  import opened DataStore
  import opened LivestockForm

  /** The record built from the form, with an empty id and no logs or
      dates (the store assigns those). `None` stands for the conversion of
      an absent birth date, which throws before anything is stored. */
  function RecordFromForm(d: LivestockFormData): (r: Option<Livestock>)
    ensures r.Some? <==> d.birthDate.Some?
    ensures r.Some? ==> && r.value.animalId == d.animalId && r.value.breed == d.breed
                        && r.value.birthDate == d.birthDate && r.value.gender == d.gender
                        && r.value.livestockType == d.livestockType && r.value.penId == d.penId
                        && r.value.imageUrl == d.imageUrl && r.value.dataAiHint == d.dataAiHint
    ensures r.Some? ==> r.value.healthRecords == Some(if d.healthRecords.None? then "" else d.healthRecords.value)
    ensures r.Some? ==> r.value.quantity.None?
  {
    match d.birthDate
    case None => None
    case Some(born) =>
      Some(Livestock(
        id := "",
        livestockType := d.livestockType,
        animalId := d.animalId,
        breed := d.breed,
        birthDate := Some(born),
        gender := d.gender,
        quantity := None,
        penId := d.penId,
        healthRecords := Some(d.healthRecords.GetOr("")),
        activityLogs := [],
        importantDates := [],
        imageUrl := d.imageUrl,
        dataAiHint := d.dataAiHint))
  }

  /** A valid individual form always yields a well-formed individual record. */
  lemma IndividualFormYieldsIndividualRecord(d: LivestockFormData)
    requires ValidLivestockForm(d) && IsIndividualType(d.livestockType.value)
    ensures RecordFromForm(d).Some? && IsIndividual(RecordFromForm(d).value)
  {
  }

  /** A valid batch form either throws (no birth date) or yields a record
      without its quantity, which is not a well-formed record of either
      variant. */
  lemma BatchFormLosesQuantity(d: LivestockFormData)
    requires ValidLivestockForm(d) && !IsIndividualType(d.livestockType.value)
    ensures RecordFromForm(d).None? <==> d.birthDate.None?
    ensures RecordFromForm(d).Some? ==> !WellFormed(RecordFromForm(d).value)
  {
  }

  /** Submitting validated data stores one record built from it, unless the
      birth-date conversion throws, in which case nothing is stored. */
  method HandleSubmit(store: Store, d: LivestockFormData, newId: string) returns (added: bool)
    requires ValidLivestockForm(d)
    modifies store
    ensures added <==> d.birthDate.Some?
    ensures added ==> store.livestock == old(store.livestock) + [RecordFromForm(d).value.(id := newId)]
    ensures !added ==> store.livestock == old(store.livestock)
    ensures store.pens == old(store.pens)
  {
    var r := RecordFromForm(d);
    match r {
      case None =>
        added := false;
      case Some(animal) =>
        store.AddLivestock(animal, newId);
        added := true;
    }
  }
}
