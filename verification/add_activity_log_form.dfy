/** The single-animal activity-log form: its schema, its default values and
    the submit handler that stores the log on the animal. */
module AddActivityLogForm {
  import opened Collections
  import opened Types
  import opened DataStore
  import opened LivestockForm

  /** The schema: a date, one of the five types, and a description of 1 to
      200 characters. */
  predicate ValidActivityLogForm(d: LogFormEntry) {
    d.date.Some? && d.kind.Some? && 1 <= |d.description| <= 200
  }

  /** The initial values: today's date, no type, an empty description. */
  function DefaultLogForm(today: Timestamp): (d: LogFormEntry)
    ensures d.date == Some(today) && d.kind.None? && d.description == ""
  {
    LogFormEntry(Some(today), None, "")
  }

  /** An untouched form cannot be submitted: it lacks a type and a description. */
  lemma UntouchedFormInvalid(today: Timestamp)
    ensures !ValidActivityLogForm(DefaultLogForm(today))
  {
  }

  /** The log built from a valid form: type and description copied, the
      date converted, and an empty id (the store assigns it). */
  function LogFromForm(d: LogFormEntry): (log: ActivityLog)
    requires ValidActivityLogForm(d)
    ensures log.id == "" && log.date == d.date.value && log.kind == d.kind.value && log.description == d.description
  {
    ActivityLog("", d.date.value, d.kind.value, d.description)
  }

  /** Submitting: a form that fails the schema stores nothing; a valid one
      appends one log, built from it, to the animal with id `animalId`,
      after which the caller's completion callback runs. */
  method HandleSubmit(store: Store, animalId: string, d: LogFormEntry, newId: string) returns (logAdded: bool)
    modifies store
    ensures logAdded == ValidActivityLogForm(d)
    ensures !logAdded ==> store.livestock == old(store.livestock)
    ensures logAdded ==> |store.livestock| == |old(store.livestock)|
    ensures logAdded ==> forall i :: 0 <= i < |store.livestock| ==>
              store.livestock[i] == if old(store.livestock)[i].id == animalId
                                    then old(store.livestock)[i].(activityLogs := old(store.livestock)[i].activityLogs
                                                                                  + [ActivityLog(newId, d.date.value, d.kind.value, d.description)])
                                    else old(store.livestock)[i]
    ensures store.pens == old(store.pens)
  {
    if !ValidActivityLogForm(d) {
      return false;
    }
    store.AddActivityLog(animalId, LogFromForm(d), newId);
    logAdded := true;
  }
}
