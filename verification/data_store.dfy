/** The in-memory record store: the livestock and pen collections and the
    operations that read and replace them. Fresh identifiers, which the
    application derives from the clock, are parameters here and are not
    assumed to be unique. Loading from and saving to browser storage is
    not part of this model. */
module DataStore {
  import opened Collections
  import opened Types

  /** Applies `f` to every record whose id is `id` and keeps every other
      record, in order: the `map` with an id test that each livestock
      mutator performs. */
  function MapMatching(xs: seq<Livestock>, id: string, f: Livestock -> Livestock): (r: seq<Livestock>)
    ensures |r| == |xs|
    ensures forall i :: 0 <= i < |xs| ==> r[i] == if xs[i].id == id then f(xs[i]) else xs[i]
  {
    if xs == [] then [] else [if xs[0].id == id then f(xs[0]) else xs[0]] + MapMatching(xs[1..], id, f)
  }

  /** When no record has the id, mapping leaves the collection as it was. */
  lemma {:induction false} MapMatchingNoMatch(xs: seq<Livestock>, id: string, f: Livestock -> Livestock)
    requires forall i :: 0 <= i < |xs| ==> xs[i].id != id
    ensures MapMatching(xs, id, f) == xs
  {
    if xs != [] {
      MapMatchingNoMatch(xs[1..], id, f);
    }
  }

  /** The records assigned to a pen, in collection order.
      The form uses a lookup of this name that the store does not define;
      it is taken to be this filter, the same computation the dashboard
      performs to count a pen's animals. */
  function LivestockInPen(xs: seq<Livestock>, penId: string): (r: seq<Livestock>)
    ensures forall i :: 0 <= i < |r| ==> r[i] in xs && r[i].penId == Some(penId)
    ensures forall i :: 0 <= i < |xs| && xs[i].penId == Some(penId) ==> xs[i] in r
    ensures IsSubsequence(r, xs)
  {
    Filter(xs, (a: Livestock) => a.penId == Some(penId))
  }

  /** The number of records whose pen reference is `penId`. */
  function CountInPen(xs: seq<Livestock>, penId: string): (n: nat)
    ensures n <= |xs|
    ensures n == 0 <==> forall i :: 0 <= i < |xs| ==> xs[i].penId != Some(penId)
  {
    var r := LivestockInPen(xs, penId);
    assert r != [] ==> r[0] in xs;
    |r|
  }

  /** Counting is additive: appending a record adds one to the count of
      its own pen and nothing to any other. */
  lemma CountInPenAppend(xs: seq<Livestock>, a: Livestock, penId: string)
    ensures CountInPen(xs + [a], penId) == CountInPen(xs, penId) + (if a.penId == Some(penId) then 1 else 0)
  {
    FilterAppend(xs, [a], (a: Livestock) => a.penId == Some(penId));
  }

  class Store {
    var livestock: seq<Livestock>
    var pens: seq<Pen>

    /** The store starts from whatever collections were loaded (or the built-in defaults). */
    constructor (livestock0: seq<Livestock>, pens0: seq<Pen>)
      ensures livestock == livestock0 && pens == pens0
    {
      livestock := livestock0;
      pens := pens0;
    }

    /** Appends one record at the end, with the fresh id and empty log and date lists. */
    method AddLivestock(animal: Livestock, newId: string)
      modifies this
      ensures livestock == old(livestock) + [animal.(id := newId, activityLogs := [], importantDates := [])]
      ensures pens == old(pens)
    {
      livestock := livestock + [animal.(id := newId, activityLogs := [], importantDates := [])];
    }

    /** Replaces every record whose id matches, keeping length and order;
        with no match the collection is unchanged. */
    method UpdateLivestock(updated: Livestock)
      modifies this
      ensures |livestock| == |old(livestock)|
      ensures forall i :: 0 <= i < |livestock| ==>
                livestock[i] == if old(livestock)[i].id == updated.id then updated else old(livestock)[i]
      ensures (forall i :: 0 <= i < |old(livestock)| ==> old(livestock)[i].id != updated.id) ==> livestock == old(livestock)
      ensures pens == old(pens)
    {
      if forall i :: 0 <= i < |livestock| ==> livestock[i].id != updated.id {
        MapMatchingNoMatch(livestock, updated.id, _ => updated);
      }
      livestock := MapMatching(livestock, updated.id, _ => updated);
    }

    /** The first record with the id, or nothing. */
    function GetLivestockById(id: string): (r: Option<Livestock>)
      reads this
      ensures r.None? <==> forall i :: 0 <= i < |livestock| ==> livestock[i].id != id
      ensures r.Some? ==> exists i :: 0 <= i < |livestock| && livestock[i] == r.value && r.value.id == id
                                       && forall j :: 0 <= j < i ==> livestock[j].id != id
    {
      Find(livestock, (a: Livestock) => a.id == id)
    }

    /** Appends one pen at the end, carrying the given fields and the fresh id. */
    method AddPen(pen: Pen, newId: string)
      modifies this
      ensures pens == old(pens) + [pen.(id := newId)]
      ensures livestock == old(livestock)
    {
      pens := pens + [pen.(id := newId)];
    }

    /** The pen collection itself. */
    function GetPens(): (r: seq<Pen>)
      reads this
      ensures r == pens
    {
      pens
    }

    /** The first pen with the id, or nothing. */
    function GetPenById(id: string): (r: Option<Pen>)
      reads this
      ensures r.None? <==> forall i :: 0 <= i < |pens| ==> pens[i].id != id
      ensures r.Some? ==> exists i :: 0 <= i < |pens| && pens[i] == r.value && r.value.id == id
                                       && forall j :: 0 <= j < i ==> pens[j].id != id
    {
      Find(pens, (p: Pen) => p.id == id)
    }

    /** Appends the log, with the fresh id, at the end of the matching
        records' logs; no other field or record changes, and an unknown id
        changes nothing. */
    method AddActivityLog(livestockId: string, log: ActivityLog, newId: string)
      modifies this
      ensures |livestock| == |old(livestock)|
      ensures forall i :: 0 <= i < |livestock| ==>
                livestock[i] == if old(livestock)[i].id == livestockId
                                then old(livestock)[i].(activityLogs := old(livestock)[i].activityLogs + [log.(id := newId)])
                                else old(livestock)[i]
      ensures (forall i :: 0 <= i < |old(livestock)| ==> old(livestock)[i].id != livestockId) ==> livestock == old(livestock)
      ensures pens == old(pens)
    {
      var entry := log.(id := newId);
      var append := (a: Livestock) => a.(activityLogs := a.activityLogs + [entry]);
      if forall i :: 0 <= i < |livestock| ==> livestock[i].id != livestockId {
        MapMatchingNoMatch(livestock, livestockId, append);
      }
      livestock := MapMatching(livestock, livestockId, append);
    }

    /** Appends the date entry, with the fresh id, at the end of the matching
        records' important dates; nothing else changes, and an unknown id
        changes nothing. */
    method AddImportantDate(livestockId: string, date: ImportantDate, newId: string)
      modifies this
      ensures |livestock| == |old(livestock)|
      ensures forall i :: 0 <= i < |livestock| ==>
                livestock[i] == if old(livestock)[i].id == livestockId
                                then old(livestock)[i].(importantDates := old(livestock)[i].importantDates + [date.(id := newId)])
                                else old(livestock)[i]
      ensures (forall i :: 0 <= i < |old(livestock)| ==> old(livestock)[i].id != livestockId) ==> livestock == old(livestock)
      ensures pens == old(pens)
    {
      var entry := date.(id := newId);
      var append := (a: Livestock) => a.(importantDates := a.importantDates + [entry]);
      if forall i :: 0 <= i < |livestock| ==> livestock[i].id != livestockId {
        MapMatchingNoMatch(livestock, livestockId, append);
      }
      livestock := MapMatching(livestock, livestockId, append);
    }
  }

  /** Adding a record and then looking its fresh id up finds it, provided
      no earlier record already carried that id (ids are not guaranteed
      unique). */
  method AddThenLookUp(s: Store, animal: Livestock, newId: string) returns (found: Option<Livestock>)
    requires forall i :: 0 <= i < |s.livestock| ==> s.livestock[i].id != newId
    modifies s
    ensures found == Some(animal.(id := newId, activityLogs := [], importantDates := []))
  {
    s.AddLivestock(animal, newId);
    found := s.GetLivestockById(newId);
    ghost var n := |s.livestock| - 1;
    assert s.livestock[n].id == newId;
  }
}
