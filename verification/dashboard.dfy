/** The dashboard's derived views: the livestock total, the per-pen counts,
    the next five important dates, the four most recent additions and the
    pen label shown on each of them. "Now" is a parameter. */
module Dashboard {
  import opened Collections
  import opened Types
  import opened DataStore
  import opened PensPage

  /** The number of registered animals. */
  function TotalLivestock(xs: seq<Livestock>): (n: nat)
    ensures n == |xs|
  {
    |xs|
  }

  /** One entry per pen, in pen order, each keeping its pen and counting
      the animals assigned to it; no count exceeds the total. The entries
      reuse the pens page's record, so the count the dashboard calls
      `count` is the field `livestockCount` here. */
  function LivestockByPen(pens: seq<Pen>, xs: seq<Livestock>): (r: seq<PenWithCount>)
    ensures |r| == |pens|
    ensures forall i :: 0 <= i < |r| ==> r[i].pen == pens[i] && r[i].livestockCount == CountInPen(xs, pens[i].id)
    ensures forall i :: 0 <= i < |r| ==> r[i].livestockCount <= TotalLivestock(xs)
  {
    PensWithLivestockCount(pens, xs)
  }

  /** An important date together with the animal it belongs to. */
  datatype UpcomingDate = UpcomingDate(entry: ImportantDate, animalId: string, animalName: string)

  /** The name shown for an animal: breed, a space, then its id. */
  function AnimalName(a: Livestock): string {
    a.breed + " " + a.animalId
  }

  /** One animal's important dates, each tagged with the animal. */
  function DatesOfAnimal(a: Livestock): (r: seq<UpcomingDate>)
    ensures |r| == |a.importantDates|
    ensures forall k :: 0 <= k < |r| ==> r[k] == UpcomingDate(a.importantDates[k], a.animalId, AnimalName(a))
  {
    seq(|a.importantDates|, k requires 0 <= k < |a.importantDates| => UpcomingDate(a.importantDates[k], a.animalId, AnimalName(a)))
  }

  /** Every important date of every animal, tagged with its owner, in
      collection order (the `flatMap`). */
  function AllDates(xs: seq<Livestock>): (r: seq<UpcomingDate>)
    ensures forall e :: e in r ==> BelongsTo(e, xs)
    ensures forall i, k :: 0 <= i < |xs| && 0 <= k < |xs[i].importantDates| ==>
              UpcomingDate(xs[i].importantDates[k], xs[i].animalId, AnimalName(xs[i])) in r
  {
    if xs == [] then []
    else
      var head := DatesOfAnimal(xs[0]);
      var rest := AllDates(xs[1..]);
      assert forall a :: a in xs[1..] ==> a in xs;
      forall i, k | 0 <= i < |xs| && 0 <= k < |xs[i].importantDates|
        ensures UpcomingDate(xs[i].importantDates[k], xs[i].animalId, AnimalName(xs[i])) in head + rest
      {
        if i == 0 {
          assert head[k] == UpcomingDate(xs[i].importantDates[k], xs[i].animalId, AnimalName(xs[i]));
        } else {
          assert xs[i] == xs[1..][i - 1];
        }
      }
      head + rest
  }

  /** A single animal contributes exactly its own tagged dates. */
  lemma AllDatesOfOne(a: Livestock)
    ensures AllDates([a]) == DatesOfAnimal(a)
  {
    assert [a][1..] == [];
  }

  /** The flattening is a concatenation: the dates of two collections
      follow one another, in order and with no entry repeated or lost. */
  lemma {:induction false} AllDatesAppend(xs: seq<Livestock>, ys: seq<Livestock>)
    ensures AllDates(xs + ys) == AllDates(xs) + AllDates(ys)
  {
    if xs == [] {
      assert xs + ys == ys;
    } else {
      assert (xs + ys)[0] == xs[0];
      assert (xs + ys)[1..] == xs[1..] + ys;
      AllDatesAppend(xs[1..], ys);
    }
  }

  /** The number of important dates over a collection. */
  function DateCount(xs: seq<Livestock>): nat {
    if xs == [] then 0 else |xs[0].importantDates| + DateCount(xs[1..])
  }

  /** Every important date is listed exactly once: the flattening has one
      entry per date of every animal. */
  lemma {:induction false} AllDatesLength(xs: seq<Livestock>)
    ensures |AllDates(xs)| == DateCount(xs)
  {
    if xs != [] {
      AllDatesLength(xs[1..]);
    }
  }

  /** The entry is one of an animal's important dates, tagged with that animal. */
  ghost predicate BelongsTo(e: UpcomingDate, xs: seq<Livestock>) {
    exists a :: a in xs && e.entry in a.importantDates && e.animalId == a.animalId && e.animalName == AnimalName(a)
  }

  /** The dates whose timestamp is at or after `now`. */
  function DatesFrom(xs: seq<Livestock>, now: Timestamp): seq<UpcomingDate> {
    Filter(AllDates(xs), (e: UpcomingDate) => e.entry.date >= now)
  }

  ghost predicate SortedByDate(s: seq<UpcomingDate>) {
    forall i, j :: 0 <= i < j < |s| ==> s[i].entry.date <= s[j].entry.date
  }

  /** Inserts before the first entry that is not earlier, so equal dates
      keep their order. */
  function InsertByDate(e: UpcomingDate, s: seq<UpcomingDate>): (r: seq<UpcomingDate>)
    requires SortedByDate(s)
    ensures SortedByDate(r)
    ensures multiset(r) == multiset(s) + multiset{e}
    ensures |r| == |s| + 1 && (r[0] == e || (s != [] && r[0] == s[0]))
  {
    if s == [] then [e]
    else if e.entry.date <= s[0].entry.date then
      SortedCons(e, s);
      [e] + s
    else
      var rest := InsertByDate(e, s[1..]);
      assert s == [s[0]] + s[1..];
      SortedCons(s[0], rest);
      [s[0]] + rest
  }

  /** Putting an entry no later than the head in front keeps a list sorted. */
  lemma SortedCons(x: UpcomingDate, s: seq<UpcomingDate>)
    requires SortedByDate(s) && (s != [] ==> x.entry.date <= s[0].entry.date)
    ensures SortedByDate([x] + s)
  {
    var r := [x] + s;
    forall i, j | 0 <= i < j < |r| ensures r[i].entry.date <= r[j].entry.date {
      assert r[j] == s[j - 1];
      if i > 0 {
        assert r[i] == s[i - 1];
      }
    }
  }

  /** The date order of the dashboard's sort, as a stable insertion sort. */
  function SortByDate(s: seq<UpcomingDate>): (r: seq<UpcomingDate>)
    ensures SortedByDate(r)
    ensures multiset(r) == multiset(s)
  {
    if s == [] then []
    else
      assert s == [s[0]] + s[1..];
      InsertByDate(s[0], SortByDate(s[1..]))
  }

  /** The first `k` entries of a sorted rearrangement of `q` are entries of
      `q`, in date order, and no later than any entry left behind. */
  lemma {:induction false} SortedPrefixIsEarliest(q: seq<UpcomingDate>, s: seq<UpcomingDate>, k: nat, r: seq<UpcomingDate>)
    requires SortedByDate(s) && multiset(s) == multiset(q) && k <= |s| && r == s[..k]
    ensures |s| == |q|
    ensures SortedByDate(r)
    ensures multiset(r) <= multiset(q)
    ensures forall i :: 0 <= i < |r| ==> r[i] in q
    ensures forall i, e :: 0 <= i < |r| && e in multiset(q) - multiset(r) ==> r[i].entry.date <= e.entry.date
  {
    assert |s| == |q| by {
      assert |multiset(s)| == |multiset(q)|;
    }
    assert s == r + s[k..];
    assert multiset(s) == multiset(r) + multiset(s[k..]);
    forall i | 0 <= i < |r| ensures r[i] in q {
      assert r[i] in multiset(s);
    }
    forall i, e | 0 <= i < |r| && e in multiset(q) - multiset(r)
      ensures r[i].entry.date <= e.entry.date
    {
      assert e in s[k..];
      var j :| 0 <= j < |s[k..]| && s[k..][j] == e;
      assert s[k + j] == e && r[i] == s[i];
    }
  }

  /** Every entry kept by the date filter is at or after `now` and belongs
      to an animal of the collection. */
  lemma DatesFromFacts(xs: seq<Livestock>, now: Timestamp)
    ensures forall e :: e in DatesFrom(xs, now) ==> e.entry.date >= now
    ensures forall e :: e in DatesFrom(xs, now) ==> BelongsTo(e, xs)
  {
    var q := DatesFrom(xs, now);
    forall e | e in q
      ensures e.entry.date >= now && e in AllDates(xs)
    {
      var j :| 0 <= j < |q| && q[j] == e;
    }
  }

  /** The next five important dates: at or after `now`, earliest first,
      at most five, and no date left out is earlier than one shown. */
  function UpcomingImportantDates(xs: seq<Livestock>, now: Timestamp): (r: seq<UpcomingDate>)
    ensures |r| == Min(5, |DatesFrom(xs, now)|)
    ensures SortedByDate(r)
    ensures forall i :: 0 <= i < |r| ==> r[i].entry.date >= now
    ensures multiset(r) <= multiset(DatesFrom(xs, now))
    ensures forall i, e :: 0 <= i < |r| && e in multiset(DatesFrom(xs, now)) - multiset(r) ==> r[i].entry.date <= e.entry.date
    ensures forall i :: 0 <= i < |r| ==> BelongsTo(r[i], xs)
  {
    var q := DatesFrom(xs, now);
    var s := SortByDate(q);
    var r := s[..Min(5, |s|)];
    SortedPrefixIsEarliest(q, s, Min(5, |s|), r);
    DatesFromFacts(xs, now);
    r
  }

  /** The four most recent additions, newest first (fewer when the
      collection is smaller). */
  function RecentAdditions(xs: seq<Livestock>): (r: seq<Livestock>)
    ensures |r| == Min(4, |xs|)
    ensures forall i :: 0 <= i < |r| ==> r[i] == xs[|xs| - 1 - i]
  {
    var k := Min(4, |xs|);
    Reverse(xs[|xs| - k..])
  }

  /** The pen label under a recent addition: the name of the first pen
      whose id is the animal's pen reference (the empty id when it has
      none), or "Unassigned" when there is no such pen or its name is empty. */
  function PenLabel(store: DataStore.Store, penId: Option<string>): (shown: string)
    reads store
    ensures (forall i :: 0 <= i < |store.pens| ==> store.pens[i].id != penId.GetOr("")) ==> shown == "Unassigned"
    ensures forall i :: 0 <= i < |store.pens| && store.pens[i].id == penId.GetOr("")
                        && (forall j :: 0 <= j < i ==> store.pens[j].id != penId.GetOr(""))
                        ==> shown == (if store.pens[i].name == "" then "Unassigned" else store.pens[i].name)
    ensures shown != ""
  {
    match store.GetPenById(penId.GetOr(""))
    case None => "Unassigned"
    case Some(p) => if p.name == "" then "Unassigned" else p.name
  }
}
