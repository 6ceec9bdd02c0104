/** The pens page: every pen with the number of animals assigned to it. */
module PensPage {
  import opened Collections
  import opened Types
  import opened DataStore

  /** A pen with all of its fields and its livestock count. */
  datatype PenWithCount = PenWithCount(pen: Pen, livestockCount: nat)

  /** One entry per pen, in pen order, each keeping its pen and counting
      the animals whose pen reference is that pen's id. */
  function PensWithLivestockCount(pens: seq<Pen>, xs: seq<Livestock>): (r: seq<PenWithCount>)
    ensures |r| == |pens|
    ensures forall i :: 0 <= i < |r| ==> r[i].pen == pens[i] && r[i].livestockCount == CountInPen(xs, pens[i].id)
    ensures forall i :: 0 <= i < |r| ==> r[i].livestockCount <= |xs|
  {
    if pens == [] then []
    else [PenWithCount(pens[0], CountInPen(xs, pens[0].id))] + PensWithLivestockCount(pens[1..], xs)
  }

  /** An animal whose pen reference matches no pen (in particular, one
      without a pen reference) is counted in no pen: adding it leaves every
      count as it was. */
  lemma {:induction false} UnassignedAnimalCountedNowhere(pens: seq<Pen>, xs: seq<Livestock>, a: Livestock)
    requires forall i :: 0 <= i < |pens| ==> a.penId != Some(pens[i].id)
    ensures PensWithLivestockCount(pens, xs + [a]) == PensWithLivestockCount(pens, xs)
  {
    if pens != [] {
      CountInPenAppend(xs, a, pens[0].id);
      UnassignedAnimalCountedNowhere(pens[1..], xs, a);
    }
  }

  /** Adding an animal assigned to a pen raises that pen's entry by one
      and leaves the entries of pens with other ids as they were. */
  lemma AssignedAnimalCountedInItsPen(pens: seq<Pen>, xs: seq<Livestock>, a: Livestock, i: nat)
    requires i < |pens|
    ensures PensWithLivestockCount(pens, xs + [a])[i].livestockCount ==
            PensWithLivestockCount(pens, xs)[i].livestockCount + (if a.penId == Some(pens[i].id) then 1 else 0)
  {
    CountInPenAppend(xs, a, pens[i].id);
  }

  /** The sum of the counts of a list of entries. */
  function SumOfCounts(r: seq<PenWithCount>): nat {
    if r == [] then 0 else r[0].livestockCount + SumOfCounts(r[1..])
  }

  predicate DistinctIds(pens: seq<Pen>) {
    forall i, j :: 0 <= i < j < |pens| ==> pens[i].id != pens[j].id
  }

  /** The animal's pen reference names one of the pens. */
  ghost predicate HasPen(pens: seq<Pen>, a: Livestock) {
    exists i :: 0 <= i < |pens| && a.penId == Some(pens[i].id)
  }

  /** With no animals every count is zero. */
  lemma {:induction false} NoAnimalsNoCounts(pens: seq<Pen>)
    ensures SumOfCounts(PensWithLivestockCount(pens, [])) == 0
  {
    if pens != [] {
      NoAnimalsNoCounts(pens[1..]);
    }
  }

  /** With distinct pen ids, adding an animal raises the sum of the counts
      by one when its pen reference names a pen, and by nothing otherwise. */
  lemma {:induction false} SumAfterAppend(pens: seq<Pen>, xs: seq<Livestock>, a: Livestock)
    requires DistinctIds(pens)
    ensures SumOfCounts(PensWithLivestockCount(pens, xs + [a])) ==
            SumOfCounts(PensWithLivestockCount(pens, xs)) + (if HasPen(pens, a) then 1 else 0)
  {
    if pens != [] {
      var tail := pens[1..];
      assert DistinctIds(tail) by {
        forall i, j | 0 <= i < j < |tail| ensures tail[i].id != tail[j].id {
          assert tail[i] == pens[i + 1] && tail[j] == pens[j + 1];
        }
      }
      CountInPenAppend(xs, a, pens[0].id);
      SumAfterAppend(tail, xs, a);
      if a.penId == Some(pens[0].id) {
        assert HasPen(pens, a);
        assert !HasPen(tail, a) by {
          forall i | 0 <= i < |tail| ensures a.penId != Some(tail[i].id) {
            assert tail[i] == pens[i + 1];
          }
        }
      } else {
        if HasPen(pens, a) {
          var i :| 0 <= i < |pens| && a.penId == Some(pens[i].id);
          assert a.penId == Some(tail[i - 1].id);
        }
        if HasPen(tail, a) {
          var i :| 0 <= i < |tail| && a.penId == Some(tail[i].id);
          assert a.penId == Some(pens[i + 1].id);
        }
      }
    }
  }

  /** With distinct pen ids no animal is counted twice: the counts add up
      to at most the number of animals. */
  lemma {:induction false} CountsNeverExceedTotal(pens: seq<Pen>, xs: seq<Livestock>)
    requires DistinctIds(pens)
    ensures SumOfCounts(PensWithLivestockCount(pens, xs)) <= |xs|
  {
    if xs == [] {
      NoAnimalsNoCounts(pens);
    } else {
      var ys, a := xs[..|xs| - 1], xs[|xs| - 1];
      assert xs == ys + [a];
      CountsNeverExceedTotal(pens, ys);
      SumAfterAppend(pens, ys, a);
    }
  }
}
