/** The comparator the standings and results pages share,
    `(b.stats?.points || 0) - (a.stats?.points || 0)`: most points first, a pilot without
    points counting as 0. */
module Standings {
  import opened Types
  import opened Seqs

  /** Sorting ascending by the negated points sorts descending by points. */
  function NegatedPoints(p: Pilot): real {
    -Points(p)
  }

  /** A sorted copy of `ps`, most points first; equal points keep their roster order. */
  function ByPoints(ps: seq<Pilot>): seq<Pilot> {
    SortByKey(ps, NegatedPoints)
  }

  /** The copy holds every pilot as often as `ps` does, and points never increase down it. */
  lemma ByPointsOrdered(ps: seq<Pilot>)
    ensures var r := ByPoints(ps);
            |r| == |ps| && multiset(r) == multiset(ps)
            && forall i, j :: 0 <= i < j < |r| ==> Points(r[i]) >= Points(r[j])
  {
    var r := ByPoints(ps);
    forall i, j | 0 <= i < j < |r| ensures Points(r[i]) >= Points(r[j]) {
      assert NegatedPoints(r[i]) <= NegatedPoints(r[j]);
    }
  }

  /** Membership survives the sort. */
  lemma ByPointsMembers(ps: seq<Pilot>)
    ensures forall p :: p in ByPoints(ps) <==> p in ps
  {
    var r := ByPoints(ps);
    forall p ensures p in r <==> p in ps {
      assert p in r <==> multiset(r)[p] > 0;
      assert p in ps <==> multiset(ps)[p] > 0;
    }
  }
}
