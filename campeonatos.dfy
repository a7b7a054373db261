/** The public championship page: the standings of one category and their rank labels. */
module Campeonatos {
  import opened Types
  import opened Text
  import opened Seqs
  import opened Standings

  function ConfirmedIn(cat: string): Pilot -> bool {
    (p: Pilot) => p.category == cat && p.status == Confirmado
  }

  /** `standingsPilots`: the confirmed pilots of the selected category, most points first. */
  function StandingsOf(ps: seq<Pilot>, cat: string): seq<Pilot> {
    ByPoints(Filter(ps, ConfirmedIn(cat)))
  }

  /** The standings hold exactly the confirmed pilots of the category, each as often as in the
      roster, with points never increasing down the table. */
  lemma StandingsAreConfirmedByPoints(ps: seq<Pilot>, cat: string)
    ensures var r := StandingsOf(ps, cat);
            (forall p :: p in r <==> p in ps && p.category == cat && p.status == Confirmado)
            && multiset(r) == multiset(Filter(ps, ConfirmedIn(cat)))
            && forall i, j :: 0 <= i < j < |r| ==> Points(r[i]) >= Points(r[j])
  {
    var f := Filter(ps, ConfirmedIn(cat));
    ByPointsOrdered(f);
    ByPointsMembers(f);
    forall p ensures p in f <==> p in ps && p.category == cat && p.status == Confirmado {
      assert ConfirmedIn(cat)(p) <==> p.category == cat && p.status == Confirmado;
    }
  }

  /** `handleDownloadStandings`: the download is refused for empty standings. */
  function CanDownload(standings: seq<Pilot>): (ok: bool)
    ensures ok <==> |standings| > 0
  {
    standings != []
  }

  /** A category whose pilots are all pending or withdrawn has nothing to download. */
  lemma NoConfirmedNoDownload(ps: seq<Pilot>, cat: string)
    requires forall p :: p in ps && p.category == cat ==> p.status != Confirmado
    ensures !CanDownload(StandingsOf(ps, cat))
  {
    StandingsAreConfirmedByPoints(ps, cat);
  }

  /** The rank cell of row `i`, as written: the text "0" followed by `i + 1`. */
  function RankLabel(i: nat): (r: string)
    ensures |r| >= 2 && r[0] == '0'
    ensures r[1..] == NatToString(i + 1)
  {
    "0" + NatToString(i + 1)
  }

  /** From the tenth row on, the label has three digits: position 10 reads "010". */
  lemma TenthRankHasThreeDigits()
    ensures RankLabel(9) == "010"
  {
    assert NatToString(10) == NatToString(1) + [DigitChar(0)];
  }

  /** A two-digit rank: a leading zero only below 10. */
  function PaddedRankLabel(i: nat): (r: string)
    ensures |r| >= 2
    ensures AllDigits(r) && DecimalValue(r) == i + 1
    ensures i + 1 >= 10 ==> r == NatToString(i + 1)
  {
    var n := NatToString(i + 1);
    DecimalOfNatToString(i + 1);
    if i + 1 < 10 then
      assert n == [DigitChar(i + 1)];
      assert ("0" + n)[..1] == "0";
      "0" + n
    else n
  }
}
