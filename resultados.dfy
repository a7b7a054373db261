/** The public results page: the category ranking, the penalty board and its styling, and
    the input handed to the standings analysis. */
module Resultados {
  import opened Wrappers
  import opened Types
  import opened Seqs
  import opened Standings

  /** `rankingPilots`: every pilot of the category, whatever its status, most points first. */
  function RankingOf(ps: seq<Pilot>, cat: string): seq<Pilot> {
    ByPoints(Filter(ps, InCategory(cat)))
  }

  /** The ranking holds exactly the category's pilots, withdrawn and pending ones included,
      each as often as in the roster, with points never increasing down the table. */
  lemma RankingIsCategoryByPoints(ps: seq<Pilot>, cat: string)
    ensures var r := RankingOf(ps, cat);
            (forall p :: p in r <==> p in ps && p.category == cat)
            && multiset(r) == multiset(Filter(ps, InCategory(cat)))
            && forall i, j :: 0 <= i < j < |r| ==> Points(r[i]) >= Points(r[j])
  {
    var f := Filter(ps, InCategory(cat));
    ByPointsOrdered(f);
    ByPointsMembers(f);
    forall p ensures p in f <==> p in ps && p.category == cat {
      assert InCategory(cat)(p) <==> p.category == cat;
    }
  }

  function PenaltyShown(selected: string): Penalty -> bool {
    (p: Penalty) => selected == "Todas" || p.category == selected
  }

  /** `filteredPenalties`. */
  function FilteredPenalties(pens: seq<Penalty>, selected: string): seq<Penalty> {
    Filter(pens, PenaltyShown(selected))
  }

  /** 'Todas' shows the whole board; any other selection shows exactly the penalties of that
      category, in board order. */
  lemma PenaltyFilter(pens: seq<Penalty>, selected: string)
    ensures selected == "Todas" ==> FilteredPenalties(pens, selected) == pens
    ensures selected != "Todas" ==>
              forall p :: p in FilteredPenalties(pens, selected) <==> p in pens && p.category == selected
    ensures IsSubsequence(FilteredPenalties(pens, selected), pens)
  {
    if selected == "Todas" {
      FilterKeepsAll(pens, PenaltyShown(selected));
    }
  }

  /** What the standings analysis receives for one pilot. */
  datatype InsightRow = InsightRow(name: string, points: Option<real>)

  /** `generateAiInsight`'s input: nothing for an empty ranking, otherwise the name and
      points of at most its first five pilots. */
  function InsightInput(ranking: seq<Pilot>): (r: Option<seq<InsightRow>>)
    ensures r.None? <==> ranking == []
    ensures r.Some? ==> |r.value| == Min(5, |ranking|)
    ensures r.Some? ==> forall i :: 0 <= i < |r.value| ==>
              r.value[i] == InsightRow(ranking[i].name, ranking[i].stats.points)
  {
    if ranking == [] then None
    else
      var top := Take(ranking, 5);
      Some(seq(|top|, i requires 0 <= i < |top| => InsightRow(top[i].name, top[i].stats.points)))
  }

  /** The analysis sees the leaders: no pilot left out of its input has more points than one
      inside it. */
  lemma InsightSeesLeaders(ps: seq<Pilot>, cat: string, i: nat, j: nat)
    requires InsightInput(RankingOf(ps, cat)).Some?
    requires i < |InsightInput(RankingOf(ps, cat)).value| <= j < |RankingOf(ps, cat)|
    ensures Points(RankingOf(ps, cat)[j]) <= Points(RankingOf(ps, cat)[i])
  {
    RankingIsCategoryByPoints(ps, cat);
  }

  // ------------------------------------------------------------------- styles

  datatype Icon = XCircle | Timer | MoveDown | AlertTriangle | AlertCircle

  datatype PenaltyStyle = PenaltyStyle(bg: string, border: string, text: string, icon: Icon)

  /** `getPenaltyStyle`'s `default` case. */
  const DefaultStyle: PenaltyStyle := PenaltyStyle("bg-zinc-900", "border-white/10", "text-white", AlertCircle)

  /** `getPenaltyStyle` for each of the six kinds. */
  function StyleOf(t: PenaltyType): PenaltyStyle {
    match t
    case Exclusion => PenaltyStyle("bg-zinc-950", "border-red-600", "text-red-600", XCircle)
    case Recargo5s => PenaltyStyle("bg-zinc-900", "border-yellow-500", "text-yellow-500", Timer)
    case Recargo10s => PenaltyStyle("bg-zinc-900", "border-orange-500", "text-orange-500", Timer)
    case Recargo20s => PenaltyStyle("bg-zinc-900", "border-orange-600", "text-orange-600", Timer)
    case RecargoPuesto => PenaltyStyle("bg-zinc-900", "border-blue-500", "text-blue-500", MoveDown)
    case Sancion => PenaltyStyle("bg-zinc-900", "border-zinc-500", "text-zinc-400", AlertTriangle)
  }

  /** `getPenaltyStyle` on the stored text of a kind: a known kind gets its own style and any
      other text the default one. */
  function StyleOfLabel(name: string): (r: PenaltyStyle)
    ensures name !in PenaltyTypeLabels ==> r == DefaultStyle
  {
    match PenaltyTypeOf(name)
    case Some(t) => StyleOf(t)
    case None => DefaultStyle
  }

  /** Each kind is told apart by its border colour, none of which is the default one, and the
      text of a kind leads back to that kind's style. */
  lemma StylesDistinct(t: PenaltyType, u: PenaltyType)
    ensures t != u ==> StyleOf(t).border != StyleOf(u).border
    ensures StyleOf(t) != DefaultStyle
    ensures StyleOfLabel(t.Label()) == StyleOf(t)
  {
    PenaltyTypeRoundTrip(t);
  }
}
