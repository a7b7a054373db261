/** The table bodies of the printable reports: which pilots each report lists, in which order,
    under which position numbers and in which groups or columns. Page layout, fonts, dates and
    the document file itself are not modelled. */
module Reports {
  import opened Wrappers
  import opened Types
  import opened Text
  import opened Seqs

  /** One numbered table row. */
  datatype Row<T> = Row(pos: nat, item: T)

  /** `xs.map((x, i) => [i + 1 + offset, ...])`: positions continue from `offset`. */
  function Numbered<T>(xs: seq<T>, offset: nat): (r: seq<Row<T>>)
    ensures |r| == |xs|
    ensures forall i :: 0 <= i < |r| ==> r[i].pos == offset + i + 1 && r[i].item == xs[i]
  {
    seq(|xs|, i requires 0 <= i < |xs| => Row(offset + i + 1, xs[i]))
  }

  /** The records behind a table's rows. */
  function Items<T>(rows: seq<Row<T>>): (r: seq<T>)
    ensures |r| == |rows|
    ensures forall i :: 0 <= i < |r| ==> r[i] == rows[i].item
  {
    seq(|rows|, i requires 0 <= i < |rows| => rows[i].item)
  }

  lemma ItemsOfNumbered<T>(xs: seq<T>, offset: nat)
    ensures Items(Numbered(xs, offset)) == xs
  {
  }

  /** `p.ranking || '-'`: a ranking of 0 prints as a dash, a positive one as its numeral. */
  function RankingCell(ranking: int): (r: string)
    ensures ranking == 0 <==> r == "-"
    ensures ranking > 0 ==> AllDigits(r) && DecimalValue(r) == ranking
  {
    if ranking == 0 then "-"
    else
      var s := IntToString(ranking);
      if ranking > 0 then
        DecimalOfNatToString(ranking);
        s
      else
        assert s == "-" + NatToString(-ranking) && |s| >= 2;
        s
  }

  // -------------------------------------------------------------- chronological

  /** `a.createdAt || 0` as a sort key: the registration time (0 stays 0). */
  function CreatedAt(p: Pilot): real {
    p.createdAt as real
  }

  /** The "orden de llegada" report: a sorted copy of the roster, earliest registration
      first, numbered from 1. */
  function Chronological(ps: seq<Pilot>): seq<Row<Pilot>> {
    Numbered(SortByKey(ps, CreatedAt), 0)
  }

  /** Every pilot appears as often as in the roster, rows run 1..n, and registration times
      never decrease down the table. */
  lemma ChronologicalReport(ps: seq<Pilot>)
    ensures var r := Chronological(ps);
            |r| == |ps| && multiset(Items(r)) == multiset(ps)
            && (forall i :: 0 <= i < |r| ==> r[i].pos == i + 1)
            && forall i, j :: 0 <= i < j < |r| ==> r[i].item.createdAt <= r[j].item.createdAt
  {
    var sorted := SortByKey(ps, CreatedAt);
    ItemsOfNumbered(sorted, 0);
    assert forall i, j :: 0 <= i < j < |sorted| ==> CreatedAt(sorted[i]) <= CreatedAt(sorted[j]);
  }

  // -------------------------------------------------------------- per category

  /** `pilots.filter(p => p.category === cat).sort(byCreatedAt)`. */
  function CategoryList(ps: seq<Pilot>, cat: string): seq<Pilot> {
    SortByKey(Filter(ps, InCategory(cat)), CreatedAt)
  }

  /** A category's list holds exactly that category's pilots, each as often as in the
      roster, earliest registration first. */
  lemma CategoryListFacts(ps: seq<Pilot>, cat: string)
    ensures var l := CategoryList(ps, cat);
            (forall i :: 0 <= i < |l| ==> l[i].category == cat)
            && (forall p :: p in l <==> p in ps && p.category == cat)
            && multiset(l) == multiset(Filter(ps, InCategory(cat)))
            && SortedBy(l, CreatedAt)
  {
    var f := Filter(ps, InCategory(cat));
    var l := CategoryList(ps, cat);
    forall p ensures p in l <==> p in f {
      assert p in l <==> multiset(l)[p] > 0;
      assert p in f <==> multiset(f)[p] > 0;
    }
    forall i | 0 <= i < |l| ensures l[i].category == cat {
      assert l[i] in f;
      assert InCategory(cat)(l[i]);
    }
  }

  function HasPilots(ps: seq<Pilot>): string -> bool {
    cat => CategoryList(ps, cat) != []
  }

  /** One category's block of the per-category report. */
  datatype Section = Section(category: string, rows: seq<Row<Pilot>>)

  function SectionOf(ps: seq<Pilot>, cat: string): Section {
    Section(cat, Numbered(CategoryList(ps, cat), 0))
  }

  /** `categories.forEach(...)`, returning early for a category without pilots: one
      section per category that has pilots, in the order of `cats`. */
  function CategorySections(ps: seq<Pilot>, cats: seq<string>): seq<Section> {
    var keep := Filter(cats, HasPilots(ps));
    seq(|keep|, i requires 0 <= i < |keep| => SectionOf(ps, keep[i]))
  }

  function SectionCategories(r: seq<Section>): seq<string> {
    seq(|r|, i requires 0 <= i < |r| => r[i].category)
  }

  /** No section is empty, and each holds its category's pilots numbered from 1. */
  lemma SectionsNonEmpty(ps: seq<Pilot>, cats: seq<string>)
    ensures var r := CategorySections(ps, cats);
            forall i :: 0 <= i < |r| ==> r[i].rows != [] && r[i].rows == Numbered(CategoryList(ps, r[i].category), 0)
  {
    var keep := Filter(cats, HasPilots(ps));
    var r := CategorySections(ps, cats);
    forall i | 0 <= i < |r|
      ensures r[i].rows != [] && r[i].rows == Numbered(CategoryList(ps, r[i].category), 0)
    {
      var c := keep[i];
      assert r[i] == SectionOf(ps, c);
      assert HasPilots(ps)(c);
      assert CategoryList(ps, c) != [];
    }
  }

  /** The sections follow the order of `cats`. */
  lemma SectionsInCategoryOrder(ps: seq<Pilot>, cats: seq<string>)
    ensures IsSubsequence(SectionCategories(CategorySections(ps, cats)), cats)
  {
    assert SectionCategories(CategorySections(ps, cats)) == Filter(cats, HasPilots(ps));
  }

  /** A listed category with at least one pilot gets a section. */
  lemma CategoryWithPilotsListed(ps: seq<Pilot>, cats: seq<string>, p: Pilot)
    requires p in ps && p.category in cats
    ensures exists i :: 0 <= i < |CategorySections(ps, cats)| && CategorySections(ps, cats)[i].category == p.category
  {
    var keep := Filter(cats, HasPilots(ps));
    CategoryListFacts(ps, p.category);
    assert p in CategoryList(ps, p.category);
    assert HasPilots(ps)(p.category);
    var i :| 0 <= i < |keep| && keep[i] == p.category;
    assert CategorySections(ps, cats)[i].category == p.category;
  }

  // -------------------------------------------------------------- track groups

  const GroupSize: nat := 15

  /** `groupNum === 1 ? 'A' : groupNum === 2 ? 'B' : 'C'`. */
  function GroupLabel(groupNum: nat): (r: string)
    ensures groupNum == 1 ==> r == "A"
    ensures groupNum == 2 ==> r == "B"
    ensures groupNum != 1 && groupNum != 2 ==> r == "C"
  {
    if groupNum == 1 then "A" else if groupNum == 2 then "B" else "C"
  }

  /** One starting group on track: its category, label and numbered pilots. */
  datatype Group = Group(category: string, letter: string, rows: seq<Row<Pilot>>)

  /** The groups of one category: its list cut into consecutive pieces of 15, the k-th piece
      labelled by group number k + 1 and numbered from 1. */
  function GroupsOf(catPilots: seq<Pilot>, cat: string): seq<Group> {
    var pieces := Chunks(catPilots, GroupSize);
    seq(|pieces|, g requires 0 <= g < |pieces| => Group(cat, GroupLabel(g + 1), Numbered(pieces[g], 0)))
  }

  /** The groups cover the category's list: each holds 1 to 15 pilots, all but the last
      exactly 15, numbered from 1, and put back together they are the list itself. */
  lemma GroupsPartition(catPilots: seq<Pilot>, cat: string)
    ensures var gs := GroupsOf(catPilots, cat);
            (forall g :: 0 <= g < |gs| ==> gs[g].category == cat && 1 <= |gs[g].rows| <= GroupSize)
            && (forall g :: 0 <= g < |gs| - 1 ==> |gs[g].rows| == GroupSize)
            && (forall g, i :: 0 <= g < |gs| && 0 <= i < |gs[g].rows| ==> gs[g].rows[i].pos == i + 1)
            && Flatten(GroupPilots(gs)) == catPilots
  {
    var gs := GroupsOf(catPilots, cat);
    var pieces := Chunks(catPilots, GroupSize);
    forall g | 0 <= g < |gs| ensures GroupPilots(gs)[g] == pieces[g] {
      ItemsOfNumbered(pieces[g], 0);
    }
    assert GroupPilots(gs) == pieces;
    ChunksFlatten(catPilots, GroupSize);
  }

  function GroupPilots(gs: seq<Group>): (r: seq<seq<Pilot>>)
    ensures |r| == |gs|
    ensures forall g :: 0 <= g < |r| ==> r[g] == Items(gs[g].rows)
  {
    seq(|gs|, g requires 0 <= g < |gs| => Items(gs[g].rows))
  }

  /** The first group is A, the second B, and every later group C. */
  lemma GroupLabels(catPilots: seq<Pilot>, cat: string)
    ensures var gs := GroupsOf(catPilots, cat);
            (|gs| > 0 ==> gs[0].letter == "A") && (|gs| > 1 ==> gs[1].letter == "B")
            && forall g :: 2 <= g < |gs| ==> gs[g].letter == "C"
  {
  }

  /** The inner `for (let i = 0; i < catPilots.length; i += groupSize)` of the track-groups
      report: one group per step, from `catPilots.slice(i, i + groupSize)`. */
  method TrackGroups(catPilots: seq<Pilot>, cat: string) returns (groups: seq<Group>)
    ensures groups == GroupsOf(catPilots, cat)
  {
    var spec := GroupsOf(catPilots, cat);
    ChunkCount(catPilots, GroupSize);
    groups := [];
    var i := 0;
    while i < |catPilots|
      invariant i == GroupSize * |groups|
      invariant |groups| <= |spec|
      invariant groups == spec[..|groups|]
    {
      var groupNum := i / GroupSize + 1;
      var groupPilots := Slice(catPilots, i, i + GroupSize);
      StepIsChunk(catPilots, |groups|);
      groups := groups + [Group(cat, GroupLabel(groupNum), Numbered(groupPilots, 0))];
      i := i + GroupSize;
    }
    assert |groups| == |spec|;
  }

  /** The piece the loop cuts at step `k` is the k-th chunk. */
  lemma StepIsChunk(xs: seq<Pilot>, k: nat)
    requires GroupSize * k < |xs|
    ensures k < |Chunks(xs, GroupSize)|
    ensures Slice(xs, GroupSize * k, GroupSize * k + GroupSize) == Chunks(xs, GroupSize)[k]
    ensures (GroupSize * k) / GroupSize + 1 == k + 1
  {
    OffsetIsProduct(k, GroupSize);
    ChunkAt(xs, GroupSize, k);
    SliceFrom(xs, GroupSize * k, GroupSize * k + GroupSize);
  }

  /** The whole track-groups report on the categories taken so far, in category order. */
  function TrackGroupReport(ps: seq<Pilot>, cats: seq<string>): seq<Group> {
    if cats == [] then []
    else
      var last := cats[|cats| - 1];
      TrackGroupReport(ps, cats[..|cats| - 1]) + GroupsOf(CategoryList(ps, last), last)
  }

  /** A category without pilots contributes no group. */
  lemma EmptyCategoryHasNoGroups(ps: seq<Pilot>, cat: string)
    requires forall p :: p in ps ==> p.category != cat
    ensures GroupsOf(CategoryList(ps, cat), cat) == []
  {
    CategoryListFacts(ps, cat);
    ChunkCount(CategoryList(ps, cat), GroupSize);
  }

  /** `generateGruposPistaPDF`'s table bodies: the groups of each category in turn. */
  method GruposPista(ps: seq<Pilot>, cats: seq<string>) returns (groups: seq<Group>)
    ensures groups == TrackGroupReport(ps, cats)
  {
    groups := [];
    var k := 0;
    while k < |cats|
      invariant k <= |cats|
      invariant groups == TrackGroupReport(ps, cats[..k])
    {
      var catPilots := CategoryList(ps, cats[k]);
      var catGroups := TrackGroups(catPilots, cats[k]);
      assert cats[..k + 1][..k] == cats[..k];
      groups := groups + catGroups;
      k := k + 1;
    }
    assert cats[..k] == cats;
  }

  // -------------------------------------------------------------- two columns

  /** `Math.ceil(n / 2)`. */
  function Half(n: nat): (h: nat)
    ensures 2 * h == n || 2 * h == n + 1
  {
    (n + 1) / 2
  }

  /** A two-column table: the left one always, the right one only when it has rows. */
  datatype Columns<T> = Columns(left: seq<Row<T>>, right: Option<seq<Row<T>>>)

  function TwoColumns<T>(xs: seq<T>): Columns<T> {
    var half := Half(|xs|);
    var right := xs[half..];
    Columns(Numbered(xs[..half], 0), if |right| > 0 then Some(Numbered(right, half)) else None)
  }

  function AllRows<T>(c: Columns<T>): seq<Row<T>> {
    c.left + c.right.GetOr([])
  }

  /** The left column takes the larger half, the right one at most as many rows and is left
      out only for lists of at most one entry, and reading left then right gives the whole
      list numbered 1..n without a gap. */
  lemma TwoColumnsSplit<T>(xs: seq<T>)
    ensures var c := TwoColumns(xs);
            (2 * |c.left| == |xs| || 2 * |c.left| == |xs| + 1)
            && (c.right.None? <==> |xs| <= 1)
            && |AllRows(c)| == |xs|
            && forall i :: 0 <= i < |xs| ==> AllRows(c)[i] == Row(i + 1, xs[i])
  {
    var c := TwoColumns(xs);
    var half := Half(|xs|);
    forall i | 0 <= i < |xs| ensures AllRows(c)[i] == Row(i + 1, xs[i]) {
      if i >= half {
        assert AllRows(c)[i] == c.right.value[i - half];
      }
    }
  }

  /** `parseInt(p.number)` as a sort key; a number that does not parse sorts as 0. */
  function NumberKey(p: Pilot): real {
    match ParseInt(p.number)
    case Some(n) => n as real
    case None => 0.0
  }

  /** `generateRegisteredPilotsPDF`: the pilots sorted by kart number, in two columns. */
  function RegisteredPilots(ps: seq<Pilot>): Columns<Pilot> {
    TwoColumns(SortByKey(ps, NumberKey))
  }

  /** Reading the registered-pilots table left then right lists every pilot once per
      occurrence, in non-decreasing kart-number order, numbered 1..n. */
  lemma RegisteredPilotsOrdered(ps: seq<Pilot>)
    ensures var rows := AllRows(RegisteredPilots(ps));
            |rows| == |ps| && multiset(Items(rows)) == multiset(ps)
            && (forall i :: 0 <= i < |rows| ==> rows[i].pos == i + 1)
            && forall i, j :: 0 <= i < j < |rows| ==> NumberKey(rows[i].item) <= NumberKey(rows[j].item)
  {
    var sorted := SortByKey(ps, NumberKey);
    TwoColumnsSplit(sorted);
    var rows := AllRows(RegisteredPilots(ps));
    assert Items(rows) == sorted;
  }

  /** One line of the official results table. */
  datatype ResultLine = ResultLine(pos: nat, kart: string, pilot: string, classification: string)

  function ResultLineOf(row: Row<Pilot>, sessionName: string): ResultLine {
    ResultLine(row.pos, "#" + row.item.number, ToUpper(row.item.name), ToUpper(sessionName))
  }

  function ResultLines(rows: seq<Row<Pilot>>, sessionName: string): (r: seq<ResultLine>)
    ensures |r| == |rows|
    ensures forall i :: 0 <= i < |r| ==> r[i] == ResultLineOf(rows[i], sessionName)
  {
    seq(|rows|, i requires 0 <= i < |rows| => ResultLineOf(rows[i], sessionName))
  }

  function ResultLinesAsRows(rows: seq<Row<Pilot>>, sessionName: string): (r: seq<Row<ResultLine>>)
    ensures |r| == |rows|
    ensures forall i :: 0 <= i < |r| ==> r[i] == Row(rows[i].pos, ResultLineOf(rows[i], sessionName))
  {
    seq(|rows|, i requires 0 <= i < |rows| => Row(rows[i].pos, ResultLineOf(rows[i], sessionName)))
  }

  lemma ResultLinesAppend(a: seq<Row<Pilot>>, b: seq<Row<Pilot>>, sessionName: string)
    ensures ResultLinesAsRows(a + b, sessionName)
            == ResultLinesAsRows(a, sessionName) + ResultLinesAsRows(b, sessionName)
  {
  }

  /** `generateOfficialResultsPDF`: the pilots in the order given, in two columns, each line
      with the kart, the upper-cased name and the upper-cased session name. */
  function OfficialResults(ps: seq<Pilot>, sessionName: string): Columns<ResultLine> {
    var c := TwoColumns(ps);
    Columns(ResultLinesAsRows(c.left, sessionName),
            if c.right.Some? then Some(ResultLinesAsRows(c.right.value, sessionName)) else None)
  }

  /** The official results keep the given order: line i carries position i + 1 and the kart
      of the i-th pilot, across both columns. */
  lemma OfficialResultsInOrder(ps: seq<Pilot>, sessionName: string)
    ensures var rows := AllRows(OfficialResults(ps, sessionName));
            |rows| == |ps|
            && forall i :: 0 <= i < |ps| ==>
                 rows[i].pos == i + 1 && rows[i].item.pos == i + 1 && rows[i].item.kart == "#" + ps[i].number
  {
    TwoColumnsSplit(ps);
    var c := TwoColumns(ps);
    ResultLinesAppend(c.left, c.right.GetOr([]), sessionName);
    assert AllRows(OfficialResults(ps, sessionName)) == ResultLinesAsRows(AllRows(c), sessionName);
  }
}
