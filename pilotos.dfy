/** The public roster page: the search and category filter over the stored roster. */
module Pilotos {
  import opened Types
  import opened Text
  import opened Seqs
  import Storage

  /** The category options: 'Todas' and then every category. */
  function CategoryOptions(): (r: seq<string>)
    ensures |r| == 9 && r[0] == "Todas" && r[1..] == Storage.Categories()
  {
    ["Todas"] + Storage.Categories()
  }

  /** `filteredPilots`'s predicate: the lower-cased name contains the lower-cased search, or
      the kart number contains the search as typed; the category is the chosen one unless
      'Todas' is chosen; and the pilot has not withdrawn. */
  predicate Listed(p: Pilot, search: string, catFilter: string) {
    (Contains(ToLower(p.name), ToLower(search)) || Contains(p.number, search))
    && (catFilter == "Todas" || p.category == catFilter)
    && p.status != Baja
  }

  function ListedBy(search: string, catFilter: string): Pilot -> bool {
    (p: Pilot) => Listed(p, search, catFilter)
  }

  function FilteredPilots(ps: seq<Pilot>, search: string, catFilter: string): seq<Pilot> {
    Filter(ps, ListedBy(search, catFilter))
  }

  /** The page lists a subsequence of the roster without withdrawn pilots; a category other
      than 'Todas' admits only its own pilots. */
  lemma FilteredIsOrderedSelection(ps: seq<Pilot>, search: string, catFilter: string)
    ensures var r := FilteredPilots(ps, search, catFilter);
            IsSubsequence(r, ps)
            && (forall i :: 0 <= i < |r| ==> r[i].status != Baja)
            && (catFilter != "Todas" ==> forall i :: 0 <= i < |r| ==> r[i].category == catFilter)
  {
    var r := FilteredPilots(ps, search, catFilter);
    assert forall i :: 0 <= i < |r| ==> ListedBy(search, catFilter)(r[i]);
  }

  /** A roster pilot is listed exactly when its fields pass the predicate. */
  lemma ListedIff(ps: seq<Pilot>, search: string, catFilter: string, p: Pilot)
    ensures p in FilteredPilots(ps, search, catFilter) <==> p in ps && Listed(p, search, catFilter)
  {
    assert ListedBy(search, catFilter)(p) == Listed(p, search, catFilter);
  }

  /** An empty search box lists every pilot of the chosen categories that has not withdrawn. */
  lemma EmptySearchListsActive(ps: seq<Pilot>, catFilter: string, p: Pilot)
    ensures p in FilteredPilots(ps, "", catFilter) <==>
              p in ps && p.status != Baja && (catFilter == "Todas" || p.category == catFilter)
  {
    ListedIff(ps, "", catFilter, p);
    assert ToLower("") == "";
    ContainsEmpty(ToLower(p.name));
  }
}
