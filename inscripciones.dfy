/** The public self-registration page: a pilot picks a category, the form is pre-filled from
    the roster (by name suggestion or by kart number), validated against the stored roster
    and then either re-registers the existing (number, category) record or appends a new
    pending one. Ids, today's date and the clock reading are parameters. */
module Inscripciones {
  import opened Wrappers
  import opened Types
  import opened Text
  import Seqs
  import opened Storage
  import AiRetry

  /** The form's fields as held in the page state (the ranking is the text of its box). */
  datatype RegForm = RegForm(
    name: string,
    number: string,
    ranking: string,
    medicalLicense: string,
    sportsLicense: string,
    transponderId: string)

  const EmptyForm := RegForm("", "", "99", "", "", "")

  /** The error dictionary: `None` is a key that is absent, `Some("")` one that was cleared. */
  datatype RegErrors = RegErrors(
    name: Option<string>,
    number: Option<string>,
    ranking: Option<string>,
    medicalLicense: Option<string>,
    sportsLicense: Option<string>)
  {
    predicate IsEmpty() {
      name.None? && number.None? && ranking.None? && medicalLicense.None? && sportsLicense.None?
    }
  }

  const NoRegErrors := RegErrors(None, None, None, None, None)

  /** The page state the handlers read and write. */
  datatype Page = Page(
    form: RegForm,
    category: string,
    step: int,
    submitted: bool,
    foundInRanking: bool,
    suggestions: seq<Pilot>,
    errors: RegErrors,
    knownPilots: seq<Pilot>,
    categoryPilots: seq<Pilot>)

  /** No two pilots of a list share a name. */
  predicate NamesDistinct(ps: seq<Pilot>) {
    forall i, j :: 0 <= i < j < |ps| ==> ps[i].name != ps[j].name
  }

  /** The position of the first pilot called `name`. */
  function NameIndex(ps: seq<Pilot>, name: string): (r: Option<nat>)
    ensures r.Some? ==> r.value < |ps| && ps[r.value].name == name
    ensures r.Some? ==> forall i :: 0 <= i < r.value ==> ps[i].name != name
    ensures r.None? ==> forall i :: 0 <= i < |ps| ==> ps[i].name != name
  {
    if ps == [] then None
    else if ps[0].name == name then Some(0)
    else match NameIndex(ps[1..], name)
      case None => None
      case Some(k) => Some(k + 1)
  }

  /** `map.set(p.name, p)` on a `Map` kept as its sequence of values in insertion order: a
      known name keeps its place and takes the new pilot, a new name goes at the end. */
  function Upsert(acc: seq<Pilot>, p: Pilot): (r: seq<Pilot>)
    ensures |acc| <= |r| && forall i :: 0 <= i < |acc| ==> r[i].name == acc[i].name
    ensures NameIndex(acc, p.name).None? ==> r == acc + [p]
    ensures NameIndex(acc, p.name).Some? ==>
              var k := NameIndex(acc, p.name).value;
              |r| == |acc| && r[k] == p && forall i :: 0 <= i < |acc| && i != k ==> r[i] == acc[i]
    ensures NamesDistinct(acc) ==> NamesDistinct(r)
    ensures p in r
    ensures forall q :: q in r ==> q in acc || q == p
    ensures forall q :: q in acc && q.name != p.name ==> q in r
    ensures forall i :: 0 <= i < |acc| ==> NameIndex(r, acc[i].name).Some?
  {
    match NameIndex(acc, p.name)
    case Some(k) =>
      var r := acc[k := p];
      assert forall i :: 0 <= i < |acc| ==> r[i].name == acc[i].name;
      SameNamesIndexed(acc, r);
      r
    case None =>
      var r := acc + [p];
      assert r[|acc|] == p;
      assert forall i :: 0 <= i < |acc| ==> r[i].name == acc[i].name;
      SameNamesIndexed(acc, r);
      r
  }

  /** A sequence that repeats the names of `acc` at the same places finds every one of them. */
  lemma SameNamesIndexed(acc: seq<Pilot>, r: seq<Pilot>)
    requires |acc| <= |r| && forall i :: 0 <= i < |acc| ==> r[i].name == acc[i].name
    ensures forall i :: 0 <= i < |acc| ==> NameIndex(r, acc[i].name).Some?
  {
    forall i | 0 <= i < |acc| ensures NameIndex(r, acc[i].name).Some? {
      assert r[i].name == acc[i].name;
    }
  }

  /** `Array.from(new Map(all.map(p => [p.name, p])).values())`: one pilot per name, the
      last one of each name in the roster, the names in the order they first appear. */
  function UniqueByName(ps: seq<Pilot>): (r: seq<Pilot>)
    ensures UniqueOf(r, ps)
    ensures InFirstOccurrenceOrder(r, ps)
  {
    if ps == [] then []
    else
      var n := |ps| - 1;
      var acc := UniqueByName(ps[..n]);
      UpsertLast(ps, acc);
      UpsertKeepsOrder(ps, acc);
      Upsert(acc, ps[n])
  }

  /** `r` holds one pilot per name of `ps`, each taken from `ps`, and the last pilot of
      each name. */
  ghost predicate UniqueOf(r: seq<Pilot>, ps: seq<Pilot>) {
    NamesDistinct(r)
    && (forall q :: q in r ==> q in ps)
    && (forall i :: 0 <= i < |ps| ==> NameIndex(r, ps[i].name).Some?)
    && (forall i :: 0 <= i < |ps| && IsLastOfName(ps, i) ==> ps[i] in r)
  }

  /** No later pilot of `ps` has the name of `ps[i]`. */
  predicate IsLastOfName(ps: seq<Pilot>, i: nat)
    requires i < |ps|
  {
    forall k :: i < k < |ps| ==> ps[k].name != ps[i].name
  }

  lemma UpsertLast(ps: seq<Pilot>, acc: seq<Pilot>)
    requires ps != [] && UniqueOf(acc, ps[..|ps| - 1])
    ensures UniqueOf(Upsert(acc, ps[|ps| - 1]), ps)
  {
    UpsertTakesFrom(ps, acc);
    UpsertCovers(ps, acc);
    UpsertKeepsLast(ps, acc);
  }

  lemma UpsertTakesFrom(ps: seq<Pilot>, acc: seq<Pilot>)
    requires ps != [] && UniqueOf(acc, ps[..|ps| - 1])
    ensures forall q :: q in Upsert(acc, ps[|ps| - 1]) ==> q in ps
  {
    var n := |ps| - 1;
    forall q | q in Upsert(acc, ps[n]) ensures q in ps {
      if q in acc {
        assert q in ps[..n];
      }
    }
  }

  lemma UpsertCovers(ps: seq<Pilot>, acc: seq<Pilot>)
    requires ps != [] && UniqueOf(acc, ps[..|ps| - 1])
    ensures forall i :: 0 <= i < |ps| ==> NameIndex(Upsert(acc, ps[|ps| - 1]), ps[i].name).Some?
  {
    var n := |ps| - 1;
    var r := Upsert(acc, ps[n]);
    forall i | 0 <= i < |ps| ensures NameIndex(r, ps[i].name).Some? {
      if i < n {
        assert ps[..n][i] == ps[i];
        var k := NameIndex(acc, ps[i].name).value;
        assert acc[k].name == ps[i].name;
        assert NameIndex(r, acc[k].name).Some?;
      } else {
        NameIndexOfMember(r, ps[n]);
      }
    }
  }

  lemma NameIndexOfMember(r: seq<Pilot>, p: Pilot)
    requires p in r
    ensures NameIndex(r, p.name).Some?
  {
    var j :| 0 <= j < |r| && r[j] == p;
  }

  lemma UpsertKeepsLast(ps: seq<Pilot>, acc: seq<Pilot>)
    requires ps != [] && UniqueOf(acc, ps[..|ps| - 1])
    ensures forall i :: 0 <= i < |ps| && IsLastOfName(ps, i) ==> ps[i] in Upsert(acc, ps[|ps| - 1])
  {
    var n := |ps| - 1;
    var init := ps[..n];
    forall i | 0 <= i < |ps| && IsLastOfName(ps, i) ensures ps[i] in Upsert(acc, ps[n]) {
      if i < n {
        assert ps[i].name != ps[n].name;
        assert init[i] == ps[i];
        assert IsLastOfName(init, i);
      }
    }
  }

  /** Where a name first occurs in `ps` (`|ps|` when it does not). */
  function FirstIndex(ps: seq<Pilot>, name: string): nat {
    match NameIndex(ps, name)
    case Some(k) => k
    case None => |ps|
  }

  /** The names of `r` come in the order of their first occurrence in `ps`. */
  ghost predicate InFirstOccurrenceOrder(r: seq<Pilot>, ps: seq<Pilot>) {
    forall i, j :: 0 <= i < j < |r| ==> FirstIndex(ps, r[i].name) < FirstIndex(ps, r[j].name)
  }

  /** A name found in a prefix is first found at the same place in the whole sequence. */
  lemma NameIndexInPrefix(ps: seq<Pilot>, n: nat, name: string)
    requires n <= |ps| && NameIndex(ps[..n], name).Some?
    ensures NameIndex(ps, name) == NameIndex(ps[..n], name)
  {
    var k' := NameIndex(ps[..n], name).value;
    assert ps[..n][k'] == ps[k'];
  }

  /** A pilot of the prefix has its name found in the prefix. */
  lemma MemberNameInPrefix(ps: seq<Pilot>, n: nat, q: Pilot)
    requires n <= |ps| && q in ps[..n]
    ensures NameIndex(ps[..n], q.name).Some? && FirstIndex(ps, q.name) < n
  {
    var m :| 0 <= m < n && ps[..n][m] == q;
    NameIndexInPrefix(ps, n, q.name);
  }

  lemma UpsertKeepsOrder(ps: seq<Pilot>, acc: seq<Pilot>)
    requires ps != [] && UniqueOf(acc, ps[..|ps| - 1]) && InFirstOccurrenceOrder(acc, ps[..|ps| - 1])
    ensures InFirstOccurrenceOrder(Upsert(acc, ps[|ps| - 1]), ps)
  {
    var n := |ps| - 1;
    PoolNamesFirstInPrefix(ps, acc);
    var r := Upsert(acc, ps[n]);
    if NameIndex(acc, ps[n].name).None? {
      NewNameComesLast(ps, acc);
      AppendKeepsOrder(ps, acc);
      assert r == acc + [ps[n]];
    } else {
      SameNamesKeepOrder(ps, acc, r);
    }
  }

  /** Every name of a pool built from the prefix first occurs in the prefix. */
  lemma PoolNamesFirstInPrefix(ps: seq<Pilot>, acc: seq<Pilot>)
    requires ps != [] && forall q :: q in acc ==> q in ps[..|ps| - 1]
    ensures forall i :: 0 <= i < |acc| ==>
              FirstIndex(ps, acc[i].name) == FirstIndex(ps[..|ps| - 1], acc[i].name) < |ps| - 1
  {
    forall i | 0 <= i < |acc|
      ensures FirstIndex(ps, acc[i].name) == FirstIndex(ps[..|ps| - 1], acc[i].name) < |ps| - 1
    {
      assert acc[i] in acc;
      MemberNameInPrefix(ps, |ps| - 1, acc[i]);
    }
  }

  /** A name the pool does not hold yet first occurs at the last position. */
  lemma NewNameComesLast(ps: seq<Pilot>, acc: seq<Pilot>)
    requires ps != [] && UniqueOf(acc, ps[..|ps| - 1]) && NameIndex(acc, ps[|ps| - 1].name).None?
    ensures FirstIndex(ps, ps[|ps| - 1].name) == |ps| - 1
  {
    var n := |ps| - 1;
    forall m | 0 <= m < n ensures ps[m].name != ps[n].name {
      assert ps[..n][m] == ps[m];
      assert NameIndex(acc, ps[..n][m].name).Some?;
    }
  }

  lemma AppendKeepsOrder(ps: seq<Pilot>, acc: seq<Pilot>)
    requires ps != [] && InFirstOccurrenceOrder(acc, ps[..|ps| - 1])
    requires forall i :: 0 <= i < |acc| ==> FirstIndex(ps, acc[i].name) == FirstIndex(ps[..|ps| - 1], acc[i].name) < |ps| - 1
    requires FirstIndex(ps, ps[|ps| - 1].name) == |ps| - 1
    ensures InFirstOccurrenceOrder(acc + [ps[|ps| - 1]], ps)
  {
    var r := acc + [ps[|ps| - 1]];
    forall i, j | 0 <= i < j < |r| ensures FirstIndex(ps, r[i].name) < FirstIndex(ps, r[j].name) {
      assert r[i] == acc[i];
      if j < |acc| {
        assert r[j] == acc[j];
      }
    }
  }

  lemma SameNamesKeepOrder(ps: seq<Pilot>, acc: seq<Pilot>, r: seq<Pilot>)
    requires ps != [] && InFirstOccurrenceOrder(acc, ps[..|ps| - 1])
    requires forall i :: 0 <= i < |acc| ==> FirstIndex(ps, acc[i].name) == FirstIndex(ps[..|ps| - 1], acc[i].name)
    requires |r| == |acc| && forall i :: 0 <= i < |acc| ==> r[i].name == acc[i].name
    ensures InFirstOccurrenceOrder(r, ps)
  {
    forall i, j | 0 <= i < j < |r| ensures FirstIndex(ps, r[i].name) < FirstIndex(ps, r[j].name) {
      assert r[i].name == acc[i].name && r[j].name == acc[j].name;
    }
  }

  /** The effect that reloads the roster when the category or the form changes: the
      suggestion pool is rebuilt, and the category's pilots only when a category is chosen. */
  function Reload(page: Page, all: seq<Pilot>): (r: Page)
    ensures r.knownPilots == UniqueByName(all)
    ensures page.category != [] ==> r.categoryPilots == Seqs.Filter(all, (p: Pilot) => p.category == page.category)
    ensures page.category == [] ==> r.categoryPilots == page.categoryPilots
    ensures r.form == page.form && r.category == page.category && r.errors == page.errors
  {
    var cp := if page.category != [] then Seqs.Filter(all, (p: Pilot) => p.category == page.category)
              else page.categoryPilots;
    page.(knownPilots := UniqueByName(all), categoryPilots := cp)
  }

  /** `(pilot.ranking || 99).toString()`. */
  function RankingText(ranking: int): string {
    IntToString(if ranking != 0 then ranking else 99)
  }

  /** `populatePilotData`: the form takes the pilot's name, licences and transponder; the
      number and ranking are the pilot's own only when the pilot races in the selected
      category, otherwise the typed number is kept (the pilot's if none was typed) and the
      ranking is reset to "99". Suggestions and errors are cleared. */
  function Populate(page: Page, pilot: Pilot): (r: Page)
    ensures r.form.name == pilot.name
    ensures r.form.medicalLicense == pilot.medicalLicense && r.form.sportsLicense == pilot.sportsLicense
    ensures r.form.transponderId == pilot.transponderId
    ensures pilot.category == page.category ==>
              r.form.number == pilot.number && r.form.ranking == RankingText(pilot.ranking)
    ensures pilot.category != page.category ==>
              r.form.number == (if page.form.number != [] then page.form.number else pilot.number)
              && r.form.ranking == "99"
    ensures r.foundInRanking && r.suggestions == [] && r.errors == NoRegErrors
    ensures r.category == page.category && r.step == page.step && r.submitted == page.submitted
  {
    var same := pilot.category == page.category;
    page.(form := page.form.(
            name := pilot.name,
            number := if same then pilot.number
                      else if page.form.number != [] then page.form.number else pilot.number,
            ranking := if same then RankingText(pilot.ranking) else "99",
            medicalLicense := pilot.medicalLicense,
            sportsLicense := pilot.sportsLicense,
            transponderId := pilot.transponderId),
          foundInRanking := true,
          suggestions := [],
          errors := NoRegErrors)
  }

  /** The ranking a pre-fill in the pilot's own category writes reads back, through
      `parseInt(ranking) || 99`, as the pilot's ranking when that is positive. */
  lemma PopulatedRankingReadsBack(page: Page, pilot: Pilot)
    requires pilot.category == page.category && pilot.ranking > 0
    ensures IntOr99(Populate(page, pilot).form.ranking) == pilot.ranking
  {
    ParseIntOfNatToString(pilot.ranking);
  }

  /** A pilot whose name contains the upper-cased text typed. */
  predicate Matches(p: Pilot, typed: string) {
    Contains(p.name, ToUpper(typed))
  }

  /** The suggestions for the typed name: none up to two characters, else the first five
      pilots of the pool whose name includes the upper-cased text, in pool order. */
  function Suggestions(known: seq<Pilot>, typed: string): (r: seq<Pilot>)
    ensures |typed| <= 2 ==> r == []
    ensures |typed| > 2 ==> |r| == Min(5, |Matching(known, typed)|) && r == Matching(known, typed)[..|r|]
    ensures |r| <= 5
    ensures forall q :: q in r ==> q in known && Matches(q, typed)
    ensures Seqs.IsSubsequence(r, known)
    ensures |typed| > 2 && |r| < 5 ==> forall q :: q in known && Matches(q, typed) ==> q in r
  {
    if |typed| > 2 then
      var all := Matching(known, typed);
      var r := Seqs.Take(all, 5);
      assert forall q :: q in r ==> q in all;
      TakeIsSubsequence(all, 5);
      Seqs.SubsequenceTransitive(r, all, known);
      r
    else
      []
  }

  /** The pool's pilots that match, in pool order. */
  function Matching(known: seq<Pilot>, typed: string): seq<Pilot> {
    Seqs.Filter(known, (p: Pilot) => Matches(p, typed))
  }

  lemma TakeIsSubsequence<T>(xs: seq<T>, n: nat)
    ensures Seqs.IsSubsequence(Seqs.Take(xs, n), xs)
  {
    Seqs.PrefixSubsequence(Seqs.Take(xs, n), xs);
  }

  /** `handleNameInput`: the name is what was typed, the page no longer counts as found in
      the ranking, a shown name error is cleared and the suggestions are recomputed. */
  function NameInput(page: Page, typed: string): (r: Page)
    ensures r.form == page.form.(name := typed)
    ensures !r.foundInRanking
    ensures r.suggestions == Suggestions(page.knownPilots, typed)
    ensures r.errors.name == (if page.errors.name.Some? && page.errors.name.value != [] then Some([])
                             else page.errors.name)
    ensures r.errors.number == page.errors.number && r.errors.medicalLicense == page.errors.medicalLicense
    ensures r.category == page.category && r.knownPilots == page.knownPilots
  {
    var errors := if page.errors.name.Some? && page.errors.name.value != [] then page.errors.(name := Some([]))
                  else page.errors;
    page.(form := page.form.(name := typed), foundInRanking := false, errors := errors,
          suggestions := Suggestions(page.knownPilots, typed))
  }

  /** `categoryPilots.find(p => p.number === number)`. */
  function FirstWithNumber(ps: seq<Pilot>, number: string): (r: Option<Pilot>)
    ensures r.Some? ==> r.value in ps && r.value.number == number
    ensures r.Some? ==>
              exists k :: 0 <= k < |ps| && ps[k] == r.value && forall i :: 0 <= i < k ==> ps[i].number != number
    ensures r.None? ==> forall i :: 0 <= i < |ps| ==> ps[i].number != number
  {
    if ps == [] then None
    else if ps[0].number == number then Some(ps[0])
    else FirstWithNumber(ps[1..], number)
  }

  /** `handleNumberLookup`: the number is what was typed and a shown number error is
      cleared; a non-empty number that a pilot of the selected category carries pre-fills
      the form from that pilot. */
  function NumberLookup(page: Page, number: string): (r: Page)
    ensures var typed := page.(form := page.form.(number := number),
                               errors := if page.errors.number.Some? && page.errors.number.value != []
                                         then page.errors.(number := Some([])) else page.errors);
            r == match FirstWithNumber(page.categoryPilots, number)
                 case Some(p) => if number != [] then Populate(typed, p) else typed
                 case None => typed
  {
    var typed := page.(form := page.form.(number := number),
                       errors := if page.errors.number.Some? && page.errors.number.value != []
                                 then page.errors.(number := Some([])) else page.errors);
    if number == [] then typed
    else match FirstWithNumber(page.categoryPilots, number)
      case Some(p) => Populate(typed, p)
      case None => typed
  }

  /** A lookup pre-fills only from a pilot of the page's category list carrying exactly the
      typed number; when that list holds the selected category's pilots, the pre-fill is the
      pilot's own number and ranking. */
  lemma LookupPrefillsFromCategory(page: Page, all: seq<Pilot>, number: string)
    requires page.category != [] && number != []
    requires page.categoryPilots == Seqs.Filter(all, (p: Pilot) => p.category == page.category)
    ensures match FirstWithNumber(page.categoryPilots, number)
            case Some(p) => p in all && p.category == page.category
                            && NumberLookup(page, number).form.number == number
                            && NumberLookup(page, number).form.ranking == RankingText(p.ranking)
                            && NumberLookup(page, number).foundInRanking
            case None => NumberLookup(page, number).form == page.form.(number := number)
  {
  }

  /** `handleAddAnotherCategory`: back to category choice with no category, the personal
      data kept and the ranking reset to "99". */
  function AddAnotherCategory(page: Page): (r: Page)
    ensures r.form == page.form.(ranking := "99")
    ensures r.category == [] && r.step == 1 && !r.submitted && r.foundInRanking
    ensures r.errors == NoRegErrors
  {
    page.(submitted := false, step := 1, category := [], form := page.form.(ranking := "99"),
          foundInRanking := true, errors := NoRegErrors)
  }

  /** A roster pilot holding the (upper-cased) licence `u`: `p.medicalLicense &&
      p.medicalLicense.toUpperCase() === u`. */
  predicate HoldsLicence(p: Pilot, u: string) {
    p.medicalLicense != [] && ToUpper(p.medicalLicense) == u
  }

  /** The position of the first holder of `u`. */
  function HolderIndex(ps: seq<Pilot>, u: string): (r: Option<nat>)
    ensures r.Some? ==> r.value < |ps| && HoldsLicence(ps[r.value], u)
    ensures r.Some? ==> forall i :: 0 <= i < r.value ==> !HoldsLicence(ps[i], u)
    ensures r.None? ==> forall i :: 0 <= i < |ps| ==> !HoldsLicence(ps[i], u)
  {
    if ps == [] then None
    else if HoldsLicence(ps[0], u) then Some(0)
    else match HolderIndex(ps[1..], u)
      case None => None
      case Some(k) => Some(k + 1)
  }

  /** The licence check passes when nobody holds the licence, or when its first holder has
      the form's name, both upper-cased. */
  predicate LicenceFree(ps: seq<Pilot>, licence: string, name: string) {
    match HolderIndex(ps, ToUpper(licence))
    case None => true
    case Some(k) => ToUpper(ps[k].name) == ToUpper(name)
  }

  /** What `validateForm` demands. The short-name test is on the name as typed; every other
      test is on the trimmed field. */
  predicate IsRegValid(ps: seq<Pilot>, f: RegForm) {
    Trim(f.name) != [] && |f.name| >= 3
    && AllDigits(Trim(f.number))
    && f.ranking != [] && NumberIsNumeric(f.ranking)
    && |Trim(f.medicalLicense)| >= 3 && LicenceFree(ps, Trim(f.medicalLicense), Trim(f.name))
    && |Trim(f.sportsLicense)| >= 3
  }

  function RegNameError(f: RegForm): (r: Option<string>)
    ensures r.None? <==> Trim(f.name) != [] && |f.name| >= 3
    ensures Trim(f.name) == [] ==> r == Some("El nombre es obligatorio.")
    ensures Trim(f.name) != [] && |f.name| < 3 ==> r == Some("El nombre es demasiado corto.")
  {
    if Trim(f.name) == [] then Some("El nombre es obligatorio.")
    else if |f.name| < 3 then Some("El nombre es demasiado corto.")
    else None
  }

  function RegNumberError(f: RegForm): (r: Option<string>)
    ensures r.None? <==> AllDigits(Trim(f.number))
    ensures Trim(f.number) == [] ==> r == Some("El dorsal es obligatorio.")
    ensures Trim(f.number) != [] && !AllDigits(Trim(f.number)) ==> r == Some("El dorsal debe ser numérico.")
  {
    if Trim(f.number) == [] then Some("El dorsal es obligatorio.")
    else if !AllDigits(Trim(f.number)) then Some("El dorsal debe ser numérico.")
    else None
  }

  function RankingError(f: RegForm): (r: Option<string>)
    ensures r.None? <==> f.ranking != [] && NumberIsNumeric(f.ranking)
    ensures f.ranking == [] ==> r == Some("Ranking requerido.")
    ensures f.ranking != [] && !NumberIsNumeric(f.ranking) ==> r == Some("El ranking debe ser un número.")
  {
    if f.ranking == [] then Some("Ranking requerido.")
    else if !NumberIsNumeric(f.ranking) then Some("El ranking debe ser un número.")
    else None
  }

  /** The medical-licence check: required, at least three characters once trimmed, and,
      when a roster pilot already holds it (case-insensitively), held by a pilot of the same
      name; the error then names that holder. */
  function RegLicenceError(ps: seq<Pilot>, f: RegForm): (r: Option<string>)
    ensures r.None? <==>
              |Trim(f.medicalLicense)| >= 3 && LicenceFree(ps, Trim(f.medicalLicense), Trim(f.name))
    ensures Trim(f.medicalLicense) == [] ==> r == Some("Licencia Médica requerida.")
    ensures 0 < |Trim(f.medicalLicense)| < 3 ==> r == Some("Formato de licencia inválido.")
    ensures |Trim(f.medicalLicense)| >= 3 && !LicenceFree(ps, Trim(f.medicalLicense), Trim(f.name)) ==>
              exists k :: 0 <= k < |ps| && HoldsLicence(ps[k], ToUpper(Trim(f.medicalLicense)))
                          && ToUpper(ps[k].name) != ToUpper(Trim(f.name))
                          && r == Some("Licencia registrada a: " + ps[k].name)
  {
    var lic := Trim(f.medicalLicense);
    if lic == [] then Some("Licencia Médica requerida.")
    else if |lic| < 3 then Some("Formato de licencia inválido.")
    else match HolderIndex(ps, ToUpper(lic))
      case None => None
      case Some(k) =>
        if ToUpper(ps[k].name) != ToUpper(Trim(f.name)) then Some("Licencia registrada a: " + ps[k].name)
        else None
  }

  function RegSportsError(f: RegForm): (r: Option<string>)
    ensures r.None? <==> |Trim(f.sportsLicense)| >= 3
    ensures Trim(f.sportsLicense) == [] ==> r == Some("Licencia Deportiva requerida.")
    ensures 0 < |Trim(f.sportsLicense)| < 3 ==> r == Some("Formato de licencia inválido.")
  {
    var lic := Trim(f.sportsLicense);
    if lic == [] then Some("Licencia Deportiva requerida.")
    else if |lic| < 3 then Some("Formato de licencia inválido.")
    else None
  }

  /** `validateForm()`: fills the error dictionary field by field against the stored roster;
      the form passes exactly when it stays empty. */
  method ValidateForm(ps: seq<Pilot>, f: RegForm) returns (errors: RegErrors)
    ensures errors == RegErrors(RegNameError(f), RegNumberError(f), RankingError(f),
                                RegLicenceError(ps, f), RegSportsError(f))
    ensures errors.IsEmpty() <==> IsRegValid(ps, f)
  {
    errors := NoRegErrors;
    errors := errors.(name := RegNameError(f));
    errors := errors.(number := RegNumberError(f));
    errors := errors.(ranking := RankingError(f));
    errors := errors.(medicalLicense := RegLicenceError(ps, f));
    errors := errors.(sportsLicense := RegSportsError(f));
  }

  /** Under a roster where holders of one licence share one name, a passing licence check
      means every holder of the licence has the form's name. */
  lemma LicenceCheckCoversAllHolders(ps: seq<Pilot>, licence: string, name: string)
    requires LicenceHoldersAgree(ps)
    requires LicenceFree(ps, licence, name)
    ensures forall i :: 0 <= i < |ps| && HoldsLicence(ps[i], ToUpper(licence)) ==>
              ToUpper(ps[i].name) == ToUpper(name)
  {
  }

  /** The roster rule the licence check is there to keep: pilots whose licences agree up
      to case have names that agree up to case. */
  predicate LicenceHoldersAgree(ps: seq<Pilot>) {
    forall i, j :: 0 <= i < |ps| && 0 <= j < |ps| && HoldsLicence(ps[i], ToUpper(ps[j].medicalLicense))
      ==> ToUpper(ps[i].name) == ToUpper(ps[j].name)
  }


  /** `findIndex(p => p.number === number && p.category === category)`: the first record of
      that kart number in that category, compared exactly. */
  function ExistingIndex(ps: seq<Pilot>, number: string, category: string): (r: Option<nat>)
    ensures r.Some? ==> r.value < |ps| && ps[r.value].number == number && ps[r.value].category == category
    ensures r.Some? ==> forall i :: 0 <= i < r.value ==> !(ps[i].number == number && ps[i].category == category)
    ensures r.None? ==> forall i :: 0 <= i < |ps| ==> !(ps[i].number == number && ps[i].category == category)
  {
    if ps == [] then None
    else if ps[0].number == number && ps[0].category == category then Some(0)
    else match ExistingIndex(ps[1..], number, category)
      case None => None
      case Some(k) => Some(k + 1)
  }

  /** The re-registration of record `p`: pending again, the form's licences and transponder
      where given (the old ones where the form leaves them empty), dated today; identity,
      name, number, category, ranking and statistics are kept. */
  function ReRegistered(p: Pilot, f: RegForm, today: string): (r: Pilot)
    ensures r.status == Pendiente && r.lastUpdated == today
    ensures r.medicalLicense == Or(f.medicalLicense, p.medicalLicense)
    ensures r.sportsLicense == Or(f.sportsLicense, p.sportsLicense)
    ensures r.transponderId == Or(f.transponderId, p.transponderId)
    ensures r.(status := p.status, lastUpdated := p.lastUpdated, medicalLicense := p.medicalLicense,
               sportsLicense := p.sportsLicense, transponderId := p.transponderId) == p
  {
    p.(status := Pendiente,
       medicalLicense := Or(f.medicalLicense, p.medicalLicense),
       sportsLicense := Or(f.sportsLicense, p.sportsLicense),
       transponderId := Or(f.transponderId, p.transponderId),
       lastUpdated := today)
  }

  /** The record a first registration in `category` appends: pending, conduct points 10,
      zeroed statistics, "PENDIENTE" for a missing licence and `TX-<number>` for a missing
      transponder. The licence is stored as typed. */
  function NewRegistration(f: RegForm, category: string, id: string, today: string, now: int): (r: Pilot)
    ensures r.id == id && r.category == category && r.status == Pendiente
    ensures r.name == Trim(ToUpper(f.name)) && r.number == Trim(f.number)
    ensures r.ranking == IntOr99(f.ranking) && r.ranking != 0
    ensures r.medicalLicense == Or(f.medicalLicense, "PENDIENTE")
    ensures r.sportsLicense == Or(f.sportsLicense, "PENDIENTE")
    ensures r.transponderId == Or(f.transponderId, "TX-" + f.number)
    ensures r.conductPoints == 10 && r.stats == Stats(0, 0, 0, None) && r.createdAt == now
    ensures r.lastUpdated == today
    ensures r.bloodType.None? && r.emergencyContact.None? && r.association.None?
  {
    Pilot(id, Trim(f.number), Trim(ToUpper(f.name)), category, Pendiente, IntOr99(f.ranking),
          Or(f.medicalLicense, "PENDIENTE"), Or(f.sportsLicense, "PENDIENTE"),
          Or(f.transponderId, "TX-" + f.number), 10, today, now, Stats(0, 0, 0, None),
          None, None, None)
  }

  /** The roster a valid submission saves: the existing (number, category) record is
      re-registered in place, with the length and every other record unchanged; otherwise one
      new record is appended at the end. */
  function Registered(ps: seq<Pilot>, f: RegForm, category: string, id: string, today: string,
                      now: int): (r: seq<Pilot>)
    ensures ExistingIndex(ps, f.number, category).Some? ==>
              var k := ExistingIndex(ps, f.number, category).value;
              |r| == |ps| && r[k] == ReRegistered(ps[k], f, today)
              && forall i :: 0 <= i < |ps| && i != k ==> r[i] == ps[i]
    ensures ExistingIndex(ps, f.number, category).None? ==>
              |r| == |ps| + 1 && r[..|ps|] == ps && r[|ps|] == NewRegistration(f, category, id, today, now)
  {
    match ExistingIndex(ps, f.number, category)
    case Some(k) => ps[k := ReRegistered(ps[k], f, today)]
    case None =>
      var r := ps + [NewRegistration(f, category, id, today, now)];
      assert r[..|ps|] == ps;
      r
  }

  /** Submitting the same digit-only number twice in one category registers once: the
      second submission finds the record the first one wrote and adds nothing. */
  lemma ResubmissionAddsNothing(ps: seq<Pilot>, f: RegForm, category: string, id1: string,
                                id2: string, today: string, now: int)
    requires AllDigits(f.number)
    ensures var once := Registered(ps, f, category, id1, today, now);
            |Registered(once, f, category, id2, today, now)| == |once|
    ensures var once := Registered(ps, f, category, id1, today, now);
            ExistingIndex(once, f.number, category).Some?
  {
    assert Trim(f.number) == f.number by {
      DigitsFacts(f.number);
    }
    RegisteredHasRecord(ps, f, category, id1, today, now);
  }

  /** A registration whose number trims to itself leaves a record of that number and
      category. */
  lemma RegisteredHasRecord(ps: seq<Pilot>, f: RegForm, category: string, id: string,
                            today: string, now: int)
    requires Trim(f.number) == f.number
    ensures ExistingIndex(Registered(ps, f, category, id, today, now), f.number, category).Some?
  {
    var once := Registered(ps, f, category, id, today, now);
    match ExistingIndex(ps, f.number, category)
    case Some(k) =>
      assert once[k].number == f.number && once[k].category == category;
    case None =>
      assert once[|ps|].number == f.number && once[|ps|].category == category;
  }

  /** `handleDirectSubmit`: validate against the stored roster (the page shows the errors);
      when valid, save the re-registered or extended roster and mark the page submitted. The
      new record's id, today's date and the clock reading are parameters. */
  method DirectSubmit(store: LocalStore, page: Page, id: string, today: string, now: int)
    returns (next: Page)
    modifies store
    ensures next == page.(errors := RegErrors(RegNameError(page.form), RegNumberError(page.form),
                            RankingError(page.form), RegLicenceError(old(store.Pilots()), page.form),
                            RegSportsError(page.form)),
                          submitted := page.submitted || IsRegValid(old(store.Pilots()), page.form))
    ensures !IsRegValid(old(store.Pilots()), page.form) ==> store.State() == old(store.State())
    ensures IsRegValid(old(store.Pilots()), page.form) ==> store.State() == old(store.State()).(
              pilots := Some(Registered(old(store.Pilots()), page.form, page.category, id, today, now)))
  {
    var current := store.Pilots();
    var errors := ValidateForm(current, page.form);
    next := page.(errors := errors);
    if !errors.IsEmpty() {
      return;
    }
    var f := page.form;
    var existing := ExistingIndex(current, f.number, page.category);
    if existing.Some? {
      var updated := current;
      var k := existing.value;
      updated := updated[k := ReRegistered(updated[k], f, today)];
      store.SavePilots(updated);
    } else {
      store.SavePilots(current + [NewRegistration(f, page.category, id, today, now)]);
    }
    next := next.(submitted := true);
  }

  /** A roster whose licences are distinct numerals keeps the licence rule: a numeral
      upper-cases to itself. */
  lemma DigitLicencesAgree(ps: seq<Pilot>)
    requires LicencesDistinct(ps)
    requires forall i :: 0 <= i < |ps| ==> AllDigits(ps[i].medicalLicense)
    ensures LicenceHoldersAgree(ps)
  {
    forall i | 0 <= i < |ps| ensures ToUpper(ps[i].medicalLicense) == ps[i].medicalLicense {
      UpperOfDigits(ps[i].medicalLicense);
    }
  }

  lemma {:induction false} UpperOfDigits(s: string)
    requires forall i :: 0 <= i < |s| ==> IsDigit(s[i])
    ensures ToUpper(s) == s
  {
    if s != [] {
      UpperOfDigits(s[1..]);
      assert s == [s[0]] + s[1..];
    }
  }

  /** A numeral, checked digit by digit. */
  predicate Numeral(s: string) {
    s != [] && IsDigit(s[0]) && (|s| == 1 || Numeral(s[1..]))
  }

  lemma {:induction false} NumeralDigits(s: string)
    requires Numeral(s)
    ensures AllDigits(s)
  {
    if |s| > 1 {
      NumeralDigits(s[1..]);
      assert forall i :: 1 <= i < |s| ==> s[i] == s[1..][i - 1];
    }
  }

  /** What the checks see of a numeral: it trims and upper-cases to itself and is a number. */
  lemma DigitsFacts(s: string)
    requires AllDigits(s)
    ensures Trim(s) == s && NumberIsNumeric(s) && ToUpper(s) == s
  {
    TrimNoOp(s);
    NumeralIsNumeric(s);
    UpperOfDigits(s);
  }

  /** Upper-casing keeps a leading capital, so names with different initials differ
      whatever their case. */
  lemma UpperKeepsCapitalInitial(s: string)
    requires s != [] && 'A' <= s[0] <= 'Z'
    ensures ToUpper(s)[0] == s[0]
  {
  }

  /** A name of at least three characters typed without surrounding blanks. */
  predicate PlainName(s: string) {
    |s| >= 3 && !IsWhitespace(s[0]) && !IsWhitespace(s[|s| - 1])
  }

  /** A form passes every check when its name is plain, its number, ranking and sports
      licence are numerals, its medical licence is the numeral `lic` perhaps followed by one
      blank, and either the first record holds `lic` under the form's own name or every
      stored licence is longer than `lic` (so none upper-cases to it). */
  lemma PlainFormValid(ps: seq<Pilot>, f: RegForm, lic: string, pad: string)
    requires PlainName(f.name)
    requires AllDigits(f.number) && AllDigits(f.ranking) && AllDigits(f.sportsLicense) && |f.sportsLicense| >= 3
    requires AllDigits(lic) && |lic| >= 3 && f.medicalLicense == lic + pad && (pad == [] || pad == " ")
    requires (ps != [] && ps[0].medicalLicense == lic && ps[0].name == f.name)
             || (forall k :: 0 <= k < |ps| ==> |ps[k].medicalLicense| > |lic|)
    ensures IsRegValid(ps, f)
  {
    TrimNoOp(f.name);
    DigitsFacts(f.number);
    DigitsFacts(f.ranking);
    DigitsFacts(f.sportsLicense);
    PaddedNumeralTrims(f.medicalLicense, lic, pad);
    FirstOrNoHolder(ps, f.name, lic);
    RegValidOfChecks(ps, f, lic);
  }

  /** A numeral followed by at most one blank trims to the numeral. */
  lemma PaddedNumeralTrims(s: string, lic: string, pad: string)
    requires AllDigits(lic) && s == lic + pad && (pad == [] || pad == " ")
    ensures Trim(s) == lic
  {
    if pad == [] {
      assert s == lic;
      TrimNoOp(lic);
    } else {
      DigitsThenBlankTrims(lic);
    }
  }

  lemma DigitsThenBlankTrims(lic: string)
    requires AllDigits(lic)
    ensures Trim(lic + " ") == lic
  {
    var s := lic + " ";
    assert s[|lic|] == ' ';
    if lic != [] {
      assert s[0] == lic[0] && s[|lic| - 1] == lic[|lic| - 1];
    }
    TrimIsCore(s, 0, |lic|);
    assert s[..|lic|] == lic;
  }

  /** The licence is free for `name` when the first record holds it under that name, or when
      every stored licence is longer than it. */
  lemma FirstOrNoHolder(ps: seq<Pilot>, name: string, lic: string)
    requires PlainName(name) && AllDigits(lic)
    requires (ps != [] && ps[0].medicalLicense == lic && ps[0].name == name)
             || (forall k :: 0 <= k < |ps| ==> |ps[k].medicalLicense| > |lic|)
    ensures LicenceFree(ps, lic, Trim(name))
  {
    TrimNoOp(name);
    DigitsFacts(lic);
    if ps != [] && ps[0].medicalLicense == lic && ps[0].name == name {
      assert HoldsLicence(ps[0], lic);
      assert HolderIndex(ps, lic) == Some(0);
    } else {
      NoShorterHolder(ps, lic);
    }
  }

  /** The checks of `validateForm`, one by one, make up `IsRegValid`. */
  lemma RegValidOfChecks(ps: seq<Pilot>, f: RegForm, lic: string)
    requires Trim(f.name) != [] && |f.name| >= 3
    requires AllDigits(Trim(f.number))
    requires f.ranking != [] && NumberIsNumeric(f.ranking)
    requires Trim(f.medicalLicense) == lic && |lic| >= 3
    requires LicenceFree(ps, lic, Trim(f.name))
    requires |Trim(f.sportsLicense)| >= 3
    ensures IsRegValid(ps, f)
  {
  }

  /** Nobody holds a licence shorter than every stored one. */
  lemma NoShorterHolder(ps: seq<Pilot>, u: string)
    requires forall k :: 0 <= k < |ps| ==> |ps[k].medicalLicense| > |u|
    ensures HolderIndex(ps, u) == None
  {
  }

  /** A form that carries the first record's numeral licence and the kart number of the
      second record, whose holder's name has a different capital initial, rewrites that
      second record so that two pilots of different names hold one licence. */
  lemma OverwriteBreaksRule(ps: seq<Pilot>, f: RegForm, category: string, id: string,
                            today: string, now: int)
    requires |ps| >= 2 && ps[0].medicalLicense == f.medicalLicense && AllDigits(f.medicalLicense)
    requires ExistingIndex(ps, f.number, category) == Some(1)
    requires ps[0].name != [] && ps[1].name != []
    requires 'A' <= ps[0].name[0] <= 'Z' && 'A' <= ps[1].name[0] <= 'Z' && ps[0].name[0] != ps[1].name[0]
    ensures !LicenceHoldersAgree(Registered(ps, f, category, id, today, now))
  {
    var r := Registered(ps, f, category, id, today, now);
    DigitsFacts(f.medicalLicense);
    assert r[0] == ps[0];
    assert r[1].name == ps[1].name && r[1].medicalLicense == f.medicalLicense;
    assert HoldsLicence(r[0], ToUpper(r[1].medicalLicense));
    UpperKeepsCapitalInitial(r[0].name);
    UpperKeepsCapitalInitial(r[1].name);
    assert ToUpper(r[0].name) != ToUpper(r[1].name);
  }

  /** The form with which JUAN ACOSTA (licence 1001) re-registers under kart number 2. */
  function OverwriteForm(): RegForm {
    RegForm("JUAN ACOSTA", "2", "99", "1001", "2001", "")
  }

  /** The two first seed records, JUAN ACOSTA #1 (licence 1001) and PEDRO RAMIREZ #2, both
      of KDO Power, on a roster of distinct numeral licences. */
  predicate SeedHead(ps: seq<Pilot>) {
    |ps| >= 2
    && ps[0].name == "JUAN ACOSTA" && ps[0].number == "1" && ps[0].category == "KDO Power"
    && ps[0].medicalLicense == "1001"
    && ps[1].name == "PEDRO RAMIREZ" && ps[1].number == "2" && ps[1].category == "KDO Power"
    && LicencesDistinct(ps) && forall i :: 0 <= i < |ps| ==> AllDigits(ps[i].medicalLicense)
  }

  lemma InitialPilotsHead()
    ensures SeedHead(Seeds.InitialPilots())
  {
    Seeds.InitialPilotsDistinct();
  }

  /** On any roster that starts like the seed one, the overwriting form passes... */
  lemma OverwritePassesOnHead(ps: seq<Pilot>)
    requires SeedHead(ps)
    ensures IsRegValid(ps, OverwriteForm())
  {
    NumeralDigits("2");
    NumeralDigits("99");
    NumeralDigits("1001");
    NumeralDigits("2001");
    PlainFormValid(ps, OverwriteForm(), "1001", []);
  }

  /** ... and its registration breaks the licence rule. */
  lemma OverwriteBreaksHead(ps: seq<Pilot>)
    requires SeedHead(ps)
    ensures !LicenceHoldersAgree(Registered(ps, OverwriteForm(), "KDO Power", "new", "2026-06-01", 0))
  {
    NumeralDigits("1001");
    assert ExistingIndex(ps, "2", "KDO Power") == Some(1);
    OverwriteBreaksRule(ps, OverwriteForm(), "KDO Power", "new", "2026-06-01", 0);
  }

  /** As written, a re-registration is matched by kart number and category only: on the
      seed roster, JUAN ACOSTA's form with kart number 2 passes validation (his own licence,
      his own name) and rewrites PEDRO RAMIREZ's record with JUAN's licence, so two pilots of
      different names end up holding licence 1001. */
  lemma ReRegistrationOverwritesAnotherPilot()
    ensures LicenceHoldersAgree(Seeds.InitialPilots())
    ensures IsRegValid(Seeds.InitialPilots(), OverwriteForm())
    ensures !LicenceHoldersAgree(Registered(Seeds.InitialPilots(), OverwriteForm(), "KDO Power",
                                            "new", "2026-06-01", 0))
  {
    InitialPilotsHead();
    DigitLicencesAgree(Seeds.InitialPilots());
    OverwritePassesOnHead(Seeds.InitialPilots());
    OverwriteBreaksHead(Seeds.InitialPilots());
  }

  /** A form with a plain, capitalised name, numeral number, ranking and sports licence,
      and the medical licence `lic` followed by one blank. */
  predicate PaddedFit(f: RegForm, lic: string) {
    PlainName(f.name) && 'A' <= f.name[0] <= 'Z'
    && AllDigits(f.number) && AllDigits(f.ranking) && AllDigits(f.sportsLicense) && |f.sportsLicense| >= 3
    && f.medicalLicense == lic + " "
  }

  /** Two forms of different capital initials and different kart numbers, each carrying the
      numeral licence `lic` followed by a blank, both pass on an empty roster one after the
      other, and leave two pilots of different names holding the same licence. */
  lemma PaddedLicencesCollide(f1: RegForm, f2: RegForm, lic: string, category: string,
                             id1: string, id2: string, today: string, now: int)
    requires PaddedFit(f1, lic) && PaddedFit(f2, lic)
    requires f1.name[0] != f2.name[0] && f1.number != f2.number
    requires AllDigits(lic) && |lic| >= 3
    ensures var r1 := Registered([], f1, category, id1, today, now);
            IsRegValid([], f1) && IsRegValid(r1, f2)
            && !LicenceHoldersAgree(Registered(r1, f2, category, id2, today, now))
  {
    var q1 := NewRegistration(f1, category, id1, today, now);
    var q2 := NewRegistration(f2, category, id2, today, now);
    NewRecordFacts(f1, category, id1, today, now);
    NewRecordFacts(f2, category, id2, today, now);
    PaddedFirst(f1, lic, category, id1, today, now);
    PaddedSecond([q1], f2, lic, category, id2, today, now);
    var r2 := Registered([q1], f2, category, id2, today, now);
    SharedLicenceBreaks(r2, 0, 1);
  }

  lemma PaddedFirst(f: RegForm, lic: string, category: string, id: string, today: string, now: int)
    requires PaddedFit(f, lic) && AllDigits(lic) && |lic| >= 3
    ensures IsRegValid([], f)
    ensures Registered([], f, category, id, today, now) == [NewRegistration(f, category, id, today, now)]
  {
    PlainFormValid([], f, lic, " ");
  }

  lemma PaddedSecond(r1: seq<Pilot>, f: RegForm, lic: string, category: string, id: string,
                     today: string, now: int)
    requires PaddedFit(f, lic) && AllDigits(lic) && |lic| >= 3
    requires |r1| == 1 && |r1[0].medicalLicense| > |lic| && r1[0].number != f.number
    ensures IsRegValid(r1, f)
    ensures Registered(r1, f, category, id, today, now) == r1 + [NewRegistration(f, category, id, today, now)]
  {
    PlainFormValid(r1, f, lic, " ");
    assert ExistingIndex(r1, f.number, category) == None;
  }

  /** What a new record keeps of a plain form: its number, its licence, and its name's
      capital initial once upper-cased. */
  lemma NewRecordFacts(f: RegForm, category: string, id: string, today: string, now: int)
    requires PlainName(f.name) && 'A' <= f.name[0] <= 'Z' && AllDigits(f.number) && f.medicalLicense != []
    ensures var q := NewRegistration(f, category, id, today, now);
            q.number == f.number && q.medicalLicense == f.medicalLicense
            && ToUpper(q.name) != [] && ToUpper(q.name)[0] == f.name[0]
  {
    DigitsFacts(f.number);
    NormalisedInitial(f.name);
  }

  /** Two records of one licence under names that differ once upper-cased break the rule. */
  lemma SharedLicenceBreaks(r: seq<Pilot>, i: nat, j: nat)
    requires i < |r| && j < |r| && r[i].medicalLicense == r[j].medicalLicense != []
    requires ToUpper(r[i].name) != ToUpper(r[j].name)
    ensures !LicenceHoldersAgree(r)
  {
    assert HoldsLicence(r[i], ToUpper(r[j].medicalLicense));
  }

  function PaddedForm(name: string, number: string): RegForm {
    RegForm(name, number, "99", "1001 ", "2001", "")
  }

  lemma PaddedFormFits(name: string, number: string)
    requires PlainName(name) && 'A' <= name[0] <= 'Z' && Numeral(number)
    ensures PaddedFit(PaddedForm(name, number), "1001")
  {
    NumeralDigits(number);
    NumeralDigits("99");
    NumeralDigits("2001");
  }

  /** As written, the licence is checked trimmed but stored as typed: on an empty roster
      JUAN ACOSTA registers with "1001 " (trailing space), after which MARIO ROSSI's form with
      the same "1001 " finds no holder of "1001" and is appended too, so two pilots of
      different names hold the same licence. */
  lemma PaddedLicenceEscapesCheck()
    ensures var r1 := Registered([], PaddedForm("JUAN ACOSTA", "1"), "KDO Power", "p1", "2026-06-01", 0);
            IsRegValid([], PaddedForm("JUAN ACOSTA", "1"))
            && IsRegValid(r1, PaddedForm("MARIO ROSSI", "2"))
            && !LicenceHoldersAgree(Registered(r1, PaddedForm("MARIO ROSSI", "2"), "KDO Power", "p2",
                                               "2026-06-01", 0))
  {
    PaddedFormFits("JUAN ACOSTA", "1");
    PaddedFormFits("MARIO ROSSI", "2");
    NumeralDigits("1001");
    PaddedLicencesCollide(PaddedForm("JUAN ACOSTA", "1"), PaddedForm("MARIO ROSSI", "2"), "1001",
                          "KDO Power", "p1", "p2", "2026-06-01", 0);
  }

  /** A stored name `Trim(ToUpper(s))` of an unpadded name with a capital initial keeps that
      initial once upper-cased again. */
  lemma NormalisedInitial(s: string)
    requires s != [] && 'A' <= s[0] <= 'Z' && !IsWhitespace(s[|s| - 1])
    ensures ToUpper(Trim(ToUpper(s))) != [] && ToUpper(Trim(ToUpper(s)))[0] == s[0]
  {
    UpperOfNormalisedName(s);
    TrimNoOp(s);
    UpperKeepsCapitalInitial(s);
  }

  /** The form with its medical licence and kart number trimmed, as the corrected
      submission looks it up and stores it. */
  function Normalised(f: RegForm): (r: RegForm)
    ensures r.medicalLicense == Trim(f.medicalLicense) && r.number == Trim(f.number)
    ensures r.(medicalLicense := f.medicalLicense, number := f.number) == f
    ensures Trim(r.medicalLicense) == r.medicalLicense && Trim(r.number) == r.number
  {
    TrimIdempotent(f.medicalLicense);
    TrimIdempotent(f.number);
    f.(medicalLicense := Trim(f.medicalLicense), number := Trim(f.number))
  }

  /** The submission as evidently intended: the record is looked up by the trimmed kart
      number, the licence and number are stored trimmed, and a form whose (number, category)
      record belongs to a pilot of another name is refused (`None`) instead of overwriting
      that pilot's licences. */
  function CorrectedRegistered(ps: seq<Pilot>, f: RegForm, category: string, id: string,
                               today: string, now: int): (r: Option<seq<Pilot>>)
    ensures r.None? <==> match ExistingIndex(ps, Trim(f.number), category)
                         case Some(k) => ToUpper(ps[k].name) != ToUpper(Trim(f.name))
                         case None => false
    ensures r.Some? ==> r.value == Registered(ps, Normalised(f), category, id, today, now)
  {
    match ExistingIndex(ps, Trim(f.number), category)
    case Some(k) =>
      if ToUpper(ps[k].name) == ToUpper(Trim(f.name)) then Some(Registered(ps, Normalised(f), category, id, today, now))
      else None
    case None => Some(Registered(ps, Normalised(f), category, id, today, now))
  }

  /** Every holder of the licence has the name `n` (both upper-cased). */
  predicate HoldersNamed(ps: seq<Pilot>, u: string, n: string) {
    forall i :: 0 <= i < |ps| && HoldsLicence(ps[i], u) ==> ToUpper(ps[i].name) == n
  }

  /** Putting a record whose licence's holders all carry its name keeps the licence rule. */
  lemma PlaceKeepsAgreement(ps: seq<Pilot>, r: seq<Pilot>, k: nat, q: Pilot)
    requires LicenceHoldersAgree(ps)
    requires k <= |ps| && |r| == (if k == |ps| then |ps| + 1 else |ps|)
    requires r[k] == q && forall i :: 0 <= i < |ps| && i != k ==> r[i] == ps[i]
    requires q.medicalLicense != []
    requires HoldersNamed(ps, ToUpper(q.medicalLicense), ToUpper(q.name))
    ensures LicenceHoldersAgree(r)
  {
    var u := ToUpper(q.medicalLicense);
    forall i, j | 0 <= i < |r| && 0 <= j < |r| && HoldsLicence(r[i], ToUpper(r[j].medicalLicense))
      ensures ToUpper(r[i].name) == ToUpper(r[j].name)
    {
      if i == k && j != k {
        assert HoldsLicence(ps[j], u);
      } else if j == k && i != k {
        assert HoldsLicence(ps[i], u);
      }
    }
  }

  /** The corrected submission keeps the licence rule: any roster where holders of one
      licence share a name still has that property after a valid registration. */
  lemma CorrectedSubmitKeepsLicenceRule(ps: seq<Pilot>, f: RegForm, category: string, id: string,
                                        today: string, now: int)
    requires LicenceHoldersAgree(ps)
    requires IsRegValid(ps, f)
    ensures match CorrectedRegistered(ps, f, category, id, today, now)
            case Some(r) => LicenceHoldersAgree(r)
            case None => true
  {
    var lic := Trim(f.medicalLicense);
    var n := ToUpper(Trim(f.name));
    var g := Normalised(f);
    LicenceCheckCoversAllHolders(ps, lic, Trim(f.name));
    assert HoldersNamed(ps, ToUpper(lic), n);
    match ExistingIndex(ps, Trim(f.number), category)
    case Some(k) =>
      if ToUpper(ps[k].name) == n {
        var r := Registered(ps, g, category, id, today, now);
        assert r[k].medicalLicense == lic && r[k].name == ps[k].name;
        PlaceKeepsAgreement(ps, r, k, r[k]);
      }
    case None =>
      var r := Registered(ps, g, category, id, today, now);
      var q := r[|ps|];
      assert q.medicalLicense == lic;
      UpperOfNormalisedName(f.name);
      assert ToUpper(q.name) == n;
      PlaceKeepsAgreement(ps, r, |ps|, q);
  }

  /** The corrected submission refuses a plain-named form whose (number, category) record
      belongs to a pilot of another capital initial. */
  lemma CorrectedRefusesOtherName(ps: seq<Pilot>, f: RegForm, category: string, id: string,
                                  today: string, now: int, k: nat)
    requires ExistingIndex(ps, Trim(f.number), category) == Some(k)
    requires PlainName(f.name) && ps[k].name != []
    requires 'A' <= ps[k].name[0] <= 'Z' && 'A' <= f.name[0] <= 'Z' && ps[k].name[0] != f.name[0]
    ensures CorrectedRegistered(ps, f, category, id, today, now).None?
  {
    TrimNoOp(f.name);
    UpperKeepsCapitalInitial(ps[k].name);
    UpperKeepsCapitalInitial(f.name);
  }

  /** It accepts a plain-named form whose (number, category) record carries that very name. */
  lemma CorrectedAcceptsOwnName(ps: seq<Pilot>, f: RegForm, category: string, id: string,
                                today: string, now: int, k: nat)
    requires ExistingIndex(ps, Trim(f.number), category) == Some(k)
    requires PlainName(f.name) && ps[k].name == f.name
    ensures CorrectedRegistered(ps, f, category, id, today, now).Some?
  {
    TrimNoOp(f.name);
  }

  /** On the seed roster the corrected submission refuses the overwriting form and accepts
      JUAN ACOSTA under his own kart number 1. */
  lemma CorrectedRefusesOverwrite()
    ensures CorrectedRegistered(Seeds.InitialPilots(), OverwriteForm(), "KDO Power", "new",
                                "2026-06-01", 0).None?
    ensures CorrectedRegistered(Seeds.InitialPilots(), OverwriteForm().(number := "1"), "KDO Power",
                                "new", "2026-06-01", 0).Some?
  {
    InitialPilotsHead();
    CorrectedOnHead(Seeds.InitialPilots());
  }

  lemma CorrectedOnHead(ps: seq<Pilot>)
    requires SeedHead(ps)
    ensures CorrectedRegistered(ps, OverwriteForm(), "KDO Power", "new", "2026-06-01", 0).None?
    ensures CorrectedRegistered(ps, OverwriteForm().(number := "1"), "KDO Power", "new",
                                "2026-06-01", 0).Some?
  {
    NumeralDigits("1");
    NumeralDigits("2");
    DigitsFacts("1");
    DigitsFacts("2");
    assert ExistingIndex(ps, "2", "KDO Power") == Some(1);
    assert ExistingIndex(ps, "1", "KDO Power") == Some(0);
    CorrectedRefusesOtherName(ps, OverwriteForm(), "KDO Power", "new", "2026-06-01", 0, 1);
    CorrectedAcceptsOwnName(ps, OverwriteForm().(number := "1"), "KDO Power", "new", "2026-06-01", 0, 0);
  }

  /** The corrected submission registers a kart number once, however it is padded: a
      second submission of the same form to the roster the first one saved is accepted and
      adds no record, because both look the record up by the trimmed number. */
  lemma CorrectedResubmissionAddsNothing(ps: seq<Pilot>, f: RegForm, category: string, id1: string,
                                         id2: string, today: string, now: int)
    ensures CorrectedRegistered(ps, f, category, id1, today, now).Some? ==>
              var once := CorrectedRegistered(ps, f, category, id1, today, now).value;
              ExistingIndex(once, Trim(f.number), category).Some?
              && CorrectedRegistered(once, f, category, id2, today, now).Some?
              && |CorrectedRegistered(once, f, category, id2, today, now).value| == |once|
  {
    var g := Normalised(f);
    TrimIdempotent(f.number);
    if CorrectedRegistered(ps, f, category, id1, today, now).Some? {
      var once := Registered(ps, g, category, id1, today, now);
      SlotAfterRegistration(ps, g, category, id1, today, now);
      UpperOfNormalisedName(f.name);
    }
  }

  /** Where a registration under a number that trims to itself puts its record: the
      re-registered slot, or the appended one; a later lookup of that number finds it, under
      the old record's name or the new record's upper-cased, trimmed name. */
  lemma SlotAfterRegistration(ps: seq<Pilot>, g: RegForm, category: string, id: string,
                              today: string, now: int)
    requires Trim(g.number) == g.number
    ensures var once := Registered(ps, g, category, id, today, now);
            match ExistingIndex(ps, g.number, category)
            case Some(k) => ExistingIndex(once, g.number, category) == Some(k) && once[k].name == ps[k].name
            case None => ExistingIndex(once, g.number, category) == Some(|ps|)
                         && once[|ps|].name == Trim(ToUpper(g.name))
  {
    var once := Registered(ps, g, category, id, today, now);
    match ExistingIndex(ps, g.number, category)
    case Some(k) =>
      assert once[k].number == g.number && once[k].category == category;
      var e := ExistingIndex(once, g.number, category);
      assert e.Some? ==> !(e.value < k || e.value > k);
    case None =>
      assert once[|ps|].number == g.number && once[|ps|].category == category;
      var e := ExistingIndex(once, g.number, category);
      assert e.Some? ==> !(e.value < |ps|);
  }

  /** A numeral typed after one blank trims to the numeral. */
  lemma LeadingBlankTrims(s: string)
    requires |s| >= 2 && s[0] == ' ' && AllDigits(s[1..])
    ensures Trim(s) == s[1..]
  {
    assert s[|s| - 1] == s[1..][|s| - 2];
    TrimIsCore(s, 1, |s|);
  }

  /** JUAN ACOSTA's own form (licence 1001) with the kart number typed " 1". */
  function PaddedNumberForm(): RegForm {
    RegForm("JUAN ACOSTA", " 1", "99", "1001", "2001", "")
  }

  /** As written, the kart number is validated and stored trimmed but looked up as typed: on
      the seed roster JUAN ACOSTA's own form with number " 1" passes validation, finds no
      record numbered " 1" and appends a second KDO Power record numbered "1", so the
      roster no longer has one record per kart number and category. */
  lemma PaddedNumberDuplicatesKart()
    ensures NumbersUniquePerCategory(Seeds.InitialPilots())
    ensures IsRegValid(Seeds.InitialPilots(), PaddedNumberForm())
    ensures var r := Registered(Seeds.InitialPilots(), PaddedNumberForm(), "KDO Power", "new",
                                "2026-06-01", 0);
            |r| == |Seeds.InitialPilots()| + 1
            && r[0].number == r[|r| - 1].number == "1"
            && r[0].category == r[|r| - 1].category == "KDO Power"
            && !NumbersUniquePerCategory(r)
  {
    Seeds.InitialPilotsDistinct();
    InitialPilotsHead();
    SeedNumbersUnpadded();
    PaddedNumberOnHead(Seeds.InitialPilots());
    DuplicateOnHead(Seeds.InitialPilots());
  }

  lemma SeedNumbersUnpadded()
    ensures forall i :: 0 <= i < |Seeds.InitialPilots()| ==> Seeds.InitialPilots()[i].number != " 1"
  {
    var ps := Seeds.InitialPilots();
    assert ps[0].number == "1" && ps[1].number == "2" && ps[2].number == "8" && ps[3].number == "12";
  }

  /** The padded form's record duplicates the first record's kart number and category. */
  lemma DuplicateOnHead(ps: seq<Pilot>)
    requires SeedHead(ps)
    requires forall i :: 0 <= i < |ps| ==> ps[i].number != " 1"
    ensures var r := Registered(ps, PaddedNumberForm(), "KDO Power", "new", "2026-06-01", 0);
            |r| == |ps| + 1
            && r[0].number == r[|r| - 1].number == "1"
            && r[0].category == r[|r| - 1].category == "KDO Power"
            && !NumbersUniquePerCategory(r)
  {
    PaddedNumberOnHead(ps);
  }

  /** On a roster that starts like the seed one and has no record numbered " 1", the
      padded form passes and is appended with the number "1" of the first record. */
  lemma PaddedNumberOnHead(ps: seq<Pilot>)
    requires SeedHead(ps)
    requires forall i :: 0 <= i < |ps| ==> ps[i].number != " 1"
    ensures IsRegValid(ps, PaddedNumberForm())
    ensures var r := Registered(ps, PaddedNumberForm(), "KDO Power", "new", "2026-06-01", 0);
            |r| == |ps| + 1 && r[0] == ps[0] && r[|ps|].number == "1" && r[|ps|].category == "KDO Power"
  {
    PaddedNumberValid(ps);
    PaddedNumberTrims();
    assert ExistingIndex(ps, PaddedNumberForm().number, "KDO Power") == None;
  }

  lemma PaddedNumberValid(ps: seq<Pilot>)
    requires SeedHead(ps)
    ensures IsRegValid(ps, PaddedNumberForm())
  {
    NumeralDigits("1");
    NumeralDigits("99");
    NumeralDigits("1001");
    NumeralDigits("2001");
    PlainFormValid(ps, OverwriteForm().(number := "1"), "1001", []);
    PaddedNumberTrims();
    ValidityReadsTrimmedNumber(ps, OverwriteForm().(number := "1"), PaddedNumberForm());
  }

  /** Validation sees the kart number only trimmed. */
  lemma ValidityReadsTrimmedNumber(ps: seq<Pilot>, f: RegForm, g: RegForm)
    requires g == f.(number := g.number) && Trim(g.number) == Trim(f.number)
    ensures IsRegValid(ps, g) == IsRegValid(ps, f)
  {
  }

  lemma PaddedNumberTrims()
    ensures Trim(PaddedNumberForm().number) == "1" && AllDigits("1")
  {
    NumeralDigits("1");
    assert PaddedNumberForm().number[1..] == "1";
    LeadingBlankTrims(PaddedNumberForm().number);
  }

  /** The corrected submission re-registers JUAN ACOSTA's own record for the padded form
      instead of adding a second KDO Power kart 1. */
  lemma CorrectedReRegistersPaddedNumber()
    ensures CorrectedRegistered(Seeds.InitialPilots(), PaddedNumberForm(), "KDO Power", "new",
                                "2026-06-01", 0).Some?
    ensures |CorrectedRegistered(Seeds.InitialPilots(), PaddedNumberForm(), "KDO Power", "new",
                                 "2026-06-01", 0).value| == |Seeds.InitialPilots()|
  {
    InitialPilotsHead();
    CorrectedPaddedOnHead(Seeds.InitialPilots());
  }

  lemma CorrectedPaddedOnHead(ps: seq<Pilot>)
    requires SeedHead(ps)
    ensures CorrectedRegistered(ps, PaddedNumberForm(), "KDO Power", "new", "2026-06-01", 0).Some?
    ensures |CorrectedRegistered(ps, PaddedNumberForm(), "KDO Power", "new", "2026-06-01", 0).value| == |ps|
  {
    PaddedNumberTrims();
    assert ExistingIndex(ps, "1", "KDO Power") == Some(0);
    TrimNoOp(PaddedNumberForm().name);
  }

  // ---------------------------------------------------------------- licence scan

  /** The fields the licence scan may read off a photo; an empty text is a field not read. */
  datatype LicenceData = LicenceData(name: string, medicalLicense: string, sportsLicense: string,
                                     number: string)

  /** `captureAndScan` once the scan has returned: a null result changes nothing; otherwise
      each field read off the licence replaces the form's, unread fields stay as they were,
      and the errors are cleared. */
  function ApplyScan(page: Page, data: Option<LicenceData>): (r: Page)
    ensures data.None? ==> r == page
    ensures data.Some? ==> r == page.(form := r.form, errors := NoRegErrors)
    ensures data.Some? ==> r.form.ranking == page.form.ranking
                           && r.form.transponderId == page.form.transponderId
    ensures data.Some? && data.value.name != "" ==> r.form.name == data.value.name
    ensures data.Some? && data.value.name == "" ==> r.form.name == page.form.name
    ensures data.Some? && data.value.medicalLicense != "" ==>
              r.form.medicalLicense == data.value.medicalLicense
    ensures data.Some? && data.value.medicalLicense == "" ==>
              r.form.medicalLicense == page.form.medicalLicense
    ensures data.Some? && data.value.sportsLicense != "" ==>
              r.form.sportsLicense == data.value.sportsLicense
    ensures data.Some? && data.value.sportsLicense == "" ==>
              r.form.sportsLicense == page.form.sportsLicense
    ensures data.Some? && data.value.number != "" ==> r.form.number == data.value.number
    ensures data.Some? && data.value.number == "" ==> r.form.number == page.form.number
  {
    match data
    case None => page
    case Some(d) =>
      page.(form := page.form.(name := Or(d.name, page.form.name),
                               medicalLicense := Or(d.medicalLicense, page.form.medicalLicense),
                               sportsLicense := Or(d.sportsLicense, page.form.sportsLicense),
                               number := Or(d.number, page.form.number)),
            errors := NoRegErrors)
  }

  /** A failed scan (the call threw) only raises an alert: the page is unchanged. */
  function ScanResult(page: Page, outcome: AiRetry.Outcome<Option<LicenceData>>): (r: Page)
    ensures outcome.Thrown? ==> r == page
    ensures outcome.Success? ==> r == ApplyScan(page, outcome.value)
  {
    match outcome
    case Success(d) => ApplyScan(page, d)
    case Thrown(_) => page
  }

  /** Applying the same scan twice is applying it once, and a scan that read nothing only
      clears the errors. */
  lemma ScanIdempotent(page: Page, data: Option<LicenceData>)
    ensures ApplyScan(ApplyScan(page, data), data) == ApplyScan(page, data)
    ensures ApplyScan(page, Some(LicenceData("", "", "", ""))) == page.(errors := NoRegErrors)
  {
  }
}
