/** The public regulations page: the category filter and the download of a document. */
module Reglamentos {
  import opened Wrappers
  import opened Types
  import opened Text
  import opened Seqs
  import AiRetry

  /** The filter bar's value: 'Todos' or one category. */
  datatype RegFilter = Todos | Only(category: RegulationCategory)

  function FilterName(f: RegFilter): string {
    match f
    case Todos => "Todos"
    case Only(c) => c.Label()
  }

  /** `filters`: 'Todos' and then the five categories. */
  function FilterOptions(): (r: seq<RegFilter>)
    ensures |r| == 6 && r[0] == Todos
  {
    [Todos, Only(Tecnico), Only(Deportivo), Only(Calendario), Only(Anexo), Only(Circular)]
  }

  /** Every filter value is offered exactly once, under the names the page shows. */
  lemma FilterOptionsComplete(f: RegFilter)
    ensures f in FilterOptions()
    ensures forall i, j :: 0 <= i < j < 6 ==> FilterOptions()[i] != FilterOptions()[j]
    ensures forall i :: 1 <= i < 6 ==> FilterName(FilterOptions()[i]) == RegulationCategoryLabels[i - 1]
  {
    if f.Only? {
      match f.category
      case Tecnico => assert FilterOptions()[1] == f;
      case Deportivo => assert FilterOptions()[2] == f;
      case Calendario => assert FilterOptions()[3] == f;
      case Anexo => assert FilterOptions()[4] == f;
      case Circular => assert FilterOptions()[5] == f;
    }
  }

  function OfCategory(c: RegulationCategory): Regulation -> bool {
    (r: Regulation) => r.category == c
  }

  /** `filteredRegs`. */
  function FilteredRegs(regs: seq<Regulation>, f: RegFilter): seq<Regulation> {
    match f
    case Todos => regs
    case Only(c) => Filter(regs, OfCategory(c))
  }

  /** 'Todos' lists every regulation; a category lists exactly its own, in stored order. */
  lemma FilterShowsCategory(regs: seq<Regulation>, f: RegFilter)
    ensures f == Todos ==> FilteredRegs(regs, f) == regs
    ensures f.Only? ==> forall r :: r in FilteredRegs(regs, f) <==> r in regs && r.category == f.category
    ensures IsSubsequence(FilteredRegs(regs, f), regs)
  {
    if f == Todos {
      PrefixSubsequence(regs, regs);
    } else {
      forall r ensures OfCategory(f.category)(r) == (r.category == f.category) {
      }
    }
  }

  /** The link `handleDownload` clicks: the stored file and its name. */
  datatype Download = Download(href: string, filename: string)

  /** The download name: the title with each run of white space turned into one `_`, then
      `_v`, the version and `.pdf`. */
  function DownloadName(title: string, version: string): (r: string)
    ensures |r| >= 4 && r[|r| - 4..] == ".pdf"
    ensures r == ReplaceWhitespaceRuns(title, "_") + "_v" + version + ".pdf"
  {
    var r := ReplaceWhitespaceRuns(title, "_") + "_v" + version + ".pdf";
    assert r[|r| - 4..] == ".pdf";
    r
  }

  /** `handleDownload`: nothing for a regulation without a file. */
  function DownloadOf(reg: Regulation): (d: Option<Download>)
    ensures d.None? <==> reg.fileData == ""
    ensures d.Some? ==> d.value.href == reg.fileData
    ensures d.Some? ==> d.value.filename == DownloadName(reg.title, reg.version)
  {
    if reg.fileData == "" then None else Some(Download(reg.fileData, DownloadName(reg.title, reg.version)))
  }

  /** A title of three words separated by single blanks: each blank becomes `_`. */
  lemma DownloadNameExample(w1: string, w2: string, w3: string)
    requires w1 == "Reglamento" && w2 == "T\U{E9}cnico" && w3 == "2024"
    ensures DownloadName(w1 + " " + w2 + " " + w3, "2") == "Reglamento_T\U{E9}cnico_2024_v2.pdf"
  {
    ExampleWordsPlain(w1, w2, w3);
    ThreeWords(w1, w2, w3);
    var t := ReplaceWhitespaceRuns(w1 + " " + w2 + " " + w3, "_");
    assert DownloadName(w1 + " " + w2 + " " + w3, "2") == t + "_v" + "2" + ".pdf";
  }

  lemma ExampleWordsPlain(w1: string, w2: string, w3: string)
    requires w1 == "Reglamento" && w2 == "T\U{E9}cnico" && w3 == "2024"
    ensures w1 != [] && w2 != [] && w3 != []
    ensures forall i :: 0 <= i < |w1| ==> !IsWhitespace(w1[i])
    ensures forall i :: 0 <= i < |w2| ==> !IsWhitespace(w2[i])
    ensures forall i :: 0 <= i < |w3| ==> !IsWhitespace(w3[i])
    ensures w1 + "_" + w2 + "_" + w3 + "_v" + "2" + ".pdf" == "Reglamento_T\U{E9}cnico_2024_v2.pdf"
  {
  }

  /** Three words joined by single blanks are joined by `_` instead. */
  lemma ThreeWords(w1: string, w2: string, w3: string)
    requires w1 != [] && w2 != [] && w3 != []
    requires forall i :: 0 <= i < |w1| ==> !IsWhitespace(w1[i])
    requires forall i :: 0 <= i < |w2| ==> !IsWhitespace(w2[i])
    requires forall i :: 0 <= i < |w3| ==> !IsWhitespace(w3[i])
    ensures ReplaceWhitespaceRuns(w1 + " " + w2 + " " + w3, "_") == w1 + "_" + w2 + "_" + w3
  {
    var t := w2 + " " + w3;
    assert AllWhitespace(" ");
    assert !IsWhitespace(w1[|w1| - 1]) && !IsWhitespace(w2[|w2| - 1]) && !IsWhitespace(w3[0]);
    WordKept(w2);
    WordKept(w3);
    ReplaceRunSplits(w2, " ", w3, "_");
    assert ReplaceWhitespaceRuns(t, "_") == w2 + "_" + w3;
    assert t[0] == w2[0];
    WordKept(w1);
    ReplaceRunSplits(w1, " ", t, "_");
    Regroup(w1, " ", w2, " ", w3);
    Regroup(w1, "_", w2, "_", w3);
  }

  lemma Regroup(a: string, b: string, c: string, d: string, e: string)
    ensures a + b + c + d + e == a + b + (c + d + e)
  {
  }

  lemma WordKept(w: string)
    requires forall i :: 0 <= i < |w| ==> !IsWhitespace(w[i])
    ensures ReplaceWhitespaceRuns(w, "_") == w
  {
  }

  /** A title and version without white space give a name without white space; a title without
      white space is kept as it is. */
  lemma DownloadNameShape(title: string, version: string)
    ensures (forall i :: 0 <= i < |version| ==> !IsWhitespace(version[i])) ==>
              forall i :: 0 <= i < |DownloadName(title, version)| ==> !IsWhitespace(DownloadName(title, version)[i])
    ensures (forall i :: 0 <= i < |title| ==> !IsWhitespace(title[i])) ==>
              DownloadName(title, version) == title + "_v" + version + ".pdf"
  {
    var t := ReplaceWhitespaceRuns(title, "_");
    assert forall i :: 0 <= i < |"_"| ==> !IsWhitespace("_"[i]);
    var r := DownloadName(title, version);
    assert r == t + "_v" + version + ".pdf";
    forall i | 0 <= i < |r| && (forall k :: 0 <= k < |version| ==> !IsWhitespace(version[k]))
      ensures !IsWhitespace(r[i])
    {
      if i < |t| {
        assert r[i] == t[i];
      } else if i < |t| + 2 {
        assert r[i] == "_v"[i - |t|];
      } else if i < |t| + 2 + |version| {
        assert r[i] == version[i - |t| - 2];
      } else {
        assert r[i] == ".pdf"[i - |t| - 2 - |version|];
      }
    }
  }

  /** `handleAiSearch`: a query that is blank once trimmed asks nothing; any other query shows
      the assistant's reply. The reply never throws (the wrapper has its own fallback), so the
      page's own error text is never shown. */
  function AiSearch(query: string, online: nat -> bool, outcome: nat -> AiRetry.Outcome<string>)
    : (r: Option<string>)
    ensures r.None? <==> Trim(query) == ""
    ensures r.Some? ==> r.value == AiRetry.TextReply(AiRetry.RegulationSearch, online, outcome)
  {
    if Trim(query) == "" then None
    else Some(AiRetry.TextReply(AiRetry.RegulationSearch, online, outcome))
  }

  /** Offline, a real query is answered with the wrapper's offline notice. */
  lemma OfflineSearch(query: string, online: nat -> bool, outcome: nat -> AiRetry.Outcome<string>)
    requires Trim(query) != "" && !online(0)
    ensures AiSearch(query, online, outcome) == Some(AiRetry.OfflineText(AiRetry.RegulationSearch))
  {
  }
}
