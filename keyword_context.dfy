/** `keyword_context_search` (src/rag/context_selector.py, and its copy in
    main.py): every source whose text contains the keyword contributes one chunk,
    cut to a per-source cap, while the running length stays within the budget. */
module KeywordContext {
  import opened Text
  import opened Wrappers
  import opened Resume
  import opened Projects
  import opened Context

  const LinkupKeywordHeader: string := "PROJECT (LinkUp)"
  const RagHeader: string := "PROJECTS (project.json)"
  const ResumeHeader: string := "RESUME"

  /** `kw_lower`: the keyword lower-cased and stripped. */
  function KwLower(keyword: string): string {
    Strip(Lower(keyword))
  }

  /** A text `add_chunk` accepts: non-empty and containing the keyword, in any
      case. */
  predicate Matches(kw: string, text: string) {
    text != "" && Contains(Lower(text), kw)
  }

  /** What one `add_chunk(header, text, cap)` call offers: the text cut to `cap`
      under its header, or nothing when the text does not match. */
  function KeywordChunk(kw: string, header: string, text: string, cap: nat): (r: seq<string>)
    ensures |r| <= 1
    ensures r != [] <==> Matches(kw, text)
    ensures r != [] ==> |r[0]| == |header| + 10 + (if |text| <= cap then |text| else cap)
  {
    if Matches(kw, text) then [Chunk(header, Take(text, cap))] else []
  }

  /** The résumé-section chunks, in dictionary order, each under
      `RESUME_<NAME>` and cut to 1200 characters. */
  function SectionChunks(kw: string, sections: Sections, order: seq<Topic>): (r: seq<string>)
    ensures |r| <= |order|
    ensures AllChunks(r)
    decreases |order|
  {
    if order == [] then []
    else
      var t := order[|order| - 1];
      var init := SectionChunks(kw, sections, order[..|order| - 1]);
      var c := KeywordChunk(kw, "RESUME_" + TopicName(t), Get(sections, t), 1200);
      AllChunksAppend(init, c);
      init + c
  }

  /** The web chunks, in list order, each under its source and cut to 600
      characters. */
  function WebChunks(kw: string, web: seq<(string, string)>): (r: seq<string>)
    ensures |r| <= |web|
    ensures AllChunks(r)
    decreases |web|
  {
    if web == [] then []
    else
      var w := web[|web| - 1];
      var init := WebChunks(kw, web[..|web| - 1]);
      var c := KeywordChunk(kw, w.0, w.1, 600);
      AllChunksAppend(init, c);
      init + c
  }

  /** Every candidate, in the order the builder offers them: the project.json
      LinkUp text, all of project.json, the résumé sections, the whole résumé, the
      web texts. */
  function KeywordCandidates(kw: string, sections: Sections, fullResume: string,
                             data: Option<ProjectData>, web: seq<(string, string)>): (r: seq<string>)
    ensures |r| <= 9 + |web|
    ensures AllChunks(r)
  {
    var c1 := KeywordChunk(kw, LinkupKeywordHeader, LinkupText(data), 1200);
    var c2 := KeywordChunk(kw, RagHeader, RagText(data), 2500);
    var c3 := SectionChunks(kw, sections, DictOrder);
    var c4 := KeywordChunk(kw, ResumeHeader, fullResume, 1500);
    var c5 := WebChunks(kw, web);
    AllChunksAppend(c1, c2);
    AllChunksAppend(c1 + c2, c3);
    AllChunksAppend(c1 + c2 + c3, c4);
    AllChunksAppend(c1 + c2 + c3 + c4, c5);
    c1 + c2 + c3 + c4 + c5
  }

  /** The chunks kept: the candidates, first come first served, while they fit. */
  function KeywordParts(budget: int, keyword: string, sections: Sections, fullResume: string,
                        data: Option<ProjectData>, web: seq<(string, string)>): seq<string>
  {
    Fit(KeywordCandidates(KwLower(keyword), sections, fullResume, data, web), [], budget)
  }

  /** `add_chunk`. The early return for a full budget never changes the outcome:
      a chunk is at least ten characters long, so it could not fit then. */
  method AddChunk(kw: string, parts: seq<string>, currentLength: int, header: string, text: string,
                  cap: nat, budget: int)
    returns (parts': seq<string>, currentLength': int)
    requires currentLength == TotalLen(parts)
    ensures parts' == Fit(KeywordChunk(kw, header, text, cap), parts, budget)
    ensures currentLength' == TotalLen(parts')
  {
    parts', currentLength' := parts, currentLength;
    if text == "" || currentLength >= budget {
      if Matches(kw, text) {
        var chunk := Chunk(header, Take(text, cap));
        assert KeywordChunk(kw, header, text, cap) == [chunk];
        FitOne(chunk, parts, budget);
      }
      return;
    }
    if !Contains(Lower(text), kw) {
      return;
    }
    var chunk := Chunk(header, if |text| > cap then text[..cap] else text);
    assert text[..|text|] == text;
    assert KeywordChunk(kw, header, text, cap) == [chunk];
    parts', currentLength' := AddIfFits(parts, currentLength, chunk, budget);
  }

  /** The loop over `sections.items()`. */
  method AddSectionChunks(kw: string, parts: seq<string>, currentLength: int, sections: Sections,
                          budget: int)
    returns (parts': seq<string>, currentLength': int)
    requires currentLength == TotalLen(parts)
    ensures parts' == Fit(SectionChunks(kw, sections, DictOrder), parts, budget)
    ensures currentLength' == TotalLen(parts')
  {
    parts', currentLength' := parts, currentLength;
    var i := 0;
    while i < |DictOrder|
      invariant 0 <= i <= |DictOrder|
      invariant parts' == Fit(SectionChunks(kw, sections, DictOrder[..i]), parts, budget)
      invariant currentLength' == TotalLen(parts')
    {
      var t := DictOrder[i];
      SectionChunksSnoc(kw, sections, DictOrder, i);
      FitAppend(SectionChunks(kw, sections, DictOrder[..i]),
                KeywordChunk(kw, "RESUME_" + TopicName(t), Get(sections, t), 1200), parts, budget);
      parts', currentLength' := AddMatching(kw, parts', currentLength', "RESUME_" + TopicName(t),
                                            Get(sections, t), 1200, budget);
      i := i + 1;
    }
    assert DictOrder[..i] == DictOrder;
  }

  /** The `if content and kw in content.lower()` guard of both loops around
      `add_chunk`. */
  method AddMatching(kw: string, parts: seq<string>, currentLength: int, header: string, content: string,
                     cap: nat, budget: int)
    returns (parts': seq<string>, currentLength': int)
    requires currentLength == TotalLen(parts)
    ensures parts' == Fit(KeywordChunk(kw, header, content, cap), parts, budget)
    ensures currentLength' == TotalLen(parts')
  {
    if content != "" && Contains(Lower(content), kw) {
      parts', currentLength' := AddChunk(kw, parts, currentLength, header, content, cap, budget);
    } else {
      parts', currentLength' := parts, currentLength;
      assert KeywordChunk(kw, header, content, cap) == [];
      FitEmptyCandidates(parts, budget);
    }
  }

  lemma FitEmptyCandidates(parts: seq<string>, budget: int)
    ensures Fit([], parts, budget) == parts
  {
    var r := Fit([], parts, budget);
    assert r == r[..|parts|];
  }

  lemma SectionChunksSnoc(kw: string, sections: Sections, order: seq<Topic>, i: nat)
    requires i < |order|
    ensures SectionChunks(kw, sections, order[..i + 1])
         == SectionChunks(kw, sections, order[..i])
            + KeywordChunk(kw, "RESUME_" + TopicName(order[i]), Get(sections, order[i]), 1200)
  {
    assert order[..i + 1][..i] == order[..i];
  }

  lemma WebChunksSnoc(kw: string, web: seq<(string, string)>, i: nat)
    requires i < |web|
    ensures WebChunks(kw, web[..i + 1]) == WebChunks(kw, web[..i]) + KeywordChunk(kw, web[i].0, web[i].1, 600)
  {
    assert web[..i + 1][..i] == web[..i];
  }

  /** The loop over the web texts. */
  method AddWebChunks(kw: string, parts: seq<string>, currentLength: int, web: seq<(string, string)>,
                      budget: int)
    returns (parts': seq<string>, currentLength': int)
    requires currentLength == TotalLen(parts)
    ensures parts' == Fit(WebChunks(kw, web), parts, budget)
    ensures currentLength' == TotalLen(parts')
  {
    parts', currentLength' := parts, currentLength;
    var i := 0;
    while i < |web|
      invariant 0 <= i <= |web|
      invariant parts' == Fit(WebChunks(kw, web[..i]), parts, budget)
      invariant currentLength' == TotalLen(parts')
    {
      var (source, content) := web[i];
      WebChunksSnoc(kw, web, i);
      FitAppend(WebChunks(kw, web[..i]), KeywordChunk(kw, source, content, 600), parts, budget);
      parts', currentLength' := AddMatching(kw, parts', currentLength', source, content, 600, budget);
      i := i + 1;
    }
    assert web[..i] == web;
  }

  /** `keyword_context_search` */
  method KeywordContextSearch(budget: int, keyword: string, sections: Sections, fullResume: string,
                              data: Option<ProjectData>, web: seq<(string, string)>)
    returns (context: string)
    ensures context == Join("\n", KeywordParts(budget, keyword, sections, fullResume, data, web))
  {
    var kw := KwLower(keyword);
    var parts: seq<string> := [];
    var currentLength := 0;
    ghost var c1 := KeywordChunk(kw, LinkupKeywordHeader, LinkupText(data), 1200);
    ghost var c2 := KeywordChunk(kw, RagHeader, RagText(data), 2500);
    ghost var c3 := SectionChunks(kw, sections, DictOrder);
    ghost var c4 := KeywordChunk(kw, ResumeHeader, fullResume, 1500);
    ghost var c5 := WebChunks(kw, web);
    var lt := LinkupText(data);
    if lt != "" && Contains(Lower(lt), kw) {
      parts, currentLength := AddChunk(kw, parts, currentLength, LinkupKeywordHeader, lt, 1200, budget);
    }
    assert parts == Fit(c1, [], budget);
    ghost var p1 := parts;
    parts, currentLength := AddChunk(kw, parts, currentLength, RagHeader, RagText(data), 2500, budget);
    FitAppend(c1, c2, [], budget);
    parts, currentLength := AddSectionChunks(kw, parts, currentLength, sections, budget);
    FitAppend(c1 + c2, c3, [], budget);
    if fullResume != "" && Contains(Lower(fullResume), kw) {
      parts, currentLength := AddChunk(kw, parts, currentLength, ResumeHeader, fullResume, 1500, budget);
    }
    FitAppend(c1 + c2 + c3, c4, [], budget);
    parts, currentLength := AddWebChunks(kw, parts, currentLength, web, budget);
    FitAppend(c1 + c2 + c3 + c4, c5, [], budget);
    assert c1 + c2 + c3 + c4 + c5 == KeywordCandidates(kw, sections, fullResume, data, web);
    context := if parts != [] then Join("\n", parts) else "";
  }

  // ---------------------------------------------------------------- properties

  /** No source text the builder looks at contains the keyword. */
  ghost predicate NothingMatches(kw: string, sections: Sections, fullResume: string,
                           data: Option<ProjectData>, web: seq<(string, string)>) {
    !Matches(kw, LinkupText(data)) && !Matches(kw, RagText(data))
    && SectionsMiss(kw, sections, DictOrder)
    && !Matches(kw, fullResume)
    && WebMisses(kw, web)
  }

  /** No section in `order` contains the keyword. */
  ghost predicate SectionsMiss(kw: string, sections: Sections, order: seq<Topic>) {
    forall k :: 0 <= k < |order| ==> !Matches(kw, Get(sections, order[k]))
  }

  lemma SectionsMissSnoc(kw: string, sections: Sections, order: seq<Topic>)
    requires order != []
    ensures SectionsMiss(kw, sections, order)
        <==> SectionsMiss(kw, sections, order[..|order| - 1]) && !Matches(kw, Get(sections, order[|order| - 1]))
  {
    var init := order[..|order| - 1];
    assert forall k :: 0 <= k < |init| ==> init[k] == order[k];
  }

  lemma {:induction false} SectionChunksEmpty(kw: string, sections: Sections, order: seq<Topic>)
    ensures SectionChunks(kw, sections, order) == [] <==> SectionsMiss(kw, sections, order)
    decreases |order|
  {
    if order != [] {
      var init := order[..|order| - 1];
      var last := order[|order| - 1];
      var c := KeywordChunk(kw, "RESUME_" + TopicName(last), Get(sections, last), 1200);
      assert SectionChunks(kw, sections, order) == SectionChunks(kw, sections, init) + c;
      assert c == [] <==> !Matches(kw, Get(sections, last));
      SectionChunksEmpty(kw, sections, init);
      SectionsMissSnoc(kw, sections, order);
    }
  }

  /** No web text contains the keyword. */
  ghost predicate WebMisses(kw: string, web: seq<(string, string)>) {
    forall k :: 0 <= k < |web| ==> !Matches(kw, web[k].1)
  }

  lemma WebMissesSnoc(kw: string, web: seq<(string, string)>)
    requires web != []
    ensures WebMisses(kw, web) <==> WebMisses(kw, web[..|web| - 1]) && !Matches(kw, web[|web| - 1].1)
  {
    var init := web[..|web| - 1];
    assert forall k :: 0 <= k < |init| ==> init[k] == web[k];
  }

  lemma {:induction false} WebChunksEmpty(kw: string, web: seq<(string, string)>)
    ensures WebChunks(kw, web) == [] <==> WebMisses(kw, web)
    decreases |web|
  {
    if web != [] {
      var init := web[..|web| - 1];
      var last := web[|web| - 1];
      var c := KeywordChunk(kw, last.0, last.1, 600);
      assert WebChunks(kw, web) == WebChunks(kw, init) + c;
      assert c == [] <==> !Matches(kw, last.1);
      WebChunksEmpty(kw, init);
      WebMissesSnoc(kw, web);
    }
  }

  /** There is something to offer exactly when some source contains the
      keyword. */
  lemma KeywordCandidatesEmpty(kw: string, sections: Sections, fullResume: string,
                               data: Option<ProjectData>, web: seq<(string, string)>)
    ensures KeywordCandidates(kw, sections, fullResume, data, web) == [] <==>
      NothingMatches(kw, sections, fullResume, data, web)
  {
    SectionChunksEmpty(kw, sections, DictOrder);
    WebChunksEmpty(kw, web);
  }

  /** The keyword context is empty exactly when no candidate fits the budget on
      its own; in particular it is empty when no source contains the keyword, and
      the selector then falls through to the general context. */
  lemma KeywordContextEmpty(budget: int, keyword: string, sections: Sections, fullResume: string,
                            data: Option<ProjectData>, web: seq<(string, string)>)
    ensures var cands := KeywordCandidates(KwLower(keyword), sections, fullResume, data, web);
      var context := Join("\n", KeywordParts(budget, keyword, sections, fullResume, data, web));
      (context == "" <==> forall k :: 0 <= k < |cands| ==> |cands[k]| > budget)
      && (NothingMatches(KwLower(keyword), sections, fullResume, data, web) ==> context == "")
  {
    var kw := KwLower(keyword);
    var cands := KeywordCandidates(kw, sections, fullResume, data, web);
    assert forall k :: 0 <= k < |cands| ==> cands[k] != "";
    JoinFitEmpty(cands, budget);
    KeywordCandidatesEmpty(kw, sections, fullResume, data, web);
  }

  /** A matching project.json LinkUp text comes first whenever its chunk fits. */
  lemma KeywordPrefersLinkup(budget: int, keyword: string, sections: Sections, fullResume: string,
                             data: Option<ProjectData>, web: seq<(string, string)>)
    requires Matches(KwLower(keyword), LinkupText(data))
    requires |Chunk(LinkupKeywordHeader, Take(LinkupText(data), 1200))| <= budget
    ensures var parts := KeywordParts(budget, keyword, sections, fullResume, data, web);
      parts != [] && parts[0] == Chunk(LinkupKeywordHeader, Take(LinkupText(data), 1200))
  {
    var kw := KwLower(keyword);
    var a := KeywordChunk(kw, LinkupKeywordHeader, LinkupText(data), 1200);
    var ab := a + KeywordChunk(kw, RagHeader, RagText(data), 2500);
    var abc := ab + SectionChunks(kw, sections, DictOrder);
    var abcd := abc + KeywordChunk(kw, ResumeHeader, fullResume, 1500);
    var chunk := Chunk(LinkupKeywordHeader, Take(LinkupText(data), 1200));
    assert a == [chunk];
    FitOne(chunk, [], budget);
    assert Fit(a, [], budget) == [chunk];
    FitAppend(a, KeywordChunk(kw, RagHeader, RagText(data), 2500), [], budget);
    assert Fit(ab, [], budget)[0] == chunk;
    FitAppend(ab, SectionChunks(kw, sections, DictOrder), [], budget);
    assert Fit(abc, [], budget)[0] == chunk;
    FitAppend(abc, KeywordChunk(kw, ResumeHeader, fullResume, 1500), [], budget);
    assert Fit(abcd, [], budget)[0] == chunk;
    FitAppend(abcd, WebChunks(kw, web), [], budget);
  }
}
