/** `_build_general_context` (src/rag/context_selector.py) and the general tail
    of `select_relevant_context` in main.py, with `_rank_context_sources`. The
    builder runs in phases over one running state: an optional LinkUp lead, the
    relevant résumé sections (the last one possibly cut), a fallback over fixed
    sections, the whole résumé as a last resort, web texts, and SearchAPI text. */
module GeneralContext {
  import opened Text
  import opened Wrappers
  import opened Resume
  import opened Classifier
  import opened Projects
  import opened Variants
  import opened Context

  /** The builder's running state: `context_parts`, `current_length` and
      `added_sections`. */
  datatype Build = Build(parts: seq<string>, cur: int, added: seq<Topic>)

  /** The sections tried, in this order, when no relevant section was added. */
  const FallbackOrder: seq<Topic> := [Summary, Skills, Experience, Projects, Education, Other]

  const ResumeContentHeader: string := "RESUME CONTENT"
  const SearchHeader: string := "Web Search"
  const SearchApiSource: string := "SEARCHAPI"

  // ---------------------------------------------------------------- the lead

  /** `sum(len(v) for v in sections.values() if v)` */
  function SizeOf(sections: Sections, order: seq<Topic>): nat
    decreases |order|
  {
    if order == [] then 0 else |Get(sections, order[0])| + SizeOf(sections, order[1..])
  }

  /** `[k for k, v in sections.items() if v.strip()]` */
  function NonBlankTopics(sections: Sections, order: seq<Topic>): (r: seq<Topic>)
    ensures forall t :: t in r <==> t in order && Strip(Get(sections, t)) != ""
    decreases |order|
  {
    if order == [] then []
    else (if Strip(Get(sections, order[0])) != "" then [order[0]] else []) + NonBlankTopics(sections, order[1..])
  }

  /** `[s for s in names if s != 'PROJECTS']` */
  function WithoutProjects(names: seq<Topic>): (r: seq<Topic>)
    ensures forall t :: t in r <==> t in names && t != Projects
    decreases |names|
  {
    if names == [] then []
    else (if names[0] != Projects then [names[0]] else []) + WithoutProjects(names[1..])
  }

  /** The project.json LinkUp text as the first chunk, for project questions,
      when it fits the budget on its own. */
  function LeadTop(isProject: bool, data: Option<ProjectData>, budget: int): (r: seq<string>)
    ensures r == [] || (|r| == 1 && TotalLen(r) == |r[0]| <= budget)
  {
    var top := Chunk(LinkupDataHeader, LinkupText(data));
    if isProject && LinkupText(data) != "" && |top| <= budget then [top] else []
  }

  /** The names the section loop visits before the LinkUp block: every
      non-blank section for a résumé under 1000 characters, else the classified
      ones. */
  function LeadNames(sections: Sections, classified: seq<Topic>): seq<Topic> {
    if SizeOf(sections, DictOrder) < 1000 then NonBlankTopics(sections, DictOrder) else classified
  }

  /** The LinkUp block of the résumé's PROJECTS (or OTHER) section, capped at
      2000 characters, or 1500 in main.py. */
  function GeneralBlock(v: Variant, sections: Sections): string {
    ExtractLinkupFromProjects(ProjectsOrOther(sections), BlockCap(v, true))
  }

  /** For project questions that are not keyword questions, the LinkUp `block`
      of the résumé is added after `parts0` when it fits, and then takes the
      place of the PROJECTS section among the names. */
  function LeadBlock(parts0: seq<string>, names0: seq<Topic>, isProject: bool, intent: Intent,
                     block: string, budget: int): (r: (Build, seq<Topic>))
    requires parts0 == [] || TotalLen(parts0) <= budget
    ensures r.0.added == [] && r.0.cur == TotalLen(r.0.parts) && |parts0| <= |r.0.parts| <= |parts0| + 1
    ensures r.0.parts == [] || r.0.cur <= budget
    ensures r.0.parts[..|parts0|] == parts0
  {
    var chunk := Chunk(LinkupResumeHeader, block);
    if isProject && intent != Keyword && block != "" && TotalLen(parts0) + |chunk| <= budget then
      TotalLenAppend(parts0, [chunk]);
      (Build(parts0 + [chunk], TotalLen(parts0) + |chunk|, []), WithoutProjects(names0))
    else (Build(parts0, TotalLen(parts0), []), names0)
  }

  /** `LeadBlock` for a project question that is not a keyword question. */
  lemma LeadBlockOf(parts0: seq<string>, names0: seq<Topic>, intent: Intent, block: string, budget: int)
    requires parts0 == [] || TotalLen(parts0) <= budget
    requires intent != Keyword
    ensures var chunk := Chunk(LinkupResumeHeader, block);
      LeadBlock(parts0, names0, true, intent, block, budget)
      == if block != "" && TotalLen(parts0) + |chunk| <= budget
         then (Build(parts0 + [chunk], TotalLen(parts0) + |chunk|, []), WithoutProjects(names0))
         else (Build(parts0, TotalLen(parts0), []), names0)
  {
  }

  /** The state and the section names after the lead. */
  function Lead(budget: int, sections: Sections, isProject: bool, classified: seq<Topic>,
                data: Option<ProjectData>, intent: Intent, block: string): (r: (Build, seq<Topic>))
  {
    LeadBlock(LeadTop(isProject, data, budget), LeadNames(sections, classified), isProject, intent, block, budget)
  }

  // ---------------------------------------------------------------- sections

  /** The cut chunk of a section that does not fit: its text cut to what is left
      after the header and ten more characters, followed by "...". Because the
      whole text did not fit, the cut keeps exactly that many characters, and
      the chunk is five characters shorter than what was left of the budget. */
  function Truncated(name: Topic, content: string, cur: int, budget: int): (r: string)
    requires cur + |TopicName(name)| + 10 + |content| > budget
    requires budget - cur - (|TopicName(name)| + 8) - 10 > 0
    ensures |r| == budget - cur - 5
  {
    Chunk(TopicName(name), Take(content, budget - cur - (|TopicName(name)| + 8) - 10) + "...")
  }

  /** The outcome of one loop step: go on with the new state, or stop there. */
  datatype Step = Continue(b: Build) | Stop(b: Build)

  /** One step of the loop over the relevant section names: a stripped
      non-empty section is added whole while it fits; the first one that does not
      fit is cut, when more than 100 characters are left for it, and then the
      budget counts as used up and the loop stops. */
  function SectionStep(sections: Sections, name: Topic, st: Build, budget: int): Step {
    SectionStepFor(name, Strip(Get(sections, name)), st, budget)
  }

  /** A section step on the section's stripped text. */
  function SectionStepFor(name: Topic, content: string, st: Build, budget: int): Step {
    if content != "" && st.cur < budget then
      var chunk := Chunk(TopicName(name), content);
      if st.cur + |chunk| <= budget then
        Continue(Build(st.parts + [chunk], st.cur + |chunk|, st.added + [name]))
      else if budget - st.cur - (|TopicName(name)| + 8) - 10 > 100 then
        Stop(Build(st.parts + [Truncated(name, content, st.cur, budget)], budget, st.added + [name]))
      else Continue(st)
    else Continue(st)
  }

  function SectionsPhase(sections: Sections, names: seq<Topic>, st: Build, budget: int): Build
    decreases |names|
  {
    if names == [] then st
    else match SectionStep(sections, names[0], st, budget)
      case Stop(b) => b
      case Continue(b) => SectionsPhase(sections, names[1..], b, budget)
  }

  /** One step of the fallback loop: like a section step, with the text first
      capped at 1500 characters; a cut needs more than 200 characters left, and
      leaves the running length as it was. */
  function FallbackStep(sections: Sections, name: Topic, st: Build, budget: int): Step {
    FallbackStepFor(name, Strip(Get(sections, name)), st, budget)
  }

  /** A fallback step on the section's stripped text. */
  function FallbackStepFor(name: Topic, content: string, st: Build, budget: int): Step {
    if content != "" && st.cur < budget then
      var chunk := Chunk(TopicName(name), Take(content, 1500));
      if st.cur + |chunk| <= budget then
        Continue(Build(st.parts + [chunk], st.cur + |chunk|, st.added + [name]))
      else if budget - st.cur - (|TopicName(name)| + 8) - 10 > 200 then
        Stop(Build(st.parts + [Truncated(name, content, st.cur, budget)], st.cur, st.added + [name]))
      else Continue(st)
    else Continue(st)
  }

  function FallbackPhase(sections: Sections, order: seq<Topic>, st: Build, budget: int): Build
    decreases |order|
  {
    if order == [] then st
    else match FallbackStep(sections, order[0], st, budget)
      case Stop(b) => b
      case Continue(b) => FallbackPhase(sections, order[1..], b, budget)
  }

  /** The fallback runs only when no section was added and less than 500
      characters are used. */
  function AfterFallback(sections: Sections, st: Build, budget: int): Build {
    if st.added == [] && st.cur < 500 then FallbackPhase(sections, FallbackOrder, st, budget) else st
  }

  /** The last resort: with no chunk at all, the start of the full résumé, at
      most 3000 characters and 100 less than the budget. The running length is
      left as it was. */
  function LastResort(fullResume: string, st: Build, budget: int): Build {
    if st.parts == [] && fullResume != "" && st.cur < budget then
      Build([Chunk(ResumeContentHeader, Take(fullResume, Min(budget - 100, 3000)))], st.cur, st.added)
    else st
  }

  // ---------------------------------------------------------------- web

  /** One entry of the ranking: source name, text, priority. */
  type Ranked = (string, string, int)

  /** The résumé entries of `_rank_context_sources`: every non-empty section in
      dictionary order, as `RESUME_<NAME>` with priority 1. */
  function SectionEntries(sections: Sections, order: seq<Topic>): (r: seq<Ranked>)
    ensures forall k :: 0 <= k < |r| ==> r[k].2 == 1
    decreases |order|
  {
    if order == [] then []
    else
      var t := order[|order| - 1];
      SectionEntries(sections, order[..|order| - 1])
      + (if Get(sections, t) != "" then [("RESUME_" + TopicName(t), Get(sections, t), 1)] else [])
  }

  /** The web entries: every item, as `WEB_<source>` with priority 2. */
  function WebEntries(web: seq<(string, string)>): (r: seq<Ranked>)
    ensures |r| == |web|
    ensures forall k :: 0 <= k < |r| ==> r[k] == ("WEB_" + web[k].0, web[k].1, 2)
    decreases |web|
  {
    if web == [] then []
    else WebEntries(web[..|web| - 1]) + [("WEB_" + web[|web| - 1].0, web[|web| - 1].1, 2)]
  }

  /** The SearchAPI entry, priority 3, when there is SearchAPI text. */
  function SearchEntry(search: string): seq<Ranked> {
    if search != "" then [(SearchApiSource, search, 3)] else []
  }

  /** `_rank_context_sources` */
  function RankedSources(sections: Sections, web: seq<(string, string)>, search: string): seq<Ranked> {
    SectionEntries(sections, DictOrder) + WebEntries(web) + SearchEntry(search)
  }

  /** One step of the web loop: a priority-2 entry, while the budget is not used
      up, adds its text cut to 50 less than what is left and at most 500
      characters, and counts the text plus 50. */
  function WebStep(e: Ranked, st: Build, budget: int): Build {
    if e.2 == 2 && st.cur < budget then
      var t := Take(e.1, Min(budget - st.cur - 50, 500));
      if t != "" then Build(st.parts + [Chunk(e.0, t)], st.cur + |t| + 50, st.added) else st
    else st
  }

  function WebPhase(ranked: seq<Ranked>, st: Build, budget: int): Build
    decreases |ranked|
  {
    if ranked == [] then st else WebPhase(ranked[1..], WebStep(ranked[0], st, budget), budget)
  }

  /** The SearchAPI tail: its text cut to 50 less than what is left and at most
      300 characters, while the budget is not used up. */
  function SearchPhase(search: string, st: Build, budget: int): seq<string> {
    if st.cur < budget && search != "" then
      var t := Take(search, Min(budget - st.cur - 50, 300));
      if t != "" then st.parts + [Chunk(SearchHeader, t)] else st.parts
    else st.parts
  }

  /** The résumé phases after the lead: the relevant sections, the fallback,
      and the last resort. */
  function ResumePhases(budget: int, sections: Sections, fullResume: string, lead: (Build, seq<Topic>)): Build {
    LastResort(fullResume, AfterFallback(sections, SectionsPhase(sections, lead.1, lead.0, budget), budget), budget)
  }

  /** The web loop runs only while the budget is not used up. */
  function WebTail(ranked: seq<Ranked>, st: Build, budget: int): Build {
    if st.cur < budget then WebPhase(ranked, st, budget) else st
  }

  /** The chunks of the general context, phase after phase. */
  function GeneralParts(v: Variant, budget: int, sections: Sections, web: seq<(string, string)>,
                        question: string, search: string, fullResume: string,
                        data: Option<ProjectData>, intent: Intent): seq<string>
  {
    var lead := Lead(budget, sections, IsProjectIntentQuestion(question), ClassifySections(question), data, intent,
                     GeneralBlock(v, sections));
    SearchPhase(search, WebTail(RankedSources(sections, web, search), ResumePhases(budget, sections, fullResume, lead), budget), budget)
  }

  // ---------------------------------------------------------------- methods

  /** `_rank_context_sources` */
  method RankContextSources(sections: Sections, web: seq<(string, string)>, search: string)
    returns (ranked: seq<Ranked>)
    ensures ranked == RankedSources(sections, web, search)
  {
    ranked := RankSections(sections);
    ranked := RankWeb(web, ranked);
    if search != "" {
      ranked := ranked + [(SearchApiSource, search, 3)];
    }
  }

  /** The résumé loop of `_rank_context_sources`: one priority-1 entry per
      non-empty section, in dictionary order. */
  method RankSections(sections: Sections) returns (ranked: seq<Ranked>)
    ensures ranked == SectionEntries(sections, DictOrder)
  {
    ranked := [];
    var i := 0;
    while i < |DictOrder|
      invariant 0 <= i <= |DictOrder|
      invariant ranked == SectionEntries(sections, DictOrder[..i])
    {
      ranked := RankSection(sections, i, ranked);
      i := i + 1;
    }
    assert DictOrder[..i] == DictOrder;
  }

  method RankSection(sections: Sections, i: nat, ranked: seq<Ranked>) returns (ranked': seq<Ranked>)
    requires i < |DictOrder| && ranked == SectionEntries(sections, DictOrder[..i])
    ensures ranked' == SectionEntries(sections, DictOrder[..i + 1])
  {
    var t := DictOrder[i];
    assert DictOrder[..i + 1][..i] == DictOrder[..i];
    ranked' := ranked;
    if Get(sections, t) != "" {
      ranked' := ranked + [("RESUME_" + TopicName(t), Get(sections, t), 1)];
    }
  }

  /** The web loop of `_rank_context_sources`: one priority-2 entry per web
      text, in order. */
  method RankWeb(web: seq<(string, string)>, ranked0: seq<Ranked>) returns (ranked: seq<Ranked>)
    ensures ranked == ranked0 + WebEntries(web)
  {
    ranked := ranked0;
    var j := 0;
    while j < |web|
      invariant 0 <= j <= |web|
      invariant ranked == ranked0 + WebEntries(web[..j])
    {
      var (source, content) := web[j];
      assert web[..j + 1][..j] == web[..j];
      ranked := ranked + [("WEB_" + source, content, 2)];
      j := j + 1;
    }
    assert web[..j] == web;
  }


  /** The relevant-sections loop, ending at the first cut. */
  method AddSections(sections: Sections, names: seq<Topic>, parts0: seq<string>, cur0: int,
                     added0: seq<Topic>, budget: int)
    returns (parts: seq<string>, cur: int, added: seq<Topic>)
    ensures Build(parts, cur, added) == SectionsPhase(sections, names, Build(parts0, cur0, added0), budget)
  {
    parts, cur, added := parts0, cur0, added0;
    var i := 0;
    while i < |names|
      invariant 0 <= i <= |names|
      invariant SectionsPhase(sections, names[i..], Build(parts, cur, added), budget)
             == SectionsPhase(sections, names, Build(parts0, cur0, added0), budget)
    {
      SectionsPhaseAt(sections, names, i, Build(parts, cur, added), budget);
      var stop;
      stop, parts, cur, added := AddSection(sections, names[i], parts, cur, added, budget);
      if stop {
        return;
      }
      i := i + 1;
    }
  }

  /** One pass of the relevant-sections loop; `stop` is its `break`. */
  method AddSection(sections: Sections, name: Topic, parts0: seq<string>, cur0: int, added0: seq<Topic>,
                    budget: int)
    returns (stop: bool, parts: seq<string>, cur: int, added: seq<Topic>)
    ensures SectionStep(sections, name, Build(parts0, cur0, added0), budget)
         == if stop then Stop(Build(parts, cur, added)) else Continue(Build(parts, cur, added))
  {
    var content := Strip(Get(sections, name));
    stop, parts, cur, added := AddSectionContent(name, content, parts0, cur0, added0, budget);
  }

  /** The same pass, on the section's stripped text. */
  method AddSectionContent(name: Topic, content: string, parts0: seq<string>, cur0: int, added0: seq<Topic>,
                    budget: int)
    returns (stop: bool, parts: seq<string>, cur: int, added: seq<Topic>)
    ensures SectionStepFor(name, content, Build(parts0, cur0, added0), budget)
         == if stop then Stop(Build(parts, cur, added)) else Continue(Build(parts, cur, added))
  {
    parts, cur, added, stop := parts0, cur0, added0, false;
    ghost var st := Build(parts0, cur0, added0);
    if content != "" && cur < budget {
      var chunk := Chunk(TopicName(name), content);
      if cur + |chunk| <= budget {
        parts := parts + [chunk];
        cur := cur + |chunk|;
        added := added + [name];
        assert SectionStepFor(name, content, st, budget) == Continue(Build(parts, cur, added));
      } else {
        var remaining := budget - cur - (|TopicName(name)| + 8) - 10;
        if remaining > 100 {
          assert Chunk(TopicName(name), Take(content, remaining) + "...") == Truncated(name, content, cur, budget);
          parts := parts + [Truncated(name, content, cur, budget)];
          cur := budget;
          added := added + [name];
          stop := true;
          assert SectionStepFor(name, content, st, budget) == Stop(Build(parts, cur, added));
        } else {
          assert SectionStepFor(name, content, st, budget) == Continue(st);
        }
      }
    } else {
      assert SectionStepFor(name, content, st, budget) == Continue(st);
    }
  }

  lemma SectionsPhaseAt(sections: Sections, names: seq<Topic>, i: nat, st: Build, budget: int)
    requires i < |names|
    ensures SectionsPhase(sections, names[i..], st, budget)
         == match SectionStep(sections, names[i], st, budget)
            case Stop(b) => b
            case Continue(b) => SectionsPhase(sections, names[i + 1..], b, budget)
  {
    assert names[i..][0] == names[i] && names[i..][1..] == names[i + 1..];
  }

  /** The fallback loop over `order` (always `FallbackOrder`), ending at the
      first cut. */
  method AddFallback(sections: Sections, order: seq<Topic>, parts0: seq<string>, cur0: int, added0: seq<Topic>, budget: int)
    returns (parts: seq<string>, cur: int, added: seq<Topic>)
    ensures Build(parts, cur, added) == FallbackPhase(sections, order, Build(parts0, cur0, added0), budget)
  {
    parts, cur, added := parts0, cur0, added0;
    var i := 0;
    while i < |order|
      invariant 0 <= i <= |order|
      invariant FallbackPhase(sections, order[i..], Build(parts, cur, added), budget)
             == FallbackPhase(sections, order, Build(parts0, cur0, added0), budget)
    {
      FallbackPhaseAt(sections, order, i, Build(parts, cur, added), budget);
      var stop;
      stop, parts, cur, added := AddFallbackSection(sections, order[i], parts, cur, added, budget);
      if stop {
        return;
      }
      i := i + 1;
    }
  }

  /** One pass of the fallback loop; `stop` is its `break`. */
  method AddFallbackSection(sections: Sections, name: Topic, parts0: seq<string>, cur0: int,
                            added0: seq<Topic>, budget: int)
    returns (stop: bool, parts: seq<string>, cur: int, added: seq<Topic>)
    ensures FallbackStep(sections, name, Build(parts0, cur0, added0), budget)
         == if stop then Stop(Build(parts, cur, added)) else Continue(Build(parts, cur, added))
  {
    var content := Strip(Get(sections, name));
    stop, parts, cur, added := AddFallbackContent(name, content, parts0, cur0, added0, budget);
  }

  /** The same pass, on the section's stripped text. */
  method AddFallbackContent(name: Topic, content: string, parts0: seq<string>, cur0: int, added0: seq<Topic>,
                    budget: int)
    returns (stop: bool, parts: seq<string>, cur: int, added: seq<Topic>)
    ensures FallbackStepFor(name, content, Build(parts0, cur0, added0), budget)
         == if stop then Stop(Build(parts, cur, added)) else Continue(Build(parts, cur, added))
  {
    parts, cur, added, stop := parts0, cur0, added0, false;
    ghost var st := Build(parts0, cur0, added0);
    if content != "" && cur < budget {
      var chunk := Chunk(TopicName(name), Take(content, 1500));
      if cur + |chunk| <= budget {
        parts := parts + [chunk];
        cur := cur + |chunk|;
        added := added + [name];
        assert FallbackStepFor(name, content, st, budget) == Continue(Build(parts, cur, added));
      } else {
        var remaining := budget - cur - (|TopicName(name)| + 8) - 10;
        if remaining > 200 {
          assert Chunk(TopicName(name), Take(content, remaining) + "...") == Truncated(name, content, cur, budget);
          parts := parts + [Truncated(name, content, cur, budget)];
          added := added + [name];
          stop := true;
          assert FallbackStepFor(name, content, st, budget) == Stop(Build(parts, cur, added));
        } else {
          assert FallbackStepFor(name, content, st, budget) == Continue(st);
        }
      }
    } else {
      assert FallbackStepFor(name, content, st, budget) == Continue(st);
    }
  }

  lemma FallbackPhaseAt(sections: Sections, order: seq<Topic>, i: nat, st: Build, budget: int)
    requires i < |order|
    ensures FallbackPhase(sections, order[i..], st, budget)
         == match FallbackStep(sections, order[i], st, budget)
            case Stop(b) => b
            case Continue(b) => FallbackPhase(sections, order[i + 1..], b, budget)
  {
    assert order[i..][0] == order[i] && order[i..][1..] == order[i + 1..];
  }


  /** The web loop over the ranking; only priority-2 entries are used. */
  method AddWeb(ranked: seq<Ranked>, parts0: seq<string>, cur0: int, added0: seq<Topic>, budget: int)
    returns (parts: seq<string>, cur: int)
    ensures Build(parts, cur, added0) == WebPhase(ranked, Build(parts0, cur0, added0), budget)
  {
    parts, cur := parts0, cur0;
    var i := 0;
    while i < |ranked|
      invariant 0 <= i <= |ranked|
      invariant WebPhase(ranked[i..], Build(parts, cur, added0), budget)
             == WebPhase(ranked, Build(parts0, cur0, added0), budget)
    {
      var (source, content, priority) := ranked[i];
      assert ranked[i..][1..] == ranked[i + 1..];
      if priority == 2 && cur < budget {
        var remaining := budget - cur;
        var truncated := Take(content, Min(remaining - 50, 500));
        if truncated != "" {
          parts := parts + [Chunk(source, truncated)];
          cur := cur + |truncated| + 50;
        }
      }
      i := i + 1;
    }
  }

  /** For a résumé under 1000 characters in all, every non-blank section is
      relevant. */
  method SmallResumeNames(sections: Sections, classified: seq<Topic>) returns (names: seq<Topic>)
    ensures names == LeadNames(sections, classified)
  {
    names := classified;
    var totalResumeSize := SizeOf(sections, DictOrder);
    if totalResumeSize < 1000 {
      names := NonBlankTopics(sections, DictOrder);
    }
  }

  /** The LinkUp block of the résumé, for project questions that are not
      keyword questions. */
  method AddGeneralBlock(v: Variant, sections: Sections, isProject: bool, intent: Intent,
                         parts0: seq<string>, cur0: int, names0: seq<Topic>, budget: int)
    returns (parts: seq<string>, cur: int, names: seq<Topic>)
    requires parts0 == [] || TotalLen(parts0) <= budget
    requires cur0 == TotalLen(parts0)
    ensures (Build(parts, cur, []), names) == LeadBlock(parts0, names0, isProject, intent, GeneralBlock(v, sections), budget)
  {
    parts, cur, names := parts0, cur0, names0;
    if isProject && intent != Keyword {
      var block := ExtractLinkupFromProjects(ProjectsOrOther(sections), BlockCap(v, true));
      parts, cur, names := AddBlockChunk(block, intent, parts0, cur0, names0, budget);
    }
  }

  /** The block's chunk goes in when it fits, and PROJECTS leaves the names. */
  method AddBlockChunk(block: string, intent: Intent, parts0: seq<string>, cur0: int, names0: seq<Topic>,
                       budget: int)
    returns (parts: seq<string>, cur: int, names: seq<Topic>)
    requires parts0 == [] || TotalLen(parts0) <= budget
    requires cur0 == TotalLen(parts0) && intent != Keyword
    ensures (Build(parts, cur, []), names) == LeadBlock(parts0, names0, true, intent, block, budget)
  {
    parts, cur, names := parts0, cur0, names0;
    LeadBlockOf(parts0, names0, intent, block, budget);
    if block != "" {
      var chunk := Chunk(LinkupResumeHeader, block);
      if cur + |chunk| <= budget {
        parts := parts + [chunk];
        cur := cur + |chunk|;
        names := WithoutProjects(names);
      }
    }
  }


  /** The lead of `_build_general_context`, up to the loop over the relevant
      sections. */
  method BuildLead(v: Variant, budget: int, sections: Sections, isProject: bool, classified: seq<Topic>,
                   data: Option<ProjectData>, intent: Intent)
    returns (parts: seq<string>, cur: int, names: seq<Topic>)
    ensures (Build(parts, cur, []), names) == Lead(budget, sections, isProject, classified, data, intent, GeneralBlock(v, sections))
  {
    parts := [];
    cur := 0;
    var lt := LinkupText(data);
    if isProject && lt != "" {
      var chunk := Chunk(LinkupDataHeader, lt);
      if |chunk| <= budget {
        parts := parts + [chunk];
        cur := cur + |chunk|;
      }
    }
    assert parts == LeadTop(isProject, data, budget) && cur == TotalLen(parts);
    names := SmallResumeNames(sections, classified);
    parts, cur, names := AddGeneralBlock(v, sections, isProject, intent, parts, cur, names, budget);
  }

  /** The last resort: the start of the full résumé when there is no chunk. */
  method AddLastResort(fullResume: string, parts0: seq<string>, cur: int, added: seq<Topic>, budget: int)
    returns (parts: seq<string>)
    ensures Build(parts, cur, added) == LastResort(fullResume, Build(parts0, cur, added), budget)
  {
    parts := parts0;
    if parts == [] && fullResume != "" && cur < budget {
      parts := parts + [Chunk(ResumeContentHeader, Take(fullResume, Min(budget - 100, 3000)))];
    }
  }

  /** The SearchAPI tail. */
  method AddSearch(search: string, parts0: seq<string>, cur: int, added: seq<Topic>, budget: int)
    returns (parts: seq<string>)
    ensures parts == SearchPhase(search, Build(parts0, cur, added), budget)
  {
    parts := parts0;
    if cur < budget && search != "" {
      var truncated := Take(search, Min(budget - cur - 50, 300));
      if truncated != "" {
        parts := parts + [Chunk(SearchHeader, truncated)];
      }
    }
  }

  /** `_build_general_context` */
  method BuildGeneralContext(v: Variant, budget: int, sections: Sections, web: seq<(string, string)>,
                             question: string, search: string, fullResume: string,
                             data: Option<ProjectData>, intent: Intent)
    returns (context: string)
    ensures context == Join("\n", GeneralParts(v, budget, sections, web, question, search, fullResume, data, intent))
  {
    var relevant := ClassifySections(question);
    var isProject := IsProjectIntentQuestion(question);
    var parts, cur, names := BuildLead(v, budget, sections, isProject, relevant, data, intent);
    var added: seq<Topic>;
    parts, cur, added := AddResumeSections(budget, sections, fullResume, parts, cur, names);
    parts := AddWebAndSearch(sections, web, search, parts, cur, added, budget);
    context := Join("\n", parts);
  }

  /** The résumé phases after the lead: relevant sections, fallback, last resort. */
  method AddResumeSections(budget: int, sections: Sections, fullResume: string, parts0: seq<string>, cur0: int,
                           names: seq<Topic>)
    returns (parts: seq<string>, cur: int, added: seq<Topic>)
    ensures Build(parts, cur, added) == ResumePhases(budget, sections, fullResume, (Build(parts0, cur0, []), names))
  {
    parts, cur, added := AddSections(sections, names, parts0, cur0, [], budget);
    ghost var b1 := SectionsPhase(sections, names, Build(parts0, cur0, []), budget);
    assert Build(parts, cur, added) == b1;
    if added == [] && cur < 500 {
      parts, cur, added := AddFallback(sections, FallbackOrder, parts, cur, added, budget);
    }
    assert Build(parts, cur, added) == AfterFallback(sections, b1, budget);
    parts := AddLastResort(fullResume, parts, cur, added, budget);
  }

  /** The web phase, while budget is left, then the search results. */
  method AddWebAndSearch(sections: Sections, web: seq<(string, string)>, search: string, parts0: seq<string>,
                         cur0: int, added: seq<Topic>, budget: int)
    returns (parts: seq<string>)
    ensures parts == SearchPhase(search, WebTail(RankedSources(sections, web, search), Build(parts0, cur0, added), budget), budget)
  {
    parts := parts0;
    var cur := cur0;
    if cur < budget {
      var ranked := RankContextSources(sections, web, search);
      parts, cur := AddWeb(ranked, parts, cur, added, budget);
    }
    parts := AddSearch(search, parts, cur, added, budget);
  }

  // ---------------------------------------------------------------- properties

  /** The section loop keeps what it was given, and stays within the budget:
      the chunks never add up to more than the running length, which never
      passes the budget. */
  lemma {:induction false} SectionsPhaseWithinBudget(sections: Sections, names: seq<Topic>, st: Build, budget: int)
    requires TotalLen(st.parts) <= st.cur <= budget
    ensures var r := SectionsPhase(sections, names, st, budget);
      TotalLen(r.parts) <= r.cur <= budget && |st.parts| <= |r.parts| && r.parts[..|st.parts|] == st.parts
    decreases |names|
  {
    if names != [] {
      var step := SectionStep(sections, names[0], st, budget);
      SectionStepWithinBudget(names[0], Strip(Get(sections, names[0])), st, budget);
      match step
        case Stop(b) =>
        case Continue(b) =>
          SectionsPhaseWithinBudget(sections, names[1..], b, budget);
          var r := SectionsPhase(sections, names[1..], b, budget);
          assert r.parts[..|st.parts|] == r.parts[..|b.parts|][..|st.parts|];
    }
  }

  /** One section step keeps what it was given and stays within the budget. */
  lemma SectionStepWithinBudget(name: Topic, content: string, st: Build, budget: int)
    requires TotalLen(st.parts) <= st.cur <= budget
    ensures var b := SectionStepFor(name, content, st, budget).b;
      TotalLen(b.parts) <= b.cur <= budget && |st.parts| <= |b.parts| && b.parts[..|st.parts|] == st.parts
  {
    if content != "" && st.cur < budget {
      var chunk := Chunk(TopicName(name), content);
      if st.cur + |chunk| <= budget {
        TotalLenAppend(st.parts, [chunk]);
      } else if budget - st.cur - (|TopicName(name)| + 8) - 10 > 100 {
        TotalLenAppend(st.parts, [Truncated(name, content, st.cur, budget)]);
      }
    }
  }

  /** The fallback loop keeps the chunks within the budget; its cut leaves the
      running length behind, so only the chunks are bounded after it. */
  lemma {:induction false} FallbackPhaseWithinBudget(sections: Sections, order: seq<Topic>, st: Build, budget: int)
    requires TotalLen(st.parts) <= st.cur <= budget
    ensures var r := FallbackPhase(sections, order, st, budget);
      TotalLen(r.parts) <= budget && r.cur <= budget && |st.parts| <= |r.parts|
    decreases |order|
  {
    if order != [] {
      var name := order[0];
      var content := Strip(Get(sections, name));
      var step := FallbackStep(sections, name, st, budget);
      if content != "" && st.cur < budget {
        var chunk := Chunk(TopicName(name), Take(content, 1500));
        if st.cur + |chunk| <= budget {
          TotalLenAppend(st.parts, [chunk]);
        } else if budget - st.cur - (|TopicName(name)| + 8) - 10 > 200 {
          TotalLenAppend(st.parts, [Truncated(name, content, st.cur, budget)]);
        }
      }
      match step
        case Stop(b) =>
        case Continue(b) =>
          FallbackPhaseWithinBudget(sections, order[1..], b, budget);
    }
  }

  /** Up to the web phase, with a budget of at least 100, the chunks add up to
      no more than the budget. */
  lemma ResumePhasesWithinBudget(budget: int, sections: Sections, fullResume: string, lead: (Build, seq<Topic>))
    requires budget >= 100
    requires lead.0.cur == TotalLen(lead.0.parts) && (lead.0.parts == [] || lead.0.cur <= budget)
    ensures TotalLen(ResumePhases(budget, sections, fullResume, lead).parts) <= budget
  {
    SectionsPhaseWithinBudget(sections, lead.1, lead.0, budget);
    var b1 := SectionsPhase(sections, lead.1, lead.0, budget);
    if b1.added == [] && b1.cur < 500 {
      FallbackPhaseWithinBudget(sections, FallbackOrder, b1, budget);
    }
    var b2 := AfterFallback(sections, b1, budget);
    LastResortWithinBudget(fullResume, b2, budget);
  }

  /** The last resort keeps the chunks within a budget of at least 100. */
  lemma LastResortWithinBudget(fullResume: string, st: Build, budget: int)
    requires budget >= 100 && TotalLen(st.parts) <= budget
    ensures TotalLen(LastResort(fullResume, st, budget).parts) <= budget
  {
    if st.parts == [] && fullResume != "" && st.cur < budget {
      var c := Chunk(ResumeContentHeader, Take(fullResume, Min(budget - 100, 3000)));
      assert TotalLen([c]) == |c|;
    }
  }

  /** The lead always satisfies what `ResumePhasesWithinBudget` asks of it. */
  lemma LeadWithinBudget(budget: int, sections: Sections, isProject: bool, classified: seq<Topic>,
                         data: Option<ProjectData>, intent: Intent, block: string)
    requires budget >= 0
    ensures var lead := Lead(budget, sections, isProject, classified, data, intent, block);
      lead.0.cur == TotalLen(lead.0.parts) && lead.0.cur <= budget && lead.0.added == []
  {
  }

  /** When the LinkUp block of the résumé is added for a project question, the
      PROJECTS section is not visited again. */
  lemma LinkupBlockReplacesProjects(parts0: seq<string>, names0: seq<Topic>, isProject: bool, intent: Intent,
                                    block: string, budget: int)
    requires parts0 == [] || TotalLen(parts0) <= budget
    requires isProject && intent != Keyword && block != ""
    requires TotalLen(parts0) + |Chunk(LinkupResumeHeader, block)| <= budget
    ensures var r := LeadBlock(parts0, names0, isProject, intent, block, budget);
      r.0.parts == parts0 + [Chunk(LinkupResumeHeader, block)] && Projects !in r.1
      && forall t :: t in names0 && t != Projects ==> t in r.1
  {
  }

  /** A web entry while at least 50 characters are left adds at most 500
      characters of text and keeps the running length within the budget. */
  lemma WebStepWithinBudget(e: Ranked, st: Build, budget: int)
    requires budget - st.cur >= 50
    ensures var r := WebStep(e, st, budget);
      r.cur <= budget && (r.parts == st.parts || (e.2 == 2 && |r.parts| == |st.parts| + 1))
  {
  }

  /** With fewer than 50 characters left, the slice bound `remaining - 50` is
      negative, so Python's slice drops characters from the END of the web text
      instead of capping it: the text keeps all but its last `50 - remaining`
      characters, and the running length passes the budget by the text's full
      length. */
  lemma WebStepNegativeSlice(e: Ranked, st: Build, budget: int)
    requires e.2 == 2 && 0 < budget - st.cur < 50
    requires |e.1| > 50 - (budget - st.cur)
    ensures var r := WebStep(e, st, budget);
      r.parts == st.parts + [Chunk(e.0, e.1[..|e.1| - (50 - (budget - st.cur))])]
      && r.cur == budget + |e.1|
  {
  }

  lemma {:induction false} WebPhaseAppend(a: seq<Ranked>, b: seq<Ranked>, st: Build, budget: int)
    ensures WebPhase(a + b, st, budget) == WebPhase(b, WebPhase(a, st, budget), budget)
    decreases |a|
  {
    if a == [] {
      assert a + b == b;
    } else {
      assert (a + b)[0] == a[0];
      assert (a + b)[1..] == a[1..] + b;
      WebPhaseAppend(a[1..], b, WebStep(a[0], st, budget), budget);
    }
  }

  /** Entries of any priority but 2 leave the web loop's state alone. */
  lemma {:induction false} WebPhaseSkips(ranked: seq<Ranked>, st: Build, budget: int)
    requires forall k :: 0 <= k < |ranked| ==> ranked[k].2 != 2
    ensures WebPhase(ranked, st, budget) == st
    decreases |ranked|
  {
    if ranked != [] {
      WebPhaseSkips(ranked[1..], st, budget);
    }
  }

  /** The web loop reads only the web items: the résumé sections and the
      SearchAPI text in the ranking are never added there. */
  lemma WebPhaseSeesOnlyWeb(sections: Sections, web: seq<(string, string)>, search: string, st: Build, budget: int)
    ensures WebPhase(RankedSources(sections, web, search), st, budget) == WebPhase(WebEntries(web), st, budget)
  {
    var s := SectionEntries(sections, DictOrder);
    var w := WebEntries(web);
    var q := SearchEntry(search);
    WebPhaseAppend(s + w, q, st, budget);
    WebPhaseAppend(s, w, st, budget);
    WebPhaseSkips(s, st, budget);
    WebPhaseSkips(q, WebPhase(w, st, budget), budget);
  }

  /** The ranking lists résumé sections, then web items, then SearchAPI: the
      priorities never decrease. */
  lemma RankedByPriority(sections: Sections, web: seq<(string, string)>, search: string)
    ensures var r := RankedSources(sections, web, search);
      forall i, j :: 0 <= i < j < |r| ==> r[i].2 <= r[j].2
  {
    var s := SectionEntries(sections, DictOrder);
    var w := WebEntries(web);
    var q := SearchEntry(search);
    var r := s + w + q;
    forall i, j | 0 <= i < j < |r| ensures r[i].2 <= r[j].2 {
      if i < |s| {
        assert r[i] == s[i];
      } else if i < |s| + |w| {
        assert r[i] == w[i - |s|];
        if j < |s| + |w| {
          assert r[j] == w[j - |s|];
        }
      }
    }
  }
}
