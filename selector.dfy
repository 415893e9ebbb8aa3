/** `select_relevant_context` (src/rag/context_selector.py, and its copy in
    main.py): the three builders as a cascade. A LinkUp question gets the
    LinkUp-only context or an instruction, never other projects; otherwise a
    keyword question with project data gets the keyword context when it is not
    empty; everything else gets the general context. */
module Selector {
  import opened Text
  import opened Wrappers
  import opened Resume
  import opened Classifier
  import opened Projects
  import opened Variants
  import opened Context
  import opened KeywordContext
  import opened GeneralContext

  /** The instruction for a LinkUp question with no LinkUp context: src/ asks
      for an answer in the second person, main.py in the first. */
  function Instruction(v: Variant): (r: string)
    ensures r != ""
  {
    var person := match v case Package => "second" case Script => "first";
    InstructionHead + person + InstructionTail
  }

  const InstructionHead: string := "--- INSTRUCTION ---\nThe user asked about LinkUp or their main/most recent project. "
    + "No LinkUp-specific context was found in resume or project.json. Respond in "
  const InstructionTail: string := " person that you do not have LinkUp details in your materials, "
    + "and do not mention other projects."

  predicate IsLinkupIntent(intent: Intent) {
    intent == LinkupOnly || intent == ExplicitLinkup
  }

  /** The LinkUp-only context. */
  function LinkupContext(v: Variant, budget: int, sections: Sections, data: Option<ProjectData>,
                         web: seq<(string, string)>): string {
    Join("\n", LinkupParts(v, budget, sections, data, web))
  }

  /** The general context. */
  function GeneralContextOf(v: Variant, budget: int, sections: Sections, web: seq<(string, string)>,
                            question: string, search: string, fullResume: string,
                            data: Option<ProjectData>): string {
    Join("\n", GeneralParts(v, budget, sections, web, question, search, fullResume, data,
                           DetectProjectIntent(question)))
  }

  /** The LinkUp-only context, or the instruction when it is empty. */
  function LinkupOrInstruction(v: Variant, budget: int, sections: Sections, data: Option<ProjectData>,
                               web: seq<(string, string)>): (r: string)
    ensures r != ""
  {
    var ctx := LinkupContext(v, budget, sections, data, web);
    if ctx != "" then ctx else Instruction(v)
  }

  /** The keyword context when there is a keyword, project data and a
      non-empty keyword context; else the general context. */
  function KeywordOrGeneral(v: Variant, budget: int, sections: Sections, web: seq<(string, string)>,
                            question: string, search: string, fullResume: string,
                            data: Option<ProjectData>, keyword: string): string
  {
    var kctx := Join("\n", KeywordParts(budget, keyword, sections, fullResume, data, web));
    if keyword != "" && data.Some? && kctx != "" then kctx
    else GeneralContextOf(v, budget, sections, web, question, search, fullResume, data)
  }

  /** What `select_relevant_context` returns. */
  function SelectedContext(v: Variant, budget: int, sections: Sections, web: seq<(string, string)>,
                           question: string, search: string, fullResume: string,
                           data: Option<ProjectData>): string
  {
    if IsLinkupIntent(DetectProjectIntent(question)) then LinkupOrInstruction(v, budget, sections, data, web)
    else KeywordOrGeneral(v, budget, sections, web, question, search, fullResume, data, ExtractKeyword(question))
  }

  /** The LinkUp step of the cascade: the LinkUp-only context, or the
      instruction when it is empty. */
  method LinkupThenInstruction(v: Variant, budget: int, sections: Sections, data: Option<ProjectData>,
                               web: seq<(string, string)>)
    returns (context: string)
    ensures context == LinkupOrInstruction(v, budget, sections, data, web)
  {
    context := PrioritizeLinkupProject(v, budget, sections, data, web);
    if context == "" {
      context := Instruction(v);
    }
  }

  /** The keyword and general steps of the cascade. */
  method KeywordThenGeneral(v: Variant, budget: int, sections: Sections, web: seq<(string, string)>,
                            question: string, search: string, fullResume: string,
                            data: Option<ProjectData>, keyword: string, intent: Intent)
    returns (context: string)
    requires intent == DetectProjectIntent(question)
    ensures context == KeywordOrGeneral(v, budget, sections, web, question, search, fullResume, data, keyword)
  {
    if keyword != "" && data.Some? {
      var ctx := KeywordContextSearch(budget, keyword, sections, fullResume, data, web);
      if ctx != "" {
        return ctx;
      }
    }
    context := BuildGeneralContext(v, budget, sections, web, question, search, fullResume, data, intent);
  }

  /** `select_relevant_context`. `search` is the SearchAPI text, "" when there
      is none. */
  method SelectRelevantContext(v: Variant, budget: int, sections: Sections, web: seq<(string, string)>,
                               question: string, search: string, fullResume: string,
                               data: Option<ProjectData>)
    returns (context: string)
    ensures context == SelectedContext(v, budget, sections, web, question, search, fullResume, data)
  {
    var intent := DetectProjectIntent(question);
    if intent == LinkupOnly || intent == ExplicitLinkup {
      context := LinkupThenInstruction(v, budget, sections, data, web);
    } else {
      var keyword := ExtractKeyword(question);
      context := KeywordThenGeneral(v, budget, sections, web, question, search, fullResume, data, keyword, intent);
    }
  }

  // ---------------------------------------------------------------- properties

  /** A question that names LinkUp, or asks for the main or latest project, is
      answered from LinkUp material only: the LinkUp context when there is any,
      else the instruction, and never an empty context. */
  lemma LinkupQuestionsStayOnLinkup(v: Variant, budget: int, sections: Sections, web: seq<(string, string)>,
                                    question: string, search: string, fullResume: string,
                                    data: Option<ProjectData>)
    requires HasExplicitLinkupMention(question) || RequiresLinkupOnly(question)
    ensures var ctx := SelectedContext(v, budget, sections, web, question, search, fullResume, data);
      var parts := LinkupParts(v, budget, sections, data, web);
      ctx != ""
      && (parts == [] ==> ctx == Instruction(v))
      && (parts != [] ==> ctx == Join("\n", parts))
  {
    DetectIntentPrecedence(question);
    assert IsLinkupIntent(DetectProjectIntent(question));
    var parts := LinkupParts(v, budget, sections, data, web);
    LinkupPartsAreChunks(v, budget, sections, data, web);
    JoinEmpty("\n", parts);
  }

  /** Without project data, or without a keyword in the question, a question
      that is not about LinkUp gets the general context. */
  lemma NoKeywordPathWithoutDataOrKeyword(v: Variant, budget: int, sections: Sections, web: seq<(string, string)>,
                                          question: string, search: string, fullResume: string,
                                          data: Option<ProjectData>)
    requires !HasExplicitLinkupMention(question) && !RequiresLinkupOnly(question)
    requires data.None? || !ContainsAny(Lower(question), Config.KeywordTechPatterns)
    ensures SelectedContext(v, budget, sections, web, question, search, fullResume, data)
         == GeneralContextOf(v, budget, sections, web, question, search, fullResume, data)
  {
    DetectIntentPrecedence(question);
  }

  /** A keyword question whose keyword occurs in no source falls through to the
      general context. */
  lemma UnmatchedKeywordFallsThrough(v: Variant, budget: int, sections: Sections, web: seq<(string, string)>,
                                     question: string, search: string, fullResume: string,
                                     data: Option<ProjectData>)
    requires !HasExplicitLinkupMention(question) && !RequiresLinkupOnly(question)
    requires NothingMatches(KwLower(ExtractKeyword(question)), sections, fullResume, data, web)
    ensures SelectedContext(v, budget, sections, web, question, search, fullResume, data)
         == GeneralContextOf(v, budget, sections, web, question, search, fullResume, data)
  {
    DetectIntentPrecedence(question);
    KeywordContextEmpty(budget, ExtractKeyword(question), sections, fullResume, data, web);
  }

  /** A keyword question with project data whose keyword context is not empty
      is answered from that context alone. */
  lemma MatchedKeywordIsUsed(v: Variant, budget: int, sections: Sections, web: seq<(string, string)>,
                             question: string, search: string, fullResume: string,
                             data: Option<ProjectData>)
    requires !HasExplicitLinkupMention(question) && !RequiresLinkupOnly(question)
    requires data.Some? && ContainsAny(Lower(question), Config.KeywordTechPatterns)
    requires exists k :: 0 <= k < |KeywordCandidates(KwLower(ExtractKeyword(question)), sections, fullResume, data, web)|
               && |KeywordCandidates(KwLower(ExtractKeyword(question)), sections, fullResume, data, web)[k]| <= budget
    ensures SelectedContext(v, budget, sections, web, question, search, fullResume, data)
         == Join("\n", KeywordParts(budget, ExtractKeyword(question), sections, fullResume, data, web))
  {
    DetectIntentPrecedence(question);
    KeywordContextEmpty(budget, ExtractKeyword(question), sections, fullResume, data, web);
  }
}
