# Portfolio chatbot core, in Dafny

This project models the decision logic of a résumé chatbot. The chatbot answers
questions about one person's résumé and projects. The model covers how the
chatbot:

- classifies a question into résumé sections and into a project intent
  (explicit LinkUp mention, LinkUp-only, technology keyword, general);
- builds the context it gives the language model under a character budget. A
  LinkUp question gets LinkUp material only, then comes the keyword context,
  then the general context;
- splits a résumé into sections by header lines, with the small-sections
  fallback;
- loads `project.json` and finds the primary project;
- keeps its learning memory: easy-question detection, the Jaccard lookup with
  its easy-on-easy boost, the insertion policy, the trim to 100 entries, and
  when a remembered answer may be reused;
- decides whether to search the web and for what query, and which GitHub links
  to process;
- cleans text: URL extraction and categorisation, hashing, truncation and
  whitespace normalisation.

The repository holds two copies of most of this logic: the package under
`src/` and the monolithic `main.py`. Where they differ, a `Variant` parameter
(`Package` or `Script`) selects the behaviour. Where their structure differs,
the script gets its own member (`Memory.ScriptStoreInteraction`,
`Chatbot.ScriptCachedResponse`). Each such member is proved to agree with the
package where the two agree (`Memory.VariantsAgree`, `Chatbot.ScriptCacheAgrees`,
`Projects.TextsAgreeOtherwise`). The script's classifier functions
(`is_project_intent_question`, `requires_linkup_only`, `detect_project_intent`,
`classify_question`) have the same patterns and branches as the package's and
are modelled once.

Code that changes state step by step is written as methods with loops, and each
method is proved equal to a specification function:

- the context builders, with `context_parts` and `current_length` as loop state;
- the memory scan and the insertion;
- the résumé line loop;
- the link loops.

`MemoryManager` is a class whose `memory` field the store and clear methods
update. The properties are lemmas about the specification functions.

Modules: `Text` (Python string primitives), `Pattern` (the regular-expression
subset the classifiers use), `Config`, `Resume`, `Classifier`, `Projects`,
`Context` (the LinkUp-only builder and shared pieces), `KeywordContext`,
`GeneralContext`, `Selector`, `Memory`, `Chatbot`, `Scraper`, `TextProcessing`.

## Model

| member | source | states |
|---|---|---|
| Classifier.ClassifySections | src/rag/question_classifier.py:26-80 | the list is non-empty, has no duplicates and never holds OTHER; with no keyword hit it is SUMMARY, EXPERIENCE, SKILLS, PROJECTS; otherwise it holds exactly the topics the keyword groups added |
| Classifier.ClassifyKeepsFirstSeenOrder | src/rag/question_classifier.py:75-77 | topics appear in the order their keyword groups first added them |
| Classifier.DedupFromOrder | src/rag/question_classifier.py:75-77 | the seen-set comprehension keeps first-occurrence order |
| Classifier.AboutOnlyQuestion | src/rag/question_classifier.py:65-77 | a question hitting only the "about" group gets SUMMARY, EXPERIENCE, SKILLS in that order |
| Classifier.ProjectThenAbout | src/rag/question_classifier.py:40-77 | project words and "about" words give PROJECTS first, and SUMMARY, EXPERIENCE and SKILLS are all present |
| Classifier.FrameworkHitsExperience | src/rag/question_classifier.py:45-56 | because matching is by substring, "framework" also hits "work", so such a question gets SKILLS then EXPERIENCE |
| Classifier.ExtractKeyword | src/rag/question_classifier.py:202-217 | "" exactly when no technology keyword occurs in the lower-cased question; otherwise a listed keyword that occurs in it |
| Classifier.FirstKeyword | src/rag/question_classifier.py:212-217 | the first keyword of the list found in the text, and none before it is found; "" exactly when none is |
| Classifier.IsProjectIntentQuestion | src/rag/question_classifier.py:82-117 | some of the fifteen project-intent patterns is found in the lower-cased question |
| Classifier.RequiresLinkupOnly | src/rag/question_classifier.py:120-148 | some of the six LinkUp-only patterns is found in the lower-cased, stripped question |
| Classifier.HasExplicitLinkupMention | src/rag/question_classifier.py:151-167 | some configured LinkUp name occurs in the lower-cased question |
| Classifier.DetectProjectIntent | src/rag/question_classifier.py:170-199 | explicit mention, then LinkUp-only, then technology keyword, else general; the final project-intent test does not change the result |
| Classifier.DetectIntentPrecedence | src/rag/question_classifier.py:170-200 | the four intents in precedence order, each as an if-and-only-if: explicit LinkUp mention, then LinkUp-only phrase, then technology keyword, else general |
| Classifier.ExplainIsKeywordQuestion | src/rag/question_classifier.py:188-193 | any question with "explain" and no LinkUp phrase is a keyword question, because "ai" occurs in "explain" |
| Classifier.LinkupOnlyImpliesProjectIntent | src/rag/question_classifier.py:82-149 | every newline-free LinkUp-only question is also a project-intent question |
| Classifier.LinkupOnlyPatternSubsumed | src/rag/question_classifier.py:94-146 | in a newline-free text, each LinkUp-only pattern match yields a match of some project-intent pattern |
| Pattern.SearchStripped | src/rag/question_classifier.py:133-146 | a pattern found in the stripped text is found in the text |
| Resume.HeaderOfFirstMatch | src/parsers/resume_loader.py:53-79 | a line opens a section exactly when some header group matches, and then it opens the first group that does |
| Resume.DetectHeader | src/parsers/resume_loader.py:70-79 | the loop over the header groups returns the header of the first match |
| Resume.FirstTrueSpec | src/parsers/resume_loader.py:70-79 | the first-match search returns a matching group, and no group before it matches |
| Resume.TechnologiesLineOpensSkills | src/parsers/resume_loader.py:53-72 | a short line starting with "Technologies" opens SKILLS |
| Resume.ScanLine | src/parsers/resume_loader.py:66-83 | the loop body is one step of the scan specification: a header flushes the pending lines and switches section |
| Resume.StepOnContent | src/parsers/resume_loader.py:81-83 | a line that is not a header is dropped when blank and otherwise joins the pending lines |
| Resume.ScanAll | src/parsers/resume_loader.py:61-87 | the line loop ends in the state of the scan specification |
| Resume.ExtractResumeSections | src/parsers/resume_loader.py:29-104 | the result is the specified sections, with every topic present |
| Resume.PendingLinesAreContent | src/parsers/resume_loader.py:81-83 | the pending lines are all non-blank non-header lines |
| Resume.BeforeFirstHeader | src/parsers/resume_loader.py:62-83 | before any header, every non-blank line is pending for OTHER, in order |
| Resume.NoHeaderGoesToOther | src/parsers/resume_loader.py:29-104 | a résumé with no header line puts all its non-blank lines, joined and stripped, into OTHER, and every other section is empty |
| Resume.SectionsOnlyGrow | src/parsers/resume_loader.py:73-87 | scanning more lines only appends to each section |
| Resume.ApplySmallSectionsFallback | src/parsers/resume_loader.py:257-259 | under 500 characters of sections and a non-empty résumé, OTHER becomes the first 5000 characters of the résumé; nothing else changes |
| Projects.TechNames | src/parsers/project_loader.py:54 | the join raises exactly when some tech item has no name |
| Projects.ProjectToText | src/parsers/project_loader.py:36-60 | raises exactly when a tech item has no name |
| Projects.TextStartsWithTitle | src/parsers/project_loader.py:46-60 | a project with a title starts its text with the title |
| Projects.ScriptTextAddsEmptyTechPart | main.py:246-254 | for an empty tech list the script appends a "Tech: " part that the package leaves out |
| Projects.TextsAgreeOtherwise | main.py:246-254 | except for an empty tech list, both copies give the same text |
| Projects.FindLinkup | src/parsers/project_loader.py:62-83 | the first entry, in list order, whose stripped lower-cased title or slug contains an alias; none exactly when no entry does |
| Projects.PackageFindsNoLater | main.py:238-244 | the package's alias list covers the script's, so it finds the primary project no later |
| Projects.GatherEntries | src/parsers/project_loader.py:124-133 | the extends give courses, then prev, then projects |
| Projects.AllEntries | src/parsers/project_loader.py:124-133 | the gathered entries are the three lists together, as a multiset |
| Projects.LoadProjectJson | src/parsers/project_loader.py:119-151 | nothing for a missing or empty file or no entries; otherwise the entries, the primary project and their texts, or the error the first bad entry raises |
| Projects.ProjectTexts | src/parsers/project_loader.py:143 | each text is that entry's text; raises exactly when some entry does |
| Projects.DataOf | src/parsers/project_loader.py:139-151 | the primary project is the first entry that matches an alias, and its text is that entry's text; none exactly when no entry matches, and then its text is ""; the combined text is the entries' texts joined by the separator |
| Projects.LoadedTextShape | src/parsers/project_loader.py:143-150 | the primary text is the rendering of the primary entry; the combined text starts with the first entry's text and is as long as all texts plus one separator between each two |
| Context.SelectorBudget | src/rag/context_selector.py:26-35 | the budget is the requested one unless it is missing or 0, and then 6000 |
| Context.LinkupMatchFacts | src/rag/context_selector.py:37-64 | the LinkUp block starts at the first alias, keeps the alias, stops at the first blank line followed by two letters (the lookahead under IGNORECASE) or at the end, and is stripped; none exactly when no alias occurs |
| Context.ExtractLinkupFacts | src/rag/context_selector.py:37-64 | the extract is "" exactly when no alias occurs; otherwise it starts with the block cut to the cap |
| Context.ExtractLinkupFromProjects | src/rag/context_selector.py:55-64 | at most the cap plus three characters for the dots |
| Context.Fit | src/rag/context_selector.py:66-124 | fitting keeps what was there, adds only candidates, and stays within the budget |
| Context.FitAppend | src/rag/context_selector.py:88-114 | fitting two candidate lists in a row is fitting their concatenation |
| Context.FitOne | src/rag/context_selector.py:89-94 | one candidate is appended exactly when the running total plus its length fits |
| Context.AddIfFits | src/rag/context_selector.py:89-94 | one fitting step, with the running length kept equal to the total length |
| Context.FitEmpty | src/rag/context_selector.py:116-120 | nothing is kept exactly when every candidate alone exceeds the budget |
| Context.PrioritizeLinkupProject | src/rag/context_selector.py:66-124 | the context is the join of the LinkUp parts |
| Context.AddLinkupCandidates | src/rag/context_selector.py:85-114 | project.json LinkUp text, then the résumé LinkUp block, then the first web text naming LinkUp, each kept while it fits |
| Context.AddLinkupWeb | src/rag/context_selector.py:106-114 | only the first web text that mentions LinkUp is tried, cut to 800 characters |
| Context.LinkupWithinBudget | src/rag/context_selector.py:66-124 | with a budget of at least 200, at most three chunks that fit it, and the joined text exceeds it by at most two newlines |
| Context.LinkupFallbackExactly | src/rag/context_selector.py:116-120 | the PROJECTS fallback, cut to 200 less than the budget, appears exactly when no LinkUp candidate fits and there is a section to fall back on (main.py also needs a positive budget) |
| Context.LinkupContextEmpty | src/rag/context_selector.py:116-124 | the LinkUp-only context is empty exactly when no candidate fits and there is no fallback |
| Context.LinkupPartsAreChunks | src/rag/context_selector.py:88-120 | every LinkUp part is a whole chunk, so none is empty |
| Context.JoinedLength | src/rag/context_selector.py:397 | the joined text has one newline between each two chunks |
| KeywordContext.KeywordContextSearch | src/rag/context_selector.py:126-188 | the context is the join of the keyword parts |
| KeywordContext.AddChunk | src/rag/context_selector.py:151-161 | a text that contains the keyword is cut to the cap and kept while it fits |
| KeywordContext.AddSectionChunks | src/rag/context_selector.py:173-176 | sections in dictionary order, each kept when it matches and fits |
| KeywordContext.AddWebChunks | src/rag/context_selector.py:181-184 | web texts in order, cut to 600 characters |
| KeywordContext.KeywordChunk | src/rag/context_selector.py:151-161 | a chunk is offered exactly when the text is non-empty and contains the keyword, with the text cut to the cap |
| KeywordContext.KeywordCandidatesEmpty | src/rag/context_selector.py:126-188 | nothing is offered exactly when no source contains the keyword |
| KeywordContext.KeywordContextEmpty | src/rag/context_selector.py:126-188 | the keyword context is empty exactly when no candidate fits on its own |
| KeywordContext.KeywordPrefersLinkup | src/rag/context_selector.py:163-167 | a matching project.json LinkUp text comes first whenever it fits |
| GeneralContext.RankContextSources | src/rag/context_selector.py:190-222 | résumé sections (priority 1), web texts (2), SearchAPI text (3) |
| GeneralContext.RankSections | src/rag/context_selector.py:209-212 | one entry per non-empty section, in dictionary order |
| GeneralContext.RankWeb | src/rag/context_selector.py:214-216 | one entry per web text, in order |
| GeneralContext.RankedByPriority | src/rag/context_selector.py:190-222 | priorities never decrease along the ranking |
| GeneralContext.WebPhaseSeesOnlyWeb | src/rag/context_selector.py:380-388 | the web loop adds only web texts, never résumé sections or SearchAPI text |
| GeneralContext.BuildGeneralContext | src/rag/context_selector.py:281-399 | the context is the join of the general parts, phase by phase |
| GeneralContext.BuildLead | src/rag/context_selector.py:296-328 | the lead: project.json LinkUp text, small-résumé names, LinkUp résumé block |
| GeneralContext.AddGeneralBlock | src/rag/context_selector.py:315-328 | the block is tried only for project questions that are not keyword questions |
| GeneralContext.AddBlockChunk | src/rag/context_selector.py:320-328 | the block goes in when it fits, and PROJECTS leaves the names |
| GeneralContext.LinkupBlockReplacesProjects | src/rag/context_selector.py:320-328 | once the LinkUp block is added, PROJECTS is not visited and every other name stays |
| GeneralContext.SmallResumeNames | src/rag/context_selector.py:310-313 | under 1000 characters every non-blank section is visited |
| GeneralContext.NonBlankTopics | src/rag/context_selector.py:313 | exactly the sections whose stripped text is non-empty |
| GeneralContext.AddSections | src/rag/context_selector.py:330-350 | the section loop equals its specification, ending at the first cut |
| GeneralContext.AddSectionContent | src/rag/context_selector.py:333-350 | a section is added whole while it fits, otherwise cut when more than 100 characters are left, and the loop stops |
| GeneralContext.AddFallback | src/rag/context_selector.py:352-371 | the fallback loop equals its specification |
| GeneralContext.AddFallbackContent | src/rag/context_selector.py:355-371 | text capped at 1500 characters; the cut needs more than 200 characters and leaves the running length unchanged |
| GeneralContext.Truncated | src/rag/context_selector.py:344-347 | the cut chunk is five characters shorter than what was left of the budget |
| GeneralContext.AddResumeSections | src/rag/context_selector.py:330-378 | sections, then fallback when nothing was added and under 500 characters are used, then the last resort |
| GeneralContext.LeadBlockOf | src/rag/context_selector.py:315-328 | the block chunk is added exactly when the block is non-empty and fits, and then PROJECTS leaves the names |
| GeneralContext.LastResortWithinBudget | src/rag/context_selector.py:373-378 | the last resort keeps the chunks within a budget of at least 100 |
| GeneralContext.WebPhaseAppend | src/rag/context_selector.py:380-388 | the web loop over two lists in a row is the loop over their concatenation |
| GeneralContext.AddLastResort | src/rag/context_selector.py:373-378 | the start of the full résumé, only when there is no chunk at all |
| GeneralContext.AddWeb | src/rag/context_selector.py:380-388 | the web loop equals its specification |
| GeneralContext.AddSearch | src/rag/context_selector.py:390-395 | SearchAPI text cut to 300 characters while budget is left |
| GeneralContext.AddWebAndSearch | src/rag/context_selector.py:380-395 | the web phase runs only while budget is left, then the SearchAPI tail |
| GeneralContext.SectionsPhaseWithinBudget | src/rag/context_selector.py:330-350 | the section loop keeps earlier chunks and the running length never passes the budget |
| GeneralContext.FallbackPhaseWithinBudget | src/rag/context_selector.py:352-371 | the fallback loop keeps the chunks within the budget |
| GeneralContext.ResumePhasesWithinBudget | src/rag/context_selector.py:330-378 | up to the web phase, the chunks fit a budget of at least 100 |
| GeneralContext.LeadWithinBudget | src/rag/context_selector.py:299-328 | the lead fits the budget and its running length is exact |
| GeneralContext.WebStepWithinBudget | src/rag/context_selector.py:383-388 | with at least 50 characters left, a web text adds at most one chunk and stays within the budget |
| GeneralContext.WebStepNegativeSlice | src/rag/context_selector.py:384-388 | with fewer than 50 characters left, the negative slice bound drops characters from the end instead, and the running length passes the budget |
| Selector.SelectRelevantContext | src/rag/context_selector.py:224-279 | the LinkUp context or the instruction for LinkUp questions; else the keyword context when non-empty; else the general context |
| Selector.LinkupThenInstruction | src/rag/context_selector.py:245-262 | the LinkUp-only context, or the instruction when it is empty |
| Selector.KeywordThenGeneral | src/rag/context_selector.py:264-279 | the keyword context when there is a keyword, project data and a non-empty result; else the general context |
| Selector.LinkupOrInstruction | main.py:653-666 | never empty: the second-person instruction in the package, the first-person one in the script |
| Selector.LinkupQuestionsStayOnLinkup | src/rag/context_selector.py:245-262 | a LinkUp question gets LinkUp parts only, or the instruction, and never an empty context |
| Selector.NoKeywordPathWithoutDataOrKeyword | src/rag/context_selector.py:264-279 | without project data or a keyword, a non-LinkUp question gets the general context |
| Selector.UnmatchedKeywordFallsThrough | src/rag/context_selector.py:264-279 | a keyword found nowhere falls through to the general context |
| Selector.MatchedKeywordIsUsed | src/rag/context_selector.py:264-279 | a keyword with a fitting candidate is answered from the keyword context alone |
| Memory.IsEasyQuestion | src/memory/memory_manager.py:69-95 | the lower-cased, stripped question starts with an easy opening or an introduction, or contains an easy or technology phrase |
| Memory.EasyFollowsHash | src/memory/memory_manager.py:69-95 | easiness depends only on the normalised text the hash uses |
| Memory.Jaccard | src/memory/memory_manager.py:97-114 | between 0 and 1; 0 for an empty set; 1 exactly for equal sets, 0 exactly for disjoint ones |
| Memory.JaccardSymmetric | src/memory/memory_manager.py:97-114 | the similarity is symmetric |
| Memory.QueryOf | src/memory/memory_manager.py:137-143 | the effective threshold: a caller's threshold unless it is missing or 0, else 0.6 for easy and 0.7 for other questions; the script always uses 0.6 for easy questions |
| Memory.Score | src/memory/memory_manager.py:155-159 | Jaccard plus 0.1 for easy on easy, so at most 1.1, and at most 1 for a non-easy question |
| Memory.BestAmongIsFirstMaximum | src/memory/memory_manager.py:145-171 | the match is the first eligible entry with the largest score; none exactly when no entry is eligible |
| Memory.ScanMemory | src/memory/memory_manager.py:145-171 | the scan loop returns the best match |
| Memory.FindSimilarIn | main.py:473-500 | both lookups compute the query once, then scan |
| Memory.VariantsAgree | main.py:473-500 | with consistent flags and no threshold, the script's lookup agrees with the package's |
| Memory.LastEasyIndex | src/memory/memory_manager.py:205-210 | the index of the last entry flagged easy; none exactly when no entry is |
| Memory.FindLastEasy | src/memory/memory_manager.py:205-210 | the backward search finds the last easy entry, or none exactly when there is none |
| Memory.Inserted | src/memory/memory_manager.py:201-215 | the memory after the insertion policy, one entry longer |
| Memory.InsertEntry | src/memory/memory_manager.py:201-215 | easy entries are appended; others go before the last easy entry, or at the end |
| Memory.InsertedIsPermutation | src/memory/memory_manager.py:201-215 | inserting adds the new entry and loses none |
| Memory.InsertedSplitsOld | src/memory/memory_manager.py:201-215 | the old entries keep their order around the new one |
| Memory.NonEasyGoesBeforeLastEasy | src/memory/memory_manager.py:205-215 | a non-easy entry lands just before the last easy one, and only non-easy entries follow it |
| Memory.NonEasyEntryEvictedAtOnce | src/memory/memory_manager.py:201-220 | when the memory is full, a non-easy entry inserted at the front is cut away at once |
| Memory.EasyEntrySurvives | src/memory/memory_manager.py:201-220 | an easy entry is always kept, as the newest |
| Memory.Trimmed | src/memory/memory_manager.py:217-220 | unchanged up to 100 entries; otherwise exactly the last 100 |
| Memory.MemoryManager.FindSimilarQuestion | src/memory/memory_manager.py:116-171 | the best match; none for an empty memory |
| Memory.MemoryManager.StoreInteraction | src/memory/memory_manager.py:173-223 | the memory becomes the trimmed insertion of the new entry; it grows by one until it holds 100 entries and then stays at 100 |
| Memory.MemoryManager.GetMemorySize | src/memory/memory_manager.py:225-232 | the number of entries, never above 100 |
| Memory.MemoryManager.ClearMemory | src/memory/memory_manager.py:234-238 | the memory becomes empty |
| Memory.ScriptStoreInteraction | main.py:503-532 | the caller's list gets the untrimmed insertion; only the saved copy is trimmed |
| Memory.StoreKeepsFlagsConsistent | src/memory/memory_manager.py:173-223 | after a store every flag still matches its question |
| Chatbot.CheckMemoryForCachedAnswer | src/core/chatbot.py:105-167 | an answer is reused only for easy-on-easy matches above 0.75 similarity, non-empty, without "not found", longer than five words, and for a project question not naming the wrong project |
| Chatbot.CacheHitExactly | src/core/chatbot.py:105-167 | reuse happens exactly when every check passes |
| Chatbot.ScriptCachedResponse | main.py:1126-1157 | the script's inline cache test: easy on easy, then the wrong-project check for project questions, then the quality test |
| Chatbot.ScriptCacheAgrees | main.py:1126-1157 | the script's inline cache test decides the same |
| Chatbot.GetMemoryStats | src/core/chatbot.py:265-279 | total is easy plus complex and equals the size; easy is 0 exactly when no entry is easy |
| Chatbot.StoreCountsEasy | src/core/chatbot.py:265-279 | inserting raises the easy count by one exactly for an easy entry |
| Chatbot.Chatbot.AnswerFromMemory | src/core/chatbot.py:183-201 | the cache-hit path: a reused answer is stored again; otherwise the memory is unchanged |
| Scraper.ProcessGithubLinks | src/web/scraper.py:98-144 | only the first three URLs are looked at, and the results follow their order |
| Scraper.AppendProcessed | src/web/scraper.py:113-141 | one URL's result, if any, joins the list |
| Scraper.ProcessedLink | src/web/scraper.py:115-136 | a result exactly when the path has at least two segments and the scrape succeeded with content; it is labelled "GitHub: owner/repo" and holds the README excerpt, or the whole page when there is none |
| Scraper.ProcessedLinks | src/web/scraper.py:113-141 | at most one result per URL, each labelled "GitHub: "; one per URL when every URL gives one |
| Scraper.ProcessedLinksSnoc | src/web/scraper.py:113-141 | one more URL adds its result, if any, at the end and leaves the earlier results as they were |
| Scraper.ReadmeExcerpt | src/web/scraper.py:128-134 | the excerpt starts with "readme" in any case and is at most 1000 characters; none exactly when "readme" does not occur |
| Scraper.ShouldUseWebAugmentation | src/web/scraper.py:146-202 | the search decision, reason and query: thin context always searches, otherwise only project questions do |
| Scraper.ThinContextAlwaysSearches | src/web/scraper.py:172-187 | a context under 800 characters always asks for a search, with a non-empty query |
| Scraper.FullContextSearchesOnlyForProjects | src/web/scraper.py:189-202 | with enough context, a search happens only for a question naming github, repo or project |
| Scraper.RepoNonEmpty | src/web/scraper.py:183-187 | a repository taken from the links is never empty |
| Scraper.GithubRepoHasSlash | src/web/scraper.py:183-185 | a repository match is "owner/repo" |
| TextProcessing.TruncateText | src/utils/text_processing.py:176-192 | unchanged when empty or short enough; otherwise a prefix of the text followed by the suffix, exactly the maximum length when that is at least the suffix's |
| TextProcessing.HashText | src/utils/text_processing.py:153-174 | the empty digest exactly for empty text; otherwise the digest of the lower-cased, stripped text |
| TextProcessing.HashIgnoresCaseAndPadding | src/utils/text_processing.py:153-174 | texts equal up to case and surrounding whitespace hash alike |
| TextProcessing.ExtractAllLinks | src/utils/text_processing.py:78-107 | the set of cleaned URLs; each starts with http(s):// and ends in no trailing punctuation |
| TextProcessing.CleanUrlKeepsScheme | src/utils/text_processing.py:100-104 | stripping trailing punctuation never reaches into the scheme |
| TextProcessing.CategorizeLinks | src/utils/text_processing.py:109-151 | each list holds, in input order, the URLs whose domain picks it; the portfolio list stays empty |
| TextProcessing.CategoryOf | src/utils/text_processing.py:132-139 | GitHub when the lower-cased host contains github.com, else LinkedIn when it contains linkedin.com, else other |
| TextProcessing.CategoriesPartition | src/utils/text_processing.py:109-151 | every URL lands in exactly one list, as often as it occurs |
| TextProcessing.NormalizeWhitespace | src/utils/text_processing.py:194-215 | no double space, no run with three newlines, stripped ends, and the non-whitespace characters kept in order |
| TextProcessing.NormalizeWhitespaceKeepsNormal | src/utils/text_processing.py:194-215 | a text already in that normal form comes back unchanged |
| TextProcessing.NormalizeWhitespaceIdempotent | src/utils/text_processing.py:194-215 | normalising twice is normalising once |
| TextProcessing.CollapseSpaces | src/utils/text_processing.py:210 | no double space remains, and the first character is kept |
| TextProcessing.CollapseSpacesKeepsText | src/utils/text_processing.py:210 | only spaces are dropped: the non-whitespace characters are kept in order |
| TextProcessing.CollapseSpacesIdentity | src/utils/text_processing.py:210 | a text without a double space is unchanged |
| TextProcessing.CollapseBlankLinesKeepsText | src/utils/text_processing.py:213 | whitespace is replaced by whitespace only: the non-whitespace characters are kept in order |
| TextProcessing.CollapseBlankLinesIdentity | src/utils/text_processing.py:213 | a text whose whitespace runs hold at most two newlines is unchanged |
| TextProcessing.StripKeepsText | src/utils/text_processing.py:215 | stripping keeps the non-whitespace characters in order |
| TextProcessing.CollapseBlankLines | src/utils/text_processing.py:213 | every whitespace run holds at most two newlines, and no double space is created |

## Left out

- File reading is not modelled: PDF, DOCX and text extraction, JSON parsing and memory persistence. The loaders start from the text or the parsed records.
- Memory.MemoryManager.Valid: the list read by `_load_memory` is not modelled, so a manager starts empty and holds at most 100 entries in every state it reaches; a memory file edited by hand to hold more would exceed the cap in the program until the next store trims it.
- Web scraping, SearchAPI and the language-model call are not modelled. Scraping is a function parameter. SearchAPI text is a string, "" standing for `None`.
- The timestamp from the clock is a parameter.
- MD5 is not modelled. A digest stands for the normalised text it is computed from.
- Logging and console output are left out.
- `clean_latex_text` and `enforce_first_person_voice` are not part of this model. They rewrite the model's text and do not take part in any decision modelled here.
- Lower-casing is ASCII only, and `re.IGNORECASE` is modelled the same way. Python lower-cases other letters too.
- The class `\w` is ASCII letters, digits and `_` only (`Text.IsWordChar`). Python's `\w` on strings also matches other Unicode letters and digits, so "où" gives the word set {"o"} here and {"où"} in the program, and a question made only of non-ASCII letters has no words here. This affects the word sets of `Memory.QueryOf` and `Memory.PastWords`, the skip of entries without words in the lookup, and the repository pattern `[\w\-]+` of `Scraper.GithubRepo`.
- QueryOf: its word set is the ASCII-only `\w` word set described above, not that of `re.findall(r'\w+')` on non-ASCII text.
- CheckMemoryForCachedAnswer: the recomputed similarity uses the ASCII-only `\w` word sets described above, so for non-ASCII questions it can differ from the program's.
- Memory.Score / Memory.MemoryManager.FindSimilarQuestion: scores are exact reals, while the program adds Python floats. A boosted k/n + 0.1 can round below an equal unboosted score (0.7 + 0.1 is 0.7999999999999999 in floating point), and the program then returns the later entry where the model keeps the earlier one.
- Set iteration order (the résumé's links, and the URL set passed to `categorize_links`) is given as a sequence parameter.
- `urllib.parse.urlparse` is modelled only for `http(s)://host/path` URLs.
- The "FULL_RESUME" marker appended to `added_sections` by the last resort is left out. Nothing reads it after that point.
- Classifier.LinkupOnlyImpliesProjectIntent: stated only for questions without a line break. `\s+` matches a newline where `.*` does not, so "tell me about\nyour project" is LinkUp-only and not a project-intent question.
- GeneralContext.BuildGeneralContext: no bound on the whole output is stated. The web phase can pass the budget (`GeneralContext.WebStepNegativeSlice`), and the fallback's cut does not update the running length.
- The budget of each builder is a parameter; `Context.SelectorBudget` states how the selector fixes it.
