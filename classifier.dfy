/** Question classification (src/rag/question_classifier.py): which résumé
    sections a question concerns, and which kind of project question it is. All
    tests run on the ASCII-lower-cased question. */
module Classifier {
  import opened Text
  import opened Pattern
  import opened Resume
  import Config

  // ---------------------------------------------------------------- sections

  const ProjectWords: seq<string> := ["project", "built", "developed", "created", "github", "portfolio"]
  const SkillWords: seq<string> :=
    ["skill", "technology", "language", "framework", "tool", "stack", "know", "expertise"]
  const ExperienceWords: seq<string> := ["experience", "work", "job", "role", "position", "company", "hired"]
  const EducationWords: seq<string> := ["education", "degree", "university", "study", "graduate", "academic"]
  const AboutWords: seq<string> := ["about", "yourself", "who", "background", "summary", "overview"]

  const DefaultTopics: seq<Topic> := [Summary, Experience, Skills, Projects]

  /** The topics the keyword groups add, in the order they are added, before
      duplicates are removed. */
  function CandidateTopics(question: string): (r: seq<Topic>)
    ensures Other !in r
  {
    var q := Lower(question);
    (if ContainsAny(q, ProjectWords) then [Projects] else [])
    + (if ContainsAny(q, SkillWords) then [Skills] else [])
    + (if ContainsAny(q, ExperienceWords) then [Experience] else [])
    + (if ContainsAny(q, EducationWords) then [Education] else [])
    + (if ContainsAny(q, AboutWords) then [Summary, Experience, Skills] else [])
  }

  predicate NoDuplicates(xs: seq<Topic>) {
    forall i, j | 0 <= i < j < |xs| :: xs[i] != xs[j]
  }

  /** The position of the first occurrence of `x`. */
  function FirstIndex(xs: seq<Topic>, x: Topic): (i: nat)
    requires x in xs
    ensures i < |xs| && xs[i] == x && x !in xs[..i]
  {
    if xs[0] == x then 0 else 1 + FirstIndex(xs[1..], x)
  }

  /** The list comprehension with a `seen` set: keeps the first occurrence of each
      element not already in `seen`. */
  function DedupFrom(xs: seq<Topic>, seen: set<Topic>): (r: seq<Topic>)
    ensures forall x :: x in r <==> x in xs && x !in seen
    ensures NoDuplicates(r)
  {
    if xs == [] then []
    else if xs[0] in seen then DedupFrom(xs[1..], seen)
    else [xs[0]] + DedupFrom(xs[1..], seen + {xs[0]})
  }

  function Dedup(xs: seq<Topic>): (r: seq<Topic>)
    ensures forall x :: x in r <==> x in xs
    ensures NoDuplicates(r)
  {
    DedupFrom(xs, {})
  }

  /** The deduplicated list keeps first-seen order. */
  lemma {:induction false} DedupFromOrder(xs: seq<Topic>, seen: set<Topic>)
    ensures forall i, j | 0 <= i < j < |DedupFrom(xs, seen)| ::
      FirstIndex(xs, DedupFrom(xs, seen)[i]) < FirstIndex(xs, DedupFrom(xs, seen)[j])
  {
    if xs != [] {
      DedupFromOrder(xs[1..], if xs[0] in seen then seen else seen + {xs[0]});
      var r := DedupFrom(xs, seen);
      var rest := DedupFrom(xs[1..], if xs[0] in seen then seen else seen + {xs[0]});
      forall y | y in rest
        ensures y != xs[0] ==> FirstIndex(xs, y) == 1 + FirstIndex(xs[1..], y)
      {
      }
      if xs[0] in seen {
        assert xs[0] !in rest;
      } else {
        assert r == [xs[0]] + rest;
        assert forall k | 0 <= k < |rest| :: rest[k] != xs[0];
      }
    }
  }

  /** `classify_sections` */
  function ClassifySections(question: string): (r: seq<Topic>)
    ensures r != []
    ensures NoDuplicates(r)
    ensures Other !in r
    ensures CandidateTopics(question) == [] ==> r == DefaultTopics
    ensures CandidateTopics(question) != [] ==> forall t :: t in r <==> t in CandidateTopics(question)
  {
    var candidates := CandidateTopics(question);
    if candidates == [] then
      assert NoDuplicates(DefaultTopics);
      DefaultTopics
    else
      assert candidates[0] in Dedup(candidates);
      Dedup(candidates)
  }

  /** Topics appear in the order their keyword groups first added them. */
  lemma ClassifyKeepsFirstSeenOrder(question: string)
    requires CandidateTopics(question) != []
    ensures forall i, j | 0 <= i < j < |ClassifySections(question)| ::
      FirstIndex(CandidateTopics(question), ClassifySections(question)[i])
      < FirstIndex(CandidateTopics(question), ClassifySections(question)[j])
  {
    DedupFromOrder(CandidateTopics(question), {});
  }

  /** A question that only hits the "about" group, such as "Tell me about
      yourself", gets SUMMARY, EXPERIENCE, SKILLS in that order. */
  lemma AboutOnlyQuestion(question: string)
    requires ContainsAny(Lower(question), AboutWords)
    requires !ContainsAny(Lower(question), ProjectWords) && !ContainsAny(Lower(question), SkillWords)
    requires !ContainsAny(Lower(question), ExperienceWords) && !ContainsAny(Lower(question), EducationWords)
    ensures ClassifySections(question) == [Summary, Experience, Skills]
  {
    AboutCandidates(question);
    DedupSummaryExperienceSkills();
    assert CandidateTopics(question) != [];
  }

  lemma AboutCandidates(question: string)
    requires ContainsAny(Lower(question), AboutWords)
    requires !ContainsAny(Lower(question), ProjectWords) && !ContainsAny(Lower(question), SkillWords)
    requires !ContainsAny(Lower(question), ExperienceWords) && !ContainsAny(Lower(question), EducationWords)
    ensures CandidateTopics(question) == [Summary, Experience, Skills]
  {
  }

  lemma DedupSummaryExperienceSkills()
    ensures Dedup([Summary, Experience, Skills]) == [Summary, Experience, Skills]
  {
    var xs := [Summary, Experience, Skills];
    assert xs[1..] == [Experience, Skills] && xs[1..][1..] == [Skills] && [Skills][1..] == [];
    assert DedupFrom([Skills], {Summary, Experience}) == [Skills];
    assert DedupFrom([Experience, Skills], {Summary}) == [Experience, Skills];
    var none: set<Topic> := {};
    assert none + {Summary} == {Summary};
    assert DedupFrom(xs, none) == xs;
  }

  /** The "about" group appends after what the earlier groups found: a question
      hitting the project group and the "about" group starts with PROJECTS and
      still covers SUMMARY, EXPERIENCE and SKILLS. */
  lemma ProjectThenAbout(question: string)
    requires ContainsAny(Lower(question), ProjectWords) && ContainsAny(Lower(question), AboutWords)
    ensures ClassifySections(question)[0] == Projects
    ensures Summary in ClassifySections(question) && Experience in ClassifySections(question)
    ensures Skills in ClassifySections(question)
  {
    var c := CandidateTopics(question);
    assert c[0] == Projects;
    assert Summary in c && Experience in c && Skills in c;
  }

  /** Matching is by substring: any question mentioning "framework" (for example
      "What frameworks do you use?") also hits the experience group through
      "work", so without project, education or "about" words it gets SKILLS
      followed by EXPERIENCE. */
  lemma FrameworkHitsExperience(question: string)
    requires Contains(Lower(question), "framework")
    requires !ContainsAny(Lower(question), ProjectWords) && !ContainsAny(Lower(question), EducationWords)
    requires !ContainsAny(Lower(question), AboutWords)
    ensures ClassifySections(question) == [Skills, Experience]
  {
    FrameworkCandidates(question);
    DedupSkillsExperience();
    assert CandidateTopics(question) != [];
  }

  lemma FrameworkCandidates(question: string)
    requires Contains(Lower(question), "framework")
    requires !ContainsAny(Lower(question), ProjectWords) && !ContainsAny(Lower(question), EducationWords)
    requires !ContainsAny(Lower(question), AboutWords)
    ensures CandidateTopics(question) == [Skills, Experience]
  {
    var q := Lower(question);
    assert Contains(q, SkillWords[3]);
    assert OccursAt("framework", "work", 5);
    ContainsTrans(q, "framework", "work");
    assert Contains(q, ExperienceWords[1]);
  }

  lemma DedupSkillsExperience()
    ensures Dedup([Skills, Experience]) == [Skills, Experience]
  {
    var xs := [Skills, Experience];
    assert xs[1..] == [Experience] && [Experience][1..] == [];
    assert DedupFrom([Experience], {Skills}) == [Experience];
    var none: set<Topic> := {};
    assert none + {Skills} == {Skills};
    assert DedupFrom(xs, none) == xs;
  }

  // ---------------------------------------------------------------- project intent

  /** `is_project_intent_question`'s patterns, alternations written out. */
  const ProjectIntentPatterns: seq<Pat> := [
    [Lit("walk"), Spaces, Lit("me"), Spaces, Lit("through"), AnyRun, Lit("project")],
    [Lit("tell"), Spaces, Lit("me"), Spaces, Lit("about"), AnyRun, Lit("project")],
    [Lit("describe"), AnyRun, Lit("project")],
    [Lit("what"), AnyRun, Lit("project")],
    [Lit("most"), Spaces, Lit("recent"), Spaces, Lit("project")],
    [Lit("latest"), Spaces, Lit("project")],
    [Lit("main"), Spaces, Lit("project")],
    [Lit("best"), Spaces, Lit("project")],
    [Lit("biggest"), Spaces, Lit("project")],
    [Lit("what"), AnyRun, Lit("built")],
    [Lit("what"), AnyRun, Lit("developed")],
    [Lit("what"), AnyRun, Lit("created")],
    [Lit("show"), Spaces, Lit("me"), AnyRun, Lit("project")],
    [Lit("portfolio"), Spaces, Lit("project")],
    [Lit("explain"), Spaces, Lit("your"), Spaces, Lit("project")],
    [Lit("explain"), Spaces, Lit("this"), Spaces, Lit("project")]
  ]

  /** `requires_linkup_only`'s patterns, alternations and the optional group
      written out. */
  const LinkupOnlyPatterns: seq<Pat> := [
    [Lit("explain"), Spaces, Lit("your"), Spaces, Lit("project")],
    [Lit("explain"), Spaces, Lit("this"), Spaces, Lit("project")],
    [Lit("tell"), Spaces, Lit("me"), Spaces, Lit("about"), Spaces, Lit("your"), Spaces, Lit("project")],
    [Lit("most"), Spaces, Lit("recent"), Spaces, Lit("project")],
    [Lit("main"), Spaces, Lit("project")],
    [Lit("best"), Spaces, Lit("project")],
    [Lit("walk"), Spaces, Lit("me"), Spaces, Lit("through"), Spaces, Lit("project")],
    [Lit("walk"), Spaces, Lit("me"), Spaces, Lit("through"), Spaces, Lit("your"), Spaces, Lit("project")]
  ]

  /** `is_project_intent_question`: some pattern occurs in the lower-cased question. */
  predicate IsProjectIntentQuestion(question: string) {
    SearchAny(Lower(question), ProjectIntentPatterns)
  }

  /** `requires_linkup_only`: some pattern occurs in the lower-cased, stripped
      question. */
  predicate RequiresLinkupOnly(question: string) {
    SearchAny(Strip(Lower(question)), LinkupOnlyPatterns)
  }

  /** `has_explicit_linkup_mention` */
  predicate HasExplicitLinkupMention(question: string) {
    ContainsAny(Lower(question), Config.LinkupNames)
  }

  /** The four kinds of project question. */
  datatype Intent = ExplicitLinkup | LinkupOnly | Keyword | General

  /** The first keyword, in list order, that occurs in `q`; `""` when none does. */
  function FirstKeyword(q: string, keywords: seq<string>): (r: string)
    requires forall k | 0 <= k < |keywords| :: keywords[k] != ""
    ensures r == "" <==> !ContainsAny(q, keywords)
    ensures r != "" ==> exists k | 0 <= k < |keywords| ::
      r == keywords[k] && Contains(q, r) && forall j | 0 <= j < k :: !Contains(q, keywords[j])
  {
    if keywords == [] then ""
    else if Contains(q, keywords[0]) then keywords[0]
    else
      var r := FirstKeyword(q, keywords[1..]);
      assert forall k | 1 <= k < |keywords| :: keywords[k] == keywords[1..][k - 1];
      r
  }

  /** `extract_keyword_from_question` */
  function ExtractKeyword(question: string): (r: string)
    ensures r == "" <==> !ContainsAny(Lower(question), Config.KeywordTechPatterns)
    ensures r != "" ==> r in Config.KeywordTechPatterns && Contains(Lower(question), r)
  {
    FirstKeyword(Lower(question), Config.KeywordTechPatterns)
  }

  /** `detect_project_intent`. The source also evaluates
      `is_project_intent_question` at the end, but returns "general" either way. */
  function DetectProjectIntent(question: string): Intent {
    if HasExplicitLinkupMention(question) then ExplicitLinkup
    else if RequiresLinkupOnly(question) then LinkupOnly
    else if ContainsAny(Lower(question), Config.KeywordTechPatterns) then Keyword
    else General
  }

  /** The precedence of the four intents. */
  lemma DetectIntentPrecedence(question: string)
    ensures DetectProjectIntent(question) == ExplicitLinkup <==> HasExplicitLinkupMention(question)
    ensures DetectProjectIntent(question) == LinkupOnly <==>
      !HasExplicitLinkupMention(question) && RequiresLinkupOnly(question)
    ensures DetectProjectIntent(question) == Keyword <==>
      !HasExplicitLinkupMention(question) && !RequiresLinkupOnly(question) && ExtractKeyword(question) != ""
    ensures DetectProjectIntent(question) == General <==>
      !HasExplicitLinkupMention(question) && !RequiresLinkupOnly(question) && ExtractKeyword(question) == ""
  {
  }

  /** "ai" occurs in "explain", so any question saying "explain" without a LinkUp
      mention or a LinkUp-only phrase is a keyword question, and its keyword is one
      of the patterns listed before "ai". */
  lemma ExplainIsKeywordQuestion(question: string)
    requires Contains(Lower(question), "explain")
    requires !HasExplicitLinkupMention(question) && !RequiresLinkupOnly(question)
    ensures DetectProjectIntent(question) == Keyword
    ensures ExtractKeyword(question) != ""
  {
    var e := "explain";
    assert e[4..6] == "ai";
    assert OccursAt(e, "ai", 4);
    ContainsTrans(Lower(question), "explain", "ai");
    assert Config.KeywordTechPatterns[16] == "ai";
  }

  // ---------------------------------------------------------------- subsumption

  lemma LowerKeepsNewlines(q: string)
    requires NoNewline(q)
    ensures NoNewline(Lower(q))
  {
  }

  /** Either way of writing `\s+your\s+project` or `\s+project` is a `.*project`
      on a line without newlines. */
  lemma TailToAnyRun(s: string, tail: Pat)
    requires NoNewline(s)
    requires tail == [Spaces, Lit("your"), Spaces, Lit("project")] || tail == [Spaces, Lit("project")]
    ensures forall j | 0 <= j <= |s| :: MatchFrom(s, j, tail) ==> MatchFrom(s, j, [AnyRun, Lit("project")])
  {
    forall j | 0 <= j <= |s| && MatchFrom(s, j, tail)
      ensures MatchFrom(s, j, [AnyRun, Lit("project")])
    {
      var pre := tail[..|tail| - 1];
      assert tail == pre + [Lit("project")];
      AbsorbIntoAnyRun(s, j, pre, [Lit("project")]);
      assert [AnyRun] + [Lit("project")] == [AnyRun, Lit("project")];
    }
  }

  /** A LinkUp-only pattern match in `s` gives a project-intent pattern match. */
  lemma LinkupOnlyPatternSubsumed(s: string, k: nat, i: nat)
    requires NoNewline(s) && k < |LinkupOnlyPatterns| && i <= |s|
    requires MatchFrom(s, i, LinkupOnlyPatterns[k])
    ensures SearchAny(s, ProjectIntentPatterns)
  {
    var p := LinkupOnlyPatterns[k];
    if k == 0 {
      assert ProjectIntentPatterns[14] == p;
      assert Search(s, ProjectIntentPatterns[14]);
    } else if k == 1 {
      assert ProjectIntentPatterns[15] == p;
      assert Search(s, ProjectIntentPatterns[15]);
    } else if k == 2 {
      var pre := [Lit("tell"), Spaces, Lit("me"), Spaces, Lit("about")];
      var tail := [Spaces, Lit("your"), Spaces, Lit("project")];
      assert p == pre + tail;
      TailToAnyRun(s, tail);
      MatchCongruence(s, i, pre, tail, [AnyRun, Lit("project")]);
      assert pre + [AnyRun, Lit("project")] == ProjectIntentPatterns[1];
      assert Search(s, ProjectIntentPatterns[1]);
    } else if k == 3 {
      assert ProjectIntentPatterns[4] == p;
      assert Search(s, ProjectIntentPatterns[4]);
    } else if k == 4 {
      assert ProjectIntentPatterns[6] == p;
      assert Search(s, ProjectIntentPatterns[6]);
    } else if k == 5 {
      assert ProjectIntentPatterns[7] == p;
      assert Search(s, ProjectIntentPatterns[7]);
    } else {
      var pre := [Lit("walk"), Spaces, Lit("me"), Spaces, Lit("through")];
      var tail := if k == 6 then [Spaces, Lit("project")] else [Spaces, Lit("your"), Spaces, Lit("project")];
      assert p == pre + tail;
      TailToAnyRun(s, tail);
      MatchCongruence(s, i, pre, tail, [AnyRun, Lit("project")]);
      assert pre + [AnyRun, Lit("project")] == ProjectIntentPatterns[0];
      assert Search(s, ProjectIntentPatterns[0]);
    }
  }

  /** Every LinkUp-only question is a project-intent question, provided it has no
      line break (`.` does not match a newline, while `\s` does). */
  lemma LinkupOnlyImpliesProjectIntent(question: string)
    requires NoNewline(question)
    requires RequiresLinkupOnly(question)
    ensures IsProjectIntentQuestion(question)
  {
    var l := Lower(question);
    LowerKeepsNewlines(question);
    var k :| 0 <= k < |LinkupOnlyPatterns| && Search(Strip(l), LinkupOnlyPatterns[k]);
    SearchStripped(l, LinkupOnlyPatterns[k]);
    var i :| 0 <= i <= |l| && MatchFrom(l, i, LinkupOnlyPatterns[k]);
    LinkupOnlyPatternSubsumed(l, k, i);
  }
}
