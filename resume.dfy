/** The line-based résumé section splitter and the small-sections fallback of
    src/parsers/resume_loader.py. A résumé is cut into six named sections by
    recognising short header lines. */
module Resume {
  import opened Text
  import opened Pattern
  import opened Wrappers

  /** The section names, which the source spells as upper-case strings. */
  datatype Topic = Experience | Projects | Skills | Education | Summary | Other

  function TopicName(t: Topic): (r: string)
    ensures r != ""
  {
    match t
    case Experience => "EXPERIENCE"
    case Projects => "PROJECTS"
    case Skills => "SKILLS"
    case Education => "EDUCATION"
    case Summary => "SUMMARY"
    case Other => "OTHER"
  }

  /** The insertion order of the sections dictionary, which is also the order in
      which the rest of the chatbot iterates it. */
  const DictOrder: seq<Topic> := [Experience, Projects, Skills, Education, Summary, Other]

  lemma DictOrderComplete(t: Topic)
    ensures t in DictOrder
  {
    match t
    case Experience => assert DictOrder[0] == t;
    case Projects => assert DictOrder[1] == t;
    case Skills => assert DictOrder[2] == t;
    case Education => assert DictOrder[3] == t;
    case Summary => assert DictOrder[4] == t;
    case Other => assert DictOrder[5] == t;
  }

  type Sections = map<Topic, string>

  /** Every section key is present, as in the dictionary the splitter starts from. */
  predicate Complete(m: Sections) {
    forall t: Topic :: t in m
  }

  const EmptySections: Sections :=
    map[Experience := "", Projects := "", Skills := "", Education := "", Summary := "", Other := ""]

  lemma EmptySectionsComplete()
    ensures Complete(EmptySections)
    ensures forall t :: EmptySections[t] == ""
  {
    forall t: Topic ensures t in EmptySections && EmptySections[t] == "" {
      match t
      case Experience =>
      case Projects =>
      case Skills =>
      case Education =>
      case Summary =>
      case Other =>
    }
  }

  // ---------------------------------------------------------------- headers

  /** The case-insensitive header patterns, in the order they are tried; each
      alternation and optional group is written out. `re.match` anchors a pattern
      at the start of the line but not at its end, so `projects?` and `skills?`
      behave as their prefixes `project` and `skill`. */
  const HeaderPatterns: seq<(Topic, seq<Pat>)> := [
    (Experience, [[Lit("professional"), Spaces, Lit("experience")], [Lit("experience")],
                  [Lit("work"), Spaces, Lit("history")], [Lit("employment")]]),
    (Projects, [[Lit("project")], [Lit("portfolio")]]),
    (Skills, [[Lit("technical"), Spaces, Lit("skill")], [Lit("skill")],
              [Lit("technologies")], [Lit("expertise")]]),
    (Education, [[Lit("education")], [Lit("academic")], [Lit("qualifications")]]),
    (Summary, [[Lit("summary")], [Lit("about")], [Lit("profile")], [Lit("objective")]])
  ]

  /** Header group `k` matches the start of the stripped line, ignoring ASCII case,
      and the stripped line is shorter than 50 characters. */
  predicate HeaderMatches(line: string, k: int)
    requires 0 <= k < |HeaderPatterns|
  {
    var stripped := Strip(line);
    |stripped| < 50
    && exists j | 0 <= j < |HeaderPatterns[k].1| :: MatchStart(Lower(stripped), HeaderPatterns[k].1[j])
  }

  /** Which header groups match the line, in order. */
  function Hits(line: string): (r: seq<bool>)
    ensures |r| == |HeaderPatterns|
    ensures forall k | 0 <= k < |r| :: r[k] == HeaderMatches(line, k)
  {
    seq(|HeaderPatterns|, k requires 0 <= k < |HeaderPatterns| => HeaderMatches(line, k))
  }

  /** The first index from `k` on that holds `true`, or `|bs|` when there is none. */
  function FirstTrue(bs: seq<bool>, k: nat): (i: nat)
    requires k <= |bs|
    ensures k <= i <= |bs|
    decreases |bs| - k
  {
    if k == |bs| || bs[k] then k else FirstTrue(bs, k + 1)
  }

  lemma {:induction false} FirstTrueSpec(bs: seq<bool>, k: nat)
    requires k <= |bs|
    ensures var i := FirstTrue(bs, k);
      (i < |bs| ==> bs[i]) && forall j | k <= j < i :: !bs[j]
    decreases |bs| - k
  {
    if k < |bs| && !bs[k] {
      FirstTrueSpec(bs, k + 1);
    }
  }

  lemma {:induction false} FirstTrueAt(bs: seq<bool>, k: nat, i: nat)
    requires k <= i < |bs| && bs[i]
    requires forall j | k <= j < i :: !bs[j]
    ensures FirstTrue(bs, k) == i
    decreases i - k
  {
    if k < i {
      FirstTrueAt(bs, k + 1, i);
    }
  }

  /** The section a line opens: the first header group that matches, if any
      (characterised by `HeaderOfFirstMatch`). */
  function HeaderOf(line: string): (r: Option<Topic>)
    ensures r.Some? ==> r.value != Other
  {
    var i := FirstTrue(Hits(line), 0);
    if i < |HeaderPatterns| then Some(HeaderPatterns[i].0) else None
  }

  /** A line is a header exactly when some header group matches it, and then it
      opens the section of the first group that does: EXPERIENCE before PROJECTS
      before SKILLS before EDUCATION before SUMMARY. */
  lemma HeaderOfFirstMatch(line: string)
    ensures HeaderOf(line).None? <==> forall k | 0 <= k < |HeaderPatterns| :: !HeaderMatches(line, k)
    ensures HeaderOf(line).Some? ==> exists k | 0 <= k < |HeaderPatterns| ::
      HeaderPatterns[k].0 == HeaderOf(line).value && HeaderMatches(line, k)
      && forall j | 0 <= j < k :: !HeaderMatches(line, j)
  {
    FirstTrueSpec(Hits(line), 0);
  }

  // ---------------------------------------------------------------- the splitter

  /** The splitter's loop state: the sections filled so far, the section being
      read, and its pending non-blank lines. */
  datatype Scan = Scan(acc: Sections, current: Topic, content: seq<string>)

  const Start: Scan := Scan(EmptySections, Other, [])

  /** Moves the pending lines into the current section, followed by `tail`. */
  function Flush(st: Scan, tail: string): (r: Sections)
    requires Complete(st.acc)
    ensures Complete(r)
  {
    if st.content == [] then st.acc
    else st.acc[st.current := st.acc[st.current] + Join("\n", st.content) + tail]
  }

  /** One line of the loop: a header flushes the pending lines and switches
      section; a blank line is dropped; any other line is kept as it is. */
  function Step(st: Scan, line: string): (r: Scan)
    requires Complete(st.acc)
    ensures Complete(r.acc)
  {
    match HeaderOf(line)
    case Some(t) => Scan(Flush(st, "\n\n"), t, [])
    case None => if IsBlank(line) then st else st.(content := st.content + [line])
  }

  /** The loop state after the given lines. */
  function ScanLines(lines: seq<string>): (r: Scan)
    ensures Complete(r.acc)
  {
    if lines == [] then EmptySectionsComplete(); Start
    else Step(ScanLines(lines[..|lines| - 1]), lines[|lines| - 1])
  }

  /** The final flush, without a trailing blank line, and the strip of every value. */
  function Finish(st: Scan): (r: Sections)
    requires Complete(st.acc)
    ensures Complete(r)
  {
    StripAll(Flush(st, ""))
  }

  /** Every value stripped of surrounding whitespace. */
  function StripAll(m: Sections): (r: Sections)
    ensures r.Keys == m.Keys
    ensures forall t :: t in m ==> r[t] == Strip(m[t])
  {
    map t: Topic | t in m :: Strip(m[t])
  }

  /** The sections of a résumé text, by lines split on `'\n'`. */
  function SectionsOf(text: string): (r: Sections)
    ensures Complete(r)
  {
    Finish(ScanLines(SplitOn(text, '\n')))
  }

  /** The inner loop of `extract_resume_sections`: the header patterns are tried in
      order and the first that matches decides the section. */
  method DetectHeader(line: string) returns (h: Option<Topic>)
    ensures h == HeaderOf(line)
  {
    var k := 0;
    while k < |HeaderPatterns|
      invariant 0 <= k <= |HeaderPatterns|
      invariant forall j | 0 <= j < k :: !HeaderMatches(line, j)
    {
      if HeaderMatches(line, k) {
        FirstTrueAt(Hits(line), 0, k);
        return Some(HeaderPatterns[k].0);
      }
      k := k + 1;
    }
    FirstTrueSpec(Hits(line), 0);
    return None;
  }

  lemma StepOnContent(st: Scan, line: string)
    requires Complete(st.acc) && HeaderOf(line).None?
    ensures Step(st, line) == if Strip(line) == "" then st else st.(content := st.content + [line])
  {
  }

  lemma ScanOneMore(lines: seq<string>, i: nat)
    requires i < |lines|
    ensures ScanLines(lines[..i + 1]) == Step(ScanLines(lines[..i]), lines[i])
  {
    assert lines[..i + 1][..i] == lines[..i];
  }

  /** The body of the line loop of `extract_resume_sections`. */
  method ScanLine(sections0: Sections, current0: Topic, content0: seq<string>, line: string)
    returns (sections: Sections, current: Topic, content: seq<string>)
    requires Complete(sections0)
    ensures Scan(sections, current, content) == Step(Scan(sections0, current0, content0), line)
  {
    sections, current, content := sections0, current0, content0;
    var header := DetectHeader(line);
    match header {
      case Some(t) =>
        if content != [] {
          sections := sections[current := sections[current] + Join("\n", content) + "\n\n"];
        }
        current := t;
        content := [];
      case None =>
        StepOnContent(Scan(sections0, current0, content0), line);
        if Strip(line) != "" {
          content := content + [line];
        }
    }
  }

  /** The line loop of `extract_resume_sections`: its final state is the scan of
      all the lines. */
  method ScanAll(lines: seq<string>) returns (sections: Sections, current: Topic, content: seq<string>)
    ensures Scan(sections, current, content) == ScanLines(lines)
  {
    EmptySectionsComplete();
    sections := EmptySections;
    current := Other;
    content := [];
    var i := 0;
    while i < |lines|
      invariant 0 <= i <= |lines|
      invariant Scan(sections, current, content) == ScanLines(lines[..i])
    {
      sections, current, content := ScanLine(sections, current, content, lines[i]);
      ScanOneMore(lines, i);
      i := i + 1;
    }
    assert lines[..|lines|] == lines;
  }

  /** `extract_resume_sections`: split on newlines, scan, flush the last block and
      strip every section. */
  method ExtractResumeSections(text: string) returns (sections: Sections)
    ensures sections == SectionsOf(text)
    ensures Complete(sections)
  {
    var lines := SplitOn(text, '\n');
    var current, content;
    sections, current, content := ScanAll(lines);
    ghost var last := Scan(sections, current, content);
    if content != [] {
      assert sections[current] + Join("\n", content) + "" == sections[current] + Join("\n", content);
      sections := sections[current := sections[current] + Join("\n", content)];
    }
    assert sections == Flush(last, "");
    sections := StripAll(sections);
  }

  // ---------------------------------------------------------------- properties

  /** The lines a scan keeps pending are non-blank, non-header lines. */
  lemma {:induction false} PendingLinesAreContent(lines: seq<string>)
    ensures forall l :: l in ScanLines(lines).content ==> !IsBlank(l) && HeaderOf(l).None?
  {
    if lines != [] {
      PendingLinesAreContent(lines[..|lines| - 1]);
    }
  }

  function NonBlank(lines: seq<string>): (r: seq<string>)
    ensures forall l :: l in r ==> !IsBlank(l)
  {
    if lines == [] then []
    else NonBlank(lines[..|lines| - 1]) + (if IsBlank(lines[|lines| - 1]) then [] else [lines[|lines| - 1]])
  }

  /** Before the first header, every non-blank line is pending for OTHER, in order. */
  lemma {:induction false} BeforeFirstHeader(lines: seq<string>)
    requires forall l :: l in lines ==> HeaderOf(l).None?
    ensures ScanLines(lines) == Scan(EmptySections, Other, NonBlank(lines))
  {
    if lines != [] {
      assert forall l :: l in lines[..|lines| - 1] ==> l in lines;
      BeforeFirstHeader(lines[..|lines| - 1]);
    }
  }

  /** A résumé with no header line puts all its non-blank lines, joined by newlines
      and stripped, into OTHER, and leaves every other section empty. */
  lemma NoHeaderGoesToOther(text: string)
    requires forall l :: l in SplitOn(text, '\n') ==> HeaderOf(l).None?
    ensures SectionsOf(text)[Other] == Strip(Join("\n", NonBlank(SplitOn(text, '\n'))))
    ensures forall t :: t != Other ==> SectionsOf(text)[t] == ""
  {
    var lines := SplitOn(text, '\n');
    BeforeFirstHeader(lines);
    EmptySectionsComplete();
    var nb := NonBlank(lines);
    var m := Flush(Scan(EmptySections, Other, nb), "");
    assert m[Other] == Join("\n", nb) by {
      if nb != [] {
        assert "" + Join("\n", nb) + "" == Join("\n", nb);
      }
    }
    assert forall t :: t != Other ==> m[t] == "";
  }

  lemma StepGrows(st: Scan, line: string, t: Topic)
    requires Complete(st.acc)
    ensures StartsWith(Step(st, line).acc[t], st.acc[t])
  {
    var a := st.acc[t];
    if HeaderOf(line).Some? && st.content != [] && t == st.current {
      var b := Join("\n", st.content) + "\n\n";
      assert Step(st, line).acc[t] == a + b;
      assert (a + b)[..|a|] == a;
    }
  }

  lemma StartsWithTrans(a: string, b: string, c: string)
    requires StartsWith(a, b) && StartsWith(b, c)
    ensures StartsWith(a, c)
  {
    assert a[..|c|] == a[..|b|][..|c|];
  }

  /** Sections only grow: scanning more lines never changes what was already
      written into a section, it only appends. */
  lemma {:induction false} SectionsOnlyGrow(lines: seq<string>, more: seq<string>, t: Topic)
    ensures StartsWith(ScanLines(lines + more).acc[t], ScanLines(lines).acc[t])
    decreases |more|
  {
    if more == [] {
      assert lines + more == lines;
    } else {
      var all := lines + more;
      var init := more[..|more| - 1];
      LastLineGrows(all, t);
      assert all[..|all| - 1] == lines + init;
      SectionsOnlyGrow(lines, init, t);
      StartsWithTrans(ScanLines(all).acc[t], ScanLines(lines + init).acc[t], ScanLines(lines).acc[t]);
    }
  }

  lemma LastLineGrows(lines: seq<string>, t: Topic)
    requires lines != []
    ensures StartsWith(ScanLines(lines).acc[t], ScanLines(lines[..|lines| - 1]).acc[t])
  {
    StepGrows(ScanLines(lines[..|lines| - 1]), lines[|lines| - 1], t);
  }

  /** A pattern that opens with a literal cannot match at the start of a string
      whose first character differs from the literal's. */
  lemma FirstCharMismatch(s: string, pat: Pat)
    requires s != [] && pat != [] && pat[0].Lit? && pat[0].w != [] && pat[0].w[0] != s[0]
    ensures !MatchStart(s, pat)
  {
    var w := pat[0].w;
    if |w| <= |s| {
      assert s[..|w|][0] == s[0];
    }
  }

  /** A short line starting with "Technologies", in any case, opens SKILLS, so the
      rest of its text is never stored: "Technologies: React, Node" is a header. */
  lemma TechnologiesLineOpensSkills(line: string)
    requires |Strip(line)| < 50
    requires StartsWith(Lower(Strip(line)), "technologies")
    ensures HeaderOf(line) == Some(Skills)
  {
    var l := Lower(Strip(line));
    assert l[0] == l[..12][0] == 't';
    forall k | 0 <= k < 2 ensures !HeaderMatches(line, k) {
      forall j | 0 <= j < |HeaderPatterns[k].1| ensures !MatchStart(l, HeaderPatterns[k].1[j]) {
        FirstCharMismatch(l, HeaderPatterns[k].1[j]);
      }
    }
    assert MatchStart(l, HeaderPatterns[2].1[2]) by {
      assert l[0..12] == "technologies";
    }
    FirstTrueAt(Hits(line), 0, 2);
  }

  // ---------------------------------------------------------------- fallback

  function SumLengths(m: Sections, order: seq<Topic>): nat
    requires forall t :: t in order ==> t in m
  {
    if order == [] then 0 else |m[order[0]]| + SumLengths(m, order[1..])
  }

  /** The total size of all sections. */
  function TotalSectionLength(m: Sections): nat
    requires Complete(m)
  {
    SumLengths(m, DictOrder)
  }

  /** The small-sections fallback of `load_resume`: when the sections hold fewer
      than 500 characters in all and the full text is non-empty, OTHER becomes the
      first 5000 characters of the full text. */
  function ApplySmallSectionsFallback(sections: Sections, fullResume: string): (r: Sections)
    requires Complete(sections)
    ensures Complete(r)
    ensures forall t :: t != Other ==> r[t] == sections[t]
    ensures TotalSectionLength(sections) < 500 && fullResume != "" ==>
      StartsWith(fullResume, r[Other]) && |r[Other]| == if |fullResume| < 5000 then |fullResume| else 5000
    ensures !(TotalSectionLength(sections) < 500 && fullResume != "") ==> r == sections
  {
    if TotalSectionLength(sections) < 500 && fullResume != "" then
      sections[Other := Take(fullResume, 5000)]
    else sections
  }
}
