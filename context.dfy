/** Context assembly for the model prompt (`ContextSelector` in
    src/rag/context_selector.py, and the module-level copies in main.py). Three
    builders are tried in order: LinkUp only, keyword, general. Each builder adds
    `--- HEADER ---` chunks to a list, keeps a running count against a character
    budget, and joins the chunks with newlines. */
module Context {
  import opened Text
  import opened Wrappers
  import opened Resume
  import opened Classifier
  import opened Projects
  import opened Variants
  import Config

  // ---------------------------------------------------------------- chunks

  /** `f"--- {header} ---\n" + body + "\n"`: ten characters more than the header
      and the body. */
  function Chunk(header: string, body: string): (r: string)
    ensures |r| == |header| + |body| + 10
  {
    "--- " + header + " ---\n" + body + "\n"
  }

  /** Every element has at least the ten characters a chunk adds. */
  predicate AllChunks(xs: seq<string>) {
    forall k :: 0 <= k < |xs| ==> |xs[k]| >= 10
  }

  lemma AllChunksAppend(a: seq<string>, b: seq<string>)
    requires AllChunks(a) && AllChunks(b)
    ensures AllChunks(a + b)
  {
    forall k | 0 <= k < |a + b| ensures |(a + b)[k]| >= 10 {
      if k >= |a| {
        assert (a + b)[k] == b[k - |a|];
      }
    }
  }

  /** `sections.get(name, "")`. Iterating the dictionary in `DictOrder` and
      reading an absent key as empty visits the same non-empty values as
      `sections.items()`. */
  function Get(sections: Sections, t: Topic): string {
    if t in sections then sections[t] else ""
  }

  /** The selector's budget, `max_context_size or settings.MAX_CONTEXT_SIZE`: an
      absent size and a size of 0 both fall back to the default. */
  function SelectorBudget(requested: Option<int>): (r: int)
    ensures r != 0
    ensures requested.Some? && requested.value != 0 ==> r == requested.value
    ensures requested.None? || requested.value == 0 ==> r == Config.MaxContextSize
  {
    if requested.Some? && requested.value != 0 then requested.value else Config.MaxContextSize
  }

  /** Python's `min` on two integers. */
  function Min(a: int, b: int): int {
    if a <= b then a else b
  }

  // ---------------------------------------------------------------- the LinkUp block

  /** A LinkUp alias, in either spelling, starts at index `i` of the lower-cased
      text `l`. */
  predicate AliasAt(l: string, i: int) {
    OccursAt(l, "linkup", i) || OccursAt(l, "link-up", i)
  }

  /** The first alias at or after `i`: where the block match begins. */
  function FirstAliasFrom(l: string, i: nat): (r: Option<nat>)
    requires i <= |l|
    ensures r.Some? ==> i <= r.value < |l|
    decreases |l| - i
  {
    if i == |l| then None
    else if AliasAt(l, i) then Some(i)
    else FirstAliasFrom(l, i + 1)
  }

  lemma {:induction false} FirstAliasIsFirst(l: string, i: nat)
    requires i <= |l|
    ensures var r := FirstAliasFrom(l, i);
      (r.Some? ==> AliasAt(l, r.value) && forall j :: i <= j < r.value ==> !AliasAt(l, j))
      && (r.None? ==> forall j :: i <= j ==> !AliasAt(l, j))
    decreases |l| - i
  {
    if i < |l| && !AliasAt(l, i) {
      FirstAliasIsFirst(l, i + 1);
    }
  }

  /** `[^\n]*` taken greedily from `k`: the end of the current line. */
  function LineEnd(s: string, k: nat): (r: nat)
    requires k <= |s|
    ensures k <= r <= |s|
    decreases |s| - k
  {
    if k == |s| || s[k] == '\n' then k else LineEnd(s, k + 1)
  }

  /** A line that has no newline up to `m` ends at `m` or later. */
  lemma {:induction false} LineEndAtLeast(s: string, k: nat, m: nat)
    requires k <= m <= |s|
    requires forall j :: k <= j < m ==> s[j] != '\n'
    ensures LineEnd(s, k) >= m
    decreases m - k
  {
    if k < m {
      LineEndAtLeast(s, k + 1, m);
    }
  }

  lemma {:induction false} LineEndIsNewline(s: string, k: nat)
    requires k <= |s|
    ensures LineEnd(s, k) < |s| ==> s[LineEnd(s, k)] == '\n'
    ensures forall j :: k <= j < LineEnd(s, k) ==> s[j] != '\n'
    decreases |s| - k
  {
    if k < |s| && s[k] != '\n' {
      LineEndIsNewline(s, k + 1);
    }
  }

  /** Where the lookahead lets the block end: at the end of the text, or before a
      blank line followed by a word of at least two letters. With IGNORECASE,
      `[A-Z][a-z]+` accepts letters of either case, and the listed names
      (MealLogger, Melo, EXPERIENCE, ...) all begin with two letters. */
  predicate BlockStop(s: string, e: int) {
    e == |s|
    || (0 <= e && e + 4 <= |s| && s[e] == '\n' && s[e + 1] == '\n'
        && IsAsciiLetter(s[e + 2]) && IsAsciiLetter(s[e + 3]))
  }

  /** The lazy `.*?` (DOTALL) from `k`: the first position where the lookahead
      holds. The end of the text always qualifies, so the greedy line part is
      never given back. */
  function BlockEnd(s: string, k: nat): (r: nat)
    requires k <= |s|
    ensures k <= r <= |s|
    decreases |s| - k
  {
    if BlockStop(s, k) then k else BlockEnd(s, k + 1)
  }

  lemma {:induction false} BlockEndIsFirstStop(s: string, k: nat)
    requires k <= |s|
    ensures BlockStop(s, BlockEnd(s, k))
    ensures forall j :: k <= j < BlockEnd(s, k) ==> !BlockStop(s, j)
    decreases |s| - k
  {
    if !BlockStop(s, k) {
      BlockEndIsFirstStop(s, k + 1);
    }
  }

  /** The characters of both alias spellings are neither whitespace nor newlines. */
  predicate Visible(w: string) {
    forall k :: 0 <= k < |w| ==> w[k] != '\n' && !IsSpace(w[k])
  }

  lemma AliasesVisible()
    ensures Visible("linkup") && Visible("link-up")
  {
    var a, b := "linkup", "link-up";
    assert a == ['l', 'i', 'n', 'k', 'u', 'p'];
    assert b == ['l', 'i', 'n', 'k', '-', 'u', 'p'];
  }

  lemma AliasHasNoNewline(s: string, i: nat, w: string)
    requires w == "linkup" || w == "link-up"
    requires OccursAt(Lower(s), w, i)
    ensures forall j :: i <= j < i + |w| ==> s[j] != '\n' && !IsSpace(s[j])
  {
    AliasesVisible();
    var l := Lower(s);
    forall j | i <= j < i + |w| ensures s[j] != '\n' && !IsSpace(s[j]) {
      assert l[j] == w[j - i];
      assert l[j] == LowerChar(s[j]);
    }
  }

  /** `section[i..e]` without its trailing whitespace. */
  function TrimEnd(section: string, i: nat, e: nat): (r: string)
    requires i <= e <= |section|
    ensures i + |r| <= e
    decreases e - i
  {
    if e > i && IsSpace(section[e - 1]) then TrimEnd(section, i, e - 1) else section[i..e]
  }

  lemma {:induction false} TrimEndIsPrefix(section: string, i: nat, e: nat)
    requires i <= e <= |section|
    ensures TrimEnd(section, i, e) == section[i..i + |TrimEnd(section, i, e)|]
    decreases e - i
  {
    if e > i && IsSpace(section[e - 1]) {
      TrimEndIsPrefix(section, i, e - 1);
    }
  }

  lemma TrimEndOccurs(section: string, i: nat, e: nat)
    requires i <= e <= |section|
    ensures OccursAt(section, TrimEnd(section, i, e), i)
  {
    TrimEndIsPrefix(section, i, e);
  }

  /** Trimming stops at the last character that is not whitespace. */
  lemma {:induction false} TrimEndKeeps(section: string, i: nat, e: nat, k: nat)
    requires i <= k < e <= |section| && !IsSpace(section[k])
    ensures |TrimEnd(section, i, e)| > k - i
    decreases e - i
  {
    if IsSpace(section[e - 1]) {
      TrimEndKeeps(section, i, e - 1, k);
    }
  }

  /** Trimming the end is `rstrip()`. */
  lemma {:induction false} TrimEndIsRStrip(section: string, i: nat, e: nat)
    requires i <= e <= |section|
    ensures TrimEnd(section, i, e) == RStrip(section[i..e])
    decreases e - i
  {
    var s := section[i..e];
    if e > i && IsSpace(section[e - 1]) {
      TrimEndIsRStrip(section, i, e - 1);
      assert s[..|s| - 1] == section[i..e - 1];
      assert s[|s| - 1] == section[e - 1];
      RStripDropSpace(s);
    } else if e > i {
      assert s[|s| - 1] == section[e - 1];
      RStripVisibleEnd(s);
    }
  }

  /** For a block that starts with a visible character, trimming the end is
      Python's `strip()`. */
  lemma TrimEndIsStrip(section: string, i: nat, e: nat)
    requires i < e <= |section| && !IsSpace(section[i])
    ensures TrimEnd(section, i, e) == Strip(section[i..e])
  {
    TrimEndIsRStrip(section, i, e);
    var s := section[i..e];
    assert s[0] == section[i];
    StripOfVisibleStart(s);
  }

  /** The match of the LinkUp block regex from position `i`, stripped: the rest
      of the line, then on to the first stop. */
  function BlockAt(section: string, i: nat): string
    requires i <= |section|
  {
    TrimEnd(section, i, BlockEnd(section, LineEnd(section, i)))
  }

  /** The stripped text of the LinkUp block regex match: from the first alias
      (any case) to the end of its line, then on to the first blank line that
      starts a new entry, or to the end. */
  function LinkupMatch(section: string): Option<string> {
    var first := FirstAliasFrom(Lower(section), 0);
    if first.None? then None else Some(BlockAt(section, first.value))
  }

  /** The block is a piece of the section that begins at the first alias, keeps
      the whole alias, and is what `strip()` leaves of the regex match; there is
      none exactly when the section names no alias. */
  lemma LinkupMatchFacts(section: string)
    ensures LinkupMatch(section).None? <==> NoAlias(section)
    ensures LinkupMatch(section).Some? ==>
      var i := FirstAliasFrom(Lower(section), 0).value;
      var e := BlockEnd(section, LineEnd(section, i));
      var b := LinkupMatch(section).value;
      |b| >= 6 && OccursAt(section, b, i) && FirstAliasAt(section, i)
      && BlockStop(section, e) && b == Strip(section[i..e])
  {
    var l := Lower(section);
    FirstAliasIsFirst(l, 0);
    var first := FirstAliasFrom(l, 0);
    if first.Some? {
      var i := first.value;
      assert FirstAliasAt(section, i);
      BlockFacts(section, i);
    }
  }

  /** The block from an alias at `i` keeps the whole alias, lies in the section
      from `i` on, and is the stripped text up to the first stop after the line. */
  lemma BlockFacts(section: string, i: nat)
    requires i <= |section| && AliasAt(Lower(section), i)
    ensures var e := BlockEnd(section, LineEnd(section, i));
      var b := BlockAt(section, i);
      |b| >= 6 && OccursAt(section, b, i) && BlockStop(section, e) && b == Strip(section[i..e])
  {
    var l := Lower(section);
    var w := if OccursAt(l, "linkup", i) then "linkup" else "link-up";
    var n := |w|;
    assert OccursAt(l, w, i) && n >= 6 && i + n <= |section|;
    var le := LineEnd(section, i);
    assert i + n <= le && forall j :: i <= j < i + n ==> !IsSpace(section[j]) by {
      AliasHasNoNewline(section, i, w);
      LineEndAtLeast(section, i, i + n);
    }
    var e := BlockEnd(section, le);
    assert BlockStop(section, e) by {
      BlockEndIsFirstStop(section, le);
    }
    var b := TrimEnd(section, i, e);
    assert b == BlockAt(section, i);
    assert |b| >= 6 by {
      TrimEndKeeps(section, i, e, i + n - 1);
    }
    TrimEndOccurs(section, i, e);
    assert b == Strip(section[i..e]) by {
      TrimEndIsStrip(section, i, e);
    }
  }

  /** No alias occurs anywhere in the section, in any case. */
  ghost predicate NoAlias(section: string) {
    forall j :: 0 <= j ==> !AliasAt(Lower(section), j)
  }

  /** An alias starts at `i`, and none starts before it. */
  predicate FirstAliasAt(section: string, i: nat) {
    AliasAt(Lower(section), i) && forall j :: 0 <= j < i ==> !AliasAt(Lower(section), j)
  }

  /** `_extract_linkup_from_projects`: the LinkUp block, cut to `cap` characters
      plus "..." when longer; "" for an empty section or one that names no alias. */
  function ExtractLinkupFromProjects(section: string, cap: nat): (r: string)
    ensures |r| <= cap + 3
  {
    if section == "" then ""
    else match LinkupMatch(section)
      case None => ""
      case Some(block) => if |block| > cap then block[..cap] + "..." else block
  }

  /** The extracted block is empty exactly when no alias occurs; otherwise it is
      the match, cut to the cap. */
  lemma ExtractLinkupFacts(section: string, cap: nat)
    ensures ExtractLinkupFromProjects(section, cap) == "" <==> NoAlias(section)
    ensures ExtractLinkupFromProjects(section, cap) != "" ==>
      var b := LinkupMatch(section).value;
      StartsWith(ExtractLinkupFromProjects(section, cap), if |b| <= cap then b else b[..cap])
  {
    LinkupMatchFacts(section);
    if section == "" {
      assert Lower(section) == "";
    }
  }

  /** The cap on the LinkUp block: 2000 characters, except 1500 in the general
      branch of main.py. */
  function BlockCap(v: Variant, general: bool): nat {
    if v == Script && general then 1500 else 2000
  }

  // ---------------------------------------------------------------- greedy fitting

  /** Appends each candidate chunk, in order, to `acc` when the running total
      plus the chunk still fits the budget; a chunk that does not fit is skipped
      and later ones are still tried. */
  function Fit(cands: seq<string>, acc: seq<string>, budget: int): (r: seq<string>)
    ensures (acc == [] || TotalLen(acc) <= budget) ==> (r == [] || TotalLen(r) <= budget)
    ensures |acc| <= |r| <= |acc| + |cands|
    ensures r[..|acc|] == acc
    ensures forall k :: |acc| <= k < |r| ==> r[k] in cands
    decreases |cands|
  {
    if cands == [] then acc
    else
      TotalLenAppend(acc, [cands[0]]);
      var next := if TotalLen(acc) + |cands[0]| <= budget then acc + [cands[0]] else acc;
      var r := Fit(cands[1..], next, budget);
      assert r[..|acc|] == next[..|acc|];
      r
  }

  /** Fitting two lists of candidates is fitting the first, then the second. */
  lemma {:induction false} FitAppend(a: seq<string>, b: seq<string>, acc: seq<string>, budget: int)
    ensures Fit(a + b, acc, budget) == Fit(b, Fit(a, acc, budget), budget)
    decreases |a|
  {
    if a == [] {
      assert a + b == b;
    } else {
      assert (a + b)[0] == a[0];
      assert (a + b)[1..] == a[1..] + b;
      var next := if TotalLen(acc) + |a[0]| <= budget then acc + [a[0]] else acc;
      FitAppend(a[1..], b, next, budget);
    }
  }

  /** Fitting a single chunk: appended exactly when it fits. */
  lemma FitOne(c: string, acc: seq<string>, budget: int)
    ensures Fit([c], acc, budget) == if TotalLen(acc) + |c| <= budget then acc + [c] else acc
  {
    assert [c][1..] == [];
  }

  /** Starting from nothing, nothing is kept exactly when every candidate alone is
      larger than the budget. */
  /** With no empty candidate, the joined fit is empty exactly when no
      candidate fits on its own. */
  lemma JoinFitEmpty(cands: seq<string>, budget: int)
    requires forall k :: 0 <= k < |cands| ==> cands[k] != ""
    ensures Join("\n", Fit(cands, [], budget)) == "" <==> forall k :: 0 <= k < |cands| ==> |cands[k]| > budget
  {
    var parts := Fit(cands, [], budget);
    forall k | 0 <= k < |parts| ensures parts[k] != "" {
      assert parts[k] in cands;
    }
    JoinEmpty("\n", parts);
    FitEmpty(cands, budget);
  }

  lemma {:induction false} FitEmpty(cands: seq<string>, budget: int)
    ensures Fit(cands, [], budget) == [] <==> forall k :: 0 <= k < |cands| ==> |cands[k]| > budget
    decreases |cands|
  {
    if cands != [] {
      if |cands[0]| <= budget {
        assert TotalLen([]) + |cands[0]| <= budget;
        assert |Fit(cands, [], budget)| >= 1;
      } else {
        FitEmpty(cands[1..], budget);
        assert forall k :: 1 <= k < |cands| ==> cands[k] == cands[1..][k - 1];
      }
    }
  }

  /** The joined text of chunks: one newline between each two, never counted
      against the budget. */
  lemma JoinedLength(parts: seq<string>)
    ensures |Join("\n", parts)| == if parts == [] then 0 else TotalLen(parts) + |parts| - 1
  {
    JoinLength("\n", parts);
  }

  // ---------------------------------------------------------------- LinkUp only

  const LinkupDataHeader: string := "PROJECT (project.json - LinkUp)"
  const LinkupResumeHeader: string := "RESUME (LinkUp)"
  const ProjectsFallbackHeader: string := "RESUME PROJECTS"

  /** `project_data["linkup_text"]` when project data was loaded, else "". */
  function LinkupText(data: Option<ProjectData>): string {
    if data.Some? then data.value.linkupText else ""
  }

  /** `project_data["text_for_rag"]` when project data was loaded, else "". */
  function RagText(data: Option<ProjectData>): string {
    if data.Some? then data.value.textForRag else ""
  }

  /** `sections.get("PROJECTS") or sections.get("OTHER") or ""` */
  function ProjectsOrOther(sections: Sections): string {
    if Get(sections, Projects) != "" then Get(sections, Projects) else Get(sections, Other)
  }

  /** The section the LinkUp-only builder searches: main.py strips it first. */
  function LinkupSection(v: Variant, sections: Sections): string {
    if v == Package then ProjectsOrOther(sections) else Strip(ProjectsOrOther(sections))
  }

  /** A non-empty web text that mentions LinkUp in either spelling. */
  predicate MentionsLinkup(content: string) {
    content != "" && (Contains(Lower(content), "linkup") || Contains(Lower(content), "link-up"))
  }

  /** The first web item, from index `i` on, whose text mentions LinkUp. */
  function FirstLinkupWeb(web: seq<(string, string)>, i: nat): (r: Option<nat>)
    requires i <= |web|
    ensures r.Some? ==> i <= r.value < |web| && MentionsLinkup(web[r.value].1)
    ensures r.Some? ==> forall j :: i <= j < r.value ==> !MentionsLinkup(web[j].1)
    ensures r.None? ==> forall j :: i <= j < |web| ==> !MentionsLinkup(web[j].1)
    decreases |web| - i
  {
    if i == |web| then None
    else if MentionsLinkup(web[i].1) then Some(i)
    else FirstLinkupWeb(web, i + 1)
  }

  /** The project.json LinkUp chunk, when there is LinkUp text. */
  function DataCandidate(data: Option<ProjectData>): (r: seq<string>)
    ensures |r| <= 1 && AllChunks(r)
  {
    if LinkupText(data) != "" then [Chunk(LinkupDataHeader, LinkupText(data))] else []
  }

  /** The chunk of the résumé's LinkUp block, when there is one. */
  function BlockCandidate(v: Variant, sections: Sections): (r: seq<string>)
    ensures |r| <= 1 && AllChunks(r)
  {
    var block := ExtractLinkupFromProjects(LinkupSection(v, sections), 2000);
    if block != "" then [Chunk(LinkupResumeHeader, block)] else []
  }

  /** The chunk of the first web text that mentions LinkUp, cut to 800
      characters; later web texts are never tried. */
  function WebCandidate(web: seq<(string, string)>): (r: seq<string>)
    ensures |r| <= 1 && AllChunks(r)
  {
    var first := FirstLinkupWeb(web, 0);
    if first.Some? then [Chunk(web[first.value].0, Take(web[first.value].1, 800))] else []
  }

  /** The chunks the LinkUp-only builder tries, in order: the project.json LinkUp
      text, the LinkUp block of the résumé, and the first LinkUp web text. */
  function LinkupCandidates(v: Variant, sections: Sections, data: Option<ProjectData>,
                            web: seq<(string, string)>): (r: seq<string>)
    ensures |r| <= 3
    ensures AllChunks(r)
  {
    var d, b, w := DataCandidate(data), BlockCandidate(v, sections), WebCandidate(web);
    AllChunksAppend(d, b);
    AllChunksAppend(d + b, w);
    d + b + w
  }

  /** The chunks of `prioritize_linkup_project`: the candidates that fit, or,
      when none does, the PROJECTS (or OTHER) section cut to the budget less
      200. main.py also requires a positive budget for that fallback. */
  function LinkupParts(v: Variant, budget: int, sections: Sections, data: Option<ProjectData>,
                       web: seq<(string, string)>): seq<string>
  {
    var fitted := Fit(LinkupCandidates(v, sections, data, web), [], budget);
    var section := LinkupSection(v, sections);
    if fitted == [] && section != "" && (v == Package || 0 < budget) then
      [Chunk(ProjectsFallbackHeader, Take(section, budget - 200))]
    else fitted
  }

  /** `LinkupParts` in terms of the fitted candidates. */
  lemma LinkupPartsOfFitted(v: Variant, budget: int, sections: Sections, data: Option<ProjectData>,
                            web: seq<(string, string)>, fitted: seq<string>)
    requires fitted == Fit(LinkupCandidates(v, sections, data, web), [], budget)
    ensures var section := LinkupSection(v, sections);
      LinkupParts(v, budget, sections, data, web)
      == if fitted == [] && section != "" && (v == Package || 0 < budget)
         then [Chunk(ProjectsFallbackHeader, Take(section, budget - 200))]
         else fitted
  {
  }

  /** One chunk is kept when the running length plus its own stays within the
      budget. */
  method AddIfFits(parts: seq<string>, currentLength: int, chunk: string, budget: int)
    returns (parts': seq<string>, currentLength': int)
    requires currentLength == TotalLen(parts)
    ensures parts' == Fit([chunk], parts, budget)
    ensures currentLength' == TotalLen(parts')
  {
    FitOne(chunk, parts, budget);
    parts', currentLength' := parts, currentLength;
    if currentLength + |chunk| <= budget {
      TotalLenAppend(parts, [chunk]);
      parts' := parts + [chunk];
      currentLength' := currentLength + |chunk|;
    }
  }

  /** The web loop of the LinkUp-only builder: the first web text that mentions
      LinkUp is tried, and the loop ends there whether or not it fits. */
  method AddLinkupWeb(parts: seq<string>, currentLength: int, web: seq<(string, string)>, budget: int)
    returns (parts': seq<string>, currentLength': int)
    requires currentLength == TotalLen(parts)
    ensures parts' == Fit(WebCandidate(web), parts, budget)
    ensures currentLength' == TotalLen(parts')
  {
    parts', currentLength' := parts, currentLength;
    var i := 0;
    while i < |web|
      invariant 0 <= i <= |web|
      invariant forall j :: 0 <= j < i ==> !MentionsLinkup(web[j].1)
    {
      var (source, content) := web[i];
      if MentionsLinkup(content) {
        assert FirstLinkupWeb(web, 0) == Some(i);
        parts', currentLength' := AddIfFits(parts, currentLength, Chunk(source, Take(content, 800)), budget);
        return;
      }
      i := i + 1;
    }
    assert FirstLinkupWeb(web, 0).None?;
  }

  /** The three candidate steps of `prioritize_linkup_project`, in order. */
  method AddLinkupCandidates(v: Variant, budget: int, sections: Sections, data: Option<ProjectData>,
                             web: seq<(string, string)>, projectsSection: string)
    returns (parts: seq<string>, currentLength: int)
    requires projectsSection == LinkupSection(v, sections)
    ensures parts == Fit(LinkupCandidates(v, sections, data, web), [], budget)
    ensures currentLength == TotalLen(parts)
  {
    parts, currentLength := [], 0;
    var lt := LinkupText(data);
    if lt != "" {
      parts, currentLength := AddIfFits(parts, currentLength, Chunk(LinkupDataHeader, lt), budget);
    }
    assert parts == Fit(DataCandidate(data), [], budget);
    ghost var afterData := parts;
    var block := ExtractLinkupFromProjects(projectsSection, 2000);
    if block != "" {
      parts, currentLength := AddIfFits(parts, currentLength, Chunk(LinkupResumeHeader, block), budget);
    }
    assert parts == Fit(BlockCandidate(v, sections), afterData, budget);
    FitAppend(DataCandidate(data), BlockCandidate(v, sections), [], budget);
    parts, currentLength := AddLinkupWeb(parts, currentLength, web, budget);
    FitAppend(DataCandidate(data) + BlockCandidate(v, sections), WebCandidate(web), [], budget);
  }

  /** `prioritize_linkup_project` */
  method PrioritizeLinkupProject(v: Variant, budget: int, sections: Sections, data: Option<ProjectData>,
                                 web: seq<(string, string)>) returns (context: string)
    ensures context == Join("\n", LinkupParts(v, budget, sections, data, web))
  {
    var projectsSection := LinkupSection(v, sections);
    var parts, currentLength := AddLinkupCandidates(v, budget, sections, data, web, projectsSection);
    assert parts == [] ==> currentLength == 0;
    LinkupPartsOfFitted(v, budget, sections, data, web, parts);
    if parts == [] && projectsSection != "" && (v == Package || currentLength < budget) {
      parts := parts + [Chunk(ProjectsFallbackHeader, Take(projectsSection, budget - 200))];
    }
    context := if parts != [] then Join("\n", parts) else "";
  }

  /** With a budget of at least 200 the chunks fit it, and the joined text
      exceeds it by at most the two newlines between three chunks. */
  lemma LinkupWithinBudget(v: Variant, budget: int, sections: Sections, data: Option<ProjectData>,
                           web: seq<(string, string)>)
    requires budget >= 200
    ensures var parts := LinkupParts(v, budget, sections, data, web);
      |parts| <= 3 && TotalLen(parts) <= budget
      && |Join("\n", parts)| <= budget + 2
  {
    var parts := LinkupParts(v, budget, sections, data, web);
    var section := LinkupSection(v, sections);
    var fitted := Fit(LinkupCandidates(v, sections, data, web), [], budget);
    if fitted == [] && section != "" {
      var c := Chunk(ProjectsFallbackHeader, Take(section, budget - 200));
      assert parts == [c];
      assert TotalLen(parts) == |c| <= 15 + budget - 200 + 10;
    }
    JoinedLength(parts);
  }

  /** The general PROJECTS fallback is used exactly when no LinkUp chunk fits on
      its own and there is a section to fall back on. */
  lemma LinkupFallbackExactly(v: Variant, budget: int, sections: Sections, data: Option<ProjectData>,
                              web: seq<(string, string)>)
    ensures var cands := LinkupCandidates(v, sections, data, web);
      var section := LinkupSection(v, sections);
      var fallback := (forall k :: 0 <= k < |cands| ==> |cands[k]| > budget)
                      && section != "" && (v == Package || 0 < budget);
      (fallback ==> LinkupParts(v, budget, sections, data, web)
                      == [Chunk(ProjectsFallbackHeader, Take(section, budget - 200))])
      && (!fallback ==> LinkupParts(v, budget, sections, data, web) == Fit(cands, [], budget))
  {
    FitEmpty(LinkupCandidates(v, sections, data, web), budget);
  }

  /** Every LinkUp part is a chunk, so none is empty. */
  lemma LinkupPartsAreChunks(v: Variant, budget: int, sections: Sections, data: Option<ProjectData>,
                             web: seq<(string, string)>)
    ensures AllChunks(LinkupParts(v, budget, sections, data, web))
  {
    var cands := LinkupCandidates(v, sections, data, web);
    FitKeepsChunks(cands, budget);
  }

  /** Fitting only keeps candidates, so chunks stay chunks. */
  lemma FitKeepsChunks(cands: seq<string>, budget: int)
    requires AllChunks(cands)
    ensures AllChunks(Fit(cands, [], budget))
  {
    var fitted := Fit(cands, [], budget);
    forall k | 0 <= k < |fitted| ensures |fitted[k]| >= 10 {
      assert fitted[k] in cands;
    }
  }

  /** The LinkUp-only context is empty exactly when no candidate fits and there
      is nothing to fall back on; only then does the selector answer with the
      fixed instruction. */
  lemma LinkupContextEmpty(v: Variant, budget: int, sections: Sections, data: Option<ProjectData>,
                           web: seq<(string, string)>)
    ensures var cands := LinkupCandidates(v, sections, data, web);
      Join("\n", LinkupParts(v, budget, sections, data, web)) == ""
      <==> (forall k :: 0 <= k < |cands| ==> |cands[k]| > budget)
           && (LinkupSection(v, sections) == "" || (v == Script && budget <= 0))
  {
    var cands := LinkupCandidates(v, sections, data, web);
    var parts := LinkupParts(v, budget, sections, data, web);
    FitEmpty(cands, budget);
    LinkupPartsAreChunks(v, budget, sections, data, web);
    JoinEmpty("\n", parts);
  }
}
