/** The decisions of src/web/scraper.py that do not touch the network: whether
    and what to search the web for, and how the GitHub repositories of the
    résumé are labelled and their README excerpts cut. Fetching a page is a
    function parameter. */
module Scraper {
  import opened Text
  import opened Wrappers
  import opened Config
  import opened Resume
  import opened TextProcessing

  // ---------------------------------------------------------------- searching

  /** The first occurrence of `p` in `s` at or after `i`. */
  function FindFrom(s: string, p: string, i: nat): (r: Option<nat>)
    requires i <= |s|
    ensures r.Some? ==> i <= r.value && OccursAt(s, p, r.value)
                        && forall k :: i <= k < r.value ==> !OccursAt(s, p, k)
    ensures r.None? ==> forall k :: i <= k <= |s| ==> !OccursAt(s, p, k)
    decreases |s| - i
  {
    if OccursAt(s, p, i) then Some(i)
    else if i == |s| then None
    else FindFrom(s, p, i + 1)
  }

  /** The first position at or after `j` where a blank line starts, or the end:
      where `(?=\n\n|\Z)` first holds. */
  function BlankLineOrEnd(s: string, j: nat): (k: nat)
    requires j <= |s|
    ensures j <= k <= |s|
    ensures k < |s| ==> OccursAt(s, "\n\n", k)
    ensures forall m :: j <= m < k ==> !OccursAt(s, "\n\n", m)
    decreases |s| - j
  {
    if j == |s| || OccursAt(s, "\n\n", j) then j else BlankLineOrEnd(s, j + 1)
  }

  const ReadmeCap: nat := 1000

  /** `re.search(r'README.*?(?=\n\n|\Z)', content, re.DOTALL | re.IGNORECASE)`,
      cut to 1000 characters: from the first "readme" in any case up to the
      next blank line or the end. */
  function ReadmeExcerpt(content: string): (r: Option<string>)
    ensures r.Some? ==> 6 <= |r.value| <= ReadmeCap && StartsWith(Lower(r.value), "readme")
    ensures r.None? <==> !Contains(Lower(content), "readme")
  {
    match FindFrom(Lower(content), "readme", 0)
    case None => None
    case Some(i) =>
      var j := BlankLineOrEnd(content, i + 6);
      var excerpt := Take(content[i..j], ReadmeCap);
      ReadmeExcerptStart(content, i, j, excerpt);
      Some(excerpt)
  }

  lemma ReadmeExcerptStart(content: string, i: nat, j: nat, excerpt: string)
    requires i + 6 <= j <= |content| && OccursAt(Lower(content), "readme", i)
    requires excerpt == Take(content[i..j], ReadmeCap)
    ensures 6 <= |excerpt| <= ReadmeCap && StartsWith(Lower(excerpt), "readme")
  {
    var n := |excerpt|;
    assert excerpt == content[i..i + n];
    LowerSlice(content, i, i + n);
    assert Lower(excerpt)[..6] == Lower(content)[i..i + 6];
  }

  // ---------------------------------------------------------------- GitHub links

  /** What fetching a page gives: its title, its text and whether it worked. */
  datatype Page = Page(title: string, content: string, success: bool)

  function PathLength(s: string): (n: nat)
    ensures n <= |s|
    ensures forall k :: 0 <= k < n ==> s[k] != '?' && s[k] != '#'
    ensures n < |s| ==> s[n] == '?' || s[n] == '#'
  {
    if s == [] || s[0] == '?' || s[0] == '#' then 0 else 1 + PathLength(s[1..])
  }

  /** The `path` of `urllib.parse.urlparse`: after the scheme and the network
      location, up to the query or the fragment. */
  function UrlPath(url: string): (r: string)
  {
    var rest := if SchemeEnd(url) > 0 then url[SchemeEnd(url) + 1..] else url;
    var afterNet := if StartsWith(rest, "//") then rest[2 + NetlocLength(rest[2..])..] else rest;
    afterNet[..PathLength(afterNet)]
  }

  function SegmentLength(s: string): (n: nat)
    ensures n <= |s|
    ensures forall k :: 0 <= k < n ==> s[k] != '/'
    ensures n < |s| ==> s[n] == '/'
  {
    if s == [] || s[0] == '/' then 0 else 1 + SegmentLength(s[1..])
  }

  /** `[p for p in path.split('/') if p]`: the maximal runs of characters other
      than `/`, in order. */
  function Segments(s: string): (r: seq<string>)
    ensures forall k :: 0 <= k < |r| ==> r[k] != "" && '/' !in r[k]
    decreases |s|
  {
    if s == [] then []
    else if s[0] == '/' then Segments(s[1..])
    else
      var n := SegmentLength(s);
      [s[..n]] + Segments(s[n..])
  }

  /** The non-empty segments of a URL's path. */
  function PathParts(url: string): (r: seq<string>) {
    Segments(UrlPath(url))
  }

  /** What one URL contributes: nothing when its path has fewer than two
      segments or the fetch failed or came back empty; otherwise the label
      `GitHub: owner/repo` and the README excerpt, or the whole page when it has
      none. */
  function ProcessedLink(url: string, scrape: string -> Page): (r: Option<(string, string)>)
    ensures r.Some? ==> |PathParts(url)| >= 2
                        && r.value.0 == "GitHub: " + (PathParts(url)[0] + "/" + PathParts(url)[1])
    ensures r.Some? <==> |PathParts(url)| >= 2 && scrape(url).success && scrape(url).content != ""
    ensures r.Some? ==> r.value.1 != ""
    ensures r.Some? ==> r.value.1 == match ReadmeExcerpt(scrape(url).content)
                                     case Some(excerpt) => excerpt
                                     case None => scrape(url).content
  {
    var parts := PathParts(url);
    if |parts| < 2 then None
    else
      var page := scrape(url);
      if !(page.success && page.content != "") then None
      else
        var readme := ReadmeExcerpt(page.content);
        var content := if readme.Some? then readme.value else page.content;
        var repoName := parts[0] + "/" + parts[1];
        Some(("GitHub: " + repoName, content))
  }

  /** The results for a list of URLs, in order. */
  function ProcessedLinks(urls: seq<string>, scrape: string -> Page): (r: seq<(string, string)>)
    ensures |r| <= |urls|
    ensures forall k :: 0 <= k < |r| ==> StartsWith(r[k].0, "GitHub: ")
    ensures (forall j :: 0 <= j < |urls| ==> ProcessedLink(urls[j], scrape).Some?) ==> |r| == |urls|
  {
    if urls == [] then []
    else
      var rest := ProcessedLinks(urls[1..], scrape);
      match ProcessedLink(urls[0], scrape)
      case None => rest
      case Some(item) =>
        assert ("GitHub: " + (PathParts(urls[0])[0] + "/" + PathParts(urls[0])[1]))[..8] == "GitHub: ";
        [item] + rest
  }

  lemma {:induction false} ProcessedLinksSnoc(urls: seq<string>, url: string, scrape: string -> Page)
    ensures ProcessedLinks(urls + [url], scrape) ==
            ProcessedLinks(urls, scrape) + (match ProcessedLink(url, scrape) case None => [] case Some(x) => [x])
  {
    if urls == [] {
      assert urls + [url] == [url];
    } else {
      assert (urls + [url])[0] == urls[0];
      assert (urls + [url])[1..] == urls[1..] + [url];
      ProcessedLinksSnoc(urls[1..], url, scrape);
    }
  }

  /** The body of the loop of `process_github_links` for one URL. */
  method ProcessLink(url: string, scrape: string -> Page) returns (item: Option<(string, string)>)
    ensures item == ProcessedLink(url, scrape)
  {
    item := None;
    var parts := PathParts(url);
    if |parts| >= 2 {
      var repoName := parts[0] + "/" + parts[1];
      var page := scrape(url);
      if page.success && page.content != "" {
        var content := page.content;
        var readme := ReadmeExcerpt(content);
        if readme.Some? {
          content := readme.value;
        }
        item := Some(("GitHub: " + repoName, content));
      }
    }
  }

  /** `process_github_links`: only the first three URLs are looked at, so at
      most `min(len(urls), 3)` results come back. */
  method ProcessGithubLinks(githubUrls: seq<string>, scrape: string -> Page)
    returns (results: seq<(string, string)>)
    ensures results == ProcessedLinks(Take(githubUrls, MaxGithubLinks), scrape)
    ensures |results| <= |githubUrls| && |results| <= MaxGithubLinks
  {
    results := [];
    var maxLinks := if |githubUrls| < MaxGithubLinks then |githubUrls| else MaxGithubLinks;
    var urls := githubUrls[..maxLinks];
    var i := 0;
    while i < |urls|
      invariant 0 <= i <= |urls|
      invariant results == ProcessedLinks(urls[..i], scrape)
    {
      results := AppendProcessed(urls, i, scrape, results);
      i := i + 1;
    }
    assert urls[..i] == urls;
  }

  /** One pass of the loop: the URL's result, if any, joins the list. */
  method AppendProcessed(urls: seq<string>, i: nat, scrape: string -> Page, results: seq<(string, string)>)
    returns (results': seq<(string, string)>)
    requires i < |urls| && results == ProcessedLinks(urls[..i], scrape)
    ensures results' == ProcessedLinks(urls[..i + 1], scrape)
  {
    PrefixSnoc(urls, i);
    ProcessedLinksSnoc(urls[..i], urls[i], scrape);
    var item := ProcessLink(urls[i], scrape);
    results' := results;
    if item.Some? {
      results' := results + [item.value];
    }
  }

  // ---------------------------------------------------------------- web augmentation

  /** `(should_use, search_query, reason)` */
  datatype Augmentation = Augmentation(use: bool, query: string, reason: string)

  const NoAugmentation: Augmentation := Augmentation(false, "", "")
  const ThinContext: nat := 800

  /** The stripped non-blank lines, in order. */
  function StrippedLines(lines: seq<string>): (r: seq<string>)
    ensures |r| <= |lines|
    ensures forall k :: 0 <= k < |r| ==> r[k] != ""
  {
    if lines == [] then []
    else (if Strip(lines[0]) == "" then [] else [Strip(lines[0])]) + StrippedLines(lines[1..])
  }

  predicate QueryLine(line: string) {
    10 < |line| < 60 && !StartsWith(line, "-")
  }

  /** The first line that can serve as a search query. */
  function FirstQueryLine(lines: seq<string>): (r: Option<string>)
    ensures r.Some? ==> QueryLine(r.value) && r.value in lines
    ensures r.None? <==> forall k :: 0 <= k < |lines| ==> !QueryLine(lines[k])
  {
    if lines == [] then None
    else if QueryLine(lines[0]) then Some(lines[0])
    else
      assert forall k :: 1 <= k < |lines| ==> lines[k] == lines[1..][k - 1];
      FirstQueryLine(lines[1..])
  }

  predicate IsRepoChar(c: char) {
    IsWordChar(c) || c == '-'
  }

  function RepoRunLength(s: string): (n: nat)
    ensures n <= |s|
    ensures forall k :: 0 <= k < n ==> IsRepoChar(s[k])
    ensures n < |s| ==> !IsRepoChar(s[n])
  {
    if s == [] || !IsRepoChar(s[0]) then 0 else 1 + RepoRunLength(s[1..])
  }

  /** `owner/repo` right after a `github.com/` that starts at `i`. */
  function RepoAt(link: string, i: nat): (r: Option<string>)
    requires OccursAt(link, "github.com/", i)
    ensures r.Some? ==> '/' in r.value
  {
    var rest := link[i + 11..];
    var owner := RepoRunLength(rest);
    if owner == 0 || owner == |rest| || rest[owner] != '/' then None
    else
      var repo := RepoRunLength(rest[owner + 1..]);
      if repo == 0 then None
      else
        assert rest[..owner + 1 + repo][owner] == '/';
        Some(rest[..owner + 1 + repo])
  }

  /** `re.search(r'github\.com/([\w\-]+/[\w\-]+)', link).group(1)`: the first
      `github.com/` followed by an owner and a repository name. */
  function GithubRepo(link: string, from: nat): (r: Option<string>)
    requires from <= |link|
    decreases |link| - from
  {
    match FindFrom(link, "github.com/", from)
    case None => None
    case Some(i) =>
      match RepoAt(link, i)
      case Some(repo) => Some(repo)
      case None => if i < |link| then GithubRepo(link, i + 1) else None
  }

  /** The first link, in the set's iteration order, naming a repository. */
  function FirstRepo(links: seq<string>): (r: Option<string>) {
    if links == [] then None
    else if Contains(links[0], "github.com") && GithubRepo(links[0], 0).Some? then GithubRepo(links[0], 0)
    else FirstRepo(links[1..])
  }

  /** A raw PROJECTS line of the right length for the project-question search. */
  predicate DetailLine(line: string) {
    10 < |line| < 50
  }

  function FirstDetailLine(lines: seq<string>): (r: Option<string>)
    ensures r.Some? ==> DetailLine(r.value) && r.value in lines
    ensures r.None? <==> forall k :: 0 <= k < |lines| ==> !DetailLine(lines[k])
  {
    if lines == [] then None
    else if DetailLine(lines[0]) then Some(lines[0])
    else
      assert forall k :: 1 <= k < |lines| ==> lines[k] == lines[1..][k - 1];
      FirstDetailLine(lines[1..])
  }

  function ProjectsText(sections: Sections): string {
    if Projects in sections then sections[Projects] else ""
  }

  /** `should_use_web_augmentation`. The links are the résumé's URL set in its
      iteration order. */
  function ShouldUseWebAugmentation(question: string, context: string, sections: Sections,
                                    links: seq<string>): (r: Augmentation)
  {
    var projects := ProjectsText(sections);
    if |context| < ThinContext then
      var line := if projects == "" then None else FirstQueryLine(Take(StrippedLines(SplitOn(projects, '\n')), 5));
      if line.Some? then Augmentation(true, Take(line.value, 40) + " github", "resume insufficient")
      else match FirstRepo(links)
        case Some(repo) => Augmentation(true, repo, "resume insufficient")
        case None => Augmentation(true, "portfolio projects", "resume insufficient")
    else if ContainsAny(Lower(question), ["github", "repo", "project"]) && projects != "" then
      match FirstDetailLine(Take(SplitOn(projects, '\n'), 3))
      case Some(line) => Augmentation(true, Strip(line) + " project details", "project-specific question")
      case None => NoAugmentation
    else NoAugmentation
  }

  /** A thin context always asks for a search, and the query is never empty. */
  lemma ThinContextAlwaysSearches(question: string, context: string, sections: Sections, links: seq<string>)
    requires |context| < ThinContext
    ensures var r := ShouldUseWebAugmentation(question, context, sections, links);
            r.use && r.reason == "resume insufficient" && r.query != ""
  {
    var projects := ProjectsText(sections);
    var line := if projects == "" then None else FirstQueryLine(Take(StrippedLines(SplitOn(projects, '\n')), 5));
    if line.Some? {
      assert |Take(line.value, 40) + " github"| > 0;
    } else if FirstRepo(links).Some? {
      RepoNonEmpty(links);
    }
  }

  lemma {:induction false} RepoNonEmpty(links: seq<string>)
    requires FirstRepo(links).Some?
    ensures FirstRepo(links).value != ""
  {
    if !(Contains(links[0], "github.com") && GithubRepo(links[0], 0).Some?) {
      RepoNonEmpty(links[1..]);
    } else {
      GithubRepoHasSlash(links[0], 0);
    }
  }

  lemma {:induction false} GithubRepoHasSlash(link: string, from: nat)
    requires from <= |link| && GithubRepo(link, from).Some?
    ensures '/' in GithubRepo(link, from).value
    decreases |link| - from
  {
    var i := FindFrom(link, "github.com/", from).value;
    if RepoAt(link, i).None? {
      GithubRepoHasSlash(link, i + 1);
    }
  }

  /** With enough context, a search happens only for a question about GitHub,
      repositories or projects, and only from a PROJECTS line among its first
      three; every other question gets `(False, "", "")`. */
  lemma FullContextSearchesOnlyForProjects(question: string, context: string, sections: Sections,
                                           links: seq<string>)
    requires |context| >= ThinContext
    ensures var r := ShouldUseWebAugmentation(question, context, sections, links);
            (r.use ==> r.reason == "project-specific question"
                       && ContainsAny(Lower(question), ["github", "repo", "project"])
                       && EndsWith(r.query, " project details"))
            && (!r.use ==> r == NoAugmentation)
  {
    var r := ShouldUseWebAugmentation(question, context, sections, links);
    if r.use {
      var line := FirstDetailLine(Take(SplitOn(ProjectsText(sections), '\n'), 3)).value;
      var q := Strip(line) + " project details";
      assert q[|q| - 16..] == " project details";
    }
  }
}
