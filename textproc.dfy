/** The text utilities of src/utils/text_processing.py: URL extraction and
    clean-up, link categorisation, the normalisation behind `hash_text`,
    truncation with a suffix, and whitespace normalisation. */
module TextProcessing {
  import opened Text

  // ---------------------------------------------------------------- truncation

  /** `truncate_text`: unchanged when empty or short enough, otherwise the
      prefix that leaves room for the suffix, followed by the suffix. */
  function TruncateText(text: string, maxLength: int, suffix: string): (r: string)
    ensures text == "" || |text| <= maxLength ==> r == text
    ensures text != "" && |text| > maxLength ==>
      EndsWith(r, suffix) && StartsWith(text, r[..|r| - |suffix|])
    ensures text != "" && |text| > maxLength && maxLength >= |suffix| ==> |r| == maxLength
  {
    if text == [] || |text| <= maxLength then text
    else
      var head := Take(text, maxLength - |suffix|);
      assert (head + suffix)[..|head|] == head;
      assert (head + suffix)[|head|..] == suffix;
      head + suffix
  }

  // ---------------------------------------------------------------- hashing

  /** The MD5 digest is not modelled: a digest is identified by the text it is
      computed from, and the empty text hashes to the empty string. */
  datatype Digest = EmptyDigest | Md5Of(normalised: string)

  /** `hash_text` */
  function HashText(text: string): (r: Digest)
    ensures r == EmptyDigest <==> text == ""
    ensures r.Md5Of? ==> r.normalised == Strip(Lower(text))
  {
    if text == "" then EmptyDigest else Md5Of(Strip(Lower(text)))
  }

  /** Texts equal up to ASCII case and surrounding whitespace hash alike. */
  lemma HashIgnoresCaseAndPadding(a: string, b: string)
    requires a != "" && b != "" && Strip(Lower(a)) == Strip(Lower(b))
    ensures HashText(a) == HashText(b)
  {
  }

  // ---------------------------------------------------------------- links

  /** The character class `[^\s<>"{}|\\^`\[\]\(\)]` of the URL pattern. */
  predicate IsUrlChar(c: char) {
    !IsSpace(c) && c !in "<>\"{}|\\^`[]()"
  }

  function UrlCharRun(s: string, i: nat): (n: nat)
    requires i <= |s|
    ensures i + n <= |s|
    ensures forall k :: i <= k < i + n ==> IsUrlChar(s[k])
    ensures i + n < |s| ==> !IsUrlChar(s[i + n])
    decreases |s| - i
  {
    if i == |s| || !IsUrlChar(s[i]) then 0 else 1 + UrlCharRun(s, i + 1)
  }

  predicate IsHttpUrl(u: string) {
    StartsWith(u, "https://") || StartsWith(u, "http://")
  }

  lemma PrefixOfSlice(s: string, p: string, i: nat, j: nat)
    requires OccursAt(s, p, i) && i + |p| <= j <= |s|
    ensures StartsWith(s[i..j], p)
  {
    assert s[i..j][..|p|] == s[i..i + |p|];
  }

  /** The length of the match of `https?://[^...]+` at index `i`, or 0. */
  function UrlMatchAt(s: string, i: nat): (n: nat)
    requires i <= |s|
    ensures i + n <= |s|
    ensures n > 0 ==> IsHttpUrl(s[i..i + n])
  {
    if OccursAt(s, "https://", i) && UrlCharRun(s, i + 8) > 0 then
      PrefixOfSlice(s, "https://", i, i + 8 + UrlCharRun(s, i + 8));
      8 + UrlCharRun(s, i + 8)
    else if OccursAt(s, "http://", i) && UrlCharRun(s, i + 7) > 0 then
      PrefixOfSlice(s, "http://", i, i + 7 + UrlCharRun(s, i + 7));
      7 + UrlCharRun(s, i + 7)
    else 0
  }

  /** `re.findall` of the URL pattern from index `i`: leftmost matches, each as
      long as possible, scanning on after each one. */
  function FindUrls(s: string, i: nat): (r: seq<string>)
    requires i <= |s|
    ensures forall k | 0 <= k < |r| :: IsHttpUrl(r[k])
    decreases |s| - i
  {
    if i == |s| then []
    else
      var n := UrlMatchAt(s, i);
      if n > 0 then [s[i..i + n]] + FindUrls(s, i + n) else FindUrls(s, i + 1)
  }

  const TrailingPunctuation: set<char> := {'.', ',', ';', ':', '!', '?', ')'}

  /** `url.rstrip('.,;:!?)')` */
  function CleanUrl(url: string): (r: string)
    ensures r == RStripChars(url, TrailingPunctuation)
  {
    RStripChars(url, TrailingPunctuation)
  }

  /** Stripping trailing punctuation never reaches into the scheme: the cleaned
      URL is still an http(s) URL and ends in none of the stripped characters. */
  lemma CleanUrlKeepsScheme(url: string)
    requires IsHttpUrl(url)
    ensures IsHttpUrl(CleanUrl(url))
    ensures CleanUrl(url) != "" && CleanUrl(url)[|CleanUrl(url)| - 1] !in TrailingPunctuation
  {
    var r := CleanUrl(url);
    var p := if StartsWith(url, "https://") then "https://" else "http://";
    assert url[|p| - 1] == url[..|p|][|p| - 1] == '/';
    assert url[|p| - 1] !in TrailingPunctuation;
    assert |r| >= |p|;
    assert r[..|p|] == url[..|p|];
  }

  /** The cleaned URLs of a list. */
  ghost function CleanedSet(urls: seq<string>): set<string> {
    set u | u in urls :: CleanUrl(u)
  }

  /** `extract_all_links`: the set of cleaned URLs. */
  method ExtractAllLinks(text: string) returns (links: set<string>)
    ensures links == CleanedSet(FindUrls(text, 0))
    ensures forall u | u in links :: IsHttpUrl(u) && u[|u| - 1] !in TrailingPunctuation
    ensures text == "" ==> links == {}
  {
    if text == "" {
      return {};
    }
    var urls := FindUrls(text, 0);
    links := {};
    var i := 0;
    while i < |urls|
      invariant 0 <= i <= |urls|
      invariant links == CleanedSet(urls[..i])
      invariant forall u | u in links :: IsHttpUrl(u) && u[|u| - 1] !in TrailingPunctuation
    {
      links := AddCleaned(urls, i, links);
      i := i + 1;
    }
    assert urls[..i] == urls;
  }

  /** One pass of the loop: the cleaned URL joins the set. */
  method AddCleaned(urls: seq<string>, i: nat, links: set<string>) returns (links': set<string>)
    requires i < |urls| && IsHttpUrl(urls[i]) && links == CleanedSet(urls[..i])
    requires forall u | u in links :: IsHttpUrl(u) && u[|u| - 1] !in TrailingPunctuation
    ensures links' == CleanedSet(urls[..i + 1])
    ensures forall u | u in links' :: IsHttpUrl(u) && u[|u| - 1] !in TrailingPunctuation
  {
    var url := CleanUrl(urls[i]);
    CleanUrlKeepsScheme(urls[i]);
    PrefixSnoc(urls, i);
    links' := links;
    if url != "" {
      links' := links + {url};
    }
  }

  /** The `netloc` of `urllib.parse.urlparse`: after a valid scheme and `//`, the
      text up to the first `/`, `?` or `#`. */
  function Netloc(url: string): (r: string)
  {
    var rest := if SchemeEnd(url) > 0 then url[SchemeEnd(url) + 1..] else url;
    if StartsWith(rest, "//") then rest[2..][..NetlocLength(rest[2..])] else ""
  }

  predicate IsSchemeChar(c: char) {
    ('a' <= c <= 'z') || ('A' <= c <= 'Z') || ('0' <= c <= '9') || c == '+' || c == '-' || c == '.'
  }

  /** The length of the leading run of scheme characters. */
  function SchemeCharRun(s: string): (n: nat)
    ensures n <= |s|
  {
    if s == [] || !IsSchemeChar(s[0]) then 0 else 1 + SchemeCharRun(s[1..])
  }

  /** The index of the `:` that ends a valid scheme (an ASCII letter followed by
      scheme characters), or 0 when the URL has none. */
  function SchemeEnd(url: string): (i: nat)
    ensures i > 0 ==> i < |url| && url[i] == ':'
  {
    var n := SchemeCharRun(url);
    if 0 < n < |url| && url[n] == ':' && IsAsciiLetter(url[0]) then n else 0
  }

  function NetlocLength(s: string): (n: nat)
    ensures n <= |s|
    ensures forall k | 0 <= k < n :: s[k] !in "/?#"
  {
    if s == [] || s[0] in "/?#" then 0 else 1 + NetlocLength(s[1..])
  }

  /** The three lists a URL can land in; the 'portfolio' list is never filled. */
  datatype Category = GithubLink | LinkedinLink | OtherLink

  /** The domain test of `categorize_links`: github.com is checked first. */
  function CategoryOf(url: string): Category {
    var domain := Lower(Netloc(url));
    if Contains(domain, "github.com") then GithubLink
    else if Contains(domain, "linkedin.com") then LinkedinLink
    else OtherLink
  }

  datatype LinkCategories = LinkCategories(github: seq<string>, linkedin: seq<string>,
                                           portfolio: seq<string>, other: seq<string>)

  /** The elements of `xs` whose tag is `l`, in order. */
  function Filter<T, L(==)>(xs: seq<T>, tag: T -> L, l: L): (r: seq<T>)
    ensures |r| <= |xs|
  {
    if xs == [] then [] else (if tag(xs[0]) == l then [xs[0]] else []) + Filter(xs[1..], tag, l)
  }

  lemma {:induction false} FilterSnoc<T, L>(xs: seq<T>, x: T, tag: T -> L, l: L)
    ensures Filter(xs + [x], tag, l) == Filter(xs, tag, l) + (if tag(x) == l then [x] else [])
  {
    var last := if tag(x) == l then [x] else [];
    if xs == [] {
      assert (xs + [x])[1..] == [];
      assert Filter(xs + [x], tag, l) == last + [];
    } else {
      var h := if tag(xs[0]) == l then [xs[0]] else [];
      assert (xs + [x])[0] == xs[0];
      assert (xs + [x])[1..] == xs[1..] + [x];
      assert Filter(xs + [x], tag, l) == h + Filter(xs[1..] + [x], tag, l);
      FilterSnoc(xs[1..], x, tag, l);
      assert h + (Filter(xs[1..], tag, l) + last) == (h + Filter(xs[1..], tag, l)) + last;
    }
  }

  /** The URLs of one category, in input order. */
  function InCategory(urls: seq<string>, cat: Category): (r: seq<string>)
    ensures |r| <= |urls|
  {
    Filter(urls, CategoryOf, cat)
  }

  lemma InCategorySnoc(urls: seq<string>, u: string, cat: Category)
    ensures InCategory(urls + [u], cat) == InCategory(urls, cat) + (if CategoryOf(u) == cat then [u] else [])
  {
    FilterSnoc(urls, u, CategoryOf, cat);
  }

  /** The lists after the first `i` URLs. */
  ghost predicate CategorizedUpTo(urls: seq<string>, i: nat, c: LinkCategories) {
    i <= |urls|
    && c.github == InCategory(urls[..i], GithubLink)
    && c.linkedin == InCategory(urls[..i], LinkedinLink)
    && c.other == InCategory(urls[..i], OtherLink)
    && c.portfolio == []
  }

  /** `categorize_links`, with the set's iteration order given as a sequence. */
  method CategorizeLinks(urls: seq<string>) returns (c: LinkCategories)
    ensures c.github == InCategory(urls, GithubLink)
    ensures c.linkedin == InCategory(urls, LinkedinLink)
    ensures c.other == InCategory(urls, OtherLink)
    ensures c.portfolio == []
  {
    c := LinkCategories([], [], [], []);
    var i := 0;
    while i < |urls|
      invariant 0 <= i <= |urls|
      invariant CategorizedUpTo(urls, i, c)
    {
      c := CategorizeLink(urls, i, c);
      i := i + 1;
    }
    assert urls[..i] == urls;
  }

  /** One pass of the loop: the URL goes to the list its domain picks. */
  method CategorizeLink(urls: seq<string>, i: nat, c: LinkCategories) returns (c': LinkCategories)
    requires i < |urls| && CategorizedUpTo(urls, i, c)
    ensures CategorizedUpTo(urls, i + 1, c')
  {
    var url := urls[i];
    PrefixSnoc(urls, i);
    InCategorySnoc(urls[..i], url, GithubLink);
    InCategorySnoc(urls[..i], url, LinkedinLink);
    InCategorySnoc(urls[..i], url, OtherLink);
    var domain := Lower(Netloc(url));
    if Contains(domain, "github.com") {
      c' := c.(github := c.github + [url]);
    } else if Contains(domain, "linkedin.com") {
      c' := c.(linkedin := c.linkedin + [url]);
    } else {
      c' := c.(other := c.other + [url]);
    }
  }

  /** When every tag is one of three distinct values, the three filters
      together hold every element as often as the input does. */
  lemma {:induction false} FilterPartition<T, L>(xs: seq<T>, tag: T -> L, a: L, b: L, c: L)
    requires a != b && b != c && a != c
    requires forall x :: tag(x) == a || tag(x) == b || tag(x) == c
    ensures multiset(Filter(xs, tag, a)) + multiset(Filter(xs, tag, b)) + multiset(Filter(xs, tag, c))
            == multiset(xs)
  {
    if xs != [] {
      var x, t := xs[0], xs[1..];
      FilterPartition(t, tag, a, b, c);
      assert xs == [x] + t;
      FilterConsCount(xs, tag, a);
      FilterConsCount(xs, tag, b);
      FilterConsCount(xs, tag, c);
    }
  }

  /** Filtering a non-empty sequence: the head counts when its tag is `l`. */
  lemma FilterConsCount<T, L>(xs: seq<T>, tag: T -> L, l: L)
    requires xs != []
    ensures multiset(Filter(xs, tag, l))
         == (if tag(xs[0]) == l then multiset{xs[0]} else multiset{}) + multiset(Filter(xs[1..], tag, l))
  {
    if tag(xs[0]) == l {
      assert Filter(xs, tag, l) == [xs[0]] + Filter(xs[1..], tag, l);
    }
  }

  /** Every URL lands in exactly one of the github, linkedin and other lists, as
      many times as it occurs in the input. */
  lemma CategoriesPartition(urls: seq<string>)
    ensures multiset(InCategory(urls, GithubLink)) + multiset(InCategory(urls, LinkedinLink))
            + multiset(InCategory(urls, OtherLink)) == multiset(urls)
  {
    FilterPartition(urls, CategoryOf, GithubLink, LinkedinLink, OtherLink);
  }

  // ---------------------------------------------------------------- whitespace

  predicate NoDoubleSpace(s: string) {
    forall i | 0 <= i < |s| - 1 :: !(s[i] == ' ' && s[i + 1] == ' ')
  }

  function AsciiSpaceRun(s: string): (n: nat)
    ensures n <= |s|
    ensures n < |s| ==> s[n] != ' '
    ensures forall k | 0 <= k < n :: s[k] == ' '
  {
    if s == [] || s[0] != ' ' then 0 else 1 + AsciiSpaceRun(s[1..])
  }

  /** `re.sub(r' +', ' ', s)` */
  function CollapseSpaces(s: string): (r: string)
    ensures NoDoubleSpace(r)
    ensures s != [] ==> r != [] && r[0] == s[0]
    ensures s == [] ==> r == []
    decreases |s|
  {
    if s == [] then []
    else if s[0] == ' ' then
      var n := AsciiSpaceRun(s);
      [' '] + CollapseSpaces(s[n..])
    else [s[0]] + CollapseSpaces(s[1..])
  }

  /** The number of newlines in the whitespace run that starts `s`. */
  function NewlinesInSpaceRun(s: string): (n: nat)
    ensures n <= |s|
  {
    if s == [] || !IsSpace(s[0]) then 0
    else (if s[0] == '\n' then 1 else 0) + NewlinesInSpaceRun(s[1..])
  }

  /** The length of the part of the leading whitespace run of `s` that ends with
      its last newline; 0 when the run holds no newline. */
  function ThroughLastNewline(s: string): (n: nat)
    ensures n <= |s|
    ensures n > 0 ==> s[n - 1] == '\n'
    ensures n == 0 <==> NewlinesInSpaceRun(s) == 0
    ensures NewlinesInSpaceRun(s[n..]) == 0
    ensures forall k | 0 <= k < n :: IsSpace(s[k])
  {
    if s == [] || !IsSpace(s[0]) then 0
    else
      var m := ThroughLastNewline(s[1..]);
      assert s[1..][m..] == s[1 + m..];
      if m > 0 then 1 + m
      else if s[0] == '\n' then 1
      else 0
  }

  /** `re.sub(r'\n\s*\n\s*\n+', '\n\n', s)`: scanning from the left, a newline
      whose whitespace run holds at least three newlines starts a match, which
      extends to the run's last newline and becomes one blank line. Afterwards no
      whitespace run holds more than two newlines. */
  function CollapseBlankLines(s: string): (r: string)
    ensures s != [] ==> r != [] && r[0] == s[0]
    ensures s == [] ==> r == []
    ensures NewlinesInSpaceRun(r) == if NewlinesInSpaceRun(s) >= 3 then 2 else NewlinesInSpaceRun(s)
    ensures forall i | 0 <= i < |r| :: NewlinesInSpaceRun(r[i..]) <= 2
    ensures NoDoubleSpace(s) ==> NoDoubleSpace(r)
    decreases |s|
  {
    if s == [] then []
    else if s[0] == '\n' && NewlinesInSpaceRun(s) >= 3 then
      var rest := CollapseBlankLines(s[ThroughLastNewline(s)..]);
      var r := "\n\n" + rest;
      assert r[1..] == "\n" + rest && r[1..][1..] == rest;
      SuffixRuns("\n\n", rest);
      NoDoubleSpaceSuffix(s, ThroughLastNewline(s));
      r
    else
      var rest := CollapseBlankLines(s[1..]);
      var r := [s[0]] + rest;
      assert r[1..] == rest;
      SuffixRuns([s[0]], rest);
      NoDoubleSpaceSuffix(s, 1);
      r
  }

  /** The suffixes of `h + rest` that start inside `rest` are suffixes of `rest`. */
  lemma SuffixRuns(h: string, rest: string)
    requires forall i | 0 <= i < |rest| :: NewlinesInSpaceRun(rest[i..]) <= 2
    ensures forall i | |h| <= i < |h + rest| :: NewlinesInSpaceRun((h + rest)[i..]) <= 2
  {
    forall i | |h| <= i < |h + rest| ensures NewlinesInSpaceRun((h + rest)[i..]) <= 2 {
      assert (h + rest)[i..] == rest[i - |h|..];
    }
  }

  /** A suffix of a string without double spaces has none either. */
  lemma NoDoubleSpaceSuffix(s: string, k: nat)
    requires k <= |s|
    ensures NoDoubleSpace(s) ==> NoDoubleSpace(s[k..])
  {
    if NoDoubleSpace(s) {
      forall i | 0 <= i < |s[k..]| - 1 ensures !(s[k..][i] == ' ' && s[k..][i + 1] == ' ') {
        assert s[k..][i] == s[k + i] && s[k..][i + 1] == s[k + i + 1];
      }
    }
  }

  /** A prefix of a string has no more newlines in its leading whitespace run. */
  lemma {:induction false} NewlinesInPrefix(s: string, m: nat)
    requires m <= |s|
    ensures NewlinesInSpaceRun(s[..m]) <= NewlinesInSpaceRun(s)
  {
    if m > 0 && IsSpace(s[0]) {
      assert s[..m][1..] == s[1..][..m - 1];
      NewlinesInPrefix(s[1..], m - 1);
    }
  }

  /** A slice has no double space when the string has none. */
  lemma SliceNoDoubleSpace(s: string, a: nat, b: nat)
    requires a <= b <= |s| && NoDoubleSpace(s)
    ensures NoDoubleSpace(s[a..b])
  {
    var r := s[a..b];
    forall i | 0 <= i < |r| - 1 ensures !(r[i] == ' ' && r[i + 1] == ' ') {
      assert r[i] == s[a + i] && r[i + 1] == s[a + i + 1];
    }
  }

  /** No whitespace run of a slice holds more newlines than the string's runs. */
  lemma SliceRunsBounded(s: string, a: nat, b: nat, r: string)
    requires a <= b <= |s| && r == s[a..b]
    requires forall i | 0 <= i < |s| :: NewlinesInSpaceRun(s[i..]) <= 2
    ensures forall i | 0 <= i < |r| :: NewlinesInSpaceRun(r[i..]) <= 2
  {
    forall i | 0 <= i < |r| ensures NewlinesInSpaceRun(r[i..]) <= 2 {
      assert r[i..] == s[a + i..][..b - a - i];
      NewlinesInPrefix(s[a + i..], b - a - i);
    }
  }

  /** Stripping keeps both whitespace properties, as it only cuts off ends. */
  lemma StripKeepsNormalForm(s: string)
    requires NoDoubleSpace(s)
    requires forall i | 0 <= i < |s| :: NewlinesInSpaceRun(s[i..]) <= 2
    ensures NoDoubleSpace(Strip(s))
    ensures forall i | 0 <= i < |Strip(s)| :: NewlinesInSpaceRun(Strip(s)[i..]) <= 2
  {
    var r := Strip(s);
    var a := LeadingSpaces(s);
    SliceNoDoubleSpace(s, a, a + |r|);
    SliceRunsBounded(s, a, a + |r|, r);
  }

  /** `normalize_whitespace`: runs of spaces become one space, a whitespace run
      with three or more newlines becomes a blank line, and the result is
      stripped. */
  function NormalizeWhitespace(text: string): (r: string)
    ensures text == "" ==> r == ""
    ensures NoDoubleSpace(r)
    ensures r != "" ==> !IsSpace(r[0]) && !IsSpace(r[|r| - 1])
    ensures forall i | 0 <= i < |r| :: NewlinesInSpaceRun(r[i..]) <= 2
    ensures NonSpace(r) == NonSpace(text)
  {
    if text == "" then ""
    else
      var c := CollapseSpaces(text);
      var s := CollapseBlankLines(c);
      StripKeepsNormalForm(s);
      CollapseSpacesKeepsText(text);
      CollapseBlankLinesKeepsText(c);
      StripKeepsText(s);
      Strip(s)
  }

  /** A text already in normal form comes back unchanged. */
  lemma NormalizeWhitespaceKeepsNormal(t: string)
    requires NoDoubleSpace(t)
    requires forall i | 0 <= i < |t| :: NewlinesInSpaceRun(t[i..]) <= 2
    requires t != "" ==> !IsSpace(t[0]) && !IsSpace(t[|t| - 1])
    ensures NormalizeWhitespace(t) == t
  {
    if t != "" {
      CollapseSpacesIdentity(t);
      CollapseBlankLinesIdentity(t);
      StripIdentity(t);
    }
  }

  /** Normalising twice is normalising once. */
  lemma NormalizeWhitespaceIdempotent(text: string)
    ensures NormalizeWhitespace(NormalizeWhitespace(text)) == NormalizeWhitespace(text)
  {
    NormalizeWhitespaceKeepsNormal(NormalizeWhitespace(text));
  }

  // ---------------------------------------------------------------- kept text

  /** The characters of `s` that are not whitespace, in order: what whitespace
      normalisation must keep. */
  function NonSpace(s: string): (r: string)
    ensures |r| <= |s|
    ensures forall k | 0 <= k < |r| :: !IsSpace(r[k])
  {
    if s == [] then []
    else (if IsSpace(s[0]) then [] else [s[0]]) + NonSpace(s[1..])
  }

  lemma {:induction false} NonSpaceAppend(a: string, b: string)
    ensures NonSpace(a + b) == NonSpace(a) + NonSpace(b)
  {
    if a == [] {
      assert a + b == b;
    } else {
      assert (a + b)[0] == a[0] && (a + b)[1..] == a[1..] + b;
      NonSpaceAppend(a[1..], b);
    }
  }

  lemma {:induction false} NonSpaceOfBlank(s: string)
    requires IsBlank(s)
    ensures NonSpace(s) == []
  {
    if s != [] {
      assert IsBlank(s[1..]) by {
        forall i | 0 <= i < |s[1..]| ensures IsSpace(s[1..][i]) {
          assert s[1..][i] == s[i + 1];
        }
      }
      NonSpaceOfBlank(s[1..]);
    }
  }

  /** Dropping a blank prefix of `s` keeps its non-whitespace characters. */
  lemma NonSpaceDropBlank(s: string, n: nat)
    requires n <= |s| && IsBlank(s[..n])
    ensures NonSpace(s) == NonSpace(s[n..])
  {
    assert s == s[..n] + s[n..];
    NonSpaceAppend(s[..n], s[n..]);
    NonSpaceOfBlank(s[..n]);
  }

  /** Collapsing spaces drops only spaces. */
  lemma {:induction false} CollapseSpacesKeepsText(s: string)
    ensures NonSpace(CollapseSpaces(s)) == NonSpace(s)
    decreases |s|
  {
    if s != [] {
      if s[0] == ' ' {
        var n := AsciiSpaceRun(s);
        NonSpaceDropBlank(s, n);
        CollapseSpacesKeepsText(s[n..]);
        NonSpaceAppend([' '], CollapseSpaces(s[n..]));
      } else {
        CollapseSpacesKeepsText(s[1..]);
        NonSpaceAppend([s[0]], CollapseSpaces(s[1..]));
        NonSpaceAppend([s[0]], s[1..]);
        assert s == [s[0]] + s[1..];
      }
    }
  }

  /** Collapsing blank lines replaces whitespace by whitespace only. */
  lemma {:induction false} CollapseBlankLinesKeepsText(s: string)
    ensures NonSpace(CollapseBlankLines(s)) == NonSpace(s)
    decreases |s|
  {
    if s != [] {
      if s[0] == '\n' && NewlinesInSpaceRun(s) >= 3 {
        var n := ThroughLastNewline(s);
        NonSpaceDropBlank(s, n);
        CollapseBlankLinesKeepsText(s[n..]);
        NonSpaceAppend("\n\n", CollapseBlankLines(s[n..]));
        NonSpaceOfBlank("\n\n");
      } else {
        CollapseBlankLinesKeepsText(s[1..]);
        NonSpaceAppend([s[0]], CollapseBlankLines(s[1..]));
        NonSpaceAppend([s[0]], s[1..]);
        assert s == [s[0]] + s[1..];
      }
    }
  }

  /** Stripping cuts off whitespace only. */
  lemma StripKeepsText(s: string)
    ensures NonSpace(Strip(s)) == NonSpace(s)
  {
    var r := Strip(s);
    var a := LeadingSpaces(s);
    var t := s[a..];
    var u := s[a + |r|..];
    NonSpaceDropBlank(s, a);
    assert t == r + u;
    assert IsBlank(u) by {
      forall i | 0 <= i < |u| ensures IsSpace(u[i]) {
        assert u[i] == s[a + |r| + i];
      }
    }
    NonSpaceAppend(r, u);
    NonSpaceOfBlank(u);
  }

  // ---------------------------------------------------------------- normal form

  /** Without two spaces in a row, collapsing spaces changes nothing. */
  lemma {:induction false} CollapseSpacesIdentity(s: string)
    requires NoDoubleSpace(s)
    ensures CollapseSpaces(s) == s
    decreases |s|
  {
    if s != [] {
      NoDoubleSpaceSuffix(s, 1);
      if s[0] == ' ' && |s| > 1 {
        assert s[1..][0] == s[1];
      }
      CollapseSpacesIdentity(s[1..]);
      assert s == [s[0]] + s[1..];
    }
  }

  /** When no whitespace run holds three newlines, collapsing blank lines
      changes nothing. */
  lemma {:induction false} CollapseBlankLinesIdentity(s: string)
    requires forall i | 0 <= i < |s| :: NewlinesInSpaceRun(s[i..]) <= 2
    ensures CollapseBlankLines(s) == s
    decreases |s|
  {
    if s != [] {
      assert s[0..] == s;
      forall i | 0 <= i < |s[1..]| ensures NewlinesInSpaceRun(s[1..][i..]) <= 2 {
        assert s[1..][i..] == s[i + 1..];
      }
      CollapseBlankLinesIdentity(s[1..]);
      assert s == [s[0]] + s[1..];
    }
  }

  /** A string without whitespace at either end is its own strip. */
  lemma StripIdentity(s: string)
    requires s != "" ==> !IsSpace(s[0]) && !IsSpace(s[|s| - 1])
    ensures Strip(s) == s
  {
    if s != "" {
      assert LeadingSpaces(s) == 0;
    }
  }
}
