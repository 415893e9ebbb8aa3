/** Python string primitives used throughout the chatbot core, stated over Dafny
    strings (`seq<char>`): whitespace as Python's `str.isspace`, ASCII lower-casing,
    substring tests, `strip`, `split`, `join`, slicing with negative bounds, and the
    `\w+` / `str.split()` tokenisers. */
module Text {

  /** The characters Python's `str.isspace()`, `str.strip()`, `str.split()` and the
      regular-expression class `\s` treat as whitespace. */
  predicate IsSpace(c: char) {
    c == ' ' || c == '\t' || c == '\n' || c == '\U{0B}' || c == '\U{0C}' || c == '\r'
    || ('\U{1C}' <= c <= '\U{1F}') || c == '\U{85}' || c == '\U{A0}' || c == '\U{1680}'
    || ('\U{2000}' <= c <= '\U{200A}') || c == '\U{2028}' || c == '\U{2029}' || c == '\U{202F}'
    || c == '\U{205F}' || c == '\U{3000}'
  }

  /** The regular-expression class `\w`, restricted to ASCII. */
  predicate IsWordChar(c: char) {
    ('a' <= c <= 'z') || ('A' <= c <= 'Z') || ('0' <= c <= '9') || c == '_'
  }

  predicate IsAsciiLetter(c: char) {
    ('a' <= c <= 'z') || ('A' <= c <= 'Z')
  }

  function LowerChar(c: char): (r: char)
    ensures 'A' <= c <= 'Z' ==> r as int == c as int + 32
    ensures !('A' <= c <= 'Z') ==> r == c
  {
    if 'A' <= c <= 'Z' then (c as int + 32) as char else c
  }

  /** `str.lower()` on ASCII letters; every other character is kept. */
  function Lower(s: string): (r: string)
    ensures |r| == |s|
    ensures forall i :: 0 <= i < |s| ==> r[i] == LowerChar(s[i])
  {
    seq(|s|, i requires 0 <= i < |s| => LowerChar(s[i]))
  }

  lemma LowerSlice(s: string, a: int, b: int)
    requires 0 <= a <= b <= |s|
    ensures Lower(s[a..b]) == Lower(s)[a..b]
  {
    var x, m := s[a..b], Lower(s)[a..b];
    forall i | 0 <= i < b - a ensures m[i] == LowerChar(x[i]) {
      assert m[i] == Lower(s)[a + i] && x[i] == s[a + i];
    }
    LowerIs(x, m);
  }

  /** `Lower` is characterised by its characters. */
  lemma LowerIs(x: string, y: string)
    requires |y| == |x| && forall i :: 0 <= i < |x| ==> y[i] == LowerChar(x[i])
    ensures Lower(x) == y
  {
    var l := Lower(x);
    assert forall i :: 0 <= i < |x| ==> l[i] == y[i];
  }

  lemma LowerAppend(s: string, t: string)
    ensures Lower(s + t) == Lower(s) + Lower(t)
  {
  }

  // ---------------------------------------------------------------- substrings

  predicate OccursAt(s: string, p: string, i: int) {
    0 <= i && i + |p| <= |s| && s[i..i + |p|] == p
  }

  /** Python's `p in s` for strings. */
  predicate Contains(s: string, p: string) {
    exists i | 0 <= i <= |s| :: OccursAt(s, p, i)
  }

  /** `any(p in s for p in ps)` */
  predicate ContainsAny(s: string, ps: seq<string>) {
    exists k | 0 <= k < |ps| :: Contains(s, ps[k])
  }

  predicate StartsWith(s: string, p: string) {
    |p| <= |s| && s[..|p|] == p
  }

  predicate EndsWith(s: string, p: string) {
    |p| <= |s| && s[|s| - |p|..] == p
  }

  /** `any(s.startswith(p) for p in ps)` */
  predicate StartsWithAny(s: string, ps: seq<string>) {
    exists k | 0 <= k < |ps| :: StartsWith(s, ps[k])
  }

  lemma ContainsTrans(a: string, b: string, c: string)
    requires Contains(a, b) && Contains(b, c)
    ensures Contains(a, c)
  {
    var i :| 0 <= i <= |a| && OccursAt(a, b, i);
    var j :| 0 <= j <= |b| && OccursAt(b, c, j);
    assert forall k :: 0 <= k < |c| ==> c[k] == b[j + k] == a[i + j + k];
    assert a[i + j..i + j + |c|] == c;
    assert OccursAt(a, c, i + j);
  }

  lemma ContainsSlice(s: string, a: int, b: int, p: string)
    requires 0 <= a <= b <= |s|
    requires Contains(s[a..b], p)
    ensures Contains(s, p)
  {
    var i :| 0 <= i <= b - a && OccursAt(s[a..b], p, i);
    assert forall k :: 0 <= k < |p| ==> p[k] == s[a..b][i + k] == s[a + i + k];
    assert s[a + i..a + i + |p|] == p;
    assert OccursAt(s, p, a + i);
  }

  lemma StartsWithContains(s: string, p: string)
    requires StartsWith(s, p)
    ensures Contains(s, p)
  {
    assert OccursAt(s, p, 0);
  }

  /** A character absent from `s` rules out every pattern containing it. */
  lemma MissingCharNotContained(s: string, p: string, c: char)
    requires c in p && c !in s
    ensures !Contains(s, p)
  {
    var k :| 0 <= k < |p| && p[k] == c;
    forall i | 0 <= i <= |s| ensures !OccursAt(s, p, i) {
      if i + |p| <= |s| {
        assert s[i..i + |p|][k] == s[i + k];
        assert s[i + k] in s;
      }
    }
  }

  // ---------------------------------------------------------------- slicing

  /** Python's `s[:n]`, where a negative `n` counts from the end. */
  function Take<T>(s: seq<T>, n: int): (r: seq<T>)
    ensures n >= 0 ==> r == s[..if n <= |s| then n else |s|]
    ensures n < 0 ==> r == s[..if |s| + n >= 0 then |s| + n else 0]
    ensures |r| <= |s|
    ensures n >= 0 ==> |r| <= n
  {
    if n >= 0 then (if n <= |s| then s[..n] else s)
    else (if |s| + n >= 0 then s[..|s| + n] else [])
  }

  /** Python's `s[-n:]` for `n > 0`: the last `n` elements (all of them if fewer). */
  function TakeLast<T>(s: seq<T>, n: nat): (r: seq<T>)
    ensures |r| == if |s| <= n then |s| else n
    ensures r == s[|s| - |r|..]
  {
    if |s| <= n then s else s[|s| - n..]
  }

  // ---------------------------------------------------------------- strip

  function LeadingSpaces(s: string): (n: nat)
    ensures n <= |s|
    ensures forall i :: 0 <= i < n ==> IsSpace(s[i])
    ensures n < |s| ==> !IsSpace(s[n])
  {
    if s == [] || !IsSpace(s[0]) then 0 else 1 + LeadingSpaces(s[1..])
  }

  function TrailingSpaces(s: string): (n: nat)
    ensures n <= |s|
    ensures forall i :: |s| - n <= i < |s| ==> IsSpace(s[i])
    ensures n < |s| ==> !IsSpace(s[|s| - n - 1])
  {
    if s == [] || !IsSpace(s[|s| - 1]) then 0 else 1 + TrailingSpaces(s[..|s| - 1])
  }

  /** `s.strip() == ""`: the string holds no non-whitespace character. */
  predicate IsBlank(s: string) {
    forall i :: 0 <= i < |s| ==> IsSpace(s[i])
  }

  function LStrip(s: string): (r: string)
    ensures r == s[LeadingSpaces(s)..]
  {
    s[LeadingSpaces(s)..]
  }

  function RStrip(s: string): (r: string)
    ensures r == s[..|s| - TrailingSpaces(s)]
  {
    s[..|s| - TrailingSpaces(s)]
  }

  /** A trailing whitespace character goes with `rstrip()`. */
  lemma RStripDropSpace(s: string)
    requires s != [] && IsSpace(s[|s| - 1])
    ensures RStrip(s) == RStrip(s[..|s| - 1])
  {
    var t := s[..|s| - 1];
    assert TrailingSpaces(s) == 1 + TrailingSpaces(t);
    assert s[..|s| - TrailingSpaces(s)] == t[..|t| - TrailingSpaces(t)];
  }

  /** A string that ends in a visible character is its own `rstrip()`. */
  lemma RStripVisibleEnd(s: string)
    requires s != [] && !IsSpace(s[|s| - 1])
    ensures RStrip(s) == s
  {
    assert TrailingSpaces(s) == 0;
  }

  /** The trailing whitespace of a suffix, stated on the whole string. */
  lemma TrailingSpacesOfSuffix(s: string, a: nat)
    requires a <= |s|
    ensures a + TrailingSpaces(s[a..]) <= |s|
    ensures forall i :: |s| - TrailingSpaces(s[a..]) <= i < |s| ==> IsSpace(s[i])
    ensures a + TrailingSpaces(s[a..]) < |s| ==> !IsSpace(s[|s| - TrailingSpaces(s[a..]) - 1])
  {
    var t := s[a..];
    var n := TrailingSpaces(t);
    forall i | |s| - n <= i < |s| ensures IsSpace(s[i]) {
      assert s[i] == t[i - a];
    }
    if a + n < |s| {
      assert s[|s| - n - 1] == t[|t| - n - 1];
    }
  }

  /** Python's `str.strip()`: a contiguous slice of `s` that neither starts nor
      ends with whitespace, from which only whitespace was removed. */
  function Strip(s: string): (r: string)
    ensures LeadingSpaces(s) + |r| <= |s|
    ensures r == s[LeadingSpaces(s)..LeadingSpaces(s) + |r|]
    ensures forall i :: LeadingSpaces(s) + |r| <= i < |s| ==> IsSpace(s[i])
    ensures r != [] ==> !IsSpace(r[0]) && !IsSpace(r[|r| - 1])
    ensures IsBlank(s) <==> r == []
  {
    var a := LeadingSpaces(s);
    var e := |s| - TrailingSpaces(s[a..]);
    TrailingSpacesOfSuffix(s, a);
    var r := s[a..e];
    assert |r| == e - a;
    assert r != [] ==> r[0] == s[a] && r[|r| - 1] == s[e - 1];
    assert a < e ==> !IsSpace(s[e - 1]);
    assert a == e ==> forall i :: 0 <= i < |s| ==> IsSpace(s[i]);
    r
  }

  /** Without leading whitespace, `strip()` is `rstrip()`. */
  lemma StripOfVisibleStart(s: string)
    requires s != [] && !IsSpace(s[0])
    ensures Strip(s) == RStrip(s)
  {
    assert LeadingSpaces(s) == 0;
    assert s[0..] == s;
  }

  lemma StripOfStripped(s: string)
    requires s == [] || (!IsSpace(s[0]) && !IsSpace(s[|s| - 1]))
    ensures Strip(s) == s
  {
    assert LeadingSpaces(s) == 0;
    assert TrailingSpaces(s) == 0;
  }

  /** Python's `s.rstrip(chars)`. */
  function RStripChars(s: string, chars: set<char>): (r: string)
    ensures |r| <= |s| && r == s[..|r|]
    ensures r != [] ==> r[|r| - 1] !in chars
    ensures forall i :: |r| <= i < |s| ==> s[i] in chars
    decreases |s|
  {
    if s != [] && s[|s| - 1] in chars then RStripChars(s[..|s| - 1], chars) else s
  }

  // ---------------------------------------------------------------- split / join

  function IndexOf(s: string, c: char): (i: nat)
    requires c in s
    ensures i < |s| && s[i] == c && c !in s[..i]
  {
    if s[0] == c then 0 else 1 + IndexOf(s[1..], c)
  }

  /** The prefix one element longer. */
  lemma PrefixSnoc<T>(s: seq<T>, i: nat)
    requires i < |s|
    ensures s[..i + 1] == s[..i] + [s[i]]
  {
  }

  /** Python's `sep.join(parts)`. */
  function Join(sep: string, parts: seq<string>): (r: string)
    ensures |parts| == 1 ==> r == parts[0]
    decreases |parts|
  {
    if |parts| == 0 then ""
    else if |parts| == 1 then parts[0]
    else parts[0] + sep + Join(sep, parts[1..])
  }

  function TotalLen(parts: seq<string>): nat {
    if parts == [] then 0 else |parts[0]| + TotalLen(parts[1..])
  }

  lemma {:induction false} TotalLenAppend(xs: seq<string>, ys: seq<string>)
    ensures TotalLen(xs + ys) == TotalLen(xs) + TotalLen(ys)
  {
    if xs == [] {
      assert xs + ys == ys;
    } else {
      assert (xs + ys)[0] == xs[0];
      assert (xs + ys)[1..] == xs[1..] + ys;
      TotalLenAppend(xs[1..], ys);
    }
  }

  /** The joined string is the parts plus one separator between each two. */
  lemma {:induction false} JoinLength(sep: string, parts: seq<string>)
    ensures |Join(sep, parts)| == TotalLen(parts) + (if parts == [] then 0 else (|parts| - 1) * |sep|)
  {
    if |parts| > 1 {
      JoinLength(sep, parts[1..]);
    }
  }

  lemma JoinEmpty(sep: string, parts: seq<string>)
    requires forall k :: 0 <= k < |parts| ==> parts[k] != ""
    ensures Join(sep, parts) == "" <==> parts == []
  {
    JoinLength(sep, parts);
    if parts != [] {
      assert |parts[0]| > 0;
      assert TotalLen(parts) >= |parts[0]|;
    }
  }

  /** The parts that are not empty, in order. */
  function NonEmpty(parts: seq<string>): (r: seq<string>)
    ensures forall k :: 0 <= k < |r| ==> r[k] != ""
    ensures forall k :: 0 <= k < |r| ==> r[k] in parts
    ensures |r| <= |parts|
  {
    if parts == [] then []
    else (if parts[0] == "" then [] else [parts[0]]) + NonEmpty(parts[1..])
  }

  lemma {:induction false} NonEmptyAppend(a: seq<string>, b: seq<string>)
    ensures NonEmpty(a + b) == NonEmpty(a) + NonEmpty(b)
  {
    if a == [] {
      assert a + b == b;
    } else {
      assert (a + b)[0] == a[0];
      assert (a + b)[1..] == a[1..] + b;
      NonEmptyAppend(a[1..], b);
    }
  }

  /** Python's `s.split(sep)` for a one-character separator: never empty, no piece
      holds the separator, and joining the pieces back gives `s`. */
  function SplitOn(s: string, sep: char): (r: seq<string>)
    ensures |r| >= 1
    ensures forall k :: 0 <= k < |r| ==> sep !in r[k]
    ensures Join([sep], r) == s
    decreases |s|
  {
    if sep !in s then [s]
    else
      var i := IndexOf(s, sep);
      var rest := SplitOn(s[i + 1..], sep);
      assert s == s[..i] + [sep] + s[i + 1..];
      [s[..i]] + rest
  }

  // ---------------------------------------------------------------- tokenisers

  function WordRunLength(s: string): (n: nat)
    ensures n <= |s|
    ensures forall i :: 0 <= i < n ==> IsWordChar(s[i])
    ensures n < |s| ==> !IsWordChar(s[n])
  {
    if s == [] || !IsWordChar(s[0]) then 0 else 1 + WordRunLength(s[1..])
  }

  /** `re.findall(r'\w+', s)`: the maximal runs of word characters, in order. */
  function WordRuns(s: string): (r: seq<string>)
    ensures forall k :: 0 <= k < |r| ==> r[k] != [] && forall i :: 0 <= i < |r[k]| ==> IsWordChar(r[k][i])
    ensures r == [] <==> forall i :: 0 <= i < |s| ==> !IsWordChar(s[i])
    decreases |s|
  {
    if s == [] then []
    else if !IsWordChar(s[0]) then
      var r := WordRuns(s[1..]);
      assert forall i :: 1 <= i < |s| ==> s[i] == s[1..][i - 1];
      r
    else
      var n := WordRunLength(s);
      [s[..n]] + WordRuns(s[n..])
  }

  /** `set(re.findall(r'\w+', s))` */
  function WordSet(s: string): (r: set<string>)
    ensures r == {} <==> forall i :: 0 <= i < |s| ==> !IsWordChar(s[i])
    ensures forall w :: w in r ==> w != []
  {
    var runs := WordRuns(s);
    var r := set k | 0 <= k < |runs| :: runs[k];
    assert runs != [] ==> runs[0] in r;
    r
  }

  function NonSpaceRunLength(s: string): (n: nat)
    ensures n <= |s|
    ensures forall i :: 0 <= i < n ==> !IsSpace(s[i])
    ensures n < |s| ==> IsSpace(s[n])
  {
    if s == [] || IsSpace(s[0]) then 0 else 1 + NonSpaceRunLength(s[1..])
  }

  /** Python's `s.split()`: the maximal runs of non-whitespace characters. */
  function SplitWhitespace(s: string): (r: seq<string>)
    ensures forall k :: 0 <= k < |r| ==> r[k] != [] && forall i :: 0 <= i < |r[k]| ==> !IsSpace(r[k][i])
    ensures r == [] <==> IsBlank(s)
    decreases |s|
  {
    if s == [] then []
    else if IsSpace(s[0]) then
      var r := SplitWhitespace(s[1..]);
      assert forall i :: 1 <= i < |s| ==> s[i] == s[1..][i - 1];
      r
    else
      var n := NonSpaceRunLength(s);
      [s[..n]] + SplitWhitespace(s[n..])
  }
}
