/** The fragment of Python's `re` syntax the chatbot's fixed pattern lists use:
    literal text, `\s+` and `.*` (without DOTALL, so `.` never matches a newline).
    An alternation such as `(your|this)` or an optional group `(your\s+)?` is
    written out as several patterns. */
module Pattern {
  import opened Text

  datatype Piece =
    | Lit(w: string)  // the literal text `w`
    | Spaces          // `\s+`
    | AnyRun          // `.*`

  type Pat = seq<Piece>

  /** A match of `pat` that starts at index `i` of `s` and may end anywhere. */
  predicate MatchFrom(s: string, i: nat, pat: Pat)
    requires i <= |s|
    decreases |pat|, |s| - i
  {
    if pat == [] then true
    else match pat[0]
      case Lit(w) =>
        i + |w| <= |s| && s[i..i + |w|] == w && MatchFrom(s, i + |w|, pat[1..])
      case Spaces =>
        i < |s| && IsSpace(s[i]) && (MatchFrom(s, i + 1, pat[1..]) || MatchFrom(s, i + 1, pat))
      case AnyRun =>
        MatchFrom(s, i, pat[1..]) || (i < |s| && s[i] != '\n' && MatchFrom(s, i + 1, pat))
  }

  /** `re.search(pat, s) is not None` */
  predicate Search(s: string, pat: Pat) {
    exists i | 0 <= i <= |s| :: MatchFrom(s, i, pat)
  }

  /** `any(re.search(p, s) for p in pats)` */
  predicate SearchAny(s: string, pats: seq<Pat>) {
    exists k | 0 <= k < |pats| :: Search(s, pats[k])
  }

  /** `re.match(pat, s) is not None`: a match anchored at the start. */
  predicate MatchStart(s: string, pat: Pat) {
    MatchFrom(s, 0, pat)
  }

  predicate NoNewline(s: string) {
    forall i :: 0 <= i < |s| ==> s[i] != '\n'
  }

  /** A match inside a slice is a match in the whole string. */
  lemma {:induction false} MatchSlice(s: string, a: nat, b: nat, i: nat, pat: Pat)
    requires a <= b <= |s| && i <= b - a
    requires MatchFrom(s[a..b], i, pat)
    ensures MatchFrom(s, a + i, pat)
    decreases |pat|, b - a - i
  {
    if pat != [] {
      var t := s[a..b];
      match pat[0]
      case Lit(w) =>
        assert forall k :: 0 <= k < |w| ==> w[k] == t[i + k] == s[a + i + k];
        assert s[a + i..a + i + |w|] == w;
        MatchSlice(s, a, b, i + |w|, pat[1..]);
      case Spaces =>
        assert t[i] == s[a + i];
        if MatchFrom(t, i + 1, pat[1..]) {
          MatchSlice(s, a, b, i + 1, pat[1..]);
        } else {
          MatchSlice(s, a, b, i + 1, pat);
        }
      case AnyRun =>
        if MatchFrom(t, i, pat[1..]) {
          MatchSlice(s, a, b, i, pat[1..]);
        } else {
          assert t[i] == s[a + i];
          MatchSlice(s, a, b, i + 1, pat);
        }
    }
  }

  lemma SearchSlice(s: string, a: nat, b: nat, pat: Pat)
    requires a <= b <= |s|
    requires Search(s[a..b], pat)
    ensures Search(s, pat)
  {
    var i :| 0 <= i <= b - a && MatchFrom(s[a..b], i, pat);
    MatchSlice(s, a, b, i, pat);
  }

  /** A match in the stripped string is a match in the string. */
  lemma SearchStripped(s: string, pat: Pat)
    requires Search(Strip(s), pat)
    ensures Search(s, pat)
  {
    var t := Strip(s);
    var a := LeadingSpaces(s);
    assert t == s[a..a + |t|];
    SearchSlice(s, a, a + |t|, pat);
  }

  /** Whatever `pre` matches, the match of `pre + rest` continues with a match of
      `rest` at some later index. */
  lemma {:induction false} MatchSplit(s: string, i: nat, pre: Pat, rest: Pat)
    requires i <= |s|
    requires MatchFrom(s, i, pre + rest)
    ensures exists j | i <= j <= |s| :: MatchFrom(s, j, rest)
    decreases |pre|, |s| - i
  {
    if pre == [] {
      assert pre + rest == rest;
    } else {
      var p := pre + rest;
      assert p[0] == pre[0] && p[1..] == pre[1..] + rest;
      match pre[0]
      case Lit(w) =>
        MatchSplit(s, i + |w|, pre[1..], rest);
      case Spaces =>
        if MatchFrom(s, i + 1, p[1..]) {
          MatchSplit(s, i + 1, pre[1..], rest);
        } else {
          MatchSplit(s, i + 1, pre, rest);
        }
      case AnyRun =>
        if MatchFrom(s, i, p[1..]) {
          MatchSplit(s, i, pre[1..], rest);
        } else {
          MatchSplit(s, i + 1, pre, rest);
        }
    }
  }

  /** `.*` can skip any newline-free stretch. */
  lemma {:induction false} AnyRunSkip(s: string, i: nat, j: nat, rest: Pat)
    requires i <= j <= |s|
    requires forall k :: i <= k < j ==> s[k] != '\n'
    requires MatchFrom(s, j, rest)
    ensures MatchFrom(s, i, [AnyRun] + rest)
    decreases j - i
  {
    assert ([AnyRun] + rest)[1..] == rest;
    if i < j {
      AnyRunSkip(s, i + 1, j, rest);
    }
  }

  /** Replacing a pattern's tail by one that matches wherever the old tail did keeps
      the match. */
  lemma {:induction false} MatchCongruence(s: string, i: nat, pre: Pat, a: Pat, b: Pat)
    requires i <= |s|
    requires forall j | i <= j <= |s| :: MatchFrom(s, j, a) ==> MatchFrom(s, j, b)
    requires MatchFrom(s, i, pre + a)
    ensures MatchFrom(s, i, pre + b)
    decreases |pre|, |s| - i
  {
    if pre == [] {
      assert pre + a == a && pre + b == b;
    } else {
      var pa, pb := pre + a, pre + b;
      assert pa[0] == pre[0] && pa[1..] == pre[1..] + a;
      assert pb[0] == pre[0] && pb[1..] == pre[1..] + b;
      match pre[0]
      case Lit(w) =>
        MatchCongruence(s, i + |w|, pre[1..], a, b);
      case Spaces =>
        if MatchFrom(s, i + 1, pa[1..]) {
          MatchCongruence(s, i + 1, pre[1..], a, b);
        } else {
          MatchCongruence(s, i + 1, pre, a, b);
        }
      case AnyRun =>
        if MatchFrom(s, i, pa[1..]) {
          MatchCongruence(s, i, pre[1..], a, b);
        } else {
          MatchCongruence(s, i + 1, pre, a, b);
        }
    }
  }

  /** On a newline-free string, anything followed by `rest` is also matched by
      `.*` followed by `rest`. */
  lemma AbsorbIntoAnyRun(s: string, j: nat, pre: Pat, rest: Pat)
    requires NoNewline(s) && j <= |s|
    requires MatchFrom(s, j, pre + rest)
    ensures MatchFrom(s, j, [AnyRun] + rest)
  {
    MatchSplit(s, j, pre, rest);
    var k :| j <= k <= |s| && MatchFrom(s, k, rest);
    AnyRunSkip(s, j, k, rest);
  }
}
