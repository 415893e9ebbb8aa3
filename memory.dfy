/** The learning memory of src/memory/memory_manager.py and its module-level
    duplicate in main.py: which past questions count as "easy", the Jaccard
    lookup with its easy-on-easy boost, and the insertion and trimming policy
    of the stored entries. */
module Memory {
  import opened Text
  import opened Wrappers
  import opened Config
  import opened Resume
  import opened TextProcessing
  import opened Variants

  // ---------------------------------------------------------------- easy questions

  const EasyOpenings: seq<string> := ["tell me about", "what are", "describe", "summarize", "give me", "show me"]
  const EasyPhrases: seq<string> := ["yourself", "your skills", "your experience", "your background", "your resume"]
  const TechPhrases: seq<string> := ["what tech", "what stack", "what languages", "what technologies"]
  const IntroOpenings: seq<string> := ["who are you", "introduce yourself", "walk me through"]

  /** `is_easy_question`: the four patterns are tried on the lower-cased,
      stripped question; the first and the last are anchored at its start. */
  predicate IsEasyQuestion(question: string) {
    var q := Strip(Lower(question));
    StartsWithAny(q, EasyOpenings) || ContainsAny(q, EasyPhrases)
    || ContainsAny(q, TechPhrases) || StartsWithAny(q, IntroOpenings)
  }

  /** Easiness depends only on the normalised text the question hash is
      computed from, so questions that hash alike are equally easy. */
  lemma EasyFollowsHash(a: string, b: string)
    requires HashText(a) == HashText(b)
    ensures IsEasyQuestion(a) == IsEasyQuestion(b)
  {
    if a != "" && b != "" {
      assert Strip(Lower(a)) == HashText(a).normalised == Strip(Lower(b));
    }
  }

  // ---------------------------------------------------------------- similarity

  /** `_calculate_similarity`: the Jaccard index of two word sets, 0 when
      either is empty. */
  function Jaccard(a: set<string>, b: set<string>): (r: real)
    ensures 0.0 <= r <= 1.0
    ensures a == {} || b == {} ==> r == 0.0
    ensures a != {} && b != {} ==> (r == 1.0 <==> a == b)
    ensures a != {} && b != {} ==> (r == 0.0 <==> a * b == {})
  {
    if a == {} || b == {} then 0.0
    else
      IntersectionWithinUnion(a, b);
      (|a * b| as real) / (|a + b| as real)
  }

  lemma IntersectionWithinUnion(a: set<string>, b: set<string>)
    ensures |a * b| <= |a + b|
    ensures |a * b| == |a + b| <==> a == b
  {
    var i, u := a * b, a + b;
    assert |u - i| + |i - u| + |u * i| == |u + i|;
    assert i - u == {};
    assert u * i == i;
    assert u + i == u;
    if |i| == |u| {
      assert |u - i| == 0;
      assert u - i == {};
      forall x | x in a ensures x in b {
        assert x in u;
      }
      forall x | x in b ensures x in a {
        assert x in u;
      }
    }
  }

  lemma JaccardSymmetric(a: set<string>, b: set<string>)
    ensures Jaccard(a, b) == Jaccard(b, a)
  {
    assert a * b == b * a;
    assert a + b == b + a;
  }

  // ---------------------------------------------------------------- entries

  /** A stored interaction. The timestamp comes from the clock and is a parameter. */
  datatype Entry = Entry(question: string, answer: string, sectionsUsed: seq<Topic>,
                         timestamp: string, questionHash: Digest, isEasy: bool)

  /** The digest stored with an entry: `hash_text` in the package, and in the
      script `hash_question`, which has no special case for the empty text. */
  function QuestionDigest(v: Variant, question: string): (r: Digest)
    ensures r.Md5Of? ==> r.normalised == Strip(Lower(question))
    ensures r == EmptyDigest ==> v == Package && question == ""
  {
    match v
    case Package => HashText(question)
    case Script => Md5Of(Strip(Lower(question)))
  }

  /** The entry `store_interaction` builds; its flag is the question's easiness. */
  function NewEntry(v: Variant, question: string, answer: string, sectionsUsed: seq<Topic>,
                    timestamp: string): (e: Entry)
    ensures e.isEasy == IsEasyQuestion(question)
    ensures e.question == question && e.answer == answer && e.sectionsUsed == sectionsUsed
  {
    Entry(question, answer, sectionsUsed, timestamp, QuestionDigest(v, question), IsEasyQuestion(question))
  }

  /** Every entry's flag agrees with its question, as it does for entries this
      module stores. */
  predicate FlagsConsistent(m: seq<Entry>) {
    forall i :: 0 <= i < |m| ==> FlagOk(m[i])
  }

  /** The entry's flag agrees with its question. */
  predicate FlagOk(x: Entry) {
    x.isEasy == IsEasyQuestion(x.question)
  }

  /** Every element passes `ok`. */
  ghost predicate AllOk<T>(m: seq<T>, ok: T -> bool) {
    forall i :: 0 <= i < |m| ==> ok(m[i])
  }

  lemma FlagsConsistentIsAllOk(m: seq<Entry>)
    ensures FlagsConsistent(m) <==> AllOk(m, FlagOk)
  {
  }

  /** Putting in an element that passes keeps every element passing. */
  lemma SpliceKeepsAllOk<T>(m: seq<T>, p: nat, e: T, ok: T -> bool)
    requires p <= |m| && AllOk(m, ok) && ok(e)
    ensures AllOk(m[..p] + [e] + m[p..], ok)
  {
    var r := m[..p] + [e] + m[p..];
    forall j | 0 <= j < |r| ensures ok(r[j]) {
      if j < p {
        assert r[j] == m[j];
      } else if j > p {
        assert r[j] == m[j - 1];
      }
    }
  }

  /** Every suffix of a list whose elements pass has passing elements. */
  lemma SuffixKeepsAllOk<T>(m: seq<T>, k: nat, ok: T -> bool)
    requires k <= |m| && AllOk(m, ok)
    ensures AllOk(m[k..], ok)
  {
    forall j | 0 <= j < |m| - k ensures ok(m[k..][j]) {
      assert m[k..][j] == m[k + j];
    }
  }

  // ---------------------------------------------------------------- lookup

  /** What a lookup computes from the question before scanning the memory. */
  datatype Query = Query(words: set<string>, easy: bool, threshold: real)

  /** The threshold rule: in the package a caller's threshold counts only when
      truthy (so 0.0 means absent), otherwise 0.6 for easy questions and 0.7
      for the rest; the script uses 0.6 for every easy question and the caller's
      threshold, by default 0.7, for the others. */
  function QueryOf(v: Variant, question: string, threshold: Option<real>): (r: Query)
    ensures r.words == WordSet(Lower(question)) && r.easy == IsEasyQuestion(question)
    ensures threshold.None? || (v == Package && threshold == Some(0.0)) ==>
      r.threshold == (if r.easy then EasyQuestionThreshold else SimilarityThreshold)
    ensures v == Package && threshold.Some? && threshold.value != 0.0 ==> r.threshold == threshold.value
    ensures v == Script && r.easy ==> r.threshold == EasyQuestionThreshold
  {
    var easy := IsEasyQuestion(question);
    var default := if easy then EasyQuestionThreshold else SimilarityThreshold;
    var t := match v
      case Package => if threshold.Some? && threshold.value != 0.0 then threshold.value else default
      case Script => if easy then EasyQuestionThreshold
                     else if threshold.Some? then threshold.value else SimilarityThreshold;
    Query(WordSet(Lower(question)), easy, t)
  }

  /** The words of a stored question; an entry without any is skipped. */
  function PastWords(e: Entry): set<string> {
    WordSet(Lower(e.question))
  }

  /** Whether the stored entry counts as easy for the boost: the package reads
      the stored flag, the script re-classifies the stored question. */
  predicate BoostFlag(v: Variant, e: Entry) {
    match v
    case Package => e.isEasy
    case Script => IsEasyQuestion(e.question)
  }

  /** Jaccard similarity, plus 0.1 when the query and the entry are both easy. */
  function Score(v: Variant, q: Query, e: Entry): (r: real)
    ensures 0.0 <= r <= 1.1
    ensures !q.easy ==> r <= 1.0
  {
    Jaccard(q.words, PastWords(e)) + (if q.easy && BoostFlag(v, e) then 0.1 else 0.0)
  }

  /** What the scan needs to know about one entry. */
  datatype Candidate = Candidate(hasWords: bool, score: real)

  function CandidateOf(v: Variant, q: Query, e: Entry): Candidate {
    Candidate(PastWords(e) != {}, Score(v, q, e))
  }

  function Candidates(v: Variant, q: Query, m: seq<Entry>): (r: seq<Candidate>)
    ensures |r| == |m|
  {
    if m == [] then [] else Candidates(v, q, m[..|m| - 1]) + [CandidateOf(v, q, m[|m| - 1])]
  }

  lemma {:induction false} CandidateAt(v: Variant, q: Query, m: seq<Entry>, i: nat)
    requires i < |m|
    ensures Candidates(v, q, m)[i] == CandidateOf(v, q, m[i])
  {
    if i < |m| - 1 {
      CandidateAt(v, q, m[..|m| - 1], i);
    }
  }

  /** An entry can be returned: it has words, reaches the threshold and beats
      the initial best score of 0. */
  predicate Eligible(c: Candidate, threshold: real) {
    c.hasWords && c.score >= threshold && c.score > 0.0
  }

  /** The scan of `find_similar_question` over the first `n` candidates: the
      index of the best match so far and the best score so far. */
  function BestAmong(cs: seq<Candidate>, threshold: real, n: nat): (r: (Option<nat>, real))
    requires n <= |cs|
  {
    if n == 0 then (None, 0.0)
    else
      var prev := BestAmong(cs, threshold, n - 1);
      var c := cs[n - 1];
      if c.hasWords && c.score > prev.1 && c.score >= threshold
      then (Some(n - 1), c.score)
      else prev
  }

  /** The result is the first candidate with the largest score among the
      eligible ones: strictly better than every earlier eligible candidate, at
      least as good as every later one; there is none exactly when no candidate
      is eligible. */
  lemma {:induction false} BestAmongIsFirstMaximum(cs: seq<Candidate>, threshold: real, n: nat)
    requires n <= |cs|
    ensures BestAmong(cs, threshold, n).0.None? <==> forall i :: 0 <= i < n ==> !Eligible(cs[i], threshold)
    ensures BestAmong(cs, threshold, n).0.None? ==> BestAmong(cs, threshold, n).1 == 0.0
    ensures BestAmong(cs, threshold, n).0.Some? ==>
      var k := BestAmong(cs, threshold, n).0.value;
      k < n && Eligible(cs[k], threshold) && BestAmong(cs, threshold, n).1 == cs[k].score
      && (forall i :: 0 <= i < k && Eligible(cs[i], threshold) ==> cs[i].score < cs[k].score)
      && (forall i :: k < i < n && Eligible(cs[i], threshold) ==> cs[i].score <= cs[k].score)
  {
    if n > 0 {
      BestAmongIsFirstMaximum(cs, threshold, n - 1);
    }
  }

  /** The best match in a whole memory, as an entry. */
  function BestMatch(v: Variant, q: Query, m: seq<Entry>): (r: Option<Entry>)
    ensures r.Some? ==> r.value in m
  {
    var cs := Candidates(v, q, m);
    match BestAmong(cs, q.threshold, |m|).0
    case None => None
    case Some(k) =>
      BestAmongIsFirstMaximum(cs, q.threshold, |m|);
      Some(m[k])
  }

  /** One step of the scan: the words of the stored question, their Jaccard
      similarity with the query's, and the easy-on-easy boost. */
  method ScoreEntry(v: Variant, q: Query, e: Entry) returns (hasWords: bool, similarity: real)
    ensures Candidate(hasWords, similarity) == CandidateOf(v, q, e)
  {
    var pastWords := WordSet(Lower(e.question));
    hasWords := pastWords != {};
    similarity := Jaccard(q.words, pastWords);
    if q.easy && BoostFlag(v, e) {
      similarity := similarity + 0.1;
    }
  }

  /** The lookup shared by both variants: the query is computed once, then the
      memory is scanned. */
  method FindSimilarIn(v: Variant, m: seq<Entry>, question: string, threshold: Option<real>)
    returns (best: Option<Entry>)
    ensures best == BestMatch(v, QueryOf(v, question, threshold), m)
  {
    var q := QueryOf(v, question, threshold);
    best := ScanMemory(v, q, m);
  }

  /** The state of the scan after the first `i` entries: the best index and
      score so far, and the entry at that index. */
  ghost predicate ScannedUpTo(v: Variant, q: Query, m: seq<Entry>, i: nat,
                              bestIndex: Option<nat>, bestScore: real, best: Option<Entry>)
  {
    i <= |m| && BestAmong(Candidates(v, q, m), q.threshold, i) == (bestIndex, bestScore)
    && (bestIndex.None? ==> best.None?)
    && (bestIndex.Some? ==> bestIndex.value < i && best == Some(m[bestIndex.value]))
  }

  /** The scan loop: a strictly better eligible score replaces the best match. */
  method ScanMemory(v: Variant, q: Query, m: seq<Entry>) returns (best: Option<Entry>)
    ensures best == BestMatch(v, q, m)
  {
    var bestScore := 0.0;
    best := None;
    ghost var bestIndex: Option<nat> := None;
    var i := 0;
    while i < |m|
      invariant 0 <= i <= |m|
      invariant ScannedUpTo(v, q, m, i, bestIndex, bestScore, best)
    {
      bestIndex, bestScore, best := ScanEntry(v, q, m, i, bestIndex, bestScore, best);
      i := i + 1;
    }
  }

  /** One iteration of the scan. */
  method ScanEntry(v: Variant, q: Query, m: seq<Entry>, i: nat,
                   ghost bestIndex: Option<nat>, bestScore: real, best: Option<Entry>)
    returns (ghost bestIndex': Option<nat>, bestScore': real, best': Option<Entry>)
    requires i < |m| && ScannedUpTo(v, q, m, i, bestIndex, bestScore, best)
    ensures ScannedUpTo(v, q, m, i + 1, bestIndex', bestScore', best')
  {
    var hasWords, similarity := ScoreAt(v, q, m, i);
    BestAmongStep(Candidates(v, q, m), q.threshold, i);
    if hasWords && similarity > bestScore && similarity >= q.threshold {
      bestIndex', bestScore', best' := Some(i), similarity, Some(m[i]);
    } else {
      bestIndex', bestScore', best' := bestIndex, bestScore, best;
    }
  }

  /** The scan's step on the `i`-th entry, as the `i`-th candidate. */
  method ScoreAt(v: Variant, q: Query, m: seq<Entry>, i: nat) returns (hasWords: bool, similarity: real)
    requires i < |m|
    ensures Candidate(hasWords, similarity) == Candidates(v, q, m)[i]
  {
    hasWords, similarity := ScoreEntry(v, q, m[i]);
    CandidateAt(v, q, m, i);
  }

  lemma BestAmongStep(cs: seq<Candidate>, threshold: real, i: nat)
    requires i < |cs|
    ensures var prev := BestAmong(cs, threshold, i);
      BestAmong(cs, threshold, i + 1)
      == if cs[i].hasWords && cs[i].score > prev.1 && cs[i].score >= threshold then (Some(i), cs[i].score) else prev
  {
  }

  /** With consistent flags and no explicit threshold, the package and the
      script pick the same entry. */
  lemma VariantsAgree(m: seq<Entry>, question: string)
    requires FlagsConsistent(m)
    ensures BestMatch(Package, QueryOf(Package, question, None), m)
         == BestMatch(Script, QueryOf(Script, question, None), m)
  {
    var q := QueryOf(Package, question, None);
    assert q == QueryOf(Script, question, None);
    forall i | 0 <= i < |m|
      ensures Candidates(Package, q, m)[i] == Candidates(Script, q, m)[i]
    {
      CandidateAt(Package, q, m, i);
      CandidateAt(Script, q, m, i);
      assert BoostFlag(Package, m[i]) == BoostFlag(Script, m[i]);
    }
    assert Candidates(Package, q, m) == Candidates(Script, q, m);
  }

  // ---------------------------------------------------------------- storing

  /** The position of the last entry flagged easy, if any. */
  function LastEasyIndex(m: seq<Entry>): (r: Option<nat>)
    ensures r.None? <==> forall j :: 0 <= j < |m| ==> !m[j].isEasy
    ensures r.Some? ==> r.value < |m| && m[r.value].isEasy
                        && forall j :: r.value < j < |m| ==> !m[j].isEasy
  {
    if m == [] then None
    else if m[|m| - 1].isEasy then Some(|m| - 1)
    else LastEasyIndex(m[..|m| - 1])
  }

  /** The backward search of `store_interaction`, stopping at the first easy
      entry from the end. */
  method FindLastEasy(m: seq<Entry>) returns (r: Option<nat>)
    ensures r == LastEasyIndex(m)
  {
    r := None;
    var i := |m|;
    while i > 0
      invariant 0 <= i <= |m|
      invariant LastEasyIndex(m) == LastEasyIndex(m[..i])
    {
      assert m[..i][..i - 1] == m[..i - 1];
      if m[i - 1].isEasy {
        r := Some(i - 1);
        return;
      }
      i := i - 1;
    }
  }

  /** The insertion policy: an easy entry is appended; any other entry goes in
      at the position of the last easy entry, or at the end when there is none. */
  function Inserted(m: seq<Entry>, e: Entry): (r: seq<Entry>)
    ensures |r| == |m| + 1
  {
    if e.isEasy then m + [e]
    else match LastEasyIndex(m)
      case None => m + [e]
      case Some(i) => m[..i] + [e] + m[i..]
  }

  /** `self.memory[-MAX_MEMORY_ENTRIES:]` once the list is too long. */
  function Trimmed(m: seq<Entry>): (r: seq<Entry>)
    ensures |r| <= MaxMemoryEntries
    ensures |m| <= MaxMemoryEntries ==> r == m
    ensures |m| > MaxMemoryEntries ==> |r| == MaxMemoryEntries && m == m[..|m| - |r|] + r
  {
    if |m| > MaxMemoryEntries then m[|m| - MaxMemoryEntries..] else m
  }

  /** Where `Inserted` puts a new entry. */
  function InsertPosition(m: seq<Entry>, e: Entry): (p: nat)
    ensures p <= |m|
  {
    if !e.isEasy && LastEasyIndex(m).Some? then LastEasyIndex(m).value else |m|
  }

  /** The existing entries keep their relative order: the new list is the old
      one with the new entry put in at a single position, which is the end
      unless the entry is not easy and an easy entry exists. */
  lemma InsertedSplitsOld(m: seq<Entry>, e: Entry)
    ensures var p := InsertPosition(m, e);
      Inserted(m, e) == m[..p] + [e] + m[p..]
      && (p < |m| <==> !e.isEasy && LastEasyIndex(m).Some?)
  {
    var p := InsertPosition(m, e);
    if p == |m| {
      assert m[..|m|] == m && m[|m|..] == [];
    }
  }

  /** Inserting adds the new entry and loses none. */
  lemma InsertedIsPermutation(m: seq<Entry>, e: Entry)
    ensures multiset(Inserted(m, e)) == multiset(m) + multiset{e}
  {
    var p := InsertPosition(m, e);
    InsertedSplitsOld(m, e);
    assert m == m[..p] + m[p..];
    assert multiset(m[..p] + [e] + m[p..]) == multiset(m[..p]) + multiset{e} + multiset(m[p..]);
  }

  /** A non-easy entry lands before the last easy entry, and every entry after
      it, other than that easy one, is not easy. */
  lemma NonEasyGoesBeforeLastEasy(m: seq<Entry>, e: Entry, i: nat)
    requires !e.isEasy && i < |m| && m[i].isEasy
    requires forall j :: i < j < |m| ==> !m[j].isEasy
    ensures Inserted(m, e)[i] == e && Inserted(m, e)[i + 1] == m[i]
    ensures forall j :: i + 1 < j < |m| + 1 ==> !Inserted(m, e)[j].isEasy
  {
    assert LastEasyIndex(m) == Some(i);
  }

  /** The cap keeps positions, not recency: when the memory is full and its
      only easy entry is the first one, a new non-easy entry is inserted at
      index 0 and evicted at once, leaving the memory unchanged. */
  lemma NonEasyEntryEvictedAtOnce(m: seq<Entry>, e: Entry)
    requires |m| == MaxMemoryEntries && !e.isEasy && m[0].isEasy
    requires forall j :: 0 < j < |m| ==> !m[j].isEasy
    ensures Trimmed(Inserted(m, e)) == m
  {
    assert LastEasyIndex(m) == Some(0);
    assert Inserted(m, e) == [e] + m;
    assert ([e] + m)[1..] == m;
  }

  /** An easy entry is always kept, as the newest element. */
  lemma EasyEntrySurvives(m: seq<Entry>, e: Entry)
    requires e.isEasy
    ensures var r := Trimmed(Inserted(m, e)); r != [] && r[|r| - 1] == e
  {
  }

  /** The insertion step of `store_interaction`, given the easiness the caller
      computed for the entry's question. */
  method InsertEntry(m: seq<Entry>, entry: Entry, isEasy: bool) returns (r: seq<Entry>)
    requires isEasy == entry.isEasy
    ensures r == Inserted(m, entry)
  {
    if isEasy {
      r := m + [entry];
    } else {
      var lastEasy := FindLastEasy(m);
      if lastEasy.Some? {
        r := m[..lastEasy.value] + [entry] + m[lastEasy.value..];
      } else {
        r := m + [entry];
      }
    }
  }

  /** The package's memory manager: the entry list is its only state. Loading
      from and saving to the memory file are not part of this model. */
  class MemoryManager {
    var memory: seq<Entry>

    /** The list never exceeds the cap: it starts empty and every store trims
        it. The methods that read or extend the list rely on this. */
    predicate Valid()
      reads this
    {
      |memory| <= MaxMemoryEntries
    }

    constructor ()
      ensures memory == [] && Valid()
    {
      memory := [];
    }

    /** `find_similar_question`: nothing for an empty memory, otherwise the
        first best-scoring eligible entry. */
    method FindSimilarQuestion(question: string, threshold: Option<real>) returns (r: Option<Entry>)
      requires Valid()
      ensures r == BestMatch(Package, QueryOf(Package, question, threshold), memory)
      ensures memory == [] ==> r.None?
    {
      if memory == [] {
        return None;
      }
      r := FindSimilarIn(Package, memory, question, threshold);
    }

    /** `store_interaction`: build the entry, insert it by the policy, then cut
        the list to its last 100 entries. */
    method StoreInteraction(question: string, answer: string, sectionsUsed: seq<Topic>, timestamp: string)
      requires Valid()
      modifies this
      ensures memory == Trimmed(Inserted(old(memory), NewEntry(Package, question, answer, sectionsUsed, timestamp)))
      ensures Valid()
      ensures |memory| == if |old(memory)| < MaxMemoryEntries then |old(memory)| + 1 else MaxMemoryEntries
    {
      var entry := NewEntry(Package, question, answer, sectionsUsed, timestamp);
      var isEasy := IsEasyQuestion(question);
      memory := InsertEntry(memory, entry, isEasy);
      if |memory| > MaxMemoryEntries {
        memory := memory[|memory| - MaxMemoryEntries..];
      }
    }

    /** `get_memory_size` */
    method GetMemorySize() returns (n: nat)
      requires Valid()
      ensures n == |memory| && n <= MaxMemoryEntries
    {
      n := |memory|;
    }

    /** `clear_memory` */
    method ClearMemory()
      modifies this
      ensures memory == [] && Valid()
    {
      memory := [];
    }
  }

  /** The caller's list that the script's `store_interaction` mutates. */
  class EntryList {
    var items: seq<Entry>

    constructor (items0: seq<Entry>)
      ensures items == items0
    {
      items := items0;
    }
  }

  /** The script's `store_interaction`: the entry is inserted into the caller's
      list, but the trim only rebinds a local, so the caller's list is never cut;
      the trimmed copy is what would be saved. */
  method ScriptStoreInteraction(question: string, answer: string, sectionsUsed: seq<Topic>,
                                timestamp: string, memory: EntryList)
    returns (persisted: seq<Entry>)
    modifies memory
    ensures memory.items == Inserted(old(memory.items), NewEntry(Script, question, answer, sectionsUsed, timestamp))
    ensures |memory.items| == |old(memory.items)| + 1
    ensures persisted == Trimmed(memory.items)
  {
    var entry := NewEntry(Script, question, answer, sectionsUsed, timestamp);
    var isEasy := IsEasyQuestion(question);
    memory.items := InsertEntry(memory.items, entry, isEasy);
    persisted := memory.items;
    if |persisted| > 100 {
      persisted := persisted[|persisted| - 100..];
    }
  }

  /** Storing keeps every flag consistent with its question. */
  lemma StoreKeepsFlagsConsistent(m: seq<Entry>, v: Variant, question: string, answer: string,
                                  sectionsUsed: seq<Topic>, timestamp: string)
    requires FlagsConsistent(m)
    ensures FlagsConsistent(Inserted(m, NewEntry(v, question, answer, sectionsUsed, timestamp)))
    ensures FlagsConsistent(Trimmed(Inserted(m, NewEntry(v, question, answer, sectionsUsed, timestamp))))
  {
    var e := NewEntry(v, question, answer, sectionsUsed, timestamp);
    var p := InsertPosition(m, e);
    InsertedSplitsOld(m, e);
    var r := Inserted(m, e);
    FlagsConsistentIsAllOk(m);
    assert FlagOk(e);
    SpliceKeepsAllOk(m, p, e, FlagOk);
    FlagsConsistentIsAllOk(r);
    var t := Trimmed(r);
    SuffixKeepsAllOk(r, |r| - |t|, FlagOk);
    assert t == r[|r| - |t|..];
    FlagsConsistentIsAllOk(t);
  }
}
