/** The memory side of src/core/chatbot.py: whether a remembered answer may be
    reused, the cache-hit path of `answer_question`, and the memory statistics;
    together with the same cache decision as written inline in main.py. */
module Chatbot {
  import opened Text
  import opened Wrappers
  import opened Resume
  import opened Classifier
  import opened Memory
  import opened Variants

  /** The reuse threshold on the plain Jaccard similarity. */
  const CacheSimilarity: real := 0.75

  /** The answer names the other project and not the primary one. */
  predicate NamesWrongProject(answer: string) {
    var a := Lower(answer);
    !(Contains(a, "linkup") || Contains(a, "link-up")) && Contains(a, "meallogger")
  }

  /** The quality test on a remembered answer: similar enough, non-empty, not a
      "not found" answer, and more than five words long. */
  predicate ReusableAnswer(similarity: real, answer: string) {
    similarity > CacheSimilarity && answer != ""
    && !Contains(Lower(answer), "not found") && |SplitWhitespace(answer)| > 5
  }

  /** `_check_memory_for_cached_answer` */
  function CheckMemoryForCachedAnswer(question: string, similar: Option<Entry>): (r: Option<string>)
    ensures r.Some? ==> similar.Some? && r.value == similar.value.answer
    ensures r.Some? ==> IsEasyQuestion(question) && similar.value.isEasy
    ensures r.Some? ==> Jaccard(WordSet(Lower(question)), PastWords(similar.value)) > CacheSimilarity
    ensures r.Some? ==> r.value != "" && !Contains(Lower(r.value), "not found")
                        && |SplitWhitespace(r.value)| > 5
    ensures r.Some? && IsProjectIntentQuestion(question) ==> !NamesWrongProject(r.value)
  {
    if similar.None? then None
    else if !(IsEasyQuestion(question) && similar.value.isEasy) then None
    else
      var similarity := Jaccard(WordSet(Lower(question)), PastWords(similar.value));
      var cached := similar.value.answer;
      if IsProjectIntentQuestion(question) && NamesWrongProject(cached) then None
      else if ReusableAnswer(similarity, cached) then Some(cached)
      else None
  }

  /** Reuse happens exactly when every check passes. */
  lemma CacheHitExactly(question: string, e: Entry)
    ensures CheckMemoryForCachedAnswer(question, Some(e)).Some? <==>
      IsEasyQuestion(question) && e.isEasy
      && !(IsProjectIntentQuestion(question) && NamesWrongProject(e.answer))
      && ReusableAnswer(Jaccard(WordSet(Lower(question)), PastWords(e)), e.answer)
  {
  }

  /** The same decision as written inline in main.py: the wrong-project test
      sets a flag instead of returning, and a reused answer replaces the
      response. */
  function ScriptCachedResponse(question: string, similar: Option<Entry>): (r: Option<string>)
  {
    if IsEasyQuestion(question) && similar.Some? && similar.value.isEasy then
      var similarity := Jaccard(WordSet(Lower(question)), PastWords(similar.value));
      var cached := similar.value.answer;
      var valid :=
        if IsProjectIntentQuestion(question) then
          if NamesWrongProject(cached) then false else ReusableAnswer(similarity, cached)
        else ReusableAnswer(similarity, cached);
      if valid then Some(cached) else None
    else None
  }

  lemma ScriptCacheAgrees(question: string, similar: Option<Entry>)
    ensures ScriptCachedResponse(question, similar) == CheckMemoryForCachedAnswer(question, similar)
  {
  }

  /** `get_memory_stats` */
  datatype MemoryStats = MemoryStats(totalEntries: nat, easyQuestions: nat, complexQuestions: nat)

  function CountEasy(m: seq<Entry>): (n: nat)
    ensures n <= |m|
  {
    if m == [] then 0 else CountEasy(m[..|m| - 1]) + (if m[|m| - 1].isEasy then 1 else 0)
  }

  lemma {:induction false} CountEasyAppend(a: seq<Entry>, b: seq<Entry>)
    ensures CountEasy(a + b) == CountEasy(a) + CountEasy(b)
    decreases |b|
  {
    if b == [] {
      assert a + b == a;
    } else {
      assert (a + b)[..|a + b| - 1] == a + b[..|b| - 1];
      CountEasyAppend(a, b[..|b| - 1]);
    }
  }

  function GetMemoryStats(m: seq<Entry>): (r: MemoryStats)
    ensures r.totalEntries == r.easyQuestions + r.complexQuestions
    ensures r.totalEntries == |m|
    ensures r.easyQuestions == 0 <==> forall i :: 0 <= i < |m| ==> !m[i].isEasy
  {
    var easy := CountEasy(m);
    EasyCountZero(m);
    MemoryStats(|m|, easy, |m| - easy)
  }

  lemma {:induction false} EasyCountZero(m: seq<Entry>)
    ensures CountEasy(m) == 0 <==> forall i :: 0 <= i < |m| ==> !m[i].isEasy
  {
    if m != [] {
      EasyCountZero(m[..|m| - 1]);
      assert forall i :: 0 <= i < |m| - 1 ==> m[..|m| - 1][i] == m[i];
    }
  }

  /** Inserting an entry, before the trim, raises the easy count by one
      exactly when the entry is easy. */
  lemma StoreCountsEasy(m: seq<Entry>, e: Entry)
    ensures CountEasy(Inserted(m, e)) == CountEasy(m) + (if e.isEasy then 1 else 0)
  {
    InsertedSplitsOld(m, e);
    var p := InsertPosition(m, e);
    CountEasyAppend(m[..p] + [e], m[p..]);
    CountEasyAppend(m[..p], [e]);
    CountEasyAppend(m[..p], m[p..]);
    assert [e][..0] == [];
    assert m[..p] + m[p..] == m;
  }

  /** The chatbot's memory; the rest of its state (sections, links, clients)
      serves the path that selects context and calls the model, which is not
      part of this model. */
  class Chatbot {
    const memoryManager: MemoryManager

    constructor (manager: MemoryManager)
      ensures memoryManager == manager
    {
      memoryManager := manager;
    }

    /** The cache-hit path of `answer_question`: a reusable remembered answer is
        stored again under the question's own topics and returned; otherwise
        nothing happens and the full path would run. */
    method AnswerFromMemory(question: string, timestamp: string) returns (cached: Option<string>)
      requires memoryManager.Valid()
      modifies memoryManager
      ensures memoryManager.Valid()
      ensures cached == CheckMemoryForCachedAnswer(question,
                          BestMatch(Package, QueryOf(Package, question, None), old(memoryManager.memory)))
      ensures cached.None? ==> memoryManager.memory == old(memoryManager.memory)
      ensures cached.Some? ==>
                memoryManager.memory ==
                Trimmed(Inserted(old(memoryManager.memory),
                                 NewEntry(Package, question, cached.value, ClassifySections(question), timestamp)))
    {
      var similar := memoryManager.FindSimilarQuestion(question, None);
      cached := CheckMemoryForCachedAnswer(question, similar);
      if cached.Some? {
        var relevantSections := ClassifySections(question);
        memoryManager.StoreInteraction(question, cached.value, relevantSections, timestamp);
      }
    }
  }
}
