/**
 * The conversation example: a context that records every message of a
 * dialogue in order, extracts the main topics from what the user said, and a
 * scripted assistant that picks its reply by the first keyword rule that
 * matches.
 */
module Conversation {
  import opened Text

  /** A `ConversationMessage`; its timestamp is not modelled. */
  datatype Message = Message(role: string, content: string)

  // ---------------------------------------------------------------------------
  // Keyword extraction
  // ---------------------------------------------------------------------------

  /** The words of the stopword pattern `\b(the|and|...|by)\b`. */
  const StopWords: seq<string> := ["the", "and", "or", "but", "in", "on", "at", "to", "for", "of", "with", "by"]

  /** `matches` asks the whole token to match the pattern: it is one of the words. */
  predicate IsStopWord(token: string) {
    token in StopWords
  }

  predicate IsLong(token: string) {
    |token| > 3
  }

  /** `filter { keep(it) }`. */
  function Filter(ts: seq<string>, keep: string -> bool): (r: seq<string>)
    ensures |r| <= |ts|
    ensures forall w :: w in r <==> w in ts && keep(w)
    ensures forall w :: multiset(r)[w] == if keep(w) then multiset(ts)[w] else 0
    decreases |ts|
  {
    if ts == [] then []
    else
      var rest := Filter(ts[..|ts| - 1], keep);
      assert ts == ts[..|ts| - 1] + [ts[|ts| - 1]];
      assert multiset(ts) == multiset(ts[..|ts| - 1]) + multiset{ts[|ts| - 1]};
      if keep(ts[|ts| - 1]) then rest + [ts[|ts| - 1]] else rest
  }

  /** `extractKeywords`: lower-case, split on single spaces, keep long tokens that are not stopwords. */
  function ExtractKeywords(text: string): seq<string> {
    var tokens := Split(Lower(text), ' ');
    Filter(Filter(tokens, IsLong), (t: string) => !IsStopWord(t))
  }

  /** Among tokens longer than three characters, the stopword test removes "with" only. */
  lemma StopWordsAfterLengthFilter(token: string)
    requires IsLong(token)
    ensures IsStopWord(token) <==> token == "with"
  {
  }

  /** Every keyword is lower-case, holds no space, is longer than three characters and is not "with". */
  lemma KeywordShape(text: string, w: string)
    requires w in ExtractKeywords(text)
    ensures IsLowerCase(w) && ' ' !in w && |w| > 3 && w != "with"
  {
    var lowered := Lower(text);
    var tokens := Split(lowered, ' ');
    assert w in tokens;
    var k :| 0 <= k < |tokens| && tokens[k] == w;
    SplitPiecesLackSeparator(lowered, ' ');
    SplitPiecesFromInput(lowered, ' ');
    LowerIsLowerCase(text);
    forall i | 0 <= i < |w| ensures !IsAsciiUpper(w[i]) {
      assert w[i] in lowered;
    }
    StopWordsAfterLengthFilter(w);
  }

  // ---------------------------------------------------------------------------
  // Main topics
  // ---------------------------------------------------------------------------

  /** `messages.filter { it.role == "user" }.flatMap { extractKeywords(it.content) }`. */
  function UserKeywords(messages: seq<Message>): seq<string>
    decreases |messages|
  {
    if messages == [] then []
    else
      var last := messages[|messages| - 1];
      UserKeywords(messages[..|messages| - 1]) +
      (if last.role == "user" then ExtractKeywords(last.content) else [])
  }

  /** How often `w` occurs among the keywords: `eachCount()`. */
  function Count(all: seq<string>, w: string): nat {
    multiset(all)[w]
  }

  /** The distinct keywords in order of first occurrence: the keys of `groupingBy`. */
  function Distinct(s: seq<string>): seq<string>
    decreases |s|
  {
    if s == [] then []
    else
      var d := Distinct(s[..|s| - 1]);
      if s[|s| - 1] in d then d else d + [s[|s| - 1]]
  }

  /** No element occurs twice. */
  ghost predicate NoDuplicates(s: seq<string>) {
    forall x :: multiset(s)[x] <= 1
  }

  /** Counts never increase along `s`. */
  ghost predicate ByDescendingCount(s: seq<string>, all: seq<string>) {
    forall i, j :: 0 <= i < j < |s| ==> Count(all, s[i]) >= Count(all, s[j])
  }

  /** Insert `x` after every element whose count is at least its own: one step of a stable sort. */
  function Insert(x: string, sorted: seq<string>, all: seq<string>): seq<string>
    decreases |sorted|
  {
    if sorted == [] then [x]
    else if Count(all, sorted[0]) >= Count(all, x) then [sorted[0]] + Insert(x, sorted[1..], all)
    else [x] + sorted
  }

  /** `sortedByDescending { it.value }`: a stable insertion sort by count. */
  function SortByCount(s: seq<string>, all: seq<string>): seq<string>
    decreases |s|
  {
    if s == [] then [] else Insert(s[|s| - 1], SortByCount(s[..|s| - 1], all), all)
  }

  function Take(s: seq<string>, n: nat): seq<string> {
    if |s| <= n then s else s[..n]
  }

  /** The topic list of `getMainTopics`, before it is joined. */
  function MainTopicList(messages: seq<Message>): seq<string> {
    var all := UserKeywords(messages);
    Take(SortByCount(Distinct(all), all), 3)
  }

  /** `getMainTopics`: the topics joined with ", ". */
  function MainTopics(messages: seq<Message>): string {
    Join(MainTopicList(messages), ", ")
  }

  lemma {:induction false} DistinctProperties(s: seq<string>)
    ensures NoDuplicates(Distinct(s))
    ensures forall x :: x in Distinct(s) <==> x in s
    decreases |s|
  {
    if s != [] {
      var init := s[..|s| - 1];
      var last := s[|s| - 1];
      DistinctProperties(init);
      assert s == init + [last];
      var d := Distinct(init);
      if last !in d {
        assert multiset(d)[last] == 0;
        assert forall x :: multiset(d + [last])[x] == multiset(d)[x] + multiset([last])[x];
      }
    }
  }

  lemma {:induction false} InsertPermutes(x: string, sorted: seq<string>, all: seq<string>)
    ensures multiset(Insert(x, sorted, all)) == multiset(sorted) + multiset{x}
    decreases |sorted|
  {
    if sorted != [] && Count(all, sorted[0]) >= Count(all, x) {
      InsertPermutes(x, sorted[1..], all);
      assert sorted == [sorted[0]] + sorted[1..];
    }
  }

  /** An element at least as frequent as everything after it may head a sorted list. */
  lemma ConsSorted(h: string, t: seq<string>, all: seq<string>)
    requires ByDescendingCount(t, all)
    requires forall y :: y in t ==> Count(all, y) <= Count(all, h)
    ensures ByDescendingCount([h] + t, all)
  {
    var r := [h] + t;
    forall i, j | 0 <= i < j < |r| ensures Count(all, r[i]) >= Count(all, r[j]) {
      assert r[j] == t[j - 1];
      if i > 0 {
        assert r[i] == t[i - 1];
      }
    }
  }

  lemma {:induction false} InsertSorted(x: string, sorted: seq<string>, all: seq<string>)
    requires ByDescendingCount(sorted, all)
    ensures ByDescendingCount(Insert(x, sorted, all), all)
    decreases |sorted|
  {
    if sorted != [] {
      var h := sorted[0];
      var tail := sorted[1..];
      assert sorted == [h] + tail;
      assert forall y :: y in tail ==> Count(all, y) <= Count(all, h) by {
        forall y | y in tail ensures Count(all, y) <= Count(all, h) {
          var k :| 0 <= k < |tail| && tail[k] == y;
          assert sorted[k + 1] == y;
        }
      }
      if Count(all, h) >= Count(all, x) {
        assert ByDescendingCount(tail, all) by {
          forall i, j | 0 <= i < j < |tail| ensures Count(all, tail[i]) >= Count(all, tail[j]) {
            assert tail[i] == sorted[i + 1] && tail[j] == sorted[j + 1];
          }
        }
        InsertSorted(x, tail, all);
        InsertPermutes(x, tail, all);
        var t := Insert(x, tail, all);
        forall y | y in t ensures Count(all, y) <= Count(all, h) {
          assert y in multiset(t);
        }
        ConsSorted(h, t, all);
      } else {
        ConsSorted(x, sorted, all);
      }
    }
  }

  /** Sorting keeps every element, exactly as often, and orders them by descending count. */
  lemma {:induction false} SortByCountProperties(s: seq<string>, all: seq<string>)
    ensures multiset(SortByCount(s, all)) == multiset(s)
    ensures ByDescendingCount(SortByCount(s, all), all)
    decreases |s|
  {
    if s != [] {
      var init := s[..|s| - 1];
      SortByCountProperties(init, all);
      InsertPermutes(s[|s| - 1], SortByCount(init, all), all);
      InsertSorted(s[|s| - 1], SortByCount(init, all), all);
      assert s == init + [s[|s| - 1]];
    }
  }

  /** Without duplicates, no two positions hold the same element. */
  lemma NoDuplicatesIndices(s: seq<string>)
    requires NoDuplicates(s)
    ensures forall i, j :: 0 <= i < j < |s| ==> s[i] != s[j]
  {
    forall i, j | 0 <= i < j < |s| ensures s[i] != s[j] {
      var x := s[j];
      assert s == s[..j] + s[j..];
      assert x in s[j..];
      assert multiset(s)[x] == multiset(s[..j])[x] + multiset(s[j..])[x];
      assert multiset(s[..j])[x] == 0;
    }
  }

  /** The first `n` of a sorted list without duplicates are its `n` most frequent elements. */
  lemma TakeOfSorted(sorted: seq<string>, all: seq<string>, n: nat)
    requires NoDuplicates(sorted) && ByDescendingCount(sorted, all)
    ensures var top := Take(sorted, n);
            && |top| <= n
            && (forall i :: 0 <= i < |top| ==> top[i] == sorted[i])
            && (forall i, j :: 0 <= i < j < |top| ==> top[i] != top[j])
            && ByDescendingCount(top, all)
            && (forall w, i :: w in sorted && w !in top && 0 <= i < |top| ==> Count(all, w) <= Count(all, top[i]))
            && (|top| < n ==> top == sorted)
  {
    var top := Take(sorted, n);
    NoDuplicatesIndices(sorted);
    forall w, i | w in sorted && w !in top && 0 <= i < |top| ensures Count(all, w) <= Count(all, top[i]) {
      var k :| 0 <= k < |sorted| && sorted[k] == w;
      assert k >= |top|;
      assert sorted[i] == top[i];
    }
  }

  /**
   * `getMainTopics` names at most three distinct keywords, all said by the
   * user, in order of non-increasing count, and no keyword it leaves out
   * occurs more often than one it names; with fewer than three, it names them all.
   */
  lemma MainTopicsAreTopKeywords(messages: seq<Message>)
    ensures var topics := MainTopicList(messages);
            var all := UserKeywords(messages);
            && |topics| <= 3
            && (forall i, j :: 0 <= i < j < |topics| ==> topics[i] != topics[j])
            && (forall w :: w in topics ==> w in all)
            && ByDescendingCount(topics, all)
            && (forall w, i :: w in all && w !in topics && 0 <= i < |topics| ==> Count(all, w) <= Count(all, topics[i]))
            && (|topics| < 3 ==> forall w :: w in all ==> w in topics)
  {
    var all := UserKeywords(messages);
    var d := Distinct(all);
    var sorted := SortByCount(d, all);
    DistinctProperties(all);
    SortByCountProperties(d, all);
    assert forall w :: w in sorted <==> w in all by {
      forall w ensures w in sorted <==> w in all {
        assert w in sorted <==> w in multiset(sorted);
        assert w in d <==> w in multiset(d);
      }
    }
    TakeOfSorted(sorted, all, 3);
  }

  /** Messages of any role other than "user" do not change the topics. */
  lemma OnlyUserMessagesCount(messages: seq<Message>, role: string, content: string)
    requires role != "user"
    ensures UserKeywords(messages + [Message(role, content)]) == UserKeywords(messages)
    ensures MainTopicList(messages + [Message(role, content)]) == MainTopicList(messages)
  {
    assert (messages + [Message(role, content)])[..|messages|] == messages;
  }

  /** Every topic comes from the content of some user message, and has the shape of a keyword. */
  lemma {:induction false} TopicsComeFromUserMessages(messages: seq<Message>, w: string)
    requires w in UserKeywords(messages)
    ensures exists i :: 0 <= i < |messages| && messages[i].role == "user" && w in ExtractKeywords(messages[i].content)
    ensures IsLowerCase(w) && ' ' !in w && |w| > 3 && w != "with"
    decreases |messages|
  {
    var init := messages[..|messages| - 1];
    var last := messages[|messages| - 1];
    if w in UserKeywords(init) {
      TopicsComeFromUserMessages(init, w);
      var i :| 0 <= i < |init| && init[i].role == "user" && w in ExtractKeywords(init[i].content);
      assert messages[i] == init[i];
    } else {
      assert last.role == "user" && w in ExtractKeywords(last.content);
      KeywordShape(last.content, w);
    }
  }

  // ---------------------------------------------------------------------------
  // The context and the scripted assistant
  // ---------------------------------------------------------------------------

  /** `hasContext()`: more than two messages have been recorded. */
  predicate HasContext(messages: seq<Message>) {
    |messages| > 2
  }

  /** `ConversationContext`: the dialogue history, appended to in place. */
  class ConversationContext {
    var messages: seq<Message>

    constructor ()
      ensures messages == []
    {
      messages := [];
    }

    /** `addMessage`: one message more, at the end; the earlier ones stay as they were. */
    method AddMessage(role: string, content: string)
      modifies this
      ensures messages == old(messages) + [Message(role, content)]
      ensures |messages| == |old(messages)| + 1
      ensures messages[..|old(messages)|] == old(messages)
    {
      messages := messages + [Message(role, content)];
    }
  }

  /** The rules of `processUserInput`, in the order they are tried. */
  datatype ReplyKind = Greeting | RagInfo | VectorInfo | Examples | FollowUp | Default

  function ReplyKindOf(input: string, hasContext: bool): ReplyKind {
    if ContainsIgnoreCase(input, "hello") || ContainsIgnoreCase(input, "hi") then Greeting
    else if ContainsIgnoreCase(input, "RAG") || ContainsIgnoreCase(input, "retrieval") then RagInfo
    else if ContainsIgnoreCase(input, "vector") || ContainsIgnoreCase(input, "embedding") then VectorInfo
    else if ContainsIgnoreCase(input, "example") || ContainsIgnoreCase(input, "demo") then Examples
    else if hasContext then FollowUp
    else Default
  }

  function FixedReply(kind: ReplyKind): string
    requires kind != FollowUp
  {
    match kind
    case Greeting =>
      "Hello! Nice to meet you. What would you like to know about the Embabel Agent system?"
    case RagInfo =>
      "RAG (Retrieval-Augmented Generation) is a powerful technique that combines information retrieval with text generation. The Embabel Agent uses RAG to provide more accurate and contextual responses by retrieving relevant information from knowledge bases."
    case VectorInfo =>
      "Vector embeddings are numerical representations of text that capture semantic meaning. We use vector stores like Neo4j to efficiently search and retrieve similar content based on these embeddings."
    case Examples =>
      "I can show you various examples! We have demonstrations for RAG functionality, custom tools, vector store operations, and more. What specific area interests you?"
    case Default =>
      "That's an interesting question! While I'm a demonstration example, a full Embabel Agent would use its RAG capabilities and custom tools to provide detailed, contextually relevant answers. What else would you like to explore?"
  }

  /** The follow-up reply, the only one that depends on the history. */
  function FollowUpReply(topics: string): string {
    "Based on our conversation about " + topics + ", let me elaborate further. Is there a specific aspect you'd like me to focus on?"
  }

  function ReplyText(kind: ReplyKind, topics: string): string {
    if kind == FollowUp then FollowUpReply(topics) else FixedReply(kind)
  }

  /** The reply to `input`, given the history that already holds it as the last message. */
  function Reply(input: string, history: seq<Message>): string {
    ReplyText(ReplyKindOf(input, HasContext(history)), MainTopics(history))
  }

  /**
   * `processUserInput`: record the user's message, pick the reply against
   * that history, record the reply, and return it.
   */
  method ProcessUserInput(input: string, context: ConversationContext) returns (response: string)
    modifies context
    ensures response == Reply(input, old(context.messages) + [Message("user", input)])
    ensures context.messages == old(context.messages) + [Message("user", input), Message("assistant", response)]
    ensures |context.messages| == |old(context.messages)| + 2
  {
    context.AddMessage("user", input);
    var kind := ReplyKindOf(input, HasContext(context.messages));
    if kind == FollowUp {
      response := FollowUpReply(MainTopics(context.messages));
    } else {
      response := FixedReply(kind);
    }
    context.AddMessage("assistant", response);
  }

  /**
   * The first matching rule wins: a greeting word beats everything, then
   * RAG or retrieval, then vector or embedding, then example or demo, then
   * the follow-up when there is context, else the default reply.
   */
  lemma ReplyRuleOrder(input: string, hasContext: bool)
    ensures var greet := ContainsIgnoreCase(input, "hello") || ContainsIgnoreCase(input, "hi");
            var rag := ContainsIgnoreCase(input, "RAG") || ContainsIgnoreCase(input, "retrieval");
            var vector := ContainsIgnoreCase(input, "vector") || ContainsIgnoreCase(input, "embedding");
            var example := ContainsIgnoreCase(input, "example") || ContainsIgnoreCase(input, "demo");
            && (ReplyKindOf(input, hasContext) == Greeting <==> greet)
            && (ReplyKindOf(input, hasContext) == RagInfo <==> !greet && rag)
            && (ReplyKindOf(input, hasContext) == VectorInfo <==> !greet && !rag && vector)
            && (ReplyKindOf(input, hasContext) == Examples <==> !greet && !rag && !vector && example)
            && (ReplyKindOf(input, hasContext) == FollowUp <==> !greet && !rag && !vector && !example && hasContext)
            && (ReplyKindOf(input, hasContext) == Default <==> !greet && !rag && !vector && !example && !hasContext)
  {
  }

  /** The follow-up reply names the main topics right after its fixed opening words. */
  lemma FollowUpNamesTopics(input: string, history: seq<Message>)
    requires ReplyKindOf(input, HasContext(history)) == FollowUp
    ensures OccursAt(Reply(input, history), MainTopics(history), 32)
  {
    var a := "Based on our conversation about ";
    var b := ", let me elaborate further. Is there a specific aspect you'd like me to focus on?";
    var t := MainTopics(history);
    assert |a| == 32;
    assert Reply(input, history) == a + t + b;
    assert (a + t + b)[32..32 + |t|] == t;
  }

  /**
   * On the first turn of an empty conversation the follow-up rule cannot
   * fire: only the user's message has been recorded when the rule is evaluated.
   * From the second turn on, an input matching no keyword gets the follow-up.
   */
  lemma FollowUpNeedsHistory(input: string, before: seq<Message>)
    ensures before == [] ==> ReplyKindOf(input, HasContext(before + [Message("user", input)])) != FollowUp
    ensures |before| >= 2 ==> ReplyKindOf(input, HasContext(before + [Message("user", input)])) ==
                               ReplyKindOf(input, true)
  {
  }

  /** "hi" is matched as a substring, so "which" already counts as a greeting. */
  lemma GreetingMatchesInsideWords(hasContext: bool)
    ensures ReplyKindOf("which vector store?", hasContext) == Greeting
  {
    var input := "which vector store?";
    assert Lower(input) == input by {
      assert forall i :: 0 <= i < |input| ==> Lower(input)[i] == input[i];
    }
    assert Lower("hi") == "hi" by {
      assert forall i :: 0 <= i < 2 ==> Lower("hi")[i] == "hi"[i];
    }
    assert input[1..3] == "hi" by {
      assert input[1] == 'h' && input[2] == 'i';
    }
    assert OccursAt(input, "hi", 1);
    ContainsIff(input, "hi");
  }
}
