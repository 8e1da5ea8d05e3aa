/**
 * The answer server's POST /api/query handler (api_query in server.py):
 * request validation, the fixed-answer intents tried in order (name,
 * contact, languages, education, greeting), and the retrieval path with its
 * work-intent widening, the preferred-entry augmentation of the hit list and
 * the truncated context handed to the chat model.
 *
 * The embedding search (get_top_k) and the chat model (call_openai_chat) are
 * parameters: a Retriever and a ChatModel, each returning a value or the
 * message of the exception it raised.
 */
module QueryRoute {
  import opened Wrappers
  import opened Text
  import opened ServerHelpers

  const MaxContextChars: nat := 4000
  /** TOP_K when the environment does not set it. */
  const DefaultTopK: int := 3
  /** Work questions retrieve at least this many entries. */
  const WorkRetrievalMin: int := 5
  const ContextSeparator: string := "\n\n---\n\n"

  const OwnerName: string := "Omar Dalal"
  const NoContactAnswer: string := "No public contact information is present in the knowledge base."
  const ContactPresentAnswer: string := "Contact information is present in the profile."
  const LanguagesPresentAnswer: string := "Languages are mentioned in the profile."
  const EducationPresentAnswer: string := "Education is mentioned in the profile."
  const GreetingReply: string := "Hi! \U{1F44B} I'm an AI chatbot about Omar Dalal. Ask me anything!"
  const NothingFoundAnswer: string := "I couldn't find relevant information in the knowledge base."
  const MissingQuestion: string := "Missing question"
  const IndexOutOfRange: string := "list index out of range"

  const ContactKeywords: seq<string> := ["contact", "email", "phone", "contact information", "reach me", "mailto"]
  const LanguageKeywords: seq<string> := ["language", "languages", "speak", "fluent", "spoken"]
  const EducationKeywords: seq<string> :=
    ["university", "college", "degree", "studied", "education", "bachelor", "master", "msc", "phd", "bth", "blekinge"]
  /** KB ids whose entries every work question brings into the context, in this order. */
  const PreferredIds: seq<string> := ["humly", "outliar"]

  /** The `question` field of the JSON body: absent or falsy, a string, or a truthy non-string. */
  datatype QuestionField = NoQuestion | Question(text: string) | NonStringQuestion

  /** The `top_k` field: absent, a value int() accepts, or one it rejects. */
  datatype TopKField = TopKAbsent | TopKValue(n: int) | TopKUnconvertible

  datatype QueryBody = QueryBody(question: QuestionField, topK: TopKField)

  /** The pattern families, each applied to the lower-cased question. */
  datatype Intents = Intents(
    name: seq<Pattern>, contact: seq<Pattern>, languages: seq<Pattern>,
    education: seq<Pattern>, greeting: seq<Pattern>, work: seq<Pattern>)

  /** The handler's responses: a direct answer, an answer with the context it used, a JSON
      error with its status, or an exception that escapes the handler. */
  datatype Reply =
    | Answer(answer: string)
    | GroundedAnswer(answer: string, contextUsed: seq<string>)
    | ErrorReply(status: int, error: string)
    | InternalError

  /** get_top_k(question, k): positions of the best-scoring KB entries. */
  type Retriever = (string, int) -> Result<seq<nat>>

  /** call_openai_chat(prompt): the model's reply text. */
  type ChatModel = string -> Result<string>

  // ---------------------------------------------------------------------------
  // Retrieval size and the preferred-entry augmentation

  /** retrieval_k: top_k, widened to at least five for work questions. */
  function RetrievalK(topK: int, work: bool): (k: int)
    ensures !work ==> k == topK
    ensures work ==> k >= topK && k >= WorkRetrievalMin && (k == topK || k == WorkRetrievalMin)
  {
    if !work then topK else if topK >= WorkRetrievalMin then topK else WorkRetrievalMin
  }

  /** The position of the first KB entry with this id (the `next(...)` generator). */
  function IndexOfId(kb: seq<KbItem>, id: string): (r: Option<nat>)
    ensures r.Some? ==> r.value < |kb| && kb[r.value].id == Some(id)
    ensures r.Some? ==> forall j :: 0 <= j < r.value ==> kb[j].id != Some(id)
    ensures r.None? ==> forall j :: 0 <= j < |kb| ==> kb[j].id != Some(id)
  {
    if kb == [] then None
    else if kb[0].id == Some(id) then Some(0)
    else match IndexOfId(kb[1..], id)
      case None => None
      case Some(i) => Some(i + 1)
  }

  /** The generator's scan, stopping at the first entry with the id. */
  method FindIdIndex(kb: seq<KbItem>, id: string) returns (found: Option<nat>)
    ensures found == IndexOfId(kb, id)
  {
    for i := 0 to |kb|
      invariant forall j :: 0 <= j < i ==> kb[j].id != Some(id)
    {
      if kb[i].id == Some(id) {
        return Some(i);
      }
    }
    return None;
  }

  function AddIfAbsent(xs: seq<nat>, found: Option<nat>): seq<nat> {
    if found.Some? && found.value !in xs then xs + [found.value] else xs
  }

  /** The hit list after the first n preferred ids were considered. */
  function WithPreferred(idxs: seq<nat>, kb: seq<KbItem>, n: nat): seq<nat>
    requires n <= |PreferredIds|
  {
    if n == 0 then idxs else AddIfAbsent(WithPreferred(idxs, kb, n - 1), IndexOfId(kb, PreferredIds[n - 1]))
  }

  /** Python's xs[:k], including a negative k, which drops |k| elements from the end. */
  function PyPrefix<T>(xs: seq<T>, k: int): (r: seq<T>)
    ensures |r| <= |xs| && r == xs[..|r|]
    ensures k >= 0 ==> |r| == if k < |xs| then k else |xs|
    ensures k < 0 ==> |r| == if |xs| + k > 0 then |xs| + k else 0
  {
    if k >= 0 then (if k < |xs| then xs[..k] else xs)
    else if |xs| + k > 0 then xs[..|xs| + k] else []
  }

  /** The work-question hit list: preferred entries appended when present and missing, then cut to k. */
  function Augmented(idxs: seq<nat>, kb: seq<KbItem>, k: int): seq<nat> {
    PyPrefix(WithPreferred(idxs, kb, |PreferredIds|), k)
  }

  predicate NoDuplicates(xs: seq<nat>) {
    forall i, j :: 0 <= i < j < |xs| ==> xs[i] != xs[j]
  }

  /** Considering preferred ids only appends, appends only their KB positions, never repeats a
      position, and leaves every found preferred position in the list. */
  lemma {:induction false} WithPreferredSpec(idxs: seq<nat>, kb: seq<KbItem>, n: nat)
    requires n <= |PreferredIds|
    ensures |idxs| <= |WithPreferred(idxs, kb, n)| <= |idxs| + n
    ensures WithPreferred(idxs, kb, n)[..|idxs|] == idxs
    ensures forall x :: x in WithPreferred(idxs, kb, n) ==>
              x in idxs || exists m :: 0 <= m < n && IndexOfId(kb, PreferredIds[m]) == Some(x)
    ensures forall m :: 0 <= m < n && IndexOfId(kb, PreferredIds[m]).Some? ==>
              IndexOfId(kb, PreferredIds[m]).value in WithPreferred(idxs, kb, n)
    ensures NoDuplicates(idxs) ==> NoDuplicates(WithPreferred(idxs, kb, n))
  {
    if n > 0 {
      WithPreferredSpec(idxs, kb, n - 1);
      var prev := WithPreferred(idxs, kb, n - 1);
      var cur := WithPreferred(idxs, kb, n);
      assert cur == AddIfAbsent(prev, IndexOfId(kb, PreferredIds[n - 1]));
      if cur != prev {
        assert cur[..|prev|] == prev;
        assert cur[..|idxs|] == prev[..|idxs|];
      }
      forall x | x in cur
        ensures x in idxs || exists m :: 0 <= m < n && IndexOfId(kb, PreferredIds[m]) == Some(x)
      {
        if x !in prev {
          assert IndexOfId(kb, PreferredIds[n - 1]) == Some(x);
        }
      }
    }
  }

  /** The augmented list: at most k long, the original hits first and in order, only
      preferred positions added, no position added twice, and with room for both every
      preferred entry that exists is present. */
  lemma AugmentedSpec(idxs: seq<nat>, kb: seq<KbItem>, k: int)
    requires k >= 0
    ensures |Augmented(idxs, kb, k)| <= k
    ensures var cut := if k < |idxs| then k else |idxs|;
            |Augmented(idxs, kb, k)| >= cut && Augmented(idxs, kb, k)[..cut] == idxs[..cut]
    ensures forall x :: x in Augmented(idxs, kb, k) ==>
              x in idxs || exists m :: 0 <= m < |PreferredIds| && IndexOfId(kb, PreferredIds[m]) == Some(x)
    ensures NoDuplicates(idxs) ==> NoDuplicates(Augmented(idxs, kb, k))
    ensures k >= |idxs| + |PreferredIds| ==>
              forall m :: 0 <= m < |PreferredIds| && IndexOfId(kb, PreferredIds[m]).Some? ==>
                IndexOfId(kb, PreferredIds[m]).value in Augmented(idxs, kb, k)
  {
    var full := WithPreferred(idxs, kb, |PreferredIds|);
    WithPreferredSpec(idxs, kb, |PreferredIds|);
    var r := Augmented(idxs, kb, k);
    var cut := if k < |idxs| then k else |idxs|;
    assert r[..cut] == full[..cut] == full[..|idxs|][..cut];
    forall x | x in r
      ensures x in idxs || exists m :: 0 <= m < |PreferredIds| && IndexOfId(kb, PreferredIds[m]) == Some(x)
    {
      assert x in full;
    }
    if k >= |idxs| + |PreferredIds| {
      assert r == full;
    }
  }

  /** The work-question loop over the preferred ids, then the slice to retrieval_k. */
  method AugmentWorkHits(idxs: seq<nat>, kb: seq<KbItem>, k: int) returns (out: seq<nat>)
    ensures out == Augmented(idxs, kb, k)
  {
    out := idxs;
    for n := 0 to |PreferredIds|
      invariant out == WithPreferred(idxs, kb, n)
    {
      var found := FindIdIndex(kb, PreferredIds[n]);
      if found.Some? && found.value !in out {
        out := out + [found.value];
      }
    }
    out := PyPrefix(out, k);
  }

  // ---------------------------------------------------------------------------
  // Context and prompt

  /** One entry's part of the context: "title: summary", a blank line, then the text. */
  function ContextPart(item: KbItem): string {
    item.title + ": " + item.summary + "\n\n" + item.text
  }

  /** The joined parts cut to MAX_CONTEXT_CHARS. */
  function ContextString(parts: seq<string>): (ctx: string)
    ensures |ctx| <= MaxContextChars && |ctx| <= |Join(parts, ContextSeparator)|
    ensures ctx == Join(parts, ContextSeparator)[..|ctx|]
    ensures |Join(parts, ContextSeparator)| <= MaxContextChars ==> ctx == Join(parts, ContextSeparator)
    ensures |Join(parts, ContextSeparator)| > MaxContextChars ==> |ctx| == MaxContextChars
  {
    PyPrefix(Join(parts, ContextSeparator), MaxContextChars)
  }

  function Prompt(context: string, question: string): string {
    "Context:\n\n" + context + "\n\nUser question: \"" + question + "\""
  }

  // ---------------------------------------------------------------------------
  // The handler

  function ContactAnswer(s: Snippet): string {
    var joined := if s.summary != "" && s.text != "" then s.summary + "\n" + s.text else s.summary + s.text;
    var contact := Strip(joined, IsPySpace);
    if contact != "" then contact else ContactPresentAnswer
  }

  /** Python's `a or b or c` on strings. */
  function FirstNonEmpty(a: string, b: string, c: string): string {
    if a != "" then a else if b != "" then b else c
  }

  /** Every hit is a position in the KB. */
  predicate AllInRange(idxs: seq<nat>, size: nat) {
    forall j :: 0 <= j < |idxs| ==> idxs[j] < size
  }

  /** The context parts of the hit entries, in hit order. */
  function ContextParts(kb: seq<KbItem>, idxs: seq<nat>): seq<string>
    requires AllInRange(idxs, |kb|)
  {
    seq(|idxs|, j requires 0 <= j < |idxs| => ContextPart(kb[idxs[j]]))
  }

  /** From the final hit list on: the empty-list answer, the indexing, the prompt and the model.
      An exception in the indexing or the model becomes a 500 with its message. */
  function AnswerFromHits(question: string, kb: seq<KbItem>, idxs: seq<nat>, chat: ChatModel): Reply {
    if idxs == [] then Answer(NothingFoundAnswer)
    else if !AllInRange(idxs, |kb|) then ErrorReply(500, IndexOutOfRange)
    else
      var parts := ContextParts(kb, idxs);
      match chat(Prompt(ContextString(parts), question))
      case Err(e) => ErrorReply(500, e)
      case Ok(out) => GroundedAnswer(Strip(out, IsPySpace), parts)
  }

  /** The retrieval path: search with k, augment the hits of a work question, then answer from them.
      An exception in the search becomes a 500 with its message. */
  function Grounded(question: string, kb: seq<KbItem>, k: int, work: bool,
                    retrieve: Retriever, chat: ChatModel): Reply
  {
    match retrieve(question, k)
    case Err(e) => ErrorReply(500, e)
    case Ok(hits) => AnswerFromHits(question, kb, if work then Augmented(hits, kb, k) else hits, chat)
  }

  /** Everything after validation, for a stripped, non-empty question. */
  function RouteQuestion(question: string, topK: int, intents: Intents, kb: seq<KbItem>,
                         retrieve: Retriever, chat: ChatModel): Reply
  {
    var q := Lower(question);
    if AnyMatch(intents.name, q) then Answer(OwnerName)
    else if AnyMatch(intents.contact, q) then
      match KbSnippet(kb, ContactKeywords)
      case Some(s) => Answer(ContactAnswer(s))
      case None => Answer(NoContactAnswer)
    else if AnyMatch(intents.languages, q) && KbSnippet(kb, LanguageKeywords).Some? then
      var s := KbSnippet(kb, LanguageKeywords).value;
      Answer(FirstNonEmpty(s.summary, s.text, LanguagesPresentAnswer))
    else if AnyMatch(intents.education, q) && KbSnippet(kb, EducationKeywords).Some? then
      var s := KbSnippet(kb, EducationKeywords).value;
      Answer(FirstNonEmpty(s.summary, s.text, EducationPresentAnswer))
    else if GreetsAsWritten(question, intents.greeting) then Answer(GreetingReply)
    else
      var work := AnyMatch(intents.work, q);
      Grounded(question, kb, RetrievalK(topK, work), work, retrieve, chat)
  }

  /** api_query: read and strip the question, convert top_k, reject a blank question, route. */
  function Route(body: QueryBody, intents: Intents, kb: seq<KbItem>, defaultTopK: int,
                 retrieve: Retriever, chat: ChatModel): Reply
  {
    if body.question.NonStringQuestion? || body.topK.TopKUnconvertible? then InternalError
    else
      var question := if body.question.Question? then Strip(body.question.text, IsPySpace) else "";
      var topK := if body.topK.TopKValue? then body.topK.n else defaultTopK;
      if question == "" then ErrorReply(400, MissingQuestion)
      else RouteQuestion(question, topK, intents, kb, retrieve, chat)
  }

  /** A body without top_k retrieves with the server's TOP_K, 3 unless configured otherwise,
      and routes the stripped question. */
  lemma AbsentTopKUsesDefault(question: string, intents: Intents, kb: seq<KbItem>,
                              retrieve: Retriever, chat: ChatModel)
    requires Strip(question, IsPySpace) != ""
    ensures Route(QueryBody(Question(question), TopKAbsent), intents, kb, DefaultTopK, retrieve, chat)
            == RouteQuestion(Strip(question, IsPySpace), 3, intents, kb, retrieve, chat)
  {
    var body := QueryBody(Question(question), TopKAbsent);
    assert !body.question.NonStringQuestion? && !body.topK.TopKUnconvertible? && !body.topK.TopKValue?;
  }

  /** A well-formed body whose question is missing or blank gets the 400, whatever else holds. */
  lemma BlankQuestionRejected(body: QueryBody, intents: Intents, kb: seq<KbItem>, defaultTopK: int,
                              retrieve: Retriever, chat: ChatModel)
    requires !body.question.NonStringQuestion? && !body.topK.TopKUnconvertible?
    requires body.question.Question? ==> AllSpace(body.question.text, IsPySpace)
    ensures Route(body, intents, kb, defaultTopK, retrieve, chat) == ErrorReply(400, MissingQuestion)
  {
    if body.question.Question? {
      StripEmptyIff(body.question.text, IsPySpace);
    }
  }

  /** A truthy non-string question, or a top_k that int() rejects, raises before the blank check. */
  lemma MalformedBodyRaises(body: QueryBody, intents: Intents, kb: seq<KbItem>, defaultTopK: int,
                            retrieve: Retriever, chat: ChatModel)
    requires body.question.NonStringQuestion? || body.topK.TopKUnconvertible?
    ensures Route(body, intents, kb, defaultTopK, retrieve, chat) == InternalError
  {
  }

  /** The name patterns come first and always answer with the owner's name. */
  lemma NameAnsweredFirst(question: string, topK: int, intents: Intents, kb: seq<KbItem>,
                          retrieve: Retriever, chat: ChatModel)
    requires AnyMatch(intents.name, Lower(question))
    ensures RouteQuestion(question, topK, intents, kb, retrieve, chat) == Answer(OwnerName)
  {
  }

  /** A contact question with no KB entry mentioning contact keywords gets the fixed answer. */
  lemma ContactWithoutSnippet(question: string, topK: int, intents: Intents, kb: seq<KbItem>,
                              retrieve: Retriever, chat: ChatModel)
    requires !AnyMatch(intents.name, Lower(question)) && AnyMatch(intents.contact, Lower(question))
    requires forall j :: 0 <= j < |kb| ==> !Mentions(kb[j], LowerAll(ContactKeywords))
    ensures RouteQuestion(question, topK, intents, kb, retrieve, chat) == Answer(NoContactAnswer)
  {
  }

  /** A languages or education question with no matching KB entry is routed as if its
      patterns had not matched: it falls through to the greeting and retrieval steps. */
  lemma IntentWithoutSnippetFallsThrough(question: string, topK: int, intents: Intents, kb: seq<KbItem>,
                                         retrieve: Retriever, chat: ChatModel)
    ensures KbSnippet(kb, LanguageKeywords).None? ==>
              RouteQuestion(question, topK, intents, kb, retrieve, chat)
              == RouteQuestion(question, topK, intents.(languages := []), kb, retrieve, chat)
    ensures KbSnippet(kb, EducationKeywords).None? ==>
              RouteQuestion(question, topK, intents, kb, retrieve, chat)
              == RouteQuestion(question, topK, intents.(education := []), kb, retrieve, chat)
  {
  }

  /** With no fixed-answer intent answering, a greeting gets the greeting reply; otherwise
      the question goes to retrieval with the widened size for work questions. */
  lemma GreetingThenRetrieval(question: string, topK: int, intents: Intents, kb: seq<KbItem>,
                              retrieve: Retriever, chat: ChatModel)
    requires var q := Lower(question);
             && !AnyMatch(intents.name, q) && !AnyMatch(intents.contact, q)
             && !(AnyMatch(intents.languages, q) && KbSnippet(kb, LanguageKeywords).Some?)
             && !(AnyMatch(intents.education, q) && KbSnippet(kb, EducationKeywords).Some?)
    ensures GreetsAsWritten(question, intents.greeting) ==>
              RouteQuestion(question, topK, intents, kb, retrieve, chat) == Answer(GreetingReply)
    ensures !GreetsAsWritten(question, intents.greeting) ==>
              var work := AnyMatch(intents.work, Lower(question));
              RouteQuestion(question, topK, intents, kb, retrieve, chat)
              == Grounded(question, kb, RetrievalK(topK, work), work, retrieve, chat)
  {
  }

  /** When the model answers, the reply carries one context part per hit, in hit order, and the
      prompt it was asked holds at most MAX_CONTEXT_CHARS characters of context. */
  lemma GroundedAnswerShape(question: string, kb: seq<KbItem>, idxs: seq<nat>, chat: ChatModel)
    requires AnswerFromHits(question, kb, idxs, chat).GroundedAnswer?
    ensures var used := AnswerFromHits(question, kb, idxs, chat).contextUsed;
            && idxs != [] && AllInRange(idxs, |kb|)
            && |used| == |idxs|
            && (forall j :: 0 <= j < |idxs| ==> used[j] == ContextPart(kb[idxs[j]]))
            && chat(Prompt(ContextString(used), question)).Ok?
            && AnswerFromHits(question, kb, idxs, chat).answer
               == Strip(chat(Prompt(ContextString(used), question)).value, IsPySpace)
  {
  }

  /** Past the fixed intents, "hey", "hi", "hello" and "hiya", in any case and with any
      surrounding white space, get the greeting reply. */
  lemma ShortGreetingAnswered(question: string, topK: int, intents: Intents, kb: seq<KbItem>,
                              retrieve: Retriever, chat: ChatModel)
    requires var q := Lower(question);
             && !AnyMatch(intents.name, q) && !AnyMatch(intents.contact, q)
             && !(AnyMatch(intents.languages, q) && KbSnippet(kb, LanguageKeywords).Some?)
             && !(AnyMatch(intents.education, q) && KbSnippet(kb, EducationKeywords).Some?)
    requires Strip(Lower(question), IsPySpace) in ShortPhrases
    ensures RouteQuestion(question, topK, intents, kb, retrieve, chat) == Answer(GreetingReply)
  {
    ShortPhrasesGreetAsWritten(question, intents.greeting);
  }

  /** As written, the listed phrase "how r u" is no greeting: when no pattern family matches
      it, the handler sends it to retrieval instead of answering with the greeting reply. */
  lemma HowRUGoesToRetrieval(topK: int, intents: Intents, kb: seq<KbItem>,
                             retrieve: Retriever, chat: ChatModel)
    requires var q := "how r u";
             && !AnyMatch(intents.name, q) && !AnyMatch(intents.contact, q)
             && !AnyMatch(intents.languages, q) && !AnyMatch(intents.education, q)
             && !AnyMatch(intents.greeting, q)
    ensures var work := AnyMatch(intents.work, "how r u");
            RouteQuestion("how r u", topK, intents, kb, retrieve, chat)
            == Grounded("how r u", kb, RetrievalK(topK, work), work, retrieve, chat)
  {
    assert Lower("how r u") == "how r u";
    ThreeWordPhraseMissed(intents.greeting);
  }

  /** The handler as written: each `for pat in ...` loop, the snippet lookups, the greeting
      check, and the retrieval path with the in-place augmentation of the hit list. */
  method ApiQuery(body: QueryBody, intents: Intents, kb: seq<KbItem>, defaultTopK: int,
                  retrieve: Retriever, chat: ChatModel) returns (reply: Reply)
    ensures reply == Route(body, intents, kb, defaultTopK, retrieve, chat)
  {
    if body.question.NonStringQuestion? || body.topK.TopKUnconvertible? {
      return InternalError;
    }
    var question := if body.question.Question? then Strip(body.question.text, IsPySpace) else "";
    var topK := if body.topK.TopKValue? then body.topK.n else defaultTopK;
    if question == "" {
      return ErrorReply(400, MissingQuestion);
    }
    var q := Lower(question);

    var hit := SearchPatterns(intents.name, q);
    if hit {
      return Answer(OwnerName);
    }
    hit := SearchPatterns(intents.contact, q);
    if hit {
      var found := FindKbSnippet(kb, ContactKeywords);
      if found.Some? {
        return Answer(ContactAnswer(found.value));
      }
      return Answer(NoContactAnswer);
    }
    hit := SearchPatterns(intents.languages, q);
    if hit {
      var found := FindKbSnippet(kb, LanguageKeywords);
      if found.Some? {
        return Answer(FirstNonEmpty(found.value.summary, found.value.text, LanguagesPresentAnswer));
      }
    }
    hit := SearchPatterns(intents.education, q);
    if hit {
      var found := FindKbSnippet(kb, EducationKeywords);
      if found.Some? {
        return Answer(FirstNonEmpty(found.value.summary, found.value.text, EducationPresentAnswer));
      }
    }
    var greeting := IsGreeting(question, intents.greeting);
    if greeting {
      return Answer(GreetingReply);
    }

    var work := SearchPatterns(intents.work, q);
    var k := RetrievalK(topK, work);
    reply := Retrieve(question, kb, k, work, retrieve, chat);
  }

  /** The try block of the handler. */
  method Retrieve(question: string, kb: seq<KbItem>, k: int, work: bool,
                  retrieve: Retriever, chat: ChatModel) returns (reply: Reply)
    ensures reply == Grounded(question, kb, k, work, retrieve, chat)
  {
    var hits := retrieve(question, k);
    if hits.Err? {
      return ErrorReply(500, hits.message);
    }
    var idxs := hits.value;
    if work {
      idxs := AugmentWorkHits(idxs, kb, k);
    }
    if idxs == [] {
      return Answer(NothingFoundAnswer);
    }
    if exists j | 0 <= j < |idxs| :: idxs[j] >= |kb| {
      return ErrorReply(500, IndexOutOfRange);
    }
    var parts := ContextParts(kb, idxs);
    var answer := chat(Prompt(ContextString(parts), question));
    if answer.Err? {
      return ErrorReply(500, answer.message);
    }
    return GroundedAnswer(Strip(answer.value, IsPySpace), parts);
  }
}
