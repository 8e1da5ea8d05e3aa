/**
 * The portfolio's chat widget (MiniChatBot.jsx): a message log, an input
 * buffer and a single-flight `processing` flag. Sending a question appends
 * the user's message and a "thinking" placeholder; when the answer service
 * settles, the newest bot message matching /thinking/i is overwritten with
 * the answer or an error line, or the line is appended when none matches,
 * and the flag is always released.
 *
 * The fetch itself is not modelled: its result is an Outcome value handed to
 * Resolve. Submit and Resolve are atomic steps.
 */
module ChatWidget {
  import opened Wrappers
  import opened Text

  datatype Sender = User | Bot

  datatype Message = Message(sender: Sender, text: string)

  /** The bot's opening line, the only message of a fresh widget. */
  const Greeting: string :=
    "\U{1F44B} Hi! I'm Omar's portfolio chatbot \U{2014} ask me anything about Omar's experience, skills, projects or contact info."

  /** The in-progress marker appended with every accepted question. */
  const Placeholder: string := "\U{23F3} Thinking..."

  const ErrorPrefix: string := "\U{26A0}\U{FE0F} Error: "
  const ErrorSuffix: string := ". Try again later."

  const DefaultApiBase: string := "http://localhost:8080"

  /** The number of passages every request asks the server for. */
  const RequestTopK: int := 3

  /** Body of a non-2xx response: either not JSON at all, or a JSON object with an optional `error` field. */
  datatype ErrorBody = Unparseable | ErrorJson(error: Option<string>)

  /** How the request settled, standing in for the fetch and the parsing of its body. */
  datatype Outcome =
    | Answered(answer: Option<string>)  // 2xx with a JSON body; its `answer` field
    | Rejected(body: ErrorBody)         // non-2xx status
    | Thrown(message: string)           // the fetch or the parsing threw an error with this message

  /** The POST to {base}/api/query with JSON body { question, top_k }. */
  datatype QueryRequest = QueryRequest(url: string, question: string, topK: int)

  /** JavaScript truthiness of an optional string: present and non-empty. */
  predicate Truthy(s: Option<string>) {
    s.Some? && s.value != ""
  }

  /** The base URL: VITE_API_URL, else REACT_APP_API_URL, else the local default; `||` skips empty values. */
  function ApiBase(viteApiUrl: Option<string>, reactAppApiUrl: Option<string>): (base: string)
    ensures base != ""
    ensures Truthy(viteApiUrl) ==> base == viteApiUrl.value
    ensures !Truthy(viteApiUrl) && Truthy(reactAppApiUrl) ==> base == reactAppApiUrl.value
    ensures !Truthy(viteApiUrl) && !Truthy(reactAppApiUrl) ==> base == DefaultApiBase
  {
    if Truthy(viteApiUrl) then viteApiUrl.value
    else if Truthy(reactAppApiUrl) then reactAppApiUrl.value
    else DefaultApiBase
  }

  /** The message of the Error thrown for a non-2xx response: `err.error || "Server error"`,
      where an unparseable body reads as { error: "Unknown server error" }. */
  function FailureMessage(body: ErrorBody): (m: string)
    ensures m != ""
  {
    match body
    case Unparseable => "Unknown server error"
    case ErrorJson(e) => if Truthy(e) then e.value else "Server error"
  }

  /** The bot line shown for a failure with the given error message. */
  function ErrorText(message: string): string {
    ErrorPrefix + (if message == "" then "server error" else message) + ErrorSuffix
  }

  /** Recovers the reason from a bot error line: the inverse of ErrorText. */
  function ErrorReason(t: string): Option<string> {
    if |ErrorPrefix| + |ErrorSuffix| <= |t|
       && t[..|ErrorPrefix|] == ErrorPrefix && t[|t| - |ErrorSuffix|..] == ErrorSuffix
    then Some(t[|ErrorPrefix|..|t| - |ErrorSuffix|])
    else None
  }

  lemma ErrorTextRoundTrip(message: string)
    ensures ErrorReason(ErrorText(message)) == Some(if message == "" then "server error" else message)
  {
    var m := if message == "" then "server error" else message;
    var t := ErrorText(message);
    assert t == ErrorPrefix + m + ErrorSuffix;
    assert t[..|ErrorPrefix|] == ErrorPrefix;
    assert t[|t| - |ErrorSuffix|..] == ErrorSuffix;
    assert t[|ErrorPrefix|..|t| - |ErrorSuffix|] == m;
  }

  /** The text that replaces the placeholder once the request settles. */
  function ReplyText(outcome: Outcome): (t: string)
    ensures t != ""
    ensures outcome.Answered? ==>
              t == (if Truthy(outcome.answer) then outcome.answer.value else "No answer")
  {
    match outcome
    case Answered(answer) => if Truthy(answer) then answer.value else "No answer"
    case Rejected(body) => ErrorText(FailureMessage(body))
    case Thrown(message) => ErrorText(message)
  }

  /** Every failure leaves a visible error line whose reason is never empty; a non-2xx
      response reports the server's `error` text when it sent one. */
  lemma {:induction false} FailureReplyReason(outcome: Outcome)
    requires !outcome.Answered?
    ensures ErrorReason(ReplyText(outcome)).Some?
    ensures ErrorReason(ReplyText(outcome)).value != ""
    ensures outcome.Rejected? && outcome.body.ErrorJson? && Truthy(outcome.body.error) ==>
              ErrorReason(ReplyText(outcome)) == outcome.body.error
    ensures outcome.Rejected? && outcome.body.ErrorJson? && !Truthy(outcome.body.error) ==>
              ErrorReason(ReplyText(outcome)) == Some("Server error")
    ensures outcome == Rejected(Unparseable) ==> ErrorReason(ReplyText(outcome)) == Some("Unknown server error")
    ensures outcome == Thrown("") ==> ErrorReason(ReplyText(outcome)) == Some("server error")
    ensures outcome.Thrown? && outcome.message != "" ==> ErrorReason(ReplyText(outcome)) == Some(outcome.message)
  {
    match outcome
    case Rejected(body) => ErrorTextRoundTrip(FailureMessage(body));
    case Thrown(message) => ErrorTextRoundTrip(message);
  }

  /** The widget's placeholder test: a bot message whose text matches /thinking/i.
      The pattern is all ASCII, and a case-insensitive JavaScript regular expression
      never folds a non-ASCII character onto an ASCII one, so ASCII lower-casing is exact. */
  predicate IsPlaceholder(m: Message) {
    m.sender == Bot && Contains(Lower(m.text), "thinking")
  }

  lemma PlaceholderIsRecognised()
    ensures IsPlaceholder(Message(Bot, Placeholder))
  {
    var low := Lower(Placeholder);
    assert low[2..10] == "thinking";
    assert OccursAt(low, "thinking", 2);
  }

  /** The index of the newest placeholder, found by scanning from the end. */
  function LastPlaceholder(log: seq<Message>): (r: Option<nat>)
    ensures r.Some? ==> r.value < |log| && IsPlaceholder(log[r.value])
    ensures r.Some? ==> forall j :: r.value < j < |log| ==> !IsPlaceholder(log[j])
    ensures r.None? ==> forall j :: 0 <= j < |log| ==> !IsPlaceholder(log[j])
  {
    if log == [] then None
    else if IsPlaceholder(log[|log| - 1]) then Some(|log| - 1)
    else LastPlaceholder(log[..|log| - 1])
  }

  /** The log after a reply: the newest placeholder overwritten, or the reply appended. */
  function Settle(log: seq<Message>, reply: string): seq<Message> {
    match LastPlaceholder(log)
    case Some(k) => log[k := Message(Bot, reply)]
    case None => log + [Message(Bot, reply)]
  }

  /** Settling overwrites exactly the newest placeholder and nothing else. */
  lemma SettleReplacesNewest(log: seq<Message>, reply: string, k: nat)
    requires k < |log| && IsPlaceholder(log[k])
    requires forall j :: k < j < |log| ==> !IsPlaceholder(log[j])
    ensures |Settle(log, reply)| == |log|
    ensures Settle(log, reply)[k] == Message(Bot, reply)
    ensures forall j :: 0 <= j < |log| && j != k ==> Settle(log, reply)[j] == log[j]
  {
  }

  /** With no placeholder in the log the reply is appended, never dropped. */
  lemma SettleAppendsWhenNoPlaceholder(log: seq<Message>, reply: string)
    requires forall j :: 0 <= j < |log| ==> !IsPlaceholder(log[j])
    ensures Settle(log, reply) == log + [Message(Bot, reply)]
  {
  }

  /** Whatever the log, the reply ends up in it, the length grows by at most one,
      and every user message stays where it was. */
  lemma SettleKeepsReplyAndUsers(log: seq<Message>, reply: string)
    ensures Message(Bot, reply) in Settle(log, reply)
    ensures |log| <= |Settle(log, reply)| <= |log| + 1
    ensures forall j :: 0 <= j < |log| && log[j].sender == User ==> Settle(log, reply)[j] == log[j]
  {
    match LastPlaceholder(log)
    case Some(k) => assert Settle(log, reply)[k] == Message(Bot, reply);
    case None => assert Settle(log, reply)[|log|] == Message(Bot, reply);
  }

  /** When the log ends with the placeholder, that last message is the one replaced. */
  lemma SettleAtLast(log: seq<Message>, reply: string)
    requires |log| > 0 && log[|log| - 1] == Message(Bot, Placeholder)
    ensures Settle(log, reply) == log[..|log| - 1] + [Message(Bot, reply)]
  {
    PlaceholderIsRecognised();
  }

  /** Single flight: resolving right after a submission turns the pair it appended into
      [question, reply]; the length is that right after the submission. */
  lemma {:induction false} SingleFlightRound(log: seq<Message>, question: string, reply: string)
    ensures Settle(log + [Message(User, question), Message(Bot, Placeholder)], reply)
            == log + [Message(User, question), Message(Bot, reply)]
  {
    var s := log + [Message(User, question), Message(Bot, Placeholder)];
    SettleAtLast(s, reply);
    assert s[..|s| - 1] == log + [Message(User, question)];
  }

  /** A round that the server answers with a non-empty answer ends with the question
      followed by that answer, after the log as it was before the round. */
  lemma AnsweredRound(log: seq<Message>, question: string, answer: string)
    requires answer != ""
    ensures Settle(log + [Message(User, question), Message(Bot, Placeholder)], ReplyText(Answered(Some(answer))))
            == log + [Message(User, question), Message(Bot, answer)]
  {
    SingleFlightRound(log, question, answer);
  }

  /** Two sequential rounds: the first reply lands before the second question. */
  lemma {:induction false} TwoRoundsInOrder(log: seq<Message>, qa: string, ra: string, qb: string, rb: string)
    ensures var afterA := Settle(log + [Message(User, qa), Message(Bot, Placeholder)], ra);
            Settle(afterA + [Message(User, qb), Message(Bot, Placeholder)], rb)
            == log + [Message(User, qa), Message(Bot, ra), Message(User, qb), Message(Bot, rb)]
  {
    SingleFlightRound(log, qa, ra);
    var afterA := log + [Message(User, qa), Message(Bot, ra)];
    SingleFlightRound(afterA, qb, rb);
  }

  /** The state updater of the resolution step: copy the log, scan it backwards for the
      newest placeholder, and overwrite it or push the reply. */
  method ReplacePlaceholder(prev: seq<Message>, reply: string) returns (next: seq<Message>)
    ensures next == Settle(prev, reply)
  {
    var copy := prev;
    var idx := -1;
    var i := |copy| - 1;
    while i >= 0
      invariant -1 <= i < |copy|
      invariant forall j :: i < j < |copy| ==> !IsPlaceholder(copy[j])
    {
      if copy[i].sender == Bot && Contains(Lower(copy[i].text), "thinking") {
        idx := i;
        break;
      }
      i := i - 1;
    }
    if idx >= 0 {
      copy := copy[idx := Message(Bot, reply)];
    } else {
      copy := copy + [Message(Bot, reply)];
    }
    next := copy;
  }

  class MiniChatBot {
    const apiBase: string
    var messages: seq<Message>
    var input: string
    var processing: bool

    /** The log is never empty, and while a request is in flight it ends with its placeholder. */
    ghost predicate Valid()
      reads this
    {
      |messages| > 0 && (processing ==> messages[|messages| - 1] == Message(Bot, Placeholder))
    }

    constructor (viteApiUrl: Option<string>, reactAppApiUrl: Option<string>)
      ensures Valid()
      ensures messages == [Message(Bot, Greeting)] && input == "" && !processing
      ensures apiBase == ApiBase(viteApiUrl, reactAppApiUrl)
    {
      apiBase := ApiBase(viteApiUrl, reactAppApiUrl);
      messages := [Message(Bot, Greeting)];
      input := "";
      processing := false;
    }

    /** The input box's change handler. */
    method Edit(value: string)
      requires Valid()
      modifies this
      ensures Valid()
      ensures input == value && messages == old(messages) && processing == old(processing)
    {
      input := value;
    }

    /** The synchronous part of sendMessage: admission, the two appends, clearing the
        input and raising the flag. Returns the request to send, or None when ignored. */
    method Submit(text: string) returns (request: Option<QueryRequest>)
      requires Valid()
      modifies this
      ensures Valid()
      ensures request.Some? <==> Strip(text, IsJsSpace) != "" && !old(processing)
      ensures request.None? ==>
                messages == old(messages) && input == old(input) && processing == old(processing)
      ensures request.Some? ==>
                var trimmed := Strip(text, IsJsSpace);
                && messages == old(messages) + [Message(User, trimmed), Message(Bot, Placeholder)]
                && input == "" && processing
                && request.value == QueryRequest(apiBase + "/api/query", trimmed, RequestTopK)
    {
      var trimmed := Strip(text, IsJsSpace);
      if trimmed == "" || processing {
        return None;
      }
      messages := messages + [Message(User, trimmed), Message(Bot, Placeholder)];
      input := "";
      processing := true;
      request := Some(QueryRequest(apiBase + "/api/query", trimmed, RequestTopK));
    }

    /** The send button and the Enter key: sendMessage(input). */
    method HandleSend() returns (request: Option<QueryRequest>)
      requires Valid()
      modifies this
      ensures Valid()
      ensures request.Some? <==> Strip(old(input), IsJsSpace) != "" && !old(processing)
      ensures request.None? ==> messages == old(messages) && input == old(input) && processing == old(processing)
      ensures request.Some? ==>
                var trimmed := Strip(old(input), IsJsSpace);
                && messages == old(messages) + [Message(User, trimmed), Message(Bot, Placeholder)]
                && input == "" && processing
                && request.value == QueryRequest(apiBase + "/api/query", trimmed, RequestTopK)
    {
      request := Submit(input);
    }

    /** The asynchronous part of sendMessage: write the reply (or error line) over the
        newest placeholder, or append it, and release the flag in every case. */
    method Resolve(outcome: Outcome)
      requires Valid()
      modifies this
      ensures Valid()
      ensures messages == Settle(old(messages), ReplyText(outcome))
      ensures !processing && input == old(input)
      ensures old(processing) ==>
                messages == old(messages)[..|old(messages)| - 1] + [Message(Bot, ReplyText(outcome))]
    {
      var reply := ReplyText(outcome);
      var next := ReplacePlaceholder(messages, reply);
      SettleKeepsReplyAndUsers(messages, reply);
      if processing {
        SettleAtLast(messages, reply);
      }
      messages := next;
      processing := false;
    }
  }
}
