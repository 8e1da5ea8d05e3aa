# Portfolio chatbot: widget session and answer server, in Dafny

This project models the two halves of the portfolio site's chatbot.

**The chat widget** (`MiniChatBot.jsx`, module `ChatWidget`). The widget keeps three pieces of state:

- a message log that starts with one bot greeting;
- an input buffer;
- a `processing` flag that allows one request in flight at a time.

The class `MiniChatBot` holds this state. `Submit` is the synchronous half of `sendMessage`:

- it trims the text;
- it ignores a blank question, and any question while a request is in flight;
- otherwise it appends the user's message and the bot placeholder "⏳ Thinking...", clears the input and raises the flag.

`Resolve` is the asynchronous half. It takes the settled request as an abstract `Outcome`: an answer, a non-2xx body, or a thrown error. It then scans the log from the end for the newest bot message matching `/thinking/i`. It overwrites that message with the answer or the formatted error line, or appends the line when nothing matches. It always clears the flag.

`ReplacePlaceholder` is that backward scan as a loop. It is proved against the specification function `Settle`.

**The answer server** (`server.py`, modules `ServerHelpers` and `QueryRoute`). This half covers:

- the year extraction, the greeting test and the keyword lookup in the knowledge base (KB);
- the `/api/query` handler: validation, then the fixed-answer intents in order, then the greeting;
- the retrieval path, with its widened size for work questions, the preferred-entry augmentation and the 4000-character context cut.

Regular-expression pattern lists are abstract predicates (`Pattern`), tried in order. The embedding search and the chat model are function parameters (`Retriever`, `ChatModel`). Each of them returns a value or the message of the exception it raised.

`Text` holds the string helpers both halves share:

- JavaScript's and Python's white-space classes, which differ on a few code points;
- stripping, ASCII lower-casing, substring search, joining and word counting.

Points where the behaviour is easy to misread:

- **Which message is the placeholder.** The widget finds it with a case-insensitive *substring* test for "thinking", not by exact equality with the marker. So any bot message containing "thinking" can be replaced (`IsPlaceholder`).
- **Messages.** A message is a `{sender, text}` record, and the model keeps exactly those two fields.
- **Base URL.** The base URL falls back through two environment variables, `VITE_API_URL` and then `REACT_APP_API_URL`, before `http://localhost:8080`.
- **Order of validation.** The handler converts `top_k` with `int()` *before* it checks for a blank question. A malformed `top_k` therefore raises even when the question is missing (`MalformedBodyRaises`). So does a truthy non-string question.

## Model

| member | source | states |
|---|---|---|
| ChatWidget.ApiBase | src/components/sections/MiniChatBot.jsx:11 | the base URL is never empty: VITE_API_URL if non-empty, else REACT_APP_API_URL if non-empty, else http://localhost:8080 |
| ChatWidget.MiniChatBot.constructor | src/components/sections/MiniChatBot.jsx:5-11 | a fresh widget holds only the greeting, an empty input, no request in flight, and the resolved base URL |
| ChatWidget.MiniChatBot.Edit | src/components/sections/MiniChatBot.jsx:123 | typing replaces the input and changes nothing else |
| Text.StripEmptyIff | src/components/sections/MiniChatBot.jsx:19-20 | the trimmed text is empty exactly when every character is white space, so only such input is ignored as blank |
| ChatWidget.MiniChatBot.Submit | src/components/sections/MiniChatBot.jsx:18-32 | accepted iff the trimmed text is non-empty and no request is in flight; a rejected call changes nothing; an accepted one appends exactly [user: trimmed, bot: placeholder] after the old log, clears the input, sets processing, and issues POST {base}/api/query with question = trimmed and top_k = 3 |
| ChatWidget.MiniChatBot.HandleSend | src/components/sections/MiniChatBot.jsx:83 | the send button submits the current input, with Submit's guarantees |
| ChatWidget.FailureMessage | src/components/sections/MiniChatBot.jsx:34-36 | the error of a non-2xx response is never empty ("Unknown server error" for an unparseable body, "Server error" when `error` is missing or empty) |
| ChatWidget.ReplyText | src/components/sections/MiniChatBot.jsx:40-41 | the line written back is never empty; for an answered request it is the answer when that is present and non-empty, and "No answer" otherwise |
| ChatWidget.ErrorTextRoundTrip | src/components/sections/MiniChatBot.jsx:73 | the error line is "⚠️ Error: " + reason + ". Try again later." and the reason can be read back from it; an empty message becomes "server error" |
| ChatWidget.FailureReplyReason | src/components/sections/MiniChatBot.jsx:34-37 | every failure yields an error line with a non-empty reason: the server's `error` text when it sent one, "Server error" when `error` is missing or empty, "Unknown server error" for an unparseable body, the thrown message otherwise, and "server error" for a thrown error without a message |
| ChatWidget.PlaceholderIsRecognised | src/components/sections/MiniChatBot.jsx:23 | the placeholder the widget appends matches the bot-and-/thinking/i test it later searches for |
| ChatWidget.LastPlaceholder | src/components/sections/MiniChatBot.jsx:46-52 | the backward scan finds the highest index holding a bot message matching /thinking/i, and None exactly when there is none |
| ChatWidget.ReplacePlaceholder | src/components/sections/MiniChatBot.jsx:44-59 | the updater's loop (copy, scan from the end, break on the first match, overwrite or push) computes Settle of the old log |
| ChatWidget.SettleReplacesNewest | src/components/sections/MiniChatBot.jsx:53-54 | resolution overwrites the newest placeholder with the reply, keeps the length, and leaves every other index unchanged |
| ChatWidget.SettleAppendsWhenNoPlaceholder | src/components/sections/MiniChatBot.jsx:55-57 | with no placeholder in the log the reply is appended after the old log |
| ChatWidget.SettleKeepsReplyAndUsers | src/components/sections/MiniChatBot.jsx:63-76 | the reply always ends up in the log, the length grows by at most one, and every user message stays at its index |
| ChatWidget.SettleAtLast | src/components/sections/MiniChatBot.jsx:44-58 | when the log ends with the placeholder, exactly that last message is replaced |
| ChatWidget.SingleFlightRound | src/components/sections/MiniChatBot.jsx:20-58 | resolving right after a submission turns its [question, placeholder] pair into [question, reply]; the length equals the length right after submission |
| ChatWidget.AnsweredRound | src/components/sections/MiniChatBot.jsx:40-58 | a round answered with a non-empty answer leaves [question, answer] after the log as it was before the round |
| ChatWidget.TwoRoundsInOrder | src/components/sections/MiniChatBot.jsx:18-81 | two sequential rounds leave [q1, r1, q2, r2] after the old log: the first reply precedes the second question |
| ChatWidget.MiniChatBot.Resolve | src/components/sections/MiniChatBot.jsx:34-80 | the log becomes Settle(old log, reply text), processing is false on every outcome, the input is untouched, and with a request in flight only the last (placeholder) message changes |
| ServerHelpers.SearchPatterns | src/components/sections/server/server.py:222-223 | the `for pat in ...: if re.search(pat, q_lower)` loop (used for every pattern family of the handler and of is_greeting) reports a hit exactly when some pattern matches |
| ServerHelpers.FindYears | src/components/sections/server/server.py:119 | every year that findall returns lies in 1900..2099 |
| ServerHelpers.FindYearsSound | src/components/sections/server/server.py:119 | every year found is the value of a 19dd/20dd match at some position of the text |
| ServerHelpers.FindYearsComplete | src/components/sections/server/server.py:119 | a 19dd/20dd match anywhere in the text means findall finds at least one year |
| ServerHelpers.MaxOf | src/components/sections/server/server.py:120 | max returns an element that is at least every element |
| ServerHelpers.ExtractMostRecentYear | src/components/sections/server/server.py:116-120 | None iff findall finds nothing (in particular for empty text); otherwise one of the found years, at least every found year, within 1900..2099 |
| ServerHelpers.ExtractMostRecentYearSpec | src/components/sections/server/server.py:116-120 | None exactly when no position of the text matches the year pattern; otherwise the year is the value of a match in the text |
| ServerHelpers.OverlappingYearNotSeen | src/components/sections/server/server.py:119 | matches do not overlap: in "192099" only 1920 is returned although "2099" also fits the pattern |
| ServerHelpers.ThreeWordPhraseMissed | src/components/sections/server/server.py:110-114 | as written, the listed phrase "how r u" is not a greeting unless a pattern matches it: it is already lower-cased and stripped, and split() gives it three words, over the two-word bound |
| ServerHelpers.GreetsExtendsAsWritten | src/components/sections/server/server.py:114 | the corrected test accepts everything the written one accepts, and the two differ only on the three-word phrases "how are you" and "how r u" |
| ServerHelpers.ShortPhrasesGreetAsWritten | src/components/sections/server/server.py:107-114 | as written, "hey", "hi", "hello" and "hiya", in any case and with any surrounding white space, are greetings whatever the patterns |
| ServerHelpers.GreetingPhrasesGreet | src/components/sections/server/server.py:107-114 | corrected: every listed phrase, after lower-casing and stripping, is a greeting; empty text never is |
| ServerHelpers.IsGreeting | src/components/sections/server/server.py:107-114 | the pattern loop with early return, then the phrase fallback with its two-word bound, computes is_greeting as written (GreetsAsWritten) |
| ServerHelpers.FirstMention | src/components/sections/server/server.py:139-143 | the first KB position, in list order, whose lower-cased joined title, summary and text contains some key; None iff no entry does |
| ServerHelpers.FindKbSnippet | src/components/sections/server/server.py:136-144 | the nested loops return the (title, summary, text) of that first entry, and None exactly when no entry mentions a keyword |
| QueryRoute.MalformedBodyRaises | src/components/sections/server/server.py:213-215 | a truthy non-string question, or a top_k that int() rejects, raises before any other check |
| QueryRoute.BlankQuestionRejected | src/components/sections/server/server.py:213-217 | a well-formed body with a missing or blank question gets 400 "Missing question", whatever the intents, KB or services |
| QueryRoute.NameAnsweredFirst | src/components/sections/server/server.py:222-225 | a name question is answered "Omar Dalal" before any other intent |
| QueryRoute.ContactWithoutSnippet | src/components/sections/server/server.py:227-234 | a contact question with no KB entry mentioning a contact keyword gets the fixed "No public contact information…" answer |
| QueryRoute.IntentWithoutSnippetFallsThrough | src/components/sections/server/server.py:236-250 | a languages or education match with no KB snippet routes exactly as if that family had not matched |
| QueryRoute.GreetingThenRetrieval | src/components/sections/server/server.py:252-257 | past the fixed intents, a question that is_greeting (as written) accepts gets the greeting reply; anything else goes to retrieval with retrieval_k and the work flag |
| QueryRoute.ShortGreetingAnswered | src/components/sections/server/server.py:252-254 | past the fixed intents, a question that lower-cases and strips to "hey", "hi", "hello" or "hiya" gets the greeting reply |
| QueryRoute.AbsentTopKUsesDefault | src/components/sections/server/server.py:213-215 | a body with a non-blank question and no top_k routes the stripped question with TOP_K, whose unset value is 3 |
| QueryRoute.HowRUGoesToRetrieval | src/components/sections/server/server.py:252-257 | when no pattern family matches "how r u", the handler sends the listed phrase to retrieval, not to the greeting reply |
| QueryRoute.RetrievalK | src/components/sections/server/server.py:256-257 | retrieval_k is top_k for other questions and max(top_k, 5) for work questions |
| QueryRoute.IndexOfId | src/components/sections/server/server.py:265 | the first KB position with the id, or None when no entry has it |
| QueryRoute.FindIdIndex | src/components/sections/server/server.py:265 | the generator's scan computes that first position |
| QueryRoute.PyPrefix | src/components/sections/server/server.py:268 | xs[:k] is a prefix of xs of length min(k, len) for k >= 0, dropping |k| from the end for k < 0 |
| QueryRoute.WithPreferredSpec | src/components/sections/server/server.py:263-267 | the preferred ids only append, only their KB positions, never a position already present, and every found one ends up present |
| QueryRoute.AugmentedSpec | src/components/sections/server/server.py:263-268 | the augmented list has at most retrieval_k entries, starts with the original hits in order, adds only humly/outliar positions, adds no duplicates, and holds both when there is room |
| QueryRoute.AugmentWorkHits | src/components/sections/server/server.py:263-268 | the loop with in-place appends and the final slice computes the augmented list |
| QueryRoute.ContextString | src/components/sections/server/server.py:274-275 | the context has at most 4000 characters, is a prefix of the parts joined with "\n\n---\n\n", is all of it when that fits, and exactly 4000 when it does not |
| QueryRoute.GroundedAnswerShape | src/components/sections/server/server.py:270-280 | a model answer carries one context part per in-range hit and the stripped reply of the model to the prompt built from that context |
| QueryRoute.Retrieve | src/components/sections/server/server.py:259-283 | the try block computes Grounded: a search or model failure, or an out-of-range hit, is a 500 with its message; no hits give the fixed "couldn't find" answer |
| QueryRoute.ApiQuery | src/components/sections/server/server.py:211-283 | the handler, with its pattern loops and early returns, computes Route: validation, name, contact, languages, education, greeting, then retrieval |

## Findings

| source | as written | input that shows it | evidently intended | confidence | as-written member | corrected member |
|---|---|---|---|---|---|---|
| src/components/sections/server/server.py:114 | the phrase fallback requires `len(t.split()) <= 2`, but the phrase set holds the three-word "how are you" and "how r u" | "how r u": it is in the set but has three words, and no greeting pattern matches it | every phrase in the set counts as a greeting | medium, not executed | ServerHelpers.ThreeWordPhraseMissed | ServerHelpers.GreetingPhrasesGreet |

`GreetsAsWritten` models the code as written, and the method `IsGreeting` computes it. The handler model (`RouteQuestion`, `ApiQuery`) uses it too, so it answers exactly as the deployed server does; `HowRUGoesToRetrieval` shows the consequence for the handler. `Greets` is the corrected test, and `GreetingPhrasesGreet` and `GreetsExtendsAsWritten` state its properties.

## Left out

- The fetch, the JSON parsing of responses, `console.error`, the scroll-to-bottom effect and all rendering. A settled request is the `Outcome` value passed to `Resolve`.
- React's asynchronous state: stale closures over `processing` and updater functions queued across renders. `Submit` and `Resolve` are atomic steps on one object.
- The input box is disabled while a request is in flight, so typing is impossible then. `Edit` does not require `processing` to be false; `Submit` rejects during that time anyway. Pressing Enter calls `handleSend`, as the send button does.
- The suggestion buttons. They call `sendMessage` with a preset text, which is `Submit` with that text.
- ChatWidget.ReplyText: a non-string `answer` or `error` field is not modelled; only absent, empty or string values are. A JSON `null` body on a 2xx response is a thrown error, so it falls under `Thrown`.
- ChatWidget.IsPlaceholder: JavaScript strings are UTF-16, and the model works on code points. The /thinking/i test and `trim` give the same results either way.
- Whether `process` exists in the browser build when `VITE_API_URL` is unset. The model takes the fallback chain as written.
- The regular-expression semantics of the name, contact, languages, education, greeting and work pattern lists. Each list is a sequence of abstract predicates on the lower-cased question.
- ServerHelpers.ExtractMostRecentYear: `\d` matches ASCII digits only in the model; Python also accepts other Unicode decimal digits.
- ServerHelpers.FindKbSnippet: lower-casing covers ASCII letters only. Python's `lower()` also maps other scripts. The same holds for the question's lower-casing in the handler.
- ServerHelpers.FindKbSnippet, QueryRoute.ContextPart: KB fields that are `null` or not strings are not modelled. An absent field reads as the empty string. Python would render a `null` title, summary or text as "None" in the context part built at server.py:274.
- `get_top_k` scoring, `normalize_rows`, the query embedding and its cache, and the priority, id and recency boosts: floating-point work on an external embedding model. The search is the `Retriever` parameter.
- `call_openai_chat` and its system prompt: a foreign call. It is the `ChatModel` parameter.
- The Flask routes other than the query POST (`/`, `/favicon.ico`, GET `/api/query`), CORS, logging, and loading the KB and embedding files at start-up.
- Request bodies that are not JSON objects: Flask's content-type errors, and a JSON array or scalar body.
- The `TOP_K` environment variable. It is the `defaultTopK` parameter of `Route`, and its unset value is 3 (`DefaultTopK`).
