# ollama_cortana: a verified model of the voice assistant's core logic

The program is a voice assistant. It waits for the wake word "hey cortana",
asks "How can I help?", sends the spoken question to a local Ollama chat
backend together with the conversation so far, and speaks the reply. Saying
"goodbye cortana" ends it. This project models the three parts of
`main.py` that are deterministic logic rather than glue around hardware
and services:

- **the conversation history** (`conversation.dfy`, module `Conversation`, plus
  `VoiceAssistant.GetResponse` in `assistant.dfy`). `get_ollama_response`
  appends the user turn. If the list is then longer than `max_history_length`
  (5), it pops the front once. It posts the list and, on a reply, appends the
  assistant turn. The trim runs once, before the assistant turn is added, so
  the history is **not** a bounded sliding window. Once it holds
  `max_history_length` turns, every successful exchange makes it one turn
  longer. `HistoryIsUnbounded` proves that no bound holds, and
  `DefaultLimitExceededAfterThreeExchanges` shows six turns after three
  exchanges under the default limit of 5.
- **the wake/exit decision** (`dispatch.dfy`, module `Dispatch`). The
  recognised text is lower-cased. The wake word (itself *not* lower-cased) and
  `"goodbye cortana"` are each tested as plain substrings, independently. One
  utterance can therefore run the command and then exit.
- **the command routine** (`assistant.dfy`, module `Assistant`).
  `process_user_input` maps every capture outcome to what is spoken. The
  backend is consulted only when a query was heard, and that query is passed
  on without being lower-cased.

Capture, recognition, the HTTP exchange and speech output are replaced by
outcome parameters. The `CaptureOutcome` and `BackendOutcome` datatypes carry
what happened, and the spoken lines are returned as a list of strings.
A `RequestFailed` backend outcome stands for every `requests.RequestException`:
a connection error, a timeout, an HTTP error status from `raise_for_status`,
or a body that does not decode as JSON. That last case assumes requests 2.27
or later, where `response.json()` raises `requests.JSONDecodeError`, a
`RequestException`. `MissingContent` stands for a decoded
body without `['message']['content']`. That raises a `KeyError` or `TypeError`
outside the `except requests.RequestException` clause, so
`get_ollama_response` raises (`CallResult.Raised`). The user turn is still in
the history, and `process_user_input` says "An unexpected error occurred.".

## Model

| member | source | states |
|---|---|---|
| `Conversation.UserStep` | main.py:42-45 | the messages after the user step are a suffix of old history + the user turn, missing at most the oldest element; the length is old + 1 exactly when old + 1 <= max and otherwise unchanged, so never above max(old length, max); the new user turn is last except when max is 0 and the history was empty (then the result is empty) |
| `Conversation.HistoryAfter` | main.py:42-60 | the history once the call returns or raises starts with the user-step history unchanged; exactly on a reply it holds one more turn, the assistant turn carrying the reply, and otherwise it is exactly the user-step history |
| `Conversation.ResultOf` | main.py:58-66 | the call raises exactly when the body lacks the reply text; a reply is returned as it came and every request failure returns the fixed fallback |
| `Conversation.SuccessAppendsPair` | main.py:42-62 | on a reply, the history ends with the user turn followed by the assistant turn carrying the reply, and the reply is returned (unless max is 0 and the history was empty) |
| `Conversation.FailureKeepsUserTurn` | main.py:42-66 | on a request failure or a body without content no assistant turn is added, the user turn stays, the length grows by one or (if the front was popped) stays the same; a request failure returns exactly "Sorry, I'm experiencing technical difficulties." and a missing content raises |
| `Conversation.ExchangeNeverShrinks` | main.py:42-60 | no exchange shortens the history, and a successful one always lengthens it |
| `Conversation.SaturatedSuccessGrowsByOne` | main.py:42-60 | once the history holds at least max turns, a successful exchange adds exactly one |
| `Conversation.SuccessesGrowHistory` | main.py:42-60 | n successful exchanges add at least n turns, from any history and any limit |
| `Conversation.SaturatedSuccessesGrowByOneEach` | main.py:42-60 | from a history of at least max turns, n successful exchanges add exactly n turns |
| `Conversation.HistoryIsUnbounded` | main.py:42-60 | for every limit and every bound, some run of successful exchanges from an empty history exceeds the bound |
| `Conversation.DefaultLimitExceededAfterThreeExchanges` | main.py:30-60 | with the default limit 5, three successful exchanges from an empty history leave 6 turns |
| `Dispatch.LowerChar` | main.py:78 | lower-casing a character yields no upper-case letter, shifts A-Z by 32 and leaves every other character alone |
| `Dispatch.Lower` | main.py:78 | lower-casing keeps the length and lower-cases each character in place |
| `Dispatch.LowerIdempotent` | main.py:78 | lower-casing twice equals lower-casing once |
| `Dispatch.LowerKeepsLowercase` | main.py:78 | text without upper-case letters is unchanged by lower-casing |
| `Dispatch.OccursInTail` | main.py:81 | with no match at index 0, the pattern occurs in the text exactly when it occurs in the text without its first character |
| `Dispatch.Contains` | main.py:81 | the `in` test is true exactly when the pattern occurs at some index of the text |
| `Dispatch.Classify` | main.py:78-85 | the command runs exactly when the wake word occurs in the lower-cased text, and the exit happens exactly when "goodbye cortana" occurs in it, independently of each other |
| `Dispatch.ClassifyIgnoresCase` | main.py:78-85 | lower-casing the utterance first does not change the decision |
| `Dispatch.UppercaseWakeWordNeverMatches` | main.py:68-81 | a wake word holding an upper-case letter never matches, because only the utterance is lower-cased |
| `Dispatch.WakeWordMatchesInsideWord` | main.py:68-85 | there is no word boundary: any utterance lower-casing to "they cortana" runs the command and does not exit |
| `Dispatch.WakeAndExitTogether` | main.py:68-87 | an utterance lower-casing to "hey cortana goodbye cortana" both runs the command and exits |
| `Assistant.CommandUtterances` | main.py:94-115 | after the prompt, a wait timeout speaks "Listening timeout. Please try again.", an unintelligible capture "Sorry, I couldn't understand that.", any other failure "An unexpected error occurred."; a heard query speaks the backend's text, or the generic apology if the backend raised; a failure before the prompt speaks only the apology |
| `Assistant.WakeDecision` | main.py:77-92 | a capture that yields no recognised text triggers neither the command nor the exit; recognised text runs the command exactly when the wake word occurs in its lower-cased form and exits exactly when "goodbye cortana" does |
| `Assistant.ReplyIrrelevantUnlessHeard` | main.py:102-115 | unless a query was heard, what is spoken does not depend on the backend |
| `Assistant.VoiceAssistant.constructor` | main.py:26-31 | a new assistant has an empty history, limit 5 and model "mistral" |
| `Assistant.VoiceAssistant.GetResponse` | main.py:41-66 | the posted payload is the model, the post-trim history and stream false; the new history is that payload's messages plus the assistant turn on a reply and exactly those messages otherwise; the result is the reply, the fallback or a raise |
| `Assistant.VoiceAssistant.ProcessUserInput` | main.py:94-115 | the backend is called (a payload is sent) exactly when a query was heard, with the query's text unchanged as the new user turn; otherwise the history is untouched; the spoken lines are those of `CommandUtterances` |
| `Assistant.VoiceAssistant.ListenOnce` | main.py:77-87 | one loop iteration: nothing happens unless text was recognised; the greeting and command routine run when the wake word matches, then the farewell and the exit when the exit phrase matches, in that order; the history changes only through the command routine |
| `Assistant.WakeThenAsk` | main.py:77-107 | from a fresh assistant, the wake word followed by a heard question with a reply leaves exactly [user question, assistant reply] in the history, speaks greeting, prompt and reply, and does not exit |

## Left out

- Microphone capture, ambient-noise calibration and Google speech recognition (main.py:14-15, 72-78, 97-103): hardware and a foreign service. Their results are the `CaptureOutcome` parameter.
- Speech synthesis, its rate and voice selection, and `speak` swallowing synthesis errors (main.py:18-23, 34-39): a foreign library whose only effect is audio. The lines that would be spoken are returned as strings.
- Requests before 2.27: there `response.json()` on an undecodable body raises a plain `ValueError`, which escapes the clause at main.py:64 and behaves like `MissingContent` rather than `RequestFailed`; the model follows 2.27 and later.
- The HTTP POST, the endpoint URL, its 10-second timeout and JSON decoding (main.py:26, 53-58): network I/O. Their result is the `BackendOutcome` parameter. A JSON `content` that is not a string is not distinguished.
- The payload's `messages` is the history list object itself. It is serialised inside `requests.post`, before the assistant turn is appended, so the model records it as the post-trim history value. Aliasing beyond that moment is not modelled.
- Logging, the start-up greeting in `run`, `main`, the endless `while True` loop and `sys.exit` (main.py:9-11, 69, 87, 117-130): process control. One loop iteration is `ListenOnce`, and the exit is its `exit` result.
- `Dispatch.LowerChar`: lower-cases only A-Z and leaves every other character as it is, whereas Python's `str.lower` also maps non-ASCII upper-case letters (`'É'` to `'é'`).
- `Dispatch.Lower`: lower-cases only the ASCII letters A-Z. Python's `str.lower` also lower-cases non-ASCII letters, and that Unicode case mapping is not modelled.
