/** The conversation history kept by the assistant and the way one backend
    exchange changes it (VoiceAssistant.get_ollama_response).

    The history is trimmed at most once per exchange, right after the user
    turn is appended and before the assistant turn is; it is therefore NOT a
    bounded window: once it holds max_history_length turns, every successful
    exchange makes it one turn longer. */
module Conversation {

  datatype Role = UserRole | AssistantRole

  /** One chat message, sent to the backend as {"role": ..., "content": ...}. */
  datatype Turn = Turn(role: Role, content: string)

  /** The JSON body posted to the chat endpoint. */
  datatype Payload = Payload(model: string, messages: seq<Turn>, stream: bool)

  /** What the HTTP exchange with the chat backend produced. */
  datatype BackendOutcome =
    | Replied(content: string)  // 2xx and a body holding ['message']['content']
    | RequestFailed             // any requests.RequestException: connection, timeout, HTTP status, undecodable JSON
    | MissingContent            // decoded body without ['message']['content']: KeyError/TypeError

  /** What get_ollama_response does for its caller: return a text or raise. */
  datatype CallResult = Returned(text: string) | Raised

  const DefaultModel: string := "mistral"
  const DefaultMaxHistoryLength: nat := 5
  const Fallback: string := "Sorry, I'm experiencing technical difficulties."

  function Max(a: int, b: int): (m: int)
    ensures m >= a && m >= b && (m == a || m == b)
  {
    if a < b then b else a
  }

  function UserTurn(query: string): (t: Turn) { Turn(UserRole, query) }

  /** The history after appending the user turn and popping the front once if
      it is then longer than maxLength; this is also the payload's messages. */
  function UserStep(history: seq<Turn>, query: string, maxLength: nat): (r: seq<Turn>)
    // only the oldest turn can go: r is a suffix of history + [user turn] ...
    ensures |history| <= |r| <= |history| + 1
    ensures r == (history + [UserTurn(query)])[|history| + 1 - |r|..]
    // ... and it goes exactly when the grown history exceeds maxLength
    ensures |r| == |history| + 1 <==> |history| + 1 <= maxLength
    ensures |r| <= Max(|history|, maxLength)
    // the new user turn is the last message unless it was itself popped
    ensures r == [] <==> history == [] && maxLength == 0
    ensures r != [] ==> r[|r| - 1] == UserTurn(query)
  {
    var grown := history + [UserTurn(query)];
    if |grown| > maxLength then
      assert grown[1..] == grown[|history| + 1 - |history|..];
      grown[1..]
    else grown
  }

  /** The history once get_ollama_response has finished or raised. */
  function HistoryAfter(history: seq<Turn>, query: string, maxLength: nat, outcome: BackendOutcome): (r: seq<Turn>)
    // the user step always stays in place, whatever the backend did ...
    ensures UserStep(history, query, maxLength) <= r
    // ... and only a reply adds one more turn after it, the assistant's
    ensures outcome.Replied? <==> |r| == |UserStep(history, query, maxLength)| + 1
    ensures outcome.Replied? ==> r[|r| - 1] == Turn(AssistantRole, outcome.content)
    ensures !outcome.Replied? ==> r == UserStep(history, query, maxLength)
  {
    var trimmed := UserStep(history, query, maxLength);
    if outcome.Replied? then trimmed + [Turn(AssistantRole, outcome.content)] else trimmed
  }

  /** The value get_ollama_response returns, or that it raises. */
  function ResultOf(outcome: BackendOutcome): (r: CallResult)
    // only a body without the reply text makes the call raise
    ensures r.Raised? <==> outcome.MissingContent?
    // a reply is handed back as it came; every request failure gets the fallback
    ensures outcome.Replied? ==> r == Returned(outcome.content)
    ensures outcome.RequestFailed? ==> r == Returned(Fallback)
  {
    match outcome
    case Replied(content) => Returned(content)
    case RequestFailed => Returned(Fallback)
    case MissingContent => Raised
  }

  /** A successful exchange ends the history with the user turn and the reply,
      and returns the reply; the only exception is a zero-length limit on an
      empty history, where the user turn is popped as soon as it is added. */
  lemma SuccessAppendsPair(history: seq<Turn>, query: string, maxLength: nat, reply: string)
    requires !(history == [] && maxLength == 0)
    ensures var h := HistoryAfter(history, query, maxLength, Replied(reply));
      |h| >= 2 && h[|h| - 2..] == [UserTurn(query), Turn(AssistantRole, reply)]
    ensures ResultOf(Replied(reply)) == Returned(reply)
  {
    var trimmed := UserStep(history, query, maxLength);
    assert HistoryAfter(history, query, maxLength, Replied(reply)) == trimmed + [Turn(AssistantRole, reply)];
    assert trimmed[|trimmed| - 1] == UserTurn(query);
  }

  /** A failed request returns the fixed fallback, adds no assistant turn, and
      keeps the user turn: the history grows by one, or stays as long if the
      front was popped. A body without the reply text behaves the same on the
      history but raises. */
  lemma FailureKeepsUserTurn(history: seq<Turn>, query: string, maxLength: nat, outcome: BackendOutcome)
    requires !outcome.Replied?
    ensures HistoryAfter(history, query, maxLength, outcome) == UserStep(history, query, maxLength)
    ensures var n := |HistoryAfter(history, query, maxLength, outcome)|;
      n == (if |history| + 1 <= maxLength then |history| + 1 else |history|)
    ensures ResultOf(outcome) == (if outcome.RequestFailed? then Returned(Fallback) else Raised)
  {
  }

  /** No exchange ever shortens the history. */
  lemma ExchangeNeverShrinks(history: seq<Turn>, query: string, maxLength: nat, outcome: BackendOutcome)
    ensures |HistoryAfter(history, query, maxLength, outcome)| >= |history|
    ensures outcome.Replied? ==> |HistoryAfter(history, query, maxLength, outcome)| > |history|
  {
  }

  /** Once the history is at or past the limit, a successful exchange adds
      exactly one turn. */
  lemma SaturatedSuccessGrowsByOne(history: seq<Turn>, query: string, maxLength: nat, reply: string)
    requires |history| >= maxLength
    ensures |HistoryAfter(history, query, maxLength, Replied(reply))| == |history| + 1
  {
  }

  /** The history after a run of successful exchanges, each a (query, reply). */
  function AfterSuccesses(history: seq<Turn>, maxLength: nat, exchanges: seq<(string, string)>): (h: seq<Turn>)
    decreases |exchanges|
  {
    if exchanges == [] then history
    else
      var next := HistoryAfter(history, exchanges[0].0, maxLength, Replied(exchanges[0].1));
      AfterSuccesses(next, maxLength, exchanges[1..])
  }

  /** Each successful exchange adds at least one turn. */
  lemma {:induction false} SuccessesGrowHistory(history: seq<Turn>, maxLength: nat, exchanges: seq<(string, string)>)
    ensures |AfterSuccesses(history, maxLength, exchanges)| >= |history| + |exchanges|
    decreases |exchanges|
  {
    if exchanges != [] {
      var next := HistoryAfter(history, exchanges[0].0, maxLength, Replied(exchanges[0].1));
      ExchangeNeverShrinks(history, exchanges[0].0, maxLength, Replied(exchanges[0].1));
      SuccessesGrowHistory(next, maxLength, exchanges[1..]);
    }
  }

  /** From a saturated history, n successful exchanges add exactly n turns. */
  lemma {:induction false} SaturatedSuccessesGrowByOneEach(history: seq<Turn>, maxLength: nat, exchanges: seq<(string, string)>)
    requires |history| >= maxLength
    ensures |AfterSuccesses(history, maxLength, exchanges)| == |history| + |exchanges|
    decreases |exchanges|
  {
    if exchanges != [] {
      var next := HistoryAfter(history, exchanges[0].0, maxLength, Replied(exchanges[0].1));
      SaturatedSuccessGrowsByOne(history, exchanges[0].0, maxLength, exchanges[0].1);
      SaturatedSuccessesGrowByOneEach(next, maxLength, exchanges[1..]);
    }
  }

  /** Whatever the limit, successful exchanges from an empty history drive its
      length past any bound: max_history_length bounds nothing. */
  lemma HistoryIsUnbounded(maxLength: nat, bound: nat)
    ensures exists exchanges :: |AfterSuccesses([], maxLength, exchanges)| > bound
  {
    var exchanges := seq(bound + 1, _ => ("", ""));
    SuccessesGrowHistory([], maxLength, exchanges);
  }

  /** With the default limit of 5, three successful exchanges from an empty
      history already leave six turns. */
  lemma DefaultLimitExceededAfterThreeExchanges()
    ensures |AfterSuccesses([], DefaultMaxHistoryLength, [("a", "b"), ("c", "d"), ("e", "f")])| == 6
  {
  }
}
