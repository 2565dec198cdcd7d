/** The VoiceAssistant object: its conversation history, the backend exchange
    that updates it in place, the command routine that turns a capture outcome
    into what is spoken, and one turn of the wake-word loop.

    Microphone capture, speech recognition, the HTTP call and speech synthesis
    are not modelled; their results arrive as outcome parameters, and what
    would be spoken is returned as a list of strings. */
module Assistant {
  import opened Conversation
  import opened Dispatch

  datatype Option<T> = None | Some(value: T)

  /** How capturing and recognising one utterance ended. */
  datatype CaptureOutcome =
    | Heard(text: string)  // recognize_google returned this text
    | WaitTimeout          // sr.WaitTimeoutError: no speech within the listen timeout
    | Unintelligible       // sr.UnknownValueError
    | CaptureFailed        // any other exception from listen or recognize_google
    | DeviceFailed         // an exception opening or calibrating the microphone, before the prompt

  const Prompt: string := "How can I help?"
  const TimeoutApology: string := "Listening timeout. Please try again."
  const NotUnderstood: string := "Sorry, I couldn't understand that."
  const UnexpectedError: string := "An unexpected error occurred."
  const Greeting: string := "Hey there."
  const Farewell: string := "Goodbye! Shutting down."

  /** What process_user_input speaks, given the capture outcome and, when the
      query was heard, what get_ollama_response did with it. */
  function CommandUtterances(capture: CaptureOutcome, reply: CallResult): (said: seq<string>)
    // the prompt is spoken once the microphone is open, and one more line after it
    ensures capture.DeviceFailed? <==> said == [UnexpectedError]
    ensures !capture.DeviceFailed? ==> |said| == 2 && said[0] == Prompt
    // the backend's text is spoken only when the query was heard and it returned
    ensures capture.Heard? && reply.Returned? ==> said[|said| - 1] == reply.text
    ensures capture.Heard? && reply.Raised? ==> said[|said| - 1] == UnexpectedError
    ensures capture.WaitTimeout? ==> said[|said| - 1] == TimeoutApology
    ensures capture.Unintelligible? ==> said[|said| - 1] == NotUnderstood
    ensures capture.CaptureFailed? ==> said[|said| - 1] == UnexpectedError
  {
    match capture
    case DeviceFailed => [UnexpectedError]
    case Heard(_) => [Prompt, if reply.Returned? then reply.text else UnexpectedError]
    case WaitTimeout => [Prompt, TimeoutApology]
    case Unintelligible => [Prompt, NotUnderstood]
    case CaptureFailed => [Prompt, UnexpectedError]
  }

  /** Only a heard query can make the backend's answer matter: for every other
      capture outcome, what is spoken does not depend on it. */
  lemma ReplyIrrelevantUnlessHeard(capture: CaptureOutcome, r1: CallResult, r2: CallResult)
    requires !capture.Heard?
    ensures CommandUtterances(capture, r1) == CommandUtterances(capture, r2)
  {
  }

  /** The per-iteration decision of listen_for_input for one wake capture:
      anything but recognised text triggers nothing. */
  function WakeDecision(heard: CaptureOutcome, wakeWord: string): (d: Decision)
    ensures !heard.Heard? ==> !d.runCommand && !d.exit
    ensures heard.Heard? ==>
      && (d.runCommand <==> Occurs(Lower(heard.text), wakeWord))
      && (d.exit <==> Occurs(Lower(heard.text), ExitPhrase))
  {
    if heard.Heard? then Classify(heard.text, wakeWord) else Decision(false, false)
  }

  class VoiceAssistant {
    var history: seq<Turn>
    const maxHistoryLength: nat
    const model: string

    constructor ()
      ensures history == []
      ensures maxHistoryLength == DefaultMaxHistoryLength && model == DefaultModel
    {
      history := [];
      maxHistoryLength := DefaultMaxHistoryLength;
      model := DefaultModel;
    }

    /** get_ollama_response: append the user turn, pop the oldest turn once if
        the history is then too long, post the history, and on a reply append
        the assistant turn. `sent` is the payload as it was posted. */
    method GetResponse(query: string, outcome: BackendOutcome) returns (result: CallResult, sent: Payload)
      modifies this
      ensures sent == Payload(model, UserStep(old(history), query, maxHistoryLength), false)
      ensures outcome.Replied? ==> history == sent.messages + [Turn(AssistantRole, outcome.content)]
      ensures !outcome.Replied? ==> history == sent.messages
      ensures history == HistoryAfter(old(history), query, maxHistoryLength, outcome)
      ensures result == ResultOf(outcome)
    {
      history := history + [UserTurn(query)];
      if |history| > maxHistoryLength {
        history := history[1..];
      }
      sent := Payload(model, history, false);
      match outcome
      case Replied(content) =>
        history := history + [Turn(AssistantRole, content)];
        result := Returned(content);
      case RequestFailed =>
        result := Returned(Fallback);
      case MissingContent =>
        result := Raised;
    }

    /** process_user_input: prompt, capture one query and, only if it was
        heard, pass it unchanged (not lower-cased) to the backend and speak
        the answer; every failure is turned into a spoken apology. */
    method ProcessUserInput(capture: CaptureOutcome, backend: BackendOutcome) returns (spoken: seq<string>, sent: Option<Payload>)
      modifies this
      ensures sent.Some? <==> capture.Heard?
      ensures capture.Heard? ==>
        && sent.value.messages == UserStep(old(history), capture.text, maxHistoryLength)
        && history == HistoryAfter(old(history), capture.text, maxHistoryLength, backend)
      ensures !capture.Heard? ==> history == old(history)
      ensures spoken == CommandUtterances(capture, ResultOf(backend))
    {
      match capture
      case Heard(query) =>
        var result, payload := GetResponse(query, backend);
        sent := Some(payload);
        spoken := [Prompt, if result.Returned? then result.text else UnexpectedError];
      case DeviceFailed =>
        sent := None;
        spoken := [UnexpectedError];
      case WaitTimeout =>
        sent := None;
        spoken := [Prompt, TimeoutApology];
      case Unintelligible =>
        sent := None;
        spoken := [Prompt, NotUnderstood];
      case CaptureFailed =>
        sent := None;
        spoken := [Prompt, UnexpectedError];
    }

    /** One iteration of listen_for_input: classify what was heard; on the
        wake word greet and run the command routine; then, independently, on
        the exit phrase say goodbye and stop. */
    method ListenOnce(wakeWord: string, heard: CaptureOutcome, command: CaptureOutcome, backend: BackendOutcome)
      returns (spoken: seq<string>, exit: bool)
      modifies this
      ensures var d := WakeDecision(heard, wakeWord);
        && exit == d.exit
        && spoken == (if d.runCommand then [Greeting] + CommandUtterances(command, ResultOf(backend)) else [])
                     + (if d.exit then [Farewell] else [])
        && history == (if d.runCommand && command.Heard?
                       then HistoryAfter(old(history), command.text, maxHistoryLength, backend)
                       else old(history))
    {
      spoken := [];
      exit := false;
      if heard.Heard? {
        var text := Lower(heard.text);
        if Contains(text, wakeWord) {
          var said, _ := ProcessUserInput(command, backend);
          spoken := [Greeting] + said;
        }
        if Contains(text, ExitPhrase) {
          spoken := spoken + [Farewell];
          exit := true;
        }
      }
    }
  }

  /** The end-to-end run: from a fresh assistant, the wake word (in any
      letter case) followed by a heard question whose reply arrives leaves
      exactly the two turns in the history and speaks the reply. */
  method WakeThenAsk(wake: string, question: string, reply: string) returns (a: VoiceAssistant, spoken: seq<string>, exit: bool)
    requires Lower(wake) == DefaultWakeWord
    ensures fresh(a) && !exit
    ensures a.history == [UserTurn(question), Turn(AssistantRole, reply)]
    ensures spoken == [Greeting, Prompt, reply]
  {
    a := new VoiceAssistant();
    assert OccursAt(DefaultWakeWord, DefaultWakeWord, 0);
    assert |ExitPhrase| > |DefaultWakeWord|;
    spoken, exit := a.ListenOnce(DefaultWakeWord, Heard(wake), Heard(question), Replied(reply));
  }
}
