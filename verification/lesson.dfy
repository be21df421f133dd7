/**
  The lesson page's conversation state: the transcript of chat messages, the input
  box, the loading flag, the text streamed so far for the reply in progress and
  the speech hook it embeds. Every user action and every callback is a pure
  transition; the network call is represented by the request a send issues and
  by the chunk/done/failed events that answer it.
 */
module Lesson {
  import opened Wrappers
  import opened Messages
  import opened Text
  import Speech

  /** What `streamChat` is asked to send: the conversation so far and the mode. */
  datatype ChatRequest = ChatRequest(messages: seq<Message>, mode: string)

  datatype LessonState = LessonState(
    messages: seq<Message>,
    input: string,
    isLoading: bool,
    draft: string,               // the assistant text streamed so far for the latest send
    speech: Speech.SpeechState)

  /** The page on mount. */
  const Initial := LessonState([], "", false, "", Speech.Initial)

  /** The mode the lesson page always asks for. */
  const TutorMode := "tutor"

  datatype LessonEvent =
    | Edit(text: string)                                   // typing in the input box
    | Send(text: string)                                   // Enter, the send button or a suggested prompt
    | Chunk(delta: string)                                 // one streamed piece of the reply
    | Done                                                 // the stream completed
    | Failed                                               // the stream rejected
    | ToggleMic                                            // the microphone button
    | Heard(results: seq<Speech.RecognitionResult>)        // recognizer result callback
    | SpeechEnded                                          // recognizer end callback
    | SpeechFailed                                         // recognizer error callback

  /** The outcome of a send: the new state and the request issued, if any. */
  datatype Sent = Sent(state: LessonState, request: Option<ChatRequest>)

  /** The last message, when there is one, is an assistant message. */
  predicate EndsWithAssistant(msgs: seq<Message>) {
    |msgs| > 0 && msgs[|msgs| - 1].role == Assistant
  }

  /** The spinner is shown while loading until the first piece of the reply appears. */
  predicate ShowsLoader(st: LessonState) {
    st.isLoading && !EndsWithAssistant(st.messages)
  }

  /**
    The effect that copies the recognised transcript into the input box: it runs
    only when the transcript changed, and copies only a non-empty transcript.
   */
  function SyncInput(before: string, after: string, input: string): (r: string)
    ensures r != input ==> r == after
    ensures before == after || after == "" ==> r == input
    ensures before != after && after != "" ==> r == after
  {
    if before != after && after != "" then after else input
  }

  /** Replaces the speech state and lets the transcript effect run. */
  function WithSpeech(st: LessonState, speech: Speech.SpeechState): (r: LessonState)
    ensures r.messages == st.messages && r.isLoading == st.isLoading && r.draft == st.draft
    ensures r.speech == speech && r.input == SyncInput(st.speech.transcript, speech.transcript, st.input)
  {
    st.(speech := speech, input := SyncInput(st.speech.transcript, speech.transcript, st.input))
  }

  /** `sendMessage`: guarded append of the trimmed user text and the request it issues. */
  function SendMessage(st: LessonState, text: string): (r: Sent)
    ensures r.request.Some? <==> !IsBlank(text) && !st.isLoading
    ensures r.request.None? ==> r.state == st
    ensures r.request.Some? ==>
      && |r.state.messages| == |st.messages| + 1
      && r.state.messages[..|st.messages|] == st.messages
      && r.state.messages[|st.messages|] == Message(User, Trim(text))
      && r.state.input == ""
      && r.state.isLoading
      && r.state.draft == ""
      && r.state.speech.transcript == ""
      && r.state.speech.isListening == st.speech.isListening
      && r.state.speech.hasRecognizer == st.speech.hasRecognizer
      && r.request.value == ChatRequest(r.state.messages, TutorMode)
  {
    var content := Trim(text);
    if content == "" || st.isLoading then
      Sent(st, None)
    else
      var messages := st.messages + [Message(User, content)];
      var cleared := WithSpeech(st.(input := ""), Speech.ResetTranscript(st.speech));
      Sent(cleared.(messages := messages, isLoading := true, draft := ""), Some(ChatRequest(messages, TutorMode)))
  }

  /** `upsertAssistant`'s list update: rewrite the trailing assistant message or append a new one. */
  function Upsert(msgs: seq<Message>, content: string): (r: seq<Message>)
    ensures EndsWithAssistant(msgs) ==> |r| == |msgs|
    ensures !EndsWithAssistant(msgs) ==> |r| == |msgs| + 1
    ensures forall i :: 0 <= i < |msgs| - 1 ==> r[i] == msgs[i]
    ensures !EndsWithAssistant(msgs) && |msgs| > 0 ==> r[|msgs| - 1] == msgs[|msgs| - 1]
    ensures r[|r| - 1] == Message(Assistant, content)
  {
    if EndsWithAssistant(msgs) then
      msgs[..|msgs| - 1] + [msgs[|msgs| - 1].(content := content)]
    else
      msgs + [Message(Assistant, content)]
  }

  /** A streamed chunk extends the reply text and shows it in the transcript. */
  function ReceiveChunk(st: LessonState, delta: string): (r: LessonState)
    ensures r.draft == st.draft + delta
    ensures r.messages == Upsert(st.messages, r.draft)
    ensures r.isLoading == st.isLoading && r.input == st.input && r.speech == st.speech
  {
    var draft := st.draft + delta;
    st.(draft := draft, messages := Upsert(st.messages, draft))
  }

  /** Completion and failure both clear the loading flag and keep the transcript. */
  function Finish(st: LessonState): (r: LessonState)
    ensures !r.isLoading
    ensures r.messages == st.messages && r.input == st.input && r.speech == st.speech && r.draft == st.draft
  {
    st.(isLoading := false)
  }

  /** The microphone button: stop when listening, start otherwise. */
  function Toggle(st: LessonState, supported: bool): (r: LessonState)
    ensures st.speech.isListening ==> r.speech == Speech.StopListening(st.speech)
    ensures !st.speech.isListening ==> r.speech == Speech.StartListening(st.speech, supported)
    ensures r.messages == st.messages && r.isLoading == st.isLoading
    ensures r.input == st.input && r.draft == st.draft
  {
    if st.speech.isListening then WithSpeech(st, Speech.StopListening(st.speech))
    else WithSpeech(st, Speech.StartListening(st.speech, supported))
  }

  /** The state after one event; `supported` is whether speech recognition is available. */
  function Step(st: LessonState, e: LessonEvent, supported: bool): LessonState {
    match e
    case Edit(text) => st.(input := text)
    case Send(text) => SendMessage(st, text).state
    case Chunk(delta) => ReceiveChunk(st, delta)
    case Done => Finish(st)
    case Failed => Finish(st)
    case ToggleMic => Toggle(st, supported)
    case Heard(results) => WithSpeech(st, Speech.OnResult(st.speech, results))
    case SpeechEnded => WithSpeech(st, Speech.OnEndOrError(st.speech))
    case SpeechFailed => WithSpeech(st, Speech.OnEndOrError(st.speech))
  }

  /** The state after a sequence of events; the last event is applied last. */
  function Run(st: LessonState, es: seq<LessonEvent>, supported: bool): LessonState
    decreases |es|
  {
    if |es| == 0 then st else Step(Run(st, es[..|es| - 1], supported), es[|es| - 1], supported)
  }

  /** The chunks of one reply, in arrival order, joined. */
  function Joined(deltas: seq<string>): string {
    if |deltas| == 0 then "" else Joined(deltas[..|deltas| - 1]) + deltas[|deltas| - 1]
  }

  /** The chunk events that deliver `deltas`. */
  function Chunks(deltas: seq<string>): (es: seq<LessonEvent>)
    ensures |es| == |deltas|
    ensures forall i :: 0 <= i < |deltas| ==> es[i] == Chunk(deltas[i])
  {
    seq(|deltas|, i requires 0 <= i < |deltas| => Chunk(deltas[i]))
  }

  /**
    Streaming k chunks after an accepted send: the transcript is the old one, the
    user message and (once a chunk has arrived) one assistant message holding the
    in-order concatenation of the chunks.
   */
  lemma {:induction false} SendThenStream(st: LessonState, text: string, deltas: seq<string>, supported: bool)
    requires !IsBlank(text) && !st.isLoading
    ensures var r := Run(SendMessage(st, text).state, Chunks(deltas), supported);
      && r.isLoading
      && r.draft == Joined(deltas)
      && r.messages == st.messages + [Message(User, Trim(text))]
                       + (if |deltas| == 0 then [] else [Message(Assistant, Joined(deltas))])
      && (ShowsLoader(r) <==> |deltas| == 0)
    decreases |deltas|
  {
    var sent := SendMessage(st, text).state;
    var user := Message(User, Trim(text));
    assert sent.messages == st.messages + [user];
    if |deltas| > 0 {
      var prev := deltas[..|deltas| - 1];
      assert Chunks(deltas)[..|deltas| - 1] == Chunks(prev);
      SendThenStream(st, text, prev, supported);
      var before := Run(sent, Chunks(prev), supported);
      assert Run(sent, Chunks(deltas), supported) == ReceiveChunk(before, deltas[|deltas| - 1]);
      if |prev| == 0 {
        assert before.messages == st.messages + [user];
        assert !EndsWithAssistant(before.messages);
      } else {
        assert before.messages == st.messages + [user] + [Message(Assistant, Joined(prev))];
        assert EndsWithAssistant(before.messages);
      }
    }
  }

  /** The deltas of the chunk events of `es`, joined in arrival order; other events contribute nothing. */
  function ChunkText(es: seq<LessonEvent>): string
    decreases |es|
  {
    if |es| == 0 then ""
    else ChunkText(es[..|es| - 1]) + (if es[|es| - 1].Chunk? then es[|es| - 1].delta else "")
  }

  /** Some event of `es` is a chunk. */
  predicate HasChunk(es: seq<LessonEvent>) {
    exists k :: 0 <= k < |es| && es[k].Chunk?
  }

  /** Whether the reply to a request is still streaming: neither completion nor failure has arrived. */
  predicate Streaming(es: seq<LessonEvent>) {
    forall k :: 0 <= k < |es| ==> es[k] != Done && es[k] != Failed
  }

  /**
    A session after an accepted send, with the user typing, toggling the microphone,
    speaking or pressing send while the reply streams: until completion or failure the
    page stays loading, the reply text is the in-order join of the chunks received,
    and the transcript is the old one, the user message and, once a chunk has
    arrived, one assistant message holding that text.
   */
  lemma {:induction false} SendThenSession(st: LessonState, text: string, es: seq<LessonEvent>, supported: bool)
    requires !IsBlank(text) && !st.isLoading
    requires Streaming(es)
    ensures var r := Run(SendMessage(st, text).state, es, supported);
      && r.isLoading
      && r.draft == ChunkText(es)
      && r.messages == st.messages + [Message(User, Trim(text))]
                       + (if HasChunk(es) then [Message(Assistant, ChunkText(es))] else [])
    decreases |es|
  {
    var sent := SendMessage(st, text).state;
    var user := Message(User, Trim(text));
    if |es| > 0 {
      var prev := es[..|es| - 1];
      var e := es[|es| - 1];
      assert forall k :: 0 <= k < |prev| ==> prev[k] == es[k];
      SendThenSession(st, text, prev, supported);
      var before := Run(sent, prev, supported);
      assert Run(sent, es, supported) == Step(before, e, supported);
      assert HasChunk(es) <==> HasChunk(prev) || e.Chunk? by {
        if e.Chunk? { assert es[|es| - 1].Chunk?; }
        if HasChunk(es) && !e.Chunk? {
          var k :| 0 <= k < |es| && es[k].Chunk?;
          assert k < |prev| && prev[k].Chunk?;
        }
      }
      assert e != Done && e != Failed;
      if e.Chunk? {
        if HasChunk(prev) {
          assert EndsWithAssistant(before.messages);
        } else {
          assert before.messages == st.messages + [user];
          assert !EndsWithAssistant(before.messages);
        }
      } else if e.Send? {
        assert SendMessage(before, e.text).request.None?;
      }
    }
  }

  /** Whether a step is one the page can actually receive: stream callbacks only while a request is in flight. */
  predicate Possible(st: LessonState, e: LessonEvent) {
    e.Chunk? || e == Done || e == Failed ==> st.isLoading
  }

  /** An event sequence in which every event is possible in the state it arrives in. */
  ghost predicate PossibleTrace(st: LessonState, es: seq<LessonEvent>, supported: bool) {
    forall k :: 0 <= k < |es| ==> Possible(Run(st, es[..k], supported), es[k])
  }

  /**
    The shape the transcript keeps: only user and assistant messages, every
    assistant message answers a user message, and while a request is in flight the
    transcript ends in its user message or in the reply streamed so far.
   */
  ghost predicate WellFormed(st: LessonState) {
    var m := st.messages;
    && (forall i :: 0 <= i < |m| ==> m[i].role != System)
    && (forall i :: 0 <= i < |m| && m[i].role == Assistant ==> 0 < i && m[i - 1].role == User)
    && (st.isLoading ==>
          || (|m| > 0 && m[|m| - 1] == Message(User, m[|m| - 1].content) && st.draft == "")
          || (|m| > 0 && m[|m| - 1] == Message(Assistant, st.draft)))
  }

  lemma SendPreservesWellFormed(st: LessonState, text: string)
    requires WellFormed(st)
    ensures WellFormed(SendMessage(st, text).state)
  {
  }

  lemma ChunkPreservesWellFormed(st: LessonState, delta: string)
    requires WellFormed(st) && st.isLoading
    ensures WellFormed(ReceiveChunk(st, delta))
  {
  }

  lemma StepPreservesWellFormed(st: LessonState, e: LessonEvent, supported: bool)
    requires WellFormed(st) && Possible(st, e)
    ensures WellFormed(Step(st, e, supported))
  {
    match e
    case Send(text) => SendPreservesWellFormed(st, text);
    case Chunk(delta) => ChunkPreservesWellFormed(st, delta);
    case _ =>
  }

  /** Every possible event sequence from the opening page keeps the transcript well formed. */
  lemma {:induction false} RunPreservesWellFormed(es: seq<LessonEvent>, supported: bool)
    requires PossibleTrace(Initial, es, supported)
    ensures WellFormed(Run(Initial, es, supported))
    decreases |es|
  {
    if |es| > 0 {
      var prev := es[..|es| - 1];
      assert PossibleTrace(Initial, prev, supported) by {
        forall k | 0 <= k < |prev| ensures Possible(Run(Initial, prev[..k], supported), prev[k]) {
          assert prev[..k] == es[..k];
        }
      }
      RunPreservesWellFormed(prev, supported);
      assert es[..|es| - 1] == prev;
      StepPreservesWellFormed(Run(Initial, prev, supported), es[|es| - 1], supported);
    }
  }

  /**
    Each step keeps every message but the last, adds at most one, and changes the
    last one in place only when it is an assistant message that stays one.
   */
  lemma StepKeepsHistory(st: LessonState, e: LessonEvent, supported: bool)
    ensures var m := st.messages; var m' := Step(st, e, supported).messages;
      && (|m'| == |m| || |m'| == |m| + 1)
      && (forall i :: 0 <= i < |m| - 1 ==> m'[i] == m[i])
      && (|m| > 0 && m'[|m| - 1] != m[|m| - 1] ==> m[|m| - 1].role == Assistant && m'[|m| - 1].role == Assistant)
  {
  }

  /** The user's own edits and sends are the events that set the input box directly. */
  predicate TypesOrSends(e: LessonEvent) {
    e.Edit? || e.Send?
  }

  /** Apart from edits and sends, only a recognition result with a new, non-empty transcript writes the input box. */
  lemma StepInput(st: LessonState, e: LessonEvent, supported: bool)
    requires !TypesOrSends(e)
    ensures var r := Step(st, e, supported);
      r.input == st.input || (e.Heard? && r.input == Speech.JoinFirst(e.results) && r.input != "")
  {
  }

  /**
    Between the user's own edits and sends, what the input box holds is either what
    the user left there or the non-empty transcript of some recognition result that
    arrived meanwhile: no other event writes to it.
   */
  lemma {:induction false} InputFromUserOrSpeech(st: LessonState, es: seq<LessonEvent>, supported: bool)
    requires forall k :: 0 <= k < |es| ==> !TypesOrSends(es[k])
    ensures var r := Run(st, es, supported);
      || r.input == st.input
      || (r.input != "" && exists k :: 0 <= k < |es| && es[k].Heard? && r.input == Speech.JoinFirst(es[k].results))
    decreases |es|
  {
    if |es| > 0 {
      var prev := es[..|es| - 1];
      var e := es[|es| - 1];
      assert forall k :: 0 <= k < |prev| ==> prev[k] == es[k];
      InputFromUserOrSpeech(st, prev, supported);
      var before := Run(st, prev, supported);
      var r := Step(before, e, supported);
      assert Run(st, es, supported) == r;
      StepInput(before, e, supported);
      if r.input != before.input {
        assert es[|es| - 1].Heard?;
      } else if before.input != st.input {
        var k :| 0 <= k < |prev| && prev[k].Heard? && before.input == Speech.JoinFirst(prev[k].results);
        assert es[k] == prev[k];
      }
    }
  }

  /**
    The spoken and written conversation need not alternate: a reply that fails before
    its first chunk leaves two user messages next to each other.
   */
  lemma UserMessagesNeedNotAlternate()
    ensures var r := Run(Initial, [Send("Hi"), Failed, Send("Hello?")], false);
      |r.messages| == 2 && r.messages[0].role == User && r.messages[1].role == User
  {
    var es := [Send("Hi"), Failed, Send("Hello?")];
    assert !IsBlank("Hi") && !IsBlank("Hello?") by {
      assert "Hi"[0] == 'H' && "Hello?"[0] == 'H';
    }
    var s1 := SendMessage(Initial, "Hi").state;
    assert |s1.messages| == 1 && s1.messages[0].role == User && s1.isLoading;
    assert Run(Initial, es[..1], false) == s1 by {
      assert es[..1][..0] == [];
    }
    var s2 := Finish(s1);
    assert Run(Initial, es[..2], false) == s2 by {
      assert es[..2][..1] == es[..1];
    }
    var s3 := SendMessage(s2, "Hello?").state;
    assert |s3.messages| == 2 && s3.messages[0] == s1.messages[0] && s3.messages[1].role == User;
    assert es[..3] == es;
  }
}
