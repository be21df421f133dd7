/**
  The speech-capture hook `useSpeechRecognition`: a listening flag, the recognised
  transcript and whether a recognizer has ever been created, driven by the user's
  start/stop/reset calls and by the recognizer's result/end/error callbacks,
  applied one at a time.
 */
module Speech {

  /** One recognition result; the browser always supplies at least one alternative. */
  datatype RecognitionResult = RecognitionResult(first: string, others: seq<string>)

  datatype SpeechState = SpeechState(isListening: bool, transcript: string, hasRecognizer: bool)

  /** The hook's state on mount: not listening, empty transcript, no recognizer yet. */
  const Initial := SpeechState(false, "", false)

  datatype Event =
    | Start            // startListening()
    | Stop             // stopListening()
    | Reset            // resetTranscript()
    | Result(results: seq<RecognitionResult>)   // recognition.onresult
    | End              // recognition.onend
    | Error            // recognition.onerror

  /** The first alternative of every result, joined in order from index 0. */
  function JoinFirst(results: seq<RecognitionResult>): string {
    if |results| == 0 then "" else JoinFirst(results[..|results| - 1]) + results[|results| - 1].first
  }

  /** Joining two runs of results is joining each and concatenating. */
  lemma {:induction false} JoinFirstAppend(a: seq<RecognitionResult>, b: seq<RecognitionResult>)
    ensures JoinFirst(a + b) == JoinFirst(a) + JoinFirst(b)
    decreases |b|
  {
    if |b| == 0 {
      assert a + b == a;
    } else {
      var b' := b[..|b| - 1];
      assert (a + b)[..|a + b| - 1] == a + b';
      JoinFirstAppend(a, b');
    }
  }

  /** The `onresult` handler's loop, rebuilding the transcript from index 0. */
  method BuildTranscript(results: seq<RecognitionResult>) returns (transcript: string)
    ensures transcript == JoinFirst(results)
  {
    transcript := "";
    var i := 0;
    while i < |results|
      invariant 0 <= i <= |results|
      invariant transcript == JoinFirst(results[..i])
    {
      assert results[..i + 1][..i] == results[..i];
      transcript := transcript + results[i].first;
      i := i + 1;
    }
    assert results[..|results|] == results;
  }

  /** `startListening`: a no-op without speech support, otherwise a fresh recognizer and an empty transcript. */
  function StartListening(s: SpeechState, supported: bool): (r: SpeechState)
    ensures !supported ==> r == s
    ensures supported ==> r.isListening && r.transcript == "" && r.hasRecognizer
  {
    if supported then SpeechState(true, "", true) else s
  }

  /** `stopListening`: only acts once a recognizer exists; the transcript is kept. */
  function StopListening(s: SpeechState): (r: SpeechState)
    ensures !s.hasRecognizer ==> r == s
    ensures s.hasRecognizer ==> !r.isListening
    ensures r.transcript == s.transcript && r.hasRecognizer == s.hasRecognizer
  {
    if s.hasRecognizer then s.(isListening := false) else s
  }

  /** `resetTranscript`: clears the text, leaves the listening flag alone. */
  function ResetTranscript(s: SpeechState): (r: SpeechState)
    ensures r.transcript == "" && r.isListening == s.isListening && r.hasRecognizer == s.hasRecognizer
  {
    s.(transcript := "")
  }

  /** `onresult`: the transcript is rebuilt from all results, replacing the previous text. */
  function OnResult(s: SpeechState, results: seq<RecognitionResult>): (r: SpeechState)
    ensures r.transcript == JoinFirst(results)
    ensures r.isListening == s.isListening && r.hasRecognizer == s.hasRecognizer
  {
    s.(transcript := JoinFirst(results))
  }

  /** `onend` and `onerror`: listening stops, the transcript stays. */
  function OnEndOrError(s: SpeechState): (r: SpeechState)
    ensures !r.isListening && r.transcript == s.transcript && r.hasRecognizer == s.hasRecognizer
  {
    s.(isListening := false)
  }

  /** The state after one event; `supported` is whether the environment offers speech recognition. */
  function Apply(s: SpeechState, e: Event, supported: bool): SpeechState {
    match e
    case Start => StartListening(s, supported)
    case Stop => StopListening(s)
    case Reset => ResetTranscript(s)
    case Result(results) => OnResult(s, results)
    case End => OnEndOrError(s)
    case Error => OnEndOrError(s)
  }

  /** The state after a sequence of events, applied in order; the last event is applied last. */
  function Run(s: SpeechState, es: seq<Event>, supported: bool): SpeechState
    decreases |es|
  {
    if |es| == 0 then s else Apply(Run(s, es[..|es| - 1], supported), es[|es| - 1], supported)
  }

  /** The hook never reports listening without a recognizer having been created. */
  ghost predicate Valid(s: SpeechState) {
    s.isListening ==> s.hasRecognizer
  }

  lemma {:induction false} RunPreservesValid(s: SpeechState, es: seq<Event>, supported: bool)
    requires Valid(s)
    ensures Valid(Run(s, es, supported))
    decreases |es|
  {
    if |es| > 0 {
      RunPreservesValid(s, es[..|es| - 1], supported);
    }
  }

  /** Without speech support no event sequence ever makes the hook listen or create a recognizer. */
  lemma {:induction false} UnsupportedNeverListens(s: SpeechState, es: seq<Event>)
    requires !s.isListening && !s.hasRecognizer
    ensures !Run(s, es, false).isListening && !Run(s, es, false).hasRecognizer
    decreases |es|
  {
    if |es| > 0 {
      UnsupportedNeverListens(s, es[..|es| - 1]);
    }
  }

  /** Stopping then starting again always begins from an empty transcript, whatever came before. */
  lemma StopThenStartClears(s: SpeechState)
    ensures var r := Run(s, [Stop, Start], true); r.transcript == "" && r.isListening
  {
    assert [Stop, Start][..1] == [Stop];
    assert [Stop][..0] == [];
  }

  /** A result replaces the transcript: the previous text has no influence on the new one. */
  lemma ResultReplaces(s1: SpeechState, s2: SpeechState, results: seq<RecognitionResult>, supported: bool)
    ensures Apply(s1, Result(results), supported).transcript == Apply(s2, Result(results), supported).transcript
  {
  }

  /** Natural end of speech and a recognizer error leave the hook in the same state. */
  lemma EndErrorIndistinguishable(s: SpeechState, supported: bool)
    ensures Apply(s, End, supported) == Apply(s, Error, supported)
  {
  }

  /** After a start, the transcript stays empty until a result event arrives. */
  lemma {:induction false} EmptyUntilResult(s: SpeechState, es: seq<Event>, supported: bool)
    requires s.transcript == ""
    requires forall i :: 0 <= i < |es| ==> !es[i].Result?
    ensures Run(s, es, supported).transcript == ""
    decreases |es|
  {
    if |es| > 0 {
      var prev := es[..|es| - 1];
      assert forall i :: 0 <= i < |prev| ==> prev[i] == es[i];
      assert !es[|es| - 1].Result?;
      EmptyUntilResult(s, prev, supported);
    }
  }
}
