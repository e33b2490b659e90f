/** The `useSpeechRecognition` hook: the transcript its result handler builds, the
    start and stop callbacks, and the `listening` flag as the error and end handlers
    see it.

    The browser recognizer is reduced to whether it exists and whether it is capturing
    (`running`). The events it fires (results, errors, the end of a session) are method
    calls. The calls the hook makes to its `onFinalTranscript` callback are recorded, in
    order, in `delivered`. */
module SpeechRecognition {
  import opened Text

  /** One entry of the result list: the first alternative's text and whether it is final. */
  datatype SpeechResult = SpeechResult(transcript: string, isFinal: bool)

  /** What the hook appends after each final segment. */
  const FinalSeparator: string := ". "

  // ---------------------------------------------------------------------------
  // The transcript of one result event

  /** The final segments, in order, each followed by ". ". */
  function FinalText(results: seq<SpeechResult>): string {
    if results == [] then ""
    else
      var last := results[|results| - 1];
      FinalText(results[..|results| - 1]) + (if last.isFinal then last.transcript + FinalSeparator else "")
  }

  /** The segments that are not final yet, in order, concatenated. */
  function InterimText(results: seq<SpeechResult>): string {
    if results == [] then ""
    else
      var last := results[|results| - 1];
      InterimText(results[..|results| - 1]) + (if last.isFinal then "" else last.transcript)
  }

  predicate HasFinal(results: seq<SpeechResult>) {
    exists i :: 0 <= i < |results| && results[i].isFinal
  }

  /** The loop of the result handler: one pass over the results, appending each segment
      to the final or the interim text. */
  method BuildTranscript(results: seq<SpeechResult>) returns (finalTranscript: string, interimTranscript: string)
    ensures finalTranscript == FinalText(results)
    ensures interimTranscript == InterimText(results)
  {
    finalTranscript := "";
    interimTranscript := "";
    var i := 0;
    while i < |results|
      invariant 0 <= i <= |results|
      invariant finalTranscript == FinalText(results[..i])
      invariant interimTranscript == InterimText(results[..i])
    {
      var part := results[i].transcript;
      if results[i].isFinal {
        finalTranscript := finalTranscript + part + FinalSeparator;
      } else {
        interimTranscript := interimTranscript + part;
      }
      assert results[..i + 1][..i] == results[..i];
      i := i + 1;
    }
    assert results[..i] == results;
  }

  /** The final text of a list of results is the final text of its parts, put together. */
  lemma {:induction false} FinalTextAppend(a: seq<SpeechResult>, b: seq<SpeechResult>)
    ensures FinalText(a + b) == FinalText(a) + FinalText(b)
    decreases |b|
  {
    if b != [] {
      var b' := b[..|b| - 1];
      assert (a + b)[..|a + b| - 1] == a + b';
      assert (a + b)[|a + b| - 1] == b[|b| - 1];
      FinalTextAppend(a, b');
    } else {
      assert a + b == a;
    }
  }

  /** Without a final result there is no final text. */
  lemma {:induction false} NoFinalNoFinalText(results: seq<SpeechResult>)
    requires !HasFinal(results)
    ensures FinalText(results) == ""
    ensures InterimText(results) == InterimTextAll(results)
  {
    if results != [] {
      var init := results[..|results| - 1];
      assert !HasFinal(init) by {
        forall i | 0 <= i < |init| ensures !init[i].isFinal {
          assert init[i] == results[i];
        }
      }
      NoFinalNoFinalText(init);
    }
  }

  /** Every segment's text, concatenated: the interim text when nothing is final. */
  function InterimTextAll(results: seq<SpeechResult>): string {
    if results == [] then "" else InterimTextAll(results[..|results| - 1]) + results[|results| - 1].transcript
  }

  /** The final text is blank exactly when no result is final: a final segment always
      brings its full stop. */
  lemma FinalTextBlankIff(results: seq<SpeechResult>)
    ensures IsBlank(FinalText(results)) <==> !HasFinal(results)
  {
    if HasFinal(results) {
      FinalTextEndsWithStop(results);
      var text := FinalText(results);
      assert !IsSpace(text[|text| - 2]);
    } else {
      NoFinalNoFinalText(results);
    }
  }

  /** When some result is final, the final text ends with a full stop and a space. */
  lemma {:induction false} FinalTextEndsWithStop(results: seq<SpeechResult>)
    requires HasFinal(results)
    ensures var text := FinalText(results);
      |text| >= 2 && text[|text| - 2] == '.' && text[|text| - 1] == ' '
  {
    var init := results[..|results| - 1];
    var last := results[|results| - 1];
    if !last.isFinal {
      var j :| 0 <= j < |results| && results[j].isFinal;
      assert init[j] == results[j];
      FinalTextEndsWithStop(init);
    }
  }

  /** Trimming a text that ends with ". " drops the final space and keeps the full stop:
      leading white space stops before the full stop and trailing white space starts
      after it. */
  lemma TrimKeepsFullStop(text: string)
    requires |text| >= 2 && text[|text| - 2] == '.' && text[|text| - 1] == ' '
    ensures var t := Trim(text); t != [] && t[|t| - 1] == '.'
  {
    var a := LeadingSpace(text);
    assert !IsSpace(text[|text| - 2]);
    assert a <= |text| - 2;
    var s := text[a..];
    assert s[|s| - 2] == '.' && s[|s| - 1] == ' ';
    assert TrailingSpaceStart(s) == |s| - 1;
  }

  /** When some result is final, the text handed to the callback is not empty and ends
      with the full stop of the last final segment. */
  lemma DeliveredTextEndsWithFullStop(results: seq<SpeechResult>)
    requires HasFinal(results)
    ensures var t := Trim(FinalText(results)); t != [] && t[|t| - 1] == '.'
  {
    FinalTextEndsWithStop(results);
    TrimKeepsFullStop(FinalText(results));
  }

  // ---------------------------------------------------------------------------
  // The hook's state

  /** The hook's state: whether a recognizer exists, the `isListening` state, the
      `transcript` state, the `isListening` value the recognizer's end handler captured,
      whether the browser recognizer is capturing, and the callback calls so far. */
  datatype HookState = HookState(
    hasRecognizer: bool,
    isListening: bool,
    transcript: string,
    capturedListening: bool,
    running: bool,
    delivered: seq<string>)

  /** The first effect: a recognizer is created only when the browser has the API, and its
      handlers capture the initial `isListening`, false. */
  function Mounted(supported: bool): HookState {
    HookState(supported, false, "", false, false, [])
  }

  /** The effect run again (the callback changed): the old recognizer is stopped and a
      new one, not started, takes its place, its handlers capturing the current
      `isListening`. Without the API the effect does nothing. */
  function Remounted(s: HookState): HookState {
    if s.hasRecognizer then s.(running := false, capturedListening := s.isListening) else s
  }

  /** `startListening`: only with a recognizer that is not listening. */
  function Started(s: HookState): HookState {
    if s.hasRecognizer && !s.isListening then s.(running := true, isListening := true) else s
  }

  /** `stopListening`: only with a recognizer that is listening. */
  function Stopped(s: HookState): HookState {
    if s.hasRecognizer && s.isListening then s.(running := false, isListening := false) else s
  }

  /** The error handler: the hook stops listening; the recognizer is left alone. */
  function Errored(s: HookState): HookState {
    s.(isListening := false)
  }

  /** The end handler as written: the session is over and a new one is started only when
      the captured `isListening` was true. */
  function Ended(s: HookState): HookState {
    s.(running := s.capturedListening)
  }

  /** The end handler as its comment describes it: restart when the hook is listening. */
  function EndedResuming(s: HookState): HookState {
    s.(running := s.isListening)
  }

  /** The result handler: the transcript becomes the final text followed by the interim
      text, and the trimmed final text is handed to the callback when it is not blank. */
  function ResultReceived(s: HookState, results: seq<SpeechResult>): HookState {
    var finalText := Trim(FinalText(results));
    s.(transcript := FinalText(results) + InterimText(results),
       delivered := if finalText != [] then s.delivered + [finalText] else s.delivered)
  }

  /** Without a recognizer nothing is listening, capturing or captured. */
  predicate Quiet(s: HookState) {
    !s.hasRecognizer ==> !s.isListening && !s.running && !s.capturedListening
  }

  class Recognizer {
    var hasRecognizer: bool
    var isListening: bool
    var transcript: string
    var capturedListening: bool
    var running: bool
    var delivered: seq<string>

    function Snap(): HookState
      reads this
    {
      HookState(hasRecognizer, isListening, transcript, capturedListening, running, delivered)
    }

    predicate Valid()
      reads this
    {
      Quiet(Snap())
    }

    constructor (supported: bool)
      ensures Valid()
      ensures Snap() == Mounted(supported)
    {
      hasRecognizer := supported;
      isListening := false;
      transcript := "";
      capturedListening := false;
      running := false;
      delivered := [];
    }

    method Remount()
      requires Valid()
      modifies this
      ensures Valid()
      ensures Snap() == Remounted(old(Snap()))
    {
      if hasRecognizer {
        running := false;
        capturedListening := isListening;
      }
    }

    method StartListening()
      requires Valid()
      modifies this
      ensures Valid()
      ensures Snap() == Started(old(Snap()))
    {
      if hasRecognizer && !isListening {
        running := true;
        isListening := true;
      }
    }

    method StopListening()
      requires Valid()
      modifies this
      ensures Valid()
      ensures Snap() == Stopped(old(Snap()))
    {
      if hasRecognizer && isListening {
        running := false;
        isListening := false;
      }
    }

    method OnError()
      requires Valid() && hasRecognizer
      modifies this
      ensures Valid()
      ensures Snap() == Errored(old(Snap()))
    {
      isListening := false;
    }

    method OnEnd()
      requires Valid() && hasRecognizer
      modifies this
      ensures Valid()
      ensures Snap() == Ended(old(Snap()))
    {
      running := false;
      if capturedListening {
        running := true;
      }
    }

    method OnEndResuming()
      requires Valid() && hasRecognizer
      modifies this
      ensures Valid()
      ensures Snap() == EndedResuming(old(Snap()))
      ensures running == isListening
    {
      running := false;
      if isListening {
        running := true;
      }
    }

    method OnResult(results: seq<SpeechResult>)
      requires Valid() && hasRecognizer
      modifies this
      ensures Valid()
      ensures Snap() == ResultReceived(old(Snap()), results)
    {
      var finalTranscript, interimTranscript := BuildTranscript(results);
      transcript := finalTranscript + interimTranscript;
      var trimmed := Trim(finalTranscript);
      if trimmed != [] {
        delivered := delivered + [trimmed];
      }
    }
  }

  // ---------------------------------------------------------------------------
  // Properties

  /** The callback is called exactly when some result is final, and then with text that
      ends with a full stop. */
  lemma ResultDelivery(s: HookState, results: seq<SpeechResult>)
    ensures var t := ResultReceived(s, results);
      && (HasFinal(results) <==> |t.delivered| == |s.delivered| + 1)
      && (!HasFinal(results) ==> t.delivered == s.delivered && t.transcript == InterimTextAll(results))
      && (HasFinal(results) ==>
            && t.delivered == s.delivered + [Trim(FinalText(results))]
            && Trim(FinalText(results))[|Trim(FinalText(results))| - 1] == '.')
  {
    if HasFinal(results) {
      FinalDelivered(s, results);
    } else {
      NothingDelivered(s, results);
    }
  }

  /** A final result hands the trimmed final text, ending with a full stop, to the callback. */
  lemma FinalDelivered(s: HookState, results: seq<SpeechResult>)
    requires HasFinal(results)
    ensures var text := Trim(FinalText(results));
      && text != [] && text[|text| - 1] == '.'
      && ResultReceived(s, results).delivered == s.delivered + [text]
  {
    DeliveredTextEndsWithFullStop(results);
  }

  /** Without a final result the callback is not called and the transcript is every
      segment. */
  lemma NothingDelivered(s: HookState, results: seq<SpeechResult>)
    requires !HasFinal(results)
    ensures ResultReceived(s, results).delivered == s.delivered
    ensures ResultReceived(s, results).transcript == InterimTextAll(results)
  {
    NoFinalNoFinalText(results);
    assert Trim("") == "";
  }

  /** Starting twice is starting once; stopping twice is stopping once; a start followed
      by a stop leaves the hook not listening and the recognizer idle. */
  lemma StartStopIdempotent(s: HookState)
    requires Quiet(s)
    ensures Started(Started(s)) == Started(s)
    ensures Stopped(Stopped(s)) == Stopped(s)
    ensures !Stopped(Started(s)).isListening && !Stopped(Started(s)).running
  {
  }

  /** Without the API, starting and stopping never change the flag. */
  lemma UnsupportedNeverListens(s: HookState)
    requires !s.hasRecognizer
    ensures Started(s) == s && Stopped(s) == s
  {
  }

  /** After an error the hook is not listening, and starting again is possible. */
  lemma ErrorThenStart(s: HookState)
    requires s.hasRecognizer
    ensures !Errored(s).isListening
    ensures Started(Errored(s)).isListening && Started(Errored(s)).running
  {
  }

  /** The events the hook reacts to while the effect is not re-run. */
  datatype HookEvent = Start | Stop | Error | End | Result(results: seq<SpeechResult>)

  function Step(s: HookState, e: HookEvent): HookState {
    match e
    case Start => Started(s)
    case Stop => Stopped(s)
    case Error => if s.hasRecognizer then Errored(s) else s
    case End => if s.hasRecognizer then Ended(s) else s
    case Result(results) => if s.hasRecognizer then ResultReceived(s, results) else s
  }

  function Run(s: HookState, events: seq<HookEvent>): HookState
    decreases |events|
  {
    if events == [] then s else Run(Step(s, events[0]), events[1..])
  }

  /** The end handler reads the `isListening` captured when the effect ran, not the live
      state; no event changes it, so from the first effect on, whatever is started, the
      end of a session never restarts the recognizer. */
  lemma {:induction false} CapturedFlagIsStale(s: HookState, events: seq<HookEvent>)
    ensures Run(s, events).capturedListening == s.capturedListening
    ensures Run(s, events).hasRecognizer == s.hasRecognizer
    decreases |events|
  {
    if events != [] {
      CapturedFlagIsStale(Step(s, events[0]), events[1..]);
    }
  }

  /** Running the effect again with a recognizer leaves the hook's own state alone, idles
      the browser recognizer even while the hook says it is listening, and refreshes the
      captured flag, so the next end restarts exactly when the hook was listening then. */
  lemma RemountRefreshesCapturedFlag(s: HookState)
    requires s.hasRecognizer
    ensures var t := Remounted(s);
      && t.hasRecognizer && t.isListening == s.isListening
      && t.transcript == s.transcript && t.delivered == s.delivered
      && !t.running
      && Step(t, End).running == s.isListening
  {
  }

  lemma EndNeverRestartsAfterMount(supported: bool, events: seq<HookEvent>)
    ensures var s := Run(Mounted(supported), events);
      !Step(s, End).running
  {
    CapturedFlagIsStale(Mounted(supported), events);
  }

  /** As written: start listening, and let the browser end the session; the hook still
      says it is listening but the recognizer is idle. */
  lemma ListeningNotResumedAsWritten()
    ensures var s := Ended(Started(Mounted(true)));
      s.isListening && !s.running
  {
  }

  /** As intended: after a session ends, the recognizer captures exactly when the hook
      says it is listening. */
  lemma ListeningResumed(s: HookState)
    ensures EndedResuming(s).running == s.isListening
    ensures var t := EndedResuming(Started(Mounted(true)));
      t.isListening && t.running
  {
  }
}
