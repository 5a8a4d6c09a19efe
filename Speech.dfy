/** The recognition-session controller `SpeechRecognizerHelper`: it drives the
    platform speech recognizer through start, stop and destroy, reacts to the
    recognizer's end-of-speech, error and result callbacks, restarts itself
    after a delay when continuous listening was requested, and drops a final
    result that repeats the previous one within two seconds.

    The platform is replaced by inputs and logs: the clock is a `now`
    parameter, a recognizer call that throws is a `Fault`, the commands
    issued to the recognizer are a ghost log, the main-thread `Handler` is
    the flag `pendingRestart` together with `FireRestart`, and a call of the
    `onResult` or `onError` callback is the `Emission` a method returns. */
module Speech {
  import opened Text

  // The error codes of `android.speech.SpeechRecognizer`.
  const ERROR_NETWORK_TIMEOUT: int := 1
  const ERROR_NETWORK: int := 2
  const ERROR_AUDIO: int := 3
  const ERROR_SERVER: int := 4
  const ERROR_CLIENT: int := 5
  const ERROR_SPEECH_TIMEOUT: int := 6
  const ERROR_NO_MATCH: int := 7
  const ERROR_RECOGNIZER_BUSY: int := 8
  const ERROR_INSUFFICIENT_PERMISSIONS: int := 9

  /** Two results with the same trimmed text closer than this are one. */
  const DUPLICATE_TIMEOUT_MS: int := 2000

  /** A recognizer error code, as the `when` in `onError` tells them apart. */
  datatype RecognitionError =
    | NetworkTimeout | Network | Audio | Server | Client
    | SpeechTimeout | NoMatch | RecognizerBusy | InsufficientPermissions
    | Other(code: int)

  /** The code a recognition error stands for. */
  function Code(e: RecognitionError): int {
    match e
    case NetworkTimeout => ERROR_NETWORK_TIMEOUT
    case Network => ERROR_NETWORK
    case Audio => ERROR_AUDIO
    case Server => ERROR_SERVER
    case Client => ERROR_CLIENT
    case SpeechTimeout => ERROR_SPEECH_TIMEOUT
    case NoMatch => ERROR_NO_MATCH
    case RecognizerBusy => ERROR_RECOGNIZER_BUSY
    case InsufficientPermissions => ERROR_INSUFFICIENT_PERMISSIONS
    case Other(c) => c
  }

  /** `Other` is kept for the codes that have no name of their own. */
  predicate WellFormed(e: RecognitionError) {
    e.Other? ==> !(1 <= e.code <= 9)
  }

  /** Reads a code the recognizer reports: the inverse of `Code`. */
  function Classify(code: int): (e: RecognitionError)
    ensures WellFormed(e) && Code(e) == code
  {
    if code == ERROR_NETWORK_TIMEOUT then NetworkTimeout
    else if code == ERROR_NETWORK then Network
    else if code == ERROR_AUDIO then Audio
    else if code == ERROR_SERVER then Server
    else if code == ERROR_CLIENT then Client
    else if code == ERROR_SPEECH_TIMEOUT then SpeechTimeout
    else if code == ERROR_NO_MATCH then NoMatch
    else if code == ERROR_RECOGNIZER_BUSY then RecognizerBusy
    else if code == ERROR_INSUFFICIENT_PERMISSIONS then InsufficientPermissions
    else Other(code)
  }

  /** Classifying the code of a well-formed error gives the error back. */
  lemma ClassifyCode(e: RecognitionError)
    requires WellFormed(e)
    ensures Classify(Code(e)) == e
  {
  }

  const UNKNOWN_ERROR_PREFIX: string := "Error desconocido: "

  /** The user-facing text of an error: a fixed text for each named error,
      and for any other code the unknown-error prefix followed by the code. */
  function Message(e: RecognitionError): (m: string)
    ensures e.Other? <==> UNKNOWN_ERROR_PREFIX <= m
    ensures e.Other? ==> m[|UNKNOWN_ERROR_PREFIX|..] == IntToString(e.code)
  {
    // the named texts at least as long as the prefix start with another letter
    match e
    case Audio => "Error de audio"
    case Client => "Error del cliente"
    case InsufficientPermissions =>
      var t := "Permisos insuficientes";
      assert t[0] != UNKNOWN_ERROR_PREFIX[0];
      t
    case Network => "Error de red"
    case NetworkTimeout => "Timeout de red"
    case NoMatch =>
      var t := "No se reconoci\U{F3} ninguna voz";
      assert t[0] != UNKNOWN_ERROR_PREFIX[0];
      t
    case RecognizerBusy =>
      var t := "Reconocedor ocupado";
      assert t[0] != UNKNOWN_ERROR_PREFIX[0];
      t
    case Server => "Error del servidor"
    case SpeechTimeout =>
      var t := "Tiempo de espera agotado";
      assert t[0] != UNKNOWN_ERROR_PREFIX[0];
      t
    case Other(c) => UNKNOWN_ERROR_PREFIX + IntToString(c)
  }

  /** The message `onError` builds for a reported code: exactly the codes
      outside 1..9 fall through to the unknown-error text, which ends with
      the code itself. */
  function ErrorMessage(code: int): (m: string)
    ensures !(1 <= code <= 9) <==> UNKNOWN_ERROR_PREFIX <= m
    ensures !(1 <= code <= 9) ==> m[|UNKNOWN_ERROR_PREFIX|..] == IntToString(code)
  {
    Message(Classify(code))
  }

  /** Different codes give different messages, so a message names its code. */
  lemma ErrorMessageInjective(a: int, b: int)
    requires ErrorMessage(a) == ErrorMessage(b)
    ensures a == b
  {
    var ea, eb := Classify(a), Classify(b);
    var m := ErrorMessage(a);
    if ea.Other? && eb.Other? {
      assert m[|UNKNOWN_ERROR_PREFIX|..] == IntToString(a);
      assert m[|UNKNOWN_ERROR_PREFIX|..] == IntToString(b);
      IntToStringInjective(a, b);
    } else if ea.Other? {
      UnknownMessageIsNotNamed(ea, eb);
    } else if eb.Other? {
      UnknownMessageIsNotNamed(eb, ea);
    }
  }

  /** The message of an unnamed code differs from every named message: it is
      longer than those that start like it. */
  lemma UnknownMessageIsNotNamed(unknown: RecognitionError, named: RecognitionError)
    requires unknown.Other? && !named.Other?
    ensures Message(unknown) != Message(named)
  {
    var m := Message(unknown);
    assert |m| > |UNKNOWN_ERROR_PREFIX| && m[0] == 'E';
  }

  /** The errors after which a continuing session restarts silently. */
  predicate IsAutoRestartError(code: int) {
    code == ERROR_NO_MATCH || code == ERROR_SPEECH_TIMEOUT
  }

  const START_FAILURE_PREFIX: string := "No se pudo iniciar el reconocimiento: "

  /** The message reported when the recognizer refuses to start; `detail`
      is the exception's message. */
  function StartFailureMessage(detail: string): (m: string)
    ensures START_FAILURE_PREFIX <= m && m[|START_FAILURE_PREFIX|..] == detail
  {
    START_FAILURE_PREFIX + detail
  }

  /** A final result repeats the last accepted one: same trimmed text, and
      less than `DUPLICATE_TIMEOUT_MS` since that one was accepted. */
  predicate IsDuplicate(text: string, last: string, lastTime: int, now: int) {
    Trim(text) == Trim(last) && now - lastTime < DUPLICATE_TIMEOUT_MS
  }

  /** `onResults` passes a result on when it is neither a duplicate nor blank. */
  predicate Accepts(text: string, last: string, lastTime: int, now: int) {
    !IsDuplicate(text, last, lastTime, now) && !IsBlank(Trim(text))
  }

  /** A blank result is never passed on, whatever the history. */
  lemma BlankNeverAccepted(text: string, last: string, lastTime: int, now: int)
    requires IsBlank(text)
    ensures !Accepts(text, last, lastTime, now)
  {
    BlankIffTrimEmpty(text);
  }

  /** A result whose trimmed text differs from the last accepted one is passed
      on exactly when it is not blank, however soon it arrives. */
  lemma NewTextAccepted(text: string, last: string, lastTime: int, now: int)
    requires Trim(text) != Trim(last)
    ensures Accepts(text, last, lastTime, now) <==> Trim(text) != []
  {
    BlankIffTrimEmpty(Trim(text));
  }

  /** The suppression window: once `first` has been accepted at `t0`, a result
      with the same trimmed text arriving at `t1` is accepted exactly when at
      least `DUPLICATE_TIMEOUT_MS` have passed. */
  lemma DuplicateWindow(first: string, last: string, lastTime: int, t0: int,
                        again: string, t1: int)
    requires Accepts(first, last, lastTime, t0)
    requires Trim(again) == Trim(first)
    ensures Accepts(again, Trim(first), t0, t1) <==> t1 - t0 >= DUPLICATE_TIMEOUT_MS
  {
    TrimIdempotent(first);
  }

  /** A call on the platform recognizer. */
  datatype Command = Cancel | Start | Stop | Destroy

  /** Which recognizer call of a `try` block throws, and the exception's
      message; a step beyond the block's last call means none throws. */
  datatype Fault = NoFault | FailsAt(step: nat, message: string)

  /** Some call among `steps` throws. */
  predicate Throws(steps: seq<Command>, f: Fault) {
    f.FailsAt? && f.step < |steps|
  }

  /** The calls among `steps` that are made: all of them, or those up to and
      including the one that throws. */
  function Issued(steps: seq<Command>, f: Fault): (r: seq<Command>)
    ensures r <= steps
    ensures Throws(steps, f) ==> |r| == f.step + 1
    ensures !Throws(steps, f) ==> |r| == |steps|
  {
    if Throws(steps, f) then steps[..f.step + 1] else steps
  }

  /** The recognizer calls of `startListening` and of `destroy`. */
  const START_STEPS: seq<Command> := [Cancel, Start]
  const DESTROY_STEPS: seq<Command> := [Stop, Cancel, Command.Destroy]

  /** What the helper passes to its owner through a callback, if anything. */
  datatype Emission = Silent | Delivered(text: string) | Reported(message: string)

  class SpeechRecognizerHelper {
    var isListening: bool
    var shouldContinueListening: bool
    /** A restart runnable is posted on the handler and has not run. */
    var pendingRestart: bool
    var lastRecognizedText: string
    var lastRecognitionTime: int
    /** Every call made on the platform recognizer, oldest first. */
    ghost var commands: seq<Command>

    /** Listening implies continuation is requested and the recognizer's last
        command was a start; the remembered text is always trimmed. */
    ghost predicate Valid()
      reads this
    {
      (isListening ==> shouldContinueListening && |commands| > 0 && commands[|commands| - 1] == Start) &&
      IsTrimmed(lastRecognizedText)
    }

    /** `onResults` would pass on the first of `matches` at time `now`. */
    predicate Accepting(matches: seq<string>, now: int)
      reads this
    {
      |matches| > 0 && Accepts(matches[0], lastRecognizedText, lastRecognitionTime, now)
    }

    /** The first of `matches`, trimmed, is the remembered text itself and
        arrives within the duplicate window. */
    predicate Repeats(matches: seq<string>, now: int)
      reads this
    {
      |matches| > 0 && Trim(matches[0]) == lastRecognizedText &&
      now - lastRecognitionTime < DUPLICATE_TIMEOUT_MS
    }

    /** `onError` would swallow `code` and schedule a restart instead. */
    predicate Silences(code: int)
      reads this
    {
      shouldContinueListening && IsAutoRestartError(code)
    }

    /** The pending restart, when it fires, passes its guard and starts. */
    predicate RestartStarts()
      reads this
    {
      pendingRestart && shouldContinueListening && !isListening
    }

    constructor ()
      ensures Valid()
      ensures !isListening && !shouldContinueListening && !pendingRestart
      ensures lastRecognizedText == "" && lastRecognitionTime == 0 && commands == []
    {
      isListening := false;
      shouldContinueListening := false;
      pendingRestart := false;
      lastRecognizedText := "";
      lastRecognitionTime := 0;
      commands := [];
    }

    /** `restartListeningAfterDelay`: cancels the posted restart, if any, and
        posts a new one, so at most one is ever pending. */
    method RestartListeningAfterDelay()
      requires Valid()
      modifies this`pendingRestart
      ensures Valid() && pendingRestart
    {
      // removing the old runnable and posting a new one leaves one posted
      pendingRestart := true;
    }

    /** `startListening`. Ignored while listening; otherwise requests
        continuation, forgets the last result, cancels then starts the
        recognizer, and on an exception reports it and clears both flags. */
    method StartListening(fault: Fault) returns (emitted: Emission)
      requires Valid()
      modifies this
      ensures Valid()
      ensures old(isListening) ==> emitted == Silent && unchanged(this)
      ensures !old(isListening) ==>
        commands == old(commands) + Issued(START_STEPS, fault) &&
        lastRecognizedText == "" && lastRecognitionTime == 0 &&
        pendingRestart == old(pendingRestart) &&
        if Throws(START_STEPS, fault) then
          emitted == Reported(StartFailureMessage(fault.message)) &&
          !isListening && !shouldContinueListening
        else
          emitted == Silent && isListening && shouldContinueListening
    {
      if isListening {
        return Silent;
      }
      emitted := Silent;
      var threw := false;
      shouldContinueListening := true;
      lastRecognizedText := "";
      lastRecognitionTime := 0;
      commands := commands + [Cancel];
      if fault.FailsAt? && fault.step == 0 {
        threw := true;
      } else {
        commands := commands + [Start];
        if fault.FailsAt? && fault.step == 1 {
          threw := true;
        } else {
          isListening := true;
        }
      }
      if threw {
        emitted := Reported(StartFailureMessage(fault.message));
        isListening := false;
        shouldContinueListening := false;
      }
    }

    /** `stopListening`. Ignored when neither listening nor continuing, which
        by the invariant is whenever continuation is not requested; otherwise
        withdraws continuation and any pending restart and stops the
        recognizer, and `isListening` ends false even if the stop throws. */
    method StopListening()
      requires Valid()
      modifies this
      ensures Valid()
      ensures !old(shouldContinueListening) ==> unchanged(this)
      ensures old(isListening) || old(shouldContinueListening) ==>
        !isListening && !shouldContinueListening && !pendingRestart &&
        commands == old(commands) + [Stop] &&
        lastRecognizedText == old(lastRecognizedText) &&
        lastRecognitionTime == old(lastRecognitionTime)
    {
      if !isListening && !shouldContinueListening {
        return;
      }
      shouldContinueListening := false;
      pendingRestart := false;
      // a throwing stop call is only logged, and `finally` clears the flag,
      // so the outcome is the same whether or not it throws
      commands := commands + [Stop];
      isListening := false;
    }

    /** `destroy`: clears both flags and the pending restart, then stops,
        cancels and releases the recognizer, swallowing an exception. */
    method Destroy(fault: Fault)
      requires Valid()
      modifies this
      ensures Valid()
      ensures !isListening && !shouldContinueListening && !pendingRestart
      ensures commands == old(commands) + Issued(DESTROY_STEPS, fault)
      ensures lastRecognizedText == old(lastRecognizedText)
      ensures lastRecognitionTime == old(lastRecognitionTime)
    {
      shouldContinueListening := false;
      isListening := false;
      pendingRestart := false;
      // a call that throws ends the try block; the catch only logs
      commands := commands + [Stop];
      if !(fault.FailsAt? && fault.step == 0) {
        commands := commands + [Cancel];
        if !(fault.FailsAt? && fault.step == 1) {
          commands := commands + [Command.Destroy];
        }
      }
    }

    /** The listener's `onEndOfSpeech`. */
    method OnEndOfSpeech()
      requires Valid()
      modifies this
      ensures Valid()
      ensures !isListening
      ensures pendingRestart == (old(shouldContinueListening) || old(pendingRestart))
      ensures shouldContinueListening == old(shouldContinueListening)
      ensures commands == old(commands)
      ensures lastRecognizedText == old(lastRecognizedText)
      ensures lastRecognitionTime == old(lastRecognitionTime)
    {
      isListening := false;
      if shouldContinueListening {
        RestartListeningAfterDelay();
      }
    }

    /** The listener's `onError`: a NO_MATCH or SPEECH_TIMEOUT during a
        continuing session schedules a silent restart; every other case
        reports the code's message and schedules nothing. */
    method OnError(code: int) returns (emitted: Emission)
      requires Valid()
      modifies this
      ensures Valid()
      ensures !isListening
      ensures old(Silences(code)) ==> emitted == Silent && pendingRestart
      ensures !old(Silences(code)) ==>
        emitted == Reported(ErrorMessage(code)) && pendingRestart == old(pendingRestart)
      ensures shouldContinueListening == old(shouldContinueListening)
      ensures commands == old(commands)
      ensures lastRecognizedText == old(lastRecognizedText)
      ensures lastRecognitionTime == old(lastRecognitionTime)
    {
      isListening := false;
      var message := ErrorMessage(code);
      if shouldContinueListening && (code == ERROR_NO_MATCH || code == ERROR_SPEECH_TIMEOUT) {
        RestartListeningAfterDelay();
        emitted := Silent;
      } else {
        emitted := Reported(message);
      }
    }

    /** The listener's `onResults`, given the recognition alternatives (empty
        when the bundle has none) and the current time. The first alternative
        is passed on, trimmed, unless it is blank or a duplicate; a restart is
        scheduled whenever continuation is requested, accepted or not. */
    method OnResults(matches: seq<string>, now: int) returns (emitted: Emission)
      requires Valid()
      modifies this
      ensures Valid()
      ensures !isListening
      ensures pendingRestart == (old(shouldContinueListening) || old(pendingRestart))
      ensures old(Accepting(matches, now)) ==>
        emitted == Delivered(Trim(matches[0])) &&
        lastRecognizedText == Trim(matches[0]) && lastRecognitionTime == now
      ensures !old(Accepting(matches, now)) ==>
        emitted == Silent &&
        lastRecognizedText == old(lastRecognizedText) &&
        lastRecognitionTime == old(lastRecognitionTime)
      ensures shouldContinueListening == old(shouldContinueListening)
      ensures commands == old(commands)
    {
      isListening := false;
      emitted := Silent;
      if |matches| > 0 {
        var recognizedText := matches[0];
        var currentTime := now;
        var timeSinceLastRecognition := currentTime - lastRecognitionTime;
        var isDuplicate := Trim(recognizedText) == Trim(lastRecognizedText) &&
                           timeSinceLastRecognition < DUPLICATE_TIMEOUT_MS;
        if !isDuplicate && !IsBlank(Trim(recognizedText)) {
          lastRecognizedText := Trim(recognizedText);
          lastRecognitionTime := currentTime;
          emitted := Delivered(Trim(recognizedText));
        }
      }
      if shouldContinueListening {
        RestartListeningAfterDelay();
      }
    }

    /** The handler runs the posted restart runnable: it restarts only when
        continuation is still requested and the recognizer is not listening,
        so a stop or destroy during the delay suppresses the restart. */
    method FireRestart(fault: Fault) returns (emitted: Emission)
      requires Valid()
      modifies this
      ensures Valid()
      ensures !old(pendingRestart) ==> emitted == Silent && unchanged(this)
      ensures old(pendingRestart) ==> !pendingRestart
      ensures old(pendingRestart) && !old(RestartStarts()) ==>
        emitted == Silent &&
        isListening == old(isListening) &&
        shouldContinueListening == old(shouldContinueListening) &&
        commands == old(commands) &&
        lastRecognizedText == old(lastRecognizedText) &&
        lastRecognitionTime == old(lastRecognitionTime)
      ensures old(RestartStarts()) ==>
        commands == old(commands) + Issued(START_STEPS, fault) &&
        lastRecognizedText == "" && lastRecognitionTime == 0 &&
        if Throws(START_STEPS, fault) then
          emitted == Reported(StartFailureMessage(fault.message)) &&
          !isListening && !shouldContinueListening
        else
          emitted == Silent && isListening && shouldContinueListening
    {
      emitted := Silent;
      if !pendingRestart {
        return;
      }
      pendingRestart := false;
      if shouldContinueListening && !isListening {
        emitted := StartListening(fault);
      }
    }
  }

  /** A result whose trim is the remembered text, arriving within the window,
      is refused, because trimming is idempotent. */
  lemma RepeatRefused(h: SpeechRecognizerHelper, matches: seq<string>, now: int)
    requires h.Repeats(matches, now)
    ensures !h.Accepting(matches, now)
  {
    TrimIdempotent(matches[0]);
  }

  // -----------------------------------------------------------------------
  // Scenarios: call sequences whose outcome the contracts above determine.

  /** A stop issued while a restart is pending suppresses it. */
  method StopDuringRestartDelay()
  {
    var h := new SpeechRecognizerHelper();
    var e := h.StartListening(NoFault);
    h.OnEndOfSpeech();
    assert h.pendingRestart;
    h.StopListening();
    e := h.FireRestart(NoFault);
    assert e == Silent && !h.isListening && !h.shouldContinueListening;
    assert h.commands == [Cancel, Start, Stop];
  }

  /** A manual start during the restart delay leaves the restart posted
      while listening; when it fires its guard makes it do nothing. */
  method StartDuringRestartDelay()
  {
    var h := new SpeechRecognizerHelper();
    var e := h.StartListening(NoFault);
    h.OnEndOfSpeech();
    e := h.StartListening(NoFault);
    assert h.isListening && h.pendingRestart;
    e := h.FireRestart(NoFault);
    assert e == Silent && h.isListening && !h.pendingRestart;
    assert h.commands == [Cancel, Start, Cancel, Start];
  }

  /** A manual start that throws while a restart is pending leaves that
      restart posted with continuation withdrawn; when it fires, its guard
      makes it do nothing. */
  method StartFailsDuringRestartDelay()
  {
    var h := new SpeechRecognizerHelper();
    var e := h.StartListening(NoFault);
    h.OnEndOfSpeech();
    e := h.StartListening(FailsAt(1, "busy"));
    assert h.pendingRestart && !h.shouldContinueListening && !h.isListening;
    e := h.FireRestart(NoFault);
    assert e == Silent && !h.isListening && !h.pendingRestart;
    assert h.commands == [Cancel, Start, Cancel, Start];
  }

  /** Within one recognizer session, the same text twice in 2000 ms is
      delivered once. */
  method DuplicateWithinWindow(word: string)
    requires word != [] && IsTrimmed(word)
  {
    var h := new SpeechRecognizerHelper();
    var e := h.StartListening(NoFault);
    var batch := [word];
    TrimmedWord(word);
    e := h.OnResults(batch, 10000);
    assert e == Delivered(word);
    e := h.OnResults(batch, 11999);
    assert e == Silent;
  }

  /** Once the window has passed, the same text is delivered again. */
  method RepeatAfterWindow(word: string)
    requires word != [] && IsTrimmed(word)
  {
    var h := new SpeechRecognizerHelper();
    var e := h.StartListening(NoFault);
    var batch := [word];
    TrimmedWord(word);
    e := h.OnResults(batch, 10000);
    e := h.OnResults(batch, 12001);
    assert e == Delivered(word);
  }

  /** The automatic restart resets the memory of the last result, so the
      same text right after a restart is delivered again. */
  method RepeatAfterRestart(word: string)
    requires word != [] && IsTrimmed(word)
  {
    var h := new SpeechRecognizerHelper();
    var e := h.StartListening(NoFault);
    var batch := [word];
    TrimmedWord(word);
    e := h.OnResults(batch, 10000);
    assert h.RestartStarts();
    e := h.FireRestart(NoFault);
    assert h.lastRecognizedText == "";
    e := h.OnResults(batch, 10001);
    assert e == Delivered(word);
  }

  /** A word without surrounding whitespace is its own trim and not blank. */
  lemma TrimmedWord(w: string)
    requires w != [] && !IsWhitespace(w[0]) && !IsWhitespace(w[|w| - 1])
    ensures Trim(w) == w && !IsBlank(w) && Trim(w) != ""
  {
    TrimmedIffFixed(w);
  }

  /** Destroying twice ends in the same flags as destroying once. */
  method DestroyTwice()
  {
    var h := new SpeechRecognizerHelper();
    var e := h.StartListening(NoFault);
    h.Destroy(NoFault);
    h.Destroy(FailsAt(0, "destroyed"));
    assert !h.isListening && !h.shouldContinueListening && !h.pendingRestart;
    assert h.commands == [Cancel, Start, Stop, Cancel, Command.Destroy, Stop];
  }
}
