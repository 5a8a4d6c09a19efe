/** The wiring in `MainActivity`: the helper's `onResult` and `onError`
    callbacks feed the view model, and the start, stop and cancel actions of
    the screen sequence calls on the helper and on the view model. The activity
    also chooses the first permission state and destroys the helper when it
    is destroyed itself. */
module Activity {
  import opened Text
  import opened Permission
  import opened Speech
  import opened ViewModel

  const PERMISSION_MARK: string := "Permisos"
  const START_FAILURE_MARK: string := "No se pudo iniciar"

  /** The errors worth showing inline, in the temporary text. */
  predicate IsCriticalError(message: string) {
    Contains(message, PERMISSION_MARK) || Contains(message, START_FAILURE_MARK)
  }

  /** The inline text shown for a critical error. */
  function ErrorText(message: string): (t: string)
    ensures "Error: " <= t && t[|"Error: "|..] == message
  {
    "Error: " + message
  }

  /** Of the recognizer's error messages, only the permission one is critical. */
  lemma CriticalErrorCodes(code: int)
    ensures IsCriticalError(ErrorMessage(code)) <==> code == ERROR_INSUFFICIENT_PERMISSIONS
  {
    var e := Classify(code);
    var m := ErrorMessage(code);
    if code == ERROR_INSUFFICIENT_PERMISSIONS {
      ContainsPrefix(m, PERMISSION_MARK);
    } else {
      if e.Other? {
        UnknownMessageLacks(code);
      } else {
        NamedMessageLacks(e);
      }
      MissingCharNotContained(m, PERMISSION_MARK, 0);
      if e == NoMatch {
        MissingCharNotContained(m, START_FAILURE_MARK, 8);
      } else {
        MissingCharNotContained(m, START_FAILURE_MARK, 0);
      }
    }
  }

  /** The message of an unnamed code has no 'P' and no 'N': its prefix has
      none and the rest is a number. */
  lemma UnknownMessageLacks(code: int)
    requires Classify(code).Other?
    ensures 'P' !in ErrorMessage(code) && 'N' !in ErrorMessage(code)
  {
    var digits := IntToString(code);
    var m := ErrorMessage(code);
    assert m == UNKNOWN_ERROR_PREFIX + digits;
    assert 'P' !in digits && 'N' !in digits;
  }

  /** The named messages other than the permission one have no 'P'; all but
      the no-match one have no 'N', and that one has no 'd'. */
  lemma NamedMessageLacks(e: RecognitionError)
    requires !e.Other? && e != InsufficientPermissions
    ensures 'P' !in Message(e)
    ensures if e == NoMatch then 'd' !in Message(e) else 'N' !in Message(e)
  {
    var m := Message(e);
    match e
    case NetworkTimeout => assert m == "Timeout de red";
    case Network => assert m == "Error de red";
    case Audio => assert m == "Error de audio";
    case Server => assert m == "Error del servidor";
    case Client => assert m == "Error del cliente";
    case SpeechTimeout => assert m == "Tiempo de espera agotado";
    case NoMatch => assert m == "No se reconoci\U{F3} ninguna voz";
    case RecognizerBusy => assert m == "Reconocedor ocupado";
  }

  /** A start failure is always critical, whatever the exception said. */
  lemma StartFailureIsCritical(detail: string)
    ensures IsCriticalError(StartFailureMessage(detail))
  {
    ContainsPrefix(StartFailureMessage(detail), START_FAILURE_MARK);
  }

  /** `checkAudioPermission`'s choice of the first permission state. */
  function InitialPermissionState(hasPermission: bool): (s: PermissionState)
    ensures s == Granted <==> hasPermission
    ensures s != Denied && s != PermanentlyDenied
  {
    if hasPermission then Granted else NotRequested
  }

  class MainActivity {
    const speechHelper: SpeechRecognizerHelper
    const viewModel: MainViewModel
    /** Times the system permission dialog was launched. */
    ghost var permissionRequests: nat

    ghost predicate Valid()
      reads this, speechHelper
    {
      speechHelper.Valid()
    }

    /** `onCreate`: builds a new helper and checks the permission. The view
        model is the `by viewModels()` instance, which outlives a re-created
        activity: `retained` is a fresh `MainViewModel` on first launch and
        the previous activity's one afterwards. `hasPermission` is what the
        platform answers. */
    constructor (hasPermission: bool, retained: MainViewModel)
      modifies retained`permissionState
      ensures Valid() && fresh(speechHelper) && viewModel == retained
      ensures !speechHelper.isListening && !speechHelper.shouldContinueListening
      ensures !speechHelper.pendingRestart && speechHelper.commands == []
      ensures speechHelper.lastRecognizedText == "" && speechHelper.lastRecognitionTime == 0
      ensures viewModel.Buffers() == old(retained.Buffers())
      ensures viewModel.isListening == old(retained.isListening)
      ensures viewModel.exported == old(retained.exported)
      ensures viewModel.permissionState == InitialPermissionState(hasPermission)
      ensures permissionRequests == 0
    {
      speechHelper := new SpeechRecognizerHelper();
      viewModel := retained;
      permissionRequests := 0;
      new;
      CheckAudioPermission(hasPermission);
    }

    /** The `onResult` callback: the text goes after the temporary text. */
    method OnResult(text: string)
      modifies viewModel
      ensures viewModel.temporaryTranscription == Appended(old(viewModel.temporaryTranscription), text)
      ensures viewModel.permanentTranscription == old(viewModel.permanentTranscription)
      ensures viewModel.isListening == old(viewModel.isListening)
      ensures viewModel.permissionState == old(viewModel.permissionState)
      ensures viewModel.exported == old(viewModel.exported)
    {
      viewModel.AppendTemporaryTranscription(text);
    }

    /** The `onError` callback: a critical message replaces the temporary
        text; any other message leaves the view model alone. */
    method OnError(message: string)
      modifies viewModel
      ensures IsCriticalError(message) ==>
        viewModel.temporaryTranscription == ErrorText(message)
      ensures !IsCriticalError(message) ==>
        viewModel.temporaryTranscription == old(viewModel.temporaryTranscription)
      ensures viewModel.permanentTranscription == old(viewModel.permanentTranscription)
      ensures viewModel.isListening == old(viewModel.isListening)
      ensures viewModel.permissionState == old(viewModel.permissionState)
      ensures viewModel.exported == old(viewModel.exported)
    {
      if IsCriticalError(message) {
        viewModel.UpdateTemporaryTranscription(ErrorText(message));
      }
    }

    /** Runs the callback a helper method invoked, if any. */
    method Forward(e: Emission)
      modifies viewModel
      ensures e.Silent? ==> unchanged(viewModel)
      ensures e.Delivered? ==>
        viewModel.temporaryTranscription == Appended(old(viewModel.temporaryTranscription), e.text)
      ensures e.Reported? && IsCriticalError(e.message) ==>
        viewModel.temporaryTranscription == ErrorText(e.message)
      ensures e.Silent? || (e.Reported? && !IsCriticalError(e.message)) ==>
        viewModel.temporaryTranscription == old(viewModel.temporaryTranscription)
      ensures viewModel.permanentTranscription == old(viewModel.permanentTranscription)
      ensures viewModel.isListening == old(viewModel.isListening)
      ensures viewModel.permissionState == old(viewModel.permissionState)
      ensures viewModel.exported == old(viewModel.exported)
    {
      match e
      case Silent =>
      case Delivered(text) => OnResult(text);
      case Reported(message) => OnError(message);
    }

    /** The recognizer reports final results to the helper. Whatever the
        helper passes on is appended to the temporary text and becomes the
        helper's duplicate memory. */
    method RecognizerResults(matches: seq<string>, now: int)
      requires Valid()
      modifies speechHelper, viewModel
      ensures Valid()
      ensures old(speechHelper.Accepting(matches, now)) ==>
        viewModel.temporaryTranscription == Appended(old(viewModel.temporaryTranscription), Trim(matches[0])) &&
        speechHelper.lastRecognizedText == Trim(matches[0]) &&
        speechHelper.lastRecognitionTime == now
      ensures !old(speechHelper.Accepting(matches, now)) ==>
        viewModel.temporaryTranscription == old(viewModel.temporaryTranscription) &&
        speechHelper.lastRecognizedText == old(speechHelper.lastRecognizedText) &&
        speechHelper.lastRecognitionTime == old(speechHelper.lastRecognitionTime)
      ensures old(speechHelper.Repeats(matches, now)) ==> unchanged(viewModel)
      ensures viewModel.permanentTranscription == old(viewModel.permanentTranscription)
      ensures viewModel.isListening == old(viewModel.isListening)
      ensures viewModel.permissionState == old(viewModel.permissionState)
      ensures viewModel.exported == old(viewModel.exported)
      ensures !speechHelper.isListening
      ensures speechHelper.pendingRestart == (old(speechHelper.shouldContinueListening) || old(speechHelper.pendingRestart))
      ensures speechHelper.shouldContinueListening == old(speechHelper.shouldContinueListening)
      ensures speechHelper.commands == old(speechHelper.commands)
    {
      if speechHelper.Repeats(matches, now) {
        RepeatRefused(speechHelper, matches, now);
      }
      var e := speechHelper.OnResults(matches, now);
      Forward(e);
    }

    /** The recognizer reports an error to the helper. A silence error of a
        continuing session never reaches the view model and schedules a
        restart; the permission error is shown inline; the other errors leave
        the buffers alone; a reported error schedules nothing. */
    method RecognizerError(code: int)
      requires Valid()
      modifies speechHelper, viewModel
      ensures Valid()
      ensures old(speechHelper.Silences(code)) ==>
        unchanged(viewModel) && speechHelper.pendingRestart
      ensures !old(speechHelper.Silences(code)) ==>
        speechHelper.pendingRestart == old(speechHelper.pendingRestart) &&
        if code == ERROR_INSUFFICIENT_PERMISSIONS then
          viewModel.temporaryTranscription == ErrorText(ErrorMessage(code))
        else
          viewModel.temporaryTranscription == old(viewModel.temporaryTranscription)
      ensures viewModel.permanentTranscription == old(viewModel.permanentTranscription)
      ensures viewModel.isListening == old(viewModel.isListening)
      ensures viewModel.permissionState == old(viewModel.permissionState)
      ensures viewModel.exported == old(viewModel.exported)
      ensures !speechHelper.isListening
      ensures speechHelper.shouldContinueListening == old(speechHelper.shouldContinueListening)
      ensures speechHelper.commands == old(speechHelper.commands)
      ensures speechHelper.lastRecognizedText == old(speechHelper.lastRecognizedText)
      ensures speechHelper.lastRecognitionTime == old(speechHelper.lastRecognitionTime)
    {
      var e := speechHelper.OnError(code);
      CriticalErrorCodes(code);
      Forward(e);
    }

    /** The recognizer reports the end of speech to the helper. */
    method RecognizerEndOfSpeech()
      requires Valid()
      modifies speechHelper
      ensures Valid()
      ensures !speechHelper.isListening
      ensures speechHelper.pendingRestart == (old(speechHelper.shouldContinueListening) || old(speechHelper.pendingRestart))
      ensures speechHelper.shouldContinueListening == old(speechHelper.shouldContinueListening)
      ensures speechHelper.commands == old(speechHelper.commands)
      ensures speechHelper.lastRecognizedText == old(speechHelper.lastRecognizedText)
      ensures speechHelper.lastRecognitionTime == old(speechHelper.lastRecognitionTime)
    {
      speechHelper.OnEndOfSpeech();
    }

    /** The handler runs the helper's pending restart; a failed restart is
        reported and, being critical, shown inline. */
    method RestartDue(fault: Fault)
      requires Valid()
      modifies speechHelper, viewModel
      ensures Valid()
      ensures !speechHelper.pendingRestart
      ensures !old(speechHelper.RestartStarts()) ==>
        unchanged(viewModel) &&
        speechHelper.isListening == old(speechHelper.isListening) &&
        speechHelper.shouldContinueListening == old(speechHelper.shouldContinueListening) &&
        speechHelper.commands == old(speechHelper.commands) &&
        speechHelper.lastRecognizedText == old(speechHelper.lastRecognizedText) &&
        speechHelper.lastRecognitionTime == old(speechHelper.lastRecognitionTime)
      ensures old(speechHelper.RestartStarts()) ==>
        speechHelper.commands == old(speechHelper.commands) + Issued(START_STEPS, fault) &&
        speechHelper.lastRecognizedText == "" && speechHelper.lastRecognitionTime == 0
      ensures old(speechHelper.RestartStarts()) && Throws(START_STEPS, fault) ==>
        viewModel.temporaryTranscription == ErrorText(StartFailureMessage(fault.message)) &&
        !speechHelper.isListening && !speechHelper.shouldContinueListening
      ensures old(speechHelper.RestartStarts()) && !Throws(START_STEPS, fault) ==>
        unchanged(viewModel) &&
        speechHelper.isListening && speechHelper.shouldContinueListening
      ensures viewModel.permanentTranscription == old(viewModel.permanentTranscription)
      ensures viewModel.isListening == old(viewModel.isListening)
      ensures viewModel.permissionState == old(viewModel.permissionState)
      ensures viewModel.exported == old(viewModel.exported)
    {
      var e := speechHelper.FireRestart(fault);
      if fault.FailsAt? {
        StartFailureIsCritical(fault.message);
      }
      Forward(e);
    }

    /** The screen's start action. With the permission it starts the helper
        and marks the view model listening, even when the start failed, in
        which case the failure is shown inline; without it, it launches the
        permission request and touches neither. */
    method OnStartListening(permissionGranted: bool, fault: Fault)
      requires Valid()
      modifies speechHelper, viewModel, this`permissionRequests
      ensures Valid()
      ensures !permissionGranted ==>
        unchanged(speechHelper) && unchanged(viewModel) &&
        permissionRequests == old(permissionRequests) + 1
      ensures permissionGranted ==>
        viewModel.isListening && permissionRequests == old(permissionRequests) &&
        viewModel.permanentTranscription == old(viewModel.permanentTranscription) &&
        viewModel.permissionState == old(viewModel.permissionState) &&
        viewModel.exported == old(viewModel.exported)
      ensures permissionGranted && old(speechHelper.isListening) ==>
        unchanged(speechHelper) &&
        viewModel.temporaryTranscription == old(viewModel.temporaryTranscription)
      ensures permissionGranted && !old(speechHelper.isListening) ==>
        speechHelper.commands == old(speechHelper.commands) + Issued(START_STEPS, fault) &&
        speechHelper.lastRecognizedText == "" && speechHelper.lastRecognitionTime == 0 &&
        speechHelper.pendingRestart == old(speechHelper.pendingRestart)
      ensures permissionGranted && !old(speechHelper.isListening) && Throws(START_STEPS, fault) ==>
        viewModel.temporaryTranscription == ErrorText(StartFailureMessage(fault.message)) &&
        !speechHelper.isListening && !speechHelper.shouldContinueListening
      ensures permissionGranted && !old(speechHelper.isListening) && !Throws(START_STEPS, fault) ==>
        viewModel.temporaryTranscription == old(viewModel.temporaryTranscription) &&
        speechHelper.isListening && speechHelper.shouldContinueListening
    {
      if permissionGranted {
        var e := speechHelper.StartListening(fault);
        if fault.FailsAt? {
          StartFailureIsCritical(fault.message);
        }
        Forward(e);
        viewModel.OnListeningStarted();
      } else {
        permissionRequests := permissionRequests + 1;
      }
    }

    /** The screen's stop action: stop the helper, mark the view model not
        listening, then finalize, which leaves the temporary text blank. */
    method OnStopListening()
      requires Valid()
      modifies speechHelper, viewModel
      ensures Valid()
      ensures !old(speechHelper.shouldContinueListening) ==> unchanged(speechHelper)
      ensures old(speechHelper.shouldContinueListening) ==>
        !speechHelper.pendingRestart &&
        speechHelper.commands == old(speechHelper.commands) + [Stop] &&
        speechHelper.lastRecognizedText == old(speechHelper.lastRecognizedText) &&
        speechHelper.lastRecognitionTime == old(speechHelper.lastRecognitionTime)
      ensures !speechHelper.isListening && !speechHelper.shouldContinueListening
      ensures !viewModel.isListening
      ensures viewModel.Buffers() == Finalized(old(viewModel.Buffers()))
      ensures IsBlank(viewModel.temporaryTranscription)
      ensures viewModel.permissionState == old(viewModel.permissionState)
      ensures viewModel.exported == old(viewModel.exported)
    {
      speechHelper.StopListening();
      viewModel.OnListeningStopped();
      viewModel.FinalizeTranscription();
    }

    /** The screen's cancel action: stop the helper, mark the view model not
        listening, then drop the temporary text. */
    method OnCancelTranscription()
      requires Valid()
      modifies speechHelper, viewModel
      ensures Valid()
      ensures !old(speechHelper.shouldContinueListening) ==> unchanged(speechHelper)
      ensures old(speechHelper.shouldContinueListening) ==>
        !speechHelper.pendingRestart &&
        speechHelper.commands == old(speechHelper.commands) + [Stop] &&
        speechHelper.lastRecognizedText == old(speechHelper.lastRecognizedText) &&
        speechHelper.lastRecognitionTime == old(speechHelper.lastRecognitionTime)
      ensures !speechHelper.isListening && !speechHelper.shouldContinueListening
      ensures !viewModel.isListening
      ensures viewModel.temporaryTranscription == ""
      ensures viewModel.permanentTranscription == old(viewModel.permanentTranscription)
      ensures viewModel.permissionState == old(viewModel.permissionState)
      ensures viewModel.exported == old(viewModel.exported)
    {
      speechHelper.StopListening();
      viewModel.OnListeningStopped();
      viewModel.CancelTranscription();
    }

    /** `checkAudioPermission`. */
    method CheckAudioPermission(hasPermission: bool)
      modifies viewModel`permissionState
      ensures viewModel.permissionState == InitialPermissionState(hasPermission)
    {
      viewModel.UpdatePermissionState(InitialPermissionState(hasPermission));
    }

    /** The answer of the permission dialog. */
    method OnPermissionResult(isGranted: bool)
      modifies viewModel`permissionState
      ensures viewModel.permissionState == if isGranted then Granted else Denied
    {
      if isGranted {
        viewModel.UpdatePermissionState(Granted);
      } else {
        viewModel.UpdatePermissionState(Denied);
      }
    }

    /** `onDestroy`: destroys the helper. */
    method OnDestroy(fault: Fault)
      requires Valid()
      modifies speechHelper
      ensures Valid()
      ensures !speechHelper.isListening && !speechHelper.shouldContinueListening
      ensures !speechHelper.pendingRestart
      ensures speechHelper.commands == old(speechHelper.commands) + Issued(DESTROY_STEPS, fault)
      ensures speechHelper.lastRecognizedText == old(speechHelper.lastRecognizedText)
      ensures speechHelper.lastRecognitionTime == old(speechHelper.lastRecognitionTime)
    {
      speechHelper.Destroy(fault);
    }
  }

  // -----------------------------------------------------------------------
  // Scenarios: call sequences whose outcome the contracts above determine.

  /** Through the activity, the same words twice within 2000 ms reach the
      temporary text once. */
  method DuplicateAppendedOnce(word: string)
    requires word != [] && IsTrimmed(word)
  {
    var vm := new MainViewModel();
    var a := new MainActivity(true, vm);
    a.OnStartListening(true, NoFault);
    TrimmedWord(word);
    a.RecognizerResults([word], 10000);
    a.RecognizerResults([word], 11000);
    assert vm.temporaryTranscription == word;
  }

  /** A re-creation (a rotation, say) destroys the activity and builds a new
      one around the same view model: re-created while listening, the screen
      still shows listening although the new helper has not started. */
  method RecreatedWhileListening()
  {
    var vm := new MainViewModel();
    var first := new MainActivity(true, vm);
    first.OnStartListening(true, NoFault);
    first.OnDestroy(NoFault);
    var second := new MainActivity(true, vm);
    assert second.viewModel.isListening && !second.speechHelper.isListening;
  }
}
