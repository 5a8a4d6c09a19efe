# SpeechTranscriber session and buffer model

A Dafny model of the core of SpeechTranscriber, an Android app that turns
speech into text. The model covers three parts of the app:

- The recognition-session controller `SpeechRecognizerHelper` (module
  `Speech`). It starts, stops and destroys the platform speech recognizer.
  It reacts to the recognizer's end-of-speech, error and result callbacks.
  When continuous listening was requested, it restarts itself 500 ms after
  a session ends or after a "no match" or "speech timeout" error. It drops a
  final result whose trimmed text repeats the last accepted one within
  2000 ms.
- The transcription buffers of `MainViewModel` (module `ViewModel`). These
  are the temporary text of the utterances being heard and the permanent
  text committed so far, plus the listening flag, the permission state and
  the guard in front of the export.
- The wiring in `MainActivity` (module `Activity`). The helper's callbacks
  feed the view model. The screen's start, stop and cancel actions call the
  helper and the view model in a fixed order. The activity picks the first
  permission state and destroys the helper in `onDestroy`. Its view model
  comes from `by viewModels()` and outlives the activity: every activity,
  first launch or re-creation, builds a new helper around the view model it
  is given.

Module `Text` gives Kotlin's `Char.isWhitespace`, `isBlank`, `trim`,
`contains` and decimal `Int` rendering. A single whitespace predicate serves
both `isBlank` and `trim`. Module `Permission` holds the four
`PermissionState` variants.

How the platform is stood in for:

- The clock is a `now: int` parameter of `OnResults`.
- A recognizer call that throws is a `Fault` input. It names which call of
  the `try` block throws and the exception's message. A throwing
  `stopListening` call changes nothing in the outcome: the exception is only
  logged and `finally` clears the flag, so it is not an input.
- The commands sent to the recognizer (cancel, start, stop, destroy) are the
  ghost log `commands`.
- The main-thread `Handler` is the flag `pendingRestart`. Its firing is the
  explicit method `FireRestart`.
- A call of the `onResult` or `onError` callback is the `Emission` that the
  helper method returns. `MainActivity.Forward` then runs the matching
  lambda on the view model.
- The permission check and the exporter's answer are boolean inputs.

Facts the model makes precise:

- `SpeechRecognizerHelper.Valid()` is the invariant every helper method keeps.
  When `isListening` holds, continuation is requested and the recognizer's
  last command was a start. The remembered text is always trimmed. Only the
  first implication is used: it makes `stopListening`'s two-flag guard the
  same as "continuation is not requested". The rest holds of the code and is
  kept by every method, but no contract depends on it.
- One invariant that one might expect does not hold in the code: "a restart
  is pending only while continuation is requested and not listening". A
  manual start during the 500 ms window leaves the restart posted while
  listening. The guard in the runnable then makes it do nothing. The scenario
  method `Speech.StartDuringRestartDelay` walks through this. A manual start
  that throws during the window breaks it another way: the restart stays
  posted while continuation is withdrawn, and again the guard makes it do
  nothing (`Speech.StartFailsDuringRestartDelay`).
- `startListening` resets the duplicate memory, and an automatic restart goes
  through `startListening`. So the duplicate window only spans one recognizer
  session. `Speech.RepeatAfterRestart` shows this; `Speech.DuplicateWithinWindow`
  and `Speech.RepeatAfterWindow` show both sides of the 2000 ms window.
- The start action marks the view model as listening even when the helper's
  start failed. The helper is then not listening.
- A re-created activity, after a rotation for example, keeps the view model
  and its listening flag, but its helper is new and idle. Re-created while
  listening, the screen shows listening although nothing listens until the
  next start. `Activity.RecreatedWhileListening` walks through this.
- Through the activity, a result repeated within 2000 ms reaches the
  temporary text once. `Activity.DuplicateAppendedOnce` shows this.

## Model

| member | source | states |
|---|---|---|
| Text.IsWhitespace | app/src/main/java/com/example/speechtranscriber/model/SpeechRecognizerHelper.kt:107 | Kotlin's `Char.isWhitespace` on the JVM: Java's `isWhitespace` or `isSpaceChar`; used by `isBlank` and `trim`, characterised through the trim and blank lemmas |
| Text.IsBlank | app/src/main/java/com/example/speechtranscriber/viewmodel/MainViewModel.kt:49 | Kotlin's `isBlank`: every character is whitespace, so the empty string is blank; tied to `trim` by `BlankIffTrimEmpty` and to concatenation by `BlankConcat` |
| Text.TrimStart | app/src/main/java/com/example/speechtranscriber/model/SpeechRecognizerHelper.kt:107 | the result is no longer than the input, all that is cut off is whitespace, and it starts with a non-whitespace character |
| Text.TrimEnd | app/src/main/java/com/example/speechtranscriber/model/SpeechRecognizerHelper.kt:107 | the result is no longer than the input, all that is cut off is whitespace, and it ends with a non-whitespace character |
| Text.TrimStartIsSuffix | app/src/main/java/com/example/speechtranscriber/model/SpeechRecognizerHelper.kt:107 | what `TrimStart` keeps is a suffix of its input, so with its contract it is the suffix from the first non-whitespace character |
| Text.TrimEndIsPrefix | app/src/main/java/com/example/speechtranscriber/model/SpeechRecognizerHelper.kt:107 | what `TrimEnd` keeps is a prefix of its input, so with its contract it is the prefix up to the last non-whitespace character |
| Text.Trim | app/src/main/java/com/example/speechtranscriber/model/SpeechRecognizerHelper.kt:107-114 | Kotlin `trim()`: the result is no longer than the input and neither starts nor ends with whitespace |
| Text.TrimIsSlice | app/src/main/java/com/example/speechtranscriber/model/SpeechRecognizerHelper.kt:107-114 | the trimmed text is one slice of the input, with only whitespace on either side of it |
| Text.BlankIffTrimEmpty | app/src/main/java/com/example/speechtranscriber/model/SpeechRecognizerHelper.kt:110 | a string is blank exactly when trimming it leaves the empty string |
| Text.TrimIdempotent | app/src/main/java/com/example/speechtranscriber/model/SpeechRecognizerHelper.kt:107 | trimming the already-trimmed last text again changes nothing |
| Text.TrimmedIffFixed | app/src/main/java/com/example/speechtranscriber/model/SpeechRecognizerHelper.kt:112 | a string has no whitespace at either end exactly when `trim` leaves it unchanged |
| Text.BlankConcat | app/src/main/java/com/example/speechtranscriber/viewmodel/MainViewModel.kt:49 | a concatenation is blank exactly when both parts are blank |
| Text.Contains | app/src/main/java/com/example/speechtranscriber/MainActivity.kt:44 | Kotlin's `String.contains`: the pattern occurs at some index of the string; characterised by `ContainsPrefix` and `MissingCharNotContained` |
| Text.ContainsPrefix | app/src/main/java/com/example/speechtranscriber/MainActivity.kt:44 | `contains` holds of every prefix of a string |
| Text.MissingCharNotContained | app/src/main/java/com/example/speechtranscriber/MainActivity.kt:44 | a string lacking one character of the pattern does not contain the pattern |
| Text.NatToString | app/src/main/java/com/example/speechtranscriber/model/SpeechRecognizerHelper.kt:84 | the decimal digits of a natural number are non-empty, all digits, with no leading zero |
| Text.IntToString | app/src/main/java/com/example/speechtranscriber/model/SpeechRecognizerHelper.kt:84 | the string template `$error`: digits, with a leading minus sign exactly for negative numbers |
| Text.NatToStringRoundTrip | app/src/main/java/com/example/speechtranscriber/model/SpeechRecognizerHelper.kt:84 | reading the decimal digits back gives the number |
| Text.IntToStringRoundTrip | app/src/main/java/com/example/speechtranscriber/model/SpeechRecognizerHelper.kt:84 | parsing the rendering of an integer gives the integer back |
| Text.IntToStringInjective | app/src/main/java/com/example/speechtranscriber/model/SpeechRecognizerHelper.kt:84 | different codes are rendered as different strings |
| Speech.Code | app/src/main/java/com/example/speechtranscriber/model/SpeechRecognizerHelper.kt:75-83 | the Android `ERROR_*` constant each named error stands for, 1 to 9, and its own code for any other; `Classify` inverts it (`ClassifyCode`) |
| Speech.Classify | app/src/main/java/com/example/speechtranscriber/model/SpeechRecognizerHelper.kt:74-84 | reading a raw error code gives a well-formed error whose code is that code |
| Speech.ClassifyCode | app/src/main/java/com/example/speechtranscriber/model/SpeechRecognizerHelper.kt:74-84 | classifying the code of a well-formed error gives the error back |
| Speech.Message | app/src/main/java/com/example/speechtranscriber/model/SpeechRecognizerHelper.kt:74-85 | the `when`: each named error has its fixed text; exactly the unnamed codes give a text starting "Error desconocido: ", and the rest of that text is the code |
| Speech.ErrorMessage | app/src/main/java/com/example/speechtranscriber/model/SpeechRecognizerHelper.kt:74-85 | the message built for a raw code: exactly the codes outside 1..9 fall to "Error desconocido: " followed by the code |
| Speech.ErrorMessageInjective | app/src/main/java/com/example/speechtranscriber/model/SpeechRecognizerHelper.kt:74-85 | the `when` gives each code its own message: equal messages mean equal codes, unknown codes included |
| Speech.UnknownMessageIsNotNamed | app/src/main/java/com/example/speechtranscriber/model/SpeechRecognizerHelper.kt:84 | the "Error desconocido: <code>" message differs from each of the nine named messages |
| Speech.IsAutoRestartError | app/src/main/java/com/example/speechtranscriber/model/SpeechRecognizerHelper.kt:90-91 | the errors after which a continuing session restarts silently: NO_MATCH and SPEECH_TIMEOUT |
| Speech.StartFailureMessage | app/src/main/java/com/example/speechtranscriber/model/SpeechRecognizerHelper.kt:172 | a start failure reports "No se pudo iniciar el reconocimiento: " followed by the exception's message |
| Speech.IsDuplicate | app/src/main/java/com/example/speechtranscriber/model/SpeechRecognizerHelper.kt:107-108 | the duplicate test: same trimmed text as the last accepted one, and less than 2000 ms since it; characterised by `DuplicateWindow` |
| Speech.Accepts | app/src/main/java/com/example/speechtranscriber/model/SpeechRecognizerHelper.kt:110 | a result is passed on when it is not a duplicate and its trim is not blank; characterised by `BlankNeverAccepted`, `NewTextAccepted` and `DuplicateWindow` |
| Speech.BlankNeverAccepted | app/src/main/java/com/example/speechtranscriber/model/SpeechRecognizerHelper.kt:110 | a blank final result is never passed on, whatever came before |
| Speech.NewTextAccepted | app/src/main/java/com/example/speechtranscriber/model/SpeechRecognizerHelper.kt:107-110 | a result whose trimmed text differs from the last accepted one is passed on exactly when it is not blank, however soon it comes |
| Speech.DuplicateWindow | app/src/main/java/com/example/speechtranscriber/model/SpeechRecognizerHelper.kt:103-113 | once a text has been accepted at t0, the same trimmed text at t1 is accepted exactly when t1 - t0 >= 2000 |
| Speech.RepeatRefused | app/src/main/java/com/example/speechtranscriber/model/SpeechRecognizerHelper.kt:107-113 | a result whose trim is the remembered text and that comes within 2000 ms of it is refused, because trimming is idempotent |
| Speech.Issued | app/src/main/java/com/example/speechtranscriber/model/SpeechRecognizerHelper.kt:201-208 | the calls made by a `try` block are a prefix of its calls; they end at the call that throws, or are all of them |
| Speech.SpeechRecognizerHelper.Valid | app/src/main/java/com/example/speechtranscriber/model/SpeechRecognizerHelper.kt:156-194 | the invariant every helper method keeps: listening implies continuation is requested and the last recognizer call was a start, and the remembered text is trimmed; `StopListening` relies on the first implication |
| Speech.SpeechRecognizerHelper.Accepting | app/src/main/java/com/example/speechtranscriber/model/SpeechRecognizerHelper.kt:102-110 | `onResults` would pass the first alternative on at `now`: there is one, and against the helper's memory it is neither a duplicate nor blank |
| Speech.SpeechRecognizerHelper.Silences | app/src/main/java/com/example/speechtranscriber/model/SpeechRecognizerHelper.kt:89-91 | `onError` would swallow the code and schedule a restart: continuation is requested and the code is NO_MATCH or SPEECH_TIMEOUT |
| Speech.SpeechRecognizerHelper.RestartStarts | app/src/main/java/com/example/speechtranscriber/model/SpeechRecognizerHelper.kt:145-149 | a pending restart would pass the runnable's guard when it fires: continuation requested and not listening |
| Speech.SpeechRecognizerHelper.constructor | app/src/main/java/com/example/speechtranscriber/model/SpeechRecognizerHelper.kt:29-34 | a new helper is idle: both flags false, nothing pending, no last text, time 0, no command sent |
| Speech.SpeechRecognizerHelper.RestartListeningAfterDelay | app/src/main/java/com/example/speechtranscriber/model/SpeechRecognizerHelper.kt:141-154 | replaces any posted restart by a new one, so exactly one is pending; nothing else changes |
| Speech.SpeechRecognizerHelper.StartListening | app/src/main/java/com/example/speechtranscriber/model/SpeechRecognizerHelper.kt:156-176 | ignored while listening; otherwise resets the last text and time and sends cancel then start; on success both flags are true; if a call throws, the start-failure message is reported and both flags end false |
| Speech.SpeechRecognizerHelper.StopListening | app/src/main/java/com/example/speechtranscriber/model/SpeechRecognizerHelper.kt:178-194 | by the invariant, a no-op exactly when neither flag is set, that is whenever continuation is not requested; otherwise sends stop, keeps the duplicate memory, and ends with both flags false and no pending restart; a throwing stop has the same outcome |
| Speech.SpeechRecognizerHelper.Destroy | app/src/main/java/com/example/speechtranscriber/model/SpeechRecognizerHelper.kt:196-209 | always ends with both flags false and nothing pending; sends stop, cancel and destroy up to the first that throws, and reports nothing |
| Speech.SpeechRecognizerHelper.OnEndOfSpeech | app/src/main/java/com/example/speechtranscriber/model/SpeechRecognizerHelper.kt:63-70 | clears `isListening`; schedules a restart exactly when continuation is requested |
| Speech.SpeechRecognizerHelper.OnError | app/src/main/java/com/example/speechtranscriber/model/SpeechRecognizerHelper.kt:72-97 | clears `isListening`; NO_MATCH or SPEECH_TIMEOUT with continuation requested schedules a restart and reports nothing; any other case reports the code's message and schedules nothing |
| Speech.SpeechRecognizerHelper.OnResults | app/src/main/java/com/example/speechtranscriber/model/SpeechRecognizerHelper.kt:99-128 | clears `isListening`; delivers the trimmed first alternative and remembers it with `now` exactly when it is neither blank nor a duplicate, else delivers nothing and remembers nothing new; schedules a restart when continuation is requested, accepted or not |
| Speech.SpeechRecognizerHelper.FireRestart | app/src/main/java/com/example/speechtranscriber/model/SpeechRecognizerHelper.kt:145-150 | the pending restart runs `startListening` only if continuation is requested and not listening; otherwise it only disappears, so a stop or destroy before it fires suppresses it |
| ViewModel.Appended | app/src/main/java/com/example/speechtranscriber/viewmodel/MainViewModel.kt:47-50 | the new temporary text ends with the added text; unless the old text was blank it starts with the old text and a space and is exactly one character longer than both together; after blank old text it is the added text; it is blank only if both were |
| ViewModel.Finalized | app/src/main/java/com/example/speechtranscriber/viewmodel/MainViewModel.kt:58-71 | blank temporary text changes nothing; otherwise the temporary text is emptied and becomes the permanent text, or is added after the non-blank permanent text with a blank line between them; the permanent text is then not blank |
| ViewModel.FinalizeAppendOnly | app/src/main/java/com/example/speechtranscriber/viewmodel/MainViewModel.kt:63-67 | non-blank permanent text survives a finalize as a prefix, and the new permanent text ends with the temporary text it took |
| ViewModel.FinalizeIdempotent | app/src/main/java/com/example/speechtranscriber/viewmodel/MainViewModel.kt:59-69 | a second finalize straight after the first changes nothing |
| ViewModel.FinalizeExamples | app/src/main/java/com/example/speechtranscriber/viewmodel/MainViewModel.kt:63-67 | "hello" finalized onto "" is "hello", and onto "prev" is "prev\n\nhello" |
| ViewModel.MayExport | app/src/main/java/com/example/speechtranscriber/viewmodel/MainViewModel.kt:110 | the export guard: the permanent text is not blank; `ExportTranscription` calls the exporter exactly when it holds |
| ViewModel.MainViewModel.constructor | app/src/main/java/com/example/speechtranscriber/viewmodel/MainViewModel.kt:25-38 | both buffers empty, not listening, permission not requested |
| ViewModel.MainViewModel.UpdateTemporaryTranscription | app/src/main/java/com/example/speechtranscriber/viewmodel/MainViewModel.kt:42-44 | overwrites the temporary text and, by its frame, nothing else |
| ViewModel.MainViewModel.AppendTemporaryTranscription | app/src/main/java/com/example/speechtranscriber/viewmodel/MainViewModel.kt:47-50 | the temporary text becomes `Appended` of the old one; the permanent text is outside its frame |
| ViewModel.MainViewModel.ClearTemporaryTranscription | app/src/main/java/com/example/speechtranscriber/viewmodel/MainViewModel.kt:53-55 | empties the temporary text only |
| ViewModel.MainViewModel.FinalizeTranscription | app/src/main/java/com/example/speechtranscriber/viewmodel/MainViewModel.kt:58-71 | the buffers become `Finalized` of the old buffers |
| ViewModel.MainViewModel.CancelTranscription | app/src/main/java/com/example/speechtranscriber/viewmodel/MainViewModel.kt:74-76 | empties the temporary text, never touching the permanent text |
| ViewModel.MainViewModel.ClearPermanentTranscription | app/src/main/java/com/example/speechtranscriber/viewmodel/MainViewModel.kt:79-81 | empties the permanent text only |
| ViewModel.MainViewModel.OnListeningStopped | app/src/main/java/com/example/speechtranscriber/viewmodel/MainViewModel.kt:83-85 | sets only `isListening`, to false |
| ViewModel.MainViewModel.OnListeningStarted | app/src/main/java/com/example/speechtranscriber/viewmodel/MainViewModel.kt:91-93 | sets only `isListening`, to true |
| ViewModel.MainViewModel.UpdatePermissionState | app/src/main/java/com/example/speechtranscriber/viewmodel/MainViewModel.kt:101-103 | sets only the permission state |
| ViewModel.MainViewModel.ExportTranscription | app/src/main/java/com/example/speechtranscriber/viewmodel/MainViewModel.kt:109-115 | blank permanent text gives false and the exporter is not called; otherwise the permanent text goes to the exporter and its answer is returned |
| Activity.IsCriticalError | app/src/main/java/com/example/speechtranscriber/MainActivity.kt:44 | the inline-error test: the message contains "Permisos" or "No se pudo iniciar"; over the helper's messages it picks out exactly the permission error and the start failures (`CriticalErrorCodes`, `StartFailureIsCritical`) |
| Activity.CriticalErrorCodes | app/src/main/java/com/example/speechtranscriber/MainActivity.kt:44 | of the recognizer's error messages, exactly the insufficient-permissions one passes the "Permisos"/"No se pudo iniciar" test |
| Activity.UnknownMessageLacks | app/src/main/java/com/example/speechtranscriber/MainActivity.kt:44 | the message of an unnamed code contains neither 'P' nor 'N', so it is not critical |
| Activity.NamedMessageLacks | app/src/main/java/com/example/speechtranscriber/MainActivity.kt:44 | each named message other than the permissions one lacks a character of each critical mark |
| Activity.StartFailureIsCritical | app/src/main/java/com/example/speechtranscriber/MainActivity.kt:44 | every start-failure message passes the test, whatever the exception said |
| Activity.ErrorText | app/src/main/java/com/example/speechtranscriber/MainActivity.kt:45 | the inline text is "Error: " followed by the message |
| Activity.InitialPermissionState | app/src/main/java/com/example/speechtranscriber/MainActivity.kt:113-124 | the first state is Granted exactly when the permission is held, and never Denied or PermanentlyDenied |
| Activity.MainActivity.constructor | app/src/main/java/com/example/speechtranscriber/MainActivity.kt:34-53 | creates a fresh idle helper around the view model it is given, which keeps its buffers, listening flag and exports; only the permission state is set, to the first permission state |
| Activity.MainActivity.OnResult | app/src/main/java/com/example/speechtranscriber/MainActivity.kt:40 | a delivered result is appended to the temporary text; nothing else changes |
| Activity.MainActivity.OnError | app/src/main/java/com/example/speechtranscriber/MainActivity.kt:41-46 | a critical message replaces the temporary text with "Error: " + message; any other message leaves the view model unchanged |
| Activity.MainActivity.Forward | app/src/main/java/com/example/speechtranscriber/MainActivity.kt:39-47 | runs the callback the helper invoked; no callback leaves the view model unchanged |
| Activity.MainActivity.RecognizerResults | app/src/main/java/com/example/speechtranscriber/model/SpeechRecognizerHelper.kt:99-128 | when the helper accepts the result, its trim is appended to the temporary text and becomes the duplicate memory with `now`; otherwise the temporary text and the memory stay; a repeat of the remembered text within the window leaves the view model unchanged; listening ends, a restart is scheduled when continuing, and no other helper or view-model field changes |
| Activity.MainActivity.RecognizerError | app/src/main/java/com/example/speechtranscriber/model/SpeechRecognizerHelper.kt:89-95 | a silence error during continuation schedules a restart and leaves the view model unchanged; any reported error schedules nothing, ERROR_INSUFFICIENT_PERMISSIONS puts "Error: Permisos insuficientes" in the temporary text and other errors leave it alone; listening ends and no other helper or view-model field changes |
| Activity.MainActivity.RecognizerEndOfSpeech | app/src/main/java/com/example/speechtranscriber/model/SpeechRecognizerHelper.kt:63-70 | the helper stops listening and schedules a restart when continuing; continuation, commands and duplicate memory stay, and the view model is outside its frame |
| Activity.MainActivity.RestartDue | app/src/main/java/com/example/speechtranscriber/model/SpeechRecognizerHelper.kt:145-150 | nothing is pending afterwards; a restart that fails its guard changes nothing else; one that passes sends cancel and start up to the call that throws and resets the duplicate memory; if it started, the helper listens with continuation and the view model is unchanged; if it threw, both flags are false and the "Error: No se pudo iniciar…" text is in the temporary text; the other view-model fields never change |
| Activity.MainActivity.OnStartListening | app/src/main/java/com/example/speechtranscriber/MainActivity.kt:84-94 | with permission: starts the helper, then marks the view model listening even if the start failed; a start that is not ignored sends cancel and start up to the call that throws, resets the duplicate memory and keeps the pending restart; on success the helper listens with continuation, on a throw both flags are false and the failure is shown inline; permanent text, permission state and exports stay; without permission: requests it and changes neither helper nor view model |
| Activity.MainActivity.OnStopListening | app/src/main/java/com/example/speechtranscriber/MainActivity.kt:95-100 | stops the helper (a no-op without continuation; otherwise stop is sent and the pending restart withdrawn, the duplicate memory stays), marks the view model stopped, then the buffers become `Finalized` of the old ones, so the temporary text is blank; permission state and exports stay |
| Activity.MainActivity.OnCancelTranscription | app/src/main/java/com/example/speechtranscriber/MainActivity.kt:101-106 | stops the helper as the stop action does (stop sent, pending restart withdrawn), marks the view model stopped, empties the temporary text; permanent text, permission state and exports stay |
| Activity.MainActivity.CheckAudioPermission | app/src/main/java/com/example/speechtranscriber/MainActivity.kt:113-125 | the view model's permission state becomes Granted if the permission is held, else NotRequested |
| Activity.MainActivity.OnPermissionResult | app/src/main/java/com/example/speechtranscriber/MainActivity.kt:58-64 | the dialog's answer sets the permission state to Granted or Denied |
| Activity.MainActivity.OnDestroy | app/src/main/java/com/example/speechtranscriber/MainActivity.kt:127-130 | destroys the helper: both flags false, nothing pending, stop, cancel and destroy sent up to the first call that throws, and the duplicate memory kept |

## Left out

- The Compose UI (`MainScreen`, `PermissionStatusCard`, `ExportButton`) only renders state. Button enablement is not modelled.
- `ExportService` and `ExportManager` do file writes, timestamps, FileProvider URIs, the 24-hour purge and share intents. This is all I/O. Only the guard in `exportTranscription` is modelled, and the exporter's answer is an input.
- `PermissionManager`, `checkMicrophonePermission` and `openAppSettings` are Android permission and settings calls. Only the `PermissionState` variants are kept.
- `setSpeecRecognizer` stores a helper reference that the view model never uses.
- The logging-only callbacks are not modelled: `onReadyForSpeech`, `onBeginningOfSpeech`, `onRmsChanged`, `onBufferReceived` and `onEvent`. Neither is `onPartialResults`, which is empty on purpose.
- `Log`, `Toast` and Hilt injection are not modelled. Neither is building the recognizer `Intent` and `Bundle`.
- The recognizer itself is not modelled. Its callbacks arrive as explicit method calls.
- Real `Handler` timing is not modelled. The 500 ms delay becomes `pendingRestart` plus an explicit `FireRestart`, so the model says nothing about when a restart fires.
- Speech.SpeechRecognizerHelper.StartListening: a throw from `cancel()` and a throw from `startListening()` are both covered by `Fault`. `FailsAt(0, …)` stops the log after the cancel call.
- Speech.SpeechRecognizerHelper.OnResults: the first alternative may be a Kotlin platform-typed null. That case is not modelled, and an absent result list is the empty sequence.
- Speech.SpeechRecognizerHelper.Destroy: calling the helper again after `destroy` is not excluded. On Android that would reach a released recognizer.
- Times are unbounded integers, not Kotlin `Long`. `currentTime - lastRecognitionTime` cannot overflow for real clock values.
- Strings are sequences of Unicode scalar values, not Kotlin's UTF-16 code units. Trimming, blankness and `contains` come out the same, because no supplementary character is whitespace and the patterns tested are plain ASCII.
- Error codes are unbounded integers, not Kotlin `Int`. Every `Int` is covered.
- The error codes 10 and above that newer Android versions add fall into the "unknown" message, as they do in the source.
- The Kotlin `e.message` may be null, which the template would render as "null". The model takes the message as a string input.
