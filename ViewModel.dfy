/** `MainViewModel`: the two transcription buffers (the temporary text of the
    utterances being heard and the permanent text committed so far), the
    listening flag shown by the screen, the permission state, and the guard
    in front of the export. */
module ViewModel {
  import opened Text
  import opened Permission

  /** The temporary text after a recognized `text` has been added to it. */
  function Appended(current: string, text: string): (r: string)
    ensures |r| >= |text| && r[|r| - |text|..] == text
    ensures !IsBlank(current) ==> current + " " <= r && |r| == |current| + 1 + |text|
    ensures IsBlank(current) ==> |r| == |text|
    ensures IsBlank(r) <==> IsBlank(current) && IsBlank(text)
  {
    if IsBlank(current) then text
    else
      BlankConcat(current + " ", text);
      BlankConcat(current, " ");
      current + " " + text
  }

  /** Both buffers together. */
  datatype Transcript = Transcript(temporary: string, permanent: string)

  /** The buffers after a finalize: non-blank temporary text is moved to the
      end of the permanent text, after a blank line unless the permanent text
      is blank, in which case it replaces it. */
  function Finalized(t: Transcript): (r: Transcript)
    ensures IsBlank(t.temporary) ==> r == t
    ensures !IsBlank(t.temporary) ==> r.temporary == "" && !IsBlank(r.permanent)
    ensures !IsBlank(t.temporary) && !IsBlank(t.permanent) ==>
      r.permanent == t.permanent + "\n\n" + t.temporary
    ensures !IsBlank(t.temporary) && IsBlank(t.permanent) ==> r.permanent == t.temporary
  {
    if IsBlank(t.temporary) then t
    else if IsBlank(t.permanent) then Transcript("", t.temporary)
    else
      BlankConcat(t.permanent + "\n\n", t.temporary);
      Transcript("", t.permanent + "\n\n" + t.temporary)
  }

  /** Finalize only appends: permanent text that is not blank survives as a
      prefix, and the temporary text it took ends the new permanent text. */
  lemma FinalizeAppendOnly(t: Transcript)
    ensures !IsBlank(t.permanent) ==> t.permanent <= Finalized(t).permanent
    ensures !IsBlank(t.temporary) ==>
      var p := Finalized(t).permanent;
      |p| >= |t.temporary| && p[|p| - |t.temporary|..] == t.temporary
  {
    var p := Finalized(t).permanent;
    if !IsBlank(t.temporary) && !IsBlank(t.permanent) {
      assert p == (t.permanent + "\n\n") + t.temporary;
    }
  }

  /** A second finalize right after the first changes nothing. */
  lemma FinalizeIdempotent(t: Transcript)
    ensures Finalized(Finalized(t)) == Finalized(t)
  {
  }

  /** The concrete outcomes: "hello" onto "" and onto "prev". */
  lemma FinalizeExamples()
    ensures Finalized(Transcript("hello", "")) == Transcript("", "hello")
    ensures Finalized(Transcript("hello", "prev")) == Transcript("", "prev\n\nhello")
  {
    assert !IsWhitespace("hello"[0]);
    assert !IsWhitespace("prev"[0]);
  }

  /** The export goes ahead only for permanent text that is not blank. */
  predicate MayExport(permanent: string) {
    !IsBlank(permanent)
  }

  class MainViewModel {
    var temporaryTranscription: string
    var permanentTranscription: string
    var isListening: bool
    var permissionState: PermissionState
    /** The texts handed to the exporter, oldest first. */
    ghost var exported: seq<string>

    function Buffers(): Transcript
      reads this
    {
      Transcript(temporaryTranscription, permanentTranscription)
    }

    constructor ()
      ensures temporaryTranscription == "" && permanentTranscription == ""
      ensures !isListening && permissionState == NotRequested && exported == []
    {
      temporaryTranscription := "";
      permanentTranscription := "";
      isListening := false;
      permissionState := NotRequested;
      exported := [];
    }

    /** `updateTemporaryTranscription`: overwrites the temporary text. */
    method UpdateTemporaryTranscription(text: string)
      modifies this`temporaryTranscription
      ensures temporaryTranscription == text
    {
      temporaryTranscription := text;
    }

    /** `appendTemporaryTranscription`: adds a recognized text, space-separated. */
    method AppendTemporaryTranscription(text: string)
      modifies this`temporaryTranscription
      ensures temporaryTranscription == Appended(old(temporaryTranscription), text)
    {
      var currentTranscription := temporaryTranscription;
      temporaryTranscription := if IsBlank(currentTranscription) then text
                                else currentTranscription + " " + text;
    }

    /** `clearTemporaryTranscription`. */
    method ClearTemporaryTranscription()
      modifies this`temporaryTranscription
      ensures temporaryTranscription == ""
    {
      temporaryTranscription := "";
    }

    /** `finalizeTranscription`: moves the temporary text to the permanent one. */
    method FinalizeTranscription()
      modifies this`temporaryTranscription, this`permanentTranscription
      ensures Buffers() == Finalized(old(Buffers()))
    {
      if !IsBlank(temporaryTranscription) {
        var currentPermanent := permanentTranscription;
        var newText := temporaryTranscription;
        permanentTranscription := if IsBlank(currentPermanent) then newText
                                  else currentPermanent + "\n\n" + newText;
        temporaryTranscription := "";
      }
    }

    /** `cancelTranscription`: drops the temporary text, never moving it. */
    method CancelTranscription()
      modifies this`temporaryTranscription
      ensures temporaryTranscription == ""
    {
      temporaryTranscription := "";
    }

    /** `clearPermanentTranscription`. */
    method ClearPermanentTranscription()
      modifies this`permanentTranscription
      ensures permanentTranscription == ""
    {
      permanentTranscription := "";
    }

    /** `onListeningStopped`. */
    method OnListeningStopped()
      modifies this`isListening
      ensures !isListening
    {
      isListening := false;
    }

    /** `onListeningStarted`. */
    method OnListeningStarted()
      modifies this`isListening
      ensures isListening
    {
      isListening := true;
    }

    /** `updatePermissionState`. */
    method UpdatePermissionState(state: PermissionState)
      modifies this`permissionState
      ensures permissionState == state
    {
      permissionState := state;
    }

    /** `exportTranscription`: refuses blank permanent text without calling
        the exporter; otherwise hands the text over and returns the
        exporter's answer, `exporterResult`. */
    method ExportTranscription(exporterResult: bool) returns (ok: bool)
      modifies this`exported
      ensures !MayExport(permanentTranscription) ==> !ok && exported == old(exported)
      ensures MayExport(permanentTranscription) ==>
        ok == exporterResult && exported == old(exported) + [permanentTranscription]
    {
      if !IsBlank(permanentTranscription) {
        exported := exported + [permanentTranscription];
        ok := exporterResult;
      } else {
        ok := false;
      }
    }
  }
}
