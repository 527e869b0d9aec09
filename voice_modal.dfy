/**
 * The voice-input dialog (client/src/components/chat/voice-modal.tsx): the transcript
 * assembled from speech-recognition results, and the recording and transcript state that
 * the dialog's effect and the recogniser's event handlers update. The recogniser itself is
 * outside the model; its events are method calls.
 */
module VoiceModal {
  import opened Text

  /** One recognition result: its best alternative's text and whether it is final. */
  datatype SpeechResult = SpeechResult(transcript: string, isFinal: bool)

  const UnsupportedMessage := "Your browser does not support speech recognition."

  /** The concatenated texts of the results whose `isFinal` equals `final`, in index order. */
  function Joined(results: seq<SpeechResult>, final: bool): string {
    if results == [] then ""
    else
      var last := results[|results| - 1];
      Joined(results[..|results| - 1], final) + (if last.isFinal == final then last.transcript else "")
  }

  /** The results from `resultIndex` on (none when it is past the end). */
  function Pending(results: seq<SpeechResult>, resultIndex: nat): seq<SpeechResult> {
    if resultIndex <= |results| then results[resultIndex..] else []
  }

  /** `finalTranscript || interimTranscript` over the pending results. */
  function Assembled(results: seq<SpeechResult>, resultIndex: nat): (r: string)
    ensures r == Joined(Pending(results, resultIndex), true) || r == Joined(Pending(results, resultIndex), false)
    ensures Joined(Pending(results, resultIndex), true) != "" ==> r == Joined(Pending(results, resultIndex), true)
  {
    var pending := Pending(results, resultIndex);
    if Joined(pending, true) != "" then Joined(pending, true) else Joined(pending, false)
  }

  lemma JoinedStep(results: seq<SpeechResult>, r: SpeechResult, final: bool)
    ensures Joined(results + [r], final) == Joined(results, final) + (if r.isFinal == final then r.transcript else "")
  {
    assert (results + [r])[..|results|] == results;
  }

  /** A concatenation is empty exactly when every text it takes is empty. */
  lemma {:induction false} JoinedEmpty(results: seq<SpeechResult>, final: bool)
    ensures Joined(results, final) == "" <==>
      forall i :: 0 <= i < |results| && results[i].isFinal == final ==> results[i].transcript == ""
  {
    if results != [] {
      var init := results[..|results| - 1];
      JoinedEmpty(init, final);
      assert forall i :: 0 <= i < |init| ==> init[i] == results[i];
    }
  }

  /** The transcript is empty exactly when every pending result's text is empty. */
  lemma AssembledEmpty(results: seq<SpeechResult>, resultIndex: nat)
    ensures Assembled(results, resultIndex) == "" <==>
      forall i :: resultIndex <= i < |results| ==> results[i].transcript == ""
  {
    var pending := Pending(results, resultIndex);
    JoinedEmpty(pending, true);
    JoinedEmpty(pending, false);
    assert forall i :: resultIndex <= i < |results| ==> pending[i - resultIndex] == results[i];
  }

  /** Once some pending final result has text, interim results no longer show. */
  lemma FinalTextWins(results: seq<SpeechResult>, resultIndex: nat, j: nat)
    requires resultIndex <= j < |results| && results[j].isFinal && results[j].transcript != ""
    ensures Assembled(results, resultIndex) == Joined(Pending(results, resultIndex), true)
  {
    var pending := Pending(results, resultIndex);
    JoinedEmpty(pending, true);
    assert pending[j - resultIndex] == results[j];
  }

  class VoiceDialog {
    var isOpen: bool
    var transcript: string
    var isRecording: bool
    /** Descriptions of the toasts shown. */
    var toasts: seq<string>

    constructor()
      ensures !isOpen && transcript == "" && !isRecording && toasts == []
    {
      isOpen := false;
      transcript := "";
      isRecording := false;
      toasts := [];
    }

    /**
     * The effect when the dialog opens: without speech recognition the user is told so and
     * the dialog asks to be closed; otherwise recognition starts and events follow.
     */
    method Open(supported: bool) returns (closeRequested: bool)
      modifies this`isOpen, this`toasts
      ensures isOpen
      ensures closeRequested <==> !supported
      ensures toasts == old(toasts) + (if supported then [] else [UnsupportedMessage])
    {
      isOpen := true;
      closeRequested := !supported;
      if !supported {
        toasts := toasts + [UnsupportedMessage];
      }
    }

    /** The effect when the dialog closes: the transcript is cleared and recording stops. */
    method Close()
      modifies this`isOpen, this`transcript, this`isRecording
      ensures !isOpen && transcript == "" && !isRecording
    {
      isOpen := false;
      transcript := "";
      isRecording := false;
    }

    method OnStart()
      modifies this`isRecording
      ensures isRecording
    {
      isRecording := true;
    }

    method OnEnd()
      modifies this`isRecording
      ensures !isRecording
    {
      isRecording := false;
    }

    method OnError(error: string)
      modifies this`isRecording, this`toasts
      ensures !isRecording
      ensures toasts == old(toasts) + ["Error: " + error + ". Please try again."]
    {
      toasts := toasts + ["Error: " + error + ". Please try again."];
      isRecording := false;
    }

    /** `onresult`: the pending results from `resultIndex` on replace the transcript. */
    method OnResult(results: seq<SpeechResult>, resultIndex: nat)
      modifies this`transcript
      ensures transcript == Assembled(results, resultIndex)
    {
      var interimTranscript := "";
      var finalTranscript := "";
      var i := resultIndex;
      while i < |results|
        invariant resultIndex <= |results| ==> resultIndex <= i <= |results|
        invariant resultIndex <= |results| ==>
          finalTranscript == Joined(results[resultIndex..i], true) &&
          interimTranscript == Joined(results[resultIndex..i], false)
        invariant resultIndex > |results| ==> i == resultIndex && finalTranscript == "" && interimTranscript == ""
        decreases |results| - i
      {
        JoinedStep(results[resultIndex..i], results[i], true);
        JoinedStep(results[resultIndex..i], results[i], false);
        assert results[resultIndex..i + 1] == results[resultIndex..i] + [results[i]];
        if results[i].isFinal {
          finalTranscript := finalTranscript + results[i].transcript;
        } else {
          interimTranscript := interimTranscript + results[i].transcript;
        }
        i := i + 1;
      }
      if resultIndex <= |results| {
        assert results[resultIndex..i] == Pending(results, resultIndex);
      }
      transcript := if finalTranscript != "" then finalTranscript else interimTranscript;
    }

    /** Send is disabled while the transcript trims to nothing. */
    predicate SendEnabled()
      reads this`transcript
    {
      Trim(transcript) != ""
    }

    lemma SendEnabledIffSpoken()
      ensures SendEnabled() <==> !AllSpace(transcript)
    {
      TrimEmptyIffAllSpace(transcript);
    }

    /** `handleSubmit`: hands the current transcript to the chat. */
    method Submit() returns (submitted: string)
      ensures submitted == transcript
    {
      submitted := transcript;
    }
  }
}
