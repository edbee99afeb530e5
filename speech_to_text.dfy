/** The speech-to-text page: the upload size guard, the recording clock and its `mm:ss` display,
    and when transcription may start. */
module SpeechToText {
  import opened Wrappers
  import opened JsText
  import opened Types

  /** The upload limit, 20 MB. */
  const MaxUploadBytes := 20 * 1024 * 1024

  const RecordingName := "recording.webm"
  const RecordingMime := "audio/webm"

  /** `n.toString().padStart(2, '0')`. */
  function TwoDigits(n: nat): string
  {
    PadStart(NatToString(n), 2, '0')
  }

  /** `formatTime(seconds)`: whole minutes, a colon, then the remaining seconds; each field padded
      with '0' to two digits and never cut. */
  function FormatTime(seconds: nat): (r: string)
    ensures |r| >= 5 && r[|r| - 3] == ':'
  {
    ParseTwoDigits(seconds % 60);
    TwoDigits(seconds / 60) + ":" + TwoDigits(seconds % 60)
  }

  /** A padded number is still a digit string of the same value. */
  lemma ParseTwoDigits(n: nat)
    ensures AllDigits(TwoDigits(n)) && ParseDigits(TwoDigits(n)) == n
    ensures n < 100 ==> |TwoDigits(n)| == 2
    ensures n >= 100 ==> |TwoDigits(n)| == |NatToString(n)| >= 3
  {
    var d := NatToString(n);
    ParseNatToString(n);
    NatToStringWidth(n);
    if |d| < 2 {
      ParseLeadingZeros(2 - |d|, d);
    }
  }

  /** The display reads back as the time: the two characters after the colon are the seconds
      0..59, the digits before it are the minutes, and minutes * 60 + seconds is the input. It is
      five characters below 100 minutes and longer from there on. */
  lemma FormatTimeFields(seconds: nat)
    ensures var f := FormatTime(seconds);
      && |f| >= 5 && f[|f| - 3] == ':'
      && AllDigits(f[..|f| - 3]) && AllDigits(f[|f| - 2..])
      && ParseDigits(f[|f| - 2..]) == seconds % 60 < 60
      && ParseDigits(f[..|f| - 3]) == seconds / 60
      && ParseDigits(f[..|f| - 3]) * 60 + ParseDigits(f[|f| - 2..]) == seconds
      && (|f| == 5 <==> seconds < 6000)
  {
    var mm := TwoDigits(seconds / 60);
    var ss := TwoDigits(seconds % 60);
    ParseTwoDigits(seconds / 60);
    ParseTwoDigits(seconds % 60);
    var f := FormatTime(seconds);
    assert f == mm + ":" + ss;
    assert f[..|f| - 3] == mm;
    assert f[|f| - 2..] == ss;
  }

  class SpeechToTextPage {
    var file: Option<File>
    var audioUrl: Option<string>
    var result: string
    var state: ProcessingState
    var isRecording: bool
    var recordingTime: nat
    /** Whether a recorder has been created (`mediaRecorderRef.current`). */
    var hasRecorder: bool
    /** Whether the one-second recording interval is set. */
    var timerActive: bool

    /** The interval runs only while recording, and recording needs a recorder. The interval
        can stop before the recording does: see `FileChange`. */
    ghost predicate Valid()
      reads this
    {
      (timerActive ==> isRecording) && (isRecording ==> hasRecorder)
    }

    constructor ()
      ensures file == None && audioUrl == None && result == "" && state == IdleState
      ensures !isRecording && recordingTime == 0 && !hasRecorder && !timerActive
      ensures Valid()
    {
      file := None;
      audioUrl := None;
      result := "";
      state := IdleState;
      isRecording := false;
      recordingTime := 0;
      hasRecorder := false;
      timerActive := false;
    }

    /** `handleFileChange` with a chosen file and the object URL made for it: over 20 MB it is
        rejected (`rejected`) and nothing changes; otherwise it becomes the file to transcribe, the
        old transcript is cleared and the status is idle. A new `audioUrl` runs the cleanup of the
        effect keyed on it, which clears the recording interval: a file chosen in the upload tab
        during a recording freezes the clock while `isRecording` stays set. */
    method FileChange(selected: File, url: string) returns (rejected: bool)
      requires Valid()
      modifies this`file, this`audioUrl, this`result, this`state, this`timerActive
      ensures Valid()
      ensures rejected <==> selected.size > MaxUploadBytes
      ensures rejected ==>
        && file == old(file) && audioUrl == old(audioUrl) && result == old(result) && state == old(state)
        && timerActive == old(timerActive)
      ensures !rejected ==> file == Some(selected) && audioUrl == Some(url) && result == "" && state == IdleState
      ensures !rejected ==> timerActive == (old(timerActive) && old(audioUrl) == Some(url))
      ensures !rejected && old(audioUrl) != Some(url) ==> !timerActive && isRecording == old(isRecording)
    {
      if selected.size > MaxUploadBytes {
        return true;
      }
      timerActive := timerActive && audioUrl == Some(url);
      file := Some(selected);
      audioUrl := Some(url);
      result := "";
      state := IdleState;
      return false;
    }

    /** `startRecording`; `micGranted` is whether the microphone could be opened. Without it only
        an alert is shown; with it the clock restarts at 0, the current file and transcript are
        dropped and the interval starts. */
    method StartRecording(micGranted: bool)
      requires Valid()
      modifies this`isRecording, this`recordingTime, this`file, this`result, this`hasRecorder, this`timerActive
      ensures Valid()
      ensures !micGranted ==>
        && isRecording == old(isRecording) && recordingTime == old(recordingTime) && file == old(file) && result == old(result)
        && hasRecorder == old(hasRecorder) && timerActive == old(timerActive)
      ensures micGranted ==> isRecording && recordingTime == 0 && file == None && result == "" && hasRecorder && timerActive
    {
      if !micGranted {
        return;
      }
      hasRecorder := true;
      isRecording := true;
      recordingTime := 0;
      file := None;
      result := "";
      timerActive := true;
    }

    /** The recording interval: one more second. */
    method RecordingTick()
      requires Valid() && timerActive
      modifies this`recordingTime
      ensures recordingTime == old(recordingTime) + 1
    {
      recordingTime := recordingTime + 1;
    }

    /** `stopRecording`: acts only while a recorder is recording; the interval is cleared. */
    method StopRecording()
      requires Valid()
      modifies this`isRecording, this`timerActive
      ensures Valid() && !isRecording && !timerActive
    {
      if hasRecorder && isRecording {
        isRecording := false;
        timerActive := false;
      }
    }

    /** The recorder's `onstop`: the recording becomes the file to transcribe. Its new `audioUrl`
        runs the same effect cleanup as `FileChange`. */
    method RecorderStopped(size: nat, url: string)
      requires Valid()
      modifies this`file, this`audioUrl, this`timerActive
      ensures Valid()
      ensures file == Some(File(RecordingName, RecordingMime, size)) && audioUrl == Some(url)
      ensures timerActive == (old(timerActive) && old(audioUrl) == Some(url))
    {
      timerActive := timerActive && audioUrl == Some(url);
      file := Some(File(RecordingName, RecordingMime, size));
      audioUrl := Some(url);
    }

    /** The transcribe button is disabled with no file, while processing, and while recording. */
    function TranscribeEnabled(): (r: bool)
      reads this
      ensures r <==> file.Some? && state.status != Processing && !isRecording
    {
      file.Some? && state.status != Processing && !isRecording
    }

    /** `handleTranscribe` with the outcome of reading the file and calling the speech service:
        nothing without a file; otherwise the state ends as `Transcribed(outcome)` (the corrected
        handling of a failure, see `TranscribedAsWritten`). */
    method HandleTranscribe(outcome: Result<string, string>)
      modifies this`result, this`state
      ensures file.None? ==> result == old(result) && state == old(state)
      ensures file.Some? && outcome.Success? ==> result == outcome.value && state == Transcribed(outcome)
      ensures file.Some? && outcome.Failure? ==> result == old(result) && state == Transcribed(outcome)
      ensures file.Some? ==> state.status != Processing
      ensures file.Some? && !isRecording ==> TranscribeEnabled()
    {
      if file.None? {
        return;
      }
      state := ProcessingState(Processing, Some("AI đang nghe và chép lại..."));
      if outcome.Success? {
        result := outcome.value;
      }
      state := Transcribed(outcome);
    }
  }

  /** The status after the transcription as written: the `try` only wraps registering the reader's
      callbacks, so an error raised later inside them is never caught and the status stays
      `processing`. */
  function TranscribedAsWritten(outcome: Result<string, string>): (s: ProcessingState)
    ensures outcome.Failure? ==> s.status == Processing
    ensures outcome.Success? ==> s == Transcribed(outcome)
  {
    match outcome
    case Success(_) => ProcessingState(Status.Success, Some("Hoàn tất!"))
    case Failure(_) => ProcessingState(Processing, Some("AI đang nghe và chép lại..."))
  }

  /** As written, a failed read or service call leaves the page processing, which keeps the
      transcribe button disabled. */
  lemma AsWrittenFailureSticks(message: string, text: string)
    ensures TranscribedAsWritten(Failure(message)).status == Processing
    ensures Transcribed(Failure(message)).status == Error
    ensures TranscribedAsWritten(Result.Success(text)) == Transcribed(Result.Success(text))
  {
  }

  /** As written, a failure leaves the transcribe button disabled until another file is chosen;
      the corrected `HandleTranscribe` leaves it enabled. */
  lemma AsWrittenFailureDisablesButton(p: SpeechToTextPage, message: string)
    requires p.state == TranscribedAsWritten(Failure(message))
    ensures !p.TranscribeEnabled()
  {
  }

  /** The evidently intended status: the `catch` branch's error state, with the error's message or
      the generic one. */
  function Transcribed(outcome: Result<string, string>): (s: ProcessingState)
    ensures s.status != Processing
    ensures outcome.Success? ==> s.status == Status.Success
    ensures outcome.Failure? ==> s.status == Error && s.message == Some(if outcome.error != "" then outcome.error else "Có lỗi xảy ra.")
  {
    match outcome
    case Success(_) => ProcessingState(Status.Success, Some("Hoàn tất!"))
    case Failure(m) => ProcessingState(Error, Some(if m != "" then m else "Có lỗi xảy ra."))
  }
}
