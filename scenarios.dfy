/** Event sequences that show how the recording controller behaves as written. Each one
    builds a fresh page, drives it through the events and reports what it ends in. */
module Scenarios {
  import opened Wrappers
  import opened Display
  import opened Recording
  import Proxy
  import JsText

  /** Status is not consulted when a recording starts: a new press succeeds while the
      previous recording's upload is still in flight. */
  method StartWhileUploading(chunk: Chunk) returns (status: Status, recorder: Recorder, uploads: nat)
    ensures status == Recording && recorder == Active && uploads == 1
  {
    var page := new Controller();
    page.EnterPatientId("P-17");
    assert !JsText.IsSpace("P-17"[0]);
    var started := page.Login();
    page.OnMicrophoneResult(true);
    page.StartRecording(0);
    page.StopRecording();
    var request := page.OnRecorderStopped(chunk);
    page.StartRecording(5000);
    status, recorder, uploads := page.status, page.recorder, page.uploadsInFlight;
  }

  /** The 3-second revert is unconditional: it turns the status to ready even while a
      newer recording is under way. */
  method RevertDuringRecording(chunk: Chunk) returns (status: Status, recorder: Recorder)
    ensures status == Ready && recorder == Active
  {
    var page := new Controller();
    page.EnterPatientId("P-17");
    assert !JsText.IsSpace("P-17"[0]);
    var started := page.Login();
    page.OnMicrophoneResult(true);
    page.StartRecording(0);
    page.StopRecording();
    var request := page.OnRecorderStopped(chunk);
    page.OnUploadResponse(true, Some("hello"), None, None);
    page.StartRecording(4000);
    page.RevertToReady();
    status, recorder := page.status, page.recorder;
  }

  /** A press between a release and the old recorder's data empties the shared buffer
      first, so the old recording lands in the new buffer. Its own upload is still whole,
      but the next upload sends the old recording in front of the new one. */
  method LateChunkCrossesRecordings(d1: Chunk, d2: Chunk) returns (first: Proxy.Request, second: Proxy.Request)
    ensures first.file.Some? && first.file.value.buffer == d1
    ensures second.file.Some? && second.file.value.buffer == d1 + d2
  {
    assert !JsText.IsSpace("P-17"[0]);
    ConcatAppend([], [d1]);
    assert [] + [d1] == [d1];
    ConcatAppend([d1], [d2]);
    var page := new Controller();
    page.EnterPatientId("P-17");
    var started := page.Login();
    page.OnMicrophoneResult(true);
    page.StartRecording(0);
    page.StopRecording();
    page.StartRecording(100);
    first := page.OnRecorderStopped(d1);
    page.StopRecording();
    second := page.OnRecorderStopped(d2);
  }

  /** The buffer is not discarded after an upload: it still holds the recording once the
      result is shown. */
  method BufferKeptAfterDone(chunk: Chunk) returns (status: Status, chunks: seq<Chunk>)
    ensures status == Done && chunks == [chunk]
  {
    var page := new Controller();
    page.EnterPatientId("P-17");
    assert !JsText.IsSpace("P-17"[0]);
    var started := page.Login();
    page.OnMicrophoneResult(true);
    page.StartRecording(0);
    page.StopRecording();
    var request := page.OnRecorderStopped(chunk);
    page.OnUploadResponse(true, Some("hello"), None, None);
    status, chunks := page.status, page.audioChunks;
  }

  /** Logging out stops the tracks but keeps the stream. Logging back in, a press before
      the new microphone answer still empties the buffer and replaces the recorder, but
      the new recorder cannot start on the stopped tracks: nothing records, and the clock
      and the status stay as they were. The old recorder's data then arrives in the
      emptied buffer, so its upload is still its own recording, whole. */
  method PressAfterLogout(chunk: Chunk)
    returns (recorder: Recorder, timerRunning: bool, status: Status, chunks: seq<Chunk>,
             sent: Proxy.Request)
    ensures recorder == Inactive && !timerRunning && status == Processing && chunks == []
    ensures sent.file.Some? && sent.file.value.buffer == chunk
  {
    assert !JsText.IsSpace("P-17"[0]);
    ConcatAppend([], [chunk]);
    assert [] + [chunk] == [chunk];
    var page := new Controller();
    page.EnterPatientId("P-17");
    var started := page.Login();
    page.OnMicrophoneResult(true);
    page.StartRecording(0);
    page.StopRecording();
    page.Logout();
    started := page.Login();
    page.StartRecording(100);
    recorder, timerRunning, status, chunks := page.recorder, page.timerRunning, page.status, page.audioChunks;
    sent := page.OnRecorderStopped(chunk);
  }

  /** A refused microphone leaves the status as it was and presses do nothing. */
  method MicrophoneRefused() returns (status: Status, recorder: Recorder)
    ensures status == Idle && recorder == NoRecorder
  {
    var page := new Controller();
    page.EnterPatientId("  P-17 ");
    assert !JsText.IsSpace("  P-17 "[2]);
    var started := page.Login();
    page.OnMicrophoneResult(false);
    page.StartRecording(0);
    status, recorder := page.status, page.recorder;
  }

  /** A blank patient id starts nothing. */
  method BlankLoginRefused() returns (started: bool, onDashboard: bool, requests: nat)
    ensures !started && !onDashboard && requests == 0
  {
    var page := new Controller();
    page.EnterPatientId(" \t ");
    started := page.Login();
    onDashboard, requests := page.onDashboard, page.micRequests;
  }

  /** The upload reads the patient-id input when the recorder stops, not when the session
      started: an id typed after logging out, while the old recorder's task is still due,
      is the one sent. */
  method IdReadAtUpload(chunk: Chunk) returns (sent: Proxy.Request)
    ensures sent.patientId == Some("P-18")
  {
    JsText.TrimKeepsTrimmed("P-18");
    var page := new Controller();
    page.EnterPatientId("P-17");
    assert !JsText.IsSpace("P-17"[0]);
    var started := page.Login();
    page.OnMicrophoneResult(true);
    page.StartRecording(0);
    page.StopRecording();
    page.Logout();
    page.EnterPatientId("P-18");
    sent := page.OnRecorderStopped(chunk);
  }
}
