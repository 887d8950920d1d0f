/** The browser-side recording controller: login, microphone acquisition, press-and-hold
    recording, the elapsed-time display, the upload and its result, and the delayed return
    to "ready". The page's module-level variables are the fields of `Controller`; every
    callback the browser would run later (microphone answer, recorder data and stop
    events, timer ticks, the upload's completion, the 3-second timeout) is a method the
    environment calls, and each may only be called once it has been scheduled. */
module Recording {
  import opened Wrappers
  import opened JsText
  import opened Timer
  import opened Display
  import Proxy

  /** The latest MediaRecorder: none created yet, stopped, or recording. */
  datatype Recorder = NoRecorder | Inactive | Active

  /** One `dataavailable` payload. */
  type Chunk = seq<bv8>

  /** The bytes of `new Blob(chunks)`: the chunks one after the other. */
  function Concat(chunks: seq<Chunk>): seq<bv8>
  {
    if chunks == [] then [] else Concat(chunks[..|chunks| - 1]) + chunks[|chunks| - 1]
  }

  /** Appending chunks appends their bytes: the blob of earlier chunks is a prefix. */
  lemma {:induction false} ConcatAppend(a: seq<Chunk>, b: seq<Chunk>)
    ensures Concat(a + b) == Concat(a) + Concat(b)
    ensures |b| == 1 ==> Concat(a + b) == Concat(a) + b[0]
    decreases |b|
  {
    if b == [] {
      assert a + b == a;
    } else if |b| == 1 {
      assert (a + b)[..|a + b| - 1] == a;
    } else {
      var b' := b[..|b| - 1];
      assert (a + b)[..|a + b| - 1] == a + b';
      ConcatAppend(a, b');
    }
  }

  const RecordingFilename := "recording.wav"
  const RecordingType := "audio/wav"

  /** The request `sendAudioToServer` posts: the buffered chunks as one `audio/wav` blob
      named `recording.wav`, and the patient-id input trimmed at the time of sending. */
  function UploadRequest(chunks: seq<Chunk>, patientInput: string): (req: Proxy.Request)
    ensures req.file.Some? && req.file.value.buffer == Concat(chunks)
    ensures req.file.value.originalName == RecordingFilename && req.file.value.mimetype == RecordingType
    ensures req.patientId == Some(Trim(patientInput))
  {
    Proxy.Request(Some(Proxy.UploadedFile(Concat(chunks), RecordingFilename, RecordingType)),
                  Some(Trim(patientInput)))
  }

  /** All of the controller's fields as one value, so that a method can say in one
      clause what its new state is. */
  datatype State = State(
    onDashboard: bool, patientInput: string, shownPatientId: string, micRequests: nat,
    streamHeld: bool, tracksLive: bool, recorder: Recorder, audioChunks: seq<Chunk>,
    startTime: int, timerRunning: bool, timerText: string, status: Status,
    stopsPending: nat, uploadsInFlight: nat, revertsPending: nat,
    textEn: string, textTa: string)

  class Controller {
    var onDashboard: bool           // dashboard shown instead of the login screen
    var patientInput: string        // value of the patient-id input
    var shownPatientId: string      // patient id shown on the dashboard
    var micRequests: nat            // getUserMedia calls not yet answered
    var streamHeld: bool            // `stream` is set
    var tracksLive: bool            // its tracks have not been stopped
    var recorder: Recorder          // `mediaRecorder` and its state
    var audioChunks: seq<Chunk>     // `audioChunks`
    var startTime: int              // `startTime`, in milliseconds; read only once a recording started
    var timerRunning: bool          // `timerInterval` is scheduled
    var timerText: string           // the timer display
    var status: Status              // the status indicator; its label is `StatusLabel(status)`
    var stopsPending: nat           // stopped recorders whose data-and-stop task is still due
    var uploadsInFlight: nat        // uploads whose fetch has not settled
    var revertsPending: nat         // 3-second timeouts not yet fired
    var textEn: string              // English transcript pane
    var textTa: string              // Tamil transcript pane

    function Snapshot(): State
      reads this
    {
      State(onDashboard, patientInput, shownPatientId, micRequests, streamHeld, tracksLive,
            recorder, audioChunks, startTime, timerRunning, timerText, status,
            stopsPending, uploadsInFlight, revertsPending, textEn, textTa)
    }

    /** The interval runs exactly while a recorder records, a recorder exists only once a
        stream was obtained, and the status never returns to idle once a stream is held. */
    ghost predicate Valid()
      reads this
    {
      timerRunning == (recorder == Active) &&
      (recorder != NoRecorder ==> streamHeld) &&
      (tracksLive ==> streamHeld) &&
      (streamHeld ==> status != Idle)
    }

    /** The page as loaded: login screen, no stream, no recorder, nothing scheduled. The
        initial timer and transcript texts come from the page markup, which is not
        modelled; they are "" here. */
    constructor ()
      ensures Valid()
      ensures Snapshot() == State(false, "", "", 0, false, false, NoRecorder, [], 0, false, "",
                                  Idle, 0, 0, 0, "", "")
    {
      onDashboard, patientInput, shownPatientId, micRequests := false, "", "", 0;
      streamHeld, tracksLive, recorder, audioChunks := false, false, NoRecorder, [];
      startTime, timerRunning, timerText := 0, false, "";
      status := Idle;
      stopsPending, uploadsInFlight, revertsPending := 0, 0, 0;
      textEn, textTa := "", "";
    }

    /** Typing into the patient-id input: its value is replaced. */
    method EnterPatientId(text: string)
      requires Valid()
      modifies this
      ensures Valid()
      ensures Snapshot() == old(Snapshot()).(patientInput := text)
    {
      patientInput := text;
    }

    /** Which screen is visible: the dashboard or the login screen. */
    method ShowScreen(dashboard: bool)
      modifies this
      ensures Snapshot() == old(Snapshot()).(onDashboard := dashboard)
    {
      onDashboard := dashboard;
    }

    /** The start button: a session starts only when the input, trimmed, is not empty,
        that is when it is not blank; it then shows the trimmed id on the dashboard and
        calls `initAudio`. */
    method Login() returns (started: bool)
      requires Valid()
      modifies this
      ensures Valid()
      ensures started <==> !Blank(patientInput)
      ensures started ==> Snapshot() == old(Snapshot()).(onDashboard := true,
        shownPatientId := Trim(patientInput), micRequests := old(micRequests) + 1)
      ensures !started ==> Snapshot() == old(Snapshot())
    {
      TrimEmptyIffBlank(patientInput);
      var patientId := Trim(patientInput);
      started := patientId != "";
      if started {
        shownPatientId := patientId;
        ShowScreen(true);
        InitAudio();
      }
    }

    /** `initAudio`: a microphone request is issued; its answer arrives later as
        `OnMicrophoneResult`. */
    method InitAudio()
      modifies this
      ensures Snapshot() == old(Snapshot()).(micRequests := old(micRequests) + 1)
    {
      micRequests := micRequests + 1;
    }

    /** The answer to a microphone request: on success the stream is held and the status
        becomes ready; on failure nothing changes. */
    method OnMicrophoneResult(granted: bool)
      requires Valid() && micRequests > 0
      modifies this
      ensures Valid()
      ensures granted ==> Snapshot() == old(Snapshot()).(micRequests := old(micRequests) - 1,
        streamHeld := true, tracksLive := true, status := Ready)
      ensures !granted ==> Snapshot() == old(Snapshot()).(micRequests := old(micRequests) - 1)
    {
      micRequests := micRequests - 1;
      if granted {
        streamHeld, tracksLive := true, true;
        SetRecordingStatus(Ready);
      }
    }

    /** The logout button: back to the login screen, then `stopAudio`. */
    method Logout()
      requires Valid()
      modifies this
      ensures Valid()
      ensures Snapshot() == old(Snapshot()).(onDashboard := false, tracksLive := false)
    {
      ShowScreen(false);
      StopAudio();
    }

    /** `stopAudio`: the stream's tracks are stopped, but the stream itself stays set. */
    method StopAudio()
      requires Valid()
      modifies this
      ensures Valid()
      ensures Snapshot() == old(Snapshot()).(tracksLive := false)
      ensures streamHeld == old(streamHeld)
    {
      tracksLive := false;
    }

    /** Press (`startRecording`): ignored while a recorder records or when no stream is set.
        Otherwise the buffer is emptied and a new recorder replaces the old one. When the
        stream's tracks have been stopped (after logout), starting that recorder throws: it
        stays inactive, and the clock and the status are untouched. Otherwise it records,
        the clock and the interval start, and the status becomes recording whatever it was. */
    method StartRecording(nowMs: int)
      requires Valid()
      modifies this
      ensures Valid()
      ensures old(recorder) == Active || !old(streamHeld) ==> Snapshot() == old(Snapshot())
      ensures old(recorder) != Active && old(streamHeld) && !old(tracksLive) ==>
        Snapshot() == old(Snapshot()).(recorder := Inactive, audioChunks := [])
      ensures old(recorder) != Active && old(streamHeld) && old(tracksLive) ==>
        Snapshot() == old(Snapshot()).(recorder := Active, audioChunks := [], startTime := nowMs,
          timerRunning := true, timerText := FormatTimer(nowMs, nowMs), status := Recording)
    {
      if recorder == Active { return; }
      if !streamHeld { return; }
      audioChunks := [];
      if !tracksLive {
        recorder := Inactive;
        return;
      }
      recorder := Active;
      StartTimer(nowMs);
      SetRecordingStatus(Recording);
    }

    /** The clock part of a press: `startTime` is now, the display is updated at once and
        the interval is scheduled. */
    method StartTimer(nowMs: int)
      modifies this
      ensures Snapshot() == old(Snapshot()).(startTime := nowMs, timerRunning := true,
        timerText := FormatTimer(nowMs, nowMs))
    {
      startTime := nowMs;
      UpdateTimer(nowMs);
      timerRunning := true;
    }

    /** Release (`stopRecording`): ignored unless a recorder records; otherwise stops it,
        stops the interval and sets the status to processing. */
    method StopRecording()
      requires Valid()
      modifies this
      ensures Valid()
      ensures old(recorder) != Active ==> Snapshot() == old(Snapshot())
      ensures old(recorder) == Active ==>
        Snapshot() == old(Snapshot()).(recorder := Inactive, timerRunning := false,
          status := Processing, stopsPending := old(stopsPending) + 1)
    {
      if recorder != Active { return; }
      StopRecorder();
      timerRunning := false;
      SetRecordingStatus(Processing);
    }

    /** `mediaRecorder.stop()`: the recorder is inactive, and the one task that delivers
        its data and then its stop event is due. */
    method StopRecorder()
      modifies this
      ensures Snapshot() == old(Snapshot()).(recorder := Inactive,
        stopsPending := old(stopsPending) + 1)
    {
      recorder := Inactive;
      stopsPending := stopsPending + 1;
    }

    /** `updateTimer`: the display shows the time since the start. */
    method UpdateTimer(nowMs: int)
      modifies this
      ensures Snapshot() == old(Snapshot()).(timerText := FormatTimer(nowMs, startTime))
    {
      timerText := FormatTimer(nowMs, startTime);
    }

    /** A tick of the interval, which runs `updateTimer`. */
    method OnTimerTick(nowMs: int)
      requires Valid() && timerRunning
      modifies this
      ensures Valid()
      ensures Snapshot() == old(Snapshot()).(timerText := FormatTimer(nowMs, startTime))
    {
      UpdateTimer(nowMs);
    }

    /** `setRecordingStatus`: the indicator takes the new status, and with it the label
        `StatusLabel(s)`. */
    method SetRecordingStatus(s: Status)
      modifies this
      ensures Snapshot() == old(Snapshot()).(status := s)
    {
      status := s;
    }

    /** The task a stopped recorder queued: `dataavailable` delivers its whole recording
        as one chunk (it was started without a timeslice) and `stop` follows at once. The
        chunk is appended to the buffer as it is now, whichever press last emptied it, and
        the upload of that buffer is sent with the patient-id input as it reads now. */
    method OnRecorderStopped(chunk: Chunk) returns (request: Proxy.Request)
      requires Valid() && stopsPending > 0
      modifies this
      ensures Valid()
      ensures request == UploadRequest(old(audioChunks) + [chunk], patientInput)
      ensures Snapshot() == old(Snapshot()).(audioChunks := old(audioChunks) + [chunk],
        stopsPending := old(stopsPending) - 1, uploadsInFlight := old(uploadsInFlight) + 1)
    {
      OnDataAvailable(chunk);
      request := SendAudioToServer();
    }

    /** `ondataavailable`: the chunk is pushed onto the buffer; the bytes already buffered
        stay in place and in order. */
    method OnDataAvailable(chunk: Chunk)
      modifies this
      ensures Snapshot() == old(Snapshot()).(audioChunks := old(audioChunks) + [chunk])
    {
      audioChunks := audioChunks + [chunk];
    }

    /** `onstop`, that is `sendAudioToServer`: the upload of whatever the buffer holds is
        sent, with the patient-id input as it reads now, and is in flight. */
    method SendAudioToServer() returns (request: Proxy.Request)
      requires stopsPending > 0
      modifies this
      ensures request == UploadRequest(audioChunks, patientInput)
      ensures Snapshot() == old(Snapshot()).(stopsPending := old(stopsPending) - 1,
        uploadsInFlight := old(uploadsInFlight) + 1)
    {
      stopsPending, uploadsInFlight := stopsPending - 1, uploadsInFlight + 1;
      request := UploadRequest(audioChunks, patientInput);
    }

    /** The two transcript panes take new texts. */
    method ShowTranscripts(en: string, ta: string)
      modifies this
      ensures Snapshot() == old(Snapshot()).(textEn := en, textTa := ta)
    {
      textEn, textTa := en, ta;
    }

    /** Shows an upload outcome and schedules the return to ready. */
    method Show(o: Outcome)
      requires Valid() && uploadsInFlight > 0 && o.status != Idle
      modifies this
      ensures Valid()
      ensures Snapshot() == old(Snapshot()).(uploadsInFlight := old(uploadsInFlight) - 1,
        textEn := o.textEn, textTa := o.textTa, status := o.status,
        revertsPending := old(revertsPending) + 1)
    {
      uploadsInFlight := uploadsInFlight - 1;
      ShowTranscripts(o.textEn, o.textTa);
      SetRecordingStatus(o.status);
      ScheduleRevert();
    }

    /** `setTimeout(() => setRecordingStatus('ready'), 3000)`: one more revert is due. */
    method ScheduleRevert()
      modifies this
      ensures Snapshot() == old(Snapshot()).(revertsPending := old(revertsPending) + 1)
    {
      revertsPending := revertsPending + 1;
    }

    /** The upload's response was parsed: `ok` and the body's fields, as the page reads
        them, decide what is shown. */
    method OnUploadResponse(ok: bool, en: Option<string>, ta: Option<string>, err: Option<string>)
      requires Valid() && uploadsInFlight > 0
      modifies this
      ensures Valid()
      ensures textEn == "" <==> ok && en == Some("")
      ensures textTa == "" <==> ok && ta == Some("")
      ensures status == (if ok then Done else Error)
      ensures Snapshot() == old(Snapshot()).(uploadsInFlight := old(uploadsInFlight) - 1,
        textEn := OnResponse(ok, en, ta, err).textEn, textTa := OnResponse(ok, en, ta, err).textTa,
        status := OnResponse(ok, en, ta, err).status,
        revertsPending := old(revertsPending) + 1)
    {
      PaneBlankOnlyForEmptyText(ok, en, ta, err, "");
      Show(OnResponse(ok, en, ta, err));
    }

    /** The upload threw (network failure, unparsable body, a `null` body, a field that
        does not convert): the error is shown. */
    method OnUploadError(message: string)
      requires Valid() && uploadsInFlight > 0
      modifies this
      ensures Valid()
      ensures status == Error && textEn == ErrorPrefixEn + message && textTa == ErrorPrefixTa + message
      ensures Snapshot() == old(Snapshot()).(uploadsInFlight := old(uploadsInFlight) - 1,
        textEn := ErrorPrefixEn + message, textTa := ErrorPrefixTa + message,
        status := Error, revertsPending := old(revertsPending) + 1)
    {
      Show(OnThrown(message));
    }

    /** The 3-second timeout after done or error: the status becomes ready, whatever it is
        by then. */
    method RevertToReady()
      requires Valid() && revertsPending > 0
      modifies this
      ensures Valid()
      ensures Snapshot() == old(Snapshot()).(revertsPending := old(revertsPending) - 1,
        status := Ready)
    {
      revertsPending := revertsPending - 1;
      SetRecordingStatus(Ready);
    }
  }
}
