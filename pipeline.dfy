/** The round trip of one recording: the request the page sends, the proxy's answer, and
    what the page then shows. */
module Pipeline {
  import opened Wrappers
  import opened Json
  import opened JsText
  import opened Display
  import opened Proxy
  import Recording

  /** `response.ok`: the status is 2xx. */
  predicate Ok(reply: Reply)
  {
    200 <= reply.status < 300
  }

  /** The messages of the TypeErrors the browser throws while the page reads a body:
      reading a field of `null`, and converting a value that has no primitive form. Their
      wording is the browser's, so they are inputs. */
  datatype TypeErrors = TypeErrors(readNull: string, toPrimitive: string)

  /** The page reads a reply without throwing and shows "done": the body is not `null`,
      the status is 2xx, and both transcripts, where taken, convert. */
  predicate ReadWithoutThrowing(reply: Reply)
  {
    !reply.body.JNull? && Ok(reply) &&
    FieldConverts(reply.body, "transcription_en") && FieldConverts(reply.body, "transcription_ta")
  }

  /** How the page reads a reply: `response.ok` and the body's fields read through `||`
      and converted with `String`. Reading a field of a `null` body throws, and so does
      converting a taken field that has no primitive form: the English and Tamil
      transcripts when ok (public/script.js lines 159-160), `error` otherwise (line 166).
      Every throw ends in the `catch` branch. */
  function ClientView(reply: Reply, m: TypeErrors): (o: Outcome)
    ensures o.status == Done <==> ReadWithoutThrowing(reply)
    ensures o.status == Error <==> !ReadWithoutThrowing(reply)
    ensures reply.body.JNull? ==> o == OnThrown(m.readNull)
    ensures !reply.body.JNull? && !Ok(reply) && !FieldConverts(reply.body, "error") ==>
      o == OnThrown(m.toPrimitive)
    ensures o.textEn == "" ==> reply.body.JObject? && "transcription_en" in reply.body.members &&
                               reply.body.members["transcription_en"].JArray?
    ensures o.textTa == "" ==> reply.body.JObject? && "transcription_ta" in reply.body.members &&
                               reply.body.members["transcription_ta"].JArray?
  {
    var body := reply.body;
    if body.JNull? then OnThrown(m.readNull)
    else if Ok(reply) then
      if !FieldConverts(body, "transcription_en") || !FieldConverts(body, "transcription_ta") then
        OnThrown(m.toPrimitive)
      else
        var o := OnResponse(true, FieldText(body, "transcription_en"),
                            FieldText(body, "transcription_ta"), None);
        PaneBlankOnlyForEmptyText(true, FieldText(body, "transcription_en"),
                                  FieldText(body, "transcription_ta"), None, "");
        if o.textEn == "" then TruthyTextEmptyIff(body.members["transcription_en"]); o
        else if o.textTa == "" then TruthyTextEmptyIff(body.members["transcription_ta"]); o
        else o
    else if !FieldConverts(body, "error") then OnThrown(m.toPrimitive)
    else OnResponse(false, None, None, FieldText(body, "error"))
  }

  /** The page always attaches the recording, so the proxy never answers it with 400. */
  lemma PageNeverRejected(chunks: seq<Recording.Chunk>, input: string,
                          webhookUrl: Option<string>, upstream: Upstream)
    ensures Transcribe(Recording.UploadRequest(chunks, input), webhookUrl, upstream).status != 400
  {
  }

  /** What reaches the webhook from the page: the recorded bytes as `recording.wav` of type
      `audio/wav`, and the patient id, trimmed, whenever the input is not blank. */
  lemma ForwardedFromPage(chunks: seq<Recording.Chunk>, input: string,
                          webhookUrl: Option<string>, upstream: Upstream)
    requires Truthy(webhookUrl)
    ensures var r := Transcribe(Recording.UploadRequest(chunks, input), webhookUrl, upstream);
      r.call.Some? &&
      r.call.value.audio == FormFile(Recording.Concat(chunks), Recording.RecordingFilename,
                                     Recording.RecordingType) &&
      (r.call.value.patientId == Some(Trim(input)) <==> !Blank(input)) &&
      (r.call.value.patientId.None? <==> Blank(input))
  {
    TrimEmptyIffBlank(input);
  }

  /** Without a webhook the page shows the two mock transcripts and "done". */
  lemma MockShownAsDone(req: Request, webhookUrl: Option<string>, upstream: Upstream, m: TypeErrors)
    requires req.file.Some? && !Truthy(webhookUrl)
    ensures ClientView(Transcribe(req, webhookUrl, upstream), m) == Outcome(Done, MockEn, MockTa)
  {
    MockWithoutWebhook(req, webhookUrl, upstream);
  }

  /** A failed webhook call shows the proxy's generic error in both panes with the error
      status: neither the failure's details nor the fallback transcripts reach the screen. */
  lemma FailureShownAsGenericError(req: Request, webhookUrl: Option<string>, message: string, m: TypeErrors)
    requires req.file.Some? && Truthy(webhookUrl)
    ensures var o := ClientView(Transcribe(req, webhookUrl, Failed(message)), m);
      o == OnThrown(FailureError) && o.textEn != FallbackEn && o.textTa != FallbackTa
  {
    FallbackOnFailure(req, webhookUrl, message);
    var shown := OnThrown(FailureError);
    assert |shown.textEn| == 33 != |FallbackEn|;
    assert |shown.textTa| == 32 != |FallbackTa|;
  }

  /** A webhook answer with both transcripts truthy and convertible is shown as their
      texts, with done: a string as it is, a number in decimal. */
  lemma TranscriptShown(req: Request, webhookUrl: Option<string>, fields: map<string, Json>, m: TypeErrors)
    requires req.file.Some? && Truthy(webhookUrl)
    requires "transcription_en" in fields && IsTruthy(fields["transcription_en"])
    requires "transcription_ta" in fields && IsTruthy(fields["transcription_ta"])
    requires Converts(fields["transcription_en"]) && Converts(fields["transcription_ta"])
    ensures ClientView(Transcribe(req, webhookUrl, Delivered(JObject(fields))), m) ==
      Outcome(Done, ToText(fields["transcription_en"]), ToText(fields["transcription_ta"]))
  {
  }

  /** A webhook answer whose English transcript is an empty array is truthy, so it takes
      no default, yet it converts to "" and leaves the English pane blank under "done". */
  lemma EmptyArrayLeavesPaneBlank(req: Request, webhookUrl: Option<string>, m: TypeErrors)
    requires req.file.Some? && Truthy(webhookUrl)
    ensures var body := JObject(map["transcription_en" := JArray([])]);
      var o := ClientView(Transcribe(req, webhookUrl, Delivered(body)), m);
      o.status == Done && o.textEn == "" && o.textTa == NoTranscriptionTa
  {
    var body := JObject(map["transcription_en" := JArray([])]);
    assert "transcription_ta" !in body.members by {
      assert "transcription_en"[14] != "transcription_ta"[14];
    }
    JoinEmptyIff([], ",");
  }

  /** How the page would show a 400 reply for a request without audio: the proxy's
      message as a thrown error. The page itself never gets one (`PageNeverRejected`). */
  lemma MissingFileShown(req: Request, webhookUrl: Option<string>, upstream: Upstream, m: TypeErrors)
    requires req.file.None?
    ensures ClientView(Transcribe(req, webhookUrl, upstream), m) == OnThrown(NoAudioError)
  {
  }

  /** A 2xx answer whose English transcript is an object with its own `toString` member
      throws when the page converts it, so the page shows the TypeError and the error
      status instead of "done". */
  lemma UnconvertibleTranscriptThrows(req: Request, webhookUrl: Option<string>, m: TypeErrors)
    requires req.file.Some? && Truthy(webhookUrl)
    ensures var body := JObject(map["transcription_en" := JObject(map["toString" := JNumber(1)])]);
      ClientView(Transcribe(req, webhookUrl, Delivered(body)), m) == OnThrown(m.toPrimitive)
  {
    var body := JObject(map["transcription_en" := JObject(map["toString" := JNumber(1)])]);
    assert !FieldConverts(body, "transcription_en");
  }
}
