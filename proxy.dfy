/** The `/api/transcribe` handler of the server: one request in, one status and JSON body
    out, with at most one call to the transcription webhook on the way. Multer's parsed
    upload, the webhook URL from the environment and the webhook's outcome are inputs;
    the handler keeps no state between requests. */
module Proxy {
  import opened Wrappers
  import opened Json

  /** The `audio` part as multer hands it over (`req.file`); an absent original name is "". */
  datatype UploadedFile = UploadedFile(buffer: seq<bv8>, originalName: string, mimetype: string)

  /** An incoming request: the audio part, if any, and the `patientId` form field, if any. */
  datatype Request = Request(file: Option<UploadedFile>, patientId: Option<string>)

  /** The file part of the outbound multipart form. */
  datatype FormFile = FormFile(content: seq<bv8>, filename: string, contentType: string)

  /** The one outbound POST to the webhook. */
  datatype Outbound = Outbound(url: string, audio: FormFile, patientId: Option<string>)

  /** How the webhook call ended: a response body, or an error carrying a message
      (network failure, a non-2xx status, a timeout). */
  datatype Upstream = Delivered(body: Json) | Failed(message: string)

  /** The handler's answer and the webhook call it made, if any. */
  datatype Reply = Reply(status: int, body: Json, call: Option<Outbound>)

  const NoAudioError := "No audio file provided"
  const MockEn := "This is a mock transcription (N8N_WEBHOOK_URL not set)."
  const MockTa := "இது ஒரு போலி டிரான்ஸ்கிரிப்ஷன் (N8N_WEBHOOK_URL அமைக்கப்படவில்லை)."
  const MockLanguage := "ta-en"
  const FailureError := "Failed to transcribe audio"
  const FallbackEn := "Transcription failed, please try again."
  const FallbackTa := "டிரான்ஸ்கிரிப்ஷன் தோல்வியடைந்தது, மீண்டும் முயற்சிக்கவும்."
  const DefaultFilename := "audio.wav"

  function MissingFileBody(): Json
  {
    JObject(map["error" := JString(NoAudioError)])
  }

  function MockBody(): Json
  {
    JObject(map["transcription_en" := JString(MockEn),
                "transcription_ta" := JString(MockTa),
                "language" := JString(MockLanguage)])
  }

  function FallbackBody(details: string): Json
  {
    JObject(map["error" := JString(FailureError),
                "details" := JString(details),
                "fallback" := JBool(true),
                "transcription_en" := JString(FallbackEn),
                "transcription_ta" := JString(FallbackTa)])
  }

  /** The keys of the payloads are pairwise different. */
  lemma KeysDiffer()
    ensures "transcription_en" != "transcription_ta"
    ensures "error" != "details" && "error" != "fallback" && "details" != "fallback"
    ensures "language" != "transcription_en" && "language" != "transcription_ta"
  {
    assert "transcription_en"[14] != "transcription_ta"[14];
    assert "error"[0] != "details"[0] && "error"[0] != "fallback"[0] && "details"[0] != "fallback"[0];
    assert "language"[0] != "transcription_en"[0];
  }

  /** The form sent to the webhook: the uploaded bytes under the original name (or
      `audio.wav`) with the uploaded content type, and the patient id only when truthy. */
  function OutboundRequest(url: string, file: UploadedFile, patientId: Option<string>): (o: Outbound)
    ensures o.url == url
    ensures o.audio.content == file.buffer && o.audio.contentType == file.mimetype
    ensures file.originalName != "" ==> o.audio.filename == file.originalName
    ensures file.originalName == "" ==> o.audio.filename == DefaultFilename
    ensures o.patientId.Some? <==> Truthy(patientId)
    ensures o.patientId.Some? ==> o.patientId == patientId
  {
    var name := if file.originalName != "" then file.originalName else DefaultFilename;
    Outbound(url, FormFile(file.buffer, name, file.mimetype),
             if Truthy(patientId) then patientId else None)
  }

  /** The handler. A missing file is refused first (so also without a webhook); an unset or
      empty webhook URL answers with the mock payload; otherwise the single webhook call's
      body is passed through, and its failure becomes a 500 with the fallback payload. */
  function Transcribe(req: Request, webhookUrl: Option<string>, upstream: Upstream): (r: Reply)
    ensures r.status == 200 || r.status == 400 || r.status == 500
    ensures r.status == 400 <==> req.file.None?
    ensures r.call.Some? <==> req.file.Some? && Truthy(webhookUrl)
    ensures r.status == 500 <==> r.call.Some? && upstream.Failed?
    ensures r.body.JObject? || (r.call.Some? && upstream.Delivered? && r.body == upstream.body)
  {
    if req.file.None? then
      Reply(400, MissingFileBody(), None)
    else if !Truthy(webhookUrl) then
      Reply(200, MockBody(), None)
    else
      var call := OutboundRequest(webhookUrl.value, req.file.value, req.patientId);
      match upstream
      case Delivered(body) => Reply(200, body, Some(call))
      case Failed(message) => Reply(500, FallbackBody(message), Some(call))
  }

  /** A request without audio gets 400 and the fixed error, whatever the configuration and
      the webhook would have done, and no call is made. */
  lemma MissingFileRejected(req: Request, webhookUrl: Option<string>, upstream: Upstream)
    requires req.file.None?
    ensures var r := Transcribe(req, webhookUrl, upstream);
      r.status == 400 && r.call.None? &&
      r.body.JObject? && r.body.members == map["error" := JString(NoAudioError)]
  {
  }

  /** Without a webhook URL the answer is the mock payload, whatever the webhook would
      have done, and no call is made. */
  lemma MockWithoutWebhook(req: Request, webhookUrl: Option<string>, upstream: Upstream)
    requires req.file.Some? && !Truthy(webhookUrl)
    ensures var r := Transcribe(req, webhookUrl, upstream);
      r.status == 200 && r.call.None? && r.body.JObject? &&
      r.body.members.Keys == {"transcription_en", "transcription_ta", "language"} &&
      r.body.members["transcription_en"] == JString(MockEn) &&
      r.body.members["transcription_ta"] == JString(MockTa) &&
      r.body.members["language"] == JString(MockLanguage) &&
      FieldText(r.body, "transcription_en") == Some(MockEn) &&
      FieldText(r.body, "transcription_ta") == Some(MockTa) &&
      FieldText(r.body, "language") == Some(MockLanguage)
  {
    KeysDiffer();
  }

  /** With a file and a webhook, exactly one call is made, to that URL, carrying the
      uploaded bytes and content type, and the patient id exactly when it is truthy. */
  lemma ForwardCarriesUpload(req: Request, webhookUrl: Option<string>, upstream: Upstream)
    requires req.file.Some? && Truthy(webhookUrl)
    ensures var r := Transcribe(req, webhookUrl, upstream);
      r.call == Some(OutboundRequest(webhookUrl.value, req.file.value, req.patientId)) &&
      r.call.value.audio.content == req.file.value.buffer &&
      r.call.value.audio.contentType == req.file.value.mimetype &&
      r.call.value.audio.filename != "" &&
      (r.call.value.patientId.Some? <==> Truthy(req.patientId))
  {
  }

  /** A webhook body is answered unchanged with status 200. */
  lemma PassThrough(req: Request, webhookUrl: Option<string>, body: Json)
    requires req.file.Some? && Truthy(webhookUrl)
    ensures var r := Transcribe(req, webhookUrl, Delivered(body));
      r.status == 200 && r.body == body
  {
  }

  /** A failed webhook call gives 500 with the generic error, the failure's message as
      `details`, `fallback: true` and non-empty fallback text in both languages. */
  lemma FallbackOnFailure(req: Request, webhookUrl: Option<string>, message: string)
    requires req.file.Some? && Truthy(webhookUrl)
    ensures var r := Transcribe(req, webhookUrl, Failed(message));
      r.status == 500 && r.body.JObject? &&
      r.body.members.Keys == {"error", "details", "fallback", "transcription_en", "transcription_ta"} &&
      r.body.members["error"] == JString(FailureError) &&
      r.body.members["details"] == JString(message) &&
      r.body.members["fallback"] == JBool(true) &&
      FieldText(r.body, "transcription_en") == Some(FallbackEn) && FallbackEn != "" &&
      FieldText(r.body, "transcription_ta") == Some(FallbackTa) && FallbackTa != ""
  {
    KeysDiffer();
  }
}
