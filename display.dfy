/** What the page shows: the recording status with its label (`setRecordingStatus`) and
    the two transcript panes after an upload (the result branch of `sendAudioToServer`). */
module Display {
  import opened Wrappers

  /** The status indicator. `Idle` is the indicator before any status has been set;
      no code path sets it. */
  datatype Status = Idle | Ready | Recording | Processing | Done | Error

  /** The label `setRecordingStatus` writes for a status; `None` when its switch has no
      case for it and the label is left as it was. */
  function StatusLabel(s: Status): (text: Option<string>)
    ensures text.None? <==> s == Idle
    ensures text.Some? ==> text.value != ""
  {
    match s
    case Idle => None
    case Ready => Some("Ready")
    case Recording => Some("Recording...")
    case Processing => Some("Processing Audio...")
    case Done => Some("Done")
    case Error => Some("Error")
  }

  /** Different statuses never share a label, so the label tells the status. */
  lemma StatusLabelInjective(a: Status, b: Status)
    requires StatusLabel(a) == StatusLabel(b)
    ensures a == b
  {
  }

  const NoTranscriptionEn := "No transcription available."
  const NoTranscriptionTa := "டிரான்ஸ்கிரிப்ஷன் இல்லை."
  const TranscriptionFailed := "Transcription failed"
  const ErrorPrefixEn := "Error: "
  const ErrorPrefixTa := "பிழை: "

  /** What an upload leaves on screen: the status and the English and Tamil panes. */
  datatype Outcome = Outcome(status: Status, textEn: string, textTa: string)

  /** `v || d`, where `v` is the converted text of a truthy value or `None` for a falsy
      or missing one. */
  function Or(v: Option<string>, d: string): string
  {
    if v.Some? then v.value else d
  }

  /** The `catch` branch: any thrown error shows its message behind a prefix in each
      language and sets the error status. The message can be cut back out of either pane. */
  function OnThrown(message: string): (o: Outcome)
    ensures o.status == Error
    ensures |o.textEn| == |ErrorPrefixEn| + |message| && |o.textTa| == |ErrorPrefixTa| + |message|
    ensures o.textEn[..|ErrorPrefixEn|] == ErrorPrefixEn && o.textEn[|ErrorPrefixEn|..] == message
    ensures o.textTa[..|ErrorPrefixTa|] == ErrorPrefixTa && o.textTa[|ErrorPrefixTa|..] == message
  {
    Outcome(Error, ErrorPrefixEn + message, ErrorPrefixTa + message)
  }

  /** A parsed response: with `ok` each pane shows its transcript or a fixed notice and
      the status is done; otherwise `data.error` (or a fixed message) is thrown and
      handled as in `OnThrown`. `en`, `ta` and `err` are the body's fields as the page reads
      them: the text of a truthy value, or `None` when the default applies. */
  function OnResponse(ok: bool, en: Option<string>, ta: Option<string>, err: Option<string>): (o: Outcome)
    ensures o.status == Done <==> ok
    ensures o.status == Error <==> !ok
    ensures ok && en.Some? ==> o.textEn == en.value
    ensures ok && en.None? ==> o.textEn == NoTranscriptionEn
    ensures ok && ta.Some? ==> o.textTa == ta.value
    ensures ok && ta.None? ==> o.textTa == NoTranscriptionTa
    ensures !ok && err.Some? ==> o == OnThrown(err.value)
    ensures !ok && err.None? ==> o == OnThrown(TranscriptionFailed)
  {
    if ok then Outcome(Done, Or(en, NoTranscriptionEn), Or(ta, NoTranscriptionTa))
    else OnThrown(Or(err, TranscriptionFailed))
  }

  /** A pane is left blank only when a successful response carries a truthy field whose
      text is empty; every other outcome, and every thrown error, fills both panes. The
      status is always done or error. */
  lemma PaneBlankOnlyForEmptyText(ok: bool, en: Option<string>, ta: Option<string>,
                                  err: Option<string>, message: string)
    ensures var o := OnResponse(ok, en, ta, err);
      (o.textEn == "" <==> ok && en == Some("")) &&
      (o.textTa == "" <==> ok && ta == Some("")) &&
      (o.status == Done || o.status == Error)
    ensures var o := OnThrown(message);
      o.textEn != "" && o.textTa != "" && o.status == Error
  {
  }

  /** A failed response is indistinguishable on screen from a thrown error carrying
      the message the client chose. */
  lemma FailedResponseIsThrown(en: Option<string>, ta: Option<string>, err: Option<string>)
    ensures OnResponse(false, en, ta, err) == OnThrown(Or(err, TranscriptionFailed))
  {
  }
}
