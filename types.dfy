/**
  Value types of the weekly report app: the report payload, the record kept
  in the `drafts` datastore, the per-channel send outcome (`ReportType`), the
  item kept in the `reports` datastore, and the answers the hosted services
  give back to the app.
 */
module Types {

  datatype Option<+T> = None | Some(value: T)

  /** How a JavaScript template literal renders a possibly undefined string. */
  function Render(o: Option<string>): (s: string)
    ensures o.Some? ==> s == o.value
  {
    match o
    case Some(v) => v
    case None => "undefined"
  }

  /**
    A JavaScript number (the projected billable hours). The model does not
    interpret it; it is identified with the text `${hours}` and
    `hours.toString()` render it as.
   */
  datatype Hours = Hours(text: string)

  /** The seven fields a reviewer can edit: the report proper. */
  datatype Report = Report(
    project: string,
    manager: string,
    hours: Hours,
    sprintStatus: string,
    green: string,
    yellow: string,
    red: string)

  /** `DraftStatus` of utils/create_draft/types.ts. */
  datatype DraftStatus = Draft | Sent

  /** The string the datastore holds for a status. */
  function StatusValue(s: DraftStatus): (v: string)
    ensures s == Draft <==> v == "draft"
    ensures s == Sent <==> v == "sent"
  {
    match s
    case Draft => "draft"
    case Sent => "sent"
  }

  /** An item of the `drafts` datastore; `messageTs` is unset until the preview is posted. */
  datatype DraftRecord = DraftRecord(
    id: string,
    createdBy: string,
    report: Report,
    channels: seq<string>,
    channel: string,
    messageTs: Option<string>,
    status: DraftStatus)

  /** One entry of the send step's `reports` output (`ReportType`). */
  datatype Outcome = Outcome(
    channelId: string,
    success: bool,
    permalink: Option<string>,
    error: Option<string>)

  /** An item of the `reports` datastore: one per delivery attempt. */
  datatype OutcomeRecord = OutcomeRecord(
    id: string,
    draftId: string,
    success: bool,
    errorMessage: Option<string>,
    channel: Option<string>,
    messageTs: Option<string>)

  /** The outputs the draft step completes with. Fields of an empty datastore item are unset. */
  datatype DraftOutputs = DraftOutputs(
    draftId: string,
    report: Option<Report>,
    messageTs: Option<string>)

  /** The `ok`/`error` answer of a hosted call whose other results are not used. */
  datatype Ack = Ok | Failed(error: string)

  /** The answer of `chat.postMessage`. */
  datatype PostResponse = Posted(channel: string, ts: string) | PostFailed(error: string)
}
