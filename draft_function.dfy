/**
  The draft step (functions/draft_function.ts): store a new draft, post its
  preview to the review channel, remember the preview's timestamp, and
  leave the step open until a reviewer confirms; plus the table that routes
  the preview's interactions to their handlers.
 */
module DraftFunction {
  import opened Types
  import opened Slack
  import opened DraftBlocks
  import opened Platform

  /** The draft step's inputs. */
  datatype DraftInputs = DraftInputs(
    createdBy: string,
    report: Report,
    channel: string,
    channels: seq<string>)

  /** How the handler returns: an error string, or `completed: false`. */
  datatype DraftResult = Error(error: string) | Incomplete

  const DraftPostText := "A report draft was posted"

  /** The record the step stores: status `draft`, no preview timestamp yet. */
  function NewDraft(draftId: string, inputs: DraftInputs): (rec: DraftRecord)
    ensures rec.id == draftId && rec.status == Draft && rec.messageTs == None
    ensures rec.report == inputs.report && rec.createdBy == inputs.createdBy
    ensures rec.channel == inputs.channel && rec.channels == inputs.channels
  {
    DraftRecord(draftId, inputs.createdBy, inputs.report, inputs.channels, inputs.channel, None, Draft)
  }

  const SaveErrorText := "Error saving draft report. Contact the app maintainers with the following information - (Error detail: "
  const ContactDetail := ". Contact the app maintainers with the following information - (Error detail: "

  function SaveErrorMessage(error: string): (message: string)
  {
    SaveErrorText + error + ")"
  }

  function PostErrorMessage(channel: string, error: string): (message: string)
  {
    "Error posting draft report to " + channel
    + ContactDetail + error + ")"
  }

  function TimestampErrorMessage(draftId: string, error: string): (message: string)
  {
    "Error updating draft report timestamp for " + draftId
    + ContactDetail + error + ")"
  }

  /** The preview posted for a draft. */
  function PreviewPost(draftId: string, inputs: DraftInputs): (call: PlatformCall)
  {
    PostMessage(inputs.channel,
                BuildDraftBlocks(draftId, inputs.createdBy, inputs.report, inputs.channels),
                DraftPostText)
  }

  /**
    The step's handler. `draftId` is the fresh id the source draws with
    crypto.randomUUID(); `putAck`, `post` and `tsAck` are the answers of
    the datastore put, the preview post and the timestamp update.
   */
  method CreateDraft(app: Workspace, draftId: string, inputs: DraftInputs, putAck: Ack, post: PostResponse, tsAck: Ack)
    returns (result: DraftResult)
    requires app.Valid()
    modifies app
    ensures app.Valid()
    ensures app.outcomes == old(app.outcomes)
    // the record is stored before anything is posted; a failed put posts nothing
    ensures putAck.Failed? ==>
              result == Error(SaveErrorMessage(putAck.error))
              && app.drafts == old(app.drafts) && app.calls == old(app.calls)
    ensures putAck.Ok? ==> app.calls == old(app.calls) + [PreviewPost(draftId, inputs)]
    // a failed post leaves the new record without a timestamp
    ensures putAck.Ok? && post.PostFailed? ==>
              result == Error(PostErrorMessage(inputs.channel, post.error))
              && app.drafts == old(app.drafts)[draftId := NewDraft(draftId, inputs)]
    // after a post the record holds the gateway's timestamp, unless that update failed
    ensures putAck.Ok? && post.Posted? && tsAck.Ok? ==>
              result == Incomplete
              && app.drafts == old(app.drafts)[draftId := NewDraft(draftId, inputs).(messageTs := Some(post.ts))]
    ensures putAck.Ok? && post.Posted? && tsAck.Failed? ==>
              result == Error(TimestampErrorMessage(draftId, tsAck.error))
              && app.drafts == old(app.drafts)[draftId := NewDraft(draftId, inputs)]
  {
    var rec := NewDraft(draftId, inputs);
    app.PutDraft(rec, putAck);
    if putAck.Failed? {
      return Error(SaveErrorMessage(putAck.error));
    }

    app.Call(PreviewPost(draftId, inputs));
    if post.PostFailed? {
      return Error(PostErrorMessage(inputs.channel, post.error));
    }

    app.UpdateDraft(draftId, SetMessageTs(post.ts), tsAck);
    UpdateTwice(old(app.drafts), draftId, rec, rec.(messageTs := Some(post.ts)));
    if tsAck.Failed? {
      return Error(TimestampErrorMessage(draftId, tsAck.error));
    }
    return Incomplete;
  }

  lemma UpdateTwice(m: map<string, DraftRecord>, k: string, first: DraftRecord, second: DraftRecord)
    ensures m[k := first][k := second] == m[k := second]
  {
  }

  /** A successful run of `CreateDraft` stores exactly one new record under a fresh id. */
  lemma CreateDraftAddsOneRecord(drafts: map<string, DraftRecord>, draftId: string, inputs: DraftInputs, ts: string)
    requires draftId !in drafts
    ensures |drafts[draftId := NewDraft(draftId, inputs).(messageTs := Some(ts))]| == |drafts| + 1
    ensures drafts[draftId := NewDraft(draftId, inputs).(messageTs := Some(ts))].Keys == drafts.Keys + {draftId}
  {
    var after := drafts[draftId := NewDraft(draftId, inputs).(messageTs := Some(ts))];
    assert after.Keys == drafts.Keys + {draftId};
  }

  /** The interactions the step listens for. */
  datatype Interaction = BlockActions(actionId: string) | ViewSubmission(callbackId: string)

  datatype Handler = OpenDraftEditView | SaveDraftEditSubmission | ConfirmReportForSend | PrepareSendReport

  /** The routing table registered on the step's handler. */
  function Route(i: Interaction): (h: Option<Handler>)
    ensures h == Some(OpenDraftEditView) <==> i == BlockActions(OverflowActionId)
    ensures h == Some(SaveDraftEditSubmission) <==> i == ViewSubmission(EditModalCallbackId)
    ensures h == Some(ConfirmReportForSend) <==> i == BlockActions(SendButtonActionId)
    ensures h == Some(PrepareSendReport) <==> i == ViewSubmission(ConfirmModalCallbackId)
  {
    match i
    case BlockActions(a) =>
      if a == OverflowActionId then Some(OpenDraftEditView)
      else if a == SendButtonActionId then Some(ConfirmReportForSend)
      else None
    case ViewSubmission(c) =>
      if c == EditModalCallbackId then Some(SaveDraftEditSubmission)
      else if c == ConfirmModalCallbackId then Some(PrepareSendReport)
      else None
  }

  /**
    Every control the preview and the modals carry reaches a handler: the
    overflow opens the editor, the button the confirmation, the edit modal
    saves and the confirmation modal finishes the step.
   */
  lemma ControlsAreRouted(draftId: string, createdBy: string, r: Report, channels: seq<string>, threadTs: string)
    ensures var preview := BuildDraftBlocks(draftId, createdBy, r, channels);
            && Route(BlockActions(preview[1].elements[0].actionId)) == Some(ConfirmReportForSend)
            && Route(BlockActions(preview[1].elements[1].actionId)) == Some(OpenDraftEditView)
    ensures Route(ViewSubmission(BuildEditModal(draftId, r, threadTs).callbackId)) == Some(SaveDraftEditSubmission)
    ensures Route(ViewSubmission(BuildConfirmSendModal(draftId, channels).callbackId)) == Some(PrepareSendReport)
  {
  }
}
