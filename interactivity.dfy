/**
  The handlers of the draft step's interactions
  (utils/create_draft/interactivity_handler.ts): open the edit modal from
  the preview's overflow menu, save an edit and re-render the preview, ask
  for confirmation, and complete the step with the latest stored draft.
 */
module Interactivity {
  import opened Types
  import opened Slack
  import opened DraftBlocks
  import opened Platform
  import opened DraftFunction

  /** The part of a block action the handlers read: `action.block_id` and `action.selected_option.value`. */
  datatype BlockAction = BlockAction(blockId: string, selectedValue: string)

  /** How an asynchronous handler ends: it resolves, or it throws (a property read on `undefined`). */
  datatype HandlerEnd = Returned | Threw

  /** `s || ""` on a possibly undefined string. */
  function OrEmpty(o: Option<string>): (s: string)
    ensures o.Some? ==> s == o.value
    ensures o.None? ==> s == ""
  {
    if o.Some? then o.value else ""
  }

  const HandlerContactDetail := ". Contact the app maintainers with the following - (Error detail: "
  const OpenErrorText := "Error opening up the draft edit modal view" + HandlerContactDetail

  function GetErrorMessage(id: string, error: string): (message: string)
  {
    "Error getting draft with id " + id + HandlerContactDetail + error + ")"
  }

  /** The message lacks its closing parenthesis, as in the source. */
  function OpenErrorMessage(error: string): (message: string)
  {
    OpenErrorText + error
  }

  /**
    `openDraftEditView`. `messageTs` is `body.message?.ts`; `fetchAck` and
    `openAck` are the answers of the datastore get and of `views.open`.
    A failed get signals the error and then reads a field of the missing
    item, which throws; an id with no record throws at `hours.toString()`.
   */
  method OpenDraftEditView(app: Workspace, action: BlockAction, messageTs: Option<string>, fetchAck: Ack, openAck: Ack)
    returns (end: HandlerEnd)
    requires app.Valid()
    modifies app
    ensures app.Valid()
    ensures app.drafts == old(app.drafts) && app.outcomes == old(app.outcomes)
    ensures action.selectedValue != EditOptionValue ==> end == Returned && app.calls == old(app.calls)
    ensures action.selectedValue == EditOptionValue ==>
              var fetched := Fetch(old(app.drafts), action.blockId, fetchAck);
              && (fetched.FetchFailed? ==>
                    end == Threw && app.calls == old(app.calls) + [CompleteError(GetErrorMessage(action.blockId, fetchAck.error))])
              && (fetched.EmptyItem? ==> end == Threw && app.calls == old(app.calls))
              && (fetched.Item? ==>
                    var view := BuildEditModal(action.blockId, fetched.record.report, OrEmpty(messageTs));
                    && end == Returned
                    && app.calls == old(app.calls) + [OpenView(view)]
                                    + (if openAck.Failed? then [CompleteError(OpenErrorMessage(openAck.error))] else []))
  {
    if action.selectedValue != EditOptionValue {
      return Returned;
    }
    var id := action.blockId;
    var fetched := Fetch(app.drafts, id, fetchAck);
    if fetched.FetchFailed? {
      app.Call(CompleteError(GetErrorMessage(id, fetched.error)));
      return Threw;
    }
    if fetched.EmptyItem? {
      return Threw;
    }
    var editModalView := BuildEditModal(id, fetched.record.report, OrEmpty(messageTs));
    app.Call(OpenView(editModalView));
    if openAck.Failed? {
      app.Call(CompleteError(OpenErrorMessage(openAck.error)));
    }
    return Returned;
  }

  /** `view.state.values[blockId][actionId].value` of a text or number input. */
  function TypedValue(values: StateValues, blockId: string, actionId: string): (value: Option<string>)
  {
    if blockId in values && actionId in values[blockId] && values[blockId][actionId].Typed?
    then Some(values[blockId][actionId].value)
    else None
  }

  /** `view.state.values[blockId][actionId].selected_option.value` of a select. */
  function SelectedValue(values: StateValues, blockId: string, actionId: string): (value: Option<string>)
  {
    if blockId in values && actionId in values[blockId] && values[blockId][actionId].Selected?
    then Some(values[blockId][actionId].value)
    else None
  }

  /**
    The seven fields read from a submitted edit modal; `parse` is
    `Number(...)` on the hours input. None when an input is missing.
   */
  function ReadSubmission(values: StateValues, parse: string -> Hours): (r: Option<Report>)
    ensures r.Some? <==>
              && TypedValue(values, ProjectBlockId, ProjectActionId).Some?
              && TypedValue(values, ManagerBlockId, ManagerActionId).Some?
              && TypedValue(values, HoursBlockId, HoursActionId).Some?
              && SelectedValue(values, StatusBlockId, StatusActionId).Some?
              && TypedValue(values, GreenBlockId, GreenActionId).Some?
              && TypedValue(values, YellowBlockId, YellowActionId).Some?
              && TypedValue(values, RedBlockId, RedActionId).Some?
    ensures r.Some? ==>
              && Some(r.value.project) == TypedValue(values, ProjectBlockId, ProjectActionId)
              && Some(r.value.manager) == TypedValue(values, ManagerBlockId, ManagerActionId)
              && r.value.hours == parse(TypedValue(values, HoursBlockId, HoursActionId).value)
              && Some(r.value.sprintStatus) == SelectedValue(values, StatusBlockId, StatusActionId)
              && Some(r.value.green) == TypedValue(values, GreenBlockId, GreenActionId)
              && Some(r.value.yellow) == TypedValue(values, YellowBlockId, YellowActionId)
              && Some(r.value.red) == TypedValue(values, RedBlockId, RedActionId)
  {
    var project := TypedValue(values, ProjectBlockId, ProjectActionId);
    var manager := TypedValue(values, ManagerBlockId, ManagerActionId);
    var hours := TypedValue(values, HoursBlockId, HoursActionId);
    var status := SelectedValue(values, StatusBlockId, StatusActionId);
    var green := TypedValue(values, GreenBlockId, GreenActionId);
    var yellow := TypedValue(values, YellowBlockId, YellowActionId);
    var red := TypedValue(values, RedBlockId, RedActionId);
    if project.None? || manager.None? || hours.None? || status.None? || green.None? || yellow.None? || red.None?
    then None
    else Some(Report(project.value, manager.value, parse(hours.value), status.value, green.value, yellow.value, red.value))
  }

  /**
    The edit modal and the save handler agree: submitting the modal built
    for a report, every input left as it was, reads back that report
    (given that `Number` reads back the rendering of the hours).
   */
  lemma EditModalRoundTrip(id: string, r: Report, threadTs: string, parse: string -> Hours)
    requires parse(r.hours.text) == r.hours
    ensures ReadSubmission(SubmittedUnchanged(BuildEditModal(id, r, threadTs).blocks), parse) == Some(r)
  {
    var values := SubmittedUnchanged(BuildEditModal(id, r, threadTs).blocks);
    forall i | 0 <= i < 7
      ensures EditBlockIds[i] in values && values[EditBlockIds[i]] == map[EditActionIds[i] := EditFieldValues(r)[i]]
    {
      EditInputSubmits(id, r, threadTs, i);
    }
    ReadFieldValues(values, r, parse);
  }

  /** State values holding each input's initial state under its ids read back as the report. */
  lemma ReadFieldValues(values: StateValues, r: Report, parse: string -> Hours)
    requires parse(r.hours.text) == r.hours
    requires forall i :: 0 <= i < 7 ==>
               EditBlockIds[i] in values && values[EditBlockIds[i]] == map[EditActionIds[i] := EditFieldValues(r)[i]]
    ensures ReadSubmission(values, parse) == Some(r)
  {
    assert values[ProjectBlockId] == map[ProjectActionId := Typed(r.project)] by { assert EditBlockIds[0] == ProjectBlockId; }
    assert values[ManagerBlockId] == map[ManagerActionId := Typed(r.manager)] by { assert EditBlockIds[1] == ManagerBlockId; }
    assert values[HoursBlockId] == map[HoursActionId := Typed(r.hours.text)] by { assert EditBlockIds[2] == HoursBlockId; }
    assert values[StatusBlockId] == map[StatusActionId := Selected(r.sprintStatus)] by { assert EditBlockIds[3] == StatusBlockId; }
    assert values[GreenBlockId] == map[GreenActionId := Typed(r.green)] by { assert EditBlockIds[4] == GreenBlockId; }
    assert values[YellowBlockId] == map[YellowActionId := Typed(r.yellow)] by { assert EditBlockIds[5] == YellowBlockId; }
    assert values[RedBlockId] == map[RedActionId := Typed(r.red)] by { assert EditBlockIds[6] == RedBlockId; }
  }

  /** The i-th input of the edit modal is found under its own block id, holding its initial state. */
  lemma EditInputSubmits(id: string, r: Report, threadTs: string, i: int)
    requires 0 <= i < 7
    ensures var values := SubmittedUnchanged(BuildEditModal(id, r, threadTs).blocks);
            EditBlockIds[i] in values && values[EditBlockIds[i]] == map[EditActionIds[i] := EditFieldValues(r)[i]]
  {
    var blocks := BuildEditModal(id, r, threadTs).blocks;
    EditBlockIdsDistinct();
    SubmittedUnchangedAt(blocks, i);
  }

  /** The metadata the edit modal carries is what the save handler reads: the id and the preview's timestamp. */
  lemma EditMetadataRoundTrip(draftId: string, createdBy: string, r: Report, channels: seq<string>, messageTs: string, stored: Report)
    ensures var preview := BuildDraftBlocks(draftId, createdBy, r, channels);
            var view := BuildEditModal(preview[1].blockId, stored, OrEmpty(Some(messageTs)));
            view.privateMetadata.id == draftId && view.privateMetadata.threadTs == Some(messageTs)
  {
  }

  /**
    `saveDraftEditSubmission`. `metadata` is the parsed `private_metadata`,
    `values` the submitted state; `updateAck` is the answer of the datastore
    update. A failed update is only logged and the preview is left as it
    is; the answer of `chat.update` is only logged.
   */
  method SaveDraftEditSubmission(app: Workspace, inputs: DraftInputs, metadata: PrivateMetadata, values: StateValues,
                                 parse: string -> Hours, updateAck: Ack)
    returns (end: HandlerEnd)
    requires app.Valid()
    modifies app
    ensures app.Valid()
    ensures app.outcomes == old(app.outcomes)
    ensures ReadSubmission(values, parse).None? ==>
              end == Threw && app.drafts == old(app.drafts) && app.calls == old(app.calls)
    ensures ReadSubmission(values, parse).Some? ==>
              var r := ReadSubmission(values, parse).value;
              && end == Returned
              && app.drafts == (if updateAck.Ok? && metadata.id in old(app.drafts)
                                then old(app.drafts)[metadata.id := ApplyPatch(old(app.drafts)[metadata.id], SetReport(r))]
                                else old(app.drafts))
              && app.calls == old(app.calls)
                              + (if updateAck.Ok?
                                 then [UpdateMessage(inputs.channel, metadata.threadTs,
                                                     BuildDraftBlocks(metadata.id, inputs.createdBy, r, inputs.channels))]
                                 else [])
  {
    var submitted := ReadSubmission(values, parse);
    if submitted.None? {
      return Threw;
    }
    var r := submitted.value;
    app.UpdateDraft(metadata.id, SetReport(r), updateAck);
    if updateAck.Failed? {
      return Returned;
    }
    var blocks := BuildDraftBlocks(metadata.id, inputs.createdBy, r, inputs.channels);
    app.Call(UpdateMessage(inputs.channel, metadata.threadTs, blocks));
    return Returned;
  }

  /**
    An edit rewrites the seven report fields and nothing else: creator,
    destinations, review channel, preview timestamp and status stay.
   */
  lemma EditKeepsRecordIdentity(rec: DraftRecord, r: Report)
    ensures var edited := ApplyPatch(rec, SetReport(r));
            edited.report == r
            && edited == DraftRecord(rec.id, rec.createdBy, r, rec.channels, rec.channel, rec.messageTs, rec.status)
  {
  }

  /** The re-rendered preview keeps the correlation token: it still carries the same draft id. */
  lemma RerenderKeepsDraftId(id: string, createdBy: string, before: Report, after: Report, channels: seq<string>)
    ensures DraftIdOf(BuildDraftBlocks(id, createdBy, after, channels)) == DraftIdOf(BuildDraftBlocks(id, createdBy, before, channels))
    ensures BuildDraftBlocks(id, createdBy, after, channels)[..4] == BuildDraftBlocks(id, createdBy, before, channels)[..4]
  {
  }

  /** `confirmReportForSend`: opens the confirmation modal for the draft the button belongs to. */
  method ConfirmReportForSend(app: Workspace, inputs: DraftInputs, action: BlockAction) returns (end: HandlerEnd)
    requires app.Valid()
    modifies app
    ensures app.Valid()
    ensures end == Returned
    ensures app.drafts == old(app.drafts) && app.outcomes == old(app.outcomes)
    ensures app.calls == old(app.calls) + [OpenView(BuildConfirmSendModal(action.blockId, inputs.channels))]
  {
    var view := BuildConfirmSendModal(action.blockId, inputs.channels);
    app.Call(OpenView(view));
    return Returned;
  }

  /** The step's outputs assembled from a fetched item; an item with no fields leaves them unset. */
  function OutputsOf(id: string, fetched: Fetched): (outputs: DraftOutputs)
    requires !fetched.FetchFailed?
    ensures outputs.draftId == id
    ensures fetched.Item? <==> outputs.report.Some?
  {
    match fetched
    case Item(rec) => DraftOutputs(id, Some(rec.report), rec.messageTs)
    case EmptyItem => DraftOutputs(id, None, None)
  }

  const CompleteErrorText := "Error completing function"

  /**
    `prepareSendReport`: completes the step with the latest stored draft.
    A failed get is only logged: the step is neither completed nor failed.
   */
  method PrepareSendReport(app: Workspace, metadata: PrivateMetadata, fetchAck: Ack, completeAck: Ack)
    returns (end: HandlerEnd)
    requires app.Valid()
    modifies app
    ensures app.Valid()
    ensures end == Returned
    ensures app.drafts == old(app.drafts) && app.outcomes == old(app.outcomes)
    ensures fetchAck.Failed? ==> app.calls == old(app.calls)
    ensures fetchAck.Ok? ==>
              var outputs := OutputsOf(metadata.id, Fetch(old(app.drafts), metadata.id, fetchAck));
              app.calls == old(app.calls) + [CompleteSuccess(outputs)]
                           + (if completeAck.Failed? then [CompleteError(CompleteErrorText)] else [])
  {
    var fetched := Fetch(app.drafts, metadata.id, fetchAck);
    if fetched.FetchFailed? {
      return Returned;
    }
    var outputs := OutputsOf(metadata.id, fetched);
    app.Call(CompleteSuccess(outputs));
    if completeAck.Failed? {
      app.Call(CompleteError(CompleteErrorText));
    }
    return Returned;
  }

  /**
    The whole review: a draft created with the preview at `ts`, then edited
    to `edited`, completes with the edited fields, the preview's timestamp
    and the draft's id.
   */
  lemma ReviewOutputsLatestEdit(drafts: map<string, DraftRecord>, draftId: string, inputs: DraftInputs, ts: string, edited: Report)
    ensures var created := drafts[draftId := NewDraft(draftId, inputs).(messageTs := Some(ts))];
            var saved := created[draftId := ApplyPatch(created[draftId], SetReport(edited))];
            OutputsOf(draftId, Fetch(saved, draftId, Ok)) == DraftOutputs(draftId, Some(edited), Some(ts))
  {
  }

  /** Completion reflects the stored record: outputs echo its report and its preview timestamp. */
  lemma OutputsEchoRecord(drafts: map<string, DraftRecord>, id: string)
    requires id in drafts
    ensures OutputsOf(id, Fetch(drafts, id, Ok)) == DraftOutputs(id, Some(drafts[id].report), drafts[id].messageTs)
  {
  }
}
