/**
  The draft preview and the two modals of the review step
  (utils/create_draft/blocks.ts). The preview wraps the report layout in a
  header that carries the draft id as the `block_id` of its actions block,
  and a trailer.
 */
module DraftBlocks {
  import opened Types
  import opened Slack
  import opened ReportBlocks
  import SummaryBlocks

  const SendButtonActionId := "send_button"
  const SendButtonValue := "send"
  const OverflowActionId := "preview_overflow"
  const EditOptionValue := "edit_message_overflow"
  const EditModalCallbackId := "edit_message_modal"
  const ConfirmModalCallbackId := "confirm_send_modal"
  const StatusOptions := [":green-flag:", ":yellow-flag:", ":red-flag:"]
  const DraftBegin := "*_Draft Begin_*"
  const DraftEnd := "\n*_Draft End_*"

  /** `xs.join(sep)`. */
  function Join(xs: seq<string>, sep: string): (joined: string)
  {
    if |xs| == 0 then ""
    else if |xs| == 1 then xs[0]
    else xs[0] + sep + Join(xs[1..], sep)
  }

  /** `<#${channels.join(">, <#")}>`: the destination channels as mentions. */
  function ChannelList(channels: seq<string>): (s: string)
    ensures |s| >= 3 && s[..2] == "<#" && s[|s| - 1] == '>'
    ensures channels == [] ==> s == "<#>"
    ensures |channels| == 1 ==> s == SummaryBlocks.ChannelLink(channels[0])
  {
    "<#" + Join(channels, ">, <#") + ">"
  }

  /** The mentions written one by one, separated by ", ". */
  function Mentions(channels: seq<string>): (mentions: string)
  {
    if |channels| == 0 then ""
    else if |channels| == 1 then SummaryBlocks.ChannelLink(channels[0])
    else SummaryBlocks.ChannelLink(channels[0]) + ", " + Mentions(channels[1..])
  }

  /**
    For a non-empty list the join renders each channel as its own mention,
    in order, separated by ", ".
   */
  lemma {:induction false} ChannelListMentions(channels: seq<string>)
    requires |channels| >= 1
    ensures ChannelList(channels) == Mentions(channels)
  {
    if |channels| > 1 {
      ChannelListMentions(channels[1..]);
      var rest := Join(channels[1..], ">, <#");
      calc {
        ChannelList(channels);
        "<#" + (channels[0] + ">, <#" + rest) + ">";
        ("<#" + channels[0] + ">") + ", " + ("<#" + rest + ">");
        SummaryBlocks.ChannelLink(channels[0]) + ", " + Mentions(channels[1..]);
      }
    }
  }

  function DraftIntro(createdBy: string, channels: seq<string>): (intro: string)
  {
    ":pencil: *This is a draft report and has NOT been sent.*\n\n*Created by:* <@" + createdBy
    + ">\n*Sent to:* " + ChannelList(channels)
  }

  /** The actions block whose `block_id` carries the draft id. */
  function DraftActions(draftId: string): (b: Block)
  {
    Actions(draftId, [
      Button("primary", PlainText("Send Report"), SendButtonValue, SendButtonActionId),
      Overflow([Choice(PlainText("Edit the draft report"), EditOptionValue)], OverflowActionId)])
  }

  /** The draft id a preview carries: the `block_id` of its second block. */
  function DraftIdOf(blocks: seq<Block>): (id: Option<string>)
  {
    if |blocks| >= 2 && blocks[1].Actions? then Some(blocks[1].blockId) else None
  }

  /** `buildDraftBlocks`: five initial blocks, nine preview blocks, then the trailer. */
  function BuildDraftBlocks(draftId: string, createdBy: string, r: Report, channels: seq<string>): (blocks: seq<Block>)
    ensures |blocks| == 15
    ensures blocks[0] == Section(Mrkdwn(DraftIntro(createdBy, channels)))
    ensures DraftIdOf(blocks) == Some(draftId)
    ensures blocks[1].Actions? && |blocks[1].elements| == 2
    ensures blocks[1].elements[0].Button? && blocks[1].elements[0].actionId == SendButtonActionId
      && blocks[1].elements[0].value == SendButtonValue
    ensures blocks[1].elements[1].Overflow? && blocks[1].elements[1].actionId == OverflowActionId
      && |blocks[1].elements[1].options| == 1
      && blocks[1].elements[1].options[0].value == EditOptionValue
    ensures blocks[2] == Divider
    ensures blocks[3] == Context([Mrkdwn(DraftBegin)])
    ensures blocks[4..14] == BuildReportBlocks(r)
    ensures blocks[14] == Context([Mrkdwn(DraftEnd)])
  {
    var initialBlocks := [
      MrkdwnSectionBlock(DraftIntro(createdBy, channels)),
      DraftActions(draftId),
      DividerBlock(),
      SummaryBlocks.ContextBlock([SummaryBlocks.MrkdwnElement(DraftBegin)]),
      HeaderBlock(Title)];
    var previewBlocks := [
      ProjectFieldsBlock(r.project, r.manager, r.hours),
      MrkdwnSectionBlock(StatusLabel + r.sprintStatus),
      DividerBlock(),
      MrkdwnSectionBlock(GreenHeading),
      CodeBlock(r.green),
      MrkdwnSectionBlock(YellowHeading),
      CodeBlock(r.yellow),
      MrkdwnSectionBlock(RedHeading),
      CodeBlock(r.red)];
    var draftBlocks := initialBlocks + previewBlocks;
    draftBlocks + [SummaryBlocks.ContextBlock([SummaryBlocks.MrkdwnElement(DraftEnd)])]
  }

  /** The preview shows the report: reading blocks 4 to 13 back gives every field. */
  lemma DraftShowsReport(draftId: string, createdBy: string, r: Report, channels: seq<string>)
    ensures ReadReport(BuildDraftBlocks(draftId, createdBy, r, channels)[4..14]) == Some(r)
  {
    ReportRoundTrip(r);
  }

  function StatusChoice(status: string): (choice: Choice)
  {
    Choice(PlainText(status), status)
  }

  function TextInput(blockId: string, actionId: string, inputLabel: string, multiline: bool, initial: string): (b: Block)
  {
    Input(blockId, PlainText(inputLabel), PlainTextInput(actionId, multiline, initial))
  }

  /** The block and action ids of the edit modal's seven inputs. */
  const ProjectBlockId := "project_block"
  const ProjectActionId := "project_input"
  const ManagerBlockId := "manager_block"
  const ManagerActionId := "manager_input"
  const HoursBlockId := "hours_block"
  const HoursActionId := "hours_input"
  const StatusBlockId := "sprint_status_block"
  const StatusActionId := "sprint_status_input"
  const GreenBlockId := "green_block"
  const GreenActionId := "green_input"
  const YellowBlockId := "yellow_block"
  const YellowActionId := "yellow_input"
  const RedBlockId := "red_block"
  const RedActionId := "red_input"
  const EditBlockIds := [ProjectBlockId, ManagerBlockId, HoursBlockId, StatusBlockId, GreenBlockId, YellowBlockId, RedBlockId]
  const EditActionIds := [ProjectActionId, ManagerActionId, HoursActionId, StatusActionId, GreenActionId, YellowActionId, RedActionId]

  /** What each input holds when the modal opens: the draft's fields, the status as a selection. */
  function EditFieldValues(r: Report): (states: seq<InputState>)
    ensures |states| == 7
  {
    [Typed(r.project), Typed(r.manager), Typed(r.hours.text), Selected(r.sprintStatus),
     Typed(r.green), Typed(r.yellow), Typed(r.red)]
  }

  /** The seven inputs use seven different block ids, so none hides another's value. */
  lemma EditBlockIdsDistinct()
    ensures forall j, k :: 0 <= j < k < |EditBlockIds| ==> EditBlockIds[j] != EditBlockIds[k]
  {
  }

  /** `buildEditModal`: seven inputs pre-filled with the draft's fields. */
  function BuildEditModal(id: string, r: Report, threadTs: string): (view: ModalView)
    ensures view.callbackId == EditModalCallbackId
    ensures view.privateMetadata == PrivateMetadata(id, Some(threadTs))
    ensures |view.blocks| == 7
    ensures forall i :: 0 <= i < 7 ==>
              && view.blocks[i].Input? && view.blocks[i].blockId == EditBlockIds[i]
              && ElementActionId(view.blocks[i].element) == EditActionIds[i]
              && InitialState(view.blocks[i].element) == EditFieldValues(r)[i]
    ensures view.blocks[3].element.StaticSelect?
    ensures view.blocks[3].element.initialOption.value == r.sprintStatus
    ensures |view.blocks[3].element.options| == 3
    ensures forall i :: 0 <= i < 3 ==> view.blocks[3].element.options[i].value == StatusOptions[i]
  {
    ModalView(
      EditModalCallbackId,
      PrivateMetadata(id, Some(threadTs)),
      PlainText("Edit the draft report"),
      PlainText("Save"),
      PlainText("Cancel"),
      [
        TextInput(ProjectBlockId, ProjectActionId, "Project", false, r.project),
        TextInput(ManagerBlockId, ManagerActionId, "Project Manager", false, r.manager),
        Input(HoursBlockId, PlainText("Projected billable hours for the next week"),
              NumberInput(HoursActionId, true, r.hours.text)),
        Input(StatusBlockId, PlainText("Project Status"),
              StaticSelect(StatusActionId, StatusChoice(r.sprintStatus),
                           [StatusChoice(StatusOptions[0]), StatusChoice(StatusOptions[1]), StatusChoice(StatusOptions[2])])),
        TextInput(GreenBlockId, GreenActionId, "Success Stories", true, r.green),
        TextInput(YellowBlockId, YellowActionId, "Minor Issues", true, r.yellow),
        TextInput(RedBlockId, RedActionId, "Critical Issues", true, r.red)
      ])
  }

  const ChannelsIntro := "The report will be posted in the following channels:_\n"

  /** `buildConfirmSendModal`: a question and the destination channels; the metadata holds only the id. */
  function BuildConfirmSendModal(id: string, channels: seq<string>): (view: ModalView)
    ensures view.callbackId == ConfirmModalCallbackId
    ensures view.privateMetadata == PrivateMetadata(id, None)
    ensures |view.blocks| == 2
    ensures view.blocks[1] == Section(Mrkdwn(ChannelsIntro + ChannelList(channels)))
  {
    ModalView(
      ConfirmModalCallbackId,
      PrivateMetadata(id, None),
      PlainText("Send your report"),
      PlainText("Submit"),
      PlainText("Keep editing"),
      [
        Section(Mrkdwn("*Are you sure you want to send this report?* ")),
        Section(Mrkdwn(ChannelsIntro + ChannelList(channels)))
      ])
  }
}
