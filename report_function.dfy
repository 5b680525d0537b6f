/**
  The send step (functions/report_function.ts): post the report to every
  destination channel, record one outcome per attempt in the `reports`
  datastore, mark the draft sent and delete its preview, and start the
  append of the form answers to the responses spreadsheet.
 */
module ReportFunction {
  import opened Types
  import opened Slack
  import opened ReportBlocks
  import opened Platform
  import SummaryBlocks
  import DraftBlocks

  /** The fifteen yes/no answers of the form, in the order the step declares them. */
  datatype Checklist = Checklist(
    sprintProgress1: bool, sprintProgress2: bool, sprintProgress3: bool, sprintProgress4: bool, sprintProgress5: bool,
    sprintPlan1: bool, sprintPlan2: bool, sprintPlan3: bool,
    quality: bool,
    costAndTime1: bool, costAndTime2: bool, costAndTime3: bool,
    resource1: bool, resource2: bool, resource3: bool)

  /** The step's inputs; `draftId` is unset when no draft step ran before it. */
  datatype ReportInputs = ReportInputs(
    createdBy: string,
    report: Report,
    checklist: Checklist,
    channels: seq<string>,
    draftId: Option<string>)

  const ReportPostText := "A report was posted"

  /** `inputs.draft_id || crypto.randomUUID()`: an unset or empty id falls back to the fresh one. */
  function DraftTag(draftId: Option<string>, freshId: string): (tag: string)
    ensures draftId.Some? && draftId.value != "" ==> tag == draftId.value
    ensures draftId.None? || draftId.value == "" ==> tag == freshId
  {
    if draftId.Some? && draftId.value != "" then draftId.value else freshId
  }

  /**
    The tag the outcome records carry and the id the status update targets
    part ways when the step is given an empty draft id: every stored record
    carries the fresh id, while the update marks the id "" sent and leaves
    the record stored under the fresh id, if any, as it was.
   */
  lemma EmptyDraftIdSplitsTag(inputs: ReportInputs, freshId: string, answers: seq<ChannelAnswer>,
                              drafts: map<string, DraftRecord>)
    requires inputs.draftId == Some("") && freshId != ""
    ensures var records := StoredRecords(DraftTag(inputs.draftId, freshId), answers);
            forall k :: 0 <= k < |records| ==> records[k].draftId == freshId && records[k].draftId != inputs.draftId.value
    ensures freshId in drafts ==> MarkedSent(drafts, inputs.draftId.value)[freshId] == drafts[freshId]
  {
    StoredRecordsTagged(DraftTag(inputs.draftId, freshId), answers);
  }

  /** What the hosted services answer for one channel: the post, the permalink lookup, the record put. */
  datatype ChannelAnswer = ChannelAnswer(post: PostResponse, permalink: Option<string>, recordId: string, recordAck: Ack)

  /** The `ReportType` entry for one post. */
  function OutcomeOf(channel: string, post: PostResponse, permalink: Option<string>): (o: Outcome)
    ensures o.channelId == channel
    ensures o.success <==> post.Posted?
    ensures post.Posted? ==> o.permalink == permalink && o.error == None
    ensures post.PostFailed? ==> o.error == Some(post.error) && o.permalink == None
  {
    match post
    case Posted(_, _) => Outcome(channel, true, permalink, None)
    case PostFailed(error) => Outcome(channel, false, None, Some(error))
  }

  /** The item put into the `reports` datastore for one post. */
  function OutcomeRecordOf(recordId: string, draftTag: string, post: PostResponse): (rec: OutcomeRecord)
    ensures rec.id == recordId && rec.draftId == draftTag
    ensures rec.success <==> post.Posted?
    ensures post.Posted? ==> rec.channel == Some(post.channel) && rec.messageTs == Some(post.ts) && rec.errorMessage == None
    ensures post.PostFailed? ==> rec.errorMessage == Some(post.error) && rec.channel == None && rec.messageTs == None
  {
    match post
    case Posted(channel, ts) => OutcomeRecord(recordId, draftTag, true, None, Some(channel), Some(ts))
    case PostFailed(error) => OutcomeRecord(recordId, draftTag, false, Some(error), None, None)
  }

  /** The step's `reports` output: one outcome per channel, in channel order. */
  function Outcomes(channels: seq<string>, answers: seq<ChannelAnswer>): (reports: seq<Outcome>)
    requires |answers| == |channels|
    ensures |reports| == |channels|
    ensures forall i :: 0 <= i < |channels| ==> reports[i].channelId == channels[i]
    ensures forall i :: 0 <= i < |channels| ==> (reports[i].success <==> answers[i].post.Posted?)
  {
    seq(|channels|, i requires 0 <= i < |channels| => OutcomeOf(channels[i], answers[i].post, answers[i].permalink))
  }

  /** What one channel's put adds to the datastore: its record, when the put goes through. */
  function PutThrough(draftTag: string, answer: ChannelAnswer): (records: seq<OutcomeRecord>)
    ensures answer.recordAck.Ok? <==> records == [OutcomeRecordOf(answer.recordId, draftTag, answer.post)]
    ensures answer.recordAck.Failed? <==> records == []
  {
    if answer.recordAck.Ok? then [OutcomeRecordOf(answer.recordId, draftTag, answer.post)] else []
  }

  /** The outcome records that reach the datastore: those whose put went through, in order. */
  function StoredRecords(draftTag: string, answers: seq<ChannelAnswer>): (records: seq<OutcomeRecord>)
    ensures |records| <= |answers|
  {
    if answers == [] then []
    else
      StoredRecords(draftTag, answers[..|answers| - 1]) + PutThrough(draftTag, answers[|answers| - 1])
  }

  /** Every stored record carries the step's draft tag. */
  lemma {:induction false} StoredRecordsTagged(draftTag: string, answers: seq<ChannelAnswer>)
    ensures forall k :: 0 <= k < |StoredRecords(draftTag, answers)| ==> StoredRecords(draftTag, answers)[k].draftId == draftTag
  {
    if answers != [] {
      StoredRecordsTagged(draftTag, answers[..|answers| - 1]);
    }
  }

  /**
    When every put goes through there is exactly one record per attempt,
    in channel order, successful or not, with `success` the post's `ok`.
   */
  lemma {:induction false} StoredRecordsOnePerAttempt(draftTag: string, answers: seq<ChannelAnswer>)
    requires forall i :: 0 <= i < |answers| ==> answers[i].recordAck.Ok?
    ensures |StoredRecords(draftTag, answers)| == |answers|
    ensures forall i :: 0 <= i < |answers| ==>
              StoredRecords(draftTag, answers)[i] == OutcomeRecordOf(answers[i].recordId, draftTag, answers[i].post)
  {
    if answers != [] {
      var n := |answers| - 1;
      StoredRecordsOnePerAttempt(draftTag, answers[..n]);
    }
  }

  /** The posts the step makes: the same blocks to every channel, in channel order. */
  function Posts(channels: seq<string>, blocks: seq<Block>): (calls: seq<PlatformCall>)
    ensures |calls| == |channels|
    ensures forall i :: 0 <= i < |channels| ==> calls[i].PostMessage? && calls[i].channel == channels[i]
    ensures forall i :: 0 <= i < |channels| ==> calls[i].blocks == blocks
  {
    seq(|channels|, i requires 0 <= i < |channels| => PostMessage(channels[i], blocks, ReportPostText))
  }

  /** The gateway calls one channel's send makes: the post, then the permalink lookup when it went through. */
  function ChannelCalls(channel: string, blocks: seq<Block>, post: PostResponse): (calls: seq<PlatformCall>)
    ensures |calls| == if post.Posted? then 2 else 1
    ensures calls[0] == PostMessage(channel, blocks, ReportPostText)
    ensures post.Posted? ==> calls[1] == GetPermalink(channel, post.ts)
  {
    [PostMessage(channel, blocks, ReportPostText)]
    + (if post.Posted? then [GetPermalink(channel, post.ts)] else [])
  }

  /** The posts among some calls, in order. */
  function PostsIn(calls: seq<PlatformCall>): (posts: seq<PlatformCall>)
    ensures |posts| <= |calls|
    ensures forall i :: 0 <= i < |posts| ==> posts[i].PostMessage?
  {
    if calls == [] then []
    else PostsIn(calls[..|calls| - 1]) + (if calls[|calls| - 1].PostMessage? then [calls[|calls| - 1]] else [])
  }

  lemma {:induction false} PostsInAppend(a: seq<PlatformCall>, b: seq<PlatformCall>)
    ensures PostsIn(a + b) == PostsIn(a) + PostsIn(b)
  {
    if b == [] {
      assert a + b == a;
    } else {
      var n := |b| - 1;
      assert (a + b)[..|a + b| - 1] == a + b[..n];
      assert (a + b)[|a + b| - 1] == b[n];
      PostsInAppend(a, b[..n]);
    }
  }

  /** The gateway calls of the fan-out over the first `n` channels, channel after channel. */
  function SendCalls(channels: seq<string>, blocks: seq<Block>, answers: seq<ChannelAnswer>, n: nat): (calls: seq<PlatformCall>)
    requires |answers| == |channels| && n <= |channels|
  {
    if n == 0 then []
    else SendCalls(channels, blocks, answers, n - 1) + ChannelCalls(channels[n - 1], blocks, answers[n - 1].post)
  }

  /** The posts among the fan-out's calls are exactly `Posts`: every channel gets the report once, in order. */
  lemma {:induction false} SendCallsPosts(channels: seq<string>, blocks: seq<Block>, answers: seq<ChannelAnswer>, n: nat)
    requires |answers| == |channels| && n <= |channels|
    ensures PostsIn(SendCalls(channels, blocks, answers, n)) == Posts(channels[..n], blocks)
  {
    if n > 0 {
      SendCallsPosts(channels, blocks, answers, n - 1);
      PostsInAppend(SendCalls(channels, blocks, answers, n - 1), ChannelCalls(channels[n - 1], blocks, answers[n - 1].post));
      ChannelCallsPost(channels[n - 1], blocks, answers[n - 1].post);
      PostsStep(channels, blocks, n);
    }
  }

  /** One channel's calls hold exactly one post. */
  lemma ChannelCallsPost(channel: string, blocks: seq<Block>, post: PostResponse)
    ensures PostsIn(ChannelCalls(channel, blocks, post)) == [PostMessage(channel, blocks, ReportPostText)]
  {
    var calls := ChannelCalls(channel, blocks, post);
    if post.Posted? {
      assert calls[..1] == [calls[0]];
      assert [calls[0]][..0] == [];
    } else {
      assert calls[..0] == [];
    }
  }

  lemma PostsStep(channels: seq<string>, blocks: seq<Block>, n: nat)
    requires 0 < n <= |channels|
    ensures Posts(channels[..n], blocks) == Posts(channels[..n - 1], blocks) + [PostMessage(channels[n - 1], blocks, ReportPostText)]
  {
    assert channels[..n][..n - 1] == channels[..n - 1];
  }

  /** A permalink lookup follows every post that went through: two calls per channel, less one per failed post. */
  lemma {:induction false} SendCallsCount(channels: seq<string>, blocks: seq<Block>, answers: seq<ChannelAnswer>, n: nat)
    requires |answers| == |channels| && n <= |channels|
    ensures |SendCalls(channels, blocks, answers, n)| == 2 * n - FailedPosts(answers[..n])
  {
    if n > 0 {
      SendCallsCount(channels, blocks, answers, n - 1);
      assert answers[..n][..n - 1] == answers[..n - 1];
    }
  }

  /**
    The fan-out over the first i + 1 channels is the one over the first i
    followed by channel i's own send: its outcome and its record.
   */
  lemma SendStep(channels: seq<string>, blocks: seq<Block>, draftTag: string, answers: seq<ChannelAnswer>, i: int)
    requires |answers| == |channels| && 0 <= i < |channels|
    ensures Outcomes(channels[..i + 1], answers[..i + 1])
            == Outcomes(channels[..i], answers[..i]) + [OutcomeOf(channels[i], answers[i].post, answers[i].permalink)]
    ensures StoredRecords(draftTag, answers[..i + 1]) == StoredRecords(draftTag, answers[..i]) + PutThrough(draftTag, answers[i])
  {
    assert channels[..i + 1][..i] == channels[..i];
    assert answers[..i + 1][..i] == answers[..i];
  }

  /** `sendAndSaveReport`: one post, its permalink when it went through, and one outcome record; the put's answer is not looked at. */
  method SendAndSaveReport(app: Workspace, channel: string, blocks: seq<Block>, draftTag: string, answer: ChannelAnswer)
    returns (report: Outcome)
    requires app.Valid()
    modifies app
    ensures app.Valid()
    ensures report == OutcomeOf(channel, answer.post, answer.permalink)
    ensures app.calls == old(app.calls) + ChannelCalls(channel, blocks, answer.post)
    ensures app.outcomes == old(app.outcomes) + PutThrough(draftTag, answer)
    ensures app.drafts == old(app.drafts)
  {
    app.Call(PostMessage(channel, blocks, ReportPostText));
    if answer.post.Posted? {
      app.Call(GetPermalink(channel, answer.post.ts));
    }
    report := OutcomeOf(channel, answer.post, answer.permalink);
    app.PutOutcome(OutcomeRecordOf(answer.recordId, draftTag, answer.post), answer.recordAck);
  }

  // ---- the responses spreadsheet ----

  const GoogleSpreadsheetId := "1X46HVUfQIGVa5jIGZC6Z_fnBaqPw8-fcEweaL4kZQW4"
  const FirstColumn := 'A'
  const LastColumn := 'W'
  const GoogleSpreadsheetRange := "Responses!" + [FirstColumn] + "1:" + [LastColumn] + "1"

  /** A value of the appended row: the JSON string, number or boolean. */
  datatype Cell = TextCell(text: string) | NumberCell(hours: Hours) | BoolCell(flag: bool)

  /** `s.slice(1, -1)`: the string without its first and last character. */
  function SliceInner(s: string): (t: string)
    ensures |s| >= 2 ==> [s[0]] + t + [s[|s| - 1]] == s
    ensures |s| < 2 ==> t == ""
  {
    if |s| >= 2 then s[1..|s| - 1] else ""
  }

  /** A status written as an emoji code `:name:` lands in the sheet as `name`. */
  lemma SliceInnerStripsColons(name: string)
    ensures SliceInner(":" + name + ":") == name
  {
    var s := ":" + name + ":";
    assert s[1..|s| - 1] == name;
  }

  /** The statuses the edit modal offers reach the sheet as the flag names. */
  lemma StatusOptionsInSheet()
    ensures SliceInner(DraftBlocks.StatusOptions[0]) == "green-flag"
    ensures SliceInner(DraftBlocks.StatusOptions[1]) == "yellow-flag"
    ensures SliceInner(DraftBlocks.StatusOptions[2]) == "red-flag"
  {
    SliceInnerStripsColons("green-flag");
    SliceInnerStripsColons("yellow-flag");
    SliceInnerStripsColons("red-flag");
    assert DraftBlocks.StatusOptions[0] == ":" + "green-flag" + ":";
    assert DraftBlocks.StatusOptions[1] == ":" + "yellow-flag" + ":";
    assert DraftBlocks.StatusOptions[2] == ":" + "red-flag" + ":";
  }

  /** The fifteen answers in the order of the row. */
  function Checks(c: Checklist): (flags: seq<bool>)
    ensures |flags| == 15
  {
    [c.sprintProgress1, c.sprintProgress2, c.sprintProgress3, c.sprintProgress4, c.sprintProgress5,
     c.sprintPlan1, c.sprintPlan2, c.sprintPlan3,
     c.quality,
     c.costAndTime1, c.costAndTime2, c.costAndTime3,
     c.resource1, c.resource2, c.resource3]
  }

  /** The row appended to the sheet; it fills the range's columns exactly. */
  function SheetRow(submissionTime: string, r: Report, c: Checklist): (row: seq<Cell>)
    ensures |row| == (LastColumn as int) - (FirstColumn as int) + 1
    ensures row[0] == TextCell(submissionTime)
    ensures row[1] == TextCell(r.project) && row[2] == TextCell(r.manager) && row[3] == NumberCell(r.hours)
    ensures forall k :: 0 <= k < 15 ==> row[4 + k] == BoolCell(Checks(c)[k])
    ensures row[19] == TextCell(SliceInner(r.sprintStatus))
    ensures row[20] == TextCell(r.green) && row[21] == TextCell(r.yellow) && row[22] == TextCell(r.red)
  {
    [TextCell(submissionTime), TextCell(r.project), TextCell(r.manager), NumberCell(r.hours)]
    + seq(15, k requires 0 <= k < 15 => BoolCell(Checks(c)[k]))
    + [TextCell(SliceInner(r.sprintStatus)), TextCell(r.green), TextCell(r.yellow), TextCell(r.red)]
  }

  /** A row determines the report, apart from the status's first and last character, and the answers. */
  lemma SheetRowInjective(t1: string, r1: Report, c1: Checklist, t2: string, r2: Report, c2: Checklist)
    requires SheetRow(t1, r1, c1) == SheetRow(t2, r2, c2)
    ensures t1 == t2 && c1 == c2
    ensures r1.(sprintStatus := "") == r2.(sprintStatus := "")
    ensures SliceInner(r1.sprintStatus) == SliceInner(r2.sprintStatus)
  {
    var row1 := SheetRow(t1, r1, c1);
    var row2 := SheetRow(t2, r2, c2);
    assert row1[1] == row2[1] && row1[2] == row2[2] && row1[3] == row2[3];
    assert row1[20] == row2[20] && row1[21] == row2[21] && row1[22] == row2[22];
    assert Checks(c1) == Checks(c2) by {
      forall k | 0 <= k < 15 ensures Checks(c1)[k] == Checks(c2)[k] {
        assert row1[4 + k] == row2[4 + k];
      }
    }
  }

  datatype AuthResponse = Token(token: string) | AuthFailed(error: string)
  datatype HttpResponse = HttpOk | HttpFailed(statusText: string)

  /** The POST the step sends to the Sheets API. */
  datatype AppendRequest = AppendRequest(
    url: string,
    authorization: string,
    range: string,
    majorDimension: string,
    values: seq<seq<Cell>>)

  datatype SheetResult = SheetError(error: string) | SheetSaved

  /** What `saveResponsesGoogleSheet` does: the request it sends, if any, and what it resolves to. */
  datatype SheetSave = SheetSave(request: Option<AppendRequest>, result: SheetResult)

  function AppendUrl(): (url: string)
  {
    "https://sheets.googleapis.com/v4/spreadsheets/" + GoogleSpreadsheetId + "/values/" + GoogleSpreadsheetRange
    + ":append?valueInputOption=USER_ENTERED"
  }

  /**
    `saveResponsesGoogleSheet`. `submissionTime` is the ISO time it reads
    from the clock; `auth` and `response` are the answers of the credential
    exchange and of the Sheets API.
   */
  function SaveResponsesGoogleSheet(submissionTime: string, r: Report, c: Checklist, auth: AuthResponse, response: HttpResponse)
    : (s: SheetSave)
    ensures s.request.None? <==> auth.AuthFailed?
    ensures auth.AuthFailed? ==> s.result == SheetError("Failed to collect Google auth token: " + auth.error)
    ensures s.request.Some? ==>
              && s.request.value.authorization == "Bearer " + auth.token
              && s.request.value.range == GoogleSpreadsheetRange
              && s.request.value.majorDimension == "ROWS"
              && s.request.value.values == [SheetRow(submissionTime, r, c)]
    ensures auth.Token? ==> (s.result == SheetSaved <==> response.HttpOk?)
  {
    match auth
    case AuthFailed(error) => SheetSave(None, SheetError("Failed to collect Google auth token: " + error))
    case Token(token) =>
      var request := AppendRequest(AppendUrl(), "Bearer " + token, GoogleSpreadsheetRange, "ROWS",
                                   [SheetRow(submissionTime, r, c)]);
      match response
      case HttpOk => SheetSave(Some(request), SheetSaved)
      case HttpFailed(statusText) => SheetSave(Some(request), SheetError("Failed to save response: " + statusText))
  }

  // ---- the step's handler ----

  /** The handler's end: the `reports` output, or a throw before it returns. */
  datatype SendResult = Completed(reports: seq<Outcome>) | SendThrew

  /** The answers of the hosted calls the sheet save makes; they never reach the handler's result. */
  datatype SheetAnswers = SheetAnswers(submissionTime: string, auth: AuthResponse, response: HttpResponse)

  /** The fan-out over the destination channels, one `sendAndSaveReport` each, in channel order. */
  method SendAll(app: Workspace, channels: seq<string>, blocks: seq<Block>, draftTag: string, answers: seq<ChannelAnswer>)
    returns (reports: seq<Outcome>)
    requires app.Valid()
    requires |answers| == |channels|
    modifies app
    ensures app.Valid()
    ensures reports == Outcomes(channels, answers)
    ensures app.drafts == old(app.drafts)
    ensures app.outcomes == old(app.outcomes) + StoredRecords(draftTag, answers)
    ensures app.calls == old(app.calls) + SendCalls(channels, blocks, answers, |channels|)
  {
    reports := [];
    var i := 0;
    while i < |channels|
      invariant 0 <= i <= |channels|
      invariant app.Valid()
      invariant reports == Outcomes(channels[..i], answers[..i])
      invariant app.drafts == old(app.drafts)
      invariant app.outcomes == old(app.outcomes) + StoredRecords(draftTag, answers[..i])
      invariant app.calls == old(app.calls) + SendCalls(channels, blocks, answers, i)
    {
      reports := SendRound(app, channels, blocks, draftTag, answers, i, reports, old(app.outcomes), old(app.calls));
      i := i + 1;
    }
    assert channels[..i] == channels && answers[..i] == answers;
  }

  /**
    Round i of the fan-out: channel i's send extends the outcomes, the
    stored records and the calls of the first i channels by its own.
   */
  method SendRound(app: Workspace, channels: seq<string>, blocks: seq<Block>, draftTag: string, answers: seq<ChannelAnswer>,
                   i: int, reports: seq<Outcome>, ghost outcomes0: seq<OutcomeRecord>, ghost calls0: seq<PlatformCall>)
    returns (extended: seq<Outcome>)
    requires app.Valid()
    requires |answers| == |channels| && 0 <= i < |channels|
    requires reports == Outcomes(channels[..i], answers[..i])
    requires app.outcomes == outcomes0 + StoredRecords(draftTag, answers[..i])
    requires app.calls == calls0 + SendCalls(channels, blocks, answers, i)
    modifies app
    ensures app.Valid()
    ensures extended == Outcomes(channels[..i + 1], answers[..i + 1])
    ensures app.drafts == old(app.drafts)
    ensures app.outcomes == outcomes0 + StoredRecords(draftTag, answers[..i + 1])
    ensures app.calls == calls0 + SendCalls(channels, blocks, answers, i + 1)
  {
    var report := SendAndSaveReport(app, channels[i], blocks, draftTag, answers[i]);
    SendStep(channels, blocks, draftTag, answers, i);
    assert app.outcomes == outcomes0 + (StoredRecords(draftTag, answers[..i]) + PutThrough(draftTag, answers[i]));
    assert app.calls == calls0 + (SendCalls(channels, blocks, answers, i) + ChannelCalls(channels[i], blocks, answers[i].post));
    extended := reports + [report];
  }

  /** The drafts after the update marking `id` sent; an id with no record is not modelled. */
  function MarkedSent(drafts: map<string, DraftRecord>, id: string): (after: map<string, DraftRecord>)
    ensures after.Keys == drafts.Keys
    ensures id in drafts ==> after[id].status == Sent && after[id].report == drafts[id].report
    ensures id in drafts ==> after[id] == drafts[id].(status := Sent)
    ensures forall other :: other in drafts && other != id ==> after[other] == drafts[other]
  {
    if id in drafts then drafts[id := ApplyPatch(drafts[id], SetStatus(Sent))] else drafts
  }

  /**
    The `chat.delete` of the preview, addressed with the channel and the
    timestamp of the updated item; both are unset when no record was there.
   */
  function PreviewDelete(drafts: map<string, DraftRecord>, id: string): (call: PlatformCall)
    ensures call.DeleteMessage?
    ensures id in drafts ==> call.deleteChannel == Some(drafts[id].channel) && call.deleteTs == drafts[id].messageTs
    ensures id !in drafts ==> call.deleteChannel == None && call.deleteTs == None
  {
    if id in drafts then DeleteMessage(Some(drafts[id].channel), drafts[id].messageTs) else DeleteMessage(None, None)
  }

  /**
    The update marking the draft sent, then the delete of its preview.
    Returns whether reading the updated item throws: without an id, or
    when the update fails, the item is undefined.
   */
  method MarkSentAndDeletePreview(app: Workspace, draftId: Option<string>, statusAck: Ack) returns (threw: bool)
    requires app.Valid()
    modifies app
    ensures app.Valid()
    ensures threw <==> draftId.None? || statusAck.Failed?
    ensures app.outcomes == old(app.outcomes)
    ensures threw ==> app.drafts == old(app.drafts) && app.calls == old(app.calls)
    ensures !threw ==>
              && app.drafts == MarkedSent(old(app.drafts), draftId.value)
              && app.calls == old(app.calls) + [PreviewDelete(old(app.drafts), draftId.value)]
  {
    if draftId.None? {
      return true;
    }
    var id := draftId.value;
    var before := app.drafts;
    app.UpdateDraft(id, SetStatus(Sent), statusAck);
    if statusAck.Failed? {
      return true;
    }
    app.Call(PreviewDelete(before, id));
    return false;
  }

  /**
    The step's handler. `freshId` is its crypto.randomUUID(); `answers` the
    per-channel answers; `statusAck` the answer of the update marking the
    draft sent. Without a draft id, or when that update fails, reading the
    updated item throws after all the sends. The sheet save is started
    last and not awaited: its answers decide `sheet` and nothing else.
   */
  method SendReport(app: Workspace, inputs: ReportInputs, freshId: string, answers: seq<ChannelAnswer>,
                    statusAck: Ack, sheetAnswers: SheetAnswers)
    returns (result: SendResult, sheet: Option<SheetSave>)
    requires app.Valid()
    requires |answers| == |inputs.channels|
    modifies app
    ensures app.Valid()
    ensures result.SendThrew? <==> inputs.draftId.None? || statusAck.Failed?
    ensures result.Completed? ==> result.reports == Outcomes(inputs.channels, answers)
    ensures app.outcomes == old(app.outcomes) + StoredRecords(DraftTag(inputs.draftId, freshId), answers)
    ensures result.SendThrew? ==>
              && sheet == None
              && app.drafts == old(app.drafts)
              && app.calls == old(app.calls) + SendCalls(inputs.channels, BuildReportBlocks(inputs.report), answers, |answers|)
    ensures result.Completed? ==>
              && sheet == Some(SaveResponsesGoogleSheet(sheetAnswers.submissionTime, inputs.report, inputs.checklist,
                                                        sheetAnswers.auth, sheetAnswers.response))
              && app.drafts == MarkedSent(old(app.drafts), inputs.draftId.value)
              && app.calls == old(app.calls) + SendCalls(inputs.channels, BuildReportBlocks(inputs.report), answers, |answers|)
                              + [PreviewDelete(old(app.drafts), inputs.draftId.value)]
  {
    var draftTag := DraftTag(inputs.draftId, freshId);
    var blocks := BuildReportBlocks(inputs.report);
    var reports := SendAll(app, inputs.channels, blocks, draftTag, answers);

    var threw := MarkSentAndDeletePreview(app, inputs.draftId, statusAck);
    if threw {
      return SendThrew, None;
    }
    sheet := Some(SaveResponsesGoogleSheet(sheetAnswers.submissionTime, inputs.report, inputs.checklist,
                                           sheetAnswers.auth, sheetAnswers.response));
    return Completed(reports), sheet;
  }

  // ---- what the summary shows of the step's output ----

  /** The number of channels whose post failed. */
  function FailedPosts(answers: seq<ChannelAnswer>): (failed: nat)
  {
    if answers == [] then 0
    else FailedPosts(answers[..|answers| - 1]) + (if answers[|answers| - 1].post.PostFailed? then 1 else 0)
  }

  lemma {:induction false} OutcomesCountFailures(channels: seq<string>, answers: seq<ChannelAnswer>)
    requires |answers| == |channels|
    ensures SummaryBlocks.CountFailures(Outcomes(channels, answers)) == FailedPosts(answers)
  {
    if answers != [] {
      var n := |answers| - 1;
      OutcomesCountFailures(channels[..n], answers[..n]);
      assert Outcomes(channels, answers)[..n] == Outcomes(channels[..n], answers[..n]);
    }
  }

  /**
    For up to 48 channels the summary of the step's output shows exactly
    one failure line per failed post.
   */
  lemma SummaryCountsFailedPosts(channels: seq<string>, answers: seq<ChannelAnswer>)
    requires |answers| == |channels| <= SummaryBlocks.MaxLines
    ensures SummaryBlocks.CountErrorBlocks(SummaryBlocks.Summary(Outcomes(channels, answers))) == FailedPosts(answers)
  {
    SummaryBlocks.SummaryErrorCount(Outcomes(channels, answers));
    OutcomesCountFailures(channels, answers);
  }

  /** Each summary line names its channel, and a failure line shows the post's error. */
  lemma SummaryLineShowsChannel(channels: seq<string>, answers: seq<ChannelAnswer>, i: int)
    requires |answers| == |channels|
    requires 0 <= i < |channels| && i < SummaryBlocks.MaxLines
    ensures var line := SummaryBlocks.Summary(Outcomes(channels, answers))[i + 1];
            && line == SummaryBlocks.OutcomeBlock(OutcomeOf(channels[i], answers[i].post, answers[i].permalink))
            && SummaryBlocks.Contains(line.contextElements[0].text, SummaryBlocks.ChannelLink(channels[i]))
            && (answers[i].post.PostFailed? ==> SummaryBlocks.Contains(line.contextElements[0].text, answers[i].post.error))
  {
    SummaryBlocks.SummaryShowsOutcome(Outcomes(channels, answers), i);
    SummaryBlocks.OutcomeLineShape(OutcomeOf(channels[i], answers[i].post, answers[i].permalink));
  }

  /**
    The answers of the three-channel example: only the second post fails,
    the first and third each have their own response, and every put goes through.
   */
  function ThreeAnswers(okA: PostResponse, failed: PostResponse, okC: PostResponse,
                        pa: Option<string>, pc: Option<string>, ids: seq<string>)
    : (answers: seq<ChannelAnswer>)
    requires |ids| == 3
    ensures |answers| == 3
    ensures answers[0].post == okA && answers[1].post == failed && answers[2].post == okC
    ensures forall i :: 0 <= i < 3 ==> answers[i].recordAck.Ok? && answers[i].recordId == ids[i]
  {
    [ChannelAnswer(okA, pa, ids[0], Ok), ChannelAnswer(failed, None, ids[1], Ok), ChannelAnswer(okC, pc, ids[2], Ok)]
  }

  /**
    Three channels where only the second post fails: three outcomes in
    order, each from its own channel's post, and one failure line in the summary.
   */
  lemma OneFailureOfThree(a: string, b: string, c: string, okA: PostResponse, failed: PostResponse, okC: PostResponse,
                          pa: Option<string>, pc: Option<string>, ids: seq<string>)
    requires okA.Posted? && failed.PostFailed? && okC.Posted? && |ids| == 3
    ensures var reports := Outcomes([a, b, c], ThreeAnswers(okA, failed, okC, pa, pc, ids));
            && |reports| == 3
            && reports[0].success && !reports[1].success && reports[2].success
            && reports[0].permalink == pa && reports[2].permalink == pc
            && reports[1].error == Some(failed.error)
            && SummaryBlocks.CountErrorBlocks(SummaryBlocks.Summary(reports)) == 1
  {
    var answers := ThreeAnswers(okA, failed, okC, pa, pc, ids);
    SummaryCountsFailedPosts([a, b, c], answers);
    assert answers[..2][..1] == answers[..1];
    assert FailedPosts(answers[..1]) == 0;
    assert FailedPosts(answers[..2]) == 1;
  }

  /**
    The same three channels: all three outcome records are stored, each
    from its own channel's post, with the second one's error; the summary
    has four blocks whose first and third lines are those channels' success lines.
   */
  lemma TwoSuccessesOfThree(a: string, b: string, c: string, okA: PostResponse, failed: PostResponse, okC: PostResponse,
                            pa: Option<string>, pc: Option<string>, ids: seq<string>, tag: string)
    requires okA.Posted? && failed.PostFailed? && okC.Posted? && |ids| == 3
    ensures var records := StoredRecords(tag, ThreeAnswers(okA, failed, okC, pa, pc, ids));
            && |records| == 3
            && records[0].success && !records[1].success && records[2].success
            && records[0].messageTs == Some(okA.ts) && records[2].messageTs == Some(okC.ts)
            && records[1].errorMessage == Some(failed.error)
    ensures var summary := SummaryBlocks.Summary(Outcomes([a, b, c], ThreeAnswers(okA, failed, okC, pa, pc, ids)));
            && |summary| == 4
            && summary[1] == SummaryBlocks.OutcomeBlock(OutcomeOf(a, okA, pa))
            && summary[3] == SummaryBlocks.OutcomeBlock(OutcomeOf(c, okC, pc))
            && SummaryBlocks.IsPrefix(SummaryBlocks.SuccessMatcher, summary[1].contextElements[0].text)
            && SummaryBlocks.IsPrefix(SummaryBlocks.SuccessMatcher, summary[3].contextElements[0].text)
  {
    var answers := ThreeAnswers(okA, failed, okC, pa, pc, ids);
    StoredRecordsOnePerAttempt(tag, answers);
    var reports := Outcomes([a, b, c], answers);
    SummaryBlocks.SummaryShowsOutcome(reports, 0);
    SummaryBlocks.SummaryShowsOutcome(reports, 2);
  }
}
