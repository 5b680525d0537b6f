# Weekly project report app: a Dafny model

The app is a Slack workflow that collects a weekly project status report. It runs in three steps:

- **Draft step.** It stores the report as a draft and posts a preview to a review channel. It then stays open while a reviewer edits the draft in a modal and confirms it.
- **Send step.** It posts the final report to every destination channel. It records one outcome per attempt and marks the draft sent. It deletes the preview and appends the form answers to a responses spreadsheet.
- **Summary.** One line per outcome is posted back in the review thread.

This project models that core:

- the Block Kit layouts the app builds: the report, the draft preview, the edit and confirmation modals, and the send summary;
- the draft lifecycle over the hosted state.

The hosted state is a class `Platform.Workspace`. It holds three things:

- the `drafts` datastore, as a map from id to record;
- the `reports` datastore, as a sequence of outcome records;
- the log of calls made to the chat gateway and the workflow runtime.

Every answer a hosted service gives is a parameter of the method that receives it. So each handler is a short state machine whose contract states:

- the new map;
- the new record list;
- the calls made, in order;
- whether the handler returns or throws.

Modules follow the source files:

- `Types` and `Slack`: value types and layout types.
- `ReportBlocks`: utils/send_report/blocks.ts.
- `SummaryBlocks`: utils/post_summary/blocks.ts.
- `DraftBlocks`: utils/create_draft/blocks.ts.
- `Platform`: the hosted datastores and call log.
- `DraftFunction`: functions/draft_function.ts.
- `Interactivity`: utils/create_draft/interactivity_handler.ts.
- `ReportFunction`: functions/report_function.ts.

Three things the model keeps exactly as the code has them:

- **Empty draft id in the send step.** The outcome records are tagged with `inputs.draft_id || crypto.randomUUID()` (functions/report_function.ts:166). The status update, however, is addressed to `inputs.draft_id` itself (line 233). An empty id therefore tags the records with the fresh id and updates the id "" (`ReportFunction.EmptyDraftIdSplitsTag`).
- **`openDraftEditView` after a failed fetch.** It signals `completeError` and does not return. Its next statement reads a field of the missing item, so the handler then throws.
- **Number of yes/no questions.** The form declares, the step passes and the row writes 15 yes/no answers, so the row has 23 cells for `A1:W1`.

## Model

| member | source | states |
|---|---|---|
| Types.StatusValue | utils/create_draft/types.ts:3-6 | the stored status string is "draft" exactly for a draft and "sent" exactly for a sent one |
| ReportBlocks.HeaderBlock | utils/send_report/blocks.ts:111-119 | a header block whose plain text is the message |
| ReportBlocks.MrkdwnSectionBlock | utils/send_report/blocks.ts:121-129 | a section block whose mrkdwn text is the message |
| ReportBlocks.DividerBlock | utils/send_report/blocks.ts:131-135 | a divider block |
| ReportBlocks.CodeBlock | utils/send_report/blocks.ts:137-145 | a mrkdwn section from which dropping three characters at each end gives back the text it was built from |
| ReportBlocks.BuildReportBlocks | utils/send_report/blocks.ts:10-50 | exactly ten blocks in fixed order: the "Weekly Project Status" header, the three labelled fields, the status line, a divider, then heading and code pairs whose contents are green, yellow and red at indices 5, 7 and 9 |
| ReportBlocks.ReadReport | utils/send_report/blocks.ts:20-48 | a layout is read back only when it has the ten-block shape with the divider at index 3 |
| ReportBlocks.ReportRoundTrip | utils/send_report/blocks.ts:20-48 | reading the report layout back yields every one of the seven fields: the layout loses nothing |
| ReportBlocks.ReportBlocksInjective | utils/send_report/blocks.ts:20-48 | two reports with the same layout are the same report |
| SummaryBlocks.SuccessLineShape | utils/post_summary/blocks.ts:40 | a success line starts with ":white_check_mark:" and contains the permalink and the channel mention |
| SummaryBlocks.ErrorLineShape | utils/post_summary/blocks.ts:45-46 | a failure line starts with ":no_entry:" and contains the error and the channel mention |
| SummaryBlocks.OutcomeLine | utils/post_summary/blocks.ts:39-51 | the line of a successful outcome starts with ":white_check_mark:", that of a failed one with ":no_entry:" |
| SummaryBlocks.OutcomeLineShape | utils/post_summary/blocks.ts:39-51 | an outcome's line shows the permalink when it succeeded and the error when it failed, and always names its channel |
| SummaryBlocks.Lines | utils/post_summary/blocks.ts:39-51 | one context block per outcome, in input order |
| SummaryBlocks.ContextBlock | utils/post_summary/blocks.ts:56-61 | a context block holding exactly the given elements, in order |
| SummaryBlocks.MrkdwnElement | utils/post_summary/blocks.ts:63-68 | an mrkdwn element whose text is the given text |
| SummaryBlocks.TruncationBlock | utils/post_summary/blocks.ts:70-72 | a context block holding the single mrkdwn text ".... and more", which never counts as a failure line |
| SummaryBlocks.Frame | utils/post_summary/blocks.ts:20-37 | a heading followed by up to 48 lines, in order; with more than 48 lines it has exactly 50 blocks and the last is the truncation block |
| SummaryBlocks.Summary | utils/post_summary/blocks.ts:17-54 | starts with the "*Summary:*" section and never exceeds 50 blocks. With n ≤ 48 outcomes it has n+1 blocks; with more it has exactly 50, the last being ".... and more" |
| SummaryBlocks.SummaryShowsOutcome | utils/post_summary/blocks.ts:31-52 | block i+1 of the summary is the line of outcome i, for each of the first 48 outcomes |
| SummaryBlocks.SummaryBelowCutOff | utils/post_summary/blocks.ts:31-52 | with at most 48 outcomes nothing is cut: the summary is the heading followed by every outcome's line |
| SummaryBlocks.BuildSummaryBlocks | utils/post_summary/blocks.ts:17-54 | the loop with its early exit at 49 blocks returns exactly the summary above |
| SummaryBlocks.SummaryBodyIsContext | utils/post_summary/blocks.ts:31-72 | every block after the heading is a context block holding a single mrkdwn element |
| SummaryBlocks.OutcomeBlockIsError | utils/post_summary/blocks.ts:39-51 | a summary block starts with the error marker exactly when its outcome failed |
| SummaryBlocks.SummaryErrorCount | utils/post_summary/blocks.ts:31-52 | with at most 48 outcomes, the summary has exactly as many failure lines as there are failed outcomes |
| DraftBlocks.ChannelListMentions | utils/create_draft/blocks.ts:25 | `<#` + channels joined by `>, <#` + `>` is each channel's own mention, in order, separated by ", " |
| DraftBlocks.ChannelList | utils/create_draft/blocks.ts:25 | the list starts with "<#" and ends with ">"; no channel renders as "<#>", one channel as its own mention |
| DraftBlocks.BuildDraftBlocks | utils/create_draft/blocks.ts:10-97 | exactly 15 blocks. Block 0 names the creator and the channels. Block 1 is an actions block whose block_id is the draft id, with the "send_button" button (value "send") and the "preview_overflow" menu whose single option is "edit_message_overflow". Then come the divider, the Draft Begin context, the ten report blocks at 4..13, and the Draft End context |
| DraftBlocks.DraftShowsReport | utils/create_draft/blocks.ts:58-88 | the report read back from a preview's blocks 4..13 is the draft's report |
| DraftBlocks.BuildEditModal | utils/create_draft/blocks.ts:100-272 | callback "edit_message_modal" and metadata of exactly the id and the thread timestamp. It has seven input blocks, project to red, each under its own block_id and action_id and pre-filled with the draft's field. The status select's initial option is the current status, chosen among exactly ":green-flag:", ":yellow-flag:" and ":red-flag:" |
| DraftBlocks.EditBlockIdsDistinct | utils/create_draft/blocks.ts:134-254 | the seven inputs' block ids are pairwise different |
| DraftBlocks.BuildConfirmSendModal | utils/create_draft/blocks.ts:275-317 | callback "confirm_send_modal", metadata of the id alone, and the destination channels rendered like the preview's |
| Platform.ApplyPatch | utils/create_draft/interactivity_handler.ts:92-104 | a partial update overwrites only the fields it names; the id, creator, destinations and review channel never change |
| Platform.Updated | functions/draft_function.ts:211-219 | an update keeps the store's ids; a successful update of a stored id patches that record alone, and a failed one changes nothing |
| Platform.LastEditWins | utils/create_draft/interactivity_handler.ts:92-104 | two successive report edits of one draft leave the store as the later edit alone would |
| Platform.Fetch | utils/create_draft/interactivity_handler.ts:160-177 | a get fails exactly when the call fails. It yields a record exactly when the call succeeds and the id is stored, and that record is the stored one |
| Platform.FetchedRecordHasId | utils/create_draft/interactivity_handler.ts:160-177 | in a store that keeps every record under its own id, which every workspace operation preserves, a fetched record's id is the id asked for |
| Platform.Workspace.PutDraft | functions/draft_function.ts:151-169 | a successful put stores the record under its id; the rest of the state is unchanged |
| Platform.Workspace.UpdateDraft | functions/draft_function.ts:211-219 | a successful update of a stored id applies the patch to that record alone, the new store being `Updated` of the old |
| Platform.Workspace.PutOutcome | functions/report_function.ts:311-321 | a successful put appends the outcome record |
| DraftFunction.NewDraft | functions/draft_function.ts:155-168 | the stored draft has the fresh id, status draft, no preview timestamp and the input fields |
| DraftFunction.CreateDraft | functions/draft_function.ts:143-238 | the record is stored before anything is posted, and a failed put returns the save error with nothing posted. The preview posted to the review channel is the draft layout for the new id. A failed post returns the post error and leaves the record without a timestamp. After a successful post the record holds the returned ts, or the step returns the timestamp error. Success returns "not completed" |
| DraftFunction.CreateDraftAddsOneRecord | functions/draft_function.ts:147-169 | a successful run on a fresh id adds exactly one record, under that id |
| DraftFunction.Route | functions/draft_function.ts:239-251 | each handler is reached by exactly one interaction: "preview_overflow" opens the editor, "edit_message_modal" saves, "send_button" confirms, and "confirm_send_modal" finishes |
| DraftFunction.ControlsAreRouted | functions/draft_function.ts:239-251 | the preview's button and menu and the two modals' callbacks all reach their handlers |
| Interactivity.OrEmpty | utils/create_draft/interactivity_handler.ts:51 | a missing message timestamp becomes "" |
| Interactivity.ReadSubmission | utils/create_draft/interactivity_handler.ts:82-88 | a report is read exactly when all seven inputs are present with the right kind; its fields are the submitted values, the hours read with `Number` |
| Interactivity.OpenDraftEditView | utils/create_draft/interactivity_handler.ts:11-73 | it acts only for the "edit_message_overflow" option, with the action's block_id as id. A failed get signals the error and then throws; an id with no record throws. A stored draft opens the edit modal pre-filled from the record, followed by an error completion if opening fails. The datastores are never changed |
| Interactivity.EditModalRoundTrip | utils/create_draft/interactivity_handler.ts:82-88 | submitting the edit modal with every input as it was reads back exactly the report it was built from |
| Interactivity.EditInputSubmits | utils/create_draft/blocks.ts:131-262 | submitting the edit modal untouched, each input's state is found under its block_id and action_id and is the field it was filled with |
| Interactivity.ReadFieldValues | utils/create_draft/interactivity_handler.ts:82-88 | state values holding the seven fields under the modal's ids are read back as that report |
| Interactivity.EditMetadataRoundTrip | utils/create_draft/interactivity_handler.ts:80 | the edit modal opened from a preview carries that preview's draft id and the preview message's timestamp |
| Interactivity.SaveDraftEditSubmission | utils/create_draft/interactivity_handler.ts:75-137 | it writes the seven submitted fields of the metadata's draft. A failed update re-renders nothing. Otherwise the message at the metadata's thread timestamp is updated with the draft layout for the same id |
| Interactivity.EditKeepsRecordIdentity | utils/create_draft/interactivity_handler.ts:92-104 | an edit changes the report and leaves the creator, destinations, review channel, preview timestamp and status as they were |
| Interactivity.RerenderKeepsDraftId | utils/create_draft/interactivity_handler.ts:113-124 | the re-rendered preview keeps the draft id as its block_id and the same four leading blocks |
| Interactivity.ConfirmReportForSend | utils/create_draft/interactivity_handler.ts:140-152 | it opens the confirmation modal for the action's block_id and changes no datastore |
| Interactivity.OutputsOf | utils/create_draft/interactivity_handler.ts:177-191 | the outputs carry the metadata id as draft_id, and carry a report exactly when a record was found |
| Interactivity.PrepareSendReport | utils/create_draft/interactivity_handler.ts:154-206 | a failed get neither completes nor fails the step. Otherwise the step completes with the fetched record's outputs, followed by an error completion if that call fails |
| Interactivity.ReviewOutputsLatestEdit | utils/create_draft/interactivity_handler.ts:177-191 | a draft created with preview ts and then edited completes with the edited fields, that ts and its id |
| Interactivity.OutputsEchoRecord | utils/create_draft/interactivity_handler.ts:181-191 | the outputs echo the stored record's report and message timestamp |
| ReportFunction.DraftTag | functions/report_function.ts:166 | a non-empty draft id is kept; an unset or empty one falls back to the fresh id |
| ReportFunction.EmptyDraftIdSplitsTag | functions/report_function.ts:166-236 | with an empty draft id every stored outcome record carries the fresh id, not "", while the status update marks the id "" and leaves the record stored under the fresh id as it was |
| ReportFunction.OutcomeOf | functions/report_function.ts:286-309 | the outcome's channel_id is the channel and success is the post's ok. A success carries the permalink and no error; a failure carries the post's error and no permalink |
| ReportFunction.OutcomeRecordOf | functions/report_function.ts:311-321 | the record carries the draft tag and success equal to the post's ok. It carries the post's channel and ts on success and the post's error on failure |
| ReportFunction.Outcomes | functions/report_function.ts:180-191 | exactly one outcome per destination channel, in channel order, each successful exactly when its post was |
| ReportFunction.PutThrough | functions/report_function.ts:311-321 | one channel's put adds that channel's outcome record when it goes through, and nothing when it fails |
| ReportFunction.StoredRecords | functions/report_function.ts:311-321 | there are never more records than attempts |
| ReportFunction.StoredRecordsTagged | functions/report_function.ts:311-321 | every stored record carries the step's draft tag |
| ReportFunction.StoredRecordsOnePerAttempt | functions/report_function.ts:311-321 | when every put goes through there is exactly one record per attempt, successful or not, in channel order |
| ReportFunction.Posts | functions/report_function.ts:170-189 | every channel receives the same block list, in channel order |
| ReportFunction.ChannelCalls | functions/report_function.ts:284-293 | one channel's send posts the report to that channel and, only when the post went through, looks up the permalink of that channel's new message ts |
| ReportFunction.SendCallsPosts | functions/report_function.ts:180-189 | the posts among the fan-out's gateway calls are exactly the same report to every channel, in channel order |
| ReportFunction.SendCallsCount | functions/report_function.ts:284-293 | the fan-out makes two gateway calls per channel, less one for each failed post |
| ReportFunction.SendAndSaveReport | functions/report_function.ts:275-325 | one post to the channel, the permalink lookup when it went through, the outcome of that post, and the record appended when its put goes through; drafts unchanged |
| ReportFunction.SendAll | functions/report_function.ts:180-191 | the fan-out returns the outcomes of all channels in order, stores the records whose puts go through, and logs each channel's calls in channel order |
| ReportFunction.SendRound | functions/report_function.ts:180-188 | one round of the fan-out extends the outcomes, records and calls of the earlier channels by channel i's own |
| ReportFunction.MarkedSent | functions/report_function.ts:228-236 | marking sent changes the status of that draft alone; the rest of its record and every other record stay as they were |
| ReportFunction.PreviewDelete | functions/report_function.ts:238-241 | the delete is addressed to the draft's review channel and preview timestamp, both unset when no record was there |
| ReportFunction.MarkSentAndDeletePreview | functions/report_function.ts:228-241 | it throws exactly when there is no draft id or the update fails. Otherwise the draft is marked sent and its preview deleted once |
| ReportFunction.SendReport | functions/report_function.ts:160-273 | the reports output is the per-channel outcomes, in channel order, and does not depend on the spreadsheet's answers. Each channel gets one post and, when it went through, one permalink lookup. One record is stored per put that goes through. It throws after all the sends exactly when there is no draft id or the status update fails. Otherwise the draft is marked sent, its preview deleted, and the sheet save started |
| ReportFunction.SliceInner | functions/report_function.ts:397 | the result is the string without its first and last character |
| ReportFunction.SliceInnerStripsColons | functions/report_function.ts:397 | a status written `:name:` reaches the sheet as `name` |
| ReportFunction.StatusOptionsInSheet | functions/report_function.ts:397 | the three statuses the edit modal offers reach the sheet as "green-flag", "yellow-flag" and "red-flag" |
| ReportFunction.SheetRow | functions/report_function.ts:377-401 | the row has exactly as many cells as the range A1:W1 has columns (23). In order: the submission time, project, manager and hours, the fifteen answers at 4..18, the stripped status at 19, then green, yellow and red |
| ReportFunction.SheetRowInjective | functions/report_function.ts:377-401 | a row determines the time, the answers and the report, except for the status's outer characters |
| ReportFunction.SaveResponsesGoogleSheet | functions/report_function.ts:327-413 | a failed credential exchange sends nothing and resolves to the token error. Otherwise one request is sent, to the range with ROWS, carrying the bearer token and exactly the one row. It resolves to success exactly when the HTTP answer is ok |
| ReportFunction.SummaryCountsFailedPosts | functions/report_function.ts:286-309 | for up to 48 channels, the summary of the step's output has one failure line per failed post |
| ReportFunction.SummaryLineShowsChannel | utils/post_summary/blocks.ts:39-51 | summary line i is channel i's outcome: it names that channel, and for a failed post it shows the post's error |
| ReportFunction.OneFailureOfThree | functions/report_function.ts:180-191 | with channels A, B, C where only B's post fails: three outcomes in order, A and C each with its own permalink, only the second failed with B's error, and one failure line in the summary |
| ReportFunction.TwoSuccessesOfThree | functions/report_function.ts:180-191 | in the same example three records are stored: A's and C's successful with their own message ts, B's failed with B's error. The summary has four blocks, and lines 1 and 3 are A's and C's own success lines |

## Left out

- Networking and the hosted services are not modelled: the datastores, the chat gateway, views, function completion, the OAuth exchange and the `fetch` to the Sheets API. Each call's answer is a parameter. Each call to the chat gateway or the workflow runtime, permalink lookups included, is an entry of the call log; datastore operations change the modelled datastores, and the Sheets request is the value the save returns. Console logging is omitted.
- `Promise.all` concurrency in the send step is not modelled. Posts and record puts run in channel order, so the order of stored records is the channel order rather than a completion order.
- Hours are not modelled as floating point. An hours value is identified with its rendering, and `Number(...)` is a parameter `parse`. The edit round trip assumes `parse` reads a rendering back.
- JSON encoding of `private_metadata` is not modelled; the model keeps the decoded record.
- `crypto.randomUUID()` and the submission clock are inputs, not modelled.
- Platform.Workspace.UpdateDraft: an update of an id with no record leaves the map unchanged. The hosted store would create a partial item.
- Platform.Updated: an update of an id with no record leaves the map unchanged, as in `UpdateDraft`; the hosted store would create a partial item.
- An update addressed to an unset draft id is taken to fail in the send step, so the handler throws.
- Interactivity.ReadSubmission: a missing input, or one of the wrong kind, makes the save handler throw. In the source a wrong-kind input yields `undefined` fields.
- Emoji rendering and Slack's own validation of layouts (lengths, required fields) are not modelled.
- The workflow's wiring is not modelled. workflows/report_workflow.ts:241-244 passes the first sprint-progress answer for answers 2 to 5; the model takes the fifteen answers as given.
- functions/summary_function.ts is not part of this model; it is a single post of the summary blocks. functions/get_google_access.ts is not part of this model either; it is an auth wrapper.
- The `reports` datastore's definition is not part of this model; its item shape is taken from the put at functions/report_function.ts:311-321.
- Labels and the title, submit and close texts of the modals are built but not stated in contracts. The `states` column lists what the contracts fix.
