/**
  The hosted state the app works against: the `drafts` and `reports`
  datastores, and the log of calls made to the chat gateway and to the
  workflow runtime. Every answer the hosted services give is a parameter
  of the method that receives it.
 */
module Platform {
  import opened Types
  import opened Slack

  /** A call the app makes to Slack, in the order it makes them. */
  datatype PlatformCall =
    | PostMessage(channel: string, blocks: seq<Block>, text: string)
    | GetPermalink(permalinkChannel: string, messageTs: string)
    | UpdateMessage(channel: string, ts: Option<string>, blocks: seq<Block>)
    | DeleteMessage(deleteChannel: Option<string>, deleteTs: Option<string>)
    | OpenView(view: ModalView)
    | CompleteSuccess(outputs: DraftOutputs)
    | CompleteError(error: string)

  /** A partial item given to `apps.datastore.update`: the fields it names overwrite the stored ones. */
  datatype DraftPatch =
    | SetMessageTs(ts: string)
    | SetReport(report: Report)
    | SetStatus(status: DraftStatus)

  function ApplyPatch(rec: DraftRecord, patch: DraftPatch): (updated: DraftRecord)
    ensures updated.id == rec.id && updated.createdBy == rec.createdBy
    ensures updated.channels == rec.channels && updated.channel == rec.channel
    ensures patch.SetMessageTs? ==> updated == rec.(messageTs := Some(patch.ts))
    ensures patch.SetReport? ==>
              updated.report == patch.report && updated.messageTs == rec.messageTs && updated.status == rec.status
    ensures patch.SetStatus? ==>
              updated.status == patch.status && updated.report == rec.report && updated.messageTs == rec.messageTs
  {
    match patch
    case SetMessageTs(ts) => rec.(messageTs := Some(ts))
    case SetReport(r) => rec.(report := r)
    case SetStatus(s) => rec.(status := s)
  }

  /**
    The drafts store after `apps.datastore.update` of one id: a successful
    update of a stored id patches that record alone; otherwise nothing changes.
   */
  function Updated(drafts: map<string, DraftRecord>, id: string, patch: DraftPatch, ack: Ack): (after: map<string, DraftRecord>)
    ensures after.Keys == drafts.Keys
    ensures forall k :: k in after && k != id ==> after[k] == drafts[k]
    ensures ack.Ok? && id in drafts ==> after[id] == ApplyPatch(drafts[id], patch)
    ensures ack.Failed? ==> after == drafts
  {
    if ack.Ok? && id in drafts then drafts[id := ApplyPatch(drafts[id], patch)] else drafts
  }

  /** Two successive edits of one stored draft leave what the later one wrote: last write wins. */
  lemma LastEditWins(drafts: map<string, DraftRecord>, id: string, first: Report, second: Report)
    ensures Updated(Updated(drafts, id, SetReport(first), Ok), id, SetReport(second), Ok)
            == Updated(drafts, id, SetReport(second), Ok)
  {
  }

  /** What `apps.datastore.get` answers. */
  datatype Fetched =
    | Item(record: DraftRecord)
    | EmptyItem               // ok, but no record under that id: the item has no fields
    | FetchFailed(error: string)

  /** `apps.datastore.get` on the drafts store, given whether the call went through. */
  function Fetch(drafts: map<string, DraftRecord>, id: string, ack: Ack): (f: Fetched)
    ensures ack.Failed? <==> f.FetchFailed?
    ensures f.Item? <==> ack.Ok? && id in drafts
    ensures f.Item? ==> f.record == drafts[id]
  {
    if ack.Failed? then FetchFailed(ack.error)
    else if id in drafts then Item(drafts[id])
    else EmptyItem
  }

  /** Every record is stored under its own id. */
  ghost predicate KeyedById(drafts: map<string, DraftRecord>)
  {
    forall id :: id in drafts ==> drafts[id].id == id
  }

  /** In a store keyed by id, the record a get returns is the one asked for. */
  lemma FetchedRecordHasId(drafts: map<string, DraftRecord>, id: string, ack: Ack)
    requires KeyedById(drafts)
    ensures Fetch(drafts, id, ack).Item? ==> Fetch(drafts, id, ack).record.id == id
  {
  }

  class Workspace {
    var drafts: map<string, DraftRecord>
    var outcomes: seq<OutcomeRecord>
    var calls: seq<PlatformCall>

    ghost predicate Valid()
      reads this
    {
      KeyedById(drafts)
    }

    constructor ()
      ensures Valid()
      ensures drafts == map[] && outcomes == [] && calls == []
    {
      drafts := map[];
      outcomes := [];
      calls := [];
    }

    /** `apps.datastore.put` of a draft: replaces whatever is stored under its id. */
    method PutDraft(rec: DraftRecord, ack: Ack)
      requires Valid()
      modifies this
      ensures Valid()
      ensures drafts == if ack.Ok? then old(drafts)[rec.id := rec] else old(drafts)
      ensures outcomes == old(outcomes) && calls == old(calls)
    {
      if ack.Ok? {
        drafts := drafts[rec.id := rec];
      }
    }

    /**
      `apps.datastore.update` of a draft. An update of an id with no record
      is not modelled (the map is left as it is).
     */
    method UpdateDraft(id: string, patch: DraftPatch, ack: Ack)
      requires Valid()
      modifies this
      ensures Valid()
      ensures drafts == Updated(old(drafts), id, patch, ack)
      ensures outcomes == old(outcomes) && calls == old(calls)
    {
      drafts := Updated(drafts, id, patch, ack);
    }

    /** `apps.datastore.put` of an outcome record into the reports datastore. */
    method PutOutcome(rec: OutcomeRecord, ack: Ack)
      requires Valid()
      modifies this
      ensures Valid()
      ensures outcomes == if ack.Ok? then old(outcomes) + [rec] else old(outcomes)
      ensures drafts == old(drafts) && calls == old(calls)
    {
      if ack.Ok? {
        outcomes := outcomes + [rec];
      }
    }

    /** A call to the chat gateway or the workflow runtime. */
    method Call(c: PlatformCall)
      requires Valid()
      modifies this
      ensures Valid()
      ensures calls == old(calls) + [c]
      ensures drafts == old(drafts) && outcomes == old(outcomes)
    {
      calls := calls + [c];
    }
  }
}
