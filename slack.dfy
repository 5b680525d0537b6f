/**
  The Block Kit shapes the app builds (the subset of the Slack layout types
  it uses), modal views, and the submitted state of a modal's inputs.
 */
module Slack {
  import opened Types

  datatype Text = PlainText(text: string) | Mrkdwn(text: string)

  /** An option of an overflow menu or of a static select. */
  datatype Choice = Choice(text: Text, value: string)

  /** Interactive elements of an `actions` block. */
  datatype Element =
    | Button(style: string, text: Text, value: string, actionId: string)
    | Overflow(options: seq<Choice>, actionId: string)

  /** The element of an `input` block. */
  datatype InputElement =
    | PlainTextInput(actionId: string, multiline: bool, initialValue: string)
    | NumberInput(actionId: string, decimalAllowed: bool, initialValue: string)
    | StaticSelect(actionId: string, initialOption: Choice, options: seq<Choice>)

  datatype Block =
    | Header(text: Text)
    | Section(text: Text)
    | Fields(fields: seq<Text>)
    | Divider
    | Context(contextElements: seq<Text>)
    | Actions(blockId: string, elements: seq<Element>)
    | Input(blockId: string, inputLabel: Text, element: InputElement)

  /**
    The `private_metadata` of a modal. The source writes it with
    JSON.stringify and reads it back with JSON.parse; the model keeps the
    record itself. `threadTs` is absent when the writer did not set it.
   */
  datatype PrivateMetadata = PrivateMetadata(id: string, threadTs: Option<string>)

  datatype ModalView = ModalView(
    callbackId: string,
    privateMetadata: PrivateMetadata,
    title: Text,
    submit: Text,
    close: Text,
    blocks: seq<Block>)

  /** The submitted value of one input: `.value`, or `.selected_option.value` for a select. */
  datatype InputState = Typed(value: string) | Selected(value: string)

  /** `view.state.values`: block_id to action_id to submitted state. */
  type StateValues = map<string, map<string, InputState>>

  function ElementActionId(e: InputElement): (actionId: string)
  {
    match e
    case PlainTextInput(a, _, _) => a
    case NumberInput(a, _, _) => a
    case StaticSelect(a, _, _) => a
  }

  /** The state an input reports when the user submits it without touching it. */
  function InitialState(e: InputElement): (st: InputState)
    ensures e.StaticSelect? <==> st.Selected?
  {
    match e
    case PlainTextInput(_, _, v) => Typed(v)
    case NumberInput(_, _, v) => Typed(v)
    case StaticSelect(_, opt, _) => Selected(opt.value)
  }

  /** The state values of a modal submitted with every input left at its initial value. */
  function SubmittedUnchanged(blocks: seq<Block>): (values: StateValues)
    ensures forall k :: k in values ==> exists i :: 0 <= i < |blocks| && blocks[i].Input? && blocks[i].blockId == k
  {
    if blocks == [] then map[]
    else
      var rest := SubmittedUnchanged(blocks[1..]);
      match blocks[0]
      case Input(blockId, _, element) =>
        rest[blockId := map[ElementActionId(element) := InitialState(element)]]
      case _ => rest
  }

  /**
    An input block's submitted state is found under its `block_id`, as long
    as no earlier input block uses the same id.
   */
  lemma {:induction false} SubmittedUnchangedAt(blocks: seq<Block>, i: int)
    requires 0 <= i < |blocks| && blocks[i].Input?
    requires forall j :: 0 <= j < i ==> !(blocks[j].Input? && blocks[j].blockId == blocks[i].blockId)
    ensures blocks[i].blockId in SubmittedUnchanged(blocks)
    ensures SubmittedUnchanged(blocks)[blocks[i].blockId]
            == map[ElementActionId(blocks[i].element) := InitialState(blocks[i].element)]
  {
    if i > 0 {
      assert blocks[1..][i - 1] == blocks[i];
      SubmittedUnchangedAt(blocks[1..], i - 1);
    }
  }
}
