/**
  The send summary posted back in the draft's thread
  (utils/post_summary/blocks.ts): a heading, one context line per send
  outcome in input order, cut off with an "and more" marker so that the
  message never exceeds MaxBlocksLength blocks.
 */
module SummaryBlocks {
  import opened Types
  import opened Slack

  const MaxBlocksLength := 50
  const SuccessMatcher := ":white_check_mark:"
  const ErrorMatcher := ":no_entry:"
  const SpreadsheetUrl := "https://docs.google.com/spreadsheets/d/1X46HVUfQIGVa5jIGZC6Z_fnBaqPw8-fcEweaL4kZQW4/edit?ouid=117956134448797095619"

  /** At most this many outcome lines fit beside the heading and the marker. */
  const MaxLines := MaxBlocksLength - 2

  const TruncationText := ".... and more"

  /** `contextBlock(...elements)`: a context block holding the elements in order. */
  function ContextBlock(elements: seq<Text>): (b: Block)
    ensures b.Context? && b.contextElements == elements
  {
    Context(elements)
  }

  /** `mrkdwnElement(text)`: the text as an mrkdwn element. */
  function MrkdwnElement(text: string): (t: Text)
    ensures t.Mrkdwn? && t.text == text
  {
    Mrkdwn(text)
  }

  /** `truncationBlock()`: the "and more" marker, which never reads as a failure line. */
  function TruncationBlock(): (b: Block)
    ensures b.Context? && b.contextElements == [Mrkdwn(TruncationText)]
    ensures !IsErrorBlock(b)
  {
    assert TruncationText[0] != ErrorMatcher[0];
    ContextBlock([MrkdwnElement(TruncationText)])
  }

  function SummaryHeading(): (b: Block)
  {
    Section(Mrkdwn("*Summary:*"))
  }

  /** The channel mention `<#C123>`. */
  function ChannelLink(channelId: string): (link: string)
  {
    "<#" + channelId + ">"
  }

  const SentTo := "| Weekly Report> sent to "
  const CollectedTail := " and being collected <" + SpreadsheetUrl + " | here>!"
  const ErrorTail := "` error sending to "

  function SuccessLine(o: Outcome): (line: string)
  {
    SuccessMatcher + " <" + Render(o.permalink) + SentTo + ChannelLink(o.channelId) + CollectedTail
  }

  function ErrorLine(o: Outcome): (line: string)
  {
    ErrorMatcher + " `" + Render(o.error) + ErrorTail + ChannelLink(o.channelId)
  }

  predicate IsPrefix(p: string, s: string): (prefixed: bool)
  {
    |p| <= |s| && s[..|p|] == p
  }

  /** Whether `part` occurs in `s`. */
  ghost predicate Contains(s: string, part: string)
  {
    exists k :: 0 <= k <= |s| && IsPrefix(part, s[k..])
  }

  lemma ContainsMiddle(before: string, part: string, after: string)
    ensures Contains(before + part + after, part)
  {
    var s := before + part + after;
    assert s[|before|..] == part + after;
    assert IsPrefix(part, s[|before|..]);
  }

  lemma PrefixOfAppend(p: string, rest: string)
    ensures IsPrefix(p, p + rest)
  {
    assert (p + rest)[..|p|] == p;
  }

  lemma PrefixTransitive(p: string, q: string, s: string)
    requires IsPrefix(p, q) && IsPrefix(q, s)
    ensures IsPrefix(p, s)
  {
    assert s[..|p|] == s[..|q|][..|p|];
  }

  /** A line built as a + b + c + d + e starts with a and contains b and d. */
  lemma LineParts(a: string, b: string, c: string, d: string, e: string)
    ensures IsPrefix(a, a + b + c + d + e)
    ensures Contains(a + b + c + d + e, b)
    ensures Contains(a + b + c + d + e, d)
  {
    var s := a + b + c + d + e;
    assert s == a + (b + c + d + e);
    PrefixOfAppend(a, b + c + d + e);
    assert s == a + b + (c + d + e);
    ContainsMiddle(a, b, c + d + e);
    assert s == a + b + c + d + e;
    ContainsMiddle(a + b + c, d, e);
  }

  lemma SuccessLineShape(o: Outcome)
    ensures IsPrefix(SuccessMatcher, SuccessLine(o))
    ensures Contains(SuccessLine(o), Render(o.permalink))
    ensures Contains(SuccessLine(o), ChannelLink(o.channelId))
  {
    var head := SuccessMatcher + " <";
    LineParts(head, Render(o.permalink), SentTo, ChannelLink(o.channelId), CollectedTail);
    PrefixOfAppend(SuccessMatcher, " <");
    PrefixTransitive(SuccessMatcher, head, SuccessLine(o));
  }

  lemma ErrorLineShape(o: Outcome)
    ensures IsPrefix(ErrorMatcher, ErrorLine(o))
    ensures Contains(ErrorLine(o), Render(o.error))
    ensures Contains(ErrorLine(o), ChannelLink(o.channelId))
  {
    var head := ErrorMatcher + " `";
    LineParts(head, Render(o.error), ErrorTail, ChannelLink(o.channelId), "");
    assert ErrorLine(o) == head + Render(o.error) + ErrorTail + ChannelLink(o.channelId) + "";
    PrefixOfAppend(ErrorMatcher, " `");
    PrefixTransitive(ErrorMatcher, head, ErrorLine(o));
  }

  /** The line shown for one outcome: it starts with the marker of its kind. */
  function OutcomeLine(o: Outcome): (line: string)
    ensures o.success ==> IsPrefix(SuccessMatcher, line)
    ensures !o.success ==> IsPrefix(ErrorMatcher, line)
  {
    if o.success then
      SuccessLineShape(o);
      SuccessLine(o)
    else
      ErrorLineShape(o);
      ErrorLine(o)
  }

  /**
    A success line starts with the success marker and shows the permalink
    and the channel; a failure line starts with the error marker and shows
    the error and the channel.
   */
  lemma OutcomeLineShape(o: Outcome)
    ensures o.success ==> Contains(OutcomeLine(o), Render(o.permalink))
    ensures !o.success ==> Contains(OutcomeLine(o), Render(o.error))
    ensures Contains(OutcomeLine(o), ChannelLink(o.channelId))
  {
    if o.success {
      SuccessLineShape(o);
    } else {
      ErrorLineShape(o);
    }
  }

  function OutcomeBlock(o: Outcome): (b: Block)
  {
    ContextBlock([MrkdwnElement(OutcomeLine(o))])
  }

  /** One context block per outcome, in order. */
  function Lines(outcomes: seq<Outcome>): (blocks: seq<Block>)
    ensures |blocks| == |outcomes|
    ensures forall i :: 0 <= i < |outcomes| ==> blocks[i] == OutcomeBlock(outcomes[i])
  {
    seq(|outcomes|, i requires 0 <= i < |outcomes| => OutcomeBlock(outcomes[i]))
  }

  /** The heading, then at most MaxLines of `lines`, then the marker if any were cut. */
  function Frame(lines: seq<Block>): (blocks: seq<Block>)
    ensures 1 <= |blocks| <= MaxBlocksLength
    ensures blocks[0] == SummaryHeading()
    ensures |lines| <= MaxLines ==> |blocks| == |lines| + 1
    ensures |lines| > MaxLines ==> |blocks| == MaxBlocksLength && blocks[MaxBlocksLength - 1] == TruncationBlock()
    ensures forall i :: 0 <= i < |lines| && i < MaxLines ==> blocks[i + 1] == lines[i]
  {
    if |lines| <= MaxLines then [SummaryHeading()] + lines
    else [SummaryHeading()] + lines[..MaxLines] + [TruncationBlock()]
  }

  /** What `buildSummaryBlocks` returns, stated without its loop. */
  function Summary(outcomes: seq<Outcome>): (blocks: seq<Block>)
    ensures 1 <= |blocks| <= MaxBlocksLength
    ensures blocks[0] == SummaryHeading()
    ensures |outcomes| <= MaxLines ==> |blocks| == |outcomes| + 1
    ensures |outcomes| > MaxLines ==> |blocks| == MaxBlocksLength && blocks[MaxBlocksLength - 1] == TruncationBlock()
  {
    Frame(Lines(outcomes))
  }

  /** Summary block i+1 is the line of outcome i: the input order is kept. */
  lemma SummaryShowsOutcome(outcomes: seq<Outcome>, i: int)
    requires 0 <= i < |outcomes| && i < MaxLines
    ensures Summary(outcomes)[i + 1] == OutcomeBlock(outcomes[i])
  {
    assert Summary(outcomes)[i + 1] == Lines(outcomes)[i];
  }

  /** `buildSummaryBlocks`: the loop with its early exit once 49 blocks are out. */
  method BuildSummaryBlocks(reportSummaries: seq<Outcome>) returns (blocks: seq<Block>)
    ensures blocks == Summary(reportSummaries)
  {
    blocks := [SummaryHeading()];
    var i := 0;
    while i < |reportSummaries|
      invariant 0 <= i <= |reportSummaries| && i <= MaxLines
      invariant blocks == [SummaryHeading()] + Lines(reportSummaries[..i])
    {
      if |blocks| == MaxBlocksLength - 1 {
        blocks := blocks + [TruncationBlock()];
        break;
      }
      var report := reportSummaries[i];
      if report.success {
        blocks := blocks + [ContextBlock([MrkdwnElement(SuccessLine(report))])];
      } else {
        blocks := blocks + [ContextBlock([MrkdwnElement(ErrorLine(report))])];
      }
      assert reportSummaries[..i + 1] == reportSummaries[..i] + [report];
      i := i + 1;
    }
    assert i == |reportSummaries| ==> reportSummaries[..i] == reportSummaries;
  }

  /** Every block after the heading is a context block with a single mrkdwn element. */
  lemma SummaryBodyIsContext(outcomes: seq<Outcome>, i: int)
    requires 1 <= i < |Summary(outcomes)|
    ensures Summary(outcomes)[i].Context?
    ensures |Summary(outcomes)[i].contextElements| == 1
    ensures Summary(outcomes)[i].contextElements[0].Mrkdwn?
  {
    if i - 1 < |outcomes| && i - 1 < MaxLines {
      SummaryShowsOutcome(outcomes, i - 1);
    } else {
      assert Summary(outcomes)[i] == TruncationBlock();
    }
  }

  /** Whether a summary block is a failure line. */
  ghost predicate IsErrorBlock(b: Block)
  {
    b.Context? && |b.contextElements| == 1 && IsPrefix(ErrorMatcher, b.contextElements[0].text)
  }

  ghost function CountErrorBlocks(blocks: seq<Block>): (errors: nat)
  {
    if blocks == [] then 0
    else CountErrorBlocks(blocks[..|blocks| - 1]) + (if IsErrorBlock(blocks[|blocks| - 1]) then 1 else 0)
  }

  function CountFailures(outcomes: seq<Outcome>): (failures: nat)
  {
    if outcomes == [] then 0
    else CountFailures(outcomes[..|outcomes| - 1]) + (if outcomes[|outcomes| - 1].success then 0 else 1)
  }

  /** An outcome's line is a failure line exactly when the outcome is a failure. */
  lemma OutcomeBlockIsError(o: Outcome)
    ensures IsErrorBlock(OutcomeBlock(o)) <==> !o.success
  {
    var line := OutcomeLine(o);
    OutcomeLineShape(o);
    if o.success {
      assert line[..|ErrorMatcher|][1] == 'w' != ErrorMatcher[1];
    }
  }

  lemma {:induction false} LinesErrorCount(outcomes: seq<Outcome>)
    ensures CountErrorBlocks(Lines(outcomes)) == CountFailures(outcomes)
  {
    if outcomes != [] {
      var n := |outcomes| - 1;
      LinesErrorCount(outcomes[..n]);
      assert Lines(outcomes)[..n] == Lines(outcomes[..n]);
      OutcomeBlockIsError(outcomes[n]);
    }
  }

  /** Below the cut-off the summary is the heading followed by every line. */
  lemma SummaryBelowCutOff(outcomes: seq<Outcome>)
    requires |outcomes| <= MaxLines
    ensures Summary(outcomes) == [SummaryHeading()] + Lines(outcomes)
  {
    assert Summary(outcomes) == Frame(Lines(outcomes));
  }

  /** Below the cut-off the summary shows exactly one failure line per failed send. */
  lemma SummaryErrorCount(outcomes: seq<Outcome>)
    requires |outcomes| <= MaxLines
    ensures CountErrorBlocks(Summary(outcomes)) == CountFailures(outcomes)
  {
    SummaryBelowCutOff(outcomes);
    CountErrorBlocksPrepend(SummaryHeading(), Lines(outcomes));
    LinesErrorCount(outcomes);
  }

  lemma {:induction false} CountErrorBlocksPrepend(b: Block, blocks: seq<Block>)
    requires !IsErrorBlock(b)
    ensures CountErrorBlocks([b] + blocks) == CountErrorBlocks(blocks)
  {
    if blocks != [] {
      var n := |blocks| - 1;
      assert ([b] + blocks)[..n + 1] == [b] + blocks[..n];
      CountErrorBlocksPrepend(b, blocks[..n]);
    }
  }
}
