/**
  The report layout sent to every destination channel
  (utils/send_report/blocks.ts), and a reader that recovers the report from
  that layout.
 */
module ReportBlocks {
  import opened Types
  import opened Slack

  const Title := "Weekly Project Status"
  const ProjectLabel := "*Project:*\n"
  const ManagerLabel := "*Project Manager:*\n"
  const HoursLabel := "*Projected billable hours:*\n"
  const StatusLabel := "\n:hourglass_flowing_sand: *Project Status:* "
  const GreenHeading := ":star2: *Success Stories:*"
  const YellowHeading := ":construction: *Minor Issues:*"
  const RedHeading := ":exclamation: *Critical Issues:*"
  const Fence := "```"

  /** `headerBlock(message)`: a header showing the message as plain text. */
  function HeaderBlock(message: string): (b: Block)
    ensures b.Header? && b.text == PlainText(message)
  {
    Header(PlainText(message))
  }

  /** `mrkdwnSectionBlock(message)`: a section showing the message as mrkdwn. */
  function MrkdwnSectionBlock(message: string): (b: Block)
    ensures b.Section? && b.text == Mrkdwn(message)
  {
    Section(Mrkdwn(message))
  }

  /** `dividerBlock()`. */
  function DividerBlock(): (b: Block)
    ensures b.Divider?
  {
    Divider
  }

  /** `codeBlock(text)`: the text fenced as code, from which the text can be read back. */
  function CodeBlock(text: string): (b: Block)
    ensures b.Section? && b.text.Mrkdwn?
    ensures CodeContent(b) == Some(text)
  {
    var s := Fence + text + Fence;
    assert s[..3] == Fence;
    assert s[|s| - 3..] == Fence;
    assert s[3..|s| - 3] == text;
    Section(Mrkdwn(s))
  }

  /** The text of a code block with three characters dropped at each end, if it is one. */
  function CodeContent(b: Block): (content: Option<string>)
  {
    if b.Section? && b.text.Mrkdwn? && |b.text.text| >= 6
       && b.text.text[..3] == Fence && b.text.text[|b.text.text| - 3..] == Fence
    then Some(b.text.text[3..|b.text.text| - 3])
    else None
  }

  /** `s` with `prefix` removed, if `s` starts with it. */
  function StripPrefix(s: string, prefix: string): (r: Option<string>)
    ensures r.Some? <==> |prefix| <= |s| && s[..|prefix|] == prefix
    ensures r.Some? ==> prefix + r.value == s
  {
    if |prefix| <= |s| && s[..|prefix|] == prefix then Some(s[|prefix|..]) else None
  }

  lemma StripPrefixOf(prefix: string, rest: string)
    ensures StripPrefix(prefix + rest, prefix) == Some(rest)
  {
    assert (prefix + rest)[..|prefix|] == prefix;
    assert (prefix + rest)[|prefix|..] == rest;
  }

  /** The section holding the project, manager and hours as three mrkdwn fields. */
  function ProjectFieldsBlock(project: string, manager: string, hours: Hours): (b: Block)
  {
    Fields([
      Mrkdwn(ProjectLabel + project),
      Mrkdwn(ManagerLabel + manager),
      Mrkdwn(HoursLabel + hours.text)])
  }

  function StatusBlock(sprintStatus: string): (b: Block)
  {
    MrkdwnSectionBlock(StatusLabel + sprintStatus)
  }

  /** `buildReportBlocks`: the fixed ten-block report. */
  function BuildReportBlocks(r: Report): (blocks: seq<Block>)
    ensures |blocks| == 10
    ensures blocks[0] == Header(PlainText(Title))
    ensures blocks[1].Fields? && blocks[1].fields == [
      Mrkdwn(ProjectLabel + r.project),
      Mrkdwn(ManagerLabel + r.manager),
      Mrkdwn(HoursLabel + r.hours.text)]
    ensures blocks[2] == Section(Mrkdwn(StatusLabel + r.sprintStatus))
    ensures blocks[3] == Divider
    ensures blocks[4] == Section(Mrkdwn(GreenHeading))
    ensures blocks[6] == Section(Mrkdwn(YellowHeading))
    ensures blocks[8] == Section(Mrkdwn(RedHeading))
    ensures CodeContent(blocks[5]) == Some(r.green)
    ensures CodeContent(blocks[7]) == Some(r.yellow)
    ensures CodeContent(blocks[9]) == Some(r.red)
  {
    [
      HeaderBlock(Title),
      ProjectFieldsBlock(r.project, r.manager, r.hours),
      StatusBlock(r.sprintStatus),
      DividerBlock(),
      MrkdwnSectionBlock(GreenHeading),
      CodeBlock(r.green),
      MrkdwnSectionBlock(YellowHeading),
      CodeBlock(r.yellow),
      MrkdwnSectionBlock(RedHeading),
      CodeBlock(r.red)
    ]
  }

  /** The text of a mrkdwn field or section with `label` removed, if it starts with it. */
  function Labelled(t: Text, fieldLabel: string): (value: Option<string>)
  {
    if t.Mrkdwn? then StripPrefix(t.text, fieldLabel) else None
  }

  /**
    Reads a report back from a ten-block report layout: the fields section,
    the status section and the three code blocks. None for anything else.
   */
  function ReadReport(blocks: seq<Block>): (r: Option<Report>)
    ensures r.Some? ==> |blocks| == 10 && blocks[3] == Divider
  {
    if |blocks| != 10 || blocks[0] != HeaderBlock(Title) || blocks[3] != Divider
       || !blocks[1].Fields? || |blocks[1].fields| != 3 || !blocks[2].Section?
       || blocks[4] != MrkdwnSectionBlock(GreenHeading)
       || blocks[6] != MrkdwnSectionBlock(YellowHeading)
       || blocks[8] != MrkdwnSectionBlock(RedHeading)
    then None
    else
      var project := Labelled(blocks[1].fields[0], ProjectLabel);
      var manager := Labelled(blocks[1].fields[1], ManagerLabel);
      var hours := Labelled(blocks[1].fields[2], HoursLabel);
      var status := Labelled(blocks[2].text, StatusLabel);
      var green := CodeContent(blocks[5]);
      var yellow := CodeContent(blocks[7]);
      var red := CodeContent(blocks[9]);
      if project.None? || manager.None? || hours.None? || status.None?
         || green.None? || yellow.None? || red.None?
      then None
      else Some(Report(project.value, manager.value, Hours(hours.value), status.value,
                       green.value, yellow.value, red.value))
  }

  /** The report layout determines the report: reading it back gives every field. */
  lemma ReportRoundTrip(r: Report)
    ensures ReadReport(BuildReportBlocks(r)) == Some(r)
  {
    StripPrefixOf(ProjectLabel, r.project);
    StripPrefixOf(ManagerLabel, r.manager);
    StripPrefixOf(HoursLabel, r.hours.text);
    StripPrefixOf(StatusLabel, r.sprintStatus);
  }

  /** Distinct reports give distinct layouts. */
  lemma ReportBlocksInjective(r1: Report, r2: Report)
    requires BuildReportBlocks(r1) == BuildReportBlocks(r2)
    ensures r1 == r2
  {
    ReportRoundTrip(r1);
    ReportRoundTrip(r2);
  }
}
