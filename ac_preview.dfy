/**
 * The preview of the Jira issues that the acceptance criteria would become
 * (`generate_preview_table`, `parse_and_preview`): a markdown document with a
 * header naming the project, one epic table per section, a stories table for
 * each section that has criteria, and a summary with the totals, joined with
 * line feeds.
 *
 * `PreviewLines` describes the document line by line; `GeneratePreviewTable`
 * builds it as the source does, appending to a list of lines in a loop over
 * the section objects.
 *
 * Long text constants are written as concatenations of short pieces: the
 * verifier reasons about a string literal at a cost that grows quickly with
 * its length, and the pieces keep every proof about the document small.
 */
module AcPreview {
  import opened Text
  import opened AcParser

  /** The project key the preview shows when none is given. */
  const DefaultProjectKey := "PROJ"

  /** The longest description preview, in characters. */
  const PreviewWidth := 60

  /** The heading of a section's stories table. */
  const StoriesHeading := "### Stories " + "(Acceptance " + "Criteria)"

  /** The text a story shows when its description has no first line. */
  const NoDescription := "(no " + "description)"

  // ---------------------------------------------------------------------------
  // The cells of the tables.

  /** A description preview: a text of more than 60 characters is cut to its first 57 and marked with `...`. */
  function Truncate(s: string): string
  {
    if |s| > PreviewWidth then s[..57] + "..." else s
  }

  /** A truncated text has at most 60 characters: the text itself when short, else its first 57 and `...`. */
  lemma TruncateSpec(s: string)
    ensures |Truncate(s)| <= PreviewWidth
    ensures |s| <= PreviewWidth ==> Truncate(s) == s
    ensures |s| > PreviewWidth ==> |Truncate(s)| == PreviewWidth && HasPrefix(s, Truncate(s)[..57]) && Truncate(s)[57..] == "..."
    ensures '\n' !in s ==> '\n' !in Truncate(s)
  {
    if |s| > PreviewWidth {
      assert Truncate(s)[..57] == s[..57];
    }
  }

  /** The summary of a section's epic: `{id}) {title}`. */
  function EpicSummary(section: SectionData): string
  {
    section.sectionId + ") " + section.sectionTitle
  }

  /** The description preview of a section's epic, naming its title and how many criteria it has. */
  function EpicDescription(section: SectionData): string
  {
    Truncate("Section: " + section.sectionTitle + ". Contains " + NatToString(|section.acceptanceCriteria|) + " acceptance " + "criteria.")
  }

  /** The summary of a criterion's story: `{id}: {title}`. */
  function StorySummary(ac: AcceptanceCriteria): string
  {
    ac.id + ": " + ac.title
  }

  /** The description preview of a criterion's story: the first line of its description, truncated, or a placeholder. */
  function DescriptionPreview(ac: AcceptanceCriteria): string
  {
    var first := Truncate(FirstLine(ac.description));
    if first == [] then NoDescription else first
  }

  /**
   * A story's description preview is never empty, never longer than 60
   * characters and never spans two lines. It is the placeholder when the
   * description's first line is empty, that line when it fits, and else the
   * line's first 57 characters followed by `...`.
   */
  lemma DescriptionPreviewSpec(ac: AcceptanceCriteria)
    ensures var r := DescriptionPreview(ac);
      && r != [] && |r| <= PreviewWidth && '\n' !in r
      && (FirstLine(ac.description) == [] ==> r == NoDescription)
      && (FirstLine(ac.description) != [] && |FirstLine(ac.description)| <= PreviewWidth ==>
            r == FirstLine(ac.description) && HasPrefix(ac.description, r))
      && (|FirstLine(ac.description)| > PreviewWidth ==>
            |r| == PreviewWidth && HasPrefix(ac.description, r[..57]) && r[57..] == "...")
  {
    var first := FirstLine(ac.description);
    FirstLineSpec(ac.description);
    TruncateSpec(first);
    if |first| > PreviewWidth {
      assert ac.description[..57] == first[..57];
    }
  }

  /** The row of a section's epic. */
  function EpicRow(section: SectionData): string
  {
    "| Epic | " + EpicSummary(section) + " | " + EpicDescription(section) + " |"
  }

  /** The row of a criterion's story. */
  function StoryRow(ac: AcceptanceCriteria): string
  {
    "| Story | " + ac.id + " | " + StorySummary(ac) + " | " + DescriptionPreview(ac) + " |"
  }

  // ---------------------------------------------------------------------------
  // The document, line by line.

  /** The lines before the first section. */
  function HeaderLines(projectKey: string): seq<string>
  {
    [ "# " + "Acceptance " + "Criteria to " + "Jira Issues " + "Preview",
      "",
      "**Project:**" + " " + projectKey,
      "",
      "This table " + "shows what " + "Jira issues " + "would be " + "created " + "from the " + "acceptance " + "criteria.",
      "",
      "## Hierarchy",
      "",
      "- **Epic**: " + "Section " + "(e.g., A) " + "Run " + "Identity " + "and Timing)",
      "- " + "**Story**: " + "Individual " + "Acceptance " + "Criterion " + "(e.g., " + "AC-RUN-001 |" + " Run UUID)",
      "",
      "---",
      "" ]
  }

  /** One story row per criterion, in order. */
  function StoryRows(acs: seq<AcceptanceCriteria>): (r: seq<string>)
    ensures |r| == |acs|
  {
    if acs == [] then [] else StoryRows(acs[..|acs| - 1]) + [StoryRow(acs[|acs| - 1])]
  }

  /** The heading and column header of a stories table. */
  function StoriesHeader(): seq<string>
  {
    [ StoriesHeading,
      "",
      "| Issue " + "Type | AC " + "ID | " + "Summary | " + "Description " + "Preview |",
      "|" + "-----------|" + "-------|" + "---------|" + "------------" + "---------|" ]
  }

  /** The stories table of a section with criteria. */
  function StoriesTable(acs: seq<AcceptanceCriteria>): seq<string>
  {
    StoriesHeader() + StoryRows(acs) + [""]
  }

  /** The epic table of a section. */
  function EpicTable(section: SectionData): seq<string>
  {
    [ "## Epic: " + EpicSummary(section),
      "",
      "| Issue " + "Type | " + "Summary | " + "Description " + "Preview |",
      "|" + "------------" + "|---------|" + "------------" + "---------|",
      EpicRow(section),
      "" ]
  }

  /** The lines of one section: its epic table, then its stories table if it has criteria. */
  function SectionBlock(section: SectionData): seq<string>
  {
    EpicTable(section)
    + (if section.acceptanceCriteria != [] then StoriesTable(section.acceptanceCriteria) else [])
    + ["---", ""]
  }

  /** The blocks of the sections, one per section, in order. */
  function Blocks(sections: seq<SectionData>): (r: seq<seq<string>>)
    ensures |r| == |sections|
  {
    if sections == [] then [] else Blocks(sections[..|sections| - 1]) + [SectionBlock(sections[|sections| - 1])]
  }

  /** Runs of lines, one after the other. */
  function Flatten(blocks: seq<seq<string>>): seq<string>
  {
    if blocks == [] then [] else Flatten(blocks[..|blocks| - 1]) + blocks[|blocks| - 1]
  }

  /** The lines of all sections, in order. */
  function SectionBlocks(sections: seq<SectionData>): seq<string>
  {
    Flatten(Blocks(sections))
  }

  /** The number of criteria over all sections. */
  function TotalStories(sections: seq<SectionData>): nat
  {
    if sections == [] then 0 else TotalStories(sections[..|sections| - 1]) + |sections[|sections| - 1].acceptanceCriteria|
  }

  /** The summary block, for the given numbers of epics and stories. */
  function Summary(totalEpics: nat, totalStories: nat): seq<string>
  {
    [ "## Summary",
      "",
      "- **Total " + "Epics " + "(Sections):*" + "* " + NatToString(totalEpics),
      "- **Total " + "Stories " + "(ACs):** " + NatToString(totalStories),
      "" ]
  }

  /** The summary after the last section: one epic per section, one story per criterion. */
  function SummaryLines(sections: seq<SectionData>): seq<string>
  {
    Summary(|sections|, TotalStories(sections))
  }

  /** The preview, line by line. */
  function PreviewLines(sections: seq<SectionData>, projectKey: string): seq<string>
  {
    HeaderLines(projectKey) + SectionBlocks(sections) + SummaryLines(sections)
  }

  /** The preview document. */
  function Preview(sections: seq<SectionData>, projectKey: string): string
  {
    Join(PreviewLines(sections, projectKey), "\n")
  }

  // ---------------------------------------------------------------------------
  // The preview as the source builds it.

  /** `generate_preview_table`: the preview of the given section objects. */
  method GeneratePreviewTable(sections: seq<AcceptanceCriteriaSection>, projectKey: string := DefaultProjectKey)
    returns (preview: string)
    ensures preview == Preview(DataOf(sections), projectKey)
  {
    var lines := HeaderLines(projectKey);
    lines := AppendSections(lines, sections);
    var totalEpics := |sections|;
    var totalStories := CountStories(sections);
    lines := lines + Summary(totalEpics, totalStories);
    preview := Join(lines, "\n");
  }

  /** The loop over the section objects: appends each section's tables, in order. */
  method AppendSections(lines: seq<string>, sections: seq<AcceptanceCriteriaSection>) returns (result: seq<string>)
    ensures result == lines + SectionBlocks(DataOf(sections))
  {
    ghost var data := DataOf(sections);
    result := lines;
    for k := 0 to |sections|
      invariant result == lines + SectionBlocks(data[..k])
    {
      var section := sections[k].Data();
      DataOfIndex(sections, k);
      ghost var before := result;
      result := AppendSection(result, section);
      SectionBlocksStep(data, k);
      AppendAssoc(lines, SectionBlocks(data[..k]), SectionBlock(data[k]));
    }
    assert data[..|sections|] == data;
  }

  lemma AppendAssoc<T>(a: seq<T>, b: seq<T>, c: seq<T>)
    ensures (a + b) + c == a + (b + c)
  {
  }

  /** Adding one more section adds its block at the end. */
  lemma SectionBlocksStep(data: seq<SectionData>, k: nat)
    requires k < |data|
    ensures SectionBlocks(data[..k + 1]) == SectionBlocks(data[..k]) + SectionBlock(data[k])
  {
    assert data[..k + 1][..k] == data[..k];
    var blocks := Blocks(data[..k + 1]);
    assert blocks == Blocks(data[..k]) + [SectionBlock(data[k])];
    assert blocks[..k] == Blocks(data[..k]);
  }

  /** The contents of the k-th section object are the k-th element of `DataOf`. */
  lemma {:induction false} DataOfIndex(sections: seq<AcceptanceCriteriaSection>, k: nat)
    requires k < |sections|
    ensures DataOf(sections)[k] == sections[k].Data()
  {
    if k < |sections| - 1 {
      var init := sections[..|sections| - 1];
      DataOfIndex(init, k);
      assert sections[k] == init[k];
    }
  }

  /** Appends the epic table and, if the section has criteria, the stories table of one section. */
  method AppendSection(lines: seq<string>, section: SectionData) returns (result: seq<string>)
    ensures result == lines + SectionBlock(section)
  {
    var epic := EpicLines(section);
    result := lines + epic;
    var stories: seq<string> := [];
    if section.acceptanceCriteria != [] {
      stories := StoriesLines(section.acceptanceCriteria);
      result := result + stories;
    }
    result := result + ["---", ""];
    assert result == lines + (epic + stories + ["---", ""]);
  }

  /** The epic table of one section, computed as the source does. */
  method EpicLines(section: SectionData) returns (epic: seq<string>)
    ensures epic == EpicTable(section)
  {
    var epicSummary := section.sectionId + ") " + section.sectionTitle;
    epic := [
      "## Epic: " + epicSummary,
      "",
      "| Issue " + "Type | " + "Summary | " + "Description " + "Preview |",
      "|" + "------------" + "|---------|" + "------------" + "---------|" ];
    var epicDescPreview := "Section: " + section.sectionTitle + ". Contains "
      + NatToString(|section.acceptanceCriteria|) + " acceptance " + "criteria.";
    if |epicDescPreview| > 60 {
      epicDescPreview := epicDescPreview[..57] + "...";
    }
    assert epicDescPreview == EpicDescription(section);
    epic := epic + ["| Epic | " + epicSummary + " | " + epicDescPreview + " |", ""];
  }

  /** The stories table of a section with criteria, computed as the source does. */
  method StoriesLines(acs: seq<AcceptanceCriteria>) returns (stories: seq<string>)
    ensures stories == StoriesTable(acs)
  {
    var head := [
      StoriesHeading,
      "",
      "| Issue " + "Type | AC " + "ID | " + "Summary | " + "Description " + "Preview |",
      "|" + "-----------|" + "-------|" + "---------|" + "------------" + "---------|" ];
    stories := head;
    for m := 0 to |acs|
      invariant stories == head + StoryRows(acs[..m])
    {
      var row := StoryLine(acs[m]);
      stories := stories + [row];
      assert acs[..m + 1][..m] == acs[..m];
    }
    assert acs[..|acs|] == acs;
    stories := stories + [""];
  }

  /** The story row of one criterion, computed as the source does. */
  method StoryLine(ac: AcceptanceCriteria) returns (row: string)
    ensures row == StoryRow(ac)
  {
    var storySummary := ac.id + ": " + ac.title;
    var descPreview := if ac.description != [] then FirstLine(ac.description) else "";
    if |descPreview| > 60 {
      descPreview := descPreview[..57] + "...";
    }
    if descPreview == [] {
      descPreview := NoDescription;
    }
    row := "| Story | " + ac.id + " | " + storySummary + " | " + descPreview + " |";
  }

  /** The number of criteria over all section objects. */
  method CountStories(sections: seq<AcceptanceCriteriaSection>) returns (total: nat)
    ensures total == TotalStories(DataOf(sections))
  {
    ghost var data := DataOf(sections);
    total := 0;
    for k := 0 to |sections|
      invariant total == TotalStories(data[..k])
    {
      total := total + |sections[k].acceptanceCriteria|;
      DataOfIndex(sections, k);
      assert data[..k + 1][..k] == data[..k];
    }
    assert data[..|sections|] == data;
  }

  /** `parse_and_preview`: the preview of a document's acceptance criteria. */
  method ParseAndPreview(lines: seq<string>, projectKey: string := DefaultProjectKey) returns (preview: string)
    ensures preview == Preview(Parse(lines), projectKey)
  {
    var sections := ParseMarkdownFile(lines);
    preview := GeneratePreviewTable(sections, projectKey);
  }
}
