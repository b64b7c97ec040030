/**
 * The preview as text: for a parsed document, and a project key within one
 * line, no line of the preview holds a line feed, so splitting the joined
 * document at its line feeds gives back exactly the preview's lines.
 */
module AcPreviewText {
  import opened Text
  import opened AcPatterns
  import opened AcParser
  import opened AcProperties
  import opened AcPreview
  import opened AcPreviewProperties

  /** No line of `ls` holds a line feed. */
  predicate NoLineFeeds(ls: seq<string>)
  {
    forall i :: 0 <= i < |ls| ==> '\n' !in ls[i]
  }

  lemma NoLineFeedsAppend(a: seq<string>, b: seq<string>)
    requires NoLineFeeds(a) && NoLineFeeds(b)
    ensures NoLineFeeds(a + b)
  {
    forall i | 0 <= i < |a + b|
      ensures '\n' !in (a + b)[i]
    {
      if i < |a| {
        assert (a + b)[i] == a[i];
      } else {
        assert (a + b)[i] == b[i - |a|];
      }
    }
  }

  /** A concatenation holds a line feed only if one of its parts does. */
  lemma NoLineFeedConcat(a: string, b: string)
    requires '\n' !in a && '\n' !in b
    ensures '\n' !in a + b
  {
    forall i | 0 <= i < |a + b|
      ensures (a + b)[i] != '\n'
    {
      if i < |a| {
        assert (a + b)[i] == a[i];
      } else {
        assert (a + b)[i] == b[i - |a|];
      }
    }
  }

  /** The decimal digits of a number hold no line feed. */
  lemma NatToStringOneLine(n: nat)
    ensures '\n' !in NatToString(n)
  {
    NatToStringDigits(n);
  }

  /** The fields of a section, and of its criteria, that the preview shows all lie within one line. */
  ghost predicate SingleLineFields(section: SectionData)
  {
    && '\n' !in section.sectionId
    && '\n' !in section.sectionTitle
    && forall m :: 0 <= m < |section.acceptanceCriteria| ==>
         '\n' !in section.acceptanceCriteria[m].id && '\n' !in section.acceptanceCriteria[m].title
  }

  // ---------------------------------------------------------------------------
  // Line by line.

  /** The header holds no line feed when the project key holds none. */
  lemma HeaderOneLine(projectKey: string)
    requires '\n' !in projectKey
    ensures NoLineFeeds(HeaderLines(projectKey))
  {
    NoLineFeedConcat("**Project:**" + " ", projectKey);
    HeaderTitleOneLine(projectKey);
    HeaderIntroOneLine(projectKey);
    HeaderEpicOneLine(projectKey);
    HeaderStoryOneLine(projectKey);
  }

  lemma HeaderTitleOneLine(projectKey: string)
    ensures '\n' !in HeaderLines(projectKey)[0]
  {
  }

  lemma HeaderIntroOneLine(projectKey: string)
    ensures '\n' !in HeaderLines(projectKey)[4]
  {
  }

  lemma HeaderEpicOneLine(projectKey: string)
    ensures '\n' !in HeaderLines(projectKey)[8]
  {
  }

  lemma HeaderStoryOneLine(projectKey: string)
    ensures '\n' !in HeaderLines(projectKey)[9]
  {
  }

  /** The summary holds no line feed. */
  lemma SummaryOneLine(sections: seq<SectionData>)
    ensures NoLineFeeds(SummaryLines(sections))
  {
    NatToStringOneLine(|sections|);
    NatToStringOneLine(TotalStories(sections));
    NoLineFeedConcat("- **Total " + "Epics " + "(Sections):*" + "* ", NatToString(|sections|));
    NoLineFeedConcat("- **Total " + "Stories " + "(ACs):** ", NatToString(TotalStories(sections)));
  }

  /** An epic table holds no line feed when the section's letter and title hold none. */
  lemma EpicTableOneLine(section: SectionData)
    requires '\n' !in section.sectionId && '\n' !in section.sectionTitle
    ensures NoLineFeeds(EpicTable(section))
  {
    var summary := EpicSummary(section);
    NoLineFeedConcat(section.sectionId, ") ");
    NoLineFeedConcat(section.sectionId + ") ", section.sectionTitle);
    NoLineFeedConcat("## Epic: ", summary);
    var long := "Section: " + section.sectionTitle + ". Contains "
      + NatToString(|section.acceptanceCriteria|) + " acceptance " + "criteria.";
    NatToStringOneLine(|section.acceptanceCriteria|);
    NoLineFeedConcat("Section: ", section.sectionTitle);
    NoLineFeedConcat("Section: " + section.sectionTitle, ". Contains ");
    NoLineFeedConcat("Section: " + section.sectionTitle + ". Contains ", NatToString(|section.acceptanceCriteria|));
    NoLineFeedConcat("Section: " + section.sectionTitle + ". Contains " + NatToString(|section.acceptanceCriteria|), " acceptance " + "criteria.");
    TruncateSpec(long);
    var description := EpicDescription(section);
    NoLineFeedConcat("| Epic | ", summary);
    NoLineFeedConcat("| Epic | " + summary, " | ");
    NoLineFeedConcat("| Epic | " + summary + " | ", description);
    NoLineFeedConcat("| Epic | " + summary + " | " + description, " |");
  }

  /** A story row holds no line feed when the criterion's identifier and title hold none. */
  lemma StoryRowOneLine(ac: AcceptanceCriteria)
    requires '\n' !in ac.id && '\n' !in ac.title
    ensures '\n' !in StoryRow(ac)
  {
    NoLineFeedConcat(ac.id, ": ");
    NoLineFeedConcat(ac.id + ": ", ac.title);
    var summary := StorySummary(ac);
    DescriptionPreviewSpec(ac);
    var preview := DescriptionPreview(ac);
    NoLineFeedConcat("| Story | ", ac.id);
    NoLineFeedConcat("| Story | " + ac.id, " | ");
    NoLineFeedConcat("| Story | " + ac.id + " | ", summary);
    NoLineFeedConcat("| Story | " + ac.id + " | " + summary, " | ");
    NoLineFeedConcat("| Story | " + ac.id + " | " + summary + " | ", preview);
    NoLineFeedConcat("| Story | " + ac.id + " | " + summary + " | " + preview, " |");
  }

  /** A stories table holds no line feed when its criteria's identifiers and titles hold none. */
  lemma StoriesTableOneLine(acs: seq<AcceptanceCriteria>)
    requires forall m :: 0 <= m < |acs| ==> '\n' !in acs[m].id && '\n' !in acs[m].title
    ensures NoLineFeeds(StoriesTable(acs))
  {
    var rows := StoryRows(acs);
    forall m | 0 <= m < |rows|
      ensures '\n' !in rows[m]
    {
      StoryRowsAt(acs, m);
      StoryRowOneLine(acs[m]);
    }
    var head := StoriesHeader();
    StoriesHeaderOneLine();
    NoLineFeedsAppend(head, rows);
    NoLineFeedsAppend(head + rows, [""]);
  }

  lemma StoriesHeaderOneLine()
    ensures NoLineFeeds(StoriesHeader())
  {
    StoriesHeadingOneLine();
    StoriesColumnsOneLine();
    StoriesRuleOneLine();
  }

  lemma StoriesHeadingOneLine()
    ensures '\n' !in StoriesHeader()[0]
  {
  }

  lemma StoriesColumnsOneLine()
    ensures '\n' !in StoriesHeader()[2]
  {
  }

  lemma StoriesRuleOneLine()
    ensures '\n' !in StoriesHeader()[3]
  {
  }

  /** A section's block holds no line feed when the fields it shows hold none. */
  lemma SectionBlockOneLine(section: SectionData)
    requires SingleLineFields(section)
    ensures NoLineFeeds(SectionBlock(section))
  {
    var acs := section.acceptanceCriteria;
    EpicTableOneLine(section);
    var stories := if acs != [] then StoriesTable(acs) else [];
    if acs != [] {
      StoriesTableOneLine(acs);
    }
    NoLineFeedsAppend(EpicTable(section), stories);
    NoLineFeedsAppend(EpicTable(section) + stories, ["---", ""]);
  }

  /** The blocks of sections whose fields lie within one line hold no line feed. */
  lemma {:induction false} SectionBlocksOneLine(sections: seq<SectionData>)
    requires forall k :: 0 <= k < |sections| ==> SingleLineFields(sections[k])
    ensures NoLineFeeds(SectionBlocks(sections))
  {
    if sections != [] {
      var n := |sections| - 1;
      SectionBlocksOneLine(sections[..n]);
      SectionBlockOneLine(sections[n]);
      SectionBlocksStep(sections, n);
      assert sections[..n + 1] == sections;
      NoLineFeedsAppend(SectionBlocks(sections[..n]), SectionBlock(sections[n]));
    }
  }

  // ---------------------------------------------------------------------------
  // The document.

  /** Splitting the preview at its line feeds gives its lines, when no shown field spans two lines. */
  lemma PreviewSplits(sections: seq<SectionData>, projectKey: string)
    requires '\n' !in projectKey
    requires forall k :: 0 <= k < |sections| ==> SingleLineFields(sections[k])
    ensures SplitLines(Preview(sections, projectKey)) == PreviewLines(sections, projectKey)
  {
    HeaderOneLine(projectKey);
    SectionBlocksOneLine(sections);
    SummaryOneLine(sections);
    NoLineFeedsAppend(HeaderLines(projectKey), SectionBlocks(sections));
    NoLineFeedsAppend(HeaderLines(projectKey) + SectionBlocks(sections), SummaryLines(sections));
    SplitJoin(PreviewLines(sections, projectKey));
  }

  /** A criterion identifier `AC-<letters>-<digits>` holds no line feed. */
  lemma CriterionIdOneLine(id: string)
    requires IsCriterionId(id)
    ensures '\n' !in id
  {
    var u :| 3 < u < |id| - 1 && id[u] == '-' && AllUpper(id[3..u]) && AllDigits(id[u + 1..]);
    forall i | 0 <= i < |id|
      ensures id[i] != '\n'
    {
      if i < 3 {
        assert id[i] == id[..3][i];
      } else if i < u {
        assert id[i] == id[3..u][i - 3];
      } else if i > u {
        assert id[i] == id[u + 1..][i - u - 1];
      }
    }
  }

  /** Every field a parsed document shows in its preview lies within one line. */
  lemma ParsedSingleLine(lines: seq<string>, k: nat)
    requires k < |Parse(lines)|
    ensures SingleLineFields(Parse(lines)[k])
  {
    var section := Parse(lines)[k];
    SectionHeadingShape(lines, k);
    forall m | 0 <= m < |section.acceptanceCriteria|
      ensures '\n' !in section.acceptanceCriteria[m].id && '\n' !in section.acceptanceCriteria[m].title
    {
      CriterionHeading(lines, k, m);
      CriterionIdOneLine(section.acceptanceCriteria[m].id);
    }
  }

  /**
   * The text `parse_and_preview` returns, split at its line feeds, is the
   * preview's lines: its header, one block per section and the summary.
   */
  lemma ParsedPreviewSplits(lines: seq<string>, projectKey: string)
    requires '\n' !in projectKey
    ensures SplitLines(Preview(Parse(lines), projectKey)) == PreviewLines(Parse(lines), projectKey)
  {
    forall k | 0 <= k < |Parse(lines)|
      ensures SingleLineFields(Parse(lines)[k])
    {
      ParsedSingleLine(lines, k);
    }
    PreviewSplits(Parse(lines), projectKey);
  }
}
