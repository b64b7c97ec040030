/**
 * What the preview document says: its header names the project, every
 * section contributes its own block in order, a section's block carries its
 * epic row and, exactly when the section has criteria, a stories table with
 * one row per criterion, and the summary counts epics and stories.
 */
module AcPreviewProperties {
  import opened Text
  import opened AcPatterns
  import opened AcParser
  import opened AcProperties
  import opened AcPreview

  // ---------------------------------------------------------------------------
  // The document as a whole.

  /** The preview opens with the fixed header naming the project and closes with the summary. */
  lemma PreviewFrame(sections: seq<SectionData>, projectKey: string)
    ensures var p := PreviewLines(sections, projectKey);
      && |p| == 13 + |SectionBlocks(sections)| + 5
      && p[..13] == HeaderLines(projectKey)
      && p[0] == "# " + "Acceptance " + "Criteria to " + "Jira Issues " + "Preview"
      && p[2] == "**Project:**" + " " + projectKey
      && p[13..|p| - 5] == SectionBlocks(sections)
      && p[|p| - 5..] == SummaryLines(sections)
  {
    var p := PreviewLines(sections, projectKey);
    var blocks := SectionBlocks(sections);
    assert p == HeaderLines(projectKey) + blocks + SummaryLines(sections);
    assert p[..13] == HeaderLines(projectKey);
    assert p[13..|p| - 5] == blocks;
  }

  /** The summary's two counts: the number of sections and the number of criteria over all of them. */
  lemma PreviewTotals(sections: seq<SectionData>, projectKey: string)
    ensures var p := PreviewLines(sections, projectKey);
      && |p| >= 18
      && p[|p| - 5] == "## Summary"
      && p[|p| - 3] == "- **Total " + "Epics " + "(Sections):*" + "* " + NatToString(|sections|)
      && p[|p| - 2] == "- **Total " + "Stories " + "(ACs):** " + NatToString(TotalStories(sections))
      && p[|p| - 1] == ""
  {
    PreviewFrame(sections, projectKey);
    var p := PreviewLines(sections, projectKey);
    assert p[|p| - 5..][2] == p[|p| - 3];
    assert p[|p| - 5..][3] == p[|p| - 2];
  }

  /** Without a project key the header names the project `PROJ`. */
  lemma DefaultProject(sections: seq<SectionData>)
    ensures PreviewLines(sections, DefaultProjectKey)[2] == "**Project:**" + " PROJ"
  {
    PreviewFrame(sections, DefaultProjectKey);
  }

  /** The number of stories is additive over runs of sections. */
  lemma {:induction false} TotalStoriesAppend(a: seq<SectionData>, b: seq<SectionData>)
    ensures TotalStories(a + b) == TotalStories(a) + TotalStories(b)
  {
    if b == [] {
      assert a + b == a;
    } else {
      var init := b[..|b| - 1];
      TotalStoriesAppend(a, init);
      assert (a + b)[..|a + b| - 1] == a + init;
      assert (a + b)[|a + b| - 1] == b[|b| - 1];
      assert TotalStories(b) == TotalStories(init) + |b[|b| - 1].acceptanceCriteria|;
    }
  }

  /** Flattening two runs of blocks flattens each and puts the second after the first. */
  lemma {:induction false} FlattenAppend(a: seq<seq<string>>, b: seq<seq<string>>)
    ensures Flatten(a + b) == Flatten(a) + Flatten(b)
  {
    if b == [] {
      assert a + b == a;
    } else {
      var init := b[..|b| - 1];
      FlattenAppend(a, init);
      assert (a + b)[..|a + b| - 1] == a + init;
      assert (a + b)[|a + b| - 1] == b[|b| - 1];
    }
  }

  /** The k-th block is the k-th section's. */
  lemma {:induction false} BlocksAt(sections: seq<SectionData>, k: nat)
    requires k < |sections|
    ensures Blocks(sections)[k] == SectionBlock(sections[k])
  {
    if k < |sections| - 1 {
      BlocksAt(sections[..|sections| - 1], k);
    }
  }

  /** The blocks of two runs of sections are the blocks of the first followed by those of the second. */
  lemma SectionBlocksAppend(a: seq<SectionData>, b: seq<SectionData>)
    ensures SectionBlocks(a + b) == SectionBlocks(a) + SectionBlocks(b)
  {
    forall k | 0 <= k < |a + b|
      ensures Blocks(a + b)[k] == (Blocks(a) + Blocks(b))[k]
    {
      BlocksAt(a + b, k);
      if k < |a| {
        BlocksAt(a, k);
      } else {
        BlocksAt(b, k - |a|);
      }
    }
    assert Blocks(a + b) == Blocks(a) + Blocks(b);
    FlattenAppend(Blocks(a), Blocks(b));
  }

  /** Every section has its block in the document, after those of the sections before it and before those after it. */
  lemma SectionBlockInOrder(sections: seq<SectionData>, k: nat)
    requires k < |sections|
    ensures SectionBlocks(sections)
      == SectionBlocks(sections[..k]) + SectionBlock(sections[k]) + SectionBlocks(sections[k + 1..])
  {
    var pre := sections[..k + 1];
    var post := sections[k + 1..];
    assert sections == pre + post;
    SectionBlocksAppend(pre, post);
    SectionBlocksStep(sections, k);
  }

  // ---------------------------------------------------------------------------
  // One section's block.

  /** The k-th story row belongs to the k-th criterion. */
  lemma {:induction false} StoryRowsAt(acs: seq<AcceptanceCriteria>, m: nat)
    requires m < |acs|
    ensures StoryRows(acs)[m] == StoryRow(acs[m])
  {
    if m < |acs| - 1 {
      StoryRowsAt(acs[..|acs| - 1], m);
    }
  }

  /**
   * A section's block opens with its epic heading and its epic table, whose
   * one row is the section's epic row, and closes with a rule; it has 8 lines,
   * and 5 more plus one per criterion when the section has criteria.
   */
  lemma EpicBlock(section: SectionData)
    ensures var b := SectionBlock(section);
      && |b| == (if section.acceptanceCriteria == [] then 8 else 13 + |section.acceptanceCriteria|)
      && b[0] == "## Epic: " + EpicSummary(section)
      && b[4] == EpicRow(section)
      && b[|b| - 2] == "---" && b[|b| - 1] == ""
  {
    var acs := section.acceptanceCriteria;
    var b := SectionBlock(section);
    var stories := if acs != [] then StoriesTable(acs) else [];
    assert |stories| == (if acs == [] then 0 else 5 + |acs|);
    assert b == EpicTable(section) + stories + ["---", ""];
    assert b[..6] == EpicTable(section);
  }

  /** The epic row's description preview is at most 60 characters long. */
  lemma EpicDescriptionWidth(section: SectionData)
    ensures |EpicDescription(section)| <= PreviewWidth
  {
    TruncateSpec("Section: " + section.sectionTitle + ". Contains "
      + NatToString(|section.acceptanceCriteria|) + " acceptance " + "criteria.");
  }

  /** A section with criteria has, after its epic table, a stories table with one row per criterion, in order. */
  lemma StoriesBlock(section: SectionData, m: nat)
    requires m < |section.acceptanceCriteria|
    ensures var b := SectionBlock(section);
      && |b| == 13 + |section.acceptanceCriteria|
      && b[6] == StoriesHeading
      && b[10 + m] == StoryRow(section.acceptanceCriteria[m])
  {
    var acs := section.acceptanceCriteria;
    var b := SectionBlock(section);
    assert b == EpicTable(section) + StoriesTable(acs) + ["---", ""];
    assert b[6..6 + |StoriesTable(acs)|] == StoriesTable(acs);
    assert StoriesTable(acs)[4..4 + |acs|] == StoryRows(acs);
    StoryRowsAt(acs, m);
  }

  /** No line of an epic table, a story row or the closing rule is the stories heading. */
  lemma NotStoriesHeading(section: SectionData)
    ensures StoriesHeading !in EpicTable(section)
    ensures StoriesHeading !in ["---", ""]
    ensures forall ac :: StoryRow(ac) != StoriesHeading
  {
    var t := EpicTable(section);
    forall i | 0 <= i < |t|
      ensures t[i] != StoriesHeading
    {
      if i == 0 {
        assert t[i][2] == ' ';
      } else if i == 4 {
        assert t[i][0] == '|';
      } else if i == 2 || i == 3 {
        assert t[i][0] == '|';
      }
    }
    forall ac
      ensures StoryRow(ac) != StoriesHeading
    {
      assert StoryRow(ac)[0] == '|';
    }
  }

  /** A section's block holds the stories heading exactly when the section has criteria. */
  lemma StoriesTableIffCriteria(section: SectionData)
    ensures StoriesHeading in SectionBlock(section) <==> section.acceptanceCriteria != []
  {
    NotStoriesHeading(section);
    var b := SectionBlock(section);
    if section.acceptanceCriteria == [] {
      assert b == EpicTable(section) + ["---", ""];
    } else {
      StoriesBlock(section, 0);
    }
  }

  // ---------------------------------------------------------------------------
  // The preview of a parsed document.

  /** In the preview of a parsed document the epics total is the number of section headings. */
  lemma EpicsTotalIsHeadingCount(lines: seq<string>, projectKey: string)
    ensures var p := PreviewLines(Parse(lines), projectKey);
      |p| >= 18 && p[|p| - 3] == "- **Total " + "Epics " + "(Sections):*" + "* " + NatToString(|SectionLines(lines)|)
  {
    SectionPerHeading(lines);
    PreviewTotals(Parse(lines), projectKey);
  }
}
