/**
 * What `parse_markdown_file` returns, described by positions in the document
 * instead of by the line-by-line fold, and the proof that the two agree.
 *
 * A heading is a section heading or a criterion heading. The body of a
 * criterion heading at index `c` is the run of lines after it up to the next
 * heading (or the end). The result has one section per section heading, in
 * document order; a section holds, in order, the criteria whose headings lie
 * between it and the next section heading and whose body is not empty. Such a
 * criterion's raw content is its heading line followed by its body, and its
 * description is the stripped concatenation of its body.
 */
module AcReference {
  import opened Wrappers
  import opened Text
  import opened AcPatterns
  import opened AcParser

  // ---------------------------------------------------------------------------
  // Positions in the document.

  /** The index of the first heading at or after `i`, or the number of lines if there is none. */
  function NextHeading(kinds: seq<LineKind>, i: nat): (j: nat)
    requires i <= |kinds|
    ensures i <= j <= |kinds|
    decreases |kinds| - i
  {
    if i == |kinds| || !kinds[i].BodyLine? then i else NextHeading(kinds, i + 1)
  }

  /** The index of the first section heading at or after `i`, or the number of lines if there is none. */
  function NextSection(kinds: seq<LineKind>, i: nat): (j: nat)
    requires i <= |kinds|
    ensures i <= j <= |kinds|
    decreases |kinds| - i
  {
    if i == |kinds| || kinds[i].SectionLine? then i else NextSection(kinds, i + 1)
  }

  /** The criterion heading at index `c` has a non-empty body: the line after it exists and is not a heading. */
  predicate Emitted(kinds: seq<LineKind>, c: nat)
    requires c < |kinds|
  {
    kinds[c].CriterionLine? && c + 1 < |kinds| && kinds[c + 1].BodyLine?
  }

  /** The criterion that the heading at index `c` yields inside the section `sectionId`, `sectionTitle`. */
  function Criterion(lines: seq<string>, kinds: seq<LineKind>, c: nat, sectionId: string, sectionTitle: string): AcceptanceCriteria
    requires |kinds| == |lines| && c < |lines| && kinds[c].CriterionLine?
  {
    var e := NextHeading(kinds, c + 1);
    AcceptanceCriteria(
      kinds[c].id, kinds[c].title,
      Strip(Concat(lines[c + 1..e])),
      sectionId, sectionTitle,
      c + 1,
      Concat(lines[c..e]))
  }

  /** The criteria whose headings lie in `[i, j)`, in order, each inside the section `sectionId`, `sectionTitle`. */
  function CriteriaIn(lines: seq<string>, kinds: seq<LineKind>, i: nat, j: nat, sectionId: string, sectionTitle: string): seq<AcceptanceCriteria>
    requires |kinds| == |lines| && i <= j <= |lines|
    decreases j - i
  {
    if i == j then []
    else
      (if Emitted(kinds, i) then [Criterion(lines, kinds, i, sectionId, sectionTitle)] else [])
      + CriteriaIn(lines, kinds, i + 1, j, sectionId, sectionTitle)
  }

  /** The section that the section heading at index `s` opens, with the criteria up to the next section heading. */
  function SectionAt(lines: seq<string>, kinds: seq<LineKind>, s: nat): SectionData
    requires |kinds| == |lines| && s < |lines| && kinds[s].SectionLine?
  {
    var k := kinds[s];
    SectionData(k.id, k.title, CriteriaIn(lines, kinds, s + 1, NextSection(kinds, s + 1), k.id, k.title))
  }

  /** The sections opened by the section headings at index `i` or later, in order. */
  function SectionsFrom(lines: seq<string>, kinds: seq<LineKind>, i: nat): seq<SectionData>
    requires |kinds| == |lines| && i <= |lines|
    decreases |lines| - i
  {
    if i == |lines| then []
    else if kinds[i].SectionLine? then [SectionAt(lines, kinds, i)] + SectionsFrom(lines, kinds, i + 1)
    else SectionsFrom(lines, kinds, i + 1)
  }

  /** The document's sections, by position. */
  function Sections(lines: seq<string>): seq<SectionData>
  {
    SectionsFrom(lines, KindsOf(lines), 0)
  }

  // ---------------------------------------------------------------------------
  // The fold, seen from a line onwards.

  /** The identifier a new criterion takes from the open section: that of the last section, or "" without one. */
  function OwnerId(sections: seq<SectionData>): string
  {
    if sections == [] then "" else sections[|sections| - 1].sectionId
  }

  /** The title a new criterion takes from the open section. */
  function OwnerTitle(sections: seq<SectionData>): string
  {
    if sections == [] then "" else sections[|sections| - 1].sectionTitle
  }

  /** `sections` with `extra` appended to the criteria of the last section; without a section, nothing is kept. */
  function WithLast(sections: seq<SectionData>, extra: seq<AcceptanceCriteria>): seq<SectionData>
  {
    if sections == [] then []
    else
      var last := sections[|sections| - 1];
      sections[..|sections| - 1] + [last.(acceptanceCriteria := last.acceptanceCriteria + extra)]
  }

  /** The fold from line index `i` in state `st` to the end of the document, with the final save. */
  ghost function Finish(lines: seq<string>, kinds: seq<LineKind>, i: nat, st: ParserState): seq<SectionData>
    requires i <= |lines| == |kinds|
    requires st.currentAc.Some? ==> 1 <= st.currentAcStartLine <= i
    decreases |lines| - i
  {
    if i == |lines| then SaveCurrent(lines, st, |lines|)
    else Finish(lines, kinds, i + 1, Step(lines, st, i + 1, kinds[i]))
  }

  /**
   * The state reached at line index `i`: an open criterion was opened by the
   * criterion heading at index `c`, inside the open section, and has since
   * collected exactly the lines after `c` up to `i`, none of them a heading.
   */
  ghost predicate Resting(lines: seq<string>, kinds: seq<LineKind>, i: nat, st: ParserState)
    requires i <= |lines| == |kinds|
  {
    st.currentAc.Some? ==>
      1 <= st.currentAcStartLine <= i &&
      var c := st.currentAcStartLine - 1;
      kinds[c].CriterionLine? &&
      NextHeading(kinds, c + 1) >= i &&
      st.currentAcLines == lines[c + 1..i] &&
      st.currentAc.value == AcceptanceCriteria(kinds[c].id, kinds[c].title, "",
        OwnerId(st.sections), OwnerTitle(st.sections), c + 1, "")
  }

  /** What the open criterion contributes once it is saved: itself if its body is not empty. */
  function Pending(lines: seq<string>, kinds: seq<LineKind>, st: ParserState): seq<AcceptanceCriteria>
    requires |kinds| == |lines|
  {
    if st.currentAc.Some? && 1 <= st.currentAcStartLine <= |lines| && Emitted(kinds, st.currentAcStartLine - 1) then
      [Criterion(lines, kinds, st.currentAcStartLine - 1, OwnerId(st.sections), OwnerTitle(st.sections))]
    else []
  }

  /** What the fold from index `i` in state `st` returns, by position. */
  function Rest(lines: seq<string>, kinds: seq<LineKind>, i: nat, st: ParserState): seq<SectionData>
    requires i <= |lines| == |kinds|
  {
    var ns := NextSection(kinds, i);
    WithLast(st.sections, Pending(lines, kinds, st) + CriteriaIn(lines, kinds, i, ns, OwnerId(st.sections), OwnerTitle(st.sections)))
      + SectionsFrom(lines, kinds, ns)
  }

  // ---------------------------------------------------------------------------
  // The agreement proof.

  /** `parse_markdown_file` returns the sections by position: one per section heading, each with its criteria. */
  lemma ParseIsSections(lines: seq<string>)
    ensures Parse(lines) == Sections(lines)
  {
    var kinds := KindsOf(lines);
    FinishRun(lines, 0);
    FinishFrom(lines, kinds, 0, Initial);
    SectionsFromSkip(lines, kinds, 0);
  }

  /** Folding the first `i` lines and then the rest is folding the whole document. */
  lemma {:induction false} FinishRun(lines: seq<string>, i: nat)
    requires i <= |lines|
    ensures Finish(lines, KindsOf(lines), i, Run(lines, KindsOf(lines), i)) == Parse(lines)
    decreases |lines| - i
  {
    if i < |lines| {
      RunStep(lines, KindsOf(lines), i);
      FinishRun(lines, i + 1);
    }
  }

  /** The fold from any resting state returns what `Rest` describes. */
  lemma {:induction false} FinishFrom(lines: seq<string>, kinds: seq<LineKind>, i: nat, st: ParserState)
    requires i <= |lines| == |kinds|
    requires Resting(lines, kinds, i, st)
    ensures Finish(lines, kinds, i, st) == Rest(lines, kinds, i, st)
    decreases |lines| - i
  {
    if i == |lines| {
      SavePending(lines, kinds, i, st);
      assert Pending(lines, kinds, st) + [] == Pending(lines, kinds, st);
      assert CriteriaIn(lines, kinds, i, NextSection(kinds, i), OwnerId(st.sections), OwnerTitle(st.sections)) == [];
    } else {
      var st' := Step(lines, st, i + 1, kinds[i]);
      StepCase(lines, kinds, i, st);
      FinishFrom(lines, kinds, i + 1, st');
    }
  }

  /** One step of the fold keeps the state resting and leaves what remains to be returned as it was. */
  lemma StepCase(lines: seq<string>, kinds: seq<LineKind>, i: nat, st: ParserState)
    requires i < |lines| == |kinds|
    requires Resting(lines, kinds, i, st)
    ensures Resting(lines, kinds, i + 1, Step(lines, st, i + 1, kinds[i]))
    ensures Rest(lines, kinds, i + 1, Step(lines, st, i + 1, kinds[i])) == Rest(lines, kinds, i, st)
  {
    match kinds[i]
    case BodyLine =>
      BodyCase(lines, kinds, i, st);
    case CriterionLine(id, title) =>
      SavePending(lines, kinds, i, st);
      CriterionCase(lines, kinds, i, st, id, title);
    case SectionLine(id, title) =>
      SavePending(lines, kinds, i, st);
      SectionCase(lines, kinds, i, st, id, title);
  }

  /** A body line extends the open criterion; nothing else changes. */
  lemma BodyCase(lines: seq<string>, kinds: seq<LineKind>, i: nat, st: ParserState)
    requires i < |lines| == |kinds| && kinds[i].BodyLine?
    requires Resting(lines, kinds, i, st)
    ensures Resting(lines, kinds, i + 1, StepBody(st, lines[i]))
    ensures Rest(lines, kinds, i + 1, StepBody(st, lines[i])) == Rest(lines, kinds, i, st)
  {
    var st' := StepBody(st, lines[i]);
    if st.currentAc.Some? {
      var c := st.currentAcStartLine - 1;
      NextHeadingIsHeading(kinds, c + 1);
      assert lines[c + 1..i] + [lines[i]] == lines[c + 1..i + 1];
    }
    var ns := NextSection(kinds, i);
    assert ns == NextSection(kinds, i + 1);
    assert Pending(lines, kinds, st') == Pending(lines, kinds, st);
    assert CriteriaIn(lines, kinds, i, ns, OwnerId(st.sections), OwnerTitle(st.sections))
      == CriteriaIn(lines, kinds, i + 1, ns, OwnerId(st.sections), OwnerTitle(st.sections));
  }

  /** The state after a criterion heading at index `i`, once the open criterion is saved into `saved`. */
  function AfterCriterion(saved: seq<SectionData>, i: nat, id: string, title: string): ParserState
  {
    ParserState(saved, Some(AcceptanceCriteria(id, title, "", OwnerId(saved), OwnerTitle(saved), i + 1, "")), [], i + 1)
  }

  /** A criterion heading saves the open criterion and opens a new one; what remains to be returned is unchanged. */
  lemma CriterionCase(lines: seq<string>, kinds: seq<LineKind>, i: nat, st: ParserState, id: string, title: string)
    requires i < |lines| == |kinds| && kinds[i] == CriterionLine(id, title)
    requires Resting(lines, kinds, i, st)
    ensures var st' := AfterCriterion(WithLast(st.sections, Pending(lines, kinds, st)), i, id, title);
      Resting(lines, kinds, i + 1, st') && Rest(lines, kinds, i + 1, st') == Rest(lines, kinds, i, st)
  {
    var extra := Pending(lines, kinds, st);
    WithLastOwner(st.sections, extra);
    var ns := NextSection(kinds, i);
    var owned := CriteriaIn(lines, kinds, i + 1, ns, OwnerId(st.sections), OwnerTitle(st.sections));
    var here := if Emitted(kinds, i) then [Criterion(lines, kinds, i, OwnerId(st.sections), OwnerTitle(st.sections))] else [];
    assert CriteriaIn(lines, kinds, i, ns, OwnerId(st.sections), OwnerTitle(st.sections)) == here + owned;
    WithLastTwice(st.sections, extra, here + owned);
  }

  /** The state after a section heading, once the open criterion is saved into `saved`. */
  function AfterSection(saved: seq<SectionData>, st: ParserState, id: string, title: string): ParserState
  {
    ParserState(saved + [SectionData(id, title, [])], None, [], st.currentAcStartLine)
  }

  /** A section heading saves the open criterion and opens a new section, which `Rest` lists next. */
  lemma SectionCase(lines: seq<string>, kinds: seq<LineKind>, i: nat, st: ParserState, id: string, title: string)
    requires i < |lines| == |kinds| && kinds[i] == SectionLine(id, title)
    requires Resting(lines, kinds, i, st)
    ensures var st' := AfterSection(WithLast(st.sections, Pending(lines, kinds, st)), st, id, title);
      Resting(lines, kinds, i + 1, st') && Rest(lines, kinds, i + 1, st') == Rest(lines, kinds, i, st)
  {
    var pending := Pending(lines, kinds, st);
    var saved := WithLast(st.sections, pending);
    var st' := AfterSection(saved, st, id, title);
    var ns := NextSection(kinds, i + 1);
    var owned := CriteriaIn(lines, kinds, i + 1, ns, id, title);
    var rest := SectionsFrom(lines, kinds, ns);
    assert Rest(lines, kinds, i + 1, st') == WithLast(saved + [SectionData(id, title, [])], [] + owned) + rest;
    assert Rest(lines, kinds, i, st) == WithLast(st.sections, pending + []) + SectionsFrom(lines, kinds, i) by {
      assert NextSection(kinds, i) == i;
    }
    SectionsFromAt(lines, kinds, i);
    OpenSectionShape(st.sections, pending, SectionAt(lines, kinds, i), rest);
  }

  /** Opening a section after saving is listing it after the saved sections. */
  lemma OpenSectionShape(sections: seq<SectionData>, pending: seq<AcceptanceCriteria>, section: SectionData, rest: seq<SectionData>)
    ensures WithLast(WithLast(sections, pending) + [SectionData(section.sectionId, section.sectionTitle, [])], [] + section.acceptanceCriteria) + rest
      == WithLast(sections, pending + []) + ([section] + rest)
  {
    var saved := WithLast(sections, pending);
    var empty := SectionData(section.sectionId, section.sectionTitle, []);
    WithLastAppend(saved, empty, [] + section.acceptanceCriteria);
    assert empty.(acceptanceCriteria := empty.acceptanceCriteria + ([] + section.acceptanceCriteria)) == section;
    assert pending + [] == pending;
    assert saved + [section] + rest == saved + ([section] + rest);
  }

  /** A section heading opens the section listed first from there on. */
  lemma SectionsFromAt(lines: seq<string>, kinds: seq<LineKind>, i: nat)
    requires i < |lines| == |kinds| && kinds[i].SectionLine?
    ensures SectionsFrom(lines, kinds, i) == [SectionAt(lines, kinds, i)] + SectionsFrom(lines, kinds, NextSection(kinds, i + 1))
  {
    SectionsFromSkip(lines, kinds, i + 1);
  }

  lemma WithLastAppend(sections: seq<SectionData>, last: SectionData, extra: seq<AcceptanceCriteria>)
    ensures WithLast(sections + [last], extra) == sections + [last.(acceptanceCriteria := last.acceptanceCriteria + extra)]
  {
    assert (sections + [last])[..|sections|] == sections;
  }

  /** Saving the open criterion at a heading or at the end appends exactly what `Pending` describes. */
  lemma SavePending(lines: seq<string>, kinds: seq<LineKind>, i: nat, st: ParserState)
    requires i <= |lines| == |kinds| && (i == |lines| || !kinds[i].BodyLine?)
    requires Resting(lines, kinds, i, st)
    ensures SaveCurrent(lines, st, i) == WithLast(st.sections, Pending(lines, kinds, st))
  {
    if st.currentAc.Some? {
      var c := st.currentAcStartLine - 1;
      NextHeadingAt(kinds, c + 1, i);
      if c + 1 == i {
        WithLastNone(st.sections);
      }
    } else {
      WithLastNone(st.sections);
    }
  }

  // ---------------------------------------------------------------------------
  // Small facts about the definitions above.

  /** The first heading of a run of non-headings that reaches `i` is the heading (or the end) at `i`. */
  lemma {:induction false} NextHeadingAt(kinds: seq<LineKind>, j: nat, i: nat)
    requires j <= i <= |kinds| && (i == |kinds| || !kinds[i].BodyLine?)
    requires NextHeading(kinds, j) >= i
    ensures NextHeading(kinds, j) == i
    decreases i - j
  {
    if j < i {
      NextHeadingAt(kinds, j + 1, i);
    }
  }

  /** `NextHeading` stops at a heading, unless it reaches the end. */
  lemma {:induction false} NextHeadingIsHeading(kinds: seq<LineKind>, j: nat)
    requires j <= |kinds|
    ensures NextHeading(kinds, j) < |kinds| ==> !kinds[NextHeading(kinds, j)].BodyLine?
    decreases |kinds| - j
  {
    if j < |kinds| && kinds[j].BodyLine? {
      NextHeadingIsHeading(kinds, j + 1);
    }
  }

  /** The lines before the next section heading open no section. */
  lemma {:induction false} SectionsFromSkip(lines: seq<string>, kinds: seq<LineKind>, i: nat)
    requires |kinds| == |lines| && i <= |lines|
    ensures SectionsFrom(lines, kinds, i) == SectionsFrom(lines, kinds, NextSection(kinds, i))
    decreases |lines| - i
  {
    if i < |lines| && !kinds[i].SectionLine? {
      SectionsFromSkip(lines, kinds, i + 1);
    }
  }

  lemma WithLastNone(sections: seq<SectionData>)
    ensures WithLast(sections, []) == sections
  {
    if sections != [] {
      var last := sections[|sections| - 1];
      assert last.(acceptanceCriteria := last.acceptanceCriteria + []) == last;
    }
  }

  lemma WithLastOwner(sections: seq<SectionData>, extra: seq<AcceptanceCriteria>)
    ensures OwnerId(WithLast(sections, extra)) == OwnerId(sections)
    ensures OwnerTitle(WithLast(sections, extra)) == OwnerTitle(sections)
  {
  }

  lemma WithLastTwice(sections: seq<SectionData>, a: seq<AcceptanceCriteria>, b: seq<AcceptanceCriteria>)
    ensures WithLast(WithLast(sections, a), b) == WithLast(sections, a + b)
  {
    if sections != [] {
      var n := |sections|;
      var once := WithLast(sections, a);
      assert once[..n - 1] == sections[..n - 1];
      assert sections[n - 1].acceptanceCriteria + a + b == sections[n - 1].acceptanceCriteria + (a + b);
    }
  }
}
