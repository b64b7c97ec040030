/**
 * The acceptance-criteria markdown parser (`parse_markdown_file`).
 *
 * The document is given as its list of lines, each keeping its line feed, as
 * `readlines()` returns them. A line `## X) Title` opens a section; a line
 * `### AC-CAT-NNN | Title` opens a criterion under the open section; every
 * other line is collected into the open criterion, if there is one. A
 * criterion is saved into the open section when the next heading or the end of
 * the document closes it, and only if it collected at least one line.
 *
 * `Parse` is the parser as a fold over the lines; `ParseMarkdownFile` is the
 * parser as the source writes it, a loop over the lines that appends to the
 * section objects it has already placed in the result.
 */
module AcParser {
  import opened Wrappers
  import opened Text
  import opened AcPatterns

  /** One acceptance criterion (`AcceptanceCriteria`). */
  datatype AcceptanceCriteria = AcceptanceCriteria(
    id: string,
    title: string,
    description: string,
    sectionId: string,
    sectionTitle: string,
    lineNumber: int,
    rawContent: string)

  /** What an `AcceptanceCriteriaSection` holds: its identifier, title and criteria in order. */
  datatype SectionData = SectionData(
    sectionId: string,
    sectionTitle: string,
    acceptanceCriteria: seq<AcceptanceCriteria>)

  /** A section object (`AcceptanceCriteriaSection`); the parser appends criteria to it in place. */
  class AcceptanceCriteriaSection {
    const sectionId: string
    const sectionTitle: string
    var acceptanceCriteria: seq<AcceptanceCriteria>

    constructor (sectionId: string, sectionTitle: string)
      ensures this.sectionId == sectionId && this.sectionTitle == sectionTitle
      ensures acceptanceCriteria == []
    {
      this.sectionId := sectionId;
      this.sectionTitle := sectionTitle;
      acceptanceCriteria := [];
    }

    /** The section's current contents as a value. */
    function Data(): SectionData
      reads this
    {
      SectionData(sectionId, sectionTitle, acceptanceCriteria)
    }
  }

  /** The contents of a list of section objects. */
  function DataOf(sections: seq<AcceptanceCriteriaSection>): (r: seq<SectionData>)
    reads sections
    ensures |r| == |sections|
  {
    if sections == [] then [] else DataOf(sections[..|sections| - 1]) + [sections[|sections| - 1].Data()]
  }

  // ---------------------------------------------------------------------------
  // The parser as a fold over the lines.

  /**
   * The parser's variables between two lines. The open section
   * (`current_section`) is always the last element of `sections`, because the
   * parser adds a section to the result as soon as it opens it; it is absent
   * exactly when `sections` is empty.
   */
  datatype ParserState = ParserState(
    sections: seq<SectionData>,
    currentAc: Option<AcceptanceCriteria>,
    currentAcLines: seq<string>,
    currentAcStartLine: nat)

  /** The state before the first line. */
  const Initial := ParserState([], None, [], 0)

  /** Appends `ac` to the criteria of the last section. */
  function AppendToLast(sections: seq<SectionData>, ac: AcceptanceCriteria): seq<SectionData>
    requires sections != []
  {
    var last := sections[|sections| - 1];
    sections[..|sections| - 1] + [last.(acceptanceCriteria := last.acceptanceCriteria + [ac])]
  }

  /**
   * "Save previous AC if exists": a criterion that collected at least one line
   * gets its stripped description and its raw text, from its heading up to the
   * 0-based line index `end`, and joins the open section; without an open
   * section it is dropped.
   */
  function SaveCurrent(lines: seq<string>, st: ParserState, end: nat): seq<SectionData>
    requires end <= |lines|
    requires st.currentAc.Some? ==> 1 <= st.currentAcStartLine <= end + 1
  {
    if st.currentAc.Some? && st.currentAcLines != [] && st.sections != [] then
      var ac := st.currentAc.value.(
        description := Strip(Concat(st.currentAcLines)),
        rawContent := Concat(lines[st.currentAcStartLine - 1..end]));
      AppendToLast(st.sections, ac)
    else st.sections
  }

  /** A section heading `## id) title` at line number `lineNum`: the open criterion is saved and a new, empty section opens. */
  function StepSection(lines: seq<string>, st: ParserState, lineNum: nat, id: string, title: string): ParserState
    requires 1 <= lineNum <= |lines|
    requires st.currentAc.Some? ==> 1 <= st.currentAcStartLine < lineNum
  {
    var saved := SaveCurrent(lines, st, lineNum - 1);
    ParserState(saved + [SectionData(id, title, [])], None, [], st.currentAcStartLine)
  }

  /** A criterion heading `### id | title` at line number `lineNum`: the open criterion is saved and a new one opens under the open section. */
  function StepCriterion(lines: seq<string>, st: ParserState, lineNum: nat, id: string, title: string): ParserState
    requires 1 <= lineNum <= |lines|
    requires st.currentAc.Some? ==> 1 <= st.currentAcStartLine < lineNum
  {
    var saved := SaveCurrent(lines, st, lineNum - 1);
    var sectionId := if saved == [] then "" else saved[|saved| - 1].sectionId;
    var sectionTitle := if saved == [] then "" else saved[|saved| - 1].sectionTitle;
    ParserState(saved, Some(AcceptanceCriteria(id, title, "", sectionId, sectionTitle, lineNum, "")), [], lineNum)
  }

  /** Any other line joins the open criterion's body, if a criterion is open. */
  function StepBody(st: ParserState, line: string): ParserState
  {
    if st.currentAc.Some? then st.(currentAcLines := st.currentAcLines + [line]) else st
  }

  /** The parser's handling of line number `lineNum` (1-based), which is of the given kind. */
  function Step(lines: seq<string>, st: ParserState, lineNum: nat, kind: LineKind): ParserState
    requires 1 <= lineNum <= |lines|
    requires st.currentAc.Some? ==> 1 <= st.currentAcStartLine < lineNum
  {
    match kind
    case SectionLine(id, title) => StepSection(lines, st, lineNum, id, title)
    case CriterionLine(id, title) => StepCriterion(lines, st, lineNum, id, title)
    case BodyLine => StepBody(st, lines[lineNum - 1])
  }

  /** The kind of every line, in order. */
  function KindsOf(lines: seq<string>): (r: seq<LineKind>)
    ensures |r| == |lines|
  {
    if lines == [] then [] else KindsOf(lines[..|lines| - 1]) + [KindOf(lines[|lines| - 1])]
  }

  /** `KindsOf` lists the kind of each line at that line's index. */
  lemma {:induction false} KindsOfAre(lines: seq<string>)
    ensures KindsAre(lines, KindsOf(lines))
  {
    if lines != [] {
      var init := lines[..|lines| - 1];
      KindsOfAre(init);
      forall i | 0 <= i < |lines|
        ensures KindsOf(lines)[i] == KindOf(lines[i])
      {
        if i < |init| {
          assert lines[i] == init[i];
        }
      }
    }
  }

  /** `kinds` is the kind of every line, in order. */
  ghost predicate KindsAre(lines: seq<string>, kinds: seq<LineKind>)
  {
    |kinds| == |lines| && forall i {:trigger KindOf(lines[i])} :: 0 <= i < |lines| ==> kinds[i] == KindOf(lines[i])
  }

  /** The state after the first `k` lines, whose kinds are `kinds`. */
  function Run(lines: seq<string>, kinds: seq<LineKind>, k: nat): (st: ParserState)
    requires k <= |lines| == |kinds|
    ensures st.currentAc.Some? ==> 1 <= st.currentAcStartLine <= k
  {
    if k == 0 then Initial else Step(lines, Run(lines, kinds, k - 1), k, kinds[k - 1])
  }

  /** `parse_markdown_file` on the document's lines: the sections, each with its criteria. */
  function Parse(lines: seq<string>): seq<SectionData>
  {
    SaveCurrent(lines, Run(lines, KindsOf(lines), |lines|), |lines|)
  }

  // ---------------------------------------------------------------------------
  // The parser as the source writes it.

  /**
   * How the parser's section variables fit together: the open section
   * (`current_section`) is absent exactly when there are no sections, and
   * otherwise it is the last of them, an object that no earlier entry shares.
   */
  predicate Shape(sections: seq<AcceptanceCriteriaSection>, currentSection: AcceptanceCriteriaSection?)
  {
    (currentSection == null <==> sections == []) &&
    (sections != [] ==> currentSection == sections[|sections| - 1]) &&
    (forall i :: 0 <= i < |sections| - 1 ==> sections[i] != sections[|sections| - 1])
  }

  /**
   * The loop's variables after the first `k` lines: they hold what the fold
   * holds after those lines.
   */
  ghost predicate Mirrors(lines: seq<string>, kinds: seq<LineKind>, k: nat, st: ParserState,
                          sections: seq<AcceptanceCriteriaSection>, currentSection: AcceptanceCriteriaSection?,
                          currentAc: Option<AcceptanceCriteria>, currentAcLines: seq<string>, currentAcStartLine: nat)
    reads sections
  {
    KindsAre(lines, kinds) && k <= |lines| &&
    st == Run(lines, kinds, k) &&
    st == ParserState(DataOf(sections), currentAc, currentAcLines, currentAcStartLine) &&
    Shape(sections, currentSection)
  }

  /** `parse_markdown_file`: one pass over the lines, appending to section objects in place. */
  method ParseMarkdownFile(lines: seq<string>) returns (sections: seq<AcceptanceCriteriaSection>)
    ensures DataOf(sections) == Parse(lines)
  {
    sections := [];
    var currentSection: AcceptanceCriteriaSection? := null;
    var currentAc: Option<AcceptanceCriteria> := None;
    var currentAcLines: seq<string> := [];
    var currentAcStartLine: nat := 0;
    ghost var kinds := KindsOf(lines);
    ghost var st := Initial;
    KindsOfAre(lines);

    for lineNum := 1 to |lines| + 1
      invariant Mirrors(lines, kinds, lineNum - 1, st, sections, currentSection, currentAc, currentAcLines, currentAcStartLine)
      invariant currentSection != null ==> fresh(currentSection)
    {
      sections, currentSection, currentAc, currentAcLines, currentAcStartLine, st :=
        Advance(lines, kinds, lineNum - 1, st, sections, currentSection, currentAc, currentAcLines, currentAcStartLine);
    }

    SavePrevious(lines, st, sections, currentSection, currentAc, currentAcLines, currentAcStartLine, |lines|);
  }

  /** One turn of the parser's loop: the line after the first `k` is classified and processed. */
  method Advance(lines: seq<string>, ghost kinds: seq<LineKind>, k: nat, ghost st: ParserState,
                 sections: seq<AcceptanceCriteriaSection>, currentSection: AcceptanceCriteriaSection?,
                 currentAc: Option<AcceptanceCriteria>, currentAcLines: seq<string>, currentAcStartLine: nat)
    returns (sections': seq<AcceptanceCriteriaSection>, currentSection': AcceptanceCriteriaSection?,
             currentAc': Option<AcceptanceCriteria>, currentAcLines': seq<string>, currentAcStartLine': nat,
             ghost st': ParserState)
    requires k < |lines|
    requires Mirrors(lines, kinds, k, st, sections, currentSection, currentAc, currentAcLines, currentAcStartLine)
    modifies currentSection
    ensures Mirrors(lines, kinds, k + 1, st', sections', currentSection', currentAc', currentAcLines', currentAcStartLine')
    ensures currentSection' == currentSection || fresh(currentSection')
  {
    var kind := ClassifyLineAt(lines, kinds, k);
    sections', currentSection', currentAc', currentAcLines', currentAcStartLine', st' :=
      ProcessLine(lines, kind, k + 1, st, sections, currentSection, currentAc, currentAcLines, currentAcStartLine);
    RunStep(lines, kinds, k);
  }

  /** One more line in the fold is one more `Step`. */
  lemma RunStep(lines: seq<string>, kinds: seq<LineKind>, k: nat)
    requires k < |lines| == |kinds|
    ensures Run(lines, kinds, k + 1) == Step(lines, Run(lines, kinds, k), k + 1, kinds[k])
  {
  }

  /** How the parser reads a line: the section pattern first, then the criterion pattern, on `line.rstrip()`. */
  method ClassifyLine(line: string) returns (kind: LineKind)
    ensures kind == KindOf(line)
  {
    var lineStripped := RStrip(line);
    var sectionMatch := MatchSection(lineStripped);
    if sectionMatch.Some? {
      return SectionLine(sectionMatch.value.0, Strip(sectionMatch.value.1));
    }
    var acMatch := MatchCriterion(lineStripped);
    if acMatch.Some? {
      return CriterionLine(acMatch.value.0, Strip(acMatch.value.1));
    }
    return BodyLine;
  }

  /** The kind of the line at index `i`, as `KindsOf` records it. */
  method ClassifyLineAt(lines: seq<string>, ghost kinds: seq<LineKind>, i: nat) returns (kind: LineKind)
    requires i < |lines| && KindsAre(lines, kinds)
    ensures kind == kinds[i]
  {
    kind := ClassifyLine(lines[i]);
  }

  /**
   * The body of the parser's loop for line number `lineNum`, whose kind is
   * `kind`: the effect that `Step` describes. Only the open section object is
   * changed; a section heading adds a new object at the end.
   */
  method ProcessLine(lines: seq<string>, kind: LineKind, lineNum: nat, ghost st: ParserState,
                     sections: seq<AcceptanceCriteriaSection>, currentSection: AcceptanceCriteriaSection?,
                     currentAc: Option<AcceptanceCriteria>, currentAcLines: seq<string>, currentAcStartLine: nat)
    returns (sections': seq<AcceptanceCriteriaSection>, currentSection': AcceptanceCriteriaSection?,
             currentAc': Option<AcceptanceCriteria>, currentAcLines': seq<string>, currentAcStartLine': nat,
             ghost st': ParserState)
    requires 1 <= lineNum <= |lines|
    requires st == ParserState(DataOf(sections), currentAc, currentAcLines, currentAcStartLine)
    requires currentAc.Some? ==> 1 <= currentAcStartLine < lineNum
    requires Shape(sections, currentSection)
    modifies currentSection
    ensures st' == Step(lines, st, lineNum, kind)
    ensures st' == ParserState(DataOf(sections'), currentAc', currentAcLines', currentAcStartLine')
    ensures Shape(sections', currentSection')
    ensures currentSection' == currentSection || fresh(currentSection')
  {
    var line := lines[lineNum - 1];
    st' := Step(lines, st, lineNum, kind);
    match kind {
      case SectionLine(id, title) =>
        sections', currentSection', currentAc', currentAcLines', currentAcStartLine' :=
          OpenSection(lines, lineNum, st, id, title, sections, currentSection, currentAc, currentAcLines, currentAcStartLine);
      case CriterionLine(id, title) =>
        sections', currentSection' := sections, currentSection;
        currentAc', currentAcLines', currentAcStartLine' :=
          OpenCriterion(lines, lineNum, st, id, title, sections, currentSection, currentAc, currentAcLines, currentAcStartLine);
      case BodyLine =>
        sections', currentSection', currentAc', currentAcStartLine' := sections, currentSection, currentAc, currentAcStartLine;
        currentAcLines' := currentAcLines;
        if currentAc.Some? {
          currentAcLines' := currentAcLines + [line];
        }
    }
  }

  /** A section heading: save the open criterion, then open a new section and add it to the result. */
  method OpenSection(lines: seq<string>, lineNum: nat, ghost st: ParserState, id: string, title: string,
                     sections: seq<AcceptanceCriteriaSection>, currentSection: AcceptanceCriteriaSection?,
                     currentAc: Option<AcceptanceCriteria>, currentAcLines: seq<string>, currentAcStartLine: nat)
    returns (sections': seq<AcceptanceCriteriaSection>, currentSection': AcceptanceCriteriaSection,
             currentAc': Option<AcceptanceCriteria>, currentAcLines': seq<string>, currentAcStartLine': nat)
    requires 1 <= lineNum <= |lines|
    requires st == ParserState(DataOf(sections), currentAc, currentAcLines, currentAcStartLine)
    requires currentAc.Some? ==> 1 <= currentAcStartLine < lineNum
    requires Shape(sections, currentSection)
    modifies currentSection
    ensures ParserState(DataOf(sections'), currentAc', currentAcLines', currentAcStartLine') ==
      StepSection(lines, st, lineNum, id, title)
    ensures sections' == sections + [currentSection'] && fresh(currentSection')
  {
    var previousLine: nat := lineNum - 1;
    SavePrevious(lines, st, sections, currentSection, currentAc, currentAcLines, currentAcStartLine, previousLine);
    ghost var saved := DataOf(sections);
    currentSection' := new AcceptanceCriteriaSection(id, title);
    sections' := sections + [currentSection'];
    currentAc', currentAcLines', currentAcStartLine' := None, [], currentAcStartLine;
    DataOfAppendFresh(sections, currentSection', saved);
    StepSectionValue(lines, st, lineNum, id, title, previousLine, saved);
  }

  /** A criterion heading: save the open criterion, then open a new one under the open section. */
  method OpenCriterion(lines: seq<string>, lineNum: nat, ghost st: ParserState, id: string, title: string,
                       sections: seq<AcceptanceCriteriaSection>, currentSection: AcceptanceCriteriaSection?,
                       currentAc: Option<AcceptanceCriteria>, currentAcLines: seq<string>, currentAcStartLine: nat)
    returns (currentAc': Option<AcceptanceCriteria>, currentAcLines': seq<string>, currentAcStartLine': nat)
    requires 1 <= lineNum <= |lines|
    requires st == ParserState(DataOf(sections), currentAc, currentAcLines, currentAcStartLine)
    requires currentAc.Some? ==> 1 <= currentAcStartLine < lineNum
    requires Shape(sections, currentSection)
    modifies currentSection
    ensures ParserState(DataOf(sections), currentAc', currentAcLines', currentAcStartLine') ==
      StepCriterion(lines, st, lineNum, id, title)
  {
    var previousLine: nat := lineNum - 1;
    SavePrevious(lines, st, sections, currentSection, currentAc, currentAcLines, currentAcStartLine, previousLine);
    ghost var saved := DataOf(sections);
    DataOfLast(sections);
    currentAc' := Some(AcceptanceCriteria(
      id, title, "",
      if currentSection != null then currentSection.sectionId else "",
      if currentSection != null then currentSection.sectionTitle else "",
      lineNum, ""));
    currentAcStartLine' := lineNum;
    currentAcLines' := [];
    StepCriterionValue(lines, st, lineNum, id, title, previousLine, saved);
  }

  /** The contents of the last section object are the last entry of the contents. */
  lemma DataOfLast(sections: seq<AcceptanceCriteriaSection>)
    ensures sections != [] ==> DataOf(sections)[|sections| - 1] == sections[|sections| - 1].Data()
  {
  }

  /** What `StepSection` computes, given the sections after saving the open criterion. */
  lemma StepSectionValue(lines: seq<string>, st: ParserState, lineNum: nat, id: string, title: string, end: nat, saved: seq<SectionData>)
    requires 1 <= lineNum <= |lines| && end + 1 == lineNum
    requires st.currentAc.Some? ==> 1 <= st.currentAcStartLine < lineNum
    requires saved == SaveCurrent(lines, st, end)
    ensures StepSection(lines, st, lineNum, id, title) == ParserState(saved + [SectionData(id, title, [])], None, [], st.currentAcStartLine)
  {
  }

  /** What `StepCriterion` computes, given the sections after saving the open criterion. */
  lemma StepCriterionValue(lines: seq<string>, st: ParserState, lineNum: nat, id: string, title: string, end: nat, saved: seq<SectionData>)
    requires 1 <= lineNum <= |lines| && end + 1 == lineNum
    requires st.currentAc.Some? ==> 1 <= st.currentAcStartLine < lineNum
    requires saved == SaveCurrent(lines, st, end)
    ensures StepCriterion(lines, st, lineNum, id, title) ==
      ParserState(saved, Some(AcceptanceCriteria(id, title, "",
        if saved == [] then "" else saved[|saved| - 1].sectionId,
        if saved == [] then "" else saved[|saved| - 1].sectionTitle, lineNum, "")), [], lineNum)
  {
  }

  /** Appending a new section object to the list appends its contents to the list's contents. */
  lemma DataOfAppendFresh(sections: seq<AcceptanceCriteriaSection>, s: AcceptanceCriteriaSection, data: seq<SectionData>)
    requires data == DataOf(sections)
    ensures DataOf(sections + [s]) == data + [s.Data()]
  {
    assert (sections + [s])[..|sections|] == sections;
  }

  /**
   * "Save previous AC if exists": completes the open criterion and appends it
   * to the open section, the last of `sections`, as `SaveCurrent` describes.
   */
  method SavePrevious(lines: seq<string>, ghost st: ParserState, sections: seq<AcceptanceCriteriaSection>,
                      currentSection: AcceptanceCriteriaSection?,
                      currentAc: Option<AcceptanceCriteria>, currentAcLines: seq<string>,
                      currentAcStartLine: nat, end: nat)
    requires end <= |lines|
    requires st == ParserState(DataOf(sections), currentAc, currentAcLines, currentAcStartLine)
    requires currentAc.Some? ==> 1 <= currentAcStartLine <= end + 1
    requires Shape(sections, currentSection)
    modifies currentSection
    ensures DataOf(sections) == SaveCurrent(lines, st, end)
  {
    if currentAc.Some? && currentAcLines != [] {
      var ac := currentAc.value.(
        description := Strip(Concat(currentAcLines)),
        rawContent := Concat(lines[currentAcStartLine - 1..end]));
      if currentSection != null {
        ghost var prefix := DataOf(sections[..|sections| - 1]);
        currentSection.acceptanceCriteria := currentSection.acceptanceCriteria + [ac];
        assert DataOf(sections[..|sections| - 1]) == prefix;
        assert DataOf(sections) == DataOf(sections[..|sections| - 1]) + [currentSection.Data()];
      }
    }
  }
}
