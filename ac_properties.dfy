/**
 * What `parse_markdown_file` promises about its result, proved from the
 * positional description of `AcReference`: one section per section heading,
 * in order; inside each, the criteria with a non-empty body whose headings
 * follow it up to the next section heading, in order; criteria before the
 * first section heading dropped; and the content of every criterion.
 *
 * Each fact is first proved over a classification `kinds` of the lines and
 * then stated over the lines themselves.
 */
module AcProperties {
  import opened Text
  import opened AcPatterns
  import opened AcParser
  import opened AcReference

  // ---------------------------------------------------------------------------
  // Index sequences.

  /** The indices at or after `i` of the section headings, in increasing order. */
  function SectionIndices(kinds: seq<LineKind>, i: nat): (w: seq<nat>)
    requires i <= |kinds|
    ensures forall k :: 0 <= k < |w| ==> i <= w[k] < |kinds| && kinds[w[k]].SectionLine?
    decreases |kinds| - i
  {
    if i == |kinds| then []
    else (if kinds[i].SectionLine? then [i] else []) + SectionIndices(kinds, i + 1)
  }

  /** `SectionIndices` is strictly increasing. */
  lemma {:induction false} SectionIndicesSorted(kinds: seq<LineKind>, i: nat)
    requires i <= |kinds|
    ensures forall k, l :: 0 <= k < l < |SectionIndices(kinds, i)| ==> SectionIndices(kinds, i)[k] < SectionIndices(kinds, i)[l]
    decreases |kinds| - i
  {
    if i < |kinds| {
      SectionIndicesSorted(kinds, i + 1);
      var w := SectionIndices(kinds, i + 1);
      var v := SectionIndices(kinds, i);
      if kinds[i].SectionLine? {
        assert v == [i] + w;
      }
    }
  }

  /** `SectionIndices` lists every section heading at or after `i`. */
  lemma {:induction false} SectionIndicesComplete(kinds: seq<LineKind>, i: nat)
    requires i <= |kinds|
    ensures forall j :: i <= j < |kinds| && kinds[j].SectionLine? ==> j in SectionIndices(kinds, i)
    decreases |kinds| - i
  {
    if i < |kinds| {
      SectionIndicesComplete(kinds, i + 1);
      var w := SectionIndices(kinds, i + 1);
      var v := SectionIndices(kinds, i);
      if kinds[i].SectionLine? {
        assert v == [i] + w;
      }
    }
  }

  /** The indices in `[i, j)` of the criterion headings with a non-empty body, in increasing order. */
  function CriterionIndices(kinds: seq<LineKind>, i: nat, j: nat): (w: seq<nat>)
    requires i <= j <= |kinds|
    ensures forall k :: 0 <= k < |w| ==> i <= w[k] < j && Emitted(kinds, w[k])
    decreases j - i
  {
    if i == j then []
    else (if Emitted(kinds, i) then [i] else []) + CriterionIndices(kinds, i + 1, j)
  }

  /** `CriterionIndices` is strictly increasing. */
  lemma {:induction false} CriterionIndicesSorted(kinds: seq<LineKind>, i: nat, j: nat)
    requires i <= j <= |kinds|
    ensures forall k, l :: 0 <= k < l < |CriterionIndices(kinds, i, j)| ==> CriterionIndices(kinds, i, j)[k] < CriterionIndices(kinds, i, j)[l]
    decreases j - i
  {
    if i < j {
      CriterionIndicesSorted(kinds, i + 1, j);
      var w := CriterionIndices(kinds, i + 1, j);
      var v := CriterionIndices(kinds, i, j);
      if Emitted(kinds, i) {
        assert v == [i] + w;
      }
    }
  }

  /** `CriterionIndices` lists every criterion heading with a non-empty body in range. */
  lemma {:induction false} CriterionIndicesComplete(kinds: seq<LineKind>, i: nat, j: nat)
    requires i <= j <= |kinds|
    ensures forall c :: i <= c < j && Emitted(kinds, c) ==> c in CriterionIndices(kinds, i, j)
    decreases j - i
  {
    if i < j {
      CriterionIndicesComplete(kinds, i + 1, j);
      var w := CriterionIndices(kinds, i + 1, j);
      var v := CriterionIndices(kinds, i, j);
      if Emitted(kinds, i) {
        assert v == [i] + w;
      }
    }
  }

  lemma {:induction false} SectionsFromIndices(lines: seq<string>, kinds: seq<LineKind>, i: nat)
    requires |kinds| == |lines| && i <= |lines|
    ensures |SectionsFrom(lines, kinds, i)| == |SectionIndices(kinds, i)|
    ensures forall k :: 0 <= k < |SectionsFrom(lines, kinds, i)| ==>
      SectionsFrom(lines, kinds, i)[k] == SectionAt(lines, kinds, SectionIndices(kinds, i)[k])
    decreases |lines| - i
  {
    if i < |lines| {
      SectionsFromIndices(lines, kinds, i + 1);
      var w := SectionIndices(kinds, i + 1);
      if kinds[i].SectionLine? {
        assert SectionIndices(kinds, i) == [i] + w;
      } else {
        assert SectionIndices(kinds, i) == w;
      }
    }
  }

  lemma {:induction false} CriteriaInIndices(lines: seq<string>, kinds: seq<LineKind>, i: nat, j: nat, sectionId: string, sectionTitle: string)
    requires |kinds| == |lines| && i <= j <= |lines|
    ensures |CriteriaIn(lines, kinds, i, j, sectionId, sectionTitle)| == |CriterionIndices(kinds, i, j)|
    ensures forall k :: 0 <= k < |CriteriaIn(lines, kinds, i, j, sectionId, sectionTitle)| ==>
      CriteriaIn(lines, kinds, i, j, sectionId, sectionTitle)[k]
        == Criterion(lines, kinds, CriterionIndices(kinds, i, j)[k], sectionId, sectionTitle)
    decreases j - i
  {
    if i < j {
      CriteriaInIndices(lines, kinds, i + 1, j, sectionId, sectionTitle);
      var w := CriterionIndices(kinds, i + 1, j);
      if Emitted(kinds, i) {
        assert CriterionIndices(kinds, i, j) == [i] + w;
      } else {
        assert CriterionIndices(kinds, i, j) == w;
      }
    }
  }

  /** `NextSection` stops at the first section heading: none lies before it. */
  lemma {:induction false} NextSectionSpec(kinds: seq<LineKind>, i: nat)
    requires i <= |kinds|
    ensures forall j :: i <= j < NextSection(kinds, i) ==> !kinds[j].SectionLine?
    ensures NextSection(kinds, i) < |kinds| ==> kinds[NextSection(kinds, i)].SectionLine?
    decreases |kinds| - i
  {
    if i < |kinds| && !kinds[i].SectionLine? {
      NextSectionSpec(kinds, i + 1);
    }
  }

  /** `NextHeading` stops at the first heading: none lies before it. */
  lemma {:induction false} NextHeadingSpec(kinds: seq<LineKind>, i: nat)
    requires i <= |kinds|
    ensures forall j :: i <= j < NextHeading(kinds, i) ==> kinds[j].BodyLine?
    ensures NextHeading(kinds, i) < |kinds| ==> !kinds[NextHeading(kinds, i)].BodyLine?
    decreases |kinds| - i
  {
    if i < |kinds| && kinds[i].BodyLine? {
      NextHeadingSpec(kinds, i + 1);
    }
  }

  /** The content of the criterion that the heading at `c` yields, over a classification of the lines. */
  lemma CriterionFields(lines: seq<string>, kinds: seq<LineKind>, c: nat, sectionId: string, sectionTitle: string)
    requires |kinds| == |lines| && c < |lines| && Emitted(kinds, c)
    ensures var ac := Criterion(lines, kinds, c, sectionId, sectionTitle);
      var e := NextHeading(kinds, c + 1);
      && c + 1 < e
      && (forall j :: c < j < e ==> kinds[j].BodyLine?)
      && (e < |lines| ==> !kinds[e].BodyLine?)
      && ac.id == kinds[c].id && ac.title == kinds[c].title
      && ac.sectionId == sectionId && ac.sectionTitle == sectionTitle
      && ac.lineNumber == c + 1
      && ac.rawContent == lines[c] + Concat(lines[c + 1..e])
      && ac.description == Strip(Concat(lines[c + 1..e]))
  {
    var e := NextHeading(kinds, c + 1);
    NextHeadingSpec(kinds, c + 1);
    assert lines[c..e] == [lines[c]] + lines[c + 1..e];
    ConcatAppend([lines[c]], lines[c + 1..e]);
    assert Concat([lines[c]]) == lines[c] by {
      assert [lines[c]][..0] == [];
    }
  }

  // ---------------------------------------------------------------------------
  // The same facts, over the lines.

  /** The indices of the document's section headings, in order. */
  function SectionLines(lines: seq<string>): seq<nat>
  {
    SectionIndices(KindsOf(lines), 0)
  }

  /** The end of the section that the heading at `s` opens: the next section heading or the end of the document. */
  function SectionEnd(lines: seq<string>, s: nat): nat
    requires s < |lines|
  {
    NextSection(KindsOf(lines), s + 1)
  }

  /** The indices of the criterion headings with a non-empty body inside the section that the heading at `s` opens. */
  function CriterionLines(lines: seq<string>, s: nat): seq<nat>
    requires s < |lines|
  {
    CriterionIndices(KindsOf(lines), s + 1, SectionEnd(lines, s))
  }

  /** The criterion heading at `c` has a non-empty body: a next line that is not a heading. */
  predicate HasBody(lines: seq<string>, c: nat)
    requires c < |lines|
  {
    KindOf(lines[c]).CriterionLine? && c + 1 < |lines| && !IsHeading(lines[c + 1])
  }

  /**
   * One section per section heading, in document order, including sections
   * without criteria: the k-th section carries the letter and the title of the
   * k-th section heading.
   */
  lemma SectionPerHeading(lines: seq<string>)
    ensures |Parse(lines)| == |SectionLines(lines)|
    ensures forall k :: 0 <= k < |SectionLines(lines)| ==>
      SectionLines(lines)[k] < |lines| && KindOf(lines[SectionLines(lines)[k]]).SectionLine?
    ensures forall k, l :: 0 <= k < l < |SectionLines(lines)| ==> SectionLines(lines)[k] < SectionLines(lines)[l]
    ensures forall j :: 0 <= j < |lines| && KindOf(lines[j]).SectionLine? ==> j in SectionLines(lines)
    ensures forall k :: 0 <= k < |Parse(lines)| ==>
      Parse(lines)[k].sectionId == KindOf(lines[SectionLines(lines)[k]]).id &&
      Parse(lines)[k].sectionTitle == KindOf(lines[SectionLines(lines)[k]]).title
  {
    var kinds := KindsOf(lines);
    KindsOfAre(lines);
    ParseIsSections(lines);
    SectionsFromIndices(lines, kinds, 0);
    SectionIndicesSorted(kinds, 0);
    SectionIndicesComplete(kinds, 0);
  }

  /** A section's identifier is one upper-case letter and its title is stripped text within one line. */
  lemma SectionHeadingShape(lines: seq<string>, k: nat)
    requires k < |Parse(lines)|
    ensures |Parse(lines)[k].sectionId| == 1 && IsUpper(Parse(lines)[k].sectionId[0])
    ensures IsTitle(Parse(lines)[k].sectionTitle) && Strip(Parse(lines)[k].sectionTitle) == Parse(lines)[k].sectionTitle
  {
    SectionPerHeading(lines);
    var s := SectionLines(lines)[k];
    KindOfShape(lines[s]);
    StripNoop(Parse(lines)[k].sectionTitle);
  }

  /**
   * The criteria of the k-th section are, in order, those of the criterion
   * headings with a non-empty body between its heading and the next section
   * heading, and each carries the section's letter and title.
   */
  lemma CriteriaOfSection(lines: seq<string>, k: nat)
    requires k < |Parse(lines)|
    ensures k < |SectionLines(lines)| && SectionLines(lines)[k] < |lines|
    ensures var s := SectionLines(lines)[k];
      var acs := Parse(lines)[k].acceptanceCriteria;
      |acs| == |CriterionLines(lines, s)| &&
      forall m :: 0 <= m < |acs| ==>
        acs[m].lineNumber == CriterionLines(lines, s)[m] + 1 &&
        acs[m].sectionId == Parse(lines)[k].sectionId && acs[m].sectionTitle == Parse(lines)[k].sectionTitle
  {
    var kinds := KindsOf(lines);
    ParseIsSections(lines);
    SectionsFromIndices(lines, kinds, 0);
    var s := SectionLines(lines)[k];
    var sec := SectionAt(lines, kinds, s);
    var w := CriterionLines(lines, s);
    CriteriaInIndices(lines, kinds, s + 1, NextSection(kinds, s + 1), sec.sectionId, sec.sectionTitle);
    forall m | 0 <= m < |w|
      ensures sec.acceptanceCriteria[m].lineNumber == w[m] + 1
      ensures sec.acceptanceCriteria[m].sectionId == sec.sectionId && sec.acceptanceCriteria[m].sectionTitle == sec.sectionTitle
    {
      CriterionFields(lines, kinds, w[m], sec.sectionId, sec.sectionTitle);
    }
  }

  /** The classification of a line is `KindOf` of that line. */
  lemma KindAt(lines: seq<string>, j: nat)
    requires j < |lines|
    ensures KindsOf(lines)[j] == KindOf(lines[j])
  {
    KindsOfAre(lines);
  }

  /**
   * A section ends at the next section heading, or at the end of the
   * document: no section heading lies in between.
   */
  lemma SectionEndSpec(lines: seq<string>, s: nat)
    requires s < |lines|
    ensures s < SectionEnd(lines, s) <= |lines|
    ensures forall j :: s < j < SectionEnd(lines, s) ==> !KindOf(lines[j]).SectionLine?
    ensures SectionEnd(lines, s) < |lines| ==> KindOf(lines[SectionEnd(lines, s)]).SectionLine?
  {
    var kinds := KindsOf(lines);
    NextSectionSpec(kinds, s + 1);
    forall j | s < j < SectionEnd(lines, s)
      ensures !KindOf(lines[j]).SectionLine?
    {
      KindAt(lines, j);
    }
    if SectionEnd(lines, s) < |lines| {
      KindAt(lines, SectionEnd(lines, s));
    }
  }

  /** A classified criterion heading with a non-empty body has a non-empty body in the document. */
  lemma HasBodyOf(lines: seq<string>, c: nat)
    requires c < |lines| && Emitted(KindsOf(lines), c)
    ensures HasBody(lines, c)
  {
    KindAt(lines, c);
    KindAt(lines, c + 1);
  }

  /**
   * The criterion lines of a section are criterion headings with a non-empty
   * body between the section heading and the section's end.
   */
  lemma CriterionLinesSpec(lines: seq<string>, s: nat)
    requires s < |lines|
    ensures forall m :: 0 <= m < |CriterionLines(lines, s)| ==>
      s < CriterionLines(lines, s)[m] < SectionEnd(lines, s) && HasBody(lines, CriterionLines(lines, s)[m])
  {
    var w := CriterionLines(lines, s);
    forall m | 0 <= m < |w|
      ensures HasBody(lines, w[m])
    {
      HasBodyOf(lines, w[m]);
    }
  }

  /** The criterion lines of a section are in increasing order. */
  lemma CriterionLinesSorted(lines: seq<string>, s: nat)
    requires s < |lines|
    ensures forall m, n :: 0 <= m < n < |CriterionLines(lines, s)| ==> CriterionLines(lines, s)[m] < CriterionLines(lines, s)[n]
  {
    CriterionIndicesSorted(KindsOf(lines), s + 1, SectionEnd(lines, s));
  }

  /** Every criterion heading with a non-empty body inside a section is among its criterion lines. */
  lemma CriterionLinesComplete(lines: seq<string>, s: nat)
    requires s < |lines|
    ensures forall c :: s < c < SectionEnd(lines, s) && HasBody(lines, c) ==> c in CriterionLines(lines, s)
  {
    var kinds := KindsOf(lines);
    CriterionIndicesComplete(kinds, s + 1, SectionEnd(lines, s));
    forall c | s < c < SectionEnd(lines, s) && HasBody(lines, c)
      ensures c in CriterionLines(lines, s)
    {
      KindAt(lines, c);
      KindAt(lines, c + 1);
    }
  }

  /** Criteria before the first section heading are dropped: no criterion of the result comes from such a line. */
  lemma OrphansDropped(lines: seq<string>, c: nat)
    requires c < |lines|
    requires forall j :: 0 <= j < c ==> !KindOf(lines[j]).SectionLine?
    ensures forall k, m :: 0 <= k < |Parse(lines)| && 0 <= m < |Parse(lines)[k].acceptanceCriteria| ==>
      Parse(lines)[k].acceptanceCriteria[m].lineNumber != c + 1
  {
    SectionPerHeading(lines);
    forall k, m | 0 <= k < |Parse(lines)| && 0 <= m < |Parse(lines)[k].acceptanceCriteria|
      ensures Parse(lines)[k].acceptanceCriteria[m].lineNumber != c + 1
    {
      CriteriaOfSection(lines, k);
      var s := SectionLines(lines)[k];
      CriterionLinesSpec(lines, s);
      assert KindOf(lines[s]).SectionLine?;
    }
  }

  /** The m-th criterion of the k-th section is the one its line's criterion heading yields. */
  lemma CriterionIndex(lines: seq<string>, k: nat, m: nat)
    requires k < |Parse(lines)| && m < |Parse(lines)[k].acceptanceCriteria|
    ensures var ac := Parse(lines)[k].acceptanceCriteria[m];
      0 < ac.lineNumber <= |lines| && Emitted(KindsOf(lines), ac.lineNumber - 1) &&
      ac == Criterion(lines, KindsOf(lines), ac.lineNumber - 1, ac.sectionId, ac.sectionTitle)
  {
    var kinds := KindsOf(lines);
    ParseIsSections(lines);
    SectionsFromIndices(lines, kinds, 0);
    var s := SectionLines(lines)[k];
    var sec := SectionAt(lines, kinds, s);
    var w := CriterionLines(lines, s);
    CriteriaInIndices(lines, kinds, s + 1, NextSection(kinds, s + 1), sec.sectionId, sec.sectionTitle);
    var ac := Criterion(lines, kinds, w[m], sec.sectionId, sec.sectionTitle);
    assert Parse(lines)[k].acceptanceCriteria[m] == ac;
    assert ac.lineNumber == w[m] + 1 && ac.sectionId == sec.sectionId && ac.sectionTitle == sec.sectionTitle;
  }

  /**
   * The m-th criterion of the k-th section comes from a criterion heading with
   * a non-empty body on its line, and carries that heading's identifier
   * (`AC-<letters>-<digits>`) and stripped title.
   */
  lemma CriterionHeading(lines: seq<string>, k: nat, m: nat)
    requires k < |Parse(lines)| && m < |Parse(lines)[k].acceptanceCriteria|
    ensures var ac := Parse(lines)[k].acceptanceCriteria[m];
      var c := ac.lineNumber - 1;
      0 <= c < |lines| && HasBody(lines, c) &&
      ac.id == KindOf(lines[c]).id && IsCriterionId(ac.id) &&
      ac.title == KindOf(lines[c]).title && IsTitle(ac.title)
  {
    CriterionIndex(lines, k, m);
    var ac := Parse(lines)[k].acceptanceCriteria[m];
    var c := ac.lineNumber - 1;
    CriterionFields(lines, KindsOf(lines), c, ac.sectionId, ac.sectionTitle);
    KindAt(lines, c);
    KindAt(lines, c + 1);
    KindOfShape(lines[c]);
  }

  /**
   * The body of the m-th criterion of the k-th section is every line after
   * its heading up to the next heading or the end of the document; it is not
   * empty; the raw content is the heading line followed by the body, and the
   * description is the stripped concatenation of the body.
   */
  lemma CriterionBody(lines: seq<string>, k: nat, m: nat)
    requires k < |Parse(lines)| && m < |Parse(lines)[k].acceptanceCriteria|
    ensures var ac := Parse(lines)[k].acceptanceCriteria[m];
      var c := ac.lineNumber - 1;
      0 <= c < |lines| &&
      var e := NextHeading(KindsOf(lines), c + 1);
      var body := lines[c + 1..e];
      && body != []
      && (forall j :: c < j < e ==> !IsHeading(lines[j]))
      && (e < |lines| ==> IsHeading(lines[e]))
      && ac.rawContent == lines[c] + Concat(body)
      && ac.description == Strip(Concat(body))
  {
    CriterionIndex(lines, k, m);
    var ac := Parse(lines)[k].acceptanceCriteria[m];
    var c := ac.lineNumber - 1;
    var kinds := KindsOf(lines);
    CriterionFields(lines, kinds, c, ac.sectionId, ac.sectionTitle);
    var e := NextHeading(kinds, c + 1);
    forall j | c < j < e
      ensures !IsHeading(lines[j])
    {
      KindAt(lines, j);
    }
    if e < |lines| {
      KindAt(lines, e);
    }
  }
}
