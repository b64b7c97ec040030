/**
 * The two heading patterns of the acceptance-criteria parser, written out as
 * scanners over a right-stripped line:
 *
 *   section heading    `^##\s+([A-Z])\)\s+(.+)$`
 *   criterion heading  `^###\s+(AC-[A-Z]+-\d+)\s*\|\s*(.+)$`
 *
 * The parser only ever matches `line.rstrip()`, so the last character is not
 * whitespace; on such a string every `\s+`, `\s*`, `[A-Z]+` and `\d+` of the
 * patterns takes its longest run (backing off never yields another match),
 * `.` matches anything but a line feed, and `$` can only match at the end.
 */
module AcPatterns {
  import opened Wrappers
  import opened Text

  predicate IsUpper(c: char)
  {
    'A' <= c <= 'Z'
  }

  /** A line feed at index `i` or later: where `.` stops matching. */
  predicate HasLineFeed(s: string, i: nat)
  {
    exists k :: i <= k < |s| && s[k] == '\n'
  }

  /** The end of the longest blank (`\s`) run that starts at `i`. */
  function SkipSpaces(s: string, i: nat): (j: nat)
    requires i <= |s|
    ensures i <= j <= |s|
    decreases |s| - i
  {
    if i == |s| || !IsSpace(s[i]) then i else SkipSpaces(s, i + 1)
  }

  /** Everything `SkipSpaces` passes over is blank, and it stops at the end or at a character that is not. */
  lemma {:induction false} SkipSpacesRun(s: string, i: nat)
    requires i <= |s|
    ensures forall k :: i <= k < SkipSpaces(s, i) ==> IsSpace(s[k])
    ensures SkipSpaces(s, i) == |s| || !IsSpace(s[SkipSpaces(s, i)])
    decreases |s| - i
  {
    if i < |s| && IsSpace(s[i]) {
      SkipSpacesRun(s, i + 1);
    }
  }

  /** A blank (`\s`) run from `i` that ends at `j` is skipped up to `j`. */
  lemma {:induction false} SkipSpacesAt(s: string, i: nat, j: nat)
    requires i <= j <= |s|
    requires forall k :: i <= k < j ==> IsSpace(s[k])
    requires j == |s| || !IsSpace(s[j])
    ensures SkipSpaces(s, i) == j
    decreases j - i
  {
    if i < j {
      SkipSpacesAt(s, i + 1, j);
    }
  }

  /** The end of the longest capital-letter (`[A-Z]`) run that starts at `i`. */
  function SkipUpper(s: string, i: nat): (j: nat)
    requires i <= |s|
    ensures i <= j <= |s|
    decreases |s| - i
  {
    if i == |s| || !IsUpper(s[i]) then i else SkipUpper(s, i + 1)
  }

  /** Everything `SkipUpper` passes over is capital-letter, and it stops at the end or at a character that is not. */
  lemma {:induction false} SkipUpperRun(s: string, i: nat)
    requires i <= |s|
    ensures forall k :: i <= k < SkipUpper(s, i) ==> IsUpper(s[k])
    ensures SkipUpper(s, i) == |s| || !IsUpper(s[SkipUpper(s, i)])
    decreases |s| - i
  {
    if i < |s| && IsUpper(s[i]) {
      SkipUpperRun(s, i + 1);
    }
  }

  /** A capital-letter (`[A-Z]`) run from `i` that ends at `j` is skipped up to `j`. */
  lemma {:induction false} SkipUpperAt(s: string, i: nat, j: nat)
    requires i <= j <= |s|
    requires forall k :: i <= k < j ==> IsUpper(s[k])
    requires j == |s| || !IsUpper(s[j])
    ensures SkipUpper(s, i) == j
    decreases j - i
  {
    if i < j {
      SkipUpperAt(s, i + 1, j);
    }
  }

  /** The end of the longest digit (`\d`, ASCII digits only) run that starts at `i`. */
  function SkipDigits(s: string, i: nat): (j: nat)
    requires i <= |s|
    ensures i <= j <= |s|
    decreases |s| - i
  {
    if i == |s| || !IsDigit(s[i]) then i else SkipDigits(s, i + 1)
  }

  /** Everything `SkipDigits` passes over is digit, and it stops at the end or at a character that is not. */
  lemma {:induction false} SkipDigitsRun(s: string, i: nat)
    requires i <= |s|
    ensures forall k :: i <= k < SkipDigits(s, i) ==> IsDigit(s[k])
    ensures SkipDigits(s, i) == |s| || !IsDigit(s[SkipDigits(s, i)])
    decreases |s| - i
  {
    if i < |s| && IsDigit(s[i]) {
      SkipDigitsRun(s, i + 1);
    }
  }

  /** A digit (`\d`, ASCII digits only) run from `i` that ends at `j` is skipped up to `j`. */
  lemma {:induction false} SkipDigitsAt(s: string, i: nat, j: nat)
    requires i <= j <= |s|
    requires forall k :: i <= k < j ==> IsDigit(s[k])
    requires j == |s| || !IsDigit(s[j])
    ensures SkipDigits(s, i) == j
    decreases j - i
  {
    if i < j {
      SkipDigitsAt(s, i + 1, j);
    }
  }

  /**
   * `section_pattern.match(s)`: the letter (group 1) and the rest of the line
   * after the blank run that follows `)` (group 2).
   */
  function MatchSection(s: string): Option<(string, string)>
    requires RStripped(s)
  {
    if |s| < 2 || s[..2] != "##" then None
    else
      var a := SkipSpaces(s, 2);
      if a == 2 || a + 2 > |s| || !IsUpper(s[a]) || s[a + 1] != ')' then None
      else
        var b := SkipSpaces(s, a + 2);
        if b == a + 2 || b == |s| || HasLineFeed(s, b) then None
        else Some(([s[a]], s[b..]))
  }

  /**
   * `ac_pattern.match(s)`: the criterion identifier (group 1) and the rest of
   * the line after the blank run that follows `|` (group 2).
   */
  function MatchCriterion(s: string): Option<(string, string)>
    requires RStripped(s)
  {
    if |s| < 3 || s[..3] != "###" then None
    else
      var a := SkipSpaces(s, 3);
      if a == 3 || a + 3 > |s| || s[a..a + 3] != "AC-" then None
      else
        var u := SkipUpper(s, a + 3);
        if u == a + 3 || u == |s| || s[u] != '-' then None
        else
          var d := SkipDigits(s, u + 1);
          if d == u + 1 then None
          else
            var w := SkipSpaces(s, d);
            if w == |s| || s[w] != '|' then None
            else
              var v := SkipSpaces(s, w + 1);
              if v == |s| || HasLineFeed(s, v) then None
              else Some((s[a..d], s[v..]))
  }

  /** What a line of the document is, as the parser sees it. */
  datatype LineKind =
    | SectionLine(id: string, title: string)
    | CriterionLine(id: string, title: string)
    | BodyLine

  /**
   * The parser's reading of one line: the section pattern is tried first, then
   * the criterion pattern, both on `line.rstrip()`; the titles are group 2 stripped.
   */
  function KindOf(line: string): LineKind
  {
    var t := RStrip(line);
    match MatchSection(t)
    case Some(m) => SectionLine(m.0, Strip(m.1))
    case None =>
      match MatchCriterion(t)
      case Some(m) => CriterionLine(m.0, Strip(m.1))
      case None => BodyLine
  }

  /** A line that opens a section or a criterion. */
  predicate IsHeading(line: string)
  {
    !KindOf(line).BodyLine?
  }

  // ---------------------------------------------------------------------------
  // The patterns as grammars, and the scanners proved equal to them.

  ghost predicate AllUpper(w: string)
  {
    forall i :: 0 <= i < |w| ==> IsUpper(w[i])
  }

  ghost predicate AllDigits(w: string)
  {
    forall i :: 0 <= i < |w| ==> IsDigit(w[i])
  }

  /** An identifier of the shape `AC-[A-Z]+-\d+`: `AC-`, capitals up to a dash at `u`, then digits. */
  ghost predicate IsCriterionId(id: string)
  {
    |id| > 3 && id[..3] == "AC-" &&
    exists u :: 3 < u < |id| - 1 && id[u] == '-' && AllUpper(id[3..u]) && AllDigits(id[u + 1..])
  }

  /** A group 2 that the parser can capture: non-empty, no leading blank, no line feed. */
  ghost predicate IsTitleText(t: string)
  {
    t != [] && !IsSpace(t[0]) && forall k :: 0 <= k < |t| ==> t[k] != '\n'
  }

  /**
   * How the section pattern matches `s`: `##`, a blank run up to `a`, the
   * letter at `a`, `)`, a blank run up to `b`, and group 2 from `b` on, which
   * starts with a non-blank (the blank run is greedy) and holds no line feed.
   */
  ghost predicate SectionLayout(s: string, a: nat, b: nat)
  {
    2 < a && a + 2 < b < |s| && s[..2] == "##" &&
    (forall k :: 2 <= k < a ==> IsSpace(s[k])) && IsUpper(s[a]) && s[a + 1] == ')' &&
    (forall k :: a + 2 <= k < b ==> IsSpace(s[k])) && !IsSpace(s[b]) && !HasLineFeed(s, b)
  }

  /**
   * How the criterion pattern matches `s`: `###`, a blank run up to `a`,
   * `AC-` and capitals up to the dash at `u`, digits up to `d` (group 1 is
   * `s[a..d]`), optional blanks up to the `|` at `w`, optional blanks up to
   * `v`, and group 2 from `v` on, which starts with a non-blank and holds no
   * line feed.
   */
  ghost predicate CriterionLayout(s: string, a: nat, u: nat, d: nat, w: nat, v: nat)
  {
    3 < a && a + 3 < u && u + 1 < d <= w < v < |s| && s[..3] == "###" &&
    (forall k :: 3 <= k < a ==> IsSpace(s[k])) && s[a..a + 3] == "AC-" &&
    (forall k :: a + 3 <= k < u ==> IsUpper(s[k])) && s[u] == '-' &&
    (forall k :: u + 1 <= k < d ==> IsDigit(s[k])) &&
    (forall k :: d <= k < w ==> IsSpace(s[k])) && s[w] == '|' &&
    (forall k :: w + 1 <= k < v ==> IsSpace(s[k])) && !IsSpace(s[v]) && !HasLineFeed(s, v)
  }

  /** The section scanner matches only section layouts, and reports their letter and group 2 (soundness). */
  lemma MatchSectionSound(s: string)
    requires RStripped(s)
    requires MatchSection(s).Some?
    ensures exists a: nat, b: nat :: SectionLayout(s, a, b) && MatchSection(s).value == ([s[a]], s[b..])
  {
    var a := SkipSpaces(s, 2);
    var b := SkipSpaces(s, a + 2);
    SkipSpacesRun(s, 2);
    SkipSpacesRun(s, a + 2);
    assert SectionLayout(s, a, b);
  }

  /** Every section layout is matched, with its letter and group 2 (completeness). */
  lemma MatchSectionComplete(s: string, a: nat, b: nat)
    requires RStripped(s)
    requires SectionLayout(s, a, b)
    ensures MatchSection(s) == Some(([s[a]], s[b..]))
  {
    SkipSpacesAt(s, 2, a);
    SkipSpacesAt(s, a + 2, b);
  }

  /** Group 2 of a section layout is title text, and group 1 a capital letter. */
  lemma SectionLayoutGroups(s: string, a: nat, b: nat)
    requires SectionLayout(s, a, b)
    ensures IsUpper(s[a]) && IsTitleText(s[b..])
  {
    assert forall k :: 0 <= k < |s[b..]| ==> s[b..][k] == s[b + k];
  }

  /** The criterion scanner matches only criterion layouts, and reports their groups (soundness). */
  lemma MatchCriterionSound(s: string)
    requires RStripped(s)
    requires MatchCriterion(s).Some?
    ensures exists a: nat, u: nat, d: nat, w: nat, v: nat :: CriterionLayout(s, a, u, d, w, v) && MatchCriterion(s).value == (s[a..d], s[v..])
  {
    var a := SkipSpaces(s, 3);
    var u := SkipUpper(s, a + 3);
    var d := SkipDigits(s, u + 1);
    var w := SkipSpaces(s, d);
    var v := SkipSpaces(s, w + 1);
    assert MatchCriterion(s).value == (s[a..d], s[v..]);
    ScannedCriterionLayout(s, a, u, d, w, v);
  }

  /** The cut points the criterion scanner finds form a criterion layout. */
  lemma ScannedCriterionLayout(s: string, a: nat, u: nat, d: nat, w: nat, v: nat)
    requires 3 < a && a + 3 < u < |s| && u + 1 < d && w < |s| && v < |s|
    requires s[..3] == "###" && s[a..a + 3] == "AC-" && s[u] == '-' && s[w] == '|' && !HasLineFeed(s, v)
    requires a == SkipSpaces(s, 3) && u == SkipUpper(s, a + 3) && d == SkipDigits(s, u + 1)
    requires w == SkipSpaces(s, d) && v == SkipSpaces(s, w + 1)
    ensures CriterionLayout(s, a, u, d, w, v)
  {
    SkipSpacesRun(s, 3);
    SkipUpperRun(s, a + 3);
    SkipDigitsRun(s, u + 1);
    SkipSpacesRun(s, d);
    SkipSpacesRun(s, w + 1);
  }

  /** Every criterion layout is matched, with its groups (completeness). */
  lemma MatchCriterionComplete(s: string, a: nat, u: nat, d: nat, w: nat, v: nat)
    requires RStripped(s)
    requires CriterionLayout(s, a, u, d, w, v)
    ensures MatchCriterion(s) == Some((s[a..d], s[v..]))
  {
    CriterionLayoutScanned(s, a, u, d, w, v);
  }

  /** On a criterion layout the scanners stop at its cut points. */
  lemma CriterionLayoutScanned(s: string, a: nat, u: nat, d: nat, w: nat, v: nat)
    requires CriterionLayout(s, a, u, d, w, v)
    ensures a == SkipSpaces(s, 3) && u == SkipUpper(s, a + 3) && d == SkipDigits(s, u + 1)
    ensures w == SkipSpaces(s, d) && v == SkipSpaces(s, w + 1)
  {
    assert s[a] == 'A' by { assert s[a] == s[a..a + 3][0]; }
    assert !IsDigit(s[d]);
    SkipSpacesAt(s, 3, a);
    SkipUpperAt(s, a + 3, u);
    SkipDigitsAt(s, u + 1, d);
    SkipSpacesAt(s, d, w);
    SkipSpacesAt(s, w + 1, v);
  }

  /** Group 1 of a criterion layout is an `AC-[A-Z]+-\d+` identifier, and group 2 title text. */
  lemma CriterionLayoutGroups(s: string, a: nat, u: nat, d: nat, w: nat, v: nat)
    requires CriterionLayout(s, a, u, d, w, v)
    ensures IsCriterionId(s[a..d]) && IsTitleText(s[v..])
  {
    var id := s[a..d];
    assert id[..3] == "AC-";
    assert id[u - a] == '-';
    var cat, num := id[3..u - a], id[u - a + 1..];
    assert forall k :: 0 <= k < |cat| ==> cat[k] == s[a + 3 + k];
    assert forall k :: 0 <= k < |num| ==> num[k] == s[u + 1 + k];
    assert AllUpper(cat) && AllDigits(num);
    assert forall k :: 0 <= k < |s[v..]| ==> s[v..][k] == s[v + k];
  }
  // ---------------------------------------------------------------------------
  // What the parser's reading of a line yields.

  /** A title as the parser keeps it: title text that `strip()` leaves unchanged. */
  ghost predicate IsTitle(t: string)
  {
    IsTitleText(t) && !IsSpace(t[|t| - 1])
  }

  /** Group 2 of a matched heading is a suffix of the right-stripped line, so `strip()` keeps all of it. */
  lemma TitleOfSuffix(s: string, b: nat)
    requires RStripped(s) && b < |s| && IsTitleText(s[b..])
    ensures IsTitle(s[b..]) && Strip(s[b..]) == s[b..]
  {
    assert s[b..][|s[b..]| - 1] == s[|s| - 1];
    StripNoop(s[b..]);
  }

  /**
   * A section heading yields a one-capital identifier, a criterion heading an
   * `AC-[A-Z]+-\d+` identifier, and either yields a non-empty title with no
   * blank at either end and no line feed.
   */
  lemma KindOfShape(line: string)
    ensures KindOf(line).SectionLine? ==>
      |KindOf(line).id| == 1 && IsUpper(KindOf(line).id[0]) && IsTitle(KindOf(line).title)
    ensures KindOf(line).CriterionLine? ==>
      IsCriterionId(KindOf(line).id) && IsTitle(KindOf(line).title)
  {
    var t := RStrip(line);
    if MatchSection(t).Some? {
      MatchSectionSound(t);
      var a: nat, b: nat :| SectionLayout(t, a, b) && MatchSection(t).value == ([t[a]], t[b..]);
      SectionLayoutGroups(t, a, b);
      TitleOfSuffix(t, b);
    } else if MatchCriterion(t).Some? {
      MatchCriterionSound(t);
      var a: nat, u: nat, d: nat, w: nat, v: nat :|
        CriterionLayout(t, a, u, d, w, v) && MatchCriterion(t).value == (t[a..d], t[v..]);
      CriterionLayoutGroups(t, a, u, d, w, v);
      TitleOfSuffix(t, v);
    }
  }

  /** A line whose right-stripped text has a section layout is read as that section heading. */
  lemma KindOfSectionLayout(line: string, a: nat, b: nat)
    requires SectionLayout(RStrip(line), a, b)
    ensures KindOf(line) == SectionLine([RStrip(line)[a]], RStrip(line)[b..])
  {
    var t := RStrip(line);
    MatchSectionComplete(t, a, b);
    SectionLayoutGroups(t, a, b);
    TitleOfSuffix(t, b);
  }

  /** A line whose right-stripped text has a criterion layout is read as that criterion heading. */
  lemma KindOfCriterionLayout(line: string, a: nat, u: nat, d: nat, w: nat, v: nat)
    requires CriterionLayout(RStrip(line), a, u, d, w, v)
    ensures KindOf(line) == CriterionLine(RStrip(line)[a..d], RStrip(line)[v..])
  {
    var t := RStrip(line);
    assert t[2] == '#' by { assert t[2] == t[..3][2]; }
    assert MatchSection(t).None?;
    MatchCriterionComplete(t, a, u, d, w, v);
    CriterionLayoutGroups(t, a, u, d, w, v);
    TitleOfSuffix(t, v);
  }
}
