/**
 * String operations of Python's `str` that the model relies on:
 * whitespace, `rstrip`/`strip`, `''.join`, `sep.join`, `str(n)` for
 * natural numbers, `s.split('\n')` and its first element.
 */
module Text {

  /** `str.isspace()` for one character; the regular-expression class `\s` is the same set. */
  predicate IsSpace(c: char)
  {
    || ('\t' <= c <= '\r')
    || ('\U{1C}' <= c <= ' ')
    || c == '\U{85}' || c == '\U{A0}' || c == '\U{1680}'
    || ('\U{2000}' <= c <= '\U{200A}')
    || c == '\U{2028}' || c == '\U{2029}' || c == '\U{202F}' || c == '\U{205F}' || c == '\U{3000}'
  }

  ghost predicate AllSpaces(w: string)
  {
    forall i :: 0 <= i < |w| ==> IsSpace(w[i])
  }

  /** A string that `rstrip()` leaves as it is. */
  predicate RStripped(s: string)
  {
    s == [] || !IsSpace(s[|s| - 1])
  }

  /** `s.rstrip()`: the longest prefix of `s` that does not end in whitespace. */
  function RStrip(s: string): (r: string)
    ensures |r| <= |s|
    ensures RStripped(r)
  {
    if RStripped(s) then s else RStrip(s[..|s| - 1])
  }

  /** `rstrip()` removes only a blank run at the end. */
  lemma {:induction false} RStripSlice(s: string)
    ensures RStrip(s) == s[..|RStrip(s)|]
    ensures AllSpaces(s[|RStrip(s)|..])
  {
    if !RStripped(s) {
      var p := s[..|s| - 1];
      RStripSlice(p);
      assert s[|RStrip(s)|..] == p[|RStrip(p)|..] + [s[|s| - 1]];
    }
  }

  /** `s.lstrip()`: the longest suffix of `s` that does not start with whitespace. */
  function LStrip(s: string): (r: string)
    ensures |r| <= |s|
  {
    if s == [] || !IsSpace(s[0]) then s else LStrip(s[1..])
  }

  /** `lstrip()` removes only a blank run at the start. */
  lemma {:induction false} LStripSlice(s: string)
    ensures LStrip(s) == s[|s| - |LStrip(s)|..]
    ensures AllSpaces(s[..|s| - |LStrip(s)|])
  {
    if s != [] && IsSpace(s[0]) {
      var p := s[1..];
      LStripSlice(p);
      assert s[..|s| - |LStrip(s)|] == [s[0]] + p[..|p| - |LStrip(p)|];
    }
  }

  /** `s.strip()`: `s` without its leading and trailing whitespace. */
  function Strip(s: string): string
  {
    LStrip(RStrip(s))
  }

  /** `lstrip()` keeps the last character of a string it does not empty. */
  lemma {:induction false} LStripEnds(s: string)
    ensures LStrip(s) == [] || !IsSpace(LStrip(s)[0])
    ensures LStrip(s) != [] ==> LStrip(s)[|LStrip(s)| - 1] == s[|s| - 1]
  {
    if s != [] && IsSpace(s[0]) {
      LStripEnds(s[1..]);
    }
  }

  /** The result of `strip()` neither starts nor ends with whitespace. */
  lemma StripEnds(s: string)
    ensures |Strip(s)| <= |s|
    ensures Strip(s) == [] || (!IsSpace(Strip(s)[0]) && !IsSpace(Strip(s)[|Strip(s)| - 1]))
  {
    LStripEnds(RStrip(s));
  }

  /** What `strip()` removes is whitespace only: the result is a slice of `s` between two blank runs. */
  lemma StripSlice(s: string) returns (a: nat)
    ensures a + |Strip(s)| <= |s| && s[a..a + |Strip(s)|] == Strip(s)
    ensures AllSpaces(s[..a]) && AllSpaces(s[a + |Strip(s)|..])
  {
    var t := RStrip(s);
    var r := LStrip(t);
    RStripSlice(s);
    LStripSlice(t);
    a := |t| - |r|;
    assert s[a..a + |r|] == r;
    assert AllSpaces(s[..a]) by { assert s[..a] == t[..a]; }
    assert AllSpaces(s[a + |r|..]) by { assert s[a + |r|..] == s[|t|..]; }
  }

  /** Stripping a string that has no whitespace at either end leaves it unchanged. */
  lemma StripNoop(s: string)
    requires s == [] || (!IsSpace(s[0]) && !IsSpace(s[|s| - 1]))
    ensures Strip(s) == s
  {
  }

  /** `''.join(ss)`. */
  function Concat(ss: seq<string>): string
  {
    if ss == [] then "" else Concat(ss[..|ss| - 1]) + ss[|ss| - 1]
  }

  lemma {:induction false} ConcatAppend(a: seq<string>, b: seq<string>)
    ensures Concat(a + b) == Concat(a) + Concat(b)
    decreases |b|
  {
    if b == [] {
      assert a + b == a;
    } else {
      calc {
        Concat(a + b);
        { assert (a + b)[..|a + b| - 1] == a + b[..|b| - 1]; }
        Concat(a + b[..|b| - 1]) + b[|b| - 1];
        { ConcatAppend(a, b[..|b| - 1]); }
        Concat(a) + Concat(b[..|b| - 1]) + b[|b| - 1];
      }
    }
  }

  /** `sep.join(ss)`. */
  function Join(ss: seq<string>, sep: string): string
  {
    if |ss| == 0 then "" else if |ss| == 1 then ss[0] else Join(ss[..|ss| - 1], sep) + sep + ss[|ss| - 1]
  }

  /** Joining two non-empty runs of lines puts one separator between them. */
  lemma {:induction false} JoinAppend(a: seq<string>, b: seq<string>, sep: string)
    requires a != [] && b != []
    ensures Join(a + b, sep) == Join(a, sep) + sep + Join(b, sep)
    decreases |b|
  {
    if |b| == 1 {
      assert (a + b)[..|a + b| - 1] == a;
    } else {
      assert (a + b)[..|a + b| - 1] == a + b[..|b| - 1];
      JoinAppend(a, b[..|b| - 1], sep);
    }
  }

  /** `True` when `s` starts with `p` (`s.startswith(p)`). */
  predicate HasPrefix(s: string, p: string)
  {
    |p| <= |s| && s[..|p|] == p
  }

  predicate IsDigit(c: char)
  {
    '0' <= c <= '9'
  }

  /** The numeric value of a string of decimal digits. */
  function DigitsValue(s: string): nat
    requires forall i :: 0 <= i < |s| ==> IsDigit(s[i])
  {
    if s == [] then 0
    else
      var last := s[|s| - 1];
      assert IsDigit(s[|s| - 1]);
      assert '0' as int <= last as int;
      DigitsValue(s[..|s| - 1]) * 10 + (last as int - '0' as int)
  }

  /** `str(n)` for a natural number: its decimal digits, without leading zeros. */
  function NatToString(n: nat): string
  {
    var d := ['0' + (n % 10) as char];
    if n < 10 then d else NatToString(n / 10) + d
  }

  /** A rendered number is a non-empty string of digits, has no leading zero, and reads back as the number. */
  lemma {:induction false} NatToStringDigits(n: nat)
    ensures NatToString(n) != []
    ensures forall i :: 0 <= i < |NatToString(n)| ==> IsDigit(NatToString(n)[i])
    ensures NatToString(n)[0] == '0' ==> n == 0 && NatToString(n) == "0"
    ensures DigitsValue(NatToString(n)) == n
  {
    var d := ['0' + (n % 10) as char];
    if n >= 10 {
      var r := NatToString(n / 10);
      NatToStringDigits(n / 10);
      assert NatToString(n) == r + d;
      assert (r + d)[..|r + d| - 1] == r;
      assert (r + d)[0] == r[0];
    }
  }

  /** `str` on natural numbers is injective, so a rendered count identifies the count. */
  lemma NatToStringInjective(m: nat, n: nat)
    requires NatToString(m) == NatToString(n)
    ensures m == n
  {
    NatToStringDigits(m);
    NatToStringDigits(n);
  }

  /** `s.split('\n')[0]`: the text before the first line feed. */
  function FirstLine(s: string): string
  {
    if s == [] || s[0] == '\n' then "" else [s[0]] + FirstLine(s[1..])
  }

  /** The first line is a prefix without line feeds, ended by the end of the text or by a line feed. */
  lemma {:induction false} FirstLineSpec(s: string)
    ensures |FirstLine(s)| <= |s| && FirstLine(s) == s[..|FirstLine(s)|]
    ensures '\n' !in FirstLine(s)
    ensures |FirstLine(s)| < |s| ==> s[|FirstLine(s)|] == '\n'
  {
    if s != [] && s[0] != '\n' {
      FirstLineSpec(s[1..]);
      var r := FirstLine(s[1..]);
      assert FirstLine(s) == [s[0]] + r;
      assert s[..|r| + 1] == [s[0]] + s[1..][..|r|];
    }
  }

  /** `s.split('\n')`: the pieces between line feeds; a text without one is a single piece. */
  function SplitLines(s: string): seq<string>
    decreases |s|
  {
    FirstLineSpec(s);
    var first := FirstLine(s);
    if |first| == |s| then [s] else [first] + SplitLines(s[|first| + 1..])
  }

  /** The first line of a text that continues after a line feed is the text before it. */
  lemma {:induction false} FirstLineBefore(x: string, rest: string)
    requires '\n' !in x
    ensures FirstLine(x + "\n" + rest) == x
  {
    if x != [] {
      assert (x + "\n" + rest)[1..] == x[1..] + "\n" + rest;
      FirstLineBefore(x[1..], rest);
      assert [x[0]] + x[1..] == x;
    }
  }

  /** A text without line feeds is its own first line. */
  lemma FirstLineWhole(x: string)
    requires '\n' !in x
    ensures FirstLine(x) == x
  {
    FirstLineSpec(x);
  }

  /** Splitting lines without line feeds, joined with line feeds, gives the lines back. */
  lemma {:induction false} SplitJoin(ls: seq<string>)
    requires ls != []
    requires forall i :: 0 <= i < |ls| ==> '\n' !in ls[i]
    ensures SplitLines(Join(ls, "\n")) == ls
    decreases |ls|
  {
    if |ls| == 1 {
      FirstLineWhole(ls[0]);
    } else {
      var x := ls[0];
      var rest := ls[1..];
      assert ls == [x] + rest;
      JoinAppend([x], rest, "\n");
      var j := Join(rest, "\n");
      assert Join(ls, "\n") == x + "\n" + j;
      FirstLineBefore(x, j);
      assert (x + "\n" + j)[|x| + 1..] == j;
      SplitJoin(rest);
    }
  }
}
