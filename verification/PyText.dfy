/** Python string behaviour the plan scanners rely on: character classes of `re`,
    `str.splitlines`, `str.rstrip("\r\n")`, `str.strip`, `in`. */
module PyText {

  /** Characters matched by `\s` and by `str.isspace`. */
  predicate IsSpace(c: char) {
    var u := c as int;
    9 <= u <= 13 || 28 <= u <= 32 || u == 0x85 || u == 0xA0 || u == 0x1680 || 0x2000 <= u <= 0x200A ||
    u == 0x2028 || u == 0x2029 || u == 0x202F || u == 0x205F || u == 0x3000
  }

  /** Characters at which `str.splitlines` ends a line. */
  predicate IsLineEnd(c: char) {
    var u := c as int;
    10 <= u <= 13 || 28 <= u <= 30 || u == 0x85 || u == 0x2028 || u == 0x2029
  }

  /** A line end that `rstrip("\r\n")` leaves in place. */
  predicate IsExoticEnd(c: char) {
    IsLineEnd(c) && c != '\r' && c != '\n'
  }

  /** The zero of the last run of ten decimal digits (Unicode category Nd), ASCII aside, that begins at or before `u`, or
      of the first. */
  function RunStart(u: int): int {
    if u < 0x6F0 then 0x660 else if u < 0x7C0 then 0x6F0 else if u < 0x966 then 0x7C0 else
    if u < 0x9E6 then 0x966 else if u < 0xA66 then 0x9E6 else if u < 0xAE6 then 0xA66 else
    if u < 0xB66 then 0xAE6 else if u < 0xBE6 then 0xB66 else if u < 0xC66 then 0xBE6 else
    if u < 0xCE6 then 0xC66 else if u < 0xD66 then 0xCE6 else if u < 0xDE6 then 0xD66 else
    if u < 0xE50 then 0xDE6 else if u < 0xED0 then 0xE50 else if u < 0xF20 then 0xED0 else
    if u < 0x1040 then 0xF20 else if u < 0x1090 then 0x1040 else if u < 0x17E0 then 0x1090 else
    if u < 0x1810 then 0x17E0 else if u < 0x1946 then 0x1810 else if u < 0x19D0 then 0x1946 else
    if u < 0x1A80 then 0x19D0 else if u < 0x1A90 then 0x1A80 else if u < 0x1B50 then 0x1A90 else
    if u < 0x1BB0 then 0x1B50 else if u < 0x1C40 then 0x1BB0 else if u < 0x1C50 then 0x1C40 else
    if u < 0xA620 then 0x1C50 else if u < 0xA8D0 then 0xA620 else if u < 0xA900 then 0xA8D0 else
    if u < 0xA9D0 then 0xA900 else if u < 0xA9F0 then 0xA9D0 else if u < 0xAA50 then 0xA9F0 else
    if u < 0xABF0 then 0xAA50 else if u < 0xFF10 then 0xABF0 else if u < 0x104A0 then 0xFF10 else
    if u < 0x10D30 then 0x104A0 else if u < 0x11066 then 0x10D30 else if u < 0x110F0 then 0x11066 else
    if u < 0x11136 then 0x110F0 else if u < 0x111D0 then 0x11136 else if u < 0x112F0 then 0x111D0 else
    if u < 0x11450 then 0x112F0 else if u < 0x114D0 then 0x11450 else if u < 0x11650 then 0x114D0 else
    if u < 0x116C0 then 0x11650 else if u < 0x11730 then 0x116C0 else if u < 0x118E0 then 0x11730 else
    if u < 0x11950 then 0x118E0 else if u < 0x11C50 then 0x11950 else if u < 0x11D50 then 0x11C50 else
    if u < 0x11DA0 then 0x11D50 else if u < 0x16A60 then 0x11DA0 else if u < 0x16AC0 then 0x16A60 else
    if u < 0x16B50 then 0x16AC0 else if u < 0x1D7CE then 0x16B50 else if u < 0x1D7D8 then 0x1D7CE else
    if u < 0x1D7E2 then 0x1D7D8 else if u < 0x1D7EC then 0x1D7E2 else if u < 0x1D7F6 then 0x1D7EC else
    if u < 0x1E140 then 0x1D7F6 else if u < 0x1E2F0 then 0x1E140 else if u < 0x1E950 then 0x1E2F0 else
    if u < 0x1FBF0 then 0x1E950 else 0x1FBF0
  }

  /** Characters matched by `\d`. */
  predicate IsDigit(c: char) {
    IsAsciiDigit(c) || RunStart(c as int) <= c as int < RunStart(c as int) + 10
  }

  predicate IsAsciiDigit(c: char) {
    '0' <= c <= '9'
  }

  /** First and last code points of the runs that `str.isdigit` accepts and `int` does not: superscripts, circled
      digits and the like. */
  const OTHER_DIGIT_RUNS := [
    (0xB2, 0xB3), (0xB9, 0xB9), (0x1369, 0x1371), (0x19DA, 0x19DA), (0x2070, 0x2070), (0x2074, 0x2079),
    (0x2080, 0x2089), (0x2460, 0x2468), (0x2474, 0x247C), (0x2488, 0x2490), (0x24EA, 0x24EA), (0x24F5, 0x24FD),
    (0x24FF, 0x24FF), (0x2776, 0x277E), (0x2780, 0x2788), (0x278A, 0x2792), (0x10A40, 0x10A43),
    (0x10E60, 0x10E68), (0x11052, 0x1105A), (0x1F100, 0x1F10A)]

  predicate IsOtherDigit(c: char) {
    exists k :: 0 <= k < |OTHER_DIGIT_RUNS| && OTHER_DIGIT_RUNS[k].0 <= c as int <= OTHER_DIGIT_RUNS[k].1
  }

  /** `s.isdigit()`. */
  predicate IsDigitText(s: string) {
    s != [] && forall k :: 0 <= k < |s| ==> IsDigit(s[k]) || IsOtherDigit(s[k])
  }

  /** The number a digit stands for. */
  function DigitOf(c: char): int {
    if IsAsciiDigit(c) then c as int - '0' as int else c as int - RunStart(c as int)
  }

  /** One of the four separators that `str.strip` takes for blanks and `int` does not. */
  predicate IsSeparator(c: char) {
    28 <= c as int <= 31
  }

  predicate IsAsciiLetter(c: char) {
    'a' <= c <= 'z' || 'A' <= c <= 'Z'
  }

  predicate IsAt(hay: string, needle: string, k: nat) {
    k + |needle| <= |hay| && hay[k..k + |needle|] == needle
  }

  /** `needle in hay` on strings. */
  predicate Contains(hay: string, needle: string) {
    exists k :: 0 <= k <= |hay| && IsAt(hay, needle, k)
  }

  function StripLeft(s: string): (r: string)
    ensures |r| <= |s|
  {
    if s != [] && IsSpace(s[0]) then StripLeft(s[1..]) else s
  }

  function StripRight(s: string): (r: string)
    ensures |r| <= |s|
  {
    if s != [] && IsSpace(s[|s| - 1]) then StripRight(s[..|s| - 1]) else s
  }

  function Strip(s: string): string {
    StripRight(StripLeft(s))
  }

  /** `s.strip("~")`, for any single character. */
  function StripChar(s: string, c: char): string
    decreases |s|
  {
    if s != [] && s[0] == c then StripChar(s[1..], c)
    else if s != [] && s[|s| - 1] == c then StripChar(s[..|s| - 1], c)
    else s
  }

  /** Index of the first character at or after `i` that is not a space. */
  function SkipSpaces(s: string, i: nat): (j: nat)
    requires i <= |s|
    ensures i <= j <= |s|
    decreases |s| - i
  {
    if i < |s| && IsSpace(s[i]) then SkipSpaces(s, i + 1) else i
  }

  /** Characters consumed by the next line, its terminator included. */
  function FirstLine(s: string): (n: nat)
    requires s != []
    ensures 0 < n <= |s|
  {
    if IsLineEnd(s[0]) then if s[0] == '\r' && |s| > 1 && s[1] == '\n' then 2 else 1
    else if |s| == 1 then 1
    else 1 + FirstLine(s[1..])
  }

  /** `s.splitlines(keepends=True)`. */
  function SplitLines(s: string): seq<string> {
    if s == [] then [] else [s[..FirstLine(s)]] + SplitLines(s[FirstLine(s)..])
  }

  /** `"".join(lines)`. */
  function Join(lines: seq<string>): string {
    if lines == [] then [] else lines[0] + Join(lines[1..])
  }

  /** The line without its terminator, as `splitlines()` gives it. */
  function Chomp(line: string): (b: string)
    ensures b <= line
  {
    if line == [] || !IsLineEnd(line[|line| - 1]) then line
    else if line[|line| - 1] == '\n' && |line| > 1 && line[|line| - 2] == '\r' then line[..|line| - 2]
    else line[..|line| - 1]
  }

  /** `line.rstrip("\r\n")`. */
  function RstripNewline(line: string): (b: string)
    ensures b <= line
  {
    if line != [] && (line[|line| - 1] == '\r' || line[|line| - 1] == '\n') then RstripNewline(line[..|line| - 1])
    else line
  }

  /** One line as `splitlines` delivers it: a body without line ends, then at most one terminator. */
  ghost predicate ProperLine(line: string) {
    line != [] && forall k :: 0 <= k < |Chomp(line)| ==> !IsLineEnd(Chomp(line)[k])
  }

  lemma {:induction false} JoinSplit(s: string)
    ensures Join(SplitLines(s)) == s
    decreases |s|
  {
    if s != [] {
      var n := FirstLine(s);
      JoinSplit(s[n..]);
      JoinCons(s[..n], SplitLines(s[n..]));
      assert s == s[..n] + s[n..];
    }
  }

  lemma JoinCons(head: string, tail: seq<string>)
    ensures Join([head] + tail) == head + Join(tail)
  {
    assert ([head] + tail)[1..] == tail;
  }

  lemma {:induction false} FirstLineIsProper(s: string)
    requires s != []
    ensures ProperLine(s[..FirstLine(s)])
    decreases |s|
  {
    var n := FirstLine(s);
    if !IsLineEnd(s[0]) && |s| > 1 {
      FirstLineIsProper(s[1..]);
      var m := FirstLine(s[1..]);
      var rest := s[1..][..m];
      assert s[..n] == [s[0]] + rest;
      assert Chomp(s[..n]) == [s[0]] + Chomp(rest);
    } else if n == 2 {
      assert Chomp(s[..2]) == [];
    }
  }

  lemma {:induction false} SplitLinesProper(s: string)
    ensures forall k :: 0 <= k < |SplitLines(s)| ==> ProperLine(SplitLines(s)[k])
    decreases |s|
  {
    if s != [] {
      FirstLineIsProper(s);
      SplitLinesProper(s[FirstLine(s)..]);
    }
  }

  /** `t` is `s` with some blanks replaced by `x`. */
  ghost predicate Ticked(s: string, t: string) {
    |s| == |t| && forall k :: 0 <= k < |s| ==> t[k] == s[k] || (s[k] == ' ' && t[k] == 'x')
  }

  /** Line boundaries do not move when blanks become `x`. */
  lemma {:induction false} FirstLineTicked(s: string, t: string)
    requires s != [] && Ticked(s, t)
    ensures FirstLine(t) == FirstLine(s)
    decreases |s|
  {
    if !IsLineEnd(s[0]) && |s| > 1 {
      FirstLineTicked(s[1..], t[1..]);
    }
  }

  /** `rstrip("\r\n")` removes an ordinary terminator whole and keeps an exotic one. */
  lemma {:induction false} RstripOfProper(line: string)
    requires ProperLine(line)
    ensures RstripNewline(line) == Chomp(line) ||
            (RstripNewline(line) == line == Chomp(line) + [line[|line| - 1]] && IsExoticEnd(line[|line| - 1]))
    ensures IsExoticEnd(line[|line| - 1]) <==> RstripNewline(line) != Chomp(line)
  {
    var b := Chomp(line);
    if b == line {
      assert !IsLineEnd(line[|line| - 1]);
    } else if |line| == |b| + 2 {
      assert line[..|line| - 1][..|line| - 2] == b;
      RstripStops(b);
      assert RstripNewline(line) == RstripNewline(line[..|line| - 1]) == RstripNewline(b);
    } else {
      assert line == b + [line[|line| - 1]];
      RstripStops(b);
    }
  }

  lemma RstripStops(b: string)
    requires forall k :: 0 <= k < |b| ==> !IsLineEnd(b[k])
    ensures RstripNewline(b) == b
  {
    if b != [] {
      assert !IsLineEnd(b[|b| - 1]);
    }
  }

  /** Ticking a character of the body leaves the terminator alone. */
  lemma ProperTicked(line: string, m: nat)
    requires ProperLine(line) && m < |Chomp(line)|
    ensures ProperLine(line[m := 'x'])
    ensures Chomp(line[m := 'x']) == Chomp(line)[m := 'x']
    ensures m < |RstripNewline(line)| && RstripNewline(line[m := 'x']) == RstripNewline(line)[m := 'x']
  {
    var t, b := line[m := 'x'], Chomp(line);
    assert !IsLineEnd(b[m]) && !IsLineEnd('x');
    assert t[..|b|] == b[m := 'x'];
    assert Chomp(t) == b[m := 'x'] by {
      assert |b| < |line| ==> IsLineEnd(line[|line| - 1]) && t[|line| - 1] == line[|line| - 1];
      assert |b| + 2 == |line| ==> t[|line| - 2] == line[|line| - 2];
    }
    assert ProperLine(t);
    RstripOfProper(line);
    RstripOfProper(t);
  }
}
