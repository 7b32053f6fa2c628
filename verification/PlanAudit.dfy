/** The two scanners over the plan section of an iteration note: the checklist parser of
    src/dev_plan_audit.py and the checkbox patcher of src/dev_work_steps.py. */
module PlanAudit {
  import opened Json
  import opened Options
  import opened PyText

  const PLAN_HEADING := "开发计划"

  datatype Item = Item(id: string, checked: bool, cancelled: bool, importance: Option<string>, text: string)

  /** Where the groups of a checkbox line start: the mark, and the ends of the plan id. */
  datatype Box = Box(mark: nat, idFrom: nat, idTo: nat)

  // ---- the regular expressions ----

  /** Group 1 of `^##\s+(.+?)\s*$`. */
  function H2Title(body: string): Option<string> {
    if |body| < 2 || body[0] != '#' || body[1] != '#' then None
    else
      var m := SkipSpaces(body, 2);
      if m == 2 then None
      else if m < |body| then Some(StripRight(body[m..]))
      else if m >= 4 then Some(body[m - 1..])
      else None
  }

  predicate IsColon(c: char) {
    c == ':' || c == '：'
  }

  /** End of the run of characters that are neither blank nor colon; a plan id has to fill it. */
  function SkipToken(s: string, i: nat): (j: nat)
    requires i <= |s|
    ensures i <= j <= |s|
    decreases |s| - i
  {
    if i < |s| && !IsSpace(s[i]) && !IsColon(s[i]) then SkipToken(s, i + 1) else i
  }

  function LastHyphen(t: string): (h: nat)
    ensures h <= |t|
  {
    if t == [] then 0
    else if t[|t| - 1] == '-' then |t| - 1
    else var h := LastHyphen(t[..|t| - 1]); if h == |t| - 1 then |t| else h
  }

  /** `\d+(?:\.\d+)*` over the whole of `t`; `open` says that a digit must come next. */
  predicate DottedDigits(t: string, open: bool) {
    if t == [] then !open
    else if IsDigit(t[0]) then DottedDigits(t[1..], false)
    else !open && t[0] == '.' && DottedDigits(t[1..], true)
  }

  /** `[A-Za-z][A-Za-z0-9_-]*-\d+(?:\.\d+)*` over the whole of `t`. */
  predicate IsPlanId(t: string) {
    var h := LastHyphen(t);
    && 0 < h < |t|
    && IsAsciiLetter(t[0])
    && (forall k :: 0 <= k < h ==> IsAsciiLetter(t[k]) || IsAsciiDigit(t[k]) || t[k] == '_' || t[k] == '-')
    && DottedDigits(t[h + 1..], true)
  }

  predicate CharAt(s: string, i: nat, c: char) {
    i < |s| && s[i] == c
  }

  /** `\s*[-*]\s+\[` : index of the mark that has to follow, if the prefix is there. */
  function BoxOpen(s: string): (r: Option<nat>)
    ensures r.Some? ==> 3 <= r.value <= |s| && s[r.value - 1] == '[' && s[0] != '#'
  {
    var a := SkipSpaces(s, 0);
    if !CharAt(s, a, '-') && !CharAt(s, a, '*') then None
    else
      var b := SkipSpaces(s, a + 1);
      if b == a + 1 || !CharAt(s, b, '[') then None else Some(b + 1)
  }

  /** `\s+(?:~~\s*)?` : where the plan id starts, if there is a blank at `i`. */
  function IdStart(s: string, i: nat): (d: nat)
    requires i <= |s|
    ensures i <= d <= |s|
  {
    var c := SkipSpaces(s, i);
    if c == i then i
    else if CharAt(s, c, '~') && CharAt(s, c + 1, '~') then SkipSpaces(s, c + 2)
    else c
  }

  /** A blank, possibly, and a colon at `f`. */
  predicate ColonAhead(s: string, f: nat)
    requires f <= |s|
  {
    var g := SkipSpaces(s, f);
    g < |s| && IsColon(s[g])
  }

  /** End of the plan id at `d`, if there is one and a colon comes next. */
  function PlanToken(s: string, d: nat): (r: Option<nat>)
    requires d <= |s|
    ensures r.Some? ==> d <= r.value < |s|
  {
    var f := SkipToken(s, d);
    if ColonAhead(s, f) && IsPlanId(s[d..f]) then Some(f) else None
  }

  /** The rest of the checkbox pattern, for a mark expected at `m`. */
  function BoxAt(s: string, m: nat): (r: Option<Box>)
    ensures r.Some? ==> r.value.mark == m && m < r.value.idFrom <= r.value.idTo < |s| && s[m + 1] == ']'
    ensures r.Some? ==> CharAt(s, m, ' ') || CharAt(s, m, 'x') || CharAt(s, m, 'X')
  {
    if !(CharAt(s, m, ' ') || CharAt(s, m, 'x') || CharAt(s, m, 'X')) || !CharAt(s, m + 1, ']') then None
    else
      var d := IdStart(s, m + 2);
      var f := PlanToken(s, d);
      if d == m + 2 || f.None? then None else Some(Box(m, d, f.value))
  }

  /** `PLAN_CHECKBOX_RE.match(body)`. */
  function MatchBox(body: string): (r: Option<Box>)
    ensures r.Some? ==> 3 <= r.value.mark < r.value.idFrom <= r.value.idTo < |body| && body[0] != '#'
    ensures r.Some? ==> body[r.value.mark - 1] == '[' && body[r.value.mark + 1] == ']'
    ensures r.Some? ==> body[r.value.mark] in " xX"
  {
    var open := BoxOpen(body);
    if open.None? then None else BoxAt(body, open.value)
  }

  /** Groups 1 and 2 of `^\s*[:：]\s*\[(P[0-2])\]\s*(.*)$`. */
  function ImportanceOf(suffix: string): Option<(string, string)> {
    var a := SkipSpaces(suffix, 0);
    if a == |suffix| || !IsColon(suffix[a]) then None
    else
      var b := SkipSpaces(suffix, a + 1);
      if |suffix| < b + 4 || suffix[b] != '[' || suffix[b + 1] != 'P' || !('0' <= suffix[b + 2] <= '2') || suffix[b + 3] != ']'
      then None
      else Some((suffix[b + 1..b + 3], suffix[SkipSpaces(suffix, b + 4)..]))
  }

  function DropColons(s: string): string {
    if s != [] && (s[0] == ' ' || IsColon(s[0])) then DropColons(s[1..]) else s
  }

  function ItemAt(body: string, box: Box): Item
    requires box.mark < |body| && box.idFrom <= box.idTo <= |body|
  {
    var suffix := body[box.idTo..];
    var imp := ImportanceOf(suffix);
    Item(body[box.idFrom..box.idTo],
         body[box.mark] == 'x' || body[box.mark] == 'X',
         Contains(body, "~~"),
         if imp.Some? then Some(imp.value.0) else None,
         Strip(StripChar(if imp.Some? then Strip(imp.value.1) else Strip(DropColons(suffix)), '~')))
  }

  // ---- specifications of the two scanners ----

  /** The checkbox item on a line, if there is one. */
  function LineItems(line: string): seq<Item> {
    var body := Chomp(line);
    var box := MatchBox(body);
    if H2Title(body).None? && box.Some? then [ItemAt(body, box.value)] else []
  }

  /** Whether the parser is inside the plan section after `line`. */
  function ParserAfter(line: string, inPlan: bool): bool {
    var title := H2Title(Chomp(line));
    if title.Some? then title.value == PLAN_HEADING else inPlan
  }

  /** What `extract_plan_checklist_items` collects from `lines`, entered inside or outside the plan. */
  function Items(lines: seq<string>, inPlan: bool): seq<Item> {
    if lines == [] then []
    else (if inPlan then LineItems(lines[0]) else []) + Items(lines[1..], ParserAfter(lines[0], inPlan))
  }

  function Extract(markdown: string): seq<Item> {
    Items(SplitLines(markdown), false)
  }

  /** The patcher ticks this line when it believes to be in the plan. */
  predicate Ticks(line: string, done: set<string>) {
    var body := RstripNewline(line);
    var box := MatchBox(body);
    H2Title(body).None? && box.Some? && body[box.value.idFrom..box.value.idTo] in done && body[box.value.mark] == ' '
  }

  function Tick(line: string): (r: string)
    ensures |r| == |line|
  {
    var box := MatchBox(RstripNewline(line));
    if box.Some? then line[box.value.mark := 'x'] else line
  }

  function PlanAfter(line: string, inPlan: bool): bool {
    var title := H2Title(RstripNewline(line));
    if title.Some? then title.value == PLAN_HEADING else inPlan
  }

  function PatchLines(lines: seq<string>, inPlan: bool, done: set<string>): (r: seq<string>)
    ensures |r| == |lines|
  {
    if lines == [] then []
    else
      [if inPlan && Ticks(lines[0], done) then Tick(lines[0]) else lines[0]]
      + PatchLines(lines[1..], PlanAfter(lines[0], inPlan), done)
  }

  /** `_apply_plan_verification_checkboxes`, for the set of ids confirmed done. */
  function Patch(markdown: string, done: set<string>): string {
    Join(PatchLines(SplitLines(markdown), false, done))
  }

  function ActiveIds(markdown: string): set<string> {
    set item | item in Extract(markdown) && !item.cancelled :: item.id
  }

  /** The abstract update of a parse: `checked` set for the ids confirmed done, nothing else. */
  function MarkDone(items: seq<Item>, done: set<string>): (r: seq<Item>)
    ensures |r| == |items|
  {
    seq(|items|, k requires 0 <= k < |items| => items[k].(checked := items[k].checked || items[k].id in done))
  }

  /** The items differ at most in ticks that were added for ids confirmed done. */
  ghost predicate OnlyTicked(before: seq<Item>, after: seq<Item>, done: set<string>) {
    && |before| == |after|
    && forall k :: 0 <= k < |before| ==>
         && after[k] == before[k].(checked := after[k].checked)
         && (before[k].checked ==> after[k].checked)
         && (after[k].checked && !before[k].checked ==> before[k].id in done)
  }

  /** A line the patcher takes for a heading and the parser does not: see `PhantomShape`. */
  predicate IsPhantomHeading(line: string) {
    H2Title(Chomp(line)).None? && H2Title(RstripNewline(line)).Some?
  }

  /** Inside the plan section a phantom heading is followed, before the next heading, by an open checkbox
      whose id is confirmed done. `phantom` says that one was passed since the last heading. */
  predicate Overlooked(lines: seq<string>, inPlan: bool, phantom: bool, done: set<string>) {
    lines != [] &&
    (|| (inPlan && phantom && Ticks(lines[0], done))
     || Overlooked(lines[1..], ParserAfter(lines[0], inPlan), PhantomAfter(lines[0], phantom), done))
  }

  function PhantomAfter(line: string, phantom: bool): bool {
    H2Title(Chomp(line)).None? && (phantom || IsPhantomHeading(line))
  }

  // ---- the scanners read a line alike ----

  lemma {:induction false} SkipSpacesLocal(s: string, t: string, i: nat)
    requires i <= |s| && |s| == |t|
    requires forall k :: i <= k <= SkipSpaces(s, i) && k < |s| ==> s[k] == t[k]
    ensures SkipSpaces(t, i) == SkipSpaces(s, i)
    decreases |s| - i
  {
    if i < |s| && IsSpace(s[i]) {
      SkipSpacesLocal(s, t, i + 1);
    }
  }

  lemma {:induction false} SkipTokenLocal(s: string, t: string, i: nat)
    requires i <= |s| && |s| == |t|
    requires forall k :: i <= k < |s| ==> s[k] == t[k]
    ensures SkipToken(t, i) == SkipToken(s, i)
    decreases |s| - i
  {
    if i < |s| {
      SkipTokenLocal(s, t, i + 1);
    }
  }

  /** Blanks at the end of a line do not decide where a run of blanks or a token ends. */
  lemma {:induction false} SkipWithBlank(s: string, e: char, i: nat)
    requires i <= |s| && IsSpace(e)
    ensures SkipSpaces(s + [e], i) == if SkipSpaces(s, i) == |s| then |s| + 1 else SkipSpaces(s, i)
    ensures SkipToken(s + [e], i) == SkipToken(s, i)
    decreases |s| - i
  {
    if i < |s| {
      SkipWithBlank(s, e, i + 1);
    } else {
      assert (s + [e])[i] == e;
      assert SkipSpaces(s + [e], i) == SkipSpaces(s + [e], i + 1) == i + 1;
    }
  }

  lemma BoxOpenWithBlank(s: string, e: char)
    requires IsSpace(e)
    ensures BoxOpen(s + [e]) == BoxOpen(s)
  {
    SkipWithBlank(s, e, 0);
    var a := SkipSpaces(s, 0);
    if a < |s| {
      SkipWithBlank(s, e, a + 1);
    }
  }

  lemma IdStartWithBlank(s: string, e: char, i: nat)
    requires i <= |s| && IsSpace(e)
    ensures IdStart(s + [e], i) == IdStart(s, i) || IdStart(s, i) == |s|
    ensures IdStart(s, i) == |s| ==> IdStart(s + [e], i) == |s| + 1
  {
    SkipWithBlank(s, e, i);
    var c := SkipSpaces(s, i);
    if c + 2 <= |s| {
      SkipWithBlank(s, e, c + 2);
    }
  }

  lemma PlanTokenWithBlank(s: string, e: char, d: nat)
    requires IsSpace(e) && d <= |s|
    ensures PlanToken(s + [e], d) == PlanToken(s, d)
  {
    SkipWithBlank(s, e, d);
    var f := SkipToken(s, d);
    assert (s + [e])[d..f] == s[d..f];
    SkipWithBlank(s, e, f);
  }

  lemma BoxAtWithBlank(s: string, e: char, m: nat)
    requires IsExoticEnd(e) && m <= |s|
    ensures BoxAt(s + [e], m) == BoxAt(s, m)
  {
    if m + 2 <= |s| {
      IdStartWithBlank(s, e, m + 2);
      var d := IdStart(s, m + 2);
      if d < |s| {
        PlanTokenWithBlank(s, e, d);
      } else {
        assert ColonAhead(s + [e], |s| + 1) == false;
      }
    }
  }

  lemma MatchBoxWithBlank(s: string, e: char)
    requires IsExoticEnd(e)
    ensures MatchBox(s + [e]) == MatchBox(s)
  {
    BoxOpenWithBlank(s, e);
    if BoxOpen(s).Some? {
      BoxAtWithBlank(s, e, BoxOpen(s).value);
    }
  }

  lemma IdStartTicked(s: string, t: string, i: nat)
    requires i <= |s| == |t|
    requires forall k :: i <= k < |s| ==> s[k] == t[k]
    ensures IdStart(t, i) == IdStart(s, i)
  {
    SkipSpacesLocal(s, t, i);
    var c := SkipSpaces(s, i);
    if c + 2 <= |s| {
      SkipSpacesLocal(s, t, c + 2);
    }
  }

  lemma BoxOpenTicked(s: string, m: nat)
    requires BoxOpen(s) == Some(m) && m < |s|
    ensures BoxOpen(s[m := 'x']) == Some(m)
  {
    var t := s[m := 'x'];
    SkipSpacesLocal(s, t, 0);
    SkipSpacesLocal(s, t, SkipSpaces(s, 0) + 1);
  }

  lemma PlanTokenTicked(s: string, t: string, d: nat)
    requires d <= |s| == |t|
    requires forall k :: d <= k < |s| ==> s[k] == t[k]
    ensures PlanToken(t, d) == PlanToken(s, d)
  {
    SkipTokenLocal(s, t, d);
    var f := SkipToken(s, d);
    assert t[d..f] == s[d..f];
    SkipSpacesLocal(s, t, f);
  }

  lemma BoxAtTicked(s: string, m: nat)
    requires BoxAt(s, m).Some?
    ensures BoxAt(s[m := 'x'], m) == BoxAt(s, m)
  {
    IdStartTicked(s, s[m := 'x'], m + 2);
    PlanTokenTicked(s, s[m := 'x'], BoxAt(s, m).value.idFrom);
  }

  /** Ticking the mark leaves the match where it was. */
  lemma MatchBoxTicked(s: string)
    requires MatchBox(s).Some?
    ensures MatchBox(s[MatchBox(s).value.mark := 'x']) == MatchBox(s)
  {
    var m := MatchBox(s).value.mark;
    BoxOpenTicked(s, m);
    BoxAtTicked(s, m);
  }

  lemma StripRightWithBlank(s: string, e: char)
    requires IsSpace(e)
    ensures StripRight(s + [e]) == StripRight(s)
  {
    assert (s + [e])[..|s|] == s;
  }

  lemma TitleWithBlank(b: string, e: char)
    requires IsExoticEnd(e)
    ensures H2Title(b).Some? ==>
              H2Title(b + [e]).Some? && (H2Title(b + [e]).value == PLAN_HEADING <==> H2Title(b).value == PLAN_HEADING)
    ensures H2Title(b).None? && H2Title(b + [e]).Some? ==>
              |b| == 3 && IsSpace(b[2]) && H2Title(b + [e]).value != PLAN_HEADING
  {
    if |b| >= 2 && b[0] == '#' && b[1] == '#' {
      SkipWithBlank(b, e, 2);
      if SkipSpaces(b, 2) < |b| {
        WordyTitleWithBlank(b, e, SkipSpaces(b, 2));
      } else {
        BlankTitleWithBlank(b, e);
      }
    }
  }

  lemma WordyTitleWithBlank(b: string, e: char, m: nat)
    requires IsExoticEnd(e) && 2 <= m < |b| && b[0] == '#' && b[1] == '#'
    requires SkipSpaces(b, 2) == SkipSpaces(b + [e], 2) == m
    ensures H2Title(b + [e]) == H2Title(b)
  {
    StripRightWithBlank(b[m..], e);
    assert (b + [e])[m..] == b[m..] + [e];
  }

  lemma BlankTitleWithBlank(b: string, e: char)
    requires IsExoticEnd(e) && |b| >= 2 && b[0] == '#' && b[1] == '#'
    requires SkipSpaces(b, 2) == |b| && SkipSpaces(b + [e], 2) == |b| + 1
    ensures H2Title(b).Some? ==> |H2Title(b).value| == 1
    ensures |b| > 2 ==> H2Title(b + [e]) == Some([e]) && IsSpace(b[2])
    ensures H2Title(b + [e]).Some? ==> |b| > 2
  {
    if |b| > 2 {
      assert (b + [e])[|b|..] == [e];
      assert IsSpace(b[2]);
    }
  }

  /** Both scanners find the same checkbox on a line, and headings the parser sees the patcher sees. */
  lemma LineAgree(line: string)
    requires ProperLine(line)
    ensures MatchBox(RstripNewline(line)) == MatchBox(Chomp(line))
    ensures H2Title(Chomp(line)).Some? ==>
              && H2Title(RstripNewline(line)).Some?
              && (H2Title(RstripNewline(line)).value == PLAN_HEADING <==> H2Title(Chomp(line)).value == PLAN_HEADING)
    ensures IsPhantomHeading(line) ==> H2Title(RstripNewline(line)).value != PLAN_HEADING
  {
    RstripOfProper(line);
    if RstripNewline(line) != Chomp(line) {
      MatchBoxWithBlank(Chomp(line), line[|line| - 1]);
      TitleWithBlank(Chomp(line), line[|line| - 1]);
    }
  }

  lemma PhantomBody(b: string, e: char)
    requires IsExoticEnd(e)
    ensures H2Title(b).None? && H2Title(b + [e]).Some? <==> |b| == 3 && b[0] == '#' && b[1] == '#' && IsSpace(b[2])
  {
    TitleWithBlank(b, e);
    if |b| == 3 && b[0] == '#' && b[1] == '#' && IsSpace(b[2]) {
      SkipWithBlank(b, e, 2);
      assert SkipSpaces(b, 3) == 3;
      BlankTitleWithBlank(b, e);
    }
  }

  /** A phantom heading is `##`, one blank and a line end other than CR and LF. */
  lemma PhantomShape(line: string)
    requires ProperLine(line)
    ensures IsPhantomHeading(line) <==>
            |line| == 4 && line[0] == '#' && line[1] == '#' && IsSpace(line[2]) && !IsLineEnd(line[2]) && IsExoticEnd(line[3])
  {
    RstripOfProper(line);
    var b, e := Chomp(line), line[|line| - 1];
    if RstripNewline(line) != b {
      PhantomBody(b, e);
    }
  }

  // ---- one patched line ----

  lemma TildesTicked(s: string, m: nat)
    requires 0 < m < |s| - 1 && s[m - 1] == '[' && s[m] in " xX" && s[m + 1] == ']'
    ensures Contains(s[m := 'x'], "~~") <==> Contains(s, "~~")
  {
    var t := s[m := 'x'];
    forall k: nat ensures IsAt(s, "~~", k) <==> IsAt(t, "~~", k) {
      if k + 2 <= |s| {
        assert s[k..k + 2] == [s[k], s[k + 1]] && t[k..k + 2] == [t[k], t[k + 1]];
      }
    }
  }

  lemma ItemTicked(body: string)
    requires MatchBox(body).Some?
    ensures var box := MatchBox(body).value;
            ItemAt(body[box.mark := 'x'], box) == ItemAt(body, box).(checked := true)
  {
    var box := MatchBox(body).value;
    var t := body[box.mark := 'x'];
    TildesTicked(body, box.mark);
    assert t[box.idFrom..box.idTo] == body[box.idFrom..box.idTo];
    assert t[box.idTo..] == body[box.idTo..];
  }

  lemma NoHeading(b: string)
    requires b != [] && b[0] != '#'
    ensures H2Title(b).None?
  {
  }

  lemma MatchIsNoHeading(b: string, r: string)
    requires MatchBox(b).Some? && b <= r
    ensures H2Title(b).None? && H2Title(r).None?
  {
    var box := MatchBox(b).value;
    NoHeading(b);
    NoHeading(r);
  }

  lemma BoxIsNoHeading(line: string)
    requires ProperLine(line) && MatchBox(Chomp(line)).Some?
    ensures H2Title(RstripNewline(line)).None? && H2Title(Chomp(line)).None?
  {
    RstripOfProper(line);
    MatchIsNoHeading(Chomp(line), RstripNewline(line));
  }

  /** A ticked line is again a proper line, no heading, with the same checkbox, now set. */
  lemma LineTicked(line: string)
    requires ProperLine(line) && MatchBox(Chomp(line)).Some?
    ensures var m := MatchBox(Chomp(line)).value.mark;
            && Tick(line) == line[m := 'x'] && ProperLine(Tick(line))
            && Chomp(Tick(line)) == Chomp(line)[m := 'x']
            && m < |RstripNewline(line)| && RstripNewline(Tick(line)) == RstripNewline(line)[m := 'x']
    ensures MatchBox(Chomp(Tick(line))) == MatchBox(RstripNewline(Tick(line))) == MatchBox(Chomp(line))
    ensures H2Title(Chomp(Tick(line))).None? && H2Title(RstripNewline(Tick(line))).None?
  {
    var m := MatchBox(Chomp(line)).value.mark;
    LineAgree(line);
    ProperTicked(line, m);
    MatchBoxTicked(Chomp(line));
    LineAgree(line[m := 'x']);
    BoxIsNoHeading(line[m := 'x']);
  }

  lemma MarkDoneConcat(a: seq<Item>, xs: seq<Item>, a': seq<Item>, ys: seq<Item>, done: set<string>)
    requires |a| == |a'|
    ensures a' + ys == MarkDone(a + xs, done) <==> a' == MarkDone(a, done) && ys == MarkDone(xs, done)
  {
    var marked := MarkDone(a + xs, done);
    assert marked[..|a|] == MarkDone(a, done) && marked[|a|..] == MarkDone(xs, done);
    assert (a' + ys)[..|a|] == a' && (a' + ys)[|a|..] == ys;
    assert marked == marked[..|a|] + marked[|a|..];
  }

  // ---- parsing commutes with patching ----

  lemma TicksSpec(line: string, done: set<string>)
    requires ProperLine(line) && MatchBox(Chomp(line)).Some?
    ensures var item := ItemAt(Chomp(line), MatchBox(Chomp(line)).value);
            Ticks(line, done) <==> item.id in done && !item.checked
  {
    LineAgree(line);
    BoxIsNoHeading(line);
    RstripOfProper(line);
    var b, r := Chomp(line), RstripNewline(line);
    var box := MatchBox(b).value;
    assert r[box.idFrom..box.idTo] == b[box.idFrom..box.idTo];
  }

  /** A checkbox line holds one item; its tick sets `checked`. */
  lemma BoxItems(line: string) returns (item: Item)
    requires ProperLine(line) && MatchBox(Chomp(line)).Some?
    ensures item == ItemAt(Chomp(line), MatchBox(Chomp(line)).value)
    ensures LineItems(line) == [item] && LineItems(Tick(line)) == [item.(checked := true)]
    ensures H2Title(Chomp(line)).None? && H2Title(Chomp(Tick(line))).None?
  {
    BoxIsNoHeading(line);
    LineTicked(line);
    ItemTicked(Chomp(line));
    item := ItemAt(Chomp(line), MatchBox(Chomp(line)).value);
  }

  /** One line: a tick is the abstract update of the line's items, and it is no heading. */
  lemma LineCommutes(line: string, done: set<string>)
    requires ProperLine(line)
    ensures Ticks(line, done) ==>
              && LineItems(Tick(line)) == MarkDone(LineItems(line), done) != LineItems(line)
              && H2Title(Chomp(line)).None? && H2Title(Chomp(Tick(line))).None?
    ensures !Ticks(line, done) ==> MarkDone(LineItems(line), done) == LineItems(line)
  {
    if MatchBox(Chomp(line)).Some? {
      var item := BoxItems(line);
      TicksSpec(line, done);
      MarkDoneOne(item, done);
    } else {
      NoBoxItems(line, done);
    }
  }

  lemma MarkDoneOne(item: Item, done: set<string>)
    ensures MarkDone([item], done) == [item.(checked := item.checked || item.id in done)]
  {
  }

  lemma NoBoxItems(line: string, done: set<string>)
    requires ProperLine(line) && MatchBox(Chomp(line)).None?
    ensures LineItems(line) == [] && !Ticks(line, done)
  {
    LineAgree(line);
  }

  /** The patcher's flag is the parser's, dropped at a phantom heading. */
  lemma FlagsAgree(line: string, inPlan: bool, phantom: bool)
    requires ProperLine(line)
    ensures PlanAfter(line, inPlan && !phantom) == (ParserAfter(line, inPlan) && !PhantomAfter(line, phantom))
  {
    LineAgree(line);
  }

  /** Over lines: the parse of the patch is the abstract update of the parse, exactly unless a checkbox is
      overlooked behind a phantom heading. */
  lemma {:induction false} LinesCommute(lines: seq<string>, inPlan: bool, phantom: bool, done: set<string>)
    requires forall k :: 0 <= k < |lines| ==> ProperLine(lines[k])
    ensures Items(PatchLines(lines, inPlan && !phantom, done), inPlan) == MarkDone(Items(lines, inPlan), done)
            <==> !Overlooked(lines, inPlan, phantom, done)
  {
    if lines != [] {
      var line, rest, seen := lines[0], lines[1..], inPlan && !phantom;
      var next := ParserAfter(line, inPlan);
      LineCommutes(line, done);
      FlagsAgree(line, inPlan, phantom);
      LinesCommute(rest, next, PhantomAfter(line, phantom), done);
      var patched := PatchLines(lines, seen, done);
      var head, tail := patched[0], patched[1..];
      assert tail == PatchLines(rest, PlanAfter(line, seen), done);
      assert ParserAfter(head, inPlan) == next;
      var a, a' := if inPlan then LineItems(line) else [], if inPlan then LineItems(head) else [];
      MarkDoneConcat(a, Items(rest, next), a', Items(tail, next), done);
      assert a' == MarkDone(a, done) <==> !(inPlan && phantom && Ticks(line, done));
    }
  }

  lemma OnlyTickedConcat(a: seq<Item>, xs: seq<Item>, a': seq<Item>, ys: seq<Item>, done: set<string>)
    requires a' == a || a' == MarkDone(a, done)
    requires OnlyTicked(xs, ys, done)
    ensures OnlyTicked(a + xs, a' + ys, done)
  {
  }

  /** Whatever the patcher ticks, the parse changes in `checked` only, and only for ids confirmed done. */
  lemma {:induction false} LinesOnlyTicked(lines: seq<string>, inPlan: bool, seen: bool, done: set<string>)
    requires forall k :: 0 <= k < |lines| ==> ProperLine(lines[k])
    ensures OnlyTicked(Items(lines, inPlan), Items(PatchLines(lines, seen, done), inPlan), done)
  {
    if lines != [] {
      var line, next := lines[0], ParserAfter(lines[0], inPlan);
      LineCommutes(line, done);
      var patched := PatchLines(lines, seen, done);
      var head, tail := patched[0], patched[1..];
      assert tail == PatchLines(lines[1..], PlanAfter(line, seen), done);
      LinesOnlyTicked(lines[1..], next, PlanAfter(line, seen), done);
      OnlyTickedConcat(if inPlan then LineItems(line) else [], Items(lines[1..], next),
                       if inPlan then LineItems(head) else [], Items(tail, next), done);
    }
  }

  // ---- patched text splits into the patched lines ----

  lemma TickedLine(line: string, done: set<string>)
    requires ProperLine(line) && Ticks(line, done)
    ensures Ticked(line, Tick(line))
    ensures forall k :: 0 <= k < |line| && Tick(line)[k] != line[k] ==>
              0 < k < |line| - 1 && line[k - 1] == '[' && line[k + 1] == ']'
  {
    var r := RstripNewline(line);
    var m := MatchBox(r).value.mark;
    assert r[m] == line[m] && r[m - 1] == line[m - 1] && r[m + 1] == line[m + 1];
  }

  lemma {:induction false} PatchSplits(s: string, seen: bool, done: set<string>)
    ensures var patched := PatchLines(SplitLines(s), seen, done);
            SplitLines(Join(patched)) == patched && Ticked(s, Join(patched))
    decreases |s|
  {
    if s != [] {
      var n := FirstLine(s);
      var line, rest := s[..n], s[n..];
      FirstLineIsProper(s);
      assert SplitLines(s)[0] == line && SplitLines(s)[1..] == SplitLines(rest);
      var head := if seen && Ticks(line, done) then Tick(line) else line;
      if seen && Ticks(line, done) {
        TickedLine(line, done);
      }
      var tail := PatchLines(SplitLines(rest), PlanAfter(line, seen), done);
      PatchSplits(rest, PlanAfter(line, seen), done);
      SplitsCons(s, head, tail);
      assert PatchLines(SplitLines(s), seen, done) == [head] + tail;
    }
  }

  lemma TickedConcat(a: string, b: string, a': string, b': string)
    requires Ticked(a, a') && Ticked(b, b')
    ensures Ticked(a + b, a' + b')
  {
  }

  lemma SplitsCons(s: string, head: string, tail: seq<string>)
    requires s != [] && Ticked(s[..FirstLine(s)], head) && Ticked(s[FirstLine(s)..], Join(tail))
    requires SplitLines(Join(tail)) == tail
    ensures Ticked(s, Join([head] + tail)) && SplitLines(Join([head] + tail)) == [head] + tail
  {
    JoinCons(head, tail);
    TickedFirst(s, head, Join(tail));
    SplitHead(head + Join(tail), head, Join(tail));
  }

  /** Ticking the first line and the rest apart ticks the whole, and leaves the first line where it ends. */
  lemma TickedFirst(s: string, head: string, rest: string)
    requires s != [] && Ticked(s[..FirstLine(s)], head) && Ticked(s[FirstLine(s)..], rest)
    ensures Ticked(s, head + rest) && head + rest != [] && FirstLine(head + rest) == |head|
  {
    var n := FirstLine(s);
    assert s[..n] + s[n..] == s;
    TickedConcat(s[..n], s[n..], head, rest);
    FirstLineTicked(s, head + rest);
  }

  /** A text that begins with a line of its own splits there. */
  lemma SplitHead(t: string, head: string, rest: string)
    requires t == head + rest && t != [] && FirstLine(t) == |head|
    ensures SplitLines(t) == [head] + SplitLines(rest)
  {
    assert t[..|head|] == head && t[|head|..] == rest;
  }

  // ---- main results ----

  /** Parsing commutes with patching: the patched note parses to the same items, `checked` set exactly for the
      ids confirmed done, if and only if no open checkbox hides behind a phantom heading. */
  lemma PatchCommutes(markdown: string, done: set<string>)
    ensures Extract(Patch(markdown, done)) == MarkDone(Extract(markdown), done)
            <==> !Overlooked(SplitLines(markdown), false, false, done)
  {
    SplitLinesProper(markdown);
    PatchSplits(markdown, false, done);
    LinesCommute(SplitLines(markdown), false, false, done);
  }

  /** Without conditions on the text: items keep order, id, importance, text and cancellation, ticks are only
      added, and only for ids confirmed done. */
  lemma PatchOnlyTicks(markdown: string, done: set<string>)
    ensures OnlyTicked(Extract(markdown), Extract(Patch(markdown, done)), done)
    ensures ActiveIds(Patch(markdown, done)) == ActiveIds(markdown)
  {
    SplitLinesProper(markdown);
    PatchSplits(markdown, false, done);
    LinesOnlyTicked(SplitLines(markdown), false, false, done);
    var before, after := Extract(markdown), Extract(Patch(markdown, done));
    forall id ensures id in ActiveIds(markdown) <==> id in ActiveIds(Patch(markdown, done)) {
      if id in ActiveIds(markdown) {
        var k :| 0 <= k < |before| && before[k].id == id && !before[k].cancelled;
        assert after[k] in after;
      }
      if id in ActiveIds(Patch(markdown, done)) {
        var k :| 0 <= k < |after| && after[k].id == id && !after[k].cancelled;
        assert before[k] in before;
      }
    }
  }

  /** The patch keeps the length of the note and turns blanks between `[` and `]` into `x`, nothing else. */
  lemma PatchTouchesBoxesOnly(markdown: string, done: set<string>)
    ensures Ticked(markdown, Patch(markdown, done))
    ensures forall k :: 0 <= k < |markdown| && Patch(markdown, done)[k] != markdown[k] ==>
              0 < k < |markdown| - 1 && markdown[k - 1] == '[' && markdown[k + 1] == ']'
  {
    PatchSplits(markdown, false, done);
    LinesTouchBoxes(markdown, false, done);
  }

  lemma {:induction false} LinesTouchBoxes(s: string, seen: bool, done: set<string>)
    requires |Join(PatchLines(SplitLines(s), seen, done))| == |s|
    ensures var t := Join(PatchLines(SplitLines(s), seen, done));
            forall k :: 0 <= k < |s| && t[k] != s[k] ==> 0 < k < |s| - 1 && s[k - 1] == '[' && s[k + 1] == ']'
    decreases |s|
  {
    if s != [] {
      var n := FirstLine(s);
      var line, rest := s[..n], s[n..];
      FirstLineIsProper(s);
      PatchSplits(rest, PlanAfter(line, seen), done);
      LinesTouchBoxes(rest, PlanAfter(line, seen), done);
      var head := if seen && Ticks(line, done) then Tick(line) else line;
      if seen && Ticks(line, done) {
        TickedLine(line, done);
      }
      var tail := Join(PatchLines(SplitLines(rest), PlanAfter(line, seen), done));
      var t := Join(PatchLines(SplitLines(s), seen, done));
      assert SplitLines(s)[0] == line && SplitLines(s)[1..] == SplitLines(rest);
      assert t == head + tail;
      forall k | 0 <= k < |s| && t[k] != s[k] ensures 0 < k < |s| - 1 && s[k - 1] == '[' && s[k + 1] == ']' {
        if k < n {
          assert head[k] != line[k];
          assert s[k - 1] == line[k - 1] && s[k + 1] == line[k + 1];
        } else {
          assert tail[k - n] != rest[k - n];
          assert s[k - 1] == rest[k - n - 1] && s[k + 1] == rest[k - n + 1];
        }
      }
    }
  }

  /** The parser's flag when it comes to line `k`. */
  function InPlanAt(lines: seq<string>, k: nat, inPlan: bool): bool
    requires k <= |lines|
  {
    if k == 0 then inPlan else InPlanAt(lines[1..], k - 1, ParserAfter(lines[0], inPlan))
  }

  /** A phantom heading stands between line `k` and the heading above it. */
  function PhantomAt(lines: seq<string>, k: nat, phantom: bool): bool
    requires k <= |lines|
  {
    if k == 0 then phantom else PhantomAt(lines[1..], k - 1, PhantomAfter(lines[0], phantom))
  }

  /** The line holds an open item whose id is confirmed done. */
  ghost predicate HoldsOpen(line: string, done: set<string>) {
    exists item :: item in LineItems(line) && item.id in done && !item.checked
  }

  lemma TicksIffOpen(line: string, done: set<string>)
    requires ProperLine(line)
    ensures Ticks(line, done) <==> HoldsOpen(line, done)
  {
    if MatchBox(Chomp(line)).Some? {
      var item := BoxItems(line);
      TicksSpec(line, done);
      assert item in LineItems(line);
    } else {
      NoBoxItems(line, done);
    }
  }

  lemma PatchRest(lines: seq<string>, seen: bool, done: set<string>, k: nat)
    requires 0 < k < |lines|
    ensures PatchLines(lines, seen, done)[k] == PatchLines(lines[1..], PlanAfter(lines[0], seen), done)[k - 1]
  {
  }

  lemma {:induction false} PatchLineAt(lines: seq<string>, inPlan: bool, phantom: bool, done: set<string>, k: nat)
    requires k < |lines| && forall i :: 0 <= i < |lines| ==> ProperLine(lines[i])
    ensures PatchLines(lines, inPlan && !phantom, done)[k] ==
            if InPlanAt(lines, k, inPlan) && !PhantomAt(lines, k, phantom) && HoldsOpen(lines[k], done) then Tick(lines[k])
            else lines[k]
  {
    if k == 0 {
      TicksIffOpen(lines[0], done);
    } else {
      FlagsAgree(lines[0], inPlan, phantom);
      PatchLineAt(lines[1..], ParserAfter(lines[0], inPlan), PhantomAfter(lines[0], phantom), done, k - 1);
      PatchRest(lines, inPlan && !phantom, done, k);
    }
  }

  /** Line by line: exactly the lines of the plan section that hold an open item confirmed done, and do not stand behind
      a phantom heading, are ticked; every other line of the note is as it was. */
  lemma PatchTouchesPlanOnly(markdown: string, done: set<string>)
    ensures var before, after := SplitLines(markdown), SplitLines(Patch(markdown, done));
            && |after| == |before|
            && forall k :: 0 <= k < |before| ==>
                 && (InPlanAt(before, k, false) && !PhantomAt(before, k, false) && HoldsOpen(before[k], done) ==>
                       after[k] == Tick(before[k]) && after[k] != before[k])
                 && (!(InPlanAt(before, k, false) && !PhantomAt(before, k, false) && HoldsOpen(before[k], done)) ==>
                       after[k] == before[k])
  {
    var before, after := SplitLines(markdown), SplitLines(Patch(markdown, done));
    SplitLinesProper(markdown);
    PatchSplits(markdown, false, done);
    forall k | 0 <= k < |before|
      ensures after[k] == if InPlanAt(before, k, false) && !PhantomAt(before, k, false) && HoldsOpen(before[k], done)
                          then Tick(before[k]) else before[k]
      ensures HoldsOpen(before[k], done) ==> Tick(before[k]) != before[k]
    {
      PatchLineAt(before, false, false, done, k);
      TickShows(before[k], done);
    }
  }

  /** A ticked line reads differently. */
  lemma TickShows(line: string, done: set<string>)
    requires ProperLine(line)
    ensures HoldsOpen(line, done) ==> Tick(line) != line
  {
    if HoldsOpen(line, done) {
      TicksIffOpen(line, done);
      if MatchBox(Chomp(line)).Some? {
        var item := BoxItems(line);
      } else {
        NoBoxItems(line, done);
      }
    }
  }

  /** Two patches in a row are one patch with both sets of ids; with `p == q` the patch is idempotent. */
  lemma PatchTwice(markdown: string, p: set<string>, q: set<string>)
    ensures Patch(Patch(markdown, p), q) == Patch(markdown, p + q)
  {
    SplitLinesProper(markdown);
    PatchSplits(markdown, false, p);
    LinesPatchTwice(SplitLines(markdown), false, p, q);
  }

  lemma {:induction false} LinesPatchTwice(lines: seq<string>, seen: bool, p: set<string>, q: set<string>)
    requires forall k :: 0 <= k < |lines| ==> ProperLine(lines[k])
    ensures PatchLines(PatchLines(lines, seen, p), seen, q) == PatchLines(lines, seen, p + q)
  {
    if lines != [] {
      var line := lines[0];
      TickTwice(line, p, q);
      var patched := PatchLines(lines, seen, p);
      assert patched[1..] == PatchLines(lines[1..], PlanAfter(line, seen), p);
      LinesPatchTwice(lines[1..], PlanAfter(line, seen), p, q);
    }
  }

  lemma TickTwice(line: string, p: set<string>, q: set<string>)
    requires ProperLine(line)
    ensures Ticks(line, p + q) <==> Ticks(line, p) || Ticks(line, q)
    ensures Ticks(line, p) ==> H2Title(RstripNewline(line)).None? && H2Title(RstripNewline(Tick(line))).None?
                               && !Ticks(Tick(line), q)
  {
    if Ticks(line, p) {
      LineAgree(line);
      LineTicked(line);
    }
  }

  /** Nothing confirmed, nothing patched. */
  lemma PatchNothing(markdown: string)
    ensures Patch(markdown, {}) == markdown
  {
    LinesPatchNothing(SplitLines(markdown), false);
    JoinSplit(markdown);
  }

  lemma {:induction false} LinesPatchNothing(lines: seq<string>, seen: bool)
    ensures PatchLines(lines, seen, {}) == lines
  {
    if lines != [] {
      LinesPatchNothing(lines[1..], PlanAfter(lines[0], seen));
    }
  }

  /** A note whose lines end in CR and LF only always parses, once patched, to the abstract update. */
  lemma OrdinaryTextCommutes(markdown: string, done: set<string>)
    requires forall k :: 0 <= k < |markdown| ==> !IsExoticEnd(markdown[k])
    ensures Extract(Patch(markdown, done)) == MarkDone(Extract(markdown), done)
  {
    PatchCommutes(markdown, done);
    SplitLinesProper(markdown);
    OrdinaryLines(markdown);
    NothingOverlooked(SplitLines(markdown), false, done);
  }

  lemma {:induction false} OrdinaryLines(s: string)
    requires forall k :: 0 <= k < |s| ==> !IsExoticEnd(s[k])
    ensures forall k :: 0 <= k < |SplitLines(s)| ==> !IsPhantomHeading(SplitLines(s)[k])
    decreases |s|
  {
    if s != [] {
      var n := FirstLine(s);
      FirstLineIsProper(s);
      PhantomShape(s[..n]);
      OrdinaryLines(s[n..]);
    }
  }

  lemma {:induction false} NothingOverlooked(lines: seq<string>, inPlan: bool, done: set<string>)
    requires forall k :: 0 <= k < |lines| ==> !IsPhantomHeading(lines[k])
    ensures !Overlooked(lines, inPlan, false, done)
  {
    if lines != [] {
      NothingOverlooked(lines[1..], ParserAfter(lines[0], inPlan), done);
    }
  }

  /** A note on which the two scanners part: its second line ends in a vertical tab. */
  lemma PatchNeedNotCommute() returns (markdown: string, done: set<string>)
    ensures Extract(Patch(markdown, done)) != MarkDone(Extract(markdown), done)
  {
    SampleLines();
    SampleHeadings();
    SampleBoxTicks();
    markdown, done := HiddenBox("## 开发计划\n", "## \U{0B}", "- [ ] D-1: t\n", {"D-1"});
  }

  lemma HiddenBox(a: string, b: string, c: string, ids: set<string>) returns (markdown: string, done: set<string>)
    requires SplitLines(a + b + c) == [a, b, c]
    requires ParserAfter(a, false) && ParserAfter(b, true) && PhantomAfter(b, false) && Ticks(c, ids)
    ensures Extract(Patch(markdown, done)) != MarkDone(Extract(markdown), done)
  {
    markdown, done := a + b + c, ids;
    var lines := [a, b, c];
    assert lines[1..] == [b, c] && [b, c][1..] == [c];
    assert Overlooked([c], true, true, done);
    assert PhantomAfter(b, PhantomAfter(a, false));
    assert Overlooked([b, c], true, PhantomAfter(a, false), done);
    assert Overlooked(lines, false, false, done);
    PatchCommutes(markdown, done);
  }

  lemma SampleHeadings()
    ensures ParserAfter("## 开发计划\n", false)
    ensures PhantomAfter("## \U{0B}", false) && ParserAfter("## \U{0B}", true)
  {
    assert Chomp("## 开发计划\n") == "## 开发计划";
    assert SkipSpaces("## 开发计划", 2) == SkipSpaces("## 开发计划", 3) == 3;
    assert "## 开发计划"[3..] == PLAN_HEADING;
    var phantom := "## \U{0B}";
    assert Chomp(phantom) == phantom[..3];
    PhantomShape(phantom);
  }

  lemma SampleLines()
    ensures SplitLines("## 开发计划\n" + "## \U{0B}" + "- [ ] D-1: t\n") == ["## 开发计划\n", "## \U{0B}", "- [ ] D-1: t\n"]
  {
    SplitThree("## 开发计划", '\n', "## ", '\U{0B}', "- [ ] D-1: t", '\n');
    assert "## 开发计划" + ['\n'] == "## 开发计划\n";
    assert "## " + ['\U{0B}'] == "## \U{0B}";
    assert "- [ ] D-1: t" + ['\n'] == "- [ ] D-1: t\n";
  }

  lemma SplitThree(a: string, d: char, b: string, e: char, c: string, f: char)
    requires IsLineEnd(d) && IsLineEnd(e) && IsLineEnd(f) && '\r' !in [d, e, f]
    requires forall k :: 0 <= k < |a| ==> !IsLineEnd(a[k])
    requires forall k :: 0 <= k < |b| ==> !IsLineEnd(b[k])
    requires forall k :: 0 <= k < |c| ==> !IsLineEnd(c[k])
    ensures SplitLines((a + [d]) + (b + [e]) + (c + [f])) == [a + [d], b + [e], c + [f]]
  {
    assert '\r' != d && '\r' != e && '\r' != f by { assert d in [d, e, f] && e in [d, e, f] && f in [d, e, f]; }
    SplitAt(a, d, (b + [e]) + (c + [f]));
    SplitAt(b, e, c + [f]);
    SplitAt(c, f, []);
    assert c + [f] + [] == c + [f];
    assert (a + [d]) + (b + [e]) + (c + [f]) == a + [d] + ((b + [e]) + (c + [f]));
    assert (b + [e]) + (c + [f]) == b + [e] + (c + [f]);
  }

  lemma SplitAt(b: string, e: char, rest: string)
    requires IsLineEnd(e) && e != '\r' && forall k :: 0 <= k < |b| ==> !IsLineEnd(b[k])
    ensures SplitLines(b + [e] + rest) == [b + [e]] + SplitLines(rest)
  {
    FirstLineAt(b, e, rest);
    assert (b + [e] + rest)[..|b| + 1] == b + [e] && (b + [e] + rest)[|b| + 1..] == rest;
  }

  lemma {:induction false} FirstLineAt(b: string, e: char, rest: string)
    requires IsLineEnd(e) && e != '\r' && forall k :: 0 <= k < |b| ==> !IsLineEnd(b[k])
    ensures FirstLine(b + [e] + rest) == |b| + 1
  {
    if b != [] {
      FirstLineAt(b[1..], e, rest);
      assert (b + [e] + rest)[1..] == b[1..] + [e] + rest;
      assert (b + [e] + rest)[0] == b[0];
    }
  }

  lemma SampleBoxTicks()
    ensures Ticks("- [ ] D-1: t\n", {"D-1"})
  {
    var line, b := "- [ ] D-1: t\n", "- [ ] D-1: t";
    assert line[..|line| - 1] == b;
    assert RstripNewline(line) == RstripNewline(b) == b;
    assert BoxOpen(b) == Some(3) by {
      assert SkipSpaces(b, 0) == 0;
      assert SkipSpaces(b, 1) == SkipSpaces(b, 2) == 2;
    }
    assert IdStart(b, 5) == 6 by { assert SkipSpaces(b, 5) == SkipSpaces(b, 6) == 6; }
    assert SkipToken(b, 6) == SkipToken(b, 7) == SkipToken(b, 8) == SkipToken(b, 9) == 9;
    assert b[6..9] == "D-1";
    assert IsPlanId("D-1") by {
      assert "D-1"[..2] == "D-";
      assert LastHyphen("D-") == 1;
      assert "D-1"[2..] == "1";
      assert IsDigit('1');
      assert "1"[1..] == "";
    }
    assert SkipSpaces(b, 9) == 9;
    assert PlanToken(b, 6) == Some(9);
    assert MatchBox(b) == Some(Box(3, 6, 9));
  }

  // ---- plan_verification records ----

  /** A record by which a review confirms a plan item as delivered. */
  predicate ConfirmsDone(check: map<string, Json>) {
    Get(check, "status") == Str("done") && Get(check, "implemented") != Bool(false) && Get(check, "id").Str?
  }

  function DoneIds(verification: seq<map<string, Json>>): set<string> {
    set check | check in verification && ConfirmsDone(check) :: Get(check, "id").s
  }

  function VerifiedIds(verification: seq<map<string, Json>>): set<string> {
    set check | check in verification && Get(check, "id").Str? :: Get(check, "id").s
  }

  /** `missing_plan_verification_ids`, as a set. */
  function MissingIds(markdown: string, verification: seq<map<string, Json>>): set<string> {
    ActiveIds(markdown) - VerifiedIds(verification)
  }

  // ---- the two scanners as they run ----

  method ExtractPlanChecklistItems(markdown: string) returns (items: seq<Item>)
    ensures items == Extract(markdown)
  {
    items := [];
    var inPlan := false;
    var lines := SplitLines(markdown);
    SplitLinesProper(markdown);
    assert lines[0..] == lines;
    for idx := 0 to |lines|
      invariant items + Items(lines[idx..], inPlan) == Extract(markdown)
    {
      ghost var rest := Items(lines[idx + 1..], ParserAfter(lines[idx], inPlan));
      ItemsStep(lines, idx, inPlan);
      var found;
      found, inPlan := ParseLine(lines[idx], inPlan);
      assert items + (found + rest) == items + found + rest;
      items := items + found;
    }
    assert lines[|lines|..] == [];
  }

  /** One turn of the parser's loop. */
  method ParseLine(line: string, inPlan: bool) returns (found: seq<Item>, inPlan': bool)
    requires ProperLine(line)
    ensures found == if inPlan then LineItems(line) else []
    ensures inPlan' == ParserAfter(line, inPlan)
  {
    RstripStops(Chomp(line));
    var body := RstripNewline(Chomp(line));
    found, inPlan' := [], inPlan;
    var h2 := H2Title(body);
    if h2.Some? {
      inPlan' := h2.value == PLAN_HEADING;
    } else if inPlan {
      var box := MatchBox(body);
      if box.Some? {
        found := [ItemAt(body, box.value)];
      }
    }
    if h2.Some? {
      HeadingHoldsNoItem(line);
    }
  }

  lemma ItemsStep(lines: seq<string>, idx: nat, inPlan: bool)
    requires idx < |lines|
    ensures Items(lines[idx..], inPlan) ==
            (if inPlan then LineItems(lines[idx]) else []) + Items(lines[idx + 1..], ParserAfter(lines[idx], inPlan))
  {
    assert lines[idx..][1..] == lines[idx + 1..];
  }

  lemma HeadingHoldsNoItem(line: string)
    ensures H2Title(Chomp(line)).Some? ==> LineItems(line) == []
  {
  }

  method ApplyPlanVerificationCheckboxes(markdown: string, verification: seq<map<string, Json>>) returns (r: string)
    ensures r == Patch(markdown, DoneIds(verification))
  {
    var done := DoneIds(verification);
    PatchNothing(markdown);
    if done == {} {
      return markdown;
    }
    var lines := SplitLines(markdown);
    ghost var before := lines;
    var inPlan, changed := false, false;
    assert before[0..] == before && lines[..0] == [];
    for idx := 0 to |lines|
      invariant |lines| == |before| && lines[idx..] == before[idx..]
      invariant lines[..idx] + PatchLines(before[idx..], inPlan, done) == PatchLines(before, false, done)
      invariant !changed ==> lines == before
    {
      assert lines[idx] == lines[idx..][0] == before[idx];
      PatchTurn(lines, before, idx, inPlan, done);
      var line, hit;
      line, inPlan, hit := PatchLine(lines[idx], inPlan, done);
      assert !hit ==> lines[idx := line] == lines;
      if hit {
        lines := lines[idx := line];
        changed := true;
      }
    }
    assert before[|before|..] == [] && lines[..|lines|] == lines;
    assert lines == PatchLines(before, false, done);
    JoinSplit(markdown);
    r := if changed then Join(lines) else markdown;
  }

  /** What one turn of the loop leaves of the lines, done and to do. */
  lemma PatchTurn(lines: seq<string>, before: seq<string>, idx: nat, seen: bool, done: set<string>)
    requires idx < |lines| == |before| && lines[idx..] == before[idx..]
    ensures var line := if seen && Ticks(before[idx], done) then Tick(before[idx]) else before[idx];
            var next := lines[idx := line];
            && next[idx + 1..] == before[idx + 1..]
            && next[..idx + 1] + PatchLines(before[idx + 1..], PlanAfter(before[idx], seen), done)
               == lines[..idx] + PatchLines(before[idx..], seen, done)
  {
    PatchStep(before, idx, seen, done);
    var line := if seen && Ticks(before[idx], done) then Tick(before[idx]) else before[idx];
    assert lines[idx..][1..] == lines[idx + 1..] && before[idx..][1..] == before[idx + 1..];
    assert lines[idx := line][..idx + 1] == lines[..idx] + [line];
  }

  /** One turn of the patcher's loop; `hit` says that the line is replaced. */
  method PatchLine(line: string, inPlan: bool, done: set<string>) returns (r: string, inPlan': bool, hit: bool)
    ensures r == if inPlan && Ticks(line, done) then Tick(line) else line
    ensures !hit ==> r == line
    ensures inPlan' == PlanAfter(line, inPlan)
  {
    var body := RstripNewline(line);
    var newline := line[|body|..];
    r, inPlan', hit := line, inPlan, false;
    var h2 := H2Title(body);
    if h2.Some? {
      inPlan' := h2.value == PLAN_HEADING;
    } else if inPlan {
      var box := MatchBox(body);
      if box.Some? && body[box.value.idFrom..box.value.idTo] in done && body[box.value.mark] == ' ' {
        r, hit := body[..box.value.mark] + "x" + body[box.value.mark + 1..] + newline, true;
        assert line == body + newline;
        assert r == line[box.value.mark := 'x'];
      }
    }
  }

  lemma PatchStep(lines: seq<string>, idx: nat, seen: bool, done: set<string>)
    requires idx < |lines|
    ensures PatchLines(lines[idx..], seen, done) ==
            [if seen && Ticks(lines[idx], done) then Tick(lines[idx]) else lines[idx]]
            + PatchLines(lines[idx + 1..], PlanAfter(lines[idx], seen), done)
  {
    assert lines[idx..][1..] == lines[idx + 1..];
  }
}
