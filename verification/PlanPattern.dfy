/** What the plan scanners find, in terms of the text: their regular expressions as positions in a line, the items of a
    note line by line, the records of a review one by one. */
module PlanPattern {
  import opened Json
  import opened Options
  import opened PyText
  import opened PlanAudit

  ghost predicate Blanks(s: string, i: nat, j: nat) {
    i <= j <= |s| && forall k :: i <= k < j ==> IsSpace(s[k])
  }

  // ---- plan ids ----

  predicate IsWordChar(c: char) {
    IsAsciiLetter(c) || IsAsciiDigit(c) || c == '_' || c == '-'
  }

  /** A digit, or a dot between digits. */
  predicate DigitOrDot(t: string, k: nat) {
    && k < |t|
    && (IsDigit(t[k]) || (t[k] == '.' && 0 < k < |t| - 1 && IsDigit(t[k - 1]) && IsDigit(t[k + 1])))
  }

  /** `\d+(?:\.\d+)*`: digits, and dots between digits. */
  ghost predicate Dotted(t: string) {
    t != [] && forall k :: 0 <= k < |t| ==> DigitOrDot(t, k)
  }

  /** `[A-Za-z][A-Za-z0-9_-]*-\d+(?:\.\d+)*`, the hyphen before the number at `h`. */
  ghost predicate PlanId(t: string, h: nat) {
    && 0 < h < |t| && t[h] == '-'
    && IsAsciiLetter(t[0]) && (forall k :: 0 <= k < h ==> IsWordChar(t[k]))
    && Dotted(t[h + 1..])
  }

  /** What may follow a digit. */
  predicate FollowsOn(t: string, k: nat) {
    && k < |t|
    && (IsDigit(t[k]) || (t[k] == '.' && k < |t| - 1 && (0 < k ==> IsDigit(t[k - 1])) && IsDigit(t[k + 1])))
  }

  /** What may follow a digit, or, if `open`, has to begin with one. */
  ghost predicate DottedRest(t: string, open: bool) {
    (open ==> t != [] && IsDigit(t[0])) && forall k :: 0 <= k < |t| ==> FollowsOn(t, k)
  }

  /** No digit is a blank, a colon, a hyphen or a dot. */
  lemma DigitsApart(c: char)
    requires IsDigit(c)
    ensures !IsSpace(c) && !IsColon(c) && c != '-' && c != '.'
  {
  }

  lemma RestOfTail(t: string, open: bool)
    requires t != [] && DottedRest(t, open)
    ensures DottedRest(t[1..], !IsDigit(t[0])) && (IsDigit(t[0]) || (!open && t[0] == '.'))
  {
    var rest := t[1..];
    assert FollowsOn(t, 0);
    forall k | 0 <= k < |rest| ensures FollowsOn(rest, k) {
      assert FollowsOn(t, k + 1);
    }
  }

  lemma RestOfWhole(t: string, open: bool)
    requires t != [] && DottedRest(t[1..], !IsDigit(t[0])) && (IsDigit(t[0]) || (!open && t[0] == '.'))
    ensures DottedRest(t, open)
  {
    var rest := t[1..];
    forall k | 0 <= k < |t| ensures FollowsOn(t, k) {
      if k > 0 {
        assert FollowsOn(rest, k - 1);
        if k == 1 && !IsDigit(t[0]) {
          DigitsApart(rest[0]);
        }
      }
    }
  }

  lemma {:induction false} DottedRestExactly(t: string, open: bool)
    ensures DottedDigits(t, open) <==> DottedRest(t, open)
  {
    if t != [] {
      DottedRestExactly(t[1..], !IsDigit(t[0]));
      if DottedRest(t, open) {
        RestOfTail(t, open);
      }
      if DottedRest(t[1..], !IsDigit(t[0])) && (IsDigit(t[0]) || (!open && t[0] == '.')) {
        RestOfWhole(t, open);
      }
    }
  }

  lemma DottedExactly(t: string)
    ensures DottedDigits(t, true) <==> Dotted(t)
  {
    DottedRestExactly(t, true);
    if Dotted(t) {
      assert DigitOrDot(t, 0);
      forall k | 0 <= k < |t| ensures FollowsOn(t, k) {
        assert DigitOrDot(t, k);
      }
    }
    if DottedRest(t, true) {
      DigitsApart(t[0]);
      forall k | 0 <= k < |t| ensures DigitOrDot(t, k) {
        assert FollowsOn(t, k);
      }
    }
  }

  lemma {:induction false} LastHyphenIsLast(t: string)
    ensures var h := LastHyphen(t); (h < |t| ==> t[h] == '-') && forall k :: h < k < |t| ==> t[k] != '-'
    ensures LastHyphen(t) == |t| ==> '-' !in t
    decreases |t|
  {
    if t != [] && t[|t| - 1] != '-' {
      var init := t[..|t| - 1];
      LastHyphenIsLast(init);
      assert forall k :: 0 <= k < |init| ==> t[k] == init[k];
    }
  }

  lemma NumberChars(t: string, k: nat)
    requires Dotted(t) && k < |t|
    ensures !IsSpace(t[k]) && !IsColon(t[k]) && t[k] != '-'
  {
    assert DigitOrDot(t, k);
    if IsDigit(t[k]) {
      DigitsApart(t[k]);
    }
  }

  lemma PlanIdExactly(t: string)
    ensures IsPlanId(t) <==> exists h: nat :: PlanId(t, h)
  {
    LastHyphenIsLast(t);
    var h := LastHyphen(t);
    if h < |t| {
      DottedExactly(t[h + 1..]);
    }
    if IsPlanId(t) {
      assert PlanId(t, h);
    }
    if exists h': nat :: PlanId(t, h') {
      var h': nat :| PlanId(t, h');
      forall k | h' < k < |t| ensures t[k] != '-' {
        NumberChars(t[h' + 1..], k - h' - 1);
      }
      assert h == h';
    }
  }

  // ---- runs of blanks and of other characters ----

  lemma {:induction false} SkipSpacesExactly(s: string, i: nat, j: nat)
    requires i <= |s|
    ensures SkipSpaces(s, i) == j <==> Blanks(s, i, j) && (j == |s| || (j < |s| && !IsSpace(s[j])))
    decreases |s| - i
  {
    if i < |s| && IsSpace(s[i]) {
      SkipSpacesExactly(s, i + 1, j);
    }
  }

  lemma {:induction false} SkipTokenExactly(s: string, i: nat, j: nat)
    requires i <= |s|
    ensures SkipToken(s, i) == j <==>
            && i <= j <= |s| && (forall k :: i <= k < j ==> !IsSpace(s[k]) && !IsColon(s[k]))
            && (j == |s| || IsSpace(s[j]) || IsColon(s[j]))
    decreases |s| - i
  {
    if i < |s| && !IsSpace(s[i]) && !IsColon(s[i]) {
      SkipTokenExactly(s, i + 1, j);
    }
  }

  // ---- the checkbox ----

  /** `^(\s*[-*]\s+\[)([ xX])(\]\s+)((?:~~\s*)?)([A-Za-z][A-Za-z0-9_-]*-\d+(?:\.\d+)*)(\s*[:：].*)$`: the bullet at `a`, the
      bracket at `b`, the tildes, if any, at `c`, the plan id from `d` to `f`, the colon at `g`. */
  ghost predicate Checkbox(s: string, a: nat, b: nat, c: nat, d: nat, f: nat, g: nat) {
    && Blanks(s, 0, a) && a < |s| && (s[a] == '-' || s[a] == '*')
    && a + 1 < b && Blanks(s, a + 1, b) && b < |s| && s[b] == '['
    && MarkAt(s, b + 1, c, d, f, g)
  }

  /** The pattern from the mark at `m` on. */
  ghost predicate MarkAt(s: string, m: nat, c: nat, d: nat, f: nat, g: nat) {
    && m + 1 < |s| && (s[m] == ' ' || s[m] == 'x' || s[m] == 'X') && s[m + 1] == ']'
    && m + 2 < c && Blanks(s, m + 2, c)
    && (d == c || (c + 1 < |s| && s[c] == '~' && s[c + 1] == '~' && Blanks(s, c + 2, d)))
    && d <= f <= |s| && (exists h: nat :: PlanId(s[d..f], h))
    && Blanks(s, f, g) && g < |s| && IsColon(s[g])
  }

  /** A plan id holds no blank and no colon, and begins with a letter. */
  lemma PlanIdChars(t: string, h: nat)
    requires PlanId(t, h)
    ensures forall k :: 0 <= k < |t| ==> !IsSpace(t[k]) && !IsColon(t[k])
    ensures IsAsciiLetter(t[0])
  {
    forall k | 0 <= k < |t| ensures !IsSpace(t[k]) && !IsColon(t[k]) {
      if h < k {
        NumberChars(t[h + 1..], k - h - 1);
      }
    }
  }

  lemma OpenExactly(s: string, a: nat, b: nat)
    requires Blanks(s, 0, a) && a < |s| && (s[a] == '-' || s[a] == '*')
    requires a + 1 < b && Blanks(s, a + 1, b) && b < |s| && s[b] == '['
    ensures BoxOpen(s) == Some(b + 1)
  {
    SkipSpacesExactly(s, 0, a);
    SkipSpacesExactly(s, a + 1, b);
  }

  lemma OpenSound(s: string) returns (a: nat, b: nat)
    requires BoxOpen(s).Some?
    ensures Blanks(s, 0, a) && a < |s| && (s[a] == '-' || s[a] == '*')
    ensures a + 1 < b && Blanks(s, a + 1, b) && b < |s| && s[b] == '[' && BoxOpen(s) == Some(b + 1)
  {
    a := SkipSpaces(s, 0);
    b := SkipSpaces(s, a + 1);
    SkipSpacesExactly(s, 0, a);
    SkipSpacesExactly(s, a + 1, b);
  }

  lemma TokenExactly(s: string, d: nat, f: nat, g: nat)
    requires d <= f <= |s| && (exists h: nat :: PlanId(s[d..f], h))
    requires Blanks(s, f, g) && g < |s| && IsColon(s[g])
    ensures PlanToken(s, d) == Some(f) && IsAsciiLetter(s[d])
  {
    var h: nat :| PlanId(s[d..f], h);
    PlanIdChars(s[d..f], h);
    assert forall k :: d <= k < f ==> s[k] == s[d..f][k - d];
    SkipTokenExactly(s, d, f);
    SkipSpacesExactly(s, f, g);
    PlanIdExactly(s[d..f]);
  }

  lemma TokenSound(s: string, d: nat) returns (g: nat)
    requires d <= |s| && PlanToken(s, d).Some?
    ensures var f := PlanToken(s, d).value;
            && d <= f <= |s| && (exists h: nat :: PlanId(s[d..f], h))
            && Blanks(s, f, g) && g < |s| && IsColon(s[g])
  {
    var f := PlanToken(s, d).value;
    g := SkipSpaces(s, f);
    SkipSpacesExactly(s, f, g);
    PlanIdExactly(s[d..f]);
  }

  lemma IdStartExactly(s: string, i: nat, c: nat, d: nat)
    requires i < c && Blanks(s, i, c) && d < |s| && IsAsciiLetter(s[d])
    requires d == c || (c + 1 < |s| && s[c] == '~' && s[c + 1] == '~' && Blanks(s, c + 2, d))
    ensures IdStart(s, i) == d
  {
    SkipSpacesExactly(s, i, c);
    if d != c {
      SkipSpacesExactly(s, c + 2, d);
    }
  }

  lemma MarkComplete(s: string, m: nat, c: nat, d: nat, f: nat, g: nat)
    requires MarkAt(s, m, c, d, f, g)
    ensures BoxAt(s, m) == Some(Box(m, d, f))
  {
    TokenExactly(s, d, f, g);
    IdStartExactly(s, m + 2, c, d);
  }

  lemma MarkSound(s: string, m: nat) returns (c: nat, d: nat, f: nat, g: nat)
    requires BoxAt(s, m).Some?
    ensures MarkAt(s, m, c, d, f, g) && BoxAt(s, m) == Some(Box(m, d, f))
  {
    c := SkipSpaces(s, m + 2);
    SkipSpacesExactly(s, m + 2, c);
    d := IdStart(s, m + 2);
    if c + 1 < |s| && s[c] == '~' && s[c + 1] == '~' {
      SkipSpacesExactly(s, c + 2, d);
    }
    f := PlanToken(s, d).value;
    g := TokenSound(s, d);
  }

  lemma MatchSound(s: string) returns (a: nat, b: nat, c: nat, d: nat, f: nat, g: nat)
    requires MatchBox(s).Some?
    ensures Checkbox(s, a, b, c, d, f, g) && MatchBox(s) == Some(Box(b + 1, d, f))
  {
    a, b := OpenSound(s);
    c, d, f, g := MarkSound(s, b + 1);
  }

  lemma MatchComplete(s: string, a: nat, b: nat, c: nat, d: nat, f: nat, g: nat)
    requires Checkbox(s, a, b, c, d, f, g)
    ensures MatchBox(s) == Some(Box(b + 1, d, f))
  {
    OpenExactly(s, a, b);
    MarkComplete(s, b + 1, c, d, f, g);
    MatchIs(s, b + 1, Box(b + 1, d, f));
  }

  lemma MatchIs(s: string, m: nat, box: Box)
    requires BoxOpen(s) == Some(m) && BoxAt(s, m) == Some(box)
    ensures MatchBox(s) == Some(box)
  {
  }

  /** The matcher finds a checkbox exactly on the lines that match the regular expression, and with its groups. */
  lemma MatchExactly(s: string, box: Box)
    ensures MatchBox(s) == Some(box) <==>
            exists a: nat, b: nat, c: nat, d: nat, f: nat, g: nat :: Checkbox(s, a, b, c, d, f, g) && box == Box(b + 1, d, f)
  {
    if MatchBox(s).Some? {
      var a, b, c, d, f, g := MatchSound(s);
      assert Checkbox(s, a, b, c, d, f, g) && MatchBox(s).value == Box(b + 1, d, f);
    }
    if exists a: nat, b: nat, c: nat, d: nat, f: nat, g: nat :: Checkbox(s, a, b, c, d, f, g) && box == Box(b + 1, d, f) {
      var a: nat, b: nat, c: nat, d: nat, f: nat, g: nat :| Checkbox(s, a, b, c, d, f, g) && box == Box(b + 1, d, f);
      MatchComplete(s, a, b, c, d, f, g);
    }
  }

  // ---- headings ----

  /** `^##\s+(.+?)\s*$`, the title from `m` to `n`: the blanks before it are as many, the title as short as can be. */
  ghost predicate Heading(s: string, m: nat, n: nat) {
    && 2 < m < n <= |s| && s[0] == '#' && s[1] == '#' && Blanks(s, 2, m) && Blanks(s, n, |s|)
    && ((!IsSpace(s[m]) && !IsSpace(s[n - 1])) || (m == |s| - 1 && n == |s| && IsSpace(s[m])))
  }

  lemma {:induction false} StripRightExactly(t: string)
    ensures var r := StripRight(t);
            r <= t && Blanks(t, |r|, |t|) && (r != [] ==> !IsSpace(r[|r| - 1])) && (t != [] && !IsSpace(t[0]) ==> r != [])
    decreases |t|
  {
    if t != [] && IsSpace(t[|t| - 1]) {
      var init := t[..|t| - 1];
      StripRightExactly(init);
      assert forall k :: 0 <= k < |init| ==> t[k] == init[k];
    }
  }

  lemma TitleEnd(s: string, m: nat) returns (n: nat)
    requires m < |s| && !IsSpace(s[m])
    ensures m < n <= |s| && StripRight(s[m..]) == s[m..n] && !IsSpace(s[n - 1]) && Blanks(s, n, |s|)
  {
    var t := s[m..];
    StripRightExactly(t);
    var r := StripRight(t);
    n := m + |r|;
    assert r == t[..|r|];
    assert forall k :: 0 <= k < |t| ==> s[m + k] == t[k];
    forall k | n <= k < |s| ensures IsSpace(s[k]) {
      assert s[k] == t[k - m];
    }
  }

  lemma HeadingComplete(s: string) returns (m: nat, n: nat)
    requires H2Title(s).Some?
    ensures Heading(s, m, n) && H2Title(s) == Some(s[m..n])
  {
    m, n := SkipSpaces(s, 2), |s|;
    SkipSpacesExactly(s, 2, m);
    if m < |s| {
      n := TitleEnd(s, m);
    } else {
      m := m - 1;
      assert s[m..] == s[m..n];
    }
  }

  /** A heading has one title. */
  lemma HeadingUnique(s: string, m: nat, n: nat, m': nat, n': nat)
    requires Heading(s, m, n) && Heading(s, m', n')
    ensures m == m' && n == n'
  {
  }

  lemma HeadingSound(s: string, m: nat, n: nat)
    requires Heading(s, m, n)
    ensures H2Title(s) == Some(s[m..n])
  {
    var k := SkipSpaces(s, 2);
    SkipSpacesExactly(s, 2, k);
    assert m <= k;
    assert H2Title(s).Some?;
    var m', n' := HeadingComplete(s);
    HeadingUnique(s, m, n, m', n');
  }

  /** The heading test finds a title exactly on the lines that match its regular expression, and that title. */
  lemma TitleExactly(s: string, title: string)
    ensures H2Title(s) == Some(title) <==> exists m: nat, n: nat :: Heading(s, m, n) && title == s[m..n]
  {
    if H2Title(s).Some? {
      var m, n := HeadingComplete(s);
      assert Heading(s, m, n) && H2Title(s).value == s[m..n];
    }
    if exists m: nat, n: nat :: Heading(s, m, n) && title == s[m..n] {
      var m: nat, n: nat :| Heading(s, m, n) && title == s[m..n];
      HeadingSound(s, m, n);
    }
  }

  // ---- the items of a note ----

  /** `^\s*[:：]\s*\[(P[0-2])\]\s*(.*)$`, the colon at `a`, the bracket at `b`. */
  ghost predicate Graded(s: string, a: nat, b: nat) {
    && Blanks(s, 0, a) && a < b < |s| && IsColon(s[a]) && Blanks(s, a + 1, b)
    && b + 3 < |s| && s[b] == '[' && s[b + 1] == 'P' && s[b + 2] in "012" && s[b + 3] == ']'
  }

  lemma GradeExactly(s: string, grade: string)
    ensures (ImportanceOf(s).Some? && ImportanceOf(s).value.0 == grade) <==>
            exists a: nat, b: nat :: Graded(s, a, b) && grade == s[b + 1..b + 3]
  {
    var a := SkipSpaces(s, 0);
    SkipSpacesExactly(s, 0, a);
    if a < |s| {
      var b := SkipSpaces(s, a + 1);
      SkipSpacesExactly(s, a + 1, b);
      assert ImportanceOf(s).Some? ==> Graded(s, a, b);
    }
    forall a': nat, b': nat | Graded(s, a', b')
      ensures ImportanceOf(s).Some? && ImportanceOf(s).value.0 == s[b' + 1..b' + 3]
    {
      GradeFound(s, a', b');
    }
  }

  lemma GradeFound(s: string, a: nat, b: nat)
    requires Graded(s, a, b)
    ensures ImportanceOf(s).Some? && ImportanceOf(s).value.0 == s[b + 1..b + 3]
  {
    SkipSpacesExactly(s, 0, a);
    SkipSpacesExactly(s, a + 1, b);
  }

  /** Two tildes side by side. */
  ghost predicate Struck(s: string) {
    exists k: nat :: k + 1 < |s| && s[k] == '~' && s[k + 1] == '~'
  }

  lemma StruckExactly(s: string)
    ensures Contains(s, "~~") <==> Struck(s)
  {
    if Contains(s, "~~") {
      var k :| 0 <= k <= |s| && IsAt(s, "~~", k);
      assert s[k..k + 2][0] == s[k] && s[k..k + 2][1] == s[k + 1];
    }
    if Struck(s) {
      var k: nat :| k + 1 < |s| && s[k] == '~' && s[k + 1] == '~';
      assert s[k..k + 2] == "~~";
      assert IsAt(s, "~~", k);
    }
  }

  /** The grade behind the id, if the rest of the line begins with one. */
  ghost predicate GradeSaid(rest: string, importance: Option<string>) {
    && (importance.None? <==> forall i: nat, j: nat :: !Graded(rest, i, j))
    && (importance.Some? ==> exists i: nat, j: nat :: Graded(rest, i, j) && importance.value == rest[j + 1..j + 3])
  }

  /** What a line `s` that matches the pattern says about its item, the bracket at `b`, the id from `d` to `f`. */
  ghost predicate Says(s: string, b: nat, d: nat, f: nat, item: Item)
    requires b + 1 < |s| && d <= f <= |s|
  {
    && item.id == s[d..f]
    && (item.checked <==> s[b + 1] == 'x' || s[b + 1] == 'X')
    && (item.cancelled <==> Struck(s))
    && GradeSaid(s[f..], item.importance)
  }

  lemma ImportanceSays(rest: string)
    ensures var imp := ImportanceOf(rest); GradeSaid(rest, if imp.Some? then Some(imp.value.0) else None)
  {
    var imp := ImportanceOf(rest);
    if imp.Some? {
      GradeExactly(rest, imp.value.0);
    }
    forall i: nat, j: nat | Graded(rest, i, j) ensures imp.Some? {
      GradeFound(rest, i, j);
    }
  }

  lemma ItemSays(s: string, b: nat, d: nat, f: nat)
    requires b + 1 < |s| && d <= f <= |s|
    ensures Says(s, b, d, f, ItemAt(s, Box(b + 1, d, f)))
  {
    StruckExactly(s);
    ImportanceSays(s[f..]);
  }

  lemma MatchIsNoTitle(s: string)
    requires MatchBox(s).Some?
    ensures H2Title(s).None?
  {
  }

  /** A line holds an item exactly if it matches the pattern, and that item is what the line says. */
  lemma LineItemExactly(line: string)
    ensures |LineItems(line)| <= 1
    ensures forall item :: item in LineItems(line) ==>
              exists a: nat, b: nat, c: nat, d: nat, f: nat, g: nat ::
                Checkbox(Chomp(line), a, b, c, d, f, g) && Says(Chomp(line), b, d, f, item)
    ensures forall a: nat, b: nat, c: nat, d: nat, f: nat, g: nat :: Checkbox(Chomp(line), a, b, c, d, f, g) ==>
              exists item :: item in LineItems(line) && Says(Chomp(line), b, d, f, item)
  {
    var s := Chomp(line);
    if MatchBox(s).Some? {
      var a, b, c, d, f, g := MatchSound(s);
      MatchIsNoTitle(s);
      ItemSays(s, b, d, f);
    }
    forall a: nat, b: nat, c: nat, d: nat, f: nat, g: nat | Checkbox(s, a, b, c, d, f, g)
      ensures exists item :: item in LineItems(line) && Says(s, b, d, f, item)
    {
      MatchComplete(s, a, b, c, d, f, g);
      MatchIsNoTitle(s);
      ItemSays(s, b, d, f);
      assert ItemAt(s, Box(b + 1, d, f)) in LineItems(line);
    }
  }

  /** No heading from line `j` up to line `k`. */
  ghost predicate NoTitle(lines: seq<string>, j: nat, k: nat) {
    k <= |lines| && forall i :: j <= i < k ==> H2Title(Chomp(lines[i])).None?
  }

  /** Line `k` stands in the plan section: the last heading before it is that of the plan. */
  ghost predicate UnderPlan(lines: seq<string>, k: nat) {
    k <= |lines| && exists j: nat :: j < k && IsPlanTitle(lines[j]) && NoTitle(lines, j + 1, k)
  }

  predicate IsPlanTitle(line: string) {
    H2Title(Chomp(line)) == Some(PLAN_HEADING)
  }

  lemma {:induction false} InPlanExactly(lines: seq<string>, k: nat, inPlan: bool)
    requires k <= |lines|
    ensures InPlanAt(lines, k, inPlan) <==> UnderPlan(lines, k) || (inPlan && NoTitle(lines, 0, k))
  {
    if k > 0 {
      InPlanExactly(lines[1..], k - 1, ParserAfter(lines[0], inPlan));
      FlagIs(lines[0], inPlan);
      UnderPlanRest(lines, k);
      NoTitleFirst(lines, k);
    }
  }

  lemma FlagIs(line: string, inPlan: bool)
    ensures ParserAfter(line, inPlan) <==> IsPlanTitle(line) || (inPlan && H2Title(Chomp(line)).None?)
  {
  }

  lemma NoTitleFirst(lines: seq<string>, k: nat)
    requires 0 < k <= |lines|
    ensures NoTitle(lines, 0, k) <==> H2Title(Chomp(lines[0])).None? && NoTitle(lines[1..], 0, k - 1)
    ensures NoTitle(lines, 1, k) <==> NoTitle(lines[1..], 0, k - 1)
  {
    NoTitleRest(lines, 1, k);
  }

  lemma NoTitleRest(lines: seq<string>, j: nat, k: nat)
    requires 0 < j && 0 < k <= |lines|
    ensures NoTitle(lines[1..], j - 1, k - 1) <==> NoTitle(lines, j, k)
  {
    var rest := lines[1..];
    assert forall i :: 0 < i < k ==> lines[i] == rest[i - 1];
    assert forall i :: 0 <= i < k - 1 ==> rest[i] == lines[i + 1];
  }

  lemma UnderPlanRest(lines: seq<string>, k: nat)
    requires 0 < k <= |lines|
    ensures UnderPlan(lines, k) <==>
            UnderPlan(lines[1..], k - 1) || (IsPlanTitle(lines[0]) && NoTitle(lines, 1, k))
  {
    var rest := lines[1..];
    forall j: nat | j < k && IsPlanTitle(lines[j]) && NoTitle(lines, j + 1, k)
      ensures UnderPlan(rest, k - 1) || (IsPlanTitle(lines[0]) && NoTitle(lines, 1, k))
    {
      if j > 0 {
        NoTitleRest(lines, j + 1, k);
        assert rest[j - 1] == lines[j];
      }
    }
    forall j: nat | j < k - 1 && IsPlanTitle(rest[j]) && NoTitle(rest, j + 1, k - 1) ensures UnderPlan(lines, k) {
      NoTitleRest(lines, j + 2, k);
      assert lines[j + 1] == rest[j];
    }
  }

  lemma {:induction false} ItemsAt(lines: seq<string>, inPlan: bool, item: Item)
    ensures item in Items(lines, inPlan) <==>
            exists k :: 0 <= k < |lines| && InPlanAt(lines, k, inPlan) && item in LineItems(lines[k])
  {
    if lines != [] {
      var rest, flag := lines[1..], ParserAfter(lines[0], inPlan);
      ItemsAt(rest, flag, item);
      if item in Items(rest, flag) {
        var k :| 0 <= k < |rest| && InPlanAt(rest, k, flag) && item in LineItems(rest[k]);
        assert InPlanAt(lines, k + 1, inPlan) && lines[k + 1] == rest[k];
      }
      if inPlan && item in LineItems(lines[0]) {
        assert InPlanAt(lines, 0, inPlan);
      }
      forall k | 0 <= k < |lines| && InPlanAt(lines, k, inPlan) && item in LineItems(lines[k])
        ensures item in Items(lines, inPlan)
      {
        if k > 0 {
          assert InPlanAt(rest, k - 1, flag) && rest[k - 1] == lines[k];
        }
      }
    }
  }

  /** The parser finds an item exactly if a line of the plan section holds it. */
  lemma ItemsExactly(markdown: string, item: Item)
    ensures var lines := SplitLines(markdown);
            item in Extract(markdown) <==>
              exists k :: 0 <= k < |lines| && UnderPlan(lines, k) && item in LineItems(lines[k])
  {
    var lines := SplitLines(markdown);
    ItemsAt(lines, false, item);
    forall k | 0 <= k < |lines| ensures InPlanAt(lines, k, false) <==> UnderPlan(lines, k) {
      InPlanExactly(lines, k, false);
    }
  }

  // ---- coverage and patch, record by record ----

  /** A record of a review carries the id. */
  ghost predicate Answers(verification: seq<map<string, Json>>, id: string) {
    exists check :: check in verification && "id" in check && check["id"] == Str(id)
  }

  /** A record carries the id with status done, and does not say that the item is not implemented. */
  ghost predicate Confirms(verification: seq<map<string, Json>>, id: string) {
    exists check ::
      && check in verification && "id" in check && check["id"] == Str(id)
      && "status" in check && check["status"] == Str("done")
      && !("implemented" in check && check["implemented"] == Bool(false))
  }

  /** The ids of the items that are not cancelled and have no record. */
  ghost function Unanswered(markdown: string, verification: seq<map<string, Json>>): set<string> {
    set item | item in Extract(markdown) && !item.cancelled && !Answers(verification, item.id) :: item.id
  }

  /** Every item of the note that is not cancelled has its record. */
  ghost predicate CoversNote(markdown: string, verification: seq<map<string, Json>>) {
    forall item :: item in Extract(markdown) && !item.cancelled ==> Answers(verification, item.id)
  }

  /** The missing ids are those of the items that are not cancelled and have no record; none is missing exactly if the
      records cover the note. */
  lemma MissingExactly(markdown: string, verification: seq<map<string, Json>>)
    ensures MissingIds(markdown, verification) == Unanswered(markdown, verification)
    ensures MissingIds(markdown, verification) == {} <==> CoversNote(markdown, verification)
  {
    forall id ensures id in VerifiedIds(verification) <==> Answers(verification, id) {
      if Answers(verification, id) {
        var check :| check in verification && "id" in check && check["id"] == Str(id);
        assert Get(check, "id") == Str(id);
      }
    }
    forall id ensures id in MissingIds(markdown, verification) <==> id in Unanswered(markdown, verification) {
      if id in MissingIds(markdown, verification) {
        var item :| item in Extract(markdown) && !item.cancelled && item.id == id;
      }
    }
    if CoversNote(markdown, verification) {
      assert Unanswered(markdown, verification) == {};
    } else {
      var item :| item in Extract(markdown) && !item.cancelled && !Answers(verification, item.id);
      assert item.id in Unanswered(markdown, verification);
    }
  }

  /** The ids confirmed done are exactly those with such a record. */
  lemma DoneExactly(verification: seq<map<string, Json>>)
    ensures forall id :: id in DoneIds(verification) <==> Confirms(verification, id)
  {
    forall id | Confirms(verification, id) ensures id in DoneIds(verification) {
      var check :| && check in verification && "id" in check && check["id"] == Str(id)
                   && "status" in check && check["status"] == Str("done")
                   && !("implemented" in check && check["implemented"] == Bool(false));
      assert ConfirmsDone(check) && Get(check, "id").s == id;
    }
    forall id | id in DoneIds(verification) ensures Confirms(verification, id) {
      var check :| check in verification && ConfirmsDone(check) && Get(check, "id").s == id;
      assert "id" in check && check["id"] == Str(id);
    }
  }

  /** A phantom heading stands between line `k` and the heading above it. */
  ghost predicate BehindPhantom(lines: seq<string>, k: nat) {
    k <= |lines| && exists j: nat :: j < k && IsPhantomHeading(lines[j]) && NoTitle(lines, j + 1, k)
  }

  lemma {:induction false} PhantomExactly(lines: seq<string>, k: nat, phantom: bool)
    requires k <= |lines|
    ensures PhantomAt(lines, k, phantom) <==> BehindPhantom(lines, k) || (phantom && NoTitle(lines, 0, k))
  {
    if k > 0 {
      PhantomExactly(lines[1..], k - 1, PhantomAfter(lines[0], phantom));
      BehindPhantomRest(lines, k);
      NoTitleFirst(lines, k);
    }
  }

  lemma BehindPhantomRest(lines: seq<string>, k: nat)
    requires 0 < k <= |lines|
    ensures BehindPhantom(lines, k) <==>
            BehindPhantom(lines[1..], k - 1) || (IsPhantomHeading(lines[0]) && NoTitle(lines, 1, k))
  {
    var rest := lines[1..];
    forall j: nat | j < k && IsPhantomHeading(lines[j]) && NoTitle(lines, j + 1, k)
      ensures BehindPhantom(rest, k - 1) || (IsPhantomHeading(lines[0]) && NoTitle(lines, 1, k))
    {
      if j > 0 {
        NoTitleRest(lines, j + 1, k);
        assert rest[j - 1] == lines[j];
      }
    }
    forall j: nat | j < k - 1 && IsPhantomHeading(rest[j]) && NoTitle(rest, j + 1, k - 1) ensures BehindPhantom(lines, k) {
      NoTitleRest(lines, j + 2, k);
      assert lines[j + 1] == rest[j];
    }
  }

  /** The patch is due on line `k`: it stands under the plan heading, not behind a phantom one, and holds an item with
      an empty box that a record confirms. */
  ghost predicate TickDue(lines: seq<string>, k: nat, verification: seq<map<string, Json>>)
    requires k < |lines|
  {
    && UnderPlan(lines, k) && !BehindPhantom(lines, k)
    && exists item :: item in LineItems(lines[k]) && !item.checked && Confirms(verification, item.id)
  }

  /** The empty box of the line is checked. */
  ghost predicate GetsItsMark(line: string, patched: string) {
    exists a: nat, b: nat, c: nat, d: nat, f: nat, g: nat ::
      Checkbox(Chomp(line), a, b, c, d, f, g) && b + 1 < |line| && line[b + 1] == ' ' && patched == line[b + 1 := 'x']
  }

  /** The patch for a review's records changes exactly the lines on which it is due, and there the mark in the box. */
  lemma PatchExactly(markdown: string, verification: seq<map<string, Json>>)
    ensures var before, after := SplitLines(markdown), SplitLines(Patch(markdown, DoneIds(verification)));
            && |after| == |before|
            && forall k :: 0 <= k < |before| ==>
                 && (TickDue(before, k, verification) ==> GetsItsMark(before[k], after[k]))
                 && (!TickDue(before, k, verification) ==> after[k] == before[k])
  {
    var done := DoneIds(verification);
    var before, after := SplitLines(markdown), SplitLines(Patch(markdown, done));
    PatchTouchesPlanOnly(markdown, done);
    DoneExactly(verification);
    SplitLinesProper(markdown);
    forall k | 0 <= k < |before|
      ensures TickDue(before, k, verification) <==>
              InPlanAt(before, k, false) && !PhantomAt(before, k, false) && HoldsOpen(before[k], done)
    {
      InPlanExactly(before, k, false);
      PhantomExactly(before, k, false);
    }
    forall k | 0 <= k < |before| && TickDue(before, k, verification)
      ensures GetsItsMark(before[k], after[k])
    {
      assert after[k] == Tick(before[k]);
      TickSets(before[k], done);
    }
  }

  /** An open item has an empty box. */
  lemma OpenBox(line: string, done: set<string>)
    requires HoldsOpen(line, done)
    ensures MatchBox(Chomp(line)).Some? && Chomp(line)[MatchBox(Chomp(line)).value.mark] == ' '
  {
    var item :| item in LineItems(line) && item.id in done && !item.checked;
    assert item == ItemAt(Chomp(line), MatchBox(Chomp(line)).value);
  }

  lemma TickSets(line: string, done: set<string>)
    requires ProperLine(line) && HoldsOpen(line, done)
    ensures MatchBox(Chomp(line)).Some?
    ensures var m := MatchBox(Chomp(line)).value.mark;
            m < |Chomp(line)| && Chomp(line)[m] == ' ' && Tick(line) == line[m := 'x']
    ensures GetsItsMark(line, Tick(line))
  {
    OpenBox(line, done);
    LineTicked(line);
    MarkIsIn(line, Tick(line));
  }

  lemma MarkIsIn(line: string, patched: string)
    requires MatchBox(Chomp(line)).Some?
    requires var m := MatchBox(Chomp(line)).value.mark; m < |Chomp(line)| && Chomp(line)[m] == ' ' && patched == line[m := 'x']
    ensures GetsItsMark(line, patched)
  {
    var a, b, c, d, f, g := BoxFound(line);
  }

  lemma BoxFound(line: string) returns (a: nat, b: nat, c: nat, d: nat, f: nat, g: nat)
    requires MatchBox(Chomp(line)).Some?
    ensures Checkbox(Chomp(line), a, b, c, d, f, g) && MatchBox(Chomp(line)).value.mark == b + 1
    ensures b + 1 < |Chomp(line)| && line[b + 1] == Chomp(line)[b + 1]
  {
    a, b, c, d, f, g := MatchSound(Chomp(line));
  }
}
