/** Which review JSON the parser accepts, field by field, and what it makes of it. */
module ReviewAcceptance {
  import opened Json
  import opened Options
  import opened PyText
  import opened Reviewer

  // ---- numbers ----

  /** Within a run of ten digits each stands for one more than the one before it. */
  lemma NextDigit(c: char, d: char)
    requires IsDigit(c) && DigitOf(c) < 9 && d as int == c as int + 1
    ensures IsDigit(d) && DigitOf(d) == DigitOf(c) + 1
  {
  }

  lemma PreviousDigit(c: char, d: char)
    requires IsDigit(c) && DigitOf(c) > 0 && d as int == c as int - 1
    ensures IsDigit(d) && DigitOf(d) == DigitOf(c) - 1
  {
  }

  /** The ASCII digits stand for what they show; any other digit stands for its place in a run of ten. */
  lemma DigitOfExactly(c: char)
    requires IsDigit(c)
    ensures 0 <= DigitOf(c) <= 9
    ensures IsAsciiDigit(c) ==> "0123456789"[DigitOf(c)] == c
    ensures DigitOf(c) < 9 ==> forall d: char :: d as int == c as int + 1 ==> IsDigit(d) && DigitOf(d) == DigitOf(c) + 1
    ensures DigitOf(c) > 0 ==> forall d: char :: d as int == c as int - 1 ==> IsDigit(d) && DigitOf(d) == DigitOf(c) - 1
  {
    forall d: char | d as int == c as int + 1 && DigitOf(c) < 9 ensures IsDigit(d) && DigitOf(d) == DigitOf(c) + 1 {
      NextDigit(c, d);
    }
    forall d: char | d as int == c as int - 1 && DigitOf(c) > 0 ensures IsDigit(d) && DigitOf(d) == DigitOf(c) - 1 {
      PreviousDigit(c, d);
    }
  }

  /** The number a text of decimal digits stands for, by place value. */
  function PlaceValue(s: string): int {
    if s == [] then 0 else 10 * PlaceValue(s[..|s| - 1]) + DigitOf(s[|s| - 1])
  }

  lemma {:induction false} DigitsValueSplit(s: string, acc: int)
    requires s != []
    ensures DigitsValue(s, acc) == 10 * DigitsValue(s[..|s| - 1], acc) + DigitOf(s[|s| - 1])
    decreases |s|
  {
    if |s| == 1 {
      assert s[1..] == [] && s[..0] == [];
    } else {
      DigitsValueSplit(s[1..], 10 * acc + DigitOf(s[0]));
      assert s[1..][..|s| - 2] == s[..|s| - 1][1..];
    }
  }

  lemma {:induction false} DigitsValueIsPlaceValue(s: string)
    ensures DigitsValue(s, 0) == PlaceValue(s)
    decreases |s|
  {
    if s != [] {
      DigitsValueSplit(s, 0);
      DigitsValueIsPlaceValue(s[..|s| - 1]);
    }
  }

  /** From `i` to `j` stands what is left of the text without the blanks around it. */
  ghost predicate Core(s: string, i: nat, j: nat) {
    && i <= j <= |s|
    && (forall k :: 0 <= k < i || j <= k < |s| ==> IsSpace(s[k]))
    && (i < j ==> !IsSpace(s[i]) && !IsSpace(s[j - 1]))
  }

  lemma {:induction false} StripLeftCore(s: string)
    ensures var t := StripLeft(s);
            && t == s[|s| - |t|..] && (forall k :: 0 <= k < |s| - |t| ==> IsSpace(s[k])) && (t != [] ==> !IsSpace(t[0]))
    decreases |s|
  {
    if s != [] && IsSpace(s[0]) {
      StripLeftCore(s[1..]);
    }
  }

  lemma {:induction false} StripRightCore(s: string)
    ensures var t := StripRight(s);
            && t == s[..|t|] && (forall k :: |t| <= k < |s| ==> IsSpace(s[k])) && (t != [] ==> !IsSpace(t[|t| - 1]))
    decreases |s|
  {
    if s != [] && IsSpace(s[|s| - 1]) {
      StripRightCore(s[..|s| - 1]);
    }
  }

  lemma StripCore(s: string) returns (i: nat, j: nat)
    ensures Core(s, i, j) && Strip(s) == s[i..j]
  {
    StripLeftCore(s);
    StripRightCore(StripLeft(s));
    i := |s| - |StripLeft(s)|;
    j := i + |Strip(s)|;
    assert forall k :: i <= k < |s| ==> s[k] == StripLeft(s)[k - i];
  }

  lemma CoreIsUnique(s: string, i: nat, j: nat, i': nat, j': nat)
    requires Core(s, i, j) && Core(s, i', j') && i < j
    ensures i == i' && j == j'
  {
  }

  /** `value` is the number `n` from 0 to 100, or a text that `int` reads as `n`: decimal digits with blanks around them. */
  ghost predicate Reads(value: Json, n: int) {
    && 0 <= n <= 100
    && match value
       case Int(m) => m == n
       case Str(s) => (forall k :: 0 <= k < |s| ==> !IsSeparator(s[k])) && exists i: nat, j: nat :: DigitsStand(s, i, j, n)
       case _ => false
  }

  ghost predicate DigitsStand(s: string, i: nat, j: nat, n: int) {
    && Core(s, i, j) && 0 < j - i <= 4300
    && (forall k :: i <= k < j ==> IsDigit(s[k]))
    && PlaceValue(s[i..j]) == n
  }

  lemma TextReads(s: string, i: nat, j: nat, n: int)
    requires Core(s, i, j) && Strip(s) == s[i..j]
    ensures CoerceInt(Str(s)) == Good(n) <==>
            0 <= n <= 100 && (forall k :: 0 <= k < |s| ==> !IsSeparator(s[k])) && DigitsStand(s, i, j, n)
  {
    DigitsValueIsPlaceValue(s[i..j]);
    assert forall k :: i <= k < j ==> s[k] == s[i..j][k - i];
    assert (forall k :: 0 <= k < j - i ==> IsDigit(s[i..j][k])) <==> (forall k :: i <= k < j ==> IsDigit(s[k]));
  }

  lemma ReadsExactly(value: Json, n: int)
    ensures CoerceInt(value) == Good(n) <==> Reads(value, n)
  {
    if value.Str? {
      var s := value.s;
      var i, j := StripCore(s);
      TextReads(s, i, j, n);
      forall i': nat, j': nat | DigitsStand(s, i', j', n) ensures DigitsStand(s, i, j, n) {
        CoreIsUnique(s, i', j', i, j);
      }
    }
  }

  lemma NotReadNotGood(value: Json)
    ensures CoerceInt(value).Good? ==> Reads(value, CoerceInt(value).value)
  {
    if CoerceInt(value).Good? {
      ReadsExactly(value, CoerceInt(value).value);
    }
  }

  // ---- lists and names ----

  /** An object stays; a text becomes its message; anything else is shown as text first. */
  predicate ReadsObject(raw: Json, item: Json) {
    match raw
    case Obj(_) => item == raw
    case Str(_) => item == Obj(map["message" := raw])
    case Shown(_) => item == Obj(map["message" := raw])
    case _ => item == Obj(map["message" := Shown(raw)])
  }

  predicate ReadsList(raw: Json, items: seq<Json>) {
    match raw
    case Null => items == []
    case Arr(raws) => |items| == |raws| && forall k :: 0 <= k < |raws| ==> ReadsObject(raws[k], items[k])
    case _ => false
  }

  predicate ReadsCategory(raw: Json, category: Option<Category>) {
    || ((raw == Null || raw == Str("")) && category == None)
    || (raw == Str("req_gap") && category == Some(ReqGap))
    || (raw == Str("impl_gap") && category == Some(ImplGap))
    || (raw == Str("design_hollow") && category == Some(DesignHollow))
  }

  predicate HintOk(hint: Json) {
    && hint.Obj?
    && Get(hint.fields, "kind") in [Null, Str(""), Str("missing_feature"), Str("optimization")]
  }

  predicate BoolOrAbsent(item: map<string, Json>, key: string) {
    key !in item || item[key].Bool?
  }

  /** A plan record with a nonblank id, a known status and `verified`, its other fields known or absent. */
  ghost predicate RecordOk(item: map<string, Json>) {
    && Get(item, "id").Str? && (exists k :: 0 <= k < |Get(item, "id").s| && !IsSpace(Get(item, "id").s[k]))
    && Get(item, "status") in [Str("done"), Str("partial"), Str("deferred"), Str("blocked"), Str("failed"), Str("unverified")]
    && Get(item, "verified").Bool?
    && BoolOrAbsent(item, "implemented") && BoolOrAbsent(item, "required_for_exit")
    && Get(item, "importance") in [Null, Str(""), Str("P0"), Str("P1"), Str("P2")]
  }

  ghost predicate ReadsPlan(raw: Json, plan: seq<map<string, Json>>) {
    match raw
    case Null => plan == []
    case Arr(items) => |plan| == |items| && forall k :: 0 <= k < |items| ==> items[k] == Obj(plan[k]) && RecordOk(plan[k])
    case _ => false
  }

  lemma ListExactly(payload: map<string, Json>, key: string, items: seq<Json>)
    ensures CoerceList(payload, key) == Good(items) <==> ReadsList(Get(payload, key), items)
  {
    var raw := Get(payload, key);
    if raw.Arr? && ReadsList(raw, items) {
      assert items == AsObjects(raw.items);
    }
  }

  lemma CategoryExactly(raw: Json, category: Option<Category>)
    ensures CoerceCategory(raw) == Good(category) <==> ReadsCategory(raw, category)
  {
  }

  lemma HintsExactly(payload: map<string, Json>, hints: seq<Json>)
    ensures CoerceHints(payload) == Good(hints) <==>
            ReadsList(Get(payload, "next_round_hints"), hints) && forall k :: 0 <= k < |hints| ==> HintOk(hints[k])
  {
    ListExactly(payload, "next_round_hints", hints);
    forall hint: Json ensures HintOk(hint) <==> hint.Obj? && ValidHint(hint) {
    }
  }

  /** `s.strip()` is empty exactly if `s` is blank. */
  lemma StripIsEmpty(s: string)
    ensures Strip(s) == "" <==> forall k :: 0 <= k < |s| ==> IsSpace(s[k])
  {
    var i, j := StripCore(s);
  }

  lemma RecordExactly(item: map<string, Json>)
    ensures ValidCheck(item) <==> RecordOk(item)
  {
    if Get(item, "id").Str? {
      StripIsEmpty(Get(item, "id").s);
    }
  }

  lemma PlanExactly(raw: Json, plan: seq<map<string, Json>>)
    ensures CoercePlan(raw) == Good(plan) <==> ReadsPlan(raw, plan)
  {
    if raw.Arr? {
      forall k | 0 <= k < |raw.items| && raw.items[k].Obj? ensures ValidCheck(raw.items[k].fields) <==> RecordOk(raw.items[k].fields) {
        RecordExactly(raw.items[k].fields);
      }
      if ReadsPlan(raw, plan) {
        assert plan == CoercePlan(raw).value;
      }
    }
  }

  // ---- the score breakdown ----

  /** Under `key` there is nothing, null, or a number that is kept as `out` has it. */
  ghost predicate ReadsOptional(fields: map<string, Json>, key: string, out: map<string, Json>) {
    if Get(fields, key).Null? then (key in out <==> key in fields) && Get(out, key).Null?
    else key in out && out[key].Int? && Reads(fields[key], out[key].n)
  }

  ghost predicate ReadsNumber(fields: map<string, Json>, key: string, out: map<string, Json>) {
    key in fields && key in out && out[key].Int? && Reads(fields[key], out[key].n)
  }

  /** No breakdown gives an empty one. A breakdown must be an object with both part scores; the score is their product
      over 100, rounded half up; a final score, if given, is that score; all other fields are kept. */
  ghost predicate ReadsBreakdown(raw: Json, score: int, out: map<string, Json>) {
    match raw
    case Null => out == map[]
    case Obj(f) =>
      && ReadsNumber(f, "plan_score_a", out) && ReadsNumber(f, "actual_score_b", out)
      && ReadsOptional(f, "previous_actual_score_b", out)
      && RoundsHalfUp(score, out["plan_score_a"].n * out["actual_score_b"].n)
      && (Get(f, "final_score").Null? || Reads(f["final_score"], score))
      && "final_score" in out && out["final_score"] == Int(score)
      && out.Keys == f.Keys + {"final_score"}
      && forall key :: key in f && key !in ["plan_score_a", "actual_score_b", "previous_actual_score_b", "final_score"] ==> out[key] == f[key]
    case _ => false
  }

  lemma KeyExactly(fields: map<string, Json>, key: string)
    ensures CoerceKey(fields, key).Good? ==>
              var out := CoerceKey(fields, key).value;
              && ReadsOptional(fields, key, out) && out.Keys == fields.Keys
              && forall k :: k in fields && k != key ==> out[k] == fields[k]
  {
    if !Get(fields, key).Null? {
      NotReadNotGood(fields[key]);
    }
  }

  lemma KeyPasses(fields: map<string, Json>, key: string, n: int)
    ensures Get(fields, key).Null? ==> CoerceKey(fields, key) == Good(fields)
    ensures !Get(fields, key).Null? && Reads(fields[key], n) ==> CoerceKey(fields, key) == Good(fields[key := Int(n)])
  {
    if !Get(fields, key).Null? {
      ReadsExactly(fields[key], n);
    }
  }

  /** What the three score keys come to. */
  ghost predicate ReadsScores(f: map<string, Json>, out: map<string, Json>) {
    && ReadsOptional(f, "plan_score_a", out) && ReadsOptional(f, "actual_score_b", out)
    && ReadsOptional(f, "previous_actual_score_b", out) && out.Keys == f.Keys
    && forall key :: key in f && key !in ["plan_score_a", "actual_score_b", "previous_actual_score_b"] ==> out[key] == f[key]
  }

  lemma ScoresRead(f: map<string, Json>)
    ensures CoerceScores(f).Good? ==> ReadsScores(f, CoerceScores(f).value)
  {
    if CoerceScores(f).Good? {
      KeyExactly(f, "plan_score_a");
      var out1 := CoerceKey(f, "plan_score_a").value;
      KeyExactly(out1, "actual_score_b");
      var out2 := CoerceKey(out1, "actual_score_b").value;
      KeyExactly(out2, "previous_actual_score_b");
    }
  }

  lemma BreakdownRead(payload: map<string, Json>, score: int)
    requires 0 <= score <= 100
    ensures CoerceBreakdown(payload, score).Good? ==>
              ReadsBreakdown(Get(payload, "score_breakdown"), score, CoerceBreakdown(payload, score).value)
  {
    var raw := Get(payload, "score_breakdown");
    if CoerceBreakdown(payload, score).Good? && raw.Obj? {
      ScoresRead(raw.fields);
      var out := CoerceScores(raw.fields).value;
      RoundsHalfUpUnique(score, out["plan_score_a"].n, out["actual_score_b"].n);
      if !Get(raw.fields, "final_score").Null? {
        ReadsExactly(raw.fields["final_score"], score);
      }
    }
  }

  lemma ScoresPass(f: map<string, Json>, out: map<string, Json>)
    requires ReadsNumber(f, "plan_score_a", out) && ReadsNumber(f, "actual_score_b", out)
    requires ReadsOptional(f, "previous_actual_score_b", out)
    ensures CoerceScores(f).Good?
    ensures Get(CoerceScores(f).value, "plan_score_a") == out["plan_score_a"]
    ensures Get(CoerceScores(f).value, "actual_score_b") == out["actual_score_b"]
    ensures Get(CoerceScores(f).value, "previous_actual_score_b") == Get(out, "previous_actual_score_b")
  {
    KeyPasses(f, "plan_score_a", out["plan_score_a"].n);
    var out1 := f["plan_score_a" := out["plan_score_a"]];
    KeyPasses(out1, "actual_score_b", out["actual_score_b"].n);
    var out2 := out1["actual_score_b" := out["actual_score_b"]];
    var p := Get(out, "previous_actual_score_b");
    KeyPasses(out2, "previous_actual_score_b", if p.Int? then p.n else 0);
  }

  lemma BreakdownPasses(payload: map<string, Json>, score: int, out: map<string, Json>)
    requires 0 <= score <= 100 && ReadsBreakdown(Get(payload, "score_breakdown"), score, out)
    ensures CoerceBreakdown(payload, score) == Good(out)
  {
    var raw := Get(payload, "score_breakdown");
    if raw.Obj? {
      var f := raw.fields;
      ScoresPass(f, out);
      ScoresResult(f);
      RoundsHalfUpUnique(score, out["plan_score_a"].n, out["actual_score_b"].n);
      if !Get(f, "final_score").Null? {
        ReadsExactly(f["final_score"], score);
      }
      BreakdownKept(f, score, out);
    }
  }

  lemma BreakdownKept(f: map<string, Json>, score: int, out: map<string, Json>)
    requires ReadsBreakdown(Obj(f), score, out)
    ensures CoerceScores(f).Good? && CoerceScores(f).value["final_score" := Int(score)] == out
  {
    ScoresPass(f, out);
    ScoresRead(f);
  }

  // ---- the whole review ----

  /** The admitted values of every field, and what the outcome holds for them. */
  ghost predicate Accepts(payload: Json, o: Outcome) {
    && payload.Obj?
    && var f := payload.fields;
    && "score" in f && Reads(f["score"], o.score)
    && ReadsList(Get(f, "issues"), o.issues)
    && ReadsBreakdown(Get(f, "score_breakdown"), o.score, o.breakdown)
    && ReadsCategory(Get(f, "problem_category"), o.category)
    && ReadsList(Get(f, "next_round_hints"), o.hints) && (forall k :: 0 <= k < |o.hints| ==> HintOk(o.hints[k]))
    && ReadsPlan(Get(f, "plan_verification"), o.plan)
  }

  /** The parser accepts a value as the outcome `o` exactly if every field is admitted and read as `o` has it. With
      `RaisesExactly` this fixes the parser: every other value is refused. */
  lemma AcceptsExactly(payload: Json, o: Outcome)
    ensures Coerce(payload) == Good(o) <==> Accepts(payload, o)
  {
    if payload.Obj? {
      var f := payload.fields;
      if "score" in f {
        ReadsExactly(f["score"], o.score);
      }
      ListExactly(f, "issues", o.issues);
      CategoryExactly(Get(f, "problem_category"), o.category);
      HintsExactly(f, o.hints);
      PlanExactly(Get(f, "plan_verification"), o.plan);
      if 0 <= o.score <= 100 {
        BreakdownRead(f, o.score);
        if ReadsBreakdown(Get(f, "score_breakdown"), o.score, o.breakdown) {
          BreakdownPasses(f, o.score, o.breakdown);
        }
      }
    }
  }
}
