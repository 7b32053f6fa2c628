/** The Step5 review parser: shape checks on the review agent's JSON (src/reviewer.py). */
module Reviewer {
  import opened Json
  import opened Options
  import opened PyText

  datatype Category = ReqGap | ImplGap | DesignHollow

  datatype Outcome = Outcome(
    score: int,
    issues: seq<Json>,
    category: Option<Category>,
    breakdown: map<string, Json>,
    hints: seq<Json>,
    plan: seq<map<string, Json>>)

  /** `Bad` stands for BadRequestError, `Raise` for an error that nothing in the parser catches. */
  datatype Checked<+T> = Good(value: T) | Bad | Raise {
    predicate IsFailure() {
      !Good?
    }
    function PropagateFailure<U>(): Checked<U>
      requires !Good?
    {
      if Bad? then Checked<U>.Bad else Checked<U>.Raise
    }
    function Extract(): T
      requires Good?
    {
      value
    }
  }

  const HINT_KINDS := {Str("missing_feature"), Str("optimization")}
  const STATUSES := {Str("done"), Str("partial"), Str("deferred"), Str("blocked"), Str("failed"), Str("unverified")}
  const IMPORTANCES := {Str("P0"), Str("P1"), Str("P2")}

  /** round(a * b / 100), half up. */
  function ExpectedFinalScore(a: int, b: int): int {
    (a * b + 50) / 100
  }

  function DigitsValue(s: string, acc: int): int {
    if s == [] then acc else DigitsValue(s[1..], 10 * acc + DigitOf(s[0]))
  }

  const MAX_INT_DIGITS := 4300

  /** A text that passes for digits and that `int` refuses: too long, with a digit that is not a decimal, or between
      separators that `int` does not skip. */
  predicate Unreadable(value: Json) {
    && value.Str?
    && var t := Strip(value.s);
    && IsDigitText(t)
    && (|| |t| > MAX_INT_DIGITS
        || (exists k :: 0 <= k < |t| && !IsDigit(t[k]))
        || (exists k :: 0 <= k < |value.s| && IsSeparator(value.s[k])))
  }

  function CoerceInt(value: Json): (r: Checked<int>)
    ensures r.Good? ==> 0 <= r.value <= 100
    ensures r.Raise? <==> Unreadable(value)
  {
    if Unreadable(value) then Raise
    else
      var n :=
        match value
        case Int(n) => n
        case Str(s) => if IsDigitText(Strip(s)) then DigitsValue(Strip(s), 0) else -1
        case _ => -1;
      if 0 <= n <= 100 then Good(n) else Bad
  }

  /** The value under `key`, coerced in place unless absent or null. */
  function CoerceKey(fields: map<string, Json>, key: string): Checked<map<string, Json>> {
    if Get(fields, key).Null? then Good(fields)
    else var n :- CoerceInt(fields[key]); Good(fields[key := Int(n)])
  }

  /** The three score keys one after the other. */
  function CoerceScores(fields: map<string, Json>): Checked<map<string, Json>> {
    var out :- CoerceKey(fields, "plan_score_a");
    var out :- CoerceKey(out, "actual_score_b");
    CoerceKey(out, "previous_actual_score_b")
  }

  function CoerceBreakdown(payload: map<string, Json>, score: int): Checked<map<string, Json>> {
    var raw := Get(payload, "score_breakdown");
    if raw.Null? then Good(map[])
    else if !raw.Obj? || "plan_score_a" !in raw.fields || "actual_score_b" !in raw.fields then Bad
    else
      var out :- CoerceScores(raw.fields);
      if !out["plan_score_a"].Int? || !out["actual_score_b"].Int? then Raise
      else if ExpectedFinalScore(out["plan_score_a"].n, out["actual_score_b"].n) != score then Bad
      else if Get(out, "final_score").Null? then Good(out["final_score" := Int(score)])
      else
        var final :- CoerceInt(out["final_score"]);
        if final != score then Bad else Good(out["final_score" := Int(score)])
  }

  function CoerceCategory(raw: Json): Checked<Option<Category>> {
    match raw
    case Null => Good(None)
    case Str(s) =>
      if s == "" then Good(None)
      else if s == "req_gap" then Good(Some(ReqGap))
      else if s == "impl_gap" then Good(Some(ImplGap))
      else if s == "design_hollow" then Good(Some(DesignHollow))
      else Bad
    case _ => Bad
  }

  /** `i if isinstance(i, dict) else {"message": str(i)}`. */
  function AsObject(item: Json): (r: Json)
    ensures r.Obj?
  {
    match item
    case Obj(_) => item
    case Str(_) => Obj(map["message" := item])
    case Shown(_) => Obj(map["message" := item])
    case _ => Obj(map["message" := Shown(item)])
  }

  function AsObjects(items: seq<Json>): (r: seq<Json>)
    ensures |r| == |items|
    ensures forall k :: 0 <= k < |r| ==> r[k] == AsObject(items[k])
  {
    seq(|items|, k requires 0 <= k < |items| => AsObject(items[k]))
  }

  /** A list of objects under `key`; null counts as empty. */
  function CoerceList(payload: map<string, Json>, key: string): Checked<seq<Json>> {
    match Get(payload, key)
    case Null => Good([])
    case Arr(items) => Good(AsObjects(items))
    case _ => Bad
  }

  predicate IsBlank(value: Json) {
    value == Null || value == Str("")
  }

  predicate ValidHint(hint: Json)
    requires hint.Obj?
  {
    IsBlank(Get(hint.fields, "kind")) || Get(hint.fields, "kind") in HINT_KINDS
  }

  predicate BoolIfPresent(item: map<string, Json>, key: string) {
    key in item ==> item[key].Bool?
  }

  predicate ValidCheck(item: map<string, Json>) {
    && Get(item, "id").Str? && Strip(Get(item, "id").s) != ""
    && Get(item, "status") in STATUSES
    && Get(item, "verified").Bool?
    && BoolIfPresent(item, "implemented")
    && (IsBlank(Get(item, "importance")) || Get(item, "importance") in IMPORTANCES)
    && BoolIfPresent(item, "required_for_exit")
  }

  function CoercePlan(raw: Json): Checked<seq<map<string, Json>>> {
    match raw
    case Null => Good([])
    case Arr(items) =>
      if forall k :: 0 <= k < |items| ==> items[k].Obj? && ValidCheck(items[k].fields) then
        Good(seq(|items|, k requires 0 <= k < |items| && items[k].Obj? => items[k].fields))
      else Bad
    case _ => Bad
  }

  function CoerceHints(payload: map<string, Json>): Checked<seq<Json>> {
    var hints :- CoerceList(payload, "next_round_hints");
    if forall k :: 0 <= k < |hints| ==> hints[k].Obj? && ValidHint(hints[k]) then Good(hints) else Bad
  }

  function CoerceFields(payload: map<string, Json>): Checked<Outcome> {
    if "score" !in payload then Bad
    else
      var score :- CoerceInt(payload["score"]);
      var issues :- CoerceList(payload, "issues");
      var breakdown :- CoerceBreakdown(payload, score);
      var category :- CoerceCategory(Get(payload, "problem_category"));
      var hints :- CoerceHints(payload);
      var plan :- CoercePlan(Get(payload, "plan_verification"));
      Good(Outcome(score, issues, category, breakdown, hints, plan))
  }

  /** `_coerce`, for any value `json.loads` may return: a list or a text without the word passes for an object
      without a score; any other value that is not an object makes `in` or the subscript fail. */
  function Coerce(payload: Json): Checked<Outcome> {
    match payload
    case Obj(fields) => CoerceFields(fields)
    case Arr(items) => if Str("score") in items then Raise else Bad
    case Str(s) => if Contains(s, "score") then Raise else Bad
    case _ => Raise
  }

  // ---- when the parser raises an error that its caller does not handle ----

  /** The value under `key` is absent, null or a number from 0 to 100. */
  predicate Passes(fields: map<string, Json>, key: string) {
    Get(fields, key).Null? || CoerceInt(fields[key]).Good?
  }

  /** The score keys are read in order; the first that does not pass decides. */
  predicate KeyEscapes(fields: map<string, Json>) {
    || Unreadable(Get(fields, "plan_score_a"))
    || (Passes(fields, "plan_score_a") && Unreadable(Get(fields, "actual_score_b")))
    || (Passes(fields, "plan_score_a") && Passes(fields, "actual_score_b") && Unreadable(Get(fields, "previous_actual_score_b")))
  }

  predicate AllPass(fields: map<string, Json>) {
    Passes(fields, "plan_score_a") && Passes(fields, "actual_score_b") && Passes(fields, "previous_actual_score_b")
  }

  predicate ScoreIsNull(fields: map<string, Json>) {
    Get(fields, "plan_score_a").Null? || Get(fields, "actual_score_b").Null?
  }

  /** A breakdown with both required keys whose keys cannot be read, which holds a null where a number is needed, or
      which agrees with the score and has a final score that cannot be read. */
  predicate BreakdownEscapes(raw: Json, score: int) {
    && raw.Obj? && "plan_score_a" in raw.fields && "actual_score_b" in raw.fields
    && var f := raw.fields;
    && (|| KeyEscapes(f)
        || (AllPass(f) && ScoreIsNull(f))
        || (AllPass(f) && !ScoreIsNull(f) && Unreadable(Get(f, "final_score"))
            && ExpectedFinalScore(CoerceInt(f["plan_score_a"]).value, CoerceInt(f["actual_score_b"]).value) == score))
  }

  predicate Escapes(payload: Json) {
    match payload
    case Obj(f) =>
      && "score" in f
      && (|| Unreadable(f["score"])
          || (&& CoerceInt(f["score"]).Good?
              && (Get(f, "issues").Null? || Get(f, "issues").Arr?)
              && BreakdownEscapes(Get(f, "score_breakdown"), CoerceInt(f["score"]).value)))
    case Arr(items) => Str("score") in items
    case Str(s) => Contains(s, "score")
    case _ => true
  }

  lemma KeyRaises(fields: map<string, Json>, key: string)
    ensures CoerceKey(fields, key).Raise? <==> Unreadable(Get(fields, key))
    ensures CoerceKey(fields, key).Good? <==> Passes(fields, key)
  {
  }

  /** Coercing one key leaves the others as they were given. */
  lemma CoerceKeyResult(fields: map<string, Json>, key: string)
    requires CoerceKey(fields, key).Good?
    ensures var out := CoerceKey(fields, key).value;
            && (forall k :: k != key ==> (k in out <==> k in fields) && Get(out, k) == Get(fields, k))
            && (Get(out, key).Null? || (out[key].Int? && 0 <= out[key].n <= 100))
  {
  }

  lemma ScoresRaise(fields: map<string, Json>)
    ensures CoerceScores(fields).Raise? <==> KeyEscapes(fields)
    ensures CoerceScores(fields).Good? <==> AllPass(fields)
  {
    KeyRaises(fields, "plan_score_a");
    if Passes(fields, "plan_score_a") {
      var out := CoerceKey(fields, "plan_score_a").value;
      CoerceKeyResult(fields, "plan_score_a");
      KeyRaises(out, "actual_score_b");
      if Passes(fields, "actual_score_b") {
        CoerceKeyResult(out, "actual_score_b");
        KeyRaises(CoerceKey(out, "actual_score_b").value, "previous_actual_score_b");
      }
    }
  }

  lemma ScoresResult(fields: map<string, Json>)
    requires CoerceScores(fields).Good? && "plan_score_a" in fields && "actual_score_b" in fields
    ensures var out := CoerceScores(fields).value;
            && "plan_score_a" in out && "actual_score_b" in out
            && Get(out, "final_score") == Get(fields, "final_score")
            && (forall key :: key == "plan_score_a" || key == "actual_score_b" ==>
                  out[key] == if Get(fields, key).Null? then Null else Int(CoerceInt(fields[key]).value))
  {
    var out := CoerceKey(fields, "plan_score_a").value;
    var out' := CoerceKey(out, "actual_score_b").value;
    CoerceKeyResult(fields, "plan_score_a");
    CoerceKeyResult(out, "actual_score_b");
    CoerceKeyResult(out', "previous_actual_score_b");
  }

  lemma BreakdownRaises(payload: map<string, Json>, score: int)
    ensures CoerceBreakdown(payload, score).Raise? <==> BreakdownEscapes(Get(payload, "score_breakdown"), score)
  {
    var raw := Get(payload, "score_breakdown");
    if raw.Obj? && "plan_score_a" in raw.fields && "actual_score_b" in raw.fields {
      ScoresRaise(raw.fields);
      if AllPass(raw.fields) {
        ScoresResult(raw.fields);
      }
    }
  }

  /** The parser raises an error other than the one its caller handles exactly for these values. */
  lemma RaisesExactly(payload: Json)
    ensures Coerce(payload).Raise? <==> Escapes(payload)
  {
    if payload.Obj? && "score" in payload.fields && CoerceInt(payload.fields["score"]).Good? {
      BreakdownRaises(payload.fields, CoerceInt(payload.fields["score"]).value);
    }
  }

  /** A review whose plan score is null. */
  const NULL_SCORE := Obj(map["score" := Int(90), "score_breakdown" := Obj(map["plan_score_a" := Null, "actual_score_b" := Int(90)])])

  lemma NullScoreEscapes()
    ensures Escapes(NULL_SCORE) && Coerce(NULL_SCORE).Raise?
  {
    var f := NULL_SCORE.fields;
    assert Get(f, "score_breakdown").fields["plan_score_a"] == Null;
    RaisesExactly(NULL_SCORE);
  }

  // ---- what an accepted outcome says ----

  /** `s` is `ab / 100` rounded half up. */
  ghost predicate RoundsHalfUp(s: int, ab: int) {
    100 * s - 50 <= ab < 100 * s + 50
  }

  ghost predicate BreakdownHolds(o: Outcome) {
    && "plan_score_a" in o.breakdown && "actual_score_b" in o.breakdown
    && var a, b := o.breakdown["plan_score_a"], o.breakdown["actual_score_b"];
    && a.Int? && b.Int? && 0 <= a.n <= 100 && 0 <= b.n <= 100
    && RoundsHalfUp(o.score, a.n * b.n)
    && o.score <= a.n && o.score <= b.n
    && Get(o.breakdown, "final_score") == Int(o.score)
  }

  ghost predicate WellFormed(o: Outcome) {
    && 0 <= o.score <= 100
    && (o.breakdown != map[] ==> BreakdownHolds(o))
    && (forall k :: 0 <= k < |o.plan| ==> ValidCheck(o.plan[k]))
  }

  lemma ProductBounds(a: int, b: int)
    requires 0 <= a <= 100 && 0 <= b <= 100
    ensures a * b <= 100 * a && a * b <= 100 * b && 0 <= a * b
  {
    assert a * b == 100 * a - a * (100 - b);
    assert a * b == 100 * b - b * (100 - a);
  }

  lemma BreakdownSound(payload: map<string, Json>, score: int)
    requires 0 <= score <= 100 && CoerceBreakdown(payload, score).Good?
    ensures var d := CoerceBreakdown(payload, score).value;
            d != map[] ==>
              && "plan_score_a" in d && "actual_score_b" in d
              && var a, b := d["plan_score_a"], d["actual_score_b"];
              && a.Int? && b.Int? && 0 <= a.n <= 100 && 0 <= b.n <= 100
              && score == ExpectedFinalScore(a.n, b.n) && Get(d, "final_score") == Int(score)
  {
  }

  /** Every outcome the parser accepts: the score lies in [0, 100]; with a breakdown it is the half-up rounding of
      `a * b / 100` and therefore at most `a` and at most `b`; every plan record is well shaped. */
  lemma AcceptedIsWellFormed(payload: Json)
    requires Coerce(payload).Good?
    ensures WellFormed(Coerce(payload).value)
  {
    var o := Coerce(payload).value;
    BreakdownSound(payload.fields, o.score);
    if o.breakdown != map[] {
      ProductBounds(o.breakdown["plan_score_a"].n, o.breakdown["actual_score_b"].n);
    }
  }

  /** Rounding half up has one result. */
  lemma RoundsHalfUpUnique(s: int, a: int, b: int)
    ensures RoundsHalfUp(s, a * b) <==> s == ExpectedFinalScore(a, b)
  {
  }

  // ---- the artifact written for an outcome taken from stdout ----

  function CategoryJson(category: Option<Category>): Json {
    match category
    case None => Null
    case Some(ReqGap) => Str("req_gap")
    case Some(ImplGap) => Str("impl_gap")
    case Some(DesignHollow) => Str("design_hollow")
  }

  function PlanJson(plan: seq<map<string, Json>>): (r: seq<Json>)
    ensures |r| == |plan| && forall k :: 0 <= k < |r| ==> r[k] == Obj(plan[k])
  {
    seq(|plan|, k requires 0 <= k < |plan| => Obj(plan[k]))
  }

  /** `_review_outcome_to_payload`. */
  function ToPayload(o: Outcome): Json {
    Obj(map[
      "score" := Int(o.score),
      "score_breakdown" := Obj(o.breakdown),
      "issues" := Arr(o.issues),
      "plan_verification" := Arr(PlanJson(o.plan)),
      "next_round_hints" := Arr(o.hints),
      "problem_category" := CategoryJson(o.category)])
  }

  lemma CoerceKeyFixed(fields: map<string, Json>, key: string)
    requires Get(fields, key).Null? || (fields[key].Int? && 0 <= fields[key].n <= 100)
    ensures CoerceKey(fields, key) == Good(fields)
  {
    if !Get(fields, key).Null? {
      assert fields[key := fields[key]] == fields;
    }
  }

  /** The coerced breakdown: its three score keys hold numbers from 0 to 100 (the third may be missing or null). */
  lemma BreakdownKeys(payload: map<string, Json>, score: int)
    requires CoerceBreakdown(payload, score).Good?
    ensures var d := CoerceBreakdown(payload, score).value;
            d != map[] ==>
              forall key :: key in ["plan_score_a", "actual_score_b", "previous_actual_score_b"] ==>
                Get(d, key).Null? || (d[key].Int? && 0 <= d[key].n <= 100)
  {
    var d := CoerceBreakdown(payload, score).value;
    if d != map[] {
      var raw := Get(payload, "score_breakdown").fields;
      CoerceKeyResult(raw, "plan_score_a");
      var out := CoerceKey(raw, "plan_score_a").value;
      CoerceKeyResult(out, "actual_score_b");
      var out' := CoerceKey(out, "actual_score_b").value;
      CoerceKeyResult(out', "previous_actual_score_b");
    }
  }

  lemma BreakdownIdempotent(payload: map<string, Json>, score: int, again: map<string, Json>)
    requires 0 <= score <= 100 && CoerceBreakdown(payload, score).Good?
    requires Get(again, "score_breakdown") == Obj(CoerceBreakdown(payload, score).value)
    ensures CoerceBreakdown(again, score) ==
            if CoerceBreakdown(payload, score).value == map[] then Bad else CoerceBreakdown(payload, score)
  {
    var d := CoerceBreakdown(payload, score).value;
    if d != map[] {
      BreakdownKeys(payload, score);
      BreakdownSound(payload, score);
      assert "plan_score_a" in ["plan_score_a", "actual_score_b", "previous_actual_score_b"];
      CoerceKeyFixed(d, "plan_score_a");
      CoerceKeyFixed(d, "actual_score_b");
      CoerceKeyFixed(d, "previous_actual_score_b");
      assert d["final_score" := Int(score)] == d;
    }
  }

  lemma PayloadFields(o: Outcome)
    ensures var f := ToPayload(o).fields;
            && "score" in f && f["score"] == Int(o.score)
            && Get(f, "score_breakdown") == Obj(o.breakdown)
            && Get(f, "issues") == Arr(o.issues)
            && Get(f, "plan_verification") == Arr(PlanJson(o.plan))
            && Get(f, "next_round_hints") == Arr(o.hints)
            && Get(f, "problem_category") == CategoryJson(o.category)
  {
  }

  /** Reading back the artifact written for an accepted outcome gives that outcome exactly if it carries a
      breakdown: an outcome without one is written with an empty object, which the parser refuses. */
  lemma PersistedOutcomeReadsBack(payload: Json)
    requires Coerce(payload).Good?
    ensures var o := Coerce(payload).value;
            && (Coerce(ToPayload(o)) == Good(o) <==> o.breakdown != map[])
            && (o.breakdown == map[] ==> Coerce(ToPayload(o)) == Bad)
  {
    var o := Coerce(payload).value;
    var again := ToPayload(o).fields;
    PayloadFields(o);
    ListIdempotent(payload.fields, "issues", again);
    BreakdownIdempotent(payload.fields, o.score, again);
    HintsIdempotent(payload.fields, again);
    PlanIdempotent(Get(payload.fields, "plan_verification"));
    CategoryReadsBack(o.category);
  }

  lemma CategoryReadsBack(category: Option<Category>)
    ensures CoerceCategory(CategoryJson(category)) == Good(category)
  {
  }

  lemma HintsIdempotent(payload: map<string, Json>, again: map<string, Json>)
    requires CoerceHints(payload).Good? && Get(again, "next_round_hints") == Arr(CoerceHints(payload).value)
    ensures CoerceHints(again) == CoerceHints(payload)
  {
    ListIdempotent(payload, "next_round_hints", again);
  }

  lemma ListIdempotent(payload: map<string, Json>, key: string, again: map<string, Json>)
    requires CoerceList(payload, key).Good? && Get(again, key) == Arr(CoerceList(payload, key).value)
    ensures CoerceList(again, key) == CoerceList(payload, key)
  {
    assert AsObjects(CoerceList(payload, key).value) == CoerceList(payload, key).value;
  }

  lemma PlanIdempotent(raw: Json)
    requires CoercePlan(raw).Good?
    ensures var plan := CoercePlan(raw).value;
            CoercePlan(Arr(PlanJson(plan))) == Good(plan)
  {
    var plan := CoercePlan(raw).value;
    var items := PlanJson(plan);
    assert seq(|items|, k requires 0 <= k < |items| && items[k].Obj? => items[k].fields) == plan;
  }

  // ---- the loops as they run ----

  const SCORE_KEYS := ["plan_score_a", "actual_score_b", "previous_actual_score_b"]

  function CoerceKeys(fields: map<string, Json>, keys: seq<string>): Checked<map<string, Json>> {
    if keys == [] then Good(fields)
    else var out :- CoerceKey(fields, keys[0]); CoerceKeys(out, keys[1..])
  }

  lemma ThreeKeys(fields: map<string, Json>)
    ensures CoerceKeys(fields, SCORE_KEYS) ==
            var out :- CoerceKey(fields, "plan_score_a");
            var out :- CoerceKey(out, "actual_score_b");
            CoerceKey(out, "previous_actual_score_b")
  {
    assert SCORE_KEYS[1..] == ["actual_score_b", "previous_actual_score_b"];
    assert SCORE_KEYS[1..][1..] == ["previous_actual_score_b"];
    assert SCORE_KEYS[1..][1..][1..] == [];
    var out1 := CoerceKey(fields, "plan_score_a");
    if out1.Good? {
      assert CoerceKeys(out1.value, SCORE_KEYS[1..]) ==
             var out :- CoerceKey(out1.value, "actual_score_b"); CoerceKeys(out, SCORE_KEYS[1..][1..]);
      var out2 := CoerceKey(out1.value, "actual_score_b");
      if out2.Good? {
        assert CoerceKeys(out2.value, SCORE_KEYS[1..][1..]) == CoerceKey(out2.value, "previous_actual_score_b");
      }
    }
  }

  method CoerceScoreBreakdown(payload: map<string, Json>, score: int) returns (r: Checked<map<string, Json>>)
    ensures r == CoerceBreakdown(payload, score)
  {
    var raw := Get(payload, "score_breakdown");
    if raw.Null? {
      return Good(map[]);
    }
    if !raw.Obj? || "plan_score_a" !in raw.fields || "actual_score_b" !in raw.fields {
      return Bad;
    }
    var out := raw.fields;
    ThreeKeys(raw.fields);
    assert SCORE_KEYS[0..] == SCORE_KEYS;
    for i := 0 to |SCORE_KEYS|
      invariant CoerceKeys(out, SCORE_KEYS[i..]) == CoerceKeys(raw.fields, SCORE_KEYS)
      invariant "plan_score_a" in out && "actual_score_b" in out
    {
      var key := SCORE_KEYS[i];
      assert SCORE_KEYS[i..][0] == key && SCORE_KEYS[i..][1..] == SCORE_KEYS[i + 1..];
      if key in out && out[key] != Null {
        var n := CoerceInt(out[key]);
        if n.Raise? {
          return Raise;
        }
        if n.Bad? {
          return Bad;
        }
        out := out[key := Int(n.value)];
      }
    }
    assert SCORE_KEYS[|SCORE_KEYS|..] == [];
    if !out["plan_score_a"].Int? || !out["actual_score_b"].Int? {
      return Raise;
    }
    if ExpectedFinalScore(out["plan_score_a"].n, out["actual_score_b"].n) != score {
      return Bad;
    }
    if "final_score" in out && out["final_score"] != Null {
      var final := CoerceInt(out["final_score"]);
      if final.Raise? {
        return Raise;
      }
      if final.Bad? || final.value != score {
        return Bad;
      }
    }
    r := Good(out["final_score" := Int(score)]);
  }

  method CoercePlanVerification(raw: Json) returns (r: Checked<seq<map<string, Json>>>)
    ensures r == CoercePlan(raw)
  {
    if raw.Null? {
      return Good([]);
    }
    if !raw.Arr? {
      return Bad;
    }
    var plan: seq<map<string, Json>> := [];
    for i := 0 to |raw.items|
      invariant |plan| == i
      invariant forall k :: 0 <= k < i ==> raw.items[k].Obj? && ValidCheck(raw.items[k].fields) && plan[k] == raw.items[k].fields
    {
      var item := raw.items[i];
      if !item.Obj? || !ValidCheck(item.fields) {
        return Bad;
      }
      plan := plan + [item.fields];
    }
    assert plan == CoercePlan(raw).value;
    r := Good(plan);
  }
}
