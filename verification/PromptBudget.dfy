/** The loop that inlines workspace files into a prompt under two character limits: one for each file, one in all. */
module PromptBudget {
  import opened Options

  /** What reading a file gives. */
  datatype Read = Content(raw: string) | NotUtf8 | Unreadable(note: string)

  datatype Row = Row(path: string, textual: bool, read: Read)

  datatype PromptFile = PromptFile(path: string, content: Option<string>, truncated: bool, originalChars: Option<nat>)

  function Min(a: nat, b: nat): nat {
    if a < b then a else b
  }

  predicate Inlinable(row: Row) {
    row.textual && row.read.Content?
  }

  /** The characters the readable text files ask for, each up to its own limit. */
  function Demand(rows: seq<Row>, maxEach: nat): nat {
    if rows == [] then 0
    else Demand(rows[..|rows| - 1], maxEach) + (if Inlinable(rows[|rows| - 1]) then Min(maxEach, |rows[|rows| - 1].read.raw|) else 0)
  }

  /** What the files before row `i` leave of the budget. */
  function Left(rows: seq<Row>, i: nat, maxEach: nat, maxTotal: nat): nat
    requires i <= |rows|
  {
    maxTotal - Min(maxTotal, Demand(rows[..i], maxEach))
  }

  /** Row `i` without regard to the order of events: it depends on the demand of the rows before it only. */
  function Inlined(rows: seq<Row>, i: nat, maxEach: nat, maxTotal: nat): PromptFile
    requires i < |rows|
  {
    var row, left := rows[i], Left(rows, i, maxEach, maxTotal);
    if !row.textual || left == 0 || row.read.NotUtf8? then PromptFile(row.path, None, false, None)
    else if row.read.Unreadable? then PromptFile(row.path, Some(row.read.note), false, None)
    else
      var allowed := Min(maxEach, left);
      PromptFile(row.path, Some(row.read.raw[..Min(allowed, |row.read.raw|)]), |row.read.raw| > allowed, Some(|row.read.raw|))
  }

  lemma DemandStep(rows: seq<Row>, i: nat, maxEach: nat)
    requires i < |rows|
    ensures Demand(rows[..i + 1], maxEach) ==
            Demand(rows[..i], maxEach) + if Inlinable(rows[i]) then Min(maxEach, |rows[i].read.raw|) else 0
  {
    assert rows[..i + 1][..i] == rows[..i];
  }

  /** `load_workspace_prompt_files`. */
  method LoadWorkspacePromptFiles(rows: seq<Row>, maxEach: nat, maxTotal: nat) returns (files: seq<PromptFile>)
    ensures |files| == |rows|
    ensures forall i :: 0 <= i < |rows| ==> files[i] == Inlined(rows, i, maxEach, maxTotal)
  {
    var remaining := maxTotal;
    files := [];
    for i := 0 to |rows|
      invariant |files| == i && remaining == Left(rows, i, maxEach, maxTotal)
      invariant forall k :: 0 <= k < i ==> files[k] == Inlined(rows, k, maxEach, maxTotal)
    {
      DemandStep(rows, i, maxEach);
      var row := rows[i];
      var content: Option<string>, truncated, originalChars: Option<nat> := None, false, None;
      if row.textual && remaining > 0 {
        match row.read {
          case Content(raw) =>
            var allowed := Min(maxEach, remaining);
            assert raw[..|raw|] == raw;
            originalChars := Some(|raw|);
            content := Some(if |raw| > allowed then raw[..allowed] else raw);
            truncated := |raw| > allowed;
            remaining := remaining - |content.value|;
          case NotUtf8 =>
          case Unreadable(note) => content := Some(note);
        }
      }
      files := files + [PromptFile(row.path, content, truncated, originalChars)];
    }
  }

  /** The characters of files that the first `n` rows put into the prompt; the note for an unreadable file does not
      count. */
  function Total(rows: seq<Row>, n: nat, maxEach: nat, maxTotal: nat): nat
    requires n <= |rows|
  {
    if n == 0 then 0
    else
      Total(rows, n - 1, maxEach, maxTotal)
      + var file := Inlined(rows, n - 1, maxEach, maxTotal);
        if Inlinable(rows[n - 1]) && file.content.Some? then |file.content.value| else 0
  }

  /** The budget is spent exactly as far as the files ask for it: the total is the smaller of the limit and the
      demand. */
  lemma {:induction false} TotalIsMinimum(rows: seq<Row>, n: nat, maxEach: nat, maxTotal: nat)
    requires n <= |rows|
    ensures Total(rows, n, maxEach, maxTotal) == Min(maxTotal, Demand(rows[..n], maxEach))
  {
    if n > 0 {
      TotalIsMinimum(rows, n - 1, maxEach, maxTotal);
      DemandStep(rows, n - 1, maxEach);
    }
  }

  /** Every inlined content is a prefix of its file of at most `maxEach` characters; it is shorter than both the file
      and `maxEach` only if it uses the budget up; and a readable file is left out only if the budget was used up
      before it. */
  lemma CutOnlyWhenExhausted(rows: seq<Row>, i: nat, maxEach: nat, maxTotal: nat)
    requires i < |rows| && Inlinable(rows[i])
    ensures var file, raw := Inlined(rows, i, maxEach, maxTotal), rows[i].read.raw;
            && (file.content.None? <==> Demand(rows[..i], maxEach) >= maxTotal)
            && (file.content.Some? ==>
                  && file.content.value <= raw && |file.content.value| <= maxEach
                  && file.originalChars == Some(|raw|)
                  && (file.truncated <==> |file.content.value| < |raw|)
                  && (|file.content.value| < Min(maxEach, |raw|) ==> Total(rows, i + 1, maxEach, maxTotal) == maxTotal))
  {
    TotalIsMinimum(rows, i + 1, maxEach, maxTotal);
    DemandStep(rows, i, maxEach);
  }

  /** Of a file that cannot be read only a note is put into the prompt, as long as there is budget; of any other file that
      is not readable text, nothing; and neither uses the budget. */
  lemma OthersCostNothing(rows: seq<Row>, i: nat, maxEach: nat, maxTotal: nat)
    requires i < |rows| && !Inlinable(rows[i])
    ensures var file := Inlined(rows, i, maxEach, maxTotal);
            && file.path == rows[i].path && !file.truncated && file.originalChars.None?
            && (file.content.Some? <==> rows[i].textual && rows[i].read.Unreadable? && Demand(rows[..i], maxEach) < maxTotal)
            && (file.content.Some? ==> file.content.value == rows[i].read.note)
            && Total(rows, i + 1, maxEach, maxTotal) == Total(rows, i, maxEach, maxTotal)
  {
    DemandStep(rows, i, maxEach);
  }
}
