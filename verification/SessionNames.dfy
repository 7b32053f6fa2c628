/** Names of the agent sessions of a DevWork, and the substring test that picks out those of one round. */
module SessionNames {
  import opened PyText

  datatype Role = Plan | Build | Review

  function RoleName(role: Role): (s: string)
    ensures '-' !in s && s != [] && !IsAsciiDigit(s[0])
  {
    match role
    case Plan => "plan"
    case Build => "build"
    case Review => "review"
  }

  /** `str(n)`. */
  function Decimal(n: nat): (s: string)
    ensures s != [] && forall k :: 0 <= k < |s| ==> IsAsciiDigit(s[k])
  {
    if n < 10 then [('0' as int + n) as char] else Decimal(n / 10) + [('0' as int + n % 10) as char]
  }

  /** `f"dw-{dev_id}-r{round_n}-{role}"`. */
  function DwSessionName(devId: string, round: nat, role: Role): string {
    "dw-" + devId + "-r" + Decimal(round) + "-" + RoleName(role)
  }

  /** `f"-r{round_n}-"`. */
  function RoundMarker(round: nat): string {
    "-r" + Decimal(round) + "-"
  }

  /** Ids as `_new_id` makes them: `dev-` and lower-case hexadecimal digits. */
  predicate IsDevId(devId: string) {
    |devId| > 4 && devId[..4] == "dev-" && forall k :: 4 <= k < |devId| ==> IsHex(devId[k])
  }

  predicate IsHex(c: char) {
    IsAsciiDigit(c) || 'a' <= c <= 'f'
  }

  lemma {:induction false} DecimalInjective(m: nat, n: nat)
    ensures Decimal(m) == Decimal(n) <==> m == n
  {
    var a, b := Decimal(m), Decimal(n);
    if m >= 10 && n >= 10 {
      DecimalInjective(m / 10, n / 10);
      assert a[..|a| - 1] == Decimal(m / 10) && b[..|b| - 1] == Decimal(n / 10);
    }
    assert m % 10 != n % 10 ==> a[|a| - 1] != b[|b| - 1];
  }

  /** A text without hyphens in front of a hyphen is determined by the whole. */
  lemma SplitAtHyphen(a: string, x: string, b: string, y: string)
    requires '-' !in a && '-' !in b
    requires a + "-" + x == b + "-" + y
    ensures a == b && x == y
  {
    var s := a + "-" + x;
    assert s[|a|] == '-' && s[|b|] == '-';
    assert forall k :: 0 <= k < |a| ==> s[k] == a[k];
    assert forall k :: 0 <= k < |b| ==> s[k] == b[k];
    assert s[..|a|] == a && s[..|b|] == b;
    assert s[|a| + 1..] == x && s[|b| + 1..] == y;
  }

  lemma DecimalHasNoHyphen(n: nat)
    ensures '-' !in Decimal(n)
  {
  }

  /** The name after its prefix `dw-dev-`, as three hyphen-separated fields. */
  lemma NameFields(devId: string, round: nat, role: Role)
    requires IsDevId(devId)
    ensures DwSessionName(devId, round, role) ==
            "dw-dev-" + (devId[4..] + "-" + (("r" + Decimal(round)) + "-" + RoleName(role)))
    ensures '-' !in devId[4..] && '-' !in "r" + Decimal(round)
  {
    DecimalHasNoHyphen(round);
    assert devId == "dev-" + devId[4..];
  }

  /** The naming is injective in id, round and role. */
  lemma NamesInjective(id1: string, n1: nat, role1: Role, id2: string, n2: nat, role2: Role)
    requires IsDevId(id1) && IsDevId(id2)
    requires DwSessionName(id1, n1, role1) == DwSessionName(id2, n2, role2)
    ensures id1 == id2 && n1 == n2 && role1 == role2
  {
    NameFields(id1, n1, role1);
    NameFields(id2, n2, role2);
    var tail1 := ("r" + Decimal(n1)) + "-" + RoleName(role1);
    var tail2 := ("r" + Decimal(n2)) + "-" + RoleName(role2);
    assert ("dw-dev-" + (id1[4..] + "-" + tail1))[7..] == id1[4..] + "-" + tail1;
    assert ("dw-dev-" + (id2[4..] + "-" + tail2))[7..] == id2[4..] + "-" + tail2;
    SplitAtHyphen(id1[4..], tail1, id2[4..], tail2);
    SplitAtHyphen("r" + Decimal(n1), RoleName(role1), "r" + Decimal(n2), RoleName(role2));
    assert ("r" + Decimal(n1))[1..] == Decimal(n1) && ("r" + Decimal(n2))[1..] == Decimal(n2);
    DecimalInjective(n1, n2);
    assert id1 == id1[..4] + id1[4..] && id2 == id2[..4] + id2[4..];
    assert RoleName(role1)[0] == RoleName(role2)[0];
  }

  /** The marker of a round occurs in a session name exactly if the name belongs to that round; in particular
      round 1 is not taken for round 11, nor the `-r` of `-review` for a round. */
  lemma MarkerSelectsRound(devId: string, m: nat, role: Role, n: nat)
    requires IsDevId(devId)
    ensures Contains(DwSessionName(devId, m, role), RoundMarker(n)) <==> m == n
  {
    var name, p := DwSessionName(devId, m, role), 3 + |devId|;
    if m == n {
      assert name == ("dw-" + devId) + RoundMarker(m) + RoleName(role);
      assert IsAt(name, RoundMarker(n), p);
    }
    if Contains(name, RoundMarker(n)) {
      var k :| 0 <= k <= |name| && IsAt(name, RoundMarker(n), k);
      MarkerPosition(devId, m, role, n, k);
      MarkerRound(devId, m, role, n);
    }
  }

  /** A marker in the right place names the round. */
  lemma MarkerRound(devId: string, m: nat, role: Role, n: nat)
    requires IsAt(DwSessionName(devId, m, role), RoundMarker(n), 3 + |devId|)
    ensures m == n
  {
    DecimalHasNoHyphen(m);
    DecimalHasNoHyphen(n);
    NameInTwo(devId, m, role);
    SameField("dw-" + devId, Decimal(m), RoleName(role), Decimal(n));
    DecimalInjective(m, n);
  }

  lemma NameInTwo(devId: string, m: nat, role: Role)
    ensures DwSessionName(devId, m, role) == ("dw-" + devId) + ("-r" + Decimal(m) + "-" + RoleName(role))
  {
  }

  lemma SameField(pre: string, x: string, tail: string, y: string)
    requires '-' !in x && '-' !in y
    requires IsAt(pre + ("-r" + x + "-" + tail), "-r" + y + "-", |pre|)
    ensures x == y
  {
    var s := pre + ("-r" + x + "-" + tail);
    var rest := s[|pre| + 3 + |y|..];
    assert s[|pre| + 2..] == x + "-" + tail;
    MarkerAhead(s, |pre|, y);
    SplitAtHyphen(x, tail, y, rest);
  }

  /** What follows the two first characters of a marker. */
  lemma MarkerAhead(s: string, k: nat, y: string)
    requires IsAt(s, "-r" + y + "-", k)
    ensures s[k + 2..] == y + "-" + s[k + 3 + |y|..]
  {
    var at := s[k..k + 3 + |y|];
    assert at == "-r" + y + "-";
    assert s[k + 2..] == at[2..] + s[k + 3 + |y|..];
    assert at[2..] == y + "-";
  }

  /** The four hyphens of a session name, and what follows all but the third. */
  lemma NameChars(devId: string, m: nat, role: Role)
    requires IsDevId(devId)
    ensures var name, p := DwSessionName(devId, m, role), 3 + |devId|;
            var q := p + 2 + |Decimal(m)|;
            && |name| == q + 1 + |RoleName(role)|
            && (forall j :: 0 <= j < |name| && name[j] == '-' ==> j == 2 || j == 6 || j == p || j == q)
            && name[3] == 'd' && IsHex(name[7]) && name[q + 1..] == RoleName(role)
  {
    var dec := Decimal(m);
    DecimalHasNoHyphen(m);
    FieldsInPlace("dw-", devId, "-r", dec, "-", RoleName(role));
  }

  lemma FieldsInPlace(a: string, b: string, c: string, d: string, e: string, f: string)
    ensures var s := a + b + c + d + e + f;
            && |s| == |a| + |b| + |c| + |d| + |e| + |f|
            && (forall j :: 0 <= j < |a| ==> s[j] == a[j])
            && (forall j :: |a| <= j < |a| + |b| ==> s[j] == b[j - |a|])
            && (forall j :: |a| + |b| <= j < |a| + |b| + |c| ==> s[j] == c[j - |a| - |b|])
            && (forall j :: |a| + |b| + |c| <= j < |a| + |b| + |c| + |d| ==> s[j] == d[j - |a| - |b| - |c|])
            && s[|a| + |b| + |c| + |d| + |e|..] == f
  {
  }

  /** `-r` and a digit occur in a session name in one place. */
  lemma MarkerPosition(devId: string, m: nat, role: Role, n: nat, k: nat)
    requires IsDevId(devId) && IsAt(DwSessionName(devId, m, role), RoundMarker(n), k)
    ensures k == 3 + |devId|
  {
    var name := DwSessionName(devId, m, role);
    var at := name[k..k + |RoundMarker(n)|];
    assert name[k] == at[0] == '-' && name[k + 1] == at[1] == 'r' && name[k + 2] == at[2] && IsAsciiDigit(at[2]);
    NameChars(devId, m, role);
    var q := 5 + |devId| + |Decimal(m)|;
    assert name[q + 2] == name[q + 1..][1] == RoleName(role)[1];
  }
}
