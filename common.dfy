/** Values and string operations shared by the clip generator, the web layer
    and the clip library: Python's None-or-value, the values json.loads
    produces, and the str methods the source calls (startswith, endswith,
    in, strip, split, rsplit, lower, upper, isdigit, str(int)). */
module Common {

  datatype Option<+T> = None | Some(value: T)

  /** A value as Python's json.loads returns it: None, bool, a number
      (int and float alike), str, list or dict. */
  datatype Json =
    | JNull
    | JBool(b: bool)
    | JNum(n: real)
    | JStr(s: string)
    | JArr(items: seq<Json>)
    | JObj(fields: map<string, Json>)

  /** Python truthiness of a JSON value: null, false, 0, "", [] and {} are false. */
  predicate Truthy(v: Json) {
    match v
    case JNull => false
    case JBool(b) => b
    case JNum(n) => n != 0.0
    case JStr(s) => s != []
    case JArr(a) => a != []
    case JObj(m) => m != map[]
  }

  function Min(a: int, b: int): int { if a <= b then a else b }
  function RMin(a: real, b: real): real { if a <= b then a else b }
  function RMax(a: real, b: real): real { if a >= b then a else b }

  predicate StartsWith(s: string, prefix: string) {
    |prefix| <= |s| && s[..|prefix|] == prefix
  }

  predicate EndsWith(s: string, suffix: string) {
    |suffix| <= |s| && s[|s| - |suffix|..] == suffix
  }

  /** needle occurs in s starting at position i. */
  predicate OccursAt(s: string, needle: string, i: int) {
    0 <= i && i + |needle| <= |s| && s[i..i + |needle|] == needle
  }

  /** Python's `needle in s` for two strings. */
  predicate Contains(s: string, needle: string) {
    exists i :: 0 <= i <= |s| && OccursAt(s, needle, i)
  }

  /** The characters str.strip() removes that lie in Latin-1. */
  predicate IsSpace(c: char) {
    c == ' ' || c == '\t' || c == '\n' || c == '\r' || c == '\U{000B}' || c == '\U{000C}'
    || ('\U{001C}' <= c <= '\U{001F}') || c == '\U{0085}' || c == '\U{00A0}'
  }

  function StripLeft(s: string): (r: string)
    ensures |r| <= |s| && r == s[|s| - |r|..]
    ensures r == [] || !IsSpace(r[0])
    ensures forall i :: 0 <= i < |s| - |r| ==> IsSpace(s[i])
  {
    if |s| > 0 && IsSpace(s[0]) then StripLeft(s[1..]) else s
  }

  function StripRight(s: string): (r: string)
    ensures |r| <= |s| && r == s[..|r|]
    ensures r == [] || !IsSpace(r[|r| - 1])
    ensures forall i :: |r| <= i < |s| ==> IsSpace(s[i])
  {
    if |s| > 0 && IsSpace(s[|s| - 1]) then StripRight(s[..|s| - 1]) else s
  }

  /** str.strip(): the text between the leading and the trailing whitespace. */
  function Strip(s: string): (r: string)
    ensures Contains(s, r)
    ensures r == [] || (!IsSpace(r[0]) && !IsSpace(r[|r| - 1]))
  {
    var l := StripLeft(s);
    var r := StripRight(l);
    StripOccurs(s, l, r);
    r
  }

  /** The stripped text occurs in s where the leading whitespace ends. */
  lemma StripOccurs(s: string, l: string, r: string)
    requires |l| <= |s| && l == s[|s| - |l|..]
    requires |r| <= |l| && r == l[..|r|]
    ensures Contains(s, r)
  {
    var i := |s| - |l|;
    PrefixOfSuffix(s, l, r);
    assert 0 <= i <= |s| && OccursAt(s, r, i);
  }

  /** Text with no whitespace at either end is its own strip. */
  lemma StripUnchanged(s: string)
    requires s != [] && !IsSpace(s[0]) && !IsSpace(s[|s| - 1])
    ensures Strip(s) == s
  {
    assert StripLeft(s) == s;
    assert StripRight(s) == s;
  }

  /** A prefix of a suffix of s occurs in s where the suffix starts. */
  lemma PrefixOfSuffix(s: string, l: string, r: string)
    requires |l| <= |s| && l == s[|s| - |l|..]
    requires |r| <= |l| && r == l[..|r|]
    ensures OccursAt(s, r, |s| - |l|)
  {
    var i := |s| - |l|;
    assert forall k :: 0 <= k < |r| ==> s[i..i + |r|][k] == l[k];
  }

  predicate IsDigit(c: char) { '0' <= c <= '9' }

  /** str.isdigit(): non-empty and every character a digit. */
  predicate IsDigits(s: string) {
    |s| > 0 && forall i :: 0 <= i < |s| ==> IsDigit(s[i])
  }

  function LowerChar(c: char): char {
    if 'A' <= c <= 'Z' then (c as int + 32) as char else c
  }

  function UpperChar(c: char): char {
    if 'a' <= c <= 'z' then (c as int - 32) as char else c
  }

  function Lower(s: string): string {
    seq(|s|, i requires 0 <= i < |s| => LowerChar(s[i]))
  }

  function Upper(s: string): string {
    seq(|s|, i requires 0 <= i < |s| => UpperChar(s[i]))
  }

  /** str(n) for a natural number. */
  function NatToString(n: nat): (r: string)
    ensures |r| > 0 && IsDigits(r)
  {
    var d := ['0', '1', '2', '3', '4', '5', '6', '7', '8', '9'][n % 10];
    if n < 10 then [d] else NatToString(n / 10) + [d]
  }

  /** s.split(sep) for a one-character separator. */
  function Split(s: string, sep: char): (parts: seq<string>)
    ensures |parts| >= 1
    ensures forall i :: 0 <= i < |parts| ==> sep !in parts[i]
    ensures |s| > 0 && s[0] == sep ==> |parts| >= 2 && parts[0] == []
  {
    if |s| == 0 then [[]]
    else
      var rest := Split(s[1..], sep);
      if s[0] == sep then [[]] + rest
      else [[s[0]] + rest[0]] + rest[1..]
  }

  /** sep.join(parts). */
  function Join(parts: seq<string>, sep: string): string {
    if |parts| == 0 then []
    else if |parts| == 1 then parts[0]
    else parts[0] + sep + Join(parts[1..], sep)
  }

  /** Splitting at a character and joining back with it gives the text back. */
  lemma {:induction false} JoinSplit(s: string, sep: char)
    ensures Join(Split(s, sep), [sep]) == s
  {
    if |s| > 0 {
      var rest := Split(s[1..], sep);
      JoinSplit(s[1..], sep);
      if s[0] == sep {
        assert Split(s, sep) == [[]] + rest;
        assert ([[]] + rest)[1..] == rest;
        assert s == [sep] + s[1..];
      } else {
        var parts := Split(s, sep);
        assert parts == [[s[0]] + rest[0]] + rest[1..];
        if |rest| == 1 {
          assert s[1..] == rest[0];
        } else {
          assert parts[1..] == rest[1..];
          assert Join(rest, [sep]) == rest[0] + [sep] + Join(rest[1..], [sep]);
        }
      }
    }
  }

  /** The position of the last occurrence of c in s, if any. */
  function LastIndex(s: string, c: char): (r: Option<nat>)
    ensures r.None? <==> c !in s
    ensures r.Some? ==> r.value < |s| && s[r.value] == c && c !in s[r.value + 1..]
  {
    if |s| == 0 then None
    else if s[|s| - 1] == c then Some(|s| - 1)
    else
      var r := LastIndex(s[..|s| - 1], c);
      assert s == s[..|s| - 1] + [s[|s| - 1]];
      assert r.Some? ==> s[r.value + 1..] == s[..|s| - 1][r.value + 1..] + [s[|s| - 1]];
      r
  }

  /** A slice of a + " " + b past the blank is a slice of b. */
  lemma SpaceJoinRight(a: string, b: string, j: nat, n: nat)
    requires j + n <= |b|
    ensures (a + " " + b)[|a| + 1 + j..|a| + 1 + j + n] == b[j..j + n]
  {
    var s := a + " " + b;
    assert s[|a| + 1..] == b;
    assert s[|a| + 1 + j..|a| + 1 + j + n] == s[|a| + 1..][j..j + n];
  }

  /** Three consecutive characters of a + " " + b that are not blank lie
      wholly inside a or wholly inside b. */
  lemma SpaceJoinNoNeedle(a: string, b: string, needle: string)
    requires |needle| > 0 && ' ' !in needle
    requires !Contains(a, needle) && !Contains(b, needle)
    ensures !Contains(a + " " + b, needle)
  {
    var s := a + " " + b;
    var n := |needle|;
    forall i | 0 <= i <= |s|
      ensures !OccursAt(s, needle, i)
    {
      if i + n <= |a| {
        assert a[i..i + n] == s[i..i + n];
        assert !OccursAt(a, needle, i);
      } else if i > |a| && i + n <= |s| {
        SpaceJoinRight(a, b, i - |a| - 1, n);
        assert !OccursAt(b, needle, i - |a| - 1);
      } else if i + n <= |s| {
        assert s[i..i + n][|a| - i] == ' ';
      }
    }
  }

  /** A substring of a text free of a needle is free of it too. */
  lemma SliceNoNeedle(s: string, i: nat, j: nat, needle: string)
    requires i <= j <= |s| && !Contains(s, needle)
    ensures !Contains(s[i..j], needle)
  {
    forall k | 0 <= k <= j - i
      ensures !OccursAt(s[i..j], needle, k)
    {
      assert !OccursAt(s, needle, i + k);
      if k + |needle| <= j - i {
        var m := |needle|;
        var piece := s[i..j][k..k + m];
        assert forall t :: 0 <= t < m ==> piece[t] == s[i + k + t];
        assert piece == s[i + k..i + k + m];
      }
    }
  }
}
