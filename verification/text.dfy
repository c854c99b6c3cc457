/** Plain string helpers shared by every model in this project.
    Strings are `seq<char>`; case-insensitive comparison folds ASCII letters only. */
module Text {

  datatype Option<T> = None | Some(value: T)

  datatype Result<T, E> = Ok(value: T) | Err(error: E)

  /** A byte as written to a socket or read from a file. */
  type Byte = b: int | 0 <= b < 256

  predicate StartsWith(s: string, prefix: string)
  {
    |prefix| <= |s| && s[..|prefix|] == prefix
  }

  predicate EndsWith(s: string, suffix: string)
  {
    |suffix| <= |s| && s[|s| - |suffix|..] == suffix
  }

  /** `sub` occurs in `s` starting at index `i`. */
  predicate OccursAt(s: string, sub: string, i: int)
  {
    0 <= i && i + |sub| <= |s| && s[i..i + |sub|] == sub
  }

  /** Index of the first occurrence of `sub` at or after `from`, or -1. */
  function IndexOfFrom(s: string, sub: string, from: nat): (r: int)
    ensures r == -1 || (from <= r && OccursAt(s, sub, r))
    ensures r == -1 ==> forall i :: from <= i ==> !OccursAt(s, sub, i)
    ensures r != -1 ==> forall i :: from <= i < r ==> !OccursAt(s, sub, i)
    decreases |s| - from
  {
    if from + |sub| > |s| then -1
    else if s[from..from + |sub|] == sub then from
    else IndexOfFrom(s, sub, from + 1)
  }

  function IndexOf(s: string, sub: string): int
  {
    IndexOfFrom(s, sub, 0)
  }

  predicate Contains(s: string, sub: string)
  {
    IndexOf(s, sub) >= 0
  }

  lemma ContainsWitness(s: string, sub: string, i: int)
    requires OccursAt(s, sub, i)
    ensures Contains(s, sub)
  {
  }

  lemma ContainsElim(s: string, sub: string) returns (i: nat)
    requires Contains(s, sub)
    ensures OccursAt(s, sub, i)
  {
    i := IndexOf(s, sub);
  }

  /** A string is contained in anything that extends it. */
  lemma ContainsPrefix(s: string, t: string, sub: string)
    requires Contains(s, sub)
    ensures Contains(s + t, sub)
  {
    var i := ContainsElim(s, sub);
    assert (s + t)[i..i + |sub|] == s[i..i + |sub|];
    ContainsWitness(s + t, sub, i);
  }

  lemma ContainsSuffix(s: string, t: string, sub: string)
    requires Contains(t, sub)
    ensures Contains(s + t, sub)
  {
    var i := ContainsElim(t, sub);
    assert (s + t)[|s| + i..|s| + i + |sub|] == t[i..i + |sub|];
    ContainsWitness(s + t, sub, |s| + i);
  }

  /** Containment is transitive. */
  lemma ContainsTransitive(s: string, t: string, sub: string)
    requires Contains(s, t) && Contains(t, sub)
    ensures Contains(s, sub)
  {
    var i := ContainsElim(s, t);
    var j := ContainsElim(t, sub);
    forall m | 0 <= m < |sub|
      ensures s[i + j + m] == sub[m]
    {
      assert s[i..i + |t|][j + m] == t[j + m];
      assert t[j..j + |sub|][m] == sub[m];
    }
    assert s[i + j..i + j + |sub|] == sub;
    ContainsWitness(s, sub, i + j);
  }

  /** Index of the first `c` at or after `from`, or -1. */
  function IndexOfCharFrom(s: string, c: char, from: nat): (r: int)
    ensures r == -1 || (from <= r < |s| && s[r] == c)
    ensures r == -1 ==> forall i :: from <= i < |s| ==> s[i] != c
    ensures r != -1 ==> forall i :: from <= i < r ==> s[i] != c
    decreases |s| - from
  {
    if from >= |s| then -1
    else if s[from] == c then from
    else IndexOfCharFrom(s, c, from + 1)
  }

  /** Index of the last `c` in `s`, or -1. */
  function LastIndexOfChar(s: string, c: char): (r: int)
    ensures r == -1 || (0 <= r < |s| && s[r] == c)
    ensures forall i :: r < i < |s| ==> s[i] != c
  {
    if |s| == 0 then -1
    else if s[|s| - 1] == c then |s| - 1
    else LastIndexOfChar(s[..|s| - 1], c)
  }

  function ToLowerChar(c: char): char
  {
    if 'A' <= c <= 'Z' then (c as int + 32) as char else c
  }

  function ToLower(s: string): (r: string)
    ensures |r| == |s|
    ensures forall i :: 0 <= i < |s| ==> r[i] == ToLowerChar(s[i])
  {
    if |s| == 0 then [] else [ToLowerChar(s[0])] + ToLower(s[1..])
  }

  /** Lower-casing commutes with dropping a prefix. */
  lemma {:induction false} ToLowerSuffix(s: string, k: nat)
    requires k <= |s|
    ensures ToLower(s)[k..] == ToLower(s[k..])
  {
    if k > 0 {
      assert ToLower(s) == [ToLowerChar(s[0])] + ToLower(s[1..]);
      ToLowerSuffix(s[1..], k - 1);
      assert s[1..][k - 1..] == s[k..];
    }
  }

  lemma ToLowerAppend(a: string, b: string)
    ensures ToLower(a + b) == ToLower(a) + ToLower(b)
  {
  }

  /** Lower-casing twice is lower-casing once. */
  lemma ToLowerIdempotent(s: string)
    ensures ToLower(ToLower(s)) == ToLower(s)
  {
  }

  /** Ordinal case-insensitive equality (ASCII folding). */
  predicate EqualsIgnoreCase(a: string, b: string)
  {
    ToLower(a) == ToLower(b)
  }

  predicate ContainsIgnoreCase(s: string, sub: string)
  {
    Contains(ToLower(s), ToLower(sub))
  }

  predicate EndsWithIgnoreCase(s: string, suffix: string)
  {
    EndsWith(ToLower(s), ToLower(suffix))
  }

  /** Drops leading characters that belong to `drop`. */
  function TrimStartSet(s: string, drop: set<char>): (r: string)
    ensures |r| <= |s| && r == s[|s| - |r|..]
    ensures |r| > 0 ==> r[0] !in drop
    ensures forall i :: 0 <= i < |s| - |r| ==> s[i] in drop
  {
    if |s| > 0 && s[0] in drop then
      var r := TrimStartSet(s[1..], drop);
      assert s[1..][|s| - 1 - |r|..] == s[|s| - |r|..];
      assert forall i :: 0 < i < |s| - |r| ==> s[i] == s[1..][i - 1];
      r
    else s
  }

  /** Drops trailing characters that belong to `drop`. */
  function TrimEndSet(s: string, drop: set<char>): (r: string)
    ensures |r| <= |s| && r == s[..|r|]
    ensures |r| > 0 ==> r[|r| - 1] !in drop
    ensures forall i :: |r| <= i < |s| ==> s[i] in drop
  {
    if |s| > 0 && s[|s| - 1] in drop then
      var r := TrimEndSet(s[..|s| - 1], drop);
      assert s[..|s| - 1][..|r|] == s[..|r|];
      assert forall i :: |r| <= i < |s| - 1 ==> s[i] == s[..|s| - 1][i];
      r
    else s
  }

  function TrimSet(s: string, drop: set<char>): string
  {
    TrimEndSet(TrimStartSet(s, drop), drop)
  }

  /** Replaces every occurrence of the character `a` by `b`. */
  function ReplaceChar(s: string, a: char, b: char): (r: string)
    ensures |r| == |s|
    ensures forall i :: 0 <= i < |s| ==> r[i] == (if s[i] == a then b else s[i])
  {
    if |s| == 0 then [] else [if s[0] == a then b else s[0]] + ReplaceChar(s[1..], a, b)
  }

  /** Ordinal `String.Replace(pattern, replacement)`: every non-overlapping
      occurrence, scanning left to right. */
  function ReplaceAll(s: string, pattern: string, replacement: string): string
    requires |pattern| > 0
    decreases |s|
  {
    if |s| < |pattern| then s
    else if s[..|pattern|] == pattern then replacement + ReplaceAll(s[|pattern|..], pattern, replacement)
    else [s[0]] + ReplaceAll(s[1..], pattern, replacement)
  }

  /** Joins `parts` with `sep` between consecutive parts. */
  function Join(parts: seq<string>, sep: string): string
  {
    if |parts| == 0 then ""
    else if |parts| == 1 then parts[0]
    else parts[0] + sep + Join(parts[1..], sep)
  }

  /** Appending a part adds one separator and the part. */
  lemma {:induction false} JoinSnoc(parts: seq<string>, part: string, sep: string)
    ensures Join(parts + [part], sep) == if |parts| == 0 then part else Join(parts, sep) + sep + part
  {
    if |parts| > 1 {
      assert (parts + [part])[1..] == parts[1..] + [part];
      JoinSnoc(parts[1..], part, sep);
    }
  }

  /** Every part is contained in the joined text. */
  lemma {:induction false} JoinContains(parts: seq<string>, sep: string, k: nat)
    requires k < |parts|
    ensures Contains(Join(parts, sep), parts[k])
  {
    if k == 0 {
      ContainsWitness(parts[0], parts[0], 0);
      if |parts| > 1 {
        ContainsPrefix(parts[0], sep + Join(parts[1..], sep), parts[0]);
        assert parts[0] + sep + Join(parts[1..], sep) == parts[0] + (sep + Join(parts[1..], sep));
      }
    } else {
      JoinContains(parts[1..], sep, k - 1);
      ContainsSuffix(parts[0] + sep, Join(parts[1..], sep), parts[k]);
    }
  }

  /** Decimal digits of a natural number, most significant first, no leading zero. */
  function NatToString(n: nat): (r: string)
    ensures |r| > 0
    ensures forall i :: 0 <= i < |r| ==> '0' <= r[i] <= '9'
    ensures |r| > 1 ==> r[0] != '0'
  {
    if n < 10 then [('0' as int + n) as char]
    else NatToString(n / 10) + [('0' as int + n % 10) as char]
  }

  /** The value of a string of decimal digits. */
  function DigitsValue(s: string): nat
    requires forall i :: 0 <= i < |s| ==> '0' <= s[i] <= '9'
  {
    if |s| == 0 then 0
    else DigitsValue(s[..|s| - 1]) * 10 + (s[|s| - 1] as int - '0' as int)
  }

  /** Reading the digits back gives the number: the decimal writer and reader are inverses. */
  lemma {:induction false} NatToStringRoundTrip(n: nat)
    ensures DigitsValue(NatToString(n)) == n
  {
    if n >= 10 {
      var r := NatToString(n);
      var front := NatToString(n / 10);
      assert r == front + [('0' as int + n % 10) as char];
      assert r[..|r| - 1] == front;
      NatToStringRoundTrip(n / 10);
    }
  }

  /** Distinct numbers are written differently. */
  lemma NatToStringInjective(m: nat, n: nat)
    requires NatToString(m) == NatToString(n)
    ensures m == n
  {
    NatToStringRoundTrip(m);
    NatToStringRoundTrip(n);
  }

  /** Decimal text of an integer, with a leading '-' for negatives. */
  function IntToString(n: int): string
  {
    if n < 0 then "-" + NatToString(-n) else NatToString(n)
  }
}
