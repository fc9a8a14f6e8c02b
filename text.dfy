/** Python `str` operations the core relies on, on `seq<char>`. */
module Text {
  import opened Wrappers

  /** Python's `str.isspace()` characters; the same set is `\s` in a `str` regular expression. */
  predicate IsSpace(c: char) {
    var n := c as int;
    n == 0x20 || (0x09 <= n <= 0x0D) || (0x1C <= n <= 0x1F) || n == 0x85 || n == 0xA0
    || n == 0x1680 || (0x2000 <= n <= 0x200A) || n == 0x2028 || n == 0x2029
    || n == 0x202F || n == 0x205F || n == 0x3000
  }

  predicate AllSpace(s: string) {
    forall i :: 0 <= i < |s| ==> IsSpace(s[i])
  }

  /** `s.lstrip()`: the suffix left after dropping leading whitespace. */
  function StripLeft(s: string): (r: string)
    ensures |r| <= |s| && r == s[|s| - |r|..]
  {
    if s != [] && IsSpace(s[0]) then StripLeft(s[1..]) else s
  }

  /** What `lstrip` drops is whitespace, and what it keeps does not start with whitespace. */
  lemma {:induction false} StripLeftTrims(s: string)
    ensures AllSpace(s[..|s| - |StripLeft(s)|])
    ensures StripLeft(s) != [] ==> !IsSpace(StripLeft(s)[0])
  {
    if s != [] && IsSpace(s[0]) {
      StripLeftTrims(s[1..]);
      var n := |s| - |StripLeft(s)|;
      forall i | 0 <= i < n
        ensures IsSpace(s[..n][i])
      {
        if i > 0 {
          assert s[..n][i] == s[1..][..n - 1][i - 1];
        }
      }
    }
  }

  /** `s.rstrip()`: the prefix left after dropping trailing whitespace. */
  function StripRight(s: string): (r: string)
    ensures |r| <= |s| && r == s[..|r|]
  {
    if s != [] && IsSpace(s[|s| - 1]) then StripRight(s[..|s| - 1]) else s
  }

  /** What `rstrip` drops is whitespace, and what it keeps does not end with whitespace. */
  lemma {:induction false} StripRightTrims(s: string)
    ensures AllSpace(s[|StripRight(s)|..])
    ensures StripRight(s) != [] ==> !IsSpace(StripRight(s)[|StripRight(s)| - 1])
  {
    if s != [] && IsSpace(s[|s| - 1]) {
      StripRightTrims(s[..|s| - 1]);
      var n := |StripRight(s)|;
      forall i | n <= i < |s|
        ensures IsSpace(s[i])
      {
        if i < |s| - 1 {
          assert s[..|s| - 1][n..][i - n] == s[i];
        }
      }
    }
  }

  /** `s.strip()`: `s` without leading and trailing whitespace. */
  function Strip(s: string): (r: string)
    ensures |r| <= |s|
  {
    StripRight(StripLeft(s))
  }

  /** The result of `strip` neither starts nor ends with whitespace. */
  lemma StripTrims(s: string)
    ensures Strip(s) != [] ==> !IsSpace(Strip(s)[0]) && !IsSpace(Strip(s)[|Strip(s)| - 1])
  {
    StripLeftTrims(s);
    StripRightTrims(StripLeft(s));
  }

  /** Text that neither starts nor ends with whitespace is its own `strip`. */
  lemma StripOfUnspaced(s: string)
    requires s != [] && !IsSpace(s[0]) && !IsSpace(s[|s| - 1])
    ensures Strip(s) == s
  {
  }

  /** ASCII case mapping (`str.lower()` / `str.upper()` restricted to ASCII letters). */
  function LowerChar(c: char): char {
    if 'A' <= c <= 'Z' then (c as int + 32) as char else c
  }

  function UpperChar(c: char): char {
    if 'a' <= c <= 'z' then (c as int - 32) as char else c
  }

  function Lower(s: string): (r: string)
    ensures |r| == |s|
  {
    seq(|s|, i requires 0 <= i < |s| => LowerChar(s[i]))
  }

  function Upper(s: string): (r: string)
    ensures |r| == |s|
  {
    seq(|s|, i requires 0 <= i < |s| => UpperChar(s[i]))
  }

  predicate StartsWith(s: string, p: string) {
    |p| <= |s| && s[..|p|] == p
  }

  /** `s.count(c)` for a one-character `c`. */
  function Count(s: string, c: char): (n: nat)
    ensures n <= |s|
    ensures n == 0 <==> c !in s
  {
    if s == [] then 0 else (if s[0] == c then 1 else 0) + Count(s[1..], c)
  }

  lemma {:induction false} CountConcat(a: string, b: string, c: char)
    ensures Count(a + b, c) == Count(a, c) + Count(b, c)
  {
    if a == [] {
      assert a + b == b;
    } else {
      assert (a + b)[1..] == a[1..] + b;
      CountConcat(a[1..], b, c);
    }
  }

  /** `c * n`. */
  function Repeat(c: char, n: nat): (r: string)
    ensures |r| == n && forall i :: 0 <= i < n ==> r[i] == c
  {
    if n == 0 then [] else [c] + Repeat(c, n - 1)
  }

  lemma {:induction false} CountRepeat(c: char, n: nat, d: char)
    ensures Count(Repeat(c, n), d) == if c == d then n else 0
  {
    if n > 0 {
      assert Repeat(c, n)[1..] == Repeat(c, n - 1);
      CountRepeat(c, n - 1, d);
    }
  }

  /** `s.find(c)` for a one-character `c`: the first index of `c`, or -1. */
  function Find(s: string, c: char): (r: int)
    ensures -1 <= r < |s|
    ensures r == -1 <==> c !in s
    ensures r >= 0 ==> s[r] == c && c !in s[..r]
  {
    if s == [] then -1
    else if s[0] == c then 0
    else
      var i := Find(s[1..], c);
      if i == -1 then -1
      else
        assert s[..i + 1] == [s[0]] + s[1..][..i];
        i + 1
  }

  /** `s.rfind(c)` for a one-character `c`: the last index of `c`, or -1. */
  function RFind(s: string, c: char): (r: int)
    ensures -1 <= r < |s|
    ensures r == -1 <==> c !in s
    ensures r >= 0 ==> s[r] == c && c !in s[r + 1..]
  {
    if s == [] then -1
    else if s[|s| - 1] == c then |s| - 1
    else
      var r := RFind(s[..|s| - 1], c);
      assert s == s[..|s| - 1] + [s[|s| - 1]];
      assert r >= 0 ==> s[r + 1..] == s[..|s| - 1][r + 1..] + [s[|s| - 1]];
      r
  }

  /** `sub[j..]` matches `s` from index `k + j` on, compared character by character. */
  predicate MatchesFrom(s: string, sub: string, k: nat, j: nat)
    requires j <= |sub|
    decreases |sub| - j
  {
    if j == |sub| then k + j <= |s|
    else k + j < |s| && s[k + j] == sub[j] && MatchesFrom(s, sub, k, j + 1)
  }

  /** `sub` occurs in `s` at index `k`. */
  predicate OccursAt(s: string, sub: string, k: nat) {
    MatchesFrom(s, sub, k, 0)
  }

  lemma {:induction false} MatchesFromIff(s: string, sub: string, k: nat, j: nat)
    requires j <= |sub|
    ensures MatchesFrom(s, sub, k, j) <==> k + |sub| <= |s| && s[k + j..k + |sub|] == sub[j..]
    decreases |sub| - j
  {
    if j < |sub| {
      MatchesFromIff(s, sub, k, j + 1);
      if k + |sub| <= |s| {
        assert s[k + j..k + |sub|] == [s[k + j]] + s[k + j + 1..k + |sub|];
        assert sub[j..] == [sub[j]] + sub[j + 1..];
      }
    }
  }

  /** `OccursAt` is the slice comparison it stands for. */
  lemma OccursAtIff(s: string, sub: string, k: nat)
    ensures OccursAt(s, sub, k) <==> k + |sub| <= |s| && s[k..k + |sub|] == sub
  {
    MatchesFromIff(s, sub, k, 0);
  }

  /** An occurrence inside the slice `t[a..p]` is an occurrence in `t`. */
  lemma OccursInSlice(t: string, sub: string, a: nat, p: nat, k: nat)
    requires a <= p <= |t| && k <= p - a
    ensures OccursAt(t[a..p], sub, k) ==> OccursAt(t, sub, a + k)
  {
    OccursAtIff(t[a..p], sub, k);
    OccursAtIff(t, sub, a + k);
    if k + |sub| <= p - a {
      var x, y := t[a..p][k..k + |sub|], t[a + k..a + k + |sub|];
      forall m | 0 <= m < |sub|
        ensures x[m] == y[m]
      {
        assert x[m] == t[a + k + m];
      }
      assert x == y;
    }
  }

  /** `s.find(sub, from)`: the first index `k >= from` at which `sub` occurs in `s`, or -1. */
  function IndexOf(s: string, sub: string, from: nat): (r: int)
    requires from <= |s|
    ensures r == -1 || (from <= r <= |s| - |sub| && OccursAt(s, sub, r))
    decreases |s| - from
  {
    if OccursAt(s, sub, from) then
      OccursAtIff(s, sub, from);
      from
    else if from == |s| then -1
    else IndexOf(s, sub, from + 1)
  }

  /** `IndexOf` finds the first occurrence: none starts between `from` and the one it returns. */
  lemma {:induction false} IndexOfFirst(s: string, sub: string, from: nat)
    requires from <= |s|
    ensures forall k :: from <= k <= |s| && (IndexOf(s, sub, from) == -1 || k < IndexOf(s, sub, from))
              ==> !OccursAt(s, sub, k)
    decreases |s| - from
  {
    if !OccursAt(s, sub, from) && from < |s| {
      IndexOfFirst(s, sub, from + 1);
    }
  }

  /** An occurrence at `e` with none between `from` and `e` is the one `IndexOf` returns. */
  lemma {:induction false} IndexOfIs(s: string, sub: string, from: nat, e: nat)
    requires from <= e <= |s| && OccursAt(s, sub, e)
    requires forall k :: from <= k < e ==> !OccursAt(s, sub, k)
    ensures IndexOf(s, sub, from) == e
    decreases e - from
  {
    if from < e {
      IndexOfIs(s, sub, from + 1, e);
    }
  }

  /** `sub` occurs nowhere in `s`. */
  predicate Avoids(s: string, sub: string) {
    forall k :: 0 <= k <= |s| ==> !OccursAt(s, sub, k)
  }

  /** Python's `sub in s`. */
  predicate Contains(s: string, sub: string) {
    IndexOf(s, sub, 0) >= 0
  }

  /** `sub in s` is false exactly when `sub` occurs nowhere in `s`. */
  lemma ContainsIff(s: string, sub: string)
    ensures !Contains(s, sub) <==> Avoids(s, sub)
  {
    IndexOfFirst(s, sub, 0);
  }

  /** An occurrence in the tail of `s` is an occurrence in `s`. */
  lemma ContainsFromTail(s: string, sub: string)
    requires s != [] && Contains(s[1..], sub)
    ensures Contains(s, sub)
  {
    var k := IndexOf(s[1..], sub, 0);
    OccursAtIff(s[1..], sub, k);
    assert s[1..][k..k + |sub|] == s[k + 1..k + 1 + |sub|];
    OccursAtIff(s, sub, k + 1);
    IndexOfFirst(s, sub, 0);
  }

  /** `s.replace(pat, rep)`: non-overlapping occurrences, left to right. */
  function ReplaceAll(s: string, pat: string, rep: string): (r: string)
    requires pat != []
    ensures !Contains(s, pat) ==> r == s
    decreases |s|
  {
    if |s| < |pat| then s
    else if OccursAt(s, pat, 0) then rep + ReplaceAll(s[|pat|..], pat, rep)
    else
      assert !Contains(s, pat) ==> !Contains(s[1..], pat) by {
        if Contains(s[1..], pat) { ContainsFromTail(s, pat); }
      }
      [s[0]] + ReplaceAll(s[1..], pat, rep)
  }

  /** Where the pattern does not start, the first character is kept and the rest is replaced. */
  lemma ReplaceAllKeepsHead(s: string, pat: string, rep: string)
    requires pat != [] && |pat| <= |s| && !OccursAt(s, pat, 0)
    ensures ReplaceAll(s, pat, rep) == [s[0]] + ReplaceAll(s[1..], pat, rep)
  {
  }
}
