/**
 * `fix_common_json_errors` (src/schemas.py:57-76): four regular-expression substitutions
 * applied in a fixed order.
 *
 * Every pattern here is deterministic: each `\s*`, `[a-zA-Z0-9_]*`, `\w+` or `[^']+` is
 * followed by a character the class cannot contain, so giving back characters never lets
 * the rest of the pattern match. A match at a position is therefore decided by one
 * forward look, and `re.sub` is a left-to-right scan that copies characters where nothing
 * matches and, after a match, resumes right behind it. Each substitution below is such a scan.
 */
module Fix {
  import opened Wrappers
  import opened Text

  /** The class `[\x00-\x1f\x7f-\x9f]`. */
  predicate IsControl(c: char) {
    c as int <= 0x1F || 0x7F <= c as int <= 0x9F
  }

  /** `[a-zA-Z0-9_]`, which is also `\w` over ASCII. */
  predicate IsWordChar(c: char) {
    'a' <= c <= 'z' || 'A' <= c <= 'Z' || '0' <= c <= '9' || c == '_'
  }

  /** `[a-zA-Z_]`. */
  predicate IsIdentStart(c: char) {
    'a' <= c <= 'z' || 'A' <= c <= 'Z' || c == '_'
  }

  /** How many characters a greedy `\s*` consumes at the start of `s`. */
  function SpaceRun(s: string): (n: nat)
    ensures n <= |s| && (n < |s| ==> !IsSpace(s[n]))
  {
    if s != [] && IsSpace(s[0]) then 1 + SpaceRun(s[1..]) else 0
  }

  /** How many characters a greedy `[a-zA-Z0-9_]*` (or `\w*`) consumes at the start of `s`. */
  function WordRun(s: string): (n: nat)
    ensures n <= |s| && (n < |s| ==> !IsWordChar(s[n]))
    ensures forall i :: 0 <= i < n ==> IsWordChar(s[i])
  {
    if s != [] && IsWordChar(s[0]) then 1 + WordRun(s[1..]) else 0
  }

  /** The first character of `t` that is not whitespace is in `xs`. */
  predicate SolidIn(t: string, xs: set<char>) {
    SpaceRun(t) < |t| && t[SpaceRun(t)] in xs
  }

  /** If `s[i]` is a comma, the next character after it that is not whitespace is not in `xs`. */
  predicate CommaOk(s: string, i: nat, xs: set<char>)
    requires i < |s|
  {
    s[i] == ',' ==> !SolidIn(s[i + 1..], xs)
  }

  /** After every comma, the next character that is not whitespace is not in `xs`. */
  predicate CommasAvoid(s: string, xs: set<char>) {
    forall i :: 0 <= i < |s| ==> CommaOk(s, i, xs)
  }

  /** No match of `,\s*` followed by `closer`: no comma before `closer` with only whitespace between. */
  predicate NoTrailingComma(s: string, closer: char) {
    CommasAvoid(s, {closer})
  }

  /** No character of `s` is in `[\x00-\x1f\x7f-\x9f]`. */
  predicate NoControl(s: string) {
    forall i :: 0 <= i < |s| ==> !IsControl(s[i])
  }

  lemma NoControlConcat(a: string, b: string)
    requires NoControl(a) && NoControl(b)
    ensures NoControl(a + b)
  {
  }

  /** `re.sub(r'[\x00-\x1f\x7f-\x9f]', ' ', s)`. */
  function ReplaceControlChars(s: string): (r: string)
    ensures |r| == |s| && NoControl(r)
    ensures forall i :: 0 <= i < |s| && !IsControl(s[i]) ==> r[i] == s[i]
    ensures forall i :: 0 <= i < |s| && IsControl(s[i]) ==> r[i] == ' '
  {
    seq(|s|, i requires 0 <= i < |s| => if IsControl(s[i]) then ' ' else s[i])
  }

  /** `re.sub(r',\s*}', '}', s)` for `closer == '}'`, and likewise for `]`. */
  function DropTrailingCommas(s: string, closer: char): (r: string)
    requires closer != ','
    ensures |r| <= |s|
    decreases |s|
  {
    if s == [] then []
    else if s[0] == ',' && SolidIn(s[1..], {closer}) then
      [closer] + DropTrailingCommas(s[SpaceRun(s[1..]) + 2..], closer)
    else [s[0]] + DropTrailingCommas(s[1..], closer)
  }

  /** The pass changes the text exactly when some comma is followed, past whitespace, by `closer`. */
  lemma {:induction false} DropTrailingCommasChanges(s: string, closer: char)
    requires closer != ','
    ensures NoTrailingComma(s, closer) ==> DropTrailingCommas(s, closer) == s
    ensures !NoTrailingComma(s, closer) ==> |DropTrailingCommas(s, closer)| < |s|
    decreases |s|
  {
    if s == [] {
    } else if s[0] == ',' && SolidIn(s[1..], {closer}) {
      assert !CommaOk(s, 0, {closer});
    } else {
      NoTrailingCommaTail(s, closer);
      DropTrailingCommasChanges(s[1..], closer);
      assert s == [s[0]] + s[1..];
    }
  }

  /** When the first character is not a trailing comma, the trailing commas are those of the rest. */
  lemma NoTrailingCommaTail(s: string, closer: char)
    requires s != [] && !(s[0] == ',' && SolidIn(s[1..], {closer}))
    ensures NoTrailingComma(s, closer) <==> NoTrailingComma(s[1..], closer)
  {
    if NoTrailingComma(s, closer) {
      SuffixAvoids(s, 1, {closer});
    }
    if NoTrailingComma(s[1..], closer) {
      forall i | 1 <= i < |s|
        ensures CommaOk(s, i, {closer})
      {
        assert CommaOk(s[1..], i - 1, {closer});
        assert s[1..][i..] == s[i + 1..];
      }
      assert CommaOk(s, 0, {closer});
    }
  }

  /** The pass brings in no control character: what it emits is taken from its input. */
  lemma {:induction false} DropTrailingCommasNoControl(s: string, closer: char)
    requires closer != ',' && NoControl(s)
    ensures NoControl(DropTrailingCommas(s, closer))
    decreases |s|
  {
    if s != [] {
      if s[0] == ',' && SolidIn(s[1..], {closer}) {
        var k := SpaceRun(s[1..]) + 2;
        DropTrailingCommasNoControl(s[k..], closer);
        assert s[k - 1] == closer;
        NoControlConcat([closer], DropTrailingCommas(s[k..], closer));
      } else {
        DropTrailingCommasNoControl(s[1..], closer);
        NoControlConcat([s[0]], DropTrailingCommas(s[1..], closer));
      }
    }
  }

  /** Where the name of a bare key starts: past the opener and a greedy `\s*`. */
  function KeyStart(s: string): (a: nat)
    requires s != []
    ensures 1 <= a <= |s|
  {
    1 + SpaceRun(s[1..])
  }

  /** Where the name ends: past its first character and a greedy `[a-zA-Z0-9_]*`. */
  function KeyEnd(s: string): (b: nat)
    requires s != [] && KeyStart(s) < |s|
    ensures KeyStart(s) < b <= |s|
  {
    KeyStart(s) + 1 + WordRun(s[KeyStart(s) + 1..])
  }

  /** Where the colon must stand: past a greedy `\s*` after the name. */
  function KeyColon(s: string): (p: nat)
    requires s != [] && KeyStart(s) < |s|
    ensures KeyEnd(s) <= p <= |s|
  {
    KeyEnd(s) + SpaceRun(s[KeyEnd(s)..])
  }

  /** `(\{|\,)\s*([a-zA-Z_][a-zA-Z0-9_]*)\s*:` matches at the start of `s`. */
  predicate IsBareKey(s: string) {
    s != [] && (s[0] == '{' || s[0] == ',') && KeyStart(s) < |s| && IsIdentStart(s[KeyStart(s)])
    && KeyColon(s) < |s| && s[KeyColon(s)] == ':'
  }

  /** The name of a bare key is made of word characters only. */
  lemma KeyIsWord(s: string)
    requires IsBareKey(s)
    ensures forall i :: KeyStart(s) <= i < KeyEnd(s) ==> IsWordChar(s[i])
  {
    var a := KeyStart(s);
    forall i | a + 1 <= i < KeyEnd(s)
      ensures IsWordChar(s[i])
    {
      assert s[a + 1..][i - a - 1] == s[i];
    }
  }

  predicate HasBareKey(s: string) {
    s != [] && (IsBareKey(s) || HasBareKey(s[1..]))
  }

  /** The replacement `\1"\2":` of a bare key at the start of `s`. */
  function KeyChunk(s: string): string
    requires IsBareKey(s)
  {
    [s[0]] + "\"" + s[KeyStart(s)..KeyEnd(s)] + "\":"
  }

  /** `re.sub(r'(\{|\,)\s*([a-zA-Z_][a-zA-Z0-9_]*)\s*:', r'\1"\2":', s)`. */
  function QuoteBareKeys(s: string): string
    decreases |s|
  {
    if s == [] then []
    else if IsBareKey(s) then KeyChunk(s) + QuoteBareKeys(s[KeyColon(s) + 1..])
    else [s[0]] + QuoteBareKeys(s[1..])
  }

  /** The first `'` at or after `i`, or `|s|` when there is none. */
  function NextQuote(s: string, i: nat): (j: nat)
    requires i <= |s|
    ensures i <= j <= |s| && (j < |s| ==> s[j] == '\'')
    decreases |s| - i
  {
    if i == |s| || s[i] == '\'' then i else NextQuote(s, i + 1)
  }

  /** No quote lies between `i` and the one `NextQuote` finds. */
  lemma {:induction false} NextQuoteFirst(s: string, i: nat)
    requires i <= |s|
    ensures forall k :: i <= k < NextQuote(s, i) ==> s[k] != '\''
    decreases |s| - i
  {
    if i < |s| && s[i] != '\'' {
      NextQuoteFirst(s, i + 1);
    }
  }

  /** The replacement `"\1":` of a single-quoted key at the start of `s`. */
  function QuotedChunk(s: string): string
    requires IsQuotedKey(s)
  {
    "\"" + s[1..NextQuote(s, 1)] + "\":"
  }

  /**
   * `'([^']+)':` matches at the start of `s`. The group cannot hold a quote, so it ends
   * right before the first quote after the opening one.
   */
  predicate IsQuotedKey(s: string) {
    s != [] && s[0] == '\'' && 2 <= NextQuote(s, 1) && NextQuote(s, 1) + 1 < |s|
    && s[NextQuote(s, 1) + 1] == ':'
  }

  /** `re.sub(r"'([^']+)':", r'"\1":', s)`. */
  function QuoteSingleKeys(s: string): string
    decreases |s|
  {
    if s == [] then []
    else if IsQuotedKey(s) then
      QuotedChunk(s) + QuoteSingleKeys(s[NextQuote(s, 1) + 2..])
    else [s[0]] + QuoteSingleKeys(s[1..])
  }

  /** `re.search(r"'\w+':", s)`. */
  predicate HasWordKey(s: string) {
    s != [] && (WordKeyAt(s) || HasWordKey(s[1..]))
  }

  predicate WordKeyAt(s: string) {
    s != [] && s[0] == '\'' &&
    var w := WordRun(s[1..]);
    w >= 1 && w + 3 <= |s| && s[w + 1] == '\'' && s[w + 2] == ':'
  }

  /** `fix_common_json_errors`. */
  function FixCommonJsonErrors(s: string): (r: string)
    ensures s == [] ==> r == []
  {
    if s == [] then s
    else
      var a := ReplaceControlChars(s);
      var b := DropTrailingCommas(DropTrailingCommas(a, '}'), ']');
      var c := QuoteBareKeys(b);
      if HasWordKey(c) then QuoteSingleKeys(c) else c
  }

  /** The first non-whitespace character of `a + b` is that of `a`, or that of `b` when `a` is all whitespace. */
  lemma {:induction false} SolidOfConcat(a: string, b: string, xs: set<char>)
    ensures SolidIn(a + b, xs) == if SpaceRun(a) < |a| then SolidIn(a, xs) else SolidIn(b, xs)
  {
    if a != [] {
      assert (a + b)[1..] == a[1..] + b;
      SolidOfConcat(a[1..], b, xs);
    } else {
      assert a + b == b;
    }
  }

  lemma SuffixAvoids(s: string, k: nat, xs: set<char>)
    requires k <= |s| && CommasAvoid(s, xs)
    ensures CommasAvoid(s[k..], xs)
  {
    forall i | 0 <= i < |s[k..]|
      ensures CommaOk(s[k..], i, xs)
    {
      assert CommaOk(s, k + i, xs);
      assert s[k..][i + 1..] == s[k + i + 1..];
    }
  }

  /** Commas of `p + q` that lie in `q` see what they see in `q`. */
  lemma PrefixAvoids(p: string, q: string, xs: set<char>)
    requires CommasAvoid(q, xs)
    requires forall i :: 0 <= i < |p| ==> CommaOk(p + q, i, xs)
    ensures CommasAvoid(p + q, xs)
  {
    forall i | 0 <= i < |p + q|
      ensures CommaOk(p + q, i, xs)
    {
      if i >= |p| {
        assert CommaOk(q, i - |p|, xs);
        assert (p + q)[i + 1..] == q[i - |p| + 1..];
      }
    }
  }

  /** Dropping trailing commas keeps the first non-whitespace character when it is not a comma. */
  lemma {:induction false} DropKeepsSolid(t: string, closer: char, xs: set<char>)
    requires closer != ',' && !SolidIn(t, {','})
    ensures SolidIn(DropTrailingCommas(t, closer), xs) == SolidIn(t, xs)
    decreases |t|
  {
    if t != [] {
      var r := DropTrailingCommas(t, closer);
      assert r == [t[0]] + DropTrailingCommas(t[1..], closer);
      if IsSpace(t[0]) {
        DropKeepsSolid(t[1..], closer, xs);
        SolidOfConcat([t[0]], DropTrailingCommas(t[1..], closer), xs);
        SolidOfConcat([t[0]], t[1..], xs);
        assert t == [t[0]] + t[1..];
      }
    }
  }

  /**
   * One pass of `re.sub(r',\s*}', '}', s)` adds `closer` to the characters no comma is followed
   * by, provided no comma is followed by another comma.
   */
  lemma {:induction false} DropAvoids(s: string, closer: char, xs: set<char>)
    requires closer != ',' && ',' in xs && CommasAvoid(s, xs)
    ensures CommasAvoid(DropTrailingCommas(s, closer), xs + {closer})
    decreases |s|
  {
    if s != [] {
      if s[0] == ',' && SolidIn(s[1..], {closer}) {
        var k := SpaceRun(s[1..]) + 2;
        SuffixAvoids(s, k, xs);
        DropAvoids(s[k..], closer, xs);
        DroppedCommaAvoids(s, closer, xs + {closer});
      } else {
        SuffixAvoids(s, 1, xs);
        DropAvoids(s[1..], closer, xs);
        KeptCharAvoids(s, closer, xs);
      }
    }
  }

  /** The step of `DropAvoids` where a trailing comma is replaced by its closer. */
  lemma DroppedCommaAvoids(s: string, closer: char, ys: set<char>)
    requires closer != ',' && s != [] && s[0] == ',' && SolidIn(s[1..], {closer})
    requires CommasAvoid(DropTrailingCommas(s[SpaceRun(s[1..]) + 2..], closer), ys)
    ensures CommasAvoid(DropTrailingCommas(s, closer), ys)
  {
    PrefixAvoids([closer], DropTrailingCommas(s[SpaceRun(s[1..]) + 2..], closer), ys);
  }

  /** The step of `DropAvoids` where the first character is copied. */
  lemma KeptCharAvoids(s: string, closer: char, xs: set<char>)
    requires closer != ',' && ',' in xs && s != [] && CommasAvoid(s, xs)
    requires !(s[0] == ',' && SolidIn(s[1..], {closer}))
    requires CommasAvoid(DropTrailingCommas(s[1..], closer), xs + {closer})
    ensures CommasAvoid(DropTrailingCommas(s, closer), xs + {closer})
  {
    assert CommaOk(s, 0, xs);
    if s[0] == ',' {
      DropKeepsSolid(s[1..], closer, xs + {closer});
    }
    PrefixAvoids([s[0]], DropTrailingCommas(s[1..], closer), xs + {closer});
  }

  /** Quoting bare keys keeps the first non-whitespace character. */
  lemma {:induction false} QuoteBareKeysKeepsSolid(t: string, xs: set<char>)
    ensures SolidIn(QuoteBareKeys(t), xs) == SolidIn(t, xs)
    decreases |t|
  {
    if t != [] {
      var r := QuoteBareKeys(t);
      if IsSpace(t[0]) {
        assert r == [t[0]] + QuoteBareKeys(t[1..]);
        QuoteBareKeysKeepsSolid(t[1..], xs);
        SolidOfConcat([t[0]], QuoteBareKeys(t[1..]), xs);
        SolidOfConcat([t[0]], t[1..], xs);
        assert t == [t[0]] + t[1..];
      } else {
        assert r[0] == t[0];
      }
    }
  }

  /** Quoting bare keys never puts a character of `xs` right after a comma, when `xs` has no `"`. */
  lemma {:induction false} QuoteBareKeysAvoids(s: string, xs: set<char>)
    requires '"' !in xs && CommasAvoid(s, xs)
    ensures CommasAvoid(QuoteBareKeys(s), xs)
    decreases |s|
  {
    if s != [] {
      if IsBareKey(s) {
        SuffixAvoids(s, KeyColon(s) + 1, xs);
        QuoteBareKeysAvoids(s[KeyColon(s) + 1..], xs);
        KeyMatchAvoids(s, xs);
      } else {
        SuffixAvoids(s, 1, xs);
        QuoteBareKeysAvoids(s[1..], xs);
        CopiedCharAvoids(s, xs);
      }
    }
  }

  /** The step of `QuoteBareKeysAvoids` where the first character is copied. */
  lemma CopiedCharAvoids(s: string, xs: set<char>)
    requires s != [] && !IsBareKey(s) && CommasAvoid(s, xs)
    requires CommasAvoid(QuoteBareKeys(s[1..]), xs)
    ensures CommasAvoid(QuoteBareKeys(s), xs)
  {
    assert CommaOk(s, 0, xs);
    if s[0] == ',' {
      QuoteBareKeysKeepsSolid(s[1..], xs);
    }
    PrefixAvoids([s[0]], QuoteBareKeys(s[1..]), xs);
  }

  /** The step of `QuoteBareKeysAvoids` at a bare key. */
  lemma KeyMatchAvoids(s: string, xs: set<char>)
    requires IsBareKey(s) && '"' !in xs
    requires CommasAvoid(QuoteBareKeys(s[KeyColon(s) + 1..]), xs)
    ensures CommasAvoid(QuoteBareKeys(s), xs)
  {
    var q := QuoteBareKeys(s[KeyColon(s) + 1..]);
    assert QuoteBareKeys(s) == KeyChunk(s) + q;
    KeyChunkCommas(s, q, xs);
    PrefixAvoids(KeyChunk(s), q, xs);
  }

  /** The replacement of a bare key holds no comma after its first character. */
  lemma KeyChunkCommas(s: string, q: string, xs: set<char>)
    requires IsBareKey(s) && '"' !in xs
    ensures forall i :: 0 <= i < |KeyChunk(s)| ==> CommaOk(KeyChunk(s) + q, i, xs)
  {
    KeyIsWord(s);
    var chunk := KeyChunk(s);
    forall i | 1 <= i < |chunk|
      ensures chunk[i] != ','
    {
      if 2 <= i < 2 + KeyEnd(s) - KeyStart(s) {
        assert chunk[i] == s[KeyStart(s) + i - 2];
      }
    }
    assert (chunk + q)[1..][0] == '"';
    assert CommaOk(chunk + q, 0, xs);
  }

  /** Quoting single-quoted keys keeps the first non-whitespace character, up to the quote style. */
  lemma {:induction false} QuoteSingleKeysKeepsSolid(t: string, xs: set<char>)
    requires '"' !in xs && '\'' !in xs
    ensures SolidIn(QuoteSingleKeys(t), xs) == SolidIn(t, xs)
    decreases |t|
  {
    if t != [] {
      var r := QuoteSingleKeys(t);
      if IsSpace(t[0]) {
        assert r == [t[0]] + QuoteSingleKeys(t[1..]);
        QuoteSingleKeysKeepsSolid(t[1..], xs);
        SolidOfConcat([t[0]], QuoteSingleKeys(t[1..]), xs);
        SolidOfConcat([t[0]], t[1..], xs);
        assert t == [t[0]] + t[1..];
      } else if t[0] == '\'' {
        assert r[0] == '"' || r[0] == '\'';
      } else {
        assert r[0] == t[0];
      }
    }
  }

  /** Quoting single-quoted keys never puts a character of `xs` right after a comma. */
  lemma {:induction false} QuoteSingleKeysAvoids(s: string, xs: set<char>)
    requires '"' !in xs && '\'' !in xs && CommasAvoid(s, xs)
    ensures CommasAvoid(QuoteSingleKeys(s), xs)
    decreases |s|
  {
    if s != [] {
      if IsQuotedKey(s) {
        SuffixAvoids(s, NextQuote(s, 1) + 2, xs);
        QuoteSingleKeysAvoids(s[NextQuote(s, 1) + 2..], xs);
        QuotedKeyAvoids(s, xs);
      } else {
        SuffixAvoids(s, 1, xs);
        QuoteSingleKeysAvoids(s[1..], xs);
        assert CommaOk(s, 0, xs);
        if s[0] == ',' {
          QuoteSingleKeysKeepsSolid(s[1..], xs);
        }
        PrefixAvoids([s[0]], QuoteSingleKeys(s[1..]), xs);
      }
    }
  }

  /** The step of `QuoteSingleKeysAvoids` at a quoted key: commas inside the key keep their view. */
  lemma QuotedKeyAvoids(s: string, xs: set<char>)
    requires '"' !in xs && '\'' !in xs && CommasAvoid(s, xs) && IsQuotedKey(s)
    requires CommasAvoid(QuoteSingleKeys(s[NextQuote(s, 1) + 2..]), xs)
    ensures CommasAvoid(QuoteSingleKeys(s), xs)
  {
    var q := QuoteSingleKeys(s[NextQuote(s, 1) + 2..]);
    assert QuoteSingleKeys(s) == QuotedChunk(s) + q;
    QuotedChunkCommas(s, q, xs);
    PrefixAvoids(QuotedChunk(s), q, xs);
  }

  /** Every comma of the replacement of a quoted key sees what it saw in the source. */
  lemma QuotedChunkCommas(s: string, q: string, xs: set<char>)
    requires '"' !in xs && '\'' !in xs && CommasAvoid(s, xs) && IsQuotedKey(s)
    ensures forall i :: 0 <= i < |QuotedChunk(s)| ==> CommaOk(QuotedChunk(s) + q, i, xs)
  {
    forall i | 0 <= i < |QuotedChunk(s)|
      ensures CommaOk(QuotedChunk(s) + q, i, xs)
    {
      if 1 <= i < NextQuote(s, 1) {
        QuotedKeyComma(s, i, q, xs);
      } else {
        assert (QuotedChunk(s) + q)[i] != ',';
      }
    }
  }

  /** Inside a quoted key, a comma of the replacement sees what the comma of the source saw. */
  lemma QuotedKeyComma(s: string, i: nat, q: string, xs: set<char>)
    requires '"' !in xs && '\'' !in xs && CommasAvoid(s, xs) && IsQuotedKey(s)
    requires 1 <= i < NextQuote(s, 1)
    ensures CommaOk(QuotedChunk(s) + q, i, xs)
  {
    var j := NextQuote(s, 1);
    var t := QuotedChunk(s) + q;
    assert t[i] == s[i];
    if s[i] == ',' {
      assert CommaOk(s, i, xs);
      assert t[i + 1..] == s[i + 1..j] + ("\":" + q);
      CommaInKey(s, i, q, xs);
    }
  }

  /** A comma inside a quoted key sees the same character in the source and in the replacement. */
  lemma CommaInKey(s: string, i: nat, q: string, xs: set<char>)
    requires '"' !in xs && '\'' !in xs && IsQuotedKey(s)
    requires 1 <= i < NextQuote(s, 1) && !SolidIn(s[i + 1..], xs)
    ensures !SolidIn(s[i + 1..NextQuote(s, 1)] + ("\":" + q), xs)
  {
    var j := NextQuote(s, 1);
    assert s[i + 1..] == s[i + 1..j] + s[j..];
    SolidOfConcat(s[i + 1..j], "\":" + q, xs);
    SolidOfConcat(s[i + 1..j], s[j..], xs);
    assert ("\":" + q)[0] == '"';
  }

  /**
   * After `fix_common_json_errors`, no comma is followed, past whitespace, by `}` or `]`,
   * provided no comma is followed by another comma once control characters are blanked.
   */
  lemma FixLeavesNoTrailingComma(s: string)
    requires CommasAvoid(ReplaceControlChars(s), {','})
    ensures NoTrailingComma(FixCommonJsonErrors(s), '}')
    ensures NoTrailingComma(FixCommonJsonErrors(s), ']')
  {
    if s != [] {
      var a := ReplaceControlChars(s);
      DropAvoids(a, '}', {','});
      var b1 := DropTrailingCommas(a, '}');
      assert {','} + {'}'} == {',', '}'};
      DropAvoids(b1, ']', {',', '}'});
      var b := DropTrailingCommas(b1, ']');
      var xs := {',', '}', ']'};
      assert {',', '}'} + {']'} == xs;
      QuoteBareKeysAvoids(b, xs);
      var c := QuoteBareKeys(b);
      if HasWordKey(c) {
        QuoteSingleKeysAvoids(c, xs);
      }
      var r := FixCommonJsonErrors(s);
      assert CommasAvoid(r, xs);
      forall i | 0 <= i < |r|
        ensures CommaOk(r, i, {'}'}) && CommaOk(r, i, {']'})
      {
        assert CommaOk(r, i, xs);
      }
    }
  }

  /**
   * The two comma passes run once each, so of two commas before a closer only the last is
   * removed: `,,}` comes out as `,}`.
   */
  lemma DoubleCommaSurvives()
    ensures FixCommonJsonErrors(",,}") == ",}"
    ensures !NoTrailingComma(FixCommonJsonErrors(",,}"), '}')
  {
    var s := ",,}";
    assert ReplaceControlChars(s) == s;
    DoubleCommaDropsOne();
    var t := ",}";
    SingleCommaKept();
    assert !HasWordKey(t) by {
      assert !WordKeyAt(t[1..]) && !HasWordKey(t[1..]);
    }
    assert t[0] == ',' && SolidIn(t[1..], {'}'});
    assert !CommaOk(t, 0, {'}'});
  }

  lemma DoubleCommaDropsOne()
    ensures DropTrailingCommas(",,}", '}') == ",}"
  {
    var s := ",,}";
    assert SolidIn(s[1..], {','});
    assert s[2..] == "}" && SolidIn(s[2..], {'}'});
    assert DropTrailingCommas(s[2..], '}') == "}";
    assert DropTrailingCommas(s[1..], '}') == "}";
  }

  lemma SingleCommaKept()
    ensures DropTrailingCommas(",}", ']') == ",}"
    ensures QuoteBareKeys(",}") == ",}"
  {
    var t := ",}";
    assert t[1..] == "}";
    assert DropTrailingCommas(t[1..], ']') == "}";
    assert !IsBareKey(t);
    assert !IsBareKey(t[1..]);
    assert QuoteBareKeys(t[1..]) == "}";
  }

  /** Text without a bare key passes through unchanged. */
  lemma {:induction false} QuoteBareKeysUnchanged(s: string)
    requires !HasBareKey(s)
    ensures QuoteBareKeys(s) == s
    decreases |s|
  {
    if s != [] {
      QuoteBareKeysUnchanged(s[1..]);
    }
  }

  /** Quoting bare keys brings in no control character. */
  lemma {:induction false} QuoteBareKeysNoControl(s: string)
    requires NoControl(s)
    ensures NoControl(QuoteBareKeys(s))
    decreases |s|
  {
    if s != [] {
      if IsBareKey(s) {
        QuoteBareKeysNoControl(s[KeyColon(s) + 1..]);
        NoControlConcat([s[0]] + "\"", s[KeyStart(s)..KeyEnd(s)]);
        NoControlConcat([s[0]] + "\"" + s[KeyStart(s)..KeyEnd(s)], "\":");
        NoControlConcat(KeyChunk(s), QuoteBareKeys(s[KeyColon(s) + 1..]));
      } else {
        QuoteBareKeysNoControl(s[1..]);
        NoControlConcat([s[0]], QuoteBareKeys(s[1..]));
      }
    }
  }

  /** Quoting single-quoted keys brings in no control character. */
  lemma {:induction false} QuoteSingleKeysNoControl(s: string)
    requires NoControl(s)
    ensures NoControl(QuoteSingleKeys(s))
    decreases |s|
  {
    if s != [] {
      if IsQuotedKey(s) {
        QuoteSingleKeysNoControl(s[NextQuote(s, 1) + 2..]);
        QuotedChunkNoControl(s);
        NoControlConcat(QuotedChunk(s), QuoteSingleKeys(s[NextQuote(s, 1) + 2..]));
      } else {
        QuoteSingleKeysNoControl(s[1..]);
        NoControlConcat([s[0]], QuoteSingleKeys(s[1..]));
      }
    }
  }

  lemma QuotedChunkNoControl(s: string)
    requires NoControl(s) && IsQuotedKey(s)
    ensures NoControl(QuotedChunk(s))
  {
    var j := NextQuote(s, 1);
    NoControlConcat("\"", s[1..j]);
    NoControlConcat("\"" + s[1..j], "\":");
  }

  /** No character of `[\x00-\x1f\x7f-\x9f]` survives `fix_common_json_errors`. */
  lemma FixLeavesNoControl(s: string)
    ensures NoControl(FixCommonJsonErrors(s))
  {
    if s != [] {
      var a := ReplaceControlChars(s);
      DropTrailingCommasNoControl(a, '}');
      var b1 := DropTrailingCommas(a, '}');
      DropTrailingCommasNoControl(b1, ']');
      var b := DropTrailingCommas(b1, ']');
      QuoteBareKeysNoControl(b);
      QuoteSingleKeysNoControl(QuoteBareKeys(b));
    }
  }
}
