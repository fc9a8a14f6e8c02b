/**
 * `repair_truncated_json` (src/schemas.py:79-112): close what a truncated reply left open.
 *
 * Brace and bracket balances are raw counts over the whole text, string literals included;
 * the quote scan honours backslash escapes; an open string is closed with one `"`; the
 * pattern `,\s*$` is cut; then all missing `]` and after them all missing `}` are appended.
 */
module Repair {
  import opened Text

  /** The two flags of the quote scan: inside a string literal, and after an unconsumed `\`. */
  datatype QuoteState = QuoteState(inString: bool, escaped: bool)

  /** One character of the scan. A `\` sets `escaped` whether or not a string is open. */
  function Step(st: QuoteState, c: char): (next: QuoteState)
    ensures c != '"' ==> next.inString == st.inString
    ensures next.escaped <==> !st.escaped && c == '\\'
  {
    if st.escaped then QuoteState(st.inString, false)
    else if c == '\\' then QuoteState(st.inString, true)
    else if c == '"' then QuoteState(!st.inString, false)
    else st
  }

  /** The scan over all of `s`, from outside any string. */
  function Scan(s: string): QuoteState
    decreases |s|
  {
    if s == [] then QuoteState(false, false) else Step(Scan(s[..|s| - 1]), s[|s| - 1])
  }

  /** Text without a `"` never opens or closes a string, whatever precedes it. */
  lemma {:induction false} ScanWithoutQuote(p: string, t: string)
    requires '"' !in t
    ensures Scan(p + t).inString == Scan(p).inString
    decreases |t|
  {
    if t == [] {
      assert p + t == p;
    } else {
      var u := t[..|t| - 1];
      assert (p + t)[..|p + t| - 1] == p + u;
      assert t[|t| - 1] in t;
      ScanWithoutQuote(p, u);
    }
  }

  /** A scan that ends escaped ends on a backslash that was not itself escaped. */
  lemma ScanEscapedLast(s: string)
    requires Scan(s).escaped
    ensures s != [] && s[|s| - 1] == '\\'
    ensures !Scan(s[..|s| - 1]).escaped && Scan(s[..|s| - 1]).inString == Scan(s).inString
  {
  }

  /** The loop at src/schemas.py:89-99, over `s` from the left. */
  method ScanQuotes(s: string) returns (inString: bool, escaped: bool)
    ensures QuoteState(inString, escaped) == Scan(s)
  {
    inString, escaped := false, false;
    for i := 0 to |s|
      invariant QuoteState(inString, escaped) == Scan(s[..i])
    {
      assert s[..i + 1][..i] == s[..i];
      var c := s[i];
      if escaped {
        escaped := false;
      } else if c == '\\' {
        escaped := true;
      } else if c == '"' {
        inString := !inString;
      }
    }
    assert s[..|s|] == s;
  }

  /**
   * `re.sub(r',\s*$', '', s)`. Only the last non-whitespace character can start a match
   * (everything after the comma must be whitespace), and the greedy `\s*` then runs to the end,
   * so the substitution removes that comma and the whitespace after it, or nothing.
   */
  function CutTrailingComma(s: string): (r: string)
    ensures r == s || (|r| < |s| && r == s[..|r|] && s[|r|] == ',' && AllSpace(s[|r| + 1..]))
  {
    var t := StripRight(s);
    if t != [] && t[|t| - 1] == ',' then
      StripRightTrims(s);
      t[..|t| - 1]
    else s
  }

  /** Conversely, a comma followed only by whitespace is cut. */
  lemma TrailingCommaCut(p: string, w: string)
    requires AllSpace(w)
    ensures CutTrailingComma(p + [','] + w) == p
  {
    var s := p + [','] + w;
    StripRightOfSpaces(p + [','], w);
    assert StripRight(s) == p + [','];
  }

  /** Whitespace appended after a non-space character is exactly what `rstrip` removes. */
  lemma {:induction false} StripRightOfSpaces(p: string, w: string)
    requires p != [] && !IsSpace(p[|p| - 1]) && AllSpace(w)
    ensures StripRight(p + w) == p
    decreases |w|
  {
    if w == [] {
      assert p + w == p;
    } else {
      var s := p + w;
      assert s[|s| - 1] == w[|w| - 1];
      assert s[..|s| - 1] == p + w[..|w| - 1];
      StripRightOfSpaces(p, w[..|w| - 1]);
    }
  }

  /** Text ending in a quote has no trailing comma to cut. */
  lemma CutAfterQuote(s: string)
    ensures CutTrailingComma(s + "\"") == s + "\""
  {
    var t := s + "\"";
    assert !IsSpace(t[|t| - 1]);
  }

  /** `c * n`, where a negative `n` gives the empty string as in Python. */
  function Closers(c: char, n: int): (r: string)
    ensures |r| == if n > 0 then n else 0
    ensures forall i :: 0 <= i < |r| ==> r[i] == c
  {
    Repeat(c, if n > 0 then n else 0)
  }

  /** `b` followed by the `]` and then the `}` closers for the counts taken on `s`. */
  function Assemble(b: string, s: string): string {
    b + Closers(']', Count(s, '[') - Count(s, ']')) + Closers('}', Count(s, '{') - Count(s, '}'))
  }

  /** `repair_truncated_json` exactly as written. */
  function RepairAsWritten(s: string): (r: string)
  {
    if s == [] then s
    else Assemble(CutTrailingComma(if Scan(s).inString then s + "\"" else s), s)
  }

  /** The source's procedure: counts, the escape-aware scan, then the three edits. */
  method RepairTruncatedJson(jsonStr: string) returns (r: string)
    ensures r == RepairAsWritten(jsonStr)
  {
    if jsonStr == [] {
      return jsonStr;
    }
    var openBraces := Count(jsonStr, '{') - Count(jsonStr, '}');
    var openBrackets := Count(jsonStr, '[') - Count(jsonStr, ']');
    var inString, escaped := ScanQuotes(jsonStr);
    r := jsonStr;
    if inString {
      r := r + "\"";
    }
    r := CutTrailingComma(r);
    r := r + Closers(']', openBrackets);
    r := r + Closers('}', openBraces);
  }

  /**
   * What the source appends for an open string: one quote. After a dangling backslash that quote
   * is read as an escaped character, so the string stays open.
   */
  lemma UnclosedAfterEscape()
    ensures Scan("\"\\").inString && Scan(RepairAsWritten("\"\\")).inString
  {
    var s := "\"\\";
    assert s[..1] == "\"" && s[..1][..0] == [];
    assert Scan(s) == QuoteState(true, true);
    CutAfterQuote(s);
    var r := RepairAsWritten(s);
    assert r == s + "\"";
    assert r[..|r| - 1] == s;
  }

  /** How the corrected repair ends the text before the closers. */
  function CloseText(s: string): (b: string)
    ensures !Scan(s).inString ==> b == CutTrailingComma(s)
    ensures Scan(s).inString && !Scan(s).escaped ==> b == s + "\""
    ensures Scan(s).inString && Scan(s).escaped ==> s != [] && b == s[..|s| - 1] + "\""
  {
    if !Scan(s).inString then CutTrailingComma(s)
    else if Scan(s).escaped then
      ScanEscapedLast(s);
      s[..|s| - 1] + "\""
    else s + "\""
  }

  /**
   * `repair_truncated_json` with the open string closed even after a dangling backslash: the
   * backslash, an escape cut short, is dropped before the quote is appended.
   */
  function RepairTruncated(s: string): (r: string)
    ensures s == [] ==> r == []
  {
    if s == [] then s
    else Assemble(CloseText(s), s)
  }

  /** The corrected repair always leaves the text outside any string literal. */
  lemma RepairClosesString(s: string)
    ensures !Scan(RepairTruncated(s)).inString
  {
    if s != [] {
      var b := CloseText(s);
      var tail := Closers(']', Count(s, '[') - Count(s, ']')) + Closers('}', Count(s, '{') - Count(s, '}'));
      assert '"' !in tail by {
        forall i | 0 <= i < |tail|
          ensures tail[i] != '"'
        {
          if i < |Closers(']', Count(s, '[') - Count(s, ']'))| {
          } else {
          }
        }
      }
      assert RepairTruncated(s) == b + tail;
      ScanWithoutQuote(b, tail);
      BodyOutsideString(s);
    }
  }

  /** The part before the closers ends outside any string. */
  lemma BodyOutsideString(s: string)
    ensures !Scan(CloseText(s)).inString
  {
    var st := Scan(s);
    if !st.inString {
      var b := CutTrailingComma(s);
      if b != s {
        var w := s[|b| + 1..];
        assert s == b + ([','] + w);
        assert '"' !in [','] + w by {
          forall i | 0 <= i < |[','] + w|
            ensures ([','] + w)[i] != '"'
          {
            if i > 0 {
              assert ([','] + w)[i] == w[i - 1];
              assert IsSpace(w[i - 1]);
            }
          }
        }
        ScanWithoutQuote(b, [','] + w);
      }
    } else {
      var p := if st.escaped then s[..|s| - 1] else s;
      if st.escaped {
        ScanEscapedLast(s);
      }
      assert !Scan(p).escaped && Scan(p).inString;
      var b := p + "\"";
      assert b[..|b| - 1] == p;
    }
  }

  /** A bracket character: one of the four the repair counts. */
  predicate IsBracket(c: char) {
    c == '{' || c == '}' || c == '[' || c == ']'
  }

  /** Cutting a trailing comma never changes a bracket count. */
  lemma CutKeepsCount(s: string, c: char)
    requires IsBracket(c)
    ensures Count(CutTrailingComma(s), c) == Count(s, c)
  {
    var b := CutTrailingComma(s);
    if b != s {
      var w := [','] + s[|b| + 1..];
      assert s == b + w;
      CountConcat(b, w, c);
      forall i | 0 <= i < |w|
        ensures w[i] != c
      {
        if i > 0 {
          assert IsSpace(s[|b| + 1..][i - 1]);
        }
      }
    }
  }

  /** Closing the string and cutting the trailing comma never change a bracket count. */
  lemma CloseTextKeepsCounts(s: string, c: char)
    requires IsBracket(c)
    ensures Count(CloseText(s), c) == Count(s, c)
  {
    if !Scan(s).inString {
      CutKeepsCount(s, c);
    } else if Scan(s).escaped {
      ScanEscapedLast(s);
      var p := s[..|s| - 1];
      assert s == p + ['\\'];
      CountConcat(p, ['\\'], c);
      CountConcat(p, "\"", c);
    } else {
      CountConcat(s, "\"", c);
    }
  }

  /** Counts of `b` and `s` agree on all four bracket characters. */
  predicate SameBrackets(b: string, s: string) {
    Count(b, '{') == Count(s, '{') && Count(b, '}') == Count(s, '}')
    && Count(b, '[') == Count(s, '[') && Count(b, ']') == Count(s, ']')
  }

  /** Closing text keeps all four counts. */
  lemma CloseTextKeepsBrackets(s: string)
    ensures SameBrackets(CloseText(s), s)
  {
    CloseTextKeepsCounts(s, '{');
    CloseTextKeepsCounts(s, '}');
    CloseTextKeepsCounts(s, '[');
    CloseTextKeepsCounts(s, ']');
  }

  /** How many of `c` the closers `Closers(d, n)` add. */
  lemma CountClosers(d: char, n: int, c: char)
    ensures Count(Closers(d, n), c) == if c == d && n > 0 then n else 0
  {
    CountRepeat(d, if n > 0 then n else 0, c);
  }

  /** The count of `c` in `b + x + y`. */
  lemma CountOfThree(b: string, x: string, y: string, c: char)
    ensures Count(b + x + y, c) == Count(b, c) + Count(x, c) + Count(y, c)
  {
    CountConcat(b + x, y, c);
    CountConcat(b, x, c);
  }

  /** Equal counts of `{` and `}`, and of `[` and `]`. */
  predicate Balanced(r: string) {
    Count(r, '{') == Count(r, '}') && Count(r, '[') == Count(r, ']')
  }

  /** Appending the closers for counts taken on `s` balances any `b` with the same counts as `s`. */
  lemma ClosersBalance(s: string, b: string)
    requires SameBrackets(b, s)
    requires Count(s, '{') >= Count(s, '}') && Count(s, '[') >= Count(s, ']')
    ensures Balanced(Assemble(b, s))
  {
    var m, n := Count(s, '[') - Count(s, ']'), Count(s, '{') - Count(s, '}');
    var x, y := Closers(']', m), Closers('}', n);
    CountOfThree(b, x, y, '{'); CountClosers(']', m, '{'); CountClosers('}', n, '{');
    CountOfThree(b, x, y, '}'); CountClosers(']', m, '}'); CountClosers('}', n, '}');
    CountOfThree(b, x, y, '['); CountClosers(']', m, '['); CountClosers('}', n, '[');
    CountOfThree(b, x, y, ']'); CountClosers(']', m, ']'); CountClosers('}', n, ']');
  }

  /** With no more closers than openers in the input, the repaired text is balanced by count. */
  lemma RepairBalances(s: string)
    requires Count(s, '{') >= Count(s, '}') && Count(s, '[') >= Count(s, ']')
    ensures Balanced(RepairTruncated(s))
  {
    if s != [] {
      CloseTextKeepsBrackets(s);
      ClosersBalance(s, CloseText(s));
    }
  }

  /** Appending a quote keeps all four counts. */
  lemma QuoteKeepsBrackets(s: string)
    ensures SameBrackets(s + "\"", s)
  {
    CountConcat(s, "\"", '{');
    CountConcat(s, "\"", '}');
    CountConcat(s, "\"", '[');
    CountConcat(s, "\"", ']');
  }

  /** The same balance holds for the repair as written. */
  lemma RepairAsWrittenBalances(s: string)
    requires Count(s, '{') >= Count(s, '}') && Count(s, '[') >= Count(s, ']')
    ensures Balanced(RepairAsWritten(s))
  {
    if s != [] {
      var b := CutTrailingComma(if Scan(s).inString then s + "\"" else s);
      if Scan(s).inString {
        CutAfterQuote(s);
        QuoteKeepsBrackets(s);
      } else {
        CloseTextKeepsBrackets(s);
      }
      ClosersBalance(s, b);
    }
  }

  /** `b` followed only by `]` and `}`, every `]` before every `}`. */
  predicate ClosedBy(r: string, b: string) {
    |b| <= |r| && r[..|b|] == b
    && (forall i :: |b| <= i < |r| ==> r[i] == ']' || r[i] == '}')
    && (forall i, j :: |b| <= i < j < |r| && r[j] == ']' ==> r[i] == ']')
  }

  lemma ClosersShape(b: string, s: string)
    ensures ClosedBy(Assemble(b, s), b)
  {
    var x, y := Closers(']', Count(s, '[') - Count(s, ']')), Closers('}', Count(s, '{') - Count(s, '}'));
    var r := b + x + y;
    forall i | |b| <= i < |r|
      ensures r[i] == (if i < |b| + |x| then ']' else '}')
    {
      if i < |b| + |x| {
        assert r[i] == x[i - |b|];
      } else {
        assert r[i] == y[i - |b| - |x|];
      }
    }
    assert r[..|b|] == b;
  }

  /**
   * The corrected repair changes the text only as `CloseText` says (one quote, or the cut of a
   * trailing comma and whitespace, or a dangling backslash replaced by a quote), then appends closers.
   */
  lemma RepairShape(s: string)
    requires s != []
    ensures ClosedBy(RepairTruncated(s), CloseText(s))
  {
    ClosersShape(CloseText(s), s);
  }

  /**
   * The repair as written appends exactly one quote when the scan ends inside a string, and cuts
   * a trailing comma only when it did not append one; then it appends closers.
   */
  lemma RepairAsWrittenShape(s: string)
    requires s != []
    ensures Scan(s).inString ==> ClosedBy(RepairAsWritten(s), s + "\"")
    ensures !Scan(s).inString ==> ClosedBy(RepairAsWritten(s), CutTrailingComma(s))
  {
    if Scan(s).inString {
      CutAfterQuote(s);
    }
    var b := CutTrailingComma(if Scan(s).inString then s + "\"" else s);
    ClosersShape(b, s);
  }
}
