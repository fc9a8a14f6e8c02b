/**
 * `extract_json_from_text` (src/schemas.py:17-54): pull a JSON candidate out of prose.
 *
 * The three fence patterns `\x60\x60\x60json\s*([\s\S]*?)\s*\x60\x60\x60`, `\x60\x60\x60\s*([\s\S]*?)\s*\x60\x60\x60`
 * and `\x60([\s\S]*?)\x60` are modelled exactly: the lazy group of a match ends at the
 * first closing fence after the opener, and the `\s*` around it only removes whitespace
 * that the `.strip()` applied to every match removes anyway. So each match, once stripped,
 * is `Strip` of the text between an opener and the first closer that follows it, and
 * `re.findall` resumes after that closer.
 */
module Extract {
  import opened Wrappers
  import opened Text

  /**
   * The groups `re.findall` returns for `open ... close` with a lazy group, before `.strip()`,
   * scanning `t` from index `from`.
   */
  function Delimited(t: string, open: string, close: string, from: nat): (groups: seq<string>)
    requires open != [] && close != [] && from <= |t|
    decreases |t| - from
  {
    var i := IndexOf(t, open, from);
    if i == -1 then []
    else
      var p := IndexOf(t, close, i + |open|);
      if p == -1 then []
      else [t[i + |open|..p]] + Delimited(t, open, close, p + |close|)
  }

  /** Between `a` and the first occurrence `p` of `close` at or after `a`, `close` does not occur. */
  lemma NoCloserBefore(t: string, close: string, a: nat, p: nat)
    requires close != [] && a <= p <= |t| && IndexOf(t, close, a) == p
    ensures Avoids(t[a..p], close)
  {
    IndexOfFirst(t, close, a);
    var g := t[a..p];
    forall k | 0 <= k <= |g|
      ensures !OccursAt(g, close, k)
    {
      OccursInSlice(t, close, a, p, k);
      if k < |g| {
        assert !OccursAt(t, close, a + k);
      } else {
        OccursAtIff(g, close, k);
      }
    }
  }

  /** The groups are lazy: the closer occurs in none of them. */
  lemma {:induction false} DelimitedLazy(t: string, open: string, close: string, from: nat)
    requires open != [] && close != [] && from <= |t|
    ensures forall k :: 0 <= k < |Delimited(t, open, close, from)| ==> Avoids(Delimited(t, open, close, from)[k], close)
    decreases |t| - from
  {
    var i := IndexOf(t, open, from);
    if i != -1 {
      var p := IndexOf(t, close, i + |open|);
      if p != -1 {
        NoCloserBefore(t, close, i + |open|, p);
        DelimitedLazy(t, open, close, p + |close|);
        DelimitedStep(t, open, close, from, i, p);
      }
    }
  }

  /** One match found at `i` and closed at `p`: the first group, then the groups after `p`. */
  lemma DelimitedStep(t: string, open: string, close: string, from: nat, i: nat, p: nat)
    requires open != [] && close != [] && from <= |t|
    requires IndexOf(t, open, from) == i && IndexOf(t, close, i + |open|) == p
    ensures p + |close| <= |t|
    ensures Delimited(t, open, close, from) == [t[i + |open|..p]] + Delimited(t, open, close, p + |close|)
  {
  }

  /** How many fence patterns there are; they are tried in the order 0, 1, 2. */
  const FenceCount: nat := 3

  /** The opener of fence pattern `q`. */
  function Opener(q: nat): (o: string)
    requires q < FenceCount
    ensures o != []
  {
    if q == 0 then "```json" else if q == 1 then "```" else "`"
  }

  /** The closer of fence pattern `q`. */
  function Closer(q: nat): (c: string)
    requires q < FenceCount
    ensures c != []
  {
    if q < 2 then "```" else "`"
  }

  /** A candidate the source accepts: it starts with `{` or `[`. */
  predicate OpensJson(m: string) {
    m != [] && (m[0] == '{' || m[0] == '[')
  }

  /** Every match, stripped. */
  function StripAll(ms: seq<string>): (ss: seq<string>)
    ensures |ss| == |ms|
  {
    seq(|ms|, k requires 0 <= k < |ms| => Strip(ms[k]))
  }

  /** The first stripped match, from index `i` on, that opens a JSON value. */
  function FirstOpening(ss: seq<string>, i: nat): (r: Option<string>)
    requires i <= |ss|
    ensures r.Some? ==> OpensJson(r.value)
    decreases |ss| - i
  {
    if i == |ss| then None
    else if OpensJson(ss[i]) then Some(ss[i])
    else FirstOpening(ss, i + 1)
  }

  /** No candidate is found exactly when no stripped match from `i` on opens a JSON value. */
  lemma {:induction false} FirstOpeningNone(ss: seq<string>, i: nat)
    requires i <= |ss|
    ensures FirstOpening(ss, i).None? <==> forall k :: i <= k < |ss| ==> !OpensJson(ss[k])
    decreases |ss| - i
  {
    if i < |ss| && !OpensJson(ss[i]) {
      FirstOpeningNone(ss, i + 1);
    }
  }

  /** The candidate is the first stripped match that opens a JSON value. */
  lemma {:induction false} FirstOpeningAt(ss: seq<string>, i: nat, k: nat)
    requires i <= k < |ss| && OpensJson(ss[k])
    requires forall k' :: i <= k' < k ==> !OpensJson(ss[k'])
    ensures FirstOpening(ss, i) == Some(ss[k])
    decreases k - i
  {
    if i < k {
      FirstOpeningAt(ss, i + 1, k);
    }
  }

  /** The candidate of fence pattern `q`: the first of its matches that, stripped, opens a JSON value. */
  function FenceCandidate(t: string, q: nat): (r: Option<string>)
    requires q < FenceCount
  {
    FirstOpening(StripAll(Delimited(t, Opener(q), Closer(q), 0)), 0)
  }

  /** Strategy 2: the patterns from `q` on, in order, each over all its matches. */
  function FirstFenced(t: string, q: nat): (r: Option<string>)
    requires q <= FenceCount
    ensures r.Some? ==> OpensJson(r.value)
    decreases FenceCount - q
  {
    if q == FenceCount then None
    else if FenceCandidate(t, q).Some? then FenceCandidate(t, q)
    else FirstFenced(t, q + 1)
  }

  /**
   * Strategies 3 and 4: from the first `o` to the last `c`, inclusive, when that `c`
   * comes after that `o`.
   */
  function Span(t: string, o: char, c: char): (r: Option<string>)
    ensures r.Some? ==> |r.value| >= 2 && r.value[0] == o && r.value[|r.value| - 1] == c
  {
    var i := Find(t, o);
    var j := RFind(t, c);
    if i != -1 && j > i then Some(t[i..j + 1]) else None
  }

  /** A span is found, from the first `o` to the last `c`, exactly when some `c` follows some `o`. */
  lemma SpanIsWidest(t: string, o: char, c: char)
    ensures Span(t, o, c).Some? ==> exists i, j :: (0 <= i < j < |t| && t[i] == o && t[j] == c
              && o !in t[..i] && c !in t[j + 1..] && Span(t, o, c).value == t[i..j + 1])
    ensures Span(t, o, c).None? <==> forall i, j :: 0 <= i < j < |t| && t[i] == o ==> t[j] != c
  {
    var i0, j0 := Find(t, o), RFind(t, c);
    if Span(t, o, c).None? && i0 != -1 && j0 != -1 {
      forall i, j | 0 <= i < j < |t| && t[i] == o
        ensures t[j] != c
      {
        if j > j0 {
          assert t[j0 + 1..][j - j0 - 1] == t[j];
        }
      }
    }
  }

  predicate Enclosed(t: string, o: char, c: char) {
    t != [] && t[0] == o && t[|t| - 1] == c
  }

  /** The specification of `extract_json_from_text`. */
  function ExtractJson(text: string): (r: Option<string>)
    ensures text == [] ==> r.None?
    ensures r.Some? ==> OpensJson(r.value)
  {
    if text == [] then None else FromStripped(Strip(text))
  }

  /** The four strategies on the stripped text. */
  function FromStripped(t: string): (r: Option<string>)
    ensures r.Some? ==> OpensJson(r.value)
  {
    if Enclosed(t, '{', '}') || Enclosed(t, '[', ']') then Some(t)
    else if FirstFenced(t, 0).Some? then FirstFenced(t, 0)
    else if Span(t, '{', '}').Some? then Span(t, '{', '}')
    else Span(t, '[', ']')
  }

  /** The loop over one pattern's matches: the first that, stripped, starts with `{` or `[`. */
  method FirstOpeningMatch(matches: seq<string>) returns (r: Option<string>)
    ensures r == FirstOpening(StripAll(matches), 0)
  {
    var k := 0;
    while k < |matches|
      invariant 0 <= k <= |matches|
      invariant FirstOpening(StripAll(matches), 0) == FirstOpening(StripAll(matches), k)
    {
      var m := Strip(matches[k]);
      assert StripAll(matches)[k] == m;
      if m != [] && (m[0] == '{' || m[0] == '[') {
        return Some(m);
      }
      k := k + 1;
    }
    return None;
  }

  /** Strategy 2 as the source runs it: each pattern in order, each of its matches in order. */
  method FencedCandidate(t: string) returns (r: Option<string>)
    ensures r == FirstFenced(t, 0)
  {
    var q := 0;
    while q < FenceCount
      invariant 0 <= q <= FenceCount
      invariant FirstFenced(t, 0) == FirstFenced(t, q)
    {
      var matches := Delimited(t, Opener(q), Closer(q), 0);
      r := FirstOpeningMatch(matches);
      if r.Some? {
        return;
      }
      q := q + 1;
    }
    return None;
  }

  /** Strategies 3 and 4 as the source runs them, with `find` and `rfind`. */
  method SpanCandidate(t: string, o: char, c: char) returns (r: Option<string>)
    ensures r == Span(t, o, c)
  {
    var start := Find(t, o);
    var end := RFind(t, c);
    if start != -1 && end > start {
      return Some(t[start..end + 1]);
    }
    return None;
  }

  /** The four strategies on the stripped text, in order. */
  method StrippedCandidate(t: string) returns (r: Option<string>)
    ensures r == FromStripped(t)
  {
    if t != [] && t[0] == '{' && t[|t| - 1] == '}' {
      return Some(t);
    }
    if t != [] && t[0] == '[' && t[|t| - 1] == ']' {
      return Some(t);
    }
    r := FencedCandidate(t);
    if r.None? {
      r := SpanCandidate(t, '{', '}');
      if r.None? {
        r := SpanCandidate(t, '[', ']');
      }
    }
  }

  /** `extract_json_from_text`. */
  method ExtractJsonFromText(text: string) returns (r: Option<string>)
    ensures r == ExtractJson(text)
  {
    if text == [] {
      return None;
    }
    r := StrippedCandidate(Strip(text));
  }

  /** Text that is already one object or array, once trimmed, is returned trimmed and unchanged. */
  lemma EnclosedReturnedUnchanged(text: string)
    requires Enclosed(Strip(text), '{', '}') || Enclosed(Strip(text), '[', ']')
    ensures ExtractJson(text) == Some(Strip(text))
  {
  }

  /**
   * When neither the trimmed text nor any fence yields a candidate, the result is the
   * span from the first `{` to the last `}`, or failing that from the first `[` to the
   * last `]`, and nothing when neither span exists.
   */
  lemma SpanFallback(text: string)
    requires text != []
    requires !Enclosed(Strip(text), '{', '}') && !Enclosed(Strip(text), '[', ']')
    requires FirstFenced(Strip(text), 0).None?
    ensures Span(Strip(text), '{', '}').Some? ==> ExtractJson(text) == Span(Strip(text), '{', '}')
    ensures Span(Strip(text), '{', '}').None? ==> ExtractJson(text) == Span(Strip(text), '[', ']')
  {
  }

  /** In `pre + "```" + ...` from `from`, where `pre` has no backtick, the first "```" is right after `pre`. */
  lemma FirstFenceAfter(t: string, from: nat, pre: string)
    requires from + |pre| + 3 <= |t| && t[from..from + |pre|] == pre && '`' !in pre
    requires t[from + |pre|..from + |pre| + 3] == "```"
    ensures IndexOf(t, "```", from) == from + |pre|
  {
    var e := from + |pre|;
    OccursAtIff(t, "```", e);
    forall k | from <= k < e
      ensures !OccursAt(t, "```", k)
    {
      OccursAtIff(t, "```", k);
      assert t[k] == t[from..e][k - from];
      if k + 3 <= |t| {
        assert t[k..k + 3][0] == t[k];
      }
    }
    IndexOfIs(t, "```", from, e);
  }

  /** Stripping text that starts with a non-space keeps every prefix that ends in a non-space. */
  lemma StripKeepsPrefix(text: string, n: nat)
    requires 0 < n <= |text| && !IsSpace(text[0]) && !IsSpace(text[n - 1])
    ensures n <= |Strip(text)| && Strip(text)[..n] == text[..n]
  {
    assert StripLeft(text) == text;
    StripRightTrims(text);
    var r := StripRight(text);
    forall k | |r| <= k < |text|
      ensures IsSpace(text[k])
    {
      assert text[|r|..][k - |r|] == text[k];
    }
  }

  /** The first group of "```json" + body + "```" + ..., when `body` holds no backtick. */
  lemma FirstGroup(t: string, body: string)
    requires '`' !in body && StartsWith(t, "```json" + body + "```")
    ensures Delimited(t, "```json", "```", 0) != [] && Delimited(t, "```json", "```", 0)[0] == body
  {
    var n := 7 + |body| + 3;
    assert t[..n] == "```json" + body + "```";
    assert t[..7] == "```json";
    OccursAtIff(t, "```json", 0);
    IndexOfIs(t, "```json", 0, 0);
    assert t[7..7 + |body|] == body;
    assert t[7 + |body|..n] == "```";
    FirstFenceAfter(t, 7, body);
  }

  /**
   * A fenced ```json block whose body holds no backtick and opens a JSON value, followed by
   * any prose: the candidate is the stripped body.
   */
  lemma FencedBlockExtracted(body: string, prose: string)
    requires '`' !in body && OpensJson(Strip(body))
    ensures ExtractJson("```json" + body + "```" + prose) == Some(Strip(body))
  {
    var text := "```json" + body + "```" + prose;
    var n := 7 + |body| + 3;
    assert text[..n] == "```json" + body + "```";
    StripKeepsPrefix(text, n);
    var t := Strip(text);
    assert t[..n] == text[..n];
    assert StartsWith(t, "```json" + body + "```");
    FirstGroup(t, body);
    FencedFirst(t, body);
    assert !Enclosed(t, '{', '}') && !Enclosed(t, '[', ']');
  }

  /** When the first ```json group strips to a JSON opener, strategy 2 returns it. */
  lemma FencedFirst(t: string, body: string)
    requires OpensJson(Strip(body))
    requires Delimited(t, "```json", "```", 0) != [] && Delimited(t, "```json", "```", 0)[0] == body
    ensures FirstFenced(t, 0) == Some(Strip(body))
  {
    var ss := StripAll(Delimited(t, Opener(0), Closer(0), 0));
    assert ss[0] == Strip(body);
    FirstOpeningAt(ss, 0, 0);
  }
}
