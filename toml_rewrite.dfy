/** The two text rewrites the release scripts apply to `pyproject.toml`
    content (the scripts under `scripts/ci`), written out by hand instead of through a
    regular-expression engine:

    - the key-anchored substitution of Python's
      `re.compile(r'(?<=^KEY = ")[^"]+(?=")', re.MULTILINE).sub(value, text)`,
      for a key such as `name` or `version`;
    - the substitution of every occurrence of a fixed text (a pattern whose
      only special characters are escaped). */
module TomlRewrite {
  import opened Strings

  predicate QuoteFree(t: string)
  {
    forall k :: 0 <= k < |t| ==> t[k] != '"'
  }

  predicate NewlineFree(t: string)
  {
    forall k :: 0 <= k < |t| ==> t[k] != '\n'
  }

  // ---------------------------------------------------------------------------
  // The key-anchored substitution, as the regular-expression engine runs it

  /** The length of the longest quote-free prefix of `t`: what `[^"]+` can
      take from a position. */
  function RunLen(t: string): (r: nat)
    ensures r <= |t|
    ensures forall k :: 0 <= k < r ==> t[k] != '"'
    ensures r < |t| ==> t[r] == '"'
    decreases |t|
  {
    if t == [] || t[0] == '"' then 0 else 1 + RunLen(t[1..])
  }

  /** `t` ends with `KEY = ` that starts a line (`^` under `re.MULTILINE`
      holds at the start of the text and right after a newline). */
  predicate KeyLineEnd(key: string, t: string)
  {
    var w := key + " = ";
    |w| <= |t| && t[|t| - |w|..] == w && (|t| == |w| || t[|t| - |w| - 1] == '\n')
  }

  /** The lookbehind `(?<=^KEY = ")` holds at the end of `before`. */
  predicate LookBehind(key: string, before: string)
  {
    |before| >= 1 && before[|before| - 1] == '"' && KeyLineEnd(key, before[..|before| - 1])
  }

  /** A match starts between `before` and `after`: the lookbehind holds, a
      non-empty run of non-quote characters follows, and a quote closes it
      (the lookahead `(?=")`). */
  predicate MatchAt(key: string, before: string, after: string)
  {
    LookBehind(key, before) && 0 < RunLen(after) < |after|
  }

  /** The engine's left-to-right scan: at each position, a match is replaced
      by `v` and the scan resumes after it; otherwise one character is copied.
      `before` is the text already passed, which the lookbehind inspects. */
  function Scan(key: string, before: string, after: string, v: string): string
    decreases |after|
  {
    if after == [] then []
    else if MatchAt(key, before, after) then
      v + Scan(key, before + after[..RunLen(after)], after[RunLen(after)..], v)
    else
      [after[0]] + Scan(key, before + [after[0]], after[1..], v)
  }

  /** `pattern.sub(v, s)`. */
  function Sub(key: string, s: string, v: string): string
  {
    Scan(key, [], s, v)
  }

  predicate FoundFrom(key: string, before: string, after: string)
    decreases |after|
  {
    MatchAt(key, before, after) || (after != [] && FoundFrom(key, before + [after[0]], after[1..]))
  }

  /** `pattern.search(s)` finds a match. */
  predicate Found(key: string, s: string)
  {
    FoundFrom(key, [], s)
  }

  // ---------------------------------------------------------------------------
  // The same substitution, seen through the quotes of the text

  /** The text cut at its quotes: `s.split('"')`. */
  function Segments(s: string): (segs: seq<string>)
    ensures |segs| >= 1
    ensures forall j :: 0 <= j < |segs| ==> QuoteFree(segs[j])
    decreases |s|
  {
    var r := RunLen(s);
    if r == |s| then [s] else [s[..r]] + Segments(s[r + 1..])
  }

  /** The segment `segs[0]`, with the text `before` in front of its opening
      quote, is replaced: it is not empty, a quote closes it, and the text in
      front of its opening quote ends with `KEY = ` at the start of a line. */
  predicate Replaced(key: string, before: string, segs: seq<string>)
  {
    |segs| >= 2 && segs[0] != [] && LookBehind(key, before)
  }

  /** The segments after the substitution; `before` is the original text in
      front of `segs[0]`. */
  function RewriteFrom(key: string, before: string, segs: seq<string>, v: string): (r: seq<string>)
    ensures |r| == |segs|
    decreases |segs|
  {
    if segs == [] then []
    else [if Replaced(key, before, segs) then v else segs[0]] + RewriteFrom(key, before + segs[0] + "\"", segs[1..], v)
  }

  lemma RunLenQuoteFree(t: string, rest: string)
    requires QuoteFree(t)
    ensures RunLen(t) == |t|
    ensures RunLen(t + "\"" + rest) == |t|
  {
    var u := t + "\"" + rest;
    assert forall k :: 0 <= k < |t| ==> u[k] == t[k];
    assert u[|t|] == '"';
  }

  lemma {:induction false} JoinSegments(s: string)
    ensures Join("\"", Segments(s)) == s
    decreases |s|
  {
    var r := RunLen(s);
    if r < |s| {
      var tailSegs := Segments(s[r + 1..]);
      JoinSegments(s[r + 1..]);
      assert Segments(s) == [s[..r]] + tailSegs;
      assert ([s[..r]] + tailSegs)[1..] == tailSegs;
      assert Join("\"", Segments(s)) == s[..r] + "\"" + Join("\"", tailSegs);
      assert s == s[..r] + "\"" + s[r + 1..];
    }
  }

  lemma {:induction false} SegmentsJoin(segs: seq<string>)
    requires |segs| >= 1
    requires forall j :: 0 <= j < |segs| ==> QuoteFree(segs[j])
    ensures Segments(Join("\"", segs)) == segs
    decreases |segs|
  {
    if |segs| == 1 {
      RunLenQuoteFree(segs[0], "");
    } else {
      var rest := Join("\"", segs[1..]);
      var s := segs[0] + "\"" + rest;
      RunLenQuoteFree(segs[0], rest);
      SegmentsJoin(segs[1..]);
      assert s[..|segs[0]|] == segs[0];
      assert s[|segs[0]| + 1..] == rest;
      assert segs == [segs[0]] + segs[1..];
    }
  }

  /** Scanning a quote-free stretch at whose start no match begins copies it. */
  lemma {:induction false} ScanCopies(key: string, before: string, t: string, rest: string, v: string)
    requires QuoteFree(t)
    requires t != [] ==> !MatchAt(key, before, t + rest)
    ensures Scan(key, before, t + rest, v) == t + Scan(key, before + t, rest, v)
    decreases |t|
  {
    if t != [] {
      var after := t + rest;
      assert after[0] == t[0] && after[1..] == t[1..] + rest;
      var b := before + [t[0]];
      assert !LookBehind(key, b);
      assert Scan(key, before, after, v) == [t[0]] + Scan(key, b, t[1..] + rest, v);
      ScanCopies(key, b, t[1..], rest, v);
      assert b + t[1..] == before + t;
      var x := Scan(key, before + t, rest, v);
      assert t + x == [t[0]] + (t[1..] + x);
    } else {
      assert t + rest == rest && before + t == before;
    }
  }

  /** A quote never starts a match: the scan copies it. */
  lemma ScanQuote(key: string, before: string, tail: string, v: string)
    ensures Scan(key, before, "\"" + tail, v) == "\"" + Scan(key, before + "\"", tail, v)
  {
    var rest := "\"" + tail;
    assert RunLen(rest) == 0;
    assert rest[1..] == tail;
  }

  /** A quote-free run up to a quote is replaced by `v` when it is not empty
      and the lookbehind holds in front of it, and copied otherwise. */
  lemma ScanRun(key: string, before: string, s0: string, tail: string, v: string)
    requires QuoteFree(s0)
    ensures Scan(key, before, s0 + ("\"" + tail), v) ==
      (if s0 != [] && LookBehind(key, before) then v else s0) + Scan(key, before + s0, "\"" + tail, v)
  {
    var rest := "\"" + tail;
    var after := s0 + rest;
    RunLenQuoteFree(s0, tail);
    assert after == s0 + "\"" + tail;
    if s0 != [] && LookBehind(key, before) {
      assert after[..|s0|] == s0 && after[|s0|..] == rest;
    } else {
      ScanCopies(key, before, s0, rest, v);
    }
  }

  /** One quoted segment: the scan emits the segment, or `v` in its place,
      then the closing quote, and goes on after the quote. */
  lemma ScanHead(key: string, before: string, s0: string, tail: string, v: string)
    requires QuoteFree(s0)
    ensures Scan(key, before, s0 + "\"" + tail, v) ==
      (if s0 != [] && LookBehind(key, before) then v else s0) + "\"" + Scan(key, before + s0 + "\"", tail, v)
  {
    assert s0 + "\"" + tail == s0 + ("\"" + tail);
    ScanRun(key, before, s0, tail, v);
    ScanQuote(key, before + s0, tail, v);
  }

  /** The scan over quoted segments performs the segment rewrite. */
  lemma {:induction false} ScanSegments(key: string, before: string, segs: seq<string>, v: string)
    requires |segs| >= 1
    requires forall j :: 0 <= j < |segs| ==> QuoteFree(segs[j])
    ensures Scan(key, before, Join("\"", segs), v) == Join("\"", RewriteFrom(key, before, segs, v))
    decreases |segs|
  {
    var s0 := segs[0];
    if |segs| == 1 {
      RunLenQuoteFree(s0, "");
      ScanCopies(key, before, s0, [], v);
      assert s0 + [] == s0;
    } else {
      var next := before + s0 + "\"";
      ScanHead(key, before, s0, Join("\"", segs[1..]), v);
      ScanSegments(key, next, segs[1..], v);
      var rw := RewriteFrom(key, next, segs[1..], v);
      var head := if Replaced(key, before, segs) then v else s0;
      assert RewriteFrom(key, before, segs, v) == [head] + rw;
      assert ([head] + rw)[1..] == rw;
    }
  }

  /** The substitution keeps every quote and every segment between quotes,
      except that each replaced segment becomes `v`. */
  lemma SubBySegments(key: string, s: string, v: string)
    ensures Sub(key, s, v) == Join("\"", RewriteFrom(key, [], Segments(s), v))
  {
    JoinSegments(s);
    ScanSegments(key, [], Segments(s), v);
  }

  /** With no match the text comes back unchanged. */
  lemma {:induction false} ScanWithoutMatch(key: string, before: string, after: string, v: string)
    requires !FoundFrom(key, before, after)
    ensures Scan(key, before, after, v) == after
    decreases |after|
  {
    if after != [] {
      ScanWithoutMatch(key, before + [after[0]], after[1..], v);
      assert after == [after[0]] + after[1..];
    }
  }

  lemma SubWithoutMatch(key: string, s: string, v: string)
    requires !Found(key, s)
    ensures Sub(key, s, v) == s
  {
    ScanWithoutMatch(key, [], s, v);
  }

  // ---------------------------------------------------------------------------
  // Rewriting twice

  /** `t` ends with `KEY = ` right after a newline. */
  predicate NewlineKeyEnd(key: string, t: string)
  {
    var w := key + " = ";
    |w| < |t| && t[|t| - |w|..] == w && t[|t| - |w| - 1] == '\n'
  }

  /** After a quote, the text ends with a line-initial `KEY = ` exactly when
      the segment since that quote does. */
  lemma KeyLineEndAfterQuote(key: string, b: string, t: string)
    requires QuoteFree(key)
    requires |b| > 0 && b[|b| - 1] == '"'
    ensures KeyLineEnd(key, b + t) <==> NewlineKeyEnd(key, t)
  {
    var w := key + " = ";
    var bt := b + t;
    assert QuoteFree(w) by {
      assert forall k :: 0 <= k < |key| ==> w[k] == key[k];
    }
    if KeyLineEnd(key, bt) {
      if |t| < |w| {
        QuoteInWindow(b, t, |w|);
        assert false;
      } else if |t| == |w| {
        assert false;
      }
      assert t[|t| - |w|..] == bt[|bt| - |w|..];
      assert t[|t| - |w| - 1] == bt[|bt| - |w| - 1];
    }
    if NewlineKeyEnd(key, t) {
      assert t[|t| - |w|..] == bt[|bt| - |w|..];
      assert t[|t| - |w| - 1] == bt[|bt| - |w| - 1];
    }
  }

  /** A window at the end of `b + t` longer than `t` holds the last
      character of `b`. */
  lemma QuoteInWindow(b: string, t: string, n: nat)
    requires |b| > 0 && b[|b| - 1] == '"'
    requires |t| < n <= |b + t|
    ensures !QuoteFree((b + t)[|b + t| - n..])
  {
    var bt := b + t;
    assert bt[|bt| - n..][|b| - 1 - (|bt| - n)] == bt[|b| - 1];
  }

  /** The text in front of a segment, in the first pass and in the second. */
  predicate SameStart(b1: string, b2: string)
  {
    (b1 == [] && b2 == []) || (|b1| > 0 && |b2| > 0 && b1[|b1| - 1] == '"' && b2[|b2| - 1] == '"')
  }

  lemma {:induction false} RewriteAgain(key: string, b1: string, b2: string, segs: seq<string>, v: string)
    requires QuoteFree(key) && NewlineFree(v)
    requires SameStart(b1, b2)
    requires LookBehind(key, b2) ==> LookBehind(key, b1)
    ensures RewriteFrom(key, b2, RewriteFrom(key, b1, segs, v), v) == RewriteFrom(key, b1, segs, v)
    decreases |segs|
  {
    if segs != [] {
      var r := RewriteFrom(key, b1, segs, v);
      var h := r[0];
      assert r == [h] + RewriteFrom(key, b1 + segs[0] + "\"", segs[1..], v);
      assert r[1..] == RewriteFrom(key, b1 + segs[0] + "\"", segs[1..], v);
      var b1n, b2n := b1 + segs[0] + "\"", b2 + h + "\"";
      assert b1n[..|b1n| - 1] == b1 + segs[0];
      assert b2n[..|b2n| - 1] == b2 + h;
      if Replaced(key, b1, segs) {
        KeyLineEndAfterQuote(key, b2, h);
        assert !NewlineKeyEnd(key, v) by {
          var w := key + " = ";
          if |w| < |v| { assert v[|v| - |w| - 1] != '\n'; }
        }
      } else if b1 != [] {
        KeyLineEndAfterQuote(key, b1, segs[0]);
        KeyLineEndAfterQuote(key, b2, segs[0]);
      }
      RewriteAgain(key, b1n, b2n, segs[1..], v);
    }
  }

  /** Rewriting already rewritten text with the same value changes nothing
      more, provided the value holds no quote and no newline. */
  lemma SubIdempotent(key: string, s: string, v: string)
    requires QuoteFree(key) && QuoteFree(v) && NewlineFree(v)
    ensures Sub(key, Sub(key, s, v), v) == Sub(key, s, v)
  {
    var r := RewriteFrom(key, [], Segments(s), v);
    SubBySegments(key, s, v);
    assert forall j :: 0 <= j < |r| ==> QuoteFree(r[j]) by {
      RewriteQuoteFree(key, [], Segments(s), v);
    }
    SegmentsJoin(r);
    SubBySegments(key, Join("\"", r), v);
    RewriteAgain(key, [], [], Segments(s), v);
  }

  lemma {:induction false} RewriteQuoteFree(key: string, before: string, segs: seq<string>, v: string)
    requires QuoteFree(v)
    requires forall j :: 0 <= j < |segs| ==> QuoteFree(segs[j])
    ensures forall j :: 0 <= j < |segs| ==> QuoteFree(RewriteFrom(key, before, segs, v)[j])
    decreases |segs|
  {
    if segs != [] {
      RewriteQuoteFree(key, before + segs[0] + "\"", segs[1..], v);
      var r := RewriteFrom(key, before, segs, v);
      assert forall j :: 1 <= j < |segs| ==> r[j] == RewriteFrom(key, before + segs[0] + "\"", segs[1..], v)[j - 1];
    }
  }

  // ---------------------------------------------------------------------------
  // Examples

  /** Three segments joined by quotes. */
  lemma Join3(a: string, b: string, c: string)
    ensures Join("\"", [a, b, c]) == a + "\"" + b + "\"" + c
  {
    assert [a, b, c][1..] == [b, c] && [b, c][1..] == [c];
  }

  /** A quote followed by `KEY = ` at the very start satisfies the lookbehind. */
  lemma LookBehindAtStart(key: string, prefix: string)
    requires KeyLineEnd(key, prefix)
    ensures LookBehind(key, prefix + "\"")
  {
    var b := prefix + "\"";
    assert b[..|b| - 1] == prefix;
  }

  lemma ExampleKeyLine()
    ensures KeyLineEnd("name", "[tool.other]\nname = ")
  {
    var s0 := "[tool.other]\nname = ";
    assert s0[|s0| - 7..] == "name = ";
  }

  lemma ExampleRewrite(s0: string, s1: string)
    requires s0 == "[tool.other]\nname = " && s1 == "a\nb"
    ensures RewriteFrom("name", [], [s0, s1, ""], "x") == [s0, "x", ""]
  {
    var b1 := s0 + "\"";
    assert [] + s0 + "\"" == b1;
    ExampleKeyLine();
    LookBehindAtStart("name", s0);
    assert [s0, s1, ""][1..] == [s1, ""];
    assert [s1, ""][1..] == [""];
    assert RewriteFrom("name", b1 + s1 + "\"", [""], "x") == [""];
    assert RewriteFrom("name", b1, [s1, ""], "x") == ["x", ""];
  }

  /** The value may span lines, and the key is found under any table: the
      match is not limited to `[project]`. */
  lemma SpansLinesAnyTable()
    ensures Sub("name", "[tool.other]\nname = \"a\nb\"", "x") == "[tool.other]\nname = \"x\""
  {
    var s0, s1 := "[tool.other]\nname = ", "a\nb";
    assert QuoteFree(s0) && QuoteFree(s1) && QuoteFree("") && QuoteFree("x");
    assert "[tool.other]\nname = \"a\nb\"" == s0 + "\"" + s1 + "\"" + "";
    assert "[tool.other]\nname = \"x\"" == s0 + "\"" + "x" + "\"" + "";
    Join3(s0, s1, "");
    Join3(s0, "x", "");
    SegmentsJoin([s0, s1, ""]);
    SubBySegments("name", "[tool.other]\nname = \"a\nb\"", "x");
    ExampleRewrite(s0, s1);
  }

  /** Four segments joined by quotes. */
  lemma Join4(a: string, b: string, c: string, d: string)
    ensures Join("\"", [a, b, c, d]) == a + "\"" + b + "\"" + c + "\"" + d
  {
    assert [a, b, c, d][1..] == [b, c, d];
    Join3(b, c, d);
  }

  lemma CounterFirst(key: string, s0: string, v: string)
    requires key == "version" && s0 == "version = " && v == "\nversion = "
    ensures RewriteFrom(key, [], [s0, "1", "abc", ""], v) == [s0, v, "abc", ""]
  {
    assert KeyLineEnd(key, s0);
    LookBehindAtStart(key, s0);
    var b1 := s0 + "\"";
    assert [] + s0 + "\"" == b1;
    var b2 := b1 + "1" + "\"";
    assert !LookBehind(key, b2) by {
      assert b2[..|b2| - 1] == b1 + "1";
      KeyLineEndAfterQuote(key, b1, "1");
    }
    assert RewriteFrom(key, b2 + "abc" + "\"", [""], v) == [""];
    assert RewriteFrom(key, b2, ["abc", ""], v) == ["abc", ""];
    assert RewriteFrom(key, b1, ["1", "abc", ""], v) == [v, "abc", ""];
  }

  lemma CounterSecond(key: string, s0: string, v: string)
    requires key == "version" && s0 == "version = " && v == "\nversion = "
    ensures RewriteFrom(key, [], [s0, v, "abc", ""], v)[2] == v
  {
    assert KeyLineEnd(key, s0);
    LookBehindAtStart(key, s0);
    var b1 := s0 + "\"";
    assert [] + s0 + "\"" == b1;
    var c2 := b1 + v + "\"";
    assert LookBehind(key, c2) by {
      assert c2[..|c2| - 1] == b1 + v;
      assert v[|v| - 10..] == "version = ";
      KeyLineEndAfterQuote(key, b1, v);
    }
    assert RewriteFrom(key, c2, ["abc", ""], v)[0] == v;
    assert RewriteFrom(key, b1, [v, "abc", ""], v)[1] == v;
  }

  /** Joining quote-free segments loses nothing. */
  lemma JoinInjective(r1: seq<string>, r2: seq<string>)
    requires |r1| >= 1 && forall j :: 0 <= j < |r1| ==> QuoteFree(r1[j])
    requires |r2| >= 1 && forall j :: 0 <= j < |r2| ==> QuoteFree(r2[j])
    requires Join("\"", r1) == Join("\"", r2)
    ensures r1 == r2
  {
    SegmentsJoin(r1);
    SegmentsJoin(r2);
  }

  lemma CounterOnce(key: string, s: string, v: string)
    requires key == "version" && s == "version = \"1\"abc\"" && v == "\nversion = "
    ensures Sub(key, s, v) == Join("\"", ["version = ", v, "abc", ""])
  {
    var s0 := "version = ";
    assert s == s0 + "\"" + "1" + "\"" + "abc" + "\"" + "";
    assert QuoteFree(s0) && QuoteFree("1") && QuoteFree("abc") && QuoteFree("");
    Join4(s0, "1", "abc", "");
    SegmentsJoin([s0, "1", "abc", ""]);
    SubBySegments(key, s, v);
    CounterFirst(key, s0, v);
  }

  lemma CounterTwice(key: string, v: string)
    requires key == "version" && v == "\nversion = "
    ensures var first := ["version = ", v, "abc", ""];
      Sub(key, Join("\"", first), v) != Join("\"", first)
  {
    var s0 := "version = ";
    var first := [s0, v, "abc", ""];
    assert forall j :: 0 <= j < |first| ==> QuoteFree(first[j]);
    SegmentsJoin(first);
    SubBySegments(key, Join("\"", first), v);
    CounterSecond(key, s0, v);
    var second := RewriteFrom(key, [], first, v);
    RewriteQuoteFree(key, [], first, v);
    assert second[2] != first[2];
    if Join("\"", second) == Join("\"", first) {
      JoinInjective(second, first);
    }
  }

  /** A value holding a newline followed by `version = ` is not stable: the
      second rewrite finds a match the first one created. */
  lemma NewlineValueNotIdempotent()
    ensures var s, v := "version = \"1\"abc\"", "\nversion = ";
      Sub("version", Sub("version", s, v), v) != Sub("version", s, v)
  {
    CounterOnce("version", "version = \"1\"abc\"", "\nversion = ");
    CounterTwice("version", "\nversion = ");
  }

  // ---------------------------------------------------------------------------
  // Substitution of a fixed text

  /** `pat` occurs in `s` at position `i`. */
  predicate OccursAt(s: string, pat: string, i: int)
  {
    0 <= i && i + |pat| <= |s| && s[i..i + |pat|] == pat
  }

  /** `pattern.search(s)` for a fixed pattern. */
  predicate Occurs(s: string, pat: string)
  {
    exists i :: 0 <= i <= |s| && OccursAt(s, pat, i)
  }

  /** `pattern.sub(rep, s)` for a fixed, non-empty pattern: the occurrences,
      taken left to right without overlap, are each replaced by `rep`. */
  function ReplaceAll(s: string, pat: string, rep: string): string
    requires |pat| > 0
    decreases |s|
  {
    if s == [] then []
    else if OccursAt(s, pat, 0) then rep + ReplaceAll(s[|pat|..], pat, rep)
    else [s[0]] + ReplaceAll(s[1..], pat, rep)
  }

  /** The number of occurrences `ReplaceAll` replaces. */
  function Count(s: string, pat: string): nat
    requires |pat| > 0
    decreases |s|
  {
    if s == [] then 0
    else if OccursAt(s, pat, 0) then 1 + Count(s[|pat|..], pat)
    else Count(s[1..], pat)
  }

  /** Without an occurrence the text is unchanged. */
  lemma {:induction false} ReplaceAllAbsent(s: string, pat: string, rep: string)
    requires |pat| > 0 && !Occurs(s, pat)
    ensures ReplaceAll(s, pat, rep) == s
    ensures Count(s, pat) == 0
    decreases |s|
  {
    if s != [] {
      assert !OccursAt(s, pat, 0);
      assert !Occurs(s[1..], pat) by {
        if Occurs(s[1..], pat) {
          var i: int :| 0 <= i <= |s[1..]| && OccursAt(s[1..], pat, i);
          assert s[i + 1..i + 1 + |pat|] == s[1..][i..i + |pat|];
          assert OccursAt(s, pat, i + 1);
        }
      }
      ReplaceAllAbsent(s[1..], pat, rep);
      assert s == [s[0]] + s[1..];
    }
  }

  /** Text in front of the first occurrence is copied, the occurrence is
      replaced, and the substitution continues after it. */
  lemma {:induction false} ReplaceAllFirst(a: string, b: string, pat: string, rep: string)
    requires |pat| > 0
    requires forall i :: 0 <= i < |a| ==> !OccursAt(a + pat + b, pat, i)
    ensures ReplaceAll(a + pat + b, pat, rep) == a + rep + ReplaceAll(b, pat, rep)
    ensures Count(a + pat + b, pat) == 1 + Count(b, pat)
    decreases |a|
  {
    var s := a + pat + b;
    if a == [] {
      assert s == pat + b;
      assert s[..|pat|] == pat && s[|pat|..] == b;
    } else {
      assert !OccursAt(s, pat, 0);
      assert s[1..] == a[1..] + pat + b;
      forall i | 0 <= i < |a[1..]| ensures !OccursAt(a[1..] + pat + b, pat, i) {
        assert !OccursAt(s, pat, i + 1);
        assert s[i + 1..i + 1 + |pat|] == s[1..][i..i + |pat|];
      }
      ReplaceAllFirst(a[1..], b, pat, rep);
      assert a == [a[0]] + a[1..];
    }
  }

  /** Each replacement changes the length by `|rep| - |pat|`. */
  lemma {:induction false} ReplaceAllLength(s: string, pat: string, rep: string)
    requires |pat| > 0
    ensures |ReplaceAll(s, pat, rep)| == |s| + Count(s, pat) * (|rep| - |pat|)
    decreases |s|
  {
    if s != [] {
      var d := |rep| - |pat|;
      if OccursAt(s, pat, 0) {
        var t := s[|pat|..];
        ReplaceAllLength(t, pat, rep);
        var c := Count(t, pat);
        assert |ReplaceAll(s, pat, rep)| == |rep| + |ReplaceAll(t, pat, rep)|;
        assert Count(s, pat) == 1 + c;
        assert |ReplaceAll(t, pat, rep)| == |t| + c * d;
        Distribute(c, d);
      } else {
        var t := s[1..];
        ReplaceAllLength(t, pat, rep);
        assert |ReplaceAll(s, pat, rep)| == 1 + |ReplaceAll(t, pat, rep)|;
        assert Count(s, pat) == Count(t, pat);
      }
    }
  }

  lemma Distribute(c: int, d: int)
    ensures (1 + c) * d == d + c * d
  {
  }

  /** A text with an occurrence has at least one replacement. */
  lemma {:induction false} OccursCounted(s: string, pat: string)
    requires |pat| > 0 && Occurs(s, pat)
    ensures Count(s, pat) > 0
    decreases |s|
  {
    if !OccursAt(s, pat, 0) {
      var i: int :| 0 <= i <= |s| && OccursAt(s, pat, i);
      assert i > 0;
      assert s[1..][i - 1..i - 1 + |pat|] == s[i..i + |pat|];
      assert OccursAt(s[1..], pat, i - 1);
      OccursCounted(s[1..], pat);
    }
  }
}
