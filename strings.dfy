/**
 * The JavaScript string operations the two handlers use, on `seq<char>`:
 * `trim`, `substring(0, n)`, `includes`, `join(' ')` and `split(/\s+/)`.
 */
module Strings {
  import opened Wrappers

  /**
   * A JavaScript string value that may be missing, tested for truthiness:
   * only a missing value and the empty string are falsy.
   */
  predicate Truthy(v: Option<string>)
    ensures Truthy(v) <==> v != None && v != Some("")
  {
    v.Some? && v.value != ""
  }

  /** The whitespace class used by `trim` and `\s` (ASCII part only). */
  predicate IsWhitespace(c: char) {
    c == ' ' || c == '\t' || c == '\n' || c == '\r' || c == 11 as char || c == 12 as char
  }

  predicate NoWhitespace(s: string) {
    forall i :: 0 <= i < |s| ==> !IsWhitespace(s[i])
  }

  predicate AllWhitespace(s: string) {
    forall i :: 0 <= i < |s| ==> IsWhitespace(s[i])
  }

  /** `r` is `s` with the blank run `s[..i]` cut from its front and a blank run cut from its back. */
  predicate TrimmedAt(s: string, i: int, r: string) {
    && 0 <= i <= |s| - |r| && r == s[i..i + |r|]
    && (forall k :: 0 <= k < i ==> IsWhitespace(s[k]))
    && (forall k :: i + |r| <= k < |s| ==> IsWhitespace(s[k]))
  }

  /** `sub` occurs in `s` at position `i`. */
  predicate OccursAt(s: string, sub: string, i: int) {
    0 <= i <= |s| - |sub| && s[i..i + |sub|] == sub
  }

  function Min(a: int, b: int): int {
    if a <= b then a else b
  }

  /** Drops the leading whitespace run: the suffix of `s` starting at its first non-blank. */
  function TrimStart(s: string): (r: string)
    ensures |r| <= |s| && r == s[|s| - |r|..]
    ensures r == [] || !IsWhitespace(r[0])
    ensures forall k :: 0 <= k < |s| - |r| ==> IsWhitespace(s[k])
    ensures s != [] && IsWhitespace(s[0]) ==> |r| < |s|
  {
    if s != [] && IsWhitespace(s[0]) then
      var r := TrimStart(s[1..]);
      assert forall k :: 1 <= k < |s| - |r| ==> s[k] == s[1..][k - 1];
      r
    else s
  }

  /** Drops the trailing whitespace run. */
  function TrimEnd(s: string): (r: string)
    ensures |r| <= |s| && r == s[..|r|]
    ensures r == [] || !IsWhitespace(r[|r| - 1])
    ensures forall k :: |r| <= k < |s| ==> IsWhitespace(s[k])
  {
    if s != [] && IsWhitespace(s[|s| - 1]) then
      var r := TrimEnd(s[..|s| - 1]);
      assert forall k :: |r| <= k < |s| - 1 ==> s[k] == s[..|s| - 1][k];
      r
    else s
  }

  /** `String.prototype.trim`: the infix of `s` left once both whitespace runs are cut off. */
  function Trim(s: string): (r: string)
    ensures r == [] || (!IsWhitespace(r[0]) && !IsWhitespace(r[|r| - 1]))
    ensures exists i :: TrimmedAt(s, i, r)
  {
    var t := TrimStart(s);
    var r := TrimEnd(t);
    TrimBothEnds(s, t, r);
    r
  }

  /** Cutting the front run and then the back run leaves an infix whose ends are not blank. */
  lemma TrimBothEnds(s: string, t: string, r: string)
    requires |t| <= |s| && t == s[|s| - |t|..] && (t == [] || !IsWhitespace(t[0]))
    requires forall k :: 0 <= k < |s| - |t| ==> IsWhitespace(s[k])
    requires |r| <= |t| && r == t[..|r|] && (r == [] || !IsWhitespace(r[|r| - 1]))
    requires forall k :: |r| <= k < |t| ==> IsWhitespace(t[k])
    ensures r == [] || (!IsWhitespace(r[0]) && !IsWhitespace(r[|r| - 1]))
    ensures TrimmedAt(s, |s| - |t|, r)
  {
    var i := |s| - |t|;
    assert forall k :: i <= k < |s| ==> s[k] == t[k - i];
  }

  /** `s.substring(0, n)`: the first `min(n, |s|)` characters. */
  function Prefix(s: string, n: nat): (r: string)
    ensures |r| == Min(n, |s|) && r <= s
  {
    if n <= |s| then s[..n] else s
  }

  /** `s.includes(sub)`: `sub` occurs somewhere in `s`. */
  predicate Contains(s: string, sub: string)
    ensures Contains(s, sub) ==> |sub| <= |s|
    ensures sub <= s ==> Contains(s, sub)
  {
    assert sub <= s ==> OccursAt(s, sub, 0);
    exists i :: 0 <= i <= |s| - |sub| && OccursAt(s, sub, i)
  }

  /** Whatever is spliced into the middle of a string is contained in it. */
  lemma ContainsInfix(a: string, b: string, c: string)
    ensures Contains(a + (b + c), b)
  {
    var s := a + (b + c);
    assert s[|a|..|a| + |b|] == b;
    assert OccursAt(s, b, |a|);
  }

  /** Text put in front of a string keeps what the string contains. */
  lemma ContainsAfter(a: string, s: string, sub: string)
    requires Contains(s, sub)
    ensures Contains(a + s, sub)
  {
    var i :| 0 <= i <= |s| - |sub| && OccursAt(s, sub, i);
    var t := a + s;
    assert t[|a| + i..|a| + i + |sub|] == s[i..i + |sub|];
    assert OccursAt(t, sub, |a| + i);
  }

  /**
   * A template literal: the literal pieces `parts` with the substituted
   * `values` between them, `parts[0] + values[0] + parts[1] + ...`.
   */
  function Interpolate(parts: seq<string>, values: seq<string>): (r: string)
    requires |parts| == |values| + 1
    ensures parts[0] <= r
    decreases |values|
  {
    if values == [] then parts[0]
    else parts[0] + (values[0] + Interpolate(parts[1..], values[1..]))
  }

  /** A template with four substitutions, spelled out. */
  lemma InterpolateFour(parts: seq<string>, values: seq<string>)
    requires |parts| == 5 && |values| == 4
    ensures Interpolate(parts, values)
      == parts[0] + (values[0] + (parts[1] + (values[1] + (parts[2] + (values[2] + (parts[3] + (values[3] + parts[4])))))))
  {
    var r4 := Interpolate(parts[4..], values[4..]);
    assert r4 == parts[4];
    var r3 := Interpolate(parts[3..], values[3..]);
    assert parts[3..][1..] == parts[4..] && values[3..][1..] == values[4..];
    assert r3 == parts[3] + (values[3] + r4);
    var r2 := Interpolate(parts[2..], values[2..]);
    assert parts[2..][1..] == parts[3..] && values[2..][1..] == values[3..];
    assert r2 == parts[2] + (values[2] + r3);
    var r1 := Interpolate(parts[1..], values[1..]);
    assert parts[1..][1..] == parts[2..] && values[1..][1..] == values[2..];
    assert r1 == parts[1] + (values[1] + r2);
  }

  /** Every substituted value occurs in the filled-in template. */
  lemma {:induction false} InterpolateContains(parts: seq<string>, values: seq<string>)
    requires |parts| == |values| + 1
    ensures forall k :: 0 <= k < |values| ==> Contains(Interpolate(parts, values), values[k])
    decreases |values|
  {
    if values != [] {
      var rest := Interpolate(parts[1..], values[1..]);
      InterpolateContains(parts[1..], values[1..]);
      ContainsInfix(parts[0], values[0], rest);
      forall k | 1 <= k < |values|
        ensures Contains(Interpolate(parts, values), values[k])
      {
        assert values[k] == values[1..][k - 1];
        ContainsAfter(values[0], rest, values[k]);
        ContainsAfter(parts[0], values[0] + rest, values[k]);
      }
    }
  }

  /** A string lacking one of `sub`'s characters cannot contain `sub`. */
  lemma MissingChar(s: string, sub: string, k: nat)
    requires k < |sub| && sub[k] !in s
    ensures !Contains(s, sub)
  {
  }

  /** `xs.join(' ')`. */
  function Join(xs: seq<string>): (r: string)
    ensures |xs| > 0 ==> xs[0] <= r
    ensures |xs| > 0 ==> |r| == SumLengths(xs) + |xs| - 1
    ensures |xs| == 0 ==> r == ""
  {
    if |xs| == 0 then ""
    else if |xs| == 1 then xs[0]
    else xs[0] + (" " + Join(xs[1..]))
  }

  /** Every piece occurs in the join. */
  lemma {:induction false} JoinContains(xs: seq<string>)
    ensures forall k :: 0 <= k < |xs| ==> Contains(Join(xs), xs[k])
  {
    if |xs| == 1 {
      assert xs[0] <= Join(xs);
    } else if |xs| > 1 {
      var rest := Join(xs[1..]);
      JoinContains(xs[1..]);
      assert xs[0] <= Join(xs);
      forall k | 1 <= k < |xs|
        ensures Contains(Join(xs), xs[k])
      {
        assert xs[k] == xs[1..][k - 1];
        ContainsAfter(" ", rest, xs[k]);
        ContainsAfter(xs[0], " " + rest, xs[k]);
      }
    }
  }

  function SumLengths(xs: seq<string>): nat {
    if xs == [] then 0 else |xs[0]| + SumLengths(xs[1..])
  }

  /**
   * `s.split(/\s+/)`: the pieces between maximal whitespace runs. A leading
   * or trailing run yields an empty piece, and the empty string gives [""].
   */
  function Split(s: string): (r: seq<string>)
    ensures |r| >= 1
    ensures forall w <- r :: NoWhitespace(w)
    decreases |s|
  {
    if s == [] then [""]
    else if IsWhitespace(s[0]) then [""] + Split(TrimStart(s))
    else
      var t := Split(s[1..]);
      assert t[0] in t;
      assert forall w <- t[1..] :: w in t;
      [[s[0]] + t[0]] + t[1..]
  }

  /**
   * The number of maximal whitespace runs of `s`, counted as the positions
   * holding whitespace whose predecessor does not (`prevBlank` tells whether
   * the character before `s` was whitespace).
   */
  function RunStarts(s: string, prevBlank: bool): nat
    decreases |s|
  {
    if s == [] then 0
    else (if IsWhitespace(s[0]) && !prevBlank then 1 else 0) + RunStarts(s[1..], IsWhitespace(s[0]))
  }

  lemma {:induction false} RunStartsSkipRun(s: string)
    ensures RunStarts(s, true) == RunStarts(TrimStart(s), true)
    decreases |s|
  {
    if s != [] && IsWhitespace(s[0]) {
      RunStartsSkipRun(s[1..]);
    }
  }

  /** `split(/\s+/)` yields one piece more than there are whitespace runs. */
  lemma {:induction false} SplitCountsRuns(s: string)
    ensures |Split(s)| == 1 + RunStarts(s, false)
    decreases |s|
  {
    if s == [] {
    } else if IsWhitespace(s[0]) {
      var t := TrimStart(s);
      SplitCountsRuns(t);
      RunStartsSkipRun(s[1..]);
      assert TrimStart(s[1..]) == t;
      assert t == [] || !IsWhitespace(t[0]);
      if t != [] {
        assert RunStarts(t, true) == RunStarts(t, false);
      }
    } else {
      SplitCountsRuns(s[1..]);
    }
  }

  /** Splitting a blank-free word followed by more text glues the word to the first piece. */
  lemma {:induction false} SplitAfterWord(w: string, t: string)
    requires NoWhitespace(w)
    ensures Split(w + t) == [w + Split(t)[0]] + Split(t)[1..]
    decreases |w|
  {
    if w != [] {
      var u := w + t;
      assert u[1..] == w[1..] + t;
      assert u[0] == w[0] && !IsWhitespace(u[0]);
      SplitAfterWord(w[1..], t);
      var tail := Split(u[1..]);
      assert Split(u) == [[u[0]] + tail[0]] + tail[1..];
      assert [w[0]] + (w[1..] + Split(t)[0]) == w + Split(t)[0];
    } else {
      var r := Split(t);
      assert w + t == t && w + r[0] == r[0];
      assert [r[0]] + r[1..] == r;
    }
  }

  /** A single space before a word starts a new piece. */
  lemma SplitAfterSpace(rest: string)
    requires rest != [] && !IsWhitespace(rest[0])
    ensures Split(" " + rest) == [""] + Split(rest)
  {
    var u := " " + rest;
    assert u[1..] == rest;
    assert TrimStart(u) == TrimStart(rest) == rest;
  }

  /** `split(/\s+/)` undoes `join(' ')` on non-empty, blank-free words. */
  lemma {:induction false} SplitJoin(words: seq<string>)
    requires |words| >= 1
    requires forall w <- words :: w != [] && NoWhitespace(w)
    ensures Split(Join(words)) == words
    decreases |words|
  {
    if |words| == 1 {
      SplitAfterWord(words[0], "");
      assert words[0] + "" == words[0];
    } else {
      assert forall w <- words[1..] :: w in words;
      SplitJoin(words[1..]);
      assert words[0] in words && words[1] in words;
      JoinStep(words[0], words[1..]);
    }
  }

  /** Joining a word in front of at least one more word puts one space between them. */
  lemma JoinCons(w: string, tail: seq<string>)
    requires |tail| >= 1
    ensures Join([w] + tail) == w + (" " + Join(tail))
  {
    assert ([w] + tail)[1..] == tail;
  }

  /** A blank-free word, one space and a word start split into the word and the rest's pieces. */
  lemma SplitWordSpace(w: string, rest: string)
    requires NoWhitespace(w)
    requires rest != [] && !IsWhitespace(rest[0])
    ensures Split(w + (" " + rest)) == [w] + Split(rest)
  {
    SplitAfterSpace(rest);
    SplitAfterWord(w, " " + rest);
    assert w + "" == w;
  }

  /** One step of `SplitJoin`: a word in front of already-split joined words. */
  lemma JoinStep(w: string, tail: seq<string>)
    requires w != [] && NoWhitespace(w)
    requires |tail| >= 1 && tail[0] != [] && NoWhitespace(tail[0])
    requires Split(Join(tail)) == tail
    ensures Split(Join([w] + tail)) == [w] + tail
  {
    JoinCons(w, tail);
    var rest := Join(tail);
    assert rest[0] == tail[0][0];
    SplitWordSpace(w, rest);
  }
}
