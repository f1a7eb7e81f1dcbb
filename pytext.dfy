/**
 * The Python 2 string operations the bot's own code relies on: `unicode.split()`
 * with no separator, `startswith`, the lower-casing used to recognise `me`,
 * and `str.format` on a byte-string template, which raises when the argument
 * holds a character outside ASCII.
 */
module PyText {
  import opened Wrappers

  /** Whitespace as `unicode.split()` sees it (the Unicode 5.2 tables of Python 2.7). */
  predicate IsSpace(c: char) {
    var n := c as int;
    (9 <= n <= 13) || (28 <= n <= 32) || n == 0x85 || n == 0xa0 || n == 0x1680 || n == 0x180e
    || (0x2000 <= n <= 0x200a) || n == 0x2028 || n == 0x2029 || n == 0x202f || n == 0x205f
    || n == 0x3000
  }

  /** A piece `split()` can return: not empty, no whitespace inside. */
  predicate IsToken(t: string) {
    |t| > 0 && forall i :: 0 <= i < |t| ==> !IsSpace(t[i])
  }

  /** The longest prefix of `s` without whitespace. */
  function Word(s: string): (w: string)
    ensures |w| <= |s| && w == s[..|w|]
    ensures forall i :: 0 <= i < |w| ==> !IsSpace(w[i])
    ensures |w| == |s| || IsSpace(s[|w|])
  {
    if s == [] || IsSpace(s[0]) then [] else [s[0]] + Word(s[1..])
  }

  /** `s.split()`: the maximal runs of non-whitespace characters, in order. */
  function Split(s: string): (ts: seq<string>)
    ensures forall i :: 0 <= i < |ts| ==> IsToken(ts[i])
    decreases |s|
  {
    if s == [] then []
    else if IsSpace(s[0]) then Split(s[1..])
    else
      var w := Word(s);
      [w] + Split(s[|w|..])
  }

  /** `xs[n:]` on a Python list: empty when the list is shorter than `n`. */
  function Drop<T>(xs: seq<T>, n: nat): (r: seq<T>)
    ensures |xs| <= n ==> r == []
    ensures n < |xs| ==> |r| == |xs| - n && forall i :: 0 <= i < |r| ==> r[i] == xs[n + i]
  {
    if |xs| <= n then [] else xs[n..]
  }

  /** Only whitespace characters (possibly none). */
  predicate IsBlank(g: string) {
    forall i :: 0 <= i < |g| ==> IsSpace(g[i])
  }

  /**
   * Gaps that may follow the tokens: whitespace only, and non-empty between two
   * tokens; the gap after the last token may be empty.
   */
  predicate Separates(ts: seq<string>, gaps: seq<string>) {
    |gaps| == |ts|
    && (forall i :: 0 <= i < |gaps| ==> IsBlank(gaps[i]))
    && (forall i :: 0 <= i < |gaps| - 1 ==> |gaps[i]| > 0)
  }

  /** Each token followed by its gap: `ts[0] + gaps[0] + ts[1] + gaps[1] + ...`. */
  function Interleave(ts: seq<string>, gaps: seq<string>): string
    requires |gaps| == |ts|
  {
    if ts == [] then [] else ts[0] + gaps[0] + Interleave(ts[1..], gaps[1..])
  }

  /** The characters of `s` that are not whitespace, in order. */
  function NonSpace(s: string): string {
    if s == [] then [] else (if IsSpace(s[0]) then [] else [s[0]]) + NonSpace(s[1..])
  }

  function Concat(ts: seq<string>): string {
    if ts == [] then [] else ts[0] + Concat(ts[1..])
  }

  lemma {:induction false} WordOfToken(t: string, rest: string)
    requires IsToken(t)
    requires rest == [] || IsSpace(rest[0])
    ensures Word(t + rest) == t
    decreases |t|
  {
    var s := t + rest;
    assert s[0] == t[0];
    if |t| > 1 {
      assert s[1..] == t[1..] + rest;
      WordOfToken(t[1..], rest);
    } else {
      assert s[1..] == rest;
    }
  }

  /** Leading whitespace does not change what `split()` returns. */
  lemma {:induction false} SplitSkipsBlank(lead: string, rest: string)
    requires IsBlank(lead)
    ensures Split(lead + rest) == Split(rest)
    decreases |lead|
  {
    if lead != [] {
      assert (lead + rest)[0] == lead[0];
      assert (lead + rest)[1..] == lead[1..] + rest;
      SplitSkipsBlank(lead[1..], rest);
    } else {
      assert lead + rest == rest;
    }
  }

  /** A token followed by whitespace (or by nothing at all) is split off whole. */
  lemma SplitTokenThenGap(t: string, g: string, rest: string)
    requires IsToken(t) && IsBlank(g)
    requires |g| > 0 || rest == []
    ensures Split(t + g + rest) == [t] + Split(rest)
  {
    var s := t + g + rest;
    assert s == t + (g + rest);
    WordOfToken(t, g + rest);
    assert s[|t|..] == g + rest;
    assert Split(s) == [t] + Split(g + rest);
    SplitSkipsBlank(g, rest);
  }

  /**
   * `split()` returns exactly the tokens, whatever non-empty whitespace runs
   * separate them and whatever whitespace comes after the last.
   */
  lemma {:induction false} SplitInterleaved(ts: seq<string>, gaps: seq<string>)
    requires forall i :: 0 <= i < |ts| ==> IsToken(ts[i])
    requires Separates(ts, gaps)
    ensures Split(Interleave(ts, gaps)) == ts
    decreases |ts|
  {
    if ts != [] {
      var rest := Interleave(ts[1..], gaps[1..]);
      assert Separates(ts[1..], gaps[1..]) by {
        forall i | 0 <= i < |gaps| - 2 ensures |gaps[1..][i]| > 0 {
          assert gaps[1..][i] == gaps[i + 1];
        }
      }
      assert |ts| == 1 ==> rest == [];
      SplitTokenThenGap(ts[0], gaps[0], rest);
      SplitInterleaved(ts[1..], gaps[1..]);
    }
  }

  /** Whitespace before the first token does not change the result either. */
  lemma SplitInterleavedAfterBlank(lead: string, ts: seq<string>, gaps: seq<string>)
    requires IsBlank(lead)
    requires forall i :: 0 <= i < |ts| ==> IsToken(ts[i])
    requires Separates(ts, gaps)
    ensures Split(lead + Interleave(ts, gaps)) == ts
  {
    SplitSkipsBlank(lead, Interleave(ts, gaps));
    SplitInterleaved(ts, gaps);
  }

  lemma {:induction false} NonSpaceAppend(a: string, b: string)
    ensures NonSpace(a + b) == NonSpace(a) + NonSpace(b)
    decreases |a|
  {
    if a != [] {
      assert (a + b)[1..] == a[1..] + b;
      NonSpaceAppend(a[1..], b);
    } else {
      assert a + b == b;
    }
  }

  lemma {:induction false} NonSpaceOfWord(w: string)
    requires forall i :: 0 <= i < |w| ==> !IsSpace(w[i])
    ensures NonSpace(w) == w
    decreases |w|
  {
    if w != [] {
      NonSpaceOfWord(w[1..]);
    }
  }

  /** `split()` drops whitespace and nothing else: the tokens run together are the non-blank characters. */
  lemma {:induction false} SplitKeepsNonSpace(s: string)
    ensures Concat(Split(s)) == NonSpace(s)
    decreases |s|
  {
    if s == [] {
    } else if IsSpace(s[0]) {
      SplitKeepsNonSpace(s[1..]);
    } else {
      var w := Word(s);
      var tail := s[|w|..];
      assert s == w + tail;
      SplitKeepsNonSpace(tail);
      NonSpaceAppend(w, tail);
      NonSpaceOfWord(w);
      assert Split(s) == [w] + Split(tail);
      assert Concat(Split(s)) == w + Concat(Split(tail));
    }
  }

  /** `s.startswith(p)`. */
  predicate StartsWith(s: string, p: string) {
    |p| <= |s| && s[..|p|] == p
  }

  predicate IsAscii(s: string) {
    forall i :: 0 <= i < |s| ==> (s[i] as int) < 128
  }

  /** ASCII upper-case letters to lower case; every other character unchanged. */
  function LowerChar(c: char): char {
    if 'A' <= c <= 'Z' then (c as int + 32) as char else c
  }

  function Lower(s: string): (r: string)
    ensures |r| == |s| && forall i :: 0 <= i < |s| ==> r[i] == LowerChar(s[i])
  {
    if s == [] then [] else [LowerChar(s[0])] + Lower(s[1..])
  }

  /** `t.lower() == "me"`. */
  predicate IsMe(t: string) {
    Lower(t) == "me"
  }

  /** Exactly the four spellings of `me` pass the test. */
  lemma MeInAnyCase(t: string)
    ensures IsMe(t) <==> t in {"me", "mE", "Me", "ME"}
  {
    if IsMe(t) {
      assert |t| == 2 && LowerChar(t[0]) == 'm' && LowerChar(t[1]) == 'e';
      assert t[0] == 'm' || t[0] == 'M';
      assert t[1] == 'e' || t[1] == 'E';
      assert t == [t[0], t[1]];
    }
  }

  /**
   * `pre + "{}" + post` formatted with `arg` under Python 2, where the template is a
   * byte string: `None` stands for the UnicodeEncodeError raised by a non-ASCII argument.
   */
  function FormatWith(pre: string, arg: string, post: string): (r: Option<string>)
    ensures r.Some? <==> IsAscii(arg)
    ensures r.Some? ==> |r.value| == |pre| + |arg| + |post|
    ensures r.Some? ==> r.value[..|pre|] == pre && r.value[|pre|..|pre| + |arg|] == arg
    ensures r.Some? ==> r.value[|pre| + |arg|..] == post
  {
    if IsAscii(arg) then Some(pre + arg + post) else None
  }

  /** `"{}".format(x)` for an optional string: Python prints `None` as the word None. */
  function ShowOption(x: Option<string>): string {
    if x.Some? then x.value else "None"
  }
}
