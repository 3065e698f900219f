/** The Python string operations the chat prototype's parsers are built from:
    `in`, `find`/`rfind`, `split(sep, 1)`, slicing with negative bounds,
    `strip()` and `lower()`. */
module Text {
  import opened Json

  /** `t` occurs in `s` at index `i`. */
  predicate IsAt(s: string, t: string, i: nat) {
    i + |t| <= |s| && s[i..i + |t|] == t
  }

  /** The first occurrence of `t` in `s` at or after `i`. */
  function FindFrom(s: string, t: string, i: nat): (r: Option<nat>)
    decreases |s| - i
    ensures r.Some? ==> i <= r.value && IsAt(s, t, r.value)
    ensures r.Some? ==> forall j: nat :: i <= j < r.value ==> !IsAt(s, t, j)
    ensures r.None? ==> forall j: nat :: i <= j ==> !IsAt(s, t, j)
  {
    if i + |t| > |s| then None
    else if IsAt(s, t, i) then Some(i)
    else FindFrom(s, t, i + 1)
  }

  /** The first occurrence of `t` in `s`. */
  function Find(s: string, t: string): Option<nat> {
    FindFrom(s, t, 0)
  }

  /** Python's `t in s`. */
  predicate Contains(s: string, t: string) {
    Find(s, t).Some?
  }

  lemma ContainsAt(s: string, t: string, i: nat)
    requires IsAt(s, t, i)
    ensures Contains(s, t)
  {
  }

  /** What occurs in a prefix occurs in the whole. */
  lemma ContainsInPrefix(s: string, n: nat, t: string)
    requires n <= |s| && Contains(s[..n], t)
    ensures Contains(s, t)
  {
    var i := Find(s[..n], t).value;
    assert s[i..i + |t|] == s[..n][i..i + |t|];
    ContainsAt(s, t, i);
  }

  /** Python's `s.split(sep, 1)`: the text before the first `sep` and the text
      after it, or `[s]` when `sep` does not occur. */
  function SplitOnce(s: string, sep: string): (r: seq<string>)
    ensures |r| == 1 || |r| == 2
    ensures |r| == 1 <==> !Contains(s, sep)
    ensures |r| == 1 ==> r[0] == s
    ensures |r| == 2 ==> r[0] + sep + r[1] == s
    ensures |r| == 2 ==> forall j: nat :: j < |r[0]| ==> !IsAt(s, sep, j)
  {
    match Find(s, sep)
    case None => [s]
    case Some(i) =>
      assert s == s[..i] + s[i..i + |sep|] + s[i + |sep|..];
      [s[..i], s[i + |sep|..]]
  }

  /** Python's `s.find(c)` for one character: the first index, or -1. */
  function IndexOf(s: string, c: char): (r: int)
    ensures -1 <= r < |s|
    ensures r >= 0 ==> s[r] == c && forall j :: 0 <= j < r ==> s[j] != c
    ensures r == -1 ==> forall j :: 0 <= j < |s| ==> s[j] != c
  {
    if |s| == 0 then -1
    else if s[0] == c then 0
    else
      var k := IndexOf(s[1..], c);
      if k < 0 then -1 else k + 1
  }

  /** Python's `s.rfind(c)` for one character: the last index, or -1. */
  function LastIndexOf(s: string, c: char): (r: int)
    ensures -1 <= r < |s|
    ensures r >= 0 ==> s[r] == c && forall j :: r < j < |s| ==> s[j] != c
    ensures r == -1 ==> forall j :: 0 <= j < |s| ==> s[j] != c
  {
    if |s| == 0 then -1
    else if s[|s| - 1] == c then |s| - 1
    else LastIndexOf(s[..|s| - 1], c)
  }

  /** The index a Python slice bound `i` stands for in a string of length `n`. */
  function SliceBound(i: int, n: nat): (r: nat)
    ensures r <= n
    ensures 0 <= i <= n ==> r == i
    // a negative bound counts from the end, and stops at the start
    ensures i < 0 ==> r == (if i + n < 0 then 0 else i + n)
    // a bound past the end stops at the end
    ensures i > n ==> r == n
  {
    if i < 0 then (if i + n < 0 then 0 else i + n)
    else if i > n then n
    else i
  }

  /** Python's `s[a:b]`: negative bounds count from the end, out-of-range
      bounds are clamped, and an empty range gives "". */
  function PySlice(s: string, a: int, b: int): (r: string)
    ensures var lo, hi := SliceBound(a, |s|), SliceBound(b, |s|);
      && |r| == (if lo < hi then hi - lo else 0)
      && forall k :: 0 <= k < |r| ==> r[k] == s[lo + k]
  {
    var lo, hi := SliceBound(a, |s|), SliceBound(b, |s|);
    if lo < hi then s[lo..hi] else ""
  }

  /** `s.split('\n')[0] if '\n' in s else s`: the text before the first line break. */
  function FirstLine(s: string): (r: string)
    ensures |r| <= |s| && r == s[..|r|]
    ensures '\n' !in r
    ensures |r| < |s| ==> s[|r|] == '\n'
  {
    var k := IndexOf(s, '\n');
    if k < 0 then s else s[..k]
  }

  /** Python's `str.isspace()` for one character. */
  predicate IsSpace(c: char) {
    || '\t' <= c <= '\r'
    || '\U{1C}' <= c <= '\U{1F}'
    || c == ' ' || c == '\U{85}' || c == '\U{A0}' || c == '\U{1680}'
    || '\U{2000}' <= c <= '\U{200A}'
    || c == '\U{2028}' || c == '\U{2029}' || c == '\U{202F}' || c == '\U{205F}' || c == '\U{3000}'
  }

  predicate AllSpace(s: string) {
    forall k :: 0 <= k < |s| ==> IsSpace(s[k])
  }

  /** Neither end of `s` is whitespace. */
  predicate Stripped(s: string) {
    s == "" || (!IsSpace(s[0]) && !IsSpace(s[|s| - 1]))
  }

  /** `s.lstrip()`. */
  function TrimStart(s: string): (r: string)
    ensures |r| <= |s| && r == s[|s| - |r|..]
    ensures AllSpace(s[..|s| - |r|])
    ensures r == "" || !IsSpace(r[0])
  {
    if |s| > 0 && IsSpace(s[0]) then
      var r := TrimStart(s[1..]);
      assert s[1..][|s| - 1 - |r|..] == s[|s| - |r|..];
      assert forall k :: 1 <= k < |s| - |r| ==> s[k] == s[1..][..|s| - 1 - |r|][k - 1];
      r
    else s
  }

  /** `s.rstrip()`. */
  function TrimEnd(s: string): (r: string)
    ensures |r| <= |s| && r == s[..|r|]
    ensures AllSpace(s[|r|..])
    ensures r == "" || !IsSpace(r[|r| - 1])
  {
    if |s| > 0 && IsSpace(s[|s| - 1]) then
      var r := TrimEnd(s[..|s| - 1]);
      assert s[..|s| - 1][..|r|] == s[..|r|];
      assert s[|r|..] == s[..|s| - 1][|r|..] + [s[|s| - 1]];
      assert AllSpace(s[|r|..]) by {
        forall k | 0 <= k < |s| - |r| ensures IsSpace(s[|r|..][k]) {
          if k < |s| - 1 - |r| {
            assert s[|r|..][k] == s[..|s| - 1][|r|..][k];
          }
        }
      }
      r
    else s
  }

  /** Python's `s.strip()`: `s` without its leading and trailing whitespace. */
  function Strip(s: string): (r: string)
    ensures Stripped(r)
  {
    TrimEnd(TrimStart(s))
  }

  lemma {:induction false} TrimStartSkipsSpace(w: string, y: string)
    requires AllSpace(w)
    ensures TrimStart(w + y) == TrimStart(y)
  {
    if w != [] {
      var s := w + y;
      assert s[0] == w[0] && IsSpace(s[0]);
      assert s[1..] == w[1..] + y;
      assert TrimStart(s) == TrimStart(s[1..]);
      TrimStartSkipsSpace(w[1..], y);
    } else {
      assert w + y == y;
    }
  }

  lemma {:induction false} TrimEndSkipsSpace(y: string, w: string)
    requires AllSpace(w)
    ensures TrimEnd(y + w) == TrimEnd(y)
  {
    if w != [] {
      var s := y + w;
      assert s[|s| - 1] == w[|w| - 1] && IsSpace(s[|s| - 1]);
      assert s[..|s| - 1] == y + w[..|w| - 1];
      assert TrimEnd(s) == TrimEnd(s[..|s| - 1]);
      TrimEndSkipsSpace(y, w[..|w| - 1]);
    } else {
      assert y + w == y;
    }
  }

  /** Stripping removes exactly the surrounding whitespace and nothing else. */
  lemma StripSurrounded(w1: string, x: string, w2: string)
    requires AllSpace(w1) && AllSpace(w2) && Stripped(x)
    ensures Strip(w1 + x + w2) == x
  {
    var y := x + w2;
    assert w1 + x + w2 == w1 + y;
    TrimStartSkipsSpace(w1, y);
    if x == "" {
      assert y == w2 + "";
      TrimStartSkipsSpace(w2, "");
    } else {
      assert y[0] == x[0];
      assert TrimStart(y) == y;
      TrimEndSkipsSpace(x, w2);
      assert TrimEnd(x) == x;
    }
  }

  /** Stripping twice changes nothing more. */
  lemma StripIdempotent(s: string)
    ensures Strip(Strip(s)) == Strip(s)
  {
    StripSurrounded("", Strip(s), "");
    assert "" + Strip(s) + "" == Strip(s);
  }

  /** ASCII lower-casing of one character. */
  function LowerChar(c: char): char {
    if 'A' <= c <= 'Z' then (c as int + 32) as char else c
  }

  /** `s.lower()` on ASCII letters. */
  function Lower(s: string): (r: string)
    ensures |r| == |s|
    ensures forall k :: 0 <= k < |s| ==> r[k] == LowerChar(s[k])
  {
    seq(|s|, k requires 0 <= k < |s| => LowerChar(s[k]))
  }

  /** Lower-casing works character by character, so it commutes with taking a prefix. */
  lemma LowerPrefix(s: string, n: nat)
    requires n <= |s|
    ensures Lower(s[..n]) == Lower(s)[..n]
  {
  }
}
