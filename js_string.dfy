/**
 * The ECMAScript string operations the generator relies on, with their exact
 * semantics on characters (a `char` here is a Unicode scalar value, where
 * ECMAScript counts UTF-16 code units; the two agree on the ASCII text the
 * generator works on): `indexOf`, `lastIndexOf`, `substring`, `replace`
 * with a string pattern, and `trim`.
 */
module JsString {

  /** `pat` occurs in `s` starting at index `k`. */
  predicate OccursAt(s: string, pat: string, k: int) {
    0 <= k && k + |pat| <= |s| && s[k..k + |pat|] == pat
  }

  /** `pat` occurs nowhere in `s`. */
  ghost predicate Absent(s: string, pat: string) {
    forall k :: !OccursAt(s, pat, k)
  }

  /** `k` is the leftmost occurrence of `pat` in `s`. */
  ghost predicate FirstOccurrence(s: string, pat: string, k: int) {
    OccursAt(s, pat, k) && forall j :: 0 <= j < k ==> !OccursAt(s, pat, j)
  }

  function Clamp(x: int, hi: nat): (r: nat)
    ensures r <= hi
    ensures 0 <= x <= hi ==> r == x
  {
    if x < 0 then 0 else if x > hi then hi else x
  }

  // ---------------------------------------------------------------- indexOf

  function IndexFrom(s: string, pat: string, k: nat): (r: int)
    requires k <= |s|
    ensures r == -1 || (k <= r && OccursAt(s, pat, r))
    ensures forall j :: k <= j && (r == -1 || j < r) ==> !OccursAt(s, pat, j)
    decreases |s| - k
  {
    if OccursAt(s, pat, k) then k
    else if k == |s| then -1
    else IndexFrom(s, pat, k + 1)
  }

  /**
   * `s.indexOf(pat, from)`: the first occurrence at or after `from`, where
   * `from` is clamped to `[0, |s|]`; `-1` when there is none.
   */
  function IndexOf(s: string, pat: string, from: int): (r: int)
    ensures r == -1 || (Clamp(from, |s|) <= r && OccursAt(s, pat, r))
    ensures forall j :: Clamp(from, |s|) <= j && (r == -1 || j < r) ==> !OccursAt(s, pat, j)
  {
    IndexFrom(s, pat, Clamp(from, |s|))
  }

  // ------------------------------------------------------------ lastIndexOf

  function LastIndexFrom(s: string, pat: string, k: nat): (r: int)
    ensures r == -1 || (r <= k && OccursAt(s, pat, r))
    ensures forall j :: j <= k && r < j ==> !OccursAt(s, pat, j)
  {
    if OccursAt(s, pat, k) then k
    else if k == 0 then -1
    else LastIndexFrom(s, pat, k - 1)
  }

  /** `s.lastIndexOf(pat)`: the last occurrence, or `-1` when there is none. */
  function LastIndexOf(s: string, pat: string): (r: int)
    ensures r == -1 || OccursAt(s, pat, r)
    ensures forall j :: r < j ==> !OccursAt(s, pat, j)
  {
    LastIndexFrom(s, pat, |s|)
  }

  // -------------------------------------------------------------- substring

  /**
   * `s.substring(a, b)`: both bounds are clamped to `[0, |s|]` and, when the
   * start exceeds the end, the two are swapped.
   */
  function Substring(s: string, a: int, b: int): (r: string)
    ensures |r| <= |s|
    ensures 0 <= a <= b <= |s| ==> r == s[a..b]
    ensures 0 <= b <= a <= |s| ==> r == s[b..a]
  {
    var lo, hi := Clamp(a, |s|), Clamp(b, |s|);
    if lo <= hi then s[lo..hi] else s[hi..lo]
  }

  /** Out-of-range bounds act as the nearest end of the string. */
  lemma SubstringClamps(s: string, a: int, b: int)
    ensures Substring(s, a, b) == Substring(s, Clamp(a, |s|), Clamp(b, |s|))
  {
  }

  /** The order of the two bounds does not matter. */
  lemma SubstringSymmetric(s: string, a: int, b: int)
    ensures Substring(s, a, b) == Substring(s, b, a)
  {
  }

  // ---------------------------------------------------------------- replace

  /**
   * `s.replace(pat, rep)` with a string pattern: only the leftmost
   * occurrence of `pat` is replaced; `s` is returned when there is none.
   */
  function ReplaceFirst(s: string, pat: string, rep: string): (r: string)
    ensures Absent(s, pat) ==> r == s
    ensures forall k :: FirstOccurrence(s, pat, k) ==> r == s[..k] + rep + s[k + |pat|..]
  {
    var k := IndexOf(s, pat, 0);
    if k == -1 then s else s[..k] + rep + s[k + |pat|..]
  }

  // ------------------------------------------------------------------- trim

  /** The WhiteSpace and LineTerminator code points of ECMAScript; `trim` and the `\s` regex class use both. */
  predicate IsWhitespace(c: char) {
    || c == '\t' || c == '\n' || c == '\U{B}' || c == '\U{C}' || c == '\r' || c == ' '
    || c == '\U{A0}' || c == '\U{1680}' || ('\U{2000}' <= c <= '\U{200A}')
    || c == '\U{2028}' || c == '\U{2029}' || c == '\U{202F}' || c == '\U{205F}'
    || c == '\U{3000}' || c == '\U{FEFF}'
  }

  predicate AllWhitespace(s: string) {
    forall k :: 0 <= k < |s| ==> IsWhitespace(s[k])
  }

  function TrimStart(s: string): (r: string)
    ensures |r| <= |s| && r == s[|s| - |r|..]
    ensures AllWhitespace(s[..|s| - |r|])
    ensures r == [] || !IsWhitespace(r[0])
  {
    if s != [] && IsWhitespace(s[0]) then
      var r := TrimStart(s[1..]);
      assert s[1..][..|s| - 1 - |r|] == s[1..|s| - |r|];
      r
    else s
  }

  function TrimEnd(s: string): (r: string)
    ensures |r| <= |s| && r == s[..|r|]
    ensures AllWhitespace(s[|r|..])
    ensures r == [] || !IsWhitespace(r[|r| - 1])
  {
    if s != [] && IsWhitespace(s[|s| - 1]) then
      var r := TrimEnd(s[..|s| - 1]);
      assert s[..|s| - 1][|r|..] == s[|r|..|s| - 1];
      r
    else s
  }

  /** `s.trim()`: the longest infix of `s` that neither starts nor ends with whitespace, cut out between two runs of whitespace. */
  function Trim(s: string): (r: string)
    ensures exists i :: Framed(s, i, r)
    ensures r == [] || (!IsWhitespace(r[0]) && !IsWhitespace(r[|r| - 1]))
  {
    var t := TrimStart(s);
    var r := TrimEnd(t);
    TrimFramed(s, t, r);
    r
  }

  /** `r` sits in `s` at `i`, with nothing but whitespace before and after it. */
  ghost predicate Framed(s: string, i: int, r: string) {
    0 <= i <= |s| - |r| && s[i..i + |r|] == r && AllWhitespace(s[..i]) && AllWhitespace(s[i + |r|..])
  }

  lemma TrimFramed(s: string, t: string, r: string)
    requires |t| <= |s| && t == s[|s| - |t|..] && AllWhitespace(s[..|s| - |t|])
    requires |r| <= |t| && r == t[..|r|] && AllWhitespace(t[|r|..])
    ensures Framed(s, |s| - |t|, r)
  {
    var i := |s| - |t|;
    assert s[i..i + |r|] == t[..|r|];
    assert s[i + |r|..] == t[|r|..];
  }

  // ------------------------------------------------- occurrences in joins

  /** No occurrence of `pat` in `a + b` starts inside `a` and ends inside `b`. */
  ghost predicate NoStraddle(a: string, b: string, pat: string) {
    forall k :: 0 <= k < |a| < k + |pat| ==> !OccursAt(a + b, pat, k)
  }

  /** A string that lacks one character of `pat` holds no occurrence of it. */
  lemma AbsentByChar(s: string, pat: string, c: char)
    requires c in pat && c !in s
    ensures Absent(s, pat)
  {
    var i :| 0 <= i < |pat| && pat[i] == c;
    forall k ensures !OccursAt(s, pat, k) {
      if 0 <= k && k + |pat| <= |s| {
        assert s[k..k + |pat|][i] == s[k + i];
      }
    }
  }

  lemma AbsentShort(s: string, pat: string)
    requires |s| < |pat|
    ensures Absent(s, pat)
  {
  }

  lemma AbsentSlice(s: string, pat: string, i: nat, j: nat)
    requires i <= j <= |s| && Absent(s, pat)
    ensures Absent(s[i..j], pat)
  {
    forall k ensures !OccursAt(s[i..j], pat, k) {
      if 0 <= k && k + |pat| <= j - i {
        var w, v := s[i..j][k..k + |pat|], s[i + k..i + k + |pat|];
        assert forall t :: 0 <= t < |pat| ==> w[t] == v[t];
        assert w == v;
        assert !OccursAt(s, pat, i + k);
      }
    }
  }

  /** A straddling occurrence needs `pat[i]` inside `a` or else `b` to begin with one of `pat[1..i+1]`. */
  lemma NoStraddleByChar(a: string, b: string, pat: string, i: nat)
    requires i < |pat| && pat[i] !in a
    requires b == [] || b[0] !in pat[1..i + 1]
    ensures NoStraddle(a, b, pat)
  {
    forall k | 0 <= k < |a| < k + |pat| ensures !OccursAt(a + b, pat, k) {
      var s := a + b;
      if k + |pat| <= |s| {
        var w := s[k..k + |pat|];
        if k + i < |a| {
          assert w[i] == a[k + i];
        } else {
          var d := |a| - k;
          assert w[d] == b[0];
          assert pat[1..i + 1][d - 1] == pat[d];
        }
      }
    }
  }

  /** A straddling occurrence puts `pat[0]` among the last `|pat| - 1` characters of `a`. */
  lemma NoStraddleByTail(a: string, b: string, pat: string, tail: string)
    requires pat != [] && |tail| + 1 >= |pat|
    requires exists front :: a == front + tail
    requires pat[0] !in tail
    ensures NoStraddle(a, b, pat)
  {
    var front :| a == front + tail;
    forall k | 0 <= k < |a| < k + |pat| ensures !OccursAt(a + b, pat, k) {
      var s := a + b;
      if k + |pat| <= |s| {
        assert s[k..k + |pat|][0] == a[k] == tail[k - |front|];
      }
    }
  }

  /** A straddling occurrence ends `a` with one of `pat[..|pat| - 1]`. */
  lemma NoStraddleByLast(a: string, b: string, pat: string)
    requires pat != [] && a != [] && a[|a| - 1] !in pat[..|pat| - 1]
    ensures NoStraddle(a, b, pat)
  {
    forall k | 0 <= k < |a| < k + |pat| ensures !OccursAt(a + b, pat, k) {
      var s := a + b;
      if k + |pat| <= |s| {
        assert s[k..k + |pat|][|a| - 1 - k] == a[|a| - 1];
        assert pat[..|pat| - 1][|a| - 1 - k] == pat[|a| - 1 - k];
      }
    }
  }

  lemma AbsentConcat(a: string, b: string, pat: string)
    requires Absent(a, pat) && Absent(b, pat) && NoStraddle(a, b, pat)
    ensures Absent(a + b, pat)
  {
    forall k ensures !OccursAt(a + b, pat, k) {
      var s := a + b;
      if 0 <= k && k + |pat| <= |s| {
        if k + |pat| <= |a| {
          assert s[k..k + |pat|] == a[k..k + |pat|];
          assert !OccursAt(a, pat, k);
        } else if k >= |a| {
          assert s[k..k + |pat|] == b[k - |a|..k - |a| + |pat|];
          assert !OccursAt(b, pat, k - |a|);
        }
      }
    }
  }

  /** When `b` begins with `pat` and nothing before it matches, `|a|` is the leftmost occurrence in `a + b`. */
  lemma FirstAfter(a: string, b: string, pat: string)
    requires Absent(a, pat) && NoStraddle(a, b, pat) && OccursAt(b, pat, 0)
    ensures FirstOccurrence(a + b, pat, |a|)
  {
    var s := a + b;
    assert b[0..|pat|] == b[..|pat|];
    assert s[|a|..|a| + |pat|] == b[..|pat|];
    forall j | 0 <= j < |a| ensures !OccursAt(s, pat, j) {
      if j + |pat| <= |a| {
        assert s[j..j + |pat|] == a[j..j + |pat|];
        assert !OccursAt(a, pat, j);
      }
    }
  }

  /** A text that begins with `pat` has its first occurrence replaced at the start. */
  lemma ReplaceFirstAtStart(pat: string, b: string, rep: string)
    ensures ReplaceFirst(pat + b, pat, rep) == rep + b
    ensures rep == [] ==> ReplaceFirst(pat + b, pat, rep) == b
  {
    var s := pat + b;
    assert s[0..|pat|] == pat;
    assert FirstOccurrence(s, pat, 0);
    assert ReplaceFirst(s, pat, rep) == s[..0] + rep + s[|pat|..];
    assert s[..0] == [] && s[|pat|..] == b;
    assert [] + rep == rep;
  }

  /** Replacing the first occurrence when it is the one right after `a`. */
  lemma ReplaceFirstAfter(a: string, pat: string, b: string, rep: string)
    requires pat != [] && Absent(a, pat) && NoStraddle(a, pat + b, pat)
    ensures ReplaceFirst(a + pat + b, pat, rep) == a + rep + b
    ensures rep == [] ==> ReplaceFirst(a + pat + b, pat, rep) == a + b
  {
    assert (pat + b)[..|pat|] == pat;
    FirstAfter(a, pat + b, pat);
    var s := a + (pat + b);
    assert s == a + pat + b;
    assert s[..|a|] == a;
    assert s[|a| + |pat|..] == b;
    assert a + [] + b == a + b;
  }

  lemma IndexOfFirst(s: string, pat: string, n: int)
    requires FirstOccurrence(s, pat, n)
    ensures IndexOf(s, pat, 0) == n
  {
  }

  /** The first `c` at or after `from` is at `n` when `s[from..n]` holds no `c`. */
  lemma IndexOfChar(s: string, c: char, from: nat, n: nat)
    requires from <= n < |s| && s[n] == c && c !in s[from..n]
    ensures IndexOf(s, [c], from) == n
  {
    assert s[n..n + 1] == [c];
    assert OccursAt(s, [c], n);
    forall j | from <= j < n ensures !OccursAt(s, [c], j) {
      assert s[from..n][j - from] == s[j] == s[j..j + 1][0];
    }
    assert Clamp(from, |s|) == from;
  }

  /** The last `c` in `x + [c] + y` is at `|x|` when `y` holds no `c`. */
  lemma LastIndexOfChar(x: string, c: char, y: string)
    requires c !in y
    ensures LastIndexOf(x + [c] + y, [c]) == |x|
  {
    var s := x + [c] + y;
    assert s[|x|..|x| + 1] == [c];
    assert OccursAt(s, [c], |x|);
    forall j | j > |x| ensures !OccursAt(s, [c], j) {
      if j + 1 <= |s| {
        assert s[j..j + 1][0] == s[j] == y[j - |x| - 1];
      }
    }
  }


  // -------------------------------------------------------- trim in joins

  lemma TrimStartStep(s: string)
    requires s != [] && IsWhitespace(s[0])
    ensures TrimStart(s) == TrimStart(s[1..])
  {
  }

  lemma AllWhitespaceTail(a: string)
    requires a != [] && AllWhitespace(a)
    ensures IsWhitespace(a[0]) && AllWhitespace(a[1..])
  {
    forall k | 0 <= k < |a| - 1 ensures IsWhitespace(a[1..][k]) {
      assert a[1..][k] == a[k + 1];
    }
  }

  lemma {:induction false} TrimStartSkipsWhitespace(a: string, b: string)
    requires AllWhitespace(a)
    ensures TrimStart(a + b) == TrimStart(b)
    decreases |a|
  {
    if a == [] {
      assert a + b == b;
    } else {
      AllWhitespaceTail(a);
      assert (a + b)[0] == a[0];
      TrimStartStep(a + b);
      assert (a + b)[1..] == a[1..] + b;
      TrimStartSkipsWhitespace(a[1..], b);
    }
  }

  lemma TrimEndSkipsWhitespace(a: string, b: string)
    requires AllWhitespace(b)
    ensures TrimEnd(a + b) == TrimEnd(a)
  {
    if b != [] {
      assert (a + b)[|a + b| - 1] == b[|b| - 1] && IsWhitespace(b[|b| - 1]);
      assert (a + b)[..|a + b| - 1] == a + b[..|b| - 1];
      TrimEndSkipsWhitespace(a, b[..|b| - 1]);
      assert TrimEnd(a + b) == TrimEnd(a + b[..|b| - 1]);
    } else {
      assert a + b == a;
    }
  }

  lemma AllWhitespaceConcat(a: string, b: string)
    requires AllWhitespace(a) && AllWhitespace(b)
    ensures AllWhitespace(a + b)
  {
    forall k | 0 <= k < |a + b| ensures IsWhitespace((a + b)[k]) {
      if k < |a| {
        assert (a + b)[k] == a[k];
      } else {
        assert (a + b)[k] == b[k - |a|];
      }
    }
  }

  /** Trimming a text surrounded by whitespace, whose own ends are not whitespace, gives that text. */
  lemma TrimAround(a: string, c: string, b: string)
    requires AllWhitespace(a) && AllWhitespace(b) && c != []
    requires !IsWhitespace(c[0]) && !IsWhitespace(c[|c| - 1])
    ensures Trim(a + c + b) == c
  {
    assert a + c + b == a + (c + b);
    TrimStartSkipsWhitespace(a, c + b);
    assert (c + b)[0] == c[0];
    assert TrimStart(c + b) == c + b;
    TrimEndSkipsWhitespace(c, b);
  }

  /** Trailing whitespace is cut from `b` alone once `b` holds a non-whitespace character. */
  lemma {:induction false} TrimEndKeepsPrefix(a: string, b: string, i: nat)
    requires i < |b| && !IsWhitespace(b[i])
    ensures TrimEnd(a + b) == a + TrimEnd(b)
    decreases |b|
  {
    if IsWhitespace(b[|b| - 1]) {
      assert (a + b)[..|a + b| - 1] == a + b[..|b| - 1];
      TrimEndKeepsPrefix(a, b[..|b| - 1], i);
    }
  }
}
