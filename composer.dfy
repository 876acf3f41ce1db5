/**
 * `mixedPattern`: two different templates are generated, cut apart with
 * `indexOf`/`lastIndexOf`/`substring`/`trim`, their header lines removed
 * with first-occurrence `replace`, and spliced into a combined shader that
 * blends the two colours in one of three ways.
 */
module Composer {
  import opened JsString
  import opened Numerals
  import opened Patterns

  // ---------------------------------------------------------- extraction

  /**
   * `extractFunctions`: the trimmed text before the first `void main()`;
   * without a `void main()`, `substring(0, -1)` is empty and so is the result.
   */
  function ExtractFunctions(s: string): (r: string)
    ensures Absent(s, MainSignature) ==> r == []
    ensures r == [] || (!IsWhitespace(r[0]) && !IsWhitespace(r[|r| - 1]))
    ensures forall k :: FirstOccurrence(s, MainSignature, k) ==> exists i :: Framed(s[..k], i, r)
  {
    var m := IndexOf(s, MainSignature, 0);
    TrimBeforeMain(s, m);
    Trim(Substring(s, 0, m))
  }

  lemma TrimBeforeMain(s: string, m: int)
    requires m == IndexOf(s, MainSignature, 0)
    ensures var r := Trim(Substring(s, 0, m));
      && (Absent(s, MainSignature) ==> r == [])
      && forall k :: FirstOccurrence(s, MainSignature, k) ==> exists i :: Framed(s[..k], i, r)
  {
    var r := Trim(Substring(s, 0, m));
    if m == -1 {
      assert Substring(s, 0, m) == [];
    } else {
      assert Substring(s, 0, m) == s[..m];
    }
  }

  /** `extractMainBody`: the text between the first `{` after `void main()` and the last `}`, a piece of the shader. */
  function ExtractMainBody(s: string): (r: string)
    ensures exists i :: PieceAt(s, i, r)
  {
    var mainStart := IndexOf(s, MainSignature, 0);
    var a, b := IndexOf(s, "{", mainStart) + 1, LastIndexOf(s, "}");
    var r := Substring(s, a, b);
    SubstringClamps(s, a, b);
    var lo, hi := Clamp(a, |s|), Clamp(b, |s|);
    assert PieceAt(s, if lo <= hi then lo else hi, r);
    r
  }

  /** `r` occurs in `s` at `i`. */
  ghost predicate PieceAt(s: string, i: int, r: string) {
    0 <= i <= |s| - |r| && s[i..i + |r|] == r
  }

  /**
   * The three header lines removed from the second pattern's declarations:
   * declarations without any of them are left as they are, and none grows.
   */
  function StripHeader(f: string): (r: string)
    ensures |r| <= |f|
    ensures Absent(f, PrecisionLine) && Absent(f, TimeUniform) && Absent(f, ResolutionUniform) ==> r == f
  {
    ReplaceFirst(ReplaceFirst(ReplaceFirst(f, PrecisionLine, ""), TimeUniform, ""), ResolutionUniform, "")
  }

  /** The first `gl_FragColor =` of a body becomes `color =`; a body without one is left as it is. */
  function Retarget(body: string): (r: string)
    ensures Absent(body, FragColorAssign) ==> r == body
    ensures !Absent(body, FragColorAssign) ==> |r| + 7 == |body|
  {
    ReplaceFirst(body, FragColorAssign, "color =")
  }

  // ------------------------------------------- absence by witnesses

  /** `s` begins with `t`. */
  ghost predicate Starts(s: string, t: string) {
    |t| <= |s| && s[..|t|] == t
  }

  /**
   * A certificate that `pat` occurs nowhere in `Cat(pieces)`: piece `k`
   * lacks the character `ws[k]` of `pat`, and where the lacking character
   * changes from one piece to the next and is not `pat[0]`, the next piece
   * starts with a character `pat` does not hold. Long texts are cut into
   * short pieces so that each one is checked on its own.
   */
  ghost predicate Witnessed(pieces: seq<string>, ws: string, pat: string) {
    WitnessedRange(pieces, ws, pat, 0, |pieces|)
  }

  /** The conditions of `Witnessed` for the pieces from `a` up to `b`. */
  ghost predicate WitnessedRange(pieces: seq<string>, ws: string, pat: string, a: nat, b: nat) {
    && pat != [] && |ws| == |pieces| && a <= b <= |pieces|
    && (forall k :: a <= k < b ==> pieces[k] != [] && ws[k] in pat && ws[k] !in pieces[k])
    && (forall k :: a <= k < b && k + 1 < |pieces| && ws[k] != ws[k + 1] && ws[k] != pat[0] && pieces[k + 1] != [] ==> pieces[k + 1][0] !in pat)
  }

  /** Two adjacent runs of a certificate make one. */
  lemma WitnessedJoin(pieces: seq<string>, ws: string, pat: string, a: nat, m: nat, b: nat)
    requires WitnessedRange(pieces, ws, pat, a, m) && WitnessedRange(pieces, ws, pat, m, b)
    ensures WitnessedRange(pieces, ws, pat, a, b)
  {
  }

  lemma CatFrom(pieces: seq<string>, k: nat)
    requires k < |pieces|
    ensures Cat(pieces[k..]) == pieces[k] + Cat(pieces[k + 1..])
  {
    assert pieces[k..][1..] == pieces[k + 1..];
  }

  /**
   * While the pieces from `k` on lack `w` (or the run ends at a piece that
   * starts outside `pat`), their text does not begin with a tail of `pat`
   * that holds `w`.
   */
  lemma {:induction false} RunNoStart(pieces: seq<string>, ws: string, pat: string, k: nat, w: char)
    requires Witnessed(pieces, ws, pat) && k <= |pieces| && w != pat[0]
    requires k < |pieces| ==> ws[k] == w || pieces[k][0] !in pat
    ensures forall d :: 1 <= d < |pat| && w in pat[d..] ==> !Starts(Cat(pieces[k..]), pat[d..])
    decreases |pieces| - k
  {
    if k < |pieces| {
      var s := Cat(pieces[k..]);
      CatFrom(pieces, k);
      if pieces[k][0] !in pat {
        forall d | 1 <= d < |pat| && w in pat[d..] ensures !Starts(s, pat[d..]) {
          NotStarts(s, pat[d..]);
        }
      } else {
        RunNoStart(pieces, ws, pat, k + 1, w);
        var a := pieces[k];
        var rest := Cat(pieces[k + 1..]);
        forall d | 1 <= d < |pat| && w in pat[d..] ensures !Starts(s, pat[d..]) {
          var t := pat[d..];
          if Starts(s, t) {
            if |t| <= |a| {
              StartsShort(a, rest, t);
            } else {
              StartsAfter(a, rest, t);
              HoldsAfter(t, |a|, w);
            }
          }
        }
      }
    }
  }

  lemma NotStarts(s: string, t: string)
    requires s != [] && t != [] && s[0] != t[0]
    ensures !Starts(s, t)
  {
  }

  lemma StartsShort(a: string, rest: string, t: string)
    requires Starts(a + rest, t) && |t| <= |a|
    ensures t == a[..|t|]
  {
    assert (a + rest)[..|t|] == a[..|t|];
  }

  lemma StartsAfter(a: string, rest: string, t: string)
    requires Starts(a + rest, t) && |a| <= |t|
    ensures t[..|a|] == a && Starts(rest, t[|a|..])
  {
    var s := a + rest;
    assert t[..|a|] == s[..|a|];
    assert t[|a|..] == rest[..|t| - |a|] by {
      assert forall i :: 0 <= i < |t| - |a| ==> t[|a|..][i] == s[|a| + i] == rest[i];
    }
  }

  lemma HoldsAfter(t: string, n: nat, c: char)
    requires n <= |t| && c in t && c !in t[..n]
    ensures c in t[n..]
  {
    assert t == t[..n] + t[n..];
  }

  /** An occurrence that starts in `a` and ends in `rest` matches `a`'s end and `rest`'s start. */
  lemma StraddleSplit(a: string, rest: string, pat: string, j: nat)
    requires OccursAt(a + rest, pat, j) && j < |a| < j + |pat|
    ensures pat[..|a| - j] == a[j..] && Starts(rest, pat[|a| - j..])
  {
    var s := a + rest;
    var d := |a| - j;
    assert pat == s[j..j + |pat|];
    assert pat[..d] == a[j..] by {
      assert forall t :: 0 <= t < d ==> pat[t] == s[j + t] == a[j + t];
    }
    assert pat[d..] == rest[..|pat| - d] by {
      assert forall t :: 0 <= t < |pat| - d ==> pat[d + t] == s[|a| + t] == rest[t];
    }
  }

  lemma {:induction false} WitnessedFrom(pieces: seq<string>, ws: string, pat: string, k: nat)
    requires Witnessed(pieces, ws, pat) && k <= |pieces|
    ensures Absent(Cat(pieces[k..]), pat)
    decreases |pieces| - k
  {
    if k < |pieces| {
      var a := pieces[k];
      var rest := Cat(pieces[k + 1..]);
      CatFrom(pieces, k);
      WitnessedFrom(pieces, ws, pat, k + 1);
      AbsentByChar(a, pat, ws[k]);
      if ws[k] == pat[0] {
        NoStraddleByChar(a, rest, pat, 0);
      } else {
        var w := ws[k];
        RunNoStart(pieces, ws, pat, k + 1, w);
        forall j | 0 <= j < |a| < j + |pat| ensures !OccursAt(a + rest, pat, j) {
          if OccursAt(a + rest, pat, j) {
            StraddleSplit(a, rest, pat, j);
          }
        }
      }
      AbsentConcat(a, rest, pat);
    }
  }

  /** Witnessed pieces hold no occurrence of `pat`, not even across pieces. */
  lemma WitnessedAbsent(pieces: seq<string>, ws: string, pat: string)
    requires Witnessed(pieces, ws, pat)
    ensures Absent(Cat(pieces), pat)
  {
    WitnessedFrom(pieces, ws, pat, 0);
    assert pieces[0..] == pieces;
  }

  /** An occurrence across the seam of `a + b` holds `b[0]`. */
  lemma NoStraddleByFirst(a: string, b: string, pat: string)
    requires b != [] ==> b[0] !in pat
    ensures NoStraddle(a, b, pat)
  {
    forall k | 0 <= k < |a| < k + |pat| ensures !OccursAt(a + b, pat, k) {
      var s := a + b;
      if k + |pat| <= |s| {
        assert s[k..k + |pat|][|a| - k] == b[0];
      }
    }
  }

  /** An occurrence across the seam of `front + tail + b`, where `tail` starts outside `pat` and lacks `pat[0]`. */
  lemma NoStraddleByBreak(front: string, tail: string, b: string, pat: string)
    requires pat != [] && tail != [] && tail[0] !in pat && pat[0] !in tail
    ensures NoStraddle(front + tail, b, pat)
  {
    var a := front + tail;
    forall k | 0 <= k < |a| < k + |pat| ensures !OccursAt(a + b, pat, k) {
      var s := a + b;
      if k + |pat| <= |s| {
        if k >= |front| {
          assert s[k..k + |pat|][0] == tail[k - |front|];
        } else {
          assert s[k..k + |pat|][|front| - k] == tail[0];
        }
      }
    }
  }

  lemma {:induction false} CatAppend(a: seq<string>, b: seq<string>)
    ensures Cat(a + b) == Cat(a) + Cat(b)
    decreases |a|
  {
    if a == [] {
      assert a + b == b;
    } else {
      CatAppend(a[1..], b);
      assert (a + b)[0] == a[0] && (a + b)[1..] == a[1..] + b;
      assert Cat(a + b) == a[0] + Cat(a[1..] + b);
    }
  }

  /** Two runs of pieces free of `pat`, the second starting outside `pat`, stay free of it once joined. */
  lemma RunsAbsent(a: seq<string>, b: seq<string>, pat: string)
    requires Absent(Cat(a), pat) && Absent(Cat(b), pat)
    requires Cat(b) != [] && Cat(b)[0] !in pat
    ensures Absent(Cat(a + b), pat)
  {
    CatAppend(a, b);
    NoStraddleByFirst(Cat(a), Cat(b), pat);
    AbsentConcat(Cat(a), Cat(b), pat);
  }

  /** A run of helper functions, each free of `pat`, holds no `pat` once joined. */
  lemma {:induction false} JoinAbsent(funcs: seq<seq<string>>, nl: string, pat: string)
    requires pat != [] && '\n' !in pat && '}' !in pat
    requires nl != [] && nl[0] == '\n' && pat[0] !in nl
    requires forall i :: 0 <= i < |funcs| ==> Absent(Cat(funcs[i]), pat)
    ensures Absent(Join(funcs, nl), pat)
    decreases |funcs|
  {
    if funcs != [] {
      var f := Cat(funcs[0]);
      var rest := Join(funcs[1..], nl);
      JoinAbsent(funcs[1..], nl, pat);
      AbsentByChar("}", pat, pat[0]);
      NoStraddleByFirst(f, "}", pat);
      AbsentConcat(f, "}", pat);
      AbsentByChar(nl + nl, pat, pat[0]);
      NoStraddleByChar(nl + nl, FuncText(funcs[0]), pat, 0);
      AbsentConcat(nl + nl, FuncText(funcs[0]), pat);
      NoStraddleByFirst(nl + nl + FuncText(funcs[0]), rest, pat);
      AbsentConcat(nl + nl + FuncText(funcs[0]), rest, pat);
    }
  }

  /**
   * No proper suffix of `gl_FragColor =` is also a prefix of it, so when the
   * text before an assignment holds none, that assignment is the first.
   */
  lemma AssignFirst(a: string, output: string)
    requires Absent(a, FragColorAssign)
    ensures FirstOccurrence(a + FragColorAssign + output, FragColorAssign, |a|)
  {
    var pat := FragColorAssign;
    var b := pat + output;
    assert a + pat + output == a + b;
    forall j | 0 <= j < |a| < j + |pat| ensures !OccursAt(a + b, pat, j) {
      var s := a + b;
      var d := |a| - j;
      assert s[|a|] == pat[0];
      if d + 1 < |pat| {
        assert s[|a| + 1] == pat[1];
      }
    }
    assert b[..|pat|] == pat;
    FirstAfter(a, b, pat);
  }

  // ------------------------------------------ templates the cuts work on

  /**
   * What the cuts rely on: no `void main()` in the helper functions, so the
   * first one is the template's own; the first `gl_FragColor =` of `main`
   * is the final assignment; and a template whose `main` is not closed has
   * helper functions and no `}` from `main` on.
   */
  ghost predicate Composable(p: PatternSource) {
    && Absent(Join(p.funcs, Newline(p)), MainSignature)
    && FirstOccurrence(Body(p), FragColorAssign, |Cat(p.lead)|)
    && (!p.closed ==> p.funcs != [] && '}' !in Cat(p.lead) && '}' !in p.output)
  }

  /** None of the three header lines occurs among the helper functions. */
  ghost predicate HeaderFree(p: PatternSource) {
    && Absent(Join(p.funcs, Newline(p)), PrecisionLine)
    && Absent(Join(p.funcs, Newline(p)), TimeUniform)
    && Absent(Join(p.funcs, Newline(p)), ResolutionUniform)
  }

  // ------------------------------------------------ string regrouping

  lemma Slice(a: string, b: string)
    ensures (a + b)[..|a|] == a && (a + b)[|a|..] == b
  {
  }

  lemma Regroup3(a: string, b: string, c: string)
    ensures a + b + c == a + (b + c)
  {
  }

  lemma Middle(a: string, b: string, c: string)
    ensures (a + b + c)[|a|..|a| + |b|] == b
  {
    assert (a + b + c)[|a|..|a| + |b|] == (a + b + c)[|a|..][..|b|];
    Slice(a, b + c);
    Regroup3(a, b, c);
    Slice(b, c);
  }

  /** A line break and its indentation hold nothing but whitespace. */
  lemma NewlineChars(p: PatternSource)
    ensures AllWhitespace(Newline(p))
    ensures forall c :: c in Newline(p) ==> c == '\n' || c == ' '
  {
    var s := Newline(p);
    forall k | 0 <= k < |s| ensures IsWhitespace(s[k]) {
      assert s[k] in s;
    }
  }

  lemma {:induction false} JoinEnds(funcs: seq<seq<string>>, nl: string)
    requires funcs != []
    ensures Join(funcs, nl) != [] && Join(funcs, nl)[|Join(funcs, nl)| - 1] == '}'
    decreases |funcs|
  {
    if |funcs| > 1 {
      JoinEnds(funcs[1..], nl);
    }
  }

  lemma HeaderEnds(nl: string)
    ensures Header(nl) != [] && Header(nl)[0] == 'p' && Header(nl)[|Header(nl)| - 1] == ';'
  {
  }

  lemma HeaderAvoids(nl: string, c: char)
    requires c !in nl && c !in PrecisionLine && c !in TimeUniform && c !in ResolutionUniform
    ensures c !in Header(nl)
  {
  }

  /** The declarations end with a character that is not whitespace. */
  lemma CoreEnds(p: PatternSource)
    requires Composable(p)
    ensures Core(p) != [] && !IsWhitespace(Core(p)[|Core(p)| - 1])
    ensures p.funcs != [] ==> Core(p)[|Core(p)| - 1] == '}'
    ensures Core(p)[0] == 'p'
  {
    var nl := Newline(p);
    HeaderEnds(nl);
    if p.funcs != [] {
      JoinEnds(p.funcs, nl);
    }
  }

  lemma Regroup4(w: string, x: string, y: string, z: string)
    ensures w + (x + y) + z == (w + x) + (y + z)
  {
  }

  /** No `void main()` before the template's own. */
  lemma PrefixAvoidsMain(p: PatternSource)
    requires Composable(p)
    ensures Absent(Prefix(p), MainSignature)
  {
    var nl := Newline(p);
    NewlineChars(p);
    var h := nl + Header(nl);
    var j := Join(p.funcs, nl) + (nl + nl);
    Regroup4(nl, Header(nl), Join(p.funcs, nl), nl + nl);
    assert Prefix(p) == h + j;
    HeaderAvoids(nl, '(');
    AbsentByChar(h, MainSignature, '(');
    AbsentByChar(nl + nl, MainSignature, 'v');
    NoStraddleByFirst(Join(p.funcs, nl), nl + nl, MainSignature);
    AbsentConcat(Join(p.funcs, nl), nl + nl, MainSignature);
    HeaderEnds(nl);
    assert h[|h| - 1] == ';';
    NoStraddleByLast(h, j, MainSignature);
    AbsentConcat(h, j, MainSignature);
  }

  /** `main` starts with its signature and the opening brace. */
  lemma MainStarts(p: PatternSource)
    ensures OccursAt(MainPart(p), MainSignature, 0)
    ensures |MainPart(p)| > 12 && MainPart(p)[12] == '{' && '{' !in MainPart(p)[..12]
  {
    var m := MainSignature + " {";
    Slice(m, Body(p) + Tail(p));
    assert MainPart(p)[..11] == m[..11];
    assert MainPart(p)[..12] == m[..12];
  }

  /** The first `void main()` is the template's own. */
  lemma MainFound(p: PatternSource)
    requires Composable(p)
    ensures IndexOf(Render(p), MainSignature, 0) == |Prefix(p)|
  {
    var nl := Newline(p);
    NewlineChars(p);
    PrefixAvoidsMain(p);
    assert Prefix(p) == (nl + Core(p)) + (nl + nl);
    NoStraddleByBreak(nl + Core(p), nl + nl, MainPart(p), MainSignature);
    MainStarts(p);
    FirstAfter(Prefix(p), MainPart(p), MainSignature);
    IndexOfFirst(Render(p), MainSignature, |Prefix(p)|);
  }

  /** `extractFunctions` returns the template's declarations, header lines included. */
  lemma ExtractFunctionsOfRender(p: PatternSource)
    requires Composable(p)
    ensures ExtractFunctions(Render(p)) == Core(p)
  {
    MainFound(p);
    Slice(Prefix(p), MainPart(p));
    var nl := Newline(p);
    NewlineChars(p);
    CoreEnds(p);
    AllWhitespaceConcat(nl, nl);
    TrimAround(nl, Core(p), nl + nl);
  }

  /** The first `{` after `void main()` opens `main`. */
  lemma MainBraceFound(p: PatternSource)
    requires Composable(p)
    ensures IndexOf(Render(p), "{", |Prefix(p)|) == |Prefix(p)| + 12
  {
    var s := Render(p);
    var k := |Prefix(p)|;
    MainStarts(p);
    Slice(Prefix(p), MainPart(p));
    assert s[k..k + 12] == s[k..][..12];
    assert s[k + 12] == s[k..][12];
    IndexOfChar(s, '{', k, k + 12);
  }

  lemma Regroup5(a: string, b: string, c: string, d: string, e: string)
    ensures a + (b + (c + (d + e))) == a + b + c + d + e
    ensures a + (b + (c + (d + e))) == (a + b) + c + (d + e)
  {
  }

  /** A closed template is its text up to the body, the body, `}` and the last line. */
  lemma ClosedShape(p: PatternSource)
    requires p.closed
    ensures Render(p) == Prefix(p) + (MainSignature + " {") + Body(p) + "}" + ("\n" + Spaces(p.outer))
    ensures Render(p) == (Prefix(p) + (MainSignature + " {")) + Body(p) + ("}" + ("\n" + Spaces(p.outer)))
  {
    assert Tail(p) == "}" + ("\n" + Spaces(p.outer));
    Regroup5(Prefix(p), MainSignature + " {", Body(p), "}", "\n" + Spaces(p.outer));
  }

  /** In a closed template the last `}` is the one that closes `main`, right after its body. */
  lemma LastBraceClosed(p: PatternSource)
    requires p.closed
    ensures LastIndexOf(Render(p), "}") == |Prefix(p)| + 13 + |Body(p)|
  {
    var a := Prefix(p) + (MainSignature + " {");
    ClosedShape(p);
    LastIndexOfChar(a + Body(p), '}', "\n" + Spaces(p.outer));
  }

  /** For a closed template, `extractMainBody` returns exactly the body of `main`. */
  lemma ExtractMainBodyClosed(p: PatternSource)
    requires Composable(p) && p.closed
    ensures ExtractMainBody(Render(p)) == Body(p)
  {
    MainFound(p);
    MainBraceFound(p);
    LastBraceClosed(p);
    var a := Prefix(p) + (MainSignature + " {");
    ClosedShape(p);
    Middle(a, Body(p), "}" + ("\n" + Spaces(p.outer)));
  }

  /** Outside a closed `main` there is no `}` after the declarations. */
  lemma UnclosedMainAvoids(p: PatternSource)
    requires Composable(p) && !p.closed
    ensures '}' !in MainPart(p)
  {
    assert Tail(p) == "\n" + Spaces(p.outer);
    assert '}' !in Body(p);
  }

  lemma Regroup6(w: string, x: string, y: string, z: string, m: string)
    ensures w + (x + y) + z + m == (w + x) + y + (z + m)
    ensures w + (x + y) + z + m == (w + x) + (y + z) + m
  {
  }

  /** An unclosed template: the declarations' last brace, then only blank lines and `main`. */
  lemma UnclosedShape(p: PatternSource)
    requires Composable(p) && !p.closed
    ensures var c := Core(p); var nl := Newline(p);
      && c != []
      && Render(p) == (nl + c[..|c| - 1]) + "}" + ((nl + nl) + MainPart(p))
      && Render(p) == (nl + c[..|c| - 1]) + ("}" + (nl + nl)) + MainPart(p)
  {
    var c := Core(p);
    var nl := Newline(p);
    CoreEnds(p);
    assert c == c[..|c| - 1] + "}";
    Regroup6(nl, c[..|c| - 1], "}", nl + nl, MainPart(p));
  }

  /** Where the last `}` of an unclosed template sits: at the end of its declarations. */
  lemma LastBraceUnclosed(p: PatternSource)
    requires Composable(p) && !p.closed
    ensures LastIndexOf(Render(p), "}") == |Newline(p)| + |Core(p)| - 1
  {
    var c := Core(p);
    var nl := Newline(p);
    UnclosedShape(p);
    UnclosedMainAvoids(p);
    NewlineChars(p);
    LastIndexOfChar(nl + c[..|c| - 1], '}', (nl + nl) + MainPart(p));
  }

  lemma SliceMiddle(a: string, b: string, c: string, d: string)
    ensures (a + b + (c + d))[|a|..|a| + |b| + |c|] == b + c
  {
    assert a + b + (c + d) == a + (b + c) + d;
    Middle(a, b + c, d);
  }

  /** The text from the declarations' last `}` through `void main() {`. */
  lemma UnclosedSlice(p: PatternSource)
    requires Composable(p) && !p.closed
    ensures var k := |Prefix(p)|;
      Render(p)[|Newline(p)| + |Core(p)| - 1..k + 13] == "}" + (Newline(p) + Newline(p)) + (MainSignature + " {")
  {
    var c := Core(p);
    var nl := Newline(p);
    var a := nl + c[..|c| - 1];
    var b := "}" + (nl + nl);
    var m := MainSignature + " {";
    var rest := Body(p) + Tail(p);
    assert Render(p) == a + b + (m + rest) && c != [] by {
      UnclosedShape(p);
      assert MainPart(p) == m + rest;
    }
    SliceMiddle(a, b, m, rest);
    assert |a| == |nl| + |c| - 1;
    assert |Prefix(p)| == |nl| + |c| + (|nl| + |nl|);
    assert |m| == 13;
  }

  /** Without `main`'s closing brace, the last `}` of a template is the last helper function's, before `main`. */
  lemma UnclosedBraceBeforeMain(p: PatternSource)
    requires Composable(p) && !p.closed
    ensures 0 <= LastIndexOf(Render(p), "}") < IndexOf(Render(p), MainSignature, 0)
  {
    MainFound(p);
    LastBraceUnclosed(p);
  }

  /** With it, the last `}` of a template comes after `void main()` and closes it. */
  lemma ClosedBraceAfterMain(p: PatternSource)
    requires Composable(p) && p.closed
    ensures 0 <= IndexOf(Render(p), MainSignature, 0) < LastIndexOf(Render(p), "}")
  {
    MainFound(p);
    LastBraceClosed(p);
  }

  /**
   * For a template whose `main` is not closed, the last `}` closes the last
   * helper function, before `main`; `substring` swaps its bounds and
   * returns that brace through `void main() {` instead of the body.
   */
  lemma ExtractMainBodyUnclosed(p: PatternSource)
    requires Composable(p) && !p.closed
    ensures ExtractMainBody(Render(p)) == "}" + (Newline(p) + Newline(p)) + (MainSignature + " {")
  {
    MainFound(p);
    MainBraceFound(p);
    LastBraceUnclosed(p);
    UnclosedSlice(p);
  }

  /** A line starting with `u` is removed where it first follows a `u`-free prefix. */
  lemma RemoveLineAfter(pre: string, y: string, rest: string)
    requires y != [] && y[0] == 'u' && 'u' !in pre
    ensures ReplaceFirst(pre + y + rest, y, "") == pre + rest
  {
    AbsentByChar(pre, y, 'u');
    NoStraddleByChar(pre, y + rest, y, 0);
    ReplaceFirstAfter(pre, y, rest, "");
  }

  lemma Regroup7(x: string, nl: string, y: string, z: string, j: string)
    ensures x + nl + y + nl + z + j == x + (nl + y + (nl + z + j))
    ensures nl + (nl + z + j) == (nl + nl) + z + j
  {
  }

  /** Three lines removed one after the other, each at its first occurrence. */
  lemma RemoveThreeLines(x: string, y: string, z: string, nl: string, j: string)
    requires y != [] && z != [] && y[0] == 'u' && z[0] == 'u' && 'u' !in nl
    ensures ReplaceFirst(ReplaceFirst(ReplaceFirst(x + nl + y + nl + z + j, x, ""), y, ""), z, "") == nl + nl + j
  {
    Regroup7(x, nl, y, z, j);
    ReplaceFirstAtStart(x, nl + y + (nl + z + j), "");
    RemoveLineAfter(nl, y, nl + z + j);
    RemoveLineAfter(nl + nl, z, j);
  }

  /** Only the first header line of each kind is removed; the helper functions stay. */
  lemma StripHeaderOfCore(p: PatternSource)
    ensures StripHeader(Core(p)) == Newline(p) + Newline(p) + Join(p.funcs, Newline(p))
  {
    NewlineChars(p);
    RemoveThreeLines(PrecisionLine, TimeUniform, ResolutionUniform, Newline(p), Join(p.funcs, Newline(p)));
  }

  /** Only the final assignment to `gl_FragColor` is rewritten, when it is the first one. */
  lemma RetargetBody(p: PatternSource)
    requires FirstOccurrence(Body(p), FragColorAssign, |Cat(p.lead)|)
    ensures Retarget(Body(p)) == Cat(p.lead) + "color =" + p.output
  {
    var lead := Cat(p.lead);
    var s := Body(p);
    assert s[..|lead|] == lead;
    assert s[|lead| + |FragColorAssign|..] == p.output;
  }


}
