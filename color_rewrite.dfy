/**
 * The colour randomiser's global regex replace: every literal
 *   vec3 \s* ( \s* N \s* , \s* N \s* , \s* N \s* )
 * with N an unsigned decimal (`digits`, `digits.digits` or `.digits`) is
 * replaced by `vec3(r, g, b)` built from three freshly drawn strings.
 *
 * The regex is written as a sequence of tokens. `Fits` says which texts
 * each token admits (the regex's language, whatever order a backtracking
 * engine tries things in); `Parse` is a deterministic left-to-right
 * scanner. The two agree: `Parse` succeeds exactly when some split of a
 * prefix fits the tokens, and that split is unique.
 */
module ColorRewrite {
  import opened Wrappers
  import opened JsString
  import opened Numerals

  datatype Token = Lit(c: char) | Space | Number

  /** The tokens of the colour-literal regex. */
  const ColorPattern: seq<Token> := [
    Lit('v'), Lit('e'), Lit('c'), Lit('3'), Space, Lit('('),
    Space, Number, Space, Lit(','),
    Space, Number, Space, Lit(','),
    Space, Number, Space, Lit(')')
  ]

  // ------------------------------------------------------------ lexemes

  /** Length of the longest run of `\s` characters that starts `t`. */
  function SpaceRun(t: string): (n: nat)
    ensures n <= |t| && AllWhitespace(t[..n]) && (n == |t| || !IsWhitespace(t[n]))
  {
    if t != [] && IsWhitespace(t[0]) then
      var n := 1 + SpaceRun(t[1..]);
      assert t[..n] == [t[0]] + t[1..][..n - 1];
      n
    else 0
  }

  /** Length of the longest run of decimal digits that starts `t`. */
  function DigitRun(t: string): (n: nat)
    ensures n <= |t| && AllDigits(t[..n]) && (n == |t| || !IsDigit(t[n]))
  {
    if t != [] && IsDigit(t[0]) then
      var n := 1 + DigitRun(t[1..]);
      assert t[..n] == [t[0]] + t[1..][..n - 1];
      n
    else 0
  }

  /** `x` is `[0-9]*\.[0-9]+` or `[0-9]+`. */
  predicate IsNumber(x: string) {
    var d := DigitRun(x);
    (x != [] && d == |x|) || (d + 1 < |x| && x[d] == '.' && AllDigits(x[d + 1..]))
  }

  /**
   * Length of the number that starts `t`, 0 when there is none: the first
   * alternative `[0-9]*\.[0-9]+` is taken greedily when it matches,
   * otherwise `[0-9]+`.
   */
  function NumberRun(t: string): (n: nat)
    ensures n <= |t| && (n == 0 || IsNumber(t[..n]))
  {
    var d := DigitRun(t);
    if d < |t| && t[d] == '.' && DigitRun(t[d + 1..]) > 0 then
      var n := d + 1 + DigitRun(t[d + 1..]);
      var x := t[..n];
      assert x[..d] == t[..d];
      assert DigitRun(x) == d by { DigitRunOf(t[..d], t[d..n]); assert x == t[..d] + t[d..n]; }
      assert x[d + 1..] == t[d + 1..][..n - d - 1];
      n
    else d
  }

  lemma {:induction false} DigitRunOf(x: string, u: string)
    requires AllDigits(x) && (u == [] || !IsDigit(u[0]))
    ensures DigitRun(x + u) == |x|
    decreases |x|
  {
    if x != [] {
      assert (x + u)[1..] == x[1..] + u;
      DigitRunOf(x[1..], u);
    } else {
      assert x + u == u;
    }
  }

  lemma {:induction false} SpaceRunOf(x: string, u: string)
    requires AllWhitespace(x) && (u == [] || !IsWhitespace(u[0]))
    ensures SpaceRun(x + u) == |x|
    decreases |x|
  {
    if x != [] {
      assert (x + u)[1..] == x[1..] + u;
      SpaceRunOf(x[1..], u);
    } else {
      assert x + u == u;
    }
  }

  /** A character that cannot continue a number. */
  predicate EndsNumber(c: char) {
    !IsDigit(c) && c != '.'
  }

  /** A maximal digit run followed by something other than `.` is the number `NumberRun` finds. */
  lemma WholeNumberRunOf(x: string, u: string)
    requires AllDigits(x) && x != [] && (u == [] || EndsNumber(u[0]))
    ensures NumberRun(x + u) == |x|
  {
    var t := x + u;
    DigitRunOf(x, u);
    assert |x| == |t| || t[|x|] == u[0];
  }

  /** A number with a point, followed by something that cannot continue it, is the number `NumberRun` finds. */
  lemma PointNumberRunOf(x: string, u: string)
    requires IsNumber(x) && DigitRun(x) < |x| && (u == [] || EndsNumber(u[0]))
    ensures NumberRun(x + u) == |x|
  {
    var d := DigitRun(x);
    DigitRunBeforePoint(x, u);
    DigitRunAfterPoint(x, u, d);
    NumberRunPoint(x + u);
  }

  /** When digits, a point and more digits start `t`, `NumberRun` takes all three. */
  lemma NumberRunPoint(t: string)
    requires DigitRun(t) < |t| && t[DigitRun(t)] == '.' && DigitRun(t[DigitRun(t) + 1..]) > 0
    ensures NumberRun(t) == DigitRun(t) + 1 + DigitRun(t[DigitRun(t) + 1..])
  {
  }

  lemma DigitRunBeforePoint(x: string, u: string)
    requires DigitRun(x) < |x| && x[DigitRun(x)] == '.'
    ensures DigitRun(x + u) == DigitRun(x) && (x + u)[DigitRun(x)] == '.'
  {
    var d := DigitRun(x);
    assert x + u == x[..d] + (x[d..] + u);
    DigitRunOf(x[..d], x[d..] + u);
  }

  lemma DigitRunAfterPoint(x: string, u: string, d: nat)
    requires d < |x| && AllDigits(x[d + 1..]) && (u == [] || EndsNumber(u[0]))
    ensures DigitRun((x + u)[d + 1..]) == |x| - d - 1
  {
    assert (x + u)[d + 1..] == x[d + 1..] + u;
    DigitRunOf(x[d + 1..], u);
  }

  /** A maximal number is the number `NumberRun` finds. */
  lemma NumberRunOf(x: string, u: string)
    requires IsNumber(x) && (u == [] || EndsNumber(u[0]))
    ensures NumberRun(x + u) == |x|
  {
    if DigitRun(x) == |x| {
      WholeNumberRunOf(x, u);
    } else {
      PointNumberRunOf(x, u);
    }
  }

  // ------------------------------------------------------ regex language

  /** The texts a token admits. */
  predicate Fits(k: Token, x: string) {
    match k
    case Lit(c) => x == [c]
    case Space => AllWhitespace(x)
    case Number => IsNumber(x)
  }

  predicate FitsAll(ks: seq<Token>, ps: seq<string>) {
    |ps| == |ks| && forall i :: 0 <= i < |ks| ==> Fits(ks[i], ps[i])
  }

  lemma FitsAllCons(k: Token, x: string, ks: seq<Token>, ps: seq<string>)
    requires Fits(k, x) && FitsAll(ks, ps)
    ensures FitsAll([k] + ks, [x] + ps)
  {
    forall i | 0 <= i < |ks| + 1 ensures Fits(([k] + ks)[i], ([x] + ps)[i]) {
      if i > 0 {
        assert ([k] + ks)[i] == ks[i - 1];
        assert ([x] + ps)[i] == ps[i - 1];
      }
    }
  }

  function Concat(ps: seq<string>): string {
    if ps == [] then [] else ps[0] + Concat(ps[1..])
  }

  /** What stops a token's greedy scan: the character that may follow it. */
  predicate Stops(k: Token, c: char) {
    match k
    case Lit(_) => true
    case Space => !IsWhitespace(c)
    case Number => EndsNumber(c)
  }

  /**
   * In the token sequence, every `\s*` is followed by a token that cannot
   * start with whitespace, and every number by an optional `\s*` and then a
   * literal that cannot continue a number.
   */
  predicate Separated(ks: seq<Token>) {
    forall i :: 0 <= i < |ks| ==> SeparatedAt(ks, i)
  }

  predicate SeparatedAt(ks: seq<Token>, i: nat)
    requires i < |ks|
  {
    && (ks[i] == Space ==>
          i + 1 < |ks| && ks[i + 1] != Space && (ks[i + 1].Lit? ==> !IsWhitespace(ks[i + 1].c)))
    && (ks[i] == Number ==>
          i + 2 < |ks| && ks[i + 1] == Space && ks[i + 2].Lit?
          && EndsNumber(ks[i + 2].c) && !IsWhitespace(ks[i + 2].c))
  }

  lemma ColorPatternSeparated()
    ensures Separated(ColorPattern)
  {
    var ks := ColorPattern;
    forall i | 0 <= i < |ks| ensures SeparatedAt(ks, i) {
      if i < 4 || i == 5 || i == 9 || i == 13 || i == 17 {
        assert ks[i].Lit?;
      } else if i == 4 || i == 8 || i == 12 || i == 16 {
        assert ks[i] == Space && ks[i + 1].Lit?;
      } else if i == 6 || i == 10 || i == 14 {
        assert ks[i] == Space && ks[i + 1] == Number;
      } else {
        assert ks[i] == Number && ks[i + 1] == Space && ks[i + 2].Lit?;
      }
    }
  }

  // ------------------------------------------------------------- scanner

  /** The length a token's scan takes from the start of `t`, if it succeeds. */
  function Scan(k: Token, t: string): (r: Option<nat>)
    ensures r.Some? ==> r.value <= |t| && Fits(k, t[..r.value])
  {
    match k
    case Lit(c) => if t != [] && t[0] == c then assert t[..1] == [c]; Some(1) else None
    case Space => Some(SpaceRun(t))
    case Number => var n := NumberRun(t); if n > 0 then Some(n) else None
  }

  /** Scans the tokens in order from the start of `t`, returning the text each one took. */
  function Parse(ks: seq<Token>, t: string): (r: Option<seq<string>>)
    ensures r.Some? ==> FitsAll(ks, r.value) && |Concat(r.value)| <= |t| && Concat(r.value) == t[..|Concat(r.value)|]
    decreases |ks|
  {
    if ks == [] then Some([])
    else match Scan(ks[0], t)
      case None => None
      case Some(n) =>
        match Parse(ks[1..], t[n..])
        case None => None
        case Some(ps) =>
          FitsAllCons(ks[0], t[..n], ks[1..], ps);
          assert [ks[0]] + ks[1..] == ks;
          ConcatCons(t[..n], ps);
          PrefixJoin(t, n, |Concat(ps)|);
          Some([t[..n]] + ps)
  }

  // ------------------------------------------------- scanner = language

  lemma SeparatedTail(ks: seq<Token>)
    requires ks != [] && Separated(ks)
    ensures Separated(ks[1..])
  {
    forall i | 0 <= i < |ks| - 1 ensures SeparatedAt(ks[1..], i) {
      assert SeparatedAt(ks, i + 1);
      assert ks[1..][i] == ks[i + 1];
      if i + 1 < |ks| - 1 {
        assert ks[1..][i + 1] == ks[i + 2];
      }
      if i + 2 < |ks| - 1 {
        assert ks[1..][i + 2] == ks[i + 3];
      }
    }
  }

  /** The character that follows the first piece stops the first token's scan. */
  lemma FirstStops(ks: seq<Token>, ps: seq<string>, rest: string)
    requires ks != [] && Separated(ks) && FitsAll(ks, ps)
    ensures var u := Concat(ps[1..]) + rest;
            u == [] || Stops(ks[0], u[0])
  {
    var u := Concat(ps[1..]) + rest;
    var k := ks[0];
    assert SeparatedAt(ks, 0);
    match k
    case Lit(_) =>
    case Space =>
      assert ks[1] != Space && Fits(ks[1], ps[1]);
      assert ps[1..][0] == ps[1];
      assert ps[1] != [] && u[0] == ps[1][0] by {
        assert Concat(ps[1..]) == ps[1] + Concat(ps[2..]) by { assert ps[1..][1..] == ps[2..]; }
      }
      if ks[1].Number? {
        assert DigitRun(ps[1]) == 0 ==> ps[1][0] == '.';
      }
    case Number =>
      assert Fits(ks[1], ps[1]) && Fits(ks[2], ps[2]);
      assert ps[1..][0] == ps[1] && ps[1..][1..] == ps[2..] && ps[2..][0] == ps[2];
      assert Concat(ps[1..]) == ps[1] + (ps[2] + Concat(ps[3..])) by { assert ps[2..][1..] == ps[3..]; }
      if ps[1] != [] {
        assert u[0] == ps[1][0];
      } else {
        assert u[0] == ks[2].c;
      }
  }

  /**
   * Any split of a prefix of `t` that fits the tokens is the one the
   * scanner returns: the regex has exactly one match at a position, and
   * `Parse` finds it.
   */
  lemma {:induction false} ParseComplete(ks: seq<Token>, ps: seq<string>, t: string)
    requires Separated(ks) && FitsAll(ks, ps)
    requires |Concat(ps)| <= |t| && Concat(ps) == t[..|Concat(ps)|]
    ensures Parse(ks, t) == Some(ps)
    decreases |ks|
  {
    if ks != [] {
      var n := |ps[0]|;
      ScanFirst(ks, ps, t);
      FitsAllTail(ks, ps);
      SeparatedTail(ks);
      ParseComplete(ks[1..], ps[1..], t[n..]);
      ParseStep(ks, t, n, ps[1..]);
      assert [ps[0]] + ps[1..] == ps;
    }
  }

  lemma PrefixJoin(t: string, n: nat, m: nat)
    requires n + m <= |t|
    ensures t[..n + m] == t[..n] + t[n..][..m]
  {
  }

  lemma FitsAllTail(ks: seq<Token>, ps: seq<string>)
    requires ks != [] && FitsAll(ks, ps)
    ensures Fits(ks[0], ps[0]) && FitsAll(ks[1..], ps[1..])
  {
    forall i | 0 <= i < |ks| - 1 ensures Fits(ks[1..][i], ps[1..][i]) {
      assert ks[1..][i] == ks[i + 1] && ps[1..][i] == ps[i + 1];
    }
  }

  /** One step of the scanner, unfolded. */
  lemma ParseStep(ks: seq<Token>, t: string, n: nat, qs: seq<string>)
    requires ks != [] && Scan(ks[0], t) == Some(n) && Parse(ks[1..], t[n..]) == Some(qs)
    ensures Parse(ks, t) == Some([t[..n]] + qs)
  {
  }

  /** The first token of a fitting split scans exactly its own text. */
  lemma ScanFirst(ks: seq<Token>, ps: seq<string>, t: string)
    requires ks != [] && Separated(ks) && FitsAll(ks, ps)
    requires |Concat(ps)| <= |t| && Concat(ps) == t[..|Concat(ps)|]
    ensures Scan(ks[0], t) == Some(|ps[0]|) && t[..|ps[0]|] == ps[0]
    ensures |Concat(ps[1..])| <= |t| - |ps[0]| && Concat(ps[1..]) == t[|ps[0]|..][..|Concat(ps[1..])|]
  {
    var rest := t[|Concat(ps)|..];
    var c := Concat(ps[1..]);
    ConcatCons(ps[0], ps[1..]);
    assert [ps[0]] + ps[1..] == ps;
    SplitPrefix(t, ps[0], c);
    FirstStops(ks, ps, rest);
    FitsAllTail(ks, ps);
    ScanOwnText(ks[0], ps[0], c + rest);
  }

  /** A text that begins with `a + b` splits into `a`, then `b`, then the rest. */
  lemma SplitPrefix(t: string, a: string, b: string)
    requires |a + b| <= |t| && a + b == t[..|a + b|]
    ensures t[..|a|] == a && |b| <= |t| - |a| && b == t[|a|..][..|b|]
    ensures t == a + (b + t[|a + b|..])
  {
    assert t == t[..|a + b|] + t[|a + b|..];
  }

  /** A token scans exactly a text it fits when what follows stops it. */
  lemma ScanOwnText(k: Token, x: string, u: string)
    requires Fits(k, x) && (u == [] || Stops(k, u[0]))
    ensures Scan(k, x + u) == Some(|x|)
  {
    match k {
      case Lit(_) =>
      case Space => SpaceRunOf(x, u);
      case Number => NumberRunOf(x, u);
    }
  }

  /** A regex match starting at the beginning of `t`. */
  ghost predicate MatchesAt(t: string, ps: seq<string>) {
    FitsAll(ColorPattern, ps) && |Concat(ps)| <= |t| && Concat(ps) == t[..|Concat(ps)|]
  }

  /** The scanner succeeds exactly on the matches of the regex. */
  lemma ParseExact(t: string, ps: seq<string>)
    ensures Parse(ColorPattern, t) == Some(ps) <==> MatchesAt(t, ps)
  {
    if MatchesAt(t, ps) {
      ColorPatternSeparated();
      ParseComplete(ColorPattern, ps, t);
    }
    if Parse(ColorPattern, t) == Some(ps) {
      assert FitsAll(ColorPattern, ps);
    }
  }

  /** The scanner fails exactly where the regex has no match. */
  lemma ParseNone(t: string)
    ensures Parse(ColorPattern, t) == None <==> forall ps :: !MatchesAt(t, ps)
  {
    var r := Parse(ColorPattern, t);
    if r.Some? {
      ParseExact(t, r.value);
    }
    forall ps ensures r == None ==> !MatchesAt(t, ps) {
      ParseExact(t, ps);
    }
  }

  lemma ConcatAt(ps: seq<string>, i: nat)
    requires i < |ps|
    ensures Concat(ps[i..]) == ps[i] + Concat(ps[i + 1..])
  {
    assert ps[i..][1..] == ps[i + 1..];
  }

  lemma {:induction false} ConcatAvoids(ps: seq<string>, c: char)
    requires forall i :: 0 <= i < |ps| ==> c !in ps[i]
    ensures c !in Concat(ps)
    decreases |ps|
  {
    if ps != [] {
      ConcatAvoids(ps[1..], c);
    }
  }

  /** A match is never empty and holds its only `v` at its first character. */
  lemma MatchStartsWithV(ps: seq<string>)
    requires FitsAll(ColorPattern, ps)
    ensures Concat(ps) != [] && Concat(ps)[0] == 'v' && 'v' !in Concat(ps)[1..]
  {
    assert Fits(ColorPattern[0], ps[0]);
    assert Concat(ps) == "v" + Concat(ps[1..]);
    forall i | 0 <= i < |ps| - 1 ensures 'v' !in ps[1..][i] {
      assert ps[1..][i] == ps[i + 1] && Fits(ColorPattern[i + 1], ps[i + 1]);
      if ColorPattern[i + 1] == Number {
        NumberAvoids(ps[i + 1], 'v');
      }
    }
    ConcatAvoids(ps[1..], 'v');
  }

  lemma NumberAvoids(x: string, c: char)
    requires IsNumber(x) && !IsDigit(c) && c != '.'
    ensures c !in x
  {
    var d := DigitRun(x);
    assert x == x[..d] + x[d..];
    if d < |x| {
      assert x[d..] == [x[d]] + x[d + 1..];
    }
  }

  // ------------------------------------------------------ global replace

  /** The three strings a callback returns for one match. */
  datatype Rgb = Rgb(r: string, g: string, b: string)

  /** The text that replaces a match. */
  function Replacement(c: Rgb): string {
    "vec3(" + c.r + ", " + c.g + ", " + c.b + ")"
  }

  /** The number of matches a global scan finds in `t`. */
  function Count(t: string): (n: nat)
    ensures n <= |t|
    ensures 'v' !in t ==> n == 0
    decreases |t|
  {
    if t == [] then 0
    else match Parse(ColorPattern, t)
      case Some(ps) => MatchStartsWithV(ps); 1 + Count(t[|Concat(ps)|..])
      case None => Count(t[1..])
  }

  /**
   * `t.replace(regex, callback)` with the `g` flag: scanning from the left,
   * each match is replaced by the next colour `rgb(k)` and scanning resumes
   * after it; text where no match starts is copied one character at a time.
   */
  function Rewrite(t: string, rgb: nat -> Rgb, k: nat): (r: string)
    ensures 'v' !in t ==> r == t
    decreases |t|
  {
    if t == [] then []
    else match Parse(ColorPattern, t)
      case Some(ps) => MatchStartsWithV(ps); Replacement(rgb(k)) + Rewrite(t[|Concat(ps)|..], rgb, k + 1)
      case None => [t[0]] + Rewrite(t[1..], rgb, k)
  }

  /** Text without matches is returned unchanged. */
  lemma {:induction false} RewriteWithoutMatches(t: string, rgb: nat -> Rgb, k: nat)
    requires Count(t) == 0
    ensures Rewrite(t, rgb, k) == t
    decreases |t|
  {
    if t != [] {
      RewriteWithoutMatches(t[1..], rgb, k);
    }
  }

  predicate IsColor(c: Rgb) {
    IsNumber(c.r) && IsNumber(c.g) && IsNumber(c.b)
  }

  /** How a replacement splits over the regex's tokens. */
  function ReplacementPieces(c: Rgb): seq<string> {
    ["v", "e", "c", "3", "", "(", ""] + [c.r, "", ",", " "] + [c.g, "", ",", " "] + [c.b, "", ")"]
  }

  lemma {:induction false} ConcatAppend(a: seq<string>, b: seq<string>)
    ensures Concat(a + b) == Concat(a) + Concat(b)
    decreases |a|
  {
    if a == [] {
      assert a + b == b;
    } else {
      assert (a + b)[1..] == a[1..] + b;
      ConcatAppend(a[1..], b);
    }
  }

  lemma ConcatCons(x: string, ps: seq<string>)
    ensures Concat([x] + ps) == x + Concat(ps)
  {
    assert ([x] + ps)[1..] == ps;
  }

  lemma HeadConcat()
    ensures Concat(["v", "e", "c", "3", "", "(", ""]) == "vec3("
  {
    var head: seq<string> := ["v", "e", "c", "3", "", "(", ""];
    ConcatCons("v", head[1..]); ConcatCons("e", head[2..]); ConcatCons("c", head[3..]);
    ConcatCons("3", head[4..]); ConcatCons("", head[5..]); ConcatCons("(", head[6..]);
    ConcatCons("", []);
  }

  lemma ComponentConcat(x: string)
    ensures Concat([x, "", ",", " "]) == x + ", "
  {
    ConcatCons(x, ["", ",", " "]); ConcatCons("", [",", " "]); ConcatCons(",", [" "]); ConcatCons(" ", []);
  }

  lemma LastComponentConcat(x: string)
    ensures Concat([x, "", ")"]) == x + ")"
  {
    ConcatCons(x, ["", ")"]); ConcatCons("", [")"]); ConcatCons(")", []);
  }

  lemma ReplacementConcat(c: Rgb)
    ensures Concat(ReplacementPieces(c)) == Replacement(c)
  {
    var head: seq<string> := ["v", "e", "c", "3", "", "(", ""];
    var pr, pg, pb := [c.r, "", ",", " "], [c.g, "", ",", " "], [c.b, "", ")"];
    HeadConcat();
    ComponentConcat(c.r);
    ComponentConcat(c.g);
    LastComponentConcat(c.b);
    ConcatAppend(head, pr);
    ConcatAppend(head + pr, pg);
    ConcatAppend(head + pr + pg, pb);
    assert ReplacementPieces(c) == head + pr + pg + pb;
    assert "vec3(" + (c.r + ", ") + (c.g + ", ") + (c.b + ")") == Replacement(c);
  }

  lemma ReplacementFits(c: Rgb)
    requires IsColor(c)
    ensures FitsAll(ColorPattern, ReplacementPieces(c))
  {
    var ps := ReplacementPieces(c);
    forall i | 0 <= i < |ps| ensures Fits(ColorPattern[i], ps[i]) {
      if i == 10 || i == 14 {
        assert IsWhitespace(' ');
      }
    }
  }

  /** A replacement made of three numbers is itself a match of the regex. */
  lemma ReplacementMatches(c: Rgb, rest: string)
    requires IsColor(c)
    ensures Parse(ColorPattern, Replacement(c) + rest) == Some(ReplacementPieces(c))
    ensures |Concat(ReplacementPieces(c))| == |Replacement(c)|
  {
    ReplacementConcat(c);
    ReplacementFits(c);
    ColorPatternSeparated();
    ParseComplete(ColorPattern, ReplacementPieces(c), Replacement(c) + rest);
  }

  /** A prefix of the output without a `v` is text copied from the input: every replacement starts with `v`. */
  lemma {:induction false} RewriteCopies(t: string, rgb: nat -> Rgb, k: nat, n: nat)
    requires n <= |Rewrite(t, rgb, k)|
    ensures 'v' !in Rewrite(t, rgb, k)[..n] ==> n <= |t| && Rewrite(t, rgb, k)[..n] == t[..n]
    decreases |t|
  {
    var out := Rewrite(t, rgb, k);
    if n > 0 {
      var r := Parse(ColorPattern, t);
      if r.Some? {
        MatchStartsWithV(r.value);
        var rest := Rewrite(t[|Concat(r.value)|..], rgb, k + 1);
        assert out == Replacement(rgb(k)) + rest;
        assert out[..n][0] == 'v';
      } else {
        var tail := Rewrite(t[1..], rgb, k);
        assert out == [t[0]] + tail;
        CopiedPrefix(t, tail, out, n);
        RewriteCopies(t[1..], rgb, k, n - 1);
      }
    }
  }

  lemma CopiedPrefix(t: string, tail: string, out: string, n: nat)
    requires t != [] && out == [t[0]] + tail && 0 < n <= |out|
    ensures out[..n] == [t[0]] + tail[..n - 1]
    ensures 'v' !in out[..n] ==> 'v' !in tail[..n - 1]
    ensures n - 1 <= |t| - 1 && tail[..n - 1] == t[1..][..n - 1] ==> out[..n] == t[..n]
  {
  }

  /** A match where a character was copied is a match in the input too. */
  lemma MatchReflects(t: string, ps: seq<string>, rgb: nat -> Rgb, k: nat)
    requires t != []
    ensures MatchesAt([t[0]] + Rewrite(t[1..], rgb, k), ps) ==> MatchesAt(t, ps)
  {
    var tail := Rewrite(t[1..], rgb, k);
    var u := [t[0]] + tail;
    if MatchesAt(u, ps) {
      var m := Concat(ps);
      MatchStartsWithV(ps);
      assert tail[..|m| - 1] == m[1..];
      RewriteCopies(t[1..], rgb, k, |m| - 1);
      assert t[..|m|] == [t[0]] + t[1..][..|m| - 1];
    }
  }

  /**
   * When every replacement is three numbers, the rewritten text has as many
   * matches as the original: randomising the colours again finds the same
   * literals.
   */
  lemma {:induction false} RewriteKeepsCount(t: string, rgb: nat -> Rgb, k: nat)
    requires forall j :: IsColor(rgb(j))
    ensures Count(Rewrite(t, rgb, k)) == Count(t)
    decreases |t|
  {
    if t != [] {
      match Parse(ColorPattern, t) {
        case Some(ps) =>
          MatchStartsWithV(ps);
          var tail := Rewrite(t[|Concat(ps)|..], rgb, k + 1);
          ReplacementMatches(rgb(k), tail);
          assert (Replacement(rgb(k)) + tail)[|Replacement(rgb(k))|..] == tail;
          RewriteKeepsCount(t[|Concat(ps)|..], rgb, k + 1);
        case None =>
          var u := [t[0]] + Rewrite(t[1..], rgb, k);
          ParseNone(t);
          forall ps ensures !MatchesAt(u, ps) {
            MatchReflects(t, ps, rgb, k);
          }
          ParseNone(u);
          assert u[1..] == Rewrite(t[1..], rgb, k);
          RewriteKeepsCount(t[1..], rgb, k);
      }
    }
  }

  /** A match never contains a sign: `vec3(-0.5, ...)` is left alone. */
  lemma MatchHasNoSign(ps: seq<string>)
    requires FitsAll(ColorPattern, ps)
    ensures '-' !in Concat(ps) && '+' !in Concat(ps)
  {
    forall i | 0 <= i < |ps| ensures '-' !in ps[i] && '+' !in ps[i] {
      assert Fits(ColorPattern[i], ps[i]);
      if ColorPattern[i] == Number {
        NumberAvoids(ps[i], '-');
        NumberAvoids(ps[i], '+');
      }
    }
    ConcatAvoids(ps, '-');
    ConcatAvoids(ps, '+');
  }

  // ------------------------------------------------- randomizeColors

  /** `Math.random().toFixed(1)` prints a number the regex accepts. */
  lemma ToFixedIsNumber(x: real)
    requires Unit(x)
    ensures IsNumber(ToFixed(x, 1))
  {
    var s := ToFixed(x, 1);
    assert s == s[..|s| - 2] + s[|s| - 2..];
    DigitRunOf(s[..|s| - 2], s[|s| - 2..]);
  }

  /** The colour the callback draws for the `k`-th match: three draws from the random tape. */
  function DrawnColor(rng: nat -> real, k: nat): (c: Rgb)
    requires forall i :: Unit(rng(i))
    ensures IsColor(c)
  {
    ToFixedIsNumber(rng(3 * k));
    ToFixedIsNumber(rng(3 * k + 1));
    ToFixedIsNumber(rng(3 * k + 2));
    Rgb(ToFixed(rng(3 * k), 1), ToFixed(rng(3 * k + 1), 1), ToFixed(rng(3 * k + 2), 1))
  }

  /**
   * The shader text `randomizeColors` installs, given the values
   * `Math.random()` returns in turn. Every colour literal stays
   * recognisable: the rewritten text has as many matches as the original.
   */
  function RandomizeColors(shader: string, rng: nat -> real): (r: string)
    requires forall i :: Unit(rng(i))
    ensures Count(r) == Count(shader)
  {
    RewriteKeepsCount(shader, (k: nat) => DrawnColor(rng, k), 0);
    Rewrite(shader, (k: nat) => DrawnColor(rng, k), 0)
  }
}
