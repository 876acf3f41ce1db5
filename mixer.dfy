/**
 * `mixedPattern`: two different templates are drawn from seven, cut apart,
 * and spliced into one shader that blends their colours in one of three
 * ways.
 */
module Mixer {
  import opened JsString
  import opened Numerals
  import opened Patterns
  import opened Composer
  import opened Composability
  import opened HeaderFreedom

  // ------------------------------------------- the patterns it combines

  /** `availablePatterns`: plasma, noise, rays, tunnel, fractalNoise, geometricPatterns, fluidSimulation. */
  function AvailablePattern(i: nat, rng: nat -> real, at: nat): PatternSource
    requires i < 7 && Tape(rng)
  {
    if i == 0 then Plasma(rng, at)
    else if i == 1 then Noise(rng, at)
    else if i == 2 then Rays(rng, at)
    else if i == 3 then Tunnel(rng, at)
    else if i == 4 then FractalNoise(rng, at)
    else if i == 5 then GeometricPatterns(rng, at)
    else FluidSimulation(rng, at)
  }

  /** How many random values the pattern at index `i` draws. */
  function AvailableDraws(i: nat): (n: nat)
    requires i < 7
    ensures 2 <= n <= 3
  {
    if i < 4 then 2 else 3
  }

  /** Every template `mixedPattern` can pick is closed and survives the cuts. */
  lemma AvailableComposable(i: nat, rng: nat -> real, at: nat)
    requires i < 7 && Tape(rng)
    ensures AvailablePattern(i, rng, at).closed
    ensures Composable(AvailablePattern(i, rng, at))
  {
    if i == 0 {
      PlasmaDrawn(rng, at);
    } else if i == 1 {
      NoiseDrawn(rng, at);
    } else if i == 2 {
      RaysDrawn(rng, at);
    } else if i == 3 {
      TunnelDrawn(rng, at);
    } else if i == 4 {
      FractalNoiseDrawn(rng, at);
    } else if i == 5 {
      GeometricDrawn(rng, at);
    } else {
      FluidDrawn(rng, at);
    }
  }

  /** `availablePatterns` as written: the same seven, but `fluidSimulation` leaves `main` unclosed. */
  function AvailablePatternAsWritten(i: nat, rng: nat -> real, at: nat): (p: PatternSource)
    requires i < 7 && Tape(rng)
    ensures i != 6 ==> p == AvailablePattern(i, rng, at)
    ensures i == 6 ==> p == AvailablePattern(i, rng, at).(closed := false)
  {
    if i == 6 then FluidSimulationAsWritten(rng, at) else AvailablePattern(i, rng, at)
  }

  /** The as-written templates survive the cuts too; only the fluid one is unclosed. */
  lemma AvailableAsWrittenComposable(i: nat, rng: nat -> real, at: nat)
    requires i < 7 && Tape(rng)
    ensures AvailablePatternAsWritten(i, rng, at).closed <==> i != 6
    ensures Composable(AvailablePatternAsWritten(i, rng, at))
  {
    if i == 6 {
      FluidAsWrittenDrawn(rng, at);
    } else {
      AvailableComposable(i, rng, at);
    }
  }

  /**
   * `index1 = floor(r1 * 7)`, `index2 = floor(r2 * 6)` moved up by one when
   * it reaches `index1`: two different indices.
   */
  function PickPair(r1: real, r2: real): (pair: (nat, nat))
    requires Unit(r1) && Unit(r2)
    ensures pair.0 < 7 && pair.1 < 7 && pair.0 != pair.1
  {
    var i1 := FloorScaled(r1, 7);
    var i2 := FloorScaled(r2, 6);
    (i1, if i2 >= i1 then i2 + 1 else i2)
  }

  /** Every ordered pair of different patterns can be picked. */
  lemma PickPairCovers(i: nat, j: nat)
    requires i < 7 && j < 7 && i != j
    ensures exists r1, r2 :: Unit(r1) && Unit(r2) && PickPair(r1, r2) == (i, j)
  {
    var k := if j > i then j - 1 else j;
    FloorScaledOnto(i, 7);
    FloorScaledOnto(k, 6);
    var r1 :| Unit(r1) && FloorScaled(r1, 7) == i;
    var r2 :| Unit(r2) && FloorScaled(r2, 6) == k;
    assert PickPair(r1, r2) == (i, j);
  }

  // ------------------------------------------------ the combined shader

  /** The three ways of blending `color1` and `color2`; `speed` is `mixSpeed`. */
  function MixBlock(blend: nat, speed: string): string {
    if blend == 0 then
      N6 + "// Method 1: Smooth time oscillation"
        + N6 + "float mixFactor = sin(t * " + speed + " * 10.0) * 0.5 + 0.5;"
        + N6 + "finalColor = mix(color1, color2, mixFactor);" + N6
    else if blend == 1 then
      N6 + "// Method 2: Spatial pattern"
        + N6 + "float mixFactor = sin(uv.x * 10.0 + t) * sin(uv.y * 10.0 + t * 0.7) * 0.5 + 0.5;"
        + N6 + "finalColor = mix(color1, color2, mixFactor);" + N6
    else
      N6 + "// Method 3: Blend modes" + N6 + "// Screen blend"
        + N6 + "finalColor = 1.0 - (1.0 - color1) * (1.0 - color2);"
        + N6 + "// Apply some time variation to the blend strength"
        + N6 + "float blendStrength = sin(t * " + speed + " * 5.0) * 0.3 + 0.7;"
        + N6 + "finalColor = mix(color1, finalColor, blendStrength);" + N6
  }

  /** The blend method named by the `// Method k` comment a blend block opens with. */
  function MethodOf(block: string): nat {
    var k := |N6| + |"// Method "|;
    if |block| <= k || block[k] == '3' then 2 else if block[k] == '2' then 1 else 0
  }

  /** Every method number from 2 on selects the third block. */
  lemma MixBlockOther(blend: nat, speed: string)
    requires blend >= 2
    ensures MixBlock(blend, speed) == MixBlock(2, speed)
  {
  }

  /** The digit of the `// Method k` comment each block opens with: position 17 is right after `N6 + "// Method "`. */
  lemma MixBlockDigits(speed: string)
    ensures MixBlock(0, speed)[17] == '1'
    ensures MixBlock(1, speed)[17] == '2'
  {
  }

  lemma MixBlockDigitOther(speed: string)
    ensures MixBlock(2, speed)[17] == '3'
  {
  }

  /** Reading the comment back gives the method, so the three blocks differ. */
  lemma MixBlockMethod(blend: nat, speed: string)
    ensures MethodOf(MixBlock(blend, speed)) == if blend <= 1 then blend else 2
  {
    MixBlockDigits(speed);
    if blend >= 2 {
      MixBlockOther(blend, speed);
      MixBlockDigitOther(speed);
    }
  }

  /** `x` sits right after `pre` in a text built as `pre + x` followed by four more parts. */
  lemma OccursAfterPrefix(pre: string, x: string, a: string, b: string, c: string, d: string)
    ensures OccursAt(pre + x + a + b + c + d, x, |pre|)
  {
    var s := pre + x + a + b + c + d;
    assert s == pre + x + (a + b + c + d);
    assert s[|pre|..|pre| + |x|] == x;
  }

  /** The smooth-oscillation block prints `mixSpeed` into its `sin`, 76 characters in: right after `sin(t * `. */
  lemma MixBlockSpeedSmooth(speed: string)
    ensures OccursAt(MixBlock(0, speed), speed, 76)
  {
    var pre := N6 + "// Method 1: Smooth time oscillation" + N6 + "float mixFactor = sin(t * ";
    assert |pre| == 76;
    OccursAfterPrefix(pre, speed, " * 10.0) * 0.5 + 0.5;", N6, "finalColor = mix(color1, color2, mixFactor);", N6);
  }

  /** The screen-blend block prints `mixSpeed` into its blend strength, 205 characters in: right after `sin(t * `. */
  lemma MixBlockSpeedScreen(speed: string)
    ensures OccursAt(MixBlock(2, speed), speed, 205)
  {
    var pre := N6 + "// Method 3: Blend modes" + N6 + "// Screen blend"
      + N6 + "finalColor = 1.0 - (1.0 - color1) * (1.0 - color2);"
      + N6 + "// Apply some time variation to the blend strength"
      + N6 + "float blendStrength = sin(t * ";
    assert |pre| == 205;
    OccursAfterPrefix(pre, speed, " * 5.0) * 0.3 + 0.7;", N6, "finalColor = mix(color1, finalColor, blendStrength);", N6);
  }

  /** The combined shader's own header and the comment before the first pattern's declarations. */
  const DeclarationsLead := N4 + Header(N4) + N4 + N4 + CombinedComment + N4

  /** The comment that opens the patterns' declarations, in two pieces the verifier reads cheaply. */
  const CombinedComment := "// Combined function " + "declarations from both patterns"

  /** The comment that opens the second pattern's declarations. */
  const AdditionalComment := "// Additional " + "functions from pattern 2"

  /** The comment between the two patterns' declarations. */
  const DeclarationsMiddle := N4 + N4 + AdditionalComment + N4

  /** The combined shader's own header, then the declarations of both patterns. */
  function Declarations(f1: string, f2: string): string {
    DeclarationsLead + f1 + DeclarationsMiddle + f2
  }

  /** `vec4 patternK(vec2 uv, float t)`, running one pattern's `main` body into `color`. */
  function PatternFunction(k: char, body: string): string {
    "vec4 pattern" + [k] + "(vec2 uv, float t) {" + N6 + "// Local variables for pattern " + [k]
      + N6 + "vec4 color;" + N6 + body + N6 + "return color;" + N4 + "}"
  }

  /** The combined `main`: both colours, blended by `mix`. */
  function MainText(mix: string): string {
    "void main() {" + N6 + "vec2 uv = gl_FragCoord.xy / resolution.xy;" + N6 + "float t = time * 0.001;" + N6
      + N6 + "// Get colors from both patterns"
      + N6 + "vec4 color1 = pattern1(uv, t);" + N6 + "vec4 color2 = pattern2(uv, t);" + N6
      + N6 + "// Mix based on different methods" + N6 + "vec4 finalColor;" + N6
      + N6 + mix + N6
      + N6 + "gl_FragColor = finalColor;" + N4 + "}" + "\n"
  }

  /** The string `mixedPattern` returns, given the pieces it splices in. */
  function CompositeText(f1: string, f2: string, b1: string, b2: string, mix: string): string {
    Declarations(f1, f2) + N4 + N4 + "// Function to get colors from both patterns"
      + N4 + PatternFunction('1', b1) + N4 + N4 + PatternFunction('2', b2)
      + N4 + N4 + MainText(mix)
  }

  /** As written: the first pattern's declarations are spliced with their header lines. */
  function SpliceAsWritten(s1: string, s2: string, mix: string): string {
    CompositeText(ExtractFunctions(s1), StripHeader(ExtractFunctions(s2)),
      Retarget(ExtractMainBody(s1)), Retarget(ExtractMainBody(s2)), mix)
  }

  /** The header lines are removed from both patterns' declarations. */
  function Splice(s1: string, s2: string, mix: string): string {
    CompositeText(StripHeader(ExtractFunctions(s1)), StripHeader(ExtractFunctions(s2)),
      Retarget(ExtractMainBody(s1)), Retarget(ExtractMainBody(s2)), mix)
  }

  // --------------------------------------------- what the cuts recover

  /** A template's helper functions, after its header lines are removed. */
  function Stripped(p: PatternSource): string {
    Newline(p) + Newline(p) + Join(p.funcs, Newline(p))
  }

  /** A template's body of `main`, assigning `color` instead of `gl_FragColor`. */
  function Retargeted(p: PatternSource): string {
    Cat(p.lead) + "color =" + p.output
  }

  /**
   * What `extractMainBody` and the retargeting `replace` make of a
   * template: the retargeted body when `main` is closed; otherwise the
   * slice from the last helper function's `}` through `void main() {`,
   * which holds no `gl_FragColor =` to retarget.
   */
  function Cut(p: PatternSource): string {
    if p.closed then Retargeted(p) else "}" + (Newline(p) + Newline(p)) + (MainSignature + " {")
  }

  /** The text between a helper function's `}` and `main`'s `{` has no `gl_FragColor =`. */
  lemma BraceSliceHasNoAssign(p: PatternSource)
    ensures Absent("}" + (Newline(p) + Newline(p)) + (MainSignature + " {"), FragColorAssign)
  {
    NewlineChars(p);
    AbsentByChar("}" + (Newline(p) + Newline(p)) + (MainSignature + " {"), FragColorAssign, 'g');
  }

  /**
   * The cuts recover a template's parts: its declarations with the header,
   * its helper functions once the header lines are removed, and its
   * retargeted body, or the stray slice when `main` is unclosed.
   */
  lemma CutsOfTemplate(p: PatternSource)
    requires Composable(p)
    ensures ExtractFunctions(Render(p)) == Core(p)
    ensures StripHeader(ExtractFunctions(Render(p))) == Stripped(p)
    ensures Retarget(ExtractMainBody(Render(p))) == Cut(p)
    ensures p.closed ==> Cut(p) == Retargeted(p)
  {
    ExtractFunctionsOfRender(p);
    StripHeaderOfCore(p);
    if p.closed {
      ExtractMainBodyClosed(p);
      RetargetBody(p);
    } else {
      ExtractMainBodyUnclosed(p);
      BraceSliceHasNoAssign(p);
    }
  }

  /**
   * Spliced with both headers removed, the combined shader holds each
   * template's helper functions without its header, and each template's
   * cut body.
   */
  lemma SpliceOfTemplates(p1: PatternSource, p2: PatternSource, mix: string)
    requires Composable(p1) && Composable(p2)
    ensures Splice(Render(p1), Render(p2), mix)
      == CompositeText(Stripped(p1), Stripped(p2), Cut(p1), Cut(p2), mix)
  {
    CutsOfTemplate(p1);
    CutsOfTemplate(p2);
  }

  /**
   * The blank lines put before the spliced helper functions add no header
   * line: the spliced text holds one exactly when the functions do.
   */
  lemma StrippedHasNoHeader(p: PatternSource)
    ensures Absent(Stripped(p), PrecisionLine) <==> Absent(Join(p.funcs, Newline(p)), PrecisionLine)
    ensures Absent(Stripped(p), TimeUniform) <==> Absent(Join(p.funcs, Newline(p)), TimeUniform)
    ensures Absent(Stripped(p), ResolutionUniform) <==> Absent(Join(p.funcs, Newline(p)), ResolutionUniform)
  {
    NewlineChars(p);
    var b := Newline(p) + Newline(p);
    var j := Join(p.funcs, Newline(p));
    assert Stripped(p) == b + j;
    assert (b + j)[|b|..|b + j|] == j;
    BlanksAddNoLine(b, j, PrecisionLine);
    BlanksAddNoLine(b, j, TimeUniform);
    BlanksAddNoLine(b, j, ResolutionUniform);
  }

  lemma BlanksAddNoLine(b: string, j: string, pat: string)
    requires pat != [] && pat[0] !in b && (b + j)[|b|..] == j
    ensures Absent(b + j, pat) <==> Absent(j, pat)
  {
    if Absent(b + j, pat) {
      AbsentSlice(b + j, pat, |b|, |b + j|);
      assert (b + j)[|b|..|b + j|] == j;
    }
    if Absent(j, pat) {
      AbsentByChar(b, pat, pat[0]);
      NoStraddleByChar(b, j, pat, 0);
      AbsentConcat(b, j, pat);
    }
  }

  /** `pat` occurs in `s` at `k` and nowhere else. */
  ghost predicate OnlyAt(s: string, pat: string, k: int) {
    OccursAt(s, pat, k) && forall j :: OccursAt(s, pat, j) ==> j == k
  }

  /**
   * A line that ends with its only `;`, put after a line break and a text
   * that ends with `;`, is the only occurrence when neither side holds it.
   */
  lemma OnlyOccurrence(a: string, nl: string, line: string, b: string)
    requires line != [] && line[|line| - 1] == ';' && ';' !in line[..|line| - 1]
    requires a != [] ==> a[|a| - 1] == ';'
    requires line[0] !in nl
    requires Absent(a, line) && Absent(b, line)
    ensures OnlyAt(a + nl + line + b, line, |a| + |nl|)
  {
    var s := a + nl + line + b;
    var x := a + nl + line;
    assert s == x + b;
    assert s[|a| + |nl|..|a| + |nl| + |line|] == line;
    NoStraddleByLast(x, b, line);
    if a != [] {
      assert s == a + (nl + line + b);
      NoStraddleByLast(a, nl + line + b, line);
    }
    forall j | 0 <= j && j + |line| <= |a| ensures !OccursAt(s, line, j) {
      assert s[j..j + |line|] == a[j..j + |line|];
      assert !OccursAt(a, line, j);
    }
    forall j | |a| <= j < |a| + |nl| ensures !OccursAt(s, line, j) {
      if j + |line| <= |s| {
        assert s[j..j + |line|][0] == nl[j - |a|];
      }
    }
    forall j | |x| <= j ensures !OccursAt(s, line, j) {
      if j + |line| <= |s| {
        assert s[j..j + |line|] == b[j - |x|..j - |x| + |line|];
        assert !OccursAt(b, line, j - |x|);
      }
    }
  }

  /** Each header line occurs once in `s`, at its place in a header that opens after one line break. */
  ghost predicate DeclaresEachOnce(s: string) {
    && OnlyAt(s, PrecisionLine, |N4|)
    && OnlyAt(s, TimeUniform, |N4| + |PrecisionLine| + |N4|)
    && OnlyAt(s, ResolutionUniform, |N4| + |PrecisionLine| + |N4| + |TimeUniform| + |N4|)
  }

  /** What follows the combined shader's own header in its declarations. */
  function AfterHeader(f1: string, f2: string): string {
    N4 + N4 + CombinedComment + N4 + f1 + DeclarationsMiddle + f2
  }

  lemma DeclarationsAroundHeader(f1: string, f2: string)
    ensures Declarations(f1, f2) == N4 + Header(N4) + AfterHeader(f1, f2)
  {
    var tail := N4 + N4 + CombinedComment + N4 + f1 + DeclarationsMiddle + f2;
    assert Declarations(f1, f2) == N4 + Header(N4) + tail;
  }

  /** A header line is in neither comment of the combined declarations, nor in what is spliced between them. */
  lemma CommentsAndSplicesLack(f1: string, f2: string, line: string)
    requires ';' in line && '\n' !in line
    requires f1 != [] && f1[0] == '\n' && Absent(f1, line)
    requires f2 != [] && f2[0] == '\n' && Absent(f2, line)
    ensures Absent(AfterHeader(f1, f2), line)
  {
    var c := N4 + N4 + CombinedComment + N4;
    AbsentByChar(c, line, ';');
    AbsentByChar(DeclarationsMiddle, line, ';');
    NoStraddleByFirst(c, f1, line);
    AbsentConcat(c, f1, line);
    NoStraddleByFirst(c + f1, DeclarationsMiddle, line);
    AbsentConcat(c + f1, DeclarationsMiddle, line);
    NoStraddleByFirst(c + f1 + DeclarationsMiddle, f2, line);
    AbsentConcat(c + f1 + DeclarationsMiddle, f2, line);
  }

  /** The precision line, broken where the certificate needs it. */
  const PrecisionPieces: seq<string> := [N4, "precision medi", "ump float;"]

  lemma PrecisionPiecesCat()
    ensures Cat(PrecisionPieces) == N4 + PrecisionLine
  {
    assert PrecisionPieces[1..][1..] == ["ump float;"];
    assert Cat(["ump float;"]) == "ump float;";
    assert Cat(PrecisionPieces[1..]) == "precision medi" + "ump float;";
    assert PrecisionLine == "precision medi" + "ump float;";
  }

  /** The header's first line does not hold its second. */
  lemma PrecisionLacksTime()
    ensures Absent(N4 + PrecisionLine, TimeUniform)
  {
    WitnessedAbsent(PrecisionPieces, "uui", TimeUniform);
    PrecisionPiecesCat();
  }

  /** The header's last two lines do not hold its first. */
  lemma UniformsLackPrecision()
    ensures Absent(N4 + TimeUniform + N4 + ResolutionUniform, PrecisionLine)
  {
    AbsentByChar(N4 + TimeUniform + N4 + ResolutionUniform, PrecisionLine, 'p');
  }

  /** The header's last line does not hold its second. */
  lemma ResolutionLacksTime()
    ensures Absent(N4 + ResolutionUniform, TimeUniform)
  {
    AbsentByChar(N4 + ResolutionUniform, TimeUniform, 'a');
  }

  /** The header's first two lines do not hold its last. */
  lemma FirstLinesLackResolution()
    ensures Absent(N4 + PrecisionLine + N4 + TimeUniform, ResolutionUniform)
  {
    AbsentByChar(N4 + PrecisionLine + N4 + TimeUniform, ResolutionUniform, 'v');
  }

  /** After a header, a text without the precision line leaves the header's own as the only one. */
  lemma PrecisionOnce(rest: string)
    requires rest != [] && rest[0] == '\n' && Absent(rest, PrecisionLine)
    ensures OnlyAt(N4 + Header(N4) + rest, PrecisionLine, |N4|)
  {
    var b := N4 + TimeUniform + N4 + ResolutionUniform;
    UniformsLackPrecision();
    NoStraddleByFirst(b, rest, PrecisionLine);
    AbsentConcat(b, rest, PrecisionLine);
    AbsentShort([], PrecisionLine);
    assert N4 + Header(N4) + rest == [] + N4 + PrecisionLine + (b + rest);
    OnlyOccurrence([], N4, PrecisionLine, b + rest);
  }

  /** After a header, a text without `uniform float time;` leaves the header's own as the only one. */
  lemma TimeOnce(rest: string)
    requires rest != [] && rest[0] == '\n' && Absent(rest, TimeUniform)
    ensures OnlyAt(N4 + Header(N4) + rest, TimeUniform, |N4| + |PrecisionLine| + |N4|)
  {
    var a, b := N4 + PrecisionLine, N4 + ResolutionUniform;
    PrecisionLacksTime();
    ResolutionLacksTime();
    NoStraddleByFirst(b, rest, TimeUniform);
    AbsentConcat(b, rest, TimeUniform);
    assert N4 + Header(N4) + rest == a + N4 + TimeUniform + (b + rest);
    OnlyOccurrence(a, N4, TimeUniform, b + rest);
  }

  /** After a header, a text without `uniform vec2 resolution;` leaves the header's own as the only one. */
  lemma ResolutionOnce(rest: string)
    requires Absent(rest, ResolutionUniform)
    ensures OnlyAt(N4 + Header(N4) + rest, ResolutionUniform, |N4| + |PrecisionLine| + |N4| + |TimeUniform| + |N4|)
  {
    var a := N4 + PrecisionLine + N4 + TimeUniform;
    FirstLinesLackResolution();
    assert N4 + Header(N4) + rest == a + N4 + ResolutionUniform + rest;
    OnlyOccurrence(a, N4, ResolutionUniform, rest);
  }

  /**
   * The combined shader's own header is the only place its declarations
   * hold a header line, once the spliced functions hold none.
   */
  lemma DeclarationsDeclareOnce(f1: string, f2: string)
    requires f1 != [] && f1[0] == '\n' && f2 != [] && f2[0] == '\n'
    requires Absent(f1, PrecisionLine) && Absent(f1, TimeUniform) && Absent(f1, ResolutionUniform)
    requires Absent(f2, PrecisionLine) && Absent(f2, TimeUniform) && Absent(f2, ResolutionUniform)
    ensures DeclaresEachOnce(Declarations(f1, f2))
  {
    var rest := AfterHeader(f1, f2);
    DeclarationsAroundHeader(f1, f2);
    CommentsAndSplicesLack(f1, f2, PrecisionLine);
    CommentsAndSplicesLack(f1, f2, TimeUniform);
    CommentsAndSplicesLack(f1, f2, ResolutionUniform);
    PrecisionOnce(rest);
    TimeOnce(rest);
    ResolutionOnce(rest);
  }

  /** With header-free helper functions, the corrected splice declares each header line once. */
  lemma StrippedDeclareOnce(p1: PatternSource, p2: PatternSource)
    requires HeaderFree(p1) && HeaderFree(p2)
    ensures DeclaresEachOnce(Declarations(Stripped(p1), Stripped(p2)))
  {
    StrippedHasNoHeader(p1);
    StrippedHasNoHeader(p2);
    DeclarationsDeclareOnce(Stripped(p1), Stripped(p2));
  }

  /** In a text built around a header, `uniform float time;` follows the precision line and one line break. */
  lemma TimeAfterPrecision(lead: string, nl: string, rest: string)
    ensures OccursAt(lead + Header(nl) + rest, TimeUniform, |lead| + |PrecisionLine| + |nl|)
  {
    var pre := lead + PrecisionLine + nl;
    var s := lead + Header(nl) + rest;
    assert s == pre + TimeUniform + (nl + ResolutionUniform + rest);
    assert s[|pre|..|pre| + |TimeUniform|] == TimeUniform;
  }

  /** The combined shader's own `uniform float time;`. */
  lemma DeclarationsOwnTime(f1: string, f2: string)
    ensures OccursAt(Declarations(f1, f2), TimeUniform, |N4| + |PrecisionLine| + |N4|)
  {
    var tail := N4 + N4 + CombinedComment + N4 + f1 + DeclarationsMiddle + f2;
    assert Declarations(f1, f2) == N4 + Header(N4) + tail;
    TimeAfterPrecision(N4, N4, tail);
  }

  lemma Regroup(a: string, b: string, c: string, d: string, e: string)
    ensures a + (b + c) + d + e == a + b + (c + d + e)
  {
  }

  /** Declarations that start with a template's header declare `uniform float time;` there again. */
  lemma DeclarationsTemplateTime(p1: PatternSource, f2: string)
    ensures OccursAt(Declarations(Core(p1), f2), TimeUniform, |DeclarationsLead| + |PrecisionLine| + |Newline(p1)|)
  {
    var j := Join(p1.funcs, Newline(p1));
    Regroup(DeclarationsLead, Header(Newline(p1)), j, DeclarationsMiddle, f2);
    TimeAfterPrecision(DeclarationsLead, Newline(p1), j + DeclarationsMiddle + f2);
  }

  /**
   * As written, the first pattern's declarations still start with its
   * header, so `uniform float time;` is declared a second time after the
   * combined shader's own declaration.
   */
  lemma SpliceAsWrittenRedeclaresTime(p1: PatternSource, s2: string, mix: string)
    requires Composable(p1)
    ensures var f2 := StripHeader(ExtractFunctions(s2));
      var first := |N4| + |PrecisionLine| + |N4|;
      var second := |DeclarationsLead| + |PrecisionLine| + |Newline(p1)|;
      && SpliceAsWritten(Render(p1), s2, mix)
        == CompositeText(Core(p1), f2, Cut(p1), Retarget(ExtractMainBody(s2)), mix)
      && first < second
      && OccursAt(Declarations(Core(p1), f2), TimeUniform, first)
      && OccursAt(Declarations(Core(p1), f2), TimeUniform, second)
  {
    CutsOfTemplate(p1);
    var f2 := StripHeader(ExtractFunctions(s2));
    DeclarationsOwnTime(Core(p1), f2);
    DeclarationsTemplateTime(p1, f2);
  }

  /** Spliced as written from two templates: the first keeps its header, the second is stripped. */
  lemma SpliceAsWrittenOfTemplates(p1: PatternSource, p2: PatternSource, mix: string)
    requires Composable(p1) && Composable(p2)
    ensures SpliceAsWritten(Render(p1), Render(p2), mix)
        == CompositeText(Core(p1), Stripped(p2), Cut(p1), Cut(p2), mix)
    ensures Redeclared(p1, p2)
  {
    CutsOfTemplate(p2);
    SpliceAsWrittenRedeclaresTime(p1, Render(p2), mix);
  }

  // --------------------------------------------------- mixedPattern()

  /** What `mixedPattern` draws: the two pattern indices, the blend method and its speed. */
  datatype Mix = Mix(first: nat, second: nat, blend: nat, speed: string)

  /** Where the second pattern's draws start: after the two indices and the first pattern's draws. */
  function SecondAt(first: nat, at: nat): nat
    requires first < 7
  {
    at + 2 + AvailableDraws(first)
  }

  /** The draws of `mixedPattern`, in the order it makes them. */
  function Choose(rng: nat -> real, at: nat): (c: Mix)
    requires Tape(rng)
    ensures c.first < 7 && c.second < 7 && c.first != c.second && c.blend <= 2
    ensures IsNumeral(c.speed)
  {
    var pair := PickPair(rng(at), rng(at + 1));
    var after := SecondAt(pair.0, at) + AvailableDraws(pair.1);
    Mix(pair.0, pair.1, FloorScaled(rng(after), 3), Fixed(rng(after + 1), 0.002, 0.001, 4))
  }

  /** `mixedPattern()` corrected: both declaration blocks lose their header lines, and every template's `main` is closed. */
  function MixedPattern(rng: nat -> real, at: nat): string
    requires Tape(rng)
  {
    var c := Choose(rng, at);
    Splice(Render(AvailablePattern(c.first, rng, at + 2)), Render(AvailablePattern(c.second, rng, SecondAt(c.first, at))),
      MixBlock(c.blend, c.speed))
  }

  /**
   * The mixed shader is the combined template around the two drawn
   * patterns' helper functions and retargeted bodies, blended as drawn.
   */
  lemma MixedPatternParts(rng: nat -> real, at: nat)
    requires Tape(rng)
    ensures var c := Choose(rng, at);
      var p1 := AvailablePattern(c.first, rng, at + 2);
      var p2 := AvailablePattern(c.second, rng, SecondAt(c.first, at));
      MixedPattern(rng, at) == CompositeText(Stripped(p1), Stripped(p2), Retargeted(p1), Retargeted(p2), MixBlock(c.blend, c.speed))
  {
    var c := Choose(rng, at);
    AvailableComposable(c.first, rng, at + 2);
    AvailableComposable(c.second, rng, SecondAt(c.first, at));
    SpliceOfTemplates(AvailablePattern(c.first, rng, at + 2), AvailablePattern(c.second, rng, SecondAt(c.first, at)),
      MixBlock(c.blend, c.speed));
  }

  /** No template `mixedPattern` can pick holds a header line among its helper functions. */
  lemma AvailableHeaderFree(i: nat, rng: nat -> real, at: nat)
    requires i < 7 && Tape(rng)
    ensures HeaderFree(AvailablePattern(i, rng, at))
  {
    assert Unit(rng(at)) && Unit(rng(at + 1)) && Unit(rng(at + 2));
    if i == 0 {
      HeaderFreeOf(Plasma(rng, at));
    } else if i == 1 {
      NoiseHeaderFree(Fixed(rng(at), 10.0, 5.0, 1), Fixed(rng(at + 1), 0.001, 0.0005, 4));
    } else if i == 2 {
      HeaderFreeOf(Rays(rng, at));
    } else if i == 3 {
      TunnelHeaderFree(Fixed(rng(at), 5.0, 3.0, 1), Fixed(rng(at + 1), 0.003, 0.001, 4));
    } else if i == 4 {
      DigitsPlain(LoopBound(Octaves(rng(at))));
      NumeralPlain(Fixed(rng(at + 1), 1.5, 1.5, 2));
      NumeralPlain(Fixed(rng(at + 2), 0.3, 0.5, 2));
      FractalNoiseHeaderFree(LoopBound(Octaves(rng(at))), Fixed(rng(at + 1), 1.5, 1.5, 2), Fixed(rng(at + 2), 0.3, 0.5, 2));
    } else if i == 5 {
      GeometricHeaderFree(LoopBound(NumShapes(rng(at))), Fixed(rng(at + 1), 0.002, 0.001, 4), BoolText(rng(at + 2) > 0.5));
    } else {
      DigitsPlain(LoopBound(Iterations(rng(at + 2))));
      FluidHeaderFree(Fixed(rng(at), 3.0, 2.0, 1), Fixed(rng(at + 1), 0.005, 0.001, 4), LoopBound(Iterations(rng(at + 2))), true);
    }
  }

  /** The combined shader opens with its declarations. */
  lemma CompositeOpensWithDeclarations(f1: string, f2: string, b1: string, b2: string, mix: string)
    ensures Declarations(f1, f2) <= CompositeText(f1, f2, b1, b2, mix)
  {
    var rest := N4 + N4 + "// Function to get colors from both patterns"
      + N4 + PatternFunction('1', b1) + N4 + N4 + PatternFunction('2', b2)
      + N4 + N4 + MainText(mix);
    assert CompositeText(f1, f2, b1, b2, mix) == Declarations(f1, f2) + rest;
  }

  /**
   * Corrected, the mixed shader opens with declarations that hold each
   * header line once: its own header, and none from either pattern.
   */
  lemma MixedPatternDeclaresOnce(rng: nat -> real, at: nat)
    requires Tape(rng)
    ensures var c := Choose(rng, at);
      var d := Declarations(Stripped(AvailablePattern(c.first, rng, at + 2)), Stripped(AvailablePattern(c.second, rng, SecondAt(c.first, at))));
      d <= MixedPattern(rng, at) && DeclaresEachOnce(d)
  {
    var c := Choose(rng, at);
    var p1 := AvailablePattern(c.first, rng, at + 2);
    var p2 := AvailablePattern(c.second, rng, SecondAt(c.first, at));
    MixedPatternParts(rng, at);
    CompositeOpensWithDeclarations(Stripped(p1), Stripped(p2), Retargeted(p1), Retargeted(p2), MixBlock(c.blend, c.speed));
    AvailableHeaderFree(c.first, rng, at + 2);
    AvailableHeaderFree(c.second, rng, SecondAt(c.first, at));
    StrippedDeclareOnce(p1, p2);
  }

  /**
   * `mixedPattern()` as written: `functions1` is spliced in with its
   * header lines, and a `fluidSimulation` pick comes with its `main`
   * unclosed.
   */
  function MixedPatternAsWritten(rng: nat -> real, at: nat): string
    requires Tape(rng)
  {
    var c := Choose(rng, at);
    SpliceAsWritten(Render(AvailablePatternAsWritten(c.first, rng, at + 2)),
      Render(AvailablePatternAsWritten(c.second, rng, SecondAt(c.first, at))), MixBlock(c.blend, c.speed))
  }

  /**
   * As written, the mixed shader holds the first template's declarations
   * header and all, so it declares `uniform float time;` twice, and where
   * `fluidSimulation` is picked its evaluator gets the slice from the last
   * helper's `}` through `void main() {` instead of a body.
   */
  lemma MixedPatternAsWrittenParts(rng: nat -> real, at: nat)
    requires Tape(rng)
    ensures var c := Choose(rng, at);
      var p1 := AvailablePatternAsWritten(c.first, rng, at + 2);
      var p2 := AvailablePatternAsWritten(c.second, rng, SecondAt(c.first, at));
      && MixedPatternAsWritten(rng, at) == CompositeText(Core(p1), Stripped(p2), Cut(p1), Cut(p2), MixBlock(c.blend, c.speed))
      && Redeclared(p1, p2)
      && PickedCut(p1, c.first) && PickedCut(p2, c.second)
  {
    var c := Choose(rng, at);
    var p1 := AvailablePatternAsWritten(c.first, rng, at + 2);
    var p2 := AvailablePatternAsWritten(c.second, rng, SecondAt(c.first, at));
    assert MixedPatternAsWritten(rng, at) == SpliceAsWritten(Render(p1), Render(p2), MixBlock(c.blend, c.speed));
    AvailableAsWrittenComposable(c.first, rng, at + 2);
    AvailableAsWrittenComposable(c.second, rng, SecondAt(c.first, at));
    SpliceAsWrittenOfTemplates(p1, p2, MixBlock(c.blend, c.speed));
    PickedCutOf(p1, c.first);
    PickedCutOf(p2, c.second);
  }

  /** The declarations of `p1` kept whole, then those of `p2` stripped, hold `uniform float time;` at two places. */
  ghost predicate Redeclared(p1: PatternSource, p2: PatternSource) {
    var first := |N4| + |PrecisionLine| + |N4|;
    var second := |DeclarationsLead| + |PrecisionLine| + |Newline(p1)|;
    && first < second
    && OccursAt(Declarations(Core(p1), Stripped(p2)), TimeUniform, first)
    && OccursAt(Declarations(Core(p1), Stripped(p2)), TimeUniform, second)
  }

  /** The cut of the pattern picked at index `i`: the stray slice for `fluidSimulation` (index 6), the retargeted body otherwise. */
  ghost predicate PickedCut(p: PatternSource, i: nat) {
    && (i == 6 ==> Cut(p) == "}" + (Newline(p) + Newline(p)) + (MainSignature + " {"))
    && (i != 6 ==> Cut(p) == Retargeted(p))
  }

  lemma PickedCutOf(p: PatternSource, i: nat)
    requires p.closed <==> i != 6
    ensures PickedCut(p, i)
  { }
}
