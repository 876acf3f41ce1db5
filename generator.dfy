/**
 * `ShaderGenerator.generate`: one draw picks an entry of the twelve-entry
 * `patterns` list, and the chosen pattern method builds the shader text
 * from the draws that follow.
 */
module Generator {
  import opened JsString
  import Numerals
  import Patterns
  import Composer
  import Composability
  import Mixer

  /** The pattern methods, by the names the generator knows them under. */
  datatype Pattern =
    | ColorGradient | Plasma | Rays | Tunnel | Noise | Cells | GeometricPatterns
    | FractalNoise | FluidSimulation | Kaleidoscope | WarpSpeed | MixedPattern

  /** `this.patterns`, in the order the constructor lists them. */
  const Registry: seq<Pattern> := [ColorGradient, Plasma, Rays, Tunnel, Noise, Cells, GeometricPatterns,
    FractalNoise, FluidSimulation, Kaleidoscope, WarpSpeed, MixedPattern]

  /** Where a pattern sits in the list. */
  function Position(k: Pattern): (i: nat)
    ensures i < |Registry| && Registry[i] == k
  {
    match k
    case ColorGradient => 0
    case Plasma => 1
    case Rays => 2
    case Tunnel => 3
    case Noise => 4
    case Cells => 5
    case GeometricPatterns => 6
    case FractalNoise => 7
    case FluidSimulation => 8
    case Kaleidoscope => 9
    case WarpSpeed => 10
    case MixedPattern => 11
  }

  /** Every pattern is listed once, so each of the twelve indices names a different one. */
  lemma RegistryDistinct(i: nat, j: nat)
    requires i < |Registry| && j < |Registry| && Registry[i] == Registry[j]
    ensures i == j
  {
    assert Position(Registry[i]) == i;
    assert Position(Registry[j]) == j;
  }

  /** `Math.floor(Math.random() * this.patterns.length)`: always a valid index into the list. */
  function Pick(r: real): (i: nat)
    requires Numerals.Unit(r)
    ensures i < |Registry| && i < 12
  {
    Numerals.FloorScaled(r, |Registry|)
  }

  /** Every pattern, the mixed one included, is picked by some random value. */
  lemma PickCovers(k: Pattern)
    ensures exists r :: Numerals.Unit(r) && Registry[Pick(r)] == k
  {
    var i := Position(k);
    Numerals.FloorScaledOnto(i, |Registry|);
    var r := i as real / |Registry| as real;
    assert Numerals.Unit(r) && Registry[Pick(r)] == k;
  }

  /** The template a single (not mixed) pattern method fills in, from the draws at `at` on, with every `main` closed. */
  function Single(k: Pattern, rng: nat -> real, at: nat): (p: Patterns.PatternSource)
    requires k != MixedPattern && Patterns.Tape(rng)
    ensures p.closed
  {
    match k
    case ColorGradient => Patterns.ColorGradient(rng, at)
    case Plasma => Patterns.Plasma(rng, at)
    case Rays => Patterns.Rays(rng, at)
    case Tunnel => Patterns.Tunnel(rng, at)
    case Noise => Patterns.Noise(rng, at)
    case Cells => Patterns.Cells(rng, at)
    case GeometricPatterns => Patterns.GeometricPatterns(rng, at)
    case FractalNoise => Patterns.FractalNoise(rng, at)
    case FluidSimulation => Patterns.FluidSimulation(rng, at)
    case Kaleidoscope => Patterns.Kaleidoscope(rng, at)
    case WarpSpeed => Patterns.WarpSpeed(rng, at)
  }

  /** The template as the pattern methods are written: only `fluidSimulation` leaves `main` unclosed. */
  function SingleAsWritten(k: Pattern, rng: nat -> real, at: nat): (p: Patterns.PatternSource)
    requires k != MixedPattern && Patterns.Tape(rng)
    ensures k != FluidSimulation ==> p == Single(k, rng, at)
    ensures k == FluidSimulation ==> p == Single(k, rng, at).(closed := false)
    ensures p.closed <==> k != FluidSimulation
  {
    if k == FluidSimulation then Patterns.FluidSimulationAsWritten(rng, at) else Single(k, rng, at)
  }

  /**
   * A fragment shader that opens, after blank space, with the precision
   * statement and the `time` and `resolution` uniforms, one per line.
   */
  ghost predicate OpensWithHeader(s: string) {
    exists w: nat, nl: string ::
      w <= |s| && AllWhitespace(s[..w]) && nl != [] && AllWhitespace(nl) && OccursAt(s, Patterns.Header(nl), w)
  }

  lemma SpacesWhitespace(n: nat)
    ensures AllWhitespace(Patterns.Spaces(n))
  {
    var s := Patterns.Spaces(n);
    forall k | 0 <= k < |s| ensures IsWhitespace(s[k]) {
      assert s[k] in s;
    }
  }

  /** A line break and its indentation is blank space. */
  lemma NewlineWhitespace(p: Patterns.PatternSource)
    ensures Patterns.Newline(p) != [] && AllWhitespace(Patterns.Newline(p))
  {
    SpacesWhitespace(p.outer + 2);
    AllWhitespaceConcat("\n", Patterns.Spaces(p.outer + 2));
  }

  lemma Regroup(a: string, b: string, c: string, d: string, e: string)
    ensures a + (b + c) + d + e == a + b + (c + d + e)
  {
  }

  lemma OpensAt(w: string, nl: string)
    requires AllWhitespace(w) && nl != [] && AllWhitespace(nl)
    ensures OpensWithHeader(w + Patterns.Header(nl))
  {
    var s := w + Patterns.Header(nl);
    assert s[..|w|] == w;
    assert s[|w|..|w| + |Patterns.Header(nl)|] == Patterns.Header(nl);
  }

  /** Text appended after a header-opened shader leaves its opening as it is. */
  lemma OpensAppend(s: string, t: string)
    requires OpensWithHeader(s)
    ensures OpensWithHeader(s + t)
  {
    var w: nat, nl: string :| w <= |s| && AllWhitespace(s[..w]) && nl != [] && AllWhitespace(nl)
      && OccursAt(s, Patterns.Header(nl), w);
    assert (s + t)[..w] == s[..w];
    assert (s + t)[w..w + |Patterns.Header(nl)|] == s[w..w + |Patterns.Header(nl)|];
  }

  /** Every template's text opens with its header. */
  lemma RenderOpensWithHeader(p: Patterns.PatternSource)
    ensures OpensWithHeader(Patterns.Render(p))
  {
    var nl := Patterns.Newline(p);
    var j := Patterns.Join(p.funcs, nl);
    Regroup(nl, Patterns.Header(nl), j, nl + nl, Patterns.MainPart(p));
    NewlineWhitespace(p);
    OpensAt(nl, nl);
    OpensAppend(nl + Patterns.Header(nl), j + (nl + nl) + Patterns.MainPart(p));
  }

  /** The combined declarations open with the combined shader's own header. */
  lemma DeclarationsOpenWithHeader(f1: string, f2: string)
    ensures OpensWithHeader(Mixer.Declarations(f1, f2))
  {
    var n := Patterns.N4;
    assert AllWhitespace(n);
    OpensAt(n, n);
    var s := n + Patterns.Header(n);
    OpensAppend(s, n);
    s := s + n;
    OpensAppend(s, n);
    s := s + n;
    OpensAppend(s, Mixer.CombinedComment);
    s := s + Mixer.CombinedComment;
    OpensAppend(s, n);
    s := s + n;
    assert s == Mixer.DeclarationsLead;
    OpensAppend(s, f1);
    s := s + f1;
    OpensAppend(s, Mixer.DeclarationsMiddle);
    s := s + Mixer.DeclarationsMiddle;
    OpensAppend(s, f2);
    s := s + f2;
    assert s == Mixer.Declarations(f1, f2);
  }

  /** The combined shader of `mixedPattern` opens with its own header, whatever it splices in. */
  lemma CompositeOpensWithHeader(f1: string, f2: string, b1: string, b2: string, mix: string)
    ensures OpensWithHeader(Mixer.CompositeText(f1, f2, b1, b2, mix))
  {
    var n := Patterns.N4;
    DeclarationsOpenWithHeader(f1, f2);
    var s := Mixer.Declarations(f1, f2);
    OpensAppend(s, n);
    s := s + n;
    OpensAppend(s, n);
    s := s + n;
    OpensAppend(s, "// Function to get colors from both patterns");
    s := s + "// Function to get colors from both patterns";
    OpensAppend(s, n);
    s := s + n;
    OpensAppend(s, Mixer.PatternFunction('1', b1));
    s := s + Mixer.PatternFunction('1', b1);
    OpensAppend(s, n);
    s := s + n;
    OpensAppend(s, n);
    s := s + n;
    OpensAppend(s, Mixer.PatternFunction('2', b2));
    s := s + Mixer.PatternFunction('2', b2);
    OpensAppend(s, n);
    s := s + n;
    OpensAppend(s, n);
    s := s + n;
    OpensAppend(s, Mixer.MainText(mix));
  }

  /**
   * `generate`: the draw at `at` picks the pattern, whose method draws
   * from `at + 1` on. Whichever pattern is picked, the shader opens with
   * the precision statement and the two uniforms the renderer sets.
   */
  function Generate(rng: nat -> real, at: nat): (shader: string)
    requires Patterns.Tape(rng)
    ensures OpensWithHeader(shader)
  {
    var k := Registry[Pick(rng(at))];
    if k == MixedPattern then
      var c := Mixer.Choose(rng, at + 1);
      var p1 := Mixer.AvailablePattern(c.first, rng, at + 3);
      var p2 := Mixer.AvailablePattern(c.second, rng, Mixer.SecondAt(c.first, at + 1));
      Mixer.MixedPatternParts(rng, at + 1);
      CompositeOpensWithHeader(Mixer.Stripped(p1), Mixer.Stripped(p2), Mixer.Retargeted(p1), Mixer.Retargeted(p2),
        Mixer.MixBlock(c.blend, c.speed));
      Mixer.MixedPattern(rng, at + 1)
    else
      RenderOpensWithHeader(Single(k, rng, at + 1));
      Patterns.Render(Single(k, rng, at + 1))
  }

  /**
   * `generate` as written: a `fluidSimulation` pick, alone or inside the
   * mixed pattern, keeps its unclosed `main`, and the mixed pattern keeps
   * the first template's header lines.
   */
  function GenerateAsWritten(rng: nat -> real, at: nat): (shader: string)
    requires Patterns.Tape(rng)
    ensures OpensWithHeader(shader)
  {
    var k := Registry[Pick(rng(at))];
    if k == MixedPattern then
      var c := Mixer.Choose(rng, at + 1);
      var p1 := Mixer.AvailablePatternAsWritten(c.first, rng, at + 3);
      var p2 := Mixer.AvailablePatternAsWritten(c.second, rng, Mixer.SecondAt(c.first, at + 1));
      Mixer.MixedPatternAsWrittenParts(rng, at + 1);
      CompositeOpensWithHeader(Patterns.Core(p1), Mixer.Stripped(p2), Mixer.Cut(p1), Mixer.Cut(p2),
        Mixer.MixBlock(c.blend, c.speed));
      Mixer.MixedPatternAsWritten(rng, at + 1)
    else
      RenderOpensWithHeader(SingleAsWritten(k, rng, at + 1));
      Patterns.Render(SingleAsWritten(k, rng, at + 1))
  }

  /** Apart from `fluidSimulation` and the mixed pattern, the program as written and the corrected one agree. */
  lemma GenerateAsWrittenAgrees(rng: nat -> real, at: nat)
    requires Patterns.Tape(rng)
    requires Registry[Pick(rng(at))] != FluidSimulation && Registry[Pick(rng(at))] != MixedPattern
    ensures GenerateAsWritten(rng, at) == Generate(rng, at)
  {
  }

  /**
   * Picked alone, `fluidSimulation` as written has its last `}` before
   * `void main()`: the brace that should close `main` is missing. The
   * corrected template's last `}` comes after it and closes `main`.
   */
  lemma FluidPickUnclosed(rng: nat -> real, at: nat)
    requires Patterns.Tape(rng)
    requires Registry[Pick(rng(at))] == FluidSimulation
    ensures 0 <= LastIndexOf(GenerateAsWritten(rng, at), "}") < IndexOf(GenerateAsWritten(rng, at), Patterns.MainSignature, 0)
    ensures 0 <= IndexOf(Generate(rng, at), Patterns.MainSignature, 0) < LastIndexOf(Generate(rng, at), "}")
  {
    var p := Patterns.FluidSimulationAsWritten(rng, at + 1);
    var q := Patterns.FluidSimulation(rng, at + 1);
    Composability.FluidAsWrittenDrawn(rng, at + 1);
    Composability.FluidDrawn(rng, at + 1);
    assert GenerateAsWritten(rng, at) == Patterns.Render(p);
    assert Generate(rng, at) == Patterns.Render(q);
    Composer.UnclosedBraceBeforeMain(p);
    Composer.ClosedBraceAfterMain(q);
  }
}
