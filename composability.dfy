/**
 * The seven templates `mixedPattern` picks from satisfy what its cuts rely
 * on, whatever numbers are printed into them: no `void main()` among the
 * helper functions, and no `gl_FragColor =` in `main` before the final one.
 * Each absence is shown by a certificate: one character of the marker per
 * piece of text that the piece lacks (see `Composer.Witnessed`).
 */
module Composability {
  import opened JsString
  import opened Numerals
  import opened Patterns
  import opened Composer

  /**
   * A printed value: it holds neither marker's first character nor a `}`
   * nor an `o`, and it starts with a character of neither marker.
   */
  predicate Plain(s: string) {
    && s != [] && 'v' !in s && 'g' !in s && '}' !in s && 'o' !in s
    && s[0] !in MainSignature && s[0] !in FragColorAssign
  }

  lemma NumeralPlain(s: string)
    requires IsNumeral(s) && s != []
    ensures Plain(s)
  {
    assert IsNumeralChar(s[0]);
    forall k | 0 <= k < |s| ensures IsNumeralChar(s[k]) {
    }
  }

  lemma DigitsPlain(s: string)
    requires AllDigits(s) && s != []
    ensures Plain(s)
  {
    DigitsAreNumeral(s);
    NumeralPlain(s);
  }

  lemma BoolPlain(b: bool)
    ensures Plain(BoolText(b))
  {
  }

  // Each certificate covers one run of lines of a template, and the runs
  // are put together after: the solver checks a few pieces at a time far
  // more cheaply than a whole function at once. A `...PartN` lemma
  // certifies one short range of pieces of a run; `WitnessedJoin` chains
  // the ranges and `WitnessedAbsent` turns the whole certificate into the
  // absence of the marker.

  /**
   * What `Composable` asks of a template, piece by piece: no helper
   * function holds `void main()`, and `main` holds no `gl_FragColor =`
   * before its final one.
   */
  lemma ComposableOf(p: PatternSource)
    requires forall i :: 0 <= i < |p.funcs| ==> Absent(Cat(p.funcs[i]), MainSignature)
    requires Absent(Cat(p.lead), FragColorAssign)
    requires !p.closed ==> p.funcs != [] && '}' !in Cat(p.lead) && '}' !in p.output
    ensures Composable(p)
  {
    JoinAbsent(p.funcs, Newline(p), MainSignature);
    AssignFirst(Cat(p.lead), p.output);
  }

  // ---- plasma

  lemma PlasmaMainLines1Certified(speed: string)
    requires Plain(speed)
    ensures Absent(Cat(PlasmaMainLines1(speed)), FragColorAssign)
  {
    WitnessedAbsent(PlasmaMainLines1(speed), "gg=ggggg", FragColorAssign);
  }

  lemma PlasmaMainLines2Certified(scale: string)
    requires Plain(scale)
    ensures Absent(Cat(PlasmaMainLines2(scale)), FragColorAssign)
    ensures Cat(PlasmaMainLines2(scale)) != [] && Cat(PlasmaMainLines2(scale))[0] == '\n'
  {
    WitnessedAbsent(PlasmaMainLines2(scale), "ggggggggg", FragColorAssign);
  }

  lemma PlasmaMainLines3Part1()
    ensures WitnessedRange(PlasmaMainLines3, "ggggggCg", FragColorAssign, 0, 3)
  {
  }

  lemma PlasmaMainLines3Part2()
    ensures WitnessedRange(PlasmaMainLines3, "ggggggCg", FragColorAssign, 3, 5)
  {
  }

  lemma PlasmaMainLines3Part3()
    ensures WitnessedRange(PlasmaMainLines3, "ggggggCg", FragColorAssign, 5, 8)
  {
  }

  lemma PlasmaMainLines3Certified()
    ensures Absent(Cat(PlasmaMainLines3), FragColorAssign)
    ensures Cat(PlasmaMainLines3) != [] && Cat(PlasmaMainLines3)[0] == '\n'
  {
    PlasmaMainLines3Part1();
    PlasmaMainLines3Part2();
    PlasmaMainLines3Part3();
    WitnessedJoin(PlasmaMainLines3, "ggggggCg", FragColorAssign, 0, 3, 5);
    WitnessedJoin(PlasmaMainLines3, "ggggggCg", FragColorAssign, 0, 5, 8);
    WitnessedAbsent(PlasmaMainLines3, "ggggggCg", FragColorAssign);
  }

  lemma PlasmaMainLines4Certified()
    ensures Absent(Cat(PlasmaMainLines4), FragColorAssign)
    ensures Cat(PlasmaMainLines4) != [] && Cat(PlasmaMainLines4)[0] == '\n'
  {
    WitnessedAbsent(PlasmaMainLines4, "gggggg", FragColorAssign);
  }

  lemma PlasmaMainHasNoAssign(speed: string, scale: string)
    requires Plain(speed) && Plain(scale)
    ensures Absent(Cat(PlasmaMainText(speed, scale)), FragColorAssign)
  {
    PlasmaMainLines1Certified(speed);
    PlasmaMainLines2Certified(scale);
    PlasmaMainLines3Certified();
    PlasmaMainLines4Certified();
    var s := PlasmaMainLines1(speed);
    RunsAbsent(s, PlasmaMainLines2(scale), FragColorAssign);
    s := s + PlasmaMainLines2(scale);
    RunsAbsent(s, PlasmaMainLines3, FragColorAssign);
    s := s + PlasmaMainLines3;
    RunsAbsent(s, PlasmaMainLines4, FragColorAssign);
    s := s + PlasmaMainLines4;
  }

  lemma PlasmaComposable(a: string, b: string)
    requires Plain(a) && Plain(b)
    ensures Composable(PlasmaSource(a, b))
  {
    PlasmaMainHasNoAssign(a, b);
    ComposableOf(PlasmaSource(a, b));
  }

  // ---- rays

  lemma RaysMainLines1Certified()
    ensures Absent(Cat(RaysMainLines1), FragColorAssign)
  {
    WitnessedAbsent(RaysMainLines1, "gg=gggg", FragColorAssign);
  }

  lemma RaysMainLines2Certified()
    ensures Absent(Cat(RaysMainLines2), FragColorAssign)
    ensures Cat(RaysMainLines2) != [] && Cat(RaysMainLines2)[0] == '\n'
  {
    WitnessedAbsent(RaysMainLines2, "ggggCC", FragColorAssign);
  }

  lemma RaysMainLines3Certified()
    ensures Absent(Cat(RaysMainLines3), FragColorAssign)
    ensures Cat(RaysMainLines3) != [] && Cat(RaysMainLines3)[0] == '\n'
  {
    WitnessedAbsent(RaysMainLines3, "ggCgggC", FragColorAssign);
  }

  lemma RaysMainLines4Part1(numRays: string)
    requires Plain(numRays)
    ensures WitnessedRange(RaysMainLines4(numRays), "ggggggCggg", FragColorAssign, 0, 2)
  {
  }

  lemma RaysMainLines4Part2(numRays: string)
    requires Plain(numRays)
    ensures WitnessedRange(RaysMainLines4(numRays), "ggggggCggg", FragColorAssign, 2, 5)
  {
  }

  lemma RaysMainLines4Part3(numRays: string)
    requires Plain(numRays)
    ensures WitnessedRange(RaysMainLines4(numRays), "ggggggCggg", FragColorAssign, 5, 8)
  {
  }

  lemma RaysMainLines4Part4(numRays: string)
    requires Plain(numRays)
    ensures WitnessedRange(RaysMainLines4(numRays), "ggggggCggg", FragColorAssign, 8, 10)
  {
  }

  lemma RaysMainLines4Certified(numRays: string)
    requires Plain(numRays)
    ensures Absent(Cat(RaysMainLines4(numRays)), FragColorAssign)
    ensures Cat(RaysMainLines4(numRays)) != [] && Cat(RaysMainLines4(numRays))[0] == '\n'
  {
    RaysMainLines4Part1(numRays);
    RaysMainLines4Part2(numRays);
    RaysMainLines4Part3(numRays);
    RaysMainLines4Part4(numRays);
    WitnessedJoin(RaysMainLines4(numRays), "ggggggCggg", FragColorAssign, 0, 2, 5);
    WitnessedJoin(RaysMainLines4(numRays), "ggggggCggg", FragColorAssign, 0, 5, 8);
    WitnessedJoin(RaysMainLines4(numRays), "ggggggCggg", FragColorAssign, 0, 8, 10);
    WitnessedAbsent(RaysMainLines4(numRays), "ggggggCggg", FragColorAssign);
  }

  lemma RaysMainLines5Certified()
    ensures Absent(Cat(RaysMainLines5), FragColorAssign)
    ensures Cat(RaysMainLines5) != [] && Cat(RaysMainLines5)[0] == '\n'
  {
    WitnessedAbsent(RaysMainLines5, "gCC=g", FragColorAssign);
  }

  lemma RaysMainLines6Certified()
    ensures Absent(Cat(RaysMainLines6), FragColorAssign)
    ensures Cat(RaysMainLines6) != [] && Cat(RaysMainLines6)[0] == '\n'
  {
    WitnessedAbsent(RaysMainLines6, "gC==g", FragColorAssign);
  }

  lemma RaysMainLines7Certified()
    ensures Absent(Cat(RaysMainLines7), FragColorAssign)
    ensures Cat(RaysMainLines7) != [] && Cat(RaysMainLines7)[0] == '\n'
  {
    WitnessedAbsent(RaysMainLines7, "gC==gg", FragColorAssign);
  }

  lemma RaysMainLines8Part1(speed: string)
    requires Plain(speed)
    ensures WitnessedRange(RaysMainLines8(speed), "gg=ggggg", FragColorAssign, 0, 2)
  {
  }

  lemma RaysMainLines8Part2(speed: string)
    requires Plain(speed)
    ensures WitnessedRange(RaysMainLines8(speed), "gg=ggggg", FragColorAssign, 2, 4)
  {
  }

  lemma RaysMainLines8Part3(speed: string)
    requires Plain(speed)
    ensures WitnessedRange(RaysMainLines8(speed), "gg=ggggg", FragColorAssign, 4, 6)
  {
  }

  lemma RaysMainLines8Part4(speed: string)
    requires Plain(speed)
    ensures WitnessedRange(RaysMainLines8(speed), "gg=ggggg", FragColorAssign, 6, 8)
  {
  }

  lemma RaysMainLines8Certified(speed: string)
    requires Plain(speed)
    ensures Absent(Cat(RaysMainLines8(speed)), FragColorAssign)
    ensures Cat(RaysMainLines8(speed)) != [] && Cat(RaysMainLines8(speed))[0] == '\n'
  {
    RaysMainLines8Part1(speed);
    RaysMainLines8Part2(speed);
    RaysMainLines8Part3(speed);
    RaysMainLines8Part4(speed);
    WitnessedJoin(RaysMainLines8(speed), "gg=ggggg", FragColorAssign, 0, 2, 4);
    WitnessedJoin(RaysMainLines8(speed), "gg=ggggg", FragColorAssign, 0, 4, 6);
    WitnessedJoin(RaysMainLines8(speed), "gg=ggggg", FragColorAssign, 0, 6, 8);
    WitnessedAbsent(RaysMainLines8(speed), "gg=ggggg", FragColorAssign);
  }

  lemma RaysMainLines9Certified()
    ensures Absent(Cat(RaysMainLines9), FragColorAssign)
    ensures Cat(RaysMainLines9) != [] && Cat(RaysMainLines9)[0] == '\n'
  {
    WitnessedAbsent(RaysMainLines9, "gg=ggg", FragColorAssign);
  }

  lemma RaysMainHasNoAssign(numRays: string, speed: string)
    requires Plain(numRays) && Plain(speed)
    ensures Absent(Cat(RaysMainText(numRays, speed)), FragColorAssign)
  {
    RaysMainLines1Certified();
    RaysMainLines2Certified();
    RaysMainLines3Certified();
    RaysMainLines4Certified(numRays);
    RaysMainLines5Certified();
    RaysMainLines6Certified();
    RaysMainLines7Certified();
    RaysMainLines8Certified(speed);
    RaysMainLines9Certified();
    var s := RaysMainLines1;
    RunsAbsent(s, RaysMainLines2, FragColorAssign);
    s := s + RaysMainLines2;
    RunsAbsent(s, RaysMainLines3, FragColorAssign);
    s := s + RaysMainLines3;
    RunsAbsent(s, RaysMainLines4(numRays), FragColorAssign);
    s := s + RaysMainLines4(numRays);
    RunsAbsent(s, RaysMainLines5, FragColorAssign);
    s := s + RaysMainLines5;
    RunsAbsent(s, RaysMainLines6, FragColorAssign);
    s := s + RaysMainLines6;
    RunsAbsent(s, RaysMainLines7, FragColorAssign);
    s := s + RaysMainLines7;
    RunsAbsent(s, RaysMainLines8(speed), FragColorAssign);
    s := s + RaysMainLines8(speed);
    RunsAbsent(s, RaysMainLines9, FragColorAssign);
    s := s + RaysMainLines9;
  }

  lemma RaysComposable(a: string, b: string)
    requires Plain(a) && Plain(b)
    ensures Composable(RaysSource(a, b))
  {
    RaysMainHasNoAssign(a, b);
    ComposableOf(RaysSource(a, b));
  }

  // ---- tunnel

  lemma TunnelRot2Lines1Certified()
    ensures Absent(Cat(TunnelRot2Lines1), MainSignature)
  {
    WitnessedAbsent(TunnelRot2Lines1, "vvvvv", MainSignature);
  }

  lemma TunnelRot2Lines2Certified()
    ensures Absent(Cat(TunnelRot2Lines2), MainSignature)
    ensures Cat(TunnelRot2Lines2) != [] && Cat(TunnelRot2Lines2)[0] == '\n'
  {
    WitnessedAbsent(TunnelRot2Lines2, "vvvv", MainSignature);
  }

  lemma TunnelRot2HasNoMain()
    ensures Absent(Cat(TunnelRot2Text), MainSignature)
  {
    TunnelRot2Lines1Certified();
    TunnelRot2Lines2Certified();
    var s := TunnelRot2Lines1;
    RunsAbsent(s, TunnelRot2Lines2, MainSignature);
    s := s + TunnelRot2Lines2;
  }

  lemma TunnelMainLines1Part1()
    ensures WitnessedRange(TunnelMainLines1, "gg=ggggg", FragColorAssign, 0, 2)
  {
  }

  lemma TunnelMainLines1Part2()
    ensures WitnessedRange(TunnelMainLines1, "gg=ggggg", FragColorAssign, 2, 4)
  {
  }

  lemma TunnelMainLines1Part3()
    ensures WitnessedRange(TunnelMainLines1, "gg=ggggg", FragColorAssign, 4, 6)
  {
  }

  lemma TunnelMainLines1Part4()
    ensures WitnessedRange(TunnelMainLines1, "gg=ggggg", FragColorAssign, 6, 8)
  {
  }

  lemma TunnelMainLines1Certified()
    ensures Absent(Cat(TunnelMainLines1), FragColorAssign)
  {
    TunnelMainLines1Part1();
    TunnelMainLines1Part2();
    TunnelMainLines1Part3();
    TunnelMainLines1Part4();
    WitnessedJoin(TunnelMainLines1, "gg=ggggg", FragColorAssign, 0, 2, 4);
    WitnessedJoin(TunnelMainLines1, "gg=ggggg", FragColorAssign, 0, 4, 6);
    WitnessedJoin(TunnelMainLines1, "gg=ggggg", FragColorAssign, 0, 6, 8);
    WitnessedAbsent(TunnelMainLines1, "gg=ggggg", FragColorAssign);
  }

  lemma TunnelMainLines2Certified(scale: string, speed: string)
    requires Plain(scale) && Plain(speed)
    ensures Absent(Cat(TunnelMainLines2(scale, speed)), FragColorAssign)
    ensures Cat(TunnelMainLines2(scale, speed)) != [] && Cat(TunnelMainLines2(scale, speed))[0] == '\n'
  {
    WitnessedAbsent(TunnelMainLines2(scale, speed), "ggggggg=gg", FragColorAssign);
  }

  lemma TunnelMainLines3Part1()
    ensures WitnessedRange(TunnelMainLines3, "ggg=gggg", FragColorAssign, 0, 3)
  {
  }

  lemma TunnelMainLines3Part2()
    ensures WitnessedRange(TunnelMainLines3, "ggg=gggg", FragColorAssign, 3, 5)
  {
  }

  lemma TunnelMainLines3Part3()
    ensures WitnessedRange(TunnelMainLines3, "ggg=gggg", FragColorAssign, 5, 8)
  {
  }

  lemma TunnelMainLines3Certified()
    ensures Absent(Cat(TunnelMainLines3), FragColorAssign)
    ensures Cat(TunnelMainLines3) != [] && Cat(TunnelMainLines3)[0] == '\n'
  {
    TunnelMainLines3Part1();
    TunnelMainLines3Part2();
    TunnelMainLines3Part3();
    WitnessedJoin(TunnelMainLines3, "ggg=gggg", FragColorAssign, 0, 3, 5);
    WitnessedJoin(TunnelMainLines3, "ggg=gggg", FragColorAssign, 0, 5, 8);
    WitnessedAbsent(TunnelMainLines3, "ggg=gggg", FragColorAssign);
  }

  lemma TunnelMainLines4Part1()
    ensures WitnessedRange(TunnelMainLines4, "gCCggC", FragColorAssign, 0, 3)
  {
  }

  lemma TunnelMainLines4Part2()
    ensures WitnessedRange(TunnelMainLines4, "gCCggC", FragColorAssign, 3, 6)
  {
  }

  lemma TunnelMainLines4Certified()
    ensures Absent(Cat(TunnelMainLines4), FragColorAssign)
    ensures Cat(TunnelMainLines4) != [] && Cat(TunnelMainLines4)[0] == '\n'
  {
    TunnelMainLines4Part1();
    TunnelMainLines4Part2();
    WitnessedJoin(TunnelMainLines4, "gCCggC", FragColorAssign, 0, 3, 6);
    WitnessedAbsent(TunnelMainLines4, "gCCggC", FragColorAssign);
  }

  lemma TunnelMainLines5Part1()
    ensures WitnessedRange(TunnelMainLines5, "gggCgggg", FragColorAssign, 0, 3)
  {
  }

  lemma TunnelMainLines5Part2()
    ensures WitnessedRange(TunnelMainLines5, "gggCgggg", FragColorAssign, 3, 5)
  {
  }

  lemma TunnelMainLines5Part3()
    ensures WitnessedRange(TunnelMainLines5, "gggCgggg", FragColorAssign, 5, 8)
  {
  }

  lemma TunnelMainLines5Certified()
    ensures Absent(Cat(TunnelMainLines5), FragColorAssign)
    ensures Cat(TunnelMainLines5) != [] && Cat(TunnelMainLines5)[0] == '\n'
  {
    TunnelMainLines5Part1();
    TunnelMainLines5Part2();
    TunnelMainLines5Part3();
    WitnessedJoin(TunnelMainLines5, "gggCgggg", FragColorAssign, 0, 3, 5);
    WitnessedJoin(TunnelMainLines5, "gggCgggg", FragColorAssign, 0, 5, 8);
    WitnessedAbsent(TunnelMainLines5, "gggCgggg", FragColorAssign);
  }

  lemma TunnelMainLines6Part1()
    ensures WitnessedRange(TunnelMainLines6, "gggggggg", FragColorAssign, 0, 4)
  {
  }

  lemma TunnelMainLines6Part2()
    ensures WitnessedRange(TunnelMainLines6, "gggggggg", FragColorAssign, 4, 8)
  {
  }

  lemma TunnelMainLines6Certified()
    ensures Absent(Cat(TunnelMainLines6), FragColorAssign)
    ensures Cat(TunnelMainLines6) != [] && Cat(TunnelMainLines6)[0] == '\n'
  {
    TunnelMainLines6Part1();
    TunnelMainLines6Part2();
    WitnessedJoin(TunnelMainLines6, "gggggggg", FragColorAssign, 0, 4, 8);
    WitnessedAbsent(TunnelMainLines6, "gggggggg", FragColorAssign);
  }

  lemma TunnelMainLines7Certified()
    ensures Absent(Cat(TunnelMainLines7), FragColorAssign)
    ensures Cat(TunnelMainLines7) != [] && Cat(TunnelMainLines7)[0] == '\n'
  {
    WitnessedAbsent(TunnelMainLines7, "gggggggg", FragColorAssign);
  }

  lemma TunnelMainHasNoAssign(scale: string, speed: string)
    requires Plain(scale) && Plain(speed)
    ensures Absent(Cat(TunnelMainText(scale, speed)), FragColorAssign)
  {
    TunnelMainLines1Certified();
    TunnelMainLines2Certified(scale, speed);
    TunnelMainLines3Certified();
    TunnelMainLines4Certified();
    TunnelMainLines5Certified();
    TunnelMainLines6Certified();
    TunnelMainLines7Certified();
    var s := TunnelMainLines1;
    RunsAbsent(s, TunnelMainLines2(scale, speed), FragColorAssign);
    s := s + TunnelMainLines2(scale, speed);
    RunsAbsent(s, TunnelMainLines3, FragColorAssign);
    s := s + TunnelMainLines3;
    RunsAbsent(s, TunnelMainLines4, FragColorAssign);
    s := s + TunnelMainLines4;
    RunsAbsent(s, TunnelMainLines5, FragColorAssign);
    s := s + TunnelMainLines5;
    RunsAbsent(s, TunnelMainLines6, FragColorAssign);
    s := s + TunnelMainLines6;
    RunsAbsent(s, TunnelMainLines7, FragColorAssign);
    s := s + TunnelMainLines7;
  }

  lemma TunnelComposable(a: string, b: string)
    requires Plain(a) && Plain(b)
    ensures Composable(TunnelSource(a, b))
  {
    TunnelRot2HasNoMain();
    TunnelMainHasNoAssign(a, b);
    ComposableOf(TunnelSource(a, b));
  }

  // ---- noise

  lemma NoiseHashLines1Part1()
    ensures WitnessedRange(NoiseHashLines1, "vvvdvdd", MainSignature, 0, 2)
  {
  }

  lemma NoiseHashLines1Part2()
    ensures WitnessedRange(NoiseHashLines1, "vvvdvdd", MainSignature, 2, 5)
  {
  }

  lemma NoiseHashLines1Part3()
    ensures WitnessedRange(NoiseHashLines1, "vvvdvdd", MainSignature, 5, 7)
  {
  }

  lemma NoiseHashLines1Certified()
    ensures Absent(Cat(NoiseHashLines1), MainSignature)
  {
    NoiseHashLines1Part1();
    NoiseHashLines1Part2();
    NoiseHashLines1Part3();
    WitnessedJoin(NoiseHashLines1, "vvvdvdd", MainSignature, 0, 2, 5);
    WitnessedJoin(NoiseHashLines1, "vvvdvdd", MainSignature, 0, 5, 7);
    WitnessedAbsent(NoiseHashLines1, "vvvdvdd", MainSignature);
  }

  lemma NoiseHashLines2Part1()
    ensures WitnessedRange(NoiseHashLines2, "vvvvvvv", MainSignature, 0, 4)
  {
  }

  lemma NoiseHashLines2Part2()
    ensures WitnessedRange(NoiseHashLines2, "vvvvvvv", MainSignature, 4, 7)
  {
  }

  lemma NoiseHashLines2Certified()
    ensures Absent(Cat(NoiseHashLines2), MainSignature)
    ensures Cat(NoiseHashLines2) != [] && Cat(NoiseHashLines2)[0] == '\n'
  {
    NoiseHashLines2Part1();
    NoiseHashLines2Part2();
    WitnessedJoin(NoiseHashLines2, "vvvvvvv", MainSignature, 0, 4, 7);
    WitnessedAbsent(NoiseHashLines2, "vvvvvvv", MainSignature);
  }

  lemma NoiseHashHasNoMain()
    ensures Absent(Cat(NoiseHashText), MainSignature)
  {
    NoiseHashLines1Certified();
    NoiseHashLines2Certified();
    var s := NoiseHashLines1;
    RunsAbsent(s, NoiseHashLines2, MainSignature);
    s := s + NoiseHashLines2;
  }

  lemma NoiseNoiseLines1Certified()
    ensures Absent(Cat(NoiseNoiseLines1), MainSignature)
  {
    WitnessedAbsent(NoiseNoiseLines1, "vvvavavd", MainSignature);
  }

  lemma NoiseNoiseLines2Certified()
    ensures Absent(Cat(NoiseNoiseLines2), MainSignature)
    ensures Cat(NoiseNoiseLines2) != [] && Cat(NoiseNoiseLines2)[0] == '\n'
  {
    WitnessedAbsent(NoiseNoiseLines2, "vvvvvv", MainSignature);
  }

  lemma NoiseNoiseLines3Certified()
    ensures Absent(Cat(NoiseNoiseLines3), MainSignature)
    ensures Cat(NoiseNoiseLines3) != [] && Cat(NoiseNoiseLines3)[0] == '\n'
  {
    WitnessedAbsent(NoiseNoiseLines3, "vvavva", MainSignature);
  }

  lemma NoiseNoiseLines4Part1()
    ensures WitnessedRange(NoiseNoiseLines4, "vvavvvvvv", MainSignature, 0, 2)
  {
  }

  lemma NoiseNoiseLines4Part2()
    ensures WitnessedRange(NoiseNoiseLines4, "vvavvvvvv", MainSignature, 2, 4)
  {
  }

  lemma NoiseNoiseLines4Part3()
    ensures WitnessedRange(NoiseNoiseLines4, "vvavvvvvv", MainSignature, 4, 7)
  {
  }

  lemma NoiseNoiseLines4Part4()
    ensures WitnessedRange(NoiseNoiseLines4, "vvavvvvvv", MainSignature, 7, 9)
  {
  }

  lemma NoiseNoiseLines4Certified()
    ensures Absent(Cat(NoiseNoiseLines4), MainSignature)
    ensures Cat(NoiseNoiseLines4) != [] && Cat(NoiseNoiseLines4)[0] == '\n'
  {
    NoiseNoiseLines4Part1();
    NoiseNoiseLines4Part2();
    NoiseNoiseLines4Part3();
    NoiseNoiseLines4Part4();
    WitnessedJoin(NoiseNoiseLines4, "vvavvvvvv", MainSignature, 0, 2, 4);
    WitnessedJoin(NoiseNoiseLines4, "vvavvvvvv", MainSignature, 0, 4, 7);
    WitnessedJoin(NoiseNoiseLines4, "vvavvvvvv", MainSignature, 0, 7, 9);
    WitnessedAbsent(NoiseNoiseLines4, "vvavvvvvv", MainSignature);
  }

  lemma NoiseNoiseHasNoMain()
    ensures Absent(Cat(NoiseNoiseText), MainSignature)
  {
    NoiseNoiseLines1Certified();
    NoiseNoiseLines2Certified();
    NoiseNoiseLines3Certified();
    NoiseNoiseLines4Certified();
    var s := NoiseNoiseLines1;
    RunsAbsent(s, NoiseNoiseLines2, MainSignature);
    s := s + NoiseNoiseLines2;
    RunsAbsent(s, NoiseNoiseLines3, MainSignature);
    s := s + NoiseNoiseLines3;
    RunsAbsent(s, NoiseNoiseLines4, MainSignature);
    s := s + NoiseNoiseLines4;
  }

  lemma NoiseFbmLines1Part1()
    ensures WitnessedRange(NoiseFbmLines1, "vvvdvv", MainSignature, 0, 3)
  {
  }

  lemma NoiseFbmLines1Part2()
    ensures WitnessedRange(NoiseFbmLines1, "vvvdvv", MainSignature, 3, 6)
  {
  }

  lemma NoiseFbmLines1Certified()
    ensures Absent(Cat(NoiseFbmLines1), MainSignature)
  {
    NoiseFbmLines1Part1();
    NoiseFbmLines1Part2();
    WitnessedJoin(NoiseFbmLines1, "vvvdvv", MainSignature, 0, 3, 6);
    WitnessedAbsent(NoiseFbmLines1, "vvvdvv", MainSignature);
  }

  lemma NoiseFbmLines2Part1()
    ensures WitnessedRange(NoiseFbmLines2, "vvvvvvvv", MainSignature, 0, 4)
  {
  }

  lemma NoiseFbmLines2Part2()
    ensures WitnessedRange(NoiseFbmLines2, "vvvvvvvv", MainSignature, 4, 8)
  {
  }

  lemma NoiseFbmLines2Certified()
    ensures Absent(Cat(NoiseFbmLines2), MainSignature)
    ensures Cat(NoiseFbmLines2) != [] && Cat(NoiseFbmLines2)[0] == '\n'
  {
    NoiseFbmLines2Part1();
    NoiseFbmLines2Part2();
    WitnessedJoin(NoiseFbmLines2, "vvvvvvvv", MainSignature, 0, 4, 8);
    WitnessedAbsent(NoiseFbmLines2, "vvvvvvvv", MainSignature);
  }

  lemma NoiseFbmLines3Part1()
    ensures WitnessedRange(NoiseFbmLines3, "vvvvvvv", MainSignature, 0, 4)
  {
  }

  lemma NoiseFbmLines3Part2()
    ensures WitnessedRange(NoiseFbmLines3, "vvvvvvv", MainSignature, 4, 7)
  {
  }

  lemma NoiseFbmLines3Certified()
    ensures Absent(Cat(NoiseFbmLines3), MainSignature)
    ensures Cat(NoiseFbmLines3) != [] && Cat(NoiseFbmLines3)[0] == '\n'
  {
    NoiseFbmLines3Part1();
    NoiseFbmLines3Part2();
    WitnessedJoin(NoiseFbmLines3, "vvvvvvv", MainSignature, 0, 4, 7);
    WitnessedAbsent(NoiseFbmLines3, "vvvvvvv", MainSignature);
  }

  lemma NoiseFbmLines4Certified()
    ensures Absent(Cat(NoiseFbmLines4), MainSignature)
    ensures Cat(NoiseFbmLines4) != [] && Cat(NoiseFbmLines4)[0] == '\n'
  {
    WitnessedAbsent(NoiseFbmLines4, "vvvvvv", MainSignature);
  }

  lemma NoiseFbmHasNoMain()
    ensures Absent(Cat(NoiseFbmText), MainSignature)
  {
    NoiseFbmLines1Certified();
    NoiseFbmLines2Certified();
    NoiseFbmLines3Certified();
    NoiseFbmLines4Certified();
    var s := NoiseFbmLines1;
    RunsAbsent(s, NoiseFbmLines2, MainSignature);
    s := s + NoiseFbmLines2;
    RunsAbsent(s, NoiseFbmLines3, MainSignature);
    s := s + NoiseFbmLines3;
    RunsAbsent(s, NoiseFbmLines4, MainSignature);
    s := s + NoiseFbmLines4;
  }

  lemma NoiseMainLines1Certified(speed: string)
    requires Plain(speed)
    ensures Absent(Cat(NoiseMainLines1(speed)), FragColorAssign)
  {
    WitnessedAbsent(NoiseMainLines1(speed), "gg=ggggg", FragColorAssign);
  }

  lemma NoiseMainLines2Certified(scale: string)
    requires Plain(scale)
    ensures Absent(Cat(NoiseMainLines2(scale)), FragColorAssign)
    ensures Cat(NoiseMainLines2(scale)) != [] && Cat(NoiseMainLines2(scale))[0] == '\n'
  {
    WitnessedAbsent(NoiseMainLines2(scale), "gggggggg", FragColorAssign);
  }

  lemma NoiseMainLines3Part1()
    ensures WitnessedRange(NoiseMainLines3, "ggggggg", FragColorAssign, 0, 4)
  {
  }

  lemma NoiseMainLines3Part2()
    ensures WitnessedRange(NoiseMainLines3, "ggggggg", FragColorAssign, 4, 7)
  {
  }

  lemma NoiseMainLines3Certified()
    ensures Absent(Cat(NoiseMainLines3), FragColorAssign)
    ensures Cat(NoiseMainLines3) != [] && Cat(NoiseMainLines3)[0] == '\n'
  {
    NoiseMainLines3Part1();
    NoiseMainLines3Part2();
    WitnessedJoin(NoiseMainLines3, "ggggggg", FragColorAssign, 0, 4, 7);
    WitnessedAbsent(NoiseMainLines3, "ggggggg", FragColorAssign);
  }

  lemma NoiseMainLines4Certified()
    ensures Absent(Cat(NoiseMainLines4), FragColorAssign)
    ensures Cat(NoiseMainLines4) != [] && Cat(NoiseMainLines4)[0] == '\n'
  {
    WitnessedAbsent(NoiseMainLines4, "ggggg", FragColorAssign);
  }

  lemma NoiseMainHasNoAssign(scale: string, speed: string)
    requires Plain(scale) && Plain(speed)
    ensures Absent(Cat(NoiseMainText(scale, speed)), FragColorAssign)
  {
    NoiseMainLines1Certified(speed);
    NoiseMainLines2Certified(scale);
    NoiseMainLines3Certified();
    NoiseMainLines4Certified();
    var s := NoiseMainLines1(speed);
    RunsAbsent(s, NoiseMainLines2(scale), FragColorAssign);
    s := s + NoiseMainLines2(scale);
    RunsAbsent(s, NoiseMainLines3, FragColorAssign);
    s := s + NoiseMainLines3;
    RunsAbsent(s, NoiseMainLines4, FragColorAssign);
    s := s + NoiseMainLines4;
  }

  lemma NoiseComposable(a: string, b: string)
    requires Plain(a) && Plain(b)
    ensures Composable(NoiseSource(a, b))
  {
    NoiseHashHasNoMain();
    NoiseNoiseHasNoMain();
    NoiseFbmHasNoMain();
    NoiseMainHasNoAssign(a, b);
    ComposableOf(NoiseSource(a, b));
  }

  // ---- fractalNoise

  lemma FractalRandomHasNoMain()
    ensures Absent(Cat(FractalRandomText), MainSignature)
  {
    WitnessedAbsent(FractalRandomText, "vivvaavv", MainSignature);
  }

  lemma FractalNoiseLines1Certified()
    ensures Absent(Cat(FractalNoiseLines1), MainSignature)
  {
    WitnessedAbsent(FractalNoiseLines1, "vavavd", MainSignature);
  }

  lemma FractalNoiseLines2Certified()
    ensures Absent(Cat(FractalNoiseLines2), MainSignature)
    ensures Cat(FractalNoiseLines2) != [] && Cat(FractalNoiseLines2)[0] == '\n'
  {
    WitnessedAbsent(FractalNoiseLines2, "vvvvvv", MainSignature);
  }

  lemma FractalNoiseLines3Certified()
    ensures Absent(Cat(FractalNoiseLines3), MainSignature)
    ensures Cat(FractalNoiseLines3) != [] && Cat(FractalNoiseLines3)[0] == '\n'
  {
    WitnessedAbsent(FractalNoiseLines3, "vvavva", MainSignature);
  }

  lemma FractalNoiseLines4Part1()
    ensures WitnessedRange(FractalNoiseLines4, "vvavvv(", MainSignature, 0, 2)
  {
  }

  lemma FractalNoiseLines4Part2()
    ensures WitnessedRange(FractalNoiseLines4, "vvavvv(", MainSignature, 2, 4)
  {
  }

  lemma FractalNoiseLines4Part3()
    ensures WitnessedRange(FractalNoiseLines4, "vvavvv(", MainSignature, 4, 5)
  {
  }

  lemma FractalNoiseLines4Part4()
    ensures WitnessedRange(FractalNoiseLines4, "vvavvv(", MainSignature, 5, 7)
  {
  }

  lemma FractalNoiseLines4Certified()
    ensures Absent(Cat(FractalNoiseLines4), MainSignature)
    ensures Cat(FractalNoiseLines4) != [] && Cat(FractalNoiseLines4)[0] == '\n'
  {
    FractalNoiseLines4Part1();
    FractalNoiseLines4Part2();
    FractalNoiseLines4Part3();
    FractalNoiseLines4Part4();
    WitnessedJoin(FractalNoiseLines4, "vvavvv(", MainSignature, 0, 2, 4);
    WitnessedJoin(FractalNoiseLines4, "vvavvv(", MainSignature, 0, 4, 5);
    WitnessedJoin(FractalNoiseLines4, "vvavvv(", MainSignature, 0, 5, 7);
    WitnessedAbsent(FractalNoiseLines4, "vvavvv(", MainSignature);
  }

  lemma FractalNoiseLines5Certified()
    ensures Absent(Cat(FractalNoiseLines5), MainSignature)
    ensures Cat(FractalNoiseLines5) != [] && Cat(FractalNoiseLines5)[0] == '\n'
  {
    WitnessedAbsent(FractalNoiseLines5, "v(vvvvv", MainSignature);
  }

  lemma FractalNoiseLines6Part1()
    ensures WitnessedRange(FractalNoiseLines6, "vvvvv", MainSignature, 0, 2)
  {
  }

  lemma FractalNoiseLines6Part2()
    ensures WitnessedRange(FractalNoiseLines6, "vvvvv", MainSignature, 2, 5)
  {
  }

  lemma FractalNoiseLines6Certified()
    ensures Absent(Cat(FractalNoiseLines6), MainSignature)
    ensures Cat(FractalNoiseLines6) != [] && Cat(FractalNoiseLines6)[0] == '\n'
  {
    FractalNoiseLines6Part1();
    FractalNoiseLines6Part2();
    WitnessedJoin(FractalNoiseLines6, "vvvvv", MainSignature, 0, 2, 5);
    WitnessedAbsent(FractalNoiseLines6, "vvvvv", MainSignature);
  }

  lemma FractalNoiseHasNoMain()
    ensures Absent(Cat(FractalNoiseText), MainSignature)
  {
    FractalNoiseLines1Certified();
    FractalNoiseLines2Certified();
    FractalNoiseLines3Certified();
    FractalNoiseLines4Certified();
    FractalNoiseLines5Certified();
    FractalNoiseLines6Certified();
    var s := FractalNoiseLines1;
    RunsAbsent(s, FractalNoiseLines2, MainSignature);
    s := s + FractalNoiseLines2;
    RunsAbsent(s, FractalNoiseLines3, MainSignature);
    s := s + FractalNoiseLines3;
    RunsAbsent(s, FractalNoiseLines4, MainSignature);
    s := s + FractalNoiseLines4;
    RunsAbsent(s, FractalNoiseLines5, MainSignature);
    s := s + FractalNoiseLines5;
    RunsAbsent(s, FractalNoiseLines6, MainSignature);
    s := s + FractalNoiseLines6;
  }

  lemma FractalFbmLines1Part1()
    ensures WitnessedRange(FractalFbmLines1, "dv(vvv", MainSignature, 0, 2)
  {
  }

  lemma FractalFbmLines1Part2()
    ensures WitnessedRange(FractalFbmLines1, "dv(vvv", MainSignature, 2, 3)
  {
  }

  lemma FractalFbmLines1Part3()
    ensures WitnessedRange(FractalFbmLines1, "dv(vvv", MainSignature, 3, 4)
  {
  }

  lemma FractalFbmLines1Part4()
    ensures WitnessedRange(FractalFbmLines1, "dv(vvv", MainSignature, 4, 6)
  {
  }

  lemma FractalFbmLines1Certified()
    ensures Absent(Cat(FractalFbmLines1), MainSignature)
  {
    FractalFbmLines1Part1();
    FractalFbmLines1Part2();
    FractalFbmLines1Part3();
    FractalFbmLines1Part4();
    WitnessedJoin(FractalFbmLines1, "dv(vvv", MainSignature, 0, 2, 3);
    WitnessedJoin(FractalFbmLines1, "dv(vvv", MainSignature, 0, 3, 4);
    WitnessedJoin(FractalFbmLines1, "dv(vvv", MainSignature, 0, 4, 6);
    WitnessedAbsent(FractalFbmLines1, "dv(vvv", MainSignature);
  }

  lemma FractalFbmLines2Part1(octaves: string)
    requires Plain(octaves)
    ensures WitnessedRange(FractalFbmLines2(octaves), "vvvvvvvv", MainSignature, 0, 4)
  {
  }

  lemma FractalFbmLines2Part2(octaves: string)
    requires Plain(octaves)
    ensures WitnessedRange(FractalFbmLines2(octaves), "vvvvvvvv", MainSignature, 4, 8)
  {
  }

  lemma FractalFbmLines2Certified(octaves: string)
    requires Plain(octaves)
    ensures Absent(Cat(FractalFbmLines2(octaves)), MainSignature)
    ensures Cat(FractalFbmLines2(octaves)) != [] && Cat(FractalFbmLines2(octaves))[0] == '\n'
  {
    FractalFbmLines2Part1(octaves);
    FractalFbmLines2Part2(octaves);
    WitnessedJoin(FractalFbmLines2(octaves), "vvvvvvvv", MainSignature, 0, 4, 8);
    WitnessedAbsent(FractalFbmLines2(octaves), "vvvvvvvv", MainSignature);
  }

  lemma FractalFbmLines3Part1(lacunarity: string)
    requires Plain(lacunarity)
    ensures WitnessedRange(FractalFbmLines3(lacunarity), "v(vvvvvv", MainSignature, 0, 4)
  {
  }

  lemma FractalFbmLines3Part2(lacunarity: string)
    requires Plain(lacunarity)
    ensures WitnessedRange(FractalFbmLines3(lacunarity), "v(vvvvvv", MainSignature, 4, 8)
  {
  }

  lemma FractalFbmLines3Certified(lacunarity: string)
    requires Plain(lacunarity)
    ensures Absent(Cat(FractalFbmLines3(lacunarity)), MainSignature)
    ensures Cat(FractalFbmLines3(lacunarity)) != [] && Cat(FractalFbmLines3(lacunarity))[0] == '\n'
  {
    FractalFbmLines3Part1(lacunarity);
    FractalFbmLines3Part2(lacunarity);
    WitnessedJoin(FractalFbmLines3(lacunarity), "v(vvvvvv", MainSignature, 0, 4, 8);
    WitnessedAbsent(FractalFbmLines3(lacunarity), "v(vvvvvv", MainSignature);
  }

  lemma FractalFbmLines4Part1(gain: string)
    requires Plain(gain)
    ensures WitnessedRange(FractalFbmLines4(gain), "vvvvvvvv(v", MainSignature, 0, 5)
  {
  }

  lemma FractalFbmLines4Part2(gain: string)
    requires Plain(gain)
    ensures WitnessedRange(FractalFbmLines4(gain), "vvvvvvvv(v", MainSignature, 5, 10)
  {
  }

  lemma FractalFbmLines4Certified(gain: string)
    requires Plain(gain)
    ensures Absent(Cat(FractalFbmLines4(gain)), MainSignature)
    ensures Cat(FractalFbmLines4(gain)) != [] && Cat(FractalFbmLines4(gain))[0] == '\n'
  {
    FractalFbmLines4Part1(gain);
    FractalFbmLines4Part2(gain);
    WitnessedJoin(FractalFbmLines4(gain), "vvvvvvvv(v", MainSignature, 0, 5, 10);
    WitnessedAbsent(FractalFbmLines4(gain), "vvvvvvvv(v", MainSignature);
  }

  lemma FractalFbmHasNoMain(octaves: string, lacunarity: string, gain: string)
    requires Plain(octaves) && Plain(lacunarity) && Plain(gain)
    ensures Absent(Cat(FractalFbmText(octaves, lacunarity, gain)), MainSignature)
  {
    FractalFbmLines1Certified();
    FractalFbmLines2Certified(octaves);
    FractalFbmLines3Certified(lacunarity);
    FractalFbmLines4Certified(gain);
    var s := FractalFbmLines1;
    RunsAbsent(s, FractalFbmLines2(octaves), MainSignature);
    s := s + FractalFbmLines2(octaves);
    RunsAbsent(s, FractalFbmLines3(lacunarity), MainSignature);
    s := s + FractalFbmLines3(lacunarity);
    RunsAbsent(s, FractalFbmLines4(gain), MainSignature);
    s := s + FractalFbmLines4(gain);
  }

  lemma FractalMainLines1Part1()
    ensures WitnessedRange(FractalMainLines1, "gg=gggg", FragColorAssign, 0, 2)
  {
  }

  lemma FractalMainLines1Part2()
    ensures WitnessedRange(FractalMainLines1, "gg=gggg", FragColorAssign, 2, 4)
  {
  }

  lemma FractalMainLines1Part3()
    ensures WitnessedRange(FractalMainLines1, "gg=gggg", FragColorAssign, 4, 5)
  {
  }

  lemma FractalMainLines1Part4()
    ensures WitnessedRange(FractalMainLines1, "gg=gggg", FragColorAssign, 5, 7)
  {
  }

  lemma FractalMainLines1Certified()
    ensures Absent(Cat(FractalMainLines1), FragColorAssign)
  {
    FractalMainLines1Part1();
    FractalMainLines1Part2();
    FractalMainLines1Part3();
    FractalMainLines1Part4();
    WitnessedJoin(FractalMainLines1, "gg=gggg", FragColorAssign, 0, 2, 4);
    WitnessedJoin(FractalMainLines1, "gg=gggg", FragColorAssign, 0, 4, 5);
    WitnessedJoin(FractalMainLines1, "gg=gggg", FragColorAssign, 0, 5, 7);
    WitnessedAbsent(FractalMainLines1, "gg=gggg", FragColorAssign);
  }

  lemma FractalMainLines2Part1()
    ensures WitnessedRange(FractalMainLines2, "ggggggggg", FragColorAssign, 0, 4)
  {
  }

  lemma FractalMainLines2Part2()
    ensures WitnessedRange(FractalMainLines2, "ggggggggg", FragColorAssign, 4, 9)
  {
  }

  lemma FractalMainLines2Certified()
    ensures Absent(Cat(FractalMainLines2), FragColorAssign)
    ensures Cat(FractalMainLines2) != [] && Cat(FractalMainLines2)[0] == '\n'
  {
    FractalMainLines2Part1();
    FractalMainLines2Part2();
    WitnessedJoin(FractalMainLines2, "ggggggggg", FragColorAssign, 0, 4, 9);
    WitnessedAbsent(FractalMainLines2, "ggggggggg", FragColorAssign);
  }

  lemma FractalMainLines3Part1()
    ensures WitnessedRange(FractalMainLines3, "ggggggggg", FragColorAssign, 0, 4)
  {
  }

  lemma FractalMainLines3Part2()
    ensures WitnessedRange(FractalMainLines3, "ggggggggg", FragColorAssign, 4, 9)
  {
  }

  lemma FractalMainLines3Certified()
    ensures Absent(Cat(FractalMainLines3), FragColorAssign)
    ensures Cat(FractalMainLines3) != [] && Cat(FractalMainLines3)[0] == '\n'
  {
    FractalMainLines3Part1();
    FractalMainLines3Part2();
    WitnessedJoin(FractalMainLines3, "ggggggggg", FragColorAssign, 0, 4, 9);
    WitnessedAbsent(FractalMainLines3, "ggggggggg", FragColorAssign);
  }

  lemma FractalMainLines4Part1()
    ensures WitnessedRange(FractalMainLines4, "gggggggggg", FragColorAssign, 0, 2)
  {
  }

  lemma FractalMainLines4Part2()
    ensures WitnessedRange(FractalMainLines4, "gggggggggg", FragColorAssign, 2, 5)
  {
  }

  lemma FractalMainLines4Part3()
    ensures WitnessedRange(FractalMainLines4, "gggggggggg", FragColorAssign, 5, 8)
  {
  }

  lemma FractalMainLines4Part4()
    ensures WitnessedRange(FractalMainLines4, "gggggggggg", FragColorAssign, 8, 10)
  {
  }

  lemma FractalMainLines4Certified()
    ensures Absent(Cat(FractalMainLines4), FragColorAssign)
    ensures Cat(FractalMainLines4) != [] && Cat(FractalMainLines4)[0] == '\n'
  {
    FractalMainLines4Part1();
    FractalMainLines4Part2();
    FractalMainLines4Part3();
    FractalMainLines4Part4();
    WitnessedJoin(FractalMainLines4, "gggggggggg", FragColorAssign, 0, 2, 5);
    WitnessedJoin(FractalMainLines4, "gggggggggg", FragColorAssign, 0, 5, 8);
    WitnessedJoin(FractalMainLines4, "gggggggggg", FragColorAssign, 0, 8, 10);
    WitnessedAbsent(FractalMainLines4, "gggggggggg", FragColorAssign);
  }

  lemma FractalMainLines5Part1()
    ensures WitnessedRange(FractalMainLines5, "gggggggg", FragColorAssign, 0, 3)
  {
  }

  lemma FractalMainLines5Part2()
    ensures WitnessedRange(FractalMainLines5, "gggggggg", FragColorAssign, 3, 5)
  {
  }

  lemma FractalMainLines5Part3()
    ensures WitnessedRange(FractalMainLines5, "gggggggg", FragColorAssign, 5, 8)
  {
  }

  lemma FractalMainLines5Certified()
    ensures Absent(Cat(FractalMainLines5), FragColorAssign)
    ensures Cat(FractalMainLines5) != [] && Cat(FractalMainLines5)[0] == '\n'
  {
    FractalMainLines5Part1();
    FractalMainLines5Part2();
    FractalMainLines5Part3();
    WitnessedJoin(FractalMainLines5, "gggggggg", FragColorAssign, 0, 3, 5);
    WitnessedJoin(FractalMainLines5, "gggggggg", FragColorAssign, 0, 5, 8);
    WitnessedAbsent(FractalMainLines5, "gggggggg", FragColorAssign);
  }

  lemma FractalMainLines6Certified()
    ensures Absent(Cat(FractalMainLines6), FragColorAssign)
    ensures Cat(FractalMainLines6) != [] && Cat(FractalMainLines6)[0] == '\n'
  {
    WitnessedAbsent(FractalMainLines6, "gggggg", FragColorAssign);
  }

  lemma FractalMainLines7Part1()
    ensures WitnessedRange(FractalMainLines7, "gggggg", FragColorAssign, 0, 2)
  {
  }

  lemma FractalMainLines7Part2()
    ensures WitnessedRange(FractalMainLines7, "gggggg", FragColorAssign, 2, 4)
  {
  }

  lemma FractalMainLines7Part3()
    ensures WitnessedRange(FractalMainLines7, "gggggg", FragColorAssign, 4, 6)
  {
  }

  lemma FractalMainLines7Certified()
    ensures Absent(Cat(FractalMainLines7), FragColorAssign)
    ensures Cat(FractalMainLines7) != [] && Cat(FractalMainLines7)[0] == '\n'
  {
    FractalMainLines7Part1();
    FractalMainLines7Part2();
    FractalMainLines7Part3();
    WitnessedJoin(FractalMainLines7, "gggggg", FragColorAssign, 0, 2, 4);
    WitnessedJoin(FractalMainLines7, "gggggg", FragColorAssign, 0, 4, 6);
    WitnessedAbsent(FractalMainLines7, "gggggg", FragColorAssign);
  }

  lemma FractalMainLines8Certified()
    ensures Absent(Cat(FractalMainLines8), FragColorAssign)
    ensures Cat(FractalMainLines8) != [] && Cat(FractalMainLines8)[0] == '\n'
  {
    WitnessedAbsent(FractalMainLines8, "ggggggg", FragColorAssign);
  }

  lemma FractalMainLines9Certified()
    ensures Absent(Cat(FractalMainLines9), FragColorAssign)
    ensures Cat(FractalMainLines9) != [] && Cat(FractalMainLines9)[0] == '\n'
  {
    WitnessedAbsent(FractalMainLines9, "gggg=ggg", FragColorAssign);
  }

  lemma FractalMainLines10Certified()
    ensures Absent(Cat(FractalMainLines10), FragColorAssign)
    ensures Cat(FractalMainLines10) != [] && Cat(FractalMainLines10)[0] == '\n'
  {
    WitnessedAbsent(FractalMainLines10, "gggggggg", FragColorAssign);
  }

  lemma FractalMainLines11Certified()
    ensures Absent(Cat(FractalMainLines11), FragColorAssign)
    ensures Cat(FractalMainLines11) != [] && Cat(FractalMainLines11)[0] == '\n'
  {
    WitnessedAbsent(FractalMainLines11, "g=ggggg", FragColorAssign);
  }

  lemma FractalMainHasNoAssign()
    ensures Absent(Cat(FractalMainText), FragColorAssign)
  {
    FractalMainLines1Certified();
    FractalMainLines2Certified();
    FractalMainLines3Certified();
    FractalMainLines4Certified();
    FractalMainLines5Certified();
    FractalMainLines6Certified();
    FractalMainLines7Certified();
    FractalMainLines8Certified();
    FractalMainLines9Certified();
    FractalMainLines10Certified();
    FractalMainLines11Certified();
    var s := FractalMainLines1;
    RunsAbsent(s, FractalMainLines2, FragColorAssign);
    s := s + FractalMainLines2;
    RunsAbsent(s, FractalMainLines3, FragColorAssign);
    s := s + FractalMainLines3;
    RunsAbsent(s, FractalMainLines4, FragColorAssign);
    s := s + FractalMainLines4;
    RunsAbsent(s, FractalMainLines5, FragColorAssign);
    s := s + FractalMainLines5;
    RunsAbsent(s, FractalMainLines6, FragColorAssign);
    s := s + FractalMainLines6;
    RunsAbsent(s, FractalMainLines7, FragColorAssign);
    s := s + FractalMainLines7;
    RunsAbsent(s, FractalMainLines8, FragColorAssign);
    s := s + FractalMainLines8;
    RunsAbsent(s, FractalMainLines9, FragColorAssign);
    s := s + FractalMainLines9;
    RunsAbsent(s, FractalMainLines10, FragColorAssign);
    s := s + FractalMainLines10;
    RunsAbsent(s, FractalMainLines11, FragColorAssign);
    s := s + FractalMainLines11;
  }

  lemma FractalNoiseComposable(a: string, b: string, c: string)
    requires Plain(a) && Plain(b) && Plain(c)
    ensures Composable(FractalNoiseSource(a, b, c))
  {
    FractalRandomHasNoMain();
    FractalNoiseHasNoMain();
    FractalFbmHasNoMain(a, b, c);
    FractalMainHasNoAssign();
    ComposableOf(FractalNoiseSource(a, b, c));
  }

  // ---- geometricPatterns

  lemma GeometricSdCircleHasNoMain()
    ensures Absent(Cat(GeometricSdCircleText), MainSignature)
  {
    WitnessedAbsent(GeometricSdCircleText, ")vvvvv", MainSignature);
  }

  lemma GeometricSdBoxPart1()
    ensures WitnessedRange(GeometricSdBoxText, ")(vivvvvv", MainSignature, 0, 2)
  {
  }

  lemma GeometricSdBoxPart2()
    ensures WitnessedRange(GeometricSdBoxText, ")(vivvvvv", MainSignature, 2, 4)
  {
  }

  lemma GeometricSdBoxPart3()
    ensures WitnessedRange(GeometricSdBoxText, ")(vivvvvv", MainSignature, 4, 7)
  {
  }

  lemma GeometricSdBoxPart4()
    ensures WitnessedRange(GeometricSdBoxText, ")(vivvvvv", MainSignature, 7, 9)
  {
  }

  lemma GeometricSdBoxHasNoMain()
    ensures Absent(Cat(GeometricSdBoxText), MainSignature)
  {
    GeometricSdBoxPart1();
    GeometricSdBoxPart2();
    GeometricSdBoxPart3();
    GeometricSdBoxPart4();
    WitnessedJoin(GeometricSdBoxText, ")(vivvvvv", MainSignature, 0, 2, 4);
    WitnessedJoin(GeometricSdBoxText, ")(vivvvvv", MainSignature, 0, 4, 7);
    WitnessedJoin(GeometricSdBoxText, ")(vivvvvv", MainSignature, 0, 7, 9);
    WitnessedAbsent(GeometricSdBoxText, ")(vivvvvv", MainSignature);
  }

  lemma GeometricSdTriangleLines1Part1()
    ensures WitnessedRange(GeometricSdTriangleLines1, "vmvvvvvv", MainSignature, 0, 4)
  {
  }

  lemma GeometricSdTriangleLines1Part2()
    ensures WitnessedRange(GeometricSdTriangleLines1, "vmvvvvvv", MainSignature, 4, 8)
  {
  }

  lemma GeometricSdTriangleLines1Certified()
    ensures Absent(Cat(GeometricSdTriangleLines1), MainSignature)
  {
    GeometricSdTriangleLines1Part1();
    GeometricSdTriangleLines1Part2();
    WitnessedJoin(GeometricSdTriangleLines1, "vmvvvvvv", MainSignature, 0, 4, 8);
    WitnessedAbsent(GeometricSdTriangleLines1, "vmvvvvvv", MainSignature);
  }

  lemma GeometricSdTriangleLines2Part1()
    ensures WitnessedRange(GeometricSdTriangleLines2, "vvvvavv", MainSignature, 0, 2)
  {
  }

  lemma GeometricSdTriangleLines2Part2()
    ensures WitnessedRange(GeometricSdTriangleLines2, "vvvvavv", MainSignature, 2, 4)
  {
  }

  lemma GeometricSdTriangleLines2Part3()
    ensures WitnessedRange(GeometricSdTriangleLines2, "vvvvavv", MainSignature, 4, 5)
  {
  }

  lemma GeometricSdTriangleLines2Part4()
    ensures WitnessedRange(GeometricSdTriangleLines2, "vvvvavv", MainSignature, 5, 7)
  {
  }

  lemma GeometricSdTriangleLines2Certified()
    ensures Absent(Cat(GeometricSdTriangleLines2), MainSignature)
    ensures Cat(GeometricSdTriangleLines2) != [] && Cat(GeometricSdTriangleLines2)[0] == '\n'
  {
    GeometricSdTriangleLines2Part1();
    GeometricSdTriangleLines2Part2();
    GeometricSdTriangleLines2Part3();
    GeometricSdTriangleLines2Part4();
    WitnessedJoin(GeometricSdTriangleLines2, "vvvvavv", MainSignature, 0, 2, 4);
    WitnessedJoin(GeometricSdTriangleLines2, "vvvvavv", MainSignature, 0, 4, 5);
    WitnessedJoin(GeometricSdTriangleLines2, "vvvvavv", MainSignature, 0, 5, 7);
    WitnessedAbsent(GeometricSdTriangleLines2, "vvvvavv", MainSignature);
  }

  lemma GeometricSdTriangleLines3Part1()
    ensures WitnessedRange(GeometricSdTriangleLines3, "vvvvvvv", MainSignature, 0, 4)
  {
  }

  lemma GeometricSdTriangleLines3Part2()
    ensures WitnessedRange(GeometricSdTriangleLines3, "vvvvvvv", MainSignature, 4, 7)
  {
  }

  lemma GeometricSdTriangleLines3Certified()
    ensures Absent(Cat(GeometricSdTriangleLines3), MainSignature)
    ensures Cat(GeometricSdTriangleLines3) != [] && Cat(GeometricSdTriangleLines3)[0] == '\n'
  {
    GeometricSdTriangleLines3Part1();
    GeometricSdTriangleLines3Part2();
    WitnessedJoin(GeometricSdTriangleLines3, "vvvvvvv", MainSignature, 0, 4, 7);
    WitnessedAbsent(GeometricSdTriangleLines3, "vvvvvvv", MainSignature);
  }

  lemma GeometricSdTriangleHasNoMain()
    ensures Absent(Cat(GeometricSdTriangleText), MainSignature)
  {
    GeometricSdTriangleLines1Certified();
    GeometricSdTriangleLines2Certified();
    GeometricSdTriangleLines3Certified();
    var s := GeometricSdTriangleLines1;
    RunsAbsent(s, GeometricSdTriangleLines2, MainSignature);
    s := s + GeometricSdTriangleLines2;
    RunsAbsent(s, GeometricSdTriangleLines3, MainSignature);
    s := s + GeometricSdTriangleLines3;
  }

  lemma GeometricRotate2dHasNoMain()
    ensures Absent(Cat(GeometricRotate2dText), MainSignature)
  {
    WitnessedAbsent(GeometricRotate2dText, "vvvvvvvv", MainSignature);
  }

  lemma GeometricMainLines1Part1()
    ensures WitnessedRange(GeometricMainLines1, "gg=ggggg", FragColorAssign, 0, 3)
  {
  }

  lemma GeometricMainLines1Part2()
    ensures WitnessedRange(GeometricMainLines1, "gg=ggggg", FragColorAssign, 3, 5)
  {
  }

  lemma GeometricMainLines1Part3()
    ensures WitnessedRange(GeometricMainLines1, "gg=ggggg", FragColorAssign, 5, 8)
  {
  }

  lemma GeometricMainLines1Certified()
    ensures Absent(Cat(GeometricMainLines1), FragColorAssign)
  {
    GeometricMainLines1Part1();
    GeometricMainLines1Part2();
    GeometricMainLines1Part3();
    WitnessedJoin(GeometricMainLines1, "gg=ggggg", FragColorAssign, 0, 3, 5);
    WitnessedJoin(GeometricMainLines1, "gg=ggggg", FragColorAssign, 0, 5, 8);
    WitnessedAbsent(GeometricMainLines1, "gg=ggggg", FragColorAssign);
  }

  lemma GeometricMainLines2Certified()
    ensures Absent(Cat(GeometricMainLines2), FragColorAssign)
    ensures Cat(GeometricMainLines2) != [] && Cat(GeometricMainLines2)[0] == '\n'
  {
    WitnessedAbsent(GeometricMainLines2, "ggggggg", FragColorAssign);
  }

  lemma GeometricMainLines3Certified(numShapes: string)
    requires Plain(numShapes)
    ensures Absent(Cat(GeometricMainLines3(numShapes)), FragColorAssign)
    ensures Cat(GeometricMainLines3(numShapes)) != [] && Cat(GeometricMainLines3(numShapes))[0] == '\n'
  {
    WitnessedAbsent(GeometricMainLines3(numShapes), "gg=gggg", FragColorAssign);
  }

  lemma GeometricMainLines4Part1(numShapes: string)
    requires Plain(numShapes)
    ensures WitnessedRange(GeometricMainLines4(numShapes), "gggggggg", FragColorAssign, 0, 4)
  {
  }

  lemma GeometricMainLines4Part2(numShapes: string)
    requires Plain(numShapes)
    ensures WitnessedRange(GeometricMainLines4(numShapes), "gggggggg", FragColorAssign, 4, 8)
  {
  }

  lemma GeometricMainLines4Certified(numShapes: string)
    requires Plain(numShapes)
    ensures Absent(Cat(GeometricMainLines4(numShapes)), FragColorAssign)
    ensures Cat(GeometricMainLines4(numShapes)) != [] && Cat(GeometricMainLines4(numShapes))[0] == '\n'
  {
    GeometricMainLines4Part1(numShapes);
    GeometricMainLines4Part2(numShapes);
    WitnessedJoin(GeometricMainLines4(numShapes), "gggggggg", FragColorAssign, 0, 4, 8);
    WitnessedAbsent(GeometricMainLines4(numShapes), "gggggggg", FragColorAssign);
  }

  lemma GeometricMainLines5Part1()
    ensures WitnessedRange(GeometricMainLines5, "gggggg", FragColorAssign, 0, 2)
  {
  }

  lemma GeometricMainLines5Part2()
    ensures WitnessedRange(GeometricMainLines5, "gggggg", FragColorAssign, 2, 4)
  {
  }

  lemma GeometricMainLines5Part3()
    ensures WitnessedRange(GeometricMainLines5, "gggggg", FragColorAssign, 4, 6)
  {
  }

  lemma GeometricMainLines5Certified()
    ensures Absent(Cat(GeometricMainLines5), FragColorAssign)
    ensures Cat(GeometricMainLines5) != [] && Cat(GeometricMainLines5)[0] == '\n'
  {
    GeometricMainLines5Part1();
    GeometricMainLines5Part2();
    GeometricMainLines5Part3();
    WitnessedJoin(GeometricMainLines5, "gggggg", FragColorAssign, 0, 2, 4);
    WitnessedJoin(GeometricMainLines5, "gggggg", FragColorAssign, 0, 4, 6);
    WitnessedAbsent(GeometricMainLines5, "gggggg", FragColorAssign);
  }

  lemma GeometricMainLines6Part1(rotationSpeed: string)
    requires Plain(rotationSpeed)
    ensures WitnessedRange(GeometricMainLines6(rotationSpeed), "ggggggggggg", FragColorAssign, 0, 6)
  {
  }

  lemma GeometricMainLines6Part2(rotationSpeed: string)
    requires Plain(rotationSpeed)
    ensures WitnessedRange(GeometricMainLines6(rotationSpeed), "ggggggggggg", FragColorAssign, 6, 11)
  {
  }

  lemma GeometricMainLines6Certified(rotationSpeed: string)
    requires Plain(rotationSpeed)
    ensures Absent(Cat(GeometricMainLines6(rotationSpeed)), FragColorAssign)
    ensures Cat(GeometricMainLines6(rotationSpeed)) != [] && Cat(GeometricMainLines6(rotationSpeed))[0] == '\n'
  {
    GeometricMainLines6Part1(rotationSpeed);
    GeometricMainLines6Part2(rotationSpeed);
    WitnessedJoin(GeometricMainLines6(rotationSpeed), "ggggggggggg", FragColorAssign, 0, 6, 11);
    WitnessedAbsent(GeometricMainLines6(rotationSpeed), "ggggggggggg", FragColorAssign);
  }

  lemma GeometricMainLines7Certified()
    ensures Absent(Cat(GeometricMainLines7), FragColorAssign)
    ensures Cat(GeometricMainLines7) != [] && Cat(GeometricMainLines7)[0] == '\n'
  {
    WitnessedAbsent(GeometricMainLines7, "ggggggg", FragColorAssign);
  }

  lemma GeometricMainLines8Certified()
    ensures Absent(Cat(GeometricMainLines8), FragColorAssign)
    ensures Cat(GeometricMainLines8) != [] && Cat(GeometricMainLines8)[0] == '\n'
  {
    WitnessedAbsent(GeometricMainLines8, "gggggggg", FragColorAssign);
  }

  lemma GeometricMainLines9Part1()
    ensures WitnessedRange(GeometricMainLines9, "gggggggg", FragColorAssign, 0, 4)
  {
  }

  lemma GeometricMainLines9Part2()
    ensures WitnessedRange(GeometricMainLines9, "gggggggg", FragColorAssign, 4, 8)
  {
  }

  lemma GeometricMainLines9Certified()
    ensures Absent(Cat(GeometricMainLines9), FragColorAssign)
    ensures Cat(GeometricMainLines9) != [] && Cat(GeometricMainLines9)[0] == '\n'
  {
    GeometricMainLines9Part1();
    GeometricMainLines9Part2();
    WitnessedJoin(GeometricMainLines9, "gggggggg", FragColorAssign, 0, 4, 8);
    WitnessedAbsent(GeometricMainLines9, "gggggggg", FragColorAssign);
  }

  lemma GeometricMainLines10Part1()
    ensures WitnessedRange(GeometricMainLines10, "ggg=gggg=g", FragColorAssign, 0, 2)
  {
  }

  lemma GeometricMainLines10Part2()
    ensures WitnessedRange(GeometricMainLines10, "ggg=gggg=g", FragColorAssign, 2, 5)
  {
  }

  lemma GeometricMainLines10Part3()
    ensures WitnessedRange(GeometricMainLines10, "ggg=gggg=g", FragColorAssign, 5, 8)
  {
  }

  lemma GeometricMainLines10Part4()
    ensures WitnessedRange(GeometricMainLines10, "ggg=gggg=g", FragColorAssign, 8, 10)
  {
  }

  lemma GeometricMainLines10Certified()
    ensures Absent(Cat(GeometricMainLines10), FragColorAssign)
    ensures Cat(GeometricMainLines10) != [] && Cat(GeometricMainLines10)[0] == '\n'
  {
    GeometricMainLines10Part1();
    GeometricMainLines10Part2();
    GeometricMainLines10Part3();
    GeometricMainLines10Part4();
    WitnessedJoin(GeometricMainLines10, "ggg=gggg=g", FragColorAssign, 0, 2, 5);
    WitnessedJoin(GeometricMainLines10, "ggg=gggg=g", FragColorAssign, 0, 5, 8);
    WitnessedJoin(GeometricMainLines10, "ggg=gggg=g", FragColorAssign, 0, 8, 10);
    WitnessedAbsent(GeometricMainLines10, "ggg=gggg=g", FragColorAssign);
  }

  lemma GeometricMainLines11Certified()
    ensures Absent(Cat(GeometricMainLines11), FragColorAssign)
    ensures Cat(GeometricMainLines11) != [] && Cat(GeometricMainLines11)[0] == '\n'
  {
    WitnessedAbsent(GeometricMainLines11, "gggggggg", FragColorAssign);
  }

  lemma GeometricMainLines12Certified()
    ensures Absent(Cat(GeometricMainLines12), FragColorAssign)
    ensures Cat(GeometricMainLines12) != [] && Cat(GeometricMainLines12)[0] == '\n'
  {
    WitnessedAbsent(GeometricMainLines12, "ggggggg", FragColorAssign);
  }

  lemma GeometricMainLines13Part1()
    ensures WitnessedRange(GeometricMainLines13, "gg=gCCg", FragColorAssign, 0, 2)
  {
  }

  lemma GeometricMainLines13Part2()
    ensures WitnessedRange(GeometricMainLines13, "gg=gCCg", FragColorAssign, 2, 5)
  {
  }

  lemma GeometricMainLines13Part3()
    ensures WitnessedRange(GeometricMainLines13, "gg=gCCg", FragColorAssign, 5, 7)
  {
  }

  lemma GeometricMainLines13Certified()
    ensures Absent(Cat(GeometricMainLines13), FragColorAssign)
    ensures Cat(GeometricMainLines13) != [] && Cat(GeometricMainLines13)[0] == '\n'
  {
    GeometricMainLines13Part1();
    GeometricMainLines13Part2();
    GeometricMainLines13Part3();
    WitnessedJoin(GeometricMainLines13, "gg=gCCg", FragColorAssign, 0, 2, 5);
    WitnessedJoin(GeometricMainLines13, "gg=gCCg", FragColorAssign, 0, 5, 7);
    WitnessedAbsent(GeometricMainLines13, "gg=gCCg", FragColorAssign);
  }

  lemma GeometricMainLines14Certified(colorShift: string)
    requires Plain(colorShift)
    ensures Absent(Cat(GeometricMainLines14(colorShift)), FragColorAssign)
    ensures Cat(GeometricMainLines14(colorShift)) != [] && Cat(GeometricMainLines14(colorShift))[0] == '\n'
  {
    WitnessedAbsent(GeometricMainLines14(colorShift), "gggggggg", FragColorAssign);
  }

  lemma GeometricMainLines15Certified()
    ensures Absent(Cat(GeometricMainLines15), FragColorAssign)
    ensures Cat(GeometricMainLines15) != [] && Cat(GeometricMainLines15)[0] == '\n'
  {
    WitnessedAbsent(GeometricMainLines15, "ggggg", FragColorAssign);
  }

  lemma GeometricMainLines16Part1()
    ensures WitnessedRange(GeometricMainLines16, "gggggggg", FragColorAssign, 0, 4)
  {
  }

  lemma GeometricMainLines16Part2()
    ensures WitnessedRange(GeometricMainLines16, "gggggggg", FragColorAssign, 4, 8)
  {
  }

  lemma GeometricMainLines16Certified()
    ensures Absent(Cat(GeometricMainLines16), FragColorAssign)
    ensures Cat(GeometricMainLines16) != [] && Cat(GeometricMainLines16)[0] == '\n'
  {
    GeometricMainLines16Part1();
    GeometricMainLines16Part2();
    WitnessedJoin(GeometricMainLines16, "gggggggg", FragColorAssign, 0, 4, 8);
    WitnessedAbsent(GeometricMainLines16, "gggggggg", FragColorAssign);
  }

  lemma GeometricMainLines17Certified()
    ensures Absent(Cat(GeometricMainLines17), FragColorAssign)
    ensures Cat(GeometricMainLines17) != [] && Cat(GeometricMainLines17)[0] == '\n'
  {
    WitnessedAbsent(GeometricMainLines17, "ggggggggg", FragColorAssign);
  }

  lemma GeometricMainLines18Part1()
    ensures WitnessedRange(GeometricMainLines18, "gggggg", FragColorAssign, 0, 3)
  {
  }

  lemma GeometricMainLines18Part2()
    ensures WitnessedRange(GeometricMainLines18, "gggggg", FragColorAssign, 3, 6)
  {
  }

  lemma GeometricMainLines18Certified()
    ensures Absent(Cat(GeometricMainLines18), FragColorAssign)
    ensures Cat(GeometricMainLines18) != [] && Cat(GeometricMainLines18)[0] == '\n'
  {
    GeometricMainLines18Part1();
    GeometricMainLines18Part2();
    WitnessedJoin(GeometricMainLines18, "gggggg", FragColorAssign, 0, 3, 6);
    WitnessedAbsent(GeometricMainLines18, "gggggg", FragColorAssign);
  }

  lemma GeometricMainLines19Certified()
    ensures Absent(Cat(GeometricMainLines19), FragColorAssign)
    ensures Cat(GeometricMainLines19) != [] && Cat(GeometricMainLines19)[0] == '\n'
  {
    WitnessedAbsent(GeometricMainLines19, "gggggg=", FragColorAssign);
  }

  lemma GeometricMainLines20Part1()
    ensures WitnessedRange(GeometricMainLines20, "gg=gggggggg", FragColorAssign, 0, 4)
  {
  }

  lemma GeometricMainLines20Part2()
    ensures WitnessedRange(GeometricMainLines20, "gg=gggggggg", FragColorAssign, 4, 7)
  {
  }

  lemma GeometricMainLines20Part3()
    ensures WitnessedRange(GeometricMainLines20, "gg=gggggggg", FragColorAssign, 7, 11)
  {
  }

  lemma GeometricMainLines20Certified()
    ensures Absent(Cat(GeometricMainLines20), FragColorAssign)
    ensures Cat(GeometricMainLines20) != [] && Cat(GeometricMainLines20)[0] == '\n'
  {
    GeometricMainLines20Part1();
    GeometricMainLines20Part2();
    GeometricMainLines20Part3();
    WitnessedJoin(GeometricMainLines20, "gg=gggggggg", FragColorAssign, 0, 4, 7);
    WitnessedJoin(GeometricMainLines20, "gg=gggggggg", FragColorAssign, 0, 7, 11);
    WitnessedAbsent(GeometricMainLines20, "gg=gggggggg", FragColorAssign);
  }

  lemma GeometricMainHasNoAssign(numShapes: string, rotationSpeed: string, colorShift: string)
    requires Plain(numShapes) && Plain(rotationSpeed) && Plain(colorShift)
    ensures Absent(Cat(GeometricMainText(numShapes, rotationSpeed, colorShift)), FragColorAssign)
  {
    GeometricMainLines1Certified();
    GeometricMainLines2Certified();
    GeometricMainLines3Certified(numShapes);
    GeometricMainLines4Certified(numShapes);
    GeometricMainLines5Certified();
    GeometricMainLines6Certified(rotationSpeed);
    GeometricMainLines7Certified();
    GeometricMainLines8Certified();
    GeometricMainLines9Certified();
    GeometricMainLines10Certified();
    GeometricMainLines11Certified();
    GeometricMainLines12Certified();
    GeometricMainLines13Certified();
    GeometricMainLines14Certified(colorShift);
    GeometricMainLines15Certified();
    GeometricMainLines16Certified();
    GeometricMainLines17Certified();
    GeometricMainLines18Certified();
    GeometricMainLines19Certified();
    GeometricMainLines20Certified();
    var s := GeometricMainLines1;
    RunsAbsent(s, GeometricMainLines2, FragColorAssign);
    s := s + GeometricMainLines2;
    RunsAbsent(s, GeometricMainLines3(numShapes), FragColorAssign);
    s := s + GeometricMainLines3(numShapes);
    RunsAbsent(s, GeometricMainLines4(numShapes), FragColorAssign);
    s := s + GeometricMainLines4(numShapes);
    RunsAbsent(s, GeometricMainLines5, FragColorAssign);
    s := s + GeometricMainLines5;
    RunsAbsent(s, GeometricMainLines6(rotationSpeed), FragColorAssign);
    s := s + GeometricMainLines6(rotationSpeed);
    RunsAbsent(s, GeometricMainLines7, FragColorAssign);
    s := s + GeometricMainLines7;
    RunsAbsent(s, GeometricMainLines8, FragColorAssign);
    s := s + GeometricMainLines8;
    RunsAbsent(s, GeometricMainLines9, FragColorAssign);
    s := s + GeometricMainLines9;
    RunsAbsent(s, GeometricMainLines10, FragColorAssign);
    s := s + GeometricMainLines10;
    RunsAbsent(s, GeometricMainLines11, FragColorAssign);
    s := s + GeometricMainLines11;
    RunsAbsent(s, GeometricMainLines12, FragColorAssign);
    s := s + GeometricMainLines12;
    RunsAbsent(s, GeometricMainLines13, FragColorAssign);
    s := s + GeometricMainLines13;
    RunsAbsent(s, GeometricMainLines14(colorShift), FragColorAssign);
    s := s + GeometricMainLines14(colorShift);
    RunsAbsent(s, GeometricMainLines15, FragColorAssign);
    s := s + GeometricMainLines15;
    RunsAbsent(s, GeometricMainLines16, FragColorAssign);
    s := s + GeometricMainLines16;
    RunsAbsent(s, GeometricMainLines17, FragColorAssign);
    s := s + GeometricMainLines17;
    RunsAbsent(s, GeometricMainLines18, FragColorAssign);
    s := s + GeometricMainLines18;
    RunsAbsent(s, GeometricMainLines19, FragColorAssign);
    s := s + GeometricMainLines19;
    RunsAbsent(s, GeometricMainLines20, FragColorAssign);
    s := s + GeometricMainLines20;
  }

  lemma GeometricComposable(a: string, b: string, x: bool)
    requires Plain(a) && Plain(b)
    ensures Composable(GeometricSource(a, b, BoolText(x)))
  {
    GeometricSdCircleHasNoMain();
    GeometricSdBoxHasNoMain();
    GeometricSdTriangleHasNoMain();
    GeometricRotate2dHasNoMain();
    GeometricMainHasNoAssign(a, b, BoolText(x));
    ComposableOf(GeometricSource(a, b, BoolText(x)));
  }

  // ---- fluidSimulation

  lemma FluidHashLines1Part1()
    ensures WitnessedRange(FluidHashLines1, "dvaaav", MainSignature, 0, 3)
  {
  }

  lemma FluidHashLines1Part2()
    ensures WitnessedRange(FluidHashLines1, "dvaaav", MainSignature, 3, 6)
  {
  }

  lemma FluidHashLines1Certified()
    ensures Absent(Cat(FluidHashLines1), MainSignature)
  {
    FluidHashLines1Part1();
    FluidHashLines1Part2();
    WitnessedJoin(FluidHashLines1, "dvaaav", MainSignature, 0, 3, 6);
    WitnessedAbsent(FluidHashLines1, "dvaaav", MainSignature);
  }

  lemma FluidHashLines2Certified()
    ensures Absent(Cat(FluidHashLines2), MainSignature)
    ensures Cat(FluidHashLines2) != [] && Cat(FluidHashLines2)[0] == '\n'
  {
    WitnessedAbsent(FluidHashLines2, "vvvvv", MainSignature);
  }

  lemma FluidHashHasNoMain()
    ensures Absent(Cat(FluidHashText), MainSignature)
  {
    FluidHashLines1Certified();
    FluidHashLines2Certified();
    var s := FluidHashLines1;
    RunsAbsent(s, FluidHashLines2, MainSignature);
    s := s + FluidHashLines2;
  }

  lemma FluidNoiseLines1Certified()
    ensures Absent(Cat(FluidNoiseLines1), MainSignature)
  {
    WitnessedAbsent(FluidNoiseLines1, "vavvvv", MainSignature);
  }

  lemma FluidNoiseLines2Certified()
    ensures Absent(Cat(FluidNoiseLines2), MainSignature)
    ensures Cat(FluidNoiseLines2) != [] && Cat(FluidNoiseLines2)[0] == '\n'
  {
    WitnessedAbsent(FluidNoiseLines2, "vvvvvv)v", MainSignature);
  }

  lemma FluidNoiseLines3Part1()
    ensures WitnessedRange(FluidNoiseLines3, "vddvdda", MainSignature, 0, 2)
  {
  }

  lemma FluidNoiseLines3Part2()
    ensures WitnessedRange(FluidNoiseLines3, "vddvdda", MainSignature, 2, 5)
  {
  }

  lemma FluidNoiseLines3Part3()
    ensures WitnessedRange(FluidNoiseLines3, "vddvdda", MainSignature, 5, 7)
  {
  }

  lemma FluidNoiseLines3Certified()
    ensures Absent(Cat(FluidNoiseLines3), MainSignature)
    ensures Cat(FluidNoiseLines3) != [] && Cat(FluidNoiseLines3)[0] == '\n'
  {
    FluidNoiseLines3Part1();
    FluidNoiseLines3Part2();
    FluidNoiseLines3Part3();
    WitnessedJoin(FluidNoiseLines3, "vddvdda", MainSignature, 0, 2, 5);
    WitnessedJoin(FluidNoiseLines3, "vddvdda", MainSignature, 0, 5, 7);
    WitnessedAbsent(FluidNoiseLines3, "vddvdda", MainSignature);
  }

  lemma FluidNoiseLines4Part1()
    ensures WitnessedRange(FluidNoiseLines4, "v(v((vviiii", MainSignature, 0, 3)
  {
  }

  lemma FluidNoiseLines4Part2()
    ensures WitnessedRange(FluidNoiseLines4, "v(v((vviiii", MainSignature, 3, 6)
  {
  }

  lemma FluidNoiseLines4Part3()
    ensures WitnessedRange(FluidNoiseLines4, "v(v((vviiii", MainSignature, 6, 8)
  {
  }

  lemma FluidNoiseLines4Part4()
    ensures WitnessedRange(FluidNoiseLines4, "v(v((vviiii", MainSignature, 8, 11)
  {
  }

  lemma FluidNoiseLines4Certified()
    ensures Absent(Cat(FluidNoiseLines4), MainSignature)
    ensures Cat(FluidNoiseLines4) != [] && Cat(FluidNoiseLines4)[0] == '\n'
  {
    FluidNoiseLines4Part1();
    FluidNoiseLines4Part2();
    FluidNoiseLines4Part3();
    FluidNoiseLines4Part4();
    WitnessedJoin(FluidNoiseLines4, "v(v((vviiii", MainSignature, 0, 3, 6);
    WitnessedJoin(FluidNoiseLines4, "v(v((vviiii", MainSignature, 0, 6, 8);
    WitnessedJoin(FluidNoiseLines4, "v(v((vviiii", MainSignature, 0, 8, 11);
    WitnessedAbsent(FluidNoiseLines4, "v(v((vviiii", MainSignature);
  }

  lemma FluidNoiseLines5Certified()
    ensures Absent(Cat(FluidNoiseLines5), MainSignature)
    ensures Cat(FluidNoiseLines5) != [] && Cat(FluidNoiseLines5)[0] == '\n'
  {
    WitnessedAbsent(FluidNoiseLines5, "v))vvv", MainSignature);
  }

  lemma FluidNoiseLines6Certified()
    ensures Absent(Cat(FluidNoiseLines6), MainSignature)
    ensures Cat(FluidNoiseLines6) != [] && Cat(FluidNoiseLines6)[0] == '\n'
  {
    WitnessedAbsent(FluidNoiseLines6, "vvvav", MainSignature);
  }

  lemma FluidNoiseHasNoMain()
    ensures Absent(Cat(FluidNoiseText), MainSignature)
  {
    FluidNoiseLines1Certified();
    FluidNoiseLines2Certified();
    FluidNoiseLines3Certified();
    FluidNoiseLines4Certified();
    FluidNoiseLines5Certified();
    FluidNoiseLines6Certified();
    var s := FluidNoiseLines1;
    RunsAbsent(s, FluidNoiseLines2, MainSignature);
    s := s + FluidNoiseLines2;
    RunsAbsent(s, FluidNoiseLines3, MainSignature);
    s := s + FluidNoiseLines3;
    RunsAbsent(s, FluidNoiseLines4, MainSignature);
    s := s + FluidNoiseLines4;
    RunsAbsent(s, FluidNoiseLines5, MainSignature);
    s := s + FluidNoiseLines5;
    RunsAbsent(s, FluidNoiseLines6, MainSignature);
    s := s + FluidNoiseLines6;
  }

  lemma FluidFbmLines1Certified()
    ensures Absent(Cat(FluidFbmLines1), MainSignature)
  {
    WitnessedAbsent(FluidFbmLines1, "dvvvvvv", MainSignature);
  }

  lemma FluidFbmLines2Part1(iterations: string)
    requires Plain(iterations)
    ensures WitnessedRange(FluidFbmLines2(iterations), "vvvvvvvv", MainSignature, 0, 4)
  {
  }

  lemma FluidFbmLines2Part2(iterations: string)
    requires Plain(iterations)
    ensures WitnessedRange(FluidFbmLines2(iterations), "vvvvvvvv", MainSignature, 4, 8)
  {
  }

  lemma FluidFbmLines2Certified(iterations: string)
    requires Plain(iterations)
    ensures Absent(Cat(FluidFbmLines2(iterations)), MainSignature)
    ensures Cat(FluidFbmLines2(iterations)) != [] && Cat(FluidFbmLines2(iterations))[0] == '\n'
  {
    FluidFbmLines2Part1(iterations);
    FluidFbmLines2Part2(iterations);
    WitnessedJoin(FluidFbmLines2(iterations), "vvvvvvvv", MainSignature, 0, 4, 8);
    WitnessedAbsent(FluidFbmLines2(iterations), "vvvvvvvv", MainSignature);
  }

  lemma FluidFbmLines3Certified()
    ensures Absent(Cat(FluidFbmLines3), MainSignature)
    ensures Cat(FluidFbmLines3) != [] && Cat(FluidFbmLines3)[0] == '\n'
  {
    WitnessedAbsent(FluidFbmLines3, "vvvvvvv", MainSignature);
  }

  lemma FluidFbmHasNoMain(iterations: string)
    requires Plain(iterations)
    ensures Absent(Cat(FluidFbmText(iterations)), MainSignature)
  {
    FluidFbmLines1Certified();
    FluidFbmLines2Certified(iterations);
    FluidFbmLines3Certified();
    var s := FluidFbmLines1;
    RunsAbsent(s, FluidFbmLines2(iterations), MainSignature);
    s := s + FluidFbmLines2(iterations);
    RunsAbsent(s, FluidFbmLines3, MainSignature);
    s := s + FluidFbmLines3;
  }

  lemma FluidMainLines1Certified(speed: string)
    requires Plain(speed)
    ensures Absent(Cat(FluidMainLines1(speed)), FragColorAssign)
  {
    WitnessedAbsent(FluidMainLines1(speed), "gg=ggggg", FragColorAssign);
  }

  lemma FluidMainLines1Braceless(speed: string)
    requires Plain(speed)
    ensures '}' !in Cat(FluidMainLines1(speed))
  {
    CatAvoids(FluidMainLines1(speed), '}');
  }

  lemma FluidMainLines2Part1(scale: string)
    requires Plain(scale)
    ensures WitnessedRange(FluidMainLines2(scale), "ggggggggggg", FragColorAssign, 0, 3)
  {
  }

  lemma FluidMainLines2Part2(scale: string)
    requires Plain(scale)
    ensures WitnessedRange(FluidMainLines2(scale), "ggggggggggg", FragColorAssign, 3, 6)
  {
  }

  lemma FluidMainLines2Part3(scale: string)
    requires Plain(scale)
    ensures WitnessedRange(FluidMainLines2(scale), "ggggggggggg", FragColorAssign, 6, 8)
  {
  }

  lemma FluidMainLines2Part4(scale: string)
    requires Plain(scale)
    ensures WitnessedRange(FluidMainLines2(scale), "ggggggggggg", FragColorAssign, 8, 11)
  {
  }

  lemma FluidMainLines2Certified(scale: string)
    requires Plain(scale)
    ensures Absent(Cat(FluidMainLines2(scale)), FragColorAssign)
    ensures Cat(FluidMainLines2(scale)) != [] && Cat(FluidMainLines2(scale))[0] == '\n'
  {
    FluidMainLines2Part1(scale);
    FluidMainLines2Part2(scale);
    FluidMainLines2Part3(scale);
    FluidMainLines2Part4(scale);
    WitnessedJoin(FluidMainLines2(scale), "ggggggggggg", FragColorAssign, 0, 3, 6);
    WitnessedJoin(FluidMainLines2(scale), "ggggggggggg", FragColorAssign, 0, 6, 8);
    WitnessedJoin(FluidMainLines2(scale), "ggggggggggg", FragColorAssign, 0, 8, 11);
    WitnessedAbsent(FluidMainLines2(scale), "ggggggggggg", FragColorAssign);
  }

  lemma FluidMainLines2Braceless(scale: string)
    requires Plain(scale)
    ensures '}' !in Cat(FluidMainLines2(scale))
  {
    CatAvoids(FluidMainLines2(scale), '}');
  }

  lemma FluidMainLines3Certified(scale: string)
    requires Plain(scale)
    ensures Absent(Cat(FluidMainLines3(scale)), FragColorAssign)
    ensures Cat(FluidMainLines3(scale)) != [] && Cat(FluidMainLines3(scale))[0] == '\n'
  {
    WitnessedAbsent(FluidMainLines3(scale), "gggggg", FragColorAssign);
  }

  lemma FluidMainLines3Braceless(scale: string)
    requires Plain(scale)
    ensures '}' !in Cat(FluidMainLines3(scale))
  {
    CatAvoids(FluidMainLines3(scale), '}');
  }

  lemma FluidMainLines4Part1()
    ensures WitnessedRange(FluidMainLines4, "gggggggg", FragColorAssign, 0, 4)
  {
  }

  lemma FluidMainLines4Part2()
    ensures WitnessedRange(FluidMainLines4, "gggggggg", FragColorAssign, 4, 8)
  {
  }

  lemma FluidMainLines4Certified()
    ensures Absent(Cat(FluidMainLines4), FragColorAssign)
    ensures Cat(FluidMainLines4) != [] && Cat(FluidMainLines4)[0] == '\n'
  {
    FluidMainLines4Part1();
    FluidMainLines4Part2();
    WitnessedJoin(FluidMainLines4, "gggggggg", FragColorAssign, 0, 4, 8);
    WitnessedAbsent(FluidMainLines4, "gggggggg", FragColorAssign);
  }

  lemma FluidMainLines4Braceless()
    ensures '}' !in Cat(FluidMainLines4)
  {
    CatAvoids(FluidMainLines4, '}');
  }

  lemma FluidMainLines5Part1()
    ensures WitnessedRange(FluidMainLines5, "gggggggg", FragColorAssign, 0, 3)
  {
  }

  lemma FluidMainLines5Part2()
    ensures WitnessedRange(FluidMainLines5, "gggggggg", FragColorAssign, 3, 5)
  {
  }

  lemma FluidMainLines5Part3()
    ensures WitnessedRange(FluidMainLines5, "gggggggg", FragColorAssign, 5, 8)
  {
  }

  lemma FluidMainLines5Certified()
    ensures Absent(Cat(FluidMainLines5), FragColorAssign)
    ensures Cat(FluidMainLines5) != [] && Cat(FluidMainLines5)[0] == '\n'
  {
    FluidMainLines5Part1();
    FluidMainLines5Part2();
    FluidMainLines5Part3();
    WitnessedJoin(FluidMainLines5, "gggggggg", FragColorAssign, 0, 3, 5);
    WitnessedJoin(FluidMainLines5, "gggggggg", FragColorAssign, 0, 5, 8);
    WitnessedAbsent(FluidMainLines5, "gggggggg", FragColorAssign);
  }

  lemma FluidMainLines5Braceless()
    ensures '}' !in Cat(FluidMainLines5)
  {
    CatAvoids(FluidMainLines5, '}');
  }

  lemma FluidMainLines6Certified()
    ensures Absent(Cat(FluidMainLines6), FragColorAssign)
    ensures Cat(FluidMainLines6) != [] && Cat(FluidMainLines6)[0] == '\n'
  {
    WitnessedAbsent(FluidMainLines6, "gggggg", FragColorAssign);
  }

  lemma FluidMainLines6Braceless()
    ensures '}' !in Cat(FluidMainLines6)
  {
    CatAvoids(FluidMainLines6, '}');
  }

  lemma FluidMainLines7Part1()
    ensures WitnessedRange(FluidMainLines7, "ggggggggg", FragColorAssign, 0, 3)
  {
  }

  lemma FluidMainLines7Part2()
    ensures WitnessedRange(FluidMainLines7, "ggggggggg", FragColorAssign, 3, 6)
  {
  }

  lemma FluidMainLines7Part3()
    ensures WitnessedRange(FluidMainLines7, "ggggggggg", FragColorAssign, 6, 9)
  {
  }

  lemma FluidMainLines7Certified()
    ensures Absent(Cat(FluidMainLines7), FragColorAssign)
    ensures Cat(FluidMainLines7) != [] && Cat(FluidMainLines7)[0] == '\n'
  {
    FluidMainLines7Part1();
    FluidMainLines7Part2();
    FluidMainLines7Part3();
    WitnessedJoin(FluidMainLines7, "ggggggggg", FragColorAssign, 0, 3, 6);
    WitnessedJoin(FluidMainLines7, "ggggggggg", FragColorAssign, 0, 6, 9);
    WitnessedAbsent(FluidMainLines7, "ggggggggg", FragColorAssign);
  }

  lemma FluidMainLines7Braceless()
    ensures '}' !in Cat(FluidMainLines7)
  {
    CatAvoids(FluidMainLines7, '}');
  }

  lemma FluidMainLines8Part1()
    ensures WitnessedRange(FluidMainLines8, "ggggggg", FragColorAssign, 0, 4)
  {
  }

  lemma FluidMainLines8Part2()
    ensures WitnessedRange(FluidMainLines8, "ggggggg", FragColorAssign, 4, 7)
  {
  }

  lemma FluidMainLines8Certified()
    ensures Absent(Cat(FluidMainLines8), FragColorAssign)
    ensures Cat(FluidMainLines8) != [] && Cat(FluidMainLines8)[0] == '\n'
  {
    FluidMainLines8Part1();
    FluidMainLines8Part2();
    WitnessedJoin(FluidMainLines8, "ggggggg", FragColorAssign, 0, 4, 7);
    WitnessedAbsent(FluidMainLines8, "ggggggg", FragColorAssign);
  }

  lemma FluidMainLines8Braceless()
    ensures '}' !in Cat(FluidMainLines8)
  {
    CatAvoids(FluidMainLines8, '}');
  }

  lemma FluidMainLines9Part1()
    ensures WitnessedRange(FluidMainLines9, "ggg=gggg", FragColorAssign, 0, 3)
  {
  }

  lemma FluidMainLines9Part2()
    ensures WitnessedRange(FluidMainLines9, "ggg=gggg", FragColorAssign, 3, 5)
  {
  }

  lemma FluidMainLines9Part3()
    ensures WitnessedRange(FluidMainLines9, "ggg=gggg", FragColorAssign, 5, 8)
  {
  }

  lemma FluidMainLines9Certified()
    ensures Absent(Cat(FluidMainLines9), FragColorAssign)
    ensures Cat(FluidMainLines9) != [] && Cat(FluidMainLines9)[0] == '\n'
  {
    FluidMainLines9Part1();
    FluidMainLines9Part2();
    FluidMainLines9Part3();
    WitnessedJoin(FluidMainLines9, "ggg=gggg", FragColorAssign, 0, 3, 5);
    WitnessedJoin(FluidMainLines9, "ggg=gggg", FragColorAssign, 0, 5, 8);
    WitnessedAbsent(FluidMainLines9, "ggg=gggg", FragColorAssign);
  }

  lemma FluidMainLines9Braceless()
    ensures '}' !in Cat(FluidMainLines9)
  {
    CatAvoids(FluidMainLines9, '}');
  }

  lemma FluidMainLines10Certified()
    ensures Absent(Cat(FluidMainLines10), FragColorAssign)
    ensures Cat(FluidMainLines10) != [] && Cat(FluidMainLines10)[0] == '\n'
  {
    WitnessedAbsent(FluidMainLines10, "ggggg", FragColorAssign);
  }

  lemma FluidMainLines10Braceless()
    ensures '}' !in Cat(FluidMainLines10)
  {
    CatAvoids(FluidMainLines10, '}');
  }

  lemma FluidMainHasNoAssign(scale: string, speed: string)
    requires Plain(scale) && Plain(speed)
    ensures Absent(Cat(FluidMainText(scale, speed)), FragColorAssign)
    ensures '}' !in Cat(FluidMainText(scale, speed))
  {
    FluidMainLines1Certified(speed);
    FluidMainLines1Braceless(speed);
    FluidMainLines2Certified(scale);
    FluidMainLines2Braceless(scale);
    FluidMainLines3Certified(scale);
    FluidMainLines3Braceless(scale);
    FluidMainLines4Certified();
    FluidMainLines4Braceless();
    FluidMainLines5Certified();
    FluidMainLines5Braceless();
    FluidMainLines6Certified();
    FluidMainLines6Braceless();
    FluidMainLines7Certified();
    FluidMainLines7Braceless();
    FluidMainLines8Certified();
    FluidMainLines8Braceless();
    FluidMainLines9Certified();
    FluidMainLines9Braceless();
    FluidMainLines10Certified();
    FluidMainLines10Braceless();
    var s := FluidMainLines1(speed);
    RunsAbsent(s, FluidMainLines2(scale), FragColorAssign);
    CatAppend(s, FluidMainLines2(scale));
    s := s + FluidMainLines2(scale);
    RunsAbsent(s, FluidMainLines3(scale), FragColorAssign);
    CatAppend(s, FluidMainLines3(scale));
    s := s + FluidMainLines3(scale);
    RunsAbsent(s, FluidMainLines4, FragColorAssign);
    CatAppend(s, FluidMainLines4);
    s := s + FluidMainLines4;
    RunsAbsent(s, FluidMainLines5, FragColorAssign);
    CatAppend(s, FluidMainLines5);
    s := s + FluidMainLines5;
    RunsAbsent(s, FluidMainLines6, FragColorAssign);
    CatAppend(s, FluidMainLines6);
    s := s + FluidMainLines6;
    RunsAbsent(s, FluidMainLines7, FragColorAssign);
    CatAppend(s, FluidMainLines7);
    s := s + FluidMainLines7;
    RunsAbsent(s, FluidMainLines8, FragColorAssign);
    CatAppend(s, FluidMainLines8);
    s := s + FluidMainLines8;
    RunsAbsent(s, FluidMainLines9, FragColorAssign);
    CatAppend(s, FluidMainLines9);
    s := s + FluidMainLines9;
    RunsAbsent(s, FluidMainLines10, FragColorAssign);
    CatAppend(s, FluidMainLines10);
    s := s + FluidMainLines10;
  }

  lemma FluidComposable(a: string, b: string, c: string, closed: bool)
    requires Plain(a) && Plain(b) && Plain(c)
    ensures Composable(FluidSource(a, b, c, closed))
  {
    FluidHashHasNoMain();
    FluidNoiseHasNoMain();
    FluidFbmHasNoMain(c);
    FluidMainHasNoAssign(a, b);
    ComposableOf(FluidSource(a, b, c, closed));
  }

  // ---- the drawn templates

  lemma PlasmaDrawn(rng: nat -> real, at: nat)
    requires Tape(rng)
    ensures Plasma(rng, at).closed && Composable(Plasma(rng, at))
  {
    assert Unit(rng(at)) && Unit(rng(at + 1));
    NumeralPlain(Fixed(rng(at), 0.005, 0.001, 4));
    NumeralPlain(Fixed(rng(at + 1), 10.0, 5.0, 1));
    PlasmaComposable(Fixed(rng(at), 0.005, 0.001, 4), Fixed(rng(at + 1), 10.0, 5.0, 1));
  }

  lemma NoiseDrawn(rng: nat -> real, at: nat)
    requires Tape(rng)
    ensures Noise(rng, at).closed && Composable(Noise(rng, at))
  {
    assert Unit(rng(at)) && Unit(rng(at + 1));
    NumeralPlain(Fixed(rng(at), 10.0, 5.0, 1));
    NumeralPlain(Fixed(rng(at + 1), 0.001, 0.0005, 4));
    NoiseComposable(Fixed(rng(at), 10.0, 5.0, 1), Fixed(rng(at + 1), 0.001, 0.0005, 4));
  }

  lemma RaysDrawn(rng: nat -> real, at: nat)
    requires Tape(rng)
    ensures Rays(rng, at).closed && Composable(Rays(rng, at))
  {
    assert Unit(rng(at)) && Unit(rng(at + 1));
    DigitsPlain(LoopBound(NumRays(rng(at))));
    NumeralPlain(Fixed(rng(at + 1), 0.5, 0.1, 2));
    RaysComposable(LoopBound(NumRays(rng(at))), Fixed(rng(at + 1), 0.5, 0.1, 2));
  }

  lemma TunnelDrawn(rng: nat -> real, at: nat)
    requires Tape(rng)
    ensures Tunnel(rng, at).closed && Composable(Tunnel(rng, at))
  {
    assert Unit(rng(at)) && Unit(rng(at + 1));
    NumeralPlain(Fixed(rng(at), 5.0, 3.0, 1));
    NumeralPlain(Fixed(rng(at + 1), 0.003, 0.001, 4));
    TunnelComposable(Fixed(rng(at), 5.0, 3.0, 1), Fixed(rng(at + 1), 0.003, 0.001, 4));
  }

  lemma FractalNoiseDrawn(rng: nat -> real, at: nat)
    requires Tape(rng)
    ensures FractalNoise(rng, at).closed && Composable(FractalNoise(rng, at))
  {
    assert Unit(rng(at)) && Unit(rng(at + 1)) && Unit(rng(at + 2));
    DigitsPlain(LoopBound(Octaves(rng(at))));
    NumeralPlain(Fixed(rng(at + 1), 1.5, 1.5, 2));
    NumeralPlain(Fixed(rng(at + 2), 0.3, 0.5, 2));
    FractalNoiseComposable(LoopBound(Octaves(rng(at))), Fixed(rng(at + 1), 1.5, 1.5, 2), Fixed(rng(at + 2), 0.3, 0.5, 2));
  }

  lemma GeometricDrawn(rng: nat -> real, at: nat)
    requires Tape(rng)
    ensures GeometricPatterns(rng, at).closed && Composable(GeometricPatterns(rng, at))
  {
    assert Unit(rng(at)) && Unit(rng(at + 1));
    DigitsPlain(LoopBound(NumShapes(rng(at))));
    NumeralPlain(Fixed(rng(at + 1), 0.002, 0.001, 4));
    GeometricComposable(LoopBound(NumShapes(rng(at))), Fixed(rng(at + 1), 0.002, 0.001, 4), rng(at + 2) > 0.5);
  }

  lemma FluidDrawn(rng: nat -> real, at: nat)
    requires Tape(rng)
    ensures FluidSimulation(rng, at).closed && Composable(FluidSimulation(rng, at))
  {
    assert Unit(rng(at)) && Unit(rng(at + 1)) && Unit(rng(at + 2));
    NumeralPlain(Fixed(rng(at), 3.0, 2.0, 1));
    NumeralPlain(Fixed(rng(at + 1), 0.005, 0.001, 4));
    DigitsPlain(LoopBound(Iterations(rng(at + 2))));
    FluidComposable(Fixed(rng(at), 3.0, 2.0, 1), Fixed(rng(at + 1), 0.005, 0.001, 4), LoopBound(Iterations(rng(at + 2))), true);
  }

  /** The as-written template, whose `main` is never closed, meets the same conditions. */
  lemma FluidAsWrittenDrawn(rng: nat -> real, at: nat)
    requires Tape(rng)
    ensures !FluidSimulationAsWritten(rng, at).closed && Composable(FluidSimulationAsWritten(rng, at))
  {
    assert Unit(rng(at)) && Unit(rng(at + 1)) && Unit(rng(at + 2));
    NumeralPlain(Fixed(rng(at), 3.0, 2.0, 1));
    NumeralPlain(Fixed(rng(at + 1), 0.005, 0.001, 4));
    DigitsPlain(LoopBound(Iterations(rng(at + 2))));
    FluidComposable(Fixed(rng(at), 3.0, 2.0, 1), Fixed(rng(at + 1), 0.005, 0.001, 4), LoopBound(Iterations(rng(at + 2))), false);
  }
}
