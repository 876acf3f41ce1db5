/**
 * No helper function of the seven templates `mixedPattern` picks from holds
 * one of the three header lines, so once the header is removed from a
 * template's declarations, none of its lines is left. Each header line
 * opens with `precision` or `uniform`, and the certificates show that
 * neither word occurs (see `Composer.Witnessed`).
 */
module HeaderFreedom {
  import opened JsString
  import opened Patterns
  import opened Composer
  import opened Composability

  /** The word that opens `uniform float time;` and `uniform vec2 resolution;`. */
  const UniformWord := "uniform"

  /** The word that opens `precision mediump float;`. */
  const PrecisionWord := "precision"

  /** Wherever a line occurs, so does its first word. */
  lemma WordOpensLine(s: string, word: string, line: string)
    requires |word| <= |line| && line[..|word|] == word
    ensures forall k :: OccursAt(s, line, k) ==> OccursAt(s, word, k)
  {
    forall k | OccursAt(s, line, k) ensures OccursAt(s, word, k) {
      assert s[k..k + |line|][..|word|] == s[k..k + |word|];
    }
  }

  /** A text without a line's first word does not hold the line. */
  lemma WordAbsent(s: string, word: string, line: string)
    requires Absent(s, word) && |word| <= |line| && line[..|word|] == word
    ensures Absent(s, line)
  {
    WordOpensLine(s, word, line);
  }

  /** Helper functions without either word leave no header line in a template's declarations. */
  lemma HeaderFreeOf(p: PatternSource)
    requires forall i :: 0 <= i < |p.funcs| ==> Absent(Cat(p.funcs[i]), UniformWord) && Absent(Cat(p.funcs[i]), PrecisionWord)
    ensures HeaderFree(p)
  {
    var j := Join(p.funcs, Newline(p));
    JoinAbsent(p.funcs, Newline(p), UniformWord);
    JoinAbsent(p.funcs, Newline(p), PrecisionWord);
    WordAbsent(j, PrecisionWord, PrecisionLine);
    WordAbsent(j, UniformWord, TimeUniform);
    WordAbsent(j, UniformWord, ResolutionUniform);
  }

  lemma TunnelRot2Lines1UniformPart1()
    ensures WitnessedRange(TunnelRot2Lines1, "uuuuu", UniformWord, 0, 2)
  {
  }

  lemma TunnelRot2Lines1UniformPart2()
    ensures WitnessedRange(TunnelRot2Lines1, "uuuuu", UniformWord, 2, 5)
  {
  }

  lemma TunnelRot2Lines1PrecisionPart1()
    ensures WitnessedRange(TunnelRot2Lines1, "ppppp", PrecisionWord, 0, 2)
  {
  }

  lemma TunnelRot2Lines1PrecisionPart2()
    ensures WitnessedRange(TunnelRot2Lines1, "ppppp", PrecisionWord, 2, 5)
  {
  }

  lemma TunnelRot2Lines1NoHeaderWord()
    ensures Absent(Cat(TunnelRot2Lines1), UniformWord) && Absent(Cat(TunnelRot2Lines1), PrecisionWord)
  {
    TunnelRot2Lines1UniformPart1();
    TunnelRot2Lines1UniformPart2();
    WitnessedJoin(TunnelRot2Lines1, "uuuuu", UniformWord, 0, 2, 5);
    WitnessedAbsent(TunnelRot2Lines1, "uuuuu", UniformWord);
    TunnelRot2Lines1PrecisionPart1();
    TunnelRot2Lines1PrecisionPart2();
    WitnessedJoin(TunnelRot2Lines1, "ppppp", PrecisionWord, 0, 2, 5);
    WitnessedAbsent(TunnelRot2Lines1, "ppppp", PrecisionWord);
  }

  lemma TunnelRot2Lines2UniformPart1()
    ensures WitnessedRange(TunnelRot2Lines2, "uiiu", UniformWord, 0, 2)
  {
  }

  lemma TunnelRot2Lines2UniformPart2()
    ensures WitnessedRange(TunnelRot2Lines2, "uiiu", UniformWord, 2, 4)
  {
  }

  lemma TunnelRot2Lines2PrecisionPart1()
    ensures WitnessedRange(TunnelRot2Lines2, "pppp", PrecisionWord, 0, 2)
  {
  }

  lemma TunnelRot2Lines2PrecisionPart2()
    ensures WitnessedRange(TunnelRot2Lines2, "pppp", PrecisionWord, 2, 4)
  {
  }

  lemma TunnelRot2Lines2NoHeaderWord()
    ensures Absent(Cat(TunnelRot2Lines2), UniformWord) && Absent(Cat(TunnelRot2Lines2), PrecisionWord)
    ensures Cat(TunnelRot2Lines2) != [] && Cat(TunnelRot2Lines2)[0] == '\n'
  {
    TunnelRot2Lines2UniformPart1();
    TunnelRot2Lines2UniformPart2();
    WitnessedJoin(TunnelRot2Lines2, "uiiu", UniformWord, 0, 2, 4);
    WitnessedAbsent(TunnelRot2Lines2, "uiiu", UniformWord);
    TunnelRot2Lines2PrecisionPart1();
    TunnelRot2Lines2PrecisionPart2();
    WitnessedJoin(TunnelRot2Lines2, "pppp", PrecisionWord, 0, 2, 4);
    WitnessedAbsent(TunnelRot2Lines2, "pppp", PrecisionWord);
  }

  lemma TunnelRot2HasNoHeaderWord()
    ensures Absent(Cat(TunnelRot2Text), UniformWord) && Absent(Cat(TunnelRot2Text), PrecisionWord)
  {
    TunnelRot2Lines1NoHeaderWord();
    TunnelRot2Lines2NoHeaderWord();
    var s := TunnelRot2Lines1;
    RunsAbsent(s, TunnelRot2Lines2, UniformWord);
    RunsAbsent(s, TunnelRot2Lines2, PrecisionWord);
    s := s + TunnelRot2Lines2;
  }

  lemma NoiseHashLines1UniformPart1()
    ensures WitnessedRange(NoiseHashLines1, "uruuuuu", UniformWord, 0, 2)
  {
  }

  lemma NoiseHashLines1UniformPart2()
    ensures WitnessedRange(NoiseHashLines1, "uruuuuu", UniformWord, 2, 5)
  {
  }

  lemma NoiseHashLines1UniformPart3()
    ensures WitnessedRange(NoiseHashLines1, "uruuuuu", UniformWord, 5, 7)
  {
  }

  lemma NoiseHashLines1PrecisionPart1()
    ensures WitnessedRange(NoiseHashLines1, "prprpip", PrecisionWord, 0, 2)
  {
  }

  lemma NoiseHashLines1PrecisionPart2()
    ensures WitnessedRange(NoiseHashLines1, "prprpip", PrecisionWord, 2, 5)
  {
  }

  lemma NoiseHashLines1PrecisionPart3()
    ensures WitnessedRange(NoiseHashLines1, "prprpip", PrecisionWord, 5, 7)
  {
  }

  lemma NoiseHashLines1NoHeaderWord()
    ensures Absent(Cat(NoiseHashLines1), UniformWord) && Absent(Cat(NoiseHashLines1), PrecisionWord)
  {
    NoiseHashLines1UniformPart1();
    NoiseHashLines1UniformPart2();
    NoiseHashLines1UniformPart3();
    WitnessedJoin(NoiseHashLines1, "uruuuuu", UniformWord, 0, 2, 5);
    WitnessedJoin(NoiseHashLines1, "uruuuuu", UniformWord, 0, 5, 7);
    WitnessedAbsent(NoiseHashLines1, "uruuuuu", UniformWord);
    NoiseHashLines1PrecisionPart1();
    NoiseHashLines1PrecisionPart2();
    NoiseHashLines1PrecisionPart3();
    WitnessedJoin(NoiseHashLines1, "prprpip", PrecisionWord, 0, 2, 5);
    WitnessedJoin(NoiseHashLines1, "prprpip", PrecisionWord, 0, 5, 7);
    WitnessedAbsent(NoiseHashLines1, "prprpip", PrecisionWord);
  }

  lemma NoiseHashLines2UniformPart1()
    ensures WitnessedRange(NoiseHashLines2, "uuuuiiu", UniformWord, 0, 2)
  {
  }

  lemma NoiseHashLines2UniformPart2()
    ensures WitnessedRange(NoiseHashLines2, "uuuuiiu", UniformWord, 2, 5)
  {
  }

  lemma NoiseHashLines2UniformPart3()
    ensures WitnessedRange(NoiseHashLines2, "uuuuiiu", UniformWord, 5, 7)
  {
  }

  lemma NoiseHashLines2PrecisionPart1()
    ensures WitnessedRange(NoiseHashLines2, "prrppep", PrecisionWord, 0, 2)
  {
  }

  lemma NoiseHashLines2PrecisionPart2()
    ensures WitnessedRange(NoiseHashLines2, "prrppep", PrecisionWord, 2, 5)
  {
  }

  lemma NoiseHashLines2PrecisionPart3()
    ensures WitnessedRange(NoiseHashLines2, "prrppep", PrecisionWord, 5, 7)
  {
  }

  lemma NoiseHashLines2NoHeaderWord()
    ensures Absent(Cat(NoiseHashLines2), UniformWord) && Absent(Cat(NoiseHashLines2), PrecisionWord)
    ensures Cat(NoiseHashLines2) != [] && Cat(NoiseHashLines2)[0] == '\n'
  {
    NoiseHashLines2UniformPart1();
    NoiseHashLines2UniformPart2();
    NoiseHashLines2UniformPart3();
    WitnessedJoin(NoiseHashLines2, "uuuuiiu", UniformWord, 0, 2, 5);
    WitnessedJoin(NoiseHashLines2, "uuuuiiu", UniformWord, 0, 5, 7);
    WitnessedAbsent(NoiseHashLines2, "uuuuiiu", UniformWord);
    NoiseHashLines2PrecisionPart1();
    NoiseHashLines2PrecisionPart2();
    NoiseHashLines2PrecisionPart3();
    WitnessedJoin(NoiseHashLines2, "prrppep", PrecisionWord, 0, 2, 5);
    WitnessedJoin(NoiseHashLines2, "prrppep", PrecisionWord, 0, 5, 7);
    WitnessedAbsent(NoiseHashLines2, "prrppep", PrecisionWord);
  }

  lemma NoiseHashHasNoHeaderWord()
    ensures Absent(Cat(NoiseHashText), UniformWord) && Absent(Cat(NoiseHashText), PrecisionWord)
  {
    NoiseHashLines1NoHeaderWord();
    NoiseHashLines2NoHeaderWord();
    var s := NoiseHashLines1;
    RunsAbsent(s, NoiseHashLines2, UniformWord);
    RunsAbsent(s, NoiseHashLines2, PrecisionWord);
    s := s + NoiseHashLines2;
  }

  lemma NoiseNoiseLines1UniformPart1()
    ensures WitnessedRange(NoiseNoiseLines1, "uuuuuuuu", UniformWord, 0, 3)
  {
  }

  lemma NoiseNoiseLines1UniformPart2()
    ensures WitnessedRange(NoiseNoiseLines1, "uuuuuuuu", UniformWord, 3, 5)
  {
  }

  lemma NoiseNoiseLines1UniformPart3()
    ensures WitnessedRange(NoiseNoiseLines1, "uuuuuuuu", UniformWord, 5, 8)
  {
  }

  lemma NoiseNoiseLines1PrecisionPart1()
    ensures WitnessedRange(NoiseNoiseLines1, "ppprpspi", PrecisionWord, 0, 3)
  {
  }

  lemma NoiseNoiseLines1PrecisionPart2()
    ensures WitnessedRange(NoiseNoiseLines1, "ppprpspi", PrecisionWord, 3, 5)
  {
  }

  lemma NoiseNoiseLines1PrecisionPart3()
    ensures WitnessedRange(NoiseNoiseLines1, "ppprpspi", PrecisionWord, 5, 8)
  {
  }

  lemma NoiseNoiseLines1NoHeaderWord()
    ensures Absent(Cat(NoiseNoiseLines1), UniformWord) && Absent(Cat(NoiseNoiseLines1), PrecisionWord)
  {
    NoiseNoiseLines1UniformPart1();
    NoiseNoiseLines1UniformPart2();
    NoiseNoiseLines1UniformPart3();
    WitnessedJoin(NoiseNoiseLines1, "uuuuuuuu", UniformWord, 0, 3, 5);
    WitnessedJoin(NoiseNoiseLines1, "uuuuuuuu", UniformWord, 0, 5, 8);
    WitnessedAbsent(NoiseNoiseLines1, "uuuuuuuu", UniformWord);
    NoiseNoiseLines1PrecisionPart1();
    NoiseNoiseLines1PrecisionPart2();
    NoiseNoiseLines1PrecisionPart3();
    WitnessedJoin(NoiseNoiseLines1, "ppprpspi", PrecisionWord, 0, 3, 5);
    WitnessedJoin(NoiseNoiseLines1, "ppprpspi", PrecisionWord, 0, 5, 8);
    WitnessedAbsent(NoiseNoiseLines1, "ppprpspi", PrecisionWord);
  }

  lemma NoiseNoiseLines2UniformPart1()
    ensures WitnessedRange(NoiseNoiseLines2, "uuuuuu", UniformWord, 0, 3)
  {
  }

  lemma NoiseNoiseLines2UniformPart2()
    ensures WitnessedRange(NoiseNoiseLines2, "uuuuuu", UniformWord, 3, 6)
  {
  }

  lemma NoiseNoiseLines2PrecisionPart1()
    ensures WitnessedRange(NoiseNoiseLines2, "pppppp", PrecisionWord, 0, 3)
  {
  }

  lemma NoiseNoiseLines2PrecisionPart2()
    ensures WitnessedRange(NoiseNoiseLines2, "pppppp", PrecisionWord, 3, 6)
  {
  }

  lemma NoiseNoiseLines2NoHeaderWord()
    ensures Absent(Cat(NoiseNoiseLines2), UniformWord) && Absent(Cat(NoiseNoiseLines2), PrecisionWord)
    ensures Cat(NoiseNoiseLines2) != [] && Cat(NoiseNoiseLines2)[0] == '\n'
  {
    NoiseNoiseLines2UniformPart1();
    NoiseNoiseLines2UniformPart2();
    WitnessedJoin(NoiseNoiseLines2, "uuuuuu", UniformWord, 0, 3, 6);
    WitnessedAbsent(NoiseNoiseLines2, "uuuuuu", UniformWord);
    NoiseNoiseLines2PrecisionPart1();
    NoiseNoiseLines2PrecisionPart2();
    WitnessedJoin(NoiseNoiseLines2, "pppppp", PrecisionWord, 0, 3, 6);
    WitnessedAbsent(NoiseNoiseLines2, "pppppp", PrecisionWord);
  }

  lemma NoiseNoiseLines3UniformPart1()
    ensures WitnessedRange(NoiseNoiseLines3, "uuuuuu", UniformWord, 0, 3)
  {
  }

  lemma NoiseNoiseLines3UniformPart2()
    ensures WitnessedRange(NoiseNoiseLines3, "uuuuuu", UniformWord, 3, 6)
  {
  }

  lemma NoiseNoiseLines3PrecisionPart1()
    ensures WitnessedRange(NoiseNoiseLines3, "pppppp", PrecisionWord, 0, 3)
  {
  }

  lemma NoiseNoiseLines3PrecisionPart2()
    ensures WitnessedRange(NoiseNoiseLines3, "pppppp", PrecisionWord, 3, 6)
  {
  }

  lemma NoiseNoiseLines3NoHeaderWord()
    ensures Absent(Cat(NoiseNoiseLines3), UniformWord) && Absent(Cat(NoiseNoiseLines3), PrecisionWord)
    ensures Cat(NoiseNoiseLines3) != [] && Cat(NoiseNoiseLines3)[0] == '\n'
  {
    NoiseNoiseLines3UniformPart1();
    NoiseNoiseLines3UniformPart2();
    WitnessedJoin(NoiseNoiseLines3, "uuuuuu", UniformWord, 0, 3, 6);
    WitnessedAbsent(NoiseNoiseLines3, "uuuuuu", UniformWord);
    NoiseNoiseLines3PrecisionPart1();
    NoiseNoiseLines3PrecisionPart2();
    WitnessedJoin(NoiseNoiseLines3, "pppppp", PrecisionWord, 0, 3, 6);
    WitnessedAbsent(NoiseNoiseLines3, "pppppp", PrecisionWord);
  }

  lemma NoiseNoiseLines4UniformPart1()
    ensures WitnessedRange(NoiseNoiseLines4, "uuuuufuuu", UniformWord, 0, 3)
  {
  }

  lemma NoiseNoiseLines4UniformPart2()
    ensures WitnessedRange(NoiseNoiseLines4, "uuuuufuuu", UniformWord, 3, 6)
  {
  }

  lemma NoiseNoiseLines4UniformPart3()
    ensures WitnessedRange(NoiseNoiseLines4, "uuuuufuuu", UniformWord, 6, 9)
  {
  }

  lemma NoiseNoiseLines4PrecisionPart1()
    ensures WitnessedRange(NoiseNoiseLines4, "ppppppppp", PrecisionWord, 0, 3)
  {
  }

  lemma NoiseNoiseLines4PrecisionPart2()
    ensures WitnessedRange(NoiseNoiseLines4, "ppppppppp", PrecisionWord, 3, 6)
  {
  }

  lemma NoiseNoiseLines4PrecisionPart3()
    ensures WitnessedRange(NoiseNoiseLines4, "ppppppppp", PrecisionWord, 6, 9)
  {
  }

  lemma NoiseNoiseLines4NoHeaderWord()
    ensures Absent(Cat(NoiseNoiseLines4), UniformWord) && Absent(Cat(NoiseNoiseLines4), PrecisionWord)
    ensures Cat(NoiseNoiseLines4) != [] && Cat(NoiseNoiseLines4)[0] == '\n'
  {
    NoiseNoiseLines4UniformPart1();
    NoiseNoiseLines4UniformPart2();
    NoiseNoiseLines4UniformPart3();
    WitnessedJoin(NoiseNoiseLines4, "uuuuufuuu", UniformWord, 0, 3, 6);
    WitnessedJoin(NoiseNoiseLines4, "uuuuufuuu", UniformWord, 0, 6, 9);
    WitnessedAbsent(NoiseNoiseLines4, "uuuuufuuu", UniformWord);
    NoiseNoiseLines4PrecisionPart1();
    NoiseNoiseLines4PrecisionPart2();
    NoiseNoiseLines4PrecisionPart3();
    WitnessedJoin(NoiseNoiseLines4, "ppppppppp", PrecisionWord, 0, 3, 6);
    WitnessedJoin(NoiseNoiseLines4, "ppppppppp", PrecisionWord, 0, 6, 9);
    WitnessedAbsent(NoiseNoiseLines4, "ppppppppp", PrecisionWord);
  }

  lemma NoiseNoiseHasNoHeaderWord()
    ensures Absent(Cat(NoiseNoiseText), UniformWord) && Absent(Cat(NoiseNoiseText), PrecisionWord)
  {
    NoiseNoiseLines1NoHeaderWord();
    NoiseNoiseLines2NoHeaderWord();
    NoiseNoiseLines3NoHeaderWord();
    NoiseNoiseLines4NoHeaderWord();
    var s := NoiseNoiseLines1;
    RunsAbsent(s, NoiseNoiseLines2, UniformWord);
    RunsAbsent(s, NoiseNoiseLines2, PrecisionWord);
    s := s + NoiseNoiseLines2;
    RunsAbsent(s, NoiseNoiseLines3, UniformWord);
    RunsAbsent(s, NoiseNoiseLines3, PrecisionWord);
    s := s + NoiseNoiseLines3;
    RunsAbsent(s, NoiseNoiseLines4, UniformWord);
    RunsAbsent(s, NoiseNoiseLines4, PrecisionWord);
    s := s + NoiseNoiseLines4;
  }

  lemma NoiseFbmLines1UniformPart1()
    ensures WitnessedRange(NoiseFbmLines1, "uuuuun", UniformWord, 0, 3)
  {
  }

  lemma NoiseFbmLines1UniformPart2()
    ensures WitnessedRange(NoiseFbmLines1, "uuuuun", UniformWord, 3, 6)
  {
  }

  lemma NoiseFbmLines1PrecisionPart1()
    ensures WitnessedRange(NoiseFbmLines1, "ppprpp", PrecisionWord, 0, 3)
  {
  }

  lemma NoiseFbmLines1PrecisionPart2()
    ensures WitnessedRange(NoiseFbmLines1, "ppprpp", PrecisionWord, 3, 6)
  {
  }

  lemma NoiseFbmLines1NoHeaderWord()
    ensures Absent(Cat(NoiseFbmLines1), UniformWord) && Absent(Cat(NoiseFbmLines1), PrecisionWord)
  {
    NoiseFbmLines1UniformPart1();
    NoiseFbmLines1UniformPart2();
    WitnessedJoin(NoiseFbmLines1, "uuuuun", UniformWord, 0, 3, 6);
    WitnessedAbsent(NoiseFbmLines1, "uuuuun", UniformWord);
    NoiseFbmLines1PrecisionPart1();
    NoiseFbmLines1PrecisionPart2();
    WitnessedJoin(NoiseFbmLines1, "ppprpp", PrecisionWord, 0, 3, 6);
    WitnessedAbsent(NoiseFbmLines1, "ppprpp", PrecisionWord);
  }

  lemma NoiseFbmLines2UniformPart1()
    ensures WitnessedRange(NoiseFbmLines2, "uuuuuuuu", UniformWord, 0, 3)
  {
  }

  lemma NoiseFbmLines2UniformPart2()
    ensures WitnessedRange(NoiseFbmLines2, "uuuuuuuu", UniformWord, 3, 5)
  {
  }

  lemma NoiseFbmLines2UniformPart3()
    ensures WitnessedRange(NoiseFbmLines2, "uuuuuuuu", UniformWord, 5, 8)
  {
  }

  lemma NoiseFbmLines2PrecisionPart1()
    ensures WitnessedRange(NoiseFbmLines2, "prpppppp", PrecisionWord, 0, 3)
  {
  }

  lemma NoiseFbmLines2PrecisionPart2()
    ensures WitnessedRange(NoiseFbmLines2, "prpppppp", PrecisionWord, 3, 5)
  {
  }

  lemma NoiseFbmLines2PrecisionPart3()
    ensures WitnessedRange(NoiseFbmLines2, "prpppppp", PrecisionWord, 5, 8)
  {
  }

  lemma NoiseFbmLines2NoHeaderWord()
    ensures Absent(Cat(NoiseFbmLines2), UniformWord) && Absent(Cat(NoiseFbmLines2), PrecisionWord)
    ensures Cat(NoiseFbmLines2) != [] && Cat(NoiseFbmLines2)[0] == '\n'
  {
    NoiseFbmLines2UniformPart1();
    NoiseFbmLines2UniformPart2();
    NoiseFbmLines2UniformPart3();
    WitnessedJoin(NoiseFbmLines2, "uuuuuuuu", UniformWord, 0, 3, 5);
    WitnessedJoin(NoiseFbmLines2, "uuuuuuuu", UniformWord, 0, 5, 8);
    WitnessedAbsent(NoiseFbmLines2, "uuuuuuuu", UniformWord);
    NoiseFbmLines2PrecisionPart1();
    NoiseFbmLines2PrecisionPart2();
    NoiseFbmLines2PrecisionPart3();
    WitnessedJoin(NoiseFbmLines2, "prpppppp", PrecisionWord, 0, 3, 5);
    WitnessedJoin(NoiseFbmLines2, "prpppppp", PrecisionWord, 0, 5, 8);
    WitnessedAbsent(NoiseFbmLines2, "prpppppp", PrecisionWord);
  }

  lemma NoiseFbmLines3UniformPart1()
    ensures WitnessedRange(NoiseFbmLines3, "ufuuuuu", UniformWord, 0, 2)
  {
  }

  lemma NoiseFbmLines3UniformPart2()
    ensures WitnessedRange(NoiseFbmLines3, "ufuuuuu", UniformWord, 2, 5)
  {
  }

  lemma NoiseFbmLines3UniformPart3()
    ensures WitnessedRange(NoiseFbmLines3, "ufuuuuu", UniformWord, 5, 7)
  {
  }

  lemma NoiseFbmLines3PrecisionPart1()
    ensures WitnessedRange(NoiseFbmLines3, "prcprpp", PrecisionWord, 0, 2)
  {
  }

  lemma NoiseFbmLines3PrecisionPart2()
    ensures WitnessedRange(NoiseFbmLines3, "prcprpp", PrecisionWord, 2, 4)
  {
  }

  lemma NoiseFbmLines3PrecisionPart3()
    ensures WitnessedRange(NoiseFbmLines3, "prcprpp", PrecisionWord, 4, 5)
  {
  }

  lemma NoiseFbmLines3PrecisionPart4()
    ensures WitnessedRange(NoiseFbmLines3, "prcprpp", PrecisionWord, 5, 7)
  {
  }

  lemma NoiseFbmLines3NoHeaderWord()
    ensures Absent(Cat(NoiseFbmLines3), UniformWord) && Absent(Cat(NoiseFbmLines3), PrecisionWord)
    ensures Cat(NoiseFbmLines3) != [] && Cat(NoiseFbmLines3)[0] == '\n'
  {
    NoiseFbmLines3UniformPart1();
    NoiseFbmLines3UniformPart2();
    NoiseFbmLines3UniformPart3();
    WitnessedJoin(NoiseFbmLines3, "ufuuuuu", UniformWord, 0, 2, 5);
    WitnessedJoin(NoiseFbmLines3, "ufuuuuu", UniformWord, 0, 5, 7);
    WitnessedAbsent(NoiseFbmLines3, "ufuuuuu", UniformWord);
    NoiseFbmLines3PrecisionPart1();
    NoiseFbmLines3PrecisionPart2();
    NoiseFbmLines3PrecisionPart3();
    NoiseFbmLines3PrecisionPart4();
    WitnessedJoin(NoiseFbmLines3, "prcprpp", PrecisionWord, 0, 2, 4);
    WitnessedJoin(NoiseFbmLines3, "prcprpp", PrecisionWord, 0, 4, 5);
    WitnessedJoin(NoiseFbmLines3, "prcprpp", PrecisionWord, 0, 5, 7);
    WitnessedAbsent(NoiseFbmLines3, "prcprpp", PrecisionWord);
  }

  lemma NoiseFbmLines4UniformPart1()
    ensures WitnessedRange(NoiseFbmLines4, "uuuuiu", UniformWord, 0, 3)
  {
  }

  lemma NoiseFbmLines4UniformPart2()
    ensures WitnessedRange(NoiseFbmLines4, "uuuuiu", UniformWord, 3, 6)
  {
  }

  lemma NoiseFbmLines4PrecisionPart1()
    ensures WitnessedRange(NoiseFbmLines4, "pppppp", PrecisionWord, 0, 3)
  {
  }

  lemma NoiseFbmLines4PrecisionPart2()
    ensures WitnessedRange(NoiseFbmLines4, "pppppp", PrecisionWord, 3, 6)
  {
  }

  lemma NoiseFbmLines4NoHeaderWord()
    ensures Absent(Cat(NoiseFbmLines4), UniformWord) && Absent(Cat(NoiseFbmLines4), PrecisionWord)
    ensures Cat(NoiseFbmLines4) != [] && Cat(NoiseFbmLines4)[0] == '\n'
  {
    NoiseFbmLines4UniformPart1();
    NoiseFbmLines4UniformPart2();
    WitnessedJoin(NoiseFbmLines4, "uuuuiu", UniformWord, 0, 3, 6);
    WitnessedAbsent(NoiseFbmLines4, "uuuuiu", UniformWord);
    NoiseFbmLines4PrecisionPart1();
    NoiseFbmLines4PrecisionPart2();
    WitnessedJoin(NoiseFbmLines4, "pppppp", PrecisionWord, 0, 3, 6);
    WitnessedAbsent(NoiseFbmLines4, "pppppp", PrecisionWord);
  }

  lemma NoiseFbmHasNoHeaderWord()
    ensures Absent(Cat(NoiseFbmText), UniformWord) && Absent(Cat(NoiseFbmText), PrecisionWord)
  {
    NoiseFbmLines1NoHeaderWord();
    NoiseFbmLines2NoHeaderWord();
    NoiseFbmLines3NoHeaderWord();
    NoiseFbmLines4NoHeaderWord();
    var s := NoiseFbmLines1;
    RunsAbsent(s, NoiseFbmLines2, UniformWord);
    RunsAbsent(s, NoiseFbmLines2, PrecisionWord);
    s := s + NoiseFbmLines2;
    RunsAbsent(s, NoiseFbmLines3, UniformWord);
    RunsAbsent(s, NoiseFbmLines3, PrecisionWord);
    s := s + NoiseFbmLines3;
    RunsAbsent(s, NoiseFbmLines4, UniformWord);
    RunsAbsent(s, NoiseFbmLines4, PrecisionWord);
    s := s + NoiseFbmLines4;
  }

  lemma FractalRandomUniformPart1()
    ensures WitnessedRange(FractalRandomText, "uuuiuuuu", UniformWord, 0, 3)
  {
  }

  lemma FractalRandomUniformPart2()
    ensures WitnessedRange(FractalRandomText, "uuuiuuuu", UniformWord, 3, 5)
  {
  }

  lemma FractalRandomUniformPart3()
    ensures WitnessedRange(FractalRandomText, "uuuiuuuu", UniformWord, 5, 8)
  {
  }

  lemma FractalRandomPrecisionPart1()
    ensures WitnessedRange(FractalRandomText, "pppppppp", PrecisionWord, 0, 3)
  {
  }

  lemma FractalRandomPrecisionPart2()
    ensures WitnessedRange(FractalRandomText, "pppppppp", PrecisionWord, 3, 5)
  {
  }

  lemma FractalRandomPrecisionPart3()
    ensures WitnessedRange(FractalRandomText, "pppppppp", PrecisionWord, 5, 8)
  {
  }

  lemma FractalRandomHasNoHeaderWord()
    ensures Absent(Cat(FractalRandomText), UniformWord) && Absent(Cat(FractalRandomText), PrecisionWord)
  {
    FractalRandomUniformPart1();
    FractalRandomUniformPart2();
    FractalRandomUniformPart3();
    WitnessedJoin(FractalRandomText, "uuuiuuuu", UniformWord, 0, 3, 5);
    WitnessedJoin(FractalRandomText, "uuuiuuuu", UniformWord, 0, 5, 8);
    WitnessedAbsent(FractalRandomText, "uuuiuuuu", UniformWord);
    FractalRandomPrecisionPart1();
    FractalRandomPrecisionPart2();
    FractalRandomPrecisionPart3();
    WitnessedJoin(FractalRandomText, "pppppppp", PrecisionWord, 0, 3, 5);
    WitnessedJoin(FractalRandomText, "pppppppp", PrecisionWord, 0, 5, 8);
    WitnessedAbsent(FractalRandomText, "pppppppp", PrecisionWord);
  }

  lemma FractalNoiseLines1UniformPart1()
    ensures WitnessedRange(FractalNoiseLines1, "uuuuuu", UniformWord, 0, 3)
  {
  }

  lemma FractalNoiseLines1UniformPart2()
    ensures WitnessedRange(FractalNoiseLines1, "uuuuuu", UniformWord, 3, 6)
  {
  }

  lemma FractalNoiseLines1PrecisionPart1()
    ensures WitnessedRange(FractalNoiseLines1, "pppppp", PrecisionWord, 0, 3)
  {
  }

  lemma FractalNoiseLines1PrecisionPart2()
    ensures WitnessedRange(FractalNoiseLines1, "pppppp", PrecisionWord, 3, 6)
  {
  }

  lemma FractalNoiseLines1NoHeaderWord()
    ensures Absent(Cat(FractalNoiseLines1), UniformWord) && Absent(Cat(FractalNoiseLines1), PrecisionWord)
  {
    FractalNoiseLines1UniformPart1();
    FractalNoiseLines1UniformPart2();
    WitnessedJoin(FractalNoiseLines1, "uuuuuu", UniformWord, 0, 3, 6);
    WitnessedAbsent(FractalNoiseLines1, "uuuuuu", UniformWord);
    FractalNoiseLines1PrecisionPart1();
    FractalNoiseLines1PrecisionPart2();
    WitnessedJoin(FractalNoiseLines1, "pppppp", PrecisionWord, 0, 3, 6);
    WitnessedAbsent(FractalNoiseLines1, "pppppp", PrecisionWord);
  }

  lemma FractalNoiseLines2UniformPart1()
    ensures WitnessedRange(FractalNoiseLines2, "uummuu", UniformWord, 0, 3)
  {
  }

  lemma FractalNoiseLines2UniformPart2()
    ensures WitnessedRange(FractalNoiseLines2, "uummuu", UniformWord, 3, 6)
  {
  }

  lemma FractalNoiseLines2PrecisionPart1()
    ensures WitnessedRange(FractalNoiseLines2, "pppppp", PrecisionWord, 0, 3)
  {
  }

  lemma FractalNoiseLines2PrecisionPart2()
    ensures WitnessedRange(FractalNoiseLines2, "pppppp", PrecisionWord, 3, 6)
  {
  }

  lemma FractalNoiseLines2NoHeaderWord()
    ensures Absent(Cat(FractalNoiseLines2), UniformWord) && Absent(Cat(FractalNoiseLines2), PrecisionWord)
    ensures Cat(FractalNoiseLines2) != [] && Cat(FractalNoiseLines2)[0] == '\n'
  {
    FractalNoiseLines2UniformPart1();
    FractalNoiseLines2UniformPart2();
    WitnessedJoin(FractalNoiseLines2, "uummuu", UniformWord, 0, 3, 6);
    WitnessedAbsent(FractalNoiseLines2, "uummuu", UniformWord);
    FractalNoiseLines2PrecisionPart1();
    FractalNoiseLines2PrecisionPart2();
    WitnessedJoin(FractalNoiseLines2, "pppppp", PrecisionWord, 0, 3, 6);
    WitnessedAbsent(FractalNoiseLines2, "pppppp", PrecisionWord);
  }

  lemma FractalNoiseLines3UniformPart1()
    ensures WitnessedRange(FractalNoiseLines3, "uuuuuu", UniformWord, 0, 3)
  {
  }

  lemma FractalNoiseLines3UniformPart2()
    ensures WitnessedRange(FractalNoiseLines3, "uuuuuu", UniformWord, 3, 6)
  {
  }

  lemma FractalNoiseLines3PrecisionPart1()
    ensures WitnessedRange(FractalNoiseLines3, "pppppp", PrecisionWord, 0, 3)
  {
  }

  lemma FractalNoiseLines3PrecisionPart2()
    ensures WitnessedRange(FractalNoiseLines3, "pppppp", PrecisionWord, 3, 6)
  {
  }

  lemma FractalNoiseLines3NoHeaderWord()
    ensures Absent(Cat(FractalNoiseLines3), UniformWord) && Absent(Cat(FractalNoiseLines3), PrecisionWord)
    ensures Cat(FractalNoiseLines3) != [] && Cat(FractalNoiseLines3)[0] == '\n'
  {
    FractalNoiseLines3UniformPart1();
    FractalNoiseLines3UniformPart2();
    WitnessedJoin(FractalNoiseLines3, "uuuuuu", UniformWord, 0, 3, 6);
    WitnessedAbsent(FractalNoiseLines3, "uuuuuu", UniformWord);
    FractalNoiseLines3PrecisionPart1();
    FractalNoiseLines3PrecisionPart2();
    WitnessedJoin(FractalNoiseLines3, "pppppp", PrecisionWord, 0, 3, 6);
    WitnessedAbsent(FractalNoiseLines3, "pppppp", PrecisionWord);
  }

  lemma FractalNoiseLines4UniformPart1()
    ensures WitnessedRange(FractalNoiseLines4, "uuuuuun", UniformWord, 0, 2)
  {
  }

  lemma FractalNoiseLines4UniformPart2()
    ensures WitnessedRange(FractalNoiseLines4, "uuuuuun", UniformWord, 2, 5)
  {
  }

  lemma FractalNoiseLines4UniformPart3()
    ensures WitnessedRange(FractalNoiseLines4, "uuuuuun", UniformWord, 5, 7)
  {
  }

  lemma FractalNoiseLines4PrecisionPart1()
    ensures WitnessedRange(FractalNoiseLines4, "ppppppp", PrecisionWord, 0, 2)
  {
  }

  lemma FractalNoiseLines4PrecisionPart2()
    ensures WitnessedRange(FractalNoiseLines4, "ppppppp", PrecisionWord, 2, 5)
  {
  }

  lemma FractalNoiseLines4PrecisionPart3()
    ensures WitnessedRange(FractalNoiseLines4, "ppppppp", PrecisionWord, 5, 7)
  {
  }

  lemma FractalNoiseLines4NoHeaderWord()
    ensures Absent(Cat(FractalNoiseLines4), UniformWord) && Absent(Cat(FractalNoiseLines4), PrecisionWord)
    ensures Cat(FractalNoiseLines4) != [] && Cat(FractalNoiseLines4)[0] == '\n'
  {
    FractalNoiseLines4UniformPart1();
    FractalNoiseLines4UniformPart2();
    FractalNoiseLines4UniformPart3();
    WitnessedJoin(FractalNoiseLines4, "uuuuuun", UniformWord, 0, 2, 5);
    WitnessedJoin(FractalNoiseLines4, "uuuuuun", UniformWord, 0, 5, 7);
    WitnessedAbsent(FractalNoiseLines4, "uuuuuun", UniformWord);
    FractalNoiseLines4PrecisionPart1();
    FractalNoiseLines4PrecisionPart2();
    FractalNoiseLines4PrecisionPart3();
    WitnessedJoin(FractalNoiseLines4, "ppppppp", PrecisionWord, 0, 2, 5);
    WitnessedJoin(FractalNoiseLines4, "ppppppp", PrecisionWord, 0, 5, 7);
    WitnessedAbsent(FractalNoiseLines4, "ppppppp", PrecisionWord);
  }

  lemma FractalNoiseLines5UniformPart1()
    ensures WitnessedRange(FractalNoiseLines5, "unnuuuu", UniformWord, 0, 2)
  {
  }

  lemma FractalNoiseLines5UniformPart2()
    ensures WitnessedRange(FractalNoiseLines5, "unnuuuu", UniformWord, 2, 5)
  {
  }

  lemma FractalNoiseLines5UniformPart3()
    ensures WitnessedRange(FractalNoiseLines5, "unnuuuu", UniformWord, 5, 7)
  {
  }

  lemma FractalNoiseLines5PrecisionPart1()
    ensures WitnessedRange(FractalNoiseLines5, "ppppppi", PrecisionWord, 0, 2)
  {
  }

  lemma FractalNoiseLines5PrecisionPart2()
    ensures WitnessedRange(FractalNoiseLines5, "ppppppi", PrecisionWord, 2, 5)
  {
  }

  lemma FractalNoiseLines5PrecisionPart3()
    ensures WitnessedRange(FractalNoiseLines5, "ppppppi", PrecisionWord, 5, 7)
  {
  }

  lemma FractalNoiseLines5NoHeaderWord()
    ensures Absent(Cat(FractalNoiseLines5), UniformWord) && Absent(Cat(FractalNoiseLines5), PrecisionWord)
    ensures Cat(FractalNoiseLines5) != [] && Cat(FractalNoiseLines5)[0] == '\n'
  {
    FractalNoiseLines5UniformPart1();
    FractalNoiseLines5UniformPart2();
    FractalNoiseLines5UniformPart3();
    WitnessedJoin(FractalNoiseLines5, "unnuuuu", UniformWord, 0, 2, 5);
    WitnessedJoin(FractalNoiseLines5, "unnuuuu", UniformWord, 0, 5, 7);
    WitnessedAbsent(FractalNoiseLines5, "unnuuuu", UniformWord);
    FractalNoiseLines5PrecisionPart1();
    FractalNoiseLines5PrecisionPart2();
    FractalNoiseLines5PrecisionPart3();
    WitnessedJoin(FractalNoiseLines5, "ppppppi", PrecisionWord, 0, 2, 5);
    WitnessedJoin(FractalNoiseLines5, "ppppppi", PrecisionWord, 0, 5, 7);
    WitnessedAbsent(FractalNoiseLines5, "ppppppi", PrecisionWord);
  }

  lemma FractalNoiseLines6UniformPart1()
    ensures WitnessedRange(FractalNoiseLines6, "ufnnu", UniformWord, 0, 2)
  {
  }

  lemma FractalNoiseLines6UniformPart2()
    ensures WitnessedRange(FractalNoiseLines6, "ufnnu", UniformWord, 2, 5)
  {
  }

  lemma FractalNoiseLines6PrecisionPart1()
    ensures WitnessedRange(FractalNoiseLines6, "ppppp", PrecisionWord, 0, 2)
  {
  }

  lemma FractalNoiseLines6PrecisionPart2()
    ensures WitnessedRange(FractalNoiseLines6, "ppppp", PrecisionWord, 2, 5)
  {
  }

  lemma FractalNoiseLines6NoHeaderWord()
    ensures Absent(Cat(FractalNoiseLines6), UniformWord) && Absent(Cat(FractalNoiseLines6), PrecisionWord)
    ensures Cat(FractalNoiseLines6) != [] && Cat(FractalNoiseLines6)[0] == '\n'
  {
    FractalNoiseLines6UniformPart1();
    FractalNoiseLines6UniformPart2();
    WitnessedJoin(FractalNoiseLines6, "ufnnu", UniformWord, 0, 2, 5);
    WitnessedAbsent(FractalNoiseLines6, "ufnnu", UniformWord);
    FractalNoiseLines6PrecisionPart1();
    FractalNoiseLines6PrecisionPart2();
    WitnessedJoin(FractalNoiseLines6, "ppppp", PrecisionWord, 0, 2, 5);
    WitnessedAbsent(FractalNoiseLines6, "ppppp", PrecisionWord);
  }

  lemma FractalNoiseHasNoHeaderWord()
    ensures Absent(Cat(FractalNoiseText), UniformWord) && Absent(Cat(FractalNoiseText), PrecisionWord)
  {
    FractalNoiseLines1NoHeaderWord();
    FractalNoiseLines2NoHeaderWord();
    FractalNoiseLines3NoHeaderWord();
    FractalNoiseLines4NoHeaderWord();
    FractalNoiseLines5NoHeaderWord();
    FractalNoiseLines6NoHeaderWord();
    var s := FractalNoiseLines1;
    RunsAbsent(s, FractalNoiseLines2, UniformWord);
    RunsAbsent(s, FractalNoiseLines2, PrecisionWord);
    s := s + FractalNoiseLines2;
    RunsAbsent(s, FractalNoiseLines3, UniformWord);
    RunsAbsent(s, FractalNoiseLines3, PrecisionWord);
    s := s + FractalNoiseLines3;
    RunsAbsent(s, FractalNoiseLines4, UniformWord);
    RunsAbsent(s, FractalNoiseLines4, PrecisionWord);
    s := s + FractalNoiseLines4;
    RunsAbsent(s, FractalNoiseLines5, UniformWord);
    RunsAbsent(s, FractalNoiseLines5, PrecisionWord);
    s := s + FractalNoiseLines5;
    RunsAbsent(s, FractalNoiseLines6, UniformWord);
    RunsAbsent(s, FractalNoiseLines6, PrecisionWord);
    s := s + FractalNoiseLines6;
  }

  lemma FractalFbmLines1UniformPart1()
    ensures WitnessedRange(FractalFbmLines1, "uunuun", UniformWord, 0, 3)
  {
  }

  lemma FractalFbmLines1UniformPart2()
    ensures WitnessedRange(FractalFbmLines1, "uunuun", UniformWord, 3, 6)
  {
  }

  lemma FractalFbmLines1PrecisionPart1()
    ensures WitnessedRange(FractalFbmLines1, "pppppr", PrecisionWord, 0, 3)
  {
  }

  lemma FractalFbmLines1PrecisionPart2()
    ensures WitnessedRange(FractalFbmLines1, "pppppr", PrecisionWord, 3, 6)
  {
  }

  lemma FractalFbmLines1NoHeaderWord()
    ensures Absent(Cat(FractalFbmLines1), UniformWord) && Absent(Cat(FractalFbmLines1), PrecisionWord)
  {
    FractalFbmLines1UniformPart1();
    FractalFbmLines1UniformPart2();
    WitnessedJoin(FractalFbmLines1, "uunuun", UniformWord, 0, 3, 6);
    WitnessedAbsent(FractalFbmLines1, "uunuun", UniformWord);
    FractalFbmLines1PrecisionPart1();
    FractalFbmLines1PrecisionPart2();
    WitnessedJoin(FractalFbmLines1, "pppppr", PrecisionWord, 0, 3, 6);
    WitnessedAbsent(FractalFbmLines1, "pppppr", PrecisionWord);
  }

  lemma FractalFbmLines2UniformPart1(octaves: string)
    requires Plain(octaves)
    ensures WitnessedRange(FractalFbmLines2(octaves), "uuiuuuou", UniformWord, 0, 3)
  {
  }

  lemma FractalFbmLines2UniformPart2(octaves: string)
    requires Plain(octaves)
    ensures WitnessedRange(FractalFbmLines2(octaves), "uuiuuuou", UniformWord, 3, 5)
  {
  }

  lemma FractalFbmLines2UniformPart3(octaves: string)
    requires Plain(octaves)
    ensures WitnessedRange(FractalFbmLines2(octaves), "uuiuuuou", UniformWord, 5, 8)
  {
  }

  lemma FractalFbmLines2PrecisionPart1(octaves: string)
    requires Plain(octaves)
    ensures WitnessedRange(FractalFbmLines2(octaves), "ppppppop", PrecisionWord, 0, 3)
  {
  }

  lemma FractalFbmLines2PrecisionPart2(octaves: string)
    requires Plain(octaves)
    ensures WitnessedRange(FractalFbmLines2(octaves), "ppppppop", PrecisionWord, 3, 5)
  {
  }

  lemma FractalFbmLines2PrecisionPart3(octaves: string)
    requires Plain(octaves)
    ensures WitnessedRange(FractalFbmLines2(octaves), "ppppppop", PrecisionWord, 5, 8)
  {
  }

  lemma FractalFbmLines2NoHeaderWord(octaves: string)
    requires Plain(octaves)
    ensures Absent(Cat(FractalFbmLines2(octaves)), UniformWord) && Absent(Cat(FractalFbmLines2(octaves)), PrecisionWord)
    ensures Cat(FractalFbmLines2(octaves)) != [] && Cat(FractalFbmLines2(octaves))[0] == '\n'
  {
    FractalFbmLines2UniformPart1(octaves);
    FractalFbmLines2UniformPart2(octaves);
    FractalFbmLines2UniformPart3(octaves);
    WitnessedJoin(FractalFbmLines2(octaves), "uuiuuuou", UniformWord, 0, 3, 5);
    WitnessedJoin(FractalFbmLines2(octaves), "uuiuuuou", UniformWord, 0, 5, 8);
    WitnessedAbsent(FractalFbmLines2(octaves), "uuiuuuou", UniformWord);
    FractalFbmLines2PrecisionPart1(octaves);
    FractalFbmLines2PrecisionPart2(octaves);
    FractalFbmLines2PrecisionPart3(octaves);
    WitnessedJoin(FractalFbmLines2(octaves), "ppppppop", PrecisionWord, 0, 3, 5);
    WitnessedJoin(FractalFbmLines2(octaves), "ppppppop", PrecisionWord, 0, 5, 8);
    WitnessedAbsent(FractalFbmLines2(octaves), "ppppppop", PrecisionWord);
  }

  lemma FractalFbmLines3UniformPart1(lacunarity: string)
    requires Plain(lacunarity)
    ensures WitnessedRange(FractalFbmLines3(lacunarity), "unuiuoou", UniformWord, 0, 3)
  {
  }

  lemma FractalFbmLines3UniformPart2(lacunarity: string)
    requires Plain(lacunarity)
    ensures WitnessedRange(FractalFbmLines3(lacunarity), "unuiuoou", UniformWord, 3, 5)
  {
  }

  lemma FractalFbmLines3UniformPart3(lacunarity: string)
    requires Plain(lacunarity)
    ensures WitnessedRange(FractalFbmLines3(lacunarity), "unuiuoou", UniformWord, 5, 8)
  {
  }

  lemma FractalFbmLines3PrecisionPart1(lacunarity: string)
    requires Plain(lacunarity)
    ensures WitnessedRange(FractalFbmLines3(lacunarity), "prppppop", PrecisionWord, 0, 3)
  {
  }

  lemma FractalFbmLines3PrecisionPart2(lacunarity: string)
    requires Plain(lacunarity)
    ensures WitnessedRange(FractalFbmLines3(lacunarity), "prppppop", PrecisionWord, 3, 5)
  {
  }

  lemma FractalFbmLines3PrecisionPart3(lacunarity: string)
    requires Plain(lacunarity)
    ensures WitnessedRange(FractalFbmLines3(lacunarity), "prppppop", PrecisionWord, 5, 8)
  {
  }

  lemma FractalFbmLines3NoHeaderWord(lacunarity: string)
    requires Plain(lacunarity)
    ensures Absent(Cat(FractalFbmLines3(lacunarity)), UniformWord) && Absent(Cat(FractalFbmLines3(lacunarity)), PrecisionWord)
    ensures Cat(FractalFbmLines3(lacunarity)) != [] && Cat(FractalFbmLines3(lacunarity))[0] == '\n'
  {
    FractalFbmLines3UniformPart1(lacunarity);
    FractalFbmLines3UniformPart2(lacunarity);
    FractalFbmLines3UniformPart3(lacunarity);
    WitnessedJoin(FractalFbmLines3(lacunarity), "unuiuoou", UniformWord, 0, 3, 5);
    WitnessedJoin(FractalFbmLines3(lacunarity), "unuiuoou", UniformWord, 0, 5, 8);
    WitnessedAbsent(FractalFbmLines3(lacunarity), "unuiuoou", UniformWord);
    FractalFbmLines3PrecisionPart1(lacunarity);
    FractalFbmLines3PrecisionPart2(lacunarity);
    FractalFbmLines3PrecisionPart3(lacunarity);
    WitnessedJoin(FractalFbmLines3(lacunarity), "prppppop", PrecisionWord, 0, 3, 5);
    WitnessedJoin(FractalFbmLines3(lacunarity), "prppppop", PrecisionWord, 0, 5, 8);
    WitnessedAbsent(FractalFbmLines3(lacunarity), "prppppop", PrecisionWord);
  }

  lemma FractalFbmLines4UniformPart1(gain: string)
    requires Plain(gain)
    ensures WitnessedRange(FractalFbmLines4(gain), "uoouuuuuiu", UniformWord, 0, 2)
  {
  }

  lemma FractalFbmLines4UniformPart2(gain: string)
    requires Plain(gain)
    ensures WitnessedRange(FractalFbmLines4(gain), "uoouuuuuiu", UniformWord, 2, 5)
  {
  }

  lemma FractalFbmLines4UniformPart3(gain: string)
    requires Plain(gain)
    ensures WitnessedRange(FractalFbmLines4(gain), "uoouuuuuiu", UniformWord, 5, 8)
  {
  }

  lemma FractalFbmLines4UniformPart4(gain: string)
    requires Plain(gain)
    ensures WitnessedRange(FractalFbmLines4(gain), "uoouuuuuiu", UniformWord, 8, 10)
  {
  }

  lemma FractalFbmLines4PrecisionPart1(gain: string)
    requires Plain(gain)
    ensures WitnessedRange(FractalFbmLines4(gain), "pooppppppp", PrecisionWord, 0, 2)
  {
  }

  lemma FractalFbmLines4PrecisionPart2(gain: string)
    requires Plain(gain)
    ensures WitnessedRange(FractalFbmLines4(gain), "pooppppppp", PrecisionWord, 2, 5)
  {
  }

  lemma FractalFbmLines4PrecisionPart3(gain: string)
    requires Plain(gain)
    ensures WitnessedRange(FractalFbmLines4(gain), "pooppppppp", PrecisionWord, 5, 8)
  {
  }

  lemma FractalFbmLines4PrecisionPart4(gain: string)
    requires Plain(gain)
    ensures WitnessedRange(FractalFbmLines4(gain), "pooppppppp", PrecisionWord, 8, 10)
  {
  }

  lemma FractalFbmLines4NoHeaderWord(gain: string)
    requires Plain(gain)
    ensures Absent(Cat(FractalFbmLines4(gain)), UniformWord) && Absent(Cat(FractalFbmLines4(gain)), PrecisionWord)
    ensures Cat(FractalFbmLines4(gain)) != [] && Cat(FractalFbmLines4(gain))[0] == '\n'
  {
    FractalFbmLines4UniformPart1(gain);
    FractalFbmLines4UniformPart2(gain);
    FractalFbmLines4UniformPart3(gain);
    FractalFbmLines4UniformPart4(gain);
    WitnessedJoin(FractalFbmLines4(gain), "uoouuuuuiu", UniformWord, 0, 2, 5);
    WitnessedJoin(FractalFbmLines4(gain), "uoouuuuuiu", UniformWord, 0, 5, 8);
    WitnessedJoin(FractalFbmLines4(gain), "uoouuuuuiu", UniformWord, 0, 8, 10);
    WitnessedAbsent(FractalFbmLines4(gain), "uoouuuuuiu", UniformWord);
    FractalFbmLines4PrecisionPart1(gain);
    FractalFbmLines4PrecisionPart2(gain);
    FractalFbmLines4PrecisionPart3(gain);
    FractalFbmLines4PrecisionPart4(gain);
    WitnessedJoin(FractalFbmLines4(gain), "pooppppppp", PrecisionWord, 0, 2, 5);
    WitnessedJoin(FractalFbmLines4(gain), "pooppppppp", PrecisionWord, 0, 5, 8);
    WitnessedJoin(FractalFbmLines4(gain), "pooppppppp", PrecisionWord, 0, 8, 10);
    WitnessedAbsent(FractalFbmLines4(gain), "pooppppppp", PrecisionWord);
  }

  lemma FractalFbmHasNoHeaderWord(octaves: string, lacunarity: string, gain: string)
    requires Plain(octaves) && Plain(lacunarity) && Plain(gain)
    ensures Absent(Cat(FractalFbmText(octaves, lacunarity, gain)), UniformWord) && Absent(Cat(FractalFbmText(octaves, lacunarity, gain)), PrecisionWord)
  {
    FractalFbmLines1NoHeaderWord();
    FractalFbmLines2NoHeaderWord(octaves);
    FractalFbmLines3NoHeaderWord(lacunarity);
    FractalFbmLines4NoHeaderWord(gain);
    var s := FractalFbmLines1;
    RunsAbsent(s, FractalFbmLines2(octaves), UniformWord);
    RunsAbsent(s, FractalFbmLines2(octaves), PrecisionWord);
    s := s + FractalFbmLines2(octaves);
    RunsAbsent(s, FractalFbmLines3(lacunarity), UniformWord);
    RunsAbsent(s, FractalFbmLines3(lacunarity), PrecisionWord);
    s := s + FractalFbmLines3(lacunarity);
    RunsAbsent(s, FractalFbmLines4(gain), UniformWord);
    RunsAbsent(s, FractalFbmLines4(gain), PrecisionWord);
    s := s + FractalFbmLines4(gain);
  }

  lemma GeometricSdCircleUniformPart1()
    ensures WitnessedRange(GeometricSdCircleText, "uuuiuu", UniformWord, 0, 3)
  {
  }

  lemma GeometricSdCircleUniformPart2()
    ensures WitnessedRange(GeometricSdCircleText, "uuuiuu", UniformWord, 3, 6)
  {
  }

  lemma GeometricSdCirclePrecisionPart1()
    ensures WitnessedRange(GeometricSdCircleText, "peppcp", PrecisionWord, 0, 3)
  {
  }

  lemma GeometricSdCirclePrecisionPart2()
    ensures WitnessedRange(GeometricSdCircleText, "peppcp", PrecisionWord, 3, 6)
  {
  }

  lemma GeometricSdCircleHasNoHeaderWord()
    ensures Absent(Cat(GeometricSdCircleText), UniformWord) && Absent(Cat(GeometricSdCircleText), PrecisionWord)
  {
    GeometricSdCircleUniformPart1();
    GeometricSdCircleUniformPart2();
    WitnessedJoin(GeometricSdCircleText, "uuuiuu", UniformWord, 0, 3, 6);
    WitnessedAbsent(GeometricSdCircleText, "uuuiuu", UniformWord);
    GeometricSdCirclePrecisionPart1();
    GeometricSdCirclePrecisionPart2();
    WitnessedJoin(GeometricSdCircleText, "peppcp", PrecisionWord, 0, 3, 6);
    WitnessedAbsent(GeometricSdCircleText, "peppcp", PrecisionWord);
  }

  lemma GeometricSdBoxUniformPart1()
    ensures WitnessedRange(GeometricSdBoxText, "uuuuuiuuu", UniformWord, 0, 3)
  {
  }

  lemma GeometricSdBoxUniformPart2()
    ensures WitnessedRange(GeometricSdBoxText, "uuuuuiuuu", UniformWord, 3, 6)
  {
  }

  lemma GeometricSdBoxUniformPart3()
    ensures WitnessedRange(GeometricSdBoxText, "uuuuuiuuu", UniformWord, 6, 9)
  {
  }

  lemma GeometricSdBoxPrecisionPart1()
    ensures WitnessedRange(GeometricSdBoxText, "prprppppp", PrecisionWord, 0, 3)
  {
  }

  lemma GeometricSdBoxPrecisionPart2()
    ensures WitnessedRange(GeometricSdBoxText, "prprppppp", PrecisionWord, 3, 6)
  {
  }

  lemma GeometricSdBoxPrecisionPart3()
    ensures WitnessedRange(GeometricSdBoxText, "prprppppp", PrecisionWord, 6, 9)
  {
  }

  lemma GeometricSdBoxHasNoHeaderWord()
    ensures Absent(Cat(GeometricSdBoxText), UniformWord) && Absent(Cat(GeometricSdBoxText), PrecisionWord)
  {
    GeometricSdBoxUniformPart1();
    GeometricSdBoxUniformPart2();
    GeometricSdBoxUniformPart3();
    WitnessedJoin(GeometricSdBoxText, "uuuuuiuuu", UniformWord, 0, 3, 6);
    WitnessedJoin(GeometricSdBoxText, "uuuuuiuuu", UniformWord, 0, 6, 9);
    WitnessedAbsent(GeometricSdBoxText, "uuuuuiuuu", UniformWord);
    GeometricSdBoxPrecisionPart1();
    GeometricSdBoxPrecisionPart2();
    GeometricSdBoxPrecisionPart3();
    WitnessedJoin(GeometricSdBoxText, "prprppppp", PrecisionWord, 0, 3, 6);
    WitnessedJoin(GeometricSdBoxText, "prprppppp", PrecisionWord, 0, 6, 9);
    WitnessedAbsent(GeometricSdBoxText, "prprppppp", PrecisionWord);
  }

  lemma GeometricSdTriangleLines1UniformPart1()
    ensures WitnessedRange(GeometricSdTriangleLines1, "uuuuuuuu", UniformWord, 0, 3)
  {
  }

  lemma GeometricSdTriangleLines1UniformPart2()
    ensures WitnessedRange(GeometricSdTriangleLines1, "uuuuuuuu", UniformWord, 3, 5)
  {
  }

  lemma GeometricSdTriangleLines1UniformPart3()
    ensures WitnessedRange(GeometricSdTriangleLines1, "uuuuuuuu", UniformWord, 5, 8)
  {
  }

  lemma GeometricSdTriangleLines1PrecisionPart1()
    ensures WitnessedRange(GeometricSdTriangleLines1, "popppprr", PrecisionWord, 0, 3)
  {
  }

  lemma GeometricSdTriangleLines1PrecisionPart2()
    ensures WitnessedRange(GeometricSdTriangleLines1, "popppprr", PrecisionWord, 3, 5)
  {
  }

  lemma GeometricSdTriangleLines1PrecisionPart3()
    ensures WitnessedRange(GeometricSdTriangleLines1, "popppprr", PrecisionWord, 5, 8)
  {
  }

  lemma GeometricSdTriangleLines1NoHeaderWord()
    ensures Absent(Cat(GeometricSdTriangleLines1), UniformWord) && Absent(Cat(GeometricSdTriangleLines1), PrecisionWord)
  {
    GeometricSdTriangleLines1UniformPart1();
    GeometricSdTriangleLines1UniformPart2();
    GeometricSdTriangleLines1UniformPart3();
    WitnessedJoin(GeometricSdTriangleLines1, "uuuuuuuu", UniformWord, 0, 3, 5);
    WitnessedJoin(GeometricSdTriangleLines1, "uuuuuuuu", UniformWord, 0, 5, 8);
    WitnessedAbsent(GeometricSdTriangleLines1, "uuuuuuuu", UniformWord);
    GeometricSdTriangleLines1PrecisionPart1();
    GeometricSdTriangleLines1PrecisionPart2();
    GeometricSdTriangleLines1PrecisionPart3();
    WitnessedJoin(GeometricSdTriangleLines1, "popppprr", PrecisionWord, 0, 3, 5);
    WitnessedJoin(GeometricSdTriangleLines1, "popppprr", PrecisionWord, 0, 5, 8);
    WitnessedAbsent(GeometricSdTriangleLines1, "popppprr", PrecisionWord);
  }

  lemma GeometricSdTriangleLines2UniformPart1()
    ensures WitnessedRange(GeometricSdTriangleLines2, "uuuuuuu", UniformWord, 0, 2)
  {
  }

  lemma GeometricSdTriangleLines2UniformPart2()
    ensures WitnessedRange(GeometricSdTriangleLines2, "uuuuuuu", UniformWord, 2, 5)
  {
  }

  lemma GeometricSdTriangleLines2UniformPart3()
    ensures WitnessedRange(GeometricSdTriangleLines2, "uuuuuuu", UniformWord, 5, 7)
  {
  }

  lemma GeometricSdTriangleLines2PrecisionPart1()
    ensures WitnessedRange(GeometricSdTriangleLines2, "prprrrr", PrecisionWord, 0, 2)
  {
  }

  lemma GeometricSdTriangleLines2PrecisionPart2()
    ensures WitnessedRange(GeometricSdTriangleLines2, "prprrrr", PrecisionWord, 2, 5)
  {
  }

  lemma GeometricSdTriangleLines2PrecisionPart3()
    ensures WitnessedRange(GeometricSdTriangleLines2, "prprrrr", PrecisionWord, 5, 7)
  {
  }

  lemma GeometricSdTriangleLines2NoHeaderWord()
    ensures Absent(Cat(GeometricSdTriangleLines2), UniformWord) && Absent(Cat(GeometricSdTriangleLines2), PrecisionWord)
    ensures Cat(GeometricSdTriangleLines2) != [] && Cat(GeometricSdTriangleLines2)[0] == '\n'
  {
    GeometricSdTriangleLines2UniformPart1();
    GeometricSdTriangleLines2UniformPart2();
    GeometricSdTriangleLines2UniformPart3();
    WitnessedJoin(GeometricSdTriangleLines2, "uuuuuuu", UniformWord, 0, 2, 5);
    WitnessedJoin(GeometricSdTriangleLines2, "uuuuuuu", UniformWord, 0, 5, 7);
    WitnessedAbsent(GeometricSdTriangleLines2, "uuuuuuu", UniformWord);
    GeometricSdTriangleLines2PrecisionPart1();
    GeometricSdTriangleLines2PrecisionPart2();
    GeometricSdTriangleLines2PrecisionPart3();
    WitnessedJoin(GeometricSdTriangleLines2, "prprrrr", PrecisionWord, 0, 2, 5);
    WitnessedJoin(GeometricSdTriangleLines2, "prprrrr", PrecisionWord, 0, 5, 7);
    WitnessedAbsent(GeometricSdTriangleLines2, "prprrrr", PrecisionWord);
  }

  lemma GeometricSdTriangleLines3UniformPart1()
    ensures WitnessedRange(GeometricSdTriangleLines3, "uuuuiuu", UniformWord, 0, 2)
  {
  }

  lemma GeometricSdTriangleLines3UniformPart2()
    ensures WitnessedRange(GeometricSdTriangleLines3, "uuuuiuu", UniformWord, 2, 5)
  {
  }

  lemma GeometricSdTriangleLines3UniformPart3()
    ensures WitnessedRange(GeometricSdTriangleLines3, "uuuuiuu", UniformWord, 5, 7)
  {
  }

  lemma GeometricSdTriangleLines3PrecisionPart1()
    ensures WitnessedRange(GeometricSdTriangleLines3, "prppcrp", PrecisionWord, 0, 2)
  {
  }

  lemma GeometricSdTriangleLines3PrecisionPart2()
    ensures WitnessedRange(GeometricSdTriangleLines3, "prppcrp", PrecisionWord, 2, 5)
  {
  }

  lemma GeometricSdTriangleLines3PrecisionPart3()
    ensures WitnessedRange(GeometricSdTriangleLines3, "prppcrp", PrecisionWord, 5, 7)
  {
  }

  lemma GeometricSdTriangleLines3NoHeaderWord()
    ensures Absent(Cat(GeometricSdTriangleLines3), UniformWord) && Absent(Cat(GeometricSdTriangleLines3), PrecisionWord)
    ensures Cat(GeometricSdTriangleLines3) != [] && Cat(GeometricSdTriangleLines3)[0] == '\n'
  {
    GeometricSdTriangleLines3UniformPart1();
    GeometricSdTriangleLines3UniformPart2();
    GeometricSdTriangleLines3UniformPart3();
    WitnessedJoin(GeometricSdTriangleLines3, "uuuuiuu", UniformWord, 0, 2, 5);
    WitnessedJoin(GeometricSdTriangleLines3, "uuuuiuu", UniformWord, 0, 5, 7);
    WitnessedAbsent(GeometricSdTriangleLines3, "uuuuiuu", UniformWord);
    GeometricSdTriangleLines3PrecisionPart1();
    GeometricSdTriangleLines3PrecisionPart2();
    GeometricSdTriangleLines3PrecisionPart3();
    WitnessedJoin(GeometricSdTriangleLines3, "prppcrp", PrecisionWord, 0, 2, 5);
    WitnessedJoin(GeometricSdTriangleLines3, "prppcrp", PrecisionWord, 0, 5, 7);
    WitnessedAbsent(GeometricSdTriangleLines3, "prppcrp", PrecisionWord);
  }

  lemma GeometricSdTriangleHasNoHeaderWord()
    ensures Absent(Cat(GeometricSdTriangleText), UniformWord) && Absent(Cat(GeometricSdTriangleText), PrecisionWord)
  {
    GeometricSdTriangleLines1NoHeaderWord();
    GeometricSdTriangleLines2NoHeaderWord();
    GeometricSdTriangleLines3NoHeaderWord();
    var s := GeometricSdTriangleLines1;
    RunsAbsent(s, GeometricSdTriangleLines2, UniformWord);
    RunsAbsent(s, GeometricSdTriangleLines2, PrecisionWord);
    s := s + GeometricSdTriangleLines2;
    RunsAbsent(s, GeometricSdTriangleLines3, UniformWord);
    RunsAbsent(s, GeometricSdTriangleLines3, PrecisionWord);
    s := s + GeometricSdTriangleLines3;
  }

  lemma GeometricRotate2dUniformPart1()
    ensures WitnessedRange(GeometricRotate2dText, "uuuiiuuu", UniformWord, 0, 3)
  {
  }

  lemma GeometricRotate2dUniformPart2()
    ensures WitnessedRange(GeometricRotate2dText, "uuuiiuuu", UniformWord, 3, 5)
  {
  }

  lemma GeometricRotate2dUniformPart3()
    ensures WitnessedRange(GeometricRotate2dText, "uuuiiuuu", UniformWord, 5, 8)
  {
  }

  lemma GeometricRotate2dPrecisionPart1()
    ensures WitnessedRange(GeometricRotate2dText, "pppppppp", PrecisionWord, 0, 3)
  {
  }

  lemma GeometricRotate2dPrecisionPart2()
    ensures WitnessedRange(GeometricRotate2dText, "pppppppp", PrecisionWord, 3, 5)
  {
  }

  lemma GeometricRotate2dPrecisionPart3()
    ensures WitnessedRange(GeometricRotate2dText, "pppppppp", PrecisionWord, 5, 8)
  {
  }

  lemma GeometricRotate2dHasNoHeaderWord()
    ensures Absent(Cat(GeometricRotate2dText), UniformWord) && Absent(Cat(GeometricRotate2dText), PrecisionWord)
  {
    GeometricRotate2dUniformPart1();
    GeometricRotate2dUniformPart2();
    GeometricRotate2dUniformPart3();
    WitnessedJoin(GeometricRotate2dText, "uuuiiuuu", UniformWord, 0, 3, 5);
    WitnessedJoin(GeometricRotate2dText, "uuuiiuuu", UniformWord, 0, 5, 8);
    WitnessedAbsent(GeometricRotate2dText, "uuuiiuuu", UniformWord);
    GeometricRotate2dPrecisionPart1();
    GeometricRotate2dPrecisionPart2();
    GeometricRotate2dPrecisionPart3();
    WitnessedJoin(GeometricRotate2dText, "pppppppp", PrecisionWord, 0, 3, 5);
    WitnessedJoin(GeometricRotate2dText, "pppppppp", PrecisionWord, 0, 5, 8);
    WitnessedAbsent(GeometricRotate2dText, "pppppppp", PrecisionWord);
  }

  lemma FluidHashLines1UniformPart1()
    ensures WitnessedRange(FluidHashLines1, "uuuuuu", UniformWord, 0, 3)
  {
  }

  lemma FluidHashLines1UniformPart2()
    ensures WitnessedRange(FluidHashLines1, "uuuuuu", UniformWord, 3, 6)
  {
  }

  lemma FluidHashLines1PrecisionPart1()
    ensures WitnessedRange(FluidHashLines1, "rprprp", PrecisionWord, 0, 3)
  {
  }

  lemma FluidHashLines1PrecisionPart2()
    ensures WitnessedRange(FluidHashLines1, "rprprp", PrecisionWord, 3, 6)
  {
  }

  lemma FluidHashLines1NoHeaderWord()
    ensures Absent(Cat(FluidHashLines1), UniformWord) && Absent(Cat(FluidHashLines1), PrecisionWord)
  {
    FluidHashLines1UniformPart1();
    FluidHashLines1UniformPart2();
    WitnessedJoin(FluidHashLines1, "uuuuuu", UniformWord, 0, 3, 6);
    WitnessedAbsent(FluidHashLines1, "uuuuuu", UniformWord);
    FluidHashLines1PrecisionPart1();
    FluidHashLines1PrecisionPart2();
    WitnessedJoin(FluidHashLines1, "rprprp", PrecisionWord, 0, 3, 6);
    WitnessedAbsent(FluidHashLines1, "rprprp", PrecisionWord);
  }

  lemma FluidHashLines2UniformPart1()
    ensures WitnessedRange(FluidHashLines2, "uiuuu", UniformWord, 0, 2)
  {
  }

  lemma FluidHashLines2UniformPart2()
    ensures WitnessedRange(FluidHashLines2, "uiuuu", UniformWord, 2, 5)
  {
  }

  lemma FluidHashLines2PrecisionPart1()
    ensures WitnessedRange(FluidHashLines2, "ppepp", PrecisionWord, 0, 2)
  {
  }

  lemma FluidHashLines2PrecisionPart2()
    ensures WitnessedRange(FluidHashLines2, "ppepp", PrecisionWord, 2, 5)
  {
  }

  lemma FluidHashLines2NoHeaderWord()
    ensures Absent(Cat(FluidHashLines2), UniformWord) && Absent(Cat(FluidHashLines2), PrecisionWord)
    ensures Cat(FluidHashLines2) != [] && Cat(FluidHashLines2)[0] == '\n'
  {
    FluidHashLines2UniformPart1();
    FluidHashLines2UniformPart2();
    WitnessedJoin(FluidHashLines2, "uiuuu", UniformWord, 0, 2, 5);
    WitnessedAbsent(FluidHashLines2, "uiuuu", UniformWord);
    FluidHashLines2PrecisionPart1();
    FluidHashLines2PrecisionPart2();
    WitnessedJoin(FluidHashLines2, "ppepp", PrecisionWord, 0, 2, 5);
    WitnessedAbsent(FluidHashLines2, "ppepp", PrecisionWord);
  }

  lemma FluidHashHasNoHeaderWord()
    ensures Absent(Cat(FluidHashText), UniformWord) && Absent(Cat(FluidHashText), PrecisionWord)
  {
    FluidHashLines1NoHeaderWord();
    FluidHashLines2NoHeaderWord();
    var s := FluidHashLines1;
    RunsAbsent(s, FluidHashLines2, UniformWord);
    RunsAbsent(s, FluidHashLines2, PrecisionWord);
    s := s + FluidHashLines2;
  }

  lemma FluidNoiseLines1UniformPart1()
    ensures WitnessedRange(FluidNoiseLines1, "uuuuuu", UniformWord, 0, 3)
  {
  }

  lemma FluidNoiseLines1UniformPart2()
    ensures WitnessedRange(FluidNoiseLines1, "uuuuuu", UniformWord, 3, 6)
  {
  }

  lemma FluidNoiseLines1PrecisionPart1()
    ensures WitnessedRange(FluidNoiseLines1, "prpppp", PrecisionWord, 0, 3)
  {
  }

  lemma FluidNoiseLines1PrecisionPart2()
    ensures WitnessedRange(FluidNoiseLines1, "prpppp", PrecisionWord, 3, 6)
  {
  }

  lemma FluidNoiseLines1NoHeaderWord()
    ensures Absent(Cat(FluidNoiseLines1), UniformWord) && Absent(Cat(FluidNoiseLines1), PrecisionWord)
  {
    FluidNoiseLines1UniformPart1();
    FluidNoiseLines1UniformPart2();
    WitnessedJoin(FluidNoiseLines1, "uuuuuu", UniformWord, 0, 3, 6);
    WitnessedAbsent(FluidNoiseLines1, "uuuuuu", UniformWord);
    FluidNoiseLines1PrecisionPart1();
    FluidNoiseLines1PrecisionPart2();
    WitnessedJoin(FluidNoiseLines1, "prpppp", PrecisionWord, 0, 3, 6);
    WitnessedAbsent(FluidNoiseLines1, "prpppp", PrecisionWord);
  }

  lemma FluidNoiseLines2UniformPart1()
    ensures WitnessedRange(FluidNoiseLines2, "uuuuuuuu", UniformWord, 0, 3)
  {
  }

  lemma FluidNoiseLines2UniformPart2()
    ensures WitnessedRange(FluidNoiseLines2, "uuuuuuuu", UniformWord, 3, 5)
  {
  }

  lemma FluidNoiseLines2UniformPart3()
    ensures WitnessedRange(FluidNoiseLines2, "uuuuuuuu", UniformWord, 5, 8)
  {
  }

  lemma FluidNoiseLines2PrecisionPart1()
    ensures WitnessedRange(FluidNoiseLines2, "ppppppsr", PrecisionWord, 0, 3)
  {
  }

  lemma FluidNoiseLines2PrecisionPart2()
    ensures WitnessedRange(FluidNoiseLines2, "ppppppsr", PrecisionWord, 3, 5)
  {
  }

  lemma FluidNoiseLines2PrecisionPart3()
    ensures WitnessedRange(FluidNoiseLines2, "ppppppsr", PrecisionWord, 5, 8)
  {
  }

  lemma FluidNoiseLines2NoHeaderWord()
    ensures Absent(Cat(FluidNoiseLines2), UniformWord) && Absent(Cat(FluidNoiseLines2), PrecisionWord)
    ensures Cat(FluidNoiseLines2) != [] && Cat(FluidNoiseLines2)[0] == '\n'
  {
    FluidNoiseLines2UniformPart1();
    FluidNoiseLines2UniformPart2();
    FluidNoiseLines2UniformPart3();
    WitnessedJoin(FluidNoiseLines2, "uuuuuuuu", UniformWord, 0, 3, 5);
    WitnessedJoin(FluidNoiseLines2, "uuuuuuuu", UniformWord, 0, 5, 8);
    WitnessedAbsent(FluidNoiseLines2, "uuuuuuuu", UniformWord);
    FluidNoiseLines2PrecisionPart1();
    FluidNoiseLines2PrecisionPart2();
    FluidNoiseLines2PrecisionPart3();
    WitnessedJoin(FluidNoiseLines2, "ppppppsr", PrecisionWord, 0, 3, 5);
    WitnessedJoin(FluidNoiseLines2, "ppppppsr", PrecisionWord, 0, 5, 8);
    WitnessedAbsent(FluidNoiseLines2, "ppppppsr", PrecisionWord);
  }

  lemma FluidNoiseLines3UniformPart1()
    ensures WitnessedRange(FluidNoiseLines3, "uuuuuuu", UniformWord, 0, 2)
  {
  }

  lemma FluidNoiseLines3UniformPart2()
    ensures WitnessedRange(FluidNoiseLines3, "uuuuuuu", UniformWord, 2, 5)
  {
  }

  lemma FluidNoiseLines3UniformPart3()
    ensures WitnessedRange(FluidNoiseLines3, "uuuuuuu", UniformWord, 5, 7)
  {
  }

  lemma FluidNoiseLines3PrecisionPart1()
    ensures WitnessedRange(FluidNoiseLines3, "prppppp", PrecisionWord, 0, 2)
  {
  }

  lemma FluidNoiseLines3PrecisionPart2()
    ensures WitnessedRange(FluidNoiseLines3, "prppppp", PrecisionWord, 2, 5)
  {
  }

  lemma FluidNoiseLines3PrecisionPart3()
    ensures WitnessedRange(FluidNoiseLines3, "prppppp", PrecisionWord, 5, 7)
  {
  }

  lemma FluidNoiseLines3NoHeaderWord()
    ensures Absent(Cat(FluidNoiseLines3), UniformWord) && Absent(Cat(FluidNoiseLines3), PrecisionWord)
    ensures Cat(FluidNoiseLines3) != [] && Cat(FluidNoiseLines3)[0] == '\n'
  {
    FluidNoiseLines3UniformPart1();
    FluidNoiseLines3UniformPart2();
    FluidNoiseLines3UniformPart3();
    WitnessedJoin(FluidNoiseLines3, "uuuuuuu", UniformWord, 0, 2, 5);
    WitnessedJoin(FluidNoiseLines3, "uuuuuuu", UniformWord, 0, 5, 7);
    WitnessedAbsent(FluidNoiseLines3, "uuuuuuu", UniformWord);
    FluidNoiseLines3PrecisionPart1();
    FluidNoiseLines3PrecisionPart2();
    FluidNoiseLines3PrecisionPart3();
    WitnessedJoin(FluidNoiseLines3, "prppppp", PrecisionWord, 0, 2, 5);
    WitnessedJoin(FluidNoiseLines3, "prppppp", PrecisionWord, 0, 5, 7);
    WitnessedAbsent(FluidNoiseLines3, "prppppp", PrecisionWord);
  }

  lemma FluidNoiseLines4UniformPart1()
    ensures WitnessedRange(FluidNoiseLines4, "uuuuuuuuuuu", UniformWord, 0, 3)
  {
  }

  lemma FluidNoiseLines4UniformPart2()
    ensures WitnessedRange(FluidNoiseLines4, "uuuuuuuuuuu", UniformWord, 3, 6)
  {
  }

  lemma FluidNoiseLines4UniformPart3()
    ensures WitnessedRange(FluidNoiseLines4, "uuuuuuuuuuu", UniformWord, 6, 8)
  {
  }

  lemma FluidNoiseLines4UniformPart4()
    ensures WitnessedRange(FluidNoiseLines4, "uuuuuuuuuuu", UniformWord, 8, 11)
  {
  }

  lemma FluidNoiseLines4PrecisionPart1()
    ensures WitnessedRange(FluidNoiseLines4, "ppppppppppp", PrecisionWord, 0, 3)
  {
  }

  lemma FluidNoiseLines4PrecisionPart2()
    ensures WitnessedRange(FluidNoiseLines4, "ppppppppppp", PrecisionWord, 3, 6)
  {
  }

  lemma FluidNoiseLines4PrecisionPart3()
    ensures WitnessedRange(FluidNoiseLines4, "ppppppppppp", PrecisionWord, 6, 8)
  {
  }

  lemma FluidNoiseLines4PrecisionPart4()
    ensures WitnessedRange(FluidNoiseLines4, "ppppppppppp", PrecisionWord, 8, 11)
  {
  }

  lemma FluidNoiseLines4NoHeaderWord()
    ensures Absent(Cat(FluidNoiseLines4), UniformWord) && Absent(Cat(FluidNoiseLines4), PrecisionWord)
    ensures Cat(FluidNoiseLines4) != [] && Cat(FluidNoiseLines4)[0] == '\n'
  {
    FluidNoiseLines4UniformPart1();
    FluidNoiseLines4UniformPart2();
    FluidNoiseLines4UniformPart3();
    FluidNoiseLines4UniformPart4();
    WitnessedJoin(FluidNoiseLines4, "uuuuuuuuuuu", UniformWord, 0, 3, 6);
    WitnessedJoin(FluidNoiseLines4, "uuuuuuuuuuu", UniformWord, 0, 6, 8);
    WitnessedJoin(FluidNoiseLines4, "uuuuuuuuuuu", UniformWord, 0, 8, 11);
    WitnessedAbsent(FluidNoiseLines4, "uuuuuuuuuuu", UniformWord);
    FluidNoiseLines4PrecisionPart1();
    FluidNoiseLines4PrecisionPart2();
    FluidNoiseLines4PrecisionPart3();
    FluidNoiseLines4PrecisionPart4();
    WitnessedJoin(FluidNoiseLines4, "ppppppppppp", PrecisionWord, 0, 3, 6);
    WitnessedJoin(FluidNoiseLines4, "ppppppppppp", PrecisionWord, 0, 6, 8);
    WitnessedJoin(FluidNoiseLines4, "ppppppppppp", PrecisionWord, 0, 8, 11);
    WitnessedAbsent(FluidNoiseLines4, "ppppppppppp", PrecisionWord);
  }

  lemma FluidNoiseLines5UniformPart1()
    ensures WitnessedRange(FluidNoiseLines5, "uuuuuu", UniformWord, 0, 3)
  {
  }

  lemma FluidNoiseLines5UniformPart2()
    ensures WitnessedRange(FluidNoiseLines5, "uuuuuu", UniformWord, 3, 6)
  {
  }

  lemma FluidNoiseLines5PrecisionPart1()
    ensures WitnessedRange(FluidNoiseLines5, "pppppp", PrecisionWord, 0, 3)
  {
  }

  lemma FluidNoiseLines5PrecisionPart2()
    ensures WitnessedRange(FluidNoiseLines5, "pppppp", PrecisionWord, 3, 6)
  {
  }

  lemma FluidNoiseLines5NoHeaderWord()
    ensures Absent(Cat(FluidNoiseLines5), UniformWord) && Absent(Cat(FluidNoiseLines5), PrecisionWord)
    ensures Cat(FluidNoiseLines5) != [] && Cat(FluidNoiseLines5)[0] == '\n'
  {
    FluidNoiseLines5UniformPart1();
    FluidNoiseLines5UniformPart2();
    WitnessedJoin(FluidNoiseLines5, "uuuuuu", UniformWord, 0, 3, 6);
    WitnessedAbsent(FluidNoiseLines5, "uuuuuu", UniformWord);
    FluidNoiseLines5PrecisionPart1();
    FluidNoiseLines5PrecisionPart2();
    WitnessedJoin(FluidNoiseLines5, "pppppp", PrecisionWord, 0, 3, 6);
    WitnessedAbsent(FluidNoiseLines5, "pppppp", PrecisionWord);
  }

  lemma FluidNoiseLines6UniformPart1()
    ensures WitnessedRange(FluidNoiseLines6, "uuiuu", UniformWord, 0, 2)
  {
  }

  lemma FluidNoiseLines6UniformPart2()
    ensures WitnessedRange(FluidNoiseLines6, "uuiuu", UniformWord, 2, 5)
  {
  }

  lemma FluidNoiseLines6PrecisionPart1()
    ensures WitnessedRange(FluidNoiseLines6, "ppppp", PrecisionWord, 0, 2)
  {
  }

  lemma FluidNoiseLines6PrecisionPart2()
    ensures WitnessedRange(FluidNoiseLines6, "ppppp", PrecisionWord, 2, 5)
  {
  }

  lemma FluidNoiseLines6NoHeaderWord()
    ensures Absent(Cat(FluidNoiseLines6), UniformWord) && Absent(Cat(FluidNoiseLines6), PrecisionWord)
    ensures Cat(FluidNoiseLines6) != [] && Cat(FluidNoiseLines6)[0] == '\n'
  {
    FluidNoiseLines6UniformPart1();
    FluidNoiseLines6UniformPart2();
    WitnessedJoin(FluidNoiseLines6, "uuiuu", UniformWord, 0, 2, 5);
    WitnessedAbsent(FluidNoiseLines6, "uuiuu", UniformWord);
    FluidNoiseLines6PrecisionPart1();
    FluidNoiseLines6PrecisionPart2();
    WitnessedJoin(FluidNoiseLines6, "ppppp", PrecisionWord, 0, 2, 5);
    WitnessedAbsent(FluidNoiseLines6, "ppppp", PrecisionWord);
  }

  lemma FluidNoiseHasNoHeaderWord()
    ensures Absent(Cat(FluidNoiseText), UniformWord) && Absent(Cat(FluidNoiseText), PrecisionWord)
  {
    FluidNoiseLines1NoHeaderWord();
    FluidNoiseLines2NoHeaderWord();
    FluidNoiseLines3NoHeaderWord();
    FluidNoiseLines4NoHeaderWord();
    FluidNoiseLines5NoHeaderWord();
    FluidNoiseLines6NoHeaderWord();
    var s := FluidNoiseLines1;
    RunsAbsent(s, FluidNoiseLines2, UniformWord);
    RunsAbsent(s, FluidNoiseLines2, PrecisionWord);
    s := s + FluidNoiseLines2;
    RunsAbsent(s, FluidNoiseLines3, UniformWord);
    RunsAbsent(s, FluidNoiseLines3, PrecisionWord);
    s := s + FluidNoiseLines3;
    RunsAbsent(s, FluidNoiseLines4, UniformWord);
    RunsAbsent(s, FluidNoiseLines4, PrecisionWord);
    s := s + FluidNoiseLines4;
    RunsAbsent(s, FluidNoiseLines5, UniformWord);
    RunsAbsent(s, FluidNoiseLines5, PrecisionWord);
    s := s + FluidNoiseLines5;
    RunsAbsent(s, FluidNoiseLines6, UniformWord);
    RunsAbsent(s, FluidNoiseLines6, PrecisionWord);
    s := s + FluidNoiseLines6;
  }

  lemma FluidFbmLines1UniformPart1()
    ensures WitnessedRange(FluidFbmLines1, "uuuuuuu", UniformWord, 0, 2)
  {
  }

  lemma FluidFbmLines1UniformPart2()
    ensures WitnessedRange(FluidFbmLines1, "uuuuuuu", UniformWord, 2, 5)
  {
  }

  lemma FluidFbmLines1UniformPart3()
    ensures WitnessedRange(FluidFbmLines1, "uuuuuuu", UniformWord, 5, 7)
  {
  }

  lemma FluidFbmLines1PrecisionPart1()
    ensures WitnessedRange(FluidFbmLines1, "rpppppr", PrecisionWord, 0, 2)
  {
  }

  lemma FluidFbmLines1PrecisionPart2()
    ensures WitnessedRange(FluidFbmLines1, "rpppppr", PrecisionWord, 2, 5)
  {
  }

  lemma FluidFbmLines1PrecisionPart3()
    ensures WitnessedRange(FluidFbmLines1, "rpppppr", PrecisionWord, 5, 7)
  {
  }

  lemma FluidFbmLines1NoHeaderWord()
    ensures Absent(Cat(FluidFbmLines1), UniformWord) && Absent(Cat(FluidFbmLines1), PrecisionWord)
  {
    FluidFbmLines1UniformPart1();
    FluidFbmLines1UniformPart2();
    FluidFbmLines1UniformPart3();
    WitnessedJoin(FluidFbmLines1, "uuuuuuu", UniformWord, 0, 2, 5);
    WitnessedJoin(FluidFbmLines1, "uuuuuuu", UniformWord, 0, 5, 7);
    WitnessedAbsent(FluidFbmLines1, "uuuuuuu", UniformWord);
    FluidFbmLines1PrecisionPart1();
    FluidFbmLines1PrecisionPart2();
    FluidFbmLines1PrecisionPart3();
    WitnessedJoin(FluidFbmLines1, "rpppppr", PrecisionWord, 0, 2, 5);
    WitnessedJoin(FluidFbmLines1, "rpppppr", PrecisionWord, 0, 5, 7);
    WitnessedAbsent(FluidFbmLines1, "rpppppr", PrecisionWord);
  }

  lemma FluidFbmLines2UniformPart1(iterations: string)
    requires Plain(iterations)
    ensures WitnessedRange(FluidFbmLines2(iterations), "uuouuuuu", UniformWord, 0, 3)
  {
  }

  lemma FluidFbmLines2UniformPart2(iterations: string)
    requires Plain(iterations)
    ensures WitnessedRange(FluidFbmLines2(iterations), "uuouuuuu", UniformWord, 3, 5)
  {
  }

  lemma FluidFbmLines2UniformPart3(iterations: string)
    requires Plain(iterations)
    ensures WitnessedRange(FluidFbmLines2(iterations), "uuouuuuu", UniformWord, 5, 8)
  {
  }

  lemma FluidFbmLines2PrecisionPart1(iterations: string)
    requires Plain(iterations)
    ensures WitnessedRange(FluidFbmLines2(iterations), "ppopprpr", PrecisionWord, 0, 3)
  {
  }

  lemma FluidFbmLines2PrecisionPart2(iterations: string)
    requires Plain(iterations)
    ensures WitnessedRange(FluidFbmLines2(iterations), "ppopprpr", PrecisionWord, 3, 5)
  {
  }

  lemma FluidFbmLines2PrecisionPart3(iterations: string)
    requires Plain(iterations)
    ensures WitnessedRange(FluidFbmLines2(iterations), "ppopprpr", PrecisionWord, 5, 8)
  {
  }

  lemma FluidFbmLines2NoHeaderWord(iterations: string)
    requires Plain(iterations)
    ensures Absent(Cat(FluidFbmLines2(iterations)), UniformWord) && Absent(Cat(FluidFbmLines2(iterations)), PrecisionWord)
    ensures Cat(FluidFbmLines2(iterations)) != [] && Cat(FluidFbmLines2(iterations))[0] == '\n'
  {
    FluidFbmLines2UniformPart1(iterations);
    FluidFbmLines2UniformPart2(iterations);
    FluidFbmLines2UniformPart3(iterations);
    WitnessedJoin(FluidFbmLines2(iterations), "uuouuuuu", UniformWord, 0, 3, 5);
    WitnessedJoin(FluidFbmLines2(iterations), "uuouuuuu", UniformWord, 0, 5, 8);
    WitnessedAbsent(FluidFbmLines2(iterations), "uuouuuuu", UniformWord);
    FluidFbmLines2PrecisionPart1(iterations);
    FluidFbmLines2PrecisionPart2(iterations);
    FluidFbmLines2PrecisionPart3(iterations);
    WitnessedJoin(FluidFbmLines2(iterations), "ppopprpr", PrecisionWord, 0, 3, 5);
    WitnessedJoin(FluidFbmLines2(iterations), "ppopprpr", PrecisionWord, 0, 5, 8);
    WitnessedAbsent(FluidFbmLines2(iterations), "ppopprpr", PrecisionWord);
  }

  lemma FluidFbmLines3UniformPart1()
    ensures WitnessedRange(FluidFbmLines3, "uuuuuiu", UniformWord, 0, 2)
  {
  }

  lemma FluidFbmLines3UniformPart2()
    ensures WitnessedRange(FluidFbmLines3, "uuuuuiu", UniformWord, 2, 5)
  {
  }

  lemma FluidFbmLines3UniformPart3()
    ensures WitnessedRange(FluidFbmLines3, "uuuuuiu", UniformWord, 5, 7)
  {
  }

  lemma FluidFbmLines3PrecisionPart1()
    ensures WitnessedRange(FluidFbmLines3, "prppppp", PrecisionWord, 0, 2)
  {
  }

  lemma FluidFbmLines3PrecisionPart2()
    ensures WitnessedRange(FluidFbmLines3, "prppppp", PrecisionWord, 2, 5)
  {
  }

  lemma FluidFbmLines3PrecisionPart3()
    ensures WitnessedRange(FluidFbmLines3, "prppppp", PrecisionWord, 5, 7)
  {
  }

  lemma FluidFbmLines3NoHeaderWord()
    ensures Absent(Cat(FluidFbmLines3), UniformWord) && Absent(Cat(FluidFbmLines3), PrecisionWord)
    ensures Cat(FluidFbmLines3) != [] && Cat(FluidFbmLines3)[0] == '\n'
  {
    FluidFbmLines3UniformPart1();
    FluidFbmLines3UniformPart2();
    FluidFbmLines3UniformPart3();
    WitnessedJoin(FluidFbmLines3, "uuuuuiu", UniformWord, 0, 2, 5);
    WitnessedJoin(FluidFbmLines3, "uuuuuiu", UniformWord, 0, 5, 7);
    WitnessedAbsent(FluidFbmLines3, "uuuuuiu", UniformWord);
    FluidFbmLines3PrecisionPart1();
    FluidFbmLines3PrecisionPart2();
    FluidFbmLines3PrecisionPart3();
    WitnessedJoin(FluidFbmLines3, "prppppp", PrecisionWord, 0, 2, 5);
    WitnessedJoin(FluidFbmLines3, "prppppp", PrecisionWord, 0, 5, 7);
    WitnessedAbsent(FluidFbmLines3, "prppppp", PrecisionWord);
  }

  lemma FluidFbmHasNoHeaderWord(iterations: string)
    requires Plain(iterations)
    ensures Absent(Cat(FluidFbmText(iterations)), UniformWord) && Absent(Cat(FluidFbmText(iterations)), PrecisionWord)
  {
    FluidFbmLines1NoHeaderWord();
    FluidFbmLines2NoHeaderWord(iterations);
    FluidFbmLines3NoHeaderWord();
    var s := FluidFbmLines1;
    RunsAbsent(s, FluidFbmLines2(iterations), UniformWord);
    RunsAbsent(s, FluidFbmLines2(iterations), PrecisionWord);
    s := s + FluidFbmLines2(iterations);
    RunsAbsent(s, FluidFbmLines3, UniformWord);
    RunsAbsent(s, FluidFbmLines3, PrecisionWord);
    s := s + FluidFbmLines3;
  }

  // ---- the templates

  lemma TunnelHeaderFree(scale: string, speed: string)
    ensures HeaderFree(TunnelSource(scale, speed))
  {
    TunnelRot2HasNoHeaderWord();
    HeaderFreeOf(TunnelSource(scale, speed));
  }

  lemma NoiseHeaderFree(scale: string, speed: string)
    ensures HeaderFree(NoiseSource(scale, speed))
  {
    NoiseHashHasNoHeaderWord();
    NoiseNoiseHasNoHeaderWord();
    NoiseFbmHasNoHeaderWord();
    HeaderFreeOf(NoiseSource(scale, speed));
  }

  lemma FractalNoiseHeaderFree(octaves: string, lacunarity: string, gain: string)
    requires Plain(octaves) && Plain(lacunarity) && Plain(gain)
    ensures HeaderFree(FractalNoiseSource(octaves, lacunarity, gain))
  {
    FractalRandomHasNoHeaderWord();
    FractalNoiseHasNoHeaderWord();
    FractalFbmHasNoHeaderWord(octaves, lacunarity, gain);
    HeaderFreeOf(FractalNoiseSource(octaves, lacunarity, gain));
  }

  lemma GeometricHeaderFree(numShapes: string, rotationSpeed: string, colorShift: string)
    ensures HeaderFree(GeometricSource(numShapes, rotationSpeed, colorShift))
  {
    GeometricSdCircleHasNoHeaderWord();
    GeometricSdBoxHasNoHeaderWord();
    GeometricSdTriangleHasNoHeaderWord();
    GeometricRotate2dHasNoHeaderWord();
    HeaderFreeOf(GeometricSource(numShapes, rotationSpeed, colorShift));
  }

  lemma FluidHeaderFree(scale: string, speed: string, iterations: string, closed: bool)
    requires Plain(iterations)
    ensures HeaderFree(FluidSource(scale, speed, iterations, closed))
  {
    FluidHashHasNoHeaderWord();
    FluidNoiseHasNoHeaderWord();
    FluidFbmHasNoHeaderWord(iterations);
    HeaderFreeOf(FluidSource(scale, speed, iterations, closed));
  }
}
