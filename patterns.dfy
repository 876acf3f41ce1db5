/**
 * The twelve GLSL templates of the shader generator. Every template is a
 * header (precision and the two uniforms), a run of helper functions, and
 * `void main() { ... gl_FragColor = ...; }`, given here character for
 * character, with the drawn parameters printed in where the templates put
 * them.
 */
module Patterns {
  import opened JsString
  import opened Numerals

  const PrecisionLine := "precision mediump float;"
  const TimeUniform := "uniform float time;"
  const ResolutionUniform := "uniform vec2 resolution;"
  const MainSignature := "void main()"
  const FragColorAssign := "gl_FragColor ="

  /**
   * A template's text. `outer` is the indentation of the closing backtick
   * line; the shader lines sit two spaces deeper. `funcs` are the helper
   * functions in order, each given by the pieces of its text before its
   * closing brace; `lead` is the pieces of `main` before
   * `gl_FragColor =`, `output` the text after it, and `closed` whether
   * `main`'s closing brace is there.
   */
  datatype PatternSource = PatternSource(outer: nat, funcs: seq<seq<string>>, lead: seq<string>, output: string, closed: bool)

  /** Pieces of template text, one after the other. */
  function Cat(pieces: seq<string>): string {
    if pieces == [] then [] else pieces[0] + Cat(pieces[1..])
  }

  /** No piece holds the character `c`. */
  predicate Avoids(pieces: seq<string>, c: char) {
    forall i :: 0 <= i < |pieces| ==> c !in pieces[i]
  }

  lemma {:induction false} CatAvoids(pieces: seq<string>, c: char)
    requires Avoids(pieces, c)
    ensures c !in Cat(pieces)
    decreases |pieces|
  {
    if pieces != [] {
      CatAvoids(pieces[1..], c);
    }
  }

  function Spaces(n: nat): (s: string)
    ensures |s| == n && forall c :: c in s ==> c == ' '
  {
    if n == 0 then [] else " " + Spaces(n - 1)
  }

  /** A line break followed by the indentation of the shader's top-level lines. */
  function Newline(p: PatternSource): string {
    "\n" + Spaces(p.outer + 2)
  }

  /** A helper function's text, up to and including its closing brace. */
  function FuncText(f: seq<string>): string {
    Cat(f) + "}"
  }

  /** The helper functions, each after a blank line. */
  function Join(funcs: seq<seq<string>>, nl: string): string {
    if funcs == [] then [] else nl + nl + FuncText(funcs[0]) + Join(funcs[1..], nl)
  }

  /** The three declarations every template starts with, one per line. */
  function Header(nl: string): string {
    PrecisionLine + nl + TimeUniform + nl + ResolutionUniform
  }

  /** The declarations before `main`, without surrounding whitespace. */
  function Core(p: PatternSource): string {
    Header(Newline(p)) + Join(p.funcs, Newline(p))
  }

  /** The body of `main`: the text between its braces. */
  function Body(p: PatternSource): string {
    Cat(p.lead) + FragColorAssign + p.output
  }

  /** The text before `void main()`: the declarations between blank lines. */
  function Prefix(p: PatternSource): string {
    Newline(p) + Core(p) + (Newline(p) + Newline(p))
  }

  /** What follows the body: `main`'s closing brace, when there is one, and the last line. */
  function Tail(p: PatternSource): string {
    (if p.closed then "}" else "") + ("\n" + Spaces(p.outer))
  }

  /** `main` from its signature on. */
  function MainPart(p: PatternSource): string {
    MainSignature + " {" + (Body(p) + Tail(p))
  }

  /** The string the pattern method returns. */
  function Render(p: PatternSource): string {
    Prefix(p) + MainPart(p)
  }

  // ------------------------------------------------------------ draws

  /** The values `Math.random()` returns, in order. */
  ghost predicate Tape(rng: nat -> real) {
    forall i :: Unit(rng(i))
  }

  /** `(Math.random() * a + b).toFixed(f)`. */
  function Fixed(r: real, a: real, b: real, f: nat): (s: string)
    requires Unit(r) && 0.0 <= a <= 10.0 && 0.0 <= b <= 10.0
    ensures IsNumeral(s) && s != []
  {
    assert 0.0 <= r * a <= a by {
      assert 0.0 * a <= r * a <= 1.0 * a;
    }
    ToFixed(r * a + b, f)
  }

  /** `Math.floor(Math.random() * 4) + 3`: 3 to 6 octaves. */
  function Octaves(r: real): (n: nat)
    requires Unit(r)
    ensures 3 <= n <= 6
  {
    FloorScaled(r, 4) + 3
  }

  /** `Math.floor(Math.random() * 5) + 3`: 3 to 7 shapes. */
  function NumShapes(r: real): (n: nat)
    requires Unit(r)
    ensures 3 <= n <= 7
  {
    FloorScaled(r, 5) + 3
  }

  /** `Math.floor(Math.random() * 5) + 5`: 5 to 9 iterations. */
  function Iterations(r: real): (n: nat)
    requires Unit(r)
    ensures 5 <= n <= 9
  {
    FloorScaled(r, 5) + 5
  }

  /** `Math.floor(Math.random() * 8) + 4`: 4 to 11 segments, never 12. */
  function Segments(r: real): (n: nat)
    requires Unit(r)
    ensures 4 <= n <= 11
  {
    FloorScaled(r, 8) + 4
  }

  /** `Math.floor(Math.random() * 100) + 100`: 100 to 199 stars, never 200. */
  function NumStars(r: real): (n: nat)
    requires Unit(r)
    ensures 100 <= n <= 199
  {
    FloorScaled(r, 100) + 100
  }

  /** `Math.floor(Math.random() * 3)`: colour mode 0, 1 or 2. */
  function ColorMode(r: real): (n: nat)
    requires Unit(r)
    ensures n <= 2
  {
    FloorScaled(r, 3)
  }

  /** `Math.floor(Math.random() * 20) + 5`: 5 to 24 rays. */
  function NumRays(r: real): (n: nat)
    requires Unit(r)
    ensures 5 <= n <= 24
  {
    FloorScaled(r, 20) + 5
  }

  /** `Math.floor(Math.random() * 10) + 5`: 5 to 14 points. */
  function NumPoints(r: real): (n: nat)
    requires Unit(r)
    ensures 5 <= n <= 14
  {
    FloorScaled(r, 10) + 5
  }

  /** Every value of a draw `Math.floor(Math.random() * k) + c` in `[c, c + k)` is produced by some random value. */
  lemma DrawCovers(k: nat, c: nat, n: nat)
    requires c <= n < c + k
    ensures exists r :: Unit(r) && FloorScaled(r, k) + c == n
  {
    FloorScaledOnto(n - c, k);
  }

  /** A GLSL loop bound: the decimal digits of a positive integer. */
  function LoopBound(n: nat): (s: string)
    requires n >= 1
    ensures AllDigits(s) && |s| >= 1 && s[0] != '0' && DigitsValue(s) == n
  {
    DecimalRoundTrip(n);
    Decimal(n)
  }

  /** `${b}` for a boolean `b`. */
  function BoolText(b: bool): string {
    if b then "true" else "false"
  }

  // -------------------------------------------------------- templates

  const N2 := "\n  "
  const N4 := "\n    "
  const N6 := "\n      "
  const N8 := "\n        "
  const N10 := "\n          "
  const N12 := "\n            "

  /** The four colours `colorGradient` picks from. */
  const GradientColors: seq<string> := ["vec3(0.5, 0.0, 0.5)", "vec3(0.0, 0.5, 0.8)", "vec3(0.8, 0.2, 0.1)", "vec3(0.1, 0.6, 0.2)"]

  // Each template is written as the text of its helper functions and of
  // its `main`, line by line, over the texts it prints in; then once more
  // drawing those texts from the random values at `at`, `at + 1`, ...
  // In the templates that `mixedPattern` can pick, lines are cut into
  // pieces of at most twenty characters and longer texts into runs of a
  // few lines (`...Lines1`, `...Lines2`, ... in order), so that the
  // certificates in `Composability` look at one short run at a time.
  // ---- colorGradient
  /** `main` of `colorGradient`, up to its final `gl_FragColor =`. */
  function GradientMainText(color1: string, color2: string): seq<string> {
    [ N8, "vec2 uv = gl_FragCoord.xy / resolution.xy;",
      N8, "float t = sin(time * 0.001) * 0.5 + 0.5;",
      N8, "vec3 color = mix(", color1, ", ", color2, ", length(uv - 0.5) + sin(time * 0.0005 + uv.x * 10.0) * 0.2);",
      N8 ]
  }
  function GradientSource(color1: string, color2: string): PatternSource {
    PatternSource(4, [],
      GradientMainText(color1, color2),
      " vec4(color, 1.0);" + N6, true)
  }

  function ColorGradient(rng: nat -> real, at: nat): (p: PatternSource)
    requires Tape(rng)
    ensures p.closed && |p.funcs| == 0
  {
    GradientSource(GradientColors[FloorScaled(rng(at), 4)], GradientColors[FloorScaled(rng(at + 1), 4)])
  }

  // ---- plasma
  /** `main` of `plasma`, up to its final `gl_FragColor =`. */
  function PlasmaMainText(speed: string, scale: string): seq<string> {
    PlasmaMainLines1(speed) + PlasmaMainLines2(scale) + PlasmaMainLines3 +
    PlasmaMainLines4
  }
  function PlasmaMainLines1(speed: string): seq<string> {
    [ N8, "vec2 uv = ", "gl_FragCoord.xy ", "/ resolution.xy;",
      N8, "float t = time * ", speed, ";" ]
  }
  function PlasmaMainLines2(scale: string): seq<string> {
    [ N8,
      N8, "float x = uv.x * ", scale, " + sin(t) * 2.0;",
      N8, "float y = uv.y * ", scale, " + cos(t) * 2.0;" ]
  }
  const PlasmaMainLines3: seq<string> :=
    [ N8,
      N8, "float r = sin(x + ", "y + t) * 0.5 + 0.5;",
      N8, "float ", "g = sin(x - y + t ", "* 0.7) * 0.5 + 0.5;" ]
  const PlasmaMainLines4: seq<string> :=
    [ N8, "float b = sin(", "sqrt(x*x + y*y) + t ", "* 1.2) * 0.5 + 0.5;",
      N8,
      N8 ]
  function PlasmaSource(speed: string, scale: string): PatternSource {
    PatternSource(4, [],
      PlasmaMainText(speed, scale),
      " vec4(r, g, b, 1.0);" + N6, true)
  }

  function Plasma(rng: nat -> real, at: nat): (p: PatternSource)
    requires Tape(rng)
    ensures p.closed && |p.funcs| == 0
  {
    PlasmaSource(Fixed(rng(at), 0.005, 0.001, 4), Fixed(rng(at + 1), 10.0, 5.0, 1))
  }

  // ---- rays
  /** `main` of `rays`, up to its final `gl_FragColor =`. */
  function RaysMainText(numRays: string, speed: string): seq<string> {
    RaysMainLines1 + RaysMainLines2 + RaysMainLines3 + RaysMainLines4(numRays) +
    RaysMainLines5 + RaysMainLines6 + RaysMainLines7 + RaysMainLines8(speed) +
    RaysMainLines9
  }
  const RaysMainLines1: seq<string> :=
    [ N8, "vec2 uv = ", "gl_FragCoord.xy ", "/ resolution.xy;",
      N8, "vec2 center ", "= vec2(0.5, 0.5);" ]
  const RaysMainLines2: seq<string> :=
    [ N8, "vec2 ", "dir = uv - center;",
      N8, "float angle = ", "atan(dir.y, dir.x);" ]
  const RaysMainLines3: seq<string> :=
    [ N8, "float ", "dist = length(dir);",
      N8,
      N8, "float ", "brightness = 0.0;" ]
  function RaysMainLines4(numRays: string): seq<string> {
    [ N8, "for (int i = 0; i < ", numRays, "; i++) {",
      N10, "float ", "rayAngle = float(i) ", "* 3.14159 * 2.0 / ", numRays, ".0;" ]
  }
  const RaysMainLines5: seq<string> :=
    [ N10, "float angleDiff ", "= mod(abs(angle ", "- rayAngle), ", "3.14159 * 2.0);" ]
  const RaysMainLines6: seq<string> :=
    [ N10, "angleDiff = min", "(angleDiff, 3.14159 ", "* 2.0 - angleDiff);",
      N10 ]
  const RaysMainLines7: seq<string> :=
    [ N10, "brightness += 0.2 ", "/ (0.1 + 10.0 * ang", "leDiff * angleDiff);",
      N8, "}" ]
  function RaysMainLines8(speed: string): seq<string> {
    [ N8,
      N8, "brightness ", "*= (sin(time * ", speed, " + ", "dist * 5.0) * 0.5 + ", "0.5) * (1.0 - dist);" ]
  }
  const RaysMainLines9: seq<string> :=
    [ N8, "vec3 color = ", "vec3(brightness) * ", "vec3(0.8, 0.7, 0.2);",
      N8,
      N8 ]
  function RaysSource(numRays: string, speed: string): PatternSource {
    PatternSource(4, [],
      RaysMainText(numRays, speed),
      " vec4(color, 1.0);" + N6, true)
  }

  function Rays(rng: nat -> real, at: nat): (p: PatternSource)
    requires Tape(rng)
    ensures p.closed && |p.funcs| == 0
  {
    RaysSource(LoopBound(NumRays(rng(at))), Fixed(rng(at + 1), 0.5, 0.1, 2))
  }

  // ---- tunnel
  /** `rot2` of `tunnel`, up to its closing brace. */
  const TunnelRot2Text: seq<string> :=
    TunnelRot2Lines1 + TunnelRot2Lines2
  const TunnelRot2Lines1: seq<string> :=
    [ "mat2 rot2(float a) {",
      N8, "float c = cos(a);",
      N8, "float s = sin(a);" ]
  const TunnelRot2Lines2: seq<string> :=
    [ N8, "return ", "mat2(c, -s, s, c);",
      N6 ]
  /** `main` of `tunnel`, up to its final `gl_FragColor =`. */
  function TunnelMainText(scale: string, speed: string): seq<string> {
    TunnelMainLines1 + TunnelMainLines2(scale, speed) + TunnelMainLines3 +
    TunnelMainLines4 + TunnelMainLines5 + TunnelMainLines6 + TunnelMainLines7
  }
  const TunnelMainLines1: seq<string> :=
    [ N8, "vec2 uv = ", "(gl_FragCoord.xy ", "/ resolution.xy) ", "* 2.0 - 1.0;",
      N8, "uv.x *= resolution.x", " / resolution.y;" ]
  function TunnelMainLines2(scale: string, speed: string): seq<string> {
    [ N8,
      N8, "float t = time * ", speed, ";",
      N8, "float z = t + ", "1.0 / (length(uv) * ", scale, ");" ]
  }
  const TunnelMainLines3: seq<string> :=
    [ N8, "vec2 ", "tuv = uv * rot2(t ", "* 0.2) / length(uv);",
      N8,
      N8, "vec3 ", "color = vec3(0.0);" ]
  const TunnelMainLines4: seq<string> :=
    [ N8, "float angle = ", "atan(tuv.y, tuv.x);",
      N8, "float radius ", "= length(tuv);" ]
  const TunnelMainLines5: seq<string> :=
    [ N8,
      N8, "float ", "pattern = sin(angle ", "* 8.0 + z * 10.0);",
      N8, "pattern += sin(radiu", "s * 10.0 + z * 8.0);" ]
  const TunnelMainLines6: seq<string> :=
    [ N8, "pattern ", "= mod(pattern, 1.0);",
      N8,
      N8, "color = mix(",
      N10, "vec3(0.2, 0.0, 0.5)," ]
  const TunnelMainLines7: seq<string> :=
    [ N10, "vec3(0.0, 0.4, 0.8),",
      N10, "pattern",
      N8, ");",
      N8,
      N8 ]
  function TunnelSource(scale: string, speed: string): PatternSource {
    PatternSource(4, [TunnelRot2Text],
      TunnelMainText(scale, speed),
      " vec4(color, 1.0);" + N6, true)
  }

  function Tunnel(rng: nat -> real, at: nat): (p: PatternSource)
    requires Tape(rng)
    ensures p.closed && |p.funcs| == 1
  {
    TunnelSource(Fixed(rng(at), 5.0, 3.0, 1), Fixed(rng(at + 1), 0.003, 0.001, 4))
  }

  // ---- noise
  /** `hash` of `noise`, up to its closing brace. */
  const NoiseHashText: seq<string> :=
    NoiseHashLines1 + NoiseHashLines2
  const NoiseHashLines1: seq<string> :=
    [ "// ", "Simple hash function",
      N6, "float hash(vec2 p) {",
      N8, "p = fract(p * vec2", "(123.34, 456.21));" ]
  const NoiseHashLines2: seq<string> :=
    [ N8, "p += ", "dot(p, p + 45.32);",
      N8, "return ", "fract(p.x * p.y);",
      N6 ]
  /** `noise` of `noise`, up to its closing brace. */
  const NoiseNoiseText: seq<string> :=
    NoiseNoiseLines1 + NoiseNoiseLines2 + NoiseNoiseLines3 + NoiseNoiseLines4
  const NoiseNoiseLines1: seq<string> :=
    [ "// 2D noise",
      N6, "float ", "noise(vec2 p) {",
      N8, "vec2 i = floor(p);",
      N8, "vec2 f = fract(p);" ]
  const NoiseNoiseLines2: seq<string> :=
    [ N8, "f = f * ", "f * (3.0 - 2.0 * f);",
      N8,
      N8, "float a = hash(i);" ]
  const NoiseNoiseLines3: seq<string> :=
    [ N8, "float b = hash(i ", "+ vec2(1.0, 0.0));",
      N8, "float c = hash(i ", "+ vec2(0.0, 1.0));" ]
  const NoiseNoiseLines4: seq<string> :=
    [ N8, "float d = hash(i ", "+ vec2(1.0, 1.0));",
      N8,
      N8, "return mix(mix(a, ", "b, f.x), mix(c, ", "d, f.x), f.y);",
      N6 ]
  /** `fbm` of `noise`, up to its closing brace. */
  const NoiseFbmText: seq<string> :=
    NoiseFbmLines1 + NoiseFbmLines2 + NoiseFbmLines3 + NoiseFbmLines4
  const NoiseFbmLines1: seq<string> :=
    [ "// Fractal ", "Brownian Motion",
      N6, "float fbm(vec2 p) {",
      N8, "float sum = 0.0;" ]
  const NoiseFbmLines2: seq<string> :=
    [ N8, "float amp = 1.0;",
      N8, "float freq = 1.0;",
      N8,
      N8, "for (int ", "i = 0; i < 4; i++) {" ]
  const NoiseFbmLines3: seq<string> :=
    [ N10, "sum += noise(p ", "* freq) * amp;",
      N10, "amp *= 0.5;",
      N10, "freq *= 2.0;" ]
  const NoiseFbmLines4: seq<string> :=
    [ N8, "}",
      N8,
      N8, "return sum;",
      N6 ]
  /** `main` of `noise`, up to its final `gl_FragColor =`. */
  function NoiseMainText(scale: string, speed: string): seq<string> {
    NoiseMainLines1(speed) + NoiseMainLines2(scale) + NoiseMainLines3 + NoiseMainLines4
  }
  function NoiseMainLines1(speed: string): seq<string> {
    [ N8, "vec2 uv = ", "gl_FragCoord.xy ", "/ resolution.xy;",
      N8, "float t = time * ", speed, ";" ]
  }
  function NoiseMainLines2(scale: string): seq<string> {
    [ N8,
      N8, "vec2 p = uv * ", scale, ";",
      N8, "float ", "n = fbm(p + t);" ]
  }
  const NoiseMainLines3: seq<string> :=
    [ N8,
      N8, "vec3 color1 = ", "vec3(0.2, 0.5, 0.7);",
      N8, "vec3 color2 = ", "vec3(0.7, 0.3, 0.2);" ]
  const NoiseMainLines4: seq<string> :=
    [ N8, "vec3 color = mix", "(color1, color2, n);",
      N8,
      N8 ]
  function NoiseSource(scale: string, speed: string): PatternSource {
    PatternSource(4, [NoiseHashText, NoiseNoiseText, NoiseFbmText],
      NoiseMainText(scale, speed),
      " vec4(color, 1.0);" + N6, true)
  }

  function Noise(rng: nat -> real, at: nat): (p: PatternSource)
    requires Tape(rng)
    ensures p.closed && |p.funcs| == 3
  {
    NoiseSource(Fixed(rng(at), 10.0, 5.0, 1), Fixed(rng(at + 1), 0.001, 0.0005, 4))
  }

  // ---- cells
  /** `voronoi` of `cells`, up to its closing brace. */
  function CellsVoronoiText(numPoints: string, speed: string): seq<string> {
    [ "// Distance to nearest point",
      N6, "float voronoi(vec2 p) {",
      N8, "float minDist = 1.0;",
      N8,
      N8, "for (int i = 0; i < ", numPoints, "; i++) {",
      N10, "float t = time * ", speed, " + float(i) * 0.2;",
      N10, "vec2 pointPos = 0.5 + 0.5 * vec2(",
      N12, "sin(t * 0.3 + float(i)),",
      N12, "cos(t * 0.4 + float(i) * 0.7)",
      N10, ");",
      N10,
      N10, "float dist = distance(p, pointPos);",
      N10, "minDist = min(minDist, dist);",
      N8, "}",
      N8,
      N8, "return minDist;",
      N6 ]
  }
  /** `main` of `cells`, up to its final `gl_FragColor =`. */
  const CellsMainText: seq<string> :=
    [ N8, "vec2 uv = gl_FragCoord.xy / resolution.xy;",
      N8, "float t = time * 0.001;",
      N8,
      N8, "float d = voronoi(uv);",
      N8, "float cell = smoothstep(0.0, 0.1, d) * (1.0 - smoothstep(0.1, 0.2, d));",
      N8,
      N8, "vec3 color = mix(",
      N10, "vec3(0.8, 0.2, 0.3),",
      N10, "vec3(0.1, 0.3, 0.6),",
      N10, "d * 3.0",
      N8, ");",
      N8,
      N8, "color += cell * vec3(1.0);",
      N8, "color += (1.0 - smoothstep(0.0, 0.05, d)) * vec3(1.0);",
      N8,
      N8 ]
  function CellsSource(numPoints: string, speed: string): PatternSource {
    PatternSource(4, [CellsVoronoiText(numPoints, speed)],
      CellsMainText,
      " vec4(color, 1.0);" + N6, true)
  }

  function Cells(rng: nat -> real, at: nat): (p: PatternSource)
    requires Tape(rng)
    ensures p.closed && |p.funcs| == 1
  {
    CellsSource(LoopBound(NumPoints(rng(at))), Fixed(rng(at + 1), 0.01, 0.005, 4))
  }

  // ---- fractalNoise
  /** `random` of `fractalNoise`, up to its closing brace. */
  const FractalRandomText: seq<string> :=
    [ "float ", "random(vec2 st) {",
      N6, "return fract", "(sin(dot(st.xy, vec2", "(12.9898, 78.233))) ", "* 43758.5453123);",
      N4 ]
  /** `noise` of `fractalNoise`, up to its closing brace. */
  const FractalNoiseText: seq<string> :=
    FractalNoiseLines1 + FractalNoiseLines2 + FractalNoiseLines3 + FractalNoiseLines4 +
    FractalNoiseLines5 + FractalNoiseLines6
  const FractalNoiseLines1: seq<string> :=
    [ "float ", "noise(vec2 st) {",
      N6, "vec2 i = floor(st);",
      N6, "vec2 f = fract(st);" ]
  const FractalNoiseLines2: seq<string> :=
    [ N6,
      N6, "// Four corners ", "in 2D of a tile",
      N6, "float a = random(i);" ]
  const FractalNoiseLines3: seq<string> :=
    [ N6, "float b = random(i ", "+ vec2(1.0, 0.0));",
      N6, "float c = random(i ", "+ vec2(0.0, 1.0));" ]
  const FractalNoiseLines4: seq<string> :=
    [ N6, "float d = random(i ", "+ vec2(1.0, 1.0));",
      N6,
      N6, "// ", "Cubic Hermite curve" ]
  const FractalNoiseLines5: seq<string> :=
    [ N6, "vec2 u = f * ", "f * (3.0 - 2.0 * f);",
      N6,
      N6, "// Mix 4 ", "corners percentages" ]
  const FractalNoiseLines6: seq<string> :=
    [ N6, "return mix(mix(a, ", "b, u.x), mix(c, ", "d, u.x), u.y);",
      N4 ]
  /** `fbm` of `fractalNoise`, up to its closing brace. */
  function FractalFbmText(octaves: string, lacunarity: string, gain: string): seq<string> {
    FractalFbmLines1 + FractalFbmLines2(octaves) + FractalFbmLines3(lacunarity) +
    FractalFbmLines4(gain)
  }
  const FractalFbmLines1: seq<string> :=
    [ "float fbm(vec2 st) {",
      N6, "float value = 0.0;",
      N6, "float ", "amplitude = 0.5;" ]
  function FractalFbmLines2(octaves: string): seq<string> {
    [ N6, "float ", "frequency = 1.0;",
      N6,
      N6, "for (int i = 0; i < ", octaves, "; i++) {" ]
  }
  function FractalFbmLines3(lacunarity: string): seq<string> {
    [ N8, "value += amplitude ", "* noise(st ", "* frequency);",
      N8, "frequency *= ", lacunarity, ";" ]
  }
  function FractalFbmLines4(gain: string): seq<string> {
    [ N8, "amplitude *= ", gain, ";",
      N6, "}",
      N6,
      N6, "return value;",
      N4 ]
  }
  /** `main` of `fractalNoise`, up to its final `gl_FragColor =`. */
  const FractalMainText: seq<string> :=
    FractalMainLines1 + FractalMainLines2 + FractalMainLines3 + FractalMainLines4 +
    FractalMainLines5 + FractalMainLines6 + FractalMainLines7 + FractalMainLines8 +
    FractalMainLines9 + FractalMainLines10 + FractalMainLines11
  const FractalMainLines1: seq<string> :=
    [ N6, "vec2 uv = ", "gl_FragCoord.xy ", "/ resolution.xy;",
      N6, "float ", "t = time * 0.001;" ]
  const FractalMainLines2: seq<string> :=
    [ N6,
      N6, "// Adjust coords ", "for aspect ratio",
      N6, "vec2 st = uv;",
      N6, "st.x *= resolution.x", " / resolution.y;" ]
  const FractalMainLines3: seq<string> :=
    [ N6,
      N6, "// Apply ", "fbm with motion",
      N6, "vec2 q = vec2(0.0);",
      N6, "q.x ", "= fbm(st + 0.1 * t);" ]
  const FractalMainLines4: seq<string> :=
    [ N6, "q.y = ", "fbm(st + vec2(1.0));",
      N6,
      N6, "vec2 r = vec2(0.0);",
      N6, "r.x = fbm(st + ", "1.0 * q + vec2(1.7, ", "9.2) + 0.15 * t);" ]
  const FractalMainLines5: seq<string> :=
    [ N6, "r.y = fbm(st + ", "1.0 * q + vec2(8.3, ", "2.8) + 0.126 * t);",
      N6,
      N6, "float ", "f = fbm(st + r);" ]
  const FractalMainLines6: seq<string> :=
    [ N6,
      N6, "vec3 color = mix(",
      N8, "vec3(0.101961, ", "0.619608, 0.666667)," ]
  const FractalMainLines7: seq<string> :=
    [ N8, "vec3(0.666667, ", "0.666667, 0.498039),",
      N8, "clamp((f * ", "f) * 4.0, 0.0, 1.0)" ]
  const FractalMainLines8: seq<string> :=
    [ N6, ");",
      N6,
      N6, "color = mix(",
      N8, "color," ]
  const FractalMainLines9: seq<string> :=
    [ N8, "vec3(0.0, ", "0.0, 0.164706),",
      N8, "clamp(length(q), ", "0.0, 1.0)",
      N6, ");" ]
  const FractalMainLines10: seq<string> :=
    [ N6,
      N6, "color = mix(",
      N8, "color,",
      N8, "vec3(0.666667, ", "1.0, 1.0)," ]
  const FractalMainLines11: seq<string> :=
    [ N8, "clamp(length(r.x), ", "0.0, 1.0)",
      N6, ");",
      N6,
      N6 ]
  function FractalNoiseSource(octaves: string, lacunarity: string, gain: string): PatternSource {
    PatternSource(2, [FractalRandomText, FractalNoiseText, FractalFbmText(octaves, lacunarity, gain)],
      FractalMainText,
      " vec4(color, 1.0);" + N4, true)
  }

  function FractalNoise(rng: nat -> real, at: nat): (p: PatternSource)
    requires Tape(rng)
    ensures p.closed && |p.funcs| == 3
  {
    FractalNoiseSource(LoopBound(Octaves(rng(at))), Fixed(rng(at + 1), 1.5, 1.5, 2), Fixed(rng(at + 2), 0.3, 0.5, 2))
  }

  // ---- geometricPatterns
  /** `sdCircle` of `geometricPatterns`, up to its closing brace. */
  const GeometricSdCircleText: seq<string> :=
    [ "float sdCircle(vec2 ", "p, float r) {",
      N6, "return ", "length(p) - r;",
      N4 ]
  /** `sdBox` of `geometricPatterns`, up to its closing brace. */
  const GeometricSdBoxText: seq<string> :=
    [ "float sdBox(vec2 ", "p, vec2 b) {",
      N6, "vec2 d = abs(p) - b;",
      N6, "return length(max(d,", " 0.0)) + min(", "max(d.x, d.y), 0.0);",
      N4 ]
  /** `sdTriangle` of `geometricPatterns`, up to its closing brace. */
  const GeometricSdTriangleText: seq<string> :=
    GeometricSdTriangleLines1 + GeometricSdTriangleLines2 + GeometricSdTriangleLines3
  const GeometricSdTriangleLines1: seq<string> :=
    [ "float ", "sdTriangle(vec2 p) {",
      N6, "const ", "float k = sqrt(3.0);",
      N6, "p.x ", "= abs(p.x) - 1.0;" ]
  const GeometricSdTriangleLines2: seq<string> :=
    [ N6, "p.y = p.y + 1.0 / k;",
      N6, "if (p.x + k * p.y ", "> 0.0) p = vec2(p.x ", "- k * p.y, -k ", "* p.x - p.y) / 2.0;" ]
  const GeometricSdTriangleLines3: seq<string> :=
    [ N6, "p.x -= clamp(p.x, ", "-2.0, 0.0);",
      N6, "return -length(p) ", "* sign(p.y);",
      N4 ]
  /** `rotate2d` of `geometricPatterns`, up to its closing brace. */
  const GeometricRotate2dText: seq<string> :=
    [ "mat2 rotate2d(float ", "angle) {",
      N6, "return ", "mat2(cos(angle), ", "-sin(angle), sin(", "angle), cos(angle));",
      N4 ]
  /** `main` of `geometricPatterns`, up to its final `gl_FragColor =`. */
  function GeometricMainText(numShapes: string, rotationSpeed: string, colorShift: string): seq<string> {
    GeometricMainLines1 + GeometricMainLines2 + GeometricMainLines3(numShapes) +
    GeometricMainLines4(numShapes) + GeometricMainLines5 +
    GeometricMainLines6(rotationSpeed) + GeometricMainLines7 + GeometricMainLines8 +
    GeometricMainLines9 + GeometricMainLines10 + GeometricMainLines11 +
    GeometricMainLines12 + GeometricMainLines13 + GeometricMainLines14(colorShift) +
    GeometricMainLines15 + GeometricMainLines16 + GeometricMainLines17 +
    GeometricMainLines18 + GeometricMainLines19 + GeometricMainLines20
  }
  const GeometricMainLines1: seq<string> :=
    [ N6, "vec2 uv = ", "(gl_FragCoord.xy ", "/ resolution.xy) ", "* 2.0 - 1.0;",
      N6, "uv.x *= resolution.x", " / resolution.y;" ]
  const GeometricMainLines2: seq<string> :=
    [ N6, "float ", "t = time * 0.001;",
      N6,
      N6, "float dist = 1e10;",
      N6 ]
  function GeometricMainLines3(numShapes: string): seq<string> {
    [ N6, "// Create multiple ", "rotating shapes",
      N6, "for (int i = 0; i < ", numShapes, "; i++) {" ]
  }
  function GeometricMainLines4(numShapes: string): seq<string> {
    [ N8, "float fi ", "= float(i) / float(", numShapes, ");",
      N8, "float radius ", "= 0.2 + fi * 0.3;" ]
  }
  const GeometricMainLines5: seq<string> :=
    [ N8, "vec2 offset = vec2(",
      N10, "cos(fi * 6.28 + t),",
      N10, "sin(fi * 6.28 + t)" ]
  function GeometricMainLines6(rotationSpeed: string): seq<string> {
    [ N8, ") * 0.5;",
      N8,
      N8, "vec2 p ", "= uv - offset * 0.3;",
      N8, "p = rotate2d(t ", "* float(i+1) * ", rotationSpeed, ") * p;" ]
  }
  const GeometricMainLines7: seq<string> :=
    [ N8,
      N8, "float shape;",
      N8, "int ", "shapeType = i % 3;",
      N8 ]
  const GeometricMainLines8: seq<string> :=
    [ N8, "if ", "(shapeType == 0) {",
      N10, "// Circle",
      N10, "shape = sdCircle(p, ", "radius * 0.2);" ]
  const GeometricMainLines9: seq<string> :=
    [ N8, "} else if ", "(shapeType == 1) {",
      N10, "// Square",
      N10, "shape = sdBox(p, v", "ec2(radius * 0.15));" ]
  const GeometricMainLines10: seq<string> :=
    [ N8, "} else {",
      N10, "// Triangle",
      N10, "p *= 0.8;",
      N10, "shape = ", "sdTriangle(p * (1.0 ", "/ (radius * 0.3)));" ]
  const GeometricMainLines11: seq<string> :=
    [ N8, "}",
      N8,
      N8, "dist ", "= min(dist, shape);",
      N6, "}" ]
  const GeometricMainLines12: seq<string> :=
    [ N6,
      N6, "// Create color ", "based on distance",
      N6, "vec3 ", "color = vec3(0.0);" ]
  const GeometricMainLines13: seq<string> :=
    [ N6,
      N6, "// Edge glow",
      N6, "float glow ", "= 0.003 / ", "(abs(dist) + 0.001);" ]
  function GeometricMainLines14(colorShift: string): seq<string> {
    [ N6,
      N6, "// Base ", "color from distance ",
      N6, "if (", colorShift, ") {" ]
  }
  const GeometricMainLines15: seq<string> :=
    [ N8, "color += vec3(",
      N10, "0.5 + 0.5 * sin(dist", " * 20.0 + t * 2.0)," ]
  const GeometricMainLines16: seq<string> :=
    [ N10, "0.5 + 0.5 ", "* sin(dist * 20.0 ", "+ t * 2.0 + 2.0),",
      N10, "0.5 + 0.5 ", "* sin(dist * 20.0 ", "+ t * 2.0 + 4.0)" ]
  const GeometricMainLines17: seq<string> :=
    [ N8, ");",
      N6, "} else {",
      N8, "color += vec3(",
      N10, "0.5 + 0.5 ", "* cos(dist * 10.0)," ]
  const GeometricMainLines18: seq<string> :=
    [ N10, "0.5 + 0.5 ", "* cos(dist * 20.0),",
      N10, "0.5 + 0.5 ", "* sin(dist * 30.0)" ]
  const GeometricMainLines19: seq<string> :=
    [ N8, ");",
      N6, "}",
      N6,
      N6, "// Add glow" ]
  const GeometricMainLines20: seq<string> :=
    [ N6, "color += vec3(0.1, ", "0.3, 0.6) * glow;",
      N6, "color = mix(color, ", "vec3(1.0), ", "smoothstep(0.0, ", "0.01, -dist)); ", "// Fill shapes",
      N6,
      N6 ]
  function GeometricSource(numShapes: string, rotationSpeed: string, colorShift: string): PatternSource {
    PatternSource(2, [GeometricSdCircleText, GeometricSdBoxText, GeometricSdTriangleText, GeometricRotate2dText],
      GeometricMainText(numShapes, rotationSpeed, colorShift),
      " vec4(color, 1.0);" + N4, true)
  }

  function GeometricPatterns(rng: nat -> real, at: nat): (p: PatternSource)
    requires Tape(rng)
    ensures p.closed && |p.funcs| == 4
  {
    GeometricSource(LoopBound(NumShapes(rng(at))), Fixed(rng(at + 1), 0.002, 0.001, 4), BoolText(rng(at + 2) > 0.5))
  }

  // ---- fluidSimulation
  /** `hash` of `fluidSimulation`, up to its closing brace. */
  const FluidHashText: seq<string> :=
    FluidHashLines1 + FluidHashLines2
  const FluidHashLines1: seq<string> :=
    [ "vec2 hash(vec2 p) {",
      N6, "p = vec2(dot(p, ", "vec2(127.1, 311.7)),", " dot(p, vec2(269.5, ", "183.3)));" ]
  const FluidHashLines2: seq<string> :=
    [ N6, "return -1.0 + ", "2.0 * fract(sin(p) ", "* 43758.5453123);",
      N4 ]
  /** `noise` of `fluidSimulation`, up to its closing brace. */
  const FluidNoiseText: seq<string> :=
    FluidNoiseLines1 + FluidNoiseLines2 + FluidNoiseLines3 + FluidNoiseLines4 +
    FluidNoiseLines5 + FluidNoiseLines6
  const FluidNoiseLines1: seq<string> :=
    [ "float ", "noise(vec2 p) {",
      N6, "const float ", "K1 = 0.366025404; ", "// (sqrt(3)-1)/2" ]
  const FluidNoiseLines2: seq<string> :=
    [ N6, "const float ", "K2 = 0.211324865; ", "// (3-sqrt(3))/6   ",
      N6,
      N6, "vec2 i = floor(p ", "+ (p.x + p.y) * K1);" ]
  const FluidNoiseLines3: seq<string> :=
    [ N6, "vec2 a = p - i + ", "(i.x + i.y) * K2;",
      N6, "vec2 o = (a.x > a.y)", " ? vec2(1.0, 0.0) ", ": vec2(0.0, 1.0);" ]
  const FluidNoiseLines4: seq<string> :=
    [ N6, "vec2 b = a - o + K2;",
      N6, "vec2 c = ", "a - 1.0 + 2.0 * K2;",
      N6,
      N6, "vec3 h = max(0.5 - ", "vec3(dot(a,a), ", "dot(b,b), ", "dot(c,c)), 0.0);" ]
  const FluidNoiseLines5: seq<string> :=
    [ N6, "vec3 n = h*h*h*h ", "* vec3(dot(a, ", "hash(i+0.0)), dot(b,", " hash(i+o)), dot(c, ", "hash(i+1.0)));" ]
  const FluidNoiseLines6: seq<string> :=
    [ N6,
      N6, "return dot(n, ", "vec3(70.0));    ",
      N4 ]
  /** `fbm` of `fluidSimulation`, up to its closing brace. */
  function FluidFbmText(iterations: string): seq<string> {
    FluidFbmLines1 + FluidFbmLines2(iterations) + FluidFbmLines3
  }
  const FluidFbmLines1: seq<string> :=
    [ "float fbm(vec2 p) {",
      N6, "float f = 0.0;",
      N6, "float w = 0.5;",
      N6, "float amp = 1.0;" ]
  function FluidFbmLines2(iterations: string): seq<string> {
    [ N6, "for (int i = 0; i < ", iterations, "; i++) {",
      N8, "f += amp * noise(p);",
      N8, "p *= 2.0;" ]
  }
  const FluidFbmLines3: seq<string> :=
    [ N8, "amp *= 0.5;",
      N6, "}",
      N6, "return f;",
      N4 ]
  /** `main` of `fluidSimulation`, up to its final `gl_FragColor =`. */
  function FluidMainText(scale: string, speed: string): seq<string> {
    FluidMainLines1(speed) + FluidMainLines2(scale) + FluidMainLines3(scale) +
    FluidMainLines4 + FluidMainLines5 + FluidMainLines6 + FluidMainLines7 +
    FluidMainLines8 + FluidMainLines9 + FluidMainLines10
  }
  function FluidMainLines1(speed: string): seq<string> {
    [ N6, "vec2 uv = ", "gl_FragCoord.xy ", "/ resolution.xy;",
      N6, "float t = time * ", speed, ";" ]
  }
  function FluidMainLines2(scale: string): seq<string> {
    [ N6,
      N6, "// Get separate ", "noise fields for ", "x and y displacement",
      N6, "float ", "noise1 = fbm(uv * ", scale, " + vec2(t ", "* 0.5, t * -0.5));" ]
  }
  function FluidMainLines3(scale: string): seq<string> {
    [ N6, "float ", "noise2 = fbm(uv * ", scale, " + vec2(t * -0.5, ", "t * 0.5) + 100.0);" ]
  }
  const FluidMainLines4: seq<string> :=
    [ N6,
      N6, "// Combine ", "noise fields to ", "create a flow effect",
      N6, "vec2 flow = vec2(noi", "se1, noise2) * 0.05;" ]
  const FluidMainLines5: seq<string> :=
    [ N6,
      N6, "// Sample ", "colors based on ", "warped coordinates",
      N6, "vec3 col1 = ", "vec3(0.2, 0.5, 0.8);" ]
  const FluidMainLines6: seq<string> :=
    [ N6, "vec3 col2 = ", "vec3(0.8, 0.2, 0.6);",
      N6, "vec3 col3 = ", "vec3(0.1, 0.7, 0.3);" ]
  const FluidMainLines7: seq<string> :=
    [ N6,
      N6, "float blend1 ", "= fbm(uv + flow ", "* 2.0 + t * 0.1);",
      N6, "float blend2 = ", "fbm(uv - flow * 2.0 ", "- t * 0.15 + 3.5);" ]
  const FluidMainLines8: seq<string> :=
    [ N6,
      N6, "vec3 color = mix(", "col1, col2, blend1);",
      N6, "color = mix(color, ", "col3, blend2);" ]
  const FluidMainLines9: seq<string> :=
    [ N6,
      N6, "// Add some ", "fine grain detail",
      N6, "float detail ", "= fbm(uv * 10.0 + ", "flow * 10.0) * 0.2;" ]
  const FluidMainLines10: seq<string> :=
    [ N6, "color ", "+= vec3(detail);",
      N6,
      N6 ]
  /** `fluidSimulation`'s text; `closed` says whether `main` gets its closing brace. */
  function FluidSource(scale: string, speed: string, iterations: string, closed: bool): PatternSource {
    PatternSource(2, [FluidHashText, FluidNoiseText, FluidFbmText(iterations)],
      FluidMainText(scale, speed),
      " vec4(color, 1.0);" + N4, closed)
  }

  function FluidTemplate(rng: nat -> real, at: nat, closed: bool): PatternSource
    requires Tape(rng)
  {
    FluidSource(Fixed(rng(at), 3.0, 2.0, 1), Fixed(rng(at + 1), 0.005, 0.001, 4), LoopBound(Iterations(rng(at + 2))), closed)
  }

  /** As written: the template ends right after the final assignment, and `main` is never closed. */
  function FluidSimulationAsWritten(rng: nat -> real, at: nat): (p: PatternSource)
    requires Tape(rng)
    ensures !p.closed && |p.funcs| == 3
  {
    FluidTemplate(rng, at, false)
  }

  /** With the closing brace of `main` restored; otherwise the same text. */
  function FluidSimulation(rng: nat -> real, at: nat): (p: PatternSource)
    requires Tape(rng)
    ensures p.closed && p == FluidSimulationAsWritten(rng, at).(closed := true)
  {
    FluidTemplate(rng, at, true)
  }

  // ---- kaleidoscope
  /** `random` of `kaleidoscope`, up to its closing brace. */
  const KaleidoscopeRandomText: seq<string> :=
    [ "float random(vec2 st) {",
      N6, "return fract(sin(dot(st.xy, vec2(12.9898, 78.233))) * 43758.5453123);",
      N4 ]
  /** `rotate` of `kaleidoscope`, up to its closing brace. */
  const KaleidoscopeRotateText: seq<string> :=
    [ "vec2 rotate(vec2 uv, float angle) {",
      N6, "float s = sin(angle);",
      N6, "float c = cos(angle);",
      N6, "return mat2(c, -s, s, c) * uv;",
      N4 ]
  /** `pattern` of `kaleidoscope`, up to its closing brace. */
  function KaleidoscopePatternText(segments: string, zoom: string): seq<string> {
    [ "float pattern(vec2 uv, float t) {",
      N6, "uv *= ", zoom, ";",
      N6,
      N6, "vec2 grid = fract(uv) - 0.5;",
      N6, "float circle = length(grid);",
      N6,
      N6, "float d1 = sin(length(uv) * 5.0 - t);",
      N6, "float d2 = sin(atan(uv.y, uv.x) * ", segments, ".0 + t);",
      N6,
      N6, "return smoothstep(0.2, 0.25, d1 * d2);",
      N4 ]
  }
  /** `main` of `kaleidoscope`, up to its final `gl_FragColor =`. */
  function KaleidoscopeMainText(segments: string): seq<string> {
    [ N6, "vec2 uv = (gl_FragCoord.xy - 0.5 * resolution.xy) / min(resolution.x, resolution.y);",
      N6, "float t = time * 0.001;",
      N6,
      N6, "// Kaleidoscope effect",
      N6, "float angle = atan(uv.y, uv.x);",
      N6, "float segmentAngle = 3.14159 * 2.0 / float(", segments, ");",
      N6, "angle = mod(angle, segmentAngle);",
      N6, "if (mod(angle / segmentAngle, 2.0) >= 1.0) {",
      N8, "angle = segmentAngle - angle;",
      N6, "}",
      N6,
      N6, "float dist = length(uv);",
      N6, "uv = vec2(cos(angle), sin(angle)) * dist;",
      N6,
      N6, "// Add time movement",
      N6, "uv += 0.1 * vec2(cos(t * 0.3), sin(t * 0.4));",
      N6,
      N6, "// Generate pattern",
      N6, "float p1 = pattern(uv, t);",
      N6, "float p2 = pattern(uv * 0.8 + 0.5, t * 1.2);",
      N6, "float p3 = pattern(uv * 1.5 - 0.5, t * 0.8);",
      N6,
      N6, "// Create colors",
      N6, "vec3 col1 = vec3(0.8, 0.1, 0.3);",
      N6, "vec3 col2 = vec3(0.1, 0.3, 0.8);",
      N6, "vec3 col3 = vec3(0.6, 0.8, 0.1);",
      N6,
      N6, "vec3 color = mix(col1, col2, p1);",
      N6, "color = mix(color, col3, p2);",
      N6, "color += p3 * 0.5;",
      N6,
      N6, "// Add subtle pulse",
      N6, "color *= 0.8 + 0.2 * sin(dist * 50.0 - t * 5.0);",
      N6,
      N6 ]
  }
  function KaleidoscopeSource(segments: string, zoom: string): PatternSource {
    PatternSource(2, [KaleidoscopeRandomText, KaleidoscopeRotateText, KaleidoscopePatternText(segments, zoom)],
      KaleidoscopeMainText(segments),
      " vec4(color, 1.0);" + N4, true)
  }

  function Kaleidoscope(rng: nat -> real, at: nat): (p: PatternSource)
    requires Tape(rng)
    ensures p.closed && |p.funcs| == 3
  {
    KaleidoscopeSource(Decimal(Segments(rng(at))), Fixed(rng(at + 1), 2.0, 1.0, 2))
  }

  // ---- warpSpeed
  /** `star` of `warpSpeed`, up to its closing brace. */
  const WarpStarText: seq<string> :=
    [ "float star(vec2 uv, float t, float i) {",
      N6, "// Star position",
      N6, "float phase = fract(i + t * 0.02);",
      N6, "float depth = phase * 20.0;",
      N6, "vec2 point = vec2(",
      N8, "sin(i * 678.43) * 0.9,",
      N8, "cos(i * 785.12) * 0.9",
      N6, ");",
      N6,
      N6, "// Apply perspective",
      N6, "point /= depth;",
      N6,
      N6, "// Distance from this point",
      N6, "float dist = length(uv - point);",
      N6,
      N6, "// Star appearance",
      N6, "float brightness = 0.003 / dist;",
      N6, "brightness *= smoothstep(1.0, 0.0, phase); // Fade in",
      N6,
      N6, "return brightness;",
      N4 ]
  /** `main` of `warpSpeed`, up to its final `gl_FragColor =`. */
  function WarpMainText(numStars: string, speed: string, colorMode: string): seq<string> {
    [ N6, "vec2 uv = (gl_FragCoord.xy - 0.5 * resolution.xy) / min(resolution.x, resolution.y);",
      N6, "float t = time * 0.001 * ", speed, ";",
      N6,
      N6, "vec3 finalColor = vec3(0.0);",
      N6,
      N6, "// Add many stars",
      N6, "for (int i = 0; i < ", numStars, "; i++) {",
      N8, "float fi = float(i) / float(", numStars, ");",
      N8, "float brightness = star(uv, t, fi);",
      N8,
      N8, "// Star color based on mode",
      N8, "vec3 starColor;",
      N8, "if (", colorMode, " == 0) {",
      N10, "// Rainbow by position",
      N10, "starColor = 0.5 + 0.5 * cos(vec3(0.0, 0.33, 0.67) * 6.28318 + fi * 6.28318);",
      N8, "} else if (", colorMode, " == 1) {",
      N10, "// Blue-white themed",
      N10, "float temp = fract(fi * 7.9) * 0.5 + 0.5; // Temperature variation",
      N10, "starColor = mix(",
      N12, "vec3(0.5, 0.8, 1.0), // Blue",
      N12, "vec3(1.0, 1.0, 1.0), // White",
      N12, "temp",
      N10, ");",
      N8, "} else {",
      N10, "// Gold/red themed",
      N10, "float temp = fract(fi * 8.3) * 0.6 + 0.4; // Temperature variation",
      N10, "starColor = mix(",
      N12, "vec3(1.0, 0.8, 0.0), // Gold",
      N12, "vec3(1.0, 0.4, 0.2), // Red",
      N12, "temp",
      N10, ");",
      N8, "}",
      N8,
      N8, "finalColor += brightness * starColor;",
      N6, "}",
      N6,
      N6, "// Add glow at the center",
      N6, "float centerGlow = 0.01 / (length(uv) + 0.05);",
      N6, "if (", colorMode, " == 0) {",
      N8, "finalColor += centerGlow * vec3(0.2, 0.5, 1.0) * (0.5 + 0.5 * sin(t));",
      N6, "} else if (", colorMode, " == 1) {",
      N8, "finalColor += centerGlow * vec3(0.1, 0.3, 1.0) * (0.5 + 0.5 * sin(t * 0.5));",
      N6, "} else {",
      N8, "finalColor += centerGlow * vec3(1.0, 0.3, 0.1) * (0.5 + 0.5 * sin(t * 0.7));",
      N6, "}",
      N6,
      N6 ]
  }
  function WarpSpeedSource(numStars: string, speed: string, colorMode: string): PatternSource {
    PatternSource(2, [WarpStarText],
      WarpMainText(numStars, speed, colorMode),
      " vec4(finalColor, 1.0);" + N4, true)
  }

  function WarpSpeed(rng: nat -> real, at: nat): (p: PatternSource)
    requires Tape(rng)
    ensures p.closed && |p.funcs| == 1
  {
    WarpSpeedSource(LoopBound(NumStars(rng(at))), Fixed(rng(at + 1), 5.0, 2.0, 2), Decimal(ColorMode(rng(at + 2))))
  }
}
