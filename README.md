# Shader App core, modelled in Dafny

The project models the core of `shader-app.js`, a page that generates random
GLSL fragment shaders and draws them with WebGL. The model has three parts.

- **The random shader generator** (`ShaderGenerator`).
  - `generate` picks one of twelve pattern methods.
  - Each pattern method fills a GLSL template with numbers drawn from `Math.random()`.
  - `mixedPattern` draws two different templates out of seven, cuts them apart with
    `indexOf`, `lastIndexOf`, `substring`, `trim` and `replace`, and splices them into
    one shader that blends the two colours in one of three ways.
  - The random values are an infinite tape `rng: nat -> real` with every value in
    `[0, 1)`, read from a position `at` on.
  - Numbers are printed with an exact `toFixed` (`Numerals`).
  - The JavaScript string operations keep their exact semantics (`JsString`): -1 for
    "not found", clamped and swapped `substring` bounds, a `replace` that changes only
    the first occurrence, ECMAScript whitespace for `trim`.
  - Each template is reproduced character for character, its indentation included
    (`Patterns`). It is kept as a list of short pieces so that the absence of
    `void main()` and `gl_FragColor =` can be checked a few pieces at a time
    (`Composability`), and so can the absence of the three header lines from the
    helper functions (`HeaderFreedom`).
  - `Mixer.MixedPattern` and `Generator.Generate` model the corrected program (see
    "## Findings"). `Mixer.MixedPatternAsWritten` and `Generator.GenerateAsWritten`
    model the program as written, and lemmas relate the two.
- **The colour randomiser** (`randomizeColors`).
  - The global regex replace that swaps every `vec3(n, n, n)` literal for three fresh
    one-decimal numbers.
  - The regex becomes a token sequence with a deterministic scanner. It is proved to
    accept exactly the regex's matches (`ColorRewrite`).
- **The WebGL renderer** (`ShaderRenderer`).
  - A class with the source's fields, driving a `Gl` object.
  - `Gl` records every drawing call in a trace and hands out fresh integer handles.
  - Whether a shader compiles or a program links, the info logs, the active uniforms and
    the attribute location are all inputs, held in a `Driver` value.
  - Each method's new state is tied to a specification function of the old state
    (`ProgramCreated`, `DefaultCreated`, `FrameCalls`). The lemmas prove what those
    functions promise: the renderer stays consistent, a failure changes none of its
    fields, a success installs the new program and deletes the old one, and exactly one
    draw happens per frame.
  - The constructor becomes the static method `ShaderRenderer.Create`. It returns the
    renderer, or `Failure` with the message the constructor would throw.
  - `Date.now()` is taken as a parameter.

Modules and files:

- `Wrappers` — `wrappers.dfy`
- `JsString` — `js_string.dfy`
- `Numerals` — `numerals.dfy`
- `ColorRewrite` — `color_rewrite.dfy`
- `Patterns` — `patterns.dfy`
- `Composability` — `composability.dfy`
- `Composer` — `composer.dfy`
- `HeaderFreedom` — `header_freedom.dfy`
- `Mixer` — `mixer.dfy`
- `Generator` — `generator.dfy`
- `Renderer` — `renderer.dfy`

## Model

| member | source | states |
|---|---|---|
| JsString.IndexOf | shader-app.js:1086 | `indexOf(pat, from)` with `from` clamped to the string: -1, or an occurrence at or after `from`, and no occurrence between `from` and the result |
| JsString.LastIndexOf | shader-app.js:1089 | `lastIndexOf`: -1, or an occurrence with no occurrence after it |
| JsString.Substring | shader-app.js:1087-1090 | `substring(a, b)`: the slice `[a, b)` for in-range ordered bounds, and the slice `[b, a)` when the bounds are reversed |
| JsString.SubstringClamps | shader-app.js:1087-1090 | out-of-range bounds act as the nearest end of the string |
| JsString.SubstringSymmetric | shader-app.js:1087-1090 | the order of the two bounds does not matter |
| JsString.ReplaceFirst | shader-app.js:1119-1121 | `replace` with a string pattern: the text is unchanged when the pattern is absent; otherwise only the leftmost occurrence is replaced |
| JsString.TrimStart | shader-app.js:1097 | the result is a suffix whose removed prefix is all whitespace and which does not start with whitespace |
| JsString.TrimEnd | shader-app.js:1097 | the result is a prefix whose removed suffix is all whitespace and which does not end with whitespace |
| JsString.Trim | shader-app.js:1097 | `trim` returns a piece of the text with only whitespace before and after it, and the piece neither starts nor ends with whitespace |
| JsString.TrimAround | shader-app.js:1097 | `trim` of a text framed by whitespace, whose own ends are not whitespace, is that text |
| Numerals.FloorScaled | shader-app.js:403 | `Math.floor(Math.random() * k)` is an index in `[0, k)` |
| Numerals.FloorScaledOnto | shader-app.js:403 | every index in `[0, k)` is drawn by some value of `Math.random()` |
| Numerals.Decimal | shader-app.js:469 | `${n}` of a non-negative integer: a non-empty digit string, with a leading zero only for 0 |
| Numerals.DecimalRoundTrip | shader-app.js:469 | reading the printed digits back gives `n` |
| Numerals.DecimalOfDigits | shader-app.js:469 | a digit string without leading zeros is what printing its value gives (the other direction of the round trip) |
| Numerals.ToFixed | shader-app.js:435 | `toFixed(f)` prints digits, with a point before the last `f` of them when `f > 0` |
| Numerals.ToFixedValue | shader-app.js:435 | the printed literal denotes the multiple of `10^-f` nearest to `x`, a tie going up |
| Patterns.Fixed | shader-app.js:435-436 | `(Math.random() * a + b).toFixed(f)` prints a non-empty unsigned numeral |
| Patterns.Octaves | shader-app.js:434 | 3 to 6 octaves |
| Patterns.NumShapes | shader-app.js:521 | 3 to 7 shapes |
| Patterns.Iterations | shader-app.js:622 | 5 to 9 iterations |
| Patterns.Segments | shader-app.js:694 | 4 to 11 segments |
| Patterns.NumStars | shader-app.js:765 | 100 to 199 stars |
| Patterns.ColorMode | shader-app.js:767 | colour mode 0, 1 or 2 |
| Patterns.NumRays | shader-app.js:876 | 5 to 24 rays |
| Patterns.NumPoints | shader-app.js:1015 | 5 to 14 points |
| Patterns.DrawCovers | shader-app.js:434 | every value of `Math.floor(Math.random() * k) + c` in `[c, c + k)` is reachable |
| Patterns.LoopBound | shader-app.js:469 | a loop bound prints as the canonical digits of its positive value |
| Patterns.ColorGradient | shader-app.js:408-431 | `colorGradient`: two colours picked from the four, no helper functions, `main` closed |
| Patterns.Plasma | shader-app.js:849-872 | `plasma`: speed and scale drawn in that order, no helper functions, `main` closed |
| Patterns.Rays | shader-app.js:875-906 | `rays`: ray count and speed drawn in that order, no helper functions, `main` closed |
| Patterns.Tunnel | shader-app.js:909-949 | `tunnel`: scale and speed drawn in that order, one helper function (`rot2`), `main` closed |
| Patterns.Noise | shader-app.js:952-1011 | `noise`: scale and speed drawn in that order, three helper functions (`hash`, `noise`, `fbm`), `main` closed |
| Patterns.Cells | shader-app.js:1014-1059 | `cells`: point count and speed drawn in that order, one helper function (`voronoi`), `main` closed |
| Patterns.FractalNoise | shader-app.js:433-518 | `fractalNoise`: octaves, lacunarity and gain drawn in that order, three helper functions, `main` closed |
| Patterns.GeometricPatterns | shader-app.js:520-617 | `geometricPatterns`: shape count, rotation speed and colour shift drawn in that order, four helper functions, `main` closed |
| Patterns.Kaleidoscope | shader-app.js:693-762 | `kaleidoscope`: segments and zoom drawn in that order, three helper functions, `main` closed |
| Patterns.WarpSpeed | shader-app.js:764-846 | `warpSpeed`: star count, speed and colour mode drawn in that order, one helper function (`star`), `main` closed |
| Patterns.FluidSimulationAsWritten | shader-app.js:619-691 | the `fluidSimulation` template as written: three helper functions, and `main` is never closed |
| Patterns.FluidSimulation | shader-app.js:619-691 | the same template with `main`'s closing brace restored and nothing else changed |
| Composability.PlasmaComposable | shader-app.js:849-872 | for any printed numbers, the `plasma` template meets what `mixedPattern`'s cuts rely on: no `void main()` among its helper functions, and no `gl_FragColor =` in `main` before the final one |
| Composability.NoiseComposable | shader-app.js:952-1011 | the same for `noise` |
| Composability.RaysComposable | shader-app.js:875-906 | the same for `rays` |
| Composability.TunnelComposable | shader-app.js:909-949 | the same for `tunnel` |
| Composability.FractalNoiseComposable | shader-app.js:433-518 | the same for `fractalNoise` |
| Composability.GeometricComposable | shader-app.js:520-617 | the same for `geometricPatterns`, whichever boolean `colorShift` prints |
| Composability.FluidComposable | shader-app.js:619-691 | the same for `fluidSimulation`, closed or not |
| Composability.PlasmaDrawn | shader-app.js:849-872 | whatever `plasma` draws, its template is closed and composable |
| Composability.NoiseDrawn | shader-app.js:952-1011 | whatever `noise` draws, its template is closed and composable |
| Composability.RaysDrawn | shader-app.js:875-906 | whatever `rays` draws, its template is closed and composable |
| Composability.TunnelDrawn | shader-app.js:909-949 | whatever `tunnel` draws, its template is closed and composable |
| Composability.FractalNoiseDrawn | shader-app.js:433-518 | whatever `fractalNoise` draws, its template is closed and composable |
| Composability.GeometricDrawn | shader-app.js:520-617 | whatever `geometricPatterns` draws, its template is closed and composable |
| Composability.FluidDrawn | shader-app.js:619-691 | whatever the corrected `fluidSimulation` draws, its template is closed and composable |
| Composability.FluidAsWrittenDrawn | shader-app.js:619-691 | whatever `fluidSimulation` as written draws, its template is unclosed and still composable: it has helper functions, and no `}` from `main` on |
| Composer.ExtractFunctions | shader-app.js:1095-1098 | `extractFunctions`: empty when there is no `void main()` (`substring(0, -1)`); otherwise the text before the first `void main()` without the whitespace around it |
| Composer.ExtractMainBody | shader-app.js:1085-1092 | `extractMainBody` returns a piece of the shader text |
| Composer.StripHeader | shader-app.js:1119-1121 | the three chained `replace` calls never lengthen the text and leave text without header lines unchanged |
| Composer.Retarget | shader-app.js:1127 | `replace('gl_FragColor =', 'color =')`: a body without the assignment is unchanged; otherwise it is 7 characters shorter |
| Composer.MainFound | shader-app.js:1096 | in a composable template the first `void main()` is the template's own |
| Composer.ExtractFunctionsOfRender | shader-app.js:1095-1098 | `extractFunctions` returns the template's declarations, header lines included |
| Composer.MainBraceFound | shader-app.js:1088 | the first `{` after `void main()` opens `main` |
| Composer.LastBraceClosed | shader-app.js:1089 | in a closed template the last `}` is the one that closes `main` |
| Composer.ClosedBraceAfterMain | shader-app.js:1086-1089 | in a closed template the last `}` comes after `void main()` |
| Composer.ExtractMainBodyClosed | shader-app.js:1085-1092 | for a closed template, `extractMainBody` returns exactly the body of `main` |
| Composer.LastBraceUnclosed | shader-app.js:1089 | in a template whose `main` is not closed, the last `}` closes the last helper function |
| Composer.UnclosedBraceBeforeMain | shader-app.js:1086-1089 | in such a template the last `}` comes before `void main()` |
| Composer.ExtractMainBodyUnclosed | shader-app.js:1085-1092 | for such a template the bounds are swapped, and the result is that `}` through `void main() {`, not the body |
| Composer.RemoveThreeLines | shader-app.js:1119-1121 | three chained first-occurrence removals of the header lines leave the rest of the declarations |
| Composer.StripHeaderOfCore | shader-app.js:1119-1121 | stripping a template's declarations removes the three header lines and keeps every helper function |
| Composer.RetargetBody | shader-app.js:1127 | only the final `gl_FragColor =` of a body becomes `color =` |
| ColorRewrite.SpaceRun | shader-app.js:105 | `\s*` taken greedily: an all-whitespace prefix followed by a non-whitespace character or the end |
| ColorRewrite.NumberRun | shader-app.js:105 | the `([0-9]*\.[0-9]+\|[0-9]+)` group: the length scanned is 0 or a number's length |
| ColorRewrite.NumberRunOf | shader-app.js:105 | a maximal number followed by a character that cannot continue it is exactly what the scan takes |
| ColorRewrite.ColorPatternSeparated | shader-app.js:105 | in the regex, every `\s*` and every number is followed by a token it cannot run into |
| ColorRewrite.Scan | shader-app.js:105 | one token's scan takes a prefix that the token admits |
| ColorRewrite.Parse | shader-app.js:105 | the scanner's split fits the regex's tokens and spells a prefix of the text |
| ColorRewrite.ParseComplete | shader-app.js:105 | any split of a prefix that fits the tokens is the one the scanner returns, so a match at a position is unique |
| ColorRewrite.ParseExact | shader-app.js:105 | the scanner returns a split if and only if it is a regex match at the start of the text |
| ColorRewrite.ParseNone | shader-app.js:105 | the scanner fails if and only if no match starts there |
| ColorRewrite.MatchStartsWithV | shader-app.js:105 | a match is non-empty, and its only `v` is its first character |
| ColorRewrite.MatchHasNoSign | shader-app.js:105 | a match holds no sign, so negative components are never rewritten |
| ColorRewrite.Count | shader-app.js:105 | the number of matches the global regex finds is at most the text's length, and 0 for a text without `v` |
| ColorRewrite.Rewrite | shader-app.js:107-112 | the global `replace` with a callback leaves a text without `v` unchanged |
| ColorRewrite.RewriteWithoutMatches | shader-app.js:107-112 | a text without matches is returned unchanged |
| ColorRewrite.ReplacementMatches | shader-app.js:111 | a replacement built from three numbers is itself a match, split as printed |
| ColorRewrite.RewriteCopies | shader-app.js:107-112 | an output prefix without a `v` was copied from the input |
| ColorRewrite.MatchReflects | shader-app.js:107-112 | a match that begins at a copied character is a match in the input too |
| ColorRewrite.RewriteKeepsCount | shader-app.js:107-112 | when every replacement is three numbers, the rewritten text has as many matches as the original |
| ColorRewrite.ToFixedIsNumber | shader-app.js:108-110 | `Math.random().toFixed(1)` is a number the regex accepts |
| ColorRewrite.DrawnColor | shader-app.js:108-111 | the three drawn components are numbers the regex accepts |
| ColorRewrite.RandomizeColors | shader-app.js:101-112 | randomising the colours keeps every colour literal recognisable: the match count is unchanged |
| Mixer.AvailableDraws | shader-app.js:1065-1073 | each of the seven mixable patterns draws two or three random values |
| Mixer.AvailableComposable | shader-app.js:1065-1073 | every mixable pattern of the corrected program is closed and survives the cuts |
| Mixer.AvailablePatternAsWritten | shader-app.js:1065-1073 | the seven patterns as written: the same templates, except that `fluidSimulation` leaves `main` unclosed |
| Mixer.AvailableAsWrittenComposable | shader-app.js:1065-1073 | as written, only `fluidSimulation` (index 6) is unclosed, and every pattern survives the cuts |
| Mixer.PickPair | shader-app.js:1076-1078 | the two drawn indices are below 7 and different |
| Mixer.PickPairCovers | shader-app.js:1076-1078 | every ordered pair of different indices can be drawn |
| Mixer.MixBlockOther | shader-app.js:1149-1164 | every method number from 2 on selects the screen-blend block |
| Mixer.MixBlockMethod | shader-app.js:1149-1164 | the `// Method k` comment of a block names its method, so the three blocks differ |
| Mixer.MixBlockSpeedSmooth | shader-app.js:1151 | the smooth-oscillation block prints `mixSpeed` into its `sin` |
| Mixer.MixBlockSpeedScreen | shader-app.js:1162 | the screen-blend block prints `mixSpeed` into its blend strength |
| Mixer.CutsOfTemplate | shader-app.js:1100-1103 | the cuts of a template give its declarations, its stripped helper functions, and its retargeted body if `main` is closed, or the slice from the last helper's `}` through `void main() {` if not |
| Mixer.SpliceOfTemplates | shader-app.js:1110-1167 | spliced with both headers removed, the combined shader holds each template's stripped helper functions and cut body |
| Mixer.SpliceAsWrittenOfTemplates | shader-app.js:1110-1167 | spliced as written, the combined shader holds the first template's declarations with their header, the second's stripped helpers, and both cut bodies; `uniform float time;` is declared twice |
| Mixer.StrippedHasNoHeader | shader-app.js:1119-1121 | the blank lines put before the spliced helper functions add no header line: the spliced text holds each of the three header lines exactly when the helper functions do |
| HeaderFreedom.TunnelHeaderFree | shader-app.js:909-949 | the helper function of `tunnel` holds none of the three header lines, whatever numbers are printed |
| HeaderFreedom.NoiseHeaderFree | shader-app.js:952-1011 | the same for the helper functions of `noise` |
| HeaderFreedom.FractalNoiseHeaderFree | shader-app.js:433-518 | the same for `fractalNoise`, for any printed numbers |
| HeaderFreedom.GeometricHeaderFree | shader-app.js:520-617 | the same for `geometricPatterns` |
| HeaderFreedom.FluidHeaderFree | shader-app.js:619-691 | the same for `fluidSimulation`, closed or not, for any printed iteration count |
| Mixer.AvailableHeaderFree | shader-app.js:1065-1073 | whatever a mixable pattern draws, its helper functions hold none of the three header lines |
| Mixer.DeclarationsDeclareOnce | shader-app.js:1110-1121 | when neither spliced text holds a header line, the combined declarations hold each of the three header lines exactly once, in the combined shader's own header |
| Mixer.StrippedDeclareOnce | shader-app.js:1110-1121 | with both patterns' helper functions header-free, the declarations spliced with both headers removed hold each header line exactly once |
| Mixer.CompositeOpensWithDeclarations | shader-app.js:1110-1167 | the combined shader opens with its declarations |
| Mixer.DeclarationsOwnTime | shader-app.js:1110-1113 | the combined shader declares `uniform float time;` in its own header |
| Mixer.SpliceAsWrittenRedeclaresTime | shader-app.js:1115-1116 | as written, the first pattern's declarations declare `uniform float time;` a second time, after the combined shader's own |
| Mixer.Choose | shader-app.js:1076-1107 | the draws of `mixedPattern`, in order: two different indices below 7, a blend method of at most 2, and a printed speed |
| Mixer.MixedPatternParts | shader-app.js:1063-1169 | the corrected `mixedPattern` is the combined template around the two drawn patterns' stripped helper functions and retargeted bodies, blended as drawn |
| Mixer.MixedPatternDeclaresOnce | shader-app.js:1063-1169 | the corrected `mixedPattern` opens with declarations that hold `precision mediump float;`, `uniform float time;` and `uniform vec2 resolution;` exactly once each |
| Mixer.MixedPatternAsWrittenParts | shader-app.js:1063-1169 | `mixedPattern` as written: the first pattern's declarations keep their header, so `uniform float time;` is declared twice; a drawn `fluidSimulation` contributes the stray slice instead of a body, any other pattern its retargeted body |
| Generator.Position | shader-app.js:385-398 | every pattern is in the `patterns` list |
| Generator.RegistryDistinct | shader-app.js:385-398 | every pattern is listed once |
| Generator.Pick | shader-app.js:403 | the drawn index is valid for the twelve-entry list |
| Generator.PickCovers | shader-app.js:403 | every pattern, the mixed one included, can be picked |
| Generator.Single | shader-app.js:403-404 | the corrected program's single patterns all close `main` |
| Generator.SingleAsWritten | shader-app.js:403-404 | as written, the single pattern methods return the same templates, except that `fluidSimulation` leaves `main` unclosed |
| Generator.RenderOpensWithHeader | shader-app.js:408-1060 | every single-pattern template opens, after blank space, with the precision line and the two uniforms |
| Generator.CompositeOpensWithHeader | shader-app.js:1110-1113 | the combined shader opens with its own header, whatever it splices in |
| Generator.Generate | shader-app.js:402-405 | in the corrected program, whichever pattern is picked, the generated shader opens with the precision line and the `time` and `resolution` uniforms the renderer sets |
| Generator.GenerateAsWritten | shader-app.js:402-405 | the same holds of `generate` as written |
| Generator.GenerateAsWrittenAgrees | shader-app.js:402-405 | when neither `fluidSimulation` nor `mixedPattern` is picked, the program as written and the corrected one generate the same shader |
| Generator.FluidPickUnclosed | shader-app.js:619-691 | when `fluidSimulation` is picked, the last `}` of the shader as written comes before `void main()`; in the corrected shader it comes after it |
| Renderer.Gl.NewShader | shader-app.js:279 | `createShader`: a fresh handle, and a new uncompiled shader of that stage |
| Renderer.Gl.SetSource | shader-app.js:280 | `shaderSource` stores the text in the shader |
| Renderer.Gl.Compile | shader-app.js:281 | `compileShader` records the driver's verdict for that stage and text |
| Renderer.Gl.CompileStatus | shader-app.js:283 | `COMPILE_STATUS` reports that verdict and changes nothing |
| Renderer.Gl.ShaderInfoLog | shader-app.js:284 | the driver's log for that stage and text |
| Renderer.Gl.NewProgram | shader-app.js:296 | `createProgram`: a fresh handle for an empty, unlinked program |
| Renderer.Gl.Attach | shader-app.js:297-298 | `attachShader` fills the program's slot for the shader's stage |
| Renderer.Gl.Link | shader-app.js:299 | `linkProgram` records the driver's verdict for the two attached texts |
| Renderer.Gl.LinkStatus | shader-app.js:301 | `LINK_STATUS` reports that verdict and changes nothing |
| Renderer.Gl.ProgramInfoLog | shader-app.js:302 | the driver's link log for the two texts |
| Renderer.Gl.Delete | shader-app.js:307 | `deleteProgram` removes the program |
| Renderer.Gl.UniformLocation | shader-app.js:314-315 | a location exactly when the program is linked and the name is an active uniform, otherwise `null` |
| Renderer.Gl.AttribLocation | shader-app.js:322 | the driver's location of the attribute in the linked texts |
| Renderer.Gl.NewBuffer | shader-app.js:343 | `createBuffer`: a fresh handle, recorded |
| Renderer.ProgramCreated | shader-app.js:275-327 | the error `createProgram` throws is the first of: vertex compile, fragment compile, link |
| Renderer.FragmentCreated | shader-app.js:287-327 | the same, once the vertex shader has compiled |
| Renderer.LinkCreated | shader-app.js:296-327 | the same, once both shaders have compiled |
| Renderer.DefaultCreated | shader-app.js:233-254 | `initDefaultShader` fails exactly when the default shaders fail to compile or link, with that error |
| Renderer.ShaderRenderer.constructor | shader-app.js:221-227 | the fields as the constructor sets them before the default shader: no program, no locations, no buffer, `startTime` the clock reading |
| Renderer.ShaderRenderer.Create | shader-app.js:221-230 | `new ShaderRenderer(gl, canvas)`: the renderer in the state `initDefaultShader` leaves, consistent and with a program and buffer, or the error it throws |
| Renderer.ShaderRenderer.InitDefaultShader | shader-app.js:233-254 | the default program is created and then `createBuffers` runs again; on success the renderer is valid |
| Renderer.ShaderRenderer.SetShader | shader-app.js:257-272 | `true` when the program is created; otherwise the error re-thrown with the `Shader compilation failed: ` prefix; the renderer stays consistent and stays valid |
| Renderer.ShaderRenderer.CompileStage | shader-app.js:279-285 | one shader is created, given its text and compiled; the error carries the stage's prefix and the log |
| Renderer.ShaderRenderer.LinkStages | shader-app.js:296-303 | a program is created from the two shaders and linked; the error carries the link log |
| Renderer.ShaderRenderer.Select | shader-app.js:305-315 | the previous program, if any, is deleted and leaves the context; the new one becomes current and is used; each uniform location is present exactly when the linked program declares that uniform; the buffer handle is untouched |
| Renderer.ShaderRenderer.Install | shader-app.js:305-326 | the old program is deleted, the new one used, its uniform locations fetched, and the buffer created or re-bound |
| Renderer.ShaderRenderer.CreateProgram | shader-app.js:275-327 | the new state and error are those of the specification `ProgramCreated`, and the renderer stays consistent |
| Renderer.ShaderRenderer.CreateBuffers | shader-app.js:330-350 | a new buffer is created, filled with the quad and bound to `position` of the current program |
| Renderer.ShaderRenderer.Resize | shader-app.js:353-355 | only a `viewport(0, 0, width, height)` call is added |
| Renderer.ShaderRenderer.Render | shader-app.js:358-378 | the frame's calls are added to the trace, with time `Date.now() - startTime` |
| Renderer.ProgramCreatedConsistent | shader-app.js:275-327 | `createProgram` keeps every handle and location the renderer holds live and owned by its program, whether it throws or not |
| Renderer.BufferKeepsConsistent | shader-app.js:330-350 | `createBuffers` keeps the renderer consistent and leaves it holding a buffer |
| Renderer.ProgramCreatedTrace | shader-app.js:275-327 | the calls `createProgram` makes, stopping at the first failure |
| Renderer.ProgramCallsDelete | shader-app.js:305-308 | the previous program is deleted exactly once, and only after the new one has linked |
| Renderer.ProgramCallsUse | shader-app.js:310-311 | only the new program is made current, and only when it has linked |
| Renderer.ProgramCallsBuffer | shader-app.js:318-319 | a buffer is created only when the renderer has none and the program has linked |
| Renderer.BufferCallsMake | shader-app.js:343-345 | `createBuffers` creates exactly the buffer it fills with the quad, and deletes nothing |
| Renderer.FailedCreateKeepsRenderer | shader-app.js:283-303 | a throwing `createProgram` leaves every field of the renderer as it was; a failed link leaves an unlinked program object |
| Renderer.SucceededCreateInstalls | shader-app.js:305-326 | a succeeding `createProgram` makes the linked program current, deletes the old one, takes the uniform locations from the new program, and creates a buffer only if there was none |
| Renderer.CreateThenBuffer | shader-app.js:252-253 | `createProgram` on a renderer without a program, then `createBuffers`, creates two buffers and deletes nothing |
| Renderer.DefaultCreatesTwoBuffers | shader-app.js:252-253 | the constructor creates the quad buffer twice; the first is never deleted and the renderer keeps the second |
| Renderer.FrameTimeFollowsClock | shader-app.js:358-378 | two frames rendered from the same state at clock readings `now1 <= now2` make the same calls, except that the time pushed to `time` does not go back |
| Renderer.FrameDrawsOnce | shader-app.js:361-377 | the calls of a frame (`FrameCalls`): a frame clears to opaque black, uses the program, sets each uniform exactly when its location exists, and ends with the single draw of six vertices |

## Left out

- `ShaderApp` (DOM wiring, the render loop, notifications), `URLHandler` and its
  LZ-string compression are not part of this model.
- `console.error` in `setShader` is not modelled: it is output only.
- `Date.now()` is a parameter: `now` for the constructor and `Render`.
- `Renderer.ShaderRenderer.Render` ignores its `currentTime` argument, as the source
  does.
- The GL driver is not modelled. Compile and link verdicts, info logs, active uniforms
  and attribute locations are inputs in `Driver`.
- The query calls (`getShaderParameter`, `getProgramParameter`, the info logs,
  `getUniformLocation`, `getAttribLocation`) are not recorded in the trace. They change
  no GL state.
- `gl.FLOAT`, `false` and `gl.STATIC_DRAW` are left out of the recorded calls.
- `Float32Array` rounding is not modelled. The quad is a sequence of exact reals.
- A thrown error becomes an `Option`/`Result` value. Stack traces and error objects are
  left out.
- The shaders a failed `createProgram` leaves behind are recorded but never deleted, as
  in the source.
- Floating point: every `Math.random() * a + b` is computed on exact reals before
  `toFixed`. IEEE rounding, which can move a value across a rounding boundary, is left
  out.
- Whether the generated GLSL compiles is not modelled.
  - It is not checked that the two patterns' helper functions have distinct names
    (`noise`, `fbm` can clash).
  - The GLSL semantics of the templates is not modelled.
- `shader-app.js` does not parse as written, and the model stands for the evident
  program. The `ShaderGenerator` methods are separated by commas at lines 518, 617, 691
  and 762. The class body closes at line 1061, so `mixedPattern` (line 1063) lies
  outside it, and `this.mixedPattern` at line 397 names nothing. The model takes the
  twelve methods as methods of the class.
- `replace` with a string pattern is modelled without `$` substitution patterns. The
  replacement texts here are empty or `color =`.
- Strings are sequences of Unicode scalar values (`char`); JS strings are UTF-16 code
  units. There is no normalisation.
- Surrogate pairs and lone surrogates are not modelled: a character outside the Basic
  Multilingual Plane is one `char` here and two code units in JS. Every template is
  ASCII, and no color-literal match can hold such a character.
- `Mixer.MixedPattern` models the corrected program: both declaration blocks lose their
  header lines, and a drawn `fluidSimulation` has its `main` closed.
  `Mixer.MixedPatternAsWritten` is the program as written.
- Mixer.MixedPatternDeclaresOnce: it states that each header line occurs once in the
  combined declarations. That the two pattern functions and the combined `main` after
  them hold no header line is not proved.
- `Generator.Generate` models the corrected program in the same way; its as-written
  counterpart is `Generator.GenerateAsWritten`.
- Composer.ExtractMainBody: its own contract says only that the result is a piece of the
  text. What it returns for each template is stated by `Composer.ExtractMainBodyClosed`
  and `Composer.ExtractMainBodyUnclosed`.
- Composer.StripHeader: its own contract states length and the header-free case only.
  The exact result for a template's declarations is `Composer.StripHeaderOfCore`.
- ColorRewrite.Rewrite: its own contract states the `v`-free case only. Its relation to
  the regex is stated by `ColorRewrite.ParseExact`, `ColorRewrite.RewriteCopies` and
  `ColorRewrite.RewriteKeepsCount`.
- ColorRewrite.Count: its own contract states a bound and the `v`-free case only. Its
  relation to the regex is stated by `ColorRewrite.MatchReflects` and
  `ColorRewrite.RewriteKeepsCount`.
- `Generator.Generate` states the header property only. The full text of each pattern
  is the function itself, and the composition lemmas are stated in `Composer`, `Mixer`
  and `Composability`.
- The `mixedPattern` template literal is never closed in `shader-app.js`, so the rest
  of the file lies inside it. The model assumes the literal ends after `main`'s closing
  brace at shader-app.js:1167 and its line break, and ends the combined shader there.
- The text that follows in the unclosed literal is not modelled: the blank line and `}`
  at shader-app.js:1168-1169 and the `DOMContentLoaded` block at
  shader-app.js:1171-1174.
- The probability distribution of the draws is not modelled, only which values are
  reachable.
  - `Patterns.Segments`: the source comment says 4 to 12 segments, but
    `Math.floor(Math.random() * 8) + 4` gives 4 to 11. The model follows the code.
  - `Patterns.NumStars`: the comment says 100 to 200 stars, but the code gives 100 to 199.
    The model follows the code.

## Findings

| source | as written | input that shows it | evidently intended | confidence | as-written member | corrected member |
|---|---|---|---|---|---|---|
| shader-app.js:1116-1121 | `functions1` is spliced with its header, and only `functions2` has the three header lines removed | any pick, e.g. `plasma` first: its `uniform float time;` follows the combined shader's own | each uniform declared once; the header lines removed from both patterns | not executed | Mixer.MixedPatternAsWrittenParts | Mixer.MixedPatternDeclaresOnce |
| shader-app.js:688-690 | `fluidSimulation`'s template ends after the final assignment; `main` has no closing `}` | `mixedPattern` drawing `fluidSimulation`: `lastIndexOf('}')` falls before `void main()`, so `substring` swaps its bounds and returns `}` … `void main() {` instead of the body | `main` closed like every other template, so the body is extracted | not executed | Generator.FluidPickUnclosed | Composer.ExtractMainBodyClosed |
