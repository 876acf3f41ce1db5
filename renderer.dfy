/**
 * `ShaderRenderer`: the WebGL program lifecycle. A fragment shader is
 * compiled and linked with the fixed vertex shader; any failure throws
 * before the renderer changes, and a success deletes the previous program,
 * installs the new one, re-queries its uniforms and (re)binds the quad
 * buffer. `render` clears, pushes the uniforms and draws the quad.
 *
 * The WebGL context is an oracle: whether a shader compiles or a program
 * links, the info logs, the active uniforms and attribute locations are
 * fixed functions of the source texts, handles are drawn from a counter,
 * and every call that changes GL state is appended to a trace.
 */
module Renderer {
  import opened Wrappers

  datatype Stage = VertexStage | FragmentStage

  /** A shader object: its stage, its source and whether its last compilation succeeded. */
  datatype Shader = Shader(stage: Stage, source: string, compiled: bool)

  /** A program object: the sources of the attached shaders and whether its last link succeeded. */
  datatype Program = Program(vertex: string, fragment: string, linked: bool)

  /** A uniform location: the program it was queried from and the uniform's name. */
  datatype Location = Location(program: nat, name: string)

  /** The WebGL calls that change GL state. */
  datatype Call =
    | CreateShader(stage: Stage, shader: nat)
    | ShaderSource(shader: nat, source: string)
    | CompileShader(shader: nat)
    | CreateProgram(program: nat)
    | AttachShader(program: nat, shader: nat)
    | LinkProgram(program: nat)
    | DeleteProgram(program: nat)
    | UseProgram(program: nat)
    | CreateBuffer(buffer: nat)
    | BindArrayBuffer(buffer: nat)
    | BufferData(data: seq<real>)
    | EnableVertexAttribArray(attribute: int)
      /** `vertexAttribPointer(attribute, size, gl.FLOAT, false, stride, offset)` */
    | VertexAttribPointer(attribute: int, size: nat, stride: nat, offset: nat)
    | Viewport(x: int, y: int, width: int, height: int)
    | ClearColor(red: real, green: real, blue: real, alpha: real)
    | ClearColorBuffer
    | Uniform1f(uniform: Location, value: int)
    | Uniform2f(uniform: Location, x: int, y: int)
      /** `drawArrays(gl.TRIANGLES, first, count)` */
    | DrawTriangles(first: nat, count: nat)

  /** What the driver decides, as functions of the shader sources. */
  datatype Driver = Driver(
    compiles: (Stage, string) -> bool,
    compileLog: (Stage, string) -> string,
    links: (string, string) -> bool,
    linkLog: (string, string) -> string,
    uniforms: (string, string) -> set<string>,
    attribute: (string, string, string) -> int)

  /** The context's state: the calls made so far, the next handle, and its shader and program objects. */
  datatype Context = Context(trace: seq<Call>, next: nat, shaders: map<nat, Shader>, programs: map<nat, Program>)

  /** A renderer's fields, beside the state of the context it draws with. */
  datatype State = State(context: Context, program: Option<nat>, timeLocation: Option<Location>,
                         resolutionLocation: Option<Location>, positionBuffer: Option<nat>)

  class Canvas {
    var width: nat
    var height: nat

    constructor (width: nat, height: nat)
      ensures this.width == width && this.height == height
    {
      this.width := width;
      this.height := height;
    }
  }

  /** The WebGL context, as far as the renderer can observe it. */
  class Gl {
    const driver: Driver
    var trace: seq<Call>
    var next: nat
    var shaders: map<nat, Shader>
    var programs: map<nat, Program>

    constructor (driver: Driver)
      ensures this.driver == driver && Snapshot() == Context([], 0, map[], map[])
    {
      this.driver := driver;
      trace, next, shaders, programs := [], 0, map[], map[];
    }

    function Snapshot(): Context
      reads this
    {
      Context(trace, next, shaders, programs)
    }

    /** A call whose effect on the context is left to the trace. */
    method Record(c: Call)
      modifies this
      ensures Snapshot() == old(Snapshot()).(trace := old(trace) + [c])
    {
      trace := trace + [c];
    }

    method NewShader(stage: Stage) returns (h: nat)
      modifies this
      ensures h == old(next) && next == h + 1
      ensures shaders == old(shaders)[h := Shader(stage, "", false)] && programs == old(programs)
      ensures trace == old(trace) + [CreateShader(stage, h)]
    {
      h := next;
      next := next + 1;
      shaders := shaders[h := Shader(stage, "", false)];
      trace := trace + [CreateShader(stage, h)];
    }

    method SetSource(h: nat, source: string)
      requires h in shaders
      modifies this
      ensures shaders == old(shaders)[h := old(shaders[h]).(source := source)]
      ensures next == old(next) && programs == old(programs)
      ensures trace == old(trace) + [ShaderSource(h, source)]
    {
      shaders := shaders[h := shaders[h].(source := source)];
      trace := trace + [ShaderSource(h, source)];
    }

    method Compile(h: nat)
      requires h in shaders
      modifies this
      ensures var s := old(shaders[h]); shaders == old(shaders)[h := s.(compiled := driver.compiles(s.stage, s.source))]
      ensures next == old(next) && programs == old(programs)
      ensures trace == old(trace) + [CompileShader(h)]
    {
      var s := shaders[h];
      shaders := shaders[h := s.(compiled := driver.compiles(s.stage, s.source))];
      trace := trace + [CompileShader(h)];
    }

    /** `getShaderParameter(h, gl.COMPILE_STATUS)` */
    method CompileStatus(h: nat) returns (ok: bool)
      requires h in shaders
      ensures ok == shaders[h].compiled
    {
      ok := shaders[h].compiled;
    }

    method ShaderInfoLog(h: nat) returns (log: string)
      requires h in shaders
      ensures log == driver.compileLog(shaders[h].stage, shaders[h].source)
    {
      log := driver.compileLog(shaders[h].stage, shaders[h].source);
    }

    method NewProgram() returns (p: nat)
      modifies this
      ensures p == old(next) && next == p + 1
      ensures programs == old(programs)[p := Program("", "", false)] && shaders == old(shaders)
      ensures trace == old(trace) + [CreateProgram(p)]
    {
      p := next;
      next := next + 1;
      programs := programs[p := Program("", "", false)];
      trace := trace + [CreateProgram(p)];
    }

    method Attach(p: nat, h: nat)
      requires p in programs && h in shaders
      modifies this
      ensures var pr, s := old(programs[p]), old(shaders[h]);
        programs == old(programs)[p := if s.stage == VertexStage then pr.(vertex := s.source) else pr.(fragment := s.source)]
      ensures next == old(next) && shaders == old(shaders)
      ensures trace == old(trace) + [AttachShader(p, h)]
    {
      var pr, s := programs[p], shaders[h];
      programs := programs[p := if s.stage == VertexStage then pr.(vertex := s.source) else pr.(fragment := s.source)];
      trace := trace + [AttachShader(p, h)];
    }

    method Link(p: nat)
      requires p in programs
      modifies this
      ensures var pr := old(programs[p]); programs == old(programs)[p := pr.(linked := driver.links(pr.vertex, pr.fragment))]
      ensures next == old(next) && shaders == old(shaders)
      ensures trace == old(trace) + [LinkProgram(p)]
    {
      var pr := programs[p];
      programs := programs[p := pr.(linked := driver.links(pr.vertex, pr.fragment))];
      trace := trace + [LinkProgram(p)];
    }

    /** `getProgramParameter(p, gl.LINK_STATUS)` */
    method LinkStatus(p: nat) returns (ok: bool)
      requires p in programs
      ensures ok == programs[p].linked
    {
      ok := programs[p].linked;
    }

    method ProgramInfoLog(p: nat) returns (log: string)
      requires p in programs
      ensures log == driver.linkLog(programs[p].vertex, programs[p].fragment)
    {
      log := driver.linkLog(programs[p].vertex, programs[p].fragment);
    }

    method Delete(p: nat)
      modifies this
      ensures Snapshot() == old(Snapshot()).(trace := old(trace) + [DeleteProgram(p)], programs := old(programs) - {p})
    {
      programs := programs - {p};
      trace := trace + [DeleteProgram(p)];
    }

    /** `getUniformLocation`: `null` unless the linked program has the uniform active. */
    method UniformLocation(p: nat, name: string) returns (loc: Option<Location>)
      requires p in programs
      ensures loc == if programs[p].linked && name in driver.uniforms(programs[p].vertex, programs[p].fragment)
        then Some(Location(p, name)) else None
    {
      if programs[p].linked && name in driver.uniforms(programs[p].vertex, programs[p].fragment) {
        loc := Some(Location(p, name));
      } else {
        loc := None;
      }
    }

    method AttribLocation(p: nat, name: string) returns (a: int)
      requires p in programs
      ensures a == driver.attribute(programs[p].vertex, programs[p].fragment, name)
    {
      a := driver.attribute(programs[p].vertex, programs[p].fragment, name);
    }

    method NewBuffer() returns (b: nat)
      modifies this
      ensures b == old(next)
      ensures Snapshot() == old(Snapshot()).(trace := old(trace) + [CreateBuffer(b)], next := b + 1)
    {
      b := next;
      next := next + 1;
      trace := trace + [CreateBuffer(b)];
    }
  }

  // ------------------------------------------------------------ the texts

  /** The vertex shader every program is linked with. */
  const VertexSource := "\n      attribute vec2 position;\n      void main() {\n        gl_Position = vec4(position, 0.0, 1.0);\n      }\n    "

  /** The fragment shader the renderer starts with. */
  const DefaultFragment := "\n      precision mediump float;\n      uniform float time;\n      uniform vec2 resolution;\n      \n      void main() {\n        vec2 uv = gl_FragCoord.xy / resolution.xy;\n        gl_FragColor = vec4(uv.x, uv.y, sin(time * 0.001) * 0.5 + 0.5, 1.0);\n      }\n    "

  /** The quad covering the canvas: two triangles, six two-component vertices. */
  const Quad: seq<real> := [-1.0, -1.0, 1.0, -1.0, 1.0, 1.0, -1.0, -1.0, 1.0, 1.0, -1.0, 1.0]

  // ------------------------------------------------- what the operations do

  /** The error `createProgram` throws for these sources, if any. */
  function ProgramError(d: Driver, vs: string, fs: string): Option<string> {
    if !d.compiles(VertexStage, vs) then Some("Vertex shader compile error: " + d.compileLog(VertexStage, vs))
    else if !d.compiles(FragmentStage, fs) then Some("Fragment shader compile error: " + d.compileLog(FragmentStage, fs))
    else if !d.links(vs, fs) then Some("Shader program link error: " + d.linkLog(vs, fs))
    else None
  }

  function CompileCalls(stage: Stage, h: nat, source: string): seq<Call> {
    [CreateShader(stage, h), ShaderSource(h, source), CompileShader(h)]
  }

  function LinkCalls(p: nat, v: nat, f: nat): seq<Call> {
    [CreateProgram(p), AttachShader(p, v), AttachShader(p, f), LinkProgram(p)]
  }

  /** Pointing the `position` attribute at the bound buffer. */
  function AttributeCalls(attribute: int): seq<Call> {
    [EnableVertexAttribArray(attribute), VertexAttribPointer(attribute, 2, 0, 0)]
  }

  /** `createBuffers`: a new buffer holding the quad, bound to `position`. */
  function BufferCalls(b: nat, attribute: int): seq<Call> {
    [CreateBuffer(b), BindArrayBuffer(b), BufferData(Quad)] + AttributeCalls(attribute)
  }

  /** Where `getUniformLocation` finds `name` in program `p`, linked from `vs` and `fs`. */
  function UniformOf(d: Driver, p: nat, vs: string, fs: string, name: string): Option<Location> {
    if name in d.uniforms(vs, fs) then Some(Location(p, name)) else None
  }

  /** Creating shader `c.next` of `stage` from `source`, and compiling it. */
  function Compiled(d: Driver, c: Context, stage: Stage, source: string): Context {
    Context(c.trace + CompileCalls(stage, c.next, source), c.next + 1,
      c.shaders[c.next := Shader(stage, source, d.compiles(stage, source))], c.programs)
  }

  /** Creating program `c.next`, attaching shaders `v` and `f` (sources `vs` and `fs`), and linking it. */
  function Linked(d: Driver, c: Context, v: nat, f: nat, vs: string, fs: string): Context {
    Context(c.trace + LinkCalls(c.next, v, f), c.next + 1, c.shaders,
      c.programs[c.next := Program(vs, fs, d.links(vs, fs))])
  }

  /** `createBuffers` while the program linked from `vs` and `fs` is current. */
  function WithBuffer(d: Driver, s: State, vs: string, fs: string): State {
    var c := s.context;
    s.(context := c.(trace := c.trace + BufferCalls(c.next, d.attribute(vs, fs, "position")), next := c.next + 1),
       positionBuffer := Some(c.next))
  }

  /** The previous program deleted, `p` made current, and its uniform locations taken. */
  function Selected(d: Driver, s: State, p: nat, vs: string, fs: string): State {
    var c := s.context;
    var c1 := if s.program.Some? then c.(trace := c.trace + [DeleteProgram(s.program.value)],
                                         programs := c.programs - {s.program.value}) else c;
    State(c1.(trace := c1.trace + [UseProgram(p)]), Some(p),
      UniformOf(d, p, vs, fs, "time"), UniformOf(d, p, vs, fs, "resolution"), s.positionBuffer)
  }

  /** The end of `createProgram` once `p` has linked: the old program goes, `p` is used, the quad is made or re-bound. */
  function Installed(d: Driver, s: State, p: nat, vs: string, fs: string): State {
    var s2 := Selected(d, s, p, vs, fs);
    var c2 := s2.context;
    if s.positionBuffer.None? then WithBuffer(d, s2, vs, fs)
    else s2.(context := c2.(trace := c2.trace + ([BindArrayBuffer(s.positionBuffer.value)]
                                                 + AttributeCalls(d.attribute(vs, fs, "position")))))
  }

  /** `createProgram(vs, fs)` from state `s`: the state it leaves and the error it throws, if any. */
  function ProgramCreated(d: Driver, s: State, vs: string, fs: string): (r: (State, Option<string>))
    ensures r.1 == ProgramError(d, vs, fs)
  {
    var s1 := s.(context := Compiled(d, s.context, VertexStage, vs));
    if !d.compiles(VertexStage, vs) then (s1, ProgramError(d, vs, fs))
    else FragmentCreated(d, s1, s.context.next, vs, fs)
  }

  /** The rest of `createProgram` once vertex shader `v` has compiled. */
  function FragmentCreated(d: Driver, s: State, v: nat, vs: string, fs: string): (r: (State, Option<string>))
    requires d.compiles(VertexStage, vs)
    ensures r.1 == ProgramError(d, vs, fs)
  {
    var s2 := s.(context := Compiled(d, s.context, FragmentStage, fs));
    if !d.compiles(FragmentStage, fs) then (s2, ProgramError(d, vs, fs))
    else LinkCreated(d, s2, v, s.context.next, vs, fs)
  }

  /** The rest of `createProgram` once fragment shader `f` has compiled too. */
  function LinkCreated(d: Driver, s: State, v: nat, f: nat, vs: string, fs: string): (r: (State, Option<string>))
    requires d.compiles(VertexStage, vs) && d.compiles(FragmentStage, fs)
    ensures r.1 == ProgramError(d, vs, fs)
  {
    var s3 := s.(context := Linked(d, s.context, v, f, vs, fs));
    if !d.links(vs, fs) then (s3, ProgramError(d, vs, fs))
    else (Installed(d, s3, s.context.next, vs, fs), None)
  }

  /**
   * `initDefaultShader` from state `s`: the default program, then
   * `createBuffers` once more. It fails exactly when the default shaders
   * fail to compile or link, with that message.
   */
  function DefaultCreated(d: Driver, s: State): (r: (State, Option<string>))
    ensures r.1 == ProgramError(d, VertexSource, DefaultFragment)
  {
    var r := ProgramCreated(d, s, VertexSource, DefaultFragment);
    if r.1.Some? then r else (WithBuffer(d, r.0, VertexSource, DefaultFragment), None)
  }

  /** The calls one `render` makes. */
  function FrameCalls(p: nat, timeLocation: Option<Location>, resolutionLocation: Option<Location>,
                      time: int, width: int, height: int): seq<Call> {
    [ClearColor(0.0, 0.0, 0.0, 1.0), ClearColorBuffer, UseProgram(p)]
    + (if timeLocation.Some? then [Uniform1f(timeLocation.value, time)] else [])
    + (if resolutionLocation.Some? then [Uniform2f(resolutionLocation.value, width, height)] else [])
    + [DrawTriangles(0, 6)]
  }

  /** Every object of the context has a handle below the next one. */
  predicate Live(c: Context) {
    && (forall k :: k in c.shaders ==> k < c.next)
    && (forall k :: k in c.programs ==> k < c.next)
  }

  /** The handles held are live objects of the context, and the locations belong to the current program. */
  predicate Consistent(s: State) {
    && Live(s.context)
    && (s.program.Some? ==> s.program.value < s.context.next && s.program.value in s.context.programs)
    && (s.positionBuffer.Some? ==> s.positionBuffer.value < s.context.next)
    && (s.timeLocation.Some? ==> s.program.Some? && s.timeLocation.value == Location(s.program.value, "time"))
    && (s.resolutionLocation.Some? ==> s.program.Some? && s.resolutionLocation.value == Location(s.program.value, "resolution"))
  }

  // ---------------------------------------------------------- the renderer

  class ShaderRenderer {
    const gl: Gl
    const canvas: Canvas
    var program: Option<nat>
    var timeLocation: Option<Location>
    var resolutionLocation: Option<Location>
    var positionBuffer: Option<nat>
    var startTime: int

    function Snapshot(): State
      reads this, gl
    {
      State(gl.Snapshot(), program, timeLocation, resolutionLocation, positionBuffer)
    }

    /** A constructed renderer: consistent, with a program installed and the quad buffer made. */
    ghost predicate Valid()
      reads this, gl
    {
      Consistent(Snapshot()) && program.Some? && positionBuffer.Some?
    }

    /** The fields as the constructor sets them before it installs the default shader. */
    constructor (gl: Gl, canvas: Canvas, now: int)
      ensures this.gl == gl && this.canvas == canvas && startTime == now
      ensures Snapshot() == State(gl.Snapshot(), None, None, None, None)
    {
      this.gl := gl;
      this.canvas := canvas;
      program, timeLocation, resolutionLocation, positionBuffer := None, None, None, None;
      startTime := now;
    }

    /** `new ShaderRenderer(gl, canvas)` at time `now`: `null` fields, then the default shader, or the error it throws. */
    static method Create(gl: Gl, canvas: Canvas, now: int) returns (r: Result<ShaderRenderer, string>)
      requires Live(gl.Snapshot())
      modifies gl
      ensures var after := DefaultCreated(gl.driver, State(old(gl.Snapshot()), None, None, None, None));
        && gl.Snapshot() == after.0.context
        && (r.Failure? <==> after.1.Some?)
        && (r.Failure? ==> after.1 == Some(r.error))
        && (r.Success? ==> fresh(r.value) && r.value.gl == gl && r.value.canvas == canvas
                           && r.value.startTime == now && r.value.Snapshot() == after.0 && r.value.Valid())
    {
      var renderer := new ShaderRenderer(gl, canvas, now);
      var error := renderer.InitDefaultShader();
      if error.Some? {
        return Failure(error.value);
      }
      return Success(renderer);
    }

    /** `initDefaultShader`. */
    method InitDefaultShader() returns (error: Option<string>)
      requires Consistent(Snapshot())
      modifies this, gl
      ensures (Snapshot(), error) == DefaultCreated(gl.driver, old(Snapshot()))
      ensures error.None? ==> Valid()
      ensures startTime == old(startTime)
    {
      error := CreateProgram(VertexSource, DefaultFragment);
      if error.None? {
        CreateBuffers();
        BufferKeepsConsistent(gl.driver, ProgramCreated(gl.driver, old(Snapshot()), VertexSource, DefaultFragment).0,
          VertexSource, DefaultFragment);
      }
    }

    /** `setShader`: the fixed vertex shader with a new fragment shader; a failure is re-thrown with a prefix. */
    method SetShader(fragmentSource: string) returns (r: Result<bool, string>)
      requires Consistent(Snapshot())
      modifies this, gl
      ensures Snapshot() == ProgramCreated(gl.driver, old(Snapshot()), VertexSource, fragmentSource).0
      ensures Consistent(Snapshot()) && startTime == old(startTime)
      ensures old(Valid()) ==> Valid()
      ensures r == match ProgramError(gl.driver, VertexSource, fragmentSource)
        case None => Success(true)
        case Some(message) => Failure("Shader compilation failed: " + message)
    {
      if ProgramError(gl.driver, VertexSource, fragmentSource).Some? {
        FailedCreateKeepsRenderer(gl.driver, Snapshot(), VertexSource, fragmentSource);
      } else {
        SucceededCreateInstalls(gl.driver, Snapshot(), VertexSource, fragmentSource);
      }
      var error := CreateProgram(VertexSource, fragmentSource);
      if error.Some? {
        return Failure("Shader compilation failed: " + error.value);
      }
      return Success(true);
    }

    /** Creating and compiling one shader; the error is the one `createProgram` throws for it. */
    method CompileStage(stage: Stage, source: string, prefix: string) returns (h: nat, error: Option<string>)
      modifies gl
      ensures h == old(gl.next) && gl.Snapshot() == Compiled(gl.driver, old(gl.Snapshot()), stage, source)
      ensures error == if gl.driver.compiles(stage, source) then None else Some(prefix + gl.driver.compileLog(stage, source))
    {
      h := gl.NewShader(stage);
      gl.SetSource(h, source);
      gl.Compile(h);
      var ok := gl.CompileStatus(h);
      if !ok {
        var log := gl.ShaderInfoLog(h);
        return h, Some(prefix + log);
      }
      return h, None;
    }

    /** Creating a program from the two compiled shaders and linking it. */
    method LinkStages(v: nat, f: nat, vs: string, fs: string) returns (p: nat, error: Option<string>)
      requires v in gl.shaders && gl.shaders[v].stage == VertexStage && gl.shaders[v].source == vs
      requires f in gl.shaders && gl.shaders[f].stage == FragmentStage && gl.shaders[f].source == fs
      modifies gl
      ensures p == old(gl.next) && gl.Snapshot() == Linked(gl.driver, old(gl.Snapshot()), v, f, vs, fs)
      ensures error == if gl.driver.links(vs, fs) then None else Some("Shader program link error: " + gl.driver.linkLog(vs, fs))
    {
      p := gl.NewProgram();
      gl.Attach(p, v);
      gl.Attach(p, f);
      gl.Link(p);
      var ok := gl.LinkStatus(p);
      if !ok {
        var log := gl.ProgramInfoLog(p);
        return p, Some("Shader program link error: " + log);
      }
      return p, None;
    }

    /** The part of `createProgram` after a successful link. */
    method Install(p: nat, vs: string, fs: string)
      requires p in gl.programs && gl.programs[p] == Program(vs, fs, true)
      requires program.Some? ==> program.value != p
      modifies this, gl
      ensures Snapshot() == Installed(gl.driver, old(Snapshot()), p, vs, fs)
      ensures startTime == old(startTime)
    {
      Select(p, vs, fs);
      if positionBuffer.None? {
        CreateBuffers();
      } else {
        var position := gl.AttribLocation(p, "position");
        gl.Record(BindArrayBuffer(positionBuffer.value));
        gl.Record(EnableVertexAttribArray(position));
        gl.Record(VertexAttribPointer(position, 2, 0, 0));
      }
    }

    /** The first half of the install: the old program goes, `p` is used and its uniforms are looked up. */
    method Select(p: nat, vs: string, fs: string)
      requires p in gl.programs && gl.programs[p] == Program(vs, fs, true)
      requires program.Some? ==> program.value != p
      modifies this, gl
      ensures Snapshot() == Selected(gl.driver, old(Snapshot()), p, vs, fs)
      ensures startTime == old(startTime)
    {
      if program.Some? {
        gl.Delete(program.value);
      }
      program := Some(p);
      gl.Record(UseProgram(p));
      timeLocation := gl.UniformLocation(p, "time");
      resolutionLocation := gl.UniformLocation(p, "resolution");
    }

    /** `createProgram`: compile both stages, link, install; the first failure is thrown. */
    method CreateProgram(vs: string, fs: string) returns (error: Option<string>)
      requires Consistent(Snapshot())
      modifies this, gl
      ensures (Snapshot(), error) == ProgramCreated(gl.driver, old(Snapshot()), vs, fs)
      ensures Consistent(Snapshot()) && startTime == old(startTime)
    {
      ProgramCreatedConsistent(gl.driver, Snapshot(), vs, fs);
      var v, f, p;
      v, error := CompileStage(VertexStage, vs, "Vertex shader compile error: ");
      if error.Some? {
        return;
      }
      ghost var s1 := Snapshot();
      f, error := CompileStage(FragmentStage, fs, "Fragment shader compile error: ");
      assert Snapshot() == s1.(context := Compiled(gl.driver, s1.context, FragmentStage, fs));
      if error.Some? {
        return;
      }
      ghost var s2 := Snapshot();
      p, error := LinkStages(v, f, vs, fs);
      assert Snapshot() == s2.(context := Linked(gl.driver, s2.context, v, f, vs, fs));
      if error.Some? {
        return;
      }
      assert ProgramCreated(gl.driver, old(Snapshot()), vs, fs) == FragmentCreated(gl.driver, s1, v, vs, fs);
      assert FragmentCreated(gl.driver, s1, v, vs, fs) == LinkCreated(gl.driver, s2, v, f, vs, fs);
      Install(p, vs, fs);
    }

    /** `createBuffers`: a new buffer holding the quad, bound to the current program's `position` attribute. */
    method CreateBuffers()
      requires program.Some? && program.value in gl.programs
      modifies this`positionBuffer, gl
      ensures var pr := old(gl.programs[program.value]);
        Snapshot() == WithBuffer(gl.driver, old(Snapshot()), pr.vertex, pr.fragment)
    {
      var b := gl.NewBuffer();
      positionBuffer := Some(b);
      gl.Record(BindArrayBuffer(b));
      gl.Record(BufferData(Quad));
      var position := gl.AttribLocation(program.value, "position");
      gl.Record(EnableVertexAttribArray(position));
      gl.Record(VertexAttribPointer(position, 2, 0, 0));
    }

    /** `resize`: only the viewport changes. */
    method Resize(width: int, height: int)
      modifies gl
      ensures gl.Snapshot() == old(gl.Snapshot()).(trace := old(gl.trace) + [Viewport(0, 0, width, height)])
    {
      gl.Record(Viewport(0, 0, width, height));
    }

    /** `render`: the time pushed is `now - startTime`; `currentTime` is ignored. */
    method Render(currentTime: real, now: int)
      requires Valid()
      modifies gl
      ensures gl.Snapshot() == old(gl.Snapshot()).(trace := old(gl.trace)
        + FrameCalls(program.value, timeLocation, resolutionLocation, now - startTime, canvas.width, canvas.height))
    {
      var time := now - startTime;
      gl.Record(ClearColor(0.0, 0.0, 0.0, 1.0));
      gl.Record(ClearColorBuffer);
      gl.Record(UseProgram(program.value));
      if timeLocation.Some? {
        gl.Record(Uniform1f(timeLocation.value, time));
      }
      if resolutionLocation.Some? {
        gl.Record(Uniform2f(resolutionLocation.value, canvas.width, canvas.height));
      }
      gl.Record(DrawTriangles(0, 6));
    }
  }

  // ------------------------------------------------------------- the lemmas

  lemma CompiledConsistent(d: Driver, s: State, stage: Stage, source: string)
    requires Consistent(s)
    ensures Consistent(s.(context := Compiled(d, s.context, stage, source)))
  {
  }

  lemma LinkedConsistent(d: Driver, s: State, v: nat, f: nat, vs: string, fs: string)
    requires Consistent(s)
    ensures Consistent(s.(context := Linked(d, s.context, v, f, vs, fs)))
  {
  }

  lemma InstalledConsistent(d: Driver, s: State, p: nat, vs: string, fs: string)
    requires Consistent(s) && p in s.context.programs && (s.program.Some? ==> s.program.value != p)
    ensures Consistent(Installed(d, s, p, vs, fs))
  {
  }

  /** `createProgram` keeps the renderer consistent, whether it throws or not. */
  lemma ProgramCreatedConsistent(d: Driver, s: State, vs: string, fs: string)
    requires Consistent(s)
    ensures Consistent(ProgramCreated(d, s, vs, fs).0)
  {
    var n := s.context.next;
    var s1 := s.(context := Compiled(d, s.context, VertexStage, vs));
    CompiledConsistent(d, s, VertexStage, vs);
    if d.compiles(VertexStage, vs) {
      var s2 := s1.(context := Compiled(d, s1.context, FragmentStage, fs));
      CompiledConsistent(d, s1, FragmentStage, fs);
      if d.compiles(FragmentStage, fs) {
        var s3 := s2.(context := Linked(d, s2.context, n, n + 1, vs, fs));
        LinkedConsistent(d, s2, n, n + 1, vs, fs);
        if d.links(vs, fs) {
          InstalledConsistent(d, s3, n + 2, vs, fs);
        }
      }
    }
  }

  /** `createBuffers` keeps the renderer consistent, and the renderer then holds a buffer. */
  lemma BufferKeepsConsistent(d: Driver, s: State, vs: string, fs: string)
    requires Consistent(s)
    ensures Consistent(WithBuffer(d, s, vs, fs)) && WithBuffer(d, s, vs, fs).positionBuffer.Some?
  {
  }

  // ------------------------------------------------------------- the trace

  /** The handles a call sequence names through `pick`, in order. */
  function Handles(calls: seq<Call>, pick: Call -> Option<nat>): seq<nat> {
    if calls == [] then [] else (if pick(calls[0]).Some? then [pick(calls[0]).value] else []) + Handles(calls[1..], pick)
  }

  function DeletedBy(c: Call): Option<nat> {
    if c.DeleteProgram? then Some(c.program) else None
  }

  function UsedBy(c: Call): Option<nat> {
    if c.UseProgram? then Some(c.program) else None
  }

  function BufferMadeBy(c: Call): Option<nat> {
    if c.CreateBuffer? then Some(c.buffer) else None
  }

  lemma {:induction false} HandlesConcat(a: seq<Call>, b: seq<Call>, pick: Call -> Option<nat>)
    ensures Handles(a + b, pick) == Handles(a, pick) + Handles(b, pick)
    decreases |a|
  {
    if a == [] {
      assert a + b == b;
    } else {
      var h: seq<nat> := if pick(a[0]).Some? then [pick(a[0]).value] else [];
      assert (a + b)[0] == a[0];
      assert (a + b)[1..] == a[1..] + b;
      HandlesConcat(a[1..], b, pick);
      assert Handles(a + b, pick) == h + (Handles(a[1..], pick) + Handles(b, pick));
      assert Handles(a, pick) == h + Handles(a[1..], pick);
    }
  }

  lemma HandlesOne(c: Call, pick: Call -> Option<nat>)
    ensures Handles([c], pick) == if pick(c).Some? then [pick(c).value] else []
  {
    assert [c][1..] == [];
  }

  lemma {:induction false} HandlesNone(calls: seq<Call>, pick: Call -> Option<nat>)
    requires forall i :: 0 <= i < |calls| ==> pick(calls[i]).None?
    ensures Handles(calls, pick) == []
    decreases |calls|
  {
    if calls != [] {
      assert pick(calls[0]).None?;
      HandlesNone(calls[1..], pick);
    }
  }

  /** The calls that create, compile, attach and link: they make no program current, delete nothing and create no buffer. */
  predicate Setup(c: Call) {
    c.CreateShader? || c.ShaderSource? || c.CompileShader? || c.CreateProgram? || c.AttachShader? || c.LinkProgram?
  }

  /** The calls of `createProgram` after a successful link. */
  function InstallCalls(current: Option<nat>, p: nat, buffer: Option<nat>, made: nat, attribute: int): seq<Call> {
    (if current.Some? then [DeleteProgram(current.value)] else []) + [UseProgram(p)]
    + (if buffer.None? then BufferCalls(made, attribute) else [BindArrayBuffer(buffer.value)] + AttributeCalls(attribute))
  }

  /** The calls `createProgram(vs, fs)` makes when the next handle is `n`: it stops at the first failure. */
  function ProgramCalls(d: Driver, n: nat, vs: string, fs: string, current: Option<nat>, buffer: Option<nat>): seq<Call> {
    CompileCalls(VertexStage, n, vs)
    + if !d.compiles(VertexStage, vs) then [] else FragmentCalls(d, n, vs, fs, current, buffer)
  }

  /** The calls after vertex shader `v` has compiled. */
  function FragmentCalls(d: Driver, v: nat, vs: string, fs: string, current: Option<nat>, buffer: Option<nat>): seq<Call> {
    CompileCalls(FragmentStage, v + 1, fs)
    + if !d.compiles(FragmentStage, fs) then [] else LinkStageCalls(d, v, vs, fs, current, buffer)
  }

  /** The calls after both shaders have compiled. */
  function LinkStageCalls(d: Driver, v: nat, vs: string, fs: string, current: Option<nat>, buffer: Option<nat>): seq<Call> {
    LinkCalls(v + 2, v, v + 1)
    + if !d.links(vs, fs) then [] else InstallCalls(current, v + 2, buffer, v + 3, d.attribute(vs, fs, "position"))
  }

  lemma Assoc(t: seq<Call>, a: seq<Call>, b: seq<Call>)
    ensures t + a + b == t + (a + b)
  {
  }

  lemma InstalledTrace(d: Driver, s: State, p: nat, vs: string, fs: string)
    ensures Installed(d, s, p, vs, fs).context.trace
      == s.context.trace + InstallCalls(s.program, p, s.positionBuffer, s.context.next, d.attribute(vs, fs, "position"))
  {
    var t := s.context.trace;
    var del: seq<Call> := if s.program.Some? then [DeleteProgram(s.program.value)] else [];
    var attr := d.attribute(vs, fs, "position");
    var rest := if s.positionBuffer.None? then BufferCalls(s.context.next, attr)
                else [BindArrayBuffer(s.positionBuffer.value)] + AttributeCalls(attr);
    assert Installed(d, s, p, vs, fs).context.trace == t + del + [UseProgram(p)] + rest;
    Assoc(t, del, [UseProgram(p)]);
    Assoc(t, del + [UseProgram(p)], rest);
  }

  lemma LinkCreatedTrace(d: Driver, s: State, v: nat, vs: string, fs: string)
    requires d.compiles(VertexStage, vs) && d.compiles(FragmentStage, fs) && s.context.next == v + 2
    ensures LinkCreated(d, s, v, v + 1, vs, fs).0.context.trace
      == s.context.trace + LinkStageCalls(d, v, vs, fs, s.program, s.positionBuffer)
  {
    if d.links(vs, fs) {
      var l := LinkCalls(v + 2, v, v + 1);
      var s3 := s.(context := Linked(d, s.context, v, v + 1, vs, fs));
      InstalledTrace(d, s3, v + 2, vs, fs);
      Assoc(s.context.trace, l, InstallCalls(s.program, v + 2, s.positionBuffer, v + 3, d.attribute(vs, fs, "position")));
    }
  }

  lemma FragmentCreatedTrace(d: Driver, s: State, v: nat, vs: string, fs: string)
    requires d.compiles(VertexStage, vs) && s.context.next == v + 1
    ensures FragmentCreated(d, s, v, vs, fs).0.context.trace
      == s.context.trace + FragmentCalls(d, v, vs, fs, s.program, s.positionBuffer)
  {
    if d.compiles(FragmentStage, fs) {
      var s2 := s.(context := Compiled(d, s.context, FragmentStage, fs));
      LinkCreatedTrace(d, s2, v, vs, fs);
      Assoc(s.context.trace, CompileCalls(FragmentStage, v + 1, fs), LinkStageCalls(d, v, vs, fs, s.program, s.positionBuffer));
    }
  }

  /** The trace `createProgram` leaves: the calls it makes, stopping at the first failure. */
  lemma ProgramCreatedTrace(d: Driver, s: State, vs: string, fs: string)
    ensures ProgramCreated(d, s, vs, fs).0.context.trace
      == s.context.trace + ProgramCalls(d, s.context.next, vs, fs, s.program, s.positionBuffer)
  {
    var n := s.context.next;
    if d.compiles(VertexStage, vs) {
      var s1 := s.(context := Compiled(d, s.context, VertexStage, vs));
      FragmentCreatedTrace(d, s1, n, vs, fs);
      Assoc(s.context.trace, CompileCalls(VertexStage, n, vs), FragmentCalls(d, n, vs, fs, s.program, s.positionBuffer));
    }
  }

  /** A pick that sees none of the set-up calls sees in `createProgram` only what happens after a link. */
  lemma ProgramCallsHandles(d: Driver, n: nat, vs: string, fs: string, current: Option<nat>, buffer: Option<nat>,
                            pick: Call -> Option<nat>)
    requires forall c :: Setup(c) ==> pick(c).None?
    ensures Handles(ProgramCalls(d, n, vs, fs, current, buffer), pick)
      == if ProgramError(d, vs, fs).Some? then []
         else Handles(InstallCalls(current, n + 2, buffer, n + 3, d.attribute(vs, fs, "position")), pick)
  {
    var c1 := CompileCalls(VertexStage, n, vs);
    var c2 := CompileCalls(FragmentStage, n + 1, fs);
    var l := LinkCalls(n + 2, n, n + 1);
    assert Setup(c1[0]) && Setup(c1[1]) && Setup(c1[2]);
    HandlesNone(c1, pick);
    assert Setup(c2[0]) && Setup(c2[1]) && Setup(c2[2]);
    HandlesNone(c2, pick);
    assert Setup(l[0]) && Setup(l[1]) && Setup(l[2]) && Setup(l[3]);
    HandlesNone(l, pick);
    if d.compiles(VertexStage, vs) {
      HandlesConcat(c1, FragmentCalls(d, n, vs, fs, current, buffer), pick);
      if d.compiles(FragmentStage, fs) {
        HandlesConcat(c2, LinkStageCalls(d, n, vs, fs, current, buffer), pick);
        if d.links(vs, fs) {
          HandlesConcat(l, InstallCalls(current, n + 2, buffer, n + 3, d.attribute(vs, fs, "position")), pick);
        } else {
          HandlesConcat(l, [], pick);
        }
      } else {
        HandlesConcat(c2, [], pick);
      }
    } else {
      HandlesConcat(c1, [], pick);
    }
  }

  /** What the installing calls delete, make current and create, through `pick`. */
  lemma InstallHandles(current: Option<nat>, p: nat, buffer: Option<nat>, made: nat, attribute: int, pick: Call -> Option<nat>)
    requires pick(EnableVertexAttribArray(attribute)).None? && pick(VertexAttribPointer(attribute, 2, 0, 0)).None?
    requires pick(BindArrayBuffer(if buffer.Some? then buffer.value else made)).None? && pick(BufferData(Quad)).None?
    ensures Handles(InstallCalls(current, p, buffer, made, attribute), pick)
      == (if current.Some? then Handles([DeleteProgram(current.value)], pick) else [])
         + Handles([UseProgram(p)], pick)
         + (if buffer.None? then Handles([CreateBuffer(made)], pick) else [])
  {
    var del: seq<Call> := if current.Some? then [DeleteProgram(current.value)] else [];
    var attr := AttributeCalls(attribute);
    var rest := if buffer.None? then BufferCalls(made, attribute) else [BindArrayBuffer(buffer.value)] + attr;
    var hd: seq<nat> := if current.Some? then Handles([DeleteProgram(current.value)], pick) else [];
    var hr: seq<nat> := if buffer.None? then Handles([CreateBuffer(made)], pick) else [];
    assert InstallCalls(current, p, buffer, made, attribute) == del + [UseProgram(p)] + rest;
    HandlesConcat(del + [UseProgram(p)], rest, pick);
    HandlesConcat(del, [UseProgram(p)], pick);
    assert Handles(del, pick) == hd;
    assert pick(attr[0]).None? && pick(attr[1]).None?;
    if buffer.None? {
      var tail := [BindArrayBuffer(made), BufferData(Quad)] + attr;
      assert pick(tail[0]).None? && pick(tail[1]).None?;
      assert rest == [CreateBuffer(made)] + tail;
      HandlesConcat([CreateBuffer(made)], tail, pick);
      HandlesNone(tail, pick);
    } else {
      assert pick(rest[0]).None?;
      HandlesNone(rest, pick);
    }
    assert Handles(rest, pick) == hr;
  }

  /** The installing calls delete the previous program, if there is one, and nothing else. */
  lemma InstallDeletes(current: Option<nat>, p: nat, buffer: Option<nat>, made: nat, attribute: int)
    ensures Handles(InstallCalls(current, p, buffer, made, attribute), DeletedBy) == if current.Some? then [current.value] else []
  {
    InstallHandles(current, p, buffer, made, attribute, DeletedBy);
    HandlesOne(UseProgram(p), DeletedBy);
    HandlesOne(CreateBuffer(made), DeletedBy);
    if current.Some? {
      HandlesOne(DeleteProgram(current.value), DeletedBy);
    }
  }

  /** The installing calls make the new program current, once. */
  lemma InstallUses(current: Option<nat>, p: nat, buffer: Option<nat>, made: nat, attribute: int)
    ensures Handles(InstallCalls(current, p, buffer, made, attribute), UsedBy) == [p]
  {
    InstallHandles(current, p, buffer, made, attribute, UsedBy);
    HandlesOne(UseProgram(p), UsedBy);
    HandlesOne(CreateBuffer(made), UsedBy);
    if current.Some? {
      HandlesOne(DeleteProgram(current.value), UsedBy);
    }
  }

  /** The installing calls create a buffer only when the renderer has none. */
  lemma InstallMakesBuffer(current: Option<nat>, p: nat, buffer: Option<nat>, made: nat, attribute: int)
    ensures Handles(InstallCalls(current, p, buffer, made, attribute), BufferMadeBy) == if buffer.None? then [made] else []
  {
    InstallHandles(current, p, buffer, made, attribute, BufferMadeBy);
    HandlesOne(UseProgram(p), BufferMadeBy);
    HandlesOne(CreateBuffer(made), BufferMadeBy);
    if current.Some? {
      HandlesOne(DeleteProgram(current.value), BufferMadeBy);
    }
  }

  /** The previous program, if there is one, is deleted exactly once, and only when the new one has linked. */
  lemma ProgramCallsDelete(d: Driver, n: nat, vs: string, fs: string, current: Option<nat>, buffer: Option<nat>)
    ensures Handles(ProgramCalls(d, n, vs, fs, current, buffer), DeletedBy)
      == if ProgramError(d, vs, fs).None? && current.Some? then [current.value] else []
  {
    ProgramCallsHandles(d, n, vs, fs, current, buffer, DeletedBy);
    InstallDeletes(current, n + 2, buffer, n + 3, d.attribute(vs, fs, "position"));
  }

  /** Only the new program is made current, and only when it has linked. */
  lemma ProgramCallsUse(d: Driver, n: nat, vs: string, fs: string, current: Option<nat>, buffer: Option<nat>)
    ensures Handles(ProgramCalls(d, n, vs, fs, current, buffer), UsedBy)
      == if ProgramError(d, vs, fs).None? then [n + 2] else []
  {
    ProgramCallsHandles(d, n, vs, fs, current, buffer, UsedBy);
    InstallUses(current, n + 2, buffer, n + 3, d.attribute(vs, fs, "position"));
  }

  /** A buffer is created only when the renderer has none, and only when the program has linked. */
  lemma ProgramCallsBuffer(d: Driver, n: nat, vs: string, fs: string, current: Option<nat>, buffer: Option<nat>)
    ensures Handles(ProgramCalls(d, n, vs, fs, current, buffer), BufferMadeBy)
      == if ProgramError(d, vs, fs).None? && buffer.None? then [n + 3] else []
  {
    ProgramCallsHandles(d, n, vs, fs, current, buffer, BufferMadeBy);
    InstallMakesBuffer(current, n + 2, buffer, n + 3, d.attribute(vs, fs, "position"));
  }

  /** The calls of `createBuffers` create exactly one buffer, the one they fill, and delete nothing. */
  lemma BufferCallsMake(b: nat, attribute: int)
    ensures Handles(BufferCalls(b, attribute), BufferMadeBy) == [b]
    ensures Handles(BufferCalls(b, attribute), DeletedBy) == []
    ensures BufferCalls(b, attribute)[2] == BufferData(Quad)
  {
    var tail := [BindArrayBuffer(b), BufferData(Quad)] + AttributeCalls(attribute);
    assert BufferCalls(b, attribute) == [CreateBuffer(b)] + tail;
    HandlesConcat([CreateBuffer(b)], tail, BufferMadeBy);
    HandlesConcat([CreateBuffer(b)], tail, DeletedBy);
    HandlesOne(CreateBuffer(b), BufferMadeBy);
    HandlesOne(CreateBuffer(b), DeletedBy);
    HandlesNone(tail, BufferMadeBy);
    HandlesNone(tail, DeletedBy);
  }

  // ------------------------------------------------ what createProgram leaves

  /** A `createProgram` that throws leaves the renderer's fields as they were; a failed link leaves an unlinked program object behind. */
  lemma FailedCreateKeepsRenderer(d: Driver, s: State, vs: string, fs: string)
    requires ProgramError(d, vs, fs).Some?
    ensures var t := ProgramCreated(d, s, vs, fs).0;
      && t == s.(context := t.context)
      && t.context.programs
         == if d.compiles(VertexStage, vs) && d.compiles(FragmentStage, fs)
            then s.context.programs[s.context.next + 2 := Program(vs, fs, false)]
            else s.context.programs
  {
    var n := s.context.next;
    if d.compiles(VertexStage, vs) {
      var s1 := s.(context := Compiled(d, s.context, VertexStage, vs));
      assert ProgramCreated(d, s, vs, fs) == FragmentCreated(d, s1, n, vs, fs);
      if d.compiles(FragmentStage, fs) {
        var s2 := s1.(context := Compiled(d, s1.context, FragmentStage, fs));
        assert FragmentCreated(d, s1, n, vs, fs) == LinkCreated(d, s2, n, n + 1, vs, fs);
      }
    }
  }

  /**
   * A `createProgram` that succeeds makes the newly linked program current,
   * deletes the previous one, takes the uniform locations from the new
   * program, and creates the quad buffer only if the renderer had none.
   */
  lemma SucceededCreateInstalls(d: Driver, s: State, vs: string, fs: string)
    requires ProgramError(d, vs, fs).None? && Consistent(s)
    ensures var n := s.context.next; var t := ProgramCreated(d, s, vs, fs).0;
      && t.program == Some(n + 2)
      && n + 2 in t.context.programs && t.context.programs[n + 2] == Program(vs, fs, true)
      && (s.program.Some? ==> s.program.value !in t.context.programs)
      && t.timeLocation == UniformOf(d, n + 2, vs, fs, "time")
      && t.resolutionLocation == UniformOf(d, n + 2, vs, fs, "resolution")
      && t.positionBuffer == (if s.positionBuffer.None? then Some(n + 3) else s.positionBuffer)
      && t.context.next == n + (if s.positionBuffer.None? then 4 else 3)
  {
    var n := s.context.next;
    var s1 := s.(context := Compiled(d, s.context, VertexStage, vs));
    var s2 := s1.(context := Compiled(d, s1.context, FragmentStage, fs));
    var s3 := s2.(context := Linked(d, s2.context, n, n + 1, vs, fs));
    assert ProgramCreated(d, s, vs, fs) == FragmentCreated(d, s1, n, vs, fs);
    assert FragmentCreated(d, s1, n, vs, fs) == LinkCreated(d, s2, n, n + 1, vs, fs);
    assert LinkCreated(d, s2, n, n + 1, vs, fs).0 == Installed(d, s3, n + 2, vs, fs);
    assert s3.context.programs == s.context.programs[n + 2 := Program(vs, fs, true)];
    assert s3.context.next == n + 3;
  }

  /** `createProgram` from a renderer without program or buffer, then `createBuffers`: two buffers are made and nothing is deleted. */
  lemma CreateThenBuffer(d: Driver, c: Context, vs: string, fs: string)
    requires ProgramError(d, vs, fs).None? && Live(c)
    ensures var t := WithBuffer(d, ProgramCreated(d, State(c, None, None, None, None), vs, fs).0, vs, fs);
      && |c.trace| <= |t.context.trace| && t.context.trace[..|c.trace|] == c.trace
      && Handles(t.context.trace[|c.trace|..], BufferMadeBy) == [c.next + 3, c.next + 4]
      && Handles(t.context.trace[|c.trace|..], DeletedBy) == []
      && t.positionBuffer == Some(c.next + 4)
  {
    var s := State(c, None, None, None, None);
    var r := ProgramCreated(d, s, vs, fs).0;
    var calls := ProgramCalls(d, c.next, vs, fs, None, None);
    ProgramCreatedTrace(d, s, vs, fs);
    assert r.context.trace == c.trace + calls;
    SucceededCreateInstalls(d, s, vs, fs);
    assert r.context.next == c.next + 4;
    ProgramCallsBuffer(d, c.next, vs, fs, None, None);
    assert Handles(calls, BufferMadeBy) == [c.next + 3];
    ProgramCallsDelete(d, c.next, vs, fs, None, None);
    assert Handles(calls, DeletedBy) == [];
    BufferAfter(d, c, r, calls, vs, fs);
  }

  /** `createBuffers` after calls that made buffer `c.next + 3` and deleted nothing. */
  lemma BufferAfter(d: Driver, c: Context, r: State, calls: seq<Call>, vs: string, fs: string)
    requires r.context.trace == c.trace + calls && r.context.next == c.next + 4
    requires Handles(calls, BufferMadeBy) == [c.next + 3] && Handles(calls, DeletedBy) == []
    ensures var t := WithBuffer(d, r, vs, fs);
      && |c.trace| <= |t.context.trace| && t.context.trace[..|c.trace|] == c.trace
      && Handles(t.context.trace[|c.trace|..], BufferMadeBy) == [c.next + 3, c.next + 4]
      && Handles(t.context.trace[|c.trace|..], DeletedBy) == []
      && t.positionBuffer == Some(c.next + 4)
  {
    var more := BufferCalls(c.next + 4, d.attribute(vs, fs, "position"));
    SliceAfter(c.trace, calls, more);
    HandlesConcat(calls, more, BufferMadeBy);
    HandlesConcat(calls, more, DeletedBy);
    BufferCallsMake(c.next + 4, d.attribute(vs, fs, "position"));
  }

  lemma SliceAfter(t: seq<Call>, a: seq<Call>, b: seq<Call>)
    ensures |t| <= |t + a + b| && (t + a + b)[..|t|] == t && (t + a + b)[|t|..] == a + b
  {
  }

  /**
   * The constructor's `initDefaultShader` creates the quad buffer twice: once
   * inside `createProgram`, when the renderer has none yet, and once more
   * when it calls `createBuffers` itself. The first buffer is never deleted;
   * the renderer keeps the second.
   */
  lemma DefaultCreatesTwoBuffers(d: Driver, c: Context)
    requires ProgramError(d, VertexSource, DefaultFragment).None? && Live(c)
    ensures var t := DefaultCreated(d, State(c, None, None, None, None));
      && t.1.None?
      && |c.trace| <= |t.0.context.trace| && t.0.context.trace[..|c.trace|] == c.trace
      && Handles(t.0.context.trace[|c.trace|..], BufferMadeBy) == [c.next + 3, c.next + 4]
      && Handles(t.0.context.trace[|c.trace|..], DeletedBy) == []
      && t.0.positionBuffer == Some(c.next + 4)
  {
    CreateThenBuffer(d, c, VertexSource, DefaultFragment);
  }

  /**
   * Two frames rendered from the same state, at clock readings `now1 <=
   * now2`, make the same calls except the time pushed, which does not go
   * back: `render` leaves `startTime` alone, so both times count from it.
   */
  lemma FrameTimeFollowsClock(p: nat, timeLocation: Option<Location>, resolutionLocation: Option<Location>,
                              startTime: int, now1: int, now2: int, width: int, height: int)
    requires now1 <= now2
    ensures var f1 := FrameCalls(p, timeLocation, resolutionLocation, now1 - startTime, width, height);
      var f2 := FrameCalls(p, timeLocation, resolutionLocation, now2 - startTime, width, height);
      && |f1| == |f2|
      && (forall i :: 0 <= i < |f1| && !f1[i].Uniform1f? ==> f2[i] == f1[i])
      && (forall i :: 0 <= i < |f1| && f1[i].Uniform1f? ==>
            f2[i].Uniform1f? && f2[i].uniform == f1[i].uniform && f1[i].value <= f2[i].value)
  {
  }

  /**
   * One frame clears to opaque black, makes the program current, pushes
   * each uniform exactly when its location was found, and ends with the
   * one draw of the six vertices of the quad.
   */
  lemma FrameDrawsOnce(p: nat, timeLocation: Option<Location>, resolutionLocation: Option<Location>,
                       time: int, width: int, height: int)
    ensures var f := FrameCalls(p, timeLocation, resolutionLocation, time, width, height);
      && 4 <= |f| && f[..3] == [ClearColor(0.0, 0.0, 0.0, 1.0), ClearColorBuffer, UseProgram(p)]
      && f[|f| - 1] == DrawTriangles(0, 6)
      && (forall i :: 0 <= i < |f| - 1 ==> !f[i].DrawTriangles?)
      && ((exists i :: 0 <= i < |f| && f[i].Uniform1f?) <==> timeLocation.Some?)
      && (forall i :: 0 <= i < |f| && f[i].Uniform1f? ==> timeLocation == Some(f[i].uniform) && f[i].value == time)
      && ((exists i :: 0 <= i < |f| && f[i].Uniform2f?) <==> resolutionLocation.Some?)
      && (forall i :: 0 <= i < |f| && f[i].Uniform2f? ==>
            resolutionLocation == Some(f[i].uniform) && f[i].x == width && f[i].y == height)
  {
    var f := FrameCalls(p, timeLocation, resolutionLocation, time, width, height);
    if timeLocation.Some? {
      assert f[3].Uniform1f?;
    }
    if resolutionLocation.Some? {
      assert f[|f| - 2].Uniform2f?;
    }
  }
}
