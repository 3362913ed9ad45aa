/** The typed call façade gl_v1: each wrapper issues its GL call and then checks
    the error flag; shader and program creation also check the handle and the
    compile or link status. Each wrapper is a module-level method taking the GL
    context, proved to produce the outcome and trace that a function of the old
    trace gives. */
module GlFacade {
  import opened GlTypes
  import opened GlContext
  import opened GlErrors
  import opened GlResource
  import opened GlShapes

  /** sizeof(info) of the info-log buffers. */
  const INFO_LOG_SIZE: Int32 := 1024

  // How wrappers compose

  /** Continue with `v` after a check that did not terminate. */
  function Returning<T>(k: Run<()>, v: T): (r: Run<T>)
    ensures r.trace == k.trace
    ensures k.outcome.Ok? <==> r == Run(Ok(v), k.trace)
    ensures k.outcome.Exit? ==> r.outcome == Exit(k.outcome.site, k.outcome.detail)
  {
    match k.outcome
    case Ok(_) => Run(Ok(v), k.trace)
    case Exit(site, detail) => Run(Exit(site, detail), k.trace)
  }

  /** The trace after CheckError, whichever way it ends. */
  function AfterCheck(env: Env, t: seq<Call>): seq<Call> {
    if env.mode == Debug then t + [Call.GetError] else t
  }

  lemma CheckErrorTrace(env: Env, t: seq<Call>, fn: string)
    ensures CheckErrorRun(env, t, fn).trace == AfterCheck(env, t)
    ensures Issued(AfterCheck(env, t)) == Issued(t)
  {
    IssuedSnoc(t, Call.GetError);
  }

  /** A void wrapper: the call, then CheckError labelled `fn`. */
  function CallRun(env: Env, t: seq<Call>, c: Call, fn: string): Run<()> {
    CheckErrorRun(env, t + [c], fn)
  }

  /** How a checked call differs from the program as written, whose CheckError
      re-queries the flag inside GetErrorAndExit: it terminates exactly when the
      model does, with one more glGetError in the trace and the name of the code
      that second query read. */
  lemma CallRunAsWritten(env: Env, t: seq<Call>, c: Call, fn: string)
    ensures var r := CallRun(env, t, c, fn);
      var w := CheckErrorAsWrittenRun(env, t + [c], fn);
      && (w.outcome.Exit? <==> r.outcome.Exit?)
      && (r.outcome.Ok? ==> w == r)
      && (r.outcome.Exit? ==>
            && w.trace == r.trace + [Call.GetError]
            && w.outcome == Exit(fn, ErrorString(env.driver.error(r.trace + [Call.GetError]))))
  {
    CheckErrorAsWrittenPolicy(env, t + [c], fn);
    CheckErrorPolicy(env, t + [c], fn);
    assert t + [c] + [Call.GetError] + [Call.GetError] == t + [c] + [Call.GetError, Call.GetError];
  }

  /** A debug build where glClear raises GL_INVALID_ENUM and the flag is reset once
      read: the program as written reports the failing call as "GL_NO_ERROR", the
      corrected check as "GL_INVALID_ENUM". */
  lemma CheckErrorReportsClearedFlag()
    ensures var env := Env(FlagDriver(INVALID_ENUM), Debug);
      var clear := Call.Clear(MaskBit.ColorBufferBit.Value());
      && CheckErrorAsWrittenRun(env, [clear], "glClear").outcome == Exit("glClear", "GL_NO_ERROR")
      && CallRun(env, [], clear, "glClear").outcome == Exit("glClear", "GL_INVALID_ENUM")
  {
    var env := Env(FlagDriver(INVALID_ENUM), Debug);
    var clear := Call.Clear(MaskBit.ColorBufferBit.Value());
    var one := [clear, Call.GetError];
    var two := [clear, Call.GetError, Call.GetError];
    assert [] + [clear] == [clear];
    assert [clear] + [Call.GetError] == one;
    assert one + [Call.GetError] == two;
    assert one[..1] == [clear];
    assert two[..2] == one;
    assert env.driver.error(one) == INVALID_ENUM;
    assert env.driver.error(two) == NO_ERROR;
    assert ERROR_NAMES[INVALID_ENUM] == "GL_INVALID_ENUM" && ERROR_NAMES[NO_ERROR] == "GL_NO_ERROR";
    assert ErrorString(INVALID_ENUM) == "GL_INVALID_ENUM";
    assert ErrorString(NO_ERROR) == "GL_NO_ERROR";
  }

  /** glCreateShader or glCreateProgram: a zero handle means GetErrorAndExit. */
  function CreateRun(env: Env, t: seq<Call>, c: Call, fn: string): Run<UInt32> {
    var t1 := t + [c];
    var h := env.driver.handle(t1);
    if h == 0 then GetErrorAndExitRun(env, t1, fn) else Run(Ok(h), t1)
  }

  /** glGenBuffers or glGenVertexArrays: the handle written, after CheckError. */
  function GenRun(env: Env, t: seq<Call>, c: Call, fn: string): Run<UInt32> {
    Returning(CheckErrorRun(env, t + [c], fn), env.driver.handle(t + [c]))
  }

  /** glGetAttribLocation or glGetUniformLocation: the location, after CheckError. */
  function LocationRun(env: Env, t: seq<Call>, c: Call, fn: string): Run<Int32> {
    Returning(CheckErrorRun(env, t + [c], fn), env.driver.location(t + [c]))
  }

  // Compile and link status

  /** The two status-checked steps, compile and link, differ only in their calls and labels. */
  datatype Stage = Compile | Link {
    function Action(n: UInt32): Call {
      if this == Compile then Call.CompileShader(n) else Call.LinkProgram(n)
    }
    function Query(n: UInt32): Call {
      if this == Compile then Call.GetShaderiv(n, COMPILE_STATUS) else Call.GetProgramiv(n, LINK_STATUS)
    }
    function InfoLog(n: UInt32): Call {
      if this == Compile then Call.GetShaderInfoLog(n, INFO_LOG_SIZE) else Call.GetProgramInfoLog(n, INFO_LOG_SIZE)
    }
    function ActionName(): string {
      if this == Compile then "glCompileShader" else "glLinkProgram"
    }
    function QueryName(): string {
      if this == Compile then "glGetShaderiv" else "glGetProgramiv"
    }
  }

  /** CompileShader(shader) or LinkProgram(program): the action and its check, the
      status query and its check, and on a status other than GL_TRUE the info log
      and termination. */
  function StatusRun(env: Env, t: seq<Call>, stage: Stage, n: UInt32): Run<()> {
    var k1 := CheckErrorRun(env, t + [stage.Action(n)], stage.ActionName());
    if k1.outcome.Exit? then k1
    else
      var t2 := k1.trace + [stage.Query(n)];
      var status := env.driver.status(t2);
      var k2 := CheckErrorRun(env, t2, stage.QueryName());
      if k2.outcome.Exit? then k2
      else if status != GL_TRUE then
        var t3 := k2.trace + [stage.InfoLog(n)];
        Run(Exit(stage.ActionName(), env.driver.infoLog(t3)), t3)
      else k2
  }

  /** The history the status query is answered on. */
  function StatusHistory(env: Env, t: seq<Call>, stage: Stage, n: UInt32): seq<Call> {
    AfterCheck(env, t + [stage.Action(n)]) + [stage.Query(n)]
  }

  /** The status step terminates exactly when a debug check reads an error or the
      status is not GL_TRUE; in an NDEBUG build exactly when the status is not
      GL_TRUE. An error read after the action prints the action's name, one read
      after the query the query's name, each with the code's name; a bad status
      prints the info log after the action's name. */
  lemma StatusRunExits(env: Env, t: seq<Call>, stage: Stage, n: UInt32)
    ensures var r := StatusRun(env, t, stage, n);
      var q := StatusHistory(env, t, stage, n);
      var e1 := env.driver.error(t + [stage.Action(n), Call.GetError]);
      var e2 := env.driver.error(q + [Call.GetError]);
      && (env.mode == Debug && e1 != NO_ERROR ==> r.outcome == Exit(stage.ActionName(), ErrorString(e1)))
      && (env.mode == Debug && e1 == NO_ERROR && e2 != NO_ERROR ==> r.outcome == Exit(stage.QueryName(), ErrorString(e2)))
      && (r.outcome.Exit? <==>
            || (env.mode == Debug && env.driver.error(t + [stage.Action(n), Call.GetError]) != NO_ERROR)
            || (env.mode == Debug && env.driver.error(q + [Call.GetError]) != NO_ERROR)
            || env.driver.status(q) != GL_TRUE)
      && (env.mode == Release ==> (r.outcome.Exit? <==> env.driver.status(q) != GL_TRUE))
      && (r.outcome.Exit? && env.driver.status(q) != GL_TRUE
          && (env.mode == Release || (env.driver.error(t + [stage.Action(n), Call.GetError]) == NO_ERROR
                                      && env.driver.error(q + [Call.GetError]) == NO_ERROR)) ==>
            r.outcome == Exit(stage.ActionName(), env.driver.infoLog(AfterCheck(env, q) + [stage.InfoLog(n)])))
  {
    assert t + [stage.Action(n)] + [Call.GetError] == t + [stage.Action(n), Call.GetError];
  }

  lemma StatusRunTrace(env: Env, t: seq<Call>, stage: Stage, n: UInt32)
    ensures var r := StatusRun(env, t, stage, n);
      && t <= r.trace
      && (r.outcome.Ok? ==> r.trace == AfterCheck(env, StatusHistory(env, t, stage, n)))
  {
    var t1 := t + [stage.Action(n)];
    var q := StatusHistory(env, t, stage, n);
    var k1 := CheckErrorRun(env, t1, stage.ActionName());
    CheckErrorTrace(env, t1, stage.ActionName());
    assert t <= t1 <= k1.trace;
    if k1.outcome.Ok? {
      var k2 := CheckErrorRun(env, q, stage.QueryName());
      CheckErrorTrace(env, q, stage.QueryName());
      assert k1.trace <= q <= k2.trace;
      if k2.outcome.Ok? && env.driver.status(q) != GL_TRUE {
        assert k2.trace <= k2.trace + [stage.InfoLog(n)];
      }
    }
  }

  /** On success the status step issued the action and then the status query. */
  lemma StatusRunIssued(env: Env, t: seq<Call>, stage: Stage, n: UInt32)
    ensures var r := StatusRun(env, t, stage, n);
      && t <= r.trace
      && (r.outcome.Ok? ==> Issued(r.trace) == Issued(t) + [stage.Action(n), stage.Query(n)])
  {
    StatusRunTrace(env, t, stage, n);
    var t1 := t + [stage.Action(n)];
    var q := StatusHistory(env, t, stage, n);
    CheckErrorTrace(env, t1, stage.ActionName());
    CheckErrorTrace(env, q, stage.QueryName());
    IssuedSnoc(t, stage.Action(n));
    IssuedSnoc(AfterCheck(env, t1), stage.Query(n));
    assert Issued(AfterCheck(env, q)) == Issued(t) + [stage.Action(n), stage.Query(n)];
  }

  // Shader sources

  /** strlen: the number of characters before the first NUL. */
  function StrLen(s: string): (n: nat)
    ensures n <= |s|
    ensures forall i | 0 <= i < n :: s[i] != '\0'
    ensures n < |s| ==> s[n] == '\0'
  {
    if s == [] || s[0] == '\0' then 0 else 1 + StrLen(s[1..])
  }

  /** ShaderSource: one string, its length as strlen gives it. */
  function ShaderSourceCall(shader: UInt32, source: string): Call {
    Call.ShaderSource(shader, 1, source, SizeToInt32(StrLen(source)))
  }

  /** The steps of CompileShader(type, source) after the shader is created. */
  function SourceCompileRun(env: Env, t: seq<Call>, h: UInt32, source: string): Run<()> {
    var s := CallRun(env, t, ShaderSourceCall(h, source), "glShaderSource");
    if s.outcome.Exit? then s else StatusRun(env, s.trace, Compile, h)
  }

  /** CompileShader(type, source): create, source, compile; the result is the created shader. */
  function CompileShaderFromRun(env: Env, t: seq<Call>, shaderType: ShaderType, source: string): Run<UInt32> {
    var c := CreateRun(env, t, Call.CreateShader(shaderType), "glCreateShader");
    if c.outcome.Exit? then c
    else Returning(SourceCompileRun(env, c.trace, c.outcome.value, source), c.outcome.value)
  }

  /** The steps of LinkProgram(vertexShader, fragmentShader) after the program is created. */
  function AttachLinkRun(env: Env, t: seq<Call>, p: UInt32, vertexShader: UInt32, fragmentShader: UInt32): Run<()> {
    var a1 := CallRun(env, t, Call.AttachShader(p, vertexShader), "glAttachShader");
    if a1.outcome.Exit? then a1
    else
      var a2 := CallRun(env, a1.trace, Call.AttachShader(p, fragmentShader), "glAttachShader");
      if a2.outcome.Exit? then a2 else StatusRun(env, a2.trace, Link, p)
  }

  /** LinkProgram(vertexShader, fragmentShader): create, attach both, link; the
      result is the created program. */
  function LinkProgramFromRun(env: Env, t: seq<Call>, vertexShader: UInt32, fragmentShader: UInt32): Run<UInt32> {
    var c := CreateRun(env, t, Call.CreateProgram, "glCreateProgram");
    if c.outcome.Exit? then c
    else Returning(AttachLinkRun(env, c.trace, c.outcome.value, vertexShader, fragmentShader), c.outcome.value)
  }

  /** A checked call appends the call, and perhaps a query, whatever the outcome. */
  lemma CallRunIssued(env: Env, t: seq<Call>, c: Call, fn: string)
    requires !c.GetError?
    ensures var k := CallRun(env, t, c, fn);
      t + [c] <= k.trace && Issued(k.trace) == Issued(t) + [c]
  {
    CheckErrorTrace(env, t + [c], fn);
    IssuedSnoc(t, c);
  }

  /** glCreateShader and glCreateProgram wrappers terminate exactly when the driver
      returns handle 0, and otherwise return that handle. */
  lemma CreateRunOutcome(env: Env, t: seq<Call>, c: Call, fn: string)
    ensures var r := CreateRun(env, t, c, fn);
      && (r.outcome.Exit? <==> env.driver.handle(t + [c]) == 0)
      && (r.outcome.Ok? ==> r.outcome.value == env.driver.handle(t + [c]) && r.trace == t + [c])
      && (r.outcome.Exit? ==> r.outcome.site == fn && r.trace == t + [c, Call.GetError])
  {
    assert t + [c] + [Call.GetError] == t + [c, Call.GetError];
  }

  /** A shader built from source is the one glCreateShader returned, after the
      calls create, source, compile and status query, in that order. */
  lemma CompileShaderFromIssued(env: Env, t: seq<Call>, shaderType: ShaderType, source: string)
    ensures var r := CompileShaderFromRun(env, t, shaderType, source);
      var h := env.driver.handle(t + [Call.CreateShader(shaderType)]);
      && t <= r.trace
      && (r.outcome.Ok? ==>
            && r.outcome.value == h && h != 0
            && Issued(r.trace) == Issued(t) + [Call.CreateShader(shaderType), ShaderSourceCall(h, source),
                                               Call.CompileShader(h), Call.GetShaderiv(h, COMPILE_STATUS)])
  {
    var t1 := t + [Call.CreateShader(shaderType)];
    var h := env.driver.handle(t1);
    CreateRunOutcome(env, t, Call.CreateShader(shaderType), "glCreateShader");
    IssuedSnoc(t, Call.CreateShader(shaderType));
    if h != 0 {
      SourceCompileIssued(env, t1, h, source);
    }
  }

  lemma SourceCompileIssued(env: Env, t: seq<Call>, h: UInt32, source: string)
    ensures var r := SourceCompileRun(env, t, h, source);
      && t <= r.trace
      && (r.outcome.Ok? ==>
            Issued(r.trace) == Issued(t) + [ShaderSourceCall(h, source), Call.CompileShader(h), Call.GetShaderiv(h, COMPILE_STATUS)])
  {
    var s := CallRun(env, t, ShaderSourceCall(h, source), "glShaderSource");
    CallRunIssued(env, t, ShaderSourceCall(h, source), "glShaderSource");
    StatusRunIssued(env, s.trace, Compile, h);
  }

  /** A program linked from two shaders is the one glCreateProgram returned, never
      0, after the calls create, attach vertex shader, attach fragment shader,
      link and status query, in that order. */
  lemma LinkProgramFromIssued(env: Env, t: seq<Call>, v: UInt32, f: UInt32)
    ensures var r := LinkProgramFromRun(env, t, v, f);
      var p := env.driver.handle(t + [Call.CreateProgram]);
      && t <= r.trace
      && (r.outcome.Ok? ==>
            && r.outcome.value == p && p != 0
            && Issued(r.trace) == Issued(t) + [Call.CreateProgram, Call.AttachShader(p, v), Call.AttachShader(p, f),
                                               Call.LinkProgram(p), Call.GetProgramiv(p, LINK_STATUS)])
  {
    var t1 := t + [Call.CreateProgram];
    var p := env.driver.handle(t1);
    CreateRunOutcome(env, t, Call.CreateProgram, "glCreateProgram");
    IssuedSnoc(t, Call.CreateProgram);
    if p != 0 {
      AttachLinkIssued(env, t1, p, v, f);
    }
  }

  lemma AttachLinkIssued(env: Env, t: seq<Call>, p: UInt32, v: UInt32, f: UInt32)
    ensures var r := AttachLinkRun(env, t, p, v, f);
      && t <= r.trace
      && (r.outcome.Ok? ==>
            Issued(r.trace) == Issued(t) + [Call.AttachShader(p, v), Call.AttachShader(p, f),
                                            Call.LinkProgram(p), Call.GetProgramiv(p, LINK_STATUS)])
  {
    var a1 := CallRun(env, t, Call.AttachShader(p, v), "glAttachShader");
    CallRunIssued(env, t, Call.AttachShader(p, v), "glAttachShader");
    var a2 := CallRun(env, a1.trace, Call.AttachShader(p, f), "glAttachShader");
    CallRunIssued(env, a1.trace, Call.AttachShader(p, f), "glAttachShader");
    StatusRunIssued(env, a2.trace, Link, p);
    if a1.outcome.Ok? && a2.outcome.Ok? {
      var r := StatusRun(env, a2.trace, Link, p);
      assert t <= a1.trace <= a2.trace <= r.trace;
      if r.outcome.Ok? {
        AppendPairs(Issued(t), Call.AttachShader(p, v), Call.AttachShader(p, f), [Call.LinkProgram(p), Call.GetProgramiv(p, LINK_STATUS)]);
      }
    }
  }

  lemma AppendPairs<T>(x: seq<T>, a: T, b: T, rest: seq<T>)
    ensures x + [a] + [b] + rest == x + ([a, b] + rest)
  {
  }

  // The wrappers

  /** The name a wrapper's resulting resource holds. */
  function Held(r: Outcome<Resource>): Outcome<UInt32>
    reads if r.Ok? then {r.value} else {}
  {
    match r
    case Ok(res) => Ok(res.name)
    case Exit(site, detail) => Exit(site, detail)
  }

  method CreateShader(gl: Context, shaderType: ShaderType) returns (r: Outcome<Resource>)
    modifies gl
    ensures var run := CreateRun(gl.env, old(gl.trace), Call.CreateShader(shaderType), "glCreateShader");
      Held(r) == run.outcome && gl.trace == run.trace
    ensures r.Ok? ==> fresh(r.value) && r.value.kind == Shader
  {
    gl.Issue(Call.CreateShader(shaderType));
    var shader := gl.env.driver.handle(gl.trace);
    if shader == 0 {
      r := GetErrorAndExit(gl, "glCreateShader");
      return;
    }
    var res := new Resource(Shader, shader);
    r := Ok(res);
  }

  method ShaderSource(gl: Context, shader: Resource, source: string) returns (r: Outcome<()>)
    requires shader.kind == Shader
    modifies gl
    ensures Run(r, gl.trace) == CallRun(gl.env, old(gl.trace), ShaderSourceCall(shader.name, source), "glShaderSource")
  {
    var length := SizeToInt32(StrLen(source));
    gl.Issue(Call.ShaderSource(shader.name, 1, source, length));
    r := CheckError(gl, "glShaderSource");
  }

  /** The shared body of CompileShader(shader) and LinkProgram(program). */
  method CheckStatus(gl: Context, stage: Stage, n: UInt32) returns (r: Outcome<()>)
    modifies gl
    ensures Run(r, gl.trace) == StatusRun(gl.env, old(gl.trace), stage, n)
  {
    gl.Issue(stage.Action(n));
    r := CheckError(gl, stage.ActionName());
    if r.Exit? {
      return;
    }
    gl.Issue(stage.Query(n));
    var result := gl.env.driver.status(gl.trace);
    r := CheckError(gl, stage.QueryName());
    if r.Exit? {
      return;
    }
    if result != GL_TRUE {
      gl.Issue(stage.InfoLog(n));
      var info := gl.env.driver.infoLog(gl.trace);
      r := Exit(stage.ActionName(), info);
    }
  }

  method CompileShader(gl: Context, shader: Resource) returns (r: Outcome<()>)
    requires shader.kind == Shader
    modifies gl
    ensures Run(r, gl.trace) == StatusRun(gl.env, old(gl.trace), Compile, shader.name)
  {
    r := CheckStatus(gl, Compile, shader.name);
  }

  /** CompileShader(type, source). The shader is returned without a move. */
  method CompileShaderFrom(gl: Context, shaderType: ShaderType, source: string) returns (r: Outcome<Resource>)
    modifies gl
    ensures var run := CompileShaderFromRun(gl.env, old(gl.trace), shaderType, source);
      Held(r) == run.outcome && gl.trace == run.trace
    ensures r.Ok? ==> fresh(r.value) && r.value.kind == Shader
  {
    r := CreateShader(gl, shaderType);
    if r.Exit? {
      return;
    }
    var shader := r.value;
    var s := ShaderSource(gl, shader, source);
    if s.Exit? {
      r := Exit(s.site, s.detail);
      return;
    }
    var k := CompileShader(gl, shader);
    if k.Exit? {
      r := Exit(k.site, k.detail);
    }
  }

  method CreateProgram(gl: Context) returns (r: Outcome<Resource>)
    modifies gl
    ensures var run := CreateRun(gl.env, old(gl.trace), Call.CreateProgram, "glCreateProgram");
      Held(r) == run.outcome && gl.trace == run.trace
    ensures r.Ok? ==> fresh(r.value) && r.value.kind == Program
  {
    gl.Issue(Call.CreateProgram);
    var program := gl.env.driver.handle(gl.trace);
    if program == 0 {
      r := GetErrorAndExit(gl, "glCreateProgram");
      return;
    }
    var res := new Resource(Program, program);
    r := Ok(res);
  }

  method AttachShader(gl: Context, program: Resource, shader: Resource) returns (r: Outcome<()>)
    requires program.kind == Program && shader.kind == Shader
    modifies gl
    ensures Run(r, gl.trace) == CallRun(gl.env, old(gl.trace), Call.AttachShader(program.name, shader.name), "glAttachShader")
  {
    gl.Issue(Call.AttachShader(program.name, shader.name));
    r := CheckError(gl, "glAttachShader");
  }

  method LinkProgram(gl: Context, program: Resource) returns (r: Outcome<()>)
    requires program.kind == Program
    modifies gl
    ensures Run(r, gl.trace) == StatusRun(gl.env, old(gl.trace), Link, program.name)
  {
    r := CheckStatus(gl, Link, program.name);
  }

  /** LinkProgram(vertexShader, fragmentShader). The program is returned without a move. */
  method LinkProgramFrom(gl: Context, vertexShader: Resource, fragmentShader: Resource) returns (r: Outcome<Resource>)
    requires vertexShader.kind == Shader && fragmentShader.kind == Shader
    modifies gl
    ensures var run := LinkProgramFromRun(gl.env, old(gl.trace), vertexShader.name, fragmentShader.name);
      Held(r) == run.outcome && gl.trace == run.trace
    ensures r.Ok? ==> fresh(r.value) && r.value.kind == Program
  {
    r := CreateProgram(gl);
    if r.Exit? {
      return;
    }
    var program := r.value;
    var a := AttachShader(gl, program, vertexShader);
    if a.Exit? {
      r := Exit(a.site, a.detail);
      return;
    }
    a := AttachShader(gl, program, fragmentShader);
    if a.Exit? {
      r := Exit(a.site, a.detail);
      return;
    }
    var k := LinkProgram(gl, program);
    if k.Exit? {
      r := Exit(k.site, k.detail);
    }
  }

  method GetAttribLocation(gl: Context, program: Resource, name: string) returns (r: Outcome<Int32>)
    requires program.kind == Program
    modifies gl
    ensures Run(r, gl.trace) == LocationRun(gl.env, old(gl.trace), Call.GetAttribLocation(program.name, name), "glGetAttribLocation")
  {
    gl.Issue(Call.GetAttribLocation(program.name, name));
    var result := gl.env.driver.location(gl.trace);
    var k := CheckError(gl, "glGetAttribLocation");
    r := if k.Exit? then Exit(k.site, k.detail) else Ok(result);
  }

  method GetUniformLocation(gl: Context, program: Resource, name: string) returns (r: Outcome<Int32>)
    requires program.kind == Program
    modifies gl
    ensures Run(r, gl.trace) == LocationRun(gl.env, old(gl.trace), Call.GetUniformLocation(program.name, name), "glGetUniformLocation")
  {
    gl.Issue(Call.GetUniformLocation(program.name, name));
    var result := gl.env.driver.location(gl.trace);
    var k := CheckError(gl, "glGetUniformLocation");
    r := if k.Exit? then Exit(k.site, k.detail) else Ok(result);
  }

  method UseProgram(gl: Context, program: Resource) returns (r: Outcome<()>)
    requires program.kind == Program
    modifies gl
    ensures Run(r, gl.trace) == CallRun(gl.env, old(gl.trace), Call.UseProgram(program.name), "glUseProgram")
  {
    gl.Issue(Call.UseProgram(program.name));
    r := CheckError(gl, "glUseProgram");
  }

  method GenBuffer(gl: Context) returns (r: Outcome<Resource>)
    modifies gl
    ensures var run := GenRun(gl.env, old(gl.trace), Call.GenBuffers(1), "glGenBuffers");
      Held(r) == run.outcome && gl.trace == run.trace
    ensures r.Ok? ==> fresh(r.value) && r.value.kind == Buffer
  {
    gl.Issue(Call.GenBuffers(1));
    var result := gl.env.driver.handle(gl.trace);
    var k := CheckError(gl, "glGenBuffers");
    if k.Exit? {
      r := Exit(k.site, k.detail);
      return;
    }
    var res := new Resource(Buffer, result);
    r := Ok(res);
  }

  method BindBuffer(gl: Context, target: Target, buffer: Resource) returns (r: Outcome<()>)
    requires buffer.kind == Buffer
    modifies gl
    ensures Run(r, gl.trace) == CallRun(gl.env, old(gl.trace), Call.BindBuffer(target, buffer.name), "glBindBuffer")
  {
    gl.Issue(Call.BindBuffer(target, buffer.name));
    r := CheckError(gl, "glBindBuffer");
  }

  /** The untyped BufferData: `data` is the memory the data pointer designates. */
  method BufferData(gl: Context, target: Target, size: Int32, data: seq<bv8>, usage: Usage) returns (r: Outcome<()>)
    modifies gl
    ensures Run(r, gl.trace) == CallRun(gl.env, old(gl.trace), Call.BufferData(target, size, data, usage), "glBufferData")
  {
    gl.Issue(Call.BufferData(target, size, data, usage));
    r := CheckError(gl, "glBufferData");
  }

  /** BufferData(target, const T (&data)[N], usage): the untyped upload of sizeof(T) * N
      bytes from the array, which are exactly its bytes; the size is converted to
      GLsizeiptr as GlShapes.ElementsUpload states. */
  method BufferDataArray<T(!new)>(gl: Context, target: Target, data: seq<T>, sizeofT: nat, repr: T -> seq<bv8>, usage: Usage)
    returns (r: Outcome<()>)
    requires forall x :: |repr(x)| == sizeofT
    modifies gl
    ensures Run(r, gl.trace) == CallRun(gl.env, old(gl.trace),
      Call.BufferData(target, SizeToInt32(sizeofT * |data|), Bytes(data, repr), usage), "glBufferData")
    ensures sizeofT * |data| == |Bytes(data, repr)|
  {
    var u := ElementsUpload(data, sizeofT, repr);
    r := BufferData(gl, target, u.size, u.data, usage);
  }

  /** BufferData(target, const contiguous<T, N> &data, usage): the untyped upload of
      sizeof(T) * data.size() bytes from element 0 onwards, the size converted as in
      the array overload. */
  method BufferDataContiguous<T(!new)>(gl: Context, target: Target, data: seq<T>, sizeofT: nat, repr: T -> seq<bv8>, usage: Usage)
    returns (r: Outcome<()>)
    requires forall x :: |repr(x)| == sizeofT
    modifies gl
    ensures Run(r, gl.trace) == CallRun(gl.env, old(gl.trace),
      Call.BufferData(target, SizeToInt32(sizeofT * |data|), Bytes(data, repr), usage), "glBufferData")
    ensures sizeofT * |data| == |Bytes(data, repr)|
  {
    var u := ElementsUpload(data, sizeofT, repr);
    r := BufferData(gl, target, u.size, u.data, usage);
  }

  method GenVertexArray(gl: Context) returns (r: Outcome<Resource>)
    modifies gl
    ensures var run := GenRun(gl.env, old(gl.trace), Call.GenVertexArrays(1), "glGenVertexArrays");
      Held(r) == run.outcome && gl.trace == run.trace
    ensures r.Ok? ==> fresh(r.value) && r.value.kind == VertexArray
  {
    gl.Issue(Call.GenVertexArrays(1));
    var result := gl.env.driver.handle(gl.trace);
    var k := CheckError(gl, "glGenVertexArrays");
    if k.Exit? {
      r := Exit(k.site, k.detail);
      return;
    }
    var res := new Resource(VertexArray, result);
    r := Ok(res);
  }

  method BindVertexArray(gl: Context, vertexArray: Resource) returns (r: Outcome<()>)
    requires vertexArray.kind == VertexArray
    modifies gl
    ensures Run(r, gl.trace) == CallRun(gl.env, old(gl.trace), Call.BindVertexArray(vertexArray.name), "glBindVertexArray")
  {
    gl.Issue(Call.BindVertexArray(vertexArray.name));
    r := CheckError(gl, "glBindVertexArray");
  }

  /** The check is labelled "glBindVertexArray", as the source has it. */
  method EnableVertexAttribArray(gl: Context, index: UInt32) returns (r: Outcome<()>)
    modifies gl
    ensures Run(r, gl.trace) == CallRun(gl.env, old(gl.trace), Call.EnableVertexAttribArray(index), "glBindVertexArray")
  {
    gl.Issue(Call.EnableVertexAttribArray(index));
    r := CheckError(gl, "glBindVertexArray");
  }

  /** The untyped VertexAttribPointer; `offset` is the value of the pointer argument. */
  method VertexAttribPointer(gl: Context, index: Int32, size: Int32, componentType: Type, normalized: bool, stride: Int32, offset: nat)
    returns (r: Outcome<()>)
    modifies gl
    ensures Run(r, gl.trace) == CallRun(gl.env, old(gl.trace),
      Call.VertexAttribPointer(index, size, componentType, normalized, stride, offset), "glVertexAttribPointer")
  {
    gl.Issue(Call.VertexAttribPointer(index, size, componentType, normalized, stride, offset));
    r := CheckError(gl, "glVertexAttribPointer");
  }

  /** VertexAttribPointer(index, &Vertex::member, normalized = false): N components
      of TypeOf(S), stride sizeof(Vertex), the member's offset; N and the stride are
      converted from size_t as GlShapes.MemberAttrib states. */
  method VertexAttribPointerMember(gl: Context, index: Int32, vertex: Record, member: nat, normalized: bool := false)
    returns (r: Outcome<()>)
    requires WellFormed(vertex) && member < |vertex.members|
    modifies gl
    ensures var m := vertex.members[member];
      Run(r, gl.trace) == CallRun(gl.env, old(gl.trace),
        Call.VertexAttribPointer(index, SizeToInt32(m.count), TypeOf(m.component), normalized,
                                 SizeToInt32(vertex.size), m.offset),
        "glVertexAttribPointer")
  {
    var a := MemberAttrib(vertex, member, normalized);
    r := VertexAttribPointer(gl, index, a.size, a.componentType, a.normalized, a.stride, a.offset);
  }

  /** Viewport(x, y, width, height); the check is labelled "glViewPort", as the source has it. */
  method Viewport(gl: Context, x: Int32, y: Int32, width: Int32, height: Int32) returns (r: Outcome<()>)
    modifies gl
    ensures Run(r, gl.trace) == CallRun(gl.env, old(gl.trace), Call.Viewport(x, y, width, height), "glViewPort")
  {
    gl.Issue(Call.Viewport(x, y, width, height));
    r := CheckError(gl, "glViewPort");
  }

  /** Viewport(lower_left, extent): the components in order. */
  method ViewportAt(gl: Context, lowerLeft: (Int32, Int32), extent: (Int32, Int32)) returns (r: Outcome<()>)
    modifies gl
    ensures Run(r, gl.trace) == CallRun(gl.env, old(gl.trace),
      Call.Viewport(lowerLeft.0, lowerLeft.1, extent.0, extent.1), "glViewPort")
  {
    r := Viewport(gl, lowerLeft.0, lowerLeft.1, extent.0, extent.1);
  }

  /** Viewport(extent): the same as Viewport(0, 0, extent[0], extent[1]). */
  method ViewportExtent(gl: Context, extent: (Int32, Int32)) returns (r: Outcome<()>)
    modifies gl
    ensures Run(r, gl.trace) == CallRun(gl.env, old(gl.trace), Call.Viewport(0, 0, extent.0, extent.1), "glViewPort")
  {
    r := ViewportAt(gl, (0, 0), extent);
  }

  method Clear(gl: Context, mask: Mask) returns (r: Outcome<()>)
    modifies gl
    ensures Run(r, gl.trace) == CallRun(gl.env, old(gl.trace), Call.Clear(mask), "glClear")
  {
    gl.Issue(Call.Clear(mask));
    r := CheckError(gl, "glClear");
  }

  method DrawArrays(gl: Context, mode: Mode, first: Int32, count: Int32) returns (r: Outcome<()>)
    modifies gl
    ensures Run(r, gl.trace) == CallRun(gl.env, old(gl.trace), Call.DrawArrays(mode, first, count), "glDrawArrays")
  {
    gl.Issue(Call.DrawArrays(mode, first, count));
    r := CheckError(gl, "glDrawArrays");
  }

  /** DrawElements; `offset` is the value of the indices pointer. */
  method DrawElements(gl: Context, mode: Mode, count: Int32, indexType: Type, offset: nat) returns (r: Outcome<()>)
    modifies gl
    ensures Run(r, gl.trace) == CallRun(gl.env, old(gl.trace), Call.DrawElements(mode, count, indexType, offset), "glDrawElements")
  {
    gl.Issue(Call.DrawElements(mode, count, indexType, offset));
    r := CheckError(gl, "glDrawElements");
  }

  /** Uniform(location, matrix, transpose = true): the 16 values are passed on unread. */
  method UniformMatrix(gl: Context, location: Int32, matrix: seq<real>, transpose: bool := true) returns (r: Outcome<()>)
    requires |matrix| == 16
    modifies gl
    ensures Run(r, gl.trace) == CallRun(gl.env, old(gl.trace), Call.UniformMatrix4fv(location, 1, transpose, matrix), "glUniformMatrix4fv")
  {
    gl.Issue(Call.UniformMatrix4fv(location, 1, transpose, matrix));
    r := CheckError(gl, "glUniformMatrix4fv");
  }

  method UniformVec3(gl: Context, location: Int32, vec: seq<real>) returns (r: Outcome<()>)
    requires |vec| == 3
    modifies gl
    ensures Run(r, gl.trace) == CallRun(gl.env, old(gl.trace), Call.Uniform3fv(location, 1, vec), "glUniform3fv")
  {
    gl.Issue(Call.Uniform3fv(location, 1, vec));
    r := CheckError(gl, "glUniform3fv");
  }

  method UniformVec4(gl: Context, location: Int32, vec: seq<real>) returns (r: Outcome<()>)
    requires |vec| == 4
    modifies gl
    ensures Run(r, gl.trace) == CallRun(gl.env, old(gl.trace), Call.Uniform4fv(location, 1, vec), "glUniform4fv")
  {
    gl.Issue(Call.Uniform4fv(location, 1, vec));
    r := CheckError(gl, "glUniform4fv");
  }

  method Enable(gl: Context, capability: Capability) returns (r: Outcome<()>)
    modifies gl
    ensures Run(r, gl.trace) == CallRun(gl.env, old(gl.trace), Call.Enable(capability), "glEnable")
  {
    gl.Issue(Call.Enable(capability));
    r := CheckError(gl, "glEnable");
  }
}
