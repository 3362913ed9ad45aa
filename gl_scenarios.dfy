/** What a client of the wrapper sees: the names released over a resource's
    lifetime, and how building a shader program ends for a few drivers. */
module GlScenarios {
  import opened GlTypes
  import opened GlContext
  import opened GlErrors
  import opened GlResource
  import opened GlFacade

  // Ownership

  /** `Resource b = std::move(a);` and the end of the scope: b is destroyed first
      and releases the name, then the emptied a releases 0. The name is released
      exactly once. */
  method MoveThenDestroy(env: Env, k: ResourceType, n: UInt32) returns (released: seq<UInt32>)
    ensures released == [n, 0]
  {
    var gl := new Context(env);
    var a := new Resource(k, n);
    var b := new Resource.Move(a);
    b.Destroy(gl);
    a.Destroy(gl);
    released := Released(gl.trace);
  }

  /** `b = std::move(a);` with a holding n and b holding m, then the end of the
      scope: m is released by the assignment, n by b's destructor, 0 by a's. */
  method MoveAssignThenDestroy(env: Env, k: ResourceType, n: UInt32, m: UInt32) returns (released: seq<UInt32>)
    ensures released == [m, n, 0]
  {
    var gl := new Context(env);
    var a := new Resource(k, n);
    var b := new Resource(k, m);
    b.MoveAssign(a, gl);
    b.Destroy(gl);
    a.Destroy(gl);
    released := Released(gl.trace);
  }

  /** `a = std::move(a);` releases nothing; the destructor releases n once. */
  method SelfMoveAssign(env: Env, k: ResourceType, n: UInt32) returns (released: seq<UInt32>)
    ensures released == [n]
  {
    var gl := new Context(env);
    var a := new Resource(k, n);
    a.MoveAssign(a, gl);
    a.Destroy(gl);
    released := Released(gl.trace);
  }

  /** `a.reset(m)` then the end of the scope: n, then m. */
  method ResetThenDestroy(env: Env, k: ResourceType, n: UInt32, m: UInt32) returns (released: seq<UInt32>)
    ensures released == [n, m]
  {
    var gl := new Context(env);
    var a := new Resource(k, n);
    a.Reset(gl, m);
    a.Destroy(gl);
    released := Released(gl.trace);
  }

  // Building a program

  /** A driver that reports no error, hands out `h` for every created object,
      reports every compile and link as successful and writes `log`. */
  function HealthyDriver(h: UInt32, log: string): Driver {
    Driver(_ => NO_ERROR, _ => h, _ => GL_TRUE, _ => 0, _ => log)
  }

  /** A driver that never reports an error. */
  ghost predicate NoErrors(d: Driver) {
    forall h :: d.error(h) == NO_ERROR
  }

  /** With a driver that reports no error and GL_TRUE for every status query, each
      builder returns the handle the driver created, whatever the build mode and
      however the driver chooses its names. */
  lemma HealthyBuildSucceeds(env: Env, t: seq<Call>, shaderType: ShaderType, source: string, v: UInt32, f: UInt32)
    requires NoErrors(env.driver)
    requires forall h :: env.driver.status(h) == GL_TRUE
    ensures var h := env.driver.handle(t + [Call.CreateShader(shaderType)]);
      h != 0 ==> CompileShaderFromRun(env, t, shaderType, source).outcome == Ok(h)
    ensures var p := env.driver.handle(t + [Call.CreateProgram]);
      p != 0 ==> LinkProgramFromRun(env, t, v, f).outcome == Ok(p)
  {
    var t1 := t + [Call.CreateShader(shaderType)];
    var h := env.driver.handle(t1);
    var s := CallRun(env, t1, ShaderSourceCall(h, source), "glShaderSource");
    StatusRunExits(env, s.trace, Compile, h);
    var p1 := t + [Call.CreateProgram];
    var p := env.driver.handle(p1);
    var a1 := CallRun(env, p1, Call.AttachShader(p, v), "glAttachShader");
    var a2 := CallRun(env, a1.trace, Call.AttachShader(p, f), "glAttachShader");
    StatusRunExits(env, a2.trace, Link, p);
  }

  /** With a driver that reports no error and a status other than GL_TRUE for every
      query, a shader that was created does not compile: the process terminates,
      printing glCompileShader and the info log the driver wrote last. A program
      that was created does not link, and prints glLinkProgram and that log. */
  lemma FailedBuildReportsLog(env: Env, t: seq<Call>, shaderType: ShaderType, source: string, v: UInt32, f: UInt32)
    requires NoErrors(env.driver)
    requires forall h :: env.driver.status(h) != GL_TRUE
    ensures var h := env.driver.handle(t + [Call.CreateShader(shaderType)]);
      var r := CompileShaderFromRun(env, t, shaderType, source);
      h != 0 ==> r.outcome == Exit("glCompileShader", env.driver.infoLog(r.trace))
    ensures var p := env.driver.handle(t + [Call.CreateProgram]);
      var r := LinkProgramFromRun(env, t, v, f);
      p != 0 ==> r.outcome == Exit("glLinkProgram", env.driver.infoLog(r.trace))
  {
    var t1 := t + [Call.CreateShader(shaderType)];
    var h := env.driver.handle(t1);
    var s := CallRun(env, t1, ShaderSourceCall(h, source), "glShaderSource");
    StatusRunExits(env, s.trace, Compile, h);
    var p1 := t + [Call.CreateProgram];
    var p := env.driver.handle(p1);
    var a1 := CallRun(env, p1, Call.AttachShader(p, v), "glAttachShader");
    var a2 := CallRun(env, a1.trace, Call.AttachShader(p, f), "glAttachShader");
    StatusRunExits(env, a2.trace, Link, p);
  }

  /** The usual client sequence: compile a vertex and a fragment shader, link them.
      A program it returns is never 0. With a driver that reports no error, GL_TRUE
      for every status and never the name 0, it returns a program; with a driver
      handing out the one non-zero name h, that program is h. */
  method BuildProgram(env: Env, vertexSource: string, fragmentSource: string) returns (r: Outcome<UInt32>)
    ensures r.Ok? ==> r.value != 0
    ensures (&& NoErrors(env.driver)
             && (forall h :: env.driver.status(h) == GL_TRUE)
             && (forall h :: env.driver.handle(h) != 0)) ==> r.Ok?
    ensures forall h: UInt32 | h != 0 && env.driver == HealthyDriver(h, "") :: r == Ok(h)
  {
    ghost var healthy := NoErrors(env.driver) && (forall h :: env.driver.status(h) == GL_TRUE);
    var gl := new Context(env);
    var t := gl.trace;
    var vs := CompileShaderFrom(gl, VertexShader, vertexSource);
    if healthy {
      HealthyBuildSucceeds(env, t, VertexShader, vertexSource, 0, 0);
    }
    if vs.Exit? {
      return Exit(vs.site, vs.detail);
    }
    t := gl.trace;
    var fs := CompileShaderFrom(gl, FragmentShader, fragmentSource);
    if healthy {
      HealthyBuildSucceeds(env, t, FragmentShader, fragmentSource, 0, 0);
    }
    if fs.Exit? {
      return Exit(fs.site, fs.detail);
    }
    t := gl.trace;
    var program := LinkProgramFrom(gl, vs.value, fs.value);
    LinkProgramFromIssued(env, t, vs.value.name, fs.value.name);
    if healthy {
      HealthyBuildSucceeds(env, t, VertexShader, vertexSource, vs.value.name, fs.value.name);
    }
    r := Held(program);
  }
}
