/** The GL context the wrapper talks to, seen from outside: the calls the
    wrapper issues are recorded in a trace, and every value the driver hands
    back is drawn from an arbitrary driver that may look at the whole history.
    Nothing about what a real driver does is assumed. */
module GlContext {
  import opened GlTypes

  /** One call into the GL binding, with the arguments the wrapper passes. */
  datatype Call =
    | GetError
    | CreateShader(shaderType: ShaderType)
    | ShaderSource(shader: UInt32, count: Int32, source: string, length: Int32)
    | CompileShader(shader: UInt32)
    | GetShaderiv(shader: UInt32, pname: GLenum)
    | GetShaderInfoLog(shader: UInt32, bufSize: Int32)
    | DeleteShader(shader: UInt32)
    | CreateProgram
    | AttachShader(program: UInt32, shader: UInt32)
    | LinkProgram(program: UInt32)
    | GetProgramiv(program: UInt32, pname: GLenum)
    | GetProgramInfoLog(program: UInt32, bufSize: Int32)
    | DeleteProgram(program: UInt32)
    | GetAttribLocation(program: UInt32, name: string)
    | GetUniformLocation(program: UInt32, name: string)
    | UseProgram(program: UInt32)
    | GenBuffers(n: Int32)
    | BindBuffer(target: Target, buffer: UInt32)
    | BufferData(target: Target, size: Int32, data: seq<bv8>, usage: Usage)
    | DeleteBuffers(n: Int32, buffers: seq<UInt32>)
    | GenVertexArrays(n: Int32)
    | BindVertexArray(array: UInt32)
    | DeleteVertexArrays(n: Int32, arrays: seq<UInt32>)
    | EnableVertexAttribArray(index: UInt32)
    | VertexAttribPointer(location: Int32, size: Int32, componentType: Type, normalized: bool, stride: Int32, offset: nat)
    | Viewport(x: Int32, y: Int32, width: Int32, height: Int32)
    | Clear(mask: Mask)
    | DrawArrays(mode: Mode, first: Int32, count: Int32)
    | DrawElements(mode: Mode, count: Int32, indexType: Type, offset: nat)
    | UniformMatrix4fv(location: Int32, count: Int32, transpose: bool, values: seq<real>)
    | Uniform3fv(location: Int32, count: Int32, values: seq<real>)
    | Uniform4fv(location: Int32, count: Int32, values: seq<real>)
    | Enable(capability: Capability)

  /** What the driver hands back. Each function is given the history of calls
      ending with the call being answered: `error` answers glGetError, `handle`
      the value returned or written by glCreateShader, glCreateProgram, glGenBuffers
      and glGenVertexArrays, `status` the value left in the out-parameter of
      glGetShaderiv and glGetProgramiv, `location` the result of glGetAttribLocation
      and glGetUniformLocation, `infoLog` the text written by the info-log calls. */
  datatype Driver = Driver(
    error: seq<Call> -> GLenum,
    handle: seq<Call> -> UInt32,
    status: seq<Call> -> Int32,
    location: seq<Call> -> Int32,
    infoLog: seq<Call> -> string)

  /** Whether the library was built with NDEBUG (Release) or without (Debug). */
  datatype BuildMode = Debug | Release

  datatype Env = Env(driver: Driver, mode: BuildMode)

  /** How a wrapper ends: it returns a value, or the process terminates after
      printing `site` (the failing call) and `detail`. */
  datatype Outcome<T> = Ok(value: T) | Exit(site: string, detail: string)

  /** An outcome together with the call trace at that point. */
  datatype Run<T> = Run(outcome: Outcome<T>, trace: seq<Call>)

  /** The GL context: the environment it was created in and every call issued so far. */
  class Context {
    const env: Env
    var trace: seq<Call>

    constructor (env: Env)
      ensures this.env == env && trace == []
    {
      this.env := env;
      trace := [];
    }

    /** Issue one call into the binding. */
    method Issue(c: Call)
      modifies this
      ensures trace == old(trace) + [c]
    {
      trace := trace + [c];
    }

    /** glGetError. */
    method GetError() returns (code: GLenum)
      modifies this
      ensures trace == old(trace) + [Call.GetError]
      ensures code == env.driver.error(trace)
    {
      Issue(Call.GetError);
      code := env.driver.error(trace);
    }
  }

  /** The calls of a trace other than the glGetError queries, in order. */
  function Issued(t: seq<Call>): seq<Call>
  {
    if t == [] then []
    else (if t[0].GetError? then [] else [t[0]]) + Issued(t[1..])
  }

  lemma {:induction false} IssuedAppend(a: seq<Call>, b: seq<Call>)
    ensures Issued(a + b) == Issued(a) + Issued(b)
  {
    if a == [] {
      assert a + b == b;
    } else {
      assert (a + b)[1..] == a[1..] + b;
      IssuedAppend(a[1..], b);
    }
  }

  /** Appending one call extends the issued calls by that call, unless it is a query of the error flag. */
  lemma IssuedSnoc(t: seq<Call>, c: Call)
    ensures Issued(t + [c]) == Issued(t) + (if c.GetError? then [] else [c])
  {
    IssuedAppend(t, [c]);
    assert [c][1..] == [];
  }
}
