/** Error decoding and the check-or-terminate policy of the wrapper library. */
module GlErrors {
  import opened GlTypes
  import opened GlContext

  /** The table s_errors, in its order: each GL error code with its printed name. */
  const ERRORS: seq<(GLenum, string)> := [
    (NO_ERROR, "GL_NO_ERROR"),
    (INVALID_ENUM, "GL_INVALID_ENUM"),
    (INVALID_VALUE, "GL_INVALID_VALUE"),
    (INVALID_OPERATION, "GL_INVALID_OPERATION"),
    (OUT_OF_MEMORY, "GL_OUT_OF_MEMORY"),
    (INVALID_FRAMEBUFFER_OPERATION, "GL_INVALID_FRAMEBUFFER_OPERATION")
  ]

  /** The error names of section 2.5 of the OpenGL ES 3.0 specification, keyed by code. */
  const ERROR_NAMES: map<GLenum, string> := map[
    NO_ERROR := "GL_NO_ERROR",
    INVALID_ENUM := "GL_INVALID_ENUM",
    INVALID_VALUE := "GL_INVALID_VALUE",
    INVALID_OPERATION := "GL_INVALID_OPERATION",
    OUT_OF_MEMORY := "GL_OUT_OF_MEMORY",
    INVALID_FRAMEBUFFER_OPERATION := "GL_INVALID_FRAMEBUFFER_OPERATION"
  ]

  const UNKNOWN_ERROR := "Unknown error?"

  /** std::find_if over a table: the index of the first entry with the given code,
      or the length of the table (the end iterator) when there is none. */
  function FindCode(table: seq<(GLenum, string)>, code: GLenum): (i: nat)
    ensures i <= |table|
    ensures i < |table| ==> table[i].0 == code
    ensures forall j | 0 <= j < i :: table[j].0 != code
  {
    if table == [] then 0
    else if table[0].0 == code then 0
    else 1 + FindCode(table[1..], code)
  }

  /** The printed name of an error code: the section 2.5 name of each of the six
      codes of the table, and "Unknown error?" for every other code. */
  function ErrorString(code: GLenum): (name: string)
    ensures code in ERROR_NAMES ==> name == ERROR_NAMES[code]
    ensures code !in ERROR_NAMES ==> name == UNKNOWN_ERROR
  {
    var i := FindCode(ERRORS, code);
    assert code in ERROR_NAMES ==>
      code == ERRORS[0].0 || code == ERRORS[1].0 || code == ERRORS[2].0
      || code == ERRORS[3].0 || code == ERRORS[4].0 || code == ERRORS[5].0;
    if i < |ERRORS| then ERRORS[i].1 else UNKNOWN_ERROR
  }

  lemma ErrorStringNoError()
    ensures ErrorString(NO_ERROR) == "GL_NO_ERROR"
  {
  }

  /** GetErrorAndExit: query the error flag, print its name after `fn`, terminate. */
  function GetErrorAndExitRun<T>(env: Env, t: seq<Call>, fn: string): Run<T> {
    var t' := t + [Call.GetError];
    Run(Exit(fn, ErrorString(env.driver.error(t'))), t')
  }

  /** CheckError as written: in a debug build, query the error flag and, when it is
      not GL_NO_ERROR, call GetErrorAndExit, which queries the flag a second time. */
  function CheckErrorAsWrittenRun(env: Env, t: seq<Call>, fn: string): Run<()> {
    if env.mode == Release then Run(Ok(()), t)
    else
      var t' := t + [Call.GetError];
      if env.driver.error(t') == NO_ERROR then Run(Ok(()), t')
      else GetErrorAndExitRun(env, t', fn)
  }

  /** CheckError as evidently intended: the name printed is that of the code
      that was detected. The wrappers of the model use this one. */
  function CheckErrorRun(env: Env, t: seq<Call>, fn: string): Run<()> {
    if env.mode == Release then Run(Ok(()), t)
    else
      var t' := t + [Call.GetError];
      var code := env.driver.error(t');
      if code == NO_ERROR then Run(Ok(()), t')
      else Run(Exit(fn, ErrorString(code)), t')
  }

  method GetErrorAndExit<T>(gl: Context, fn: string) returns (r: Outcome<T>)
    modifies gl
    ensures Run(r, gl.trace) == GetErrorAndExitRun(gl.env, old(gl.trace), fn)
  {
    var code := gl.GetError();
    r := Exit(fn, ErrorString(code));
  }

  method CheckErrorAsWritten(gl: Context, fn: string) returns (r: Outcome<()>)
    modifies gl
    ensures Run(r, gl.trace) == CheckErrorAsWrittenRun(gl.env, old(gl.trace), fn)
  {
    r := Ok(());
    if gl.env.mode == Debug {
      var code := gl.GetError();
      if code != NO_ERROR {
        r := GetErrorAndExit(gl, fn);
      }
    }
  }

  method CheckError(gl: Context, fn: string) returns (r: Outcome<()>)
    modifies gl
    ensures Run(r, gl.trace) == CheckErrorRun(gl.env, old(gl.trace), fn)
  {
    r := Ok(());
    if gl.env.mode == Debug {
      var code := gl.GetError();
      if code != NO_ERROR {
        r := Exit(fn, ErrorString(code));
      }
    }
  }

  /** GetErrorAndExit always terminates, after exactly one query, naming the code it read. */
  lemma GetErrorAndExitTerminates<T>(env: Env, t: seq<Call>, fn: string)
    ensures var r := GetErrorAndExitRun<T>(env, t, fn);
      && r.trace == t + [Call.GetError]
      && r.outcome == Exit(fn, ErrorString(env.driver.error(t + [Call.GetError])))
  {
  }

  /** The policy: an NDEBUG build never terminates and issues nothing; a debug build
      issues one query and terminates exactly when it does not read GL_NO_ERROR,
      printing the name of the code it read. */
  lemma CheckErrorPolicy(env: Env, t: seq<Call>, fn: string)
    ensures var r := CheckErrorRun(env, t, fn);
      && (env.mode == Release ==> r == Run(Ok(()), t))
      && (env.mode == Debug ==>
            && r.trace == t + [Call.GetError]
            && (r.outcome.Exit? <==> env.driver.error(t + [Call.GetError]) != NO_ERROR)
            && (r.outcome.Exit? ==>
                  r.outcome == Exit(fn, ErrorString(env.driver.error(t + [Call.GetError])))))
  {
  }

  /** The code as written terminates under the same condition, but the name it
      prints is that of a second query, after the detected error has been read. */
  lemma CheckErrorAsWrittenPolicy(env: Env, t: seq<Call>, fn: string)
    ensures var r := CheckErrorAsWrittenRun(env, t, fn);
      && r.outcome.Exit? == CheckErrorRun(env, t, fn).outcome.Exit?
      && (env.mode == Release ==> r == Run(Ok(()), t))
      && (r.outcome.Exit? ==>
            var t2 := t + [Call.GetError, Call.GetError];
            r.trace == t2 && r.outcome == Exit(fn, ErrorString(env.driver.error(t2))))
  {
    if env.mode == Debug {
      assert t + [Call.GetError] + [Call.GetError] == t + [Call.GetError, Call.GetError];
    }
  }

  /** A driver whose error flag holds `code` until the first glGetError reads it and
      then holds GL_NO_ERROR, as section 2.5 of the OpenGL ES 3.0 specification
      describes a flag being reset when glGetError returns it. */
  function FlagDriver(code: GLenum): Driver {
    Driver(
      h => if |h| > 0 && Call.GetError !in h[..|h| - 1] then code else NO_ERROR,
      h => 0, h => GL_FALSE, h => -1, h => "")
  }
}
