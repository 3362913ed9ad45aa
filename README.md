# gl_v1: a verified model of a typed WebGL 2 wrapper

`gl_v1` is a thin C++ layer over the OpenGL ES 3.0 / WebGL 2 binding, built with
Emscripten. This project models three parts of it and proves their properties.

- The move-only handle `Resource<Deleter, deleter>`. It owns one GL name and hands
  it to the deleter bound to its type whenever it is reset or destroyed. Shader and
  Program use `glDeleteShader(name)` and `glDeleteProgram(name)`. Buffer and
  VertexArray use `glDeleteBuffers(1, &name)` and `glDeleteVertexArrays(1, &name)`.
- The error policy and the wrappers.
  - `ErrorString` decodes the six GL error codes.
  - `CheckError` terminates the process on a pending error in a debug build and does
    nothing in an `NDEBUG` build.
  - The create, compile and link wrappers also terminate on a zero handle or a
    failed status.
  - Every other wrapper is "call, then CheckError".
- The shape inference of the templates: `TypeOf`, the byte sizes of the typed
  `BufferData` overloads, the arguments that the member-pointer `VertexAttribPointer`
  derives, and `Mask` `|`.

How the GL side is modelled:
- The GL context is a `Context` object that records every call the wrapper issues,
  in order.
- Every value the driver hands back comes from a `Driver`: total functions from the
  call history so far to the reply. These are the error code, the created or
  generated handle, the status, the location and the info log. Nothing is assumed
  about what a driver does.
- The model does not terminate the process. A wrapper ends in `Ok(value)` or in
  `Exit(site, detail)`, where site and detail are the two strings the source prints
  before `exit(1)`.
- The build mode (`Debug` or `Release`, i.e. without or with `NDEBUG`) is part of the
  environment.

The imperative code is proved against specification functions.
- Each wrapper is a module-level `method` that takes the context. Its `ensures` says
  that its outcome and
  the new trace are those of a function of the old trace
  (`StatusRun`, `CompileShaderFromRun`, ...).
- Lemmas about those functions state what the source promises.
- `Resource` is a class with the single mutable field `name`. Its methods state the
  new name and the calls appended to the trace. `Released` reads back the names
  handed to deleters.

Files:
- `gl_types.dfy`: the enumerations of the synopsis and their GL values, plus the
  binding of the four resource types to the two deleter shapes.
- `gl_context.dfy`: the calls, the driver, the build mode and the `Context` class.
- `gl_errors.dfy`: `ErrorString`, `GetErrorAndExit` and `CheckError`, with
  `CheckError` both as written and corrected (see Findings).
- `gl_resource.dfy`: the `Resource` class.
- `gl_shapes.dfy`: `TypeOf`, masks, upload sizes and attribute layout.
- `gl_facade.dfy`: every wrapper of `gl.cpp`, and the lemmas about create, compile
  and link.
- `gl_scenarios.dfy`: client sequences (moves and destruction, building a program)
  and the outcome for a healthy driver and for a failing one.

`reset` (provides/include/gl_v1/gl.hpp:61-68) calls the deleter with no `name != 0`
test. So destroying a moved-from or default-constructed handle releases name 0.
Whether releasing 0 is harmless depends on the GL driver, not on this code. This is
why `MoveThenDestroy` releases `[n, 0]`.

## Model

| member | source | states |
|---|---|---|
| GlTypes.ShapeOf | provides/include/gl_v1/synopsis.hpp:56-113 | Shader and Program are bound to the one-name deleter shape and Buffer and VertexArray to the count-plus-array shape, in both directions |
| GlResource.ReleaseCall | provides/include/gl_v1/gl.hpp:60-66 | the deleter call releases exactly the given name: by value for Deleter1, and as count 1 with a one-element array for DeleterN |
| GlResource.Resource.Empty | provides/include/gl_v1/gl.hpp:39-40 | the default constructor holds 0 and, having no context, calls no deleter |
| GlResource.Resource.constructor | provides/include/gl_v1/gl.hpp:42-43 | the explicit constructor holds its argument unchanged and calls no deleter |
| GlResource.Resource.Move | provides/include/gl_v1/gl.hpp:45-49 | the new handle takes the source's name, the source holds 0, and no deleter is called |
| GlResource.Resource.Reset | provides/include/gl_v1/gl.hpp:60-68 | exactly one deleter call is appended, with the old name even when it is 0, and the handle then holds new_name, which defaults to 0 |
| GlResource.Resource.MoveAssign | provides/include/gl_v1/gl.hpp:51-58 | self-assignment changes nothing and calls nothing; otherwise exactly one release of the target's old name, after which the target holds the source's former name and the source holds 0 |
| GlResource.Resource.Destroy | provides/include/gl_v1/gl.hpp:34-37 | the destructor is reset(): one release of the current name, leaving 0 |
| GlResource.ReleasedAppend | provides/include/gl_v1/gl.hpp:60-68 | the names released over two stretches of calls are those of each stretch, in order |
| GlResource.ReleasedSnoc | provides/include/gl_v1/gl.hpp:62-66 | one deleter call adds exactly its name to the released names |
| GlScenarios.MoveThenDestroy | provides/include/gl_v1/gl.hpp:34-49 | a move followed by the end of the scope releases the name exactly once, then 0 from the moved-from handle |
| GlScenarios.MoveAssignThenDestroy | provides/include/gl_v1/gl.hpp:34-58 | move assignment releases the target's old name, and the two destructors then release the moved name and 0 |
| GlScenarios.SelfMoveAssign | provides/include/gl_v1/gl.hpp:51-58 | self move-assignment releases nothing; the name is released once, by the destructor |
| GlScenarios.ResetThenDestroy | provides/include/gl_v1/gl.hpp:34-68 | reset(m) releases the old name, and the destructor releases m |
| GlErrors.FindCode | provides/library/gl.cpp:43-45 | find_if gives the first table entry with the code, or the end when no entry has it |
| GlErrors.ErrorString | provides/library/gl.cpp:42-47 | each of the six codes of the table maps to its own name, and every other code maps to "Unknown error?" |
| GlErrors.ErrorStringNoError | provides/library/gl.cpp:35 | GL_NO_ERROR maps to "GL_NO_ERROR" |
| GlErrors.GetErrorAndExit | provides/library/gl.cpp:49-54 | queries the error flag once and terminates, printing the name of the code read |
| GlErrors.GetErrorAndExitTerminates | provides/library/gl.cpp:49-54 | GetErrorAndExit always terminates after exactly one query and names the code that query read |
| GlErrors.CheckErrorAsWritten | provides/library/gl.cpp:56-65 | CheckError exactly as written: a debug build queries the flag and, on an error, calls GetErrorAndExit, which queries again |
| GlErrors.CheckErrorAsWrittenPolicy | provides/library/gl.cpp:59-64 | the as-written check terminates under the same condition as the corrected one, but prints the name of a second query |
| GlFacade.CheckErrorReportsClearedFlag | provides/library/gl.cpp:59-64 | in a debug build where glClear raises GL_INVALID_ENUM and the flag is reset once read, the as-written check after glClear prints "GL_NO_ERROR"; the corrected checked glClear prints "GL_INVALID_ENUM" |
| GlErrors.CheckError | provides/library/gl.cpp:56-65 | the check as evidently intended, which every wrapper that checks the error flag uses: it prints the name of the code it detected |
| GlErrors.CheckErrorPolicy | provides/library/gl.cpp:56-65 | an NDEBUG build never terminates and issues nothing; a debug build issues one query and terminates exactly when that query does not return GL_NO_ERROR, naming that code |
| GlFacade.CreateShader | provides/library/gl.cpp:69-74 | issues glCreateShader; handle 0 ends in GetErrorAndExit("glCreateShader"), otherwise the result is a fresh Shader holding that handle |
| GlFacade.CreateProgram | provides/library/gl.cpp:107-112 | issues glCreateProgram; handle 0 ends in GetErrorAndExit("glCreateProgram"), otherwise the result is a fresh Program holding that handle |
| GlFacade.CreateRunOutcome | provides/library/gl.cpp:69-74 | a create wrapper terminates exactly when the driver returns 0, and otherwise returns exactly that handle with no further call |
| GlFacade.StrLen | provides/library/gl.cpp:77 | strlen is the number of characters before the first NUL, or the whole length when there is none |
| GlTypes.SizeToInt32 | provides/library/gl.cpp:77 | the size_t length converted to GLint is unchanged below 2^31, negative from 2^31 to 2^32, and congruent to it modulo 2^32 |
| GlFacade.ShaderSource | provides/library/gl.cpp:76-80 | glShaderSource with one string and its strlen length, then CheckError("glShaderSource") |
| GlFacade.CheckStatus | provides/library/gl.cpp:82-96 | the action, its check, the status query and its check; a status other than GL_TRUE fetches the info log into 1024 bytes and terminates with it |
| GlFacade.CompileShader | provides/library/gl.cpp:82-96 | CompileShader(shader) is the status step for compilation |
| GlFacade.LinkProgram | provides/library/gl.cpp:119-133 | LinkProgram(program) is the status step for linking |
| GlFacade.StatusRunExits | provides/library/gl.cpp:82-96 | the status step terminates exactly when a debug check reads an error or the status is not GL_TRUE; in an NDEBUG build that is exactly a bad status. An error after the action prints the action's name and that code's name, one after the query the query's name and that code's name, a bad status the action's name and the info log |
| GlFacade.StatusRunTrace | provides/library/gl.cpp:82-133 | the status step only appends calls, and on success ends just after the status query and its check |
| GlFacade.StatusRunIssued | provides/library/gl.cpp:82-133 | on success the status step issued the action and then the status query, in that order |
| GlFacade.CompileShaderFrom | provides/library/gl.cpp:98-103 | CompileShader(type, source): create, source, compile, returning the created shader |
| GlFacade.SourceCompileIssued | provides/library/gl.cpp:100-101 | after creation, the calls issued are the source, the compile and the status query, in that order |
| GlFacade.CompileShaderFromIssued | provides/library/gl.cpp:98-103 | a shader built from source is the non-zero handle glCreateShader returned, after the calls create, source, compile and status query, in that order |
| GlFacade.LinkProgramFrom | provides/library/gl.cpp:135-142 | LinkProgram(v, f): create, attach v, attach f, link, returning the created program |
| GlFacade.AttachLinkIssued | provides/library/gl.cpp:138-140 | after creation, the calls issued are attach v, attach f, link and the status query, in that order |
| GlFacade.LinkProgramFromIssued | provides/library/gl.cpp:135-142 | a linked program is the non-zero handle glCreateProgram returned, after create, attach v, attach f, link and status query, in that order |
| GlFacade.CallRunAsWritten | provides/library/gl.cpp:49-64 | a wrapper's check ends as the program's as-written check does, except that on an error the program issues one more glGetError and prints the name that second query read |
| GlFacade.CallRunIssued | provides/library/gl.cpp:76-273 | any call followed by CheckError issues that call and no other call apart from the error query |
| GlFacade.GetAttribLocation | provides/library/gl.cpp:144-149 | glGetAttribLocation, then its check, and the location the driver returned |
| GlFacade.GetUniformLocation | provides/library/gl.cpp:151-156 | glGetUniformLocation, then its check, and the location the driver returned |
| GlFacade.AttachShader | provides/library/gl.cpp:114-117 | glAttachShader with both names, then its check |
| GlFacade.UseProgram | provides/library/gl.cpp:158-161 | glUseProgram, then its check |
| GlFacade.GenBuffer | provides/library/gl.cpp:165-170 | glGenBuffers(1), its check, then a fresh Buffer holding the name written |
| GlFacade.BindBuffer | provides/library/gl.cpp:172-175 | glBindBuffer, then its check |
| GlFacade.BufferData | provides/library/gl.cpp:177-183 | glBufferData with the arguments unchanged, then its check |
| GlFacade.BufferDataArray | provides/include/gl_v1/gl.hpp:72-75 | the array overload uploads exactly the array's sizeof(T) * N bytes, with that count as size converted to GLsizeiptr |
| GlFacade.BufferDataContiguous | provides/include/gl_v1/gl.hpp:77-82 | the container overload uploads exactly the elements' sizeof(T) * data.size() bytes starting at element 0, with that count as size converted to GLsizeiptr |
| GlFacade.GenVertexArray | provides/library/gl.cpp:187-192 | glGenVertexArrays(1), its check, then a fresh VertexArray holding the name written |
| GlFacade.BindVertexArray | provides/library/gl.cpp:194-197 | glBindVertexArray, then its check |
| GlFacade.EnableVertexAttribArray | provides/library/gl.cpp:199-202 | glEnableVertexAttribArray, then a check labelled "glBindVertexArray" as in the source |
| GlFacade.VertexAttribPointer | provides/library/gl.cpp:204-212 | glVertexAttribPointer with the arguments unchanged, then its check |
| GlFacade.VertexAttribPointerMember | provides/include/gl_v1/gl.hpp:86-95 | the member-pointer overload passes N components of TypeOf(S), stride sizeof(Vertex) and the member's offset, with normalized defaulting to false; N and the stride go through the size_t conversion |
| GlFacade.Viewport | provides/library/gl.cpp:216-219 | glViewport with the four values, then a check labelled "glViewPort" as in the source |
| GlFacade.ViewportAt | provides/library/gl.cpp:221-224 | the two-vector form is Viewport of the components in order |
| GlFacade.ViewportExtent | provides/library/gl.cpp:226-228 | Viewport(extent) has exactly the effect of Viewport(0, 0, extent[0], extent[1]) |
| GlFacade.Clear | provides/library/gl.cpp:230-233 | glClear with the mask, then its check |
| GlFacade.DrawArrays | provides/library/gl.cpp:237-240 | glDrawArrays, then its check |
| GlFacade.DrawElements | provides/library/gl.cpp:242-248 | glDrawElements, then its check |
| GlFacade.UniformMatrix | provides/library/gl.cpp:252-257 | glUniformMatrix4fv with count 1 and transpose defaulting to true, then its check |
| GlFacade.UniformVec3 | provides/library/gl.cpp:259-262 | glUniform3fv with count 1, then its check |
| GlFacade.UniformVec4 | provides/library/gl.cpp:264-267 | glUniform4fv with count 1, then its check |
| GlFacade.Enable | provides/library/gl.cpp:271-274 | glEnable, then its check |
| GlScenarios.HealthyBuildSucceeds | provides/library/gl.cpp:98-142 | for any driver that reports no error and GL_TRUE for every status, whatever its handles and histories: each builder whose create call returned a non-zero handle returns that handle, in either build mode |
| GlScenarios.FailedBuildReportsLog | provides/library/gl.cpp:90-95 | for any driver that reports no error and never GL_TRUE as a status: a created shader or program fails, and the process terminates printing glCompileShader or glLinkProgram and the info log the driver returns for the final history |
| GlScenarios.BuildProgram | provides/library/gl.cpp:98-142 | compiling two shaders and linking them yields a non-zero program; with any driver that reports no error, GL_TRUE statuses and never the name 0, it yields a program; with the constant driver handing out h != 0, that program is h |
| GlShapes.TypeOf | provides/include/gl_v1/gl.hpp:14-30 | the tag of each element type describes components of exactly that width and representation |
| GlShapes.TypeOfInjective | provides/include/gl_v1/gl.hpp:14-30 | distinct element types get distinct GL enumerator values |
| GlShapes.Or | provides/include/gl_v1/gl.hpp:102 | the flags of lhs \| rhs are exactly the flags of either operand |
| GlShapes.OrLaws | provides/include/gl_v1/gl.hpp:102 | \| on masks is commutative, associative and idempotent |
| GlShapes.MaskBitsSingle | provides/include/gl_v1/synopsis.hpp:138-142 | each of the three Mask enumerators is a single flag and no two share it |
| GlShapes.BytesLength | provides/include/gl_v1/gl.hpp:74 | N elements of sizeof(T) bytes each occupy sizeof(T) * N bytes |
| GlShapes.ElementsUpload | provides/include/gl_v1/gl.hpp:72-82 | the bytes passed are exactly the elements' bytes, sizeof(T) times the element count; the size passed is that count below 2^31, negative from 2^31 to 2^32, and always congruent to it modulo 2^32 |
| GlShapes.MemberAttrib | provides/include/gl_v1/gl.hpp:86-95 | a type of the member's width and representation and the member's offset; count and stride congruent to N and sizeof(Vertex) modulo 2^32, the stride negative from 2^31 bytes; below 2^31 bytes count N, stride sizeof(Vertex), and the components read lie inside one vertex |

## Left out

- `Init` and the Emscripten context set-up (provides/library/gl.cpp:11-30): these are host I/O.
- `ClearColor` (provides/include/gl_v1/gl.hpp:99-101) forwards four floats. No wrapper logic is involved.
- Uniform values: the matrix and vectors of `Uniform` are passed on as opaque `real`
  sequences. Their float content is not modelled.
- The text of the info log: the driver supplies it. Truncation to the 1024-byte
  buffer and the `printf` formatting are not modelled; `Exit` holds the two printed
  strings.
- `exit(1)` is `Exit`. No destructor runs on that path, so the model releases
  nothing there.
- Copy elision: `CompileShaderFrom` and `LinkProgramFrom` return the created object
  itself. This models the named-return-value elision the compiler applies to
  `return shader;`. Without that elision, a moved-from local would release 0 at
  the end of the function.
- `BufferDataContiguous`: `&data[0]` on an empty container is undefined in C++. The
  model uploads zero bytes instead.
- `VertexAttribPointerMember` takes the vertex layout as a `Record` value (its size
  and its members' offsets), because a member pointer has nothing in Dafny to stand
  for it.
- Driver semantics: the model assumes nothing about what calls do to GL state.
  Handles, statuses, error codes and logs are arbitrary replies.
- The demo program internals/cube/program/main.cpp is not part of this model.
- CallRun, GenRun, LocationRun, StatusRun and every wrapper that calls `CheckError`
  (`ShaderSource`, `CheckStatus`, `CompileShader`, `LinkProgram`, the two builders
  `CompileShaderFrom` and `LinkProgramFrom`, and `AttachShader` through `Enable`):
  they use the corrected `CheckError` of the Findings. `CreateShader` and
  `CreateProgram` call `GetErrorAndExit` directly and match the program on every path. On a debug-build error the program as written issues one more
  `glGetError` and prints the name that second query read, usually "GL_NO_ERROR".
  `GlFacade.CallRunAsWritten` states that difference for any call.
- The two mismatched labels, "glBindVertexArray" in `EnableVertexAttribArray` and
  "glViewPort" in `Viewport`, are reproduced as written. No property is stated about
  them.

## Findings

| source | as written | input that shows it | evidently intended | confidence | as-written member | corrected member |
|---|---|---|---|---|---|---|
| provides/library/gl.cpp:59-64 | on a pending error, `CheckError` calls `GetErrorAndExit`, which calls `glGetError` again and prints the name of the second code | a debug build where `glClear` raises GL_INVALID_ENUM and the flag is reset once read: the output is "glClear: GL_NO_ERROR" | print the name of the code that was detected ("glClear: GL_INVALID_ENUM") | medium, not executed | GlFacade.CheckErrorReportsClearedFlag | GlErrors.CheckErrorPolicy |
