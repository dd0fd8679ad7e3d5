# nexus resource-ownership core, in Dafny

This project models the resource-ownership and lifecycle core of the `nexus`
library, the engine layer of project-forge. It covers:

- the `Error` value and the `Outcome<T, E>` result type;
- the `Dimensions` pair;
- the three move-only GPU wrappers. `Buffer`, `Shader` and `VertexArray`
  each own one OpenGL object name, and 0 means released;
- the two process-wide subsystems with one-shot init. The logger is one;
  the other is the window, brought up by a staged pipeline (GLFW library,
  window, context, GLAD loader) that unwinds on failure;
- the `forge` application's `main` as a client of the subsystems.

OpenGL and GLFW/GLAD are modelled as oracle classes in `native.dfy`:

- `Gl` keeps the live object names, the compile status and the bindings of
  the current context.
- `Glfw` keeps whether the library is up, the live windows, the current
  context and the pending close requests.
- Each keeps a trace of every call issued.
- Names come from a counter, so a handed-out name is always fresh.
- Whether a fallible call succeeds (`glGenBuffers`, `glCreateShader`, the
  compile, `glfwInit`, `glfwCreateWindow`, `gladLoadGLLoader`) is a boolean
  parameter.
- A delete call accepts only live names, so the verifier checks that nothing
  is deleted twice.

Each wrapper method is specified by a pure function giving the calls it
issues (`SetDataCalls`, `ReleaseCalls`, …) and by the new driver state.

The life of one object is modelled as any sequence of operations on it:

- `Buffers.Step`/`Run` for buffers, and `Handles.Step`/`Run` for shaders
  and vertex arrays.
- Operations are method calls, being moved from, and being move-assigned
  into.
- The destructor is a final `Release`.
- Lemmas over this model prove that an object deletes its own handle exactly
  once unless it is moved from first, and never deletes a handle it does
  not hold.

`NX_ASSERT` is modelled as a precondition. Each `NX_LOG_*` macro dereferences
`LoggerGet()`, so logging is `Log.LoggerSubsystem.Emit`, which requires an
initialised logger. Every operation that logs requires that on the paths
that log, including the critical log line of a failed assertion in
`WindowInit`.

In these places the code does something its interface does not suggest;
the model follows the code:

- A `Shader` stores only its name, not its stage.
- `Buffer::Create` has no second fallible step, and nothing to roll back,
  because `SetData` cannot fail.
- `WindowDeinit` does not reset `initialized`. So after deinit, a new
  `WindowInit` reports `kAlreadyInitialized`, and the accessors' assertions
  still pass.
- The accessors assert only `initialized`, not a live window.
- In `WindowInit`, the `NX_ASSERT_MSG(!initialized)` is followed by an
  explicit `kAlreadyInitialized` return. The model takes that returned path
  rather than making it a precondition, so a second init is callable. It
  keeps the assertion's critical log line, and so requires the logger.

One place departs from the code: `Buffer::SetSubData` guards with the
overflow-free `Buffers.SubDataFits` instead of the wrapping `size_t` sum
the code computes. The code as written is `Buffers.SubDataRejectedAsWritten`;
see "## Findings".

## Model

| member | source | states |
|---|---|---|
| Errors.Error.GetMessage | src/nexus/include/nexus/outcome/error.h:14-14 | the text returned is empty exactly when the error has no message |
| Errors.Error.HasMessage | src/nexus/include/nexus/outcome/error.h:15-15 | a message is present exactly when the error differs from the code-only error with the same code |
| Errors.Error.GetCode | src/nexus/include/nexus/outcome/error.h:17-20 | the code returned, with the message, rebuilds the error |
| Errors.Error.IsOk | src/nexus/include/nexus/outcome/error.h:22-22 | ok exactly when the code is 0, whatever the message |
| Errors.Narrow | src/nexus/include/nexus/outcome/error.h:31-36 | the code stored is the enumeration value modulo 256, and equals it when it fits in a byte |
| Errors.FromCode | src/nexus/include/nexus/outcome/error.h:12-22 | the code-only constructor leaves the message empty, so `HasMessage` is false; `GetCode` returns the code; `IsOk` exactly when the code is 0 |
| Errors.CreateError | src/nexus/include/nexus/outcome/error.h:34-37 | no message; the code read back is `Narrow` of the value, so the value itself when it fits in a byte; ok exactly when the narrowed code is 0 |
| Errors.CreateErrorWithMessage | src/nexus/include/nexus/outcome/error.h:29-32 | both parts are kept: `GetMessage` is the message, `HasMessage` exactly when it is non-empty, the code is narrowed |
| Errors.CreateErrorRoundTrip | src/nexus/include/nexus/outcome/error.h:17-37 | `CreateError(c).GetCode() == c` for every code that fits in a byte, and distinct codes give distinct errors |
| Errors.EmptyMessageIsNoMessage | src/nexus/include/nexus/outcome/error.h:10-15 | `Error("", c)` reports no message and equals the code-only error |
| Outcomes.Outcome.IsOk | src/nexus/include/nexus/outcome/outcome.h:30-30 | true exactly when no error is held |
| Outcomes.Outcome.IsError | src/nexus/include/nexus/outcome/outcome.h:37-39 | true exactly when no value is held |
| Outcomes.Outcome.GetValue | src/nexus/include/nexus/outcome/outcome.h:46-59 | requires an ok outcome (the `assert`); the outcome holds exactly the value returned |
| Outcomes.Outcome.GetError | src/nexus/include/nexus/outcome/outcome.h:66-79 | requires an error outcome (the `assert`); the outcome holds exactly the error returned |
| Outcomes.Ok | src/nexus/include/nexus/outcome/outcome.h:93-96 | the outcome is ok, not an error, and `GetValue` returns the value given |
| Outcomes.Err | src/nexus/include/nexus/outcome/outcome.h:106-109 | the outcome is an error, not ok, and `GetError` returns the error given |
| Outcomes.ExactlyOneAlternative | src/nexus/include/nexus/outcome/outcome.h:30-39 | every outcome satisfies exactly one of `IsOk` and `IsError` |
| Outcomes.RebuiltFromParts | src/nexus/include/nexus/outcome/outcome.h:46-69 | every outcome is `Ok` of its value or `Err` of its error; the accessors lose nothing |
| Math.Dimensions.Equals | src/nexus/include/nexus/math/dimensions.h:13-15 | componentwise comparison holds exactly when the two pairs are equal |
| Math.Dimensions.NotEquals | src/nexus/include/nexus/math/dimensions.h:17-19 | `!=` is exactly the negation of `==` |
| Math.EqualsIsEquivalence | src/nexus/include/nexus/math/dimensions.h:13-19 | `==` is reflexive, symmetric and transitive, and `a != a` never holds |
| Log.LoggerErrorCode.Code | src/nexus/include/nexus/sys/log.h:21 | `kOk` is the only code 0 |
| Log.CodesDistinct | src/nexus/include/nexus/sys/log.h:21-30 | the two codes differ, and the returned `Error` is ok only for `kOk` |
| Log.Logger.constructor | src/nexus/src/sys/log.cpp:28-29 | the logger is created with the given name and log-file path |
| Log.LoggerSubsystem.constructor | src/nexus/src/sys/log.cpp:10-16 | the static instance starts uninitialised with no logger |
| Log.LoggerSubsystem.Init | src/nexus/src/sys/log.cpp:18-36 | the first call stores a new logger with the given name and path, sets `initialized` and returns `kOk`; every later call returns `kAlreadyInitialized` and keeps the stored logger; `initialized` is never reset |
| Log.LoggerSubsystem.Ready | src/nexus/include/nexus/sys/log.h:9-14 | the `NX_LOG_*` macros may run exactly when the subsystem is initialised, since each dereferences `LoggerGet()` |
| Log.LoggerSubsystem.Emit | src/nexus/include/nexus/sys/log.h:9-14 | one log line; it needs an existing logger, so it comes after a successful `LoggerInit` |
| Log.LoggerSubsystem.Get | src/nexus/src/sys/log.cpp:38-40 | returns the stored logger, non-null exactly once initialised |
| Log.InitTwice | src/nexus/src/sys/log.cpp:18-40 | after two inits the second reports `kAlreadyInitialized`, and `LoggerGet` still returns the logger the first stored |
| Buffers.ErrorCode.Code | src/nexus/include/nexus/graphics/buffer.h:12 | `kOk` is 0 and `kFailedToGenerateBuffer` is not, so a generation error is never ok |
| Buffers.Usage.Value | src/nexus/include/nexus/graphics/buffer.h:14-25 | the `GLenum` values; only `kNone` is 0 |
| Buffers.Target.Value | src/nexus/include/nexus/graphics/buffer.h:27-32 | the `GLenum` values; only `kNone` is 0, and `kArrayBuffer` is `GL_ARRAY_BUFFER` |
| Buffers.SubDataFits | src/nexus/src/graphics/buffer.cpp:66 | the corrected bounds check: accepts exactly when `offset + size <= size_` |
| Buffers.SubDataRejectedAsWritten | src/nexus/src/graphics/buffer.cpp:66 | the check as written, with the `size_t` sum wrapping mod 2^64; it agrees with the corrected check whenever the sum does not wrap |
| Buffers.SubDataGuardWrapsAround | src/nexus/src/graphics/buffer.cpp:66-74 | a write past the end whose end position wraps passes the check as written |
| Buffers.WrappingPairHasNegativePart | src/nexus/src/graphics/buffer.cpp:66-71 | every offset and size whose `size_t` sum wraps includes a part of at least 2^63, a negative `GLintptr` or `GLsizeiptr` |
| Buffers.Buffer.Adopt | src/nexus/src/graphics/buffer.cpp:102-104 | the private constructor stores the four fields given |
| Buffers.Buffer.Move | src/nexus/src/graphics/buffer.cpp:12-21 | takes all four fields and leaves the source released (0, size 0, `kNone`, `kNone`) |
| Buffers.Buffer.Create | src/nexus/src/graphics/buffer.cpp:34-51 | no name from the driver: `kFailedToGenerateBuffer`, driver state unchanged; otherwise ok with a fresh live name and the given usage, target and size, after exactly the `SetData` calls |
| Buffers.Buffer.SetData | src/nexus/src/graphics/buffer.cpp:53-60 | bind, upload, unbind; the target ends unbound and the tracked size is unchanged |
| Buffers.Buffer.SetSubData | src/nexus/src/graphics/buffer.cpp:62-74 | a write that does not fit issues no call and changes nothing; otherwise bind, write, unbind (corrected guard; as written: `SubDataRejectedAsWritten`, see Findings) |
| Buffers.Buffer.Bind | src/nexus/src/graphics/buffer.cpp:76-79 | the target is bound to this buffer |
| Buffers.Buffer.BindRange | src/nexus/src/graphics/buffer.cpp:81-91 | a size over the tracked size issues no call and changes nothing; otherwise bytes [0, size) are bound to the indexed point |
| Buffers.Buffer.BindBase | src/nexus/src/graphics/buffer.cpp:92-95 | the whole buffer is bound to the indexed point |
| Buffers.Buffer.Unbind | src/nexus/src/graphics/buffer.cpp:97-100 | the target's binding is cleared |
| Buffers.Buffer.Release | src/nexus/src/graphics/buffer.cpp:106-116 | a held name is deleted once and the fields reset to the released state; on a released buffer nothing happens |
| Buffers.Buffer.MoveAssign | src/nexus/src/graphics/buffer.cpp:23-32 | self-assignment changes nothing; otherwise the old name is deleted, the fields of `other` are taken and `other` is left released |
| Buffers.ForeignHandleNeverDeleted | src/nexus/src/graphics/buffer.cpp:10-32 | over any life of a buffer object, a name it does not hold is never deleted |
| Buffers.OwnHandleDeletedOnce | src/nexus/src/graphics/buffer.cpp:10-32 | over any life of a buffer object, its name is deleted exactly once if it is released (the destructor included) or assigned to, and never if it is moved from first |
| Handles.ForeignHandleNeverDeleted | src/nexus/src/graphics/shader.cpp:31-41 | a shader or vertex array never deletes a name it does not hold |
| Handles.OwnHandleDeletedOnce | src/nexus/src/graphics/vertex_array.cpp:10-21 | a shader's or vertex array's name is deleted exactly once if it is released or assigned to, and never if it is moved from first |
| Handles.DeletesOnlyHeldHandles | src/nexus/src/graphics/shader.cpp:35-41 | every name an object deletes is one it held, the original or one a move assignment brought in |
| Shaders.ErrorCode.Code | src/nexus/include/nexus/graphics/shader.h:12-16 | `kOk` is 0; the two failure codes are 1 and 2 |
| Shaders.ShaderType.Value | src/nexus/include/nexus/graphics/shader.h:18-22 | the three stages' `GLenum` values, none 0 |
| Shaders.StageValuesDistinct | src/nexus/include/nexus/graphics/shader.h:18-22 | the three stages have distinct values |
| Shaders.Shader.Adopt | src/nexus/src/graphics/shader.cpp:80 | the private constructor stores the name given |
| Shaders.Shader.Move | src/nexus/src/graphics/shader.cpp:33 | takes the name and zeroes the source's |
| Shaders.Shader.Create | src/nexus/src/graphics/shader.cpp:43-66 | no shader from the driver: `kFailedToCreateShader`; failed compile: the shader is deleted and `kFailedToCompileShader` returned, so on every failure the driver state is unchanged; otherwise ok with the new, compiled name |
| Shaders.Shader.GetId | src/nexus/src/graphics/shader.cpp:67-70 | requires a held name and returns it, never 0 |
| Shaders.Shader.Release | src/nexus/src/graphics/shader.cpp:72-78 | a held name is deleted once and zeroed; on a released shader nothing happens |
| Shaders.Shader.MoveAssign | src/nexus/src/graphics/shader.cpp:35-41 | self-assignment changes nothing; otherwise the old name is deleted, `other`'s is taken and `other` ends at 0 |
| Shaders.StepCalls | src/nexus/src/graphics/shader.cpp:31-41 | the shader deletions a lifecycle step issues are exactly the names `Handles.Step` deletes |
| VertexArrays.ErrorCode.Code | src/nexus/include/nexus/graphics/vertex_array.h:11 | `kOk` is 0 and `kFailedToGenerateVertexArray` is not |
| VertexArrays.DataType.Value | src/nexus/include/nexus/graphics/vertex_array.h:13-22 | the component types' `GLenum` values, 0x1400 to 0x140A |
| VertexArrays.DataTypeValuesDistinct | src/nexus/include/nexus/graphics/vertex_array.h:13-22 | the eight values are distinct |
| VertexArrays.VertexArray.Adopt | src/nexus/src/graphics/vertex_array.cpp:59 | the private constructor stores the name given |
| VertexArrays.VertexArray.Move | src/nexus/src/graphics/vertex_array.cpp:12-14 | takes the name and zeroes the source's |
| VertexArrays.VertexArray.Create | src/nexus/src/graphics/vertex_array.cpp:23-32 | no name from the driver: `kFailedToGenerateVertexArray`, driver state unchanged; otherwise ok holding the fresh live name |
| VertexArrays.VertexArray.Bind | src/nexus/src/graphics/vertex_array.cpp:34-37 | requires a held name; this array becomes the bound one |
| VertexArrays.VertexArray.Unbind | src/nexus/src/graphics/vertex_array.cpp:39 | needs no instance; the binding becomes 0 whatever it was |
| VertexArrays.VertexArray.ArrayAttrib | src/nexus/src/graphics/vertex_array.cpp:41-49 | requires a held name; this array ends bound, the attribute enabled in it, and its layout recorded with the buffer then bound to `GL_ARRAY_BUFFER` |
| VertexArrays.VertexArray.Release | src/nexus/src/graphics/vertex_array.cpp:51-57 | a held name is deleted once and zeroed; on a released array nothing happens |
| VertexArrays.VertexArray.MoveAssign | src/nexus/src/graphics/vertex_array.cpp:15-21 | self-assignment changes nothing; otherwise the old name is deleted, `other`'s is taken and `other` ends at 0 |
| VertexArrays.StepDeletions | src/nexus/src/graphics/vertex_array.cpp:10-21 | the vertex array deletions a lifecycle step issues are exactly the names `Handles.Step` deletes |
| Window.WindowErrorCode.Code | src/nexus/include/nexus/sys/window.h:18-24 | `kOk` is the only code 0, all codes below 5 |
| Window.CodesDistinct | src/nexus/include/nexus/sys/window.h:18-26 | the five codes are pairwise distinct, the returned `Error` is ok only for `kOk`, and the code reads back unchanged |
| Window.InitUnwindsCompletedStages | src/nexus/src/sys/window.cpp:33-81 | a failed init terminates the library once if it started and destroys the window it created once; a successful one gives nothing back |
| Window.SuccessfulInitThenDeinitBalanced | src/nexus/src/sys/window.cpp:21-103 | a successful init then deinit starts and terminates the library once each and creates and destroys the window once each |
| Window.WindowSubsystem.constructor | src/nexus/src/sys/window.cpp:11-19 | the static instance: no window, zero size, empty title, not initialised |
| Window.WindowSubsystem.Init | src/nexus/src/sys/window.cpp:21-92 | already initialised: a critical log line (so the logger must exist), then `kAlreadyInitialized`, nothing else touched; otherwise each failing stage returns its own code, having undone the stages before it, so the library is as before and the subsystem uninitialised with no window; settings stored once the library started; on success initialised with the new window current |
| Window.WindowSubsystem.Deinit | src/nexus/src/sys/window.cpp:94-103 | destroys and nulls a held window, terminates the library if initialised, leaves `initialized` set |
| Window.WindowSubsystem.ShouldClose | src/nexus/src/sys/window.cpp:105-109 | whether closing the window was requested; nothing changes |
| Window.WindowSubsystem.PollEvents | src/nexus/src/sys/window.cpp:111-115 | one event-processing call; nothing changes |
| Window.WindowSubsystem.SwapBuffers | src/nexus/src/sys/window.cpp:117-121 | one buffer swap of the window; nothing changes |
| Window.WindowSubsystem.Resize | src/nexus/src/sys/window.cpp:63-70 | the tracked size becomes the new size; window, title and flag unchanged |
| Window.WindowSubsystem.GetDimensions | src/nexus/src/sys/window.cpp:123-127 | requires initialisation; the tracked size |
| Window.WindowSubsystem.GetTitle | src/nexus/src/sys/window.cpp:129-133 | requires initialisation; the stored title |
| Window.FailedInitThenDeinit | src/nexus/src/sys/window.cpp:94-103 | after any failed init, deinit issues no library call, and the subsystem is uninitialised again |
| Forge.NeutralKeepsCounts | src/forge/src/main.cpp:46-49 | calls that neither start nor terminate the library nor destroy a window leave the balance counts unchanged |
| Forge.InitLoopDeinitBalanced | src/forge/src/main.cpp:25-51 | init, neutral frame calls, deinit: one start, one termination, one destruction of the window |
| Forge.FrameLoop | src/forge/src/main.cpp:46-49 | runs one frame more than the frame index at which the user closes; the calls are the first close query and then, per frame, poll, swap and a close query that answers yes only in the last frame; the only state change is the close request |
| Forge.RunForge | src/forge/src/main.cpp:6-53 | exit code 0 exactly when both inits succeed, and then the library is back to its initial state with every acquisition given back once; exit code 1 leaves the library as it was |

## Left out

- OpenGL, GLFW and GLAD themselves are not part of this model. They are oracles whose success answers are parameters. The contents of buffers and GL errors are not modelled.
- The 32-bit width of object names (`uint32_t id_`) is not modelled; names are unbounded counters.
- The window hints, vsync (`glfwSwapInterval`), the framebuffer-size query and the initial `glViewport` are left out. None of them changes a field of the subsystem.
- The GLFW error callback and the framebuffer-size callback are left out; they only log or set the viewport. The window-size callback is the explicit method `Resize`. The model does not tie its delivery to `PollEvents`.
- The shader source text and its hand-off to `glShaderSource` are not modelled. Only the call is recorded.
- The info-log printing on a failed compile is left out, because it is I/O.
- The spdlog sinks, level, pattern and log file, and the text of every log message, are left out. Logging is kept only as its requirement that the logger exists.
- `assert.h` is not part of this model. Its assertions are preconditions.
- C++ destructors have no Dafny counterpart. The destructor of each wrapper is its final `Release`, as in the lifecycle models.
- `DefaultOutcome = Outcome<void, Error>` is ill-formed and is not modelled. The one-argument `Outcome<Shader>` and `Outcome<VertexArray>` are modelled as `Outcome<T, Error>`.
- `Dimensions<T>` is modelled over types with equality. Floating-point `NaN`, for which `==` is not reflexive, is not modelled.
- The error-message printing of `main` is not modelled. Its dependency management and build files are not part of this model.
- Shaders.Shader.Create: requires an initialised logger whenever a shader is created. On a failed compile the source logs only when the info log is non-empty, and the info-log length is not modelled.
- Window.WindowSubsystem.ShouldClose: requires a live window as well as `initialized`, because GLFW requires a non-null window. The source asserts only `initialized`.
- Window.WindowSubsystem.PollEvents: requires a live window as well as `initialized`, because the library must be up. The source asserts only `initialized`.
- Window.WindowSubsystem.SwapBuffers: requires a live window as well as `initialized`, because GLFW requires a non-null window. The source asserts only `initialized`.
- Window.WindowSubsystem.Init: on the already-initialised path `NX_ASSERT_MSG` runs `DEBUG_BREAK()` after its critical log line. The trap ends the process unless a debugger resumes it. The model keeps the log line but not the trap, so its `kAlreadyInitialized` return is reached only when the trap is resumed.
- Log.LoggerSubsystem.Init: always succeeds. Creating the file sink and registering the logger can throw `spdlog_ex` (for an unwritable path or a name already registered); exceptions are not modelled.
- The GL oracle does not depend on a current context or on loaded entry points: `Gl` methods may be called without any `Glfw` state. In the code every `gl*` call goes through the entry points loaded in `WindowInit` and needs the current context.
- GL objects outlive the context in the model: after `WindowDeinit` terminates the library, a buffer, shader or vertex array still holds a live name, and its `Release` deletes it. In the code `glfwTerminate` destroys the context together with its objects, so a later release calls into a context that no longer exists.
- Window.WindowSubsystem.Valid: assumes the subsystem is the library's only user, so the window it holds is the only window.

## Findings

| source | as written | input that shows it | evidently intended | confidence | as-written member | corrected member |
|---|---|---|---|---|---|---|
| src/nexus/src/graphics/buffer.cpp:66 | `offset + size > size_` is computed in `size_t`, where the sum wraps modulo 2^64 | a 16-byte buffer, offset 8, size 2^64 - 4: the sum wraps to 4, the check passes, and bind, `glBufferSubData` and unbind are issued where a warning and no call are intended; the size reaches the driver as a negative `GLsizeiptr`, which it refuses with `GL_INVALID_VALUE`, so nothing is written (`Buffers.WrappingPairHasNegativePart`: every wrapping pair has such a part) | reject exactly when `offset + size` exceeds `size_` as integers, e.g. `offset > size_ \|\| size > size_ - offset` | not executed | Buffers.SubDataRejectedAsWritten, Buffers.SubDataGuardWrapsAround | Buffers.SubDataFits |
