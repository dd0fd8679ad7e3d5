/** The native layer the core calls into, as an oracle: the OpenGL driver
    (`Gl`) and the windowing library with its context-aware GL loader (`Glfw`).
    Each keeps the part of the driver's state the core depends on and a trace
    of every call issued, in order. Whether a fallible call succeeds is a
    parameter of the call; names are handed out by a counter, so a name that
    is handed out is always fresh. */
module Native {

  /** `GL_ARRAY_BUFFER`, the target whose binding vertex attribute pointers capture. */
  const ARRAY_BUFFER: nat := 0x8892

  /** What an indexed binding point of a buffer target refers to. */
  datatype IndexedBinding =
    | WholeBuffer(name: nat)
    | BufferRange(name: nat, offset: nat, size: nat)

  /** The configuration `glVertexAttribPointer` records for one attribute of a
      vertex array, including the buffer that was bound to `GL_ARRAY_BUFFER`
      at the time of the call. */
  datatype AttribFormat = AttribFormat(buffer: nat, components: int, kind: nat, stride: int, offset: nat)

  /** One OpenGL call, with the names and `GLenum` values it was given (and,
      for the allocating calls and the status query, what the driver answered). */
  datatype GlCall =
    | GenBuffers(name: nat)
    | DeleteBuffers(name: nat)
    | BindBuffer(target: nat, name: nat)
    | BufferData(target: nat, size: nat, initialised: bool, usage: nat)
    | BufferSubData(target: nat, offset: nat, size: nat)
    | BindBufferRange(target: nat, index: nat, name: nat, offset: nat, size: nat)
    | BindBufferBase(target: nat, index: nat, name: nat)
    | CreateShader(kind: nat, name: nat)
    | ShaderSource(name: nat)
    | CompileShader(name: nat)
    | GetCompileStatus(name: nat, status: bool)
    | DeleteShader(name: nat)
    | GenVertexArrays(name: nat)
    | DeleteVertexArrays(name: nat)
    | BindVertexArray(name: nat)
    | EnableVertexAttribArray(index: nat)
    | VertexAttribPointer(index: nat, components: int, kind: nat, stride: int, offset: nat)

  /** The driver state: live object names, which shaders compiled, and the
      bindings of the current context. Buffer contents are not modelled. */
  datatype GlState = GlState(
    buffers: set<nat>,
    shaders: set<nat>,
    compiled: set<nat>,
    vertexArrays: set<nat>,
    bufferBinding: map<nat, nat>,
    indexedBinding: map<(nat, nat), IndexedBinding>,
    vertexArrayBinding: nat,
    enabledAttribs: set<(nat, nat)>,
    attribFormats: map<(nat, nat), AttribFormat>)
  {
    /** The buffer bound to `target`; 0 when none is. */
    function BoundBuffer(target: nat): nat {
      if target in bufferBinding then bufferBinding[target] else 0
    }

    function WithBufferBound(target: nat, name: nat): GlState {
      this.(bufferBinding := bufferBinding[target := name])
    }

    /** Deleting a buffer resets every binding of the current context that
        refers to it. */
    function WithoutBuffer(name: nat): GlState {
      this.(buffers := buffers - {name},
            bufferBinding := map t | t in bufferBinding :: if bufferBinding[t] == name then 0 else bufferBinding[t],
            indexedBinding := map k | k in indexedBinding && indexedBinding[k].name != name :: indexedBinding[k])
    }

    /** `glBindBufferRange` and `glBindBufferBase` bind the indexed point and
        the generic point of the target. */
    function WithIndexedBinding(target: nat, index: nat, binding: IndexedBinding): GlState {
      this.(bufferBinding := bufferBinding[target := binding.name],
            indexedBinding := indexedBinding[(target, index) := binding])
    }

    function WithoutShader(name: nat): GlState {
      this.(shaders := shaders - {name}, compiled := compiled - {name})
    }

    /** Deleting the bound vertex array reverts the binding to 0. */
    function WithoutVertexArray(name: nat): GlState {
      this.(vertexArrays := vertexArrays - {name},
            vertexArrayBinding := if vertexArrayBinding == name then 0 else vertexArrayBinding)
    }
  }

  const InitialGl: GlState := GlState({}, {}, {}, {}, map[], map[], 0, {}, map[])

  class Gl {
    var state: GlState
    var trace: seq<GlCall>
    /** The next name the driver hands out. */
    var nextName: nat

    ghost predicate Valid()
      reads this
    {
      && nextName > 0
      && (forall n :: n in state.buffers ==> 0 < n < nextName)
      && (forall n :: n in state.shaders ==> 0 < n < nextName)
      && (forall n :: n in state.vertexArrays ==> 0 < n < nextName)
      && state.compiled <= state.shaders
    }

    constructor ()
      ensures Valid() && state == InitialGl && trace == []
    {
      state := InitialGl;
      trace := [];
      nextName := 1;
    }

    /** `glGenBuffers(1, &name)`: a fresh name, or 0 when the driver fails. */
    method GenBuffers(allocates: bool) returns (name: nat)
      requires Valid()
      modifies this
      ensures Valid()
      ensures name != 0 <==> allocates
      ensures name != 0 ==> name !in old(state.buffers) && state == old(state).(buffers := old(state.buffers) + {name})
      ensures name != 0 ==> name == old(nextName)
      ensures name == 0 ==> state == old(state)
      ensures trace == old(trace) + [GlCall.GenBuffers(name)]
    {
      if allocates {
        name := nextName;
        nextName := nextName + 1;
        state := state.(buffers := state.buffers + {name});
      } else {
        name := 0;
      }
      trace := trace + [GlCall.GenBuffers(name)];
    }

    /** `glDeleteBuffers(1, &name)`. The model accepts only live names, so a
        verified caller never deletes a buffer twice. */
    method DeleteBuffers(name: nat)
      requires Valid() && name in state.buffers
      modifies this
      ensures Valid() && nextName == old(nextName)
      ensures state == old(state).WithoutBuffer(name)
      ensures trace == old(trace) + [GlCall.DeleteBuffers(name)]
    {
      state := state.WithoutBuffer(name);
      trace := trace + [GlCall.DeleteBuffers(name)];
    }

    /** `glBindBuffer(target, name)`; name 0 unbinds the target. */
    method BindBuffer(target: nat, name: nat)
      requires Valid() && (name == 0 || name in state.buffers)
      modifies this
      ensures Valid() && nextName == old(nextName)
      ensures state == old(state).WithBufferBound(target, name)
      ensures trace == old(trace) + [GlCall.BindBuffer(target, name)]
    {
      state := state.WithBufferBound(target, name);
      trace := trace + [GlCall.BindBuffer(target, name)];
    }

    /** `glBufferData`: (re)allocates the store of the buffer bound to `target`. */
    method BufferData(target: nat, size: nat, initialised: bool, usage: nat)
      requires Valid() && state.BoundBuffer(target) != 0
      modifies this
      ensures Valid() && nextName == old(nextName) && state == old(state)
      ensures trace == old(trace) + [GlCall.BufferData(target, size, initialised, usage)]
    {
      trace := trace + [GlCall.BufferData(target, size, initialised, usage)];
    }

    /** `glBufferSubData`: writes part of the store of the buffer bound to `target`. */
    method BufferSubData(target: nat, offset: nat, size: nat)
      requires Valid() && state.BoundBuffer(target) != 0
      modifies this
      ensures Valid() && nextName == old(nextName) && state == old(state)
      ensures trace == old(trace) + [GlCall.BufferSubData(target, offset, size)]
    {
      trace := trace + [GlCall.BufferSubData(target, offset, size)];
    }

    /** `glBindBufferRange(target, index, name, offset, size)`. */
    method BindBufferRange(target: nat, index: nat, name: nat, offset: nat, size: nat)
      requires Valid() && name in state.buffers
      modifies this
      ensures Valid() && nextName == old(nextName)
      ensures state == old(state).WithIndexedBinding(target, index, BufferRange(name, offset, size))
      ensures trace == old(trace) + [GlCall.BindBufferRange(target, index, name, offset, size)]
    {
      state := state.WithIndexedBinding(target, index, BufferRange(name, offset, size));
      trace := trace + [GlCall.BindBufferRange(target, index, name, offset, size)];
    }

    /** `glBindBufferBase(target, index, name)`. */
    method BindBufferBase(target: nat, index: nat, name: nat)
      requires Valid() && name in state.buffers
      modifies this
      ensures Valid() && nextName == old(nextName)
      ensures state == old(state).WithIndexedBinding(target, index, WholeBuffer(name))
      ensures trace == old(trace) + [GlCall.BindBufferBase(target, index, name)]
    {
      state := state.WithIndexedBinding(target, index, WholeBuffer(name));
      trace := trace + [GlCall.BindBufferBase(target, index, name)];
    }

    /** `glCreateShader(kind)`: a fresh name, or 0 when the driver fails. */
    method CreateShader(kind: nat, creates: bool) returns (name: nat)
      requires Valid()
      modifies this
      ensures Valid()
      ensures name != 0 <==> creates
      ensures name != 0 ==> name !in old(state.shaders) && state == old(state).(shaders := old(state.shaders) + {name})
      ensures name != 0 ==> name == old(nextName)
      ensures name == 0 ==> state == old(state)
      ensures trace == old(trace) + [GlCall.CreateShader(kind, name)]
    {
      if creates {
        name := nextName;
        nextName := nextName + 1;
        state := state.(shaders := state.shaders + {name});
      } else {
        name := 0;
      }
      trace := trace + [GlCall.CreateShader(kind, name)];
    }

    /** `glShaderSource`; the text handed over is not modelled. */
    method ShaderSource(name: nat)
      requires Valid() && name in state.shaders
      modifies this
      ensures Valid() && nextName == old(nextName) && state == old(state)
      ensures trace == old(trace) + [GlCall.ShaderSource(name)]
    {
      trace := trace + [GlCall.ShaderSource(name)];
    }

    /** `glCompileShader`; whether compilation succeeds is the driver's answer. */
    method CompileShader(name: nat, succeeds: bool)
      requires Valid() && name in state.shaders
      modifies this
      ensures Valid() && nextName == old(nextName)
      ensures state == old(state).(compiled := if succeeds then old(state.compiled) + {name} else old(state.compiled) - {name})
      ensures trace == old(trace) + [GlCall.CompileShader(name)]
    {
      state := state.(compiled := if succeeds then state.compiled + {name} else state.compiled - {name});
      trace := trace + [GlCall.CompileShader(name)];
    }

    /** `glGetShaderiv(name, GL_COMPILE_STATUS, &status)`. */
    method GetCompileStatus(name: nat) returns (status: bool)
      requires Valid() && name in state.shaders
      modifies this
      ensures Valid() && nextName == old(nextName) && state == old(state)
      ensures status <==> name in state.compiled
      ensures trace == old(trace) + [GlCall.GetCompileStatus(name, status)]
    {
      status := name in state.compiled;
      trace := trace + [GlCall.GetCompileStatus(name, status)];
    }

    /** `glDeleteShader(name)`; only live names are accepted. */
    method DeleteShader(name: nat)
      requires Valid() && name in state.shaders
      modifies this
      ensures Valid() && nextName == old(nextName)
      ensures state == old(state).WithoutShader(name)
      ensures trace == old(trace) + [GlCall.DeleteShader(name)]
    {
      state := state.WithoutShader(name);
      trace := trace + [GlCall.DeleteShader(name)];
    }

    /** `glGenVertexArrays(1, &name)`: a fresh name, or 0 when the driver fails. */
    method GenVertexArrays(allocates: bool) returns (name: nat)
      requires Valid()
      modifies this
      ensures Valid()
      ensures name != 0 <==> allocates
      ensures name != 0 ==> name !in old(state.vertexArrays) && state == old(state).(vertexArrays := old(state.vertexArrays) + {name})
      ensures name != 0 ==> name == old(nextName)
      ensures name == 0 ==> state == old(state)
      ensures trace == old(trace) + [GlCall.GenVertexArrays(name)]
    {
      if allocates {
        name := nextName;
        nextName := nextName + 1;
        state := state.(vertexArrays := state.vertexArrays + {name});
      } else {
        name := 0;
      }
      trace := trace + [GlCall.GenVertexArrays(name)];
    }

    /** `glDeleteVertexArrays(1, &name)`; only live names are accepted. */
    method DeleteVertexArrays(name: nat)
      requires Valid() && name in state.vertexArrays
      modifies this
      ensures Valid() && nextName == old(nextName)
      ensures state == old(state).WithoutVertexArray(name)
      ensures trace == old(trace) + [GlCall.DeleteVertexArrays(name)]
    {
      state := state.WithoutVertexArray(name);
      trace := trace + [GlCall.DeleteVertexArrays(name)];
    }

    /** `glBindVertexArray(name)`; name 0 unbinds. */
    method BindVertexArray(name: nat)
      requires Valid() && (name == 0 || name in state.vertexArrays)
      modifies this
      ensures Valid() && nextName == old(nextName)
      ensures state == old(state).(vertexArrayBinding := name)
      ensures trace == old(trace) + [GlCall.BindVertexArray(name)]
    {
      state := state.(vertexArrayBinding := name);
      trace := trace + [GlCall.BindVertexArray(name)];
    }

    /** `glEnableVertexAttribArray(index)`, on the bound vertex array. */
    method EnableVertexAttribArray(index: nat)
      requires Valid() && state.vertexArrayBinding != 0
      modifies this
      ensures Valid() && nextName == old(nextName)
      ensures state == old(state).(enabledAttribs := old(state.enabledAttribs) + {(old(state.vertexArrayBinding), index)})
      ensures trace == old(trace) + [GlCall.EnableVertexAttribArray(index)]
    {
      state := state.(enabledAttribs := state.enabledAttribs + {(state.vertexArrayBinding, index)});
      trace := trace + [GlCall.EnableVertexAttribArray(index)];
    }

    /** `glVertexAttribPointer`, on the bound vertex array: the attribute reads
        from whatever buffer is bound to `GL_ARRAY_BUFFER` now. */
    method VertexAttribPointer(index: nat, components: int, kind: nat, stride: int, offset: nat)
      requires Valid() && state.vertexArrayBinding != 0
      modifies this
      ensures Valid() && nextName == old(nextName)
      ensures state == old(state).(attribFormats := old(state.attribFormats)[(old(state.vertexArrayBinding), index) :=
                 AttribFormat(old(state.BoundBuffer(ARRAY_BUFFER)), components, kind, stride, offset)])
      ensures trace == old(trace) + [GlCall.VertexAttribPointer(index, components, kind, stride, offset)]
    {
      state := state.(attribFormats := state.attribFormats[(state.vertexArrayBinding, index) :=
                 AttribFormat(state.BoundBuffer(ARRAY_BUFFER), components, kind, stride, offset)]);
      trace := trace + [GlCall.VertexAttribPointer(index, components, kind, stride, offset)];
    }
  }

  /** One call into the windowing library or the GL loader. */
  datatype GlfwCall =
    | Init(success: bool)
    | Terminate
    | CreateWindow(width: int, height: int, title: string, window: nat)
    | DestroyWindow(window: nat)
    | MakeContextCurrent(window: nat)
    | LoadGl(success: bool)
    | PollEvents
    | SwapBuffers(window: nat)
    | WindowShouldClose(window: nat, result: bool)

  /** Whether the library is initialised, the live windows, the window whose
      context is current (0 for none) and the windows the user asked to close. */
  datatype GlfwState = GlfwState(up: bool, windows: set<nat>, current: nat, closeRequested: set<nat>)

  const InitialGlfw: GlfwState := GlfwState(false, {}, 0, {})

  class Glfw {
    var state: GlfwState
    var trace: seq<GlfwCall>
    /** The next window handle the library hands out. */
    var nextWindow: nat

    ghost predicate Valid()
      reads this
    {
      && nextWindow > 0
      && (forall w :: w in state.windows ==> 0 < w < nextWindow)
      && (!state.up ==> state.windows == {})
      && (state.current == 0 || state.current in state.windows)
      && state.closeRequested <= state.windows
    }

    constructor ()
      ensures Valid() && state == InitialGlfw && trace == []
    {
      state := InitialGlfw;
      trace := [];
      nextWindow := 1;
    }

    /** `glfwInit()`: succeeds at once when the library is already up. */
    method Init(succeeds: bool) returns (ok: bool)
      requires Valid()
      modifies this
      ensures Valid() && nextWindow == old(nextWindow)
      ensures ok <==> old(state.up) || succeeds
      ensures state == old(state).(up := ok)
      ensures trace == old(trace) + [GlfwCall.Init(ok)]
    {
      ok := state.up || succeeds;
      state := state.(up := ok);
      trace := trace + [GlfwCall.Init(ok)];
    }

    /** `glfwTerminate()`: destroys any remaining window; harmless when the
        library is not up. */
    method Terminate()
      requires Valid()
      modifies this
      ensures Valid() && nextWindow == old(nextWindow)
      ensures state == InitialGlfw
      ensures trace == old(trace) + [GlfwCall.Terminate]
    {
      state := InitialGlfw;
      trace := trace + [GlfwCall.Terminate];
    }

    /** `glfwCreateWindow(width, height, title, nullptr, nullptr)`: a fresh
        handle, or 0 (`nullptr`) when creation fails. */
    method CreateWindow(width: int, height: int, title: string, succeeds: bool) returns (window: nat)
      requires Valid() && state.up
      modifies this
      ensures Valid()
      ensures window != 0 <==> succeeds
      ensures window != 0 ==> window == old(nextWindow) && state == old(state).(windows := old(state.windows) + {window})
      ensures window == 0 ==> state == old(state)
      ensures trace == old(trace) + [GlfwCall.CreateWindow(width, height, title, window)]
    {
      if succeeds {
        window := nextWindow;
        nextWindow := nextWindow + 1;
        state := state.(windows := state.windows + {window});
      } else {
        window := 0;
      }
      trace := trace + [GlfwCall.CreateWindow(width, height, title, window)];
    }

    /** `glfwDestroyWindow(window)`; its context stops being current. */
    method DestroyWindow(window: nat)
      requires Valid() && window in state.windows
      modifies this
      ensures Valid() && nextWindow == old(nextWindow)
      ensures state == old(state).(windows := old(state.windows) - {window},
                                   current := if old(state.current) == window then 0 else old(state.current),
                                   closeRequested := old(state.closeRequested) - {window})
      ensures trace == old(trace) + [GlfwCall.DestroyWindow(window)]
    {
      state := state.(windows := state.windows - {window},
                      current := if state.current == window then 0 else state.current,
                      closeRequested := state.closeRequested - {window});
      trace := trace + [GlfwCall.DestroyWindow(window)];
    }

    /** `glfwMakeContextCurrent(window)`. */
    method MakeContextCurrent(window: nat)
      requires Valid() && window in state.windows
      modifies this
      ensures Valid() && nextWindow == old(nextWindow)
      ensures state == old(state).(current := window)
      ensures trace == old(trace) + [GlfwCall.MakeContextCurrent(window)]
    {
      state := state.(current := window);
      trace := trace + [GlfwCall.MakeContextCurrent(window)];
    }

    /** `gladLoadGLLoader(glfwGetProcAddress)`: needs a current context; whether
        the entry points load is the loader's answer. */
    method LoadGl(succeeds: bool) returns (ok: bool)
      requires Valid() && state.current != 0
      modifies this
      ensures Valid() && nextWindow == old(nextWindow) && state == old(state)
      ensures ok == succeeds
      ensures trace == old(trace) + [GlfwCall.LoadGl(ok)]
    {
      ok := succeeds;
      trace := trace + [GlfwCall.LoadGl(ok)];
    }

    /** `glfwPollEvents()`. */
    method PollEvents()
      requires Valid() && state.up
      modifies this
      ensures Valid() && nextWindow == old(nextWindow) && state == old(state)
      ensures trace == old(trace) + [GlfwCall.PollEvents]
    {
      trace := trace + [GlfwCall.PollEvents];
    }

    /** `glfwSwapBuffers(window)`. */
    method SwapBuffers(window: nat)
      requires Valid() && window in state.windows
      modifies this
      ensures Valid() && nextWindow == old(nextWindow) && state == old(state)
      ensures trace == old(trace) + [GlfwCall.SwapBuffers(window)]
    {
      trace := trace + [GlfwCall.SwapBuffers(window)];
    }

    /** `glfwWindowShouldClose(window)`: the window's close flag. */
    method WindowShouldClose(window: nat) returns (result: bool)
      requires Valid() && window in state.windows
      modifies this
      ensures Valid() && nextWindow == old(nextWindow) && state == old(state)
      ensures result <==> window in state.closeRequested
      ensures trace == old(trace) + [GlfwCall.WindowShouldClose(window, result)]
    {
      result := window in state.closeRequested;
      trace := trace + [GlfwCall.WindowShouldClose(window, result)];
    }

    /** The user asks to close `window` (an input from outside, not a call). */
    method RequestClose(window: nat)
      requires Valid() && window in state.windows
      modifies this
      ensures Valid() && nextWindow == old(nextWindow) && trace == old(trace)
      ensures state == old(state).(closeRequested := old(state.closeRequested) + {window})
    {
      state := state.(closeRequested := state.closeRequested + {window});
    }
  }
}
