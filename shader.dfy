/** The shader wrapper (`nx::graphics::Shader`): it owns one compiled shader
    object, or nothing (name 0). */
module Shaders {
  import opened Errors
  import Outcomes
  import opened Native
  import Log
  import Handles

  /** `Shader::ErrorCode`, stored in one byte. */
  datatype ErrorCode = Ok | FailedToCreateShader | FailedToCompileShader {
    function Code(): (c: uint8)
      ensures c == 0 <==> this == Ok
      ensures this == FailedToCreateShader ==> c == 1
      ensures this == FailedToCompileShader ==> c == 2
    {
      match this
      case Ok => 0
      case FailedToCreateShader => 1
      case FailedToCompileShader => 2
    }
  }

  /** `Shader::Type`, the pipeline stage passed to `glCreateShader`. */
  datatype ShaderType = Vertex | Fragment | Geometry {
    function Value(): (v: nat)
      ensures v != 0
    {
      match this
      case Vertex => 0x8B31
      case Fragment => 0x8B30
      case Geometry => 0x8DD9
    }
  }

  /** The three stages have distinct `GLenum` values. */
  lemma StageValuesDistinct(a: ShaderType, b: ShaderType)
    ensures a.Value() == b.Value() ==> a == b
  {
  }

  /** What `Create` issues, given the name the driver answered (0 on failure)
      and the compile status it reported: create; then upload the source,
      compile and query the status; and on a failed compile, delete. */
  function CreateCalls(kind: ShaderType, name: nat, compiled: bool): seq<GlCall> {
    if name == 0 then [CreateShader(kind.Value(), 0)]
    else
      [CreateShader(kind.Value(), name), ShaderSource(name), CompileShader(name), GetCompileStatus(name, compiled)]
      + (if compiled then [] else [DeleteShader(name)])
  }

  /** What `Release` issues on a shader holding `id`: it deletes exactly the
      names `Handles.Released(id)` lists. */
  function ReleaseCalls(id: nat): seq<GlCall> {
    if id != 0 then [DeleteShader(id)] else []
  }

  class Shader {
    var id: nat

    /** A held name is a live shader that compiled. */
    ghost predicate Valid(gl: Gl)
      reads this, gl
    {
      id != 0 ==> id in gl.state.compiled
    }

    /** The private constructor through which `Create` hands over a name. */
    constructor Adopt(id: nat)
      requires id != 0
      ensures this.id == id
    {
      this.id := id;
    }

    /** The move constructor: takes the name and zeroes `other`'s. */
    constructor Move(other: Shader)
      modifies other
      ensures id == old(other.id) && other.id == 0
    {
      id := other.id;
      new;
      other.id := 0;
    }

    /** `Shader::Create`: an error when the driver creates no shader; when the
        compile fails, the shader is deleted again (nothing leaks) and the
        error is `kFailedToCompileShader`; otherwise a shader holding the new,
        compiled name. */
    static method Create(gl: Gl, log: Log.LoggerSubsystem, kind: ShaderType, creates: bool, compiles: bool)
        returns (r: Outcomes.Outcome<Shader, Error>)
      requires gl.Valid()
      requires creates ==> log.Ready()
      modifies gl
      ensures gl.Valid()
      ensures r.IsOk() <==> creates && compiles
      ensures !creates ==> r.IsError() && r.GetError() == CreateError(ErrorCode.FailedToCreateShader.Code())
      ensures creates && !compiles ==> r.IsError() && r.GetError() == CreateError(ErrorCode.FailedToCompileShader.Code())
      ensures r.IsError() ==> gl.state == old(gl.state)
      ensures r.IsOk() ==>
        var s := r.GetValue();
        && fresh(s) && s.Valid(gl)
        && s.id == old(gl.nextName) && s.id !in old(gl.state.shaders)
        && gl.state == old(gl.state).(shaders := old(gl.state.shaders) + {s.id}, compiled := old(gl.state.compiled) + {s.id})
      ensures gl.trace == old(gl.trace) + CreateCalls(kind, if creates then old(gl.nextName) else 0, compiles)
    {
      var name := gl.CreateShader(kind.Value(), creates);
      if name == 0 {
        r := Outcomes.Err(CreateError(ErrorCode.FailedToCreateShader.Code()));
        return;
      }
      gl.ShaderSource(name);
      gl.CompileShader(name, compiles);
      var success := gl.GetCompileStatus(name);
      if !success {
        log.Emit(Log.ErrorLevel);
        gl.DeleteShader(name);
        r := Outcomes.Err(CreateError(ErrorCode.FailedToCompileShader.Code()));
        return;
      }
      log.Emit(Log.DebugLevel);
      var shader := new Shader.Adopt(name);
      r := Outcomes.Ok(shader);
    }

    /** `Shader::GetId`: the held name, which is never 0; asking a released
        shader is an assertion failure. */
    function GetId(): (n: nat)
      requires id != 0
      reads this
      ensures n != 0 && n == id
    {
      id
    }

    /** `Shader::Release` (also what the destructor does): deletes a held name
        once and zeroes it; on a released shader it does nothing. */
    method Release(gl: Gl, log: Log.LoggerSubsystem)
      requires gl.Valid() && Valid(gl)
      requires id != 0 ==> log.Ready()
      modifies this, gl
      ensures gl.Valid() && gl.nextName == old(gl.nextName)
      ensures id == 0
      ensures gl.trace == old(gl.trace) + ReleaseCalls(old(id))
      ensures gl.state == if old(id) != 0 then old(gl.state).WithoutShader(old(id)) else old(gl.state)
    {
      if id != 0 {
        gl.DeleteShader(id);
        log.Emit(Log.DebugLevel);
        id := 0;
      }
    }

    /** Move assignment: a no-op on itself; otherwise releases its own name,
        then swaps names with `other`, which is left holding 0. */
    method MoveAssign(other: Shader, gl: Gl, log: Log.LoggerSubsystem)
      requires gl.Valid() && Valid(gl) && other.Valid(gl)
      requires other != this && id != 0 ==> id != other.id && log.Ready()
      modifies this, other, gl
      ensures gl.Valid() && gl.nextName == old(gl.nextName)
      ensures Valid(gl) && other.Valid(gl)
      ensures other == this ==> id == old(id) && gl.state == old(gl.state) && gl.trace == old(gl.trace)
      ensures other != this ==> id == old(other.id) && other.id == 0
      ensures other != this ==> gl.trace == old(gl.trace) + ReleaseCalls(old(id))
      ensures other != this ==> gl.state == if old(id) != 0 then old(gl.state).WithoutShader(old(id)) else old(gl.state)
    {
      if other != this {
        Release(gl, log);
        id, other.id := other.id, id;
      }
    }
  }

  /** The native calls of one step of a shader's life, as `Handles.Step`
      describes it: only `Release` and move assignment call into the driver. */
  function StepCalls(h: nat, op: Handles.HandleOp): (calls: seq<GlCall>)
    requires Handles.Permitted(h, op)
    ensures forall g :: multiset(calls)[DeleteShader(g)] == multiset(Handles.Step(h, op).1)[g]
  {
    match op
    case UseOp => []
    case MovedFromOp => []
    case ReleaseOp => ReleaseCalls(h)
    case MovedIntoOp(_) => ReleaseCalls(h)
  }
}
