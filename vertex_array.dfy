/** The vertex array wrapper (`nx::graphics::VertexArray`): it owns one
    vertex array object, or nothing (name 0), and records attribute layouts
    into it. */
module VertexArrays {
  import opened Errors
  import Outcomes
  import opened Native
  import Log
  import Handles

  /** `uint32_t`. */
  type uint32 = x: int | 0 <= x < 0x1_0000_0000

  /** `int32_t`. */
  type int32 = x: int | -0x8000_0000 <= x < 0x8000_0000

  /** `VertexArray::ErrorCode`, stored in one byte. */
  datatype ErrorCode = Ok | FailedToGenerateVertexArray {
    function Code(): (c: uint8)
      ensures c == 0 <==> this == Ok
    {
      match this
      case Ok => 0
      case FailedToGenerateVertexArray => 1
    }
  }

  /** `VertexArray::DataType`, the component type of an attribute. */
  datatype DataType = Byte | UnsignedByte | Short | UnsignedShort | Int | UnsignedInt | Float | Double {
    /** The `GLenum` value: 0x1400 to 0x1406 in declaration order, then 0x140A. */
    function Value(): (v: nat)
      ensures 0x1400 <= v <= 0x140A
      ensures v == 0x140A <==> this == Double
    {
      match this
      case Byte => 0x1400
      case UnsignedByte => 0x1401
      case Short => 0x1402
      case UnsignedShort => 0x1403
      case Int => 0x1404
      case UnsignedInt => 0x1405
      case Float => 0x1406
      case Double => 0x140A
    }
  }

  /** The eight component types have distinct `GLenum` values. */
  lemma DataTypeValuesDistinct(a: DataType, b: DataType)
    ensures a.Value() == b.Value() ==> a == b
  {
  }

  /** What `ArrayAttrib` issues: bind this array, enable the attribute, and
      record its layout. */
  function ArrayAttribCalls(id: nat, index: uint32, size: int32, kind: DataType, stride: int32, offset: nat): seq<GlCall> {
    [BindVertexArray(id), EnableVertexAttribArray(index), VertexAttribPointer(index, size, kind.Value(), stride, offset)]
  }

  /** What `Release` issues on an array holding `id`: it deletes exactly the
      names `Handles.Released(id)` lists. */
  function ReleaseCalls(id: nat): seq<GlCall> {
    if id != 0 then [DeleteVertexArrays(id)] else []
  }

  class VertexArray {
    var id: nat

    /** A held name is a live vertex array. */
    ghost predicate Valid(gl: Gl)
      reads this, gl
    {
      id != 0 ==> id in gl.state.vertexArrays
    }

    /** The private constructor through which `Create` hands over a name. */
    constructor Adopt(id: nat)
      requires id != 0
      ensures this.id == id
    {
      this.id := id;
    }

    /** The move constructor: takes the name and zeroes `other`'s. */
    constructor Move(other: VertexArray)
      modifies other
      ensures id == old(other.id) && other.id == 0
    {
      id := other.id;
      new;
      other.id := 0;
    }

    /** `VertexArray::Create`: an error and nothing allocated when the driver
        yields no name; otherwise an array holding the fresh name. */
    static method Create(gl: Gl, log: Log.LoggerSubsystem, allocates: bool)
        returns (r: Outcomes.Outcome<VertexArray, Error>)
      requires gl.Valid()
      requires allocates ==> log.Ready()
      modifies gl
      ensures gl.Valid()
      ensures r.IsOk() <==> allocates
      ensures r.IsError() ==> r.GetError() == CreateError(ErrorCode.FailedToGenerateVertexArray.Code())
      ensures r.IsError() ==> gl.state == old(gl.state) && gl.trace == old(gl.trace) + [GenVertexArrays(0)]
      ensures r.IsOk() ==>
        var v := r.GetValue();
        && fresh(v) && v.Valid(gl)
        && v.id == old(gl.nextName) && v.id !in old(gl.state.vertexArrays)
        && gl.state == old(gl.state).(vertexArrays := old(gl.state.vertexArrays) + {v.id})
        && gl.trace == old(gl.trace) + [GenVertexArrays(v.id)]
    {
      var name := gl.GenVertexArrays(allocates);
      if name == 0 {
        r := Outcomes.Err(CreateError(ErrorCode.FailedToGenerateVertexArray.Code()));
        return;
      }
      log.Emit(Log.DebugLevel);
      var created := new VertexArray.Adopt(name);
      r := Outcomes.Ok(created);
    }

    /** `VertexArray::Bind`: makes this array the bound one. */
    method Bind(gl: Gl)
      requires gl.Valid() && Valid(gl) && id != 0
      modifies gl
      ensures gl.Valid() && gl.nextName == old(gl.nextName)
      ensures gl.state == old(gl.state).(vertexArrayBinding := id)
      ensures gl.trace == old(gl.trace) + [BindVertexArray(id)]
    {
      gl.BindVertexArray(id);
    }

    /** `VertexArray::Unbind`: binds no array, whichever was bound. */
    static method Unbind(gl: Gl)
      requires gl.Valid()
      modifies gl
      ensures gl.Valid() && gl.nextName == old(gl.nextName)
      ensures gl.state == old(gl.state).(vertexArrayBinding := 0)
      ensures gl.trace == old(gl.trace) + [BindVertexArray(0)]
    {
      gl.BindVertexArray(0);
    }

    /** `VertexArray::ArrayAttrib`: binds this array, enables attribute
        `index` in it and records the attribute's layout together with the
        buffer bound to `GL_ARRAY_BUFFER` at the time (`offset` is the byte
        offset passed as the data pointer). The array stays bound. Nothing
        else changes. */
    method ArrayAttrib(gl: Gl, index: uint32, size: int32, kind: DataType, stride: int32, offset: nat)
      requires gl.Valid() && Valid(gl) && id != 0
      modifies gl
      ensures gl.Valid() && gl.nextName == old(gl.nextName)
      ensures gl.state == old(gl.state).(
        vertexArrayBinding := id,
        enabledAttribs := old(gl.state.enabledAttribs) + {(id, index)},
        attribFormats := old(gl.state.attribFormats)[(id, index) :=
          AttribFormat(old(gl.state.BoundBuffer(ARRAY_BUFFER)), size, kind.Value(), stride, offset)])
      ensures gl.trace == old(gl.trace) + ArrayAttribCalls(id, index, size, kind, stride, offset)
    {
      Bind(gl);
      gl.EnableVertexAttribArray(index);
      gl.VertexAttribPointer(index, size, kind.Value(), stride, offset);
    }

    /** `VertexArray::Release` (also what the destructor does): deletes a held
        name once and zeroes it; on a released array it does nothing. */
    method Release(gl: Gl, log: Log.LoggerSubsystem)
      requires gl.Valid() && Valid(gl)
      requires id != 0 ==> log.Ready()
      modifies this, gl
      ensures gl.Valid() && gl.nextName == old(gl.nextName)
      ensures id == 0
      ensures gl.trace == old(gl.trace) + ReleaseCalls(old(id))
      ensures gl.state == if old(id) != 0 then old(gl.state).WithoutVertexArray(old(id)) else old(gl.state)
    {
      if id != 0 {
        gl.DeleteVertexArrays(id);
        log.Emit(Log.DebugLevel);
        id := 0;
      }
    }

    /** Move assignment: a no-op on itself; otherwise releases its own name,
        then swaps names with `other`, which is left holding 0. */
    method MoveAssign(other: VertexArray, gl: Gl, log: Log.LoggerSubsystem)
      requires gl.Valid() && Valid(gl) && other.Valid(gl)
      requires other != this && id != 0 ==> id != other.id && log.Ready()
      modifies this, other, gl
      ensures gl.Valid() && gl.nextName == old(gl.nextName)
      ensures Valid(gl) && other.Valid(gl)
      ensures other == this ==> id == old(id) && gl.state == old(gl.state) && gl.trace == old(gl.trace)
      ensures other != this ==> id == old(other.id) && other.id == 0
      ensures other != this ==> gl.trace == old(gl.trace) + ReleaseCalls(old(id))
      ensures other != this ==> gl.state == if old(id) != 0 then old(gl.state).WithoutVertexArray(old(id)) else old(gl.state)
    {
      if other != this {
        Release(gl, log);
        id, other.id := other.id, id;
      }
    }
  }

  /** The deletions among the native calls of one step of an array's life are
      the names `Handles.Step` deletes. */
  function StepDeletions(h: nat, op: Handles.HandleOp): (calls: seq<GlCall>)
    requires Handles.Permitted(h, op)
    ensures forall g :: multiset(calls)[DeleteVertexArrays(g)] == multiset(Handles.Step(h, op).1)[g]
  {
    match op
    case UseOp => []
    case MovedFromOp => []
    case ReleaseOp => ReleaseCalls(h)
    case MovedIntoOp(_) => ReleaseCalls(h)
  }
}
