/** The GPU buffer wrapper (`nx::graphics::Buffer`): it owns one buffer name,
    0 when released, and tracks the usage hint, the target and the size in
    bytes it was created with. */
module Buffers {
  import opened Errors
  import Outcomes
  import opened Native
  import Log

  /** 2^64: `size_t` arithmetic wraps modulo this value. */
  const SIZE_LIMIT: nat := 0x1_0000_0000_0000_0000

  /** `size_t`. */
  type Size = n: nat | n < 0x1_0000_0000_0000_0000

  /** `Buffer::ErrorCode`, stored in one byte. */
  datatype ErrorCode = Ok | FailedToGenerateBuffer {
    function Code(): (c: uint8)
      ensures c == 0 <==> this == Ok
    {
      match this
      case Ok => 0
      case FailedToGenerateBuffer => 1
    }
  }

  /** `Buffer::Usage`, the write-pattern hint passed to `glBufferData`. */
  datatype Usage =
    | None | StreamDraw | StreamRead | StreamCopy | StaticDraw | StaticRead | StaticCopy
    | DynamicDraw | DynamicRead | DynamicCopy
  {
    /** The `GLenum` value; only `kNone` is 0. */
    function Value(): (v: nat)
      ensures v == 0 <==> this.None?
    {
      match this
      case None => 0
      case StreamDraw => 0x88E0
      case StreamRead => 0x88E1
      case StreamCopy => 0x88E2
      case StaticDraw => 0x88E4
      case StaticRead => 0x88E5
      case StaticCopy => 0x88E6
      case DynamicDraw => 0x88E8
      case DynamicRead => 0x88E9
      case DynamicCopy => 0x88EA
    }
  }

  /** `Buffer::Target`, the binding point kind. */
  datatype Target = None | ArrayBuffer | ElementArrayBuffer | UniformBuffer {
    /** The `GLenum` value; only `kNone` is 0, and `kArrayBuffer` is the
        target vertex attribute pointers read from. */
    function Value(): (v: nat)
      ensures v == 0 <==> this.None?
      ensures v == ARRAY_BUFFER <==> this == ArrayBuffer
    {
      match this
      case None => 0
      case ArrayBuffer => 0x8892
      case ElementArrayBuffer => 0x8893
      case UniformBuffer => 0x8A11
    }
  }

  /** The four fields of a `Buffer`. */
  datatype BufferState = BufferState(id: nat, usage: Usage, target: Target, size: Size) {
    /** Without a handle, a buffer is in the released state. */
    predicate WellFormed() {
      id == 0 ==> this == Released
    }
  }

  /** (0, `kNone`, `kNone`, 0): what `Release` and the moves leave behind. */
  const Released: BufferState := BufferState(0, Usage.None, Target.None, 0)

  // The native calls each operation issues, as a function of the fields.

  function BindCalls(s: BufferState): seq<GlCall> {
    [BindBuffer(s.target.Value(), s.id)]
  }

  function UnbindCalls(s: BufferState): seq<GlCall> {
    [BindBuffer(s.target.Value(), 0)]
  }

  /** Bind, write the whole store, unbind. */
  function SetDataCalls(s: BufferState, size: Size, initialised: bool): seq<GlCall> {
    BindCalls(s) + [BufferData(s.target.Value(), size, initialised, s.usage.Value())] + UnbindCalls(s)
  }

  /** Whether a write of `size` bytes at `offset` stays within a store of
      `capacity` bytes, computed without overflow. */
  function SubDataFits(offset: Size, size: Size, capacity: Size): (b: bool)
    ensures b <==> offset + size <= capacity
  {
    offset <= capacity && size <= capacity - offset
  }

  /** The guard of `SetSubData` as written: `offset + size > size_` in
      `size_t`, where the sum wraps modulo 2^64. It agrees with the intended
      check whenever the sum does not wrap. */
  function SubDataRejectedAsWritten(offset: Size, size: Size, capacity: Size): (rejected: bool)
    ensures offset + size < SIZE_LIMIT ==> (rejected <==> !SubDataFits(offset, size, capacity))
  {
    (offset + size) % SIZE_LIMIT > capacity
  }

  /** A write that runs past the end of a 16-byte store, whose end position
      wraps around to 4, passes the guard as written. */
  lemma SubDataGuardWrapsAround()
    ensures !SubDataFits(8, SIZE_LIMIT - 4, 16)
    ensures !SubDataRejectedAsWritten(8, SIZE_LIMIT - 4, 16)
  {
  }

  /** Every pair whose `size_t` sum wraps has a part of at least 2^63, which
      `glBufferSubData` receives as a negative `GLintptr` or `GLsizeiptr`. So
      the call the wrapped guard lets through is refused by the driver
      rather than writing; the defect is that a call is issued at all. */
  lemma WrappingPairHasNegativePart(offset: Size, size: Size)
    requires offset + size >= SIZE_LIMIT
    ensures offset >= SIZE_LIMIT / 2 || size >= SIZE_LIMIT / 2
  {
  }

  /** Bind, write the range, unbind; nothing at all when it does not fit. */
  function SetSubDataCalls(s: BufferState, offset: Size, size: Size): seq<GlCall> {
    if SubDataFits(offset, size, s.size) then
      BindCalls(s) + [BufferSubData(s.target.Value(), offset, size)] + UnbindCalls(s)
    else
      []
  }

  /** Bind the first `size` bytes to an indexed point; nothing when `size`
      exceeds the tracked size. */
  function BindRangeCalls(s: BufferState, index: nat, size: Size): seq<GlCall> {
    if size <= s.size then [BindBufferRange(s.target.Value(), index, s.id, 0, size)] else []
  }

  function BindBaseCalls(s: BufferState, index: nat): seq<GlCall> {
    [BindBufferBase(s.target.Value(), index, s.id)]
  }

  /** Delete the handle, if there is one. */
  function ReleaseCalls(s: BufferState): seq<GlCall> {
    if s.id != 0 then [DeleteBuffers(s.id)] else []
  }

  class Buffer {
    var id: nat
    var usage: Usage
    var target: Target
    var size: Size

    function State(): BufferState
      reads this
    {
      BufferState(id, usage, target, size)
    }

    /** A buffer is well formed and the driver still knows its handle. */
    ghost predicate Valid(gl: Gl)
      reads this, gl
    {
      State().WellFormed() && (id != 0 ==> id in gl.state.buffers)
    }

    /** The private constructor through which `Create` hands over a handle. */
    constructor Adopt(id: nat, usage: Usage, target: Target, size: Size)
      requires id != 0
      ensures State() == BufferState(id, usage, target, size)
    {
      this.id := id;
      this.usage := usage;
      this.target := target;
      this.size := size;
    }

    /** The move constructor: takes all four fields and leaves `other` released. */
    constructor Move(other: Buffer)
      modifies other
      ensures State() == old(other.State())
      ensures other.State() == Released
    {
      id, usage, target, size := other.id, other.usage, other.target, other.size;
      new;
      other.id, other.usage, other.target, other.size := 0, Usage.None, Target.None, 0;
    }

    /** `Buffer::Create`: when the driver yields no name, an error and nothing
        allocated; otherwise a buffer holding the fresh name and the given
        usage, target and size, whose store has been set by `SetData`. */
    static method Create(gl: Gl, log: Log.LoggerSubsystem, usage: Usage, target: Target, size: Size,
                         initialised: bool, allocates: bool)
        returns (r: Outcomes.Outcome<Buffer, Error>)
      requires gl.Valid()
      requires allocates ==> log.Ready()
      modifies gl
      ensures gl.Valid()
      ensures r.IsOk() <==> allocates
      ensures r.IsError() ==> r.GetError() == CreateError(ErrorCode.FailedToGenerateBuffer.Code())
      ensures r.IsError() ==> gl.state == old(gl.state) && gl.trace == old(gl.trace) + [GenBuffers(0)]
      ensures r.IsOk() ==>
        var b := r.GetValue();
        && fresh(b) && b.Valid(gl)
        && b.id != 0 && b.id !in old(gl.state.buffers)
        && b.State() == BufferState(b.id, usage, target, size)
        && gl.state == old(gl.state).(buffers := old(gl.state.buffers) + {b.id}).WithBufferBound(target.Value(), 0)
        && gl.trace == old(gl.trace) + [GenBuffers(b.id)] + SetDataCalls(b.State(), size, initialised)
    {
      var name := gl.GenBuffers(allocates);
      if name == 0 {
        r := Outcomes.Err(CreateError(ErrorCode.FailedToGenerateBuffer.Code()));
        return;
      }
      log.Emit(Log.DebugLevel);
      var buffer := new Buffer.Adopt(name, usage, target, size);
      buffer.SetData(gl, size, initialised);
      r := Outcomes.Ok(buffer);
    }

    /** `Buffer::SetData`: binds, uploads `size` bytes, unbinds. The tracked
        size is left as it is, and afterwards the target is unbound. */
    method SetData(gl: Gl, size: Size, initialised: bool)
      requires gl.Valid() && Valid(gl) && id != 0
      modifies gl
      ensures gl.Valid() && gl.nextName == old(gl.nextName)
      ensures gl.state == old(gl.state).WithBufferBound(target.Value(), 0)
      ensures gl.trace == old(gl.trace) + SetDataCalls(State(), size, initialised)
    {
      Bind(gl);
      gl.BufferData(target.Value(), size, initialised, usage.Value());
      Unbind(gl);
    }

    /** `Buffer::SetSubData`: a write that does not fit the tracked size is a
        no-op (a warning only); otherwise bind, write, unbind. The guard is
        the overflow-free `SubDataFits`, not the wrapping sum of
        `SubDataRejectedAsWritten`. */
    method SetSubData(gl: Gl, log: Log.LoggerSubsystem, offset: Size, size: Size)
      requires gl.Valid() && Valid(gl) && id != 0
      requires !SubDataFits(offset, size, this.size) ==> log.Ready()
      modifies gl
      ensures gl.Valid() && gl.nextName == old(gl.nextName)
      ensures gl.trace == old(gl.trace) + SetSubDataCalls(State(), offset, size)
      ensures gl.state == if SubDataFits(offset, size, this.size) then old(gl.state).WithBufferBound(target.Value(), 0)
                          else old(gl.state)
    {
      if !SubDataFits(offset, size, this.size) {
        log.Emit(Log.WarnLevel);
        return;
      }
      Bind(gl);
      gl.BufferSubData(target.Value(), offset, size);
      Unbind(gl);
    }

    /** `Buffer::Bind`. */
    method Bind(gl: Gl)
      requires gl.Valid() && Valid(gl) && id != 0
      modifies gl
      ensures gl.Valid() && gl.nextName == old(gl.nextName)
      ensures gl.state == old(gl.state).WithBufferBound(target.Value(), id)
      ensures gl.trace == old(gl.trace) + BindCalls(State())
    {
      gl.BindBuffer(target.Value(), id);
    }

    /** `Buffer::BindRange`: binds bytes [0, size) to the indexed point, or
        does nothing (a warning only) when `size` exceeds the tracked size. */
    method BindRange(gl: Gl, log: Log.LoggerSubsystem, index: nat, size: Size)
      requires gl.Valid() && Valid(gl) && id != 0
      requires size > this.size ==> log.Ready()
      modifies gl
      ensures gl.Valid() && gl.nextName == old(gl.nextName)
      ensures gl.trace == old(gl.trace) + BindRangeCalls(State(), index, size)
      ensures gl.state == if size <= this.size then old(gl.state).WithIndexedBinding(target.Value(), index, BufferRange(id, 0, size))
                          else old(gl.state)
    {
      if size > this.size {
        log.Emit(Log.WarnLevel);
        return;
      }
      gl.BindBufferRange(target.Value(), index, id, 0, size);
    }

    /** `Buffer::BindBase`: binds the whole buffer to the indexed point. */
    method BindBase(gl: Gl, index: nat)
      requires gl.Valid() && Valid(gl) && id != 0
      modifies gl
      ensures gl.Valid() && gl.nextName == old(gl.nextName)
      ensures gl.state == old(gl.state).WithIndexedBinding(target.Value(), index, WholeBuffer(id))
      ensures gl.trace == old(gl.trace) + BindBaseCalls(State(), index)
    {
      gl.BindBufferBase(target.Value(), index, id);
    }

    /** `Buffer::Unbind`: clears the target's binding, whatever it was bound to. */
    method Unbind(gl: Gl)
      requires gl.Valid() && Valid(gl) && id != 0
      modifies gl
      ensures gl.Valid() && gl.nextName == old(gl.nextName)
      ensures gl.state == old(gl.state).WithBufferBound(target.Value(), 0)
      ensures gl.trace == old(gl.trace) + UnbindCalls(State())
    {
      gl.BindBuffer(target.Value(), 0);
    }

    /** `Buffer::Release` (also what the destructor does): deletes a held
        handle once and resets all four fields; on a released buffer it does
        nothing. */
    method Release(gl: Gl, log: Log.LoggerSubsystem)
      requires gl.Valid() && Valid(gl)
      requires id != 0 ==> log.Ready()
      modifies this, gl
      ensures gl.Valid() && gl.nextName == old(gl.nextName)
      ensures State() == Released && Valid(gl)
      ensures gl.trace == old(gl.trace) + ReleaseCalls(old(State()))
      ensures gl.state == if old(id) != 0 then old(gl.state).WithoutBuffer(old(id)) else old(gl.state)
    {
      if id != 0 {
        log.Emit(Log.DebugLevel);
        gl.DeleteBuffers(id);
        id := 0;
        size := 0;
        usage := Usage.None;
        target := Target.None;
      }
    }

    /** Move assignment: a no-op on itself; otherwise releases its own handle,
        then swaps fields with `other`, which is left released. `other` must
        not hold the same handle (the type is move-only). */
    method MoveAssign(other: Buffer, gl: Gl, log: Log.LoggerSubsystem)
      requires gl.Valid() && Valid(gl) && other.Valid(gl)
      requires other != this && id != 0 ==> id != other.id && log.Ready()
      modifies this, other, gl
      ensures gl.Valid() && gl.nextName == old(gl.nextName)
      ensures Valid(gl) && other.Valid(gl)
      ensures other == this ==> State() == old(State()) && gl.state == old(gl.state) && gl.trace == old(gl.trace)
      ensures other != this ==> State() == old(other.State()) && other.State() == Released
      ensures other != this ==> gl.trace == old(gl.trace) + ReleaseCalls(old(State()))
      ensures other != this ==> gl.state == if old(id) != 0 then old(gl.state).WithoutBuffer(old(id)) else old(gl.state)
    {
      if other != this {
        Release(gl, log);
        id, other.id := other.id, id;
        size, other.size := other.size, size;
        usage, other.usage := other.usage, usage;
        target, other.target := other.target, target;
      }
    }
  }

  // The life of one buffer object as a sequence of operations on it. `Step`
  // is defined from the same call functions the methods above are specified
  // with.

  /** One thing that can happen to a buffer object after it is created: one of
      its methods, being the source of a move, or being the target of a move
      assignment from a buffer in state `source`. */
  datatype BufferOp =
    | SetDataOp(size: Size, initialised: bool)
    | SetSubDataOp(offset: Size, size: Size)
    | BindOp
    | BindRangeOp(index: nat, size: Size)
    | BindBaseOp(index: nat)
    | UnbindOp
    | ReleaseOp
    | MovedFromOp
    | MovedIntoOp(source: BufferState)

  /** Everything but `Release` and the moves asserts that a handle is held. */
  predicate Permitted(s: BufferState, op: BufferOp) {
    match op
    case ReleaseOp => true
    case MovedFromOp => true
    case MovedIntoOp(source) => source.WellFormed()
    case _ => s.id != 0
  }

  /** The fields afterwards and the native calls issued. */
  function Step(s: BufferState, op: BufferOp): (BufferState, seq<GlCall>)
    requires Permitted(s, op)
  {
    match op
    case SetDataOp(size, initialised) => (s, SetDataCalls(s, size, initialised))
    case SetSubDataOp(offset, size) => (s, SetSubDataCalls(s, offset, size))
    case BindOp => (s, BindCalls(s))
    case BindRangeOp(index, size) => (s, BindRangeCalls(s, index, size))
    case BindBaseOp(index) => (s, BindBaseCalls(s, index))
    case UnbindOp => (s, UnbindCalls(s))
    case ReleaseOp => (Released, ReleaseCalls(s))
    case MovedFromOp => (Released, [])
    case MovedIntoOp(source) => (source, ReleaseCalls(s))
  }

  predicate Runnable(s: BufferState, ops: seq<BufferOp>)
    decreases |ops|
  {
    |ops| == 0 || (Permitted(s, ops[0]) && Runnable(Step(s, ops[0]).0, ops[1..]))
  }

  /** The fields after all of `ops` and every native call they issue. */
  function Run(s: BufferState, ops: seq<BufferOp>): (BufferState, seq<GlCall>)
    requires Runnable(s, ops)
    decreases |ops|
  {
    if |ops| == 0 then (s, [])
    else
      var (next, calls) := Step(s, ops[0]);
      var (last, rest) := Run(next, ops[1..]);
      (last, calls + rest)
  }

  /** No move assignment in `ops` brings in the handle `h` (handles are unique). */
  predicate ForeignSources(ops: seq<BufferOp>, h: nat)
    decreases |ops|
  {
    |ops| == 0 || ((ops[0].MovedIntoOp? ==> ops[0].source.id != h) && ForeignSources(ops[1..], h))
  }

  /** Whether the object gives up its handle by deleting it (`Release`, or
      being assigned to) rather than by being moved from. */
  predicate DeletesOwnHandle(ops: seq<BufferOp>)
    decreases |ops|
  {
    |ops| != 0 && (ops[0].ReleaseOp? || ops[0].MovedIntoOp? || (!ops[0].MovedFromOp? && DeletesOwnHandle(ops[1..])))
  }

  /** How many times `calls` deletes buffer `h`. */
  function Deletions(calls: seq<GlCall>, h: nat): nat {
    multiset(calls)[DeleteBuffers(h)]
  }

  /** An object that does not hold `h` never deletes `h`, whatever happens to it. */
  lemma {:induction false} ForeignHandleNeverDeleted(s: BufferState, ops: seq<BufferOp>, h: nat)
    requires h != 0 && s.id != h
    requires Runnable(s, ops) && ForeignSources(ops, h)
    ensures Deletions(Run(s, ops).1, h) == 0
    decreases |ops|
  {
    if |ops| != 0 {
      var (next, calls) := Step(s, ops[0]);
      assert Deletions(calls, h) == 0;
      ForeignHandleNeverDeleted(next, ops[1..], h);
      assert Run(s, ops).1 == calls + Run(next, ops[1..]).1;
      assert multiset(Run(s, ops).1) == multiset(calls) + multiset(Run(next, ops[1..]).1);
    }
  }

  /** Over any life of an object holding handle `s.id`, the handle is deleted
      at most once: exactly once when the object gives it up by `Release`
      (the destructor included) or by being assigned to, never when it is
      moved from first. */
  lemma {:induction false} OwnHandleDeletedOnce(s: BufferState, ops: seq<BufferOp>)
    requires s.id != 0
    requires Runnable(s, ops) && ForeignSources(ops, s.id)
    ensures Deletions(Run(s, ops).1, s.id) == if DeletesOwnHandle(ops) then 1 else 0
    decreases |ops|
  {
    if |ops| != 0 {
      var (next, calls) := Step(s, ops[0]);
      assert Run(s, ops).1 == calls + Run(next, ops[1..]).1;
      assert multiset(Run(s, ops).1) == multiset(calls) + multiset(Run(next, ops[1..]).1);
      match ops[0]
      case ReleaseOp =>
        ForeignHandleNeverDeleted(next, ops[1..], s.id);
      case MovedFromOp =>
        ForeignHandleNeverDeleted(next, ops[1..], s.id);
      case MovedIntoOp(source) =>
        ForeignHandleNeverDeleted(next, ops[1..], s.id);
      case _ =>
        assert Deletions(calls, s.id) == 0;
        OwnHandleDeletedOnce(next, ops[1..]);
    }
  }
}
