/** The ownership discipline shared by the move-only wrappers that hold just
    one object name (`Shader`, `VertexArray`): the name is 0 when nothing is
    held, `Release` (which the destructor calls) deletes a held name and
    zeroes it, a move takes the name and zeroes the source, and a move
    assignment releases the target's own name before taking the source's. */
module Handles {

  /** One thing that can happen to a wrapper object: a method that asserts a
      name is held (`GetId`, `Bind`, `ArrayAttrib`), `Release`, being the
      source of a move, or being assigned to from an object holding `source`. */
  datatype HandleOp = UseOp | ReleaseOp | MovedFromOp | MovedIntoOp(source: nat)

  predicate Permitted(h: nat, op: HandleOp) {
    op.UseOp? ==> h != 0
  }

  /** The names `Release` deletes on an object holding `h`: none when `h` is 0. */
  function Released(h: nat): seq<nat> {
    if h != 0 then [h] else []
  }

  /** The name held afterwards and the names deleted. */
  function Step(h: nat, op: HandleOp): (nat, seq<nat>)
    requires Permitted(h, op)
  {
    match op
    case UseOp => (h, [])
    case ReleaseOp => (0, Released(h))
    case MovedFromOp => (0, [])
    case MovedIntoOp(source) => (source, Released(h))
  }

  predicate Runnable(h: nat, ops: seq<HandleOp>)
    decreases |ops|
  {
    |ops| == 0 || (Permitted(h, ops[0]) && Runnable(Step(h, ops[0]).0, ops[1..]))
  }

  /** The name held after all of `ops` and every name they delete, in order. */
  function Run(h: nat, ops: seq<HandleOp>): (nat, seq<nat>)
    requires Runnable(h, ops)
    decreases |ops|
  {
    if |ops| == 0 then (h, [])
    else
      var (next, deleted) := Step(h, ops[0]);
      var (last, rest) := Run(next, ops[1..]);
      (last, deleted + rest)
  }

  /** No move assignment in `ops` brings in the name `g` (names are unique). */
  predicate ForeignSources(ops: seq<HandleOp>, g: nat)
    decreases |ops|
  {
    |ops| == 0 || ((ops[0].MovedIntoOp? ==> ops[0].source != g) && ForeignSources(ops[1..], g))
  }

  /** Whether the object gives up its name by deleting it rather than by being
      moved from. */
  predicate DeletesOwnHandle(ops: seq<HandleOp>)
    decreases |ops|
  {
    |ops| != 0 && (ops[0].ReleaseOp? || ops[0].MovedIntoOp? || (!ops[0].MovedFromOp? && DeletesOwnHandle(ops[1..])))
  }

  /** An object that does not hold `g` never deletes `g`. */
  lemma {:induction false} ForeignHandleNeverDeleted(h: nat, ops: seq<HandleOp>, g: nat)
    requires g != 0 && h != g
    requires Runnable(h, ops) && ForeignSources(ops, g)
    ensures multiset(Run(h, ops).1)[g] == 0
    decreases |ops|
  {
    if |ops| != 0 {
      var (next, deleted) := Step(h, ops[0]);
      assert multiset(deleted)[g] == 0;
      ForeignHandleNeverDeleted(next, ops[1..], g);
      assert Run(h, ops).1 == deleted + Run(next, ops[1..]).1;
      assert multiset(Run(h, ops).1) == multiset(deleted) + multiset(Run(next, ops[1..]).1);
    }
  }

  /** The held name is deleted exactly once if the object gives it up by
      `Release` (the destructor included) or by being assigned to, and never
      if it is moved from first. */
  lemma {:induction false} OwnHandleDeletedOnce(h: nat, ops: seq<HandleOp>)
    requires h != 0
    requires Runnable(h, ops) && ForeignSources(ops, h)
    ensures multiset(Run(h, ops).1)[h] == if DeletesOwnHandle(ops) then 1 else 0
    decreases |ops|
  {
    if |ops| != 0 {
      var (next, deleted) := Step(h, ops[0]);
      assert Run(h, ops).1 == deleted + Run(next, ops[1..]).1;
      assert multiset(Run(h, ops).1) == multiset(deleted) + multiset(Run(next, ops[1..]).1);
      if ops[0].UseOp? {
        OwnHandleDeletedOnce(next, ops[1..]);
      } else {
        ForeignHandleNeverDeleted(next, ops[1..], h);
      }
    }
  }

  /** Every name an object ever deletes is one it held: the one it started
      with or one a move assignment brought in. */
  lemma {:induction false} DeletesOnlyHeldHandles(h: nat, ops: seq<HandleOp>, g: nat)
    requires Runnable(h, ops)
    requires g in multiset(Run(h, ops).1)
    ensures g != 0
    ensures g == h || exists i :: 0 <= i < |ops| && ops[i] == MovedIntoOp(g)
    decreases |ops|
  {
    var (next, deleted) := Step(h, ops[0]);
    assert Run(h, ops).1 == deleted + Run(next, ops[1..]).1;
    assert multiset(Run(h, ops).1) == multiset(deleted) + multiset(Run(next, ops[1..]).1);
    if g !in multiset(deleted) {
      DeletesOnlyHeldHandles(next, ops[1..], g);
      if g != h && g != next {
        var i :| 0 <= i < |ops[1..]| && ops[1..][i] == MovedIntoOp(g);
        assert ops[i + 1] == MovedIntoOp(g);
      } else if g != h {
        assert ops[0] == MovedIntoOp(g);
      }
    }
  }
}
