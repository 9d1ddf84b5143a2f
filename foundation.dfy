/** The optional value used for engine references that may be missing (no player found,
    no manager in the scene) and for one-shot requests a step may or may not make. */
module Wrappers {
  datatype Option<T> = None | Some(value: T)
}

/** The few pieces of Unity's 2D vector arithmetic that the rules rely on. Distances are
    computed by the engine, so they reach the model as a function supplied by the caller. */
module Geometry {
  datatype Vec2 = Vec2(x: real, y: real)

  const Zero := Vec2(0.0, 0.0)

  /** `Vector2.kEpsilon`: below this magnitude `normalized` yields the zero vector. */
  const Epsilon: real := 0.00001

  /** Engine-supplied `Vector2.Distance(from, to)`, which is also the magnitude of `to - from`. */
  type Distance = (Vec2, Vec2) -> real

  function Sub(a: Vec2, b: Vec2): Vec2 { Vec2(a.x - b.x, a.y - b.y) }

  function Scale(v: Vec2, k: real): Vec2 { Vec2(v.x * k, v.y * k) }

  function Abs(x: real): real { if x < 0.0 then -x else x }

  function Max(a: real, b: real): real { if a < b then b else a }

  /** Unity's `Mathf.Sign`: 1 for zero and positive arguments, -1 for negative ones. */
  function Sign(x: real): (r: real)
    ensures r == 1.0 || r == -1.0
    ensures r == 1.0 <==> x >= 0.0
  {
    if x >= 0.0 then 1.0 else -1.0
  }

  /** `v.normalized` when the engine reports `len` as the magnitude of `v`. */
  function Normalized(v: Vec2, len: real): (r: Vec2)
    ensures len > Epsilon ==> r.x * len == v.x && r.y * len == v.y
    ensures len <= Epsilon ==> r == Zero
  {
    if len > Epsilon then Vec2(v.x / len, v.y / len) else Zero
  }

  /** `(to - from).normalized`, the unit direction the enemies steer along. */
  function Direction(from: Vec2, to: Vec2, distance: Distance): Vec2 {
    Normalized(Sub(to, from), distance(from, to))
  }

  /** The facing an enemy takes from a direction: `Mathf.Sign(direction.x) * initialScale.x`
      points towards the target whenever the target is farther than `Epsilon`. */
  lemma DirectionSign(from: Vec2, to: Vec2, distance: Distance)
    requires distance(from, to) > Epsilon
    ensures Sign(Direction(from, to, distance).x) == Sign(to.x - from.x)
  {
    var d := Direction(from, to, distance);
    var len := distance(from, to);
    assert d.x * len == to.x - from.x;
    if to.x - from.x >= 0.0 {
      assert d.x >= 0.0;
    } else {
      assert d.x < 0.0;
    }
  }
}

/** Delayed one-shot calls: `MonoBehaviour.Invoke(name, delay)`, a coroutine waiting on
    `WaitForSeconds(delay)` and `Destroy(obj, delay)`. Each pending call is the time it still
    has to wait; the simulation driver ages them by the frame's elapsed time. */
module Timers {
  type Pending = seq<real>

  /** The calls still waiting after `dt` more seconds: every call whose delay has not run out,
      aged by `dt`, in the order they were scheduled. */
  function Elapse(ps: Pending, dt: real): (r: Pending)
    ensures |r| <= |ps|
    ensures forall i :: 0 <= i < |r| ==> r[i] > 0.0
    ensures r == [] <==> forall i :: 0 <= i < |ps| ==> ps[i] - dt <= 0.0
  {
    if ps == [] then []
    else (if ps[0] - dt > 0.0 then [ps[0] - dt] else []) + Elapse(ps[1..], dt)
  }

  /** Whether at least one pending call runs on this frame. */
  function Fires(ps: Pending, dt: real): (r: bool)
    ensures r <==> exists i :: 0 <= i < |ps| && ps[i] - dt <= 0.0
  {
    if ps == [] then false
    else ps[0] - dt <= 0.0 || Fires(ps[1..], dt)
  }

  /** A call whose delay has not run out is still pending, aged by `dt`. */
  lemma {:induction false} ElapseKeepsLateCalls(ps: Pending, dt: real, i: nat)
    requires i < |ps| && ps[i] > dt
    ensures ps[i] - dt in Elapse(ps, dt)
  {
    if i > 0 {
      ElapseKeepsLateCalls(ps[1..], dt, i - 1);
    }
  }

  /** A single pending call: it runs on this frame exactly when its delay runs out, and
      otherwise stays pending, aged by `dt`. */
  lemma SinglePending(t: real, dt: real)
    ensures Fires([t], dt) == (t - dt <= 0.0)
    ensures Elapse([t], dt) == if t - dt > 0.0 then [t - dt] else []
  {
    assert [t][1..] == [];
  }

  /** The time covered by frames of `dts` seconds. */
  function TotalTime(dts: seq<real>): real
    decreases |dts|
  {
    if dts == [] then 0.0 else dts[0] + TotalTime(dts[1..])
  }

  /** Every frame takes some time. */
  predicate Positive(dts: seq<real>) {
    forall i :: 0 <= i < |dts| ==> dts[i] > 0.0
  }

  lemma {:induction false} PositiveTotal(dts: seq<real>)
    requires Positive(dts)
    ensures TotalTime(dts) >= 0.0
    decreases |dts|
  {
    if dts != [] {
      PositiveTotal(dts[1..]);
    }
  }
}
