/** Exact three-component vectors standing in for the scene graph's Vector3. */
module Vectors {

  datatype Vec3 = Vec3(x: real, y: real, z: real)

  const Zero := Vec3(0.0, 0.0, 0.0)

  /** The camera's up vector; the viewer never changes it. */
  const Up := Vec3(0.0, 1.0, 0.0)

  function Add(a: Vec3, b: Vec3): Vec3 {
    Vec3(a.x + b.x, a.y + b.y, a.z + b.z)
  }

  function Sub(a: Vec3, b: Vec3): Vec3 {
    Vec3(a.x - b.x, a.y - b.y, a.z - b.z)
  }

  function Scale(a: Vec3, k: real): Vec3 {
    Vec3(a.x * k, a.y * k, a.z * k)
  }

  function Dot(a: Vec3, b: Vec3): real {
    a.x * b.x + a.y * b.y + a.z * b.z
  }

  function SqLength(a: Vec3): real {
    Dot(a, a)
  }

  function Cross(a: Vec3, b: Vec3): Vec3 {
    Vec3(a.y * b.z - a.z * b.y, a.z * b.x - a.x * b.z, a.x * b.y - a.y * b.x)
  }

  function Max(a: real, b: real): real {
    if a >= b then a else b
  }

  lemma ScaledLevel(a: Vec3, k: real)
    requires a.y == 0.0
    ensures Scale(a, k).y == 0.0
  {
  }

  lemma ScaledByZero(a: Vec3, k: real)
    requires k == 0.0
    ensures Scale(a, k) == Zero
  {
  }

  /** The position reached from `p` by adding every move of `ms`, first to last. */
  function ApplyAll(p: Vec3, ms: seq<Vec3>): Vec3 {
    if ms == [] then p else Add(ApplyAll(p, ms[..|ms| - 1]), ms[|ms| - 1])
  }

  lemma ApplyOneMore(p: Vec3, ms: seq<Vec3>, m: Vec3)
    ensures ApplyAll(p, ms + [m]) == Add(ApplyAll(p, ms), m)
  {
    assert (ms + [m])[..|ms|] == ms;
  }

  /** Adding the same moves to two points leaves the offset between them unchanged. */
  lemma {:induction false} OffsetUnchanged(from: Vec3, to: Vec3, ms: seq<Vec3>)
    ensures Sub(ApplyAll(to, ms), ApplyAll(from, ms)) == Sub(to, from)
  {
    if ms != [] {
      OffsetUnchanged(from, to, ms[..|ms| - 1]);
    }
  }

  /** Moves that are all level never change the height. */
  lemma {:induction false} LevelMovesKeepHeight(p: Vec3, ms: seq<Vec3>)
    requires forall i | 0 <= i < |ms| :: ms[i].y == 0.0
    ensures ApplyAll(p, ms).y == p.y
  {
    if ms != [] {
      LevelMovesKeepHeight(p, ms[..|ms| - 1]);
    }
  }

  /** Moves that are all the zero vector leave the point where it is. */
  lemma {:induction false} ZeroMovesStay(p: Vec3, ms: seq<Vec3>)
    requires forall i | 0 <= i < |ms| :: ms[i] == Zero
    ensures ApplyAll(p, ms) == p
  {
    if ms != [] {
      ZeroMovesStay(p, ms[..|ms| - 1]);
    }
  }
}
