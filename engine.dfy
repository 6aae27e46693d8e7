/**
 * The parts of the Unity runtime that the animal simulation relies on, restated
 * as values: vectors, Mathf.Clamp and Mathf.Max, the ranges that Random.Range
 * draws from, and a Transform whose position the behaviour states rewrite.
 * Floats are modelled as `real`; no rounding is modelled.
 */
module Engine {

  datatype Option<+T> = None | Some(value: T)

  /** UnityEngine.Vector3 */
  datatype Vec3 = Vec3(x: real, y: real, z: real)

  function Add(a: Vec3, b: Vec3): Vec3 {
    Vec3(a.x + b.x, a.y + b.y, a.z + b.z)
  }

  function Scale(a: Vec3, k: real): Vec3 {
    Vec3(a.x * k, a.y * k, a.z * k)
  }

  /** Mathf.Clamp(value, min, max): tests the lower bound first, then the upper one. */
  function Clamp(value: real, min: real, max: real): (r: real)
    ensures min <= max ==> min <= r <= max
    ensures min <= value <= max ==> r == value
    ensures value < min ==> r == min
  {
    if value < min then min else if value > max then max else value
  }

  /** Mathf.Max on two ints. */
  function MaxInt(a: int, b: int): (r: int)
    ensures r >= a && r >= b
    ensures r == a || r == b
  {
    if a > b then a else b
  }

  /** Mathf.Abs on an int. */
  function AbsInt(a: int): (r: int)
    ensures r >= 0
    ensures r == a || r == -a
  {
    if a < 0 then -a else a
  }

  /** Mathf.Max on two floats. */
  function MaxReal(a: real, b: real): (r: real)
    ensures r >= a && r >= b
    ensures r == a || r == b
  {
    if a > b then a else b
  }

  /**
   * The values Random.Range(lo, hi) on ints may return: lo included, hi
   * excluded, and lo itself when the two are equal. When lo > hi the model
   * allows any value between hi and lo inclusive.
   */
  predicate IntRangeDraw(lo: int, hi: int, d: int) {
    if lo < hi then lo <= d < hi
    else if lo == hi then d == lo
    else hi <= d <= lo
  }

  /** The smallest value IntRangeDraw(lo, hi, _) admits. */
  function LeastDraw(lo: int, hi: int): (m: int)
    ensures IntRangeDraw(lo, hi, m)
    ensures forall d :: IntRangeDraw(lo, hi, d) ==> m <= d
  {
    if lo <= hi then lo else hi
  }

  /** The largest value IntRangeDraw(lo, hi, _) admits. */
  function GreatestDraw(lo: int, hi: int): (m: int)
    ensures IntRangeDraw(lo, hi, m)
    ensures forall d :: IntRangeDraw(lo, hi, d) ==> d <= m
    ensures m <= MaxInt(lo, hi)
  {
    if lo < hi then hi - 1 else lo
  }

  /** The values Random.Range(0f, 1f) may return: both ends included. */
  predicate UnitDraw(c: real) {
    0.0 <= c <= 1.0
  }

  /** UnityEngine.Transform, reduced to its position. */
  class Transform {
    var position: Vec3

    constructor (p: Vec3)
      ensures position == p
    {
      position := p;
    }
  }
}
