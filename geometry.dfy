/**
  The Unity.Mathematics values the fractals move around, as uninterpreted
  terms: a vector, quaternion or matrix is the expression that built it.
  Two terms are equal only when they are built the same way, so a
  property proved here holds whatever the float arithmetic does.

  Also what both fractal scripts share: level `l` of the tree has 5^l
  parts in one native array, the parent of part `i` is part `i / 5` of the
  level above, part `i` below the root is child kind `i % 5` with one of
  five fixed rotations, each level is drawn at half the scale of the one
  above, and every part spins by the same angle per frame.
 */
module Geometry {
  import Word

  /** A `float3`: the five directions, the zero vector and the operations the scripts apply. */
  datatype Vector =
    | Zero
    | Up
    | Right
    | Left
    | Forward
    | Back
    | Sum(a: Vector, b: Vector)
    | Scaled(k: real, v: Vector)
    | Rotated(q: Rotation, v: Vector)
    | Cross(a: Vector, b: Vector)

  /**
    A `quaternion`. `ZeroQuaternion` is the all-zero default value of the
    struct, which is what a new part holds before its first update.
   */
  datatype Rotation =
    | ZeroQuaternion
    | Identity
    | RotateX(angle: real)
    | RotateY(angle: real)
    | RotateZ(angle: real)
    | Compose(a: Rotation, b: Rotation)
    | AxisAngle(axis: Vector, angle: real)

  /**
    A `float3x4`: the columns of the rotation matrix times a scale, then the
    position. `ZeroMatrix` is the cleared value of a new native array.
   */
  datatype Matrix =
    | ZeroMatrix
    | Transform(rotation: Rotation, scale: real, position: Vector)

  /** `PI` of Unity.Mathematics, in single precision. */
  const Pi: real := 3.1415927410125732

  /** `0.5f * PI`, the quarter turn of the child rotations. */
  const HalfPi: real := 1.5707963705062866

  /** The number of parts in level `level`: 5^level. */
  function Pow5(level: nat): (r: nat)
    ensures r >= 1
  {
    if level == 0 then 1 else 5 * Pow5(level - 1)
  }

  /** The parent `i / 5` of part `i` in level `level >= 1` lies in the level above. */
  lemma ParentInBounds(level: nat, i: nat)
    requires 1 <= level && i < Pow5(level)
    ensures i / 5 < Pow5(level - 1)
  {
    assert Pow5(level) == 5 * Pow5(level - 1);
  }

  /**
    Every part `p` of the level above has exactly five children, the parts
    5p to 5p + 4, with child kinds 0 to 4 in that order.
   */
  lemma ChildrenOf(level: nat, p: nat, c: nat)
    requires 1 <= level && p < Pow5(level - 1) && c < 5
    ensures 5 * p + c < Pow5(level)
    ensures (5 * p + c) / 5 == p && (5 * p + c) % 5 == c
  {
    assert Pow5(level) == 5 * Pow5(level - 1);
  }

  /** The scale a level is drawn at: the object's scale halved once per level. */
  function ScaleAt(objectScale: real, level: nat): real
  {
    if level == 0 then objectScale else ScaleAt(objectScale, level - 1) * 0.5
  }

  /** Halving `level` times is dividing by 2^level. */
  lemma {:induction false} ScaleHalved(objectScale: real, level: nat)
    ensures ScaleAt(objectScale, level) * Word.Pow2(level) as real == objectScale
    decreases level
  {
    if level > 0 {
      ScaleHalved(objectScale, level - 1);
      assert Word.Pow2(level) as real == 2.0 * Word.Pow2(level - 1) as real;
    }
  }

  /** The contents of an array of native arrays, level by level. */
  ghost function Contents<T>(arrays: seq<array<T>>): (r: seq<seq<T>>)
    reads set l | 0 <= l < |arrays| :: arrays[l]
    ensures |r| == |arrays| && forall l :: 0 <= l < |arrays| ==> r[l] == arrays[l][..]
  {
    seq(|arrays|, l requires 0 <= l < |arrays| reads set m | 0 <= m < |arrays| :: arrays[m] => arrays[l][..])
  }

  // ---------------------------------------------------------------------
  // What both fractal scripts share

  /** No turn, a quarter turn either way about Z, a quarter turn either way about X. */
  const Rotations: seq<Rotation> :=
    [Identity, RotateZ(-HalfPi), RotateZ(HalfPi), RotateX(HalfPi), RotateX(-HalfPi)]

  /** The child kind OnEnable gives part `index` of level `level`. */
  function ChildKind(level: nat, index: nat): (kind: nat)
    ensures kind < 5
    ensures level == 0 ==> kind == 0
    ensures level > 0 ==> index == 5 * (index / 5) + kind
  {
    if level == 0 then 0 else index % 5
  }

  /** `0.125f * PI * Time.deltaTime`. */
  function SpinDelta(deltaTime: real): real
  {
    0.125 * Pi * deltaTime
  }

  /** The arrays of a build: at least one level, level `l` 5^l long, no array shared. */
  ghost predicate Built<P>(parts: seq<array<P>>, matrices: seq<array<Matrix>>)
  {
    |parts| == |matrices| >= 1 &&
    (forall l {:trigger parts[l]} {:trigger matrices[l]} :: 0 <= l < |parts| ==> parts[l].Length == Pow5(l) && matrices[l].Length == Pow5(l)) &&
    (forall a, b :: 0 <= a < b < |parts| ==> parts[a] != parts[b] && matrices[a] != matrices[b])
  }

  /** Level `l` has 5^l parts. */
  ghost predicate Shaped<P>(levels: seq<seq<P>>)
  {
    forall l {:trigger levels[l]} :: 0 <= l < |levels| ==> |levels[l]| == Pow5(l)
  }

  /** The matrices of a level at a scale, each part drawn by `draw`. */
  function LevelMatrices<P>(level: seq<P>, scale: real, draw: (P, real) -> Matrix): (r: seq<Matrix>)
    ensures |r| == |level|
  {
    seq(|level|, i requires 0 <= i < |level| => draw(level[i], scale))
  }

  /** All matrices of a frame: level `k` at the object's scale halved `k` times. */
  function FrameMatrices<P>(levels: seq<seq<P>>, objectScale: real, draw: (P, real) -> Matrix): (r: seq<seq<Matrix>>)
    ensures |r| == |levels|
  {
    seq(|levels|, k requires 0 <= k < |levels| => LevelMatrices(levels[k], ScaleAt(objectScale, k), draw))
  }

  /** Every array of a build, parts and matrices. */
  ghost function Footprint<P>(parts: seq<array<P>>, matrices: seq<array<Matrix>>): set<object>
  {
    (set l | 0 <= l < |parts| :: parts[l] as object) + (set l | 0 <= l < |matrices| :: matrices[l] as object)
  }

  /**
    `depth` fresh native arrays, level `l` of length 5^l, every entry the
    cleared value.
   */
  method NewLevels<T>(depth: nat, cleared: T) returns (arrays: seq<array<T>>)
    ensures |arrays| == depth
    ensures forall l {:trigger arrays[l]} :: 0 <= l < depth ==> fresh(arrays[l]) && arrays[l].Length == Pow5(l)
    ensures forall a, b :: 0 <= a < b < depth ==> arrays[a] != arrays[b]
    ensures forall l, j :: 0 <= l < depth && 0 <= j < arrays[l].Length ==> arrays[l][j] == cleared
  {
    arrays := [];
    var i, length := 0, 1;
    while i < depth
      invariant 0 <= i <= depth && length == Pow5(i) && |arrays| == i
      invariant forall l {:trigger arrays[l]} :: 0 <= l < i ==> fresh(arrays[l]) && arrays[l].Length == Pow5(l)
      invariant forall a, b :: 0 <= a < b < i ==> arrays[a] != arrays[b]
      invariant forall l, j :: 0 <= l < i && 0 <= j < arrays[l].Length ==> arrays[l][j] == cleared
    {
      var level := new T[length](_ => cleared);
      arrays := arrays + [level];
      i, length := i + 1, length * 5;
    }
  }

  /**
    The allocation loop of OnEnable: `depth` fresh part arrays and `depth`
    fresh matrix arrays, level `l` of length 5^l, every entry cleared.
   */
  method AllocateLevels<P>(depth: nat, cleared: P) returns (ps: seq<array<P>>, ms: seq<array<Matrix>>)
    ensures |ps| == depth && |ms| == depth
    ensures forall l :: 0 <= l < depth ==> fresh(ps[l]) && fresh(ms[l])
    ensures forall l {:trigger ps[l]} {:trigger ms[l]} :: 0 <= l < depth ==> ps[l].Length == Pow5(l) && ms[l].Length == Pow5(l)
    ensures forall a, b :: 0 <= a < b < depth ==> ps[a] != ps[b] && ms[a] != ms[b]
    ensures forall l, j :: 0 <= l < depth && 0 <= j < ps[l].Length ==> ps[l][j] == cleared
    ensures forall l, j :: 0 <= l < depth && 0 <= j < ms[l].Length ==> ms[l][j] == ZeroMatrix
  {
    ps := NewLevels(depth, cleared);
    ms := NewLevels(depth, ZeroMatrix);
  }
}
