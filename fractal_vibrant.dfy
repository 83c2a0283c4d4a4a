/**
  The vibrant fractal: the same five-way tree of native arrays as the
  plain fractal, with three differences. Each part sags: its base rotation
  is tilted about the horizontal axis its up direction leans along, by
  its own maximum sag angle times how far it leans. Each part sits 1.5
  level scales above its parent along its own world up direction. The last
  level is drawn as leaves, the others with a gradient by level.

  The build target decides the depth range and the keys: the standalone
  build clamps the depth to [3, 9] with the arrow keys, and the Android
  build cycles it through [3, 6] with a double tap.

  `Random.Range` and `Random.value` are parameters: `sag(l, j)` is the
  angle in degrees drawn for part `j` of level `l`, and `draws(l)` is the
  four random values of level `l`'s sequence numbers. The length of a
  vector is the parameter `norm`.
 */
module FractalVibrant {
  import opened Geometry

  /** The two build targets the script compiles for. */
  datatype Platform = Standalone | Android

  const MinDepth := 3

  /** `maxDepth` of the build: 9 standalone, 6 on Android. */
  function MaxDepth(platform: Platform): int
  {
    if platform == Standalone then 9 else 6
  }

  datatype FractalPart = FractalPart(
    worldPosition: Vector,
    rotation: Rotation,
    worldRotation: Rotation,
    maxSagAngle: real,
    spinAngle: real)

  /** The all-zero part of a cleared native array. */
  const ClearedPart := FractalPart(Zero, ZeroQuaternion, ZeroQuaternion, 0.0, 0.0)

  /** The four random values a level passes to the shader. */
  datatype SequenceNumber = SequenceNumber(x: real, y: real, z: real, w: real)

  /** Unity.Mathematics `radians`: degrees times 0.0174532925. */
  function Radians(degrees: real): real
  {
    degrees * 0.0174532925
  }

  /** `CreatePart(childIndex)`, given the degrees `Random.Range` drew: the kind's rotation and the sag angle. */
  function CreatePart(childIndex: nat, sagDegrees: real): FractalPart
    requires childIndex < 5
  {
    ClearedPart.(maxSagAngle := Radians(sagDegrees), rotation := Rotations[childIndex])
  }

  /** A part's maximum sag angle lies between the two inspector angles when the drawn degrees do. */
  lemma SagAngleInRange(childIndex: nat, sagDegrees: real, angleA: real, angleB: real)
    requires childIndex < 5 && angleA <= sagDegrees <= angleB
    ensures Radians(angleA) <= CreatePart(childIndex, sagDegrees).maxSagAngle <= Radians(angleB)
    ensures CreatePart(childIndex, sagDegrees).rotation == Rotations[childIndex]
  {
  }

  /** The levels OnEnable builds for `depth` from the drawn angles. */
  ghost predicate IsLayout(levels: seq<seq<FractalPart>>, depth: nat, sag: (nat, nat) -> real)
  {
    |levels| == depth &&
    forall l {:trigger levels[l]} :: 0 <= l < depth ==>
      |levels[l]| == Pow5(l) &&
      forall j :: 0 <= j < |levels[l]| ==> levels[l][j] == CreatePart(ChildKind(l, j), sag(l, j))
  }


  /**
    In the layout, the five children 5p to 5p + 4 of part p have the five
    rotations in order, and the root has the identity rotation.
   */
  lemma LayoutChildren(levels: seq<seq<FractalPart>>, depth: nat, sag: (nat, nat) -> real, l: nat, p: nat, c: nat)
    requires IsLayout(levels, depth, sag) && 1 <= l < depth && p < Pow5(l - 1) && c < 5
    ensures 5 * p + c < |levels[l]|
    ensures levels[l][5 * p + c].rotation == Rotations[c]
    ensures levels[l][5 * p + c].maxSagAngle == Radians(sag(l, 5 * p + c))
    ensures levels[0][0].rotation == Identity
  {
    ChildrenOf(l, p, c);
  }

  /** The sequence numbers OnEnable draws: one per level. */
  function Drawn(depth: nat, draws: nat -> SequenceNumber): (r: seq<SequenceNumber>)
    ensures |r| == depth
  {
    seq(depth, l requires 0 <= l < depth => draws(l))
  }

  // ---------------------------------------------------------------------
  // One frame, as functions of the levels before it

  /** The root's update: one spin step under the object's rotation; its position is never written. */
  function RootStep(root: FractalPart, transformRotation: Rotation, delta: real): FractalPart
  {
    var spin := root.spinAngle + delta;
    root.(spinAngle := spin,
          worldRotation := Compose(transformRotation, Compose(root.rotation, RotateY(spin))))
  }

  /** The axis the part would sag about: up crossed with the part's up direction under its parent. */
  function SagAxis(part: FractalPart, parent: FractalPart): Vector
  {
    Cross(Up, Rotated(Compose(parent.worldRotation, part.rotation), Up))
  }

  /** The sag itself: about the unit sag axis, by the maximum sag angle times the axis length. */
  function SagRotation(sagAxis: Vector, sagLength: real, maxSagAngle: real): Rotation
    requires sagLength != 0.0
  {
    AxisAngle(Scaled(1.0 / sagLength, sagAxis), maxSagAngle * sagLength)
  }

  /** The rotation the job builds the part's world rotation on: the parent's, sagged when the axis is not zero. */
  function BaseRotation(part: FractalPart, parent: FractalPart, norm: Vector -> real): Rotation
  {
    var sagAxis := SagAxis(part, parent);
    var sagLength := norm(sagAxis);
    if sagLength > 0.0 then Compose(SagRotation(sagAxis, sagLength, part.maxSagAngle), parent.worldRotation)
    else parent.worldRotation
  }

  /** `UpdateFractalLevelJob.Execute` on one part, given its (updated) parent. */
  function ChildStep(part: FractalPart, parent: FractalPart, delta: real, scale: real, norm: Vector -> real)
    : FractalPart
  {
    var spin := part.spinAngle + delta;
    var worldRotation := Compose(BaseRotation(part, parent, norm), Compose(part.rotation, RotateY(spin)));
    part.(spinAngle := spin,
          worldRotation := worldRotation,
          worldPosition := Sum(parent.worldPosition, Rotated(worldRotation, Scaled(1.5 * scale, Up))))
  }

  /** The matrix drawn for a part: its world rotation scaled, then its world position. */
  function PartMatrix(part: FractalPart, scale: real): Matrix
  {
    Transform(part.worldRotation, scale, part.worldPosition)
  }

  /** A whole level after the job, each part from its own old value and its parent. */
  function NewLevel(level: seq<FractalPart>, parents: seq<FractalPart>, delta: real, scale: real,
                    norm: Vector -> real): (r: seq<FractalPart>)
    requires |level| <= 5 * |parents|
    ensures |r| == |level|
  {
    seq(|level|, i requires 0 <= i < |level| => ChildStep(level[i], parents[i / 5], delta, scale, norm))
  }


  /** Level `k` after a frame: the root step, or the job on level `k` under the new level `k - 1`. */
  function Stepped(levels: seq<seq<FractalPart>>, k: nat, transformRotation: Rotation,
                   delta: real, objectScale: real, norm: Vector -> real): (r: seq<FractalPart>)
    requires Shaped(levels) && k < |levels|
    ensures |r| == Pow5(k)
  {
    if k == 0 then [RootStep(levels[0][0], transformRotation, delta)]
    else
      var parents := Stepped(levels, k - 1, transformRotation, delta, objectScale, norm);
      NewLevel(levels[k], parents, delta, ScaleAt(objectScale, k), norm)
  }

  /** All levels after a frame. */
  function Frame(levels: seq<seq<FractalPart>>, transformRotation: Rotation,
                 delta: real, objectScale: real, norm: Vector -> real): (r: seq<seq<FractalPart>>)
    requires Shaped(levels)
    ensures |r| == |levels| && Shaped(r)
  {
    seq(|levels|, k requires 0 <= k < |levels| => Stepped(levels, k, transformRotation, delta, objectScale, norm))
  }


  /** Below the root, level `k` of a frame is the job on the old level `k` under the new level `k - 1`. */
  lemma FrameLevel(levels: seq<seq<FractalPart>>, transformRotation: Rotation,
                   delta: real, objectScale: real, norm: Vector -> real, k: nat)
    requires Shaped(levels) && 1 <= k < |levels|
    ensures var next := Frame(levels, transformRotation, delta, objectScale, norm);
      |levels[k]| <= 5 * |next[k - 1]| &&
      next[k] == NewLevel(levels[k], next[k - 1], delta, ScaleAt(objectScale, k), norm)
  {
    var next := Frame(levels, transformRotation, delta, objectScale, norm);
    var parents := Stepped(levels, k - 1, transformRotation, delta, objectScale, norm);
    assert next[k - 1] == parents;
    assert |levels[k]| == 5 * |parents|;
    assert next[k] == Stepped(levels, k, transformRotation, delta, objectScale, norm);
  }

  /** A frame level by level: the root step on top, and below it each level from the new level above. */
  lemma FrameSteps(levels: seq<seq<FractalPart>>, transformRotation: Rotation, delta: real,
                   objectScale: real, norm: Vector -> real)
    requires Shaped(levels) && |levels| >= 1
    ensures var next := Frame(levels, transformRotation, delta, objectScale, norm);
      next[0] == [RootStep(levels[0][0], transformRotation, delta)] &&
      forall k :: 1 <= k < |levels| ==>
        |levels[k]| <= 5 * |next[k - 1]| &&
        next[k] == NewLevel(levels[k], next[k - 1], delta, ScaleAt(objectScale, k), norm)
  {
    forall k | 1 <= k < |levels|
      ensures var next := Frame(levels, transformRotation, delta, objectScale, norm);
        |levels[k]| <= 5 * |next[k - 1]| &&
        next[k] == NewLevel(levels[k], next[k - 1], delta, ScaleAt(objectScale, k), norm)
    {
      FrameLevel(levels, transformRotation, delta, objectScale, norm, k);
    }
  }

  /**
    A frame advances every part's spin angle by exactly one step and keeps
    its fixed rotation and sag angle; the root also keeps its position.
   */
  lemma FrameAdvancesSpin(levels: seq<seq<FractalPart>>, transformRotation: Rotation,
                          delta: real, objectScale: real, norm: Vector -> real, k: nat, i: nat)
    requires Shaped(levels) && k < |levels| && i < |levels[k]|
    ensures var next := Frame(levels, transformRotation, delta, objectScale, norm)[k][i];
      next.spinAngle == levels[k][i].spinAngle + delta &&
      next.rotation == levels[k][i].rotation &&
      next.maxSagAngle == levels[k][i].maxSagAngle &&
      (k == 0 ==> next.worldPosition == levels[0][0].worldPosition)
  {
    if k > 0 {
      FrameLevel(levels, transformRotation, delta, objectScale, norm, k);
    }
  }

  /** Below the root, a part after a frame is the job on it under its parent after the same frame. */
  lemma FrameFollowsParent(levels: seq<seq<FractalPart>>, transformRotation: Rotation,
                           delta: real, objectScale: real, norm: Vector -> real, k: nat, i: nat)
    requires Shaped(levels) && 1 <= k < |levels| && i < |levels[k]|
    ensures i / 5 < |levels[k - 1]|
    ensures var next := Frame(levels, transformRotation, delta, objectScale, norm);
      next[k][i] == ChildStep(levels[k][i], next[k - 1][i / 5], delta, ScaleAt(objectScale, k), norm)
  {
    ParentInBounds(k, i);
    var next := Frame(levels, transformRotation, delta, objectScale, norm);
    FrameLevel(levels, transformRotation, delta, objectScale, norm, k);
    assert next[k][i] == ChildStep(levels[k][i], next[k - 1][i / 5], delta, ScaleAt(objectScale, k), norm);
  }

  /**
    The job's world rotation is the part's own spin on top of its parent's
    world rotation, tilted by the sag rotation exactly when the sag axis
    has a positive length; the part sits 1.5 scales above its parent along
    its own world up direction.
   */
  lemma ChildSags(part: FractalPart, parent: FractalPart, delta: real, scale: real, norm: Vector -> real)
    ensures var next := ChildStep(part, parent, delta, scale, norm);
      var axis := Cross(Up, Rotated(Compose(parent.worldRotation, part.rotation), Up));
      var own := Compose(part.rotation, RotateY(part.spinAngle + delta));
      (norm(axis) <= 0.0 ==> next.worldRotation == Compose(parent.worldRotation, own)) &&
      (norm(axis) > 0.0 ==>
        next.worldRotation ==
          Compose(Compose(SagRotation(axis, norm(axis), part.maxSagAngle), parent.worldRotation), own)) &&
      next.worldPosition == Sum(parent.worldPosition, Rotated(next.worldRotation, Scaled(1.5 * scale, Up)))
  {
  }

  // ---------------------------------------------------------------------
  // The level job on native arrays

  /** `UpdateFractalLevelJob.Execute(i)`: writes part `i` and matrix `i` and nothing else. */
  method Execute(parents: array<FractalPart>, parts: array<FractalPart>, matrices: array<Matrix>,
                 delta: real, scale: real, norm: Vector -> real, i: int)
    requires parents != parts && parts.Length == matrices.Length && parts.Length <= 5 * parents.Length
    requires 0 <= i < parts.Length
    modifies parts, matrices
    ensures parts[i] == ChildStep(old(parts[i]), parents[i / 5], delta, scale, norm)
    ensures matrices[i] == PartMatrix(parts[i], scale)
    ensures forall k :: 0 <= k < parts.Length && k != i ==> parts[k] == old(parts[k]) && matrices[k] == old(matrices[k])
  {
    var parent := parents[i / 5];
    var part := parts[i];
    part := part.(spinAngle := part.spinAngle + delta);
    var upAxis := Rotated(Compose(parent.worldRotation, part.rotation), Up);
    var sagAxis := Cross(Up, upAxis);
    var sagLength := norm(sagAxis);
    var baseRotation;
    if sagLength > 0.0 {
      baseRotation := Compose(SagRotation(sagAxis, sagLength, part.maxSagAngle), parent.worldRotation);
    } else {
      baseRotation := parent.worldRotation;
    }
    part := part.(worldRotation := Compose(baseRotation, Compose(part.rotation, RotateY(part.spinAngle))));
    part := part.(worldPosition := Sum(parent.worldPosition, Rotated(part.worldRotation, Scaled(1.5 * scale, Up))));
    assert part == ChildStep(old(parts[i]), parent, delta, scale, norm);
    parts[i] := part;
    matrices[i] := Transform(part.worldRotation, scale, part.worldPosition);
  }

  /**
    The parallel-for over a level, one index after another. Each index reads
    only its parent in the read-only level above and writes only its own
    slots, so the order does not matter.
   */
  method RunLevelJob(parents: array<FractalPart>, parts: array<FractalPart>, matrices: array<Matrix>,
                     delta: real, scale: real, norm: Vector -> real)
    requires parents != parts && parts.Length == matrices.Length && parts.Length <= 5 * parents.Length
    modifies parts, matrices
    ensures parts[..] == NewLevel(old(parts[..]), parents[..], delta, scale, norm)
    ensures matrices[..] == LevelMatrices(parts[..], scale, PartMatrix)
  {
    var i := 0;
    while i < parts.Length
      invariant 0 <= i <= parts.Length
      invariant forall k :: 0 <= k < i ==> parts[k] == ChildStep(old(parts[k]), parents[k / 5], delta, scale, norm)
      invariant forall k :: i <= k < parts.Length ==> parts[k] == old(parts[k])
      invariant forall k :: 0 <= k < i ==> matrices[k] == PartMatrix(parts[k], scale)
    {
      Execute(parents, parts, matrices, delta, scale, norm, i);
      i := i + 1;
    }
  }

  // ---------------------------------------------------------------------
  // Drawing

  /** How a level is drawn: leaf mesh and leaf colours, or the main mesh with the gradients at a point. */
  datatype DrawStyle = Leaf | Gradient(interpolate: real)

  /** The style of level `i` of `levelCount`: the last is the leaf level, level `i` before it is at i / (count - 1). */
  function LevelStyle(i: nat, levelCount: nat): (style: DrawStyle)
    requires i < levelCount
    ensures style == Leaf <==> i == levelCount - 1
    ensures style.Gradient? ==> 0.0 <= style.interpolate < 1.0
  {
    if i == levelCount - 1 then Leaf
    else
      var t := i as real / (levelCount as real - 1.0);
      DivideMonotone(i as real, levelCount as real - 1.0, levelCount as real - 1.0);
      Gradient(t)
  }

  /** Lower levels sit further along the gradients. */
  lemma GradientIncreasing(i: nat, j: nat, levelCount: nat)
    requires i < j < levelCount - 1
    ensures LevelStyle(i, levelCount).interpolate < LevelStyle(j, levelCount).interpolate
    ensures LevelStyle(0, levelCount) == Gradient(0.0)
  {
    var d := levelCount as real - 1.0;
    assert 0.0 / d == 0.0;
    assert i as real / d < j as real / d by {
      assert d > 0.0;
      assert i as real < j as real;
      DivideMonotone(i as real, j as real, d);
    }
  }

  /** Dividing by a positive number keeps strict order, and a number by itself is one. */
  lemma DivideMonotone(a: real, b: real, d: real)
    requires a < b && d > 0.0
    ensures a / d < b / d && d / d == 1.0
    ensures 0.0 <= a ==> 0.0 <= a / d
  {
    assert b / d - a / d == (b - a) / d;
  }

  /**
    The draw loop of `Update`: `leafIndex` is the last level, and each level
    gets its mesh and colours.
   */
  method DrawStyles(levelCount: nat) returns (styles: seq<DrawStyle>)
    ensures |styles| == levelCount
    ensures forall i :: 0 <= i < levelCount ==> styles[i] == LevelStyle(i, levelCount)
  {
    var leafIndex := levelCount - 1;
    styles := [];
    var i := 0;
    while i < levelCount
      invariant 0 <= i <= levelCount && |styles| == i
      invariant forall k :: 0 <= k < i ==> styles[k] == LevelStyle(k, levelCount)
    {
      var style;
      if i == leafIndex {
        style := Leaf;
      } else {
        var gradientInterpolate := i as real / (levelCount as real - 1.0);
        style := Gradient(gradientInterpolate);
      }
      styles := styles + [style];
      i := i + 1;
    }
  }

  // ---------------------------------------------------------------------
  // The depth keys

  /** The depth after one frame's input: arrow keys on standalone, a double tap on Android. */
  function DepthAfterKeys(platform: Platform, depth: int, up: bool, down: bool, doubleTap: bool): int
  {
    match platform
    case Standalone =>
      var d := if up then (if depth + 1 < MaxDepth(platform) then depth + 1 else MaxDepth(platform)) else depth;
      if down then (if d - 1 > MinDepth then d - 1 else MinDepth) else d
    case Android =>
      if doubleTap then (if depth + 1 > MaxDepth(platform) then MinDepth else depth + 1) else depth
  }

  /** From any inspector depth, the keys keep the depth in [3, 9] standalone and [3, 6] on Android. */
  lemma DepthKeysInRange(platform: Platform, depth: int, up: bool, down: bool, doubleTap: bool)
    requires MinDepth <= depth <= MaxDepth(platform)
    ensures MinDepth <= DepthAfterKeys(platform, depth, up, down, doubleTap) <= MaxDepth(platform)
  {
  }

  /** On Android a double tap adds one level, except that from six it wraps back to three. */
  lemma DoubleTapWraps(depth: int)
    requires MinDepth <= depth <= MaxDepth(Android)
    ensures DepthAfterKeys(Android, depth, false, false, true) == if depth == 6 then 3 else depth + 1
  {
  }

  /** Four double taps go once round the cycle 3, 4, 5, 6 and come back to the start. */
  lemma {:induction false} DoubleTapCycle(depth: int)
    requires MinDepth <= depth <= MaxDepth(Android)
    ensures Taps(depth, 4) == depth
    ensures forall n :: 0 < n < 4 ==> Taps(depth, n) != depth
  {
    assert Taps(depth, 1) == DepthAfterKeys(Android, depth, false, false, true);
    assert Taps(depth, 2) == DepthAfterKeys(Android, Taps(depth, 1), false, false, true);
    assert Taps(depth, 3) == DepthAfterKeys(Android, Taps(depth, 2), false, false, true);
  }

  /** The depth after `n` double taps on Android. */
  function Taps(depth: int, n: nat): int
  {
    if n == 0 then depth else DepthAfterKeys(Android, Taps(depth, n - 1), false, false, true)
  }

  /** On standalone, up moves the depth up one and down moves it down one, each stopping at its bound. */
  lemma ArrowKeysStep(depth: int)
    requires MinDepth <= depth <= MaxDepth(Standalone)
    ensures DepthAfterKeys(Standalone, depth, true, false, false) == if depth < 9 then depth + 1 else 9
    ensures DepthAfterKeys(Standalone, depth, false, true, false) == if depth > 3 then depth - 1 else 3
    ensures DepthAfterKeys(Standalone, depth, false, false, true) == depth
  {
  }

  // ---------------------------------------------------------------------
  // The component

  class FractalVibrant {
    /** The build target, fixed when the script is compiled. */
    const platform: Platform
    var depth: int
    /** Unity's `enabled` flag. */
    var enabled: bool
    /** Whether the native arrays exist (`parts != null`). */
    var built: bool
    var parts: seq<array<FractalPart>>
    var matrices: seq<array<Matrix>>
    var sequenceNumbers: seq<SequenceNumber>

    ghost function Repr(): set<object>
      reads this
    {
      Footprint(parts, matrices)
    }

    /** The fields between callbacks: `depth` in the build's range, arrays only while enabled. */
    ghost predicate Settled()
      reads this
    {
      MinDepth <= depth <= MaxDepth(platform) &&
      (built ==> enabled && Built(parts, matrices) && |sequenceNumbers| == |parts|)
    }

    /** A build has exactly `depth` levels. */
    ghost predicate Valid()
      reads this
    {
      Settled() && (built ==> |parts| == depth)
    }

    ghost function Levels(): seq<seq<FractalPart>>
      reads this, set l | 0 <= l < |parts| :: parts[l]
    {
      Contents(parts)
    }

    ghost function MatrixLevels(): seq<seq<Matrix>>
      reads this, set l | 0 <= l < |matrices| :: matrices[l]
    {
      Contents(matrices)
    }

    /** The inspector default: depth 4, enabled, not yet built. */
    constructor (platform: Platform)
      ensures Valid() && this.platform == platform && depth == 4 && enabled && !built
    {
      this.platform := platform;
      depth := 4;
      enabled := true;
      built := false;
      parts := [];
      matrices := [];
      sequenceNumbers := [];
    }

    /**
      Allocates `depth` levels of 5^l parts with one sequence number each,
      and lays every part out by its child kind with its drawn sag angle.
     */
    method OnEnable(sag: (nat, nat) -> real, draws: nat -> SequenceNumber)
      requires Settled() && enabled
      modifies this
      ensures Valid() && built && depth == old(depth) && enabled == old(enabled)
      ensures IsLayout(Levels(), depth, sag)
      ensures sequenceNumbers == Drawn(depth, draws)
      ensures forall l, j :: 0 <= l < depth && 0 <= j < matrices[l].Length ==> matrices[l][j] == ZeroMatrix
      ensures forall l :: 0 <= l < depth ==> fresh(parts[l]) && fresh(matrices[l])
    {
      var ps, ms := AllocateLevels(depth, ClearedPart);
      LayOut(ps, sag);
      parts, matrices, built := ps, ms, true;
      sequenceNumbers := Drawn(depth, draws);
    }

    /** The second loop of OnEnable: the root, then every level below it by child kind. */
    static method LayOut(ps: seq<array<FractalPart>>, sag: (nat, nat) -> real)
      requires |ps| >= 1
      requires forall l {:trigger ps[l]} :: 0 <= l < |ps| ==> ps[l].Length == Pow5(l)
      requires forall a, b :: 0 <= a < b < |ps| ==> ps[a] != ps[b]
      modifies set l | 0 <= l < |ps| :: ps[l]
      ensures forall l, j :: 0 <= l < |ps| && 0 <= j < ps[l].Length ==> ps[l][j] == CreatePart(ChildKind(l, j), sag(l, j))
    {
      ps[0][0] := CreatePart(0, sag(0, 0));
      var li := 1;
      while li < |ps|
        invariant 1 <= li <= |ps|
        invariant forall l, j :: 0 <= l < li && 0 <= j < ps[l].Length ==> ps[l][j] == CreatePart(ChildKind(l, j), sag(l, j))
      {
        FillLevel(ps, li, sag);
        li := li + 1;
      }
    }


    /** The two inner loops of OnEnable: level `li` as groups of five children. */
    static method FillLevel(ps: seq<array<FractalPart>>, li: nat, sag: (nat, nat) -> real)
      requires 1 <= li < |ps| && ps[li].Length == Pow5(li)
      modifies ps[li]
      ensures forall j :: 0 <= j < ps[li].Length ==> ps[li][j] == CreatePart(ChildKind(li, j), sag(li, j))
    {
      var levelParts := ps[li];
      var fpi := 0;
      ghost var group := 0;
      while fpi < levelParts.Length
        invariant 0 <= fpi <= levelParts.Length && fpi == 5 * group
        invariant forall j :: 0 <= j < fpi ==> levelParts[j] == CreatePart(j % 5, sag(li, j))
      {
        assert fpi + 5 <= levelParts.Length by {
          assert levelParts.Length == 5 * Pow5(li - 1);
        }
        var ci := 0;
        while ci < 5
          invariant 0 <= ci <= 5
          invariant forall j :: 0 <= j < fpi + ci ==> levelParts[j] == CreatePart(j % 5, sag(li, j))
        {
          assert (fpi + ci) % 5 == ci;
          levelParts[fpi + ci] := CreatePart(ci, sag(li, fpi + ci));
          ci := ci + 1;
        }
        fpi, group := fpi + 5, group + 1;
      }
    }

    /** Releases every level and the sequence numbers. */
    method OnDisable()
      requires built
      modifies this
      ensures !built && parts == [] && matrices == [] && sequenceNumbers == []
      ensures depth == old(depth) && enabled == old(enabled)
    {
      parts, matrices, sequenceNumbers, built := [], [], [], false;
    }

    /** After a field changed: rebuild, but only while enabled with arrays built. */
    method OnValidate(sag: (nat, nat) -> real, draws: nat -> SequenceNumber)
      requires Settled()
      modifies this
      ensures Valid() && depth == old(depth) && enabled == old(enabled) && built == old(built)
      ensures old(built) ==> IsLayout(Levels(), depth, sag) && sequenceNumbers == Drawn(depth, draws)
      ensures old(built) ==> (forall l, j :: 0 <= l < depth && 0 <= j < matrices[l].Length ==> matrices[l][j] == ZeroMatrix) && (forall l :: 0 <= l < depth ==> fresh(parts[l]) && fresh(matrices[l]))
      ensures !old(built) ==> parts == old(parts) && matrices == old(matrices) && sequenceNumbers == old(sequenceNumbers)
    {
      if built && enabled {
        OnDisable();
        OnEnable(sag, draws);
      }
    }

    /** The part of `Update` that moves the parts: the root step, then one job per level. */
    method UpdateParts(deltaTime: real, objectScale: real, transformRotation: Rotation, norm: Vector -> real)
      requires Valid() && built
      modifies Repr()
      ensures Levels() == Frame(old(Levels()), transformRotation, SpinDelta(deltaTime), objectScale, norm)
      ensures MatrixLevels() == FrameMatrices(Levels(), objectScale, PartMatrix)
    {
      assert this !in Repr();
      StepAll(parts, matrices, transformRotation, SpinDelta(deltaTime), objectScale, norm);
    }

    /** The root step and then the level loop, on the arrays of a build. */
    static method StepAll(ps: seq<array<FractalPart>>, ms: seq<array<Matrix>>,
                          transformRotation: Rotation, delta: real, objectScale: real, norm: Vector -> real)
      requires Built(ps, ms)
      modifies Footprint(ps, ms)
      ensures Shaped(old(Contents(ps)))
      ensures Contents(ps) == Frame(old(Contents(ps)), transformRotation, delta, objectScale, norm)
      ensures Contents(ms) == FrameMatrices(Contents(ps), objectScale, PartMatrix)
    {
      ghost var before := Contents(ps);
      ghost var target := Frame(before, transformRotation, delta, objectScale, norm);
      ghost var targetMatrices := FrameMatrices(target, objectScale, PartMatrix);
      FrameSteps(before, transformRotation, delta, objectScale, norm);
      UpdateRoot(ps, ms, transformRotation, delta, objectScale);
      UpdateLevels(ps, ms, before, target, targetMatrices, delta, objectScale, norm);
      assert Contents(ps) == target && Contents(ms) == targetMatrices;
    }

    /** The root: one spin step under the object's rotation, drawn at the object's scale. */
    static method UpdateRoot(ps: seq<array<FractalPart>>, ms: seq<array<Matrix>>,
                             transformRotation: Rotation, delta: real, objectScale: real)
      requires |ps| == |ms| >= 1 && ps[0].Length == 1 && ms[0].Length == 1
      requires forall l :: 1 <= l < |ps| ==> ps[l] != ps[0] && ms[l] != ms[0]
      modifies ps[0], ms[0]
      ensures ps[0][..] == [RootStep(old(ps[0][0]), transformRotation, delta)]
      ensures ms[0][..] == LevelMatrices(ps[0][..], objectScale, PartMatrix)
      ensures forall l :: 1 <= l < |ps| ==> ps[l][..] == old(ps[l][..])
    {
      var rootPart := ps[0][0];
      rootPart := rootPart.(spinAngle := rootPart.spinAngle + delta);
      rootPart := rootPart.(worldRotation :=
        Compose(transformRotation, Compose(rootPart.rotation, RotateY(rootPart.spinAngle))));
      ps[0][0] := rootPart;
      ms[0][0] := Transform(rootPart.worldRotation, objectScale, rootPart.worldPosition);
      assert ps[0][..] == [rootPart];
      assert ms[0][..] == [PartMatrix(rootPart, objectScale)];
    }

    /**
      The level loop of `Update`: the scale halves, and level `li` is
      recomputed from level `li - 1`, which this frame already updated.
     */
    static method UpdateLevels(ps: seq<array<FractalPart>>, ms: seq<array<Matrix>>,
                               ghost before: seq<seq<FractalPart>>, ghost target: seq<seq<FractalPart>>,
                               ghost targetMatrices: seq<seq<Matrix>>, delta: real, objectScale: real,
                               norm: Vector -> real)
      requires |ps| == |ms| == |before| == |target| == |targetMatrices| >= 1
      requires forall l {:trigger ps[l]} {:trigger ms[l]} :: 0 <= l < |ps| ==> ps[l].Length == Pow5(l) && ms[l].Length == Pow5(l)
      requires forall a, b :: 0 <= a < b < |ps| ==> ps[a] != ps[b] && ms[a] != ms[b]
      requires forall k :: 1 <= k < |ps| ==>
        |before[k]| <= 5 * |target[k - 1]| &&
        target[k] == NewLevel(before[k], target[k - 1], delta, ScaleAt(objectScale, k), norm)
      requires forall k :: 0 <= k < |ps| ==> targetMatrices[k] == LevelMatrices(target[k], ScaleAt(objectScale, k), PartMatrix)
      requires ps[0][..] == target[0] && ms[0][..] == targetMatrices[0]
      requires forall l :: 1 <= l < |ps| ==> ps[l][..] == before[l]
      modifies Footprint(ps, ms)
      ensures forall l :: 0 <= l < |ps| ==> ps[l][..] == target[l] && ms[l][..] == targetMatrices[l]
    {
      var scale := objectScale;
      var li := 1;
      while li < |ps|
        invariant 1 <= li <= |ps|
        invariant scale == ScaleAt(objectScale, li - 1)
        invariant forall l :: 0 <= l < li ==> ps[l][..] == target[l] && ms[l][..] == targetMatrices[l]
        invariant forall l :: li <= l < |ps| ==> ps[l][..] == before[l]
      {
        scale := scale * 0.5;
        StepLevel(ps, ms, li, delta, scale, norm);
        li := li + 1;
      }
    }

    /** One job of `Update`: level `li` from level `li - 1`; every other level keeps its contents. */
    static method StepLevel(parts: seq<array<FractalPart>>, matrices: seq<array<Matrix>>, li: nat,
                            delta: real, scale: real, norm: Vector -> real)
      requires 1 <= li < |parts| == |matrices|
      requires forall l {:trigger parts[l]} {:trigger matrices[l]} :: 0 <= l < |parts| ==> parts[l].Length == Pow5(l) && matrices[l].Length == Pow5(l)
      requires parts[li].Length <= 5 * parts[li - 1].Length
      requires forall a, b :: 0 <= a < b < |parts| ==> parts[a] != parts[b] && matrices[a] != matrices[b]
      modifies parts[li], matrices[li]
      ensures parts[li][..] == NewLevel(old(parts[li][..]), parts[li - 1][..], delta, scale, norm)
      ensures matrices[li][..] == LevelMatrices(parts[li][..], scale, PartMatrix)
      ensures forall l :: 0 <= l < |parts| && l != li ==> parts[l][..] == old(parts[l][..]) && matrices[l][..] == old(matrices[l][..])
    {
      assert Pow5(li) == 5 * Pow5(li - 1);
      assert forall l :: 0 <= l < |parts| && l != li ==> parts[l] != parts[li] && matrices[l] != matrices[li] by {
        forall l | 0 <= l < |parts| && l != li ensures parts[l] != parts[li] && matrices[l] != matrices[li] {
          if l < li {
            assert parts[l] != parts[li] && matrices[l] != matrices[li];
          } else {
            assert parts[li] != parts[l] && matrices[li] != matrices[l];
          }
        }
      }
      RunLevelJob(parts[li - 1], parts[li], matrices[li], delta, scale, norm);
    }

    /** `HandleKeys`: the build's depth keys; a change of depth rebuilds. */
    method HandleKeys(up: bool, down: bool, doubleTap: bool, sag: (nat, nat) -> real, draws: nat -> SequenceNumber)
      requires Valid()
      modifies this
      ensures Valid() && enabled == old(enabled) && built == old(built)
      ensures depth == DepthAfterKeys(platform, old(depth), up, down, doubleTap)
      ensures built && DepthKeyPressed(platform, up, down, doubleTap) ==>
        IsLayout(Levels(), depth, sag) && sequenceNumbers == Drawn(depth, draws)
      ensures built && DepthKeyPressed(platform, up, down, doubleTap) ==> (forall l, j :: 0 <= l < depth && 0 <= j < matrices[l].Length ==> matrices[l][j] == ZeroMatrix) && (forall l :: 0 <= l < depth ==> fresh(parts[l]) && fresh(matrices[l]))
      ensures !DepthKeyPressed(platform, up, down, doubleTap) ==>
        parts == old(parts) && matrices == old(matrices) && sequenceNumbers == old(sequenceNumbers)
    {
      match platform
      case Standalone =>
        if up {
          depth := depth + 1;
          depth := if depth < MaxDepth(platform) then depth else MaxDepth(platform);
          OnValidate(sag, draws);
        }
        if down {
          depth := depth - 1;
          depth := if depth > MinDepth then depth else MinDepth;
          OnValidate(sag, draws);
        }
      case Android =>
        if doubleTap {
          depth := depth + 1;
          if depth > MaxDepth(platform) {
            depth := MinDepth;
          }
          OnValidate(sag, draws);
        }
    }

    /**
      One frame: move the parts, pick each level's draw style, then read
      the keys. The styles returned are those of the levels just drawn.
     */
    method Update(deltaTime: real, objectScale: real, transformRotation: Rotation, norm: Vector -> real,
                  up: bool, down: bool, doubleTap: bool, sag: (nat, nat) -> real, draws: nat -> SequenceNumber)
      returns (styles: seq<DrawStyle>)
      requires Valid() && built
      modifies this, Repr()
      ensures Valid() && built && enabled == old(enabled)
      ensures |styles| == old(depth) && forall i :: 0 <= i < |styles| ==> styles[i] == LevelStyle(i, |styles|)
      ensures depth == DepthAfterKeys(platform, old(depth), up, down, doubleTap)
      ensures !DepthKeyPressed(platform, up, down, doubleTap) ==>
        Levels() == Frame(old(Levels()), transformRotation, SpinDelta(deltaTime), objectScale, norm) &&
        MatrixLevels() == FrameMatrices(Levels(), objectScale, PartMatrix)
      ensures !DepthKeyPressed(platform, up, down, doubleTap) ==> sequenceNumbers == old(sequenceNumbers)
      ensures DepthKeyPressed(platform, up, down, doubleTap) ==>
        IsLayout(Levels(), depth, sag) && sequenceNumbers == Drawn(depth, draws)
      ensures DepthKeyPressed(platform, up, down, doubleTap) ==> (forall l, j :: 0 <= l < depth && 0 <= j < matrices[l].Length ==> matrices[l][j] == ZeroMatrix) && (forall l :: 0 <= l < depth ==> fresh(parts[l]) && fresh(matrices[l]))
    {
      assert this !in Repr();
      UpdateParts(deltaTime, objectScale, transformRotation, norm);
      assert Valid();
      styles := DrawStyles(|parts|);
      ghost var moved, movedMatrices := Levels(), MatrixLevels();
      HandleKeys(up, down, doubleTap, sag, draws);
      assert !DepthKeyPressed(platform, up, down, doubleTap) ==> Levels() == moved && MatrixLevels() == movedMatrices;
    }
  }

  /** Whether this frame's input includes a depth key of the build. */
  predicate DepthKeyPressed(platform: Platform, up: bool, down: bool, doubleTap: bool)
  {
    if platform == Standalone then up || down else doubleTap
  }
}
