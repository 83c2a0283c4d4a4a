/**
  The fractal of five-way branching parts. Level `l` of the tree holds
  5^l parts in one native array. Part `i` of a level below the root hangs
  from part `i / 5` of the level above. It is child kind `i % 5`, which
  fixes its direction and its fixed rotation. Every frame the root spins
  under the object's transform, and each lower level is recomputed from the
  level above (already updated this frame): one more spin step, the
  parent's world rotation applied, and an offset of 1.5 times the level's
  scale along the part's direction.
 */
module Fractal {
  import opened Geometry

  const MinDepth := 1
  const MaxDepth := 8

  datatype FractalPart = FractalPart(
    direction: Vector,
    worldPosition: Vector,
    rotation: Rotation,
    worldRotation: Rotation,
    spinAngle: real)

  /** The all-zero part of a cleared native array. */
  const ClearedPart := FractalPart(Zero, Zero, ZeroQuaternion, ZeroQuaternion, 0.0)

  /** up, right, left, forward, back. */
  const Directions: seq<Vector> := [Up, Right, Left, Forward, Back]

  /** `CreatePart(childIndex)`: the direction and rotation of the kind; everything else zero. */
  function CreatePart(childIndex: nat): FractalPart
    requires childIndex < 5
  {
    ClearedPart.(direction := Directions[childIndex], rotation := Rotations[childIndex])
  }

  /** The levels OnEnable builds for `depth`. */
  ghost predicate IsLayout(levels: seq<seq<FractalPart>>, depth: nat)
  {
    |levels| == depth &&
    forall l {:trigger levels[l]} :: 0 <= l < depth ==>
      |levels[l]| == Pow5(l) &&
      forall j :: 0 <= j < |levels[l]| ==> levels[l][j] == CreatePart(ChildKind(l, j))
  }


  /**
    In the layout, the five children 5p to 5p + 4 of part p point in the
    five directions, in order, and the root is the identity kind.
   */
  lemma LayoutChildren(levels: seq<seq<FractalPart>>, depth: nat, l: nat, p: nat, c: nat)
    requires IsLayout(levels, depth) && 1 <= l < depth && p < Pow5(l - 1) && c < 5
    ensures 5 * p + c < |levels[l]|
    ensures levels[l][5 * p + c].direction == Directions[c]
    ensures levels[l][5 * p + c].rotation == Rotations[c]
    ensures levels[0][0].direction == Up && levels[0][0].rotation == Identity
  {
    ChildrenOf(l, p, c);
  }

  // ---------------------------------------------------------------------
  // One frame, as functions of the levels before it

  /** The root's update: one spin step under the object's rotation; its position is never written. */
  function RootStep(root: FractalPart, transformRotation: Rotation, delta: real): FractalPart
  {
    var spin := root.spinAngle + delta;
    root.(spinAngle := spin,
          worldRotation := Compose(transformRotation, Compose(root.rotation, RotateY(spin))))
  }

  /** `UpdateFractalLevelJob.Execute` on one part, given its (updated) parent. */
  function ChildStep(part: FractalPart, parent: FractalPart, delta: real, scale: real): FractalPart
  {
    var spin := part.spinAngle + delta;
    part.(spinAngle := spin,
          worldRotation := Compose(parent.worldRotation, Compose(part.rotation, RotateY(spin))),
          worldPosition := Sum(parent.worldPosition,
                               Rotated(parent.worldRotation, Scaled(1.5 * scale, part.direction))))
  }

  /** The matrix drawn for a part: its world rotation scaled, then its world position. */
  function PartMatrix(part: FractalPart, scale: real): Matrix
  {
    Transform(part.worldRotation, scale, part.worldPosition)
  }

  /** A whole level after the job, each part from its own old value and its parent. */
  function NewLevel(level: seq<FractalPart>, parents: seq<FractalPart>, delta: real, scale: real)
    : (r: seq<FractalPart>)
    requires |level| <= 5 * |parents|
    ensures |r| == |level|
  {
    seq(|level|, i requires 0 <= i < |level| => ChildStep(level[i], parents[i / 5], delta, scale))
  }


  /** Level `k` after a frame: the root step, or the job on level `k` under the new level `k - 1`. */
  function Stepped(levels: seq<seq<FractalPart>>, k: nat, transformRotation: Rotation,
                   delta: real, objectScale: real): (r: seq<FractalPart>)
    requires Shaped(levels) && k < |levels|
    ensures |r| == Pow5(k)
  {
    if k == 0 then [RootStep(levels[0][0], transformRotation, delta)]
    else
      var parents := Stepped(levels, k - 1, transformRotation, delta, objectScale);
      NewLevel(levels[k], parents, delta, ScaleAt(objectScale, k))
  }

  /** All levels after a frame. */
  function Frame(levels: seq<seq<FractalPart>>, transformRotation: Rotation,
                 delta: real, objectScale: real): (r: seq<seq<FractalPart>>)
    requires Shaped(levels)
    ensures |r| == |levels| && Shaped(r)
  {
    seq(|levels|, k requires 0 <= k < |levels| => Stepped(levels, k, transformRotation, delta, objectScale))
  }


  /**
    A frame advances every part's spin angle by exactly one step and keeps
    its direction and fixed rotation; the root also keeps its position.
   */
  lemma FrameAdvancesSpin(levels: seq<seq<FractalPart>>, transformRotation: Rotation,
                          delta: real, objectScale: real, k: nat, i: nat)
    requires Shaped(levels) && k < |levels| && i < |levels[k]|
    ensures var next := Frame(levels, transformRotation, delta, objectScale)[k][i];
      next.spinAngle == levels[k][i].spinAngle + delta &&
      next.direction == levels[k][i].direction &&
      next.rotation == levels[k][i].rotation &&
      (k == 0 ==> next.worldPosition == levels[0][0].worldPosition)
  {
  }

  /** Below the root, a part after a frame is the job on it under its parent after the same frame. */
  lemma FrameFollowsParent(levels: seq<seq<FractalPart>>, transformRotation: Rotation,
                           delta: real, objectScale: real, k: nat, i: nat)
    requires Shaped(levels) && 1 <= k < |levels| && i < |levels[k]|
    ensures i / 5 < |levels[k - 1]|
    ensures var next := Frame(levels, transformRotation, delta, objectScale);
      next[k][i] == ChildStep(levels[k][i], next[k - 1][i / 5], delta, ScaleAt(objectScale, k))
  {
    ParentInBounds(k, i);
    var next := Frame(levels, transformRotation, delta, objectScale);
    FrameLevel(levels, transformRotation, delta, objectScale, k);
    assert next[k][i] == ChildStep(levels[k][i], next[k - 1][i / 5], delta, ScaleAt(objectScale, k));
  }

  /** Below the root, level `k` of a frame is the job on the old level `k` under the new level `k - 1`. */
  lemma FrameLevel(levels: seq<seq<FractalPart>>, transformRotation: Rotation,
                   delta: real, objectScale: real, k: nat)
    requires Shaped(levels) && 1 <= k < |levels|
    ensures var next := Frame(levels, transformRotation, delta, objectScale);
      |levels[k]| <= 5 * |next[k - 1]| &&
      next[k] == NewLevel(levels[k], next[k - 1], delta, ScaleAt(objectScale, k))
  {
    var next := Frame(levels, transformRotation, delta, objectScale);
    var parents := Stepped(levels, k - 1, transformRotation, delta, objectScale);
    assert next[k - 1] == parents;
    assert |levels[k]| == 5 * |parents|;
    assert next[k] == Stepped(levels, k, transformRotation, delta, objectScale);
  }

  /** A frame level by level: the root step on top, and below it each level from the new level above. */
  lemma FrameSteps(levels: seq<seq<FractalPart>>, transformRotation: Rotation, delta: real, objectScale: real)
    requires Shaped(levels) && |levels| >= 1
    ensures var next := Frame(levels, transformRotation, delta, objectScale);
      next[0] == [RootStep(levels[0][0], transformRotation, delta)] &&
      forall k :: 1 <= k < |levels| ==>
        |levels[k]| <= 5 * |next[k - 1]| &&
        next[k] == NewLevel(levels[k], next[k - 1], delta, ScaleAt(objectScale, k))
  {
    forall k | 1 <= k < |levels|
      ensures var next := Frame(levels, transformRotation, delta, objectScale);
        |levels[k]| <= 5 * |next[k - 1]| &&
        next[k] == NewLevel(levels[k], next[k - 1], delta, ScaleAt(objectScale, k))
    {
      FrameLevel(levels, transformRotation, delta, objectScale, k);
    }
  }

  /** What one frame receives from the engine. */
  datatype FrameInput = FrameInput(transformRotation: Rotation, deltaTime: real, objectScale: real)

  /** The levels after a run of frames. */
  function Frames(levels: seq<seq<FractalPart>>, inputs: seq<FrameInput>): (r: seq<seq<FractalPart>>)
    requires Shaped(levels)
    ensures |r| == |levels| && Shaped(r)
    decreases |inputs|
  {
    if inputs == [] then levels
    else
      var n := inputs[0];
      Frames(Frame(levels, n.transformRotation, SpinDelta(n.deltaTime), n.objectScale), inputs[1..])
  }

  /** The total spin of a run of frames. */
  function TotalSpin(inputs: seq<FrameInput>): real
    decreases |inputs|
  {
    if inputs == [] then 0.0 else SpinDelta(inputs[0].deltaTime) + TotalSpin(inputs[1..])
  }

  /** Over a run of frames, every part's spin grows by the run's total spin, and by nothing else. */
  lemma {:induction false} FramesSpin(levels: seq<seq<FractalPart>>, inputs: seq<FrameInput>, k: nat, i: nat)
    requires Shaped(levels) && k < |levels| && i < |levels[k]|
    ensures Frames(levels, inputs)[k][i].spinAngle == levels[k][i].spinAngle + TotalSpin(inputs)
    decreases |inputs|
  {
    if inputs != [] {
      var n := inputs[0];
      var next := Frame(levels, n.transformRotation, SpinDelta(n.deltaTime), n.objectScale);
      FrameAdvancesSpin(levels, n.transformRotation, SpinDelta(n.deltaTime), n.objectScale, k, i);
      FramesSpin(next, inputs[1..], k, i);
    }
  }

  // ---------------------------------------------------------------------
  // The level job on native arrays

  /** `UpdateFractalLevelJob.Execute(i)`: writes part `i` and matrix `i` and nothing else. */
  method Execute(parents: array<FractalPart>, parts: array<FractalPart>, matrices: array<Matrix>,
                 delta: real, scale: real, i: int)
    requires parents != parts && parts.Length == matrices.Length && parts.Length <= 5 * parents.Length
    requires 0 <= i < parts.Length
    modifies parts, matrices
    ensures parts[i] == ChildStep(old(parts[i]), parents[i / 5], delta, scale)
    ensures matrices[i] == PartMatrix(parts[i], scale)
    ensures forall k :: 0 <= k < parts.Length && k != i ==> parts[k] == old(parts[k]) && matrices[k] == old(matrices[k])
  {
    var parent := parents[i / 5];
    var part := parts[i];
    part := part.(spinAngle := part.spinAngle + delta);
    part := part.(worldRotation := Compose(parent.worldRotation, Compose(part.rotation, RotateY(part.spinAngle))));
    part := part.(worldPosition := Sum(parent.worldPosition,
                                       Rotated(parent.worldRotation, Scaled(1.5 * scale, part.direction))));
    parts[i] := part;
    matrices[i] := Transform(part.worldRotation, scale, part.worldPosition);
  }

  /**
    The parallel-for over a level, one index after another. Each index reads
    only its parent in the read-only level above and writes only its own
    slots, so the order does not matter.
   */
  method RunLevelJob(parents: array<FractalPart>, parts: array<FractalPart>, matrices: array<Matrix>,
                     delta: real, scale: real)
    requires parents != parts && parts.Length == matrices.Length && parts.Length <= 5 * parents.Length
    modifies parts, matrices
    ensures parts[..] == NewLevel(old(parts[..]), parents[..], delta, scale)
    ensures matrices[..] == LevelMatrices(parts[..], scale, PartMatrix)
  {
    var i := 0;
    while i < parts.Length
      invariant 0 <= i <= parts.Length
      invariant forall k :: 0 <= k < i ==> parts[k] == ChildStep(old(parts[k]), parents[k / 5], delta, scale)
      invariant forall k :: i <= k < parts.Length ==> parts[k] == old(parts[k])
      invariant forall k :: 0 <= k < i ==> matrices[k] == PartMatrix(parts[k], scale)
    {
      Execute(parents, parts, matrices, delta, scale, i);
      i := i + 1;
    }
  }

  // ---------------------------------------------------------------------
  // The component

  class Fractal {
    var depth: int
    /** Unity's `enabled` flag. */
    var enabled: bool
    /** Whether the native arrays exist (`parts != null`). */
    var built: bool
    var parts: seq<array<FractalPart>>
    var matrices: seq<array<Matrix>>

    ghost function Repr(): set<object>
      reads this
    {
      Footprint(parts, matrices)
    }

    /** The arrays of a build. */
    ghost predicate Allocated()
      reads this
    {
      Built(parts, matrices)
    }

    /** The fields between callbacks: `depth` in range, arrays only while enabled. */
    ghost predicate Settled()
      reads this
    {
      MinDepth <= depth <= MaxDepth && (built ==> enabled && Allocated())
    }

    /** A build has exactly `depth` levels. */
    ghost predicate Valid()
      reads this
    {
      Settled() && (built ==> |parts| == depth)
    }

    ghost function Levels(): seq<seq<FractalPart>>
      reads this, set l | 0 <= l < |parts| :: parts[l]
    {
      Contents(parts)
    }

    ghost function MatrixLevels(): seq<seq<Matrix>>
      reads this, set l | 0 <= l < |matrices| :: matrices[l]
    {
      Contents(matrices)
    }

    /** The inspector default: depth 4, enabled, not yet built. */
    constructor ()
      ensures Valid() && depth == 4 && enabled && !built
    {
      depth := 4;
      enabled := true;
      built := false;
      parts := [];
      matrices := [];
    }

    /** Allocates `depth` levels of 5^l parts and lays every part out by its child kind. */
    method OnEnable()
      requires Settled() && enabled
      modifies this
      ensures Valid() && built && depth == old(depth) && enabled == old(enabled)
      ensures IsLayout(Levels(), depth)
      ensures forall l, j :: 0 <= l < depth && 0 <= j < matrices[l].Length ==> matrices[l][j] == ZeroMatrix
      ensures forall l :: 0 <= l < depth ==> fresh(parts[l]) && fresh(matrices[l])
    {
      var ps, ms := AllocateLevels(depth, ClearedPart);
      LayOut(ps);
      parts, matrices, built := ps, ms, true;
    }

    /** The second loop of OnEnable: the root, then every level below it by child kind. */
    static method LayOut(ps: seq<array<FractalPart>>)
      requires |ps| >= 1
      requires forall l {:trigger ps[l]} :: 0 <= l < |ps| ==> ps[l].Length == Pow5(l)
      requires forall a, b :: 0 <= a < b < |ps| ==> ps[a] != ps[b]
      modifies set l | 0 <= l < |ps| :: ps[l]
      ensures forall l, j :: 0 <= l < |ps| && 0 <= j < ps[l].Length ==> ps[l][j] == CreatePart(ChildKind(l, j))
    {
      ps[0][0] := CreatePart(0);
      var li := 1;
      while li < |ps|
        invariant 1 <= li <= |ps|
        invariant forall l, j :: 0 <= l < li && 0 <= j < ps[l].Length ==> ps[l][j] == CreatePart(ChildKind(l, j))
      {
        FillLevel(ps, li);
        li := li + 1;
      }
    }


    /** The two inner loops of OnEnable: level `li` as groups of five children. */
    static method FillLevel(ps: seq<array<FractalPart>>, li: nat)
      requires 1 <= li < |ps| && ps[li].Length == Pow5(li)
      modifies ps[li]
      ensures forall j :: 0 <= j < ps[li].Length ==> ps[li][j] == CreatePart(ChildKind(li, j))
    {
      var levelParts := ps[li];
      var fpi := 0;
      ghost var group := 0;
      while fpi < levelParts.Length
        invariant 0 <= fpi <= levelParts.Length && fpi == 5 * group
        invariant forall j :: 0 <= j < fpi ==> levelParts[j] == CreatePart(j % 5)
      {
        assert fpi + 5 <= levelParts.Length by {
          assert levelParts.Length == 5 * Pow5(li - 1);
        }
        var ci := 0;
        while ci < 5
          invariant 0 <= ci <= 5
          invariant forall j :: 0 <= j < fpi + ci ==> levelParts[j] == CreatePart(j % 5)
        {
          assert (fpi + ci) % 5 == ci;
          levelParts[fpi + ci] := CreatePart(ci);
          ci := ci + 1;
        }
        fpi, group := fpi + 5, group + 1;
      }
    }

    /** Releases every level. */
    method OnDisable()
      requires built
      modifies this
      ensures !built && parts == [] && matrices == []
      ensures depth == old(depth) && enabled == old(enabled)
    {
      parts, matrices, built := [], [], false;
    }

    /** After a field changed: rebuild, but only while enabled and built. */
    method OnValidate()
      requires Settled()
      modifies this
      ensures Valid() && depth == old(depth) && enabled == old(enabled) && built == old(built)
      ensures built ==> IsLayout(Levels(), depth)
      ensures built ==> (forall l, j :: 0 <= l < depth && 0 <= j < matrices[l].Length ==> matrices[l][j] == ZeroMatrix) && (forall l :: 0 <= l < depth ==> fresh(parts[l]) && fresh(matrices[l]))
      ensures !built ==> parts == old(parts) && matrices == old(matrices)
    {
      if built && enabled {
        OnDisable();
        OnEnable();
      }
    }

    /** The part of `Update` that moves the parts: the root step, then one job per level. */
    method UpdateParts(deltaTime: real, objectScale: real, transformRotation: Rotation)
      requires Valid() && built
      modifies Repr()
      ensures Levels() == Frame(old(Levels()), transformRotation, SpinDelta(deltaTime), objectScale)
      ensures MatrixLevels() == FrameMatrices(Levels(), objectScale, PartMatrix)
    {
      assert this !in Repr();
      StepAll(parts, matrices, transformRotation, SpinDelta(deltaTime), objectScale);
    }

    /** The root step and then the level loop, on the arrays of a build. */
    static method StepAll(ps: seq<array<FractalPart>>, ms: seq<array<Matrix>>,
                          transformRotation: Rotation, delta: real, objectScale: real)
      requires Built(ps, ms)
      modifies Footprint(ps, ms)
      ensures Shaped(old(Contents(ps)))
      ensures Contents(ps) == Frame(old(Contents(ps)), transformRotation, delta, objectScale)
      ensures Contents(ms) == FrameMatrices(Contents(ps), objectScale, PartMatrix)
    {
      ghost var before := Contents(ps);
      ghost var target := Frame(before, transformRotation, delta, objectScale);
      ghost var targetMatrices := FrameMatrices(target, objectScale, PartMatrix);
      FrameSteps(before, transformRotation, delta, objectScale);
      UpdateRoot(ps, ms, transformRotation, delta, objectScale);
      UpdateLevels(ps, ms, before, target, targetMatrices, delta, objectScale);
      assert Contents(ps) == target && Contents(ms) == targetMatrices;
    }

    /** The root: one spin step under the object's rotation, drawn at the object's scale. */
    static method UpdateRoot(ps: seq<array<FractalPart>>, ms: seq<array<Matrix>>,
                             transformRotation: Rotation, delta: real, objectScale: real)
      requires |ps| == |ms| >= 1 && ps[0].Length == 1 && ms[0].Length == 1
      requires forall l :: 1 <= l < |ps| ==> ps[l] != ps[0] && ms[l] != ms[0]
      modifies ps[0], ms[0]
      ensures ps[0][..] == [RootStep(old(ps[0][0]), transformRotation, delta)]
      ensures ms[0][..] == LevelMatrices(ps[0][..], objectScale, PartMatrix)
      ensures forall l :: 1 <= l < |ps| ==> ps[l][..] == old(ps[l][..])
    {
      var rootPart := ps[0][0];
      rootPart := rootPart.(spinAngle := rootPart.spinAngle + delta);
      rootPart := rootPart.(worldRotation :=
        Compose(transformRotation, Compose(rootPart.rotation, RotateY(rootPart.spinAngle))));
      ps[0][0] := rootPart;
      ms[0][0] := Transform(rootPart.worldRotation, objectScale, rootPart.worldPosition);
      assert ps[0][..] == [rootPart];
      assert ms[0][..] == [PartMatrix(rootPart, objectScale)];
    }

    /**
      The level loop of `Update`: the scale halves, and level `li` is
      recomputed from level `li - 1`, which this frame already updated.
     */
    static method UpdateLevels(ps: seq<array<FractalPart>>, ms: seq<array<Matrix>>,
                               ghost before: seq<seq<FractalPart>>, ghost target: seq<seq<FractalPart>>,
                               ghost targetMatrices: seq<seq<Matrix>>, delta: real, objectScale: real)
      requires |ps| == |ms| == |before| == |target| == |targetMatrices| >= 1
      requires forall l {:trigger ps[l]} {:trigger ms[l]} :: 0 <= l < |ps| ==> ps[l].Length == Pow5(l) && ms[l].Length == Pow5(l)
      requires forall a, b :: 0 <= a < b < |ps| ==> ps[a] != ps[b] && ms[a] != ms[b]
      requires forall k :: 1 <= k < |ps| ==>
        |before[k]| <= 5 * |target[k - 1]| &&
        target[k] == NewLevel(before[k], target[k - 1], delta, ScaleAt(objectScale, k))
      requires forall k :: 0 <= k < |ps| ==> targetMatrices[k] == LevelMatrices(target[k], ScaleAt(objectScale, k), PartMatrix)
      requires ps[0][..] == target[0] && ms[0][..] == targetMatrices[0]
      requires forall l :: 1 <= l < |ps| ==> ps[l][..] == before[l]
      modifies Footprint(ps, ms)
      ensures forall l :: 0 <= l < |ps| ==> ps[l][..] == target[l] && ms[l][..] == targetMatrices[l]
    {
      var scale := objectScale;
      var li := 1;
      while li < |ps|
        invariant 1 <= li <= |ps|
        invariant scale == ScaleAt(objectScale, li - 1)
        invariant forall l :: 0 <= l < li ==> ps[l][..] == target[l] && ms[l][..] == targetMatrices[l]
        invariant forall l :: li <= l < |ps| ==> ps[l][..] == before[l]
      {
        scale := scale * 0.5;
        StepLevel(ps, ms, li, delta, scale);
        li := li + 1;
      }
    }

    /** One job of `Update`: level `li` from level `li - 1`; every other level keeps its contents. */
    static method StepLevel(parts: seq<array<FractalPart>>, matrices: seq<array<Matrix>>, li: nat,
                            delta: real, scale: real)
      requires 1 <= li < |parts| == |matrices|
      requires forall l {:trigger parts[l]} {:trigger matrices[l]} :: 0 <= l < |parts| ==> parts[l].Length == Pow5(l) && matrices[l].Length == Pow5(l)
      requires parts[li].Length <= 5 * parts[li - 1].Length
      requires forall a, b :: 0 <= a < b < |parts| ==> parts[a] != parts[b] && matrices[a] != matrices[b]
      modifies parts[li], matrices[li]
      ensures parts[li][..] == NewLevel(old(parts[li][..]), parts[li - 1][..], delta, scale)
      ensures matrices[li][..] == LevelMatrices(parts[li][..], scale, PartMatrix)
      ensures forall l :: 0 <= l < |parts| && l != li ==> parts[l][..] == old(parts[l][..]) && matrices[l][..] == old(matrices[l][..])
    {
      assert Pow5(li) == 5 * Pow5(li - 1);
      assert forall l :: 0 <= l < |parts| && l != li ==> parts[l] != parts[li] && matrices[l] != matrices[li] by {
        forall l | 0 <= l < |parts| && l != li ensures parts[l] != parts[li] && matrices[l] != matrices[li] {
          if l < li {
            assert parts[l] != parts[li] && matrices[l] != matrices[li];
          } else {
            assert parts[li] != parts[l] && matrices[li] != matrices[l];
          }
        }
      }
      RunLevelJob(parts[li - 1], parts[li], matrices[li], delta, scale);
    }

    /** The depth keys: up to at most 8, down to at least 1; either press rebuilds. */
    method HandleDepthKeys(up: bool, down: bool)
      requires Valid()
      modifies this
      ensures Valid() && enabled == old(enabled) && built == old(built)
      ensures depth == DepthAfterKeys(old(depth), up, down)
      ensures built && (up || down) ==> IsLayout(Levels(), depth)
      ensures built && (up || down) ==> (forall l, j :: 0 <= l < depth && 0 <= j < matrices[l].Length ==> matrices[l][j] == ZeroMatrix) && (forall l :: 0 <= l < depth ==> fresh(parts[l]) && fresh(matrices[l]))
      ensures !(up || down) ==> parts == old(parts) && matrices == old(matrices)
    {
      if up {
        depth := depth + 1;
        depth := if depth < MaxDepth then depth else MaxDepth;
        OnValidate();
      }
      if down {
        depth := depth - 1;
        depth := if depth > MinDepth then depth else MinDepth;
        OnValidate();
      }
    }

    /** One frame: move the parts, then read the depth keys. */
    method Update(deltaTime: real, objectScale: real, transformRotation: Rotation, up: bool, down: bool)
      requires Valid() && built
      modifies this, Repr()
      ensures Valid() && built && enabled == old(enabled)
      ensures depth == DepthAfterKeys(old(depth), up, down)
      ensures !(up || down) ==>
        Levels() == Frame(old(Levels()), transformRotation, SpinDelta(deltaTime), objectScale) &&
        MatrixLevels() == FrameMatrices(Levels(), objectScale, PartMatrix)
      ensures up || down ==> IsLayout(Levels(), depth)
      ensures up || down ==> (forall l, j :: 0 <= l < depth && 0 <= j < matrices[l].Length ==> matrices[l][j] == ZeroMatrix) && (forall l :: 0 <= l < depth ==> fresh(parts[l]) && fresh(matrices[l]))
    {
      assert this !in Repr();
      UpdateParts(deltaTime, objectScale, transformRotation);
      assert Valid();
      ghost var moved, movedMatrices := Levels(), MatrixLevels();
      HandleDepthKeys(up, down);
      assert !(up || down) ==> Levels() == moved && MatrixLevels() == movedMatrices;
    }
  }

  /** The depth after the up and then the down key of one frame. */
  function DepthAfterKeys(depth: int, up: bool, down: bool): int
  {
    var d := if up then (if depth + 1 < MaxDepth then depth + 1 else MaxDepth) else depth;
    if down then (if d - 1 > MinDepth then d - 1 else MinDepth) else d
  }

  /** The depth keys keep the depth in [1, 8] and move it by at most one. */
  lemma DepthKeysInRange(depth: int, up: bool, down: bool)
    requires MinDepth <= depth <= MaxDepth
    ensures MinDepth <= DepthAfterKeys(depth, up, down) <= MaxDepth
    ensures up && !down ==> DepthAfterKeys(depth, up, down) == if depth < MaxDepth then depth + 1 else depth
    ensures down && !up ==> DepthAfterKeys(depth, up, down) == if depth > MinDepth then depth - 1 else depth
  {
  }
}
