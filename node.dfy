/**
  The node graph: a `resolution * resolution` grid of node transforms,
  each placed every frame at the point of the current surface over its
  grid cell, or at the blend from the last surface while a transition
  runs. Unlike the GPU graph, every digit key restarts the transition,
  and a transition gains 0.05 per frame.

  A node is kept as the two transform values the script writes: its
  local scale (one number for `Vector3.one * step`) and its local position.
 */
module Node {
  import opened Surfaces

  /** The inspector range of `resolution`. */
  const MinResolution := 10
  const MaxResolution := 100

  /** What a running transition gains per frame. */
  const Increment := 0.05

  /** A started transition runs for exactly twenty frames and then stays stopped. */
  lemma TransitionTakesTwentyFrames(m: nat)
    ensures forall k :: 0 <= k < 20 ==> Ticks(Started, Increment, k).active
    ensures !Ticks(Started, Increment, 20 + m).active
  {
    assert Steps(5, Increment) == 0.25;
    assert Steps(10, Increment) == 0.5;
    assert Steps(15, Increment) == 0.75;
    assert Steps(19, Increment) == 0.95;
    assert Steps(20, Increment) == 1.0;
    TransitionLength(Increment, 20, m);
  }

  /** One digit key: its function becomes the current one, and the transition restarts at zero. */
  function Press(c: Choice, name: FunctionName): Choice
  {
    Choice(name, c.current, Started)
  }

  /** Every press restarts the transition, even of the function already shown. */
  lemma PressRestarts(c: Choice, name: FunctionName)
    ensures Press(c, name).current == name && Press(c, name).last == c.current
    ensures Press(c, name).transition == Started && Sane(Press(c, name).transition)
  {
  }

  /** A node transform: its local scale and its local position. */
  datatype NodeTransform = NodeTransform(localScale: real, localPosition: Position)

  /** The width of a cell: `2 / resolution`. */
  function Step(resolution: int): real
    requires resolution >= 1
  {
    2.0 / resolution as real
  }

  /** The centre of cell `k` along an axis, `(k + 0.5) * step - 1`. */
  function Coordinate(k: int, step: real): real
  {
    (k as real + 0.5) * step - 1.0
  }

  /** Every cell centre lies inside the square (-1, 1). */
  lemma CoordinateInside(k: int, resolution: int)
    requires 1 <= resolution && 0 <= k < resolution
    ensures -1.0 < Coordinate(k, Step(resolution)) < 1.0
  {
    var step := Step(resolution);
    var r := resolution as real;
    assert step * r == 2.0;
    var c := k as real + 0.5;
    assert 0.0 < c < r;
    assert 0.0 < c * step < r * step by {
      assert r * step - c * step == (r - c) * step;
    }
  }

  /** Where node `i` goes this frame: over its cell, on the current surface or on the blend. */
  function NodePosition(i: nat, resolution: int, time: real, c: Choice): Position
    requires resolution >= 1
  {
    var step := Step(resolution);
    var u := Coordinate(i % resolution, step);
    var v := Coordinate(i / resolution, step);
    if c.transition.active then Morph(u, v, time, c.last, c.current, c.transition.progress)
    else Surface(c.current, u, v, time)
  }

  /** Node `i` sits over column `i % resolution` and row `i / resolution`, and no two nodes share a cell. */
  lemma NodesDistinct(i: nat, j: nat, resolution: int)
    requires 1 <= resolution && i != j
    ensures i % resolution != j % resolution || i / resolution != j / resolution
  {
    GridSplit(i, resolution);
    GridSplit(j, resolution);
  }

  lemma GridSplit(i: nat, resolution: int)
    requires 1 <= resolution
    ensures i == (i / resolution) * resolution + i % resolution
  {
  }

  /** A row and a column in range name one index, and that index splits back into them. */
  lemma GridIndex(i: int, z: int, x: int, resolution: int)
    requires 0 <= x < resolution && 0 <= z && i == z * resolution + x
    ensures i % resolution == x && i / resolution == z
  {
    var q, m := i / resolution, i % resolution;
    assert (z - q) * resolution == m - x;
    ProductZero(z - q, resolution);
  }

  /** A multiple of `r` strictly between `-r` and `r` is zero times `r`. */
  lemma ProductZero(d: int, r: int)
    requires 1 <= r && -r < d * r < r
    ensures d == 0
  {
    assert d >= 1 ==> d * r >= r;
    assert d <= -1 ==> d * r <= -r;
  }

  /** Multiplying by a positive number keeps strict order, read backwards. */
  lemma ProductLess(a: int, b: int, r: int)
    requires 1 <= r && a * r < b * r
    ensures a < b
  {
    assert a >= b ==> a * r - b * r == (a - b) * r >= 0;
  }

  /**
    While the index is below `resolution * resolution`, its row is in range,
    and so is the next row once the current one is full.
   */
  lemma RowInRange(i: int, z: int, x: int, resolution: int)
    requires 1 <= resolution && 0 <= z && 0 <= x && i == z * resolution + x && i < resolution * resolution
    ensures z < resolution
    ensures x == resolution ==> z + 1 < resolution
  {
    ProductLess(z, resolution, resolution);
    if x == resolution {
      assert (z + 1) * resolution == i;
      ProductLess(z + 1, resolution, resolution);
    }
  }

  class Node {
    /** The inspector resolution, fixed once the nodes exist. */
    const resolution: int
    /** The field `function` (a keyword here). */
    var functionName: FunctionName
    var nodes: array<NodeTransform>
    var transitioning: bool
    var transitionProgress: real
    var lastFunction: FunctionName

    /** The resolution is in range and the transition is sane. */
    ghost predicate Settled()
      reads this
    {
      MinResolution <= resolution <= MaxResolution && Sane(Transition(transitioning, transitionProgress))
    }

    /** After `Awake`: one node per cell. */
    ghost predicate Valid()
      reads this
    {
      Settled() && nodes.Length == resolution * resolution
    }

    ghost function Chosen(): Choice
      reads this
    {
      Choice(functionName, lastFunction, Transition(transitioning, transitionProgress))
    }

    /** The inspector values; `lastFunction` starts as the default `Wave`, with no transition. */
    constructor (resolution: int, functionName: FunctionName)
      requires MinResolution <= resolution <= MaxResolution
      ensures Settled() && this.resolution == resolution
      ensures Chosen() == Choice(functionName, Wave, Transition(false, 0.0))
    {
      this.resolution := resolution;
      this.functionName := functionName;
      nodes := new NodeTransform[0];
      transitioning := false;
      transitionProgress := 0.0;
      lastFunction := Wave;
    }

    /** Creates one prefab instance per cell, each scaled to the cell width. */
    method Awake()
      requires Settled()
      modifies this
      ensures Valid() && fresh(nodes) && Chosen() == old(Chosen())
      ensures forall i :: 0 <= i < nodes.Length ==> nodes[i] == NodeTransform(Step(resolution), Prefab)
    {
      var step := Step(resolution);
      nodes := new NodeTransform[resolution * resolution];
      var i := 0;
      while i < nodes.Length
        invariant 0 <= i <= nodes.Length && fresh(nodes)
        invariant nodes.Length == resolution * resolution && Chosen() == old(Chosen())
        invariant forall k :: 0 <= k < i ==> nodes[k] == NodeTransform(step, Prefab)
      {
        var node := NodeTransform(step, Prefab);
        nodes[i] := node;
        i := i + 1;
      }
    }

    /**
      The node loop of `Update`: `x` counts along a row and `z` the rows,
      `v` is the row's coordinate; every node is placed once, over its own
      cell, and keeps its scale.
     */
    method PlaceNodes(time: real)
      requires Valid()
      modifies nodes
      ensures forall k :: 0 <= k < nodes.Length ==>
        nodes[k] == old(nodes[k]).(localPosition := NodePosition(k, resolution, time, Chosen()))
    {
      var step := Step(resolution);
      var v := Coordinate(0, step);
      var i, x, z := 0, 0, 0;
      while i < nodes.Length
        invariant 0 <= i <= nodes.Length && 0 <= x <= resolution && 0 <= z < resolution
        invariant i == z * resolution + x && (i == 0 || x >= 1)
        invariant v == Coordinate(z, step)
        invariant forall k :: 0 <= k < i ==>
          nodes[k] == old(nodes[k]).(localPosition := NodePosition(k, resolution, time, Chosen()))
        invariant forall k :: i <= k < nodes.Length ==> nodes[k] == old(nodes[k])
      {
        if x == resolution {
          RowInRange(i, z, x, resolution);
          x := 0;
          z := z + 1;
          v := Coordinate(z, step);
        }
        GridIndex(i, z, x, resolution);
        assert x == i % resolution && z == i / resolution && z < resolution;
        var u := Coordinate(x, step);
        var position;
        if transitioning {
          position := Morph(u, v, time, lastFunction, functionName, transitionProgress);
        } else {
          position := Surface(functionName, u, v, time);
        }
        nodes[i] := nodes[i].(localPosition := position);
        i, x := i + 1, x + 1;
      }
    }

    /** After the nodes: a running transition moves on by 0.05 and stops at one. */
    method Advance()
      requires Valid()
      modifies this
      ensures Valid() && nodes == old(nodes)
      ensures Transition(transitioning, transitionProgress) == Tick(old(Transition(transitioning, transitionProgress)), Increment)
      ensures functionName == old(functionName) && lastFunction == old(lastFunction)
    {
      if transitioning {
        transitionProgress := transitionProgress + 0.05;
        if transitionProgress >= 1.0 {
          transitioning := false;
        }
      }
    }

    /** One digit key going down: always a new transition. */
    method SelectFunction(name: FunctionName)
      requires Valid()
      modifies this
      ensures Valid() && nodes == old(nodes)
      ensures Chosen() == Press(old(Chosen()), name)
    {
      lastFunction := functionName;
      functionName := name;
      transitioning := true;
      transitionProgress := 0.0;
    }

    /** One digit key's block of `Update`: a press when the key went down this frame. */
    method DigitKey(down: bool, name: FunctionName)
      requires Valid()
      modifies this
      ensures Valid() && nodes == old(nodes)
      ensures Chosen() == if down then Press(old(Chosen()), name) else old(Chosen())
    {
      if down {
        SelectFunction(name);
      }
    }

    /** The five digit keys, 1 to 5 in order. */
    method SelectFunctions(digits: seq<bool>)
      requires Valid() && |digits| == 5
      modifies this
      ensures Valid() && nodes == old(nodes)
      ensures Chosen() == PressKeys(old(Chosen()), digits, Press)
    {
      ghost var start := Chosen();
      assert digits[..0] == [];
      DigitKey(digits[0], Wave);
      PressKeysStep(start, digits, Press, 0);
      DigitKey(digits[1], MultiWave);
      PressKeysStep(start, digits, Press, 1);
      DigitKey(digits[2], Ripple);
      PressKeysStep(start, digits, Press, 2);
      DigitKey(digits[3], Sphere);
      PressKeysStep(start, digits, Press, 3);
      DigitKey(digits[4], Torus);
      PressKeysStep(start, digits, Press, 4);
      assert digits[..5] == digits;
    }

    /**
      One frame: place every node with the functions and transition from
      before the keys, advance the transition, then read the digit keys.
     */
    method Update(time: real, digits: seq<bool>)
      requires Valid() && |digits| == 5
      modifies this, nodes
      ensures Valid() && nodes == old(nodes)
      ensures forall k :: 0 <= k < nodes.Length ==>
        nodes[k] == old(nodes[k]).(localPosition := NodePosition(k, resolution, time, old(Chosen())))
      ensures Chosen() == PressKeys(old(Chosen()).(transition := Tick(old(Chosen()).transition, Increment)), digits, Press)
    {
      PlaceNodes(time);
      Advance();
      SelectFunctions(digits);
    }
  }
}
