/**
  The GPU graph: a `resolution * resolution` grid of points on one of the
  five surfaces, computed by a compute shader into a buffer sized for the
  largest grid. The script keeps the choice of function, the transition
  from the last function to the new one, and the resolution the held
  arrow keys move; each frame it hands these to the shader and draws.

  The shader, the material and the mesh are outside the model: what a
  frame hands over is the `Dispatch` value `UpdateFunctionOnGPU` computes.
 */
module GPUGraph {
  import opened Surfaces

  const MinResolution := 10
  const MaxResolution := 1000

  /** The number of positions the buffer holds: enough for the largest grid. */
  const Capacity := MaxResolution * MaxResolution

  /** What a running transition gains per frame. */
  const Increment := 0.1

  /** A started transition runs for exactly ten frames and then stays stopped. */
  lemma TransitionTakesTenFrames(m: nat)
    ensures forall k :: 0 <= k < 10 ==> Ticks(Started, Increment, k).active
    ensures !Ticks(Started, Increment, 10 + m).active
  {
    assert Steps(9, Increment) == 0.9;
    assert Steps(10, Increment) == 1.0;
    TransitionLength(Increment, 10, m);
  }

  // ---------------------------------------------------------------------
  // The function keys

  /**
    One digit key: the current function becomes the last one and `name`
    the current one; a transition starts only when the function changes.
   */
  function Press(c: Choice, name: FunctionName): Choice
  {
    Choice(name, c.current, if name != c.current then Started else c.transition)
  }

  /**
    Pressing a key makes its function the current one and the old current
    one the last; a different function restarts the transition at zero,
    the same function leaves it as it was.
   */
  lemma PressSelects(c: Choice, name: FunctionName)
    ensures Press(c, name).current == name && Press(c, name).last == c.current
    ensures name != c.current ==> Press(c, name).transition == Started
    ensures name == c.current ==> Press(c, name).transition == c.transition
    ensures Sane(c.transition) ==> Sane(Press(c, name).transition)
  {
  }

  /** The keys keep the transition sane, and any key sets the current function to the last key's. */
  lemma {:induction false} PressKeysSane(c: Choice, digits: seq<bool>)
    requires |digits| <= 5 && Sane(c.transition)
    ensures Sane(PressKeys(c, digits, Press).transition)
    ensures forall k :: 0 <= k < |digits| && digits[k] && (forall j :: k < j < |digits| ==> !digits[j]) ==>
      PressKeys(c, digits, Press).current == KeyFunctions[k]
    decreases |digits|
  {
    if |digits| > 0 {
      var init := digits[..|digits| - 1];
      PressKeysSane(c, init);
      forall k | 0 <= k < |digits| - 1 && digits[k] && (forall j :: k < j < |digits| ==> !digits[j])
        ensures PressKeys(c, digits, Press).current == KeyFunctions[k]
      {
        assert forall j :: k < j < |init| ==> !init[j];
      }
    }
  }

  // ---------------------------------------------------------------------
  // The resolution keys

  /** `resoUp` or `resoDown` after the key's down and up events of one frame. */
  function Held(held: bool, pressed: bool, released: bool): (r: bool)
    ensures r <==> (held || pressed) && !released
  {
    var h := if pressed then true else held;
    if released then false else h
  }

  /** One frame of the held keys: up adds one up to 1000, then down takes one down to 10. */
  function ResolutionStep(resolution: int, up: bool, down: bool): int
  {
    var r := if up then (if resolution + 1 < MaxResolution then resolution + 1 else MaxResolution) else resolution;
    if down then (if r - 1 > MinResolution then r - 1 else MinResolution) else r
  }

  /** The held keys keep the resolution in [10, 1000] and move it by at most one. */
  lemma ResolutionInRange(resolution: int, up: bool, down: bool)
    requires MinResolution <= resolution <= MaxResolution
    ensures MinResolution <= ResolutionStep(resolution, up, down) <= MaxResolution
    ensures -1 <= ResolutionStep(resolution, up, down) - resolution <= 1
    ensures !up && !down ==> ResolutionStep(resolution, up, down) == resolution
  {
  }

  /** Holding both keys changes nothing, except at 1000, where the clamp makes it 999. */
  lemma BothKeysHeld(resolution: int)
    requires MinResolution <= resolution <= MaxResolution
    ensures ResolutionStep(resolution, true, true) == if resolution == MaxResolution then MaxResolution - 1 else resolution
  {
  }

  /** The resolution after `n` frames with the same keys held. */
  function Hold(resolution: int, up: bool, down: bool, n: nat): int
  {
    if n == 0 then resolution else ResolutionStep(Hold(resolution, up, down, n - 1), up, down)
  }

  /** Holding up for `n` frames adds `n`, up to 1000; holding down takes `n`, down to 10. */
  lemma {:induction false} HoldFor(resolution: int, n: nat)
    requires MinResolution <= resolution <= MaxResolution
    ensures Hold(resolution, true, false, n) == if resolution + n < MaxResolution then resolution + n else MaxResolution
    ensures Hold(resolution, false, true, n) == if resolution - n > MinResolution then resolution - n else MinResolution
    decreases n
  {
    if n > 0 {
      HoldFor(resolution, n - 1);
    }
  }

  // ---------------------------------------------------------------------
  // What a frame hands to the shader

  /** `Mathf.CeilToInt(resolution / 8.0f)`: the thread groups of eight per side. */
  function GroupCount(resolution: int): (groups: int)
    ensures 8 * groups >= resolution && 8 * (groups - 1) < resolution
  {
    (resolution + 7) / 8
  }

  /** The values `UpdateFunctionOnGPU` sets on the shader and the material, and the draw call's counts. */
  datatype Dispatch = Dispatch(
    resolution: int,
    step: real,
    functionNew: nat,
    functionLast: nat,
    isTransition: real,
    progress: real,
    time: real,
    groups: int,
    instances: int,
    boundsSize: real)

  /** The hand-over for a state: grid size, step, the two functions' indices, the transition and the counts. */
  function DispatchFor(resolution: int, c: Choice, time: real): (d: Dispatch)
    requires MinResolution <= resolution <= MaxResolution
    ensures 8 * d.groups >= resolution && 8 * (d.groups - 1) < resolution
    ensures d.instances == resolution * resolution <= Capacity
    ensures d.step > 0.0 && d.resolution == resolution && d.time == time
    ensures (d.isTransition == 1.0 <==> c.transition.active) && (d.isTransition == 0.0 <==> !c.transition.active)
    ensures d.functionNew < 5 && d.functionLast < 5
    ensures KeyFunctions[d.functionNew] == c.current && KeyFunctions[d.functionLast] == c.last
    ensures d.progress == c.transition.progress
  {
    assert resolution * resolution <= MaxResolution * MaxResolution by {
      SquareMonotone(resolution, MaxResolution);
    }
    Dispatch(resolution, 2.0 / resolution as real, FunctionIndex(c.current), FunctionIndex(c.last),
             if c.transition.active then 1.0 else 0.0, c.transition.progress, time,
             GroupCount(resolution), resolution * resolution, 2.0 + 2.0 / resolution as real)
  }

  lemma SquareMonotone(a: nat, b: nat)
    requires a <= b
    ensures a * a <= b * b
  {
    assert a * a <= a * b <= b * b;
  }

  // ---------------------------------------------------------------------
  // The component

  class GPUGraph {
    var resolution: int
    /** The field `function` (a keyword here). */
    var functionName: FunctionName
    var lastFunction: FunctionName
    var isTransition: bool
    var progress: real
    var resoUp: bool
    var resoDown: bool
    /** Whether `positionsBuffer` exists, and how many positions it holds. */
    var buffered: bool
    var capacity: int

    /** The resolution is in the inspector's range, the transition is sane, and a buffer fits the largest grid. */
    ghost predicate Valid()
      reads this
    {
      MinResolution <= resolution <= MaxResolution &&
      Sane(Transition(isTransition, progress)) &&
      (buffered ==> capacity == Capacity)
    }

    ghost function Chosen(): Choice
      reads this
    {
      Choice(functionName, lastFunction, Transition(isTransition, progress))
    }

    /** The inspector values; `lastFunction` starts as the default `Wave`, with no transition. */
    constructor (resolution: int, functionName: FunctionName)
      requires MinResolution <= resolution <= MaxResolution
      ensures Valid() && !buffered && !resoUp && !resoDown
      ensures this.resolution == resolution && Chosen() == Choice(functionName, Wave, Transition(false, 0.0))
    {
      this.resolution := resolution;
      this.functionName := functionName;
      lastFunction := Wave;
      isTransition := false;
      progress := 0.0;
      resoUp, resoDown := false, false;
      buffered, capacity := false, 0;
    }

    /** Allocates the positions buffer for the largest grid. */
    method OnEnable()
      modifies this
      ensures buffered && capacity == Capacity
      ensures resolution == old(resolution) && Chosen() == old(Chosen())
      ensures resoUp == old(resoUp) && resoDown == old(resoDown)
    {
      buffered, capacity := true, MaxResolution * MaxResolution;
    }

    /** Releases the buffer. */
    method OnDisable()
      requires buffered
      modifies this
      ensures !buffered
      ensures resolution == old(resolution) && Chosen() == old(Chosen())
      ensures resoUp == old(resoUp) && resoDown == old(resoDown)
    {
      buffered := false;
    }

    /** The start of `Update`: a running transition moves on by 0.1 and stops at one. */
    method Advance()
      requires Valid()
      modifies this
      ensures Valid()
      ensures Transition(isTransition, progress) == Tick(old(Transition(isTransition, progress)), Increment)
      ensures resolution == old(resolution) && functionName == old(functionName) && lastFunction == old(lastFunction)
      ensures resoUp == old(resoUp) && resoDown == old(resoDown) && buffered == old(buffered) && capacity == old(capacity)
    {
      if isTransition {
        progress := progress + 0.1;
        if progress >= 1.0 {
          isTransition := false;
        }
      }
    }

    /** Hands the current state to the shader and draws `resolution * resolution` instances. */
    method UpdateFunctionOnGPU(time: real) returns (d: Dispatch)
      requires Valid() && buffered
      ensures d == DispatchFor(resolution, Chosen(), time)
      ensures d.instances <= capacity
    {
      var step := 2.0 / resolution as real;
      var transitionFlag := if isTransition then 1.0 else 0.0;
      var groups := GroupCount(resolution);
      d := Dispatch(resolution, step, FunctionIndex(functionName), FunctionIndex(lastFunction),
                    transitionFlag, progress, time, groups, resolution * resolution,
                    2.0 + 2.0 / resolution as real);
    }

    /** One digit key going down. */
    method SelectFunction(name: FunctionName)
      requires Valid()
      modifies this
      ensures Valid()
      ensures Chosen() == Press(old(Chosen()), name)
      ensures resolution == old(resolution) && resoUp == old(resoUp) && resoDown == old(resoDown)
      ensures buffered == old(buffered) && capacity == old(capacity)
    {
      lastFunction := functionName;
      functionName := name;
      if functionName != lastFunction {
        isTransition := true;
        progress := 0.0;
      }
    }

    /** One digit key's block of `Update`: a press when the key went down this frame. */
    method DigitKey(down: bool, name: FunctionName)
      requires Valid()
      modifies this
      ensures Valid()
      ensures Chosen() == if down then Press(old(Chosen()), name) else old(Chosen())
      ensures resolution == old(resolution) && resoUp == old(resoUp) && resoDown == old(resoDown)
      ensures buffered == old(buffered) && capacity == old(capacity)
    {
      if down {
        SelectFunction(name);
      }
    }

    /** The five digit keys, 1 to 5 in order. */
    method SelectFunctions(digits: seq<bool>)
      requires Valid() && |digits| == 5
      modifies this
      ensures Valid()
      ensures Chosen() == PressKeys(old(Chosen()), digits, Press)
      ensures resolution == old(resolution) && resoUp == old(resoUp) && resoDown == old(resoDown)
      ensures buffered == old(buffered) && capacity == old(capacity)
    {
      ghost var start := Chosen();
      assert digits[..0] == [];
      DigitKey(digits[0], Wave);
      PressKeysStep(start, digits, Press, 0);
      DigitKey(digits[1], MultiWave);
      PressKeysStep(start, digits, Press, 1);
      DigitKey(digits[2], Ripple);
      PressKeysStep(start, digits, Press, 2);
      DigitKey(digits[3], Sphere);
      PressKeysStep(start, digits, Press, 3);
      DigitKey(digits[4], Torus);
      PressKeysStep(start, digits, Press, 4);
      assert digits[..5] == digits;
    }

    /** The arrow keys: update what is held, then step the resolution. */
    method ResolutionKeys(upPressed: bool, upReleased: bool, downPressed: bool, downReleased: bool)
      requires Valid()
      modifies this
      ensures Valid()
      ensures resoUp == Held(old(resoUp), upPressed, upReleased)
      ensures resoDown == Held(old(resoDown), downPressed, downReleased)
      ensures resolution == ResolutionStep(old(resolution), resoUp, resoDown)
      ensures Chosen() == old(Chosen()) && buffered == old(buffered) && capacity == old(capacity)
    {
      if upPressed { resoUp := true; }
      if upReleased { resoUp := false; }
      if downPressed { resoDown := true; }
      if downReleased { resoDown := false; }
      StepResolution();
    }

    /** The held keys: up adds one and clamps to 1000, then down takes one and clamps to 10. */
    method StepResolution()
      requires Valid()
      modifies this
      ensures Valid()
      ensures resolution == ResolutionStep(old(resolution), resoUp, resoDown)
      ensures resoUp == old(resoUp) && resoDown == old(resoDown)
      ensures Chosen() == old(Chosen()) && buffered == old(buffered) && capacity == old(capacity)
    {
      var r := resolution;
      if resoUp {
        r := r + 1;
        r := if r < MaxResolution then r else MaxResolution;
      }
      if resoDown {
        r := r - 1;
        r := if r > MinResolution then r else MinResolution;
      }
      resolution := r;
    }

    /**
      One frame: advance the transition, hand the state over, then read the
      digit keys and the arrow keys. The hand-over sees the advanced
      transition and the resolution and functions from before the keys.
     */
    method Update(time: real, digits: seq<bool>,
                  upPressed: bool, upReleased: bool, downPressed: bool, downReleased: bool)
      returns (d: Dispatch)
      requires Valid() && buffered && |digits| == 5
      modifies this
      ensures Valid() && buffered && capacity == old(capacity)
      ensures var advanced := old(Chosen()).(transition := Tick(old(Chosen()).transition, Increment));
        d == DispatchFor(old(resolution), advanced, time) &&
        Chosen() == PressKeys(advanced, digits, Press)
      ensures d.instances <= capacity && (d.isTransition == 1.0 ==> d.progress < 1.0)
      ensures resoUp == Held(old(resoUp), upPressed, upReleased)
      ensures resoDown == Held(old(resoDown), downPressed, downReleased)
      ensures resolution == ResolutionStep(old(resolution), resoUp, resoDown)
    {
      Advance();
      d := UpdateFunctionOnGPU(time);
      SelectFunctions(digits);
      ResolutionKeys(upPressed, upReleased, downPressed, downReleased);
    }
  }
}
