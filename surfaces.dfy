/**
  What the two math-surface scripts share: the five surface functions, the
  digit keys that pick them, and the transition that blends from the last
  function to the new one as its progress climbs to one.

  The surfaces themselves are trigonometry on floats; a position is kept
  here as the term that names it (which function, at which point, at
  which time, or which blend), so the scripts are modelled without it.
 */
module Surfaces {
  /** `FunctionLibrary.FunctionName`, in declaration order; `default` is `Wave`. */
  datatype FunctionName = Wave | MultiWave | Ripple | Sphere | Torus

  /** The function the digit key `k + 1` picks. */
  const KeyFunctions: seq<FunctionName> := [Wave, MultiWave, Ripple, Sphere, Torus]

  /** `(int)name`: the index of a name in the enum and in `functions`. */
  function FunctionIndex(name: FunctionName): (k: nat)
    ensures k < 5 && KeyFunctions[k] == name
  {
    match name
    case Wave => 0
    case MultiWave => 1
    case Ripple => 2
    case Sphere => 3
    case Torus => 4
  }

  /** The five keys pick five different functions. */
  lemma KeysDistinct(j: nat, k: nat)
    requires j < 5 && k < 5
    ensures KeyFunctions[j] == KeyFunctions[k] ==> j == k
    ensures FunctionIndex(KeyFunctions[k]) == k
  {
  }

  /** A point of a surface as the term that names it. */
  datatype Position =
    | Prefab
    | Surface(name: FunctionName, u: real, v: real, t: real)
    | Morph(u: real, v: real, t: real, from: FunctionName, to: FunctionName, progress: real)

  /** Whether a transition is running, and how far it has come. */
  datatype Transition = Transition(active: bool, progress: real)

  /** The transition both scripts start on a key press: running, at zero. */
  const Started := Transition(true, 0.0)

  /** One frame's step: a running transition moves on by `increment` and stops once it reaches one. */
  function Tick(t: Transition, increment: real): Transition
  {
    if t.active then
      var progress := t.progress + increment;
      Transition(progress < 1.0, progress)
    else t
  }

  /** The transition after `n` frames without a key press. */
  function Ticks(t: Transition, increment: real, n: nat): Transition
  {
    if n == 0 then t else Tick(Ticks(t, increment, n - 1), increment)
  }

  /** The transition state the shader may see: progress at least zero, and below one while running. */
  predicate Sane(t: Transition)
  {
    0.0 <= t.progress && (t.active ==> t.progress < 1.0)
  }

  /** A frame keeps a transition sane, and leaves a stopped one as it was. */
  lemma TickKeepsSane(t: Transition, increment: real)
    requires Sane(t) && 0.0 <= increment
    ensures Sane(Tick(t, increment))
    ensures !t.active ==> Tick(t, increment) == t
  {
  }

  /** The progress after `k` steps of `increment` from zero, added one at a time as the scripts do. */
  function Steps(k: nat, increment: real): real
  {
    if k == 0 then 0.0 else Steps(k - 1, increment) + increment
  }

  /** More steps of a positive increment come to more. */
  lemma {:induction false} StepsIncreasing(j: nat, k: nat, increment: real)
    requires j < k && 0.0 < increment
    ensures Steps(j, increment) < Steps(k, increment)
    decreases k
  {
    if j < k - 1 {
      StepsIncreasing(j, k - 1, increment);
    }
  }

  /** While `k` steps stay below one, a started transition runs with the progress of `k` steps. */
  lemma {:induction false} TicksActive(increment: real, k: nat)
    requires 0.0 < increment && Steps(k, increment) < 1.0
    ensures Ticks(Started, increment, k) == Transition(true, Steps(k, increment))
    decreases k
  {
    if k > 0 {
      StepsIncreasing(k - 1, k, increment);
      TicksActive(increment, k - 1);
    }
  }

  /**
    A started transition whose `n`-th step first reaches one runs for
    exactly `n` frames and then stays stopped.
   */
  lemma {:induction false} TransitionLength(increment: real, n: nat, m: nat)
    requires 0.0 < increment && 1 <= n
    requires Steps(n - 1, increment) < 1.0 <= Steps(n, increment)
    ensures forall k :: 0 <= k < n ==> Ticks(Started, increment, k).active
    ensures Ticks(Started, increment, n + m) == Transition(false, Steps(n, increment))
    decreases m
  {
    forall k | 0 <= k < n
      ensures Ticks(Started, increment, k).active
    {
      if k < n - 1 {
        StepsIncreasing(k, n - 1, increment);
      }
      TicksActive(increment, k);
    }
    if m == 0 {
      TicksActive(increment, n - 1);
    } else {
      TransitionLength(increment, n, m - 1);
      assert Ticks(Started, increment, n + m) == Tick(Ticks(Started, increment, n + m - 1), increment);
    }
  }

  // ---------------------------------------------------------------------
  // The digit keys

  /** `function`, `lastFunction` and the transition. */
  datatype Choice = Choice(current: FunctionName, last: FunctionName, transition: Transition)

  /**
    The digit keys 1 to |digits| in order, `digits[k]` saying whether key
    k + 1 went down, each press handled by the script's `press`.
   */
  function PressKeys(c: Choice, digits: seq<bool>, press: (Choice, FunctionName) -> Choice): Choice
    requires |digits| <= 5
  {
    if |digits| == 0 then c
    else
      var before := PressKeys(c, digits[..|digits| - 1], press);
      if digits[|digits| - 1] then press(before, KeyFunctions[|digits| - 1]) else before
  }

  /** The keys up to k + 1 are the keys up to k, then key k + 1 if it went down. */
  lemma PressKeysStep(c: Choice, digits: seq<bool>, press: (Choice, FunctionName) -> Choice, k: nat)
    requires k < |digits| <= 5
    ensures PressKeys(c, digits[..k + 1], press) ==
      if digits[k] then press(PressKeys(c, digits[..k], press), KeyFunctions[k]) else PressKeys(c, digits[..k], press)
  {
    assert digits[..k + 1][..k] == digits[..k];
  }

  /** With no digit key down, the choice stays as it was. */
  lemma {:induction false} NoKeysNoChange(c: Choice, digits: seq<bool>, press: (Choice, FunctionName) -> Choice)
    requires |digits| <= 5 && forall k :: 0 <= k < |digits| ==> !digits[k]
    ensures PressKeys(c, digits, press) == c
    decreases |digits|
  {
    if |digits| > 0 {
      NoKeysNoChange(c, digits[..|digits| - 1], press);
    }
  }

  /** With only key k + 1 down, the frame is that one key press. */
  lemma {:induction false} OneKey(c: Choice, digits: seq<bool>, press: (Choice, FunctionName) -> Choice, k: nat)
    requires |digits| <= 5 && k < |digits| && digits[k]
    requires forall j :: 0 <= j < |digits| && j != k ==> !digits[j]
    ensures PressKeys(c, digits, press) == press(c, KeyFunctions[k])
    decreases |digits|
  {
    var init := digits[..|digits| - 1];
    if k == |digits| - 1 {
      NoKeysNoChange(c, init, press);
    } else {
      OneKey(c, init, press, k);
    }
  }
}
