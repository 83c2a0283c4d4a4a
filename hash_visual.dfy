/**
  The hash visualiser: a square grid of `resolution * resolution` cells,
  each coloured by the SmallXXHash of its centred grid coordinates under a
  seed, and the keys that pick a new seed or change the resolution.

  The job computes the row of cell `i` as `floor(i * (1 / resolution))` in
  single precision; here the row is the exact quotient `i / resolution`.
 */
module HashVisual {
  import opened Word
  import opened XXHash

  /** The inspector range of `resolution` is [1, 512]. */
  const MaxResolution := 512

  /** The centred coordinates (u, v) of cell `i`, as HashJob computes them. */
  function Coordinates(i: nat, resolution: int): (uv: (int32, int32))
    requires 1 <= resolution <= MaxResolution && i < resolution * resolution
    ensures -(resolution / 2) <= uv.0 as int < resolution - resolution / 2
    ensures -(resolution / 2) <= uv.1 as int < resolution - resolution / 2
    ensures uv.0 as int == i % resolution - resolution / 2
    ensures uv.1 as int == i / resolution - resolution / 2
    ensures i == (uv.1 as int + resolution / 2) * resolution + (uv.0 as int + resolution / 2)
  {
    GridSplit(i, resolution);
    ((i % resolution - resolution / 2) as int32, (i / resolution - resolution / 2) as int32)
  }

  /** Cell `i` of an n-by-n grid lies in row i / n < n and column i % n. */
  lemma GridSplit(i: nat, n: int)
    requires 1 <= n && i < n * n
    ensures 0 <= i / n < n && 0 <= i % n < n
    ensures i == (i / n) * n + i % n
  {
    var v := i / n;
    assert v >= n ==> v * n >= n * n;
  }

  /** The value HashJob stores for cell `i`: the avalanche of hash.Eat(u).Eat(v). */
  function CellHash(hash: SmallXXHash, i: nat, resolution: int): uint
    requires 1 <= resolution <= MaxResolution && i < resolution * resolution
  {
    var uv := Coordinates(i, resolution);
    hash.Eat(uv.0).Eat(uv.1).Avalanche()
  }

  /** `hashes` holds the stored value of every cell of the grid, and nothing else. */
  ghost predicate HashesMatch(hashes: seq<uint>, hash: SmallXXHash, resolution: int)
    requires 1 <= resolution <= MaxResolution
  {
    |hashes| == resolution * resolution &&
    forall i :: 0 <= i < |hashes| ==> hashes[i] == CellHash(hash, i, resolution)
  }

  /** Two cells of one row have the same hash only if they are the same cell. */
  lemma SameRowDistinct(hash: SmallXXHash, i: nat, j: nat, resolution: int)
    requires 1 <= resolution <= MaxResolution
    requires i < resolution * resolution && j < resolution * resolution
    requires i / resolution == j / resolution
    ensures CellHash(hash, i, resolution) == CellHash(hash, j, resolution) ==> i == j
  {
    var a, b := Coordinates(i, resolution), Coordinates(j, resolution);
    if CellHash(hash, i, resolution) == CellHash(hash, j, resolution) {
      var x, y := hash.Eat(a.0).Eat(a.1), hash.Eat(b.0).Eat(b.1);
      AvalancheBijective(x.accumulator, y.accumulator, 0);
      assert a.1 == b.1;
      EatInjective(hash.Eat(a.0), hash.Eat(b.0), a.1, b.1);
      EatInjective(hash, hash, a.0, b.0);
    }
  }

  /** Two cells of one column have the same hash only if they are the same cell. */
  lemma SameColumnDistinct(hash: SmallXXHash, i: nat, j: nat, resolution: int)
    requires 1 <= resolution <= MaxResolution
    requires i < resolution * resolution && j < resolution * resolution
    requires i % resolution == j % resolution
    ensures CellHash(hash, i, resolution) == CellHash(hash, j, resolution) ==> i == j
  {
    var a, b := Coordinates(i, resolution), Coordinates(j, resolution);
    if CellHash(hash, i, resolution) == CellHash(hash, j, resolution) {
      var x, y := hash.Eat(a.0).Eat(a.1), hash.Eat(b.0).Eat(b.1);
      AvalancheBijective(x.accumulator, y.accumulator, 0);
      assert a.0 == b.0;
      EatInjective(hash.Eat(a.0), hash.Eat(b.0), a.1, b.1);
      assert a.1 == b.1;
    }
  }

  /** `HashJob.Execute(i)`: writes the hash of cell `i` and no other entry. */
  method Execute(hashes: array<uint>, resolution: int, hash: SmallXXHash, i: int)
    requires 1 <= resolution <= MaxResolution && hashes.Length == resolution * resolution
    requires 0 <= i < hashes.Length
    modifies hashes
    ensures hashes[i] == CellHash(hash, i, resolution)
    ensures forall k :: 0 <= k < hashes.Length && k != i ==> hashes[k] == old(hashes[k])
  {
    var uv := Coordinates(i, resolution);
    var v := i / resolution;
    var u := i - resolution * v - resolution / 2;
    v := v - resolution / 2;
    assert u == uv.0 as int && v == uv.1 as int by {
      GridSplit(i, resolution);
    }
    hashes[i] := hash.Eat(u as int32).Eat(v as int32).Avalanche();
  }

  /**
    The parallel-for over all cells, run one index after another: each
    index writes only its own entry, so the order does not matter.
   */
  method RunHashJob(hashes: array<uint>, resolution: int, hash: SmallXXHash)
    requires 1 <= resolution <= MaxResolution && hashes.Length == resolution * resolution
    modifies hashes
    ensures HashesMatch(hashes[..], hash, resolution)
  {
    var i := 0;
    while i < hashes.Length
      invariant 0 <= i <= hashes.Length
      invariant forall k :: 0 <= k < i ==> hashes[k] == CellHash(hash, k, resolution)
    {
      Execute(hashes, resolution, hash, i);
      i := i + 1;
    }
  }

  /** The up-arrow key: five more cells per side, at most 500. */
  function UpKey(resolution: int): int
  {
    if resolution + 5 < 500 then resolution + 5 else 500
  }

  /** The down-arrow key: five fewer cells per side, at least 5. */
  function DownKey(resolution: int): int
  {
    if resolution - 5 > 5 then resolution - 5 else 5
  }

  /**
    From any inspector resolution the up key lands in [6, 500] and the down
    key in [5, 507]; each moves the resolution the way its arrow points
    exactly when it starts inside the range it clamps to.
   */
  lemma KeysInRange(resolution: int)
    requires 1 <= resolution <= MaxResolution
    ensures 6 <= UpKey(resolution) <= 500 && 5 <= DownKey(resolution) <= MaxResolution - 5
    ensures UpKey(resolution) >= resolution <==> resolution <= 500
    ensures DownKey(resolution) <= resolution <==> resolution >= 5
    ensures 5 <= DownKey(UpKey(resolution)) <= 495
  {
  }

  /** Away from the bounds, the two keys undo each other. */
  lemma KeysUndo(resolution: int)
    ensures 5 <= resolution <= 495 ==> DownKey(UpKey(resolution)) == resolution
    ensures 10 <= resolution <= 500 ==> UpKey(DownKey(resolution)) == resolution
  {
  }

  /** The component, with the fields its callbacks read and write. */
  class HashVisual {
    var seed: int32
    var resolution: int
    /** The native array of hashes. */
    var hashes: array<uint>
    /** Unity's `enabled` flag. */
    var enabled: bool
    /** Whether the native array and compute buffer are buffered (`hashesBuffer != null`). */
    var buffered: bool

    /** The fields are in range and the buffers exist only while enabled. */
    ghost predicate Settled()
      reads this
    {
      1 <= resolution <= MaxResolution && (buffered ==> enabled)
    }

    /** Allocated hashes are those of the current seed and resolution. */
    ghost predicate Valid()
      reads this, hashes
    {
      Settled() && (buffered ==> HashesMatch(hashes[..], Seed(seed), resolution))
    }

    /** The defaults: seed 0, resolution 16, enabled, nothing buffered yet. */
    constructor ()
      ensures Valid() && seed == 0 && resolution == 16 && enabled && !buffered
    {
      seed := 0;
      resolution := 16;
      hashes := new uint[0];
      enabled := true;
      buffered := false;
    }

    /** Allocates `resolution * resolution` entries and fills them with the job. */
    method OnEnable()
      requires Settled() && enabled
      modifies this
      ensures Valid() && buffered && fresh(hashes)
      ensures hashes.Length == resolution * resolution
      ensures seed == old(seed) && resolution == old(resolution) && enabled == old(enabled)
    {
      var length := resolution * resolution;
      hashes := new uint[length];
      RunHashJob(hashes, resolution, Seed(seed));
      buffered := true;
    }

    /** Releases the buffers. */
    method OnDisable()
      requires buffered
      modifies this
      ensures !buffered
      ensures seed == old(seed) && resolution == old(resolution) && enabled == old(enabled)
      ensures hashes == old(hashes)
    {
      buffered := false;
    }

    /** After a field changed: rebuild, but only while enabled with buffers buffered. */
    method OnValidate()
      requires Settled()
      modifies this
      ensures Valid()
      ensures seed == old(seed) && resolution == old(resolution) && enabled == old(enabled)
      ensures buffered == old(buffered)
      ensures old(buffered) ==> fresh(hashes)
      ensures !old(buffered) ==> hashes == old(hashes)
    {
      if buffered && enabled {
        OnDisable();
        OnEnable();
      }
    }

    /** The engine switching the component on or off. */
    method SetEnabled(value: bool)
      requires Valid() && (enabled ==> buffered)
      modifies this
      ensures Valid() && enabled == value && buffered == value
      ensures seed == old(seed) && resolution == old(resolution)
    {
      if value && !enabled {
        enabled := true;
        OnEnable();
      } else if !value && enabled {
        OnDisable();
        enabled := false;
      }
    }

    /**
      One frame. Space picks `randomSeed` (drawn from [0, 999)) and
      rebuilds; then the up arrow and then the down arrow each change the
      resolution by five within [5, 500] and rebuild.
     */
    method Update(space: bool, up: bool, down: bool, randomSeed: int32)
      requires Valid() && 0 <= randomSeed < 999
      modifies this
      ensures Valid()
      ensures seed == if space then randomSeed else old(seed)
      ensures resolution == (var r := if up then UpKey(old(resolution)) else old(resolution);
                             if down then DownKey(r) else r)
      ensures (up || down) ==> 5 <= resolution
      ensures up ==> resolution <= 500
      ensures enabled == old(enabled) && buffered == old(buffered)
      ensures buffered && (space || up || down) ==> fresh(hashes)
      ensures !(space || up || down) ==> hashes == old(hashes)
    {
      if space {
        seed := randomSeed;
        OnValidate();
      }
      if up {
        resolution := resolution + 5;
        resolution := if resolution < 500 then resolution else 500;
        OnValidate();
      }
      if down {
        resolution := resolution - 5;
        resolution := if resolution > 5 then resolution else 5;
        OnValidate();
      }
    }
  }
}
