/**
 * The gate keeper: pending gates grouped by level, and the first level
 * not yet executed (the frontier).
 */
module GateKeeping {
  import opened Values
  import opened Gates

  function Max(a: nat, b: nat): nat {
    if a < b then b else a
  }

  /** The largest of some levels, 0 for none. */
  function MaxOf(xs: seq<nat>): (m: nat)
    ensures forall i :: 0 <= i < |xs| ==> xs[i] <= m
    ensures xs == [] ==> m == 0
    ensures xs != [] ==> exists i :: 0 <= i < |xs| && xs[i] == m
  {
    if xs == [] then 0 else Max(xs[0], MaxOf(xs[1..]))
  }

  /** The gates recorded at level `l`, none when the level is absent. */
  function At(levels: map<nat, seq<Gate>>, l: nat): seq<Gate> {
    if l in levels then levels[l] else []
  }

  /**
   * The level a new gate is given: above every input and not yet executed.
   * With inputs all below the frontier this is the frontier itself.
   */
  function NextLevel(frontier: nat, inputLevels: seq<nat>): (l: nat)
    ensures l >= frontier
    ensures forall i :: 0 <= i < |inputLevels| ==> inputLevels[i] < l
    ensures frontier >= 1 ==> l == frontier || exists i :: 0 <= i < |inputLevels| && inputLevels[i] + 1 == l
  {
    var m := MaxOf(inputLevels);
    assert 1 + m > frontier >= 1 ==> inputLevels != [];
    Max(frontier, 1 + m)
  }

  class GateKeeper {
    var levels: map<nat, seq<Gate>>
    /** The first unexecuted level; levels below it have all run. */
    var frontier: nat

    ghost predicate Valid()
      reads this
    {
      frontier >= 1 && forall l | l in levels :: l >= frontier
    }

    constructor ()
      ensures Valid() && levels == map[] && frontier == 1
    {
      levels := map[];
      frontier := 1;
    }

    function GatesAt(l: nat): seq<Gate>
      reads this
    {
      At(levels, l)
    }

    /** The level for a gate whose inputs sit at `inputLevels`. */
    function LevelFor(inputLevels: seq<nat>): nat
      reads this
    {
      NextLevel(frontier, inputLevels)
    }

    method AddGate(g: Gate, level: nat)
      requires Valid() && level >= frontier
      modifies this
      ensures Valid() && frontier == old(frontier)
      ensures levels == old(levels)[level := old(GatesAt(level)) + [g]]
    {
      levels := levels[level := GatesAt(level) + [g]];
    }

    /** Takes out every gate of the frontier level and moves the frontier up by one. */
    method PopFirstUnexecutedLevel() returns (gs: seq<Gate>)
      requires Valid()
      modifies this
      ensures Valid()
      ensures gs == old(GatesAt(frontier))
      ensures levels == old(levels) - {old(frontier)}
      ensures frontier == old(frontier) + 1
    {
      gs := GatesAt(frontier);
      levels := levels - {frontier};
      frontier := frontier + 1;
    }
  }
}
