/**
 * The wire keeper: the table of live wires, each with its value (once
 * computed), visibility, level and reference count.
 */
module WireKeeping {
  import opened Values
  import opened Gates

  /**
   * A live wire. `value` is None while the gate producing it is pending;
   * `level` is the level of that gate (0 for input wires) and `gate` its
   * position among the gates of that level (the back-link to the
   * producing gate; 0 for input wires).
   */
  datatype Wire = Wire(batch: bool, size: nat, vis: Vis, level: nat, gate: nat, refCount: nat, value: Option<Payload>)

  type Table = map<WireId, Wire>

  /** Every live wire has an index below the next one to hand out and is referenced. */
  ghost predicate TableOk(m: Table, nextIndex: nat) {
    forall w | w in m :: w.index < nextIndex && m[w].refCount >= 1
  }

  /** `count` consecutive ids, from index `n` on. */
  function FreshIds(kind: Kind, n: nat, count: nat): (r: seq<WireId>)
    ensures |r| == count
    ensures forall j :: 0 <= j < count ==> r[j] == WireId(kind, n + j)
  {
    seq(count, j requires 0 <= j < count => WireId(kind, n + j))
  }

  /** `vals` keyed by the ids `FreshIds(kind, n, |vals|)`, in order. */
  function FreshTable<T>(kind: Kind, n: nat, vals: seq<T>): (r: map<WireId, T>)
    ensures forall w :: w in r <==> w in FreshIds(kind, n, |vals|)
    ensures forall j :: 0 <= j < |vals| ==> r[FreshIds(kind, n, |vals|)[j]] == vals[j]
  {
    map w | w in FreshIds(kind, n, |vals|) :: vals[w.index - n]
  }

  /** The values of some computed wires, in order. */
  function ValuesOf(m: Table, ws: seq<WireId>): (r: seq<Payload>)
    requires forall w | w in ws :: w in m && m[w].value.Some?
    ensures |r| == |ws|
  {
    seq(|ws|, k requires 0 <= k < |ws| => m[ws[k]].value.value)
  }

  function Increased(m: Table, w: WireId): Table
    requires w in m
  {
    m[w := m[w].(refCount := m[w].refCount + 1)]
  }

  /** Drops one reference; the last one frees the wire. */
  function Decreased(m: Table, w: WireId): Table
    requires w in m
  {
    if m[w].refCount <= 1 then m - {w} else m[w := m[w].(refCount := m[w].refCount - 1)]
  }

  function IncreasedTimes(m: Table, w: WireId, n: nat): (r: Table)
    requires w in m
    ensures w in r && r[w].refCount == m[w].refCount + n
    ensures r.Keys == m.Keys
  {
    if n == 0 then m else Increased(IncreasedTimes(m, w, n - 1), w)
  }

  /** `n` decreases in a row; it stops at an unknown wire, as each would fail there. */
  function DecreasedTimes(m: Table, w: WireId, n: nat): Table {
    if n == 0 || w !in m then m else DecreasedTimes(Decreased(m, w), w, n - 1)
  }

  /** An increase followed by a decrease leaves the table as it was. */
  lemma IncreaseThenDecrease(m: Table, w: WireId)
    requires w in m && m[w].refCount >= 1
    ensures Decreased(Increased(m, w), w) == m
  {
  }

  /** `n` increases followed by `n` decreases leave the table as it was. */
  lemma {:induction false} ReferenceRoundTrip(m: Table, w: WireId, n: nat)
    requires w in m && m[w].refCount >= 1
    ensures DecreasedTimes(IncreasedTimes(m, w, n), w, n) == m
  {
    if n > 0 {
      var t := IncreasedTimes(m, w, n - 1);
      IncreaseThenDecrease(t, w);
      assert DecreasedTimes(IncreasedTimes(m, w, n), w, n) == DecreasedTimes(t, w, n - 1);
      ReferenceRoundTrip(m, w, n - 1);
    }
  }

  /** A decrease that reaches zero frees exactly that wire: one live wire fewer. */
  lemma LastDecreaseFrees(m: Table, w: WireId)
    requires w in m && m[w].refCount == 1
    ensures Decreased(m, w) == m - {w}
    ensures |Decreased(m, w)| == |m| - 1
  {
  }

  /** A decrease that does not reach zero frees nothing. */
  lemma DecreaseKeepsOthersLive(m: Table, w: WireId)
    requires w in m && m[w].refCount > 1
    ensures Decreased(m, w).Keys == m.Keys
    ensures Decreased(m, w)[w].refCount == m[w].refCount - 1
  {
  }

  class WireKeeper {
    var wires: Table
    /** The next slot index; since slots are never reused, also the number allocated so far. */
    var nextIndex: nat

    ghost predicate Valid()
      reads this
    {
      TableOk(wires, nextIndex)
    }

    constructor ()
      ensures Valid() && wires == map[] && nextIndex == 0
    {
      wires := map[];
      nextIndex := 0;
    }

    method Allocate(kind: Kind, w: Wire) returns (id: WireId)
      requires Valid() && w.refCount >= 1
      modifies this
      ensures Valid()
      ensures id == WireId(kind, old(nextIndex)) && id !in old(wires)
      ensures nextIndex == old(nextIndex) + 1
      ensures wires == old(wires)[id := w]
    {
      id := WireId(kind, nextIndex);
      wires := wires[id := w];
      nextIndex := nextIndex + 1;
    }

    /** Allocates a wire for each record, with consecutive indices. */
    method AllocateAll(kind: Kind, recs: seq<Wire>) returns (ids: seq<WireId>)
      requires Valid() && forall j :: 0 <= j < |recs| ==> recs[j].refCount >= 1
      modifies this
      ensures Valid()
      ensures ids == FreshIds(kind, old(nextIndex), |recs|)
      ensures nextIndex == old(nextIndex) + |recs|
      ensures wires == old(wires) + FreshTable(kind, old(nextIndex), recs)
    {
      ids := FreshIds(kind, nextIndex, |recs|);
      var added := FreshTable(kind, nextIndex, recs);
      forall w | w in added
        ensures w.index < nextIndex + |recs| && added[w].refCount >= 1
      {
        var j :| 0 <= j < |recs| && ids[j] == w;
      }
      wires := wires + added;
      nextIndex := nextIndex + |recs|;
    }

    /** Records a computed value; a wire freed in the meantime stays freed. */
    method SetValue(id: WireId, v: Payload)
      requires Valid()
      modifies this
      ensures Valid() && nextIndex == old(nextIndex)
      ensures wires == if id in old(wires) then old(wires)[id := old(wires)[id].(value := Some(v))] else old(wires)
    {
      if id in wires {
        wires := wires[id := wires[id].(value := Some(v))];
      }
    }

    method IncreaseReferenceCount(id: WireId) returns (o: Outcome)
      requires Valid()
      modifies this
      ensures Valid() && nextIndex == old(nextIndex)
      ensures o == if id in old(wires) then Pass else Fail(InvalidWireError)
      ensures wires == if id in old(wires) then Increased(old(wires), id) else old(wires)
    {
      if id !in wires {
        return Fail(InvalidWireError);
      }
      wires := Increased(wires, id);
      o := Pass;
    }

    method DecreaseReferenceCount(id: WireId) returns (o: Outcome)
      requires Valid()
      modifies this
      ensures Valid() && nextIndex == old(nextIndex)
      ensures o == if id in old(wires) then Pass else Fail(InvalidWireError)
      ensures wires == if id in old(wires) then Decreased(old(wires), id) else old(wires)
    {
      if id !in wires {
        return Fail(InvalidWireError);
      }
      wires := Decreased(wires, id);
      o := Pass;
    }

    /** (wires allocated so far, wires still live). */
    function GetWireStatistics(): (nat, nat)
      reads this
    {
      var live: nat := |wires|;
      (nextIndex, live)
    }
  }
}
