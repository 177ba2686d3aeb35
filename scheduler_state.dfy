/**
 * The scheduler's invariant and the effect of executing levels, stated on
 * plain values: the wire table, the pending levels, the frontier and the
 * eager (plaintext) meaning of every wire ever created.
 */
module SchedulerState {
  import opened Values
  import opened Gates
  import opened Engines
  import opened WireKeeping
  import opened GateKeeping

  /** The plaintext of every wire ever created, as eager evaluation gives it. */
  type Ideal = map<WireId, Payload>

  function Lookup(ideal: Ideal, ws: seq<WireId>): (r: seq<Payload>)
    ensures |r| == |ws|
  {
    seq(|ws|, k requires 0 <= k < |ws| => if ws[k] in ideal then ideal[ws[k]] else Bools([]))
  }

  lemma LookupAt(ideal: Ideal, ws: seq<WireId>, k: nat)
    requires k < |ws| && ws[k] in ideal
    ensures Lookup(ideal, ws)[k] == ideal[ws[k]]
  {
  }

  /** The levels of some wires; a freed wire counts as level 0. */
  function InputLevels(wires: Table, ws: seq<WireId>): (r: seq<nat>)
    ensures |r| == |ws|
  {
    seq(|ws|, k requires 0 <= k < |ws| => if ws[k] in wires then wires[ws[k]].level else 0)
  }

  /** A live wire matches its plaintext, and holds a value exactly when its level has run. */
  ghost predicate WireOk(w: WireId, rec: Wire, v: Payload, frontier: nat) {
    && v.KindOf() == w.kind
    && v.Size() == rec.size
    && (!rec.batch ==> rec.size == 1)
    && (rec.value.Some? <==> rec.level < frontier)
    && (rec.value.Some? ==> rec.value.value == v)
  }

  /**
   * The gate at position `k` of level `l`: its inputs lie below `l`, its
   * live outputs point back to it, and the plaintext of its outputs is
   * what it computes from the plaintext of its inputs.
   */
  ghost predicate GateOk(g: Gate, l: nat, k: nat, wires: Table, ideal: Ideal) {
    && (forall i | i in g.inputs :: i in ideal && (i in wires ==> wires[i].level < l))
    && (forall o | o in g.outputs :: o in ideal && (o in wires ==> wires[o].level == l && wires[o].gate == k))
    && Compute(g.fn, Lookup(ideal, g.inputs)) == Lookup(ideal, g.outputs)
  }

  /** The gate a wire's back-link names is recorded and lists the wire among its outputs. */
  predicate Produced(w: WireId, rec: Wire, levels: map<nat, seq<Gate>>) {
    rec.gate < |At(levels, rec.level)| && w in At(levels, rec.level)[rec.gate].outputs
  }

  ghost predicate StateOk(wires: Table, nextIndex: nat, levels: map<nat, seq<Gate>>, frontier: nat, ideal: Ideal) {
    && TableOk(wires, nextIndex)
    && frontier >= 1
    && (forall l | l in levels :: l >= frontier)
    && (forall w | w in ideal :: w.index < nextIndex)
    && (forall w | w in wires :: w in ideal && WireOk(w, wires[w], ideal[w], frontier))
    && (forall l, k {:trigger GateOk(levels[l][k], l, k, wires, ideal)} | l in levels && 0 <= k < |levels[l]| :: GateOk(levels[l][k], l, k, wires, ideal))
    // every wire still pending is written by the gate its back-link names
    && (forall w | w in wires && wires[w].level >= frontier :: Produced(w, wires[w], levels))
  }

  /** The table once the levels `lo` to `hi - 1` have executed: their wires hold their plaintext. */
  ghost function MaterializeRange(wires: Table, lo: nat, hi: nat, ideal: Ideal): (r: Table)
    ensures r.Keys == wires.Keys
  {
    map w | w in wires ::
      if lo <= wires[w].level < hi && w in ideal then wires[w].(value := Some(ideal[w])) else wires[w]
  }

  /**
   * The table part way through level `l`: the outputs of its first `k`
   * gates, and the wires `done` of gate `k`, hold their plaintext.
   */
  ghost function Progress(wires: Table, l: nat, k: nat, done: seq<WireId>, ideal: Ideal): (r: Table)
    ensures r.Keys == wires.Keys
  {
    map w | w in wires ::
      if wires[w].level == l && w in ideal && (wires[w].gate < k || (wires[w].gate == k && w in done))
      then wires[w].(value := Some(ideal[w])) else wires[w]
  }

  /** What a level hands to the engine: its engine gates, in order. */
  function CallsOf(gs: seq<Gate>): seq<Call> {
    if gs == [] then []
    else
      var g := gs[|gs| - 1];
      CallsOf(gs[..|gs| - 1]) + if IsEngineGate(g.fn) then [Call(g.fn, g.elements)] else []
  }

  /** The round a level adds to the engine's log; none when no gate needs the engine. */
  function RoundOf(l: nat, gs: seq<Gate>): seq<Round> {
    var cs := CallsOf(gs);
    if cs == [] then [] else [Round(l, cs)]
  }

  /** The rounds executing the levels `lo` to `hi - 1`, one level after the other, produce. */
  function RoundsBetween(levels: map<nat, seq<Gate>>, lo: nat, hi: nat): seq<Round>
    decreases hi
  {
    if hi <= lo then [] else RoundsBetween(levels, lo, hi - 1) + RoundOf(hi - 1, At(levels, hi - 1))
  }

  /** Every input of every gate of `gs` is still live. */
  predicate InputsLive(live: set<WireId>, gs: seq<Gate>) {
    forall k, i | 0 <= k < |gs| && 0 <= i < |gs[k].inputs| :: gs[k].inputs[i] in live
  }

  /** The levels `lo` to `hi - 1` can all execute. */
  ghost predicate LevelsLive(live: set<WireId>, levels: map<nat, seq<Gate>>, lo: nat, hi: nat) {
    forall l | lo <= l < hi :: InputsLive(live, At(levels, l))
  }

  /** The pending output wires of a new gate at position `pos` of level `l`. */
  function PendingWires(batched: bool, sizes: seq<nat>, vis: Vis, l: nat, pos: nat): (r: seq<Wire>)
    ensures |r| == |sizes|
    ensures forall j :: 0 <= j < |sizes| ==> r[j] == Wire(batched, sizes[j], vis, l, pos, 1, None)
  {
    seq(|sizes|, j requires 0 <= j < |sizes| => Wire(batched, sizes[j], vis, l, pos, 1, None))
  }

  // ------ the log of rounds ------

  /** The calls of the first `k + 1` gates: those of the first `k`, then gate `k`'s if it is an engine gate. */
  lemma CallsOfPrefix(gs: seq<Gate>, k: nat)
    requires k < |gs|
    ensures CallsOf(gs[..k + 1]) == CallsOf(gs[..k]) + if IsEngineGate(gs[k].fn) then [Call(gs[k].fn, gs[k].elements)] else []
  {
    assert gs[..k + 1][..k] == gs[..k];
  }

  /** A level whose gates are all public-public or rebatching adds no engine round. */
  lemma {:induction false} LocalGatesMakeNoRound(l: nat, gs: seq<Gate>)
    requires forall k :: 0 <= k < |gs| ==> !IsEngineGate(gs[k].fn)
    ensures RoundOf(l, gs) == []
  {
    if gs != [] {
      LocalGatesMakeNoRound(l, gs[..|gs| - 1]);
    }
  }

  /** A level whose gates are all non-interactive hands the engine only non-interactive calls. */
  lemma {:induction false} CallsOfNonInteractive(gs: seq<Gate>)
    requires forall k :: 0 <= k < |gs| ==> !Interactive(gs[k].fn)
    ensures forall i :: 0 <= i < |CallsOf(gs)| ==> !Interactive(CallsOf(gs)[i].fn)
  {
    if gs != [] {
      CallsOfNonInteractive(gs[..|gs| - 1]);
    }
  }

  /**
   * The rounds of `RoundsBetween` run the levels `lo` to `hi - 1` in
   * strictly increasing order, each round holding all the engine gates
   * of its level; a level above `hi - 1` never runs.
   */
  lemma {:induction false} RoundsInOrder(levels: map<nat, seq<Gate>>, lo: nat, hi: nat)
    ensures forall i :: 0 <= i < |RoundsBetween(levels, lo, hi)| ==>
      var r := RoundsBetween(levels, lo, hi)[i];
      lo <= r.level < hi && r.calls == CallsOf(At(levels, r.level)) && r.calls != []
    ensures forall i, j :: 0 <= i < j < |RoundsBetween(levels, lo, hi)| ==>
      RoundsBetween(levels, lo, hi)[i].level < RoundsBetween(levels, lo, hi)[j].level
    decreases hi
  {
    if hi > lo {
      RoundsInOrder(levels, lo, hi - 1);
      var prev, last := RoundsBetween(levels, lo, hi - 1), RoundOf(hi - 1, At(levels, hi - 1));
      assert RoundsBetween(levels, lo, hi) == prev + last;
      assert forall i :: 0 <= i < |prev| ==> (prev + last)[i] == prev[i];
      assert forall i :: |prev| <= i < |prev + last| ==> (prev + last)[i] == Round(hi - 1, CallsOf(At(levels, hi - 1)));
    }
  }

  /** Every level from `lo` to `hi - 1` that has engine gates gets its round. */
  lemma {:induction false} RoundsComplete(levels: map<nat, seq<Gate>>, lo: nat, hi: nat, l: nat)
    requires lo <= l < hi && CallsOf(At(levels, l)) != []
    ensures exists i :: 0 <= i < |RoundsBetween(levels, lo, hi)| && RoundsBetween(levels, lo, hi)[i].level == l
    decreases hi
  {
    var rs := RoundsBetween(levels, lo, hi);
    if l == hi - 1 {
      assert rs[|rs| - 1].level == l;
    } else {
      RoundsComplete(levels, lo, hi - 1, l);
      var i :| 0 <= i < |RoundsBetween(levels, lo, hi - 1)| && RoundsBetween(levels, lo, hi - 1)[i].level == l;
      assert rs[i] == RoundsBetween(levels, lo, hi - 1)[i];
    }
  }

  /**
   * Running levels whose gates are all public-public or rebatching logs
   * no round at all: such a computation never calls the engine.
   */
  lemma {:induction false} LocalRangeMakesNoRounds(levels: map<nat, seq<Gate>>, lo: nat, hi: nat)
    requires forall l, k :: lo <= l < hi && 0 <= k < |At(levels, l)| ==> !IsEngineGate(At(levels, l)[k].fn)
    ensures RoundsBetween(levels, lo, hi) == []
    decreases hi
  {
    if hi > lo {
      LocalRangeMakesNoRounds(levels, lo, hi - 1);
      LocalGatesMakeNoRound(hi - 1, At(levels, hi - 1));
    }
  }

  /**
   * Running levels without an interactive gate (no private AND, MULT,
   * composite AND or open) exchanges nothing, whatever rounds it logs.
   */
  lemma {:induction false} NonInteractiveRangeIsFree(levels: map<nat, seq<Gate>>, lo: nat, hi: nat)
    requires forall l, k :: lo <= l < hi && 0 <= k < |At(levels, l)| ==> !Interactive(At(levels, l)[k].fn)
    ensures Traffic(RoundsBetween(levels, lo, hi)) == 0
    decreases hi
  {
    if hi > lo {
      NonInteractiveRangeIsFree(levels, lo, hi - 1);
      var gs := At(levels, hi - 1);
      var last := RoundOf(hi - 1, gs);
      TrafficAppend(RoundsBetween(levels, lo, hi - 1), last);
      if last != [] {
        CallsOfNonInteractive(gs);
        LocalCallsAreFree(CallsOf(gs));
        assert Traffic(last) == Traffic([]) + CallsCost(CallsOf(gs));
      }
    }
  }

  // ------ executing levels one after another ------

  /** The levels `lo` to `f` can all execute when those up to `f - 1` can and level `f` can. */
  lemma LevelsLiveStep(live: set<WireId>, levels: map<nat, seq<Gate>>, lo: nat, f: nat)
    requires lo <= f
    requires LevelsLive(live, levels, lo, f)
    ensures LevelsLive(live, levels, lo, f + 1) <==> InputsLive(live, At(levels, f))
  {
  }

  /** A level in the range that cannot execute keeps the whole range from executing. */
  lemma LevelsLiveBlocked(live: set<WireId>, levels: map<nat, seq<Gate>>, lo: nat, f: nat, hi: nat)
    requires lo <= f < hi
    requires !InputsLive(live, At(levels, f))
    ensures !LevelsLive(live, levels, lo, hi)
  {
  }

  // ------ running one level, gate by gate ------

  lemma ProgressStart(wires: Table, l: nat, ideal: Ideal)
    ensures Progress(wires, l, 0, [], ideal) == wires
  {
  }

  /** Writing the plaintext of an output of gate `k` advances the progress by that wire. */
  lemma ProgressWrite(wires: Table, l: nat, k: nat, done: seq<WireId>, ideal: Ideal, o: WireId)
    requires o in ideal
    requires o in wires ==> wires[o].level == l && wires[o].gate == k
    ensures var cur := Progress(wires, l, k, done, ideal);
      (if o in cur then cur[o := cur[o].(value := Some(ideal[o]))] else cur) == Progress(wires, l, k, done + [o], ideal)
  {
  }

  /** Once every output of gate `k` is written, the progress moves to gate `k + 1`. */
  lemma ProgressNextGate(wires: Table, l: nat, k: nat, outs: seq<WireId>, ideal: Ideal)
    requires forall w | w in wires && wires[w].level == l && wires[w].gate == k :: w in outs
    ensures Progress(wires, l, k, outs, ideal) == Progress(wires, l, k + 1, [], ideal)
  {
  }

  /** Once every gate of the level is run, all of the level's wires hold their plaintext. */
  lemma ProgressDone(wires: Table, l: nat, count: nat, ideal: Ideal)
    requires forall w | w in wires && wires[w].level == l :: wires[w].gate < count
    ensures Progress(wires, l, count, [], ideal) == MaterializeRange(wires, l, l + 1, ideal)
  {
  }

  /** The gates of the frontier level account for every wire pending at it. */
  lemma FrontierGatesCover(wires: Table, n: nat, levels: map<nat, seq<Gate>>, f: nat, ideal: Ideal)
    requires StateOk(wires, n, levels, f, ideal)
    ensures forall w | w in wires && wires[w].level == f :: wires[w].gate < |At(levels, f)|
    ensures forall w, k | w in wires && wires[w].level == f && wires[w].gate == k && k < |At(levels, f)| ::
      w in At(levels, f)[k].outputs
  {
    forall w | w in wires && wires[w].level == f
      ensures wires[w].gate < |At(levels, f)| && w in At(levels, f)[wires[w].gate].outputs
    {
      assert Produced(w, wires[w], levels);
    }
  }

  // ------ changes that keep the invariant ------

  lemma LookupExtends(ideal: Ideal, ideal': Ideal, ws: seq<WireId>)
    requires forall w | w in ws :: w in ideal
    requires forall w | w in ideal :: w in ideal' && ideal'[w] == ideal[w]
    ensures Lookup(ideal', ws) == Lookup(ideal, ws)
  {
  }

  /** A new input wire, already computed at level 0, keeps the invariant. */
  lemma AddInputKeepsStateOk(wires: Table, n: nat, levels: map<nat, seq<Gate>>, f: nat, ideal: Ideal,
                             id: WireId, rec: Wire, v: Payload)
    requires StateOk(wires, n, levels, f, ideal)
    requires id.index == n
    requires rec.level == 0 && rec.refCount >= 1 && rec.value == Some(v)
    requires WireOk(id, rec, v, f)
    ensures StateOk(wires[id := rec], n + 1, levels, f, ideal[id := v])
  {
    var wires', ideal' := wires[id := rec], ideal[id := v];
    assert id !in wires && id !in ideal;
    forall l, k | l in levels && 0 <= k < |levels[l]|
      ensures GateOk(levels[l][k], l, k, wires', ideal')
    {
      var g := levels[l][k];
      assert GateOk(g, l, k, wires, ideal);
      LookupExtends(ideal, ideal', g.inputs);
      LookupExtends(ideal, ideal', g.outputs);
    }
  }

  /** The facts about the fresh outputs of a new gate that the invariant needs. */
  ghost predicate FreshOutputs(wires: Table, n: nat, ideal: Ideal, wires': Table, ideal': Ideal, g: Gate, l: nat, pos: nat) {
    && (forall j :: 0 <= j < |g.outputs| ==> g.outputs[j].index == n + j)
    && (forall w :: w in wires' <==> w in wires || w in g.outputs)
    && (forall w | w in wires :: wires'[w] == wires[w])
    && (forall w :: w in ideal' <==> w in ideal || w in g.outputs)
    && (forall w | w in ideal :: ideal'[w] == ideal[w])
    && (forall o | o in g.outputs ::
          && wires'[o].level == l && wires'[o].gate == pos && wires'[o].refCount >= 1 && wires'[o].value == None
          && ideal'[o].KindOf() == o.kind && ideal'[o].Size() == wires'[o].size
          && (!wires'[o].batch ==> wires'[o].size == 1))
  }

  /** Fresh ids lie at or above `n`, so adding them to a map below `n` keeps what it held. */
  lemma FreshTableExtends<T>(m: map<WireId, T>, kind: Kind, n: nat, vals: seq<T>)
    requires forall w | w in m :: w.index < n
    ensures forall w :: w in m + FreshTable(kind, n, vals) <==> w in m || w in FreshIds(kind, n, |vals|)
    ensures forall w | w in m :: (m + FreshTable(kind, n, vals))[w] == m[w]
    ensures forall j :: 0 <= j < |vals| ==> (m + FreshTable(kind, n, vals))[FreshIds(kind, n, |vals|)[j]] == vals[j]
  {
    assert forall w | w in m :: w !in FreshTable(kind, n, vals);
  }

  /** Adding fresh wires to the table and to the plaintext gives fresh outputs. */
  lemma FreshTablesGiveFreshOutputs(wires: Table, n: nat, ideal: Ideal, g: Gate, l: nat, pos: nat,
                                    kind: Kind, batched: bool, vis: Vis, sizes: seq<nat>, vals: seq<Payload>)
    requires TableOk(wires, n) && forall w | w in ideal :: w.index < n
    requires |sizes| == |vals|
    requires forall j :: 0 <= j < |vals| ==> vals[j].KindOf() == kind && vals[j].Size() == sizes[j]
    requires !batched ==> forall j :: 0 <= j < |sizes| ==> sizes[j] == 1
    requires g.outputs == FreshIds(kind, n, |vals|)
    ensures FreshOutputs(wires, n, ideal, wires + FreshTable(kind, n, PendingWires(batched, sizes, vis, l, pos)),
                         ideal + FreshTable(kind, n, vals), g, l, pos)
    ensures Lookup(ideal + FreshTable(kind, n, vals), g.outputs) == vals
  {
    var recs := PendingWires(batched, sizes, vis, l, pos);
    var wires', ideal' := wires + FreshTable(kind, n, recs), ideal + FreshTable(kind, n, vals);
    FreshTableExtends(wires, kind, n, recs);
    FreshTableExtends(ideal, kind, n, vals);
    forall o | o in g.outputs
      ensures && wires'[o].level == l && wires'[o].gate == pos && wires'[o].refCount >= 1 && wires'[o].value == None
              && ideal'[o].KindOf() == o.kind && ideal'[o].Size() == wires'[o].size
              && (!wires'[o].batch ==> wires'[o].size == 1)
    {
      var j :| 0 <= j < |g.outputs| && g.outputs[j] == o;
      assert wires'[o] == recs[j];
      assert ideal'[o] == vals[j];
    }
    var got := Lookup(ideal', g.outputs);
    forall j | 0 <= j < |vals|
      ensures got[j] == vals[j]
    {
      assert g.outputs[j] in ideal';
    }
  }

  /** A gate already pending stays consistent when fresh wires are added. */
  lemma EnqueueKeepsGateOk(wires: Table, n: nat, ideal: Ideal, wires': Table, ideal': Ideal, g: Gate, l: nat, pos: nat,
                           h: Gate, l0: nat, k0: nat)
    requires forall w | w in ideal :: w.index < n
    requires FreshOutputs(wires, n, ideal, wires', ideal', g, l, pos)
    requires GateOk(h, l0, k0, wires, ideal)
    ensures GateOk(h, l0, k0, wires', ideal')
  {
    forall i | i in h.inputs && i in wires'
      ensures i in wires
    {
      assert i in ideal;
    }
    forall o | o in h.outputs && o in wires'
      ensures o in wires
    {
      assert o in ideal;
    }
    LookupExtends(ideal, ideal', h.inputs);
    LookupExtends(ideal, ideal', h.outputs);
  }

  /** The new gate itself is consistent. */
  lemma EnqueuedGateOk(wires: Table, n: nat, ideal: Ideal, wires': Table, ideal': Ideal, g: Gate, l: nat, pos: nat)
    requires forall w | w in wires :: w in ideal
    requires forall i | i in g.inputs :: i in wires && wires[i].level < l
    requires FreshOutputs(wires, n, ideal, wires', ideal', g, l, pos)
    requires Lookup(ideal', g.outputs) == Compute(g.fn, Lookup(ideal, g.inputs))
    ensures GateOk(g, l, pos, wires', ideal')
  {
    LookupExtends(ideal, ideal', g.inputs);
  }

  /** Fresh outputs keep every live wire consistent. */
  lemma EnqueueKeepsWiresOk(wires: Table, n: nat, levels: map<nat, seq<Gate>>, f: nat, ideal: Ideal,
                            wires': Table, ideal': Ideal, g: Gate, l: nat, pos: nat)
    requires StateOk(wires, n, levels, f, ideal)
    requires l >= f
    requires FreshOutputs(wires, n, ideal, wires', ideal', g, l, pos)
    ensures TableOk(wires', n + |g.outputs|)
    ensures forall w | w in ideal' :: w.index < n + |g.outputs|
    ensures forall w | w in wires' :: w in ideal' && WireOk(w, wires'[w], ideal'[w], f)
  {
    forall w | w in wires'
      ensures w.index < n + |g.outputs| && wires'[w].refCount >= 1
      ensures w in ideal' && WireOk(w, wires'[w], ideal'[w], f)
    {
      if w !in wires {
        var j :| 0 <= j < |g.outputs| && g.outputs[j] == w;
      }
    }
    forall w | w in ideal'
      ensures w.index < n + |g.outputs|
    {
      if w !in ideal {
        var j :| 0 <= j < |g.outputs| && g.outputs[j] == w;
      }
    }
  }

  /** Every gate, the new one included, stays consistent. */
  lemma EnqueueKeepsGatesOk(wires: Table, n: nat, levels: map<nat, seq<Gate>>, f: nat, ideal: Ideal,
                            wires': Table, ideal': Ideal, g: Gate, l: nat, levels': map<nat, seq<Gate>>)
    requires StateOk(wires, n, levels, f, ideal)
    requires forall i | i in g.inputs :: i in wires && wires[i].level < l
    requires FreshOutputs(wires, n, ideal, wires', ideal', g, l, |At(levels, l)|)
    requires Lookup(ideal', g.outputs) == Compute(g.fn, Lookup(ideal, g.inputs))
    requires levels' == levels[l := At(levels, l) + [g]]
    ensures forall l0, k | l0 in levels' && 0 <= k < |levels'[l0]| :: GateOk(levels'[l0][k], l0, k, wires', ideal')
  {
    var pos := |At(levels, l)|;
    forall l0, k | l0 in levels' && 0 <= k < |levels'[l0]|
      ensures GateOk(levels'[l0][k], l0, k, wires', ideal')
    {
      if l0 == l && k == pos {
        assert levels'[l0][k] == g;
        EnqueuedGateOk(wires, n, ideal, wires', ideal', g, l, pos);
      } else {
        assert levels'[l0][k] == levels[l0][k];
        EnqueueKeepsGateOk(wires, n, ideal, wires', ideal', g, l, pos, levels[l0][k], l0, k);
      }
    }
  }

  /** Every pending wire, the fresh ones included, keeps its back-link. */
  lemma EnqueueKeepsProduced(wires: Table, n: nat, levels: map<nat, seq<Gate>>, f: nat, ideal: Ideal,
                             wires': Table, ideal': Ideal, g: Gate, l: nat, levels': map<nat, seq<Gate>>)
    requires StateOk(wires, n, levels, f, ideal)
    requires FreshOutputs(wires, n, ideal, wires', ideal', g, l, |At(levels, l)|)
    requires levels' == levels[l := At(levels, l) + [g]]
    ensures forall w | w in wires' && wires'[w].level >= f :: Produced(w, wires'[w], levels')
  {
    forall w | w in wires' && wires'[w].level >= f
      ensures Produced(w, wires'[w], levels')
    {
      if w in wires {
        assert Produced(w, wires[w], levels);
      }
    }
  }

  /**
   * Recording a gate above its live inputs, at the end of its level, with
   * fresh pending outputs that hold its plaintext, keeps the invariant.
   */
  lemma EnqueueKeepsStateOk(wires: Table, n: nat, levels: map<nat, seq<Gate>>, f: nat, ideal: Ideal,
                            g: Gate, l: nat, kind: Kind, batched: bool, vis: Vis, sizes: seq<nat>, vals: seq<Payload>,
                            wires': Table, n': nat, levels': map<nat, seq<Gate>>, ideal': Ideal)
    requires StateOk(wires, n, levels, f, ideal)
    requires l >= f
    requires forall i | i in g.inputs :: i in wires && wires[i].level < l
    requires vals == Compute(g.fn, Lookup(ideal, g.inputs))
    requires |sizes| == |vals|
    requires forall j :: 0 <= j < |vals| ==> vals[j].KindOf() == kind && vals[j].Size() == sizes[j]
    requires !batched ==> forall j :: 0 <= j < |sizes| ==> sizes[j] == 1
    requires g.outputs == FreshIds(kind, n, |sizes|)
    requires wires' == wires + FreshTable(kind, n, PendingWires(batched, sizes, vis, l, |At(levels, l)|))
    requires ideal' == ideal + FreshTable(kind, n, vals)
    requires n' == n + |sizes|
    requires levels' == levels[l := At(levels, l) + [g]]
    ensures StateOk(wires', n', levels', f, ideal')
    ensures Lookup(ideal', g.outputs) == vals
  {
    var pos := |At(levels, l)|;
    FreshTablesGiveFreshOutputs(wires, n, ideal, g, l, pos, kind, batched, vis, sizes, vals);
    EnqueueKeepsWiresOk(wires, n, levels, f, ideal, wires', ideal', g, l, pos);
    EnqueueKeepsGatesOk(wires, n, levels, f, ideal, wires', ideal', g, l, levels');
    EnqueueKeepsProduced(wires, n, levels, f, ideal, wires', ideal', g, l, levels');
  }

  /** Changing reference counts, or freeing wires, keeps the invariant. */
  lemma ReferencesKeepStateOk(wires: Table, n: nat, levels: map<nat, seq<Gate>>, f: nat, ideal: Ideal, wires': Table)
    requires StateOk(wires, n, levels, f, ideal)
    requires wires'.Keys <= wires.Keys
    requires forall w | w in wires' :: wires'[w] == wires[w].(refCount := wires'[w].refCount) && wires'[w].refCount >= 1
    ensures StateOk(wires', n, levels, f, ideal)
  {
    forall w | w in wires' && wires'[w].level >= f
      ensures Produced(w, wires'[w], levels)
    {
      assert Produced(w, wires[w], levels);
    }
    forall l, k | l in levels && 0 <= k < |levels[l]|
      ensures GateOk(levels[l][k], l, k, wires', ideal)
    {
      assert GateOk(levels[l][k], l, k, wires, ideal);
    }
  }

  // ------ the scheduler's state as one value ------

  /** The wire table, the pending levels, the frontier and the plaintext of every wire. */
  datatype State = State(wires: Table, nextIndex: nat, levels: map<nat, seq<Gate>>, frontier: nat, ideal: Ideal)

  ghost predicate Consistent(s: State) {
    StateOk(s.wires, s.nextIndex, s.levels, s.frontier, s.ideal)
  }

  /** The level a gate over `inputs` is recorded at. */
  function LevelOf(s: State, inputs: seq<WireId>): nat {
    NextLevel(s.frontier, InputLevels(s.wires, inputs))
  }

  /**
   * The state once a gate over `inputs` is recorded: fresh pending output
   * wires at the gate's level, the gate appended to that level, and the
   * outputs' plaintext what the gate computes from its inputs'.
   */
  function Record(s: State, fn: GateFn, inputs: seq<WireId>, kind: Kind, batched: bool, vis: Vis,
                  sizes: seq<nat>, elements: nat): State
  {
    var l := LevelOf(s, inputs);
    var n := s.nextIndex;
    State(s.wires + FreshTable(kind, n, PendingWires(batched, sizes, vis, l, |At(s.levels, l)|)),
          n + |sizes|,
          s.levels[l := At(s.levels, l) + [Gate(fn, inputs, FreshIds(kind, n, |sizes|), elements)]],
          s.frontier,
          s.ideal + FreshTable(kind, n, Compute(fn, Lookup(s.ideal, inputs))))
  }

  /**
   * A gate over `inputs` can be recorded with outputs of kind `kind` and
   * lengths `sizes`: its inputs are live, and its plaintext results are
   * exactly that many payloads of that kind and those lengths (of length
   * one each when the outputs are not batches).
   */
  ghost predicate RecordFits(s: State, fn: GateFn, inputs: seq<WireId>, kind: Kind, batched: bool, sizes: seq<nat>) {
    && (forall i | i in inputs :: i in s.wires)
    && |Compute(fn, Lookup(s.ideal, inputs))| == |sizes|
    && (forall j :: 0 <= j < |sizes| ==>
          Compute(fn, Lookup(s.ideal, inputs))[j].KindOf() == kind && Compute(fn, Lookup(s.ideal, inputs))[j].Size() == sizes[j])
    && (!batched ==> forall j :: 0 <= j < |sizes| ==> sizes[j] == 1)
  }

  /**
   * The state once the frontier level has run: its wires hold their
   * plaintext, it is gone from the pending levels and the frontier is one up.
   */
  ghost function Executed(s: State): State {
    State(MaterializeRange(s.wires, s.frontier, s.frontier + 1, s.ideal), s.nextIndex,
          s.levels - {s.frontier}, s.frontier + 1, s.ideal)
  }

  /** The round (none or one) running the frontier level adds to the engine's log. */
  function LevelRound(s: State): seq<Round> {
    RoundOf(s.frontier, At(s.levels, s.frontier))
  }

  /** The state once every level below `hi` has run, one after the other. */
  ghost function Ran(s: State, hi: nat): State
    decreases hi
  {
    if hi <= s.frontier then s else Executed(Ran(s, hi - 1))
  }

  /** A recorded gate sits above every one of its inputs and at or above the frontier. */
  lemma RecordedAboveInputs(s: State, inputs: seq<WireId>)
    requires forall i | i in inputs :: i in s.wires
    ensures LevelOf(s, inputs) >= s.frontier
    ensures forall i | i in inputs :: s.wires[i].level < LevelOf(s, inputs)
  {
    forall i | i in inputs
      ensures s.wires[i].level < LevelOf(s, inputs)
    {
      var k :| 0 <= k < |inputs| && inputs[k] == i;
      assert InputLevels(s.wires, inputs)[k] == s.wires[i].level;
    }
  }

  /** Recording a gate over live wires, whose results fit its outputs, keeps the state consistent. */
  lemma RecordKeepsConsistent(s: State, fn: GateFn, inputs: seq<WireId>, kind: Kind, batched: bool, vis: Vis,
                              sizes: seq<nat>, elements: nat)
    requires Consistent(s) && RecordFits(s, fn, inputs, kind, batched, sizes)
    ensures Consistent(Record(s, fn, inputs, kind, batched, vis, sizes, elements))
  {
    var l := LevelOf(s, inputs);
    RecordedAboveInputs(s, inputs);
    var r := Record(s, fn, inputs, kind, batched, vis, sizes, elements);
    var g := Gate(fn, inputs, FreshIds(kind, s.nextIndex, |sizes|), elements);
    EnqueueKeepsStateOk(s.wires, s.nextIndex, s.levels, s.frontier, s.ideal, g, l, kind, batched, vis, sizes,
                        Compute(fn, Lookup(s.ideal, inputs)), r.wires, r.nextIndex, r.levels, r.ideal);
  }

  /** The plaintext of a recorded gate's `j`-th output is the gate's `j`-th result. */
  lemma RecordedOutput(s: State, fn: GateFn, inputs: seq<WireId>, kind: Kind, batched: bool, vis: Vis,
                       sizes: seq<nat>, elements: nat, j: nat)
    requires forall w | w in s.ideal :: w.index < s.nextIndex
    requires j < |sizes| == |Compute(fn, Lookup(s.ideal, inputs))|
    ensures WireId(kind, s.nextIndex + j) in Record(s, fn, inputs, kind, batched, vis, sizes, elements).ideal
    ensures Record(s, fn, inputs, kind, batched, vis, sizes, elements).ideal[WireId(kind, s.nextIndex + j)]
         == Compute(fn, Lookup(s.ideal, inputs))[j]
  {
    FreshTableAt(s.ideal, kind, s.nextIndex, Compute(fn, Lookup(s.ideal, inputs)), j);
  }

  /**
   * `o` is a fresh wire of `r`, pending at a level not yet run and above
   * every one of `inputs`, with one reference and the given shape.
   */
  ghost predicate FreshPending(s: State, r: State, o: WireId, batched: bool, size: nat, vis: Vis, inputs: seq<WireId>) {
    && o !in s.wires && o in r.wires
    && r.wires[o].value == None && r.wires[o].refCount == 1
    && r.wires[o].batch == batched && r.wires[o].size == size && r.wires[o].vis == vis
    && r.wires[o].level >= s.frontier
    && forall i | i in inputs :: i in s.wires && s.wires[i].level < r.wires[o].level
  }

  /**
   * Recording a gate that fits keeps the state consistent, and its `j`-th
   * output is a fresh pending wire whose plaintext is the gate's `j`-th result.
   */
  lemma RecordedFresh(s: State, fn: GateFn, inputs: seq<WireId>, kind: Kind, batched: bool, vis: Vis,
                      sizes: seq<nat>, elements: nat, j: nat)
    requires Consistent(s) && RecordFits(s, fn, inputs, kind, batched, sizes)
    requires j < |sizes|
    ensures Consistent(Record(s, fn, inputs, kind, batched, vis, sizes, elements))
    ensures FreshPending(s, Record(s, fn, inputs, kind, batched, vis, sizes, elements), WireId(kind, s.nextIndex + j),
                         batched, sizes[j], vis, inputs)
    ensures WireId(kind, s.nextIndex + j) in Record(s, fn, inputs, kind, batched, vis, sizes, elements).ideal
    ensures Record(s, fn, inputs, kind, batched, vis, sizes, elements).ideal[WireId(kind, s.nextIndex + j)]
         == Compute(fn, Lookup(s.ideal, inputs))[j]
  {
    RecordKeepsConsistent(s, fn, inputs, kind, batched, vis, sizes, elements);
    RecordedOutput(s, fn, inputs, kind, batched, vis, sizes, elements, j);
    RecordedAboveInputs(s, inputs);
    var l := LevelOf(s, inputs);
    FreshTableAt(s.wires, kind, s.nextIndex, PendingWires(batched, sizes, vis, l, |At(s.levels, l)|), j);
  }

  /**
   * Gate `k` of the running level `l` can run once the table is `wires`:
   * it is consistent, its inputs are live and computed, and it is the
   * producer of every wire whose back-link names it.
   */
  ghost predicate GateReady(g: Gate, l: nat, k: nat, wires: Table, ideal: Ideal) {
    && GateOk(g, l, k, wires, ideal)
    && (forall i | i in g.inputs :: i in wires && i in ideal && wires[i].value == Some(ideal[i]))
    && (forall w | w in wires && wires[w].level == l && wires[w].gate == k :: w in g.outputs)
  }

  /** Every gate of the frontier level can run when its inputs are live. */
  lemma LevelReady(s: State)
    requires Consistent(s) && InputsLive(s.wires.Keys, At(s.levels, s.frontier))
    ensures forall k | 0 <= k < |At(s.levels, s.frontier)| :: GateReady(At(s.levels, s.frontier)[k], s.frontier, k, s.wires, s.ideal)
  {
    var f, gs := s.frontier, At(s.levels, s.frontier);
    FrontierGatesCover(s.wires, s.nextIndex, s.levels, f, s.ideal);
    forall k | 0 <= k < |gs|
      ensures GateReady(gs[k], f, k, s.wires, s.ideal)
    {
      assert GateOk(s.levels[f][k], f, k, s.wires, s.ideal);
      forall i | i in gs[k].inputs
        ensures i in s.wires && i in s.ideal && s.wires[i].value == Some(s.ideal[i])
      {
        var x :| 0 <= x < |gs[k].inputs| && gs[k].inputs[x] == i;
        assert WireOk(i, s.wires[i], s.ideal[i], f);
      }
    }
  }

  /**
   * Running the frontier level gate by gate is running it, and the state
   * `t` that results is consistent.
   */
  lemma LevelRan(s: State, t: State)
    requires Consistent(s)
    requires t.wires == Progress(s.wires, s.frontier, |At(s.levels, s.frontier)|, [], s.ideal)
    requires t.nextIndex == s.nextIndex && t.levels == s.levels - {s.frontier} && t.frontier == s.frontier + 1
    requires t.ideal == s.ideal
    ensures t == Executed(s)
  {
    FrontierDone(s.wires, s.nextIndex, s.levels, s.frontier, s.ideal);
  }

  /** Running the frontier level of a consistent state reaches a consistent state. */
  lemma ExecutedConsistent(s: State)
    requires Consistent(s)
    ensures Consistent(Executed(s))
  {
    var t := Executed(s);
    forall l, k | l in t.levels && 0 <= k < |t.levels[l]|
      ensures GateOk(t.levels[l][k], l, k, t.wires, t.ideal)
    {
      assert GateOk(s.levels[l][k], l, k, s.wires, s.ideal);
    }
    forall w | w in t.wires && t.wires[w].level >= t.frontier
      ensures Produced(w, t.wires[w], t.levels)
    {
      assert At(t.levels, s.wires[w].level) == At(s.levels, s.wires[w].level);
    }
  }

  /** Once every gate of the frontier level has run, the level's wires all hold their plaintext. */
  lemma FrontierDone(wires: Table, n: nat, levels: map<nat, seq<Gate>>, f: nat, ideal: Ideal)
    requires StateOk(wires, n, levels, f, ideal)
    ensures Progress(wires, f, |At(levels, f)|, [], ideal) == MaterializeRange(wires, f, f + 1, ideal)
  {
    FrontierGatesCover(wires, n, levels, f, ideal);
    ProgressDone(wires, f, |At(levels, f)|, ideal);
  }

  lemma FreshTableAt<T>(m: map<WireId, T>, kind: Kind, n: nat, vals: seq<T>, j: nat)
    requires forall w | w in m :: w.index < n
    requires j < |vals|
    ensures WireId(kind, n + j) in m + FreshTable(kind, n, vals)
    ensures (m + FreshTable(kind, n, vals))[WireId(kind, n + j)] == vals[j]
  {
    FreshTableExtends(m, kind, n, vals);
    assert FreshIds(kind, n, |vals|)[j] == WireId(kind, n + j);
  }

  /**
   * Running levels moves the frontier to `hi` unless it is past it and
   * changes nothing but the values of wires below `hi`: the same wires
   * stay live, with the same shape, level, gate and references; the ids
   * handed out, the plaintext and the levels from `hi` on stay as they were.
   */
  lemma {:induction false} RanFrame(s: State, hi: nat)
    ensures Ran(s, hi).frontier == Max(s.frontier, hi)
    ensures Ran(s, hi).wires.Keys == s.wires.Keys
    ensures Ran(s, hi).nextIndex == s.nextIndex && Ran(s, hi).ideal == s.ideal
    ensures forall l | l >= hi :: At(Ran(s, hi).levels, l) == At(s.levels, l)
    ensures forall w | w in s.wires :: Ran(s, hi).wires[w] == s.wires[w].(value := Ran(s, hi).wires[w].value)
    ensures forall w | w in s.wires && s.wires[w].level >= hi :: Ran(s, hi).wires[w] == s.wires[w]
    decreases hi
  {
    if hi > s.frontier {
      RanFrame(s, hi - 1);
      var t := Ran(s, hi - 1);
      forall l | l >= hi
        ensures At(Ran(s, hi).levels, l) == At(s.levels, l)
      {
        assert At(Ran(s, hi).levels, l) == At(t.levels, l);
      }
      forall w | w in s.wires
        ensures Ran(s, hi).wires[w] == s.wires[w].(value := Ran(s, hi).wires[w].value)
        ensures s.wires[w].level >= hi ==> Ran(s, hi).wires[w] == s.wires[w]
      {
        assert t.wires[w].level == s.wires[w].level;
        assert Ran(s, hi).wires[w] == if t.wires[w].level == hi - 1 && w in t.ideal
          then t.wires[w].(value := Some(t.ideal[w])) else t.wires[w];
      }
    }
  }

  /** Running the levels below `hi` leaves level `l`, at or above `hi`, as it was. */
  lemma {:induction false} RanKeepsLevel(s: State, hi: nat, l: nat)
    requires hi <= l
    ensures Ran(s, hi).frontier == Max(s.frontier, hi)
    ensures At(Ran(s, hi).levels, l) == At(s.levels, l)
    decreases hi
  {
    if hi > s.frontier {
      RanKeepsLevel(s, hi - 1, l);
    }
  }

  /**
   * Once every level below `hi` has run, a wire of one of those levels
   * holds its plaintext, and nothing else about it changed.
   */
  lemma RanComputes(s: State, hi: nat, w: WireId)
    requires Consistent(s) && w in s.wires && s.wires[w].level < hi
    ensures w in Ran(s, hi).wires && w in s.ideal
    ensures Ran(s, hi).wires[w] == s.wires[w].(value := Some(s.ideal[w]))
  {
    RanFrame(s, hi);
    RanKeepsConsistent(s, hi);
    var t := Ran(s, hi);
    assert WireOk(w, t.wires[w], t.ideal[w], t.frontier);
  }

  /**
   * A state and log reached by running the levels below `f`, with the
   * frontier level run once more, are those reached by running the levels
   * below `f + 1`.
   */
  lemma RanNext(s: State, log: seq<Round>, f: nat, t: State, lt: seq<Round>, u: State, lu: seq<Round>)
    requires s.frontier <= f
    requires t == Ran(s, f) && lt == log + RoundsBetween(s.levels, s.frontier, f)
    requires u == Executed(t) && lu == lt + LevelRound(t)
    ensures u == Ran(s, f + 1) && lu == log + RoundsBetween(s.levels, s.frontier, f + 1)
  {
    RanKeepsLevel(s, f, f);
    var a, b := RoundsBetween(s.levels, s.frontier, f), RoundOf(f, At(s.levels, f));
    assert (log + a) + b == log + (a + b);
  }

  /** Running levels from a consistent state reaches a consistent state. */
  lemma {:induction false} RanKeepsConsistent(s: State, hi: nat)
    requires Consistent(s)
    ensures Consistent(Ran(s, hi))
    decreases hi
  {
    if hi > s.frontier {
      RanKeepsConsistent(s, hi - 1);
      ExecutedConsistent(Ran(s, hi - 1));
    }
  }

  /**
   * Running the levels below `lo`, then those below `hi`, is running the
   * levels below `hi`: forcing in two steps reaches the state forcing
   * once reaches, and forcing again what has run changes nothing.
   */
  lemma {:induction false} RanCompose(s: State, lo: nat, hi: nat)
    requires lo <= hi
    ensures Ran(Ran(s, lo), hi) == Ran(s, hi)
    decreases hi
  {
    RanKeepsLevel(s, lo, lo);
    var t := Ran(s, lo);
    if hi > t.frontier {
      RanCompose(s, lo, hi - 1);
      assert Ran(t, hi) == Executed(Ran(t, hi - 1));
      assert Ran(s, hi) == Executed(Ran(s, hi - 1));
    } else if lo < s.frontier {
      assert t == s && Ran(s, hi) == s;
    } else {
      assert hi == lo && Ran(t, hi) == t;
    }
  }

}
