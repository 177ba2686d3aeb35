/**
 * The lazy scheduler. A gate call checks its operands, records the gate
 * with the gate keeper at the lowest level above its inputs that has not
 * yet run, and returns fresh output wires that hold no value yet. Only
 * forcing a wire (extracting a share or reading a value) runs the
 * recorded levels up to that wire's, in increasing order, handing each
 * level's gates to the engine as one batch.
 */
module LazySchedulers {
  import opened Values
  import opened Gates
  import opened Engines
  import opened WireKeeping
  import opened GateKeeping
  import opened SchedulerState
  import opened GateChecks

  class LazyScheduler {
    const engine: Engine
    const wireKeeper: WireKeeper
    const gateKeeper: GateKeeper
    /** The plaintext of every wire created so far, as eager evaluation would compute it. */
    ghost var ideal: Ideal

    /** The wire table, pending levels, frontier and plaintext, as one value. */
    ghost function Snapshot(): State
      reads this, wireKeeper, gateKeeper
    {
      State(wireKeeper.wires, wireKeeper.nextIndex, gateKeeper.levels, gateKeeper.frontier, ideal)
    }

    ghost predicate Valid()
      reads this, engine, wireKeeper, gateKeeper
    {
      Consistent(Snapshot()) && engine.scheduled == []
    }

    constructor (engine: Engine, wireKeeper: WireKeeper, gateKeeper: GateKeeper)
      requires engine.scheduled == []
      requires wireKeeper.wires == map[]
      requires gateKeeper.levels == map[] && gateKeeper.frontier >= 1
      ensures Valid()
      ensures this.engine == engine && this.wireKeeper == wireKeeper && this.gateKeeper == gateKeeper
      ensures ideal == map[]
    {
      this.engine := engine;
      this.wireKeeper := wireKeeper;
      this.gateKeeper := gateKeeper;
      ideal := map[];
    }

    /**
     * What running the levels up to `level` did: the frontier passed it,
     * the wires of the levels run hold their plaintext, those levels are
     * gone from the gate keeper, and the engine logged one round for each
     * of them that had engine gates, in order.
     */
    twostate predicate RanTill(level: nat)
      reads this, wireKeeper, gateKeeper, engine
    {
      && engine.rounds == old(engine.rounds) + RoundsBetween(old(Snapshot()).levels, old(Snapshot()).frontier, level + 1)
      && Snapshot() == Ran(old(Snapshot()), level + 1)
    }

    /**
     * What running levels that stopped at level `f` did: the levels below
     * `f` ran as `RanTill` describes, and a gate of level `f` reads a wire
     * that was freed before the run started.
     */
    twostate predicate StoppedAt(f: nat)
      reads this, wireKeeper, gateKeeper, engine
    {
      && old(gateKeeper.frontier) <= f
      && engine.rounds == old(engine.rounds) + RoundsBetween(old(Snapshot()).levels, old(Snapshot()).frontier, f)
      && Snapshot() == Ran(old(Snapshot()), f)
      && LevelsLive(old(wireKeeper.wires).Keys, old(gateKeeper.levels), old(gateKeeper.frontier), f)
      && !InputsLive(old(wireKeeper.wires).Keys, At(old(gateKeeper.levels), f))
    }

    /**
     * What forcing the live wire `id` did. A wire already computed comes
     * back with nothing run and nothing changed. Otherwise forcing succeeds
     * exactly when no gate of the levels up to the wire's reads a freed
     * wire; then those levels have run (`RanTill`) and the wire holds, and
     * returns, its eager plaintext. A failure is InvalidWireError, with
     * the run stopped at the first level that reads a freed wire.
     */
    twostate predicate Forced(id: WireId, new r: Result<Payload>)
      requires id in old(wireKeeper.wires)
      reads this, wireKeeper, gateKeeper, engine
    {
      var level := old(wireKeeper.wires[id].level);
      && (r.Ok? <==> LevelsLive(old(wireKeeper.wires).Keys, old(gateKeeper.levels), old(gateKeeper.frontier), level + 1))
      && (r.Ok? ==> id in ideal && r.value == ideal[id] && RanTill(level))
      && (r.Ok? ==> id in wireKeeper.wires && wireKeeper.wires[id] == old(wireKeeper.wires[id]).(value := Some(r.value)))
      && (r.Err? ==> r.error == InvalidWireError && exists f: nat :: f <= level && StoppedAt(f))
      && (old(wireKeeper.wires[id].value.Some?) ==>
            r == Ok(old(wireKeeper.wires[id].value.value)) && unchanged(wireKeeper, gateKeeper, engine))
    }

    // ======== inputs ========

    /**
     * A new wire that holds `v` from the start, at level 0: a private
     * input, a public input or a recovered share, scalar or batch.
     */
    method Input(v: Payload, vis: Vis, batched: bool) returns (id: WireId)
      requires Valid()
      requires batched || v.Size() == 1
      modifies this, wireKeeper
      ensures Valid()
      ensures id == WireId(v.KindOf(), old(wireKeeper.nextIndex)) && id !in old(wireKeeper.wires)
      ensures wireKeeper.wires == old(wireKeeper.wires)[id := Wire(batched, v.Size(), vis, 0, 0, 1, Some(v))]
      ensures wireKeeper.nextIndex == old(wireKeeper.nextIndex) + 1
      ensures ideal == old(ideal)[id := v]
    {
      var rec := Wire(batched, v.Size(), vis, 0, 0, 1, Some(v));
      AddInputKeepsStateOk(wireKeeper.wires, wireKeeper.nextIndex, gateKeeper.levels, gateKeeper.frontier, ideal,
                           WireId(v.KindOf(), wireKeeper.nextIndex), rec, v);
      id := wireKeeper.Allocate(v.KindOf(), rec);
      ideal := ideal[id := v];
    }

    // ======== recording gates ========

    /** Records a gate over live `inputs`, with fresh pending outputs of the given sizes. */
    method Enqueue(fn: GateFn, inputs: seq<WireId>, kind: Kind, batched: bool, vis: Vis,
                   sizes: seq<nat>, elements: nat) returns (outs: seq<WireId>)
      requires Valid() && RecordFits(Snapshot(), fn, inputs, kind, batched, sizes)
      modifies this, wireKeeper, gateKeeper
      ensures Valid()
      ensures outs == FreshIds(kind, old(wireKeeper.nextIndex), |sizes|)
      ensures Snapshot() == Record(old(Snapshot()), fn, inputs, kind, batched, vis, sizes, elements)
    {
      ghost var s0 := Snapshot();
      outs := AddPending(s0, fn, inputs, kind, batched, vis, sizes, elements);
      RecordKeepsConsistent(s0, fn, inputs, kind, batched, vis, sizes, elements);
    }

    /** The state changes of `Enqueue`, apart from the invariant they keep. */
    method AddPending(ghost s0: State, fn: GateFn, inputs: seq<WireId>, kind: Kind, batched: bool, vis: Vis,
                      sizes: seq<nat>, elements: nat) returns (outs: seq<WireId>)
      requires s0 == Snapshot() && wireKeeper.Valid() && gateKeeper.Valid()
      requires forall i | i in inputs :: i in s0.wires
      modifies this, wireKeeper, gateKeeper
      ensures wireKeeper.Valid() && gateKeeper.Valid()
      ensures outs == FreshIds(kind, s0.nextIndex, |sizes|)
      ensures Snapshot() == Record(s0, fn, inputs, kind, batched, vis, sizes, elements)
    {
      var level := gateKeeper.LevelFor(InputLevels(wireKeeper.wires, inputs));
      assert level == LevelOf(s0, inputs);
      RecordedAboveInputs(s0, inputs);
      var pos := |gateKeeper.GatesAt(level)|;
      var n := wireKeeper.nextIndex;
      outs := wireKeeper.AllocateAll(kind, PendingWires(batched, sizes, vis, level, pos));
      ideal := ideal + FreshTable(kind, n, Compute(fn, Lookup(ideal, inputs)));
      gateKeeper.AddGate(Gate(fn, inputs, outs, elements), level);
      ghost var r := Record(s0, fn, inputs, kind, batched, vis, sizes, elements);
      assert wireKeeper.wires == r.wires && wireKeeper.nextIndex == r.nextIndex && gateKeeper.levels == r.levels;
    }

    /**
     * The two-input gates: `privateAndPrivate`, `privateXorPublic`,
     * `publicPlusPublicBatch` and the rest, by operator, visibility
     * pattern and batchness.
     */
    method BinaryGate(op: BinOp, pattern: Pattern, batched: bool, left: WireId, right: WireId) returns (r: Result<WireId>)
      requires Valid()
      requires left.kind == op.OperandKind() && right.kind == op.OperandKind()
      modifies this, wireKeeper, gateKeeper
      ensures Valid()
      ensures r == Err(InvalidWireError) <==> left !in old(wireKeeper.wires) || right !in old(wireKeeper.wires)
      ensures r == Err(ValidationError) <==>
        left in old(wireKeeper.wires) && right in old(wireKeeper.wires) &&
        !BinaryFits(pattern, batched, old(wireKeeper.wires[left]), old(wireKeeper.wires[right]))
      ensures r.Err? ==> (r.error == InvalidWireError || r.error == ValidationError) && unchanged(this, wireKeeper, gateKeeper)
      ensures r.Ok? ==> r.value == WireId(op.OperandKind(), old(wireKeeper.nextIndex))
      ensures r.Ok? ==> Snapshot() == Record(old(Snapshot()), Binary(op, pattern), [left, right], op.OperandKind(), batched,
                                             pattern.OutVis(), [old(wireKeeper.wires[left].size)], old(wireKeeper.wires[left].size))
    {
      if left !in wireKeeper.wires || right !in wireKeeper.wires {
        return Err(InvalidWireError);
      }
      var l, rt := wireKeeper.wires[left], wireKeeper.wires[right];
      if !BinaryFits(pattern, batched, l, rt) {
        return Err(ValidationError);
      }
      BinaryRecordFits(Snapshot(), op, pattern, batched, left, right);
      var outs := Enqueue(Binary(op, pattern), [left, right], op.OperandKind(), batched, pattern.OutVis(), [l.size], l.size);
      r := Ok(outs[0]);
    }

    /** `notPrivate`, `notPublic`, `negPrivate`, `negPublic`, scalar or batch. */
    method UnaryGate(op: UnOp, vis: Vis, batched: bool, src: WireId) returns (r: Result<WireId>)
      requires Valid()
      requires src.kind == op.OperandKind()
      modifies this, wireKeeper, gateKeeper
      ensures Valid()
      ensures r == Err(InvalidWireError) <==> src !in old(wireKeeper.wires)
      ensures r == Err(ValidationError) <==> src in old(wireKeeper.wires) && !UnaryFits(vis, batched, old(wireKeeper.wires[src]))
      ensures r.Err? ==> (r.error == InvalidWireError || r.error == ValidationError) && unchanged(this, wireKeeper, gateKeeper)
      ensures r.Ok? ==> r.value == WireId(op.OperandKind(), old(wireKeeper.nextIndex))
      ensures r.Ok? ==> Snapshot() == Record(old(Snapshot()), Unary(op, vis), [src], op.OperandKind(), batched, vis,
                                             [old(wireKeeper.wires[src].size)], old(wireKeeper.wires[src].size))
    {
      if src !in wireKeeper.wires {
        return Err(InvalidWireError);
      }
      var s := wireKeeper.wires[src];
      if !UnaryFits(vis, batched, s) {
        return Err(ValidationError);
      }
      UnaryRecordFits(Snapshot(), op, vis, batched, src);
      var outs := Enqueue(Unary(op, vis), [src], op.OperandKind(), batched, vis, [s.size], s.size);
      r := Ok(outs[0]);
    }

    /** `openBooleanValueToParty`, `openIntegerValueToParty`: a public wire that will hold the opened value. */
    method OpenValueToParty(src: WireId, partyId: int, batched: bool) returns (r: Result<WireId>)
      requires Valid()
      modifies this, wireKeeper, gateKeeper
      ensures Valid()
      ensures r == Err(InvalidWireError) <==> src !in old(wireKeeper.wires)
      ensures r == Err(ValidationError) <==> src in old(wireKeeper.wires) && old(wireKeeper.wires[src].batch) != batched
      ensures r.Err? ==> (r.error == InvalidWireError || r.error == ValidationError) && unchanged(this, wireKeeper, gateKeeper)
      ensures r.Ok? ==> r.value == WireId(src.kind, old(wireKeeper.nextIndex))
      ensures r.Ok? ==> Snapshot() == Record(old(Snapshot()), Open(partyId), [src], src.kind, batched, Public,
                                             [old(wireKeeper.wires[src].size)], old(wireKeeper.wires[src].size))
    {
      if src !in wireKeeper.wires {
        return Err(InvalidWireError);
      }
      var s := wireKeeper.wires[src];
      if s.batch != batched {
        return Err(ValidationError);
      }
      OpenRecordFits(Snapshot(), partyId, batched, src);
      var outs := Enqueue(Open(partyId), [src], src.kind, batched, Public, [s.size], s.size);
      r := Ok(outs[0]);
    }

    /** `privateAndPrivateComposite` and its kin: `left` AND each of `rights`, as one gate. */
    method CompositeAndGate(pattern: Pattern, batched: bool, left: WireId, rights: seq<WireId>)
      returns (r: Result<seq<WireId>>)
      requires Valid()
      requires left.kind == Boolean && forall k | 0 <= k < |rights| :: rights[k].kind == Boolean
      modifies this, wireKeeper, gateKeeper
      ensures Valid()
      ensures r == Err(InvalidWireError) <==> left !in old(wireKeeper.wires) || !AllLive(old(wireKeeper.wires), rights)
      ensures r == Err(ValidationError) <==>
        left in old(wireKeeper.wires) && AllLive(old(wireKeeper.wires), rights) &&
        !CompositeFits(pattern, batched, old(wireKeeper.wires), left, rights)
      ensures r.Err? ==> (r.error == InvalidWireError || r.error == ValidationError) && unchanged(this, wireKeeper, gateKeeper)
      ensures r.Ok? ==> r.value == FreshIds(Boolean, old(wireKeeper.nextIndex), |rights|)
      ensures r.Ok? ==>
        var size := old(wireKeeper.wires[left].size);
        Snapshot() == Record(old(Snapshot()), CompositeAnd(pattern), [left] + rights, Boolean, batched, pattern.OutVis(),
                             Copies(size, |rights|), |rights| * size)
    {
      if left !in wireKeeper.wires || !AllLive(wireKeeper.wires, rights) {
        return Err(InvalidWireError);
      }
      if !CompositeFits(pattern, batched, wireKeeper.wires, left, rights) {
        return Err(ValidationError);
      }
      var size := wireKeeper.wires[left].size;
      CompositeRecordFits(Snapshot(), pattern, batched, left, rights);
      var outs := Enqueue(CompositeAnd(pattern), [left] + rights, Boolean, batched, pattern.OutVis(),
                          Copies(size, |rights|), |rights| * size);
      r := Ok(outs);
    }

    /** `batchingUp`: bands batches of one visibility into one batch, in order. */
    method BatchingUp(srcs: seq<WireId>) returns (r: Result<WireId>)
      requires Valid()
      requires forall k | 0 <= k < |srcs| :: srcs[k].kind == Boolean
      modifies this, wireKeeper, gateKeeper
      ensures Valid()
      ensures r == Err(InvalidWireError) <==> !AllLive(old(wireKeeper.wires), srcs)
      ensures r == Err(ValidationError) <==> AllLive(old(wireKeeper.wires), srcs) && !BatchingUpFits(old(wireKeeper.wires), srcs)
      ensures r.Err? ==> (r.error == InvalidWireError || r.error == ValidationError) && unchanged(this, wireKeeper, gateKeeper)
      ensures r.Ok? ==> r.value == WireId(Boolean, old(wireKeeper.nextIndex))
      ensures r.Ok? ==>
        var total := Sum(SizesOf(old(wireKeeper.wires), srcs));
        Snapshot() == Record(old(Snapshot()), Gates.BatchingUp, srcs, Boolean, true, old(wireKeeper.wires[srcs[0]].vis), [total], total)
    {
      if !AllLive(wireKeeper.wires, srcs) {
        return Err(InvalidWireError);
      }
      if !BatchingUpFits(wireKeeper.wires, srcs) {
        return Err(ValidationError);
      }
      var total := Sum(SizesOf(wireKeeper.wires, srcs));
      BatchingUpRecordFits(Snapshot(), srcs);
      var outs := Enqueue(Gates.BatchingUp, srcs, Boolean, true, wireKeeper.wires[srcs[0]].vis, [total], total);
      r := Ok(outs[0]);
    }

    /**
     * `unbatching`: cuts a batch into consecutive batches whose lengths the
     * strategy lists; a strategy that does not add up to the batch is refused.
     */
    method Unbatching(src: WireId, strategy: seq<U32>) returns (r: Result<seq<WireId>>)
      requires Valid()
      requires src.kind == Boolean
      modifies this, wireKeeper, gateKeeper
      ensures Valid()
      ensures r == Err(InvalidWireError) <==> src !in old(wireKeeper.wires)
      ensures r == Err(ValidationError) <==>
        src in old(wireKeeper.wires) && (!old(wireKeeper.wires[src].batch) || Sum(strategy) != old(wireKeeper.wires[src].size))
      ensures r.Err? ==> (r.error == InvalidWireError || r.error == ValidationError) && unchanged(this, wireKeeper, gateKeeper)
      ensures r.Ok? ==> r.value == FreshIds(Boolean, old(wireKeeper.nextIndex), |strategy|)
      ensures r.Ok? ==>
        Snapshot() == Record(old(Snapshot()), Gates.Unbatching(strategy), [src], Boolean, true, old(wireKeeper.wires[src].vis),
                             strategy, old(wireKeeper.wires[src].size))
    {
      if src !in wireKeeper.wires {
        return Err(InvalidWireError);
      }
      var s := wireKeeper.wires[src];
      if !s.batch || Sum(strategy) != s.size {
        return Err(ValidationError);
      }
      UnbatchingRecordFits(Snapshot(), src, strategy);
      var outs := Enqueue(Gates.Unbatching(strategy), [src], Boolean, true, s.vis, strategy, s.size);
      r := Ok(outs);
    }

    // ======== reference counts ========

    method IncreaseReferenceCount(id: WireId, batched: bool) returns (o: Outcome)
      requires Valid()
      modifies wireKeeper
      ensures Valid()
      ensures o == if id !in old(wireKeeper.wires) then Fail(InvalidWireError)
                   else if old(wireKeeper.wires[id].batch) != batched then Fail(ValidationError)
                   else Pass
      ensures wireKeeper.wires == if o.Pass? then Increased(old(wireKeeper.wires), id) else old(wireKeeper.wires)
      ensures wireKeeper.nextIndex == old(wireKeeper.nextIndex)
    {
      if id !in wireKeeper.wires {
        return Fail(InvalidWireError);
      }
      if wireKeeper.wires[id].batch != batched {
        return Fail(ValidationError);
      }
      ghost var w0 := wireKeeper.wires;
      o := wireKeeper.IncreaseReferenceCount(id);
      ReferencesKeepStateOk(w0, wireKeeper.nextIndex, gateKeeper.levels, gateKeeper.frontier, ideal, wireKeeper.wires);
    }

    /** Drops one reference; dropping the last frees the wire. */
    method DecreaseReferenceCount(id: WireId, batched: bool) returns (o: Outcome)
      requires Valid()
      modifies wireKeeper
      ensures Valid()
      ensures o == if id !in old(wireKeeper.wires) then Fail(InvalidWireError)
                   else if old(wireKeeper.wires[id].batch) != batched then Fail(ValidationError)
                   else Pass
      ensures wireKeeper.wires == if o.Pass? then Decreased(old(wireKeeper.wires), id) else old(wireKeeper.wires)
      ensures wireKeeper.nextIndex == old(wireKeeper.nextIndex)
    {
      if id !in wireKeeper.wires {
        return Fail(InvalidWireError);
      }
      if wireKeeper.wires[id].batch != batched {
        return Fail(ValidationError);
      }
      ghost var w0 := wireKeeper.wires;
      o := wireKeeper.DecreaseReferenceCount(id);
      ReferencesKeepStateOk(w0, wireKeeper.nextIndex, gateKeeper.levels, gateKeeper.frontier, ideal, wireKeeper.wires);
    }

    // ======== forcing and execution ========

    /**
     * The value of a wire: the value it holds, or, while it is pending, the
     * one running every level up to the wire's own gives it. Running fails,
     * and returns InvalidWireError, when a gate to run reads a wire freed
     * in the meantime.
     */
    method ForceWire(id: WireId, batched: bool) returns (r: Result<Payload>)
      requires Valid()
      modifies wireKeeper, gateKeeper, engine
      ensures Valid()
      ensures id !in old(wireKeeper.wires) ==> r == Err(InvalidWireError) && unchanged(wireKeeper, gateKeeper, engine)
      ensures id in old(wireKeeper.wires) && old(wireKeeper.wires[id].batch) != batched ==>
        r == Err(ValidationError) && unchanged(wireKeeper, gateKeeper, engine)
      ensures id in old(wireKeeper.wires) && old(wireKeeper.wires[id].batch) == batched ==> Forced(id, r)
    {
      if id !in wireKeeper.wires {
        return Err(InvalidWireError);
      }
      var rec := wireKeeper.wires[id];
      if rec.batch != batched {
        return Err(ValidationError);
      }
      assert WireOk(id, rec, ideal[id], gateKeeper.frontier);
      if rec.value.Some? {
        return Ok(rec.value.value);
      }
      r := ForcePending(id);
    }

    /** Forcing a wire that is still pending: runs the levels up to its own. */
    method ForcePending(id: WireId) returns (r: Result<Payload>)
      requires Valid() && id in wireKeeper.wires && wireKeeper.wires[id].value.None?
      modifies wireKeeper, gateKeeper, engine
      ensures Valid()
      ensures Forced(id, r)
    {
      ghost var s0 := Snapshot();
      var level := wireKeeper.wires[id].level;
      var o := ExecuteTillLevel(level);
      if o.Fail? {
        return Err(o.error);
      }
      RanComputes(s0, level + 1, id);
      r := Ok(wireKeeper.wires[id].value.value);
    }

    /** `extractBooleanSecretShare`, `extractIntegerSecretShare`: the (ideal) share of a wire. */
    method ExtractSecretShare(id: WireId, batched: bool) returns (r: Result<Payload>)
      requires Valid()
      modifies wireKeeper, gateKeeper, engine
      ensures Valid()
      ensures id !in old(wireKeeper.wires) ==> r == Err(InvalidWireError)
      ensures id in old(wireKeeper.wires) && old(wireKeeper.wires[id].batch) != batched ==> r == Err(ValidationError)
      ensures id !in old(wireKeeper.wires) || old(wireKeeper.wires[id].batch) != batched ==> unchanged(wireKeeper, gateKeeper, engine)
      ensures id in old(wireKeeper.wires) && old(wireKeeper.wires[id].batch) == batched ==> Forced(id, r)
    {
      r := ForceWire(id, batched);
    }

    /** `getBooleanValue`, `getIntegerValue`: the value of a public wire; a private one is refused. */
    method GetValue(id: WireId, batched: bool) returns (r: Result<Payload>)
      requires Valid()
      modifies wireKeeper, gateKeeper, engine
      ensures Valid()
      ensures id !in old(wireKeeper.wires) ==> r == Err(InvalidWireError) && unchanged(wireKeeper, gateKeeper, engine)
      ensures id in old(wireKeeper.wires) && old(wireKeeper.wires[id].vis) == Private ==>
        r == Err(ProtocolStateError)
      ensures id in old(wireKeeper.wires) && old(wireKeeper.wires[id].vis) == Public && old(wireKeeper.wires[id].batch) != batched ==>
        r == Err(ValidationError)
      ensures r.Err? && r.error != InvalidWireError ==> unchanged(wireKeeper, gateKeeper, engine)
      ensures r.Ok? ==> id in old(wireKeeper.wires) && old(wireKeeper.wires[id].vis) == Public
      ensures id in old(wireKeeper.wires) && old(wireKeeper.wires[id].vis) == Public && old(wireKeeper.wires[id].batch) == batched ==>
        Forced(id, r)
    {
      if id in wireKeeper.wires && wireKeeper.wires[id].vis == Private {
        return Err(ProtocolStateError);
      }
      r := ForceWire(id, batched);
    }

    /** Runs the levels from the frontier up to `level`, one after the other. */
    method ExecuteTillLevel(level: nat) returns (o: Outcome)
      requires Valid()
      modifies wireKeeper, gateKeeper, engine
      ensures Valid()
      ensures o.Pass? <==> LevelsLive(old(wireKeeper.wires).Keys, old(gateKeeper.levels), old(gateKeeper.frontier), level + 1)
      ensures o.Fail? ==> o.error == InvalidWireError
      ensures o.Pass? ==> RanTill(level)
      ensures o.Fail? ==> exists f: nat :: f <= level && StoppedAt(f)
    {
      ghost var s0, r0 := Snapshot(), engine.rounds;
      var f0 := gateKeeper.frontier;
      while gateKeeper.frontier <= level
        invariant Valid()
        invariant f0 <= gateKeeper.frontier <= Max(f0, level + 1)
        invariant LevelsLive(s0.wires.Keys, s0.levels, f0, gateKeeper.frontier)
        invariant engine.rounds == r0 + RoundsBetween(s0.levels, s0.frontier, gateKeeper.frontier)
        invariant Snapshot() == Ran(s0, gateKeeper.frontier)
        decreases level + 1 - gateKeeper.frontier
      {
        var f := gateKeeper.frontier;
        var step := ExecuteNextLevel(s0, r0);
        if step.Fail? {
          LevelsLiveBlocked(s0.wires.Keys, s0.levels, f0, f, level + 1);
          assert StoppedAt(f);
          return step;
        }
        LevelsLiveStep(s0.wires.Keys, s0.levels, f0, f);
      }
      o := Pass;
    }

    /**
     * One turn of `ExecuteTillLevel`: runs the frontier level of a state
     * reached from `s0` by running levels, which reaches the state running
     * one level more from `s0` gives.
     */
    method ExecuteNextLevel(ghost s0: State, ghost r0: seq<Round>) returns (o: Outcome)
      requires Valid() && s0.frontier <= gateKeeper.frontier
      requires engine.rounds == r0 + RoundsBetween(s0.levels, s0.frontier, gateKeeper.frontier)
      requires Snapshot() == Ran(s0, gateKeeper.frontier)
      modifies wireKeeper, gateKeeper, engine
      ensures Valid()
      ensures o.Pass? <==> InputsLive(s0.wires.Keys, At(s0.levels, old(gateKeeper.frontier)))
      ensures o.Fail? ==> o == Fail(InvalidWireError) && unchanged(wireKeeper, gateKeeper, engine)
      ensures o.Pass? ==> gateKeeper.frontier == old(gateKeeper.frontier) + 1
      ensures o.Pass? ==> engine.rounds == r0 + RoundsBetween(s0.levels, s0.frontier, gateKeeper.frontier)
      ensures o.Pass? ==> Snapshot() == Ran(s0, gateKeeper.frontier)
    {
      ghost var t, rt := Snapshot(), engine.rounds;
      RanFrame(s0, t.frontier);
      o := ExecuteOneLevel();
      if o.Pass? {
        RanNext(s0, r0, t.frontier, t, rt, Snapshot(), engine.rounds);
      }
    }

    /** Runs the frontier level: its gates in recorded order, then one engine round. */
    method ExecuteOneLevel() returns (o: Outcome)
      requires Valid()
      modifies wireKeeper, gateKeeper, engine
      ensures Valid()
      ensures o.Pass? <==> InputsLive(old(wireKeeper.wires).Keys, old(gateKeeper.GatesAt(gateKeeper.frontier)))
      ensures o.Fail? ==> o == Fail(InvalidWireError) && unchanged(wireKeeper, gateKeeper, engine)
      ensures o.Pass? ==> engine.rounds == old(engine.rounds) + LevelRound(old(Snapshot()))
      ensures o.Pass? ==> Snapshot() == Executed(old(Snapshot()))
    {
      var level := gateKeeper.frontier;
      if !InputsLive(wireKeeper.wires.Keys, gateKeeper.GatesAt(level)) {
        return Fail(InvalidWireError);
      }
      ghost var s0 := Snapshot();
      RunFrontierLevel(s0);
      ExecutedConsistent(s0);
      o := Pass;
    }

    /**
     * Takes the gates of the frontier level from the gate keeper, runs them
     * in recorded order, then runs the engine gates among them as one round.
     */
    method RunFrontierLevel(ghost s0: State)
      requires wireKeeper.Valid() && engine.scheduled == [] && gateKeeper.Valid()
      requires s0 == Snapshot() && Consistent(s0) && InputsLive(s0.wires.Keys, At(s0.levels, s0.frontier))
      modifies wireKeeper, gateKeeper, engine
      ensures engine.scheduled == []
      ensures engine.rounds == old(engine.rounds) + LevelRound(s0)
      ensures Snapshot() == Executed(s0)
    {
      LevelReady(s0);
      var level := gateKeeper.frontier;
      var gs := gateKeeper.PopFirstUnexecutedLevel();
      ProgressStart(s0.wires, level, ideal);
      var k := 0;
      while k < |gs|
        invariant 0 <= k <= |gs|
        invariant wireKeeper.Valid() && wireKeeper.nextIndex == s0.nextIndex
        invariant gateKeeper.Valid() && gateKeeper.levels == s0.levels - {level} && gateKeeper.frontier == level + 1
        invariant engine.scheduled == CallsOf(gs[..k]) && engine.rounds == old(engine.rounds)
        invariant wireKeeper.wires == Progress(s0.wires, level, k, [], ideal)
      {
        RunGate(s0.wires, level, k, gs[k]);
        CallsOfPrefix(gs, k);
        k := k + 1;
      }
      engine.ExecuteScheduledOperations(level);
      assert gs[..k] == gs;
      LevelRan(s0, Snapshot());
    }

    /** Runs gate `k` of the running level: reads its inputs, computes, writes its outputs. */
    method RunGate(ghost w0: Table, level: nat, k: nat, g: Gate)
      requires wireKeeper.Valid()
      requires wireKeeper.wires == Progress(w0, level, k, [], ideal)
      requires GateReady(g, level, k, w0, ideal)
      modifies wireKeeper, engine
      ensures wireKeeper.Valid() && wireKeeper.nextIndex == old(wireKeeper.nextIndex)
      ensures wireKeeper.wires == Progress(w0, level, k + 1, [], ideal)
      ensures engine.scheduled == old(engine.scheduled) + if IsEngineGate(g.fn) then [Call(g.fn, g.elements)] else []
      ensures engine.rounds == old(engine.rounds)
    {
      forall i | i in g.inputs
        ensures i in wireKeeper.wires && wireKeeper.wires[i].value == Some(ideal[i])
      {
        assert w0[i].level < level;
      }
      var vals := ValuesOf(wireKeeper.wires, g.inputs);
      assert vals == Lookup(ideal, g.inputs);
      var outs;
      if IsEngineGate(g.fn) {
        outs := engine.Schedule(g.fn, vals, g.elements);
      } else {
        outs := Compute(g.fn, vals);
      }
      WriteOutputs(w0, level, k, g.outputs, outs);
      ProgressNextGate(w0, level, k, g.outputs, ideal);
    }

    /** Writes `vals` into the output wires `outs` of gate `k` of the running level, in order. */
    method WriteOutputs(ghost w0: Table, level: nat, k: nat, outs: seq<WireId>, vals: seq<Payload>)
      requires wireKeeper.Valid()
      requires wireKeeper.wires == Progress(w0, level, k, [], ideal)
      requires vals == Lookup(ideal, outs)
      requires forall o | o in outs :: o in ideal && (o in w0 ==> w0[o].level == level && w0[o].gate == k)
      modifies wireKeeper
      ensures wireKeeper.Valid() && wireKeeper.nextIndex == old(wireKeeper.nextIndex)
      ensures wireKeeper.wires == Progress(w0, level, k, outs, ideal)
    {
      var j := 0;
      while j < |outs|
        invariant 0 <= j <= |outs|
        invariant wireKeeper.Valid() && wireKeeper.nextIndex == old(wireKeeper.nextIndex)
        invariant wireKeeper.wires == Progress(w0, level, k, outs[..j], ideal)
      {
        var o := outs[j];
        assert o in outs;
        ProgressWrite(w0, level, k, outs[..j], ideal, o);
        wireKeeper.SetValue(o, vals[j]);
        assert outs[..j + 1] == outs[..j] + [o];
        j := j + 1;
      }
      assert outs[..j] == outs;
    }

    // ======== statistics ========

    /** (elements sent, elements received) over every round run so far. */
    function GetTrafficStatistics(): (r: (nat, nat))
      reads this, engine
      ensures r.0 == Traffic(engine.rounds) && r.1 == r.0
    {
      engine.GetTrafficStatistics()
    }

    /** (wires allocated so far, wires still live), as the wire keeper counts them. */
    function GetWireStatistics(): (r: (nat, nat))
      reads this, wireKeeper
      ensures r.0 == wireKeeper.nextIndex && r.1 == |wireKeeper.wires|
    {
      wireKeeper.GetWireStatistics()
    }
  }
}
