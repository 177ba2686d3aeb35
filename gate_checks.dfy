/**
 * What each gate call checks of its operands before recording a gate, and
 * what recording it then means: the new output wires are pending at a
 * level above their inputs, and their plaintext is the gate's plaintext
 * operation on the inputs' plaintext.
 */
module GateChecks {
  import opened Values
  import opened Gates
  import opened WireKeeping
  import opened SchedulerState

  /** The operands of a two-input gate fit it: the pattern's visibilities, the call's batchness, one length. */
  predicate BinaryFits(pattern: Pattern, batched: bool, left: Wire, right: Wire) {
    && left.vis == pattern.LeftVis() && right.vis == pattern.RightVis()
    && left.batch == batched && right.batch == batched
    && left.size == right.size
  }

  predicate UnaryFits(vis: Vis, batched: bool, src: Wire) {
    src.vis == vis && src.batch == batched
  }

  predicate AllLive(wires: Table, ws: seq<WireId>) {
    forall k | 0 <= k < |ws| :: ws[k] in wires
  }

  /** `left` fits a two-input gate against every one of `rights`. */
  predicate CompositeFits(pattern: Pattern, batched: bool, wires: Table, left: WireId, rights: seq<WireId>)
    requires left in wires && AllLive(wires, rights)
  {
    forall k | 0 <= k < |rights| :: BinaryFits(pattern, batched, wires[left], wires[rights[k]])
  }

  /** The batches to band together are all batches of one visibility. */
  predicate BatchingUpFits(wires: Table, srcs: seq<WireId>)
    requires AllLive(wires, srcs)
  {
    && srcs != []
    && forall k | 0 <= k < |srcs| :: wires[srcs[k]].batch && wires[srcs[k]].vis == wires[srcs[0]].vis
  }

  /** `count` copies of `size`: the output lengths of a composite gate. */
  function Copies(size: nat, count: nat): (r: seq<nat>)
    ensures |r| == count
    ensures forall k :: 0 <= k < count ==> r[k] == size
  {
    seq(count, k => size)
  }

  /** The lengths of some live wires. */
  function SizesOf(wires: Table, ws: seq<WireId>): (r: seq<nat>)
    requires AllLive(wires, ws)
    ensures |r| == |ws|
  {
    seq(|ws|, k requires 0 <= k < |ws| => wires[ws[k]].size)
  }

  lemma {:induction false} TotalLengthIsSum(parts: seq<seq<bool>>, sizes: seq<nat>)
    requires |parts| == |sizes|
    requires forall k :: 0 <= k < |parts| ==> |parts[k]| == sizes[k]
    ensures TotalLength(parts) == Sum(sizes)
  {
    if parts != [] {
      TotalLengthIsSum(parts[1..], sizes[1..]);
    }
  }

  /** A live wire's plaintext has the wire's kind and length. */
  lemma LiveWireShape(s: State, w: WireId)
    requires Consistent(s) && w in s.wires
    ensures w in s.ideal && s.ideal[w].KindOf() == w.kind && s.ideal[w].Size() == s.wires[w].size
    ensures !s.wires[w].batch ==> s.wires[w].size == 1
  {
    assert WireOk(w, s.wires[w], s.ideal[w], s.frontier);
  }

  // ------ what fits ------

  lemma BinaryRecordFits(s: State, op: BinOp, pattern: Pattern, batched: bool, left: WireId, right: WireId)
    requires Consistent(s) && left in s.wires && right in s.wires
    requires left.kind == op.OperandKind() && right.kind == op.OperandKind()
    requires BinaryFits(pattern, batched, s.wires[left], s.wires[right])
    ensures RecordFits(s, Binary(op, pattern), [left, right], op.OperandKind(), batched, [s.wires[left].size])
    ensures Compute(Binary(op, pattern), Lookup(s.ideal, [left, right])) == [ApplyBinary(op, s.ideal[left], s.ideal[right])]
  {
    LiveWireShape(s, left);
    LiveWireShape(s, right);
    assert Lookup(s.ideal, [left, right]) == [s.ideal[left], s.ideal[right]];
  }

  lemma UnaryRecordFits(s: State, op: UnOp, vis: Vis, batched: bool, src: WireId)
    requires Consistent(s) && src in s.wires && src.kind == op.OperandKind()
    requires UnaryFits(vis, batched, s.wires[src])
    ensures RecordFits(s, Unary(op, vis), [src], op.OperandKind(), batched, [s.wires[src].size])
    ensures Compute(Unary(op, vis), Lookup(s.ideal, [src])) == [ApplyUnary(op, s.ideal[src])]
  {
    LiveWireShape(s, src);
    assert Lookup(s.ideal, [src]) == [s.ideal[src]];
  }

  lemma OpenRecordFits(s: State, party: int, batched: bool, src: WireId)
    requires Consistent(s) && src in s.wires && s.wires[src].batch == batched
    ensures RecordFits(s, Open(party), [src], src.kind, batched, [s.wires[src].size])
    ensures Compute(Open(party), Lookup(s.ideal, [src])) == [s.ideal[src]]
  {
    LiveWireShape(s, src);
    assert Lookup(s.ideal, [src]) == [s.ideal[src]];
  }

  lemma CompositeRecordFits(s: State, pattern: Pattern, batched: bool, left: WireId, rights: seq<WireId>)
    requires Consistent(s) && left in s.wires && AllLive(s.wires, rights)
    requires left.kind == Boolean && forall k | 0 <= k < |rights| :: rights[k].kind == Boolean
    requires CompositeFits(pattern, batched, s.wires, left, rights)
    ensures RecordFits(s, CompositeAnd(pattern), [left] + rights, Boolean, batched, Copies(s.wires[left].size, |rights|))
    ensures |Compute(CompositeAnd(pattern), Lookup(s.ideal, [left] + rights))| == |rights|
    ensures forall k :: 0 <= k < |rights| ==>
      rights[k] in s.ideal &&
      Compute(CompositeAnd(pattern), Lookup(s.ideal, [left] + rights))[k] == ApplyBinary(And, s.ideal[left], s.ideal[rights[k]])
  {
    var out := Compute(CompositeAnd(pattern), Lookup(s.ideal, [left] + rights));
    forall k | 0 <= k < |rights|
      ensures rights[k] in s.ideal && out[k] == ApplyBinary(And, s.ideal[left], s.ideal[rights[k]])
      ensures out[k].KindOf() == Boolean && out[k].Size() == s.wires[left].size
    {
      CompositeOperand(s, pattern, batched, left, rights, k);
    }
    LiveWireShape(s, left);
    assert forall i | i in [left] + rights :: i in s.wires;
  }

  /** The `k`-th result of a composite AND is `left` AND `rights[k]`, of `left`'s length. */
  lemma CompositeOperand(s: State, pattern: Pattern, batched: bool, left: WireId, rights: seq<WireId>, k: nat)
    requires Consistent(s) && left in s.wires && AllLive(s.wires, rights)
    requires left.kind == Boolean && forall k | 0 <= k < |rights| :: rights[k].kind == Boolean
    requires CompositeFits(pattern, batched, s.wires, left, rights)
    requires k < |rights|
    ensures rights[k] in s.ideal
    ensures var out := Compute(CompositeAnd(pattern), Lookup(s.ideal, [left] + rights));
      && |out| == |rights|
      && out[k] == ApplyBinary(And, s.ideal[left], s.ideal[rights[k]])
      && out[k].KindOf() == Boolean && out[k].Size() == s.wires[left].size
  {
    LiveWireShape(s, left);
    LiveWireShape(s, rights[k]);
    assert BinaryFits(pattern, batched, s.wires[left], s.wires[rights[k]]);
    var ws := [left] + rights;
    assert ws[0] == left && ws[k + 1] == rights[k];
    var vals := Lookup(s.ideal, ws);
    LookupAt(s.ideal, ws, 0);
    LookupAt(s.ideal, ws, k + 1);
    CompositeAndAt(pattern, vals, k);
    AndShape(vals[0], vals[k + 1]);
  }

  lemma BatchingUpRecordFits(s: State, srcs: seq<WireId>)
    requires Consistent(s) && AllLive(s.wires, srcs) && BatchingUpFits(s.wires, srcs)
    requires forall k | 0 <= k < |srcs| :: srcs[k].kind == Boolean
    ensures RecordFits(s, Gates.BatchingUp, srcs, Boolean, true, [Sum(SizesOf(s.wires, srcs))])
    ensures Compute(Gates.BatchingUp, Lookup(s.ideal, srcs)) == [Bools(Concat(BitsOf(Lookup(s.ideal, srcs))))]
  {
    var parts := BitsOf(Lookup(s.ideal, srcs));
    forall k | 0 <= k < |parts|
      ensures |parts[k]| == SizesOf(s.wires, srcs)[k]
    {
      LiveWireShape(s, srcs[k]);
    }
    TotalLengthIsSum(parts, SizesOf(s.wires, srcs));
    ConcatLength(parts);
  }

  lemma UnbatchingRecordFits(s: State, src: WireId, strategy: seq<U32>)
    requires Consistent(s) && src in s.wires && src.kind == Boolean
    requires s.wires[src].batch && Sum(strategy) == s.wires[src].size
    ensures RecordFits(s, Gates.Unbatching(strategy), [src], Boolean, true, strategy)
    ensures Compute(Gates.Unbatching(strategy), Lookup(s.ideal, [src])) == BoolsOf(Split(s.ideal[src].Bits(), strategy))
  {
    LiveWireShape(s, src);
    assert Lookup(s.ideal, [src]) == [s.ideal[src]];
    SplitPieceLengths(s.ideal[src].Bits(), strategy);
  }

  // ------ what recording a gate leaves behind ------

  /**
   * A two-input gate over fitting live operands leaves a consistent state
   * with one fresh pending output, of the operands' length, whose
   * plaintext is the operation on the operands' plaintext.
   */
  lemma BinaryGateOutcome(s: State, op: BinOp, pattern: Pattern, batched: bool, left: WireId, right: WireId)
    requires Consistent(s) && left in s.wires && right in s.wires
    requires left.kind == op.OperandKind() && right.kind == op.OperandKind()
    requires BinaryFits(pattern, batched, s.wires[left], s.wires[right])
    ensures var size := s.wires[left].size;
      var r := Record(s, Binary(op, pattern), [left, right], op.OperandKind(), batched, pattern.OutVis(), [size], size);
      var o := WireId(op.OperandKind(), s.nextIndex);
      && Consistent(r)
      && FreshPending(s, r, o, batched, size, pattern.OutVis(), [left, right])
      && o in r.ideal && r.ideal[o] == ApplyBinary(op, s.ideal[left], s.ideal[right])
  {
    var size := s.wires[left].size;
    BinaryRecordFits(s, op, pattern, batched, left, right);
    RecordedFresh(s, Binary(op, pattern), [left, right], op.OperandKind(), batched, pattern.OutVis(), [size], size, 0);
  }

  /** A one-input gate: one fresh pending output holding the operation on the operand's plaintext. */
  lemma UnaryGateOutcome(s: State, op: UnOp, vis: Vis, batched: bool, src: WireId)
    requires Consistent(s) && src in s.wires && src.kind == op.OperandKind()
    requires UnaryFits(vis, batched, s.wires[src])
    ensures var size := s.wires[src].size;
      var r := Record(s, Unary(op, vis), [src], op.OperandKind(), batched, vis, [size], size);
      var o := WireId(op.OperandKind(), s.nextIndex);
      && Consistent(r)
      && FreshPending(s, r, o, batched, size, vis, [src])
      && o in r.ideal && r.ideal[o] == ApplyUnary(op, s.ideal[src])
  {
    var size := s.wires[src].size;
    UnaryRecordFits(s, op, vis, batched, src);
    RecordedFresh(s, Unary(op, vis), [src], op.OperandKind(), batched, vis, [size], size, 0);
  }

  /** Opening a wire: one fresh pending public output that will hold the wire's own plaintext. */
  lemma OpenOutcome(s: State, party: int, batched: bool, src: WireId)
    requires Consistent(s) && src in s.wires && s.wires[src].batch == batched
    ensures var size := s.wires[src].size;
      var r := Record(s, Open(party), [src], src.kind, batched, Public, [size], size);
      var o := WireId(src.kind, s.nextIndex);
      && Consistent(r)
      && FreshPending(s, r, o, batched, size, Public, [src])
      && o in r.ideal && r.ideal[o] == s.ideal[src]
  {
    var size := s.wires[src].size;
    OpenRecordFits(s, party, batched, src);
    RecordedFresh(s, Open(party), [src], src.kind, batched, Public, [size], size, 0);
  }

  /**
   * A composite AND: one fresh pending output per right operand, the
   * `k`-th holding `left` AND `rights[k]`.
   */
  lemma CompositeAndOutcome(s: State, pattern: Pattern, batched: bool, left: WireId, rights: seq<WireId>, k: nat)
    requires Consistent(s) && left in s.wires && AllLive(s.wires, rights)
    requires left.kind == Boolean && forall k | 0 <= k < |rights| :: rights[k].kind == Boolean
    requires CompositeFits(pattern, batched, s.wires, left, rights)
    requires k < |rights|
    ensures var size := s.wires[left].size;
      var r := Record(s, CompositeAnd(pattern), [left] + rights, Boolean, batched, pattern.OutVis(),
                      Copies(size, |rights|), |rights| * size);
      var o := WireId(Boolean, s.nextIndex + k);
      && Consistent(r)
      && FreshPending(s, r, o, batched, size, pattern.OutVis(), [left] + rights)
      && o in r.ideal && rights[k] in s.ideal && r.ideal[o] == ApplyBinary(And, s.ideal[left], s.ideal[rights[k]])
  {
    var size := s.wires[left].size;
    CompositeRecordFits(s, pattern, batched, left, rights);
    RecordedFresh(s, CompositeAnd(pattern), [left] + rights, Boolean, batched, pattern.OutVis(),
                  Copies(size, |rights|), |rights| * size, k);
  }

  /** Banding batches: one fresh pending batch holding their plaintext bits in order. */
  lemma BatchingUpOutcome(s: State, srcs: seq<WireId>)
    requires Consistent(s) && AllLive(s.wires, srcs) && BatchingUpFits(s.wires, srcs)
    requires forall k | 0 <= k < |srcs| :: srcs[k].kind == Boolean
    ensures var total := Sum(SizesOf(s.wires, srcs));
      var vis := s.wires[srcs[0]].vis;
      var r := Record(s, Gates.BatchingUp, srcs, Boolean, true, vis, [total], total);
      var o := WireId(Boolean, s.nextIndex);
      && Consistent(r)
      && FreshPending(s, r, o, true, total, vis, srcs)
      && o in r.ideal && r.ideal[o] == Bools(Concat(BitsOf(Lookup(s.ideal, srcs))))
  {
    var total := Sum(SizesOf(s.wires, srcs));
    BatchingUpRecordFits(s, srcs);
    RecordedFresh(s, Gates.BatchingUp, srcs, Boolean, true, s.wires[srcs[0]].vis, [total], total, 0);
  }

  /** Cutting a batch: one fresh pending batch per piece, the `k`-th holding the `k`-th piece of its bits. */
  lemma UnbatchingOutcome(s: State, src: WireId, strategy: seq<U32>, k: nat)
    requires Consistent(s) && src in s.wires && src.kind == Boolean
    requires s.wires[src].batch && Sum(strategy) == s.wires[src].size
    requires k < |strategy|
    ensures var vis := s.wires[src].vis;
      var r := Record(s, Gates.Unbatching(strategy), [src], Boolean, true, vis, strategy, s.wires[src].size);
      var o := WireId(Boolean, s.nextIndex + k);
      && Consistent(r)
      && FreshPending(s, r, o, true, strategy[k], vis, [src])
      && o in r.ideal && r.ideal[o] == Bools(Split(s.ideal[src].Bits(), strategy)[k])
  {
    UnbatchingRecordFits(s, src, strategy);
    RecordedFresh(s, Gates.Unbatching(strategy), [src], Boolean, true, s.wires[src].vis, strategy, s.wires[src].size, k);
  }

  /**
   * Cutting a batch by a strategy that adds up to it, then banding the
   * pieces back together, gives a wire whose plaintext is the original
   * batch: the pieces are live batches of one visibility that the banding
   * accepts, and their bits in order are the batch's bits.
   */
  lemma UnbatchThenBatchUp(s: State, src: WireId, strategy: seq<U32>)
    requires Consistent(s) && src in s.wires && src.kind == Boolean
    requires s.wires[src].batch && Sum(strategy) == s.wires[src].size && strategy != []
    ensures var vis := s.wires[src].vis;
      var r := Record(s, Gates.Unbatching(strategy), [src], Boolean, true, vis, strategy, s.wires[src].size);
      var pieces := FreshIds(Boolean, s.nextIndex, |strategy|);
      && Consistent(r) && AllLive(r.wires, pieces) && BatchingUpFits(r.wires, pieces)
      && src in s.ideal && Bools(Concat(BitsOf(Lookup(r.ideal, pieces)))) == s.ideal[src]
  {
    var vis := s.wires[src].vis;
    var r := Record(s, Gates.Unbatching(strategy), [src], Boolean, true, vis, strategy, s.wires[src].size);
    var pieces := FreshIds(Boolean, s.nextIndex, |strategy|);
    LiveWireShape(s, src);
    var bits := s.ideal[src].Bits();
    var parts := Split(bits, strategy);
    forall k | 0 <= k < |strategy|
      ensures pieces[k] in r.wires && r.wires[pieces[k]].batch && r.wires[pieces[k]].vis == vis
      ensures pieces[k] in r.ideal && r.ideal[pieces[k]] == Bools(parts[k])
    {
      UnbatchingOutcome(s, src, strategy, k);
    }
    UnbatchingOutcome(s, src, strategy, 0);
    PiecesRebuild(r.ideal, pieces, bits, strategy);
  }

  /** Wires holding, in order, the pieces of `bits` cut by `strategy` band back to `bits`. */
  lemma PiecesRebuild(ideal: Ideal, pieces: seq<WireId>, bits: seq<bool>, strategy: seq<U32>)
    requires Sum(strategy) == |bits| && |pieces| == |strategy|
    requires forall k :: 0 <= k < |pieces| ==> pieces[k] in ideal && ideal[pieces[k]] == Bools(Split(bits, strategy)[k])
    ensures Concat(BitsOf(Lookup(ideal, pieces))) == bits
  {
    assert BitsOf(Lookup(ideal, pieces)) == Split(bits, strategy);
    ConcatSplit(bits, strategy);
  }
}
