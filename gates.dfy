/**
 * Gate records as the gate keeper stores them, and the plaintext
 * function each kind of gate computes.
 */
module Gates {
  import opened Values

  /** Who can read a wire's value: one of the parties' shares, or everyone. */
  datatype Vis = Private | Public

  /** The operand visibilities of a two-input gate (`privateAndPublic`, ...). */
  datatype Pattern = PrivatePrivate | PrivatePublic | PublicPublic {

    function LeftVis(): Vis {
      if PublicPublic? then Public else Private
    }

    function RightVis(): Vis {
      if PrivatePrivate? then Private else Public
    }

    /** The output is public only when both operands are. */
    function OutVis(): Vis {
      if PublicPublic? then Public else Private
    }
  }

  datatype BinOp = And | Xor | Mult | Plus {
    function OperandKind(): Kind {
      if And? || Xor? then Boolean else Arithmetic
    }
  }

  datatype UnOp = Not | Neg {
    function OperandKind(): Kind {
      if Not? then Boolean else Arithmetic
    }
  }

  /** What a gate does; its operands and results are in the gate record. */
  datatype GateFn =
    | Binary(op: BinOp, pattern: Pattern)
    | Unary(uop: UnOp, vis: Vis)
    | Open(party: int)
    | CompositeAnd(cpattern: Pattern)
    | BatchingUp
    | Unbatching(strategy: seq<U32>)

  /**
   * A pending gate: its function, its input and output wires, and the
   * number of elements it produces (what the engine is charged for).
   */
  datatype Gate = Gate(fn: GateFn, inputs: seq<WireId>, outputs: seq<WireId>, elements: nat)

  function ApplyBinary(op: BinOp, a: Payload, b: Payload): Payload {
    match op
    case And => Bools(AndBits(a.Bits(), b.Bits()))
    case Xor => Bools(XorBits(a.Bits(), b.Bits()))
    case Mult => Ints(MulWords(a.Words(), b.Words()))
    case Plus => Ints(AddWords(a.Words(), b.Words()))
  }

  function ApplyUnary(op: UnOp, a: Payload): Payload {
    match op
    case Not => Bools(NotBits(a.Bits()))
    case Neg => Ints(NegWords(a.Words()))
  }

  function BitsOf(vals: seq<Payload>): seq<seq<bool>> {
    seq(|vals|, i requires 0 <= i < |vals| => vals[i].Bits())
  }

  function BoolsOf(parts: seq<seq<bool>>): seq<Payload> {
    seq(|parts|, i requires 0 <= i < |parts| => Bools(parts[i]))
  }

  /**
   * The plaintext a gate produces from the plaintext of its inputs, one
   * payload per output wire. This is what an ideal engine computes.
   */
  function Compute(fn: GateFn, vals: seq<Payload>): seq<Payload> {
    match fn
    case Binary(op, _) => if |vals| == 2 then [ApplyBinary(op, vals[0], vals[1])] else []
    case Unary(op, _) => if |vals| == 1 then [ApplyUnary(op, vals[0])] else []
    case Open(_) => if |vals| == 1 then [vals[0]] else []
    case CompositeAnd(_) =>
      if |vals| == 0 then []
      else seq(|vals| - 1, i requires 0 <= i < |vals| - 1 => ApplyBinary(And, vals[0], vals[i + 1]))
    case BatchingUp => [Bools(Concat(BitsOf(vals)))]
    case Unbatching(strategy) => if |vals| == 1 then BoolsOf(Split(vals[0].Bits(), strategy)) else []
  }

  /**
   * Gates the scheduler hands to the engine. Public-public gates and
   * rebatching are computed locally, since both parties hold the values.
   */
  predicate IsEngineGate(fn: GateFn) {
    match fn
    case Binary(_, pattern) => !pattern.PublicPublic?
    case Unary(_, vis) => vis == Private
    case Open(_) => true
    case CompositeAnd(pattern) => !pattern.PublicPublic?
    case BatchingUp => false
    case Unbatching(_) => false
  }

  /** Engine gates that need a round of communication between the parties. */
  predicate Interactive(fn: GateFn) {
    match fn
    case Binary(op, pattern) => pattern.PrivatePrivate? && (op.And? || op.Mult?)
    case Unary(_, _) => false
    case Open(_) => true
    case CompositeAnd(pattern) => pattern.PrivatePrivate?
    case BatchingUp => false
    case Unbatching(_) => false
  }

  /** The `k`-th result of a composite AND is the first operand AND the `k + 1`-th. */
  lemma CompositeAndAt(pattern: Pattern, vals: seq<Payload>, k: nat)
    requires k + 1 < |vals|
    ensures |Compute(CompositeAnd(pattern), vals)| == |vals| - 1
    ensures Compute(CompositeAnd(pattern), vals)[k] == ApplyBinary(And, vals[0], vals[k + 1])
  {
  }

  /** The AND of two boolean payloads of one length is a boolean payload of that length. */
  lemma AndShape(a: Payload, b: Payload)
    requires a.Bools? && b.Bools? && |a.bits| == |b.bits|
    ensures ApplyBinary(And, a, b).KindOf() == Boolean && ApplyBinary(And, a, b).Size() == |a.bits|
  {
  }

  /** NOT and NEG undo themselves on a payload of their kind. */
  lemma UnaryInvolution(op: UnOp, a: Payload)
    requires a.KindOf() == op.OperandKind()
    ensures ApplyUnary(op, ApplyUnary(op, a)) == a
  {
    match op
    case Not =>
      assert NotBits(NotBits(a.bits)) == a.bits;
    case Neg =>
      forall i | 0 <= i < |a.words|
        ensures NegWords(NegWords(a.words))[i] == a.words[i]
      {
        Neg64Involution(a.words[i]);
      }
      assert NegWords(NegWords(a.words)) == a.words;
  }

  /** XOR with the same payload twice gives the first operand back. */
  lemma XorTwice(a: Payload, b: Payload)
    requires a.Bools? && b.Bools? && |a.bits| == |b.bits|
    ensures ApplyBinary(Xor, ApplyBinary(Xor, a, b), b) == a
  {
    assert XorBits(XorBits(a.bits, b.bits), b.bits) == a.bits;
  }

  /** Adding a payload's negation gives all zeros: NEG is the additive inverse modulo 2^64. */
  lemma PlusNegIsZero(a: Payload)
    requires a.Ints?
    ensures ApplyBinary(Plus, a, ApplyUnary(Neg, a)) == Ints(seq(|a.words|, i => 0))
  {
    assert AddWords(a.words, NegWords(a.words)) == seq(|a.words|, i => 0);
  }

}
