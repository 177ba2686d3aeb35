/**
 * Plain values carried by wires: booleans and unsigned 64-bit integers,
 * scalar or batched, together with the plaintext operations the gates
 * compute and the concatenation and splitting used by rebatching.
 */
module Values {

  const TWO_32: int := 0x1_0000_0000
  const TWO_64: int := 0x1_0000_0000_0000_0000

  /** `uint32_t`, the element type of an unbatching strategy. */
  type U32 = x: int | 0 <= x < TWO_32

  /** `uint64_t`, the element type of arithmetic wires. */
  type U64 = x: int | 0 <= x < TWO_64

  datatype Option<T> = None | Some(value: T)

  /** The errors a scheduler call can report instead of a result. */
  datatype Error =
    | ValidationError     // operands of the wrong shape or visibility, bad strategy
    | InvalidWireError    // a wire that was freed or never allocated
    | ProtocolStateError  // reading the plaintext of a private wire

  datatype Result<T> = Ok(value: T) | Err(error: Error)

  datatype Outcome = Pass | Fail(error: Error)

  /** The two wire kinds, `IScheduler::Boolean` and `IScheduler::Arithmetic`. */
  datatype Kind = Boolean | Arithmetic

  /** A wire handle: its kind and a slot index, never reused. */
  datatype WireId = WireId(kind: Kind, index: nat)

  /** The value of a wire: a scalar is a batch of one element. */
  datatype Payload = Bools(bits: seq<bool>) | Ints(words: seq<U64>) {

    function KindOf(): Kind {
      if Bools? then Boolean else Arithmetic
    }

    function Size(): nat {
      if Bools? then |bits| else |words|
    }

    /** The boolean elements, or nothing for an arithmetic payload. */
    function Bits(): seq<bool> {
      if Bools? then bits else []
    }

    /** The integer elements, or nothing for a boolean payload. */
    function Words(): seq<U64> {
      if Ints? then words else []
    }
  }

  function Min(a: nat, b: nat): nat {
    if a < b then a else b
  }

  // ------ 64-bit arithmetic ------

  /** `uint64_t` addition, which wraps around. */
  function Add64(a: U64, b: U64): (r: U64)
    ensures r == (a + b) % TWO_64
  {
    if a + b < TWO_64 then a + b else a + b - TWO_64
  }

  /** `uint64_t` multiplication, which keeps the low 64 bits. */
  function Mul64(a: U64, b: U64): U64 {
    (a * b) % TWO_64
  }

  /** `uint64_t` negation: the additive inverse modulo 2^64. */
  function Neg64(a: U64): (r: U64)
    ensures (a + r) % TWO_64 == 0
    ensures Add64(a, r) == 0
  {
    if a == 0 then 0 else TWO_64 - a
  }

  lemma Neg64Involution(a: U64)
    ensures Neg64(Neg64(a)) == a
  {
  }

  // ------ element-wise operations on batches ------

  function AndBits(a: seq<bool>, b: seq<bool>): seq<bool> {
    seq(Min(|a|, |b|), i requires 0 <= i < Min(|a|, |b|) => a[i] && b[i])
  }

  function XorBits(a: seq<bool>, b: seq<bool>): seq<bool> {
    seq(Min(|a|, |b|), i requires 0 <= i < Min(|a|, |b|) => a[i] != b[i])
  }

  function NotBits(a: seq<bool>): seq<bool> {
    seq(|a|, i requires 0 <= i < |a| => !a[i])
  }

  function AddWords(a: seq<U64>, b: seq<U64>): seq<U64> {
    seq(Min(|a|, |b|), i requires 0 <= i < Min(|a|, |b|) => Add64(a[i], b[i]))
  }

  function MulWords(a: seq<U64>, b: seq<U64>): seq<U64> {
    seq(Min(|a|, |b|), i requires 0 <= i < Min(|a|, |b|) => Mul64(a[i], b[i]))
  }

  function NegWords(a: seq<U64>): seq<U64> {
    seq(|a|, i requires 0 <= i < |a| => Neg64(a[i]))
  }

  // ------ rebatching ------

  /** The in-order concatenation of a list of batches. */
  function Concat(parts: seq<seq<bool>>): seq<bool> {
    if parts == [] then [] else parts[0] + Concat(parts[1..])
  }

  /** The sum of some lengths. */
  function Sum(sizes: seq<nat>): nat {
    if sizes == [] then 0 else sizes[0] + Sum(sizes[1..])
  }

  /** The total length of a list of batches. */
  function TotalLength(parts: seq<seq<bool>>): nat {
    if parts == [] then 0 else |parts[0]| + TotalLength(parts[1..])
  }

  /**
   * Cuts `s` into consecutive pieces of the lengths `sizes` lists
   * (a piece is cut short when `s` runs out).
   */
  function Split(s: seq<bool>, sizes: seq<U32>): (r: seq<seq<bool>>)
    ensures |r| == |sizes|
  {
    if sizes == [] then []
    else
      var n := Min(sizes[0], |s|);
      [s[..n]] + Split(s[n..], sizes[1..])
  }

  lemma {:induction false} ConcatLength(parts: seq<seq<bool>>)
    ensures |Concat(parts)| == TotalLength(parts)
  {
    if parts != [] {
      ConcatLength(parts[1..]);
    }
  }

  /** When the strategy adds up to the batch, every piece has its stated length. */
  lemma {:induction false} SplitPieceLengths(s: seq<bool>, sizes: seq<U32>)
    requires Sum(sizes) == |s|
    ensures forall i :: 0 <= i < |sizes| ==> |Split(s, sizes)[i]| == sizes[i]
  {
    if sizes != [] {
      SplitPieceLengths(s[sizes[0]..], sizes[1..]);
      forall i | 0 <= i < |sizes|
        ensures |Split(s, sizes)[i]| == sizes[i]
      {
        if i > 0 {
          assert Split(s, sizes)[i] == Split(s[sizes[0]..], sizes[1..])[i - 1];
        }
      }
    }
  }

  /** Splitting by a strategy that adds up to the batch, then concatenating, gives the batch back. */
  lemma {:induction false} ConcatSplit(s: seq<bool>, sizes: seq<U32>)
    requires Sum(sizes) == |s|
    ensures Concat(Split(s, sizes)) == s
  {
    if sizes != [] {
      var n := sizes[0];
      ConcatSplit(s[n..], sizes[1..]);
      assert Split(s, sizes)[1..] == Split(s[n..], sizes[1..]);
      assert s == s[..n] + s[n..];
    }
  }

  /** Concatenating pieces, then splitting by their lengths, gives the pieces back. */
  lemma {:induction false} SplitConcat(parts: seq<seq<bool>>, sizes: seq<U32>)
    requires |parts| == |sizes|
    requires forall i :: 0 <= i < |parts| ==> |parts[i]| == sizes[i]
    ensures Split(Concat(parts), sizes) == parts
  {
    if parts != [] {
      var s := Concat(parts);
      assert s == parts[0] + Concat(parts[1..]);
      assert s[..sizes[0]] == parts[0];
      assert s[sizes[0]..] == Concat(parts[1..]);
      SplitConcat(parts[1..], sizes[1..]);
    }
  }
}
