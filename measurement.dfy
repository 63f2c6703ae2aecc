/** The probabilities of the basis states of the register
    (calculate_probabilities): the joint state is the Kronecker product of
    the qubits taken left to right, so that qubit 0 is the most significant
    bit of a basis-state index, and the probability of each basis state is
    the squared magnitude of its amplitude. */
module Measurement {
  import opened Surds
  import opened Complexes
  import opened Vectors
  import opened Errors
  import opened Gates
  import opened Circuit

  function Pow2(n: nat): (r: nat)
    ensures 1 <= r
  {
    if n == 0 then 1 else 2 * Pow2(n - 1)
  }

  /** kron(... kron(kron(q0, q1), q2) ..., q(n-1)), a vector of 2ⁿ entries. */
  function Joint(qs: seq<Qubit>): (v: Vector)
    requires qs != []
    ensures |v| == Pow2(|qs|)
    decreases |qs|
  {
    if |qs| == 1 then qs[0] else Kron(Joint(qs[..|qs| - 1]), qs[|qs| - 1])
  }

  /** calculate_probabilities as a value: the squared magnitudes of the joint
      state, one per basis state; an empty register raises IndexError when
      qubit 0 is read. */
  function StateProbabilities(qs: seq<Qubit>): (r: Result<seq<Surd>>)
    ensures r.Ok? <==> qs != []
    ensures r.Err? ==> r.error == IndexError
    ensures r.Ok? ==> |r.value| == Pow2(|qs|)
  {
    if qs == [] then Err(IndexError) else Ok(Probabilities(Joint(qs)))
  }

  /** The n-bit binary expansion of k, most significant bit first. */
  function Bits(k: nat, n: nat): (b: seq<nat>)
    ensures |b| == n
    ensures forall i :: 0 <= i < n ==> b[i] < 2
  {
    if n == 0 then [] else Bits(k / 2, n - 1) + [k % 2]
  }

  /** The number whose binary digits, most significant first, are `b`. */
  function FromBits(b: seq<nat>): nat {
    if b == [] then 0 else 2 * FromBits(b[..|b| - 1]) + b[|b| - 1]
  }

  /** Bits(k, n) is the binary expansion of k for every k < 2ⁿ. */
  lemma {:induction false} BitsRoundTrip(k: nat, n: nat)
    requires k < Pow2(n)
    ensures FromBits(Bits(k, n)) == k
  {
    if n > 0 {
      var b := Bits(k, n);
      assert b[..n - 1] == Bits(k / 2, n - 1) && b[n - 1] == k % 2;
      BitsRoundTrip(k / 2, n - 1);
    }
  }

  /** q0[b0]·q1[b1]·…·q(n-1)[b(n-1)], multiplied left to right. */
  function AmplitudeProduct(qs: seq<Qubit>, b: seq<nat>): Complex
    requires |b| == |qs|
    requires forall i :: 0 <= i < |b| ==> b[i] < 2
    decreases |qs|
  {
    if qs == [] then C1
    else AmplitudeProduct(qs[..|qs| - 1], b[..|b| - 1]).Times(qs[|qs| - 1][b[|b| - 1]])
  }

  /** |q0[b0]|²·|q1[b1]|²·…·|q(n-1)[b(n-1)]|² */
  function ProbabilityProduct(qs: seq<Qubit>, b: seq<nat>): Surd
    requires |b| == |qs|
    requires forall i :: 0 <= i < |b| ==> b[i] < 2
    decreases |qs|
  {
    if qs == [] then One
    else ProbabilityProduct(qs[..|qs| - 1], b[..|b| - 1]).Times(qs[|qs| - 1][b[|b| - 1]].NormSq())
  }

  /** Amplitude k of the joint state is the product, over the qubits, of
      each qubit's amplitude for its bit of k, qubit 0 taking the most
      significant bit. */
  lemma {:induction false} JointAt(qs: seq<Qubit>, k: nat)
    requires qs != [] && k < Pow2(|qs|)
    ensures Joint(qs)[k] == AmplitudeProduct(qs, Bits(k, |qs|))
    decreases |qs|
  {
    var n := |qs|;
    var (front, hi, lo) := (qs[..n - 1], k / 2, k % 2);
    ProductStep(qs, k);
    if n == 1 {
      assert AmplitudeProduct(front, Bits(hi, 0)) == C1 by {
        assert front == [];
      }
      assert Joint(qs)[k] == qs[0][lo];
      OneTimes(qs[0][lo]);
    } else {
      JointStep(qs, k);
      JointAt(front, hi);
    }
  }

  /** The last qubit takes the least significant bit of k. */
  lemma ProductStep(qs: seq<Qubit>, k: nat)
    requires qs != []
    ensures var n := |qs|;
      AmplitudeProduct(qs, Bits(k, n)) == AmplitudeProduct(qs[..n - 1], Bits(k / 2, n - 1)).Times(qs[n - 1][k % 2])
  {
    var n := |qs|;
    var b := Bits(k, n);
    assert b[..n - 1] == Bits(k / 2, n - 1) && b[n - 1] == k % 2;
  }

  lemma JointStep(qs: seq<Qubit>, k: nat)
    requires 2 <= |qs| && k < Pow2(|qs|)
    ensures var n := |qs|;
      k / 2 < Pow2(n - 1) && Joint(qs)[k] == Joint(qs[..n - 1])[k / 2].Times(qs[n - 1][k % 2])
  {
    var n := |qs|;
    var (hi, lo) := (k / 2, k % 2);
    assert hi < Pow2(n - 1) && 2 * hi + lo == k;
    KronAt(Joint(qs[..n - 1]), qs[n - 1], hi, lo);
  }

  /** The probability of basis state k is the product of the qubits'
      probabilities for their bits of k. */
  lemma ProbabilityAt(qs: seq<Qubit>, k: nat)
    requires qs != [] && k < Pow2(|qs|)
    ensures StateProbabilities(qs).value[k] == ProbabilityProduct(qs, Bits(k, |qs|))
  {
    JointAt(qs, k);
    NormSqOfProduct(qs, Bits(k, |qs|));
  }

  /** |∏ qi[bi]|² = ∏ |qi[bi]|² */
  lemma {:induction false} NormSqOfProduct(qs: seq<Qubit>, b: seq<nat>)
    requires |b| == |qs|
    requires forall i :: 0 <= i < |b| ==> b[i] < 2
    ensures AmplitudeProduct(qs, b).NormSq() == ProbabilityProduct(qs, b)
    decreases |qs|
  {
    if qs != [] {
      var n := |qs|;
      NormSqOfProduct(qs[..n - 1], b[..n - 1]);
      NormSqTimes(AmplitudeProduct(qs[..n - 1], b[..n - 1]), qs[n - 1][b[n - 1]]);
    }
  }

  /** ‖q0‖²·‖q1‖²·…·‖q(n-1)‖² */
  function NormProduct(qs: seq<Qubit>): Surd
    decreases |qs|
  {
    if qs == [] then One else NormProduct(qs[..|qs| - 1]).Times(SquaredNorm(qs[|qs| - 1]))
  }

  /** The probabilities add up to the product of the qubits' squared norms. */
  lemma {:induction false} ProbabilitiesSum(qs: seq<Qubit>)
    requires qs != []
    ensures Sum(StateProbabilities(qs).value) == NormProduct(qs)
    decreases |qs|
  {
    var n := |qs|;
    if n == 1 {
      assert qs[..0] == [];
      assert One.Times(SquaredNorm(qs[0])) == SquaredNorm(qs[0]);
    } else {
      ProbabilitiesSum(qs[..n - 1]);
      SquaredNormKron(Joint(qs[..n - 1]), qs[n - 1]);
    }
  }

  /** For a register of unit qubits the probabilities add up to one. */
  lemma {:induction false} UnitRegisterSumsToOne(qs: seq<Qubit>)
    requires qs != [] && AllUnit(qs)
    ensures Sum(StateProbabilities(qs).value) == One
  {
    ProbabilitiesSum(qs);
    NormProductOfUnits(qs);
  }

  lemma {:induction false} NormProductOfUnits(qs: seq<Qubit>)
    requires AllUnit(qs)
    ensures NormProduct(qs) == One
    decreases |qs|
  {
    if qs != [] {
      var n := |qs|;
      assert AllUnit(qs[..n - 1]);
      NormProductOfUnits(qs[..n - 1]);
      assert SquaredNorm(qs[n - 1]) == One;
    }
  }

  /** A circuit of one-qubit gates, started from valid labels, ends in a
      register whose probabilities add up to one. */
  lemma GateCircuitSumsToOne(states: seq<string>, ops: seq<Operation>)
    requires states != []
    requires forall i :: 0 <= i < |ops| ==> ops[i].Single?
    ensures Simulate(states, ops).Ok? ==>
      Sum(StateProbabilities(Simulate(states, ops).value).value) == One
  {
    if Simulate(states, ops).Ok? {
      var start := InitialQubits(states).value;
      InitialQubitsAreUnit(states);
      RunGatesKeepUnit(start, ops);
      UnitRegisterSumsToOne(Simulate(states, ops).value);
    }
  }

  /** The loop of calculate_probabilities: qubit 0 alone when the register
      has one qubit, otherwise qubit 0 Kronecker-multiplied by each further
      qubit in turn; then the squared magnitudes. */
  method CalculateProbabilities(qubits: seq<Qubit>) returns (r: Result<seq<Surd>>)
    ensures r == StateProbabilities(qubits)
  {
    var state: Vector;
    if |qubits| == 1 {
      state := qubits[0];
    } else {
      if qubits == [] {
        return Err(IndexError);
      }
      state := qubits[0];
      assert qubits[..1] == [qubits[0]];
      var i := 1;
      while i < |qubits|
        invariant 1 <= i <= |qubits|
        invariant state == Joint(qubits[..i])
      {
        assert qubits[..i + 1][..i] == qubits[..i];
        state := Kron(state, qubits[i]);
        i := i + 1;
      }
      assert qubits[..i] == qubits;
    }
    return Ok(Probabilities(state));
  }

  /** The joint state of a two-qubit register is the Kronecker product of
      its qubits. */
  lemma JointOfTwo(a: Qubit, b: Qubit)
    ensures Joint([a, b]) == Kron(a, b)
  {
    assert [a, b][..1] == [a];
  }

  /** The register |0⟩|1⟩ is in basis state 01 with certainty. */
  lemma ZeroOneProbabilities(a: Qubit, b: Qubit)
    requires a == [C1, C0] && b == [C0, C1]
    ensures StateProbabilities([a, b]) == Ok([Zero, One, Zero, Zero])
  {
    ZeroOneJoint(a, b);
    CertainOne(Joint([a, b]));
  }

  lemma ZeroOneJoint(a: Qubit, b: Qubit)
    requires a == [C1, C0] && b == [C0, C1]
    ensures Joint([a, b]) == [C0, C1, C0, C0]
  {
    JointOfTwo(a, b);
    KronPair(a, b);
    OneTimes(C0);
    OneTimes(C1);
    ZeroTimes(C0);
    ZeroTimes(C1);
  }

  lemma CertainOne(j: Vector)
    requires j == [C0, C1, C0, C0]
    ensures Probabilities(j) == [Zero, One, Zero, Zero]
  {
    ProbabilitiesOfFour(j);
    ZeroIsNull();
    OneIsUnit();
  }

  /** The register ((0, r), (r, 0)), r = 1/√2, has amplitude 1/2 on basis
      state 10 and none elsewhere, so probability 1/4 there. */
  lemma HalfHalfProbabilities(a: Qubit, b: Qubit)
    requires a == [C0, R] && b == [R, C0]
    ensures StateProbabilities([a, b]) == Ok([Zero, Zero, Surd(0.25, 0.0), Zero])
  {
    HalfHalfJoint(a, b);
    QuarterAtTwo(Joint([a, b]));
  }

  lemma HalfHalfJoint(a: Qubit, b: Qubit)
    requires a == [C0, R] && b == [R, C0]
    ensures Joint([a, b]) == [C0, C0, Real(Half), C0]
  {
    JointOfTwo(a, b);
    KronPair(a, b);
    ZeroTimes(R);
    ZeroTimes(C0);
    RSquared();
    TimesZero(R);
  }

  lemma QuarterAtTwo(j: Vector)
    requires j == [C0, C0, Real(Half), C0]
    ensures Probabilities(j) == [Zero, Zero, Surd(0.25, 0.0), Zero]
  {
    ProbabilitiesOfFour(j);
    ZeroIsNull();
    HalfNormSq();
  }

  /** The squared magnitudes of a four-entry vector, entry by entry. */
  lemma ProbabilitiesOfFour(j: Vector)
    requires |j| == 4
    ensures Probabilities(j) == [j[0].NormSq(), j[1].NormSq(), j[2].NormSq(), j[3].NormSq()]
  {
  }
}
