/** Single qubits: building one from a label (create_qubit), the fixed table
    of five one-qubit gates, and applying a gate to a qubit (apply_gate). */
module Gates {
  import opened Surds
  import opened Complexes
  import opened Vectors
  import opened Errors

  /** A qubit state: the amplitudes of |0⟩ and |1⟩. */
  type Qubit = v: Vector | |v| == 2 witness [C0, C0]

  /** Every qubit of the register has squared norm one. */
  predicate AllUnit(qs: seq<Qubit>) {
    forall i :: 0 <= i < |qs| ==> SquaredNorm(qs[i]) == One
  }

  /** The labels create_qubit accepts. */
  const Labels: set<string> := {"0", "1", "+", "-"}

  /** The state named by `state`: |0⟩, |1⟩, |+⟩ = (|0⟩ + |1⟩)/√2 or
      |−⟩ = (|0⟩ − |1⟩)/√2; any other label raises ValueError. */
  function CreateQubit(state: string): (r: Result<Qubit>)
    ensures r.Ok? <==> state in Labels
    ensures r.Err? ==> r.error == ValueError(UnknownState)
  {
    if state == "0" then Ok([C1, C0])
    else if state == "1" then Ok([C0, C1])
    else if state == "+" then Ok([R, R])
    else if state == "-" then Ok([R, MinusR])
    else Err(ValueError(UnknownState))
  }

  /** Every state create_qubit builds is a unit vector. */
  lemma CreateQubitIsUnit(state: string)
    requires state in Labels
    ensures SquaredNorm(CreateQubit(state).value) == One
  {
    var q := CreateQubit(state).value;
    SquaredNormPair(q);
    InvSqrt2Squared();
  }

  const Hadamard: Matrix := [[R, R], [R, MinusR]]
  const PauliX: Matrix := [[C0, C1], [C1, C0]]
  const PauliZ: Matrix := [[C1, C0], [C0, MinusC1]]
  const PhaseS: Matrix := [[C1, C0], [C0, I]]
  const PhaseT: Matrix := [[C1, C0], [C0, Omega]]

  /** The gate table, by name. */
  const Gates: map<string, Matrix> :=
    map["H" := Hadamard, "X" := PauliX, "Z" := PauliZ, "S" := PhaseS, "T" := PhaseT]

  /** The names of the gate table, spelled out. */
  const GateNames: set<string> := {"H", "X", "Z", "S", "T"}

  /** The spelled-out names are exactly the table's keys. */
  lemma GateNamesAreTableKeys()
    ensures GateNames == Gates.Keys
  {
  }

  /** Every gate of the table is a 2×2 matrix. */
  lemma GatesAreTwoByTwo(name: string)
    requires name in Gates
    ensures |Gates[name]| == 2 && |Gates[name][0]| == 2 && |Gates[name][1]| == 2
  {
  }

  /** The product of the named gate's matrix with `q`; a name outside the
      table raises ValueError before anything is computed. */
  function ApplyGate(q: Qubit, gate: string): (r: Result<Qubit>)
    ensures r.Ok? <==> gate in GateNames
    ensures r.Err? ==> r.error == ValueError(UnknownGate)
  {
    if gate !in Gates then Err(ValueError(UnknownGate))
    else
      GatesAreTwoByTwo(gate);
      Ok(MatVec(Gates[gate], q))
  }

  /** What each gate of the table does to the amplitudes (a, b) of a
      qubit, written out by hand. */
  function Action(gate: string, a: Complex, b: Complex): Qubit
    requires gate in GateNames
  {
    if gate == "H" then [R.Times(a.Plus(b)), R.Times(a.Minus(b))]
    else if gate == "X" then [b, a]
    else if gate == "Z" then [a, b.Neg()]
    else if gate == "S" then [a, I.Times(b)]
    else [a, Omega.Times(b)]
  }

  /** The matrix product of apply_gate agrees with the hand-written action
      of each gate. */
  lemma ApplyGateAmplitudes(q: Qubit, gate: string)
    requires gate in GateNames
    ensures ApplyGate(q, gate) == Ok(Action(gate, q[0], q[1]))
  {
    if gate == "H" {
      ApplyHadamard(q);
    } else if gate == "X" {
      ApplyPauliX(q);
    } else if gate == "Z" {
      ApplyPauliZ(q);
    } else if gate == "S" {
      ApplyPhaseS(q);
    } else {
      ApplyPhaseT(q);
    }
  }

  lemma ApplyHadamard(q: Qubit)
    ensures ApplyGate(q, "H") == Ok(Action("H", q[0], q[1]))
  {
    MatVecPair(Hadamard, q);
    assert R.Times(q[0]).Plus(R.Times(q[1])) == R.Times(q[0].Plus(q[1]));
    assert R.Times(q[0]).Plus(MinusR.Times(q[1])) == R.Times(q[0].Minus(q[1]));
  }

  lemma ApplyPauliX(q: Qubit)
    ensures ApplyGate(q, "X") == Ok(Action("X", q[0], q[1]))
  {
    MatVecPair(PauliX, q);
    assert C0.Times(q[0]).Plus(C1.Times(q[1])) == q[1];
    assert C1.Times(q[0]).Plus(C0.Times(q[1])) == q[0];
  }

  lemma ApplyPauliZ(q: Qubit)
    ensures ApplyGate(q, "Z") == Ok(Action("Z", q[0], q[1]))
  {
    MatVecPair(PauliZ, q);
    assert C1.Times(q[0]).Plus(C0.Times(q[1])) == q[0];
    assert C0.Times(q[0]).Plus(MinusC1.Times(q[1])) == q[1].Neg();
  }

  lemma ApplyPhaseS(q: Qubit)
    ensures ApplyGate(q, "S") == Ok(Action("S", q[0], q[1]))
  {
    MatVecPair(PhaseS, q);
    assert C1.Times(q[0]).Plus(C0.Times(q[1])) == q[0];
    assert C0.Times(q[0]).Plus(I.Times(q[1])) == I.Times(q[1]);
  }

  lemma ApplyPhaseT(q: Qubit)
    ensures ApplyGate(q, "T") == Ok(Action("T", q[0], q[1]))
  {
    MatVecPair(PhaseT, q);
    assert C1.Times(q[0]).Plus(C0.Times(q[1])) == q[0];
    assert C0.Times(q[0]).Plus(Omega.Times(q[1])) == Omega.Times(q[1]);
  }

  /** H, X and Z on |0⟩: |+⟩, |1⟩ and |0⟩ again. */
  lemma HadamardOfZero(q: Qubit, gate: string)
    requires q == [C1, C0] && gate == "H"
    ensures ApplyGate(q, gate) == Ok([R, R])
  {
    ApplyGateAmplitudes(q, gate);
    RTimesSum();
    RTimesDifference();
  }

  lemma PauliXOfZero(q: Qubit, gate: string)
    requires q == [C1, C0] && gate == "X"
    ensures ApplyGate(q, gate) == Ok([C0, C1])
  {
    ApplyGateAmplitudes(q, gate);
  }

  lemma PauliZOfZero(q: Qubit, gate: string)
    requires q == [C1, C0] && gate == "Z"
    ensures ApplyGate(q, gate) == Ok([C1, C0])
  {
    ApplyGateAmplitudes(q, gate);
    NegZero();
  }

  /** A gate of the table applied to a pair, entry by entry. */
  lemma MatVecPair(m: Matrix, q: Qubit)
    requires |m| == 2 && |m[0]| == 2 && |m[1]| == 2
    ensures MatVec(m, q) == [m[0][0].Times(q[0]).Plus(m[0][1].Times(q[1])),
                             m[1][0].Times(q[0]).Plus(m[1][1].Times(q[1]))]
  {
    DotPair(m[0], q);
    DotPair(m[1], q);
  }

  /** Every gate in the table is unitary, so applying one keeps
      |a|² + |b|². */
  lemma ApplyGatePreservesNorm(q: Qubit, gate: string)
    requires gate in GateNames
    ensures SquaredNorm(ApplyGate(q, gate).value) == SquaredNorm(q)
  {
    ApplyGateAmplitudes(q, gate);
    ActionKeepsNorm(gate, q[0], q[1]);
    assert q == [q[0], q[1]];
  }

  lemma ActionKeepsNorm(gate: string, a: Complex, b: Complex)
    requires gate in GateNames
    ensures SquaredNorm(Action(gate, a, b)) == SquaredNorm([a, b])
  {
    var after := Action(gate, a, b);
    if gate == "H" {
      HadamardKeepsNorm(a, b);
    } else if gate == "X" {
      SwapKeepsNorm(a, b);
    } else {
      var c := after[1];
      assert after == [a, c];
      if gate == "Z" {
        NormSqNeg(b);
      } else if gate == "S" {
        IIsUnit();
        NormSqUnitFactor(I, b);
      } else {
        OmegaIsUnit();
        NormSqUnitFactor(Omega, b);
      }
      SecondKeepsNorm(a, b, c);
    }
  }

  /** |(a + b)/√2|² + |(a − b)/√2|² = |a|² + |b|² */
  lemma HadamardKeepsNorm(a: Complex, b: Complex)
    ensures SquaredNorm([R.Times(a.Plus(b)), R.Times(a.Minus(b))]) == SquaredNorm([a, b])
  {
    SquaredNormPair([a, b]);
    SquaredNormPair([R.Times(a.Plus(b)), R.Times(a.Minus(b))]);
    NormSqOverSqrt2(a.Plus(b));
    NormSqOverSqrt2(a.Minus(b));
    Parallelogram(a, b);
    HalvesOfDouble(a.Plus(b).NormSq(), a.Minus(b).NormSq(), a.NormSq().Plus(b.NormSq()));
  }

  /** |b|² + |a|² = |a|² + |b|² */
  lemma SwapKeepsNorm(a: Complex, b: Complex)
    ensures SquaredNorm([b, a]) == SquaredNorm([a, b])
  {
    SquaredNormPair([a, b]);
    SquaredNormPair([b, a]);
  }

  /** Replacing the |1⟩ amplitude by one of the same magnitude keeps the norm. */
  lemma SecondKeepsNorm(a: Complex, b: Complex, c: Complex)
    requires c.NormSq() == b.NormSq()
    ensures SquaredNorm([a, c]) == SquaredNorm([a, b])
  {
    SquaredNormPair([a, b]);
    SquaredNormPair([a, c]);
  }
}
