/** A worked circuit: the register ['0', '1'] through H on qubit 0 and then
    CNOT(0, 1), followed by its probabilities. */
module Bell {
  import opened Surds
  import opened Complexes
  import opened Vectors
  import opened Errors
  import opened Gates
  import opened Cnot
  import opened Circuit
  import opened Measurement

  /** The register ['0', '1'] through H on qubit 0 and then CNOT(0, 1):
      H takes qubit 0 to (r, r), r = 1/√2, and apply_cnot then writes the
      first half of its four amplitudes (0, r, r, 0) to qubit 0 and the
      second half to qubit 1. */
  lemma BellCircuit(states: seq<string>, ops: seq<Operation>)
    requires states == ["0", "1"]
    requires ops == [Single(0, "H"), Controlled("CNOT", 0, 1)]
    ensures Simulate(states, ops) == Ok([[C0, R], [R, C0]])
  {
    ZeroOneRegister(states);
    var start := InitialQubits(states).value;
    HadamardStep(start, ops[0]);
    var mid := Step(start, ops[0]).value;
    CnotOnPlusZero(mid, ops[1]);
    RunOfTwo(start, ops);
  }

  /** After that circuit the only basis state with non-zero probability is
      10, with probability 1/4: the four probabilities add up to 1/4, not 1,
      because apply_cnot writes products of amplitudes back into the two
      slots rather than an entangled state. */
  lemma BellProbabilities(states: seq<string>, ops: seq<Operation>)
    requires states == ["0", "1"]
    requires ops == [Single(0, "H"), Controlled("CNOT", 0, 1)]
    ensures Simulate(states, ops).Ok?
    ensures var p := StateProbabilities(Simulate(states, ops).value);
      p == Ok([Zero, Zero, Surd(0.25, 0.0), Zero]) && Sum(p.value) == Surd(0.25, 0.0)
  {
    BellCircuit(states, ops);
    var qs := Simulate(states, ops).value;
    assert qs == [qs[0], qs[1]] by {
      TwoSlots(qs);
    }
    HalfHalfProbabilities(qs[0], qs[1]);
    QuarterSum(StateProbabilities(qs).value);
  }

  lemma QuarterSum(p: seq<Surd>)
    requires p == [Zero, Zero, Surd(0.25, 0.0), Zero]
    ensures Sum(p) == Surd(0.25, 0.0)
  {
    SumOfFour(p);
    Surds.PlusZero(p[2]);
    ZeroPlus(p[2]);
  }

  lemma SumOfFour(p: seq<Surd>)
    requires |p| == 4
    ensures Sum(p) == p[0].Plus(p[1].Plus(p[2].Plus(p[3])))
  {
    assert p[1..][1..] == p[2..] && p[2..][1..] == p[3..] && p[3..][1..] == [];
    assert Sum(p[3..]) == p[3] by {
      Surds.PlusZero(p[3]);
    }
    assert Sum(p[2..]) == p[2].Plus(p[3]);
    assert Sum(p[1..]) == p[1].Plus(p[2].Plus(p[3]));
  }

  /** A two-operation run is the two steps one after the other. */
  lemma RunOfTwo(qs: seq<Qubit>, ops: seq<Operation>)
    requires |ops| == 2
    ensures Run(qs, ops) ==
      match Step(qs, ops[0]) case Err(e) => Err(e) case Ok(m) => Step(m, ops[1])
  {
    assert ops[1..] == [ops[1]] && ops[1..][1..] == [];
    match Step(qs, ops[0]) {
      case Err(_) =>
      case Ok(m) =>
        match Step(m, ops[1]) {
          case Err(_) =>
          case Ok(last) =>
            assert Run(last, []) == Ok(last);
        }
    }
  }

  lemma ZeroOneRegister(states: seq<string>)
    requires states == ["0", "1"]
    ensures InitialQubits(states).Ok?
    ensures var r := InitialQubits(states).value;
      |r| == 2 && r[0] == [C1, C0] && r[1] == [C0, C1]
  {
  }

  /** A gate on qubit 0 of a two-qubit register. */
  lemma GateOnFirstOfTwo(qs: seq<Qubit>, op: Operation)
    requires |qs| == 2 && op.Single? && op.index == 0 && op.gate in GateNames
    ensures Step(qs, op) == Ok([Action(op.gate, qs[0][0], qs[0][1]), qs[1]])
  {
    StepSingle(qs, op.index, op.gate);
    TwoSlots(Step(qs, op).value);
  }

  lemma HadamardStep(qs: seq<Qubit>, op: Operation)
    requires |qs| == 2 && qs[0] == [C1, C0] && qs[1] == [C0, C1]
    requires op == Single(0, "H")
    ensures Step(qs, op).Ok?
    ensures var r := Step(qs, op).value;
      |r| == 2 && r[0] == [R, R] && r[1] == [C0, C1]
  {
    HadamardOnZero(op.gate, qs[0][0], qs[0][1]);
    HadamardOnFirst(qs, op);
  }

  lemma HadamardOnFirst(qs: seq<Qubit>, op: Operation)
    requires |qs| == 2 && qs[1] == [C0, C1]
    requires op.Single? && op.index == 0 && op.gate in GateNames
    requires Action(op.gate, qs[0][0], qs[0][1]) == [R, R]
    ensures Step(qs, op).Ok?
    ensures var r := Step(qs, op).value;
      |r| == 2 && r[0] == [R, R] && r[1] == [C0, C1]
  {
    GateOnFirstOfTwo(qs, op);
  }

  lemma HadamardOnZero(gate: string, a: Complex, b: Complex)
    requires gate == "H" && a == C1 && b == C0
    ensures gate in GateNames && Action(gate, a, b) == [R, R]
  {
    RTimesSum();
    RTimesDifference();
  }

  /** CNOT(0, 1) on a two-qubit register. */
  lemma CnotOnTwo(qs: seq<Qubit>, op: Operation)
    requires |qs| == 2 && op.Controlled? && op.name == "CNOT" && op.control == 0 && op.target == 1
    ensures var (c, t) := (qs[0], qs[1]);
      Step(qs, op) == Ok([[c[0].Times(t[0]), c[0].Times(t[1])], [c[1].Times(t[1]), c[1].Times(t[0])]])
  {
    CnotSlots(qs, op.control, op.target, 0, 1);
    TwoSlots(Step(qs, op).value);
  }

  lemma CnotOnPlusZero(qs: seq<Qubit>, op: Operation)
    requires |qs| == 2 && qs[0] == [R, R] && qs[1] == [C0, C1]
    requires op == Controlled("CNOT", 0, 1)
    ensures Step(qs, op) == Ok([[C0, R], [R, C0]])
  {
    CnotOnTwo(qs, op);
    TimesZero(R);
    TimesOne(R);
  }
}
