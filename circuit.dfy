/** Running a circuit (simulate_circuit): build the register from the
    initial-state labels, then apply the operations of the gate sequence one
    after another, each either a one-qubit gate on one slot or a CNOT. */
module Circuit {
  import opened Surds
  import opened Vectors
  import opened Errors
  import opened Gates
  import opened Cnot

  /** One entry of the gate sequence, by the shape of its tuple. */
  datatype Operation =
    | Single(index: int, gate: string)                      // (qubit index, gate name)
    | Controlled(name: string, control: int, target: int)   // (name, control, target)
    | Unsupported                                           // a tuple of any other length

  /** The register built from the labels, one qubit per label in order; the
      first label outside '0', '1', '+', '-' raises ValueError. */
  function InitialQubits(states: seq<string>): (r: Result<seq<Qubit>>)
    ensures r.Ok? <==> forall i :: 0 <= i < |states| ==> states[i] in Labels
    ensures r.Ok? ==> |r.value| == |states|
    ensures r.Ok? ==> forall i :: 0 <= i < |states| ==> r.value[i] == CreateQubit(states[i]).value
    ensures r.Err? ==> r.error == ValueError(UnknownState)
  {
    if states == [] then Ok([])
    else match CreateQubit(states[0])
      case Err(e) => Err(e)
      case Ok(q) =>
        match InitialQubits(states[1..])
        case Err(e) => Err(e)
        case Ok(rest) => Ok([q] + rest)
  }

  /** Every register built from valid labels consists of unit vectors. */
  lemma InitialQubitsAreUnit(states: seq<string>)
    ensures InitialQubits(states).Ok? ==> AllUnit(InitialQubits(states).value)
  {
    if InitialQubits(states).Ok? {
      var qs := InitialQubits(states).value;
      forall i | 0 <= i < |qs|
        ensures SquaredNorm(qs[i]) == One
      {
        CreateQubitIsUnit(states[i]);
      }
    }
  }

  /** One operation on the register. A pair reads the qubit at its index
      (IndexError), applies the gate (ValueError for an unknown name) and
      stores the result back; a triple named 'CNOT' is apply_cnot; every other
      shape raises ValueError. */
  function Step(qs: seq<Qubit>, op: Operation): (r: Result<seq<Qubit>>)
    ensures r.Ok? ==> |r.value| == |qs|
    ensures op.Unsupported? || (op.Controlled? && op.name != "CNOT") ==>
      r == Err(ValueError(UnsupportedOperation))
    ensures op.Controlled? && op.name == "CNOT" ==> r == CnotSpec(qs, op.control, op.target)
  {
    match op
    case Single(index, gate) =>
      (match PyIndex(index, |qs|)
       case Err(e) => Err(e)
       case Ok(k) =>
         match ApplyGate(qs[k], gate)
         case Err(e) => Err(e)
         case Ok(q) => Ok(qs[k := q]))
    case Controlled(name, control, target) =>
      if name == "CNOT" then CnotSpec(qs, control, target)
      else Err(ValueError(UnsupportedOperation))
    case Unsupported =>
      Err(ValueError(UnsupportedOperation))
  }

  /** The operations applied in order; the first one that raises stops the
      run with its error. */
  function Run(qs: seq<Qubit>, ops: seq<Operation>): (r: Result<seq<Qubit>>)
    ensures r.Ok? ==> |r.value| == |qs|
    decreases |ops|
  {
    if ops == [] then Ok(qs)
    else match Step(qs, ops[0])
      case Err(e) => Err(e)
      case Ok(next) => Run(next, ops[1..])
  }

  /** simulate_circuit as a value: the register from the labels, then the run. */
  function Simulate(states: seq<string>, ops: seq<Operation>): (r: Result<seq<Qubit>>)
    ensures r.Ok? ==> |r.value| == |states|
    ensures (exists i :: 0 <= i < |states| && states[i] !in Labels) ==> r == Err(ValueError(UnknownState))
  {
    match InitialQubits(states)
    case Err(e) => Err(e)
    case Ok(qs) => Run(qs, ops)
  }

  /** A one-qubit operation: it succeeds exactly when the index is inside
      the register (after wrap-around) and the gate is in the table, an
      out-of-range index being reported before an unknown gate; it replaces
      the addressed slot by the gate's action and leaves every other slot as
      it was. */
  lemma StepSingle(qs: seq<Qubit>, index: int, gate: string)
    ensures Step(qs, Single(index, gate)).Ok? <==>
      -|qs| <= index < |qs| && gate in GateNames
    ensures !(-|qs| <= index < |qs|) ==> Step(qs, Single(index, gate)) == Err(IndexError)
    ensures -|qs| <= index < |qs| && gate !in GateNames ==>
      Step(qs, Single(index, gate)) == Err(ValueError(UnknownGate))
    ensures Step(qs, Single(index, gate)).Ok? ==>
      var (r, k) := (Step(qs, Single(index, gate)).value, PyIndex(index, |qs|).value);
      && r[k] == Action(gate, qs[k][0], qs[k][1])
      && forall j :: 0 <= j < |qs| && j != k ==> r[j] == qs[j]
  {
    if -|qs| <= index < |qs| && gate in GateNames {
      var k := PyIndex(index, |qs|).value;
      ApplyGateAmplitudes(qs[k], gate);
    }
  }

  /** Running `a` and then `b` is running `a + b`: the operations are applied
      in the order of the sequence. */
  lemma {:induction false} RunAppend(qs: seq<Qubit>, a: seq<Operation>, b: seq<Operation>)
    ensures Run(qs, a + b) == match Run(qs, a) case Err(e) => Err(e) case Ok(m) => Run(m, b)
    decreases |a|
  {
    if a != [] {
      assert (a + b)[0] == a[0] && (a + b)[1..] == a[1..] + b;
      match Step(qs, a[0])
      case Err(e) =>
      case Ok(next) => RunAppend(next, a[1..], b);
    } else {
      assert a + b == b;
    }
  }

  /** A circuit made only of one-qubit gates keeps every qubit a unit
      vector. */
  lemma {:induction false} RunGatesKeepUnit(qs: seq<Qubit>, ops: seq<Operation>)
    requires AllUnit(qs)
    requires forall i :: 0 <= i < |ops| ==> ops[i].Single?
    ensures Run(qs, ops).Ok? ==> AllUnit(Run(qs, ops).value)
    decreases |ops|
  {
    if ops != [] {
      match Step(qs, ops[0]) {
        case Err(_) =>
        case Ok(next) =>
          assert AllUnit(next) by {
            StepSingleKeepsUnit(qs, ops[0].index, ops[0].gate);
          }
          assert forall i :: 0 <= i < |ops[1..]| ==> ops[1..][i].Single?;
          RunGatesKeepUnit(next, ops[1..]);
      }
    }
  }

  /** One gate keeps every qubit of the register a unit vector. */
  lemma StepSingleKeepsUnit(qs: seq<Qubit>, index: int, gate: string)
    requires AllUnit(qs)
    ensures Step(qs, Single(index, gate)).Ok? ==> AllUnit(Step(qs, Single(index, gate)).value)
  {
    if Step(qs, Single(index, gate)).Ok? {
      StepSingle(qs, index, gate);
      var k := PyIndex(index, |qs|).value;
      ApplyGateAmplitudes(qs[k], gate);
      ApplyGatePreservesNorm(qs[k], gate);
    }
  }

  /** The loop of simulate_circuit over a register held in one array: a pair
      overwrites one slot, a CNOT updates the array in place and hands back
      the same array. */
  method SimulateCircuit(initialStates: seq<string>, operations: seq<Operation>)
    returns (r: Result<seq<Qubit>>)
    ensures r == Simulate(initialStates, operations)
  {
    var init := InitialQubits(initialStates);
    if init.Err? {
      return Err(init.error);
    }
    var start := init.value;
    var qubits := new Qubit[|start|](i requires 0 <= i < |start| => start[i]);
    assert qubits[..] == start && operations[0..] == operations;
    var i := 0;
    while i < |operations|
      invariant 0 <= i <= |operations|
      invariant fresh(qubits)
      invariant Run(qubits[..], operations[i..]) == Run(start, operations)
    {
      ghost var before := qubits[..];
      assert operations[i..][0] == operations[i] && operations[i..][1..] == operations[i + 1..];
      match operations[i] {
        case Single(index, gate) =>
          var k := PyIndex(index, qubits.Length);
          if k.Err? {
            return Err(k.error);
          }
          var q := ApplyGate(qubits[k.value], gate);
          if q.Err? {
            return Err(q.error);
          }
          qubits[k.value] := q.value;
        case Controlled(name, control, target) =>
          if name != "CNOT" {
            return Err(ValueError(UnsupportedOperation));
          }
          var result := ApplyCnot(qubits, control, target);
          if result.Err? {
            return Err(result.error);
          }
          qubits := result.value;
        case Unsupported =>
          return Err(ValueError(UnsupportedOperation));
      }
      assert Step(before, operations[i]) == Ok(qubits[..]);
      i := i + 1;
    }
    assert operations[i..] == [];
    return Ok(qubits[..]);
  }
}
