# Qubit state-vector simulator — a Dafny model

This project models the core of a small state-vector quantum simulator,
`project/project.py`:

- `create_qubit` builds a one-qubit state from one of the labels '0', '1',
  '+' or '-'.
- `apply_gate` multiplies a qubit by one of five fixed 2×2 matrices: H, X,
  Z, S and T.
- `apply_cnot` takes the Kronecker product of a control and a target qubit
  and multiplies it by the 4×4 CNOT permutation. It then writes the first
  half of the result into the control's slot and the second half into the
  target's slot, in place, and returns the same list.
- `simulate_circuit` builds the register from the labels and then runs a
  sequence of operations. Each operation is an `(index, gate)` pair, a
  `('CNOT', control, target)` triple, or anything else, which raises
  `ValueError`.
- `calculate_probabilities` folds the register left to right with the
  Kronecker product, so qubit 0 is the most significant bit of a basis-state
  index. It then returns the squared magnitude of every amplitude.

Amplitudes are exact. The model does not use floating point: every number
the program produces lies in Q(√2)(i). A `Surd(p, q)` stands for p + q·√2,
and a `Complex` has surd real and imaginary parts. 1/√2 is `Surd(0, 1/2)`,
and e^{iπ/4} is (1/√2)(1 + i). Python's exceptions become a
`Result`/`Error` datatype: `ValueError` with its reason, or `IndexError`.
Python's list indexing, including the wrap-around of negative indices, is
written out as `PyIndex`.

The model follows the code as written, including its CNOT. The product
state is never factorised: the two halves of CNOT·(c ⊗ t) are simply stored
back as two "qubits". The proved consequences are:

- A CNOT from |0⟩ to |1⟩ leaves (0, 1) in the control's slot and (0, 0) in
  the target's slot (`Cnot.CnotFromZero`). A CNOT would have left |0⟩|1⟩
  unchanged.
- The two slots together keep ‖c‖²·‖t‖² (`Cnot.CnotJointNorm`), but each
  slot on its own need not be a unit vector: in `Cnot.CnotFromZero` the
  target slot becomes (0, 0).
- The circuit H(0) then CNOT(0, 1) on |0⟩|1⟩ ends in the slots (0, 1/√2) and
  (1/√2, 0) (`Bell.BellCircuit`). Its probabilities are (0, 0, 1/4, 0), which
  add up to 1/4 (`Bell.BellProbabilities`).

Where the code and its documented intent disagree, the model follows the
code. The repository's tests for `apply_cnot`, `calculate_probabilities`
and `simulate_circuit` (test_project.py:64, 73, 83-84) compare with a
tolerance of 10, so they pass whatever the code computes. The model states
what the code computes instead:

- `Cnot.CnotFromZero`: [(0, 1), (0, 0)], not [(1, 0), (1, 0)].
- `Measurement.ZeroOneProbabilities`: (0, 1, 0, 0) for |0⟩|1⟩, not
  (0, 0, 1, 0).
- `Bell.BellCircuit`: the slots above, not ((r, r), (0, 1)).

Modules, in dependency order:

| file | module | contents |
|---|---|---|
| numbers.dfy | `Surds`, `Complexes` | exact arithmetic in Q(√2)(i) |
| vectors.dfy | `Vectors` | `dot`, `kron` and `abs(v) ** 2` over exact vectors |
| errors.dfy | `Errors` | exceptions, `Result`, Python indexing |
| gates.dfy | `Gates` | `create_qubit`, the gate table, `apply_gate` |
| cnot.dfy | `Cnot` | `apply_cnot` as a function and as an in-place method on an array |
| circuit.dfy | `Circuit` | `simulate_circuit` as a function and as a loop over an array |
| measurement.dfy | `Measurement` | `calculate_probabilities` as a function and as a loop |
| bell.dfy | `Bell` | the two-qubit circuit of the repository's tests, worked out |

## Model

| member | source | states |
|---|---|---|
| Gates.CreateQubit | project/project.py:9-24 | Succeeds exactly for the labels '0', '1', '+' and '-'. Any other label gives ValueError (unknown state). |
| Gates.CreateQubitIsUnit | project/project.py:11-22 | Each of the four states has abs(a)² + abs(b)² = 1. |
| Gates.GatesAreTwoByTwo | project/project.py:29-37 | Every matrix in the gate table is 2×2. |
| Gates.GateNamesAreTableKeys | project/project.py:29-40 | The names accepted by the unknown-gate check are exactly the keys of the gate table. |
| Gates.ApplyGate | project/project.py:26-42 | Succeeds exactly for H, X, Z, S and T. Any other name gives ValueError (unknown gate). |
| Gates.ApplyGateAmplitudes | project/project.py:29-42 | gates[gate]·q equals a hand-written action: H maps (a, b) to ((a+b)/√2, (a−b)/√2), X swaps, Z negates b, S multiplies b by i, T multiplies b by e^{iπ/4}. |
| Gates.ApplyHadamard | project/project.py:30-32 | The Hadamard matrix times q is ((q0+q1)/√2, (q0−q1)/√2). |
| Gates.ApplyPauliX | project/project.py:33 | Pauli X times q is (q1, q0). |
| Gates.ApplyPauliZ | project/project.py:34 | Pauli Z times q is (q0, −q1). |
| Gates.ApplyPhaseS | project/project.py:35 | S times q is (q0, i·q1). |
| Gates.ApplyPhaseT | project/project.py:36 | T times q is (q0, e^{iπ/4}·q1). |
| Gates.ApplyGatePreservesNorm | project/project.py:29-42 | Every gate in the table is unitary: the result has the same squared norm as q. |
| Gates.ActionKeepsNorm | project/project.py:29-37 | Each gate's action keeps abs(a)² + abs(b)². |
| Gates.HadamardOfZero | test_project.py:37-40 | H on state 0 = (1, 0) gives (1/√2, 1/√2). |
| Gates.PauliXOfZero | test_project.py:42-45 | X on state 0 = (1, 0) gives state 1 = (0, 1). |
| Gates.PauliZOfZero | test_project.py:47-50 | Z on state 0 = (1, 0) gives state 0 = (1, 0). |
| Errors.PyIndex | project/project.py:51 | A list index is valid exactly when −n ≤ i < n. A negative index counts from the end. Otherwise IndexError. |
| Vectors.MatVec | project/project.py:42 | np.dot of a matrix and a vector: one entry per row, each the row's dot product with the vector. |
| Vectors.Kron | project/project.py:68 | np.kron of two 1-D arrays has len(u)·len(v) entries; what each entry holds is stated by KronAt, KronPair and SquaredNormKron. |
| Vectors.KronAt | project/project.py:68 | For a pair v, entry 2i + j of kron(u, v) is u[i]·v[j]. |
| Vectors.KronPair | project/project.py:68 | kron(c, t) of two qubits is (c0t0, c0t1, c1t0, c1t1). |
| Vectors.Probabilities | project/project.py:97 | One entry per amplitude, each its squared magnitude. |
| Vectors.SquaredNormKron | project/project.py:95 | ‖kron(u, v)‖² = ‖u‖²·‖v‖². |
| Cnot.PermutationMatrixPermutes | project/project.py:70-78 | A matrix of unit rows perm[0], perm[1], … maps v to (v[perm[0]], v[perm[1]], …). |
| Cnot.CnotMatrixSwaps | project/project.py:70-78 | The 4×4 matrix keeps entries 0 and 1 and swaps entries 2 and 3. |
| Cnot.Entangle | project/project.py:68-78 | CNOT·(c ⊗ t) = (c0t0, c0t1, c1t1, c1t0). |
| Cnot.CnotControlZero | project/project.py:68-78 | With the control in state 0 = (1, 0), the joint state is c ⊗ t unchanged. |
| Cnot.CnotControlOne | project/project.py:68-78 | With the control in state 1 = (0, 1), the joint state is c ⊗ X·t. |
| Cnot.CnotSpec | project/project.py:62-84 | Succeeds exactly when there are at least 2 qubits and both indices are in [−n, n). Otherwise ValueError (too few qubits) when n < 2, else IndexError. The length is kept. |
| Cnot.CnotSlots | project/project.py:81-82 | The control slot becomes (c0t0, c0t1) and the target slot (c1t1, c1t0). When both indices name one slot, the target write wins: (c1c1, c1c0). Every other slot is unchanged. |
| Cnot.EntangleKeepsNorm | project/project.py:68-82 | The two halves of CNOT·(c ⊗ t) together carry ‖c‖²·‖t‖². |
| Cnot.CnotJointNorm | project/project.py:68-82 | For distinct slots, ‖control'‖² + ‖target'‖² = ‖c‖²·‖t‖². |
| Cnot.CnotFromZero | project/project.py:62-84 | A CNOT on [state 0 = (1, 0), t] gives [t, (0, 0)]. |
| Cnot.ApplyCnot | project/project.py:62-84 | On an array, in place. It succeeds exactly when CnotSpec does; then it returns the same array, whose contents are CnotSpec's list. On an error it raises the same error and has written nothing. |
| Circuit.InitialQubits | project/project.py:45 | Succeeds exactly when every label is valid; then slot i is create_qubit(label i). Otherwise ValueError (unknown state). |
| Circuit.InitialQubitsAreUnit | project/project.py:45 | Every register built from valid labels consists of unit vectors. |
| Circuit.Step | project/project.py:49-58 | One operation keeps the length. A CNOT triple is CnotSpec. Any other triple, or any other shape, gives ValueError (unsupported). |
| Circuit.StepSingle | project/project.py:49-51 | A pair succeeds exactly when the index is valid and the gate is in the table. An out-of-range index gives IndexError, checked before the gate name. The addressed slot gets the gate's action and every other slot is unchanged. |
| Circuit.Run | project/project.py:48-58 | A run that succeeds keeps the register's length. |
| Circuit.RunAppend | project/project.py:48-58 | Running a + b is running a, then b on its result, stopping at the first error. |
| Circuit.Simulate | project/project.py:44-60 | The result has one qubit per label. Any invalid label gives ValueError (unknown state). |
| Circuit.StepSingleKeepsUnit | project/project.py:50-51 | A one-qubit gate keeps every qubit of the register a unit vector. |
| Circuit.RunGatesKeepUnit | project/project.py:48-51 | A circuit of one-qubit gates only keeps every qubit a unit vector. |
| Circuit.SimulateCircuit | project/project.py:44-60 | The loop over a register held in one array, with CNOTs updating it in place, returns exactly Simulate's result. |
| Measurement.Joint | project/project.py:90-95 | The folded Kronecker product of n qubits has 2ⁿ entries. |
| Measurement.StateProbabilities | project/project.py:88-98 | Succeeds exactly for a non-empty register, with 2ⁿ entries. An empty register gives IndexError. |
| Measurement.BitsRoundTrip | project/project.py:93-95 | The n-bit expansion, most significant bit first, of any k < 2ⁿ reads back as k. |
| Measurement.JointAt | project/project.py:93-95 | Amplitude k of the joint state is ∏ q_i[bit_i(k)], with qubit 0 on the most significant bit. |
| Measurement.NormSqOfProduct | project/project.py:97 | abs(∏ q_i[b_i])² = ∏ abs(q_i[b_i])². |
| Measurement.ProbabilityAt | project/project.py:88-98 | Probability k is ∏ abs(q_i[bit_i(k)])². |
| Measurement.ProbabilitiesSum | project/project.py:88-98 | The probabilities add up to the product of the qubits' squared norms. |
| Measurement.NormProductOfUnits | project/project.py:88-98 | For unit qubits, the product of the squared norms is 1. |
| Measurement.UnitRegisterSumsToOne | project/project.py:88-98 | For a register of unit qubits, the probabilities add up to 1. |
| Measurement.CalculateProbabilities | project/project.py:88-98 | The loop, including its separate one-qubit branch and the IndexError for an empty register, returns exactly StateProbabilities. |
| Measurement.GateCircuitSumsToOne | project/project.py:44-98 | For a non-empty list of valid labels and a circuit of one-qubit gates only, the probabilities of the result add up to 1. |
| Measurement.JointOfTwo | project/project.py:93-95 | The joint state of two qubits is kron(q0, q1). |
| Measurement.ZeroOneProbabilities | test_project.py:66-73 | For the register (0, 1) the code gives (0, 1, 0, 0): basis state 01, with qubit 0 as the high bit. |
| Measurement.HalfHalfProbabilities | project/project.py:88-98 | The register ((0, 1/√2), (1/√2, 0)) gives (0, 0, 1/4, 0). |
| Bell.BellCircuit | test_project.py:75-84 | simulate_circuit(['0', '1'], [(0, 'H'), ('CNOT', 0, 1)]) gives [(0, 1/√2), (1/√2, 0)]. |
| Bell.BellProbabilities | project/project.py:88-98 | Measuring that circuit's result gives (0, 0, 1/4, 0), with total 1/4. |
| Bell.GateOnFirstOfTwo | project/project.py:49-51 | A gate on qubit 0 of a two-qubit register replaces slot 0 by the gate's action and keeps slot 1. |
| Bell.CnotOnTwo | project/project.py:53-55 | ('CNOT', 0, 1) on [c, t] gives [(c0t0, c0t1), (c1t1, c1t0)]. |

## Left out

- The entry point, command-line input, printing (project.py lines 46, 52 and 56), the histogram and PDF plotting, and the banner. They are I/O.
- Floating point. Amplitudes are exact elements of Q(√2)(i), so 1/√2 and e^{iπ/4} carry no rounding. Results that numpy would give only up to rounding are stated as exact equalities.
- The tolerance of the repository's tests (atol=10). The model states what the code computes, as listed above.
- Operation tuples are modelled by shape. A pair is `Single(index, gate)`, a triple is `Controlled(name, control, target)`, and any other length is `Unsupported`. A tuple element of the wrong Python type would raise TypeError; this is not modelled.
- A qubit is a two-entry vector by type. The program only ever builds two-entry qubits: from create_qubit, from apply_gate, and as the halves of apply_cnot.
- numpy array identity. Slices of the joint state are views in numpy, but nothing writes into them afterwards, so they are modelled as values. The register list, which apply_cnot updates in place, is an array.
- Circuit.Run: its own contract states only that the length is kept. What a run computes is stated by RunAppend, StepSingle, Step and the examples.
- The default argument of create_qubit (label '0'). simulate_circuit always passes a label, so the default is never used by the core.
- Vectors.Kron: its own contract states only the number of entries; the entries are stated by KronAt (for a pair on the right, the only case the program uses), KronPair and SquaredNormKron.
