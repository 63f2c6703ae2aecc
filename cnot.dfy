/** The two-qubit CNOT of the simulator (apply_cnot). It forms the product
    state of the control and target qubits, applies the 4×4 CNOT permutation
    to it, and then writes the first half of the result into the control's
    slot and the second half into the target's slot, in that order. The split
    is not a factorisation of the joint state: the model keeps it exactly as
    the program does. */
module Cnot {
  import opened Complexes
  import opened Vectors
  import opened Errors
  import opened Gates

  /** A row of n entries that is 1 at position k and 0 elsewhere (all 0 when
      k is outside the row). */
  function UnitRow(n: nat, k: int): (row: Vector)
    ensures |row| == n
  {
    if n == 0 then [] else [if k == 0 then C1 else C0] + UnitRow(n - 1, k - 1)
  }

  /** The permutation matrix whose row i is the unit row perm[i], so that
      (M·v)[i] = v[perm[i]]. */
  function PermutationMatrix(perm: seq<nat>): (m: Matrix)
    ensures |m| == |perm|
    ensures forall i :: 0 <= i < |perm| ==> m[i] == UnitRow(|perm|, perm[i])
  {
    seq(|perm|, i requires 0 <= i < |perm| => UnitRow(|perm|, perm[i]))
  }

  /** CNOT on |pq⟩ with p the control: the rows are the unit rows 0, 1, 3, 2,
      so that |10⟩ and |11⟩ trade places. */
  const CnotOrder: seq<nat> := [0, 1, 3, 2]
  const CnotMatrix: Matrix := PermutationMatrix(CnotOrder)

  /** The dot product with a unit row picks out one entry. */
  lemma {:induction false} DotPicks(v: Vector, k: int)
    ensures Dot(UnitRow(|v|, k), v) == if 0 <= k < |v| then v[k] else C0
  {
    if v != [] {
      var row := UnitRow(|v|, k);
      assert row[1..] == UnitRow(|v| - 1, k - 1);
      DotPicks(v[1..], k - 1);
      if k == 0 {
        assert C1.Times(v[0]).Plus(C0) == v[0];
      } else {
        assert C0.Times(v[0]).Plus(Dot(row[1..], v[1..])) == Dot(row[1..], v[1..]);
      }
    }
  }

  /** A permutation matrix rearranges the entries of v. */
  lemma PermutationMatrixPermutes(perm: seq<nat>, v: Vector)
    requires |perm| == |v|
    ensures Conforms(PermutationMatrix(perm), v)
    ensures forall i :: 0 <= i < |v| ==>
      MatVec(PermutationMatrix(perm), v)[i] == if perm[i] < |v| then v[perm[i]] else C0
  {
    forall i | 0 <= i < |v|
      ensures MatVec(PermutationMatrix(perm), v)[i] == if perm[i] < |v| then v[perm[i]] else C0
    {
      DotPicks(v, perm[i]);
    }
  }

  /** The CNOT matrix keeps entries 0 and 1 and swaps entries 2 and 3. */
  lemma CnotMatrixSwaps(v: Vector)
    requires |v| == 4
    ensures Conforms(CnotMatrix, v)
    ensures MatVec(CnotMatrix, v) == [v[0], v[1], v[3], v[2]]
  {
    SwapLastTwo(CnotOrder, v);
  }

  /** Any permutation matrix with the order 0, 1, 3, 2 swaps the last two
      entries of a four-entry vector. */
  lemma SwapLastTwo(perm: seq<nat>, v: Vector)
    requires |perm| == 4 && |v| == 4
    requires perm[0] == 0 && perm[1] == 1 && perm[2] == 3 && perm[3] == 2
    ensures Conforms(PermutationMatrix(perm), v)
    ensures MatVec(PermutationMatrix(perm), v) == [v[0], v[1], v[3], v[2]]
  {
    PermutationMatrixPermutes(perm, v);
    SwappedLastTwo(MatVec(PermutationMatrix(perm), v), v);
  }

  lemma SwappedLastTwo(m: Vector, v: Vector)
    requires |m| == 4 && |v| == 4
    requires m[0] == v[0] && m[1] == v[1] && m[2] == v[3] && m[3] == v[2]
    ensures m == [v[0], v[1], v[3], v[2]]
  {
  }

  /** The joint state after the CNOT matrix: CNOT·(c ⊗ t). */
  function Entangle(c: Qubit, t: Qubit): (j: Vector)
    ensures j == [c[0].Times(t[0]), c[0].Times(t[1]), c[1].Times(t[1]), c[1].Times(t[0])]
  {
    KronPair(c, t);
    CnotMatrixSwaps(Kron(c, t));
    MatVec(CnotMatrix, Kron(c, t))
  }

  /** The computational basis state |b⟩ of one qubit. */
  function Basis(b: nat): Qubit
    requires b < 2
  {
    if b == 0 then [C1, C0] else [C0, C1]
  }

  /** With the control in |0⟩ the joint state is the product state itself:
      the target is left alone. */
  lemma CnotControlZero(t: Qubit)
    ensures Entangle(Basis(0), t) == Kron(Basis(0), t)
  {
    KronPair(Basis(0), t);
    OneTimes(t[0]);
    OneTimes(t[1]);
    ZeroTimes(t[0]);
    ZeroTimes(t[1]);
  }

  /** With the control in |1⟩ the target's two amplitudes are exchanged, as
      an X on the target would do. */
  lemma CnotControlOne(t: Qubit)
    ensures Entangle(Basis(1), t) == Kron(Basis(1), [t[1], t[0]])
  {
    KronPair(Basis(1), [t[1], t[0]]);
    OneTimes(t[0]);
    OneTimes(t[1]);
    ZeroTimes(t[0]);
    ZeroTimes(t[1]);
  }

  /** apply_cnot on the list `qs`, as a value: ValueError for fewer than two
      qubits, IndexError for a control or target outside the list (after
      Python's wrap-around of negative indices); otherwise the control slot
      gets the first half of the joint state and then the target slot the
      second half, so that when both name one slot the second write wins. */
  function CnotSpec(qs: seq<Qubit>, control: int, target: int): (r: Result<seq<Qubit>>)
    ensures r.Ok? <==> 2 <= |qs| && -|qs| <= control < |qs| && -|qs| <= target < |qs|
    ensures r.Err? ==> r.error == if |qs| < 2 then ValueError(TooFewQubits) else IndexError
    ensures r.Ok? ==> |r.value| == |qs|
  {
    if |qs| < 2 then Err(ValueError(TooFewQubits))
    else match PyIndex(control, |qs|)
      case Err(e) => Err(e)
      case Ok(ci) =>
        match PyIndex(target, |qs|)
        case Err(e) => Err(e)
        case Ok(ti) =>
          var j := Entangle(qs[ci], qs[ti]);
          Ok(qs[ci := j[..2]][ti := j[2..]])
  }

  /** What each slot holds after a CNOT whose indices resolve to `ci` and
      `ti`: with c the control and t the target qubit, the control slot
      becomes (c0·t0, c0·t1) and the target slot (c1·t1, c1·t0); when both
      name one qubit c, that slot becomes (c1·c1, c1·c0); every other slot is
      unchanged. */
  lemma CnotSlots(qs: seq<Qubit>, control: int, target: int, ci: nat, ti: nat)
    requires 2 <= |qs|
    requires PyIndex(control, |qs|) == Ok(ci) && PyIndex(target, |qs|) == Ok(ti)
    ensures CnotSpec(qs, control, target).Ok?
    ensures var (r, c, t) := (CnotSpec(qs, control, target).value, qs[ci], qs[ti]);
      && (ci != ti ==> r[ci] == [c[0].Times(t[0]), c[0].Times(t[1])])
      && (ci != ti ==> r[ti] == [c[1].Times(t[1]), c[1].Times(t[0])])
      && (ci == ti ==> r[ci] == [c[1].Times(c[1]), c[1].Times(c[0])])
    ensures forall k :: 0 <= k < |qs| && k != ci && k != ti ==>
      CnotSpec(qs, control, target).value[k] == qs[k]
  {
    var j := Entangle(qs[ci], qs[ti]);
    assert CnotSpec(qs, control, target).value == qs[ci := j[..2]][ti := j[2..]];
  }

  /** The CNOT keeps the product of the two squared norms: for distinct
      control and target, ‖control'‖² + ‖target'‖² = ‖c‖²·‖t‖². */
  lemma CnotJointNorm(qs: seq<Qubit>, control: int, target: int, ci: nat, ti: nat)
    requires 2 <= |qs| && ci != ti
    requires PyIndex(control, |qs|) == Ok(ci) && PyIndex(target, |qs|) == Ok(ti)
    ensures CnotSpec(qs, control, target).Ok?
    ensures var r := CnotSpec(qs, control, target).value;
      SquaredNorm(r[ci]).Plus(SquaredNorm(r[ti])) == SquaredNorm(qs[ci]).Times(SquaredNorm(qs[ti]))
  {
    var j := Entangle(qs[ci], qs[ti]);
    assert CnotSpec(qs, control, target).value == qs[ci := j[..2]][ti := j[2..]];
    EntangleKeepsNorm(qs[ci], qs[ti]);
  }

  /** The two halves of CNOT·(c ⊗ t) together carry ‖c‖²·‖t‖². */
  lemma EntangleKeepsNorm(c: Qubit, t: Qubit)
    ensures var j := Entangle(c, t);
      SquaredNorm(j[..2]).Plus(SquaredNorm(j[2..])) == SquaredNorm(c).Times(SquaredNorm(t))
  {
    var j := Entangle(c, t);
    var k := Kron(c, t);
    assert k == [j[0], j[1], j[3], j[2]] by {
      KronPair(c, t);
    }
    assert SquaredNorm(j[2..]) == SquaredNorm(k[2..]) by {
      assert k[2..] == [j[3], j[2]] && j[2..] == [j[2], j[3]];
      SwapKeepsNorm(j[2], j[3]);
    }
    assert j[..2] == k[..2];
    SplitNorm(k);
    SquaredNormKron(c, t);
  }

  /** ‖v‖² = ‖v[..2]‖² + ‖v[2..]‖² for a four-entry vector. */
  lemma SplitNorm(v: Vector)
    requires |v| == 4
    ensures SquaredNorm(v) == SquaredNorm(v[..2]).Plus(SquaredNorm(v[2..]))
  {
    assert v == v[..2] + v[2..];
    ProbabilitiesAppend(v[..2], v[2..]);
    SumAppend(Probabilities(v[..2]), Probabilities(v[2..]));
  }

  /** A CNOT from qubit 0 in |0⟩ to qubit 1 in state t leaves t in the
      control's slot and (0, 0) in the target's: with t = |1⟩ the control
      reads (0, 1) and the target (0, 0), where a CNOT would leave |0⟩|1⟩
      unchanged. */
  lemma CnotFromZero(c: Qubit, t: Qubit)
    requires c == Basis(0)
    ensures CnotSpec([c, t], 0, 1) == Ok([t, [C0, C0]])
  {
    var qs := [c, t];
    CnotSlots(qs, 0, 1, 0, 1);
    var r := CnotSpec(qs, 0, 1).value;
    assert r[0] == t by {
      OneTimes(t[0]);
      OneTimes(t[1]);
    }
    assert r[1] == [C0, C0] by {
      ZeroTimes(t[1]);
      ZeroTimes(t[0]);
    }
    TwoSlots(r);
  }

  lemma TwoSlots(r: seq<Qubit>)
    requires |r| == 2
    ensures r == [r[0], r[1]]
  {
  }

  /** apply_cnot on the list itself: the slots are overwritten in place and
      the same list is returned; on an error nothing has been written. */
  method ApplyCnot(qubits: array<Qubit>, control: int, target: int) returns (r: Result<array<Qubit>>)
    modifies qubits
    ensures r.Ok? <==> CnotSpec(old(qubits[..]), control, target).Ok?
    ensures r.Ok? ==> r.value == qubits && qubits[..] == CnotSpec(old(qubits[..]), control, target).value
    ensures r.Err? ==> r.error == CnotSpec(old(qubits[..]), control, target).error
    ensures r.Err? ==> qubits[..] == old(qubits[..])
  {
    var n := qubits.Length;
    if n < 2 {
      return Err(ValueError(TooFewQubits));
    }
    var ci := PyIndex(control, n);
    if ci.Err? {
      return Err(ci.error);
    }
    var ti := PyIndex(target, n);
    if ti.Err? {
      return Err(ti.error);
    }
    var state := Kron(qubits[ci.value], qubits[ti.value]);
    var next := MatVec(CnotMatrix, state);
    qubits[ci.value] := next[..2];
    qubits[ti.value] := next[2..];
    return Ok(qubits);
  }
}
