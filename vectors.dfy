/** The three array operations of the numerical library that the simulator
    relies on, over exact complex vectors: the matrix-vector product `dot`,
    the Kronecker product `kron` of two 1-D arrays, and the element-wise
    squared magnitude `abs(v) ** 2`. */
module Vectors {
  import opened Surds
  import opened Complexes

  type Vector = seq<Complex>
  type Matrix = seq<seq<Complex>>

  /** Σ_j row[j]·v[j] */
  function Dot(row: Vector, v: Vector): Complex
    requires |row| == |v|
  {
    if row == [] then C0 else row[0].Times(v[0]).Plus(Dot(row[1..], v[1..]))
  }

  /** The dot product of two pairs. */
  lemma DotPair(row: Vector, v: Vector)
    requires |row| == 2 && |v| == 2
    ensures Dot(row, v) == row[0].Times(v[0]).Plus(row[1].Times(v[1]))
  {
    assert row[1..][1..] == [] && v[1..][1..] == [];
    assert Dot(row[1..], v[1..]) == row[1].Times(v[1]).Plus(C0);
    Complexes.PlusZero(row[1].Times(v[1]));
  }

  /** A matrix every row of which is as long as `v`. */
  predicate Conforms(m: Matrix, v: Vector) {
    forall i :: 0 <= i < |m| ==> |m[i]| == |v|
  }

  /** The matrix-vector product: one dot product per row. */
  function MatVec(m: Matrix, v: Vector): (r: Vector)
    requires Conforms(m, v)
    ensures |r| == |m|
    ensures forall i :: 0 <= i < |m| ==> r[i] == Dot(m[i], v)
  {
    if m == [] then [] else [Dot(m[0], v)] + MatVec(m[1..], v)
  }

  /** c·v, element by element. */
  function Scale(c: Complex, v: Vector): (r: Vector)
    ensures |r| == |v|
    ensures forall j :: 0 <= j < |v| ==> r[j] == c.Times(v[j])
  {
    if v == [] then [] else [c.Times(v[0])] + Scale(c, v[1..])
  }

  /** The Kronecker product of two vectors: the block u[0]·v, then the
      block u[1]·v, and so on. */
  function Kron(u: Vector, v: Vector): (r: Vector)
    ensures |r| == |u| * |v|
  {
    if u == [] then [] else Scale(u[0], v) + Kron(u[1..], v)
  }

  /** Entry 2i + j of kron(u, v), v a pair, is u[i]·v[j]. */
  lemma {:induction false} KronAt(u: Vector, v: Vector, i: nat, j: nat)
    requires |v| == 2 && i < |u| && j < 2
    ensures 2 * i + j < |Kron(u, v)|
    ensures Kron(u, v)[2 * i + j] == u[i].Times(v[j])
  {
    if i == 0 {
      KronFirstBlock(u, v, j);
    } else {
      var k := 2 * (i - 1) + j;
      assert Kron(u[1..], v)[k] == u[i].Times(v[j]) by {
        KronAt(u[1..], v, i - 1, j);
        assert u[1..][i - 1] == u[i];
      }
      assert Kron(u, v)[2 + k] == Kron(u[1..], v)[k] by {
        KronLaterBlocks(u, v, 2 + k);
      }
    }
  }

  /** The Kronecker product of two pairs: entry 2p + q holds u[p]·v[q]. */
  lemma KronPair(u: Vector, v: Vector)
    requires |u| == 2 && |v| == 2
    ensures Kron(u, v) == [u[0].Times(v[0]), u[0].Times(v[1]), u[1].Times(v[0]), u[1].Times(v[1])]
  {
    var k := Kron(u, v);
    assert k[0] == u[0].Times(v[0]) by {
      KronAt(u, v, 0, 0);
    }
    assert k[1] == u[0].Times(v[1]) by {
      KronAt(u, v, 0, 1);
    }
    assert k[2] == u[1].Times(v[0]) by {
      KronAt(u, v, 1, 0);
    }
    assert k[3] == u[1].Times(v[1]) by {
      KronAt(u, v, 1, 1);
    }
    FourOf(k, u[0].Times(v[0]), u[0].Times(v[1]), u[1].Times(v[0]), u[1].Times(v[1]));
  }

  lemma FourOf(m: Vector, a: Complex, b: Complex, c: Complex, d: Complex)
    requires |m| == 4 && m[0] == a && m[1] == b && m[2] == c && m[3] == d
    ensures m == [a, b, c, d]
  {
  }

  lemma KronFirstBlock(u: Vector, v: Vector, j: nat)
    requires u != [] && j < |v|
    ensures Kron(u, v)[j] == u[0].Times(v[j])
  {
    assert Kron(u, v) == Scale(u[0], v) + Kron(u[1..], v);
  }

  lemma KronLaterBlocks(u: Vector, v: Vector, k: nat)
    requires u != [] && |v| <= k < |Kron(u, v)|
    ensures Kron(u, v)[k] == Kron(u[1..], v)[k - |v|]
  {
    assert Kron(u, v) == Scale(u[0], v) + Kron(u[1..], v);
  }

  /** The squared magnitude of every entry. */
  function Probabilities(v: Vector): (r: seq<Surd>)
    ensures |r| == |v|
    ensures forall k :: 0 <= k < |v| ==> r[k] == v[k].NormSq()
  {
    if v == [] then [] else [v[0].NormSq()] + Probabilities(v[1..])
  }

  function Sum(s: seq<Surd>): Surd {
    if s == [] then Zero else s[0].Plus(Sum(s[1..]))
  }

  /** Σ_k |v[k]|² */
  function SquaredNorm(v: Vector): Surd {
    Sum(Probabilities(v))
  }

  /** |a|² + |b|² */
  lemma SquaredNormPair(v: Vector)
    requires |v| == 2
    ensures SquaredNorm(v) == v[0].NormSq().Plus(v[1].NormSq())
  {
    var pr := Probabilities(v);
    assert pr[1..][1..] == [];
    assert Sum(pr[1..]) == pr[1].Plus(Zero);
    Surds.PlusZero(pr[1]);
  }

  lemma {:induction false} SumAppend(s: seq<Surd>, t: seq<Surd>)
    ensures Sum(s + t) == Sum(s).Plus(Sum(t))
  {
    if s == [] {
      assert s + t == t;
    } else {
      assert (s + t)[1..] == s[1..] + t;
      SumAppend(s[1..], t);
    }
  }

  lemma ProbabilitiesAppend(u: Vector, v: Vector)
    ensures Probabilities(u + v) == Probabilities(u) + Probabilities(v)
  {
  }

  /** ‖c·v‖² = |c|²·‖v‖² */
  lemma {:induction false} SquaredNormScale(c: Complex, v: Vector)
    ensures SquaredNorm(Scale(c, v)) == c.NormSq().Times(SquaredNorm(v))
  {
    if v != [] {
      var (a, w) := (c.NormSq(), v[1..]);
      assert SquaredNorm(Scale(c, v)) == c.Times(v[0]).NormSq().Plus(SquaredNorm(Scale(c, w))) by {
        assert Scale(c, v)[1..] == Scale(c, w);
        assert Probabilities(Scale(c, v))[1..] == Probabilities(Scale(c, w));
      }
      assert SquaredNorm(v) == v[0].NormSq().Plus(SquaredNorm(w)) by {
        assert Probabilities(v)[1..] == Probabilities(w);
      }
      assert SquaredNorm(Scale(c, w)) == a.Times(SquaredNorm(w)) by {
        SquaredNormScale(c, w);
      }
      assert c.Times(v[0]).NormSq() == a.Times(v[0].NormSq()) by {
        NormSqTimes(c, v[0]);
      }
      TimesDistributesLeft(a, v[0].NormSq(), SquaredNorm(w));
    }
  }

  /** ‖kron(u, v)‖² = ‖u‖²·‖v‖² */
  lemma {:induction false} SquaredNormKron(u: Vector, v: Vector)
    ensures SquaredNorm(Kron(u, v)) == SquaredNorm(u).Times(SquaredNorm(v))
  {
    if u != [] {
      var (head, tail) := (Scale(u[0], v), Kron(u[1..], v));
      assert Kron(u, v) == head + tail;
      ProbabilitiesAppend(head, tail);
      SumAppend(Probabilities(head), Probabilities(tail));
      SquaredNormScale(u[0], v);
      SquaredNormKron(u[1..], v);
      assert SquaredNorm(Kron(u, v)) == SquaredNorm(head).Plus(SquaredNorm(tail));
      assert Probabilities(u)[1..] == Probabilities(u[1..]);
      assert SquaredNorm(u) == u[0].NormSq().Plus(SquaredNorm(u[1..]));
      TimesDistributes(u[0].NormSq(), SquaredNorm(u[1..]), SquaredNorm(v));
    }
  }
}
