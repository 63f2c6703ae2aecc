/** Exact arithmetic for the amplitudes the simulator produces.

    Every amplitude the simulator can reach is built from 0, 1, -1, the
    imaginary unit i and 1/√2 by sums and products, so it lies in the field
    Q(√2)(i). A real number of Q(√2) is written p + q·√2 (a `Surd`), and a
    complex amplitude is a pair of such numbers. Then 1/√2 is the surd
    (0, 1/2), whose square is exactly 1/2, and no floating-point rounding or
    square root is needed. Equality of two surds is equality of their two
    coordinates, which implies equality of the numbers they stand for. */
module Surds {

  /** The real number p + q·√2. */
  datatype Surd = Surd(p: real, q: real) {

    function Plus(y: Surd): Surd {
      Surd(p + y.p, q + y.q)
    }

    function Neg(): Surd {
      Surd(-p, -q)
    }

    function Minus(y: Surd): Surd {
      Surd(p - y.p, q - y.q)
    }

    /** (p + q√2)(p' + q'√2) = (pp' + 2qq') + (pq' + qp')√2 */
    function Times(y: Surd): Surd {
      Surd(p * y.p + 2.0 * q * y.q, p * y.q + q * y.p)
    }
  }

  const Zero := Surd(0.0, 0.0)
  const One := Surd(1.0, 0.0)
  const Half := Surd(0.5, 0.0)

  /** 1/√2, that is √2/2. */
  const InvSqrt2 := Surd(0.0, 0.5)

  lemma PlusZero(x: Surd)
    ensures x.Plus(Zero) == x
  {
  }

  lemma ZeroPlus(x: Surd)
    ensures Zero.Plus(x) == x
  {
  }

  lemma TimesCommutes(x: Surd, y: Surd)
    ensures x.Times(y) == y.Times(x)
  {
  }

  lemma TimesAssociates(x: Surd, y: Surd, z: Surd)
    ensures x.Times(y).Times(z) == x.Times(y.Times(z))
  {
  }

  lemma TimesDistributes(x: Surd, y: Surd, z: Surd)
    ensures x.Plus(y).Times(z) == x.Times(z).Plus(y.Times(z))
  {
  }

  lemma TimesDistributesLeft(x: Surd, y: Surd, z: Surd)
    ensures x.Times(y.Plus(z)) == x.Times(y).Plus(x.Times(z))
  {
  }

  /** (ac)(bd) = (ad)(bc), by commutativity and associativity. */
  lemma TimesRearranges(a: Surd, b: Surd, c: Surd, d: Surd)
    ensures a.Times(c).Times(b.Times(d)) == a.Times(d).Times(b.Times(c))
  {
    TimesAssociates(a, c, b.Times(d));
    TimesAssociates(c, b, d);
    TimesCommutes(c, b);
    TimesAssociates(b, c, d);
    TimesCommutes(c, d);
    TimesAssociates(b, d, c);
    TimesAssociates(d, b, c);
    TimesCommutes(d, b);
    TimesAssociates(a, d, b.Times(c));
  }

  /** (−x)² = x² */
  lemma SquareOfNeg(x: Surd)
    ensures x.Neg().Times(x.Neg()) == x.Times(x)
  {
    assert (-x.p) * (-x.p) == x.p * x.p;
    assert (-x.q) * (-x.q) == x.q * x.q;
    assert (-x.p) * (-x.q) == x.p * x.q;
    assert (-x.q) * (-x.p) == x.q * x.p;
  }

  /** (x + y)² + (x − y)² = 2(x² + y²) */
  lemma SquaresParallelogram(x: Surd, y: Surd)
    ensures x.Plus(y).Times(x.Plus(y)).Plus(x.Minus(y).Times(x.Minus(y)))
         == Surd(2.0, 0.0).Times(x.Times(x).Plus(y.Times(y)))
  {
  }

  /** x/2 + y/2 = z when x + y = 2z. */
  lemma HalvesOfDouble(x: Surd, y: Surd, z: Surd)
    requires x.Plus(y) == Surd(2.0, 0.0).Times(z)
    ensures Half.Times(x).Plus(Half.Times(y)) == z
  {
  }

  lemma InvSqrt2Squared()
    ensures InvSqrt2.Times(InvSqrt2) == Half
    ensures InvSqrt2.Times(InvSqrt2).Plus(InvSqrt2.Times(InvSqrt2)) == One
  {
  }
}

/** Complex numbers whose real and imaginary parts are surds. */
module Complexes {
  import opened Surds

  datatype Complex = Complex(re: Surd, im: Surd) {

    function Plus(w: Complex): Complex {
      Complex(re.Plus(w.re), im.Plus(w.im))
    }

    function Neg(): Complex {
      Complex(re.Neg(), im.Neg())
    }

    function Minus(w: Complex): Complex {
      Complex(re.Minus(w.re), im.Minus(w.im))
    }

    function Times(w: Complex): Complex {
      Complex(re.Times(w.re).Minus(im.Times(w.im)), re.Times(w.im).Plus(im.Times(w.re)))
    }

    /** |z|², the squared magnitude. */
    function NormSq(): Surd {
      re.Times(re).Plus(im.Times(im))
    }
  }

  /** The real number x as a complex number. */
  function Real(x: Surd): Complex {
    Complex(x, Surds.Zero)
  }

  const C0 := Real(Surds.Zero)
  const C1 := Real(Surds.One)
  const I := Complex(Surds.Zero, Surds.One)

  const MinusC1 := Real(Surd(-1.0, 0.0))

  /** 1/√2 and −1/√2 as complex numbers. */
  const R := Real(InvSqrt2)
  const MinusR := Real(Surd(0.0, -0.5))

  /** e^{iπ/4} = cos(π/4) + i·sin(π/4) = (1 + i)/√2. */
  const Omega := Complex(InvSqrt2, InvSqrt2)

  lemma PlusZero(z: Complex)
    ensures z.Plus(C0) == z
  {
  }

  lemma OneTimes(z: Complex)
    ensures C1.Times(z) == z
  {
  }

  lemma ZeroTimes(z: Complex)
    ensures C0.Times(z) == C0
  {
  }

  lemma TimesZero(z: Complex)
    ensures z.Times(C0) == C0
  {
  }

  lemma TimesOne(z: Complex)
    ensures z.Times(C1) == z
  {
  }

  /** (1/√2)·(1 + 0) = 1/√2 */
  lemma RTimesSum()
    ensures R.Times(C1.Plus(C0)) == R
  {
  }

  /** (1/√2)·(1 − 0) = 1/√2 */
  lemma RTimesDifference()
    ensures R.Times(C1.Minus(C0)) == R
  {
  }

  /** (1/√2)·(1/√2) = 1/2 */
  lemma RSquared()
    ensures R.Times(R) == Real(Half)
  {
    InvSqrt2Squared();
  }

  lemma NegZero()
    ensures C0.Neg() == C0
  {
  }

  lemma ZeroIsNull()
    ensures C0.NormSq() == Surds.Zero
  {
  }

  lemma OneIsUnit()
    ensures C1.NormSq() == Surds.One
  {
  }

  /** |1/2|² = 1/4 */
  lemma HalfNormSq()
    ensures Real(Half).NormSq() == Surd(0.25, 0.0)
  {
  }

  /** |z·w|² = |z|²·|w|². */
  lemma NormSqTimes(z: Complex, w: Complex)
    ensures z.Times(w).NormSq() == z.NormSq().Times(w.NormSq())
  {
    var (a, b, c, d) := (z.re, z.im, w.re, w.im);
    var (x, y, u, v) := (a.Times(c), b.Times(d), a.Times(d), b.Times(c));
    // the cross terms of (ac − bd)² + (ad + bc)² cancel
    TimesRearranges(a, b, c, d);
    assert z.Times(w).NormSq()
        == x.Times(x).Plus(y.Times(y)).Plus(u.Times(u).Plus(v.Times(v)));
    SquareOfProduct(a, c);
    SquareOfProduct(b, d);
    SquareOfProduct(a, d);
    SquareOfProduct(b, c);
  }

  /** (xy)² = x²y² in Q(√2). */
  lemma SquareOfProduct(x: Surd, y: Surd)
    ensures x.Times(y).Times(x.Times(y)) == x.Times(x).Times(y.Times(y))
  {
  }

  /** |z/√2|² = |z|²/2 */
  lemma NormSqOverSqrt2(z: Complex)
    ensures R.Times(z).NormSq() == Half.Times(z.NormSq())
  {
    NormSqTimes(R, z);
    assert R.NormSq() == Half;
  }

  /** i and e^{iπ/4} have magnitude one. */
  lemma IIsUnit()
    ensures I.NormSq() == Surds.One
  {
  }

  lemma OmegaIsUnit()
    ensures Omega.NormSq() == Surds.One
  {
    InvSqrt2Squared();
  }

  /** |−z|² = |z|² */
  lemma NormSqNeg(z: Complex)
    ensures z.Neg().NormSq() == z.NormSq()
  {
    SquareOfNeg(z.re);
    SquareOfNeg(z.im);
  }

  /** A factor of magnitude one keeps |z|². */
  lemma NormSqUnitFactor(phase: Complex, z: Complex)
    requires phase.NormSq() == Surds.One
    ensures phase.Times(z).NormSq() == z.NormSq()
  {
    NormSqTimes(phase, z);
    assert Surds.One.Times(z.NormSq()) == z.NormSq();
  }

  /** |z + w|² + |z − w|² = 2(|z|² + |w|²), the parallelogram law. */
  lemma Parallelogram(z: Complex, w: Complex)
    ensures z.Plus(w).NormSq().Plus(z.Minus(w).NormSq())
         == Surd(2.0, 0.0).Times(z.NormSq().Plus(w.NormSq()))
  {
    SquaresParallelogram(z.re, w.re);
    SquaresParallelogram(z.im, w.im);
  }
}
