/** The cross section for an electron at rest: a Lorentzian in the neutrino
    energy, normalised to 1 at the resonance energy. Exact real arithmetic
    stands in for floating point. */
module RestFrame {
  import opened Constants

  /** The squared half-width GAMMA0² / 4. */
  const HalfWidthSq: Positive := GAMMA0 * GAMMA0 / 4.0

  function Abs(x: real): (r: real)
    ensures r >= 0.0 && (r == x || r == -x)
  {
    if x < 0.0 then -x else x
  }

  // ---------------------------------------------------------------------------
  // Signs of products and quotients

  lemma MulPositive(a: real, b: real)
    requires a > 0.0 && b > 0.0
    ensures a * b > 0.0
  {
  }

  lemma MulNonneg(a: real, b: real)
    requires a >= 0.0 && b >= 0.0
    ensures a * b >= 0.0
  {
  }

  lemma DivPositive(a: real, b: real)
    requires a > 0.0 && b > 0.0
    ensures a / b > 0.0
  {
  }

  lemma DivNonneg(a: real, b: real)
    requires a >= 0.0 && b > 0.0
    ensures a / b >= 0.0
  {
  }

  lemma QuotientDifference(w: real, p: real, q: real)
    requires p > 0.0 && q > 0.0
    ensures w / p - w / q == w * (q - p) / (p * q)
  {
    MulPositive(p, q);
    assert w / p == (w * q) / (p * q);
    assert w / q == (w * p) / (p * q);
  }

  /** Squaring keeps the order of non-negative numbers. */
  lemma SquareOrder(x: real, y: real)
    requires x >= 0.0 && y >= 0.0
    ensures x < y <==> x * x < y * y
  {
    if x < y {
      MulPositive(y - x, y + x);
      assert (y - x) * (y + x) == y * y - x * x;
    } else {
      MulNonneg(x - y, x + y);
      assert (x - y) * (x + y) == x * x - y * y;
    }
  }

  /** Squares are non-negative, and only zero squares to zero. */
  lemma SquareZero(x: real)
    ensures x * x >= 0.0
    ensures x * x == 0.0 <==> x == 0.0
  {
    SquareOrder(0.0, Abs(x));
    assert Abs(x) * Abs(x) == x * x;
  }

  /** Of two numbers, the one with the smaller absolute value has the smaller
      square. */
  lemma DistanceOrder(x: real, y: real)
    ensures Abs(x) < Abs(y) <==> x * x < y * y
  {
    assert Abs(x) * Abs(x) == x * x;
    assert Abs(y) * Abs(y) == y * y;
    SquareOrder(Abs(x), Abs(y));
  }

  // ---------------------------------------------------------------------------
  // The Lorentzian shape

  /** w / (u + w) for a positive `w` and a squared distance `u`. */
  function Lorentzian(w: Positive, u: real): real
    requires u >= 0.0
  {
    w / (u + w)
  }

  /** The shape lies in (0, 1] and equals 1 exactly at distance 0. */
  lemma LorentzianBounds(w: Positive, u: real)
    requires u >= 0.0
    ensures 0.0 < Lorentzian(w, u) <= 1.0
    ensures Lorentzian(w, u) == 1.0 <==> u == 0.0
  {
    var p := u + w;
    DivPositive(w, p);
    assert u / p + w / p == p / p == 1.0;
    if u > 0.0 {
      DivPositive(u, p);
    }
  }

  /** The shape strictly decreases with the squared distance. */
  lemma LorentzianOrder(w: Positive, u: real, v: real)
    requires u >= 0.0 && v >= 0.0
    ensures Lorentzian(w, u) > Lorentzian(w, v) <==> u < v
  {
    var p, q := u + w, v + w;
    MulPositive(p, q);
    if u < v {
      QuotientDifference(w, p, q);
      MulPositive(w, q - p);
      DivPositive(w * (q - p), p * q);
    } else {
      QuotientDifference(w, q, p);
      MulNonneg(w, p - q);
      DivNonneg(w * (p - q), q * p);
    }
  }

  // ---------------------------------------------------------------------------
  // The rest-frame cross section

  /** Cross section at rest for neutrino energy `enu` (GeV), relative to its
      peak: between 0 (exclusive) and 1, reaching 1 exactly at the resonance. */
  function SigmaRest(enu: real): (r: real)
    ensures 0.0 < r <= 1.0
    ensures r == 1.0 <==> enu == ER
  {
    var d := enu - ER;
    SquareZero(d);
    LorentzianBounds(HalfWidthSq, d * d);
    Lorentzian(HalfWidthSq, d * d)
  }

  /** The peak value 1 at the resonance energy. */
  lemma SigmaRestPeak()
    ensures SigmaRest(ER) == 1.0
  {
  }

  /** The Lorentzian is symmetric about the resonance energy. */
  lemma SigmaRestSymmetric(enu: real)
    ensures SigmaRest(2.0 * ER - enu) == SigmaRest(enu)
    ensures SigmaRest(ER + (enu - ER)) == SigmaRest(ER - (enu - ER))
  {
    assert (2.0 * ER - enu - ER) * (2.0 * ER - enu - ER) == (enu - ER) * (enu - ER);
  }

  /** The cross section is the Lorentzian shape at the squared distance from the
      resonance. */
  lemma SigmaRestIsLorentzian(enu: real)
    ensures (enu - ER) * (enu - ER) >= 0.0
    ensures SigmaRest(enu) == Lorentzian(HalfWidthSq, (enu - ER) * (enu - ER))
  {
    SquareZero(enu - ER);
  }

  /** One energy gives a strictly larger cross section than another exactly when
      it lies strictly closer to the resonance. */
  lemma SigmaRestOrder(a: real, b: real)
    ensures SigmaRest(a) > SigmaRest(b) <==> Abs(a - ER) < Abs(b - ER)
  {
    SigmaRestIsLorentzian(a);
    SigmaRestIsLorentzian(b);
    DistanceOrder(a - ER, b - ER);
    LorentzianOrder(HalfWidthSq, (a - ER) * (a - ER), (b - ER) * (b - ER));
  }

  /** Two energies give the same cross section exactly when they are equally far
      from the resonance. */
  lemma SigmaRestEqual(a: real, b: real)
    ensures SigmaRest(a) == SigmaRest(b) <==> Abs(a - ER) == Abs(b - ER)
  {
    SigmaRestOrder(a, b);
    SigmaRestOrder(b, a);
  }
}
