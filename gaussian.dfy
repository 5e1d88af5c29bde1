/** The normal distribution of trueskill/mathematics.py, held in canonical
    form: precision `pi` (1/sigma^2) and precision-adjusted mean `tau`
    (pi * mu). Product and quotient are then componentwise and exact. */
module Gaussians {
  import opened Wrappers

  datatype Gaussian = Gaussian(pi: real, tau: real)

  /** `Gaussian()` with its defaults: no information at all. */
  const Uninformative := Gaussian(0.0, 0.0)

  /** The constructor `Gaussian(mu, sigma, pi, tau)`. When `mu` is given the
      precision is taken from `sigma`, which must be present and nonzero;
      otherwise `pi` and `tau` are used as they are. */
  function Create(mu: Option<real>, sigma: Option<real>, pi: real, tau: real): (r: Result<Gaussian>)
    ensures mu.None? ==> r == Success(Gaussian(pi, tau))
    ensures mu.Some? && sigma == Some(0.0) ==> r.Failure? && r.error.AssertionError?
    ensures mu.Some? && sigma.None? ==> r.Failure? && r.error.TypeError?
    ensures mu.Some? && sigma.Some? && sigma.value != 0.0 ==>
              r.Success? && r.value.pi > 0.0 && r.value.pi * (sigma.value * sigma.value) == 1.0
              && Mu(r.value) == mu.value
  {
    match mu
    case None => Success(Gaussian(pi, tau))
    case Some(m) =>
      if sigma == Some(0.0) then Failure(AssertionError("A variance(sigma**2) should be greater than 0"))
      else if sigma.None? then Failure(TypeError("unsupported operand type(s) for ** or pow()"))
      else
        var p := 1.0 / (sigma.value * sigma.value);
        MuOfPrecisionMean(p, m);
        Success(Gaussian(p, p * m))
  }

  /** The mean: `tau / pi`, and 0 for a Gaussian without precision. */
  function Mu(g: Gaussian): (m: real)
    ensures g.pi != 0.0 ==> m * g.pi == g.tau
    ensures g.pi == 0.0 ==> m == 0.0
  {
    if g.pi == 0.0 then 0.0 else g.tau / g.pi
  }

  /** The product of two densities (up to normalisation). */
  function Mul(a: Gaussian, b: Gaussian): Gaussian
  {
    Gaussian(a.pi + b.pi, a.tau + b.tau)
  }

  /** The quotient of two densities (up to normalisation). */
  function Div(a: Gaussian, b: Gaussian): Gaussian
  {
    Gaussian(a.pi - b.pi, a.tau - b.tau)
  }

  /** Scaling both canonical parameters, as the likelihood factor does with
      its coefficient `a`. */
  function Scale(a: real, g: Gaussian): Gaussian
  {
    Gaussian(a * g.pi, a * g.tau)
  }

  lemma MuOfPrecisionMean(p: real, m: real)
    requires p != 0.0
    ensures Mu(Gaussian(p, p * m)) == m
  {
    assert (p * m) / p == m;
  }

  /** Dividing out a factor that was multiplied in gives back the original. */
  lemma MulDivRoundTrip(a: Gaussian, b: Gaussian)
    ensures Div(Mul(a, b), b) == a
    ensures Mul(Div(a, b), b) == a
  {
  }

  /** A Gaussian divided by itself carries no information. */
  lemma DivSelf(a: Gaussian)
    ensures Div(a, a) == Uninformative
  {
  }

  /** The product is commutative and associative with `Gaussian()` as unit,
      so the order in which messages are combined does not matter. */
  lemma MulAlgebra(a: Gaussian, b: Gaussian, c: Gaussian)
    ensures Mul(a, b) == Mul(b, a)
    ensures Mul(Mul(a, b), c) == Mul(a, Mul(b, c))
    ensures Mul(a, Uninformative) == a
  {
  }

  /** Scaling keeps the mean: the message the likelihood factor sends has
      the mean of the message it scales. */
  lemma ScaleKeepsMean(a: real, g: Gaussian)
    requires a != 0.0
    ensures Mu(Scale(a, g)) == Mu(g)
  {
    if g.pi != 0.0 {
      assert (a * g.tau) / (a * g.pi) == g.tau / g.pi;
    }
  }
}
