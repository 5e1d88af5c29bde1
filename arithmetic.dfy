/** Facts of real arithmetic the proofs of the factor graph and of the
    match quality use. They state nothing about TrueSkill: each keeps one
    step of nonlinear arithmetic in a small lemma of its own, out of the
    larger proofs. */
module RealArithmetic {
  lemma ProductNonneg(a: real, b: real)
    requires (a >= 0.0 && b >= 0.0) || (a <= 0.0 && b <= 0.0)
    ensures a * b >= 0.0
  {
  }

  lemma ProductZero(a: real, b: real)
    requires a * b == 0.0
    ensures a == 0.0 || b == 0.0
  {
  }

  lemma InvLe(x: real, y: real)
    requires 0.0 < x <= y
    ensures 0.0 < 1.0 / y <= 1.0 / x
  {
  }

  lemma InvLt(x: real, y: real)
    requires 0.0 < x < y
    ensures 1.0 / y < 1.0 / x
  {
  }

  lemma InvInv(x: real)
    requires x != 0.0
    ensures 1.0 / (1.0 / x) == x
  {
  }

  lemma NegDiv(a: real, c: real)
    requires c != 0.0
    ensures -a / c == (-a) / c
  {
  }

  lemma DivDistributes(d: real, a: real, x: real, c: real)
    requires c != 0.0
    ensures d / c + (a / c) * x == (d + a * x) / c
  {
  }

  lemma NegProduct(a: real, x: real)
    ensures (-a) * x == -(a * x)
  {
  }
}
