/** The sign of a product of positive reals, stated once for the modules
    that lay out grids and square deviations. */
module RealArith {

  lemma PositiveProduct(a: real, b: real)
    requires a > 0.0 && b > 0.0
    ensures a * b > 0.0
  {
  }
}
