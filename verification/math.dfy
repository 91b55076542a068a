/** The value shape of the depth error function.

    In the library the error function is a `Polynomial<Scalar, 2>`: a degree-2
    polynomial e(d) = c0 + c1*d + c2*d^2 held by its coefficient vector. The
    sensor only stores, copies and hands out such values, so the model keeps the
    three coefficients and nothing else; evaluation is not part of this model. */
module Math {

  /** A degree-2 polynomial, identified by its three coefficients (constant,
      linear, quadratic). It has value semantics: copying it yields an equal,
      independent value. */
  datatype Polynomial2 = Polynomial2(c0: real, c1: real, c2: real)

  /** The polynomial built from the zero coefficient vector. */
  const ZeroPolynomial: Polynomial2 := Polynomial2(0.0, 0.0, 0.0)
}
