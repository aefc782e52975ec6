/**
 * The similarity key against the real cosine it stands for: for nonzero
 * vectors, CosineKey(q, v) is exactly sign(c) * c^2 for the cosine c of q and v.
 */
module CosineKeys {
  import opened VectorTypes
  import opened Similarity

  /** sign(c) * c^2: the stand-in the key uses for a cosine c. */
  function SignedSquare(c: real): (s: real)
  {
    if c >= 0.0 then c * c else -(c * c)
  }

  /**
   * c is the cosine d / sqrt(nq * nv) of two vectors with dot product d and
   * nonzero squared norms nq and nv: c^2 * nq * nv == d^2, and c has d's sign.
   */
  predicate IsCosine(c: real, d: int, nq: int, nv: int)
  {
    && nq > 0 && nv > 0
    && c * c * (nq * nv) as real == (d * d) as real
    && (c >= 0.0 <==> d >= 0)
  }

  /** For nonzero vectors the key is the signed square of their cosine. */
  lemma CosineKeyIsSignedSquaredCosine(q: Vector, v: Vector, c: real)
    requires IsCosine(c, Dot(q, v), NormSq(q), NormSq(v))
    ensures CosineKey(q, v) == SignedSquare(c)
  {
    KeyValue(Dot(q, v), NormSq(q), NormSq(v), c);
  }

  /** The quotient the key computes equals the signed square of the cosine. */
  lemma KeyValue(d: int, nq: int, nv: int, c: real)
    requires IsCosine(c, d, nq, nv)
    ensures (if d >= 0 then d * d else -(d * d)) as real / (nq * nv) as real == SignedSquare(c)
  {
    ProductPositive(nq, nv);
    var r := (nq * nv) as real;
    DivideOut(c * c, (d * d) as real, r);
    if d < 0 {
      NegDiv((d * d) as real, r);
    }
  }

  lemma ProductPositive(x: int, y: int)
    requires x > 0 && y > 0
    ensures x * y > 0
  {
  }

  lemma DivideOut(x: real, y: real, p: real)
    requires p > 0.0 && x * p == y
    ensures x == y / p
  {
  }

  lemma NegDiv(y: real, p: real)
    requires p > 0.0
    ensures (-y) / p == -(y / p)
  {
  }
}
