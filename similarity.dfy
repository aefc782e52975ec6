/**
 * The similarity engine. Cosine similarity c = (q . v) / (|q| |v|) needs square
 * roots, so the model ranks by the exact key sign(c) * c * c instead, which is
 * computed on integers and is strictly increasing in c: sorting by the key is
 * sorting by cosine similarity, and "c >= 0.99" reads "key >= 0.9801".
 */
module Similarity {
  import opened VectorTypes

  /** Dot product over the coordinates both vectors have. */
  function Dot(a: Vector, b: Vector): (d: int)
  {
    if |a| == 0 || |b| == 0 then 0 else a[0] * b[0] + Dot(a[1..], b[1..])
  }

  function NormSq(a: Vector): (n: int)
    ensures n >= 0
  {
    if |a| == 0 then 0 else a[0] * a[0] + NormSq(a[1..])
  }

  /** sign(c) * c^2 for the cosine c of q and v; 0 when either vector has norm 0. */
  function CosineKey(q: Vector, v: Vector): (key: real)
    ensures -1.0 <= key <= 1.0
    ensures (NormSq(q) == 0 || NormSq(v) == 0) ==> key == 0.0
    ensures key > 0.0 <==> Dot(q, v) > 0 && NormSq(q) > 0 && NormSq(v) > 0
  {
    var d, nq, nv := Dot(q, v), NormSq(q), NormSq(v);
    if nq == 0 || nv == 0 then 0.0
    else
      CauchySchwarz(q, v);
      SignedSquareBounded(d, nq * nv);
      (if d >= 0 then d * d else -(d * d)) as real / (nq * nv) as real
  }

  lemma SignedSquareBounded(d: int, p: int)
    requires p > 0 && d * d <= p
    ensures var s := (if d >= 0 then d * d else -(d * d)) as real / p as real;
      -1.0 <= s <= 1.0 && (s > 0.0 <==> d > 0)
  {
    var s := (if d >= 0 then d * d else -(d * d)) as real / p as real;
    assert (d * d) as real <= p as real;
    if d > 0 {
      assert d * d > 0;
    }
  }

  /** If 0 <= s and t * t <= s * s then t <= s. */
  lemma SquareMonotone(s: int, t: int)
    requires s >= 0 && t * t <= s * s
    ensures t <= s
  {
  }

  /**
   * The Cauchy-Schwarz inequality on the model's vectors: the key therefore
   * lies in [-1, 1], as a cosine does.
   */
  lemma {:induction false} CauchySchwarz(a: Vector, b: Vector)
    ensures Dot(a, b) * Dot(a, b) <= NormSq(a) * NormSq(b)
  {
    if |a| == 0 || |b| == 0 {
      assert Dot(a, b) == 0;
    } else {
      var x, y := a[0], b[0];
      var d', na', nb' := Dot(a[1..], b[1..]), NormSq(a[1..]), NormSq(b[1..]);
      CauchySchwarz(a[1..], b[1..]);
      // the cross term 2xyd' is bounded by x^2 nb' + y^2 na'
      var s := x * x * nb' + y * y * na';
      var t := 2 * x * y * d';
      CrossTermBound(x, y, d', na', nb');
      calc {
        Dot(a, b) * Dot(a, b);
        (x * y + d') * (x * y + d');
        x * x * (y * y) + t + d' * d';
      <= x * x * (y * y) + s + na' * nb';
        (x * x + na') * (y * y + nb');
        NormSq(a) * NormSq(b);
      }
    }
  }

  lemma CrossTermBound(x: int, y: int, d: int, na: int, nb: int)
    requires na >= 0 && nb >= 0 && d * d <= na * nb
    ensures 2 * x * y * d <= x * x * nb + y * y * na
  {
    var s := x * x * nb + y * y * na;
    var t := 2 * x * y * d;
    var u := x * x * nb - y * y * na;
    assert s >= 0 by {
      assert x * x >= 0 && y * y >= 0;
      assert x * x * nb >= 0 && y * y * na >= 0;
    }
    assert s * s == u * u + 4 * (x * x * nb) * (y * y * na);
    assert (x * x * nb) * (y * y * na) == (x * y) * (x * y) * (na * nb);
    assert t * t == 4 * (x * y) * (x * y) * (d * d);
    assert (x * y) * (x * y) * (d * d) <= (x * y) * (x * y) * (na * nb) by {
      assert (x * y) * (x * y) >= 0;
    }
    assert u * u >= 0;
    SquareMonotone(s, t);
  }

  /** The keys of every stored vector against one query, in insertion order. */
  function Keys(q: Vector, vs: seq<Vector>): (keys: seq<real>)
    ensures |keys| == |vs|
    ensures forall i :: 0 <= i < |vs| ==> keys[i] == CosineKey(q, vs[i])
  {
    seq(|vs|, i requires 0 <= i < |vs| => CosineKey(q, vs[i]))
  }

  /** The vectors of the tests: [1, 0] matches itself fully and [0, 1] not at all. */
  lemma UnitVectorKeys()
    ensures CosineKey([1, 0], [1, 0]) == 1.0
    ensures CosineKey([1, 0], [0, 1]) == 0.0
  {
    assert Dot([1, 0], [1, 0]) == 1 by {
      assert [1, 0][1..] == [0];
      assert [0][1..] == [];
    }
    assert NormSq([1, 0]) == 1 by {
      assert [1, 0][1..] == [0];
      assert [0][1..] == [];
    }
    assert Dot([1, 0], [0, 1]) == 0 by {
      assert [1, 0][1..] == [0];
      assert [0, 1][1..] == [1];
      assert [0][1..] == [] && [1][1..] == [];
    }
  }
}
