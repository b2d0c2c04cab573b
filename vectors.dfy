/**
 * Vector algebra over exact reals: the dot product, the scalar multiple and
 * the orthogonal projection of one vector onto another, with the textbook
 * laws of projection proved about them.
 */
module Vectors {
  import opened Wrappers

  /** Why an operation has no numeric result. */
  datatype VectorError =
    | DifferentLengths  // the dot product of vectors of different lengths throws
    | EmptyReduce       // summing no products, `reduce` without an initial value throws
    | NotANumber        // projecting onto the zero vector divides 0 by 0: every coordinate is NaN

  /** The elementwise products of two vectors of one length. */
  function Products(A: seq<real>, B: seq<real>): seq<real>
    requires |A| == |B|
  {
    seq(|A|, i requires 0 <= i < |A| => A[i] * B[i])
  }

  /** The sum `reduce((a, b) => a + b)` computes: left to right, starting from the first element. */
  function Sum(s: seq<real>): real
    requires |s| > 0
  {
    if |s| == 1 then s[0] else Sum(s[..|s| - 1]) + s[|s| - 1]
  }

  /** True when every coordinate is 0. */
  predicate IsZero(B: seq<real>)
  {
    forall i :: 0 <= i < |B| ==> B[i] == 0.0
  }

  /** The elementwise difference of two vectors of one length. */
  function Minus(A: seq<real>, B: seq<real>): seq<real>
    requires |A| == |B|
  {
    seq(|A|, i requires 0 <= i < |A| => A[i] - B[i])
  }

  /** The dot product; it fails on vectors of different lengths and on two empty vectors. */
  function Dot(A: seq<real>, B: seq<real>): (r: Result<real, VectorError>)
    ensures r.Ok? <==> |A| == |B| && |A| > 0
    ensures |A| != |B| ==> r == Err(DifferentLengths)
    ensures |A| == |B| == 0 ==> r == Err(EmptyReduce)
  {
    if |A| != |B| then Err(DifferentLengths)
    else if |A| == 0 then Err(EmptyReduce)
    else Ok(Sum(Products(A, B)))
  }

  /** The vector `A` with every coordinate multiplied by `a`. */
  function Scalar(a: real, A: seq<real>): (r: seq<real>)
    ensures |r| == |A|
    ensures forall i :: 0 <= i < |r| ==> r[i] == A[i] * a
  {
    seq(|A|, i requires 0 <= i < |A| => A[i] * a)
  }

  /** A sum is linear in its summands. */
  lemma {:induction false} SumLinear(s: seq<real>, t: seq<real>, u: seq<real>, a: real, b: real)
    requires |s| == |t| == |u| > 0
    requires forall i :: 0 <= i < |u| ==> u[i] == a * s[i] + b * t[i]
    ensures Sum(u) == a * Sum(s) + b * Sum(t)
  {
    var k := |u| - 1;
    if k > 0 {
      var s', t', u' := s[..k], t[..k], u[..k];
      forall i | 0 <= i < |u'| ensures u'[i] == a * s'[i] + b * t'[i] {
        assert u'[i] == u[i] && s'[i] == s[i] && t'[i] == t[i];
      }
      SumLinear(s', t', u', a, b);
      Regroup(a, b, Sum(s'), s[k], Sum(t'), t[k]);
    }
  }

  /** The arithmetic step of `SumLinear`. */
  lemma Regroup(a: real, b: real, x: real, y: real, z: real, w: real)
    ensures (a * x + b * z) + (a * y + b * w) == a * (x + y) + b * (z + w)
  {
  }

  /** Summing left to right gives the same total however the terms are split. */
  lemma {:induction false} SumConcat(s: seq<real>, t: seq<real>)
    requires |s| > 0 && |t| > 0
    ensures Sum(s + t) == Sum(s) + Sum(t)
  {
    var u := s + t;
    var k := |u| - 1;
    if |t| == 1 {
      assert u[..k] == s;
    } else {
      var t' := t[..|t| - 1];
      assert u[..k] == s + t';
      SumConcat(s, t');
      assert Sum(t) == Sum(t') + t[|t| - 1];
    }
  }

  /** A sum of non-negative terms is non-negative, and 0 exactly when every term is 0. */
  lemma {:induction false} SumNonNegative(s: seq<real>)
    requires |s| > 0
    requires forall i :: 0 <= i < |s| ==> 0.0 <= s[i]
    ensures 0.0 <= Sum(s)
    ensures Sum(s) == 0.0 <==> forall i :: 0 <= i < |s| ==> s[i] == 0.0
  {
    var k := |s| - 1;
    if k > 0 {
      SumNonNegative(s[..k]);
      if Sum(s) == 0.0 {
        assert Sum(s[..k]) == 0.0 && s[k] == 0.0;
        forall i | 0 <= i < |s| ensures s[i] == 0.0 {
          if i < k {
            assert s[..k][i] == s[i];
          }
        }
      }
      if forall i :: 0 <= i < |s| ==> s[i] == 0.0 {
        assert forall i :: 0 <= i < k ==> s[..k][i] == 0.0;
      }
    }
  }

  /** The dot product is symmetric, in its failures too. */
  lemma DotSymmetric(A: seq<real>, B: seq<real>)
    ensures Dot(A, B) == Dot(B, A)
  {
    if |A| == |B| && |A| > 0 {
      assert Products(A, B) == Products(B, A);
    }
  }

  /** The square of a positive number is positive. */
  lemma PositiveSquare(x: real, y: real)
    requires y == x * x && 0.0 < x
    ensures 0.0 < y
  {
    assert y / x == x;
  }

  /** A square is non-negative, and positive away from 0. */
  lemma Square(x: real, y: real)
    requires y == x * x
    ensures 0.0 <= y
    ensures x != 0.0 ==> 0.0 < y
  {
    if x < 0.0 {
      assert (-x) * (-x) == y;
      PositiveSquare(-x, y);
    } else if x > 0.0 {
      PositiveSquare(x, y);
    }
  }

  /** The dot product of a non-empty vector with itself is non-negative, and 0 exactly for the zero vector. */
  lemma DotSelf(B: seq<real>)
    requires |B| > 0
    ensures Dot(B, B).Ok? && 0.0 <= Dot(B, B).value
    ensures Dot(B, B).value == 0.0 <==> IsZero(B)
  {
    var p := Products(B, B);
    forall i | 0 <= i < |p| ensures 0.0 <= p[i] && (B[i] != 0.0 ==> 0.0 < p[i]) && (B[i] == 0.0 ==> p[i] == 0.0) {
      Square(B[i], p[i]);
    }
    SumNonNegative(p);
  }

  /** The dot product is linear in its first argument. */
  lemma DotLinear(A: seq<real>, C: seq<real>, B: seq<real>, U: seq<real>, a: real, c: real)
    requires |A| == |C| == |B| == |U| > 0
    requires forall i :: 0 <= i < |U| ==> U[i] == a * A[i] + c * C[i]
    ensures Dot(U, B).Ok? && Dot(U, B).value == a * Dot(A, B).value + c * Dot(C, B).value
  {
    var pu, pa, pc := Products(U, B), Products(A, B), Products(C, B);
    forall i | 0 <= i < |pu| ensures pu[i] == a * pa[i] + c * pc[i] {
      calc {
        pu[i];
        U[i] * B[i];
        (a * A[i] + c * C[i]) * B[i];
        a * (A[i] * B[i]) + c * (C[i] * B[i]);
      }
    }
    SumLinear(pa, pc, pu, a, c);
  }

  /** Scaling the first vector scales the dot product. */
  lemma DotScalar(a: real, A: seq<real>, B: seq<real>)
    requires |A| == |B| > 0
    ensures Dot(Scalar(a, A), B).Ok? && Dot(Scalar(a, A), B).value == a * Dot(A, B).value
  {
    DotLinear(A, A, B, Scalar(a, A), a, 0.0);
  }

  /** The projection of A onto B: the multiple of B whose residual is orthogonal to B. */
  function Project(A: seq<real>, B: seq<real>): (r: Result<seq<real>, VectorError>)
    ensures |A| != |B| ==> r == Err(DifferentLengths)
    ensures |A| == |B| == 0 ==> r == Err(EmptyReduce)
    ensures |A| == |B| > 0 ==> (r == Err(NotANumber) <==> IsZero(B))
    ensures |A| == |B| > 0 && !IsZero(B) ==> r.Ok?
    ensures r.Ok? ==> |r.value| == |B| && exists s :: r.value == Scalar(s, B)
  {
    match Dot(A, B)
    case Err(e) => Err(e)
    case Ok(ab) =>
      DotSelf(B);
      var bb := Dot(B, B).value;
      if bb == 0.0 then Err(NotANumber) else Ok(Scalar(ab / bb, B))
  }

  /** A multiple of a non-zero B is its own projection onto B. */
  lemma ProjectFixesMultiples(t: real, B: seq<real>)
    requires |B| > 0 && !IsZero(B)
    ensures Project(Scalar(t, B), B) == Ok(Scalar(t, B))
  {
    DotSelf(B);
    var bb := Dot(B, B).value;
    DotScalar(t, B, B);
    assert Dot(Scalar(t, B), B).value / bb == t;
    assert Project(Scalar(t, B), B) == Ok(Scalar(Dot(Scalar(t, B), B).value / bb, B));
  }

  /** Projecting a second time onto the same vector changes nothing. */
  lemma ProjectIdempotent(A: seq<real>, B: seq<real>)
    requires Project(A, B).Ok?
    ensures Project(Project(A, B).value, B) == Project(A, B)
  {
    DotSelf(B);
    var s := Dot(A, B).value / Dot(B, B).value;
    assert Project(A, B).value == Scalar(s, B);
    ProjectFixesMultiples(s, B);
  }

  /** A difference as the linear combination `DotLinear` expects. */
  lemma Combination(a: real, b: real, s: real, r: real)
    ensures r == a - b * s <==> r == 1.0 * a + (-s) * b
  {
  }

  /** Taking away `s` times B takes away `s` times `B . B` from the dot product with B. */
  lemma DotResidual(A: seq<real>, B: seq<real>, s: real)
    requires |A| == |B| > 0
    ensures Dot(Minus(A, Scalar(s, B)), B).Ok?
    ensures Dot(Minus(A, Scalar(s, B)), B).value == Dot(A, B).value - Dot(B, B).value * s
  {
    var R := Minus(A, Scalar(s, B));
    forall i | 0 <= i < |R| ensures R[i] == 1.0 * A[i] + (-s) * B[i] {
      Combination(A[i], B[i], s, R[i]);
    }
    DotLinear(A, B, B, R, 1.0, -s);
    Combination(Dot(A, B).value, Dot(B, B).value, s, Dot(R, B).value);
  }

  /** The quotient `ab / bb` is the multiple of `bb` that cancels `ab`. */
  lemma Cancel(ab: real, bb: real)
    requires bb != 0.0
    ensures ab - bb * (ab / bb) == 0.0
  {
  }

  /** The residual `A - project(A, B)` is orthogonal to B. */
  lemma ProjectResidualOrthogonal(A: seq<real>, B: seq<real>)
    requires Project(A, B).Ok?
    ensures Dot(Minus(A, Project(A, B).value), B) == Ok(0.0)
  {
    DotSelf(B);
    var ab, bb := Dot(A, B).value, Dot(B, B).value;
    var P := Project(A, B).value;
    assert P == Scalar(ab / bb, B);
    DotResidual(A, B, ab / bb);
    Cancel(ab, bb);
    assert Dot(Minus(A, P), B).value == 0.0;
  }

  /**
   * The projection is the only multiple of a non-zero B whose residual is
   * orthogonal to B: any such multiple is what `Project` returns.
   */
  lemma ProjectCharacterized(A: seq<real>, B: seq<real>, t: real)
    requires |A| == |B| > 0 && !IsZero(B)
    requires Dot(Minus(A, Scalar(t, B)), B) == Ok(0.0)
    ensures Project(A, B) == Ok(Scalar(t, B))
  {
    DotSelf(B);
    var ab, bb := Dot(A, B).value, Dot(B, B).value;
    DotResidual(A, B, t);
    Quotient(ab, bb, t);
  }

  /** The only multiple of a non-zero `bb` that cancels `ab` is the quotient. */
  lemma Quotient(ab: real, bb: real, t: real)
    requires bb != 0.0 && ab - bb * t == 0.0
    ensures t == ab / bb
  {
  }

  /** A non-zero vector projects onto itself. */
  lemma ProjectOntoSelf(B: seq<real>)
    requires |B| > 0 && !IsZero(B)
    ensures Project(B, B) == Ok(B)
  {
    ProjectFixesMultiples(1.0, B);
    assert Scalar(1.0, B) == B;
  }
}
