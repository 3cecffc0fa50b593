/** `Affine` and its operations (source/schediazo/transforms.py), over exact reals.

    An `Affine` keeps a list of operations and, once asked for its matrix, a cached copy of
    it. Each fluent call inserts its operation at the FRONT of the list; the matrix is the
    identity multiplied on the right by every stored operation in list order, so the
    operation called first is the one applied to a point first, and the string form lists
    the operations last-called first, as section 7.6 of SVG 1.1 reads a `transform` list
    (the rightmost transform is applied first). The trigonometric functions of an angle in
    degrees are supplied by the caller; numbers are rendered by a caller-supplied `num`. */
module Transforms {
  import opened Wrappers

  // ---------------------------------------------------------------------------
  // Matrices and points
  // ---------------------------------------------------------------------------

  /** A 3×3 matrix, row by row. */
  datatype Mat = Mat(m00: real, m01: real, m02: real,
                     m10: real, m11: real, m12: real,
                     m20: real, m21: real, m22: real)

  /** A point `(u, v)`. */
  type Point = (real, real)

  function IdentityMatrix(): Mat
  {
    Mat(1.0, 0.0, 0.0,
        0.0, 1.0, 0.0,
        0.0, 0.0, 1.0)
  }

  /** `np.matmul(x, y)`. */
  function Mul(x: Mat, y: Mat): Mat
  {
    Mat(x.m00 * y.m00 + x.m01 * y.m10 + x.m02 * y.m20,
        x.m00 * y.m01 + x.m01 * y.m11 + x.m02 * y.m21,
        x.m00 * y.m02 + x.m01 * y.m12 + x.m02 * y.m22,
        x.m10 * y.m00 + x.m11 * y.m10 + x.m12 * y.m20,
        x.m10 * y.m01 + x.m11 * y.m11 + x.m12 * y.m21,
        x.m10 * y.m02 + x.m11 * y.m12 + x.m12 * y.m22,
        x.m20 * y.m00 + x.m21 * y.m10 + x.m22 * y.m20,
        x.m20 * y.m01 + x.m21 * y.m11 + x.m22 * y.m21,
        x.m20 * y.m02 + x.m21 * y.m12 + x.m22 * y.m22)
  }

  /** The last row is `0 0 1`: the matrix maps points to points. */
  predicate IsAffine(m: Mat)
  {
    m.m20 == 0.0 && m.m21 == 0.0 && m.m22 == 1.0
  }

  /** `a * u + b * v + c`: one row of a matrix against the point `(u, v, 1)`. */
  function Lin(a: real, b: real, c: real, u: real, v: real): real
  {
    a * u + b * v + c
  }

  /** `np.matmul(m, [u, v, 1.0])`, keeping the first two coordinates. */
  function Apply(m: Mat, p: Point): Point
  {
    (Lin(m.m00, m.m01, m.m02, p.0, p.1), Lin(m.m10, m.m11, m.m12, p.0, p.1))
  }

  /** Multiplying by an affine matrix on the right applies it first. */
  lemma {:induction false} ApplyMul(x: Mat, y: Mat, p: Point)
    requires IsAffine(y)
    ensures Apply(Mul(x, y), p) == Apply(x, Apply(y, p))
  {
    var m := Mul(x, y);
    RowExpand(x.m00, x.m01, x.m02, y, p);
    RowExpand(x.m10, x.m11, x.m12, y, p);
    assert Apply(m, p).0 == Lin(x.m00 * y.m00 + x.m01 * y.m10 + x.m02 * y.m20,
                                x.m00 * y.m01 + x.m01 * y.m11 + x.m02 * y.m21,
                                x.m00 * y.m02 + x.m01 * y.m12 + x.m02 * y.m22, p.0, p.1);
    assert Apply(m, p).1 == Lin(x.m10 * y.m00 + x.m11 * y.m10 + x.m12 * y.m20,
                                x.m10 * y.m01 + x.m11 * y.m11 + x.m12 * y.m21,
                                x.m10 * y.m02 + x.m11 * y.m12 + x.m12 * y.m22, p.0, p.1);
    assert Apply(m, p).0 == Apply(x, Apply(y, p)).0;
    assert Apply(m, p).1 == Apply(x, Apply(y, p)).1;
  }

  /** Affine matrices are closed under multiplication. */
  lemma {:induction false} MulAffine(x: Mat, y: Mat)
    requires IsAffine(x) && IsAffine(y)
    ensures IsAffine(Mul(x, y))
  {
    Zero(x.m20, y.m00); Zero(x.m20, y.m01); Zero(x.m20, y.m02);
    Zero(x.m21, y.m10); Zero(x.m21, y.m11); Zero(x.m21, y.m12);
    One(x.m22, y.m20); One(x.m22, y.m21); One(x.m22, y.m22);
  }

  /** One row `(a, b, c)` of `x` times an affine `y`, applied to `p`, is that row applied
      to `y`'s image of `p`. */
  lemma RowExpand(a: real, b: real, c: real, y: Mat, p: Point)
    requires IsAffine(y)
    ensures Lin(a * y.m00 + b * y.m10 + c * y.m20, a * y.m01 + b * y.m11 + c * y.m21,
                a * y.m02 + b * y.m12 + c * y.m22, p.0, p.1)
            == Lin(a, b, c, Apply(y, p).0, Apply(y, p).1)
  {
    Zero(y.m20, c); Zero(y.m21, c); One(y.m22, c);
    assert c * y.m20 == 0.0 && c * y.m21 == 0.0 && c * y.m22 == c;
    assert a * (y.m00 * p.0 + y.m01 * p.1 + y.m02) == (a * y.m00) * p.0 + (a * y.m01) * p.1 + a * y.m02;
    assert b * (y.m10 * p.0 + y.m11 * p.1 + y.m12) == (b * y.m10) * p.0 + (b * y.m11) * p.1 + b * y.m12;
    assert (a * y.m00 + b * y.m10) * p.0 == (a * y.m00) * p.0 + (b * y.m10) * p.0;
    assert (a * y.m01 + b * y.m11) * p.1 == (a * y.m01) * p.1 + (b * y.m11) * p.1;
  }

  lemma Zero(z: real, x: real)
    requires z == 0.0
    ensures z * x == 0.0 && x * z == 0.0
  {
  }

  lemma One(o: real, x: real)
    requires o == 1.0
    ensures o * x == x && x * o == x
  {
  }

  // ---------------------------------------------------------------------------
  // Operations
  // ---------------------------------------------------------------------------

  /** `math.cos`, `math.sin` and `math.tan` of `math.radians(angle)`, for an angle in degrees. */
  datatype Trig = Trig(cos: real -> real, sin: real -> real, tan: real -> real)

  /** One stored operation. `Rotate` keeps its optional origin; `SixMatrix` its six
      parameters. */
  datatype Op =
    | SkewX(angle: real)
    | SkewY(angle: real)
    | Translate(tx: real, ty: real)
    | Scale(sx: real, sy: real)
    | Rotate(angle: real, x: Option<real>, y: Option<real>)
    | Shear(sx: real, sy: real)
    | SixMatrix(a: real, b: real, c: real, d: real, e: real, f: real)

  /** `Rotate(angle, x, y)` (transforms.py:173-179): an origin needs both coordinates. */
  function NewRotate(angle: real, x: Option<real>, y: Option<real>): (r: Result<Op>)
    ensures r.Err? <==> x.Some? != y.Some?
    ensures r.Err? ==> r.error == ValueError
    ensures r.Ok? ==> r.value.Rotate? && r.value.angle == angle && (r.value.x.Some? <==> r.value.y.Some?)
  {
    if x.Some? != y.Some? then Err(ValueError) else Ok(Rotate(angle, x, y))
  }

  /** `Reflect`, `ReflectX` and `ReflectY` (transforms.py:212-227) are scalings by ±1. */
  function Reflect(): Op { Scale(-1.0, -1.0) }

  function ReflectX(): Op { Scale(-1.0, 1.0) }

  function ReflectY(): Op { Scale(1.0, -1.0) }

  /** The `matrix` property of each operation class (transforms.py:125-243). */
  function OpMatrix(op: Op, t: Trig): (m: Mat)
    ensures IsAffine(m)
  {
    match op
    case SkewX(angle) => Mat(1.0, t.tan(angle), 0.0, 0.0, 1.0, 0.0, 0.0, 0.0, 1.0)
    case SkewY(angle) => Mat(1.0, 0.0, 0.0, t.tan(angle), 1.0, 0.0, 0.0, 0.0, 1.0)
    case Translate(tx, ty) => Mat(1.0, 0.0, tx, 0.0, 1.0, ty, 0.0, 0.0, 1.0)
    case Scale(sx, sy) => Mat(sx, 0.0, 0.0, 0.0, sy, 0.0, 0.0, 0.0, 1.0)
    case Rotate(angle, _, _) =>
      Mat(t.cos(angle), -t.sin(angle), 0.0, t.sin(angle), t.cos(angle), 0.0, 0.0, 0.0, 1.0)
    case Shear(sx, sy) => ShearMatrix(sx, sy)
    case SixMatrix(a, b, c, d, e, f) => SixMatrixOf(a, b, c, d, e, f)
  }

  function ShearMatrix(sx: real, sy: real): Mat
  {
    Mat(1.0, sx, 0.0, sy, 1.0, 0.0, 0.0, 0.0, 1.0)
  }

  /** `np.array([[a, c, e], [b, d, f], [0, 0, 1]])` (transforms.py:233). */
  function SixMatrixOf(a: real, b: real, c: real, d: real, e: real, f: real): Mat
  {
    Mat(a, c, e, b, d, f, 0.0, 0.0, 1.0)
  }

  /** What each exact operation does to a point. */
  lemma {:induction false} TranslateGeometry(tx: real, ty: real, t: Trig, u: real, v: real)
    ensures Apply(OpMatrix(Translate(tx, ty), t), (u, v)) == (u + tx, v + ty)
  {
    assert Apply(OpMatrix(Translate(tx, ty), t), (u, v)) == (Lin(1.0, 0.0, tx, u, v), Lin(0.0, 1.0, ty, u, v));
    assert Lin(1.0, 0.0, tx, u, v) == u + tx && Lin(0.0, 1.0, ty, u, v) == v + ty;
  }

  lemma {:induction false} ScaleGeometry(sx: real, sy: real, t: Trig, u: real, v: real)
    ensures Apply(OpMatrix(Scale(sx, sy), t), (u, v)) == (sx * u, sy * v)
    ensures Apply(OpMatrix(Reflect(), t), (u, v)) == (-u, -v)
    ensures Apply(OpMatrix(ReflectX(), t), (u, v)) == (-u, v)
    ensures Apply(OpMatrix(ReflectY(), t), (u, v)) == (u, -v)
  {
    ScaleAt(sx, sy, t, u, v);
    ScaleAt(-1.0, -1.0, t, u, v);
    ScaleAt(-1.0, 1.0, t, u, v);
    ScaleAt(1.0, -1.0, t, u, v);
  }

  lemma ScaleAt(sx: real, sy: real, t: Trig, u: real, v: real)
    ensures Apply(OpMatrix(Scale(sx, sy), t), (u, v)) == (sx * u, sy * v)
  {
    assert Apply(OpMatrix(Scale(sx, sy), t), (u, v)) == (Lin(sx, 0.0, 0.0, u, v), Lin(0.0, sy, 0.0, u, v));
    assert Lin(sx, 0.0, 0.0, u, v) == sx * u && Lin(0.0, sy, 0.0, u, v) == sy * v;
  }

  lemma {:induction false} ShearGeometry(sx: real, sy: real, t: Trig, u: real, v: real)
    ensures Apply(OpMatrix(Shear(sx, sy), t), (u, v)) == (u + sx * v, sy * u + v)
  {
    assert Apply(OpMatrix(Shear(sx, sy), t), (u, v)) == (Lin(1.0, sx, 0.0, u, v), Lin(sy, 1.0, 0.0, u, v));
    assert Lin(1.0, sx, 0.0, u, v) == u + sx * v && Lin(sy, 1.0, 0.0, u, v) == sy * u + v;
  }

  lemma {:induction false} SixMatrixGeometry(a: real, b: real, c: real, d: real, e: real, f: real, t: Trig, u: real, v: real)
    ensures Apply(OpMatrix(SixMatrix(a, b, c, d, e, f), t), (u, v)) == (a * u + c * v + e, b * u + d * v + f)
  {
    assert Apply(OpMatrix(SixMatrix(a, b, c, d, e, f), t), (u, v)) == (Lin(a, c, e, u, v), Lin(b, d, f, u, v));
    assert Lin(a, c, e, u, v) == a * u + c * v + e && Lin(b, d, f, u, v) == b * u + d * v + f;
  }

  /** The rotation matrix ignores the origin (transforms.py:188-191). */
  lemma {:induction false} RotateIgnoresOrigin(angle: real, x: Option<real>, y: Option<real>, t: Trig, u: real, v: real)
    ensures OpMatrix(Rotate(angle, x, y), t) == OpMatrix(Rotate(angle, None, None), t)
    ensures Apply(OpMatrix(Rotate(angle, x, y), t), (u, v))
            == (t.cos(angle) * u - t.sin(angle) * v, t.sin(angle) * u + t.cos(angle) * v)
  {
    assert Apply(OpMatrix(Rotate(angle, x, y), t), (u, v))
           == (Lin(t.cos(angle), -t.sin(angle), 0.0, u, v), Lin(t.sin(angle), t.cos(angle), 0.0, u, v));
    assert Lin(t.cos(angle), -t.sin(angle), 0.0, u, v) == t.cos(angle) * u + (-t.sin(angle)) * v;
    assert Lin(t.sin(angle), t.cos(angle), 0.0, u, v) == t.sin(angle) * u + t.cos(angle) * v;
    assert (-t.sin(angle)) * v == -(t.sin(angle) * v);
  }

  // ---------------------------------------------------------------------------
  // The operation list
  // ---------------------------------------------------------------------------

  /** An `Affine`: the stored operations and the cached matrix, if built. */
  datatype Affine = Affine(ops: seq<Op>, cache: Option<Mat>)

  /** `identity()` and `Affine()` (transforms.py:11-13, 252-254). */
  function Identity(): Affine
  {
    Affine([], None)
  }

  /** The fluent methods `skewX` … `sixmatrix` (transforms.py:66-114): the operation goes in
      front of the list; the cached matrix, if any, is kept. */
  function Add(a: Affine, op: Op): (r: Affine)
    ensures |r.ops| == |a.ops| + 1 && r.ops[0] == op && r.ops[1..] == a.ops
    ensures r.cache == a.cache
  {
    Affine([op] + a.ops, a.cache)
  }

  /** `rotate` (transforms.py:76-79): the `Rotate` constructor raises before anything is
      inserted. */
  function AddRotate(a: Affine, angle: real, x: Option<real>, y: Option<real>): (r: Result<Affine>)
    ensures r.Err? <==> x.Some? != y.Some?
    ensures r.Err? ==> r.error == ValueError
    ensures r.Ok? ==> r.value == Add(a, Rotate(angle, x, y))
  {
    var op :- NewRotate(angle, x, y);
    Ok(Add(a, op))
  }

  /** Fluent calls made one after the other, `calls[0]` first. */
  function Fluent(a: Affine, calls: seq<Op>): Affine
    decreases |calls|
  {
    if |calls| == 0 then a else Fluent(Add(a, calls[0]), calls[1..])
  }

  /** The stored list is the calls in reverse, in front of what was there; the cache is kept. */
  lemma {:induction false} FluentOps(a: Affine, calls: seq<Op>)
    ensures Fluent(a, calls).ops == Reverse(calls) + a.ops
    ensures Fluent(a, calls).cache == a.cache
    decreases |calls|
  {
    if |calls| > 0 {
      FluentOps(Add(a, calls[0]), calls[1..]);
      assert Reverse(calls[1..]) + [calls[0]] == Reverse(calls);
    }
  }

  /** `build_matrix` (transforms.py:60-64): the identity multiplied on the right by each
      stored operation in list order. */
  function Product(ops: seq<Op>, t: Trig): (m: Mat)
    ensures IsAffine(m)
  {
    if |ops| == 0 then IdentityMatrix()
    else
      var m := Mul(Product(ops[..|ops| - 1], t), OpMatrix(ops[|ops| - 1], t));
      MulAffine(Product(ops[..|ops| - 1], t), OpMatrix(ops[|ops| - 1], t));
      m
  }

  /** The stored operations applied to a point, the LAST one first. */
  function Compose(ops: seq<Op>, t: Trig, p: Point): Point
  {
    if |ops| == 0 then p else Compose(ops[..|ops| - 1], t, Apply(OpMatrix(ops[|ops| - 1], t), p))
  }

  /** The built matrix applies the stored operations last one first. */
  lemma {:induction false} ProductApplies(ops: seq<Op>, t: Trig, p: Point)
    ensures Apply(Product(ops, t), p) == Compose(ops, t, p)
  {
    if |ops| > 0 {
      var n := |ops| - 1;
      ApplyMul(Product(ops[..n], t), OpMatrix(ops[n], t), p);
      ProductApplies(ops[..n], t, Apply(OpMatrix(ops[n], t), p));
    }
  }

  /** The operation in front of the list is applied last. */
  lemma {:induction false} ComposeFront(op: Op, ops: seq<Op>, t: Trig, p: Point)
    ensures Compose([op] + ops, t, p) == Apply(OpMatrix(op, t), Compose(ops, t, p))
    decreases |ops|
  {
    if |ops| > 0 {
      var n := |ops| - 1;
      assert ([op] + ops)[..n + 1] == [op] + ops[..n];
      ComposeFront(op, ops[..n], t, Apply(OpMatrix(ops[n], t), p));
    }
  }

  /** Calls applied to a point in the order they were made, `calls[0]` first. */
  function InCallOrder(calls: seq<Op>, t: Trig, p: Point): Point
    decreases |calls|
  {
    if |calls| == 0 then p else InCallOrder(calls[1..], t, Apply(OpMatrix(calls[0], t), p))
  }

  /** Composing the reversed calls is applying them in call order. */
  lemma {:induction false} ComposeReversed(calls: seq<Op>, t: Trig, p: Point)
    ensures Compose(Reverse(calls), t, p) == InCallOrder(calls, t, p)
    decreases |calls|
  {
    if |calls| > 0 {
      var r := Reverse(calls);
      assert r[..|r| - 1] == Reverse(calls[1..]);
      ComposeReversed(calls[1..], t, Apply(OpMatrix(calls[0], t), p));
    }
  }

  // ---------------------------------------------------------------------------
  // The matrix, its cache and `transform`
  // ---------------------------------------------------------------------------

  /** The `matrix` property (transforms.py:53-58): built and cached on first use, after
      which the cache is returned whatever operations were added since. */
  function Matrix(a: Affine, t: Trig): (r: (Affine, Mat))
    ensures r.0.ops == a.ops && r.0.cache == Some(r.1)
    ensures a.cache.Some? ==> r == (a, a.cache.value)
    ensures a.cache.None? ==> r.1 == Product(a.ops, t)
  {
    match a.cache
    case Some(m) => (a, m)
    case None => (a.(cache := Some(Product(a.ops, t))), Product(a.ops, t))
  }

  /** `transform` of one point (transforms.py:34-37, 49-51), also `__call__`. */
  function Transform(a: Affine, t: Trig, p: Point): (r: (Affine, Point))
    ensures r.0 == Matrix(a, t).0
    ensures a.cache.None? ==> r.1 == Compose(a.ops, t, p)
    ensures a.cache.Some? ==> r.1 == Apply(a.cache.value, p)
  {
    var (a', m) := Matrix(a, t);
    if a.cache.None? then ProductApplies(a.ops, t, p); (a', Apply(m, p))
    else (a', Apply(m, p))
  }

  /** `transform` of two coordinate lists (transforms.py:34-48): the matrix is built first, so
      even a length mismatch, which raises `ValueError`, leaves it cached. */
  function TransformBatch(a: Affine, t: Trig, us: seq<real>, vs: seq<real>): (r: (Affine, Result<(seq<real>, seq<real>)>))
    ensures r.0 == Matrix(a, t).0
    ensures r.1.Err? <==> |us| != |vs|
    ensures r.1.Err? ==> r.1.error == ValueError
    ensures r.1.Ok? ==> |r.1.value.0| == |us| && |r.1.value.1| == |us|
    ensures r.1.Ok? ==> forall i :: 0 <= i < |us| ==>
      (r.1.value.0[i], r.1.value.1[i]) == Transform(a, t, (us[i], vs[i])).1
  {
    var (a', m) := Matrix(a, t);
    if |us| != |vs| then (a', Err(ValueError))
    else
      (a', Ok((seq(|us|, i requires 0 <= i < |us| => Apply(m, (us[i], vs[i])).0),
               seq(|us|, i requires 0 <= i < |us| => Apply(m, (us[i], vs[i])).1))))
  }

  /** A fresh transform built by fluent calls applies them in the order they were made. */
  lemma {:induction false} CallOrder(calls: seq<Op>, t: Trig, p: Point)
    ensures Fluent(Identity(), calls).ops == Reverse(calls)
    ensures Transform(Fluent(Identity(), calls), t, p).1 == InCallOrder(calls, t, p)
  {
    FluentOps(Identity(), calls);
    assert Reverse(calls) + [] == Reverse(calls);
    ComposeReversed(calls, t, p);
  }

  /** On a transform whose matrix is not yet built, a further call is applied after all the
      earlier ones. */
  lemma {:induction false} AddAppliedLast(a: Affine, op: Op, t: Trig, p: Point)
    requires a.cache.None?
    ensures Transform(Add(a, op), t, p).1 == Apply(OpMatrix(op, t), Transform(a, t, p).1)
  {
    ComposeFront(op, a.ops, t, p);
  }

  /** A fresh transform leaves points where they are. */
  lemma {:induction false} IdentityTransform(t: Trig, p: Point)
    ensures Transform(Identity(), t, p).1 == p
  {
  }

  /** Once the matrix is built, later calls change the stored list but not the results. */
  lemma {:induction false} CacheIgnoresLaterCalls(a: Affine, calls: seq<Op>, t: Trig, p: Point)
    ensures Fluent(Matrix(a, t).0, calls).ops == Reverse(calls) + a.ops
    ensures Transform(Fluent(Matrix(a, t).0, calls), t, p).1 == Transform(a, t, p).1
  {
    FluentOps(Matrix(a, t).0, calls);
  }

  // ---------------------------------------------------------------------------
  // `__str__`
  // ---------------------------------------------------------------------------

  /** The six numbers `Shear` and `SixMatrix` hand to their six-slot `matrix(...)` format
      (transforms.py:200-205, 235-239): the first six of the nine entries read column by
      column, so the third and sixth are from the bottom row. */
  function ColumnSlots(m: Mat): (v: seq<real>)
    ensures |v| == 6
  {
    [m.m00, m.m10, m.m20, m.m01, m.m11, m.m21]
  }

  /** `'matrix({} {} {} {} {} {})'.format(...)`. */
  function MatrixStr(v: seq<real>, num: real -> string): string
    requires |v| == 6
  {
    "matrix(" + num(v[0]) + " " + num(v[1]) + " " + num(v[2]) + " "
      + num(v[3]) + " " + num(v[4]) + " " + num(v[5]) + ")"
  }

  /** `__str__` of each operation class (transforms.py:122-239). */
  function OpStr(op: Op, num: real -> string): string
  {
    match op
    case SkewX(angle) => "skewX(" + num(angle) + ")"
    case SkewY(angle) => "skewY(" + num(angle) + ")"
    case Translate(tx, ty) => "translate(" + num(tx) + " " + num(ty) + ")"
    case Scale(sx, sy) => "scale(" + num(sx) + " " + num(sy) + ")"
    case Rotate(angle, x, y) =>
      if x.None? || y.None? then "rotate(" + num(angle) + ")"
      else "rotate(" + num(angle) + " " + num(x.value) + " " + num(y.value) + ")"
    case Shear(sx, sy) => MatrixStr(ColumnSlots(ShearMatrix(sx, sy)), num)
    case SixMatrix(a, b, c, d, e, f) => MatrixStr(ColumnSlots(SixMatrixOf(a, b, c, d, e, f)), num)
  }

  /** `Affine.__str__` (transforms.py:27-29): each stored operation followed by one space. */
  function AffineStr(ops: seq<Op>, num: real -> string): string
  {
    if |ops| == 0 then "" else OpStr(ops[0], num) + " " + AffineStr(ops[1..], num)
  }

  /** A further call puts its operation in front of the string, whether or not the matrix
      is cached. */
  lemma {:induction false} AddStr(a: Affine, op: Op, num: real -> string)
    ensures AffineStr(Add(a, op).ops, num) == OpStr(op, num) + " " + AffineStr(a.ops, num)
  {
    assert Add(a, op).ops[1..] == a.ops;
  }

  /** The origin of a rotation appears in its string exactly when both coordinates are
      given. */
  lemma {:induction false} RotateStr(angle: real, x: real, y: real, num: real -> string)
    ensures OpStr(Rotate(angle, Some(x), Some(y)), num)
            == "rotate(" + num(angle) + " " + num(x) + " " + num(y) + ")"
    ensures OpStr(Rotate(angle, None, None), num) == "rotate(" + num(angle) + ")"
    ensures NewRotate(angle, Some(x), None).Err? && NewRotate(angle, None, Some(y)).Err?
  {
  }

  // ---------------------------------------------------------------------------
  // The `matrix(...)` string
  // ---------------------------------------------------------------------------

  /** The six numbers of `matrix(a b c d e f)` in section 7.6 of SVG 1.1: the first two rows
      read column by column. */
  function SvgSlots(m: Mat): (v: seq<real>)
    ensures |v| == 6
  {
    [m.m00, m.m10, m.m01, m.m11, m.m02, m.m12]
  }

  /** The matrix `matrix(a b c d e f)` denotes in section 7.6 of SVG 1.1. */
  function SvgMatrix(v: seq<real>): (m: Mat)
    requires |v| == 6
    ensures IsAffine(m)
  {
    Mat(v[0], v[2], v[4], v[1], v[3], v[5], 0.0, 0.0, 1.0)
  }

  /** As written, the rendered six numbers denote the operation's matrix only when that
      matrix is degenerate: its translation and its second column are dropped. */
  lemma {:induction false} ColumnSlotsLoseMatrix(m: Mat)
    requires IsAffine(m)
    ensures SvgMatrix(ColumnSlots(m)) == m <==> m.m01 == 0.0 && m.m02 == 0.0 && m.m11 == 0.0 && m.m12 == 0.0
  {
  }

  /** `sixmatrix(3, 1, -1, 3, 30, 40)` renders `matrix(3 1 0 -1 3 0)`, which denotes another
      matrix than the one it applies. */
  lemma {:induction false} SixMatrixStrWrong(num: real -> string)
    ensures ColumnSlots(SixMatrixOf(3.0, 1.0, -1.0, 3.0, 30.0, 40.0)) == [3.0, 1.0, 0.0, -1.0, 3.0, 0.0]
    ensures OpStr(SixMatrix(3.0, 1.0, -1.0, 3.0, 30.0, 40.0), num)
            == "matrix(" + num(3.0) + " " + num(1.0) + " " + num(0.0) + " "
               + num(-1.0) + " " + num(3.0) + " " + num(0.0) + ")"
    ensures SvgMatrix(ColumnSlots(SixMatrixOf(3.0, 1.0, -1.0, 3.0, 30.0, 40.0)))
            != SixMatrixOf(3.0, 1.0, -1.0, 3.0, 30.0, 40.0)
  {
    ColumnSlotsLoseMatrix(SixMatrixOf(3.0, 1.0, -1.0, 3.0, 30.0, 40.0));
  }

  /** `__str__` of an operation with `Shear` and `SixMatrix` rendering the SVG order. */
  function OpStrFixed(op: Op, num: real -> string): string
  {
    match op
    case Shear(sx, sy) => MatrixStr(SvgSlots(ShearMatrix(sx, sy)), num)
    case SixMatrix(a, b, c, d, e, f) => MatrixStr(SvgSlots(SixMatrixOf(a, b, c, d, e, f)), num)
    case _ => OpStr(op, num)
  }

  /** Read back as section 7.6 of SVG 1.1 reads it, the corrected string of a `Shear` or
      `SixMatrix` denotes exactly the matrix the operation applies. */
  lemma {:induction false} OpStrFixedDenotes(op: Op, t: Trig, num: real -> string)
    requires op.Shear? || op.SixMatrix?
    ensures OpStrFixed(op, num) == MatrixStr(SvgSlots(OpMatrix(op, t)), num)
    ensures SvgMatrix(SvgSlots(OpMatrix(op, t))) == OpMatrix(op, t)
    ensures op.SixMatrix? ==> SvgSlots(OpMatrix(op, t)) == [op.a, op.b, op.c, op.d, op.e, op.f]
  {
    SvgRoundTrip(OpMatrix(op, t));
  }

  /** Every affine matrix survives rendering to SVG's six numbers and reading them back. */
  lemma SvgRoundTrip(m: Mat)
    requires IsAffine(m)
    ensures SvgMatrix(SvgSlots(m)) == m
  {
  }

  // ---------------------------------------------------------------------------
  // tests/test_transforms.py
  // ---------------------------------------------------------------------------

  /** test_translate_rotate (tests/test_transforms.py:7-9): `translate(1, 0)` sends the
      origin to (1, 0). */
  lemma {:induction false} TranslateTest(t: Trig)
    ensures Transform(Add(Identity(), Translate(1.0, 0.0)), t, (0.0, 0.0)).1 == (1.0, 0.0)
  {
    IdentityTransform(t, (0.0, 0.0));
    AddAppliedLast(Identity(), Translate(1.0, 0.0), t, (0.0, 0.0));
    TranslateGeometry(1.0, 0.0, t, 0.0, 0.0);
  }

  /** test_translate_rotate (tests/test_transforms.py:8, 10-12): with cos 90° = 0 and
      sin 90° = 1, `rotate(90)` sends (1, 0) to (0, 1). */
  lemma {:induction false} RotateTest(t: Trig)
    requires t.cos(90.0) == 0.0 && t.sin(90.0) == 1.0
    ensures AddRotate(Identity(), 90.0, None, None) == Ok(Add(Identity(), Rotate(90.0, None, None)))
    ensures Transform(Add(Identity(), Rotate(90.0, None, None)), t, (1.0, 0.0)).1 == (0.0, 1.0)
  {
    IdentityTransform(t, (1.0, 0.0));
    AddAppliedLast(Identity(), Rotate(90.0, None, None), t, (1.0, 0.0));
    RotateIgnoresOrigin(90.0, None, None, t, 1.0, 0.0);
  }

  /** test_translate_rotate (tests/test_transforms.py:14-18): `translate(1, 0).rotate(90)`
      translates first, so it sends the origin to (0, 1). */
  lemma {:induction false} TranslateRotateTest(t: Trig)
    requires t.cos(90.0) == 0.0 && t.sin(90.0) == 1.0
    ensures AddRotate(Add(Identity(), Translate(1.0, 0.0)), 90.0, None, None).Ok?
    ensures Transform(Add(Add(Identity(), Translate(1.0, 0.0)), Rotate(90.0, None, None)), t, (0.0, 0.0)).1
            == (0.0, 1.0)
  {
    TranslateTest(t);
    AddAppliedLast(Add(Identity(), Translate(1.0, 0.0)), Rotate(90.0, None, None), t, (0.0, 0.0));
    RotateIgnoresOrigin(90.0, None, None, t, 1.0, 0.0);
  }

  /** tests/test_transforms.py:14-15: the string of `translate(1, 0).rotate(90)` lists the
      rotation first, each operation followed by a space. */
  lemma {:induction false} TranslateRotateStrTest(num: real -> string)
    ensures AffineStr(Add(Add(Identity(), Translate(1.0, 0.0)), Rotate(90.0, None, None)).ops, num)
            == "rotate(" + num(90.0) + ") translate(" + num(1.0) + " " + num(0.0) + ") "
  {
    var a := Add(Identity(), Translate(1.0, 0.0));
    AddStr(a, Rotate(90.0, None, None), num);
    AddStr(Identity(), Translate(1.0, 0.0), num);
  }

  /** `translate(-104000, -800500).scale(1/1000, 1/1000)` subtracts and then divides. */
  lemma {:induction false} TranslateThenScale(t: Trig, u: real, v: real)
    ensures Transform(Add(Add(Identity(), Translate(-104000.0, -800500.0)), Scale(0.001, 0.001)), t, (u, v)).1
            == ((u - 104000.0) / 1000.0, (v - 800500.0) / 1000.0)
  {
    TranslateFirst(t, u, v);
    AddAppliedLast(Add(Identity(), Translate(-104000.0, -800500.0)), Scale(0.001, 0.001), t, (u, v));
    ScaleGeometry(0.001, 0.001, t, u - 104000.0, v - 800500.0);
  }

  lemma {:induction false} TranslateFirst(t: Trig, u: real, v: real)
    ensures Transform(Add(Identity(), Translate(-104000.0, -800500.0)), t, (u, v)).1 == (u - 104000.0, v - 800500.0)
  {
    IdentityTransform(t, (u, v));
    AddAppliedLast(Identity(), Translate(-104000.0, -800500.0), t, (u, v));
    TranslateGeometry(-104000.0, -800500.0, t, u, v);
  }

  /** test (tests/test_transforms.py:21-33): the batch form of the same transform. */
  lemma {:induction false} TranslateScaleBatchTest(t: Trig)
    ensures var r := TransformBatch(Add(Add(Identity(), Translate(-104000.0, -800500.0)), Scale(0.001, 0.001)), t,
                                    [100000.0, 104000.0, 105000.0, 104100.0], [800800.0, 800900.0, 800000.0, 800100.0]).1;
      r.Ok? && r.value.0 == [-4.0, 0.0, 1.0, 0.1] && r.value.1 == [0.3, 0.4, -0.5, -0.4]
  {
    var a := Add(Add(Identity(), Translate(-104000.0, -800500.0)), Scale(0.001, 0.001));
    var us, vs := [100000.0, 104000.0, 105000.0, 104100.0], [800800.0, 800900.0, 800000.0, 800100.0];
    var r := TransformBatch(a, t, us, vs).1;
    forall i | 0 <= i < 4
      ensures (r.value.0[i], r.value.1[i]) == ((us[i] - 104000.0) / 1000.0, (vs[i] - 800500.0) / 1000.0)
    {
      TranslateThenScale(t, us[i], vs[i]);
    }
  }

  /** test_six (tests/test_transforms.py:35-57): `sixmatrix(3, 1, -1, 3, 30, 40)` maps
      (10, 10), (40, 10), (10, 30) and (40, 30) to (50, 80), (140, 110), (30, 140) and
      (120, 170). */
  lemma {:induction false} SixMatrixTest(t: Trig)
    ensures var a := Add(Identity(), SixMatrix(3.0, 1.0, -1.0, 3.0, 30.0, 40.0));
      Transform(a, t, (10.0, 10.0)).1 == (50.0, 80.0) && Transform(a, t, (40.0, 10.0)).1 == (140.0, 110.0)
      && Transform(a, t, (10.0, 30.0)).1 == (30.0, 140.0) && Transform(a, t, (40.0, 30.0)).1 == (120.0, 170.0)
  {
    var op := SixMatrix(3.0, 1.0, -1.0, 3.0, 30.0, 40.0);
    IdentityTransform(t, (10.0, 10.0));
    IdentityTransform(t, (40.0, 10.0));
    IdentityTransform(t, (10.0, 30.0));
    IdentityTransform(t, (40.0, 30.0));
    AddAppliedLast(Identity(), op, t, (10.0, 10.0));
    AddAppliedLast(Identity(), op, t, (40.0, 10.0));
    AddAppliedLast(Identity(), op, t, (10.0, 30.0));
    AddAppliedLast(Identity(), op, t, (40.0, 30.0));
    SixMatrixGeometry(3.0, 1.0, -1.0, 3.0, 30.0, 40.0, t, 10.0, 10.0);
    SixMatrixGeometry(3.0, 1.0, -1.0, 3.0, 30.0, 40.0, t, 40.0, 10.0);
    SixMatrixGeometry(3.0, 1.0, -1.0, 3.0, 30.0, 40.0, t, 10.0, 30.0);
    SixMatrixGeometry(3.0, 1.0, -1.0, 3.0, 30.0, 40.0, t, 40.0, 30.0);
  }
}
