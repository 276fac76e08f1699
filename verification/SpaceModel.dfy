/** Rotation of a vector about an axis by a change of basis, over exact reals. The square root is any function
  * that really is one, and an angle is its cosine and sine.
  */
module SpaceModel {

  datatype Vector = Vector(x: real, y: real, z: real) {
    function At(n: nat): real
      requires n < 3
    {
      if n == 0 then x else if n == 1 then y else z
    }
  }

  datatype Angle = Angle(cos: real, sin: real)

  predicate IsAngle(a: Angle) {
    a.cos * a.cos + a.sin * a.sin == 1.0
  }

  const ORIGIN := Vector(0.0, 0.0, 0.0)

  function Dot(a: Vector, b: Vector): real {
    a.x * b.x + a.y * b.y + a.z * b.z
  }

  /** The code's vector product, which is b x a. */
  function Mul(a: Vector, b: Vector): Vector {
    Vector(a.z * b.y - a.y * b.z, a.x * b.z - a.z * b.x, a.y * b.x - a.x * b.y)
  }

  function Comb(p: real, u: Vector, q: real, v: Vector, t: real, w: Vector): Vector {
    Vector(p * u.x + q * v.x + t * w.x, p * u.y + q * v.y + t * w.y, p * u.z + q * v.z + t * w.z)
  }

  /** Turning v about the unit vector k by the angle a: v cos a + (v x k) sin a + k (k.v)(1 - cos a). */
  function Turned(v: Vector, k: Vector, a: Angle): Vector {
    TurnedBy(v, Mul(k, v), Dot(k, v), k, a)
  }

  function TurnedBy(v: Vector, w: Vector, d: real, k: Vector, a: Angle): Vector {
    Comb(a.cos, v, a.sin, w, d * (1.0 - a.cos), k)
  }

  /** The angle of two turns together. */
  function Plus(a: Angle, b: Angle): Angle {
    Angle(a.cos * b.cos - a.sin * b.sin, a.sin * b.cos + a.cos * b.sin)
  }

  predicate Unit(k: Vector) {
    Dot(k, k) == 1.0
  }

  // ---------- vector algebra ----------

  lemma DotComb(x: Vector, p: real, u: Vector, q: real, v: Vector, t: real, w: Vector)
    ensures Dot(x, Comb(p, u, q, v, t, w)) == p * Dot(x, u) + q * Dot(x, v) + t * Dot(x, w)
    ensures Dot(Comb(p, u, q, v, t, w), x) == p * Dot(x, u) + q * Dot(x, v) + t * Dot(x, w)
  {
  }

  lemma Minor(x: real, y: real, p: real, u: real, u': real, q: real, v: real, v': real, t: real, w: real, w': real,
              m: real, m': real, a: real, b: real, c: real)
    requires m == p * u + q * v + t * w && m' == p * u' + q * v' + t * w'
    requires a == x * u - y * u' && b == x * v - y * v' && c == x * w - y * w'
    ensures x * m - y * m' == p * a + q * b + t * c
  {
  }

  lemma MulCombX(x: Vector, p: real, u: Vector, q: real, v: Vector, t: real, w: Vector)
    ensures Mul(x, Comb(p, u, q, v, t, w)).x == p * Mul(x, u).x + q * Mul(x, v).x + t * Mul(x, w).x
  {
    var m := Comb(p, u, q, v, t, w);
    Minor(x.z, x.y, p, u.y, u.z, q, v.y, v.z, t, w.y, w.z, m.y, m.z, Mul(x, u).x, Mul(x, v).x, Mul(x, w).x);
  }

  lemma MulCombY(x: Vector, p: real, u: Vector, q: real, v: Vector, t: real, w: Vector)
    ensures Mul(x, Comb(p, u, q, v, t, w)).y == p * Mul(x, u).y + q * Mul(x, v).y + t * Mul(x, w).y
  {
    var m := Comb(p, u, q, v, t, w);
    Minor(x.x, x.z, p, u.z, u.x, q, v.z, v.x, t, w.z, w.x, m.z, m.x, Mul(x, u).y, Mul(x, v).y, Mul(x, w).y);
  }

  lemma MulCombZ(x: Vector, p: real, u: Vector, q: real, v: Vector, t: real, w: Vector)
    ensures Mul(x, Comb(p, u, q, v, t, w)).z == p * Mul(x, u).z + q * Mul(x, v).z + t * Mul(x, w).z
  {
    var m := Comb(p, u, q, v, t, w);
    Minor(x.y, x.x, p, u.x, u.y, q, v.x, v.y, t, w.x, w.y, m.x, m.y, Mul(x, u).z, Mul(x, v).z, Mul(x, w).z);
  }

  lemma MulComb(x: Vector, p: real, u: Vector, q: real, v: Vector, t: real, w: Vector)
    ensures Mul(x, Comb(p, u, q, v, t, w)) == Comb(p, Mul(x, u), q, Mul(x, v), t, Mul(x, w))
  {
    MulCombX(x, p, u, q, v, t, w);
    MulCombY(x, p, u, q, v, t, w);
    MulCombZ(x, p, u, q, v, t, w);
  }

  lemma MulOrthogonal(a: Vector, b: Vector)
    ensures Dot(a, Mul(a, b)) == 0.0 && Dot(b, Mul(a, b)) == 0.0 && Mul(a, a) == ORIGIN
  {
  }

  /** Lagrange's identity. */
  lemma MulLength(a: Vector, b: Vector)
    ensures Dot(Mul(a, b), Mul(a, b)) == Dot(a, a) * Dot(b, b) - Dot(a, b) * Dot(a, b)
  {
  }

  lemma DoubleMinor(x: real, y: real, z: real, p: real, q: real, r: real, m: real, m': real, d: real, l: real)
    requires m == x * r - z * p && m' == y * p - x * q
    requires d == x * p + y * q + z * r && l == x * x + y * y + z * z
    ensures z * m - y * m' == d * x - l * p
  {
  }

  /** (b x a) x a, the double product. */
  lemma MulTwice(a: Vector, b: Vector)
    ensures Mul(a, Mul(a, b)) == Comb(Dot(a, b), a, -Dot(a, a), b, 0.0, b)
  {
    var m, d, l := Mul(a, b), Dot(a, b), Dot(a, a);
    DoubleMinor(a.x, a.y, a.z, b.x, b.y, b.z, m.y, m.z, d, l);
    DoubleMinor(a.y, a.z, a.x, b.y, b.z, b.x, m.z, m.x, d, l);
    DoubleMinor(a.z, a.x, a.y, b.z, b.x, b.y, m.x, m.y, d, l);
  }

  // ---------- the geometry of Turned ----------

  lemma TurnedKeepsAxisPart(v: Vector, k: Vector, a: Angle)
    requires Unit(k)
    ensures Dot(k, Turned(v, k, a)) == Dot(k, v)
  {
    DotComb(k, a.cos, v, a.sin, Mul(k, v), Dot(k, v) * (1.0 - a.cos), k);
    MulOrthogonal(k, v);
  }

  lemma TurnedKeepsLength(v: Vector, k: Vector, a: Angle)
    requires Unit(k) && IsAngle(a)
    ensures Dot(Turned(v, k, a), Turned(v, k, a)) == Dot(v, v)
  {
    var c, s, d, w, r := a.cos, a.sin, Dot(k, v), Mul(k, v), Turned(v, k, a);
    DotComb(r, c, v, s, w, d * (1.0 - c), k);
    DotComb(v, c, v, s, w, d * (1.0 - c), k);
    DotComb(w, c, v, s, w, d * (1.0 - c), k);
    MulOrthogonal(k, v);
    MulLength(k, v);
    TurnedKeepsAxisPart(v, k, a);
    SquaresAddUp(c, s, d, Dot(v, v));
  }

  lemma SquaresAddUp(c: real, s: real, d: real, vv: real)
    requires c * c + s * s == 1.0
    ensures c * (c * vv + d * (1.0 - c) * d) + s * (s * (vv - d * d)) + d * (1.0 - c) * d == vv
  {
  }

  lemma UnitDifference(k: Vector, v: Vector, one: real, d: real, m: Vector)
    requires one == 1.0 && m == Comb(d, k, -one, v, 0.0, v)
    ensures v == Vector(d * k.x - m.x, d * k.y - m.y, d * k.z - m.z)
  {
  }

  /** k x (k x v) is k (k.v) - v. */
  lemma MulBack(v: Vector, k: Vector, d: real, n: Vector)
    requires Unit(k) && d == Dot(k, v) && n == Mul(k, Mul(k, v))
    ensures v == Vector(d * k.x - n.x, d * k.y - n.y, d * k.z - n.z)
  {
    MulTwice(k, v);
    UnitDifference(k, v, Dot(k, k), d, n);
  }

  lemma CombOrigin(p: real, u: Vector, q: real, v: Vector, t: real)
    ensures Comb(p, u, q, v, t, ORIGIN) == Vector(p * u.x + q * v.x, p * u.y + q * v.y, p * u.z + q * v.z)
  {
  }

  lemma MulTurned(v: Vector, k: Vector, a: Angle, d: real, w: Vector, n: Vector, m: Vector)
    requires w == Mul(k, v) && n == Mul(k, w) && m == Mul(k, TurnedBy(v, w, d, k, a))
    ensures m == Vector(a.cos * w.x + a.sin * n.x, a.cos * w.y + a.sin * n.y, a.cos * w.z + a.sin * n.z)
  {
    MulComb(k, a.cos, v, a.sin, w, d * (1.0 - a.cos), k);
    MulOrthogonal(k, k);
    CombOrigin(a.cos, w, a.sin, n, d * (1.0 - a.cos));
  }

  lemma TurnsComposeBy(v: Vector, k: Vector, a: Angle, b: Angle, c: Angle, d: real, w: Vector, r: Vector, m: Vector,
                       n: Vector)
    requires r == TurnedBy(v, w, d, k, a) && c == Plus(a, b)
    requires m == Vector(a.cos * w.x + a.sin * n.x, a.cos * w.y + a.sin * n.y, a.cos * w.z + a.sin * n.z)
    requires v == Vector(d * k.x - n.x, d * k.y - n.y, d * k.z - n.z)
    ensures TurnedBy(r, m, d, k, b) == TurnedBy(v, w, d, k, c)
  {
    ComposesX(v, w, d, k, a, b, c, r, m, n);
    ComposesY(v, w, d, k, a, b, c, r, m, n);
    ComposesZ(v, w, d, k, a, b, c, r, m, n);
  }

  lemma TurnsCompose(v: Vector, k: Vector, a: Angle, b: Angle)
    requires Unit(k)
    ensures Turned(Turned(v, k, a), k, b) == Turned(v, k, Plus(a, b))
  {
    var d, w, r := Dot(k, v), Mul(k, v), Turned(v, k, a);
    var m, n := Mul(k, r), Mul(k, w);
    MulTurned(v, k, a, d, w, n, m);
    MulBack(v, k, d, n);
    TurnedKeepsAxisPart(v, k, a);
    TurnsComposeBy(v, k, a, b, Plus(a, b), d, w, r, m, n);
  }

  lemma ComposesX(v: Vector, w: Vector, d: real, k: Vector, a: Angle, b: Angle, c: Angle, r: Vector, m: Vector,
                  n: Vector)
    requires r.x == a.cos * v.x + a.sin * w.x + d * (1.0 - a.cos) * k.x
    requires m.x == a.cos * w.x + a.sin * n.x && n.x == d * k.x - v.x && c == Plus(a, b)
    ensures TurnedBy(r, m, d, k, b).x == TurnedBy(v, w, d, k, c).x
  {
    ComponentsCompose(a, b, c, v.x, w.x, k.x, d, r.x, m.x, n.x);
  }

  lemma ComposesY(v: Vector, w: Vector, d: real, k: Vector, a: Angle, b: Angle, c: Angle, r: Vector, m: Vector,
                  n: Vector)
    requires r.y == a.cos * v.y + a.sin * w.y + d * (1.0 - a.cos) * k.y
    requires m.y == a.cos * w.y + a.sin * n.y && n.y == d * k.y - v.y && c == Plus(a, b)
    ensures TurnedBy(r, m, d, k, b).y == TurnedBy(v, w, d, k, c).y
  {
    ComponentsCompose(a, b, c, v.y, w.y, k.y, d, r.y, m.y, n.y);
  }

  lemma ComposesZ(v: Vector, w: Vector, d: real, k: Vector, a: Angle, b: Angle, c: Angle, r: Vector, m: Vector,
                  n: Vector)
    requires r.z == a.cos * v.z + a.sin * w.z + d * (1.0 - a.cos) * k.z
    requires m.z == a.cos * w.z + a.sin * n.z && n.z == d * k.z - v.z && c == Plus(a, b)
    ensures TurnedBy(r, m, d, k, b).z == TurnedBy(v, w, d, k, c).z
  {
    ComponentsCompose(a, b, c, v.z, w.z, k.z, d, r.z, m.z, n.z);
  }

  lemma ComponentsCompose(a: Angle, b: Angle, c: Angle, v: real, w: real, k: real, d: real, r: real, m: real, n: real)
    requires r == a.cos * v + a.sin * w + d * (1.0 - a.cos) * k
    requires m == a.cos * w + a.sin * n && n == d * k - v && c == Plus(a, b)
    ensures b.cos * r + b.sin * m + d * (1.0 - b.cos) * k == c.cos * v + c.sin * w + d * (1.0 - c.cos) * k
  {
  }

  // ---------- the code ----------

  ghost predicate IsSqrt(sqrt: real -> real) {
    forall x :: x >= 0.0 ==> sqrt(x) >= 0.0 && sqrt(x) * sqrt(x) == x
  }

  function Length(sqrt: real -> real, v: Vector): real {
    sqrt(Dot(v, v))
  }

  /** The scalar product of the first n coordinates. */
  function DotUpTo(a: Vector, b: Vector, n: nat): real
    requires n <= 3
  {
    if n == 0 then 0.0 else DotUpTo(a, b, n - 1) + a.At(n - 1) * b.At(n - 1)
  }

  /** The coordinate of a along b; 0 along a null vector. */
  function Along(a: Vector, b: Vector, length: real): real {
    if length == 0.0 then 0.0 else Dot(a, b) / length
  }

  method Project(sqrt: real -> real, a: Vector, b: Vector) returns (p: real)
    ensures p == Along(a, b, Length(sqrt, b))
  {
    var length := Length(sqrt, b);
    if length == 0.0 {
      return 0.0;
    }
    var tmp := 0.0;
    for i := 0 to 3
      invariant tmp == DotUpTo(a, b, i)
    {
      tmp := tmp + a.At(i) * b.At(i);
    }
    assert DotUpTo(a, b, 1) == a.x * b.x && DotUpTo(a, b, 2) == a.x * b.x + a.y * b.y;
    return tmp / length;
  }

  function Scaled(v: Vector, length: real): Vector {
    if length == 0.0 then v else Vector(v.x / length, v.y / length, v.z / length)
  }

  method Normalize(sqrt: real -> real, v: Vector) returns (n: Vector)
    ensures n == Scaled(v, Length(sqrt, v))
  {
    var length := Length(sqrt, v);
    if length == 0.0 {
      return v;
    }
    var result := new real[3];
    for i := 0 to 3
      invariant forall k | 0 <= k < i :: result[k] == v.At(k) / length
    {
      result[i] := v.At(i) / length;
    }
    return Vector(result[0], result[1], result[2]);
  }

  /** Three vectors to project onto. */
  datatype Basis = Basis(i: Vector, j: Vector, k: Vector) {
    function At(n: nat): Vector
      requires n < 3
    {
      if n == 0 then i else if n == 1 then j else k
    }
  }

  const STANDARD := Basis(Vector(1.0, 0.0, 0.0), Vector(0.0, 1.0, 0.0), Vector(0.0, 0.0, 1.0))

  function Coordinates(sqrt: real -> real, v: Vector, b: Basis): Vector {
    Vector(Along(v, b.i, Length(sqrt, b.i)), Along(v, b.j, Length(sqrt, b.j)), Along(v, b.k, Length(sqrt, b.k)))
  }

  method Transform(sqrt: real -> real, v: Vector, basis: Basis) returns (r: Vector)
    ensures r == Coordinates(sqrt, v, basis)
  {
    var result := new real[3];
    for i := 0 to 3
      invariant forall n | 0 <= n < i :: result[n] == Along(v, basis.At(n), Length(sqrt, basis.At(n)))
    {
      result[i] := Project(sqrt, v, basis.At(i));
    }
    return Vector(result[0], result[1], result[2]);
  }

  method TransformBasis(sqrt: real -> real, a: Basis, b: Basis) returns (r: Basis)
    ensures r == Basis(Coordinates(sqrt, a.i, b), Coordinates(sqrt, a.j, b), Coordinates(sqrt, a.k, b))
  {
    var result := new Vector[3](_ => ORIGIN);
    for i := 0 to 3
      invariant forall n | 0 <= n < i :: result[n] == Coordinates(sqrt, a.At(n), b)
    {
      result[i] := Transform(sqrt, a.At(i), b);
    }
    return Basis(result[0], result[1], result[2]);
  }

  function RotateZ(v: Vector, a: Angle): Vector {
    Vector(v.x * a.cos + v.y * a.sin, -v.x * a.sin + v.y * a.cos, v.z)
  }

  /** The temporary basis around the unit vector k. */
  function BasisAround(sqrt: real -> real, v: Vector, k: Vector): Basis {
    var m := Mul(v, k);
    var i := Scaled(m, Length(sqrt, m));
    Basis(i, Mul(i, k), k)
  }

  function AxisBasis(sqrt: real -> real, v: Vector, axis: Vector): Basis {
    BasisAround(sqrt, v, Scaled(axis, Length(sqrt, axis)))
  }

  /** The standard basis seen from b. */
  function Columns(sqrt: real -> real, b: Basis): Basis {
    Basis(Coordinates(sqrt, STANDARD.i, b), Coordinates(sqrt, STANDARD.j, b), Coordinates(sqrt, STANDARD.k, b))
  }

  function RotatedIn(sqrt: real -> real, v: Vector, b: Basis, a: Angle): Vector {
    Coordinates(sqrt, RotateZ(Coordinates(sqrt, v, b), a), Columns(sqrt, b))
  }

  /** What rotate computes. */
  function Rotated(sqrt: real -> real, v: Vector, axis: Vector, a: Angle): Vector {
    RotatedIn(sqrt, v, AxisBasis(sqrt, v, axis), a)
  }

  // ---------- the code turns the vector ----------

  lemma ZeroProduct(a: real, b: real)
    requires a * b == 0.0 && b != 0.0
    ensures a == 0.0
  {
  }

  lemma Square(t: real)
    ensures t * t >= 0.0 && (t * t == 0.0 <==> t == 0.0)
  {
    if t * t == 0.0 && t != 0.0 { ZeroProduct(t, t); }
  }

  lemma Positive(v: Vector)
    ensures Dot(v, v) >= 0.0 && (Dot(v, v) == 0.0 <==> v == ORIGIN)
  {
    Square(v.x);
    Square(v.y);
    Square(v.z);
  }

  lemma RootOf(sqrt: real -> real, x: real)
    requires IsSqrt(sqrt) && x >= 0.0
    ensures sqrt(x) >= 0.0 && sqrt(x) * sqrt(x) == x && (sqrt(x) == 0.0 <==> x == 0.0)
  {
    Square(sqrt(x));
  }

  lemma RootOfOne(l: real)
    requires l >= 0.0 && l * l == 1.0
    ensures l == 1.0
  {
    assert (l - 1.0) * (l + 1.0) == 0.0;
    ZeroProduct(l - 1.0, l + 1.0);
  }

  lemma LengthOf(sqrt: real -> real, v: Vector)
    requires IsSqrt(sqrt)
    ensures Length(sqrt, v) >= 0.0 && Length(sqrt, v) * Length(sqrt, v) == Dot(v, v)
    ensures Length(sqrt, v) == 0.0 <==> v == ORIGIN
  {
    Positive(v);
    RootOf(sqrt, Dot(v, v));
  }

  lemma LengthOfUnit(sqrt: real -> real, v: Vector)
    requires IsSqrt(sqrt) && Unit(v)
    ensures Length(sqrt, v) == 1.0
  {
    RootOf(sqrt, 1.0);
    RootOfOne(sqrt(1.0));
  }

  lemma ScaledParts(v: Vector, l: real)
    requires l > 0.0
    ensures var u := Scaled(v, l); v == Vector(l * u.x, l * u.y, l * u.z)
    ensures l * l == Dot(v, v) ==> Unit(Scaled(v, l))
  {
    var u := Scaled(v, l);
    assert v.x == l * u.x && v.y == l * u.y && v.z == l * u.z;
    if l * l == Dot(v, v) {
      ScaledSquares(l, u.x, u.y, u.z, v.x, v.y, v.z);
    }
  }

  lemma ScaledSquares(l: real, x: real, y: real, z: real, x': real, y': real, z': real)
    requires x' == l * x && y' == l * y && z' == l * z
    requires l > 0.0 && l * l == x' * x' + y' * y' + z' * z'
    ensures x * x + y * y + z * z == 1.0
  {
    var d := x * x + y * y + z * z;
    assert x' * x' + y' * y' + z' * z' == (l * l) * d;
    assert (d - 1.0) * (l * l) == 0.0;
    Square(l);
    ZeroProduct(d - 1.0, l * l);
  }

  /** A row across an orthonormal basis has length one, too. */
  lemma RowUnit(i: Vector, k: Vector)
    requires Unit(i) && Unit(k) && Dot(i, k) == 0.0
    ensures var j := Mul(i, k);
            && Unit(Vector(i.x, j.x, k.x)) && Unit(Vector(i.y, j.y, k.y)) && Unit(Vector(i.z, j.z, k.z))
  {
    CrossSquare(i.x, i.y, i.z, k.x, k.y, k.z);
    CrossSquare(i.y, i.z, i.x, k.y, k.z, k.x);
    CrossSquare(i.z, i.x, i.y, k.z, k.x, k.y);
  }

  lemma CrossSquare(a: real, b: real, c: real, p: real, q: real, r: real)
    requires a * a + b * b + c * c == 1.0 && p * p + q * q + r * r == 1.0 && a * p + b * q + c * r == 0.0
    ensures a * a + (c * q - b * r) * (c * q - b * r) + p * p == 1.0
  {
    calc {
      (c * q - b * r) * (c * q - b * r);
      (b * b + c * c) * (q * q + r * r) - (b * q + c * r) * (b * q + c * r);
      (1.0 - a * a) * (1.0 - p * p) - (a * p) * (a * p);
      1.0 - a * a - p * p;
    }
  }

  /** v seen in the basis i, j, k built around k: it has no part along i, and -length along j. */
  lemma InAxisBasis(v: Vector, k: Vector, i: Vector, length: real)
    requires Unit(k) && Unit(i) && length > 0.0
    requires Mul(v, k) == Vector(length * i.x, length * i.y, length * i.z)
    ensures var j, d := Mul(i, k), Dot(v, k);
            && Dot(i, k) == 0.0 && Unit(j) && Dot(v, i) == 0.0 && Dot(v, j) == -length
            && v == Vector(d * k.x - length * j.x, d * k.y - length * j.y, d * k.z - length * j.z)
  {
    var j := Mul(i, k);
    MulOrthogonal(v, k);
    DotScaled(k, i, length, Mul(v, k));
    DotScaled(v, i, length, Mul(v, k));
    MulLength(i, k);
    MulOrthogonal(i, k);
    ScaledMul(i, k, length, Mul(v, k));
    DoubleBack(v, k);
    DotDifference(j, v, Dot(v, k), k, length);
  }

  lemma DoubleFlipped(v: Vector, k: Vector)
    ensures Mul(Mul(v, k), k) == Mul(k, Mul(k, v))
  {
  }

  lemma DoubleBack(v: Vector, k: Vector)
    requires Unit(k)
    ensures var m, d := Mul(Mul(v, k), k), Dot(v, k);
            v == Vector(d * k.x - m.x, d * k.y - m.y, d * k.z - m.z)
  {
    DoubleFlipped(v, k);
    DotCommutes(v, k);
    MulBack(v, k, Dot(v, k), Mul(Mul(v, k), k));
  }

  lemma DotScaled(a: Vector, u: Vector, l: real, m: Vector)
    requires m == Vector(l * u.x, l * u.y, l * u.z)
    ensures Dot(a, m) == l * Dot(a, u)
    ensures l > 0.0 && Dot(a, m) == 0.0 ==> Dot(a, u) == 0.0
  {
  }

  lemma ScaledMul(u: Vector, k: Vector, l: real, m: Vector)
    requires m == Vector(l * u.x, l * u.y, l * u.z)
    ensures var j := Mul(u, k); Mul(m, k) == Vector(l * j.x, l * j.y, l * j.z)
  {
    var j := Mul(u, k);
    ScaledMinor(l, u.z, u.y, k.y, k.z, m.z, m.y, j.x);
    ScaledMinor(l, u.x, u.z, k.z, k.x, m.x, m.z, j.y);
    ScaledMinor(l, u.y, u.x, k.x, k.y, m.y, m.x, j.z);
  }

  lemma ScaledMinor(l: real, a: real, b: real, c: real, d: real, p: real, q: real, t: real)
    requires p == l * a && q == l * b && t == a * c - b * d
    ensures p * c - q * d == l * t
  {
  }

  lemma DotDifference(j: Vector, v: Vector, d: real, k: Vector, l: real)
    requires v == Vector(d * k.x - l * j.x, d * k.y - l * j.y, d * k.z - l * j.z)
    requires Dot(k, j) == 0.0 && Unit(j)
    ensures Dot(v, j) == -l
  {
  }

  predicate Orthonormal(b: Basis) {
    Unit(b.i) && Unit(b.k) && Dot(b.i, b.k) == 0.0 && b.j == Mul(b.i, b.k) && Unit(b.j)
  }

  lemma UnitCoordinates(sqrt: real -> real, v: Vector, b: Basis)
    requires IsSqrt(sqrt) && Unit(b.i) && Unit(b.j) && Unit(b.k)
    ensures Coordinates(sqrt, v, b) == Vector(Dot(v, b.i), Dot(v, b.j), Dot(v, b.k))
  {
    LengthOfUnit(sqrt, b.i);
    LengthOfUnit(sqrt, b.j);
    LengthOfUnit(sqrt, b.k);
  }

  /** The columns of an orthonormal basis are its rows read across, and are unit vectors again. */
  lemma OrthonormalColumns(sqrt: real -> real, b: Basis)
    requires IsSqrt(sqrt) && Orthonormal(b)
    ensures Columns(sqrt, b)
         == Basis(Vector(b.i.x, b.j.x, b.k.x), Vector(b.i.y, b.j.y, b.k.y), Vector(b.i.z, b.j.z, b.k.z))
    ensures Unit(Columns(sqrt, b).i) && Unit(Columns(sqrt, b).j) && Unit(Columns(sqrt, b).k)
  {
    UnitCoordinates(sqrt, STANDARD.i, b);
    UnitCoordinates(sqrt, STANDARD.j, b);
    UnitCoordinates(sqrt, STANDARD.k, b);
    RowUnit(b.i, b.k);
  }

  lemma Normalizes(sqrt: real -> real, v: Vector) returns (length: real, u: Vector)
    requires IsSqrt(sqrt) && v != ORIGIN
    ensures length == Length(sqrt, v) > 0.0 && u == Scaled(v, length)
    ensures Unit(u) && v == Vector(length * u.x, length * u.y, length * u.z)
  {
    length := Length(sqrt, v);
    u := Scaled(v, length);
    LengthOf(sqrt, v);
    ScaledParts(v, length);
  }

  lemma MulNull(v: Vector)
    ensures Mul(v, ORIGIN) == ORIGIN
  {
  }

  lemma AxisOrthonormal(v: Vector, k: Vector, i: Vector, length: real)
    requires Unit(k) && Unit(i) && length > 0.0
    requires Mul(v, k) == Vector(length * i.x, length * i.y, length * i.z)
    ensures Orthonormal(Basis(i, Mul(i, k), k))
  {
    InAxisBasis(v, k, i, length);
  }

  /** Off the axis the temporary basis is orthonormal, and v has no part along its first vector. */
  lemma AxisBasisFits(sqrt: real -> real, v: Vector, axis: Vector) returns (b: Basis, length: real)
    requires IsSqrt(sqrt) && Mul(v, axis) != ORIGIN
    ensures b == AxisBasis(sqrt, v, axis) && Orthonormal(b)
    ensures length > 0.0 && Mul(v, b.k) == Vector(length * b.i.x, length * b.i.y, length * b.i.z)
  {
    MulNull(v);
    var k := OffAxisOfUnit(sqrt, v, axis);
    var i;
    length, i := Normalizes(sqrt, Mul(v, k));
    AxisOrthonormal(v, k, i, length);
    b := Basis(i, Mul(i, k), k);
  }

  lemma MulScaledRight(v: Vector, k: Vector, l: real, axis: Vector)
    requires axis == Vector(l * k.x, l * k.y, l * k.z) && Mul(v, axis) != ORIGIN
    ensures Mul(v, k) != ORIGIN
  {
  }

  lemma TurnedCoordinate(a: Angle, d: real, l: real, v: real, i: real, j: real, k: real, w: real, x: real, y: real)
    requires v == d * k - l * j && w == -l * i
    requires x == -l * a.sin && y == -l * a.cos
    ensures x * i + y * j + d * k == a.cos * v + a.sin * w + d * (1.0 - a.cos) * k
  {
  }

  lemma MulTurnedRound(v: Vector, k: Vector, i: Vector, l: real)
    requires Mul(v, k) == Vector(l * i.x, l * i.y, l * i.z)
    ensures Mul(k, v) == Vector(-l * i.x, -l * i.y, -l * i.z)
  {
  }

  /** The vector whose coordinates in b are t. */
  function Back(t: Vector, b: Basis): Vector {
    Vector(t.x * b.i.x + t.y * b.j.x + t.z * b.k.x,
           t.x * b.i.y + t.y * b.j.y + t.z * b.k.y,
           t.x * b.i.z + t.y * b.j.z + t.z * b.k.z)
  }

  function Parts(v: Vector, b: Basis): Vector {
    Vector(Dot(v, b.i), Dot(v, b.j), Dot(v, b.k))
  }

  lemma QuarterParts(a: Angle, d: real, length: real)
    ensures RotateZ(Vector(0.0, -length, d), a) == Vector(-length * a.sin, -length * a.cos, d)
  {
  }

  lemma DotCommutes(a: Vector, b: Vector)
    ensures Dot(a, b) == Dot(b, a)
  {
  }

  lemma AxisParts(v: Vector, b: Basis, length: real, d: real)
    requires Orthonormal(b) && length > 0.0 && d == Dot(b.k, v)
    requires Mul(v, b.k) == Vector(length * b.i.x, length * b.i.y, length * b.i.z)
    ensures Parts(v, b) == Vector(0.0, -length, d)
    ensures v == Vector(d * b.k.x - length * b.j.x, d * b.k.y - length * b.j.y, d * b.k.z - length * b.j.z)
  {
    DotCommutes(b.k, v);
    InAxisBasis(v, b.k, b.i, length);
  }

  /** Turning in the basis and going back, with every length known to be one. */
  lemma BasisTurns(v: Vector, b: Basis, length: real, a: Angle, d: real)
    requires Orthonormal(b) && length > 0.0 && d == Dot(b.k, v)
    requires Mul(v, b.k) == Vector(length * b.i.x, length * b.i.y, length * b.i.z)
    ensures Turned(v, b.k, a) == Back(RotateZ(Parts(v, b), a), b)
  {
    AxisParts(v, b, length, d);
    QuarterParts(a, d, length);
    MulTurnedRound(v, b.k, b.i, length);
    BackCoordinates(a, d, length, v, b, Mul(b.k, v), -length * a.sin, -length * a.cos);
  }

  lemma BackCoordinates(a: Angle, d: real, l: real, v: Vector, b: Basis, w: Vector, x: real, y: real)
    requires v == Vector(d * b.k.x - l * b.j.x, d * b.k.y - l * b.j.y, d * b.k.z - l * b.j.z)
    requires w == Vector(-l * b.i.x, -l * b.i.y, -l * b.i.z)
    requires x == -l * a.sin && y == -l * a.cos
    ensures TurnedBy(v, w, d, b.k, a) == Back(Vector(x, y, d), b)
  {
    TurnedCoordinate(a, d, l, v.x, b.i.x, b.j.x, b.k.x, w.x, x, y);
    TurnedCoordinate(a, d, l, v.y, b.i.y, b.j.y, b.k.y, w.y, x, y);
    TurnedCoordinate(a, d, l, v.z, b.i.z, b.j.z, b.k.z, w.z, x, y);
  }

  lemma RotatedBack(sqrt: real -> real, v: Vector, b: Basis, a: Angle)
    requires IsSqrt(sqrt) && Orthonormal(b)
    ensures RotatedIn(sqrt, v, b, a) == Back(RotateZ(Parts(v, b), a), b)
  {
    UnitCoordinates(sqrt, v, b);
    OrthonormalColumns(sqrt, b);
    UnitCoordinates(sqrt, RotateZ(Parts(v, b), a), Columns(sqrt, b));
  }

  lemma RotatedTurns(sqrt: real -> real, v: Vector, b: Basis, length: real, a: Angle)
    requires IsSqrt(sqrt) && Orthonormal(b) && length > 0.0
    requires Mul(v, b.k) == Vector(length * b.i.x, length * b.i.y, length * b.i.z)
    ensures RotatedIn(sqrt, v, b, a) == Turned(v, b.k, a)
  {
    RotatedBack(sqrt, v, b, a);
    BasisTurns(v, b, length, a, Dot(b.k, v));
  }

  /** For every vector off the axis, the code computes exactly the turned vector. */
  lemma CodeTurns(sqrt: real -> real, v: Vector, axis: Vector, a: Angle)
    requires IsSqrt(sqrt) && Mul(v, axis) != ORIGIN
    ensures Rotated(sqrt, v, axis, a) == Turned(v, Scaled(axis, Length(sqrt, axis)), a)
  {
    var b, length := AxisBasisFits(sqrt, v, axis);
    RotatedTurns(sqrt, v, b, length, a);
  }

  // ---------- on the axis ----------

  function Sign(t: real): real {
    if t > 0.0 then 1.0 else if t < 0.0 then -1.0 else 0.0
  }

  lemma RootOfSquare(sqrt: real -> real, t: real)
    requires IsSqrt(sqrt)
    ensures sqrt(t * t) == t * Sign(t)
  {
    Square(t);
    RootOf(sqrt, t * t);
    var r, p := sqrt(t * t), t * Sign(t);
    assert p >= 0.0 && p * p == t * t;
    if r + p != 0.0 {
      assert (r - p) * (r + p) == 0.0;
      ZeroProduct(r - p, r + p);
    }
  }

  lemma LengthThird(sqrt: real -> real, t: real)
    requires IsSqrt(sqrt)
    ensures Length(sqrt, Vector(0.0, 0.0, t)) == t * Sign(t)
  {
    RootOfSquare(sqrt, t);
    assert Dot(Vector(0.0, 0.0, t), Vector(0.0, 0.0, t)) == t * t;
  }

  /** The temporary basis with nothing but its last vector left. */
  function Collapsed(k: Vector): Basis {
    Basis(ORIGIN, ORIGIN, k)
  }

  lemma CollapsedCoordinates(sqrt: real -> real, v: Vector, k: Vector)
    requires Length(sqrt, ORIGIN) == 0.0 && Length(sqrt, k) == 1.0
    ensures Coordinates(sqrt, v, Collapsed(k)) == Vector(0.0, 0.0, Dot(v, k))
  {
  }

  lemma CollapsedColumns(sqrt: real -> real, k: Vector)
    requires Length(sqrt, ORIGIN) == 0.0 && Length(sqrt, k) == 1.0
    ensures Columns(sqrt, Collapsed(k)) == Basis(Vector(0.0, 0.0, k.x), Vector(0.0, 0.0, k.y), Vector(0.0, 0.0, k.z))
  {
  }

  lemma ThirdStays(z: real, a: Angle)
    ensures RotateZ(Vector(0.0, 0.0, z), a) == Vector(0.0, 0.0, z)
  {
  }

  /** Only the signs of that vector come back. */
  function Signs(z: real, k: Vector): Vector {
    Vector(z * Sign(k.x), z * Sign(k.y), z * Sign(k.z))
  }

  function Thirds(k: Vector): Basis {
    Basis(Vector(0.0, 0.0, k.x), Vector(0.0, 0.0, k.y), Vector(0.0, 0.0, k.z))
  }

  predicate LengthFits(sqrt: real -> real, t: real) {
    Length(sqrt, Vector(0.0, 0.0, t)) == t * Sign(t)
  }

  lemma AlongThird(z: real, t: real, length: real)
    requires length == t * Sign(t)
    ensures Along(Vector(0.0, 0.0, z), Vector(0.0, 0.0, t), length) == z * Sign(t)
  {
    if t > 0.0 {
      Quotient(z, t);
    } else if t < 0.0 {
      Quotient(-z, -t);
      assert z * t == (-z) * (-t);
    }
  }

  lemma Quotient(z: real, t: real)
    requires t != 0.0
    ensures z * t / t == z
  {
  }

  lemma ThirdsComeBack(sqrt: real -> real, z: real, k: Vector)
    requires LengthFits(sqrt, k.x) && LengthFits(sqrt, k.y) && LengthFits(sqrt, k.z)
    ensures Coordinates(sqrt, Vector(0.0, 0.0, z), Thirds(k)) == Signs(z, k)
  {
    AlongThird(z, k.x, k.x * Sign(k.x));
    AlongThird(z, k.y, k.y * Sign(k.y));
    AlongThird(z, k.z, k.z * Sign(k.z));
  }

  lemma LengthsFit(sqrt: real -> real, k: Vector)
    requires IsSqrt(sqrt)
    ensures LengthFits(sqrt, k.x) && LengthFits(sqrt, k.y) && LengthFits(sqrt, k.z)
  {
    LengthThird(sqrt, k.x);
    LengthThird(sqrt, k.y);
    LengthThird(sqrt, k.z);
  }

  lemma CollapsedTurns(sqrt: real -> real, v: Vector, k: Vector, a: Angle)
    requires IsSqrt(sqrt) && Unit(k)
    ensures RotatedIn(sqrt, v, Collapsed(k), a) == Signs(Dot(v, k), k)
  {
    var z := Dot(v, k);
    assert Coordinates(sqrt, v, Collapsed(k)) == Vector(0.0, 0.0, z) && Columns(sqrt, Collapsed(k)) == Thirds(k) by {
      LengthOf(sqrt, ORIGIN);
      LengthOfUnit(sqrt, k);
      CollapsedCoordinates(sqrt, v, k);
      CollapsedColumns(sqrt, k);
    }
    ThirdStays(z, a);
    LengthsFit(sqrt, k);
    ThirdsComeBack(sqrt, z, k);
  }

  lemma NullAxis(sqrt: real -> real, v: Vector, a: Angle)
    requires IsSqrt(sqrt)
    ensures Rotated(sqrt, v, ORIGIN, a) == ORIGIN
  {
    LengthOf(sqrt, ORIGIN);
    MulNull(v);
    assert AxisBasis(sqrt, v, ORIGIN) == Basis(ORIGIN, ORIGIN, ORIGIN);
  }

  lemma CollapsesTo(sqrt: real -> real, v: Vector, k: Vector)
    requires Length(sqrt, ORIGIN) == 0.0 && Mul(v, k) == ORIGIN
    ensures BasisAround(sqrt, v, k) == Collapsed(k)
  {
  }

  lemma OnAxisBasis(sqrt: real -> real, v: Vector, axis: Vector)
    requires IsSqrt(sqrt) && axis != ORIGIN && Mul(v, axis) == ORIGIN
    ensures var k := Scaled(axis, Length(sqrt, axis));
            Unit(k) && Mul(v, k) == ORIGIN && AxisBasis(sqrt, v, axis) == Collapsed(k)
  {
    var l, k := Normalizes(sqrt, axis);
    MulScaledNull(v, k, l, axis);
    LengthOf(sqrt, ORIGIN);
    CollapsesTo(sqrt, v, k);
  }

  lemma MulScaledNull(v: Vector, k: Vector, l: real, axis: Vector)
    requires axis == Vector(l * k.x, l * k.y, l * k.z) && l > 0.0 && Mul(v, axis) == ORIGIN
    ensures Mul(v, k) == ORIGIN
  {
  }

  lemma OnAxisLength(v: Vector, k: Vector)
    requires Unit(k) && Mul(v, k) == ORIGIN
    ensures v == Times(Dot(v, k), k) && Mul(k, v) == ORIGIN
  {
    DoubleBack(v, k);
    MulFlipped(v, k);
  }

  lemma TurnedByNothing(v: Vector, k: Vector, z: real, a: Angle)
    requires v == Times(z, k)
    ensures TurnedBy(v, ORIGIN, z, k, a) == v
  {
    OnAxisCoordinate(a, z, v.x, k.x);
    OnAxisCoordinate(a, z, v.y, k.y);
    OnAxisCoordinate(a, z, v.z, k.z);
  }

  /** A vector on the axis is its own turned vector. */
  lemma TurnedOnAxis(v: Vector, k: Vector, a: Angle)
    requires Unit(k) && Mul(v, k) == ORIGIN
    ensures var z := Dot(v, k); v == Vector(z * k.x, z * k.y, z * k.z) && Turned(v, k, a) == v
  {
    OnAxisLength(v, k);
    DotCommutes(v, k);
    TurnedByNothing(v, k, Dot(k, v), a);
  }

  lemma OnAxisCoordinate(a: Angle, z: real, v: real, k: real)
    requires v == z * k
    ensures a.cos * v + a.sin * 0.0 + z * (1.0 - a.cos) * k == v
  {
  }

  predicate CoordinateAxis(axis: Vector) {
    (axis.x == 0.0 && axis.y == 0.0) || (axis.y == 0.0 && axis.z == 0.0) || (axis.x == 0.0 && axis.z == 0.0)
  }

  lemma SameProduct(z: real, p: real, q: real)
    requires z != 0.0 && z * p == z * q
    ensures p == q
  {
  }

  predicate SignsOnly(k: Vector) {
    Sign(k.x) == k.x && Sign(k.y) == k.y && Sign(k.z) == k.z
  }

  lemma UnitSigns(k: Vector)
    requires Unit(k)
    ensures SignsOnly(k) <==> CoordinateAxis(k)
  {
  }

  lemma SameProduct3(z: real, p: Vector, q: Vector)
    requires z != 0.0 && Vector(z * p.x, z * p.y, z * p.z) == Vector(z * q.x, z * q.y, z * q.z)
    ensures p == q
  {
  }

  lemma SignsComeRight(z: real, k: Vector)
    requires Unit(k)
    ensures Signs(z, k) == Vector(z * k.x, z * k.y, z * k.z) <==> z == 0.0 || CoordinateAxis(k)
  {
    assert SignsOnly(k) <==> CoordinateAxis(k) by { UnitSigns(k); }
    SignsScale(z, k);
  }

  lemma SignsScale(z: real, k: Vector)
    ensures Signs(z, k) == Vector(z * k.x, z * k.y, z * k.z) <==> z == 0.0 || SignsOnly(k)
  {
    if z != 0.0 && Signs(z, k) == Vector(z * k.x, z * k.y, z * k.z) {
      SameProduct3(z, Vector(Sign(k.x), Sign(k.y), Sign(k.z)), k);
    }
  }

  lemma ScaledCoordinateAxis(axis: Vector, k: Vector, l: real)
    requires axis == Vector(l * k.x, l * k.y, l * k.z) && l > 0.0
    ensures CoordinateAxis(axis) <==> CoordinateAxis(k)
  {
  }

  /** On the axis the code keeps the signs of the axis and no more: every coordinate gets the size of v. */
  lemma OnAxisSigns(sqrt: real -> real, v: Vector, axis: Vector, a: Angle)
    requires IsSqrt(sqrt) && axis != ORIGIN && Mul(v, axis) == ORIGIN
    ensures var k := Scaled(axis, Length(sqrt, axis)); Rotated(sqrt, v, axis, a) == Signs(Dot(v, k), k)
  {
    OnAxisBasis(sqrt, v, axis);
    CollapsedTurns(sqrt, v, Scaled(axis, Length(sqrt, axis)), a);
  }

  lemma OnAxisNull(z: real, v: Vector, k: Vector)
    requires v == Vector(z * k.x, z * k.y, z * k.z) && z == Dot(v, k)
    ensures z == 0.0 <==> v == ORIGIN
  {
  }

  lemma OnAxisExact(v: Vector, k: Vector, a: Angle)
    requires Unit(k) && Mul(v, k) == ORIGIN
    ensures Signs(Dot(v, k), k) == Turned(v, k, a) <==> v == ORIGIN || CoordinateAxis(k)
  {
    var z := Dot(v, k);
    assert v == Vector(z * k.x, z * k.y, z * k.z) && Turned(v, k, a) == v by { TurnedOnAxis(v, k, a); }
    assert Signs(z, k) == Vector(z * k.x, z * k.y, z * k.z) <==> z == 0.0 || CoordinateAxis(k) by {
      SignsComeRight(z, k);
    }
    OnAxisNull(z, v, k);
  }

  lemma OnAxisRotation(sqrt: real -> real, v: Vector, axis: Vector, a: Angle)
    requires IsSqrt(sqrt) && axis != ORIGIN && Mul(v, axis) == ORIGIN
    ensures Rotated(sqrt, v, axis, a) == Turned(v, Scaled(axis, Length(sqrt, axis)), a)
        <==> v == ORIGIN || CoordinateAxis(axis)
  {
    var l, _ := Normalizes(sqrt, axis);
    var k := Scaled(axis, l);
    OnAxisSigns(sqrt, v, axis, a);
    MulScaledNull(v, k, l, axis);
    OnAxisExact(v, k, a);
    ScaledCoordinateAxis(axis, k, l);
  }

  /** Exactly when the code turns the vector: off the axis, or at the origin, or about a coordinate axis. */
  lemma RotationExact(sqrt: real -> real, v: Vector, axis: Vector, a: Angle)
    requires IsSqrt(sqrt) && axis != ORIGIN
    ensures Rotated(sqrt, v, axis, a) == Turned(v, Scaled(axis, Length(sqrt, axis)), a)
        <==> Mul(v, axis) != ORIGIN || v == ORIGIN || CoordinateAxis(axis)
  {
    if Mul(v, axis) != ORIGIN {
      CodeTurns(sqrt, v, axis, a);
    } else {
      OnAxisRotation(sqrt, v, axis, a);
    }
  }

  /** The vector (1, 1, 0) does not come back from a rotation about itself. */
  lemma DiagonalAxis(sqrt: real -> real, a: Angle)
    requires IsSqrt(sqrt)
    ensures var v := Vector(1.0, 1.0, 0.0); Rotated(sqrt, v, v, a) != Turned(v, Scaled(v, Length(sqrt, v)), a)
  {
    RotationExact(sqrt, Vector(1.0, 1.0, 0.0), Vector(1.0, 1.0, 0.0), a);
  }

  // ---------- rotations compose ----------

  lemma MulFlipped(v: Vector, k: Vector)
    ensures var m, w := Mul(v, k), Mul(k, v); w.x == -m.x && w.y == -m.y && w.z == -m.z
  {
  }

  lemma OneTimes(p: real, q: real, d: real, r: real)
    requires p == 1.0 && r == p * q - d * d
    ensures r == q - d * d
  {
  }

  lemma UnitMulLength(k: Vector, v: Vector)
    requires Unit(k)
    ensures Dot(Mul(k, v), Mul(k, v)) == Dot(v, v) - Dot(k, v) * Dot(k, v)
  {
    MulLength(k, v);
    OneTimes(Dot(k, k), Dot(v, v), Dot(k, v), Dot(Mul(k, v), Mul(k, v)));
  }

  lemma OppositesNull(m: Vector, w: Vector)
    requires w.x == -m.x && w.y == -m.y && w.z == -m.z
    ensures m == ORIGIN <==> w == ORIGIN
  {
  }

  lemma FlippedNull(v: Vector, k: Vector)
    ensures Mul(v, k) == ORIGIN <==> Mul(k, v) == ORIGIN
  {
    MulFlipped(v, k);
    OppositesNull(Mul(v, k), Mul(k, v));
  }

  lemma FlippedSize(v: Vector, k: Vector)
    ensures Mul(v, k) == ORIGIN <==> Dot(Mul(k, v), Mul(k, v)) == 0.0
  {
    FlippedNull(v, k);
    Positive(Mul(k, v));
  }

  /** How far off the axis a vector is, is known from its length and its part along the axis. */
  lemma OffAxisSize(v: Vector, k: Vector)
    requires Unit(k)
    ensures Mul(v, k) == ORIGIN <==> Dot(v, v) - Dot(k, v) * Dot(k, v) == 0.0
  {
    UnitMulLength(k, v);
    FlippedSize(v, k);
  }

  /** Turning never moves a vector onto the axis. */
  lemma StaysOffAxis(v: Vector, k: Vector, a: Angle)
    requires Unit(k) && IsAngle(a) && Mul(v, k) != ORIGIN
    ensures Mul(Turned(v, k, a), k) != ORIGIN
  {
    var r := Turned(v, k, a);
    assert Dot(r, r) == Dot(v, v) by { TurnedKeepsLength(v, k, a); }
    assert Dot(k, r) == Dot(k, v) by { TurnedKeepsAxisPart(v, k, a); }
    SameSize(v, r, k);
  }

  lemma SameSize(v: Vector, r: Vector, k: Vector)
    requires Unit(k) && Dot(r, r) == Dot(v, v) && Dot(k, r) == Dot(k, v)
    ensures Mul(r, k) == ORIGIN <==> Mul(v, k) == ORIGIN
  {
    OffAxisSize(v, k);
    OffAxisSize(r, k);
  }

  lemma OffAxisOfUnit(sqrt: real -> real, v: Vector, axis: Vector) returns (k: Vector)
    requires IsSqrt(sqrt) && axis != ORIGIN
    ensures k == Scaled(axis, Length(sqrt, axis)) && Unit(k)
    ensures Mul(v, axis) != ORIGIN <==> Mul(v, k) != ORIGIN
  {
    var l;
    l, k := Normalizes(sqrt, axis);
    if Mul(v, axis) != ORIGIN {
      MulScaledRight(v, k, l, axis);
    } else {
      MulScaledNull(v, k, l, axis);
    }
  }

  /** Two rotations in a row are one by the sum of the angles. */
  lemma RotationsCompose(sqrt: real -> real, v: Vector, axis: Vector, a: Angle, b: Angle)
    requires IsSqrt(sqrt) && IsAngle(a) && Mul(v, axis) != ORIGIN
    ensures Rotated(sqrt, Rotated(sqrt, v, axis, a), axis, b) == Rotated(sqrt, v, axis, Plus(a, b))
  {
    MulNull(v);
    var k := OffAxisOfUnit(sqrt, v, axis);
    CodeTurns(sqrt, v, axis, a);
    CodeTurns(sqrt, v, axis, Plus(a, b));
    var r := Turned(v, k, a);
    StaysOffAxis(v, k, a);
    var _ := OffAxisOfUnit(sqrt, r, axis);
    CodeTurns(sqrt, r, axis, b);
    TurnsCompose(v, k, a, b);
  }

  function Opposite(a: Angle): Angle {
    Angle(a.cos, -a.sin)
  }

  lemma OppositeCancels(a: Angle)
    requires IsAngle(a)
    ensures Plus(a, Opposite(a)) == Angle(1.0, 0.0)
  {
  }

  lemma NoTurn(v: Vector, k: Vector)
    ensures Turned(v, k, Angle(1.0, 0.0)) == v
  {
  }

  /** Rotating back by the opposite angle gives the vector again. */
  lemma RotationUndone(sqrt: real -> real, v: Vector, axis: Vector, a: Angle)
    requires IsSqrt(sqrt) && IsAngle(a) && Mul(v, axis) != ORIGIN
    ensures Rotated(sqrt, Rotated(sqrt, v, axis, a), axis, Opposite(a)) == v
  {
    RotationsCompose(sqrt, v, axis, a, Opposite(a));
    OppositeCancels(a);
    CodeTurns(sqrt, v, axis, Angle(1.0, 0.0));
    NoTurn(v, Scaled(axis, Length(sqrt, axis)));
  }

  /** Off the axis the length of the vector and its part along the axis are kept. */
  lemma RotationKeeps(sqrt: real -> real, v: Vector, axis: Vector, a: Angle)
    requires IsSqrt(sqrt) && IsAngle(a) && Mul(v, axis) != ORIGIN
    ensures var r, k := Rotated(sqrt, v, axis, a), Scaled(axis, Length(sqrt, axis));
            Unit(k) && r == Turned(v, k, a) && Dot(r, r) == Dot(v, v) && Dot(k, r) == Dot(k, v)
  {
    MulNull(v);
    var k := OffAxisOfUnit(sqrt, v, axis);
    CodeTurns(sqrt, v, axis, a);
    TurnedKeepsLength(v, k, a);
    TurnedKeepsAxisPart(v, k, a);
  }

  // ---------- every vector on the circle is reached ----------

  lemma TripleMinor(x: real, y: real, z: real, p: real, q: real, r: real, p': real, q': real, r': real,
                    m: real, m': real, d: real, d': real)
    requires m == p * r' - r * p' && m' == q * p' - p * q'
    requires d == p' * x + q' * y + r' * z && d' == p * x + q * y + r * z
    ensures z * m - y * m' == d * p - d' * p'
  {
  }

  /** The general double product. */
  lemma MulMul(a: Vector, b: Vector, c: Vector)
    ensures Mul(a, Mul(b, c)) == Comb(Dot(c, a), b, -Dot(b, a), c, 0.0, c)
  {
    var m, d, d' := Mul(b, c), Dot(c, a), Dot(b, a);
    TripleMinor(a.x, a.y, a.z, b.x, b.y, b.z, c.x, c.y, c.z, m.y, m.z, d, d');
    TripleMinor(a.y, a.z, a.x, b.y, b.z, b.x, c.y, c.z, c.x, m.z, m.x, d, d');
    TripleMinor(a.z, a.x, a.y, b.z, b.x, b.y, c.z, c.x, c.y, m.x, m.y, d, d');
  }

  function Minus(p: Vector, d: real, k: Vector): Vector {
    Comb(1.0, p, -d, k, 0.0, k)
  }

  /** The part of a vector off the axis. */
  lemma OffPart(v: Vector, k: Vector, d: real, v': Vector)
    requires Unit(k) && d == Dot(k, v) && v' == Minus(v, d, k)
    ensures Dot(k, v') == 0.0 && Dot(v', v') == Dot(v, v) - d * d && Mul(k, v') == Mul(k, v)
  {
    DotComb(k, 1.0, v, -d, k, 0.0, k);
    DotComb(v, 1.0, v, -d, k, 0.0, k);
    DotComb(v', 1.0, v, -d, k, 0.0, k);
    DotCommutes(v, k);
    MulComb(k, 1.0, v, -d, k, 0.0, k);
    MulOrthogonal(k, k);
  }

  function Times(t: real, v: Vector): Vector {
    Vector(t * v.x, t * v.y, t * v.z)
  }

  lemma MulTimes(a: Vector, t: real, b: Vector)
    ensures Mul(a, Times(t, b)) == Times(t, Mul(a, b))
  {
    MulComb(a, t, b, 0.0, b, 0.0, b);
  }

  /** A vector across the axis and the same turned a quarter. */
  lemma Quarter(z: Vector, k: Vector, w: Vector, size: real)
    requires Unit(k) && Dot(k, z) == 0.0 && w == Mul(k, z) && size == Dot(z, z)
    ensures Mul(z, w) == Times(size, k) && Mul(k, w) == Times(-1.0, z)
    ensures Dot(w, w) == size && Dot(z, w) == 0.0 && Dot(k, w) == 0.0
  {
    MulMul(z, k, z);
    MulTwice(k, z);
    UnitMulLength(k, z);
    MulOrthogonal(k, z);
  }

  lemma Across(p: Vector, k: Vector)
    requires Unit(k) && Dot(k, p) == 0.0
    ensures Mul(k, Mul(p, k)) == p
  {
    MulMul(k, p, k);
    DotCommutes(k, p);
  }

  /** Any vector across the axis is made of those two. */
  lemma AcrossParts(p: Vector, z: Vector, k: Vector, w: Vector, size: real)
    requires Unit(k) && Dot(k, p) == 0.0 && Dot(k, z) == 0.0 && w == Mul(k, z) && size == Dot(z, z)
    ensures Times(size, p) == Comb(Dot(p, z), z, Dot(p, w), w, 0.0, w)
  {
    Quarter(z, k, w, size);
    var x, y := Dot(w, p), -Dot(z, p);
    MulMul(p, z, w);
    MulTimes(p, size, k);
    assert Times(size, Mul(p, k)) == Comb(x, z, y, w, 0.0, w);
    MulTimes(k, size, Mul(p, k));
    Across(p, k);
    MulComb(k, x, z, y, w, 0.0, w);
    AcrossCombined(x, y, z, w, k);
    DotCommutes(w, p);
    DotCommutes(z, p);
  }

  lemma AcrossCombined(x: real, y: real, z: Vector, w: Vector, k: Vector)
    requires Mul(k, w) == Times(-1.0, z) && Mul(k, z) == w
    ensures Comb(x, Mul(k, z), y, Mul(k, w), 0.0, Mul(k, w)) == Comb(-y, z, x, w, 0.0, w)
  {
  }

  lemma RatioAngle(x: real, y: real, size: real) returns (a: Angle)
    requires size > 0.0 && x * x + y * y == size * size
    ensures IsAngle(a) && size * a.cos == x && size * a.sin == y
  {
    a := Angle(x / size, y / size);
    var c, s := a.cos, a.sin;
    assert size * c == x && size * s == y;
    assert x * x + y * y == (size * size) * (c * c + s * s);
    Square(size);
    assert (c * c + s * s - 1.0) * (size * size) == 0.0;
    ZeroProduct(c * c + s * s - 1.0, size * size);
  }

  lemma CoordinateReached(size: real, a: Angle, x: real, y: real, v: real, w: real, k: real, d: real, p: real)
    requires size > 0.0 && size * a.cos == x && size * a.sin == y
    requires size * (p - d * k) == x * (v - d * k) + y * w
    ensures a.cos * v + a.sin * w + d * (1.0 - a.cos) * k == p
  {
    var t := a.cos * v + a.sin * w + d * (1.0 - a.cos) * k - p;
    assert t * size == x * (v - d * k) + y * w - size * (p - d * k);
    ZeroProduct(t, size);
  }

  lemma PartsSquared(q: Vector, z: Vector, w: Vector, size: real)
    requires Times(size, q) == Comb(Dot(q, z), z, Dot(q, w), w, 0.0, w) && Dot(q, q) == size
    ensures Dot(q, z) * Dot(q, z) + Dot(q, w) * Dot(q, w) == size * size
  {
  }

  lemma OffPartPositive(v: Vector, k: Vector, z: Vector, d: real)
    requires Unit(k) && Mul(v, k) != ORIGIN && d == Dot(k, v) && z == Minus(v, d, k)
    ensures Dot(z, z) > 0.0
  {
    assert Dot(z, z) == Dot(v, v) - Dot(k, v) * Dot(k, v) by { OffPart(v, k, d, z); }
    assert Dot(v, v) - Dot(k, v) * Dot(k, v) != 0.0 by { OffAxisSize(v, k); }
    NotNegative(z);
  }

  lemma NotNegative(v: Vector)
    ensures Dot(v, v) >= 0.0
  {
  }

  lemma ReachedX(v: Vector, p: Vector, k: Vector, a: Angle, d: real, w: Vector, size: real, x: real, y: real)
    requires size > 0.0 && size * a.cos == x && size * a.sin == y
    requires size * Minus(p, d, k).x == x * Minus(v, d, k).x + y * w.x
    ensures TurnedBy(v, w, d, k, a).x == p.x
  {
    CoordinateReached(size, a, x, y, v.x, w.x, k.x, d, p.x);
  }

  lemma ReachedY(v: Vector, p: Vector, k: Vector, a: Angle, d: real, w: Vector, size: real, x: real, y: real)
    requires size > 0.0 && size * a.cos == x && size * a.sin == y
    requires size * Minus(p, d, k).y == x * Minus(v, d, k).y + y * w.y
    ensures TurnedBy(v, w, d, k, a).y == p.y
  {
    CoordinateReached(size, a, x, y, v.y, w.y, k.y, d, p.y);
  }

  lemma ReachedZ(v: Vector, p: Vector, k: Vector, a: Angle, d: real, w: Vector, size: real, x: real, y: real)
    requires size > 0.0 && size * a.cos == x && size * a.sin == y
    requires size * Minus(p, d, k).z == x * Minus(v, d, k).z + y * w.z
    ensures TurnedBy(v, w, d, k, a).z == p.z
  {
    CoordinateReached(size, a, x, y, v.z, w.z, k.z, d, p.z);
  }

  lemma TurnedReached(v: Vector, p: Vector, k: Vector, a: Angle, d: real, w: Vector, size: real, x: real, y: real)
    requires size > 0.0 && size * a.cos == x && size * a.sin == y
    requires Times(size, Minus(p, d, k)) == Comb(x, Minus(v, d, k), y, w, 0.0, w)
    ensures TurnedBy(v, w, d, k, a) == p
  {
    ReachedX(v, p, k, a, d, w, size, x, y);
    ReachedY(v, p, k, a, d, w, size, x, y);
    ReachedZ(v, p, k, a, d, w, size, x, y);
  }

  lemma OffPartsReached(q: Vector, z: Vector, k: Vector, w: Vector, size: real) returns (a: Angle)
    requires Unit(k) && Dot(k, q) == 0.0 && Dot(k, z) == 0.0 && w == Mul(k, z)
    requires size == Dot(z, z) == Dot(q, q) && size > 0.0
    ensures IsAngle(a) && Times(size, q) == Comb(size * a.cos, z, size * a.sin, w, 0.0, w)
  {
    AcrossParts(q, z, k, w, size);
    PartsSquared(q, z, w, size);
    a := RatioAngle(Dot(q, z), Dot(q, w), size);
  }

  /** Every vector of the same length and the same part along the axis is the vector turned by some angle. */
  lemma CircleReached(v: Vector, p: Vector, k: Vector) returns (a: Angle)
    requires Unit(k) && Mul(v, k) != ORIGIN
    requires Dot(k, p) == Dot(k, v) && Dot(p, p) == Dot(v, v)
    ensures IsAngle(a) && Turned(v, k, a) == p
  {
    var d := Dot(k, v);
    var z, q := Minus(v, d, k), Minus(p, d, k);
    var w, size := Mul(k, z), Dot(z, z);
    assert size > 0.0 by { OffPartPositive(v, k, z, d); }
    assert w == Mul(k, v) && Dot(k, z) == 0.0 by { OffPart(v, k, d, z); }
    assert size == Dot(q, q) && Dot(k, q) == 0.0 by {
      OffPart(v, k, d, z);
      OffPart(p, k, d, q);
    }
    a := OffPartsReached(q, z, k, w, size);
    TurnedReached(v, p, k, a, d, Mul(k, v), size, size * a.cos, size * a.sin);
  }

  lemma AxisPart(sqrt: real -> real, axis: Vector, p: Vector, q: Vector) returns (k: Vector)
    requires IsSqrt(sqrt) && axis != ORIGIN
    ensures k == Scaled(axis, Length(sqrt, axis)) && Unit(k)
    ensures Dot(axis, p) == Dot(axis, q) <==> Dot(k, p) == Dot(k, q)
  {
    var l;
    l, k := Normalizes(sqrt, axis);
    SamePart(l, k, axis, p, q);
  }

  lemma SamePart(l: real, k: Vector, axis: Vector, p: Vector, q: Vector)
    requires l > 0.0 && axis == Times(l, k)
    ensures Dot(axis, p) == Dot(axis, q) <==> Dot(k, p) == Dot(k, q)
  {
  }

  predicate SameCircle(v: Vector, axis: Vector, p: Vector) {
    Dot(axis, p) == Dot(axis, v) && Dot(p, p) == Dot(v, v)
  }

  /** The code's rotations of a vector off the axis are exactly its circle about the axis. */
  lemma RotationsAreCircle(sqrt: real -> real, v: Vector, axis: Vector, p: Vector)
    requires IsSqrt(sqrt) && Mul(v, axis) != ORIGIN
    ensures SameCircle(v, axis, p) <==> exists a :: IsAngle(a) && Rotated(sqrt, v, axis, a) == p
  {
    MulNull(v);
    var k := AxisPart(sqrt, axis, p, v);
    if SameCircle(v, axis, p) {
      var _ := OffAxisOfUnit(sqrt, v, axis);
      var a := CircleReached(v, p, k);
      CodeTurns(sqrt, v, axis, a);
    }
    forall a | IsAngle(a) && Rotated(sqrt, v, axis, a) == p
      ensures SameCircle(v, axis, p)
    {
      RotationKeeps(sqrt, v, axis, a);
    }
  }

  /** One coordinate of a turned vector: v of the vector, w of its product with the axis, k of the axis. */
  function TurnedAt(a: Angle, v: real, w: real, k: real, d: real): real {
    a.cos * v + a.sin * w + d * (1.0 - a.cos) * k
  }

  lemma CombAt(a: Angle, d: real, r: real, v: real, w: real, k: real)
    requires r == a.cos * v + a.sin * w + d * (1.0 - a.cos) * k
    ensures r == TurnedAt(a, v, w, k, d)
  {
  }

  lemma TurnedByWritten(v: Vector, w: Vector, d: real, k: Vector, a: Angle)
    ensures TurnedBy(v, w, d, k, a)
         == Vector(TurnedAt(a, v.x, w.x, k.x, d), TurnedAt(a, v.y, w.y, k.y, d), TurnedAt(a, v.z, w.z, k.z, d))
  {
    var r := TurnedBy(v, w, d, k, a);
    CombAt(a, d, r.x, v.x, w.x, k.x);
    CombAt(a, d, r.y, v.y, w.y, k.y);
    CombAt(a, d, r.z, v.z, w.z, k.z);
  }

  lemma TurnedWritten(v: Vector, k: Vector, a: Angle)
    ensures var d := k.x * v.x + k.y * v.y + k.z * v.z;
            Turned(v, k, a) == Vector(TurnedAt(a, v.x, v.y * k.z - v.z * k.y, k.x, d),
                                      TurnedAt(a, v.y, v.z * k.x - v.x * k.z, k.y, d),
                                      TurnedAt(a, v.z, v.x * k.y - v.y * k.x, k.z, d))
  {
    TurnedByWritten(v, Mul(k, v), Dot(k, v), k, a);
  }

  lemma OffAxisWritten(v: Vector, axis: Vector)
    ensures Mul(v, axis) != ORIGIN <==>
            v.y * axis.z != v.z * axis.y || v.z * axis.x != v.x * axis.z || v.x * axis.y != v.y * axis.x
  {
  }

  lemma AboutZ(v: Vector, a: Angle, r: Vector)
    requires r == Turned(v, STANDARD.k, a)
    ensures r == Vector(v.x * a.cos + v.y * a.sin, -v.x * a.sin + v.y * a.cos, v.z)
  {
    TurnedWritten(v, STANDARD.k, a);
  }

  /** About the third axis: by a right angle (1, 0, 0) comes to (0, -1, 0). */
  lemma RotationAboutZ(sqrt: real -> real, v: Vector, a: Angle)
    requires IsSqrt(sqrt) && (v.x != 0.0 || v.y != 0.0)
    ensures Rotated(sqrt, v, Vector(0.0, 0.0, 1.0), a)
         == Vector(v.x * a.cos + v.y * a.sin, -v.x * a.sin + v.y * a.cos, v.z)
  {
    var k := STANDARD.k;
    assert Length(sqrt, k) == 1.0 by { LengthOfUnit(sqrt, k); }
    assert Scaled(k, 1.0) == k;
    assert Mul(v, k) != ORIGIN by { OffAxisWritten(v, k); }
    CodeTurns(sqrt, v, k, a);
    AboutZ(v, a, Turned(v, k, a));
  }

  lemma OffAxisCase(sqrt: real -> real, v: Vector, axis: Vector, k: Vector, a: Angle, d: real)
    requires IsSqrt(sqrt) && Mul(v, axis) != ORIGIN && k == Scaled(axis, Length(sqrt, axis))
    requires d == k.x * v.x + k.y * v.y + k.z * v.z
    ensures Rotated(sqrt, v, axis, a) == Turned(v, k, a)
         == Vector(TurnedAt(a, v.x, v.y * k.z - v.z * k.y, k.x, d),
                   TurnedAt(a, v.y, v.z * k.x - v.x * k.z, k.y, d),
                   TurnedAt(a, v.z, v.x * k.y - v.y * k.x, k.z, d))
  {
    CodeTurns(sqrt, v, axis, a);
    TurnedWritten(v, k, a);
  }

  lemma NullAxisCase(sqrt: real -> real, v: Vector, a: Angle)
    requires IsSqrt(sqrt)
    ensures Mul(v, ORIGIN) == ORIGIN && Rotated(sqrt, v, ORIGIN, a) == ORIGIN
  {
    MulNull(v);
    NullAxis(sqrt, v, a);
  }

  /** Off the axis the vector is turned about the unit axis u; TurnedAt is the formula for each coordinate. */
  method Rotate(sqrt: real -> real, v: Vector, axis: Vector, a: Angle) returns (r: Vector, ghost u: Vector)
    requires IsSqrt(sqrt) && IsAngle(a)
    ensures r == Rotated(sqrt, v, axis, a) && u == Scaled(axis, Length(sqrt, axis))
    ensures v.y * axis.z != v.z * axis.y || v.z * axis.x != v.x * axis.z || v.x * axis.y != v.y * axis.x ==>
              var d := u.x * v.x + u.y * v.y + u.z * v.z;
              r == Turned(v, u, a) == Vector(TurnedAt(a, v.x, v.y * u.z - v.z * u.y, u.x, d),
                                             TurnedAt(a, v.y, v.z * u.x - v.x * u.z, u.y, d),
                                             TurnedAt(a, v.z, v.x * u.y - v.y * u.x, u.z, d))
    ensures axis == ORIGIN ==> r == ORIGIN
  {
    var k := Normalize(sqrt, axis);
    var i := Normalize(sqrt, Mul(v, k));
    var tempBasis := Basis(i, Mul(i, k), k);
    var seen := Transform(sqrt, v, tempBasis);
    var columns := TransformBasis(sqrt, STANDARD, tempBasis);
    r := Transform(sqrt, RotateZ(seen, a), columns);
    u := k;
    OffAxisWritten(v, axis);
    if axis == ORIGIN {
      NullAxisCase(sqrt, v, a);
    } else if Mul(v, axis) != ORIGIN {
      OffAxisCase(sqrt, v, axis, u, a, u.x * v.x + u.y * v.y + u.z * v.z);
    }
  }
}
