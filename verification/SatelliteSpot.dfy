/** The ground a satellite sees: a circle of points on the sphere, walked by rotating one of them about the line
  * to the satellite. Lengths are in kilometres.
  */
module SatelliteSpots {

  import opened SpaceModel

  const EARTH_RADIUS := 6378137.0 / 1000.0

  /** The vector of that length to a latitude and a longitude. */
  function ToVector(length: real, latitude: Angle, longitude: Angle): Vector {
    Vector(length * latitude.cos * longitude.cos, length * latitude.cos * longitude.sin, length * latitude.sin)
  }

  function ArcSine(sqrt: real -> real, s: real): Angle {
    Angle(sqrt(1.0 - s * s), s)
  }

  /** Half the angle under which the ground is seen from the centre: the arc sine of distance over height. */
  function HalfVisibleAngle(sqrt: real -> real, altitude: real): Angle
    requires altitude > 0.0
  {
    var distance := sqrt(altitude * altitude + 2.0 * altitude * EARTH_RADIUS);
    ArcSine(sqrt, distance / (altitude + EARTH_RADIUS))
  }

  // ---------- the angle ----------

  lemma RootIs(sqrt: real -> real, x: real, r: real)
    requires IsSqrt(sqrt) && r >= 0.0 && x == r * r
    ensures sqrt(x) == r
  {
    Square(r);
    RootOf(sqrt, x);
    SameSquare(sqrt(x), r);
  }

  lemma SameSquare(p: real, r: real)
    requires p >= 0.0 && r >= 0.0 && p * p == r * r
    ensures p == r
  {
    assert (p - r) * (p + r) == 0.0;
    if p + r != 0.0 { ZeroProduct(p - r, p + r); }
  }

  lemma Ratios(distance: real, altitude: real, radius: real, s: real, c: real)
    requires altitude > 0.0 && radius > 0.0
    requires distance * distance == altitude * altitude + 2.0 * altitude * radius
    requires s == distance / (altitude + radius) && c == radius / (altitude + radius)
    ensures c > 0.0 && 1.0 - s * s == c * c && (altitude + radius) * c == radius
  {
    var h := altitude + radius;
    assert s * h == distance && c * h == radius;
    RatioSquares(s, c, h, distance, radius);
  }

  lemma RatioSquares(s: real, c: real, h: real, distance: real, radius: real)
    requires h > 0.0 && s * h == distance && c * h == radius && h * h - radius * radius == distance * distance
    ensures 1.0 - s * s == c * c
  {
    assert (1.0 - s * s - c * c) * (h * h) == 0.0 by {
      assert s * s * (h * h) == (s * h) * (s * h) && c * c * (h * h) == (c * h) * (c * h);
    }
    Square(h);
    ZeroProduct(1.0 - s * s - c * c, h * h);
  }

  lemma SinePositive(s: real, x: real, h: real)
    requires x > 0.0 && h > 0.0 && s == x / h
    ensures s > 0.0
  {
  }

  lemma RootPositive(sqrt: real -> real, altitude: real) returns (distance: real)
    requires IsSqrt(sqrt) && altitude > 0.0
    ensures distance == sqrt(altitude * altitude + 2.0 * altitude * EARTH_RADIUS) > 0.0
    ensures distance * distance == altitude * altitude + 2.0 * altitude * EARTH_RADIUS
  {
    var x := altitude * altitude + 2.0 * altitude * EARTH_RADIUS;
    assert x > 0.0;
    RootOf(sqrt, x);
    distance := sqrt(x);
  }

  lemma ArcSineIs(sqrt: real -> real, s: real, c: real)
    requires IsSqrt(sqrt) && c >= 0.0 && 1.0 - s * s == c * c
    ensures ArcSine(sqrt, s) == Angle(c, s) && IsAngle(ArcSine(sqrt, s))
  {
    RootIs(sqrt, 1.0 - s * s, c);
  }

  /** The cosine is the earth's radius over the height; the sine is positive, so the spot is never a point. */
  lemma HalfVisible(sqrt: real -> real, altitude: real)
    requires IsSqrt(sqrt) && altitude > 0.0
    ensures var h := HalfVisibleAngle(sqrt, altitude);
            IsAngle(h) && h.sin > 0.0 && (altitude + EARTH_RADIUS) * h.cos == EARTH_RADIUS
  {
    var distance := RootPositive(sqrt, altitude);
    var height := altitude + EARTH_RADIUS;
    var s, c := distance / height, EARTH_RADIUS / height;
    Ratios(distance, altitude, EARTH_RADIUS, s, c);
    SinePositive(s, distance, height);
    ArcSineIs(sqrt, s, c);
  }

  // ---------- points on a sphere ----------

  lemma SphereDot(p: real, q: real, u: Angle, v: Angle, c: real, longitude: Angle)
    requires IsAngle(longitude) && u.cos * v.cos + u.sin * v.sin == c
    ensures Dot(ToVector(p, u, longitude), ToVector(q, v, longitude)) == p * q * c
  {
    PartsDot(ToVector(p, u, longitude), ToVector(q, v, longitude), p * u.cos, q * v.cos, p, q, u, v, c, longitude);
  }

  lemma PartsDot(a: Vector, b: Vector, r: real, t: real, p: real, q: real, u: Angle, v: Angle, c: real, l: Angle)
    requires IsAngle(l) && u.cos * v.cos + u.sin * v.sin == c && r == p * u.cos && t == q * v.cos
    requires a == Vector(r * l.cos, r * l.sin, p * u.sin) && b == Vector(t * l.cos, t * l.sin, q * v.sin)
    ensures Dot(a, b) == p * q * c
  {
    OnCircle(a.x, a.y, b.x, b.y, r, t, l.cos, l.sin);
    Spread(r, t, a.z, b.z, p, q, u.cos, v.cos, u.sin, v.sin, c);
  }

  lemma OnCircle(ax: real, ay: real, bx: real, by': real, a: real, b: real, x: real, y: real)
    requires x * x + y * y == 1.0 && ax == a * x && ay == a * y && bx == b * x && by' == b * y
    ensures ax * bx + ay * by' == a * b
  {
    assert ax * bx + ay * by' == a * b * (x * x + y * y);
  }

  lemma Spread(a: real, b: real, az: real, bz: real, p: real, q: real, x: real, y: real, s: real, t: real, c: real)
    requires x * y + s * t == c && a == p * x && b == q * y && az == p * s && bz == q * t
    ensures a * b + az * bz == p * q * c
  {
    assert a * b + az * bz == p * q * (x * y + s * t);
  }

  lemma AngleBetween(u: Angle, h: Angle)
    requires IsAngle(u)
    ensures u.cos * Plus(u, h).cos + u.sin * Plus(u, h).sin == h.cos
  {
  }

  lemma PlusIsAngle(a: Angle, b: Angle)
    requires IsAngle(a) && IsAngle(b)
    ensures IsAngle(Plus(a, b))
  {
  }

  /** A point of the sphere whose line to the satellite touches the sphere there. */
  predicate OnHorizon(p: Vector, satellite: Vector) {
    Dot(p, p) == EARTH_RADIUS * EARTH_RADIUS && Dot(satellite, p) == EARTH_RADIUS * EARTH_RADIUS
  }

  /** The axis to the satellite and the first point of its spot. */
  predicate Framed(axis: Vector, zero: Vector, satellite: Vector, altitude: real) {
    && altitude > 0.0
    && Dot(axis, axis) == EARTH_RADIUS * EARTH_RADIUS
    && Times(EARTH_RADIUS, satellite) == Times(altitude + EARTH_RADIUS, axis)
    && OnHorizon(zero, satellite)
  }

  lemma ObserverFrames(sqrt: real -> real, altitude: real, latitude: Angle, longitude: Angle)
    requires IsSqrt(sqrt) && altitude > 0.0 && IsAngle(latitude) && IsAngle(longitude)
    ensures var h := HalfVisibleAngle(sqrt, altitude);
            Framed(ToVector(EARTH_RADIUS, latitude, longitude), ToVector(EARTH_RADIUS, Plus(latitude, h), longitude),
                   ToVector(altitude + EARTH_RADIUS, latitude, longitude), altitude)
  {
    var h := HalfVisibleAngle(sqrt, altitude);
    HalfVisible(sqrt, altitude);
    FramedBy(altitude, latitude, longitude, h);
  }

  lemma Regroup(p: real, q: real, c: real)
    requires p * c == q
    ensures p * q * c == q * q
  {
  }

  lemma SphereSize(p: real, u: Angle, longitude: Angle)
    requires IsAngle(u) && IsAngle(longitude)
    ensures Dot(ToVector(p, u, longitude), ToVector(p, u, longitude)) == p * p
  {
  }

  lemma HorizonDot(p: real, q: real, u: Angle, z: Angle, c: real, longitude: Angle)
    requires IsAngle(longitude) && p * c == q && u.cos * z.cos + u.sin * z.sin == c
    ensures Dot(ToVector(p, u, longitude), ToVector(q, z, longitude)) == q * q
  {
    SphereDot(p, q, u, z, c, longitude);
    Regroup(p, q, c);
  }

  lemma FramedBy(altitude: real, latitude: Angle, longitude: Angle, h: Angle)
    requires altitude > 0.0 && IsAngle(latitude) && IsAngle(longitude) && IsAngle(h)
    requires (altitude + EARTH_RADIUS) * h.cos == EARTH_RADIUS
    ensures Framed(ToVector(EARTH_RADIUS, latitude, longitude), ToVector(EARTH_RADIUS, Plus(latitude, h), longitude),
                   ToVector(altitude + EARTH_RADIUS, latitude, longitude), altitude)
  {
    PlusIsAngle(latitude, h);
    SphereSize(EARTH_RADIUS, latitude, longitude);
    SphereSize(EARTH_RADIUS, Plus(latitude, h), longitude);
    AngleBetween(latitude, h);
    HorizonDot(altitude + EARTH_RADIUS, EARTH_RADIUS, latitude, Plus(latitude, h), h.cos, longitude);
  }

  // ---------- the spot ----------

  lemma SameScale(r: real, satellite: Vector, f: real, axis: Vector, p: Vector)
    requires Times(r, satellite) == Times(f, axis)
    ensures r * Dot(satellite, p) == f * Dot(axis, p)
  {
  }

  lemma HighUp(r: real, f: real, d: real)
    requires 0.0 < r < f && f * d == r * (r * r)
    ensures d * d != (r * r) * (r * r)
  {
    var x := r * r;
    Smaller(r, f, d, x);
    assert d * d < x * x;
  }

  lemma Smaller(r: real, f: real, d: real, x: real)
    requires 0.0 < r < f && x > 0.0 && f * d == r * x
    ensures 0.0 < d < x
  {
    assert f * (x - d) == (f - r) * x;
  }

  /** The spot has a size: its first point is not under the satellite. */
  lemma NotParallel(axis: Vector, zero: Vector, satellite: Vector, altitude: real)
    requires Framed(axis, zero, satellite, altitude)
    ensures Mul(zero, axis) != ORIGIN
  {
    var r, d := EARTH_RADIUS, Dot(axis, zero);
    SameScale(r, satellite, altitude + r, axis, zero);
    HighUp(r, altitude + r, d);
    MulLength(axis, zero);
    assert Dot(Mul(axis, zero), Mul(axis, zero)) != 0.0;
    MulFlipped(zero, axis);
  }

  lemma HorizonIsCircle(axis: Vector, zero: Vector, satellite: Vector, altitude: real, p: Vector)
    requires Framed(axis, zero, satellite, altitude)
    ensures OnHorizon(p, satellite) <==> SameCircle(zero, axis, p)
  {
    var r, f := EARTH_RADIUS, altitude + EARTH_RADIUS;
    SameScale(r, satellite, f, axis, zero);
    SameScale(r, satellite, f, axis, p);
    if OnHorizon(p, satellite) {
      SameProduct(f, Dot(axis, p), Dot(axis, zero));
    } else if SameCircle(zero, axis, p) {
      SameProduct(r, Dot(satellite, p), Dot(satellite, zero));
    }
  }

  /** The points the spot can return are exactly the points where the satellite stands on the horizon. */
  lemma SpotIsHorizon(sqrt: real -> real, axis: Vector, zero: Vector, satellite: Vector, altitude: real, p: Vector)
    requires IsSqrt(sqrt) && Framed(axis, zero, satellite, altitude)
    ensures OnHorizon(p, satellite) <==> exists a :: IsAngle(a) && Rotated(sqrt, zero, axis, a) == p
  {
    NotParallel(axis, zero, satellite, altitude);
    HorizonIsCircle(axis, zero, satellite, altitude, p);
    RotationsAreCircle(sqrt, zero, axis, p);
  }

  /** The line from a horizon point to the satellite touches the sphere, and its length is the source's distance. */
  lemma TangentLine(satellite: Vector, p: Vector, altitude: real)
    requires OnHorizon(p, satellite)
    requires Dot(satellite, satellite) == (altitude + EARTH_RADIUS) * (altitude + EARTH_RADIUS)
    ensures var line := Comb(1.0, satellite, -1.0, p, 0.0, p);
            Dot(line, p) == 0.0 && Dot(line, line) == altitude * altitude + 2.0 * altitude * EARTH_RADIUS
  {
    DotComb(p, 1.0, satellite, -1.0, p, 0.0, p);
    DotComb(satellite, 1.0, satellite, -1.0, p, 0.0, p);
    DotComb(Comb(1.0, satellite, -1.0, p, 0.0, p), 1.0, satellite, -1.0, p, 0.0, p);
    DotCommutes(p, satellite);
  }

  lemma Horizontal(r: real, x: real, y: real, c: real, s: real)
    requires c * c + s * s == 1.0 && x == r * c && y == r * s
    ensures x * x + y * y == r * r
  {
    assert x * x + y * y == (r * r) * (c * c + s * s);
  }

  lemma OutIs(sqrt: real -> real, length: real, latitude: Angle, longitude: Angle, v: Vector, r: real)
    requires IsSqrt(sqrt) && length > 0.0 && IsAngle(longitude) && latitude.cos >= 0.0
    requires v == ToVector(length, latitude, longitude) && r == length * latitude.cos
    ensures sqrt(v.x * v.x + v.y * v.y) == r && v.x == r * longitude.cos && v.y == r * longitude.sin
  {
    Horizontal(r, v.x, v.y, longitude.cos, longitude.sin);
    RootIs(sqrt, v.x * v.x + v.y * v.y, r);
  }

  /** Length, latitude and longitude can be read back: up is the sine of the latitude; out towards the prime meridian
    * and a quarter further east are cosine and sine of the longitude.
    */
  lemma VectorRecovers(sqrt: real -> real, length: real, latitude: Angle, longitude: Angle, v: Vector, out: real)
    requires IsSqrt(sqrt) && length > 0.0 && IsAngle(latitude) && IsAngle(longitude) && latitude.cos >= 0.0
    requires v == ToVector(length, latitude, longitude) && out == sqrt(v.x * v.x + v.y * v.y)
    ensures Length(sqrt, v) == length && v.z == length * latitude.sin && out == length * latitude.cos
    ensures v.x == out * longitude.cos && v.y == out * longitude.sin
  {
    SphereSize(length, latitude, longitude);
    RootIs(sqrt, Dot(v, v), length);
    OutIs(sqrt, length, latitude, longitude, v, length * latitude.cos);
    SameFactor(length * latitude.cos, out, longitude.cos, v.x);
    SameFactor(length * latitude.cos, out, longitude.sin, v.y);
  }

  lemma SameFactor(r: real, out: real, c: real, x: real)
    requires r == out && x == r * c
    ensures x == out * c
  {
  }

  // ---------- which way round ----------

  /** The directions up, north and east at a place. */
  function Up(latitude: Angle, longitude: Angle): Vector {
    ToVector(1.0, latitude, longitude)
  }

  function North(latitude: Angle, longitude: Angle): Vector {
    Vector(-latitude.sin * longitude.cos, -latitude.sin * longitude.sin, latitude.cos)
  }

  function East(longitude: Angle): Vector {
    Vector(-longitude.sin, longitude.cos, 0.0)
  }

  lemma TurnCloses(c: real, s: real, x: real, y: real, z: real)
    requires c * c + s * s == 1.0 && y == s * x && z == c * x
    ensures s * y + c * z == x
  {
    assert s * y + c * z == (s * s + c * c) * x;
  }

  lemma NorthTurnsEast(latitude: Angle, longitude: Angle)
    requires IsAngle(latitude) && IsAngle(longitude)
    ensures Mul(Up(latitude, longitude), North(latitude, longitude)) == East(longitude)
  {
    var u, n, c, s := Up(latitude, longitude), North(latitude, longitude), latitude.cos, latitude.sin;
    TurnCloses(c, s, longitude.sin, s * longitude.sin, c * longitude.sin);
    TurnCloses(c, s, longitude.cos, s * longitude.cos, c * longitude.cos);
  }

  lemma Directions(latitude: Angle, longitude: Angle)
    requires IsAngle(latitude) && IsAngle(longitude)
    ensures var u, n, e := Up(latitude, longitude), North(latitude, longitude), East(longitude);
            && Unit(u) && Unit(n) && Unit(e) && Dot(u, n) == 0.0 && Dot(u, e) == 0.0 && Dot(n, e) == 0.0
  {
    var u, n, e := Up(latitude, longitude), North(latitude, longitude), East(longitude);
    SphereSize(1.0, latitude, longitude);
    SphereSize(1.0, Angle(-latitude.sin, latitude.cos), longitude);
    SphereDot(1.0, 1.0, latitude, Angle(-latitude.sin, latitude.cos), 0.0, longitude);
    assert n == ToVector(1.0, Angle(-latitude.sin, latitude.cos), longitude);
    EastAcross(latitude, longitude);
  }

  lemma EastAcross(latitude: Angle, longitude: Angle)
    ensures Dot(Up(latitude, longitude), East(longitude)) == 0.0
    ensures Dot(North(latitude, longitude), East(longitude)) == 0.0
  {
  }

  lemma PlusAt(l: real, u: Angle, h: Angle, g: real, r: real, t: real)
    requires r == l * h.cos && t == l * h.sin
    ensures l * Plus(u, h).cos * g == r * (u.cos * g) + t * (-u.sin * g)
    ensures l * Plus(u, h).sin == r * u.sin + t * u.cos
  {
  }

  lemma UpIs(latitude: Angle, longitude: Angle)
    ensures Up(latitude, longitude)
         == Vector(latitude.cos * longitude.cos, latitude.cos * longitude.sin, latitude.sin)
  {
  }

  /** The point at an angle h north of a place. */
  lemma TiltedNorth(l: real, u: Angle, h: Angle, longitude: Angle, r: real, t: real)
    requires r == l * h.cos && t == l * h.sin
    ensures ToVector(l, Plus(u, h), longitude)
         == Comb(r, Up(u, longitude), t, North(u, longitude), 0.0, North(u, longitude))
  {
    PlusAt(l, u, h, longitude.cos, r, t);
    PlusAt(l, u, h, longitude.sin, r, t);
    UpIs(u, longitude);
  }

  lemma DividesOut(l: real, c: real, g: real, x: real)
    requires l > 0.0 && x == l * c * g
    ensures x / l == c * g
  {
    assert x == (c * g) * l;
  }

  lemma DividedIsUp(length: real, latitude: Angle, longitude: Angle, v: Vector)
    requires length > 0.0 && v == ToVector(length, latitude, longitude)
    ensures Scaled(v, length) == Up(latitude, longitude)
  {
    DividesOut(length, latitude.cos, longitude.cos, v.x);
    DividesOut(length, latitude.cos, longitude.sin, v.y);
    DividesOut(length, latitude.sin, 1.0, v.z);
    UpIs(latitude, longitude);
  }

  lemma ScaledIsUp(sqrt: real -> real, length: real, latitude: Angle, longitude: Angle, v: Vector)
    requires IsSqrt(sqrt) && length > 0.0 && IsAngle(latitude) && IsAngle(longitude)
    requires v == ToVector(length, latitude, longitude)
    ensures Scaled(v, Length(sqrt, v)) == Up(latitude, longitude)
  {
    SphereSize(length, latitude, longitude);
    RootIs(sqrt, Dot(v, v), length);
    DividedIsUp(length, latitude, longitude, v);
  }

  /** A vector tilted from u towards n, turned about u: the part across u goes from n towards e. */
  lemma TurnedFrame(u: Vector, n: Vector, e: Vector, v: Vector, r: real, t: real, a: Angle, p: Vector)
    requires Unit(u) && Unit(n) && Unit(e) && Dot(u, n) == 0.0 && Dot(u, e) == 0.0 && Dot(n, e) == 0.0
    requires Mul(u, n) == e && v == Comb(r, u, t, n, 0.0, n) && p == Turned(v, u, a)
    ensures Dot(n, p) == a.cos * t && Dot(e, p) == a.sin * t && Dot(u, p) == r
  {
    DotCommutes(n, u);
    DotCommutes(e, u);
    DotCommutes(e, n);
    DotComb(n, r, u, t, n, 0.0, n);
    DotComb(e, r, u, t, n, 0.0, n);
    DotComb(u, r, u, t, n, 0.0, n);
    MulComb(u, r, u, t, n, 0.0, n);
    MulOrthogonal(u, u);
    TimesEast(r, t, e);
    TurnedParts(u, n, e, v, Mul(u, v), r, t, a, p);
  }

  lemma TimesEast(r: real, t: real, e: Vector)
    ensures Comb(r, ORIGIN, t, e, 0.0, e) == Times(t, e)
  {
  }

  lemma DotTimes(n: Vector, t: real, e: Vector)
    ensures Dot(n, Times(t, e)) == t * Dot(n, e)
  {
  }

  lemma TurnedParts(u: Vector, n: Vector, e: Vector, v: Vector, w: Vector, r: real, t: real, a: Angle, p: Vector)
    requires Unit(u) && Unit(e) && Dot(n, u) == 0.0 && Dot(e, u) == 0.0 && Dot(u, e) == 0.0 && Dot(n, e) == 0.0
    requires Dot(n, v) == t && Dot(e, v) == 0.0 && Dot(u, v) == r && w == Times(t, e)
    requires p == TurnedBy(v, w, r, u, a)
    ensures Dot(n, p) == a.cos * t && Dot(e, p) == a.sin * t && Dot(u, p) == r
  {
    var f := r * (1.0 - a.cos);
    DotComb(n, a.cos, v, a.sin, w, f, u);
    DotComb(e, a.cos, v, a.sin, w, f, u);
    DotComb(u, a.cos, v, a.sin, w, f, u);
    DotTimes(n, t, e);
    DotTimes(e, t, e);
    DotTimes(u, t, e);
  }

  lemma AzimuthAt(sqrt: real -> real, l: real, latitude: Angle, longitude: Angle, h: Angle, axis: Vector, zero: Vector,
                  a: Angle, r: real, t: real, p: Vector)
    requires IsSqrt(sqrt) && l > 0.0 && IsAngle(latitude) && IsAngle(longitude) && Mul(zero, axis) != ORIGIN
    requires axis == ToVector(l, latitude, longitude) && zero == ToVector(l, Plus(latitude, h), longitude)
    requires r == l * h.cos && t == l * h.sin && p == Rotated(sqrt, zero, axis, a)
    ensures Dot(North(latitude, longitude), p) == a.cos * t
    ensures Dot(East(longitude), p) == a.sin * t
    ensures Dot(Up(latitude, longitude), p) == r
  {
    var u, n, e := Up(latitude, longitude), North(latitude, longitude), East(longitude);
    CodeTurns(sqrt, zero, axis, a);
    ScaledIsUp(sqrt, l, latitude, longitude, axis);
    TiltedNorth(l, latitude, h, longitude, r, t);
    Directions(latitude, longitude);
    NorthTurnsEast(latitude, longitude);
    TurnedFrame(u, n, e, zero, r, t, a, p);
  }

  /** The azimuth is counted from north through east: seen from below the satellite, the point for an azimuth lies in
    * that direction, half the visible angle away.
    */
  lemma AzimuthFromNorth(sqrt: real -> real, altitude: real, latitude: Angle, longitude: Angle, satellite: Vector,
                         h: Angle, axis: Vector, zero: Vector, a: Angle, r: real, t: real)
    requires IsSqrt(sqrt) && IsAngle(latitude) && IsAngle(longitude)
    requires axis == ToVector(EARTH_RADIUS, latitude, longitude)
    requires zero == ToVector(EARTH_RADIUS, Plus(latitude, h), longitude)
    requires Framed(axis, zero, satellite, altitude) && r == EARTH_RADIUS * h.cos && t == EARTH_RADIUS * h.sin
    ensures var p := Rotated(sqrt, zero, axis, a);
            && Dot(North(latitude, longitude), p) == a.cos * t
            && Dot(East(longitude), p) == a.sin * t
            && Dot(Up(latitude, longitude), p) == r
  {
    NotParallel(axis, zero, satellite, altitude);
    AzimuthAt(sqrt, EARTH_RADIUS, latitude, longitude, h, axis, zero, a, r, t, Rotated(sqrt, zero, axis, a));
  }

  datatype Outcome = Done | InvalidAltitude | InvalidLatitude

  /** The azimuth after n steps. */
  function Azimuth(step: real, n: nat): real {
    if n == 0 then 0.0 else Azimuth(step, n - 1) + step
  }

  lemma {:induction false} AzimuthIs(step: real, n: nat)
    ensures Azimuth(step, n) == n as real * step
  {
    if n > 0 { AzimuthIs(step, n - 1); }
  }

  /** The smallest number of steps that reaches all the way round. */
  predicate AllTheWay(step: real, n: nat) {
    n > 0 && Azimuth(step, n - 1) < 360.0 <= Azimuth(step, n)
  }

  /** The point reached by k steps. */
  function Points(sqrt: real -> real, zero: Vector, axis: Vector, turn: real -> Angle, step: real): nat -> Vector {
    (k: nat) => Rotated(sqrt, zero, axis, turn(Azimuth(step, k)))
  }

  /** The azimuths of the first n steps that pass the check, in order, each once, and their points. */
  ghost predicate Picks(nodes: seq<Vector>, indices: seq<nat>, n: nat, point: nat -> Vector, passes: Vector -> bool) {
    && |nodes| == |indices|
    && (forall i, j | 0 <= i < j < |indices| :: indices[i] < indices[j])
    && (forall k: nat :: k in indices <==> k < n && passes(point(k)))
    && (forall j | 0 <= j < |nodes| :: nodes[j] == point(indices[j]))
  }

  lemma PickNext(nodes: seq<Vector>, indices: seq<nat>, n: nat, point: nat -> Vector, passes: Vector -> bool)
    requires Picks(nodes, indices, n, point, passes)
    ensures if passes(point(n)) then Picks(nodes + [point(n)], indices + [n], n + 1, point, passes)
            else Picks(nodes, indices, n + 1, point, passes)
  {
    assert forall i | 0 <= i < |indices| :: indices[i] in indices;
    assert forall k: nat :: k in indices + [n] <==> k in indices || k == n;
  }

  lemma Factors(p: real, q: real, step: real)
    requires step > 0.0 && p * step < q * step
    ensures p < q
  {
  }

  lemma QuotientTimes(x: real, step: real)
    requires step != 0.0
    ensures x / step * step == x
  {
  }

  lemma StepsLeft(step: real, n: nat)
    requires step > 0.0 && Azimuth(step, n) < 360.0
    ensures n <= (360.0 / step).Floor
  {
    AzimuthIs(step, n);
    QuotientTimes(360.0, step);
    Factors(n as real, 360.0 / step, step);
  }

  class SatelliteSpot {
    var axis: Vector
    var zero: Vector
    var northHemisphere: bool
    ghost var satellite: Vector
    ghost var altitude: real

    ghost predicate Valid()
      reads this
    {
      Framed(axis, zero, satellite, altitude)
    }

    /** Latitude in degrees decides the hemisphere; latitude and longitude are also given as angles. */
    method SetObserver(sqrt: real -> real, altitude: real, degrees: real, latitudeCorrect: bool,
                       latitude: Angle, longitude: Angle) returns (outcome: Outcome)
      requires IsSqrt(sqrt) && IsAngle(latitude) && IsAngle(longitude)
      modifies this
      ensures outcome == if altitude <= 0.0 then InvalidAltitude else if !latitudeCorrect then InvalidLatitude else Done
      ensures outcome == Done ==> Valid() && this.altitude == altitude && northHemisphere == (degrees > 0.0)
                                  && satellite == ToVector(altitude + EARTH_RADIUS, latitude, longitude)
                                  && axis == ToVector(EARTH_RADIUS, latitude, longitude)
                                  && zero == ToVector(EARTH_RADIUS, Plus(latitude, HalfVisibleAngle(sqrt, altitude)),
                                                      longitude)
      ensures outcome != Done ==> unchanged(this)
    {
      if altitude <= 0.0 {
        return InvalidAltitude;
      }
      if !latitudeCorrect {
        return InvalidLatitude;
      }
      var halfVisibleAngle := HalfVisibleAngle(sqrt, altitude);
      northHemisphere := degrees > 0.0;
      axis := ToVector(EARTH_RADIUS, latitude, longitude);
      zero := ToVector(EARTH_RADIUS, Plus(latitude, halfVisibleAngle), longitude);
      satellite, this.altitude := ToVector(altitude + EARTH_RADIUS, latitude, longitude), altitude;
      ObserverFrames(sqrt, altitude, latitude, longitude);
      return Done;
    }

    method GetPoint(sqrt: real -> real, azimuth: Angle) returns (p: Vector)
      requires Valid() && IsSqrt(sqrt) && IsAngle(azimuth)
      ensures p == Rotated(sqrt, zero, axis, azimuth) == Turned(zero, Scaled(axis, Length(sqrt, axis)), azimuth)
      ensures OnHorizon(p, satellite)
    {
      NotParallel(axis, zero, satellite, altitude);
      CodeTurns(sqrt, zero, axis, azimuth);
      ghost var u;
      p, u := Rotate(sqrt, zero, axis, azimuth);
      SpotIsHorizon(sqrt, axis, zero, satellite, altitude, p);
    }

    /** The points at 0, step, 2 step, ... as far as they come before the full circle, but for those that fail the
      * latitude check.
      */
    method GetEarthSpotNodes(sqrt: real -> real, nodesStep: real, turn: real -> Angle, latitudeCorrect: Vector -> bool)
      returns (nodes: seq<Vector>, ghost n: nat, ghost indices: seq<nat>)
      requires Valid() && IsSqrt(sqrt) && forall x :: IsAngle(turn(x))
      ensures forall p | p in nodes :: OnHorizon(p, satellite) && latitudeCorrect(p)
      ensures nodesStep <= 0.0 || nodesStep > 180.0 ==> nodes == []
      ensures 0.0 < nodesStep <= 180.0 ==>
                && AllTheWay(nodesStep, n)
                && Picks(nodes, indices, n, Points(sqrt, zero, axis, turn, nodesStep), latitudeCorrect)
    {
      nodes, n, indices := [], 0, [];
      if nodesStep <= 0.0 || nodesStep > 180.0 {
        return;
      }
      ghost var point := Points(sqrt, zero, axis, turn, nodesStep);
      var azimuth := 0.0;
      while azimuth < 360.0
        invariant azimuth == Azimuth(nodesStep, n) && (n > 0 ==> Azimuth(nodesStep, n - 1) < 360.0)
        invariant forall p | p in nodes :: OnHorizon(p, satellite) && latitudeCorrect(p)
        invariant Picks(nodes, indices, n, point, latitudeCorrect)
        decreases (360.0 / nodesStep).Floor - n
      {
        StepsLeft(nodesStep, n);
        PickNext(nodes, indices, n, point, latitudeCorrect);
        var spotsNode := GetPoint(sqrt, turn(azimuth));
        if latitudeCorrect(spotsNode) {
          nodes, indices := nodes + [spotsNode], indices + [n];
        }
        azimuth, n := azimuth + nodesStep, n + 1;
      }
    }
  }
}
