/** Angles in degrees as decimal numbers of degrees, minutes and thousandths of a minute, sent in three bytes. */
module AngleEncoding {

  import opened Numbers
  import opened DataStreams

  /** The cast from a floating-point number to an integer, towards zero. */
  function Truncated(x: real): int {
    if x >= 0.0 then x.Floor else -(-x).Floor
  }

  /** The steps of the code: whole degrees, whole minutes of the rest, thousandths of the rest of that. */
  function Parts(angle: real): (int, int, int) {
    var deg := Truncated(angle);
    var frac := (angle - deg as real) * 60.0;
    var min := Truncated(frac);
    (deg, min, Truncated((frac - min as real) * 1000.0))
  }

  function EncodeAngle(angle: real): int {
    var (deg, min, sec) := Parts(angle);
    deg * 100000 + min * 1000 + sec
  }

  /** An angle in thousandths of a minute, rounded down. */
  function Thousandths(angle: real): int {
    (60000.0 * angle).Floor
  }

  /** The decimal form of a number of thousandths. */
  function Mixed(q: int): int {
    q / 60000 * 100000 + q % 60000
  }

  function Unmixed(e: int): int {
    e / 100000 * 60000 + e % 100000
  }

  lemma MixedInverse(q: int)
    requires q >= 0
    ensures Unmixed(Mixed(q)) == q
  {
  }

  lemma FloorIs(x: real, n: int)
    requires n as real <= x < n as real + 1.0
    ensures x.Floor == n
  {
  }

  /** Rounding at each step loses nothing against rounding once at the end. */
  lemma EncodesThousandths(angle: real)
    requires angle >= 0.0
    ensures EncodeAngle(angle) == Mixed(Thousandths(angle))
  {
    var deg := angle.Floor;
    var frac := (angle - deg as real) * 60.0;
    var min := frac.Floor;
    var rest := (frac - min as real) * 1000.0;
    var sec := rest.Floor;
    var q := deg * 60000 + min * 1000 + sec;
    FloorIs(60000.0 * angle, q);
    assert 0 <= min < 60 && 0 <= sec < 1000;
    assert q / 60000 == deg && q % 60000 == min * 1000 + sec;
  }

  /** Degrees, minutes and thousandths of a minute stand side by side in the decimal digits. */
  lemma EncodesDigits(angle: real, deg: nat, min: nat, sec: nat)
    requires min < 60 && sec < 1000 && angle == deg as real + min as real / 60.0 + sec as real / 60000.0
    ensures EncodeAngle(angle) == deg * 100000 + min * 1000 + sec
  {
    var q := deg * 60000 + min * 1000 + sec;
    FloorIs(60000.0 * angle, q);
    assert q / 60000 == deg && q % 60000 == min * 1000 + sec;
    EncodesThousandths(angle);
  }

  lemma EncodesNegative(angle: real)
    ensures EncodeAngle(-angle) == -EncodeAngle(angle)
  {
    var deg := Truncated(angle);
    assert Truncated(-angle) == -deg;
    var frac := (angle - deg as real) * 60.0;
    assert (-angle - (-deg) as real) * 60.0 == -frac;
    var min := Truncated(frac);
    assert Truncated(-frac) == -min;
    assert (-frac - (-min) as real) * 1000.0 == -((frac - min as real) * 1000.0);
  }

  lemma MixedOrder(p: int, q: int)
    requires 0 <= p && 0 <= q
    ensures Mixed(p) <= Mixed(q) <==> p <= q
  {
  }

  lemma ThousandthsOrder(a: real, b: real)
    requires a <= b
    ensures Thousandths(a) <= Thousandths(b)
  {
  }

  /** The encoding keeps the order of all angles, of either sign. */
  lemma EncodingMonotone(a: real, b: real)
    requires a <= b
    ensures EncodeAngle(a) <= EncodeAngle(b)
  {
    if a >= 0.0 {
      OrderFromZero(a, b);
    } else if b <= 0.0 {
      OrderFromZero(-b, -a);
      EncodesNegative(a);
      EncodesNegative(b);
    } else {
      OrderFromZero(0.0, b);
      OrderFromZero(0.0, -a);
      EncodesNegative(a);
    }
  }

  lemma OrderFromZero(a: real, b: real)
    requires 0.0 <= a <= b
    ensures EncodeAngle(a) <= EncodeAngle(b)
  {
    EncodesThousandths(a);
    EncodesThousandths(b);
    ThousandthsOrder(a, b);
    MixedOrder(Thousandths(a), Thousandths(b));
  }

  /** Less than a thousandth of a minute is lost. */
  lemma LittleLost(angle: real)
    requires angle >= 0.0
    ensures 0.0 <= angle - Unmixed(EncodeAngle(angle)) as real / 60000.0 < 1.0 / 60000.0
  {
    EncodesThousandths(angle);
    MixedInverse(Thousandths(angle));
  }

  // ---------- three bytes ----------

  /** Byte i of a little-endian two's complement number. */
  function ByteOf(n: int, i: nat): Byte
    requires i < 3
  {
    (if i == 0 then n % 0x100 else if i == 1 then n / 0x100 % 0x100 else n / 0x1_0000 % 0x100) as Byte
  }

  function ThreeBytes(n: int): seq<Byte> {
    [ByteOf(n, 2), ByteOf(n, 1), ByteOf(n, 0)]
  }

  function FromThreeBytes(s: seq<Byte>): int
    requires |s| == 3
  {
    (s[0] as int * 0x100 + s[1] as int) * 0x100 + s[2] as int
  }

  lemma ThreeBytesKeep(n: int)
    ensures FromThreeBytes(ThreeBytes(n)) == n % 0x100_0000
    ensures FromThreeBytes(ThreeBytes(n)) == n <==> 0 <= n < 0x100_0000
  {
    assert n / 0x100 / 0x100 == n / 0x1_0000;
    assert n == (n / 0x1_0000 * 0x100 + n / 0x100 % 0x100) * 0x100 + n % 0x100;
    assert n / 0x1_0000 == n / 0x1_0000 / 0x100 * 0x100 + n / 0x1_0000 % 0x100;
  }

  lemma EncodedSize(angle: real)
    requires angle >= 0.0
    ensures 0 <= EncodeAngle(angle)
    ensures EncodeAngle(angle) < 0x100_0000 <==> angle < 168.0
  {
  }

  /** The three bytes give the encoded angle back exactly for angles that round to zero or more, below 168. */
  lemma RecoveredExactly(angle: real)
    ensures FromThreeBytes(ThreeBytes(EncodeAngle(angle))) == EncodeAngle(angle) <==> -1.0 / 60000.0 < angle < 168.0
  {
    ThreeBytesKeep(EncodeAngle(angle));
    if angle >= 0.0 {
      EncodedSize(angle);
    } else {
      EncodesNegative(-angle);
      EncodesThousandths(-angle);
      var q := Thousandths(-angle);
      MixedOrder(0, q);
      MixedOrder(q, 0);
    }
  }

  /** Every intermediate result fits an int for angles below 21474 degrees. */
  lemma NoOverflow(angle: real)
    requires -21474.0 < angle < 21474.0
    ensures var (deg, min, sec) := Parts(angle);
            && -INT_SIZE <= deg * 100000 < INT_SIZE
            && -60000 < min * 1000 < 60000 && -1000 < sec < 1000
            && -INT_SIZE <= deg * 100000 + min * 1000 < INT_SIZE
            && -INT_SIZE <= EncodeAngle(angle) < INT_SIZE
  {
    var (deg, min, sec) := Parts(angle);
    assert -21473 <= deg <= 21473;
    assert -60 < min < 60;
  }

  /** At minus one degree the three bytes give back another number. */
  lemma MinusOneDegree()
    ensures EncodeAngle(-1.0) == -100000 && FromThreeBytes(ThreeBytes(EncodeAngle(-1.0))) == 16677216
  {
    EncodesNegative(1.0);
    EncodesThousandths(1.0);
    ThreeBytesKeep(-100000);
  }

  // ---------- a position ----------

  const A: Byte := 65
  const G: Byte := 71

  method EncodeAutopilotPosition(lat: real, lon: real) returns (data: seq<Byte>)
    ensures |data| == 8 && data[..2] == [A, G]
    ensures FromThreeBytes(data[2..5]) == EncodeAngle(lat) <==> -1.0 / 60000.0 < lat < 168.0
    ensures FromThreeBytes(data[5..8]) == EncodeAngle(lon) <==> -1.0 / 60000.0 < lon < 168.0
    ensures data[2] as int * 0x1_0000 + data[3] as int * 0x100 + data[4] as int == EncodeAngle(lat) % 0x100_0000
    ensures data[5] as int * 0x1_0000 + data[6] as int * 0x100 + data[7] as int == EncodeAngle(lon) % 0x100_0000
  {
    var lonEncoded := EncodeAngle(lon);
    var latEncoded := EncodeAngle(lat);
    data := [A, G];
    data := data + [ByteOf(latEncoded, 2)];
    data := data + [ByteOf(latEncoded, 1)];
    data := data + [ByteOf(latEncoded, 0)];
    data := data + [ByteOf(lonEncoded, 2)];
    data := data + [ByteOf(lonEncoded, 1)];
    data := data + [ByteOf(lonEncoded, 0)];
    assert data[2..5] == ThreeBytes(latEncoded) && data[5..8] == ThreeBytes(lonEncoded);
    ThreeBytesKeep(latEncoded);
    ThreeBytesKeep(lonEncoded);
    RecoveredExactly(lat);
    RecoveredExactly(lon);
  }
}
