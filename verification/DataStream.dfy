/** The binary form of numbers, flags and strings in a data stream: big-endian, most significant byte first. */
module DataStreams {

  import opened Numbers

  newtype Byte = x: int | 0 <= x < 0x100

  datatype Result<T> = Ok(value: T, rest: seq<Byte>) | Bad

  function PutUint32(n: Uint32): seq<Byte> {
    [(n / 0x100_0000) as Byte, (n / 0x1_0000 % 0x100) as Byte, (n / 0x100 % 0x100) as Byte, (n % 0x100) as Byte]
  }

  function GetUint32(s: seq<Byte>): Result<Uint32> {
    if |s| < 4 then Bad
    else Ok(((s[0] as int * 0x100 + s[1] as int) * 0x100 + s[2] as int) * 0x100 + s[3] as int, s[4..])
  }

  lemma Uint32RoundTrip(n: Uint32, rest: seq<Byte>)
    ensures GetUint32(PutUint32(n) + rest) == Ok(n, rest)
  {
    Digits(n);
    assert (PutUint32(n) + rest)[4..] == rest;
  }

  lemma Digits(n: Uint32)
    ensures ((n / 0x100_0000 * 0x100 + n / 0x1_0000 % 0x100) * 0x100 + n / 0x100 % 0x100) * 0x100 + n % 0x100 == n
  {
    assert n / 0x100 / 0x100 == n / 0x1_0000 && n / 0x1_0000 / 0x100 == n / 0x100_0000;
  }

  /** The most significant byte comes first. */
  lemma BigEndian(n: Uint32)
    ensures var b := PutUint32(n);
            |b| == 4 && n == b[0] as int * 0x100_0000 + b[1] as int * 0x1_0000 + b[2] as int * 0x100 + b[3] as int
  {
    Digits(n);
  }

  // ---------- flags and strings ----------

  function PutBool(b: bool): seq<Byte> {
    [if b then 1 else 0]
  }

  function GetBool(s: seq<Byte>): Result<bool> {
    if |s| < 1 then Bad else Ok(s[0] != 0, s[1..])
  }

  newtype Unit = x: int | 0 <= x < 0x1_0000

  /** A string is null, which is not the same as empty, or UTF-16 code units. */
  datatype Text = Null | Units(units: seq<Unit>)

  predicate Fits(t: Text) {
    t.Units? ==> 2 * |t.units| < INT_SIZE
  }

  const NULL_LENGTH: Uint32 := UINT_SIZE - 1

  function PutUnits(u: seq<Unit>): seq<Byte> {
    if |u| == 0 then [] else [(u[0] / 0x100) as Byte, (u[0] % 0x100) as Byte] + PutUnits(u[1..])
  }

  function GetUnits(s: seq<Byte>): seq<Unit>
    requires |s| % 2 == 0
  {
    if |s| == 0 then [] else [s[0] as Unit * 0x100 + s[1] as Unit] + GetUnits(s[2..])
  }

  lemma {:induction false} UnitsRoundTrip(u: seq<Unit>)
    ensures |PutUnits(u)| == 2 * |u| && GetUnits(PutUnits(u)) == u
  {
    if |u| > 0 {
      UnitsRoundTrip(u[1..]);
      assert PutUnits(u)[2..] == PutUnits(u[1..]);
      assert u[0] / 0x100 * 0x100 + u[0] % 0x100 == u[0];
    }
  }

  /** The length counts bytes. */
  function PutText(t: Text): seq<Byte> {
    match t
    case Null => PutUint32(NULL_LENGTH)
    case Units(u) => PutUint32(2 * |u| % UINT_SIZE) + PutUnits(u)
  }

  function GetText(s: seq<Byte>): Result<Text> {
    match GetUint32(s)
    case Bad => Bad
    case Ok(n, rest) =>
      if n == NULL_LENGTH then Ok(Null, rest)
      else if n % 2 != 0 || n > |rest| then Bad
      else Ok(Units(GetUnits(rest[..n])), rest[n..])
  }

  lemma TextRoundTrip(t: Text, rest: seq<Byte>)
    requires Fits(t)
    ensures GetText(PutText(t) + rest) == Ok(t, rest)
  {
    match t
    case Null => NullLength(NULL_LENGTH, rest);
    case Units(u) =>
      UnitsRoundTrip(u);
      assert 2 * |u| % UINT_SIZE == 2 * |u|;
      UnitsBehindLength(u, PutUnits(u), 2 * |u|, rest);
  }

  lemma NullLength(n: Uint32, rest: seq<Byte>)
    requires n == NULL_LENGTH
    ensures GetText(PutUint32(n) + rest) == Ok(Null, rest)
  {
    Uint32RoundTrip(n, rest);
  }

  lemma UnitsBehindLength(u: seq<Unit>, bytes: seq<Byte>, n: Uint32, rest: seq<Byte>)
    requires |bytes| == n == 2 * |u| < INT_SIZE && GetUnits(bytes) == u
    ensures GetText(PutUint32(n) + bytes + rest) == Ok(Units(u), rest)
  {
    Uint32RoundTrip(n, bytes + rest);
    assert PutUint32(n) + bytes + rest == PutUint32(n) + (bytes + rest);
    assert (bytes + rest)[..n] == bytes && (bytes + rest)[n..] == rest;
  }

  /** Each unit takes two bytes, the more significant first. */
  lemma {:induction false} UnitBytes(u: seq<Unit>, i: nat)
    requires i < |u|
    ensures var b := PutUnits(u);
            |b| == 2 * |u| && b[2 * i] as int * 0x100 + b[2 * i + 1] as int == u[i] as int
  {
    UnitsRoundTrip(u);
    if i == 0 {
      assert u[0] / 0x100 * 0x100 + u[0] % 0x100 == u[0];
    } else {
      UnitBytes(u[1..], i - 1);
      assert PutUnits(u)[2..] == PutUnits(u[1..]);
      assert PutUnits(u)[2..][2 * i - 2] == PutUnits(u)[2 * i] && PutUnits(u)[2..][2 * i - 1] == PutUnits(u)[2 * i + 1];
    }
  }

  /** A null string is four bytes 255. Any other is its number of bytes, then its units. */
  lemma TextLayout(t: Text)
    requires Fits(t)
    ensures t.Null? ==> PutText(t) == [255, 255, 255, 255]
    ensures t.Units? ==> PutText(t) == PutUint32(2 * |t.units|) + PutUnits(t.units)
  {
    if t.Units? { assert 2 * |t.units| % UINT_SIZE == 2 * |t.units|; }
  }

  lemma BoolRoundTrip(b: bool, rest: seq<Byte>)
    ensures GetBool(PutBool(b) + rest) == Ok(b, rest)
    ensures PutBool(false) == [0] && PutBool(true) == [1]
  {
  }

  // ---------- lists ----------

  /** How values of one type are written and read; for a variant this is the library's own form. */
  datatype Codec<!T> = Codec(put: T -> seq<Byte>, get: seq<Byte> -> Result<T>, fits: T -> bool, stored: T -> T)

  /** Reading back gives what is stored of the value, and leaves what follows. */
  ghost predicate Lawful<T(!new)>(c: Codec<T>) {
    forall x, rest :: c.fits(x) ==> c.get(c.put(x) + rest) == Ok(c.stored(x), rest)
  }

  function PutItems<T>(c: Codec<T>, l: seq<T>): seq<Byte> {
    if |l| == 0 then [] else c.put(l[0]) + PutItems(c, l[1..])
  }

  function GetItems<T>(c: Codec<T>, n: nat, s: seq<Byte>): Result<seq<T>> {
    if n == 0 then Ok([], s)
    else
      match c.get(s)
      case Bad => Bad
      case Ok(x, rest) =>
        match GetItems(c, n - 1, rest)
        case Bad => Bad
        case Ok(l, rest') => Ok([x] + l, rest')
  }

  function StoredItems<T>(c: Codec<T>, l: seq<T>): seq<T> {
    seq(|l|, i requires 0 <= i < |l| => c.stored(l[i]))
  }

  predicate ListFits<T>(c: Codec<T>, l: seq<T>) {
    |l| < INT_SIZE && forall i | 0 <= i < |l| :: c.fits(l[i])
  }

  /** A list is its length and its items. */
  function PutList<T>(c: Codec<T>, l: seq<T>): seq<Byte> {
    PutUint32(|l| % UINT_SIZE) + PutItems(c, l)
  }

  function GetList<T>(c: Codec<T>, s: seq<Byte>): Result<seq<T>> {
    match GetUint32(s)
    case Bad => Bad
    case Ok(n, rest) => GetItems(c, n, rest)
  }

  lemma {:induction false} ItemsRoundTrip<T(!new)>(c: Codec<T>, l: seq<T>, rest: seq<Byte>)
    requires Lawful(c) && forall i | 0 <= i < |l| :: c.fits(l[i])
    ensures GetItems(c, |l|, PutItems(c, l) + rest) == Ok(StoredItems(c, l), rest)
  {
    if |l| == 0 {
      assert PutItems(c, l) + rest == rest;
    } else {
      var tail := PutItems(c, l[1..]) + rest;
      assert PutItems(c, l) + rest == c.put(l[0]) + tail;
      assert c.get(c.put(l[0]) + tail) == Ok(c.stored(l[0]), tail);
      ItemsRoundTrip(c, l[1..], rest);
      assert StoredItems(c, l) == [c.stored(l[0])] + StoredItems(c, l[1..]);
    }
  }

  lemma ItemsBehindLength<T>(c: Codec<T>, n: Uint32, items: seq<Byte>, rest: seq<Byte>, l: seq<T>)
    requires GetItems(c, n, items + rest) == Ok(l, rest)
    ensures GetList(c, PutUint32(n) + items + rest) == Ok(l, rest)
  {
    Uint32RoundTrip(n, items + rest);
    assert PutUint32(n) + items + rest == PutUint32(n) + (items + rest);
  }

  lemma ListLayout<T>(c: Codec<T>, l: seq<T>)
    requires |l| < INT_SIZE
    ensures PutList(c, l) == PutUint32(|l|) + PutItems(c, l)
  {
    assert |l| % UINT_SIZE == |l|;
  }

  lemma ListRoundTrip<T(!new)>(c: Codec<T>, l: seq<T>, rest: seq<Byte>)
    requires Lawful(c) && ListFits(c, l)
    ensures GetList(c, PutList(c, l) + rest) == Ok(StoredItems(c, l), rest)
  {
    var items, stored := PutItems(c, l), StoredItems(c, l);
    ItemsRoundTrip(c, l, rest);
    ListLayout(c, l);
    ItemsBehindLength(c, |l|, items, rest, stored);
  }
}
