/** Settings nodes in a data stream: an object and a list of properties each, nested in a list of nodes. The
  * object's value is not written. How a variant is written is the library's business: any lawful codec will do.
  */
module SettingsCodec {

  import opened DataStreams
  import opened Numbers

  /** An object or a property. */
  datatype Item<V> = Item(id: Int32, pid: Int32, name: Text, value: V, state: Int32, isEditable: bool)

  datatype Node<V> = Node(obj: Item<V>, properties: seq<Item<V>>)

  // ---------- what objects and properties share ----------

  datatype Head = Head(id: Int32, pid: Int32, name: Text)

  datatype Tail = Tail(state: Int32, isEditable: bool)

  function PutHead(h: Head): seq<Byte> {
    PutUint32(ToUint(h.id)) + PutUint32(ToUint(h.pid)) + PutText(h.name)
  }

  function GetHead(s: seq<Byte>): Result<Head> {
    match GetUint32(s)
    case Bad => Bad
    case Ok(id, s1) =>
      match GetUint32(s1)
      case Bad => Bad
      case Ok(pid, s2) =>
        match GetText(s2)
        case Bad => Bad
        case Ok(name, rest) => Ok(Head(ToInt(id), ToInt(pid), name), rest)
  }

  function PutTail(t: Tail): seq<Byte> {
    PutUint32(ToUint(t.state)) + PutBool(t.isEditable)
  }

  function GetTail(s: seq<Byte>): Result<Tail> {
    match GetUint32(s)
    case Bad => Bad
    case Ok(state, s1) =>
      match GetBool(s1)
      case Bad => Bad
      case Ok(isEditable, rest) => Ok(Tail(ToInt(state), isEditable), rest)
  }

  lemma HeadRoundTrip(h: Head, rest: seq<Byte>)
    requires Fits(h.name)
    ensures GetHead(PutHead(h) + rest) == Ok(h, rest)
  {
    var s2 := PutText(h.name) + rest;
    var s1 := PutUint32(ToUint(h.pid)) + s2;
    assert PutHead(h) + rest == PutUint32(ToUint(h.id)) + s1;
    Uint32RoundTrip(ToUint(h.id), s1);
    Uint32RoundTrip(ToUint(h.pid), s2);
    TextRoundTrip(h.name, rest);
  }

  lemma TailRoundTrip(t: Tail, rest: seq<Byte>)
    ensures GetTail(PutTail(t) + rest) == Ok(t, rest)
  {
    var s1 := PutBool(t.isEditable) + rest;
    assert PutTail(t) + rest == PutUint32(ToUint(t.state)) + s1;
    Uint32RoundTrip(ToUint(t.state), s1);
    BoolRoundTrip(t.isEditable, rest);
  }

  function MakeItem<V>(h: Head, value: V, t: Tail): Item<V> {
    Item(h.id, h.pid, h.name, value, t.state, t.isEditable)
  }

  function HeadOf<V>(p: Item<V>): Head {
    Head(p.id, p.pid, p.name)
  }

  function TailOf<V>(p: Item<V>): Tail {
    Tail(p.state, p.isEditable)
  }

  // ---------- properties ----------

  function PutProperty<V>(v: Codec<V>, p: Item<V>): seq<Byte> {
    PutHead(HeadOf(p)) + v.put(p.value) + PutTail(TailOf(p))
  }

  function GetProperty<V>(v: Codec<V>, s: seq<Byte>): Result<Item<V>> {
    match GetHead(s)
    case Bad => Bad
    case Ok(h, s1) =>
      match v.get(s1)
      case Bad => Bad
      case Ok(value, s2) =>
        match GetTail(s2)
        case Bad => Bad
        case Ok(t, rest) => Ok(MakeItem(h, value, t), rest)
  }

  predicate PropertyFits<V>(v: Codec<V>, p: Item<V>) {
    Fits(p.name) && v.fits(p.value)
  }

  function StoredProperty<V>(v: Codec<V>, p: Item<V>): Item<V> {
    p.(value := v.stored(p.value))
  }

  function PropertyCodec<V>(v: Codec<V>): Codec<Item<V>> {
    Codec(p => PutProperty(v, p), s => GetProperty(v, s), p => PropertyFits(v, p), p => StoredProperty(v, p))
  }

  lemma PropertyRoundTrip<V(!new)>(v: Codec<V>, p: Item<V>, rest: seq<Byte>)
    requires Lawful(v) && PropertyFits(v, p)
    ensures GetProperty(v, PutProperty(v, p) + rest) == Ok(StoredProperty(v, p), rest)
  {
    var s2 := PutTail(TailOf(p)) + rest;
    var s1 := v.put(p.value) + s2;
    assert PutProperty(v, p) + rest == PutHead(HeadOf(p)) + s1;
    HeadRoundTrip(HeadOf(p), s1);
    assert v.get(v.put(p.value) + s2) == Ok(v.stored(p.value), s2);
    TailRoundTrip(TailOf(p), rest);
  }

  lemma PropertiesLawful<V(!new)>(v: Codec<V>)
    requires Lawful(v)
    ensures Lawful(PropertyCodec(v))
  {
    var c := PropertyCodec(v);
    forall p, rest | c.fits(p)
      ensures c.get(c.put(p) + rest) == Ok(c.stored(p), rest)
    {
      PropertyRoundTrip(v, p, rest);
    }
  }

  // ---------- objects ----------

  function PutObject<V>(o: Item<V>): seq<Byte> {
    PutHead(HeadOf(o)) + PutTail(TailOf(o))
  }

  /** The value is left as it was in the object read into. */
  function GetObject<V>(into: V, s: seq<Byte>): Result<Item<V>> {
    match GetHead(s)
    case Bad => Bad
    case Ok(h, s1) =>
      match GetTail(s1)
      case Bad => Bad
      case Ok(t, rest) => Ok(MakeItem(h, into, t), rest)
  }

  lemma ObjectRoundTrip<V>(into: V, o: Item<V>, rest: seq<Byte>)
    requires Fits(o.name)
    ensures GetObject(into, PutObject(o) + rest) == Ok(o.(value := into), rest)
  {
    var s1 := PutTail(TailOf(o)) + rest;
    assert PutObject(o) + rest == PutHead(HeadOf(o)) + s1;
    HeadRoundTrip(HeadOf(o), s1);
    TailRoundTrip(TailOf(o), rest);
  }

  // ---------- nodes ----------

  function PutNode<V>(v: Codec<V>, n: Node<V>): seq<Byte> {
    PutObject(n.obj) + PutList(PropertyCodec(v), n.properties)
  }

  function GetNode<V>(v: Codec<V>, default: V, s: seq<Byte>): Result<Node<V>> {
    match GetObject(default, s)
    case Bad => Bad
    case Ok(o, s1) =>
      match GetList(PropertyCodec(v), s1)
      case Bad => Bad
      case Ok(l, rest) => Ok(Node(o, l), rest)
  }

  predicate NodeFits<V>(v: Codec<V>, n: Node<V>) {
    Fits(n.obj.name) && ListFits(PropertyCodec(v), n.properties)
  }

  function StoredNode<V>(v: Codec<V>, default: V, n: Node<V>): Node<V> {
    Node(n.obj.(value := default), StoredItems(PropertyCodec(v), n.properties))
  }

  function NodeCodec<V>(v: Codec<V>, default: V): Codec<Node<V>> {
    Codec(n => PutNode(v, n), s => GetNode(v, default, s), n => NodeFits(v, n), n => StoredNode(v, default, n))
  }

  lemma NodeRoundTrip<V(!new)>(v: Codec<V>, default: V, n: Node<V>, rest: seq<Byte>)
    requires Lawful(v) && NodeFits(v, n)
    ensures GetNode(v, default, PutNode(v, n) + rest) == Ok(StoredNode(v, default, n), rest)
  {
    var s1 := PutList(PropertyCodec(v), n.properties) + rest;
    assert PutNode(v, n) + rest == PutObject(n.obj) + s1;
    ObjectRoundTrip(default, n.obj, s1);
    PropertiesLawful(v);
    ListRoundTrip(PropertyCodec(v), n.properties, rest);
  }

  lemma NodesLawful<V(!new)>(v: Codec<V>, default: V)
    requires Lawful(v)
    ensures Lawful(NodeCodec(v, default))
  {
    var c := NodeCodec(v, default);
    forall n, rest | c.fits(n)
      ensures c.get(c.put(n) + rest) == Ok(c.stored(n), rest)
    {
      NodeRoundTrip(v, default, n, rest);
    }
  }

  function PutNodes<V>(v: Codec<V>, default: V, l: seq<Node<V>>): seq<Byte> {
    PutList(NodeCodec(v, default), l)
  }

  function GetNodes<V>(v: Codec<V>, default: V, s: seq<Byte>): Result<seq<Node<V>>> {
    GetList(NodeCodec(v, default), s)
  }

  function StoredNodes<V>(v: Codec<V>, default: V, l: seq<Node<V>>): seq<Node<V>> {
    seq(|l|, i requires 0 <= i < |l| => StoredNode(v, default, l[i]))
  }

  /** The whole list comes back, with default values in the objects, and what follows it is left alone. */
  lemma NodesRoundTrip<V(!new)>(v: Codec<V>, default: V, l: seq<Node<V>>, rest: seq<Byte>)
    requires Lawful(v) && ListFits(NodeCodec(v, default), l)
    ensures GetNodes(v, default, PutNodes(v, default, l) + rest) == Ok(StoredNodes(v, default, l), rest)
  {
    NodesLawful(v, default);
    ListRoundTrip(NodeCodec(v, default), l, rest);
    assert StoredItems(NodeCodec(v, default), l) == StoredNodes(v, default, l);
  }

  // ---------- what the bytes tell apart ----------

  ghost predicate Faithful<V(!new)>(v: Codec<V>) {
    Lawful(v) && forall x :: v.stored(x) == x
  }

  predicate SameButValue<V(==)>(a: Node<V>, b: Node<V>) {
    a.properties == b.properties && a.obj == b.obj.(value := a.obj.value)
  }

  lemma StoredSame<V(!new)>(v: Codec<V>, l: seq<Item<V>>)
    requires Faithful(v)
    ensures StoredItems(PropertyCodec(v), l) == l
  {
  }

  lemma StoredTellsApart<V(!new)>(v: Codec<V>, default: V, a: Node<V>, b: Node<V>)
    requires Faithful(v) && StoredNode(v, default, a) == StoredNode(v, default, b)
    ensures SameButValue(a, b)
  {
    StoredSame(v, a.properties);
    StoredSame(v, b.properties);
    assert a.obj.(value := default) == b.obj.(value := default);
    assert a.obj.(value := default).(value := a.obj.value) == a.obj;
    assert b.obj.(value := default).(value := a.obj.value) == b.obj.(value := a.obj.value);
  }

  lemma SamePut<V>(v: Codec<V>, a: Node<V>, b: Node<V>)
    requires a.properties == b.properties && a.obj == b.obj.(value := a.obj.value)
    ensures PutNode(v, a) == PutNode(v, b)
  {
  }

  lemma {:induction false} SamePutItems<V(!new)>(v: Codec<V>, default: V, a: seq<Node<V>>, b: seq<Node<V>>)
    requires |a| == |b| && forall i | 0 <= i < |a| :: SameButValue(a[i], b[i])
    ensures PutItems(NodeCodec(v, default), a) == PutItems(NodeCodec(v, default), b)
  {
    if |a| > 0 {
      assert SameButValue(a[0], b[0]);
      SamePut(v, a[0], b[0]);
      SamePutItems(v, default, a[1..], b[1..]);
    }
  }

  /** With a variant form that keeps its values, two lists have the same bytes exactly when they differ at most in
    * the values of their objects.
    */
  lemma SameBytes<V(!new)>(v: Codec<V>, default: V, a: seq<Node<V>>, b: seq<Node<V>>)
    requires Faithful(v) && ListFits(NodeCodec(v, default), a) && ListFits(NodeCodec(v, default), b)
    ensures PutNodes(v, default, a) == PutNodes(v, default, b)
        <==> |a| == |b| && forall i | 0 <= i < |a| :: SameButValue(a[i], b[i])
  {
    if PutNodes(v, default, a) == PutNodes(v, default, b) {
      NodesRoundTrip(v, default, a, []);
      NodesRoundTrip(v, default, b, []);
      var stored, stored' := StoredNodes(v, default, a), StoredNodes(v, default, b);
      assert stored == stored';
      forall i | 0 <= i < |a|
        ensures SameButValue(a[i], b[i])
      {
        assert stored[i] == stored'[i];
        StoredTellsApart(v, default, a[i], b[i]);
      }
    }
    if |a| == |b| && forall i | 0 <= i < |a| :: SameButValue(a[i], b[i]) {
      SamePutItems(v, default, a, b);
    }
  }

  // ---------- writing, field by field ----------

  lemma {:induction false} PutItemsLast<T>(c: Codec<T>, l: seq<T>, x: T)
    ensures PutItems(c, l + [x]) == PutItems(c, l) + c.put(x)
    decreases |l|
  {
    if l == [] {
      assert [x][1..] == [];
    } else {
      assert (l + [x])[1..] == l[1..] + [x];
      PutItemsLast(c, l[1..], x);
    }
  }

  lemma Regroup(a: seq<Byte>, b: seq<Byte>, c: seq<Byte>)
    ensures (a + b) + c == a + (b + c)
  {
  }

  class OutStream {
    var bytes: seq<Byte>

    constructor ()
      ensures bytes == []
    {
      bytes := [];
    }

    method Write(more: seq<Byte>)
      modifies this
      ensures bytes == old(bytes) + more
    {
      bytes := bytes + more;
    }

    /** The library's writing of a list: its length, then its items in order. */
    method WriteList<T>(c: Codec<T>, l: seq<T>)
      modifies this
      ensures bytes == old(bytes) + PutList(c, l)
    {
      Write(PutUint32(|l| % UINT_SIZE));
      for i := 0 to |l|
        invariant bytes == old(bytes) + (PutUint32(|l| % UINT_SIZE) + PutItems(c, l[..i]))
      {
        assert l[..i + 1] == l[..i] + [l[i]];
        PutItemsLast(c, l[..i], l[i]);
        Write(c.put(l[i]));
      }
      assert l[..|l|] == l;
    }

    method WriteProperty<V>(v: Codec<V>, p: Item<V>)
      modifies this
      ensures bytes == old(bytes) + PutProperty(v, p)
      ensures bytes == old(bytes) + PutUint32(ToUint(p.id)) + PutUint32(ToUint(p.pid)) + PutText(p.name)
                       + v.put(p.value) + PutUint32(ToUint(p.state)) + PutBool(p.isEditable)
    {
      Write(PutUint32(ToUint(p.id)));
      Write(PutUint32(ToUint(p.pid)));
      Write(PutText(p.name));
      Write(v.put(p.value));
      Write(PutUint32(ToUint(p.state)));
      Write(PutBool(p.isEditable));
    }

    method WriteObject<V>(o: Item<V>)
      modifies this
      ensures bytes == old(bytes) + PutObject(o)
      ensures bytes == old(bytes) + PutUint32(ToUint(o.id)) + PutUint32(ToUint(o.pid)) + PutText(o.name)
                       + PutUint32(ToUint(o.state)) + PutBool(o.isEditable)
    {
      Write(PutUint32(ToUint(o.id)));
      Write(PutUint32(ToUint(o.pid)));
      Write(PutText(o.name));
      Write(PutUint32(ToUint(o.state)));
      Write(PutBool(o.isEditable));
    }

    /** The object, then the list of properties. */
    method WriteNode<V>(v: Codec<V>, n: Node<V>)
      modifies this
      ensures bytes == old(bytes) + PutNode(v, n)
      ensures bytes == old(bytes) + PutObject(n.obj) + PutList(PropertyCodec(v), n.properties)
    {
      ghost var before, obj, properties := bytes, PutObject(n.obj), PutList(PropertyCodec(v), n.properties);
      WriteObject(n.obj);
      WriteList(PropertyCodec(v), n.properties);
      Regroup(before, obj, properties);
    }
  }

  /** settingsNodeListToByteArray. */
  method NodesToBytes<V>(v: Codec<V>, default: V, l: seq<Node<V>>) returns (bytes: seq<Byte>)
    ensures bytes == PutNodes(v, default, l)
  {
    var stream := new OutStream();
    stream.WriteList(NodeCodec(v, default), l);
    bytes := stream.bytes;
  }

  /** Written and read again, any list of admitted size is the list that was written, but for the values of its objects.
    */
  method ThereAndBack<V(0, !new)>(v: Codec<V>, default: V, l: seq<Node<V>>) returns (back: seq<Node<V>>, ok: bool)
    requires Lawful(v) && ListFits(NodeCodec(v, default), l)
    ensures ok && back == StoredNodes(v, default, l)
  {
    var bytes := NodesToBytes(v, default, l);
    NodesRoundTrip(v, default, l, []);
    assert bytes + [] == bytes;
    back, ok := NodesFromBytes(v, default, bytes);
  }

  // ---------- reading, field by field ----------

  /** What a read leaves behind. A stream that has gone bad stays bad, and what is then read from it means nothing. */
  ghost predicate After<T>(r: Result<T>, wasBad: bool, x: T, unread: seq<Byte>, bad: bool) {
    && bad == (wasBad || r.Bad?)
    && (!bad ==> x == r.value && unread == r.rest)
  }

  /** Items read one by one, in front of what is still to be read. */
  function Prepended<T>(l: seq<T>, r: Result<seq<T>>): Result<seq<T>> {
    match r
    case Bad => Bad
    case Ok(l', rest) => Ok(l + l', rest)
  }

  /** Within a list of which n items are still to come: what was read so far is the beginning of the whole. */
  ghost predicate Within<T>(c: Codec<T>, whole: Result<seq<T>>, wasBad: bool, l: seq<T>, n: nat, unread: seq<Byte>,
                            bad: bool)
  {
    if bad then wasBad || whole.Bad? else !wasBad && whole == Prepended(l, GetItems(c, n, unread))
  }

  lemma WithinAtFirst<T>(c: Codec<T>, n: nat, s: seq<Byte>, bad: bool)
    ensures Within(c, GetItems(c, n, s), bad, [], n, s, bad)
  {
    var r := GetItems(c, n, s);
    if r.Ok? { assert [] + r.value == r.value; }
  }

  lemma WithinNext<T>(c: Codec<T>, whole: Result<seq<T>>, wasBad: bool, l: seq<T>, n: nat, s: seq<Byte>, bad: bool,
                      r: Result<T>, x: T, s': seq<Byte>, bad': bool)
    requires n > 0 && Within(c, whole, wasBad, l, n, s, bad) && r == c.get(s) && After(r, bad, x, s', bad')
    ensures Within(c, whole, wasBad, l + [x], n - 1, s', bad')
  {
    if !bad' {
      var r' := GetItems(c, n - 1, s');
      if r'.Ok? { assert l + ([x] + r'.value) == (l + [x]) + r'.value; }
    }
  }

  lemma WithinAtLast<T>(c: Codec<T>, whole: Result<seq<T>>, wasBad: bool, l: seq<T>, s: seq<Byte>, bad: bool)
    requires Within(c, whole, wasBad, l, 0, s, bad)
    ensures bad == (wasBad || whole.Bad?) && (!bad ==> whole == Ok(l, s))
  {
    assert l + [] == l;
  }

  class DataStream {
    var unread: seq<Byte>
    var bad: bool

    constructor (bytes: seq<Byte>)
      ensures unread == bytes && !bad
    {
      unread, bad := bytes, false;
    }

    /** The library's own reading of one value. */
    method Read<T(0)>(get: seq<Byte> -> Result<T>) returns (x: T)
      modifies this
      ensures After(get(old(unread)), old(bad), x, unread, bad)
    {
      x := *;
      match get(unread)
      case Bad => bad := true;
      case Ok(value, rest) => x, unread := value, rest;
    }

    /** The library's reading of a list. */
    method ReadList<T(0)>(c: Codec<T>) returns (l: seq<T>)
      modifies this
      ensures After(GetList(c, old(unread)), old(bad), l, unread, bad)
    {
      var count: Uint32 := Read(GetUint32);
      l := [];
      ghost var whole, wasBad := GetItems(c, count, unread), bad;
      WithinAtFirst(c, count, unread, bad);
      for i := 0 to count
        invariant Within(c, whole, wasBad, l, count - i, unread, bad)
      {
        ghost var s, before := unread, bad;
        var x := Read(c.get);
        WithinNext(c, whole, wasBad, l, count - i, s, before, c.get(s), x, unread, bad);
        l := l + [x];
      }
      WithinAtLast(c, whole, wasBad, l, unread, bad);
    }

    method ReadProperty<V(0)>(v: Codec<V>) returns (p: Item<V>)
      modifies this
      ensures After(GetProperty(v, old(unread)), old(bad), p, unread, bad)
    {
      var inId: Uint32 := Read(GetUint32);
      var inPid: Uint32 := Read(GetUint32);
      var name := Read(GetText);
      var value := Read(v.get);
      var inState: Uint32 := Read(GetUint32);
      var isEditable := Read(GetBool);
      p := Item(ToInt(inId), ToInt(inPid), name, value, ToInt(inState), isEditable);
    }

    method ReadObject<V>(into: Item<V>) returns (o: Item<V>)
      modifies this
      ensures After(GetObject(into.value, old(unread)), old(bad), o, unread, bad)
    {
      var inId: Uint32 := Read(GetUint32);
      var inPid: Uint32 := Read(GetUint32);
      var name := Read(GetText);
      var inState: Uint32 := Read(GetUint32);
      var isEditable := Read(GetBool);
      o := into.(id := ToInt(inId), pid := ToInt(inPid), name := name, state := ToInt(inState),
                 isEditable := isEditable);
    }

    method ReadNode<V(0)>(v: Codec<V>, default: V) returns (n: Node<V>)
      modifies this
      ensures After(GetNode(v, default, old(unread)), old(bad), n, unread, bad)
    {
      var o := ReadObject(Item(0, 0, Null, default, 0, false));
      var l := ReadList(PropertyCodec(v));
      n := Node(o, l);
    }
  }

  /** settingsNodeListFromByteArray, with whether the stream was good to the end. */
  method NodesFromBytes<V(0)>(v: Codec<V>, default: V, bytes: seq<Byte>) returns (l: seq<Node<V>>, ok: bool)
    ensures ok <==> GetNodes(v, default, bytes).Ok?
    ensures ok ==> l == GetNodes(v, default, bytes).value
  {
    var stream := new DataStream(bytes);
    l := stream.ReadList(NodeCodec(v, default));
    ok := !stream.bad;
  }
}
