/** The route tables of RpcRoutedServer: listeners and clients register under route ids, and an index links
  * each client straight to the listener on its route.
  */
module RpcRoutes {
  import opened BiMaps

  /** 0 is no client, no route, and the null listener. */
  type ClientId = nat
  type RouteId = nat
  type Listener = nat
  const NULL: Listener := 0

  // ---------- what the operations mean ----------

  /** The listeners' half: routes taken by listeners, and every receiver in order of registration. */
  datatype ListenerSide = ListenerSide(routes: map<RouteId, Listener>, receivers: seq<Listener>)

  type ClientSide = map<RouteId, ClientId>

  function Without(s: seq<Listener>, l: Listener): seq<Listener> {
    if s == [] then [] else (if s[0] == l then [] else [s[0]]) + Without(s[1..], l)
  }

  /** Taking l out of a list takes out every l and nothing else, and keeps the order: it works on each part alone,
    * leaves a lone other element and drops a lone l.
    */
  lemma {:induction false} WithoutMeans(a: seq<Listener>, b: seq<Listener>, l: Listener, other: Listener)
    ensures Without(a + b, l) == Without(a, l) + Without(b, l)
    ensures Without([other], l) == if other == l then [] else [other]
    ensures l !in Without(a, l)
    decreases |a|
  {
    if a == [] {
      assert a + b == b;
    } else {
      assert (a + b)[1..] == a[1..] + b;
      WithoutMeans(a[1..], b, l, other);
    }
  }

  function AddListener(s: ListenerSide, l: Listener, r: RouteId): (ListenerSide, bool) {
    if l == NULL || r in s.routes || l in s.routes.Values then (s, false)
    else (ListenerSide(if r == 0 then s.routes else s.routes[r := l], s.receivers + [l]), true)
  }

  function DropListener(s: ListenerSide, l: Listener): ListenerSide {
    ListenerSide(map r | r in s.routes && (l == NULL || s.routes[r] != l) :: s.routes[r], Without(s.receivers, l))
  }

  function AddClient(s: ClientSide, c: ClientId, r: RouteId): (ClientSide, bool) {
    if c == 0 || r in s || c in s.Values then (s, false) else (s[r := c], true)
  }

  function DropClient(s: ClientSide, c: ClientId): ClientSide {
    map r | r in s && (c == 0 || s[r] != c) :: s[r]
  }

  /** Client c and listener l have registered under the same route. */
  ghost predicate Linked(clients: ClientSide, listeners: map<RouteId, Listener>, c: ClientId, l: Listener) {
    exists r :: r in clients && r in listeners && clients[r] == c && listeners[r] == l
  }

  ghost predicate Injective<K(!new), V(!new)>(m: map<K, V>) {
    forall a, b | a in m && b in m && m[a] == m[b] :: a == b
  }

  predicate Has(index: map<ClientId, Listener>, c: ClientId, l: Listener) {
    c in index && index[c] == l
  }

  /** The index is exactly the join of the two tables. */
  ghost predicate IsJoin(index: map<ClientId, Listener>, clients: ClientSide, listeners: map<RouteId, Listener>) {
    forall c, l :: Has(index, c, l) <==> Linked(clients, listeners, c, l)
  }

  lemma JoinAddListener(index: map<ClientId, Listener>, clients: ClientSide, listeners: map<RouteId, Listener>,
                        r: RouteId, l: Listener)
    requires IsJoin(index, clients, listeners) && Injective(clients) && r !in listeners
    ensures r in clients ==> clients[r] !in index
    ensures IsJoin(if r in clients then index[clients[r] := l] else index, clients, listeners[r := l])
  {
    if r in clients && clients[r] in index {
      assert Has(index, clients[r], index[clients[r]]);
    }
    var index', listeners' := if r in clients then index[clients[r] := l] else index, listeners[r := l];
    forall c, k
      ensures Has(index', c, k) <==> Linked(clients, listeners', c, k)
    {
      assert Has(index, c, k) <==> Linked(clients, listeners, c, k);
      if Linked(clients, listeners, c, k) {
        var q :| q in clients && q in listeners && clients[q] == c && listeners[q] == k;
        assert listeners'[q] == k;
      }
      assert r in clients ==> listeners'[r] == l;
    }
  }

  lemma JoinAddClient(index: map<ClientId, Listener>, clients: ClientSide, listeners: map<RouteId, Listener>,
                      r: RouteId, c: ClientId)
    requires IsJoin(index, clients, listeners) && r !in clients && c !in clients.Values
    ensures c !in index
    ensures IsJoin(if r in listeners then index[c := listeners[r]] else index, clients[r := c], listeners)
  {
    if c in index {
      assert Has(index, c, index[c]);
    }
    var index', clients' := if r in listeners then index[c := listeners[r]] else index, clients[r := c];
    forall d, k
      ensures Has(index', d, k) <==> Linked(clients', listeners, d, k)
    {
      assert Has(index, d, k) <==> Linked(clients, listeners, d, k);
      if Linked(clients, listeners, d, k) {
        var q :| q in clients && q in listeners && clients[q] == d && listeners[q] == k;
        assert clients'[q] == d;
      }
      assert r in listeners ==> clients'[r] == c;
    }
  }

  lemma JoinDropListener(index: map<ClientId, Listener>, index': map<ClientId, Listener>, clients: ClientSide,
                         listeners: map<RouteId, Listener>, listeners': map<RouteId, Listener>, l: Listener)
    requires IsJoin(index, clients, listeners)
    requires forall c, k :: Has(index', c, k) <==> Has(index, c, k) && k != l
    requires listeners' == map r | r in listeners && listeners[r] != l :: listeners[r]
    ensures IsJoin(index', clients, listeners')
  {
    forall c, k
      ensures Has(index', c, k) <==> Linked(clients, listeners', c, k)
    {
      assert Has(index, c, k) <==> Linked(clients, listeners, c, k);
      if Linked(clients, listeners, c, k) && k != l {
        var q :| q in clients && q in listeners && clients[q] == c && listeners[q] == k;
        assert q in listeners';
      }
    }
  }

  lemma JoinDropClient(index: map<ClientId, Listener>, index': map<ClientId, Listener>, clients: ClientSide,
                       clients': ClientSide, listeners: map<RouteId, Listener>, c: ClientId)
    requires IsJoin(index, clients, listeners)
    requires index' == index - {c}
    requires clients' == map r | r in clients && clients[r] != c :: clients[r]
    ensures IsJoin(index', clients', listeners)
  {
    forall d, k
      ensures Has(index', d, k) <==> Linked(clients', listeners, d, k)
    {
      assert Has(index, d, k) <==> Linked(clients, listeners, d, k);
      if Linked(clients, listeners, d, k) && d != c {
        var q :| q in clients && q in listeners && clients[q] == d && listeners[q] == k;
        assert q in clients';
      }
    }
  }

  /** Where a call with a sender goes. */
  datatype Target = Everyone | Nobody | Just(client: ClientId)

  // ---------- the server ----------

  class RpcRoutedServer {
    const routes: BiMap<ClientId, Listener>
    var clientRoutes: ClientSide
    var listenerRoutes: map<RouteId, Listener>
    var receivers: seq<Listener>

    ghost predicate Valid()
      reads this, routes
    {
      && routes.Valid()
      && Injective(clientRoutes) && Injective(listenerRoutes)
      && 0 !in clientRoutes.Values && 0 !in listenerRoutes && NULL !in listenerRoutes.Values
      && IsJoin(routes.leftMap, clientRoutes, listenerRoutes)
    }

    function Listeners(): ListenerSide
      reads this
    {
      ListenerSide(listenerRoutes, receivers)
    }

    constructor ()
      ensures Valid() && fresh(routes)
      ensures Listeners() == ListenerSide(map[], []) && clientRoutes == map[]
    {
      routes := new BiMap<ClientId, Listener>(0, NULL);
      clientRoutes, listenerRoutes, receivers := map[], map[], [];
    }

    method RegisterReceiver(l: Listener, r: RouteId) returns (ok: bool)
      requires Valid()
      modifies this, routes
      ensures Valid()
      ensures (Listeners(), ok) == AddListener(old(Listeners()), l, r)
      ensures ok <==> l != NULL && r !in old(listenerRoutes) && l !in old(listenerRoutes).Values
      ensures ok ==> receivers == old(receivers) + [l]
                     && listenerRoutes == if r == 0 then old(listenerRoutes) else old(listenerRoutes)[r := l]
      ensures !ok ==> receivers == old(receivers) && listenerRoutes == old(listenerRoutes)
      ensures clientRoutes == old(clientRoutes)
    {
      if l == NULL || r in listenerRoutes || l in listenerRoutes.Values {
        return false;
      }
      if l in routes.rightMap {
        assert Has(routes.leftMap, routes.rightMap[l], l);
        assert false;
        return false;
      }
      receivers := receivers + [l];
      if r == 0 {
        return true;
      }
      JoinAddListener(routes.leftMap, clientRoutes, listenerRoutes, r, l);
      listenerRoutes := listenerRoutes[r := l];
      if r in clientRoutes {
        var c := clientRoutes[r];
        if c !in routes.leftMap {
          var inserted := routes.Insert(c, l);
          assert inserted;
        }
      }
      return true;
    }

    method DeregisterReceiver(l: Listener)
      requires Valid()
      modifies this, routes
      ensures Valid()
      ensures Listeners() == DropListener(old(Listeners()), l)
      ensures listenerRoutes.Keys == set r | r in old(listenerRoutes) && old(listenerRoutes)[r] != l
      ensures forall r | r in listenerRoutes :: listenerRoutes[r] == old(listenerRoutes)[r]
      ensures receivers == Without(old(receivers), l)
      ensures clientRoutes == old(clientRoutes)
    {
      receivers := Without(receivers, l);
      if l == NULL {
        assert listenerRoutes == DropListener(old(Listeners()), l).routes;
        return;
      }
      ghost var index := routes.leftMap;
      if l in routes.rightMap {
        var removed := routes.RemoveByRight(l);
      }
      forall c: ClientId, k: Listener
        ensures Has(routes.leftMap, c, k) <==> Has(index, c, k) && k != l
      {
        if Has(index, c, k) { assert old(routes.rightMap)[k] == c; }
      }
      JoinDropListener(index, routes.leftMap, clientRoutes, listenerRoutes,
                       DropListener(Listeners(), l).routes, l);
      if l in listenerRoutes.Values {
        var r :| r in listenerRoutes && listenerRoutes[r] == l;
        listenerRoutes := listenerRoutes - {r};
      }
      assert listenerRoutes == DropListener(old(Listeners()), l).routes;
    }

    method RegisterClient(c: ClientId, r: RouteId) returns (ok: bool)
      requires Valid()
      modifies this, routes
      ensures Valid()
      ensures (clientRoutes, ok) == AddClient(old(clientRoutes), c, r)
      ensures ok <==> c != 0 && r !in old(clientRoutes) && c !in old(clientRoutes).Values
      ensures clientRoutes == if ok then old(clientRoutes)[r := c] else old(clientRoutes)
      ensures Listeners() == old(Listeners())
    {
      if c == 0 || r in clientRoutes || c in clientRoutes.Values {
        return false;
      }
      JoinAddClient(routes.leftMap, clientRoutes, listenerRoutes, r, c);
      if c in routes.leftMap {
        assert false;
        return false;
      }
      clientRoutes := clientRoutes[r := c];
      if r in listenerRoutes {
        var l := listenerRoutes[r];
        if l in routes.rightMap {
          assert Has(routes.leftMap, routes.rightMap[l], l);
          assert false;
        } else {
          var inserted := routes.Insert(c, l);
          assert inserted;
        }
      }
      return true;
    }

    method DeregisterClient(c: ClientId)
      requires Valid()
      modifies this, routes
      ensures Valid()
      ensures clientRoutes == DropClient(old(clientRoutes), c)
      ensures clientRoutes.Keys == set r | r in old(clientRoutes) && old(clientRoutes)[r] != c
      ensures forall r | r in clientRoutes :: clientRoutes[r] == old(clientRoutes)[r]
      ensures Listeners() == old(Listeners())
    {
      if c == 0 {
        assert clientRoutes == DropClient(old(clientRoutes), c);
        return;
      }
      ghost var index := routes.leftMap;
      if c in routes.leftMap {
        var removed := routes.RemoveByLeft(c);
      }
      assert routes.leftMap == index - {c};
      JoinDropClient(index, routes.leftMap, clientRoutes, DropClient(clientRoutes, c), listenerRoutes, c);
      if c in clientRoutes.Values {
        var r :| r in clientRoutes && clientRoutes[r] == c;
        clientRoutes := clientRoutes - {r};
      }
      assert clientRoutes == DropClient(old(clientRoutes), c);
    }

    /** The receivers a message from client c reaches: all of them when c is 0, else the one listener on its
      * route.
      */
    method Dispatch(c: ClientId) returns (reached: seq<Listener>)
      requires Valid()
      ensures c == 0 ==> reached == receivers
      ensures c != 0 ==> forall l: Listener :: reached == [l] <==> Linked(clientRoutes, listenerRoutes, c, l)
      ensures c != 0 && (forall l: Listener :: !Linked(clientRoutes, listenerRoutes, c, l)) ==> reached == []
    {
      if c == 0 {
        return receivers;
      }
      assert forall l: Listener :: Has(routes.leftMap, c, l) <==> Linked(clientRoutes, listenerRoutes, c, l);
      if c !in routes.leftMap {
        return [];
      }
      var l := routes.Right(c);
      assert Has(routes.leftMap, c, l);
      return [l];
    }

    /** Where a call made by `sender` goes: to every client when there is no sender, else to the one client on
      * its route.
      */
    method InternalCall(sender: Listener) returns (target: Target)
      requires Valid()
      ensures sender == NULL ==> target == Everyone
      ensures sender != NULL ==>
                forall c: ClientId :: target == Just(c) <==> Linked(clientRoutes, listenerRoutes, c, sender)
      ensures sender != NULL && (forall c: ClientId :: !Linked(clientRoutes, listenerRoutes, c, sender)) ==>
                target == Nobody
    {
      if sender == NULL {
        return Everyone;
      }
      assert forall c: ClientId :: Has(routes.leftMap, c, sender) <==> Linked(clientRoutes, listenerRoutes, c, sender);
      if sender !in routes.rightMap {
        return Nobody;
      }
      var c := routes.Left(sender);
      assert Has(routes.leftMap, c, sender);
      return Just(c);
    }
  }
}
