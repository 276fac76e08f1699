/** The two ends of the route protocol. A client remembers the route it asked for and sends register and
  * deregister messages; the server handles each connection's messages in order, and forgets a
  * connection when it is gone. Clients may lose their connection and come back under another id.
  */
module RpcProtocol {
  import opened RpcRoutes

  datatype Message = Register(r: RouteId) | Deregister

  // ---------- the client end ----------

  /** What registerRoute() makes of the remembered route, what it sends, and what it returns. */
  function Registering(routeId: RouteId, connected: bool, id: RouteId): (RouteId, seq<Message>, bool) {
    if id == 0 || !connected then (routeId, [], false)
    else (id, (if routeId != 0 then [Deregister] else []) + [Register(id)], true)
  }

  function Deregistering(routeId: RouteId, connected: bool): (RouteId, seq<Message>) {
    if routeId == 0 || !connected then (routeId, []) else (0, [Deregister])
  }

  class RpcRoutedClient {
    var routeId: RouteId
    var connected: bool
    var sent: seq<Message>

    constructor ()
      ensures routeId == 0 && !connected && sent == []
    {
      routeId, connected, sent := 0, false, [];
    }

    method RegisterRoute(id: RouteId) returns (ok: bool)
      modifies this`routeId, this`sent
      ensures var (route, messages, result) := Registering(old(routeId), connected, id);
              routeId == route && sent == old(sent) + messages && ok == result
      ensures ok <==> id != 0 && connected
      ensures ok ==> routeId == id
                     && sent == old(sent) + (if old(routeId) != 0 then [Deregister] else []) + [Register(id)]
      ensures !ok ==> routeId == old(routeId) && sent == old(sent)
    {
      if id == 0 {
        return false;
      }
      if !connected {
        return false;
      }
      if routeId != 0 {
        DeregisterRoute();
      }
      routeId := id;
      sent := sent + [Register(routeId)];
      return true;
    }

    method DeregisterRoute()
      modifies this`routeId, this`sent
      ensures var (route, messages) := Deregistering(old(routeId), connected);
              routeId == route && sent == old(sent) + messages
      ensures old(routeId) != 0 && connected ==> routeId == 0 && sent == old(sent) + [Deregister]
      ensures old(routeId) == 0 || !connected ==> routeId == old(routeId) && sent == old(sent)
    {
      if routeId == 0 {
        return;
      }
      if !connected {
        return;
      }
      routeId := 0;
      sent := sent + [Deregister];
    }
  }

  // ---------- clients, channels and server together ----------

  /** A client: its current connection id, 0 when it has none, and the route it remembers. */
  datatype Client = Client(id: ClientId, routeId: RouteId)

  /** The server's client table, the messages in flight on every connection, and the clients. */
  datatype World = World(table: ClientSide, channels: map<ClientId, seq<Message>>, clients: map<nat, Client>)

  datatype Event =
    | Connect(k: nat, id: ClientId)
    | Ask(k: nat, r: RouteId)
    | Cancel(k: nat)
    | Disconnect(k: nat)
    | Deliver(id: ClientId)
    | ServerDisconnect(id: ClientId)

  const EMPTY := World(map[], map[], map[])

  predicate Possible(w: World, ev: Event) {
    match ev
    case Connect(k, id) =>
      && id != 0 && id !in w.channels && (k in w.clients ==> w.clients[k].id == 0)
      && forall j | j in w.clients :: w.clients[j].id != id
    case Ask(k, _) => k in w.clients
    case Cancel(k) => k in w.clients
    case Disconnect(k) => k in w.clients
    case Deliver(id) => id in w.channels && w.channels[id] != []
    case ServerDisconnect(id) => id in w.channels
  }

  /** What k sends goes into its channel, unless the server has already dropped the connection. */
  function Send(w: World, k: nat, route: RouteId, messages: seq<Message>): World
    requires k in w.clients
  {
    var id := w.clients[k].id;
    w.(clients := w.clients[k := Client(id, route)],
       channels := if id in w.channels then w.channels[id := w.channels[id] + messages] else w.channels)
  }

  function Handle(table: ClientSide, id: ClientId, m: Message): ClientSide {
    match m
    case Register(r) => AddClient(table, id, r).0
    case Deregister => DropClient(table, id)
  }

  function Happen(w: World, ev: Event): World
    requires Possible(w, ev)
  {
    match ev
    case Connect(k, id) =>
      w.(clients := w.clients[k := Client(id, if k in w.clients then w.clients[k].routeId else 0)],
         channels := w.channels[id := []])
    case Ask(k, r) =>
      var (route, messages, _) := Registering(w.clients[k].routeId, w.clients[k].id != 0, r);
      Send(w, k, route, messages)
    case Cancel(k) =>
      var (route, messages) := Deregistering(w.clients[k].routeId, w.clients[k].id != 0);
      Send(w, k, route, messages)
    case Disconnect(k) => w.(clients := w.clients[k := w.clients[k].(id := 0)])
    case Deliver(id) =>
      w.(table := Handle(w.table, id, w.channels[id][0]), channels := w.channels[id := w.channels[id][1..]])
    case ServerDisconnect(id) =>
      w.(table := DropClient(w.table, id), channels := w.channels - {id})
  }

  predicate History(w: World, evs: seq<Event>)
    decreases |evs|
  {
    evs == [] || (Possible(w, evs[0]) && History(Happen(w, evs[0]), evs[1..]))
  }

  function After(w: World, evs: seq<Event>): World
    requires History(w, evs)
    decreases |evs|
  {
    if evs == [] then w else After(Happen(w, evs[0]), evs[1..])
  }

  // ---------- the invariant ----------

  /** The server has client id under route r; r is 0 when it has no entry for it. */
  predicate Entry(table: ClientSide, id: ClientId, r: RouteId) {
    if r == 0 then id !in table.Values else r in table && table[r] == id
  }

  /** With the server's entry at `entry`, the messages on their way will leave it absent or at `route`. A
    * register message only ever meets an absent entry, and may find its route taken.
    */
  predicate Settles(entry: RouteId, messages: seq<Message>, route: RouteId)
    decreases |messages|
  {
    if messages == [] then entry == 0 || entry == route
    else match messages[0]
         case Deregister => Settles(0, messages[1..], route)
         case Register(r) =>
           entry == 0 && r != 0 && Settles(0, messages[1..], route) && Settles(r, messages[1..], route)
  }

  predicate WellFormed(messages: seq<Message>) {
    forall m | m in messages :: m.Register? ==> m.r != 0
  }

  ghost predicate TableOk(w: World) {
    && Injective(w.table) && 0 !in w.table
    && (forall id | id in w.table.Values :: id in w.channels)
  }

  ghost predicate ChannelsOk(w: World) {
    && 0 !in w.channels
    && (forall id | id in w.channels :: WellFormed(w.channels[id]))
    && (forall j, k | j in w.clients && k in w.clients && w.clients[j].id == w.clients[k].id != 0 :: j == k)
  }

  /** Whatever entry the server has for the client's connection, the messages in flight settle it. */
  ghost predicate ClientOk(w: World, c: Client) {
    c.id in w.channels ==> forall r | Entry(w.table, c.id, r) :: Settles(r, w.channels[c.id], c.routeId)
  }

  ghost predicate Consistent(w: World) {
    TableOk(w) && ChannelsOk(w) && forall k | k in w.clients :: ClientOk(w, w.clients[k])
  }

  lemma {:induction false} DeregisterSettles(entry: RouteId, messages: seq<Message>, route: RouteId)
    requires Settles(entry, messages, route)
    ensures Settles(entry, messages + [Deregister], 0)
    decreases |messages|
  {
    var after := messages + [Deregister];
    if messages != [] {
      assert after[1..] == messages[1..] + [Deregister];
      match messages[0]
      case Deregister => DeregisterSettles(0, messages[1..], route);
      case Register(r) =>
        DeregisterSettles(0, messages[1..], route);
        DeregisterSettles(r, messages[1..], route);
    }
  }

  lemma {:induction false} RegisterSettles(entry: RouteId, messages: seq<Message>, route: RouteId)
    requires Settles(entry, messages, 0) && route != 0
    ensures Settles(entry, messages + [Register(route)], route)
    decreases |messages|
  {
    var after := messages + [Register(route)];
    if messages != [] {
      assert after[1..] == messages[1..] + [Register(route)];
      match messages[0]
      case Deregister => RegisterSettles(0, messages[1..], route);
      case Register(r) =>
        RegisterSettles(0, messages[1..], route);
        RegisterSettles(r, messages[1..], route);
    }
  }

  lemma RegisteringSettles(entry: RouteId, messages: seq<Message>, route: RouteId, connected: bool, id: RouteId)
    requires Settles(entry, messages, route)
    ensures var (route', sent, _) := Registering(route, connected, id); Settles(entry, messages + sent, route')
  {
    assert messages + [] == messages;
    if id != 0 && connected {
      if route != 0 {
        DeregisterSettles(entry, messages, route);
        RegisterSettles(entry, messages + [Deregister], id);
        assert messages + ([Deregister] + [Register(id)]) == messages + [Deregister] + [Register(id)];
      } else {
        RegisterSettles(entry, messages, id);
        assert messages + ([] + [Register(id)]) == messages + [Register(id)];
      }
    }
  }

  lemma DeregisteringSettles(entry: RouteId, messages: seq<Message>, route: RouteId, connected: bool)
    requires Settles(entry, messages, route)
    ensures var (route', sent) := Deregistering(route, connected); Settles(entry, messages + sent, route')
  {
    assert messages + [] == messages;
    if route != 0 && connected { DeregisterSettles(entry, messages, route); }
  }

  // ---------- the server's entries ----------

  lemma EntryExists(table: ClientSide, id: ClientId) returns (r: RouteId)
    requires 0 !in table
    ensures Entry(table, id, r)
  {
    r := 0;
    if id in table.Values {
      r :| r in table && table[r] == id;
    }
  }

  /** Handling a message of one connection concerns no other, and keeps the table well formed. */
  lemma HandleOthers(table: ClientSide, id: ClientId, m: Message, other: ClientId, r: RouteId)
    requires Injective(table) && id != 0 && other != id
    ensures Entry(Handle(table, id, m), other, r) <==> Entry(table, other, r)
  {
    var table' := Handle(table, id, m);
    assert forall q :: q in table && table[q] == other ==> q in table' && table'[q] == other;
    assert forall q :: q in table' && table'[q] == other ==> q in table && table[q] == other;
    assert other in table.Values <==> exists q :: q in table && table[q] == other;
    assert other in table'.Values <==> exists q :: q in table' && table'[q] == other;
  }

  lemma HandleShape(table: ClientSide, id: ClientId, m: Message)
    requires Injective(table) && 0 !in table && id != 0 && (m.Register? ==> m.r != 0)
    ensures Injective(Handle(table, id, m)) && 0 !in Handle(table, id, m)
    ensures forall c | c in Handle(table, id, m).Values :: c in table.Values || c == id
  {
  }

  lemma HandleSettles(table: ClientSide, id: ClientId, messages: seq<Message>, route: RouteId,
                      entry: RouteId, entry': RouteId)
    requires Injective(table) && 0 !in table && id != 0 && messages != []
    requires Entry(table, id, entry) && Settles(entry, messages, route)
    requires Entry(Handle(table, id, messages[0]), id, entry')
    ensures Settles(entry', messages[1..], route)
  {
  }

  // ---------- every event keeps the invariant ----------

  lemma SendConsistent(w: World, k: nat, route: RouteId, sent: seq<Message>)
    requires Consistent(w) && k in w.clients && WellFormed(sent)
    requires forall r, messages | Settles(r, messages, w.clients[k].routeId) :: Settles(r, messages + sent, route)
    ensures Consistent(Send(w, k, route, sent))
  {
  }

  lemma ConnectConsistent(w: World, k: nat, id: ClientId)
    requires Consistent(w) && Possible(w, Connect(k, id))
    ensures Consistent(Happen(w, Connect(k, id)))
  {
  }

  lemma DeliverConsistent(w: World, id: ClientId)
    requires Consistent(w) && Possible(w, Deliver(id))
    ensures Consistent(Happen(w, Deliver(id)))
  {
    var w', messages := Happen(w, Deliver(id)), w.channels[id];
    assert messages[0] in messages;
    HandleShape(w.table, id, messages[0]);
    forall j | j in w'.clients
      ensures ClientOk(w', w'.clients[j])
    {
      var c := w.clients[j];
      assert ClientOk(w, c);
      forall r | c.id in w'.channels && Entry(w'.table, c.id, r)
        ensures Settles(r, w'.channels[c.id], c.routeId)
      {
        if c.id == id {
          var entry := EntryExists(w.table, id);
          HandleSettles(w.table, id, messages, c.routeId, entry, r);
        } else {
          HandleOthers(w.table, id, messages[0], c.id, r);
        }
      }
    }
  }

  lemma ServerDisconnectConsistent(w: World, id: ClientId)
    requires Consistent(w) && Possible(w, ServerDisconnect(id))
    ensures Consistent(Happen(w, ServerDisconnect(id)))
  {
    var w' := Happen(w, ServerDisconnect(id));
    HandleShape(w.table, id, Deregister);
    assert id !in w'.table.Values;
    forall j | j in w'.clients
      ensures ClientOk(w', w'.clients[j])
    {
      var c := w.clients[j];
      assert ClientOk(w, c);
      forall r | c.id in w'.channels && Entry(w'.table, c.id, r)
        ensures Settles(r, w'.channels[c.id], c.routeId)
      {
        HandleOthers(w.table, id, Deregister, c.id, r);
      }
    }
  }

  lemma HappenKeepsConsistent(w: World, ev: Event)
    requires Consistent(w) && Possible(w, ev)
    ensures Consistent(Happen(w, ev))
  {
    match ev
    case Connect(k, id) => ConnectConsistent(w, k, id);
    case Ask(k, id) =>
      var c := w.clients[k];
      var (route, sent, _) := Registering(c.routeId, c.id != 0, id);
      forall r, messages | Settles(r, messages, c.routeId)
        ensures Settles(r, messages + sent, route)
      {
        RegisteringSettles(r, messages, c.routeId, c.id != 0, id);
      }
      SendConsistent(w, k, route, sent);
    case Cancel(k) =>
      var c := w.clients[k];
      var (route, sent) := Deregistering(c.routeId, c.id != 0);
      forall r, messages | Settles(r, messages, c.routeId)
        ensures Settles(r, messages + sent, route)
      {
        DeregisteringSettles(r, messages, c.routeId, c.id != 0);
      }
      SendConsistent(w, k, route, sent);
    case Disconnect(k) =>
      var w' := Happen(w, ev);
      forall j | j in w'.clients ensures ClientOk(w', w'.clients[j]) { assert ClientOk(w, w.clients[j]); }
    case Deliver(id) => DeliverConsistent(w, id);
    case ServerDisconnect(id) => ServerDisconnectConsistent(w, id);
  }

  lemma {:induction false} HistoryConsistent(w: World, evs: seq<Event>)
    requires Consistent(w) && History(w, evs)
    ensures Consistent(After(w, evs))
    decreases |evs|
  {
    if evs != [] {
      HappenKeepsConsistent(w, evs[0]);
      HistoryConsistent(Happen(w, evs[0]), evs[1..]);
    }
  }

  /** In every run, once a connected client's messages have all been handled, the server's entry for its
    * connection is absent or exactly the route the client remembers, and absent when that is none; and
    * the server has entries only for connections it still has.
    */
  lemma Agreement(evs: seq<Event>, k: nat, r: RouteId)
    requires History(EMPTY, evs)
    ensures forall id | id in After(EMPTY, evs).table.Values :: id in After(EMPTY, evs).channels
    ensures var w := After(EMPTY, evs);
            k in w.clients && w.clients[k].id in w.channels && w.channels[w.clients[k].id] == []
            && Entry(w.table, w.clients[k].id, r)
            ==> r == 0 || r == w.clients[k].routeId
  {
    HistoryConsistent(EMPTY, evs);
    var w := After(EMPTY, evs);
    if k in w.clients { assert ClientOk(w, w.clients[k]); }
  }

  // ---------- a request arrives ----------

  /** All messages of one connection handled in a row. */
  function HandleAll(table: ClientSide, id: ClientId, messages: seq<Message>): ClientSide
    decreases |messages|
  {
    if messages == [] then table else HandleAll(Handle(table, id, messages[0]), id, messages[1..])
  }

  function Deliveries(id: ClientId, n: nat): seq<Event> {
    seq(n, _ => Deliver(id))
  }

  lemma {:induction false} Delivered(w: World, id: ClientId)
    requires id in w.channels
    ensures History(w, Deliveries(id, |w.channels[id]|))
    ensures After(w, Deliveries(id, |w.channels[id]|))
         == w.(table := HandleAll(w.table, id, w.channels[id]), channels := w.channels[id := []])
    decreases |w.channels[id]|
  {
    var messages := w.channels[id];
    if messages == [] {
      assert w.channels[id := []] == w.channels;
    } else {
      var w' := Happen(w, Deliver(id));
      Delivered(w', id);
      assert Deliveries(id, |messages|)[1..] == Deliveries(id, |messages| - 1);
      assert w'.channels[id := []] == w.channels[id := []];
    }
  }

  lemma {:induction false} HandleLast(table: ClientSide, id: ClientId, messages: seq<Message>, m: Message)
    ensures HandleAll(table, id, messages + [m]) == Handle(HandleAll(table, id, messages), id, m)
    decreases |messages|
  {
    if messages == [] {
      assert [m][1..] == [];
    } else {
      assert (messages + [m])[1..] == messages[1..] + [m];
      HandleLast(Handle(table, id, messages[0]), id, messages[1..], m);
    }
  }

  /** Handling them all settles the entry and concerns no other connection. */
  lemma {:induction false} HandleAllSettles(table: ClientSide, id: ClientId, messages: seq<Message>, route: RouteId,
                                            entry: RouteId) returns (entry': RouteId)
    requires Injective(table) && 0 !in table && id != 0 && WellFormed(messages)
    requires Entry(table, id, entry) && Settles(entry, messages, route)
    ensures Entry(HandleAll(table, id, messages), id, entry') && (entry' == 0 || entry' == route)
    ensures Injective(HandleAll(table, id, messages)) && 0 !in HandleAll(table, id, messages)
    decreases |messages|
  {
    if messages == [] {
      entry' := entry;
    } else {
      assert messages[0] in messages;
      HandleShape(table, id, messages[0]);
      var next := EntryExists(Handle(table, id, messages[0]), id);
      HandleSettles(table, id, messages, route, entry, next);
      entry' := HandleAllSettles(Handle(table, id, messages[0]), id, messages[1..], route, next);
    }
  }

  lemma {:induction false} HandleAllOthers(table: ClientSide, id: ClientId, messages: seq<Message>, other: ClientId,
                                           r: RouteId)
    requires Injective(table) && 0 !in table && id != 0 && other != id && WellFormed(messages)
    ensures Entry(HandleAll(table, id, messages), other, r) <==> Entry(table, other, r)
    decreases |messages|
  {
    if messages != [] {
      assert messages[0] in messages;
      HandleShape(table, id, messages[0]);
      HandleOthers(table, id, messages[0], other, r);
      HandleAllOthers(Handle(table, id, messages[0]), id, messages[1..], other, r);
    }
  }

  /** Messages that leave no entry, then a request for route r: it is granted unless another connection has r. */
  lemma RequestHandled(table: ClientSide, id: ClientId, messages: seq<Message>, r: RouteId, entry: RouteId)
    requires Injective(table) && 0 !in table && id != 0 && WellFormed(messages) && r != 0
    requires Entry(table, id, entry) && Settles(entry, messages, 0)
    ensures var table' := HandleAll(table, id, messages + [Register(r)]);
            && (Entry(table', id, r) <==> (r in table ==> table[r] == id))
            && (r in table && table[r] != id ==> Entry(table', id, 0))
  {
    var t := HandleAll(table, id, messages);
    HandleLast(table, id, messages, Register(r));
    var none := HandleAllSettles(table, id, messages, 0, entry);
    if r in t { HandleAllOthers(table, id, messages, t[r], r); }
    if r in table && table[r] != id { HandleAllOthers(table, id, messages, table[r], r); }
    var table' := Handle(t, id, Register(r));
    assert r in table' ==> table'[r] in table'.Values;
  }

  lemma AskSends(w: World, k: nat, r: RouteId) returns (before: seq<Message>, entry: RouteId)
    requires Consistent(w) && k in w.clients && w.clients[k].id in w.channels && r != 0
    ensures var id := w.clients[k].id;
            && Happen(w, Ask(k, r)).channels[id] == before + [Register(r)] && WellFormed(before)
            && Entry(w.table, id, entry) && Settles(entry, before, 0)
  {
    var c := w.clients[k];
    var messages := w.channels[c.id];
    entry := EntryExists(w.table, c.id);
    assert ClientOk(w, c);
    before := messages + if c.routeId != 0 then [Deregister] else [];
    if c.routeId != 0 {
      DeregisterSettles(entry, messages, c.routeId);
    } else {
      assert before == messages;
    }
    assert messages + ((if c.routeId != 0 then [Deregister] else []) + [Register(r)]) == before + [Register(r)];
  }

  /** In every run: once a connected client has asked for a route and its messages have been handled, the server has it
    * under exactly that route, which is the one the client remembers, unless another connection had the route when it
    * asked; then the server has no entry for it. The entries of all others are as they were.
    */
  lemma AskArrives(evs: seq<Event>, k: nat, r: RouteId, other: ClientId, q: RouteId)
    requires History(EMPTY, evs) && r != 0
    requires var w := After(EMPTY, evs); k in w.clients && w.clients[k].id in w.channels
    ensures var w := After(EMPTY, evs);
            var id, asked := w.clients[k].id, Happen(w, Ask(k, r));
            var arriving := Deliveries(id, |asked.channels[id]|);
            && History(asked, arriving)
            && var w' := After(asked, arriving);
               && w'.channels == w.channels[id := []] && w'.clients == w.clients[k := Client(id, r)]
               && (Entry(w'.table, id, r) <==> (r in w.table ==> w.table[r] == id))
               && (r in w.table && w.table[r] != id ==> Entry(w'.table, id, 0))
               && (other != id ==> (Entry(w'.table, other, q) <==> Entry(w.table, other, q)))
  {
    HistoryConsistent(EMPTY, evs);
    var w := After(EMPTY, evs);
    var id, asked := w.clients[k].id, Happen(w, Ask(k, r));
    var before, entry := AskSends(w, k, r);
    Delivered(asked, id);
    RequestHandled(w.table, id, before, r, entry);
    if other != id { HandleAllOthers(w.table, id, before + [Register(r)], other, q); }
    assert asked.channels[id := []] == w.channels[id := []];
  }

  /** What a client remembers changes only by its own requests while it is connected; losing the connection and coming
    * back leave it.
    */
  lemma RouteRemembered(w: World, ev: Event, k: nat)
    requires Possible(w, ev) && k in w.clients
    ensures k in Happen(w, ev).clients
    ensures var c, c' := w.clients[k], Happen(w, ev).clients[k];
            c'.routeId == if c.id != 0 && ev == Cancel(k) then 0
                          else if c.id != 0 && ev.Ask? && ev.k == k && ev.r != 0 then ev.r
                          else c.routeId
    ensures Happen(w, ev).clients[k].id
         == if ev.Connect? && ev.k == k then ev.id else if ev == Disconnect(k) then 0 else w.clients[k].id
  {
  }
}
