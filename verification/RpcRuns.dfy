/** Whole runs of the routed server: the order in which listener operations and client operations interleave
  * never matters, and delivery is symmetric after any of them.
  */
module RpcRuns {
  import opened RpcRoutes

  datatype Op =
    | RegisterReceiver(l: Listener, r: RouteId)
    | DeregisterReceiver(l: Listener)
    | RegisterClient(c: ClientId, route: RouteId)
    | DeregisterClient(c: ClientId)
  {
    predicate OfListener() {
      RegisterReceiver? || DeregisterReceiver?
    }
  }

  /** Both tables, and the answers the registrations have had so far, each side's in order. */
  datatype Tables = Tables(listeners: ListenerSide, clients: ClientSide,
                           listenerAnswers: seq<bool>, clientAnswers: seq<bool>)

  const EMPTY := Tables(ListenerSide(map[], []), map[], [], [])

  function Apply(t: Tables, op: Op): Tables {
    match op
    case RegisterReceiver(l, r) =>
      var (s, ok) := AddListener(t.listeners, l, r);
      t.(listeners := s, listenerAnswers := t.listenerAnswers + [ok])
    case DeregisterReceiver(l) => t.(listeners := DropListener(t.listeners, l))
    case RegisterClient(c, r) =>
      var (s, ok) := AddClient(t.clients, c, r);
      t.(clients := s, clientAnswers := t.clientAnswers + [ok])
    case DeregisterClient(c) => t.(clients := DropClient(t.clients, c))
  }

  function ApplyAll(t: Tables, ops: seq<Op>): Tables
    decreases |ops|
  {
    if ops == [] then t else ApplyAll(Apply(t, ops[0]), ops[1..])
  }

  /** The operations of one side only, in their order. */
  function Side(ops: seq<Op>, listeners: bool): (side: seq<Op>)
    ensures forall op | op in side :: op.OfListener() == listeners
  {
    if ops == [] then []
    else (if ops[0].OfListener() == listeners then [ops[0]] else []) + Side(ops[1..], listeners)
  }

  /** A run leaves each side exactly where that side's operations alone would have left it. */
  lemma {:induction false} SidesAreIndependent(t: Tables, ops: seq<Op>)
    ensures var l, c := ApplyAll(t, Side(ops, true)), ApplyAll(t, Side(ops, false));
            ApplyAll(t, ops) == Tables(l.listeners, c.clients, l.listenerAnswers, c.clientAnswers)
    decreases |ops|
  {
    if ops != [] {
      var op, rest := ops[0], ops[1..];
      SidesAreIndependent(Apply(t, op), rest);
      var mine, other := Side(rest, op.OfListener()), Side(rest, !op.OfListener());
      assert Side(ops, op.OfListener()) == [op] + mine && ([op] + mine)[1..] == mine;
      assert Side(ops, !op.OfListener()) == other;
      OtherSideUntouched(Apply(t, op), t, other, !op.OfListener());
    }
  }

  /** Operations of one side neither read nor write the other side. */
  lemma {:induction false} OtherSideUntouched(t: Tables, u: Tables, ops: seq<Op>, listeners: bool)
    requires forall op | op in ops :: op.OfListener() == listeners
    requires listeners ==> t.listeners == u.listeners && t.listenerAnswers == u.listenerAnswers
    requires !listeners ==> t.clients == u.clients && t.clientAnswers == u.clientAnswers
    ensures listeners ==>
              && ApplyAll(t, ops).listeners == ApplyAll(u, ops).listeners
              && ApplyAll(t, ops).listenerAnswers == ApplyAll(u, ops).listenerAnswers
              && ApplyAll(t, ops).clients == t.clients && ApplyAll(t, ops).clientAnswers == t.clientAnswers
    ensures !listeners ==>
              && ApplyAll(t, ops).clients == ApplyAll(u, ops).clients
              && ApplyAll(t, ops).clientAnswers == ApplyAll(u, ops).clientAnswers
              && ApplyAll(t, ops).listeners == t.listeners && ApplyAll(t, ops).listenerAnswers == t.listenerAnswers
    decreases |ops|
  {
    if ops != [] {
      assert ops[0] in ops;
      OtherSideUntouched(Apply(t, ops[0]), Apply(u, ops[0]), ops[1..], listeners);
    }
  }

  /** Two runs in which the listeners did the same and the clients did the same end in the same tables and
    * have given the same answers, however the two sides were interleaved.
    */
  lemma InterleavingDoesNotMatter(ops: seq<Op>, ops': seq<Op>)
    requires Side(ops, true) == Side(ops', true) && Side(ops, false) == Side(ops', false)
    ensures ApplyAll(EMPTY, ops) == ApplyAll(EMPTY, ops')
  {
    SidesAreIndependent(EMPTY, ops);
    SidesAreIndependent(EMPTY, ops');
  }

  /** Runs the real server through a sequence of operations. Its tables and answers are those above, and its
    * index is the join of the tables all along.
    */
  method Execute(ops: seq<Op>) returns (server: RpcRoutedServer, listenerAnswers: seq<bool>, clientAnswers: seq<bool>)
    ensures fresh(server) && fresh(server.routes) && server.Valid()
    ensures Tables(server.Listeners(), server.clientRoutes, listenerAnswers, clientAnswers) == ApplyAll(EMPTY, ops)
  {
    server := new RpcRoutedServer();
    listenerAnswers, clientAnswers := [], [];
    for i := 0 to |ops|
      invariant fresh(server) && fresh(server.routes) && server.Valid()
      invariant ApplyAll(Tables(server.Listeners(), server.clientRoutes, listenerAnswers, clientAnswers), ops[i..])
             == ApplyAll(EMPTY, ops)
    {
      assert ops[i..][1..] == ops[i + 1..];
      match ops[i]
      case RegisterReceiver(l, r) =>
        var ok := server.RegisterReceiver(l, r);
        listenerAnswers := listenerAnswers + [ok];
      case DeregisterReceiver(l) => server.DeregisterReceiver(l);
      case RegisterClient(c, r) =>
        var ok := server.RegisterClient(c, r);
        clientAnswers := clientAnswers + [ok];
      case DeregisterClient(c) => server.DeregisterClient(c);
    }
  }

  // ---------- who is registered, read off the run ----------

  ghost predicate Holds<T>(table: map<RouteId, T>, r: RouteId, x: T) {
    r in table && table[r] == x
  }

  /** Operation i registered client c under route r, which then were both free. */
  ghost predicate ClientGranted(ops: seq<Op>, i: nat, c: ClientId, r: RouteId)
    requires i < |ops|
  {
    var before := ApplyAll(EMPTY, ops[..i]).clients;
    ops[i] == RegisterClient(c, r) && c != 0 && r !in before && c !in before.Values
  }

  ghost predicate ListenerGranted(ops: seq<Op>, i: nat, l: Listener, r: RouteId)
    requires i < |ops|
  {
    var before := ApplyAll(EMPTY, ops[..i]).listeners.routes;
    ops[i] == RegisterReceiver(l, r) && l != NULL && r != 0 && r !in before && l !in before.Values
  }

  ghost predicate ClientRegistered(ops: seq<Op>, c: ClientId, r: RouteId) {
    exists i :: 0 <= i < |ops| && ClientGranted(ops, i, c, r) && DeregisterClient(c) !in ops[i..]
  }

  ghost predicate ListenerRegistered(ops: seq<Op>, l: Listener, r: RouteId) {
    exists i :: 0 <= i < |ops| && ListenerGranted(ops, i, l, r) && DeregisterReceiver(l) !in ops[i..]
  }

  lemma {:induction false} ApplyLast(t: Tables, ops: seq<Op>, op: Op)
    ensures ApplyAll(t, ops + [op]) == Apply(ApplyAll(t, ops), op)
    decreases |ops|
  {
    if ops == [] {
      assert [op][1..] == [];
    } else {
      assert (ops + [op])[1..] == ops[1..] + [op];
      ApplyLast(Apply(t, ops[0]), ops[1..], op);
    }
  }

  lemma ClientLast(ops: seq<Op>, op: Op, c: ClientId, r: RouteId)
    ensures ClientRegistered(ops + [op], c, r) <==>
            (ClientRegistered(ops, c, r) && op != DeregisterClient(c)) || ClientGranted(ops + [op], |ops|, c, r)
  {
    var all := ops + [op];
    forall i: nat | i < |ops|
      ensures all[..i] == ops[..i] && all[i..] == ops[i..] + [op]
    {
    }
    if ClientRegistered(ops, c, r) && op != DeregisterClient(c) {
      var i: nat :| i < |ops| && ClientGranted(ops, i, c, r) && DeregisterClient(c) !in ops[i..];
      assert ClientGranted(all, i, c, r) && DeregisterClient(c) !in all[i..];
    }
    if ClientGranted(all, |ops|, c, r) {
      assert all[|ops|..] == [op];
    }
    if ClientRegistered(all, c, r) && !ClientGranted(all, |ops|, c, r) {
      var i: nat :| i < |all| && ClientGranted(all, i, c, r) && DeregisterClient(c) !in all[i..];
      assert ClientGranted(ops, i, c, r) && all[i..] == ops[i..] + [op];
      assert forall x | x in ops[i..] :: x in all[i..];
      assert op in all[i..];
    }
  }

  lemma ListenerLast(ops: seq<Op>, op: Op, l: Listener, r: RouteId)
    ensures ListenerRegistered(ops + [op], l, r) <==>
            (ListenerRegistered(ops, l, r) && op != DeregisterReceiver(l)) || ListenerGranted(ops + [op], |ops|, l, r)
  {
    var all := ops + [op];
    forall i: nat | i < |ops|
      ensures all[..i] == ops[..i] && all[i..] == ops[i..] + [op]
    {
    }
    if ListenerRegistered(ops, l, r) && op != DeregisterReceiver(l) {
      var i: nat :| i < |ops| && ListenerGranted(ops, i, l, r) && DeregisterReceiver(l) !in ops[i..];
      assert ListenerGranted(all, i, l, r) && DeregisterReceiver(l) !in all[i..];
    }
    if ListenerGranted(all, |ops|, l, r) {
      assert all[|ops|..] == [op];
    }
    if ListenerRegistered(all, l, r) && !ListenerGranted(all, |ops|, l, r) {
      var i: nat :| i < |all| && ListenerGranted(all, i, l, r) && DeregisterReceiver(l) !in all[i..];
      assert ListenerGranted(ops, i, l, r) && all[i..] == ops[i..] + [op];
      assert forall x | x in ops[i..] :: x in all[i..];
      assert op in all[i..];
    }
  }

  /** A client is in the table under a route exactly when it was registered there, both being free, and has not been
    * deregistered since.
    */
  lemma {:induction false} ClientHistory(ops: seq<Op>, c: ClientId, r: RouteId)
    ensures Holds(ApplyAll(EMPTY, ops).clients, r, c) <==> ClientRegistered(ops, c, r)
    ensures 0 !in ApplyAll(EMPTY, ops).clients.Values
    decreases |ops|
  {
    if ops != [] {
      var init, op := ops[..|ops| - 1], ops[|ops| - 1];
      assert ops == init + [op] && ops[..|init|] == init;
      ClientHistory(init, c, r);
      ApplyLast(EMPTY, init, op);
      ClientLast(init, op, c, r);
    }
  }

  lemma {:induction false} ListenerHistory(ops: seq<Op>, l: Listener, r: RouteId)
    ensures Holds(ApplyAll(EMPTY, ops).listeners.routes, r, l) <==> ListenerRegistered(ops, l, r)
    ensures NULL !in ApplyAll(EMPTY, ops).listeners.routes.Values
    decreases |ops|
  {
    if ops != [] {
      var init, op := ops[..|ops| - 1], ops[|ops| - 1];
      assert ops == init + [op] && ops[..|init|] == init;
      ListenerHistory(init, l, r);
      ApplyLast(EMPTY, init, op);
      ListenerLast(init, op, l, r);
    }
  }

  /** Client c and listener l are registered under the same route. */
  ghost predicate Share(ops: seq<Op>, c: ClientId, l: Listener) {
    exists r :: ClientRegistered(ops, c, r) && ListenerRegistered(ops, l, r)
  }

  lemma SharedIsLinked(ops: seq<Op>, c: ClientId, l: Listener)
    ensures Share(ops, c, l) <==> Linked(ApplyAll(EMPTY, ops).clients, ApplyAll(EMPTY, ops).listeners.routes, c, l)
  {
    var t := ApplyAll(EMPTY, ops);
    forall r
      ensures Holds(t.clients, r, c) <==> ClientRegistered(ops, c, r)
      ensures Holds(t.listeners.routes, r, l) <==> ListenerRegistered(ops, l, r)
    {
      ClientHistory(ops, c, r);
      ListenerHistory(ops, l, r);
    }
    if Linked(t.clients, t.listeners.routes, c, l) {
      var r :| r in t.clients && r in t.listeners.routes && t.clients[r] == c && t.listeners.routes[r] == l;
      assert Holds(t.clients, r, c) && Holds(t.listeners.routes, r, l);
    }
    if r :| ClientRegistered(ops, c, r) && ListenerRegistered(ops, l, r) {
      assert Holds(t.clients, r, c) && Holds(t.listeners.routes, r, l);
    }
  }

  /** After any run, a message from client c reaches listener l alone, and a call by l reaches client c alone, exactly
    * when both have been registered under one route and neither has been deregistered since; without such a partner
    * they reach nobody.
    */
  method DeliverBothWays(ops: seq<Op>, c: ClientId, l: Listener) returns (reached: seq<Listener>, target: Target)
    requires c != 0 && l != NULL
    ensures reached == [l] <==> Share(ops, c, l)
    ensures target == Just(c) <==> Share(ops, c, l)
    ensures (forall k: Listener :: !Share(ops, c, k)) ==> reached == []
    ensures (forall d: ClientId :: !Share(ops, d, l)) ==> target == Nobody
  {
    var server, _, _ := Execute(ops);
    reached := server.Dispatch(c);
    target := server.InternalCall(l);
    forall d, k
      ensures Share(ops, d, k) <==> Linked(server.clientRoutes, server.listenerRoutes, d, k)
    {
      SharedIsLinked(ops, d, k);
    }
  }
}
