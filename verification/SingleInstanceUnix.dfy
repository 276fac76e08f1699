/** The same election on the Unix lock. Nobody closes the lock file, so no process has a mode that the kernel does
  * not know of.
  */
module SingleInstanceUnix {
  import opened RwLock
  import opened LockedFileUnixSteps
  import Election = SingleInstance

  /** The locks, and every answer isClient() has given each live process, oldest first. */
  datatype Peers = Peers(lock: State, answers: map<Pid, seq<bool>>)

  datatype Event =
    | Launch(p: Pid, open: bool)
    | Quit(p: Pid)
    | Ask(p: Pid)
    | Proceed(p: Pid, out: Outcome)

  const NOBODY := Peers(INIT, map[])

  predicate CanHappen(e: Peers, ev: Event) {
    match ev
    case Launch(p, open) => Enabled(e.lock, Start(p, open)) && p !in e.answers
    case Quit(p) => Enabled(e.lock, Exit(p)) && p in e.answers
    case Ask(p) => Enabled(e.lock, Lock(p, WriteLock, false)) && p in e.answers
    case Proceed(p, out) => Enabled(e.lock, Step(p, out)) && p in e.answers
  }

  /** The answers p has in s: when its attempt to lock has returned, isClient() answers the opposite of its result. */
  function Answered(e: Peers, s: State, p: Pid): Peers
    requires p in e.answers && p in s.procs
  {
    var pr := s.procs[p];
    Peers(s, e.answers[p := if pr.pc == Idle then e.answers[p] + [!pr.ret] else e.answers[p]])
  }

  function Happen(e: Peers, ev: Event): Peers
    requires CanHappen(e, ev)
  {
    match ev
    case Launch(p, open) => Peers(Next(e.lock, Start(p, open)), e.answers[p := []])
    case Quit(p) => Peers(Next(e.lock, Exit(p)), e.answers - {p})
    case Ask(p) =>
      if e.lock.procs[p].mode != NoLock then e.(answers := e.answers[p := e.answers[p] + [false]])
      else Answered(e, Next(e.lock, Lock(p, WriteLock, false)), p)
    case Proceed(p, out) => Answered(e, Next(e.lock, Step(p, out)), p)
  }

  predicate History(e: Peers, evs: seq<Event>)
    decreases |evs|
  {
    evs == [] || (CanHappen(e, evs[0]) && History(Happen(e, evs[0]), evs[1..]))
  }

  function After(e: Peers, evs: seq<Event>): Peers
    requires History(e, evs)
    decreases |evs|
  {
    if evs == [] then e else After(Happen(e, evs[0]), evs[1..])
  }

  // ---------- the invariant ----------

  /** A process only ever asks for the write lock, without waiting; it has been answered false exactly when it holds
    * that lock between calls, and every false answer is followed by false answers only.
    */
  predicate Candidate(pr: Proc, answers: seq<bool>) {
    && !pr.stale && pr.mode != ReadLock
    && (pr.pc != Idle ==> pr.pc == Set(Request(WriteLock, false)) && pr.mode == NoLock)
    && Election.Settled(answers)
    && (false in answers <==> pr.mode == WriteLock)
  }

  predicate Running(e: Peers, p: Pid) {
    && (p in e.answers <==> p in e.lock.procs)
    && (p in e.answers ==> Candidate(e.lock.procs[p], e.answers[p]))
  }

  ghost predicate Fair(e: Peers) {
    Inv(e.lock) && forall p: Pid :: Running(e, p)
  }

  lemma ActorFair(e: Peers, ev: Event)
    requires CanHappen(e, ev) && Running(e, ev.p)
    ensures Running(Happen(e, ev), ev.p)
  {
    if ev.p in e.answers && !ev.Quit? {
      Election.Appended(e.answers[ev.p], false);
      if false !in e.answers[ev.p] { Election.Appended(e.answers[ev.p], true); }
    }
  }

  /** What an event does to the locks, if anything. */
  function Doing(ev: Event): Action {
    match ev
    case Launch(p, open) => Start(p, open)
    case Quit(p) => Exit(p)
    case Ask(p) => Lock(p, WriteLock, false)
    case Proceed(p, out) => Step(p, out)
  }

  lemma OthersFair(e: Peers, ev: Event, q: Pid)
    requires CanHappen(e, ev) && Running(e, q) && q != ev.p
    ensures Running(Happen(e, ev), q)
  {
    OthersUntouched(e.lock, Doing(ev), q);
  }

  lemma HappenKeepsFair(e: Peers, ev: Event)
    requires Fair(e) && CanHappen(e, ev)
    ensures Fair(Happen(e, ev))
  {
    NextKeepsInv(e.lock, Doing(ev));
    forall q: Pid
      ensures Running(Happen(e, ev), q)
    {
      assert Running(e, q);
      if q == ev.p { ActorFair(e, ev); } else { OthersFair(e, ev, q); }
    }
  }

  lemma {:induction false} HistoryFair(e: Peers, evs: seq<Event>)
    requires Fair(e) && History(e, evs)
    ensures Fair(After(e, evs))
    decreases |evs|
  {
    if evs != [] {
      HappenKeepsFair(e, evs[0]);
      HistoryFair(Happen(e, evs[0]), evs[1..]);
    }
  }

  // ---------- the election ----------

  /** Whatever happens, at most one live process has ever been told that it is not a client, and that answer
    * never changes for it.
    */
  lemma OneInstance(evs: seq<Event>, p: Pid, q: Pid)
    requires History(NOBODY, evs)
    requires p in After(NOBODY, evs).answers && q in After(NOBODY, evs).answers
    ensures var e := After(NOBODY, evs);
            && Election.Settled(e.answers[p])
            && (false in e.answers[p] && false in e.answers[q] ==> p == q)
  {
    HistoryFair(NOBODY, evs);
    var e := After(NOBODY, evs);
    assert Running(e, p) && Running(e, q) && Good(e.lock, p) && Good(e.lock, q);
  }

  /** An answer true without any error means that the lock file is not open, or that another live process has been
    * answered false.
    */
  lemma ClientLoses(e: Peers, ev: Event)
    requires Fair(e) && CanHappen(e, ev) && (ev.Ask? || (ev.Proceed? && ev.out == Normal))
    requires Happen(e, ev).answers[ev.p] == e.answers[ev.p] + [true]
    ensures !e.lock.procs[ev.p].open || exists w :: w in e.answers && w != ev.p && false in e.answers[w]
  {
    assert (e.answers[ev.p] + [true])[|e.answers[ev.p]|];
    assert Running(e, ev.p) && Good(e.lock, ev.p);
    if ev.Proceed? {
      var w :| w in e.lock.locks && w != ev.p && e.lock.locks[w] != NoLock;
      assert Running(e, w) && Good(e.lock, w);
    }
  }

  lemma AskAtOnce(e: Peers, p: Pid)
    requires Fair(e) && CanHappen(e, Ask(p)) && (e.lock.procs[p].mode != NoLock || !e.lock.procs[p].open)
    ensures Happen(e, Ask(p)).answers == e.answers[p := e.answers[p] + [e.lock.procs[p].mode != WriteLock]]
  {
    assert Running(e, p);
  }

  lemma AskBegins(e: Peers, p: Pid)
    requires CanHappen(e, Ask(p)) && e.lock.procs[p].open && e.lock.procs[p].mode == NoLock
    ensures Happen(e, Ask(p)) == Peers(Setting(e.lock, p, WriteLock, false), e.answers)
  {
    assert e.answers[p := e.answers[p]] == e.answers;
  }

  lemma HistoryNext(e: Peers, ev: Event, rest: seq<Event>)
    requires CanHappen(e, ev) && History(Happen(e, ev), rest)
    ensures History(e, [ev] + rest) && After(e, [ev] + rest) == After(Happen(e, ev), rest)
  {
    assert ([ev] + rest)[1..] == rest;
  }

  /** A process that asks without being interrupted is told that it is a client exactly when it does not hold the lock
    * yet and either its lock file is not open or another process has locked it.
    */
  lemma AskAnswers(e: Peers, p: Pid) returns (evs: seq<Event>)
    requires Fair(e) && CanHappen(e, Ask(p))
    ensures evs == [] || evs == [Proceed(p, Normal)]
    ensures History(e, [Ask(p)] + evs)
    ensures var pr := e.lock.procs[p];
            var client := pr.mode != WriteLock && (!pr.open || !Compatible(e.lock.locks, p, WriteLock));
            After(e, [Ask(p)] + evs).answers == e.answers[p := e.answers[p] + [client]]
  {
    if e.lock.procs[p].mode != NoLock || !e.lock.procs[p].open {
      AskAtOnce(e, p);
      evs := [];
      HistoryNext(e, Ask(p), evs);
      assert Running(e, p);
    } else {
      AskBegins(e, p);
      LockAlone(e.lock, p, WriteLock, false);
      evs := [Proceed(p, Normal)];
      var e' := Happen(e, Ask(p));
      HistoryNext(e', Proceed(p, Normal), []);
      assert [Proceed(p, Normal)] + [] == evs;
      HistoryNext(e, Ask(p), evs);
    }
  }
}
