/** QtLocalPeer::isClient(): the processes elect one instance by trying, without blocking, for the write
  * lock of a common lock file. The model runs on the Windows lock, one system call at a time.
  */
module SingleInstance {
  import opened RwLock
  import opened LockedFileWin
  import opened LockedFileWinSafety
  import Calls = LockedFileWinCalls
  import Theorems = LockedFileWinTheorems

  /** The locks, and every answer isClient() has given each live process, oldest first. */
  datatype Peers = Peers(lock: State, answers: map<Pid, seq<bool>>)

  datatype Event =
    | Launch(p: Pid, open: bool)
    | Quit(p: Pid)
    | Ask(p: Pid)
    | Proceed(p: Pid, out: Outcome)

  const NOBODY := Peers(INIT, map[])

  predicate CanHappen(e: Peers, ev: Event) {
    match ev
    case Launch(p, open) => Enabled(e.lock, Start(p, open)) && p !in e.answers
    case Quit(p) => Enabled(e.lock, Exit(p)) && p in e.answers
    case Ask(p) => Enabled(e.lock, Lock(p, WriteLock, false)) && p in e.answers
    case Proceed(p, out) => Enabled(e.lock, Step(p, out)) && p in e.answers
  }

  /** When the attempt of p to lock has returned, isClient() answers the opposite of its result. */
  function Answered(e: Peers, s: State, p: Pid): Peers
    requires p in e.answers
  {
    Peers(s, if p in s.procs && s.procs[p].pc == Idle then e.answers[p := e.answers[p] + [!s.procs[p].ret]]
             else e.answers)
  }

  function Happen(e: Peers, ev: Event): Peers
    requires CanHappen(e, ev)
  {
    match ev
    case Launch(p, open) => Peers(Next(e.lock, Start(p, open)), e.answers[p := []])
    case Quit(p) => Peers(Next(e.lock, Exit(p)), e.answers - {p})
    case Ask(p) =>
      if e.lock.procs[p].mode != NoLock then e.(answers := e.answers[p := e.answers[p] + [false]])
      else Answered(e, Next(e.lock, Lock(p, WriteLock, false)), p)
    case Proceed(p, out) => Answered(e, Next(e.lock, Step(p, out)), p)
  }

  predicate History(e: Peers, evs: seq<Event>)
    decreases |evs|
  {
    evs == [] || (CanHappen(e, evs[0]) && History(Happen(e, evs[0]), evs[1..]))
  }

  function After(e: Peers, evs: seq<Event>): Peers
    requires History(e, evs)
    decreases |evs|
  {
    if evs == [] then e else After(Happen(e, evs[0]), evs[1..])
  }

  // ---------- the invariant ----------

  /** Nobody ever reads, so no slot exists, and whoever gets the gate gets the lock. */
  predicate Electing(pr: Proc) {
    && pr.rmutex == [] && pr.rmutexes == []
    && match pr.pc
       case Idle => pr.mode != ReadLock
       case CreateGate(req) => req == Request(WriteLock, false)
       case WaitGate(req) => req == Request(WriteLock, false)
       case Write(w, block) => w.Collect? && !block
       case _ => false
  }

  /** Every false answer is followed by false answers only. */
  predicate Settled(answers: seq<bool>) {
    forall i, j | 0 <= i < j < |answers| :: !answers[i] ==> !answers[j]
  }

  /** A process has been answered false exactly when it holds the write lock between calls. */
  predicate Candidate(pr: Proc, answers: seq<bool>) {
    && Electing(pr) && Settled(answers)
    && (false in answers <==> pr.pc == Idle && pr.mode == WriteLock)
  }

  ghost predicate AllCandidates(e: Peers) {
    && e.answers.Keys == e.lock.procs.Keys
    && (forall h | h in e.lock.handles :: h.1 == GATE)
    && (forall p | p in e.lock.procs :: Candidate(e.lock.procs[p], e.answers[p]))
  }

  ghost predicate Fair(e: Peers) {
    Inv(e.lock) && AllCandidates(e)
  }

  lemma Appended(answers: seq<bool>, b: bool)
    requires Settled(answers) && (b ==> false !in answers)
    ensures Settled(answers + [b]) && (false in answers + [b] <==> false in answers || !b)
  {
  }

  /** The answer p has after s, if its attempt is over. */
  function AnswersOf(pr: Proc, answers: seq<bool>): seq<bool> {
    if pr.pc == Idle then answers + [!pr.ret] else answers
  }

  lemma AskFair(s: State, p: Pid, pr: Proc, answers: seq<bool>)
    requires Candidate(pr, answers) && pr.pc == Idle && pr.mode == NoLock
    ensures var pr' := BeginLock(pr, WriteLock, false); Candidate(pr', AnswersOf(pr', answers))
  {
  }

  lemma ProceedFair(s: State, p: Pid, out: Outcome, answers: seq<bool>)
    requires Inv(s) && p in s.procs && CanStep(s, s.procs[p], out)
    requires Candidate(s.procs[p], answers) && forall h | h in s.handles :: h.1 == GATE
    ensures var s' := StepProc(s, p, out);
            && p in s'.procs && Candidate(s'.procs[p], AnswersOf(s'.procs[p], answers))
            && (forall h | h in s'.handles :: h.1 == GATE)
  {
    assert Good(s, p);
    Appended(answers, true);
    Appended(answers, false);
    var pr := s.procs[p];
    match pr.pc
    case Write(Collect(idx), block) =>
      assert !Exists(s, idx);
    case _ =>
  }

  lemma OneMoved(e: Peers, s': State, p: Pid, answers: seq<bool>)
    requires AllCandidates(e) && p in e.lock.procs && p in s'.procs
    requires s'.procs == e.lock.procs[p := s'.procs[p]]
    requires forall h | h in s'.handles :: h.1 == GATE
    requires Candidate(s'.procs[p], answers)
    ensures AllCandidates(Peers(s', e.answers[p := answers]))
  {
  }

  lemma AnsweredIs(e: Peers, s': State, p: Pid)
    requires p in e.answers && p in s'.procs
    ensures Answered(e, s', p) == Peers(s', e.answers[p := AnswersOf(s'.procs[p], e.answers[p])])
  {
  }

  lemma AttemptKeepsFair(e: Peers, p: Pid)
    requires Fair(e) && CanHappen(e, Ask(p)) && e.lock.procs[p].mode == NoLock
    ensures Fair(Happen(e, Ask(p)))
  {
    var pr, s' := e.lock.procs[p], Next(e.lock, Lock(p, WriteLock, false));
    assert Candidate(pr, e.answers[p]);
    NextKeepsInv(e.lock, Lock(p, WriteLock, false));
    AskFair(e.lock, p, pr, e.answers[p]);
    AnsweredIs(e, s', p);
    OneMoved(e, s', p, AnswersOf(s'.procs[p], e.answers[p]));
  }

  lemma AskKeepsFair(e: Peers, p: Pid)
    requires Fair(e) && CanHappen(e, Ask(p))
    ensures Fair(Happen(e, Ask(p)))
  {
    var pr := e.lock.procs[p];
    if pr.mode == NoLock {
      AttemptKeepsFair(e, p);
    } else {
      assert Candidate(pr, e.answers[p]);
      Appended(e.answers[p], false);
      assert e.lock.procs == e.lock.procs[p := pr];
      OneMoved(e, e.lock, p, e.answers[p] + [false]);
    }
  }

  lemma ProceedKeepsFair(e: Peers, p: Pid, out: Outcome)
    requires Fair(e) && p in e.answers && p in e.lock.procs && CanStep(e.lock, e.lock.procs[p], out)
    ensures Fair(Answered(e, StepProc(e.lock, p, out), p))
  {
    var s' := StepProc(e.lock, p, out);
    assert Candidate(e.lock.procs[p], e.answers[p]);
    StepKept(e.lock, p, out);
    ProceedFair(e.lock, p, out, e.answers[p]);
    Theorems.FrameOfStep(e.lock, p, out);
    FramedProcs(e.lock, s', p);
    AnsweredIs(e, s', p);
    OneMoved(e, s', p, AnswersOf(s'.procs[p], e.answers[p]));
  }

  lemma LaunchKeepsFair(e: Peers, p: Pid, open: bool)
    requires Fair(e) && CanHappen(e, Launch(p, open))
    ensures Fair(Happen(e, Launch(p, open)))
  {
    StartKept(e.lock, p, open);
    OneMore(e, p, open);
  }

  lemma OneMore(e: Peers, p: Pid, open: bool)
    requires AllCandidates(e) && CanHappen(e, Launch(p, open))
    ensures AllCandidates(Happen(e, Launch(p, open)))
  {
  }

  lemma QuitKeepsFair(e: Peers, p: Pid)
    requires Fair(e) && CanHappen(e, Quit(p))
    ensures Fair(Happen(e, Quit(p)))
  {
    ExitKept(e.lock, p);
  }

  lemma HappenKeepsFair(e: Peers, ev: Event)
    requires Fair(e) && CanHappen(e, ev)
    ensures Fair(Happen(e, ev))
  {
    match ev
    case Launch(p, open) => LaunchKeepsFair(e, p, open);
    case Quit(p) => QuitKeepsFair(e, p);
    case Ask(p) => AskKeepsFair(e, p);
    case Proceed(p, out) => ProceedKeepsFair(e, p, out);
  }

  lemma {:induction false} HistoryFair(e: Peers, evs: seq<Event>)
    requires Fair(e) && History(e, evs)
    ensures Fair(After(e, evs))
    decreases |evs|
  {
    if evs != [] {
      HappenKeepsFair(e, evs[0]);
      HistoryFair(Happen(e, evs[0]), evs[1..]);
    }
  }

  // ---------- the election ----------

  /** Whatever happens, at most one live process has ever been told that it is not a client, and that answer
    * never changes for it.
    */
  lemma OneInstance(evs: seq<Event>, p: Pid, q: Pid)
    requires History(NOBODY, evs)
    requires p in After(NOBODY, evs).answers && q in After(NOBODY, evs).answers
    ensures var e := After(NOBODY, evs);
            && Settled(e.answers[p])
            && (false in e.answers[p] && false in e.answers[q] ==> p == q)
  {
    HistoryFair(NOBODY, evs);
    var e := After(NOBODY, evs);
    assert Candidate(e.lock.procs[p], e.answers[p]) && Candidate(e.lock.procs[q], e.answers[q]);
    if false in e.answers[p] && false in e.answers[q] && p != q {
      Theorems.WriterOwnsGate(e.lock, p);
      Theorems.WriterOwnsGate(e.lock, q);
      assert false;
    }
  }

  /** w holds the write lock, or is past the gate on its way to it. */
  predicate Winning(s: State, w: Pid) {
    w in s.procs && (s.procs[w].pc.Write? || (s.procs[w].pc == Idle && s.procs[w].mode == WriteLock))
  }

  /** An immediate answer true means that the lock file is not open. */
  lemma AskLoses(e: Peers, p: Pid)
    requires Fair(e) && CanHappen(e, Ask(p)) && Happen(e, Ask(p)).answers[p] == e.answers[p] + [true]
    ensures !e.lock.procs[p].open
  {
    assert (e.answers[p] + [true])[|e.answers[p]|];
    assert Candidate(e.lock.procs[p], e.answers[p]);
  }

  /** A process answered true without any system error has lost to another live process, which at that
    * moment holds the lock or is just obtaining it.
    */
  lemma ProceedLoses(e: Peers, p: Pid, out: Outcome)
    requires Fair(e) && CanHappen(e, Proceed(p, out)) && out != Error
    requires Happen(e, Proceed(p, out)).answers[p] == e.answers[p] + [true]
    ensures GATE in e.lock.owner && e.lock.owner[GATE] != p && Winning(e.lock, e.lock.owner[GATE])
  {
    assert Good(e.lock, p);
    assert Candidate(e.lock.procs[p], e.answers[p]);
    assert (e.answers[p] + [true])[|e.answers[p]|];
    var pr' := Happen(e, Proceed(p, out)).lock.procs[p];
    assert pr'.pc == Idle && !pr'.ret;
    if GATE in e.lock.owner {
      var w := e.lock.owner[GATE];
      assert Good(e.lock, w);
      assert Owns(e.lock.procs[w], GATE) && Candidate(e.lock.procs[w], e.answers[w]);
    }
  }

  // ---------- who wins ----------

  /** The rest of an attempt, without interruption and without errors. */
  ghost predicate OnlyProceeds(evs: seq<Event>, p: Pid) {
    forall ev | ev in evs :: ev == Proceed(p, Normal)
  }

  lemma HistoryNext(e: Peers, ev: Event, rest: seq<Event>)
    requires CanHappen(e, ev) && History(Happen(e, ev), rest)
    ensures History(e, [ev] + rest) && After(e, [ev] + rest) == After(Happen(e, ev), rest)
  {
    assert ([ev] + rest)[1..] == rest;
  }

  lemma IsProceed(e: Peers, p: Pid)
    requires p in e.answers && p in e.lock.procs && CanStep(e.lock, e.lock.procs[p], Normal)
    ensures CanHappen(e, Proceed(p, Normal))
    ensures Happen(e, Proceed(p, Normal)) == Answered(e, StepProc(e.lock, p, Normal), p)
  {
  }

  /** An answer is given only when the attempt is over. */
  lemma NotYet(e: Peers, s: State, t: State, p: Pid)
    requires p in e.answers && p in s.procs && s.procs[p].pc != Idle
    ensures var e' := Answered(e, s, p); e'.lock == s && p in e'.answers && Answered(e', t, p) == Answered(e, t, p)
  {
  }

  /** One step of an attempt that goes on. */
  lemma OneStep(e: Peers, p: Pid) returns (s: State)
    requires Fair(e) && p in e.answers && p in e.lock.procs && CanStep(e.lock, e.lock.procs[p], Normal)
    ensures s == StepProc(e.lock, p, Normal) && Inv(s) && p in s.procs && Fair(Answered(e, s, p))
    ensures Calls.Progress.Weight(s.procs[p]) < Calls.Progress.Weight(e.lock.procs[p])
    ensures Calls.RunOn(e.lock, p) == Calls.RunOn(s, p) && (s.procs[p].pc == Idle ==> Calls.RunOn(s, p) == s)
  {
    Calls.Advances(e.lock, p);
    ProceedKeepsFair(e, p, Normal);
    s := StepProc(e.lock, p, Normal);
    if s.procs[p].pc == Idle { Stops(s, p); }
  }

  lemma Stops(s: State, p: Pid)
    requires Inv(s) && p in s.procs && !CanStep(s, s.procs[p], Normal)
    ensures Calls.RunOn(s, p) == s
  {
  }

  lemma ProceedMore(e: Peers, p: Pid, s: State, rest: seq<Event>)
    requires p in e.answers && p in e.lock.procs && CanStep(e.lock, e.lock.procs[p], Normal)
    requires s == StepProc(e.lock, p, Normal) && History(Answered(e, s, p), rest) && OnlyProceeds(rest, p)
    ensures var evs := [Proceed(p, Normal)] + rest;
            OnlyProceeds(evs, p) && History(e, evs) && After(e, evs) == After(Answered(e, s, p), rest)
  {
    IsProceed(e, p);
    HistoryNext(e, Proceed(p, Normal), rest);
  }

  lemma {:induction false} ProceedsOn(e: Peers, p: Pid) returns (evs: seq<Event>)
    requires Fair(e) && p in e.answers && p in e.lock.procs && e.lock.procs[p].pc != Idle
    ensures OnlyProceeds(evs, p) && History(e, evs)
    ensures var t := Calls.RunOn(e.lock, p);
            p in t.procs && (t.procs[p].pc == Idle ==> After(e, evs) == Answered(e, t, p))
    decreases Calls.Progress.Weight(e.lock.procs[p])
  {
    evs := [];
    if !CanStep(e.lock, e.lock.procs[p], Normal) {
      Stops(e.lock, p);
    } else {
      var s := OneStep(e, p);
      if s.procs[p].pc != Idle {
        NotYet(e, s, Calls.RunOn(s, p), p);
        evs := ProceedsOn(Answered(e, s, p), p);
      }
      ProceedMore(e, p, s, evs);
      evs := [Proceed(p, Normal)] + evs;
    }
  }

  /** In the election nobody reads, so only the gate can be in the way. */
  lemma OnlyGateBlocks(e: Peers, p: Pid)
    requires Fair(e) && p in e.lock.procs
    ensures Calls.Obtainable(e.lock, p, WriteLock) <==> !Calls.Taken(e.lock, p, GATE)
  {
    if !Calls.Taken(e.lock, p, GATE) {
      Calls.RoomToWrite(e.lock, p);
      if n :| IsSlot(n) && Calls.Taken(e.lock, p, n) {
        Calls.NoHandleFree(e.lock, p, n);
      }
    }
  }

  lemma AskBegins(e: Peers, p: Pid) returns (e': Peers)
    requires CanHappen(e, Ask(p)) && e.lock.procs[p].mode == NoLock && e.lock.procs[p].open
    ensures e' == Happen(e, Ask(p)) && e'.answers == e.answers
    ensures e'.lock == Next(e.lock, Lock(p, WriteLock, false)) && e'.lock.procs[p].pc != Idle
  {
    e' := Happen(e, Ask(p));
  }

  lemma AskAtOnce(e: Peers, p: Pid)
    requires Fair(e) && CanHappen(e, Ask(p)) && (e.lock.procs[p].mode != NoLock || !e.lock.procs[p].open)
    ensures Happen(e, Ask(p)).answers == e.answers[p := e.answers[p] + [e.lock.procs[p].mode != WriteLock]]
  {
    assert Candidate(e.lock.procs[p], e.answers[p]);
  }

  /** A process that asks without being interrupted is told that it is a client exactly when it does not hold the lock
    * yet and either its lock file is not open or another process is in the gate.
    */
  lemma AskAnswers(e: Peers, p: Pid) returns (evs: seq<Event>)
    requires Fair(e) && CanHappen(e, Ask(p))
    ensures OnlyProceeds(evs, p) && History(e, [Ask(p)] + evs)
    ensures var pr := e.lock.procs[p];
            var client := pr.mode != WriteLock && (!pr.open || Calls.Taken(e.lock, p, GATE));
            After(e, [Ask(p)] + evs).answers == e.answers[p := e.answers[p] + [client]]
  {
    evs := [];
    if e.lock.procs[p].mode != NoLock || !e.lock.procs[p].open {
      AskAtOnce(e, p);
      assert Candidate(e.lock.procs[p], e.answers[p]);
    } else {
      AskKeepsFair(e, p);
      var e' := AskBegins(e, p);
      evs := ProceedsOn(e', p);
      Calls.LockAlone(e.lock, p, WriteLock, false);
      OnlyGateBlocks(e, p);
    }
    HistoryNext(e, Ask(p), evs);
  }
}
