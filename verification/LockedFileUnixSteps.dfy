/** QtLockedFile on Unix as a step system: one fcntl() record lock over the whole file, kept by the kernel per
  * process (IEEE Std 1003.1-2008, System Interfaces, chapter 3, fcntl() and close()). Every fcntl() is one atomic
  * step and may fail or be interrupted; between any two of them every other process may act, end or crash.
  */
module LockedFileUnixSteps {
  import opened RwLock

  datatype Request = Request(mode: LockMode, block: bool)

  /** What follows the release of the current lock: unlock() returns, or lock() goes on whatever it returned. */
  datatype After = Return | Then(req: Request)

  datatype Pc = Idle | Release(after: After) | Set(req: Request)

  /** One process with its lock object. `asked` is the mode of the last lock() call that found the file open, `ret`
    * what the last call returned, and `failed` whether its release failed. No step reads `stale`: the file was
    * closed while locked, and the mode has not been assigned since.
    */
  datatype Proc = Proc(open: bool, mode: LockMode, pc: Pc, asked: LockMode, ret: bool, failed: bool, stale: bool)

  /** The live processes, and the kernel's record locks on the file. */
  datatype State = State(procs: map<Pid, Proc>, locks: Holders)

  datatype Outcome = Normal | Error

  datatype Action =
    | Start(p: Pid, open: bool)
    | Exit(p: Pid)
    | Open(p: Pid)
    | Close(p: Pid)
    | Lock(p: Pid, mode: LockMode, block: bool)
    | Unlock(p: Pid)
    | Step(p: Pid, out: Outcome)

  const INIT := State(map[], map[])

  function Put(s: State, p: Pid, pr: Proc): State {
    s.(procs := s.procs[p := pr])
  }

  function Returns(pr: Proc, result: bool): Proc {
    pr.(pc := Idle, ret := result)
  }

  function BeginUnlock(pr: Proc): Proc {
    if !pr.open then Returns(pr, false)
    else if pr.mode == NoLock then Returns(pr, true)
    else pr.(pc := Release(Return))
  }

  function BeginLock(pr: Proc, mode: LockMode, block: bool): Proc {
    if !pr.open then Returns(pr, false).(asked := NoLock)
    else if mode == NoLock then BeginUnlock(pr.(asked := NoLock))
    else
      var pr := pr.(asked := mode, failed := false);
      if mode == pr.mode then Returns(pr, true)
      else if pr.mode != NoLock then pr.(pc := Release(Then(Request(mode, block))))
      else pr.(pc := Set(Request(mode, block)))
  }

  function Continue(pr: Proc, after: After, released: bool): Proc {
    match after
    case Return => Returns(pr, released)
    case Then(req) => pr.(pc := Set(req))
  }

  /** Setting a lock replaces what the process has. It fails on a conflict and on any error. */
  function StepProc(s: State, p: Pid, out: Outcome): State
    requires p in s.procs
  {
    var pr := s.procs[p];
    match pr.pc
    case Idle => s
    case Release(after) =>
      if out == Normal then
        State(s.procs[p := Continue(pr.(mode := NoLock, stale := false), after, true)], s.locks[p := NoLock])
      else Put(s, p, Continue(pr.(failed := true), after, false))
    case Set(req) =>
      if out == Normal && Compatible(s.locks, p, req.mode) then
        State(s.procs[p := Returns(pr.(mode := req.mode, stale := false), true)], s.locks[p := req.mode])
      else Put(s, p, Returns(pr, false))
  }

  /** A waiting fcntl() that meets a conflict only returns with an error, by being interrupted for instance. */
  predicate CanStep(s: State, p: Pid, out: Outcome) {
    p in s.procs &&
    match s.procs[p].pc
    case Idle => false
    case Release(_) => true
    case Set(req) => out == Error || !req.block || Compatible(s.locks, p, req.mode)
  }

  predicate Enabled(s: State, a: Action) {
    match a
    case Start(p, _) => p !in s.procs
    case Exit(p) => p in s.procs
    case Step(p, out) => CanStep(s, p, out)
    case _ => a.p in s.procs && s.procs[a.p].pc == Idle
  }

  /** QFile::close(), which the class does not override: the kernel drops the lock, the object does not notice. */
  function Closed(s: State, p: Pid): State
    requires p in s.procs
  {
    var pr := s.procs[p];
    if !pr.open then s
    else State(s.procs[p := pr.(open := false, stale := pr.stale || pr.mode != NoLock)], s.locks[p := NoLock])
  }

  function Next(s: State, a: Action): State
    requires Enabled(s, a)
  {
    match a
    case Start(p, open) =>
      State(s.procs[p := Proc(open, NoLock, Idle, NoLock, false, false, false)], s.locks[p := NoLock])
    case Exit(p) => State(s.procs - {p}, s.locks - {p})
    case Open(p) => Put(s, p, s.procs[p].(open := true))
    case Close(p) => Closed(s, p)
    case Lock(p, mode, block) => Put(s, p, BeginLock(s.procs[p], mode, block))
    case Unlock(p) => Put(s, p, BeginUnlock(s.procs[p].(asked := NoLock)))
    case Step(p, out) => StepProc(s, p, out)
  }

  /** A whole lock() call of p: release and set are the outcomes of its two possible fcntl() calls, and between is
    * what the other processes have made of the kernel's locks when the second of both is due.
    */
  function LockCall(pr: Proc, locks: Holders, p: Pid, mode: LockMode, block: bool, release: Outcome,
                    between: Holders, setting: Outcome): State
  {
    var called := BeginLock(pr, mode, block);
    var s := State(map[p := called], locks);
    match called.pc
    case Idle => s
    case Set(_) => StepProc(s, p, setting)
    case Release(Return) => StepProc(s, p, release)
    case Release(Then(_)) => StepProc(StepProc(s, p, release).(locks := between), p, setting)
  }

  predicate Possible(s: State, acts: seq<Action>)
    decreases |acts|
  {
    acts == [] || (Enabled(s, acts[0]) && Possible(Next(s, acts[0]), acts[1..]))
  }

  function Exec(s: State, acts: seq<Action>): State
    requires Possible(s, acts)
    decreases |acts|
  {
    if acts == [] then s else Exec(Next(s, acts[0]), acts[1..])
  }

  // ---------- the invariant ----------

  /** The mode is what the kernel has, but for a stale one, of which the kernel has nothing. */
  predicate Honest(pr: Proc, held: LockMode) {
    if pr.stale then pr.mode != NoLock && held == NoLock else pr.mode == held
  }

  predicate Local(pr: Proc) {
    match pr.pc
    case Idle =>
      pr.asked != NoLock ==> (pr.ret <==> pr.mode == pr.asked) && (!pr.ret && !pr.failed ==> pr.mode == NoLock)
    case Release(after) =>
      pr.open && pr.mode != NoLock
      && if after.Return? then pr.asked == NoLock
         else after.req.mode == pr.asked && pr.asked !in {NoLock, pr.mode}
    case Set(req) =>
      pr.open && req.mode == pr.asked && pr.asked !in {NoLock, pr.mode} && (!pr.failed ==> pr.mode == NoLock)
  }

  predicate Good(s: State, p: Pid) {
    && (p in s.procs <==> p in s.locks)
    && (p in s.procs ==> Honest(s.procs[p], s.locks[p]) && Local(s.procs[p]))
  }

  ghost predicate Inv(s: State) {
    Exclusive(s.locks) && forall p: Pid :: Good(s, p)
  }

  /** Every action is a step of the readers/writer contract by its own process, or invisible to it. */
  lemma Refines(s: State, a: Action)
    requires Inv(s) && Enabled(s, a)
    ensures SpecStep(s.locks, Next(s, a).locks, a.p)
  {
    assert Good(s, a.p);
  }

  lemma OthersUntouched(s: State, a: Action, q: Pid)
    requires Enabled(s, a) && q != a.p
    ensures q in Next(s, a).procs <==> q in s.procs
    ensures q in Next(s, a).locks <==> q in s.locks
    ensures q in s.procs ==> Next(s, a).procs[q] == s.procs[q]
    ensures q in s.locks ==> Next(s, a).locks[q] == s.locks[q]
  {
  }

  lemma StepKept(s: State, p: Pid, out: Outcome)
    requires CanStep(s, p, out) && Good(s, p)
    ensures Good(StepProc(s, p, out), p)
  {
  }

  lemma CallKept(s: State, p: Pid, mode: LockMode, block: bool)
    requires p in s.procs && s.procs[p].pc == Idle && Good(s, p)
    ensures Good(Put(s, p, BeginLock(s.procs[p], mode, block)), p)
    ensures Good(Put(s, p, BeginUnlock(s.procs[p].(asked := NoLock))), p)
  {
  }

  lemma ActorKept(s: State, a: Action)
    requires Enabled(s, a) && Good(s, a.p)
    ensures Good(Next(s, a), a.p)
  {
    match a
    case Step(p, out) => StepKept(s, p, out);
    case Lock(p, mode, block) => CallKept(s, p, mode, block);
    case Unlock(p) => CallKept(s, p, NoLock, false);
    case _ =>
  }

  lemma NextKeepsInv(s: State, a: Action)
    requires Inv(s) && Enabled(s, a)
    ensures Inv(Next(s, a))
  {
    Refines(s, a);
    SpecStepKeepsExclusive(s.locks, Next(s, a).locks, a.p);
    var s' := Next(s, a);
    assert Good(s, a.p);
    ActorKept(s, a);
    forall q: Pid
      ensures Good(s', q)
    {
      if q != a.p {
        OthersUntouched(s, a, q);
        assert Good(s, q);
      }
    }
  }

  lemma {:induction false} RunKeepsInv(s: State, acts: seq<Action>)
    requires Inv(s) && Possible(s, acts)
    ensures Inv(Exec(s, acts))
    decreases |acts|
  {
    if acts != [] {
      NextKeepsInv(s, acts[0]);
      RunKeepsInv(Next(s, acts[0]), acts[1..]);
    }
  }

  // ---------- the contract ----------

  /** A mode is stale exactly from a close() of a locked file on, for as long as it is not assigned. */
  lemma StaleMeans(s: State, a: Action, p: Pid)
    requires Inv(s) && Enabled(s, a) && p in s.procs && p in Next(s, a).procs
    ensures var pr, pr' := s.procs[p], Next(s, a).procs[p];
            pr'.stale <==> (a == Close(p) && pr.open && pr.mode != NoLock) || (pr.stale && pr'.mode == pr.mode)
  {
    assert Good(s, p);
    if a.p == p {
      ActorStale(s, a);
    } else {
      OthersUntouched(s, a, p);
    }
  }

  lemma ActorStale(s: State, a: Action)
    requires Enabled(s, a) && a.p in s.procs && a.p in Next(s, a).procs && Good(s, a.p)
    ensures var pr, pr' := s.procs[a.p], Next(s, a).procs[a.p];
            pr'.stale <==> (a.Close? && pr.open && pr.mode != NoLock) || (pr.stale && pr'.mode == pr.mode)
  {
  }

  predicate HasMode(s: State, p: Pid, m: LockMode) {
    p in s.procs && s.procs[p].mode == m
  }

  /** Action k closed the file of p with the mode m != NoLock, and p has lived on with that mode ever since. */
  ghost predicate Kept(acts: seq<Action>, p: Pid, k: nat, m: LockMode) {
    && k < |acts| && acts[k] == Close(p) && m != NoLock
    && Possible(INIT, acts[..k]) && HasMode(Exec(INIT, acts[..k]), p, m) && Exec(INIT, acts[..k]).procs[p].open
    && forall j | k < j <= |acts| :: Possible(INIT, acts[..j]) && HasMode(Exec(INIT, acts[..j]), p, m)
  }

  ghost predicate ClosedLocked(acts: seq<Action>, p: Pid) {
    exists k, m :: Kept(acts, p, k, m)
  }

  lemma {:induction false} LastStep(s: State, acts: seq<Action>)
    requires Possible(s, acts) && acts != []
    ensures var n := |acts| - 1;
            && Possible(s, acts[..n]) && Enabled(Exec(s, acts[..n]), acts[n])
            && Exec(s, acts) == Next(Exec(s, acts[..n]), acts[n])
    decreases |acts|
  {
    if |acts| > 1 {
      LastStep(Next(s, acts[0]), acts[1..]);
      assert acts[..|acts| - 1][1..] == acts[1..][..|acts| - 2];
    }
  }

  lemma KeptOn(acts: seq<Action>, p: Pid, k: nat, m: LockMode)
    requires Possible(INIT, acts) && k + 1 < |acts|
    ensures Kept(acts, p, k, m) <==> Kept(acts[..|acts| - 1], p, k, m) && HasMode(Exec(INIT, acts), p, m)
  {
    var init := acts[..|acts| - 1];
    assert acts[..|acts|] == acts && init[..k] == acts[..k];
    assert forall j | k < j <= |init| :: init[..j] == acts[..j];
    if Kept(init, p, k, m) && HasMode(Exec(INIT, acts), p, m) {
      forall j | k < j <= |acts|
        ensures Possible(INIT, acts[..j]) && HasMode(Exec(INIT, acts[..j]), p, m)
      {
        if j <= |init| { assert init[..j] == acts[..j]; }
      }
    }
  }

  /** The history variable says what it should. */
  lemma {:induction false} StaleHistory(acts: seq<Action>, p: Pid)
    requires Possible(INIT, acts) && p in Exec(INIT, acts).procs
    ensures Exec(INIT, acts).procs[p].stale <==> ClosedLocked(acts, p)
    decreases |acts|
  {
    if acts != [] {
      var n := |acts| - 1;
      LastStep(INIT, acts);
      var s, a, s' := Exec(INIT, acts[..n]), acts[n], Exec(INIT, acts);
      RunKeepsInv(INIT, acts[..n]);
      assert acts[..|acts|] == acts;
      if p in s.procs {
        StaleMeans(s, a, p);
        StaleHistory(acts[..n], p);
      }
      if s'.procs[p].stale {
        if a == Close(p) && s.procs[p].open && s.procs[p].mode != NoLock {
          assert Kept(acts, p, n, s.procs[p].mode);
        } else {
          var k: nat, m :| Kept(acts[..n], p, k, m);
          assert acts[..n][..n] == acts[..n];
          KeptOn(acts, p, k, m);
        }
      }
      if k: nat, m :| Kept(acts, p, k, m) {
        if k < n {
          KeptOn(acts, p, k, m);
          assert acts[..n][..n] == acts[..n];
        }
      }
    }
  }

  /** In every run the remembered mode is the kernel's exactly when the process has not closed the file while it was
    * locked and kept that mode since.
    */
  lemma ModeIsOwnership(acts: seq<Action>, p: Pid)
    requires Possible(INIT, acts) && p in Exec(INIT, acts).procs
    ensures var s := Exec(INIT, acts); p in s.locks && (s.procs[p].mode == s.locks[p] <==> !ClosedLocked(acts, p))
  {
    RunKeepsInv(INIT, acts);
    assert Good(Exec(INIT, acts), p);
    StaleHistory(acts, p);
  }

  /** In every run, crashes included, two processes that have not done so never hold locks beside a writer. */
  lemma MutualExclusion(acts: seq<Action>, p: Pid, q: Pid)
    requires Possible(INIT, acts) && p in Exec(INIT, acts).procs && q in Exec(INIT, acts).procs && p != q
    requires !ClosedLocked(acts, p) && !ClosedLocked(acts, q)
    ensures var s := Exec(INIT, acts); s.procs[p].mode == WriteLock ==> s.procs[q].mode == NoLock
    ensures Exclusive(Exec(INIT, acts).locks)
  {
    RunKeepsInv(INIT, acts);
    ModeIsOwnership(acts, p);
    ModeIsOwnership(acts, q);
  }

  /** A lock(m) call that found the file open has returned true exactly when m is the mode; after false and no
    * failed release neither the object nor the kernel has a lock.
    */
  lemma LockReturns(acts: seq<Action>, p: Pid)
    requires Possible(INIT, acts) && p in Exec(INIT, acts).procs
    requires var pr := Exec(INIT, acts).procs[p]; pr.pc == Idle && pr.asked != NoLock
    ensures var s := Exec(INIT, acts); var pr := s.procs[p];
            && p in s.locks
            && (pr.ret <==> pr.mode == pr.asked)
            && (!pr.ret && !pr.failed ==> pr.mode == NoLock && s.locks[p] == NoLock)
            && (pr.ret && !pr.stale ==> s.locks[p] == pr.asked)
  {
    RunKeepsInv(INIT, acts);
    assert Good(Exec(INIT, acts), p);
  }

  /** The state in which a lock() call of p is about to set its lock, a lock of its own having been released. */
  function Setting(s: State, p: Pid, mode: LockMode, block: bool): State
    requires Enabled(s, Lock(p, mode, block)) && s.procs[p].open && mode !in {NoLock, s.procs[p].mode}
  {
    var called := Next(s, Lock(p, mode, block));
    if s.procs[p].mode == NoLock then called else Next(called, Step(p, Normal))
  }

  lemma SettingIs(s: State, p: Pid, mode: LockMode, block: bool)
    requires Inv(s) && Enabled(s, Lock(p, mode, block)) && s.procs[p].open && mode !in {NoLock, s.procs[p].mode}
    ensures var t := Setting(s, p, mode, block);
            && p in t.procs && t.procs[p].pc == Set(Request(mode, block)) && t.procs[p].mode == NoLock
            && p in s.locks && t.locks == s.locks[p := NoLock]
  {
    assert Good(s, p);
    if s.procs[p].mode == NoLock {
      assert s.locks == s.locks[p := NoLock];
    }
  }

  lemma SameConflicts(h: Holders, p: Pid, m: LockMode, mode: LockMode)
    requires p in h
    ensures Compatible(h[p := m], p, mode) <==> Compatible(h, p, mode)
  {
    var h' := h[p := m];
    assert forall q | q in h && q != p :: q in h' && h'[q] == h[q];
    assert forall q | q in h' && q != p :: q in h && h'[q] == h[q];
  }

  /** lock() of an open file for a mode that p does not have, nobody else acting meanwhile: a call that may block and
    * meets a conflict has no normal step, whether p had a lock to release or not; any other obtains the lock exactly
    * when there is no conflict.
    */
  lemma LockAlone(s: State, p: Pid, mode: LockMode, block: bool)
    requires Inv(s) && Enabled(s, Lock(p, mode, block)) && s.procs[p].open && mode !in {NoLock, s.procs[p].mode}
    ensures var t := Setting(s, p, mode, block);
            && p in t.procs && t.procs[p].pc != Idle
            && (CanStep(t, p, Normal) <==> !block || Compatible(s.locks, p, mode))
            && (CanStep(t, p, Normal) ==>
                  var u := Next(t, Step(p, Normal));
                  && p in u.procs && u.procs[p].pc == Idle
                  && (u.procs[p].ret <==> Compatible(s.locks, p, mode))
                  && u.procs[p].mode == (if u.procs[p].ret then mode else NoLock)
                  && u.locks == s.locks[p := u.procs[p].mode])
  {
    SettingIs(s, p, mode, block);
    SameConflicts(s.locks, p, NoLock, mode);
    assert s.locks[p := NoLock][p := mode] == s.locks[p := mode];
  }

  /** While p waits, whatever the others do, it stays where it is, and it can go on exactly when no lock of another
    * process conflicts.
    */
  lemma {:induction false} WaitLasts(s: State, acts: seq<Action>, p: Pid, req: Request)
    requires p in s.procs && s.procs[p].pc == Set(req) && req.block
    requires Possible(s, acts) && forall a | a in acts :: a.p != p
    ensures var u := Exec(s, acts);
            && p in u.procs && u.procs[p] == s.procs[p]
            && (CanStep(u, p, Normal) <==> Compatible(u.locks, p, req.mode))
    decreases |acts|
  {
    if acts != [] {
      assert acts[0] in acts;
      OthersUntouched(s, acts[0], p);
      WaitLasts(Next(s, acts[0]), acts[1..], p, req);
    }
  }

  // ---------- a stale lock beside a real one ----------

  lemma {:induction false} ExecAppend(s: State, acts: seq<Action>, a: Action)
    requires Possible(s, acts) && Enabled(Exec(s, acts), a)
    ensures Possible(s, acts + [a]) && Exec(s, acts + [a]) == Next(Exec(s, acts), a)
    decreases |acts|
  {
    if acts == [] {
      assert [a][1..] == [];
    } else {
      assert (acts + [a])[1..] == acts[1..] + [a];
      ExecAppend(Next(s, acts[0]), acts[1..], a);
    }
  }

  /** Some run leads to s. The Windows lock has these members too: its states and actions are other types. */
  ghost predicate Reachable(s: State) {
    exists acts :: Possible(INIT, acts) && Exec(INIT, acts) == s
  }

  lemma Reach(s: State, a: Action, s': State)
    requires Reachable(s) && Enabled(s, a) && s' == Next(s, a)
    ensures Reachable(s')
  {
    var acts :| Possible(INIT, acts) && Exec(INIT, acts) == s;
    ExecAppend(INIT, acts, a);
  }

  const NEW := Proc(true, NoLock, Idle, NoLock, false, false, false)
  const ASKING := Proc(true, NoLock, Set(Request(WriteLock, false)), WriteLock, false, false, false)
  const WRITER := Proc(true, WriteLock, Idle, WriteLock, true, false, false)
  const STALE := WRITER.(stale := true)

  lemma WriterReached()
    ensures Reachable(State(map[1 := WRITER], map[1 := WriteLock]))
  {
    assert Possible(INIT, []) && Exec(INIT, []) == INIT;
    var started, asked := State(map[1 := NEW], map[1 := NoLock]), State(map[1 := ASKING], map[1 := NoLock]);
    Reach(INIT, Start(1, true), started);
    Reach(started, Lock(1, WriteLock, false), asked);
    Reach(asked, Step(1, Normal), State(map[1 := WRITER], map[1 := WriteLock]));
  }

  function Beside(pr: Proc, held: LockMode): State {
    State(map[1 := STALE, 2 := pr], map[1 := NoLock, 2 := held])
  }

  lemma StaleReached()
    requires Reachable(State(map[1 := WRITER], map[1 := WriteLock]))
    ensures Reachable(Beside(NEW, NoLock))
  {
    var locked, start := State(map[1 := WRITER], map[1 := WriteLock]), State(map[1 := STALE], map[1 := NoLock]);
    var closed := State(map[1 := STALE.(open := false)], map[1 := NoLock]);
    Reach(locked, Close(1), closed);
    Reach(closed, Open(1), start);
    Reach(start, Start(2, true), Beside(NEW, NoLock));
  }

  lemma SecondLocks()
    requires Reachable(Beside(NEW, NoLock))
    ensures Reachable(Beside(WRITER, WriteLock))
  {
    Reach(Beside(NEW, NoLock), Lock(2, WriteLock, false), Beside(ASKING, NoLock));
    Reach(Beside(ASKING, NoLock), Step(2, Normal), Beside(WRITER, WriteLock));
  }

  /** A reachable state in which two processes both have an open file and the mode WriteLock. */
  lemma TwoWriters()
    ensures Reachable(Beside(WRITER, WriteLock)) && STALE.open && STALE.mode == WRITER.mode == WriteLock
  {
    WriterReached();
    StaleReached();
    SecondLocks();
  }
}
