/** The Windows lock cannot deadlock, as long as nobody closes a file it holds locked. While no new lock() call starts
  * every run is finite, and without any error it can go on until every call has returned and every lock is
  * released; in particular a reader that asks for the write lock cannot block itself or a waiting writer for ever.
  */
module LockedFileWinProgress {
  import opened RwLock
  import opened LockedFileWin
  import opened LockedFileWinSafety
  import opened LockedFileWinTheorems

  /** Carrying on with a call, or unlocking what is held. */
  predicate Finishing(s: State, a: Action) {
    && Enabled(s, a)
    && (a.Step? || (a.Unlock? && s.procs[a.p].open && s.procs[a.p].mode != NoLock))
  }

  predicate FinishingRun(s: State, acts: seq<Action>)
    decreases |acts|
  {
    acts == [] || (Finishing(s, acts[0]) && FinishingRun(Next(s, acts[0]), acts[1..]))
  }

  predicate Quiet(s: State) {
    forall p | p in s.procs :: s.procs[p].pc == Idle && s.procs[p].mode == NoLock
  }

  /** The operating system answers as it should: no wait ends in an error. */
  predicate Normally(a: Action) {
    a.Step? ==> a.out == Normal
  }

  /** Whoever holds a lock between calls can unlock it. */
  predicate HoldersOpen(s: State) {
    forall p | p in s.procs && s.procs[p].pc == Idle && s.procs[p].mode != NoLock :: s.procs[p].open
  }

  // ---------- how much is left to do ----------

  function AfterWeight(after: After): nat {
    if after.Then? then 204 else 0
  }

  function Weight(pr: Proc): nat {
    match pr.pc
    case Idle => if pr.mode == NoLock then 0 else if pr.mode == ReadLock then 3 else 2 * |pr.rmutexes| + 2
    case CreateGate(_) => 204
    case WaitGate(_) => 203
    case Read(LeaveGate(_)) => 4
    case Read(DropSlot(_)) => 5
    case Read(TakeSlot(_)) => 6
    case Read(MakeSlot(_)) => 7
    case Read(CloseSlot(idx)) => if idx < MAX_READERS then 3 * (MAX_READERS - idx) + 8 else 8
    case Read(TrySlot(idx)) => if idx < MAX_READERS then 3 * (MAX_READERS - idx) + 9 else 9
    case Read(OpenSlot(idx)) => if idx < MAX_READERS then 3 * (MAX_READERS - idx) + 10 else 10
    case Write(Collect(idx), _) => 2 * |pr.rmutexes| + 3 + if idx < MAX_READERS then 3 * (MAX_READERS - idx) else 0
    case Write(WaitAll, _) => 2 * |pr.rmutexes| + 3
    case Free(ReleaseRead, after) => 2 + AfterWeight(after)
    case Free(CloseRead, after) => 1 + AfterWeight(after)
    case Free(ReleaseEach(todo, _), after) => 2 * |todo| + 1 + AfterWeight(after)
    case Free(CloseEach(todo, _), after) => 2 * |todo| + AfterWeight(after)
    case Free(ReleaseGate(_), after) => 1 + AfterWeight(after)
  }

  predicate Lighter(pr: Proc, pr': Proc) {
    Weight(pr') < Weight(pr) && pr'.open == pr.open
  }

  lemma GateLighter(s: State, p: Pid, pr: Proc, out: Outcome)
    requires p in s.procs && s.procs[p] == pr && (pr.pc.CreateGate? || pr.pc.WaitGate?) && Local(pr)
    ensures Lighter(pr, StepProc(s, p, out).procs[p])
  {
  }

  lemma ReaderLighter(s: State, p: Pid, pr: Proc, r: ReadPc, out: Outcome)
    requires pr.pc == Read(r) && Local(pr)
    ensures Lighter(pr, StepReader(s, p, pr, r, out).procs[p])
  {
  }

  lemma CollectLighter(s: State, p: Pid, pr: Proc, idx: nat, block: bool)
    requires pr.pc == Write(Collect(idx), block) && Local(pr)
    ensures Lighter(pr, StepCollect(s, p, pr, idx, block).procs[p])
  {
  }

  lemma WaitAllLighter(s: State, p: Pid, pr: Proc, block: bool, out: Outcome)
    requires pr.pc == Write(WaitAll, block) && Local(pr)
    ensures Lighter(pr, StepWaitAll(s, p, pr, out).procs[p])
  {
  }

  lemma FreeLighter(s: State, p: Pid, pr: Proc, f: FreePc, after: After)
    requires p in s.procs && pr.pc == Free(f, after) && Local(pr)
    ensures p in StepRelease(s, p, pr, f, after).procs
    ensures Lighter(pr, StepRelease(s, p, pr, f, after).procs[p])
  {
  }

  lemma UnlockLighter(pr: Proc)
    requires pr.pc == Idle && pr.mode != NoLock && pr.open && Local(pr)
    ensures Lighter(pr, BeginUnlock(pr.(asked := NoLock)))
  {
  }

  lemma StepLighter(s: State, p: Pid, out: Outcome)
    requires p in s.procs && Local(s.procs[p]) && CanStep(s, s.procs[p], out)
    ensures p in StepProc(s, p, out).procs && Lighter(s.procs[p], StepProc(s, p, out).procs[p])
  {
    var pr := s.procs[p];
    match pr.pc
    case CreateGate(_) => GateLighter(s, p, pr, out);
    case WaitGate(_) => GateLighter(s, p, pr, out);
    case Read(r) => ReaderLighter(s, p, pr, r, out);
    case Write(Collect(idx), block) => CollectLighter(s, p, pr, idx, block);
    case Write(WaitAll, block) => WaitAllLighter(s, p, pr, block, out);
    case Free(f, after) => FreeLighter(s, p, pr, f, after);
  }

  lemma ActorLighter(s: State, a: Action)
    requires Inv(s) && Finishing(s, a)
    ensures a.p in Next(s, a).procs && Lighter(s.procs[a.p], Next(s, a).procs[a.p])
  {
    assert Good(s, a.p);
    match a
    case Unlock(p) => UnlockLighter(s.procs[p]);
    case Step(p, out) => StepLighter(s, p, out);
  }

  lemma OthersUntouched(s: State, a: Action)
    requires Inv(s) && Finishing(s, a) && a.p in Next(s, a).procs
    ensures Next(s, a).procs == s.procs[a.p := Next(s, a).procs[a.p]]
  {
    match a
    case Unlock(_) =>
    case Step(p, out) =>
      FrameOfStep(s, p, out);
      FramedProcs(s, StepProc(s, p, out), p);
  }

  ghost function Total(m: map<Pid, Proc>): nat {
    if m == map[] then 0
    else
      var p :| p in m;
      Weight(m[p]) + Total(m - {p})
  }

  lemma {:induction false} TotalSplit(m: map<Pid, Proc>, p: Pid)
    requires p in m
    ensures Total(m) == Weight(m[p]) + Total(m - {p})
    decreases |m|
  {
    var q :| q in m && Total(m) == Weight(m[q]) + Total(m - {q});
    if q != p {
      TotalSplit(m - {q}, p);
      TotalSplit(m - {p}, q);
      assert m - {q} - {p} == m - {p} - {q};
    }
  }

  lemma TotalUpdate(m: map<Pid, Proc>, p: Pid, pr: Proc)
    requires p in m && Lighter(m[p], pr)
    ensures Total(m[p := pr]) < Total(m)
  {
    TotalSplit(m, p);
    TotalSplit(m[p := pr], p);
    assert m - {p} == m[p := pr] - {p};
  }

  /** Every finishing action leaves strictly less to do. */
  lemma FinishingLighter(s: State, a: Action)
    requires Inv(s) && Finishing(s, a)
    ensures Total(Next(s, a).procs) < Total(s.procs)
    ensures HoldersOpen(s) ==> HoldersOpen(Next(s, a))
  {
    ActorLighter(s, a);
    OthersUntouched(s, a);
    assert Good(s, a.p);
    TotalUpdate(s.procs, a.p, Next(s, a).procs[a.p]);
  }

  /** No run of finishing actions is longer than the work that was left at its start. */
  lemma {:induction false} FinishingRunsEnd(s: State, acts: seq<Action>)
    requires Inv(s) && FinishingRun(s, acts)
    ensures |acts| + Total(Finished(s, acts).procs) <= Total(s.procs)
    decreases |acts|
  {
    if acts != [] {
      FinishingLighter(s, acts[0]);
      NextKeepsInv(s, acts[0]);
      FinishingRunsEnd(Next(s, acts[0]), acts[1..]);
    }
  }

  function Finished(s: State, acts: seq<Action>): State
    requires FinishingRun(s, acts)
    decreases |acts|
  {
    if acts == [] then s else Finished(Next(s, acts[0]), acts[1..])
  }

  // ---------- somebody can always move ----------

  /** A slot that keeps a writer waiting belongs to a process that is not waiting itself. */
  lemma SlotOwnerMoves(s: State, p: Pid, n: int) returns (a: Action)
    requires Inv(s) && HoldersOpen(s) && p in s.procs && InGate(s.procs[p]) && !Owns(s.procs[p], n)
    requires IsSlot(n) && n in s.owner
    ensures Finishing(s, a) && Normally(a)
  {
    var q := s.owner[n];
    assert Good(s, q);
    assert Owns(s.procs[q], n);
    assert !Owns(s.procs[q], GATE) by {
      assert Good(s, p);
      assert Owns(s.procs[p], GATE);
    }
    a := if s.procs[q].pc == Idle then Unlock(q) else Step(q, Normal);
  }

  lemma GateHolderMoves(s: State, p: Pid) returns (a: Action)
    requires Inv(s) && HoldersOpen(s) && p in s.procs && InGate(s.procs[p])
    ensures Finishing(s, a) && Normally(a)
  {
    var pr := s.procs[p];
    assert Good(s, p);
    if pr.pc == Idle {
      a := Unlock(p);
    } else if pr.pc.Write? && pr.pc.w.WaitAll? && !AllFree(s, pr.rmutexes) && pr.pc.block {
      var n :| n in pr.rmutexes && n in s.owner;
      a := SlotOwnerMoves(s, p, n);
    } else {
      a := Step(p, Normal);
    }
  }

  /** Deadlock freedom: unless all is quiet, some process can carry on with its call or unlock. */
  lemma SomebodyMoves(s: State) returns (a: Action)
    requires Inv(s) && HoldersOpen(s) && !Quiet(s)
    ensures Finishing(s, a) && Normally(a)
  {
    var p :| p in s.procs && !(s.procs[p].pc == Idle && s.procs[p].mode == NoLock);
    var pr := s.procs[p];
    assert Good(s, p);
    if pr.pc == Idle {
      a := Unlock(p);
    } else if pr.pc.WaitGate? && GATE in s.owner {
      var q := s.owner[GATE];
      assert Good(s, q);
      assert Owns(s.procs[q], GATE);
      a := GateHolderMoves(s, q);
    } else if InGate(pr) {
      a := GateHolderMoves(s, p);
    } else {
      a := Step(p, Normal);
    }
  }

  predicate AllNormal(acts: seq<Action>) {
    forall a | a in acts :: Normally(a)
  }

  /** Without any error, the calls in progress can all return and every lock be released. */
  lemma {:induction false} Drains(s: State) returns (acts: seq<Action>)
    requires Inv(s) && HoldersOpen(s)
    ensures FinishingRun(s, acts) && AllNormal(acts) && Quiet(Finished(s, acts))
    decreases Total(s.procs)
  {
    if Quiet(s) {
      acts := [];
    } else {
      var a := SomebodyMoves(s);
      FinishingLighter(s, a);
      NextKeepsInv(s, a);
      var rest := Drains(Next(s, a));
      acts := [a] + rest;
      assert acts[1..] == rest;
    }
  }

  // ---------- files closed while locked ----------

  predicate ClosedHolder(s: State, p: Pid) {
    p in s.procs && s.procs[p].pc == Idle && s.procs[p].mode != NoLock && !s.procs[p].open
  }

  /** Nothing but its own end or opening the file again frees what a closed holder has. */
  lemma {:induction false} ClosedHolderStays(s: State, acts: seq<Action>, p: Pid)
    requires Inv(s) && FinishingRun(s, acts) && ClosedHolder(s, p)
    ensures ClosedHolder(Finished(s, acts), p)
    decreases |acts|
  {
    if acts != [] {
      ActorLighter(s, acts[0]);
      OthersUntouched(s, acts[0]);
      NextKeepsInv(s, acts[0]);
      ClosedHolderStays(Next(s, acts[0]), acts[1..], p);
    }
  }

  /** Exactly when everything can come to rest without an error: no lock is held on a closed file. */
  lemma DrainsExactly(s: State)
    requires Inv(s)
    ensures HoldersOpen(s) <==> exists acts :: FinishingRun(s, acts) && AllNormal(acts) && Quiet(Finished(s, acts))
  {
    if HoldersOpen(s) {
      var acts := Drains(s);
    } else {
      var p :| p in s.procs && s.procs[p].pc == Idle && s.procs[p].mode != NoLock && !s.procs[p].open;
      forall acts | FinishingRun(s, acts) && AllNormal(acts)
        ensures !Quiet(Finished(s, acts))
      {
        ClosedHolderStays(s, acts, p);
      }
    }
  }

  // ---------- a closed holder blocks another process for ever ----------

  lemma {:induction false} ExecAppend(s: State, acts: seq<Action>, a: Action)
    requires Possible(s, acts) && Enabled(Exec(s, acts), a)
    ensures Possible(s, acts + [a]) && Exec(s, acts + [a]) == Next(Exec(s, acts), a)
    decreases |acts|
  {
    if acts == [] {
      assert [a][1..] == [];
    } else {
      assert (acts + [a])[1..] == acts[1..] + [a];
      ExecAppend(Next(s, acts[0]), acts[1..], a);
    }
  }

  /** Some run leads to s. The Unix lock has these members too, over its own states and actions. */
  ghost predicate Reachable(s: State) {
    exists acts :: Possible(INIT, acts) && Exec(INIT, acts) == s
  }

  lemma Reach(s: State, a: Action, s': State)
    requires Reachable(s) && Enabled(s, a) && s' == Next(s, a)
    ensures Reachable(s')
  {
    var acts :| Possible(INIT, acts) && Exec(INIT, acts) == s;
    ExecAppend(INIT, acts, a);
  }

  /** Process 1 alone, owning the gate. */
  function Alone(pr: Proc): State {
    State(map[1 := pr], map[GATE := 1], {(1, GATE)})
  }

  const NEW := Proc(true, NoLock, false, [], [], Idle, NoLock, false)

  /** In its first call, for the write lock. */
  function Calling(pc: Pc): Proc {
    Proc(true, NoLock, !pc.CreateGate?, [], [], pc, WriteLock, false)
  }

  const REQUEST := Request(WriteLock, true)

  function Holding(open: bool): Proc {
    Proc(open, WriteLock, true, [], [], Idle, WriteLock, true)
  }

  lemma ScanBegins()
    ensures Reachable(Alone(Calling(Write(Collect(0), true))))
  {
    assert Possible(INIT, []) && Exec(INIT, []) == INIT;
    var started := State(map[1 := NEW], map[], {});
    var asked := State(map[1 := Calling(CreateGate(REQUEST))], map[], {});
    var waiting := State(map[1 := Calling(WaitGate(REQUEST))], map[], {(1, GATE)});
    Reach(INIT, Start(1, true), started);
    Reach(started, Lock(1, WriteLock, true), asked);
    Reach(asked, Step(1, Normal), waiting);
    Reach(waiting, Step(1, Normal), Alone(Calling(Write(Collect(0), true))));
  }

  lemma {:induction false} ScanEnds(idx: nat)
    requires idx < MAX_READERS && Reachable(Alone(Calling(Write(Collect(idx), true))))
    ensures Reachable(Alone(Holding(true)))
    decreases MAX_READERS - idx
  {
    var s := Alone(Calling(Write(Collect(idx), true)));
    if idx + 1 < MAX_READERS {
      Reach(s, Step(1, Normal), Alone(Calling(Write(Collect(idx + 1), true))));
      ScanEnds(idx + 1);
    } else {
      Reach(s, Step(1, Normal), Alone(Holding(true)));
    }
  }

  /** Process 1 holds the write lock on a closed file; process 2 is at pc in its call for the lock. */
  function Behind(pr: Proc, handles: set<(Pid, int)>): State {
    State(map[1 := Holding(false), 2 := pr], map[GATE := 1], handles)
  }

  const BLOCKED := Behind(Calling(WaitGate(REQUEST)), {(1, GATE), (2, GATE)})

  lemma SecondStarts()
    requires Reachable(Alone(Holding(true)))
    ensures Reachable(Behind(NEW, {(1, GATE)}))
  {
    Reach(Alone(Holding(true)), SetOpen(1, false), Alone(Holding(false)));
    Reach(Alone(Holding(false)), Start(2, true), Behind(NEW, {(1, GATE)}));
  }

  lemma SecondWaits()
    requires Reachable(Behind(NEW, {(1, GATE)}))
    ensures Reachable(BLOCKED)
  {
    Reach(Behind(NEW, {(1, GATE)}), Lock(2, WriteLock, true), Behind(Calling(CreateGate(REQUEST)), {(1, GATE)}));
    Reach(Behind(Calling(CreateGate(REQUEST)), {(1, GATE)}), Step(2, Normal), BLOCKED);
  }

  /** A reachable state in which nobody can move without an error: process 1 has closed its file with the write
    * lock held, process 2 waits for the lock.
    */
  lemma ClosedWriterBlocks()
    ensures Reachable(BLOCKED) && ClosedHolder(BLOCKED, 1) && BLOCKED.procs[2].pc == WaitGate(REQUEST)
    ensures forall a :: !(Finishing(BLOCKED, a) && Normally(a))
  {
    ScanBegins();
    ScanEnds(0);
    SecondStarts();
    SecondWaits();
  }
}
