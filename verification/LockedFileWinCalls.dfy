/** What a call of the Windows lock comes to: whether it obtains the lock, gives up or waits, depending only on what
  * the other processes hold.
  */
module LockedFileWinCalls {
  import opened RwLock
  import opened LockedFileWin
  import opened LockedFileWinSafety
  import opened LockedFileWinTheorems
  import Progress = LockedFileWinProgress

  /** p goes on alone, the system answering as it should, until its call returns or waits. */
  ghost function RunOn(s: State, p: Pid): State
    requires Inv(s) && p in s.procs
    decreases Progress.Weight(s.procs[p])
  {
    if CanStep(s, s.procs[p], Normal) then
      assert Good(s, p);
      StepKept(s, p, Normal);
      Progress.StepLighter(s, p, Normal);
      RunOn(StepProc(s, p, Normal), p)
    else s
  }

  function Steps(p: Pid, n: nat): seq<Action> {
    seq(n, _ => Step(p, Normal))
  }

  lemma StepsOneMore(s: State, p: Pid, m: nat)
    requires p in s.procs && CanStep(s, s.procs[p], Normal) && Possible(StepProc(s, p, Normal), Steps(p, m))
    ensures Possible(s, Steps(p, m + 1)) && Exec(s, Steps(p, m + 1)) == Exec(StepProc(s, p, Normal), Steps(p, m))
  {
    assert Steps(p, m + 1)[1..] == Steps(p, m);
  }

  lemma Advances(s: State, p: Pid)
    requires Inv(s) && p in s.procs && CanStep(s, s.procs[p], Normal)
    ensures var s' := StepProc(s, p, Normal);
            && Inv(s') && p in s'.procs && Progress.Weight(s'.procs[p]) < Progress.Weight(s.procs[p])
            && RunOn(s, p) == RunOn(s', p)
  {
    assert Good(s, p);
    StepKept(s, p, Normal);
    Progress.StepLighter(s, p, Normal);
  }

  /** That is a run of the system. */
  lemma {:induction false} RunOnIsRun(s: State, p: Pid) returns (n: nat)
    requires Inv(s) && p in s.procs
    ensures Possible(s, Steps(p, n)) && Exec(s, Steps(p, n)) == RunOn(s, p)
    decreases Progress.Weight(s.procs[p])
  {
    n := 0;
    if CanStep(s, s.procs[p], Normal) {
      Advances(s, p);
      var m := RunOnIsRun(StepProc(s, p, Normal), p);
      StepsOneMore(s, p, m);
      n := m + 1;
    }
  }

  // ---------- what stands in the way ----------

  /** Another process owns n. */
  predicate Taken(s: State, p: Pid, n: int) {
    n in s.owner && s.owner[n] != p
  }

  ghost predicate SameTaken(s: State, s': State, p: Pid) {
    forall n :: Taken(s, p, n) <==> Taken(s', p, n)
  }

  ghost predicate SlotLeft(s: State, p: Pid, from: int) {
    exists n :: from <= n < MAX_READERS && !Taken(s, p, n)
  }

  ghost predicate SlotTaken(s: State, p: Pid) {
    exists n :: IsSlot(n) && Taken(s, p, n)
  }

  // ---------- what a call is going to return ----------

  datatype Verdict = Returned(mode: LockMode, ret: bool) | Waits

  const REFUSED := Returned(NoLock, false)

  ghost function ReadVerdict(s: State, p: Pid, from: int): Verdict {
    if SlotLeft(s, p, from) then Returned(ReadLock, true) else REFUSED
  }

  ghost function WriteVerdict(s: State, p: Pid, block: bool): Verdict {
    if !SlotTaken(s, p) then Returned(WriteLock, true) else if block then Waits else REFUSED
  }

  ghost function GateVerdict(s: State, p: Pid, req: Request): Verdict {
    if Taken(s, p, GATE) then if req.block then Waits else REFUSED
    else if req.mode == ReadLock then ReadVerdict(s, p, 0)
    else WriteVerdict(s, p, req.block)
  }

  ghost function ScanVerdict(s: State, p: Pid, r: ReadPc): Verdict {
    match r
    case OpenSlot(idx) => ReadVerdict(s, p, idx)
    case TrySlot(idx) => ReadVerdict(s, p, idx)
    case CloseSlot(idx) => ReadVerdict(s, p, idx + 1)
    case LeaveGate(ok) => if ok then Returned(ReadLock, true) else REFUSED
    case DropSlot(_) => REFUSED
    case _ => Returned(ReadLock, true)
  }

  /** What p's call will come to, from wherever it is, while nobody else does anything. */
  ghost function Foreseen(s: State, p: Pid, pr: Proc): Verdict {
    match pr.pc
    case Idle => Returned(pr.mode, pr.ret)
    case CreateGate(req) => GateVerdict(s, p, req)
    case WaitGate(req) => GateVerdict(s, p, req)
    case Read(r) => ScanVerdict(s, p, r)
    case Write(_, block) => WriteVerdict(s, p, block)
    case Free(_, Return(b)) => Returned(NoLock, b)
    case Free(_, Then(req)) => GateVerdict(s, p, req)
  }

  lemma SameVerdicts(s: State, s': State, p: Pid)
    requires SameTaken(s, s', p)
    ensures forall from: int :: ReadVerdict(s, p, from) == ReadVerdict(s', p, from)
    ensures forall block :: WriteVerdict(s, p, block) == WriteVerdict(s', p, block)
    ensures forall req :: GateVerdict(s, p, req) == GateVerdict(s', p, req)
  {
  }

  lemma OwnNothing(s: State, p: Pid, n: int)
    requires Inv(s) && p in s.procs && !Owns(s.procs[p], n) && n in s.owner
    ensures Taken(s, p, n)
  {
    assert Good(s, p);
  }

  lemma CreateForeseen(s: State, p: Pid, pr: Proc, req: Request, s': State)
    requires s' == Put(OpenHandle(s, p, GATE), p, pr.(wmutex := true, pc := WaitGate(req)))
    requires pr.pc == CreateGate(req) && SameTaken(s, s', p)
    ensures Foreseen(s', p, s'.procs[p]) == Foreseen(s, p, pr)
  {
    SameVerdicts(s, s', p);
  }

  lemma GateForeseen(s: State, p: Pid, pr: Proc, req: Request, s': State)
    requires pr.pc == WaitGate(req) && pr.mode == NoLock && (GATE in s.owner ==> Taken(s, p, GATE) && !req.block)
    requires s' == StepGate(s, p, pr, req, Normal) && SameTaken(s, s', p)
    ensures Foreseen(s', p, s'.procs[p]) == Foreseen(s, p, pr)
  {
    SameVerdicts(s, s', p);
  }

  lemma SlotSkipped(s: State, p: Pid, idx: int)
    requires Taken(s, p, idx)
    ensures ReadVerdict(s, p, idx) == ReadVerdict(s, p, idx + 1)
  {
  }

  lemma SlotFound(s: State, p: Pid, idx: int)
    requires !Taken(s, p, idx) && idx < MAX_READERS
    ensures ReadVerdict(s, p, idx) == Returned(ReadLock, true)
  {
  }

  lemma NoneLeft(s: State, p: Pid)
    ensures ReadVerdict(s, p, MAX_READERS) == REFUSED
  {
  }

  lemma NoHandleFree(s: State, p: Pid, idx: int)
    requires Inv(s) && Taken(s, p, idx)
    ensures Exists(s, idx)
  {
    AllOwnersHoldHandles(s);
    var h := (s.owner[idx], idx);
    assert h in s.handles;
  }

  lemma OpenForeseen(s: State, p: Pid, pr: Proc, idx: nat, s': State)
    requires pr.pc == Read(OpenSlot(idx)) && idx < MAX_READERS && (Taken(s, p, idx) ==> Exists(s, idx))
    requires s' == StepReader(s, p, pr, OpenSlot(idx), Normal) && SameTaken(s, s', p)
    ensures Foreseen(s', p, s'.procs[p]) == Foreseen(s, p, pr)
  {
    SameVerdicts(s, s', p);
    if !Taken(s, p, idx) { SlotFound(s, p, idx); }
  }

  lemma TryForeseen(s: State, p: Pid, pr: Proc, idx: nat, s': State)
    requires pr.pc == Read(TrySlot(idx)) && idx < MAX_READERS && (idx in s.owner ==> Taken(s, p, idx))
    requires s' == StepReader(s, p, pr, TrySlot(idx), Normal) && SameTaken(s, s', p)
    ensures Foreseen(s', p, s'.procs[p]) == Foreseen(s, p, pr)
  {
    SameVerdicts(s, s', p);
    if Taken(s, p, idx) { SlotSkipped(s, p, idx); } else { SlotFound(s, p, idx); }
  }

  lemma CloseForeseen(s: State, p: Pid, pr: Proc, idx: nat, s': State)
    requires pr.pc == Read(CloseSlot(idx)) && idx < MAX_READERS
    requires s' == StepReader(s, p, pr, CloseSlot(idx), Normal) && SameTaken(s, s', p)
    ensures Foreseen(s', p, s'.procs[p]) == Foreseen(s, p, pr)
  {
    SameVerdicts(s, s', p);
    NoneLeft(s, p);
  }

  lemma MadeForeseen(s: State, p: Pid, pr: Proc, r: ReadPc, s': State)
    requires pr.pc == Read(r) && (r.MakeSlot? || r.TakeSlot? || r.DropSlot? || r.LeaveGate?)
    requires r.TakeSlot? ==> r.idx !in s.owner
    requires r.LeaveGate? && !r.ok ==> pr.mode == NoLock
    requires s' == StepReader(s, p, pr, r, Normal)
    ensures Foreseen(s', p, s'.procs[p]) == Foreseen(s, p, pr)
  {
  }

  lemma ReadForeseen(s: State, p: Pid, r: ReadPc, s': State)
    requires Inv(s) && p in s.procs && s.procs[p].pc == Read(r)
    requires s' == StepReader(s, p, s.procs[p], r, Normal) && SameTaken(s, s', p)
    ensures Foreseen(s', p, s'.procs[p]) == Foreseen(s, p, s.procs[p])
  {
    var pr := s.procs[p];
    assert ReadOk(pr, r) by { assert Good(s, p); }
    match r
    case OpenSlot(idx) =>
      if Taken(s, p, idx) { NoHandleFree(s, p, idx); }
      OpenForeseen(s, p, pr, idx, s');
    case TrySlot(idx) =>
      if idx in s.owner { OwnNothing(s, p, idx); }
      TryForeseen(s, p, pr, idx, s');
    case CloseSlot(idx) => CloseForeseen(s, p, pr, idx, s');
    case _ =>
      SlotDiscipline(s, p);
      MadeForeseen(s, p, pr, r, s');
  }

  lemma NoSlotTaken(s: State, p: Pid)
    requires Inv(s) && p in s.procs && s.procs[p].pc == Idle && s.procs[p].mode == WriteLock
    ensures !SlotTaken(s, p)
  {
    assert Good(s, p);
  }

  lemma CollectForeseen(s: State, p: Pid, pr: Proc, idx: nat, block: bool, s': State)
    requires pr.pc == Write(Collect(idx), block) && SameTaken(s, s', p)
    requires s' == StepCollect(s, p, pr, idx, block) && (s'.procs[p].pc == Idle ==> !SlotTaken(s', p))
    ensures Foreseen(s', p, s'.procs[p]) == Foreseen(s, p, pr)
  {
    SameVerdicts(s, s', p);
  }

  /** Past the scan, the slots found are free exactly when no other process owns one. */
  lemma FoundFree(s: State, p: Pid, block: bool)
    requires Inv(s) && p in s.procs && s.procs[p].pc == Write(WaitAll, block)
    ensures AllFree(s, s.procs[p].rmutexes) <==> !SlotTaken(s, p)
  {
    assert Good(s, p);
    var names := s.procs[p].rmutexes;
    if n :| n in names && n in s.owner {
      OwnNothing(s, p, n);
      assert IsSlot(n) && Taken(s, p, n);
    }
  }

  lemma WaitAllForeseen(s: State, p: Pid, pr: Proc, block: bool, s': State)
    requires pr.pc == Write(WaitAll, block) && (AllFree(s, pr.rmutexes) <==> !SlotTaken(s, p))
    requires CanStep(s, pr, Normal) && s' == StepWaitAll(s, p, pr, Normal)
    ensures Foreseen(s', p, s'.procs[p]) == Foreseen(s, p, pr)
  {
  }

  lemma ContinueForeseen(s: State, p: Pid, pr: Proc, after: After)
    requires pr.mode == NoLock
    ensures Foreseen(s, p, Continue(pr, after)) == if after.Then? then GateVerdict(s, p, after.req)
                                                   else Returned(NoLock, after.result)
  {
  }

  lemma FreeForeseen(s: State, p: Pid, pr: Proc, f: FreePc, after: After, s': State)
    requires p in s.procs && s.procs[p] == pr && pr.pc == Free(f, after) && FreeOk(pr, f, after)
    requires s' == StepRelease(s, p, pr, f, after) && SameTaken(s, s', p) && p in s'.procs
    ensures Foreseen(s', p, s'.procs[p]) == Foreseen(s, p, pr)
  {
    SameVerdicts(s, s', p);
    if f.CloseRead? {
      ContinueForeseen(s', p, pr.(rmutex := [], mode := NoLock), after);
    } else if f.ReleaseGate? {
      ContinueForeseen(s', p, pr.(mode := NoLock), after);
    }
  }

  lemma GateIsTaken(s: State, p: Pid)
    requires Inv(s) && p in s.procs && s.procs[p].pc.WaitGate? && GATE in s.owner
    ensures Taken(s, p, GATE)
  {
    OwnNothing(s, p, GATE);
  }

  lemma GateStepForeseen(s: State, p: Pid, s': State)
    requires Inv(s) && p in s.procs && (s.procs[p].pc.CreateGate? || s.procs[p].pc.WaitGate?)
    requires CanStep(s, s.procs[p], Normal) && s' == StepProc(s, p, Normal) && SameTaken(s, s', p)
    ensures Foreseen(s', p, s'.procs[p]) == Foreseen(s, p, s.procs[p])
  {
    var pr := s.procs[p];
    assert LocalPc(pr) by { assert Good(s, p); }
    if pr.pc.CreateGate? {
      CreateForeseen(s, p, pr, pr.pc.req, s');
    } else {
      if GATE in s.owner { GateIsTaken(s, p); }
      GateForeseen(s, p, pr, pr.pc.req, s');
    }
  }

  lemma CollectEnds(s: State, p: Pid, pr: Proc, idx: nat, block: bool, s': State)
    requires s' == StepCollect(s, p, pr, idx, block)
    ensures p in s'.procs && (s'.procs[p].pc == Idle ==> s'.procs[p].mode == WriteLock)
  {
  }

  lemma CollectStepForeseen(s: State, p: Pid, idx: nat, block: bool, s': State)
    requires p in s.procs && s.procs[p].pc == Write(Collect(idx), block) && SameTaken(s, s', p)
    requires Inv(s') && p in s'.procs && s' == StepCollect(s, p, s.procs[p], idx, block)
    ensures Foreseen(s', p, s'.procs[p]) == Foreseen(s, p, s.procs[p])
  {
    CollectEnds(s, p, s.procs[p], idx, block, s');
    if s'.procs[p].pc == Idle { NoSlotTaken(s', p); }
    CollectForeseen(s, p, s.procs[p], idx, block, s');
  }

  lemma WaitAllStepForeseen(s: State, p: Pid, block: bool, s': State)
    requires Inv(s) && p in s.procs && s.procs[p].pc == Write(WaitAll, block)
    requires CanStep(s, s.procs[p], Normal) && s' == StepWaitAll(s, p, s.procs[p], Normal)
    ensures Foreseen(s', p, s'.procs[p]) == Foreseen(s, p, s.procs[p])
  {
    FoundFree(s, p, block);
    WaitAllForeseen(s, p, s.procs[p], block, s');
  }

  lemma FreeStepForeseen(s: State, p: Pid, f: FreePc, after: After, s': State)
    requires Inv(s) && p in s.procs && s.procs[p].pc == Free(f, after)
    requires s' == StepRelease(s, p, s.procs[p], f, after) && SameTaken(s, s', p) && p in s'.procs
    ensures Foreseen(s', p, s'.procs[p]) == Foreseen(s, p, s.procs[p])
  {
    assert LocalPc(s.procs[p]) by { assert Good(s, p); }
    FreeForeseen(s, p, s.procs[p], f, after, s');
  }

  lemma FrameTaken(s: State, s': State, p: Pid)
    requires Frame(s, s', p)
    ensures SameTaken(s, s', p)
  {
  }

  lemma StepForeseen(s: State, p: Pid, s': State)
    requires Inv(s) && p in s.procs && CanStep(s, s.procs[p], Normal) && s' == StepProc(s, p, Normal)
    ensures Inv(s') && p in s'.procs && SameTaken(s, s', p)
    ensures Foreseen(s', p, s'.procs[p]) == Foreseen(s, p, s.procs[p])
  {
    Advances(s, p);
    FrameOfStep(s, p, Normal);
    FrameTaken(s, s', p);
    match s.procs[p].pc
    case CreateGate(_) => GateStepForeseen(s, p, s');
    case WaitGate(_) => GateStepForeseen(s, p, s');
    case Read(r) => ReadForeseen(s, p, r, s');
    case Write(Collect(idx), block) => CollectStepForeseen(s, p, idx, block, s');
    case Write(WaitAll, block) => WaitAllStepForeseen(s, p, block, s');
    case Free(f, after) => FreeStepForeseen(s, p, f, after, s');
  }

  /** What is foreseen is what happens. */
  lemma {:induction false} RunForeseen(s: State, p: Pid)
    requires Inv(s) && p in s.procs
    ensures var t := RunOn(s, p);
            && Inv(t) && p in t.procs && SameTaken(s, t, p) && !CanStep(t, t.procs[p], Normal)
            && Foreseen(t, p, t.procs[p]) == Foreseen(s, p, s.procs[p])
    decreases Progress.Weight(s.procs[p])
  {
    if CanStep(s, s.procs[p], Normal) {
      Advances(s, p);
      StepForeseen(s, p, StepProc(s, p, Normal));
      RunForeseen(StepProc(s, p, Normal), p);
    }
  }

  /** In a wait that lasts as long as there is a conflict. */
  predicate Waiting(pr: Proc) {
    match pr.pc
    case WaitGate(req) => req.block
    case Write(WaitAll, block) => block
    case _ => false
  }

  /** Exactly when p's wait can end: no other process owns the gate, or owns a slot. */
  lemma WaitEnds(s: State, p: Pid)
    requires Inv(s) && p in s.procs && Waiting(s.procs[p])
    ensures CanStep(s, s.procs[p], Normal) <==>
            if s.procs[p].pc.WaitGate? then !Taken(s, p, GATE) else !SlotTaken(s, p)
  {
    assert Good(s, p);
    match s.procs[p].pc
    case WaitGate(_) => if GATE in s.owner { OwnNothing(s, p, GATE); }
    case Write(_, block) => FoundFree(s, p, block);
  }

  lemma EndsForeseen(s: State, p: Pid)
    requires Inv(s) && p in s.procs && !CanStep(s, s.procs[p], Normal)
    ensures s.procs[p].pc == Idle || Waiting(s.procs[p])
    ensures s.procs[p].pc != Idle <==> Foreseen(s, p, s.procs[p]) == Waits
  {
    assert Good(s, p);
    if Waiting(s.procs[p]) { WaitEnds(s, p); }
  }

  // ---------- in terms of the locks held ----------

  function OtherReaders(s: State, p: Pid): set<Pid> {
    set q | q in s.procs && q != p && HeldMode(s.procs[q]) == ReadLock
  }

  /** With the gate free, a taken slot is that of a reader. */
  lemma TakenByReader(s: State, p: Pid, n: int)
    requires Inv(s) && IsSlot(n) && Taken(s, p, n) && !Taken(s, p, GATE)
    ensures s.owner[n] in OtherReaders(s, p) && s.procs[s.owner[n]].rmutex == [n]
  {
    var q := s.owner[n];
    assert Good(s, q);
    assert Owns(s.procs[q], n) && !Owns(s.procs[q], GATE);
  }

  lemma OneForOne<A(!new), B>(m: map<A, B>, b: set<B>)
    requires m.Values <= b && forall x, y | x in m && y in m && m[x] == m[y] :: x == y
    ensures |m| <= |b|
    decreases |m|
  {
    if x :| x in m {
      OneForOne(m - {x}, b - {m[x]});
    }
  }

  lemma {:induction false} SlotCount(n: nat) returns (slots: set<int>)
    ensures |slots| == n && forall i :: i in slots <==> 0 <= i < n
  {
    slots := {};
    if n > 0 {
      slots := SlotCount(n - 1);
      slots := slots + {n - 1};
    }
  }

  lemma AllSlotsTaken(s: State, p: Pid, slots: set<int>)
    requires Inv(s) && !Taken(s, p, GATE) && !SlotLeft(s, p, 0) && forall n :: n in slots <==> 0 <= n < MAX_READERS
    ensures |slots| <= |OtherReaders(s, p)|
  {
    forall n | n in slots
      ensures n in s.owner && s.owner[n] in OtherReaders(s, p) && s.procs[s.owner[n]].rmutex == [n]
    {
      assert Taken(s, p, n);
      TakenByReader(s, p, n);
    }
    var owners := map n | n in slots :: s.owner[n];
    assert forall x, y | x in owners && y in owners && owners[x] == owners[y] :: [x] == [y];
    assert owners.Keys == slots;
    OneForOne(owners, OtherReaders(s, p));
  }

  lemma OneForOneLess<A(!new), B>(m: map<A, B>, b: set<B>, left: B)
    requires left in b && left !in m.Values && m.Values <= b
    requires forall x, y | x in m && y in m && m[x] == m[y] :: x == y
    ensures |m| < |b|
  {
    OneForOne(m, b - {left});
  }

  lemma ReaderTakes(s: State, p: Pid, q: Pid)
    requires Inv(s) && q in OtherReaders(s, p)
    ensures s.procs[q].rmutex == [s.procs[q].rmutex[0]] && IsSlot(s.procs[q].rmutex[0])
    ensures Taken(s, p, s.procs[q].rmutex[0])
  {
    ReaderOwnsSlot(s, q);
  }

  lemma OneSlotLeft(s: State, p: Pid, slots: set<int>, left: int)
    requires Inv(s) && 0 <= left < MAX_READERS && !Taken(s, p, left)
    requires forall n :: n in slots <==> 0 <= n < MAX_READERS
    ensures |OtherReaders(s, p)| < |slots|
  {
    var readers := OtherReaders(s, p);
    forall q | q in readers
      ensures s.procs[q].rmutex == [s.procs[q].rmutex[0]] && s.procs[q].rmutex[0] in slots - {left}
    {
      ReaderTakes(s, p, q);
    }
    var rmutexes := map q | q in readers :: s.procs[q].rmutex[0];
    forall x, y | x in rmutexes && y in rmutexes && rmutexes[x] == rmutexes[y]
      ensures x == y
    {
      OneSlotOneReader(s, x, y);
    }
    assert rmutexes.Keys == readers;
    OneForOneLess(rmutexes, slots, left);
  }

  /** With the gate free, a slot is left exactly as long as fewer than MAX_READERS others read. */
  lemma RoomToRead(s: State, p: Pid)
    requires Inv(s) && !Taken(s, p, GATE)
    ensures SlotLeft(s, p, 0) <==> |OtherReaders(s, p)| < MAX_READERS
  {
    var slots := SlotCount(MAX_READERS);
    if SlotLeft(s, p, 0) {
      var left :| 0 <= left < MAX_READERS && !Taken(s, p, left);
      OneSlotLeft(s, p, slots, left);
    } else {
      AllSlotsTaken(s, p, slots);
    }
  }

  /** With the gate free, no slot is taken exactly when a writer would be alone. */
  lemma RoomToWrite(s: State, p: Pid)
    requires Inv(s) && p in s.procs && !Taken(s, p, GATE)
    ensures !SlotTaken(s, p) <==> Compatible(Held(s), p, WriteLock)
  {
    if n :| IsSlot(n) && Taken(s, p, n) {
      TakenByReader(s, p, n);
      assert s.owner[n] in Held(s);
    }
    if q :| q in Held(s) && q != p && Held(s)[q] != NoLock {
      if Held(s)[q] == WriteLock {
        WriterOwnsGate(s, q);
      } else {
        ReaderOwnsSlot(s, q);
        assert Taken(s, p, s.procs[q].rmutex[0]);
      }
    }
  }

  /** Nobody else is in the gate, and what others hold goes with the mode p asks for. */
  ghost predicate Obtainable(s: State, p: Pid, mode: LockMode) {
    && !Taken(s, p, GATE)
    && if mode == ReadLock then |OtherReaders(s, p)| < MAX_READERS else Compatible(Held(s), p, WriteLock)
  }

  /** What a blocking call waits for; a reader that finds all slots taken does not wait. */
  ghost predicate WaitsFor(s: State, p: Pid, mode: LockMode) {
    Taken(s, p, GATE) || (mode == WriteLock && !Compatible(Held(s), p, WriteLock))
  }

  lemma GateVerdictMeans(s: State, p: Pid, req: Request)
    requires Inv(s) && p in s.procs && req.mode != NoLock
    ensures GateVerdict(s, p, req) == if Obtainable(s, p, req.mode) then Returned(req.mode, true)
                                      else if req.block && WaitsFor(s, p, req.mode) then Waits else REFUSED
  {
    if !Taken(s, p, GATE) {
      RoomToRead(s, p);
      RoomToWrite(s, p);
    }
  }

  // ---------- the calls ----------

  /** The state when a lock() call has returned or waits, nobody else having done anything meanwhile. */
  ghost function AfterLock(s: State, p: Pid, mode: LockMode, block: bool): State
    requires Inv(s) && Enabled(s, Lock(p, mode, block))
  {
    NextKeepsInv(s, Lock(p, mode, block));
    RunOn(Next(s, Lock(p, mode, block)), p)
  }

  lemma PutTaken(s: State, p: Pid, pr: Proc, req: Request)
    ensures SameTaken(s, Put(s, p, pr), p) && GateVerdict(Put(s, p, pr), p, req) == GateVerdict(s, p, req)
  {
    SameVerdicts(s, Put(s, p, pr), p);
  }

  lemma BegunForeseen(s: State, p: Pid, pr: Proc, mode: LockMode, block: bool)
    requires pr.open && pr.pc == Idle && mode !in {NoLock, pr.mode}
    ensures Foreseen(s, p, BeginLock(pr, mode, block)) == GateVerdict(s, p, Request(mode, block))
  {
  }

  /** lock() of an open file for a mode that p does not have: it obtains the lock exactly when nobody else is in the
    * gate and, to read, fewer than MAX_READERS others hold a lock or, to write, no other does; otherwise it waits if
    * it may, except for a slot. A lock of its own is no obstacle, for it is released first.
    */
  lemma LockAlone(s: State, p: Pid, mode: LockMode, block: bool)
    requires Inv(s) && Enabled(s, Lock(p, mode, block)) && s.procs[p].open && mode !in {NoLock, s.procs[p].mode}
    ensures var t := AfterLock(s, p, mode, block);
            && Inv(t) && p in t.procs
            && (t.procs[p].pc == Idle && t.procs[p].ret <==> Obtainable(s, p, mode))
            && (t.procs[p].pc == Idle ==> t.procs[p].mode == if t.procs[p].ret then mode else NoLock)
            && (t.procs[p].pc != Idle <==> block && WaitsFor(s, p, mode))
            && (t.procs[p].pc != Idle ==> Waiting(t.procs[p]) && !CanStep(t, t.procs[p], Normal))
  {
    var s', t := Next(s, Lock(p, mode, block)), AfterLock(s, p, mode, block);
    NextKeepsInv(s, Lock(p, mode, block));
    BegunForeseen(s', p, s.procs[p], mode, block);
    PutTaken(s, p, s'.procs[p], Request(mode, block));
    GateVerdictMeans(s, p, Request(mode, block));
    RunForeseen(s', p);
    EndsForeseen(t, p);
  }

  /** While p waits, whatever the others do, it stays where it is, and it can go on exactly when the conflict has ended:
    * at the gate when nobody else is in it, behind the gate when a writer would be alone.
    */
  lemma {:induction false} WaitLasts(s: State, acts: seq<Action>, p: Pid)
    requires Inv(s) && p in s.procs && Waiting(s.procs[p])
    requires Possible(s, acts) && forall a | a in acts :: a.p != p
    ensures var u := Exec(s, acts);
            && p in u.procs && u.procs[p] == s.procs[p]
            && (CanStep(u, u.procs[p], Normal) <==>
                if u.procs[p].pc.WaitGate? then !Taken(u, p, GATE) else Compatible(Held(u), p, WriteLock))
    decreases |acts|
  {
    if acts == [] {
      WaitMeans(s, p);
    } else {
      assert acts[0] in acts;
      NextKeepsInv(s, acts[0]);
      OthersLeave(s, acts[0], p);
      WaitLasts(Next(s, acts[0]), acts[1..], p);
    }
  }

  lemma OthersLeave(s: State, a: Action, p: Pid)
    requires Inv(s) && Enabled(s, a) && p in s.procs && a.p != p
    ensures p in Next(s, a).procs && Next(s, a).procs[p] == s.procs[p]
  {
    if a.Step? { FrameOfStep(s, a.p, a.out); }
  }

  lemma WaitMeans(s: State, p: Pid)
    requires Inv(s) && p in s.procs && Waiting(s.procs[p])
    ensures CanStep(s, s.procs[p], Normal) <==>
            if s.procs[p].pc.WaitGate? then !Taken(s, p, GATE) else Compatible(Held(s), p, WriteLock)
  {
    WaitEnds(s, p);
    if !s.procs[p].pc.WaitGate? {
      assert Good(s, p);
      assert Owns(s.procs[p], GATE);
      RoomToWrite(s, p);
    }
  }

  /** When there is nothing left to wait for and nobody comes in between, the call returns, with the lock if there is
    * room for it.
    */
  lemma WaitObtains(s: State, p: Pid)
    requires Inv(s) && p in s.procs && Waiting(s.procs[p])
    requires !WaitsFor(s, p, s.procs[p].asked)
    ensures var t := RunOn(s, p);
            p in t.procs && t.procs[p].pc == Idle && (t.procs[p].ret <==> Obtainable(s, p, s.procs[p].asked))
  {
    WaitingForeseen(s, p);
    RunForeseen(s, p);
    EndsForeseen(RunOn(s, p), p);
  }

  lemma WaitingForeseen(s: State, p: Pid)
    requires Inv(s) && p in s.procs && Waiting(s.procs[p])
    ensures Foreseen(s, p, s.procs[p]) == GateVerdict(s, p, Request(s.procs[p].asked, true))
    ensures GateVerdict(s, p, Request(s.procs[p].asked, true)) ==
            if Obtainable(s, p, s.procs[p].asked) then Returned(s.procs[p].asked, true)
            else if WaitsFor(s, p, s.procs[p].asked) then Waits else REFUSED
  {
    assert Good(s, p);
    assert Owns(s.procs[p], GATE) <==> GATE in s.owner && s.owner[GATE] == p;
    GateVerdictMeans(s, p, Request(s.procs[p].asked, true));
  }

  /** A lock already held is confirmed at once. */
  lemma LockAgain(s: State, p: Pid, mode: LockMode, block: bool)
    requires Inv(s) && Enabled(s, Lock(p, mode, block)) && s.procs[p].open && mode == s.procs[p].mode != NoLock
    ensures AfterLock(s, p, mode, block) == Put(s, p, s.procs[p].(asked := mode, ret := true))
  {
    NextKeepsInv(s, Lock(p, mode, block));
  }

  /** The state when an unlock() call has returned. */
  ghost function AfterUnlock(s: State, p: Pid): State
    requires Inv(s) && Enabled(s, Unlock(p))
  {
    NextKeepsInv(s, Unlock(p));
    RunOn(Next(s, Unlock(p)), p)
  }

  lemma UnlockForeseen(s: State, p: Pid, pr: Proc)
    requires pr.pc == Idle && pr.open
    ensures Foreseen(s, p, BeginUnlock(pr)) == Returned(NoLock, true)
  {
  }

  lemma UnlockRuns(s: State, p: Pid)
    requires Inv(s) && Enabled(s, Unlock(p)) && s.procs[p].open
    ensures var t := AfterUnlock(s, p);
            Inv(t) && p in t.procs && t.procs[p].pc == Idle && t.procs[p].mode == NoLock && t.procs[p].ret
  {
    var s', t := Next(s, Unlock(p)), AfterUnlock(s, p);
    NextKeepsInv(s, Unlock(p));
    UnlockForeseen(s', p, s.procs[p].(asked := NoLock));
    RunForeseen(s', p);
    EndsForeseen(t, p);
  }

  lemma UnlockClosed(s: State, p: Pid)
    requires Inv(s) && Enabled(s, Unlock(p)) && !s.procs[p].open
    ensures AfterUnlock(s, p) == Put(s, p, s.procs[p].(asked := NoLock, ret := false))
  {
    NextKeepsInv(s, Unlock(p));
  }

  lemma LockNothing(s: State, p: Pid, block: bool)
    requires Inv(s) && Enabled(s, Unlock(p)) && s.procs[p].open
    ensures AfterLock(s, p, NoLock, block) == AfterUnlock(s, p)
  {
    NextKeepsInv(s, Unlock(p));
  }

  /** unlock() never waits. It returns true exactly on an open file, and then p owns nothing; lock(NoLock) is the same.
    */
  lemma UnlockAlone(s: State, p: Pid, block: bool)
    requires Inv(s) && Enabled(s, Unlock(p))
    ensures s.procs[p].open ==> AfterLock(s, p, NoLock, block) == AfterUnlock(s, p)
    ensures var t := AfterUnlock(s, p);
            && Inv(t) && p in t.procs && t.procs[p].pc == Idle
            && (t.procs[p].ret <==> s.procs[p].open)
            && if s.procs[p].open then t.procs[p].mode == NoLock && forall n :: !OwnedBy(t, p, n)
               else t == Put(s, p, s.procs[p].(asked := NoLock, ret := false))
  {
    if s.procs[p].open {
      LockNothing(s, p, block);
      UnlockRuns(s, p);
      ModeIsOwnership(AfterUnlock(s, p), p);
    } else {
      UnlockClosed(s, p);
      NextKeepsInv(s, Unlock(p));
    }
  }

  // ---------- system errors ----------

  /** What follows a system error. */
  ghost function FailureVerdict(s: State, p: Pid, pr: Proc): Verdict {
    if pr.pc.Read? && pr.pc.r.TrySlot? then ReadVerdict(s, p, pr.pc.r.idx + 1) else REFUSED
  }

  lemma FailedForeseen(s: State, p: Pid, pr: Proc, out: Outcome)
    requires p in s.procs && s.procs[p] == pr && LocalPc(pr) && CanStep(s, pr, out) && out != Normal
    ensures var s' := StepProc(s, p, out);
            p in s'.procs && Foreseen(s', p, s'.procs[p]) == FailureVerdict(s', p, pr)
  {
  }

  lemma FailureRuns(s: State, p: Pid, pr: Proc, s': State, t: State)
    requires Inv(s') && p in s'.procs && SameTaken(s, s', p) && t == RunOn(s', p)
    requires Foreseen(s', p, s'.procs[p]) == FailureVerdict(s', p, pr)
    ensures p in t.procs && t.procs[p].pc == Idle
    ensures t.procs[p].mode == (if t.procs[p].ret then ReadLock else NoLock)
    ensures t.procs[p].ret <==> pr.pc.Read? && pr.pc.r.TrySlot? && SlotLeft(s, p, pr.pc.r.idx + 1)
  {
    SameVerdicts(s, s', p);
    RunForeseen(s', p);
    EndsForeseen(t, p);
  }

  lemma ErrorSteps(s: State, p: Pid, out: Outcome, s': State)
    requires Inv(s) && p in s.procs && CanStep(s, s.procs[p], out) && out != Normal && s' == StepProc(s, p, out)
    ensures Inv(s') && p in s'.procs && SameTaken(s, s', p)
    ensures Foreseen(s', p, s'.procs[p]) == FailureVerdict(s', p, s.procs[p])
  {
    assert LocalPc(s.procs[p]) by { assert Good(s, p); }
    FailedForeseen(s, p, s.procs[p], out);
    StepKept(s, p, out);
    FrameOfStep(s, p, out);
    FrameTaken(s, s', p);
  }

  /** A system error makes the call give up with nothing locked, but for one on a slot of the scan, which only loses
    * that slot. So does a wait for all slots in which the first was not the abandoned one.
    */
  lemma ErrorGivesUp(s: State, p: Pid, out: Outcome, s': State)
    requires Inv(s) && p in s.procs && CanStep(s, s.procs[p], out) && out != Normal && s' == StepProc(s, p, out)
    ensures Inv(s') && p in s'.procs
    ensures var t, pr := RunOn(s', p), s.procs[p];
            && p in t.procs && t.procs[p].pc == Idle
            && t.procs[p].mode == (if t.procs[p].ret then ReadLock else NoLock)
            && (t.procs[p].ret <==> pr.pc.Read? && pr.pc.r.TrySlot? && SlotLeft(s, p, pr.pc.r.idx + 1))
  {
    ErrorSteps(s, p, out, s');
    FailureRuns(s, p, s.procs[p], s', RunOn(s', p));
  }
}
