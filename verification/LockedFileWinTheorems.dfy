/** The main results about the Windows lock: it refines the readers/writer contract in every interleaving
  * with crashes, its fields say what the operating system says, its slots cannot run out of range, and
  * it cannot deadlock.
  */
module LockedFileWinTheorems {
  import opened RwLock
  import opened LockedFileWin
  import opened LockedFileWinSafety

  /** The lock a process holds, from the moment it is obtained until the moment others may take it. */
  function HeldMode(pr: Proc): LockMode {
    match pr.pc
    case Idle => pr.mode
    case Read(LeaveGate(ok)) => if ok then ReadLock else NoLock
    case Free(ReleaseRead, _) => ReadLock
    case Free(CloseRead, _) => NoLock
    case Free(f, _) => if f.held then WriteLock else NoLock
    case _ => NoLock
  }

  function Held(s: State): Holders {
    map p | p in s.procs :: HeldMode(s.procs[p])
  }

  // ---------- mutual exclusion and refinement ----------

  lemma WriterOwnsGate(s: State, p: Pid)
    requires Inv(s) && p in s.procs && HeldMode(s.procs[p]) == WriteLock
    ensures GATE in s.owner && s.owner[GATE] == p && OnlyMine(s, p)
  {
  }

  lemma ReaderOwnsSlot(s: State, p: Pid)
    requires Inv(s) && p in s.procs && HeldMode(s.procs[p]) == ReadLock
    ensures |s.procs[p].rmutex| == 1 && IsSlot(s.procs[p].rmutex[0])
    ensures s.procs[p].rmutex[0] in s.owner && s.owner[s.procs[p].rmutex[0]] == p
  {
  }

  lemma InvExclusive(s: State)
    requires Inv(s)
    ensures Exclusive(Held(s))
  {
    forall p, q | p in s.procs && q in s.procs && p != q && HeldMode(s.procs[p]) == WriteLock
      ensures HeldMode(s.procs[q]) == NoLock
    {
      WriterOwnsGate(s, p);
      match HeldMode(s.procs[q])
      case WriteLock => WriterOwnsGate(s, q);
      case ReadLock => ReaderOwnsSlot(s, q);
      case NoLock =>
    }
  }

  /** In every run of any number of processes, crashes included, a writer is alone. */
  lemma MutualExclusion(acts: seq<Action>)
    requires Possible(INIT, acts)
    ensures Exclusive(Held(Exec(INIT, acts)))
  {
    RunKeepsInv(INIT, acts);
    InvExclusive(Exec(INIT, acts));
  }

  lemma HeldAfter(s: State, s': State, p: Pid)
    requires p in s.procs && p in s'.procs && Frame(s, s', p)
    ensures Held(s') == Held(s)[p := HeldMode(s'.procs[p])]
  {
  }

  /** m' is what may follow m: the same, nothing, or a lock obtained while p is in the gate. */
  predicate MayBecome(pr: Proc, m': LockMode) {
    m' == HeldMode(pr) || m' == NoLock || (m' != NoLock && InGate(pr))
  }

  lemma ReaderHolds(s: State, p: Pid, pr: Proc, r: ReadPc, out: Outcome)
    requires pr.pc == Read(r) && Local(pr)
    ensures MayBecome(pr, HeldMode(StepReader(s, p, pr, r, out).procs[p]))
  {
  }

  lemma WriterHolds(s: State, p: Pid, pr: Proc, idx: nat, block: bool, out: Outcome)
    requires pr.pc.Write? && Local(pr)
    ensures MayBecome(pr, HeldMode(StepCollect(s, p, pr, idx, block).procs[p]))
    ensures MayBecome(pr, HeldMode(StepWaitAll(s, p, pr, out).procs[p]))
  {
  }

  lemma FreeHolds(s: State, p: Pid, pr: Proc, f: FreePc, after: After)
    requires p in s.procs && s.procs[p] == pr && pr.pc == Free(f, after) && Local(pr)
    ensures p in StepRelease(s, p, pr, f, after).procs
    ensures MayBecome(pr, HeldMode(StepRelease(s, p, pr, f, after).procs[p]))
  {
  }

  lemma GateHolds(s: State, p: Pid, pr: Proc, out: Outcome)
    requires p in s.procs && s.procs[p] == pr && (pr.pc.CreateGate? || pr.pc.WaitGate?)
    ensures HeldMode(pr) == NoLock && p in StepProc(s, p, out).procs
    ensures pr.mode == NoLock ==> HeldMode(StepProc(s, p, out).procs[p]) == NoLock
  {
  }

  lemma StepMayHold(s: State, p: Pid, pr: Proc, out: Outcome)
    requires p in s.procs && s.procs[p] == pr && pr.pc != Idle && Local(pr)
    ensures p in StepProc(s, p, out).procs && MayBecome(pr, HeldMode(StepProc(s, p, out).procs[p]))
  {
    match pr.pc
    case CreateGate(_) => GateHolds(s, p, pr, out);
    case WaitGate(_) => GateHolds(s, p, pr, out);
    case Read(r) => ReaderHolds(s, p, pr, r, out);
    case Write(Collect(idx), block) => WriterHolds(s, p, pr, idx, block, out);
    case Write(WaitAll, block) => WriterHolds(s, p, pr, 0, block, out);
    case Free(f, after) => FreeHolds(s, p, pr, f, after);
  }

  lemma StepHolds(s: State, p: Pid, out: Outcome)
    requires Inv(s) && p in s.procs && CanStep(s, s.procs[p], out)
    ensures p in StepProc(s, p, out).procs
    ensures MayBecome(s.procs[p], HeldMode(StepProc(s, p, out).procs[p]))
  {
    assert Good(s, p);
    StepMayHold(s, p, s.procs[p], out);
  }

  lemma FrameOfStep(s: State, p: Pid, out: Outcome)
    requires Inv(s) && p in s.procs && CanStep(s, s.procs[p], out)
    ensures Frame(s, StepProc(s, p, out), p)
  {
    assert Good(s, p);
    var pr := s.procs[p];
    match pr.pc
    case CreateGate(_) => GateLinked(s, p, pr, out);
    case WaitGate(_) => GateLinked(s, p, pr, out);
    case Read(r) => ReaderLinked(s, p, pr, r, out);
    case Write(Collect(idx), block) => CollectLinked(s, p, pr, idx, block);
    case Write(WaitAll, block) => WaitAllLinked(s, p, pr, block, out);
    case Free(f, after) => ReleaseLinked(s, p, pr, f, after);
  }

  lemma OthersAllowIt(h: Holders, h': Holders, p: Pid, m: LockMode)
    requires p in h && h' == h[p := m] && m != NoLock && Exclusive(h')
    requires forall q | q in h && q != p :: h[q] != WriteLock
    ensures Acquires(h, h', p, m)
  {
    forall q | q in h && q != p && h[q] != NoLock
      ensures m != WriteLock
    {
      assert h'[q] == h[q] && h'[p] == m;
    }
  }

  lemma GateKeepsWritersOut(s: State, p: Pid)
    requires Inv(s) && p in s.procs && InGate(s.procs[p])
    ensures forall q | q in Held(s) && q != p :: Held(s)[q] != WriteLock
  {
    assert Good(s, p);
    assert Owns(s.procs[p], GATE);
    forall q | q in Held(s) && q != p
      ensures Held(s)[q] != WriteLock
    {
      if HeldMode(s.procs[q]) == WriteLock { WriterOwnsGate(s, q); }
    }
  }

  lemma HeldOfStep(s: State, p: Pid, out: Outcome)
    requires Inv(s) && p in s.procs && CanStep(s, s.procs[p], out)
    ensures var s' := StepProc(s, p, out);
            p in s'.procs && Held(s') == Held(s)[p := HeldMode(s'.procs[p])] && Exclusive(Held(s'))
  {
    StepHolds(s, p, out);
    FrameOfStep(s, p, out);
    HeldAfter(s, StepProc(s, p, out), p);
    StepKept(s, p, out);
    InvExclusive(StepProc(s, p, out));
  }

  lemma StepRefines(s: State, p: Pid, out: Outcome)
    requires Inv(s) && p in s.procs && CanStep(s, s.procs[p], out)
    ensures SpecStep(Held(s), Held(StepProc(s, p, out)), p)
  {
    HeldOfStep(s, p, out);
    StepHolds(s, p, out);
    if InGate(s.procs[p]) { GateKeepsWritersOut(s, p); }
    ChangeAllowed(Held(s), p, HeldMode(StepProc(s, p, out).procs[p]));
  }

  lemma ChangeAllowed(h: Holders, p: Pid, m: LockMode)
    requires p in h && Exclusive(h[p := m])
    requires m == h[p] || m == NoLock || forall q | q in h && q != p :: h[q] != WriteLock
    ensures SpecStep(h, h[p := m], p)
  {
    if m == h[p] {
      assert h[p := m] == h;
    } else if m != NoLock {
      OthersAllowIt(h, h[p := m], p, m);
    }
  }

  lemma CallHolds(pr: Proc, mode: LockMode, block: bool)
    requires pr.pc == Idle && Local(pr)
    ensures HeldMode(BeginLock(pr, mode, block)) == HeldMode(pr) == HeldMode(BeginUnlock(pr.(asked := NoLock)))
  {
  }

  lemma PutInvisible(s: State, p: Pid, pr': Proc)
    requires p in s.procs && HeldMode(pr') == HeldMode(s.procs[p])
    ensures Held(Put(s, p, pr')) == Held(s)
  {
  }

  lemma LockInvisible(s: State, p: Pid, mode: LockMode, block: bool)
    requires Inv(s) && p in s.procs && s.procs[p].pc == Idle
    ensures Held(Put(s, p, BeginLock(s.procs[p], mode, block))) == Held(s)
    ensures Held(Put(s, p, BeginUnlock(s.procs[p].(asked := NoLock)))) == Held(s)
  {
    assert Good(s, p);
    CallHolds(s.procs[p], mode, block);
    PutInvisible(s, p, BeginLock(s.procs[p], mode, block));
    PutInvisible(s, p, BeginUnlock(s.procs[p].(asked := NoLock)));
  }

  lemma ArrivalAndExit(s: State, p: Pid, open: bool)
    ensures p !in s.procs ==> Held(Next(s, Start(p, open))) == Held(s)[p := NoLock]
    ensures p in s.procs ==> Held(Next(s, Exit(p))) == Held(s) - {p}
  {
  }

  /** Every action of the Windows lock is a step of the readers/writer contract, or invisible to it. */
  lemma Refines(s: State, a: Action)
    requires Inv(s) && Enabled(s, a)
    ensures SpecStep(Held(s), Held(Next(s, a)), a.p)
  {
    match a
    case Step(p, out) => StepRefines(s, p, out);
    case Start(p, open) => ArrivalAndExit(s, p, open);
    case Exit(p) => ArrivalAndExit(s, p, false);
    case SetOpen(p, open) => PutInvisible(s, p, s.procs[p].(open := open));
    case Lock(p, mode, block) => LockInvisible(s, p, mode, block);
    case Unlock(p) => LockInvisible(s, p, NoLock, false);
  }

  // ---------- results of the calls ----------

  predicate OwnedBy(s: State, p: Pid, n: int) {
    n in s.owner && s.owner[n] == p
  }

  ghost predicate OwnsJust(s: State, p: Pid, idx: int) {
    forall n :: OwnedBy(s, p, n) <==> n == idx
  }

  /** Outside a call, m_lock_mode is exactly what the process owns: nothing; one slot and no more; or the
    * gate, with nobody else owning any slot.
    */
  lemma ModeIsOwnership(s: State, p: Pid)
    requires Inv(s) && p in s.procs && s.procs[p].pc == Idle
    ensures s.procs[p].mode == NoLock <==> forall n :: !OwnedBy(s, p, n)
    ensures s.procs[p].mode == ReadLock <==> exists idx :: IsSlot(idx) && OwnsJust(s, p, idx)
    ensures s.procs[p].mode == WriteLock <==> OwnedBy(s, p, GATE)
    ensures s.procs[p].mode == WriteLock ==> forall n | n in s.owner && IsSlot(n) :: OwnedBy(s, p, n)
  {
    assert Good(s, p);
    var pr := s.procs[p];
    assert forall n :: OwnedBy(s, p, n) <==> Owns(pr, n);
    match pr.mode
    case NoLock =>
      forall idx ensures !OwnsJust(s, p, idx) { assert !OwnedBy(s, p, idx); }
    case ReadLock =>
      assert pr.rmutex == [pr.rmutex[0]];
      assert OwnedBy(s, p, pr.rmutex[0]) && OwnsJust(s, p, pr.rmutex[0]);
    case WriteLock =>
      assert Owns(pr, GATE);
  }

  /** A lock(m) call that found the file open has returned true exactly when m is held afterwards, and
    * after false the process owns no mutex.
    */
  lemma LockReturns(s: State, p: Pid)
    requires Inv(s) && p in s.procs && s.procs[p].pc == Idle && s.procs[p].asked != NoLock
    ensures s.procs[p].ret <==> HeldMode(s.procs[p]) == s.procs[p].asked
    ensures !s.procs[p].ret ==> forall n | n in s.owner :: s.owner[n] != p
  {
    assert Good(s, p);
    assert forall n :: !s.procs[p].ret ==> !Owns(s.procs[p], n);
  }

  /** lock() answers false on a closed file, whatever is held: that is the truth just when the mode asked for
    * is not the one held.
    */
  lemma ClosedFileLock(s: State, p: Pid, mode: LockMode, block: bool)
    requires Enabled(s, Lock(p, mode, block)) && mode != NoLock && !s.procs[p].open
    ensures var pr' := Next(s, Lock(p, mode, block)).procs[p];
            pr'.pc == Idle && !pr'.ret && ((pr'.ret <==> pr'.mode == mode) <==> s.procs[p].mode != mode)
  {
  }

  /** A process waiting for the gate owns nothing, one waiting for the slots owns the gate alone; whoever owns a
    * slot is not waiting at all.
    */
  lemma WaitersOwn(s: State, p: Pid)
    requires Inv(s) && p in s.procs
    ensures s.procs[p].pc.WaitGate? ==> forall n :: !OwnedBy(s, p, n)
    ensures s.procs[p].pc.Write? ==> forall n :: OwnedBy(s, p, n) <==> n == GATE
    ensures (exists n :: IsSlot(n) && OwnedBy(s, p, n)) ==> s.procs[p].pc == Idle || CanStep(s, s.procs[p], Normal)
  {
    assert Good(s, p);
    var pr := s.procs[p];
    assert forall n :: OwnedBy(s, p, n) <==> Owns(pr, n);
  }

  // ---------- slots ----------

  lemma {:induction false} FewSlots(names: seq<int>, bound: nat)
    requires Slots(names, bound)
    ensures |names| <= bound
  {
    if names != [] {
      var last := names[|names| - 1];
      assert Slots(names[..|names| - 1], last);
      FewSlots(names[..|names| - 1], last);
    }
  }

  /** The writer starts with no slots collected, waits on at most MAX_READERS of them, and never on one it
    * owns; a reader looks for a slot and makes one only while it owns the gate; a freshly made slot is free.
    */
  lemma SlotDiscipline(s: State, p: Pid)
    requires Inv(s) && p in s.procs
    ensures s.procs[p].pc.WaitGate? ==> s.procs[p].rmutexes == [] && (GATE in s.owner ==> s.owner[GATE] != p)
    ensures s.procs[p].pc.Read? ==> OwnedBy(s, p, GATE)
    ensures s.procs[p].pc.Write? ==> |s.procs[p].rmutexes| <= MAX_READERS
    ensures s.procs[p].pc.Write? ==> forall n | n in s.procs[p].rmutexes && n in s.owner :: s.owner[n] != p
    ensures s.procs[p].pc.Read? && s.procs[p].pc.r.TakeSlot? ==> s.procs[p].pc.r.idx !in s.owner
  {
    assert Good(s, p);
    var pr := s.procs[p];
    assert pr.pc.Write? || (pr.pc.Read? && pr.pc.r.TakeSlot?) ==> forall n :: IsSlot(n) ==> !Owns(pr, n);
    assert pr.pc.WaitGate? ==> !Owns(pr, GATE);
    assert pr.pc.Read? ==> Owns(pr, GATE);
    FewSlots(pr.rmutexes, MAX_READERS);
    AllOwnersHoldHandles(s);
  }

  function ReadersBelow(s: State, bound: int): set<Pid> {
    set p | p in s.procs && HeldMode(s.procs[p]) == ReadLock && |s.procs[p].rmutex| == 1 && s.procs[p].rmutex[0] < bound
  }

  lemma AtMostOneMore(all: set<Pid>, below: set<Pid>)
    requires below <= all && forall p, q | p in all - below && q in all - below :: p == q
    ensures |all| <= |below| + 1
  {
    if p :| p in all - below {
      assert all - below == {p};
    }
    assert all == below + (all - below);
  }

  lemma OneSlotOneReader(s: State, p: Pid, q: Pid)
    requires Inv(s) && p in s.procs && q in s.procs
    requires HeldMode(s.procs[p]) == ReadLock && HeldMode(s.procs[q]) == ReadLock
    requires s.procs[p].rmutex == s.procs[q].rmutex
    ensures p == q
  {
    ReaderOwnsSlot(s, p);
    ReaderOwnsSlot(s, q);
  }

  lemma NobodyBelowZero(s: State)
    requires Inv(s)
    ensures ReadersBelow(s, 0) == {}
  {
    forall p | p in ReadersBelow(s, 0) ensures false { ReaderOwnsSlot(s, p); }
  }

  lemma LastSlot(s: State, bound: nat, p: Pid)
    requires Inv(s) && p in ReadersBelow(s, bound + 1) && p !in ReadersBelow(s, bound)
    ensures p in s.procs && HeldMode(s.procs[p]) == ReadLock && s.procs[p].rmutex == [bound]
  {
  }

  lemma SameSlot(s: State, bound: nat, p: Pid, q: Pid)
    requires Inv(s) && p in ReadersBelow(s, bound + 1) && p !in ReadersBelow(s, bound)
    requires q in ReadersBelow(s, bound + 1) && q !in ReadersBelow(s, bound)
    ensures p == q
  {
    LastSlot(s, bound, p);
    LastSlot(s, bound, q);
    OneSlotOneReader(s, p, q);
  }

  lemma OneMoreSlot(s: State, bound: nat)
    requires Inv(s)
    ensures |ReadersBelow(s, bound + 1)| <= |ReadersBelow(s, bound)| + 1
  {
    var all, below := ReadersBelow(s, bound + 1), ReadersBelow(s, bound);
    forall p, q | p in all - below && q in all - below
      ensures p == q
    {
      SameSlot(s, bound, p, q);
    }
    AtMostOneMore(all, below);
  }

  lemma {:induction false} CountReaders(s: State, bound: nat)
    requires Inv(s)
    ensures |ReadersBelow(s, bound)| <= bound
  {
    if bound == 0 {
      NobodyBelowZero(s);
    } else {
      CountReaders(s, bound - 1);
      OneMoreSlot(s, bound - 1);
    }
  }

  /** Live readers own pairwise different slots, so there are never more than MAX_READERS. */
  lemma AtMostMaxReaders(s: State)
    requires Inv(s)
    ensures forall p, q | p in s.procs && q in s.procs && p != q
                          && HeldMode(s.procs[p]) == ReadLock && HeldMode(s.procs[q]) == ReadLock ::
              s.procs[p].rmutex != s.procs[q].rmutex
    ensures |set p | p in s.procs && HeldMode(s.procs[p]) == ReadLock| <= MAX_READERS
  {
    forall p, q | p in s.procs && q in s.procs && HeldMode(s.procs[p]) == ReadLock && HeldMode(s.procs[q]) == ReadLock
                  && s.procs[p].rmutex == s.procs[q].rmutex
      ensures p == q
    {
      OneSlotOneReader(s, p, q);
    }
    var readers := set p | p in s.procs && HeldMode(s.procs[p]) == ReadLock;
    forall p | p in readers
      ensures p in ReadersBelow(s, MAX_READERS)
    {
      ReaderOwnsSlot(s, p);
    }
    assert readers == ReadersBelow(s, MAX_READERS);
    CountReaders(s, MAX_READERS);
  }
}
