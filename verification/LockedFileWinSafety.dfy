/** What every reachable state of the Windows lock satisfies: ownership and handles are exactly what each
  * process's own fields say, a writer's scan covers every live reader, and the whole refines RwLock.
  */
module LockedFileWinSafety {
  import opened RwLock
  import opened LockedFileWin

  predicate IsSlot(n: int) { 0 <= n < MAX_READERS }

  /** Strictly increasing slot numbers below `bound`. */
  predicate Slots(names: seq<int>, bound: int) {
    && (forall i | 0 <= i < |names| :: 0 <= names[i] < bound)
    && (forall i, j | 0 <= i < j < |names| :: names[i] < names[j])
  }

  /** p is between obtaining and releasing the gate. */
  predicate InGate(pr: Proc) {
    match pr.pc
    case Idle => pr.mode == WriteLock
    case CreateGate(_) => false
    case WaitGate(_) => false
    case Read(_) => true
    case Write(_, _) => true
    case Free(f, _) => !f.ReleaseRead? && !f.CloseRead?
  }

  /** The slots that p's fields say it owns. */
  function OwnSlots(pr: Proc): seq<int> {
    match pr.pc
    case Idle => if pr.mode == ReadLock then pr.rmutex else if pr.mode == WriteLock then pr.rmutexes else []
    case Read(LeaveGate(ok)) => if ok then pr.rmutex else []
    case Free(ReleaseRead, _) => pr.rmutex
    case Free(ReleaseEach(todo, held), _) => if held then todo else []
    case Free(CloseEach(todo, held), _) => if held && todo != [] then todo[1..] else []
    case _ => []
  }

  predicate Owns(pr: Proc, n: int) {
    (n == GATE && InGate(pr)) || n in OwnSlots(pr)
  }

  /** The slots to which p's fields say it has a handle open. */
  function OpenSlots(pr: Proc): seq<int> {
    match pr.pc
    case Free(ReleaseEach(todo, _), _) => todo
    case Free(CloseEach(todo, _), _) => todo
    case _ => pr.rmutex + pr.rmutexes
  }

  predicate HasHandle(pr: Proc, n: int) {
    (n == GATE && pr.wmutex) || n in OpenSlots(pr)
  }

  predicate ForMode(req: Request, asked: LockMode) {
    req.mode == asked && asked != NoLock
  }

  predicate AfterOk(after: After, asked: LockMode) {
    match after
    case Return(result) => result ==> asked == NoLock
    case Then(req) => ForMode(req, asked)
  }

  /** What holds of one process's own fields at each point of lock() and unlock(). */
  predicate Local(pr: Proc) {
    && (pr.pc != Idle ==> pr.open)
    && (InGate(pr) ==> pr.wmutex)
    && Slots(pr.rmutexes, MAX_READERS)
    && Slots(pr.rmutex, MAX_READERS)
    && LocalPc(pr)
  }

  predicate LocalPc(pr: Proc) {
    match pr.pc
    case Idle => IdleOk(pr)
    case CreateGate(req) => Asking(pr, req)
    case WaitGate(req) => Asking(pr, req) && pr.wmutex
    case Read(r) => ReadOk(pr, r)
    case Write(w, _) => WriteOk(pr, w)
    case Free(f, after) => FreeOk(pr, f, after)
  }

  /** Between calls: exactly the slot of a read lock, no slots without a write lock, and lock() answered
    * true exactly when the mode it was asked for is now held, false leaving nothing.
    */
  predicate IdleOk(pr: Proc) {
    && |pr.rmutex| == (if pr.mode == ReadLock then 1 else 0)
    && (pr.mode != WriteLock ==> pr.rmutexes == [])
    && (pr.asked != NoLock ==> (pr.ret <==> pr.mode == pr.asked))
    && (pr.asked != NoLock && !pr.ret ==> pr.mode == NoLock)
  }

  predicate Asking(pr: Proc, req: Request) {
    pr.mode == NoLock && pr.rmutex == [] && pr.rmutexes == [] && ForMode(req, pr.asked)
  }

  predicate ReadOk(pr: Proc, r: ReadPc) {
    && pr.mode == NoLock && pr.rmutexes == [] && pr.asked == ReadLock
    && if r.LeaveGate? then |pr.rmutex| == (if r.ok then 1 else 0)
       else r.idx < MAX_READERS && pr.rmutex == if r.OpenSlot? || r.MakeSlot? then [] else [r.idx]
  }

  predicate WriteOk(pr: Proc, w: WritePc) {
    && pr.mode == NoLock && pr.rmutex == [] && pr.asked == WriteLock
    && if w.Collect? then w.idx < MAX_READERS && Slots(pr.rmutexes, w.idx) else pr.rmutexes != []
  }

  /** Releasing a write lock that was never granted happens only to make lock() return false. */
  predicate FreeOk(pr: Proc, f: FreePc, after: After) {
    && AfterOk(after, pr.asked)
    && if f.ReleaseRead? || f.CloseRead? then pr.mode == ReadLock && |pr.rmutex| == 1 && pr.rmutexes == []
       else
         && pr.mode == WriteLock && pr.rmutex == []
         && (!f.held ==> after == Return(false))
         && if f.ReleaseGate? then pr.rmutexes == [] else f.todo != [] && Slots(f.todo, MAX_READERS)
  }

  /** What p may rely on about all slots while it owns the gate: whatever slot some process owns, p's
    * scan has already found, and p alone knows the slot it is creating.
    */
  predicate Covers(s: State, p: Pid, pr: Proc) {
    match pr.pc
    case Idle => pr.mode == WriteLock ==> OnlyMine(s, p)
    case CreateGate(_) => true
    case WaitGate(_) => true
    case Read(r) =>
      && (r.MakeSlot? ==> forall h | h in s.handles :: h.1 != r.idx)
      && (r.TakeSlot? ==> forall h | h in s.handles :: h.1 == r.idx ==> h.0 == p)
    case Write(Collect(idx), _) => Found(s, pr.rmutexes, idx)
    case Write(WaitAll, _) => Found(s, pr.rmutexes, MAX_READERS)
    case Free(f, _) => !f.ReleaseRead? && !f.CloseRead? && f.held ==> OnlyMine(s, p)
  }

  predicate Found(s: State, names: seq<int>, bound: int) {
    forall n | n in s.owner && 0 <= n < bound :: n in names
  }

  predicate OnlyMine(s: State, p: Pid) {
    forall n | n in s.owner && IsSlot(n) :: s.owner[n] == p
  }

  /** Ownership and handles are exactly what the fields of p say. */
  ghost predicate Linked(s: State, p: Pid, pr: Proc) {
    && (forall n :: Owns(pr, n) <==> n in s.owner && s.owner[n] == p)
    && (forall n :: HasHandle(pr, n) <==> (p, n) in s.handles)
  }

  ghost predicate Good(s: State, p: Pid)
    requires p in s.procs
  {
    Local(s.procs[p]) && Linked(s, p, s.procs[p]) && Covers(s, p, s.procs[p])
  }

  ghost predicate Inv(s: State) {
    && (forall p | p in s.procs :: Good(s, p))
    && (forall n | n in s.owner :: s.owner[n] in s.procs)
    && (forall h | h in s.handles :: h.0 in s.procs)
  }

  // ---------- one step keeps everything ----------

  /** The step from s to s' touched only p's record, ownership and handles; and unless p owned the gate it
    * gained no slot, neither as owner nor as a handle.
    */
  ghost predicate Frame(s: State, s': State, p: Pid) {
    && (forall q | q != p :: q in s.procs <==> q in s'.procs)
    && (forall q | q != p && q in s.procs && q in s'.procs :: s'.procs[q] == s.procs[q])
    && (forall n | n in s.owner && s.owner[n] != p :: n in s'.owner && s'.owner[n] == s.owner[n])
    && (forall n | n in s'.owner && s'.owner[n] != p :: n in s.owner && s.owner[n] == s'.owner[n])
    && (forall h: (Pid, int) | h.0 != p :: h in s.handles <==> h in s'.handles)
    && (!(GATE in s.owner && s.owner[GATE] == p) ==>
          && (forall n | n in s'.owner && s'.owner[n] == p && IsSlot(n) :: n in s.owner && s.owner[n] == p)
          && (forall n :: (p, n) in s'.handles && n != GATE ==> (p, n) in s.handles))
  }

  lemma OthersStayLinked(s: State, s': State, p: Pid, q: Pid, pr: Proc)
    requires Frame(s, s', p) && q != p && Linked(s, q, pr)
    ensures Linked(s', q, pr)
  {
  }

  lemma OthersStayCovered(s: State, s': State, p: Pid, q: Pid, pr: Proc)
    requires Frame(s, s', p) && q != p && Local(pr) && Covers(s, q, pr)
    requires InGate(pr) ==> GATE in s.owner && s.owner[GATE] == q
    ensures Covers(s', q, pr)
  {
  }

  lemma OthersStayGood(s: State, s': State, p: Pid, q: Pid)
    requires Inv(s) && Frame(s, s', p)
    requires q in s.procs && q in s'.procs && q != p
    ensures Good(s', q)
  {
    var pr := s.procs[q];
    assert Good(s, q);
    assert InGate(pr) ==> Owns(pr, GATE);
    OthersStayLinked(s, s', p, q, pr);
    OthersStayCovered(s, s', p, q, pr);
  }

  lemma FramedProcs(s: State, s': State, p: Pid)
    requires Frame(s, s', p) && p in s.procs && p in s'.procs
    ensures s'.procs == s.procs[p := s'.procs[p]]
  {
  }

  // The five ways an action of p can touch the shared state.

  ghost predicate SameOwned(pr: Proc, pr': Proc) {
    forall n :: Owns(pr', n) <==> Owns(pr, n)
  }

  ghost predicate SameHandles(pr: Proc, pr': Proc) {
    forall n :: HasHandle(pr', n) <==> HasHandle(pr, n)
  }

  lemma LocalKept(s: State, p: Pid, pr: Proc, pr': Proc)
    requires p in s.procs && Linked(s, p, pr)
    requires SameOwned(pr, pr') && SameHandles(pr, pr')
    ensures Linked(Put(s, p, pr'), p, pr') && Frame(s, Put(s, p, pr'), p)
  {
  }

  lemma OpenKept(s: State, p: Pid, n: int, pr: Proc, pr': Proc)
    requires p in s.procs && Linked(s, p, pr)
    requires SameOwned(pr, pr')
    requires forall m :: HasHandle(pr', m) <==> HasHandle(pr, m) || m == n
    requires n == GATE || Owns(pr, GATE)
    ensures var s' := Put(OpenHandle(s, p, n), p, pr'); Linked(s', p, pr') && Frame(s, s', p)
  {
  }

  lemma CloseKept(s: State, p: Pid, n: int, pr: Proc, pr': Proc)
    requires p in s.procs && Linked(s, p, pr)
    requires SameOwned(pr, pr')
    requires forall m :: HasHandle(pr', m) <==> HasHandle(pr, m) && m != n
    ensures var s' := Put(CloseHandle(s, p, n), p, pr'); Linked(s', p, pr') && Frame(s, s', p)
  {
  }

  ghost predicate IsGrant(s: State, s': State, p: Pid, names: seq<int>) {
    && s'.handles == s.handles
    && (forall n :: n in s'.owner <==> n in s.owner || n in names)
    && (forall n | n in names :: s'.owner[n] == p)
    && (forall n | n in s.owner && n !in names :: s'.owner[n] == s.owner[n])
  }

  lemma Granted(s: State, p: Pid, names: seq<int>)
    ensures IsGrant(s, Grant(s, p, names), p, names)
  {
  }

  lemma GrantKept(s: State, p: Pid, names: seq<int>, pr: Proc, pr': Proc)
    requires p in s.procs && Linked(s, p, pr) && AllFree(s, names)
    requires SameHandles(pr, pr')
    requires forall m :: Owns(pr', m) <==> Owns(pr, m) || m in names
    requires names == [GATE] || Owns(pr, GATE)
    ensures var s' := Put(Grant(s, p, names), p, pr'); Linked(s', p, pr') && Frame(s, s', p)
  {
    Granted(s, p, names);
  }

  lemma ReleaseKept(s: State, p: Pid, n: int, pr: Proc, pr': Proc)
    requires p in s.procs && Linked(s, p, pr)
    requires SameHandles(pr, pr')
    requires forall m :: Owns(pr', m) <==> Owns(pr, m) && m != n
    ensures var s' := Put(Release(s, p, n), p, pr'); Linked(s', p, pr') && Frame(s, s', p)
  {
  }

  // What each system call does to the process that makes it: its fields, what it is linked to, its cover.

  lemma ReleaseBegins(pr: Proc, after: After)
    requires pr.pc == Idle && pr.open && Local(pr) && pr.mode != NoLock && AfterOk(after, pr.asked)
    ensures Local(BeginRelease(pr, after))
    ensures SameOwned(pr, BeginRelease(pr, after)) && SameHandles(pr, BeginRelease(pr, after))
  {
  }

  lemma UnlockBegins(pr: Proc)
    requires pr.pc == Idle && Local(pr)
    ensures var pr' := BeginUnlock(pr.(asked := NoLock)); Local(pr') && SameOwned(pr, pr') && SameHandles(pr, pr')
  {
    var pr0 := pr.(asked := NoLock);
    assert Local(pr0);
    if pr.open && pr.mode != NoLock {
      ReleaseBegins(pr0, Return(true));
    }
  }

  lemma LockBegins(pr: Proc, mode: LockMode, block: bool)
    requires pr.pc == Idle && Local(pr)
    ensures var pr' := BeginLock(pr, mode, block); Local(pr') && SameOwned(pr, pr') && SameHandles(pr, pr')
  {
    if pr.open && mode == NoLock {
      UnlockBegins(pr);
    } else if pr.open && mode != pr.mode && pr.mode != NoLock {
      var pr0 := pr.(asked := mode);
      assert BeginLock(pr, mode, block) == BeginRelease(pr0, Then(Request(mode, block)));
      var pr' := BeginRelease(pr0, Then(Request(mode, block)));
      assert OwnSlots(pr') == OwnSlots(pr) && OpenSlots(pr') == OpenSlots(pr);
    }
  }

  lemma GateLocal(s: State, p: Pid, out: Outcome)
    requires p in s.procs && Local(s.procs[p])
    requires s.procs[p].pc.CreateGate? || s.procs[p].pc.WaitGate?
    ensures Local(StepProc(s, p, out).procs[p])
  {
  }

  lemma ReaderLocal(s: State, p: Pid, pr: Proc, r: ReadPc, out: Outcome)
    requires pr.pc == Read(r) && Local(pr)
    ensures Local(StepReader(s, p, pr, r, out).procs[p])
  {
    var pr' := StepReader(s, p, pr, r, out).procs[p];
    assert pr'.rmutexes == [] && pr'.wmutex;
    assert r.LeaveGate? ==> pr'.pc == Idle && pr'.rmutex == pr.rmutex;
    assert !r.LeaveGate? ==> pr'.pc.Read? && ReadOk(pr', pr'.pc.r);
  }

  lemma AppendSlot(names: seq<int>, idx: nat)
    requires Slots(names, idx) && idx < MAX_READERS
    ensures Slots(names, idx + 1) && Slots(names + [idx], idx + 1) && Slots(names + [idx], MAX_READERS)
  {
  }

  lemma CollectFields(pr: Proc, names: seq<int>, idx: nat, block: bool)
    requires pr.pc == Write(Collect(idx), block) && Local(pr)
    requires Slots(names, idx + 1) && Slots(names, MAX_READERS)
    ensures idx + 1 < MAX_READERS ==> Local(pr.(rmutexes := names, pc := Write(Collect(idx + 1), block)))
    ensures names != [] ==> Local(pr.(rmutexes := names, pc := Write(WaitAll, block)))
    ensures names == [] ==> Local(Returns(pr.(rmutexes := names, mode := WriteLock), true))
  {
  }

  lemma CollectLocal(s: State, p: Pid, pr: Proc, idx: nat, block: bool)
    requires pr.pc == Write(Collect(idx), block) && Local(pr)
    ensures Local(StepCollect(s, p, pr, idx, block).procs[p])
  {
    AppendSlot(pr.rmutexes, idx);
    CollectFields(pr, pr.rmutexes, idx, block);
    CollectFields(pr, pr.rmutexes + [idx], idx, block);
  }

  lemma WaitAllLocal(s: State, p: Pid, pr: Proc, block: bool, out: Outcome)
    requires pr.pc == Write(WaitAll, block) && Local(pr)
    ensures Local(StepWaitAll(s, p, pr, out).procs[p])
  {
  }

  lemma Continues(pr: Proc, after: After)
    requires pr.open && pr.mode == NoLock && pr.rmutex == [] && pr.rmutexes == [] && AfterOk(after, pr.asked)
    ensures Local(Continue(pr, after))
  {
  }

  lemma ReleaseLocal(s: State, p: Pid, pr: Proc, f: FreePc, after: After)
    requires p in s.procs && s.procs[p] == pr && pr.pc == Free(f, after) && Local(pr)
    ensures p in StepRelease(s, p, pr, f, after).procs && Local(StepRelease(s, p, pr, f, after).procs[p])
  {
    match f
    case CloseRead => Continues(pr.(rmutex := [], mode := NoLock), after);
    case ReleaseGate(_) => Continues(pr.(mode := NoLock), after);
    case CloseEach(todo, _) => DropFirst(todo);
    case _ =>
  }

  lemma CreateLinked(s: State, p: Pid, pr: Proc, req: Request, out: Outcome)
    requires p in s.procs && s.procs[p] == pr && pr.pc == CreateGate(req) && Local(pr) && Linked(s, p, pr)
    ensures var s' := StepProc(s, p, out); Linked(s', p, s'.procs[p]) && Frame(s, s', p)
  {
    if out == Normal {
      OpenKept(s, p, GATE, pr, pr.(wmutex := true, pc := WaitGate(req)));
    } else {
      LocalKept(s, p, pr, Returns(pr, false));
    }
  }

  lemma TakenFields(pr: Proc, req: Request, pr': Proc)
    requires pr.pc == WaitGate(req) && Local(pr)
    requires pr' == pr.(pc := if req.mode == ReadLock then Read(OpenSlot(0)) else Write(Collect(0), req.block))
    ensures SameHandles(pr, pr') && forall m :: Owns(pr', m) <==> Owns(pr, m) || m in [GATE]
  {
  }

  lemma WaitLinked(s: State, p: Pid, pr: Proc, req: Request, out: Outcome)
    requires p in s.procs && s.procs[p] == pr && pr.pc == WaitGate(req) && Local(pr) && Linked(s, p, pr)
    ensures var s' := StepGate(s, p, pr, req, out); Linked(s', p, s'.procs[p]) && Frame(s, s', p)
  {
    if out == Normal && GATE !in s.owner {
      var pr' := pr.(pc := if req.mode == ReadLock then Read(OpenSlot(0)) else Write(Collect(0), req.block));
      TakenFields(pr, req, pr');
      GrantKept(s, p, [GATE], pr, pr');
    } else {
      LocalKept(s, p, pr, Returns(pr, false));
    }
  }

  lemma GateLinked(s: State, p: Pid, pr: Proc, out: Outcome)
    requires p in s.procs && s.procs[p] == pr && Local(pr) && Linked(s, p, pr)
    requires pr.pc.CreateGate? || pr.pc.WaitGate?
    ensures var s' := StepProc(s, p, out); Linked(s', p, s'.procs[p]) && Frame(s, s', p)
  {
    match pr.pc
    case CreateGate(req) => CreateLinked(s, p, pr, req, out);
    case WaitGate(req) => WaitLinked(s, p, pr, req, out);
  }

  lemma ScanLinked(s: State, p: Pid, pr: Proc, r: ReadPc, out: Outcome)
    requires p in s.procs && pr.pc == Read(r) && Local(pr) && Linked(s, p, pr)
    requires r.OpenSlot? || r.TrySlot? || r.CloseSlot?
    ensures var s' := StepReader(s, p, pr, r, out); Linked(s', p, s'.procs[p]) && Frame(s, s', p)
  {
    var pr' := StepReader(s, p, pr, r, out).procs[p];
    assert Owns(pr, GATE);
    assert OpenSlots(pr) == pr.rmutex && OpenSlots(pr') == pr'.rmutex && OwnSlots(pr) == [];
    match r
    case OpenSlot(idx) =>
      if Exists(s, idx) { OpenKept(s, p, idx, pr, pr'); } else { LocalKept(s, p, pr, pr'); }
    case TrySlot(idx) =>
      if out == Normal && idx !in s.owner { GrantKept(s, p, [idx], pr, pr'); } else { LocalKept(s, p, pr, pr'); }
    case CloseSlot(idx) => CloseKept(s, p, idx, pr, pr');
  }

  lemma MakeLinked(s: State, p: Pid, pr: Proc, r: ReadPc, out: Outcome)
    requires p in s.procs && pr.pc == Read(r) && Local(pr) && Linked(s, p, pr)
    requires r.MakeSlot? || r.TakeSlot? || r.DropSlot?
    ensures var s' := StepReader(s, p, pr, r, out); Linked(s', p, s'.procs[p]) && Frame(s, s', p)
  {
    var pr' := StepReader(s, p, pr, r, out).procs[p];
    assert Owns(pr, GATE);
    assert OpenSlots(pr) == pr.rmutex && OpenSlots(pr') == pr'.rmutex && OwnSlots(pr) == [];
    match r
    case MakeSlot(idx) =>
      if out == Normal { OpenKept(s, p, idx, pr, pr'); } else { LocalKept(s, p, pr, pr'); }
    case TakeSlot(idx) =>
      if out == Normal && idx !in s.owner { GrantKept(s, p, [idx], pr, pr'); } else { LocalKept(s, p, pr, pr'); }
    case DropSlot(idx) => CloseKept(s, p, idx, pr, pr');
  }

  lemma ReaderLinked(s: State, p: Pid, pr: Proc, r: ReadPc, out: Outcome)
    requires p in s.procs && pr.pc == Read(r) && Local(pr) && Linked(s, p, pr)
    ensures var s' := StepReader(s, p, pr, r, out); Linked(s', p, s'.procs[p]) && Frame(s, s', p)
  {
    if r.OpenSlot? || r.TrySlot? || r.CloseSlot? {
      ScanLinked(s, p, pr, r, out);
    } else if r.LeaveGate? {
      ReleaseKept(s, p, GATE, pr, StepReader(s, p, pr, r, out).procs[p]);
    } else {
      MakeLinked(s, p, pr, r, out);
    }
  }

  lemma CollectLinked(s: State, p: Pid, pr: Proc, idx: nat, block: bool)
    requires p in s.procs && pr.pc == Write(Collect(idx), block) && Local(pr) && Linked(s, p, pr)
    ensures var s' := StepCollect(s, p, pr, idx, block); Linked(s', p, s'.procs[p]) && Frame(s, s', p)
  {
    var pr' := StepCollect(s, p, pr, idx, block).procs[p];
    assert Owns(pr, GATE);
    assert OpenSlots(pr') == if Exists(s, idx) then OpenSlots(pr) + [idx] else OpenSlots(pr);
    if Exists(s, idx) { OpenKept(s, p, idx, pr, pr'); } else { LocalKept(s, p, pr, pr'); }
  }

  lemma WaitAllLinked(s: State, p: Pid, pr: Proc, block: bool, out: Outcome)
    requires p in s.procs && pr.pc == Write(WaitAll, block) && Local(pr) && Linked(s, p, pr) && CanStep(s, pr, out)
    ensures var s' := StepWaitAll(s, p, pr, out); Linked(s', p, s'.procs[p]) && Frame(s, s', p)
  {
    var pr' := StepWaitAll(s, p, pr, out).procs[p];
    assert Owns(pr, GATE);
    if out == Abandoned || (out == Normal && AllFree(s, pr.rmutexes)) {
      GrantKept(s, p, pr.rmutexes, pr, pr');
    } else {
      LocalKept(s, p, pr, pr');
    }
  }

  lemma DropFirst(todo: seq<int>)
    requires todo != [] && Slots(todo, MAX_READERS)
    ensures Slots(todo[1..], MAX_READERS) && GATE !in todo
    ensures forall n :: n in todo[1..] <==> n in todo && n != todo[0]
  {
  }

  lemma ReadReleaseFields(pr: Proc, after: After, pr': Proc)
    requires pr.pc == Free(ReleaseRead, after) && Local(pr) && pr' == pr.(pc := Free(CloseRead, after))
    ensures SameHandles(pr, pr') && forall m :: Owns(pr', m) <==> Owns(pr, m) && m != pr.rmutex[0]
  {
    assert pr.rmutex == [pr.rmutex[0]] && pr.rmutexes == [];
  }

  lemma ReadCloseFields(pr: Proc, after: After, pr': Proc)
    requires pr.pc == Free(CloseRead, after) && Local(pr)
    requires pr' == Continue(pr.(rmutex := [], mode := NoLock), after)
    ensures SameOwned(pr, pr') && forall m :: HasHandle(pr', m) <==> HasHandle(pr, m) && m != pr.rmutex[0]
  {
    assert pr.rmutex == [pr.rmutex[0]] && pr.rmutexes == [];
    assert OpenSlots(pr) == [pr.rmutex[0]] && OpenSlots(pr') == [];
  }

  lemma ReadReleaseLinked(s: State, p: Pid, pr: Proc, f: FreePc, after: After)
    requires p in s.procs && pr.pc == Free(f, after) && Local(pr) && Linked(s, p, pr)
    requires f.ReleaseRead? || f.CloseRead?
    ensures var s' := StepRelease(s, p, pr, f, after); p in s'.procs && Linked(s', p, s'.procs[p]) && Frame(s, s', p)
  {
    var pr' := StepRelease(s, p, pr, f, after).procs[p];
    if f.ReleaseRead? {
      ReadReleaseFields(pr, after, pr');
      ReleaseKept(s, p, pr.rmutex[0], pr, pr');
    } else {
      ReadCloseFields(pr, after, pr');
      CloseKept(s, p, pr.rmutex[0], pr, pr');
    }
  }

  lemma EachReleaseLinked(s: State, p: Pid, pr: Proc, todo: seq<int>, held: bool, after: After)
    requires p in s.procs && pr.pc == Free(ReleaseEach(todo, held), after) && Local(pr) && Linked(s, p, pr)
    ensures var s' := StepRelease(s, p, pr, pr.pc.f, after);
            p in s'.procs && Linked(s', p, s'.procs[p]) && Frame(s, s', p)
  {
    var pr' := StepRelease(s, p, pr, pr.pc.f, after).procs[p];
    DropFirst(todo);
    assert OwnSlots(pr) == (if held then todo else []) && OwnSlots(pr') == if held then todo[1..] else [];
    assert OpenSlots(pr') == OpenSlots(pr);
    ReleaseKept(s, p, todo[0], pr, pr');
  }

  lemma EachCloseFields(pr: Proc, todo: seq<int>, held: bool, after: After, pr': Proc)
    requires pr.pc == Free(CloseEach(todo, held), after) && Local(pr)
    requires pr' == if |todo| > 1 then pr.(pc := Free(ReleaseEach(todo[1..], held), after))
                    else pr.(rmutexes := [], pc := Free(ReleaseGate(held), after))
    ensures SameOwned(pr, pr') && forall m :: HasHandle(pr', m) <==> HasHandle(pr, m) && m != todo[0]
  {
    DropFirst(todo);
    assert OwnSlots(pr') == OwnSlots(pr);
    assert OpenSlots(pr') == todo[1..];
  }

  lemma EachCloseLinked(s: State, p: Pid, pr: Proc, todo: seq<int>, held: bool, after: After)
    requires p in s.procs && pr.pc == Free(CloseEach(todo, held), after) && Local(pr) && Linked(s, p, pr)
    ensures var s' := StepRelease(s, p, pr, pr.pc.f, after);
            p in s'.procs && Linked(s', p, s'.procs[p]) && Frame(s, s', p)
  {
    var pr' := StepRelease(s, p, pr, pr.pc.f, after).procs[p];
    EachCloseFields(pr, todo, held, after, pr');
    CloseKept(s, p, todo[0], pr, pr');
  }

  lemma GateReleaseLinked(s: State, p: Pid, pr: Proc, f: FreePc, after: After)
    requires p in s.procs && pr.pc == Free(f, after) && Local(pr) && Linked(s, p, pr) && f.ReleaseGate?
    ensures var s' := StepRelease(s, p, pr, f, after); p in s'.procs && Linked(s', p, s'.procs[p]) && Frame(s, s', p)
  {
    var pr' := Continue(pr.(mode := NoLock), after);
    GateReleaseFields(pr, f, after, pr');
    ReleaseKept(s, p, GATE, pr, pr');
  }

  lemma GateReleaseFields(pr: Proc, f: FreePc, after: After, pr': Proc)
    requires pr.pc == Free(f, after) && Local(pr) && f.ReleaseGate?
    requires pr' == Continue(pr.(mode := NoLock), after)
    ensures SameHandles(pr, pr') && forall m :: Owns(pr', m) <==> Owns(pr, m) && m != GATE
  {
  }

  lemma GateCovers(s: State, p: Pid, out: Outcome)
    requires p in s.procs && Local(s.procs[p]) && (s.procs[p].pc.CreateGate? || s.procs[p].pc.WaitGate?)
    ensures var s' := StepProc(s, p, out); Covers(s', p, s'.procs[p])
  {
  }

  lemma ReaderCovers(s: State, p: Pid, pr: Proc, r: ReadPc, out: Outcome)
    requires pr.pc == Read(r) && Local(pr) && Covers(s, p, pr)
    ensures var s' := StepReader(s, p, pr, r, out); Covers(s', p, s'.procs[p])
  {
  }

  ghost predicate OwnersHaveHandles(s: State) {
    forall n | n in s.owner :: (s.owner[n], n) in s.handles
  }

  lemma CollectCovers(s: State, p: Pid, pr: Proc, idx: nat, block: bool)
    requires pr.pc == Write(Collect(idx), block) && Local(pr) && Covers(s, p, pr) && OwnersHaveHandles(s)
    ensures var s' := StepCollect(s, p, pr, idx, block); Covers(s', p, s'.procs[p])
  {
    var s' := StepCollect(s, p, pr, idx, block);
    var pr' := s'.procs[p];
    if idx in s.owner {
      var h := (s.owner[idx], idx as int);
      assert h in s.handles && h.1 == idx;
    }
    assert Found(s', pr'.rmutexes, idx + 1);
  }

  lemma WaitAllCovers(s: State, p: Pid, pr: Proc, block: bool, out: Outcome)
    requires pr.pc == Write(WaitAll, block) && Local(pr) && Covers(s, p, pr) && CanStep(s, pr, out)
    ensures var s' := StepWaitAll(s, p, pr, out); Covers(s', p, s'.procs[p])
  {
  }

  lemma ReleaseCovers(s: State, p: Pid, pr: Proc, f: FreePc, after: After)
    requires p in s.procs && pr.pc == Free(f, after) && Local(pr) && Covers(s, p, pr)
    ensures var s' := StepRelease(s, p, pr, f, after); p in s'.procs && Covers(s', p, s'.procs[p])
  {
  }

  // ---------- every reachable state ----------

  lemma OwnersHoldHandles(pr: Proc, n: int)
    requires Local(pr) && Owns(pr, n)
    ensures HasHandle(pr, n)
  {
  }

  lemma AllOwnersHoldHandles(s: State)
    requires Inv(s)
    ensures OwnersHaveHandles(s)
  {
    forall n | n in s.owner
      ensures (s.owner[n], n) in s.handles
    {
      var pr := s.procs[s.owner[n]];
      assert Good(s, s.owner[n]);
      assert Owns(pr, n);
      OwnersHoldHandles(pr, n);
    }
  }

  lemma ReleaseLinked(s: State, p: Pid, pr: Proc, f: FreePc, after: After)
    requires p in s.procs && pr.pc == Free(f, after) && Local(pr) && Linked(s, p, pr)
    ensures var s' := StepRelease(s, p, pr, f, after); p in s'.procs && Linked(s', p, s'.procs[p]) && Frame(s, s', p)
  {
    match f
    case ReleaseEach(todo, held) => EachReleaseLinked(s, p, pr, todo, held, after);
    case CloseEach(todo, held) => EachCloseLinked(s, p, pr, todo, held, after);
    case ReleaseGate(_) => GateReleaseLinked(s, p, pr, f, after);
    case _ => ReadReleaseLinked(s, p, pr, f, after);
  }

  lemma FramedInv(s: State, s': State, p: Pid)
    requires Inv(s) && Frame(s, s', p)
    requires p in s'.procs && Good(s', p)
    ensures Inv(s')
  {
    forall q | q in s'.procs
      ensures Good(s', q)
    {
      if q != p { OthersStayGood(s, s', p, q); }
    }
  }

  lemma SetOpenKept(s: State, p: Pid, open: bool)
    requires Inv(s) && p in s.procs && s.procs[p].pc == Idle
    ensures Inv(Put(s, p, s.procs[p].(open := open)))
  {
    assert Good(s, p);
    LocalKept(s, p, s.procs[p], s.procs[p].(open := open));
    FramedInv(s, Put(s, p, s.procs[p].(open := open)), p);
  }

  lemma LockKept(s: State, p: Pid, mode: LockMode, block: bool)
    requires Inv(s) && p in s.procs && s.procs[p].pc == Idle
    ensures Inv(Put(s, p, BeginLock(s.procs[p], mode, block)))
  {
    assert Good(s, p);
    var pr' := BeginLock(s.procs[p], mode, block);
    LockBegins(s.procs[p], mode, block);
    LocalKept(s, p, s.procs[p], pr');
    assert Covers(Put(s, p, pr'), p, pr');
    FramedInv(s, Put(s, p, pr'), p);
  }

  lemma UnlockKept(s: State, p: Pid)
    requires Inv(s) && p in s.procs && s.procs[p].pc == Idle
    ensures Inv(Put(s, p, BeginUnlock(s.procs[p].(asked := NoLock))))
  {
    assert Good(s, p);
    var pr' := BeginUnlock(s.procs[p].(asked := NoLock));
    UnlockBegins(s.procs[p]);
    LocalKept(s, p, s.procs[p], pr');
    assert Covers(Put(s, p, pr'), p, pr');
    FramedInv(s, Put(s, p, pr'), p);
  }

  lemma GateKept(s: State, p: Pid, out: Outcome)
    requires Inv(s) && p in s.procs && (s.procs[p].pc.CreateGate? || s.procs[p].pc.WaitGate?)
    ensures Inv(StepProc(s, p, out))
  {
    assert Good(s, p);
    GateLocal(s, p, out);
    GateLinked(s, p, s.procs[p], out);
    GateCovers(s, p, out);
    FramedInv(s, StepProc(s, p, out), p);
  }

  lemma ReaderKept(s: State, p: Pid, r: ReadPc, out: Outcome)
    requires Inv(s) && p in s.procs && s.procs[p].pc == Read(r)
    ensures Inv(StepReader(s, p, s.procs[p], r, out))
  {
    assert Good(s, p);
    ReaderLocal(s, p, s.procs[p], r, out);
    ReaderLinked(s, p, s.procs[p], r, out);
    ReaderCovers(s, p, s.procs[p], r, out);
    FramedInv(s, StepReader(s, p, s.procs[p], r, out), p);
  }

  lemma CollectKept(s: State, p: Pid, idx: nat, block: bool)
    requires Inv(s) && p in s.procs && s.procs[p].pc == Write(Collect(idx), block)
    ensures Inv(StepCollect(s, p, s.procs[p], idx, block))
  {
    assert Good(s, p);
    AllOwnersHoldHandles(s);
    CollectLocal(s, p, s.procs[p], idx, block);
    CollectLinked(s, p, s.procs[p], idx, block);
    CollectCovers(s, p, s.procs[p], idx, block);
    FramedInv(s, StepCollect(s, p, s.procs[p], idx, block), p);
  }

  lemma WaitAllKept(s: State, p: Pid, block: bool, out: Outcome)
    requires Inv(s) && p in s.procs && s.procs[p].pc == Write(WaitAll, block) && CanStep(s, s.procs[p], out)
    ensures Inv(StepWaitAll(s, p, s.procs[p], out))
  {
    assert Good(s, p);
    WaitAllLocal(s, p, s.procs[p], block, out);
    WaitAllLinked(s, p, s.procs[p], block, out);
    WaitAllCovers(s, p, s.procs[p], block, out);
    FramedInv(s, StepWaitAll(s, p, s.procs[p], out), p);
  }

  lemma FreeKept(s: State, p: Pid, f: FreePc, after: After)
    requires Inv(s) && p in s.procs && s.procs[p].pc == Free(f, after)
    ensures Inv(StepRelease(s, p, s.procs[p], f, after))
  {
    assert Good(s, p);
    ReleaseLocal(s, p, s.procs[p], f, after);
    ReleaseLinked(s, p, s.procs[p], f, after);
    ReleaseCovers(s, p, s.procs[p], f, after);
    FramedInv(s, StepRelease(s, p, s.procs[p], f, after), p);
  }

  lemma StepKept(s: State, p: Pid, out: Outcome)
    requires Inv(s) && p in s.procs && CanStep(s, s.procs[p], out)
    ensures Inv(StepProc(s, p, out))
  {
    match s.procs[p].pc
    case CreateGate(_) => GateKept(s, p, out);
    case WaitGate(_) => GateKept(s, p, out);
    case Read(r) => ReaderKept(s, p, r, out);
    case Write(Collect(idx), block) => CollectKept(s, p, idx, block);
    case Write(WaitAll, block) => WaitAllKept(s, p, block, out);
    case Free(f, after) => FreeKept(s, p, f, after);
  }

  lemma StartKept(s: State, p: Pid, open: bool)
    requires Inv(s) && p !in s.procs
    ensures Inv(Next(s, Start(p, open)))
  {
    var s' := Next(s, Start(p, open));
    assert Linked(s', p, s'.procs[p]);
    FramedInv(s, s', p);
  }

  lemma ExitKept(s: State, p: Pid)
    requires Inv(s) && p in s.procs
    ensures Inv(Next(s, Exit(p)))
  {
    var s' := Next(s, Exit(p));
    assert Frame(s, s', p);
    forall q | q in s'.procs
      ensures Good(s', q)
    {
      OthersStayGood(s, s', p, q);
    }
  }

  lemma NextKeepsInv(s: State, a: Action)
    requires Inv(s) && Enabled(s, a)
    ensures Inv(Next(s, a))
  {
    match a
    case Start(p, open) => StartKept(s, p, open);
    case Exit(p) => ExitKept(s, p);
    case SetOpen(p, open) => SetOpenKept(s, p, open);
    case Lock(p, mode, block) => LockKept(s, p, mode, block);
    case Unlock(p) => UnlockKept(s, p);
    case Step(p, out) => StepKept(s, p, out);
  }

  lemma {:induction false} RunKeepsInv(s: State, acts: seq<Action>)
    requires Inv(s) && Possible(s, acts)
    ensures Inv(Exec(s, acts))
    decreases |acts|
  {
    if acts != [] {
      NextKeepsInv(s, acts[0]);
      RunKeepsInv(Next(s, acts[0]), acts[1..]);
    }
  }
}
