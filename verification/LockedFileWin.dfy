/** QtLockedFile on Windows: a readers/writer lock built from named mutexes.
  *
  * One gate mutex and up to MAX_READERS reader slots are created, opened and closed on the fly. Every
  * call into the operating system is one atomic step, and between any two of them every other process
  * may run. A process may end, or crash, at any point, which abandons what it owns.
  */
module LockedFileWin {
  import opened RwLock

  /** MAXIMUM_WAIT_OBJECTS. */
  const MAX_READERS: nat := 64

  /** The name of the gate mutex; the reader slots are named 0, 1, ... */
  const GATE: int := -1

  /** What lock() still has to obtain. */
  datatype Request = Request(mode: LockMode, block: bool)

  /** What follows once the current lock has been released. */
  datatype After = Return(result: bool) | Then(req: Request)

  /** The operating-system call a process is about to make. */
  datatype Pc =
    | Idle
    | CreateGate(req: Request)
    | WaitGate(req: Request)
    | Read(r: ReadPc)
    | Write(w: WritePc, block: bool)
    | Free(f: FreePc, after: After)

  /** lock(ReadLock), holding the gate: scan for a slot, or make one. */
  datatype ReadPc =
    | OpenSlot(idx: nat)
    | TrySlot(idx: nat)
    | CloseSlot(idx: nat)
    | MakeSlot(idx: nat)
    | TakeSlot(idx: nat)
    | DropSlot(idx: nat)
    | LeaveGate(ok: bool)

  /** lock(WriteLock), holding the gate: collect all slots, then wait for all of them. */
  datatype WritePc =
    | Collect(idx: nat)
    | WaitAll

  /** unlock(). `held` tells whether the slots on the way out are really owned. */
  datatype FreePc =
    | ReleaseRead
    | CloseRead
    | ReleaseEach(todo: seq<int>, held: bool)
    | CloseEach(todo: seq<int>, held: bool)
    | ReleaseGate(held: bool)

  /** One process with its lock object. `asked` is the mode of the last lock() call that found the file
    * open, and `ret` what the last call returned.
    */
  datatype Proc = Proc(
    open: bool,
    mode: LockMode,
    wmutex: bool,
    rmutex: seq<int>,      // empty or one slot
    rmutexes: seq<int>,
    pc: Pc,
    asked: LockMode,
    ret: bool)

  /** The shared state: live processes, mutex owners, and open handles. */
  datatype State = State(procs: map<Pid, Proc>, owner: map<int, Pid>, handles: set<(Pid, int)>)

  /** How the operating system answers: as it should, with an error, or (wait-all only) by granting the
    * mutexes and reporting an abandoned one that is not the first.
    */
  datatype Outcome = Normal | Error | Abandoned

  datatype Action =
    | Start(p: Pid, open: bool)
    | Exit(p: Pid)
    | SetOpen(p: Pid, open: bool)
    | Lock(p: Pid, mode: LockMode, block: bool)
    | Unlock(p: Pid)
    | Step(p: Pid, out: Outcome)

  const INIT := State(map[], map[], {})

  // ---------- the operating system ----------

  predicate Exists(s: State, n: int) {
    exists h | h in s.handles :: h.1 == n
  }

  predicate AllFree(s: State, names: seq<int>) {
    forall n | n in names :: n !in s.owner
  }

  function Grant(s: State, p: Pid, names: seq<int>): State {
    s.(owner := map n | n in s.owner.Keys + (set m | m in names) :: if n in names then p else s.owner[n])
  }

  /** Releasing a mutex that p does not own does nothing. */
  function Release(s: State, p: Pid, n: int): State {
    if n in s.owner && s.owner[n] == p then s.(owner := s.owner - {n}) else s
  }

  function OpenHandle(s: State, p: Pid, n: int): State {
    s.(handles := s.handles + {(p, n)})
  }

  function CloseHandle(s: State, p: Pid, n: int): State {
    s.(handles := s.handles - {(p, n)})
  }

  // ---------- lock() and unlock(), one system call at a time ----------

  function Put(s: State, p: Pid, pr: Proc): State {
    s.(procs := s.procs[p := pr])
  }

  function Returns(pr: Proc, result: bool): Proc {
    pr.(pc := Idle, ret := result)
  }

  function BeginAcquire(pr: Proc, req: Request): Proc {
    pr.(pc := if pr.wmutex then WaitGate(req) else CreateGate(req))
  }

  function Continue(pr: Proc, after: After): Proc {
    match after
    case Return(b) => Returns(pr, b)
    case Then(req) => BeginAcquire(pr, req)
  }

  function BeginWriteRelease(pr: Proc, held: bool, after: After): Proc {
    pr.(pc := Free(if pr.rmutexes == [] then ReleaseGate(held) else ReleaseEach(pr.rmutexes, held), after))
  }

  function BeginRelease(pr: Proc, after: After): Proc {
    if pr.mode == ReadLock then pr.(pc := Free(ReleaseRead, after)) else BeginWriteRelease(pr, true, after)
  }

  function BeginUnlock(pr: Proc): Proc {
    if !pr.open then Returns(pr, false)
    else if pr.mode == NoLock then Returns(pr, true)
    else BeginRelease(pr, Return(true))
  }

  function BeginLock(pr: Proc, mode: LockMode, block: bool): Proc {
    if !pr.open then Returns(pr, false).(asked := NoLock)
    else if mode == NoLock then BeginUnlock(pr.(asked := NoLock))
    else
      var pr := pr.(asked := mode);
      if mode == pr.mode then Returns(pr, true)
      else if pr.mode != NoLock then BeginRelease(pr, Then(Request(mode, block)))
      else BeginAcquire(pr, Request(mode, block))
  }

  function StepGate(s: State, p: Pid, pr: Proc, req: Request, out: Outcome): State {
    if out == Normal && GATE !in s.owner then
      Put(Grant(s, p, [GATE]), p,
          pr.(pc := if req.mode == ReadLock then Read(OpenSlot(0)) else Write(Collect(0), req.block)))
    else Put(s, p, Returns(pr, false))
  }

  function StepReader(s: State, p: Pid, pr: Proc, r: ReadPc, out: Outcome): State {
    match r
    case OpenSlot(idx) =>
      if Exists(s, idx) then Put(OpenHandle(s, p, idx), p, pr.(rmutex := [idx], pc := Read(TrySlot(idx))))
      else Put(s, p, pr.(rmutex := [], pc := Read(MakeSlot(idx))))
    case TrySlot(idx) =>
      if out == Normal && idx !in s.owner then Put(Grant(s, p, [idx]), p, pr.(pc := Read(LeaveGate(true))))
      else Put(s, p, pr.(pc := Read(CloseSlot(idx))))
    case CloseSlot(idx) =>
      Put(CloseHandle(s, p, idx), p,
          pr.(rmutex := [], pc := Read(if idx + 1 < MAX_READERS then OpenSlot(idx + 1) else LeaveGate(false))))
    case MakeSlot(idx) =>
      if out == Normal then Put(OpenHandle(s, p, idx), p, pr.(rmutex := [idx], pc := Read(TakeSlot(idx))))
      else Put(s, p, pr.(pc := Read(LeaveGate(false))))
    case TakeSlot(idx) =>
      if out == Normal && idx !in s.owner then Put(Grant(s, p, [idx]), p, pr.(pc := Read(LeaveGate(true))))
      else Put(s, p, pr.(pc := Read(DropSlot(idx))))
    case DropSlot(idx) =>
      Put(CloseHandle(s, p, idx), p, pr.(rmutex := [], pc := Read(LeaveGate(false))))
    case LeaveGate(ok) =>
      Put(Release(s, p, GATE), p, Returns(if ok then pr.(mode := ReadLock) else pr, ok))
  }

  function StepCollect(s: State, p: Pid, pr: Proc, idx: nat, block: bool): State {
    var found := Exists(s, idx);
    var s' := if found then OpenHandle(s, p, idx) else s;
    var pr' := if found then pr.(rmutexes := pr.rmutexes + [idx]) else pr;
    if idx + 1 < MAX_READERS then Put(s', p, pr'.(pc := Write(Collect(idx + 1), block)))
    else if pr'.rmutexes != [] then Put(s', p, pr'.(pc := Write(WaitAll, block)))
    else Put(s', p, Returns(pr'.(mode := WriteLock), true))
  }

  function StepWaitAll(s: State, p: Pid, pr: Proc, out: Outcome): State {
    var pr' := pr.(mode := WriteLock);
    if out == Normal && AllFree(s, pr.rmutexes) then Put(Grant(s, p, pr.rmutexes), p, Returns(pr', true))
    else if out == Abandoned then Put(Grant(s, p, pr.rmutexes), p, BeginWriteRelease(pr', true, Return(false)))
    else Put(s, p, BeginWriteRelease(pr', false, Return(false)))
  }

  function StepRelease(s: State, p: Pid, pr: Proc, f: FreePc, after: After): State {
    match f
    case ReleaseRead =>
      if |pr.rmutex| == 1 then Put(Release(s, p, pr.rmutex[0]), p, pr.(pc := Free(CloseRead, after))) else s
    case CloseRead =>
      if |pr.rmutex| == 1 then
        Put(CloseHandle(s, p, pr.rmutex[0]), p, Continue(pr.(rmutex := [], mode := NoLock), after))
      else s
    case ReleaseEach(todo, held) =>
      if todo == [] then s else Put(Release(s, p, todo[0]), p, pr.(pc := Free(CloseEach(todo, held), after)))
    case CloseEach(todo, held) =>
      if todo == [] then s
      else if |todo| > 1 then
        Put(CloseHandle(s, p, todo[0]), p, pr.(pc := Free(ReleaseEach(todo[1..], held), after)))
      else
        Put(CloseHandle(s, p, todo[0]), p, pr.(rmutexes := [], pc := Free(ReleaseGate(held), after)))
    case ReleaseGate(held) =>
      Put(Release(s, p, GATE), p, Continue(pr.(mode := NoLock), after))
  }

  function StepProc(s: State, p: Pid, out: Outcome): State
    requires p in s.procs
  {
    var pr := s.procs[p];
    match pr.pc
    case Idle => s
    case CreateGate(req) =>
      if out == Normal then Put(OpenHandle(s, p, GATE), p, pr.(wmutex := true, pc := WaitGate(req)))
      else Put(s, p, Returns(pr, false))
    case WaitGate(req) => StepGate(s, p, pr, req, out)
    case Read(r) => StepReader(s, p, pr, r, out)
    case Write(Collect(idx), block) => StepCollect(s, p, pr, idx, block)
    case Write(WaitAll, _) => StepWaitAll(s, p, pr, out)
    case Free(f, after) => StepRelease(s, p, pr, f, after)
  }

  /** Which answers the operating system can give to the call p is about to make. A blocking wait on a
    * mutex that is not free gives none.
    */
  predicate CanStep(s: State, pr: Proc, out: Outcome) {
    match pr.pc
    case Idle => false
    case CreateGate(_) => out != Abandoned
    case WaitGate(req) => out == Error || (out == Normal && (GATE !in s.owner || !req.block))
    case Read(r) => out == Normal || (out == Error && (r.TrySlot? || r.MakeSlot? || r.TakeSlot?))
    case Write(Collect(_), _) => out == Normal
    case Write(WaitAll, block) =>
      || out == Error
      || (out == Normal && (AllFree(s, pr.rmutexes) || !block))
      || (out == Abandoned && AllFree(s, pr.rmutexes))
    case Free(_, _) => out == Normal
  }

  predicate Enabled(s: State, a: Action) {
    match a
    case Start(p, _) => p !in s.procs
    case Exit(p) => p in s.procs
    case Step(p, out) => p in s.procs && CanStep(s, s.procs[p], out)
    case _ => a.p in s.procs && s.procs[a.p].pc == Idle
  }

  function Next(s: State, a: Action): State
    requires Enabled(s, a)
  {
    match a
    case Start(p, open) => Put(s, p, Proc(open, NoLock, false, [], [], Idle, NoLock, false))
    case Exit(p) =>
      State(s.procs - {p},
            map n | n in s.owner && s.owner[n] != p :: s.owner[n],
            set h | h in s.handles && h.0 != p)
    case SetOpen(p, open) => Put(s, p, s.procs[p].(open := open))
    case Lock(p, mode, block) => Put(s, p, BeginLock(s.procs[p], mode, block))
    case Unlock(p) => Put(s, p, BeginUnlock(s.procs[p].(asked := NoLock)))
    case Step(p, out) => StepProc(s, p, out)
  }

  /** The action sequences the system can perform from s, and the state each leads to. */
  predicate Possible(s: State, acts: seq<Action>)
    decreases |acts|
  {
    acts == [] || (Enabled(s, acts[0]) && Possible(Next(s, acts[0]), acts[1..]))
  }

  function Exec(s: State, acts: seq<Action>): State
    requires Possible(s, acts)
    decreases |acts|
  {
    if acts == [] then s else Exec(Next(s, acts[0]), acts[1..])
  }
}
