/** The lock object of QtLockedFile on Unix, over the kernel's record locks. One object is followed through its
  * calls, which are those of the step system; the other processes act in the kernel between them.
  */
module LockedFileUnix {
  import opened RwLock
  import Steps = LockedFileUnixSteps

  /** The kernel's record locks on one file. Every method is one atomic system call of process p. */
  class Kernel {
    var locks: Holders

    ghost predicate Valid()
      reads this
    {
      Exclusive(locks)
    }

    function Of(p: Pid): LockMode
      reads this
    {
      if p in locks then locks[p] else NoLock
    }

    constructor (processes: set<Pid>)
      ensures Valid() && locks == map p | p in processes :: NoLock
    {
      locks := map p | p in processes :: NoLock;
    }

    /** Other processes run for a while and leave these locks behind. */
    method OthersRun(p: Pid, next: Holders)
      requires Valid() && LeavesAlone(locks, next, p)
      modifies this
      ensures Valid() && locks == next
    {
      locks := next;
    }

    /** F_SETLK, or F_SETLKW when `wait`, with l_type F_RDLCK or F_WRLCK. Setting replaces what p already
      * has. It fails on a conflict, and on any error; a waiting call fails on a conflict only by being
      * interrupted.
      */
    method SetLock(p: Pid, mode: LockMode, wait: bool, error: bool) returns (ok: bool)
      requires Valid() && p in locks && mode != NoLock
      modifies this
      ensures Valid() && SpecStep(old(locks), locks, p)
      ensures ok <==> !error && Compatible(old(locks), p, mode)
      ensures locks == if ok then old(locks)[p := mode] else old(locks)
    {
      ok := !error && Compatible(locks, p, mode);
      if ok {
        locks := locks[p := mode];
      }
    }

    /** F_UNLCK; also what close() does to the locks of p. */
    method ClearLock(p: Pid, error: bool) returns (ok: bool)
      requires Valid() && p in locks
      modifies this
      ensures Valid() && SpecStep(old(locks), locks, p)
      ensures ok <==> !error
      ensures locks == if ok then old(locks)[p := NoLock] else old(locks)
    {
      ok := !error;
      if ok {
        locks := locks[p := NoLock];
      }
    }
  }

  /** What other processes may do to the locks: anything the contract allows but touch those of p. */
  predicate LeavesAlone(locks: Holders, next: Holders, p: Pid) {
    p in locks && p in next && next[p] == locks[p] && Exclusive(next)
  }

  function Out(error: bool): Steps.Outcome {
    if error then Steps.Error else Steps.Normal
  }

  /** What a lock(mode) call comes to when the object has m: the mode it then has, and the kernel's locks, of which
    * base is what is there when the call would set its lock.
    */
  function ModeAfter(open: bool, m: LockMode, base: Holders, p: Pid, mode: LockMode, releaseError: bool,
                     setError: bool): LockMode
  {
    if !open || mode == m then m
    else if mode != NoLock && !setError && Compatible(base, p, mode) then mode
    else if releaseError then m else NoLock
  }

  lemma LockCallMeans(pr: Steps.Proc, locks: Holders, p: Pid, mode: LockMode, block: bool, releaseError: bool,
                      between: Holders, setError: bool)
    requires pr.pc == Steps.Idle
    ensures var s := Steps.LockCall(pr, locks, p, mode, block, Out(releaseError), between, Out(setError));
            var switches := pr.open && pr.mode != NoLock && mode != NoLock && mode != pr.mode;
            var base := if switches then between else locks;
            var m := ModeAfter(pr.open, pr.mode, base, p, mode, releaseError, setError);
            && p in s.procs && s.procs[p].mode == m && s.procs[p].ret == (pr.open && m == mode)
            && s.locks == if m == mode && mode != pr.mode && pr.open then
                            (if mode == NoLock then locks else base)[p := mode]
                          else base
  {
  }

  /** The lock object of process p. */
  class QtLockedFile {
    const p: Pid
    const kernel: Kernel
    var open: bool
    var mode: LockMode

    ghost predicate Valid()
      reads this, kernel
    {
      kernel.Valid() && p in kernel.locks
    }

    /** The object's idea of the lock is the kernel's. */
    ghost predicate Agrees()
      reads this, kernel
    {
      mode == kernel.Of(p)
    }

    /** The object in the step system, between calls. */
    function Record(): Steps.Proc
      reads this
    {
      Steps.Proc(open, mode, Steps.Idle, NoLock, false, false, false)
    }

    constructor (p: Pid, kernel: Kernel)
      requires kernel.Valid() && p in kernel.locks && kernel.Of(p) == NoLock
      ensures this.p == p && this.kernel == kernel && !open && mode == NoLock
      ensures Valid() && Agrees()
    {
      this.p, this.kernel := p, kernel;
      open, mode := false, NoLock;
    }

    method Open()
      modifies this`open
      ensures open
    {
      open := true;
    }

    predicate IsLocked()
      reads this
    {
      mode != NoLock
    }

    /** lock(mode) has another lock to release first. */
    predicate Switches(mode: LockMode)
      reads this
    {
      open && this.mode != NoLock && mode != NoLock && mode != this.mode
    }

    /** `releaseError` and `setError` are the kernel failing the two calls, `between` the locks after other processes
      * have run between them. True is returned exactly when the object holds the mode it was asked for, and
      * false without a failed release leaves nothing locked; other processes keep what they have.
      */
    method Lock(mode: LockMode, block: bool, releaseError: bool, setError: bool, between: Holders) returns (ok: bool)
      requires Valid()
      requires Switches(mode) ==>
                 LeavesAlone(if releaseError then kernel.locks else kernel.locks[p := NoLock], between, p)
      modifies this`mode, kernel
      ensures Valid()
      ensures var s := Steps.LockCall(old(Record()), old(kernel.locks), p, mode, block, Out(releaseError), between,
                                      Out(setError));
              ok == s.procs[p].ret && this.mode == s.procs[p].mode && kernel.locks == s.locks
      ensures old(Agrees()) ==> Agrees()
      ensures forall q | q != p ::
                q in kernel.locks <==> q in if old(Switches(mode)) then between else old(kernel.locks)
      ensures forall q | q in kernel.locks && q != p ::
                kernel.locks[q] == if old(Switches(mode)) then between[q] else old(kernel.locks)[q]
      ensures !open ==> !ok && this.mode == old(this.mode) && kernel.locks == old(kernel.locks)
      ensures open && mode != NoLock ==> (ok <==> this.mode == mode)
      ensures open && mode == old(this.mode) != NoLock ==> ok && kernel.locks == old(kernel.locks)
      ensures open && mode == NoLock ==> (ok <==> this.mode == NoLock)
      ensures open && !ok && !releaseError ==> this.mode == NoLock
      ensures open && !ok && !releaseError && old(Agrees()) ==> kernel.Of(p) == NoLock
    {
      LockCallMeans(Record(), kernel.locks, p, mode, block, releaseError, between, setError);
      if !open {
        return false;
      }
      if mode == NoLock {
        ok := Unlock(releaseError);
        return;
      }
      if mode == this.mode {
        return true;
      }
      if this.mode != NoLock {
        var released := Unlock(releaseError);
        kernel.OthersRun(p, between);
      }
      ok := kernel.SetLock(p, mode, block, setError);
      if !ok {
        return false;
      }
      this.mode := mode;
      return true;
    }

    method Unlock(error: bool) returns (ok: bool)
      requires Valid()
      modifies this`mode, kernel
      ensures Valid()
      ensures old(Agrees()) ==> Agrees()
      ensures ok <==> open && (old(mode) == NoLock || !error)
      ensures mode == if ok then NoLock else old(mode)
      ensures kernel.locks == if ok && old(mode) != NoLock then old(kernel.locks)[p := NoLock] else old(kernel.locks)
    {
      if !open {
        return false;
      }
      if !IsLocked() {
        return true;
      }
      var cleared := kernel.ClearLock(p, error);
      if !cleared {
        return false;
      }
      mode := NoLock;
      return true;
    }

    /** QFile::close(), which the class does not override: the kernel drops the lock, the object does not
      * notice. The two still agree exactly when the file was closed unlocked.
      */
    method Close()
      requires Valid()
      modifies this`open, kernel
      ensures Valid() && !open
      ensures kernel.locks == if old(open) then old(kernel.locks)[p := NoLock] else old(kernel.locks)
      ensures old(Agrees()) && old(open) ==> (Agrees() <==> mode == NoLock)
    {
      if open {
        var cleared := kernel.ClearLock(p, false);
        open := false;
      }
    }
  }

  /** One object's lock() call beside another's: both still agree with the kernel afterwards, so they cannot both
    * hold a lock when one of them writes.
    */
  method LockBeside(f: QtLockedFile, g: QtLockedFile, mode: LockMode, block: bool, releaseError: bool, setError: bool,
                    between: Holders) returns (ok: bool)
    requires f.kernel == g.kernel && f.p != g.p && f.Valid() && g.Valid() && f.Agrees() && g.Agrees()
    requires f.Switches(mode) ==>
               LeavesAlone(if releaseError then f.kernel.locks else f.kernel.locks[f.p := NoLock], between, f.p)
               && g.p in between && between[g.p] == g.mode
    modifies f, f.kernel
    ensures f.Valid() && g.Valid() && f.Agrees() && g.Agrees() && g.mode == old(g.mode)
    ensures f.mode == WriteLock ==> g.mode == NoLock
    ensures g.mode == WriteLock ==> f.mode == NoLock
  {
    ok := f.Lock(mode, block, releaseError, setError, between);
    AgreeingExclusive(f, g);
    AgreeingExclusive(g, f);
  }

  /** Lock objects of two processes that agree with the kernel cannot both hold a lock when one of them writes. */
  lemma AgreeingExclusive(f: QtLockedFile, g: QtLockedFile)
    requires f.kernel == g.kernel && f.p != g.p && f.Valid() && g.Valid() && f.Agrees() && g.Agrees()
    ensures f.mode == WriteLock ==> g.mode == NoLock
  {
    assert f.kernel.Of(f.p) == f.mode && f.kernel.Of(g.p) == g.mode;
  }

  /** After closing and reopening a locked file, lock() answers true with nothing locked. */
  method ReopenedFile(f: QtLockedFile, block: bool) returns (ok: bool)
    requires f.Valid() && f.Agrees() && f.open && f.mode == WriteLock
    modifies f, f.kernel
    ensures ok && f.mode == WriteLock && f.kernel.Of(f.p) == NoLock
  {
    f.Close();
    f.Open();
    ok := f.Lock(WriteLock, block, false, false, f.kernel.locks);
  }
}
