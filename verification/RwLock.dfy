/** The contract every QtLockedFile implementation must meet, as a step system of its own:
  * many processes may hold a read lock, or exactly one may hold a write lock.
  */
module RwLock {

  datatype LockMode = NoLock | ReadLock | WriteLock

  type Pid = nat

  /** The live processes, each with the mode it holds. */
  type Holders = map<Pid, LockMode>

  predicate Compatible(h: Holders, p: Pid, m: LockMode) {
    forall q | q in h && q != p && h[q] != NoLock :: m != WriteLock && h[q] != WriteLock
  }

  /** No process holds a lock beside a writer. */
  predicate Exclusive(h: Holders) {
    forall p, q | p in h && q in h && p != q && h[p] == WriteLock :: h[q] == NoLock
  }

  predicate Arrives(h: Holders, h': Holders, p: Pid) {
    p !in h && h' == h[p := NoLock]
  }

  predicate Leaves(h: Holders, h': Holders, p: Pid) {
    p in h && h' == h - {p}
  }

  predicate Acquires(h: Holders, h': Holders, p: Pid, m: LockMode) {
    p in h && m != NoLock && Compatible(h, p, m) && h' == h[p := m]
  }

  predicate Releases(h: Holders, h': Holders, p: Pid) {
    p in h && h' == h[p := NoLock]
  }

  /** One step of process p, or nothing visible at all. */
  predicate SpecStep(h: Holders, h': Holders, p: Pid) {
    || h' == h
    || Arrives(h, h', p)
    || Leaves(h, h', p)
    || Acquires(h, h', p, ReadLock)
    || Acquires(h, h', p, WriteLock)
    || Releases(h, h', p)
  }

  lemma SpecStepKeepsExclusive(h: Holders, h': Holders, p: Pid)
    requires Exclusive(h) && SpecStep(h, h', p)
    ensures Exclusive(h')
  {
  }
}
