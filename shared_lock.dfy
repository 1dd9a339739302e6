/**
 * The sharing model behind every rule handle: one reader/writer lock per
 * stylesheet tree, values wrapped by the lock that protects them, and read
 * guards passed explicitly as capability tokens.  A lock is modelled by its
 * identity only; blocking, threads and reference counting are not modelled.
 */
module SharedLocks {

  /** The identity of one SharedRwLock instance. */
  type LockId = nat

  /** A SharedRwLock, known by its identity. */
  datatype SharedLock = SharedLock(id: LockId)

  /** A SharedRwLockReadGuard: proof that `lock` is held for reading. */
  datatype ReadGuard = ReadGuard(lock: LockId)

  /**
   * `Arc<Locked<T>>`: a value together with the identity of the lock that
   * protects it.  The Arc adds sharing, which a value model does not need.
   */
  datatype Locked<T> = Locked(lock: LockId, data: T)

  /** Clone-scope controls, owned by the per-kind deep-clone implementations. */
  datatype DeepCloneParams = DeepCloneParams(scope: nat)

  /** `lock.read()`: a read guard of `lock`. */
  function Read(lock: SharedLock): ReadGuard
  {
    ReadGuard(lock.id)
  }

  /** `lock.wrap(data)`: `data`, now protected by `lock`. */
  function Wrap<T>(lock: SharedLock, data: T): Locked<T>
  {
    Locked(lock.id, data)
  }

  /** A guard may be used on a handle only when it was issued by the handle's own lock. */
  predicate Guards<T>(guard: ReadGuard, handle: Locked<T>)
  {
    guard.lock == handle.lock
  }

  /**
   * `handle.read_with(guard)`.  Using a guard of another lock is a programmer
   * error that the source asserts against, so it is a precondition here.
   */
  function ReadWith<T>(handle: Locked<T>, guard: ReadGuard): T
    requires Guards(guard, handle)
  {
    handle.data
  }
}
