/**
 What the two servers' threads share: the instructions that their code is made of, the mutexes,
 and the capacity of the queue between them.  An instruction touches at most one shared
 variable, but for one test (see `MirrorModel`).  A wait releases its mutex and sleeps; after a
 wakeup the mutex is taken again.
 */
module Threads {
  datatype Option<+T> = None | Some(value: T)

  /** The default capacity of the work queue (queue.h:70). */
  const CAPACITY: nat := 256

  /** `RwMtx` guards the queue in both servers, `HMtx` the content server's hash table. */
  datatype Mutex = EMtx | FMtx | RwMtx | HMtx | QDoneMtx | AckMtx | BytesMtx | FilesMtx | SpreadMtx | DoneMtx

  datatype CondVar = ECond | FCond | QDoneCond | AckCond

  datatype Tid = OfWorker(w: nat) | OfManager(m: nat) | OfMaster

  /** What one instruction does; `Op` and `Test` are the thread's own. */
  datatype Instr<Pc, Op, Test> =
    | Lock(mutex: Mutex, next: Pc)
    | Unlock(mutex: Mutex, next: Pc)
    | Wait(mutex: Mutex, asleep: Pc)        // pthread_cond_wait: release and sleep
    | Sleeping                              // no step of its own until a wakeup
    | If(test: Test, yes: Pc, no: Pc)
    | Signal(cond: CondVar, next: Pc)
    | Broadcast(cond: CondVar, next: Pc)
    | Do(op: Op, next: Pc)
    | Stop

  /** A lock blocks while its mutex is taken; a sleeper and a finished thread have no step. */
  predicate Blocked(locks: map<Mutex, Tid>, instr: Instr) {
    (instr.Lock? && instr.mutex in locks) || instr.Sleeping? || instr.Stop?
  }

  function LocksNext(locks: map<Mutex, Tid>, instr: Instr, t: Tid): map<Mutex, Tid> {
    match instr
    case Lock(m, _) => locks[m := t]
    case Unlock(m, _) => locks - {m}
    case Wait(m, _) => locks - {m}
    case _ => locks
  }
}
