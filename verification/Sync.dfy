// user/libthread: mutex.c, cond.c and the locking of malloc.c as one machine. Threads interleave at
// every shared access; deschedule tests and blocks in one step, make_runnable wakes a blocked thread.

module Sync {
  type Tid = int
  type Cond = int    // address of a cond_t
  type Addr = int    // address of a thread_cond_t

  // Mutexes of clients and of the other libraries, the one inside a cond_t, and the allocator's.
  datatype Mutex = Own(id: int) | CondMutex(cond: Cond) | MallocMutex

  // The locking order: clients number their mutexes, condition variables come next, the allocator last.
  predicate Below(a: Mutex, b: Mutex) {
    match b
    case Own(j) => a.Own? && a.id < j
    case CondMutex(_) => a.Own?
    case MallocMutex => !a.MallocMutex?
  }

  // What a client may call.
  datatype Op = Idle | Acquire(mutex: Mutex) | Release(mutex: Mutex) | Wait(cond: Cond, mutex: Mutex)
              | Signal(cond: Cond, all: bool) | Destroy(cond: Cond) | Heap

  // A signal or broadcast under way. Auxiliary: the waiters served before it locked the condition
  // variable, and those it then found queued and is to release.
  datatype Job = Job(cond: Cond, all: bool, past: seq<Tid>, snap: seq<Tid>)

  // Where a thread stands: its next shared access, and for the mutex functions what follows them.
  datatype Pc =
    | Out
    | Failed                            // an assert failed, or freed memory was touched
    | Lock(mutex: Mutex, next: Pc)      // mutex_lock: test of initializeFlag
    | Spin(mutex: Mutex, next: Pc)      // mutex_lock: atomic exchange
    | Unlock(mutex: Mutex, next: Pc)    // mutex_unlock: test of both flags
    | Drop(mutex: Mutex, next: Pc)      // mutex_unlock: atomic exchange
    | HeapWork                          // inside the allocator
    | WaitCheck(cond: Cond, mutex: Mutex)
    | WaitRecord(cond: Cond, mutex: Mutex)
    | WaitNode(cond: Cond, mutex: Mutex, rec: Addr)
    | WaitInsert(cond: Cond, mutex: Mutex, rec: Addr)
    | WaitTest(mutex: Mutex, rec: Addr)
    | WaitSleep(mutex: Mutex, rec: Addr)
    | WaitFree(mutex: Mutex, rec: Addr)
    | SignalCheck(cond: Cond, all: bool)
    | SignalCount(job: Job)
    | SignalTake(job: Job, left: nat)
    | SignalNode(job: Job, rec: Addr, left: nat)
    | SignalRead(job: Job, rec: Addr, left: nat)
    | SignalSet(job: Job, rec: Addr, tid: Tid, left: nat)
    | SignalWake(job: Job, tid: Tid, left: nat)
    | SignalEnd(job: Job)
    | DestroyCheck(cond: Cond)
    | DestroyFlag(cond: Cond)
    | DestroyMutex(cond: Cond)

  // Auxiliary: how far a waiter's record has come.
  datatype Place = Fresh | Queued | Taken(signaller: Tid) | Done(signaller: Tid)

  // thread_cond_t, with its owner's thread id; cond and place are auxiliary.
  datatype Rec = Rec(tid: Tid, flag: bool, cond: Cond, place: Place)

  // list_node_t
  datatype Node = Node(rec: Addr, tid: Tid)

  // A thread; the operation it is in and the mutexes it holds are auxiliary.
  datatype Local = Local(op: Op, pc: Pc, held: set<Mutex>)

  // locked: lockFlag is 1. ready: the condMutex is initialised. queue: the waiters of the initialised
  // condition variables, oldest first. came and served: auxiliary logs of insertions and removals.
  datatype State = State(threads: map<Tid, Local>, locked: set<Mutex>, ready: set<Cond>,
                         queue: map<Cond, seq<Node>>, recs: map<Addr, Rec>, blocked: set<Tid>,
                         came: map<Cond, seq<Tid>>, served: map<Cond, seq<Tid>>)

  function Log(m: map<Cond, seq<Tid>>, c: Cond): seq<Tid> { if c in m then m[c] else [] }

  function Tids(q: seq<Node>): (ts: seq<Tid>)
    ensures |ts| == |q|
    ensures forall i :: 0 <= i < |q| ==> ts[i] == q[i].tid
  {
    if q == [] then [] else [q[0].tid] + Tids(q[1..])
  }

  function Initialised(s: State, m: Mutex): bool { m.CondMutex? ==> m.cond in s.ready }

  // ------------------------------------------------------------------ steps

  function Put(s: State, t: Tid, held: set<Mutex>, pc: Pc): (s': State)
    requires t in s.threads
    ensures t in s'.threads && s' == s.(threads := s.threads[t := s'.threads[t]])
    ensures s'.threads[t] == Local(if pc.Out? then Idle else s.threads[t].op, pc, held)
  {
    s.(threads := s.threads[t := Local(if pc.Out? then Idle else s.threads[t].op, pc, held)])
  }

  function Goto(s: State, t: Tid, pc: Pc): (s': State)
    requires t in s.threads
    ensures t in s'.threads && s' == s.(threads := s.threads[t := s'.threads[t]])
    ensures s'.threads[t] == Local(if pc.Out? then Idle else s.threads[t].op, pc, s.threads[t].held)
  {
    Put(s, t, s.threads[t].held, pc)
  }

  function NextMutex(s: State, t: Tid): (s': State)
    requires t in s.threads
    ensures t in s'.threads
  {
    var l := s.threads[t];
    match l.pc
    case Lock(m, k) => Goto(s, t, if Initialised(s, m) then Spin(m, k) else Failed)
    case Spin(m, k) =>
      if m in s.locked then s else Put(s.(locked := s.locked + {m}), t, l.held + {m}, k)
    case Unlock(m, k) => Goto(s, t, if Initialised(s, m) && m in s.locked then Drop(m, k) else Failed)
    case Drop(m, k) => Put(s.(locked := s.locked - {m}), t, l.held - {m}, k)
    case HeapWork => Goto(s, t, Unlock(MallocMutex, Out))
    case _ => s
  }

  // cond_wait; malloc returns the address a.
  function NextWait(s: State, t: Tid, a: Addr): (s': State)
    requires t in s.threads
    ensures t in s'.threads
  {
    match s.threads[t].pc
    case WaitCheck(c, m) => Goto(s, t, if c in s.queue then Lock(MallocMutex, WaitRecord(c, m)) else Failed)
    case WaitRecord(c, m) =>
      Goto(s.(recs := s.recs[a := Rec(t, false, c, Fresh)]), t, Unlock(MallocMutex, Lock(MallocMutex, WaitNode(c, m, a))))
    case WaitNode(c, m, r) => Goto(s, t, Unlock(MallocMutex, WaitInsert(c, m, r)))
    case WaitInsert(c, m, r) =>
      if c !in s.queue || r !in s.recs then Goto(s, t, Failed)
      else Goto(s.(queue := s.queue[c := s.queue[c] + [Node(r, t)]], came := s.came[c := Log(s.came, c) + [t]],
                   recs := s.recs[r := s.recs[r].(place := Queued)]), t, Unlock(m, Unlock(CondMutex(c), WaitTest(m, r))))
    case WaitTest(m, r) =>
      Goto(s, t, if r !in s.recs then Failed else if s.recs[r].flag then Lock(MallocMutex, WaitFree(m, r)) else WaitSleep(m, r))
    case WaitSleep(m, r) =>
      if r !in s.recs then Goto(s, t, Failed)
      else if s.recs[r].flag then Goto(s, t, WaitTest(m, r))
      else Goto(s.(blocked := s.blocked + {t}), t, WaitTest(m, r))
    case WaitFree(m, r) =>
      if r !in s.recs then Goto(s, t, Failed)
      else Goto(s.(recs := s.recs - {r}), t, Unlock(MallocMutex, Lock(m, Out)))
    case _ => s
  }

  function Count(all: bool, n: nat): (k: nat)
    ensures k <= n && (n > 0 ==> k > 0) && (!all ==> k <= 1)
  {
    if all || n == 0 then n else 1
  }

  // cond_signal and cond_broadcast
  function NextSignal(s: State, t: Tid): (s': State)
    requires t in s.threads
    ensures t in s'.threads
  {
    match s.threads[t].pc
    case SignalCheck(c, all) =>
      if c !in s.queue then Goto(s, t, Failed)
      else Goto(s, t, SignalCount(Job(c, all, Log(s.served, c), Tids(s.queue[c][..Count(all, |s.queue[c]|)]))))
    case SignalCount(j) =>
      if j.cond !in s.queue then Goto(s, t, Failed)
      else
        var n := Count(j.all, |s.queue[j.cond]|);
        Goto(s, t, if n == 0 then SignalEnd(j) else SignalTake(j, n))
    case SignalTake(j, left) =>
      if j.cond !in s.queue || s.queue[j.cond] == [] || left == 0 || s.queue[j.cond][0].rec !in s.recs then Goto(s, t, Failed)
      else
        var q := s.queue[j.cond];
        Goto(s.(queue := s.queue[j.cond := q[1..]], served := s.served[j.cond := Log(s.served, j.cond) + [q[0].tid]],
                recs := s.recs[q[0].rec := s.recs[q[0].rec].(place := Taken(t))]), t, Lock(MallocMutex, SignalNode(j, q[0].rec, left - 1)))
    case SignalNode(j, r, left) => Goto(s, t, Unlock(MallocMutex, SignalRead(j, r, left)))
    case SignalRead(j, r, left) =>
      if r !in s.recs then Goto(s, t, Failed) else Goto(s, t, SignalSet(j, r, s.recs[r].tid, left))
    case SignalSet(j, r, u, left) =>
      if r !in s.recs then Goto(s, t, Failed)
      else Goto(s.(recs := s.recs[r := s.recs[r].(flag := true, place := Done(t))]), t, SignalWake(j, u, left))
    case SignalWake(j, u, left) =>
      Goto(s.(blocked := s.blocked - {u}), t, if left == 0 then SignalEnd(j) else SignalTake(j, left))
    case SignalEnd(j) => Goto(s, t, Unlock(CondMutex(j.cond), Out))
    case _ => s
  }

  // cond_destroy
  function NextDestroy(s: State, t: Tid): (s': State)
    requires t in s.threads
    ensures t in s'.threads
  {
    match s.threads[t].pc
    case DestroyCheck(c) => Goto(s, t, if c in s.queue && s.queue[c] == [] then DestroyFlag(c) else Failed)
    case DestroyFlag(c) => Goto(s.(queue := s.queue - {c}), t, Unlock(CondMutex(c), DestroyMutex(c)))
    case DestroyMutex(c) =>
      if c in s.ready && CondMutex(c) !in s.locked then Goto(s.(ready := s.ready - {c}), t, Out) else Goto(s, t, Failed)
    case _ => s
  }

  predicate InMutex(pc: Pc) { pc.Lock? || pc.Spin? || pc.Unlock? || pc.Drop? || pc.HeapWork? }

  predicate InWait(pc: Pc) {
    pc.WaitCheck? || pc.WaitRecord? || pc.WaitNode? || pc.WaitInsert? || pc.WaitTest? || pc.WaitSleep? || pc.WaitFree?
  }

  predicate InDestroy(pc: Pc) { pc.DestroyCheck? || pc.DestroyFlag? || pc.DestroyMutex? }

  function Next(s: State, t: Tid, a: Addr): (s': State)
    requires t in s.threads
    ensures t in s'.threads
  {
    var pc := s.threads[t].pc;
    if InMutex(pc) then NextMutex(s, t) else if InWait(pc) then NextWait(s, t, a)
    else if InDestroy(pc) then NextDestroy(s, t) else NextSignal(s, t)
  }

  // ------------------------------------------------------------------ the machine

  function Start(op: Op): Pc {
    match op
    case Idle => Out
    case Acquire(m) => Lock(m, Out)
    case Release(m) => Unlock(m, Out)
    case Wait(c, m) => Lock(CondMutex(c), WaitCheck(c, m))
    case Signal(c, all) => Lock(CondMutex(c), SignalCheck(c, all))
    case Destroy(c) => Lock(CondMutex(c), DestroyCheck(c))
    case Heap => Lock(MallocMutex, HeapWork)
  }

  // Thread t calls op.
  function Called(s: State, t: Tid, op: Op): (s': State)
    requires t in s.threads
    ensures t in s'.threads && s'.threads[t] == Local(op, Start(op), s.threads[t].held)
    ensures s' == s.(threads := s.threads[t := s'.threads[t]])
  {
    s.(threads := s.threads[t := s.threads[t].(op := op, pc := Start(op))])
  }

  // One step: thread t goes on (malloc would return a), thread t calls a function, a condition
  // variable is initialised, a thread is forked.
  datatype Label = Run(t: Tid, a: Addr) | Call(t: Tid, op: Op) | Init(c: Cond) | Fork(u: Tid)

  ghost predicate Above(m: Mutex, h: set<Mutex>) { forall x :: x in h ==> Below(x, m) }

  // Not a condition variable that someone is destroying or has destroyed.
  ghost predicate Usable(s: State, c: Cond) {
    && c in s.queue && c in s.ready
    && forall u :: u in s.threads ==> s.threads[u].op != Destroy(c)
  }

  // What the functions' comments demand of their callers. Mutexes are taken in the order of their
  // numbers, and cond_wait is called with the last one taken.
  ghost predicate MayCall(s: State, t: Tid, op: Op) {
    && t in s.threads && s.threads[t].pc.Out?
    && match op
       case Idle => false
       case Acquire(m) => m.Own? && Above(m, s.threads[t].held)
       case Release(m) => m in s.threads[t].held
       case Wait(c, m) => m in s.threads[t].held && Above(m, s.threads[t].held - {m}) && Usable(s, c)
       case Signal(c, _) => Usable(s, c)
       case Destroy(c) => Usable(s, c) && s.queue[c] == [] && forall u :: u in s.threads ==> !(Touching(s.threads[u].pc) && CondOf(s.threads[u].op) == c)
       case Heap => true
  }

  ghost predicate Allowed(s: State, x: Label) {
    match x
    case Run(t, a) =>
      t in s.threads && t !in s.blocked && !s.threads[t].pc.Out? && !s.threads[t].pc.Failed? && (s.threads[t].pc.WaitRecord? ==> a !in s.recs)
    case Call(t, op) => MayCall(s, t, op)
    case Init(c) => c !in s.queue && c !in s.ready
    case Fork(u) => u !in s.threads
  }

  ghost function Apply(s: State, x: Label): State
    requires Allowed(s, x)
  {
    match x
    case Run(t, a) => Next(s, t, a)
    case Call(t, op) => Called(s, t, op)
    case Init(c) => s.(queue := s.queue[c := []], ready := s.ready + {c}, came := s.came[c := []], served := s.served[c := []])
    case Fork(u) => s.(threads := s.threads[u := Local(Idle, Out, {})])
  }

  // ------------------------------------------------------------------ reading a thread's position

  function Core(pc: Pc): Pc {
    match pc
    case Lock(_, k) => Core(k)
    case Spin(_, k) => Core(k)
    case Unlock(_, k) => Core(k)
    case Drop(_, k) => Core(k)
    case _ => pc
  }

  function CondOf(op: Op): Cond { if op.Wait? || op.Signal? || op.Destroy? then op.cond else 0 }

  // Whether the thread still has an access to its condition variable ahead.
  predicate Touching(pc: Pc) {
    match pc
    case Lock(m, k) => m.CondMutex? || Touching(k)
    case Spin(m, k) => m.CondMutex? || Touching(k)
    case Unlock(m, k) => m.CondMutex? || Touching(k)
    case Drop(m, k) => m.CondMutex? || Touching(k)
    case _ => !(pc.Out? || pc.Failed? || pc.HeapWork? || pc.WaitTest? || pc.WaitSleep? || pc.WaitFree?)
  }

  // The record of a waiting thread.
  predicate HasRecord(pc: Pc) { pc.WaitNode? || pc.WaitInsert? || pc.WaitTest? || pc.WaitSleep? || pc.WaitFree? }

  // The record a signaller has dequeued and has yet to mark.
  predicate HasTaken(pc: Pc) { pc.SignalNode? || pc.SignalRead? || pc.SignalSet? }

  // ------------------------------------------------------------------ the invariant

  ghost predicate Clients(h: set<Mutex>) { forall x :: x in h ==> x.Own? }

  ghost predicate InCond(c: Cond, h: set<Mutex>) { CondMutex(c) in h && Clients(h - {CondMutex(c)}) }

  ghost predicate InBoth(c: Cond, m: Mutex, h: set<Mutex>) {
    InCond(c, h) && m.Own? && m in h && Above(m, h - {CondMutex(c)} - {m})
  }

  // An operation works with the mutexes it was called for.
  ghost predicate Names(op: Op, m: Mutex) {
    match m
    case CondMutex(c) => (op.Wait? || op.Signal? || op.Destroy?) && op.cond == c
    case Own(_) => (op.Acquire? || op.Release? || op.Wait?) && op.mutex == m
    case MallocMutex => true
  }

  // The last thing an operation does.
  ghost predicate LastLock(op: Op, m: Mutex, k: Pc) { k.Out? ==> m.Own? && (op.Acquire? || op.Wait?) && op.mutex == m }

  ghost predicate LastUnlock(op: Op, m: Mutex, k: Pc) {
    k.Out? ==> (op == Release(m) && m.Own?) || (op.Heap? && m.MallocMutex?) || (op.Signal? && m.CondMutex?)
  }

  // A condition variable is locked only at the start of an operation, a client's mutex only at its end.
  ghost predicate Enters(m: Mutex, k: Pc) {
    && (m.CondMutex? ==> k.WaitCheck? || k.SignalCheck? || k.DestroyCheck?)
    && (m.Own? ==> k.Out?)
  }

  // What a thread holds at each point of its operation.
  ghost predicate Fits(op: Op, pc: Pc, h: set<Mutex>) {
    match pc
    case Out => Clients(h)
    case Failed => false
    case Lock(m, k) => Above(m, h) && Names(op, m) && Enters(m, k) && LastLock(op, m, k) && Fits(op, k, h + {m})
    case Spin(m, k) => Above(m, h) && Names(op, m) && Enters(m, k) && LastLock(op, m, k) && Fits(op, k, h + {m})
    case Unlock(m, k) => m in h && Names(op, m) && LastUnlock(op, m, k) && Fits(op, k, h - {m})
    case Drop(m, k) => m in h && Names(op, m) && LastUnlock(op, m, k) && Fits(op, k, h - {m})
    case HeapWork => op.Heap? && MallocMutex in h && Clients(h - {MallocMutex})
    case WaitCheck(c, m) => op == Wait(c, m) && InBoth(c, m, h)
    case WaitRecord(c, m) => op == Wait(c, m) && MallocMutex in h && InBoth(c, m, h - {MallocMutex})
    case WaitNode(c, m, _) => op == Wait(c, m) && MallocMutex in h && InBoth(c, m, h - {MallocMutex})
    case WaitInsert(c, m, _) => op == Wait(c, m) && InBoth(c, m, h)
    case WaitTest(m, _) => op.Wait? && op.mutex == m && m.Own? && Clients(h) && Above(m, h)
    case WaitSleep(m, _) => op.Wait? && op.mutex == m && m.Own? && Clients(h) && Above(m, h)
    case WaitFree(m, _) => op.Wait? && op.mutex == m && m.Own? && MallocMutex in h && Clients(h - {MallocMutex}) && Above(m, h - {MallocMutex})
    case SignalCheck(c, all) => op == Signal(c, all) && InCond(c, h)
    case SignalCount(j) => op == Signal(j.cond, j.all) && InCond(j.cond, h)
    case SignalTake(j, _) => op == Signal(j.cond, j.all) && InCond(j.cond, h)
    case SignalNode(j, _, _) => op == Signal(j.cond, j.all) && MallocMutex in h && InCond(j.cond, h - {MallocMutex})
    case SignalRead(j, _, _) => op == Signal(j.cond, j.all) && InCond(j.cond, h)
    case SignalSet(j, _, _, _) => op == Signal(j.cond, j.all) && InCond(j.cond, h)
    case SignalWake(j, _, _) => op == Signal(j.cond, j.all) && InCond(j.cond, h)
    case SignalEnd(j) => op == Signal(j.cond, j.all) && InCond(j.cond, h)
    case DestroyCheck(c) => op == Destroy(c) && InCond(c, h)
    case DestroyFlag(c) => op == Destroy(c) && InCond(c, h)
    case DestroyMutex(c) => op == Destroy(c) && Clients(h)
  }

  // A waiter's record, and how far it has come.
  ghost predicate WaiterOk(s: State, t: Tid, l: Local) {
    var k := Core(l.pc);
    HasRecord(k) ==>
      && k.rec in s.recs && s.recs[k.rec].tid == t && s.recs[k.rec].cond == CondOf(l.op)
      && (s.recs[k.rec].place.Fresh? <==> k.WaitNode? || k.WaitInsert?)
      && (k.WaitFree? ==> s.recs[k.rec].place.Done?)
  }

  // The job's waiters: those served since it began, and the first left of those still queued.
  ghost predicate JobOk(s: State, j: Job, left: nat) {
    && j.cond in s.queue && left <= |s.queue[j.cond]| && j.past <= Log(s.served, j.cond)
    && j.snap == Log(s.served, j.cond)[|j.past|..] + Tids(s.queue[j.cond][..left])
  }

  ghost predicate SignallerOk(s: State, t: Tid, l: Local) {
    var k := Core(l.pc);
    && (HasTaken(k) ==>
          && k.rec in s.recs && s.recs[k.rec].place == Taken(t) && s.recs[k.rec].cond == k.job.cond
          && JobOk(s, k.job, k.left) && (!k.job.all ==> k.left == 0))
    && (k.SignalSet? ==> k.rec in s.recs && k.tid == s.recs[k.rec].tid)
    && (k.SignalCount? ==> k.job.cond in s.queue && JobOk(s, k.job, Count(k.job.all, |s.queue[k.job.cond]|)))
    && (k.SignalTake? ==> k.left > 0 && JobOk(s, k.job, k.left) && (!k.job.all ==> k.left == 1))
    && (k.SignalWake? ==> JobOk(s, k.job, k.left) && (!k.job.all ==> k.left == 0))
    && (k.SignalEnd? ==> JobOk(s, k.job, 0))
  }

  // The condition variable is still there.
  ghost predicate CondOk(s: State, l: Local) {
    Touching(l.pc) ==>
      && CondOf(l.op) in s.ready
      && (!Core(l.pc).DestroyMutex? ==> CondOf(l.op) in s.queue)
      && (l.op.Destroy? && CondOf(l.op) in s.queue ==> s.queue[CondOf(l.op)] == [])
  }

  // A thread blocks only in deschedule, and once its flag is set its wake-up is on the way.
  ghost predicate SleeperOk(s: State, t: Tid) {
    t in s.blocked ==>
      && t in s.threads && s.threads[t].pc.WaitTest? && s.threads[t].pc.rec in s.recs
      && var p := s.recs[s.threads[t].pc.rec].place;
         p.Done? ==> p.signaller in s.threads && s.threads[p.signaller].pc.SignalWake? && s.threads[p.signaller].pc.tid == t
                     && s.threads[p.signaller].pc.job.cond == s.recs[s.threads[t].pc.rec].cond
  }

  ghost predicate ThreadOk(s: State, t: Tid)
    requires t in s.threads
  {
    var l := s.threads[t];
    && Fits(l.op, l.pc, l.held) && (l.op.Idle? <==> l.pc.Out?) && l.held <= s.locked
    && WaiterOk(s, t, l) && SignallerOk(s, t, l) && CondOk(s, l)
  }

  ghost predicate RecOk(s: State, r: Addr)
    requires r in s.recs
  {
    var x := s.recs[r];
    && x.tid in s.threads && HasRecord(Core(s.threads[x.tid].pc)) && Core(s.threads[x.tid].pc).rec == r
    && (x.flag <==> x.place.Done?)
    && (x.place.Queued? ==> x.cond in s.queue && Node(r, x.tid) in s.queue[x.cond])
    && (x.place.Taken? ==> x.place.signaller in s.threads && HasTaken(Core(s.threads[x.place.signaller].pc))
                           && Core(s.threads[x.place.signaller].pc).rec == r)
  }

  ghost predicate QueueOk(s: State, c: Cond)
    requires c in s.queue
  {
    var q := s.queue[c];
    && (forall i :: 0 <= i < |q| ==> q[i].rec in s.recs && s.recs[q[i].rec].place == Queued
                                     && s.recs[q[i].rec].tid == q[i].tid && s.recs[q[i].rec].cond == c)
    && (forall i, j :: 0 <= i < j < |q| ==> q[i].rec != q[j].rec)
    && Log(s.came, c) == Log(s.served, c) + Tids(q)
  }

  ghost predicate Exclusive(s: State) {
    && (forall t, u :: t in s.threads && u in s.threads && t != u ==> s.threads[t].held !! s.threads[u].held)
    && (forall m :: m in s.locked ==> exists t :: t in s.threads && m in s.threads[t].held)
  }

  // While a condition variable is being destroyed no other thread touches it.
  ghost predicate DestroyerAlone(s: State) {
    forall t, u :: t in s.threads && u in s.threads && t != u && s.threads[t].op.Destroy? && Touching(s.threads[u].pc) ==>
      CondOf(s.threads[u].op) != s.threads[t].op.cond
  }

  ghost predicate Inv(s: State) {
    && (forall t :: t in s.threads ==> ThreadOk(s, t))
    && (forall r :: r in s.recs ==> RecOk(s, r))
    && (forall c :: c in s.queue ==> QueueOk(s, c))
    && (forall t :: t in s.blocked ==> SleeperOk(s, t))
    && Exclusive(s) && DestroyerAlone(s)
  }

  // ------------------------------------------------------------------ every step keeps the invariant

  // The mutexes after a step of thread t: as before, one more taken, or one released.
  ghost predicate Relocked(s: State, t: Tid, m: Mutex, h: set<Mutex>, locked: set<Mutex>)
    requires t in s.threads
  {
    var h0 := s.threads[t].held;
    || (h == h0 && locked == s.locked)
    || (m !in s.locked && h == h0 + {m} && locked == s.locked + {m})
    || (m in h0 && h == h0 - {m} && locked == s.locked - {m})
  }

  lemma LocksKept(s: State, t: Tid, m: Mutex, l: Local, s': State)
    requires Exclusive(s) && t in s.threads && s'.threads == s.threads[t := l] && Relocked(s, t, m, l.held, s'.locked)
    requires forall u :: u in s.threads ==> s.threads[u].held <= s.locked
    ensures Exclusive(s') && l.held <= s'.locked
    ensures forall u :: u in s.threads && u != t ==> s.threads[u].held <= s'.locked
  {
    forall x | x in s'.locked ensures exists u :: u in s'.threads && x in s'.threads[u].held {
      if x in s.locked {
        var u :| u in s.threads && x in s.threads[u].held;
        assert u in s'.threads;
        if u == t && x !in l.held {
          assert false;
        }
      } else {
        assert t in s'.threads;
      }
    }
  }

  // The new position of a thread whose step touched nothing but mutexes.
  ghost predicate Follows(l: Local, l': Local) {
    && !l.pc.SignalWake?
    && (HasRecord(Core(l.pc)) ==> HasRecord(Core(l'.pc)) && Core(l'.pc).rec == Core(l.pc).rec)
    && (HasTaken(Core(l.pc)) ==> HasTaken(Core(l'.pc)) && Core(l'.pc).rec == Core(l.pc).rec)
    && (Touching(l'.pc) ==> Touching(l.pc) && CondOf(l'.op) == CondOf(l.op))
    && (l'.op.Destroy? ==> l'.op == l.op)
  }

  lemma ControlKeeps(s: State, t: Tid, m: Mutex, l: Local, s': State)
    requires Inv(s) && t in s.threads && t !in s.blocked
    requires s' == s.(threads := s.threads[t := l], locked := s'.locked)
    requires Relocked(s, t, m, l.held, s'.locked) && Follows(s.threads[t], l)
    requires Fits(l.op, l.pc, l.held) && (l.op.Idle? <==> l.pc.Out?)
    requires WaiterOk(s, t, l) && SignallerOk(s, t, l) && CondOk(s, l)
    ensures Inv(s')
  {
    hide Fits, Relocked, Touching, Core, JobOk, Exclusive;
    assert forall u :: u in s.threads ==> ThreadOk(s, u);
    LocksKept(s, t, m, l, s');
    forall u | u in s'.threads ensures ThreadOk(s', u) {
      var x := s'.threads[u];
      assert WaiterOk(s', u, x) && SignallerOk(s', u, x) && CondOk(s', x) by {
        FrameJobs(s, s');
      }
    }
    forall r | r in s'.recs ensures RecOk(s', r) {
      assert RecOk(s, r);
    }
    forall c | c in s'.queue ensures QueueOk(s', c) {
      assert QueueOk(s, c);
    }
    forall u | u in s'.blocked ensures SleeperOk(s', u) {
      assert SleeperOk(s, u);
    }
  }

  lemma FrameJobs(s: State, s': State)
    requires s'.queue == s.queue && s'.served == s.served
    ensures forall j, n :: JobOk(s, j, n) ==> JobOk(s', j, n)
  {
  }

  lemma LockKeeps(s: State, t: Tid)
    requires Going(s, t) && (s.threads[t].pc.Lock? || s.threads[t].pc.Spin?)
    ensures Inv(NextMutex(s, t))
  {
    hide WaiterOk, SignallerOk, Exclusive, DestroyerAlone, Inv, Above;
    ThreadHas(s, t);
    var l, s' := s.threads[t], NextMutex(s, t);
    var l' := s'.threads[t];
    if l.pc.Spin? && l.pc.mutex in s.locked {
      assert s' == s;
    } else {
      SameCore(s, t, l, l');
      assert Fits(l.op, l'.pc, l'.held);
      ControlKeeps(s, t, l.pc.mutex, l', s');
    }
  }

  lemma UnlockKeeps(s: State, t: Tid)
    requires Going(s, t) && (s.threads[t].pc.Unlock? || s.threads[t].pc.Drop? || s.threads[t].pc.HeapWork?)
    ensures Inv(NextMutex(s, t))
  {
    hide WaiterOk, SignallerOk, Exclusive, DestroyerAlone, Inv, Above;
    ThreadHas(s, t);
    var l, s' := s.threads[t], NextMutex(s, t);
    var l' := s'.threads[t];
    SameCore(s, t, l, l');
    assert Fits(l.op, l'.pc, l'.held);
    ControlKeeps(s, t, if l.pc.HeapWork? then MallocMutex else l.pc.mutex, l', s');
  }

  lemma ThreadHas(s: State, t: Tid)
    requires Inv(s) && t in s.threads
    ensures ThreadOk(s, t)
  {
  }

  lemma SameCore(s: State, t: Tid, l: Local, l': Local)
    requires WaiterOk(s, t, l) && SignallerOk(s, t, l) && (Core(l'.pc) == Core(l.pc) || Core(l'.pc).Out?)
    requires l'.pc.Out? || CondOf(l'.op) == CondOf(l.op)
    ensures WaiterOk(s, t, l') && SignallerOk(s, t, l')
  {
  }

  // A step that only moves on.
  lemma MoveKeeps(s: State, t: Tid, k: Pc)
    requires Inv(s) && t in s.threads && t !in s.blocked && !k.Out? && !s.threads[t].pc.Out?
    requires var l := s.threads[t];
             var l' := Local(l.op, k, l.held);
             Follows(l, l') && Fits(l.op, k, l.held) && WaiterOk(s, t, l') && SignallerOk(s, t, l') && CondOk(s, l')
    ensures Inv(Goto(s, t, k))
  {
    hide Fits, WaiterOk, SignallerOk, CondOk, Follows, Inv;
    ThreadHas(s, t);
    ControlKeeps(s, t, MallocMutex, Local(s.threads[t].op, k, s.threads[t].held), Goto(s, t, k));
  }

  predicate Nested(pc: Pc) { pc.Lock? || pc.Spin? || pc.Unlock? || pc.Drop? }

  // What lies behind the mutex functions, up to two of them.
  lemma Unfold(pc: Pc)
    ensures !Nested(pc) ==> Core(pc) == pc
    ensures Nested(pc) ==> Touching(pc) == (pc.mutex.CondMutex? || Touching(pc.next))
    ensures Nested(pc) && !Nested(pc.next) ==> Core(pc) == pc.next
    ensures Nested(pc) && Nested(pc.next) ==> Touching(pc.next) == (pc.next.mutex.CondMutex? || Touching(pc.next.next))
    ensures Nested(pc) && Nested(pc.next) && !Nested(pc.next.next) ==> Core(pc) == pc.next.next
    ensures Nested(pc) ==> Core(pc) == Core(pc.next)
  {
    if Nested(pc) && Nested(pc.next) {
      assert Core(pc.next) == Core(pc.next.next);
    }
  }

  lemma HeapHeld(c: Cond, h: set<Mutex>)
    requires InCond(c, h)
    ensures MallocMutex !in h && h + {MallocMutex} - {MallocMutex} == h && Above(MallocMutex, h)
  {
    assert MallocMutex !in h - {CondMutex(c)};
    forall x | x in h ensures Below(x, MallocMutex) {
      assert x == CondMutex(c) || x in h - {CondMutex(c)};
    }
  }

  lemma HeapOwn(h: set<Mutex>)
    requires Clients(h)
    ensures MallocMutex !in h && h + {MallocMutex} - {MallocMutex} == h && Above(MallocMutex, h)
  {
  }

  // A thread that can take a step.
  ghost predicate Going(s: State, t: Tid) { Inv(s) && t in s.threads && t !in s.blocked }

  lemma WaitCheckKeeps(s: State, t: Tid, a: Addr)
    requires Going(s, t) && s.threads[t].pc.WaitCheck?
    ensures Inv(NextWait(s, t, a))
  {
    hide Inv, Above, Clients;
    ThreadHas(s, t);
    var l, k' := s.threads[t], NextWait(s, t, a).threads[t].pc;
    HeapHeld(l.pc.cond, l.held);
    Unfold(l.pc);
    Unfold(k');
    MoveKeeps(s, t, k');
  }

  lemma WaitNodeKeeps(s: State, t: Tid, a: Addr)
    requires Going(s, t) && s.threads[t].pc.WaitNode?
    ensures Inv(NextWait(s, t, a))
  {
    hide Inv, Above, Clients;
    ThreadHas(s, t);
    var l, k' := s.threads[t], NextWait(s, t, a).threads[t].pc;
    Unfold(l.pc);
    Unfold(k');
    MoveKeeps(s, t, k');
  }

  lemma WaitTestKeeps(s: State, t: Tid, a: Addr)
    requires Going(s, t)
    requires var k := s.threads[t].pc;
             k.WaitTest? || (k.WaitSleep? && k.rec in s.recs && s.recs[k.rec].flag)
    ensures Inv(NextWait(s, t, a))
  {
    hide Inv, Above, Clients, InCond, InBoth;
    ThreadHas(s, t);
    var l, k' := s.threads[t], NextWait(s, t, a).threads[t].pc;
    HeapOwn(l.held);
    FlagMeaning(s, l.pc.rec);
    Unfold(l.pc);
    Unfold(k');
    MoveKeeps(s, t, k');
  }

  lemma FlagMeaning(s: State, r: Addr)
    requires Inv(s) && r in s.recs
    ensures s.recs[r].flag <==> s.recs[r].place.Done?
  {
    assert RecOk(s, r);
  }

  lemma SignalCheckKeeps(s: State, t: Tid)
    requires Going(s, t) && s.threads[t].pc.SignalCheck?
    ensures Inv(NextSignal(s, t))
  {
    hide Inv, Above, Clients, JobOk, Tids, Count, InCond;
    ThreadHas(s, t);
    var l, k' := s.threads[t], NextSignal(s, t).threads[t].pc;
    Unfold(l.pc);
    JobStarts(s, k'.job);
    MoveKeeps(s, t, k');
  }

  lemma SignalCountKeeps(s: State, t: Tid)
    requires Going(s, t) && s.threads[t].pc.SignalCount?
    ensures Inv(NextSignal(s, t))
  {
    hide Inv, Above, Clients, JobOk, Tids, Count, InCond;
    ThreadHas(s, t);
    var l, k' := s.threads[t], NextSignal(s, t).threads[t].pc;
    Unfold(l.pc);
    MoveKeeps(s, t, k');
  }

  lemma SignalNodeKeeps(s: State, t: Tid)
    requires Going(s, t) && s.threads[t].pc.SignalNode?
    ensures Inv(NextSignal(s, t))
  {
    hide Inv, Above, JobOk, Tids, Count;
    ThreadHas(s, t);
    var l, k' := s.threads[t], NextSignal(s, t).threads[t].pc;
    Unfold(l.pc);
    Unfold(k');
    MoveKeeps(s, t, k');
  }

  lemma SignalReadKeeps(s: State, t: Tid)
    requires Going(s, t) && (s.threads[t].pc.SignalRead? || s.threads[t].pc.SignalEnd?)
    ensures Inv(NextSignal(s, t))
  {
    hide Inv, Above, JobOk, Tids, Count;
    ThreadHas(s, t);
    var l, k' := s.threads[t], NextSignal(s, t).threads[t].pc;
    Unfold(l.pc);
    Unfold(k');
    MoveKeeps(s, t, k');
  }

  lemma JobStarts(s: State, j: Job)
    requires j.cond in s.queue && j.past == Log(s.served, j.cond)
    requires j.snap == Tids(s.queue[j.cond][..Count(j.all, |s.queue[j.cond]|)])
    ensures JobOk(s, j, Count(j.all, |s.queue[j.cond]|))
  {
    assert Log(s.served, j.cond)[|j.past|..] == [];
  }

  lemma DestroyCheckKeeps(s: State, t: Tid)
    requires Going(s, t) && s.threads[t].pc.DestroyCheck?
    ensures Inv(NextDestroy(s, t))
  {
    hide Inv;
    ThreadHas(s, t);
    MoveKeeps(s, t, NextDestroy(s, t).threads[t].pc);
  }

  predicate HasJob(pc: Pc) {
    HasTaken(pc) || pc.SignalCount? || pc.SignalTake? || pc.SignalWake? || pc.SignalEnd?
  }

  // A thread at work on a condition variable's queue holds its mutex.
  lemma {:induction false} JobHolds(op: Op, pc: Pc, h: set<Mutex>)
    requires Fits(op, pc, h) && HasJob(Core(pc))
    ensures CondMutex(Core(pc).job.cond) in h
  {
    match pc
    case Lock(m, k) => JobHolds(op, k, h + {m});
    case Spin(m, k) => JobHolds(op, k, h + {m});
    case Unlock(m, k) => JobHolds(op, k, h - {m});
    case Drop(m, k) => JobHolds(op, k, h - {m});
    case _ =>
  }

  // Who holds a condition variable's mutex is in an operation on it.
  lemma {:induction false} HolderTouches(op: Op, pc: Pc, h: set<Mutex>, c: Cond)
    requires Fits(op, pc, h) && CondMutex(c) in h
    ensures Touching(pc) && CondOf(op) == c
  {
    match pc
    case Lock(m, k) => HolderTouches(op, k, h + {m}, c);
    case Spin(m, k) => HolderTouches(op, k, h + {m}, c);
    case Unlock(m, k) => if m != CondMutex(c) { HolderTouches(op, k, h - {m}, c); }
    case Drop(m, k) => if m != CondMutex(c) { HolderTouches(op, k, h - {m}, c); }
    case HeapWork => OnlyHeap(h, c);
    case WaitFree(_, _) => OnlyHeap(h, c);
    case _ =>
      OnlyOne(h, CondOf(op), c);
      OnlyOne(h - {MallocMutex}, CondOf(op), c);
  }

  lemma OnlyHeap(h: set<Mutex>, c: Cond)
    requires Clients(h - {MallocMutex})
    ensures CondMutex(c) !in h
  {
    assert CondMutex(c) in h - {MallocMutex} <==> CondMutex(c) in h;
  }

  lemma OnlyOne(h: set<Mutex>, c: Cond, c': Cond)
    ensures InCond(c, h) && CondMutex(c') in h ==> c' == c
    ensures Clients(h) ==> CondMutex(c') !in h
  {
    assert CondMutex(c') in h - {CondMutex(c)} <==> CondMutex(c') in h && c' != c;
  }

  // A step that changes shared data, its effect on everything else given.
  lemma DataKeeps(s: State, t: Tid, l: Local, s': State)
    requires Going(s, t) && s'.threads == s.threads[t := l] && s'.locked == s.locked && l.held == s.threads[t].held
    requires Fits(l.op, l.pc, l.held) && (l.op.Idle? <==> l.pc.Out?)
    requires Touching(l.pc) ==> Touching(s.threads[t].pc) && CondOf(l.op) == CondOf(s.threads[t].op)
    requires l.op.Destroy? ==> l.op == s.threads[t].op
    requires forall u :: u in s'.threads ==> WaiterOk(s', u, s'.threads[u])
    requires forall u :: u in s'.threads ==> SignallerOk(s', u, s'.threads[u])
    requires forall u :: u in s'.threads ==> CondOk(s', s'.threads[u])
    requires forall r :: r in s'.recs ==> RecOk(s', r)
    requires forall c :: c in s'.queue ==> QueueOk(s', c)
    requires forall u :: u in s'.blocked ==> SleeperOk(s', u)
    ensures Inv(s')
  {
    hide Fits, Relocked, Touching, WaiterOk, SignallerOk, CondOk, RecOk, QueueOk, SleeperOk, Exclusive;
    assert forall u :: u in s.threads ==> ThreadOk(s, u);
    LocksSame(s, t, l, s');
    forall u | u in s'.threads ensures ThreadOk(s', u) {
      assert u in s.threads;
    }
  }

  lemma LocksSame(s: State, t: Tid, l: Local, s': State)
    requires Exclusive(s) && t in s.threads && s'.threads == s.threads[t := l] && l.held == s.threads[t].held && s'.locked == s.locked
    requires forall u :: u in s.threads ==> s.threads[u].held <= s.locked
    ensures Exclusive(s')
  {
    LocksKept(s, t, MallocMutex, l, s');
  }

  lemma RecHas(s: State, r: Addr)
    requires Inv(s) && r in s.recs
    ensures RecOk(s, r)
  {
  }

  lemma QueueHas(s: State, c: Cond)
    requires Inv(s) && c in s.queue
    ensures QueueOk(s, c)
  {
  }

  lemma SleeperHas(s: State, u: Tid)
    requires Inv(s) && u in s.blocked
    ensures SleeperOk(s, u)
  {
  }

  // A step of t that changes the record r and, if t holds its mutex, the queue of c.
  ghost predicate RecordStep(s: State, t: Tid, r: Addr, c: Cond, l: Local, s': State)
    requires t in s.threads
  {
    && s'.threads == s.threads[t := l] && s'.locked == s.locked && s'.ready == s.ready && s'.blocked == s.blocked
    && l.held == s.threads[t].held && !s.threads[t].pc.SignalWake?
    && (forall x :: x in s.recs && x != r ==> x in s'.recs && s'.recs[x] == s.recs[x])
    && (forall x :: x in s'.recs && x != r ==> x in s.recs)
    && (r in s.recs && r !in s'.recs ==> s.recs[r].tid == t)
    && (r in s.recs && r in s'.recs ==> s'.recs[r].tid == s.recs[r].tid && s'.recs[r].cond == s.recs[r].cond)
    && (r in s.recs && s.recs[r].tid != t ==> !s.recs[r].place.Fresh? && !s.recs[r].place.Done? && r in s'.recs && !s'.recs[r].place.Fresh?)
    && (r in s.recs && s.recs[r].place.Taken? ==> s.recs[r].place.signaller == t)
    && (r in s.recs && s.recs[r].place.Queued? ==> s.recs[r].cond == c)
    && (r in s'.recs && s'.recs[r].place.Done? ==> s'.recs[r].place == Done(t) && l.pc.SignalWake? && l.pc.tid == s'.recs[r].tid
                                                    && l.pc.job.cond == s'.recs[r].cond)
    && s'.queue.Keys == s.queue.Keys
    && (forall d :: d in s.queue && d != c ==> s'.queue[d] == s.queue[d])
    && (forall d :: d != c ==> Log(s'.served, d) == Log(s.served, d) && Log(s'.came, d) == Log(s.came, d))
    && (CondMutex(c) in l.held || (s'.queue == s.queue && s'.served == s.served && s'.came == s.came))
    && (c in s.queue ==> forall n: Node :: n in s.queue[c] && n.rec != r ==> n in s'.queue[c])
  }

  lemma RecordStepThreads(s: State, t: Tid, r: Addr, c: Cond, l: Local, s': State, u: Tid)
    requires Going(s, t) && RecordStep(s, t, r, c, l, s') && u in s.threads && u != t
    ensures WaiterOk(s', u, s.threads[u]) && SignallerOk(s', u, s.threads[u]) && CondOk(s', s.threads[u])
  {
    hide Fits, Touching, Core, Tids;
    var x := s.threads[u];
    ThreadHas(s, u);
    ThreadHas(s, t);
    if CondMutex(c) in s.threads[t].held {
      NotOthers(s, t, c, u);
    }
    if HasJob(Core(x.pc)) {
      JobSame(s, s', Core(x.pc).job.cond, c);
    }
  }

  lemma JobSame(s: State, s': State, d: Cond, c: Cond)
    requires s'.queue.Keys == s.queue.Keys
    requires d in s.queue && d != c ==> s'.queue[d] == s.queue[d]
    requires d != c ==> Log(s'.served, d) == Log(s.served, d)
    requires d == c ==> s'.queue == s.queue && s'.served == s.served
    ensures forall j: Job, n: nat :: j.cond == d && JobOk(s, j, n) ==> JobOk(s', j, n)
  {
  }

  // While t holds a condition variable's mutex, nobody else is at work on its queue or destroying it.
  lemma NotOthers(s: State, t: Tid, c: Cond, u: Tid)
    requires Inv(s) && t in s.threads && u in s.threads && u != t && CondMutex(c) in s.threads[t].held
    ensures HasJob(Core(s.threads[u].pc)) ==> Core(s.threads[u].pc).job.cond != c
    ensures s.threads[u].op.Destroy? ==> s.threads[u].op.cond != c
  {
    hide Core, Fits, WaiterOk, SignallerOk, CondOk, Touching;
    ThreadHas(s, t);
    ThreadHas(s, u);
    var x := s.threads[u];
    HolderTouches(s.threads[t].op, s.threads[t].pc, s.threads[t].held, c);
    if HasJob(Core(x.pc)) {
      JobHolds(x.op, x.pc, x.held);
    }
  }

  lemma RecordStepRecs(s: State, t: Tid, r: Addr, c: Cond, l: Local, s': State, x: Addr)
    requires Going(s, t) && RecordStep(s, t, r, c, l, s') && x in s'.recs && x != r
    requires HasRecord(Core(s.threads[t].pc)) && Core(s.threads[t].pc).rec != r ==>
               HasRecord(Core(l.pc)) && Core(l.pc).rec == Core(s.threads[t].pc).rec
    requires HasTaken(Core(s.threads[t].pc)) ==> Core(s.threads[t].pc).rec == r
    ensures RecOk(s', x)
  {
    hide Core;
    RecHas(s, x);
  }

  lemma RecordStepQueues(s: State, t: Tid, r: Addr, c: Cond, l: Local, s': State, d: Cond)
    requires Going(s, t) && RecordStep(s, t, r, c, l, s') && d in s'.queue && d != c
    ensures QueueOk(s', d)
  {
    QueueHas(s, d);
  }

  lemma RecordStepSleepers(s: State, t: Tid, r: Addr, c: Cond, l: Local, s': State, u: Tid)
    requires Going(s, t) && RecordStep(s, t, r, c, l, s') && u in s'.blocked
    ensures SleeperOk(s', u)
  {
    hide Core, Fits, Touching, SignallerOk, CondOk;
    SleeperHas(s, u);
    ThreadHas(s, u);
    Unfold(s.threads[u].pc);
  }

  // The rest of the invariant carries over; what t and r look like is up to the step.
  lemma RecordStepKeeps(s: State, t: Tid, r: Addr, c: Cond, l: Local, s': State)
    requires Going(s, t) && RecordStep(s, t, r, c, l, s')
    requires HasRecord(Core(s.threads[t].pc)) && Core(s.threads[t].pc).rec != r ==>
               HasRecord(Core(l.pc)) && Core(l.pc).rec == Core(s.threads[t].pc).rec
    requires HasTaken(Core(s.threads[t].pc)) ==> Core(s.threads[t].pc).rec == r
    requires Fits(l.op, l.pc, l.held) && !l.op.Idle? && !l.pc.Out? && l.op == s.threads[t].op
    requires Touching(l.pc) ==> Touching(s.threads[t].pc)
    requires WaiterOk(s', t, l) && SignallerOk(s', t, l) && CondOk(s', l)
    requires (r in s'.recs ==> RecOk(s', r)) && (c in s'.queue ==> QueueOk(s', c))
    ensures Inv(s')
  {
    hide Core, Fits, Touching, WaiterOk, SignallerOk, CondOk, RecOk, QueueOk, SleeperOk, RecordStep, Inv, HasTaken, HasRecord;
    assert s'.threads == s.threads[t := l] && s'.locked == s.locked && l.held == s.threads[t].held by { RecordStepThreadsIs(s, t, r, c, l, s'); }
    forall u | u in s'.threads ensures WaiterOk(s', u, s'.threads[u]) && SignallerOk(s', u, s'.threads[u]) && CondOk(s', s'.threads[u]) {
      if u != t { RecordStepThreads(s, t, r, c, l, s', u); }
    }
    forall x | x in s'.recs ensures RecOk(s', x) {
      if x != r { RecordStepRecs(s, t, r, c, l, s', x); }
    }
    forall d | d in s'.queue ensures QueueOk(s', d) {
      if d != c { RecordStepQueues(s, t, r, c, l, s', d); }
    }
    forall u | u in s'.blocked ensures SleeperOk(s', u) { RecordStepSleepers(s, t, r, c, l, s', u); }
    DataKeeps(s, t, l, s');
  }

  lemma RecordStepThreadsIs(s: State, t: Tid, r: Addr, c: Cond, l: Local, s': State)
    requires t in s.threads && RecordStep(s, t, r, c, l, s')
    ensures s'.threads == s.threads[t := l] && s'.locked == s.locked && l.held == s.threads[t].held
  {
  }

  lemma WaitRecordKeeps(s: State, t: Tid, a: Addr)
    requires Going(s, t) && s.threads[t].pc.WaitRecord? && a !in s.recs
    ensures Inv(NextWait(s, t, a))
  {
    hide Inv, JobOk, InBoth, Above, Tids, QueueOk, Fits, Touching;
    ThreadHas(s, t);
    var l, s' := s.threads[t], NextWait(s, t, a);
    var l' := s'.threads[t];
    Unfold(l.pc);
    Unfold(l'.pc);
    FitsAfterRecord(l, l', a);
    QueueHasUnless(s, l.pc.cond);
    QueueSameRecs(s, s', l.pc.cond, a);
    RecordStepKeeps(s, t, a, l.pc.cond, l', s');
  }

  lemma QueueSameRecs(s: State, s': State, c: Cond, a: Addr)
    requires s'.queue == s.queue && s'.came == s.came && s'.served == s.served && a !in s.recs
    requires a in s'.recs && s'.recs == s.recs[a := s'.recs[a]] && (c in s.queue ==> QueueOk(s, c))
    ensures c in s.queue ==> QueueOk(s', c)
  {
  }

  lemma FitsAfterRecord(l: Local, l': Local, a: Addr)
    requires l.pc.WaitRecord? && Fits(l.op, l.pc, l.held)
    requires l' == l.(pc := Unlock(MallocMutex, Lock(MallocMutex, WaitNode(l.pc.cond, l.pc.mutex, a))))
    ensures Fits(l'.op, l'.pc, l'.held) && Touching(l.pc) && CondOf(l.op) == l.pc.cond
  {
    HeapHeld(l.pc.cond, l.held - {MallocMutex});
  }

  lemma QueueHasUnless(s: State, c: Cond)
    requires Inv(s)
    ensures c in s.queue ==> QueueOk(s, c)
  {
  }

  lemma {:induction false} TidsAppend(q: seq<Node>, n: Node)
    ensures Tids(q + [n]) == Tids(q) + [n.tid]
  {
    assert forall i :: 0 <= i < |q + [n]| ==> Tids(q + [n])[i] == (Tids(q) + [n.tid])[i];
  }

  lemma FitsAfterInsert(l: Local, l': Local)
    requires l.pc.WaitInsert? && Fits(l.op, l.pc, l.held)
    requires l' == l.(pc := Unlock(l.pc.mutex, Unlock(CondMutex(l.pc.cond), WaitTest(l.pc.mutex, l.pc.rec))))
    ensures Fits(l'.op, l'.pc, l'.held) && l.op == Wait(l.pc.cond, l.pc.mutex) && CondMutex(l.pc.cond) in l.held
  {
    var c, m := CondMutex(l.pc.cond), l.pc.mutex;
    assert l.held - {m} - {c} == l.held - {c} - {m};
  }

  lemma FitsInsert(l: Local)
    requires l.pc.WaitInsert? && Fits(l.op, l.pc, l.held)
    ensures CondOf(l.op) == l.pc.cond && CondMutex(l.pc.cond) in l.held && !l.op.Idle?
  {
  }

  lemma InsertedQueue(s: State, t: Tid, r: Addr, c: Cond, s': State)
    requires c in s.queue && QueueOk(s, c) && r in s.recs && s.recs[r].place.Fresh? && s.recs[r].tid == t && s.recs[r].cond == c
    requires s'.queue == s.queue[c := s.queue[c] + [Node(r, t)]] && s'.came == s.came[c := Log(s.came, c) + [t]]
    requires s'.served == s.served && s'.recs == s.recs[r := s.recs[r].(place := Queued)]
    ensures QueueOk(s', c)
  {
    hide Tids;
    TidsAppend(s.queue[c], Node(r, t));
  }

  lemma InsertRecordStep(s: State, t: Tid, r: Addr, c: Cond, l: Local, s': State)
    requires t in s.threads && c in s.queue && r in s.recs && s.recs[r].place.Fresh? && s.recs[r].tid == t && s.recs[r].cond == c
    requires s' == s.(threads := s.threads[t := l], queue := s.queue[c := s.queue[c] + [Node(r, t)]],
                      came := s.came[c := Log(s.came, c) + [t]], recs := s.recs[r := s.recs[r].(place := Queued)])
    requires l.held == s.threads[t].held && CondMutex(c) in l.held && s.threads[t].pc.WaitInsert?
    ensures RecordStep(s, t, r, c, l, s')
  {
  }

  lemma WaitInsertKeeps(s: State, t: Tid, a: Addr)
    requires Going(s, t) && s.threads[t].pc.WaitInsert?
    ensures Inv(NextWait(s, t, a))
  {
    hide Inv, JobOk, InBoth, Above, Tids, Fits, QueueOk, RecordStep;
    ThreadHas(s, t);
    var l, s' := s.threads[t], NextWait(s, t, a);
    var l', r, c := s'.threads[t], l.pc.rec, l.pc.cond;
    Unfold(l.pc);
    FitsInsert(l);
    QueueHasUnless(s, c);
    RecHas(s, r);
    Unfold(l'.pc);
    FitsAfterInsert(l, l');
    InsertedQueue(s, t, r, c, s');
    InsertRecordStep(s, t, r, c, l', s');
    RecordStepKeeps(s, t, r, c, l', s');
  }

  lemma FitsAfterFree(l: Local, l': Local)
    requires l.pc.WaitFree? && Fits(l.op, l.pc, l.held) && l' == l.(pc := Unlock(MallocMutex, Lock(l.pc.mutex, Out)))
    ensures Fits(l'.op, l'.pc, l'.held) && !Touching(l'.pc)
  {
    Unfold(l'.pc);
    assert Fits(l.op, Out, l.held - {MallocMutex} + {l.pc.mutex});
    assert Fits(l.op, Lock(l.pc.mutex, Out), l.held - {MallocMutex});
  }

  lemma WaitFreeKeeps(s: State, t: Tid, a: Addr)
    requires Going(s, t) && s.threads[t].pc.WaitFree?
    ensures Inv(NextWait(s, t, a))
  {
    hide Inv, JobOk, InBoth, Above, Tids, Fits, Touching;
    ThreadHas(s, t);
    var l, s' := s.threads[t], NextWait(s, t, a);
    var l', r := s'.threads[t], l.pc.rec;
    var c := s.recs[r].cond;
    Unfold(l.pc);
    Unfold(l'.pc);
    QueueHasUnless(s, c);
    RecHas(s, r);
    FitsAfterFree(l, l');
    RecordStepKeeps(s, t, r, c, l', s');
  }

  lemma FitsAfterTake(l: Local, l': Local, r: Addr)
    requires l.pc.SignalTake? && Fits(l.op, l.pc, l.held) && l.pc.left > 0
    requires l' == l.(pc := Lock(MallocMutex, SignalNode(l.pc.job, r, l.pc.left - 1)))
    ensures Fits(l'.op, l'.pc, l'.held) && Touching(l.pc) && l.op == Signal(l.pc.job.cond, l.pc.job.all)
    ensures CondMutex(l.pc.job.cond) in l.held
  {
    HeapHeld(l.pc.job.cond, l.held);
  }

  // Serving the oldest waiter moves it from the queue to the log of those served.
  lemma TakenQueue(s: State, t: Tid, c: Cond, s': State)
    requires c in s.queue && QueueOk(s, c) && s.queue[c] != []
    requires var q := s.queue[c];
             && s'.queue == s.queue[c := q[1..]] && s'.came == s.came && s'.served == s.served[c := Log(s.served, c) + [q[0].tid]]
             && s'.recs == s.recs[q[0].rec := s.recs[q[0].rec].(place := Taken(t))]
    ensures QueueOk(s', c)
  {
    hide Tids;
    var q := s.queue[c];
    TidsHead(q);
    assert s'.queue[c] == q[1..];
    forall i | 0 <= i < |q[1..]| ensures q[1..][i] == q[i + 1] && q[i + 1].rec != q[0].rec {
    }
    assert Log(s.served, c) + [q[0].tid] + Tids(q[1..]) == Log(s.served, c) + ([q[0].tid] + Tids(q[1..]));
  }

  lemma TidsHead(q: seq<Node>)
    requires q != []
    ensures Tids(q) == [q[0].tid] + Tids(q[1..])
  {
  }

  lemma SnapShifts(past: seq<Tid>, served: seq<Tid>, x: Tid, rest: seq<Tid>, snap: seq<Tid>)
    requires past <= served && snap == served[|past|..] + ([x] + rest)
    ensures past <= served + [x] && snap == (served + [x])[|past|..] + rest
  {
    assert (served + [x])[|past|..] == served[|past|..] + [x];
  }

  lemma TakenJob(s: State, j: Job, left: nat, s': State)
    requires j.cond in s.queue && s.queue[j.cond] != [] && left > 0 && JobOk(s, j, left)
    requires s'.queue == s.queue[j.cond := s.queue[j.cond][1..]]
    requires s'.served == s.served[j.cond := Log(s.served, j.cond) + [s.queue[j.cond][0].tid]]
    ensures JobOk(s', j, left - 1)
  {
    hide Tids;
    var q := s.queue[j.cond];
    assert q[..left][1..] == q[1..][..left - 1];
    TidsHead(q[..left]);
    SnapShifts(j.past, Log(s.served, j.cond), q[0].tid, Tids(q[1..][..left - 1]), j.snap);
  }

  // What SignalTake does, read off the step.
  ghost predicate Take(s: State, t: Tid, r: Addr, c: Cond, l: Local, s': State)
    requires t in s.threads
  {
    && c in s.queue && s.queue[c] != [] && s.queue[c][0].rec == r && r in s.recs && s.recs[r].place.Queued? && s.recs[r].cond == c
    && s' == s.(threads := s.threads[t := l], queue := s.queue[c := s.queue[c][1..]],
                served := s.served[c := Log(s.served, c) + [s.queue[c][0].tid]],
                recs := s.recs[r := s.recs[r].(place := Taken(t))])
    && l.held == s.threads[t].held && CondMutex(c) in l.held && s.threads[t].pc.SignalTake? && !l.pc.SignalWake?
    && !s.recs[r].flag
  }

  lemma TakeRecordStep(s: State, t: Tid, r: Addr, c: Cond, l: Local, s': State)
    requires t in s.threads && Take(s, t, r, c, l, s')
    ensures RecordStep(s, t, r, c, l, s')
  {
    QueueTail(s.queue[c], r);
  }

  lemma SignalTakeKeeps(s: State, t: Tid)
    requires Going(s, t) && s.threads[t].pc.SignalTake?
    ensures Inv(NextSignal(s, t))
  {
    hide Inv, InBoth, Above, Tids, Fits, QueueOk, JobOk, RecOk, RecordStep, Touching, SleeperOk, Exclusive, DestroyerAlone;
    ThreadHas(s, t);
    var l := s.threads[t];
    var j := l.pc.job;
    Unfold(l.pc);
    JobQueue(s, j, l.pc.left);
    QueueHas(s, j.cond);
    QueueHead(s, j.cond);
    var r := s.queue[j.cond][0].rec;
    var s' := NextSignal(s, t);
    var l' := s'.threads[t];
    Unfold(l'.pc);
    RecHas(s, r);
    FitsAfterTake(l, l', r);
    TakeRecordStep(s, t, r, j.cond, l', s');
    TakenQueue(s, t, j.cond, s');
    TakenJob(s, j, l.pc.left, s');
    TakenRec(s, t, r, l', s');
    RecordStepKeeps(s, t, r, j.cond, l', s');
  }

  // The record just dequeued, with the waiter and the signaller it belongs to.
  lemma TakenRec(s: State, t: Tid, r: Addr, l: Local, s': State)
    requires t in s.threads && r in s.recs && RecOk(s, r) && s'.threads == s.threads[t := l]
    requires s'.recs == s.recs[r := s.recs[r].(place := Taken(t))] && s.recs[r].place.Queued?
    requires s.threads[t].pc.SignalTake? && HasTaken(Core(l.pc)) && Core(l.pc).rec == r
    ensures RecOk(s', r)
  {
  }

  lemma QueueTail(q: seq<Node>, r: Addr)
    requires q != [] && q[0].rec == r
    ensures forall n: Node :: n in q && n.rec != r ==> n in q[1..]
  {
  }

  lemma JobQueue(s: State, j: Job, left: nat)
    requires JobOk(s, j, left) && left > 0
    ensures j.cond in s.queue && s.queue[j.cond] != []
  {
  }

  lemma QueueHead(s: State, c: Cond)
    requires c in s.queue && QueueOk(s, c) && s.queue[c] != []
    ensures s.queue[c][0].rec in s.recs
    ensures s.recs[s.queue[c][0].rec] == Rec(s.queue[c][0].tid, s.recs[s.queue[c][0].rec].flag, c, Queued)
  {
  }

  lemma SignalSetKeeps(s: State, t: Tid)
    requires Going(s, t) && s.threads[t].pc.SignalSet?
    ensures Inv(NextSignal(s, t))
  {
    hide Inv, InBoth, Above, Tids, JobOk;
    ThreadHas(s, t);
    var l, s' := s.threads[t], NextSignal(s, t);
    var l', r, c := s'.threads[t], l.pc.rec, l.pc.job.cond;
    Unfold(l.pc);
    Unfold(l'.pc);
    QueueHasUnless(s, c);
    RecHas(s, r);
    FrameJobs(s, s');
    RecordStepKeeps(s, t, r, c, l', s');
  }

  // A step of t that changes no record and no queue, but may block or wake.
  lemma QuietKeeps(s: State, t: Tid, l: Local, s': State)
    requires Going(s, t) && s' == s.(threads := s.threads[t := l], blocked := s'.blocked)
    requires l.op == s.threads[t].op && l.held == s.threads[t].held && !l.op.Idle? && !l.pc.Out?
    requires Fits(l.op, l.pc, l.held) && WaiterOk(s, t, l) && SignallerOk(s, t, l) && CondOk(s, l)
    requires Touching(l.pc) ==> Touching(s.threads[t].pc)
    requires HasRecord(Core(s.threads[t].pc)) ==> HasRecord(Core(l.pc)) && Core(l.pc).rec == Core(s.threads[t].pc).rec
    requires !HasTaken(Core(s.threads[t].pc))
    requires forall u :: u in s'.blocked ==> SleeperOk(s', u)
    ensures Inv(s')
  {
    hide Inv, Fits, Touching, Core, JobOk, SleeperOk, QueueOk;
    FrameJobs(s, s');
    forall u | u in s'.threads ensures WaiterOk(s', u, s'.threads[u]) && SignallerOk(s', u, s'.threads[u]) && CondOk(s', s'.threads[u]) {
      if u != t { ThreadHas(s, u); }
    }
    forall r | r in s'.recs ensures RecOk(s', r) { RecHas(s, r); }
    forall c | c in s'.queue ensures QueueOk(s', c) {
      QueueHas(s, c);
      QueueSame(s, s', c);
    }
    DataKeeps(s, t, l, s');
  }

  lemma QueueSame(s: State, s': State, c: Cond)
    requires c in s.queue && QueueOk(s, c) && s'.queue == s.queue && s'.recs == s.recs && s'.came == s.came && s'.served == s.served
    ensures QueueOk(s', c)
  {
  }

  lemma WaitSleepKeeps(s: State, t: Tid, a: Addr)
    requires Going(s, t) && s.threads[t].pc.WaitSleep? && s.threads[t].pc.rec in s.recs && !s.recs[s.threads[t].pc.rec].flag
    ensures Inv(NextWait(s, t, a))
  {
    hide Inv, Above, Clients, JobOk;
    ThreadHas(s, t);
    var l, s' := s.threads[t], NextWait(s, t, a);
    var l' := s'.threads[t];
    Unfold(l.pc);
    Unfold(l'.pc);
    FlagMeaning(s, l.pc.rec);
    forall u | u in s'.blocked ensures SleeperOk(s', u) {
      if u != t { SleeperHas(s, u); }
    }
    QuietKeeps(s, t, l', s');
  }

  lemma SignalWakeKeeps(s: State, t: Tid)
    requires Going(s, t) && s.threads[t].pc.SignalWake?
    ensures Inv(NextSignal(s, t))
  {
    hide Inv, InCond, JobOk;
    ThreadHas(s, t);
    var l, s' := s.threads[t], NextSignal(s, t);
    var l' := s'.threads[t];
    Unfold(l.pc);
    Unfold(l'.pc);
    forall u | u in s'.blocked ensures SleeperOk(s', u) {
      SleeperHas(s, u);
    }
    QuietKeeps(s, t, l', s');
  }

  lemma DestroyFlagKeeps(s: State, t: Tid)
    requires Going(s, t) && s.threads[t].pc.DestroyFlag?
    ensures Inv(NextDestroy(s, t))
  {
    hide Inv, Above, Clients, JobOk, Core, Touching, Fits, Tids;
    ThreadHas(s, t);
    var l, s' := s.threads[t], NextDestroy(s, t);
    var l', c := s'.threads[t], l.pc.cond;
    Unfold(l.pc);
    Unfold(l'.pc);
    FitsAfterFlag(l, l');
    QueueHas(s, c);
    forall u | u in s'.threads && u != t ensures WaiterOk(s', u, s'.threads[u]) && SignallerOk(s', u, s'.threads[u]) && CondOk(s', s'.threads[u]) {
      ThreadHas(s, u);
      NotOthers(s, t, c, u);
      Alone(s, t, u);
      if HasJob(Core(s.threads[u].pc)) {
        JobStays(s, s', Core(s.threads[u].pc).job.cond);
      }
    }
    forall r | r in s'.recs ensures RecOk(s', r) { RecHas(s, r); }
    forall d | d in s'.queue ensures QueueOk(s', d) { QueueHas(s, d); }
    forall u | u in s'.blocked ensures SleeperOk(s', u) { SleeperHas(s, u); }
    DataKeeps(s, t, l', s');
  }

  lemma FitsAfterFlag(l: Local, l': Local)
    requires l.pc.DestroyFlag? && Fits(l.op, l.pc, l.held) && l' == l.(pc := Unlock(CondMutex(l.pc.cond), DestroyMutex(l.pc.cond)))
    ensures Fits(l'.op, l'.pc, l'.held) && l.op == Destroy(l.pc.cond) && Touching(l.pc) && CondMutex(l.pc.cond) in l.held
  {
  }

  lemma Alone(s: State, t: Tid, u: Tid)
    requires Inv(s) && t in s.threads && u in s.threads && u != t && s.threads[t].op.Destroy?
    ensures Touching(s.threads[u].pc) ==> CondOf(s.threads[u].op) != s.threads[t].op.cond
  {
  }

  lemma JobStays(s: State, s': State, d: Cond)
    requires s'.served == s.served && (d in s.queue ==> d in s'.queue && s'.queue[d] == s.queue[d])
    ensures forall j: Job, n: nat :: j.cond == d && JobOk(s, j, n) ==> JobOk(s', j, n)
  {
  }

  lemma DestroyMutexKeeps(s: State, t: Tid)
    requires Going(s, t) && s.threads[t].pc.DestroyMutex?
    ensures Inv(NextDestroy(s, t)) && NextDestroy(s, t).threads[t].pc.Out?
  {
    hide Inv, Above, JobOk, Core, Touching, Fits, Tids;
    ThreadHas(s, t);
    var l, c := s.threads[t], s.threads[t].pc.cond;
    Unfold(l.pc);
    FitsDestroyed(l);
    NobodyHolds(s, t, c);
    var s' := NextDestroy(s, t);
    var l' := s'.threads[t];
    FitsOut(l, l');
    forall u | u in s'.threads ensures WaiterOk(s', u, s'.threads[u]) && SignallerOk(s', u, s'.threads[u]) && CondOk(s', s'.threads[u]) {
      if u != t {
        ThreadHas(s, u);
        Alone(s, t, u);
        FrameJobs(s, s');
      }
    }
    forall r | r in s'.recs ensures RecOk(s', r) { RecHas(s, r); }
    forall d | d in s'.queue ensures QueueOk(s', d) {
      QueueHas(s, d);
      QueueSame(s, s', d);
    }
    forall u | u in s'.blocked ensures SleeperOk(s', u) { SleeperHas(s, u); }
    DataKeeps(s, t, l', s');
  }

  lemma FitsDestroyed(l: Local)
    requires l.pc.DestroyMutex? && Fits(l.op, l.pc, l.held)
    ensures l.op == Destroy(l.pc.cond) && Touching(l.pc) && Clients(l.held)
  {
  }

  lemma FitsOut(l: Local, l': Local)
    requires Clients(l.held) && l' == Local(Idle, Out, l.held)
    ensures Fits(l'.op, l'.pc, l'.held) && !Touching(l'.pc) && Core(l'.pc).Out?
  {
  }

  // By the time cond_destroy comes to the mutex, nobody holds it any more.
  lemma NobodyHolds(s: State, t: Tid, c: Cond)
    requires Inv(s) && t in s.threads && s.threads[t].op == Destroy(c) && Clients(s.threads[t].held)
    ensures CondMutex(c) !in s.locked
  {
    hide Fits, Touching, ThreadOk;
    if CondMutex(c) in s.locked {
      var u :| u in s.threads && CondMutex(c) in s.threads[u].held;
      FitsHas(s, u);
      HolderTouches(s.threads[u].op, s.threads[u].pc, s.threads[u].held, c);
    }
  }

  lemma FitsHas(s: State, t: Tid)
    requires Inv(s) && t in s.threads
    ensures Fits(s.threads[t].op, s.threads[t].pc, s.threads[t].held)
  {
    ThreadHas(s, t);
  }

  lemma RunKeeps(s: State, t: Tid, a: Addr)
    requires Inv(s) && Allowed(s, Run(t, a))
    ensures Inv(Next(s, t, a))
  {
    hide Inv, NextMutex, NextWait, NextSignal, NextDestroy, ThreadOk;
    var pc := s.threads[t].pc;
    assert Going(s, t);
    if InMutex(pc) {
      if pc.Lock? || pc.Spin? { LockKeeps(s, t); } else { UnlockKeeps(s, t); }
    } else if InWait(pc) {
      if pc.WaitCheck? { WaitCheckKeeps(s, t, a); }
      else if pc.WaitRecord? { WaitRecordKeeps(s, t, a); }
      else if pc.WaitNode? { WaitNodeKeeps(s, t, a); }
      else if pc.WaitInsert? { WaitInsertKeeps(s, t, a); }
      else if pc.WaitTest? { WaitTestKeeps(s, t, a); }
      else if pc.WaitFree? { WaitFreeKeeps(s, t, a); }
      else {
        RecordThere(s, t);
        if s.recs[pc.rec].flag { WaitTestKeeps(s, t, a); } else { WaitSleepKeeps(s, t, a); }
      }
    } else if InDestroy(pc) {
      if pc.DestroyCheck? { DestroyCheckKeeps(s, t); }
      else if pc.DestroyFlag? { DestroyFlagKeeps(s, t); }
      else { DestroyMutexKeeps(s, t); }
    } else {
      if pc.SignalCheck? { SignalCheckKeeps(s, t); }
      else if pc.SignalCount? { SignalCountKeeps(s, t); }
      else if pc.SignalTake? { SignalTakeKeeps(s, t); }
      else if pc.SignalSet? { SignalSetKeeps(s, t); }
      else if pc.SignalWake? { SignalWakeKeeps(s, t); }
      else if pc.SignalNode? { SignalNodeKeeps(s, t); }
      else { SignalReadKeeps(s, t); }
    }
  }

  lemma RecordThere(s: State, t: Tid)
    requires Inv(s) && t in s.threads && HasRecord(s.threads[t].pc)
    ensures s.threads[t].pc.rec in s.recs && s.recs[s.threads[t].pc.rec].tid == t
  {
    ThreadHas(s, t);
    Unfold(s.threads[t].pc);
  }

  lemma FitsStart(s: State, t: Tid, op: Op)
    requires Inv(s) && MayCall(s, t, op)
    ensures Fits(op, Start(op), s.threads[t].held) && !op.Idle? && !Start(op).Out?
    ensures Touching(Start(op)) <==> op.Wait? || op.Signal? || op.Destroy?
    ensures Core(Start(op)).Out? || Core(Start(op)).HeapWork? || Core(Start(op)).WaitCheck? || Core(Start(op)).SignalCheck? || Core(Start(op)).DestroyCheck?
  {
    hide Inv;
    FitsHas(s, t);
    var h := s.threads[t].held;
    Unfold(Start(op));
    if op.Wait? || op.Signal? || op.Destroy? {
      var m := CondMutex(op.cond);
      assert h + {m} - {m} == h;
    } else if op.Heap? {
      HeapOwn(h);
    } else if op.Acquire? {
      assert Fits(op, Out, h + {op.mutex});
    } else if op.Release? {
      assert Fits(op, Out, h - {op.mutex});
    }
  }

  lemma CallKeeps(s: State, t: Tid, op: Op)
    requires Inv(s) && Allowed(s, Call(t, op))
    ensures Inv(Apply(s, Call(t, op)))
  {
    hide Fits, Touching, Core, JobOk, Exclusive, Start, QueueOk;
    var s' := Apply(s, Call(t, op));
    var l' := s'.threads[t];
    FitsStart(s, t, op);
    ThreadHas(s, t);
    NotAsleep(s, t);
    LocksKept(s, t, MallocMutex, l', s') by { LocksWithin(s); }
    FrameJobs(s, s');
    forall u | u in s'.threads ensures ThreadOk(s', u) {
      if u != t { ThreadHas(s, u); }
    }
    forall r | r in s'.recs ensures RecOk(s', r) {
      RecHas(s, r);
      FitsOutCore(s, t);
    }
    forall c | c in s'.queue ensures QueueOk(s', c) {
      QueueHas(s, c);
      QueueSame(s, s', c);
    }
    forall u | u in s'.blocked ensures SleeperOk(s', u) { SleeperHas(s, u); }
  }

  lemma FitsOutCore(s: State, t: Tid)
    requires t in s.threads && s.threads[t].pc.Out?
    ensures Core(s.threads[t].pc).Out? && !Touching(s.threads[t].pc)
  {
  }

  lemma LocksWithin(s: State)
    requires Inv(s)
    ensures Exclusive(s) && forall u :: u in s.threads ==> s.threads[u].held <= s.locked
  {
    assert forall u :: u in s.threads ==> ThreadOk(s, u);
  }

  lemma NotAsleep(s: State, t: Tid)
    requires Inv(s) && t in s.threads && s.threads[t].pc.Out?
    ensures t !in s.blocked
  {
    if t in s.blocked {
      SleeperHas(s, t);
    }
  }

  lemma InitKeeps(s: State, c: Cond)
    requires Inv(s) && Allowed(s, Init(c))
    ensures Inv(Apply(s, Init(c)))
  {
    hide ThreadOk, RecOk, QueueOk, SleeperOk, Inv;
    var s' := Apply(s, Init(c));
    forall u | u in s'.threads ensures ThreadOk(s', u) { InitThread(s, c, u); }
    forall r | r in s'.recs ensures RecOk(s', r) { InitRecord(s, c, r); }
    forall d | d in s'.queue ensures QueueOk(s', d) { InitQueue(s, c, d); }
    forall u | u in s'.blocked ensures SleeperOk(s', u) { InitSleeper(s, c, u); }
    ShowInv(s, s');
  }

  lemma InitThread(s: State, c: Cond, u: Tid)
    requires Inv(s) && Allowed(s, Init(c)) && u in s.threads
    ensures ThreadOk(Apply(s, Init(c)), u)
  {
    hide Fits, Touching, Core, JobOk, Inv;
    LocksWithin(s);
    ThreadHas(s, u);
    JobsElsewhere(s, Apply(s, Init(c)), c);
  }

  lemma InitRecord(s: State, c: Cond, r: Addr)
    requires Inv(s) && Allowed(s, Init(c)) && r in s.recs
    ensures RecOk(Apply(s, Init(c)), r)
  {
    hide Fits, Touching, Core, JobOk, Inv;
    RecHas(s, r);
  }

  lemma InitQueue(s: State, c: Cond, d: Cond)
    requires Inv(s) && Allowed(s, Init(c)) && (d == c || d in s.queue)
    ensures QueueOk(Apply(s, Init(c)), d)
  {
    hide Fits, Touching, Core, JobOk, Inv;
    if d != c { QueueHas(s, d); }
  }

  lemma InitSleeper(s: State, c: Cond, u: Tid)
    requires Inv(s) && Allowed(s, Init(c)) && u in s.blocked
    ensures SleeperOk(Apply(s, Init(c)), u)
  {
    hide Fits, Touching, Core, JobOk, Inv;
    SleeperHas(s, u);
  }

  lemma JobsElsewhere(s: State, s': State, c: Cond)
    requires c !in s.queue && s'.queue == s.queue[c := []] && s'.served == s.served[c := []]
    ensures forall j: Job, n: nat :: JobOk(s, j, n) ==> JobOk(s', j, n)
  {
  }

  lemma ShowInv(s: State, s': State)
    requires Inv(s) && s'.threads == s.threads && s'.locked == s.locked
    requires forall u :: u in s'.threads ==> ThreadOk(s', u)
    requires forall r :: r in s'.recs ==> RecOk(s', r)
    requires forall d :: d in s'.queue ==> QueueOk(s', d)
    requires forall u :: u in s'.blocked ==> SleeperOk(s', u)
    ensures Inv(s')
  {
    hide ThreadOk, RecOk, QueueOk, SleeperOk;
  }

  lemma ForkKeeps(s: State, u: Tid)
    requires Inv(s) && Allowed(s, Fork(u))
    ensures Inv(Apply(s, Fork(u)))
  {
    hide Fits, Touching, Core, JobOk, QueueOk;
    var s' := Apply(s, Fork(u));
    FitsOut(Local(Idle, Out, {}), s'.threads[u]);
    FrameJobs(s, s');
    forall t | t in s'.threads ensures ThreadOk(s', t) {
      if t != u { ThreadHas(s, t); }
    }
    forall r | r in s'.recs ensures RecOk(s', r) { RecHas(s, r); }
    forall d | d in s'.queue ensures QueueOk(s', d) {
      QueueHas(s, d);
      QueueSame(s, s', d);
    }
    forall v | v in s'.blocked ensures SleeperOk(s', v) { SleeperHas(s, v); }
    assert Exclusive(s') by { ForkedLocks(s, u, s'); }
  }

  lemma ForkedLocks(s: State, u: Tid, s': State)
    requires Exclusive(s) && u !in s.threads && s'.threads == s.threads[u := Local(Idle, Out, {})] && s'.locked == s.locked
    ensures Exclusive(s')
  {
    forall m | m in s'.locked ensures exists t :: t in s'.threads && m in s'.threads[t].held {
      var t :| t in s.threads && m in s.threads[t].held;
      assert t in s'.threads;
    }
  }

  lemma StepKeeps(s: State, x: Label)
    requires Inv(s) && Allowed(s, x)
    ensures Inv(Apply(s, x))
  {
    hide Inv;
    match x
    case Run(t, a) => RunKeeps(s, t, a);
    case Call(t, op) => CallKeeps(s, t, op);
    case Init(c) => InitKeeps(s, c);
    case Fork(u) => ForkKeeps(s, u);
  }

  // ------------------------------------------------------------------ what holds in every run

  ghost predicate Initial(s: State) {
    && s.locked == {} && s.ready == {} && s.queue == map[] && s.recs == map[] && s.blocked == {}
    && forall t :: t in s.threads ==> s.threads[t] == Local(Idle, Out, {})
  }

  // A run: states and the steps between them.
  ghost predicate IsRun(tr: seq<State>, xs: seq<Label>) {
    && |tr| == |xs| + 1 && Initial(tr[0])
    && forall i :: 0 <= i < |xs| ==> Allowed(tr[i], xs[i]) && tr[i + 1] == Apply(tr[i], xs[i])
  }

  lemma {:induction false} RunInv(tr: seq<State>, xs: seq<Label>, k: nat)
    requires IsRun(tr, xs) && k < |tr|
    ensures Inv(tr[k])
  {
    hide Inv;
    if k == 0 {
      InitialInv(tr[0]);
    } else {
      RunInv(tr, xs, k - 1);
      assert Allowed(tr[k - 1], xs[k - 1]) && tr[k - 1 + 1] == Apply(tr[k - 1], xs[k - 1]);
      StepKeeps(tr[k - 1], xs[k - 1]);
    }
  }

  lemma InitialInv(s: State)
    requires Initial(s)
    ensures Inv(s)
  {
    forall t | t in s.threads ensures ThreadOk(s, t) {
      FitsOut(s.threads[t], s.threads[t]);
    }
  }

  // No assert fails, no mutex is misused and no freed record is touched.
  lemma NothingFails(tr: seq<State>, xs: seq<Label>, k: nat, t: Tid)
    requires IsRun(tr, xs) && k < |tr| && t in tr[k].threads
    ensures !Core(tr[k].threads[t].pc).Failed?
  {
    RunInv(tr, xs, k);
    FitsHas(tr[k], t);
    NotFailed(tr[k].threads[t].op, tr[k].threads[t].pc, tr[k].threads[t].held);
  }

  lemma {:induction false} NotFailed(op: Op, pc: Pc, h: set<Mutex>)
    requires Fits(op, pc, h)
    ensures !Core(pc).Failed?
  {
    match pc
    case Lock(m, k) => NotFailed(op, k, h + {m});
    case Spin(m, k) => NotFailed(op, k, h + {m});
    case Unlock(m, k) => NotFailed(op, k, h - {m});
    case Drop(m, k) => NotFailed(op, k, h - {m});
    case _ =>
  }

  // A mutex is locked exactly while some thread is between its lock and its unlock, and then only one is.
  lemma MutualExclusion(tr: seq<State>, xs: seq<Label>, k: nat, m: Mutex)
    requires IsRun(tr, xs) && k < |tr|
    ensures m in tr[k].locked <==> exists t :: t in tr[k].threads && m in tr[k].threads[t].held
    ensures forall t, u :: t in tr[k].threads && u in tr[k].threads && m in tr[k].threads[t].held && m in tr[k].threads[u].held ==> t == u
  {
    RunInv(tr, xs, k);
    LocksWithin(tr[k]);
  }

  ghost predicate SpinsOn(s: State, t: Tid, u: Tid) {
    t in s.threads && u in s.threads && s.threads[t].pc.Spin? && s.threads[t].pc.mutex in s.threads[u].held
  }

  // No ring of threads spins each on a mutex that the next one holds.
  lemma NoSpinCycle(tr: seq<State>, xs: seq<Label>, k: nat, ts: seq<Tid>)
    requires IsRun(tr, xs) && k < |tr| && |ts| > 1
    requires forall i :: 0 <= i < |ts| - 1 ==> SpinsOn(tr[k], ts[i], ts[i + 1])
    ensures ts[|ts| - 1] != ts[0]
  {
    hide Inv, Fits;
    RunInv(tr, xs, k);
    if ts[|ts| - 1] == ts[0] {
      assert SpinsOn(tr[k], ts[0], ts[0 + 1]);
      SpinChain(tr[k], ts, |ts| - 1);
      assert false;
    }
  }

  lemma SpinsAbove(s: State, t: Tid, u: Tid)
    requires Inv(s) && SpinsOn(s, t, u) && s.threads[u].pc.Spin?
    ensures Below(s.threads[t].pc.mutex, s.threads[u].pc.mutex)
  {
    FitsHas(s, u);
  }

  // Along a chain of spinning threads the mutexes wanted only go up.
  lemma {:induction false} SpinChain(s: State, ts: seq<Tid>, n: nat)
    requires Inv(s) && 0 < n < |ts|
    requires forall i :: 0 <= i < |ts| - 1 ==> SpinsOn(s, ts[i], ts[i + 1])
    requires ts[n] in s.threads && s.threads[ts[n]].pc.Spin?
    ensures SpinsOn(s, ts[0], ts[0 + 1]) && Below(s.threads[ts[0]].pc.mutex, s.threads[ts[n]].pc.mutex)
  {
    hide Inv;
    assert SpinsOn(s, ts[0], ts[0 + 1]);
    if n == 1 {
      SpinsAbove(s, ts[0], ts[0 + 1]);
    } else {
      assert SpinsOn(s, ts[n - 1], ts[n - 1 + 1]);
      SpinChain(s, ts, n - 1);
      SpinsAbove(s, ts[n - 1], ts[n]);
    }
  }

  // ------------------------------------------------------------------ waiting and waking

  // A thread asleep in cond_wait is still queued with its flag down, or a signaller that holds the
  // condition variable's mutex has dequeued its record and has yet to wake it.
  ghost predicate WillBeWoken(s: State, t: Tid) {
    && t in s.threads && s.threads[t].op.Wait? && s.threads[t].pc.WaitTest? && s.threads[t].pc.rec in s.recs
    && var r, c := s.threads[t].pc.rec, s.threads[t].op.cond;
       || (!s.recs[r].flag && c in s.queue && Node(r, t) in s.queue[c])
       || (exists u :: u in s.threads && CondMutex(c) in s.threads[u].held && !s.recs[r].flag && s.recs[r].place == Taken(u)
                       && HasTaken(Core(s.threads[u].pc)) && Core(s.threads[u].pc).rec == r && Core(s.threads[u].pc).job.cond == c)
       || (exists u :: u in s.threads && CondMutex(c) in s.threads[u].held && s.recs[r].flag && s.recs[r].place == Done(u)
                       && s.threads[u].pc.SignalWake? && s.threads[u].pc.tid == t && s.threads[u].pc.job.cond == c)
  }

  lemma NoLostWakeup(tr: seq<State>, xs: seq<Label>, k: nat, t: Tid)
    requires IsRun(tr, xs) && k < |tr| && t in tr[k].blocked
    ensures WillBeWoken(tr[k], t)
  {
    hide Inv, JobOk;
    RunInv(tr, xs, k);
    var s := tr[k];
    SleeperHas(s, t);
    ThreadHas(s, t);
    var r := s.threads[t].pc.rec;
    Unfold(s.threads[t].pc);
    RecHas(s, r);
    if s.recs[r].place.Taken? || s.recs[r].place.Done? {
      var u := s.recs[r].place.signaller;
      ThreadHas(s, u);
      Unfold(s.threads[u].pc);
      JobHolds(s.threads[u].op, s.threads[u].pc, s.threads[u].held);
    }
  }

  ghost predicate Inserts(s: State, x: Label, r: Addr) {
    x.Run? && x.t in s.threads && s.threads[x.t].pc.WaitInsert? && s.threads[x.t].pc.rec == r
  }

  ghost predicate Takes(s: State, x: Label, r: Addr) {
    && x.Run? && x.t in s.threads && s.threads[x.t].pc.SignalTake?
    && s.threads[x.t].pc.job.cond in s.queue && s.queue[s.threads[x.t].pc.job.cond] != []
    && s.queue[s.threads[x.t].pc.job.cond][0].rec == r
  }

  // A record only moves forward: inserted by its owner, dequeued by a signaller, marked.
  ghost predicate Moves(s: State, x: Label, r: Addr, y: Rec) {
    || (r !in s.recs && y.place.Fresh?)
    || (r in s.recs && y.tid == s.recs[r].tid && y.cond == s.recs[r].cond
        && (|| y.place == s.recs[r].place
            || (s.recs[r].place.Fresh? && y.place.Queued? && Inserts(s, x, r) && x.t == y.tid)
            || (s.recs[r].place.Queued? && y.place.Taken? && Takes(s, x, r))
            || (s.recs[r].place.Taken? && y.place.Done?)))
  }

  predicate ChangesRecs(pc: Pc) { pc.WaitRecord? || pc.WaitInsert? || pc.WaitFree? || pc.SignalTake? || pc.SignalSet? }

  lemma RecsSame(s: State, t: Tid, a: Addr)
    requires t in s.threads && !ChangesRecs(s.threads[t].pc)
    ensures Next(s, t, a).recs == s.recs
  {
    hide NextMutex, NextWait, NextSignal, NextDestroy;
    RecsSameMutex(s, t);
    RecsSameWait(s, t, a);
    RecsSameSignal(s, t);
    RecsSameDestroy(s, t);
  }

  lemma RecsSameMutex(s: State, t: Tid)
    requires t in s.threads
    ensures NextMutex(s, t).recs == s.recs
  {
    hide Goto, Put;
  }

  lemma RecsSameWait(s: State, t: Tid, a: Addr)
    requires t in s.threads && !ChangesRecs(s.threads[t].pc)
    ensures NextWait(s, t, a).recs == s.recs
  {
    hide Goto, Put;
  }

  // The steps of a signaller that change more than its own position.
  predicate SignalsData(pc: Pc) { pc.SignalTake? || pc.SignalSet? || pc.SignalWake? }

  lemma SignalMovesOn(s: State, t: Tid)
    requires t in s.threads && !SignalsData(s.threads[t].pc)
    ensures NextSignal(s, t) == s.(threads := s.threads[t := NextSignal(s, t).threads[t]])
  {
    hide Goto, Put, Tids, Count;
  }

  lemma RecsSameSignal(s: State, t: Tid)
    requires t in s.threads && !ChangesRecs(s.threads[t].pc)
    ensures NextSignal(s, t).recs == s.recs
  {
    hide Goto, Put, NextSignal;
    if s.threads[t].pc.SignalWake? {
      SignalWakeOnly(s, t);
    } else {
      SignalMovesOn(s, t);
    }
  }

  lemma SignalWakeOnly(s: State, t: Tid)
    requires t in s.threads && s.threads[t].pc.SignalWake?
    ensures NextSignal(s, t).recs == s.recs
  {
    hide Goto, Put;
  }

  lemma RecsSameDestroy(s: State, t: Tid)
    requires t in s.threads
    ensures NextDestroy(s, t).recs == s.recs
  {
    hide Goto, Put;
  }

  lemma WaitRecMoves(s: State, x: Label, r: Addr)
    requires Inv(s) && x.Run? && Allowed(s, x) && InWait(s.threads[x.t].pc) && ChangesRecs(s.threads[x.t].pc)
    requires r in NextWait(s, x.t, x.a).recs
    ensures Moves(s, x, r, NextWait(s, x.t, x.a).recs[r])
  {
    hide Inv, ThreadOk;
    if !s.threads[x.t].pc.WaitRecord? {
      RecordThere(s, x.t);
      RecordFresh(s, x.t);
    }
  }

  lemma RecordFresh(s: State, t: Tid)
    requires Inv(s) && t in s.threads && HasRecord(s.threads[t].pc)
    ensures s.threads[t].pc.WaitInsert? ==> s.threads[t].pc.rec in s.recs && s.recs[s.threads[t].pc.rec].place.Fresh?
  {
    ThreadHas(s, t);
    Unfold(s.threads[t].pc);
  }

  lemma SignalRecMoves(s: State, x: Label, r: Addr)
    requires Inv(s) && x.Run? && Allowed(s, x) && (s.threads[x.t].pc.SignalTake? || s.threads[x.t].pc.SignalSet?)
    requires r in NextSignal(s, x.t).recs
    ensures Moves(s, x, r, NextSignal(s, x.t).recs[r])
  {
    hide Inv, JobOk, Fits, Touching;
    var pc := s.threads[x.t].pc;
    ThreadHas(s, x.t);
    Unfold(pc);
    if pc.SignalTake? {
      JobQueue(s, pc.job, pc.left);
      QueueHas(s, pc.job.cond);
      QueueHead(s, pc.job.cond);
    }
  }

  lemma RecStep(s: State, x: Label, r: Addr)
    requires Inv(s) && Allowed(s, x) && r in Apply(s, x).recs
    ensures Moves(s, x, r, Apply(s, x).recs[r])
  {
    hide Inv, NextMutex, NextWait, NextSignal, NextDestroy, Inserts, Takes;
    if x.Run? {
      var pc := s.threads[x.t].pc;
      if !ChangesRecs(pc) {
        RecsSame(s, x.t, x.a);
      } else if InWait(pc) {
        WaitRecMoves(s, x, r);
      } else {
        SignalRecMoves(s, x, r);
      }
    }
  }

  // Between steps i and k the record stays in the hands of the same thread.
  ghost predicate Keeps(tr: seq<State>, i: nat, k: nat, r: Addr, t: Tid) {
    k < |tr| && forall n :: i < n <= k ==> r in tr[n].recs && tr[n].recs[r].tid == t
  }

  lemma Stepped(tr: seq<State>, xs: seq<Label>, k: nat, r: Addr)
    requires IsRun(tr, xs) && k < |tr| && r in tr[k].recs
    ensures 0 < k <= |xs|
    ensures !tr[k].recs[r].place.Fresh? ==> r in tr[k - 1].recs && tr[k - 1].recs[r].tid == tr[k].recs[r].tid
    ensures !tr[k].recs[r].place.Fresh? && tr[k - 1].recs[r].place.Fresh? ==>
              Inserts(tr[k - 1], xs[k - 1], r) && xs[k - 1].t == tr[k].recs[r].tid && tr[k].recs[r].place.Queued?
    ensures tr[k].recs[r].place.Taken? || tr[k].recs[r].place.Done? ==>
              || tr[k - 1].recs[r].place.Taken? || tr[k - 1].recs[r].place.Done?
              || (tr[k - 1].recs[r].place.Queued? && Takes(tr[k - 1], xs[k - 1], r))
  {
    hide Inv, Allowed, Apply, Inserts, Takes;
    if k > 0 {
      RunInv(tr, xs, k - 1);
      assert Allowed(tr[k - 1], xs[k - 1]) && tr[k - 1 + 1] == Apply(tr[k - 1], xs[k - 1]);
      RecStep(tr[k - 1], xs[k - 1], r);
    }
  }

  lemma KeepsOn(tr: seq<State>, i: nat, k: nat, r: Addr, t: Tid)
    requires 0 < k < |tr| && r in tr[k].recs && tr[k].recs[r].tid == t && (i == k - 1 || Keeps(tr, i, k - 1, r, t))
    ensures Keeps(tr, i, k, r, t)
  {
  }

  lemma {:induction false} Inserted(tr: seq<State>, xs: seq<Label>, k: nat, r: Addr) returns (i: nat)
    requires IsRun(tr, xs) && k < |tr| && r in tr[k].recs && !tr[k].recs[r].place.Fresh?
    ensures i < k <= |xs| && Inserts(tr[i], xs[i], r) && xs[i].t == tr[k].recs[r].tid && Keeps(tr, i, k, r, tr[k].recs[r].tid)
  {
    hide *;
    Stepped(tr, xs, k, r);
    if tr[k - 1].recs[r].place.Fresh? {
      i := k - 1;
    } else {
      i := Inserted(tr, xs, k - 1, r);
    }
    KeepsOn(tr, i, k, r, tr[k].recs[r].tid);
  }

  lemma {:induction false} TakenBefore(tr: seq<State>, xs: seq<Label>, k: nat, r: Addr) returns (i: nat, j: nat)
    requires IsRun(tr, xs) && k < |tr| && r in tr[k].recs && (tr[k].recs[r].place.Taken? || tr[k].recs[r].place.Done?)
    ensures i < j < k <= |xs| && Inserts(tr[i], xs[i], r) && xs[i].t == tr[k].recs[r].tid && Keeps(tr, i, k, r, tr[k].recs[r].tid)
    ensures Takes(tr[j], xs[j], r)
  {
    hide *;
    Stepped(tr, xs, k, r);
    if tr[k - 1].recs[r].place.Queued? {
      i := Inserted(tr, xs, k - 1, r);
      j := k - 1;
    } else {
      i, j := TakenBefore(tr, xs, k - 1, r);
    }
    KeepsOn(tr, i, k, r, tr[k].recs[r].tid);
  }

  // cond_wait leaves its loop only after a signal or broadcast has dequeued the very record that it
  // inserted, and the record has not been freed in between.
  lemma NoSpuriousReturn(tr: seq<State>, xs: seq<Label>, k: nat, t: Tid)
    requires IsRun(tr, xs) && k < |tr| && t in tr[k].threads && Core(tr[k].threads[t].pc).WaitFree?
    ensures exists i, j :: 0 <= i < j < k && Inserts(tr[i], xs[i], Core(tr[k].threads[t].pc).rec) && xs[i].t == t
                           && Takes(tr[j], xs[j], Core(tr[k].threads[t].pc).rec) && Keeps(tr, i, k, Core(tr[k].threads[t].pc).rec, t)
  {
    hide Inv, IsRun, Inserts, Takes;
    RunInv(tr, xs, k);
    ThreadHas(tr[k], t);
    var i, j := TakenBefore(tr, xs, k, Core(tr[k].threads[t].pc).rec);
  }

  // Signals and broadcasts serve the waiters in the order in which they came.
  lemma FirstComeFirstServed(tr: seq<State>, xs: seq<Label>, k: nat, c: Cond)
    requires IsRun(tr, xs) && k < |tr| && c in tr[k].queue
    ensures Log(tr[k].came, c) == Log(tr[k].served, c) + Tids(tr[k].queue[c])
  {
    hide Inv;
    RunInv(tr, xs, k);
    QueueHas(tr[k], c);
  }

  ghost predicate SameQueue(s: State, s': State, c: Cond) {
    && (c in s.queue <==> c in s'.queue) && (c in s.queue ==> s'.queue[c] == s.queue[c])
    && Log(s'.served, c) == Log(s.served, c) && Log(s'.came, c) == Log(s.came, c)
  }

  // Only the holder of a condition variable's mutex changes its queue.
  lemma QueueGuarded(s: State, x: Label, c: Cond, t: Tid)
    requires Inv(s) && Allowed(s, x) && t in s.threads && CondMutex(c) in s.threads[t].held && (x.Run? ==> x.t != t)
    ensures SameQueue(s, Apply(s, x), c)
  {
    hide Inv, ThreadOk, NextMutex, NextWait, NextSignal, NextDestroy, Fits, Touching;
    FitsHas(s, t);
    HolderTouches(s.threads[t].op, s.threads[t].pc, s.threads[t].held, c);
    StillThere(s, t);
    if x.Run? {
      WorksOn(s, x.t, c, t);
      QueueSameMutex(s, x.t, c);
      QueueSameWait(s, x.t, x.a, c);
      QueueSameSignal(s, x.t, c);
      QueueSameDestroy(s, x.t, c);
    }
  }

  // The operations that change a queue, and whose.
  predicate ChangesQueue(pc: Pc, c: Cond) {
    (pc.WaitInsert? && pc.cond == c) || (pc.DestroyFlag? && pc.cond == c) || (pc.SignalTake? && pc.job.cond == c)
  }

  lemma WorksOn(s: State, u: Tid, c: Cond, t: Tid)
    requires Inv(s) && t in s.threads && u in s.threads && u != t && CondMutex(c) in s.threads[t].held
    ensures !ChangesQueue(s.threads[u].pc, c)
  {
    hide Touching;
    FitsHas(s, u);
    LocksWithin(s);
  }

  lemma StillThere(s: State, t: Tid)
    requires Inv(s) && t in s.threads && Touching(s.threads[t].pc)
    ensures CondOf(s.threads[t].op) in s.ready
  {
    ThreadHas(s, t);
  }

  lemma QueueSameMutex(s: State, t: Tid, c: Cond)
    requires t in s.threads
    ensures SameQueue(s, NextMutex(s, t), c)
  {
    hide Goto, Put;
  }

  lemma QueueSameWait(s: State, t: Tid, a: Addr, c: Cond)
    requires t in s.threads && !ChangesQueue(s.threads[t].pc, c)
    ensures SameQueue(s, NextWait(s, t, a), c)
  {
    hide Goto, Put;
  }

  lemma QueueSameSignal(s: State, t: Tid, c: Cond)
    requires t in s.threads && !ChangesQueue(s.threads[t].pc, c)
    ensures SameQueue(s, NextSignal(s, t), c)
  {
    hide NextSignal;
    if SignalsData(s.threads[t].pc) {
      QueueSameData(s, t, c);
    } else {
      SignalMovesOn(s, t);
    }
  }

  lemma QueueSameData(s: State, t: Tid, c: Cond)
    requires t in s.threads && !ChangesQueue(s.threads[t].pc, c) && SignalsData(s.threads[t].pc)
    ensures SameQueue(s, NextSignal(s, t), c)
  {
    hide Goto, Put;
  }

  lemma QueueSameDestroy(s: State, t: Tid, c: Cond)
    requires t in s.threads && !ChangesQueue(s.threads[t].pc, c)
    ensures SameQueue(s, NextDestroy(s, t), c)
  {
    hide Goto, Put;
  }

  // How far the signal or broadcast of t that found s0 has come.
  ghost predicate Tracks(s0: State, s: State, t: Tid, c: Cond, all: bool) {
    && t in s.threads && c in s0.queue
    && var k := Core(s.threads[t].pc);
       && (k.Out? || k == SignalCheck(c, all) || HasJob(k))
       && (k.SignalCheck? ==> s.threads[t].pc == k && SameQueue(s0, s, c))
       && (HasJob(k) ==> k.job == Job(c, all, Log(s0.served, c), Tids(s0.queue[c][..Count(all, |s0.queue[c]|)])))
  }

  lemma OwnTrackMutex(s0: State, s: State, t: Tid, c: Cond, all: bool)
    requires Inv(s) && t in s.threads && InMutex(s.threads[t].pc) && Tracks(s0, s, t, c, all)
    ensures Tracks(s0, NextMutex(s, t), t, c, all)
  {
    hide Inv, JobOk, Touching, Tids, Count, SameQueue;
    FitsHas(s, t);
    MutexKeepsCore(s, t);
  }

  lemma MutexKeepsCore(s: State, t: Tid)
    requires Inv(s) && t in s.threads && InMutex(s.threads[t].pc)
    ensures t in NextMutex(s, t).threads
    ensures !s.threads[t].pc.HeapWork? ==> Core(NextMutex(s, t).threads[t].pc) == Core(s.threads[t].pc)
  {
    ThreadHas(s, t);
  }

  lemma OwnTrackTake(s0: State, s: State, t: Tid, c: Cond, all: bool)
    requires Inv(s) && t in s.threads && s.threads[t].pc.SignalTake? && Tracks(s0, s, t, c, all)
    ensures Tracks(s0, NextSignal(s, t), t, c, all)
  {
    hide Inv, JobOk, Touching, Tids, Count, Fits, QueueOk, SameQueue;
    ThreadHas(s, t);
    var pc := s.threads[t].pc;
    Unfold(pc);
    JobQueue(s, pc.job, pc.left);
    QueueHas(s, pc.job.cond);
    QueueHead(s, pc.job.cond);
    Unfold(NextSignal(s, t).threads[t].pc);
  }

  lemma OwnTrackCheck(s0: State, s: State, t: Tid, c: Cond, all: bool)
    requires Inv(s) && t in s.threads && s.threads[t].pc.SignalCheck? && Tracks(s0, s, t, c, all)
    ensures Tracks(s0, NextSignal(s, t), t, c, all)
  {
    hide Inv, JobOk, Touching, Tids, Count, Fits;
    ThreadHas(s, t);
    Unfold(s.threads[t].pc);
    Unfold(NextSignal(s, t).threads[t].pc);
  }

  lemma OwnTrackSignal(s0: State, s: State, t: Tid, c: Cond, all: bool)
    requires Inv(s) && t in s.threads && !Nested(s.threads[t].pc) && !s.threads[t].pc.Out?
    requires !s.threads[t].pc.SignalTake? && !s.threads[t].pc.SignalCheck? && Tracks(s0, s, t, c, all)
    ensures Tracks(s0, NextSignal(s, t), t, c, all)
  {
    hide Inv, JobOk, Touching, Tids, Count, Fits, SameQueue;
    ThreadHas(s, t);
    Unfold(s.threads[t].pc);
    Unfold(NextSignal(s, t).threads[t].pc);
  }

  lemma OwnTrack(s0: State, s: State, t: Tid, a: Addr, c: Cond, all: bool)
    requires Inv(s) && Allowed(s, Run(t, a)) && Tracks(s0, s, t, c, all)
    ensures Tracks(s0, Next(s, t, a), t, c, all)
  {
    hide Inv, NextMutex, NextWait, NextSignal, NextDestroy, SameQueue, ThreadOk, Count, Tids;
    Unfold(s.threads[t].pc);
    if Nested(s.threads[t].pc) {
      OwnTrackMutex(s0, s, t, c, all);
    } else if s.threads[t].pc.SignalTake? {
      OwnTrackTake(s0, s, t, c, all);
    } else if s.threads[t].pc.SignalCheck? {
      OwnTrackCheck(s0, s, t, c, all);
    } else {
      OwnTrackSignal(s0, s, t, c, all);
    }
  }

  lemma OtherTrack(s0: State, s: State, x: Label, t: Tid, c: Cond, all: bool)
    requires Inv(s) && Allowed(s, x) && Tracks(s0, s, t, c, all) && (x.Run? ==> x.t != t) && !s.threads[t].pc.Out?
    ensures Tracks(s0, Apply(s, x), t, c, all)
  {
    hide Inv, NextMutex, NextWait, NextSignal, NextDestroy, ThreadOk, Count, Tids, Core;
    Unfold(s.threads[t].pc);
    OtherUnmoved(s, x, t);
    if s.threads[t].pc.SignalCheck? {
      FitsHas(s, t);
      QueueGuarded(s, x, c, t);
    }
  }

  lemma OtherUnmoved(s: State, x: Label, t: Tid)
    requires Allowed(s, x) && t in s.threads && (x.Run? ==> x.t != t) && !s.threads[t].pc.Out?
    ensures t in Apply(s, x).threads && Apply(s, x).threads[t] == s.threads[t]
  {
    hide Next;
    if x.Run? {
      OneMoves(s, x.t, x.a);
    }
  }

  // A step of t moves no other thread.
  lemma OneMoves(s: State, t: Tid, a: Addr)
    requires t in s.threads
    ensures Next(s, t, a).threads == s.threads[t := Next(s, t, a).threads[t]]
  {
    hide NextMutex, NextWait, NextSignal, NextDestroy;
    OneMovesMutex(s, t);
    OneMovesWait(s, t, a);
    OneMovesSignal(s, t);
    OneMovesDestroy(s, t);
  }

  lemma OneMovesMutex(s: State, t: Tid)
    requires t in s.threads
    ensures NextMutex(s, t).threads == s.threads[t := NextMutex(s, t).threads[t]]
  {
    hide Goto, Put;
  }

  lemma OneMovesWait(s: State, t: Tid, a: Addr)
    requires t in s.threads
    ensures NextWait(s, t, a).threads == s.threads[t := NextWait(s, t, a).threads[t]]
  {
    hide Goto, Put;
  }

  lemma OneMovesSignal(s: State, t: Tid)
    requires t in s.threads
    ensures NextSignal(s, t).threads == s.threads[t := NextSignal(s, t).threads[t]]
  {
    hide NextSignal;
    if SignalsData(s.threads[t].pc) {
      OneMovesData(s, t);
    } else {
      SignalMovesOn(s, t);
    }
  }

  lemma OneMovesData(s: State, t: Tid)
    requires t in s.threads && SignalsData(s.threads[t].pc)
    ensures NextSignal(s, t).threads == s.threads[t := NextSignal(s, t).threads[t]]
  {
    hide Goto, Put;
  }

  lemma OneMovesDestroy(s: State, t: Tid)
    requires t in s.threads
    ensures NextDestroy(s, t).threads == s.threads[t := NextDestroy(s, t).threads[t]]
  {
    hide Goto, Put;
  }

  lemma StartTrack(s: State, t: Tid, a: Addr, c: Cond, all: bool)
    requires Inv(s) && Allowed(s, Run(t, a)) && s.threads[t].pc == Spin(CondMutex(c), SignalCheck(c, all)) && CondMutex(c) !in s.locked
    ensures Tracks(s, Next(s, t, a), t, c, all)
  {
    hide Inv, JobOk, Tids, Count, HasJob;
    ThreadHas(s, t);
    Unfold(s.threads[t].pc);
    Unfold(Next(s, t, a).threads[t].pc);
    NotJob(Next(s, t, a).threads[t].pc);
  }

  lemma NotJob(k: Pc)
    ensures k.SignalCheck? ==> !HasJob(k)
  {
  }

  lemma {:induction false} TracksOn(tr: seq<State>, xs: seq<Label>, i: nat, k: nat, t: Tid, c: Cond, all: bool)
    requires IsRun(tr, xs) && i < k < |tr| && xs[i].Run? && xs[i].t == t && t in tr[i].threads
    requires tr[i].threads[t].pc == Spin(CondMutex(c), SignalCheck(c, all)) && CondMutex(c) !in tr[i].locked
    requires forall n :: i < n <= k ==> t in tr[n].threads && !tr[n].threads[t].pc.Out?
    ensures Tracks(tr[i], tr[k], t, c, all)
  {
    hide Inv, SameQueue, Fits, Touching, Initial, Tracks, Next, Allowed;
    RunInv(tr, xs, k - 1);
    assert Allowed(tr[k - 1], xs[k - 1]) && tr[k - 1 + 1] == Apply(tr[k - 1], xs[k - 1]);
    if k == i + 1 {
      StartTrack(tr[i], t, xs[i].a, c, all);
    } else {
      TracksOn(tr, xs, i, k - 1, t, c, all);
      if xs[k - 1].Run? && xs[k - 1].t == t {
        OwnTrack(tr[i], tr[k - 1], t, xs[k - 1].a, c, all);
      } else {
        OtherTrack(tr[i], tr[k - 1], xs[k - 1], t, c, all);
      }
    }
  }

  // A broadcast releases exactly the waiters that were queued when it locked the condition variable,
  // and a signal the oldest of them: when the thread that got the mutex at step i comes to the end of
  // its call, these and no others have been served since.
  lemma ServesThoseQueued(tr: seq<State>, xs: seq<Label>, i: nat, k: nat, t: Tid, c: Cond, all: bool)
    requires IsRun(tr, xs) && i < k < |tr| && xs[i].Run? && xs[i].t == t && t in tr[i].threads
    requires tr[i].threads[t].pc == Spin(CondMutex(c), SignalCheck(c, all)) && CondMutex(c) !in tr[i].locked
    requires forall n :: i < n <= k ==> t in tr[n].threads && !tr[n].threads[t].pc.Out?
    requires tr[k].threads[t].pc.SignalEnd?
    ensures c in tr[i].queue
    ensures Log(tr[k].served, c) == Log(tr[i].served, c) + Tids(tr[i].queue[c][..if all then |tr[i].queue[c]| else if |tr[i].queue[c]| > 0 then 1 else 0])
  {
    hide Inv, IsRun, Fits, Tids;
    TracksOn(tr, xs, i, k, t, c, all);
    RunInv(tr, xs, k);
    ThreadHas(tr[k], t);
    Unfold(tr[k].threads[t].pc);
    assert tr[k].queue[c][..0] == [];
    assert Tids([]) == [] by { NoTids(); }
  }

  lemma NoTids()
    ensures Tids([]) == []
  {
  }

  // ------------------------------------------------------------------ what the libraries above rely on

  // cond_wait has not yet queued the caller.
  predicate BeforeInsert(pc: Pc) { Core(pc).WaitCheck? || Core(pc).WaitRecord? || Core(pc).WaitNode? || Core(pc).WaitInsert? }

  // cond_signal has not yet dequeued anyone.
  predicate BeforeTake(pc: Pc) { Core(pc).SignalCheck? || Core(pc).SignalCount? || Core(pc).SignalTake? }

  lemma WaitGoesOn(s: State, t: Tid, a: Addr)
    requires t in s.threads && InWait(s.threads[t].pc)
    ensures t in NextWait(s, t, a).threads && !NextWait(s, t, a).threads[t].pc.Out?
  {
    hide Goto, Put;
  }

  lemma SignalGoesOn(s: State, t: Tid)
    requires t in s.threads && !s.threads[t].pc.Out?
    ensures t in NextSignal(s, t).threads && !NextSignal(s, t).threads[t].pc.Out?
  {
    hide Goto, Put, Tids, Count;
  }

  // The last step of an operation.
  lemma LastStep(s: State, t: Tid, a: Addr)
    requires Inv(s) && Allowed(s, Run(t, a)) && Next(s, t, a).threads[t].pc.Out?
    ensures var pc := s.threads[t].pc;
            (pc.Spin? && pc.next.Out? && pc.mutex !in s.locked) || (pc.Drop? && pc.next.Out?) || pc.DestroyMutex?
  {
    hide Inv, NextWait, NextSignal, Goto, Put;
    if InWait(s.threads[t].pc) {
      WaitGoesOn(s, t, a);
    } else if !InMutex(s.threads[t].pc) && !InDestroy(s.threads[t].pc) {
      SignalGoesOn(s, t);
    }
  }

  ghost predicate SameOwn(h: set<Mutex>, h': set<Mutex>) { forall m: Mutex :: m.Own? ==> (m in h' <==> m in h) }

  // What the caller holds when an operation has come to its end.
  lemma Returns(s: State, t: Tid, a: Addr)
    requires Inv(s) && Allowed(s, Run(t, a)) && Next(s, t, a).threads[t].pc.Out?
    ensures var l, h := s.threads[t], Next(s, t, a).threads[t].held;
            && !l.op.Idle? && !BeforeInsert(l.pc) && !BeforeTake(l.pc)
            && (l.op.Acquire? || l.op.Wait? ==> h == l.held + {l.op.mutex} && Above(l.op.mutex, l.held) && l.op.mutex.Own? && l.op.mutex !in s.locked)
            && (l.op.Release? ==> h == l.held - {l.op.mutex})
            && (l.op.Signal? || l.op.Destroy? || l.op.Heap? ==> SameOwn(l.held, h))
  {
    hide Inv, NextWait, NextSignal, Tids, Count;
    LastStep(s, t, a);
    FitsHas(s, t);
    IdleOut(s, t);
    Unfold(s.threads[t].pc);
    if s.threads[t].pc.DestroyMutex? {
      DestroyerLast(s, t);
    }
  }

  lemma IdleOut(s: State, t: Tid)
    requires Inv(s) && t in s.threads
    ensures s.threads[t].op.Idle? <==> s.threads[t].pc.Out?
  {
    ThreadHas(s, t);
  }

  lemma DestroyerLast(s: State, t: Tid)
    requires Inv(s) && t in s.threads && s.threads[t].pc.DestroyMutex?
    ensures NextDestroy(s, t).threads[t].held == s.threads[t].held
  {
  }

  // What a step in the middle of an operation changes, as far as the libraries above can see.
  ghost predicate Proceeds(s: State, t: Tid, l: Local, l': Local) {
    && l'.op == l.op
    && (forall m: Mutex :: m.Own? && m in l'.held ==> m in l.held)
    && (forall m: Mutex :: m.Own? && !((l.op.Acquire? || l.op.Release? || l.op.Wait?) && m == l.op.mutex) ==> (m in l'.held <==> m in l.held))
    && (BeforeInsert(l'.pc) <==> BeforeInsert(l.pc) && !l.pc.WaitInsert?)
    && (l.op.Signal? && !l.op.all ==>
          (BeforeTake(l'.pc) <==> BeforeTake(l.pc) && !l.pc.SignalTake?
                                  && !(l.pc.SignalCount? && l.op.cond in s.queue && s.queue[l.op.cond] == [])))
  }

  lemma ProceedsMutex(s: State, t: Tid)
    requires Inv(s) && t in s.threads && InMutex(s.threads[t].pc) && !NextMutex(s, t).threads[t].pc.Out?
    ensures Proceeds(s, t, s.threads[t], NextMutex(s, t).threads[t])
  {
    hide Inv, NextMutex, Proceeds, Fits;
    FitsHas(s, t);
    MutexKeepsCore(s, t);
    NotFailed(s.threads[t].op, s.threads[t].pc, s.threads[t].held);
    var pc := s.threads[t].pc;
    if pc.Lock? || pc.Spin? { ProceedsLock(s, t); }
    else if pc.HeapWork? { ProceedsHeap(s, t); }
    else { ProceedsUnlock(s, t); }
  }

  lemma ProceedsLock(s: State, t: Tid)
    requires t in s.threads && Fits(s.threads[t].op, s.threads[t].pc, s.threads[t].held)
    requires (s.threads[t].pc.Lock? || s.threads[t].pc.Spin?) && !NextMutex(s, t).threads[t].pc.Out? && !NextMutex(s, t).threads[t].pc.Failed?
    ensures Proceeds(s, t, s.threads[t], NextMutex(s, t).threads[t])
  {
    hide Put, Goto, Above;
    Unfold(s.threads[t].pc);
    Unfold(NextMutex(s, t).threads[t].pc);
  }

  lemma ProceedsUnlock(s: State, t: Tid)
    requires t in s.threads && Fits(s.threads[t].op, s.threads[t].pc, s.threads[t].held)
    requires (s.threads[t].pc.Unlock? || s.threads[t].pc.Drop?) && !NextMutex(s, t).threads[t].pc.Out? && !NextMutex(s, t).threads[t].pc.Failed?
    ensures Proceeds(s, t, s.threads[t], NextMutex(s, t).threads[t])
  {
    hide Put, Goto, Above;
    Unfold(s.threads[t].pc);
    Unfold(NextMutex(s, t).threads[t].pc);
  }

  lemma ProceedsHeap(s: State, t: Tid)
    requires t in s.threads && Fits(s.threads[t].op, s.threads[t].pc, s.threads[t].held) && s.threads[t].pc.HeapWork?
    ensures Proceeds(s, t, s.threads[t], NextMutex(s, t).threads[t])
  {
    hide Put, Goto, Above;
    Unfold(s.threads[t].pc);
    Unfold(NextMutex(s, t).threads[t].pc);
  }

  lemma ProceedsWait(s: State, t: Tid, a: Addr)
    requires Inv(s) && t in s.threads && InWait(s.threads[t].pc)
    ensures !NextWait(s, t, a).threads[t].pc.Failed? ==> Proceeds(s, t, s.threads[t], NextWait(s, t, a).threads[t])
  {
    hide Inv, NextWait, Proceeds, Fits;
    FitsHas(s, t);
    var pc := s.threads[t].pc;
    if pc.WaitCheck? || pc.WaitRecord? || pc.WaitNode? || pc.WaitInsert? { ProceedsQueueing(s, t, a); } else { ProceedsWaiting(s, t, a); }
  }

  lemma ProceedsQueueing(s: State, t: Tid, a: Addr)
    requires t in s.threads && Fits(s.threads[t].op, s.threads[t].pc, s.threads[t].held)
    requires s.threads[t].pc.WaitCheck? || s.threads[t].pc.WaitRecord? || s.threads[t].pc.WaitNode? || s.threads[t].pc.WaitInsert?
    ensures !NextWait(s, t, a).threads[t].pc.Failed? ==> Proceeds(s, t, s.threads[t], NextWait(s, t, a).threads[t])
  {
    hide Put, Goto, Above, Clients, InBoth;
    Unfold(s.threads[t].pc);
    Unfold(NextWait(s, t, a).threads[t].pc);
  }

  lemma ProceedsWaiting(s: State, t: Tid, a: Addr)
    requires t in s.threads && Fits(s.threads[t].op, s.threads[t].pc, s.threads[t].held)
    requires s.threads[t].pc.WaitTest? || s.threads[t].pc.WaitSleep? || s.threads[t].pc.WaitFree?
    ensures !NextWait(s, t, a).threads[t].pc.Failed? ==> Proceeds(s, t, s.threads[t], NextWait(s, t, a).threads[t])
  {
    hide Put, Goto, Above, Clients, InBoth;
    Unfold(s.threads[t].pc);
    Unfold(NextWait(s, t, a).threads[t].pc);
  }

  lemma ProceedsSignal(s: State, t: Tid)
    requires Inv(s) && t in s.threads && !InMutex(s.threads[t].pc) && !InWait(s.threads[t].pc) && !InDestroy(s.threads[t].pc)
    requires !s.threads[t].pc.Out?
    ensures !NextSignal(s, t).threads[t].pc.Failed? ==> Proceeds(s, t, s.threads[t], NextSignal(s, t).threads[t])
  {
    hide Inv, NextSignal, Proceeds, ThreadOk;
    ThreadHas(s, t);
    var pc := s.threads[t].pc;
    if pc.SignalCheck? || pc.SignalCount? { ProceedsCount(s, t); }
    else if pc.SignalTake? || pc.SignalWake? { ProceedsTake(s, t); }
    else { ProceedsMark(s, t); }
  }

  lemma ProceedsCount(s: State, t: Tid)
    requires t in s.threads && ThreadOk(s, t) && (s.threads[t].pc.SignalCheck? || s.threads[t].pc.SignalCount?)
    ensures !NextSignal(s, t).threads[t].pc.Failed? ==> Proceeds(s, t, s.threads[t], NextSignal(s, t).threads[t])
  {
    hide Put, Goto, Tids, JobOk, WaiterOk, CondOk;
    Unfold(s.threads[t].pc);
    Unfold(NextSignal(s, t).threads[t].pc);
  }

  lemma ProceedsTake(s: State, t: Tid)
    requires t in s.threads && ThreadOk(s, t) && (s.threads[t].pc.SignalTake? || s.threads[t].pc.SignalWake?)
    ensures !NextSignal(s, t).threads[t].pc.Failed? ==> Proceeds(s, t, s.threads[t], NextSignal(s, t).threads[t])
  {
    hide Put, Goto, Tids, JobOk, WaiterOk, CondOk;
    Unfold(s.threads[t].pc);
    Unfold(NextSignal(s, t).threads[t].pc);
  }

  lemma ProceedsMark(s: State, t: Tid)
    requires t in s.threads && ThreadOk(s, t)
    requires s.threads[t].pc.SignalNode? || s.threads[t].pc.SignalRead? || s.threads[t].pc.SignalSet? || s.threads[t].pc.SignalEnd? || s.threads[t].pc.Failed?
    ensures !NextSignal(s, t).threads[t].pc.Failed? ==> Proceeds(s, t, s.threads[t], NextSignal(s, t).threads[t])
  {
    hide Put, Goto, Tids, JobOk, WaiterOk, CondOk;
    Unfold(s.threads[t].pc);
    Unfold(NextSignal(s, t).threads[t].pc);
  }

  lemma ProceedsDestroy(s: State, t: Tid)
    requires Inv(s) && t in s.threads && InDestroy(s.threads[t].pc) && !NextDestroy(s, t).threads[t].pc.Out?
    ensures !NextDestroy(s, t).threads[t].pc.Failed? ==> Proceeds(s, t, s.threads[t], NextDestroy(s, t).threads[t])
  {
    hide Inv, Put, Goto, Above, Clients;
    FitsHas(s, t);
    Unfold(s.threads[t].pc);
    Unfold(NextDestroy(s, t).threads[t].pc);
  }

  lemma GoesOn(s: State, t: Tid, a: Addr)
    requires Inv(s) && Allowed(s, Run(t, a)) && !Next(s, t, a).threads[t].pc.Out?
    ensures Proceeds(s, t, s.threads[t], Next(s, t, a).threads[t])
  {
    hide Inv, NextMutex, NextWait, NextSignal, NextDestroy, Proceeds;
    RunKeeps(s, t, a);
    FitsHas(Next(s, t, a), t);
    var pc := s.threads[t].pc;
    if InMutex(pc) { ProceedsMutex(s, t); }
    else if InWait(pc) { ProceedsWait(s, t, a); }
    else if InDestroy(pc) { ProceedsDestroy(s, t); }
    else { ProceedsSignal(s, t); }
  }

  // What a step of t does to the queue of c.
  ghost predicate QueueStep(s: State, t: Tid, c: Cond, s': State)
    requires t in s.threads
  {
    var pc, op := s.threads[t].pc, s.threads[t].op;
    if pc.WaitInsert? && pc.cond == c then
      && op.Wait? && op.cond == c && op.mutex == pc.mutex && pc.mutex in s.threads[t].held && c in s.queue && c in s'.queue
      && s'.queue[c] == s.queue[c] + [Node(pc.rec, t)] && Log(s'.came, c) == Log(s.came, c) + [t] && Log(s'.served, c) == Log(s.served, c)
    else if pc.SignalTake? && pc.job.cond == c then
      && op.Signal? && op.cond == c && c in s.queue && s.queue[c] != [] && c in s'.queue
      && s'.queue[c] == s.queue[c][1..] && Log(s'.served, c) == Log(s.served, c) + [s.queue[c][0].tid] && Log(s'.came, c) == Log(s.came, c)
    else if pc.DestroyFlag? && pc.cond == c then
      && op == Destroy(c) && c in s.queue && s.queue[c] == [] && c !in s'.queue
      && Log(s'.came, c) == Log(s.came, c) && Log(s'.served, c) == Log(s.served, c)
    else SameQueue(s, s', c)
  }

  lemma QueueMoves(s: State, t: Tid, a: Addr, c: Cond)
    requires Inv(s) && Allowed(s, Run(t, a))
    ensures QueueStep(s, t, c, Next(s, t, a))
  {
    hide Inv, NextMutex, NextWait, NextSignal, NextDestroy, QueueStep, SameQueue;
    var pc := s.threads[t].pc;
    if pc.WaitInsert? && pc.cond == c {
      InsertMoves(s, t, a);
    } else if pc.SignalTake? && pc.job.cond == c {
      TakeMoves(s, t);
    } else if pc.DestroyFlag? && pc.cond == c {
      FlagMoves(s, t);
    } else {
      QueueSameMutex(s, t, c);
      QueueSameWait(s, t, a, c);
      QueueSameSignal(s, t, c);
      QueueSameDestroy(s, t, c);
      StepIs(s, t, c, Next(s, t, a));
    }
  }

  lemma StepIs(s: State, t: Tid, c: Cond, s': State)
    requires t in s.threads && !ChangesQueue(s.threads[t].pc, c) && SameQueue(s, s', c)
    ensures QueueStep(s, t, c, s')
  {
  }

  lemma InsertMoves(s: State, t: Tid, a: Addr)
    requires Inv(s) && t in s.threads && s.threads[t].pc.WaitInsert?
    ensures QueueStep(s, t, s.threads[t].pc.cond, NextWait(s, t, a))
  {
    hide Inv, Put, Goto, Above, Clients, JobOk;
    ThreadHas(s, t);
    Unfold(s.threads[t].pc);
  }

  lemma TakeMoves(s: State, t: Tid)
    requires Inv(s) && t in s.threads && s.threads[t].pc.SignalTake?
    ensures QueueStep(s, t, s.threads[t].pc.job.cond, NextSignal(s, t))
  {
    hide Inv, Put, Goto, Above, Clients, JobOk, QueueOk;
    ThreadHas(s, t);
    var pc := s.threads[t].pc;
    Unfold(pc);
    JobQueue(s, pc.job, pc.left);
    QueueHas(s, pc.job.cond);
    QueueHead(s, pc.job.cond);
  }

  lemma FlagMoves(s: State, t: Tid)
    requires Inv(s) && t in s.threads && s.threads[t].pc.DestroyFlag?
    ensures QueueStep(s, t, s.threads[t].pc.cond, NextDestroy(s, t))
  {
    hide Inv, Put, Goto, Above, Clients, JobOk;
    ThreadHas(s, t);
    Unfold(s.threads[t].pc);
  }

  // A client mutex that a step takes was free, and the step ends the operation.
  lemma TakesFree(s: State, t: Tid, a: Addr, m: Mutex)
    requires Inv(s) && Allowed(s, Run(t, a)) && m.Own?
    ensures var l, l' := s.threads[t], Next(s, t, a).threads[t];
            m !in l.held && m in l'.held ==> m !in s.locked && l'.op.Idle? && (l.op.Acquire? || l.op.Wait?) && l.op.mutex == m
  {
    hide Inv, NextWait, NextSignal, NextDestroy;
    if Next(s, t, a).threads[t].pc.Out? {
      LastStep(s, t, a);
      Returns(s, t, a);
      RunKeeps(s, t, a);
      IdleOut(Next(s, t, a), t);
    } else {
      GoesOn(s, t, a);
    }
  }

  // Only cond_destroy takes a condition variable's mutex out of use.
  lemma ReadyLost(s: State, t: Tid, a: Addr, c: Cond)
    requires Inv(s) && Allowed(s, Run(t, a)) && c in s.ready && c !in Next(s, t, a).ready
    ensures s.threads[t].op == Destroy(c)
  {
    hide Inv, NextMutex, NextWait, NextSignal, NextDestroy;
    ReadyMutex(s, t);
    ReadyWait(s, t, a);
    if SignalsData(s.threads[t].pc) { ReadyData(s, t); } else { SignalMovesOn(s, t); }
    ReadyDestroy(s, t, c);
  }

  lemma ReadyMutex(s: State, t: Tid)
    requires t in s.threads
    ensures NextMutex(s, t).ready == s.ready
  {
    hide Goto, Put;
  }

  lemma ReadyWait(s: State, t: Tid, a: Addr)
    requires t in s.threads
    ensures NextWait(s, t, a).ready == s.ready
  {
    hide Goto, Put;
  }

  lemma ReadyData(s: State, t: Tid)
    requires t in s.threads && SignalsData(s.threads[t].pc)
    ensures NextSignal(s, t).ready == s.ready
  {
    hide Goto, Put;
  }

  lemma ReadyDestroy(s: State, t: Tid, c: Cond)
    requires Inv(s) && t in s.threads
    ensures c in s.ready && c !in NextDestroy(s, t).ready ==> s.threads[t].op == Destroy(c)
  {
    hide Inv, Goto, Put;
    FitsHas(s, t);
  }

  // A thread that is about to queue itself still holds the mutex.
  lemma {:induction false} InsertHolds(op: Op, pc: Pc, h: set<Mutex>)
    requires Fits(op, pc, h) && BeforeInsert(pc)
    ensures op.Wait? && op.mutex.Own? && op.mutex in h
  {
    match pc
    case Lock(m, k) => InsertHolds(op, k, h + {m});
    case Spin(m, k) => InsertHolds(op, k, h + {m});
    case Unlock(m, k) => InsertHolds(op, k, h - {m});
    case Drop(m, k) => InsertHolds(op, k, h - {m});
    case _ =>
  }

  lemma PcNames(s: State, t: Tid)
    requires Inv(s) && t in s.threads
    ensures var l := s.threads[t];
            && (l.pc.WaitInsert? ==> l.op == Wait(l.pc.cond, l.pc.mutex) && BeforeInsert(l.pc))
            && (l.pc.SignalTake? || l.pc.SignalCount? ==> l.op == Signal(l.pc.job.cond, l.pc.job.all) && BeforeTake(l.pc))
            && (l.pc.DestroyFlag? ==> l.op == Destroy(l.pc.cond))
            && (BeforeInsert(l.pc) ==> l.op.Wait? && l.op.mutex in l.held)
  {
    FitsHas(s, t);
    Unfold(s.threads[t].pc);
    if BeforeInsert(s.threads[t].pc) {
      InsertHolds(s.threads[t].op, s.threads[t].pc, s.threads[t].held);
    }
  }

  // Nobody has dequeued the waiter t so far.
  ghost predicate Undisturbed(s: State, t: Tid) {
    && t in s.threads && s.threads[t].op.Wait?
    && (BeforeInsert(s.threads[t].pc)
        || (HasRecord(Core(s.threads[t].pc)) && Core(s.threads[t].pc).rec in s.recs && s.recs[Core(s.threads[t].pc).rec].place.Queued?))
  }

  ghost predicate TakesFrom(s: State, x: Label, c: Cond) {
    x.Run? && x.t in s.threads && s.threads[x.t].pc.SignalTake? && s.threads[x.t].op.Signal? && s.threads[x.t].op.cond == c
  }

  // A waiter stays undisturbed, and so stays in cond_wait, until a signal takes from its queue.
  lemma StaysUndisturbed(s: State, x: Label, t: Tid)
    requires Inv(s) && Allowed(s, x) && Undisturbed(s, t) && !TakesFrom(s, x, s.threads[t].op.cond)
    ensures Undisturbed(Apply(s, x), t) && Apply(s, x).threads[t].op == s.threads[t].op
  {
    hide Inv, Next, Allowed, Undisturbed, TakesFrom;
    if x.Run? && x.t == t {
      OwnUndisturbed(s, t, x.a);
    } else {
      OtherUndisturbed(s, x, t);
    }
  }

  lemma OtherUndisturbed(s: State, x: Label, t: Tid)
    requires Inv(s) && Allowed(s, x) && Undisturbed(s, t) && !TakesFrom(s, x, s.threads[t].op.cond) && (x.Run? ==> x.t != t)
    ensures Undisturbed(Apply(s, x), t) && Apply(s, x).threads[t].op == s.threads[t].op
  {
    hide Inv, Apply, Allowed, BeforeInsert, JobOk, Core, Moves;
    IdleOut(s, t);
    OtherUnmoved(s, x, t);
    StepKeeps(s, x);
    if !BeforeInsert(s.threads[t].pc) {
      var r := Core(s.threads[t].pc).rec;
      ThreadHas(Apply(s, x), t);
      ThreadHas(s, t);
      RecStep(s, x, r);
      TakerIs(s, x, r, Apply(s, x).recs[r]);
    }
  }

  lemma TakerIs(s: State, x: Label, r: Addr, y: Rec)
    requires Inv(s) && Moves(s, x, r, y) && r in s.recs && s.recs[r].place.Queued?
    ensures y.place.Queued? || TakesFrom(s, x, s.recs[r].cond)
  {
    hide Inv;
    if !y.place.Queued? {
      var j := s.threads[x.t].pc.job;
      PcNames(s, x.t);
      QueueHas(s, j.cond);
      QueueHead(s, j.cond);
    }
  }

  lemma OwnUndisturbed(s: State, t: Tid, a: Addr)
    requires Inv(s) && Allowed(s, Run(t, a)) && Undisturbed(s, t)
    ensures Undisturbed(Next(s, t, a), t) && Next(s, t, a).threads[t].op == s.threads[t].op
  {
    hide Inv, Next, JobOk, Fits;
    var pc := s.threads[t].pc;
    PcNames(s, t);
    RunKeeps(s, t, a);
    if Next(s, t, a).threads[t].pc.Out? {
      LastStep(s, t, a);
      Unfold(pc);
      ThreadHas(s, t);
      assert false;
    } else {
      GoesOn(s, t, a);
      if !BeforeInsert(pc) || pc.WaitInsert? {
        OwnRecord(s, t, a);
      }
    }
  }

  ghost predicate RecordQueued(s: State, t: Tid)
    requires t in s.threads
  {
    HasRecord(Core(s.threads[t].pc)) && Core(s.threads[t].pc).rec in s.recs && s.recs[Core(s.threads[t].pc).rec].place.Queued?
  }

  lemma OwnRecord(s: State, t: Tid, a: Addr)
    requires Inv(s) && Allowed(s, Run(t, a)) && Undisturbed(s, t) && !Next(s, t, a).threads[t].pc.Out?
    requires !BeforeInsert(s.threads[t].pc) || s.threads[t].pc.WaitInsert?
    ensures RecordQueued(Next(s, t, a), t)
  {
    hide Inv, NextMutex, NextWait, NextSignal, NextDestroy, RecordQueued;
    var pc := s.threads[t].pc;
    Unfold(pc);
    if InMutex(pc) {
      MutexKeepsCore(s, t);
      RecsSameMutex(s, t);
      QueuedSame(s, t, NextMutex(s, t));
    } else if pc.WaitInsert? {
      InsertQueued(s, t, a);
    } else {
      LoopQueued(s, t, a);
    }
  }

  lemma QueuedSame(s: State, t: Tid, s': State)
    requires Undisturbed(s, t) && !BeforeInsert(s.threads[t].pc) && t in s'.threads && s'.recs == s.recs
    requires Core(s'.threads[t].pc) == Core(s.threads[t].pc)
    ensures RecordQueued(s', t)
  {
    hide Core;
  }

  lemma InsertQueued(s: State, t: Tid, a: Addr)
    requires Inv(s) && t in s.threads && s.threads[t].pc.WaitInsert?
    ensures RecordQueued(NextWait(s, t, a), t)
  {
    hide Inv, Goto, Put, JobOk, Fits, InCond, InBoth;
    PcNames(s, t);
    ThreadHas(s, t);
    Unfold(s.threads[t].pc);
    InsertMoves(s, t, a);
    Unfold(NextWait(s, t, a).threads[t].pc);
  }

  lemma LoopQueued(s: State, t: Tid, a: Addr)
    requires Inv(s) && t in s.threads && Undisturbed(s, t) && !Nested(s.threads[t].pc) && !BeforeInsert(s.threads[t].pc)
    ensures !s.threads[t].pc.Out? && InWait(s.threads[t].pc) && RecordQueued(NextWait(s, t, a), t)
  {
    hide Inv, Goto, Put, JobOk, Fits, BeforeInsert;
    ThreadHas(s, t);
    Unfold(s.threads[t].pc);
    FlagMeaning(s, s.threads[t].pc.rec);
    NotBefore(s.threads[t].pc);
    Unfold(NextWait(s, t, a).threads[t].pc);
  }

  lemma NotBefore(pc: Pc)
    requires !BeforeInsert(pc) && !Nested(pc) && HasRecord(Core(pc))
    ensures pc.WaitTest? || pc.WaitSleep? || pc.WaitFree?
  {
    Unfold(pc);
  }

  // A condition variable that nobody is in cond_wait for has no one queued.
  lemma NoneQueued(s: State, c: Cond)
    requires Inv(s) && c in s.queue && forall t :: t in s.threads ==> !(s.threads[t].op.Wait? && s.threads[t].op.cond == c)
    ensures s.queue[c] == []
  {
    hide Inv, JobOk;
    if s.queue[c] != [] {
      QueueHas(s, c);
      QueueHead(s, c);
      var r := s.queue[c][0].rec;
      RecHas(s, r);
      WaiterHas(s, s.recs[r].tid);
    }
  }

  lemma WaiterHas(s: State, t: Tid)
    requires Inv(s) && t in s.threads && HasRecord(Core(s.threads[t].pc))
    ensures s.threads[t].op.Wait? && Core(s.threads[t].pc).rec in s.recs && s.recs[Core(s.threads[t].pc).rec].cond == s.threads[t].op.cond
  {
    ThreadHas(s, t);
    assert WaiterOk(s, t, s.threads[t]);
    RecordWaits(s.threads[t].op, s.threads[t].pc, s.threads[t].held);
  }

  lemma {:induction false} RecordWaits(op: Op, pc: Pc, h: set<Mutex>)
    requires Fits(op, pc, h) && HasRecord(Core(pc))
    ensures op.Wait?
  {
    match pc
    case Lock(m, k) => RecordWaits(op, k, h + {m});
    case Spin(m, k) => RecordWaits(op, k, h + {m});
    case Unlock(m, k) => RecordWaits(op, k, h - {m});
    case Drop(m, k) => RecordWaits(op, k, h - {m});
    case _ =>
  }

  lemma RunLonger(tr: seq<State>, xs: seq<Label>, x: Label)
    requires IsRun(tr, xs) && Allowed(tr[|tr| - 1], x)
    ensures IsRun(tr + [Apply(tr[|tr| - 1], x)], xs + [x])
  {
    hide Allowed, Apply, Initial;
    var tr', xs' := tr + [Apply(tr[|tr| - 1], x)], xs + [x];
    forall i | 0 <= i < |xs'| ensures Allowed(tr'[i], xs'[i]) && tr'[i + 1] == Apply(tr'[i], xs'[i]) {
      if i < |xs| {
        assert Allowed(tr[i], xs[i]) && tr[i + 1] == Apply(tr[i], xs[i]);
      }
    }
  }
}
