// user/libthread/thread.c on top of the machine of mutexes and condition variables: thr_create,
// thr_join and thr_exit. A thread_t is known by its address, and so is the condition variable in it.

module Threads {
  import opened Sync

  // thread_list_mutex
  const LIST_ID: int := 0
  const LIST_MUTEX: Mutex := Own(LIST_ID)

  // thread_t without its stack and condition variable
  datatype ThreadRec = ThreadRec(exited: bool, joined: bool, status: int)

  // Auxiliary: a thread exists but is not in the list yet; is in the list; has been joined.
  datatype Stage = Pending(creator: Tid) | Listed | Ended

  // Where a thread stands in the thread library: what it does when the call of the lower library that
  // it is in, if any, has returned.
  datatype ThrPc =
    | Away
    | Gone                                    // vanished
    | Broken                                  // an assert failed, or freed memory was touched
    | Leave(result: int)                      // unlocks, then returns
    | CreateEnter(isNull: bool)
    | CreatePages
    | CreateAlloc
    | CreateFork(data: Addr)
    | CreateUndo(data: Addr)
    | CreateFail
    | CreateFields(data: Addr, tid: Tid)
    | CreateInsert(data: Addr, tid: Tid)
    | JoinEnter(tid: Tid)
    | JoinTest(tid: Tid, data: Addr)
    | JoinSleep(tid: Tid, data: Addr)
    | JoinCollect(tid: Tid, data: Addr)
    | JoinRemove(tid: Tid, data: Addr)
    | JoinFree
    | JoinDone
    | ExitEnter(status: int)
    | ExitUnlock(data: Addr)
    | ExitVanish

  // recs: the allocated thread_t. list: the nodes of list_of_threads, by thread id. Auxiliary: stages,
  // the status each thread passed to thr_exit, the caller of thr_join for each thread, the status delivered.
  datatype ThrState = ThrState(low: State, recs: map<Addr, ThreadRec>, list: map<Tid, Addr>, pc: map<Tid, ThrPc>,
                               stage: map<Tid, Stage>, passed: map<Tid, int>, joiner: map<Tid, Tid>, delivered: map<Tid, int>)

  // What the kernel and the allocator answer: whether the call succeeds, an address, a new thread's id.
  datatype Answer = Answer(ok: bool, addr: Addr, tid: Tid)

  // A thread goes on inside the lower library; other client code makes a step; a thread calls a
  // function of this library; a thread goes on in one.
  datatype Step = Inner(t: Tid, a: Addr) | Other(x: Label) | Create(t: Tid, isNull: bool) | Join(t: Tid, u: Tid)
                | Exit(t: Tid, status: int) | Go(t: Tid, ans: Answer)

  function PcOf(z: ThrState, t: Tid): ThrPc { if t in z.pc then z.pc[t] else Away }

  predicate OnCond(op: Op) { op.Wait? || op.Signal? || op.Destroy? }

  // The call concerns the list's mutex, or a condition variable inside a thread_t.
  predicate Uses(op: Op, addrs: set<Addr>) {
    || ((op.Acquire? || op.Release? || op.Wait?) && op.mutex == LIST_MUTEX)
    || (OnCond(op) && op.cond in addrs)
  }

  // Memory that malloc may hand out.
  ghost predicate Unused(z: ThrState, a: Addr) {
    && a !in z.recs && a !in z.low.queue && a !in z.low.ready
    && forall t :: t in z.low.threads && OnCond(z.low.threads[t].op) ==> z.low.threads[t].op.cond != a
  }

  // Moves on to p, calling op in the lower library unless op is Idle.
  function Goes(z: ThrState, t: Tid, op: Op, p: ThrPc): (z': ThrState)
    requires t in z.low.threads
    ensures z'.low == if op.Idle? then z.low else Called(z.low, t, op)
    ensures z'.pc == z.pc[t := p] && z' == z.(low := z'.low, pc := z'.pc)
  {
    z.(low := if op.Idle? then z.low else Called(z.low, t, op), pc := z.pc[t := p])
  }

  function Fails(z: ThrState, t: Tid, result: int): ThrState
    requires t in z.low.threads
  {
    Goes(z, t, Release(LIST_MUTEX), Leave(result))
  }

  // thr_create, with the forked thread running client code.
  function GoCreate(z: ThrState, t: Tid, ans: Answer): ThrState
    requires t in z.low.threads
  {
    match PcOf(z, t)
    case CreateEnter(isNull) => if isNull then Fails(z, t, -1) else Goes(z, t, Idle, CreatePages)
    case CreatePages => if ans.ok then Goes(z, t, Heap, CreateAlloc) else Fails(z, t, -1)
    case CreateAlloc =>
      if !ans.ok then Fails(z, t, -1)
      else
        var a := ans.addr;
        z.(low := z.low.(queue := z.low.queue[a := []], ready := z.low.ready + {a}, came := z.low.came[a := []], served := z.low.served[a := []]),
           recs := z.recs[a := ThreadRec(false, false, 0)], pc := z.pc[t := CreateFork(a)])
    case CreateFork(a) =>
      if !ans.ok then Goes(z, t, Destroy(a), CreateUndo(a))
      else z.(low := z.low.(threads := z.low.threads[ans.tid := Local(Idle, Out, {})]),
              stage := z.stage[ans.tid := Pending(t)], pc := z.pc[t := CreateFields(a, ans.tid)])
    case CreateUndo(a) => Goes(z.(recs := z.recs - {a}), t, Heap, CreateFail)
    case CreateFail => Fails(z, t, -1)
    case CreateFields(a, u) =>
      if a !in z.recs then Goes(z, t, Idle, Broken)
      else Goes(z.(recs := z.recs[a := ThreadRec(false, false, 0)]), t, Heap, CreateInsert(a, u))
    case CreateInsert(a, u) => Goes(z.(list := z.list[u := a], stage := z.stage[u := Listed]), t, Release(LIST_MUTEX), Leave(u))
    case _ => z
  }

  // thr_join
  function GoJoin(z: ThrState, t: Tid, ans: Answer): ThrState
    requires t in z.low.threads
  {
    match PcOf(z, t)
    case JoinEnter(u) => Goes(z, t, Idle, if u in z.list then JoinTest(u, z.list[u]) else Broken)
    case JoinTest(u, a) =>
      if a !in z.recs then Goes(z, t, Idle, Broken) else if z.recs[a].joined then Fails(z, t, -1) else Goes(z, t, Idle, JoinSleep(u, a))
    case JoinSleep(u, a) =>
      if a !in z.recs then Goes(z, t, Idle, Broken)
      else if z.recs[a].exited then Goes(z, t, Idle, JoinCollect(u, a))
      else Goes(z.(recs := z.recs[a := z.recs[a].(joined := true)]), t, Wait(a, LIST_MUTEX), JoinCollect(u, a))
    case JoinCollect(u, a) =>
      if a !in z.recs then Goes(z, t, Idle, Broken)
      else Goes(z.(recs := z.recs[a := z.recs[a].(joined := false, exited := true)], delivered := z.delivered[u := z.recs[a].status],
                   stage := z.stage[u := Ended]), t, Destroy(a), JoinRemove(u, a))
    case JoinRemove(u, a) =>
      if !ans.ok then Fails(z, t, -1)
      else if a !in z.recs || u !in z.list then Goes(z, t, Idle, Broken)
      else Goes(z.(list := z.list - {u}, recs := z.recs - {a}), t, Heap, JoinFree)
    case JoinFree => Goes(z, t, Heap, JoinDone)
    case JoinDone => Fails(z, t, 0)
    case _ => z
  }

  // thr_exit, and the way out of the other two
  function GoExit(z: ThrState, t: Tid): ThrState
    requires t in z.low.threads
  {
    match PcOf(z, t)
    case ExitEnter(status) =>
      if t !in z.list || z.list[t] !in z.recs then Goes(z, t, Idle, Broken)
      else Goes(z.(recs := z.recs[z.list[t] := ThreadRec(true, false, status)], passed := z.passed[t := status]), t,
                Signal(z.list[t], false), ExitUnlock(z.list[t]))
    case ExitUnlock(_) => Goes(z, t, Release(LIST_MUTEX), ExitVanish)
    case ExitVanish => Goes(z, t, Idle, Gone)
    case Leave(_) => Goes(z, t, Idle, Away)
    case _ => z
  }

  predicate Creating(p: ThrPc) {
    p.CreateEnter? || p.CreatePages? || p.CreateAlloc? || p.CreateFork? || p.CreateUndo? || p.CreateFail? || p.CreateFields? || p.CreateInsert?
  }

  predicate Joining(p: ThrPc) {
    p.JoinEnter? || p.JoinTest? || p.JoinSleep? || p.JoinCollect? || p.JoinRemove? || p.JoinFree? || p.JoinDone?
  }

  function GoOn(z: ThrState, t: Tid, ans: Answer): ThrState
    requires t in z.low.threads
  {
    if Creating(PcOf(z, t)) then GoCreate(z, t, ans) else if Joining(PcOf(z, t)) then GoJoin(z, t, ans) else GoExit(z, t)
  }

  // Clients keep off the list's mutex and the condition variables of threads, and call thr_join at
  // most once for each thread.
  ghost predicate CanStep(z: ThrState, st: Step) {
    match st
    case Inner(t, a) => Allowed(z.low, Run(t, a))
    case Other(x) =>
      && Allowed(z.low, x)
      && (match x
          case Call(t, op) => PcOf(z, t).Away? && !Uses(op, z.recs.Keys)
          case Init(c) => c !in z.recs
          case _ => false)
    case Create(t, _) => PcOf(z, t).Away? && MayCall(z.low, t, Acquire(LIST_MUTEX))
    case Join(t, u) => PcOf(z, t).Away? && MayCall(z.low, t, Acquire(LIST_MUTEX)) && u in z.low.threads && u !in z.joiner
    case Exit(t, _) => PcOf(z, t).Away? && MayCall(z.low, t, Acquire(LIST_MUTEX))
    case Go(t, ans) =>
      && t in z.low.threads && z.low.threads[t].pc.Out? && !PcOf(z, t).Away? && !PcOf(z, t).Gone? && !PcOf(z, t).Broken?
      && (PcOf(z, t).CreateAlloc? ==> Unused(z, ans.addr)) && (PcOf(z, t).CreateFork? ==> ans.tid !in z.low.threads)
  }

  ghost function After(z: ThrState, st: Step): ThrState
    requires CanStep(z, st)
  {
    match st
    case Inner(t, a) => z.(low := Apply(z.low, Run(t, a)))
    case Other(x) => z.(low := Apply(z.low, x))
    case Create(t, isNull) => Goes(z, t, Acquire(LIST_MUTEX), CreateEnter(isNull))
    case Join(t, u) => Goes(z.(joiner := z.joiner[u := t]), t, Acquire(LIST_MUTEX), JoinEnter(u))
    case Exit(t, status) => Goes(z, t, Acquire(LIST_MUTEX), ExitEnter(status))
    case Go(t, ans) => GoOn(z, t, ans)
  }

  // ------------------------------------------------------------------ the invariant

  // The list's mutex is held, and was the last client mutex taken.
  ghost predicate Holding(h: set<Mutex>) {
    LIST_MUTEX in h && forall x :: x in h && x.Own? && x != LIST_MUTEX ==> Below(x, LIST_MUTEX)
  }

  // Between lock and unlock of the list's mutex, apart from the start and the wait.
  predicate Inside(p: ThrPc) {
    p.CreatePages? || p.CreateAlloc? || p.CreateFork? || p.CreateUndo? || p.CreateFail? || p.CreateFields? || p.CreateInsert?
    || p.JoinTest? || p.JoinSleep? || p.JoinRemove? || p.JoinFree? || p.JoinDone? || p.ExitUnlock?
  }

  // The lower library's operation that a thread at p may be in.
  predicate InOp(p: ThrPc, op: Op) {
    match p
    case CreateEnter(_) => op == Acquire(LIST_MUTEX)
    case JoinEnter(_) => op == Acquire(LIST_MUTEX)
    case ExitEnter(_) => op == Acquire(LIST_MUTEX)
    case CreateAlloc => op.Heap?
    case CreateFail => op.Heap?
    case CreateInsert(_, _) => op.Heap?
    case JoinFree => op.Heap?
    case JoinDone => op.Heap?
    case CreateUndo(a) => op == Destroy(a)
    case JoinCollect(_, a) => op == Wait(a, LIST_MUTEX)
    case JoinRemove(_, a) => op == Destroy(a)
    case ExitUnlock(a) => op == Signal(a, false)
    case ExitVanish => op == Release(LIST_MUTEX)
    case Leave(_) => op == Release(LIST_MUTEX)
    case _ => false
  }

  ghost predicate ThreadFits(p: ThrPc, l: Local, addrs: set<Addr>) {
    && !p.Broken?
    && (if p.Away? then !Uses(l.op, addrs) else InOp(p, l.op) || l.op.Idle?)
    && (Inside(p) || (l.op.Idle? && (p.CreateEnter? || p.JoinEnter? || p.ExitEnter? || p.JoinCollect?)) ==> Holding(l.held))
    && (p.Away? || p.Gone? || (l.op.Idle? && (p.Leave? || p.ExitVanish?)) ==> LIST_MUTEX !in l.held)
  }

  ghost predicate Alive(z: ThrState, a: Addr) { a in z.recs && a in z.low.queue && a in z.low.ready }

  // A thread_t that its creator has not put into the list.
  ghost predicate Private(z: ThrState, a: Addr) { a in z.recs && forall u :: u in z.list ==> z.list[u] != a }

  // What the thread at p knows about the data.
  ghost predicate DataFits(z: ThrState, t: Tid, p: ThrPc) {
    (t in z.passed <==> p.ExitUnlock? || p.ExitVanish? || p.Gone?)
    && match p
    case CreateFork(a) => Private(z, a) && Alive(z, a)
    case CreateUndo(a) => Private(z, a)
    case CreateFields(a, u) => Private(z, a) && Alive(z, a) && u in z.stage && z.stage[u] == Pending(t)
    case CreateInsert(a, u) => Private(z, a) && Alive(z, a) && z.recs[a] == ThreadRec(false, false, 0) && u in z.stage && z.stage[u] == Pending(t)
    case JoinEnter(u) => u in z.joiner && z.joiner[u] == t && u in z.stage && !z.stage[u].Ended?
    case JoinTest(u, a) => JoinerFits(z, t, u, a)
    case JoinSleep(u, a) => JoinerFits(z, t, u, a) && !z.recs[a].joined
    case JoinCollect(u, a) =>
      && JoinerFits(z, t, u, a) && t in z.low.threads
      && (!z.recs[a].exited ==> Undisturbed(z.low, t) && z.recs[a].joined)
    case JoinRemove(u, a) => u in z.joiner && z.joiner[u] == t && u in z.list && z.list[u] == a && a in z.recs && u in z.stage && z.stage[u].Ended?
    case ExitUnlock(a) => t in z.list && z.list[t] == a
    case _ => true
  }

  ghost predicate JoinerFits(z: ThrState, t: Tid, u: Tid, a: Addr) {
    u in z.joiner && z.joiner[u] == t && u in z.list && z.list[u] == a && u in z.stage && z.stage[u].Listed? && a in z.recs
  }

  // What is known about a thread as something to be joined.
  ghost predicate StageFits(z: ThrState, u: Tid)
    requires u in z.stage
  {
    match z.stage[u]
    case Pending(c) =>
      && u !in z.list && u !in z.passed && u !in z.delivered
      && c in z.pc && (z.pc[c].CreateFields? || z.pc[c].CreateInsert?) && z.pc[c].tid == u
    case Listed =>
      && u in z.list && Alive(z, z.list[u]) && u !in z.delivered
      && (z.recs[z.list[u]].exited <==> u in z.passed) && !(z.recs[z.list[u]].exited && z.recs[z.list[u]].joined)
      && (u in z.passed ==> z.recs[z.list[u]].status == z.passed[u])
      && (z.recs[z.list[u]].joined ==> u in z.joiner && z.joiner[u] in z.pc && z.pc[z.joiner[u]] == JoinCollect(u, z.list[u]))
    case Ended =>
      && u in z.passed && u in z.delivered && z.delivered[u] == z.passed[u] && u in z.joiner
      && (u in z.list ==> z.list[u] in z.recs)
  }

  ghost predicate ThrInv(z: ThrState) {
    && Inv(z.low)
    && z.stage.Keys == z.low.threads.Keys && z.pc.Keys <= z.low.threads.Keys && z.list.Keys <= z.stage.Keys && z.passed.Keys <= z.stage.Keys
    && z.delivered.Keys <= z.stage.Keys && z.joiner.Keys <= z.stage.Keys
    && (forall t :: t in z.low.threads ==> ThreadFits(PcOf(z, t), z.low.threads[t], z.recs.Keys))
    && (forall t :: t in z.low.threads ==> DataFits(z, t, PcOf(z, t)))
    && (forall u :: u in z.stage ==> StageFits(z, u))
    && (forall u, v :: u in z.list && v in z.list && u != v ==> z.list[u] != z.list[v])
  }

  // ------------------------------------------------------------------ the steps and the lower machine

  lemma OwnFits(z: ThrState, t: Tid)
    requires ThrInv(z) && t in z.low.threads
    ensures ThreadFits(PcOf(z, t), z.low.threads[t], z.recs.Keys) && DataFits(z, t, PcOf(z, t)) && t in z.stage && StageFits(z, t)
  {
  }

  // Only one thread is between lock and unlock.
  lemma OneHolds(z: ThrState, t: Tid, x: Tid)
    requires ThrInv(z) && t in z.low.threads && x in z.low.threads && Holding(z.low.threads[t].held) && Holding(z.low.threads[x].held)
    ensures x == t
  {
    hide Inv;
    LocksWithin(z.low);
  }

  // A thread whose operation concerns the condition variable in a thread_t is there for the thread library.
  lemma OnThreadCond(z: ThrState, x: Tid, a: Addr)
    requires ThrInv(z) && x in z.low.threads && a in z.recs && OnCond(z.low.threads[x].op) && z.low.threads[x].op.cond == a
    ensures var p := PcOf(z, x);
            || p == CreateUndo(a) || p == ExitUnlock(a) || (p.JoinRemove? && p.data == a)
            || (p.JoinCollect? && p.data == a && z.low.threads[x].op == Wait(a, LIST_MUTEX))
  {
    hide Inv, DataFits, StageFits;
    OwnFits(z, x);
  }

  // Nobody is in an operation on the condition variable of a thread_t that its creator, holding the
  // list's mutex, has not published.
  lemma PrivateCond(z: ThrState, t: Tid, a: Addr)
    requires ThrInv(z) && t in z.low.threads && Private(z, a) && Holding(z.low.threads[t].held) && z.low.threads[t].op.Idle?
    ensures forall x :: x in z.low.threads && OnCond(z.low.threads[x].op) ==> z.low.threads[x].op.cond != a
  {
    hide Inv, StageFits, Holding;
    forall x | x in z.low.threads && OnCond(z.low.threads[x].op) ensures z.low.threads[x].op.cond != a {
      if z.low.threads[x].op.cond == a {
        OnThreadCond(z, x, a);
        OwnFits(z, x);
        OneHolds(z, t, x);
      }
    }
  }

  // The operation that a thread at p calls next, or Idle.
  function NextCall(z: ThrState, t: Tid, ans: Answer): Op {
    match PcOf(z, t)
    case CreateEnter(isNull) => if isNull then Release(LIST_MUTEX) else Idle
    case CreatePages => if ans.ok then Heap else Release(LIST_MUTEX)
    case CreateAlloc => if ans.ok then Idle else Release(LIST_MUTEX)
    case CreateFork(a) => if ans.ok then Idle else Destroy(a)
    case CreateUndo(_) => Heap
    case CreateFail => Release(LIST_MUTEX)
    case CreateFields(_, _) => Heap
    case CreateInsert(_, _) => Release(LIST_MUTEX)
    case JoinSleep(_, a) => if a in z.recs && z.recs[a].exited then Idle else Wait(a, LIST_MUTEX)
    case JoinCollect(_, a) => Destroy(a)
    case JoinRemove(_, _) => if ans.ok then Heap else Release(LIST_MUTEX)
    case JoinFree => Heap
    case JoinDone => Release(LIST_MUTEX)
    case ExitEnter(_) => if t in z.list then Signal(z.list[t], false) else Idle
    case ExitUnlock(_) => Release(LIST_MUTEX)
    case _ => Idle
  }

  // Every call the library makes meets what the lower library demands.
  lemma CallsAllowed(z: ThrState, t: Tid, ans: Answer)
    requires ThrInv(z) && CanStep(z, Go(t, ans))
    ensures NextCall(z, t, ans).Idle? || MayCall(z.low, t, NextCall(z, t, ans))
  {
    hide Inv, StageFits, Private, Alive, DataFits;
    OwnFits(z, t);
    IdleOut(z.low, t);
    FitsHas(z.low, t);
    var p := PcOf(z, t);
    if p.CreateFork? { MayDestroyNew(z, t, p.data); }
    else if p.JoinSleep? { MayWait(z, t); }
    else if p.JoinCollect? { MayDestroyOld(z, t); }
    else if p.ExitEnter? { MaySignal(z, t); }
  }

  lemma MayDestroyNew(z: ThrState, t: Tid, a: Addr)
    requires ThrInv(z) && t in z.low.threads && PcOf(z, t) == CreateFork(a) && z.low.threads[t].pc.Out?
    ensures MayCall(z.low, t, Destroy(a))
  {
    hide Inv, StageFits, Private, Holding, Touching;
    OwnFits(z, t);
    IdleOut(z.low, t);
    PrivateCond(z, t, a);
    NoneQueued(z.low, a);
    OnlyOnCond(z.low, a);
  }

  lemma OnlyOnCond(s: State, a: Cond)
    requires Inv(s) && a in s.ready
    requires forall x :: x in s.threads && OnCond(s.threads[x].op) ==> s.threads[x].op.cond != a
    ensures forall x :: x in s.threads ==> !(Touching(s.threads[x].pc) && CondOf(s.threads[x].op) == a)
  {
    hide Inv;
    forall x | x in s.threads ensures !(Touching(s.threads[x].pc) && CondOf(s.threads[x].op) == a) {
      FitsHas(s, x);
      if Touching(s.threads[x].pc) {
        TouchingOp(s.threads[x].op, s.threads[x].pc, s.threads[x].held);
      }
    }
  }

  lemma {:induction false} TouchingOp(op: Op, pc: Pc, h: set<Mutex>)
    requires Fits(op, pc, h) && Touching(pc)
    ensures OnCond(op)
  {
    match pc
    case Lock(m, k) => if !m.CondMutex? { TouchingOp(op, k, h + {m}); }
    case Spin(m, k) => if !m.CondMutex? { TouchingOp(op, k, h + {m}); }
    case Unlock(m, k) => if !m.CondMutex? { TouchingOp(op, k, h - {m}); }
    case Drop(m, k) => if !m.CondMutex? { TouchingOp(op, k, h - {m}); }
    case _ =>
  }

  // Nobody destroys the condition variable of a thread that is still listed.
  lemma ListedUsable(z: ThrState, u: Tid)
    requires ThrInv(z) && u in z.stage && z.stage[u].Listed?
    ensures u in z.list && Usable(z.low, z.list[u]) && Alive(z, z.list[u])
  {
    hide Inv;
    assert StageFits(z, u);
    forall x | x in z.low.threads ensures z.low.threads[x].op != Destroy(z.list[u]) {
      if z.low.threads[x].op == Destroy(z.list[u]) {
        OnThreadCond(z, x, z.list[u]);
        OwnFits(z, x);
      }
    }
  }

  lemma MayWait(z: ThrState, t: Tid)
    requires ThrInv(z) && t in z.low.threads && PcOf(z, t).JoinSleep? && z.low.threads[t].pc.Out?
    ensures MayCall(z.low, t, Wait(PcOf(z, t).data, LIST_MUTEX))
  {
    hide Inv, StageFits;
    OwnFits(z, t);
    IdleOut(z.low, t);
    FitsHas(z.low, t);
    ListedUsable(z, PcOf(z, t).tid);
  }

  // A thread that has the list's mutex finds every running thread listed, itself included.
  lemma NotPending(z: ThrState, t: Tid, u: Tid)
    requires ThrInv(z) && t in z.low.threads && Holding(z.low.threads[t].held) && !Creating(PcOf(z, t))
    requires u in z.stage && !z.stage[u].Ended?
    ensures z.stage[u].Listed?
  {
    hide Inv, DataFits, Holding;
    if z.stage[u].Pending? {
      assert StageFits(z, u);
      var c := z.stage[u].creator;
      OwnFits(z, c);
      OneHolds(z, t, c);
    }
  }

  lemma EndedPassed(z: ThrState, u: Tid)
    requires ThrInv(z) && u in z.stage && z.stage[u].Ended?
    ensures u in z.passed && u in z.delivered && z.delivered[u] == z.passed[u]
  {
    assert StageFits(z, u);
  }

  lemma MaySignal(z: ThrState, t: Tid)
    requires ThrInv(z) && t in z.low.threads && PcOf(z, t).ExitEnter? && z.low.threads[t].pc.Out?
    ensures t in z.list && z.stage[t].Listed? && MayCall(z.low, t, Signal(z.list[t], false))
  {
    hide Inv, Alive, StageFits, Holding, Usable;
    OwnFits(z, t);
    IdleOut(z.low, t);
    if z.stage[t].Ended? {
      EndedPassed(z, t);
    }
    NotPending(z, t, t);
    ListedUsable(z, t);
  }

  // When thr_join goes on after its wait, the thread has exited, and its condition variable is idle.
  lemma Collects(z: ThrState, t: Tid)
    requires ThrInv(z) && t in z.low.threads && PcOf(z, t).JoinCollect? && z.low.threads[t].pc.Out?
    ensures var p := PcOf(z, t);
            && JoinerFits(z, t, p.tid, p.data) && z.recs[p.data].exited && p.tid in z.passed && z.recs[p.data].status == z.passed[p.tid]
            && Holding(z.low.threads[t].held) && z.low.threads[t].op.Idle?
  {
    hide Inv;
    OwnFits(z, t);
    IdleOut(z.low, t);
    assert StageFits(z, PcOf(z, t).tid);
  }

  lemma MayDestroyOld(z: ThrState, t: Tid)
    requires ThrInv(z) && t in z.low.threads && PcOf(z, t).JoinCollect? && z.low.threads[t].pc.Out?
    ensures MayCall(z.low, t, Destroy(PcOf(z, t).data))
  {
    hide Inv, StageFits, Touching, Holding;
    var a := PcOf(z, t).data;
    Collects(z, t);
    ListedUsable(z, PcOf(z, t).tid);
    forall x | x in z.low.threads && OnCond(z.low.threads[x].op) ensures z.low.threads[x].op.cond != a {
      if z.low.threads[x].op.cond == a {
        OnThreadCond(z, x, a);
        OwnFits(z, x);
        SameTarget(z, t, x, a);
      }
    }
    NoneQueued(z.low, a);
    OnlyOnCond(z.low, a);
  }

  // The joiner that has the list's mutex after its wait is alone with the condition variable.
  lemma SameTarget(z: ThrState, t: Tid, x: Tid, a: Addr)
    requires ThrInv(z) && t in z.low.threads && x in z.low.threads && PcOf(z, t).JoinCollect? && PcOf(z, t).data == a
    requires Holding(z.low.threads[t].held) && z.low.threads[t].op.Idle?
    ensures !(PcOf(z, x).CreateUndo? && PcOf(z, x).data == a) && PcOf(z, x) != ExitUnlock(a)
    ensures !(PcOf(z, x).JoinRemove? && PcOf(z, x).data == a)
    ensures PcOf(z, x).JoinCollect? && PcOf(z, x).data == a ==> x == t
  {
    hide Inv, StageFits, Holding;
    OwnFits(z, t);
    OwnFits(z, x);
    if Inside(PcOf(z, x)) {
      OneHolds(z, t, x);
    }
  }

  // ------------------------------------------------------------------ steps inside the lower library

  lemma InnerFits(z: ThrState, t: Tid, a: Addr)
    requires ThrInv(z) && Allowed(z.low, Run(t, a))
    ensures ThreadFits(PcOf(z, t), Next(z.low, t, a).threads[t], z.recs.Keys)
  {
    hide Inv, Next, StageFits, DataFits, BeforeInsert, BeforeTake;
    OwnFits(z, t);
    IdleOut(z.low, t);
    RunKeeps(z.low, t, a);
    IdleOut(Next(z.low, t, a), t);
    if Next(z.low, t, a).threads[t].pc.Out? {
      Returns(z.low, t, a);
    } else {
      GoesOn(z.low, t, a);
    }
  }

  lemma AliveKept(z: ThrState, t: Tid, b: Addr, a: Addr)
    requires ThrInv(z) && Allowed(z.low, Run(t, b)) && Alive(z, a) && z.low.threads[t].op != Destroy(a)
    ensures Alive(After(z, Inner(t, b)), a)
  {
    hide Inv, Next, StageFits, DataFits, ThreadFits;
    QueueMoves(z.low, t, b, a);
    if a !in Next(z.low, t, b).ready {
      ReadyLost(z.low, t, b, a);
    }
  }

  // Only one thread at a time is at work on a thread_t that is not published.
  lemma NobodyDestroys(z: ThrState, x: Tid, t: Tid, a: Addr)
    requires ThrInv(z) && x in z.low.threads && t in z.low.threads && Private(z, a)
    requires PcOf(z, x) == CreateFork(a) || (PcOf(z, x).CreateFields? && PcOf(z, x).data == a) || (PcOf(z, x).CreateInsert? && PcOf(z, x).data == a)
    ensures z.low.threads[t].op != Destroy(a)
  {
    hide Inv, StageFits, Holding, Private, Alive;
    if z.low.threads[t].op == Destroy(a) {
      PrivateIn(z, a);
      OnThreadCond(z, t, a);
      OwnFits(z, x);
      OwnFits(z, t);
      OneHolds(z, x, t);
    }
  }

  lemma PrivateIn(z: ThrState, a: Addr)
    requires Private(z, a)
    ensures a in z.recs
  {
  }

  lemma StillWaiting(z: ThrState, x: Tid, t: Tid, b: Addr)
    requires ThrInv(z) && x in z.low.threads && PcOf(z, x).JoinCollect? && Allowed(z.low, Run(t, b))
    requires !z.recs[PcOf(z, x).data].exited
    ensures Undisturbed(Next(z.low, t, b), x)
  {
    hide Inv, Next, Undisturbed, Alive, Holding;
    var u, a := PcOf(z, x).tid, PcOf(z, x).data;
    OwnFits(z, x);
    assert StageFits(z, u);
    WaitsOn(z, x);
    if TakesFrom(z.low, Run(t, b), a) {
      OnThreadCond(z, t, a);
      OwnFits(z, t);
    }
    StaysUndisturbed(z.low, Run(t, b), x);
  }

  lemma WaitsOn(z: ThrState, x: Tid)
    requires ThrInv(z) && x in z.low.threads && PcOf(z, x).JoinCollect? && Undisturbed(z.low, x)
    ensures z.low.threads[x].op == Wait(PcOf(z, x).data, LIST_MUTEX)
  {
    hide Inv, DataFits, StageFits;
    OwnFits(z, x);
  }

  lemma InnerData(z: ThrState, t: Tid, b: Addr, x: Tid)
    requires ThrInv(z) && Allowed(z.low, Run(t, b)) && x in z.low.threads
    ensures DataFits(After(z, Inner(t, b)), x, PcOf(z, x))
  {
    hide Inv, Next, StageFits, ThreadFits, Alive, Undisturbed, ThrInv, PcOf, GoOn, MayCall, GoJoin, Touching;
    OwnFits(z, x);
    OneMoves(z.low, t, b);
    var p := PcOf(z, x);
    if p.CreateFork? || p.CreateFields? || p.CreateInsert? {
      NobodyDestroys(z, x, t, p.data);
      AliveKept(z, t, b, p.data);
    } else if p.JoinCollect? && !z.recs[p.data].exited {
      StillWaiting(z, x, t, b);
    }
  }

  lemma InnerStage(z: ThrState, t: Tid, b: Addr, u: Tid)
    requires ThrInv(z) && Allowed(z.low, Run(t, b)) && u in z.stage
    ensures StageFits(After(z, Inner(t, b)), u)
  {
    hide Inv, Next, DataFits, ThreadFits, Alive;
    assert StageFits(z, u);
    if z.stage[u].Listed? {
      ListedUsable(z, u);
      AliveKept(z, t, b, z.list[u]);
    }
  }

  lemma InnerKeeps(z: ThrState, t: Tid, b: Addr)
    requires ThrInv(z) && CanStep(z, Inner(t, b))
    ensures ThrInv(After(z, Inner(t, b)))
  {
    hide Inv, Next, DataFits, StageFits, ThreadFits;
    RunKeeps(z.low, t, b);
    OneMoves(z.low, t, b);
    InnerFits(z, t, b);
    forall x | x in z.low.threads ensures DataFits(After(z, Inner(t, b)), x, PcOf(z, x)) {
      InnerData(z, t, b, x);
    }
    forall u | u in z.stage ensures StageFits(After(z, Inner(t, b)), u) {
      InnerStage(z, t, b, u);
    }
  }

  // ------------------------------------------------------------------ steps of the thread library

  ghost predicate OthersAsBefore(z: ThrState, z': ThrState, t: Tid) {
    && (forall x :: x in z.low.threads && x != t ==> x in z'.low.threads && z'.low.threads[x] == z.low.threads[x] && PcOf(z', x) == PcOf(z, x))
    && z'.low.recs == z.low.recs && t in z.low.threads && t in z'.low.threads
    && z'.stage.Keys == z'.low.threads.Keys && z'.pc.Keys <= z'.low.threads.Keys && z'.list.Keys <= z'.stage.Keys && z'.passed.Keys <= z'.stage.Keys
    && z'.delivered.Keys <= z'.stage.Keys && z'.joiner.Keys <= z'.stage.Keys
  }

  // A step that touches nothing shared but the lower library.
  ghost predicate QuietStep(z: ThrState, z': ThrState, t: Tid) {
    && OthersAsBefore(z, z', t) && z' == z.(low := z'.low, pc := z'.pc, joiner := z'.joiner)
    && z'.low.threads.Keys == z.low.threads.Keys && z'.low.queue == z.low.queue && z'.low.ready == z.low.ready
    && (forall u :: u in z.joiner ==> u in z'.joiner && z'.joiner[u] == z.joiner[u])
    && !PcOf(z, t).CreateFields? && !PcOf(z, t).CreateInsert? && !PcOf(z, t).JoinCollect?
  }

  lemma QuietData(z: ThrState, z': ThrState, t: Tid, x: Tid)
    requires ThrInv(z) && QuietStep(z, z', t) && x in z.low.threads && x != t
    ensures ThreadFits(PcOf(z', x), z'.low.threads[x], z'.recs.Keys) && DataFits(z', x, PcOf(z', x))
  {
    hide Inv, ThreadFits, StageFits;
    OwnFits(z, x);
  }

  lemma QuietStage(z: ThrState, z': ThrState, t: Tid, u: Tid)
    requires ThrInv(z) && QuietStep(z, z', t) && u in z.stage
    ensures StageFits(z', u)
  {
    hide Inv, ThreadFits, DataFits;
    assert StageFits(z, u);
    PcKept(z, z', t);
  }

  lemma QuietKeeps(z: ThrState, z': ThrState, t: Tid)
    requires ThrInv(z) && Inv(z'.low) && QuietStep(z, z', t)
    requires ThreadFits(PcOf(z', t), z'.low.threads[t], z.recs.Keys) && DataFits(z', t, PcOf(z', t))
    ensures ThrInv(z')
  {
    hide Inv, ThreadFits, DataFits, StageFits;
    forall x | x in z'.low.threads ensures ThreadFits(PcOf(z', x), z'.low.threads[x], z'.recs.Keys) && DataFits(z', x, PcOf(z', x)) {
      if x != t {
        QuietData(z, z', t, x);
      }
    }
    forall u | u in z'.stage ensures StageFits(z', u) {
      QuietStage(z, z', t, u);
    }
  }

  lemma PcKept(z: ThrState, z': ThrState, t: Tid)
    requires OthersAsBefore(z, z', t) && z.pc.Keys <= z.low.threads.Keys
    ensures forall x :: x in z.pc && x != t && !PcOf(z, x).Away? ==> x in z'.pc && z'.pc[x] == z.pc[x]
  {
    forall x | x in z.pc && x != t && !PcOf(z, x).Away? ensures x in z'.pc && z'.pc[x] == z.pc[x] {
      assert PcOf(z', x) == PcOf(z, x);
    }
  }

  // A step of the thread t, which has the list's mutex, that changes the data.
  ghost predicate DataStep(z: ThrState, z': ThrState, t: Tid) { OthersAsBefore(z, z', t) && DataMoves(z, z', t) }

  // The part of a data step that is about the data.
  ghost predicate DataMoves(z: ThrState, z': ThrState, t: Tid)
    requires t in z.low.threads
  {
    && Holding(z.low.threads[t].held) && z'.joiner == z.joiner
    && (forall x :: x in z.low.threads && x != t ==> (x in z'.passed <==> x in z.passed))
    && (forall x, a :: x in z.low.threads && x != t && OnCond(z.low.threads[x].op) && a in z'.recs && a !in z.recs ==> z.low.threads[x].op.cond != a)
    && (forall u :: u in z.stage && u in z.joiner && z.joiner[u] != t ==> TargetKept(z, z', u))
  }

  // What a thread's joiner relies on.
  ghost predicate TargetKept(z: ThrState, z': ThrState, u: Tid)
    requires u in z.stage
  {
    && u in z'.stage && (z'.stage[u].Ended? ==> z.stage[u].Ended?)
    && (z.stage[u].Listed? && u in z.list && z.list[u] in z.recs ==>
          && z'.stage[u].Listed? && u in z'.list && z'.list[u] == z.list[u] && z.list[u] in z'.recs
          && (z.recs[z.list[u]].exited ==> z'.recs[z.list[u]].exited)
          && (z'.recs[z.list[u]].exited || (z.recs[z.list[u]].joined ==> z'.recs[z.list[u]].joined)))
  }

  lemma DataOthers(z: ThrState, z': ThrState, t: Tid, x: Tid)
    requires ThrInv(z) && DataStep(z, z', t) && x in z.low.threads && x != t
    ensures ThreadFits(PcOf(z', x), z'.low.threads[x], z'.recs.Keys) && DataFits(z', x, PcOf(z', x))
  {
    hide Inv, StageFits, Holding, Undisturbed;
    OwnFits(z, x);
    NotInside(z, t, x);
    if PcOf(z, x).JoinCollect? {
      SameUndisturbed(z.low, z'.low, x);
    }
  }

  lemma NotInside(z: ThrState, t: Tid, x: Tid)
    requires ThrInv(z) && t in z.low.threads && x in z.low.threads && x != t && Holding(z.low.threads[t].held)
    ensures var p := PcOf(z, x);
            && !Inside(p) && !Holding(z.low.threads[x].held)
            && (p.CreateEnter? || p.JoinEnter? || p.ExitEnter? || p.JoinCollect? ==> !z.low.threads[x].op.Idle?)
  {
    hide Inv, DataFits, StageFits, Holding;
    OwnFits(z, x);
    if Holding(z.low.threads[x].held) {
      OneHolds(z, t, x);
    }
  }

  lemma SameUndisturbed(s: State, s': State, x: Tid)
    requires x in s.threads && x in s'.threads && s'.threads[x] == s.threads[x] && s'.recs == s.recs
    ensures Undisturbed(s, x) <==> Undisturbed(s', x)
  {
  }

  lemma DataKeeps(z: ThrState, z': ThrState, t: Tid)
    requires ThrInv(z) && Inv(z'.low) && DataStep(z, z', t)
    requires ThreadFits(PcOf(z', t), z'.low.threads[t], z'.recs.Keys) && DataFits(z', t, PcOf(z', t))
    requires forall x :: x in z'.low.threads && x !in z.low.threads ==>
               ThreadFits(PcOf(z', x), z'.low.threads[x], z'.recs.Keys) && DataFits(z', x, PcOf(z', x))
    requires forall u :: u in z'.stage ==> StageFits(z', u)
    requires forall u, v :: u in z'.list && v in z'.list && u != v ==> z'.list[u] != z'.list[v]
    ensures ThrInv(z')
  {
    hide Inv, ThreadFits, DataFits, StageFits, DataStep;
    DataStepOthers(z, z', t);
    forall x | x in z'.low.threads ensures ThreadFits(PcOf(z', x), z'.low.threads[x], z'.recs.Keys) && DataFits(z', x, PcOf(z', x)) {
      if x != t && x in z.low.threads {
        DataOthers(z, z', t, x);
      }
    }
  }

  lemma DataStepOthers(z: ThrState, z': ThrState, t: Tid)
    requires DataStep(z, z', t)
    ensures OthersAsBefore(z, z', t)
  {
  }

  // The step of the lower machine behind a step of this one, if there is one.
  lemma LowLabels(z: ThrState, st: Step) returns (ys: seq<Label>)
    requires ThrInv(z) && CanStep(z, st)
    ensures |ys| <= 1
    ensures if ys == [] then After(z, st).low == z.low else Allowed(z.low, ys[0]) && After(z, st).low == Apply(z.low, ys[0])
  {
    hide ThrInv, MayCall, Unused, GoOn, NextCall;
    match st
    case Inner(t, a) => ys := [Run(t, a)];
    case Other(x) => ys := [x];
    case Create(t, _) => ys := [Call(t, Acquire(LIST_MUTEX))];
    case Join(t, _) => ys := [Call(t, Acquire(LIST_MUTEX))];
    case Exit(t, _) => ys := [Call(t, Acquire(LIST_MUTEX))];
    case Go(t, ans) =>
      var p := PcOf(z, t);
      if p.CreateAlloc? && ans.ok {
        ys := [Init(ans.addr)];
        AllocLow(z, t, ans);
      } else if p.CreateFork? && ans.ok {
        ys := [Fork(ans.tid)];
        ForkLow(z, t, ans);
      } else {
        CallsAllowed(z, t, ans);
        GoLow(z, t, ans);
        ys := if NextCall(z, t, ans).Idle? then [] else [Call(t, NextCall(z, t, ans))];
      }
  }

  lemma AllocLow(z: ThrState, t: Tid, ans: Answer)
    requires CanStep(z, Go(t, ans)) && PcOf(z, t).CreateAlloc? && ans.ok
    ensures Allowed(z.low, Init(ans.addr)) && GoOn(z, t, ans).low == Apply(z.low, Init(ans.addr))
  {
  }

  lemma ForkLow(z: ThrState, t: Tid, ans: Answer)
    requires CanStep(z, Go(t, ans)) && PcOf(z, t).CreateFork? && ans.ok
    ensures Allowed(z.low, Fork(ans.tid)) && GoOn(z, t, ans).low == Apply(z.low, Fork(ans.tid))
  {
  }

  // The rest of the library only calls the lower one.
  lemma GoLow(z: ThrState, t: Tid, ans: Answer)
    requires ThrInv(z) && CanStep(z, Go(t, ans)) && !(PcOf(z, t).CreateAlloc? && ans.ok) && !(PcOf(z, t).CreateFork? && ans.ok)
    ensures GoOn(z, t, ans).low == if NextCall(z, t, ans).Idle? then z.low else Called(z.low, t, NextCall(z, t, ans))
  {
    hide Inv, StageFits, GoCreate, GoJoin, GoExit, NextCall, Called;
    OwnFits(z, t);
    IdleOut(z.low, t);
    RecThere(z, t);
    if Creating(PcOf(z, t)) { GoLowCreate(z, t, ans); }
    else if Joining(PcOf(z, t)) { GoLowJoin(z, t, ans); }
    else { GoLowExit(z, t, ans); }
  }

  // The thread_t that a step is about to use is allocated.
  lemma RecThere(z: ThrState, t: Tid)
    requires ThrInv(z) && t in z.low.threads && z.low.threads[t].pc.Out?
    ensures var p := PcOf(z, t);
            && (p.CreateFields? || p.CreateInsert? || p.CreateUndo? || p.JoinTest? || p.JoinSleep? || p.JoinCollect? || p.JoinRemove? ==> p.data in z.recs)
            && (p.JoinRemove? || p.JoinTest? || p.JoinSleep? ==> p.tid in z.list && z.list[p.tid] == p.data)
            && (p.ExitEnter? ==> t in z.list && z.list[t] in z.recs)
            && (p.JoinEnter? ==> p.tid in z.list && z.stage[p.tid].Listed?)
  {
    hide Inv, StageFits, Holding;
    OwnFits(z, t);
    IdleOut(z.low, t);
    if PcOf(z, t).ExitEnter? { MaySignal(z, t); ListedUsable(z, t); }
    else if PcOf(z, t).JoinEnter? { NotPending(z, t, PcOf(z, t).tid); ListedUsable(z, PcOf(z, t).tid); }
  }

  lemma GoLowCreate(z: ThrState, t: Tid, ans: Answer)
    requires t in z.low.threads && Creating(PcOf(z, t)) && !(PcOf(z, t).CreateAlloc? && ans.ok) && !(PcOf(z, t).CreateFork? && ans.ok)
    requires PcOf(z, t).CreateFields? ==> PcOf(z, t).data in z.recs
    ensures GoCreate(z, t, ans).low == if NextCall(z, t, ans).Idle? then z.low else Called(z.low, t, NextCall(z, t, ans))
  {
    hide Called, Goes;
  }

  lemma GoLowJoin(z: ThrState, t: Tid, ans: Answer)
    requires ThrInv(z) && t in z.low.threads && Joining(PcOf(z, t)) && z.low.threads[t].pc.Out?
    ensures GoJoin(z, t, ans).low == if NextCall(z, t, ans).Idle? then z.low else Called(z.low, t, NextCall(z, t, ans))
  {
    hide Called, ThrInv, Goes;
    RecThere(z, t);
    if PcOf(z, t).JoinTest? {
      NotJoined(z, t);
    }
  }

  // A joiner that has the list's mutex finds joinedFlag down.
  lemma NotJoined(z: ThrState, t: Tid)
    requires ThrInv(z) && t in z.low.threads && PcOf(z, t).JoinTest?
    ensures PcOf(z, t).data in z.recs && !z.recs[PcOf(z, t).data].joined
  {
    hide Inv;
    OwnFits(z, t);
    assert StageFits(z, PcOf(z, t).tid);
  }

  lemma GoLowExit(z: ThrState, t: Tid, ans: Answer)
    requires t in z.low.threads && !Creating(PcOf(z, t)) && !Joining(PcOf(z, t))
    requires PcOf(z, t).ExitEnter? ==> t in z.list && z.list[t] in z.recs
    ensures GoExit(z, t).low == if NextCall(z, t, ans).Idle? then z.low else Called(z.low, t, NextCall(z, t, ans))
  {
    hide Called, Goes;
  }

  lemma StepsBelow(z: ThrState, st: Step)
    requires ThrInv(z) && CanStep(z, st)
    ensures Inv(After(z, st).low)
  {
    hide ThrInv, After, CanStep, Allowed, Apply;
    var ys := LowLabels(z, st);
    BelowInv(z);
    if ys != [] {
      StepKeeps(z.low, ys[0]);
    }
  }

  lemma BelowInv(z: ThrState)
    requires ThrInv(z)
    ensures Inv(z.low)
  {
  }

  lemma GoesKeeps(z: ThrState, t: Tid, op: Op, p: ThrPc)
    requires ThrInv(z) && t in z.low.threads && z.low.threads[t].op.Idle? && (op.Idle? || MayCall(z.low, t, op))
    requires !PcOf(z, t).CreateFields? && !PcOf(z, t).CreateInsert? && !PcOf(z, t).JoinCollect?
    requires var z' := Goes(z, t, op, p);
             ThreadFits(p, z'.low.threads[t], z.recs.Keys) && DataFits(z', t, p)
    ensures ThrInv(Goes(z, t, op, p))
  {
    hide Inv, ThreadFits, DataFits, StageFits, Goes;
    var z' := Goes(z, t, op, p);
    if !op.Idle? {
      StepKeeps(z.low, Call(t, op)) by { hide Inv, MayCall; }
    }
    QuietKeeps(z, z', t);
  }

  lemma EnterKeeps(z: ThrState, st: Step)
    requires ThrInv(z) && CanStep(z, st) && (st.Create? || st.Exit?)
    ensures ThrInv(After(z, st))
  {
    hide ThrInv, Goes, Start, ThreadFits, DataFits, MayCall;
    var p := if st.Create? then CreateEnter(st.isNull) else ExitEnter(st.status);
    MayEnter(z, st);
    EnterFits(z, st.t, p);
    GoesKeeps(z, st.t, Acquire(LIST_MUTEX), p);
  }

  lemma MayEnter(z: ThrState, st: Step)
    requires ThrInv(z) && CanStep(z, st) && (st.Create? || st.Exit?)
    ensures MayCall(z.low, st.t, Acquire(LIST_MUTEX)) && st.t in z.low.threads && z.low.threads[st.t].op.Idle? && PcOf(z, st.t).Away?
  {
    hide ThreadFits, DataFits, StageFits, Above;
    IdleOut(z.low, st.t);
  }

  lemma EnterFits(z: ThrState, t: Tid, p: ThrPc)
    requires ThrInv(z) && t in z.low.threads && PcOf(z, t).Away? && MayCall(z.low, t, Acquire(LIST_MUTEX)) && (p.CreateEnter? || p.ExitEnter?)
    ensures var z' := Goes(z, t, Acquire(LIST_MUTEX), p);
            ThreadFits(p, z'.low.threads[t], z.recs.Keys) && DataFits(z', t, p)
  {
    hide ThrInv, StageFits, Start, Goes;
    OwnFits(z, t);
  }

  lemma JoinEnterKeeps(z: ThrState, t: Tid, u: Tid)
    requires ThrInv(z) && CanStep(z, Join(t, u))
    ensures ThrInv(After(z, Join(t, u)))
  {
    hide *;
    StepsBelow(z, Join(t, u));
    JoinEnterQuiet(z, t, u);
    JoinEnterFits(z, t, u);
    QuietKeeps(z, After(z, Join(t, u)), t);
  }

  lemma JoinEnterQuiet(z: ThrState, t: Tid, u: Tid)
    requires ThrInv(z) && CanStep(z, Join(t, u))
    ensures QuietStep(z, After(z, Join(t, u)), t)
  {
    hide ThrInv, Goes, Start, MayCall, Holding;
    CallerThere(z, t, Acquire(LIST_MUTEX));
    NotEnded(z, u);
    KeysKept(z);
  }

  lemma JoinEnterFits(z: ThrState, t: Tid, u: Tid)
    requires ThrInv(z) && CanStep(z, Join(t, u))
    ensures var z' := After(z, Join(t, u));
            t in z.low.threads && t in z'.low.threads && ThreadFits(PcOf(z', t), z'.low.threads[t], z.recs.Keys) && DataFits(z', t, PcOf(z', t))
  {
    hide ThrInv, Goes, Start, MayCall, Holding;
    CallerThere(z, t, Acquire(LIST_MUTEX));
    AwayFacts(z, t);
    NotEnded(z, u);
  }

  lemma AwayFacts(z: ThrState, t: Tid)
    requires ThrInv(z) && t in z.low.threads && PcOf(z, t).Away?
    ensures LIST_MUTEX !in z.low.threads[t].held && t !in z.passed
  {
    hide Inv, StageFits;
    OwnFits(z, t);
  }

  lemma KeysKept(z: ThrState)
    requires ThrInv(z)
    ensures z.stage.Keys == z.low.threads.Keys && z.pc.Keys <= z.low.threads.Keys && z.list.Keys <= z.stage.Keys && z.passed.Keys <= z.stage.Keys
    ensures z.delivered.Keys <= z.stage.Keys && z.joiner.Keys <= z.stage.Keys
  {
  }

  lemma NotEnded(z: ThrState, u: Tid)
    requires ThrInv(z) && u in z.low.threads && u !in z.joiner
    ensures u in z.stage && !z.stage[u].Ended?
  {
    assert StageFits(z, u);
  }

  lemma OtherKeeps(z: ThrState, x: Label)
    requires ThrInv(z) && CanStep(z, Other(x)) && x.Call?
    ensures ThrInv(After(z, Other(x)))
  {
    hide Inv, StageFits, Start;
    CallerThere(z, x.t, x.op);
    StepKeeps(z.low, x) by { hide Inv, MayCall; }
    OwnFits(z, x.t);
    IdleOut(z.low, x.t);
    QuietKeeps(z, After(z, Other(x)), x.t);
  }

  lemma CallerThere(z: ThrState, t: Tid, op: Op)
    requires MayCall(z.low, t, op)
    ensures t in z.low.threads && !op.Idle?
  {
  }

  lemma OtherInitKeeps(z: ThrState, c: Cond)
    requires ThrInv(z) && CanStep(z, Other(Init(c)))
    ensures ThrInv(After(z, Other(Init(c))))
  {
    hide Inv, ThreadFits, DataFits, StageFits;
    var z' := After(z, Other(Init(c)));
    StepKeeps(z.low, Init(c)) by { hide Inv; }
    forall x | x in z.low.threads ensures DataFits(z', x, PcOf(z, x)) {
      InitData(z, z', c, x);
    }
    forall u | u in z.stage ensures StageFits(z', u) {
      InitStage(z, z', c, u);
    }
  }

  ghost predicate InitStep(z: ThrState, z': ThrState, c: Cond) {
    && c !in z.recs && z'.low.threads == z.low.threads && z'.low.recs == z.low.recs && z' == z.(low := z'.low)
    && (forall a :: a in z.recs ==> (a in z'.low.queue <==> a in z.low.queue) && (a in z'.low.ready <==> a in z.low.ready))
  }

  lemma InitData(z: ThrState, z': ThrState, c: Cond, x: Tid)
    requires ThrInv(z) && InitStep(z, z', c) && x in z.low.threads
    ensures DataFits(z', x, PcOf(z, x))
  {
    hide Inv, StageFits, ThreadFits, Undisturbed;
    OwnFits(z, x);
    SameUndisturbed(z.low, z'.low, x);
  }

  lemma InitStage(z: ThrState, z': ThrState, c: Cond, u: Tid)
    requires ThrInv(z) && InitStep(z, z', c) && u in z.stage
    ensures StageFits(z', u)
  {
    hide Inv, DataFits, ThreadFits;
    assert StageFits(z, u);
  }

  // The steps that only move on.
  predicate JustMoves(z: ThrState, t: Tid, ans: Answer) {
    match PcOf(z, t)
    case CreateAlloc => !ans.ok
    case CreateFork(_) => !ans.ok
    case CreateUndo(_) => false
    case CreateFields(_, _) => false
    case CreateInsert(_, _) => false
    case JoinSleep(_, a) => a in z.recs && z.recs[a].exited
    case JoinCollect(_, _) => false
    case JoinRemove(_, _) => !ans.ok
    case ExitEnter(_) => false
    case _ => true
  }

  // What a thread between two calls of the lower library can rely on.
  lemma BetweenCalls(z: ThrState, t: Tid)
    requires ThrInv(z) && t in z.low.threads && z.low.threads[t].pc.Out?
    ensures var p := PcOf(z, t);
            && z.low.threads[t].op.Idle?
            && (Inside(p) || p.CreateEnter? || p.JoinEnter? || p.ExitEnter? || p.JoinCollect? ==> Holding(z.low.threads[t].held))
            && (p.Leave? || p.ExitVanish? || p.Away? || p.Gone? ==> LIST_MUTEX !in z.low.threads[t].held)
            && (t in z.passed <==> p.ExitUnlock? || p.ExitVanish? || p.Gone?)
  {
    hide Inv, StageFits, Holding;
    OwnFits(z, t);
    IdleOut(z.low, t);
  }

  lemma LeaveKeeps(z: ThrState, t: Tid, result: int)
    requires ThrInv(z) && t in z.low.threads && z.low.threads[t].pc.Out? && (Inside(PcOf(z, t)) || PcOf(z, t).CreateEnter?)
    requires !PcOf(z, t).ExitUnlock? && !PcOf(z, t).CreateFields? && !PcOf(z, t).CreateInsert?
    ensures ThrInv(Fails(z, t, result))
  {
    hide ThrInv, Goes, Start;
    BetweenCalls(z, t);
    GoesKeeps(z, t, Release(LIST_MUTEX), Leave(result));
  }

  lemma MovesInside(z: ThrState, t: Tid, op: Op, p: ThrPc)
    requires ThrInv(z) && t in z.low.threads && z.low.threads[t].pc.Out? && Holding(z.low.threads[t].held) && t !in z.passed
    requires !PcOf(z, t).CreateFields? && !PcOf(z, t).CreateInsert? && !PcOf(z, t).JoinCollect?
    requires (op.Idle? && p.CreatePages?) || (op.Heap? && (p.CreateAlloc? || p.JoinDone?))
    ensures ThrInv(Goes(z, t, op, p))
  {
    hide ThrInv, Goes, Start;
    BetweenCalls(z, t);
    GoesKeeps(z, t, op, p);
  }

  lemma ForkFails(z: ThrState, t: Tid)
    requires ThrInv(z) && t in z.low.threads && z.low.threads[t].pc.Out? && PcOf(z, t).CreateFork?
    ensures ThrInv(Goes(z, t, Destroy(PcOf(z, t).data), CreateUndo(PcOf(z, t).data)))
  {
    hide Inv, StageFits, Goes, Start, MayCall, Alive, Private, Holding;
    var a := PcOf(z, t).data;
    OwnFits(z, t);
    BetweenCalls(z, t);
    MayDestroyNew(z, t, a);
    PrivateSame(z, Goes(z, t, Destroy(a), CreateUndo(a)), a);
    GoesKeeps(z, t, Destroy(a), CreateUndo(a));
  }

  lemma PrivateSame(z: ThrState, z': ThrState, a: Addr)
    requires Private(z, a) && z'.recs == z.recs && z'.list == z.list
    ensures Private(z', a)
  {
  }

  lemma CreateMoves(z: ThrState, t: Tid, ans: Answer)
    requires ThrInv(z) && CanStep(z, Go(t, ans)) && JustMoves(z, t, ans) && Creating(PcOf(z, t))
    ensures ThrInv(GoCreate(z, t, ans))
  {
    hide ThrInv, Goes, Fails, Holding, Unused;
    BetweenCalls(z, t);
    var p := PcOf(z, t);
    if p.CreateFork? {
      ForkFails(z, t);
    } else if p.CreateEnter? && !p.isNull {
      MovesInside(z, t, Idle, CreatePages);
    } else if p.CreatePages? && ans.ok {
      MovesInside(z, t, Heap, CreateAlloc);
    } else {
      LeaveKeeps(z, t, -1);
    }
  }

  // The thread to be joined is listed; the joiner finds it there and goes on to test its flags.
  lemma JoinTests(z: ThrState, t: Tid)
    requires ThrInv(z) && t in z.low.threads && z.low.threads[t].pc.Out? && PcOf(z, t).JoinEnter?
    ensures PcOf(z, t).tid in z.list && ThrInv(Goes(z, t, Idle, JoinTest(PcOf(z, t).tid, z.list[PcOf(z, t).tid])))
  {
    hide Inv, Goes, Start, Alive, Holding, StageFits;
    OwnFits(z, t);
    BetweenCalls(z, t);
    RecThere(z, t);
    ListedUsable(z, PcOf(z, t).tid);
    AliveIn(z, z.list[PcOf(z, t).tid]);
    GoesKeeps(z, t, Idle, JoinTest(PcOf(z, t).tid, z.list[PcOf(z, t).tid]));
  }

  lemma AliveIn(z: ThrState, a: Addr)
    requires Alive(z, a)
    ensures a in z.recs
  {
  }

  lemma JoinGoesOn(z: ThrState, t: Tid)
    requires ThrInv(z) && t in z.low.threads && z.low.threads[t].pc.Out? && PcOf(z, t).JoinTest?
    ensures ThrInv(Goes(z, t, Idle, JoinSleep(PcOf(z, t).tid, PcOf(z, t).data)))
  {
    hide Inv, Goes, Start, Holding, StageFits;
    OwnFits(z, t);
    BetweenCalls(z, t);
    NotJoined(z, t);
    GoesKeeps(z, t, Idle, JoinSleep(PcOf(z, t).tid, PcOf(z, t).data));
  }

  lemma JoinSkips(z: ThrState, t: Tid)
    requires ThrInv(z) && t in z.low.threads && z.low.threads[t].pc.Out? && PcOf(z, t).JoinSleep?
    requires PcOf(z, t).data in z.recs && z.recs[PcOf(z, t).data].exited
    ensures ThrInv(Goes(z, t, Idle, JoinCollect(PcOf(z, t).tid, PcOf(z, t).data)))
  {
    hide Inv, Goes, Start, Holding, StageFits, Undisturbed;
    OwnFits(z, t);
    BetweenCalls(z, t);
    GoesKeeps(z, t, Idle, JoinCollect(PcOf(z, t).tid, PcOf(z, t).data));
  }

  lemma JoinMoves(z: ThrState, t: Tid, ans: Answer)
    requires ThrInv(z) && CanStep(z, Go(t, ans)) && JustMoves(z, t, ans) && Joining(PcOf(z, t))
    ensures ThrInv(GoJoin(z, t, ans))
  {
    hide ThrInv, Goes, Fails, Holding, Unused;
    BetweenCalls(z, t);
    RecThere(z, t);
    var p := PcOf(z, t);
    if p.JoinEnter? {
      JoinTests(z, t);
    } else if p.JoinTest? {
      NotJoined(z, t);
      JoinGoesOn(z, t);
    } else if p.JoinSleep? {
      JoinSkips(z, t);
    } else if p.JoinFree? {
      MovesInside(z, t, Heap, JoinDone);
    } else {
      LeaveKeeps(z, t, if p.JoinDone? then 0 else -1);
    }
  }

  lemma ExitMoves(z: ThrState, t: Tid, ans: Answer)
    requires ThrInv(z) && CanStep(z, Go(t, ans)) && (PcOf(z, t).ExitUnlock? || PcOf(z, t).ExitVanish? || PcOf(z, t).Leave?)
    ensures ThrInv(GoExit(z, t))
  {
    hide ThrInv, Goes, Start, Unused;
    BetweenCalls(z, t);
    var p := PcOf(z, t);
    if p.ExitUnlock? {
      GoesKeeps(z, t, Release(LIST_MUTEX), ExitVanish);
    } else {
      GoesKeeps(z, t, Idle, if p.Leave? then Away else Gone);
    }
  }

  // A thread whose record, list entry and stage a step of t leaves alone.
  lemma StageSame(z: ThrState, z': ThrState, t: Tid, u: Tid)
    requires ThrInv(z) && OthersAsBefore(z, z', t) && u in z.stage && u in z'.stage && z'.stage[u] == z.stage[u]
    requires z'.joiner == z.joiner && (u in z'.list <==> u in z.list) && (u in z.list ==> z'.list[u] == z.list[u])
    requires (u in z'.passed <==> u in z.passed) && (u in z.passed ==> z'.passed[u] == z.passed[u])
    requires (u in z'.delivered <==> u in z.delivered) && (u in z.delivered ==> z'.delivered[u] == z.delivered[u])
    requires u in z.list && z.list[u] in z.recs ==> z.list[u] in z'.recs && z'.recs[z.list[u]] == z.recs[z.list[u]]
    requires u in z.list && Alive(z, z.list[u]) ==> Alive(z', z.list[u])
    requires PcOf(z, t).CreateFields? ==> PcOf(z', t).CreateInsert? && PcOf(z', t).tid == PcOf(z, t).tid
    requires PcOf(z, t).CreateInsert? ==> u != PcOf(z, t).tid
    requires PcOf(z, t).JoinCollect? ==> u != PcOf(z, t).tid
    ensures StageFits(z', u)
  {
    hide Inv, ThreadFits, DataFits;
    assert StageFits(z, u);
    PcKept(z, z', t);
    if z.stage[u].Listed? && z.recs[z.list[u]].joined {
      assert PcOf(z, z.joiner[u]) == JoinCollect(u, z.list[u]);
    }
  }

  // cond_init: new memory that nobody else knows.
  lemma AllocKeeps(z: ThrState, t: Tid, ans: Answer)
    requires ThrInv(z) && CanStep(z, Go(t, ans)) && PcOf(z, t).CreateAlloc? && ans.ok
    ensures ThrInv(GoCreate(z, t, ans))
  {
    hide Inv, StageFits, Unused, Holding, ThreadFits, DataFits, DataStep;
    var z' := GoCreate(z, t, ans);
    StepsBelow(z, Go(t, ans));
    AllocOwn(z, t, ans);
    forall u | u in z'.stage ensures StageFits(z', u) {
      NewAddr(z, ans.addr);
      StageSame(z, z', t, u);
    }
    DataKeeps(z, z', t);
  }

  lemma AllocOwn(z: ThrState, t: Tid, ans: Answer)
    requires ThrInv(z) && CanStep(z, Go(t, ans)) && PcOf(z, t).CreateAlloc? && ans.ok
    ensures var z' := GoCreate(z, t, ans);
            && t in z'.low.threads && DataStep(z, z', t) && z'.low.threads == z.low.threads
            && ThreadFits(PcOf(z', t), z'.low.threads[t], z'.recs.Keys) && DataFits(z', t, PcOf(z', t))
  {
    hide GoCreate, CanStep, ThrInv, DataStep, ThreadFits, DataFits;
    AllocOwnData(z, t, ans);
    AllocOwnFits(z, t, ans);
  }

  lemma AllocOwnData(z: ThrState, t: Tid, ans: Answer)
    requires ThrInv(z) && CanStep(z, Go(t, ans)) && PcOf(z, t).CreateAlloc? && ans.ok
    ensures var z' := GoCreate(z, t, ans);
            t in z'.low.threads && DataStep(z, z', t) && z'.low.threads == z.low.threads
  {
    hide ThrInv, CanStep, OthersAsBefore, DataMoves, GoCreate;
    AllocOwnDataOthers(z, t, ans);
    AllocOwnDataMoves(z, t, ans);
  }

  lemma AllocOwnDataOthers(z: ThrState, t: Tid, ans: Answer)
    requires ThrInv(z) && CanStep(z, Go(t, ans)) && PcOf(z, t).CreateAlloc? && ans.ok
    ensures var z' := GoCreate(z, t, ans);
            t in z'.low.threads && OthersAsBefore(z, z', t) && z'.low.threads == z.low.threads
  {
    hide ThrInv, Unused, Holding, Inv, Start, ThreadFits, DataFits, MayCall, OnCond, Alive;
    KeysKept(z);
    BetweenCalls(z, t);
    NewAddr(z, ans.addr);
    NamedHere(z, t);
  }

  lemma AllocOwnDataMoves(z: ThrState, t: Tid, ans: Answer)
    requires ThrInv(z) && CanStep(z, Go(t, ans)) && PcOf(z, t).CreateAlloc? && ans.ok
    ensures t in z.low.threads && DataMoves(z, GoCreate(z, t, ans), t)
  {
    hide ThrInv, Unused, Holding, Inv, Start, ThreadFits, DataFits, MayCall, OnCond, Alive;
    KeysKept(z);
    BetweenCalls(z, t);
    NewAddr(z, ans.addr);
    NamedHere(z, t);
  }

  lemma AllocOwnFits(z: ThrState, t: Tid, ans: Answer)
    requires ThrInv(z) && CanStep(z, Go(t, ans)) && PcOf(z, t).CreateAlloc? && ans.ok
    ensures var z' := GoCreate(z, t, ans);
            t in z'.low.threads && ThreadFits(PcOf(z', t), z'.low.threads[t], z'.recs.Keys) && DataFits(z', t, PcOf(z', t))
  {
    hide ThrInv, Unused, Holding, Inv, Start, DataStep, MayCall;
    KeysKept(z);
    BetweenCalls(z, t);
    NewAddr(z, ans.addr);
    NamedHere(z, t);
  }

  // A client mutex the thread library does not know.
  lemma NamedHere(z: ThrState, t: Tid)
    requires ThrInv(z) && t in z.low.threads
    ensures !PcOf(z, t).Broken?
  {
    OwnFits(z, t);
  }

  lemma NewAddr(z: ThrState, a: Addr)
    requires ThrInv(z) && Unused(z, a)
    ensures a !in z.recs && a !in z.low.queue && a !in z.low.ready
    ensures forall u :: u in z.list ==> z.list[u] in z.recs && z.list[u] != a
    ensures forall x :: x in z.low.threads && OnCond(z.low.threads[x].op) ==> z.low.threads[x].op.cond != a
  {
    hide Inv, ThreadFits, DataFits;
    forall u | u in z.list ensures z.list[u] in z.recs && z.list[u] != a {
      assert StageFits(z, u);
    }
  }

  lemma ForkKeeps(z: ThrState, t: Tid, ans: Answer)
    requires ThrInv(z) && CanStep(z, Go(t, ans)) && PcOf(z, t).CreateFork? && ans.ok
    ensures ThrInv(GoCreate(z, t, ans))
  {
    hide Inv, StageFits, Unused, Holding, ThreadFits, DataFits, DataStep;
    var z' := GoCreate(z, t, ans);
    StepsBelow(z, Go(t, ans));
    ForkOwn(z, t, ans);
    forall u | u in z'.stage ensures StageFits(z', u) {
      if u == ans.tid {
        ForkStage(z, t, ans);
      } else {
        StageSame(z, z', t, u);
      }
    }
    DataKeeps(z, z', t);
  }

  lemma ForkOwn(z: ThrState, t: Tid, ans: Answer)
    requires ThrInv(z) && CanStep(z, Go(t, ans)) && PcOf(z, t).CreateFork? && ans.ok
    ensures var z', u := GoCreate(z, t, ans), ans.tid;
            && t in z'.low.threads && DataStep(z, z', t) && z'.low.threads == z.low.threads[u := Local(Idle, Out, {})] && u !in z.low.threads
            && ThreadFits(PcOf(z', t), z'.low.threads[t], z'.recs.Keys) && DataFits(z', t, PcOf(z', t))
            && ThreadFits(PcOf(z', u), z'.low.threads[u], z'.recs.Keys) && DataFits(z', u, PcOf(z', u))
  {
    hide *;
    ForkData(z, t, ans);
    ForkFits(z, t, ans);
  }

  lemma ForkData(z: ThrState, t: Tid, ans: Answer)
    requires ThrInv(z) && CanStep(z, Go(t, ans)) && PcOf(z, t).CreateFork? && ans.ok
    ensures var z', u := GoCreate(z, t, ans), ans.tid;
            && t in z'.low.threads && DataStep(z, z', t) && z'.low.threads == z.low.threads[u := Local(Idle, Out, {})] && u !in z.low.threads
  {
    hide ThrInv, GoCreate, CanStep, OthersAsBefore, DataMoves;
    ForkOthers(z, t, ans);
    ForkTargets(z, t, ans);
  }

  lemma ForkOthers(z: ThrState, t: Tid, ans: Answer)
    requires ThrInv(z) && CanStep(z, Go(t, ans)) && PcOf(z, t).CreateFork? && ans.ok
    ensures var z', u := GoCreate(z, t, ans), ans.tid;
            t in z'.low.threads && OthersAsBefore(z, z', t) && z'.low.threads == z.low.threads[u := Local(Idle, Out, {})] && u !in z.low.threads
  {
    hide ThrInv, Unused, Holding, MayCall;
    KeysKept(z);
  }

  lemma ForkTargets(z: ThrState, t: Tid, ans: Answer)
    requires ThrInv(z) && CanStep(z, Go(t, ans)) && PcOf(z, t).CreateFork? && ans.ok
    ensures t in z.low.threads && DataMoves(z, GoCreate(z, t, ans), t)
  {
    hide ThrInv, Unused, Holding, MayCall, OnCond;
    KeysKept(z);
    BetweenCalls(z, t);
  }

  lemma ForkFits(z: ThrState, t: Tid, ans: Answer)
    requires ThrInv(z) && CanStep(z, Go(t, ans)) && PcOf(z, t).CreateFork? && ans.ok
    ensures var z', u := GoCreate(z, t, ans), ans.tid;
            && t in z'.low.threads && ans.tid in z'.low.threads
            && ThreadFits(PcOf(z', t), z'.low.threads[t], z'.recs.Keys) && DataFits(z', t, PcOf(z', t))
            && ThreadFits(PcOf(z', u), z'.low.threads[u], z'.recs.Keys) && DataFits(z', u, PcOf(z', u))
  {
    hide GoCreate, CanStep, ThrInv, ThreadFits, DataFits;
    ForkFitsParent(z, t, ans);
    ForkFitsChild(z, t, ans);
  }

  lemma ForkFitsParent(z: ThrState, t: Tid, ans: Answer)
    requires ThrInv(z) && CanStep(z, Go(t, ans)) && PcOf(z, t).CreateFork? && ans.ok
    ensures var z' := GoCreate(z, t, ans);
            t in z'.low.threads && ThreadFits(PcOf(z', t), z'.low.threads[t], z'.recs.Keys) && DataFits(z', t, PcOf(z', t))
  {
    hide StageFits, DataStep, Unused, Holding, Inv, Usable, MayCall;
    OwnFits(z, t);
    KeysKept(z);
    BetweenCalls(z, t);
  }

  lemma ForkFitsChild(z: ThrState, t: Tid, ans: Answer)
    requires ThrInv(z) && CanStep(z, Go(t, ans)) && PcOf(z, t).CreateFork? && ans.ok
    ensures var z', u := GoCreate(z, t, ans), ans.tid;
            u in z'.low.threads && ThreadFits(PcOf(z', u), z'.low.threads[u], z'.recs.Keys) && DataFits(z', u, PcOf(z', u))
  {
    hide ThrInv, DataStep, Unused, Holding, MayCall;
    KeysKept(z);
    BetweenCalls(z, t);
  }

  lemma ForkStage(z: ThrState, t: Tid, ans: Answer)
    requires ThrInv(z) && CanStep(z, Go(t, ans)) && PcOf(z, t).CreateFork? && ans.ok
    ensures ans.tid in GoCreate(z, t, ans).stage && StageFits(GoCreate(z, t, ans), ans.tid)
  {
    hide ThrInv, Unused;
    KeysKept(z);
  }

  // The record of an unpublished thread is given up.
  lemma UndoKeeps(z: ThrState, t: Tid, ans: Answer)
    requires ThrInv(z) && CanStep(z, Go(t, ans)) && PcOf(z, t).CreateUndo?
    ensures ThrInv(GoCreate(z, t, ans))
  {
    hide Inv, StageFits, Unused, Holding, ThreadFits, DataFits, DataStep, Goes;
    var z' := GoCreate(z, t, ans);
    StepsBelow(z, Go(t, ans));
    UndoOwn(z, t, ans);
    forall u | u in z'.stage ensures StageFits(z', u) {
      PrivateElsewhere(z, t, PcOf(z, t).data);
      StageSame(z, z', t, u);
    }
    DataKeeps(z, z', t);
  }

  lemma PrivateElsewhere(z: ThrState, t: Tid, a: Addr)
    requires ThrInv(z) && t in z.low.threads
    requires PcOf(z, t) == CreateUndo(a) || (PcOf(z, t).CreateFields? && PcOf(z, t).data == a) || (PcOf(z, t).CreateInsert? && PcOf(z, t).data == a)
    ensures forall u :: u in z.list ==> z.list[u] != a
  {
    hide Inv, StageFits, ThreadFits;
    OwnFits(z, t);
  }

  lemma UndoOwn(z: ThrState, t: Tid, ans: Answer)
    requires ThrInv(z) && CanStep(z, Go(t, ans)) && PcOf(z, t).CreateUndo?
    ensures var z' := GoCreate(z, t, ans);
            && t in z'.low.threads && DataStep(z, z', t) && z'.low.threads.Keys == z.low.threads.Keys
            && ThreadFits(PcOf(z', t), z'.low.threads[t], z'.recs.Keys) && DataFits(z', t, PcOf(z', t))
  {
    hide GoCreate, CanStep, ThrInv, DataStep, ThreadFits, DataFits;
    UndoOwnData(z, t, ans);
    UndoOwnFits(z, t, ans);
  }

  lemma UndoOwnData(z: ThrState, t: Tid, ans: Answer)
    requires ThrInv(z) && CanStep(z, Go(t, ans)) && PcOf(z, t).CreateUndo?
    ensures var z' := GoCreate(z, t, ans);
            t in z'.low.threads && DataStep(z, z', t) && z'.low.threads.Keys == z.low.threads.Keys
  {
    hide ThrInv, CanStep, OthersAsBefore, DataMoves, GoCreate;
    UndoOwnDataOthers(z, t, ans);
    UndoOwnDataMoves(z, t, ans);
  }

  lemma UndoOwnDataOthers(z: ThrState, t: Tid, ans: Answer)
    requires ThrInv(z) && CanStep(z, Go(t, ans)) && PcOf(z, t).CreateUndo?
    ensures var z' := GoCreate(z, t, ans);
            t in z'.low.threads && OthersAsBefore(z, z', t) && z'.low.threads.Keys == z.low.threads.Keys
  {
    hide ThrInv, Unused, Holding, Inv, Start, ThreadFits, DataFits, MayCall, OnCond, Alive;
    KeysKept(z);
    BetweenCalls(z, t);
    PrivateElsewhere(z, t, PcOf(z, t).data);
  }

  lemma UndoOwnDataMoves(z: ThrState, t: Tid, ans: Answer)
    requires ThrInv(z) && CanStep(z, Go(t, ans)) && PcOf(z, t).CreateUndo?
    ensures t in z.low.threads && DataMoves(z, GoCreate(z, t, ans), t)
  {
    hide ThrInv, Unused, Holding, Inv, Start, ThreadFits, DataFits, MayCall, OnCond, Alive;
    KeysKept(z);
    BetweenCalls(z, t);
    PrivateElsewhere(z, t, PcOf(z, t).data);
  }

  lemma UndoOwnFits(z: ThrState, t: Tid, ans: Answer)
    requires ThrInv(z) && CanStep(z, Go(t, ans)) && PcOf(z, t).CreateUndo?
    ensures var z' := GoCreate(z, t, ans);
            t in z'.low.threads && ThreadFits(PcOf(z', t), z'.low.threads[t], z'.recs.Keys) && DataFits(z', t, PcOf(z', t))
  {
    hide ThrInv, Unused, Holding, Inv, Start, DataStep, MayCall;
    KeysKept(z);
    BetweenCalls(z, t);
    PrivateElsewhere(z, t, PcOf(z, t).data);
  }

  lemma FieldsKeeps(z: ThrState, t: Tid, ans: Answer)
    requires ThrInv(z) && CanStep(z, Go(t, ans)) && PcOf(z, t).CreateFields?
    ensures ThrInv(GoCreate(z, t, ans))
  {
    hide Inv, StageFits, Unused, Holding, ThreadFits, DataFits, DataStep, Goes;
    var z' := GoCreate(z, t, ans);
    StepsBelow(z, Go(t, ans));
    BetweenCalls(z, t);
    RecThere(z, t);
    FieldsOwn(z, t, ans);
    forall u | u in z'.stage ensures StageFits(z', u) {
      PrivateElsewhere(z, t, PcOf(z, t).data);
      StageSame(z, z', t, u);
    }
    DataKeeps(z, z', t);
  }

  lemma FieldsOwn(z: ThrState, t: Tid, ans: Answer)
    requires ThrInv(z) && CanStep(z, Go(t, ans)) && PcOf(z, t).CreateFields?
    ensures var z' := GoCreate(z, t, ans);
            && t in z'.low.threads && DataStep(z, z', t) && z'.low.threads.Keys == z.low.threads.Keys
            && ThreadFits(PcOf(z', t), z'.low.threads[t], z'.recs.Keys) && DataFits(z', t, PcOf(z', t))
  {
    hide *;
    FieldsData(z, t, ans);
    FieldsFits(z, t, ans);
  }

  lemma FieldsData(z: ThrState, t: Tid, ans: Answer)
    requires ThrInv(z) && CanStep(z, Go(t, ans)) && PcOf(z, t).CreateFields?
    ensures var z' := GoCreate(z, t, ans);
            && t in z'.low.threads && DataStep(z, z', t) && z'.low.threads.Keys == z.low.threads.Keys
  {
    hide StageFits, Unused, Holding, Inv, Start, DataFits, Below, Touching, Core, Above, ThrInv, MayCall, InOp, Uses, Private, Undisturbed, OnCond, Goes;
    OwnFits(z, t);
    KeysKept(z);
    BetweenCalls(z, t);
    RecThere(z, t);
    PrivateElsewhere(z, t, PcOf(z, t).data);
  }

  lemma FieldsFits(z: ThrState, t: Tid, ans: Answer)
    requires ThrInv(z) && CanStep(z, Go(t, ans)) && PcOf(z, t).CreateFields?
    ensures var z' := GoCreate(z, t, ans);
            && t in z'.low.threads
            && ThreadFits(PcOf(z', t), z'.low.threads[t], z'.recs.Keys) && DataFits(z', t, PcOf(z', t))
  {
    hide StageFits, DataStep, Unused, Holding, Inv, Start, ThrInv, Usable, Undisturbed, JoinerFits;
    OwnFits(z, t);
    KeysKept(z);
    BetweenCalls(z, t);
    RecThere(z, t);
    PrivateElsewhere(z, t, PcOf(z, t).data);
  }

  // The thread is published.
  lemma InsertKeeps(z: ThrState, t: Tid, ans: Answer)
    requires ThrInv(z) && CanStep(z, Go(t, ans)) && PcOf(z, t).CreateInsert?
    ensures ThrInv(GoCreate(z, t, ans))
  {
    hide Inv, StageFits, Unused, Holding, ThreadFits, DataFits, DataStep, Goes;
    var z' := GoCreate(z, t, ans);
    StepsBelow(z, Go(t, ans));
    InsertOwn(z, t, ans);
    DataStepOthers(z, z', t);
    PrivateElsewhere(z, t, PcOf(z, t).data);
    forall u | u in z'.stage ensures StageFits(z', u) {
      if u == PcOf(z, t).tid {
        InsertStage(z, t, ans);
      } else {
        StageSame(z, z', t, u);
      }
    }
    DataKeeps(z, z', t);
  }

  lemma InsertOwn(z: ThrState, t: Tid, ans: Answer)
    requires ThrInv(z) && CanStep(z, Go(t, ans)) && PcOf(z, t).CreateInsert?
    ensures var z' := GoCreate(z, t, ans);
            && t in z'.low.threads && DataStep(z, z', t) && z'.low.threads.Keys == z.low.threads.Keys
            && ThreadFits(PcOf(z', t), z'.low.threads[t], z'.recs.Keys) && DataFits(z', t, PcOf(z', t))
  {
    hide *;
    InsertData(z, t, ans);
    InsertFits(z, t, ans);
  }

  lemma InsertData(z: ThrState, t: Tid, ans: Answer)
    requires ThrInv(z) && CanStep(z, Go(t, ans)) && PcOf(z, t).CreateInsert?
    ensures var z' := GoCreate(z, t, ans);
            && t in z'.low.threads && DataStep(z, z', t) && z'.low.threads.Keys == z.low.threads.Keys
  {
    hide ThrInv, GoCreate, CanStep, OthersAsBefore, DataMoves;
    InsertOthers(z, t, ans);
    InsertMoves(z, t, ans);
  }

  lemma InsertOthers(z: ThrState, t: Tid, ans: Answer)
    requires ThrInv(z) && CanStep(z, Go(t, ans)) && PcOf(z, t).CreateInsert?
    ensures var z' := GoCreate(z, t, ans);
            t in z'.low.threads && OthersAsBefore(z, z', t) && z'.low.threads.Keys == z.low.threads.Keys
  {
    hide ThrInv, GoCreate, Unused, Holding, Start, Alive;
    InsertIs(z, t, ans);
    InsertFacts(z, t);
    KeysKept(z);
  }

  lemma InsertMoves(z: ThrState, t: Tid, ans: Answer)
    requires ThrInv(z) && CanStep(z, Go(t, ans)) && PcOf(z, t).CreateInsert?
    ensures t in z.low.threads && DataMoves(z, GoCreate(z, t, ans), t)
  {
    hide ThrInv, GoCreate, Unused, Holding, Start, Alive, OnCond;
    InsertIs(z, t, ans);
    InsertFacts(z, t);
    BetweenCalls(z, t);
    PrivateElsewhere(z, t, PcOf(z, t).data);
  }

  lemma InsertFits(z: ThrState, t: Tid, ans: Answer)
    requires ThrInv(z) && CanStep(z, Go(t, ans)) && PcOf(z, t).CreateInsert?
    ensures var z' := GoCreate(z, t, ans);
            && t in z'.low.threads
            && ThreadFits(PcOf(z', t), z'.low.threads[t], z'.recs.Keys) && DataFits(z', t, PcOf(z', t))
  {
    hide StageFits, DataStep, Unused, Holding, Inv, Start;
    OwnFits(z, t);
    KeysKept(z);
    BetweenCalls(z, t);
    PrivateElsewhere(z, t, PcOf(z, t).data);
  }

  lemma InsertStage(z: ThrState, t: Tid, ans: Answer)
    requires ThrInv(z) && CanStep(z, Go(t, ans)) && PcOf(z, t).CreateInsert?
    ensures PcOf(z, t).tid in z.stage && StageFits(GoCreate(z, t, ans), PcOf(z, t).tid)
  {
    hide ThrInv, GoCreate, Unused, Holding, Inv, Start, Goes, Called, MayCall;
    InsertIs(z, t, ans);
    InsertFacts(z, t);
  }

  lemma InsertIs(z: ThrState, t: Tid, ans: Answer)
    requires t in z.low.threads && PcOf(z, t).CreateInsert?
    ensures var a, u := PcOf(z, t).data, PcOf(z, t).tid;
            GoCreate(z, t, ans) == Goes(z.(list := z.list[u := a], stage := z.stage[u := Listed]), t, Release(LIST_MUTEX), Leave(u))
  {
    hide Goes, Called;
  }

  lemma InsertFacts(z: ThrState, t: Tid)
    requires ThrInv(z) && t in z.low.threads && PcOf(z, t).CreateInsert?
    ensures var a, u := PcOf(z, t).data, PcOf(z, t).tid;
            && Alive(z, a) && z.recs[a] == ThreadRec(false, false, 0) && u in z.stage && z.stage[u] == Pending(t) && u !in z.passed && u !in z.delivered && u !in z.list
  {
    hide Inv, ThreadFits;
    OwnFits(z, t);
    assert StageFits(z, PcOf(z, t).tid);
  }

  // A joiner's record belongs to its thread alone.
  lemma OwnTarget(z: ThrState, t: Tid)
    requires ThrInv(z) && t in z.low.threads && z.low.threads[t].pc.Out?
    requires PcOf(z, t).JoinSleep? || PcOf(z, t).JoinCollect? || PcOf(z, t).JoinRemove?
    ensures var p := PcOf(z, t);
            && p.tid in z.stage && p.tid in z.list && z.list[p.tid] == p.data && p.data in z.recs && p.tid in z.joiner && z.joiner[p.tid] == t
            && (p.JoinRemove? <==> z.stage[p.tid].Ended?) && (!p.JoinRemove? <==> z.stage[p.tid].Listed?)
            && forall u :: u in z.list && u != p.tid ==> z.list[u] != p.data
  {
    hide Inv, ThreadFits, StageFits;
    OwnFits(z, t);
    RecThere(z, t);
  }

  lemma SleepKeeps(z: ThrState, t: Tid, ans: Answer)
    requires ThrInv(z) && CanStep(z, Go(t, ans)) && PcOf(z, t).JoinSleep? && !JustMoves(z, t, ans)
    ensures ThrInv(GoJoin(z, t, ans))
  {
    hide Inv, StageFits, Unused, Holding, ThreadFits, DataFits, DataStep, Goes, Apply, Next, PcOf, NextSignal, GoCreate, MayCall;
    var z' := GoJoin(z, t, ans);
    StepsBelow(z, Go(t, ans));
    OwnTarget(z, t);
    SleepData(z, t, ans);
    SleepFits(z, t, ans);
    DataStepOthers(z, z', t);
    forall u | u in z'.stage ensures StageFits(z', u) {
      if u == PcOf(z, t).tid {
        SleepStage(z, t, ans);
      } else {
        StageSame(z, z', t, u);
      }
    }
    DataKeeps(z, z', t);
  }

  lemma SleepData(z: ThrState, t: Tid, ans: Answer)
    requires ThrInv(z) && CanStep(z, Go(t, ans)) && PcOf(z, t).JoinSleep? && !JustMoves(z, t, ans)
    ensures var z' := GoJoin(z, t, ans);
            DataStep(z, z', t) && z'.low.threads.Keys == z.low.threads.Keys
  {
    hide ThrInv, CanStep, OthersAsBefore, DataMoves, GoJoin;
    SleepDataOthers(z, t, ans);
    SleepDataMoves(z, t, ans);
  }

  lemma SleepDataOthers(z: ThrState, t: Tid, ans: Answer)
    requires ThrInv(z) && CanStep(z, Go(t, ans)) && PcOf(z, t).JoinSleep? && !JustMoves(z, t, ans)
    ensures var z' := GoJoin(z, t, ans);
            OthersAsBefore(z, z', t) && z'.low.threads.Keys == z.low.threads.Keys
  {
    hide ThrInv, Unused, Holding, Inv, Start, OnCond, MayCall, Alive;
    KeysKept(z);
    BetweenCalls(z, t);
    OwnTarget(z, t);
  }

  lemma SleepDataMoves(z: ThrState, t: Tid, ans: Answer)
    requires ThrInv(z) && CanStep(z, Go(t, ans)) && PcOf(z, t).JoinSleep? && !JustMoves(z, t, ans)
    ensures t in z.low.threads && DataMoves(z, GoJoin(z, t, ans), t)
  {
    hide ThrInv, Unused, Holding, Inv, Start, OnCond, MayCall, Alive;
    KeysKept(z);
    BetweenCalls(z, t);
    OwnTarget(z, t);
  }

  lemma SleepFits(z: ThrState, t: Tid, ans: Answer)
    requires ThrInv(z) && CanStep(z, Go(t, ans)) && PcOf(z, t).JoinSleep? && !JustMoves(z, t, ans)
    ensures var z' := GoJoin(z, t, ans);
            t in z'.low.threads && ThreadFits(PcOf(z', t), z'.low.threads[t], z'.recs.Keys) && DataFits(z', t, PcOf(z', t))
  {
    hide StageFits, Unused, Holding, Inv, Start, DataStep, BeforeInsert, Goes;
    OwnFits(z, t);
    BetweenCalls(z, t);
    OwnTarget(z, t);
    StartsBefore(PcOf(z, t).data, LIST_MUTEX);
  }

  lemma StartsBefore(c: Cond, m: Mutex)
    ensures BeforeInsert(Start(Wait(c, m)))
  {
    Unfold(Start(Wait(c, m)));
  }

  lemma SleepStage(z: ThrState, t: Tid, ans: Answer)
    requires ThrInv(z) && CanStep(z, Go(t, ans)) && PcOf(z, t).JoinSleep? && !JustMoves(z, t, ans)
    ensures PcOf(z, t).tid in z.stage && StageFits(GoJoin(z, t, ans), PcOf(z, t).tid)
  {
    hide Unused, Holding, Inv, Start, ThreadFits, DataFits, Goes;
    OwnTarget(z, t);
    assert StageFits(z, PcOf(z, t).tid);
  }

  // The status is delivered, and the condition variable is about to go.
  lemma CollectKeeps(z: ThrState, t: Tid, ans: Answer)
    requires ThrInv(z) && CanStep(z, Go(t, ans)) && PcOf(z, t).JoinCollect?
    ensures ThrInv(GoJoin(z, t, ans))
  {
    hide Inv, StageFits, Unused, Holding, ThreadFits, DataFits, DataStep, Goes, PcOf, Apply;
    var z' := GoJoin(z, t, ans);
    StepsBelow(z, Go(t, ans));
    OwnTarget(z, t);
    CollectData(z, t, ans);
    CollectFits(z, t, ans);
    DataStepOthers(z, z', t);
    forall u | u in z'.stage ensures StageFits(z', u) {
      if u == PcOf(z, t).tid {
        CollectStage(z, t, ans);
      } else {
        StageSame(z, z', t, u);
      }
    }
    DataKeeps(z, z', t);
  }

  lemma CollectData(z: ThrState, t: Tid, ans: Answer)
    requires ThrInv(z) && CanStep(z, Go(t, ans)) && PcOf(z, t).JoinCollect?
    ensures var z' := GoJoin(z, t, ans);
            DataStep(z, z', t) && z'.low.threads.Keys == z.low.threads.Keys
  {
    hide ThrInv, Unused, Holding, Inv, Start, OnCond, MayCall, Alive;
    KeysKept(z);
    BetweenCalls(z, t);
    OwnTarget(z, t);
  }

  lemma CollectFits(z: ThrState, t: Tid, ans: Answer)
    requires ThrInv(z) && CanStep(z, Go(t, ans)) && PcOf(z, t).JoinCollect?
    ensures var z' := GoJoin(z, t, ans);
            t in z'.low.threads && ThreadFits(PcOf(z', t), z'.low.threads[t], z'.recs.Keys) && DataFits(z', t, PcOf(z', t))
  {
    hide StageFits, Unused, Holding, Inv, Start, DataStep, BeforeInsert, Goes, Undisturbed;
    OwnFits(z, t);
    BetweenCalls(z, t);
    OwnTarget(z, t);
  }

  lemma CollectStage(z: ThrState, t: Tid, ans: Answer)
    requires ThrInv(z) && CanStep(z, Go(t, ans)) && PcOf(z, t).JoinCollect?
    ensures PcOf(z, t).tid in z.stage && StageFits(GoJoin(z, t, ans), PcOf(z, t).tid)
  {
    hide Unused, Holding, Inv, Start, ThreadFits, DataFits, Goes;
    OwnTarget(z, t);
    Collects(z, t);
  }

  // The thread leaves the list and its record is freed.
  lemma RemoveKeeps(z: ThrState, t: Tid, ans: Answer)
    requires ThrInv(z) && CanStep(z, Go(t, ans)) && PcOf(z, t).JoinRemove? && ans.ok
    ensures ThrInv(GoJoin(z, t, ans))
  {
    hide Inv, StageFits, Unused, Holding, ThreadFits, DataFits, DataStep, Goes, PcOf, Next, Apply, Usable, GoExit, NextSignal, Allowed, InWait, InMutex, Called, NextMutex, Goto, InDestroy, MayCall, Start, Fails, Count;
    var z' := GoJoin(z, t, ans);
    StepsBelow(z, Go(t, ans));
    OwnTarget(z, t);
    RemoveData(z, t, ans);
    RemoveFits(z, t, ans);
    DataStepOthers(z, z', t);
    forall u | u in z'.stage ensures StageFits(z', u) {
      if u == PcOf(z, t).tid {
        RemoveStage(z, t, ans);
      } else {
        StageSame(z, z', t, u);
      }
    }
    DataKeeps(z, z', t);
  }

  lemma RemoveData(z: ThrState, t: Tid, ans: Answer)
    requires ThrInv(z) && CanStep(z, Go(t, ans)) && PcOf(z, t).JoinRemove? && ans.ok
    ensures var z' := GoJoin(z, t, ans);
            DataStep(z, z', t) && z'.low.threads.Keys == z.low.threads.Keys
  {
    hide ThrInv, CanStep, OthersAsBefore, DataMoves, GoJoin;
    RemoveDataOthers(z, t, ans);
    RemoveDataMoves(z, t, ans);
  }

  lemma RemoveDataOthers(z: ThrState, t: Tid, ans: Answer)
    requires ThrInv(z) && CanStep(z, Go(t, ans)) && PcOf(z, t).JoinRemove? && ans.ok
    ensures var z' := GoJoin(z, t, ans);
            OthersAsBefore(z, z', t) && z'.low.threads.Keys == z.low.threads.Keys
  {
    hide ThrInv, Unused, Holding, Inv, Start, OnCond, MayCall, Alive;
    KeysKept(z);
    BetweenCalls(z, t);
    OwnTarget(z, t);
  }

  lemma RemoveDataMoves(z: ThrState, t: Tid, ans: Answer)
    requires ThrInv(z) && CanStep(z, Go(t, ans)) && PcOf(z, t).JoinRemove? && ans.ok
    ensures t in z.low.threads && DataMoves(z, GoJoin(z, t, ans), t)
  {
    hide ThrInv, Unused, Holding, Inv, Start, OnCond, MayCall, Alive;
    KeysKept(z);
    BetweenCalls(z, t);
    OwnTarget(z, t);
  }

  lemma RemoveFits(z: ThrState, t: Tid, ans: Answer)
    requires ThrInv(z) && CanStep(z, Go(t, ans)) && PcOf(z, t).JoinRemove? && ans.ok
    ensures var z' := GoJoin(z, t, ans);
            t in z'.low.threads && ThreadFits(PcOf(z', t), z'.low.threads[t], z'.recs.Keys) && DataFits(z', t, PcOf(z', t))
  {
    hide StageFits, Unused, Holding, Inv, Start, DataStep, Goes;
    OwnFits(z, t);
    BetweenCalls(z, t);
    OwnTarget(z, t);
  }

  lemma RemoveStage(z: ThrState, t: Tid, ans: Answer)
    requires ThrInv(z) && CanStep(z, Go(t, ans)) && PcOf(z, t).JoinRemove? && ans.ok
    ensures PcOf(z, t).tid in z.stage && StageFits(GoJoin(z, t, ans), PcOf(z, t).tid)
  {
    hide Unused, Holding, Inv, Start, ThreadFits, DataFits, Goes;
    OwnTarget(z, t);
    assert StageFits(z, PcOf(z, t).tid);
  }

  // thr_exit leaves the status for the joiner.
  lemma ExitKeeps(z: ThrState, t: Tid, ans: Answer)
    requires ThrInv(z) && CanStep(z, Go(t, ans)) && PcOf(z, t).ExitEnter?
    ensures ThrInv(GoExit(z, t))
  {
    hide Inv, StageFits, Unused, Holding, ThreadFits, DataFits, DataStep, Goes;
    var z' := GoExit(z, t);
    StepsBelow(z, Go(t, ans));
    ExitTarget(z, t);
    ExitData(z, t, ans);
    ExitFits(z, t, ans);
    ExitStages(z, t, ans);
    DataKeeps(z, z', t);
  }

  lemma ExitStages(z: ThrState, t: Tid, ans: Answer)
    requires ThrInv(z) && CanStep(z, Go(t, ans)) && PcOf(z, t).ExitEnter?
    ensures t in z.low.threads && forall u :: u in GoExit(z, t).stage ==> StageFits(GoExit(z, t), u)
  {
    hide Inv, StageFits, Unused, Holding, ThreadFits, DataFits, DataStep, Goes, CanStep, OthersAsBefore, DataMoves;
    var z' := GoExit(z, t);
    BetweenCallsGo(z, t, ans);
    ExitTarget(z, t);
    ExitIs(z, t);
    ExitData(z, t, ans);
    DataStepOthers(z, z', t);
    forall u | u in z'.stage ensures StageFits(z', u) {
      if u == t {
        ExitStage(z, t, ans);
      } else {
        StageSame(z, z', t, u);
      }
    }
  }

  lemma ExitTarget(z: ThrState, t: Tid)
    requires ThrInv(z) && t in z.low.threads && z.low.threads[t].pc.Out? && PcOf(z, t).ExitEnter?
    ensures t in z.list && t in z.stage && z.stage[t].Listed? && z.list[t] in z.recs && t !in z.passed
    ensures forall u :: u in z.list && u != t ==> z.list[u] != z.list[t]
  {
    hide Inv, ThreadFits, StageFits;
    OwnFits(z, t);
    RecThere(z, t);
    MaySignal(z, t);
  }

  lemma ExitData(z: ThrState, t: Tid, ans: Answer)
    requires ThrInv(z) && CanStep(z, Go(t, ans)) && PcOf(z, t).ExitEnter?
    ensures var z' := GoExit(z, t);
            DataStep(z, z', t) && z'.low.threads.Keys == z.low.threads.Keys
  {
    hide ThrInv, CanStep, OthersAsBefore, DataMoves, GoExit;
    ExitDataOthers(z, t, ans);
    ExitDataMoves(z, t, ans);
  }

  // What the first step of thr_exit leaves as it was.
  lemma ExitIs(z: ThrState, t: Tid)
    requires t in z.low.threads && PcOf(z, t).ExitEnter? && t in z.list && z.list[t] in z.recs
    ensures var z' := GoExit(z, t);
            && z'.low == Called(z.low, t, Signal(z.list[t], false)) && z'.pc == z.pc[t := ExitUnlock(z.list[t])] && z'.list == z.list
            && z'.stage == z.stage && z'.joiner == z.joiner && z'.delivered == z.delivered && z'.passed.Keys == z.passed.Keys + {t}
  {
    hide Called, Start;
  }

  lemma ExitDataOthers(z: ThrState, t: Tid, ans: Answer)
    requires ThrInv(z) && CanStep(z, Go(t, ans)) && PcOf(z, t).ExitEnter?
    ensures var z' := GoExit(z, t);
            OthersAsBefore(z, z', t) && z'.low.threads.Keys == z.low.threads.Keys
  {
    hide ThrInv, CanStep, GoExit, Goes, Start, Called;
    KeysKept(z);
    BetweenCallsGo(z, t, ans);
    ExitTarget(z, t);
    ExitIs(z, t);
  }

  lemma ExitDataMoves(z: ThrState, t: Tid, ans: Answer)
    requires ThrInv(z) && CanStep(z, Go(t, ans)) && PcOf(z, t).ExitEnter?
    ensures t in z.low.threads && DataMoves(z, GoExit(z, t), t)
  {
    hide ThrInv, Unused, Holding, Inv, Start, OnCond, MayCall, Alive;
    KeysKept(z);
    BetweenCalls(z, t);
    ExitTarget(z, t);
  }

  lemma ExitFits(z: ThrState, t: Tid, ans: Answer)
    requires ThrInv(z) && CanStep(z, Go(t, ans)) && PcOf(z, t).ExitEnter?
    ensures var z' := GoExit(z, t);
            t in z'.low.threads && ThreadFits(PcOf(z', t), z'.low.threads[t], z'.recs.Keys) && DataFits(z', t, PcOf(z', t))
  {
    hide StageFits, Unused, Holding, Inv, Start, DataStep, Goes;
    OwnFits(z, t);
    BetweenCalls(z, t);
    ExitTarget(z, t);
  }

  lemma ExitStage(z: ThrState, t: Tid, ans: Answer)
    requires ThrInv(z) && CanStep(z, Go(t, ans)) && PcOf(z, t).ExitEnter?
    ensures t in z.stage && StageFits(GoExit(z, t), t)
  {
    hide Unused, Holding, Inv, Start, ThreadFits, DataFits, Goes;
    ExitTarget(z, t);
    assert StageFits(z, t);
  }

  lemma GoKeeps(z: ThrState, t: Tid, ans: Answer)
    requires ThrInv(z) && CanStep(z, Go(t, ans))
    ensures ThrInv(GoOn(z, t, ans))
  {
    hide ThrInv, CanStep, GoCreate, GoJoin, GoExit;
    var p := PcOf(z, t);
    GoPlaces(z, t, ans);
    if Creating(p) {
      if JustMoves(z, t, ans) { CreateMoves(z, t, ans); }
      else if p.CreateAlloc? { AllocKeeps(z, t, ans); }
      else if p.CreateFork? { ForkKeeps(z, t, ans); }
      else if p.CreateUndo? { UndoKeeps(z, t, ans); }
      else if p.CreateFields? { FieldsKeeps(z, t, ans); }
      else { InsertKeeps(z, t, ans); }
    } else if Joining(p) {
      if JustMoves(z, t, ans) { JoinMoves(z, t, ans); }
      else if p.JoinSleep? { SleepKeeps(z, t, ans); }
      else if p.JoinCollect? { CollectKeeps(z, t, ans); }
      else { RemoveKeeps(z, t, ans); }
    } else if p.ExitEnter? {
      ExitKeeps(z, t, ans);
    } else {
      ExitMoves(z, t, ans);
    }
  }

  lemma GoPlaces(z: ThrState, t: Tid, ans: Answer)
    requires CanStep(z, Go(t, ans))
    ensures t in z.low.threads && !PcOf(z, t).Away? && !PcOf(z, t).Gone? && !PcOf(z, t).Broken?
    ensures Creating(PcOf(z, t)) || Joining(PcOf(z, t)) || PcOf(z, t).ExitEnter? || PcOf(z, t).ExitUnlock? || PcOf(z, t).ExitVanish? || PcOf(z, t).Leave?
  {
  }

  lemma ThrStepKeeps(z: ThrState, st: Step)
    requires ThrInv(z) && CanStep(z, st)
    ensures ThrInv(After(z, st))
  {
    hide ThrInv, GoOn, Goes, Apply, Allowed, MayCall, Unused;
    match st
    case Inner(t, a) => InnerKeeps(z, t, a);
    case Other(x) => if x.Init? { OtherInitKeeps(z, x.c); } else { OtherKeeps(z, x); }
    case Create(_, _) => EnterKeeps(z, st);
    case Join(t, u) => JoinEnterKeeps(z, t, u);
    case Exit(_, _) => EnterKeeps(z, st);
    case Go(t, ans) => GoKeeps(z, t, ans);
  }

  // ------------------------------------------------------------------ what holds in every run

  // What thr_init leaves behind: the root thread is listed.
  ghost predicate Started(z: ThrState, root: Tid, a: Addr) {
    && z.low == State(map[root := Local(Idle, Out, {})], {}, {a}, map[a := []], map[], {}, map[a := []], map[a := []])
    && z == ThrState(z.low, map[a := ThreadRec(false, false, 0)], map[root := a], map[], map[root := Listed], map[], map[], map[])
  }

  ghost predicate IsThrRun(zs: seq<ThrState>, sts: seq<Step>) {
    && |zs| == |sts| + 1 && (exists root, a :: Started(zs[0], root, a))
    && (forall i :: 0 <= i < |sts| ==> CanStep(zs[i], sts[i]) && zs[i + 1] == After(zs[i], sts[i]))
  }

  lemma StartedInv(z: ThrState, root: Tid, a: Addr)
    requires Started(z, root, a)
    ensures ThrInv(z)
    ensures Initial(z.low.(queue := map[], ready := {}, came := map[], served := map[]))
    ensures z.low == Apply(z.low.(queue := map[], ready := {}, came := map[], served := map[]), Init(a))
  {
    hide Inv, Fits;
    var s := z.low.(queue := map[], ready := {}, came := map[], served := map[]);
    InitialInv(s);
    assert s.queue[a := []] == z.low.queue && s.ready + {a} == z.low.ready && s.came[a := []] == z.low.came;
    StepKeeps(s, Init(a));
  }

  lemma {:induction false} ThrRunInv(zs: seq<ThrState>, sts: seq<Step>, k: nat)
    requires IsThrRun(zs, sts) && k < |zs|
    ensures ThrInv(zs[k])
  {
    hide ThrInv, After, CanStep, Started;
    if k == 0 {
      var root, a :| Started(zs[0], root, a);
      StartedInv(zs[0], root, a);
    } else {
      ThrRunInv(zs, sts, k - 1);
      assert CanStep(zs[k - 1], sts[k - 1]) && zs[k - 1 + 1] == After(zs[k - 1], sts[k - 1]);
      ThrStepKeeps(zs[k - 1], sts[k - 1]);
    }
  }

  // No list_find ever fails, and no thread_t is used after it was freed.
  lemma NothingBreaks(zs: seq<ThrState>, sts: seq<Step>, k: nat, t: Tid)
    requires IsThrRun(zs, sts) && k < |zs| && t in zs[k].low.threads
    ensures !PcOf(zs[k], t).Broken?
  {
    hide ThrInv, IsThrRun;
    ThrRunInv(zs, sts, k);
    NamedHere(zs[k], t);
  }

  // When thr_join goes on to collect the status, the thread has called thr_exit, and the status in its
  // record is the one it passed; the single if around cond_wait is enough.
  lemma JoinAfterExit(zs: seq<ThrState>, sts: seq<Step>, k: nat, t: Tid)
    requires IsThrRun(zs, sts) && k < |zs| && t in zs[k].low.threads && zs[k].low.threads[t].pc.Out? && PcOf(zs[k], t).JoinCollect?
    ensures var p := PcOf(zs[k], t);
            && p.tid in zs[k].passed && p.data in zs[k].recs && zs[k].recs[p.data].exited
            && zs[k].recs[p.data].status == zs[k].passed[p.tid]
  {
    hide ThrInv, IsThrRun;
    ThrRunInv(zs, sts, k);
    Collects(zs[k], t);
  }

  // What thr_join delivers for a thread is what that thread passed to thr_exit, now and ever after.
  lemma {:induction false} DeliversStatus(zs: seq<ThrState>, sts: seq<Step>, i: nat, k: nat, u: Tid)
    requires IsThrRun(zs, sts) && i <= k < |zs|
    ensures u in zs[i].delivered ==> u in zs[i].passed && zs[i].delivered[u] == zs[i].passed[u]
    ensures u in zs[i].delivered ==> u in zs[k].delivered && zs[k].delivered[u] == zs[i].delivered[u]
    ensures u in zs[i].passed ==> u in zs[k].passed && zs[k].passed[u] == zs[i].passed[u]
    decreases k
  {
    hide ThrInv, After, CanStep, Started;
    ThrRunInv(zs, sts, i);
    if u in zs[i].delivered {
      Delivered(zs[i], u);
    }
    if i < k {
      DeliversStatus(zs, sts, i, k - 1, u);
      ThrRunInv(zs, sts, k - 1);
      assert CanStep(zs[k - 1], sts[k - 1]) && zs[k - 1 + 1] == After(zs[k - 1], sts[k - 1]);
      HistoryKept(zs[k - 1], sts[k - 1], u);
    }
  }

  lemma Delivered(z: ThrState, u: Tid)
    requires ThrInv(z) && u in z.delivered
    ensures u in z.stage && z.stage[u].Ended? && u in z.passed && z.delivered[u] == z.passed[u]
  {
    assert StageFits(z, u);
  }

  lemma HistoryKept(z: ThrState, st: Step, u: Tid)
    requires ThrInv(z) && CanStep(z, st)
    ensures u in z.passed ==> u in After(z, st).passed && After(z, st).passed[u] == z.passed[u]
    ensures u in z.delivered ==> u in After(z, st).delivered && After(z, st).delivered[u] == z.delivered[u]
  {
    hide ThrInv, Unused, Goes, MayCall, GoCreate, GoJoin, GoExit, Apply, Allowed;
    if st.Go? {
      GoPlaces(z, st.t, st.ans);
      BetweenCallsGo(z, st.t, st.ans);
      CreateHistory(z, st.t, st.ans);
      JoinHistory(z, st.t, st.ans, u);
      ExitHistory(z, st.t, u);
    }
  }

  lemma BetweenCallsGo(z: ThrState, t: Tid, ans: Answer)
    requires CanStep(z, Go(t, ans))
    ensures z.low.threads[t].pc.Out?
  {
  }

  lemma CreateHistory(z: ThrState, t: Tid, ans: Answer)
    requires t in z.low.threads
    ensures GoCreate(z, t, ans).passed == z.passed && GoCreate(z, t, ans).delivered == z.delivered
  {
    hide GoCreate;
    if PcOf(z, t).CreateAlloc? || PcOf(z, t).CreateFork? || PcOf(z, t).CreateInsert? {
      CreateHistoryGrow(z, t, ans);
    } else if PcOf(z, t).CreateUndo? || PcOf(z, t).CreateFields? {
      CreateHistoryData(z, t, ans);
    } else {
      CreateHistoryMove(z, t, ans);
    }
  }

  lemma CreateHistoryData(z: ThrState, t: Tid, ans: Answer)
    requires t in z.low.threads && (PcOf(z, t).CreateUndo? || PcOf(z, t).CreateFields?)
    ensures GoCreate(z, t, ans).passed == z.passed && GoCreate(z, t, ans).delivered == z.delivered
  {
    hide Goes, Called;
  }

  lemma CreateHistoryMove(z: ThrState, t: Tid, ans: Answer)
    requires t in z.low.threads && !PcOf(z, t).CreateAlloc? && !PcOf(z, t).CreateFork? && !PcOf(z, t).CreateInsert?
    requires !PcOf(z, t).CreateUndo? && !PcOf(z, t).CreateFields?
    ensures GoCreate(z, t, ans).passed == z.passed && GoCreate(z, t, ans).delivered == z.delivered
  {
    hide Goes, Called, Start;
  }

  lemma CreateHistoryGrow(z: ThrState, t: Tid, ans: Answer)
    requires t in z.low.threads && (PcOf(z, t).CreateAlloc? || PcOf(z, t).CreateFork? || PcOf(z, t).CreateInsert?)
    ensures GoCreate(z, t, ans).passed == z.passed && GoCreate(z, t, ans).delivered == z.delivered
  {
    hide Goes, Called;
  }

  lemma JoinHistory(z: ThrState, t: Tid, ans: Answer, u: Tid)
    requires ThrInv(z) && t in z.low.threads && z.low.threads[t].pc.Out?
    ensures GoJoin(z, t, ans).passed == z.passed
    ensures u in z.delivered ==> u in GoJoin(z, t, ans).delivered && GoJoin(z, t, ans).delivered[u] == z.delivered[u]
  {
    hide ThrInv, Goes, GoJoin;
    if PcOf(z, t).JoinCollect? {
      OwnTarget(z, t);
      if u in z.delivered {
        Delivered(z, u);
      }
      CollectHistory(z, t, ans);
    } else if PcOf(z, t).JoinSleep? || PcOf(z, t).JoinRemove? {
      JoinHistoryData(z, t, ans);
    } else {
      JoinHistoryMove(z, t, ans);
    }
  }

  lemma JoinHistoryData(z: ThrState, t: Tid, ans: Answer)
    requires t in z.low.threads && (PcOf(z, t).JoinSleep? || PcOf(z, t).JoinRemove?)
    ensures GoJoin(z, t, ans).passed == z.passed && GoJoin(z, t, ans).delivered == z.delivered
  {
    hide Goes, Called;
  }

  lemma JoinHistoryMove(z: ThrState, t: Tid, ans: Answer)
    requires t in z.low.threads && !PcOf(z, t).JoinCollect? && !PcOf(z, t).JoinSleep? && !PcOf(z, t).JoinRemove?
    ensures GoJoin(z, t, ans).passed == z.passed && GoJoin(z, t, ans).delivered == z.delivered
  {
    hide Goes, Called;
  }

  lemma CollectHistory(z: ThrState, t: Tid, ans: Answer)
    requires t in z.low.threads && PcOf(z, t).JoinCollect? && PcOf(z, t).data in z.recs
    ensures GoJoin(z, t, ans).passed == z.passed
    ensures GoJoin(z, t, ans).delivered == z.delivered[PcOf(z, t).tid := z.recs[PcOf(z, t).data].status]
  {
    hide Goes, Called;
  }

  lemma ExitHistory(z: ThrState, t: Tid, u: Tid)
    requires ThrInv(z) && t in z.low.threads && z.low.threads[t].pc.Out?
    ensures GoExit(z, t).delivered == z.delivered
    ensures u in z.passed ==> u in GoExit(z, t).passed && GoExit(z, t).passed[u] == z.passed[u]
  {
    hide ThrInv, Goes;
    BetweenCalls(z, t);
  }

  // The only caller of thr_join for a thread is never turned away by joinedFlag, and the record that it
  // frees is allocated and no one else's; afterwards the thread is not in the list any more.
  lemma JoinFreesOnce(zs: seq<ThrState>, sts: seq<Step>, k: nat, t: Tid)
    requires IsThrRun(zs, sts) && k < |zs| && t in zs[k].low.threads && zs[k].low.threads[t].pc.Out?
    ensures PcOf(zs[k], t).JoinTest? ==> PcOf(zs[k], t).data in zs[k].recs && !zs[k].recs[PcOf(zs[k], t).data].joined
    ensures PcOf(zs[k], t).JoinRemove? ==>
              var p := PcOf(zs[k], t);
              && p.tid in zs[k].list && zs[k].list[p.tid] == p.data && p.data in zs[k].recs
              && (forall u :: u in zs[k].list && u != p.tid ==> zs[k].list[u] != p.data)
              && (forall x :: x in zs[k].low.threads && x != t ==> !PcOf(zs[k], x).JoinRemove? && !PcOf(zs[k], x).CreateUndo?)
  {
    hide ThrInv, IsThrRun;
    ThrRunInv(zs, sts, k);
    if PcOf(zs[k], t).JoinTest? {
      NotJoined(zs[k], t);
    } else if PcOf(zs[k], t).JoinRemove? {
      OwnTarget(zs[k], t);
      BetweenCalls(zs[k], t);
      forall x | x in zs[k].low.threads && x != t ensures !PcOf(zs[k], x).JoinRemove? && !PcOf(zs[k], x).CreateUndo? {
        NotInside(zs[k], t, x);
      }
    }
  }

  lemma InsideHolds(z: ThrState, x: Tid)
    requires ThrInv(z) && x in z.low.threads && Inside(PcOf(z, x))
    ensures Holding(z.low.threads[x].held)
  {
    hide Inv, DataFits, StageFits, Holding;
    OwnFits(z, x);
  }

  // thr_create, thr_join and thr_exit work on the list one at a time.
  lemma OneInside(zs: seq<ThrState>, sts: seq<Step>, k: nat, t: Tid, x: Tid)
    requires IsThrRun(zs, sts) && k < |zs| && t in zs[k].low.threads && x in zs[k].low.threads
    requires Inside(PcOf(zs[k], t)) && Inside(PcOf(zs[k], x))
    ensures x == t
  {
    hide ThrInv, IsThrRun, Holding;
    ThrRunInv(zs, sts, k);
    InsideHolds(zs[k], t);
    InsideHolds(zs[k], x);
    OneHolds(zs[k], t, x);
  }

  // Every run of the thread library is a run of the lower machine.
  lemma {:induction false} Projects(zs: seq<ThrState>, sts: seq<Step>, k: nat) returns (tr: seq<State>, xs: seq<Label>)
    requires IsThrRun(zs, sts) && k < |zs|
    ensures IsRun(tr, xs) && tr[|tr| - 1] == zs[k].low
  {
    hide ThrInv, After, CanStep, Allowed, Apply, Initial, Started;
    if k == 0 {
      var root, a :| Started(zs[0], root, a);
      StartedInv(zs[0], root, a);
      var s := zs[0].low.(queue := map[], ready := {}, came := map[], served := map[]);
      FirstStep(s, a);
      tr, xs := [s, zs[0].low], [Init(a)];
    } else {
      ThrRunInv(zs, sts, k - 1);
      var tr0, xs0 := Projects(zs, sts, k - 1);
      assert CanStep(zs[k - 1], sts[k - 1]) && zs[k - 1 + 1] == After(zs[k - 1], sts[k - 1]);
      var ys := LowLabels(zs[k - 1], sts[k - 1]);
      if ys == [] {
        tr, xs := tr0, xs0;
      } else {
        tr, xs := tr0 + [zs[k].low], xs0 + ys;
        RunLonger(tr0, xs0, ys[0]);
      }
    }
  }

  lemma FirstStep(s: State, a: Addr)
    requires Initial(s)
    ensures Allowed(s, Init(a)) && IsRun([s, Apply(s, Init(a))], [Init(a)])
  {
  }

  // ------------------------------------------------------------------ what thread groups rely on

  // The library calls operations on no other mutex and condition variables than its own.
  lemma CallsOwn(z: ThrState, t: Tid, ans: Answer)
    requires ThrInv(z) && CanStep(z, Go(t, ans))
    ensures var op := NextCall(z, t, ans);
            && (OnCond(op) ==> op.cond in z.recs)
            && (op.Acquire? || op.Release? || op.Wait? ==> op.mutex == LIST_MUTEX)
  {
    hide ThrInv, Unused;
    BetweenCallsGo(z, t, ans);
    RecThere(z, t);
    if PcOf(z, t).CreateFork? {
      ForkRec(z, t);
    }
  }

  lemma ForkRec(z: ThrState, t: Tid)
    requires ThrInv(z) && t in z.low.threads && PcOf(z, t).CreateFork?
    ensures PcOf(z, t).data in z.recs
  {
    hide Inv, StageFits, ThreadFits;
    OwnFits(z, t);
  }

  // How a thread moves through the library.
  ghost predicate PcMoves(p: ThrPc, p': ThrPc, ans: Answer) {
    match p
    case CreateEnter(isNull) => p' == if isNull then Leave(-1) else CreatePages
    case CreatePages => p' == if ans.ok then CreateAlloc else Leave(-1)
    case CreateAlloc => p' == if ans.ok then CreateFork(ans.addr) else Leave(-1)
    case CreateFork(a) => p' == if ans.ok then CreateFields(a, ans.tid) else CreateUndo(a)
    case CreateUndo(_) => p' == CreateFail
    case CreateFail => p' == Leave(-1)
    case CreateFields(a, u) => p' == CreateInsert(a, u)
    case CreateInsert(_, u) => p' == Leave(u)
    case JoinEnter(u) => p'.JoinTest? && p'.tid == u
    case JoinTest(u, a) => p' == JoinSleep(u, a)
    case JoinSleep(u, a) => p' == JoinCollect(u, a)
    case JoinCollect(u, a) => p' == JoinRemove(u, a)
    case JoinRemove(_, _) => p' == if ans.ok then JoinFree else Leave(-1)
    case JoinFree => p' == JoinDone
    case JoinDone => p' == Leave(0)
    case ExitEnter(_) => p'.ExitUnlock?
    case ExitUnlock(_) => p' == ExitVanish
    case ExitVanish => p' == Gone
    case Leave(_) => p' == Away
    case _ => false
  }

  lemma GoMoves(z: ThrState, t: Tid, ans: Answer)
    requires ThrInv(z) && CanStep(z, Go(t, ans))
    ensures PcMoves(PcOf(z, t), PcOf(GoOn(z, t, ans), t), ans)
  {
    hide ThrInv, Unused, GoCreate, GoJoin, GoExit, PcMoves;
    BetweenCallsGo(z, t, ans);
    RecThere(z, t);
    if Creating(PcOf(z, t)) {
      CreatePc(z, t, ans);
    } else if Joining(PcOf(z, t)) {
      if PcOf(z, t).JoinTest? {
        NotJoined(z, t);
      }
      JoinPc(z, t, ans);
    } else {
      ExitPc(z, t, ans);
    }
  }

  lemma CreatePc(z: ThrState, t: Tid, ans: Answer)
    requires t in z.low.threads && Creating(PcOf(z, t)) && (PcOf(z, t).CreateFields? ==> PcOf(z, t).data in z.recs)
    ensures PcMoves(PcOf(z, t), PcOf(GoCreate(z, t, ans), t), ans)
  {
    hide Goes, Called;
    if PcOf(z, t).CreateAlloc? || PcOf(z, t).CreateFork? || PcOf(z, t).CreateUndo? || PcOf(z, t).CreateFields? {
      CreatePcData(z, t, ans) by { hide GoCreate; }
    } else {
      CreatePcMove(z, t, ans) by { hide GoCreate; }
    }
  }

  lemma CreatePcData(z: ThrState, t: Tid, ans: Answer)
    requires t in z.low.threads && (PcOf(z, t).CreateFields? ==> PcOf(z, t).data in z.recs)
    requires PcOf(z, t).CreateAlloc? || PcOf(z, t).CreateFork? || PcOf(z, t).CreateUndo? || PcOf(z, t).CreateFields?
    ensures PcMoves(PcOf(z, t), PcOf(GoCreate(z, t, ans), t), ans)
  {
    hide Goes, Called;
  }

  lemma CreatePcMove(z: ThrState, t: Tid, ans: Answer)
    requires t in z.low.threads && Creating(PcOf(z, t))
    requires !PcOf(z, t).CreateAlloc? && !PcOf(z, t).CreateFork? && !PcOf(z, t).CreateUndo? && !PcOf(z, t).CreateFields?
    ensures PcMoves(PcOf(z, t), PcOf(GoCreate(z, t, ans), t), ans)
  {
    hide Goes, Called;
  }

  lemma JoinPc(z: ThrState, t: Tid, ans: Answer)
    requires t in z.low.threads && Joining(PcOf(z, t))
    requires var p := PcOf(z, t);
             && (p.JoinTest? || p.JoinSleep? || p.JoinCollect? || p.JoinRemove? ==> p.data in z.recs)
             && (p.JoinRemove? || p.JoinEnter? ==> p.tid in z.list) && (p.JoinTest? ==> !z.recs[p.data].joined)
    ensures PcMoves(PcOf(z, t), PcOf(GoJoin(z, t, ans), t), ans)
  {
    hide Goes, Called;
  }

  lemma ExitPc(z: ThrState, t: Tid, ans: Answer)
    requires CanStep(z, Go(t, ans)) && !Creating(PcOf(z, t)) && !Joining(PcOf(z, t))
    requires PcOf(z, t).ExitEnter? ==> t in z.list && z.list[t] in z.recs
    ensures PcMoves(PcOf(z, t), PcOf(GoExit(z, t), t), ans)
  {
    hide Goes, Called;
  }

  // A step of t in the library leaves the other threads where they are.
  lemma GoAlone(z: ThrState, t: Tid, ans: Answer)
    requires ThrInv(z) && CanStep(z, Go(t, ans))
    ensures var z' := GoOn(z, t, ans);
            && z'.low.threads.Keys == z.low.threads.Keys + (if PcOf(z, t).CreateFork? && ans.ok then {ans.tid} else {})
            && (forall x :: x in z.low.threads && x != t ==> z'.low.threads[x] == z.low.threads[x] && PcOf(z', x) == PcOf(z, x))
            && z'.low.threads[t].held == z.low.threads[t].held
            && z'.low.threads[t].op == (if NextCall(z, t, ans).Idle? then Idle else NextCall(z, t, ans))
            && (PcOf(z, t).CreateFork? && ans.ok ==> z'.low.threads[ans.tid] == Local(Idle, Out, {}) && PcOf(z', ans.tid).Away?)
  {
    hide ThrInv, Unused, GoOn, NextCall, Called;
    BetweenCallsGo(z, t, ans);
    BetweenCalls(z, t);
    KeysKept(z);
    GoLowAll(z, t, ans);
    GoPcAlone(z, t, ans);
  }

  lemma GoLowAll(z: ThrState, t: Tid, ans: Answer)
    requires ThrInv(z) && CanStep(z, Go(t, ans))
    ensures var s, s' := z.low, GoOn(z, t, ans).low;
            if PcOf(z, t).CreateFork? && ans.ok then ans.tid !in s.threads && s'.threads == s.threads[ans.tid := Local(Idle, Out, {})] && NextCall(z, t, ans).Idle?
            else if NextCall(z, t, ans).Idle? then s'.threads == s.threads
            else s'.threads == s.threads[t := Local(NextCall(z, t, ans), Start(NextCall(z, t, ans)), s.threads[t].held)]
  {
    hide ThrInv, Unused, GoOn, Start;
    if PcOf(z, t).CreateAlloc? && ans.ok {
      AllocLow(z, t, ans);
    } else if PcOf(z, t).CreateFork? && ans.ok {
      ForkLow(z, t, ans);
    } else {
      GoLow(z, t, ans);
    }
  }

  lemma GoPcAlone(z: ThrState, t: Tid, ans: Answer)
    requires ThrInv(z) && CanStep(z, Go(t, ans))
    ensures GoOn(z, t, ans).pc == z.pc[t := PcOf(GoOn(z, t, ans), t)]
  {
    hide ThrInv, Unused, GoCreate, GoJoin, GoExit;
    GoPlaces(z, t, ans);
    if Creating(PcOf(z, t)) { PcAloneCreate(z, t, ans); }
    else if Joining(PcOf(z, t)) { PcAloneJoin(z, t, ans); }
    else { PcAloneExit(z, t); }
  }

  lemma PcAloneCreate(z: ThrState, t: Tid, ans: Answer)
    requires t in z.low.threads && Creating(PcOf(z, t))
    ensures t in GoCreate(z, t, ans).pc && GoCreate(z, t, ans).pc == z.pc[t := GoCreate(z, t, ans).pc[t]]
  {
    hide GoCreate;
    if PcOf(z, t).CreateAlloc? || PcOf(z, t).CreateFork? || PcOf(z, t).CreateInsert? {
      PcAloneCreateData(z, t, ans);
    } else {
      PcAloneCreateMove(z, t, ans);
    }
  }

  lemma PcAloneCreateData(z: ThrState, t: Tid, ans: Answer)
    requires t in z.low.threads && (PcOf(z, t).CreateAlloc? || PcOf(z, t).CreateFork? || PcOf(z, t).CreateInsert?)
    ensures t in GoCreate(z, t, ans).pc && GoCreate(z, t, ans).pc == z.pc[t := GoCreate(z, t, ans).pc[t]]
  {
    hide Goes, Called;
  }

  lemma PcAloneCreateMove(z: ThrState, t: Tid, ans: Answer)
    requires t in z.low.threads && Creating(PcOf(z, t)) && !PcOf(z, t).CreateAlloc? && !PcOf(z, t).CreateFork? && !PcOf(z, t).CreateInsert?
    ensures t in GoCreate(z, t, ans).pc && GoCreate(z, t, ans).pc == z.pc[t := GoCreate(z, t, ans).pc[t]]
  {
    hide GoCreate, PcOf;
    if PcOf(z, t).CreateEnter? || PcOf(z, t).CreatePages? { PcAloneCreateFirst(z, t, ans); } else { PcAloneCreateLast(z, t, ans); }
  }

  lemma PcAloneCreateFirst(z: ThrState, t: Tid, ans: Answer)
    requires t in z.low.threads && (PcOf(z, t).CreateEnter? || PcOf(z, t).CreatePages?)
    ensures t in GoCreate(z, t, ans).pc && GoCreate(z, t, ans).pc == z.pc[t := GoCreate(z, t, ans).pc[t]]
  {
    hide Goes, Called, PcOf, Start;
  }

  lemma PcAloneCreateLast(z: ThrState, t: Tid, ans: Answer)
    requires t in z.low.threads && (PcOf(z, t).CreateUndo? || PcOf(z, t).CreateFail? || PcOf(z, t).CreateFields?)
    ensures t in GoCreate(z, t, ans).pc && GoCreate(z, t, ans).pc == z.pc[t := GoCreate(z, t, ans).pc[t]]
  {
    hide Goes, Called, PcOf, Start;
  }

  lemma PcAloneJoin(z: ThrState, t: Tid, ans: Answer)
    requires t in z.low.threads && Joining(PcOf(z, t))
    ensures t in GoJoin(z, t, ans).pc && GoJoin(z, t, ans).pc == z.pc[t := GoJoin(z, t, ans).pc[t]]
  {
    hide GoJoin;
    if PcOf(z, t).JoinSleep? || PcOf(z, t).JoinCollect? || PcOf(z, t).JoinRemove? {
      PcAloneJoinData(z, t, ans);
    } else {
      PcAloneJoinMove(z, t, ans);
    }
  }

  lemma PcAloneJoinData(z: ThrState, t: Tid, ans: Answer)
    requires t in z.low.threads && (PcOf(z, t).JoinSleep? || PcOf(z, t).JoinCollect? || PcOf(z, t).JoinRemove?)
    ensures t in GoJoin(z, t, ans).pc && GoJoin(z, t, ans).pc == z.pc[t := GoJoin(z, t, ans).pc[t]]
  {
    hide Goes, Called;
  }

  lemma PcAloneJoinMove(z: ThrState, t: Tid, ans: Answer)
    requires t in z.low.threads && Joining(PcOf(z, t)) && !PcOf(z, t).JoinSleep? && !PcOf(z, t).JoinCollect? && !PcOf(z, t).JoinRemove?
    ensures t in GoJoin(z, t, ans).pc && GoJoin(z, t, ans).pc == z.pc[t := GoJoin(z, t, ans).pc[t]]
  {
    hide Goes, Called;
  }

  lemma PcAloneExit(z: ThrState, t: Tid)
    requires t in z.low.threads && (PcOf(z, t).ExitEnter? || PcOf(z, t).ExitUnlock? || PcOf(z, t).ExitVanish? || PcOf(z, t).Leave?)
    ensures t in GoExit(z, t).pc && GoExit(z, t).pc == z.pc[t := GoExit(z, t).pc[t]]
  {
    hide Goes, Called;
  }

  // New memory is the only memory that a step adds, and no condition variable goes.
  lemma RecsGrow(z: ThrState, t: Tid, ans: Answer, c: Cond)
    requires ThrInv(z) && CanStep(z, Go(t, ans)) && c !in z.recs && c in z.low.queue && c in z.low.ready
    ensures var z' := GoOn(z, t, ans);
            c !in z'.recs && c in z'.low.queue && c in z'.low.ready && z'.joiner == z.joiner
  {
    hide ThrInv, Unused, GoCreate, GoJoin, GoExit;
    GoPlaces(z, t, ans);
    BetweenCallsGo(z, t, ans);
    if Creating(PcOf(z, t)) {
      if PcOf(z, t).CreateAlloc? && ans.ok {
        AllocAddr(z, t, ans);
      }
      CreateGrows(z, t, ans, c);
    } else if Joining(PcOf(z, t)) {
      JoinGrows(z, t, ans, c);
    } else {
      RecThere(z, t);
      ExitGrows(z, t, c);
    }
  }

  lemma AllocAddr(z: ThrState, t: Tid, ans: Answer)
    requires CanStep(z, Go(t, ans)) && PcOf(z, t).CreateAlloc? && ans.ok
    ensures ans.addr !in z.low.queue
  {
  }

  lemma CreateGrows(z: ThrState, t: Tid, ans: Answer, c: Cond)
    requires t in z.low.threads && Creating(PcOf(z, t)) && c !in z.recs && c in z.low.queue && c in z.low.ready
    requires PcOf(z, t).CreateAlloc? && ans.ok ==> ans.addr !in z.low.queue
    ensures var z' := GoCreate(z, t, ans);
            c !in z'.recs && c in z'.low.queue && c in z'.low.ready && z'.joiner == z.joiner
  {
    hide GoCreate;
    if PcOf(z, t).CreateAlloc? || PcOf(z, t).CreateFork? || PcOf(z, t).CreateInsert? || PcOf(z, t).CreateUndo? || PcOf(z, t).CreateFields? {
      CreateGrowsData(z, t, ans, c);
    } else {
      CreateGrowsMove(z, t, ans, c);
    }
  }

  lemma CreateGrowsData(z: ThrState, t: Tid, ans: Answer, c: Cond)
    requires t in z.low.threads && c !in z.recs && c in z.low.queue && c in z.low.ready
    requires PcOf(z, t).CreateAlloc? && ans.ok ==> ans.addr !in z.low.queue
    requires PcOf(z, t).CreateAlloc? || PcOf(z, t).CreateFork? || PcOf(z, t).CreateInsert? || PcOf(z, t).CreateUndo? || PcOf(z, t).CreateFields?
    ensures var z' := GoCreate(z, t, ans);
            c !in z'.recs && c in z'.low.queue && c in z'.low.ready && z'.joiner == z.joiner
  {
    hide Goes, Called, Start;
  }

  lemma CreateGrowsMove(z: ThrState, t: Tid, ans: Answer, c: Cond)
    requires t in z.low.threads && c !in z.recs && c in z.low.queue && c in z.low.ready
    requires PcOf(z, t).CreateEnter? || PcOf(z, t).CreatePages? || PcOf(z, t).CreateFail?
    ensures var z' := GoCreate(z, t, ans);
            c !in z'.recs && c in z'.low.queue && c in z'.low.ready && z'.joiner == z.joiner
  {
    hide Goes, Called, Start;
  }

  lemma JoinGrows(z: ThrState, t: Tid, ans: Answer, c: Cond)
    requires ThrInv(z) && t in z.low.threads && z.low.threads[t].pc.Out? && Joining(PcOf(z, t)) && c !in z.recs && c in z.low.queue && c in z.low.ready
    ensures var z' := GoJoin(z, t, ans);
            c !in z'.recs && c in z'.low.queue && c in z'.low.ready && z'.joiner == z.joiner
  {
    hide ThrInv, Holding, GoJoin;
    RecThere(z, t);
    if PcOf(z, t).JoinSleep? || PcOf(z, t).JoinCollect? || PcOf(z, t).JoinRemove? {
      JoinGrowsData(z, t, ans, c);
    } else {
      JoinGrowsMove(z, t, ans, c);
    }
  }

  // The condition variable c, which is not a thread's, is still there.
  ghost predicate Grown(z: ThrState, z': ThrState, c: Cond) { c !in z'.recs && c in z'.low.queue && c in z'.low.ready && z'.joiner == z.joiner }

  lemma JoinGrowsData(z: ThrState, t: Tid, ans: Answer, c: Cond)
    requires t in z.low.threads && c !in z.recs && c in z.low.queue && c in z.low.ready
    requires (PcOf(z, t).JoinSleep? || PcOf(z, t).JoinCollect? || PcOf(z, t).JoinRemove?) && PcOf(z, t).data in z.recs
    ensures Grown(z, GoJoin(z, t, ans), c)
  {
    hide GoJoin, Grown, PcOf;
    if PcOf(z, t).JoinSleep? { JoinGrowsSleep(z, t, ans, c); }
    else if PcOf(z, t).JoinCollect? { JoinGrowsCollect(z, t, ans, c); }
    else { JoinGrowsRemove(z, t, ans, c); }
  }

  lemma JoinGrowsSleep(z: ThrState, t: Tid, ans: Answer, c: Cond)
    requires t in z.low.threads && c !in z.recs && c in z.low.queue && c in z.low.ready && PcOf(z, t).JoinSleep? && PcOf(z, t).data in z.recs
    ensures Grown(z, GoJoin(z, t, ans), c)
  {
    hide Goes, Called, Start, PcOf;
  }

  lemma JoinGrowsCollect(z: ThrState, t: Tid, ans: Answer, c: Cond)
    requires t in z.low.threads && c !in z.recs && c in z.low.queue && c in z.low.ready && PcOf(z, t).JoinCollect? && PcOf(z, t).data in z.recs
    ensures Grown(z, GoJoin(z, t, ans), c)
  {
    hide Goes, Called, Start, PcOf;
  }

  lemma JoinGrowsRemove(z: ThrState, t: Tid, ans: Answer, c: Cond)
    requires t in z.low.threads && c !in z.recs && c in z.low.queue && c in z.low.ready && PcOf(z, t).JoinRemove? && PcOf(z, t).data in z.recs
    ensures Grown(z, GoJoin(z, t, ans), c)
  {
    hide Goes, Called, Start, PcOf;
  }

  lemma JoinGrowsMove(z: ThrState, t: Tid, ans: Answer, c: Cond)
    requires t in z.low.threads && c !in z.recs && c in z.low.queue && c in z.low.ready
    requires PcOf(z, t).JoinEnter? || PcOf(z, t).JoinTest? || PcOf(z, t).JoinFree? || PcOf(z, t).JoinDone?
    ensures Grown(z, GoJoin(z, t, ans), c)
  {
    hide GoJoin, Grown, PcOf;
    if PcOf(z, t).JoinEnter? { JoinGrowsEnter(z, t, ans, c); }
    else if PcOf(z, t).JoinTest? { JoinGrowsTest(z, t, ans, c); }
    else { JoinGrowsEnd(z, t, ans, c); }
  }

  lemma JoinGrowsEnter(z: ThrState, t: Tid, ans: Answer, c: Cond)
    requires t in z.low.threads && c !in z.recs && c in z.low.queue && c in z.low.ready && PcOf(z, t).JoinEnter?
    ensures Grown(z, GoJoin(z, t, ans), c)
  {
    hide Goes, Called, Start, PcOf;
  }

  lemma JoinGrowsTest(z: ThrState, t: Tid, ans: Answer, c: Cond)
    requires t in z.low.threads && c !in z.recs && c in z.low.queue && c in z.low.ready && PcOf(z, t).JoinTest?
    ensures Grown(z, GoJoin(z, t, ans), c)
  {
    hide Goes, Called, Start, PcOf;
  }

  lemma JoinGrowsEnd(z: ThrState, t: Tid, ans: Answer, c: Cond)
    requires t in z.low.threads && c !in z.recs && c in z.low.queue && c in z.low.ready && (PcOf(z, t).JoinFree? || PcOf(z, t).JoinDone?)
    ensures Grown(z, GoJoin(z, t, ans), c)
  {
    hide Goes, Called, Start, PcOf;
  }

  lemma ExitGrows(z: ThrState, t: Tid, c: Cond)
    requires t in z.low.threads && c !in z.recs && c in z.low.queue && c in z.low.ready
    requires PcOf(z, t).ExitEnter? ==> t in z.list && z.list[t] in z.recs
    ensures Grown(z, GoExit(z, t), c)
  {
    hide GoExit, Grown, PcOf;
    if PcOf(z, t).ExitEnter? { ExitGrowsFirst(z, t, c); } else { ExitGrowsLast(z, t, c); }
  }

  lemma ExitGrowsFirst(z: ThrState, t: Tid, c: Cond)
    requires t in z.low.threads && c !in z.recs && c in z.low.queue && c in z.low.ready
    requires PcOf(z, t).ExitEnter? && t in z.list && z.list[t] in z.recs
    ensures Grown(z, GoExit(z, t), c)
  {
    hide Goes, Called, Start, PcOf;
  }

  lemma ExitGrowsLast(z: ThrState, t: Tid, c: Cond)
    requires t in z.low.threads && c !in z.recs && c in z.low.queue && c in z.low.ready && !PcOf(z, t).ExitEnter?
    ensures Grown(z, GoExit(z, t), c)
  {
    hide Goes, Called, Start, PcOf;
  }

  // A call of the library starts by locking the list, and changes nothing else but the joiner's entry.
  lemma EnterAlone(z: ThrState, st: Step, t: Tid)
    requires CanStep(z, st) && ((st.Create? && st.t == t) || (st.Join? && st.t == t) || (st.Exit? && st.t == t))
    ensures var z' := After(z, st);
            && t in z.low.threads && z'.low == Called(z.low, t, Acquire(LIST_MUTEX)) && z'.recs == z.recs && z'.pc.Keys == z.pc.Keys + {t}
            && (forall x :: x != t ==> PcOf(z', x) == PcOf(z, x))
            && z'.joiner == (if st.Join? then z.joiner[st.u := t] else z.joiner)
  {
    hide Start;
  }

  lemma AfterGo(z: ThrState, t: Tid, ans: Answer)
    requires CanStep(z, Go(t, ans))
    ensures After(z, Go(t, ans)) == GoOn(z, t, ans)
  {
  }

  // ------------------------------------------------------------------ a second caller of thr_join

  // What the hypothesis of one joiner shuts out: t calls thr_join for a thread that another one is joining.
  ghost predicate JoinsAgain(z: ThrState, t: Tid, u: Tid) {
    && ThrInv(z) && PcOf(z, t).Away? && MayCall(z.low, t, Acquire(LIST_MUTEX)) && LIST_MUTEX !in z.low.locked
    && u in z.stage && z.stage[u].Listed? && u in z.joiner && u in z.list && z.joiner[u] != t
    && z.joiner[u] in z.low.threads && PcOf(z, z.joiner[u]) == JoinCollect(u, z.list[u])
  }

  // The call, the lock and the lookup, with no other thread in between.
  ghost function LooksUp(z: ThrState, t: Tid, u: Tid, ans: Answer): (z': ThrState)
    requires t in z.low.threads
    ensures t in z'.low.threads
  {
    var z1 := Goes(z, t, Acquire(LIST_MUTEX), JoinEnter(u));
    var z2 := z1.(low := Next(Next(z1.low, t, ans.addr), t, ans.addr));
    KeepsThread(z2, t, ans);
    GoOn(z2, t, ans)
  }

  lemma KeepsThread(z: ThrState, t: Tid, ans: Answer)
    requires t in z.low.threads
    ensures t in GoOn(z, t, ans).low.threads
  {
    hide GoCreate, GoJoin, GoExit;
    CreateKeepsThread(z, t, ans);
    JoinKeepsThread(z, t, ans);
    ExitKeepsThread(z, t);
  }

  lemma CreateKeepsThread(z: ThrState, t: Tid, ans: Answer)
    requires t in z.low.threads
    ensures t in GoCreate(z, t, ans).low.threads
  {
    hide GoCreate;
    if PcOf(z, t).CreateAlloc? || PcOf(z, t).CreateFork? || PcOf(z, t).CreateInsert? || PcOf(z, t).CreateUndo? || PcOf(z, t).CreateFields? {
      CreateKeepsThreadData(z, t, ans);
    } else {
      CreateKeepsThreadMove(z, t, ans);
    }
  }

  lemma CreateKeepsThreadData(z: ThrState, t: Tid, ans: Answer)
    requires t in z.low.threads
    requires PcOf(z, t).CreateAlloc? || PcOf(z, t).CreateFork? || PcOf(z, t).CreateInsert? || PcOf(z, t).CreateUndo? || PcOf(z, t).CreateFields?
    ensures t in GoCreate(z, t, ans).low.threads
  {
    hide Called, Goes;
  }

  lemma CreateKeepsThreadMove(z: ThrState, t: Tid, ans: Answer)
    requires t in z.low.threads && !PcOf(z, t).CreateAlloc? && !PcOf(z, t).CreateFork? && !PcOf(z, t).CreateInsert?
    requires !PcOf(z, t).CreateUndo? && !PcOf(z, t).CreateFields?
    ensures t in GoCreate(z, t, ans).low.threads
  {
    hide Called, Goes;
  }

  lemma JoinKeepsThread(z: ThrState, t: Tid, ans: Answer)
    requires t in z.low.threads
    ensures t in GoJoin(z, t, ans).low.threads
  {
    hide GoJoin, PcOf;
    if PcOf(z, t).JoinSleep? || PcOf(z, t).JoinCollect? || PcOf(z, t).JoinRemove? { JoinKeepsThreadData(z, t, ans); } else { JoinKeepsThreadMove(z, t, ans); }
  }

  lemma JoinKeepsThreadData(z: ThrState, t: Tid, ans: Answer)
    requires t in z.low.threads && (PcOf(z, t).JoinSleep? || PcOf(z, t).JoinCollect? || PcOf(z, t).JoinRemove?)
    ensures t in GoJoin(z, t, ans).low.threads
  {
    hide Called, Goes, PcOf;
  }

  lemma JoinKeepsThreadMove(z: ThrState, t: Tid, ans: Answer)
    requires t in z.low.threads && !PcOf(z, t).JoinSleep? && !PcOf(z, t).JoinCollect? && !PcOf(z, t).JoinRemove?
    ensures t in GoJoin(z, t, ans).low.threads
  {
    hide Called, Goes, PcOf;
  }

  lemma ExitKeepsThread(z: ThrState, t: Tid)
    requires t in z.low.threads
    ensures t in GoExit(z, t).low.threads
  {
    hide Called, Goes;
  }

  lemma LooksUpIs(z: ThrState, t: Tid, u: Tid, ans: Answer)
    requires JoinsAgain(z, t, u)
    ensures var z' := LooksUp(z, t, u, ans);
            && PcOf(z', t) == JoinTest(u, z.list[u]) && LIST_MUTEX in z'.low.threads[t].held && z'.low.threads[t].pc.Out?
            && z'.recs == z.recs && z'.list == z.list && z'.passed == z.passed && PcOf(z', z.joiner[u]) == PcOf(z, z.joiner[u])
  {
    hide ThrInv, Above;
  }

  lemma JoinedMeans(z: ThrState, t: Tid, u: Tid)
    requires JoinsAgain(z, t, u)
    ensures z.list[u] in z.recs && (z.recs[z.list[u]].joined <==> u !in z.passed) && (z.recs[z.list[u]].exited <==> u in z.passed)
  {
    hide Inv, ThreadFits, Undisturbed, MayCall;
    OwnFits(z, z.joiner[u]);
    assert StageFits(z, u);
  }

  // While the first joiner waits or has yet to lock the list again, a second one is turned away if and only if
  // the thread has not called thr_exit. Otherwise the flag that thr_exit has cleared lets it through, and both
  // are on their way to collect, and to free, one and the same record.
  lemma SecondJoiner(z: ThrState, t: Tid, u: Tid, ans: Answer)
    requires JoinsAgain(z, t, u)
    ensures var z1 := LooksUp(z, t, u, ans);
            && t in z1.low.threads
            && var z2 := GoOn(z1, t, ans);
               && (PcOf(z2, t) == Leave(-1) <==> u !in z.passed)
               && (u in z.passed ==>
                     && t in z2.low.threads
                     && PcOf(GoOn(z2, t, ans), t) == JoinCollect(u, z.list[u])
                     && PcOf(GoOn(z2, t, ans), z.joiner[u]) == JoinCollect(u, z.list[u]))
  {
    hide JoinsAgain, LooksUp;
    LooksUpIs(z, t, u, ans);
    JoinedMeans(z, t, u);
    OtherJoiner(z, t, u);
  }

  lemma OtherJoiner(z: ThrState, t: Tid, u: Tid)
    requires JoinsAgain(z, t, u)
    ensures u in z.joiner && u in z.list && z.joiner[u] != t && PcOf(z, z.joiner[u]) == JoinCollect(u, z.list[u])
  {
    hide ThrInv;
  }

  // What becomes of the other one: once the record has been removed, its next access fails.
  lemma LateJoiner(z: ThrState, t: Tid, x: Tid, u: Tid, a: Addr, ans: Answer, ans': Answer)
    requires t in z.low.threads && x in z.low.threads && x != t && PcOf(z, t) == JoinRemove(u, a) && PcOf(z, x) == JoinCollect(u, a)
    requires a in z.recs && u in z.list
    ensures var z' := GoOn(z, t, ans);
            x in z'.low.threads && (PcOf(GoOn(z', x, ans'), x).Broken? <==> ans.ok)
  {
    hide Called;
  }
}
