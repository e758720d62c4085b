// user/libthread/sem.c on top of the machine of mutexes and condition variables. Semaphore s uses the
// mutex Own(s) and the condition variable s.

module Semaphore {
  import opened Sync

  type Sem = int

  // Where a thread stands in sem_wait (Down) or sem_signal (Up): what it does when the call of the
  // mutex or condition variable library that it is in, if any, has returned.
  datatype SemPc = Elsewhere | DownTake(sem: Sem) | DownTest(sem: Sem) | DownDone(sem: Sem)
                 | UpTest(sem: Sem) | UpAdd(sem: Sem) | UpDone(sem: Sem) | Leaving(sem: Sem)

  // names: the semaphores of the program, initialised or not. value: the field semaphore. Auxiliary:
  // the count given to sem_init, the number of increments, and of sem_wait calls that did not block.
  datatype SemState = SemState(low: State, names: set<Sem>, pc: map<Tid, SemPc>, value: map<Sem, int>,
                               start: map<Sem, int>, ups: map<Sem, int>, straight: map<Sem, int>)

  // A thread goes on inside the lower library; other client code makes a step that does not use the
  // semaphores' mutexes and condition variables; sem_init, sem_wait, sem_signal; a thread goes on in
  // one of the latter two.
  datatype Step = Inner(t: Tid, a: Addr) | Other(x: Label) | Create(s: Sem, count: int) | Down(t: Tid, s: Sem)
                | Up(t: Tid, s: Sem) | Go(t: Tid)

  function PcOf(z: SemState, t: Tid): SemPc { if t in z.pc then z.pc[t] else Elsewhere }

  function At(m: map<Sem, int>, s: Sem): int { if s in m then m[s] else 0 }

  // The call concerns a semaphore's mutex or condition variable.
  predicate Uses(op: Op, names: set<Sem>) {
    || ((op.Acquire? || op.Release? || op.Wait?) && op.mutex.Own? && op.mutex.id in names)
    || ((op.Wait? || op.Signal? || op.Destroy?) && op.cond in names)
  }

  ghost predicate CanStep(z: SemState, st: Step) {
    match st
    case Inner(t, a) => Allowed(z.low, Run(t, a))
    case Other(x) =>
      && Allowed(z.low, x)
      && (match x
          case Run(_, _) => false
          case Call(t, op) => PcOf(z, t).Elsewhere? && !Uses(op, z.names)
          case Init(c) => c !in z.names
          case Fork(u) => u !in z.pc)
    case Create(s, count) => s in z.names && s !in z.value && Allowed(z.low, Init(s))
    case Down(t, s) => s in z.value && PcOf(z, t).Elsewhere? && MayCall(z.low, t, Acquire(Own(s)))
    case Up(t, s) => s in z.value && PcOf(z, t).Elsewhere? && MayCall(z.low, t, Acquire(Own(s)))
    case Go(t) => t in z.low.threads && z.low.threads[t].pc.Out? && !PcOf(z, t).Elsewhere?
  }

  function GoOn(z: SemState, t: Tid): (z': SemState)
    requires t in z.low.threads
    ensures t in z'.low.threads
  {
    match PcOf(z, t)
    case Elsewhere => z
    case DownTake(s) => z.(value := z.value[s := At(z.value, s) - 1], pc := z.pc[t := DownTest(s)])
    case DownTest(s) =>
      if At(z.value, s) < 0 then z.(low := Called(z.low, t, Wait(s, Own(s))), pc := z.pc[t := DownDone(s)])
      else z.(straight := z.straight[s := At(z.straight, s) + 1], pc := z.pc[t := DownDone(s)])
    case DownDone(s) => z.(low := Called(z.low, t, Release(Own(s))), pc := z.pc[t := Leaving(s)])
    case UpTest(s) =>
      if At(z.value, s) < 0 then z.(low := Called(z.low, t, Signal(s, false)), pc := z.pc[t := UpAdd(s)])
      else z.(pc := z.pc[t := UpAdd(s)])
    case UpAdd(s) => z.(value := z.value[s := At(z.value, s) + 1], ups := z.ups[s := At(z.ups, s) + 1], pc := z.pc[t := UpDone(s)])
    case UpDone(s) => z.(low := Called(z.low, t, Release(Own(s))), pc := z.pc[t := Leaving(s)])
    case Leaving(s) => z.(pc := z.pc[t := Elsewhere])
  }

  ghost function After(z: SemState, st: Step): SemState
    requires CanStep(z, st)
  {
    match st
    case Inner(t, a) => z.(low := Apply(z.low, Run(t, a)))
    case Other(x) => z.(low := Apply(z.low, x))
    case Create(s, count) =>
      z.(low := Apply(z.low, Init(s)), value := z.value[s := count], start := z.start[s := count],
         ups := z.ups[s := 0], straight := z.straight[s := 0])
    case Down(t, s) => z.(low := Called(z.low, t, Acquire(Own(s))), pc := z.pc[t := DownTake(s)])
    case Up(t, s) => z.(low := Called(z.low, t, Acquire(Own(s))), pc := z.pc[t := UpTest(s)])
    case Go(t) => GoOn(z, t)
  }

  // ------------------------------------------------------------------ the invariant

  // The semaphore's mutex is held, and was the last client mutex taken.
  ghost predicate Holding(s: Sem, h: set<Mutex>) {
    Own(s) in h && forall x :: x in h && x.Own? && x != Own(s) ==> Below(x, Own(s))
  }

  // A thread's position in the semaphore library matches its position in the lower one.
  ghost predicate ThreadFits(p: SemPc, l: Local, names: set<Sem>) {
    && (!p.Elsewhere? ==> p.sem in names)
    && (forall x :: x in names && Own(x) in l.held ==> !p.Elsewhere? && x == p.sem)
    && match p
       case Elsewhere => !Uses(l.op, names)
       case DownTake(s) => l.op == Acquire(Own(s)) || (l.op.Idle? && Holding(s, l.held))
       case DownTest(s) => l.op.Idle? && Holding(s, l.held)
       case DownDone(s) => l.op == Wait(s, Own(s)) || (l.op.Idle? && Holding(s, l.held))
       case UpTest(s) => l.op == Acquire(Own(s)) || (l.op.Idle? && Holding(s, l.held))
       case UpAdd(s) => (l.op == Signal(s, false) || l.op.Idle?) && Holding(s, l.held)
       case UpDone(s) => l.op.Idle? && Holding(s, l.held)
       case Leaving(s) => l.op == Release(Own(s)) || (l.op.Idle? && Own(s) !in l.held)
  }

  function Max(a: int, b: int): int { if a > b then a else b }

  // By how much the queue is shorter than the value says, while the holder of the mutex is at work.
  function Gap(v: int, p: SemPc, pc: Pc): int {
    match p
    case DownTest(_) => if v < 0 then 1 else 0
    case DownDone(_) => if BeforeInsert(pc) then 1 else 0
    case UpAdd(_) => if v < 0 && !BeforeTake(pc) then 1 else 0
    case _ => 0
  }

  // A decrement whose outcome is still open.
  function Open(p: SemPc, pc: Pc): int {
    if p.DownTest? || (p.DownDone? && BeforeInsert(pc)) then 1 else 0
  }

  // Value, queue and accounts of a semaphore whose mutex is free (p is Elsewhere), or held by a thread at p.
  ghost predicate Balanced(z: SemState, s: Sem, p: SemPc, l: Local) {
    var v := At(z.value, s);
    && s in z.low.queue
    && |z.low.queue[s]| == Max(0, -v) - Gap(v, p, l.pc)
    && At(z.straight, s) + |Log(z.low.came, s)| + Open(p, l.pc) == At(z.start, s) + At(z.ups, s) - v
    && (p.DownDone? && BeforeInsert(l.pc) ==> v < 0) && (p.UpAdd? && l.op.Signal? ==> v < 0)
  }

  ghost predicate SemOk(z: SemState, s: Sem) {
    && (Own(s) !in z.low.locked ==> Balanced(z, s, Elsewhere, Local(Idle, Out, {})))
    && (forall t :: t in z.low.threads && Own(s) in z.low.threads[t].held ==> Balanced(z, s, PcOf(z, t), z.low.threads[t]))
  }

  ghost predicate SemInv(z: SemState) {
    && Inv(z.low) && z.value.Keys <= z.names
    && (forall t :: t in z.pc ==> t in z.low.threads)
    && (forall t :: t in z.low.threads ==> ThreadFits(PcOf(z, t), z.low.threads[t], z.names))
    && (forall t :: t in z.pc && !z.pc[t].Elsewhere? ==> z.pc[t].sem in z.value)
    && (forall s :: s in z.value ==> s in z.low.ready && SemOk(z, s))
  }

  // ------------------------------------------------------------------ every step keeps the invariant

  lemma FitsThread(z: SemState, t: Tid)
    requires SemInv(z) && t in z.low.threads
    ensures ThreadFits(PcOf(z, t), z.low.threads[t], z.names)
    ensures !PcOf(z, t).Elsewhere? ==> PcOf(z, t).sem in z.value
  {
  }

  lemma SemUsable(z: SemState, s: Sem)
    requires SemInv(z) && s in z.value
    ensures Usable(z.low, s)
  {
    hide Inv;
    assert SemOk(z, s);
    forall u | u in z.low.threads ensures z.low.threads[u].op != Destroy(s) {
      FitsThread(z, u);
    }
    SomeBalance(z, s);
  }

  lemma SomeBalance(z: SemState, s: Sem)
    requires Inv(z.low) && SemOk(z, s)
    ensures s in z.low.queue
  {
    LocksWithin(z.low);
  }

  // The calls that the semaphore code makes meet what the lower library demands.
  lemma CallsAllowed(z: SemState, t: Tid)
    requires SemInv(z) && CanStep(z, Go(t))
    ensures var p := PcOf(z, t);
            && (p.DownTest? ==> MayCall(z.low, t, Wait(p.sem, Own(p.sem))))
            && (p.DownDone? || p.UpDone? ==> MayCall(z.low, t, Release(Own(p.sem))))
            && (p.UpTest? ==> MayCall(z.low, t, Signal(p.sem, false)))
  {
    hide Inv, SemOk;
    FitsThread(z, t);
    FitsHas(z.low, t);
    IdleOut(z.low, t);
    SemUsable(z, PcOf(z, t).sem);
  }

  // The step of the lower machine behind a step of this one, if there is one.
  lemma LowLabels(z: SemState, st: Step) returns (ys: seq<Label>)
    requires SemInv(z) && CanStep(z, st)
    ensures |ys| <= 1
    ensures if ys == [] then After(z, st).low == z.low else Allowed(z.low, ys[0]) && After(z, st).low == Apply(z.low, ys[0])
  {
    hide SemInv, MayCall;
    match st
    case Inner(t, a) => ys := [Run(t, a)];
    case Other(x) => ys := [x];
    case Create(s, count) => ys := [Init(s)];
    case Down(t, s) => ys := [Call(t, Acquire(Own(s)))];
    case Up(t, s) => ys := [Call(t, Acquire(Own(s)))];
    case Go(t) =>
      CallsAllowed(z, t);
      ys := [];
      match PcOf(z, t) {
        case DownTest(s) => if At(z.value, s) < 0 { ys := [Call(t, Wait(s, Own(s)))]; }
        case DownDone(s) => ys := [Call(t, Release(Own(s)))];
        case UpTest(s) => if At(z.value, s) < 0 { ys := [Call(t, Signal(s, false))]; }
        case UpDone(s) => ys := [Call(t, Release(Own(s)))];
        case _ =>
      }
  }

  lemma StepsBelow(z: SemState, st: Step)
    requires SemInv(z) && CanStep(z, st)
    ensures Inv(After(z, st).low)
  {
    hide SemInv, After, CanStep, Allowed, Apply;
    var ys := LowLabels(z, st);
    BelowInv(z);
    if ys != [] {
      StepKeeps(z.low, ys[0]);
    }
  }

  lemma BelowInv(z: SemState)
    requires SemInv(z)
    ensures Inv(z.low)
  {
  }

  lemma InnerFits(z: SemState, t: Tid, a: Addr)
    requires SemInv(z) && Allowed(z.low, Run(t, a))
    ensures ThreadFits(PcOf(z, t), Next(z.low, t, a).threads[t], z.names)
  {
    hide Inv, Next, SemOk, BeforeInsert, BeforeTake;
    FitsThread(z, t);
    IdleOut(z.low, t);
    RunKeeps(z.low, t, a);
    IdleOut(Next(z.low, t, a), t);
    if Next(z.low, t, a).threads[t].pc.Out? {
      Returns(z.low, t, a);
    } else {
      GoesOn(z.low, t, a);
    }
  }

  // How the queue of s and the share of thread t in it change in one step of t.
  lemma InnerBalance(z: SemState, t: Tid, a: Addr, s: Sem)
    requires SemInv(z) && Allowed(z.low, Run(t, a)) && s in z.value && Own(s) in z.low.threads[t].held
    ensures var l' := Next(z.low, t, a).threads[t];
            Balanced(After(z, Inner(t, a)), s, PcOf(z, t), l') && (Own(s) !in l'.held ==> Gap(At(z.value, s), PcOf(z, t), l'.pc) == 0 && Open(PcOf(z, t), l'.pc) == 0)
  {
    hide Inv, Next, Fits;
    var z' := After(z, Inner(t, a));
    FitsThread(z, t);
    IdleOut(z.low, t);
    PcNames(z.low, t);
    RunKeeps(z.low, t, a);
    PcNames(Next(z.low, t, a), t);
    QueueMoves(z.low, t, a, s);
    assert SemOk(z, s);
    assert Balanced(z, s, PcOf(z, t), z.low.threads[t]);
    if Next(z.low, t, a).threads[t].pc.Out? {
      Returns(z.low, t, a);
    } else {
      GoesOn(z.low, t, a);
    }
  }

  // A thread that does not hold the mutex of s leaves its queue alone.
  lemma InnerApart(z: SemState, t: Tid, a: Addr, s: Sem)
    requires SemInv(z) && Allowed(z.low, Run(t, a)) && s in z.value && Own(s) !in z.low.threads[t].held
    ensures SameQueue(z.low, Next(z.low, t, a), s)
    ensures Own(s) in Next(z.low, t, a).threads[t].held ==>
              Own(s) !in z.low.locked && Next(z.low, t, a).threads[t].op.Idle? && (PcOf(z, t).DownTake? || PcOf(z, t).UpTest? || PcOf(z, t).DownDone?)
  {
    hide Inv, Next, SemOk, Fits, SameQueue, BeforeInsert, BeforeTake;
    FitsThread(z, t);
    PcNames(z.low, t);
    QueueMoves(z.low, t, a, s);
    TakesFree(z.low, t, a, Own(s));
    StepIsSame(z.low, t, s, Next(z.low, t, a));
  }

  lemma StepIsSame(s: State, t: Tid, c: Cond, s': State)
    requires t in s.threads && QueueStep(s, t, c, s') && !ChangesQueue(s.threads[t].pc, c)
    ensures SameQueue(s, s', c)
  {
  }

  lemma InnerSem(z: SemState, t: Tid, a: Addr, s: Sem)
    requires SemInv(z) && Allowed(z.low, Run(t, a)) && s in z.value
    ensures SemOk(After(z, Inner(t, a)), s)
  {
    hide Inv, Next, SameQueue, ThreadFits, Balanced, Open, Gap;
    var z' := After(z, Inner(t, a));
    RunKeeps(z.low, t, a);
    LocksWithin(z.low);
    LocksWithin(z'.low);
    assert SemOk(z, s);
    OneMoves(z.low, t, a);
    if Own(s) in z.low.threads[t].held {
      InnerBalance(z, t, a, s);
      if Own(s) !in z'.low.threads[t].held {
        Settled(z', s, PcOf(z, t), z'.low.threads[t]);
      }
    } else {
      InnerApart(z, t, a, s);
      if Own(s) in z'.low.threads[t].held {
        IdleOut(z'.low, t);
        Unsettled(z, z', s, PcOf(z, t), z'.low.threads[t]);
      }
      forall u | u in z.low.threads && Own(s) in z.low.threads[u].held ensures Balanced(z', s, PcOf(z, u), z.low.threads[u]) {
        StillBalanced(z, z', s, PcOf(z, u), z.low.threads[u]);
      }
      if Own(s) !in z.low.locked {
        StillBalanced(z, z', s, Elsewhere, Local(Idle, Out, {}));
      } else {
        var u :| u in z.low.threads && Own(s) in z.low.threads[u].held;
        assert z'.low.threads[u] == z.low.threads[u];
      }
    }
  }

  ghost predicate SameAccounts(z: SemState, z': SemState, s: Sem) {
    && At(z'.value, s) == At(z.value, s) && At(z'.start, s) == At(z.start, s)
    && At(z'.ups, s) == At(z.ups, s) && At(z'.straight, s) == At(z.straight, s)
  }

  // Nothing is open when the mutex is given back.
  lemma Settled(z: SemState, s: Sem, p: SemPc, l: Local)
    requires Balanced(z, s, p, l) && Gap(At(z.value, s), p, l.pc) == 0 && Open(p, l.pc) == 0
    ensures Balanced(z, s, Elsewhere, Local(Idle, Out, {}))
  {
  }

  lemma Unsettled(z: SemState, z': SemState, s: Sem, p: SemPc, l: Local)
    requires Balanced(z, s, Elsewhere, Local(Idle, Out, {})) && SameQueue(z.low, z'.low, s)
    requires z'.value == z.value && z'.start == z.start && z'.ups == z.ups && z'.straight == z.straight
    requires l.pc.Out? && l.op.Idle? && (p.DownTake? || p.UpTest? || p.DownDone?)
    ensures Balanced(z', s, p, l)
  {
  }

  lemma StillBalanced(z: SemState, z': SemState, s: Sem, p: SemPc, l: Local)
    requires Balanced(z, s, p, l) && SameQueue(z.low, z'.low, s) && SameAccounts(z, z', s)
    ensures Balanced(z', s, p, l)
  {
  }

  lemma InnerKeeps(z: SemState, t: Tid, a: Addr)
    requires SemInv(z) && CanStep(z, Inner(t, a))
    ensures SemInv(After(z, Inner(t, a)))
  {
    hide Inv, Next, SemOk, ThreadFits;
    var z' := After(z, Inner(t, a));
    RunKeeps(z.low, t, a);
    OneMoves(z.low, t, a);
    InnerFits(z, t, a);
    forall s | s in z'.value ensures s in z'.low.ready && SemOk(z', s) {
      InnerSem(z, t, a, s);
      StaysReady(z, t, a, s);
    }
  }

  lemma StaysReady(z: SemState, t: Tid, a: Addr, s: Sem)
    requires SemInv(z) && CanStep(z, Inner(t, a)) && s in z.value
    ensures s in Next(z.low, t, a).ready
  {
    hide Inv, SemOk, NextMutex, NextWait, NextSignal, Next;
    if s !in Next(z.low, t, a).ready {
      ReadyLost(z.low, t, a, s);
      FitsThread(z, t);
    }
  }

  // Steps of the lower library that leave the semaphore's queue, mutex and accounts alone.
  ghost predicate Quiet(z: SemState, z': SemState) {
    && z'.names == z.names && z'.value == z.value && z'.start == z.start && z'.ups == z.ups && z'.straight == z.straight
    && z'.low.locked == z.low.locked && (forall s :: s in z.value ==> SameQueue(z.low, z'.low, s) && (s in z.low.ready ==> s in z'.low.ready))
  }

  // ts: the threads whose position changed.
  lemma QuietKeeps(z: SemState, z': SemState, ts: set<Tid>)
    requires SemInv(z) && Inv(z'.low) && Quiet(z, z')
    requires forall u :: u in z.low.threads ==> u in z'.low.threads
    requires forall u :: u in z'.low.threads && u !in z.low.threads ==> z'.low.threads[u] == Local(Idle, Out, {}) && u !in z'.pc && u !in ts
    requires forall u :: u in z.low.threads && u !in ts ==> PcOf(z', u) == PcOf(z, u) && z'.low.threads[u] == z.low.threads[u]
    requires forall u :: u in z'.pc ==> u in z.low.threads
    requires forall t :: t in ts ==>
               && t in z.low.threads && z'.low.threads[t].held == z.low.threads[t].held
               && ThreadFits(PcOf(z', t), z'.low.threads[t], z.names)
               && (!PcOf(z', t).Elsewhere? ==> PcOf(z', t).sem in z.value)
               && forall s :: s in z.value && Own(s) in z.low.threads[t].held ==> Balanced(z', s, PcOf(z', t), z'.low.threads[t])
    ensures SemInv(z')
  {
    hide Inv, SameQueue, Balanced;
    forall s | s in z'.value ensures s in z'.low.ready && SemOk(z', s) {
      assert SemOk(z, s);
      forall u | u in z'.low.threads && Own(s) in z'.low.threads[u].held ensures Balanced(z', s, PcOf(z', u), z'.low.threads[u]) {
        if u !in ts {
          StillBalanced(z, z', s, PcOf(z, u), z.low.threads[u]);
        }
      }
      if Own(s) !in z'.low.locked {
        StillBalanced(z, z', s, Elsewhere, Local(Idle, Out, {}));
      }
    }
    forall u | u in z'.low.threads ensures ThreadFits(PcOf(z', u), z'.low.threads[u], z'.names) {
      if u in z.low.threads {
        FitsThread(z, u);
      }
    }
    forall u | u in z'.pc && !z'.pc[u].Elsewhere? ensures z'.pc[u].sem in z'.value {
      FitsThread(z, u);
    }
  }

  lemma OtherKeeps(z: SemState, x: Label)
    requires SemInv(z) && CanStep(z, Other(x))
    ensures SemInv(After(z, Other(x)))
  {
    hide Inv, Balanced, SemOk, MayCall;
    StepKeeps(z.low, x);
    var z' := After(z, Other(x));
    if x.Call? {
      CallerThere(z.low, x);
      FitsThread(z, x.t);
      QuietKeeps(z, z', {x.t});
    } else {
      QuietKeeps(z, z', {});
    }
  }

  lemma CallerThere(s: State, x: Label)
    requires x.Call? && Allowed(s, x)
    ensures x.t in s.threads
  {
  }

  lemma EnterKeeps(z: SemState, st: Step)
    requires SemInv(z) && CanStep(z, st) && (st.Down? || st.Up?)
    ensures SemInv(After(z, st))
  {
    hide Inv, Balanced, SemOk;
    StepsBelow(z, st);
    FitsThread(z, st.t);
    QuietKeeps(z, After(z, st), {st.t});
  }

  // sem_init with a count that is not negative.
  lemma CreateKeeps(z: SemState, s: Sem, count: int)
    requires SemInv(z) && CanStep(z, Create(s, count)) && count >= 0
    ensures SemInv(After(z, Create(s, count)))
  {
    hide Inv, SemOk, ThreadFits, Allowed;
    var z' := After(z, Create(s, count));
    StepKeeps(z.low, Init(s));
    CreateAlone(z, s, count);
    forall r | r in z'.value ensures r in z'.low.ready && SemOk(z', r) { CreateOk(z, s, count, r); }
    forall u | u in z'.low.threads ensures ThreadFits(PcOf(z', u), z'.low.threads[u], z'.names) { FitsThread(z, u); }
  }

  lemma CreateAlone(z: SemState, s: Sem, count: int)
    requires CanStep(z, Create(s, count))
    ensures var z' := After(z, Create(s, count));
            z'.low.threads == z.low.threads && z'.pc == z.pc && z'.names == z.names && s in z.names
  {
  }

  lemma CreateOk(z: SemState, s: Sem, count: int, r: Sem)
    requires SemInv(z) && CanStep(z, Create(s, count)) && count >= 0 && (r in z.value || r == s)
    ensures r in After(z, Create(s, count)).low.ready && SemOk(After(z, Create(s, count)), r)
  {
    hide Inv, ThreadFits;
    if r != s { assert SemOk(z, r); } else { NotYetHeld(z, s); }
  }

  lemma NotYetHeld(z: SemState, s: Sem)
    requires SemInv(z) && s in z.names && s !in z.value
    ensures forall u :: u in z.low.threads ==> Own(s) !in z.low.threads[u].held
  {
    forall u | u in z.low.threads ensures Own(s) !in z.low.threads[u].held {
      FitsThread(z, u);
    }
  }

  // The accounts after a step of the semaphore code itself.
  lemma TakeBalance(z: SemState, t: Tid, s: Sem)
    requires t in z.low.threads && z.low.threads[t].pc.Out? && z.low.threads[t].op.Idle?
    requires PcOf(z, t) == DownTake(s)
    requires Balanced(z, s, PcOf(z, t), z.low.threads[t])
    ensures Balanced(GoOn(z, t), s, PcOf(GoOn(z, t), t), GoOn(z, t).low.threads[t])
  {
    hide Start, BeforeInsert, BeforeTake;
    StartPositions(s, z.low.threads[t].pc);
  }

  lemma AddBalance(z: SemState, t: Tid, s: Sem)
    requires t in z.low.threads && z.low.threads[t].pc.Out? && z.low.threads[t].op.Idle?
    requires PcOf(z, t) == UpAdd(s)
    requires Balanced(z, s, PcOf(z, t), z.low.threads[t])
    ensures Balanced(GoOn(z, t), s, PcOf(GoOn(z, t), t), GoOn(z, t).low.threads[t])
  {
    hide Start, BeforeInsert, BeforeTake;
    StartPositions(s, z.low.threads[t].pc);
  }

  lemma DownBlocks(z: SemState, t: Tid, s: Sem)
    requires t in z.low.threads && z.low.threads[t].pc.Out? && z.low.threads[t].op.Idle?
    requires PcOf(z, t) == DownTest(s)
    requires At(z.value, s) < 0
    requires Balanced(z, s, PcOf(z, t), z.low.threads[t])
    ensures Balanced(GoOn(z, t), s, PcOf(GoOn(z, t), t), GoOn(z, t).low.threads[t])
  {
    hide Start, BeforeInsert, BeforeTake;
    StartPositions(s, z.low.threads[t].pc);
  }

  lemma DownPasses(z: SemState, t: Tid, s: Sem)
    requires t in z.low.threads && z.low.threads[t].pc.Out? && z.low.threads[t].op.Idle?
    requires PcOf(z, t) == DownTest(s)
    requires At(z.value, s) >= 0
    requires Balanced(z, s, PcOf(z, t), z.low.threads[t])
    ensures Balanced(GoOn(z, t), s, PcOf(GoOn(z, t), t), GoOn(z, t).low.threads[t])
  {
    hide Start, BeforeInsert, BeforeTake;
    StartPositions(s, z.low.threads[t].pc);
  }

  lemma UpSignals(z: SemState, t: Tid, s: Sem)
    requires t in z.low.threads && z.low.threads[t].pc.Out? && z.low.threads[t].op.Idle?
    requires PcOf(z, t) == UpTest(s)
    requires At(z.value, s) < 0
    requires Balanced(z, s, PcOf(z, t), z.low.threads[t])
    ensures Balanced(GoOn(z, t), s, PcOf(GoOn(z, t), t), GoOn(z, t).low.threads[t])
  {
    hide Start, BeforeInsert, BeforeTake;
    StartPositions(s, z.low.threads[t].pc);
  }

  lemma UpPasses(z: SemState, t: Tid, s: Sem)
    requires t in z.low.threads && z.low.threads[t].pc.Out? && z.low.threads[t].op.Idle?
    requires PcOf(z, t) == UpTest(s)
    requires At(z.value, s) >= 0
    requires Balanced(z, s, PcOf(z, t), z.low.threads[t])
    ensures Balanced(GoOn(z, t), s, PcOf(GoOn(z, t), t), GoOn(z, t).low.threads[t])
  {
    hide Start, BeforeInsert, BeforeTake;
    StartPositions(s, z.low.threads[t].pc);
  }

  lemma LeaveBalance(z: SemState, t: Tid, s: Sem)
    requires t in z.low.threads && z.low.threads[t].pc.Out? && z.low.threads[t].op.Idle?
    requires PcOf(z, t) == DownDone(s) || PcOf(z, t) == UpDone(s)
    requires Balanced(z, s, PcOf(z, t), z.low.threads[t])
    ensures Balanced(GoOn(z, t), s, PcOf(GoOn(z, t), t), GoOn(z, t).low.threads[t])
  {
    hide Start, BeforeInsert, BeforeTake;
    StartPositions(s, z.low.threads[t].pc);
  }

  lemma StartPositions(s: Sem, pc: Pc)
    ensures BeforeInsert(Start(Wait(s, Own(s)))) && BeforeTake(Start(Signal(s, false)))
    ensures !BeforeTake(Start(Wait(s, Own(s)))) && !BeforeInsert(Start(Signal(s, false)))
    ensures !BeforeInsert(Start(Release(Own(s)))) && !BeforeTake(Start(Release(Own(s))))
    ensures pc.Out? ==> !BeforeInsert(pc) && !BeforeTake(pc)
  {
    Unfold(Start(Wait(s, Own(s))));
    Unfold(Start(Signal(s, false)));
    Unfold(Start(Release(Own(s))));
  }

  lemma GoFits(z: SemState, t: Tid)
    requires SemInv(z) && CanStep(z, Go(t))
    ensures ThreadFits(PcOf(GoOn(z, t), t), GoOn(z, t).low.threads[t], z.names)
  {
    hide Inv, SemOk, GoOn, ThreadFits;
    FitsThread(z, t);
    IdleOut(z.low, t);
    var p := PcOf(z, t);
    if p.DownTake? || p.DownTest? || p.DownDone? {
      GoFitsDown(z, t);
    } else {
      GoFitsUp(z, t);
    }
  }

  lemma GoFitsDown(z: SemState, t: Tid)
    requires t in z.low.threads && z.low.threads[t].op.Idle? && ThreadFits(PcOf(z, t), z.low.threads[t], z.names)
    requires PcOf(z, t).DownTake? || PcOf(z, t).DownTest? || PcOf(z, t).DownDone?
    ensures ThreadFits(PcOf(GoOn(z, t), t), GoOn(z, t).low.threads[t], z.names)
  {
    hide Start, Called, Holding;
  }

  lemma GoFitsUp(z: SemState, t: Tid)
    requires t in z.low.threads && z.low.threads[t].op.Idle? && ThreadFits(PcOf(z, t), z.low.threads[t], z.names)
    requires PcOf(z, t).UpTest? || PcOf(z, t).UpAdd? || PcOf(z, t).UpDone? || PcOf(z, t).Leaving?
    ensures ThreadFits(PcOf(GoOn(z, t), t), GoOn(z, t).low.threads[t], z.names)
  {
    hide Start, Called, Holding;
  }

  // What the semaphore code leaves alone.
  ghost predicate Apart(z: SemState, t: Tid, z': SemState)
    requires t in z.low.threads && !PcOf(z, t).Elsewhere?
  {
    && t in z'.low.threads && z'.names == z.names && z'.value.Keys == z.value.Keys && z'.pc.Keys == z.pc.Keys + {t}
    && z'.low == z.low.(threads := z.low.threads[t := z'.low.threads[t]]) && z'.low.threads[t].held == z.low.threads[t].held
    && (forall u :: u != t ==> PcOf(z', u) == PcOf(z, u))
    && (forall s :: s != PcOf(z, t).sem ==> SameAccounts(z, z', s))
    && (PcOf(z', t).Elsewhere? || PcOf(z', t).sem == PcOf(z, t).sem)
    && (PcOf(z, t).Leaving? ==> SameAccounts(z, z', PcOf(z, t).sem))
  }

  lemma GoApart(z: SemState, t: Tid)
    requires t in z.low.threads && !PcOf(z, t).Elsewhere? && PcOf(z, t).sem in z.value
    ensures Apart(z, t, GoOn(z, t))
  {
    hide GoOn, Apart;
    var p := PcOf(z, t);
    if p.DownTake? || p.DownTest? || p.DownDone? {
      GoApartDown(z, t);
    } else if p.Leaving? {
      GoApartLeaving(z, t);
    } else {
      GoApartUp(z, t);
    }
  }

  lemma GoApartLeaving(z: SemState, t: Tid)
    requires t in z.low.threads && PcOf(z, t).Leaving? && PcOf(z, t).sem in z.value
    ensures Apart(z, t, GoOn(z, t))
  {
    assert z.low.threads == z.low.threads[t := z.low.threads[t]];
  }

  lemma GoApartDown(z: SemState, t: Tid)
    requires t in z.low.threads && (PcOf(z, t).DownTake? || PcOf(z, t).DownTest? || PcOf(z, t).DownDone?) && PcOf(z, t).sem in z.value
    ensures Apart(z, t, GoOn(z, t))
  {
    hide Start, Called;
  }

  lemma GoApartUp(z: SemState, t: Tid)
    requires t in z.low.threads && (PcOf(z, t).UpTest? || PcOf(z, t).UpAdd? || PcOf(z, t).UpDone?) && PcOf(z, t).sem in z.value
    ensures Apart(z, t, GoOn(z, t))
  {
    hide Start, Called, Apart, GoOn;
    if PcOf(z, t).UpDone? { GoApartOut(z, t); } else { GoApartIn(z, t); }
  }

  lemma GoApartIn(z: SemState, t: Tid)
    requires t in z.low.threads && (PcOf(z, t).UpTest? || PcOf(z, t).UpAdd?) && PcOf(z, t).sem in z.value
    ensures Apart(z, t, GoOn(z, t))
  {
    hide Start, Called;
  }

  lemma GoApartOut(z: SemState, t: Tid)
    requires t in z.low.threads && PcOf(z, t).UpDone? && PcOf(z, t).sem in z.value
    ensures Apart(z, t, GoOn(z, t))
  {
    hide Start, Called;
  }

  lemma GoSem(z: SemState, t: Tid, s: Sem)
    requires SemInv(z) && CanStep(z, Go(t)) && s in z.value
    ensures SemOk(GoOn(z, t), s)
  {
    hide Inv, Start, Balanced, GoOn, SameAccounts, ThreadFits;
    var z', p := GoOn(z, t), PcOf(z, t);
    FitsThread(z, t);
    IdleOut(z.low, t);
    GoApart(z, t);
    assert SemOk(z, s);
    LocksWithin(z.low);
    HoldsOnly(z, t);
    if s == p.sem && !p.Leaving? {
      OwnBalance(z, t);
    } else {
      forall u | u in z'.low.threads && Own(s) in z'.low.threads[u].held ensures Balanced(z', s, PcOf(z', u), z'.low.threads[u]) {
        StillBalanced(z, z', s, PcOf(z, u), z.low.threads[u]);
      }
      if Own(s) !in z'.low.locked {
        StillBalanced(z, z', s, Elsewhere, Local(Idle, Out, {}));
      }
    }
  }

  lemma HoldsOnly(z: SemState, t: Tid)
    requires SemInv(z) && CanStep(z, Go(t))
    ensures var p := PcOf(z, t);
            && (forall x :: x in z.names && Own(x) in z.low.threads[t].held ==> x == p.sem)
            && (Own(p.sem) in z.low.threads[t].held <==> !p.Leaving?)
  {
    hide Inv, SemOk;
    FitsThread(z, t);
    IdleOut(z.low, t);
  }

  lemma OwnBalance(z: SemState, t: Tid)
    requires SemInv(z) && CanStep(z, Go(t)) && !PcOf(z, t).Leaving?
    ensures Balanced(GoOn(z, t), PcOf(z, t).sem, PcOf(GoOn(z, t), t), GoOn(z, t).low.threads[t])
  {
    hide Inv, Start, Balanced, GoOn, ThreadFits;
    var p := PcOf(z, t);
    FitsThread(z, t);
    IdleOut(z.low, t);
    HoldsOnly(z, t);
    assert SemOk(z, p.sem);
    if p.DownTake? {
      TakeBalance(z, t, p.sem);
    } else if p.DownTest? {
      if At(z.value, p.sem) < 0 { DownBlocks(z, t, p.sem); } else { DownPasses(z, t, p.sem); }
    } else if p.UpTest? {
      if At(z.value, p.sem) < 0 { UpSignals(z, t, p.sem); } else { UpPasses(z, t, p.sem); }
    } else if p.UpAdd? {
      AddBalance(z, t, p.sem);
    } else {
      LeaveBalance(z, t, p.sem);
    }
  }

  lemma GoKeeps(z: SemState, t: Tid)
    requires SemInv(z) && CanStep(z, Go(t))
    ensures SemInv(GoOn(z, t))
  {
    hide Inv, SemOk, GoOn, ThreadFits, SameAccounts;
    StepsBelow(z, Go(t));
    FitsThread(z, t);
    GoApart(z, t);
    GoFits(z, t);
    forall s | s in z.value ensures SemOk(GoOn(z, t), s) {
      GoSem(z, t, s);
    }
  }

  lemma SemStepKeeps(z: SemState, st: Step)
    requires SemInv(z) && CanStep(z, st) && (st.Create? ==> st.count >= 0)
    ensures SemInv(After(z, st))
  {
    hide SemInv, GoOn, Apply, Allowed;
    match st
    case Inner(t, a) => InnerKeeps(z, t, a);
    case Other(x) => OtherKeeps(z, x);
    case Create(s, count) => CreateKeeps(z, s, count);
    case Down(_, _) => EnterKeeps(z, st);
    case Up(_, _) => EnterKeeps(z, st);
    case Go(t) => GoKeeps(z, t);
  }

  // ------------------------------------------------------------------ what holds in every run

  // A run in which every semaphore starts with a count that is not negative.
  ghost predicate IsSemRun(zs: seq<SemState>, sts: seq<Step>) {
    && |zs| == |sts| + 1 && Initial(zs[0].low) && zs[0].value == map[] && zs[0].pc == map[]
    && (forall i :: 0 <= i < |sts| ==> CanStep(zs[i], sts[i]) && zs[i + 1] == After(zs[i], sts[i]))
    && (forall i :: 0 <= i < |sts| && sts[i].Create? ==> sts[i].count >= 0)
  }

  lemma {:induction false} SemRunInv(zs: seq<SemState>, sts: seq<Step>, k: nat)
    requires IsSemRun(zs, sts) && k < |zs|
    ensures SemInv(zs[k])
  {
    hide Inv, After, CanStep;
    if k == 0 {
      InitialInv(zs[0].low);
    } else {
      hide SemInv;
      SemRunInv(zs, sts, k - 1);
      assert CanStep(zs[k - 1], sts[k - 1]) && zs[k - 1 + 1] == After(zs[k - 1], sts[k - 1]);
      SemStepKeeps(zs[k - 1], sts[k - 1]);
    }
  }

  // The calls of sem_wait that have returned or will without another sem_signal.
  function Granted(z: SemState, s: Sem): int { At(z.straight, s) + |Log(z.low.served, s)| }

  // While nobody is inside the semaphore, its value counts the waiters or the free units.
  lemma Conservation(zs: seq<SemState>, sts: seq<Step>, k: nat, s: Sem)
    requires IsSemRun(zs, sts) && k < |zs| && s in zs[k].value && Own(s) !in zs[k].low.locked
    ensures s in zs[k].low.queue && |zs[k].low.queue[s]| == Max(0, -At(zs[k].value, s))
    ensures Granted(zs[k], s) == At(zs[k].start, s) + At(zs[k].ups, s) - Max(0, At(zs[k].value, s))
  {
    hide Inv, IsSemRun;
    SemRunInv(zs, sts, k);
    assert SemOk(zs[k], s);
    QueueHas(zs[k].low, s);
  }

  // sem_wait goes straight through only if nobody is queued.
  lemma NoOvertaking(zs: seq<SemState>, sts: seq<Step>, k: nat, t: Tid)
    requires IsSemRun(zs, sts) && k < |zs| && CanStep(zs[k], Go(t)) && PcOf(zs[k], t).DownTest?
    requires At(zs[k].value, PcOf(zs[k], t).sem) >= 0
    ensures PcOf(zs[k], t).sem in zs[k].low.queue && zs[k].low.queue[PcOf(zs[k], t).sem] == []
  {
    hide Inv, IsSemRun;
    SemRunInv(zs, sts, k);
    FitsThread(zs[k], t);
    IdleOut(zs[k].low, t);
    assert SemOk(zs[k], PcOf(zs[k], t).sem);
  }

  // The law of Conservation fails as soon as sem_init is given a negative count, and only then.
  lemma NegativeCount(z: SemState, s: Sem, count: int)
    requires SemInv(z) && CanStep(z, Create(s, count))
    ensures var z' := After(z, Create(s, count));
            && s in z'.low.queue && (|z'.low.queue[s]| == Max(0, -At(z'.value, s)) <==> count >= 0)
            && (SemInv(z') <==> count >= 0)
  {
    hide Inv;
    var z' := After(z, Create(s, count));
    if count >= 0 {
      CreateKeeps(z, s, count);
    } else {
      NotYetHeld(z, s);
      LocksWithin(z.low);
    }
  }

  // Every run of the semaphores is a run of the lower machine, with steps that leave it alone in between.
  lemma {:induction false} Projects(zs: seq<SemState>, sts: seq<Step>, k: nat) returns (tr: seq<State>, xs: seq<Label>)
    requires IsSemRun(zs, sts) && k < |zs|
    ensures IsRun(tr, xs) && tr[|tr| - 1] == zs[k].low
  {
    hide Inv, After, CanStep, Allowed, Apply, Initial;
    if k == 0 {
      tr, xs := [zs[0].low], [];
    } else {
      SemRunInv(zs, sts, k - 1);
      var tr0, xs0 := Projects(zs, sts, k - 1);
      assert CanStep(zs[k - 1], sts[k - 1]) && zs[k - 1 + 1] == After(zs[k - 1], sts[k - 1]);
      var ys := LowLabels(zs[k - 1], sts[k - 1]);
      if ys == [] {
        tr, xs := tr0, xs0;
      } else {
        tr, xs := tr0 + [zs[k].low], xs0 + ys;
        RunLonger(tr0, xs0, ys[0]);
      }
    }
  }
}
