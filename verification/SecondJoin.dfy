// A run of the thread library in which a second thr_join gets past the test of joinedFlag: the one that
// the hypothesis of one joiner per thread rules out.

module SecondJoin {
  import opened Sync
  import T = Threads

  // Steps from one state to the next, none of which is a second thr_join for the same thread.
  ghost predicate Chain(zs: seq<T.ThrState>, sts: seq<T.Step>) {
    |zs| == |sts| + 1 && forall i :: 0 <= i < |sts| ==> T.CanStep(zs[i], sts[i]) && zs[i + 1] == T.After(zs[i], sts[i])
  }

  ghost predicate Leads(from: T.ThrState, z: T.ThrState) {
    exists zs, sts :: Chain(zs, sts) && |zs| > 0 && zs[0] == from && zs[|zs| - 1] == z
  }

  lemma Here(z: T.ThrState)
    ensures Leads(z, z)
  {
    var zs, sts: seq<T.Step> := [z], [];
    assert Chain(zs, sts) && |zs| > 0 && zs[0] == z && zs[|zs| - 1] == z;
  }

  lemma Steps(from: T.ThrState, z: T.ThrState, st: T.Step)
    requires Leads(from, z) && T.CanStep(z, st)
    ensures Leads(from, T.After(z, st))
  {
    hide T.CanStep, T.After;
    var zs, sts :| Chain(zs, sts) && |zs| > 0 && zs[0] == from && zs[|zs| - 1] == z;
    var zs', sts' := zs + [T.After(z, st)], sts + [st];
    forall i | 0 <= i < |sts'| ensures T.CanStep(zs'[i], sts'[i]) && zs'[i + 1] == T.After(zs'[i], sts'[i]) {
      if i < |sts| { assert T.CanStep(zs[i], sts[i]) && zs[i + 1] == T.After(zs[i], sts[i]); }
    }
    assert zs'[0] == zs[0];
    assert Chain(zs', sts') && zs'[|zs'| - 1] == T.After(z, st);
  }

  const LIST: Mutex := T.LIST_MUTEX

  // z with thread t at l, the mutexes lk locked, and t at p in the thread library.
  function Stand(z: T.ThrState, t: Tid, l: Local, lk: set<Mutex>, p: T.ThrPc): T.ThrState {
    z.(low := z.low.(threads := z.low.threads[t := l], locked := lk), pc := z.pc[t := p])
  }

  function Idling(h: set<Mutex>): Local { Local(Idle, Out, h) }

  function Calling(op: Op, h: set<Mutex>): Local { Local(op, Start(op), h) }

  function At(op: Op, k: Pc, h: set<Mutex>): Local { Local(if k.Out? then Idle else op, k, h) }

  // ------------------------------------------------------------------ steps of the lower library

  lemma Inner(from: T.ThrState, z: T.ThrState, t: Tid, a: Addr)
    requires Leads(from, z) && Allowed(z.low, Run(t, a))
    ensures Leads(from, z.(low := Next(z.low, t, a)))
  {
    hide Leads, Next, Allowed;
    assert T.CanStep(z, T.Inner(t, a));
    Steps(from, z, T.Inner(t, a));
  }

  // One step of t at pc that changes nothing but its own position.
  lemma Moves(from: T.ThrState, z: T.ThrState, t: Tid, op: Op, pc: Pc, h: set<Mutex>, lk: set<Mutex>, p: T.ThrPc, k: Pc)
    requires Leads(from, Stand(z, t, Local(op, pc, h), lk, p)) && t !in z.low.blocked && !pc.Out? && !pc.Failed? && !pc.WaitRecord? && !k.Out?
    requires Next(Stand(z, t, Local(op, pc, h), lk, p).low, t, 0) == Goto(Stand(z, t, Local(op, pc, h), lk, p).low, t, k)
    ensures Leads(from, Stand(z, t, Local(op, k, h), lk, p))
  {
    hide Leads, Next;
    var z0, z1 := Stand(z, t, Local(op, pc, h), lk, p), Stand(z, t, Local(op, k, h), lk, p);
    Inner(from, z0, t, 0);
    assert z0.(low := Next(z0.low, t, 0)) == z1;
  }

  lemma Locks(from: T.ThrState, z: T.ThrState, t: Tid, op: Op, m: Mutex, k: Pc, h: set<Mutex>, lk: set<Mutex>, p: T.ThrPc)
    requires Leads(from, Stand(z, t, Local(op, Lock(m, k), h), lk, p)) && t !in z.low.blocked && Initialised(z.low, m) && m !in lk
    ensures Leads(from, Stand(z, t, At(op, k, h + {m}), lk + {m}, p))
  {
    hide Leads;
    Moves(from, z, t, op, Lock(m, k), h, lk, p, Spin(m, k));
    var z1 := Stand(z, t, Local(op, Spin(m, k), h), lk, p);
    Inner(from, z1, t, 0);
    assert z1.(low := Next(z1.low, t, 0)) == Stand(z, t, At(op, k, h + {m}), lk + {m}, p);
  }

  lemma Unlocks(from: T.ThrState, z: T.ThrState, t: Tid, op: Op, m: Mutex, k: Pc, h: set<Mutex>, lk: set<Mutex>, p: T.ThrPc)
    requires Leads(from, Stand(z, t, Local(op, Unlock(m, k), h + {m}), lk + {m}, p)) && t !in z.low.blocked && Initialised(z.low, m) && m !in lk && m !in h
    ensures Leads(from, Stand(z, t, At(op, k, h), lk, p))
  {
    hide Leads;
    Moves(from, z, t, op, Unlock(m, k), h + {m}, lk + {m}, p, Drop(m, k));
    var z1 := Stand(z, t, Local(op, Drop(m, k), h + {m}), lk + {m}, p);
    Inner(from, z1, t, 0);
    assert lk + {m} - {m} == lk && h + {m} - {m} == h;
    assert z1.(low := Next(z1.low, t, 0)) == Stand(z, t, At(op, k, h), lk, p);
  }

  // A call of malloc or free, from beginning to end.
  lemma Allocates(from: T.ThrState, z: T.ThrState, t: Tid, h: set<Mutex>, lk: set<Mutex>, p: T.ThrPc)
    requires Leads(from, Stand(z, t, Calling(Heap, h), lk, p)) && t !in z.low.blocked && MallocMutex !in lk && MallocMutex !in h
    ensures Leads(from, Stand(z, t, Idling(h), lk, p))
  {
    hide Leads, Stand;
    Locks(from, z, t, Heap, MallocMutex, HeapWork, h, lk, p);
    HeapWorks(from, z, t, h + {MallocMutex}, lk + {MallocMutex}, p);
    Unlocks(from, z, t, Heap, MallocMutex, Out, h, lk, p);
  }

  lemma HeapWorks(from: T.ThrState, z: T.ThrState, t: Tid, h: set<Mutex>, lk: set<Mutex>, p: T.ThrPc)
    requires Leads(from, Stand(z, t, Local(Heap, HeapWork, h), lk, p)) && t !in z.low.blocked
    ensures Leads(from, Stand(z, t, Local(Heap, Unlock(MallocMutex, Out), h), lk, p))
  {
    hide Leads;
    Moves(from, z, t, Heap, HeapWork, h, lk, p, Unlock(MallocMutex, Out));
  }

  // ------------------------------------------------------------------ steps of the thread library

  lemma Goes(from: T.ThrState, z: T.ThrState, t: Tid, h: set<Mutex>, lk: set<Mutex>, p: T.ThrPc, ans: T.Answer, z': T.ThrState)
    requires Leads(from, Stand(z, t, Idling(h), lk, p)) && !p.Away? && !p.Gone? && !p.Broken?
    requires p.CreateAlloc? ==> T.Unused(Stand(z, t, Idling(h), lk, p), ans.addr)
    requires p.CreateFork? ==> ans.tid !in z.low.threads && ans.tid != t
    requires T.GoOn(Stand(z, t, Idling(h), lk, p), t, ans) == z'
    ensures Leads(from, z')
  {
    hide Leads, T.GoOn, T.Unused;
    Steps(from, Stand(z, t, Idling(h), lk, p), T.Go(t, ans));
  }

  const YES: T.Answer := T.Answer(true, 0, 0)

  // In client code, with no mutex.
  ghost predicate Free(z: T.ThrState, t: Tid) {
    t in z.low.threads && z.low.threads[t] == Idling({}) && T.PcOf(z, t).Away? && t !in z.low.blocked
  }

  // Enters one of the library's functions and locks the list.
  lemma Enters(from: T.ThrState, z: T.ThrState, t: Tid, st: T.Step, z1: T.ThrState, p: T.ThrPc)
    requires Leads(from, z) && T.CanStep(z, st) && T.After(z, st) == Stand(z1, t, Calling(Acquire(LIST), {}), z.low.locked, p)
    requires t !in z1.low.blocked && LIST !in z.low.locked
    ensures Leads(from, Stand(z1, t, Idling({LIST}), z.low.locked + {LIST}, p))
  {
    hide Leads, T.CanStep, T.After, Stand;
    Steps(from, z, st);
    Locks(from, z1, t, Acquire(LIST), LIST, Out, {}, z.low.locked, p);
    assert {} + {LIST} == {LIST};
  }

  // Unlocks the list and stands at p.
  lemma Leaves(from: T.ThrState, z: T.ThrState, t: Tid, lk: set<Mutex>, p: T.ThrPc)
    requires Leads(from, Stand(z, t, Calling(Release(LIST), {LIST}), lk + {LIST}, p)) && t !in z.low.blocked && LIST !in lk
    ensures Leads(from, Stand(z, t, Idling({}), lk, p))
  {
    hide Leads, Stand;
    assert {} + {LIST} == {LIST};
    Unlocks(from, z, t, Release(LIST), LIST, Out, {}, lk, p);
  }

  // ------------------------------------------------------------------ thr_create

  function WithRecord(z: T.ThrState, a: Addr): T.ThrState {
    z.(low := z.low.(queue := z.low.queue[a := []], ready := z.low.ready + {a}, came := z.low.came[a := []], served := z.low.served[a := []]),
       recs := z.recs[a := T.ThreadRec(false, false, 0)])
  }

  function Forked(z: T.ThrState, t: Tid, u: Tid): T.ThrState {
    z.(low := z.low.(threads := z.low.threads[u := Idling({})]), stage := z.stage[u := T.Pending(t)])
  }

  function Published(z: T.ThrState, u: Tid, a: Addr): T.ThrState { z.(list := z.list[u := a], stage := z.stage[u := T.Listed]) }

  function Created(z: T.ThrState, t: Tid, u: Tid, a: Addr): T.ThrState { Published(Forked(WithRecord(z, a), t, u), u, a) }

  lemma StartsCreate(from: T.ThrState, z: T.ThrState, t: Tid, h: set<Mutex>, lk: set<Mutex>)
    requires Leads(from, Stand(z, t, Idling(h), lk, T.CreateEnter(false)))
    ensures Leads(from, Stand(z, t, Idling(h), lk, T.CreatePages))
  {
    hide Leads, T.GoJoin, T.GoExit, T.Unused;
    Goes(from, z, t, h, lk, T.CreateEnter(false), YES, Stand(z, t, Idling(h), lk, T.CreatePages));
  }

  lemma GetsPages(from: T.ThrState, z: T.ThrState, t: Tid, h: set<Mutex>, lk: set<Mutex>)
    requires Leads(from, Stand(z, t, Idling(h), lk, T.CreatePages))
    ensures Leads(from, Stand(z, t, Calling(Heap, h), lk, T.CreateAlloc))
  {
    hide Leads, T.GoJoin, T.GoExit, T.Unused;
    Goes(from, z, t, h, lk, T.CreatePages, YES, Stand(z, t, Calling(Heap, h), lk, T.CreateAlloc));
  }

  lemma GetsRecord(from: T.ThrState, z: T.ThrState, t: Tid, a: Addr, h: set<Mutex>, lk: set<Mutex>)
    requires Leads(from, Stand(z, t, Idling(h), lk, T.CreateAlloc)) && T.Unused(Stand(z, t, Idling(h), lk, T.CreateAlloc), a)
    ensures Leads(from, Stand(WithRecord(z, a), t, Idling(h), lk, T.CreateFork(a)))
  {
    hide Leads, T.GoJoin, T.GoExit, T.Unused;
    Goes(from, z, t, h, lk, T.CreateAlloc, T.Answer(true, a, 0), Stand(WithRecord(z, a), t, Idling(h), lk, T.CreateFork(a)));
  }

  lemma Forks(from: T.ThrState, z: T.ThrState, t: Tid, u: Tid, a: Addr, h: set<Mutex>, lk: set<Mutex>)
    requires Leads(from, Stand(z, t, Idling(h), lk, T.CreateFork(a))) && u !in z.low.threads && u != t
    ensures Leads(from, Stand(Forked(z, t, u), t, Idling(h), lk, T.CreateFields(a, u)))
  {
    hide Leads, T.GoOn, Stand, Forked;
    ForkIs(z, t, u, a, h, lk);
    Goes(from, z, t, h, lk, T.CreateFork(a), T.Answer(true, 0, u), Stand(Forked(z, t, u), t, Idling(h), lk, T.CreateFields(a, u)));
  }

  lemma ForkIs(z: T.ThrState, t: Tid, u: Tid, a: Addr, h: set<Mutex>, lk: set<Mutex>)
    requires u != t
    ensures var z1 := Stand(z, t, Idling(h), lk, T.CreateFork(a));
            t in z1.low.threads && T.GoOn(z1, t, T.Answer(true, 0, u)) == Stand(Forked(z, t, u), t, Idling(h), lk, T.CreateFields(a, u))
  {
    hide T.GoJoin, T.GoExit;
  }

  lemma FillsIn(from: T.ThrState, z: T.ThrState, t: Tid, u: Tid, a: Addr, h: set<Mutex>, lk: set<Mutex>)
    requires Leads(from, Stand(z, t, Idling(h), lk, T.CreateFields(a, u))) && a in z.recs && z.recs[a] == T.ThreadRec(false, false, 0)
    ensures Leads(from, Stand(z, t, Calling(Heap, h), lk, T.CreateInsert(a, u)))
  {
    hide Leads, T.GoJoin, T.GoExit;
    assert z.recs[a := T.ThreadRec(false, false, 0)] == z.recs;
    Goes(from, z, t, h, lk, T.CreateFields(a, u), YES, Stand(z, t, Calling(Heap, h), lk, T.CreateInsert(a, u)));
  }

  lemma Publishes(from: T.ThrState, z: T.ThrState, t: Tid, u: Tid, a: Addr, h: set<Mutex>, lk: set<Mutex>)
    requires Leads(from, Stand(z, t, Idling(h), lk, T.CreateInsert(a, u)))
    ensures Leads(from, Stand(Published(z, u, a), t, Calling(Release(LIST), h), lk, T.Leave(u)))
  {
    hide Leads, T.GoOn, Stand, Published;
    PublishIs(z, t, u, a, h, lk);
    Goes(from, z, t, h, lk, T.CreateInsert(a, u), YES, Stand(Published(z, u, a), t, Calling(Release(LIST), h), lk, T.Leave(u)));
  }

  lemma PublishIs(z: T.ThrState, t: Tid, u: Tid, a: Addr, h: set<Mutex>, lk: set<Mutex>)
    ensures var z1 := Stand(z, t, Idling(h), lk, T.CreateInsert(a, u));
            t in z1.low.threads && T.GoOn(z1, t, YES) == Stand(Published(z, u, a), t, Calling(Release(LIST), h), lk, T.Leave(u))
  {
    hide T.GoJoin, T.GoExit;
  }

  lemma ComesBack(from: T.ThrState, z: T.ThrState, t: Tid, u: Tid, h: set<Mutex>, lk: set<Mutex>)
    requires Leads(from, Stand(z, t, Idling(h), lk, T.Leave(u)))
    ensures Leads(from, Stand(z, t, Idling(h), lk, T.Away))
  {
    hide Leads, T.GoJoin, T.GoCreate;
    Goes(from, z, t, h, lk, T.Leave(u), YES, Stand(z, t, Idling(h), lk, T.Away));
  }

  // A call of thr_create that succeeds, with nobody else going on.
  lemma Creates(from: T.ThrState, z: T.ThrState, t: Tid, u: Tid, a: Addr)
    requires Leads(from, z) && Free(z, t) && LIST !in z.low.locked && MallocMutex !in z.low.locked && u !in z.low.threads && T.Unused(z, a)
    ensures Leads(from, Stand(Created(z, t, u, a), t, Idling({}), z.low.locked, T.Away))
  {
    hide Leads, Stand, T.Unused, T.CanStep, T.After, WithRecord, Forked, Published;
    var lk := z.low.locked;
    var h, all := {LIST}, lk + {LIST};
    CallsCreate(from, z, t);
    StartsCreate(from, z, t, h, all);
    GetsPages(from, z, t, h, all);
    Allocates(from, z, t, h, all, T.CreateAlloc);
    StillUnused(z, t, a);
    GetsRecord(from, z, t, a, h, all);
    SameHere(z, t, u, a);
    Forks(from, WithRecord(z, a), t, u, a, h, all);
    FillsIn(from, Forked(WithRecord(z, a), t, u), t, u, a, h, all);
    Allocates(from, Forked(WithRecord(z, a), t, u), t, h, all, T.CreateInsert(a, u));
    Publishes(from, Forked(WithRecord(z, a), t, u), t, u, a, h, all);
    Leaves(from, Created(z, t, u, a), t, lk, T.Leave(u));
    ComesBack(from, Created(z, t, u, a), t, u, {}, lk);
  }

  lemma CallsCreate(from: T.ThrState, z: T.ThrState, t: Tid)
    requires Leads(from, z) && Free(z, t) && LIST !in z.low.locked
    ensures Leads(from, Stand(z, t, Idling({LIST}), z.low.locked + {LIST}, T.CreateEnter(false)))
  {
    hide Leads, T.GoOn, Apply, Next;
    Enters(from, z, t, T.Create(t, false), z, T.CreateEnter(false));
  }

  lemma StillUnused(z: T.ThrState, t: Tid, a: Addr)
    requires T.Unused(z, a) && t in z.low.threads
    ensures T.Unused(Stand(z, t, Idling({LIST}), z.low.locked + {LIST}, T.CreateAlloc), a)
  {
    var z1 := Stand(z, t, Idling({LIST}), z.low.locked + {LIST}, T.CreateAlloc);
    forall x | x in z1.low.threads && T.OnCond(z1.low.threads[x].op) ensures z1.low.threads[x].op.cond != a {
      assert z1.low.threads[x] == z.low.threads[x];
    }
  }

  lemma SameHere(z: T.ThrState, t: Tid, u: Tid, a: Addr)
    ensures WithRecord(z, a).low.threads == z.low.threads && WithRecord(z, a).low.blocked == z.low.blocked
    ensures var z1 := Forked(WithRecord(z, a), t, u);
            z1.low.blocked == z.low.blocked && a in z1.recs && z1.recs[a] == T.ThreadRec(false, false, 0)
    ensures Created(z, t, u, a).low.blocked == z.low.blocked && Created(z, t, u, a) == Published(Forked(WithRecord(z, a), t, u), u, a)
  {
  }

  // ------------------------------------------------------------------ thr_join, up to the wait

  // thr_join has been called for u by t; the flag is set; the record r waits in the queue.
  function Asked(z: T.ThrState, t: Tid, u: Tid): T.ThrState { z.(joiner := z.joiner[u := t]) }

  function Flagged(z: T.ThrState, a: Addr): T.ThrState
    requires a in z.recs
  {
    z.(recs := z.recs[a := z.recs[a].(joined := true)])
  }

  function Recorded(z: T.ThrState, t: Tid, a: Cond, r: Addr): T.ThrState { z.(low := z.low.(recs := z.low.recs[r := Rec(t, false, a, Fresh)])) }

  function Waiting(z: T.ThrState, t: Tid, a: Cond, r: Addr): T.ThrState {
    z.(low := z.low.(queue := z.low.queue[a := [Node(r, t)]], came := z.low.came[a := [t]], recs := z.low.recs[r := Rec(t, false, a, Queued)]))
  }

  lemma JoinStarts(from: T.ThrState, z: T.ThrState, t: Tid, u: Tid)
    requires Leads(from, z) && Free(z, t) && LIST !in z.low.locked && u in z.low.threads && u !in z.joiner
    ensures Leads(from, Stand(Asked(z, t, u), t, Idling({LIST}), z.low.locked + {LIST}, T.JoinEnter(u)))
  {
    hide Leads, T.CanStep, T.After, Stand;
    JoinAllowed(z, t, u);
    JoinIs(z, t, u);
    Enters(from, z, t, T.Join(t, u), Asked(z, t, u), T.JoinEnter(u));
  }

  lemma JoinAllowed(z: T.ThrState, t: Tid, u: Tid)
    requires Free(z, t) && u in z.low.threads && u !in z.joiner
    ensures T.CanStep(z, T.Join(t, u)) && Asked(z, t, u).low.blocked == z.low.blocked && t !in z.low.blocked
  {
  }

  lemma JoinIs(z: T.ThrState, t: Tid, u: Tid)
    requires Free(z, t) && T.CanStep(z, T.Join(t, u))
    ensures T.After(z, T.Join(t, u)) == Stand(Asked(z, t, u), t, Calling(Acquire(LIST), {}), z.low.locked, T.JoinEnter(u))
  {
    hide T.CanStep, T.GoOn, Apply, Next, Start;
  }

  lemma JoinFinds(from: T.ThrState, z: T.ThrState, t: Tid, u: Tid, a: Addr, h: set<Mutex>, lk: set<Mutex>)
    requires Leads(from, Stand(z, t, Idling(h), lk, T.JoinEnter(u))) && u in z.list && z.list[u] == a
    ensures Leads(from, Stand(z, t, Idling(h), lk, T.JoinTest(u, a)))
  {
    hide Leads, T.GoCreate, T.GoExit;
    Goes(from, z, t, h, lk, T.JoinEnter(u), YES, Stand(z, t, Idling(h), lk, T.JoinTest(u, a)));
  }

  lemma JoinPasses(from: T.ThrState, z: T.ThrState, t: Tid, u: Tid, a: Addr, h: set<Mutex>, lk: set<Mutex>)
    requires Leads(from, Stand(z, t, Idling(h), lk, T.JoinTest(u, a))) && a in z.recs && !z.recs[a].joined
    ensures Leads(from, Stand(z, t, Idling(h), lk, T.JoinSleep(u, a)))
  {
    hide Leads, T.GoCreate, T.GoExit;
    Goes(from, z, t, h, lk, T.JoinTest(u, a), YES, Stand(z, t, Idling(h), lk, T.JoinSleep(u, a)));
  }

  lemma JoinWaits(from: T.ThrState, z: T.ThrState, t: Tid, u: Tid, a: Addr, h: set<Mutex>, lk: set<Mutex>)
    requires Leads(from, Stand(z, t, Idling(h), lk, T.JoinSleep(u, a))) && a in z.recs && !z.recs[a].exited
    ensures Leads(from, Stand(Flagged(z, a), t, Calling(Wait(a, LIST), h), lk, T.JoinCollect(u, a)))
  {
    hide Leads, T.GoOn, Stand, Flagged;
    JoinWaitIs(z, t, u, a, h, lk);
    Goes(from, z, t, h, lk, T.JoinSleep(u, a), YES, Stand(Flagged(z, a), t, Calling(Wait(a, LIST), h), lk, T.JoinCollect(u, a)));
  }

  lemma JoinWaitIs(z: T.ThrState, t: Tid, u: Tid, a: Addr, h: set<Mutex>, lk: set<Mutex>)
    requires a in z.recs && !z.recs[a].exited
    ensures var z1 := Stand(z, t, Idling(h), lk, T.JoinSleep(u, a));
            t in z1.low.threads && T.GoOn(z1, t, YES) == Stand(Flagged(z, a), t, Calling(Wait(a, LIST), h), lk, T.JoinCollect(u, a))
  {
    hide T.GoCreate, T.GoExit;
  }

  // One step inside cond_wait that changes data: t goes on to k, and the rest of z becomes z1.
  lemma Changes(from: T.ThrState, z: T.ThrState, z1: T.ThrState, t: Tid, a: Addr, op: Op, pc: Pc, h: set<Mutex>, lk: set<Mutex>, p: T.ThrPc, k: Pc)
    requires Leads(from, Stand(z, t, Local(op, pc, h), lk, p)) && t !in z.low.blocked && !pc.Out? && !pc.Failed? && (pc.WaitRecord? ==> a !in z.low.recs)
    requires Stand(z, t, Local(op, pc, h), lk, p).(low := Next(Stand(z, t, Local(op, pc, h), lk, p).low, t, a)) == Stand(z1, t, Local(op, k, h), lk, p)
    ensures Leads(from, Stand(z1, t, Local(op, k, h), lk, p))
  {
    hide Leads, Next;
    Inner(from, Stand(z, t, Local(op, pc, h), lk, p), t, a);
  }

  lemma WaitBegins(from: T.ThrState, z: T.ThrState, t: Tid, a: Cond, h: set<Mutex>, lk: set<Mutex>, p: T.ThrPc)
    requires Leads(from, Stand(z, t, Calling(Wait(a, LIST), h), lk, p)) && t !in z.low.blocked && a in z.low.ready && a in z.low.queue
    requires CondMutex(a) !in lk && MallocMutex !in lk
    ensures Leads(from, Stand(z, t, Local(Wait(a, LIST), WaitRecord(a, LIST), h + {CondMutex(a)} + {MallocMutex}), lk + {CondMutex(a)} + {MallocMutex}, p))
  {
    hide Leads;
    var op := Wait(a, LIST);
    Locks(from, z, t, op, CondMutex(a), WaitCheck(a, LIST), h, lk, p);
    Moves(from, z, t, op, WaitCheck(a, LIST), h + {CondMutex(a)}, lk + {CondMutex(a)}, p, Lock(MallocMutex, WaitRecord(a, LIST)));
    Locks(from, z, t, op, MallocMutex, WaitRecord(a, LIST), h + {CondMutex(a)}, lk + {CondMutex(a)}, p);
  }

  lemma WaitRecords(from: T.ThrState, z: T.ThrState, t: Tid, a: Cond, r: Addr, h: set<Mutex>, lk: set<Mutex>, p: T.ThrPc)
    requires Leads(from, Stand(z, t, Local(Wait(a, LIST), WaitRecord(a, LIST), h + {MallocMutex}), lk + {MallocMutex}, p))
    requires t !in z.low.blocked && r !in z.low.recs && MallocMutex !in lk && MallocMutex !in h
    ensures Leads(from, Stand(Recorded(z, t, a, r), t, Local(Wait(a, LIST), Lock(MallocMutex, WaitNode(a, LIST, r)), h), lk, p))
  {
    hide Leads;
    var op, z1 := Wait(a, LIST), Recorded(z, t, a, r);
    Changes(from, z, z1, t, r, op, WaitRecord(a, LIST), h + {MallocMutex}, lk + {MallocMutex}, p, Unlock(MallocMutex, Lock(MallocMutex, WaitNode(a, LIST, r))));
    Unlocks(from, z1, t, op, MallocMutex, Lock(MallocMutex, WaitNode(a, LIST, r)), h, lk, p);
  }

  lemma WaitMakesNode(from: T.ThrState, z: T.ThrState, t: Tid, a: Cond, r: Addr, h: set<Mutex>, lk: set<Mutex>, p: T.ThrPc)
    requires Leads(from, Stand(z, t, Local(Wait(a, LIST), Lock(MallocMutex, WaitNode(a, LIST, r)), h), lk, p))
    requires t !in z.low.blocked && MallocMutex !in lk && MallocMutex !in h
    ensures Leads(from, Stand(z, t, Local(Wait(a, LIST), WaitInsert(a, LIST, r), h), lk, p))
  {
    hide Leads;
    var op := Wait(a, LIST);
    Locks(from, z, t, op, MallocMutex, WaitNode(a, LIST, r), h, lk, p);
    Moves(from, z, t, op, WaitNode(a, LIST, r), h + {MallocMutex}, lk + {MallocMutex}, p, Unlock(MallocMutex, WaitInsert(a, LIST, r)));
    Unlocks(from, z, t, op, MallocMutex, WaitInsert(a, LIST, r), h, lk, p);
  }

  lemma WaitQueues(from: T.ThrState, z: T.ThrState, t: Tid, a: Cond, r: Addr, h: set<Mutex>, lk: set<Mutex>, p: T.ThrPc)
    requires Leads(from, Stand(Recorded(z, t, a, r), t, Local(Wait(a, LIST), WaitInsert(a, LIST, r), h), lk, p))
    requires t !in z.low.blocked && a in z.low.queue && z.low.queue[a] == [] && Log(z.low.came, a) == []
    ensures Leads(from, Stand(Waiting(z, t, a, r), t, Local(Wait(a, LIST), Unlock(LIST, Unlock(CondMutex(a), WaitTest(LIST, r))), h), lk, p))
  {
    hide Leads;
    assert z.low.recs[r := Rec(t, false, a, Fresh)][r := Rec(t, false, a, Queued)] == z.low.recs[r := Rec(t, false, a, Queued)];
    assert [] + [Node(r, t)] == [Node(r, t)] && [] + [t] == [t];
    Changes(from, Recorded(z, t, a, r), Waiting(z, t, a, r), t, 0, Wait(a, LIST), WaitInsert(a, LIST, r), h, lk, p,
            Unlock(LIST, Unlock(CondMutex(a), WaitTest(LIST, r))));
  }

  lemma WaitLetsGo(from: T.ThrState, z: T.ThrState, t: Tid, a: Cond, r: Addr, lk: set<Mutex>, p: T.ThrPc)
    requires Leads(from, Stand(z, t, Local(Wait(a, LIST), Unlock(LIST, Unlock(CondMutex(a), WaitTest(LIST, r))), {CondMutex(a)} + {LIST}), lk + {CondMutex(a)} + {LIST}, p))
    requires t !in z.low.blocked && a in z.low.ready && LIST !in lk && CondMutex(a) !in lk
    ensures Leads(from, Stand(z, t, Local(Wait(a, LIST), WaitTest(LIST, r), {}), lk, p))
  {
    hide Leads;
    Unlocks(from, z, t, Wait(a, LIST), LIST, Unlock(CondMutex(a), WaitTest(LIST, r)), {CondMutex(a)}, lk + {CondMutex(a)}, p);
    assert {} + {CondMutex(a)} == {CondMutex(a)};
    Unlocks(from, z, t, Wait(a, LIST), CondMutex(a), WaitTest(LIST, r), {}, lk, p);
  }

  function Joined(z: T.ThrState, t: Tid, u: Tid, a: Addr, r: Addr): T.ThrState
    requires a in z.recs
  {
    Waiting(Flagged(Asked(z, t, u), a), t, a, r)
  }

  // A call of thr_join for a thread that runs, up to where it has let go of the list.
  lemma Joins(from: T.ThrState, z: T.ThrState, t: Tid, u: Tid, a: Addr, r: Addr)
    requires Leads(from, z) && Free(z, t) && LIST !in z.low.locked && MallocMutex !in z.low.locked && CondMutex(a) !in z.low.locked
    requires u in z.low.threads && u !in z.joiner && u in z.list && z.list[u] == a && a in z.recs && !z.recs[a].joined && !z.recs[a].exited
    requires a in z.low.ready && a in z.low.queue && z.low.queue[a] == [] && Log(z.low.came, a) == [] && r !in z.low.recs
    ensures Leads(from, Stand(Joined(z, t, u, a, r), t, Local(Wait(a, LIST), WaitTest(LIST, r), {}), z.low.locked, T.JoinCollect(u, a)))
  {
    hide Leads, Stand, Asked, Flagged, Recorded, Waiting;
    var lk := z.low.locked;
    var h, all, p := {LIST}, lk + {LIST}, T.JoinCollect(u, a);
    var zj := Asked(z, t, u);
    AskedIs(z, t, u);
    JoinStarts(from, z, t, u);
    JoinFinds(from, zj, t, u, a, h, all);
    JoinPasses(from, zj, t, u, a, h, all);
    JoinWaits(from, zj, t, u, a, h, all);
    var zf := Flagged(zj, a);
    FlaggedIs(zj, a);
    WaitBegins(from, zf, t, a, h, all, p);
    WaitRecords(from, zf, t, a, r, h + {CondMutex(a)}, all + {CondMutex(a)}, p);
    RecordedIs(zf, t, a, r);
    WaitMakesNode(from, Recorded(zf, t, a, r), t, a, r, h + {CondMutex(a)}, all + {CondMutex(a)}, p);
    WaitQueues(from, zf, t, a, r, h + {CondMutex(a)}, all + {CondMutex(a)}, p);
    assert h + {CondMutex(a)} == {CondMutex(a)} + {LIST} && all + {CondMutex(a)} == lk + {CondMutex(a)} + {LIST};
    WaitLetsGo(from, Waiting(zf, t, a, r), t, a, r, lk, p);
  }

  lemma AskedIs(z: T.ThrState, t: Tid, u: Tid)
    ensures Asked(z, t, u) == z.(joiner := z.joiner[u := t])
  {
  }

  lemma FlaggedIs(z: T.ThrState, a: Addr)
    requires a in z.recs
    ensures Flagged(z, a).low == z.low
  {
  }

  lemma RecordedIs(z: T.ThrState, t: Tid, a: Cond, r: Addr)
    ensures Recorded(z, t, a, r).low.blocked == z.low.blocked && Waiting(z, t, a, r).low.blocked == z.low.blocked && Waiting(z, t, a, r).low.ready == z.low.ready
  {
  }

  // ------------------------------------------------------------------ thr_exit, up to the vanishing

  function Exited(z: T.ThrState, u: Tid, a: Addr, status: int): T.ThrState {
    z.(recs := z.recs[a := T.ThreadRec(true, false, status)], passed := z.passed[u := status])
  }

  // The signaller u has dequeued the record r of w, and has marked it.
  function Dequeued(z: T.ThrState, u: Tid, w: Tid, a: Cond, r: Addr, x: Rec): T.ThrState {
    z.(low := z.low.(queue := z.low.queue[a := []], served := z.low.served[a := [w]], recs := z.low.recs[r := x]))
  }

  ghost predicate OneWaits(z: T.ThrState, w: Tid, a: Cond, r: Addr) {
    && a in z.low.ready && a in z.low.queue && z.low.queue[a] == [Node(r, w)] && Log(z.low.served, a) == []
    && r in z.low.recs && z.low.recs[r] == Rec(w, false, a, Queued) && w !in z.low.blocked
  }

  lemma ExitStarts(from: T.ThrState, z: T.ThrState, u: Tid, status: int)
    requires Leads(from, z) && Free(z, u) && LIST !in z.low.locked
    ensures Leads(from, Stand(z, u, Idling({LIST}), z.low.locked + {LIST}, T.ExitEnter(status)))
  {
    hide Leads, T.GoOn, Apply, Next;
    Enters(from, z, u, T.Exit(u, status), z, T.ExitEnter(status));
  }

  lemma ExitRecords(from: T.ThrState, z: T.ThrState, u: Tid, a: Addr, status: int, h: set<Mutex>, lk: set<Mutex>)
    requires Leads(from, Stand(z, u, Idling(h), lk, T.ExitEnter(status))) && u in z.list && z.list[u] == a && a in z.recs
    ensures Leads(from, Stand(Exited(z, u, a, status), u, Calling(Signal(a, false), h), lk, T.ExitUnlock(a)))
  {
    hide Leads, T.GoCreate, T.GoJoin;
    Goes(from, z, u, h, lk, T.ExitEnter(status), YES, Stand(Exited(z, u, a, status), u, Calling(Signal(a, false), h), lk, T.ExitUnlock(a)));
  }

  lemma ExitUnlocks(from: T.ThrState, z: T.ThrState, u: Tid, a: Addr, h: set<Mutex>, lk: set<Mutex>)
    requires Leads(from, Stand(z, u, Idling(h), lk, T.ExitUnlock(a)))
    ensures Leads(from, Stand(z, u, Calling(Release(LIST), h), lk, T.ExitVanish))
  {
    hide Leads, T.GoCreate, T.GoJoin;
    Goes(from, z, u, h, lk, T.ExitUnlock(a), YES, Stand(z, u, Calling(Release(LIST), h), lk, T.ExitVanish));
  }

  lemma SignalCounts(from: T.ThrState, z: T.ThrState, u: Tid, w: Tid, a: Cond, r: Addr, h: set<Mutex>, lk: set<Mutex>, p: T.ThrPc)
    requires Leads(from, Stand(z, u, Calling(Signal(a, false), h), lk, p)) && u !in z.low.blocked && OneWaits(z, w, a, r) && CondMutex(a) !in lk
    ensures Leads(from, Stand(z, u, Local(Signal(a, false), SignalTake(Job(a, false, [], [w]), 1), h + {CondMutex(a)}), lk + {CondMutex(a)}, p))
  {
    hide Leads, Stand, Next;
    var op, h', lk', j := Signal(a, false), h + {CondMutex(a)}, lk + {CondMutex(a)}, Job(a, false, [], [w]);
    Locks(from, z, u, op, CondMutex(a), SignalCheck(a, false), h, lk, p);
    SignalChecked(z, u, w, a, r, h', lk', p);
    Moves(from, z, u, op, SignalCheck(a, false), h', lk', p, SignalCount(j));
    SignalCounted(z, u, w, a, r, h', lk', p);
    Moves(from, z, u, op, SignalCount(j), h', lk', p, SignalTake(j, 1));
  }

  lemma SignalChecked(z: T.ThrState, u: Tid, w: Tid, a: Cond, r: Addr, h: set<Mutex>, lk: set<Mutex>, p: T.ThrPc)
    requires OneWaits(z, w, a, r)
    ensures var s := Stand(z, u, Local(Signal(a, false), SignalCheck(a, false), h), lk, p).low;
            u in s.threads && Next(s, u, 0) == Goto(s, u, SignalCount(Job(a, false, [], [w])))
  {
    assert z.low.queue[a][..1] == [Node(r, w)] && Tids([Node(r, w)]) == [w];
  }

  lemma SignalCounted(z: T.ThrState, u: Tid, w: Tid, a: Cond, r: Addr, h: set<Mutex>, lk: set<Mutex>, p: T.ThrPc)
    requires OneWaits(z, w, a, r)
    ensures var j := Job(a, false, [], [w]);
            var s := Stand(z, u, Local(Signal(a, false), SignalCount(j), h), lk, p).low;
            u in s.threads && Next(s, u, 0) == Goto(s, u, SignalTake(j, 1))
  {
  }

  lemma SignalTakes(from: T.ThrState, z: T.ThrState, u: Tid, w: Tid, a: Cond, r: Addr, h: set<Mutex>, lk: set<Mutex>, p: T.ThrPc)
    requires Leads(from, Stand(z, u, Local(Signal(a, false), SignalTake(Job(a, false, [], [w]), 1), h), lk, p)) && u !in z.low.blocked && OneWaits(z, w, a, r)
    ensures Leads(from, Stand(Dequeued(z, u, w, a, r, Rec(w, false, a, Taken(u))), u,
                          Local(Signal(a, false), Lock(MallocMutex, SignalNode(Job(a, false, [], [w]), r, 0)), h), lk, p))
  {
    hide Leads;
    var j := Job(a, false, [], [w]);
    assert [Node(r, w)][1..] == [] && [] + [w] == [w];
    Changes(from, z, Dequeued(z, u, w, a, r, Rec(w, false, a, Taken(u))), u, 0, Signal(a, false), SignalTake(j, 1), h, lk, p, Lock(MallocMutex, SignalNode(j, r, 0)));
  }

  lemma SignalReads(from: T.ThrState, z: T.ThrState, u: Tid, w: Tid, a: Cond, r: Addr, j: Job, h: set<Mutex>, lk: set<Mutex>, p: T.ThrPc)
    requires Leads(from, Stand(z, u, Local(Signal(a, false), Lock(MallocMutex, SignalNode(j, r, 0)), h), lk, p)) && u !in z.low.blocked
    requires MallocMutex !in lk && MallocMutex !in h && r in z.low.recs && z.low.recs[r].tid == w
    ensures Leads(from, Stand(z, u, Local(Signal(a, false), SignalSet(j, r, w, 0), h), lk, p))
  {
    hide Leads, Stand, Next;
    var op := Signal(a, false);
    Locks(from, z, u, op, MallocMutex, SignalNode(j, r, 0), h, lk, p);
    NodeFreed(z, u, a, r, j, h + {MallocMutex}, lk + {MallocMutex}, p);
    Moves(from, z, u, op, SignalNode(j, r, 0), h + {MallocMutex}, lk + {MallocMutex}, p, Unlock(MallocMutex, SignalRead(j, r, 0)));
    Unlocks(from, z, u, op, MallocMutex, SignalRead(j, r, 0), h, lk, p);
    RecordRead(z, u, w, a, r, j, h, lk, p);
    Moves(from, z, u, op, SignalRead(j, r, 0), h, lk, p, SignalSet(j, r, w, 0));
  }

  lemma NodeFreed(z: T.ThrState, u: Tid, a: Cond, r: Addr, j: Job, h: set<Mutex>, lk: set<Mutex>, p: T.ThrPc)
    ensures var s := Stand(z, u, Local(Signal(a, false), SignalNode(j, r, 0), h), lk, p).low;
            u in s.threads && Next(s, u, 0) == Goto(s, u, Unlock(MallocMutex, SignalRead(j, r, 0)))
  {
  }

  lemma RecordRead(z: T.ThrState, u: Tid, w: Tid, a: Cond, r: Addr, j: Job, h: set<Mutex>, lk: set<Mutex>, p: T.ThrPc)
    requires r in z.low.recs && z.low.recs[r].tid == w
    ensures var s := Stand(z, u, Local(Signal(a, false), SignalRead(j, r, 0), h), lk, p).low;
            u in s.threads && Next(s, u, 0) == Goto(s, u, SignalSet(j, r, w, 0))
  {
  }

  lemma SignalMarks(from: T.ThrState, z: T.ThrState, u: Tid, w: Tid, a: Cond, r: Addr, j: Job, h: set<Mutex>, lk: set<Mutex>, p: T.ThrPc)
    requires Leads(from, Stand(Dequeued(z, u, w, a, r, Rec(w, false, a, Taken(u))), u, Local(Signal(a, false), SignalSet(j, r, w, 0), h), lk, p)) && u !in z.low.blocked
    ensures Leads(from, Stand(Dequeued(z, u, w, a, r, Rec(w, true, a, Done(u))), u, Local(Signal(a, false), SignalWake(j, w, 0), h), lk, p))
  {
    hide Leads;
    var x, y := Rec(w, false, a, Taken(u)), Rec(w, true, a, Done(u));
    assert z.low.recs[r := x][r := y] == z.low.recs[r := y];
    Changes(from, Dequeued(z, u, w, a, r, x), Dequeued(z, u, w, a, r, y), u, 0, Signal(a, false), SignalSet(j, r, w, 0), h, lk, p, SignalWake(j, w, 0));
  }

  lemma SignalEnds(from: T.ThrState, z: T.ThrState, u: Tid, w: Tid, a: Cond, j: Job, h: set<Mutex>, lk: set<Mutex>, p: T.ThrPc)
    requires Leads(from, Stand(z, u, Local(Signal(a, false), SignalWake(j, w, 0), h + {CondMutex(a)}), lk + {CondMutex(a)}, p))
    requires u !in z.low.blocked && w !in z.low.blocked && j.cond == a && a in z.low.ready && CondMutex(a) !in lk && CondMutex(a) !in h
    ensures Leads(from, Stand(z, u, Idling(h), lk, p))
  {
    hide Leads, Stand, Next;
    var op, h', lk' := Signal(a, false), h + {CondMutex(a)}, lk + {CondMutex(a)};
    Woken(z, u, w, a, j, h', lk', p);
    Moves(from, z, u, op, SignalWake(j, w, 0), h', lk', p, SignalEnd(j));
    Ended(z, u, a, j, h', lk', p);
    Moves(from, z, u, op, SignalEnd(j), h', lk', p, Unlock(CondMutex(a), Out));
    Unlocks(from, z, u, op, CondMutex(a), Out, h, lk, p);
  }

  lemma Woken(z: T.ThrState, u: Tid, w: Tid, a: Cond, j: Job, h: set<Mutex>, lk: set<Mutex>, p: T.ThrPc)
    requires w !in z.low.blocked
    ensures var s := Stand(z, u, Local(Signal(a, false), SignalWake(j, w, 0), h), lk, p).low;
            u in s.threads && Next(s, u, 0) == Goto(s, u, SignalEnd(j))
  {
    assert z.low.blocked - {w} == z.low.blocked;
  }

  lemma Ended(z: T.ThrState, u: Tid, a: Cond, j: Job, h: set<Mutex>, lk: set<Mutex>, p: T.ThrPc)
    requires j.cond == a
    ensures var s := Stand(z, u, Local(Signal(a, false), SignalEnd(j), h), lk, p).low;
            u in s.threads && Next(s, u, 0) == Goto(s, u, Unlock(CondMutex(a), Out))
  {
  }

  function Gone(z: T.ThrState, u: Tid, w: Tid, a: Cond, r: Addr, status: int): T.ThrState {
    Dequeued(Exited(z, u, a, status), u, w, a, r, Rec(w, true, a, Done(u)))
  }

  // A call of thr_exit with one joiner waiting, up to where the list is free again.
  lemma Exits(from: T.ThrState, z: T.ThrState, u: Tid, w: Tid, a: Addr, r: Addr, status: int)
    requires Leads(from, z) && Free(z, u) && LIST !in z.low.locked && MallocMutex !in z.low.locked && CondMutex(a) !in z.low.locked
    requires u in z.list && z.list[u] == a && a in z.recs && OneWaits(z, w, a, r)
    ensures Leads(from, Stand(Gone(z, u, w, a, r, status), u, Idling({}), z.low.locked, T.ExitVanish))
  {
    hide Leads, Stand, Exited, Dequeued, OneWaits;
    var lk := z.low.locked;
    var h, all, p, j := {LIST}, lk + {LIST}, T.ExitUnlock(a), Job(a, false, [], [w]);
    var h', all' := h + {CondMutex(a)}, all + {CondMutex(a)};
    var ze, x := Exited(z, u, a, status), Rec(w, false, a, Taken(u));
    ExitStarts(from, z, u, status);
    ExitRecords(from, z, u, a, status, h, all);
    ExitedIs(z, u, w, a, r, status);
    SignalCounts(from, ze, u, w, a, r, h, all, p);
    SignalTakes(from, ze, u, w, a, r, h', all', p);
    DequeuedIs(ze, u, w, a, r, x);
    SignalReads(from, Dequeued(ze, u, w, a, r, x), u, w, a, r, j, h', all', p);
    SignalMarks(from, ze, u, w, a, r, j, h', all', p);
    DequeuedIs(ze, u, w, a, r, Rec(w, true, a, Done(u)));
    var zd := Dequeued(ze, u, w, a, r, Rec(w, true, a, Done(u)));
    SignalEnds(from, zd, u, w, a, j, h, all, p);
    ExitUnlocks(from, zd, u, a, h, all);
    Leaves(from, zd, u, lk, T.ExitVanish);
  }

  lemma ExitedIs(z: T.ThrState, u: Tid, w: Tid, a: Addr, r: Addr, status: int)
    ensures Exited(z, u, a, status).low == z.low && (OneWaits(z, w, a, r) ==> OneWaits(Exited(z, u, a, status), w, a, r))
    ensures OneWaits(z, w, a, r) ==> w !in z.low.blocked && a in z.low.ready
  {
  }

  lemma DequeuedIs(z: T.ThrState, u: Tid, w: Tid, a: Cond, r: Addr, x: Rec)
    ensures var z' := Dequeued(z, u, w, a, r, x);
            z'.low.blocked == z.low.blocked && z'.low.ready == z.low.ready && r in z'.low.recs && z'.low.recs[r] == x
  {
  }

  // ------------------------------------------------------------------ thr_join, when the thread has exited

  function Collected(z: T.ThrState, u: Tid, a: Addr): T.ThrState
    requires a in z.recs
  {
    z.(recs := z.recs[a := z.recs[a].(joined := false, exited := true)], delivered := z.delivered[u := z.recs[a].status], stage := z.stage[u := T.Ended])
  }

  function Unflagged(z: T.ThrState, a: Cond): T.ThrState { z.(low := z.low.(queue := z.low.queue - {a})) }

  function Destroyed(z: T.ThrState, a: Cond): T.ThrState { z.(low := z.low.(queue := z.low.queue - {a}, ready := z.low.ready - {a})) }

  function Removed(z: T.ThrState, u: Tid, a: Addr): T.ThrState { z.(list := z.list - {u}, recs := z.recs - {a}) }

  function Reaped(z: T.ThrState, u: Tid, a: Addr): T.ThrState
    requires a in z.recs
  {
    Removed(Destroyed(Collected(z, u, a), a), u, a)
  }

  // The thread has exited, its flag is clear, and nobody waits.
  ghost predicate Finished(z: T.ThrState, u: Tid, a: Addr) {
    && u in z.list && z.list[u] == a && a in z.recs && z.recs[a].exited && !z.recs[a].joined
    && a in z.low.ready && a in z.low.queue && z.low.queue[a] == []
  }

  lemma JoinGoesOn(from: T.ThrState, z: T.ThrState, t: Tid, u: Tid, a: Addr, h: set<Mutex>, lk: set<Mutex>)
    requires Leads(from, Stand(z, t, Idling(h), lk, T.JoinSleep(u, a))) && a in z.recs && z.recs[a].exited
    ensures Leads(from, Stand(z, t, Idling(h), lk, T.JoinCollect(u, a)))
  {
    hide Leads, T.GoCreate, T.GoExit;
    Goes(from, z, t, h, lk, T.JoinSleep(u, a), YES, Stand(z, t, Idling(h), lk, T.JoinCollect(u, a)));
  }

  lemma JoinCollects(from: T.ThrState, z: T.ThrState, t: Tid, u: Tid, a: Addr, h: set<Mutex>, lk: set<Mutex>)
    requires Leads(from, Stand(z, t, Idling(h), lk, T.JoinCollect(u, a))) && a in z.recs
    ensures Leads(from, Stand(Collected(z, u, a), t, Calling(Destroy(a), h), lk, T.JoinRemove(u, a)))
  {
    hide Leads, T.GoOn, Stand, Collected;
    CollectIs(z, t, u, a, h, lk);
    Goes(from, z, t, h, lk, T.JoinCollect(u, a), YES, Stand(Collected(z, u, a), t, Calling(Destroy(a), h), lk, T.JoinRemove(u, a)));
  }

  lemma CollectIs(z: T.ThrState, t: Tid, u: Tid, a: Addr, h: set<Mutex>, lk: set<Mutex>)
    requires a in z.recs
    ensures var z1 := Stand(z, t, Idling(h), lk, T.JoinCollect(u, a));
            t in z1.low.threads && T.GoOn(z1, t, YES) == Stand(Collected(z, u, a), t, Calling(Destroy(a), h), lk, T.JoinRemove(u, a))
  {
    hide T.GoCreate, T.GoExit;
  }

  lemma JoinRemoves(from: T.ThrState, z: T.ThrState, t: Tid, u: Tid, a: Addr, h: set<Mutex>, lk: set<Mutex>)
    requires Leads(from, Stand(z, t, Idling(h), lk, T.JoinRemove(u, a))) && a in z.recs && u in z.list
    ensures Leads(from, Stand(Removed(z, u, a), t, Calling(Heap, h), lk, T.JoinFree))
  {
    hide Leads, T.GoOn, Stand, Removed;
    RemovesBoth(z, t, u, a, h, lk);
    Goes(from, z, t, h, lk, T.JoinRemove(u, a), YES, Stand(Removed(z, u, a), t, Calling(Heap, h), lk, T.JoinFree));
  }

  lemma RemovesBoth(z: T.ThrState, t: Tid, u: Tid, a: Addr, h: set<Mutex>, lk: set<Mutex>)
    requires a in z.recs && u in z.list
    ensures var z1 := Stand(z, t, Idling(h), lk, T.JoinRemove(u, a));
            t in z1.low.threads && T.GoOn(z1, t, YES) == Stand(Removed(z, u, a), t, Calling(Heap, h), lk, T.JoinFree)
  {
    hide T.GoCreate, T.GoExit;
  }

  lemma JoinFrees(from: T.ThrState, z: T.ThrState, t: Tid, h: set<Mutex>, lk: set<Mutex>)
    requires Leads(from, Stand(z, t, Idling(h), lk, T.JoinFree))
    ensures Leads(from, Stand(z, t, Calling(Heap, h), lk, T.JoinDone))
  {
    hide Leads, T.GoCreate, T.GoExit;
    Goes(from, z, t, h, lk, T.JoinFree, YES, Stand(z, t, Calling(Heap, h), lk, T.JoinDone));
  }

  lemma JoinEnds(from: T.ThrState, z: T.ThrState, t: Tid, h: set<Mutex>, lk: set<Mutex>)
    requires Leads(from, Stand(z, t, Idling(h), lk, T.JoinDone))
    ensures Leads(from, Stand(z, t, Calling(Release(LIST), h), lk, T.Leave(0)))
  {
    hide Leads, T.GoCreate, T.GoExit;
    Goes(from, z, t, h, lk, T.JoinDone, YES, Stand(z, t, Calling(Release(LIST), h), lk, T.Leave(0)));
  }

  // The call of cond_destroy.
  lemma Destroys(from: T.ThrState, z: T.ThrState, t: Tid, a: Cond, h: set<Mutex>, lk: set<Mutex>, p: T.ThrPc)
    requires Leads(from, Stand(z, t, Calling(Destroy(a), h), lk, p)) && t !in z.low.blocked && CondMutex(a) !in lk && CondMutex(a) !in h
    requires a in z.low.ready && a in z.low.queue && z.low.queue[a] == []
    ensures Leads(from, Stand(Destroyed(z, a), t, Idling(h), lk, p))
  {
    hide Leads, Stand;
    var op, h', lk' := Destroy(a), h + {CondMutex(a)}, lk + {CondMutex(a)};
    Locks(from, z, t, op, CondMutex(a), DestroyCheck(a), h, lk, p);
    DestroyChecks(from, z, t, a, h', lk', p);
    DestroyUnflags(from, z, t, a, h', lk', p);
    UnflaggedIs(z, a);
    Unlocks(from, Unflagged(z, a), t, op, CondMutex(a), DestroyMutex(a), h, lk, p);
    DestroyEnds(from, z, t, a, h, lk, p);
  }

  lemma UnflaggedIs(z: T.ThrState, a: Cond)
    ensures Unflagged(z, a).low.blocked == z.low.blocked && Unflagged(z, a).low.ready == z.low.ready
  {
  }

  lemma DestroyChecks(from: T.ThrState, z: T.ThrState, t: Tid, a: Cond, h: set<Mutex>, lk: set<Mutex>, p: T.ThrPc)
    requires Leads(from, Stand(z, t, Local(Destroy(a), DestroyCheck(a), h), lk, p)) && t !in z.low.blocked && a in z.low.queue && z.low.queue[a] == []
    ensures Leads(from, Stand(z, t, Local(Destroy(a), DestroyFlag(a), h), lk, p))
  {
    hide Leads;
    Moves(from, z, t, Destroy(a), DestroyCheck(a), h, lk, p, DestroyFlag(a));
  }

  lemma DestroyUnflags(from: T.ThrState, z: T.ThrState, t: Tid, a: Cond, h: set<Mutex>, lk: set<Mutex>, p: T.ThrPc)
    requires Leads(from, Stand(z, t, Local(Destroy(a), DestroyFlag(a), h), lk, p)) && t !in z.low.blocked
    ensures Leads(from, Stand(Unflagged(z, a), t, Local(Destroy(a), Unlock(CondMutex(a), DestroyMutex(a)), h), lk, p))
  {
    hide Leads;
    Changes(from, z, Unflagged(z, a), t, 0, Destroy(a), DestroyFlag(a), h, lk, p, Unlock(CondMutex(a), DestroyMutex(a)));
  }

  lemma DestroyEnds(from: T.ThrState, z: T.ThrState, t: Tid, a: Cond, h: set<Mutex>, lk: set<Mutex>, p: T.ThrPc)
    requires Leads(from, Stand(Unflagged(z, a), t, Local(Destroy(a), DestroyMutex(a), h), lk, p)) && t !in z.low.blocked
    requires a in z.low.ready && CondMutex(a) !in lk
    ensures Leads(from, Stand(Destroyed(z, a), t, Idling(h), lk, p))
  {
    hide Leads;
    var z1 := Stand(Unflagged(z, a), t, Local(Destroy(a), DestroyMutex(a), h), lk, p);
    Inner(from, z1, t, 0);
    assert z1.(low := Next(z1.low, t, 0)) == Stand(Destroyed(z, a), t, Idling(h), lk, p);
  }

  // A call of thr_join for a thread that has exited, from its first step to where the list is free again.
  lemma Reaps(from: T.ThrState, z: T.ThrState, t: Tid, u: Tid, a: Addr, lk: set<Mutex>)
    requires Leads(from, Stand(z, t, Calling(Acquire(LIST), {}), lk, T.JoinEnter(u))) && t !in z.low.blocked && Finished(z, u, a)
    requires LIST !in lk && MallocMutex !in lk && CondMutex(a) !in lk
    ensures Leads(from, Stand(Reaped(z, u, a), t, Idling({}), lk, T.Leave(0)))
  {
    hide Leads, Stand, Collected, Destroyed, Removed, Reaped, Finished;
    var h, all, p := {LIST}, lk + {LIST}, T.JoinRemove(u, a);
    FinishedIs(z, u, a);
    Locks(from, z, t, Acquire(LIST), LIST, Out, {}, lk, T.JoinEnter(u));
    assert {} + {LIST} == h;
    JoinFinds(from, z, t, u, a, h, all);
    JoinPasses(from, z, t, u, a, h, all);
    JoinGoesOn(from, z, t, u, a, h, all);
    JoinCollects(from, z, t, u, a, h, all);
    var zc := Collected(z, u, a);
    Destroys(from, zc, t, a, h, all, p);
    JoinRemoves(from, Destroyed(zc, a), t, u, a, h, all);
    var zr := Reaped(z, u, a);
    Allocates(from, zr, t, h, all, T.JoinFree);
    JoinFrees(from, zr, t, h, all);
    Allocates(from, zr, t, h, all, T.JoinDone);
    JoinEnds(from, zr, t, h, all);
    Leaves(from, zr, t, lk, T.Leave(0));
  }

  lemma FinishedIs(z: T.ThrState, u: Tid, a: Addr)
    requires Finished(z, u, a)
    ensures u in z.list && z.list[u] == a && a in z.recs && z.recs[a].exited && !z.recs[a].joined && Collected(z, u, a).low == z.low
    ensures a in z.low.ready && a in z.low.queue && z.low.queue[a] == []
    ensures var zd := Destroyed(Collected(z, u, a), a);
            a in zd.recs && u in zd.list && Removed(zd, u, a) == Reaped(z, u, a)
    ensures Reaped(z, u, a).low.blocked == z.low.blocked
  {
  }

  // ------------------------------------------------------------------ thr_join, when the wait is over

  function Unrecorded(z: T.ThrState, r: Addr): T.ThrState { z.(low := z.low.(recs := z.low.recs - {r})) }

  // A waiter that has been signalled leaves cond_wait with the list locked.
  lemma WaitEnds(from: T.ThrState, z: T.ThrState, x: Tid, a: Cond, r: Addr, lk: set<Mutex>, p: T.ThrPc)
    requires Leads(from, Stand(z, x, Local(Wait(a, LIST), WaitTest(LIST, r), {}), lk, p)) && x !in z.low.blocked
    requires r in z.low.recs && z.low.recs[r].flag && LIST !in lk && MallocMutex !in lk
    ensures Leads(from, Stand(Unrecorded(z, r), x, Idling({LIST}), lk + {LIST}, p))
  {
    hide Leads, Stand;
    var op, h := Wait(a, LIST), {MallocMutex};
    WaitTests(from, z, x, a, r, lk, p);
    Locks(from, z, x, op, MallocMutex, WaitFree(LIST, r), {}, lk, p);
    assert {} + {MallocMutex} == h && {} + {LIST} == {LIST};
    WaitFrees(from, z, x, a, r, h, lk + h, p);
    UnrecordedIs(z, r);
    Unlocks(from, Unrecorded(z, r), x, op, MallocMutex, Lock(LIST, Out), {}, lk, p);
    Locks(from, Unrecorded(z, r), x, op, LIST, Out, {}, lk, p);
  }

  lemma UnrecordedIs(z: T.ThrState, r: Addr)
    ensures Unrecorded(z, r).low.blocked == z.low.blocked && Unrecorded(z, r).recs == z.recs
  {
  }

  lemma WaitTests(from: T.ThrState, z: T.ThrState, x: Tid, a: Cond, r: Addr, lk: set<Mutex>, p: T.ThrPc)
    requires Leads(from, Stand(z, x, Local(Wait(a, LIST), WaitTest(LIST, r), {}), lk, p)) && x !in z.low.blocked
    requires r in z.low.recs && z.low.recs[r].flag
    ensures Leads(from, Stand(z, x, Local(Wait(a, LIST), Lock(MallocMutex, WaitFree(LIST, r)), {}), lk, p))
  {
    hide Leads;
    Moves(from, z, x, Wait(a, LIST), WaitTest(LIST, r), {}, lk, p, Lock(MallocMutex, WaitFree(LIST, r)));
  }

  lemma WaitFrees(from: T.ThrState, z: T.ThrState, x: Tid, a: Cond, r: Addr, h: set<Mutex>, lk: set<Mutex>, p: T.ThrPc)
    requires Leads(from, Stand(z, x, Local(Wait(a, LIST), WaitFree(LIST, r), h), lk, p)) && x !in z.low.blocked && r in z.low.recs
    ensures Leads(from, Stand(Unrecorded(z, r), x, Local(Wait(a, LIST), Unlock(MallocMutex, Lock(LIST, Out)), h), lk, p))
  {
    hide Leads;
    Changes(from, z, Unrecorded(z, r), x, 0, Wait(a, LIST), WaitFree(LIST, r), h, lk, p, Unlock(MallocMutex, Lock(LIST, Out)));
  }

  // It collects a record that is gone.
  lemma CollectsNothing(from: T.ThrState, z: T.ThrState, x: Tid, u: Tid, a: Addr, h: set<Mutex>, lk: set<Mutex>)
    requires Leads(from, Stand(z, x, Idling(h), lk, T.JoinCollect(u, a))) && a !in z.recs
    ensures Leads(from, Stand(z, x, Idling(h), lk, T.Broken))
  {
    hide Leads, T.GoCreate, T.GoExit;
    Goes(from, z, x, h, lk, T.JoinCollect(u, a), YES, Stand(z, x, Idling(h), lk, T.Broken));
  }

  // ------------------------------------------------------------------ the run

  // What thr_init leaves for a root thread with its thread_t at a.
  function Begun(root: Tid, a: Addr): T.ThrState {
    T.ThrState(State(map[root := Local(Idle, Out, {})], {}, {a}, map[a := []], map[], {}, map[a := []], map[a := []]),
               map[a := T.ThreadRec(false, false, 0)], map[root := a], map[], map[root := T.Listed], map[], map[], map[])
  }

  // Thread 1 is the root, with its record at 10.
  function Root(): T.ThrState { Begun(1, 10) }

  // Thread 1 has created 2 and 3, with their records at 20 and 30.
  function Three(): T.ThrState {
    var z1 := Stand(Created(Root(), 1, 2, 20), 1, Idling({}), {}, T.Away);
    Stand(Created(z1, 1, 3, 30), 1, Idling({}), {}, T.Away)
  }

  lemma ThreeReached()
    ensures Leads(Root(), Three())
  {
    hide Leads;
    Here(Root());
    Creates(Root(), Root(), 1, 2, 20);
    var z1 := Stand(Created(Root(), 1, 2, 20), 1, Idling({}), {}, T.Away);
    Creates(Root(), z1, 1, 3, 30);
  }

  lemma ThreeIs()
    ensures var z := Three();
            && Free(z, 1) && Free(z, 2) && Free(z, 3) && z.low.locked == {} && z.low.blocked == {} && z.low.recs == map[] && z.joiner == map[]
            && 1 in z.list && z.list[1] == 10 && 10 in z.recs && z.recs[10] == T.ThreadRec(false, false, 0)
            && 1 in z.stage && z.stage[1].Listed?
            && 10 in z.low.ready && 10 in z.low.queue && z.low.queue[10] == [] && Log(z.low.came, 10) == [] && Log(z.low.served, 10) == []
  {
  }

  // Thread 2 has called thr_join for 1, and waits.
  function Waits(): T.ThrState
  {
    ThreeIs();
    Stand(Joined(Three(), 2, 1, 10, 40), 2, Local(Wait(10, LIST), WaitTest(LIST, 40), {}), {}, T.JoinCollect(1, 10))
  }

  lemma WaitsReached()
    ensures Leads(Root(), Waits())
  {
    hide Leads, Three;
    ThreeReached();
    ThreeIs();
    Joins(Root(), Three(), 2, 1, 10, 40);
  }

  lemma WaitsIs()
    ensures var z := Waits();
            && Free(z, 1) && Free(z, 3) && z.low.locked == {} && 2 in z.low.threads && T.PcOf(z, 2) == T.JoinCollect(1, 10)
            && 1 in z.joiner && z.joiner[1] == 2 && 1 in z.list && z.list[1] == 10 && 10 in z.recs && OneWaits(z, 2, 10, 40)
            && 1 in z.stage && z.stage[1].Listed?
  {
    hide Three;
    ThreeIs();
  }

  lemma WaitsMore()
    ensures var z := Waits();
            && Free(z, 3) && z.joiner.Keys == {1} && 1 in z.low.threads && 2 in z.pc
            && z.low.threads[2] == Local(Wait(10, LIST), WaitTest(LIST, 40), {})
  {
    hide Three;
    ThreeIs();
  }

  // Thread 1 has called thr_exit, and has let go of the list.
  function Vanishing(): T.ThrState {
    Stand(Gone(Waits(), 1, 2, 10, 40, 5), 1, Idling({}), {}, T.ExitVanish)
  }

  // The code does not keep a second joiner out: in the last state of this run, thread 2 has not yet locked the
  // list again, and thread 3 may call thr_join for the same thread 1, which Threads.SecondJoiner says gets through.
  lemma Counterexample()
    ensures Leads(Root(), Vanishing()) && T.JoinsAgain(Vanishing(), 3, 1) && 1 in Vanishing().passed
  {
    hide Leads, Waits, T.ThrInv;
    WaitsReached();
    WaitsIs();
    Exits(Root(), Waits(), 1, 2, 10, 40, 5);
    InvariantHolds(1, 10, Vanishing());
  }

  lemma InvariantHolds(root: Tid, a: Addr, z: T.ThrState)
    requires Leads(Begun(root, a), z)
    ensures T.ThrInv(z)
  {
    hide T.ThrInv, T.CanStep, T.After;
    var zs, sts :| Chain(zs, sts) && |zs| > 0 && zs[0] == Begun(root, a) && zs[|zs| - 1] == z;
    assert T.Started(zs[0], root, a);
    T.ThrRunInv(zs, sts, |zs| - 1);
  }

  // Vanishing, but for the note that thread 2 has called thr_join for 1. The program keeps no such note.
  function Forgetting(): T.ThrState { Vanishing().(joiner := Vanishing().joiner - {1}) }

  lemma ForgettingIs()
    ensures var z := Forgetting();
            Free(z, 3) && z.low.locked == {} && 1 in z.low.threads && 1 !in z.joiner && Finished(Asked(z, 3, 1), 1, 10)
    ensures var z := Reaped(Asked(Forgetting(), 3, 1), 1, 10);
            && 10 !in z.recs && 40 in z.low.recs && z.low.recs[40].flag && 2 !in z.low.blocked && 3 !in z.low.blocked
            && 2 in z.low.threads && z.low.threads[2] == Local(Wait(10, LIST), WaitTest(LIST, 40), {}) && T.PcOf(z, 2) == T.JoinCollect(1, 10)
  {
    hide Waits;
    WaitsIs();
    WaitsMore();
  }

  // Thread 3 collects the record of thread 1 and lets go of the list.
  function Collecting(): T.ThrState
  {
    ForgettingIs();
    Stand(Reaped(Asked(Forgetting(), 3, 1), 1, 10), 3, Idling({}), {}, T.Leave(0))
  }

  lemma CollectingReached()
    ensures T.CanStep(Forgetting(), T.Join(3, 1)) && Leads(T.After(Forgetting(), T.Join(3, 1)), Collecting())
  {
    hide Leads, Forgetting, T.CanStep, T.After, Finished, Reaped, Asked, Stand;
    ForgettingIs();
    JoinAllowed(Forgetting(), 3, 1);
    JoinIs(Forgetting(), 3, 1);
    var from := T.After(Forgetting(), T.Join(3, 1));
    Here(from);
    Reaps(from, Asked(Forgetting(), 3, 1), 3, 1, 10, {});
  }

  lemma CollectingIs()
    ensures var z := Collecting();
            && 10 !in z.recs && 40 in z.low.recs && z.low.recs[40].flag && 2 !in z.low.blocked && z.low.locked == {} && 2 in z.pc
            && 2 in z.low.threads && z.low.threads[2] == Local(Wait(10, LIST), WaitTest(LIST, 40), {}) && z.pc[2] == T.JoinCollect(1, 10)
  {
    hide Forgetting, Reaped, Asked;
    ForgettingIs();
  }

  // Thread 2 then leaves cond_wait.
  lemma BreaksThen(from: T.ThrState, z: T.ThrState, x: Tid, u: Tid, a: Addr, r: Addr)
    requires Leads(from, z) && x in z.low.threads && x in z.pc && x !in z.low.blocked
    requires z.low.threads[x] == Local(Wait(a, LIST), WaitTest(LIST, r), {}) && z.pc[x] == T.JoinCollect(u, a)
    requires a !in z.recs && r in z.low.recs && z.low.recs[r].flag && z.low.locked == {}
    ensures exists z' :: Leads(from, z') && T.PcOf(z', x).Broken?
  {
    hide Leads, Stand, Unrecorded, T.PcOf;
    var p := T.JoinCollect(u, a);
    SameStand(z, x, p);
    WaitEnds(from, z, x, a, r, {}, p);
    UnrecordedIs(z, r);
    CollectsNothing(from, Unrecorded(z, r), x, u, a, {LIST}, {} + {LIST});
    StandsAt(Unrecorded(z, r), x, Idling({LIST}), {} + {LIST}, T.Broken);
  }

  lemma StandsAt(z: T.ThrState, t: Tid, l: Local, lk: set<Mutex>, p: T.ThrPc)
    ensures T.PcOf(Stand(z, t, l, lk, p), t) == p
  {
  }

  lemma SameStand(z: T.ThrState, x: Tid, p: T.ThrPc)
    requires x in z.low.threads && x in z.pc && z.pc[x] == p
    ensures Stand(z, x, z.low.threads[x], z.low.locked, p) == z
  {
  }

  // What comes of it: thread 3 calls thr_join, collects and frees the record and lets go of the list; then
  // thread 2 locks the list, and its next access is to the record that has been freed.
  lemma SecondJoinBreaks()
    ensures Leads(Root(), Vanishing()) && T.CanStep(Forgetting(), T.Join(3, 1))
    ensures exists z :: Leads(T.After(Forgetting(), T.Join(3, 1)), z) && T.PcOf(z, 2).Broken?
  {
    hide Leads, Forgetting, Collecting, T.CanStep, T.After, T.PcOf;
    Counterexample();
    CollectingReached();
    CollectingIs();
    BreaksThen(T.After(Forgetting(), T.Join(3, 1)), Collecting(), 2, 1, 10, 40);
  }
}
