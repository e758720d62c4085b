// 410user/libthrgrp/thrgrp.c on top of the thread library: thrgrp_create, thrgrp_bottom and thrgrp_join
// of one group. Its mutex is Own(lock), its condition variable cv; thrgrp_data_t are known by address.

module ThreadGroup {
  import opened Sync
  import T = Threads

  datatype Link = Null | To(addr: Addr)

  // thrgrp_data_t: the arguments, then the queue element.
  datatype Element = Argument | Qel(tid: Tid, next: Link)

  // Auxiliary: a thread of the group runs, is in the zombie queue, was taken off it by a joiner, and the
  // joiner knows its id and has freed the element.
  datatype Phase = Running(el: Addr) | Zombie(el: Addr) | Off(el: Addr, joiner: Tid) | Reaped(joiner: Tid)

  // Where a thread stands in this library: what it does when the call of a lower library that it is in,
  // if any, has returned. Free: in client code, or not here at all.
  datatype GrpPc =
    | Free
    | Broken                                  // freed memory was touched
    | CreateAlloc
    | Creating(el: Addr)
    | CreateUndo(el: Addr)
    | CreateEnd
    | BottomStart(el: Addr)
    | BottomQueue(el: Addr, ret: int)
    | BottomUnlock(ret: int)
    | BottomExit(ret: int)
    | Exiting
    | JoinTest
    | JoinRead(el: Addr)
    | JoinCall(tid: Tid)
    | Joining(tid: Tid)

  // chain, came and taken are auxiliary: the queue from zombie_out to zombie_in, and the threads that
  // entered and left it, in order.
  datatype GrpState = GrpState(thr: T.ThrState, lock: int, cv: Cond, zombieIn: Link, zombieOut: Link, els: map<Addr, Element>,
                               pc: map<Tid, GrpPc>, phase: map<Tid, Phase>, chain: seq<Node>, came: seq<Tid>, taken: seq<Tid>)

  // A step of the lower libraries or of other client code; a thread calls thrgrp_create or thrgrp_join,
  // or its function returns to thrgrp_bottom; a thread goes on in this library.
  datatype Step = Lower(st: T.Step) | Create(t: Tid) | Join(t: Tid) | Return(t: Tid, ret: int) | Go(t: Tid, ans: T.Answer)

  function PcOf(g: GrpState, t: Tid): GrpPc { if t in g.pc then g.pc[t] else Free }

  predicate Uses(op: Op, lock: int, cv: Cond) {
    || ((op.Acquire? || op.Release? || op.Wait?) && op.mutex == Own(lock))
    || (T.OnCond(op) && op.cond == cv)
  }

  // The thread is in client code as far as the lower libraries are concerned.
  ghost predicate Ready(g: GrpState, t: Tid) {
    t in g.thr.low.threads && g.thr.low.threads[t].pc.Out? && T.PcOf(g.thr, t).Away?
  }

  // Steps that clients may make beside those of the group: they keep off its mutex and condition
  // variable, do not join its threads, and its threads do not call thr_exit themselves.
  ghost predicate Outside(g: GrpState, st: T.Step) {
    match st
    case Inner(_, _) => true
    case Go(t, ans) => T.PcOf(g.thr, t).CreateFork? && ans.ok ==> ans.tid >= 0
    case Other(x) => (x.Call? ==> PcOf(g, x.t).Free? && !Uses(x.op, g.lock, g.cv)) && (x.Init? ==> x.c != g.cv)
    case Create(t, _) => PcOf(g, t).Free?
    case Join(t, u) => PcOf(g, t).Free? && u !in g.phase
    case Exit(t, _) => PcOf(g, t).Free? && t !in g.phase
  }

  ghost predicate CanStep(g: GrpState, st: Step) {
    match st
    case Lower(x) => T.CanStep(g.thr, x) && Outside(g, x)
    case Create(t) => PcOf(g, t).Free? && Ready(g, t) && MayCall(g.thr.low, t, Acquire(T.LIST_MUTEX))
    case Join(t) => PcOf(g, t).Free? && Ready(g, t) && MayCall(g.thr.low, t, Acquire(T.LIST_MUTEX)) && MayCall(g.thr.low, t, Acquire(Own(g.lock)))
    case Return(t, _) =>
      && PcOf(g, t).Free? && Ready(g, t) && t in g.phase && g.phase[t].Running?
      && MayCall(g.thr.low, t, Acquire(T.LIST_MUTEX)) && MayCall(g.thr.low, t, Acquire(Own(g.lock)))
    case Go(t, ans) =>
      && Ready(g, t) && !PcOf(g, t).Free? && !PcOf(g, t).Broken? && !PcOf(g, t).Creating? && !PcOf(g, t).Joining? && !PcOf(g, t).Exiting?
      && (PcOf(g, t).CreateAlloc? && ans.ok ==> ans.addr !in g.els)
  }

  // Calls op of the mutex and condition variable library and moves on to p.
  function Calls(g: GrpState, t: Tid, op: Op, p: GrpPc): GrpState
    requires t in g.thr.low.threads
  {
    g.(thr := g.thr.(low := Called(g.thr.low, t, op)), pc := g.pc[t := p])
  }

  // A step of the thread library, seen from here: the fork hands the element over to the new thread,
  // and the return from thr_create or thr_join lets the caller go on.
  ghost function Lowers(g: GrpState, st: T.Step): GrpState
    requires T.CanStep(g.thr, st)
  {
    var g' := g.(thr := T.After(g.thr, st));
    if !st.Go? then g'
    else
      var p, q := PcOf(g, st.t), T.PcOf(g.thr, st.t);
      if p.Creating? && q.CreateFork? && st.ans.ok then
        g'.(pc := g.pc[st.ans.tid := BottomStart(p.el)], phase := g.phase[st.ans.tid := Running(p.el)])
      else if p.Creating? && q.Leave? then g'.(pc := g.pc[st.t := if q.result < 0 then CreateUndo(p.el) else Free])
      else if p.Joining? && q.Leave? then g'.(pc := g.pc[st.t := Free])
      else g'
  }

  // The queue element el of thread t goes to the end of the queue.
  function Enqueue(g: GrpState, t: Tid, el: Addr): GrpState {
    var els' := if g.zombieIn.To? && g.zombieIn.addr in g.els && g.els[g.zombieIn.addr].Qel?
                then g.els[g.zombieIn.addr := g.els[g.zombieIn.addr].(next := To(el))] else g.els;
    g.(els := els', zombieIn := To(el), zombieOut := if g.zombieOut.Null? then To(el) else g.zombieOut,
       chain := g.chain + [Node(el, t)], came := g.came + [t], phase := g.phase[t := Zombie(el)])
  }

  // The thread t takes the element el off the front of the queue.
  function Dequeue(g: GrpState, t: Tid, el: Addr): GrpState
    requires el in g.els && g.els[el].Qel?
  {
    g.(zombieIn := if g.zombieOut == g.zombieIn then Null else g.zombieIn,
       zombieOut := if g.zombieOut == g.zombieIn then Null else g.els[el].next,
       chain := if g.chain == [] then [] else g.chain[1..], taken := g.taken + [g.els[el].tid],
       phase := g.phase[g.els[el].tid := Off(el, t)])
  }

  ghost function GoOn(g: GrpState, t: Tid, ans: T.Answer): GrpState
    requires CanStep(g, Go(t, ans))
  {
    match PcOf(g, t)
    case CreateAlloc =>
      if !ans.ok then g.(pc := g.pc[t := Free])
      else g.(thr := T.Goes(g.thr, t, Acquire(T.LIST_MUTEX), T.CreateEnter(false)), els := g.els[ans.addr := Argument], pc := g.pc[t := Creating(ans.addr)])
    case CreateUndo(el) => Calls(g.(els := g.els - {el}), t, Heap, CreateEnd)
    case CreateEnd => g.(pc := g.pc[t := Free])
    case BottomStart(el) =>
      if el !in g.els then g.(pc := g.pc[t := Broken]) else g.(els := g.els[el := Qel(t, Null)], pc := g.pc[t := Free])
    case BottomQueue(el, ret) =>
      if el !in g.els || (g.zombieIn.To? && g.zombieIn.addr !in g.els) then g.(pc := g.pc[t := Broken])
      else Calls(Enqueue(g, t, el), t, Signal(g.cv, false), BottomUnlock(ret))
    case BottomUnlock(ret) => Calls(g, t, Release(Own(g.lock)), BottomExit(ret))
    case BottomExit(ret) => g.(thr := T.Goes(g.thr, t, Acquire(T.LIST_MUTEX), T.ExitEnter(ret)), pc := g.pc[t := Exiting])
    case JoinTest =>
      if g.zombieOut.Null? then Calls(g, t, Wait(g.cv, Own(g.lock)), JoinTest)
      else if g.zombieOut.addr !in g.els || !g.els[g.zombieOut.addr].Qel? then g.(pc := g.pc[t := Broken])
      else Calls(Dequeue(g, t, g.zombieOut.addr), t, Release(Own(g.lock)), JoinRead(g.zombieOut.addr))
    case JoinRead(el) =>
      if el !in g.els || !g.els[el].Qel? then g.(pc := g.pc[t := Broken])
      else Calls(g.(els := g.els - {el}, phase := g.phase[g.els[el].tid := Reaped(t)]), t, Heap, JoinCall(g.els[el].tid))
    case JoinCall(u) =>
      g.(thr := T.Goes(g.thr.(joiner := g.thr.joiner[u := t]), t, Acquire(T.LIST_MUTEX), T.JoinEnter(u)), pc := g.pc[t := Joining(u)])
    case _ => g
  }

  ghost function After(g: GrpState, st: Step): GrpState
    requires CanStep(g, st)
  {
    match st
    case Lower(x) => Lowers(g, x)
    case Create(t) => Calls(g, t, Heap, CreateAlloc)
    case Join(t) => Calls(g, t, Acquire(Own(g.lock)), JoinTest)
    case Return(t, ret) => Calls(g, t, Acquire(Own(g.lock)), BottomQueue(g.phase[t].el, ret))
    case Go(t, ans) => GoOn(g, t, ans)
  }

  // ------------------------------------------------------------------ the invariant

  // The client's own mutexes come before the library's.
  ghost predicate Under(m: Mutex, lock: int, h: set<Mutex>) { forall x :: x in h && x.Own? && x != Own(lock) ==> Sync.Below(x, m) }

  ghost predicate Holding(lock: int, h: set<Mutex>) { Own(lock) in h && Under(Own(lock), lock, h) }

  // The lower library's operation that a thread at p may be in.
  predicate InOp(p: GrpPc, op: Op, lock: int, cv: Cond) {
    match p
    case CreateAlloc => op.Heap?
    case CreateEnd => op.Heap?
    case BottomQueue(_, _) => op == Acquire(Own(lock))
    case BottomUnlock(_) => op == Signal(cv, false)
    case BottomExit(_) => op == Release(Own(lock))
    case JoinTest => op == Acquire(Own(lock)) || op == Wait(cv, Own(lock))
    case JoinRead(_) => op == Release(Own(lock))
    case JoinCall(_) => op.Heap?
    case _ => false
  }

  // The thread is in, or behind, a call of the thread library or in client code.
  predicate Elsewhere(p: GrpPc) { p.Free? || p.Creating? || p.Joining? || p.Exiting? }

  predicate Unlocked(p: GrpPc) { Elsewhere(p) || p.CreateAlloc? || p.CreateUndo? || p.CreateEnd? || p.BottomStart? || p.JoinCall? }

  ghost predicate OpFits(p: GrpPc, q: T.ThrPc, l: Local, lock: int, cv: Cond) {
    && !p.Broken?
    && (Elsewhere(p) ==> !Uses(l.op, lock, cv))
    && (!Elsewhere(p) ==> q.Away? && (InOp(p, l.op, lock, cv) || l.op.Idle?))
    && (p.BottomUnlock? || (l.op.Idle? && (p.BottomQueue? || p.JoinTest?)) ==> Holding(lock, l.held))
    && (Unlocked(p) || (l.op.Idle? && (p.BottomExit? || p.JoinRead?)) ==> Own(lock) !in l.held)
    && (!Elsewhere(p) && !p.CreateUndo? && !p.CreateEnd? && !p.BottomStart? ==> Under(T.LIST_MUTEX, lock, l.held))
    && (p.Creating? ==> (T.Creating(q) && q != T.CreateEnter(true)) || q.Leave?)
    && (p.Joining? ==> (T.Joining(q) || q.Leave?))
    && (p.Exiting? ==> q.ExitEnter? || q.ExitUnlock? || q.ExitVanish? || q.Gone?)
  }

  predicate HasEl(f: Phase) { f.Running? || f.Zombie? || f.Off? }

  // The element that a creator has not handed over yet.
  predicate Private(p: GrpPc, q: T.ThrPc) {
    p.CreateUndo? || (p.Creating? && (q.CreateEnter? || q.CreatePages? || q.CreateAlloc? || q.CreateFork? || q.CreateUndo? || q.CreateFail?
                                      || (q.Leave? && q.result < 0)))
  }

  // What a thread at p knows about the data.
  ghost predicate DataFits(g: GrpState, t: Tid, p: GrpPc) {
    && (Private(p, T.PcOf(g.thr, t)) ==> p.el in g.els && forall u :: u in g.phase && HasEl(g.phase[u]) ==> g.phase[u].el != p.el)
    && (p.Creating? && (T.PcOf(g.thr, t).CreateFields? || T.PcOf(g.thr, t).CreateInsert?) ==> T.PcOf(g.thr, t).tid >= 0)
    && (t in g.phase && !g.phase[t].Running? <==> p.BottomUnlock? || p.BottomExit? || p.Exiting?)
    && (p.BottomStart? ==> t in g.phase && g.phase[t] == Running(p.el))
    && (p.BottomQueue? ==> t in g.phase && g.phase[t] == Running(p.el))
    && (p.JoinRead? ==> p.el in g.els && g.els[p.el].Qel? && g.els[p.el].tid in g.phase && g.phase[g.els[p.el].tid] == Off(p.el, t))
    && (p.JoinCall? ==> p.tid in g.phase && g.phase[p.tid] == Reaped(t) && p.tid !in g.thr.joiner)
    && (p.Joining? ==> p.tid in g.phase && g.phase[p.tid] == Reaped(t))
  }

  // Where a thread of the group stands in its life.
  ghost predicate PhaseFits(g: GrpState, u: Tid)
    requires u in g.phase
  {
    && u in g.thr.low.threads && (u in g.taken <==> g.phase[u].Off? || g.phase[u].Reaped?) && (u in g.came <==> !g.phase[u].Running?)
    && match g.phase[u]
       case Running(el) => el in g.els && (PcOf(g, u).BottomStart? || g.els[el] == Qel(u, Null)) && u !in g.thr.joiner
       case Zombie(el) => el in g.els && Node(el, u) in g.chain && u !in g.thr.joiner
       case Off(el, t) => el in g.els && PcOf(g, t) == JoinRead(el) && t in g.thr.low.threads && g.els[el].Qel? && g.els[el].tid == u && u !in g.thr.joiner
       case Reaped(t) => if u in g.thr.joiner then g.thr.joiner[u] == t else PcOf(g, t) == JoinCall(u)
  }

  // The element at position i of the queue belongs to its zombie, and points to the next one.
  ghost predicate LinkFits(els: map<Addr, Element>, phase: map<Tid, Phase>, chain: seq<Node>, i: nat)
    requires i < |chain|
  {
    && chain[i].rec in els && chain[i].tid in phase && phase[chain[i].tid] == Zombie(chain[i].rec)
    && els[chain[i].rec] == Qel(chain[i].tid, if i + 1 < |chain| then To(chain[i + 1].rec) else Null)
  }

  // The queue: a chain of elements from zombie_out to zombie_in, or both null.
  ghost predicate ChainOk(zombieIn: Link, zombieOut: Link, els: map<Addr, Element>, phase: map<Tid, Phase>,
                          chain: seq<Node>, came: seq<Tid>, taken: seq<Tid>) {
    && zombieOut == (if chain == [] then Null else To(chain[0].rec))
    && zombieIn == (if chain == [] then Null else To(chain[|chain| - 1].rec))
    && (forall i :: 0 <= i < |chain| ==> LinkFits(els, phase, chain, i))
    && came == taken + Tids(chain)
    && (forall i, j :: 0 <= i < j < |came| ==> came[i] != came[j])
    && (forall u :: u in came ==> u in phase)
  }

  ghost predicate ChainFits(g: GrpState) {
    ChainOk(g.zombieIn, g.zombieOut, g.els, g.phase, g.chain, g.came, g.taken)
  }

  // No two threads share an element.
  ghost predicate ElsApart(g: GrpState) {
    && (forall u, v :: u in g.phase && v in g.phase && u != v && HasEl(g.phase[u]) && HasEl(g.phase[v]) ==> g.phase[u].el != g.phase[v].el)
    && (forall t, x :: t in g.pc && x in g.pc && t != x && Private(g.pc[t], T.PcOf(g.thr, t)) && Private(g.pc[x], T.PcOf(g.thr, x)) ==>
          g.pc[t].el != g.pc[x].el)
  }

  ghost predicate CvFits(g: GrpState) {
    g.lock != T.LIST_ID && g.cv !in g.thr.recs && g.cv in g.thr.low.queue && g.cv in g.thr.low.ready
  }

  ghost predicate GrpInv(g: GrpState) {
    && T.ThrInv(g.thr) && CvFits(g) && ChainFits(g) && ElsApart(g)
    && g.pc.Keys <= g.thr.low.threads.Keys && g.thr.joiner.Keys <= g.thr.low.threads.Keys
    && (forall t :: t in g.thr.low.threads ==> OpFits(PcOf(g, t), T.PcOf(g.thr, t), g.thr.low.threads[t], g.lock, g.cv))
    && (forall t :: t in g.thr.low.threads ==> DataFits(g, t, PcOf(g, t)))
    && (forall u :: u in g.phase ==> PhaseFits(g, u))
  }

  // ------------------------------------------------------------------ steps of the lower libraries

  lemma OwnFits(g: GrpState, t: Tid)
    requires GrpInv(g) && t in g.thr.low.threads
    ensures OpFits(PcOf(g, t), T.PcOf(g.thr, t), g.thr.low.threads[t], g.lock, g.cv) && DataFits(g, t, PcOf(g, t))
  {
  }

  // The threads of this library and what they know are as before, apart from t.
  ghost predicate OthersAsBefore(g: GrpState, g': GrpState, t: Tid) {
    && t in g.thr.low.threads && t in g'.thr.low.threads && g'.lock == g.lock && g'.cv == g.cv
    && (forall x :: x in g.thr.low.threads && x != t ==>
          x in g'.thr.low.threads && g'.thr.low.threads[x] == g.thr.low.threads[x] && PcOf(g', x) == PcOf(g, x) && T.PcOf(g'.thr, x) == T.PcOf(g.thr, x))
  }

  lemma InnerOp(g: GrpState, t: Tid, a: Addr)
    requires GrpInv(g) && Allowed(g.thr.low, Run(t, a))
    ensures OpFits(PcOf(g, t), T.PcOf(g.thr, t), Next(g.thr.low, t, a).threads[t], g.lock, g.cv)
  {
    hide T.ThrInv, Inv, Next, ChainFits, ElsApart, CvFits, PhaseFits, DataFits, BeforeInsert, BeforeTake;
    OwnFits(g, t);
    LowInv(g);
    IdleOut(g.thr.low, t);
    RunKeeps(g.thr.low, t, a);
    IdleOut(Next(g.thr.low, t, a), t);
    if Next(g.thr.low, t, a).threads[t].pc.Out? {
      Returns(g.thr.low, t, a);
    } else {
      GoesOn(g.thr.low, t, a);
    }
  }

  lemma LowInv(g: GrpState)
    requires GrpInv(g)
    ensures T.ThrInv(g.thr) && Inv(g.thr.low)
  {
  }

  // Nobody destroys the group's condition variable.
  lemma NotDestroyed(g: GrpState, t: Tid)
    requires GrpInv(g) && t in g.thr.low.threads
    ensures g.thr.low.threads[t].op != Destroy(g.cv)
  {
    hide T.ThrInv, Inv, ChainFits, ElsApart, CvFits, PhaseFits, DataFits;
    OwnFits(g, t);
  }

  lemma CvUsable(g: GrpState)
    requires GrpInv(g)
    ensures Usable(g.thr.low, g.cv)
  {
    hide T.ThrInv, Inv, ChainFits, ElsApart, PhaseFits, DataFits, OpFits;
    forall u | u in g.thr.low.threads ensures g.thr.low.threads[u].op != Destroy(g.cv) {
      NotDestroyed(g, u);
    }
  }

  // The data of this library is as before.
  ghost predicate SameData(g: GrpState, g': GrpState) {
    && g'.els == g.els && g'.phase == g.phase && g'.chain == g.chain && g'.came == g.came && g'.taken == g.taken
    && g'.zombieIn == g.zombieIn && g'.zombieOut == g.zombieOut
    && (forall u :: u in g.phase ==> (u in g'.thr.joiner <==> u in g.thr.joiner) && (u in g.thr.joiner ==> g'.thr.joiner[u] == g.thr.joiner[u]))
  }

  // A step that leaves this library's data alone.
  lemma QuietKeeps(g: GrpState, g': GrpState, t: Tid)
    requires GrpInv(g) && T.ThrInv(g'.thr) && CvFits(g') && OthersAsBefore(g, g', t) && SameData(g, g')
    requires g'.thr.low.threads.Keys == g.thr.low.threads.Keys && g'.pc.Keys <= g.thr.low.threads.Keys && g'.thr.joiner.Keys <= g.thr.low.threads.Keys
    requires OpFits(PcOf(g', t), T.PcOf(g'.thr, t), g'.thr.low.threads[t], g.lock, g.cv) && DataFits(g', t, PcOf(g', t))
    requires PcOf(g, t).JoinRead? || PcOf(g, t).JoinCall? || PcOf(g, t).BottomStart? ==> PcOf(g', t) == PcOf(g, t)
    requires Private(PcOf(g', t), T.PcOf(g'.thr, t)) ==> Private(PcOf(g, t), T.PcOf(g.thr, t)) && PcOf(g', t).el == PcOf(g, t).el
    ensures GrpInv(g')
  {
    hide T.ThrInv, Inv, OpFits, CvFits, DataFits, PhaseFits, ChainFits, ElsApart, OthersAsBefore, Private;
    QuietChain(g, g');
    OthersKeep(g, g', t);
    forall x | x in g'.thr.low.threads ensures OpFits(PcOf(g', x), T.PcOf(g'.thr, x), g'.thr.low.threads[x], g'.lock, g'.cv) && DataFits(g', x, PcOf(g', x)) {
      if x != t { QuietData(g, g', t, x); }
    }
    forall u | u in g'.phase ensures PhaseFits(g', u) { QuietPhase(g, g', t, u); }
    assert ElsApart(g') by { QuietApart(g, g', t); }
  }

  lemma QuietChain(g: GrpState, g': GrpState)
    requires ChainFits(g) && SameData(g, g')
    ensures ChainFits(g')
  {
    hide ChainOk;
  }

  lemma OthersKeep(g: GrpState, g': GrpState, t: Tid)
    requires OthersAsBefore(g, g', t)
    ensures g'.lock == g.lock && g'.cv == g.cv && t in g.thr.low.threads && t in g'.thr.low.threads
  {
  }

  lemma QuietData(g: GrpState, g': GrpState, t: Tid, x: Tid)
    requires GrpInv(g) && OthersAsBefore(g, g', t) && SameData(g, g') && x in g.thr.low.threads && x != t
    ensures OpFits(PcOf(g', x), T.PcOf(g'.thr, x), g'.thr.low.threads[x], g'.lock, g'.cv) && DataFits(g', x, PcOf(g', x))
  {
    hide T.ThrInv, Inv, OpFits, CvFits, ChainFits, ElsApart, PhaseFits;
    OwnFits(g, x);
  }

  lemma QuietPhase(g: GrpState, g': GrpState, t: Tid, u: Tid)
    requires GrpInv(g) && OthersAsBefore(g, g', t) && SameData(g, g') && u in g.phase
    requires PcOf(g, t).JoinRead? || PcOf(g, t).JoinCall? || PcOf(g, t).BottomStart? ==> PcOf(g', t) == PcOf(g, t)
    ensures PhaseFits(g', u)
  {
    hide T.ThrInv, Inv, OpFits, CvFits, ChainFits, ElsApart, DataFits;
    assert PhaseFits(g, u);
  }

  lemma QuietApart(g: GrpState, g': GrpState, t: Tid)
    requires GrpInv(g) && OthersAsBefore(g, g', t) && SameData(g, g') && g'.pc.Keys <= g.thr.low.threads.Keys
    requires Private(PcOf(g', t), T.PcOf(g'.thr, t)) ==> Private(PcOf(g, t), T.PcOf(g.thr, t)) && PcOf(g', t).el == PcOf(g, t).el
    ensures ElsApart(g')
  {
    hide T.ThrInv, Inv, OpFits, CvFits, ChainFits, DataFits, PhaseFits;
    forall x, y | x in g'.pc && y in g'.pc && x != y && Private(g'.pc[x], T.PcOf(g'.thr, x)) && Private(g'.pc[y], T.PcOf(g'.thr, y))
      ensures g'.pc[x].el != g'.pc[y].el
    {
      assert g'.pc[x] == PcOf(g', x) && g'.pc[y] == PcOf(g', y);
      assert Private(PcOf(g, x), T.PcOf(g.thr, x)) && Private(PcOf(g, y), T.PcOf(g.thr, y));
    }
  }

  lemma InnerKeeps(g: GrpState, t: Tid, a: Addr)
    requires GrpInv(g) && CanStep(g, Lower(T.Inner(t, a)))
    ensures GrpInv(Lowers(g, T.Inner(t, a)))
  {
    hide T.ThrInv, Inv, Next, OpFits, PhaseFits, ChainFits, ElsApart, Private, DataFits;
    var g' := Lowers(g, T.Inner(t, a));
    T.ThrStepKeeps(g.thr, T.Inner(t, a));
    LowInv(g);
    OneMoves(g.thr.low, t, a);
    InnerOp(g, t, a);
    OwnFits(g, t);
    NotDestroyed(g, t);
    CvKept(g, t, a);
    SameView(g, g', t);
    QuietKeeps(g, g', t);
  }

  lemma SameView(g: GrpState, g': GrpState, t: Tid)
    requires t in g.thr.low.threads && DataFits(g, t, PcOf(g, t)) && SameData(g, g')
    requires PcOf(g', t) == PcOf(g, t) && T.PcOf(g'.thr, t) == T.PcOf(g.thr, t) && g'.thr.joiner == g.thr.joiner
    ensures DataFits(g', t, PcOf(g', t))
  {
  }

  lemma CvKept(g: GrpState, t: Tid, a: Addr)
    requires Inv(g.thr.low) && Allowed(g.thr.low, Run(t, a)) && CvFits(g) && g.thr.low.threads[t].op != Destroy(g.cv)
    ensures g.cv in Next(g.thr.low, t, a).queue && g.cv in Next(g.thr.low, t, a).ready
  {
    hide Inv, Next;
    QueueMoves(g.thr.low, t, a, g.cv);
    if g.cv !in Next(g.thr.low, t, a).ready {
      ReadyLost(g.thr.low, t, a, g.cv);
    }
  }

  // A thread that goes on in the thread library is in one of its calls as far as this library knows.
  lemma InLibrary(g: GrpState, t: Tid, ans: T.Answer)
    requires GrpInv(g) && T.CanStep(g.thr, T.Go(t, ans))
    ensures t in g.thr.low.threads && Elsewhere(PcOf(g, t)) && !T.PcOf(g.thr, t).Away?
  {
    hide T.ThrInv, ChainFits, ElsApart, CvFits, PhaseFits, DataFits;
    T.GoPlaces(g.thr, t, ans);
    OwnFits(g, t);
  }

  // Where a step in the thread library takes a thread, unless it forks.
  function Landing(p: GrpPc, q: T.ThrPc): GrpPc {
    if p.Creating? && q.Leave? then if q.result < 0 then CreateUndo(p.el) else Free
    else if p.Joining? && q.Leave? then Free
    else p
  }

  lemma OpMoves(p: GrpPc, q: T.ThrPc, q': T.ThrPc, l: Local, l': Local, lock: int, cv: Cond, ans: T.Answer)
    requires OpFits(p, q, l, lock, cv) && Elsewhere(p) && T.PcMoves(q, q', ans) && !(q.CreateFork? && ans.ok)
    requires l'.held == l.held && !Uses(l'.op, lock, cv) && (q.Leave? ==> l'.op.Idle?)
    ensures OpFits(Landing(p, q), q', l', lock, cv)
  {
    hide Uses, Holding, Under;
  }

  lemma NotOurs(op: Op, recs: map<Addr, T.ThreadRec>, lock: int, cv: Cond)
    requires lock != T.LIST_ID && cv !in recs && (T.OnCond(op) ==> op.cond in recs)
    requires op.Acquire? || op.Release? || op.Wait? ==> op.mutex == T.LIST_MUTEX
    ensures !Uses(op, lock, cv)
  {
  }

  lemma LibraryOp(g: GrpState, t: Tid, ans: T.Answer)
    requires GrpInv(g) && T.CanStep(g.thr, T.Go(t, ans)) && !(T.PcOf(g.thr, t).CreateFork? && ans.ok)
    ensures var z' := T.GoOn(g.thr, t, ans);
            t in z'.low.threads && OpFits(Landing(PcOf(g, t), T.PcOf(g.thr, t)), T.PcOf(z', t), z'.low.threads[t], g.lock, g.cv)
  {
    hide T.ThrInv, T.GoOn, T.CanStep, ChainFits, ElsApart, PhaseFits, DataFits, T.NextCall, OpFits, Landing, T.PcMoves, Uses, CvFits;
    InLibrary(g, t, ans);
    LowInv(g);
    OwnFits(g, t);
    CvFacts(g);
    T.GoAlone(g.thr, t, ans);
    T.GoMoves(g.thr, t, ans);
    T.CallsOwn(g.thr, t, ans);
    var op, z' := T.NextCall(g.thr, t, ans), T.GoOn(g.thr, t, ans);
    NotOurs(op, g.thr.recs, g.lock, g.cv);
    NotOurs(Idle, g.thr.recs, g.lock, g.cv);
    LeaveIdle(g.thr, t, ans);
    OpMoves(PcOf(g, t), T.PcOf(g.thr, t), T.PcOf(z', t), g.thr.low.threads[t], z'.low.threads[t], g.lock, g.cv, ans);
  }

  lemma LeaveIdle(z: T.ThrState, t: Tid, ans: T.Answer)
    ensures T.PcOf(z, t).Leave? ==> T.NextCall(z, t, ans).Idle?
  {
  }

  lemma LibraryKeeps(g: GrpState, t: Tid, ans: T.Answer)
    requires GrpInv(g) && T.CanStep(g.thr, T.Go(t, ans)) && Outside(g, T.Go(t, ans))
    requires !(T.PcOf(g.thr, t).CreateFork? && ans.ok)
    ensures GrpInv(Lowers(g, T.Go(t, ans)))
  {
    hide T.ThrInv, T.GoOn, T.After, T.PcMoves, Landing, Lowers, Outside, OthersAsBefore, SameData, T.CanStep, ChainFits, ElsApart, PhaseFits, OpFits, Private, DataFits, Inv, T.NextCall;
    T.AfterGo(g.thr, t, ans);
    var g' := Lowers(g, T.Go(t, ans));
    LowersGo(g, t, ans);
    T.ThrStepKeeps(g.thr, T.Go(t, ans));
    InLibrary(g, t, ans);
    LowInv(g);
    T.GoAlone(g.thr, t, ans);
    T.RecsGrow(g.thr, t, ans, g.cv);
    LibraryOp(g, t, ans);
    OwnFits(g, t);
    T.GoMoves(g.thr, t, ans);
    if PcOf(g, t).Creating? {
      CreatingPlace(g, t);
    }
    LibraryOthers(g, g', t, ans);
    LibraryData(g, g', t, T.PcOf(g'.thr, t), ans);
    QuietKeeps(g, g', t);
  }

  lemma LowersGo(g: GrpState, t: Tid, ans: T.Answer)
    requires T.CanStep(g.thr, T.Go(t, ans)) && T.After(g.thr, T.Go(t, ans)) == T.GoOn(g.thr, t, ans)
    requires !(T.PcOf(g.thr, t).CreateFork? && ans.ok)
    ensures var g' := Lowers(g, T.Go(t, ans));
            && g' == g.(thr := T.GoOn(g.thr, t, ans), pc := g'.pc) && PcOf(g', t) == Landing(PcOf(g, t), T.PcOf(g.thr, t))
            && (forall x :: x != t ==> PcOf(g', x) == PcOf(g, x)) && g'.pc.Keys <= g.pc.Keys + {t}
  {
    hide T.CanStep, T.After, T.GoOn;
  }

  lemma LibraryOthers(g: GrpState, g': GrpState, t: Tid, ans: T.Answer)
    requires t in g.thr.low.threads && g' == g.(thr := g'.thr, pc := g'.pc) && g'.thr.joiner == g.thr.joiner
    requires g'.thr.low.threads.Keys == g.thr.low.threads.Keys && (forall x :: x != t ==> PcOf(g', x) == PcOf(g, x))
    requires forall x :: x in g.thr.low.threads && x != t ==> g'.thr.low.threads[x] == g.thr.low.threads[x] && T.PcOf(g'.thr, x) == T.PcOf(g.thr, x)
    ensures OthersAsBefore(g, g', t) && SameData(g, g')
  {
  }

  lemma CreatingPlace(g: GrpState, t: Tid)
    requires GrpInv(g) && t in g.thr.low.threads && PcOf(g, t).Creating?
    ensures (T.Creating(T.PcOf(g.thr, t)) && T.PcOf(g.thr, t) != T.CreateEnter(true)) || T.PcOf(g.thr, t).Leave?
  {
    hide T.ThrInv, ChainFits, ElsApart, PhaseFits, DataFits, CvFits;
    OwnFits(g, t);
  }

  lemma LibraryData(g: GrpState, g': GrpState, t: Tid, q': T.ThrPc, ans: T.Answer)
    requires DataFits(g, t, PcOf(g, t)) && SameData(g, g') && T.PcMoves(T.PcOf(g.thr, t), q', ans) && Elsewhere(PcOf(g, t))
    requires T.PcOf(g'.thr, t) == q' && PcOf(g', t) == Landing(PcOf(g, t), T.PcOf(g.thr, t)) && g'.thr.joiner == g.thr.joiner
    requires !(T.PcOf(g.thr, t).CreateFork? && ans.ok)
    requires PcOf(g, t).Creating? ==> T.Creating(T.PcOf(g.thr, t)) || T.PcOf(g.thr, t).Leave?
    ensures DataFits(g', t, PcOf(g', t))
    ensures Private(PcOf(g', t), T.PcOf(g'.thr, t)) ==> Private(PcOf(g, t), T.PcOf(g.thr, t)) && PcOf(g', t).el == PcOf(g, t).el
  {
  }

  lemma CvFacts(g: GrpState)
    requires CvFits(g)
    ensures g.cv !in g.thr.recs && g.cv in g.thr.low.queue && g.cv in g.thr.low.ready && g.lock != T.LIST_ID
  {
  }

  // The fork, with the new thread u: it takes over the creator's element if it is to join the group.
  ghost predicate Forks(g: GrpState, g': GrpState, t: Tid, u: Tid) {
    && t in g.thr.low.threads && u !in g.thr.low.threads && g'.lock == g.lock && g'.cv == g.cv && g'.thr.joiner == g.thr.joiner
    && g'.thr.low.threads.Keys == g.thr.low.threads.Keys + {u} && g'.thr.low.threads[u] == Local(Idle, Out, {})
    && (forall x :: x in g.thr.low.threads ==>
          && PcOf(g', x) == PcOf(g, x) && g'.thr.low.threads[x].held == g.thr.low.threads[x].held
          && (x != t ==> g'.thr.low.threads[x] == g.thr.low.threads[x] && T.PcOf(g'.thr, x) == T.PcOf(g.thr, x)))
    && T.PcOf(g.thr, t).CreateFork? && T.PcOf(g'.thr, t).CreateFields? && T.PcOf(g'.thr, t).tid == u >= 0 && T.PcOf(g'.thr, u).Away?
    && g'.thr.low.threads[t].op.Idle? && g'.els == g.els && g'.chain == g.chain && g'.came == g.came && g'.taken == g.taken
    && g'.zombieIn == g.zombieIn && g'.zombieOut == g.zombieOut && Elsewhere(PcOf(g, t))
    && g'.pc.Keys <= g'.thr.low.threads.Keys
    && (if PcOf(g, t).Creating? then g'.phase == g.phase[u := Running(PcOf(g, t).el)] && PcOf(g', u) == BottomStart(PcOf(g, t).el)
        else g'.phase == g.phase && PcOf(g', u).Free?)
  }

  lemma ForkOps(g: GrpState, g': GrpState, t: Tid, u: Tid, x: Tid)
    requires GrpInv(g) && Forks(g, g', t, u) && x in g'.thr.low.threads
    ensures OpFits(PcOf(g', x), T.PcOf(g'.thr, x), g'.thr.low.threads[x], g'.lock, g'.cv)
  {
    hide T.ThrInv, Inv, CvFits, ChainFits, PhaseFits, Holding, DataFits, ElsApart;
    if x != u {
      OwnFits(g, x);
    }
  }

  lemma ForkData(g: GrpState, g': GrpState, t: Tid, u: Tid, x: Tid)
    requires GrpInv(g) && Forks(g, g', t, u) && x in g'.thr.low.threads && u !in g.phase
    ensures DataFits(g', x, PcOf(g', x))
  {
    hide GrpInv;
    if x == u {
      ForkDataNew(g, g', t, u);
    } else if x == t {
      ForkDataOwn(g, g', t, u);
    } else {
      ForkDataOther(g, g', t, u, x);
    }
  }

  lemma ForkDataNew(g: GrpState, g': GrpState, t: Tid, u: Tid)
    requires Forks(g, g', t, u) && u !in g.phase
    ensures DataFits(g', u, PcOf(g', u))
  {
  }

  lemma ForkDataOwn(g: GrpState, g': GrpState, t: Tid, u: Tid)
    requires GrpInv(g) && Forks(g, g', t, u) && u !in g.phase
    ensures DataFits(g', t, PcOf(g', t))
  {
    hide T.ThrInv, Inv, CvFits, ChainFits, PhaseFits, OpFits, ElsApart;
    OwnFits(g, t);
  }

  lemma ForkDataOther(g: GrpState, g': GrpState, t: Tid, u: Tid, x: Tid)
    requires GrpInv(g) && Forks(g, g', t, u) && u !in g.phase && x in g.thr.low.threads && x != t
    ensures DataFits(g', x, PcOf(g', x))
  {
    hide T.ThrInv, Inv, CvFits, ChainFits, PhaseFits, OpFits;
    OwnFits(g, x);
    if PcOf(g, t).Creating? && Private(PcOf(g, x), T.PcOf(g.thr, x)) {
      assert g.pc[x].el != g.pc[t].el;
    }
  }

  lemma ForkPhase(g: GrpState, g': GrpState, t: Tid, u: Tid, v: Tid)
    requires GrpInv(g) && Forks(g, g', t, u) && v in g'.phase && u !in g.phase
    ensures PhaseFits(g', v)
  {
    hide T.ThrInv, Inv, CvFits, ElsApart, OpFits;
    if v != u {
      assert PhaseFits(g, v);
    } else {
      OwnFits(g, t);
      NotCome(g, u);
    }
  }

  lemma NotCome(g: GrpState, u: Tid)
    requires ChainFits(g) && u !in g.phase
    ensures u !in g.came && u !in g.taken
  {
    forall v | v in g.taken ensures v in g.came {
      var i :| 0 <= i < |g.taken| && g.taken[i] == v;
      assert g.came[i] == v;
    }
  }

  lemma ForkChain(g: GrpState, g': GrpState, t: Tid, u: Tid)
    requires ChainFits(g) && Forks(g, g', t, u) && u !in g.phase
    ensures ChainFits(g')
  {
    forall i | 0 <= i < |g.chain| ensures LinkFits(g'.els, g'.phase, g'.chain, i) {
      assert LinkFits(g.els, g.phase, g.chain, i);
    }
  }

  lemma ForkApart(g: GrpState, g': GrpState, t: Tid, u: Tid)
    requires GrpInv(g) && Forks(g, g', t, u) && u !in g.phase
    ensures ElsApart(g')
  {
    hide T.ThrInv, Inv, CvFits, ChainFits, PhaseFits, OpFits, DataFits, T.PcOf, Forks;
    forall x, y | x in g'.pc && y in g'.pc && x != y && Private(g'.pc[x], T.PcOf(g'.thr, x)) && Private(g'.pc[y], T.PcOf(g'.thr, y))
      ensures g'.pc[x].el != g'.pc[y].el
    {
      ForkOwn(g, g', t, u, x);
      ForkOwn(g, g', t, u, y);
    }
    ForkElements(g, g', t, u);
  }

  lemma ForkElements(g: GrpState, g': GrpState, t: Tid, u: Tid)
    requires GrpInv(g) && Forks(g, g', t, u) && u !in g.phase
    ensures forall x, y :: x in g'.phase && y in g'.phase && x != y && HasEl(g'.phase[x]) && HasEl(g'.phase[y]) ==> g'.phase[x].el != g'.phase[y].el
  {
    hide T.ThrInv, Inv, CvFits, ChainFits, PhaseFits, OpFits;
    OwnFits(g, t);
  }

  // A thread with an element of its own had the same one before the fork.
  lemma ForkOwn(g: GrpState, g': GrpState, t: Tid, u: Tid, x: Tid)
    requires GrpInv(g) && Forks(g, g', t, u) && x in g'.pc && Private(g'.pc[x], T.PcOf(g'.thr, x))
    ensures x in g.pc && g'.pc[x] == g.pc[x] && Private(g.pc[x], T.PcOf(g.thr, x))
  {
    hide T.ThrInv, Inv, CvFits, ChainFits, PhaseFits, OpFits, ElsApart;
    OwnFits(g, t);
    assert g'.pc[x] == PcOf(g', x);
    assert x != u;
  }

  lemma LibraryForks(g: GrpState, t: Tid, ans: T.Answer)
    requires GrpInv(g) && T.CanStep(g.thr, T.Go(t, ans)) && Outside(g, T.Go(t, ans))
    requires T.PcOf(g.thr, t).CreateFork? && ans.ok
    ensures GrpInv(Lowers(g, T.Go(t, ans)))
  {
    hide T.ThrInv, T.GoOn, T.CanStep, ChainFits, ElsApart, PhaseFits, OpFits, Private, DataFits, Inv, T.NextCall, Forks;
    var g', u := Lowers(g, T.Go(t, ans)), ans.tid;
    T.ThrStepKeeps(g.thr, T.Go(t, ans));
    LowInv(g);
    CvFacts(g);
    T.RecsGrow(g.thr, t, ans, g.cv);
    ForkShape(g, t, ans);
    forall x | x in g'.thr.low.threads ensures OpFits(PcOf(g', x), T.PcOf(g'.thr, x), g'.thr.low.threads[x], g'.lock, g'.cv) && DataFits(g', x, PcOf(g', x)) {
      ForkOps(g, g', t, u, x);
      ForkData(g, g', t, u, x);
    }
    forall v | v in g'.phase ensures PhaseFits(g', v) { ForkPhase(g, g', t, u, v); }
    ForkChain(g, g', t, u);
    ForkApart(g, g', t, u);
    ForkKeys(g, g', t, u);
  }

  lemma ForkKeys(g: GrpState, g': GrpState, t: Tid, u: Tid)
    requires Forks(g, g', t, u)
    ensures g'.pc.Keys <= g'.thr.low.threads.Keys && g'.thr.joiner == g.thr.joiner && g'.thr.low.threads.Keys == g.thr.low.threads.Keys + {u}
  {
  }

  // The fork as the thread library sees it.
  ghost predicate ForksBelow(z: T.ThrState, z': T.ThrState, t: Tid, u: Tid) {
    && t in z.low.threads && u !in z.low.threads && z'.joiner == z.joiner
    && z'.low.threads.Keys == z.low.threads.Keys + {u} && z'.low.threads[u] == Local(Idle, Out, {})
    && (forall x :: x in z.low.threads ==>
          && z'.low.threads[x].held == z.low.threads[x].held
          && (x != t ==> z'.low.threads[x] == z.low.threads[x] && T.PcOf(z', x) == T.PcOf(z, x)))
    && T.PcOf(z, t).CreateFork? && T.PcOf(z', t).CreateFields? && T.PcOf(z', t).tid == u >= 0 && T.PcOf(z', u).Away? && z'.low.threads[t].op.Idle?
  }

  lemma ForkBelow(g: GrpState, t: Tid, ans: T.Answer)
    requires GrpInv(g) && T.CanStep(g.thr, T.Go(t, ans)) && Outside(g, T.Go(t, ans))
    requires T.PcOf(g.thr, t).CreateFork? && ans.ok
    ensures ForksBelow(g.thr, T.GoOn(g.thr, t, ans), t, ans.tid)
  {
    hide T.ThrInv, T.GoOn, CvFits, PhaseFits, T.PcMoves, T.CanStep, ChainFits, ElsApart, OpFits, DataFits, Inv, T.NextCall;
    ForkMoves(g.thr, t, ans);
    InLibrary(g, t, ans);
    LowInv(g);
    CvFacts(g);
    T.GoAlone(g.thr, t, ans);
    T.RecsGrow(g.thr, t, ans, g.cv);
    ForkNew(g, t, ans);
    T.GoLowAll(g.thr, t, ans);
  }

  lemma ForkShape(g: GrpState, t: Tid, ans: T.Answer)
    requires GrpInv(g) && T.CanStep(g.thr, T.Go(t, ans)) && Outside(g, T.Go(t, ans))
    requires T.PcOf(g.thr, t).CreateFork? && ans.ok
    ensures Forks(g, Lowers(g, T.Go(t, ans)), t, ans.tid) && ans.tid !in g.phase
  {
    hide T.ThrInv, T.GoOn, T.After, CvFits, PhaseFits, T.CanStep, ChainFits, ElsApart, OpFits, DataFits, Inv;
    T.AfterGo(g.thr, t, ans);
    InLibrary(g, t, ans);
    ForkNew(g, t, ans);
    ForkBelow(g, t, ans);
  }

  lemma ForkMoves(z: T.ThrState, t: Tid, ans: T.Answer)
    requires T.ThrInv(z) && T.CanStep(z, T.Go(t, ans)) && T.PcOf(z, t).CreateFork? && ans.ok
    ensures T.PcOf(T.GoOn(z, t, ans), t).CreateFields? && T.PcOf(T.GoOn(z, t, ans), t).tid == ans.tid && T.NextCall(z, t, ans).Idle?
  {
    hide T.ThrInv, T.CanStep, T.GoOn;
    T.GoMoves(z, t, ans);
  }

  lemma ForkNew(g: GrpState, t: Tid, ans: T.Answer)
    requires GrpInv(g) && T.CanStep(g.thr, T.Go(t, ans)) && T.PcOf(g.thr, t).CreateFork? && ans.ok
    ensures ans.tid !in g.thr.low.threads && ans.tid !in g.phase
  {
    hide T.ThrInv, ChainFits, ElsApart, OpFits, DataFits;
    forall v | v in g.phase ensures v in g.thr.low.threads {
      assert PhaseFits(g, v);
    }
  }

  // ------------------------------------------------------------------ steps of other client code

  lemma OutsideCalls(g: GrpState, st: T.Step, t: Tid)
    requires GrpInv(g) && T.CanStep(g.thr, st) && Outside(g, st)
    requires st.Other? && st.x.Call? && st.x.t == t
    ensures GrpInv(Lowers(g, st))
  {
    hide T.ThrInv, ChainFits, ElsApart, PhaseFits, OpFits, DataFits, Inv, MayCall, Private, Start;
    var g' := Lowers(g, st);
    T.ThrStepKeeps(g.thr, st);
    LowInv(g);
    OutsideThere(g, st, t);
    OwnFits(g, t);
    OutsideFits(g, g', st, t);
    QuietKeeps(g, g', t);
  }

  lemma OutsideEnters(g: GrpState, st: T.Step, t: Tid)
    requires GrpInv(g) && T.CanStep(g.thr, st) && Outside(g, st)
    requires (st.Create? && st.t == t) || (st.Exit? && st.t == t)
    ensures GrpInv(Lowers(g, st))
  {
    hide *;
    var g' := Lowers(g, st);
    T.ThrStepKeeps(g.thr, st) by { LowInvariant(g); }
    OutsideThere(g, st, t);
    OutsideShape(g, st, t);
    OwnFits(g, t);
    OutsideFits(g, g', st, t);
    OutsidePlace(g, t);
    QuietKeeps(g, g', t);
  }

  lemma OutsideJoins(g: GrpState, st: T.Step, t: Tid)
    requires GrpInv(g) && T.CanStep(g.thr, st) && Outside(g, st)
    requires st.Join? && st.t == t
    ensures GrpInv(Lowers(g, st))
  {
    hide *;
    var g' := Lowers(g, st);
    T.ThrStepKeeps(g.thr, st) by { LowInvariant(g); }
    OutsideThere(g, st, t);
    OutsideShape(g, st, t);
    OwnFits(g, t);
    OutsideFits(g, g', st, t);
    OutsidePlace(g, t);
    QuietKeeps(g, g', t);
  }

  // A call of the thread library from client code, seen from here.
  lemma OutsideShape(g: GrpState, st: T.Step, t: Tid)
    requires GrpInv(g) && T.CanStep(g.thr, st) && Outside(g, st) && (st.Create? || st.Exit? || st.Join?) && st.t == t
    ensures var g' := Lowers(g, st);
            && g'.thr == T.After(g.thr, st) && CvFits(g') && OthersAsBefore(g, g', t) && SameData(g, g')
            && g'.thr.low.threads.Keys == g.thr.low.threads.Keys && g'.pc.Keys <= g.thr.low.threads.Keys && g'.thr.joiner.Keys <= g.thr.low.threads.Keys
            && PcOf(g, t).Free? && PcOf(g', t).Free?
            && g'.thr.low.threads[t].held == g.thr.low.threads[t].held && !Uses(g'.thr.low.threads[t].op, g.lock, g.cv)
  {
    hide GrpInv, Lowers, T.CanStep, T.After, T.PcOf, Start;
    Basics(g);
    OutsideThere(g, st, t);
    LowersIs(g, st);
    T.EnterAlone(g.thr, st, t);
  }

  lemma Basics(g: GrpState)
    requires GrpInv(g)
    ensures CvFits(g) && g.pc.Keys <= g.thr.low.threads.Keys && g.thr.joiner.Keys <= g.thr.low.threads.Keys
  {
  }

  lemma LowersIs(g: GrpState, y: T.Step)
    requires T.CanStep(g.thr, y) && !y.Go?
    ensures Lowers(g, y) == g.(thr := T.After(g.thr, y))
  {
    hide T.CanStep, T.After;
  }

  lemma OutsidePlace(g: GrpState, t: Tid)
    requires PcOf(g, t).Free?
    ensures !PcOf(g, t).JoinRead? && !PcOf(g, t).JoinCall? && !PcOf(g, t).BottomStart?
  {
  }

  lemma OutsideThere(g: GrpState, st: T.Step, t: Tid)
    requires T.CanStep(g.thr, st)
    requires (st.Create? && st.t == t) || (st.Exit? && st.t == t) || (st.Join? && st.t == t) || (st.Other? && st.x.Call? && st.x.t == t)
    ensures t in g.thr.low.threads && (st.Other? ==> !st.x.op.Idle?) && (st.Join? ==> st.u in g.thr.low.threads)
  {
  }

  lemma OutsideFits(g: GrpState, g': GrpState, st: T.Step, t: Tid)
    requires GrpInv(g) && t in g.thr.low.threads && t in g'.thr.low.threads && PcOf(g, t).Free? && PcOf(g', t).Free? && SameData(g, g')
    requires g'.thr.low.threads[t].held == g.thr.low.threads[t].held && !Uses(g'.thr.low.threads[t].op, g.lock, g.cv)
    ensures OpFits(PcOf(g', t), T.PcOf(g'.thr, t), g'.thr.low.threads[t], g.lock, g.cv) && DataFits(g', t, PcOf(g', t))
    ensures !Private(PcOf(g', t), T.PcOf(g'.thr, t))
  {
    hide T.ThrInv, ChainFits, ElsApart, PhaseFits, CvFits, Uses, Holding, Under;
    OwnFits(g, t);
  }

  lemma OutsideInit(g: GrpState, c: Cond)
    requires GrpInv(g) && T.CanStep(g.thr, T.Other(Init(c))) && c != g.cv
    ensures GrpInv(Lowers(g, T.Other(Init(c))))
  {
    hide T.ThrInv, ChainFits, ElsApart, PhaseFits, OpFits, DataFits, Inv;
    var g' := Lowers(g, T.Other(Init(c)));
    T.ThrStepKeeps(g.thr, T.Other(Init(c)));
    QuietChain(g, g');
    forall x | x in g.thr.low.threads ensures DataFits(g', x, PcOf(g', x)) { SameView(g, g', x); }
    forall u | u in g.phase ensures PhaseFits(g', u) { SamePhase(g, g', u); }
    SameApart(g, g');
  }

  lemma SamePhase(g: GrpState, g': GrpState, u: Tid)
    requires u in g.phase && PhaseFits(g, u) && SameData(g, g') && g'.pc == g.pc && g'.thr.low.threads.Keys == g.thr.low.threads.Keys
    ensures PhaseFits(g', u)
  {
  }

  lemma SameApart(g: GrpState, g': GrpState)
    requires ElsApart(g) && SameData(g, g') && g'.pc == g.pc && g'.thr.pc == g.thr.pc
    ensures ElsApart(g')
  {
    assert forall t :: T.PcOf(g'.thr, t) == T.PcOf(g.thr, t);
  }

  lemma LowerKeeps(g: GrpState, st: T.Step)
    requires GrpInv(g) && CanStep(g, Lower(st))
    ensures GrpInv(Lowers(g, st))
  {
    hide GrpInv, T.CanStep, Lowers;
    match st
    case Inner(t, a) => InnerKeeps(g, t, a);
    case Go(t, ans) => if T.PcOf(g.thr, t).CreateFork? && ans.ok { LibraryForks(g, t, ans); } else { LibraryKeeps(g, t, ans); }
    case Other(x) => if x.Init? { OutsideInit(g, x.c); } else { OtherIsCall(g, x); OutsideCalls(g, st, x.t); }
    case Create(t, _) => OutsideEnters(g, st, t);
    case Join(t, _) => OutsideJoins(g, st, t);
    case Exit(t, _) => OutsideEnters(g, st, t);
  }

  lemma OtherIsCall(g: GrpState, x: Label)
    requires T.CanStep(g.thr, T.Other(x)) && !x.Init?
    ensures x.Call?
  {
  }

  // ------------------------------------------------------------------ steps of this library

  lemma CallStep(g: GrpState, t: Tid, op: Op)
    requires GrpInv(g) && t in g.thr.low.threads && T.PcOf(g.thr, t).Away? && MayCall(g.thr.low, t, op)
    requires op.Acquire? || op.Release? || op.Wait? ==> op.mutex == Own(g.lock)
    requires T.OnCond(op) ==> op.cond == g.cv
    ensures T.CanStep(g.thr, T.Other(Call(t, op)))
    ensures T.After(g.thr, T.Other(Call(t, op))) == g.thr.(low := Called(g.thr.low, t, op))
    ensures T.ThrInv(g.thr.(low := Called(g.thr.low, t, op))) && Inv(Called(g.thr.low, t, op))
  {
    hide T.ThrInv, ChainFits, ElsApart, PhaseFits, OpFits, DataFits, Inv, Start;
    assert T.CanStep(g.thr, T.Other(Call(t, op)));
    T.ThrStepKeeps(g.thr, T.Other(Call(t, op)));
    T.BelowInv(g.thr.(low := Called(g.thr.low, t, op)));
  }

  lemma QuietCall(g: GrpState, t: Tid, op: Op, p: GrpPc)
    requires GrpInv(g) && Ready(g, t) && MayCall(g.thr.low, t, op)
    requires op.Acquire? || op.Release? || op.Wait? ==> op.mutex == Own(g.lock)
    requires T.OnCond(op) ==> op.cond == g.cv
    requires !PcOf(g, t).JoinRead? && !PcOf(g, t).JoinCall? && !PcOf(g, t).BottomStart? && !p.Creating? && !p.CreateUndo?
    requires OpFits(p, T.Away, Local(op, Start(op), g.thr.low.threads[t].held), g.lock, g.cv)
    requires DataFits(Calls(g, t, op, p), t, p)
    ensures GrpInv(Calls(g, t, op, p))
  {
    hide T.ThrInv, ChainFits, ElsApart, PhaseFits, OpFits, DataFits, Inv, MayCall, Private, Start;
    CallStep(g, t, op);
    NotPrivate(p, T.Away);
    QuietKeeps(g, Calls(g, t, op, p), t);
  }

  lemma NotPrivate(p: GrpPc, q: T.ThrPc)
    requires !p.Creating? && !p.CreateUndo?
    ensures !Private(p, q)
  {
  }

  lemma EntersGroup(g: GrpState, st: Step)
    requires GrpInv(g) && CanStep(g, st) && (st.Create? || st.Join?)
    ensures GrpInv(After(g, st))
  {
    hide T.ThrInv, ChainFits, ElsApart, PhaseFits, Inv, Start, CvFits;
    OwnFits(g, st.t);
    QuietCall(g, st.t, if st.Create? then Heap else Acquire(Own(g.lock)), if st.Create? then CreateAlloc else JoinTest);
  }

  lemma ReturnsToBottom(g: GrpState, t: Tid, ret: int)
    requires GrpInv(g) && CanStep(g, Return(t, ret))
    ensures GrpInv(After(g, Return(t, ret)))
  {
    hide T.ThrInv, ChainFits, ElsApart, Inv, Start, CvFits, PhaseFits;
    OwnFits(g, t);
    QuietCall(g, t, Acquire(Own(g.lock)), BottomQueue(g.phase[t].el, ret));
  }

  // Between two calls of the lower libraries.
  lemma GroupIdle(g: GrpState, t: Tid, ans: T.Answer)
    requires GrpInv(g) && CanStep(g, Go(t, ans))
    ensures t in g.thr.low.threads && g.thr.low.threads[t].op.Idle? && Clients(g.thr.low.threads[t].held)
    ensures OpFits(PcOf(g, t), T.PcOf(g.thr, t), g.thr.low.threads[t], g.lock, g.cv) && DataFits(g, t, PcOf(g, t))
    ensures !Elsewhere(PcOf(g, t)) && T.PcOf(g.thr, t).Away?
  {
    hide T.ThrInv, ChainFits, ElsApart, PhaseFits, OpFits, DataFits, Inv, CvFits;
    OwnFits(g, t);
    LowInv(g);
    IdleOut(g.thr.low, t);
    FitsHas(g.thr.low, t);
  }

  lemma UnlockMoves(g: GrpState, t: Tid, ans: T.Answer)
    requires GrpInv(g) && CanStep(g, Go(t, ans)) && PcOf(g, t).BottomUnlock?
    ensures GrpInv(GoOn(g, t, ans))
  {
    hide T.ThrInv, ChainFits, ElsApart, PhaseFits, Inv, Start, CvFits;
    GroupIdle(g, t, ans);
    QuietCall(g, t, Release(Own(g.lock)), BottomExit(PcOf(g, t).ret));
  }

  lemma WaitMoves(g: GrpState, t: Tid, ans: T.Answer)
    requires GrpInv(g) && CanStep(g, Go(t, ans)) && PcOf(g, t).JoinTest? && g.zombieOut.Null?
    ensures GrpInv(GoOn(g, t, ans))
  {
    hide T.ThrInv, ChainFits, ElsApart, PhaseFits, Inv, Start, CvFits, Usable;
    GroupIdle(g, t, ans);
    CvUsable(g);
    QuietCall(g, t, Wait(g.cv, Own(g.lock)), JoinTest);
  }

  // The steps that only come back to client code.
  lemma FreeMoves(g: GrpState, t: Tid, ans: T.Answer)
    requires GrpInv(g) && CanStep(g, Go(t, ans)) && (PcOf(g, t).CreateEnd? || (PcOf(g, t).CreateAlloc? && !ans.ok))
    ensures GrpInv(GoOn(g, t, ans))
  {
    hide T.ThrInv, ChainFits, ElsApart, PhaseFits, Inv, Start;
    GroupIdle(g, t, ans);
    LowInv(g);
    QuietKeeps(g, GoOn(g, t, ans), t);
  }

  // thrgrp_bottom returns, and its thread exits with the status.
  lemma ExitMoves(g: GrpState, t: Tid, ans: T.Answer)
    requires GrpInv(g) && CanStep(g, Go(t, ans)) && PcOf(g, t).BottomExit?
    ensures T.CanStep(g.thr, T.Exit(t, PcOf(g, t).ret)) && GrpInv(GoOn(g, t, ans))
  {
    hide T.ThrInv, ChainFits, ElsApart, PhaseFits, Inv, Start, Holding;
    GroupIdle(g, t, ans);
    ListNext(g, t);
    T.ThrStepKeeps(g.thr, T.Exit(t, PcOf(g, t).ret));
    T.EnterAlone(g.thr, T.Exit(t, PcOf(g, t).ret), t);
    QuietKeeps(g, GoOn(g, t, ans), t);
  }

  lemma ListNext(g: GrpState, t: Tid)
    requires Ready(g, t) && Under(T.LIST_MUTEX, g.lock, g.thr.low.threads[t].held) && Own(g.lock) !in g.thr.low.threads[t].held
    requires Clients(g.thr.low.threads[t].held)
    ensures MayCall(g.thr.low, t, Acquire(T.LIST_MUTEX))
  {
  }

  // A step of t that changes the data: the phase of w, and of the elements only those of t and the last
  // one of the queue.
  ghost predicate DataStep(g: GrpState, g': GrpState, t: Tid, w: Tid) {
    && OthersAsBefore(g, g', t) && g'.phase.Keys == g.phase.Keys && g'.thr.low.threads.Keys == g.thr.low.threads.Keys
    && (t in g.phase ==> g.phase[t].Running?)
    && (forall v :: v in g.phase && v != w ==> g'.phase[v] == g.phase[v])
    && (w in g.phase && HasEl(g'.phase[w]) ==> HasEl(g.phase[w]) && g'.phase[w].el == g.phase[w].el)
    && (w in g.phase && w != t ==> (g.phase[w].Running? <==> g'.phase[w].Running?) && (g.phase[w].Running? ==> g'.phase[w] == g.phase[w]))
    && (w in g.phase && (g.phase[w].Off? || g.phase[w].Reaped?) && g'.phase[w] != g.phase[w] ==> g.phase[w].joiner == t)
    && (forall v :: v in g.phase && HasEl(g'.phase[v]) && g.phase[v].el in g.els ==>
          && g.phase[v].el in g'.els
          && (g.els[g.phase[v].el].Qel? && v != t ==> g'.els[g.phase[v].el].Qel? && g'.els[g.phase[v].el].tid == g.els[g.phase[v].el].tid)
          && (g.phase[v].Running? && v != t ==> g'.els[g.phase[v].el] == g.els[g.phase[v].el]))
    && (forall x :: x in g.thr.low.threads && x != t && Private(PcOf(g, x), T.PcOf(g.thr, x)) && PcOf(g, x).el in g.els ==> PcOf(g, x).el in g'.els)
    && (forall u :: u in g.phase && !(g.phase[u].Reaped? && g.phase[u].joiner == t) ==>
          (u in g'.thr.joiner <==> u in g.thr.joiner) && (u in g.thr.joiner ==> g'.thr.joiner[u] == g.thr.joiner[u]))
  }

  lemma DataOthers(g: GrpState, g': GrpState, t: Tid, w: Tid, x: Tid)
    requires GrpInv(g) && DataStep(g, g', t, w) && x in g.thr.low.threads && x != t
    ensures OpFits(PcOf(g', x), T.PcOf(g'.thr, x), g'.thr.low.threads[x], g'.lock, g'.cv) && DataFits(g', x, PcOf(g', x))
  {
    hide T.ThrInv, Inv, OpFits, CvFits, ChainFits, ElsApart, PhaseFits;
    OwnFits(g, x);
    if PcOf(g, x).JoinRead? {
      TargetHas(g, g.els[PcOf(g, x).el].tid);
    }
  }

  lemma TargetHas(g: GrpState, u: Tid)
    requires GrpInv(g) && u in g.phase
    ensures PhaseFits(g, u)
  {
  }

  // The phase of a thread other than w carries over.
  lemma PhaseOthers(g: GrpState, g': GrpState, t: Tid, w: Tid, v: Tid)
    requires GrpInv(g) && DataStep(g, g', t, w) && v in g.phase && v != w
    requires (v in g'.taken <==> v in g.taken) && (v in g'.came <==> v in g.came)
    requires g.phase[v].Zombie? && Node(g.phase[v].el, v) in g.chain ==> Node(g.phase[v].el, v) in g'.chain
    requires v == t && g.phase[t].Running? ==> g.phase[t].el in g'.els && (PcOf(g', t).BottomStart? || g'.els[g.phase[t].el] == Qel(t, Null))
    requires g.phase[v].Off? ==> g.phase[v].joiner != t
    requires g.phase[v].Reaped? ==> g.phase[v].joiner != t || (v in g'.thr.joiner && g'.thr.joiner[v] == t)
    ensures PhaseFits(g', v)
  {
    hide T.ThrInv, Inv, OpFits, CvFits, ChainFits, ElsApart, DataFits;
    TargetHas(g, v);
  }

  lemma ApartKept(g: GrpState, g': GrpState, t: Tid, w: Tid)
    requires GrpInv(g) && DataStep(g, g', t, w) && g'.pc.Keys <= g'.thr.low.threads.Keys
    requires Private(PcOf(g', t), T.PcOf(g'.thr, t)) ==>
               || (Private(PcOf(g, t), T.PcOf(g.thr, t)) && PcOf(g', t).el == PcOf(g, t).el)
               || PcOf(g', t).el !in g.els
    ensures ElsApart(g')
  {
    hide T.ThrInv, Inv, OpFits, CvFits, ChainFits, PhaseFits, DataFits;
    forall x, y | x in g'.pc && y in g'.pc && x != y && Private(g'.pc[x], T.PcOf(g'.thr, x)) && Private(g'.pc[y], T.PcOf(g'.thr, y))
      ensures g'.pc[x].el != g'.pc[y].el
    {
      PairApart(g, g', t, w, x, y);
    }
  }

  // Two threads that each have an element of their own still have different ones.
  lemma PairApart(g: GrpState, g': GrpState, t: Tid, w: Tid, x: Tid, y: Tid)
    requires GrpInv(g) && DataStep(g, g', t, w) && g'.pc.Keys <= g'.thr.low.threads.Keys
    requires Private(PcOf(g', t), T.PcOf(g'.thr, t)) ==>
               || (Private(PcOf(g, t), T.PcOf(g.thr, t)) && PcOf(g', t).el == PcOf(g, t).el)
               || PcOf(g', t).el !in g.els
    requires x in g'.pc && y in g'.pc && x != y && Private(g'.pc[x], T.PcOf(g'.thr, x)) && Private(g'.pc[y], T.PcOf(g'.thr, y))
    ensures g'.pc[x].el != g'.pc[y].el
  {
    hide T.ThrInv, Inv, OpFits, CvFits, ChainFits, PhaseFits;
    assert g'.pc[x] == PcOf(g', x) && g'.pc[y] == PcOf(g', y);
    if x != t { OwnFits(g, x); }
    if y != t { OwnFits(g, y); }
  }

  lemma DataKeeps(g: GrpState, g': GrpState, t: Tid, w: Tid)
    requires GrpInv(g) && T.ThrInv(g'.thr) && CvFits(g') && DataStep(g, g', t, w) && ChainFits(g') && ElsApart(g')
    requires g'.pc.Keys <= g'.thr.low.threads.Keys && g'.thr.joiner.Keys <= g'.thr.low.threads.Keys
    requires OpFits(PcOf(g', t), T.PcOf(g'.thr, t), g'.thr.low.threads[t], g.lock, g.cv) && DataFits(g', t, PcOf(g', t))
    requires forall u :: u in g'.phase ==> PhaseFits(g', u)
    ensures GrpInv(g')
  {
    hide T.ThrInv, Inv, OpFits, CvFits, ChainFits, ElsApart, DataFits, PhaseFits, DataStep;
    DataStepIs(g, g', t, w);
    forall x | x in g'.thr.low.threads ensures OpFits(PcOf(g', x), T.PcOf(g'.thr, x), g'.thr.low.threads[x], g'.lock, g'.cv) && DataFits(g', x, PcOf(g', x)) {
      if x != t { DataOthers(g, g', t, w, x); }
    }
  }

  lemma DataStepIs(g: GrpState, g': GrpState, t: Tid, w: Tid)
    requires DataStep(g, g', t, w)
    ensures g'.lock == g.lock && g'.cv == g.cv && g'.thr.low.threads.Keys == g.thr.low.threads.Keys && t in g.thr.low.threads
  {
  }

  // The elements change at d only, which is none of those in the queue.
  lemma ChainBesides(g: GrpState, g': GrpState, d: Addr)
    requires ChainFits(g) && g'.zombieIn == g.zombieIn && g'.zombieOut == g.zombieOut && g'.phase == g.phase
    requires g'.chain == g.chain && g'.came == g.came && g'.taken == g.taken
    requires forall e :: e in g.els && e != d ==> e in g'.els && g'.els[e] == g.els[e]
    requires forall i :: 0 <= i < |g.chain| ==> g.chain[i].rec != d
    ensures ChainFits(g')
  {
    forall i | 0 <= i < |g.chain| ensures LinkFits(g'.els, g'.phase, g'.chain, i) {
      assert LinkFits(g.els, g.phase, g.chain, i);
    }
  }

  // What is in the queue belongs to zombies.
  lemma ChainOwners(g: GrpState)
    requires ChainFits(g)
    ensures forall i :: 0 <= i < |g.chain| ==>
              g.chain[i].rec in g.els && g.chain[i].tid in g.phase && g.phase[g.chain[i].tid] == Zombie(g.chain[i].rec)
  {
    forall i | 0 <= i < |g.chain| ensures g.chain[i].rec in g.els && g.chain[i].tid in g.phase && g.phase[g.chain[i].tid] == Zombie(g.chain[i].rec) {
      assert LinkFits(g.els, g.phase, g.chain, i);
    }
  }

  lemma ThrCreates(g: GrpState, t: Tid, ans: T.Answer)
    requires GrpInv(g) && CanStep(g, Go(t, ans)) && PcOf(g, t).CreateAlloc? && ans.ok
    ensures T.CanStep(g.thr, T.Create(t, false)) && T.ThrInv(GoOn(g, t, ans).thr) && T.After(g.thr, T.Create(t, false)) == GoOn(g, t, ans).thr
  {
    hide T.ThrInv, ChainFits, ElsApart, PhaseFits, Inv, Start, Holding, DataFits;
    GroupIdle(g, t, ans);
    ListNext(g, t);
    T.ThrStepKeeps(g.thr, T.Create(t, false));
  }

  lemma AllocShape(g: GrpState, t: Tid, ans: T.Answer)
    requires GrpInv(g) && CanStep(g, Go(t, ans)) && PcOf(g, t).CreateAlloc? && ans.ok && T.CanStep(g.thr, T.Create(t, false))
    requires T.After(g.thr, T.Create(t, false)) == GoOn(g, t, ans).thr
    ensures var g' := GoOn(g, t, ans);
            && DataStep(g, g', t, t) && CvFits(g') && g'.pc.Keys <= g'.thr.low.threads.Keys && g'.thr.joiner == g.thr.joiner
            && OpFits(PcOf(g', t), T.PcOf(g'.thr, t), g'.thr.low.threads[t], g.lock, g.cv) && ans.addr !in g.els
  {
    hide T.ThrInv, ChainFits, ElsApart, PhaseFits, Inv, Start, Holding, T.CanStep, T.After;
    GroupIdle(g, t, ans);
    T.EnterAlone(g.thr, T.Create(t, false), t);
  }

  lemma AllocData(g: GrpState, t: Tid, ans: T.Answer)
    requires GrpInv(g) && CanStep(g, Go(t, ans)) && PcOf(g, t).CreateAlloc? && ans.ok
    ensures DataFits(GoOn(g, t, ans), t, Creating(ans.addr))
  {
    hide T.ThrInv, ChainFits, ElsApart, Inv, Start, OpFits, CvFits;
    GroupIdle(g, t, ans);
    forall u | u in g.phase && HasEl(g.phase[u]) ensures g.phase[u].el != ans.addr {
      TargetHas(g, u);
    }
  }

  // thrgrp_create goes on to thr_create with a new element.
  lemma AllocKeeps(g: GrpState, t: Tid, ans: T.Answer)
    requires GrpInv(g) && CanStep(g, Go(t, ans)) && PcOf(g, t).CreateAlloc? && ans.ok
    ensures GrpInv(GoOn(g, t, ans))
  {
    hide T.ThrInv, ChainFits, ElsApart, PhaseFits, OpFits, DataFits, DataStep, Inv, Start, T.Goes;
    var g' := GoOn(g, t, ans);
    ThrCreates(g, t, ans);
    AllocShape(g, t, ans);
    AllocData(g, t, ans);
    ChainOwners(g);
    ChainBesides(g, g', ans.addr);
    ApartKept(g, g', t, t);
    forall u | u in g'.phase ensures PhaseFits(g', u) {
      AllocPhase(g, g', t, u, ans.addr);
    }
    DataKeeps(g, g', t, t);
  }

  lemma AllocPhase(g: GrpState, g': GrpState, t: Tid, u: Tid, a: Addr)
    requires GrpInv(g) && u in g.phase && DataStep(g, g', t, t) && g'.phase == g.phase && g'.chain == g.chain && g'.came == g.came && g'.taken == g.taken
    requires a !in g.els && g'.els == g.els[a := Argument] && g'.thr.joiner == g.thr.joiner && PcOf(g, t).CreateAlloc?
    ensures PhaseFits(g', u)
  {
    hide T.ThrInv, Inv, OpFits, CvFits, ChainFits, ElsApart, DataFits;
    TargetHas(g, u);
  }

  // The element of a creator whose thr_create failed belongs to nobody else.
  lemma OwnEl(g: GrpState, t: Tid)
    requires GrpInv(g) && t in g.thr.low.threads && Private(PcOf(g, t), T.PcOf(g.thr, t))
    ensures PcOf(g, t).el in g.els
    ensures forall u :: u in g.phase && HasEl(g.phase[u]) ==> g.phase[u].el != PcOf(g, t).el
    ensures forall x :: x in g.thr.low.threads && x != t && Private(PcOf(g, x), T.PcOf(g.thr, x)) ==> PcOf(g, x).el != PcOf(g, t).el
    ensures forall i :: 0 <= i < |g.chain| ==> g.chain[i].rec != PcOf(g, t).el
  {
    hide T.ThrInv, Inv, OpFits, CvFits, PhaseFits, ChainFits;
    OwnFits(g, t);
    ChainOwners(g);
    forall x | x in g.thr.low.threads && x != t && Private(PcOf(g, x), T.PcOf(g.thr, x)) ensures PcOf(g, x).el != PcOf(g, t).el {
      assert g.pc[x].el != g.pc[t].el;
    }
  }

  lemma UndoShape(g: GrpState, t: Tid, ans: T.Answer)
    requires GrpInv(g) && CanStep(g, Go(t, ans)) && PcOf(g, t).CreateUndo?
    ensures var g' := GoOn(g, t, ans);
            && DataStep(g, g', t, t) && CvFits(g') && g'.pc.Keys <= g'.thr.low.threads.Keys && g'.thr.joiner == g.thr.joiner && T.ThrInv(g'.thr)
            && OpFits(PcOf(g', t), T.PcOf(g'.thr, t), g'.thr.low.threads[t], g.lock, g.cv) && DataFits(g', t, PcOf(g', t))
  {
    hide GrpInv, GoOn, CanStep, DataStep, OpFits, DataFits, CvFits, T.ThrInv;
    UndoData(g, t, ans);
    UndoFits(g, t, ans);
  }

  lemma UndoData(g: GrpState, t: Tid, ans: T.Answer)
    requires GrpInv(g) && CanStep(g, Go(t, ans)) && PcOf(g, t).CreateUndo?
    ensures var g' := GoOn(g, t, ans);
            DataStep(g, g', t, t) && g'.pc.Keys <= g'.thr.low.threads.Keys && g'.thr.joiner == g.thr.joiner
  {
    hide T.ThrInv, ChainFits, ElsApart, PhaseFits, Inv, Start, Holding, OpFits, CvFits;
    GroupIdle(g, t, ans);
    OwnEl(g, t);
  }

  lemma UndoFits(g: GrpState, t: Tid, ans: T.Answer)
    requires GrpInv(g) && CanStep(g, Go(t, ans)) && PcOf(g, t).CreateUndo?
    ensures var g' := GoOn(g, t, ans);
            && CvFits(g') && T.ThrInv(g'.thr) && t in g'.thr.low.threads
            && OpFits(PcOf(g', t), T.PcOf(g'.thr, t), g'.thr.low.threads[t], g.lock, g.cv) && DataFits(g', t, PcOf(g', t))
  {
    hide T.ThrInv, ChainFits, ElsApart, PhaseFits, Inv, Start, Holding, DataStep;
    GroupIdle(g, t, ans);
    CallStep(g, t, Heap);
  }

  lemma UndoKeeps(g: GrpState, t: Tid, ans: T.Answer)
    requires GrpInv(g) && CanStep(g, Go(t, ans)) && PcOf(g, t).CreateUndo?
    ensures GrpInv(GoOn(g, t, ans))
  {
    hide T.ThrInv, ChainFits, ElsApart, PhaseFits, OpFits, DataFits, DataStep, Inv, Start, Private;
    var g' := GoOn(g, t, ans);
    UndoShape(g, t, ans);
    GroupIdle(g, t, ans);
    UndoPrivate(PcOf(g, t), T.PcOf(g.thr, t));
    OwnEl(g, t);
    ChainBesides(g, g', PcOf(g, t).el);
    NotPrivate(PcOf(g', t), T.PcOf(g'.thr, t));
    ApartKept(g, g', t, t);
    forall u | u in g'.phase ensures PhaseFits(g', u) {
      UndoPhase(g, g', t, u, PcOf(g, t).el);
    }
    DataKeeps(g, g', t, t);
  }

  lemma UndoPrivate(p: GrpPc, q: T.ThrPc)
    requires p.CreateUndo?
    ensures Private(p, q)
  {
  }

  lemma UndoPhase(g: GrpState, g': GrpState, t: Tid, u: Tid, a: Addr)
    requires GrpInv(g) && u in g.phase && DataStep(g, g', t, t) && g'.phase == g.phase && g'.chain == g.chain && g'.came == g.came && g'.taken == g.taken
    requires g'.els == g.els - {a} && g'.thr.joiner == g.thr.joiner && PcOf(g, t) == CreateUndo(a)
    requires HasEl(g.phase[u]) ==> g.phase[u].el != a
    ensures PhaseFits(g', u)
  {
    hide T.ThrInv, Inv, OpFits, CvFits, ChainFits, ElsApart, DataFits;
    TargetHas(g, u);
  }

  // A running thread's element is its own.
  lemma RunningEl(g: GrpState, t: Tid)
    requires GrpInv(g) && t in g.phase && g.phase[t].Running?
    ensures var el := g.phase[t].el;
            && el in g.els && t !in g.came && t !in g.taken && t !in g.thr.joiner && t in g.thr.low.threads
            && (forall v :: v in g.phase && v != t && HasEl(g.phase[v]) ==> g.phase[v].el != el)
            && (forall x :: x in g.thr.low.threads && Private(PcOf(g, x), T.PcOf(g.thr, x)) ==> PcOf(g, x).el != el)
            && (forall i :: 0 <= i < |g.chain| ==> g.chain[i].rec != el && g.chain[i].tid != t)
            && (!PcOf(g, t).BottomStart? ==> g.els[el] == Qel(t, Null))
  {
    hide T.ThrInv, Inv, OpFits, CvFits, ChainFits;
    TargetHas(g, t);
    ChainOwners(g);
    forall x | x in g.thr.low.threads && Private(PcOf(g, x), T.PcOf(g.thr, x)) ensures PcOf(g, x).el != g.phase[t].el {
      OwnFits(g, x);
    }
  }

  lemma StartShape(g: GrpState, t: Tid, ans: T.Answer)
    requires GrpInv(g) && CanStep(g, Go(t, ans)) && PcOf(g, t).BottomStart?
    ensures var g' := GoOn(g, t, ans);
            && t in g.phase && g.phase[t] == Running(PcOf(g, t).el) && g'.els == g.els[PcOf(g, t).el := Qel(t, Null)] && PcOf(g', t).Free?
            && DataStep(g, g', t, t) && g'.thr == g.thr && g'.pc.Keys <= g'.thr.low.threads.Keys
            && OpFits(PcOf(g', t), T.PcOf(g'.thr, t), g'.thr.low.threads[t], g.lock, g.cv) && DataFits(g', t, PcOf(g', t))
  {
    hide T.ThrInv, ChainFits, ElsApart, PhaseFits, Inv, Holding;
    GroupIdle(g, t, ans);
    RunningEl(g, t);
  }

  // The new thread turns its arguments into its queue element.
  lemma StartKeeps(g: GrpState, t: Tid, ans: T.Answer)
    requires GrpInv(g) && CanStep(g, Go(t, ans)) && PcOf(g, t).BottomStart?
    ensures GrpInv(GoOn(g, t, ans))
  {
    hide T.ThrInv, ChainFits, ElsApart, PhaseFits, OpFits, DataFits, DataStep, Inv, Private;
    var g' := GoOn(g, t, ans);
    StartShape(g, t, ans);
    LowInv(g);
    RunningEl(g, t);
    ChainBesides(g, g', PcOf(g, t).el);
    NotPrivate(PcOf(g', t), T.PcOf(g'.thr, t));
    ApartKept(g, g', t, t);
    forall u | u in g'.phase ensures PhaseFits(g', u) {
      StartPhase(g, g', t, u);
    }
    DataKeeps(g, g', t, t);
  }

  lemma StartPhase(g: GrpState, g': GrpState, t: Tid, u: Tid)
    requires GrpInv(g) && u in g.phase && DataStep(g, g', t, t) && g'.phase == g.phase && g'.chain == g.chain && g'.came == g.came && g'.taken == g.taken
    requires t in g.phase && g.phase[t].Running? && g'.els == g.els[g.phase[t].el := Qel(t, Null)] && g'.thr.joiner == g.thr.joiner
    requires PcOf(g, t).BottomStart?
    ensures PhaseFits(g', u)
  {
    hide T.ThrInv, Inv, OpFits, CvFits, ChainFits, DataFits;
    TargetHas(g, u);
  }

  // No thread and no element is in the queue twice.
  lemma ChainDistinct(g: GrpState, i: nat, j: nat)
    requires ChainFits(g) && ElsApart(g) && i < j < |g.chain|
    ensures g.chain[i].tid != g.chain[j].tid && g.chain[i].rec != g.chain[j].rec
  {
    hide LinkFits;
    ChainOwners(g);
    assert Tids(g.chain)[i] == g.came[|g.taken| + i] && Tids(g.chain)[j] == g.came[|g.taken| + j];
  }

  lemma EnqueueChain(g: GrpState, t: Tid, el: Addr)
    requires ChainFits(g) && ElsApart(g) && t in g.phase && g.phase[t] == Running(el) && el in g.els && g.els[el] == Qel(t, Null)
    requires t !in g.came && forall i :: 0 <= i < |g.chain| ==> g.chain[i].rec != el && g.chain[i].tid != t
    ensures ChainFits(Enqueue(g, t, el))
    ensures g.zombieIn.To? ==> g.zombieIn.addr in g.els
  {
    hide ElsApart, LinkFits, Tids;
    var g' := Enqueue(g, t, el);
    TidsAppend(g.chain, Node(el, t));
    ChainOwners(g);
    forall i | 0 <= i < |g.chain| + 1 ensures LinkFits(g'.els, g'.phase, g'.chain, i) { EnqueueLink(g, t, el, i); }
  }

  lemma EnqueueLink(g: GrpState, t: Tid, el: Addr, i: nat)
    requires ChainFits(g) && ElsApart(g) && t in g.phase && g.phase[t] == Running(el) && el in g.els && g.els[el] == Qel(t, Null)
    requires forall i :: 0 <= i < |g.chain| ==> g.chain[i].rec != el && g.chain[i].tid != t
    requires i <= |g.chain|
    ensures var g' := Enqueue(g, t, el); LinkFits(g'.els, g'.phase, g'.chain, i)
  {
    hide ElsApart, Tids;
    var n := |g.chain|;
    if n > 0 { assert LinkFits(g.els, g.phase, g.chain, n - 1); }
    if i < n {
      assert LinkFits(g.els, g.phase, g.chain, i);
      if i < n - 1 { ChainDistinct(g, i, n - 1); }
    }
  }

  lemma DequeueHead(g: GrpState)
    requires ChainFits(g) && ElsApart(g) && g.chain != []
    ensures g.zombieOut == To(g.chain[0].rec) && g.chain[0].rec in g.els
    ensures g.els[g.chain[0].rec] == Qel(g.chain[0].tid, if |g.chain| > 1 then To(g.chain[1].rec) else Null)
    ensures g.zombieOut == g.zombieIn <==> |g.chain| == 1
  {
    hide ElsApart;
    assert LinkFits(g.els, g.phase, g.chain, 0);
    if |g.chain| > 1 {
      ChainDistinct(g, 0, |g.chain| - 1);
    }
  }

  lemma DequeueLink(g: GrpState, t: Tid, i: nat)
    requires ChainFits(g) && ElsApart(g) && i + 1 < |g.chain|
    ensures LinkFits(g.els, g.phase[g.chain[0].tid := Off(g.chain[0].rec, t)], g.chain[1..], i)
  {
    assert LinkFits(g.els, g.phase, g.chain, i + 1);
    ChainDistinct(g, 0, i + 1) by { hide ElsApart; }
  }

  lemma DequeueEnds(g: GrpState, t: Tid)
    requires ChainFits(g) && ElsApart(g) && g.chain != []
    requires g.chain[0].rec in g.els && g.els[g.chain[0].rec].Qel?
    ensures var g' := Dequeue(g, t, g.chain[0].rec);
            && g'.zombieOut == (if g'.chain == [] then Null else To(g'.chain[0].rec))
            && g'.zombieIn == (if g'.chain == [] then Null else To(g'.chain[|g'.chain| - 1].rec))
  {
    hide ElsApart, LinkFits, Tids;
    DequeueHead(g);
  }

  lemma DequeueLog(g: GrpState, t: Tid)
    requires ChainFits(g) && ElsApart(g) && g.chain != []
    requires g.chain[0].rec in g.els && g.els[g.chain[0].rec].Qel?
    ensures var g' := Dequeue(g, t, g.chain[0].rec);
            g'.came == g'.taken + Tids(g'.chain)
  {
    hide ElsApart, LinkFits, Tids;
    DequeueHead(g);
    TidsHead(g.chain);
    assert g.taken + [g.chain[0].tid] + Tids(g.chain[1..]) == g.taken + ([g.chain[0].tid] + Tids(g.chain[1..]));
  }

  lemma DequeueChain(g: GrpState, t: Tid)
    requires ChainFits(g) && ElsApart(g) && g.chain != []
    ensures g.zombieOut == To(g.chain[0].rec) && g.chain[0].rec in g.els && g.els[g.chain[0].rec].Qel? && g.els[g.chain[0].rec].tid == g.chain[0].tid
    ensures ChainFits(Dequeue(g, t, g.chain[0].rec))
  {
    hide ElsApart, LinkFits, Tids;
    DequeueHead(g);
    DequeueEnds(g, t);
    DequeueLog(g, t);
    var g' := Dequeue(g, t, g.chain[0].rec);
    forall i | 0 <= i < |g'.chain| ensures LinkFits(g'.els, g'.phase, g'.chain, i) {
      DequeueLink(g, t, i);
    }
  }

  lemma EnqueueReady(g: GrpState, t: Tid, ans: T.Answer)
    requires GrpInv(g) && CanStep(g, Go(t, ans)) && PcOf(g, t).BottomQueue?
    ensures var el := PcOf(g, t).el;
            && t in g.phase && g.phase[t] == Running(el) && el in g.els && g.els[el] == Qel(t, Null) && t !in g.came && t !in g.taken && t !in g.thr.joiner
            && (forall i :: 0 <= i < |g.chain| ==> g.chain[i].rec != el && g.chain[i].tid != t)
            && (g.zombieIn.To? ==> g.zombieIn.addr in g.els) && ChainFits(Enqueue(g, t, el))
            && GoOn(g, t, ans) == Calls(Enqueue(g, t, el), t, Signal(g.cv, false), BottomUnlock(PcOf(g, t).ret))
  {
    hide T.ThrInv, ChainFits, ElsApart, PhaseFits, Inv, Holding, OpFits, CvFits, Calls, Enqueue;
    GroupIdle(g, t, ans);
    RunningEl(g, t);
    EnqueueChain(g, t, PcOf(g, t).el);
  }

  lemma EnqueueShape(g: GrpState, t: Tid, el: Addr, ret: int)
    requires GrpInv(g) && Ready(g, t) && PcOf(g, t) == BottomQueue(el, ret) && t in g.phase && g.phase[t] == Running(el)
    ensures var g' := Calls(Enqueue(g, t, el), t, Signal(g.cv, false), BottomUnlock(ret));
            DataStep(g, g', t, t) && g'.pc.Keys <= g'.thr.low.threads.Keys && g'.thr.joiner == g.thr.joiner
  {
    hide T.ThrInv, PhaseFits, Inv, Start, OpFits, DataFits, CvFits;
    LastOwner(g);
  }

  // The last element of the queue belongs to a zombie.
  lemma LastOwner(g: GrpState)
    requires GrpInv(g)
    ensures g.zombieIn.To? ==>
              exists z :: z in g.phase && g.phase[z] == Zombie(g.zombieIn.addr) && g.zombieIn.addr in g.els && g.els[g.zombieIn.addr].Qel?
    ensures g.zombieIn.To? ==> forall v :: v in g.phase && g.phase[v].Running? ==> g.phase[v].el != g.zombieIn.addr
  {
    hide T.ThrInv, PhaseFits, Inv, OpFits, DataFits, CvFits;
    if g.zombieIn.To? {
      assert LinkFits(g.els, g.phase, g.chain, |g.chain| - 1);
    }
  }

  lemma EnqueueFits(g: GrpState, t: Tid, ans: T.Answer)
    requires GrpInv(g) && CanStep(g, Go(t, ans)) && PcOf(g, t).BottomQueue?
    ensures var g' := Calls(Enqueue(g, t, PcOf(g, t).el), t, Signal(g.cv, false), BottomUnlock(PcOf(g, t).ret));
            && T.ThrInv(g'.thr) && CvFits(g')
            && OpFits(PcOf(g', t), T.PcOf(g'.thr, t), g'.thr.low.threads[t], g.lock, g.cv) && DataFits(g', t, PcOf(g', t))
  {
    hide T.ThrInv, ChainFits, ElsApart, PhaseFits, Inv, Start, Holding, Usable;
    GroupIdle(g, t, ans);
    CvUsable(g);
    CallStep(g, t, Signal(g.cv, false));
  }

  lemma EnqueuePhase(g: GrpState, g': GrpState, t: Tid, el: Addr, ret: int, u: Tid)
    requires GrpInv(g) && u in g.phase && DataStep(g, g', t, t) && t in g.phase && g.phase[t] == Running(el) && el in g.els && g.els[el] == Qel(t, Null)
    requires PcOf(g, t) == BottomQueue(el, ret) && t !in g.came && t !in g.taken && t !in g.thr.joiner
    requires g' == Calls(Enqueue(g, t, el), t, Signal(g.cv, false), BottomUnlock(ret))
    ensures PhaseFits(g', u)
  {
    hide T.ThrInv, Inv, OpFits, CvFits, ChainFits, ElsApart, DataFits, Start;
    TargetHas(g, u);
    if u == t {
      assert Node(el, t) in g'.chain by { assert g'.chain[|g.chain|] == Node(el, t); }
    } else {
      PhaseOthers(g, g', t, t, u);
    }
  }

  // A finished thread of the group joins the zombie queue.
  lemma EnqueueKeeps(g: GrpState, t: Tid, ans: T.Answer)
    requires GrpInv(g) && CanStep(g, Go(t, ans)) && PcOf(g, t).BottomQueue?
    ensures GrpInv(GoOn(g, t, ans))
  {
    hide T.ThrInv, ChainFits, ElsApart, PhaseFits, OpFits, DataFits, DataStep, Inv, Start, Private, CvFits, Enqueue;
    var g', el := GoOn(g, t, ans), PcOf(g, t).el;
    EnqueueReady(g, t, ans);
    EnqueueShape(g, t, el, PcOf(g, t).ret);
    EnqueueFits(g, t, ans);
    GroupIdle(g, t, ans);
    SameChain(Enqueue(g, t, el), g');
    NotPrivate(PcOf(g', t), T.PcOf(g'.thr, t));
    ApartKept(g, g', t, t);
    EnqueueKeys(g, t, el);
    DataStepIs(g, g', t, t);
    forall u | u in g'.phase ensures PhaseFits(g', u) {
      EnqueuePhase(g, g', t, el, PcOf(g, t).ret, u);
    }
    DataKeeps(g, g', t, t);
  }

  lemma EnqueueKeys(g: GrpState, t: Tid, el: Addr)
    requires t in g.phase
    ensures Enqueue(g, t, el).phase.Keys == g.phase.Keys
  {
  }

  lemma SameChain(g: GrpState, g': GrpState)
    requires ChainFits(g) && g'.zombieIn == g.zombieIn && g'.zombieOut == g.zombieOut && g'.els == g.els && g'.phase == g.phase
    requires g'.chain == g.chain && g'.came == g.came && g'.taken == g.taken
    ensures ChainFits(g')
  {
    hide ChainOk;
  }

  // The zombie at the front of the queue.
  lemma FrontZombie(g: GrpState, t: Tid)
    requires GrpInv(g) && g.zombieOut.To?
    ensures var d := g.zombieOut.addr;
            && g.chain != [] && g.chain[0].rec == d && d in g.els && g.els[d].Qel?
            && var w := g.els[d].tid;
               && w == g.chain[0].tid && w in g.phase && g.phase[w] == Zombie(d) && w !in g.taken && w !in g.thr.joiner && w in g.thr.low.threads && w in g.came
               && ChainFits(Dequeue(g, t, d))
  {
    hide T.ThrInv, Inv, OpFits, CvFits, DataFits, ElsApart, Tids, LinkFits;
    ChainOwners(g);
    DequeueChain(g, t);
    TargetHas(g, g.chain[0].tid);
  }

  lemma DequeueShape(g: GrpState, t: Tid, ans: T.Answer)
    requires GrpInv(g) && CanStep(g, Go(t, ans)) && PcOf(g, t).JoinTest? && g.zombieOut.To?
    ensures var d := g.zombieOut.addr;
            && d in g.els && g.els[d].Qel? && g.els[d].tid in g.phase && GoOn(g, t, ans) == Calls(Dequeue(g, t, d), t, Release(Own(g.lock)), JoinRead(d))
            && DataStep(g, GoOn(g, t, ans), t, g.els[d].tid) && GoOn(g, t, ans).pc.Keys <= GoOn(g, t, ans).thr.low.threads.Keys
  {
    hide T.ThrInv, ChainFits, ElsApart, PhaseFits, Inv, Start, Holding, CvFits, OpFits;
    GroupIdle(g, t, ans);
    FrontZombie(g, t);
  }

  lemma DequeueFits(g: GrpState, t: Tid, ans: T.Answer)
    requires GrpInv(g) && CanStep(g, Go(t, ans)) && PcOf(g, t).JoinTest? && g.zombieOut.To?
    requires g.zombieOut.addr in g.els && g.els[g.zombieOut.addr].Qel?
    ensures var d := g.zombieOut.addr;
            var g' := Calls(Dequeue(g, t, d), t, Release(Own(g.lock)), JoinRead(d));
            && T.ThrInv(g'.thr) && CvFits(g') && g'.thr.joiner == g.thr.joiner
            && OpFits(PcOf(g', t), T.PcOf(g'.thr, t), g'.thr.low.threads[t], g.lock, g.cv) && DataFits(g', t, PcOf(g', t))
  {
    hide T.ThrInv, ChainFits, ElsApart, PhaseFits, Inv, Start;
    GroupIdle(g, t, ans);
    FrontZombie(g, t);
    CallStep(g, t, Release(Own(g.lock)));
  }

  lemma DequeuePhase(g: GrpState, g': GrpState, t: Tid, d: Addr, u: Tid)
    requires GrpInv(g) && u in g.phase && d in g.els && g.els[d].Qel? && DataStep(g, g', t, g.els[d].tid) && g.zombieOut == To(d)
    requires PcOf(g, t).JoinTest? && g' == Calls(Dequeue(g, t, d), t, Release(Own(g.lock)), JoinRead(d))
    ensures PhaseFits(g', u)
  {
    hide T.ThrInv, Inv, OpFits, CvFits, ChainFits, ElsApart, DataFits, Start;
    FrontZombie(g, t);
    TargetHas(g, u);
    var w := g.els[d].tid;
    if u == w {
      assert w in g'.taken by { assert g'.taken[|g.taken|] == w; }
    } else {
      FrontOff(g, u);
      PhaseOthers(g, g', t, w, u);
    }
  }

  lemma FrontOff(g: GrpState, u: Tid)
    requires g.chain != [] && u != g.chain[0].tid
    ensures forall n: Node :: n in g.chain && n.tid == u ==> n in g.chain[1..]
  {
  }

  // thrgrp_join takes the oldest zombie off the queue.
  lemma DequeueKeeps(g: GrpState, t: Tid, ans: T.Answer)
    requires GrpInv(g) && CanStep(g, Go(t, ans)) && PcOf(g, t).JoinTest? && g.zombieOut.To?
    ensures GrpInv(GoOn(g, t, ans))
  {
    hide T.ThrInv, ChainFits, ElsApart, PhaseFits, OpFits, DataFits, DataStep, Inv, Start, Private, CvFits, Dequeue;
    var g', d := GoOn(g, t, ans), g.zombieOut.addr;
    FrontZombie(g, t);
    DequeueShape(g, t, ans);
    DequeueFits(g, t, ans);
    GroupIdle(g, t, ans);
    SameChain(Dequeue(g, t, d), g');
    NotPrivate(PcOf(g', t), T.PcOf(g'.thr, t));
    ApartKept(g, g', t, g.els[d].tid);
    DataStepIs(g, g', t, g.els[d].tid);
    DataStepKeys(g, g', t, g.els[d].tid);
    forall u | u in g'.phase ensures PhaseFits(g', u) {
      DequeuePhase(g, g', t, d, u);
    }
    DataKeeps(g, g', t, g.els[d].tid);
  }

  lemma DataStepKeys(g: GrpState, g': GrpState, t: Tid, w: Tid)
    requires DataStep(g, g', t, w)
    ensures g'.phase.Keys == g.phase.Keys
  {
  }

  // What thrgrp_join reads from the element that it took off.
  lemma ReadReady(g: GrpState, t: Tid)
    requires GrpInv(g) && t in g.thr.low.threads && PcOf(g, t).JoinRead?
    ensures var d := PcOf(g, t).el;
            && d in g.els && g.els[d].Qel?
            && var w := g.els[d].tid;
               && w in g.phase && g.phase[w] == Off(d, t) && w in g.taken && w in g.came && w !in g.thr.joiner && w in g.thr.low.threads
               && (forall v :: v in g.phase && v != w && HasEl(g.phase[v]) ==> g.phase[v].el != d)
               && (forall x :: x in g.thr.low.threads && Private(PcOf(g, x), T.PcOf(g.thr, x)) ==> PcOf(g, x).el != d)
               && (forall i :: 0 <= i < |g.chain| ==> g.chain[i].rec != d && g.chain[i].tid != w)
  {
    hide T.ThrInv, Inv, OpFits, CvFits, ChainFits;
    OwnFits(g, t);
    ChainOwners(g);
    TargetHas(g, g.els[PcOf(g, t).el].tid);
    forall x | x in g.thr.low.threads && Private(PcOf(g, x), T.PcOf(g.thr, x)) ensures PcOf(g, x).el != PcOf(g, t).el {
      OwnFits(g, x);
    }
  }

  lemma ReadShape(g: GrpState, t: Tid, ans: T.Answer)
    requires GrpInv(g) && CanStep(g, Go(t, ans)) && PcOf(g, t).JoinRead?
    ensures var d, g' := PcOf(g, t).el, GoOn(g, t, ans);
            && d in g.els && g.els[d].Qel? && g'.els == g.els - {d} && g'.phase == g.phase[g.els[d].tid := Reaped(t)] && PcOf(g', t) == JoinCall(g.els[d].tid)
            && g'.chain == g.chain && g'.came == g.came && g'.taken == g.taken && g'.zombieIn == g.zombieIn && g'.zombieOut == g.zombieOut
            && DataStep(g, g', t, g.els[d].tid) && g'.pc.Keys <= g'.thr.low.threads.Keys && g'.thr.joiner == g.thr.joiner
  {
    hide T.ThrInv, ChainFits, ElsApart, PhaseFits, Inv, Start, Holding, CvFits, OpFits;
    GroupIdle(g, t, ans);
    ReadReady(g, t);
  }

  lemma ReadFits(g: GrpState, t: Tid, ans: T.Answer)
    requires GrpInv(g) && CanStep(g, Go(t, ans)) && PcOf(g, t).JoinRead?
    ensures var g' := GoOn(g, t, ans);
            && T.ThrInv(g'.thr) && CvFits(g') && t in g'.thr.low.threads
            && OpFits(PcOf(g', t), T.PcOf(g'.thr, t), g'.thr.low.threads[t], g.lock, g.cv) && DataFits(g', t, PcOf(g', t))
  {
    hide T.ThrInv, ChainFits, ElsApart, PhaseFits, Inv, Start, Under;
    GroupIdle(g, t, ans);
    ReadReady(g, t);
    CallStep(g, t, Heap);
  }

  lemma ReadPhase(g: GrpState, g': GrpState, t: Tid, d: Addr, u: Tid)
    requires GrpInv(g) && u in g.phase && t in g.thr.low.threads && PcOf(g, t) == JoinRead(d) && d in g.els && g.els[d].Qel?
    requires DataStep(g, g', t, g.els[d].tid) && PcOf(g', t) == JoinCall(g.els[d].tid) && g'.phase == g.phase[g.els[d].tid := Reaped(t)]
    requires g'.els == g.els - {d} && g'.chain == g.chain && g'.came == g.came && g'.taken == g.taken && g'.thr.joiner == g.thr.joiner
    ensures PhaseFits(g', u)
  {
    hide T.ThrInv, Inv, OpFits, CvFits, ChainFits, ElsApart, DataFits;
    ReadReady(g, t);
    TargetHas(g, u);
    if u != g.els[d].tid {
      PhaseOthers(g, g', t, g.els[d].tid, u);
    }
  }

  lemma ReadChain(g: GrpState, g': GrpState, d: Addr, w: Tid)
    requires ChainFits(g) && g'.zombieIn == g.zombieIn && g'.zombieOut == g.zombieOut && g'.chain == g.chain && g'.came == g.came && g'.taken == g.taken
    requires g'.els == g.els - {d} && w in g.phase && g'.phase.Keys == g.phase.Keys && forall v :: v in g.phase && v != w ==> g'.phase[v] == g.phase[v]
    requires forall i :: 0 <= i < |g.chain| ==> g.chain[i].rec != d && g.chain[i].tid != w
    ensures ChainFits(g')
  {
    forall i | 0 <= i < |g.chain| ensures LinkFits(g'.els, g'.phase, g'.chain, i) {
      assert LinkFits(g.els, g.phase, g.chain, i);
    }
  }

  // thrgrp_join notes the zombie's id before it frees the element.
  lemma ReadKeeps(g: GrpState, t: Tid, ans: T.Answer)
    requires GrpInv(g) && CanStep(g, Go(t, ans)) && PcOf(g, t).JoinRead?
    ensures GrpInv(GoOn(g, t, ans))
  {
    hide T.ThrInv, ChainFits, ElsApart, PhaseFits, OpFits, DataFits, DataStep, Inv, Start, Private, CvFits, GoOn;
    var g', d := GoOn(g, t, ans), PcOf(g, t).el;
    GroupIdle(g, t, ans);
    ReadReady(g, t);
    ReadShape(g, t, ans);
    ReadFits(g, t, ans);
    ReadChain(g, g', d, g.els[d].tid);
    NotPrivate(PcOf(g', t), T.PcOf(g'.thr, t));
    ApartKept(g, g', t, g.els[d].tid);
    DataStepIs(g, g', t, g.els[d].tid);
    forall u | u in g'.phase ensures PhaseFits(g', u) {
      ReadPhase(g, g', t, d, u);
    }
    DataKeeps(g, g', t, g.els[d].tid);
  }

  // The thread that thrgrp_join goes on to join has never been joined: the thread library's demand
  // of one joiner is met.
  lemma ThrJoins(g: GrpState, t: Tid, ans: T.Answer)
    requires GrpInv(g) && CanStep(g, Go(t, ans)) && PcOf(g, t).JoinCall?
    ensures T.CanStep(g.thr, T.Join(t, PcOf(g, t).tid)) && T.After(g.thr, T.Join(t, PcOf(g, t).tid)) == GoOn(g, t, ans).thr
    ensures T.ThrInv(GoOn(g, t, ans).thr)
    ensures PcOf(g, t).tid in g.phase && g.phase[PcOf(g, t).tid] == Reaped(t) && PcOf(g, t).tid !in g.thr.joiner && PcOf(g, t).tid in g.thr.low.threads
  {
    hide T.ThrInv, ChainFits, ElsApart, Inv, Start, Holding;
    GroupIdle(g, t, ans);
    TargetHas(g, PcOf(g, t).tid);
    ListNext(g, t);
    T.ThrStepKeeps(g.thr, T.Join(t, PcOf(g, t).tid));
  }

  lemma JoinCallShape(g: GrpState, t: Tid, ans: T.Answer)
    requires GrpInv(g) && CanStep(g, Go(t, ans)) && PcOf(g, t).JoinCall?
    requires T.CanStep(g.thr, T.Join(t, PcOf(g, t).tid)) && T.After(g.thr, T.Join(t, PcOf(g, t).tid)) == GoOn(g, t, ans).thr
    requires PcOf(g, t).tid in g.phase && g.phase[PcOf(g, t).tid] == Reaped(t)
    ensures var g' := GoOn(g, t, ans);
            DataStep(g, g', t, PcOf(g, t).tid) && g'.pc.Keys <= g'.thr.low.threads.Keys && g'.thr.joiner == g.thr.joiner[PcOf(g, t).tid := t]
  {
    hide T.ThrInv, ChainFits, ElsApart, PhaseFits, Inv, Start, OpFits, CvFits, T.CanStep, T.After, T.Goes;
    GroupIdle(g, t, ans);
    T.EnterAlone(g.thr, T.Join(t, PcOf(g, t).tid), t);
  }

  lemma JoinCallFits(g: GrpState, t: Tid, ans: T.Answer)
    requires GrpInv(g) && CanStep(g, Go(t, ans)) && PcOf(g, t).JoinCall?
    requires T.CanStep(g.thr, T.Join(t, PcOf(g, t).tid)) && T.After(g.thr, T.Join(t, PcOf(g, t).tid)) == GoOn(g, t, ans).thr
    requires PcOf(g, t).tid in g.phase && g.phase[PcOf(g, t).tid] == Reaped(t)
    ensures var g' := GoOn(g, t, ans);
            && CvFits(g') && t in g'.thr.low.threads
            && OpFits(PcOf(g', t), T.PcOf(g'.thr, t), g'.thr.low.threads[t], g.lock, g.cv) && DataFits(g', t, PcOf(g', t))
  {
    hide T.ThrInv, ChainFits, ElsApart, PhaseFits, Inv, Start, Holding, T.CanStep, T.After;
    GroupIdle(g, t, ans);
    T.EnterAlone(g.thr, T.Join(t, PcOf(g, t).tid), t);
  }

  lemma JoinCallPhase(g: GrpState, g': GrpState, t: Tid, u: Tid, v: Tid)
    requires GrpInv(g) && v in g.phase && t in g.thr.low.threads && PcOf(g, t) == JoinCall(u) && DataStep(g, g', t, u)
    requires u in g.phase && g.phase[u] == Reaped(t) && g'.phase == g.phase && g'.thr.joiner == g.thr.joiner[u := t]
    requires g'.els == g.els && g'.chain == g.chain && g'.came == g.came && g'.taken == g.taken
    ensures PhaseFits(g', v)
  {
    hide T.ThrInv, Inv, OpFits, CvFits, ChainFits, ElsApart, DataFits;
    TargetHas(g, v);
  }

  lemma JoinCallKeeps(g: GrpState, t: Tid, ans: T.Answer)
    requires GrpInv(g) && CanStep(g, Go(t, ans)) && PcOf(g, t).JoinCall?
    ensures GrpInv(GoOn(g, t, ans))
  {
    hide T.ThrInv, ChainFits, ElsApart, PhaseFits, OpFits, DataFits, DataStep, Inv, Start, Private, CvFits, T.Goes;
    var g', u := GoOn(g, t, ans), PcOf(g, t).tid;
    ThrJoins(g, t, ans);
    JoinCallShape(g, t, ans);
    JoinCallFits(g, t, ans);
    GroupIdle(g, t, ans);
    SameChain(g, g');
    JoiningNotPrivate(PcOf(g', t), T.PcOf(g'.thr, t));
    ApartKept(g, g', t, u);
    DataStepIs(g, g', t, u);
    forall v | v in g'.phase ensures PhaseFits(g', v) {
      JoinCallPhase(g, g', t, u, v);
    }
    DataKeeps(g, g', t, u);
  }

  lemma JoiningNotPrivate(p: GrpPc, q: T.ThrPc)
    ensures p.Joining? ==> !Private(p, q)
  {
  }

  lemma GrpStepKeeps(g: GrpState, st: Step)
    requires GrpInv(g) && CanStep(g, st)
    ensures GrpInv(After(g, st))
  {
    hide GrpInv, CanStep, GoOn, Lowers;
    match st
    case Lower(x) => LowerKeeps(g, x);
    case Create(_) => EntersGroup(g, st);
    case Join(_) => EntersGroup(g, st);
    case Return(t, ret) => ReturnsToBottom(g, t, ret);
    case Go(t, ans) =>
      var p := PcOf(g, t);
      GoPlaces(g, t, ans);
      if p.CreateEnd? || (p.CreateAlloc? && !ans.ok) { FreeMoves(g, t, ans); }
      else if p.CreateAlloc? { AllocKeeps(g, t, ans); }
      else if p.CreateUndo? { UndoKeeps(g, t, ans); }
      else if p.BottomStart? { StartKeeps(g, t, ans); }
      else if p.BottomQueue? { EnqueueKeeps(g, t, ans); }
      else if p.BottomUnlock? { UnlockMoves(g, t, ans); }
      else if p.BottomExit? { ExitMoves(g, t, ans); }
      else if p.JoinTest? { if g.zombieOut.Null? { WaitMoves(g, t, ans); } else { DequeueKeeps(g, t, ans); } }
      else if p.JoinRead? { ReadKeeps(g, t, ans); }
      else { JoinCallKeeps(g, t, ans); }
  }

  lemma GoPlaces(g: GrpState, t: Tid, ans: T.Answer)
    requires CanStep(g, Go(t, ans))
    ensures !PcOf(g, t).Free? && !PcOf(g, t).Broken? && !PcOf(g, t).Creating? && !PcOf(g, t).Joining? && !PcOf(g, t).Exiting?
  {
  }

  // ------------------------------------------------------------------ what holds in every run

  // thrgrp_init_group, at any time in a run of the thread library, with a mutex and a condition variable
  // that nobody uses yet.
  ghost predicate Starts(g: GrpState, zs: seq<T.ThrState>, sts: seq<T.Step>) {
    && T.IsThrRun(zs, sts) && |zs| > 0 && T.CanStep(zs[|zs| - 1], T.Other(Init(g.cv)))
    && g.thr == T.After(zs[|zs| - 1], T.Other(Init(g.cv))) && g.lock != T.LIST_ID
    && (forall t :: t in g.thr.low.threads ==> !Uses(g.thr.low.threads[t].op, g.lock, g.cv) && Own(g.lock) !in g.thr.low.threads[t].held)
    && g == GrpState(g.thr, g.lock, g.cv, Null, Null, map[], map[], map[], [], [], [])
  }

  lemma StartsInv(g: GrpState, zs: seq<T.ThrState>, sts: seq<T.Step>)
    requires Starts(g, zs, sts)
    ensures GrpInv(g)
  {
    hide T.ThrInv, T.IsThrRun;
    var z := zs[|zs| - 1];
    T.ThrRunInv(zs, sts, |zs| - 1);
    T.ThrStepKeeps(z, T.Other(Init(g.cv)));
    T.KeysKept(g.thr);
  }

  ghost predicate IsGrpRun(gs: seq<GrpState>, sts: seq<Step>) {
    && |gs| == |sts| + 1 && (exists zs, xs :: Starts(gs[0], zs, xs))
    && (forall i :: 0 <= i < |sts| ==> CanStep(gs[i], sts[i]) && gs[i + 1] == After(gs[i], sts[i]))
  }

  lemma {:induction false} GrpRunInv(gs: seq<GrpState>, sts: seq<Step>, k: nat)
    requires IsGrpRun(gs, sts) && k < |gs|
    ensures GrpInv(gs[k])
  {
    hide GrpInv, After, CanStep, Starts;
    if k == 0 {
      var zs, xs :| Starts(gs[0], zs, xs);
      StartsInv(gs[0], zs, xs);
    } else {
      GrpRunInv(gs, sts, k - 1);
      assert CanStep(gs[k - 1], sts[k - 1]) && gs[k - 1 + 1] == After(gs[k - 1], sts[k - 1]);
      GrpStepKeeps(gs[k - 1], sts[k - 1]);
    }
  }

  ghost function RunningThreads(g: GrpState): set<Tid> { set u | u in g.phase && g.phase[u].Running? }

  lemma {:induction false} DistinctSize(s: seq<Tid>)
    requires forall i, j :: 0 <= i < j < |s| ==> s[i] != s[j]
    ensures |set u | u in s| == |s|
  {
    if s == [] {
      assert (set u | u in s) == {};
    } else {
      DistinctSize(s[1..]);
      assert (set u | u in s) == {s[0]} + (set u | u in s[1..]);
    }
  }

  // Created = running + zombies + joined: every thread of the group runs, is in the queue, or was taken
  // off it, and only one of these.
  lemma Accounts(gs: seq<GrpState>, sts: seq<Step>, k: nat)
    requires IsGrpRun(gs, sts) && k < |gs|
    ensures |gs[k].phase| == |RunningThreads(gs[k])| + |gs[k].chain| + |gs[k].taken|
    ensures gs[k].came == gs[k].taken + Tids(gs[k].chain)
    ensures forall u :: u in gs[k].phase ==> (u in RunningThreads(gs[k]) <==> u !in gs[k].came)
    ensures forall i, j :: 0 <= i < j < |gs[k].came| ==> gs[k].came[i] != gs[k].came[j]
  {
    hide T.ThrInv, IsGrpRun, OpFits, DataFits, CvFits, ElsApart, LinkFits, Tids;
    GrpRunInv(gs, sts, k);
    var g := gs[k];
    forall u | u in g.phase ensures u in RunningThreads(g) <==> u !in g.came { TargetHas(g, u); }
    var done := set u | u in g.came;
    DistinctSize(g.came);
    assert g.phase.Keys == RunningThreads(g) + done;
    assert RunningThreads(g) !! done;
  }

  // Each thread is taken off the queue at most once, and in the order in which the threads finished.
  lemma TakenOnce(gs: seq<GrpState>, sts: seq<Step>, k: nat)
    requires IsGrpRun(gs, sts) && k < |gs|
    ensures gs[k].taken <= gs[k].came
    ensures forall i, j :: 0 <= i < j < |gs[k].taken| ==> gs[k].taken[i] != gs[k].taken[j]
  {
    hide IsGrpRun;
    Accounts(gs, sts, k);
    var g := gs[k];
    forall i, j | 0 <= i < j < |g.taken| ensures g.taken[i] != g.taken[j] {
      assert g.taken[i] == g.came[i] && g.taken[j] == g.came[j];
    }
  }

  // zombie_in and zombie_out are both null, or delimit a chain whose elements point each to the next.
  lemma QueueIsChain(gs: seq<GrpState>, sts: seq<Step>, k: nat)
    requires IsGrpRun(gs, sts) && k < |gs|
    ensures gs[k].zombieIn.Null? <==> gs[k].zombieOut.Null?
    ensures gs[k].zombieOut == if gs[k].chain == [] then Null else To(gs[k].chain[0].rec)
    ensures gs[k].zombieIn == if gs[k].chain == [] then Null else To(gs[k].chain[|gs[k].chain| - 1].rec)
    ensures forall i :: 0 <= i < |gs[k].chain| ==> LinkFits(gs[k].els, gs[k].phase, gs[k].chain, i)
  {
    hide T.ThrInv, IsGrpRun, OpFits, DataFits, CvFits, ElsApart, PhaseFits, Tids, LinkFits;
    GrpRunInv(gs, sts, k);
  }

  // No element is touched after it was freed.
  lemma NothingBreaks(gs: seq<GrpState>, sts: seq<Step>, k: nat, t: Tid)
    requires IsGrpRun(gs, sts) && k < |gs| && t in gs[k].thr.low.threads
    ensures !PcOf(gs[k], t).Broken? && !T.PcOf(gs[k].thr, t).Broken?
  {
    hide GrpInv, IsGrpRun, T.ThrInv;
    GrpRunInv(gs, sts, k);
    LowInv(gs[k]);
    T.NamedHere(gs[k].thr, t);
    NotBroken(gs[k], t);
  }

  lemma NotBroken(g: GrpState, t: Tid)
    requires GrpInv(g) && t in g.thr.low.threads
    ensures !PcOf(g, t).Broken?
  {
    hide T.ThrInv, PhaseFits, ChainFits, ElsApart, DataFits, CvFits;
    OwnFits(g, t);
  }

  // thrgrp_join calls thr_join for a thread that exists and that nobody has called it for: a client that
  // joins the threads of groups only through their groups meets the thread library's demand.
  lemma OneJoiner(gs: seq<GrpState>, sts: seq<Step>, k: nat, t: Tid, ans: T.Answer)
    requires IsGrpRun(gs, sts) && k < |gs| && CanStep(gs[k], Go(t, ans)) && PcOf(gs[k], t).JoinCall?
    ensures T.CanStep(gs[k].thr, T.Join(t, PcOf(gs[k], t).tid)) && GoOn(gs[k], t, ans).thr == T.After(gs[k].thr, T.Join(t, PcOf(gs[k], t).tid))
    ensures PcOf(gs[k], t).tid in gs[k].taken && PcOf(gs[k], t).tid !in gs[k].thr.joiner
  {
    hide GrpInv, IsGrpRun, T.ThrInv, T.CanStep, T.After, GoOn;
    GrpRunInv(gs, sts, k);
    ThrJoins(gs[k], t, ans);
    TargetHas(gs[k], PcOf(gs[k], t).tid);
  }

  // ------------------------------------------------------------------ the thread library below

  // The step that the thread library makes, if it makes one.
  ghost predicate Makes(g: GrpState, st: Step, ys: seq<T.Step>)
    requires CanStep(g, st)
  {
    if ys == [] then After(g, st).thr == g.thr
    else |ys| == 1 && T.CanStep(g.thr, ys[0]) && After(g, st).thr == T.After(g.thr, ys[0])
  }

  // A step that only calls the mutex and condition variable library.
  lemma CallMakes(g: GrpState, st: Step, t: Tid, op: Op)
    requires GrpInv(g) && CanStep(g, st) && t in g.thr.low.threads && T.PcOf(g.thr, t).Away? && MayCall(g.thr.low, t, op)
    requires op.Acquire? || op.Release? || op.Wait? ==> op.mutex == Own(g.lock)
    requires T.OnCond(op) ==> op.cond == g.cv
    requires After(g, st).thr == g.thr.(low := Called(g.thr.low, t, op))
    ensures Makes(g, st, [T.Other(Call(t, op))])
  {
    hide GrpInv, CanStep, After, MayCall, T.CanStep, T.After;
    CallStep(g, t, op);
  }

  lemma EntersMakes(g: GrpState, st: Step) returns (ys: seq<T.Step>)
    requires GrpInv(g) && CanStep(g, st) && (st.Create? || st.Join? || st.Return?)
    ensures Makes(g, st, ys)
  {
    hide GrpInv, MayCall, Makes, Outside;
    var op := if st.Create? then Heap else Acquire(Own(g.lock));
    MayAllocate(g, st);
    CallMakes(g, st, st.t, op);
    ys := [T.Other(Call(st.t, op))];
  }

  lemma MayAllocate(g: GrpState, st: Step)
    requires CanStep(g, st) && (st.Create? || st.Join? || st.Return?)
    ensures MayCall(g.thr.low, st.t, if st.Create? then Heap else Acquire(Own(g.lock)))
  {
  }

  // What a step of this library calls below.
  function CallOf(p: GrpPc, lock: int, cv: Cond, empty: bool): Op {
    match p
    case CreateUndo(_) => Heap
    case BottomQueue(_, _) => Signal(cv, false)
    case BottomUnlock(_) => Release(Own(lock))
    case JoinTest => if empty then Wait(cv, Own(lock)) else Release(Own(lock))
    case JoinRead(_) => Heap
    case _ => Idle
  }

  lemma GoCalls(g: GrpState, t: Tid, ans: T.Answer)
    requires GrpInv(g) && CanStep(g, Go(t, ans)) && !CallOf(PcOf(g, t), g.lock, g.cv, g.zombieOut.Null?).Idle?
    ensures var op := CallOf(PcOf(g, t), g.lock, g.cv, g.zombieOut.Null?);
            GoOn(g, t, ans).thr == g.thr.(low := Called(g.thr.low, t, op))
  {
    hide GrpInv, OpFits, DataFits, Enqueue, Dequeue;
    GroupIdle(g, t, ans);
    var p := PcOf(g, t);
    if p.BottomQueue? {
      EnqueueReady(g, t, ans);
      EnqueueLow(g, t, p.el);
    } else if p.JoinTest? && g.zombieOut.To? {
      DequeueShape(g, t, ans);
      DequeueLow(g, t, g.zombieOut.addr);
    } else if p.JoinRead? {
      ReadReady(g, t);
    }
  }

  lemma EnqueueLow(g: GrpState, t: Tid, el: Addr)
    ensures Enqueue(g, t, el).thr == g.thr && Enqueue(g, t, el).pc == g.pc
  {
  }

  lemma DequeueLow(g: GrpState, t: Tid, el: Addr)
    requires el in g.els && g.els[el].Qel?
    ensures Dequeue(g, t, el).thr == g.thr && Dequeue(g, t, el).pc == g.pc
  {
  }

  lemma MayGo(g: GrpState, t: Tid, ans: T.Answer)
    requires GrpInv(g) && CanStep(g, Go(t, ans)) && !CallOf(PcOf(g, t), g.lock, g.cv, g.zombieOut.Null?).Idle?
    ensures MayCall(g.thr.low, t, CallOf(PcOf(g, t), g.lock, g.cv, g.zombieOut.Null?))
  {
    hide GrpInv, DataFits, Usable, Inv;
    GroupIdle(g, t, ans);
    CvUsable(g);
  }

  lemma GoMakes(g: GrpState, t: Tid, ans: T.Answer) returns (ys: seq<T.Step>)
    requires GrpInv(g) && CanStep(g, Go(t, ans))
    ensures Makes(g, Go(t, ans), ys)
  {
    hide GrpInv, GoOn, CanStep, MayCall, T.CanStep, T.After;
    var p, op := PcOf(g, t), CallOf(PcOf(g, t), g.lock, g.cv, g.zombieOut.Null?);
    GoPlaces(g, t, ans);
    GroupIdle(g, t, ans);
    if !op.Idle? {
      GoCalls(g, t, ans);
      MayGo(g, t, ans);
      CallMakes(g, Go(t, ans), t, op);
      ys := [T.Other(Call(t, op))];
    } else if p.CreateAlloc? && ans.ok {
      ThrCreates(g, t, ans);
      ys := [T.Create(t, false)];
    } else if p.BottomExit? {
      ExitMoves(g, t, ans);
      ExitCalls(g, t, ans);
      ys := [T.Exit(t, p.ret)];
    } else if p.JoinCall? {
      ThrJoins(g, t, ans);
      ys := [T.Join(t, p.tid)];
    } else {
      StaysLow(g, t, ans);
      ys := [];
    }
  }

  lemma ExitCalls(g: GrpState, t: Tid, ans: T.Answer)
    requires CanStep(g, Go(t, ans)) && PcOf(g, t).BottomExit? && T.CanStep(g.thr, T.Exit(t, PcOf(g, t).ret))
    ensures GoOn(g, t, ans).thr == T.After(g.thr, T.Exit(t, PcOf(g, t).ret))
  {
    hide T.Goes, MayCall, Ready;
  }

  lemma StaysLow(g: GrpState, t: Tid, ans: T.Answer)
    requires CanStep(g, Go(t, ans)) && (PcOf(g, t).CreateEnd? || PcOf(g, t).BottomStart? || (PcOf(g, t).CreateAlloc? && !ans.ok))
    ensures GoOn(g, t, ans).thr == g.thr
  {
  }

  // Every step is at most one step of the thread library.
  lemma StepMakes(g: GrpState, st: Step) returns (ys: seq<T.Step>)
    requires GrpInv(g) && CanStep(g, st)
    ensures Makes(g, st, ys)
  {
    hide GrpInv, CanStep, GoOn, Makes;
    match st
    case Lower(x) => { LowerMakes(g, x); ys := [x]; }
    case Go(t, ans) => ys := GoMakes(g, t, ans);
    case _ => ys := EntersMakes(g, st);
  }

  lemma LowerMakes(g: GrpState, x: T.Step)
    requires CanStep(g, Lower(x))
    ensures Makes(g, Lower(x), [x])
  {
    hide Outside, T.CanStep, T.After;
  }

  lemma ThrRunLonger(zs: seq<T.ThrState>, xs: seq<T.Step>, x: T.Step)
    requires T.IsThrRun(zs, xs) && T.CanStep(zs[|zs| - 1], x)
    ensures T.IsThrRun(zs + [T.After(zs[|zs| - 1], x)], xs + [x])
  {
    hide T.CanStep, T.After, T.Started;
    var zs', xs' := zs + [T.After(zs[|zs| - 1], x)], xs + [x];
    forall i | 0 <= i < |xs'| ensures T.CanStep(zs'[i], xs'[i]) && zs'[i + 1] == T.After(zs'[i], xs'[i]) {
      if i < |xs| { assert T.CanStep(zs[i], xs[i]) && zs[i + 1] == T.After(zs[i], xs[i]); }
    }
    assert zs'[0] == zs[0];
  }

  // Every run with groups is a run of the thread library that goes on from where the group was set up,
  // and so what holds in every run of it, or of the machine below it, holds here.
  lemma {:induction false} Projects(gs: seq<GrpState>, sts: seq<Step>, k: nat, zs0: seq<T.ThrState>, xs0: seq<T.Step>)
    returns (zs: seq<T.ThrState>, xs: seq<T.Step>)
    requires IsGrpRun(gs, sts) && k < |gs| && Starts(gs[0], zs0, xs0)
    ensures T.IsThrRun(zs, xs) && zs[|zs| - 1] == gs[k].thr && zs0 <= zs && xs0 <= xs
  {
    hide GrpInv, After, CanStep, T.CanStep, T.After, T.IsThrRun, Makes;
    if k == 0 {
      ThrRunLonger(zs0, xs0, T.Other(Init(gs[0].cv)));
      zs, xs := zs0 + [gs[0].thr], xs0 + [T.Other(Init(gs[0].cv))];
    } else {
      GrpRunInv(gs, sts, k - 1);
      assert CanStep(gs[k - 1], sts[k - 1]) && gs[k - 1 + 1] == After(gs[k - 1], sts[k - 1]);
      zs, xs := Projects(gs, sts, k - 1, zs0, xs0);
      var ys := StepMakes(gs[k - 1], sts[k - 1]);
      zs, xs := Longer(gs[k - 1], sts[k - 1], ys, zs, xs);
    }
  }

  lemma Longer(g: GrpState, st: Step, ys: seq<T.Step>, zs0: seq<T.ThrState>, xs0: seq<T.Step>) returns (zs: seq<T.ThrState>, xs: seq<T.Step>)
    requires CanStep(g, st) && Makes(g, st, ys) && T.IsThrRun(zs0, xs0) && zs0[|zs0| - 1] == g.thr
    ensures T.IsThrRun(zs, xs) && zs[|zs| - 1] == After(g, st).thr && zs0 <= zs && xs0 <= xs
  {
    hide CanStep, After, T.CanStep, T.After, T.Started;
    zs, xs := zs0, xs0;
    if ys != [] {
      ThrRunLonger(zs0, xs0, ys[0]);
      zs, xs := zs0 + [After(g, st).thr], xs0 + [ys[0]];
    }
  }

  // ------------------------------------------------------------------ the status that is handed on

  // What the functions of the group's threads have returned, up to a step of the run.
  ghost function Returned(sts: seq<Step>): map<Tid, int> {
    if sts == [] then map[] else Record(Returned(sts[..|sts| - 1]), sts[|sts| - 1])
  }

  ghost function Record(ret: map<Tid, int>, st: Step): map<Tid, int> { if st.Return? then ret[st.t := st.ret] else ret }

  ghost predicate Says(m: map<Tid, int>, t: Tid, x: int) { t in m && m[t] == x }

  // In the second half of thr_join for u, from its return on only if it succeeds.
  predicate Collected(q: T.ThrPc) { q.JoinRemove? || q.JoinFree? || q.JoinDone? || (q.Leave? && q.result >= 0) }

  predicate Targets(q: T.ThrPc, u: Tid) {
    q.JoinEnter? || q.JoinTest? || q.JoinSleep? || q.JoinCollect? || q.JoinRemove? ==> q.tid == u
  }

  // The status travels with a thread from its function's return to thr_exit, and from there to its joiner.
  ghost predicate Travels(p: GrpPc, q: T.ThrPc, t: Tid, ret: map<Tid, int>, passed: map<Tid, int>, delivered: map<Tid, int>) {
    && (p.BottomQueue? || p.BottomUnlock? || p.BottomExit? ==> Says(ret, t, p.ret))
    && (p.Exiting? && q.ExitEnter? ==> Says(ret, t, q.status))
    && (p.Exiting? && t in passed ==> Says(ret, t, passed[t]))
    && (p.Joining? ==> Targets(q, p.tid) && (Collected(q) ==> p.tid in delivered))
  }

  ghost predicate TravelsAt(g: GrpState, ret: map<Tid, int>, t: Tid) {
    Travels(PcOf(g, t), T.PcOf(g.thr, t), t, ret, g.thr.passed, g.thr.delivered)
  }

  ghost predicate Reported(g: GrpState, ret: map<Tid, int>) { forall t :: t in g.thr.low.threads ==> TravelsAt(g, ret, t) }

  // The histories of the thread library only grow.
  ghost predicate Grown(z: T.ThrState, z': T.ThrState) {
    && (forall u :: u in z.passed ==> Says(z'.passed, u, z.passed[u]))
    && (forall u :: u in z.delivered ==> Says(z'.delivered, u, z.delivered[u]))
  }

  lemma ThrGrows(z: T.ThrState, st: T.Step)
    requires T.ThrInv(z) && T.CanStep(z, st)
    ensures Grown(z, T.After(z, st))
  {
    hide T.ThrInv, T.CanStep, T.After;
    forall u ensures u in z.passed ==> Says(T.After(z, st).passed, u, z.passed[u])
             ensures u in z.delivered ==> Says(T.After(z, st).delivered, u, z.delivered[u])
    {
      T.HistoryKept(z, st, u);
    }
  }

  lemma Grows(g: GrpState, st: Step)
    requires GrpInv(g) && CanStep(g, st)
    ensures Grown(g.thr, After(g, st).thr)
  {
    hide GrpInv, CanStep, After, T.CanStep, T.After;
    var ys := StepMakes(g, st);
    if ys != [] {
      LowInvariant(g);
      ThrGrows(g.thr, ys[0]);
    }
  }

  lemma LowInvariant(g: GrpState)
    requires GrpInv(g)
    ensures T.ThrInv(g.thr)
  {
  }

  // Whether a thread has passed its status can be seen from where it stands.
  lemma PassedWhere(g: GrpState, t: Tid)
    requires GrpInv(g) && t in g.thr.low.threads
    ensures t in g.thr.passed <==> T.PcOf(g.thr, t).ExitUnlock? || T.PcOf(g.thr, t).ExitVanish? || T.PcOf(g.thr, t).Gone?
  {
    hide T.ThrInv, OpFits, DataFits, PhaseFits, ChainFits, ElsApart, CvFits;
    T.OwnFits(g.thr, t);
  }

  // The thread that makes a step; setting up a condition variable is nobody's.
  predicate MadeBy(st: Step, t: Tid) {
    match st
    case Lower(x) =>
      (match x
       case Other(y) => y.Call? && y.t == t
       case _ => x.t == t)
    case _ => st.t == t
  }

  ghost predicate Stands(g: GrpState, g': GrpState, x: Tid) {
    x in g'.thr.low.threads && PcOf(g', x) == PcOf(g, x) && T.PcOf(g'.thr, x) == T.PcOf(g.thr, x)
  }

  // A step of the thread library other than going on in it.
  lemma LowerStands(g: GrpState, y: T.Step, x: Tid)
    requires GrpInv(g) && CanStep(g, Lower(y)) && !y.Go? && x in g.thr.low.threads && (!MadeBy(Lower(y), x) || y.Inner? || y.Other?)
    ensures Stands(g, Lowers(g, y), x) && Lowers(g, y).thr.low.threads.Keys == g.thr.low.threads.Keys
  {
    hide *;
    LowerOnly(g, y);
    if y.Inner? { InnerStands(g, y.t, y.a); }
    else if y.Other? { OtherStands(g, y.x); }
    else { EnterStands(g, y, x); }
    SameStands(g, Lowers(g, y), x);
  }

  lemma LowerOnly(g: GrpState, y: T.Step)
    requires CanStep(g, Lower(y)) && !y.Go?
    ensures T.CanStep(g.thr, y) && Lowers(g, y) == g.(thr := T.After(g.thr, y))
  {
    hide T.CanStep, T.After, Outside;
  }

  lemma SameStands(g: GrpState, g': GrpState, x: Tid)
    requires x in g.thr.low.threads && g' == g.(thr := g'.thr) && T.PcOf(g'.thr, x) == T.PcOf(g.thr, x)
    requires g'.thr.low.threads.Keys == g.thr.low.threads.Keys
    ensures Stands(g, g', x)
  {
  }

  lemma InnerStands(g: GrpState, t: Tid, a: Addr)
    requires GrpInv(g) && T.CanStep(g.thr, T.Inner(t, a))
    ensures var z' := T.After(g.thr, T.Inner(t, a));
            z'.low.threads.Keys == g.thr.low.threads.Keys && forall x :: T.PcOf(z', x) == T.PcOf(g.thr, x)
  {
    hide GrpInv, Next, Inv;
    LowInv(g);
    OneMoves(g.thr.low, t, a);
  }

  lemma OtherStands(g: GrpState, y: Label)
    requires T.CanStep(g.thr, T.Other(y))
    ensures var z' := T.After(g.thr, T.Other(y));
            z'.low.threads.Keys == g.thr.low.threads.Keys && forall x :: T.PcOf(z', x) == T.PcOf(g.thr, x)
  {
    hide Start;
  }

  lemma EnterStands(g: GrpState, y: T.Step, x: Tid)
    requires T.CanStep(g.thr, y) && (y.Create? || y.Join? || y.Exit?) && !MadeBy(Lower(y), x)
    ensures T.After(g.thr, y).low.threads.Keys == g.thr.low.threads.Keys && T.PcOf(T.After(g.thr, y), x) == T.PcOf(g.thr, x)
  {
    hide T.CanStep, T.After, Start;
    T.EnterAlone(g.thr, y, y.t);
  }

  lemma LibraryStands(g: GrpState, t: Tid, ans: T.Answer, x: Tid)
    requires GrpInv(g) && CanStep(g, Lower(T.Go(t, ans))) && x in g.thr.low.threads && x != t
    ensures Stands(g, Lowers(g, T.Go(t, ans)), x)
  {
    hide GrpInv, T.CanStep, T.GoOn, T.After, Landing, Lowers;
    T.AfterGo(g.thr, t, ans);
    if T.PcOf(g.thr, t).CreateFork? && ans.ok {
      OutsideGo(g, t, ans);
      ForkShape(g, t, ans);
    } else {
      LowInvariant(g);
      LowersGo(g, t, ans);
      T.GoAlone(g.thr, t, ans);
    }
  }

  lemma OutsideGo(g: GrpState, t: Tid, ans: T.Answer)
    requires CanStep(g, Lower(T.Go(t, ans)))
    ensures Outside(g, T.Go(t, ans)) && T.CanStep(g.thr, T.Go(t, ans))
  {
  }

  // What going on in this library changes besides the data.
  ghost predicate OwnMove(g: GrpState, g': GrpState, t: Tid) {
    && t in g'.pc && g'.pc == g.pc[t := g'.pc[t]] && g'.thr.low.threads.Keys == g.thr.low.threads.Keys
    && g'.thr.passed == g.thr.passed && g'.thr.delivered == g.thr.delivered
    && (forall x :: x != t ==> T.PcOf(g'.thr, x) == T.PcOf(g.thr, x))
  }

  lemma GoStands(g: GrpState, t: Tid, ans: T.Answer)
    requires CanStep(g, Go(t, ans))
    ensures OwnMove(g, GoOn(g, t, ans), t)
  {
    hide *;
    GoPlaces(g, t, ans);
    CreateOwn(g, t, ans);
    BottomOwn(g, t, ans);
    JoinOwn(g, t, ans);
    AllPlaces(PcOf(g, t));
  }

  lemma AllPlaces(p: GrpPc)
    requires !p.Free? && !p.Broken? && !p.Creating? && !p.Joining? && !p.Exiting?
    ensures p.CreateAlloc? || p.CreateUndo? || p.CreateEnd? || p.BottomStart? || p.BottomQueue? || p.BottomUnlock? || p.BottomExit?
            || p.JoinTest? || p.JoinRead? || p.JoinCall?
  {
  }

  lemma CreateOwn(g: GrpState, t: Tid, ans: T.Answer)
    requires CanStep(g, Go(t, ans))
    ensures PcOf(g, t).CreateAlloc? || PcOf(g, t).CreateUndo? || PcOf(g, t).CreateEnd? || PcOf(g, t).BottomStart? ==> OwnMove(g, GoOn(g, t, ans), t)
  {
    hide T.Goes, Called;
  }

  lemma BottomOwn(g: GrpState, t: Tid, ans: T.Answer)
    requires CanStep(g, Go(t, ans))
    ensures PcOf(g, t).BottomQueue? || PcOf(g, t).BottomUnlock? || PcOf(g, t).BottomExit? ==> OwnMove(g, GoOn(g, t, ans), t)
  {
    hide T.Goes, Called, Enqueue;
    if PcOf(g, t).BottomQueue? { EnqueueLow(g, t, PcOf(g, t).el); }
  }

  lemma JoinOwn(g: GrpState, t: Tid, ans: T.Answer)
    requires CanStep(g, Go(t, ans))
    ensures PcOf(g, t).JoinTest? || PcOf(g, t).JoinRead? || PcOf(g, t).JoinCall? ==> OwnMove(g, GoOn(g, t, ans), t)
  {
    hide T.Goes, Called, Dequeue;
    if PcOf(g, t).JoinTest? && g.zombieOut.To? && g.zombieOut.addr in g.els && g.els[g.zombieOut.addr].Qel? { DequeueLow(g, t, g.zombieOut.addr); }
  }

  lemma EntersStands(g: GrpState, st: Step)
    requires CanStep(g, st) && (st.Create? || st.Join? || st.Return?)
    ensures OwnMove(g, After(g, st), st.t)
  {
    hide MayCall, Called;
  }

  lemma OwnMoveStands(g: GrpState, g': GrpState, t: Tid, x: Tid)
    requires OwnMove(g, g', t) && x in g.thr.low.threads && x != t
    ensures Stands(g, g', x)
  {
  }

  // A thread that comes into being starts in client code or in thrgrp_bottom.
  lemma NewStands(g: GrpState, st: Step, x: Tid)
    requires GrpInv(g) && CanStep(g, st) && x in After(g, st).thr.low.threads && x !in g.thr.low.threads
    ensures PcOf(After(g, st), x).Free? || PcOf(After(g, st), x).BottomStart?
  {
    hide GrpInv, T.CanStep, T.GoOn, T.After, Landing, Lowers, GoOn, CanStep, Outside;
    if st.Lower? && st.st.Go? {
      var t, ans := st.st.t, st.st.ans;
      OutsideGo(g, t, ans);
      T.AfterGo(g.thr, t, ans);
      if T.PcOf(g.thr, t).CreateFork? && ans.ok {
        ForkShape(g, t, ans);
      } else {
        LowInvariant(g);
        LowersGo(g, t, ans);
        T.GoAlone(g.thr, t, ans);
      }
    } else {
      SameThreads(g, st, x);
    }
  }

  lemma SameThreads(g: GrpState, st: Step, x: Tid)
    requires GrpInv(g) && CanStep(g, st) && !(st.Lower? && st.st.Go?)
    ensures x in After(g, st).thr.low.threads ==> x in g.thr.low.threads
  {
    hide GrpInv, CanStep, GoOn, Lowers, OwnMove;
    match st
    case Lower(y) => LowerKeys(g, y);
    case Go(t, ans) => { GoStands(g, t, ans); OwnMoveKeys(g, st, t); }
    case _ => { EntersStands(g, st); OwnMoveKeys(g, st, st.t); }
  }

  lemma LowerKeys(g: GrpState, y: T.Step)
    requires GrpInv(g) && CanStep(g, Lower(y)) && !y.Go?
    ensures After(g, Lower(y)).thr.low.threads.Keys == g.thr.low.threads.Keys
  {
    hide GrpInv, CanStep, T.CanStep, T.After, Lowers;
    LowerOnly(g, y);
    if y.Inner? { InnerStands(g, y.t, y.a); }
    else if y.Other? { OtherStands(g, y.x); }
    else { T.EnterAlone(g.thr, y, y.t); }
  }

  lemma OwnMoveKeys(g: GrpState, st: Step, t: Tid)
    requires CanStep(g, st) && OwnMove(g, After(g, st), t)
    ensures After(g, st).thr.low.threads.Keys == g.thr.low.threads.Keys
  {
    hide CanStep, After;
  }

  lemma OthersTravel(g: GrpState, g': GrpState, ret: map<Tid, int>, ret': map<Tid, int>, x: Tid)
    requires GrpInv(g) && GrpInv(g') && x in g.thr.low.threads && Stands(g, g', x) && Grown(g.thr, g'.thr)
    requires TravelsAt(g, ret, x) && (x in ret ==> Says(ret', x, ret[x]))
    ensures TravelsAt(g', ret', x)
  {
    hide GrpInv;
    PassedWhere(g, x);
    PassedWhere(g', x);
  }

  // The thread that makes the step: in the thread library.
  lemma LibraryTravels(g: GrpState, t: Tid, ans: T.Answer, ret: map<Tid, int>)
    requires GrpInv(g) && CanStep(g, Lower(T.Go(t, ans))) && GrpInv(Lowers(g, T.Go(t, ans))) && TravelsAt(g, ret, t)
    requires Grown(g.thr, Lowers(g, T.Go(t, ans)).thr)
    ensures TravelsAt(Lowers(g, T.Go(t, ans)), ret, t)
  {
    hide GrpInv, T.CanStep, T.GoOn, T.After, Lowers, Travels, T.PcMoves;
    var g' := Lowers(g, T.Go(t, ans));
    T.AfterGo(g.thr, t, ans);
    OutsideGo(g, t, ans);
    InLibrary(g, t, ans);
    OwnFits(g, t);
    LowInvariant(g);
    T.GoMoves(g.thr, t, ans);
    PassedWhere(g, t);
    if T.PcOf(g.thr, t).CreateFork? && ans.ok {
      ForkShape(g, t, ans);
      ForkTravels(PcOf(g, t), T.PcOf(g.thr, t), T.PcOf(g'.thr, t), g.thr.low.threads[t], g.lock, g.cv, t, ret, g'.thr.passed, g'.thr.delivered);
    } else {
      LowersGo(g, t, ans);
      Histories(g.thr, t, ans);
      PcTravels(PcOf(g, t), T.PcOf(g.thr, t), T.PcOf(g'.thr, t), ans, g.thr.low.threads[t], g.lock, g.cv, t, ret,
                g.thr.passed, g.thr.delivered, g'.thr.passed, g'.thr.delivered);
    }
  }

  // What thr_exit and thr_join record.
  lemma Histories(z: T.ThrState, t: Tid, ans: T.Answer)
    requires T.ThrInv(z) && T.CanStep(z, T.Go(t, ans))
    ensures var z', q := T.GoOn(z, t, ans), T.PcOf(z, t);
            && (q.ExitEnter? ==> Says(z'.passed, t, q.status)) && (!q.ExitEnter? ==> z'.passed == z.passed)
            && (q.JoinCollect? ==> q.tid in z'.delivered)
  {
    hide T.ThrInv, T.Unused, T.Goes, T.GoCreate, T.GoJoin, MayCall;
    T.BetweenCallsGo(z, t, ans);
    T.GoPlaces(z, t, ans);
    T.CreateHistory(z, t, ans);
    T.JoinHistory(z, t, ans, t);
    if T.PcOf(z, t).ExitEnter? { T.ExitTarget(z, t); }
    if T.PcOf(z, t).JoinCollect? {
      T.RecThere(z, t);
      T.CollectHistory(z, t, ans);
    }
  }

  lemma PcTravels(p: GrpPc, q: T.ThrPc, q': T.ThrPc, ans: T.Answer, l: Local, lock: int, cv: Cond, t: Tid, ret: map<Tid, int>,
                  passed: map<Tid, int>, delivered: map<Tid, int>, passed': map<Tid, int>, delivered': map<Tid, int>)
    requires Travels(p, q, t, ret, passed, delivered) && OpFits(p, q, l, lock, cv) && Elsewhere(p) && T.PcMoves(q, q', ans)
    requires q.ExitEnter? ==> Says(passed', t, q.status)
    requires !q.ExitEnter? ==> passed' == passed
    requires q.JoinCollect? ==> q.tid in delivered'
    requires forall u :: u in delivered ==> u in delivered'
    ensures Travels(Landing(p, q), q', t, ret, passed', delivered')
  {
    hide Uses, Holding, Under;
  }

  lemma ForkTravels(p: GrpPc, q: T.ThrPc, q': T.ThrPc, l: Local, lock: int, cv: Cond, t: Tid, ret: map<Tid, int>,
                    passed: map<Tid, int>, delivered: map<Tid, int>)
    requires OpFits(p, q, l, lock, cv) && q.CreateFork? && Elsewhere(p)
    ensures Travels(p, q', t, ret, passed, delivered)
  {
    hide Uses, Holding, Under;
  }

  // The thread that makes the step: in this library.
  lemma GoTravels(g: GrpState, t: Tid, ans: T.Answer, ret: map<Tid, int>)
    requires GrpInv(g) && CanStep(g, Go(t, ans)) && GrpInv(GoOn(g, t, ans)) && TravelsAt(g, ret, t)
    ensures TravelsAt(GoOn(g, t, ans), ret, t)
  {
    hide GrpInv, GoOn, CanStep, OpFits, DataFits, OwnMove;
    GoStands(g, t, ans);
    GroupIdle(g, t, ans);
    PassedWhere(g, t);
    OwnMoved(g, t, ans);
    NextPlace(g, t, ans);
  }

  lemma OwnMoved(g: GrpState, t: Tid, ans: T.Answer)
    requires CanStep(g, Go(t, ans)) && OwnMove(g, GoOn(g, t, ans), t)
    ensures GoOn(g, t, ans).thr.passed == g.thr.passed && GoOn(g, t, ans).thr.delivered == g.thr.delivered
  {
    hide GoOn, CanStep;
  }

  // Where a step of this library leads, as far as the status is concerned.
  lemma NextPlace(g: GrpState, t: Tid, ans: T.Answer)
    requires CanStep(g, Go(t, ans))
    ensures StatusMoves(g, GoOn(g, t, ans), t)
  {
    hide *;
    GoPlaces(g, t, ans);
    AllPlaces(PcOf(g, t));
    CreatePlace(g, t, ans);
    BottomPlace(g, t, ans);
    JoinPlace(g, t, ans);
  }

  ghost predicate StatusMoves(g: GrpState, g': GrpState, t: Tid) {
    var p, p', q' := PcOf(g, t), PcOf(g', t), T.PcOf(g'.thr, t);
    && (p'.BottomUnlock? ==> p.BottomQueue? && p.ret == p'.ret) && !p'.BottomQueue?
    && (p'.BottomExit? ==> p.BottomUnlock? && p.ret == p'.ret)
    && (p'.Exiting? ==> p.BottomExit? && q' == T.ExitEnter(p.ret))
    && (p'.Joining? ==> q' == T.JoinEnter(p'.tid))
  }

  lemma CreatePlace(g: GrpState, t: Tid, ans: T.Answer)
    requires CanStep(g, Go(t, ans))
    ensures PcOf(g, t).CreateAlloc? || PcOf(g, t).CreateUndo? || PcOf(g, t).CreateEnd? || PcOf(g, t).BottomStart? ==> StatusMoves(g, GoOn(g, t, ans), t)
  {
    hide T.Goes, Called;
  }

  lemma BottomPlace(g: GrpState, t: Tid, ans: T.Answer)
    requires CanStep(g, Go(t, ans))
    ensures PcOf(g, t).BottomQueue? || PcOf(g, t).BottomUnlock? || PcOf(g, t).BottomExit? ==> StatusMoves(g, GoOn(g, t, ans), t)
  {
    hide T.Goes, Called, Enqueue;
  }

  lemma JoinPlace(g: GrpState, t: Tid, ans: T.Answer)
    requires CanStep(g, Go(t, ans))
    ensures PcOf(g, t).JoinTest? || PcOf(g, t).JoinRead? || PcOf(g, t).JoinCall? ==> StatusMoves(g, GoOn(g, t, ans), t)
  {
    hide T.Goes, Called, Dequeue;
  }

  // The thread that makes the step, whatever it is.
  lemma OwnTravels(g: GrpState, st: Step, ret: map<Tid, int>, t: Tid)
    requires GrpInv(g) && CanStep(g, st) && GrpInv(After(g, st)) && t in g.thr.low.threads && MadeBy(st, t) && TravelsAt(g, ret, t)
    requires Grown(g.thr, After(g, st).thr)
    ensures TravelsAt(After(g, st), Record(ret, st), t)
  {
    hide GrpInv, CanStep, GoOn, Lowers, Travels, Grown, OwnMove;
    match st
    case Lower(y) => {
      if y.Go? {
        LibraryTravels(g, t, y.ans, ret);
      } else if y.Inner? || y.Other? {
        LowerStands(g, y, t);
        OthersTravel(g, After(g, st), ret, ret, t);
      } else {
        OutsideTravels(g, y, t, ret);
      }
    }
    case Go(_, ans) => GoTravels(g, t, ans, ret);
    case _ => EntersTravels(g, st, ret);
  }

  lemma OutsideTravels(g: GrpState, y: T.Step, t: Tid, ret: map<Tid, int>)
    requires CanStep(g, Lower(y)) && (y.Create? || y.Join? || y.Exit?) && y.t == t
    ensures TravelsAt(Lowers(g, y), ret, t)
  {
    hide T.CanStep, T.After;
  }

  lemma EntersTravels(g: GrpState, st: Step, ret: map<Tid, int>)
    requires GrpInv(g) && CanStep(g, st) && (st.Create? || st.Join? || st.Return?)
    ensures TravelsAt(After(g, st), Record(ret, st), st.t)
  {
    hide GrpInv, MayCall, Called;
  }

  lemma ReportedKeeps(g: GrpState, st: Step, ret: map<Tid, int>)
    requires GrpInv(g) && CanStep(g, st) && Reported(g, ret)
    ensures Reported(After(g, st), Record(ret, st))
  {
    hide GrpInv, CanStep, After, TravelsAt, Grown, Stands;
    var g' := After(g, st);
    GrpStepKeeps(g, st);
    Grows(g, st);
    forall t | t in g'.thr.low.threads ensures TravelsAt(g', Record(ret, st), t) {
      if t !in g.thr.low.threads {
        NewStands(g, st, t);
        Nothing(g', Record(ret, st), t);
      } else if MadeBy(st, t) {
        OwnTravels(g, st, ret, t);
      } else {
        StandsApart(g, st, t);
        OthersTravel(g, g', ret, Record(ret, st), t);
      }
    }
  }

  lemma Nothing(g: GrpState, ret: map<Tid, int>, t: Tid)
    requires PcOf(g, t).Free? || PcOf(g, t).BottomStart?
    ensures TravelsAt(g, ret, t)
  {
  }

  lemma StandsApart(g: GrpState, st: Step, x: Tid)
    requires GrpInv(g) && CanStep(g, st) && x in g.thr.low.threads && !MadeBy(st, x)
    ensures Stands(g, After(g, st), x)
  {
    hide GrpInv, CanStep, GoOn, Lowers, Stands, OwnMove;
    match st
    case Lower(y) => { if y.Go? { LibraryStands(g, y.t, y.ans, x); } else { LowerStands(g, y, x); } }
    case Go(t, ans) => { GoStands(g, t, ans); OwnMoveStands(g, GoOn(g, t, ans), t, x); }
    case _ => { EntersStands(g, st); OwnMoveStands(g, After(g, st), st.t, x); }
  }

  lemma {:induction false} ReportedRun(gs: seq<GrpState>, sts: seq<Step>, k: nat)
    requires IsGrpRun(gs, sts) && k < |gs|
    ensures Reported(gs[k], Returned(sts[..k]))
  {
    hide GrpInv, After, CanStep, Starts, TravelsAt;
    if k == 0 {
      var zs, xs :| Starts(gs[0], zs, xs);
      AtStart(gs[0], zs, xs, Returned(sts[..0]));
    } else {
      ReportedRun(gs, sts, k - 1);
      GrpRunInv(gs, sts, k - 1);
      assert CanStep(gs[k - 1], sts[k - 1]) && gs[k - 1 + 1] == After(gs[k - 1], sts[k - 1]);
      ReportedKeeps(gs[k - 1], sts[k - 1], Returned(sts[..k - 1]));
      assert sts[..k][..k - 1] == sts[..k - 1];
    }
  }

  lemma AtStart(g: GrpState, zs: seq<T.ThrState>, xs: seq<T.Step>, ret: map<Tid, int>)
    requires Starts(g, zs, xs)
    ensures Reported(g, ret)
  {
    hide T.IsThrRun, T.CanStep, T.After;
  }

  // When thr_join, called by thrgrp_join, has succeeded and is about to return, the status that it hands on
  // is the one the thread passed to thr_exit, and that is what the thread's function had returned.
  lemma HandsOnStatus(gs: seq<GrpState>, sts: seq<Step>, k: nat, t: Tid)
    requires IsGrpRun(gs, sts) && k < |gs| && t in gs[k].thr.low.threads
    requires PcOf(gs[k], t).Joining? && T.PcOf(gs[k].thr, t) == T.Leave(0)
    ensures var u, z := PcOf(gs[k], t).tid, gs[k].thr;
            && u in z.delivered && u in z.passed && z.delivered[u] == z.passed[u]
            && Says(Returned(sts[..k]), u, z.delivered[u])
  {
    hide GrpInv, CanStep, After, Starts, T.ThrInv;
    var g := gs[k];
    GrpRunInv(gs, sts, k);
    ReportedRun(gs, sts, k);
    LowInvariant(g);
    assert TravelsAt(g, Returned(sts[..k]), t);
    T.Delivered(g.thr, PcOf(g, t).tid);
    JoinedExits(g, t);
    assert TravelsAt(g, Returned(sts[..k]), PcOf(g, t).tid);
  }

  // A thread of the group whose status has been passed has left thrgrp_bottom.
  lemma JoinedExits(g: GrpState, t: Tid)
    requires GrpInv(g) && t in g.thr.low.threads && PcOf(g, t).Joining? && PcOf(g, t).tid in g.thr.passed
    ensures PcOf(g, t).tid in g.thr.low.threads && PcOf(g, PcOf(g, t).tid).Exiting?
  {
    hide GrpInv, OpFits, Private;
    OwnFits(g, t);
    var u := PcOf(g, t).tid;
    TargetHas(g, u);
    OwnFits(g, u);
    PassedWhere(g, u);
    PassedElsewhere(PcOf(g, u), T.PcOf(g.thr, u), g.thr.low.threads[u], g.lock, g.cv);
  }

  lemma PassedElsewhere(p: GrpPc, q: T.ThrPc, l: Local, lock: int, cv: Cond)
    requires OpFits(p, q, l, lock, cv) && !q.Away?
    ensures Elsewhere(p)
  {
  }
}
