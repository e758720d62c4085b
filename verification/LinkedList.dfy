// user/libthread/linked_list.c: the doubly linked list that holds waiting threads and thread records.
// New nodes go in at the head and the list is dequeued at the tail.

module LinkedList {
  // What a node carries: its thread_data pointer and its threadID.
  datatype Entry = Entry(data: int, threadID: int)

  class Node {
    var next: Node?
    var prev: Node?
    var threadData: int
    var threadID: int
    constructor () {}
  }

  ghost function EntryOf(n: Node): Entry
    reads n
  {
    Entry(n.threadData, n.threadID)
  }

  ghost function Entries(ns: seq<Node>): (es: seq<Entry>)
    reads ns
    ensures |es| == |ns| && forall i :: 0 <= i < |ns| ==> es[i] == EntryOf(ns[i])
  {
    if ns == [] then [] else [EntryOf(ns[0])] + Entries(ns[1..])
  }

  ghost function At(ns: seq<Node>, i: int): (n: Node?)
    ensures n != null ==> n in ns
  {
    if 0 <= i < |ns| then ns[i] else null
  }

  // A node's pointers agree with its place.
  ghost predicate Linked(ns: seq<Node>, i: nat)
    requires i < |ns|
    reads ns
  {
    ns[i].next == At(ns, i + 1) && ns[i].prev == At(ns, i - 1)
  }

  ghost predicate Distinct(ns: seq<Node>) { forall i, j :: 0 <= i < j < |ns| ==> ns[i] != ns[j] }

  // Where the entry at k was before the one at i went.
  ghost function Source(i: nat, k: nat): nat { if k < i then k else k + 1 }

  ghost function Without<T>(s: seq<T>, i: nat): (r: seq<T>)
    requires i < |s|
    ensures |r| == |s| - 1 && forall k {:trigger r[k]} :: 0 <= k < |r| ==> r[k] == s[Source(i, k)]
  {
    s[..i] + s[i + 1..]
  }

  ghost function Nexts(ns: seq<Node>): (ps: seq<Node?>)
    reads ns
    ensures |ps| == |ns| && forall i :: 0 <= i < |ns| ==> ps[i] == ns[i].next
  {
    if ns == [] then [] else [ns[0].next] + Nexts(ns[1..])
  }

  ghost function Prevs(ns: seq<Node>): (ps: seq<Node?>)
    reads ns
    ensures |ps| == |ns| && forall i :: 0 <= i < |ns| ==> ps[i] == ns[i].prev
  {
    if ns == [] then [] else [ns[0].prev] + Prevs(ns[1..])
  }

  // What the pointers of a list look like.
  ghost predicate Pointers(ns: seq<Node>, nexts: seq<Node?>, prevs: seq<Node?>) {
    && |nexts| == |prevs| == |ns|
    && (forall i :: 0 <= i < |ns| ==> nexts[i] == At(ns, i + 1))
    && (forall i :: 0 <= i < |ns| ==> prevs[i] == At(ns, i - 1))
  }

  // The neighbours of the node at a place have been joined, and nothing else has changed.
  ghost predicate Rejoined(ns: seq<Node>, at: nat, nexts: seq<Node?>, prevs: seq<Node?>, es: seq<Entry>)
    requires at < |ns| == |nexts| == |prevs| == |es|
    reads ns
  {
    && (forall i :: 0 <= i < |ns| ==> ns[i].next == if i == at - 1 then nexts[at] else nexts[i])
    && (forall i :: 0 <= i < |ns| ==> ns[i].prev == if i == at + 1 then prevs[at] else prevs[i])
    && (forall i :: 0 <= i < |ns| ==> EntryOf(ns[i]) == es[i])
  }

  lemma LinksOf(ns: seq<Node>, at: nat, nexts: seq<Node?>, prevs: seq<Node?>, es: seq<Entry>)
    requires at < |ns| == |nexts| == |prevs| == |es| && Pointers(ns, nexts, prevs)
    requires Rejoined(ns, at, nexts, prevs, es)
    ensures forall i :: 0 <= i < |ns| - 1 ==> Linked(Without(ns, at), i)
    ensures at == 0 ==> ns[at].next == At(ns, 1)
    ensures at == |ns| - 1 ==> ns[at].prev == At(ns, at - 1)
  {
    hide EntryOf, Pointers, Rejoined;
    var rest := Without(ns, at);
    forall i | 0 <= i < |ns| - 1 ensures Linked(rest, i) {
      var j := if i < at then i else i + 1;
      assert rest[i] == ns[j];
      PointersAt(ns, at, nexts, prevs, es, j);
    }
    PointersAt(ns, at, nexts, prevs, es, at);
  }

  lemma PointersAt(ns: seq<Node>, at: nat, nexts: seq<Node?>, prevs: seq<Node?>, es: seq<Entry>, j: nat)
    requires at < |ns| == |nexts| == |prevs| == |es| && Pointers(ns, nexts, prevs) && Rejoined(ns, at, nexts, prevs, es)
    requires j < |ns|
    ensures ns[j].next == At(ns, if j == at - 1 then at + 1 else j + 1)
    ensures ns[j].prev == At(ns, if j == at + 1 then at - 1 else j - 1)
  {
    hide EntryOf, At;
  }

  lemma Relinked(ns: seq<Node>, at: nat, nexts: seq<Node?>, prevs: seq<Node?>, es: seq<Entry>)
    requires at < |ns| == |nexts| == |prevs| == |es| && Pointers(ns, nexts, prevs) && Distinct(ns)
    requires Rejoined(ns, at, nexts, prevs, es)
    ensures forall i :: 0 <= i < |ns| - 1 ==> Linked(Without(ns, at), i)
    ensures Distinct(Without(ns, at)) && Entries(Without(ns, at)) == Without(es, at)
    ensures At(Without(ns, at), 0) == if ns[0] == ns[at] then ns[at].next else At(ns, 0)
    ensures At(Without(ns, at), |ns| - 2) == if ns[|ns| - 1] == ns[at] then ns[at].prev else At(ns, |ns| - 1)
  {
    hide Entries, EntryOf, Without, Linked, Pointers;
    LinksOf(ns, at, nexts, prevs, es);
    SameEntries(ns, es);
    RestOf(ns, at);
  }

  // The node n points to the first of ns, that one back to it, and nothing else has changed.
  ghost predicate Attached(ns: seq<Node>, n: Node, nexts: seq<Node?>, prevs: seq<Node?>, es: seq<Entry>)
    requires |nexts| == |prevs| == |es| == |ns|
    reads ns, n
  {
    && n.next == At(ns, 0) && n.prev == null
    && (forall i :: 0 <= i < |ns| ==> ns[i].next == nexts[i] && ns[i].prev == if i == 0 then n else prevs[i])
    && (forall i :: 0 <= i < |ns| ==> EntryOf(ns[i]) == es[i])
  }

  lemma EntryIs(n: Node)
    ensures EntryOf(n) == Entry(n.threadData, n.threadID)
  {
  }

  // A node has been put in front.
  lemma Prepended(ns: seq<Node>, n: Node, nexts: seq<Node?>, prevs: seq<Node?>, es: seq<Entry>)
    requires |nexts| == |prevs| == |es| == |ns| && Pointers(ns, nexts, prevs) && Distinct(ns) && n !in ns
    requires Attached(ns, n, nexts, prevs, es)
    ensures forall i :: 0 <= i <= |ns| ==> Linked([n] + ns, i)
    ensures Distinct([n] + ns) && Entries([n] + ns) == [EntryOf(n)] + es
    ensures At([n] + ns, |ns|) == if ns == [] then n else At(ns, |ns| - 1)
    ensures At([n] + ns, 0) == n && (At(ns, 0) == null <==> ns == [])
  {
    var all := [n] + ns;
    forall i | 0 <= i <= |ns| ensures Linked(all, i) {
      if i > 0 { assert all[i] == ns[i - 1]; }
    }
    SameEntries(ns, es);
    assert all[1..] == ns;
  }

  lemma RestOf(ns: seq<Node>, at: nat)
    requires at < |ns| && Distinct(ns)
    ensures Entries(Without(ns, at)) == Without(Entries(ns), at)
    ensures Distinct(Without(ns, at))
    ensures |ns| > 1 ==> At(Without(ns, at), 0) == ns[if at == 0 then 1 else 0]
    ensures |ns| > 1 ==> At(Without(ns, at), |ns| - 2) == ns[if at == |ns| - 1 then |ns| - 2 else |ns| - 1]
  {
    hide Entries, Without;
    var rest, es := Without(ns, at), Without(Entries(ns), at);
    forall k | 0 <= k < |rest| ensures Entries(rest)[k] == es[k] {
      assert rest[k] == ns[Source(at, k)];
    }
    forall j, k | 0 <= j < k < |rest| ensures rest[j] != rest[k] {
      assert rest[j] == ns[Source(at, j)] && rest[k] == ns[Source(at, k)];
    }
    if |ns| > 1 { assert rest[0] == ns[Source(at, 0)] && rest[|ns| - 2] == ns[Source(at, |ns| - 2)]; }
  }

  lemma SameEntries(ns: seq<Node>, es: seq<Entry>)
    requires |es| == |ns| && forall i :: 0 <= i < |ns| ==> EntryOf(ns[i]) == es[i]
    ensures Entries(ns) == es
  {
    hide EntryOf, Entries;
  }

  lemma PointersOf(ns: seq<Node>)
    requires forall i :: 0 <= i < |ns| ==> Linked(ns, i)
    ensures Pointers(ns, Nexts(ns), Prevs(ns))
  {
    hide Nexts, Prevs;
    forall i | 0 <= i < |ns| ensures Nexts(ns)[i] == At(ns, i + 1) && Prevs(ns)[i] == At(ns, i - 1) {
      assert Linked(ns, i);
    }
  }

  class List {
    var head: Node?
    var tail: Node?
    var count: int
    ghost var nodes: seq<Node>

    ghost predicate Valid()
      reads this, nodes
    {
      && count == |nodes| && Distinct(nodes)
      && head == At(nodes, 0) && tail == At(nodes, |nodes| - 1)
      && forall i :: 0 <= i < |nodes| ==> Linked(nodes, i)
    }

    // What the list holds, newest first.
    ghost function Contents(): seq<Entry>
      reads this, nodes
    {
      Entries(nodes)
    }

    // list_create
    constructor ()
      ensures Valid() && nodes == [] && Contents() == []
    {
      head, tail, count, nodes := null, null, 0, [];
    }

    // list_insert; available says whether malloc finds memory for a node.
    method Insert(threadData: int, threadID: int, available: bool) returns (r: int)
      requires Valid()
      modifies this, nodes
      ensures Valid()
      ensures r == if available then 0 else -1
      ensures !available ==> nodes == old(nodes) && Contents() == old(Contents())
      ensures available ==> Contents() == [Entry(threadData, threadID)] + old(Contents())
      ensures available ==> |nodes| > 0 && fresh(nodes[0]) && nodes[1..] == old(nodes)
    {
      hide *;
      var node := head;
      if !available { return -1; }
      Parts();
      PointersOf(nodes);
      ghost var ns, nexts, prevs, es := nodes, Nexts(nodes), Prevs(nodes), Entries(nodes);
      var added := new Node();
      added.threadData, added.threadID := threadData, threadID;
      Attach(added);
      if node == null {
        head := added;
        tail := head;
      } else {
        head := node.prev;
      }
      count := count + 1;
      Prepended(ns, added, nexts, prevs, es);
      EntryIs(added);
      nodes := [added] + ns;
      Whole();
      return 0;
    }

    lemma Parts()
      requires Valid()
      ensures count == |nodes| && Distinct(nodes) && head == At(nodes, 0) && tail == At(nodes, |nodes| - 1)
      ensures (forall i :: 0 <= i < |nodes| ==> Linked(nodes, i)) && Contents() == Entries(nodes)
      ensures head != null ==> head in nodes
    {
    }

    lemma Whole()
      requires count == |nodes| && Distinct(nodes) && head == At(nodes, 0) && tail == At(nodes, |nodes| - 1)
      requires forall i :: 0 <= i < |nodes| ==> Linked(nodes, i)
      ensures Valid() && Contents() == Entries(nodes)
    {
    }

    // The new node and the head are joined.
    method Attach(added: Node)
      requires Valid() && added !in nodes
      modifies nodes, added
      ensures Attached(nodes, added, old(Nexts(nodes)), old(Prevs(nodes)), old(Entries(nodes)))
      ensures head != null ==> head.prev == added
      ensures added.threadData == old(added.threadData) && added.threadID == old(added.threadID)
    {
      hide Entries, Nexts, Prevs;
      added.next, added.prev := head, null;
      if head != null { head.prev := added; }
    }

    // list_dequeue: the data of the node at the tail, or None.
    method Dequeue() returns (r: int, data: int)
      requires Valid()
      modifies this, nodes
      ensures Valid()
      ensures old(nodes) == [] ==> r == -1 && nodes == [] && Contents() == old(Contents())
      ensures old(nodes) != [] ==>
                r == 0 && nodes == old(nodes)[..|old(nodes)| - 1]
                && data == old(Contents())[|old(nodes)| - 1].data
                && Contents() == old(Contents())[..|old(nodes)| - 1]
    {
      hide Entries;
      if count == 0 { return -1, 0; }
      var node := tail;
      assert Linked(nodes, |nodes| - 1);
      data := node.threadData;
      if node.prev != null { node.prev.next := node.next; }
      if head == node { head := node.next; }
      if tail == node { tail := node.prev; }
      count := count - 1;
      r := 0;
      nodes := nodes[..|nodes| - 1];
      forall i | 0 <= i < |nodes| ensures Linked(nodes, i) {
        assert old(Linked(nodes, i));
      }
      assert Contents() == old(Contents())[..|old(nodes)| - 1];
    }

    // The neighbours of a node are joined around it.
    method Join(node: Node, ghost at: nat)
      requires Valid() && at < |nodes| && nodes[at] == node
      modifies nodes
      ensures Rejoined(nodes, at, old(Nexts(nodes)), old(Prevs(nodes)), old(Entries(nodes)))
    {
      hide Entries, Nexts, Prevs;
      assert Linked(nodes, at);
      if node.next != null { node.next.prev := node.prev; }
      if node.prev != null { node.prev.next := node.next; }
    }

    // list_remove: takes out the node it is given, wherever it stands.
    method Remove(node: Node, ghost at: nat)
      requires Valid() && at < |nodes| && nodes[at] == node
      modifies this, nodes
      ensures Valid()
      ensures nodes == Without(old(nodes), at)
      ensures Contents() == Without(old(Contents()), at)
    {
      hide Entries, Linked, Nexts, Prevs, Without, Rejoined, Distinct, Pointers;
      PointersOf(nodes);
      ghost var ns := nodes;
      Join(node, at);
      Relinked(ns, at, old(Nexts(nodes)), old(Prevs(nodes)), old(Entries(nodes)));
      if head == node { head := node.next; }
      if tail == node { tail := node.prev; }
      count := count - 1;
      nodes := Without(ns, at);
    }

    // list_find: the first node with the number. The assertion in it fails when there is none,
    // which the model shows as null.
    method Find(threadID: int) returns (node: Node?)
      requires Valid()
      ensures node == null <==> forall e :: e in Contents() ==> e.threadID != threadID
      ensures node != null ==> exists i :: 0 <= i < |nodes| && nodes[i] == node && Contents()[i].threadID == threadID
                                            && forall j :: 0 <= j < i ==> Contents()[j].threadID != threadID
    {
      node := head;
      ghost var i: nat := 0;
      while node != null && node.threadID != threadID
        invariant i <= |nodes| && node == At(nodes, i)
        invariant forall j :: 0 <= j < i ==> nodes[j].threadID != threadID
        decreases |nodes| - i
      {
        assert Linked(nodes, i);
        node := node.next;
        i := i + 1;
      }
      assert node != null ==> Contents()[i].threadID == threadID;
      assert forall j :: 0 <= j < |nodes| ==> Contents()[j].threadID == nodes[j].threadID;
    }
  }

  // ---------------------------------------------------------------- walking the list

  // The nodes met by following next for at most so many steps.
  ghost function Forward(n: Node?, within: seq<Node>, steps: nat): seq<Node>
    reads within
    decreases steps
  {
    if n == null || n !in within || steps == 0 then [] else [n] + Forward(n.next, within, steps - 1)
  }

  ghost function Backward(n: Node?, within: seq<Node>, steps: nat): seq<Node>
    reads within
    decreases steps
  {
    if n == null || n !in within || steps == 0 then [] else [n] + Backward(n.prev, within, steps - 1)
  }

  ghost function Reversed<T>(s: seq<T>): (r: seq<T>)
    ensures |r| == |s|
  {
    if s == [] then [] else Reversed(s[1..]) + [s[0]]
  }

  lemma {:induction false} ForwardFrom(ns: seq<Node>, i: nat, steps: nat)
    requires i <= |ns| && steps >= |ns| - i
    requires forall k :: 0 <= k < |ns| ==> Linked(ns, k)
    ensures Forward(At(ns, i), ns, steps) == ns[i..]
    decreases |ns| - i
  {
    if i < |ns| {
      assert Linked(ns, i);
      ForwardFrom(ns, i + 1, steps - 1);
    }
  }

  lemma {:induction false} BackwardFrom(ns: seq<Node>, i: nat, steps: nat)
    requires i <= |ns| && steps >= i
    requires forall k :: 0 <= k < |ns| ==> Linked(ns, k)
    ensures Backward(At(ns, i - 1), ns, steps) == Reversed(ns[..i])
    decreases i
  {
    if i > 0 {
      assert Linked(ns, i - 1);
      BackwardFrom(ns, i - 1, steps - 1);
      ReversedLast(ns[..i]);
      assert ns[..i][..i - 1] == ns[..i - 1];
    }
  }

  lemma {:induction false} ReversedLast<T>(s: seq<T>)
    requires s != []
    ensures Reversed(s) == [s[|s| - 1]] + Reversed(s[..|s| - 1])
  {
    if |s| > 1 {
      ReversedLast(s[1..]);
      assert s[1..][..|s| - 2] == s[..|s| - 1][1..];
    }
  }

  // From the head by next and from the tail by prev, the same nodes are met in opposite orders, and
  // count says how many; going on for longer meets no more.
  lemma WalksMirror(l: List, steps: nat)
    requires l.Valid() && steps >= l.count
    ensures Forward(l.head, l.nodes, steps) == l.nodes
    ensures Backward(l.tail, l.nodes, steps) == Reversed(Forward(l.head, l.nodes, steps))
    ensures |Forward(l.head, l.nodes, steps)| == l.count
  {
    hide Linked, Distinct, Forward, Backward, Reversed;
    ForwardFrom(l.nodes, 0, steps);
    BackwardFrom(l.nodes, |l.nodes|, steps);
    assert l.nodes[..|l.nodes|] == l.nodes;
  }

  // ---------------------------------------------------------------- any mix of operations

  // Refused is an insertion for which malloc finds no memory.
  datatype Op<T> = Insert(x: T) | Refused | Dequeue | Remove(at: nat)

  // What is in the list, newest first, and what has been dequeued, in that order.
  datatype Queue<T> = Queue(contents: seq<T>, served: seq<T>)

  // The methods above on contents; a dequeue of the empty list changes nothing.
  ghost function Apply<T>(q: Queue<T>, op: Op<T>): Queue<T>
    requires op.Remove? ==> op.at < |q.contents|
  {
    match op
    case Insert(x) => Queue([x] + q.contents, q.served)
    case Refused => q
    case Dequeue =>
      if q.contents == [] then q
      else Queue(q.contents[..|q.contents| - 1], q.served + [q.contents[|q.contents| - 1]])
    case Remove(i) => Queue(Without(q.contents, i), q.served)
  }

  // Everything that was inserted and not removed, oldest first.
  ghost function Order<T>(q: Queue<T>): (s: seq<T>)
    ensures |s| == |q.served| + |q.contents|
  {
    q.served + Reversed(q.contents)
  }

  lemma {:induction false} ReversedDrop<T>(s: seq<T>, i: nat)
    requires i < |s|
    ensures Reversed(Without(s, i)) == Without(Reversed(s), |s| - 1 - i)
    decreases |s|
  {
    var rest := s[..i] + s[i + 1..];
    if i == 0 {
      assert rest == s[1..];
      assert Without(Reversed(s), |s| - 1) == Reversed(s[1..]);
    } else {
      ReversedDrop(s[1..], i - 1);
      assert rest == Without(s, i);
      assert rest[1..] == s[1..][..i - 1] + s[1..][i..];
      assert rest[0] == s[0];
    }
  }

  // An insertion adds at the end of the order, a dequeue only moves the line between what has left and
  // what has not, and a removal takes out just the one.
  lemma OrderMoves<T>(q: Queue<T>, op: Op<T>)
    requires op.Remove? ==> op.at < |q.contents|
    ensures op.Insert? ==> Order(Apply(q, op)) == Order(q) + [op.x] && Apply(q, op).served == q.served
    ensures op.Dequeue? ==> Order(Apply(q, op)) == Order(q)
    ensures op.Refused? ==> Apply(q, op) == q
    ensures op.Dequeue? && q.contents != [] ==> Apply(q, op).served == Order(q)[..|q.served| + 1]
    ensures op.Remove? ==> Order(Apply(q, op)) == Without(Order(q), |Order(q)| - 1 - op.at) && Apply(q, op).served == q.served
  {
    match op
    case Insert(x) => { assert ([x] + q.contents)[1..] == q.contents; }
    case Refused =>
    case Dequeue => { if q.contents != [] { ReversedLast(q.contents); } }
    case Remove(i) => {
      hide Without, Reversed;
      ReversedDrop(q.contents, i);
      WithoutBehind(q.served, Reversed(q.contents), |q.contents| - 1 - i);
    }
  }

  lemma WithoutBehind<T>(s: seq<T>, r: seq<T>, at: nat)
    requires at < |r|
    ensures Without(s + r, |s| + at) == s + Without(r, at)
  {
  }

  ghost predicate Possible<T>(q: Queue<T>, ops: seq<Op<T>>)
    decreases |ops|
  {
    ops == [] || ((ops[0].Remove? ==> ops[0].at < |q.contents|) && Possible(Apply(q, ops[0]), ops[1..]))
  }

  ghost function After<T>(q: Queue<T>, ops: seq<Op<T>>): Queue<T>
    requires Possible(q, ops)
    decreases |ops|
  {
    if ops == [] then q else After(Apply(q, ops[0]), ops[1..])
  }

  ghost function Inserted<T>(ops: seq<Op<T>>): seq<T> {
    if ops == [] then [] else (if ops[0].Insert? then [ops[0].x] else []) + Inserted(ops[1..])
  }

  ghost function Removals<T>(ops: seq<Op<T>>): nat {
    if ops == [] then 0 else (if ops[0].Remove? then 1 else 0) + Removals(ops[1..])
  }

  // s is t with some of its elements left out.
  ghost predicate Subsequence<T(!new)>(s: seq<T>, t: seq<T>) {
    if s == [] then true
    else if t == [] then false
    else (s[0] == t[0] && Subsequence(s[1..], t[1..])) || Subsequence(s, t[1..])
  }

  lemma {:induction false} SubsequenceRefl<T(!new)>(s: seq<T>)
    ensures Subsequence(s, s)
  {
    if s != [] { SubsequenceRefl(s[1..]); }
  }

  lemma {:induction false} SubsequenceSkips<T(!new)>(s: seq<T>, t: seq<T>)
    requires s != [] && Subsequence(s, t)
    ensures Subsequence(s[1..], t)
    decreases |t|
  {
    if s[0] == t[0] && Subsequence(s[1..], t[1..]) {
      SubsequenceGrows(s[1..], t);
    } else {
      SubsequenceSkips(s, t[1..]);
      SubsequenceGrows(s[1..], t);
    }
  }

  lemma SubsequenceGrows<T(!new)>(s: seq<T>, t: seq<T>)
    requires t != [] && Subsequence(s, t[1..])
    ensures Subsequence(s, t)
  {
  }

  lemma {:induction false} SubsequenceTrans<T(!new)>(r: seq<T>, s: seq<T>, t: seq<T>)
    requires Subsequence(r, s) && Subsequence(s, t)
    ensures Subsequence(r, t)
    decreases |s| + |t|
  {
    if r != [] {
      if s[0] == t[0] && Subsequence(s[1..], t[1..]) {
        if r[0] == s[0] && Subsequence(r[1..], s[1..]) {
          SubsequenceTrans(r[1..], s[1..], t[1..]);
        } else {
          SubsequenceTrans(r, s[1..], t[1..]);
        }
      } else {
        SubsequenceTrans(r, s, t[1..]);
      }
    }
  }

  lemma {:induction false} WithoutIsSubsequence<T(!new)>(s: seq<T>, tail: seq<T>, i: nat)
    requires i < |s|
    ensures Subsequence(Without(s, i) + tail, s + tail)
    decreases i
  {
    var a, b := Without(s, i) + tail, s + tail;
    if i == 0 {
      assert a == b[1..];
      SubsequenceRefl(a);
    } else {
      WithoutIsSubsequence(s[1..], tail, i - 1);
      assert a[1..] == Without(s[1..], i - 1) + tail && b[1..] == s[1..] + tail && a[0] == b[0];
    }
  }

  // First in, first out, over every run: what has been dequeued and then what is still there, oldest first,
  // is what was inserted, in order of insertion, with as many left out as were removed.
  lemma {:induction false} Fifo<T(!new)>(q: Queue<T>, ops: seq<Op<T>>)
    requires Possible(q, ops)
    ensures Subsequence(Order(After(q, ops)), Order(q) + Inserted(ops))
    ensures |Order(After(q, ops))| + Removals(ops) == |Order(q)| + |Inserted(ops)|
    ensures Removals(ops) == 0 ==> Order(After(q, ops)) == Order(q) + Inserted(ops)
    decreases |ops|
  {
    hide Order, Apply, Subsequence, Without;
    if ops == [] {
      assert Order(q) + Inserted(ops) == Order(q);
      SubsequenceRefl(Order(q));
    } else {
      Fifo(Apply(q, ops[0]), ops[1..]);
      FifoStep(q, ops[0], Inserted(ops[1..]), Order(After(q, ops)));
      assert Inserted(ops) == (if ops[0].Insert? then [ops[0].x] else []) + Inserted(ops[1..]);
    }
  }

  // One operation more in front; rest is what is inserted later, and end the order in the end.
  lemma FifoStep<T(!new)>(q: Queue<T>, op: Op<T>, rest: seq<T>, end: seq<T>)
    requires op.Remove? ==> op.at < |q.contents|
    requires Subsequence(end, Order(Apply(q, op)) + rest)
    ensures Subsequence(end, Order(q) + ((if op.Insert? then [op.x] else []) + rest))
    ensures |Order(Apply(q, op))| + (if op.Remove? then 1 else 0) == |Order(q)| + (if op.Insert? then 1 else 0)
    ensures !op.Remove? ==> Order(Apply(q, op)) + rest == Order(q) + ((if op.Insert? then [op.x] else []) + rest)
  {
    hide Order, Apply, Subsequence, Without;
    OrderMoves(q, op);
    if op.Remove? {
      WithoutIsSubsequence(Order(q), rest, |Order(q)| - 1 - op.at);
      SubsequenceTrans(end, Order(Apply(q, op)) + rest, Order(q) + rest);
    }
    if op.Insert? { assert (Order(q) + [op.x]) + rest == Order(q) + ([op.x] + rest); } else { assert [] + rest == rest; }
  }

  // ---------------------------------------------------------------- the list itself

  ghost function Data(es: seq<Entry>): (ds: seq<int>)
    ensures |ds| == |es| && forall i :: 0 <= i < |es| ==> ds[i] == es[i].data
  {
    if es == [] then [] else Data(es[..|es| - 1]) + [es[|es| - 1].data]
  }

  lemma DataOneMore(es: seq<Entry>, e: Entry)
    ensures Data(es + [e]) == Data(es) + [e.data]
  {
    assert (es + [e])[..|es|] == es;
  }

  // The node at a place, found from the head.
  method NodeAt(l: List, at: nat) returns (node: Node)
    requires l.Valid() && at < |l.nodes|
    ensures node == l.nodes[at]
  {
    var n := l.head;
    var i := 0;
    while i < at
      invariant 0 <= i <= at && n == At(l.nodes, i)
    {
      assert Linked(l.nodes, i);
      n := n.next;
      i := i + 1;
    }
    node := n;
  }

  lemma ApplyIs(q: Queue<Entry>, op: Op<Entry>)
    requires op.Remove? ==> op.at < |q.contents|
    ensures op.Insert? ==> Apply(q, op).contents == [Entry(op.x.data, op.x.threadID)] + q.contents && Apply(q, op).served == q.served
    ensures op.Refused? ==> Apply(q, op) == q
    ensures op.Dequeue? && q.contents == [] ==> Apply(q, op) == q
    ensures op.Dequeue? && q.contents != [] ==> Apply(q, op).contents == q.contents[..|q.contents| - 1]
                                                && Apply(q, op).served == q.served + [q.contents[|q.contents| - 1]]
    ensures op.Remove? ==> Apply(q, op).contents == Without(q.contents, op.at) && Apply(q, op).served == q.served
  {
    hide Without;
  }

  lemma ContentsLength(l: List)
    ensures |l.Contents()| == |l.nodes|
  {
  }

  // One operation on a list.
  method PerformOne(l: List, op: Op<Entry>, ghost q: Queue<Entry>, served: seq<int>) returns (served': seq<int>)
    requires l.Valid() && l.Contents() == q.contents && served == Data(q.served)
    requires op.Remove? ==> op.at < |q.contents|
    modifies l, l.nodes
    ensures l.Valid() && l.Contents() == Apply(q, op).contents && served' == Data(Apply(q, op).served)
    ensures forall n <- l.nodes :: n in old(l.nodes) || fresh(n)
  {
    hide *;
    served' := served;
    ApplyIs(q, op);
    ContentsLength(l);
    match op
    case Insert(x) =>
      var r := l.Insert(x.data, x.threadID, true);
      assert forall n <- l.nodes :: n == l.nodes[0] || n in l.nodes[1..];
    case Refused =>
      var r := l.Insert(0, 0, false);
    case Dequeue =>
      var r, data := l.Dequeue();
      if r == 0 {
        served' := served + [data];
        DataOneMore(q.served, q.contents[|q.contents| - 1]);
      }
    case Remove(at) =>
      var node := NodeAt(l, at);
      l.Remove(node, at);
      WithoutWithin(old(l.nodes), at);
  }

  lemma WithoutWithin<T>(s: seq<T>, i: nat)
    requires i < |s|
    ensures forall x <- Without(s, i) :: x in s
  {
  }

  // Any mix of operations on a list does what Apply says, one after the other, and so Fifo and OrderMoves
  // speak of the list: of what it holds, and of what list_dequeue has handed out.
  method Perform(l: List, ops: seq<Op<Entry>>) returns (served: seq<int>)
    requires l.Valid() && Possible(Queue(l.Contents(), []), ops)
    modifies l, l.nodes
    ensures l.Valid() && Possible(Queue(old(l.Contents()), []), ops)
    ensures var q := After(Queue(old(l.Contents()), []), ops); l.Contents() == q.contents && served == Data(q.served)
  {
    hide *;
    ghost var start: Queue<Entry> := Queue(l.Contents(), []);
    ghost var q := start;
    NoData();
    served := [];
    var i := 0;
    assert ops[0..] == ops;
    while i < |ops|
      invariant 0 <= i <= |ops| && l.Valid() && l.Contents() == q.contents && served == Data(q.served)
      invariant Possible(start, ops) && Possible(q, ops[i..]) && After(q, ops[i..]) == After(start, ops)
      invariant forall n <- l.nodes :: n in old(l.nodes) || fresh(n)
    {
      OneOff(q, ops, i);
      assert forall k :: 0 <= k < |l.nodes| ==> l.nodes[k] in old(l.nodes) || fresh(l.nodes[k]);
      served := PerformOne(l, ops[i], q, served);
      q := Apply(q, ops[i]);
      i := i + 1;
    }
    AllOff(q, ops);
  }

  lemma OneOff<T>(q: Queue<T>, ops: seq<Op<T>>, i: nat)
    requires i < |ops| && Possible(q, ops[i..])
    ensures ops[i].Remove? ==> ops[i].at < |q.contents|
    ensures Possible(Apply(q, ops[i]), ops[i + 1..]) && After(q, ops[i..]) == After(Apply(q, ops[i]), ops[i + 1..])
  {
    hide Apply;
    assert ops[i..][0] == ops[i] && ops[i..][1..] == ops[i + 1..];
  }

  lemma AllOff<T>(q: Queue<T>, ops: seq<Op<T>>)
    requires Possible(q, ops[|ops|..])
    ensures After(q, ops[|ops|..]) == q
  {
  }

  lemma NoData()
    ensures Data([]) == []
  {
  }
}
