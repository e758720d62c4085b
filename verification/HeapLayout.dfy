// The memory of the allocator in 410user/libmalloc/malloc.c: bytes, 8-byte words, boundary tags, and
// the tiling of the heap by blocks.

module HeapLayout {
  import opened MachineWord

  // Byte-addressed memory; the mapped addresses are the keys.
  type Memory = map<int, int>

  // The 64-bit word stored at a, least significant byte first.
  function ReadWord(mem: Memory, a: int): int {
    Byte(mem, a) + 0x100 * Byte(mem, a + 1) + 0x1_0000 * Byte(mem, a + 2) + 0x100_0000 * Byte(mem, a + 3)
    + 0x1_0000_0000 * Byte(mem, a + 4) + 0x100_0000_0000 * Byte(mem, a + 5)
    + 0x1_0000_0000_0000 * Byte(mem, a + 6) + 0x100_0000_0000_0000 * Byte(mem, a + 7)
  }

  // Reads outside the mapped addresses have no meaning; every read in the allocator is proved mapped.
  function Byte(mem: Memory, a: int): int { if a in mem then mem[a] else 0 }

  function WriteWord(mem: Memory, a: int, w: int): Memory
  {
    mem[a := w % 0x100]
       [a + 1 := w / 0x100 % 0x100]
       [a + 2 := w / 0x1_0000 % 0x100]
       [a + 3 := w / 0x100_0000 % 0x100]
       [a + 4 := w / 0x1_0000_0000 % 0x100]
       [a + 5 := w / 0x100_0000_0000 % 0x100]
       [a + 6 := w / 0x1_0000_0000_0000 % 0x100]
       [a + 7 := w / 0x100_0000_0000_0000 % 0x100]
  }

  ghost predicate Mapped(mem: Memory, lo: int, hi: int) {
    forall k :: lo <= k < hi ==> k in mem
  }

  // The memories have the same addresses and differ at most in lo..hi.
  ghost predicate Agree(m: Memory, m': Memory, lo: int, hi: int) {
    && m'.Keys == m.Keys
    && forall a :: a in m && !(lo <= a < hi) ==> m'[a] == m[a]
  }

  // Splitting a word into its bytes and putting them together.
  lemma BytesOfWord(w: int)
    requires 0 <= w < 0x1_0000_0000_0000_0000
    ensures w == w % 0x100 + 0x100 * (w / 0x100 % 0x100) + 0x1_0000 * (w / 0x1_0000 % 0x100)
                 + 0x100_0000 * (w / 0x100_0000 % 0x100) + 0x1_0000_0000 * (w / 0x1_0000_0000 % 0x100)
                 + 0x100_0000_0000 * (w / 0x100_0000_0000 % 0x100)
                 + 0x1_0000_0000_0000 * (w / 0x1_0000_0000_0000 % 0x100)
                 + 0x100_0000_0000_0000 * (w / 0x100_0000_0000_0000 % 0x100)
  {
    assert w / 0x100 / 0x100 == w / 0x1_0000;
    assert w / 0x1_0000 / 0x100 == w / 0x100_0000;
    assert w / 0x100_0000 / 0x100 == w / 0x1_0000_0000;
    assert w / 0x1_0000_0000 / 0x100 == w / 0x100_0000_0000;
    assert w / 0x100_0000_0000 / 0x100 == w / 0x1_0000_0000_0000;
    assert w / 0x1_0000_0000_0000 / 0x100 == w / 0x100_0000_0000_0000;
  }

  // A word reads back as written, and no byte outside it changes.
  lemma WordRoundTrip(mem: Memory, a: int, w: int)
    requires Mapped(mem, a, a + 8) && 0 <= w < 0x1_0000_0000_0000_0000
    ensures Mapped(WriteWord(mem, a, w), a, a + 8) && ReadWord(WriteWord(mem, a, w), a) == w
    ensures Agree(mem, WriteWord(mem, a, w), a, a + 8)
  {
    BytesOfWord(w);
    assert WriteWord(mem, a, w).Keys == mem.Keys;
  }

  lemma WordKept(m: Memory, m': Memory, a: int, lo: int, hi: int)
    requires Agree(m, m', lo, hi) && (a + 8 <= lo || hi <= a)
    ensures ReadWord(m', a) == ReadWord(m, a)
  {
  }

  // Header and footer hold the same tag: the size with the allocation bit in it.
  function Pack(size: int, alloc: bool): int { if alloc then size + 1 else size }

  function ExtractSize(word: int): int { U32(word - word % 16) }

  function ExtractAlloc(word: int): bool { word % 2 == 1 }

  lemma PackRoundTrip(size: int, alloc: bool)
    requires 0 <= size < WORD32 && size % 16 == 0
    ensures ExtractSize(Pack(size, alloc)) == size && ExtractAlloc(Pack(size, alloc)) == alloc
    ensures 0 <= Pack(size, alloc) < 0x1_0000_0000_0000_0000
  {
  }

  datatype Block = Block(addr: int, size: int, alloc: bool)

  // The part of an allocated block that belongs to the client.
  datatype Payload = Payload(ptr: int, size: int)

  predicate GoodSize(size: int) { size >= 32 && size % 16 == 0 }

  // Stepping from lo by block sizes passes exactly these blocks and lands on hi.
  ghost predicate Tiles(bs: seq<Block>, lo: int, hi: int) {
    if bs == [] then lo == hi
    else bs[0].addr == lo && GoodSize(bs[0].size) && Tiles(bs[1..], lo + bs[0].size, hi)
  }

  // Where block i starts, or where the blocks end.
  ghost function StartOf(bs: seq<Block>, i: nat, hi: int): int
    requires i <= |bs|
  {
    if i < |bs| then bs[i].addr else hi
  }

  lemma {:induction false} TilesConcat(a: seq<Block>, b: seq<Block>, lo: int, mid: int, hi: int)
    requires Tiles(a, lo, mid) && Tiles(b, mid, hi)
    ensures Tiles(a + b, lo, hi)
  {
    if a == [] {
      assert a + b == b;
    } else {
      TilesConcat(a[1..], b, lo + a[0].size, mid, hi);
      assert (a + b)[1..] == a[1..] + b;
    }
  }

  lemma {:induction false} TilesSplit(bs: seq<Block>, lo: int, hi: int, i: nat)
    requires Tiles(bs, lo, hi) && i <= |bs|
    ensures Tiles(bs[..i], lo, StartOf(bs, i, hi)) && Tiles(bs[i..], StartOf(bs, i, hi), hi)
  {
    if i > 0 {
      TilesSplit(bs[1..], lo + bs[0].size, hi, i - 1);
      assert bs[..i][1..] == bs[1..][..i - 1] && bs[i..] == bs[1..][i - 1..];
    } else {
      assert bs[..0] == [] && bs[0..] == bs;
    }
  }

  lemma {:induction false} TilesBounds(bs: seq<Block>, lo: int, hi: int)
    requires Tiles(bs, lo, hi)
    ensures lo <= hi && (hi - lo) % 16 == 0
    ensures forall i :: 0 <= i < |bs| ==>
              lo <= bs[i].addr && bs[i].addr + bs[i].size <= hi && GoodSize(bs[i].size) && (bs[i].addr - lo) % 16 == 0
  {
    if bs != [] {
      TilesBounds(bs[1..], lo + bs[0].size, hi);
      forall i | 0 <= i < |bs| ensures lo <= bs[i].addr && bs[i].addr + bs[i].size <= hi && GoodSize(bs[i].size)
                                       && (bs[i].addr - lo) % 16 == 0 {
        if i > 0 {
          assert bs[i] == bs[1..][i - 1];
        }
      }
    }
  }

  // The next block starts where a block ends.
  lemma TilesNext(bs: seq<Block>, lo: int, hi: int, i: nat)
    requires Tiles(bs, lo, hi) && i < |bs|
    ensures bs[i].addr + bs[i].size == StartOf(bs, i + 1, hi)
  {
    TilesSplit(bs, lo, hi, i);
    TilesSplit(bs[i..], bs[i].addr, hi, 1);
    assert bs[i..][..1] == [bs[i]];
    assert Tiles([bs[i]], bs[i].addr, StartOf(bs[i..], 1, hi));
    assert [bs[i]][1..] == [];
  }

  // An earlier block ends before a later one starts.
  lemma TilesOrdered(bs: seq<Block>, lo: int, hi: int, i: nat, j: nat)
    requires Tiles(bs, lo, hi) && i < j < |bs|
    ensures bs[i].addr + bs[i].size <= bs[j].addr
  {
    TilesSplit(bs, lo, hi, j);
    TilesBounds(bs[..j], lo, bs[j].addr);
    assert bs[..j][i] == bs[i];
  }

  // The block carries its tag at both ends.
  ghost predicate TaggedBlock(mem: Memory, b: Block) {
    && Mapped(mem, b.addr, b.addr + b.size) && b.size >= 16
    && ReadWord(mem, b.addr) == Pack(b.size, b.alloc)
    && ReadWord(mem, b.addr + b.size - 8) == Pack(b.size, b.alloc)
  }

  ghost predicate Tagged(mem: Memory, bs: seq<Block>) {
    forall i :: 0 <= i < |bs| ==> TaggedBlock(mem, bs[i])
  }

  // A heap: prologue footer before lo, blocks from lo to the epilogue header at end.
  ghost predicate Layout(mem: Memory, lo: int, end: int, bs: seq<Block>) {
    && Tiles(bs, lo, end) && Tagged(mem, bs)
    && Mapped(mem, lo - 8, end + 8)
    && ReadWord(mem, lo - 8) == Pack(0, true)
    && ReadWord(mem, end) == Pack(0, true)
  }

  ghost predicate NoFreePair(bs: seq<Block>) {
    forall i :: 0 <= i < |bs| - 1 ==> bs[i].alloc || bs[i + 1].alloc
  }

  ghost function PayloadOf(b: Block): Payload { Payload(b.addr + 8, b.size - 16) }

  // The payloads in the hands of clients.
  ghost function Live(bs: seq<Block>): set<Payload> {
    set b | b in bs && b.alloc :: PayloadOf(b)
  }

  ghost predicate PayloadKept(m: Memory, m': Memory, p: Payload) {
    forall a :: p.ptr <= a < p.ptr + p.size ==> a in m && a in m' && m'[a] == m[a]
  }

  ghost predicate PayloadsKept(m: Memory, m': Memory, ps: set<Payload>) {
    forall p :: p in ps ==> PayloadKept(m, m', p)
  }

  ghost predicate Disjoint(p: Payload, q: Payload) {
    p.ptr + p.size <= q.ptr || q.ptr + q.size <= p.ptr
  }

  // Payloads lie inside the heap, are aligned, and do not overlap.
  lemma LiveSeparate(bs: seq<Block>, lo: int, hi: int)
    requires Tiles(bs, lo, hi) && lo % 16 == 8
    ensures forall p :: p in Live(bs) ==> lo + 8 <= p.ptr && p.ptr + p.size <= hi - 8 && p.ptr % 16 == 0 && p.size >= 16
    ensures forall p, q :: p in Live(bs) && q in Live(bs) && p != q ==> Disjoint(p, q)
  {
    TilesBounds(bs, lo, hi);
    forall p, q | p in Live(bs) && q in Live(bs) && p != q ensures Disjoint(p, q) {
      var i :| 0 <= i < |bs| && bs[i].alloc && PayloadOf(bs[i]) == p;
      var j :| 0 <= j < |bs| && bs[j].alloc && PayloadOf(bs[j]) == q;
      if i < j {
        TilesOrdered(bs, lo, hi, i, j);
      } else {
        TilesOrdered(bs, lo, hi, j, i);
      }
    }
  }

  lemma LiveConcat(a: seq<Block>, b: seq<Block>)
    ensures Live(a + b) == Live(a) + Live(b)
  {
  }

  lemma LiveOne(b: Block)
    ensures Live([b]) == if b.alloc then {PayloadOf(b)} else {}
  {
    assert forall c :: c in [b] <==> c == b;
  }

  lemma TagKept(m: Memory, m': Memory, b: Block, lo: int, hi: int)
    requires TaggedBlock(m, b) && Agree(m, m', lo, hi) && (b.addr + b.size <= lo || hi <= b.addr)
    ensures TaggedBlock(m', b)
  {
    WordKept(m, m', b.addr, lo, hi);
    WordKept(m, m', b.addr + b.size - 8, lo, hi);
  }

  // The blocks of a stretch of the heap that a write does not reach keep their tags and payloads.
  lemma StretchKept(m: Memory, m': Memory, bs: seq<Block>, lo: int, hi: int, wlo: int, whi: int)
    requires Tiles(bs, lo, hi) && Tagged(m, bs) && Agree(m, m', wlo, whi) && (hi <= wlo || whi <= lo)
    ensures Tagged(m', bs) && PayloadsKept(m, m', Live(bs))
  {
    TilesBounds(bs, lo, hi);
    forall i | 0 <= i < |bs| ensures TaggedBlock(m', bs[i]) {
      TagKept(m, m', bs[i], wlo, whi);
    }
    forall p | p in Live(bs) ensures PayloadKept(m, m', p) {
      var i :| 0 <= i < |bs| && bs[i].alloc && PayloadOf(bs[i]) == p;
      assert TaggedBlock(m, bs[i]);
    }
  }

  // Replacing the blocks i..j by others on the same stretch of memory keeps the layout, and every
  // payload outside the stretch.
  lemma Replace(m: Memory, m': Memory, lo: int, end: int, bs: seq<Block>, i: nat, j: nat, nb: seq<Block>)
    requires Layout(m, lo, end, bs) && i < j <= |bs|
    requires Tiles(nb, bs[i].addr, StartOf(bs, j, end)) && Tagged(m', nb)
    requires Agree(m, m', bs[i].addr, StartOf(bs, j, end))
    ensures Layout(m', lo, end, bs[..i] + nb + bs[j..])
    ensures Live(bs[..i] + nb + bs[j..]) == Live(bs[..i]) + Live(nb) + Live(bs[j..])
    ensures PayloadsKept(m, m', Live(bs[..i]) + Live(bs[j..]))
  {
    hide Live, Tagged, TaggedBlock, ReadWord, Agree;
    var a, e := bs[i].addr, StartOf(bs, j, end);
    TilesSplit(bs, lo, end, i);
    TilesSplit(bs, lo, end, j);
    TilesBounds(bs[..i], lo, a);
    TilesBounds(bs[j..], e, end);
    TaggedParts(m, bs, i, j);
    StretchKept(m, m', bs[..i], lo, a, a, e);
    StretchKept(m, m', bs[j..], e, end, a, e);
    TilesConcat(bs[..i], nb, lo, a, e);
    TilesConcat(bs[..i] + nb, bs[j..], lo, e, end);
    TaggedConcat(m', bs[..i], nb, bs[j..]);
    LiveConcat(bs[..i], nb);
    LiveConcat(bs[..i] + nb, bs[j..]);
    WordKept(m, m', lo - 8, a, e);
    WordKept(m, m', end, a, e);
    AgreeMapped(m, m', a, e, lo - 8, end + 8);
  }

  lemma AgreeMapped(m: Memory, m': Memory, a: int, e: int, lo: int, hi: int)
    requires Agree(m, m', a, e) && Mapped(m, lo, hi)
    ensures Mapped(m', lo, hi)
  {
  }

  lemma TaggedParts(m: Memory, bs: seq<Block>, i: nat, j: nat)
    requires Tagged(m, bs) && i <= j <= |bs|
    ensures Tagged(m, bs[..i]) && Tagged(m, bs[j..])
  {
  }

  lemma TaggedConcat(m: Memory, a: seq<Block>, b: seq<Block>, c: seq<Block>)
    requires Tagged(m, a) && Tagged(m, b) && Tagged(m, c)
    ensures Tagged(m, a + b + c)
  {
  }

  // Turning the old epilogue into a block and writing a new epilogue behind it.
  lemma Extend(m: Memory, m': Memory, lo: int, end: int, bs: seq<Block>, b: Block)
    requires Layout(m, lo, end, bs) && b.addr == end && GoodSize(b.size) && TaggedBlock(m', b)
    requires Agree(m, m', end, end + b.size + 8)
    requires Mapped(m', lo - 8, end + b.size + 8) && ReadWord(m', end + b.size) == Pack(0, true)
    ensures Layout(m', lo, end + b.size, bs + [b])
    ensures Live(bs + [b]) == Live(bs) + Live([b]) && PayloadsKept(m, m', Live(bs))
  {
    hide Live, Tagged, TaggedBlock, ReadWord, Agree;
    TilesBounds(bs, lo, end);
    StretchKept(m, m', bs, lo, end, end, end + b.size + 8);
    TilesOne(b);
    TilesConcat(bs, [b], lo, end, end + b.size);
    TaggedOne(m', b);
    TaggedConcat(m', bs, [b], []);
    assert bs + [b] + [] == bs + [b];
    LiveConcat(bs, [b]);
    WordKept(m, m', lo - 8, end, end + b.size + 8);
  }

  lemma TilesOne(b: Block)
    requires GoodSize(b.size)
    ensures Tiles([b], b.addr, b.addr + b.size)
  {
    assert [b][1..] == [];
  }

  lemma TaggedOne(m: Memory, b: Block)
    requires TaggedBlock(m, b)
    ensures Tagged(m, [b]) && Tagged(m, [])
  {
  }

  // Writing a block's two tags, header first.
  lemma TagWritten(m: Memory, a: int, size: int, alloc: bool)
    requires Mapped(m, a, a + size) && 16 <= size < WORD32 && size % 16 == 0
    ensures var m1 := WriteWord(m, a, Pack(size, alloc));
            var m2 := WriteWord(m1, a + size - 8, Pack(size, alloc));
            && ExtractSize(ReadWord(m1, a)) == size && Mapped(m1, a, a + size)
            && TaggedBlock(m2, Block(a, size, alloc)) && Agree(m, m2, a, a + size)
  {
    hide ReadWord, WriteWord;
    var w := Pack(size, alloc);
    PackRoundTrip(size, alloc);
    WordRoundTrip(m, a, w);
    var m1 := WriteWord(m, a, w);
    AgreeMapped(m, m1, a, a + 8, a, a + size);
    WordRoundTrip(m1, a + size - 8, w);
    var m2 := WriteWord(m1, a + size - 8, w);
    AgreeMapped(m1, m2, a + size - 8, a + size, a, a + size);
    WordKept(m1, m2, a, a + size - 8, a + size);
  }

  lemma AgreeTrans(m: Memory, m1: Memory, m2: Memory, lo: int, hi: int, lo1: int, hi1: int, lo2: int, hi2: int)
    requires Agree(m, m1, lo1, hi1) && Agree(m1, m2, lo2, hi2)
    requires lo <= lo1 && hi1 <= hi && lo <= lo2 && hi2 <= hi
    ensures Agree(m, m2, lo, hi)
  {
  }

  // The words next to block i: the footer before it and the header after it.
  lemma Neighbours(mem: Memory, lo: int, end: int, bs: seq<Block>, i: nat)
    requires Layout(mem, lo, end, bs) && i < |bs|
    ensures lo <= bs[i].addr && bs[i].addr + bs[i].size <= end && bs[i].size >= 32 && bs[i].size % 16 == 0
    ensures TaggedBlock(mem, bs[i]) && Mapped(mem, bs[i].addr - 8, bs[i].addr + bs[i].size + 8)
    ensures ReadWord(mem, bs[i].addr - 8) == if i == 0 then Pack(0, true) else Pack(bs[i - 1].size, bs[i - 1].alloc)
    ensures i > 0 ==> lo <= bs[i - 1].addr && bs[i - 1].addr + bs[i - 1].size == bs[i].addr
    ensures i > 0 ==> bs[i - 1].size >= 32 && bs[i - 1].size % 16 == 0
    ensures bs[i].addr + bs[i].size == if i + 1 < |bs| then bs[i + 1].addr else end
    ensures ReadWord(mem, bs[i].addr + bs[i].size)
         == if i + 1 < |bs| then Pack(bs[i + 1].size, bs[i + 1].alloc) else Pack(0, true)
    ensures i + 1 < |bs| ==> bs[i + 1].size >= 32 && bs[i + 1].size % 16 == 0
    ensures i + 1 < |bs| ==> bs[i + 1].addr + bs[i + 1].size == if i + 2 < |bs| then bs[i + 2].addr else end
    ensures i + 1 < |bs| ==> bs[i + 1].addr + bs[i + 1].size <= end
  {
    hide ReadWord;
    TilesBounds(bs, lo, end);
    TilesNext(bs, lo, end, i);
    assert TaggedBlock(mem, bs[i]);
    if i > 0 {
      TilesNext(bs, lo, end, i - 1);
      assert TaggedBlock(mem, bs[i - 1]);
    }
    if i + 1 < |bs| {
      TilesNext(bs, lo, end, i + 1);
      assert TaggedBlock(mem, bs[i + 1]);
    }
  }

  lemma TilesTwo(a: Block, b: Block)
    requires GoodSize(a.size) && GoodSize(b.size) && a.addr + a.size == b.addr
    ensures Tiles([a, b], a.addr, b.addr + b.size)
  {
    assert [a, b][1..] == [b];
    TilesOne(b);
  }

  lemma TaggedTwo(m: Memory, a: Block, b: Block)
    requires TaggedBlock(m, a) && TaggedBlock(m, b)
    ensures Tagged(m, [a, b])
  {
  }

  // The payloads of the blocks i..j apart from those before and after.
  lemma LiveParts(bs: seq<Block>, i: nat, j: nat)
    requires i <= j <= |bs|
    ensures Live(bs) == Live(bs[..i]) + Live(bs[i..j]) + Live(bs[j..])
  {
    assert bs == bs[..i] + bs[i..j] + bs[j..];
    LiveConcat(bs[..i], bs[i..j]);
    LiveConcat(bs[..i] + bs[i..j], bs[j..]);
  }

  // The first free block of at least n bytes, or the number of blocks if there is none.
  ghost function FirstFit(bs: seq<Block>, n: int): (i: nat)
    ensures i <= |bs|
    ensures i < |bs| ==> !bs[i].alloc && n <= bs[i].size
    ensures forall k :: 0 <= k < i ==> bs[k].alloc || bs[k].size < n
  {
    if bs == [] then 0
    else if !bs[0].alloc && n <= bs[0].size then 0
    else
      var i := FirstFit(bs[1..], n);
      assert forall k :: 0 < k < i + 1 ==> bs[k] == bs[1..][k - 1];
      i + 1
  }

  lemma FirstFitIs(bs: seq<Block>, n: int, i: nat)
    requires i <= |bs| && (i < |bs| ==> !bs[i].alloc && n <= bs[i].size)
    requires forall k :: 0 <= k < i ==> bs[k].alloc || bs[k].size < n
    ensures FirstFit(bs, n) == i
  {
  }

  // Only the pairs that block i belongs to may be free.
  ghost predicate FreePairOnlyAt(bs: seq<Block>, i: nat) {
    forall k :: 0 <= k < |bs| - 1 && k != i && k + 1 != i ==> bs[k].alloc || bs[k + 1].alloc
  }

  // Joining the free block i with the free neighbours among the blocks i0..j.
  lemma MergeFree(m: Memory, m': Memory, lo: int, end: int, bs: seq<Block>, i: nat, i0: nat, j: nat, b: Block)
    requires Layout(m, lo, end, bs) && FreePairOnlyAt(bs, i) && i0 <= i < j <= |bs| && i <= i0 + 1 && j <= i + 2
    requires forall k :: i0 <= k < j ==> !bs[k].alloc
    requires i0 == i ==> i == 0 || bs[i - 1].alloc
    requires j == i + 1 ==> j == |bs| || bs[j].alloc
    requires b == Block(bs[i0].addr, StartOf(bs, j, end) - bs[i0].addr, false)
    requires TaggedBlock(m', b) && Agree(m, m', bs[i0].addr, StartOf(bs, j, end))
    ensures var bs' := bs[..i0] + [b] + bs[j..];
            && Layout(m', lo, end, bs') && NoFreePair(bs') && bs'[i0] == b && b.size >= bs[i].size
            && Live(bs') == Live(bs) && PayloadsKept(m, m', Live(bs))
  {
    hide Live, TaggedBlock, Agree, ReadWord;
    TilesBounds(bs, lo, end);
    MergedTiles(bs, lo, end, i0, j);
    TilesOne(b);
    TaggedOne(m', b);
    hide Layout, Tagged, PayloadsKept;
    Replace(m, m', lo, end, bs, i0, j, [b]);
    LiveParts(bs, i0, j);
    LiveFree(bs[i0..j]);
    LiveOne(b);
    MergedOrder(bs, lo, end, i, i0, j);
    MergedPairs(bs, i, i0, j, b);
  }

  lemma MergedPairs(bs: seq<Block>, i: nat, i0: nat, j: nat, b: Block)
    requires FreePairOnlyAt(bs, i) && i0 <= i < j <= |bs| && i <= i0 + 1 && j <= i + 2
    requires forall k :: i0 <= k < j ==> !bs[k].alloc
    requires i0 == i ==> i == 0 || bs[i - 1].alloc
    requires j == i + 1 ==> j == |bs| || bs[j].alloc
    ensures NoFreePair(bs[..i0] + [b] + bs[j..])
  {
    var bs' := bs[..i0] + [b] + bs[j..];
    assert !bs[i0].alloc && !bs[j - 1].alloc;
    assert i0 < i && i0 > 0 ==> bs[i0 - 1].alloc;
    assert j == i + 2 && j < |bs| ==> bs[j].alloc;
    forall k | 0 <= k < |bs'| - 1 ensures bs'[k].alloc || bs'[k + 1].alloc {
      if k + 1 < i0 {
        assert bs'[k] == bs[k] && bs'[k + 1] == bs[k + 1];
      } else if k > i0 {
        assert bs'[k] == bs[k - i0 - 1 + j] && bs'[k + 1] == bs[k - i0 - 1 + j + 1];
      }
    }
  }

  lemma MergedTiles(bs: seq<Block>, lo: int, end: int, i0: nat, j: nat)
    requires Tiles(bs, lo, end) && i0 < j <= |bs|
    ensures lo <= bs[i0].addr && StartOf(bs, j, end) <= end
    ensures GoodSize(StartOf(bs, j, end) - bs[i0].addr)
    ensures Tiles([Block(bs[i0].addr, StartOf(bs, j, end) - bs[i0].addr, false)], bs[i0].addr, StartOf(bs, j, end))
  {
    TilesSplit(bs, lo, end, j);
    TilesSplit(bs[..j], lo, StartOf(bs, j, end), i0);
    TilesBounds(bs[..j][i0..], bs[i0].addr, StartOf(bs, j, end));
    assert bs[..j][i0..][0] == bs[i0];
    TilesBounds(bs, lo, end);
    hide Tiles;
    TilesOne(Block(bs[i0].addr, StartOf(bs, j, end) - bs[i0].addr, false));
  }

  // What coalesce is about to write: the size is the sum of the sizes joined, and all of it is mapped.
  lemma MergePlan(mem: Memory, lo: int, end: int, bs: seq<Block>, i: nat, i0: nat, j: nat)
    requires Layout(mem, lo, end, bs) && i0 <= i < j <= |bs| && i <= i0 + 1 && j <= i + 2 && 0 <= lo && end < WORD32
    ensures var size := StartOf(bs, j, end) - bs[i0].addr;
            && 16 <= size < WORD32 && size % 16 == 0 && Mapped(mem, bs[i0].addr, bs[i0].addr + size)
            && size == bs[i].size + (if j == i + 2 then bs[i + 1].size else 0) + (if i0 < i then bs[i - 1].size else 0)
  {
    hide ReadWord, Tiles, Tagged;
    MergedTiles(bs, lo, end, i0, j);
    Neighbours(mem, lo, end, bs, i);
  }

  lemma MergedOrder(bs: seq<Block>, lo: int, end: int, i: nat, i0: nat, j: nat)
    requires Tiles(bs, lo, end) && i0 <= i < j <= |bs|
    ensures StartOf(bs, j, end) - bs[i0].addr >= bs[i].size
  {
    TilesNext(bs, lo, end, i);
    TilesBounds(bs, lo, end);
    if i0 < i {
      TilesOrdered(bs, lo, end, i0, i);
    }
    if i + 1 < j {
      TilesNext(bs, lo, end, j - 1);
      TilesOrdered(bs, lo, end, i, j - 1);
    }
  }

  lemma LiveFree(bs: seq<Block>)
    requires forall k :: 0 <= k < |bs| ==> !bs[k].alloc
    ensures Live(bs) == {}
  {
  }

  // Handing out the free block i, whole or as the first part of a split.
  lemma PlaceBlocks(m: Memory, m': Memory, lo: int, end: int, bs: seq<Block>, i: nat, nb: seq<Block>)
    requires Layout(m, lo, end, bs) && NoFreePair(bs) && i < |bs| && !bs[i].alloc
    requires 1 <= |nb| <= 2 && nb[0].alloc && (|nb| == 2 ==> !nb[1].alloc)
    requires Tiles(nb, bs[i].addr, bs[i].addr + bs[i].size) && Tagged(m', nb)
    requires Agree(m, m', bs[i].addr, bs[i].addr + bs[i].size)
    ensures var bs' := bs[..i] + nb + bs[i + 1..];
            && Layout(m', lo, end, bs') && NoFreePair(bs')
            && Live(bs') == Live(bs) + {PayloadOf(nb[0])} && PayloadsKept(m, m', Live(bs))
  {
    hide Layout, Tagged, Tiles, Live, PayloadsKept, Agree, NoFreePair;
    LayoutTiles(m, lo, end, bs);
    TilesNext(bs, lo, end, i);
    Replace(m, m', lo, end, bs, i, i + 1, nb);
    LiveParts(bs, i, i + 1);
    LiveFree(bs[i..i + 1]);
    assert Live(bs) == Live(bs[..i]) + Live(bs[i + 1..]);
    LiveOne(nb[0]);
    if |nb| == 2 {
      LiveOne(nb[1]);
      assert nb == [nb[0]] + [nb[1]];
      LiveConcat([nb[0]], [nb[1]]);
    } else {
      assert nb == [nb[0]];
    }
    PlacedPairs(bs, i, nb);
  }

  lemma LayoutTiles(m: Memory, lo: int, end: int, bs: seq<Block>)
    requires Layout(m, lo, end, bs)
    ensures Tiles(bs, lo, end)
  {
  }

  lemma PlacedPairs(bs: seq<Block>, i: nat, nb: seq<Block>)
    requires NoFreePair(bs) && i < |bs| && !bs[i].alloc
    requires 1 <= |nb| <= 2 && nb[0].alloc
    ensures NoFreePair(bs[..i] + nb + bs[i + 1..])
  {
    var bs' := bs[..i] + nb + bs[i + 1..];
    assert i + 1 < |bs| ==> bs[i + 1].alloc;
    forall k | 0 <= k < |bs'| - 1 ensures bs'[k].alloc || bs'[k + 1].alloc {
      if k + 1 < i {
        assert bs'[k] == bs[k] && bs'[k + 1] == bs[k + 1];
      } else if k >= i + |nb| {
        assert bs'[k] == bs[k - |nb| + 1] && bs'[k + 1] == bs[k - |nb| + 2];
      }
    }
  }

  // Releasing the allocated block i; only pairs at i may now be free.
  lemma ReleaseBlock(m: Memory, m': Memory, lo: int, end: int, bs: seq<Block>, i: nat)
    requires Layout(m, lo, end, bs) && NoFreePair(bs) && i < |bs| && bs[i].alloc && lo % 16 == 8
    requires TaggedBlock(m', bs[i].(alloc := false)) && Agree(m, m', bs[i].addr, bs[i].addr + bs[i].size)
    ensures var bs' := bs[i := bs[i].(alloc := false)];
            && Layout(m', lo, end, bs') && FreePairOnlyAt(bs', i)
            && Live(bs') == Live(bs) - {PayloadOf(bs[i])}
            && PayloadsKept(m, m', Live(bs'))
  {
    hide Layout, Tagged, Tiles, Live, PayloadsKept, Agree, TaggedBlock, NoFreePair, FreePairOnlyAt;
    var b := bs[i].(alloc := false);
    LayoutTiles(m, lo, end, bs);
    TilesNext(bs, lo, end, i);
    TilesBounds(bs, lo, end);
    TilesOne(b);
    TaggedOne(m', b);
    Replace(m, m', lo, end, bs, i, i + 1, [b]);
    ReleasedPairs(bs, i);
    assert bs[..i] + [b] + bs[i + 1..] == bs[i := b];
    LiveOne(b);
    assert Live(bs[i := b]) == Live(bs[..i]) + Live(bs[i + 1..]);
    LiveParts(bs, i, i + 1);
    assert bs[i..i + 1] == [bs[i]];
    LiveOne(bs[i]);
    NotElsewhere(bs, lo, end, i);
  }

  lemma ReleasedPairs(bs: seq<Block>, i: nat)
    requires NoFreePair(bs) && i < |bs|
    ensures FreePairOnlyAt(bs[i := bs[i].(alloc := false)], i)
  {
  }

  // The payload of block i belongs to no other block.
  lemma NotElsewhere(bs: seq<Block>, lo: int, end: int, i: nat)
    requires Tiles(bs, lo, end) && i < |bs|
    ensures PayloadOf(bs[i]) !in Live(bs[..i]) && PayloadOf(bs[i]) !in Live(bs[i + 1..])
  {
    forall k | 0 <= k < |bs| && k != i ensures bs[k].addr != bs[i].addr {
      TilesBounds(bs, lo, end);
      if k < i {
        TilesOrdered(bs, lo, end, k, i);
      } else {
        TilesOrdered(bs, lo, end, i, k);
      }
    }
  }

  lemma KeptTrans(m: Memory, m1: Memory, m2: Memory, ps: set<Payload>, qs: set<Payload>)
    requires PayloadsKept(m, m1, ps) && PayloadsKept(m1, m2, qs)
    ensures PayloadsKept(m, m2, ps * qs)
  {
    forall p | p in ps * qs ensures PayloadKept(m, m2, p) {
      assert PayloadKept(m, m1, p) && PayloadKept(m1, m2, p);
    }
  }

  ghost predicate Grows(m: Memory, m': Memory) {
    forall a :: a in m ==> a in m' && m'[a] == m[a]
  }

  // Mapping more memory changes nothing in the heap.
  lemma Grow(m: Memory, m': Memory, lo: int, end: int, bs: seq<Block>)
    requires Layout(m, lo, end, bs) && Grows(m, m')
    ensures Layout(m', lo, end, bs) && PayloadsKept(m, m', Live(bs))
  {
    TilesBounds(bs, lo, end);
    forall i | 0 <= i < |bs| ensures TaggedBlock(m', bs[i]) {
      GrowWord(m, m', bs[i].addr);
      GrowWord(m, m', bs[i].addr + bs[i].size - 8);
    }
    GrowWord(m, m', lo - 8);
    GrowWord(m, m', end);
  }

  lemma GrowWord(m: Memory, m': Memory, a: int)
    requires Mapped(m, a, a + 8) && Grows(m, m')
    ensures ReadWord(m', a) == ReadWord(m, a)
  {
    assert a in m && a + 1 in m && a + 2 in m && a + 3 in m && a + 4 in m && a + 5 in m && a + 6 in m && a + 7 in m;
  }

  lemma AppendedPairs(bs: seq<Block>, b: Block)
    requires NoFreePair(bs)
    ensures FreePairOnlyAt(bs + [b], |bs|)
  {
  }

  // A client writing inside its payload disturbs neither the tags nor any other payload.
  lemma PayloadWrite(m: Memory, m': Memory, lo: int, end: int, bs: seq<Block>, p: Payload)
    requires Layout(m, lo, end, bs) && p in Live(bs) && lo % 16 == 8
    requires Agree(m, m', p.ptr, p.ptr + p.size)
    ensures Layout(m', lo, end, bs) && PayloadsKept(m, m', Live(bs) - {p})
  {
    hide Tiles, Live, Agree, ReadWord, PayloadKept, Disjoint, TaggedBlock, Pack;
    LiveSeparate(bs, lo, end);
    TilesBounds(bs, lo, end);
    forall i | 0 <= i < |bs| ensures TaggedBlock(m', bs[i]) {
      OutsideTags(bs, lo, end, i, p);
      TagsKept(m, m', bs[i], p.ptr, p.ptr + p.size);
    }
    WordKept(m, m', lo - 8, p.ptr, p.ptr + p.size);
    WordKept(m, m', end, p.ptr, p.ptr + p.size);
    AgreeMapped(m, m', p.ptr, p.ptr + p.size, lo - 8, end + 8);
    forall q | q in Live(bs) - {p} ensures PayloadKept(m, m', q) {
      PayloadMapped(m, lo, end, bs, q);
      UntouchedPayload(m, m', q, p);
    }
  }

  // A write that misses both of a block's tags.
  lemma TagsKept(m: Memory, m': Memory, b: Block, lo: int, hi: int)
    requires TaggedBlock(m, b) && Agree(m, m', lo, hi)
    requires b.addr + 8 <= lo || hi <= b.addr
    requires b.addr + b.size <= lo || hi <= b.addr + b.size - 8
    ensures TaggedBlock(m', b)
  {
    hide ReadWord, Pack;
    WordKept(m, m', b.addr, lo, hi);
    WordKept(m, m', b.addr + b.size - 8, lo, hi);
  }

  lemma UntouchedPayload(m: Memory, m': Memory, q: Payload, p: Payload)
    requires Agree(m, m', p.ptr, p.ptr + p.size) && Disjoint(p, q) && Mapped(m, q.ptr, q.ptr + q.size)
    ensures PayloadKept(m, m', q)
  {
  }

  // The tags of block i lie outside every payload.
  lemma OutsideTags(bs: seq<Block>, lo: int, end: int, i: nat, p: Payload)
    requires Tiles(bs, lo, end) && i < |bs| && p in Live(bs)
    ensures bs[i].addr + 8 <= p.ptr || p.ptr + p.size <= bs[i].addr
    ensures bs[i].addr + bs[i].size <= p.ptr || p.ptr + p.size <= bs[i].addr + bs[i].size - 8
  {
    TilesBounds(bs, lo, end);
    var j :| 0 <= j < |bs| && bs[j].alloc && PayloadOf(bs[j]) == p;
    if i < j {
      TilesOrdered(bs, lo, end, i, j);
    } else if j < i {
      TilesOrdered(bs, lo, end, j, i);
    }
  }

  lemma PayloadMapped(m: Memory, lo: int, end: int, bs: seq<Block>, p: Payload)
    requires Layout(m, lo, end, bs) && p in Live(bs)
    ensures Mapped(m, p.ptr, p.ptr + p.size) && p.size >= 16 && p.ptr > lo && p.ptr + p.size < end
  {
    TilesBounds(bs, lo, end);
    var j :| 0 <= j < |bs| && bs[j].alloc && PayloadOf(bs[j]) == p;
  }

  // The block a live payload belongs to.
  lemma BlockOf(bs: seq<Block>, p: Payload) returns (i: nat)
    requires p in Live(bs)
    ensures i < |bs| && bs[i].alloc && bs[i].addr == p.ptr - 8 && bs[i].size == p.size + 16 && PayloadOf(bs[i]) == p
  {
    i :| 0 <= i < |bs| && bs[i].alloc && PayloadOf(bs[i]) == p;
  }

  // No live payload starts in a free block.
  lemma FreeBlockUnused(bs: seq<Block>, lo: int, end: int, i: nat)
    requires Tiles(bs, lo, end) && i < |bs| && !bs[i].alloc
    ensures forall p :: p in Live(bs) ==> p.ptr != bs[i].addr + 8
  {
    forall p | p in Live(bs) ensures p.ptr != bs[i].addr + 8 {
      var k := BlockOf(bs, p);
      TilesBounds(bs, lo, end);
      if k < i {
        TilesOrdered(bs, lo, end, k, i);
      } else {
        TilesOrdered(bs, lo, end, i, k);
      }
    }
  }
}
