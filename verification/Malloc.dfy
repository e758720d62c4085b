// The allocator of 410user/libmalloc: malloc.c over memlib.c. Pointers and size_t are 32 bits wide;
// NULL is 0. The class holds the C files' global variables.

module Malloc {
  import opened HeapLayout
  import opened MachineWord
  import Digits

  const PAGE_SIZE: int := 4096
  const DSIZE: int := 16
  const MIN_BLOCK_SIZE: int := 32
  const CHUNK_SIZE: int := 4096

  lemma Constants()
    ensures DSIZE == 16 && MIN_BLOCK_SIZE == 32
  {
  }

  function Max(x: int, y: int): int { if x > y then x else y }

  // Rounds up to a multiple of n, in size_t.
  function RoundUp(size: int, n: int): int
    requires n > 0
  {
    U32(n * (U32(size + (n - 1)) / n))
  }

  // The size of the block that serves a request.
  function AdjustedSize(size: int): int { U32(RoundUp(size, DSIZE) + DSIZE) }

  // A size_t passed where an int is expected.
  function AsInt(x: int): int { if x >= 0x8000_0000 then x - WORD32 else x }

  // A request's block has room for it exactly when the rounding does not wrap.
  lemma AdjustedSizeFits(size: int)
    requires 0 < size < WORD32
    ensures AdjustedSize(size) >= size + DSIZE <==> size <= 0xffff_ffe0
    ensures size <= 0xffff_ffe0 ==> GoodSize(AdjustedSize(size)) && AdjustedSize(size) <= size + 31
  {
    if size <= 0xffff_ffe0 {
      assert RoundUp(size, DSIZE) == 16 * ((size + 15) / 16);
    } else {
      WrappedSize(size);
    }
  }

  // The block's size for a request that wraps: nothing, or the two tags alone.
  lemma WrappedSize(size: int)
    requires 0xffff_ffe0 < size < WORD32
    ensures AdjustedSize(size) == if size <= 0xffff_fff0 then 0 else 16
  {
    if size <= 0xffff_fff0 {
      assert (size + 15) / 16 == 0xfff_ffff;
    } else {
      assert U32(size + 15) / 16 == 0;
    }
  }

  // The sizes that malloc works with for a request that does not wrap.
  lemma Request(size: int)
    requires 0 < size <= 0xffff_ffe0
    ensures var a := AdjustedSize(size);
            size + 16 <= a <= size + 31 && a >= 32 && a % 16 == 0
            && var n := Max(a, CHUNK_SIZE); a <= n <= 0xffff_fff0 && n >= 32 && n % 16 == 0
  {
    hide AdjustedSize;
    AdjustedSizeFits(size);
  }

  lemma Behind(block: int)
    requires block % 16 == 8
    ensures (block + 8) % 16 == 0
  {
  }

  // The product check of calloc is exact.
  lemma CallocCheck(nmemb: int, size: int)
    requires 0 < nmemb < WORD32 && 0 <= size < WORD32
    ensures U32(nmemb * size) / nmemb == size <==> nmemb * size < WORD32
  {
    var p := nmemb * size;
    assert p >= 0 by { ProductNonNegative(nmemb, size); }
    if p < WORD32 {
      Digits.QuotientUnique(p, nmemb, size, 0);
    } else {
      SmallerQuotient(U32(p), nmemb, size);
    }
  }

  lemma ProductNonNegative(a: int, b: int)
    requires a >= 0 && b >= 0
    ensures a * b >= 0
  {
  }

  lemma SmallerQuotient(x: int, n: int, s: int)
    requires n > 0 && 0 <= x < n * s
    ensures x / n != s
  {
    assert x == n * (x / n) + x % n;
  }

  // Freshly granted pages.
  function Zeros(lo: int, hi: int): (m: Memory)
    ensures forall a :: a in m <==> lo <= a < hi
    decreases hi - lo
  {
    if lo >= hi then map[] else Zeros(lo + 1, hi)[lo := 0]
  }

  // The mapped addresses are the pages from base to top.
  ghost predicate PagesOk(mem: Memory, base: int, brkp: int, top: int) {
    && 0 < base && base % PAGE_SIZE == 0 && base + 16 * PAGE_SIZE < WORD32
    && base <= brkp <= top < WORD32 && top % PAGE_SIZE == 0
    && (forall a :: a in mem <==> base <= a < top)
  }

  lemma PagesAgree(m: Memory, m': Memory, base: int, brkp: int, top: int, lo: int, hi: int)
    requires Agree(m, m', lo, hi)
    ensures PagesOk(m, base, brkp, top) ==> PagesOk(m', base, brkp, top)
  {
  }

  // What mm_checkheap reads is there: the prologue, the first header at lo, and the footer that it leads to.
  ghost predicate CheckableAt(mem: Memory, lo: int) {
    var next := lo + ExtractSize(ReadWord(mem, lo));
    Mapped(mem, lo - 8, lo + 8) && Mapped(mem, next - 8, next)
  }

  // The prologue is allocated and empty, and the first block's header and footer agree.
  ghost predicate ChecksAt(mem: Memory, lo: int) {
    var prologue, header := ReadWord(mem, lo - 8), ReadWord(mem, lo);
    var footer := ReadWord(mem, lo + ExtractSize(header) - 8);
    && ExtractSize(prologue) == 0 && ExtractAlloc(prologue)
    && (ExtractSize(header) != 0 ==> ExtractSize(header) == ExtractSize(footer) && ExtractAlloc(header) == ExtractAlloc(footer))
  }

  lemma LayoutChecks(mem: Memory, lo: int, end: int, bs: seq<Block>)
    requires Layout(mem, lo, end, bs) && 0 <= lo && end < WORD32
    ensures CheckableAt(mem, lo) && ChecksAt(mem, lo)
  {
    hide ReadWord, Tagged, Mapped, ExtractSize, ExtractAlloc;
    Header(mem, lo, end, bs, 0);
    PrologueTag(mem, lo, end, bs);
    MappedPart(mem, lo - 8, end + 8, lo - 8, lo + 8) by { NothingChanged(mem, lo, end, bs); }
    if bs != [] {
      Neighbours(mem, lo, end, bs, 0);
      FooterIs(mem, bs[0]);
      MappedPart(mem, bs[0].addr - 8, bs[0].addr + bs[0].size + 8, bs[0].addr + bs[0].size - 8, bs[0].addr + bs[0].size);
    } else {
      MappedPart(mem, lo - 8, end + 8, lo - 8, lo);
    }
  }

  class Heap {
    var mem: Memory
    var heapListp: int                  // first block, or 0 before mm_init
    var brkp: int
    var allocTop: int
    const heapBase: int                 // the first page behind the program that new_pages grants
    ghost var blocks: seq<Block>

    // The initialised heap, except that neighbouring free blocks may not have been joined yet.
    ghost predicate Laid()
      reads this
    {
      && PagesOk(mem, heapBase, brkp, allocTop) && heapListp == heapBase + 8
      && Layout(mem, heapListp, brkp - 8, blocks)
    }

    ghost predicate Valid()
      reads this
    {
      if heapListp == 0 then blocks == [] && 0 < heapBase && heapBase % PAGE_SIZE == 0 && heapBase + 16 * PAGE_SIZE < WORD32
      else Laid() && NoFreePair(blocks)
    }

    constructor (base: int)
      requires 0 < base && base % PAGE_SIZE == 0 && base + 16 * PAGE_SIZE < WORD32
      ensures Valid() && heapListp == 0 && heapBase == base
    {
      heapBase := base;
      mem, heapListp, brkp, allocTop := map[], 0, 0, 0;
      blocks := [];
    }

    // ---------------------------------------------------------------- memlib.c

    // new_pages: the kernel may refuse; it always refuses a range that is not below 2^32.
    method NewPages(addr: int, len: int) returns (failed: bool)
      requires addr == allocTop
      modifies `mem
      ensures failed ==> mem == old(mem)
      ensures !failed ==> 0 < len < 0x8000_0000 && addr + len < WORD32
      ensures !failed ==> forall a :: a in mem <==> a in old(mem) || addr <= a < addr + len
      ensures !failed ==> forall a :: a in old(mem) ==> mem[a] == old(mem[a])
    {
      var refused: bool := *;
      if refused || len <= 0 || len >= 0x8000_0000 || addr + len >= WORD32 {
        return true;
      }
      mem := Zeros(addr, addr + len) + mem;
      failed := false;
    }

    // mem_init: its probing loop ends at heapBase.
    method MemInit()
      requires Valid() && heapListp == 0
      modifies `mem, `brkp, `allocTop
      ensures PagesOk(mem, heapBase, brkp, allocTop) && brkp == heapBase && allocTop == heapBase + PAGE_SIZE
    {
      brkp := heapBase;
      mem := Zeros(heapBase, heapBase + PAGE_SIZE);
      allocTop := brkp + PAGE_SIZE;
    }

    // mem_sbrk. The sum old_brk + incr is a pointer and wraps; without a wrap the new bytes are mapped.
    method MemSbrk(incr: int) returns (r: int)
      requires PagesOk(mem, heapBase, brkp, allocTop) && -0x8000_0000 <= incr < 0x8000_0000
      modifies `mem, `brkp, `allocTop
      ensures r == 0 ==> mem == old(mem) && brkp == old(brkp) && allocTop == old(allocTop)
      ensures r != 0 ==> r == old(brkp) && incr >= 0 && brkp == U32(old(brkp) + incr)
      ensures r != 0 && old(brkp) + incr < WORD32 ==> PagesOk(mem, heapBase, brkp, allocTop) && brkp == old(brkp) + incr
      ensures Grows(old(mem), mem)
      ensures r != 0 && incr > 0 ==> (Mapped(mem, r, r + incr) <==> old(brkp) + incr < WORD32)
      ensures incr >= 0 && old(brkp) + incr <= allocTop == old(allocTop) ==> r != 0
    {
      var oldBrk := brkp;
      if incr < 0 || U32(oldBrk + incr) > 0xffff_ffff {
        return 0;
      }
      if U32(oldBrk + incr) > allocTop {
        var allocincr := U32(oldBrk + incr) - allocTop;
        allocincr := allocincr + (PAGE_SIZE - 1);
        allocincr := allocincr - allocincr % PAGE_SIZE;
        var failed := NewPages(allocTop, allocincr);
        if failed {
          return 0;
        }
        allocTop := allocTop + allocincr;
      }
      brkp := U32(brkp + incr);
      r := oldBrk;
      assert oldBrk + incr >= WORD32 ==> WORD32 - 1 !in mem;
    }

    // ---------------------------------------------------------------- headers and footers

    // get_size
    method GetSize(block: int) returns (size: int)
      requires Mapped(mem, block, block + 8)
      ensures size == ExtractSize(ReadWord(mem, block))
    {
      size := ExtractSize(ReadWord(mem, block));
    }

    method WriteHeader(block: int, size: int, alloc: bool)
      requires Mapped(mem, block, block + 8)
      modifies `mem
      ensures mem == WriteWord(old(mem), block, Pack(size, alloc))
    {
      mem := WriteWord(mem, block, Pack(size, alloc));
    }

    // The footer's place is computed from the size in the header.
    method WriteFooter(block: int, size: int, alloc: bool)
      requires Mapped(mem, block, block + 8) && ExtractSize(ReadWord(mem, block)) == size
      requires Mapped(mem, block + size - 8, block + size)
      modifies `mem
      ensures mem == WriteWord(old(mem), block + size - 8, Pack(size, alloc))
    {
      hide Mapped, ReadWord, WriteWord, ExtractSize, Pack;
      var s := GetSize(block);
      var footerp := block + 8 + s - DSIZE;
      mem := WriteWord(mem, footerp, Pack(size, alloc));
    }

    // write_header followed by write_footer
    method WriteTags(block: int, size: int, alloc: bool)
      requires 16 <= size < WORD32 && size % 16 == 0 && Mapped(mem, block, block + size)
      modifies `mem
      ensures TaggedBlock(mem, Block(block, size, alloc)) && Agree(old(mem), mem, block, block + size)
      ensures old(PagesOk(mem, heapBase, brkp, allocTop)) ==> PagesOk(mem, heapBase, brkp, allocTop)
    {
      hide PagesOk, TaggedBlock, Agree, Mapped, ReadWord, WriteWord, Pack, ExtractSize;
      ghost var m := mem;
      TagWritten(mem, block, size, alloc);
      MappedPart(mem, block, block + size, block, block + 8);
      WriteHeader(block, size, alloc);
      MappedPart(mem, block, block + size, block, block + 8);
      MappedPart(mem, block, block + size, block + size - 8, block + size);
      WriteFooter(block, size, alloc);
      PagesAgree(m, mem, heapBase, brkp, allocTop, block, block + size);
    }

    // ---------------------------------------------------------------- blocks

    // coalesce: join the free block with its free neighbours.
    method Coalesce(block: int, ghost i: nat) returns (r: int, ghost k: nat)
      requires Laid() && i < |blocks| && blocks[i].addr == block && !blocks[i].alloc
      requires FreePairOnlyAt(blocks, i)
      modifies `mem, `blocks
      ensures Valid() && Live(blocks) == old(Live(blocks)) && PayloadsKept(old(mem), mem, old(Live(blocks)))
      ensures heapListp != 0
      ensures k < |blocks| && blocks[k].addr == r && !blocks[k].alloc && blocks[k].size >= old(blocks[i].size)
    {
      hide *;
      LaidFacts();
      TagsNear(mem, heapListp, brkp - 8, blocks, i);
      var blockNext := FindNext(block, i);
      var blockPrev := FindPrev(block, i);
      var prevAlloc := ExtractAlloc(ReadWord(mem, block - 8));
      var nextAlloc := ExtractAlloc(ReadWord(mem, blockNext));
      var size := ExtractSize(ReadWord(mem, block));
      if prevAlloc && nextAlloc {
        NothingToMerge(mem, heapListp, brkp - 8, blocks, i);
        NowValid();
        r, k := block, i;
      } else if prevAlloc && !nextAlloc {
        size := size + ExtractSize(ReadWord(mem, blockNext));
        Join(block, size, i, i, i + 2);
        r, k := block, i;
      } else if !prevAlloc && nextAlloc {
        size := size + ExtractSize(ReadWord(mem, blockPrev));
        Join(blockPrev, size, i, i - 1, i + 1);
        r, k := blockPrev, i - 1;
      } else {
        size := size + (ExtractSize(ReadWord(mem, blockNext)) + ExtractSize(ReadWord(mem, blockPrev)));
        Join(blockPrev, size, i, i - 1, i + 2);
        r, k := blockPrev, i - 1;
      }
    }

    // The tags coalesce writes: one free block of the given size in place of the blocks k..j.
    method Join(block: int, size: int, ghost i: nat, ghost k: nat, ghost j: nat)
      requires Laid() && k <= i < j <= |blocks| && i <= k + 1 && j <= i + 2 && FreePairOnlyAt(blocks, i)
      requires forall n :: k <= n < j ==> !blocks[n].alloc
      requires k == i ==> i == 0 || blocks[i - 1].alloc
      requires j == i + 1 ==> j == |blocks| || blocks[j].alloc
      requires block == blocks[k].addr
      requires size == blocks[i].size + (if j == i + 2 then blocks[i + 1].size else 0) + (if k < i then blocks[i - 1].size else 0)
      modifies `mem, `blocks
      ensures Valid() && Live(blocks) == old(Live(blocks)) && PayloadsKept(old(mem), mem, old(Live(blocks)))
      ensures k < |blocks| && blocks[k] == Block(block, size, false) && size >= old(blocks[i].size)
    {
      hide *;
      LaidFacts();
      ghost var m, bs, end := mem, blocks, brkp - 8;
      MergePlan(mem, heapListp, end, bs, i, k, j);
      WriteTags(block, size, false);
      ghost var b := Block(block, size, false);
      MergeFree(m, mem, heapListp, end, bs, i, k, j, b);
      blocks := bs[..k] + [b] + bs[j..];
      NowValid();
    }

    // find_next
    method FindNext(block: int, ghost i: nat) returns (next: int)
      requires Laid() && i < |blocks| && blocks[i].addr == block
      ensures next == block + blocks[i].size
    {
      hide *;
      LaidFacts();
      Neighbours(mem, heapListp, brkp - 8, blocks, i);
      BlockTag(mem, blocks[i]);
      var size := GetSize(block);
      next := block + size;
    }

    // find_prev: the block before, or the block itself behind the prologue.
    method FindPrev(block: int, ghost i: nat) returns (prev: int)
      requires Laid() && i < |blocks| && blocks[i].addr == block
      ensures prev == if i == 0 then block else blocks[i - 1].addr
    {
      hide *;
      LaidFacts();
      Neighbours(mem, heapListp, brkp - 8, blocks, i);
      PackRoundTrip(0, true);
      if i > 0 {
        PackRoundTrip(blocks[i - 1].size, blocks[i - 1].alloc);
      }
      var size := ExtractSize(ReadWord(mem, block - 8));
      prev := block - size;
    }

    // place: hand out the free block i, splitting off what is left if that makes a block.
    method Place(block: int, asize: int, ghost i: nat) returns (ghost sz: int)
      requires Valid() && heapListp != 0 && i < |blocks| && blocks[i].addr == block && !blocks[i].alloc
      requires asize >= 32 && asize % 16 == 0 && asize <= blocks[i].size
      modifies `mem, `blocks
      ensures Valid() && heapListp != 0
      ensures asize - 16 <= sz < asize + 16 && sz == if old(blocks[i].size) - asize >= 32 then asize - 16 else old(blocks[i].size) - 16
      ensures Live(blocks) == old(Live(blocks)) + {Payload(block + 8, sz)}
      ensures forall p :: p in old(Live(blocks)) ==> Disjoint(p, Payload(block + 8, sz))
      ensures PayloadsKept(old(mem), mem, old(Live(blocks))) && block > 0 && block % 16 == 8
    {
      hide *;
      Constants();
      ValidFacts();
      LaidFacts();
      ghost var m, bs, end := mem, blocks, brkp - 8;
      BlockFacts(mem, heapListp, end, bs, i);
      var csize := ExtractSize(ReadWord(mem, block));
      RestAligned(csize, asize);
      if csize - asize >= MIN_BLOCK_SIZE {
        MappedPart(mem, block, block + csize, block, block + asize);
        WriteTags(block, asize, true);
        ghost var m1 := mem;
        ghost var a, b := Block(block, asize, true), Block(block + asize, csize - asize, false);
        BlockTag(mem, a);
        AgreeMapped(m, m1, block, block + asize, block, block + csize);
        MappedPart(mem, block, block + csize, block + asize, block + csize);
        var blockNext := block + ExtractSize(ReadWord(mem, block));
        WriteTags(blockNext, csize - asize, false);
        SplitBlocks(m, m1, mem, heapListp, end, bs, i, a, b);
        blocks := bs[..i] + [a, b] + bs[i + 1..];
        sz := asize - 16;
        NowValid();
      } else {
        WriteTags(block, csize, true);
        ghost var a := Block(block, csize, true);
        WholeBlock(m, mem, heapListp, end, bs, i, a);
        blocks := bs[..i] + [a] + bs[i + 1..];
        sz := csize - 16;
        NowValid();
      }
    }

    // place for a size that the rounding has wrapped, which is less than the smallest block. With 16 it
    // makes a block of two tags and nothing between them. With 0 the allocated block takes no room: its
    // header is overwritten by that of the rest, and its footer falls on the footer of the block before.
    method PlaceShort(block: int, asize: int, ghost i: nat) returns (ghost sz: int)
      requires Valid() && heapListp != 0 && i < |blocks| && blocks[i].addr == block && !blocks[i].alloc
      requires asize == 0 || asize == 16
      modifies `mem, `blocks
      ensures PayloadsKept(old(mem), mem, old(Live(blocks)))
      ensures Checkable() && (Checks() <==> asize == 16 || i != 1)
      ensures Valid() <==> if asize == 0 then i == 0 else old(blocks[i].size) == 32
      ensures asize == 0 ==> blocks == old(blocks) && Unfooted(mem, blocks, i)
      ensures asize == 16 ==> sz == (if old(blocks[i].size) == 32 then 16 else 0) && Tagged(mem, blocks)
      ensures asize == 16 ==> blocks == Shortened(old(blocks), i)
      ensures asize == 16 ==> Live(blocks) == old(Live(blocks)) + {Payload(block + 8, sz)} && Payload(block + 8, sz) !in old(Live(blocks))
      ensures asize == 16 ==> forall p :: p in old(Live(blocks)) ==> Disjoint(p, Payload(block + 8, sz))
    {
      hide *;
      ValidFacts();
      LaidFacts();
      ghost var m, bs, end := mem, blocks, brkp - 8;
      BlockFacts(mem, heapListp, end, bs, i);
      ShortenedIs(bs, i);
      var csize := ExtractSize(ReadWord(mem, block));
      if csize - asize >= MIN_BLOCK_SIZE {
        Constants();
        if asize == 0 {
          WriteNothing(block, csize, i);
          sz := 0;
        } else {
          MappedPart(mem, block, block + csize, block, block + asize);
          WriteTags(block, asize, true);
          ghost var m1 := mem;
          ghost var a, b := Block(block, asize, true), Block(block + asize, csize - asize, false);
          ShortTag(mem, a);
          AgreeMapped(m, m1, block, block + asize, block, block + csize);
          MappedPart(mem, block, block + csize, block + asize, block + csize);
          var blockNext := block + ExtractSize(ReadWord(mem, block));
          RestAligned(csize, asize);
          WriteTags(blockNext, csize - asize, false);
          ShortSplit(m, m1, mem, heapListp, end, bs, i, a, b);
          blocks := bs[..i] + [a, b] + bs[i + 1..];
          sz := 0;
          NotValid();
          ChecksNow();
        }
      } else {
        Constants();
        WriteTags(block, csize, true);
        ghost var a := Block(block, csize, true);
        WholeBlock(m, mem, heapListp, end, bs, i, a);
        blocks := bs[..i] + [a] + bs[i + 1..];
        sz := csize - 16;
        NowValid();
        ValidChecks();
        NewPayload(bs, heapListp, end, i, sz) by { LayoutTiles(m, heapListp, end, bs); }
        LayoutTagged(mem, heapListp, end, blocks);
      }
    }

    // The four writes of place for a block of size 0: its two tags, and those of the rest.
    method WriteNothing(block: int, csize: int, ghost i: nat)
      requires Valid() && heapListp != 0 && i < |blocks| && blocks[i] == Block(block, csize, false)
      modifies `mem
      ensures PayloadsKept(old(mem), mem, Live(blocks)) && Unfooted(mem, blocks, i)
      ensures Checkable() && (Checks() <==> i != 1) && (Valid() <==> i == 0)
    {
      hide *;
      ValidFacts();
      LaidFacts();
      ghost var m, bs, end := mem, blocks, brkp - 8;
      BlockFacts(mem, heapListp, end, bs, i);
      Neighbours(mem, heapListp, end, bs, i);
      PackRoundTrip(0, true);
      MappedPart(m, block - 8, block + csize + 8, block, block + 8);
      WordRoundTrip(m, block, Pack(0, true));
      WriteHeader(block, 0, true);
      ghost var m1 := mem;
      AgreeMapped(m, m1, block, block + 8, block - 8, block + csize + 8);
      MappedPart(m1, block - 8, block + csize + 8, block - 8, block);
      MappedPart(m1, block - 8, block + csize + 8, block, block + 8);
      WordRoundTrip(m1, block - 8, Pack(0, true));
      WriteFooter(block, 0, true);
      ghost var m2 := mem;
      WordKept(m1, m2, block, block - 8, block);
      AgreeMapped(m1, m2, block - 8, block, block - 8, block + csize + 8);
      MappedPart(m2, block - 8, block + csize + 8, block, block + csize);
      var blockNext := block + ExtractSize(ReadWord(mem, block));
      WriteTags(blockNext, csize, false);
      WordKept(m2, mem, block - 8, block, block + csize);
      AgreeTrans(m, m1, m2, block - 8, block + csize, block, block + 8, block - 8, block);
      AgreeTrans(m, m2, mem, block - 8, block + csize, block - 8, block + csize, block, block + csize);
      PagesAgree(m, mem, heapBase, brkp, allocTop, block - 8, block + csize);
      EmptyPlaced(m, mem, heapListp, end, bs, i);
      if i == 0 { NowValid(); } else { NotValid(); }
      ChecksNow();
    }

    lemma ChecksNow()
      ensures Checkable() <==> (heapListp != 0 ==> CheckableAt(mem, heapListp))
      ensures Checks() <==> (heapListp != 0 ==> ChecksAt(mem, heapListp))
    {
      hide CheckableAt, ChecksAt;
    }

    lemma NotValid()
      ensures Valid() && heapListp != 0 ==> Layout(mem, heapListp, brkp - 8, blocks)
    {
      hide Layout, PagesOk;
    }

    // find_fit: first fit from the start of the heap; 0 if no free block is large enough.
    method FindFit(asize: int) returns (block: int, ghost i: nat)
      requires Valid() && heapListp != 0
      ensures i == FirstFit(blocks, asize)
      ensures i < |blocks| ==> block == blocks[i].addr && block != 0
      ensures i == |blocks| ==> block == 0
    {
      hide *;
      ValidFacts();
      LaidFacts();
      EpilogueTag(mem, heapListp, brkp - 8, blocks);
      i := 0;
      block := heapListp;
      Header(mem, heapListp, brkp - 8, blocks, i);
      var size := ExtractSize(ReadWord(mem, block));
      while size > 0
        invariant 0 <= i <= |blocks|
        invariant block == if i < |blocks| then blocks[i].addr else brkp - 8
        invariant size == if i < |blocks| then blocks[i].size else 0
        invariant i < |blocks| ==> size >= 32
        invariant forall k :: 0 <= k < i ==> blocks[k].alloc || blocks[k].size < asize
        decreases |blocks| - i
      {
        Header(mem, heapListp, brkp - 8, blocks, i);
        var alloc := ExtractAlloc(ReadWord(mem, block));
        if !alloc && asize <= size {
          FirstFitIs(blocks, asize, i);
          return;
        }
        block := block + size;
        i := i + 1;
        Header(mem, heapListp, brkp - 8, blocks, i);
        size := ExtractSize(ReadWord(mem, block));
      }
      FirstFitIs(blocks, asize, i);
      block := 0;
    }

    // extend_heap: a new free block behind the last one, joined with it if that is free. Where the break
    // would wrap, mem_sbrk reports success for memory that is not there (MemSbrk); the model stops there.
    method ExtendHeap(size0: int) returns (r: int, wrapped: bool, ghost k: nat)
      requires Valid() && heapListp != 0 && 0 < size0 && size0 <= 0xffff_fff0 && size0 % 16 == 0 && size0 >= 32
      modifies `mem, `brkp, `allocTop, `blocks
      ensures wrapped <==> size0 < 0x8000_0000 && old(brkp) + size0 >= WORD32
      ensures wrapped ==> r == 0
      ensures r == 0 ==> mem == old(mem) && brkp == old(brkp) && allocTop == old(allocTop) && blocks == old(blocks)
      ensures r != 0 ==> brkp == old(brkp) + size0
      ensures Valid() && heapListp != 0 && Live(blocks) == old(Live(blocks)) && PayloadsKept(old(mem), mem, old(Live(blocks)))
      ensures r != 0 ==> k < |blocks| && blocks[k].addr == r && !blocks[k].alloc && blocks[k].size >= size0
      ensures brkp <= old(brkp) + size0
    {
      hide Layout, Live, PayloadsKept, NoFreePair, PagesOk, Valid, Laid, Grows, FreePairOnlyAt;
      ValidFacts();
      LaidFacts();
      k := 0;
      ghost var m, bs, end := mem, blocks, brkp - 8;
      NothingChanged(m, heapListp, end, bs);
      var size := RoundUp(size0, DSIZE);
      assert size == size0;
      wrapped := size < 0x8000_0000 && brkp + size >= WORD32;
      if wrapped {
        NowValid();
        return 0, true, 0;
      }
      var bp := MemSbrk(AsInt(size));
      if bp == 0 {
        NowValid();
        return 0, false, 0;
      }
      ghost var m1 := mem;
      Grow(m, m1, heapListp, end, bs);
      AppendBlock(bp, size);
      KeptBoth(m, m1, mem, Live(bs));
      ghost var m2 := mem;
      r, k := Coalesce(bp - 8, |bs|);
      KeptBoth(m, m2, mem, Live(bs));
      BlockAddress(k);
    }

    // The tags extend_heap writes: the old epilogue becomes the header of a free block of the given
    // size, and a new epilogue follows it.
    method AppendBlock(bp: int, size: int)
      requires PagesOk(mem, heapBase, brkp, allocTop) && heapListp == heapBase + 8
      requires brkp == bp + size && size >= 32 && size % 16 == 0
      requires Layout(mem, heapListp, bp - 8, blocks) && NoFreePair(blocks)
      modifies `mem, `blocks
      ensures Laid() && blocks == old(blocks) + [Block(bp - 8, size, false)] && FreePairOnlyAt(blocks, |old(blocks)|)
      ensures Live(blocks) == old(Live(blocks)) && PayloadsKept(old(mem), mem, old(Live(blocks)))
    {
      hide *;
      ghost var m1, bs, end := mem, blocks, bp - 8;
      NothingChanged(m1, heapListp, end, bs);
      AreaMapped(m1, heapBase, brkp, allocTop, heapListp);
      var block := bp - 8;
      MappedPart(m1, heapListp - 8, brkp, block, block + size);
      WriteTags(block, size, false);
      ghost var m2, b := mem, Block(block, size, false);
      AreaMapped(m2, heapBase, brkp, allocTop, heapListp);
      BlockTag(m2, b);
      var blockNext := block + ExtractSize(ReadWord(mem, block));
      MappedPart(m2, heapListp - 8, brkp, blockNext, blockNext + 8);
      PackRoundTrip(0, true);
      WordRoundTrip(m2, blockNext, Pack(0, true));
      WriteHeader(blockNext, 0, true);
      TagKept(m2, mem, b, blockNext, blockNext + 8);
      PagesAgree(m2, mem, heapBase, brkp, allocTop, blockNext, blockNext + 8);
      AreaMapped(mem, heapBase, brkp, allocTop, heapListp);
      AgreeTrans(m1, m2, mem, block, blockNext + 8, block, blockNext, blockNext, blockNext + 8);
      AppendedLayout(m1, mem, heapListp, end, bs, b);
      blocks := bs + [b];
      NowLaid();
    }

    lemma GrowthIs(n: int)
      ensures GrowthWraps(n) <==> n < 0x8000_0000 && brkp + n >= WORD32
    {
    }

    lemma WrapsWhen(size: int)
      ensures Wraps(size) <==> size > 0xffff_ffe0
                               || (size > 0 && FirstFit(blocks, AdjustedSize(size)) == |blocks| && GrowthWraps(Max(AdjustedSize(size), CHUNK_SIZE)))
    {
    }

    lemma NothingWraps()
      ensures !Wraps(0)
    {
    }

    // A heap with nothing allocated is one free block, or empty.
    lemma OneFree()
      requires Valid() && heapListp != 0 && Live(blocks) == {} && blocks != []
      ensures blocks == [Block(heapListp, brkp - 8 - heapListp, false)]
    {
      hide PagesOk, ReadWord, Mapped, Tagged, TaggedBlock, NoFreePair;
      if |blocks| > 1 { SomeAllocated(blocks); }
      FirstOf(blocks);
      var b := blocks[0];
      assert Tiles(blocks[1..], b.addr + b.size, brkp - 8);
      assert b == Block(heapListp, brkp - 8 - heapListp, false) && blocks == [b];
    }

    lemma BlockAddress(k: nat)
      requires Valid() && heapListp != 0 && k < |blocks|
      ensures blocks[k].addr > 0
    {
      TilesBounds(blocks, heapListp, brkp - 8);
    }

    // mm_init
    method MmInit() returns (ok: bool)
      requires Valid() && heapListp == 0
      modifies this
      ensures Valid() && heapListp != 0 && Live(blocks) == {}
      ensures ok ==> blocks == [Block(heapListp, CHUNK_SIZE, false)] && brkp == heapBase + 16 + CHUNK_SIZE
      ensures !ok ==> blocks == [] && brkp == heapBase + 16
    {
      hide Layout, Live, PayloadsKept, NoFreePair, Laid, Grows, ReadWord, WriteWord, Agree, Mapped, Pack;
      MemInit();
      var start := MemSbrk(2 * 8);
      if start == 0 {
        assert false;
      }
      PackRoundTrip(0, true);
      AreaMapped(mem, heapBase, brkp, allocTop, heapBase + 8);
      MappedPart(mem, heapBase, brkp, start, start + 8);
      WordRoundTrip(mem, start, Pack(0, true));
      ghost var m := mem;
      mem := WriteWord(mem, start, Pack(0, true));
      ghost var m1 := mem;
      PagesAgree(m, m1, heapBase, brkp, allocTop, start, start + 8);
      AreaMapped(mem, heapBase, brkp, allocTop, heapBase + 8);
      MappedPart(mem, heapBase, brkp, start + 8, start + 16);
      WordRoundTrip(mem, start + 8, Pack(0, true));
      mem := WriteWord(mem, start + 8, Pack(0, true));
      PagesAgree(m1, mem, heapBase, brkp, allocTop, start + 8, start + 16);
      WordKept(m1, mem, start, start + 8, start + 16);
      heapListp := start + 8;
      AreaMapped(mem, heapBase, brkp, allocTop, heapListp);
      EmptyHeap(mem, heapListp);
      blocks := [];
      NowValid();
      var block, wrapped, k := ExtendHeap(CHUNK_SIZE);
      ok := block != 0;
      if ok { OneFree(); }
    }

    // What _malloc does with a request whose rounded size wraps. The ghost results bs and m are the heap's
    // blocks and memory when place is called, i its block there; failed: the check at the end fails.
    method MallocShort(size: int) returns (bp: int, failed: bool, wrapped: bool, ghost sz: int, ghost bs: seq<Block>, ghost m: Memory, ghost i: nat)
      requires Valid() && 0xffff_ffe0 < size < WORD32
      modifies this
      ensures PayloadsKept(old(mem), mem, old(Live(blocks)))
      ensures wrapped ==> bp == 0
      ensures bp == 0 ==> Valid() && !failed && Live(blocks) == old(Live(blocks))
      ensures bp != 0 ==> Layout(m, heapListp, brkp - 8, bs) && Live(bs) == old(Live(blocks)) && PayloadsKept(m, mem, Live(bs))
      ensures bp != 0 ==> i < |bs| && bp == bs[i].addr + 8 && !bs[i].alloc && heapListp != 0
      ensures old(heapListp) != 0 && FirstFit(old(blocks), AdjustedSize(size)) < |old(blocks)| ==>
                bp != 0 && bs == old(blocks) && m == old(mem) && i == FirstFit(bs, AdjustedSize(size))
      ensures old(heapListp) == 0 && bp != 0 ==> i == 0 && bs[i].size >= CHUNK_SIZE
      // up to 0xfffffff0: the pointer leads into a free block
      ensures bp != 0 && size <= 0xffff_fff0 ==> blocks == bs && Unfooted(mem, blocks, i) && (failed <==> i == 1) && (Valid() <==> i == 0)
      // above it: a live block smaller than the request
      ensures bp != 0 && size > 0xffff_fff0 ==> blocks == Shortened(bs, i) && Tagged(mem, blocks) && !failed && (Valid() <==> bs[i].size == 32)
      ensures bp != 0 && size > 0xffff_fff0 ==> sz == (if bs[i].size == 32 then 16 else 0) && sz < size
      ensures bp != 0 && size > 0xffff_fff0 ==> Live(blocks) == old(Live(blocks)) + {Payload(bp, sz)} && Payload(bp, sz) !in old(Live(blocks))
      ensures bp != 0 && size > 0xffff_fff0 ==> forall p :: p in old(Live(blocks)) ==> Disjoint(p, Payload(bp, sz))
    {
      hide *;
      bp, failed, wrapped, sz, i := 0, false, false, 0, 0;
      ghost var m0, live, fresh0 := mem, Live(blocks), heapListp == 0;
      NoneKept();
      if heapListp == 0 {
        var ok := MmInit();
        KeptNone(m0, mem);
      }
      var asize := AdjustedSize(size);
      WrappedSize(size);
      ghost var m1 := mem;
      var block;
      block, i := FindFit(asize);
      bs, m := blocks, mem;
      if fresh0 { AloneOrNone(); }
      if block == 0 {
        var extendsize := Max(asize, CHUNK_SIZE);
        ChunkLarger(asize);
        block, wrapped, i := ExtendHeap(extendsize);
        KeptBoth(m0, m1, mem, live);
        if block == 0 {
          return;
        }
        if fresh0 { AloneOrNone(); }
        bs, m := blocks, mem;
      }
      FreeFacts(i);
      sz := PlaceShort(block, asize, i);
      KeptBoth(m0, m, mem, live);
      bp := block + 8;
      var ok := CheckHeap();
      failed := !ok;
    }

    // The free block i that place is called with.
    lemma FreeFacts(i: nat)
      requires Valid() && heapListp != 0 && i < |blocks|
      ensures Layout(mem, heapListp, brkp - 8, blocks) && blocks[i].addr > 0
    {
      hide Layout, PagesOk;
      BlockAddress(i);
    }

    // A heap with nothing allocated has one block at most.
    lemma AloneOrNone()
      requires Valid() && heapListp != 0 && Live(blocks) == {}
      ensures |blocks| <= 1
    {
      hide Layout, PagesOk;
      if blocks != [] { OneFree(); }
    }

    // The request's block size, or the break when the heap must grow for it, exceeds 32 bits.
    ghost predicate Wraps(size: int)
      reads this
    {
      || size > 0xffff_ffe0
      || (size > 0 && FirstFit(blocks, AdjustedSize(size)) == |blocks| && GrowthWraps(Max(AdjustedSize(size), CHUNK_SIZE)))
    }

    ghost predicate GrowthWraps(n: int)
      reads this
    {
      n < 0x8000_0000 && brkp + n >= WORD32
    }

    // _malloc. A request is wrapped if its size or the heap's growth is computed modulo 2^32. This method
    // stops there; MallocShort goes on with a wrapped size.
    method Malloc(size: int) returns (bp: int, wrapped: bool, ghost sz: int)
      requires Valid() && 0 <= size < WORD32
      modifies this
      ensures Valid() && (size > 0 ==> heapListp != 0)
      ensures wrapped ==> bp == 0 && Wraps(size)
      ensures old(heapListp) != 0 ==> (wrapped <==> old(Wraps(size)))
      ensures size > 0xffff_ffe0 ==> wrapped
      ensures old(heapListp) != 0 ==> heapListp == old(heapListp)
      ensures PayloadsKept(old(mem), mem, old(Live(blocks)))
      ensures bp == 0 ==> Live(blocks) == old(Live(blocks))
      ensures bp == 0 && old(heapListp) != 0 ==> mem == old(mem) && blocks == old(blocks) && brkp == old(brkp)
      ensures size == 0 ==> bp == 0
      ensures bp != 0 ==> bp % 16 == 0 && size <= sz < size + 47
      ensures bp != 0 ==> Live(blocks) == old(Live(blocks)) + {Payload(bp, sz)}
      ensures bp != 0 ==> forall p :: p in old(Live(blocks)) ==> Disjoint(p, Payload(bp, sz))
      ensures 0 < size <= 0xffff_ffe0 && old(heapListp) != 0 && FirstFit(old(blocks), AdjustedSize(size)) < |old(blocks)| ==>
                bp == old(blocks[FirstFit(blocks, AdjustedSize(size))].addr) + 8
    {
      hide *;
      sz := 0;
      bp := 0;
      wrapped := false;
      ghost var m, live := mem, Live(blocks);
      NoneKept();
      if heapListp == 0 {
        var ok := MmInit();
        KeptNone(m, mem);
      }
      WrapsWhen(size);
      if size == 0 {
        return;
      }
      if size > 0xffff_ffe0 {
        wrapped := true;
        return;
      }
      var asize := AdjustedSize(size);
      Request(size);
      ghost var m1 := mem;
      var block, i := FindFit(asize);
      if block == 0 {
        var extendsize := Max(asize, CHUNK_SIZE);
        GrowthIs(extendsize);
        block, wrapped, i := ExtendHeap(extendsize);
        KeptBoth(m, m1, mem, live);
        if block == 0 {
          GrowthIs(extendsize);
          WrapsWhen(size);
          return;
        }
      }
      ghost var m2 := mem;
      sz := Place(block, asize, i);
      KeptBoth(m, m2, mem, live);
      bp := block + 8;
      Behind(block);
    }

    // _free
    method Free(bp: int, ghost sz: int)
      requires Valid() && (bp == 0 || Payload(bp, sz) in Live(blocks))
      modifies `mem, `blocks
      ensures Valid()
      ensures Live(blocks) == if bp == 0 then old(Live(blocks)) else old(Live(blocks)) - {Payload(bp, sz)}
      ensures PayloadsKept(old(mem), mem, Live(blocks))
      ensures bp == 0 ==> mem == old(mem) && blocks == old(blocks)
    {
      hide *;
      NoneKept();
      if bp == 0 {
        return;
      }
      LiveInitialised(Payload(bp, sz));
      ValidFacts();
      LaidFacts();
      ghost var m, bs, end := mem, blocks, brkp - 8;
      ghost var i := BlockOf(bs, Payload(bp, sz));
      Neighbours(mem, heapListp, end, bs, i);
      TagsNear(mem, heapListp, end, bs, i);
      var block := bp - 8;
      var size := ExtractSize(ReadWord(mem, block));
      MappedPart(mem, block - 8, block + size + 8, block, block + size);
      WriteTags(block, size, false);
      ReleaseBlock(m, mem, heapListp, end, bs, i);
      blocks := bs[i := bs[i].(alloc := false)];
      NowLaid();
      ghost var m1 := mem;
      var r, k := Coalesce(block, i);
      KeptBoth(m, m1, mem, Live(blocks));
    }

    // _realloc
    method Realloc(ptr: int, ghost osz: int, size: int) returns (newptr: int, wrapped: bool, ghost sz: int)
      requires Valid() && 0 <= size < WORD32 && (ptr == 0 || Payload(ptr, osz) in Live(blocks))
      modifies this
      ensures Valid()
      ensures wrapped ==> newptr == 0 && Wraps(size)
      ensures old(heapListp) != 0 ==> (wrapped <==> old(Wraps(size)))
      ensures size == 0 ==> newptr == 0
      ensures size == 0 || newptr != 0 ==> PayloadsKept(old(mem), mem, old(Live(blocks)) - {Payload(ptr, osz)})
      ensures size == 0 && ptr != 0 ==> Live(blocks) == old(Live(blocks)) - {Payload(ptr, osz)}
      ensures size > 0 && newptr == 0 ==> Live(blocks) == old(Live(blocks)) && PayloadsKept(old(mem), mem, Live(blocks))
      ensures newptr != 0 ==> newptr % 16 == 0 && size <= sz < size + 47
      ensures newptr != 0 && ptr == 0 ==> Live(blocks) == old(Live(blocks)) + {Payload(newptr, sz)}
      ensures newptr != 0 && ptr != 0 ==> Live(blocks) == old(Live(blocks)) - {Payload(ptr, osz)} + {Payload(newptr, sz)}
      ensures newptr != 0 ==> forall p :: p in old(Live(blocks)) ==> Disjoint(p, Payload(newptr, sz))
      ensures newptr != 0 && ptr != 0 ==>
                forall a :: newptr <= a < newptr + (if osz < size then osz else size) ==> a in mem && mem[a] == old(Byte(mem, a - newptr + ptr))
    {
      hide *;
      newptr, wrapped, sz := 0, false, 0;
      NothingWraps();
      ghost var m, live, p := mem, Live(blocks), Payload(ptr, osz);
      if size == 0 {
        Free(ptr, osz);
        NothingFreed(m, mem, live, Live(blocks), p, ptr == 0);
        return;
      }
      LiveSafe();
      newptr, wrapped, sz := Malloc(size);
      FewerKept(m, mem, live, p);
      if ptr == 0 || newptr == 0 {
        return;
      }
      ghost var q, m1 := Payload(newptr, sz), mem;
      ValidFacts();
      LaidFacts();
      var copysize := PayloadSize(ptr, osz);
      if size < copysize {
        copysize := size;
      }
      CopyAreas(m1, heapListp, brkp - 8, blocks, p, q, copysize);
      MemCpy(newptr, ptr, copysize);
      AgreeMore(m1, mem, newptr, newptr + copysize, newptr + sz);
      PayloadWrite(m1, mem, heapListp, brkp - 8, blocks, q);
      PagesAgree(m1, mem, heapBase, brkp, allocTop, newptr, newptr + sz);
      NowValid();
      ghost var m2 := mem;
      Free(ptr, osz);
      Moved(m, m1, m2, mem, live, p, q, copysize);
    }

    // get_payload_size
    method PayloadSize(ptr: int, ghost osz: int) returns (size: int)
      requires Valid() && Payload(ptr, osz) in Live(blocks)
      ensures size == osz
    {
      hide *;
      Constants();
      LiveInitialised(Payload(ptr, osz));
      ValidFacts();
      LaidFacts();
      ghost var i := BlockOf(blocks, Payload(ptr, osz));
      Header(mem, heapListp, brkp - 8, blocks, i);
      var block := ptr - 8;
      var asize := GetSize(block);
      size := asize - DSIZE;
    }

    // _calloc. With nmemb == 0 the overflow check divides by zero, and the processor traps.
    method Calloc(nmemb: int, size: int) returns (trapped: bool, bp: int, wrapped: bool, ghost sz: int)
      requires Valid() && 0 <= nmemb < WORD32 && 0 <= size < WORD32
      modifies this
      ensures Valid() && trapped == (nmemb == 0) && (trapped ==> bp == 0)
      ensures wrapped ==> bp == 0 && nmemb * size < WORD32 && Wraps(nmemb * size)
      ensures old(heapListp) != 0 && nmemb > 0 && nmemb * size < WORD32 ==> (wrapped <==> old(Wraps(nmemb * size)))
      ensures nmemb * size >= WORD32 ==> bp == 0 && mem == old(mem) && blocks == old(blocks)
      ensures PayloadsKept(old(mem), mem, old(Live(blocks)))
      ensures bp == 0 ==> Live(blocks) == old(Live(blocks))
      ensures bp != 0 ==> bp % 16 == 0 && nmemb * size <= sz && Live(blocks) == old(Live(blocks)) + {Payload(bp, sz)}
      ensures bp != 0 ==> forall p :: p in old(Live(blocks)) ==> Disjoint(p, Payload(bp, sz))
      ensures bp != 0 ==> forall a :: bp <= a < bp + nmemb * size ==> a in mem && mem[a] == 0
    {
      hide PagesOk, Laid, Layout, Live, PayloadsKept, NoFreePair, Valid, Disjoint, Wraps, Mapped, Agree;
      trapped, bp, wrapped, sz := false, 0, false, 0;
      NoneKept();
      if nmemb == 0 {
        trapped := true;
        return;
      }
      CallocCheck(nmemb, size);
      var asize := U32(nmemb * size);
      if asize / nmemb != size {
        return;
      }
      ProductNonNegative(nmemb, size);
      ghost var m, live := mem, Live(blocks);
      bp, wrapped, sz := Malloc(asize);
      if bp == 0 {
        return;
      }
      ghost var m1, q := mem, Payload(bp, sz);
      ValidFacts();
      LaidFacts();
      PayloadMapped(m1, heapListp, brkp - 8, blocks, q);
      MappedPart(m1, bp, bp + sz, bp, bp + asize);
      MemZero(bp, asize);
      AgreeMore(m1, mem, bp, bp + asize, bp + sz);
      PayloadWrite(m1, mem, heapListp, brkp - 8, blocks, q);
      PagesAgree(m1, mem, heapBase, brkp, allocTop, bp, bp + sz);
      NowValid();
      FewerKept(m1, m1, {}, q);
      NewIsNot(live, q);
      KeptBoth(m, m1, mem, live);
    }

    ghost predicate Checkable()
      reads this
    {
      heapListp != 0 ==> CheckableAt(mem, heapListp)
    }

    ghost predicate Checks()
      reads this
    {
      heapListp != 0 ==> ChecksAt(mem, heapListp)
    }

    // mm_checkheap; false stands for a failed assert.
    method CheckHeap() returns (ok: bool)
      requires Checkable()
      ensures ok == Checks() && (Valid() ==> ok)
    {
      hide Mapped, ReadWord, ExtractSize, ExtractAlloc, Valid, Laid, Layout;
      if Valid() { ValidChecks(); }
      if heapListp == 0 {
        return true;
      }
      var prologueFooter := ReadWord(mem, heapListp - 8);
      if ExtractSize(prologueFooter) != 0 || !ExtractAlloc(prologueFooter) {
        return false;
      }
      var block := heapListp;
      MappedPart(mem, heapListp - 8, heapListp + 8, heapListp, heapListp + 8);
      var size := GetSize(block);
      if size != 0 {
        var next := block + size;
        var blockHeader := ReadWord(mem, block);
        var blockFooter := ReadWord(mem, next - 8);
        if ExtractSize(blockHeader) != ExtractSize(blockFooter) || ExtractAlloc(blockHeader) != ExtractAlloc(blockFooter) {
          return false;
        }
      }
      ok := true;
    }

    lemma ValidChecks()
      requires Valid()
      ensures Checkable() && Checks()
    {
      hide CheckableAt, ChecksAt, Valid, Laid;
      if heapListp != 0 {
        ValidFacts();
        LaidFacts();
        LayoutChecks(mem, heapListp, brkp - 8, blocks);
      }
    }

    // What clients rely on: their payloads are aligned, mapped, and do not overlap.
    lemma LiveSafe()
      requires Valid()
      ensures forall p :: p in Live(blocks) ==> p.ptr % 16 == 0 && p.ptr > 0 && p.size >= 16 && Mapped(mem, p.ptr, p.ptr + p.size)
      ensures forall p, q :: p in Live(blocks) && q in Live(blocks) && p != q ==> Disjoint(p, q)
    {
      hide *;
      NoneKept();
      if heapListp != 0 {
        ValidFacts();
        LaidFacts();
        LiveSeparate(blocks, heapListp, brkp - 8) by { LayoutTiles(mem, heapListp, brkp - 8, blocks); }
        forall p | p in Live(blocks) ensures Mapped(mem, p.ptr, p.ptr + p.size) {
          PayloadMapped(mem, heapListp, brkp - 8, blocks, p);
        }
      }
    }

    // memcpy between two areas that do not overlap
    method MemCpy(dst: int, src: int, n: int)
      requires 0 <= n && Mapped(mem, dst, dst + n) && Mapped(mem, src, src + n)
      requires dst + n <= src || src + n <= dst
      modifies `mem
      ensures Agree(old(mem), mem, dst, dst + n)
      ensures forall k :: dst <= k < dst + n ==> k in mem && mem[k] == old(Byte(mem, k - dst + src))
    {
      ghost var m := mem;
      var i := 0;
      while i < n
        invariant 0 <= i <= n && Agree(m, mem, dst, dst + i)
        invariant forall k :: dst <= k < dst + i ==> k in mem && mem[k] == Byte(m, k - dst + src)
      {
        assert src + i in m && dst + i in m;
        mem := mem[dst + i := mem[src + i]];
        i := i + 1;
      }
    }

    // memset to zero
    method MemZero(dst: int, n: int)
      requires 0 <= n && Mapped(mem, dst, dst + n)
      modifies `mem
      ensures Agree(old(mem), mem, dst, dst + n)
      ensures forall k :: dst <= k < dst + n ==> k in mem && mem[k] == 0
    {
      ghost var m := mem;
      var i := 0;
      while i < n
        invariant 0 <= i <= n && Agree(m, mem, dst, dst + i)
        invariant forall k :: dst <= k < dst + i ==> k in mem && mem[k] == 0
      {
        assert dst + i in m;
        mem := mem[dst + i := 0];
        i := i + 1;
      }
    }

    lemma LiveInitialised(p: Payload)
      requires Valid() && p in Live(blocks)
      ensures heapListp != 0
    {
    }

    lemma NoneKept()
      requires Valid()
      ensures PayloadsKept(mem, mem, Live(blocks)) && (heapListp == 0 ==> Live(blocks) == {})
    {
      if heapListp != 0 {
        NothingChanged(mem, heapListp, brkp - 8, blocks);
      }
    }

    lemma ValidFacts()
      requires Valid() && heapListp != 0
      ensures Laid() && NoFreePair(blocks)
    {
    }

    lemma NowLaid()
      requires PagesOk(mem, heapBase, brkp, allocTop) && heapListp == heapBase + 8 && Layout(mem, heapListp, brkp - 8, blocks)
      ensures Laid()
    {
    }

    lemma NowValid()
      requires PagesOk(mem, heapBase, brkp, allocTop) && heapListp == heapBase + 8 && Layout(mem, heapListp, brkp - 8, blocks) && NoFreePair(blocks)
      ensures Valid()
    {
    }

    lemma LaidFacts()
      requires Laid()
      ensures PagesOk(mem, heapBase, brkp, allocTop) && heapListp == heapBase + 8 && Layout(mem, heapListp, brkp - 8, blocks)
      ensures 0 < heapBase && heapListp % 16 == 8 && brkp <= allocTop < WORD32
    {
    }
  }

  // Of two neighbours one is allocated.
  lemma SomeAllocated(bs: seq<Block>)
    requires NoFreePair(bs) && |bs| > 1
    ensures Live(bs) != {}
  {
    assert bs[0].alloc || bs[0 + 1].alloc;
    if bs[0].alloc { assert PayloadOf(bs[0]) in Live(bs); } else { assert PayloadOf(bs[1]) in Live(bs); }
  }

  lemma FirstOf(bs: seq<Block>)
    requires bs != []
    ensures bs[0].alloc ==> Live(bs) != {}
  {
    if bs[0].alloc { assert PayloadOf(bs[0]) in Live(bs); }
  }

  lemma MappedPart(mem: Memory, lo: int, hi: int, a: int, e: int)
    requires Mapped(mem, lo, hi) && lo <= a && e <= hi
    ensures Mapped(mem, a, e)
  {
  }

  lemma BlockTag(mem: Memory, b: Block)
    requires TaggedBlock(mem, b) && GoodSize(b.size) && b.size < WORD32
    ensures Mapped(mem, b.addr, b.addr + 8) && ExtractSize(ReadWord(mem, b.addr)) == b.size
    ensures ExtractAlloc(ReadWord(mem, b.addr)) == b.alloc
  {
    PackRoundTrip(b.size, b.alloc);
  }

  lemma BlockFacts(mem: Memory, lo: int, end: int, bs: seq<Block>, i: nat)
    requires Layout(mem, lo, end, bs) && i < |bs| && 0 <= lo && end < WORD32 && lo % 16 == 8
    ensures Mapped(mem, bs[i].addr, bs[i].addr + bs[i].size) && ExtractSize(ReadWord(mem, bs[i].addr)) == bs[i].size
    ensures 32 <= bs[i].size < WORD32 && bs[i].size % 16 == 0 && bs[i].addr >= lo && bs[i].addr % 16 == 8
  {
    hide *;
    BlockSize(mem, lo, end, bs, i);
    Neighbours(mem, lo, end, bs, i);
    BlockTag(mem, bs[i]);
    MappedPart(mem, bs[i].addr - 8, bs[i].addr + bs[i].size + 8, bs[i].addr, bs[i].addr + bs[i].size);
  }

  lemma BlockSize(mem: Memory, lo: int, end: int, bs: seq<Block>, i: nat)
    requires Layout(mem, lo, end, bs) && i < |bs| && 0 <= lo && end < WORD32 && lo % 16 == 8
    ensures 32 <= bs[i].size < WORD32 && bs[i].size % 16 == 0 && GoodSize(bs[i].size) && bs[i].addr >= lo && bs[i].addr % 16 == 8
  {
    hide Layout, Tiles;
    LayoutTiles(mem, lo, end, bs);
    TilesBounds(bs, lo, end);
    Aligned(lo, bs[i].addr);
  }

  lemma Aligned(lo: int, a: int)
    requires lo % 16 == 8 && (a - lo) % 16 == 0
    ensures a % 16 == 8
  {
  }

  // What the tags around block i say, and that they are mapped.
  lemma TagsNear(mem: Memory, lo: int, end: int, bs: seq<Block>, i: nat)
    requires Layout(mem, lo, end, bs) && i < |bs| && 0 <= lo && end < WORD32
    ensures Mapped(mem, bs[i].addr - 8, bs[i].addr + bs[i].size + 8)
    ensures ExtractAlloc(ReadWord(mem, bs[i].addr - 8)) == (i == 0 || bs[i - 1].alloc)
    ensures ExtractSize(ReadWord(mem, bs[i].addr)) == bs[i].size
    ensures i > 0 ==> ExtractSize(ReadWord(mem, bs[i].addr - 8)) == bs[i - 1].size
    ensures i > 0 ==> ExtractSize(ReadWord(mem, bs[i - 1].addr)) == bs[i - 1].size
    ensures i == 0 ==> ExtractSize(ReadWord(mem, bs[i].addr - 8)) == 0
    ensures ExtractAlloc(ReadWord(mem, bs[i].addr + bs[i].size)) == (i + 1 == |bs| || bs[i + 1].alloc)
    ensures i + 1 < |bs| ==> ExtractSize(ReadWord(mem, bs[i].addr + bs[i].size)) == bs[i + 1].size
    ensures i + 1 == |bs| ==> ExtractSize(ReadWord(mem, bs[i].addr + bs[i].size)) == 0
  {
    hide ReadWord, Layout, Tagged, Tiles;
    Neighbours(mem, lo, end, bs, i);
    PackRoundTrip(0, true);
    PackRoundTrip(bs[i].size, bs[i].alloc);
    if i > 0 {
      PackRoundTrip(bs[i - 1].size, bs[i - 1].alloc);
      Neighbours(mem, lo, end, bs, i - 1);
    }
    if i + 1 < |bs| {
      PackRoundTrip(bs[i + 1].size, bs[i + 1].alloc);
    }
  }

  lemma NothingToMerge(m: Memory, lo: int, end: int, bs: seq<Block>, i: nat)
    requires FreePairOnlyAt(bs, i) && i < |bs| && (i == 0 || bs[i - 1].alloc) && (i + 1 == |bs| || bs[i + 1].alloc)
    requires Layout(m, lo, end, bs)
    ensures NoFreePair(bs) && PayloadsKept(m, m, Live(bs))
  {
    NothingChanged(m, lo, end, bs);
  }

  lemma RestAligned(x: int, y: int)
    requires x % 16 == 0 && y % 16 == 0
    ensures (x - y) % 16 == 0
  {
  }

  lemma PairTiles(a: Block, b: Block)
    requires a.size >= 32 && a.size % 16 == 0 && b.size >= 32 && b.size % 16 == 0 && a.addr + a.size == b.addr
    ensures Tiles([a, b], a.addr, b.addr + b.size)
  {
    TilesTwo(a, b);
  }

  lemma ChunkLarger(asize: int)
    requires asize == 0 || asize == 16
    ensures Max(asize, CHUNK_SIZE) == CHUNK_SIZE == 4096
  {
  }

  lemma ShortTag(mem: Memory, b: Block)
    requires TaggedBlock(mem, b) && b.size == 16
    ensures ExtractSize(ReadWord(mem, b.addr)) == 16
  {
    PackRoundTrip(16, b.alloc);
  }

  // The blocks after a request of 16 bytes, tags included, has been placed in the free block i.
  ghost function Shortened(bs: seq<Block>, i: nat): seq<Block>
    requires i < |bs|
  {
    if bs[i].size == 32 then bs[..i] + [bs[i].(alloc := true)] + bs[i + 1..]
    else bs[..i] + [Block(bs[i].addr, 16, true), Block(bs[i].addr + 16, bs[i].size - 16, false)] + bs[i + 1..]
  }

  lemma ShortenedIs(bs: seq<Block>, i: nat)
    requires i < |bs|
    ensures bs[i].size == 32 ==> Shortened(bs, i) == bs[..i] + [bs[i].(alloc := true)] + bs[i + 1..]
    ensures bs[i].size != 32 ==>
              Shortened(bs, i) == bs[..i] + [Block(bs[i].addr, 16, true), Block(bs[i].addr + 16, bs[i].size - 16, false)] + bs[i + 1..]
  {
  }

  // All blocks have their tags, but for the footer in front of block i, which says: size 0, allocated.
  ghost predicate Unfooted(mem: Memory, bs: seq<Block>, i: nat)
    requires i < |bs|
  {
    && ReadWord(mem, bs[i].addr - 8) == Pack(0, true)
    && (forall k :: 0 <= k < |bs| && k + 1 != i ==> TaggedBlock(mem, bs[k]))
  }

  // The free block i and the word in front of it lie apart from all payloads, and from all other blocks
  // but the one before.
  lemma FreeApart(bs: seq<Block>, lo: int, end: int, i: nat)
    requires Tiles(bs, lo, end) && i < |bs| && !bs[i].alloc
    ensures forall k :: 0 <= k < |bs| && k != i ==> bs[k].addr + bs[k].size <= bs[i].addr || bs[i].addr + bs[i].size <= bs[k].addr
    ensures forall k :: 0 <= k < |bs| && k != i && k + 1 != i ==> bs[k].addr + bs[k].size <= bs[i].addr - 8 || bs[i].addr + bs[i].size <= bs[k].addr
    ensures forall q :: q in Live(bs) ==> q.ptr + q.size <= bs[i].addr - 8 || bs[i].addr + bs[i].size + 8 <= q.ptr
  {
    hide Tiles;
    TilesBounds(bs, lo, end);
    forall k | 0 <= k < |bs| && k != i
      ensures bs[k].addr + bs[k].size <= bs[i].addr || bs[i].addr + bs[i].size <= bs[k].addr
      ensures k + 1 != i ==> bs[k].addr + bs[k].size <= bs[i].addr - 8 || bs[i].addr + bs[i].size <= bs[k].addr
    {
      if k < i {
        TilesOrdered(bs, lo, end, k, i);
        if k + 1 < i {
          TilesOrdered(bs, lo, end, k, k + 1);
          TilesOrdered(bs, lo, end, k + 1, i);
        }
      } else {
        TilesOrdered(bs, lo, end, i, k);
      }
    }
    forall q | q in Live(bs) ensures q.ptr + q.size <= bs[i].addr - 8 || bs[i].addr + bs[i].size + 8 <= q.ptr {
      var k := BlockOf(bs, q);
    }
  }

  lemma NewPayload(bs: seq<Block>, lo: int, end: int, i: nat, sz: int)
    requires Tiles(bs, lo, end) && i < |bs| && !bs[i].alloc && 0 <= sz <= bs[i].size - 16
    ensures Payload(bs[i].addr + 8, sz) !in Live(bs)
    ensures forall q :: q in Live(bs) ==> Disjoint(q, Payload(bs[i].addr + 8, sz))
  {
    hide Live, Tiles;
    FreeApart(bs, lo, end, i);
    FreeBlockUnused(bs, lo, end, i);
  }

  lemma LayoutTagged(m: Memory, lo: int, end: int, bs: seq<Block>)
    requires Layout(m, lo, end, bs)
    ensures Tagged(m, bs)
  {
  }

  // A write within the free block i, or to the word in front of it.
  lemma WrittenNear(m: Memory, m': Memory, lo: int, end: int, bs: seq<Block>, i: nat)
    requires Layout(m, lo, end, bs) && i < |bs| && !bs[i].alloc && Agree(m, m', bs[i].addr - 8, bs[i].addr + bs[i].size)
    ensures forall k :: 0 <= k < |bs| && k != i && k + 1 != i ==> TaggedBlock(m', bs[k])
    ensures PayloadsKept(m, m', Live(bs)) && Mapped(m', lo - 8, end + 8) && ReadWord(m', end) == Pack(0, true)
    ensures i > 0 ==> ReadWord(m', lo - 8) == Pack(0, true) && ReadWord(m', lo) == ReadWord(m, lo) && bs[0].addr == lo
  {
    hide Tagged, TaggedBlock, Tiles, ReadWord, Live, Agree, Mapped, Disjoint;
    LayoutTiles(m, lo, end, bs);
    FreeApart(bs, lo, end, i);
    TilesBounds(bs, lo, end);
    var wlo, whi := bs[i].addr - 8, bs[i].addr + bs[i].size;
    forall k | 0 <= k < |bs| && k != i && k + 1 != i ensures TaggedBlock(m', bs[k]) {
      Neighbours(m, lo, end, bs, k);
      TagKept(m, m', bs[k], wlo, whi);
    }
    forall q | q in Live(bs) ensures PayloadKept(m, m', q) {
      PayloadMapped(m, lo, end, bs, q);
      KeptOutside(m, m', q, wlo, whi);
    }
    AgreeMapped(m, m', wlo, whi, lo - 8, end + 8);
    WordKept(m, m', end, wlo, whi);
    if i > 0 {
      TilesOrdered(bs, lo, end, 0, i);
      StartsAt(bs, lo, end);
      WordKept(m, m', lo - 8, wlo, whi);
      WordKept(m, m', lo, wlo, whi);
    }
  }

  lemma StartsAt(bs: seq<Block>, lo: int, end: int)
    requires Tiles(bs, lo, end) && bs != []
    ensures bs[0].addr == lo
  {
  }

  lemma KeptOutside(m: Memory, m': Memory, q: Payload, lo: int, hi: int)
    requires Agree(m, m', lo, hi) && Mapped(m, q.ptr, q.ptr + q.size) && (q.ptr + q.size <= lo || hi <= q.ptr)
    ensures PayloadKept(m, m', q)
  {
  }

  // What the writes for a block of size 0 leave: the layout, if there is no block before; otherwise that
  // block's footer is lost, which the heap checker sees if it is the first one.
  lemma EmptyPlaced(m: Memory, m': Memory, lo: int, end: int, bs: seq<Block>, i: nat)
    requires Layout(m, lo, end, bs) && NoFreePair(bs) && i < |bs| && !bs[i].alloc && 0 <= lo && end < WORD32
    requires Agree(m, m', bs[i].addr - 8, bs[i].addr + bs[i].size)
    requires TaggedBlock(m', bs[i]) && ReadWord(m', bs[i].addr - 8) == Pack(0, true)
    ensures PayloadsKept(m, m', Live(bs)) && Unfooted(m', bs, i)
    ensures Layout(m', lo, end, bs) <==> i == 0
    ensures CheckableAt(m', lo) && (ChecksAt(m', lo) <==> i != 1)
  {
    hide TaggedBlock, Tiles, ReadWord, Live, Agree, Mapped, PayloadsKept, CheckableAt, ChecksAt;
    WrittenNear(m, m', lo, end, bs, i);
    LayoutTiles(m, lo, end, bs);
    StartsAt(bs, lo, end);
    if i == 0 {
      LayoutChecks(m', lo, end, bs);
    } else {
      LostFooter(m, m', lo, end, bs, i);
      FirstChecks(m, m', lo, end, bs, i);
    }
  }

  lemma LostFooter(m: Memory, m': Memory, lo: int, end: int, bs: seq<Block>, i: nat)
    requires Layout(m, lo, end, bs) && 0 < i < |bs| && ReadWord(m', bs[i].addr - 8) == Pack(0, true)
    ensures !Layout(m', lo, end, bs)
  {
    hide Tiles, ReadWord;
    Neighbours(m, lo, end, bs, i);
    if Layout(m', lo, end, bs) {
      Neighbours(m', lo, end, bs, i);
    }
  }

  lemma FirstChecks(m: Memory, m': Memory, lo: int, end: int, bs: seq<Block>, i: nat)
    requires Layout(m, lo, end, bs) && 0 < i < |bs| && 0 <= lo && end < WORD32 && bs[0].addr == lo
    requires ReadWord(m', lo) == ReadWord(m, lo) && ReadWord(m', lo - 8) == Pack(0, true) && ReadWord(m', bs[i].addr - 8) == Pack(0, true)
    requires Mapped(m', lo - 8, end + 8) && (i > 1 ==> TaggedBlock(m', bs[0]))
    ensures CheckableAt(m', lo) && (ChecksAt(m', lo) <==> i != 1)
  {
    hide Tiles, ReadWord, Tagged, ExtractSize, ExtractAlloc, Pack;
    Neighbours(m, lo, end, bs, 0);
    BlockTag(m, bs[0]);
    PackRoundTrip(0, true);
    PackRoundTrip(bs[0].size, bs[0].alloc);
    if i > 1 { FooterIs(m', bs[0]); }
  }

  // Block i split into a block of two tags and the rest, in two writes (m to m1, m1 to m').
  lemma ShortSplit(m: Memory, m1: Memory, m': Memory, lo: int, end: int, bs: seq<Block>, i: nat, a: Block, b: Block)
    requires Layout(m, lo, end, bs) && i < |bs| && !bs[i].alloc && 0 <= lo && end < WORD32
    requires a.addr == bs[i].addr && a.size == 16 && b.addr == a.addr + 16 && a.size + b.size == bs[i].size && b.size >= 32 && a.alloc && !b.alloc
    requires TaggedBlock(m1, a) && Agree(m, m1, a.addr, b.addr)
    requires TaggedBlock(m', b) && Agree(m1, m', b.addr, b.addr + b.size)
    ensures var bs' := bs[..i] + [a, b] + bs[i + 1..];
            && Tagged(m', bs') && !Layout(m', lo, end, bs') && Live(bs') == Live(bs) + {Payload(a.addr + 8, 0)}
            && PayloadsKept(m, m', Live(bs)) && CheckableAt(m', lo) && ChecksAt(m', lo)
    ensures Payload(a.addr + 8, 0) !in Live(bs)
    ensures forall q :: q in Live(bs) ==> Disjoint(q, Payload(a.addr + 8, 0))
  {
    hide Tagged, TaggedBlock, Tiles, Live, PayloadsKept, Agree, Disjoint, Layout, ReadWord, Mapped, CheckableAt, ChecksAt;
    LayoutTiles(m, lo, end, bs);
    TagKept(m1, m', a, b.addr, b.addr + b.size);
    AgreeTrans(m, m1, m', a.addr, b.addr + b.size, a.addr, b.addr, b.addr, b.addr + b.size);
    NewPayload(bs, lo, end, i, 0);
    ShortTagged(m, m', lo, end, bs, i, a, b);
    ShortLive(bs, i, a, b);
    ShortNotLaid(m', lo, end, bs[..i] + [a, b] + bs[i + 1..], i);
  }

  lemma ShortNotLaid(m: Memory, lo: int, end: int, bs: seq<Block>, i: nat)
    requires i < |bs| && bs[i].size == 16
    ensures !Layout(m, lo, end, bs)
  {
    if Layout(m, lo, end, bs) { TilesBounds(bs, lo, end); }
  }

  lemma ShortLive(bs: seq<Block>, i: nat, a: Block, b: Block)
    requires i < |bs| && !bs[i].alloc && a.alloc && !b.alloc
    ensures Live(bs[..i] + [a, b] + bs[i + 1..]) == Live(bs) + {PayloadOf(a)}
  {
    hide Live;
    LiveParts(bs, i, i + 1);
    assert bs[i..i + 1] == [bs[i]];
    LiveOne(bs[i]);
    LiveOne(a);
    LiveOne(b);
    assert [a, b] == [a] + [b];
    LiveConcat([a], [b]);
    LiveConcat(bs[..i], [a, b]);
    LiveConcat(bs[..i] + [a, b], bs[i + 1..]);
  }

  lemma ShortTagged(m: Memory, m': Memory, lo: int, end: int, bs: seq<Block>, i: nat, a: Block, b: Block)
    requires Layout(m, lo, end, bs) && i < |bs| && !bs[i].alloc && 0 <= lo && end < WORD32
    requires a.addr == bs[i].addr && a.size == 16 && b.size >= 32
    requires TaggedBlock(m', a) && TaggedBlock(m', b) && Agree(m, m', bs[i].addr, bs[i].addr + bs[i].size)
    ensures Tagged(m', bs[..i] + [a, b] + bs[i + 1..]) && PayloadsKept(m, m', Live(bs))
    ensures CheckableAt(m', lo) && ChecksAt(m', lo)
  {
    hide Tagged, TaggedBlock, Tiles, Live, PayloadsKept, Layout, ReadWord, Mapped, CheckableAt, ChecksAt;
    var w, e := bs[i].addr, bs[i].addr + bs[i].size;
    LayoutTiles(m, lo, end, bs);
    TilesNext(bs, lo, end, i);
    TilesSplit(bs, lo, end, i);
    TilesSplit(bs, lo, end, i + 1);
    LayoutTagged(m, lo, end, bs);
    TaggedParts(m, bs, i, i + 1);
    StretchKept(m, m', bs[..i], lo, w, w, e);
    StretchKept(m, m', bs[i + 1..], e, end, w, e);
    TaggedTwo(m', a, b);
    TaggedConcat(m', bs[..i], [a, b], bs[i + 1..]);
    WrittenNear(m, m', lo, end, bs, i);
    Neighbours(m, lo, end, bs, i);
    WordKept(m, m', w - 8, w, e);
    Neighbours(m, lo, end, bs, 0);
    MappedPart(m', lo - 8, end + 8, lo - 8, lo);
    if i == 0 {
      StartsAt(bs, lo, end);
      TaggedFirst(m', lo, a);
    } else {
      TagKept(m, m', bs[0], w, e) by { TilesOrdered(bs, lo, end, 0, i); }
      TaggedFirst(m', lo, bs[0]);
    }
  }

  lemma TaggedFirst(m: Memory, lo: int, b: Block)
    requires TaggedBlock(m, b) && b.addr == lo && 16 <= b.size < WORD32 && b.size % 16 == 0
    requires ReadWord(m, lo - 8) == Pack(0, true) && Mapped(m, lo - 8, lo)
    ensures CheckableAt(m, lo) && ChecksAt(m, lo)
  {
    hide ReadWord, Pack, ExtractSize, ExtractAlloc;
    PackRoundTrip(0, true);
    PackRoundTrip(b.size, b.alloc);
  }

  // Block i handed out in two writes (m to m1, m1 to m'), the rest split off as b.
  lemma SplitBlocks(m: Memory, m1: Memory, m': Memory, lo: int, end: int, bs: seq<Block>, i: nat, a: Block, b: Block)
    requires Layout(m, lo, end, bs) && NoFreePair(bs) && i < |bs| && !bs[i].alloc && lo % 16 == 8
    requires a.addr == bs[i].addr && b.addr == a.addr + a.size && a.size + b.size == bs[i].size && a.alloc && !b.alloc
    requires a.size >= 32 && a.size % 16 == 0 && b.size >= 32 && b.size % 16 == 0
    requires TaggedBlock(m1, a) && Agree(m, m1, a.addr, b.addr)
    requires TaggedBlock(m', b) && Agree(m1, m', b.addr, b.addr + b.size)
    ensures var bs' := bs[..i] + [a, b] + bs[i + 1..];
            && Layout(m', lo, end, bs') && NoFreePair(bs')
            && Live(bs') == Live(bs) + {Payload(a.addr + 8, a.size - 16)} && PayloadsKept(m, m', Live(bs))
    ensures forall q :: q in Live(bs) ==> Disjoint(q, Payload(a.addr + 8, a.size - 16))
  {
    hide Layout, Tagged, TaggedBlock, Tiles, Live, PayloadsKept, Agree, NoFreePair, Disjoint;
    TagKept(m1, m', a, b.addr, b.addr + b.size);
    AgreeTrans(m, m1, m', a.addr, b.addr + b.size, a.addr, b.addr, b.addr, b.addr + b.size);
    TaggedTwo(m', a, b);
    PairTiles(a, b);
    PlaceBlocks(m, m', lo, end, bs, i, [a, b]);
    LayoutSeparate(m, lo, end, bs, i, m', bs[..i] + [a, b] + bs[i + 1..], Payload(a.addr + 8, a.size - 16));
  }

  lemma WholeBlock(m: Memory, m': Memory, lo: int, end: int, bs: seq<Block>, i: nat, a: Block)
    requires Layout(m, lo, end, bs) && NoFreePair(bs) && i < |bs| && !bs[i].alloc && lo % 16 == 8
    requires a == Block(bs[i].addr, bs[i].size, true) && a.size >= 32 && a.size % 16 == 0
    requires TaggedBlock(m', a) && Agree(m, m', a.addr, a.addr + a.size)
    ensures var bs' := bs[..i] + [a] + bs[i + 1..];
            && Layout(m', lo, end, bs') && NoFreePair(bs')
            && Live(bs') == Live(bs) + {Payload(a.addr + 8, a.size - 16)} && PayloadsKept(m, m', Live(bs))
    ensures forall q :: q in Live(bs) ==> Disjoint(q, Payload(a.addr + 8, a.size - 16))
  {
    hide Layout, Tagged, TaggedBlock, Tiles, Live, PayloadsKept, Agree, NoFreePair, Disjoint;
    TaggedOne(m', a);
    TilesOne(a);
    PlaceBlocks(m, m', lo, end, bs, i, [a]);
    LayoutSeparate(m, lo, end, bs, i, m', bs[..i] + [a] + bs[i + 1..], Payload(a.addr + 8, a.size - 16));
  }

  lemma EpilogueTag(mem: Memory, lo: int, end: int, bs: seq<Block>)
    requires Layout(mem, lo, end, bs)
    ensures Mapped(mem, end, end + 8) && ExtractSize(ReadWord(mem, end)) == 0
  {
    TilesBounds(bs, lo, end);
    PackRoundTrip(0, true);
  }

  // The header found when the heap walk stands at block i, or at the epilogue.
  lemma Header(mem: Memory, lo: int, end: int, bs: seq<Block>, i: nat)
    requires Layout(mem, lo, end, bs) && i <= |bs| && 0 <= lo && end < WORD32
    ensures i == 0 ==> lo == if i < |bs| then bs[0].addr else end
    ensures Mapped(mem, if i < |bs| then bs[i].addr else end, (if i < |bs| then bs[i].addr else end) + 8)
    ensures i < |bs| ==> bs[i].addr >= lo && bs[i].size >= 32
    ensures i < |bs| ==> bs[i].addr + bs[i].size == if i + 1 < |bs| then bs[i + 1].addr else end
    ensures i < |bs| ==> ExtractSize(ReadWord(mem, bs[i].addr)) == bs[i].size
    ensures i < |bs| ==> ExtractAlloc(ReadWord(mem, bs[i].addr)) == bs[i].alloc
    ensures i == |bs| ==> ExtractSize(ReadWord(mem, end)) == 0
  {
    hide ReadWord, Tagged;
    EpilogueTag(mem, lo, end, bs);
    if i < |bs| {
      Neighbours(mem, lo, end, bs, i);
      BlockTag(mem, bs[i]);
    }
  }

  lemma NothingChanged(m: Memory, lo: int, end: int, bs: seq<Block>)
    requires Layout(m, lo, end, bs)
    ensures PayloadsKept(m, m, Live(bs)) && lo <= end
  {
    TilesBounds(bs, lo, end);
    assert Agree(m, m, end, end);
    StretchKept(m, m, bs, lo, end, end, end);
  }

  lemma KeptBoth(m: Memory, m1: Memory, m2: Memory, ps: set<Payload>)
    requires PayloadsKept(m, m1, ps) && PayloadsKept(m1, m2, ps)
    ensures PayloadsKept(m, m2, ps)
  {
    KeptTrans(m, m1, m2, ps, ps);
    assert ps * ps == ps;
  }

  lemma AreaMapped(mem: Memory, base: int, brkp: int, top: int, lo: int)
    requires PagesOk(mem, base, brkp, top) && lo == base + 8
    ensures Mapped(mem, lo - 8, brkp) && base > 0 && brkp < WORD32
  {
  }

  lemma AppendedLayout(m: Memory, m': Memory, lo: int, end: int, bs: seq<Block>, b: Block)
    requires Layout(m, lo, end, bs) && NoFreePair(bs)
    requires b.addr == end && b.size >= 32 && b.size % 16 == 0 && !b.alloc && TaggedBlock(m', b)
    requires Agree(m, m', end, end + b.size + 8)
    requires Mapped(m', lo - 8, end + b.size + 8) && ReadWord(m', end + b.size) == Pack(0, true)
    ensures Layout(m', lo, end + b.size, bs + [b]) && FreePairOnlyAt(bs + [b], |bs|)
    ensures Live(bs + [b]) == Live(bs) && PayloadsKept(m, m', Live(bs))
  {
    hide Layout, NoFreePair, FreePairOnlyAt, TaggedBlock, Agree, Mapped, ReadWord, Live, PayloadsKept;
    Extend(m, m', lo, end, bs, b);
    LiveOne(b);
    AppendedPairs(bs, b);
  }

  // A payload placed in a free block overlaps none of those that were live before.
  lemma LayoutSeparate(m: Memory, lo: int, end: int, bs: seq<Block>, i: nat, m': Memory, bs': seq<Block>, p: Payload)
    requires Layout(m, lo, end, bs) && Layout(m', lo, end, bs') && i < |bs| && !bs[i].alloc && lo % 16 == 8
    requires Live(bs') == Live(bs) + {p} && p.ptr == bs[i].addr + 8
    ensures forall q :: q in Live(bs) ==> Disjoint(q, p)
    ensures p.ptr % 16 == 0 && lo + 8 <= p.ptr
  {
    FreeBlockUnused(bs, lo, end, i);
    LiveSeparate(bs', lo, end);
  }

  lemma EmptyHeap(mem: Memory, lo: int)
    requires Mapped(mem, lo - 8, lo + 8) && ReadWord(mem, lo - 8) == Pack(0, true) && ReadWord(mem, lo) == Pack(0, true)
    ensures Layout(mem, lo, lo, []) && NoFreePair([]) && Live([]) == {}
  {
  }

  lemma KeptNone(m: Memory, m': Memory)
    ensures PayloadsKept(m, m', {})
  {
  }

  lemma AgreeMore(m: Memory, m': Memory, lo: int, hi: int, hi': int)
    requires Agree(m, m', lo, hi) && hi <= hi'
    ensures Agree(m, m', lo, hi')
  {
  }

  lemma FewerKept(m: Memory, m': Memory, ps: set<Payload>, p: Payload)
    requires PayloadsKept(m, m', ps)
    ensures PayloadsKept(m, m', ps - {p})
  {
  }

  lemma NothingFreed(m: Memory, m': Memory, live: set<Payload>, live': set<Payload>, p: Payload, same: bool)
    requires PayloadsKept(m, m', live') && live' == if same then live else live - {p}
    ensures PayloadsKept(m, m', live - {p})
  {
  }

  // Source and destination of realloc's copy are mapped and do not overlap.
  lemma CopyAreas(m: Memory, lo: int, end: int, bs: seq<Block>, p: Payload, q: Payload, n: int)
    requires Layout(m, lo, end, bs) && p in Live(bs) && q in Live(bs) && Disjoint(p, q) && n <= p.size && n <= q.size
    ensures Mapped(m, p.ptr, p.ptr + n) && Mapped(m, q.ptr, q.ptr + n)
    ensures q.ptr + n <= p.ptr || p.ptr + n <= q.ptr
  {
    PayloadMapped(m, lo, end, bs, p);
    PayloadMapped(m, lo, end, bs, q);
  }

  // Allocate (m to m1), copy (m1 to m2) and free (m2 to m3): the first n bytes arrive, the others stay.
  lemma Moved(m: Memory, m1: Memory, m2: Memory, m3: Memory, live: set<Payload>, p: Payload, q: Payload, n: int)
    requires PayloadsKept(m, m1, live) && PayloadsKept(m1, m2, live + {q} - {q}) && PayloadsKept(m2, m3, live + {q} - {p})
    requires p in live && n <= p.size && n <= q.size && Disjoint(p, q) && p.size > 0
    requires forall l :: l in live ==> l.size > 0 && Disjoint(l, q)
    requires forall k :: q.ptr <= k < q.ptr + n ==> k in m2 && m2[k] == Byte(m1, k - q.ptr + p.ptr)
    ensures PayloadsKept(m, m3, live - {p})
    ensures live + {q} - {p} == live - {p} + {q}
    ensures forall a :: q.ptr <= a < q.ptr + n ==> a in m3 && m3[a] == Byte(m, a - q.ptr + p.ptr)
  {
    forall l | l in live - {p} ensures PayloadKept(m, m3, l) {
      assert PayloadKept(m, m1, l) && PayloadKept(m1, m2, l) && PayloadKept(m2, m3, l);
    }
    assert PayloadKept(m, m1, p) && PayloadKept(m2, m3, q);
  }

  lemma NewIsNot(live: set<Payload>, q: Payload)
    requires forall l :: l in live ==> Disjoint(l, q)
    requires q.size > 0
    ensures live + {q} - {q} == live
  {
  }

  lemma PrologueTag(mem: Memory, lo: int, end: int, bs: seq<Block>)
    requires Layout(mem, lo, end, bs)
    ensures ExtractSize(ReadWord(mem, lo - 8)) == 0 && ExtractAlloc(ReadWord(mem, lo - 8))
  {
    PackRoundTrip(0, true);
  }

  lemma FooterIs(mem: Memory, b: Block)
    requires TaggedBlock(mem, b)
    ensures ReadWord(mem, b.addr + b.size - 8) == ReadWord(mem, b.addr)
  {
  }
}
