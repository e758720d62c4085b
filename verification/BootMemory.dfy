// 410kern/boot/util_lmm.c: mb_util_lmm gives the kernel's allocator all memory that is not taken.
// Addresses and sizes are 32 bits wide, and sums and products of them wrap.

module BootMemory {
  import opened MachineWord

  const TOP: int := 0xffff_ffff
  const FIRST: int := 0x500

  // multiboot_module; the string is 0 if there is none, and its length is what strlen finds.
  datatype BootModule = BootModule(modStart: int, modEnd: int, text: int, textLen: int)

  // The parts of mbinfo_t that are read, the command line's length, and the kernel image's addresses.
  datatype BootInfo = BootInfo(hasCmdline: bool, cmdline: int, cmdlineLen: int, memLower: int, memUpper: int,
                               hasMods: bool, modsAddr: int, mods: seq<BootModule>, kernelStart: int, imageStart: int, kernelEnd: int)

  predicate Address(x: int) { 0 <= x < WORD32 }

  ghost predicate Sane(b: BootInfo) {
    && Address(b.cmdline) && Address(b.memLower) && Address(b.memUpper) && Address(b.modsAddr)
    && Address(b.kernelStart) && Address(b.imageStart) && Address(b.kernelEnd) && b.cmdlineLen >= 0
    && forall i :: 0 <= i < |b.mods| ==> Address(b.mods[i].modStart) && Address(b.mods[i].modEnd) && Address(b.mods[i].text) && b.mods[i].textLen >= 0
  }

  // Memory in use, from lo up to hi; empty if lo is not below hi.
  datatype Hole = Hole(lo: int, hi: int)

  // A block on its way to the free list.
  datatype Block = Block(lo: int, hi: int)

  function CmdStart(b: BootInfo): int { if b.hasCmdline then b.cmdline else 0 }

  function CmdEnd(b: BootInfo): int { if CmdStart(b) != 0 then U32(CmdStart(b) + b.cmdlineLen + 1) else 0 }

  // What the modules take up.
  ghost function ModuleHoles(ms: seq<BootModule>): seq<Hole> {
    if ms == [] then []
    else HolesOf(ms[0]) + ModuleHoles(ms[1..])
  }

  ghost function FixedHoles(b: BootInfo): seq<Hole> {
    [Hole(U32(b.memLower * 1024), 0x10_0000), Hole(U32(0x10_0000 + U32(b.memUpper * 1024)), TOP),
     Hole(b.kernelStart, b.kernelEnd), Hole(b.imageStart, b.kernelEnd), Hole(CmdStart(b), CmdEnd(b))]
  }

  // Everything that must not be given away.
  ghost function Holes(b: BootInfo): seq<Hole> {
    FixedHoles(b)
    + (if b.hasMods && |b.mods| > 0 then [Hole(b.modsAddr, U32(b.modsAddr + |b.mods| * 16))] + ModuleHoles(b.mods) else [])
  }

  predicate InHole(h: Hole, a: int) { h.lo <= a < h.hi }

  ghost predicate Taken(hs: seq<Hole>, a: int) { exists i :: 0 <= i < |hs| && InHole(hs[i], a) }

  ghost predicate Apart(h: Hole, min: int, max: int) { forall a :: min <= a < max ==> !InHole(h, a) }

  ghost predicate AllApart(hs: seq<Hole>, min: int, max: int) { forall i :: 0 <= i < |hs| ==> Apart(hs[i], min, max) }

  // The macro skip: either the block is cut short before the hole, or the search starts again behind it.
  method Skip(min: int, max: int, lo: int, hi: int) returns (retry: bool, min': int, max': int)
    requires min < max
    ensures !retry ==> min' == min < max' <= max && Apart(Hole(lo, hi), min, max')
    ensures retry ==> min < min' == hi && forall a :: min <= a < min' ==> InHole(Hole(lo, hi), a)
  {
    retry, min', max' := false, min, max;
    if max > lo && min < hi {
      if min < lo {
        max' := lo;
      } else {
        min' := hi;
        retry := true;
      }
    }
  }

  // What a module takes up: its string, if it has one, and its data.
  ghost function HolesOf(m: BootModule): seq<Hole> {
    (if m.text != 0 then [Hole(m.text, U32(m.text + m.textLen + 1))] else []) + [Hole(m.modStart, m.modEnd)]
  }

  method SkipModule(m: BootModule, min0: int, max0: int) returns (retry: bool, min: int, max: int)
    requires 0 <= min0 < max0 <= TOP && Address(m.modEnd)
    ensures !retry ==> min == min0 < max <= max0 && AllApart(HolesOf(m), min0, max)
    ensures retry ==> min0 < min < WORD32 && forall a :: min0 <= a < min ==> Taken(HolesOf(m), a)
  {
    retry, min, max := false, min0, max0;
    if m.text != 0 {
      retry, min, max := Skip(min, max, m.text, U32(m.text + m.textLen + 1));
      if retry {
        assert InHole(HolesOf(m)[0], min0);
        return;
      }
    }
    retry, min, max := Skip(min, max, m.modStart, m.modEnd);
    if retry {
      assert InHole(HolesOf(m)[|HolesOf(m)| - 1], min0);
    }
  }

  // The modules' part of one pass.
  method SkipModules(b: BootInfo, min0: int, max0: int) returns (retry: bool, min: int, max: int)
    requires Sane(b) && 0 <= min0 < max0 <= TOP
    ensures !retry ==> min == min0 < max <= max0 && AllApart(ModuleHoles(b.mods), min0, max)
    ensures retry ==> min0 < min < WORD32 && forall a :: min0 <= a < min ==> Taken(ModuleHoles(b.mods), a)
  {
    hide HolesOf, ModuleHoles, Taken, AllApart;
    retry, min, max := false, min0, max0;
    var i := 0;
    NoModules(min0, max0);
    assert b.mods[..0] == [];
    while i < |b.mods|
      invariant 0 <= i <= |b.mods| && !retry && min == min0 < max <= max0
      invariant AllApart(ModuleHoles(b.mods[..i]), min0, max)
    {
      ghost var max1 := max;
      ModuleHolesStep(b.mods, i);
      retry, min, max := SkipModule(b.mods[i], min, max);
      if retry {
        ModuleHolesPart(b.mods, i + 1);
        TakenBy(ModuleHoles(b.mods[..i]), HolesOf(b.mods[i]), ModuleHoles(b.mods), min0, min);
        return;
      }
      ApartBoth(ModuleHoles(b.mods[..i]), HolesOf(b.mods[i]), min0, max1, max);
      i := i + 1;
    }
    assert b.mods[..i] == b.mods;
  }

  lemma NoModules(min: int, max: int)
    ensures AllApart(ModuleHoles([]), min, max)
  {
  }

  lemma TakenBy(before: seq<Hole>, hs: seq<Hole>, all: seq<Hole>, min: int, max: int)
    requires before + hs <= all && forall a :: min <= a < max ==> Taken(hs, a)
    ensures forall a :: min <= a < max ==> Taken(all, a)
  {
    forall a | min <= a < max ensures Taken(all, a) {
      assert Taken(hs, a);
      var i :| 0 <= i < |hs| && InHole(hs[i], a);
      assert all[|before| + i] == hs[i];
    }
  }

  lemma ApartBoth(before: seq<Hole>, hs: seq<Hole>, min: int, max1: int, max: int)
    requires AllApart(before, min, max1) && AllApart(hs, min, max) && max <= max1
    ensures AllApart(before + hs, min, max)
  {
  }

  lemma {:induction false} ModuleHolesConcat(a: seq<BootModule>, c: seq<BootModule>)
    ensures ModuleHoles(a + c) == ModuleHoles(a) + ModuleHoles(c)
  {
    hide HolesOf;
    if a == [] {
      assert a + c == c;
    } else {
      ModuleHolesConcat(a[1..], c);
      assert (a + c)[1..] == a[1..] + c;
    }
  }

  lemma ModuleHolesStep(ms: seq<BootModule>, i: nat)
    requires i < |ms|
    ensures ModuleHoles(ms[..i + 1]) == ModuleHoles(ms[..i]) + HolesOf(ms[i])
  {
    assert ms[..i + 1] == ms[..i] + [ms[i]];
    ModuleHolesConcat(ms[..i], [ms[i]]);
    assert [ms[i]][1..] == [];
    assert ModuleHoles([ms[i]]) == HolesOf(ms[i]) + ModuleHoles([]);
  }

  lemma ModuleHolesPart(ms: seq<BootModule>, i: nat)
    requires i <= |ms|
    ensures ModuleHoles(ms[..i]) <= ModuleHoles(ms)
  {
    assert ms == ms[..i] + ms[i..];
    ModuleHolesConcat(ms[..i], ms[i..]);
  }

  // One pass of the search loop: a block from min0 that is apart from every hole, or a new start behind
  // a hole that min0 lies in.
  method Pass(b: BootInfo, min0: int) returns (found: bool, min: int, max: int)
    requires Sane(b) && 0 <= min0 < TOP
    ensures found ==> min == min0 < max <= TOP && AllApart(Holes(b), min0, max)
    ensures !found ==> min0 < min < WORD32 && forall a :: min0 <= a < min ==> Taken(Holes(b), a)
  {
    ghost var hs := Holes(b);
    var retry;
    found, min, max := false, min0, TOP;
    retry, min, max := Skip(min, max, U32(b.memLower * 1024), 0x10_0000);
    if retry { assert InHole(hs[0], min0); return; }
    retry, min, max := Skip(min, max, U32(0x10_0000 + U32(b.memUpper * 1024)), TOP);
    if retry { assert InHole(hs[1], min0); return; }
    retry, min, max := Skip(min, max, b.kernelStart, b.kernelEnd);
    if retry { assert InHole(hs[2], min0); return; }
    retry, min, max := Skip(min, max, b.imageStart, b.kernelEnd);
    if retry { assert InHole(hs[3], min0); return; }
    retry, min, max := Skip(min, max, CmdStart(b), CmdEnd(b));
    if retry { assert InHole(hs[4], min0); return; }
    assert AllApart(FixedHoles(b), min0, max);
    if b.hasMods && |b.mods| > 0 {
      retry, min, max := Skip(min, max, b.modsAddr, U32(b.modsAddr + |b.mods| * 16));
      if retry { assert InHole(hs[5], min0); return; }
      retry, min, max := SkipModules(b, min, max);
      if retry {
        LaterTaken(b, min0, min);
        return;
      }
    }
    AllHolesApart(b, min0, max);
    found := true;
  }

  lemma LaterTaken(b: BootInfo, lo: int, hi: int)
    requires b.hasMods && |b.mods| > 0 && forall a :: lo <= a < hi ==> Taken(ModuleHoles(b.mods), a)
    ensures forall a :: lo <= a < hi ==> Taken(Holes(b), a)
  {
    forall a | lo <= a < hi ensures Taken(Holes(b), a) {
      assert Taken(ModuleHoles(b.mods), a);
      var i :| 0 <= i < |ModuleHoles(b.mods)| && InHole(ModuleHoles(b.mods)[i], a);
      assert Holes(b)[6 + i] == ModuleHoles(b.mods)[i];
    }
  }

  lemma AllHolesApart(b: BootInfo, min: int, max: int)
    requires AllApart(FixedHoles(b), min, max)
    requires b.hasMods && |b.mods| > 0 ==> Apart(Hole(b.modsAddr, U32(b.modsAddr + |b.mods| * 16)), min, max) && AllApart(ModuleHoles(b.mods), min, max)
    ensures AllApart(Holes(b), min, max)
  {
    forall i | 0 <= i < |Holes(b)| ensures Apart(Holes(b)[i], min, max) {
      if i < 5 {
        assert Holes(b)[i] == FixedHoles(b)[i];
      } else if i >= 6 {
        assert Holes(b)[i] == ModuleHoles(b.mods)[i - 6];
      }
    }
  }

  predicate InBlock(x: Block, a: int) { x.lo <= a < x.hi }

  ghost predicate Freed(bs: seq<Block>, a: int) { exists i :: 0 <= i < |bs| && InBlock(bs[i], a) }

  // The blocks are not empty, and each ends before the next begins, in lo..hi.
  ghost predicate Ascending(bs: seq<Block>, lo: int, hi: int) {
    && (forall i :: 0 <= i < |bs| ==> lo <= bs[i].lo < bs[i].hi <= hi)
    && (forall i, j :: 0 <= i < j < |bs| ==> bs[i].hi <= bs[j].lo)
  }

  // mb_util_lmm: it ends, and the blocks it frees, in ascending order and apart from each other, are
  // exactly the memory from FIRST to TOP outside all holes.
  method UtilLmm(b: BootInfo) returns (freed: seq<Block>)
    requires Sane(b)
    ensures Ascending(freed, FIRST, TOP)
    ensures forall a :: Freed(freed, a) <==> FIRST <= a < TOP && !Taken(Holes(b), a)
  {
    hide Holes, FixedHoles, ModuleHoles;
    freed := [];
    var min := FIRST;
    while min < TOP
      invariant FIRST <= min < WORD32 && Ascending(freed, FIRST, if min < TOP then min else TOP)
      invariant forall a :: Freed(freed, a) <==> FIRST <= a < min && a < TOP && !Taken(Holes(b), a)
      decreases WORD32 - min
    {
      var found, min', max := Pass(b, min);
      if found {
        FreedOne(freed, Block(min', max));
        ApartFree(Holes(b), min, max);
        freed := freed + [Block(min', max)];
        min := max;
      } else {
        min := min';
      }
    }
  }

  lemma FreedOne(bs: seq<Block>, x: Block)
    ensures forall a :: Freed(bs + [x], a) <==> Freed(bs, a) || InBlock(x, a)
  {
    forall a ensures Freed(bs + [x], a) <==> Freed(bs, a) || InBlock(x, a) {
      if Freed(bs, a) {
        var i :| 0 <= i < |bs| && InBlock(bs[i], a);
        assert (bs + [x])[i] == bs[i];
      }
      if InBlock(x, a) {
        assert (bs + [x])[|bs|] == x;
      }
    }
  }

  lemma ApartFree(hs: seq<Hole>, min: int, max: int)
    requires AllApart(hs, min, max)
    ensures forall a :: min <= a < max ==> !Taken(hs, a)
  {
  }

  ghost predicate Covers(h: Hole, lo: int, hi: int) { forall a :: lo <= a < hi ==> InHole(h, a) }

  // The hole computed for len bytes at lo protects them exactly if their end does not wrap around; if it
  // does, it protects none of them.
  lemma WrappedHole(lo: int, len: int)
    requires 0 <= lo < WORD32 && 0 < len < WORD32
    ensures Covers(Hole(lo, U32(lo + len)), lo, if lo + len < WORD32 then lo + len else WORD32) <==> lo + len < WORD32
    ensures lo + len >= WORD32 ==> Apart(Hole(lo, U32(lo + len)), 0, WORD32)
  {
    if lo + len >= WORD32 {
      assert U32(lo + len) <= lo;
      assert !InHole(Hole(lo, U32(lo + len)), lo);
    }
  }

  lemma {:induction false} ModuleTaken(ms: seq<BootModule>, a: int)
    ensures Taken(ModuleHoles(ms), a) <==> exists j :: 0 <= j < |ms| && Taken(HolesOf(ms[j]), a)
  {
    hide HolesOf;
    if ms != [] {
      ModuleTaken(ms[1..], a);
      TakenConcat(HolesOf(ms[0]), ModuleHoles(ms[1..]), a);
      assert forall j :: 0 < j < |ms| ==> ms[j] == ms[1..][j - 1];
      if j :| 0 <= j < |ms| && Taken(HolesOf(ms[j]), a) {
        if j > 0 { assert Taken(HolesOf(ms[1..][j - 1]), a); }
      }
    }
  }

  lemma TakenConcat(hs: seq<Hole>, more: seq<Hole>, a: int)
    ensures Taken(hs + more, a) <==> Taken(hs, a) || Taken(more, a)
  {
    if i :| 0 <= i < |hs| && InHole(hs[i], a) { assert (hs + more)[i] == hs[i]; }
    if i :| 0 <= i < |more| && InHole(more[i], a) { assert (hs + more)[|hs| + i] == more[i]; }
    if i :| 0 <= i < |hs + more| && InHole((hs + more)[i], a) {
      if i >= |hs| { assert (hs + more)[i] == more[i - |hs|]; }
    }
  }

  // The boot information with another module in place i.
  function WithModule(b: BootInfo, i: nat, m: BootModule): BootInfo
    requires i < |b.mods|
  {
    b.(mods := b.mods[i := m])
  }

  lemma ModuleMatters(b: BootInfo, i: nat, m: BootModule, a: int)
    requires i < |b.mods| && (Taken(HolesOf(m), a) <==> Taken(HolesOf(b.mods[i]), a))
    ensures Taken(Holes(WithModule(b, i, m)), a) <==> Taken(Holes(b), a)
  {
    hide HolesOf, ModuleHoles, FixedHoles;
    var ms := b.mods[i := m];
    ModuleTaken(b.mods, a);
    ModuleTaken(ms, a);
    if j :| 0 <= j < |ms| && Taken(HolesOf(ms[j]), a) { assert Taken(HolesOf(b.mods[j]), a); }
    if j :| 0 <= j < |ms| && Taken(HolesOf(b.mods[j]), a) { assert Taken(HolesOf(ms[j]), a); }
    SameFixed(b, i, m);
    if b.hasMods {
      var table := [Hole(b.modsAddr, U32(b.modsAddr + |ms| * 16))];
      TakenConcat(table, ModuleHoles(b.mods), a);
      TakenConcat(table, ModuleHoles(ms), a);
      TakenConcat(FixedHoles(b), table + ModuleHoles(b.mods), a);
      TakenConcat(FixedHoles(b), table + ModuleHoles(ms), a);
    }
  }

  lemma SameFixed(b: BootInfo, i: nat, m: BootModule)
    requires i < |b.mods|
    ensures FixedHoles(WithModule(b, i, m)) == FixedHoles(b)
  {
  }

  // When the end of a module's string wraps, or its data end where they start or before, the search treats the
  // module as if it had no string or no data: with UtilLmm's contract, of that memory it frees every byte that
  // no other hole covers.
  lemma WrappedModule(b: BootInfo, i: nat, a: int)
    requires Sane(b) && i < |b.mods| && b.mods[i].textLen < WORD32
    ensures b.mods[i].text + b.mods[i].textLen + 1 >= WORD32 ==>
              (Taken(Holes(b), a) <==> Taken(Holes(WithModule(b, i, b.mods[i].(text := 0))), a))
    ensures b.mods[i].modEnd <= b.mods[i].modStart ==>
              (Taken(Holes(b), a) <==> Taken(Holes(WithModule(b, i, b.mods[i].(modStart := 0, modEnd := 0))), a))
  {
    hide Holes;
    var m := b.mods[i];
    if m.text + m.textLen + 1 >= WORD32 {
      StringLost(m, a);
      ModuleMatters(b, i, m.(text := 0), a);
    }
    if m.modEnd <= m.modStart {
      DataLost(m, a);
      ModuleMatters(b, i, m.(modStart := 0, modEnd := 0), a);
    }
  }

  lemma StringLost(m: BootModule, a: int)
    requires Address(m.text) && 0 <= m.textLen < WORD32 && m.text + m.textLen + 1 >= WORD32
    ensures Taken(HolesOf(m), a) <==> Taken(HolesOf(m.(text := 0)), a)
  {
    var data := [Hole(m.modStart, m.modEnd)];
    if m.text != 0 {
      var h := Hole(m.text, U32(m.text + m.textLen + 1));
      assert h.hi <= h.lo;
      TakenConcat([h], data, a);
      assert [] + data == data;
    }
  }

  lemma DataLost(m: BootModule, a: int)
    requires m.modEnd <= m.modStart
    ensures Taken(HolesOf(m), a) <==> Taken(HolesOf(m.(modStart := 0, modEnd := 0)), a)
  {
    var text := if m.text != 0 then [Hole(m.text, U32(m.text + m.textLen + 1))] else [];
    TakenConcat(text, [Hole(m.modStart, m.modEnd)], a);
    TakenConcat(text, [Hole(0, 0)], a);
  }
}
