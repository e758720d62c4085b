// 410user/libRNG/mt19937int.c: the Mersenne Twister MT19937, refilled in place. Words are 32 bits wide.

module MersenneTwister {
  const N: int := 624
  const M: int := 397
  const MATRIX_A: bv32 := 0x9908_b0df
  const UPPER_MASK: bv32 := 0x8000_0000
  const LOWER_MASK: bv32 := 0x7fff_ffff
  const DEFAULT_SEED: bv32 := 4357

  // The word that replaces hi in the refill: far is the word M places on, lo the next one.
  function NextWord(far: bv32, hi: bv32, lo: bv32): bv32 {
    var y := (hi & UPPER_MASK) | (lo & LOWER_MASK);
    far ^ (y >> 1) ^ (if y & 1 == 1 then MATRIX_A else 0)
  }

  function SeedStep(x: bv32): bv32 { (69069 * x) & 0xffff_ffff }

  // The infinite sequence: N words from the seed, then x[k+N] from x[k+M], x[k] and x[k+1].
  function X(seed: bv32, k: nat): bv32 {
    if k == 0 then seed
    else if k < N then SeedStep(X(seed, k - 1))
    else NextWord(X(seed, k - N + M), X(seed, k - N), X(seed, k - N + 1))
  }

  function Xor(a: bv32, b: bv32): bv32 { a ^ b }

  function ShiftU(y: bv32): bv32 { y >> 11 }

  function ShiftL(y: bv32): bv32 { y >> 18 }

  function TemperU(y: bv32): bv32 { Xor(y, ShiftU(y)) }

  function TemperS(y: bv32): bv32 { y ^ ((y << 7) & 0x9d2c_5680) }

  function TemperT(y: bv32): bv32 { y ^ ((y << 15) & 0xefc6_0000) }

  function TemperL(y: bv32): bv32 { Xor(y, ShiftL(y)) }

  function Temper(y: bv32): bv32 { TemperL(TemperT(TemperS(TemperU(y)))) }

  lemma AllBits(x: bv32)
    ensures x & 0xffff_ffff == x
  {
  }

  lemma XNext(seed: bv32, k: nat)
    ensures X(seed, k + N) == NextWord(X(seed, k + M), X(seed, k), X(seed, k + 1))
  {
    hide NextWord, SeedStep;
  }

  class Generator {
    const mt: array<bv32>
    var mti: int                  // N + 1: not initialised
    ghost var seed: bv32
    ghost var base: nat           // the place of mt[0] in the sequence

    ghost predicate Valid()
      reads this, mt
    {
      && mt.Length == N && 0 <= mti <= N + 1
      && (mti <= N ==> base + mti >= N && forall i :: 0 <= i < N ==> mt[i] == X(seed, base + i))
    }

    // How many words have been drawn since the seed was set.
    ghost function Drawn(): int
      reads this
    {
      if mti <= N then base + mti - N else 0
    }

    ghost function Seed(): bv32
      reads this
    {
      if mti <= N then seed else DEFAULT_SEED
    }

    constructor ()
      ensures Valid() && fresh(mt) && Drawn() == 0 && Seed() == DEFAULT_SEED
    {
      mt := new bv32[N];
      mti := N + 1;
      base := 0;
    }

    method Sgenrand(s: bv32)
      requires Valid()
      modifies this, mt
      ensures Valid() && Seed() == s && Drawn() == 0 && mti == N
    {
      hide SeedStep, NextWord;
      seed, base := s, 0;
      AllBits(s);
      mt[0] := s & 0xffff_ffff;
      mti := 1;
      while mti < N
        invariant 1 <= mti <= N && seed == s && base == 0
        invariant forall i :: 0 <= i < mti ==> mt[i] == X(s, i)
      {
        mt[mti] := SeedStep(mt[mti - 1]);
        mti := mti + 1;
      }
    }

    // mt[k..] holds the words from base, mt[..k] already those N further on.
    ghost predicate Refilled(k: int)
      reads this, mt
    {
      && mt.Length == N && 0 <= k <= N
      && (forall i :: 0 <= i < k ==> mt[i] == X(seed, base + N + i))
      && (forall i :: k <= i < N ==> mt[i] == X(seed, base + i))
    }

    // One word of the refill; far is the word M places on, in the old or in the new part.
    method Step(k: int, next: int, far: int)
      requires 0 <= k < N && Refilled(k)
      requires next == if k + 1 < N then k + 1 else 0
      requires far == if k + M < N then k + M else k + M - N
      modifies mt
      ensures Refilled(k + 1)
    {
      hide X, NextWord, SeedStep;
      XNext(seed, base + k);
      mt[k] := NextWord(mt[far], mt[k], mt[next]);
    }

    // The three loops that generate N words at one time.
    method Refill()
      requires Valid() && mti == N
      modifies this, mt
      ensures Valid() && mti == 0 && seed == old(seed) && base == old(base) + N
    {
      var kk := 0;
      while kk < N - M
        invariant 0 <= kk <= N - M && Refilled(kk)
        modifies mt
      {
        Step(kk, kk + 1, kk + M);
        kk := kk + 1;
      }
      while kk < N - 1
        invariant N - M <= kk <= N - 1 && Refilled(kk)
        modifies mt
      {
        Step(kk, kk + 1, kk + (M - N));
        kk := kk + 1;
      }
      Step(N - 1, 0, M - 1);
      mti := 0;
      base := base + N;
    }

    // The k-th word drawn after seeding is the tempered word N + k of the sequence.
    method Genrand() returns (r: bv32)
      requires Valid()
      modifies this, mt
      ensures Valid() && Seed() == old(Seed()) && Drawn() == old(Drawn()) + 1
      ensures r == Temper(X(old(Seed()), (N + old(Drawn())) as int))
    {
      hide X, TemperU, TemperS, TemperT, TemperL;
      if mti >= N {
        if mti == N + 1 {
          Sgenrand(DEFAULT_SEED);
        }
        Refill();
      }
      var y := mt[mti];
      mti := mti + 1;
      y := TemperU(y);
      y := TemperS(y);
      y := TemperT(y);
      y := TemperL(y);
      r := y;
    }
  }

  // Seeding and drawing n words gives the tempered words N, N + 1, ... of the sequence.
  method Draw(seed: bv32, n: nat) returns (rs: seq<bv32>)
    ensures |rs| == n && forall k :: 0 <= k < n ==> rs[k] == Temper(X(seed, N + k))
  {
    var g := new Generator();
    g.Sgenrand(seed);
    rs := [];
    while |rs| < n
      invariant g.Valid() && fresh(g) && fresh(g.mt) && |rs| <= n && g.Seed() == seed && g.Drawn() == |rs|
      invariant forall k :: 0 <= k < |rs| ==> rs[k] == Temper(X(seed, N + k))
      decreases n - |rs|
    {
      var r := g.Genrand();
      rs := rs + [r];
    }
  }

  // ------------------------------------------------------------------ tempering loses nothing

  function UntemperU(y: bv32): bv32 { Xor(Xor(y, ShiftU(y)), ShiftU(ShiftU(y))) }

  function UntemperS(y: bv32): bv32 {
    var a := y ^ ((y << 7) & 0x9d2c_5680);
    var b := y ^ ((a << 7) & 0x9d2c_5680);
    var c := y ^ ((b << 7) & 0x9d2c_5680);
    y ^ ((c << 7) & 0x9d2c_5680)
  }

  function Untemper(y: bv32): bv32 { UntemperU(UntemperS(TemperT(TemperL(y)))) }

  lemma XorAssoc(a: bv32, b: bv32, c: bv32)
    ensures Xor(Xor(a, b), c) == Xor(a, Xor(b, c))
  {
  }

  lemma XorSelf(a: bv32, b: bv32)
    ensures Xor(a, a) == 0 && Xor(a, 0) == a && Xor(a, b) == Xor(b, a)
  {
  }

  lemma XorCancel(a: bv32, b: bv32)
    ensures Xor(Xor(a, b), b) == a && Xor(a, Xor(a, b)) == b
  {
    hide Xor;
    XorAssoc(a, b, b);
    XorAssoc(a, a, b);
    XorSelf(a, b);
    XorSelf(b, 0);
  }

  lemma ShiftUXor(a: bv32, b: bv32)
    ensures ShiftU(Xor(a, b)) == Xor(ShiftU(a), ShiftU(b))
  {
  }

  lemma ShiftUThrice(a: bv32)
    ensures ShiftU(ShiftU(ShiftU(a))) == 0
  {
  }

  lemma ShiftLXor(a: bv32, b: bv32)
    ensures ShiftL(Xor(a, b)) == Xor(ShiftL(a), ShiftL(b))
  {
  }

  lemma ShiftLTwice(a: bv32)
    ensures ShiftL(ShiftL(a)) == 0
  {
  }

  lemma UndoU(y: bv32)
    ensures UntemperU(TemperU(y)) == y && TemperU(UntemperU(y)) == y
  {
    hide Xor, ShiftU;
    var s := ShiftU(y);
    var t := ShiftU(s);
    ShiftUThrice(y);
    ShiftUXor(y, s);
    ShiftUXor(s, t);
    XorSelf(t, 0);
    // forth: y^s, then (y^s)^(s^t) = y^t, then (y^t)^t = y
    XorAssoc(y, s, Xor(s, t));
    XorCancel(s, t);
    XorCancel(y, t);
    // back: y^s^t, shifted s^t
    ShiftUXor(Xor(y, s), t);
    XorAssoc(y, s, t);
    XorSelf(Xor(s, t), 0);
    XorCancel(y, Xor(s, t));
  }

  lemma UndoS(y: bv32)
    ensures UntemperS(TemperS(y)) == y && TemperS(UntemperS(y)) == y
  {
  }

  lemma UndoT(y: bv32)
    ensures TemperT(TemperT(y)) == y
  {
  }

  lemma UndoL(y: bv32)
    ensures TemperL(TemperL(y)) == y
  {
    hide Xor, ShiftL;
    ShiftLXor(y, ShiftL(y));
    ShiftLTwice(y);
    XorSelf(ShiftL(y), 0);
    XorCancel(y, ShiftL(y));
  }

  // Tempering is a bijection on 32-bit words, and Untemper is its inverse.
  lemma TemperBijective(y: bv32)
    ensures Untemper(Temper(y)) == y && Temper(Untemper(y)) == y
  {
    hide TemperU, TemperS, TemperT, TemperL, UntemperU, UntemperS;
    UndoL(TemperT(TemperS(TemperU(y))));
    UndoT(TemperS(TemperU(y)));
    UndoS(TemperU(y));
    UndoU(y);
    UndoU(UntemperS(TemperT(TemperL(y))));
    UndoS(TemperT(TemperL(y)));
    UndoT(TemperL(y));
    UndoL(y);
  }

  // N outputs in a row, from the d-th on.
  ghost function Outputs(seed: bv32, d: nat): (os: seq<bv32>)
    ensures |os| == N && forall i :: 0 <= i < N ==> os[i] == Temper(X(seed, N + d + i))
  {
    seq(N, i requires 0 <= i => Temper(X(seed, N + d + i)))
  }

  // They determine all that follow: generators that agree on N outputs agree for ever.
  lemma {:induction false} Predictable(s1: bv32, s2: bv32, d1: nat, d2: nat, k: nat)
    requires Outputs(s1, d1) == Outputs(s2, d2)
    ensures X(s1, N + d1 + k) == X(s2, N + d2 + k)
  {
    hide Temper, NextWord, SeedStep;
    if k < N {
      assert Outputs(s1, d1)[k] == Outputs(s2, d2)[k];
      TemperBijective(X(s1, N + d1 + k)) by { hide X; }
      TemperBijective(X(s2, N + d2 + k)) by { hide X; }
    } else {
      Predictable(s1, s2, d1, d2, k - N + M);
      Predictable(s1, s2, d1, d2, k - N);
      Predictable(s1, s2, d1, d2, k - N + 1);
    }
  }
}
