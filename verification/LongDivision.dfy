// 64-bit unsigned division on 16-bit digits: Knuth's Algorithm D as coded in
// 410user/libx86/gccisms.c. Digits are stored most significant first; the C
// pointers u, v and q into uspace, vspace and qspace become array offsets.
// A u_int is a number below WORD32 and every u_int operation that could wrap is
// written with U32.

module Digits {
  import opened MachineWord

  const B: int := 0x1_0000

  function HHalf(x: int): int { x / B }

  function LHalf(x: int): int { x % B }

  // COMBINE(a, b). The halves occupy different bits, so `|` is a sum; see OrIsSum.
  function Combine(a: int, b: int): int { U32(a * B) + b }

  // `|` of two words without a common bit is their sum: this justifies Combine and the
  // two-part digits that shl and the final unshift put together.
  lemma OrIsSum(x: bv32, y: bv32)
    requires x & y == 0
    ensures x | y == x + y
  {
  }

  // B^k
  function Pow(k: nat): (p: int)
    ensures p >= 1
  {
    if k == 0 then 1 else B * Pow(k - 1)
  }

  function Pow2(k: nat): (p: int)
    ensures p >= 1
  {
    if k == 0 then 1 else 2 * Pow2(k - 1)
  }

  // x followed by k zero digits. The loops below keep this product folded (`hide`) and leave the
  // arithmetic to lemmas.
  function Scale(x: int, k: nat): int { x * Pow(k) }

  function Times(x: int, y: int): int { x * y }

  predicate IsDigits(s: seq<int>) {
    forall i :: 0 <= i < |s| ==> 0 <= s[i] < B
  }

  // The number written by the digits of s, most significant first.
  function Val(s: seq<int>): int {
    if s == [] then 0 else s[0] * Pow(|s| - 1) + Val(s[1..])
  }

  lemma MulMono(a: int, b: int, c: int)
    requires a <= b && 0 <= c
    ensures a * c <= b * c
  {
  }

  lemma DigitProduct(a: int, b: int)
    requires 0 <= a < B && 0 <= b < B
    ensures 0 <= a * b <= (B - 1) * (B - 1)
  {
    MulMono(0, a, b);
    MulMono(a, B - 1, b);
  }

  lemma {:induction false} PowAdd(a: nat, b: nat)
    ensures Pow(a + b) == Pow(a) * Pow(b)
  {
    if a > 0 {
      PowAdd(a - 1, b);
      assert B * (Pow(a - 1) * Pow(b)) == (B * Pow(a - 1)) * Pow(b);
    }
  }

  lemma {:induction false} ValBounds(s: seq<int>)
    requires IsDigits(s)
    ensures 0 <= Val(s) < Pow(|s|)
  {
    if s != [] {
      ValBounds(s[1..]);
      MulMono(0, s[0], Pow(|s| - 1));
      MulMono(s[0], B - 1, Pow(|s| - 1));
    }
  }

  lemma {:induction false} ValConcat(s: seq<int>, t: seq<int>)
    ensures Val(s + t) == Val(s) * Pow(|t|) + Val(t)
  {
    if s == [] {
      assert s + t == t;
    } else {
      ValConcat(s[1..], t);
      assert (s + t)[1..] == s[1..] + t;
      PowAdd(|s| - 1, |t|);
      ConcatProducts(s[0], Pow(|s| - 1), Pow(|t|), Val(s[1..]));
    }
  }

  lemma ConcatProducts(a: int, b: int, c: int, rest: int)
    ensures (a * b + rest) * c == a * (b * c) + rest * c
  {
  }

  lemma ValSnoc(s: seq<int>, d: int)
    ensures Val(s + [d]) == Val(s) * B + d
  {
    ValConcat(s, [d]);
    assert Pow(1) == B * Pow(0);
    assert Val([d]) == d * Pow(0) + Val([d][1..]);
  }

  lemma ValSplit(s: seq<int>, lo: nat, mid: nat, hi: nat)
    requires lo <= mid <= hi <= |s|
    ensures Val(s[lo..hi]) == Val(s[lo..mid]) * Pow(hi - mid) + Val(s[mid..hi])
  {
    assert s[lo..hi] == s[lo..mid] + s[mid..hi];
    ValConcat(s[lo..mid], s[mid..hi]);
  }

  lemma {:induction false} Pow2Add(a: nat, b: nat)
    ensures Pow2(a + b) == Pow2(a) * Pow2(b)
  {
    if a > 0 {
      Pow2Add(a - 1, b);
      assert 2 * (Pow2(a - 1) * Pow2(b)) == (2 * Pow2(a - 1)) * Pow2(b);
    }
  }

  lemma Pow2Split(d: nat)
    requires d <= 16
    ensures Pow2(d) * Pow2(16 - d) == B
  {
    Pow2Add(d, 16 - d);
    assert Pow2(4) == 16;
    Pow2Add(4, 4);
    Pow2Add(8, 8);
  }

  lemma QuotientUnique(x: int, m: int, a: int, b: int)
    requires m > 0 && x == a * m + b && 0 <= b < m
    ensures x / m == a && x % m == b
  {
    var q, r := x / m, x % m;
    assert (q - a) * m == b - r;
    if q > a {
      MulMono(1, q - a, m);
    } else if q < a {
      MulMono(q - a, -1, m);
    }
  }

  // A digit shifted left by the amount p = 2^sh, with r = 2^(16-sh): the part that leaves the digit
  // and the part that stays.
  lemma ShiftParts(x: int, p: int, r: int)
    requires 0 <= x < B && p >= 1 && r >= 1 && p * r == B
    ensures x * p == (x / r) * B + (x * p) % B
    ensures (x * p) % B == (x % r) * p <= B - p
    ensures 0 <= x / r < p
  {
    var a, b := x / r, x % r;
    assert x == a * r + b;
    assert x * p == a * (r * p) + b * p by {
      assert (a * r + b) * p == (a * r) * p + b * p;
      assert (a * r) * p == a * (r * p);
    }
    MulMono(b, r - 1, p);
    MulMono(0, b, p);
    QuotientUnique(x * p, B, a, b * p);
    if a >= p {
      MulMono(p, a, r);
    }
  }
}

module LongDivision {
  import opened Digits
  import opened MachineWord

  datatype DivResult =
    | DivideByZero                       // 1 / zero raises the divide trap
    | Quotient(q: int)

  // The digit x shifted left by sh bits, cut off to a digit, with the top bits of its right neighbour y filled in.
  function ShiftedDigit(x: int, y: int, sh: nat): int
    requires sh <= 16
  {
    LHalf(U32(x * Pow2(sh))) + y / Pow2(16 - sh)
  }

  // shl: shift p[off..off+len], which runs to the end of its array, left by sh bits; bits leaving
  // p[off] are dropped.
  method Shl(p: array<int>, off: nat, len: nat, sh: nat)
    requires off + len + 1 == p.Length && 1 <= sh <= 15 && IsDigits(p[off..])
    modifies p
    ensures forall k :: 0 <= k < off ==> p[k] == old(p[k])
    ensures IsDigits(p[off..])
    ensures Val(p[off..])
         == Times(Val(old(p[off..])), Pow2(sh)) - Scale(old(p[off]) / Pow2(16 - sh), len + 1)
  {
    ghost var was, carry := p[off..], p[off] / Pow2(16 - sh);
    ghost var done: seq<int> := [];
    ShlStart(was, Pow2(sh), carry);
    assert forall k :: 0 <= k <= len ==> 0 <= was[k] < B;
    hide IsDigits, ShlRel, Val, Scale, Times, Pow2, ShiftedDigit;
    var i := 0;
    while i < len
      invariant 0 <= i <= len && |done| == i
      invariant forall k :: 0 <= k < off ==> p[k] == old(p[k])
      invariant forall k :: i <= k <= len ==> p[off + k] == was[k]
      invariant forall k :: 0 <= k < i ==> p[off + k] == done[k]
      invariant IsDigits(done) && ShlRel(done, was[..i], carry, was[i], sh)
    {
      ShlStep(done, was[..i], carry, was[i], was[i + 1], sh);
      assert was[..i + 1] == was[..i] + [was[i]];
      p[off + i] := ShiftedDigit(p[off + i], p[off + i + 1], sh);
      done := done + [p[off + i]];
      i := i + 1;
    }
    ShlStep(done, was[..i], carry, was[i], 0, sh);
    assert was == was[..i] + [was[i]];
    p[off + i] := ShiftedDigit(p[off + i], 0, sh);
    done := done + [p[off + i]];
    assert p[off..] == done;
    ShlEnd(done, was, carry, sh);
  }

  // The digits s have been shifted into done; next is the digit to their right, and carry left at the top.
  ghost predicate ShlRel(done: seq<int>, s: seq<int>, carry: int, next: int, sh: nat)
    requires sh <= 16
  {
    |done| == |s| && Val(done) == Val(s) * Pow2(sh) - carry * Pow(|s|) + next / Pow2(16 - sh)
  }

  lemma ShlStart(was: seq<int>, p: int, carry: int)
    requires was != []
    ensures forall sh | 1 <= sh <= 15 && carry == was[0] / Pow2(16 - sh) :: ShlRel([], was[..0], carry, was[0], sh)
  {
  }

  lemma ShlEnd(done: seq<int>, was: seq<int>, carry: int, sh: nat)
    requires sh <= 16 && ShlRel(done, was, carry, 0, sh)
    ensures Val(done) == Times(Val(was), Pow2(sh)) - Scale(carry, |was|)
  {
  }

  // Shifting the digit x, with y to its right: the wrap-around of u_int is not reached and the two
  // parts of the new digit have no bit in common.
  lemma ShlDigit(x: int, y: int, sh: nat)
    requires 0 <= x < B && 0 <= y < B && 1 <= sh <= 15
    ensures 0 <= ShiftedDigit(x, y, sh) < B
    ensures LHalf(U32(x * Pow2(sh))) == x * Pow2(sh) - (x / Pow2(16 - sh)) * B
  {
    hide Pow2;
    Pow2Split(sh);
    ShiftFits(x, sh);
    ShiftParts(x, Pow2(sh), Pow2(16 - sh));
    ShiftParts(y, Pow2(sh), Pow2(16 - sh));
    ShiftedSum(x * Pow2(sh), y / Pow2(16 - sh), Pow2(sh));
  }

  lemma ShiftedSum(xp: int, hy: int, p: int)
    requires 0 <= xp < WORD32 && xp % B <= B - p && 0 <= hy < p
    ensures LHalf(U32(xp)) == xp % B && 0 <= LHalf(U32(xp)) + hy < B
  {
  }

  lemma ShiftFits(x: int, sh: nat)
    requires 0 <= x < B && sh <= 16
    ensures 0 <= x * Pow2(sh) < WORD32
  {
    Pow2Split(sh);
    MulMono(1, Pow2(16 - sh), Pow2(sh));
    MulMono(0, x, Pow2(sh));
    MulMono(x, B, Pow2(sh));
  }

  lemma ShlStep(done: seq<int>, s: seq<int>, carry: int, x: int, y: int, sh: nat)
    requires 0 <= x < B && 0 <= y < B && 1 <= sh <= 15 && ShlRel(done, s, carry, x, sh)
    ensures ShlRel(done + [ShiftedDigit(x, y, sh)], s + [x], carry, y, sh)
    ensures IsDigits(done) ==> IsDigits(done + [ShiftedDigit(x, y, sh)])
  {
    ShlDigit(x, y, sh);
    var hx := x / Pow2(16 - sh);
    ShlSum(done, s, carry, x, hx, LHalf(U32(x * Pow2(sh))), y / Pow2(16 - sh), Pow2(sh));
  }

  // One digit x of a left shift: hx leaves it, lx stays in it, and hy arrives from the next digit.
  lemma ShlSum(done: seq<int>, s: seq<int>, carry: int, x: int, hx: int, lx: int, hy: int, p: int)
    requires x * p == hx * B + lx
    requires Val(done) == Val(s) * p - carry * Pow(|s|) + hx
    ensures Val(done + [lx + hy]) == Val(s + [x]) * p - carry * Pow(|s| + 1) + hy
  {
    ValSnoc(done, lx + hy);
    ValSnoc(s, x);
    ShlProducts(Val(s), x, p, carry, Pow(|s|));
  }

  lemma ShlProducts(vs: int, x: int, p: int, carry: int, q: int)
    ensures (vs * B + x) * p == (vs * p) * B + x * p
    ensures carry * (B * q) == (carry * q) * B
  {
  }

  // D3: the trial digit. It is the largest digit whose product with the two leading divisor digits
  // does not exceed the three leading dividend digits.
  method TrialDigit(uj0: int, uj1: int, uj2: int, v1: int, v2: int) returns (qhat: int)
    requires IsDigits([uj0, uj1, uj2, v1, v2])
    requires B / 2 <= v1 && uj0 <= v1
    ensures 0 <= qhat < B
    ensures qhat * (v1 * B + v2) <= uj0 * B * B + uj1 * B + uj2
    ensures qhat == B - 1 || uj0 * B * B + uj1 * B + uj2 < (qhat + 1) * (v1 * B + v2)
  {
    assert forall i :: 0 <= i < 5 ==> 0 <= [uj0, uj1, uj2, v1, v2][i] < B;
    assert [uj0, uj1, uj2, v1, v2][0] == uj0 && [uj0, uj1, uj2, v1, v2][1] == uj1 && [uj0, uj1, uj2, v1, v2][2] == uj2;
    assert [uj0, uj1, uj2, v1, v2][3] == v1 && [uj0, uj1, uj2, v1, v2][4] == v2;
    ghost var u3, top := uj0 * B * B + uj1 * B + uj2, v1 * B + v2;
    var rhat: int;
    var tooBig: bool;
    if uj0 == v1 {
      qhat := B;
      rhat := uj1;
      tooBig := true;
    } else {
      var nn := Combine(uj0, uj1);
      assert nn == uj0 * B + uj1 < v1 * B;
      qhat := nn / v1;
      rhat := nn % v1;
      TrialStart(nn, uj2, v1, v2, qhat, rhat);
      tooBig := U32(v2 * qhat) > Combine(rhat, uj2);
      TrialTest(uj0, uj1, uj2, v1, v2, qhat, rhat);
    }
    while tooBig
      invariant 0 <= qhat <= B && 0 <= rhat < B
      invariant qhat * v1 + rhat == uj0 * B + uj1
      invariant qhat < B ==> (tooBig <==> qhat * top > u3)
      invariant qhat == B ==> tooBig
      invariant qhat >= B - 1 || u3 < (qhat + 1) * top
      decreases B - rhat
    {
      assert qhat >= 1;
      assert (qhat - 1) * v1 == qhat * v1 - v1;
      qhat := qhat - 1;
      rhat := rhat + v1;
      if rhat >= B {
        TrialLarge(uj0, uj1, uj2, v1, v2, qhat, rhat);
        break;
      }
      tooBig := U32(v2 * qhat) > Combine(rhat, uj2);
      TrialTest(uj0, uj1, uj2, v1, v2, qhat, rhat);
    }
  }

  lemma TrialStart(nn: int, u2: int, v1: int, v2: int, qhat: int, rhat: int)
    requires 0 <= u2 < B && 0 <= v2 && 1 <= v1 < B && 0 <= nn < v1 * B
    requires qhat == nn / v1 && rhat == nn % v1
    ensures 0 <= qhat < B && qhat * v1 + rhat == nn
    ensures nn * B + u2 < (qhat + 1) * (v1 * B + v2)
  {
    assert nn == v1 * qhat + rhat;
    if qhat >= B {
      MulMono(B, qhat, v1);
    }
    assert (qhat + 1) * v1 >= nn + 1 by { assert (qhat + 1) * v1 == qhat * v1 + v1; }
    assert (qhat + 1) * (v1 * B + v2) == (qhat + 1) * v1 * B + (qhat + 1) * v2;
    assert (qhat + 1) * v2 >= 0;
  }

  lemma TopProduct(q: int, v1: int, v2: int)
    ensures q * (v1 * B + v2) == (q * v1) * B + v2 * q
  {
  }

  // The test of D3 compares against exactly the two leading divisor digits, without wrapping.
  lemma TrialTest(u0: int, u1: int, u2: int, v1: int, v2: int, qhat: int, rhat: int)
    requires 0 <= u2 < B && 0 <= v2 < B && 0 <= qhat < B && 0 <= rhat < B
    requires qhat * v1 + rhat == u0 * B + u1
    ensures U32(v2 * qhat) == v2 * qhat && Combine(rhat, u2) == rhat * B + u2
    ensures v2 * qhat > rhat * B + u2 <==> qhat * (v1 * B + v2) > u0 * B * B + u1 * B + u2
  {
    DigitProduct(v2, qhat);
    TopProduct(qhat, v1, v2);
  }

  lemma TrialLarge(u0: int, u1: int, u2: int, v1: int, v2: int, qhat: int, rhat: int)
    requires 0 <= u2 < B && 0 <= v2 < B && 0 <= qhat < B && rhat >= B
    requires qhat * v1 + rhat == u0 * B + u1
    ensures qhat * (v1 * B + v2) <= u0 * B * B + u1 * B + u2
  {
    DigitProduct(v2, qhat);
    TopProduct(qhat, v1, v2);
  }

  // The trial digit is the true quotient digit or one above it.
  lemma TrialDigitBound(u3: int, ur: int, v2: int, vr: int, p: int, qhat: int)
    requires p >= 1 && 0 <= ur < p && 0 <= vr < p && v2 >= B && 0 <= qhat < B
    requires qhat * v2 <= u3
    requires qhat == B - 1 || u3 < (qhat + 1) * v2
    requires u3 * p + ur < (v2 * p + vr) * B
    ensures -(v2 * p + vr) <= u3 * p + ur - qhat * (v2 * p + vr) < v2 * p + vr
  {
    Expand(qhat, v2, p, vr);
    MulMono(qhat * v2, u3, p);
    MulMono(0, qhat, vr);
    MulMono(vr, p, qhat);
    MulMono(qhat, B, p);
    MulMono(B, v2, p);
    if qhat < B - 1 {
      Expand(qhat + 1, v2, p, 0);
      MulMono(u3 + 1, (qhat + 1) * v2, p);
    }
  }

  lemma Expand(q: int, v2: int, p: int, vr: int)
    ensures q * (v2 * p + vr) == (q * v2) * p + q * vr
    ensures (q + 1) * v2 == q * v2 + v2
    ensures ((q + 1) * v2) * p == (q * v2) * p + v2 * p
  {
  }

  // D4's borrow: the wrapped difference holds the new digit below and the borrow above.
  lemma BorrowStep(x: int)
    requires -B * (B - 1) <= x < B
    ensures LHalf(U32(x)) == x % B
    ensures U32(B - HHalf(U32(x))) % B == -(x / B)
    ensures 0 <= -(x / B) < B || x >= 0
    ensures HHalf(U32(x)) != 0 <==> x < 0
  {
    if x < 0 {
      assert U32(x) == x + WORD32;
    }
  }

  // Subtracting qhat times the digits lowV from the digits lowWas has given low, owing t.
  ghost predicate SubRel(low: seq<int>, t: int, lowWas: seq<int>, lowV: seq<int>, qhat: int) {
    |low| == |lowWas| && Val(low) - Scale(t, |low|) == Val(lowWas) - qhat * Val(lowV)
  }

  // D4's loop: subtract qhat times v[1..n] from u[j+1..j+n], returning the borrow owed by u[j].
  method SubtractDigits(u: array<int>, uj: nat, v: array<int>, v1: nat, n: nat, qhat: int) returns (t: int)
    requires u != v && uj + n < u.Length && v1 + n <= v.Length
    requires IsDigits(u[uj + 1..uj + n + 1]) && IsDigits(v[v1..v1 + n]) && 0 <= qhat < B
    modifies u
    ensures forall k :: 0 <= k <= uj || uj + n < k < u.Length ==> u[k] == old(u[k])
    ensures 0 <= t < B && IsDigits(u[uj + 1..uj + n + 1])
    ensures SubRel(u[uj + 1..uj + n + 1], t, old(u[uj + 1..uj + n + 1]), v[v1..v1 + n], qhat)
  {
    ghost var was, vs := u[uj + 1..uj + n + 1], v[v1..v1 + n];
    ghost var low: seq<int> := [];
    assert SubRel(low, 0, was[n..], vs[n..], qhat);
    hide SubRel, Val, Pow;
    t := 0;
    var i := n;
    while i > 0
      invariant 0 <= i <= n && 0 <= t < B
      invariant forall k :: 0 <= k <= uj + i || uj + n < k < u.Length ==> u[k] == old(u[k])
      invariant |low| == n - i && IsDigits(low)
      invariant forall k :: 0 <= k < n - i ==> u[uj + i + 1 + k] == low[k]
      invariant SubRel(low, t, was[i..], vs[i..], qhat)
    {
      var d, vd := u[uj + i], v[v1 + i - 1];
      assert d == was[i - 1] && vd == vs[i - 1];
      var x := d - vd * qhat - t;
      DigitProduct(vd, qhat);
      BorrowStep(x);
      var uNew, tNew := LHalf(U32(x)), U32(B - HHalf(U32(x))) % B;
      SubStep(low, t, was[i..], vs[i..], qhat, d, uNew, vd, tNew);
      assert [d] + was[i..] == was[i - 1..] && [vd] + vs[i..] == vs[i - 1..];
      u[uj + i] := uNew;
      t := tNew;
      low := [uNew] + low;
      i := i - 1;
    }
    assert was[0..] == was && vs[0..] == vs && u[uj + 1..uj + n + 1] == low;
  }

  // D4: subtract qhat times v[1..n] from u[j..j+n]; the result says whether D5 sees a borrow.
  method MultiplySubtract(u: array<int>, uj: nat, v: array<int>, v1: nat, n: nat, qhat: int) returns (borrow: bool)
    requires u != v && uj + n < u.Length && v1 + n <= v.Length
    requires IsDigits(u[uj..uj + n + 1]) && IsDigits(v[v1..v1 + n]) && 0 <= qhat < B
    modifies u
    ensures forall k :: 0 <= k < uj || uj + n < k < u.Length ==> u[k] == old(u[k])
    ensures IsDigits(u[uj..uj + n + 1])
    ensures Val(u[uj..uj + n + 1])
         == Val(old(u[uj..uj + n + 1])) - qhat * Val(v[v1..v1 + n]) + (if borrow then Pow(n + 1) else 0)
    ensures borrow <==> Val(old(u[uj..uj + n + 1])) < qhat * Val(v[v1..v1 + n])
  {
    ghost var was, vs := u[uj..uj + n + 1], v[v1..v1 + n];
    assert u[uj + 1..uj + n + 1] == was[1..] && u[uj] == was[0];
    DigitsTail(was);
    hide IsDigits, SubRel, Val, Pow, LHalf, HHalf, U32;
    var t := SubtractDigits(u, uj, v, v1, n, qhat);
    SubTop(u[uj + 1..uj + n + 1], t, was, vs, qhat);
    ghost var low := u[uj + 1..uj + n + 1];
    t := U32(u[uj] - t);
    u[uj] := LHalf(t);
    borrow := HHalf(t) != 0;
    assert u[uj..uj + n + 1] == [u[uj]] + low;
  }

  lemma DigitsTail(s: seq<int>)
    requires IsDigits(s)
    ensures s != [] ==> IsDigits(s[1..])
  {
  }

  // The leading digit of D4.
  lemma SubTop(low: seq<int>, t: int, was: seq<int>, vs: seq<int>, qhat: int)
    requires IsDigits(low) && IsDigits(was) && IsDigits(vs) && 0 <= t < B && |was| == |low| + 1 && |vs| == |low|
    requires SubRel(low, t, was[1..], vs, qhat)
    ensures var x := U32(was[0] - t);
            var s, borrow := [LHalf(x)] + low, HHalf(x) != 0;
            && IsDigits(s)
            && Val(s) == Val(was) - qhat * Val(vs) + (if borrow then Pow(|low| + 1) else 0)
            && (borrow <==> Val(was) < qhat * Val(vs))
  {
    BorrowStep(was[0] - t);
    var x := U32(was[0] - t);
    SubStep(low, t, was[1..], vs, qhat, was[0], LHalf(x), 0, if HHalf(x) != 0 then 1 else 0);
    assert was == [was[0]] + was[1..];
    SubEnd([LHalf(x)] + low, HHalf(x) != 0, was, vs, qhat);
  }

  lemma ValCons(d: int, s: seq<int>)
    ensures Val([d] + s) == d * Pow(|s|) + Val(s)
  {
    assert ([d] + s)[1..] == s;
  }

  lemma SubStep(low: seq<int>, t: int, lowWas: seq<int>, lowV: seq<int>, qhat: int, d: int, dNew: int, vd: int, tNew: int)
    requires SubRel(low, t, lowWas, lowV, qhat) && (|lowV| == |low| || vd == 0)
    requires d - vd * qhat - t == dNew - tNew * B
    ensures SubRel([dNew] + low, tNew, [d] + lowWas, [vd] + lowV, qhat)
    ensures vd == 0 ==> SubRel([dNew] + low, tNew, [d] + lowWas, lowV, qhat)
  {
    ValCons(dNew, low);
    ValCons(d, lowWas);
    ValCons(vd, lowV);
    if vd == 0 {
      SubSum(Pow(|low|), d, dNew, 0, qhat, t, tNew, 0);
    } else {
      SubSum(Pow(|low|), d, dNew, vd, qhat, t, tNew, Val(lowV));
    }
  }

  lemma SubSum(p: int, d: int, dNew: int, vd: int, q: int, t: int, tNew: int, lowV: int)
    requires d - vd * q - t == dNew - tNew * B
    ensures dNew * p - tNew * (B * p) == d * p - q * (vd * p + lowV) + q * lowV - t * p
  {
    assert (dNew - tNew * B) * p == dNew * p - tNew * (B * p);
    assert (d - vd * q - t) * p == d * p - (vd * q) * p - t * p;
    assert q * (vd * p + lowV) == (vd * q) * p + q * lowV;
  }

  lemma SubEnd(low: seq<int>, borrow: bool, was: seq<int>, vs: seq<int>, qhat: int)
    requires IsDigits(low) && SubRel(low, if borrow then 1 else 0, was, vs, qhat)
    ensures Val(low) == Val(was) - qhat * Val(vs) + (if borrow then Pow(|low|) else 0)
    ensures borrow <==> Val(was) < qhat * Val(vs)
  {
    ValBounds(low);
  }

  // Adding the digits lowV to the digits lowWas has given low, carrying t.
  ghost predicate AddRel(low: seq<int>, t: int, lowWas: seq<int>, lowV: seq<int>) {
    |low| == |lowWas| && Val(low) + Scale(t, |low|) == Val(lowWas) + Val(lowV)
  }

  // D6's loop: add v[1..n] to u[j+1..j+n], returning the carry into u[j].
  lemma Carry(t: int, d: int, vd: int)
    requires 0 <= t <= 1 && 0 <= d < B && 0 <= vd < B
    ensures var sum := U32(t + d + vd); 0 <= LHalf(sum) < B && 0 <= HHalf(sum) <= 1 && LHalf(sum) + HHalf(sum) * B == t + d + vd
  {
  }

  method AddDigits(u: array<int>, uj: nat, v: array<int>, v1: nat, n: nat) returns (t: int)
    requires u != v && uj + n < u.Length && v1 + n <= v.Length
    requires IsDigits(u[uj + 1..uj + n + 1]) && IsDigits(v[v1..v1 + n])
    modifies u
    ensures forall k :: 0 <= k <= uj || uj + n < k < u.Length ==> u[k] == old(u[k])
    ensures 0 <= t <= 1 && IsDigits(u[uj + 1..uj + n + 1])
    ensures AddRel(u[uj + 1..uj + n + 1], t, old(u[uj + 1..uj + n + 1]), v[v1..v1 + n])
  {
    ghost var was, vs := u[uj + 1..uj + n + 1], v[v1..v1 + n];
    ghost var low: seq<int> := [];
    assert AddRel(low, 0, was[n..], vs[n..]);
    hide AddRel, Val, Pow, U32, LHalf, HHalf;
    t := 0;
    var i := n;
    while i > 0
      invariant 0 <= i <= n && 0 <= t <= 1
      invariant forall k :: 0 <= k <= uj + i || uj + n < k < u.Length ==> u[k] == old(u[k])
      invariant |low| == n - i && IsDigits(low)
      invariant forall k :: 0 <= k < n - i ==> u[uj + i + 1 + k] == low[k]
      invariant AddRel(low, t, was[i..], vs[i..])
    {
      var d, vd := u[uj + i], v[v1 + i - 1];
      assert d == was[i - 1] && vd == vs[i - 1];
      var sum := U32(t + d + vd);
      Carry(t, d, vd);
      AddStep(low, t, was[i..], vs[i..], d, LHalf(sum), vd, HHalf(sum));
      assert [d] + was[i..] == was[i - 1..] && [vd] + vs[i..] == vs[i - 1..];
      u[uj + i] := LHalf(sum);
      t := HHalf(sum);
      low := [LHalf(sum)] + low;
      i := i - 1;
    }
    assert was[0..] == was && vs[0..] == vs && u[uj + 1..uj + n + 1] == low;
  }

  // D6: add v[1..n] back to u[j..j+n]; a carry out of u[j] is dropped.
  method AddBack(u: array<int>, uj: nat, v: array<int>, v1: nat, n: nat)
    requires u != v && uj + n < u.Length && v1 + n <= v.Length
    requires IsDigits(u[uj..uj + n + 1]) && IsDigits(v[v1..v1 + n])
    modifies u
    ensures forall k :: 0 <= k < uj || uj + n < k < u.Length ==> u[k] == old(u[k])
    ensures IsDigits(u[uj..uj + n + 1])
    ensures var sum := Val(old(u[uj..uj + n + 1])) + Val(v[v1..v1 + n]);
            Val(u[uj..uj + n + 1]) == if sum < Pow(n + 1) then sum else sum - Pow(n + 1)
  {
    ghost var was, vs := u[uj..uj + n + 1], v[v1..v1 + n];
    assert u[uj + 1..uj + n + 1] == was[1..] && u[uj] == was[0];
    DigitsTail(was);
    hide IsDigits, AddRel, Val, Pow, LHalf, U32;
    var t := AddDigits(u, uj, v, v1, n);
    AddTop(u[uj + 1..uj + n + 1], t, was, vs);
    ghost var low := u[uj + 1..uj + n + 1];
    u[uj] := LHalf(U32(u[uj] + t));
    assert u[uj..uj + n + 1] == [u[uj]] + low;
  }

  // The leading digit of D6.
  lemma AddTop(low: seq<int>, t: int, was: seq<int>, vs: seq<int>)
    requires IsDigits(low) && IsDigits(was) && IsDigits(vs) && 0 <= t <= 1 && |was| == |low| + 1 && |vs| == |low|
    requires AddRel(low, t, was[1..], vs)
    ensures var s, sum := [LHalf(U32(was[0] + t))] + low, Val(was) + Val(vs);
            IsDigits(s) && Val(s) == if sum < Pow(|low| + 1) then sum else sum - Pow(|low| + 1)
  {
    var d, top := LHalf(U32(was[0] + t)), if was[0] + t == B then 1 else 0;
    AddStep(low, t, was[1..], vs, was[0], d, 0, top);
    assert was == [was[0]] + was[1..];
    AddEnd([d] + low, top, was, vs);
  }

  lemma AddStep(low: seq<int>, t: int, lowWas: seq<int>, lowV: seq<int>, d: int, dNew: int, vd: int, tNew: int)
    requires AddRel(low, t, lowWas, lowV) && (|lowV| == |low| || vd == 0)
    requires d + vd + t == dNew + tNew * B
    ensures AddRel([dNew] + low, tNew, [d] + lowWas, [vd] + lowV)
    ensures vd == 0 ==> AddRel([dNew] + low, tNew, [d] + lowWas, lowV)
  {
    ValCons(dNew, low);
    ValCons(d, lowWas);
    ValCons(vd, lowV);
    AddSum(Pow(|low|), d, dNew, vd, t, tNew);
  }

  lemma AddSum(p: int, d: int, dNew: int, vd: int, t: int, tNew: int)
    requires d + vd + t == dNew + tNew * B
    ensures dNew * p + tNew * (B * p) == d * p + vd * p + t * p
  {
    assert (dNew + tNew * B) * p == dNew * p + tNew * (B * p);
    assert (d + vd + t) * p == d * p + vd * p + t * p;
  }

  lemma AddEnd(low: seq<int>, top: int, was: seq<int>, vs: seq<int>)
    requires 0 <= top <= 1 && IsDigits(low) && IsDigits(was) && IsDigits(vs) && |vs| < |was|
    requires AddRel(low, top, was, vs)
    ensures var sum := Val(was) + Val(vs);
            Val(low) == if sum < Pow(|low|) then sum else sum - Pow(|low|)
  {
    ValBounds(low);
  }

  // The three leading digits of a number and the rest.
  lemma LeadingThree(s: seq<int>)
    requires |s| >= 3
    ensures Val(s) == (s[0] * B * B + s[1] * B + s[2]) * Pow(|s| - 3) + Val(s[3..])
  {
    hide Val, Pow;
    LeadingTwo(s);
    ValFirst(s[2..]);
    assert s[2..][1..] == s[3..];
    LeadingProducts(s[0] * B + s[1], s[2], Pow(|s| - 3));
  }

  lemma ValFirst(s: seq<int>)
    requires s != []
    ensures Val(s) == s[0] * Pow(|s| - 1) + Val(s[1..])
    ensures Pow(|s|) == B * Pow(|s| - 1)
  {
  }

  lemma LeadingProducts(a: int, b: int, p: int)
    ensures (a * B + b) * p == a * (B * p) + b * p
  {
  }

  lemma LeadingTwo(s: seq<int>)
    requires |s| >= 2
    ensures Val(s) == (s[0] * B + s[1]) * Pow(|s| - 2) + Val(s[2..])
  {
    hide Val, Pow;
    ValFirst(s);
    ValFirst(s[1..]);
    assert s[1..][1..] == s[2..];
    LeadingProducts(s[0], s[1], Pow(|s| - 2));
  }

  // The window of D3: its leading digit does not exceed the divisor's.
  lemma LeadingDigit(w: seq<int>, v: seq<int>)
    requires |w| == |v| + 1 && v != [] && IsDigits(w) && IsDigits(v)
    requires Val(w) < Val(v) * B
    ensures w[0] <= v[0]
  {
    ValBounds(w[1..]);
    ValBounds(v[1..]);
    LeadingCompare(w[0], Val(w[1..]), v[0], Val(v[1..]), Pow(|v| - 1));
  }

  lemma LeadingCompare(w0: int, wr: int, v0: int, vr: int, p: int)
    requires p >= 1 && wr >= 0 && vr < p
    requires w0 * (B * p) + wr < (v0 * p + vr) * B
    ensures w0 <= v0
  {
    assert w0 * (B * p) == (w0 * p) * B;
    if w0 > v0 {
      MulMono(v0 + 1, w0, p);
    }
  }

  // D3 on the window u[j..j+n]: the digit is right or one too large.
  method Trial(u: array<int>, uj: nat, v: array<int>, v1: nat, n: nat) returns (qhat: int)
    requires n >= 2 && uj + n < u.Length && v1 + n <= v.Length
    requires IsDigits(u[uj..uj + n + 1]) && IsDigits(v[v1..v1 + n]) && v[v1] >= B / 2
    requires Val(u[uj..uj + n + 1]) < Val(v[v1..v1 + n]) * B
    ensures 0 <= qhat < B
    ensures var w, vs := Val(u[uj..uj + n + 1]), Val(v[v1..v1 + n]);
            -vs <= w - qhat * vs < vs && (qhat == 0 ==> w >= 0)
  {
    hide Val, Pow;
    ghost var w, vs := u[uj..uj + n + 1], v[v1..v1 + n];
    assert w[0] == u[uj] && w[1] == u[uj + 1] && w[2] == u[uj + 2] && vs[0] == v[v1] && vs[1] == v[v1 + 1];
    LeadingDigit(w, vs);
    qhat := TrialDigit(u[uj], u[uj + 1], u[uj + 2], v[v1], v[v1 + 1]);
    TrialCorrect(w, vs, qhat);
  }

  // D3 to D6: one quotient digit. The window u[j..j+n] becomes its remainder by v[1..n].
  method QuotientDigit(u: array<int>, uj: nat, v: array<int>, v1: nat, n: nat) returns (qhat: int)
    requires u != v && n >= 2 && uj + n < u.Length && v1 + n <= v.Length
    requires IsDigits(u[uj..uj + n + 1]) && IsDigits(v[v1..v1 + n]) && v[v1] >= B / 2
    requires Val(u[uj..uj + n + 1]) < Val(v[v1..v1 + n]) * B
    modifies u
    ensures forall k :: 0 <= k < uj || uj + n < k < u.Length ==> u[k] == old(u[k])
    ensures 0 <= qhat < B && IsDigits(u[uj..uj + n + 1])
    ensures Val(old(u[uj..uj + n + 1])) == qhat * Val(v[v1..v1 + n]) + Val(u[uj..uj + n + 1])
    ensures Val(u[uj..uj + n + 1]) < Val(v[v1..v1 + n])
  {
    hide Val, Pow;
    ghost var w, vs := u[uj..uj + n + 1], v[v1..v1 + n];
    qhat := Trial(u, uj, v, v1, n);
    var borrow := MultiplySubtract(u, uj, v, v1, n, qhat);
    assert v[v1..v1 + n] == vs;
    ghost var after := u[uj..uj + n + 1];
    ValBounds(after);
    ValBounds(vs);
    if borrow {
      qhat := qhat - 1;
      AddBack(u, uj, v, v1, n);
      assert v[v1..v1 + n] == vs;
      ValBounds(u[uj..uj + n + 1]);
      OneLess(qhat + 1, Val(vs));
    }
    OneLess(qhat + 1, Val(vs));
    DivisorFits(Val(vs), n);
  }

  lemma OneLess(q: int, v: int)
    ensures (q - 1) * v == q * v - v
  {
  }

  lemma DivisorFits(v: int, n: nat)
    ensures v < Pow(n) ==> v < Pow(n + 1)
  {
  }

  // D3's digit, applied to all n + 1 digits of the window: at most one too large, never too small.
  lemma TrialCorrect(w: seq<int>, v: seq<int>, qhat: int)
    requires |v| >= 2 && |w| == |v| + 1 && IsDigits(w) && IsDigits(v) && v[0] >= 1 && 0 <= qhat < B
    requires qhat * (v[0] * B + v[1]) <= w[0] * B * B + w[1] * B + w[2]
    requires qhat == B - 1 || w[0] * B * B + w[1] * B + w[2] < (qhat + 1) * (v[0] * B + v[1])
    requires Val(w) < Val(v) * B
    ensures -Val(v) <= Val(w) - qhat * Val(v) < Val(v)
    ensures qhat == 0 ==> Val(w) >= 0
  {
    hide Val, Pow;
    LeadingThree(w);
    LeadingTwo(v);
    ValBounds(w);
    ValBounds(w[3..]);
    ValBounds(v[2..]);
    TrialDigitBound(w[0] * B * B + w[1] * B + w[2], Val(w[3..]), v[0] * B + v[1], Val(v[2..]), Pow(|v| - 2), qhat);
  }

  // The dividend U divided by V so far: the quotient digits q, and the digits rest still to be
  // divided, k of which lie below the units digit of the next quotient digit.
  ghost predicate DivRel(U: int, q: seq<int>, V: int, k: nat, rest: seq<int>) {
    U == Val(q) * V * Pow(k) + Val(rest) && Val(rest) < V * Pow(k)
  }

  lemma DivWindow(U: int, q: seq<int>, V: int, k: nat, rest: seq<int>, n: nat)
    requires k >= 1 && |rest| == n + k && IsDigits(rest) && DivRel(U, q, V, k, rest)
    ensures Val(rest[..n + 1]) < V * B
  {
    hide Val, Pow;
    ValSplit(rest, 0, n + 1, n + k);
    assert rest[0..n + 1] == rest[..n + 1] && rest[0..n + k] == rest;
    ValBounds(rest[n + 1..]);
    assert rest[n + 1..n + k] == rest[n + 1..];
    PowSucc(k - 1);
    WindowCompare(Val(rest[..n + 1]), Pow(k - 1), Val(rest[n + 1..]), V);
  }

  lemma PowSucc(k: nat)
    ensures Pow(k + 1) == B * Pow(k) && Pow(0) == 1
  {
  }

  lemma WindowCompare(w: int, p: int, t: int, v: int)
    requires p >= 1 && t >= 0 && w * p + t < v * (B * p)
    ensures w < v * B
  {
    assert v * (B * p) == (v * B) * p;
    if w >= v * B {
      MulMono(v * B, w, p);
    }
  }

  lemma DivStep(U: int, q: seq<int>, v: seq<int>, k: nat, rest: seq<int>, qd: int, w: seq<int>)
    requires k >= 1 && v != [] && |rest| == |v| + k && IsDigits(rest) && IsDigits(v) && DivRel(U, q, Val(v), k, rest)
    requires |w| == |v| + 1 && IsDigits(w) && Val(w) < Val(v)
    requires Val(rest[..|v| + 1]) == qd * Val(v) + Val(w)
    ensures w[0] == 0
    ensures DivRel(U, q + [qd], Val(v), k - 1, w[1..] + rest[|v| + 1..])
  {
    hide Val, Pow;
    var n, tail := |v|, rest[|v| + 1..];
    ValFirst(w);
    ValBounds(w[1..]);
    ValBounds(v);
    if w[0] >= 1 {
      MulMono(1, w[0], Pow(n));
    }
    ValSplit(rest, 0, n + 1, n + k);
    assert rest[0..n + 1] == rest[..n + 1] && rest[0..n + k] == rest && rest[n + 1..n + k] == tail;
    ValConcat(w[1..], tail);
    ValBounds(tail);
    ValSnoc(q, qd);
    PowSucc(k - 1);
    assert Val(w[1..]) == Val(w);
    DivStepProducts(Val(q), Val(v), Pow(k - 1), Val(rest[..n + 1]), qd, Val(w), Val(tail));
  }

  lemma DivStepProducts(q: int, v: int, p: int, w: int, qd: int, r: int, t: int)
    requires w == qd * v + r && r < v && 0 <= t < p
    ensures q * v * (B * p) + (w * p + t) == (q * B + qd) * v * p + (r * p + t)
    ensures r * p + t < v * p
  {
    MulMono(r + 1, v, p);
    assert (qd * v + r) * p == (qd * v) * p + r * p;
    assert (q * B + qd) * v * p == (q * v) * (B * p) + (qd * v) * p by {
      assert (q * B + qd) * v == (q * v) * B + qd * v;
    }
  }

  // One turn of the D7 loop: the digit at uj becomes zero and one quotient digit is known.
  method NextDigit(u: array<int>, uj: nat, v: array<int>, v1: nat, n: nat,
                   ghost U: int, ghost qs: seq<int>, ghost vs: seq<int>, ghost k: nat)
    returns (qhat: int)
    requires u != v && n >= 2 && k >= 1 && uj + n + k == u.Length && v1 + n == v.Length
    requires IsDigits(u[uj..]) && IsDigits(v[v1..]) && v[v1] >= B / 2
    requires vs == v[v1..] && DivRel(U, qs, Val(vs), k, u[uj..])
    modifies u
    ensures forall i :: 0 <= i < uj || uj + n < i < u.Length ==> u[i] == old(u[i])
    ensures 0 <= qhat < B && IsDigits(u[uj + 1..]) && u[uj] == 0
    ensures DivRel(U, qs + [qhat], Val(vs), k - 1, u[uj + 1..])
  {
    hide DivRel, Val, Pow;
    ghost var rest := u[uj..];
    assert u[uj..uj + n + 1] == rest[..n + 1] && v[v1..v1 + n] == vs;
    DivWindow(U, qs, Val(vs), k, rest, n);
    qhat := QuotientDigit(u, uj, v, v1, n);
    ghost var w := u[uj..uj + n + 1];
    DivStep(U, qs, vs, k, rest, qhat, w);
    assert u[uj] == w[0];
    assert u[uj + 1..] == w[1..] + rest[n + 1..];
  }

  // D2 to D7: divide u[0..m+n] by the normalised v[1..n]. Each of the three numbers runs to the end of
  // its array; u[0] is at uo, v[1] at v1 and q[0] at qo.
  method ProgramD(u: array<int>, uo: nat, v: array<int>, v1: nat, q: array<int>, qo: nat, m: nat, n: nat)
    requires u != v && q != u && q != v
    requires n >= 2 && uo + m + n + 1 == u.Length && v1 + n == v.Length && qo + m + 1 == q.Length
    requires IsDigits(u[uo..]) && IsDigits(v[v1..]) && v[v1] >= B / 2
    requires Val(u[uo..]) < Val(v[v1..]) * Pow(m + 1)
    modifies u, q
    ensures forall k :: 0 <= k < uo ==> u[k] == old(u[k])
    ensures forall k :: 0 <= k < qo ==> q[k] == old(q[k])
    ensures IsDigits(q[qo..]) && IsDigits(u[uo + m + 1..])
    ensures forall k :: uo <= k <= uo + m ==> u[k] == 0
    ensures Val(old(u[uo..])) == Val(q[qo..]) * Val(v[v1..]) + Val(u[uo + m + 1..])
    ensures Val(u[uo + m + 1..]) < Val(v[v1..])
  {
    hide DivRel, Val, Pow;
    ghost var vs, V := v[v1..], Val(v[v1..]);
    ghost var U, qs: seq<int> := Val(u[uo..]), [];
    DivStart(u[uo..], V, m + 1);
    assert v[v1] == vs[0];
    var j := 0;
    while j <= m
      invariant 0 <= j <= m + 1 && v[v1..] == vs
      invariant forall k :: 0 <= k < uo ==> u[k] == old(u[k])
      invariant forall k :: 0 <= k < qo ==> q[k] == old(q[k])
      invariant forall k :: uo <= k < uo + j ==> u[k] == 0
      invariant qs == q[qo..qo + j] && IsDigits(qs) && IsDigits(u[uo + j..])
      invariant DivRel(U, qs, V, m + 1 - j, u[uo + j..])
    {
      var qhat := NextDigit(u, uo + j, v, v1, n, U, qs, vs, m + 1 - j);
      q[qo + j] := qhat;
      qs := qs + [qhat];
      j := j + 1;
    }
    DivEnd(U, qs, V, u[uo + m + 1..]);
    assert q[qo..] == qs;
  }

  lemma DivStart(u: seq<int>, V: int, k: nat)
    requires Val(u) < V * Pow(k)
    ensures DivRel(Val(u), [], V, k, u)
  {
  }

  lemma DivEnd(U: int, q: seq<int>, V: int, rest: seq<int>)
    requires DivRel(U, q, V, 0, rest)
    ensures U == Val(q) * V + Val(rest) && Val(rest) < V
  {
    hide Val, Pow;
    PowSucc(0);
  }

  // The digits lowWas have been shifted right into low; x is the digit to their left and
  // the bits c fell out at the right.
  ghost predicate ShrRel(low: seq<int>, lowWas: seq<int>, x: int, c: int, d: nat) {
    |low| == |lowWas| && Val(low) * Pow2(d) + c == Val(lowWas) + (x % Pow2(d)) * Pow(|low|)
  }

  // Undo the normalisation of the remainder: shift u[m..m+n] right by d bits, where u[m] is zero.
  method Unshift(u: array<int>, um: nat, n: nat, d: nat)
    requires um + n < u.Length && 1 <= d <= 15 && n >= 1
    requires IsDigits(u[um..um + n + 1]) && u[um] == 0
    modifies u
    ensures forall k :: 0 <= k <= um || um + n < k < u.Length ==> u[k] == old(u[k])
    ensures IsDigits(u[um + 1..um + n + 1])
    ensures Val(u[um + 1..um + n + 1]) == Val(old(u[um + 1..um + n + 1])) / Pow2(d)
  {
    hide Val, Pow, Pow2;
    ghost var was := u[um..um + n + 1];
    ghost var c := was[n] % Pow2(d);
    ghost var low: seq<int> := [];
    ShrStart(was, n, d);
    assert forall k :: 0 <= k <= n ==> 0 <= was[k] < B;
    assert IsDigits(low);
    hide IsDigits, ShrRel, ShiftedDigit;
    var i := n;
    while i > 0
      invariant 0 <= i <= n && |low| == n - i
      invariant forall k :: 0 <= k <= um + i || um + n < k < u.Length ==> u[k] == old(u[k])
      invariant forall k :: 0 <= k < n - i ==> u[um + i + 1 + k] == low[k]
      invariant IsDigits(low) && ShrRel(low, was[i + 1..], was[i], c, d)
    {
      var x, w := u[um + i], u[um + i - 1];
      assert x == was[i] && w == was[i - 1];
      var y := ShiftedDigit(w, x, 16 - d);
      ShrStep(low, was[i + 1..], x, c, d, w);
      assert [x] + was[i + 1..] == was[i..];
      u[um + i] := y;
      low := [y] + low;
      i := i - 1;
    }
    u[um + i] := 0;
    assert u[um + 1..um + n + 1] == low && was[1..] == old(u[um + 1..um + n + 1]);
    ShrEnd(low, was[1..], c, d, was[n]);
  }

  lemma ShrStart(was: seq<int>, n: nat, d: nat)
    requires |was| == n + 1
    ensures ShrRel([], was[n + 1..], was[n], was[n] % Pow2(d), d)
  {
  }

  // A digit x shifted right by d bits, with w to its left: as in ShlDigit, nothing wraps or overlaps.
  lemma ShrDigit(x: int, w: int, d: nat)
    requires 0 <= x < B && 0 <= w < B && 1 <= d <= 15
    ensures ShiftedDigit(w, x, 16 - d) == x / Pow2(d) + (w % Pow2(d)) * Pow2(16 - d)
    ensures 0 <= ShiftedDigit(w, x, 16 - d) < B
  {
    hide Pow2;
    Pow2Split(d);
    ShiftFits(w, 16 - d);
    ShiftParts(w, Pow2(16 - d), Pow2(d));
    ShiftParts(x, Pow2(16 - d), Pow2(d));
    ShiftedSum(w * Pow2(16 - d), x / Pow2(d), Pow2(16 - d));
  }

  lemma ShrStep(low: seq<int>, lowWas: seq<int>, x: int, c: int, d: nat, w: int)
    requires 0 <= x < B && 0 <= w < B && 1 <= d <= 15 && IsDigits(low) && ShrRel(low, lowWas, x, c, d)
    ensures IsDigits([ShiftedDigit(w, x, 16 - d)] + low)
    ensures ShrRel([ShiftedDigit(w, x, 16 - d)] + low, [x] + lowWas, w, c, d)
  {
    hide Val, Pow, Pow2, ShiftedDigit;
    var p, r, y := Pow2(d), Pow2(16 - d), ShiftedDigit(w, x, 16 - d);
    ShrDigit(x, w, d);
    Pow2Split(d);
    ValCons(y, low);
    ValCons(x, lowWas);
    PowSucc(|low|);
    ShrProducts(x, x / p, x % p, w % p, p, r, Pow(|low|), Val(low));
  }

  lemma ShrProducts(x: int, h: int, l: int, lw: int, p: int, r: int, q: int, low: int)
    requires p * r == B && x == h * p + l
    ensures ((h + lw * r) * q + low) * p == x * q + low * p + lw * (B * q) - l * q
  {
    assert (lw * r) * p == lw * B by { assert (lw * r) * p == lw * (p * r); }
    assert ((h + lw * r) * q + low) * p == (h * q + (lw * r) * q) * p + low * p;
    assert (h * q + (lw * r) * q) * p == (h * p) * q + ((lw * r) * p) * q;
    assert (h * p + l) * q == (h * p) * q + l * q;
  }

  lemma ShrEnd(low: seq<int>, was: seq<int>, c: int, d: nat, last: int)
    requires ShrRel(low, was, 0, c, d) && c == last % Pow2(d)
    ensures Val(low) == Val(was) / Pow2(d)
  {
    assert 0 * Pow(|low|) == 0;
    QuotientUnique(Val(was), Pow2(d), Val(low), c);
  }

  const QUAD: int := 0x1_0000_0000_0000_0000

  lemma {:induction false} ValZeros(s: seq<int>, k: nat)
    requires k <= |s| && forall i :: 0 <= i < k ==> s[i] == 0
    ensures Val(s) == Val(s[k..])
  {
    if k > 0 {
      ValZeros(s[1..], k - 1);
      assert s[1..][k - 1..] == s[k..];
    } else {
      assert s[0..] == s;
    }
  }

  lemma ValNone()
    ensures Val([]) == 0
  {
  }

  lemma ValFour(a: int, b: int, c: int, d: int)
    ensures Val([a, b, c, d]) == ((a * B + b) * B + c) * B + d
  {
    hide Val, Pow;
    ValSnoc([], a);
    ValNone();
    ValSnoc([a], b);
    ValSnoc([a, b], c);
    ValSnoc([a, b, c], d);
    assert [] + [a] == [a] && [a] + [b] == [a, b] && [a, b] + [c] == [a, b, c] && [a, b, c] + [d] == [a, b, c, d];
  }

  // The four digits of a quad, taken from its two words.
  lemma QuadDigits(x: int)
    requires 0 <= x < QUAD
    ensures var hi, lo := x / WORD32, x % WORD32;
            var s := [HHalf(hi), LHalf(hi), HHalf(lo), LHalf(lo)];
            IsDigits(s) && Val(s) == x
  {
    var hi, lo := x / WORD32, x % WORD32;
    ValFour(HHalf(hi), LHalf(hi), HHalf(lo), LHalf(lo));
  }

  // The quad that two COMBINEs put together.
  lemma QuadCombine(s: seq<int>)
    requires |s| == 4 && IsDigits(s)
    ensures Combine(s[0], s[1]) * WORD32 + Combine(s[2], s[3]) == Val(s)
  {
    ValFour(s[0], s[1], s[2], s[3]);
    assert s == [s[0], s[1], s[2], s[3]];
  }

  lemma DivisionUnique(u: int, v: int, q: int, r: int)
    requires v > 0 && u == q * v + r && 0 <= r < v
    ensures q == u / v && r == u % v
  {
    QuotientUnique(u, v, q, r);
  }

  // Exercise 16 of section 4.3.1: a divisor of one digit t.
  method DivideByDigit(u: array<int>, t: int) returns (q: seq<int>, r: int)
    requires u.Length == 5 && IsDigits(u[1..5]) && 1 <= t < B
    ensures |q| == 4 && IsDigits(q)
    ensures Val(q) == Val(u[1..5]) / t && r == Val(u[1..5]) % t
  {
    var u1, u2, u3, u4 := u[1], u[2], u[3], u[4];
    assert u[1..5] == [u1, u2, u3, u4];
    assert IsDigits([u1, u2, u3, u4]);
    assert [u1, u2, u3, u4][0] == u1 && [u1, u2, u3, u4][1] == u2 && [u1, u2, u3, u4][2] == u3 && [u1, u2, u3, u4][3] == u4;
    hide Val;
    var q1, r1 := u1 / t, u1 % t;
    ShortDivision(0, u1, t);
    var rbj := Combine(r1, u2);
    ShortDivision(r1, u2, t);
    var q2, r2 := rbj / t, rbj % t;
    rbj := Combine(r2, u3);
    ShortDivision(r2, u3, t);
    var q3, r3 := rbj / t, rbj % t;
    rbj := Combine(r3, u4);
    ShortDivision(r3, u4, t);
    var q4 := rbj / t;
    r := rbj % t;
    q := [q1, q2, q3, q4];
    ValFour(u1, u2, u3, u4);
    ValFour(q1, q2, q3, q4);
    ShortDivisionSum(u1, u2, u3, u4, q1, q2, q3, q4, r1, r2, r3, r, t);
    DivisionUnique(Val(u[1..5]), t, Val(q), r);
  }

  // One digit of short division: the remainder so far and the next digit.
  lemma ShortDivision(r: int, d: int, t: int)
    requires 0 <= r < t < B && 0 <= d < B
    ensures Combine(r, d) == r * B + d
    ensures 0 <= Combine(r, d) / t < B && 0 <= Combine(r, d) % t < t
    ensures r * B + d == (Combine(r, d) / t) * t + Combine(r, d) % t
  {
    DivMod(r * B + d, t, B);
  }

  lemma DivMod(x: int, t: int, bound: int)
    requires 0 <= x < t * bound && t > 0
    ensures 0 <= x / t < bound && x == (x / t) * t + x % t && 0 <= x % t < t
  {
    var q := x / t;
    if q >= bound {
      MulMono(bound, q, t);
    }
  }

  lemma ShortDivisionSum(u1: int, u2: int, u3: int, u4: int, q1: int, q2: int, q3: int, q4: int,
                         r1: int, r2: int, r3: int, r: int, t: int)
    requires u1 == q1 * t + r1 && r1 * B + u2 == q2 * t + r2
    requires r2 * B + u3 == q3 * t + r3 && r3 * B + u4 == q4 * t + r
    ensures ((u1 * B + u2) * B + u3) * B + u4 == (((q1 * B + q2) * B + q3) * B + q4) * t + r
  {
    assert (((q1 * B + q2) * B + q3) * B + q4) * t == (((q1 * t) * B + q2 * t) * B + q3 * t) * B + q4 * t;
  }

  // D1: the shift d that brings the leading digit t up to B/2.
  method NormalisingShift(v1: int) returns (d: nat)
    requires 1 <= v1 < B
    ensures d <= 15 && B / 2 <= Times(v1, Pow2(d)) < B
  {
    d := 0;
    var t := v1;
    Doubled(v1, v1, 0);
    hide Pow2, Times;
    while t < B / 2
      invariant t == Times(v1, Pow2(d)) && Pow2(d) <= t < B
      decreases B - t
    {
      Doubled(v1, t, d);
      t := U32(t * 2);
      d := d + 1;
    }
    ShiftBound(d);
  }

  lemma Doubled(v: int, t: int, d: nat)
    ensures t == Times(v, Pow2(d)) ==> 2 * t == Times(v, Pow2(d + 1))
    ensures Pow2(d + 1) == 2 * Pow2(d) && Times(v, Pow2(0)) == v && Pow2(0) == 1
  {
    assert v * (2 * Pow2(d)) == 2 * (v * Pow2(d));
  }

  lemma ShiftBound(d: nat)
    ensures d >= 16 ==> Pow2(d) >= B
  {
    if d >= 16 {
      Pow2Add(16, d - 16);
      Pow2Split(16);
      assert Pow2(0) == 1;
      MulMono(1, Pow2(d - 16), Pow2(16));
    }
  }

  // A left shift that loses nothing multiplies by 2^d.
  lemma ShiftExact(x: int, d: nat, k: nat)
    requires d <= 15 && 0 <= x && x * Pow2(d) < B
    ensures Scale(x / Pow2(16 - d), k) == 0
  {
    Pow2Split(d);
    var p, r := Pow2(d), Pow2(16 - d);
    if x >= r {
      MulMono(r, x, p);
    }
    QuotientUnique(x, r, 0, x);
  }

  // A digit times 2^d keeps its place at the top of the shifted number.
  lemma ShiftedLeading(s: seq<int>, t: seq<int>, d: nat)
    requires s != [] && |t| == |s| && IsDigits(s) && IsDigits(t) && d <= 15
    requires B / 2 <= s[0] * Pow2(d) && Val(t) == Val(s) * Pow2(d)
    ensures t[0] >= B / 2
  {
    hide Val, Pow, Pow2;
    ValFirst(s);
    ValFirst(t);
    ValBounds(s[1..]);
    ValBounds(t[1..]);
    LeadingProductBound(s[0], Val(s[1..]), t[0], Val(t[1..]), Pow(|s| - 1), Pow2(d));
  }

  lemma LeadingProductBound(s0: int, sr: int, t0: int, tr: int, p: int, f: int)
    requires p >= 1 && f >= 1 && sr >= 0 && tr < p && B / 2 <= s0 * f
    requires t0 * p + tr == (s0 * p + sr) * f
    ensures t0 >= B / 2
  {
    assert (s0 * p + sr) * f == (s0 * f) * p + sr * f;
    MulMono(0, sr, f);
    MulMono(B / 2, s0 * f, p);
    if t0 < B / 2 {
      MulMono(t0 + 1, B / 2, p);
    }
  }

  // The shifted dividend is small enough for Program D: m + 1 quotient digits suffice.
  lemma QuotientFits(us: seq<int>, vs: seq<int>, m: nat, f: int)
    requires |us| == m + |vs| + 1 && us[0] == 0 && IsDigits(us) && IsDigits(vs) && vs != [] && vs[0] >= 1 && f >= 1
    ensures Val(us) * f < (Val(vs) * f) * Pow(m + 1)
  {
    hide Val, Pow;
    ValFirst(us);
    ValBounds(us[1..]);
    ValFirst(vs);
    ValBounds(vs[1..]);
    MulMono(1, vs[0], Pow(|vs| - 1));
    PowAdd(|vs| - 1, m + 1);
    MulMono(Pow(|vs| - 1), Val(vs), Pow(m + 1));
    assert Val(us) < Val(vs) * Pow(m + 1);
    MulMono(Val(us) + 1, Val(vs) * Pow(m + 1), f);
    assert (Val(vs) * Pow(m + 1)) * f == (Val(vs) * f) * Pow(m + 1);
  }

  // D1: shift the dividend u[0..m+n] and the divisor v[1..n] so that v[1] >= B/2.
  method Normalise(u: array<int>, uo: nat, v: array<int>, v1: nat) returns (d: nat)
    requires u != v && uo < u.Length && v1 < v.Length && u.Length - uo > v.Length - v1
    requires IsDigits(u[uo..]) && IsDigits(v[v1..]) && u[uo] == 0 && v[v1] >= 1
    modifies u, v
    ensures d <= 15 && forall k :: 0 <= k < uo ==> u[k] == old(u[k])
    ensures IsDigits(u[uo..]) && IsDigits(v[v1..]) && v[v1] >= B / 2
    ensures Val(u[uo..]) == Val(old(u[uo..])) * Pow2(d) && Val(v[v1..]) == Val(old(v[v1..])) * Pow2(d)
    ensures Val(u[uo..]) < Val(v[v1..]) * Pow((u.Length - uo) - (v.Length - v1))
  {
    ghost var us, vs := u[uo..], v[v1..];
    assert us[0] == u[uo] && vs[0] == v[v1];
    hide IsDigits, Val, Pow, Pow2, Times, Scale;
    d := NormalisingShift(v[v1]);
    if d > 0 {
      Shl(u, uo, u.Length - uo - 1, d);
      Shl(v, v1, v.Length - v1 - 1, d);
    }
    assert v[v1..][0] == v[v1];
    NormalisedFacts(us, vs, u[uo..], v[v1..], |us| - |vs| - 1, d);
  }

  // Program D as a whole: normalise, divide, and undo the normalisation of the remainder if it is wanted.
  method NormalisedDivide(u: array<int>, uo: nat, v: array<int>, vo: nat, q: array<int>, m: nat, n: nat, wantRem: bool)
    requires u != v && q != u && q != v && u.Length == v.Length == q.Length == 5
    requires n >= 2 && uo + m + n == 4 && vo + n == 4
    requires IsDigits(u[uo..]) && IsDigits(v[vo + 1..]) && u[uo] == 0 && v[vo + 1] >= 1 && Val(v[vo + 1..]) > 0
    modifies u, v, q
    ensures forall k :: 0 <= k < uo ==> u[k] == old(u[k])
    ensures forall k :: 0 <= k < 4 - m ==> q[k] == old(q[k])
    ensures IsDigits(q[4 - m..]) && Val(q[4 - m..]) == Val(old(u[uo..])) / Val(old(v[vo + 1..]))
    ensures wantRem ==> IsDigits(u[uo..]) && u[uo] == 0
    ensures wantRem ==> Val(u[uo..]) == Val(old(u[uo..])) % Val(old(v[vo + 1..]))
  {
    ghost var U, V := Val(u[uo..]), Val(v[vo + 1..]);
    hide IsDigits, Val, Pow, Pow2;
    var d := Normalise(u, uo, v, vo + 1);
    ProgramD(u, uo, v, vo + 1, q, 4 - m, m, n);
    ghost var rem := u[uo + m + 1..];
    ValBounds(rem);
    Unscale(U, V, Val(q[4 - m..]), Val(rem), Pow2(d));
    if wantRem {
      FinishRemainder(u, uo, m, n, d);
    }
  }

  // The remainder is what Program D leaves in u[m+1..m+n], shifted back.
  method FinishRemainder(u: array<int>, uo: nat, m: nat, n: nat, d: nat)
    requires u.Length == uo + m + n + 1 && n >= 1 && d <= 15 && IsDigits(u[uo + m + 1..])
    requires forall k :: uo <= k <= uo + m ==> u[k] == 0
    modifies u
    ensures forall k :: 0 <= k <= uo ==> u[k] == old(u[k])
    ensures IsDigits(u[uo..]) && Val(u[uo..]) == Val(old(u[uo + m + 1..])) / Pow2(d)
  {
    Pow2None();
    hide Val, Pow2;
    var um := uo + m;
    if d > 0 {
      assert u[um..um + n + 1] == [0] + u[um + 1..] && u[um + 1..um + n + 1] == u[um + 1..];
      Unshift(u, um, n, d);
      assert u[um + 1..um + n + 1] == u[um + 1..];
    }
    ZeroPrefix(u[uo..], m + 1);
    assert u[uo..][m + 1..] == u[um + 1..];
  }

  lemma ZeroPrefix(s: seq<int>, k: nat)
    requires k <= |s| && (forall i :: 0 <= i < k ==> s[i] == 0) && IsDigits(s[k..])
    ensures IsDigits(s) && Val(s) == Val(s[k..])
  {
    assert s == s[..k] + s[k..];
    ValZeros(s, k);
  }

  lemma Pow2None()
    ensures Pow2(0) == 1
  {
  }

  lemma NormalisedFacts(us: seq<int>, vs: seq<int>, us': seq<int>, vs': seq<int>, m: nat, d: nat)
    requires vs != [] && |us| == m + |vs| + 1 == |us'| && |vs'| == |vs| && d <= 15
    requires IsDigits(us) && IsDigits(vs) && IsDigits(us') && IsDigits(vs') && us[0] == 0
    requires vs[0] >= 1 && B / 2 <= Times(vs[0], Pow2(d)) < B
    requires d == 0 ==> us' == us && vs' == vs
    requires d > 0 ==> Val(us') == Times(Val(us), Pow2(d)) - Scale(us[0] / Pow2(16 - d), |us|)
    requires d > 0 ==> Val(vs') == Times(Val(vs), Pow2(d)) - Scale(vs[0] / Pow2(16 - d), |vs|)
    ensures Val(us') == Val(us) * Pow2(d) && Val(vs') == Val(vs) * Pow2(d)
    ensures vs'[0] >= B / 2
    ensures Val(us') < Val(vs') * Pow(m + 1)
  {
    hide Val, Pow;
    ShiftExact(vs[0], d, |vs|);
    assert 0 * Pow2(d) == 0;
    ShiftExact(0, d, |us|);
    Pow2None();
    ShiftedLeading(vs, vs', d);
    QuotientFits(us, vs, m, Pow2(d));
  }

  // Dividing the shifted numbers gives the same quotient and the shifted remainder.
  lemma Unscale(u: int, v: int, q: int, r: int, f: int)
    requires f >= 1 && u * f == q * (v * f) + r && 0 <= r < v * f
    ensures v > 0 && q == u / v && r / f == u % v && r == (u % v) * f
  {
    var x := u - q * v;
    assert x * f == r by {
      assert x * f == u * f - (q * v) * f;
      assert (q * v) * f == q * (v * f);
    }
    if x < 0 {
      MulMono(x, -1, f);
    }
    if x >= v {
      MulMono(v, x, f);
    }
    if v <= 0 {
      MulMono(v, 0, f);
    }
    DivisionUnique(u, v, q, x);
    QuotientUnique(r, f, x, 0);
  }

  // __qdivrem
  method QDivRem(uq: int, vq: int, arq: array?<int>) returns (res: DivResult)
    requires 0 <= uq < QUAD && 0 <= vq < QUAD
    requires arq != null ==> arq.Length == 1
    modifies if arq != null then {arq} else {}
    ensures vq == 0 ==> res == DivideByZero && (arq != null ==> arq[0] == old(arq[0]))
    ensures vq != 0 ==> res == Quotient(uq / vq)
    ensures vq != 0 && arq != null ==> arq[0] == uq % vq
  {
    if vq == 0 {
      return DivideByZero;
    }
    if uq < vq {
      DivisionUnique(uq, vq, 0, uq);
      if arq != null {
        arq[0] := uq;
      }
      return Quotient(0);
    }
    var u, v, q := new int[5], new int[5], new int[5];
    LoadDigits(u, uq);
    u[0] := 0;
    LoadDigits(v, vq);
    ghost var us, vs := u[..], v[1..];
    assert us == [0] + u[1..];
    assert IsDigits(us) && u[1..5] == u[1..];
    hide Val, Pow;
    var vo, n := 0, 4;
    while v[vo + 1] == 0
      invariant 0 <= vo <= 2 && n == 4 - vo
      invariant forall k :: 1 <= k <= vo ==> v[k] == 0
      decreases n
      modifies if arq != null then {arq} else {}
    {
      n := n - 1;
      if n == 1 {
        var t := v[vo + 2];
        ShortDivisor(vs, t);
        var qs, r := DivideByDigit(u, t);
        if arq != null {
          arq[0] := r;
        }
        QuadCombine(qs);
        return Quotient(Combine(qs[0], qs[1]) * WORD32 + Combine(qs[2], qs[3]));
      }
      vo := vo + 1;
    }
    ValZeros(vs, vo);
    assert vs[vo..] == v[vo + 1..];
    assert IsDigits(v[vo + 1..]) && v[vo + 1] == vs[vo];
    ValZeros(us, 1);
    assert us[1..] == u[1..];
    var quot, rem := DivideByLong(u, v, q, vo, n, uq, vq, arq != null);
    if arq != null {
      arq[0] := rem;
    }
    res := Quotient(quot);
  }

  // The general case: strip the leading zero digits of the dividend, clear the quotient digits that
  // will not be produced, and run Program D.
  method DivideByLong(u: array<int>, v: array<int>, q: array<int>, vo: nat, n: nat,
                      ghost uq: int, ghost vq: int, wantRem: bool)
    returns (quot: int, rem: int)
    requires u != v && q != u && q != v && u.Length == v.Length == q.Length == 5
    requires n >= 2 && vo + n == 4 && IsDigits(u[..]) && IsDigits(v[vo + 1..]) && u[0] == 0 && v[vo + 1] >= 1
    requires Val(u[..]) == uq && Val(v[vo + 1..]) == vq && 0 < vq <= uq
    modifies u, v, q
    ensures quot == uq / vq && (wantRem ==> rem == uq % vq)
  {
    ghost var us := u[..];
    hide IsDigits, Val, Pow;
    var uo, m := StripDividend(u, v[vo + 1..], n);
    ClearQuotient(q, 4 - m);
    NormalisedDivide(u, uo, v, vo, q, m, n, wantRem);
    quot := CombineDigits(q, 4 - m);
    rem := 0;
    if wantRem {
      rem := CombineDigits(u, uo);
    }
  }

  // Skip the leading zero digits of the dividend; at least n digits remain.
  method StripDividend(u: array<int>, ghost vs: seq<int>, n: nat) returns (uo: nat, m: nat)
    requires u.Length == 5 && 2 <= n <= 4 && |vs| == n && IsDigits(u[..]) && IsDigits(vs)
    requires u[0] == 0 && vs[0] >= 1 && Val(u[..]) >= Val(vs)
    ensures uo + m + n == 4 && forall k :: 0 <= k <= uo ==> u[k] == 0
    ensures IsDigits(u[uo..]) && Val(u[uo..]) == Val(u[..])
  {
    ghost var us := u[..];
    uo, m := 0, 4 - n;
    while u[uo + 1] == 0
      invariant 0 <= uo && 0 <= m == 4 - n - uo
      invariant forall k :: 0 <= k <= uo ==> us[k] == 0
      decreases m
    {
      DividendLength(us, vs, uo + 2);
      m := m - 1;
      uo := uo + 1;
    }
    ValZeros(us, uo);
    assert us[uo..] == u[uo..];
  }

  method ClearQuotient(q: array<int>, n: nat)
    requires n <= q.Length
    modifies q
    ensures forall k :: 0 <= k < n ==> q[k] == 0
  {
    var i := n;
    while i > 0
      invariant 0 <= i <= n
      invariant forall k :: i <= k < n ==> q[k] == 0
    {
      i := i - 1;
      q[i] := 0;
    }
  }

  // All but the last digit of the divisor are zero.
  lemma ShortDivisor(vs: seq<int>, t: int)
    requires |vs| == 4 && IsDigits(vs) && Val(vs) > 0
    requires vs[0] == 0 && vs[1] == 0 && vs[2] == 0 && vs[3] == t
    ensures 1 <= t < B && Val(vs) == t
  {
    ValZeros(vs, 3);
    assert vs[3..] == [] + [t];
    ValSnoc([], t);
    ValNone();
  }

  // A dividend not smaller than the divisor has at least as many digits.
  lemma DividendLength(us: seq<int>, vs: seq<int>, k: nat)
    requires vs != [] && IsDigits(us) && IsDigits(vs) && vs[0] >= 1 && Val(us) >= Val(vs)
    requires k <= |us| && forall i :: 0 <= i < k ==> us[i] == 0
    ensures |us| - k >= |vs|
  {
    hide Val, Pow;
    ValZeros(us, k);
    ValBounds(us[k..]);
    ValFirst(vs);
    ValBounds(vs[1..]);
    MulMono(1, vs[0], Pow(|vs| - 1));
    if |us| - k < |vs| {
      PowMono(|us| - k, |vs| - 1);
    }
  }

  lemma PowMono(a: nat, b: nat)
    requires a <= b
    ensures Pow(a) <= Pow(b)
  {
    PowAdd(a, b - a);
    MulMono(1, Pow(b - a), Pow(a));
  }

  // The quad in the digits s[1..4], where everything before s[k] is zero.
  method CombineDigits(s: array<int>, ghost k: nat) returns (x: int)
    requires s.Length == 5 && k < 5 && IsDigits(s[k..]) && forall i :: 0 <= i < k ==> s[i] == 0
    requires k == 0 ==> s[0] == 0
    ensures x == Val(s[k..])
  {
    ghost var t := s[..];
    assert IsDigits(s[1..]) by { assert t == s[..k] + s[k..]; }
    QuadCombine(s[1..]);
    ValZeros(t, 1);
    ValZeros(t, k);
    assert t[1..] == s[1..] && t[k..] == s[k..];
    x := Combine(s[1], s[2]) * WORD32 + Combine(s[3], s[4]);
  }

  method LoadDigits(s: array<int>, x: int)
    requires s.Length == 5 && 0 <= x < QUAD
    modifies s
    ensures IsDigits(s[1..]) && Val(s[1..]) == x && s[0] == old(s[0])
  {
    var hi, lo := x / WORD32, x % WORD32;
    s[1], s[2], s[3], s[4] := HHalf(hi), LHalf(hi), HHalf(lo), LHalf(lo);
    QuadDigits(x);
    assert s[1..] == [HHalf(hi), LHalf(hi), HHalf(lo), LHalf(lo)];
  }

  // __udivdi3 and __umoddi3
  method UDivDI3(a: int, b: int) returns (res: DivResult)
    requires 0 <= a < QUAD && 0 <= b < QUAD
    ensures res == if b == 0 then DivideByZero else Quotient(a / b)
  {
    res := QDivRem(a, b, null);
  }

  // The remainder is not set when the division traps.
  method UModDI3(a: int, b: int) returns (trap: bool, r: int)
    requires 0 <= a < QUAD && 0 <= b < QUAD
    ensures trap <==> b == 0
    ensures b != 0 ==> r == a % b
  {
    var cell := new int[1];
    var res := QDivRem(a, b, cell);
    trap := res.DivideByZero?;
    r := cell[0];
  }
}