// Numbers as text: 410user/libstdio/doprnt.c prints them, 410user/libstdlib/strtol.c and strtoul.c read them.
// Strings are NUL-terminated; long is 32 bits wide and long long 64.

module NumberText {
  import opened CStrings
  import opened MachineWord

  const WORD64: int := 0x1_0000_0000_0000_0000
  const HALF32: int := 0x8000_0000
  const MAXBUF: nat := 32
  const SPACES: set<char> := {' ', '\U{0C}', '\n', '\r', '\t', '\U{0B}'}
  const FLAGS: set<char> := {'#', '-', '+', ' '}
  const DECIMAL: set<char> := {'0', '1', '2', '3', '4', '5', '6', '7', '8', '9'}

  // ---------------------------------------------------------------- digits

  function Digit(d: nat): char
    requires d < 16
  {
    "0123456789abcdef"[d]
  }

  // The value of a digit, or -1 if the base has no such digit.
  function Field(c: char, base: int): (d: int)
    ensures d == -1 || 0 <= d < base
  {
    if '0' <= c <= '9' && c as int - '0' as int < base then c as int - '0' as int
    else if 'a' <= c <= 'z' && c as int - 'a' as int + 10 < base then c as int - 'a' as int + 10
    else if 'A' <= c <= 'Z' && c as int - 'A' as int + 10 < base then c as int - 'A' as int + 10
    else -1
  }

  ghost function DigitsOf(base: int): set<char> { set c: char | Field(c, base) >= 0 }

  ghost predicate AllDigits(s: string, base: int) { forall k :: 0 <= k < |s| ==> Field(s[k], base) >= 0 }

  // What a row of digits means.
  ghost function Number(s: string, base: int): (v: int)
    requires AllDigits(s, base)
    ensures base >= 0 ==> v >= 0
  {
    if s == "" then 0
    else
      var high := Number(s[..|s| - 1], base);
      assert base >= 0 ==> high * base >= 0 by { if base >= 0 { MulNonNegative(high, base); } }
      high * base + Field(s[|s| - 1], base)
  }

  lemma MulNonNegative(a: int, b: int)
    requires a >= 0 && b >= 0
    ensures a * b >= 0
  {
  }

  ghost function DigitText(u: nat, base: nat): (s: string)
    requires 2 <= base <= 16
    ensures s != ""
    decreases u
  {
    if u < base then [Digit(u)] else DigitText(u / base, base) + [Digit(u % base)]
  }

  lemma DigitField(d: nat, base: nat)
    requires d < base <= 16
    ensures Field(Digit(d), base) == d
    ensures (Digit(d) == '0' <==> d == 0) && !('A' <= Digit(d) <= 'Z')
  {
  }

  lemma DivSmaller(u: nat, base: nat)
    requires u > 0 && base >= 2
    ensures 0 <= u / base < u && (u / base == 0 <==> u < base) && 0 <= u % base < base
    ensures u == u / base * base + u % base
  {
    Factor(u / base, u % base, base);
  }

  lemma Factor(q: int, r: nat, base: nat)
    requires base >= 2 && r < base
    ensures q >= 1 ==> q * base + r > q && q * base + r >= base
    ensures q <= 0 ==> q * base + r < base
    ensures q < 0 ==> q * base + r < 0
  {
    if q >= 1 { MulNonNegative(q - 1, base); assert (q - 1) * base == q * base - base; MulNonNegative(q, base - 2); assert q * (base - 2) == q * base - 2 * q; }
    if q < 0 { MulNonNegative(-q - 1, base); assert (-q - 1) * base == -(q * base) - base; }
  }

  // The text is the number's own, shortest, lower-case numeral.
  lemma {:induction false} DigitTextMeans(u: nat, base: nat)
    requires 2 <= base <= 16
    ensures AllDigits(DigitText(u, base), base) && Number(DigitText(u, base), base) == u
    ensures DigitText(u, base)[0] == '0' <==> u == 0
    ensures u == 0 ==> DigitText(u, base) == "0"
    ensures forall k :: 0 <= k < |DigitText(u, base)| ==> !('A' <= DigitText(u, base)[k] <= 'Z')
    decreases u
  {
    hide Digit, Field;
    var s := DigitText(u, base);
    if u < base {
      DigitField(u, base);
      assert s == [Digit(u)] && s[..|s| - 1] == "";
    } else {
      DivSmaller(u, base);
      DigitTextMeans(u / base, base);
      DigitField(u % base, base);
      var high := DigitText(u / base, base);
      assert s == high + [Digit(u % base)] && s[..|s| - 1] == high;
      assert s[0] == high[0];
      assert AllDigits(s, base);
    }
  }

  lemma DivBelow(u: nat, base: nat, p: nat)
    requires u < 8 * p && base >= 8
    ensures u / base < p
  {
    var q := u / base;
    assert u == q * base + u % base;
    MulNonNegative(q, base - 8);
    assert q * (base - 8) == q * base - 8 * q;
  }

  // Every digit takes the number down by a factor of eight at least.
  lemma {:induction false} DigitTextFits(u: nat, base: nat, bits: nat)
    requires 8 <= base <= 16 && u < Power8(bits) && bits > 0
    ensures |DigitText(u, base)| <= bits
    decreases bits
  {
    if u >= base {
      DivSmaller(u, base);
      DivBelow(u, base, Power8(bits - 1));
      DigitTextFits(u / base, base, bits - 1);
    }
  }

  ghost function Power8(n: nat): (p: nat)
    ensures p > 0
  {
    if n == 0 then 1 else 8 * Power8(n - 1)
  }

  lemma BufferHolds(u: nat, base: nat)
    requires 8 <= base <= 16 && u < WORD64
    ensures |DigitText(u, base)| <= 22
  {
    assert Power8(4) == 4096;
    assert Power8(8) == 16777216 by { assert Power8(6) == 262144; }
    assert Power8(12) == 68719476736 by { assert Power8(10) == 1073741824; }
    assert Power8(16) == 281474976710656 by { assert Power8(14) == 4398046511104; }
    assert Power8(20) == 1152921504606846976 by { assert Power8(18) == 18014398509481984; }
    assert Power8(22) == 73786976294838206464;
    DigitTextFits(u, base, 22);
  }

  ghost function Fill(c: char, n: int): (s: string)
    ensures |s| == if n > 0 then n else 0
    ensures forall k :: 0 <= k < |s| ==> s[k] == c
  {
    if n <= 0 then "" else Fill(c, n - 1) + [c]
  }

  lemma {:induction false} ZerosAddNothing(n: int, s: string, base: int)
    requires base > 0 && AllDigits(s, base)
    ensures AllDigits(Fill('0', n) + s, base) && Number(Fill('0', n) + s, base) == Number(s, base)
    decreases if n > 0 then n else 0, |s|
  {
    var t := Fill('0', n) + s;
    if s == "" {
      assert t == Fill('0', n);
      if n > 0 {
        ZerosAddNothing(n - 1, "", base);
        assert Fill('0', n - 1) + "" == Fill('0', n - 1) == t[..|t| - 1];
      }
    } else {
      var r := s[..|s| - 1];
      ZerosAddNothing(n, r, base);
      assert t[..|t| - 1] == Fill('0', n) + r;
      assert t[|t| - 1] == s[|s| - 1];
    }
  }

  // ---------------------------------------------------------------- printing

  // What a conversion's flags and width say; plus and the sign are NUL for none.
  datatype Layout = Layout(alt: bool, left: bool, zero: bool, plus: char, width: int)

  ghost function Prefix(alt: bool, u: nat, base: nat): string {
    if u == 0 || !alt then "" else if base == 8 then "0" else if base == 16 then "0x" else ""
  }

  ghost function SignText(sign: char): string { if sign == NUL then "" else [sign] }

  // The number with its padding: zeros go after the sign and prefix, and win over left adjustment.
  ghost function NumText(l: Layout, sign: char, u: nat, base: nat): (s: string)
    requires 2 <= base <= 16
    ensures var bare := |SignText(sign) + Prefix(l.alt, u, base) + DigitText(u, base)|;
            |s| == if l.width > bare then l.width else bare
  {
    Padded(l, SignText(sign) + Prefix(l.alt, u, base), DigitText(u, base))
  }

  ghost function Blanks(l: Layout, pad: int): string { if l.zero || l.left then "" else Fill(' ', pad) }

  ghost function Zeros(l: Layout, pad: int): string { if l.zero then Fill('0', pad) else "" }

  ghost function Trail(l: Layout, pad: int): string { if l.left && !l.zero then Fill(' ', pad) else "" }

  ghost function Padded(l: Layout, head: string, digits: string): (s: string)
    ensures |s| == if l.width > |head + digits| then l.width else |head + digits|
  {
    var pad := l.width - |head| - |digits|;
    Blanks(l, pad) + head + Zeros(l, pad) + digits + Trail(l, pad)
  }

  // The padding loops: they count the length down and print c until it is below zero.
  method Pad(c: char, width: int, before: string) returns (length: int, out: string)
    ensures out == before + Fill(c, width)
    ensures length == if width > 0 then -1 else width - 1
  {
    length, out := width - 1, before;
    while length >= 0
      invariant length >= -1 || length == width - 1
      invariant length <= width - 1
      invariant out == before + Fill(c, width - 1 - length)
    {
      out := out + [c];
      length := length - 1;
    }
  }

  // The digits still to come when u is left of the number.
  ghost function Left(u: nat, base: nat): string
    requires 2 <= base <= 16
  {
    if u == 0 then "" else DigitText(u, base)
  }

  lemma LastDigit(u: nat, base: nat)
    requires 2 <= base <= 16
    ensures 0 <= u % base < base && 0 <= u / base && (u > 0 ==> u / base < u)
    ensures DigitText(u, base) == Left(u / base, base) + [Digit(u % base)]
  {
    hide Digit;
    if u > 0 { DivSmaller(u, base); }
  }

  // The loop that fills the buffer from its end.
  method FillDigits(buf: array<char>, u0: nat, base: nat) returns (p: int)
    requires buf.Length == MAXBUF && 8 <= base <= 16 && u0 < WORD64
    modifies buf
    ensures -1 <= p < MAXBUF - 1 && buf[p + 1..] == DigitText(u0, base)
  {
    hide DigitText, Digit;
    BufferHolds(u0, base);
    var u: nat := u0;
    p := MAXBUF - 1;
    LastDigit(u, base);
    buf[p], p, u := Digit(u % base), p - 1, u / base;
    while u != 0
      invariant MAXBUF - 23 <= p < MAXBUF - 1
      invariant Left(u, base) + buf[p + 1..] == DigitText(u0, base)
      decreases u
    {
      ghost var done, v := buf[p + 1..], u;
      LastDigit(u, base);
      buf[p], p, u := Digit(u % base), p - 1, u / base;
      assert buf[p + 1..] == [Digit(v % base)] + done;
    }
  }

  // The loop that prints what is in the buffer.
  method PutDigits(buf: array<char>, p0: nat, before: string) returns (out: string)
    requires p0 <= buf.Length
    ensures out == before + buf[p0..]
  {
    var p := p0;
    out := before;
    while p != buf.Length
      invariant p0 <= p <= buf.Length
      invariant out == before + buf[p0..p]
    {
      out := out + [buf[p]];
      p := p + 1;
    }
  }

  // Prints the sign, the prefix, the digits behind p and the padding.
  method PutNum(l: Layout, sign: char, prefix: string, buf: array<char>, p: int) returns (out: string)
    requires buf.Length == MAXBUF && -1 <= p < MAXBUF - 1
    ensures out == Padded(l, SignText(sign) + prefix, buf[p + 1..])
  {
    hide Fill;
    ghost var head, pad := SignText(sign) + prefix, l.width - |SignText(sign) + prefix| - (MAXBUF - 1 - p);
    var length := l.width - (MAXBUF - 1 - p);
    if sign != NUL { length := length - 1; }
    length := length - |prefix|;
    out := "";
    if !l.zero && !l.left { length, out := Pad(' ', length, out); }
    if sign != NUL { out := out + [sign]; }
    out := out + prefix;
    assert out == Blanks(l, pad) + head;
    if l.zero { length, out := Pad('0', length, out); }
    assert out == Blanks(l, pad) + head + Zeros(l, pad);
    out := PutDigits(buf, p + 1, out);
    if l.left { length, out := Pad(' ', length, out); }
  }

  // print_num: the number's digits, and the padding around them.
  method PrintNum(l: Layout, sign: char, u0: nat, base: nat, truncate: bool) returns (out: string)
    requires base in {8, 10, 16} && u0 < WORD64
    ensures out == NumText(l, sign, if truncate then Truncated(u0) else u0, base)
  {
    hide DigitText, Fill, Truncated, Padded;
    var buf := new char[MAXBUF];
    var u := if truncate then Truncated(u0) else u0;
    var prefix := "";
    if u != 0 && l.alt {
      if base == 8 { prefix := "0"; } else if base == 16 { prefix := "0x"; }
    }
    var p := FillDigits(buf, u, base);
    out := PutNum(l, sign, prefix, buf, p);
  }

  // The low 32 bits, sign-extended to 64.
  function Truncated(u: int): (t: int)
    requires 0 <= u < WORD64
    ensures 0 <= t < WORD64 && t % WORD32 == u % WORD32
    ensures 0 <= u < HALF32 ==> t == u
  {
    var low := u % WORD32;
    if low < HALF32 then low else WORD64 - WORD32 + low
  }

  // ---------------------------------------------------------------- conversions

  // Numbers; a letter that stands for itself; the end of the format; the conversions that are not modelled.
  datatype Conversion = Signed(base: nat) | Unsigned(base: nat) | Pointer | Itself | End | NotNumber

  function ConversionOf(c: char): (k: Conversion)
    ensures k.Signed? || k.Unsigned? ==> k.base in {8, 10, 16}
  {
    if c in "dD" then Signed(10) else if c in "zZ" then Signed(16)
    else if c in "oO" then Unsigned(8) else if c in "uU" then Unsigned(10) else if c in "xX" then Unsigned(16)
    else if c == 'p' then Pointer
    else if c == NUL then End
    else if c in "bBctsrRnN" then NotNumber
    else Itself
  }

  // What a conversion may be handed; more than one l asks for a long long.
  ghost predicate ArgFits(k: Conversion, longs: nat, arg: int) {
    match k
    case Signed(_) => if longs > 1 then -WORD64 <= 2 * arg < WORD64 else -HALF32 <= arg < HALF32
    case NotNumber => false
    case _ => 0 <= arg < if longs > 1 then WORD64 else WORD32
  }

  function SignChar(plus: char, n: int): char { if n >= 0 then plus else '-' }

  function Abs(n: int): nat { if n >= 0 then n else -n }

  ghost function SignedText(l: Layout, n: int, base: nat): string
    requires 2 <= base <= 16
  {
    NumText(l, SignChar(l.plus, n), Abs(n), base)
  }

  ghost function UnsignedText(l: Layout, u: nat, base: nat): string
    requires 2 <= base <= 16
  {
    NumText(l, NUL, u, base)
  }

  // %p prints 0x of its own and then eight digits.
  ghost function PointerText(l: Layout, u: nat): string { "0x" + NumText(PointerLayout(l), NUL, u, 16) }

  function PointerLayout(l: Layout): Layout { l.(zero := true, width := 8) }

  ghost function Text(c: char, l: Layout, arg: int): string
    requires ConversionOf(c).Signed? || arg >= 0
  {
    match ConversionOf(c)
    case Signed(base) => SignedText(l, arg, base)
    case Unsigned(base) => UnsignedText(l, arg, base)
    case Pointer => PointerText(l, arg)
    case Itself => [c]
    case _ => ""
  }

  // The switch on the letter; for one that stands for itself no argument is taken.
  method Convert(c: char, l: Layout, longs: nat, arg: int) returns (out: string)
    requires ArgFits(ConversionOf(c), longs, arg)
    ensures out == Text(c, l, arg)
  {
    match ConversionOf(c)
    case Signed(base) =>
      if arg >= 0 {
        out := PrintNum(l, l.plus, arg, base, false);
      } else {
        out := PrintNum(l, '-', -arg, base, false);
      }
    case Unsigned(base) =>
      out := PrintNum(l, NUL, arg, base, false);
    case Pointer =>
      var digits := PrintNum(PointerLayout(l), NUL, arg, 16, false);
      out := "0x" + digits;
    case Itself =>
      out := [c];
    case End =>
      out := "";
  }

  // ---------------------------------------------------------------- scanning a conversion

  // '+' wins over ' ' in whatever order they stand.
  ghost predicate FlagsMean(flags: string, alt: bool, left: bool, plus: char) {
    && (alt <==> '#' in flags) && (left <==> '-' in flags)
    && plus == if '+' in flags then '+' else if ' ' in flags then ' ' else NUL
  }

  method ScanFlags(fmt: string, at: nat) returns (alt: bool, left: bool, plus: char, end: nat)
    requires CString(fmt) && at < |fmt|
    ensures end == RunEnd(fmt, at, FLAGS) && end < |fmt|
    ensures FlagsMean(fmt[at..end], alt, left, plus)
  {
    alt, left, plus, end := false, false, NUL, at;
    while true
      invariant at <= end < |fmt|
      invariant forall k :: at <= k < end ==> fmt[k] in FLAGS
      invariant FlagsMean(fmt[at..end], alt, left, plus)
      decreases |fmt| - end
    {
      assert fmt[at..end + 1] == fmt[at..end] + [fmt[end]];
      if fmt[end] == '#' {
        alt, end := true, end + 1;
      } else if fmt[end] == '-' {
        left, end := true, end + 1;
      } else if fmt[end] == '+' {
        plus, end := '+', end + 1;
      } else if fmt[end] == ' ' {
        if plus == NUL { plus := ' '; }
        end := end + 1;
      } else {
        break;
      }
    }
    RunEndIs(fmt, at, end, FLAGS);
  }

  lemma DecimalIsDigits(s: string)
    requires forall k :: 0 <= k < |s| ==> s[k] in DECIMAL
    ensures AllDigits(s, 10)
  {
  }

  // Reads decimal digits as long as there are any.
  method ScanDecimal(fmt: string, at: nat) returns (n: nat, end: nat)
    requires CString(fmt) && at < |fmt|
    ensures end == RunEnd(fmt, at, DECIMAL) && end < |fmt|
    ensures AllDigits(fmt[at..end], 10) && n == Number(fmt[at..end], 10)
  {
    n, end := 0, at;
    while '0' <= fmt[end] <= '9'
      invariant at <= end < |fmt|
      invariant forall k :: at <= k < end ==> fmt[k] in DECIMAL
      invariant AllDigits(fmt[at..end], 10) && n == Number(fmt[at..end], 10)
      decreases |fmt| - end
    {
      ghost var more := fmt[at..end + 1];
      assert more[..|more| - 1] == fmt[at..end];
      DecimalIsDigits(more);
      n, end := 10 * n + (fmt[end] as int - '0' as int), end + 1;
    }
    RunEndIs(fmt, at, end, DECIMAL);
  }

  method ScanLongs(fmt: string, at: nat) returns (longs: nat, end: nat)
    requires CString(fmt) && at < |fmt|
    ensures end == RunEnd(fmt, at, {'l'}) && end < |fmt| && longs == end - at
  {
    longs, end := 0, at;
    while fmt[end] == 'l'
      invariant at <= end < |fmt| && longs == end - at
      invariant forall k :: at <= k < end ==> fmt[k] in {'l'}
      decreases |fmt| - end
    {
      longs, end := longs + 1, end + 1;
    }
    RunEndIs(fmt, at, end, {'l'});
  }

  // The parts of a conversion, each as long as it can be: flags, one 0, a width, a precision, the l's.
  ghost predicate Scanned(fmt: string, at: nat, star: int, l: Layout, longs: nat, end: nat)
    requires CString(fmt) && at < |fmt|
  {
    var f := RunEnd(fmt, at, FLAGS);
    f < |fmt|
    && var w := WidthAt(fmt, f);
       FlagsAre(fmt[at..f], l, fmt[w] == '*' && star < 0)
       && (l.zero <==> fmt[f] == '0')
       && l.width == Abs(FieldValue(fmt, w, star, 0))
       && LongsAre(fmt, PrecisionEnd(fmt, FieldEnd(fmt, w)), longs, end)
  }

  // A negative width given as an argument turns the side of the padding round.
  ghost predicate FlagsAre(flags: string, l: Layout, turned: bool) { FlagsMean(flags, l.alt, l.left != turned, l.plus) }

  ghost function WidthAt(fmt: string, f: nat): (w: nat)
    requires CString(fmt) && f < |fmt|
    ensures f <= w < |fmt|
  {
    if fmt[f] == '0' then f + 1 else f
  }

  // A number, a star for the next argument, or nothing.
  ghost function FieldEnd(fmt: string, w: nat): (e: nat)
    requires CString(fmt) && w < |fmt|
    ensures w <= e < |fmt|
  {
    var d := RunEnd(fmt, w, DECIMAL);
    RunStops(fmt, w, DECIMAL);
    if d > w then d else if fmt[w] == '*' then w + 1 else w
  }

  ghost function FieldValue(fmt: string, w: nat, star: int, none: int): int
    requires CString(fmt) && w < |fmt|
  {
    var d := RunEnd(fmt, w, DECIMAL);
    DecimalIsDigits(fmt[w..d]);
    if d > w then Number(fmt[w..d], 10)
    else if fmt[w] == '*' then star
    else none
  }

  ghost function PrecisionEnd(fmt: string, e: nat): (p: nat)
    requires CString(fmt) && e < |fmt|
    ensures e <= p < |fmt|
  {
    if fmt[e] == '.' then FieldEnd(fmt, e + 1) else e
  }

  ghost predicate LongsAre(fmt: string, p: nat, longs: nat, end: nat)
    requires CString(fmt) && p < |fmt|
  {
    end == RunEnd(fmt, p, {'l'}) && end < |fmt| && longs == end - p
  }

  method ScanWidth(fmt: string, w: nat, star: int) returns (turned: bool, length: int, e: nat)
    requires CString(fmt) && w < |fmt|
    ensures (turned <==> fmt[w] == '*' && star < 0) && length == Abs(FieldValue(fmt, w, star, 0))
    ensures e == FieldEnd(fmt, w) && e < |fmt|
  {
    turned, length, e := false, 0, w;
    if '0' <= fmt[w] <= '9' {
      length, e := ScanDecimal(fmt, w);
    } else {
      RunEndIs(fmt, w, w, DECIMAL);
      if fmt[w] == '*' {
        length, e := star, w + 1;
        if length < 0 { turned, length := true, -length; }
      }
    }
  }

  method ScanPrecision(fmt: string, e: nat, star: int) returns (precision: int, p: nat)
    requires CString(fmt) && e < |fmt|
    ensures p == PrecisionEnd(fmt, e) && p < |fmt|
    ensures precision == if fmt[e] == '.' then FieldValue(fmt, e + 1, star, -1) else -1
  {
    precision, p := -1, e;
    if fmt[p] == '.' {
      p := p + 1;
      if '0' <= fmt[p] <= '9' {
        precision, p := ScanDecimal(fmt, p);
      } else {
        RunEndIs(fmt, p, p, DECIMAL);
        if fmt[p] == '*' { precision, p := star, p + 1; }
      }
    }
  }

  // From behind the % to the letter that names the conversion. The arguments for stars are passed in;
  // numbers are printed without regard to the precision.
  method ScanConversion(fmt: string, at: nat, star: int, starPrecision: int) returns (l: Layout, precision: int, longs: nat, end: nat)
    requires CString(fmt) && at < |fmt|
    ensures Scanned(fmt, at, star, l, longs, end)
    ensures at <= end < |fmt|
  {
    hide RunEnd, FieldValue, FieldEnd, PrecisionEnd, FlagsMean;
    var alt, left, plus, f := ScanFlags(fmt, at);
    var zero, w := false, f;
    if fmt[w] == '0' { zero, w := true, w + 1; }
    var turned, length, e := ScanWidth(fmt, w, star);
    var p;
    precision, p := ScanPrecision(fmt, e, starPrecision);
    l := Layout(alt, if turned then !left else left, zero, plus, length);
    longs, end := ScanLongs(fmt, p);
  }

  // The argument is one that the conversion, however it is scanned, may be handed.
  ghost predicate Handed(fmt: string, at: nat, star: int, arg: int)
    requires CString(fmt) && at < |fmt|
  {
    forall l: Layout, longs: nat, end: nat :: Scanned(fmt, at, star, l, longs, end) ==> ArgFits(ConversionOf(fmt[end]), longs, arg)
  }

  // From behind a % to behind the conversion; at the end of the format it stays.
  method PrintConversion(fmt: string, at: nat, star: int, starPrecision: int, arg: int) returns (out: string, next: nat)
    requires CString(fmt) && at < |fmt| && Handed(fmt, at, star, arg)
    ensures exists l: Layout, longs: nat, end: nat :: Scanned(fmt, at, star, l, longs, end) && out == Text(fmt[end], l, arg)
                                    && next == if fmt[end] == NUL then end else end + 1
  {
    hide Text, ArgFits;
    var l, precision, longs, end := ScanConversion(fmt, at, star, starPrecision);
    assert ArgFits(ConversionOf(fmt[end]), longs, arg);
    out := Convert(fmt[end], l, longs, arg);
    next := if fmt[end] == NUL then end else end + 1;
  }

  ghost function PlusOf(flags: string): char { if '+' in flags then '+' else if ' ' in flags then ' ' else NUL }

  ghost function WidthText(width: nat): string { if width == 0 then "" else DigitText(width, 10) }

  // How a conversion is written: any flags in any order, 0 or not, a width or not, and l's.
  ghost function Written(flags: string, zero: bool, width: nat, longs: nat): string {
    flags + ((if zero then "0" else "") + (WidthText(width) + Fill('l', longs)))
  }

  lemma {:induction false} DecimalDigits(u: nat)
    ensures forall k :: 0 <= k < |DigitText(u, 10)| ==> DigitText(u, 10)[k] in DECIMAL
    decreases u
  {
    if u >= 10 { DivSmaller(u, 10); DecimalDigits(u / 10); }
  }

  // What a run of cs gives when it is followed by something else.
  lemma RunOf(s: string, i: nat, run: string, tail: string, cs: set<char>)
    requires i <= |s| && s[i..] == run + tail && tail != "" && tail[0] !in cs
    requires forall k :: 0 <= k < |run| ==> run[k] in cs
    ensures RunEnd(s, i, cs) == i + |run| && s[i..i + |run|] == run && s[i + |run|..] == tail
  {
    var j := i + |run|;
    assert s[j] == s[i..][|run|];
    forall k | i <= k < j ensures s[k] in cs { assert s[k] == s[i..][k - i]; }
    RunEndIs(s, i, j, cs);
    assert s[i..j] == s[i..][..|run|];
    assert s[j..] == s[i..][|run|..];
  }

  // A letter that ends a conversion's flags, width and l's.
  ghost predicate Ends(tail: string) {
    CString(tail) && tail[0] !in FLAGS && tail[0] !in DECIMAL && tail[0] !in {'l', '*', '.'}
  }

  lemma WidthRun(fmt: string, w: nat, width: nat, tail: string)
    requires CString(fmt) && w < |fmt| && fmt[w..] == WidthText(width) + tail
    requires tail != "" && tail[0] !in DECIMAL && tail[0] != '*'
    ensures var d := w + |WidthText(width)|;
            RunEnd(fmt, w, DECIMAL) == d < |fmt| && fmt[w..d] == WidthText(width) && fmt[d..] == tail && fmt[d] == tail[0]
    ensures fmt[w] != '*' && (WidthText(width) == "" <==> width == 0)
    ensures width > 0 ==> AllDigits(WidthText(width), 10) && Number(WidthText(width), 10) == width
  {
    hide DigitText, Number, Field, RunEnd;
    DecimalDigits(width);
    DigitTextMeans(width, 10);
    RunOf(fmt, w, WidthText(width), tail, DECIMAL);
    assert fmt[w] == fmt[w..][0];
    assert fmt[w + |WidthText(width)|] == fmt[w + |WidthText(width)|..][0];
  }

  lemma WidthScans(fmt: string, w: nat, width: nat, tail: string)
    requires CString(fmt) && w < |fmt| && fmt[w..] == WidthText(width) + tail
    requires tail != "" && tail[0] !in DECIMAL && tail[0] != '*' && tail[0] != '.'
    ensures FieldEnd(fmt, w) == w + |WidthText(width)| && (forall star :: FieldValue(fmt, w, star, 0) == width)
    ensures fmt[w] != '*' && PrecisionEnd(fmt, FieldEnd(fmt, w)) == FieldEnd(fmt, w)
    ensures fmt[FieldEnd(fmt, w)..] == tail
  {
    hide WidthText, Number, Field, RunEnd, AllDigits;
    WidthRun(fmt, w, width, tail);
  }

  // Where the parts of a written conversion lie.
  ghost predicate PartsAt(fmt: string, at: nat, f: nat, flags: string, zero: bool, width: nat, longs: nat)
    requires CString(fmt) && at < |fmt|
  {
    && f == RunEnd(fmt, at, FLAGS) < |fmt| && fmt[at..f] == flags && (fmt[f] == '0' <==> zero)
    && fmt[WidthAt(fmt, f)] != '*' && (forall star :: FieldValue(fmt, WidthAt(fmt, f), star, 0) == width)
    && var p := PrecisionEnd(fmt, FieldEnd(fmt, WidthAt(fmt, f)));
       RunEnd(fmt, p, {'l'}) == p + longs < |fmt|
       && p == f + (if zero then 1 else 0) + |WidthText(width)|
  }

  lemma PartsScan(fmt: string, at: nat, f: nat, flags: string, zero: bool, width: nat, longs: nat, star: int, l: Layout, n: nat, end: nat)
    requires CString(fmt) && at < |fmt| && PartsAt(fmt, at, f, flags, zero, width, longs)
    ensures Scanned(fmt, at, star, l, n, end)
            <==> l == Layout('#' in flags, '-' in flags, zero, PlusOf(flags), width) && n == longs
                 && end == f + (if zero then 1 else 0) + |WidthText(width)| + longs
  {
    hide RunEnd, FieldEnd, FieldValue, PrecisionEnd, WidthText, WidthAt;
  }

  lemma FlagsScan(fmt: string, at: nat, flags: string, zero: bool, behind: string)
    requires CString(fmt) && at < |fmt| && fmt[at..] == flags + ((if zero then "0" else "") + behind)
    requires forall k :: 0 <= k < |flags| ==> flags[k] in FLAGS
    requires behind != "" && behind[0] !in FLAGS && behind[0] != '0'
    ensures var f := at + |flags|;
            f == RunEnd(fmt, at, FLAGS) < |fmt| && fmt[at..f] == flags && (fmt[f] == '0' <==> zero)
            && fmt[WidthAt(fmt, f)..] == behind && WidthAt(fmt, f) == if zero then f + 1 else f
  {
    hide RunEnd;
    var f, tail := at + |flags|, (if zero then "0" else "") + behind;
    RunOf(fmt, at, flags, tail, FLAGS);
    assert fmt[f] == fmt[f..][0];
    if zero { assert fmt[f + 1..] == fmt[f..][1..]; }
  }

  // Whatever stands in front and behind, such a conversion is scanned as it is meant, and in no other way.
  lemma WrittenScans(before: string, flags: string, zero: bool, width: nat, longs: nat, tail: string, star: int, l: Layout, n: nat, end: nat)
    requires (forall k :: 0 <= k < |flags| ==> flags[k] in FLAGS) && Ends(tail)
    ensures CString(before + (Written(flags, zero, width, longs) + tail))
    ensures Scanned(before + (Written(flags, zero, width, longs) + tail), |before|, star, l, n, end)
            <==> l == Layout('#' in flags, '-' in flags, zero, PlusOf(flags), width) && n == longs
                 && end == |before + Written(flags, zero, width, longs)|
  {
    hide FLAGS, Fill, RunEnd, Scanned, PlusOf, PartsAt, WidthText, CString, Ends;
    WrittenParts(before, flags, zero, width, longs, tail);
    PartsScan(before + (Written(flags, zero, width, longs) + tail), |before|, |before| + |flags|, flags, zero, width, longs, star, l, n, end);
  }

  ghost function BehindWidth(longs: nat, tail: string): string { Fill('l', longs) + tail }

  ghost function BehindFlags(width: nat, longs: nat, tail: string): string { WidthText(width) + BehindWidth(longs, tail) }

  lemma WrittenCuts(before: string, flags: string, zero: bool, width: nat, longs: nat, tail: string)
    requires CString(tail)
    ensures var fmt := before + (Written(flags, zero, width, longs) + tail);
            CString(fmt) && |before| < |fmt|
            && fmt[|before|..] == flags + ((if zero then "0" else "") + BehindFlags(width, longs, tail))
  {
    hide Fill, WidthText;
    var fmt := before + (Written(flags, zero, width, longs) + tail);
    assert fmt[|before|..] == Written(flags, zero, width, longs) + tail;
    assert fmt[|fmt| - 1] == tail[|tail| - 1];
  }

  lemma TailStarts(width: nat, longs: nat, tail: string)
    requires Ends(tail)
    ensures var b := BehindWidth(longs, tail); b != "" && b[0] !in DECIMAL && b[0] !in FLAGS && b[0] != '*' && b[0] != '.'
    ensures var b := BehindFlags(width, longs, tail); b != "" && b[0] !in FLAGS && b[0] != '0'
    ensures tail != "" && tail[0] !in {'l'} && CString(tail)
  {
    hide Fill, WidthText;
    WidthStart(width, BehindWidth(longs, tail));
  }

  lemma WrittenParts(before: string, flags: string, zero: bool, width: nat, longs: nat, tail: string)
    requires (forall k :: 0 <= k < |flags| ==> flags[k] in FLAGS) && Ends(tail)
    ensures var fmt := before + (Written(flags, zero, width, longs) + tail);
            CString(fmt) && |before| < |fmt| && PartsAt(fmt, |before|, |before| + |flags|, flags, zero, width, longs)
  {
    hide *;
    var fmt := before + (Written(flags, zero, width, longs) + tail);
    TailStarts(width, longs, tail);
    WrittenCuts(before, flags, zero, width, longs, tail);
    FlagsScan(fmt, |before|, flags, zero, BehindFlags(width, longs, tail));
    WidthAndLongs(fmt, WidthAt(fmt, |before| + |flags|), width, longs, tail);
    PartsFrom(fmt, |before|, |before| + |flags|, flags, zero, width, longs);
  }

  lemma WidthAndLongs(fmt: string, w: nat, width: nat, longs: nat, tail: string)
    requires CString(fmt) && w < |fmt| && Ends(tail) && fmt[w..] == BehindFlags(width, longs, tail)
    ensures fmt[w] != '*' && forall star :: FieldValue(fmt, w, star, 0) == width
    ensures var e := FieldEnd(fmt, w);
            PrecisionEnd(fmt, e) == e == w + |WidthText(width)| && RunEnd(fmt, e, {'l'}) == e + longs < |fmt|
  {
    hide *;
    TailStarts(width, longs, tail);
    BehindFlagsIs(width, longs, tail);
    WidthScans(fmt, w, width, BehindWidth(longs, tail));
    RunOf(fmt, FieldEnd(fmt, w), Fill('l', longs), tail, {'l'});
  }

  lemma PartsFrom(fmt: string, at: nat, f: nat, flags: string, zero: bool, width: nat, longs: nat)
    requires CString(fmt) && at < |fmt|
    requires f == RunEnd(fmt, at, FLAGS) < |fmt| && fmt[at..f] == flags && (fmt[f] == '0' <==> zero)
    requires WidthAt(fmt, f) == if zero then f + 1 else f
    requires fmt[WidthAt(fmt, f)] != '*' && forall star :: FieldValue(fmt, WidthAt(fmt, f), star, 0) == width
    requires var e := FieldEnd(fmt, WidthAt(fmt, f));
             PrecisionEnd(fmt, e) == e == WidthAt(fmt, f) + |WidthText(width)| && RunEnd(fmt, e, {'l'}) == e + longs < |fmt|
    ensures PartsAt(fmt, at, f, flags, zero, width, longs)
  {
    hide WidthAt, FieldValue, FieldEnd, PrecisionEnd, RunEnd, WidthText;
  }

  lemma BehindFlagsIs(width: nat, longs: nat, tail: string)
    ensures BehindFlags(width, longs, tail) == WidthText(width) + BehindWidth(longs, tail)
    ensures BehindWidth(longs, tail) == Fill('l', longs) + tail
  {
  }

  lemma WidthStart(width: nat, behind: string)
    requires behind != "" && behind[0] !in FLAGS && behind[0] !in DECIMAL
    ensures (WidthText(width) + behind)[0] !in FLAGS && (WidthText(width) + behind)[0] != '0'
  {
    DecimalDigits(width);
    DigitTextMeans(width, 10);
  }

  // ---------------------------------------------------------------- reading

  function Wrap(v: int): (w: int)
    ensures -HALF32 <= w < HALF32
  {
    (v + HALF32) % WORD32 - HALF32
  }

  // One more digit at the right.
  function Push(v: int, base: int, d: int): int { v * base + d }

  lemma WrapStep(v: int, base: int, d: int)
    ensures Wrap(Push(Wrap(v), base, d)) == Wrap(Push(v, base, d))
  {
    var q := (v + HALF32) / WORD32;
    assert Wrap(v) == v - q * WORD32;
    assert (v - q * WORD32) * base + d == v * base + d - (q * base) * WORD32 by { MulSwap(v, q, base); }
    WrapShift(v * base + d, -(q * base));
  }

  lemma MulSwap(v: int, q: int, base: int)
    ensures (v - q * WORD32) * base == v * base - (q * base) * WORD32
  {
  }

  lemma WrapShift(v: int, k: int)
    ensures Wrap(v + k * WORD32) == Wrap(v) && (v + k * WORD32) % WORD32 == v % WORD32
  {
    ModShift(v, k);
    ModShift(v + HALF32, k);
  }

  lemma {:induction false} ModShift(v: int, k: int)
    ensures (v + k * WORD32) % WORD32 == v % WORD32
    decreases if k < 0 then -k else k
  {
    if k > 0 { ModShift(v, k - 1); } else if k < 0 { ModShift(v, k + 1); }
  }

  lemma NoDigits(base: int)
    ensures Number("", base) == 0
  {
  }

  lemma WrapSmall(v: int)
    requires -HALF32 <= v < HALF32
    ensures Wrap(v) == v
  {
  }

  lemma WrapNegate(v: int)
    ensures Wrap(-Wrap(v)) == Wrap(-v)
  {
    var q := (v + HALF32) / WORD32;
    assert Wrap(v) == v - q * WORD32;
    WrapShift(-v, q);
  }

  lemma UnsignedStep(v: int, base: int, d: int)
    ensures Push(v % WORD32, base, d) % WORD32 == Push(v, base, d) % WORD32
  {
    var q := v / WORD32;
    assert v % WORD32 == v - q * WORD32;
    assert (v - q * WORD32) * base + d == v * base + d - (q * base) * WORD32 by { MulSwap(v, q, base); }
    WrapShift(v * base + d, -(q * base));
  }

  // Where the digits of a number in the given base start, and the base they are read in.
  ghost predicate Hexadecimal(s: string, i: nat, base: int)
    requires CString(s) && i < |s|
  {
    (base == 16 || base == 0) && s[i] == '0' && (s[i + 1] == 'x' || s[i + 1] == 'X')
  }

  ghost function BaseOf(s: string, i: nat, base: int): int
    requires CString(s) && i < |s|
  {
    if Hexadecimal(s, i, base) then 16
    else if base != 0 then base
    else if s[i] == '0' then 8 else 10
  }

  ghost function DigitsAt(s: string, i: nat, base: int): (j: nat)
    requires CString(s) && i < |s|
    ensures i <= j < |s|
  {
    if Hexadecimal(s, i, base) then i + 2 else i
  }

  ghost function DigitsEnd(s: string, i: nat, base: int): (j: nat)
    requires CString(s) && i < |s|
    ensures i <= j < |s| && AllDigits(s[i..j], base) && Field(s[j], base) < 0
  {
    RunStops(s, i, DigitsOf(base));
    RunEnd(s, i, DigitsOf(base))
  }

  // The number that stands at i, without a sign.
  ghost function NumberAt(s: string, i: nat, base: int): int
    requires CString(s) && i < |s|
  {
    var b := BaseOf(s, i, base);
    var j := DigitsAt(s, i, base);
    Number(s[j..DigitsEnd(s, j, b)], b)
  }

  ghost function NumberEnd(s: string, i: nat, base: int): (e: nat)
    requires CString(s) && i < |s|
    ensures i <= e < |s|
  {
    DigitsEnd(s, DigitsAt(s, i, base), BaseOf(s, i, base))
  }

  ghost function SpacesEnd(s: string): (i: nat)
    requires CString(s)
    ensures i < |s|
  {
    RunStops(s, 0, SPACES);
    RunEnd(s, 0, SPACES)
  }

  ghost function SignEnd(s: string): (i: nat)
    requires CString(s)
    ensures i < |s|
  {
    var i := SpacesEnd(s);
    if s[i] == '-' then i + 1 else i
  }

  ghost function LongRead(s: string, base: int): int
    requires CString(s)
  {
    var n := NumberAt(s, SignEnd(s), base);
    Wrap(if s[SpacesEnd(s)] == '-' then -n else n)
  }

  ghost function UlongRead(s: string, base: int): int
    requires CString(s)
  {
    NumberAt(s, SpacesEnd(s), base) % WORD32
  }

  method SkipSpaces(s: string) returns (p: nat)
    requires CString(s)
    ensures p == SpacesEnd(s)
  {
    p := 0;
    while s[p] in SPACES
      invariant p < |s| && forall k :: 0 <= k < p ==> s[k] in SPACES
      decreases |s| - p
    {
      p := p + 1;
    }
    RunEndIs(s, 0, p, SPACES);
  }

  method PickBase(s: string, i: nat, base0: int) returns (base: int, p: nat)
    requires CString(s) && i < |s|
    ensures base == BaseOf(s, i, base0) && p == DigitsAt(s, i, base0)
  {
    base, p := base0, i;
    if (base == 16 || base == 0) && s[p] == '0' && (s[p + 1] == 'x' || s[p + 1] == 'X') {
      p, base := p + 2, 16;
    }
    if base == 0 {
      if s[p] == '0' { base := 8; } else { base := 10; }
    }
  }

  lemma DigitsGrow(s: string, i: nat, p: nat, base: int)
    requires CString(s) && i <= p < |s| && AllDigits(s[i..p], base) && Field(s[p], base) >= 0
    ensures p + 1 < |s| && AllDigits(s[i..p + 1], base)
    ensures Number(s[i..p + 1], base) == Push(Number(s[i..p], base), base, Field(s[p], base))
  {
    var more := s[i..p + 1];
    assert more[..|more| - 1] == s[i..p] && more[|more| - 1] == s[p];
  }

  lemma DigitsStop(s: string, i: nat, p: nat, base: int)
    requires CString(s) && i <= p < |s| && AllDigits(s[i..p], base) && Field(s[p], base) < 0
    ensures DigitsEnd(s, i, base) == p
  {
    forall k | i <= k < p ensures s[k] in DigitsOf(base) { assert s[k] == s[i..p][k - i]; }
    RunEndIs(s, i, p, DigitsOf(base));
  }

  // strtol: spaces, one '-', 0x if the base allows it, and digits; '+' is looked at and not stepped over.
  method Strtol(s: string, base0: int) returns (v: int, end: nat)
    requires CString(s)
    ensures v == LongRead(s, base0) && end == NumberEnd(s, SignEnd(s), base0)
  {
    hide Field, BaseOf, DigitsAt, RunEnd, Wrap, Push, Number;
    WrapSmall(0);
    var p := SkipSpaces(s);
    var negative := false;
    if s[p] == '-' {
      negative, p := true, p + 1;
    } else if s[p] == '+' {
      negative := false;
    }
    var base;
    base, p := PickBase(s, p, base0);
    v := 0;
    NoDigits(base);
    ghost var start := p;
    assert s[start..p] == "";
    while true
      invariant start <= p < |s| && AllDigits(s[start..p], base)
      invariant v == Wrap(Number(s[start..p], base))
      decreases |s| - p
    {
      var digit := Field(s[p], base);
      if digit < 0 { break; }
      DigitsGrow(s, start, p, base);
      WrapStep(Number(s[start..p], base), base, digit);
      v, p := Wrap(Push(v, base, digit)), p + 1;
    }
    DigitsStop(s, start, p, base);
    if negative {
      WrapNegate(Number(s[start..p], base));
      v := Wrap(-v);
    }
    end := p;
  }

  // strtoul: the same without a sign.
  method Strtoul(s: string, base0: int) returns (v: nat, end: nat)
    requires CString(s)
    ensures v == UlongRead(s, base0) && end == NumberEnd(s, SpacesEnd(s), base0)
  {
    hide Field, BaseOf, DigitsAt, RunEnd, Push, Number;
    var p := SkipSpaces(s);
    var base;
    base, p := PickBase(s, p, base0);
    v := 0;
    NoDigits(base);
    ghost var start := p;
    assert s[start..p] == "";
    while true
      invariant start <= p < |s| && AllDigits(s[start..p], base)
      invariant v == Number(s[start..p], base) % WORD32
      decreases |s| - p
    {
      var digit := Field(s[p], base);
      if digit < 0 { break; }
      DigitsGrow(s, start, p, base);
      UnsignedStep(Number(s[start..p], base), base, digit);
      v, p := Push(v, base, digit) % WORD32, p + 1;
    }
    DigitsStop(s, start, p, base);
    end := p;
  }

  // ---------------------------------------------------------------- what is printed reads back

  // Text behind a number that cannot be taken for more of it.
  ghost predicate Follows(rest: string) {
    rest != "" && !('0' <= rest[0] <= '9') && !('a' <= rest[0] <= 'z') && !('A' <= rest[0] <= 'Z')
  }

  ghost function Pads(l: Layout, sign: char, u: nat, base: nat): int
    requires 2 <= base <= 16
  {
    l.width - |SignText(sign) + Prefix(l.alt, u, base)| - |DigitText(u, base)|
  }

  lemma NumTextShape(l: Layout, sign: char, u: nat, base: nat)
    requires 2 <= base <= 16
    ensures var pad := Pads(l, sign, u, base);
            NumText(l, sign, u, base) ==
              Blanks(l, pad) + SignText(sign) + Prefix(l.alt, u, base) + Zeros(l, pad) + DigitText(u, base) + Trail(l, pad)
  {
    hide DigitText, Fill, Prefix, SignText;
  }

  // The digits of a number with a prefix and zeros before it are the number's.
  lemma {:induction false} NumberReads(s: string, i: nat, alt: bool, u: nat, base: nat, readBase: int, l: Layout, pad: int, after: string)
    requires CString(s) && i < |s| && base in {8, 10, 16} && Follows(after)
    requires readBase == base || (readBase == 0 && alt && base != 10)
    requires s[i..] == Prefix(alt, u, base) + Zeros(l, pad) + DigitText(u, base) + after
    ensures NumberAt(s, i, readBase) == u && NumberEnd(s, i, readBase) == |s| - |after|
  {
    hide DigitText, Zeros, DigitsAt, BaseOf, DigitsEnd, Number;
    var text := DigitText(u, base);
    var digits := Zeros(l, pad) + text;
    DigitTextMeans(u, base);
    PaddedMeans(l, pad, text, base);
    var prefix := Prefix(alt, u, base);
    if prefix == "0x" {
      assert s[i..] == prefix + (digits + after);
      PrefixedNumber(s, i, digits, after, readBase);
    } else if prefix == "0" {
      ZeroBefore(digits, 8);
      assert s[i..] == ("0" + digits) + after;
      PlainNumber(s, i, "0" + digits, after, readBase, 8);
    } else {
      assert s[i..] == digits + after;
      if base == 16 && readBase == 0 {
        ZeroText(l, pad, 8);
        PlainNumber(s, i, digits, after, readBase, 8);
      } else {
        if readBase == 0 { ZeroText(l, pad, 8); }
        PlainNumber(s, i, digits, after, readBase, base);
      }
    }
  }

  lemma PrefixedNumber(s: string, i: nat, digits: string, after: string, readBase: int)
    requires CString(s) && i < |s| && s[i..] == "0x" + (digits + after) && Follows(after)
    requires AllDigits(digits, 16) && readBase in {0, 16}
    ensures NumberAt(s, i, readBase) == Number(digits, 16) && NumberEnd(s, i, readBase) == |s| - |after|
  {
    assert s[i] == s[i..][0] && s[i + 1] == s[i..][1];
    assert s[i + 2..] == s[i..][2..] == digits + after;
    DigitsThere(s, i + 2, digits, after, 16);
  }

  lemma PaddedMeans(l: Layout, pad: int, digits: string, base: nat)
    requires base > 0 && AllDigits(digits, base) && digits != ""
    ensures AllDigits(Zeros(l, pad) + digits, base) && Number(Zeros(l, pad) + digits, base) == Number(digits, base)
  {
    ZerosAddNothing(pad, digits, base);
    assert "" + digits == digits;
  }

  lemma ZeroBefore(digits: string, base: nat)
    requires base > 0 && AllDigits(digits, base)
    ensures AllDigits("0" + digits, base) && Number("0" + digits, base) == Number(digits, base)
  {
    ZerosAddNothing(1, digits, base);
    assert Fill('0', 1) == "0";
  }

  lemma ZeroText(l: Layout, pad: int, base: nat)
    requires base > 0
    ensures AllDigits(Zeros(l, pad) + "0", base) && Number(Zeros(l, pad) + "0", base) == 0
    ensures (Zeros(l, pad) + "0")[0] == '0'
  {
    assert "0"[..0] == "";
    PaddedMeans(l, pad, "0", base);
  }

  lemma DigitsThere(s: string, j: nat, digits: string, after: string, base: int)
    requires CString(s) && j < |s| && s[j..] == digits + after && Follows(after) && AllDigits(digits, base)
    ensures DigitsEnd(s, j, base) == |s| - |after| && s[j..DigitsEnd(s, j, base)] == digits
  {
    var e := j + |digits|;
    assert s[e] == s[j..][|digits|];
    assert s[j..e] == s[j..][..|digits|];
    DigitsStop(s, j, e, base);
  }

  // Digits with no 0x before them, in a base that is given or that the first digit tells.
  lemma PlainNumber(s: string, i: nat, digits: string, after: string, readBase: int, base: int)
    requires CString(s) && i < |s| && digits != "" && s[i..] == digits + after && Follows(after)
    requires base in {8, 10, 16} && AllDigits(digits, base)
    requires readBase == base || (readBase == 0 && base == 8 && digits[0] == '0')
    ensures NumberAt(s, i, readBase) == Number(digits, base) && NumberEnd(s, i, readBase) == |s| - |after|
  {
    assert s[i] == s[i..][0] == digits[0];
    if s[i] == '0' {
      assert s[i + 1] == s[i..][1] == (digits + after)[1];
      assert s[i + 1] != 'x' && s[i + 1] != 'X';
    }
    DigitsThere(s, i, digits, after, base);
  }

  // The blanks and the sign before a number.
  lemma StartReads(s: string, l: Layout, pad: int, sign: char, body: string)
    requires CString(s) && s == Blanks(l, pad) + SignText(sign) + body
    requires sign in {NUL, ' ', '+', '-'}
    requires body != "" && '0' <= body[0]
    ensures s[|s| - |body|..] == body
    ensures SpacesEnd(s) == if sign in {'+', '-'} then |s| - |body| - 1 else |s| - |body|
    ensures SignEnd(s) == if sign == '+' then |s| - |body| - 1 else |s| - |body|
    ensures s[SpacesEnd(s)] == if sign in {'+', '-'} then sign else body[0]
  {
    var start := |s| - |body|;
    var blanks := |Blanks(l, pad)|;
    assert s[start] == body[0];
    assert forall k :: 0 <= k < blanks ==> s[k] == ' ';
    assert s[start..] == body;
    RunEndIs(s, 0, if sign in {'+', '-'} then start - 1 else start, SPACES);
  }

  lemma FieldChar(c: char, base: int)
    requires Field(c, base) >= 0
    ensures '0' <= c
  {
  }

  lemma BodyStarts(alt: bool, u: nat, base: nat, l: Layout, pad: int, after: string)
    requires 2 <= base <= 16
    ensures var body := Prefix(alt, u, base) + Zeros(l, pad) + DigitText(u, base) + after;
            body != "" && '0' <= body[0]
  {
    hide Field, DigitText, Number, Fill;
    DigitTextMeans(u, base);
    FieldChar(DigitText(u, base)[0], base);
    var zeros := Zeros(l, pad);
    assert zeros != "" ==> zeros[0] == '0';
  }

  ghost function After(l: Layout, sign: char, u: nat, base: nat, rest: string): string
    requires 2 <= base <= 16
  {
    Trail(l, Pads(l, sign, u, base)) + rest
  }

  ghost function Body(l: Layout, sign: char, u: nat, base: nat, rest: string): string
    requires 2 <= base <= 16
  {
    Prefix(l.alt, u, base) + Zeros(l, Pads(l, sign, u, base)) + DigitText(u, base) + After(l, sign, u, base, rest)
  }

  // Where the number's last digit ends in what was printed.
  ghost function LastDigitEnd(l: Layout, sign: char, u: nat, base: nat): int
    requires 2 <= base <= 16
  {
    |NumText(l, sign, u, base)| - |Trail(l, Pads(l, sign, u, base))|
  }

  lemma TextSplits(l: Layout, sign: char, u: nat, base: nat, rest: string)
    requires 2 <= base <= 16 && CString(rest) && Follows(rest)
    ensures var s := NumText(l, sign, u, base) + rest;
            CString(s) && s == Blanks(l, Pads(l, sign, u, base)) + SignText(sign) + Body(l, sign, u, base, rest)
            && |s| == LastDigitEnd(l, sign, u, base) + |After(l, sign, u, base, rest)|
    ensures Follows(After(l, sign, u, base, rest))
  {
    hide DigitText, Fill, Prefix, SignText, NumText, Blanks, Zeros, Pads;
    NumTextShape(l, sign, u, base);
  }

  // From the text to the start of the number, and through it.
  lemma TextReads(l: Layout, sign: char, u: nat, base: nat, readBase: int, rest: string)
    requires base in {8, 10, 16} && CString(rest) && Follows(rest)
    requires readBase == base || (readBase == 0 && l.alt && base != 10)
    requires sign in {NUL, ' ', '-'}
    ensures CString(NumText(l, sign, u, base) + rest)
    ensures var s := NumText(l, sign, u, base) + rest;
            NumberAt(s, SignEnd(s), readBase) == u && NumberEnd(s, SignEnd(s), readBase) == LastDigitEnd(l, sign, u, base)
            && (s[SpacesEnd(s)] == '-' <==> sign == '-') && (sign != '-' ==> SignEnd(s) == SpacesEnd(s))
  {
    hide DigitText, Fill, Prefix, SignText, NumText, Blanks, Zeros, Trail, Pads, SpacesEnd, SignEnd, LastDigitEnd, NumberAt, NumberEnd;
    var pad, after, s := Pads(l, sign, u, base), After(l, sign, u, base, rest), NumText(l, sign, u, base) + rest;
    TextSplits(l, sign, u, base, rest);
    BodyStarts(l.alt, u, base, l, pad, after);
    StartReads(s, l, pad, sign, Body(l, sign, u, base, rest));
    NumberReads(s, SignEnd(s), l.alt, u, base, readBase, l, pad, after);
  }

  // strtol sees a '+' and no digits.
  lemma PlusStops(l: Layout, u: nat, base: nat, rest: string)
    requires base in {10, 16} && CString(rest) && Follows(rest)
    ensures CString(NumText(l, '+', u, base) + rest) && LongRead(NumText(l, '+', u, base) + rest, base) == 0
  {
    hide DigitText, Fill, Prefix, SignText, NumText, Blanks, Zeros, Trail, Pads, SpacesEnd, SignEnd, LastDigitEnd;
    var pad, after, s := Pads(l, '+', u, base), After(l, '+', u, base, rest), NumText(l, '+', u, base) + rest;
    TextSplits(l, '+', u, base, rest);
    BodyStarts(l.alt, u, base, l, pad, after);
    StartReads(s, l, pad, '+', Body(l, '+', u, base, rest));
    DigitsStop(s, SignEnd(s), SignEnd(s), base);
    WrapSmall(0);
  }

  // %d and %z: strtol in the base of the conversion gets every 32-bit number back, whatever the flags and
  // the width, unless a '+' was printed before a number other than 0; it stops behind the last digit.
  lemma SignedReadsBack(l: Layout, n: int, base: nat, rest: string)
    requires base in {10, 16} && l.plus in {NUL, ' ', '+'} && -HALF32 <= n < HALF32
    requires CString(rest) && Follows(rest)
    ensures CString(SignedText(l, n, base) + rest)
    ensures LongRead(SignedText(l, n, base) + rest, base) == n <==> l.plus != '+' || n <= 0
    ensures l.plus != '+' || n < 0 ==>
              var s := SignedText(l, n, base) + rest;
              NumberEnd(s, SignEnd(s), base) == LastDigitEnd(l, SignChar(l.plus, n), Abs(n), base)
  {
    hide NumText, SpacesEnd, SignEnd, LastDigitEnd, NumberAt, NumberEnd, Wrap;
    if n >= 0 && l.plus == '+' {
      PlusStops(l, n, base, rest);
    } else {
      TextReads(l, SignChar(l.plus, n), Abs(n), base, base, rest);
      WrapSmall(n);
    }
  }

  // %u, %x and %o: strtoul gets every 32-bit number back in the conversion's base,
  // and with the flag # also in base 0, which finds 16 or 8 by itself.
  lemma UnsignedReadsBack(l: Layout, u: nat, base: nat, readBase: int, rest: string)
    requires base in {8, 10, 16} && u < WORD32
    requires readBase == base || (readBase == 0 && l.alt && base != 10)
    requires CString(rest) && Follows(rest)
    ensures CString(UnsignedText(l, u, base) + rest)
    ensures UlongRead(UnsignedText(l, u, base) + rest, readBase) == u
    ensures var s := UnsignedText(l, u, base) + rest;
            NumberEnd(s, SpacesEnd(s), readBase) == LastDigitEnd(l, NUL, u, base)
  {
    hide NumText, SpacesEnd, SignEnd, LastDigitEnd, NumberAt, NumberEnd;
    TextReads(l, NUL, u, base, readBase, rest);
  }

  // %p prints a 0x of its own, so a pointer reads back unless # makes it print a second one.
  lemma PointerReadsBack(l: Layout, u: nat, readBase: int, rest: string)
    requires u < WORD32 && readBase in {0, 16} && CString(rest) && Follows(rest)
    ensures CString(PointerText(l, u) + rest)
    ensures UlongRead(PointerText(l, u) + rest, readBase) == u <==> !l.alt || u == 0
  {
    hide *;
    Words();
    var m := PointerLayout(l);
    var s, digits, after := PointerText(l, u) + rest, PointerDigits(l, u), After(m, NUL, u, 16, rest);
    PointerSplits(l, u, rest);
    PointerStart(s);
    PointerMeans(l, u);
    UlongSmall(s, readBase);
    if l.alt && u != 0 {
      PrefixTwice(u);
      PointerTwice(s, readBase);
    } else {
      PrefixNone(l.alt, u);
      assert s[0..] == "0x" + (digits + after);
      PrefixedNumber(s, 0, digits, after, readBase);
    }
  }

  ghost function PointerDigits(l: Layout, u: nat): string {
    Zeros(PointerLayout(l), Pads(PointerLayout(l), NUL, u, 16)) + DigitText(u, 16)
  }

  lemma Words()
    ensures WORD32 == 0x1_0000_0000
  {
  }

  lemma PointerMeans(l: Layout, u: nat)
    ensures AllDigits(PointerDigits(l, u), 16) && Number(PointerDigits(l, u), 16) == u
  {
    hide DigitText, Number, Pads, Zeros;
    DigitTextMeans(u, 16);
    PaddedMeans(PointerLayout(l), Pads(PointerLayout(l), NUL, u, 16), DigitText(u, 16), 16);
  }

  lemma UlongSmall(s: string, base: int)
    requires CString(s) && s[0] == '0'
    ensures 0 <= NumberAt(s, 0, base) < WORD32 ==> UlongRead(s, base) == NumberAt(s, 0, base)
  {
    hide NumberAt;
    PointerStart(s);
  }

  lemma PointerBody(l: Layout, u: nat, rest: string)
    requires CString(rest) && Follows(rest)
    ensures var m := PointerLayout(l);
            var s := NumText(m, NUL, u, 16) + rest;
            CString(s) && s == Prefix(l.alt, u, 16) + (PointerDigits(l, u) + After(m, NUL, u, 16, rest))
    ensures Follows(After(PointerLayout(l), NUL, u, 16, rest))
  {
    hide DigitText, Fill, NumText, Pads, Prefix, Zeros, Trail, LastDigitEnd, Follows;
    var m := PointerLayout(l);
    TextSplits(m, NUL, u, 16, rest);
    var prefix, zeros, digits, after := Prefix(l.alt, u, 16), Zeros(m, Pads(m, NUL, u, 16)), DigitText(u, 16), After(m, NUL, u, 16, rest);
    assert Body(m, NUL, u, 16, rest) == prefix + ((zeros + digits) + after);
    assert NumText(m, NUL, u, 16) + rest == Body(m, NUL, u, 16, rest);
  }

  lemma PointerSplits(l: Layout, u: nat, rest: string)
    requires CString(rest) && Follows(rest)
    ensures var s := PointerText(l, u) + rest;
            var after := After(PointerLayout(l), NUL, u, 16, rest);
            CString(s) && s[0] == '0' && Follows(after)
            && s == "0x" + (Prefix(l.alt, u, 16) + (PointerDigits(l, u) + after))
  {
    hide NumText, Prefix, PointerDigits, After, Follows, PointerLayout;
    PointerBody(l, u, rest);
    var t := NumText(PointerLayout(l), NUL, u, 16) + rest;
    var s := PointerText(l, u) + rest;
    assert s == "0x" + t;
    assert s[|s| - 1] == t[|t| - 1];
  }

  lemma PrefixTwice(u: nat)
    requires u != 0
    ensures Prefix(true, u, 16) == "0x"
  {
  }

  lemma PrefixNone(alt: bool, u: nat)
    requires !alt || u == 0
    ensures Prefix(alt, u, 16) == ""
  {
  }

  lemma PointerStart(s: string)
    requires CString(s) && s[0] == '0'
    ensures SpacesEnd(s) == 0
  {
    RunEndIs(s, 0, 0, SPACES);
  }

  // Behind 0x0x, strtoul takes the 0 for the number.
  lemma PointerTwice(s: string, readBase: int)
    requires CString(s) && |s| >= 4 && s[..4] == "0x0x" && readBase in {0, 16}
    ensures NumberAt(s, 0, readBase) == 0
  {
    assert s[0] == '0' && s[1] == 'x' && s[2] == '0' && s[3] == 'x' by { assert s[..4][0] == s[0] && s[..4][1] == s[1] && s[..4][2] == s[2] && s[..4][3] == s[3]; }
    assert s[2..3] == "0" && "0"[..0] == "";
    DigitsStop(s, 2, 3, 16);
  }

  // ---------------------------------------------------------------- from the format to the number read back

  // Whatever flags and width a format asks for, %d prints what strtol reads back, except a positive number with '+'.
  lemma PrintedReadsBack(before: string, flags: string, zero: bool, width: nat, longs: nat, tail: string, star: int,
                         l: Layout, n: nat, end: nat, v: int, rest: string)
    requires (forall k :: 0 <= k < |flags| ==> flags[k] in FLAGS) && Ends(tail) && tail[0] in {'d', 'D'}
    requires Scanned(before + (Written(flags, zero, width, longs) + tail), |before|, star, l, n, end)
    requires -HALF32 <= v < HALF32 && CString(rest) && Follows(rest)
    ensures CString(before + (Written(flags, zero, width, longs) + tail)) && end < |before + (Written(flags, zero, width, longs) + tail)|
    ensures var c := (before + (Written(flags, zero, width, longs) + tail))[end];
            c == tail[0] && CString(Text(c, l, v) + rest)
            && (LongRead(Text(c, l, v) + rest, 10) == v <==> '+' !in flags || v <= 0)
  {
    hide Scanned, Written, SignedText, LongRead, Follows, Ends, CString;
    TailThere(before, flags, zero, width, longs, tail);
    WrittenScans(before, flags, zero, width, longs, tail, star, l, n, end);
    SignedReadsBack(l, v, 10, rest);
  }

  lemma TailThere(before: string, flags: string, zero: bool, width: nat, longs: nat, tail: string)
    requires Ends(tail)
    ensures var w := before + Written(flags, zero, width, longs);
            |w| < |before + (Written(flags, zero, width, longs) + tail)|
            && (before + (Written(flags, zero, width, longs) + tail))[|w|] == tail[0]
  {
    hide Written;
  }
}
