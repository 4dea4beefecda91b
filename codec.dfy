/** Primitive decoding of Modbus input registers: bitwise operations on
    naturals, 16-bit two's complement, 32-bit values spread over two
    registers (low word first), fixed-point scaling, the split of a signed
    power into two non-negative halves, and the code-to-label lookup with
    its "Unknown (<code>)" fallback. */
module RegisterCodec {

  /** One Modbus register: an unsigned 16-bit word. */
  type Word = w: int | 0 <= w < 0x1_0000

  // ---------------------------------------------------------------------
  // Bitwise operations on naturals, as Python's `&`, `|` and `<<` on
  // non-negative ints.
  // ---------------------------------------------------------------------

  function Pow2(k: nat): (p: nat)
    ensures p >= 1
  {
    if k == 0 then 1 else 2 * Pow2(k - 1)
  }

  /** `a & b`: never larger than either operand. */
  function BitAnd(a: nat, b: nat): (r: nat)
    ensures r <= a && r <= b
  {
    if a == 0 || b == 0 then 0
    else 2 * BitAnd(a / 2, b / 2) + (if a % 2 == 1 && b % 2 == 1 then 1 else 0)
  }

  /** `a | b`: at least either operand, at most their sum. */
  function BitOr(a: nat, b: nat): (r: nat)
    ensures a <= r && b <= r && r <= a + b
  {
    if a == 0 then b
    else if b == 0 then a
    else 2 * BitOr(a / 2, b / 2) + (if a % 2 == 1 || b % 2 == 1 then 1 else 0)
  }

  /** `a << k`: the low `k` bits are clear, and shifting back gives `a`. */
  function ShiftLeft(a: nat, k: nat): (r: nat)
    ensures r % Pow2(k) == 0 && r / Pow2(k) == a
  {
    MulDivExact(a, Pow2(k));
    a * Pow2(k)
  }

  /** A product of `m >= 1` and `p` is at least `p`. */
  lemma MulAtLeast(m: int, p: nat)
    requires m >= 1
    ensures m * p >= p
  {
  }

  /** Dividing `a * p` by `p` gives `a` back, with nothing left over. */
  lemma MulDivExact(a: nat, p: nat)
    requires p > 0
    ensures (a * p) / p == a && (a * p) % p == 0
  {
    var q, r := (a * p) / p, (a * p) % p;
    assert (a - q) * p == r;
    if a > q {
      MulAtLeast(a - q, p);
    } else if q > a {
      MulAtLeast(q - a, p);
    }
  }

  /** Bit `k` of `a`. */
  function Bit(a: nat, k: nat): (b: nat)
    ensures b < 2
  {
    if k == 0 then a % 2 else Bit(a / 2, k - 1)
  }

  lemma Pow2Values()
    ensures Pow2(15) == 0x8000 && Pow2(16) == 0x1_0000
  {
    assert Pow2(4) == 16;
    assert Pow2(8) == 256 by { assert Pow2(5) == 32 && Pow2(6) == 64 && Pow2(7) == 128; }
    assert Pow2(12) == 4096 by { assert Pow2(9) == 512 && Pow2(10) == 1024 && Pow2(11) == 2048; }
    assert Pow2(13) == 8192 && Pow2(14) == 16384;
  }

  /** Masking with a single bit keeps exactly that bit of `a`. */
  lemma {:induction false} BitAndPow2(a: nat, k: nat)
    ensures BitAnd(a, Pow2(k)) == if Bit(a, k) == 1 then Pow2(k) else 0
  {
    if k == 0 {
      if a != 0 {
        assert BitAnd(a, 1) == 2 * BitAnd(a / 2, 0) + (if a % 2 == 1 then 1 else 0);
      }
    } else {
      var m := Pow2(k - 1);
      assert Pow2(k) == 2 * m && (2 * m) % 2 == 0 && (2 * m) / 2 == m;
      assert a != 0 ==> BitAnd(a, 2 * m) == 2 * BitAnd(a / 2, m);
      BitAndPow2(a / 2, k - 1);
      assert Bit(a, k) == Bit(a / 2, k - 1);
    }
  }

  /** The top bit of a (k+1)-bit number is set exactly when it is at least 2^k. */
  lemma {:induction false} TopBit(a: nat, k: nat)
    requires a < Pow2(k + 1)
    ensures Bit(a, k) == if a >= Pow2(k) then 1 else 0
  {
    if k > 0 {
      TopBit(a / 2, k - 1);
    }
  }

  /** Or-ing a value shifted left by `k` bits with one below 2^k adds them. */
  lemma {:induction false} BitOrShifted(h: nat, l: nat, k: nat)
    requires l < Pow2(k)
    ensures BitOr(h * Pow2(k), l) == h * Pow2(k) + l
  {
    if k > 0 && h != 0 && l != 0 {
      var m := Pow2(k - 1);
      var a := h * Pow2(k);
      assert a == 2 * (h * m);
      assert a % 2 == 0 && a / 2 == h * m;
      assert l / 2 < m;
      BitOrShifted(h, l / 2, k - 1);
      assert BitOr(a, l) == 2 * BitOr(h * m, l / 2) + (if l % 2 == 1 then 1 else 0);
    }
  }

  // ---------------------------------------------------------------------
  // 16-bit signed and 32-bit unsigned values
  // ---------------------------------------------------------------------

  /** `_decode_signed`: a register read as a 16-bit two's-complement value
      (subtract 2^16 when bit 0x8000 is set). */
  function DecodeSigned(w: Word): (r: int)
    ensures r == if w < 0x8000 then w else w - 0x1_0000
    ensures -0x8000 <= r < 0x8000
    ensures (r + 0x1_0000) % 0x1_0000 == w
  {
    Pow2Values();
    BitAndPow2(w, 15);
    TopBit(w, 15);
    if BitAnd(w, 0x8000) != 0 then w - 0x1_0000 else w
  }

  /** The register a device writes for a signed 16-bit quantity. */
  function EncodeSigned(v: int): (w: Word)
    requires -0x8000 <= v < 0x8000
    ensures v >= 0 ==> w == v
    ensures v < 0 ==> w == v + 0x1_0000
  {
    if v < 0 then v + 0x1_0000 else v
  }

  lemma DecodeEncodeSigned(v: int)
    requires -0x8000 <= v < 0x8000
    ensures DecodeSigned(EncodeSigned(v)) == v
  {
  }

  lemma EncodeDecodeSigned(w: Word)
    ensures EncodeSigned(DecodeSigned(w)) == w
  {
  }

  /** `_u32_from_words_le`: the 32-bit value held in registers `i` (low word)
      and `i + 1` (high word), that is `(high << 16) | low`. */
  function U32FromWordsLe(regs: seq<Word>, i: nat): (r: nat)
    requires i + 1 < |regs|
    ensures r == regs[i + 1] as int * 0x1_0000 + regs[i] as int
    ensures r < 0x1_0000_0000
  {
    Pow2Values();
    BitOrShifted(regs[i + 1], regs[i], 16);
    BitOr(ShiftLeft(regs[i + 1], 16), regs[i])
  }

  /** The low-word-first pair of registers a device writes for a 32-bit value. */
  function WordsLe(v: nat): (ws: seq<Word>)
    requires v < 0x1_0000_0000
    ensures |ws| == 2
  {
    [v % 0x1_0000, v / 0x1_0000]
  }

  lemma U32WordsRoundTrip(v: nat)
    requires v < 0x1_0000_0000
    ensures U32FromWordsLe(WordsLe(v), 0) == v
  {
  }

  /** Splitting `h * 2^16 + l` at 2^16 gives back `h` and `l`. */
  lemma DivModWord(h: nat, l: nat)
    requires l < 0x1_0000
    ensures (h * 0x1_0000 + l) / 0x1_0000 == h
    ensures (h * 0x1_0000 + l) % 0x1_0000 == l
  {
    var x := h * 0x1_0000 + l;
    var q, r := x / 0x1_0000, x % 0x1_0000;
    assert (q - h) * 0x1_0000 == l - r;
  }

  lemma WordsU32RoundTrip(regs: seq<Word>, i: nat)
    requires i + 1 < |regs|
    ensures WordsLe(U32FromWordsLe(regs, i)) == regs[i..i + 2]
  {
    var h: nat, l: nat := regs[i + 1], regs[i];
    var v := U32FromWordsLe(regs, i);
    assert v == h * 0x1_0000 + l;
    DivModWord(h, l);
    assert WordsLe(v) == [l, h];
  }

  // ---------------------------------------------------------------------
  // Scaling and power splitting
  // ---------------------------------------------------------------------

  /** A fixed-point register value divided by its scale factor, as an
      exact rational rather than a float. */
  function Scaled(raw: int, divisor: nat): (x: real)
    requires divisor > 0
    ensures x * divisor as real == raw as real
    ensures raw >= 0 <==> x >= 0.0
  {
    raw as real / divisor as real
  }

  /** Python's `max` of two ints. */
  function Max(a: int, b: int): (m: int)
    ensures m >= a && m >= b
    ensures m == a || m == b
  {
    if a >= b then a else b
  }

  /** `(max(0, p), max(0, -p))`: the two non-negative halves of a signed
      power reading. */
  function SplitPower(p: int): (halves: (nat, nat))
    ensures halves.0 - halves.1 == p
    ensures halves.0 == 0 || halves.1 == 0
  {
    (Max(0, p), Max(0, -p))
  }

  // ---------------------------------------------------------------------
  // Decimal rendering of a code, as Python's f"{code}" for code >= 0
  // ---------------------------------------------------------------------

  predicate IsDigit(c: char)
  {
    '0' <= c <= '9'
  }

  function DigitChar(d: nat): (c: char)
    requires d < 10
    ensures IsDigit(c)
  {
    "0123456789"[d]
  }

  function DigitValue(c: char): (d: nat)
    requires IsDigit(c)
    ensures d < 10
  {
    (c as int - '0' as int)
  }

  /** Decimal digits of `n`, most significant first, without leading zeros. */
  function DecimalString(n: nat): (s: string)
    ensures |s| >= 1
    ensures forall i :: 0 <= i < |s| ==> IsDigit(s[i])
    ensures |s| > 1 ==> s[0] != '0'
    decreases n
  {
    if n < 10 then [DigitChar(n)] else DecimalString(n / 10) + [DigitChar(n % 10)]
  }

  /** The number a string of decimal digits denotes. */
  function DecimalValue(s: string): nat
    requires forall i :: 0 <= i < |s| ==> IsDigit(s[i])
  {
    if s == [] then 0 else 10 * DecimalValue(s[..|s| - 1]) + DigitValue(s[|s| - 1])
  }

  lemma {:induction false} DecimalRoundTrip(n: nat)
    ensures DecimalValue(DecimalString(n)) == n
    decreases n
  {
    var s := DecimalString(n);
    if n < 10 {
      assert s[..0] == [];
    } else {
      DecimalRoundTrip(n / 10);
      assert s[..|s| - 1] == DecimalString(n / 10);
      assert DigitValue(s[|s| - 1]) == n % 10;
    }
  }

  lemma DecimalStringInjective(m: nat, n: nat)
    requires DecimalString(m) == DecimalString(n)
    ensures m == n
  {
    DecimalRoundTrip(m);
    DecimalRoundTrip(n);
  }

  // ---------------------------------------------------------------------
  // Code-to-label lookup
  // ---------------------------------------------------------------------

  /** The fallback label `f"Unknown ({code})"`. */
  function UnknownLabel(code: nat): (s: string)
    ensures |s| >= 11 && s[..9] == "Unknown (" && s[|s| - 1] == ')'
  {
    "Unknown (" + DecimalString(code) + ")"
  }

  /** `table.get(code, f"Unknown ({code})")`: never fails. */
  function Label(table: map<int, string>, code: nat): (s: string)
    ensures code in table ==> s == table[code]
    ensures code !in table ==> s == UnknownLabel(code)
  {
    if code in table then table[code] else UnknownLabel(code)
  }

  /** `table.get(code, fallback)`, the lookup with a fixed fallback. */
  function LabelOr(table: map<int, string>, code: nat, fallback: string): (s: string)
    ensures code in table ==> s == table[code]
    ensures code !in table ==> s == fallback
  {
    if code in table then table[code] else fallback
  }

  predicate IsUnknownLabel(s: string)
  {
    |s| >= 11 && s[..9] == "Unknown (" && s[|s| - 1] == ')'
    && forall i :: 9 <= i < |s| - 1 ==> IsDigit(s[i])
  }

  /** The code embedded in a fallback label. */
  function UnknownCode(s: string): nat
    requires IsUnknownLabel(s)
  {
    DecimalValue(s[9..|s| - 1])
  }

  /** A fallback label is recognisable as one and gives back its code. */
  lemma UnknownLabelRoundTrip(code: nat)
    ensures IsUnknownLabel(UnknownLabel(code))
    ensures UnknownCode(UnknownLabel(code)) == code
  {
    var s := UnknownLabel(code);
    var d := DecimalString(code);
    assert s[..9] == "Unknown (";
    assert s[9..|s| - 1] == d;
    DecimalRoundTrip(code);
  }

  /** A string that does not start with 'U' is no fallback label. */
  lemma NotUnknownLabel(s: string)
    requires |s| > 0 && s[0] != 'U'
    ensures !IsUnknownLabel(s)
  {
    if |s| >= 11 {
      assert s[..9][0] == s[0];
    }
  }

  /** When no label of the table looks like a fallback label, the label a
      code gets tells whether the code was in the table, and which code an
      unknown one was. */
  lemma LabelDistinguishesUnknown(table: map<int, string>, code: nat)
    requires forall k :: k in table ==> !IsUnknownLabel(table[k])
    ensures IsUnknownLabel(Label(table, code)) <==> code !in table
    ensures code !in table ==> UnknownCode(Label(table, code)) == code
  {
    UnknownLabelRoundTrip(code);
  }
}
