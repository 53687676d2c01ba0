/** Writing a relocation value of 16, 32 or 64 bits (arch/rel_x86.c). Values are
  * computed modulo 2^64; the bytes of memory are addressed by full addresses. */
module Widths {
  import opened Tables

  type Byte = b: int | 0 <= b < 256
  type U64 = v: int | 0 <= v < 0x1_0000_0000_0000_0000
  type Bytes = map<int, Byte>

  datatype Width = W16 | W32 | W64

  function Size(w: Width): nat {
    match w
    case W16 => 2
    case W32 => 4
    case W64 => 8
  }

  /** 2 to the power of the width. */
  function Modulus(w: Width): int {
    match w
    case W16 => 0x1_0000
    case W32 => 0x1_0000_0000
    case W64 => 0x1_0000_0000_0000_0000
  }

  /** A 64-bit value read as a signed number. */
  function Signed(v: U64): int {
    if v < 0x8000_0000_0000_0000 then v else v - 0x1_0000_0000_0000_0000
  }

  /** What the processor makes of a stored value of width `w`. */
  function SignExtend(w: Width, v: int): int {
    if v < Modulus(w) / 2 then v else v - Modulus(w)
  }

  /** The absolute value the functions check. */
  function Magnitude(val: U64, relative: bool): int {
    if !relative then val else if Signed(val) < 0 then -Signed(val) else Signed(val)
  }

  predicate Accepts(w: Width, val: U64, relative: bool) {
    Magnitude(val, relative) <= Modulus(w) - 1
  }

  /** What is stored: the value truncated to the width. */
  function Truncate(w: Width, val: int): int {
    val % Modulus(w)
  }

  // ---------------------------------------------------------------- memory

  /** `n` bytes of `v` at `a`, the lowest first. */
  function Write(m: Bytes, a: int, n: nat, v: int): Bytes {
    if n == 0 then m else Write(m, a, n - 1, v)[Address(a + n - 1) := ByteOf(v, n - 1)]
  }

  function Address(a: int): int {
    a % 0x1_0000_0000_0000_0000
  }

  /** The `i`-th byte of a value. */
  function ByteOf(v: int, i: nat): Byte
    decreases i
  {
    if i == 0 then v % 256 else ByteOf(v / 256, i - 1)
  }

  function Read(m: Bytes, a: int, n: nat): int
    decreases n
  {
    if n == 0 then 0 else (if Address(a) in m then m[Address(a)] else 0) + 256 * Read(m, a + 1, n - 1)
  }

  /** Address `x` is one of the `n` addresses from `a` on. */
  predicate Covers(a: int, n: nat, x: int) {
    0 <= x < 0x1_0000_0000_0000_0000 && (x - a) % 0x1_0000_0000_0000_0000 < n
  }

  /** A write changes exactly the bytes it covers, to the bytes of the value. */
  lemma {:induction false} WriteAt(m: Bytes, a: int, n: nat, v: int, x: int)
    requires n <= 8
    ensures Covers(a, n, x) ==> x in Write(m, a, n, v) && Write(m, a, n, v)[x] == ByteOf(v, (x - a) % 0x1_0000_0000_0000_0000)
    ensures !Covers(a, n, x) ==> (x in Write(m, a, n, v) <==> x in m) && (x in m ==> Write(m, a, n, v)[x] == m[x])
  {
    hide ByteOf, Address, Covers;
    if n > 0 {
      WriteAt(m, a, n - 1, v, x);
      CoversOne(a, n, x);
    } else {
      CoversNone(a, x);
    }
  }

  /** One byte more is covered: that at the last address. */
  lemma CoversOne(a: int, n: nat, x: int)
    requires 0 < n <= 8
    ensures Covers(a, n, x) <==> Covers(a, n - 1, x) || x == Address(a + n - 1)
    ensures x == Address(a + n - 1) ==> (x - a) % 0x1_0000_0000_0000_0000 == n - 1 && !Covers(a, n - 1, x)
  {
  }

  lemma CoversNone(a: int, x: int)
    ensures !Covers(a, 0, x)
  {
  }

  lemma WrittenByte(m: Bytes, a: int, n: nat, v: int, i: nat)
    requires i < n <= 8
    ensures Address(a + i) in Write(m, a, n, v) && Write(m, a, n, v)[Address(a + i)] == ByteOf(v, i)
  {
    hide Write, ByteOf;
    WriteAt(m, a, n, v, Address(a + i));
    assert (Address(a + i) - a) % 0x1_0000_0000_0000_0000 == i;
  }

  /** The bytes of a value from the `i`-th on are the value shifted. */
  lemma {:induction false} ReadIs(m: Bytes, a: int, n: nat, v: int, i: nat, u: int)
    requires i <= n <= 8 && 0 <= u
    requires forall j: nat :: i <= j < n ==> ByteOf(v, j) == ByteOf(u, j - i)
    requires u < Power256(n - i)
    ensures Read(Write(m, a, n, v), a + i, n - i) == u
    decreases n - i
  {
    if i < n {
      WrittenByte(m, a, n, v, i);
      assert ByteOf(v, i) == ByteOf(u, 0) == u % 256;
      forall j: nat | i + 1 <= j < n
        ensures ByteOf(v, j) == ByteOf(u / 256, j - (i + 1))
      {
      }
      assert Power256(n - i) == 256 * Power256(n - i - 1);
      ReadIs(m, a, n, v, i + 1, u / 256);
    }
  }

  function Power256(n: nat): int {
    if n == 0 then 1 else 256 * Power256(n - 1)
  }

  /** What was written is read back. */
  lemma ReadBack(m: Bytes, a: int, w: Width, v: int)
    requires 0 <= v < Modulus(w)
    ensures Read(Write(m, a, Size(w), v), a, Size(w)) == v
  {
    assert Power256(2) == 0x1_0000;
    assert Power256(4) == 0x1_0000_0000 by { assert Power256(4) == 256 * 256 * Power256(2); }
    assert Power256(8) == 0x1_0000_0000_0000_0000 by { assert Power256(8) == 256 * 256 * 256 * 256 * Power256(4); }
    ReadIs(m, a, Size(w), v, 0, v);
  }

  // ------------------------------------------------------------ relocations

  /** S + A - P, modulo 2^64. */
  function RelValue(s: U64, a: int, p: U64): U64 {
    (s + a - p) % 0x1_0000_0000_0000_0000
  }

  lemma Congruent16(d: int)
    ensures (d - (d % 0x1_0000_0000_0000_0000) % 0x1_0000) % 0x1_0000 == 0
  {
    var q, r := d / 0x1_0000_0000_0000_0000, d % 0x1_0000_0000_0000_0000;
    assert d - r % 0x1_0000 == 0x1_0000 * (q * 0x1_0000_0000_0000 + r / 0x1_0000);
  }

  lemma Congruent32(d: int)
    ensures (d - (d % 0x1_0000_0000_0000_0000) % 0x1_0000_0000) % 0x1_0000_0000 == 0
  {
    var q, r := d / 0x1_0000_0000_0000_0000, d % 0x1_0000_0000_0000_0000;
    assert d - r % 0x1_0000_0000 == 0x1_0000_0000 * (q * 0x1_0000_0000 + r / 0x1_0000_0000);
  }

  lemma Congruent64(d: int)
    ensures (d - (d % 0x1_0000_0000_0000_0000) % 0x1_0000_0000_0000_0000) % 0x1_0000_0000_0000_0000 == 0
  {
  }

  /** What is stored is congruent to S + A - P modulo 2^w. */
  lemma StoredIsCongruent(w: Width, s: U64, a: int, p: U64)
    ensures (s + a - p - Truncate(w, RelValue(s, a, p))) % Modulus(w) == 0
    ensures 0 <= Truncate(w, RelValue(s, a, p)) < Modulus(w)
  {
    match w
    case W16 => Congruent16(s + a - p);
    case W32 => Congruent32(s + a - p);
    case W64 => Congruent64(s + a - p);
  }

  /** P plus the sign-extended stored value is S + A, modulo 2^64, if and only if
    * S + A - P, read as signed, fits in `w` bits: the check of section 4.4 of
    * the AMD64 psABI. */
  lemma ExactIffFits(w: Width, s: U64, a: int, p: U64)
    ensures var v := Signed(RelValue(s, a, p));
            var stored := Truncate(w, RelValue(s, a, p));
            (p + SignExtend(w, stored)) % 0x1_0000_0000_0000_0000 == (s + a) % 0x1_0000_0000_0000_0000
            <==> -(Modulus(w) / 2) <= v < Modulus(w) / 2
  {
    hide SignExtend, Truncate;
    ExtendedFits(w, RelValue(s, a, p));
    SameTarget(s, a, p, SignExtend(w, Truncate(w, RelValue(s, a, p))));
  }

  /** Adding a signed number to P gives S + A exactly if it is S + A - P, signed. */
  lemma SameTarget(s: U64, a: int, p: U64, x: int)
    requires -0x8000_0000_0000_0000 <= x < 0x8000_0000_0000_0000
    ensures (p + x) % 0x1_0000_0000_0000_0000 == (s + a) % 0x1_0000_0000_0000_0000 <==> x == Signed(RelValue(s, a, p))
  {
    var d, v := s + a - p, Signed(RelValue(s, a, p));
    var q := if v < 0 then d / 0x1_0000_0000_0000_0000 + 1 else d / 0x1_0000_0000_0000_0000;
    assert d == 0x1_0000_0000_0000_0000 * q + v;
    if (p + x) % 0x1_0000_0000_0000_0000 == (s + a) % 0x1_0000_0000_0000_0000 {
      var k := (p + x) / 0x1_0000_0000_0000_0000 - (s + a) / 0x1_0000_0000_0000_0000;
      assert x - v == 0x1_0000_0000_0000_0000 * (k + q);
    } else {
      assert x == v ==> s + a == 0x1_0000_0000_0000_0000 * q + (p + x);
    }
  }

  lemma ExtendedFits(w: Width, r: U64)
    ensures var x := SignExtend(w, Truncate(w, r));
            -0x8000_0000_0000_0000 <= -(Modulus(w) / 2) <= x < Modulus(w) / 2 <= 0x8000_0000_0000_0000 && (x == Signed(r) <==> -(Modulus(w) / 2) <= Signed(r) < Modulus(w) / 2)
  {
  }

  /** S + A - P modulo 2^64 is accepted: read as signed, its absolute value is
    * below 2^32. */
  predicate InRange(d: U64) {
    d < 0x1_0000_0000 || d > 0xFFFF_FFFF_0000_0000
  }

  /** What the check accepts: relative values whose absolute value, and absolute
    * values that, fit in `w` unsigned bits. */
  lemma AcceptsIs(w: Width, d: U64)
    ensures Accepts(w, d, true) <==> -(Modulus(w) - 1) <= (if d < 0x8000_0000_0000_0000 then d else d - 0x1_0000_0000_0000_0000) <= Modulus(w) - 1
    ensures Accepts(w, d, false) <==> d < Modulus(w)
    ensures Accepts(W32, d, true) <==> InRange(d)
  {
  }

  lemma WidthsAre()
    ensures (Size(W16), Size(W32), Size(W64)) == (2, 4, 8)
    ensures (Modulus(W16), Modulus(W32), Modulus(W64)) == (0x1_0000, 0x1_0000_0000, 0x1_0000_0000_0000_0000)
  {
  }

  /** The source's check accepts twice the range on both sides: what it accepts
    * is exact if and only if the value fits. */
  lemma AcceptedButWrong(w: Width, s: U64, a: int, p: U64)
    requires Accepts(w, RelValue(s, a, p), true)
    ensures var v := Signed(RelValue(s, a, p));
            (p + SignExtend(w, Truncate(w, RelValue(s, a, p)))) % 0x1_0000_0000_0000_0000 != (s + a) % 0x1_0000_0000_0000_0000
            <==> (Modulus(w) / 2 <= v <= Modulus(w) - 1 || -(Modulus(w) - 1) <= v < -(Modulus(w) / 2))
  {
    ExactIffFits(w, s, a, p);
  }

  /** A concrete failure: a symbol 2^31 after the site is accepted, and missed by 2^32. */
  lemma AcceptedAtTwoGigabytes()
    ensures Accepts(W32, RelValue(0x8000_1000, 0, 0x1000), true)
    ensures 0x1000 + SignExtend(W32, Truncate(W32, RelValue(0x8000_1000, 0, 0x1000))) == 0x8000_1000 - 0x1_0000_0000
  {
  }

  class Memory {
    var bytes: Bytes

    /** rel16, rel32, rel64. */
    method Rel(w: Width, dst: U64, val: U64, relative: bool) returns (err: nat)
      modifies this
      ensures err == if Accepts(w, val, relative) then 0 else 1
      ensures bytes == if err == 0 then Write(old(bytes), dst, Size(w), Truncate(w, val)) else old(bytes)
    {
      var abs, final;
      if relative {
        var sval := Signed(val);
        abs := if sval < 0 then -sval else sval;
        final := sval % Modulus(w);
        assert sval % Modulus(w) == val % Modulus(w) by { SignedTruncates(w, val); }
      } else {
        abs := val;
        final := val % Modulus(w);
      }
      if abs > Modulus(w) - 1 {
        return 1;
      }
      bytes := Write(bytes, dst, Size(w), final);
      return 0;
    }

    /** loader_apply_relocation: the types R_AMD64_PC32 and R_AMD64_PLT32 only. */
    method ApplyRelocation(p: U64, s: U64, a: int, kind: nat) returns (err: nat)
      modifies this
      ensures err == RelocationError(p, s, a, kind)
      ensures err == if kind != 2 && kind != 4 then 7 else if !InRange((s + a - p) % 0x1_0000_0000_0000_0000) then 8 else 0
      ensures err == 0 ==> bytes == Write(old(bytes), p, 4, (s + a - p) % 0x1_0000_0000)
      ensures bytes == if err == 0 then Write(old(bytes), p, 4, Truncate(W32, RelValue(s, a, p))) else old(bytes)
    {
      if kind != 2 && kind != 4 {
        return BAD_RELOCATION_TYPE;
      }
      var value := RelValue(s, a, p);
      AcceptsIs(W32, value);
      Congruent32(s + a - p);
      var error := Rel(W32, p, value, true);
      if error != 0 {
        return VALUE_OVERFLOW;
      }
      return 0;
    }
  }

  lemma SignedTruncates(w: Width, val: U64)
    ensures Signed(val) % Modulus(w) == val % Modulus(w)
  {
    StoredIsCongruent(w, val, 0, 0);
    match w {
      case W16 => assert (val - 0x1_0000_0000_0000_0000) % 0x1_0000 == val % 0x1_0000;
      case W32 => assert (val - 0x1_0000_0000_0000_0000) % 0x1_0000_0000 == val % 0x1_0000_0000;
      case W64 =>
    }
  }

  function RelocationError(p: U64, s: U64, a: int, kind: nat): nat {
    if kind != 2 && kind != 4 then BAD_RELOCATION_TYPE
    else if Accepts(W32, RelValue(s, a, p), true) then 0
    else VALUE_OVERFLOW
  }
}
