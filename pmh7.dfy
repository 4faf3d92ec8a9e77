/**
 The register layout of the ThinkPad PMH7 power-management chip's DGPU control
 byte, and the bit arithmetic the raw backend performs on it.

 An unsigned char is modelled as its eight bits: element `i` of a `Byte` is
 bit `i`, bit 0 being the least significant. The C operators the backend uses
 (`1 << bit` truncated to a byte, `|`, `& ~`, `&` and the test against zero)
 act bit by bit and are defined that way here.
 */
module Pmh7 {

  type Byte = s: seq<bool> | |s| == 8 witness [false, false, false, false, false, false, false, false]

  /** Two to the power `i`. */
  function Pow2(i: nat): (p: nat)
    ensures p > 0
  {
    if i == 0 then 1 else 2 * Pow2(i - 1)
  }

  /** The byte whose value is `n`. */
  function ByteOf(n: nat): Byte
    requires n < 256
  {
    seq(8, i requires 0 <= i < 8 => n / Pow2(i) % 2 == 1)
  }

  // Port-I/O addresses of the PMH7's indexed register window.
  const PMH7_BASE: int := 0x15e0
  const ADDR_L: int := PMH7_BASE + 0x0c
  const ADDR_H: int := PMH7_BASE + 0x0d
  const DATA: int := PMH7_BASE + 0x0e

  // Index of the DGPU control byte, written low byte first.
  const DGPU_L: Byte := ByteOf(0x50)
  const DGPU_H: Byte := ByteOf(0x00)

  // The commit ("write-enable") bit and the power bit of the DGPU control byte.
  const WRITE_BIT: nat := 7
  const POWER_BIT: nat := 3

  /** The byte with no bit set. */
  const ZERO: Byte := [false, false, false, false, false, false, false, false]

  /** Bit `i` of `b` is set. */
  predicate Bit(b: Byte, i: nat)
    requires i < 8
  {
    b[i]
  }

  /** `a | m`. */
  function Or(a: Byte, m: Byte): Byte
  {
    seq(8, i requires 0 <= i < 8 => a[i] || m[i])
  }

  /** `a & m`. */
  function And(a: Byte, m: Byte): Byte
  {
    seq(8, i requires 0 <= i < 8 => a[i] && m[i])
  }

  /** `a & ~m`. */
  function AndNot(a: Byte, m: Byte): Byte
  {
    seq(8, i requires 0 <= i < 8 => a[i] && !m[i])
  }

  /** `a` and `b` agree on every bit of the byte that is not in `bits`. */
  ghost predicate SameOutside(a: Byte, b: Byte, bits: set<nat>)
  {
    forall i: nat :: i < 8 && i !in bits ==> Bit(a, i) == Bit(b, i)
  }

  /** Two bytes that agree bit by bit are equal. */
  lemma BitsDetermineByte(a: Byte, b: Byte)
    requires SameOutside(a, b, {})
    ensures a == b
  {
    forall i | 0 <= i < 8 ensures a[i] == b[i] {
      assert Bit(a, i) == Bit(b, i);
    }
  }

  /** The byte 1. */
  const ONE: Byte := [true, false, false, false, false, false, false, false]

  /** `m << 1` kept to a byte: every bit moves up one place and bit 7 falls off. */
  function Shl1(m: Byte): Byte
  {
    [false] + m[..7]
  }

  /**
   The C expression `1 << bit` stored in an unsigned char: the byte 1 shifted
   up one place `bit` times, bit 7 falling off at each step (keeping only the
   low byte commutes with shifting left). It has exactly the bit `bit` set, and
   no bit when `bit` is 8 or more. The shift is done on `int` and overflows
   from bit 31 on, so callers stay below it.
   */
  function Mask(bit: nat): (m: Byte)
    requires bit < 31
    ensures forall i :: 0 <= i < 8 ==> (m[i] <==> i == bit)
    ensures 8 <= bit ==> m == ZERO
  {
    if bit == 0 then
      ONE
    else
      var prev := Mask(bit - 1);
      var m := Shl1(prev);
      assert forall i :: 1 <= i < 8 ==> m[i] == prev[i - 1];
      m
  }

  /**
   What `raw_peek` reports for a control byte `b`, `(b & (1 << bit)) != 0`:
   whether `bit` is inside the byte and set in it.
   */
  function Peeked(b: Byte, bit: nat): (isSet: bool)
    requires bit < 31
    ensures isSet <==> bit < 8 && Bit(b, bit)
  {
    var masked := And(b, Mask(bit));
    if bit < 8 && Bit(b, bit) then
      assert masked[bit] != ZERO[bit];
      masked != ZERO
    else
      BitsDetermineByte(masked, ZERO);
      masked != ZERO
  }

  /** A byte with the bits of mask `m` set (`on`) or cleared (not `on`). */
  function Apply(b: Byte, m: Byte, on: bool): Byte
  {
    if on then Or(b, m) else AndNot(b, m)
  }

  /**
   The byte `raw_poke` writes back after reading `b`: `bit` forced to `on`,
   every other bit of the byte as read.
   */
  function Poked(b: Byte, bit: nat, on: bool): (w: Byte)
    requires bit < 31
    ensures bit < 8 ==> Bit(w, bit) == on
    ensures SameOutside(b, w, {bit})
  {
    Apply(b, Mask(bit), on)
  }

  /** A bit number outside the byte makes the poke write back what it read. */
  lemma PokeOutsideByteIsIdentity(b: Byte, bit: nat, on: bool)
    requires 8 <= bit < 31
    ensures Poked(b, bit, on) == b
  {
  }

  /** Poking the same bit to the same value twice writes the same byte as poking it once. */
  lemma PokeIdempotent(b: Byte, bit: nat, on: bool)
    requires bit < 31
    ensures Poked(Poked(b, bit, on), bit, on) == Poked(b, bit, on)
  {
  }

  /** Poking back the value peeked before a poke restores the original byte. */
  lemma PokeUndo(b: Byte, bit: nat, on: bool)
    requires bit < 31
    ensures Poked(Poked(b, bit, on), bit, Peeked(b, bit)) == b
  {
  }

  /** Pokes of two different bits commute. */
  lemma PokesCommute(b: Byte, i: nat, s: bool, j: nat, t: bool)
    requires i < 8 && j < 8 && i != j
    ensures Poked(Poked(b, i, s), j, t) == Poked(Poked(b, j, t), i, s)
  {
  }
}
