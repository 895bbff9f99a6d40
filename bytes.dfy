/** Integer widths used by the wire format: C# `byte` and `short`. */
module Bytes {
  /** An unsigned 8-bit value (C# `byte`). */
  type byte = x: int | 0 <= x < 256

  /** A signed 16-bit value (C# `short`). */
  type short = x: int | -0x8000 <= x < 0x8000

  /** The C# cast `(short)n` of an `int`: keep the low 16 bits, read them as two's complement. */
  function ToShort(n: int): (s: short)
    ensures -0x8000 <= n < 0x8000 ==> s == n
    ensures (s - n) % 0x1_0000 == 0
  {
    (n + 0x8000) % 0x1_0000 - 0x8000
  }

  /** `(byte)(x >> 8)` for a `short` x: arithmetic shift, then keep the low 8 bits. */
  function HighByte(x: short): (b: byte)
    ensures 0 <= x ==> b == x / 256
  {
    (x / 256) % 256
  }

  /** `(byte)(x & 0xFF)`: the low 8 bits of the two's complement form. */
  function LowByte(x: short): (b: byte)
    ensures 0 <= x ==> b == x % 256
  {
    x % 256
  }

  /** The bitwise OR `h | l` of two naturals, taken bit by bit from the least significant end. */
  function BitOr(h: nat, l: nat): (r: nat)
    decreases h + l
  {
    if h == 0 then l
    else if l == 0 then h
    else 2 * BitOr(h / 2, l / 2) + (if h % 2 == 1 || l % 2 == 1 then 1 else 0)
  }

  /** `h | l` for two bytes, as C# computes it on their `int` promotions: again a byte,
      no smaller than either operand and no larger than their sum. */
  function OrBytes(h: byte, l: byte): (r: byte)
    ensures h == 0 ==> r == l
    ensures l == 0 ==> r == h
    ensures h <= r && l <= r <= h + l
  {
    BitOrBounds(h, l, 256);
    BitOr(h, l)
  }

  lemma {:induction false} BitOrBounds(h: nat, l: nat, p: nat)
    requires h < p && l < p
    requires p == 1 || p == 2 || p == 4 || p == 8 || p == 16 || p == 32 || p == 64 || p == 128 || p == 256
    ensures h <= BitOr(h, l) && l <= BitOr(h, l) <= h + l && BitOr(h, l) < p
    decreases h + l
  {
    if h != 0 && l != 0 {
      BitOrBounds(h / 2, l / 2, p / 2);
    }
  }

  /** Joining the two bytes as a real big-endian 16-bit value undoes the split of a `short`. */
  lemma HighLowJoin(x: short)
    ensures ToShort(HighByte(x) * 256 + LowByte(x)) == x
  {
  }
}
