/** Values shared by every part of the model: C#'s `byte`, its unchecked
    casts and bit operators, the RGB palette entry, and the outcome of an
    operation that may throw `ArgumentException`. */
module Colors {

  /** An unsigned 8-bit value, as C#'s `byte`. */
  type byte = x: int | 0 <= x < 256

  /** C#'s unchecked `(byte)` cast of an `int`: it keeps the low eight bits
      of the two's-complement value, which is the Euclidean remainder. */
  function ToByte(v: int): (b: byte)
    ensures (v - b) % 256 == 0
    ensures 0 <= v < 256 ==> b == v
  {
    v % 256
  }

  /** C#'s `|` on non-negative values, bit by bit from the lowest: never
      below either operand and never above their sum. */
  function BitOr(a: nat, b: nat): (r: nat)
    ensures a <= r && b <= r
    ensures r <= a + b
    decreases a + b
  {
    if a == 0 && b == 0 then 0
    else 2 * BitOr(a / 2, b / 2) + (if a % 2 == 1 || b % 2 == 1 then 1 else 0)
  }

  /** One step of the recursion of `BitOr`. */
  lemma BitOrStep(a: nat, b: nat)
    ensures BitOr(a, b) == 2 * BitOr(a / 2, b / 2) + (if a % 2 == 1 || b % 2 == 1 then 1 else 0)
  {
  }

  lemma {:induction false} BitOrZero(a: nat)
    ensures BitOr(a, 0) == a
    decreases a
  {
    if a != 0 {
      BitOrZero(a / 2);
    }
  }

  /** Or-ing a value below 4 into a value whose two low bits are clear
      adds it. */
  lemma BitOrIntoClearBits(a: nat, b: nat)
    requires a % 4 == 0 && b < 4
    ensures BitOr(a, b) == a + b
  {
    var q := a / 4;
    assert a == 4 * q;
    assert a / 2 == 2 * q && (a / 2) / 2 == q && a % 2 == 0 && (a / 2) % 2 == 0;
    assert b / 2 < 2 && (b / 2) / 2 == 0;
    BitOrStep(a, b);
    BitOrStep(a / 2, b / 2);
    BitOrZero(q);
  }

  /** A mask with exactly one of the low four bits set. */
  predicate IsOneBit(mask: int)
  {
    mask == 1 || mask == 2 || mask == 4 || mask == 8
  }

  /** The source's test `(v & mask) == mask` for a one-bit mask: whether
      that bit of `v` is set, which is the parity of `v / mask`. */
  predicate HasBit(v: byte, mask: int)
    requires IsOneBit(mask)
    ensures HasBit(v, mask) <==> (v / mask) % 2 == 1
  {
    if mask == 1 then v % 2 == 1
    else if mask == 2 then (v / 2) % 2 == 1
    else if mask == 4 then (v / 4) % 2 == 1
    else (v / 8) % 2 == 1
  }

  /** The source's `v ^ mask` for a one-bit mask on a value below 16: `v`
      with that bit flipped. */
  function FlipBit(v: byte, mask: int): (r: byte)
    requires IsOneBit(mask) && v < 16
    ensures r < 16
    ensures v < 8 && mask < 8 ==> r < 8
  {
    if HasBit(v, mask) then v - mask else v + mask
  }

  /** On the values below 16 (the colour indices and hue states the source
      works on), `HasBit` is C#'s `(v & mask) == mask`. */
  lemma HasBitIsBitAnd(v: byte, mask: int)
    requires IsOneBit(mask) && v < 16
    ensures HasBit(v, mask) <==> ((v as bv8) & (mask as bv8)) == mask as bv8
  {
    var x := v as bv8;
    assert x < 16;
  }

  /** On the values below 16, `FlipBit` is C#'s `v ^ mask`. */
  lemma FlipBitIsBitXor(v: byte, mask: int)
    requires IsOneBit(mask) && v < 16
    ensures FlipBit(v, mask) == ((v as bv8) ^ (mask as bv8)) as int
  {
    var x := v as bv8;
    assert x < 16;
  }

  /** One colour of a palette: three 8-bit channels (the source's
      `PaletteEntry(red, green, blue)`). */
  datatype PaletteEntry = PaletteEntry(red: byte, green: byte, blue: byte)

  /** The outcome of an operation that either returns a value or throws
      `ArgumentException`. */
  datatype Result<T> = Ok(value: T) | ArgumentError

  function Min(a: int, b: int): int
  {
    if a <= b then a else b
  }

  function Max(a: int, b: int): int
  {
    if a >= b then a else b
  }

  function Abs(v: int): nat
  {
    if v < 0 then -v else v
  }

  /** C#'s `Math.Sign` on an `int`. */
  function Sign(v: int): int
  {
    if v > 0 then 1 else if v < 0 then -1 else 0
  }
}
