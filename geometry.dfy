/**
 * Geometry addressing for the LED cube: the machine integer types the
 * firmware uses, the constants of draw.h and effects.h, single-bit masks,
 * the `byteline` row mask, the two packings of a voxel coordinate into the
 * buffer, and the `orderValues` helper.
 */
module Geometry {

  /** `uint8_t`, `int8_t`, `uint16_t` and `unsigned long` (32 bits on AVR). */
  type uint8 = x: int | 0 <= x < 0x100
  type int8 = x: int | -0x80 <= x < 0x80
  type uint16 = x: int | 0 <= x < 0x1_0000
  type uint32 = x: int | 0 <= x < 0x1_0000_0000

  /** The primary configuration: an 8x8x8 cube. */
  const LAYER_COUNT: uint8 := 8

  const AXIS_X: uint8 := 1
  const AXIS_Y: uint8 := 2
  const AXIS_Z: uint8 := 3

  const BOX_FILLED: uint8 := 1
  const BOX_WALLS: uint8 := 2
  const BOX_FRAME: uint8 := 3

  /** A coordinate that addresses a voxel of the cube. */
  predicate InRange(x: int, y: int, z: int) {
    0 <= x < LAYER_COUNT as int && 0 <= y < LAYER_COUNT as int && 0 <= z < LAYER_COUNT as int
  }

  function Min(a: int, b: int): int { if a <= b then a else b }
  function Max(a: int, b: int): int { if a <= b then b else a }

  /** `v` lies between `a` and `b` inclusive, whichever of the two is smaller. */
  predicate Span(v: int, a: int, b: int) { Min(a, b) <= v <= Max(a, b) }

  /** `v` is one of the two ends `a`, `b`. */
  predicate End(v: int, a: int, b: int) { v == a || v == b }

  /** `1 << i` as a byte, one constant per bit position. */
  function Mask(i: int): bv8
    requires 0 <= i < 8
  {
    match i
    case 0 => 0x01
    case 1 => 0x02
    case 2 => 0x04
    case 3 => 0x08
    case 4 => 0x10
    case 5 => 0x20
    case 6 => 0x40
    case 7 => 0x80
  }

  /** Bit `i` of byte `b` is set. */
  predicate Bit(b: bv8, i: int)
    requires 0 <= i < 8
  {
    b & Mask(i) != 0
  }

  /** The byte with bit `x` set and every other bit as in `b` (`b |= 1 << x`). */
  function WithBit(b: bv8, x: int): (r: bv8)
    requires 0 <= x < 8
    ensures forall i | 0 <= i < 8 :: Bit(r, i) <==> i == x || Bit(b, i)
  {
    b | Mask(x)
  }

  /** The byte with bit `x` clear and every other bit as in `b` (`b &= ~(1 << x)`). */
  function WithoutBit(b: bv8, x: int): (r: bv8)
    requires 0 <= x < 8
    ensures forall i | 0 <= i < 8 :: Bit(r, i) <==> i != x && Bit(b, i)
  {
    b & !Mask(x)
  }

  /** The byte with bit `x` inverted and every other bit as in `b` (`b ^= 1 << x`). */
  function FlipBit(b: bv8, x: int): (r: bv8)
    requires 0 <= x < 8
    ensures forall i | 0 <= i < 8 :: Bit(r, i) <==> (if i == x then !Bit(b, i) else Bit(b, i))
  {
    b ^ Mask(x)
  }

  /** Inverting the same bit twice gives the byte back: two `toggleVoxel` calls on one voxel cancel. */
  lemma FlipBitTwice(b: bv8, x: int)
    requires 0 <= x < 8
    ensures FlipBit(FlipBit(b, x), x) == b
  {
  }

  /**
   * `byteline(start, end)`: computed, as on the 16-bit AVR `int`, as
   * `(0xff << start) & ~(0xff << (end + 1))` and truncated to a byte.
   * Exactly the bits start..end are set (none when start > end).
   */
  function ByteLine(start: uint8, end: uint8): (r: bv8)
    requires start < 8 && end < 8
    ensures forall i | 0 <= i < 8 :: Bit(r, i) <==> start <= i <= end
  {
    var wide: bv16 := (0xFF << start) & !(0xFF << (end + 1));
    (wide & 0xFF) as bv8
  }

  /** The documented example: `byteline(2, 5)` is 0b00111100. */
  lemma ByteLineExample()
    ensures ByteLine(2, 5) == 0x3C
  {
  }

  /** A position in the packed buffer: `cube[layer][row]`, bit `bit`. */
  datatype Address = Address(layer: int, row: int, bit: int)

  /** The 8x8x8 packing: voxel (x, y, z) is bit x of `cube[z][y]`. */
  function Address8(x: int, y: int, z: int): (a: Address)
    requires InRange(x, y, z)
    ensures 0 <= a.layer < 8 && 0 <= a.row < 8 && 0 <= a.bit < 8
  {
    Address(z, y, x)
  }

  predicate InRange4(x: int, y: int, z: int) {
    0 <= x < 4 && 0 <= y < 4 && 0 <= z < 4
  }

  /**
   * The 4x4x4 packing: two rows share one byte, so voxel (x, y, z) is bit
   * `x + (y % 2) * 4` of `cube[z][y / 2]` in a `cube[4][2]` buffer.
   */
  function Address4(x: int, y: int, z: int): (a: Address)
    requires InRange4(x, y, z)
    ensures 0 <= a.layer < 4 && 0 <= a.row < 2 && 0 <= a.bit < 8
  {
    Address(z, y / 2, x + (y % 2) * 4)
  }

  /** No two voxels of the small cube share a bit of the buffer. */
  lemma Address4Injective(x: int, y: int, z: int, x': int, y': int, z': int)
    requires InRange4(x, y, z) && InRange4(x', y', z')
    requires Address4(x, y, z) == Address4(x', y', z')
    ensures x == x' && y == y' && z == z'
  {
    var a := Address4(x, y, z);
    assert x == a.bit % 4 && y == 2 * a.row + a.bit / 4;
    assert x' == a.bit % 4 && y' == 2 * a.row + a.bit / 4;
  }

  /** Every bit of the 4x2 buffer belongs to some voxel of the small cube. */
  lemma Address4Onto(layer: int, row: int, bit: int)
    requires 0 <= layer < 4 && 0 <= row < 2 && 0 <= bit < 8
    ensures InRange4(bit % 4, 2 * row + bit / 4, layer)
    ensures Address4(bit % 4, 2 * row + bit / 4, layer) == Address(layer, row, bit)
  {
  }

  /**
   * `orderValues(&v1, &v2)`: swap the two values when the first is larger.
   * The pointers only ever address a caller's local variables, so the
   * swapped pair is returned.
   */
  method OrderValues(v1: uint8, v2: uint8) returns (lo: uint8, hi: uint8)
    ensures lo <= hi
    ensures (lo == v1 && hi == v2) || (lo == v2 && hi == v1)
    ensures v1 <= v2 ==> lo == v1 && hi == v2
  {
    lo, hi := v1, v2;
    if lo > hi {
      var tmp := lo;
      lo := hi;
      hi := tmp;
    }
  }
}
