/**
 * The CRC-32 used on every frame: zlib's crc32, i.e. the CRC of ITU-T Recommendation V.42,
 * section 8.1.1.6.2 (reflected polynomial 0xEDB88320, initial value and final xor 0xFFFFFFFF).
 */
module Crc {

  const POLYNOMIAL: bv32 := 0xEDB8_8320

  /** Runs `k` shift-and-reduce steps of the reflected CRC register. */
  function Shift(c: bv32, k: nat): bv32
    decreases k
  {
    if k == 0 then c
    else Shift(if c & 1 == 1 then (c >> 1) ^ POLYNOMIAL else c >> 1, k - 1)
  }

  /** Absorbs one byte into the register. */
  function UpdateByte(c: bv32, b: bv8): bv32
  {
    Shift(c ^ (b as bv32), 8)
  }

  /** Absorbs a byte string into the register, first byte first. */
  function Update(c: bv32, data: seq<bv8>): bv32
    decreases |data|
  {
    if data == [] then c else Update(UpdateByte(c, data[0]), data[1..])
  }

  function Crc32(data: seq<bv8>): bv32
  {
    Update(0xFFFF_FFFF, data) ^ 0xFFFF_FFFF
  }

  /** The register can be run over a split input piece by piece (what makes streaming computation possible). */
  lemma {:induction false} UpdateAppend(c: bv32, a: seq<bv8>, b: seq<bv8>)
    ensures Update(c, a + b) == Update(Update(c, a), b)
    decreases |a|
  {
    if a != [] {
      assert (a + b)[0] == a[0];
      assert (a + b)[1..] == a[1..] + b;
      UpdateAppend(UpdateByte(c, a[0]), a[1..], b);
    } else {
      assert a + b == b;
    }
  }

  /** The standard check value of this CRC: the digits "123456789" give 0xCBF43926. */
  lemma CheckValue()
    ensures Crc32([0x31, 0x32, 0x33, 0x34, 0x35, 0x36, 0x37, 0x38, 0x39]) == 0xCBF4_3926
  {
    var r0 := UpdateByte(0xFFFF_FFFF, 0x31);
    assert r0 == 0x7c23_1048;
    var r1 := UpdateByte(0x7c23_1048, 0x32);
    assert r1 == 0xb0ac_bb32;
    var r2 := UpdateByte(0xb0ac_bb32, 0x33);
    assert r2 == 0x77b7_9c2d;
    var r3 := UpdateByte(0x77b7_9c2d, 0x34);
    assert r3 == 0x641c_1f5c;
    var r4 := UpdateByte(0x641c_1f5c, 0x35);
    assert r4 == 0x340a_c5e3;
    var r5 := UpdateByte(0x340a_c5e3, 0x36);
    assert r5 == 0xf68d_2c9e;
    var r6 := UpdateByte(0xf68d_2c9e, 0x37);
    assert r6 == 0xaffc_9660;
    var r7 := UpdateByte(0xaffc_9660, 0x38);
    assert r7 == 0x651f_2550;
    var r8 := UpdateByte(0x651f_2550, 0x39);
    assert r8 == 0x340b_c6d9;
  }
}
