/**
 The MD4 message digest as sections 3.1 to 3.5 of RFC 1320 define it, on a whole message
 of bytes.
 */
module Md4Spec {
  import opened Integers

  type word = uint32

  const WORD: int := 0x1_0000_0000

  datatype Words = Words(a: word, b: word, c: word, d: word)

  // ----- Words and bytes, low-order byte first -----

  function WordBytes(w: word): (r: seq<byte>)
    ensures |r| == 4
  {
    [w % 0x100, w / 0x100 % 0x100, w / 0x1_0000 % 0x100, w / 0x100_0000]
  }

  function WordOf(s: seq<byte>): word
    requires |s| == 4
  {
    var b0: int, b1: int, b2: int, b3: int := s[0], s[1], s[2], s[3];
    b0 + 0x100 * b1 + 0x1_0000 * b2 + 0x100_0000 * b3
  }

  /** The sixteen words of a block. */
  function BlockWords(block: seq<byte>): (r: seq<word>)
    requires |block| == 64
    ensures |r| == 16
  {
    seq(16, i requires 0 <= i < 16 => WordOf(block[4 * i..4 * i + 4]))
  }

  // ----- Sections 3.1 and 3.2: padding and length -----

  /** The number of padding bytes: one at least, up to 56 modulo 64. */
  function PadLength(n: nat): nat {
    1 + (119 - n % 64) % 64
  }

  lemma PadLengthFits(n: nat)
    ensures 1 <= PadLength(n) <= 64 && (n + PadLength(n)) % 64 == 56
    ensures (n + PadLength(n) + 8) % 64 == 0
  {
    var q, r := n / 64, n % 64;
    assert n == 64 * q + r;
    if r < 56 {
      assert PadLength(n) == 56 - r;
      assert n + PadLength(n) == 64 * q + 56;
    } else {
      assert PadLength(n) == 120 - r;
      assert n + PadLength(n) == 64 * (q + 1) + 56;
    }
  }

  function Zeros(n: nat): (r: seq<byte>)
    ensures |r| == n && forall i :: 0 <= i < n ==> r[i] == 0
  {
    seq(n, i => 0)
  }

  /** The length of the message in bits, modulo 2^64, as two words. */
  function LengthBytes(n: nat): (r: seq<byte>)
    ensures |r| == 8
  {
    WordBytes(8 * n % WORD) + WordBytes(8 * n / WORD % WORD)
  }

  function Padding(n: nat): (r: seq<byte>)
    ensures |r| == PadLength(n)
  {
    [0x80] + Zeros(PadLength(n) - 1)
  }

  function Padded(m: seq<byte>): (r: seq<byte>)
    ensures |r| % 64 == 0
  {
    hide PadLength, Padding, LengthBytes;
    PadLengthFits(|m|);
    assert |m + Padding(|m|) + LengthBytes(|m|)| == |m| + PadLength(|m|) + 8;
    m + Padding(|m|) + LengthBytes(|m|)
  }

  // ----- Section 3.4: the rounds -----

  function Bits(w: word): bv32 {
    w as bv32
  }

  function Value(b: bv32): word {
    b as int
  }

  function SelectBits(x: bv32, y: bv32, z: bv32): bv32 {
    (x & y) | (!x & z)
  }

  function MajorityBits(x: bv32, y: bv32, z: bv32): bv32 {
    (x & y) | (x & z) | (y & z)
  }

  function ParityBits(x: bv32, y: bv32, z: bv32): bv32 {
    x ^ y ^ z
  }

  function RotateBits(x: bv32, s: bv6): bv32
    requires s < 32
  {
    (x << s) | (x >> (32 - s))
  }

  function F(x: word, y: word, z: word): word {
    Value(SelectBits(Bits(x), Bits(y), Bits(z)))
  }

  function G(x: word, y: word, z: word): word {
    Value(MajorityBits(Bits(x), Bits(y), Bits(z)))
  }

  function H(x: word, y: word, z: word): word {
    Value(ParityBits(Bits(x), Bits(y), Bits(z)))
  }

  /** Circular shift to the left. */
  function Rotate(x: word, s: bv6): word
    requires s < 32
  {
    Value(RotateBits(Bits(x), s))
  }

  /** The word of operation `j` of a round: in order, in columns, in bit-reversed order. */
  function Index(round: nat, j: nat): (r: nat)
    requires round < 3 && j < 16
    ensures r < 16
  {
    if round == 0 then j
    else if round == 1 then 4 * (j % 4) + j / 4
    else 8 * (j % 2) + 4 * (j / 2 % 2) + 2 * (j / 4 % 2) + j / 8
  }

  /** The shift amounts of a round, which repeat every four operations. */
  function Shift(round: nat, j: nat): (r: bv6)
    requires round < 3 && j < 16
    ensures r in [3, 5, 7, 9, 11, 13, 15, 19]
  {
    if j % 4 == 0 then 3
    else if round == 0 then (if j % 4 == 1 then 7 else if j % 4 == 2 then 11 else 19)
    else if round == 1 then (if j % 4 == 1 then 5 else if j % 4 == 2 then 9 else 13)
    else (if j % 4 == 1 then 9 else if j % 4 == 2 then 11 else 15)
  }

  function RoundConstant(round: nat): word
    requires round < 3
  {
    if round == 0 then 0 else if round == 1 then 0x5a827999 else 0x6ed9eba1
  }

  function Mix(round: nat, x: word, y: word, z: word): word
    requires round < 3
  {
    if round == 0 then F(x, y, z) else if round == 1 then G(x, y, z) else H(x, y, z)
  }

  /** Operation `j` of a round: the first word is replaced, then the four words take turns. */
  function Operation(w: Words, x: seq<word>, round: nat, j: nat): Words
    requires |x| == 16 && round < 3 && j < 16
  {
    hide Index, Shift, Mix, Rotate;
    var sum := (w.a + Mix(round, w.b, w.c, w.d) + x[Index(round, j)] + RoundConstant(round)) % WORD;
    Words(w.d, Rotate(sum, Shift(round, j)), w.b, w.c)
  }

  /** The first `k` operations of a round. */
  function Operations(w: Words, x: seq<word>, round: nat, k: nat): Words
    requires |x| == 16 && round < 3 && k <= 16
  {
    if k == 0 then w else Operation(Operations(w, x, round, k - 1), x, round, k - 1)
  }

  function Rounds(w: Words, x: seq<word>): Words
    requires |x| == 16
  {
    Operations(Operations(Operations(w, x, 0, 16), x, 1, 16), x, 2, 16)
  }

  /** One block added to the state. */
  function Compress(w: Words, block: seq<byte>): Words
    requires |block| == 64
  {
    var r := Rounds(w, BlockWords(block));
    Words((w.a + r.a) % WORD, (w.b + r.b) % WORD, (w.c + r.c) % WORD, (w.d + r.d) % WORD)
  }

  // ----- Sections 3.3 and 3.5: the whole message -----

  const INITIAL := Words(0x67452301, 0xefcdab89, 0x98badcfe, 0x10325476)

  /** The state after the first `k` blocks. */
  function Blocks(m: seq<byte>, k: nat): Words
    requires 64 * k <= |m|
  {
    if k == 0 then INITIAL else Compress(Blocks(m, k - 1), m[64 * (k - 1)..64 * k])
  }

  function StateBytes(w: Words): seq<byte> {
    WordBytes(w.a) + WordBytes(w.b) + WordBytes(w.c) + WordBytes(w.d)
  }

  function Digest(m: seq<byte>): seq<byte> {
    var p := Padded(m);
    StateBytes(Blocks(p, |p| / 64))
  }
}
