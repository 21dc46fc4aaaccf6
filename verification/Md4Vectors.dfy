/**
 Two messages of the test suite in section A.5 of RFC 1320, the empty one and the one of two blocks in which no word of
 the first block is the same as another, with their digests worked out operation by operation.
 */
module Md4Vectors {
  import opened Integers
  import opened Md4Spec

  // ----- One operation on given words -----

  function State(a: bv32, b: bv32, c: bv32, d: bv32): Words {
    Words(Value(a), Value(b), Value(c), Value(d))
  }

  function MixBits(round: nat, x: bv32, y: bv32, z: bv32): bv32
    requires round < 3
  {
    if round == 0 then SelectBits(x, y, z) else if round == 1 then MajorityBits(x, y, z) else ParityBits(x, y, z)
  }

  lemma BitsOf(b: bv32)
    ensures Bits(Value(b)) == b
  {
  }

  lemma MixIs(round: nat, x: bv32, y: bv32, z: bv32)
    requires round < 3
    ensures Mix(round, Value(x), Value(y), Value(z)) == Value(MixBits(round, x, y, z))
  {
    hide Bits, Value, SelectBits, MajorityBits, ParityBits;
    BitsOf(x);
    BitsOf(y);
    BitsOf(z);
  }

  lemma RotateIs(x: bv32, s: bv6)
    requires s < 32
    ensures Rotate(Value(x), s) == Value(RotateBits(x, s))
  {
    hide Bits, Value, RotateBits;
    BitsOf(x);
  }

  lemma Begin(w: Words, x: seq<word>, round: nat)
    requires |x| == 16 && round < 3
    ensures Operations(w, x, round, 0) == w
  {
  }

  /** The next operation, given the words before it, the mixed word, the sum and the sum rotated. */
  lemma Step(w: Words, a: bv32, b: bv32, c: bv32, d: bv32, x: seq<word>, round: nat, j: nat,
    mixed: bv32, sum: bv32, rotated: bv32)
    requires |x| == 16 && round < 3 && j < 16 && Operations(w, x, round, j) == State(a, b, c, d)
    requires mixed == MixBits(round, b, c, d) && rotated == RotateBits(sum, Shift(round, j))
    requires (Value(a) + Value(mixed) + x[Index(round, j)] + RoundConstant(round)) % WORD == Value(sum)
    ensures Operations(w, x, round, j + 1) == State(d, rotated, b, c)
  {
    hide Value, RotateBits, Mix, MixBits, Index, Shift, RoundConstant, Rotate;
    MixIs(round, b, c, d);
    RotateIs(sum, Shift(round, j));
  }

  // ----- The empty message -----

  const EMPTY: seq<word> := [
    0x00000080, 0, 0, 0, 0, 0, 0, 0,
    0, 0, 0, 0, 0, 0, 0, 0]

  lemma EmptyOneA(w: Words)
    requires Operations(w, EMPTY, 0, 0) == State(0x67452301, 0xefcdab89, 0x98badcfe, 0x10325476)
    ensures Operations(w, EMPTY, 0, 4) == State(0x000003f8, 0x740f9e7d, 0x0446b910, 0x769a0254)
  {
    hide Operation, Operations, State;
    Step(w, 0x67452301, 0xefcdab89, 0x98badcfe, 0x10325476, EMPTY, 0, 0, 0x98badcfe, 0x0000007f, 0x000003f8);
    Step(w, 0x10325476, 0x000003f8, 0xefcdab89, 0x98badcfe, EMPTY, 0, 1, 0x98badf8e, 0xa8ed3404, 0x769a0254);
    Step(w, 0x98badcfe, 0x769a0254, 0x000003f8, 0xefcdab89, EMPTY, 0, 2, 0x8945abd9, 0x220088d7, 0x0446b910);
    Step(w, 0xefcdab89, 0x0446b910, 0x769a0254, 0x000003f8, EMPTY, 0, 3, 0x040202f8, 0xf3cfae81, 0x740f9e7d);
  }

  lemma EmptyOneB(w: Words)
    requires Operations(w, EMPTY, 0, 4) == State(0x000003f8, 0x740f9e7d, 0x0446b910, 0x769a0254)
    ensures Operations(w, EMPTY, 0, 8) == State(0x34b4e040, 0xf5ef256b, 0x6c2bc1c2, 0x704dd255)
  {
    hide Operation, Operations, State;
    Step(w, 0x000003f8, 0x740f9e7d, 0x0446b910, 0x769a0254, EMPTY, 0, 4, 0x06969810, 0x06969c08, 0x34b4e040);
    Step(w, 0x769a0254, 0x34b4e040, 0x740f9e7d, 0x0446b910, EMPTY, 0, 5, 0x34469950, 0xaae09ba4, 0x704dd255);
    Step(w, 0x0446b910, 0x704dd255, 0x34b4e040, 0x740f9e7d, EMPTY, 0, 6, 0x3406cc68, 0x384d8578, 0x6c2bc1c2);
    Step(w, 0x740f9e7d, 0x6c2bc1c2, 0x704dd255, 0x34b4e040, EMPTY, 0, 7, 0x709de040, 0xe4ad7ebd, 0xf5ef256b);
  }

  lemma EmptyOneC(w: Words)
    requires Operations(w, EMPTY, 0, 8) == State(0x34b4e040, 0xf5ef256b, 0x6c2bc1c2, 0x704dd255)
    ensures Operations(w, EMPTY, 0, 12) == State(0xc7059cb4, 0x18be2386, 0x8bf5399c, 0xbe8bdbae)
  {
    hide Operation, Operations, State;
    Step(w, 0x34b4e040, 0xf5ef256b, 0x6c2bc1c2, 0x704dd255, EMPTY, 0, 8, 0x642bd356, 0x98e0b396, 0xc7059cb4);
    Step(w, 0x704dd255, 0xc7059cb4, 0xf5ef256b, 0x6c2bc1c2, EMPTY, 0, 9, 0xed2f4562, 0x5d7d17b7, 0xbe8bdbae);
    Step(w, 0x6c2bc1c2, 0xbe8bdbae, 0xc7059cb4, 0xf5ef256b, EMPTY, 0, 10, 0xc765bce5, 0x33917ea7, 0x8bf5399c);
    Step(w, 0xf5ef256b, 0x8bf5399c, 0xbe8bdbae, 0xc7059cb4, EMPTY, 0, 11, 0xce819dac, 0xc470c317, 0x18be2386);
  }

  lemma EmptyOneD(w: Words)
    requires Operations(w, EMPTY, 0, 12) == State(0xc7059cb4, 0x18be2386, 0x8bf5399c, 0xbe8bdbae)
    ensures Operations(w, EMPTY, 0, 16) == State(0xaddcb303, 0x3665f296, 0x8ee8f245, 0xa483a664)
  {
    hide Operation, Operations, State;
    Step(w, 0xc7059cb4, 0x18be2386, 0x8bf5399c, 0xbe8bdbae, EMPTY, 0, 12, 0xaeb5f9ac, 0x75bb9660, 0xaddcb303);
    Step(w, 0xbe8bdbae, 0xaddcb303, 0x18be2386, 0x8bf5399c, EMPTY, 0, 13, 0x0abd2b9e, 0xc949074c, 0xa483a664);
    Step(w, 0x8bf5399c, 0xa483a664, 0xaddcb303, 0x18be2386, EMPTY, 0, 14, 0xbcbca382, 0x48b1dd1e, 0x8ee8f245);
    Step(w, 0x18be2386, 0x8ee8f245, 0xa483a664, 0xaddcb303, EMPTY, 0, 15, 0xa594a346, 0xbe52c6cc, 0x3665f296);
  }

  lemma EmptyOne()
    ensures Operations(State(0x67452301, 0xefcdab89, 0x98badcfe, 0x10325476), EMPTY, 0, 16) ==
      State(0xaddcb303, 0x3665f296, 0x8ee8f245, 0xa483a664)
  {
    hide Operations, State;
    var w := State(0x67452301, 0xefcdab89, 0x98badcfe, 0x10325476);
    Begin(w, EMPTY, 0);
    EmptyOneA(w);
    EmptyOneB(w);
    EmptyOneC(w);
    EmptyOneD(w);
  }

  lemma EmptyTwoA(w: Words)
    requires Operations(w, EMPTY, 1, 0) == State(0xaddcb303, 0x3665f296, 0x8ee8f245, 0xa483a664)
    ensures Operations(w, EMPTY, 1, 4) == State(0x7a08fb05, 0x66cec932, 0x98bbca4f, 0xade24047)
  {
    hide Operation, Operations, State;
    Step(w, 0xaddcb303, 0x3665f296, 0x8ee8f245, 0xa483a664, EMPTY, 1, 0, 0xa6e1f244, 0xaf411f60, 0x7a08fb05);
    Step(w, 0xa483a664, 0x7a08fb05, 0x3665f296, 0x8ee8f245, EMPTY, 1, 1, 0x3e68f205, 0x3d6f1202, 0xade24047);
    Step(w, 0x8ee8f245, 0xade24047, 0x7a08fb05, 0x3665f296, EMPTY, 1, 2, 0x3e60f207, 0x27cc5de5, 0x98bbca4f);
    Step(w, 0x3665f296, 0x98bbca4f, 0xade24047, 0x7a08fb05, EMPTY, 1, 3, 0xb8aaca47, 0x49933676, 0x66cec932);
  }

  lemma EmptyTwoB(w: Words)
    requires Operations(w, EMPTY, 1, 4) == State(0x7a08fb05, 0x66cec932, 0x98bbca4f, 0xade24047)
    ensures Operations(w, EMPTY, 1, 8) == State(0x0bb1e72c, 0x3d0db9ec, 0x9e4a14b3, 0x6410a1c2)
  {
    hide Operation, Operations, State;
    Step(w, 0x7a08fb05, 0x66cec932, 0x98bbca4f, 0xade24047, EMPTY, 1, 4, 0xaceac847, 0x81763ce5, 0x0bb1e72c);
    Step(w, 0xade24047, 0x0bb1e72c, 0x66cec932, 0x98bbca4f, EMPTY, 1, 5, 0x0abbcb2e, 0x1320850e, 0x6410a1c2);
    Step(w, 0x98bbca4f, 0x6410a1c2, 0x0bb1e72c, 0x66cec932, EMPTY, 1, 6, 0x6690e122, 0x59cf250a, 0x9e4a14b3);
    Step(w, 0x66cec932, 0x9e4a14b3, 0x6410a1c2, 0x0bb1e72c, EMPTY, 1, 7, 0x0e10a5a2, 0xcf61e86d, 0x3d0db9ec);
  }

  lemma EmptyTwoC(w: Words)
    requires Operations(w, EMPTY, 1, 8) == State(0x0bb1e72c, 0x3d0db9ec, 0x9e4a14b3, 0x6410a1c2)
    ensures Operations(w, EMPTY, 1, 12) == State(0x11e8953d, 0xc8d84161, 0x727f1264, 0x7b76231b)
  {
    hide Operation, Operations, State;
    Step(w, 0x0bb1e72c, 0x3d0db9ec, 0x9e4a14b3, 0x6410a1c2, EMPTY, 1, 8, 0x3c08b1e2, 0xa23d12a7, 0x11e8953d);
    Step(w, 0x6410a1c2, 0x11e8953d, 0x3d0db9ec, 0x9e4a14b3, EMPTY, 1, 9, 0x1d4895bd, 0xdbdbb118, 0x7b76231b);
    Step(w, 0x9e4a14b3, 0x7b76231b, 0x11e8953d, 0x3d0db9ec, EMPTY, 1, 10, 0x396cb13d, 0x32393f89, 0x727f1264);
    Step(w, 0x3d0db9ec, 0x727f1264, 0x7b76231b, 0x11e8953d, EMPTY, 1, 11, 0x737e133d, 0x0b0e46c2, 0xc8d84161);
  }

  lemma EmptyTwoD(w: Words)
    requires Operations(w, EMPTY, 1, 12) == State(0x11e8953d, 0xc8d84161, 0x727f1264, 0x7b76231b)
    ensures Operations(w, EMPTY, 1, 16) == State(0x374891bf, 0x6f952b2e, 0xb49a4dae, 0x0a15c329)
  {
    hide Operation, Operations, State;
    Step(w, 0x11e8953d, 0xc8d84161, 0x727f1264, 0x7b76231b, EMPTY, 1, 12, 0x7a7e0361, 0xe6e91237, 0x374891bf);
    Step(w, 0x7b76231b, 0x374891bf, 0xc8d84161, 0x727f1264, EMPTY, 1, 13, 0x72581165, 0x4850ae19, 0x0a15c329);
    Step(w, 0x727f1264, 0x0a15c329, 0x374891bf, 0xc8d84161, EMPTY, 1, 14, 0x0a58c129, 0xd75a4d26, 0xb49a4dae);
    Step(w, 0xc8d84161, 0xb49a4dae, 0x0a15c329, 0x374891bf, EMPTY, 1, 15, 0x3618c1af, 0x59737ca9, 0x6f952b2e);
  }

  lemma EmptyTwo()
    ensures Operations(State(0xaddcb303, 0x3665f296, 0x8ee8f245, 0xa483a664), EMPTY, 1, 16) ==
      State(0x374891bf, 0x6f952b2e, 0xb49a4dae, 0x0a15c329)
  {
    hide Operations, State;
    var w := State(0xaddcb303, 0x3665f296, 0x8ee8f245, 0xa483a664);
    Begin(w, EMPTY, 1);
    EmptyTwoA(w);
    EmptyTwoB(w);
    EmptyTwoC(w);
    EmptyTwoD(w);
  }

  lemma EmptyThreeA(w: Words)
    requires Operations(w, EMPTY, 2, 0) == State(0x374891bf, 0x6f952b2e, 0xb49a4dae, 0x0a15c329)
    ensures Operations(w, EMPTY, 2, 4) == State(0xb9e91c4b, 0x28f076bd, 0x1ab10ced, 0xac532bb7)
  {
    hide Operation, Operations, State;
    Step(w, 0x374891bf, 0x6f952b2e, 0xb49a4dae, 0x0a15c329, EMPTY, 2, 0, 0xd11aa5a9, 0x773d2389, 0xb9e91c4b);
    Step(w, 0x0a15c329, 0xb9e91c4b, 0x6f952b2e, 0xb49a4dae, EMPTY, 2, 1, 0x62e67acb, 0xdbd62995, 0xac532bb7);
    Step(w, 0xb49a4dae, 0xac532bb7, 0xb9e91c4b, 0x6f952b2e, EMPTY, 2, 2, 0x7a2f1cd2, 0x9da35621, 0x1ab10ced);
    Step(w, 0x6f952b2e, 0x1ab10ced, 0xac532bb7, 0xb9e91c4b, EMPTY, 2, 3, 0x0f0b3b11, 0xed7a51e0, 0x28f076bd);
  }

  lemma EmptyThreeB(w: Words)
    requires Operations(w, EMPTY, 2, 4) == State(0xb9e91c4b, 0x28f076bd, 0x1ab10ced, 0xac532bb7)
    ensures Operations(w, EMPTY, 2, 8) == State(0x36aace9e, 0xb8b9000f, 0x6f678dca, 0x31984c40)
  {
    hide Operation, Operations, State;
    Step(w, 0xb9e91c4b, 0x28f076bd, 0x1ab10ced, 0xac532bb7, EMPTY, 2, 4, 0x9e1251e7, 0xc6d559d3, 0x36aace9e);
    Step(w, 0xac532bb7, 0x36aace9e, 0x28f076bd, 0x1ab10ced, EMPTY, 2, 5, 0x04ebb4ce, 0x2018cc26, 0x31984c40);
    Step(w, 0x1ab10ced, 0x31984c40, 0x36aace9e, 0x28f076bd, EMPTY, 2, 6, 0x2fc2f463, 0xb94decf1, 0x6f678dca);
    Step(w, 0x28f076bd, 0x6f678dca, 0x31984c40, 0x36aace9e, EMPTY, 2, 7, 0x68550f14, 0x001f7172, 0xb8b9000f);
  }

  lemma EmptyThreeC(w: Words)
    requires Operations(w, EMPTY, 2, 8) == State(0x36aace9e, 0xb8b9000f, 0x6f678dca, 0x31984c40)
    ensures Operations(w, EMPTY, 2, 12) == State(0x5e5bde24, 0x187317b3, 0xb69f1f41, 0xef178453)
  {
    hide Operation, Operations, State;
    Step(w, 0x36aace9e, 0xb8b9000f, 0x6f678dca, 0x31984c40, EMPTY, 2, 8, 0xe646c185, 0x8bcb7bc4, 0x5e5bde24);
    Step(w, 0x31984c40, 0x5e5bde24, 0xb8b9000f, 0x6f678dca, EMPTY, 2, 9, 0x898553e1, 0x29f78bc2, 0xef178453);
    Step(w, 0x6f678dca, 0xef178453, 0x5e5bde24, 0xb8b9000f, EMPTY, 2, 10, 0x09f55a78, 0xe836d3e3, 0xb69f1f41);
    Step(w, 0xb8b9000f, 0xb69f1f41, 0xef178453, 0x5e5bde24, EMPTY, 2, 11, 0x07d34536, 0x2f6630e6, 0x187317b3);
  }

  lemma EmptyThreeD(w: Words)
    requires Operations(w, EMPTY, 2, 12) == State(0x5e5bde24, 0x187317b3, 0xb69f1f41, 0xef178453)
    ensures Operations(w, EMPTY, 2, 16) == State(0x798ab330, 0x421bbf48, 0x3e9e5fb9, 0xb0576c6a)
  {
    hide Operation, Operations, State;
    Step(w, 0x5e5bde24, 0x187317b3, 0xb69f1f41, 0xef178453, EMPTY, 2, 12, 0x41fb8ca1, 0x0f315666, 0x798ab330);
    Step(w, 0xef178453, 0x798ab330, 0x187317b3, 0xb69f1f41, EMPTY, 2, 13, 0xd766bbc2, 0x35582bb6, 0xb0576c6a);
    Step(w, 0xb69f1f41, 0xb0576c6a, 0x798ab330, 0x187317b3, EMPTY, 2, 14, 0xd1aec8e9, 0xf727d3cb, 0x3e9e5fb9);
    Step(w, 0x187317b3, 0x3e9e5fb9, 0xb0576c6a, 0x798ab330, EMPTY, 2, 15, 0xf74380e3, 0x7e908437, 0x421bbf48);
  }

  lemma EmptyThree()
    ensures Operations(State(0x374891bf, 0x6f952b2e, 0xb49a4dae, 0x0a15c329), EMPTY, 2, 16) ==
      State(0x798ab330, 0x421bbf48, 0x3e9e5fb9, 0xb0576c6a)
  {
    hide Operations, State;
    var w := State(0x374891bf, 0x6f952b2e, 0xb49a4dae, 0x0a15c329);
    Begin(w, EMPTY, 2);
    EmptyThreeA(w);
    EmptyThreeB(w);
    EmptyThreeC(w);
    EmptyThreeD(w);
  }

  lemma EmptyRounds()
    ensures Rounds(State(0x67452301, 0xefcdab89, 0x98badcfe, 0x10325476), EMPTY) ==
      State(0x798ab330, 0x421bbf48, 0x3e9e5fb9, 0xb0576c6a)
  {
    hide Operations, State;
    EmptyOne();
    EmptyTwo();
    EmptyThree();
  }

  // ----- The message of two blocks -----

  const FIRST: seq<word> := [
    0x44434241, 0x48474645, 0x4c4b4a49, 0x504f4e4d, 0x54535251, 0x58575655, 0x62615a59, 0x66656463,
    0x6a696867, 0x6e6d6c6b, 0x7271706f, 0x76757473, 0x7a797877, 0x33323130, 0x37363534, 0x00803938]

  const SECOND: seq<word> := [
    0, 0, 0, 0, 0, 0, 0, 0,
    0, 0, 0, 0, 0, 0, 0x000001f0, 0]

  lemma FirstOneA(w: Words)
    requires Operations(w, FIRST, 0, 0) == State(0x67452301, 0xefcdab89, 0x98badcfe, 0x10325476)
    ensures Operations(w, FIRST, 0, 4) == State(0x221a1202, 0xa2f68168, 0xfaca3a9e, 0x9134db89)
  {
    hide Operation, Operations, State;
    Step(w, 0x67452301, 0xefcdab89, 0x98badcfe, 0x10325476, FIRST, 0, 0, 0x98badcfe, 0x44434240, 0x221a1202);
    Step(w, 0x10325476, 0x221a1202, 0xefcdab89, 0x98badcfe, FIRST, 0, 1, 0xbaa8cefc, 0x132269b7, 0x9134db89);
    Step(w, 0x98badcfe, 0x9134db89, 0x221a1202, 0xefcdab89, FIRST, 0, 2, 0x6ed93200, 0x53df5947, 0xfaca3a9e);
    Step(w, 0xefcdab89, 0xfaca3a9e, 0x9134db89, 0x221a1202, FIRST, 0, 3, 0x90101a88, 0xd02d145e, 0xa2f68168);
  }

  lemma FirstOneB(w: Words)
    requires Operations(w, FIRST, 0, 4) == State(0x221a1202, 0xa2f68168, 0xfaca3a9e, 0x9134db89)
    ensures Operations(w, FIRST, 0, 8) == State(0x517df6e1, 0xa59a55ca, 0x59e2ba09, 0x415d2e4a)
  {
    hide Operation, Operations, State;
    Step(w, 0x221a1202, 0xa2f68168, 0xfaca3a9e, 0x9134db89, FIRST, 0, 4, 0xb3c25a89, 0x2a2fbedc, 0x517df6e1);
    Step(w, 0x9134db89, 0x517df6e1, 0xa2f68168, 0xfaca3a9e, FIRST, 0, 5, 0xaaf6887e, 0x9482ba5c, 0x415d2e4a);
    Step(w, 0xfaca3a9e, 0x415d2e4a, 0x517df6e1, 0xa2f68168, FIRST, 0, 6, 0xe3ffa760, 0x412b3c57, 0x59e2ba09);
    Step(w, 0xa2f68168, 0x59e2ba09, 0x415d2e4a, 0x517df6e1, FIRST, 0, 7, 0x415d6ee8, 0x4ab954b3, 0xa59a55ca);
  }

  lemma FirstOneC(w: Words)
    requires Operations(w, FIRST, 0, 8) == State(0x517df6e1, 0xa59a55ca, 0x59e2ba09, 0x415d2e4a)
    ensures Operations(w, FIRST, 0, 12) == State(0xed74ca87, 0x2e185725, 0x97aa13cb, 0xae859fb2)
  {
    hide Operation, Operations, State;
    Step(w, 0x517df6e1, 0xa59a55ca, 0x59e2ba09, 0x415d2e4a, FIRST, 0, 8, 0x41c73a08, 0xfdae9950, 0xed74ca87);
    Step(w, 0x415d2e4a, 0xed74ca87, 0xa59a55ca, 0x59e2ba09, FIRST, 0, 9, 0xb592708a, 0x655d0b3f, 0xae859fb2);
    Step(w, 0x59e2ba09, 0xae859fb2, 0xed74ca87, 0xa59a55ca, FIRST, 0, 10, 0xad1ecaca, 0x7972f542, 0x97aa13cb);
    Step(w, 0xa59a55ca, 0x97aa13cb, 0xae859fb2, 0xed74ca87, FIRST, 0, 11, 0xeed4db86, 0x0ae4a5c3, 0x2e185725);
  }

  lemma FirstOneD(w: Words)
    requires Operations(w, FIRST, 0, 12) == State(0xed74ca87, 0x2e185725, 0x97aa13cb, 0xae859fb2)
    ensures Operations(w, FIRST, 0, 16) == State(0x73def48f, 0x37410d7b, 0xe4ed3227, 0xf81413c3)
  {
    hide Operation, Operations, State;
    Step(w, 0xed74ca87, 0x2e185725, 0x97aa13cb, 0xae859fb2, FIRST, 0, 12, 0x868d9b93, 0xee7bde91, 0x73def48f);
    Step(w, 0xae859fb2, 0x73def48f, 0x2e185725, 0x97aa13cb, FIRST, 0, 13, 0xa6385745, 0x87f02827, 0xf81413c3);
    Step(w, 0x97aa13cb, 0xf81413c3, 0x73def48f, 0x2e185725, FIRST, 0, 14, 0x761c54a7, 0x44fc9da6, 0xe4ed3227);
    Step(w, 0x2e185725, 0xe4ed3227, 0xf81413c3, 0x73def48f, FIRST, 0, 15, 0xf316d68b, 0x21af66e8, 0x37410d7b);
  }

  lemma FirstOne()
    ensures Operations(State(0x67452301, 0xefcdab89, 0x98badcfe, 0x10325476), FIRST, 0, 16) ==
      State(0x73def48f, 0x37410d7b, 0xe4ed3227, 0xf81413c3)
  {
    hide Operations, State;
    var w := State(0x67452301, 0xefcdab89, 0x98badcfe, 0x10325476);
    Begin(w, FIRST, 0);
    FirstOneA(w);
    FirstOneB(w);
    FirstOneC(w);
    FirstOneD(w);
  }

  lemma FirstTwoA(w: Words)
    requires Operations(w, FIRST, 1, 0) == State(0x73def48f, 0x37410d7b, 0xe4ed3227, 0xf81413c3)
    ensures Operations(w, FIRST, 1, 4) == State(0x374e1e60, 0x88b9ac51, 0x504545c2, 0xc6dfc21b)
  {
    hide Operation, Operations, State;
    Step(w, 0x73def48f, 0x37410d7b, 0xe4ed3227, 0xf81413c3, FIRST, 1, 0, 0xf4451363, 0x06e9c3cc, 0x374e1e60);
    Step(w, 0xf81413c3, 0x374e1e60, 0x37410d7b, 0xe4ed3227, FIRST, 1, 1, 0x374d1e63, 0xde36fe10, 0xc6dfc21b);
    Step(w, 0xe4ed3227, 0xc6dfc21b, 0x374e1e60, 0x37410d7b, FIRST, 1, 2, 0x374f0e7b, 0xe12822a2, 0x504545c2);
    Step(w, 0x37410d7b, 0x504545c2, 0xc6dfc21b, 0x374e1e60, FIRST, 1, 3, 0x564f4642, 0x628c45cd, 0x88b9ac51);
  }

  lemma FirstTwoB(w: Words)
    requires Operations(w, FIRST, 1, 4) == State(0x374e1e60, 0x88b9ac51, 0x504545c2, 0xc6dfc21b)
    ensures Operations(w, FIRST, 1, 8) == State(0xd7ad148c, 0xbe947e7f, 0xdd8f9fcb, 0x4cd2d929)
  {
    hide Operation, Operations, State;
    Step(w, 0x374e1e60, 0x88b9ac51, 0x504545c2, 0xc6dfc21b, FIRST, 1, 4, 0xc0ddc453, 0x9af5a291, 0xd7ad148c);
    Step(w, 0xc6dfc21b, 0xd7ad148c, 0x88b9ac51, 0x504545c2, FIRST, 1, 5, 0xd0ad04c0, 0x4a6696c9, 0x4cd2d929);
    Step(w, 0x504545c2, 0x4cd2d929, 0xd7ad148c, 0x88b9ac51, FIRST, 1, 6, 0xccb99c09, 0xe5eec7cf, 0xdd8f9fcb);
    Step(w, 0x88b9ac51, 0xdd8f9fcb, 0x4cd2d929, 0xd7ad148c, FIRST, 1, 7, 0xdd8f9d89, 0xf3fdf4a3, 0xbe947e7f);
  }

  lemma FirstTwoC(w: Words)
    requires Operations(w, FIRST, 1, 8) == State(0xd7ad148c, 0xbe947e7f, 0xdd8f9fcb, 0x4cd2d929)
    ensures Operations(w, FIRST, 1, 12) == State(0xd88dbeca, 0x5583431b, 0x22116306, 0xc88d7cdc)
  {
    hide Operation, Operations, State;
    Step(w, 0xd7ad148c, 0xbe947e7f, 0xdd8f9fcb, 0x4cd2d929, FIRST, 1, 8, 0xdc96df6b, 0x5b11b7d9, 0xd88dbeca);
    Step(w, 0x4cd2d929, 0xd88dbeca, 0xbe947e7f, 0xdd8f9fcb, FIRST, 1, 9, 0xdc8dbecb, 0xe6446be6, 0xc88d7cdc);
    Step(w, 0xdd8f9fcb, 0xc88d7cdc, 0xd88dbeca, 0xbe947e7f, FIRST, 1, 10, 0xd88d7ede, 0x831108b1, 0x22116306);
    Step(w, 0xbe947e7f, 0x22116306, 0xc88d7cdc, 0xd88dbeca, FIRST, 1, 11, 0xc88d7ece, 0x18daac1a, 0x5583431b);
  }

  lemma FirstTwoD(w: Words)
    requires Operations(w, FIRST, 1, 12) == State(0xd88dbeca, 0x5583431b, 0x22116306, 0xc88d7cdc)
    ensures Operations(w, FIRST, 1, 16) == State(0x1f074e76, 0x3a4c19f1, 0x1940d024, 0x0f13bdd4)
  {
    hide Operation, Operations, State;
    Step(w, 0xd88dbeca, 0x5583431b, 0x22116306, 0xc88d7cdc, FIRST, 1, 12, 0x4081631e, 0xc3e0e9ce, 0x1f074e76);
    Step(w, 0xc88d7cdc, 0x1f074e76, 0x5583431b, 0x22116306, FIRST, 1, 13, 0x17034316, 0xa0789dee, 0x0f13bdd4);
    Step(w, 0x22116306, 0x0f13bdd4, 0x1f074e76, 0x5583431b, FIRST, 1, 14, 0x1f034f56, 0x120ca068, 0x1940d024);
    Step(w, 0x5583431b, 0x1940d024, 0x0f13bdd4, 0x1f074e76, FIRST, 1, 15, 0x1f03dc74, 0xcf89d260, 0x3a4c19f1);
  }

  lemma FirstTwo()
    ensures Operations(State(0x73def48f, 0x37410d7b, 0xe4ed3227, 0xf81413c3), FIRST, 1, 16) ==
      State(0x1f074e76, 0x3a4c19f1, 0x1940d024, 0x0f13bdd4)
  {
    hide Operations, State;
    var w := State(0x73def48f, 0x37410d7b, 0xe4ed3227, 0xf81413c3);
    Begin(w, FIRST, 1);
    FirstTwoA(w);
    FirstTwoB(w);
    FirstTwoC(w);
    FirstTwoD(w);
  }

  lemma FirstThreeA(w: Words)
    requires Operations(w, FIRST, 2, 0) == State(0x1f074e76, 0x3a4c19f1, 0x1940d024, 0x0f13bdd4)
    ensures Operations(w, FIRST, 2, 4) == State(0xf21f82cf, 0x7b400312, 0xc42317ca, 0xd4b9ed72)
  {
    hide Operation, Operations, State;
    Step(w, 0x1f074e76, 0x3a4c19f1, 0x1940d024, 0x0f13bdd4, FIRST, 2, 0, 0x2c1f7401, 0xfe43f059, 0xf21f82cf);
    Step(w, 0x0f13bdd4, 0xf21f82cf, 0x3a4c19f1, 0x1940d024, FIRST, 2, 1, 0xd1134b1a, 0xb96a5cf6, 0xd4b9ed72);
    Step(w, 0x1940d024, 0xd4b9ed72, 0xf21f82cf, 0x3a4c19f1, FIRST, 2, 2, 0x1cea764c, 0xf9588462, 0xc42317ca);
    Step(w, 0x3a4c19f1, 0xc42317ca, 0xd4b9ed72, 0xf21f82cf, FIRST, 2, 3, 0xe2857877, 0x0624f680, 0x7b400312);
  }

  lemma FirstThreeB(w: Words)
    requires Operations(w, FIRST, 2, 4) == State(0xf21f82cf, 0x7b400312, 0xc42317ca, 0xd4b9ed72)
    ensures Operations(w, FIRST, 2, 8) == State(0xc8fd9318, 0xef77c30f, 0xeb90ac4b, 0x47a2845b)
  {
    hide Operation, Operations, State;
    Step(w, 0xf21f82cf, 0x7b400312, 0xc42317ca, 0xd4b9ed72, FIRST, 2, 4, 0x6bdaf9aa, 0x191fb263, 0xc8fd9318);
    Step(w, 0xd4b9ed72, 0xc8fd9318, 0x7b400312, 0xc42317ca, FIRST, 2, 5, 0x779e87c0, 0x2da3d142, 0x47a2845b);
    Step(w, 0xc42317ca, 0x47a2845b, 0xc8fd9318, 0x7b400312, FIRST, 2, 6, 0xf41f1451, 0x897d7215, 0xeb90ac4b);
    Step(w, 0x7b400312, 0xeb90ac4b, 0x47a2845b, 0xc8fd9318, FIRST, 2, 7, 0x64cfbb08, 0x861fdeef, 0xef77c30f);
  }

  lemma FirstThreeC(w: Words)
    requires Operations(w, FIRST, 2, 8) == State(0xc8fd9318, 0xef77c30f, 0xeb90ac4b, 0x47a2845b)
    ensures Operations(w, FIRST, 2, 12) == State(0x1b2580ee, 0x64a1d922, 0x627d4b04, 0x59982289)
  {
    hide Operation, Operations, State;
    Step(w, 0xc8fd9318, 0xef77c30f, 0xeb90ac4b, 0x47a2845b, FIRST, 2, 8, 0x4345eb1f, 0xc364b01d, 0x1b2580ee);
    Step(w, 0x47a2845b, 0x1b2580ee, 0xef77c30f, 0xeb90ac4b, FIRST, 2, 9, 0x1fc2efaa, 0x44accc11, 0x59982289);
    Step(w, 0xeb90ac4b, 0x59982289, 0x1b2580ee, 0xef77c30f, FIRST, 2, 10, 0xadca6168, 0x608c4fa9, 0x627d4b04);
    Step(w, 0xef77c30f, 0x627d4b04, 0x59982289, 0x1b2580ee, FIRST, 2, 11, 0x20c0e963, 0xb244c943, 0x64a1d922);
  }

  lemma FirstThreeD(w: Words)
    requires Operations(w, FIRST, 2, 12) == State(0x1b2580ee, 0x64a1d922, 0x627d4b04, 0x59982289)
    ensures Operations(w, FIRST, 2, 16) == State(0xcc9b5c59, 0x759a067b, 0xaac38972, 0x5ea23812)
  {
    hide Operation, Operations, State;
    Step(w, 0x1b2580ee, 0x64a1d922, 0x627d4b04, 0x59982289, FIRST, 2, 12, 0x5f44b0af, 0x39936b8b, 0xcc9b5c59);
    Step(w, 0x59982289, 0xcc9b5c59, 0x64a1d922, 0x627d4b04, FIRST, 2, 13, 0xca47ce7f, 0x092f511c, 0x5ea23812);
    Step(w, 0x627d4b04, 0x5ea23812, 0xcc9b5c59, 0x64a1d922, FIRST, 2, 14, 0xf698bd69, 0x2e555871, 0xaac38972);
    Step(w, 0x64a1d922, 0xaac38972, 0x5ea23812, 0xcc9b5c59, FIRST, 2, 15, 0x38faed39, 0x0cf6eb34, 0x759a067b);
  }

  lemma FirstThree()
    ensures Operations(State(0x1f074e76, 0x3a4c19f1, 0x1940d024, 0x0f13bdd4), FIRST, 2, 16) ==
      State(0xcc9b5c59, 0x759a067b, 0xaac38972, 0x5ea23812)
  {
    hide Operations, State;
    var w := State(0x1f074e76, 0x3a4c19f1, 0x1940d024, 0x0f13bdd4);
    Begin(w, FIRST, 2);
    FirstThreeA(w);
    FirstThreeB(w);
    FirstThreeC(w);
    FirstThreeD(w);
  }

  lemma FirstRounds()
    ensures Rounds(State(0x67452301, 0xefcdab89, 0x98badcfe, 0x10325476), FIRST) ==
      State(0xcc9b5c59, 0x759a067b, 0xaac38972, 0x5ea23812)
  {
    hide Operations, State;
    FirstOne();
    FirstTwo();
    FirstThree();
  }

  lemma SecondOneA(w: Words)
    requires Operations(w, SECOND, 0, 0) == State(0x33e07f5a, 0x6567b204, 0x437e6670, 0x6ed48c88)
    ensures Operations(w, SECOND, 0, 4) == State(0xfeb56f13, 0x82b711f9, 0xa263b541, 0x21d7746a)
  {
    hide Operation, Operations, State;
    Step(w, 0x33e07f5a, 0x6567b204, 0x437e6670, 0x6ed48c88, SECOND, 0, 0, 0x4bf62e88, 0x7fd6ade2, 0xfeb56f13);
    Step(w, 0x6ed48c88, 0xfeb56f13, 0x6567b204, 0x437e6670, SECOND, 0, 1, 0x656f2260, 0xd443aee8, 0x21d7746a);
    Step(w, 0x437e6670, 0x21d7746a, 0xfeb56f13, 0x6567b204, SECOND, 0, 2, 0x64b5e606, 0xa8344c76, 0xa263b541);
    Step(w, 0x6567b204, 0xa263b541, 0x21d7746a, 0xfeb56f13, SECOND, 0, 3, 0x7cd77e52, 0xe23f3056, 0x82b711f9);
  }

  lemma SecondOneB(w: Words)
    requires Operations(w, SECOND, 0, 4) == State(0xfeb56f13, 0x82b711f9, 0xa263b541, 0x21d7746a)
    ensures Operations(w, SECOND, 0, 8) == State(0x10c722b5, 0xacf4d3e1, 0xd72fd198, 0x3f852de2)
  {
    hide Operation, Operations, State;
    Step(w, 0xfeb56f13, 0x82b711f9, 0xa263b541, 0x21d7746a, SECOND, 0, 4, 0xa3637543, 0xa218e456, 0x10c722b5);
    Step(w, 0x21d7746a, 0x10c722b5, 0x82b711f9, 0xa263b541, SECOND, 0, 5, 0xa2a795f1, 0xc47f0a5b, 0x3f852de2);
    Step(w, 0xa263b541, 0x3f852de2, 0x10c722b5, 0x82b711f9, SECOND, 0, 6, 0x90b730b9, 0x331ae5fa, 0xd72fd198);
    Step(w, 0x82b711f9, 0xd72fd198, 0x3f852de2, 0x10c722b5, SECOND, 0, 7, 0x17c523a5, 0x9a7c359e, 0xacf4d3e1);
  }

  lemma SecondOneC(w: Words)
    requires Operations(w, SECOND, 0, 8) == State(0x10c722b5, 0xacf4d3e1, 0xd72fd198, 0x3f852de2)
    ensures Operations(w, SECOND, 0, 12) == State(0x3f6901bd, 0xabf55310, 0xc72c68a4, 0xf5ffc195)
  {
    hide Operation, Operations, State;
    Step(w, 0x10c722b5, 0xacf4d3e1, 0xd72fd198, 0x3f852de2, SECOND, 0, 8, 0x9725fd82, 0xa7ed2037, 0x3f6901bd);
    Step(w, 0x3f852de2, 0x3f6901bd, 0xacf4d3e1, 0xd72fd198, SECOND, 0, 9, 0xec66d1a1, 0x2bebff83, 0xf5ffc195);
    Step(w, 0xd72fd198, 0xf5ffc195, 0x3f6901bd, 0xacf4d3e1, SECOND, 0, 10, 0x3d6913f5, 0x1498e58d, 0xc72c68a4);
    Step(w, 0xacf4d3e1, 0xc72c68a4, 0xf5ffc195, 0x3f6901bd, SECOND, 0, 11, 0xfd6d419d, 0xaa62157e, 0xabf55310);
  }

  lemma SecondOneD(w: Words)
    requires Operations(w, SECOND, 0, 12) == State(0x3f6901bd, 0xabf55310, 0xc72c68a4, 0xf5ffc195)
    ensures Operations(w, SECOND, 0, 16) == State(0xb4be1210, 0x1f45209c, 0x5ded23c9, 0xda1e24ec)
  {
    hide Operation, Operations, State;
    Step(w, 0x3f6901bd, 0xabf55310, 0xc72c68a4, 0xf5ffc195, SECOND, 0, 12, 0xd72ec085, 0x1697c242, 0xb4be1210);
    Step(w, 0xf5ffc195, 0xb4be1210, 0xabf55310, 0xc72c68a4, SECOND, 0, 13, 0xe3b47ab4, 0xd9b43c49, 0xda1e24ec);
    Step(w, 0xc72c68a4, 0xda1e24ec, 0xb4be1210, 0xabf55310, SECOND, 0, 14, 0xb1ff5310, 0x792bbda4, 0x5ded23c9);
    Step(w, 0xabf55310, 0x5ded23c9, 0xda1e24ec, 0xb4be1210, SECOND, 0, 15, 0xf81e30d8, 0xa41383e8, 0x1f45209c);
  }

  lemma SecondOne()
    ensures Operations(State(0x33e07f5a, 0x6567b204, 0x437e6670, 0x6ed48c88), SECOND, 0, 16) ==
      State(0xb4be1210, 0x1f45209c, 0x5ded23c9, 0xda1e24ec)
  {
    hide Operations, State;
    var w := State(0x33e07f5a, 0x6567b204, 0x437e6670, 0x6ed48c88);
    Begin(w, SECOND, 0);
    SecondOneA(w);
    SecondOneB(w);
    SecondOneC(w);
    SecondOneD(w);
  }

  lemma SecondTwoA(w: Words)
    requires Operations(w, SECOND, 1, 0) == State(0xb4be1210, 0x1f45209c, 0x5ded23c9, 0xda1e24ec)
    ensures Operations(w, SECOND, 1, 4) == State(0x746d63ab, 0x9f7a1d78, 0xb9fdf81b, 0x41b841d2)
  {
    hide Operation, Operations, State;
    Step(w, 0xb4be1210, 0x1f45209c, 0x5ded23c9, 0xda1e24ec, SECOND, 1, 0, 0x5f4d20cc, 0x6e8dac75, 0x746d63ab);
    Step(w, 0xda1e24ec, 0x746d63ab, 0x1f45209c, 0x5ded23c9, SECOND, 1, 1, 0x5d6d2389, 0x920dc20e, 0x41b841d2);
    Step(w, 0x5ded23c9, 0x41b841d2, 0x746d63ab, 0x1f45209c, SECOND, 1, 2, 0x556d619a, 0x0ddcfefc, 0xb9fdf81b);
    Step(w, 0x1f45209c, 0xb9fdf81b, 0x41b841d2, 0x746d63ab, SECOND, 1, 3, 0x71fd619b, 0xebc4fbd0, 0x9f7a1d78);
  }

  lemma SecondTwoB(w: Words)
    requires Operations(w, SECOND, 1, 4) == State(0x746d63ab, 0x9f7a1d78, 0xb9fdf81b, 0x41b841d2)
    ensures Operations(w, SECOND, 1, 8) == State(0x4741b4f3, 0x527d0a09, 0x965d4ed7, 0x768efcc7)
  {
    hide Operation, Operations, State;
    Step(w, 0x746d63ab, 0x9f7a1d78, 0xb9fdf81b, 0x41b841d2, SECOND, 1, 4, 0x99f8595a, 0x68e8369e, 0x4741b4f3);
    Step(w, 0x41b841d2, 0x4741b4f3, 0x9f7a1d78, 0xb9fdf81b, SECOND, 1, 5, 0x9f79bc7b, 0x3bb477e6, 0x768efcc7);
    Step(w, 0xb9fdf81b, 0x768efcc7, 0x4741b4f3, 0x9f7a1d78, SECOND, 1, 6, 0x574abcf3, 0x6bcb2ea7, 0x965d4ed7);
    Step(w, 0x9f7a1d78, 0x965d4ed7, 0x768efcc7, 0x4741b4f3, SECOND, 1, 7, 0x564dfcd7, 0x504a93e8, 0x527d0a09);
  }

  lemma SecondTwoC(w: Words)
    requires Operations(w, SECOND, 1, 8) == State(0x4741b4f3, 0x527d0a09, 0x965d4ed7, 0x768efcc7)
    ensures Operations(w, SECOND, 1, 12) == State(0xc10bea9f, 0x3410c1d1, 0x71a61a64, 0x6dd81ff4)
  {
    hide Operation, Operations, State;
    Step(w, 0x4741b4f3, 0x527d0a09, 0x965d4ed7, 0x768efcc7, SECOND, 1, 8, 0x565d4ec7, 0xf8217d53, 0xc10bea9f);
    Step(w, 0x768efcc7, 0xc10bea9f, 0x527d0a09, 0x965d4ed7, SECOND, 1, 9, 0xd25d4a9f, 0xa36ec0ff, 0x6dd81ff4);
    Step(w, 0x965d4ed7, 0x6dd81ff4, 0xc10bea9f, 0x527d0a09, SECOND, 1, 10, 0x41590a9d, 0x3238d30d, 0x71a61a64);
    Step(w, 0x527d0a09, 0x71a61a64, 0x6dd81ff4, 0xc10bea9f, SECOND, 1, 11, 0x618a1af4, 0x0e89a086, 0x3410c1d1);
  }

  lemma SecondTwoD(w: Words)
    requires Operations(w, SECOND, 1, 12) == State(0xc10bea9f, 0x3410c1d1, 0x71a61a64, 0x6dd81ff4)
    ensures Operations(w, SECOND, 1, 16) == State(0x88f40164, 0xb01ce610, 0xf1aae5d9, 0x21d35e3f)
  {
    hide Operation, Operations, State;
    Step(w, 0xc10bea9f, 0x3410c1d1, 0x71a61a64, 0x6dd81ff4, SECOND, 1, 12, 0x75901bf4, 0x911e802c, 0x88f40164);
    Step(w, 0x6dd81ff4, 0x88f40164, 0x3410c1d1, 0x71a61a64, SECOND, 1, 13, 0x30b40164, 0xf90e9af1, 0x21d35e3f);
    Step(w, 0x71a61a64, 0x21d35e3f, 0x88f40164, 0x3410c1d1, SECOND, 1, 14, 0x20d04175, 0xecf8d572, 0xf1aae5d9);
    Step(w, 0x3410c1d1, 0xf1aae5d9, 0x21d35e3f, 0x88f40164, SECOND, 1, 15, 0xa1f2457d, 0x308580e7, 0xb01ce610);
  }

  lemma SecondTwo()
    ensures Operations(State(0xb4be1210, 0x1f45209c, 0x5ded23c9, 0xda1e24ec), SECOND, 1, 16) ==
      State(0x88f40164, 0xb01ce610, 0xf1aae5d9, 0x21d35e3f)
  {
    hide Operations, State;
    var w := State(0xb4be1210, 0x1f45209c, 0x5ded23c9, 0xda1e24ec);
    Begin(w, SECOND, 1);
    SecondTwoA(w);
    SecondTwoB(w);
    SecondTwoC(w);
    SecondTwoD(w);
  }

  lemma SecondThreeA(w: Words)
    requires Operations(w, SECOND, 2, 0) == State(0x88f40164, 0xb01ce610, 0xf1aae5d9, 0x21d35e3f)
    ensures Operations(w, SECOND, 2, 4) == State(0xc19a57da, 0xb5494170, 0x114b291a, 0xb33be621)
  {
    hide Operation, Operations, State;
    Step(w, 0x88f40164, 0xb01ce610, 0xf1aae5d9, 0x21d35e3f, SECOND, 2, 0, 0x60655df6, 0x58334afb, 0xc19a57da);
    Step(w, 0x21d35e3f, 0xc19a57da, 0xb01ce610, 0xf1aae5d9, SECOND, 2, 1, 0x802c5413, 0x10d99df3, 0xb33be621);
    Step(w, 0xf1aae5d9, 0xb33be621, 0xc19a57da, 0xb01ce610, SECOND, 2, 2, 0xc2bd57eb, 0x23422965, 0x114b291a);
    Step(w, 0xb01ce610, 0x114b291a, 0xb33be621, 0xc19a57da, SECOND, 2, 3, 0x63ea98e1, 0x82e16a92, 0xb5494170);
  }

  lemma SecondThreeB(w: Words)
    requires Operations(w, SECOND, 2, 4) == State(0xc19a57da, 0xb5494170, 0x114b291a, 0xb33be621)
    ensures Operations(w, SECOND, 2, 8) == State(0x3d6e8e32, 0x3517fa46, 0xe877806b, 0x05703577)
  {
    hide Operation, Operations, State;
    Step(w, 0xc19a57da, 0xb5494170, 0x114b291a, 0xb33be621, SECOND, 2, 4, 0x17398e4b, 0x47add1c6, 0x3d6e8e32);
    Step(w, 0xb33be621, 0x3d6e8e32, 0xb5494170, 0x114b291a, SECOND, 2, 5, 0x996ce658, 0xbb82b81a, 0x05703577);
    Step(w, 0x114b291a, 0x05703577, 0x3d6e8e32, 0xb5494170, SECOND, 2, 6, 0x8d57fa35, 0x0d7d0ef0, 0xe877806b);
    Step(w, 0xb5494170, 0xe877806b, 0x05703577, 0x3d6e8e32, SECOND, 2, 7, 0xd0693b2e, 0xf48c6a2f, 0x3517fa46);
  }

  lemma SecondThreeC(w: Words)
    requires Operations(w, SECOND, 2, 8) == State(0x3d6e8e32, 0x3517fa46, 0xe877806b, 0x05703577)
    ensures Operations(w, SECOND, 2, 12) == State(0x22c6496c, 0x0bf21a79, 0x536eca76, 0xe0a8b2e7)
  {
    hide Operation, Operations, State;
    Step(w, 0x3d6e8e32, 0x3517fa46, 0xe877806b, 0x05703577, SECOND, 2, 8, 0xd8104f5a, 0x8458c92d, 0x22c6496c);
    Step(w, 0x05703577, 0x22c6496c, 0x3517fa46, 0xe877806b, SECOND, 2, 9, 0xffa63341, 0x73f05459, 0xe0a8b2e7);
    Step(w, 0xe877806b, 0xe0a8b2e7, 0x22c6496c, 0x3517fa46, SECOND, 2, 10, 0xf77901cd, 0x4eca6dd9, 0x536eca76);
    Step(w, 0x3517fa46, 0x536eca76, 0xe0a8b2e7, 0x22c6496c, SECOND, 2, 11, 0x910031fd, 0x34f217e4, 0x0bf21a79);
  }

  lemma SecondThreeD(w: Words)
    requires Operations(w, SECOND, 2, 12) == State(0x22c6496c, 0x0bf21a79, 0x536eca76, 0xe0a8b2e7)
    ensures Operations(w, SECOND, 2, 16) == State(0x4ea4bfaa, 0xd0738fee, 0x9da97fac, 0x761c5acb)
  {
    hide Operation, Operations, State;
    Step(w, 0x22c6496c, 0x0bf21a79, 0x536eca76, 0xe0a8b2e7, SECOND, 2, 12, 0xb83462e8, 0x49d497f5, 0x4ea4bfaa);
    Step(w, 0xe0a8b2e7, 0x4ea4bfaa, 0x0bf21a79, 0x536eca76, SECOND, 2, 13, 0x16386fa5, 0x65bb0e2d, 0x761c5acb);
    Step(w, 0x536eca76, 0x761c5acb, 0x4ea4bfaa, 0x0bf21a79, SECOND, 2, 14, 0x334aff18, 0xf593b52f, 0x9da97fac);
    Step(w, 0x0bf21a79, 0x9da97fac, 0x761c5acb, 0x4ea4bfaa, SECOND, 2, 15, 0xa5119acd, 0x1fdda0e7, 0xd0738fee);
  }

  lemma SecondThree()
    ensures Operations(State(0x88f40164, 0xb01ce610, 0xf1aae5d9, 0x21d35e3f), SECOND, 2, 16) ==
      State(0x4ea4bfaa, 0xd0738fee, 0x9da97fac, 0x761c5acb)
  {
    hide Operations, State;
    var w := State(0x88f40164, 0xb01ce610, 0xf1aae5d9, 0x21d35e3f);
    Begin(w, SECOND, 2);
    SecondThreeA(w);
    SecondThreeB(w);
    SecondThreeC(w);
    SecondThreeD(w);
  }

  lemma SecondRounds()
    ensures Rounds(State(0x33e07f5a, 0x6567b204, 0x437e6670, 0x6ed48c88), SECOND) ==
      State(0x4ea4bfaa, 0xd0738fee, 0x9da97fac, 0x761c5acb)
  {
    hide Operations, State;
    SecondOne();
    SecondTwo();
    SecondThree();
  }

  lemma EmptyCompressed(block: seq<byte>)
    requires |block| == 64 && BlockWords(block) == EMPTY
    ensures Compress(Words(0x67452301, 0xefcdab89, 0x98badcfe, 0x10325476), block) ==
      Words(0xe0cfd631, 0x31e96ad1, 0xd7593cb7, 0xc089c0e0)
  {
    hide Rounds, BlockWords;
    EmptyRounds();
    assert State(0x67452301, 0xefcdab89, 0x98badcfe, 0x10325476) ==
      Words(0x67452301, 0xefcdab89, 0x98badcfe, 0x10325476);
  }

  lemma FirstCompressed(block: seq<byte>)
    requires |block| == 64 && BlockWords(block) == FIRST
    ensures Compress(Words(0x67452301, 0xefcdab89, 0x98badcfe, 0x10325476), block) ==
      Words(0x33e07f5a, 0x6567b204, 0x437e6670, 0x6ed48c88)
  {
    hide Rounds, BlockWords;
    FirstRounds();
    assert State(0x67452301, 0xefcdab89, 0x98badcfe, 0x10325476) ==
      Words(0x67452301, 0xefcdab89, 0x98badcfe, 0x10325476);
  }

  lemma SecondCompressed(block: seq<byte>)
    requires |block| == 64 && BlockWords(block) == SECOND
    ensures Compress(Words(0x33e07f5a, 0x6567b204, 0x437e6670, 0x6ed48c88), block) ==
      Words(0x82853f04, 0x35db41f2, 0xe127e61c, 0xe4f0e753)
  {
    hide Rounds, BlockWords;
    SecondRounds();
    assert State(0x33e07f5a, 0x6567b204, 0x437e6670, 0x6ed48c88) ==
      Words(0x33e07f5a, 0x6567b204, 0x437e6670, 0x6ed48c88);
  }

  // ----- The digests -----

  lemma OneBlock(m: seq<byte>)
    requires |m| == 64
    ensures Blocks(m, 1) == Compress(INITIAL, m)
  {
    assert Blocks(m, 0) == INITIAL && m[64 * 0..64 * 1] == m;
  }

  lemma TwoBlocks(m: seq<byte>)
    requires |m| == 128
    ensures Blocks(m, 2) == Compress(Compress(INITIAL, m[..64]), m[64..])
  {
    hide Compress;
    assert Blocks(m, 0) == INITIAL && m[64 * 0..64 * 1] == m[..64];
    assert Blocks(m, 1) == Compress(INITIAL, m[..64]) && m[64 * 1..64 * 2] == m[64..];
  }

  lemma EmptyPadded()
    ensures |Padded([])| == 64 && BlockWords(Padded([])) == EMPTY
  {
  }

  /** The digest of the empty message is that of the test suite. */
  lemma EmptyDigest()
    ensures Digest([]) ==
      [0x31, 0xd6, 0xcf, 0xe0, 0xd1, 0x6a, 0xe9, 0x31,
       0xb7, 0x3c, 0x59, 0xd7, 0xe0, 0xc0, 0x89, 0xc0]
  {
    hide Compress, BlockWords, Padded;
    EmptyPadded();
    EmptyCompressed(Padded([]));
    OneBlock(Padded([]));
  }

  function Run(first: byte, n: nat): (r: seq<byte>)
    requires first + n <= 0x100
    ensures |r| == n && forall i :: 0 <= i < n ==> r[i] == first + i
  {
    seq(n, i requires 0 <= i < n => first + i)
  }

  /** The letters, upper case and lower case, and the digits. */
  const LETTERS: seq<byte> := Run(0x41, 26) + Run(0x61, 26) + Run(0x30, 10)

  lemma LettersPadded()
    ensures |Padded(LETTERS)| == 128
    ensures Padded(LETTERS)[..64] == LETTERS + [0x80, 0]
    ensures Padded(LETTERS)[64..] == Zeros(56) + [0xf0, 0x01, 0, 0, 0, 0, 0, 0]
  {
    assert PadLength(62) == 58;
    assert LengthBytes(62) == [0xf0, 0x01, 0, 0, 0, 0, 0, 0];
    assert Padding(62) == [0x80, 0] + Zeros(56);
  }

  lemma WordAt(block: seq<byte>, i: nat, w: word)
    requires |block| == 64 && i < 16
    requires WordOf([block[4 * i], block[4 * i + 1], block[4 * i + 2], block[4 * i + 3]]) == w
    ensures BlockWords(block)[i] == w
  {
    assert block[4 * i..4 * i + 4] == [block[4 * i], block[4 * i + 1], block[4 * i + 2], block[4 * i + 3]];
  }

  lemma FirstBytes()
    ensures var block := LETTERS + [0x80, 0];
      && |block| == 64 && block[62] == 0x80 && block[63] == 0
      && (forall i :: 0 <= i < 26 ==> block[i] == 0x41 + i) && (forall i :: 26 <= i < 52 ==> block[i] == 0x61 + i - 26)
      && forall i :: 52 <= i < 62 ==> block[i] == 0x30 + i - 52
  {
  }

  lemma LowWords(block: seq<byte>)
    requires |block| == 64
    requires forall i :: 0 <= i < 26 ==> block[i] == 0x41 + i
    requires forall i :: 26 <= i < 52 ==> block[i] == 0x61 + i - 26
    ensures BlockWords(block)[..8] == FIRST[..8]
  {
    hide BlockWords;
    WordAt(block, 0, 0x44434241);
    WordAt(block, 1, 0x48474645);
    WordAt(block, 2, 0x4c4b4a49);
    WordAt(block, 3, 0x504f4e4d);
    WordAt(block, 4, 0x54535251);
    WordAt(block, 5, 0x58575655);
    WordAt(block, 6, 0x62615a59);
    WordAt(block, 7, 0x66656463);
  }

  lemma HighWords(block: seq<byte>)
    requires |block| == 64 && block[62] == 0x80 && block[63] == 0
    requires forall i :: 26 <= i < 52 ==> block[i] == 0x61 + i - 26
    requires forall i :: 52 <= i < 62 ==> block[i] == 0x30 + i - 52
    ensures BlockWords(block)[8..] == FIRST[8..]
  {
    hide BlockWords;
    WordAt(block, 8, 0x6a696867);
    WordAt(block, 9, 0x6e6d6c6b);
    WordAt(block, 10, 0x7271706f);
    WordAt(block, 11, 0x76757473);
    WordAt(block, 12, 0x7a797877);
    WordAt(block, 13, 0x33323130);
    WordAt(block, 14, 0x37363534);
    WordAt(block, 15, 0x00803938);
  }

  lemma LettersWords()
    ensures BlockWords(LETTERS + [0x80, 0]) == FIRST
    ensures BlockWords(Zeros(56) + [0xf0, 0x01, 0, 0, 0, 0, 0, 0]) == SECOND
  {
    var words := BlockWords(LETTERS + [0x80, 0]);
    FirstBytes();
    LowWords(LETTERS + [0x80, 0]);
    HighWords(LETTERS + [0x80, 0]);
    assert words == words[..8] + words[8..] && FIRST == FIRST[..8] + FIRST[8..];
    SecondWords();
  }

  lemma SecondWords()
    ensures BlockWords(Zeros(56) + [0xf0, 0x01, 0, 0, 0, 0, 0, 0]) == SECOND
  {
  }

  /** So is that of the letters and digits. */
  lemma LettersDigest()
    ensures Digest(LETTERS) ==
      [0x04, 0x3f, 0x85, 0x82, 0xf2, 0x41, 0xdb, 0x35,
       0x1c, 0xe6, 0x27, 0xe1, 0x53, 0xe7, 0xf0, 0xe4]
  {
    hide Compress, BlockWords, Padded;
    LettersPadded();
    LettersWords();
    var p := Padded(LETTERS);
    FirstCompressed(p[..64]);
    SecondCompressed(p[64..]);
    TwoBlocks(p);
  }
}
