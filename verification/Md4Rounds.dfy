/**
 The transformation of one block: the 48 operations written out.
 */
module Md4Rounds {
  import opened Integers
  import opened Md4Spec

  const S11: bv6 := 3
  const S12: bv6 := 7
  const S13: bv6 := 11
  const S14: bv6 := 19
  const S21: bv6 := 3
  const S22: bv6 := 5
  const S23: bv6 := 9
  const S24: bv6 := 13
  const S31: bv6 := 3
  const S32: bv6 := 9
  const S33: bv6 := 11
  const S34: bv6 := 15

  function Add(x: word, y: word): word {
    (x + y) % WORD
  }

  // The three transformations, with every addition cut to 32 bits.

  function FF(a: word, b: word, c: word, d: word, x: word, s: bv6): word
    requires s < 32
  {
    Rotate(Add(a, Add(F(b, c, d), x)), s)
  }

  function GG(a: word, b: word, c: word, d: word, x: word, s: bv6): word
    requires s < 32
  {
    Rotate(Add(a, Add(Add(G(b, c, d), x), 0x5a827999)), s)
  }

  function HH(a: word, b: word, c: word, d: word, x: word, s: bv6): word
    requires s < 32
  {
    Rotate(Add(a, Add(Add(H(b, c, d), x), 0x6ed9eba1)), s)
  }

  lemma AddMod(x: int, y: int)
    ensures (x % WORD + y) % WORD == (x + y) % WORD
  {
  }

  lemma SumsAgree(a: word, f: word, x: word, k: word)
    ensures Add(a, Add(f, x)) == (a + f + x) % WORD
    ensures Add(a, Add(Add(f, x), k)) == (a + f + x + k) % WORD
  {
    AddMod(f + x, a);
    AddMod(f + x, k);
    AddMod(f + x + k, a);
  }

  /** The transformation of a round, on the words and the shift the code gives it. */
  function Turn(w: Words, x: word, round: nat, s: bv6): word
    requires round < 3 && s < 32
  {
    if round == 0 then FF(w.a, w.b, w.c, w.d, x, s)
    else if round == 1 then GG(w.a, w.b, w.c, w.d, x, s)
    else HH(w.a, w.b, w.c, w.d, x, s)
  }

  lemma TurnMeans(w: Words, x: word, round: nat, s: bv6)
    requires round < 3 && s < 32
    ensures Turn(w, x, round, s)
         == Rotate((w.a + Mix(round, w.b, w.c, w.d) + x + RoundConstant(round)) % WORD, s)
  {
    hide F, G, H, Rotate, Add;
    SumsAgree(w.a, Mix(round, w.b, w.c, w.d), x, RoundConstant(round));
  }

  function Scheduled(w: Words, x: seq<word>, round: nat, j: nat): word
    requires |x| == 16 && round < 3 && j < 16
  {
    hide Turn, Index, Shift;
    Turn(w, x[Index(round, j)], round, Shift(round, j))
  }

  lemma OperationTurns(w: Words, x: seq<word>, round: nat, j: nat)
    requires |x| == 16 && round < 3 && j < 16
    ensures Operation(w, x, round, j) == Words(w.d, Scheduled(w, x, round, j), w.b, w.c)
  {
    hide Turn, Mix, Rotate, Index, Shift, RoundConstant;
    TurnMeans(w, x[Index(round, j)], round, Shift(round, j));
  }

  /** Four operations of the table are four assignments of the code, each to the next variable. */
  lemma QuadAdvances(w: Words, x: seq<word>, r: nat, k: nat, a: word, b: word, c: word, d: word)
    requires |x| == 16 && r < 3 && k <= 12
    requires var p := Operations(w, x, r, k);
      && a == Scheduled(p, x, r, k)
      && d == Scheduled(Words(p.d, a, p.b, p.c), x, r, k + 1)
      && c == Scheduled(Words(p.c, d, a, p.b), x, r, k + 2)
      && b == Scheduled(Words(p.b, c, d, a), x, r, k + 3)
    ensures Operations(w, x, r, k + 4) == Words(a, b, c, d)
  {
    hide Scheduled, Operation;
    OperationTurns(Operations(w, x, r, k), x, r, k);
    OperationTurns(Operations(w, x, r, k + 1), x, r, k + 1);
    OperationTurns(Operations(w, x, r, k + 2), x, r, k + 2);
    OperationTurns(Operations(w, x, r, k + 3), x, r, k + 3);
  }

  lemma Shifts1(k: nat)
    requires k in [0, 4, 8, 12]
    ensures Shift(0, k) == S11
    ensures Shift(0, k + 1) == S12
    ensures Shift(0, k + 2) == S13
    ensures Shift(0, k + 3) == S14
  {
  }

  lemma Indices1(k: nat)
    requires k in [0, 4, 8, 12]
    ensures Index(0, k) == k
    ensures Index(0, k + 1) == k + 1
    ensures Index(0, k + 2) == k + 2
    ensures Index(0, k + 3) == k + 3
  {
  }

  lemma Quad1(w: Words, x: seq<word>, k: nat, a: word, b: word, c: word, d: word)
    requires |x| == 16 && k in [0, 4, 8, 12]
    requires var p := Operations(w, x, 0, k);
      && a == FF(p.a, p.b, p.c, p.d, x[k], S11)
      && d == FF(p.d, a, p.b, p.c, x[k + 1], S12)
      && c == FF(p.c, d, a, p.b, x[k + 2], S13)
      && b == FF(p.b, c, d, a, x[k + 3], S14)
    ensures Operations(w, x, 0, k + 4) == Words(a, b, c, d)
  {
    hide Operations, FF, Index, Shift;
    Shifts1(k);
    Indices1(k);
    QuadAdvances(w, x, 0, k, a, b, c, d);
  }

  lemma Shifts2(k: nat)
    requires k in [0, 4, 8, 12]
    ensures Shift(1, k) == S21
    ensures Shift(1, k + 1) == S22
    ensures Shift(1, k + 2) == S23
    ensures Shift(1, k + 3) == S24
  {
  }

  lemma Indices2(k: nat)
    requires k in [0, 4, 8, 12]
    ensures Index(1, k) == k / 4
    ensures Index(1, k + 1) == k / 4 + 4
    ensures Index(1, k + 2) == k / 4 + 8
    ensures Index(1, k + 3) == k / 4 + 12
  {
  }

  lemma Quad2(w: Words, x: seq<word>, k: nat, a: word, b: word, c: word, d: word)
    requires |x| == 16 && k in [0, 4, 8, 12]
    requires var p, i := Operations(w, x, 1, k), k / 4;
      && a == GG(p.a, p.b, p.c, p.d, x[i], S21)
      && d == GG(p.d, a, p.b, p.c, x[i + 4], S22)
      && c == GG(p.c, d, a, p.b, x[i + 8], S23)
      && b == GG(p.b, c, d, a, x[i + 12], S24)
    ensures Operations(w, x, 1, k + 4) == Words(a, b, c, d)
  {
    hide Operations, GG, Index, Shift;
    Shifts2(k);
    Indices2(k);
    QuadAdvances(w, x, 1, k, a, b, c, d);
  }

  lemma Shifts3(k: nat)
    requires k in [0, 4, 8, 12]
    ensures Shift(2, k) == S31
    ensures Shift(2, k + 1) == S32
    ensures Shift(2, k + 2) == S33
    ensures Shift(2, k + 3) == S34
  {
  }

  lemma Indices3(k: nat, i: nat)
    requires (k, i) in [(0, 0), (4, 2), (8, 1), (12, 3)]
    ensures Index(2, k) == i
    ensures Index(2, k + 1) == i + 8
    ensures Index(2, k + 2) == i + 4
    ensures Index(2, k + 3) == i + 12
  {
  }

  lemma Quad3(w: Words, x: seq<word>, k: nat, i: nat, a: word, b: word, c: word, d: word)
    requires |x| == 16 && (k, i) in [(0, 0), (4, 2), (8, 1), (12, 3)]
    requires var p := Operations(w, x, 2, k);
      && a == HH(p.a, p.b, p.c, p.d, x[i], S31)
      && d == HH(p.d, a, p.b, p.c, x[i + 8], S32)
      && c == HH(p.c, d, a, p.b, x[i + 4], S33)
      && b == HH(p.b, c, d, a, x[i + 12], S34)
    ensures Operations(w, x, 2, k + 4) == Words(a, b, c, d)
  {
    hide Operations, HH, Index, Shift;
    Shifts3(k);
    Indices3(k, i);
    QuadAdvances(w, x, 2, k, a, b, c, d);
  }

  lemma Start(w: Words, x: seq<word>, round: nat)
    requires |x| == 16 && round < 3
    ensures Operations(w, x, round, 0) == w
  {
  }

  /** The words of a block, low-order byte first. */
  method Decode(output: array<word>, input: seq<byte>)
    requires output.Length == 16 && |input| == 64
    modifies output
    ensures output[..] == BlockWords(input)
  {
    var i, j := 0, 0;
    while j < 64
      invariant 0 <= i <= 16 && j == 4 * i
      invariant forall k :: 0 <= k < i ==> output[k] == BlockWords(input)[k]
    {
      output[i] := WordOf(input[j..j + 4]);
      i := i + 1;
      j := j + 4;
    }
  }

  /** The bytes of some words, low-order byte first. */
  method Encode(input: seq<word>) returns (output: seq<byte>)
    ensures output == AllBytes(input)
  {
    output := [];
    var i := 0;
    while i < |input|
      invariant i <= |input| && output == AllBytes(input[..i])
    {
      output := output + WordBytes(input[i]);
      assert input[..i + 1][..i] == input[..i];
      i := i + 1;
    }
    assert input[..i] == input;
  }

  function AllBytes(words: seq<word>): seq<byte> {
    if words == [] then [] else AllBytes(words[..|words| - 1]) + WordBytes(words[|words| - 1])
  }

  method Transform(w: Words, block: seq<byte>) returns (r: Words)
    requires |block| == 64
    ensures r == Compress(w, block)
  {
    hide Operations, FF, GG, HH, BlockWords;
    var a, b, c, d := w.a, w.b, w.c, w.d;
    var x := new word[16];
    Decode(x, block);
    ghost var xs := BlockWords(block);
    assert xs == x[..];
    Start(w, xs, 0);
    // Round 1
    a := FF(a, b, c, d, x[0], S11);
    d := FF(d, a, b, c, x[1], S12);
    c := FF(c, d, a, b, x[2], S13);
    b := FF(b, c, d, a, x[3], S14);
    Quad1(w, xs, 0, a, b, c, d);
    a := FF(a, b, c, d, x[4], S11);
    d := FF(d, a, b, c, x[5], S12);
    c := FF(c, d, a, b, x[6], S13);
    b := FF(b, c, d, a, x[7], S14);
    Quad1(w, xs, 4, a, b, c, d);
    a := FF(a, b, c, d, x[8], S11);
    d := FF(d, a, b, c, x[9], S12);
    c := FF(c, d, a, b, x[10], S13);
    b := FF(b, c, d, a, x[11], S14);
    Quad1(w, xs, 8, a, b, c, d);
    a := FF(a, b, c, d, x[12], S11);
    d := FF(d, a, b, c, x[13], S12);
    c := FF(c, d, a, b, x[14], S13);
    b := FF(b, c, d, a, x[15], S14);
    Quad1(w, xs, 12, a, b, c, d);
    ghost var w1 := Words(a, b, c, d);
    Start(w1, xs, 1);
    // Round 2
    a := GG(a, b, c, d, x[0], S21);
    d := GG(d, a, b, c, x[4], S22);
    c := GG(c, d, a, b, x[8], S23);
    b := GG(b, c, d, a, x[12], S24);
    Quad2(w1, xs, 0, a, b, c, d);
    a := GG(a, b, c, d, x[1], S21);
    d := GG(d, a, b, c, x[5], S22);
    c := GG(c, d, a, b, x[9], S23);
    b := GG(b, c, d, a, x[13], S24);
    Quad2(w1, xs, 4, a, b, c, d);
    a := GG(a, b, c, d, x[2], S21);
    d := GG(d, a, b, c, x[6], S22);
    c := GG(c, d, a, b, x[10], S23);
    b := GG(b, c, d, a, x[14], S24);
    Quad2(w1, xs, 8, a, b, c, d);
    a := GG(a, b, c, d, x[3], S21);
    d := GG(d, a, b, c, x[7], S22);
    c := GG(c, d, a, b, x[11], S23);
    b := GG(b, c, d, a, x[15], S24);
    Quad2(w1, xs, 12, a, b, c, d);
    ghost var w2 := Words(a, b, c, d);
    Start(w2, xs, 2);
    // Round 3
    a := HH(a, b, c, d, x[0], S31);
    d := HH(d, a, b, c, x[8], S32);
    c := HH(c, d, a, b, x[4], S33);
    b := HH(b, c, d, a, x[12], S34);
    Quad3(w2, xs, 0, 0, a, b, c, d);
    a := HH(a, b, c, d, x[2], S31);
    d := HH(d, a, b, c, x[10], S32);
    c := HH(c, d, a, b, x[6], S33);
    b := HH(b, c, d, a, x[14], S34);
    Quad3(w2, xs, 4, 2, a, b, c, d);
    a := HH(a, b, c, d, x[1], S31);
    d := HH(d, a, b, c, x[9], S32);
    c := HH(c, d, a, b, x[5], S33);
    b := HH(b, c, d, a, x[13], S34);
    Quad3(w2, xs, 8, 1, a, b, c, d);
    a := HH(a, b, c, d, x[3], S31);
    d := HH(d, a, b, c, x[11], S32);
    c := HH(c, d, a, b, x[7], S33);
    b := HH(b, c, d, a, x[15], S34);
    Quad3(w2, xs, 12, 3, a, b, c, d);
    assert Words(a, b, c, d) == Rounds(w, xs);
    r := Words(Add(w.a, a), Add(w.b, b), Add(w.c, c), Add(w.d, d));
  }
}
