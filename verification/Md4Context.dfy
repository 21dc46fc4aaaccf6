/**
 The streaming digest: a context takes the message in pieces of any size, keeps the bytes
 that do not fill a block, and counts the bits in two 32-bit words.
 */
module Md4Context {
  import opened Integers
  import opened Md4Spec
  import opened Md4Rounds

  // ----- Counting -----

  function BitCount(n: nat): (r: (word, word)) {
    (8 * n % WORD, 8 * n / WORD % WORD)
  }

  /** The count after `len` more bytes, carry and all. */
  function Counted(count: (word, word), len: nat): (word, word) {
    var bits := 8 * len % WORD;
    var low := Add(count.0, bits);
    var high := if low < bits then Add(count.1, 1) else count.1;
    (low, Add(high, len / 0x2000_0000 % WORD))
  }

  lemma SplitSum(u: nat, v: nat)
    ensures (u + v) % WORD == (u % WORD + v % WORD) % WORD
    ensures (u + v) / WORD == u / WORD + v / WORD + (if u % WORD + v % WORD >= WORD then 1 else 0)
  {
  }

  lemma HighSum(h: nat, carry: nat, l: nat)
    requires carry <= 1
    ensures Add(Add(h % WORD, carry), l % WORD) == (h + l + carry) % WORD
  {
    AddMod(h, carry);
    AddMod(h + carry, l % WORD);
    AddMod(l, h + carry);
  }

  lemma CarryIsWrap(x: word, y: word)
    ensures Add(x, y) < y <==> x + y >= WORD
  {
  }

  lemma CountedAdvances(n: nat, len: nat)
    requires len < WORD
    ensures Counted(BitCount(n), len) == BitCount(n + len)
  {
    hide Add;
    var u, v := 8 * n, 8 * len;
    SplitSum(u, v);
    CarryIsWrap(u % WORD, v % WORD);
    assert v / WORD == len / 0x2000_0000;
    HighSum(u / WORD, 0, v / WORD);
    HighSum(u / WORD, 1, v / WORD);
    AddsUp(u % WORD, v % WORD);
    AddsUp(u / WORD % WORD, 0);
  }

  lemma AddsUp(x: word, y: word)
    ensures Add(x, y) == (x + y) % WORD && Add(x, 0) == x
  {
  }

  lemma WordRemainder(a: nat, q: nat, r: nat)
    requires a == WORD * q + r && r < WORD
    ensures a % WORD == r
  {
  }

  lemma BlockRemainder(q: nat, r: nat)
    ensures (64 * q + r) % 64 == r % 64
  {
  }

  lemma IndexIsLength(n: nat)
    ensures BitCount(n).0 / 8 % 64 == n % 64
  {
    var q, r := n / 0x2000_0000, n % 0x2000_0000;
    WordRemainder(8 * n, q, 8 * r);
    BlockRemainder(0x80_0000 * q, r);
  }

  // ----- Blocks -----

  lemma {:induction false} BlocksOfPrefix(m: seq<byte>, x: seq<byte>, k: nat)
    requires 64 * k <= |m|
    ensures Blocks(m + x, k) == Blocks(m, k)
  {
    hide Compress;
    if k > 0 {
      BlocksOfPrefix(m, x, k - 1);
      assert (m + x)[64 * (k - 1)..64 * k] == m[64 * (k - 1)..64 * k];
    }
  }

  lemma NextBlock(m: seq<byte>, k: nat)
    requires 64 * (k + 1) <= |m|
    ensures Blocks(m, k + 1) == Compress(Blocks(m, k), m[64 * k..64 * (k + 1)])
  {
    hide Compress;
  }

  lemma BlockOfInput(m: seq<byte>, x: seq<byte>, i: nat, k: nat)
    requires |m| + i == 64 * k && i + 64 <= |x|
    ensures x[i..i + 64] == (m + x)[64 * k..64 * (k + 1)]
  {
  }

  lemma Quotient(n: nat, k: nat)
    requires 0 <= n - 64 * k < 64
    ensures n / 64 == k && n % 64 == n - 64 * k
  {
  }

  lemma PaddingIs(n: nat)
    ensures |PADDING| == 64
    ensures PadLength(n) == (if n % 64 < 56 then 56 - n % 64 else 120 - n % 64)
    ensures 0 < PadLength(n) <= 64
    ensures PADDING[..PadLength(n)] == Padding(n)
  {
    assert PADDING == [0x80] + Zeros(63);
  }

  const PADDING: seq<byte> := [0x80] + seq(63, i => 0)

  lemma BytesOfTwo(x: word, y: word)
    ensures AllBytes([x, y]) == WordBytes(x) + WordBytes(y)
  {
    hide WordBytes;
    assert [x, y][..1] == [x];
    assert AllBytes([x]) == AllBytes([x][..0]) + WordBytes(x);
    assert AllBytes([x]) == WordBytes(x);
  }

  lemma BytesOfFour(w: Words)
    ensures AllBytes([w.a, w.b, w.c, w.d]) == StateBytes(w)
  {
    hide WordBytes;
    var s := [w.a, w.b, w.c, w.d];
    BytesOfTwo(w.a, w.b);
    assert s[..3][..2] == [w.a, w.b];
    assert AllBytes(s[..3]) == AllBytes([w.a, w.b]) + WordBytes(w.c);
  }

  /** The last index that the block loop tests, for a piece that completes the block begun. */
  function LastIndex(index: nat, len: nat): nat
    requires index < 64 && 64 - index <= len
  {
    len - (len - (64 - index)) % 64
  }

  /** The 32-bit loop test does not wrap around. */
  predicate NoWrap(index: nat, len: nat)
    requires index < 64
  {
    64 - index <= len ==> LastIndex(index, len) + 63 < WORD
  }

  /** The loop test, in 32 bits. */
  predicate Continues(i: nat, len: nat) {
    (i + 63) % WORD < len
  }

  /** An index at which the loop tests. */
  predicate Tested(index: nat, len: nat, i: nat)
    requires index < 64 && 64 - index <= len
  {
    64 - index <= i <= LastIndex(index, len) && (i - (64 - index)) % 64 == 0
  }

  lemma TestedMeans(index: nat, len: nat, i: nat)
    requires index < 64 && 64 - index <= len && Tested(index, len, i)
    ensures i <= len
    ensures i < LastIndex(index, len) ==> i + 63 < len && Tested(index, len, i + 64)
    ensures i == LastIndex(index, len) ==> len <= i + 63
  {
    var part := 64 - index;
    var q, k := (len - part) / 64, (i - part) / 64;
    assert LastIndex(index, len) == part + 64 * q;
    assert i == part + 64 * k;
    if i < LastIndex(index, len) {
      assert k < q;
      assert i + 64 - part == 64 * (k + 1);
    }
  }

  /** At every index before the last the 32-bit test is that of the natural numbers; at the last one it ends the loop
      exactly if it does not wrap around. */
  lemma WrapsWhen(index: nat, len: nat, i: nat)
    requires index < 64 && 64 - index <= len < WORD && Tested(index, len, i)
    ensures i < LastIndex(index, len) ==> i + 63 < len && Continues(i, len)
    ensures i == LastIndex(index, len) ==> len <= i + 63 && (!Continues(i, len) <==> NoWrap(index, len))
  {
    hide Tested;
    TestedMeans(index, len, i);
    if i + 63 < WORD {
      assert (i + 63) % WORD == i + 63;
    } else {
      assert (i + 63) % WORD == i + 63 - WORD;
    }
  }

  /** After one byte, the longest piece makes the test wrap around. */
  lemma WrapExample()
    ensures !NoWrap(1, WORD - 1) && LastIndex(1, WORD - 1) == WORD - 1 && Continues(WORD - 1, WORD - 1)
  {
    assert (WORD - 64) % 64 == 0;
  }

  /** Without wrap-around the loop test is that of the natural numbers. */
  lemma TestIs(index: nat, len: nat, i: nat)
    requires index < 64 && 64 - index <= len < WORD && Tested(index, len, i) && NoWrap(index, len)
    ensures i <= len && (Continues(i, len) <==> i + 63 < len)
    ensures i + 63 < len ==> Tested(index, len, i + 64)
  {
    hide Tested, LastIndex, Continues;
    TestedMeans(index, len, i);
    TestedBefore(index, len, i);
    WrapsWhen(index, len, i);
  }

  lemma TestedBefore(index: nat, len: nat, i: nat)
    requires index < 64 && 64 - index <= len && Tested(index, len, i)
    ensures i <= LastIndex(index, len)
  {
  }

  lemma TestedFirst(index: nat, len: nat)
    requires index < 64 && 64 - index <= len
    ensures Tested(index, len, 64 - index)
  {
  }

  class Context {
    var state: Words
    var count: (word, word)
    const buffer: array<byte>

    /** The state holds the full blocks of `m`, the buffer the rest. */
    ghost predicate Holds(m: seq<byte>)
      reads this, buffer
    {
      && buffer.Length == 64
      && state == Blocks(m, |m| / 64)
      && buffer[..|m| % 64] == m[|m| - |m| % 64..]
    }

    /** The context has taken in the message `m`. */
    ghost predicate Absorbed(m: seq<byte>)
      reads this, buffer
    {
      Holds(m) && count == BitCount(|m|)
    }

    constructor ()
      ensures Absorbed([]) && fresh(buffer)
    {
      state := INITIAL;
      count := (0, 0);
      buffer := new byte[64];
    }

    method Copy(input: seq<byte>, index: nat)
      requires index + |input| <= buffer.Length
      modifies buffer
      ensures buffer[..index] == old(buffer[..index])
      ensures buffer[index..index + |input|] == input
    {
      forall i | 0 <= i < |input| {
        buffer[index + i] := input[i];
      }
    }

    /** As many blocks as the input completes; what is left starts at `i` and goes to `index`. */
    method TransformBlocks(ghost m: seq<byte>, input: seq<byte>, index0: nat) returns (i: nat, index: nat)
      requires Holds(m) && index0 == |m| % 64 && |input| < WORD && NoWrap(index0, |input|)
      modifies this`state, buffer
      ensures i <= |input| && index + (|input| - i) == |m + input| % 64
      ensures buffer[..index] + input[i..] == (m + input)[|m + input| - |m + input| % 64..]
      ensures state == Blocks(m + input, |m + input| / 64)
    {
      hide Blocks, Compress, BitCount, Tested, NoWrap, LastIndex, Continues;
      var len := |input|;
      var partLen := 64 - index0;
      ghost var all := m + input;
      ghost var k := |m| / 64;
      BlocksOfPrefix(m, input, k);
      if len >= partLen {
        Copy(input[..partLen], index0);
        assert buffer[..] == buffer[..index0] + buffer[index0..64];
        assert buffer[..] == all[64 * k..64 * (k + 1)];
        NextBlock(all, k);
        state := Transform(state, buffer[..]);
        i := partLen;
        k := k + 1;
        TestedFirst(index0, len);
        TestIs(index0, len, i);
        while Continues(i, len)
          invariant partLen <= i <= len && Tested(index0, len, i) && (Continues(i, len) <==> i + 63 < len)
          invariant i + 63 < len ==> Tested(index0, len, i + 64)
          invariant |m| + i == 64 * k && 64 * k <= |all|
          invariant state == Blocks(all, k)
          decreases len - i
        {
          BlockOfInput(m, input, i, k);
          NextBlock(all, k);
          state := Transform(state, input[i..i + 64]);
          i := i + 64;
          k := k + 1;
          TestIs(index0, len, i);
        }
        index := 0;
      } else {
        i := 0;
        index := index0;
      }
      Quotient(|all|, k);
      assert buffer[..index] + input[i..] == all[64 * k..];
    }

    /** Whatever the sizes of the pieces, what was absorbed is their concatenation. */
    method Update(ghost m: seq<byte>, input: seq<byte>)
      requires Absorbed(m)
      requires |input| < WORD && NoWrap(|m| % 64, |input|)
      modifies this, buffer
      ensures Absorbed(m + input)
    {
      hide Blocks, BitCount, Counted;
      IndexIsLength(|m|);
      var index := count.0 / 8 % 64;
      CountedAdvances(|m|, |input|);
      count := Counted(count, |input|);
      var i;
      i, index := TransformBlocks(m, input, index);
      Copy(input[i..], index);
      assert buffer[..index + (|input| - i)] == buffer[..index] + buffer[index..index + (|input| - i)];
    }

    method Pad(ghost m: seq<byte>)
      requires Absorbed(m)
      modifies this, buffer
      ensures Absorbed(Padded(m))
    {
      hide Blocks, BitCount, WordBytes, AllBytes, PadLength;
      var bits := Encode([count.0, count.1]);
      BytesOfTwo(count.0, count.1);
      LengthIs(|m|);
      IndexIsLength(|m|);
      PaddingIs(|m|);
      var index := count.0 / 8 % 64;
      var padLen := if index < 56 then 56 - index else 120 - index;
      Update(m, PADDING[..padLen]);
      Update(m + Padding(|m|), bits);
    }

    /** The digest of everything absorbed; the context is wiped. */
    method Final(ghost m: seq<byte>) returns (digest: seq<byte>)
      requires Absorbed(m)
      modifies this, buffer
      ensures digest == Digest(m)
      ensures state == Words(0, 0, 0, 0) && count == (0, 0) && forall i :: 0 <= i < buffer.Length ==> buffer[i] == 0
    {
      hide Blocks, BitCount, WordBytes, AllBytes, Padded, StateBytes;
      Pad(m);
      digest := Encode([state.a, state.b, state.c, state.d]);
      BytesOfFour(state);
      state := Words(0, 0, 0, 0);
      count := (0, 0);
      forall i | 0 <= i < buffer.Length {
        buffer[i] := 0;
      }
    }
  }

  lemma LengthIs(n: nat)
    ensures WordBytes(BitCount(n).0) + WordBytes(BitCount(n).1) == LengthBytes(n)
  {
    hide WordBytes;
  }

  function Concat(pieces: seq<seq<byte>>): seq<byte> {
    if pieces == [] then [] else Concat(pieces[..|pieces| - 1]) + pieces[|pieces| - 1]
  }

  lemma ConcatGrows(pieces: seq<seq<byte>>, i: nat)
    ensures Concat([]) == []
    ensures i < |pieces| ==> Concat(pieces[..i + 1]) == Concat(pieces[..i]) + pieces[i]
  {
    if i < |pieces| {
      assert pieces[..i + 1][..i] == pieces[..i];
    }
  }

  /** The digest of a message does not depend on how it is cut into pieces. */
  method DigestPieces(pieces: seq<seq<byte>>) returns (digest: seq<byte>)
    requires forall i :: 0 <= i < |pieces| ==> |pieces[i]| < WORD && NoWrap(|Concat(pieces[..i])| % 64, |pieces[i]|)
    ensures digest == Digest(Concat(pieces))
  {
    hide Digest, Context.Absorbed, Concat;
    ConcatGrows(pieces, 0);
    var context := new Context();
    var i := 0;
    while i < |pieces|
      invariant i <= |pieces|
      invariant fresh(context) && fresh(context.buffer)
      invariant context.Absorbed(Concat(pieces[..i]))
    {
      context.Update(Concat(pieces[..i]), pieces[i]);
      ConcatGrows(pieces, i);
      i := i + 1;
    }
    assert pieces[..i] == pieces;
    digest := context.Final(Concat(pieces));
  }
}
