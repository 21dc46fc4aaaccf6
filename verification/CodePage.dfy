/**
 Conversion between code page 437 and UCS-2. Bytes and characters below 0x80 are the same; the
 others go through the tables, one way by position and the other by binary search.
 */
module CodePage {
  import opened Integers
  import opened Options
  import opened CodePageTables

  datatype Pair = Pair(u: uint16, c: byte)

  // ----- Binary search -----

  predicate StrictlySorted(table: seq<Pair>) {
    forall i, j :: 0 <= i < j < |table| ==> table[i].u < table[j].u
  }

  /** A character is found exactly when it is in the map, and then with its byte. */
  method SearchMap(table: seq<Pair>, character: uint16) returns (ch: Option<byte>)
    requires |table| > 0 && StrictlySorted(table)
    ensures ch.None? <==> forall i :: 0 <= i < |table| ==> table[i].u != character
    ensures ch.Some? ==> Pair(character, ch.value) in table
  {
    if character < table[0].u || character > table[|table| - 1].u {
      assert forall i :: 0 <= i < |table| ==> table[0].u <= table[i].u <= table[|table| - 1].u;
      return None;
    }
    var p, q := 0, |table| - 1;
    while p <= q
      invariant 0 <= p <= |table| && -1 <= q < |table|
      invariant forall i :: 0 <= i < p ==> table[i].u < character
      invariant forall i :: q < i < |table| ==> table[i].u > character
      decreases q - p
    {
      var divider := p + (q - p) / 2;
      if character < table[divider].u {
        q := divider - 1;
      } else if character > table[divider].u {
        p := divider + 1;
      } else {
        return Some(table[divider].c);
      }
    }
    return None;
  }

  function Map(): (m: seq<Pair>)
    ensures |m| == 128
    ensures forall i :: 0 <= i < 128 ==> m[i] == Pair(MapCharacter(i), MapByte(i))
  {
    seq(128, i requires 0 <= i < 128 => Pair(MapCharacter(i), MapByte(i)))
  }

  lemma MapSorted()
    ensures StrictlySorted(Map())
  {
    hide MapCharacter, MapByte;
    forall i, j | 0 <= i < j < 128
      ensures Map()[i].u < Map()[j].u
    {
      Ascending(i, j);
    }
  }

  // ----- One character -----

  function Ucs2Of(b: byte): uint16 {
    if b < 0x80 then b else Character(b - 0x80)
  }

  /** The character has a byte of its own. */
  ghost predicate Representable(u: uint16) {
    u < 0x80 || exists i :: 0 <= i < 128 && MapCharacter(i) == u
  }

  /** The byte of a character, an underscore if it has none. */
  ghost predicate IsByteOf(u: uint16, b: byte) {
    if u < 0x80 then b == u
    else (forall i :: 0 <= i < 128 && MapCharacter(i) == u ==> b == MapByte(i)) && (!Representable(u) ==> b == 0x5f)
  }

  lemma ByteOfUcs2(b: byte, c: byte)
    requires IsByteOf(Ucs2Of(b), c)
    ensures c == b
  {
    hide MapCharacter, MapByte, Character, Entry;
    if b >= 0x80 {
      Inverse(b - 0x80);
      Backward(Entry(b - 0x80));
    }
  }

  lemma Ucs2OfByte(u: uint16, b: byte)
    requires IsByteOf(u, b)
    ensures Ucs2Of(b) == u <==> Representable(u)
  {
    hide MapCharacter, MapByte, Character;
    if u >= 0x80 && Representable(u) {
      var i :| 0 <= i < 128 && MapCharacter(i) == u;
      Backward(i);
    }
  }

  lemma MapDecides(u: uint16, r: Option<byte>)
    requires u >= 0x80
    requires r.None? <==> forall i :: 0 <= i < 128 ==> Map()[i].u != u
    requires r.Some? ==> Pair(u, r.value) in Map()
    ensures IsByteOf(u, if r.Some? then r.value else 0x5f)
  {
    hide MapCharacter, MapByte;
    var m := Map();
    if r.Some? {
      var k :| 0 <= k < 128 && m[k] == Pair(u, r.value);
      forall i | 0 <= i < 128 && MapCharacter(i) == u
        ensures r.value == MapByte(i)
      {
        MapSorted();
        assert m[i].u == m[k].u;
      }
    } else {
      assert forall i :: 0 <= i < 128 ==> m[i].u == MapCharacter(i);
    }
  }

  // ----- Strings -----

  function Min(a: nat, b: nat): nat {
    if a < b then a else b
  }

  /** As many bytes as there is room for, silently. */
  method CodepageToUcs2(src: seq<byte>, bufsize: nat, unibuf: array<uint16>) returns (unilen: nat)
    requires bufsize / 2 <= unibuf.Length
    modifies unibuf
    ensures unilen == 2 * Min(|src|, bufsize / 2)
    ensures forall i :: 0 <= i < unilen / 2 ==> unibuf[i] == Ucs2Of(src[i])
    ensures forall i :: unilen / 2 <= i < unibuf.Length ==> unibuf[i] == old(unibuf[i])
  {
    hide Character;
    var n := Min(|src|, bufsize / 2);
    var i := 0;
    while i < n
      invariant i <= n
      invariant forall j :: 0 <= j < i ==> unibuf[j] == Ucs2Of(src[j])
      invariant forall j :: i <= j < unibuf.Length ==> unibuf[j] == old(unibuf[j])
    {
      var b := src[i];
      if b < 0x80 {
        unibuf[i] := b;
      } else {
        unibuf[i] := Character(b - 0x80);
      }
      i := i + 1;
    }
    unilen := n * 2;
  }

  method Ucs2ToCodepage(src: seq<uint16>, srclen: nat, bufsize: nat, buf: array<byte>) returns (buflen: nat)
    requires srclen / 2 <= |src| && bufsize <= buf.Length
    modifies buf
    ensures buflen == Min(srclen / 2, bufsize)
    ensures forall i :: 0 <= i < buflen ==> IsByteOf(src[i], buf[i])
    ensures forall i :: buflen <= i < buf.Length ==> buf[i] == old(buf[i])
  {
    hide Map, IsByteOf;
    var n := Min(srclen / 2, bufsize);
    var i := 0;
    MapSorted();
    while i < n
      invariant i <= n
      invariant forall j :: 0 <= j < i ==> IsByteOf(src[j], buf[j])
      invariant forall j :: i <= j < buf.Length ==> buf[j] == old(buf[j])
    {
      var character := src[i];
      if character < 0x80 {
        LowByte(character);
        buf[i] := character;
      } else {
        var found := SearchMap(Map(), character);
        MapDecides(character, found);
        buf[i] := if found.Some? then found.value else 0x5f;
      }
      i := i + 1;
    }
    buflen := n;
  }

  lemma LowByte(u: uint16)
    requires u < 0x80
    ensures IsByteOf(u, u)
  {
  }

  /** Any bytes, to characters and back, are the same bytes, if there is room for them. */
  method ThereAndBack(src: seq<byte>, unibuf: array<uint16>, buf: array<byte>) returns (buflen: nat)
    requires |src| <= unibuf.Length && |src| <= buf.Length
    modifies unibuf, buf
    ensures buflen == |src| && buf[..buflen] == src
  {
    hide IsByteOf, Ucs2Of;
    var unilen := CodepageToUcs2(src, 2 * unibuf.Length, unibuf);
    ghost var chars := unibuf[..];
    buflen := Ucs2ToCodepage(unibuf[..], unilen, buf.Length, buf);
    forall i | 0 <= i < |src|
      ensures buf[i] == src[i]
    {
      ByteOfUcs2(src[i], buf[i]);
    }
  }
}
