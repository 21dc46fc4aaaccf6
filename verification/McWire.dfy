/**
 The server's answer to an interface query on the wire (section 2.2.32.5 of [MS-SMB2]): a
 chain of entries, each with the offset of the next one, and its parser.
 */
module McWire {
  import opened Integers
  import opened Options
  import opened McTypes
  import opened McNics

  const IPV4_FAMILY: nat := 0x0002
  const IPV6_FAMILY: nat := 0x0017

  // ----- Little-endian numbers -----

  function Le(s: seq<byte>): nat {
    if s == [] then 0 else s[0] as nat + 0x100 * Le(s[1..])
  }

  function LeBytes(v: nat, k: nat): (s: seq<byte>)
    ensures |s| == k
  {
    if k == 0 then [] else [v % 0x100] + LeBytes(v / 0x100, k - 1)
  }

  function Range(k: nat): nat {
    if k == 0 then 1 else 0x100 * Range(k - 1)
  }

  lemma {:induction false} LeRoundTrip(v: nat, k: nat)
    requires v < Range(k)
    ensures Le(LeBytes(v, k)) == v
  {
    if k > 0 {
      LeRoundTrip(v / 0x100, k - 1);
      assert LeBytes(v, k)[1..] == LeBytes(v / 0x100, k - 1);
    }
  }

  lemma Ranges()
    ensures Range(2) == 0x1_0000 && Range(4) == 0x1_0000_0000 && Range(8) == 0x1_0000_0000_0000_0000
  {
    assert Range(2) == 0x100 * (0x100 * Range(0));
    assert Range(4) == 0x100 * (0x100 * Range(2));
    assert Range(6) == 0x100 * (0x100 * Range(4));
  }

  // ----- Parsing -----

  /** How many bytes of an entry are looked at. */
  function EntrySize(family: nat): nat {
    if family == IPV4_FAMILY then 32 else if family == IPV6_FAMILY then 52 else 26
  }

  function At(buf: seq<byte>, off: nat, k: nat): nat
    requires off + k <= |buf|
  {
    Le(buf[off..off + k])
  }

  /** All the fields that are looked at are inside the buffer. */
  predicate InBounds(buf: seq<byte>, off: nat) {
    off + 26 <= |buf| && off + EntrySize(At(buf, off + 24, 2)) <= |buf|
  }

  function AddrAt(buf: seq<byte>, off: nat): Addr
    requires InBounds(buf, off)
  {
    if At(buf, off + 24, 2) == IPV6_FAMILY then V6(seq(16, i requires 0 <= i < 16 => buf[off + 32 + i] as nat))
    else if At(buf, off + 24, 2) == IPV4_FAMILY then V4(At(buf, off + 28, 4))
    else V4(0)
  }

  predicate Supported(buf: seq<byte>, off: nat)
    requires InBounds(buf, off)
  {
    At(buf, off + 24, 2) == IPV4_FAMILY || At(buf, off + 24, 2) == IPV6_FAMILY
  }

  lemma {:induction false} LeBound(s: seq<byte>)
    ensures Le(s) < Range(|s|)
  {
    if s != [] {
      LeBound(s[1..]);
    }
  }

  lemma Le4(s: seq<byte>)
    requires |s| == 4
    ensures Le(s) < 0x1_0000_0000
  {
    LeBound(s);
    Ranges();
  }

  function InfoAt(buf: seq<byte>, off: nat): NicInfo
    requires InBounds(buf, off)
  {
    Le4(buf[off + 4..off + 8]);
    Le4(buf[off + 8..off + 12]);
    NicInfo(At(buf, off + 4, 4), At(buf, off + 8, 4), At(buf, off + 16, 8), 0, AddrAt(buf, off))
  }

  /** The interface descriptions from an entry on; none at all if any entry leaves the buffer. */
  function Parse(buf: seq<byte>, off: nat): Option<seq<NicInfo>>
    requires off <= |buf|
    decreases |buf| - off
  {
    if !InBounds(buf, off) then None
    else
      var here := if Supported(buf, off) then [InfoAt(buf, off)] else [];
      var next := At(buf, off, 4);
      if next == 0 then Some(here)
      else if off + next > |buf| then None
      else
        var rest := Parse(buf, off + next);
        if rest.None? then None else Some(here + rest.value)
  }

  /** Reads a number and moves on, if there is room for it before the end. */
  method GetAndAdvance(buf: seq<byte>, pos: nat, k: nat) returns (ok: bool, res: nat, next: nat)
    requires pos <= |buf|
    ensures ok <==> pos + k <= |buf|
    ensures ok ==> next == pos + k && res == At(buf, pos, k)
    ensures !ok ==> next == pos
  {
    if |buf| - pos < k {
      return false, 0, pos;
    }
    ok, res, next := true, Le(buf[pos..pos + k]), pos + k;
  }

  /** One entry, field by field. */
  method ParseEntry(buf: seq<byte>, off: nat) returns (ok: bool, nextOffset: nat, info: Option<NicInfo>)
    requires off <= |buf|
    ensures ok <==> InBounds(buf, off)
    ensures ok ==> nextOffset == At(buf, off, 4)
    ensures ok ==> info == if Supported(buf, off) then Some(InfoAt(buf, off)) else None
  {
    hide Le;
    info, nextOffset := None, 0;
    var pos, index, caps, reserved, speed, family, skipped;
    ok, nextOffset, pos := GetAndAdvance(buf, off, 4);
    if !ok { return; }
    ok, index, pos := GetAndAdvance(buf, pos, 4);
    if !ok { return; }
    ok, caps, pos := GetAndAdvance(buf, pos, 4);
    if !ok { return; }
    ok, reserved, pos := GetAndAdvance(buf, pos, 4);
    if !ok { return; }
    ok, speed, pos := GetAndAdvance(buf, pos, 8);
    if !ok { return; }
    ok, family, pos := GetAndAdvance(buf, pos, 2);
    if !ok { return; }
    Le4(buf[off + 4..off + 8]);
    Le4(buf[off + 8..off + 12]);
    if family == IPV4_FAMILY {
      ok, skipped, pos := GetAndAdvance(buf, pos, 2);
      if !ok { return; }
      var address;
      ok, address, pos := GetAndAdvance(buf, pos, 4);
      if !ok { return; }
      info := Some(NicInfo(index, caps, speed, 0, V4(address)));
    } else if family == IPV6_FAMILY {
      ok, skipped, pos := GetAndAdvance(buf, pos, 2);
      if !ok { return; }
      ok, skipped, pos := GetAndAdvance(buf, pos, 4);
      if !ok { return; }
      var at := pos;
      ok, skipped, pos := GetAndAdvance(buf, pos, 16);
      if !ok { return; }
      ok, skipped, pos := GetAndAdvance(buf, pos, 4);
      if !ok { return; }
      info := Some(NicInfo(index, caps, speed, 0, V6(seq(16, i requires 0 <= i < 16 => buf[at + i] as nat))));
    }
  }

  // ----- Merging -----

  lemma ParseStep(buf: seq<byte>, off: nat, done: seq<NicInfo>)
    requires off <= |buf| && InBounds(buf, off)
    ensures var here := if Supported(buf, off) then done + [InfoAt(buf, off)] else done;
      var next := At(buf, off, 4);
      Joined(done, Parse(buf, off)) ==
        if next == 0 then Some(here)
        else if off + next > |buf| then None
        else Joined(here, Parse(buf, off + next))
  {
    hide Le, Supported, InfoAt;
    var next := At(buf, off, 4);
    if next != 0 && off + next <= |buf| && Parse(buf, off + next).Some? {
      var rest := Parse(buf, off + next).value;
      if Supported(buf, off) {
        assert done + ([InfoAt(buf, off)] + rest) == done + [InfoAt(buf, off)] + rest;
      } else {
        assert [] + rest == rest;
      }
    } else {
      assert done + [] == done;
    }
  }

  function Joined(done: seq<NicInfo>, o: Option<seq<NicInfo>>): Option<seq<NicInfo>> {
    if o.None? then None else Some(done + o.value)
  }

  /** One description and its RSS copies. */
  method AddDescription(t: Table, info: NicInfo, rssChannels: nat) returns (u: Table)
    requires Shaped(t)
    ensures u == AddCopies(t, info, false, false, Copies(info, rssChannels, false))
  {
    hide AddInfo, Shaped;
    assert AddCopies(t, info, false, false, 0) == t;
    u := AddInfo(t, info, 0, false, false);
    if RssCapable(info) {
      var rss := 1;
      while rss < rssChannels
        invariant 1 <= rss && (rss <= rssChannels || rss == 1)
        invariant u == AddCopies(t, info, false, false, rss)
      {
        u := AddInfo(u, info, rss, false, false);
        rss := rss + 1;
      }
    }
  }

  /** The answer as a whole: malformed, or a table of the server's NICs. */
  method QueryInfoResponse(buf: seq<byte>, blank: Table, rssChannels: nat) returns (ok: bool, u: Table)
    requires Shaped(blank)
    ensures ok <==> Parse(buf, 0).Some?
    ensures ok ==> u == AddServers(blank, Parse(buf, 0).value, rssChannels, |Parse(buf, 0).value|)
  {
    hide InBounds, Supported, InfoAt, Parse, AddServers, Shaped;
    u := blank;
    var off, nextOffset := 0, 0;
    ghost var done: seq<NicInfo> := [];
    AddServersNone(blank, rssChannels);
    StartJoined(buf);
    var more := true;
    while more
      invariant off + nextOffset >= 0 && Shaped(u)
      invariant more ==> off <= |buf| && nextOffset >= 0 && (nextOffset > 0 || off == 0)
      invariant more && off + nextOffset <= |buf| ==> Parse(buf, 0) == Joined(done, Parse(buf, off + nextOffset))
      invariant more && off + nextOffset > |buf| ==> Parse(buf, 0).None?
      invariant !more ==> Parse(buf, 0) == Some(done)
      invariant u == AddServers(blank, done, rssChannels, |done|)
      decreases more, |buf| - off - nextOffset
    {
      off := off + nextOffset;
      if off > |buf| {
        return false, u;
      }
      var info, good;
      good, nextOffset, info := ParseEntry(buf, off);
      if !good {
        OutOfBounds(buf, off);
        return false, u;
      }
      ParseStep(buf, off, done);
      if info.Some? {
        AddServersOne(blank, done, info.value, rssChannels);
        u := AddDescription(u, info.value, rssChannels);
        done := done + [info.value];
      }
      more := nextOffset != 0;
    }
    ok := true;
  }

  lemma StartJoined(buf: seq<byte>)
    ensures Parse(buf, 0) == Joined([], Parse(buf, 0))
  {
    if Parse(buf, 0).Some? {
      assert [] + Parse(buf, 0).value == Parse(buf, 0).value;
    }
  }

  lemma OutOfBounds(buf: seq<byte>, off: nat)
    requires off <= |buf| && !InBounds(buf, off)
    ensures Parse(buf, off).None?
  {
  }

  lemma AddServersNone(t: Table, rssChannels: nat)
    requires Shaped(t)
    ensures AddServers(t, [], rssChannels, 0) == t
  {
  }

  lemma {:induction false} AddServersPrefix(t: Table, infos: seq<NicInfo>, more: seq<NicInfo>, rssChannels: nat, k: nat)
    requires Shaped(t) && k <= |infos|
    ensures AddServers(t, infos + more, rssChannels, k) == AddServers(t, infos, rssChannels, k)
  {
    hide Shaped, AddCopies;
    if k > 0 {
      AddServersPrefix(t, infos, more, rssChannels, k - 1);
    }
  }

  lemma AddServersOne(t: Table, infos: seq<NicInfo>, info: NicInfo, rssChannels: nat)
    requires Shaped(t)
    ensures AddServers(t, infos + [info], rssChannels, |infos| + 1)
         == AddCopies(AddServers(t, infos, rssChannels, |infos|), info, false, false, Copies(info, rssChannels, false))
  {
    hide Shaped, AddCopies;
    AddServersPrefix(t, infos, [info], rssChannels, |infos|);
  }

  // ----- Writing -----

  datatype WireAddr =
    | Ip4(port: uint16, ip: uint32)
    | Ip6(port: uint16, flow: uint32, bytes: seq<byte>, scope: uint32)

  /** One entry; `pad` is whatever follows the address in its storage. */
  datatype WireEntry = WireEntry(index: uint32, caps: uint32, reserved: uint32, speed: uint64, addr: WireAddr,
    pad: seq<byte>)

  function AddrBytes(a: WireAddr): seq<byte> {
    match a
    case Ip4(port, ip) => LeBytes(IPV4_FAMILY, 2) + LeBytes(port, 2) + LeBytes(ip, 4)
    case Ip6(port, flow, bytes, scope) =>
      LeBytes(IPV6_FAMILY, 2) + LeBytes(port, 2) + LeBytes(flow, 4) + bytes + LeBytes(scope, 4)
  }

  predicate Writable(e: WireEntry) {
    && (e.addr.Ip6? ==> |e.addr.bytes| == 16)
    && 24 + |AddrBytes(e.addr)| + |e.pad| < UINT32
  }

  function Head(e: WireEntry, next: nat): (s: seq<byte>)
    ensures |s| == 24
  {
    LeBytes(next, 4) + LeBytes(e.index, 4) + LeBytes(e.caps, 4) + LeBytes(e.reserved, 4) + LeBytes(e.speed, 8)
  }

  function Encode(e: WireEntry, next: nat): seq<byte> {
    Head(e, next) + AddrBytes(e.addr) + e.pad
  }

  /** Each entry but the last gives its own length as the offset of the next. */
  function EncodeAll(es: seq<WireEntry>): seq<byte>
    requires es != []
  {
    if |es| == 1 then Encode(es[0], 0)
    else Encode(es[0], |Encode(es[0], 0)|) + EncodeAll(es[1..])
  }

  function InfoOf(e: WireEntry): NicInfo {
    NicInfo(e.index, e.caps, e.speed as nat, 0,
            match e.addr
            case Ip4(_, ip) => V4(ip)
            case Ip6(_, _, bytes, _) => V6(seq(|bytes|, i requires 0 <= i < |bytes| => bytes[i] as nat)))
  }

  function InfosOf(es: seq<WireEntry>): (r: seq<NicInfo>)
    ensures |r| == |es| && forall i :: 0 <= i < |es| ==> r[i] == InfoOf(es[i])
  {
    seq(|es|, i requires 0 <= i < |es| => InfoOf(es[i]))
  }

  // ----- Reading what was written -----

  lemma HeadSlices(e: WireEntry, next: nat)
    ensures var h := Head(e, next);
      && h[0..4] == LeBytes(next, 4) && h[4..8] == LeBytes(e.index, 4) && h[8..12] == LeBytes(e.caps, 4)
      && h[16..24] == LeBytes(e.speed, 8)
  {
    hide LeBytes;
  }

  lemma AddrSlices(a: WireAddr)
    requires a.Ip6? ==> |a.bytes| == 16
    ensures var b := AddrBytes(a);
      && |b| + 24 == EntrySize(if a.Ip4? then IPV4_FAMILY else IPV6_FAMILY)
      && b[0..2] == LeBytes(if a.Ip4? then IPV4_FAMILY else IPV6_FAMILY, 2)
      && (a.Ip4? ==> b[4..8] == LeBytes(a.ip, 4))
      && (a.Ip6? ==> b[8..24] == a.bytes)
  {
    hide LeBytes;
    if a.Ip6? {
      var before := LeBytes(IPV6_FAMILY, 2) + LeBytes(a.port, 2) + LeBytes(a.flow, 4);
      assert (before + a.bytes + LeBytes(a.scope, 4))[8..24] == a.bytes;
    }
  }

  /** A part of the buffer inside a part that is known. */
  lemma Inside(buf: seq<byte>, off: nat, part: seq<byte>, i: nat, j: nat)
    requires off + |part| <= |buf| && buf[off..off + |part|] == part && i <= j <= |part|
    ensures buf[off + i..off + j] == part[i..j]
  {
    forall k | 0 <= k < j - i
      ensures buf[off + i..off + j][k] == part[i..j][k]
    {
      assert part[i + k] == buf[off..off + |part|][i + k];
    }
  }

  lemma Number(buf: seq<byte>, off: nat, k: nat, v: nat)
    requires off + k <= |buf| && buf[off..off + k] == LeBytes(v, k) && v < Range(k)
    ensures At(buf, off, k) == v
  {
    LeRoundTrip(v, k);
  }

  predicate HasPart(buf: seq<byte>, off: nat, part: seq<byte>) {
    off + |part| <= |buf| && buf[off..off + |part|] == part
  }

  lemma HeadRead(buf: seq<byte>, off: nat, e: WireEntry, next: nat)
    requires HasPart(buf, off, Head(e, next)) && next < UINT32
    ensures At(buf, off, 4) == next && At(buf, off + 4, 4) == e.index
    ensures At(buf, off + 8, 4) == e.caps && At(buf, off + 16, 8) == e.speed
  {
    hide Le, LeBytes, Head;
    var h := Head(e, next);
    HeadSlices(e, next);
    Ranges();
    Inside(buf, off, h, 0, 4);
    Inside(buf, off, h, 4, 8);
    Inside(buf, off, h, 8, 12);
    Inside(buf, off, h, 16, 24);
    Number(buf, off, 4, next);
    Number(buf, off + 4, 4, e.index);
    Number(buf, off + 8, 4, e.caps);
    Number(buf, off + 16, 8, e.speed);
  }

  lemma AddrRead(buf: seq<byte>, off: nat, a: WireAddr)
    requires HasPart(buf, off + 24, AddrBytes(a)) && (a.Ip6? ==> |a.bytes| == 16)
    ensures InBounds(buf, off) && Supported(buf, off)
    ensures a.Ip4? ==> AddrAt(buf, off) == V4(a.ip)
    ensures a.Ip6? ==> AddrAt(buf, off) == V6(seq(16, i requires 0 <= i < 16 => a.bytes[i] as nat))
  {
    hide Le, LeBytes, AddrBytes;
    var b := AddrBytes(a);
    AddrSlices(a);
    Ranges();
    Inside(buf, off + 24, b, 0, 2);
    Number(buf, off + 24, 2, if a.Ip4? then IPV4_FAMILY else IPV6_FAMILY);
    if a.Ip4? {
      Inside(buf, off + 24, b, 4, 8);
      Number(buf, off + 28, 4, a.ip);
    } else {
      Inside(buf, off + 24, b, 8, 24);
      var address := buf[off + 32..off + 48];
      assert forall i :: 0 <= i < 16 ==> address[i] == buf[off + 32 + i];
    }
  }

  lemma EntryRead(buf: seq<byte>, off: nat, e: WireEntry, next: nat)
    requires Writable(e) && next < UINT32 && HasPart(buf, off, Encode(e, next))
    ensures InBounds(buf, off) && Supported(buf, off)
    ensures At(buf, off, 4) == next && InfoAt(buf, off) == InfoOf(e)
  {
    hide Le, Head, AddrBytes;
    var b := Encode(e, next);
    Inside(buf, off, b, 0, 24);
    assert b[0..24] == Head(e, next);
    HeadRead(buf, off, e, next);
    Inside(buf, off, b, 24, 24 + |AddrBytes(e.addr)|);
    assert b[24..24 + |AddrBytes(e.addr)|] == AddrBytes(e.addr);
    AddrRead(buf, off, e.addr);
  }

  lemma EncodeSize(e: WireEntry, next: nat)
    requires Writable(e)
    ensures 0 < |Encode(e, next)| == |Encode(e, 0)| < UINT32
  {
    hide AddrBytes, LeBytes;
  }

  lemma PartOf(buf: seq<byte>, off: nat, a: seq<byte>, b: seq<byte>)
    requires HasPart(buf, off, a + b)
    ensures HasPart(buf, off, a) && HasPart(buf, off + |a|, b)
  {
    assert buf[off..off + |a + b|][..|a|] == a;
    assert buf[off..off + |a + b|][|a|..] == b;
  }

  lemma {:induction false} ListRead(buf: seq<byte>, off: nat, es: seq<WireEntry>)
    requires es != [] && (forall e :: e in es ==> Writable(e))
    requires HasPart(buf, off, EncodeAll(es))
    ensures Parse(buf, off) == Some(InfosOf(es))
    decreases |es|
  {
    hide At, InBounds, Supported, InfoAt, Encode, Writable, InfoOf;
    var e := es[0];
    if |es| == 1 {
      EntryRead(buf, off, e, 0);
      assert InfosOf(es) == [InfoOf(e)];
    } else {
      var n := |Encode(e, 0)|;
      EncodeSize(e, n);
      PartOf(buf, off, Encode(e, n), EncodeAll(es[1..]));
      EntryRead(buf, off, e, n);
      ListRead(buf, off + n, es[1..]);
      assert InfosOf(es) == [InfoOf(e)] + InfosOf(es[1..]);
    }
  }

  /** Every list of entries that is written is read back, in order. */
  lemma RoundTrip(es: seq<WireEntry>)
    requires es != [] && (forall e :: e in es ==> Writable(e))
    ensures Parse(EncodeAll(es), 0) == Some(InfosOf(es))
  {
    hide EncodeAll, Writable;
    var buf := EncodeAll(es);
    assert buf[0..0 + |buf|] == buf;
    ListRead(buf, 0, es);
  }
}
