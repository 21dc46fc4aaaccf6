/**
 The array of client interfaces as the kernel gets it: entries of a fixed size, each with the
 offset of the next one, and a count.
 */
module McArray {
  import opened Integers
  import opened McTypes
  import opened McNics
  import opened McWire

  /** The size of an entry, and where its address and the address data begin. */
  const ENTRY_SIZE: nat := 160
  const ADDR_OFFSET: nat := 32
  const ADDR_DATA: nat := 34
  const AF_INET: byte := 2

  // ----- Reading -----

  /** An address that is not an IPv4 one is taken for an IPv6 one. */
  function SockAddr(storage: seq<byte>): Addr
    requires |storage| == 128
  {
    if storage[1] == AF_INET then V4(Le(storage[4..8]))
    else V6(seq(16, i requires 0 <= i < 16 => storage[8 + i] as nat))
  }

  function EntryAt(buf: seq<byte>, off: nat): NicInfo
    requires off + ENTRY_SIZE <= |buf|
  {
    Le4(buf[off + 4..off + 8]);
    Le4(buf[off + 8..off + 12]);
    Le4(buf[off + 24..off + 28]);
    NicInfo(At(buf, off + 4, 4), At(buf, off + 8, 4), At(buf, off + 16, 8), At(buf, off + 24, 4),
            SockAddr(buf[off + ADDR_OFFSET..off + ENTRY_SIZE]))
  }

  /** The entry and the address it announces are inside the buffer. */
  predicate EntryFits(buf: seq<byte>, off: nat) {
    off + ENTRY_SIZE <= |buf| && off + ADDR_DATA + buf[off + ADDR_OFFSET] as nat <= |buf|
  }

  /** The descriptions taken, and whether the array was read to its end. */
  datatype Reading = Reading(infos: seq<NicInfo>, ok: bool)

  /** An entry that does not fit ends the reading; one whose offset is too small ends it after it was taken. */
  function ReadEntries(buf: seq<byte>, off: nat, count: nat): (r: Reading)
    ensures |r.infos| <= count && (r.ok ==> |r.infos| == count)
    decreases count
  {
    if count == 0 then Reading([], true)
    else if !EntryFits(buf, off) then Reading([], false)
    else
      var next := At(buf, off, 4);
      if next < ENTRY_SIZE then Reading([EntryAt(buf, off)], false)
      else
        var rest := ReadEntries(buf, off + next, count - 1);
        Reading([EntryAt(buf, off)] + rest.infos, rest.ok)
  }

  /** However large the count, no more entries are taken than the buffer has room for. */
  lemma {:induction false} ReadBound(buf: seq<byte>, off: nat, count: nat)
    ensures ReadEntries(buf, off, count).infos != [] ==>
      off + ENTRY_SIZE * |ReadEntries(buf, off, count).infos| <= |buf|
    decreases count
  {
    hide EntryAt, At;
    if count > 0 && EntryFits(buf, off) && At(buf, off, 4) >= ENTRY_SIZE {
      ReadBound(buf, off + At(buf, off, 4), count - 1);
    }
  }

  function Preceded(done: seq<NicInfo>, r: Reading): Reading {
    Reading(done + r.infos, r.ok)
  }

  /** One entry of the array. */
  lemma ReadStep(buf: seq<byte>, off: nat, count: nat, done: seq<NicInfo>)
    requires count > 0 && EntryFits(buf, off)
    ensures var more := done + [EntryAt(buf, off)];
      Preceded(done, ReadEntries(buf, off, count)) ==
        if At(buf, off, 4) < ENTRY_SIZE then Reading(more, false)
        else Preceded(more, ReadEntries(buf, off + At(buf, off, 4), count - 1))
  {
    hide EntryAt, At;
    if At(buf, off, 4) >= ENTRY_SIZE {
      var rest := ReadEntries(buf, off + At(buf, off, 4), count - 1);
      assert done + ([EntryAt(buf, off)] + rest.infos) == done + [EntryAt(buf, off)] + rest.infos;
    }
  }

  lemma ReadOut(buf: seq<byte>, off: nat, count: nat, done: seq<NicInfo>)
    requires count > 0 && !EntryFits(buf, off)
    ensures Preceded(done, ReadEntries(buf, off, count)) == Reading(done, false)
  {
    assert done + [] == done;
  }

  lemma ReadEnd(buf: seq<byte>, off: nat, done: seq<NicInfo>)
    ensures Preceded(done, ReadEntries(buf, off, 0)) == Reading(done, true)
  {
    assert done + [] == done;
  }

  // ----- The table -----

  lemma AddClientsNone(t: Table, forceRss: bool)
    requires Shaped(t)
    ensures AddClients(t, [], forceRss, 0) == t
  {
  }

  lemma {:induction false} AddClientsPrefix(t: Table, infos: seq<NicInfo>, more: seq<NicInfo>, forceRss: bool, k: nat)
    requires Shaped(t) && k <= |infos|
    ensures AddClients(t, infos + more, forceRss, k) == AddClients(t, infos, forceRss, k)
  {
    hide Shaped, AddCopies;
    if k > 0 {
      AddClientsPrefix(t, infos, more, forceRss, k - 1);
    }
  }

  lemma AddClientsOne(t: Table, infos: seq<NicInfo>, info: NicInfo, forceRss: bool)
    requires Shaped(t)
    ensures var forced := Forced(info, forceRss);
      var ignored := (forced.index as nat) in t.ignoreList;
      AddClients(t, infos + [info], forceRss, |infos| + 1)
        == AddCopies(AddClients(t, infos, forceRss, |infos|), forced, ignored, true, Copies(forced, t.clntRss, ignored))
  {
    hide Shaped, AddCopies, Forced;
    AddClientsPrefix(t, infos, [info], forceRss, |infos|);
  }

  // ----- Writing -----

  /**
   An entry with its raw address; `gap` is what fills the hole before the link speed, `port` the
   port and the hole after it, and `tail` whatever follows the entry.
   */
  datatype Entry = Entry(index: uint32, caps: uint32, gap: seq<byte>, speed: uint64, nicType: uint32, port: seq<byte>,
                         storage: seq<byte>, tail: seq<byte>)

  /** The announced length stays inside the storage, and the offset of the next entry can be written. */
  predicate Sane(e: Entry) {
    && |e.gap| == 4 && |e.port| == 4 && |e.storage| == 128 && ADDR_DATA + e.storage[0] as nat <= ENTRY_SIZE
    && EntryLength(e) < UINT32
  }

  function EntryLength(e: Entry): nat {
    ENTRY_SIZE + |e.tail|
  }

  function EntryHead(e: Entry, next: nat): (s: seq<byte>)
    requires Sane(e)
    ensures |s| == ADDR_OFFSET
  {
    LeBytes(next, 4) + LeBytes(e.index, 4) + LeBytes(e.caps, 4) + e.gap + LeBytes(e.speed, 8) + LeBytes(e.nicType, 4) +
      e.port
  }

  /** The entries one after the other, each with the offset of the next; the last one gives the offset `last`. */
  function WriteEntries(es: seq<Entry>, last: uint32): seq<byte>
    requires forall e :: e in es ==> Sane(e)
  {
    if es == [] then []
    else
      var head := EntryHead(es[0], if |es| == 1 then last else EntryLength(es[0]));
      head + es[0].storage + es[0].tail + WriteEntries(es[1..], last)
  }

  function EntryInfo(e: Entry): NicInfo
    requires Sane(e)
  {
    NicInfo(e.index, e.caps, e.speed as nat, e.nicType, SockAddr(e.storage))
  }

  function EntryInfos(es: seq<Entry>): (r: seq<NicInfo>)
    requires forall e :: e in es ==> Sane(e)
    ensures |r| == |es| && forall i :: 0 <= i < |es| ==> r[i] == EntryInfo(es[i])
  {
    seq(|es|, i requires 0 <= i < |es| => EntryInfo(es[i]))
  }

  lemma HeadParts(e: Entry, next: nat)
    requires Sane(e)
    ensures var h := EntryHead(e, next);
      && h[0..4] == LeBytes(next, 4) && h[4..8] == LeBytes(e.index, 4) && h[8..12] == LeBytes(e.caps, 4)
      && h[16..24] == LeBytes(e.speed, 8) && h[24..28] == LeBytes(e.nicType, 4)
  {
    hide LeBytes;
  }

  lemma HeadNumbers(buf: seq<byte>, off: nat, e: Entry, next: nat)
    requires Sane(e) && HasPart(buf, off, EntryHead(e, next)) && next < UINT32
    ensures At(buf, off, 4) == next && At(buf, off + 4, 4) == e.index && At(buf, off + 8, 4) == e.caps
    ensures At(buf, off + 16, 8) == e.speed && At(buf, off + 24, 4) == e.nicType
  {
    hide Le, LeBytes, EntryHead;
    var h := EntryHead(e, next);
    HeadParts(e, next);
    Ranges();
    Inside(buf, off, h, 0, 4);
    Inside(buf, off, h, 4, 8);
    Inside(buf, off, h, 8, 12);
    Inside(buf, off, h, 16, 24);
    Inside(buf, off, h, 24, 28);
    Number(buf, off, 4, next);
    Number(buf, off + 4, 4, e.index);
    Number(buf, off + 8, 4, e.caps);
    Number(buf, off + 16, 8, e.speed);
    Number(buf, off + 24, 4, e.nicType);
  }

  lemma EntryRead(buf: seq<byte>, off: nat, e: Entry, next: nat)
    requires Sane(e) && next < UINT32 && HasPart(buf, off, EntryHead(e, next)) &&
      HasPart(buf, off + ADDR_OFFSET, e.storage)
    ensures EntryFits(buf, off) && At(buf, off, 4) == next && EntryAt(buf, off) == EntryInfo(e)
  {
    hide At, SockAddr, EntryHead;
    HeadNumbers(buf, off, e, next);
    var storage := buf[off + ADDR_OFFSET..off + ENTRY_SIZE];
    assert storage == e.storage && storage[0] == buf[off + ADDR_OFFSET];
  }

  lemma ReadFirst(buf: seq<byte>, off: nat, count: nat)
    requires count > 0 && EntryFits(buf, off)
    ensures At(buf, off, 4) < ENTRY_SIZE ==> ReadEntries(buf, off, count) == Reading([EntryAt(buf, off)], false)
    ensures At(buf, off, 4) >= ENTRY_SIZE ==>
      var rest := ReadEntries(buf, off + At(buf, off, 4), count - 1);
      ReadEntries(buf, off, count) == Reading([EntryAt(buf, off)] + rest.infos, rest.ok)
  {
    hide EntryAt, At;
  }

  lemma WriteFirst(es: seq<Entry>, last: uint32)
    requires es != [] && forall e :: e in es ==> Sane(e)
    ensures WriteEntries(es, last) ==
      ((EntryHead(es[0], if |es| == 1 then last else EntryLength(es[0])) + es[0].storage) + es[0].tail) +
        WriteEntries(es[1..], last)
  {
    hide EntryHead;
  }

  lemma {:induction false} EntriesRead(buf: seq<byte>, off: nat, es: seq<Entry>, last: uint32)
    requires (forall e :: e in es ==> Sane(e)) && HasPart(buf, off, WriteEntries(es, last))
    ensures ReadEntries(buf, off, |es|) == Reading(EntryInfos(es), es == [] || last >= ENTRY_SIZE)
    decreases |es|
  {
    hide EntryInfo, Sane, WriteEntries, ReadEntries, HasPart, EntryLength;
    if es == [] {
      NoneLeft(buf, off);
    } else {
      FirstRead(buf, off, es, last);
      if |es| == 1 {
        assert EntryInfos(es) == [EntryInfo(es[0])];
      } else {
        EntriesRead(buf, off + EntryLength(es[0]), es[1..], last);
        assert EntryInfos(es) == [EntryInfo(es[0])] + EntryInfos(es[1..]);
      }
    }
  }

  /** The first entry is read, and what follows it is the rest. */
  lemma FirstRead(buf: seq<byte>, off: nat, es: seq<Entry>, last: uint32)
    requires es != [] && (forall e :: e in es ==> Sane(e)) && HasPart(buf, off, WriteEntries(es, last))
    ensures |es| == 1 ==>
      && ReadEntries(buf, off, 1).infos == [EntryInfo(es[0])]
      && (ReadEntries(buf, off, 1).ok <==> last >= ENTRY_SIZE)
    ensures HasPart(buf, off + EntryLength(es[0]), WriteEntries(es[1..], last))
    ensures |es| > 1 ==>
      var rest := ReadEntries(buf, off + EntryLength(es[0]), |es| - 1);
      ReadEntries(buf, off, |es|) == Reading([EntryInfo(es[0])] + rest.infos, rest.ok)
  {
    hide At, EntryAt, EntryFits, EntryInfo, EntryHead, WriteEntries, ReadEntries, Sane;
    var e := es[0];
    var next := if |es| == 1 then last else EntryLength(e);
    var h := EntryHead(e, next);
    Sizes(e);
    WriteFirst(es, last);
    PartOf(buf, off, h + e.storage + e.tail, WriteEntries(es[1..], last));
    PartOf(buf, off, h + e.storage, e.tail);
    PartOf(buf, off, h, e.storage);
    EntryRead(buf, off, e, next);
    ReadFirst(buf, off, |es|);
    if |es| == 1 && last >= ENTRY_SIZE { NoneLeft(buf, off + last); }
  }

  lemma NoneLeft(buf: seq<byte>, off: nat)
    ensures ReadEntries(buf, off, 0) == Reading([], true)
  {
  }

  lemma Sizes(e: Entry)
    requires Sane(e)
    ensures |e.storage| == 128 && EntryLength(e) < UINT32
  {
  }

  /**
   Every array that is written, whatever is between its entries, is read back whole and in order.  Whether it is then
   refused depends on the offset of its last entry alone, although no entry follows it.
   */
  lemma ArrayRoundTrip(es: seq<Entry>, last: uint32)
    requires forall e :: e in es ==> Sane(e)
    ensures ReadEntries(WriteEntries(es, last), 0, |es|) == Reading(EntryInfos(es), es == [] || last >= ENTRY_SIZE)
  {
    hide WriteEntries, Sane;
    var buf := WriteEntries(es, last);
    assert buf[0..0 + |buf|] == buf;
    EntriesRead(buf, 0, es, last);
  }
}
