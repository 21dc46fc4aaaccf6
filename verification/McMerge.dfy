/**
 The NICs of one side, one per index and RSS copy, out of descriptions that may repeat an index.
 */
module McMerge {
  import opened Options
  import opened McTypes
  import opened McReport
  import opened McNotifier
  import opened McNics

  // ----- What the descriptions say of an index -----

  /** The description is one of the NIC with the index: of the interface itself, or of one of its RSS copies if it is
      RSS-capable, by itself or by force, and not ignore-listed. */
  predicate Describes(info: NicInfo, rssChannels: nat, force: bool, ignoreList: seq<nat>, index: nat) {
    && info.index == index % UINT32
    && (index / UINT32 == 0 ||
        ((force || info.caps % 2 == 1) && index % UINT32 !in ignoreList && index / UINT32 < rssChannels))
  }

  /** How the descriptions are to be read. */
  datatype Reading = Reading(infos: seq<NicInfo>, rssChannels: nat, force: bool, ignoreList: seq<nat>)

  /** Description `i` is one of the index. */
  predicate TellsOf(d: Reading, index: nat, i: nat)
    requires i < |d.infos|
  {
    Describes(d.infos[i], d.rssChannels, d.force, d.ignoreList, index)
  }

  /** None of the descriptions from `j` up to `k` is one of the index. */
  ghost predicate Silent(d: Reading, index: nat, j: nat, k: nat)
    requires k <= |d.infos|
  {
    forall i :: j <= i < k ==> !TellsOf(d, index, i)
  }

  /** One of the first `k` descriptions gives the index the address. */
  ghost predicate TellsAddr(d: Reading, index: nat, k: nat, a: Addr)
    requires k <= |d.infos|
  {
    exists i :: 0 <= i < k && TellsOf(d, index, i) && d.infos[i].addr == a
  }

  /** The NIC has an address of the family. */
  predicate HasFamily(addrs: seq<Addr>, v4: bool) {
    exists i :: 0 <= i < |addrs| && addrs[i].V4? == v4
  }

  /** The flags of the NIC tell the families of its addresses. */
  predicate FlagsRight(nic: Nic) {
    (nic.ip4 <==> HasFamily(nic.addrs, true)) && (nic.ip6 <==> HasFamily(nic.addrs, false))
  }

  /** The capabilities recorded: those described, with the RSS bit set where it is forced. */
  predicate CapsFrom(info: NicInfo, force: bool, caps: nat) {
    caps == if force && info.caps % 2 == 0 then info.caps + 1 else info.caps
  }

  /** The NIC has the values of the last description that is one of the index. */
  ghost predicate Newest(d: Reading, index: nat, k: nat, nic: Nic)
    requires k <= |d.infos|
  {
    forall i :: 0 <= i < k && TellsOf(d, index, i) && Silent(d, index, i + 1, k) ==>
      && nic.speed == d.infos[i].speed && nic.nicType == d.infos[i].nicType
      && CapsFrom(d.infos[i], d.force, nic.caps)
  }

  /**
   What the first `k` descriptions make of the NIC of an index.  There is one afterwards exactly if there was one or
   something was told of it, and it is as it was if nothing was.  It has its addresses and all that were told and no
   other, none twice if none was; its flags tell its families; it has the newest values, and is ignore-listed if it was
   or if the index is and something was told of it.
   */
  ghost predicate MergedFrom(d: Reading, index: nat, k: nat, start: Option<Nic>, r: Option<Nic>)
    requires k <= |d.infos|
  {
    && (r.None? <==> start.None? && Silent(d, index, 0, k))
    && (Silent(d, index, 0, k) ==> r == start)
    && (r.Some? ==>
          && r.value.index == index && Newest(d, index, k, r.value)
          && (start.None? || NoDup(start.value.addrs) ==> NoDup(r.value.addrs))
          && (start.None? || FlagsRight(start.value) ==> FlagsRight(r.value))
          && (forall a :: a in r.value.addrs <==> (start.Some? && a in start.value.addrs) || TellsAddr(d, index, k, a))
          && (r.value.ignored <==>
              (start.Some? && start.value.ignored) || (!Silent(d, index, 0, k) && index % UINT32 in d.ignoreList)))
  }

  // ----- One description more -----

  lemma FamilyMore(addrs: seq<Addr>, a: Addr, v4: bool)
    ensures HasFamily(addrs + [a], v4) <==> HasFamily(addrs, v4) || a.V4? == v4
  {
    var all := addrs + [a];
    if i :| 0 <= i < |addrs| && addrs[i].V4? == v4 {
      assert all[i] == addrs[i];
    }
    assert all[|addrs|] == a;
  }

  /** The NIC after one more description. */
  lemma DescribedMeans(nic: Nic, info: NicInfo, ignored: bool)
    ensures var r := Described(nic, info, ignored);
      && r.index == nic.index && r.speed == info.speed && r.caps == info.caps && r.nicType == info.nicType
      && (r.ignored <==> nic.ignored || ignored)
      && (NoDup(nic.addrs) ==> NoDup(r.addrs)) && (FlagsRight(nic) ==> FlagsRight(r))
      && forall a :: a in r.addrs <==> a in nic.addrs || a == info.addr
  {
    FamilyMore(nic.addrs, info.addr, true);
    FamilyMore(nic.addrs, info.addr, false);
    if info.addr in nic.addrs {
      var i :| 0 <= i < |nic.addrs| && nic.addrs[i] == info.addr;
      assert HasFamily(nic.addrs, info.addr.V4?);
    }
    hide HasFamily;
  }

  lemma BlankMeans(index: nat)
    ensures var nic := BlankNic(index);
      nic.index == index && nic.addrs == [] && !nic.ignored && NoDup(nic.addrs) && FlagsRight(nic)
  {
  }

  lemma SilentMore(d: Reading, index: nat, j: nat, k: nat)
    requires 0 < k <= |d.infos| && j < k
    ensures Silent(d, index, j, k) <==> Silent(d, index, j, k - 1) && !TellsOf(d, index, k - 1)
  {
  }

  lemma TellsAddrMore(d: Reading, index: nat, k: nat, a: Addr)
    requires 0 < k <= |d.infos|
    ensures TellsAddr(d, index, k, a) <==>
      TellsAddr(d, index, k - 1, a) || (TellsOf(d, index, k - 1) && d.infos[k - 1].addr == a)
  {
    hide TellsOf;
  }

  /** A description of another index changes nothing. */
  lemma MergedSame(d: Reading, index: nat, k: nat, start: Option<Nic>, r: Option<Nic>)
    requires 0 < k <= |d.infos| && !TellsOf(d, index, k - 1) && MergedFrom(d, index, k - 1, start, r)
    ensures MergedFrom(d, index, k, start, r)
  {
    hide TellsOf, FlagsRight, NoDup, TellsAddr, Newest, Silent;
    SilentMore(d, index, 0, k);
    if r.Some? { NewestSame(d, index, k, r.value); }
    forall a
      ensures TellsAddr(d, index, k, a) <==> TellsAddr(d, index, k - 1, a)
    {
      TellsAddrMore(d, index, k, a);
    }
  }

  lemma NewestSame(d: Reading, index: nat, k: nat, nic: Nic)
    requires 0 < k <= |d.infos| && !TellsOf(d, index, k - 1) && Newest(d, index, k - 1, nic)
    ensures Newest(d, index, k, nic)
  {
    hide TellsOf, CapsFrom;
    forall i | 0 <= i < k && TellsOf(d, index, i) && Silent(d, index, i + 1, k)
      ensures i < k - 1 && Silent(d, index, i + 1, k - 1)
    {
    }
  }

  /** A description of the index brings its NIC up to date, or makes it. */
  lemma MergedMore(d: Reading, index: nat, k: nat, start: Option<Nic>, p: Option<Nic>, info: NicInfo)
    requires 0 < k <= |d.infos| && TellsOf(d, index, k - 1) && MergedFrom(d, index, k - 1, start, p)
    requires info == d.infos[k - 1].(caps := info.caps) && CapsFrom(d.infos[k - 1], d.force, info.caps)
    ensures var nic := if p.None? then BlankNic(index) else p.value;
      MergedFrom(d, index, k, start, Some(Described(nic, info, index % UINT32 in d.ignoreList)))
  {
    hide TellsOf, FlagsRight, NoDup, TellsAddr, Described, CapsFrom, BlankNic;
    var nic := if p.None? then BlankNic(index) else p.value;
    BlankMeans(index);
    DescribedMeans(nic, info, index % UINT32 in d.ignoreList);
    SilentMore(d, index, 0, k);
    var r := Described(nic, info, index % UINT32 in d.ignoreList);
    NewestLast(d, index, k, r);
    forall a
      ensures TellsAddr(d, index, k, a) <==> TellsAddr(d, index, k - 1, a) || info.addr == a
      ensures p.None? ==> !TellsAddr(d, index, k - 1, a)
    {
      TellsAddrMore(d, index, k, a);
      if p.None? { SilentAddr(d, index, k - 1, a); }
    }
  }

  lemma SilentAddr(d: Reading, index: nat, k: nat, a: Addr)
    requires k <= |d.infos| && Silent(d, index, 0, k)
    ensures !TellsAddr(d, index, k, a)
  {
    hide TellsOf;
  }

  lemma NewestLast(d: Reading, index: nat, k: nat, nic: Nic)
    requires 0 < k <= |d.infos| && TellsOf(d, index, k - 1)
    requires nic.speed == d.infos[k - 1].speed && nic.nicType == d.infos[k - 1].nicType
    requires CapsFrom(d.infos[k - 1], d.force, nic.caps)
    ensures Newest(d, index, k, nic)
  {
    hide TellsOf, CapsFrom;
    forall i | 0 <= i < k && TellsOf(d, index, i) && Silent(d, index, i + 1, k)
      ensures i == k - 1
    {
    }
  }

  // ----- The NIC of an index -----

  /** The NIC of one side with an index. */
  ghost function NicAt(t: Table, isClient: bool, index: nat): Option<Nic>
    requires Shaped(t)
  {
    var n := FindNic(t.nics, Side(t, isClient), index, 0);
    if n.None? then None else Some(t.nics[n.value])
  }

  lemma NicAtIs(t: Table, isClient: bool, n: NicId)
    requires WF(t) && Shaped(t) && n in Side(t, isClient)
    ensures NicAt(t, isClient, t.nics[n].index) == Some(t.nics[n])
  {
    hide ConsOk, UniquePairs, SlicesOk;
    FindNicUnique(t.nics, Side(t, isClient), n);
  }

  lemma NicAtNone(t: Table, isClient: bool, index: nat)
    requires Shaped(t) && forall n :: n in Side(t, isClient) ==> t.nics[n].index != index
    ensures NicAt(t, isClient, index).None?
  {
  }

  lemma NicAtSome(t: Table, isClient: bool, index: nat) returns (n: Option<NicId>)
    requires Shaped(t)
    ensures n == FindNic(t.nics, Side(t, isClient), index, 0)
    ensures n.None? ==>
      NicAt(t, isClient, index).None? && forall m :: m in Side(t, isClient) ==> t.nics[m].index != index
    ensures n.Some? ==>
      && n.value in Side(t, isClient) && t.nics[n.value].index == index
      && NicAt(t, isClient, index) == Some(t.nics[n.value])
  {
    n := FindNic(t.nics, Side(t, isClient), index, 0);
  }

  function OrBlank(nic: Option<Nic>, index: nat): Nic {
    if nic.None? then BlankNic(index) else nic.value
  }

  lemma AddInfoAt(t: Table, info: NicInfo, rss: nat, ignored: bool, isClient: bool, index: nat)
    requires WF(t) && Shaped(t) && (!isClient ==> !ignored)
    ensures var u := AddInfo(t, info, rss, ignored, isClient);
      && WF(u)
      && NicAt(u, isClient, index) ==
         if CopyIndex(info, rss) != index then NicAt(t, isClient, index)
         else Some(Described(OrBlank(NicAt(t, isClient, index), index), info, ignored))
  {
    hide WF, Inserted, InsertAt, NicAt, FindNic;
    var u := AddInfo(t, info, rss, ignored, isClient);
    AddInfoExtends(t, info, rss, ignored, isClient);
    var here := NicAtSome(t, isClient, CopyIndex(info, rss));
    var n := NicAtSome(t, isClient, index);
    AddInfoSide(t, info, rss, ignored, isClient);
    if CopyIndex(info, rss) == index {
      NicAtIs(u, isClient, if here.None? then t.next else here.value);
    } else if n.Some? {
      NicAtIs(u, isClient, n.value);
    } else {
      NicAtNone(u, isClient, index);
    }
  }

  /** What one description does to the list of its side. */
  lemma AddInfoSide(t: Table, info: NicInfo, rss: nat, ignored: bool, isClient: bool)
    requires WF(t) && Shaped(t)
    ensures var u := AddInfo(t, info, rss, ignored, isClient);
      var n := FindNic(t.nics, Side(t, isClient), CopyIndex(info, rss), 0);
      && (n.None? ==>
            && (forall m :: m in Side(u, isClient) <==> m in Side(t, isClient) || m == t.next)
            && u.nics == t.nics[t.next := Described(BlankNic(CopyIndex(info, rss)), info, ignored)])
      && (n.Some? ==>
            && Side(u, isClient) == Side(t, isClient)
            && u.nics == t.nics[n.value := Described(t.nics[n.value], info, ignored)])
      && t.next !in Side(t, isClient)
  {
    hide InsertAt, ConsOk, UniquePairs, SlicesOk, FindNic;
  }

  lemma CopyAt(info: NicInfo, rss: nat, index: nat)
    ensures CopyIndex(info, rss) == index <==> info.index == index % UINT32 && rss == index / UINT32
  {
  }

  /** The copies of one description bring one NIC of the index up to date, if it is one of them. */
  lemma {:induction false} CopiesAt(t: Table, info: NicInfo, ignored: bool, isClient: bool, k: nat, index: nat)
    requires WF(t) && Shaped(t) && (!isClient ==> !ignored)
    ensures var u := AddCopies(t, info, ignored, isClient, k);
      && WF(u)
      && NicAt(u, isClient, index) ==
         if info.index == index % UINT32 && index / UINT32 < k
         then Some(Described(OrBlank(NicAt(t, isClient, index), index), info, ignored)) else NicAt(t, isClient, index)
  {
    hide WF, AddInfo, NicAt, Described, OrBlank, CopyIndex, Shaped;
    if k > 0 {
      CopiesAt(t, info, ignored, isClient, k - 1, index);
      AddInfoAt(AddCopies(t, info, ignored, isClient, k - 1), info, k - 1, ignored, isClient, index);
      CopyAt(info, k - 1, index);
    }
  }

  lemma MergedNothing(d: Reading, index: nat, start: Option<Nic>)
    requires start.Some? ==> start.value.index == index
    ensures MergedFrom(d, index, 0, start, start)
  {
  }

  lemma NicAtIndex(t: Table, isClient: bool, index: nat)
    requires Shaped(t)
    ensures NicAt(t, isClient, index).Some? ==> NicAt(t, isClient, index).value.index == index
  {
  }

  /** Each server NIC is merged from the descriptions of its index. */
  lemma {:induction false} ServersMerge(t: Table, infos: seq<NicInfo>, rssChannels: nat, k: nat, index: nat)
    requires WF(t) && Shaped(t) && k <= |infos|
    ensures var u := AddServers(t, infos, rssChannels, k);
      && WF(u)
      && MergedFrom(Reading(infos, rssChannels, false, []), index, k, NicAt(t, false, index), NicAt(u, false, index))
  {
    hide WF, Shaped, AddCopies, MergedFrom, NicAt, Described;
    var d := Reading(infos, rssChannels, false, []);
    if k == 0 {
      NicAtIndex(t, false, index);
      MergedNothing(d, index, NicAt(t, false, index));
    } else {
      ServersMerge(t, infos, rssChannels, k - 1, index);
      var p, info := AddServers(t, infos, rssChannels, k - 1), infos[k - 1];
      CopiesAt(p, info, false, false, Copies(info, rssChannels, false), index);
      if TellsOf(d, index, k - 1) {
        MergedMore(d, index, k, NicAt(t, false, index), NicAt(p, false, index), info);
      } else {
        MergedSame(d, index, k, NicAt(t, false, index), NicAt(p, false, index));
      }
    }
  }

  /** Each client NIC is merged from what it was and the descriptions of its index. */
  lemma {:induction false} ClientsMerge(t: Table, infos: seq<NicInfo>, forceRss: bool, k: nat, index: nat)
    requires WF(t) && Shaped(t) && k <= |infos|
    ensures var u := AddClients(t, infos, forceRss, k);
      && WF(u)
      && MergedFrom(Reading(infos, t.clntRss, forceRss, t.ignoreList), index, k, NicAt(t, true, index),
                    NicAt(u, true, index))
  {
    hide WF, Shaped, AddCopies, MergedFrom, NicAt, Described;
    var d := Reading(infos, t.clntRss, forceRss, t.ignoreList);
    if k == 0 {
      NicAtIndex(t, true, index);
      MergedNothing(d, index, NicAt(t, true, index));
    } else {
      ClientsMerge(t, infos, forceRss, k - 1, index);
      var p, info := AddClients(t, infos, forceRss, k - 1), Forced(infos[k - 1], forceRss);
      var ignored := (info.index as nat) in t.ignoreList;
      CopiesAt(p, info, ignored, true, Copies(info, t.clntRss, ignored), index);
      if TellsOf(d, index, k - 1) {
        MergedMore(d, index, k, NicAt(t, true, index), NicAt(p, true, index), info);
      } else {
        MergedSame(d, index, k, NicAt(t, true, index), NicAt(p, true, index));
      }
    }
  }
}
