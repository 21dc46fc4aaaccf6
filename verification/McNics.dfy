/**
 Building NIC lists from interface descriptions: descriptions with the same index are
 merged into one NIC, and an RSS-capable interface stands for several NICs.
 */
module McNics {
  import opened Integers
  import opened Options
  import opened McTypes
  import opened McConList
  import opened McReport
  import opened McNotifier

  /** One interface description: one address of one interface. */
  datatype NicInfo = NicInfo(index: uint32, caps: uint32, speed: nat, nicType: uint32, addr: Addr)

  const DEFAULT_MAX_CHANNELS := 17
  const DEFAULT_RSS_CHANNELS := 4
  const MAX_IGNORE_LIST := 32

  /** An empty table; a zero count stands for its default, and an overlong ignore list is dropped. */
  function Init(maxChannels: uint32, srvrRss: uint32, clntRss: uint32, ignoreList: seq<uint32>,
    preferWired: bool): Table {
    Table(0, [], [], map[], map[], map[],
          if maxChannels != 0 then maxChannels else DEFAULT_MAX_CHANNELS,
          if srvrRss != 0 then srvrRss else DEFAULT_RSS_CHANNELS,
          if clntRss != 0 then clntRss else DEFAULT_RSS_CHANNELS,
          if |ignoreList| <= MAX_IGNORE_LIST then
            seq(|ignoreList|, i requires 0 <= i < |ignoreList| => ignoreList[i] as nat) else [],
          preferWired, [], map[], 0, [], 0)
  }

  predicate RssCapable(info: NicInfo) {
    info.caps % 2 == 1
  }

  /** The index of RSS copy `rss` of an interface. */
  function CopyIndex(info: NicInfo, rss: nat): nat {
    rss * UINT32 + info.index
  }

  /** The NIC brought up to date with a description. */
  function Described(nic: Nic, info: NicInfo, ignored: bool): Nic {
    AddAddr(nic.(caps := info.caps, speed := info.speed, nicType := info.nicType, ignored := nic.ignored || ignored),
      info.addr)
  }

  function BlankNic(index: nat): Nic {
    Nic(index, 0, 0, 0, false, false, false, [])
  }

  /** One description, for RSS copy `rss`. */
  function AddInfo(t: Table, info: NicInfo, rss: nat, ignored: bool, isClient: bool): (r: Table)
    requires Shaped(t)
    ensures Shaped(r) && Steady(t, r)
  {
    match FindNic(t.nics, Side(t, isClient), CopyIndex(info, rss), 0)
    case None => InsertNic(t, Described(BlankNic(CopyIndex(info, rss)), info, ignored), isClient)
    case Some(n) => t.(nics := t.nics[n := Described(t.nics[n], info, ignored)])
  }

  /** The first `k` RSS copies of one description. */
  function AddCopies(t: Table, info: NicInfo, ignored: bool, isClient: bool, k: nat): (r: Table)
    requires Shaped(t)
    ensures Shaped(r) && Steady(t, r)
  {
    if k == 0 then t else AddInfo(AddCopies(t, info, ignored, isClient, k - 1), info, k - 1, ignored, isClient)
  }

  /** How many NICs a description stands for. */
  function Copies(info: NicInfo, rssChannels: nat, ignored: bool): nat {
    if RssCapable(info) && !ignored && rssChannels > 1 then rssChannels else 1
  }

  /** A description as the client's parser sees it when RSS is forced on. */
  function Forced(info: NicInfo, forceRss: bool): NicInfo {
    if forceRss && !RssCapable(info) then info.(caps := info.caps + 1) else info
  }

  /** The client's descriptions, the first `k` of them. */
  function AddClients(t: Table, infos: seq<NicInfo>, forceRss: bool, k: nat): (r: Table)
    requires Shaped(t) && k <= |infos|
    ensures Shaped(r) && Steady(t, r)
  {
    if k == 0 then t
    else
      var p := AddClients(t, infos, forceRss, k - 1);
      var info := Forced(infos[k - 1], forceRss);
      var ignored := (info.index as nat) in t.ignoreList;
      AddCopies(p, info, ignored, true, Copies(info, t.clntRss, ignored))
  }

  /** The server's descriptions, the first `k` of them. */
  function AddServers(t: Table, infos: seq<NicInfo>, rssChannels: nat, k: nat): (r: Table)
    requires Shaped(t) && k <= |infos|
    ensures Shaped(r) && Steady(t, r)
  {
    if k == 0 then t
    else
      AddCopies(AddServers(t, infos, rssChannels, k - 1), infos[k - 1], false, false,
        Copies(infos[k - 1], rssChannels, false))
  }

  /** The NICs of one list, in list order. */
  function NicList(t: Table, list: seq<NicId>): (r: seq<Nic>)
    requires forall n :: n in list ==> n in t.nics
    ensures |r| == |list| && forall i :: 0 <= i < |list| ==> r[i] == t.nics[list[i]]
  {
    seq(|list|, i requires 0 <= i < |list| => t.nics[list[i]])
  }

  // ----- Building keeps the table well formed -----

  lemma InitWF(maxChannels: uint32, srvrRss: uint32, clntRss: uint32, ignoreList: seq<uint32>, preferWired: bool)
    ensures var t := Init(maxChannels, srvrRss, clntRss, ignoreList, preferWired);
            WF(t) && Shaped(t) && NoIdleInUse(t) && NoStarvation(t) && Agree(t) && SpeedsFresh(t)
  {
  }

  /** What adding a description keeps: everything but the cached speeds, for it may change a link
      speed behind a busy pair.  A new NIC is idle. */
  ghost predicate Extends(t: Table, t': Table)
    requires Shaped(t)
  {
    && WF(t') && Shaped(t') && t'.cons == t.cons && t'.success == t.success && t'.conList == t.conList
    && (forall n :: n in t.nicState ==> n in t'.nicState && t'.nicState[n] == t.nicState[n])
    && (forall n :: n in t'.nicState && n !in t.nicState ==> t'.nicState[n] == Idle)
  }

  lemma AddInfoExtends(t: Table, info: NicInfo, rss: nat, ignored: bool, isClient: bool)
    requires WF(t) && Shaped(t) && (!isClient ==> !ignored)
    ensures Extends(t, AddInfo(t, info, rss, ignored, isClient))
  {
    hide WF, Extends, InsertNic, Described, Shaped;
    InfoIndex(t, info, rss, ignored, isClient);
    match FindNic(t.nics, Side(t, isClient), CopyIndex(info, rss), 0) {
      case None => InsertExtends(t, Described(BlankNic(CopyIndex(info, rss)), info, ignored), isClient);
      case Some(n) => DescribedExtends(t, n, info, ignored, isClient);
    }
  }

  lemma InfoIndex(t: Table, info: NicInfo, rss: nat, ignored: bool, isClient: bool)
    requires Shaped(t) && (!isClient ==> !ignored)
    ensures forall n :: n in Side(t, isClient) ==> n in t.nics
    ensures FindNic(t.nics, Side(t, isClient), CopyIndex(info, rss), 0).None? ==>
      Insertable(t, Described(BlankNic(CopyIndex(info, rss)), info, ignored), isClient)
  {
  }

  lemma InsertExtends(t: Table, nic: Nic, isClient: bool)
    requires WF(t) && Shaped(t) && Insertable(t, nic, isClient)
    ensures Extends(t, InsertNic(t, nic, isClient))
  {
    hide WF, InsertAt, Inserted, Insertable;
    InsertWF(t, nic, isClient);
    NextFresh(t);
  }

  lemma DescribedExtends(t: Table, n: NicId, info: NicInfo, ignored: bool, isClient: bool)
    requires WF(t) && Shaped(t) && (!isClient ==> !ignored) && n in Side(t, isClient) && n in t.nics
    ensures Extends(t, t.(nics := t.nics[n := Described(t.nics[n], info, ignored)]))
  {
    hide WF;
    ServersNotIgnored(t);
    SidesApart(t);
    RenicsWF(t, t.nics[n := Described(t.nics[n], info, ignored)]);
  }

  lemma SidesApart(t: Table)
    requires WF(t)
    ensures forall n :: n in t.clients ==> n !in t.servers
  {
    hide ConsOk, SlicesOk, NoDup, UniqueIndices;
  }

  lemma ExtendsTransitive(a: Table, b: Table, c: Table)
    requires Shaped(a) && Extends(a, b) && Extends(b, c)
    ensures Extends(a, c)
  {
    hide WF, Shaped;
  }

  lemma ExtendsReflexive(t: Table)
    requires WF(t) && Shaped(t)
    ensures Extends(t, t)
  {
    hide WF;
  }

  lemma {:induction false} AddCopiesExtends(t: Table, info: NicInfo, ignored: bool, isClient: bool, k: nat)
    requires WF(t) && Shaped(t) && (!isClient ==> !ignored)
    ensures Extends(t, AddCopies(t, info, ignored, isClient, k))
  {
    hide WF, AddInfo;
    if k == 0 {
      ExtendsReflexive(t);
    } else {
      var p := AddCopies(t, info, ignored, isClient, k - 1);
      AddCopiesExtends(t, info, ignored, isClient, k - 1);
      AddInfoExtends(p, info, k - 1, ignored, isClient);
      ExtendsTransitive(t, p, AddCopies(t, info, ignored, isClient, k));
    }
  }

  lemma {:induction false} AddClientsExtends(t: Table, infos: seq<NicInfo>, forceRss: bool, k: nat)
    requires WF(t) && Shaped(t) && k <= |infos|
    ensures Extends(t, AddClients(t, infos, forceRss, k))
  {
    hide WF, AddCopies;
    if k == 0 {
      ExtendsReflexive(t);
    } else {
      var p := AddClients(t, infos, forceRss, k - 1);
      var info := Forced(infos[k - 1], forceRss);
      var ignored := (info.index as nat) in t.ignoreList;
      AddClientsExtends(t, infos, forceRss, k - 1);
      AddCopiesExtends(p, info, ignored, true, Copies(info, t.clntRss, ignored));
      ExtendsTransitive(t, p, AddClients(t, infos, forceRss, k));
    }
  }

  lemma {:induction false} AddServersExtends(t: Table, infos: seq<NicInfo>, rssChannels: nat, k: nat)
    requires WF(t) && Shaped(t) && k <= |infos|
    ensures Extends(t, AddServers(t, infos, rssChannels, k))
  {
    hide WF, AddCopies;
    if k == 0 {
      ExtendsReflexive(t);
    } else {
      var p := AddServers(t, infos, rssChannels, k - 1);
      AddServersExtends(t, infos, rssChannels, k - 1);
      AddCopiesExtends(p, infos[k - 1], false, false, Copies(infos[k - 1], rssChannels, false));
      ExtendsTransitive(t, p, AddServers(t, infos, rssChannels, k));
    }
  }

  /** Adding descriptions changes no pair and no NIC state. */
  lemma ExtendsKeeps(t: Table, t': Table)
    requires Shaped(t) && Extends(t, t')
    ensures NoIdleInUse(t) ==> NoIdleInUse(t')
    ensures NoStarvation(t) ==> NoStarvation(t')
    ensures Agree(t') <==> Agree(t)
  {
    hide WF, NoDup;
  }
}
