/**
 Updates of the NIC lists, from the client's network notifier or from the server's answer
 to an interface query: known NICs are changed in place, new ones are inserted by speed
 and paired, and NICs with only useless pairs are dropped.
 */
module McNotifier {
  import opened Options
  import opened McTypes
  import opened McConList
  import opened McReport

  // ----- One updated NIC -----

  /** The addresses of `a` that `b` also has. */
  function Common(a: seq<Addr>, b: seq<Addr>): seq<Addr> {
    if a == [] then []
    else if a[0] in b then [a[0]] + Common(a[1..], b)
    else Common(a[1..], b)
  }

  /** The NIC with the address added, unless it has it; a new address also records its family. */
  function AddAddr(nic: Nic, a: Addr): Nic {
    if a in nic.addrs then nic
    else nic.(addrs := nic.addrs + [a], ip4 := nic.ip4 || a.V4?, ip6 := nic.ip6 || !a.V4?)
  }

  function AddAddrs(nic: Nic, addrs: seq<Addr>, k: nat): (r: Nic)
    requires k <= |addrs|
    ensures r == nic.(addrs := r.addrs, ip4 := r.ip4, ip6 := r.ip6)
  {
    if k == 0 then nic else AddAddr(AddAddrs(nic, addrs, k - 1), addrs[k - 1])
  }

  /** The NIC with the addresses of the update: those it shares stay first, the new ones follow. */
  function UpdateAddrs(nic: Nic, update: Nic): (r: Nic)
    ensures r == nic.(addrs := r.addrs, ip4 := r.ip4, ip6 := r.ip6)
  {
    AddAddrs(nic.(addrs := Common(nic.addrs, update.addrs)), update.addrs, |update.addrs|)
  }

  function UpdateNic(nic: Nic, update: Nic): Nic {
    UpdateAddrs(nic, update).(speed := update.speed, nicType := update.nicType)
  }

  /** Whether the update tells anything new. */
  predicate Changed(nic: Nic, update: Nic) {
    UpdateAddrs(nic, update).addrs != nic.addrs || nic.speed != update.speed || nic.nicType != update.nicType
  }

  /** The NIC at the given end of a pair. */
  function EndOf(c: Con, isClient: bool): NicId {
    if isClient then c.client else c.server
  }

  /** A pair whose NIC was updated: a hopeless one may be tried again, any other gets its speed refreshed. */
  function ResetCon(nics: map<NicId, Nic>, c: Con, n: NicId, isClient: bool): Con
    requires EndsKnown(nics, c) && n in nics
  {
    if EndOf(c, isClient) == n && !nics[n].ignored then
      if c.state == FailedToConnect || c.state == NoPotential then c.(state := Potential)
      else c.(speed := LinkSpeed(nics, c))
    else c
  }

  function ResetCons(t: Table, n: NicId, isClient: bool): (r: Table)
    requires Shaped(t) && n in t.nics
    ensures Shaped(r) && Steady(t, r)
  {
    t.(cons := map id | id in t.cons :: ResetCon(t.nics, t.cons[id], n, isClient))
  }

  /** Where a NIC of the given speed goes: before the first one that is not faster. */
  function InsertAt(nics: map<NicId, Nic>, list: seq<NicId>, speed: nat, k: nat): (r: nat)
    requires k <= |list| && forall n :: n in list ==> n in nics
    ensures k <= r <= |list|
    ensures forall i :: k <= i < r ==> nics[list[i]].speed > speed
    ensures r < |list| ==> nics[list[r]].speed <= speed
    decreases |list| - k
  {
    if k == |list| || nics[list[k]].speed <= speed then k else InsertAt(nics, list, speed, k + 1)
  }

  function Inserted(list: seq<NicId>, i: nat, n: NicId): (r: seq<NicId>)
    requires i <= |list|
    ensures forall m :: m in r <==> m in list || m == n
    ensures |r| == |list| + 1
  {
    var r := list[..i] + [n] + list[i..];
    assert list == list[..i] + list[i..];
    assert r[i] == n;
    r
  }

  lemma InsertedNoDup(list: seq<NicId>, i: nat, n: NicId)
    requires i <= |list| && NoDup(list) && n !in list
    ensures NoDup(Inserted(list, i, n))
  {
  }

  /** No NIC of the list is faster than one before it. */
  ghost predicate FastestFirst(nics: map<NicId, Nic>, list: seq<NicId>)
    requires forall n :: n in list ==> n in nics
  {
    forall i, j :: 0 <= i < j < |list| ==> nics[list[i]].speed >= nics[list[j]].speed
  }

  /** A NIC that joins keeps the list in order, and stands before those of its own speed. */
  lemma InsertedInOrder(nics: map<NicId, Nic>, list: seq<NicId>, nic: Nic, n: NicId)
    requires (forall m :: m in list ==> m in nics) && n !in list && FastestFirst(nics, list)
    ensures var r, i := Inserted(list, InsertAt(nics, list, nic.speed, 0), n), InsertAt(nics, list, nic.speed, 0);
      && FastestFirst(nics[n := nic], r) && r[i] == n
      && (forall j :: 0 <= j < i ==> r[j] == list[j] && nics[list[j]].speed > nic.speed)
      && forall j :: i <= j < |list| ==> r[j + 1] == list[j] && nics[list[j]].speed <= nic.speed
  {
    hide InsertAt;
  }

  /** A new NIC joins its list. */
  function InsertNic(t: Table, nic: Nic, isClient: bool): (r: Table)
    requires Shaped(t)
    ensures Shaped(r) && Steady(t, r)
  {
    hide Inserted, InsertAt;
    var n := t.next;
    var clients := if isClient then Inserted(t.clients, InsertAt(t.nics, t.clients, nic.speed, 0), n) else t.clients;
    var servers := if isClient then t.servers else Inserted(t.servers, InsertAt(t.nics, t.servers, nic.speed, 0), n);
    t.(clients := clients, servers := servers, nics := t.nics[n := nic],
       nicState := t.nicState[n := Idle], possible := t.possible[n := []], next := n + 1)
  }

  function Side(t: Table, isClient: bool): seq<NicId> {
    if isClient then t.clients else t.servers
  }

  /** One NIC of the update. */
  function UpdateOne(t: Table, update: Nic, isClient: bool): (r: Table)
    requires Shaped(t)
    ensures Shaped(r) && Steady(t, r)
  {
    match FindNic(t.nics, Side(t, isClient), update.index, 0)
    case None => InsertNic(t, update, isClient)
    case Some(n) =>
      if Changed(t.nics[n], update) then ResetCons(t.(nics := t.nics[n := UpdateNic(t.nics[n], update)]), n, isClient)
      else if isClient then ResetCons(t, n, isClient)
      else t
  }

  /** The table after the first `k` NICs of the update. */
  function UpdateTo(t: Table, updates: seq<Nic>, isClient: bool, k: nat): (r: Table)
    requires Shaped(t) && k <= |updates|
    ensures Shaped(r) && Steady(t, r)
  {
    if k == 0 then t else UpdateOne(UpdateTo(t, updates, isClient, k - 1), updates[k - 1], isClient)
  }

  // ----- Dropping useless NICs -----

  /** `s` without the pairs of `dead`. */
  function Keep(s: seq<ConId>, dead: set<ConId>): (r: seq<ConId>)
    ensures forall id :: id in r <==> id in s && id !in dead
  {
    if s == [] then []
    else
      var init, last := s[..|s| - 1], s[|s| - 1];
      assert s == init + [last];
      if last in dead then Keep(init, dead) else Keep(init, dead) + [last]
  }

  /** The pairs of a NIC. */
  function PairsOf(t: Table, n: NicId, isClient: bool): set<ConId> {
    set id | id in t.cons && EndOf(t.cons[id], isClient) == n
  }

  /** The NIC has pairs, is not ignore-listed, and none of its pairs can be used. */
  predicate Useless(t: Table, n: NicId, isClient: bool)
    requires n in t.nics
  {
    && !t.nics[n].ignored && PairsOf(t, n, isClient) != {}
    && forall id :: id in PairsOf(t, n, isClient) ==>
      t.cons[id].state == FailedToConnect || t.cons[id].state == NoPotential
  }

  function DropNic(t: Table, n: NicId, isClient: bool): (r: Table)
    ensures Steady(t, r)
  {
    var dead := PairsOf(t, n, isClient);
    t.(clients := if isClient then Without(t.clients, n) else t.clients,
       servers := if isClient then t.servers else Without(t.servers, n),
       nics := t.nics - {n}, nicState := t.nicState - {n},
       possible := map c | c in t.possible && c != n :: Keep(t.possible[c], dead),
       conList := Keep(t.conList, dead), cons := t.cons - dead)
  }

  function DropIfUseless(t: Table, n: NicId, isClient: bool): (r: Table)
    ensures Steady(t, r)
  {
    if n in t.nics && Useless(t, n, isClient) then DropNic(t, n, isClient) else t
  }

  /** The table after the removal loop has met the first `k` NICs of the list it started with. */
  function DropTo(t: Table, list: seq<NicId>, isClient: bool, k: nat): (r: Table)
    requires k <= |list|
    ensures Steady(t, r)
  {
    if k == 0 then t else DropIfUseless(DropTo(t, list, isClient, k - 1), list[k - 1], isClient)
  }

  /**
   A whole update.  Every updated NIC has left the update's list by the time NICs are
   dropped, so being named in the update does not protect a NIC.
   */
  function Update(t: Table, updates: seq<Nic>, isClient: bool): (r: Table)
    requires Shaped(t)
    ensures Steady(t, r)
  {
    var t1 := UpdateTo(t, updates, isClient, |updates|);
    var t2 := if |Side(t1, isClient)| > |Side(t, isClient)| then Completed(t1) else t1;
    DropTo(t2, Side(t2, isClient), isClient, |Side(t2, isClient)|)
  }

  // ----- Inserting keeps the table well formed -----

  lemma {:induction false} SliceNone(list: seq<ConId>, cons: map<ConId, Con>, n: NicId)
    requires forall id :: id in list ==> id in cons && cons[id].client != n
    ensures Slice(list, cons, n) == []
  {
    if list != [] {
      SliceNone(list[..|list| - 1], cons, n);
    }
  }

  lemma InsertedUnique(nics: map<NicId, Nic>, list: seq<NicId>, nic: Nic, n: NicId, i: nat)
    requires i <= |list| && (forall m :: m in list ==> m in nics) && n !in list && UniqueIndices(nics, list)
    requires forall m :: m in list ==> nics[m].index != nic.index
    ensures UniqueIndices(nics[n := nic], Inserted(list, i, n))
  {
    hide Inserted;
    var nics', list' := nics[n := nic], Inserted(list, i, n);
    forall a, b | a in list' && b in list' && SameIndex(nics'[a], nics'[b])
      ensures a == b
    {
      if a != n && b != n { assert SameIndex(nics[a], nics[b]); }
    }
  }

  lemma GrownUnique(nics: map<NicId, Nic>, list: seq<NicId>, nic: Nic, n: NicId)
    requires (forall m :: m in list ==> m in nics) && n !in list && UniqueIndices(nics, list)
    ensures UniqueIndices(nics[n := nic], list)
  {
    UniqueIndicesFrame(nics, nics[n := nic], list);
  }

  /** The index is new on the side the NIC joins, and a server NIC is not ignore-listed. */
  ghost predicate Insertable(t: Table, nic: Nic, isClient: bool)
    requires Shaped(t)
  {
    && (forall m :: m in Side(t, isClient) ==> t.nics[m].index != nic.index)
    && (!isClient ==> !nic.ignored)
  }

  lemma InsertNicsOk(t: Table, nic: Nic, isClient: bool)
    requires Shaped(t) && NicsOk(t) && Insertable(t, nic, isClient)
    ensures NicsOk(InsertNic(t, nic, isClient))
  {
    hide Inserted, NoDup, UniqueIndices, InsertAt;
    var n, r := t.next, InsertNic(t, nic, isClient);
    var list := Side(t, isClient);
    var i := InsertAt(t.nics, list, nic.speed, 0);
    InsertedNoDup(list, i, n);
    InsertedUnique(t.nics, list, nic, n, i);
    GrownUnique(t.nics, Side(t, !isClient), nic, n);
  }

  lemma InsertConsOk(t: Table, nic: Nic, isClient: bool)
    requires Shaped(t) && NicsOk(t) && ConsOk(t)
    ensures ConsOk(InsertNic(t, nic, isClient))
  {
    hide Inserted, NoDup, UniqueIndices, InsertAt, UniquePairs;
  }

  lemma InsertSlices(t: Table, nic: Nic, isClient: bool)
    requires Shaped(t) && NicsOk(t) && ConsOk(t) && SlicesOk(t)
    requires NicsOk(InsertNic(t, nic, isClient)) && ConsOk(InsertNic(t, nic, isClient))
    ensures SlicesOk(InsertNic(t, nic, isClient))
  {
    hide Inserted, NoDup, UniqueIndices, InsertAt, UniquePairs, Slice;
    assert forall id :: id in t.conList ==> id in t.cons && t.cons[id].client != t.next;
    SliceNone(t.conList, t.cons, t.next);
  }

  lemma InsertWF(t: Table, nic: Nic, isClient: bool)
    requires WF(t) && Shaped(t) && Insertable(t, nic, isClient)
    ensures WF(InsertNic(t, nic, isClient))
  {
    hide NicsOk, ConsOk, SlicesOk, Insertable;
    InsertNicsOk(t, nic, isClient);
    InsertConsOk(t, nic, isClient);
    InsertSlices(t, nic, isClient);
    assert InsertNic(t, nic, isClient).maxChannels == t.maxChannels;
  }

  /** The pairs of the table have old NICs, so a new NIC changes none of the properties. */
  lemma InsertKeeps(t: Table, nic: Nic, isClient: bool)
    requires WF(t) && Shaped(t) && Insertable(t, nic, isClient)
    ensures Preserves(t, InsertNic(t, nic, isClient))
  {
    hide WF, Insertable, Inserted, InsertAt, NoDup;
    InsertWF(t, nic, isClient);
    NextFresh(t);
  }

  // ----- Changing a NIC keeps the properties -----

  /** Busy pairs keep everything but their cached speed. */
  ghost predicate BusyKept(t: Table, t': Table) {
    forall id :: id in t.cons && Busy(t.cons[id].state) ==>
      id in t'.cons && t'.cons[id] == t.cons[id].(speed := t'.cons[id].speed)
  }

  /** The pair may have a new speed, and be potential again if it was hopeless. */
  predicate Retried(c: Con, c': Con) {
    && c' == c.(speed := c'.speed, state := c'.state)
    && (c'.state == c.state || ((c.state == FailedToConnect || c.state == NoPotential) && c'.state == Potential))
  }

  ghost predicate AllRetried(t: Table, t': Table) {
    t'.cons.Keys == t.cons.Keys && forall id :: id in t.cons ==> Retried(t.cons[id], t'.cons[id])
  }

  lemma ResetRetries(t: Table, n: NicId, isClient: bool)
    requires Shaped(t) && n in t.nics
    ensures AllRetried(t, ResetCons(t, n, isClient))
  {
  }

  lemma RetriedKeeps(t: Table, t': Table)
    requires Shaped(t) && Shaped(t') && AllRetried(t, t') && t'.nicState == t.nicState && t'.success == t.success
    ensures NoIdleInUse(t) ==> NoIdleInUse(t')
    ensures NoStarvation(t) ==> NoStarvation(t')
    ensures Agree(t') <==> Agree(t)
    ensures BusyKept(t, t')
  {
    hide NoDup, Shaped, Agree;
    RetriedAgree(t, t');
    assert forall id :: id in t.cons ==> Retried(t.cons[id], t'.cons[id]);
  }

  lemma RetriedAgree(t: Table, t': Table)
    requires AllRetried(t, t') && t'.success == t.success
    ensures Agree(t') <==> Agree(t)
  {
    hide NoDup;
    assert forall id :: id in t.cons ==> Retried(t.cons[id], t'.cons[id]);
  }

  /** When one NIC changes, refreshing the pairs of that NIC is enough for all cached speeds. */
  lemma ResetSpeeds(t: Table, t1: Table, n: NicId, isClient: bool)
    requires Shaped(t) && Shaped(t1) && SpeedsFresh(t) && n in t.nics
    requires n in t1.nics && t1 == t.(nics := t.nics[n := t1.nics[n]])
    requires forall m :: m in t.servers ==> !t1.nics[m].ignored && m !in t.clients
    requires forall id :: id in t.cons ==> t.cons[id].client in t.clients && t.cons[id].server in t.servers
    requires n in Side(t, isClient) && t1.nics[n].ignored == t.nics[n].ignored
    ensures SpeedsFresh(ResetCons(t1, n, isClient))
  {
    var r := ResetCons(t1, n, isClient);
    forall id | id in r.cons && Busy(r.cons[id].state) && !r.nics[r.cons[id].client].ignored
      ensures r.cons[id].speed == LinkSpeed(r.nics, r.cons[id])
    {
      var c := t.cons[id];
      if EndOf(c, isClient) != n {
        assert c.client != n && c.server != n;
        assert t.cons[id].speed == LinkSpeed(t.nics, t.cons[id]);
      }
    }
  }

  /** A NIC changed, or not, and its pairs reset. */
  lemma ChangeKeeps(t: Table, t1: Table, n: NicId, isClient: bool)
    requires WF(t) && Shaped(t) && n in Side(t, isClient)
    requires n in t1.nics && t1 == t.(nics := t.nics[n := t1.nics[n]])
    requires t1.nics[n].index == t.nics[n].index && t1.nics[n].ignored == t.nics[n].ignored
    ensures Shaped(t1) && Preserves(t, ResetCons(t1, n, isClient)) && BusyKept(t, ResetCons(t1, n, isClient))
  {
    hide WF, Agree, NoIdleInUse, NoStarvation, SpeedsFresh, ResetCons, BusyKept, AllRetried;
    ServersNotIgnored(t);
    ChangeWF(t, t1, n, isClient);
    RetriedKeeps(t, ResetCons(t1, n, isClient));
    if SpeedsFresh(t) { ResetSpeeds(t, t1, n, isClient); }
  }

  lemma ChangeWF(t: Table, t1: Table, n: NicId, isClient: bool)
    requires WF(t) && Shaped(t) && n in Side(t, isClient)
    requires n in t1.nics && t1 == t.(nics := t.nics[n := t1.nics[n]])
    requires t1.nics[n].index == t.nics[n].index && t1.nics[n].ignored == t.nics[n].ignored
    ensures Shaped(t1)
    ensures var r := ResetCons(t1, n, isClient);
      WF(r) && Shaped(r) && AllRetried(t, r) && r.nicState == t.nicState && r.success == t.success
  {
    hide WF, ResetCon;
    ServersNotIgnored(t);
    RenicsWF(t, t1.nics);
    ResetRetries(t1, n, isClient);
    ReconsWF(t1, ResetCons(t1, n, isClient).cons);
  }

  lemma ServersNotIgnored(t: Table)
    requires WF(t)
    ensures forall n :: n in t.servers ==> n in t.nics && !t.nics[n].ignored && n !in t.clients
    ensures forall id :: id in t.cons ==> t.cons[id].client in t.clients && t.cons[id].server in t.servers
  {
    hide NoDup, UniqueIndices, UniquePairs, Slice, SlicesOk;
  }

  // ----- The first loop -----

  lemma UpdateOneKeeps(t: Table, update: Nic, isClient: bool)
    requires WF(t) && Shaped(t) && !update.ignored
    ensures Preserves(t, UpdateOne(t, update, isClient)) && BusyKept(t, UpdateOne(t, update, isClient))
    ensures |Side(UpdateOne(t, update, isClient), isClient)| >= |Side(t, isClient)|
  {
    hide WF, Preserves, ResetCon, InsertAt, UpdateAddrs, Inserted;
    match FindNic(t.nics, Side(t, isClient), update.index, 0) {
      case None =>
        InsertKeeps(t, update, isClient);
      case Some(n) =>
        if Changed(t.nics[n], update) {
          ChangeKeeps(t, t.(nics := t.nics[n := UpdateNic(t.nics[n], update)]), n, isClient);
        } else if isClient {
          assert t == t.(nics := t.nics[n := t.nics[n]]);
          ChangeKeeps(t, t, n, isClient);
        } else {
          PreservesReflexive(t);
        }
    }
  }

  lemma BusyKeptTransitive(a: Table, b: Table, c: Table)
    requires BusyKept(a, b) && BusyKept(b, c)
    ensures BusyKept(a, c)
  {
  }

  lemma {:induction false} UpdateToKeeps(t: Table, updates: seq<Nic>, isClient: bool, k: nat)
    requires WF(t) && Shaped(t) && k <= |updates| && forall u :: u in updates ==> !u.ignored
    ensures Preserves(t, UpdateTo(t, updates, isClient, k)) && BusyKept(t, UpdateTo(t, updates, isClient, k))
    ensures |Side(UpdateTo(t, updates, isClient, k), isClient)| >= |Side(t, isClient)|
  {
    hide WF, Preserves, UpdateOne;
    if k == 0 {
      PreservesReflexive(t);
    } else {
      var p := UpdateTo(t, updates, isClient, k - 1);
      UpdateToKeeps(t, updates, isClient, k - 1);
      PreservesWF(t, p);
      UpdateOneKeeps(p, updates[k - 1], isClient);
      PreservesTransitive(t, p, UpdateTo(t, updates, isClient, k));
      BusyKeptTransitive(t, p, UpdateTo(t, updates, isClient, k));
    }
  }

  // ----- Dropping keeps the table well formed -----

  lemma {:induction false} KeepNoDup(s: seq<ConId>, dead: set<ConId>)
    requires NoDup(s)
    ensures NoDup(Keep(s, dead))
  {
    if s != [] {
      KeepNoDup(s[..|s| - 1], dead);
    }
  }

  lemma {:induction false} SliceKeep(list: seq<ConId>, cons: map<ConId, Con>, dead: set<ConId>, n: NicId)
    requires forall id :: id in list ==> id in cons
    ensures Slice(Keep(list, dead), cons - dead, n) == Keep(Slice(list, cons, n), dead)
  {
    if list != [] {
      var init, last := list[..|list| - 1], list[|list| - 1];
      SliceKeep(init, cons, dead, n);
      if last !in dead {
        var kept := Keep(init, dead);
        assert Keep(list, dead) == kept + [last];
        assert (kept + [last])[..|kept|] == kept;
      }
      if cons[last].client == n {
        var s := Slice(init, cons, n);
        assert Slice(list, cons, n) == s + [last];
        assert (s + [last])[..|s|] == s;
      }
    }
  }

  lemma DropNicsOk(t: Table, n: NicId, isClient: bool)
    requires Shaped(t) && NicsOk(t) && n in Side(t, isClient)
    ensures NicsOk(DropNic(t, n, isClient))
  {
    hide Keep, NoDup, UniqueIndices, Without, PairsOf, Steady, EndsKnown, Shaped;
    WithoutMembers(Side(t, isClient), n);
    OneLessOk(t, DropNic(t, n, isClient), n);
  }

  lemma OneLessOk(t: Table, r: Table, n: NicId)
    requires NicsOk(t) && r.nics == t.nics - {n} && r.nicState.Keys == t.nicState.Keys - {n} &&
      r.possible.Keys == t.possible.Keys - {n}
    requires NoDup(r.clients) && forall m :: m in r.clients <==> m in t.clients && m != n
    requires NoDup(r.servers) && forall m :: m in r.servers <==> m in t.servers && m != n
    requires r.next == t.next
    ensures NicsOk(r)
  {
    hide NoDup, UniqueIndices;
    SubUnique(t.nics, r.nics, t.clients, r.clients);
    SubUnique(t.nics, r.nics, t.servers, r.servers);
  }

  lemma SubUnique(nics: map<NicId, Nic>, nics': map<NicId, Nic>, list: seq<NicId>, list': seq<NicId>)
    requires forall n :: n in list ==> n in nics
    requires forall n :: n in list' ==> n in list && n in nics' && nics'[n] == nics[n]
    requires UniqueIndices(nics, list)
    ensures UniqueIndices(nics', list')
  {
    forall a, b | a in list' && b in list' && SameIndex(nics'[a], nics'[b])
      ensures a == b
    {
      assert SameIndex(nics[a], nics[b]);
    }
  }

  lemma DropConsOk(t: Table, n: NicId, isClient: bool)
    requires Shaped(t) && NicsOk(t) && ConsOk(t) && n in Side(t, isClient)
    ensures ConsOk(DropNic(t, n, isClient))
  {
    hide Keep, NoDup, UniquePairs, Shaped, NicsOk;
    SideNoDup(t, isClient);
    WithoutMembers(Side(t, isClient), n);
    KeepNoDup(t.conList, PairsOf(t, n, isClient));
    UniquePairsFrame(t.cons, t.cons - PairsOf(t, n, isClient));
  }

  lemma SideNoDup(t: Table, isClient: bool)
    requires NicsOk(t)
    ensures NoDup(Side(t, isClient))
  {
    hide UniqueIndices;
  }

  lemma DropSlices(t: Table, n: NicId, isClient: bool)
    requires Shaped(t) && NicsOk(t) && ConsOk(t) && SlicesOk(t) && n in Side(t, isClient)
    requires NicsOk(DropNic(t, n, isClient)) && ConsOk(DropNic(t, n, isClient))
    ensures SlicesOk(DropNic(t, n, isClient))
  {
    hide Keep, NoDup, UniqueIndices, UniquePairs, Slice;
    var r := DropNic(t, n, isClient);
    WithoutMembers(Side(t, isClient), n);
    forall c | c in r.clients
      ensures r.possible[c] == Slice(r.conList, r.cons, c)
    {
      SliceKeep(t.conList, t.cons, PairsOf(t, n, isClient), c);
    }
    KeepEmpty(PairsOf(t, n, isClient));
  }

  lemma KeepEmpty(dead: set<ConId>)
    ensures Keep([], dead) == []
  {
  }

  lemma DropWF(t: Table, n: NicId, isClient: bool)
    requires WF(t) && Shaped(t) && n in Side(t, isClient)
    ensures WF(DropNic(t, n, isClient)) && Shaped(DropNic(t, n, isClient))
  {
    DropNicsOk(t, n, isClient);
    DropConsOk(t, n, isClient);
    DropSlices(t, n, isClient);
    hide NicsOk, ConsOk, SlicesOk;
    assert DropNic(t, n, isClient).maxChannels == t.maxChannels;
    assert WF(DropNic(t, n, isClient));
    WFShaped(DropNic(t, n, isClient));
  }

  /** The pairs left are as they were, and so are their NICs; the pairs gone were hopeless. */
  ghost predicate Thinned(t: Table, t': Table)
    requires Shaped(t) && Shaped(t')
  {
    && t'.success == t.success
    && (forall id :: id in t'.cons ==>
          && id in t.cons && t'.cons[id] == t.cons[id]
          && t'.nics[t.cons[id].client] == t.nics[t.cons[id].client] &&
            t'.nics[t.cons[id].server] == t.nics[t.cons[id].server]
          && t'.nicState[t.cons[id].client] == t.nicState[t.cons[id].client]
          && t'.nicState[t.cons[id].server] == t.nicState[t.cons[id].server])
    && (forall id :: id in t.cons && id !in t'.cons ==>
      t.cons[id].state == FailedToConnect || t.cons[id].state == NoPotential)
  }

  lemma DropThins(t: Table, n: NicId, isClient: bool)
    requires Shaped(t) && n in t.nics && Useless(t, n, isClient) && Shaped(DropNic(t, n, isClient))
    ensures Thinned(t, DropNic(t, n, isClient))
  {
    hide Keep, Without;
  }

  lemma ThinnedKeeps(t: Table, t': Table)
    requires Shaped(t) && Shaped(t') && Thinned(t, t')
    ensures NoIdleInUse(t) ==> NoIdleInUse(t')
    ensures NoStarvation(t) ==> NoStarvation(t')
    ensures Agree(t') <==> Agree(t)
    ensures SpeedsFresh(t) ==> SpeedsFresh(t')
    ensures BusyKept(t, t')
  {
    hide NoDup, Shaped, Agree;
    ThinnedAgree(t, t');
  }

  lemma ThinnedAgree(t: Table, t': Table)
    requires Shaped(t) && Shaped(t') && Thinned(t, t')
    ensures Agree(t') <==> Agree(t)
  {
    hide NoDup, Shaped;
  }

  /** A useless NIC takes only hopeless pairs with it. */
  lemma DropKeeps(t: Table, n: NicId, isClient: bool)
    requires WF(t) && Shaped(t) && n in Side(t, isClient)
    ensures Preserves(t, DropIfUseless(t, n, isClient)) && BusyKept(t, DropIfUseless(t, n, isClient))
  {
    hide WF, Thinned, NoIdleInUse, NoStarvation, Agree, SpeedsFresh, DropNic;
    if Useless(t, n, isClient) {
      DropWF(t, n, isClient);
      DropThins(t, n, isClient);
      ThinnedKeeps(t, DropNic(t, n, isClient));
    } else {
      PreservesReflexive(t);
    }
  }

  /** The NICs not yet met by the removal loop are still in their list. */
  lemma {:induction false} DropToKeeps(t: Table, isClient: bool, k: nat)
    requires WF(t) && Shaped(t) && k <= |Side(t, isClient)|
    ensures var r := DropTo(t, Side(t, isClient), isClient, k);
            && Preserves(t, r) && BusyKept(t, r)
            && forall i :: k <= i < |Side(t, isClient)| ==> Side(t, isClient)[i] in Side(r, isClient)
  {
    hide WF, Preserves, DropIfUseless, BusyKept;
    var list := Side(t, isClient);
    if k == 0 {
      PreservesReflexive(t);
      BusyKeptReflexive(t);
    } else {
      var p, r := DropTo(t, list, isClient, k - 1), DropTo(t, list, isClient, k);
      DropToKeeps(t, isClient, k - 1);
      PreservesWF(t, p);
      DropKeeps(p, list[k - 1], isClient);
      PreservesTransitive(t, p, r);
      BusyKeptTransitive(t, p, r);
      SideNoDupWF(t, isClient);
      DropLeavesOthers(p, list[k - 1], isClient);
    }
  }

  lemma BusyKeptReflexive(t: Table)
    ensures BusyKept(t, t)
  {
  }

  lemma SideNoDupWF(t: Table, isClient: bool)
    requires WF(t)
    ensures NoDup(Side(t, isClient))
  {
    hide NicsOk, ConsOk, SlicesOk, NoDup;
    SideNoDup(t, isClient);
  }

  lemma DropLeavesOthers(t: Table, n: NicId, isClient: bool)
    requires WF(t)
    ensures forall m :: m in Side(t, isClient) && m != n ==> m in Side(DropIfUseless(t, n, isClient), isClient)
  {
    SideNoDupWF(t, isClient);
    hide WF, Keep, NoDup;
    WithoutMembers(Side(t, isClient), n);
  }

  // ----- The whole update -----

  /** An update keeps every safety property, and changes no busy pair but for its cached speed. */
  lemma UpdateKeeps(t: Table, updates: seq<Nic>, isClient: bool)
    requires WF(t) && Shaped(t) && forall u :: u in updates ==> !u.ignored
    ensures Preserves(t, Update(t, updates, isClient)) && BusyKept(t, Update(t, updates, isClient))
  {
    hide WF, Preserves, UpdateTo, DropTo, BusyKept, Completed;
    var t1 := UpdateTo(t, updates, isClient, |updates|);
    UpdateToKeeps(t, updates, isClient, |updates|);
    PreservesWF(t, t1);
    var t2 := if |Side(t1, isClient)| > |Side(t, isClient)| then Completed(t1) else t1;
    if |Side(t1, isClient)| > |Side(t, isClient)| {
      CompletedPreserves(t1);
    } else {
      PreservesReflexive(t1);
      BusyKeptReflexive(t1);
    }
    PreservesWF(t1, t2);
    DropToKeeps(t2, isClient, |Side(t2, isClient)|);
    PreservesTransitive(t, t1, t2);
    PreservesTransitive(t, t2, Update(t, updates, isClient));
    BusyKeptTransitive(t, t1, t2);
    BusyKeptTransitive(t, t2, Update(t, updates, isClient));
  }

  lemma CompletedPreserves(t: Table)
    requires WF(t) && Shaped(t)
    ensures Preserves(t, Completed(t)) && BusyKept(t, Completed(t))
  {
    hide WF, Grown, NoIdleInUse, NoStarvation, Agree, SpeedsFresh, Completed;
    CompletedSound(t);
    if NoIdleInUse(t) { GrownNoIdle(t, Completed(t)); }
    GrownAgree(t, Completed(t));
    if SpeedsFresh(t) { GrownSpeeds(t, Completed(t)); }
    GrownBusy(t, Completed(t));
  }

  lemma GrownBusy(t: Table, t': Table)
    requires Grown(t, t')
    ensures BusyKept(t, t')
  {
    forall id | id in t.cons && Busy(t.cons[id].state)
      ensures id in t'.cons && t'.cons[id] == t.cons[id]
    {
      assert Unparked(t, t.cons[id], t'.cons[id]);
    }
  }
}
