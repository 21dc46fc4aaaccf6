/**
 What the NICs and the pairs look like after an update of a NIC list.
 */
module McRefresh {
  import opened Options
  import opened McTypes
  import opened McConList
  import opened McReport
  import opened McNotifier
  import opened McNics
  import opened McUpdates
  import opened McMerge
  import opened McRuns

  // ----- One NIC -----

  /** The addresses that were known come first. */
  ghost predicate KnownFirst(addrs: seq<Addr>, known: seq<Addr>) {
    forall i, j :: 0 <= i < j < |addrs| && addrs[j] in known ==> addrs[i] in known
  }

  /** Some address of the family was not known. */
  predicate Brings(addrs: seq<Addr>, known: seq<Addr>, v4: bool) {
    exists i :: 0 <= i < |addrs| && addrs[i].V4? == v4 && addrs[i] !in known
  }

  /**
   The NIC has taken over an update: its speed, its type, and exactly its addresses, the known ones first and none
   twice unless one was before.  A family is noted with the first new address of it, and never forgotten.
   */
  ghost predicate TakesOver(nic: Nic, update: Nic, r: Nic) {
    && r == nic.(speed := update.speed, nicType := update.nicType, addrs := r.addrs, ip4 := r.ip4, ip6 := r.ip6)
    && (forall a :: a in r.addrs <==> a in update.addrs)
    && KnownFirst(r.addrs, nic.addrs) && (NoDup(nic.addrs) ==> NoDup(r.addrs))
    && (r.ip4 <==> nic.ip4 || Brings(update.addrs, nic.addrs, true))
    && (r.ip6 <==> nic.ip6 || Brings(update.addrs, nic.addrs, false))
  }

  lemma {:induction false} CommonMeans(a: seq<Addr>, b: seq<Addr>)
    ensures forall x :: x in Common(a, b) <==> x in a && x in b
    ensures NoDup(a) ==> NoDup(Common(a, b))
  {
    if a != [] {
      CommonMeans(a[1..], b);
      assert a == [a[0]] + a[1..];
      if NoDup(a) {
        assert NoDup(a[1..]) && a[0] !in a[1..];
      }
    }
  }

  /** What adding the addresses does to a NIC whose addresses were all known. */
  ghost predicate Adds(nic: Nic, addrs: seq<Addr>, known: seq<Addr>, r: Nic) {
    && (forall x :: x in r.addrs <==> x in nic.addrs || x in addrs)
    && KnownFirst(r.addrs, known) && (NoDup(nic.addrs) ==> NoDup(r.addrs))
    && (r.ip4 <==> nic.ip4 || Brings(addrs, known, true)) && (r.ip6 <==> nic.ip6 || Brings(addrs, known, false))
  }

  lemma BringsOne(addrs: seq<Addr>, a: Addr, known: seq<Addr>, v4: bool)
    ensures Brings(addrs + [a], known, v4) <==> Brings(addrs, known, v4) || (a.V4? == v4 && a !in known)
  {
    var all := addrs + [a];
    if Brings(addrs, known, v4) {
      var i :| 0 <= i < |addrs| && addrs[i].V4? == v4 && addrs[i] !in known;
      assert all[i] == addrs[i];
    }
    if a.V4? == v4 && a !in known {
      assert all[|addrs|] == a;
    }
  }

  lemma AddsOne(nic: Nic, addrs: seq<Addr>, a: Addr, known: seq<Addr>, p: Nic)
    requires Adds(nic, addrs, known, p) && (a in known ==> a in nic.addrs) && forall x :: x in nic.addrs ==> x in known
    ensures Adds(nic, addrs + [a], known, AddAddr(p, a))
  {
    BringsOne(addrs, a, known, true);
    BringsOne(addrs, a, known, false);
    if a in addrs && a !in known {
      var i :| 0 <= i < |addrs| && addrs[i] == a;
      assert Brings(addrs, known, a.V4?);
    }
    hide Brings;
  }

  lemma {:induction false} AddsAll(nic: Nic, addrs: seq<Addr>, known: seq<Addr>, k: nat)
    requires k <= |addrs| && (forall x :: x in nic.addrs ==> x in known)
    requires KnownFirst(nic.addrs, known) && forall x :: x in addrs && x in known ==> x in nic.addrs
    ensures Adds(nic, addrs[..k], known, AddAddrs(nic, addrs, k))
  {
    hide Adds;
    if k == 0 {
      AddsNone(nic, addrs, known);
    } else {
      AddsAll(nic, addrs, known, k - 1);
      AddsOne(nic, addrs[..k - 1], addrs[k - 1], known, AddAddrs(nic, addrs, k - 1));
      assert addrs[..k] == addrs[..k - 1] + [addrs[k - 1]];
    }
  }

  lemma AddsNone(nic: Nic, addrs: seq<Addr>, known: seq<Addr>)
    requires KnownFirst(nic.addrs, known)
    ensures Adds(nic, addrs[..0], known, AddAddrs(nic, addrs, 0))
  {
  }

  lemma UpdateAddrsAdds(nic: Nic, update: Nic)
    ensures var shared := nic.(addrs := Common(nic.addrs, update.addrs));
      Adds(shared, update.addrs, nic.addrs, UpdateAddrs(nic, update))
  {
    hide Adds, Common, AddAddrs, NoDup;
    CommonMeans(nic.addrs, update.addrs);
    AddsAll(nic.(addrs := Common(nic.addrs, update.addrs)), update.addrs, nic.addrs, |update.addrs|);
    assert update.addrs[..|update.addrs|] == update.addrs;
  }

  lemma UpdateAddrsMeans(nic: Nic, update: Nic)
    ensures TakesOver(nic, update.(speed := nic.speed, nicType := nic.nicType), UpdateAddrs(nic, update))
  {
    hide Common, AddAddrs, NoDup, UpdateAddrs, KnownFirst, Brings;
    UpdateAddrsAdds(nic, update);
    CommonMeans(nic.addrs, update.addrs);
  }

  /** With the same addresses nothing is brought. */
  lemma BringsNothing(nic: Nic, update: Nic, r: Nic)
    requires TakesOver(nic, update, r) && r.addrs == nic.addrs
    ensures r.ip4 == nic.ip4 && r.ip6 == nic.ip6
  {
    hide NoDup, KnownFirst;
    assert forall i :: 0 <= i < |update.addrs| ==> update.addrs[i] in nic.addrs;
  }

  /** The NIC found takes over the update, and an update that changes nothing would do so too. */
  lemma UpdateNicMeans(nic: Nic, update: Nic)
    ensures TakesOver(nic, update, UpdateNic(nic, update))
    ensures Changed(nic, update) <==> UpdateNic(nic, update) != nic
  {
    hide NoDup, UpdateAddrs, KnownFirst, Brings;
    UpdateAddrsMeans(nic, update);
    var r := UpdateAddrs(nic, update);
    if r.addrs == nic.addrs {
      BringsNothing(nic, update.(speed := nic.speed, nicType := nic.nicType), r);
    }
  }

  /** Flags that tell the families of the addresses do so after an update exactly if the update has an address of each
      family that the NIC had. */
  lemma FlagsAfter(nic: Nic, update: Nic, r: Nic)
    requires TakesOver(nic, update, r) && FlagsRight(nic)
    ensures FlagsRight(r) <==>
      (nic.ip4 ==> HasFamily(update.addrs, true)) && (nic.ip6 ==> HasFamily(update.addrs, false))
  {
    hide NoDup, KnownFirst;
    SameFamilies(r.addrs, update.addrs, true);
    SameFamilies(r.addrs, update.addrs, false);
    BroughtFamily(nic, update, true);
    BroughtFamily(nic, update, false);
    hide Brings, HasFamily;
  }

  lemma SameFamilies(a: seq<Addr>, b: seq<Addr>, v4: bool)
    requires forall x :: x in a <==> x in b
    ensures HasFamily(a, v4) <==> HasFamily(b, v4)
  {
    if i :| 0 <= i < |a| && a[i].V4? == v4 {
      assert a[i] in b;
    }
    if i :| 0 <= i < |b| && b[i].V4? == v4 {
      assert b[i] in a;
    }
  }

  lemma BroughtFamily(nic: Nic, update: Nic, v4: bool)
    ensures Brings(update.addrs, nic.addrs, v4) ==> HasFamily(update.addrs, v4)
    ensures HasFamily(update.addrs, v4) ==> Brings(update.addrs, nic.addrs, v4) || HasFamily(nic.addrs, v4)
  {
    if i :| 0 <= i < |update.addrs| && update.addrs[i].V4? == v4 {
      assert update.addrs[i] in nic.addrs ==> exists j :: 0 <= j < |nic.addrs| && nic.addrs[j] == update.addrs[i];
    }
  }

  /** A NIC that goes from an IPv4 to an IPv6 address counts as having both. */
  lemma StaleFlag(index: nat, speed: nat, ip: nat, bytes: seq<nat>)
    ensures var nic := Nic(index, speed, 0, IFM_ETHER, true, false, false, [V4(ip)]);
      var r := UpdateNic(nic, Nic(index, speed, 0, IFM_ETHER, false, true, false, [V6(bytes)]));
      FlagsRight(nic) && r.addrs == [V6(bytes)] && r.ip4 && r.ip6 && !FlagsRight(r)
  {
    var nic := Nic(index, speed, 0, IFM_ETHER, true, false, false, [V4(ip)]);
    var update := Nic(index, speed, 0, IFM_ETHER, false, true, false, [V6(bytes)]);
    assert nic.addrs[0].V4? && nic.addrs[1..] == [];
    assert Common(nic.addrs, update.addrs) == [];
    assert AddAddrs(nic.(addrs := []), update.addrs, 0) == nic.(addrs := []);
    assert AddAddrs(nic.(addrs := []), update.addrs, 1) == nic.(addrs := [V6(bytes)], ip6 := true);
    assert update.addrs[0].V6?;
  }

  // ----- One step of the update -----

  /** A hopeless pair may be tried again, any other gets the speed of its slower NIC. */
  function Again(nics: map<NicId, Nic>, c: Con): Con
    requires EndsKnown(nics, c)
  {
    if c.state == FailedToConnect || c.state == NoPotential then c.(state := Potential)
    else c.(speed := Min(nics[c.client].speed, nics[c.server].speed))
  }

  /** The NIC `m` takes over the update, and its pairs are renewed if it is a client NIC or has changed. */
  ghost predicate RenewsAt(t: Table, r: Table, update: Nic, isClient: bool, m: NicId) {
    && m in t.nics && m in r.nics && TakesOver(t.nics[m], update, r.nics[m])
    && r == t.(nics := t.nics[m := r.nics[m]], cons := r.cons) && r.cons.Keys == t.cons.Keys
    && forall id :: id in t.cons ==>
         && EndsKnown(r.nics, t.cons[id])
         && r.cons[id] == if EndOf(t.cons[id], isClient) == m && !t.nics[m].ignored &&
                             (isClient || r.nics[m] != t.nics[m])
                          then Again(r.nics, t.cons[id]) else t.cons[id]
  }

  /** A NIC is new and as the update describes it. */
  ghost predicate InsertsAt(t: Table, r: Table, update: Nic, isClient: bool, m: NicId) {
    && m !in t.nics && r.nics == t.nics[m := update] && r.cons == t.cons
    && (forall n :: n in Side(r, isClient) <==> n in Side(t, isClient) || n == m)
    && Side(r, !isClient) == Side(t, !isClient)
    && r.nicState == t.nicState[m := Idle]
  }

  lemma ResetMeans(t: Table, m: NicId, isClient: bool)
    requires Shaped(t) && m in t.nics
    ensures var r := ResetCons(t, m, isClient);
      && r == t.(cons := r.cons) && r.cons.Keys == t.cons.Keys
      && forall id :: id in t.cons ==>
           && EndsKnown(t.nics, t.cons[id])
           && r.cons[id] == if EndOf(t.cons[id], isClient) == m && !t.nics[m].ignored then Again(t.nics, t.cons[id])
                            else t.cons[id]
  {
  }

  lemma RenewsChanged(t: Table, update: Nic, isClient: bool, m: NicId)
    requires Shaped(t) && m in Side(t, isClient) && m in t.nics && t.nics[m].index == update.index
    requires FindNic(t.nics, Side(t, isClient), update.index, 0) == Some(m)
    ensures RenewsAt(t, UpdateOne(t, update, isClient), update, isClient, m)
  {
    hide UpdateNic, Changed, TakesOver, ResetCons, Again, FindNic;
    UpdateNicMeans(t.nics[m], update);
    SameNics(t, m);
    var t1 := t.(nics := t.nics[m := UpdateNic(t.nics[m], update)]);
    UpdateKeepsFlags(t.nics[m], update);
    if Changed(t.nics[m], update) {
      ResetMeans(t1, m, isClient);
    } else if isClient {
      ResetMeans(t, m, isClient);
    }
  }

  lemma UpdateKeepsFlags(nic: Nic, update: Nic)
    ensures UpdateNic(nic, update).index == nic.index && UpdateNic(nic, update).ignored == nic.ignored
  {
    hide AddAddrs;
  }

  lemma SameNics(t: Table, m: NicId)
    requires m in t.nics
    ensures t == t.(nics := t.nics[m := t.nics[m]])
  {
  }

  lemma InsertsNew(t: Table, update: Nic, isClient: bool)
    requires WF(t) && Shaped(t) && FindNic(t.nics, Side(t, isClient), update.index, 0).None?
    ensures InsertsAt(t, UpdateOne(t, update, isClient), update, isClient, t.next)
  {
    hide WF, InsertAt, Inserted, FindNic;
    NextFresh(t);
  }

  // ----- All the NICs of the update -----

  /** No index is named twice. */
  ghost predicate Distinct(updates: seq<Nic>) {
    forall i, j :: 0 <= i < j < |updates| ==> updates[i].index != updates[j].index
  }

  /** One of the first `k` updates names the index. */
  ghost predicate Names(updates: seq<Nic>, k: nat, index: nat)
    requires k <= |updates|
  {
    exists i :: 0 <= i < k && updates[i].index == index
  }

  /** A NIC that was there has taken over the update that names it, and is as it was if none does. */
  ghost predicate NicFollows(t: Table, r: Table, updates: seq<Nic>, k: nat, n: NicId)
    requires k <= |updates|
  {
    && n in t.nics && n in r.nics && r.nics[n].index == t.nics[n].index && r.nics[n].ignored == t.nics[n].ignored
    && (forall i :: 0 <= i < k && updates[i].index == t.nics[n].index ==> TakesOver(t.nics[n], updates[i], r.nics[n]))
    && (!Names(updates, k, t.nics[n].index) ==> r.nics[n] == t.nics[n])
  }

  /** A pair whose NIC was named, unless it is an unchanged server NIC or ignore-listed, is renewed; any other is as it
      was. */
  ghost predicate PairFollows(t: Table, r: Table, updates: seq<Nic>, isClient: bool, k: nat, id: ConId)
    requires k <= |updates|
  {
    && id in t.cons && id in r.cons && EndsKnown(t.nics, t.cons[id]) && EndsKnown(r.nics, t.cons[id])
    && var n := EndOf(t.cons[id], isClient);
    r.cons[id] == if !t.nics[n].ignored && ((isClient && Names(updates, k, t.nics[n].index)) || r.nics[n] != t.nics[n])
                  then Again(r.nics, t.cons[id]) else t.cons[id]
  }

  /** The index is new on the side. */
  ghost predicate NewIndex(t: Table, isClient: bool, index: nat) {
    forall m :: m in Side(t, isClient) && m in t.nics ==> t.nics[m].index != index
  }

  /** The NIC is one of the first `k` updates, of an index that was not there. */
  ghost predicate Newcomer(t: Table, updates: seq<Nic>, isClient: bool, k: nat, nic: Nic)
    requires k <= |updates|
  {
    NewIndex(t, isClient, nic.index) && exists i :: 0 <= i < k && updates[i] == nic
  }

  predicate IdleIn(t: Table, n: NicId) {
    n in t.nicState && t.nicState[n] == Idle
  }

  /** A NIC of the list is the one that the update describes, and is idle. */
  ghost predicate Joined(t: Table, r: Table, isClient: bool, update: Nic) {
    exists n :: n in Side(r, isClient) && n !in t.nics && n in r.nics && r.nics[n] == update && IdleIn(r, n)
  }

  /** The other side is as it was; on the side updated the old NICs stay, and newcomers join for the new indices. */
  ghost predicate SideFollows(t: Table, r: Table, updates: seq<Nic>, isClient: bool, k: nat)
    requires k <= |updates|
  {
    && Side(r, !isClient) == Side(t, !isClient)
    && (forall m :: m in t.nics && m !in Side(t, isClient) ==> m in r.nics && r.nics[m] == t.nics[m])
    && (forall n :: n in Side(t, isClient) ==> n in Side(r, isClient))
    && (forall n :: n in Side(r, isClient) && n !in Side(t, isClient) ==>
          n !in t.nics && n in r.nics && Newcomer(t, updates, isClient, k, r.nics[n]))
    && (forall i :: 0 <= i < k && NewIndex(t, isClient, updates[i].index) ==> Joined(t, r, isClient, updates[i]))
  }

  /** What the first `k` updates do. */
  ghost predicate Follows(t: Table, r: Table, updates: seq<Nic>, isClient: bool, k: nat)
    requires k <= |updates|
  {
    && SideFollows(t, r, updates, isClient, k)
    && (forall n :: n in Side(t, isClient) ==> NicFollows(t, r, updates, k, n))
    && r.cons.Keys == t.cons.Keys
    && (forall id :: id in t.cons ==> PairFollows(t, r, updates, isClient, k, id))
    && forall n :: n in t.nicState ==> n in r.nicState && r.nicState[n] == t.nicState[n]
  }

  lemma NamesStep(updates: seq<Nic>, k: nat, index: nat)
    requires 0 < k <= |updates|
    ensures Names(updates, k, index) <==> Names(updates, k - 1, index) || updates[k - 1].index == index
  {
  }

  lemma DistinctNames(updates: seq<Nic>, k: nat)
    requires Distinct(updates) && 0 < k <= |updates|
    ensures !Names(updates, k - 1, updates[k - 1].index)
  {
  }

  /** The update that names `m` is its first. */
  lemma NicStepAt(t: Table, p: Table, r: Table, updates: seq<Nic>, isClient: bool, k: nat, m: NicId)
    requires 0 < k <= |updates| && Distinct(updates) && NicFollows(t, p, updates, k - 1, m)
    requires p.nics[m].index == updates[k - 1].index && RenewsAt(p, r, updates[k - 1], isClient, m)
    ensures p.nics[m] == t.nics[m] && NicFollows(t, r, updates, k, m)
  {
    hide Again, KnownFirst, Brings, NoDup;
    DistinctNames(updates, k);
  }

  lemma NicStepOther(t: Table, p: Table, r: Table, updates: seq<Nic>, k: nat, n: NicId)
    requires 0 < k <= |updates| && NicFollows(t, p, updates, k - 1, n)
    requires n in r.nics && r.nics[n] == p.nics[n] && p.nics[n].index != updates[k - 1].index
    ensures NicFollows(t, r, updates, k, n)
  {
    hide TakesOver;
    NamesStep(updates, k, t.nics[n].index);
  }

  lemma NewcomerIndex(t: Table, updates: seq<Nic>, isClient: bool, k: nat, nic: Nic)
    requires k <= |updates| && Newcomer(t, updates, isClient, k, nic)
    ensures Names(updates, k, nic.index)
  {
  }

  lemma NewcomerMore(t: Table, updates: seq<Nic>, isClient: bool, k: nat, nic: Nic)
    requires 0 < k <= |updates| && Newcomer(t, updates, isClient, k - 1, nic)
    ensures Newcomer(t, updates, isClient, k, nic)
  {
  }

  /** An index that the table still has was there before, unless an earlier update brought it. */
  lemma FoundWasThere(t: Table, p: Table, updates: seq<Nic>, isClient: bool, k: nat, m: NicId)
    requires 0 < k <= |updates| && Distinct(updates) && SideFollows(t, p, updates, isClient, k - 1)
    requires m in Side(p, isClient) && m in p.nics && p.nics[m].index == updates[k - 1].index
    ensures m in Side(t, isClient)
  {
    hide Joined, Newcomer, Names, Distinct;
    if m !in Side(t, isClient) {
      NewcomerIndex(t, updates, isClient, k - 1, p.nics[m]);
      DistinctNames(updates, k);
    }
  }

  lemma SideRenew(t: Table, p: Table, r: Table, updates: seq<Nic>, isClient: bool, k: nat, m: NicId)
    requires 0 < k <= |updates| && SideFollows(t, p, updates, isClient, k - 1)
    requires m in Side(t, isClient) && m in t.nics && t.nics[m].index == updates[k - 1].index
    requires RenewsAt(p, r, updates[k - 1], isClient, m)
    ensures SideFollows(t, r, updates, isClient, k)
  {
    hide TakesOver, Again, Newcomer;
    forall n | n in Side(r, isClient) && n !in Side(t, isClient)
      ensures n !in t.nics && n in r.nics && Newcomer(t, updates, isClient, k, r.nics[n])
    {
      NewcomerMore(t, updates, isClient, k, r.nics[n]);
    }
    forall i | 0 <= i < k && NewIndex(t, isClient, updates[i].index)
      ensures Joined(t, r, isClient, updates[i])
    {
      assert Joined(t, p, isClient, updates[i]);
    }
  }

  lemma SideInsert(t: Table, p: Table, r: Table, updates: seq<Nic>, isClient: bool, k: nat, m: NicId)
    requires 0 < k <= |updates| && SideFollows(t, p, updates, isClient, k - 1)
    requires NewIndex(t, isClient, updates[k - 1].index) && m !in t.nics
    requires InsertsAt(p, r, updates[k - 1], isClient, m)
    ensures SideFollows(t, r, updates, isClient, k)
  {
    hide Newcomer;
    forall n | n in Side(r, isClient) && n !in Side(t, isClient)
      ensures n !in t.nics && n in r.nics && Newcomer(t, updates, isClient, k, r.nics[n])
    {
      if n == m {
        NewcomerLast(t, updates, isClient, k);
      } else {
        NewcomerMore(t, updates, isClient, k, r.nics[n]);
      }
    }
    forall i | 0 <= i < k && NewIndex(t, isClient, updates[i].index)
      ensures Joined(t, r, isClient, updates[i])
    {
      if i < k - 1 {
        assert Joined(t, p, isClient, updates[i]);
      } else {
        assert r.nics[m] == updates[i] && IdleIn(r, m);
      }
    }
  }

  lemma NewcomerLast(t: Table, updates: seq<Nic>, isClient: bool, k: nat)
    requires 0 < k <= |updates| && NewIndex(t, isClient, updates[k - 1].index)
    ensures Newcomer(t, updates, isClient, k, updates[k - 1])
  {
  }

  lemma PairRenew(t: Table, p: Table, r: Table, updates: seq<Nic>, isClient: bool, k: nat, m: NicId, id: ConId)
    requires 0 < k <= |updates| && Distinct(updates) && id in t.cons && id in p.cons
    requires PairFollows(t, p, updates, isClient, k - 1, id) && RenewsAt(p, r, updates[k - 1], isClient, m)
    requires m in t.nics && p.nics[m] == t.nics[m] && t.nics[m].index == updates[k - 1].index
    requires EndOf(t.cons[id], !isClient) != m
    requires EndOf(t.cons[id], isClient) != m ==> t.nics[EndOf(t.cons[id], isClient)].index != updates[k - 1].index
    ensures PairFollows(t, r, updates, isClient, k, id)
  {
    hide TakesOver, Distinct, Names;
    DistinctNames(updates, k);
    NamesStep(updates, k, t.nics[EndOf(t.cons[id], isClient)].index);
  }

  lemma PairInsert(t: Table, p: Table, r: Table, updates: seq<Nic>, isClient: bool, k: nat, m: NicId, id: ConId)
    requires 0 < k <= |updates| && id in t.cons && PairFollows(t, p, updates, isClient, k - 1, id)
    requires InsertsAt(p, r, updates[k - 1], isClient, m)
    requires t.nics[EndOf(t.cons[id], isClient)].index != updates[k - 1].index
    ensures PairFollows(t, r, updates, isClient, k, id)
  {
    hide Names;
    NamesStep(updates, k, t.nics[EndOf(t.cons[id], isClient)].index);
  }

  /** What a well-formed table says of the NICs of one side and the ends of the pairs. */
  lemma SidesRight(t: Table, isClient: bool)
    requires WF(t) && Shaped(t)
    ensures forall n :: n in Side(t, isClient) ==> n in t.nics && n !in Side(t, !isClient)
    ensures forall a, b :: a in Side(t, isClient) && b in Side(t, isClient) && SameIndex(t.nics[a], t.nics[b]) ==>
      a == b
    ensures forall id :: id in t.cons ==>
      EndOf(t.cons[id], isClient) in Side(t, isClient) && EndOf(t.cons[id], !isClient) in Side(t, !isClient)
  {
    hide NoDup, Slice, SlicesOk, UniquePairs;
  }

  lemma RenewStep(t: Table, p: Table, updates: seq<Nic>, isClient: bool, k: nat, m: NicId)
    requires WF(t) && Shaped(t) && WF(p) && Shaped(p) && 0 < k <= |updates| && Distinct(updates)
    requires Follows(t, p, updates, isClient, k - 1) && m in Side(p, isClient) && m in p.nics
    requires p.nics[m].index == updates[k - 1].index
    requires FindNic(p.nics, Side(p, isClient), updates[k - 1].index, 0) == Some(m)
    ensures Follows(t, UpdateOne(p, updates[k - 1], isClient), updates, isClient, k)
  {
    hide WF, Shaped, UpdateOne, RenewsAt, NicFollows, PairFollows, SideFollows, Distinct, FindNic, TakesOver;
    var r := UpdateOne(p, updates[k - 1], isClient);
    RenewsChanged(p, updates[k - 1], isClient, m);
    FoundWasThere(t, p, updates, isClient, k, m);
    NicStepAt(t, p, r, updates, isClient, k, m);
    SidesRight(t, isClient);
    SidesRight(p, isClient);
    SideRenew(t, p, r, updates, isClient, k, m);
    RenewsFrame(p, r, updates[k - 1], isClient, m);
    SideStays(t, p, updates, isClient, k - 1);
    forall n | n in Side(t, isClient)
      ensures NicFollows(t, r, updates, k, n)
    {
      FollowsIndex(t, p, updates, k - 1, n);
      if n != m {
        assert !SameIndex(p.nics[n], p.nics[m]);
        NicStepOther(t, p, r, updates, k, n);
      }
    }
    forall id | id in t.cons
      ensures PairFollows(t, r, updates, isClient, k, id)
    {
      assert EndOf(t.cons[id], isClient) != m ==> !SameIndex(t.nics[EndOf(t.cons[id], isClient)], t.nics[m]);
      PairRenew(t, p, r, updates, isClient, k, m, id);
    }
  }

  lemma RenewsFrame(p: Table, r: Table, update: Nic, isClient: bool, m: NicId)
    requires RenewsAt(p, r, update, isClient, m)
    ensures r.cons.Keys == p.cons.Keys && r.nicState == p.nicState
    ensures forall n :: n in p.nics && n != m ==> n in r.nics && r.nics[n] == p.nics[n]
  {
    hide TakesOver, Again;
  }

  lemma SideStays(t: Table, p: Table, updates: seq<Nic>, isClient: bool, k: nat)
    requires k <= |updates| && SideFollows(t, p, updates, isClient, k)
    ensures forall n :: n in Side(t, isClient) ==> n in Side(p, isClient)
  {
    hide Joined, Newcomer;
  }

  lemma FollowsIndex(t: Table, p: Table, updates: seq<Nic>, k: nat, n: NicId)
    requires k <= |updates| && NicFollows(t, p, updates, k, n)
    ensures n in t.nics && n in p.nics && p.nics[n].index == t.nics[n].index
  {
  }

  lemma InsertStep(t: Table, p: Table, updates: seq<Nic>, isClient: bool, k: nat)
    requires WF(t) && Shaped(t) && WF(p) && Shaped(p) && 0 < k <= |updates| && t.next <= p.next
    requires Follows(t, p, updates, isClient, k - 1)
    requires FindNic(p.nics, Side(p, isClient), updates[k - 1].index, 0).None?
    ensures Follows(t, UpdateOne(p, updates[k - 1], isClient), updates, isClient, k)
  {
    hide WF, Shaped, UpdateOne, InsertsAt, NicFollows, PairFollows, SideFollows, TakesOver, FindNic;
    var r, m := UpdateOne(p, updates[k - 1], isClient), p.next;
    InsertsNew(p, updates[k - 1], isClient);
    SidesRight(t, isClient);
    SideStays(t, p, updates, isClient, k - 1);
    NotFound(p, updates[k - 1].index, isClient);
    forall n | n in Side(t, isClient)
      ensures n in t.nics && t.nics[n].index != updates[k - 1].index && NicFollows(t, r, updates, k, n)
    {
      FollowsIndex(t, p, updates, k - 1, n);
      InsertsFrame(p, r, updates[k - 1], isClient, m);
      NicStepOther(t, p, r, updates, k, n);
    }
    InsertsFrame(p, r, updates[k - 1], isClient, m);
    BeyondNext(t);
    SideInsert(t, p, r, updates, isClient, k, m);
    forall id | id in t.cons
      ensures PairFollows(t, r, updates, isClient, k, id)
    {
      PairInsert(t, p, r, updates, isClient, k, m, id);
    }
  }

  lemma InsertsFrame(p: Table, r: Table, update: Nic, isClient: bool, m: NicId)
    requires InsertsAt(p, r, update, isClient, m)
    ensures r.cons.Keys == p.cons.Keys && r.nicState == p.nicState[m := Idle] && m !in p.nics
    ensures forall n :: n in p.nics ==> n in r.nics && r.nics[n] == p.nics[n]
  {
  }

  lemma NotFound(t: Table, index: nat, isClient: bool)
    requires Shaped(t) && FindNic(t.nics, Side(t, isClient), index, 0).None?
    ensures forall n :: n in Side(t, isClient) ==> n in t.nics && t.nics[n].index != index
  {
    hide FindNic;
  }

  lemma BeyondNext(t: Table)
    requires WF(t)
    ensures forall n :: n in t.nics || n in t.nicState ==> n < t.next
  {
    hide NoDup, UniqueIndices, ConsOk, SlicesOk;
  }

  lemma FollowsNothing(t: Table, updates: seq<Nic>, isClient: bool)
    requires WF(t) && Shaped(t)
    ensures Follows(t, t, updates, isClient, 0)
  {
    hide WF, TakesOver, Again;
    SidesRight(t, isClient);
  }

  lemma NextGrows(t: Table, update: Nic, isClient: bool)
    requires Shaped(t)
    ensures UpdateOne(t, update, isClient).next >= t.next
  {
    hide InsertAt, Inserted, ResetCon, UpdateNic, Changed, FindNic;
  }

  /** Each NIC named takes over its update, the others stay, and new indices join. */
  lemma {:induction false} UpdateToFollows(t: Table, updates: seq<Nic>, isClient: bool, k: nat)
    requires WF(t) && Shaped(t) && k <= |updates| && Distinct(updates) && forall u :: u in updates ==> !u.ignored
    ensures var r := UpdateTo(t, updates, isClient, k);
      WF(r) && r.next >= t.next && Follows(t, r, updates, isClient, k)
  {
    hide WF, Shaped, UpdateOne, Preserves, BusyKept, Follows, Distinct, FindNic;
    UpdateToKeeps(t, updates, isClient, k);
    PreservesWF(t, UpdateTo(t, updates, isClient, k));
    if k == 0 {
      FollowsNothing(t, updates, isClient);
    } else {
      UpdateToFollows(t, updates, isClient, k - 1);
      var p, u := UpdateTo(t, updates, isClient, k - 1), updates[k - 1];
      SidesKnown(p);
      NextGrows(p, u, isClient);
      match FindNic(p.nics, Side(p, isClient), u.index, 0) {
        case None => InsertStep(t, p, updates, isClient, k);
        case Some(m) => RenewStep(t, p, updates, isClient, k, m);
      }
    }
  }

  // ----- The whole update -----

  /** What is left after the removal loop is as it was. */
  ghost predicate Remains(t: Table, r: Table, isClient: bool) {
    && Side(r, !isClient) == Side(t, !isClient)
    && (forall n :: n in Side(r, isClient) ==> n in Side(t, isClient))
    && (forall n :: n in r.nics ==> n in t.nics && r.nics[n] == t.nics[n])
    && (forall n :: n in r.nicState ==> n in t.nicState && r.nicState[n] == t.nicState[n])
    && forall id :: id in r.cons ==> id in t.cons && r.cons[id] == t.cons[id]
  }

  lemma {:induction false} WithoutLess<T>(s: seq<T>, x: T)
    ensures forall y :: y in Without(s, x) ==> y in s
  {
    if s != [] {
      WithoutLess(s[1..], x);
      assert s == [s[0]] + s[1..];
    }
  }

  lemma DropRemains(t: Table, n: NicId, isClient: bool)
    ensures Remains(t, DropIfUseless(t, n, isClient), isClient)
  {
    hide Keep, Without, PairsOf, Useless;
    WithoutLess(Side(t, isClient), n);
  }

  lemma {:induction false} DropToRemains(t: Table, list: seq<NicId>, isClient: bool, k: nat)
    requires k <= |list|
    ensures Remains(t, DropTo(t, list, isClient, k), isClient)
  {
    hide DropIfUseless;
    if k > 0 {
      DropToRemains(t, list, isClient, k - 1);
      DropRemains(DropTo(t, list, isClient, k - 1), list[k - 1], isClient);
    }
  }

  /** The update names an index that was not there. */
  ghost predicate Grows(t: Table, updates: seq<Nic>, isClient: bool) {
    exists i :: 0 <= i < |updates| && NewIndex(t, isClient, updates[i].index)
  }

  lemma ListSet<T>(s: seq<T>)
    requires NoDup(s)
    ensures |set x | x in s| == |s|
  {
    if s != [] {
      var init, last := s[..|s| - 1], s[|s| - 1];
      assert s == init + [last];
      ListSet(init);
      assert (set x | x in s) == (set x | x in init) + {last};
    }
  }

  lemma LongerList<T>(a: seq<T>, b: seq<T>)
    requires NoDup(a) && NoDup(b) && forall x :: x in a ==> x in b
    ensures |b| > |a| <==> exists x :: x in b && x !in a
  {
    ListSet(a);
    ListSet(b);
    var sa, sb := set x | x in a, set x | x in b;
    assert sb == sa + (sb - sa);
    if x :| x in b && x !in a {
      assert x in sb - sa;
    } else {
      assert sb - sa == {};
    }
  }

  /** The list is longer exactly if an index was new. */
  lemma GrowsIs(t: Table, r: Table, updates: seq<Nic>, isClient: bool)
    requires WF(t) && WF(r) && Shaped(t) && SideFollows(t, r, updates, isClient, |updates|)
    ensures |Side(r, isClient)| > |Side(t, isClient)| <==> Grows(t, updates, isClient)
  {
    hide WF, Shaped, Side, NewIndex;
    SideNoDupWF(t, isClient);
    SideNoDupWF(r, isClient);
    SidesRight(t, isClient);
    LongerList(Side(t, isClient), Side(r, isClient));
    if i :| 0 <= i < |updates| && NewIndex(t, isClient, updates[i].index) {
      assert Joined(t, r, isClient, updates[i]);
    }
  }

  /** A pair that is still there is renewed or not, and, if the table was completed, no longer parked behind two idle
      NICs. */
  ghost predicate PairRefreshed(t: Table, r: Table, updates: seq<Nic>, isClient: bool, id: ConId) {
    && id in t.cons && id in r.cons && EndsKnown(t.nics, t.cons[id]) && EndsKnown(r.nics, t.cons[id])
    && EndStates(r.nicState, t.cons[id])
    && var n := EndOf(t.cons[id], isClient);
    var named := isClient && Names(updates, |updates|, t.nics[n].index);
    var c := if !t.nics[n].ignored && (named || r.nics[n] != t.nics[n]) then Again(r.nics, t.cons[id]) else t.cons[id];
    r.cons[id] == if Grows(t, updates, isClient) && c.state == Surplus && Free(r.nicState, c)
                  then c.(state := Potential) else c
  }

  /** What holds once the update is applied, before NICs are dropped. */
  ghost predicate AppliedRight(t: Table, a: Table, updates: seq<Nic>, isClient: bool) {
    && SideFollows(t, a, updates, isClient, |updates|)
    && (forall n :: n in Side(t, isClient) ==> NicFollows(t, a, updates, |updates|, n))
    && (forall id :: id in t.cons ==> PairRefreshed(t, a, updates, isClient, id))
    && (forall id :: id in a.cons && id !in t.cons ==> Grows(t, updates, isClient) && Born(a, a.cons[id]))
    && forall n :: n in t.nicState ==> n in a.nicState && a.nicState[n] == t.nicState[n]
  }

  lemma AppliedMeans(t: Table, updates: seq<Nic>, isClient: bool)
    requires WF(t) && Shaped(t) && Distinct(updates) && forall u :: u in updates ==> !u.ignored
    ensures AppliedRight(t, Applied(t, updates, isClient), updates, isClient)
  {
    hide WF, UpdateTo, Completed, NicFollows, SideFollows, PairFollows, PairRefreshed, Born, Distinct, Shaped, Side,
      Grows, Free;
    var t1, a := UpdateTo(t, updates, isClient, |updates|), Applied(t, updates, isClient);
    UpdateToFollows(t, updates, isClient, |updates|);
    WFShaped(t1);
    GrowsIs(t, t1, updates, isClient);
    CompletedPairs(t1);
    if Grows(t, updates, isClient) {
      CompletedFollows(t, t1, a, updates, isClient);
    } else {
      forall id | id in t.cons
        ensures PairRefreshed(t, a, updates, isClient, id)
      {
        UnparkedNot(t, a, updates, isClient, id);
      }
    }
  }

  lemma UnparkedNot(t: Table, a: Table, updates: seq<Nic>, isClient: bool, id: ConId)
    requires Shaped(t) && Shaped(a) && PairFollows(t, a, updates, isClient, |updates|, id)
    requires !Grows(t, updates, isClient)
    ensures PairRefreshed(t, a, updates, isClient, id)
  {
    hide Names, Grows, Again, Free;
  }

  lemma CompletedFollows(t: Table, t1: Table, a: Table, updates: seq<Nic>, isClient: bool)
    requires Shaped(t) && Shaped(t1) && Follows(t, t1, updates, isClient, |updates|) && Grows(t, updates, isClient)
    requires a == t1.(conList := a.conList, cons := a.cons, possible := a.possible, next := a.next)
    requires forall id :: id in a.cons && id !in t1.cons ==> Born(a, a.cons[id])
    requires forall id :: id in t1.cons ==>
      id in a.cons && a.cons[id] == if t1.cons[id].state == Surplus && Free(t1.nicState, t1.cons[id])
        then t1.cons[id].(state := Potential) else t1.cons[id]
    ensures AppliedRight(t, a, updates, isClient)
  {
    hide Shaped, Born, SideFollows, NicFollows, PairFollows, PairRefreshed, Grows, Free;
    SideFrame(t, t1, a, updates, isClient);
    EndsShaped(t1);
    forall id | id in t.cons
      ensures PairRefreshed(t, a, updates, isClient, id)
    {
      UnparkedAll(t, t1, a, updates, isClient, id);
    }
    forall n | n in Side(t, isClient)
      ensures NicFollows(t, a, updates, |updates|, n)
    {
      FollowsIndex(t, t1, updates, |updates|, n);
      NicFrame(t, t1, a, updates, n);
    }
  }

  lemma EndsShaped(t: Table)
    requires Shaped(t)
    ensures forall id :: id in t.cons ==> EndStates(t.nicState, t.cons[id])
  {
  }

  lemma NicFrame(t: Table, t1: Table, a: Table, updates: seq<Nic>, n: NicId)
    requires NicFollows(t, t1, updates, |updates|, n) && n in a.nics && a.nics[n] == t1.nics[n]
    ensures NicFollows(t, a, updates, |updates|, n)
  {
    hide TakesOver, Names;
  }

  lemma SideFrame(t: Table, t1: Table, a: Table, updates: seq<Nic>, isClient: bool)
    requires SideFollows(t, t1, updates, isClient, |updates|)
    requires a == t1.(conList := a.conList, cons := a.cons, possible := a.possible, next := a.next)
    ensures SideFollows(t, a, updates, isClient, |updates|)
  {
    hide Newcomer, NewIndex;
    forall i | 0 <= i < |updates| && NewIndex(t, isClient, updates[i].index)
      ensures Joined(t, a, isClient, updates[i])
    {
      assert Joined(t, t1, isClient, updates[i]);
    }
  }

  lemma UnparkedAll(t: Table, t1: Table, a: Table, updates: seq<Nic>, isClient: bool, id: ConId)
    requires Shaped(t1) && PairFollows(t, t1, updates, isClient, |updates|, id) && Grows(t, updates, isClient)
    requires a == t1.(conList := a.conList, cons := a.cons, possible := a.possible, next := a.next)
    requires id in t1.cons && id in a.cons && EndStates(t1.nicState, t1.cons[id])
    requires a.cons[id] == if t1.cons[id].state == Surplus && Free(t1.nicState, t1.cons[id])
        then t1.cons[id].(state := Potential) else t1.cons[id]
    ensures PairRefreshed(t, a, updates, isClient, id)
  {
    hide Shaped, Names, Grows;
  }

  lemma UpdateRemains(t: Table, updates: seq<Nic>, isClient: bool)
    requires WF(t) && Shaped(t) && forall u :: u in updates ==> !u.ignored
    ensures var r, a := Update(t, updates, isClient), Applied(t, updates, isClient);
      Remains(a, r, isClient) && WF(r) && Shaped(r)
  {
    hide WF, Shaped, Applied, Update, DropTo, Remains, BusyKept, Preserves;
    AppliedWF(t, updates, isClient);
    var a := Applied(t, updates, isClient);
    DropToRemains(a, Side(a, isClient), isClient, |Side(a, isClient)|);
    UpdateKeeps(t, updates, isClient);
    PreservesWF(t, Update(t, updates, isClient));
  }

  /** The NIC is not ignore-listed, has pairs, and each of them has failed or had no potential. */
  ghost predicate Doomed(t: Table, n: NicId, isClient: bool) {
    && n in t.nics && !t.nics[n].ignored
    && (exists id :: id in t.cons && EndOf(t.cons[id], isClient) == n)
    && forall id :: id in t.cons && EndOf(t.cons[id], isClient) == n ==>
         t.cons[id].state == FailedToConnect || t.cons[id].state == NoPotential
  }

  lemma DoomedIs(t: Table, n: NicId, isClient: bool)
    requires n in t.nics
    ensures Doomed(t, n, isClient) <==> Useless(t, n, isClient)
  {
    assert forall id :: id in PairsOf(t, n, isClient) <==> id in t.cons && EndOf(t.cons[id], isClient) == n;
    if PairsOf(t, n, isClient) != {} {
      var id :| id in PairsOf(t, n, isClient);
    }
    if exists id :: id in t.cons && EndOf(t.cons[id], isClient) == n {
      var id :| id in t.cons && EndOf(t.cons[id], isClient) == n;
      assert id in PairsOf(t, n, isClient);
    }
  }

  /** A new index has a NIC as the update describes it, which stays exactly if it is not doomed. */
  ghost predicate Admitted(t: Table, a: Table, r: Table, isClient: bool, update: Nic) {
    exists n :: && n in Side(a, isClient) && n !in t.nics && n in a.nics && a.nics[n] == update && IdleIn(a, n)
                && (n in Side(r, isClient) <==> !Doomed(a, n, isClient))
                && (n in Side(r, isClient) ==> n in r.nics && r.nics[n] == update)
  }

  /**
   The NICs after an update that names no index twice.  A NIC that was there stays exactly if it is not doomed once
   the update is applied, and then has taken over the update that names it or is as it was.  Every other NIC of the
   list is a newcomer, and there was one for each new index.  The other side is as it was.
   */
  lemma UpdateNics(t: Table, updates: seq<Nic>, isClient: bool)
    requires WF(t) && Shaped(t) && Distinct(updates) && forall u :: u in updates ==> !u.ignored
    ensures var r, a := Update(t, updates, isClient), Applied(t, updates, isClient);
      && Side(r, !isClient) == Side(t, !isClient)
      && (forall m :: m in Side(t, !isClient) ==> m in t.nics && m in r.nics && r.nics[m] == t.nics[m])
      && (forall n :: n in Side(t, isClient) ==>
            && n in a.nics && (n in Side(r, isClient) <==> !Doomed(a, n, isClient))
            && (n in Side(r, isClient) ==> NicFollows(t, r, updates, |updates|, n)))
      && (forall n :: n in Side(r, isClient) && n !in Side(t, isClient) ==>
            n in r.nics && Newcomer(t, updates, isClient, |updates|, r.nics[n]))
      && (forall i :: 0 <= i < |updates| && NewIndex(t, isClient, updates[i].index) ==>
            Admitted(t, a, r, isClient, updates[i]))
  {
    hide WF, Shaped, Applied, Update, NicFollows, PairRefreshed, Born, Useless, Doomed, Distinct, NewIndex,
      Newcomer, Admitted, Side, Grows;
    var r, a := Update(t, updates, isClient), Applied(t, updates, isClient);
    AppliedMeans(t, updates, isClient);
    UpdateRemains(t, updates, isClient);
    AppliedWF(t, updates, isClient);
    SidesRight(a, isClient);
    SidesRight(t, !isClient);
    SidesRight(r, isClient);
    SidesRight(r, !isClient);
    forall n | n in Side(t, isClient)
      ensures n in a.nics && (n in Side(r, isClient) <==> !Doomed(a, n, isClient))
      ensures n in Side(r, isClient) ==> NicFollows(t, r, updates, |updates|, n)
    {
      UpdateDrops(t, updates, isClient, n);
      DoomedIs(a, n, isClient);
      if n in Side(r, isClient) { NicFrame(t, a, r, updates, n); }
    }
    forall i | 0 <= i < |updates| && NewIndex(t, isClient, updates[i].index)
      ensures Admitted(t, a, r, isClient, updates[i])
    {
      assert Joined(t, a, isClient, updates[i]);
      var n :| n in Side(a, isClient) && n !in t.nics && n in a.nics && a.nics[n] == updates[i] && IdleIn(a, n);
      UpdateDrops(t, updates, isClient, n);
      DoomedIs(a, n, isClient);
      AdmittedBy(t, a, r, isClient, updates[i], n);
    }
  }

  lemma AdmittedBy(t: Table, a: Table, r: Table, isClient: bool, update: Nic, n: NicId)
    requires n in Side(a, isClient) && n !in t.nics && n in a.nics && a.nics[n] == update && IdleIn(a, n)
    requires n in Side(r, isClient) <==> !Doomed(a, n, isClient)
    requires n in Side(r, isClient) ==> n in r.nics && r.nics[n] == update
    ensures Admitted(t, a, r, isClient, update)
  {
    hide Doomed;
  }

  /** The pairs after such an update: those that were there are renewed as their NIC was, the others are new. */
  lemma UpdatePairsMean(t: Table, updates: seq<Nic>, isClient: bool)
    requires WF(t) && Shaped(t) && Distinct(updates) && forall u :: u in updates ==> !u.ignored
    ensures var r := Update(t, updates, isClient);
      && (forall id :: id in t.cons && id in r.cons ==> PairRefreshed(t, r, updates, isClient, id))
      && forall id :: id in r.cons && id !in t.cons ==> Grows(t, updates, isClient) && Born(r, r.cons[id])
  {
    hide WF, Applied, Update, NicFollows, PairRefreshed, Born, Distinct, Side, Grows, SideFollows;
    var r, a := Update(t, updates, isClient), Applied(t, updates, isClient);
    AppliedMeans(t, updates, isClient);
    UpdateRemains(t, updates, isClient);
    forall id | id in t.cons && id in r.cons
      ensures PairRefreshed(t, r, updates, isClient, id)
    {
      PairFrame(t, a, r, updates, isClient, id);
    }
    forall id | id in r.cons && id !in t.cons
      ensures Born(r, r.cons[id])
    {
      BornFrame(a, r, r.cons[id]);
    }
  }

  lemma PairFrame(t: Table, a: Table, r: Table, updates: seq<Nic>, isClient: bool, id: ConId)
    requires Shaped(r) && id in r.cons && PairRefreshed(t, a, updates, isClient, id) && Remains(a, r, isClient)
    ensures PairRefreshed(t, r, updates, isClient, id)
  {
    hide Grows, Names;
  }

  lemma BornFrame(a: Table, r: Table, c: Con)
    requires Born(a, c) && EndsKnown(r.nics, c) && EndStates(r.nicState, c)
    requires r.nics[c.client] == a.nics[c.client] && r.nics[c.server] == a.nics[c.server]
    requires r.nicState[c.server] == a.nicState[c.server]
    ensures Born(r, c)
  {
  }

  // ----- The updates that the calls carry -----

  lemma ListDistinct(t: Table, isClient: bool)
    requires WF(t) && Shaped(t)
    ensures Distinct(NicList(t, Side(t, isClient)))
  {
    hide WF;
    SideNoDupWF(t, isClient);
    SidesRight(t, isClient);
    var list := Side(t, isClient);
    forall i, j | 0 <= i < j < |list|
      ensures t.nics[list[i]].index != t.nics[list[j]].index
    {
      assert !SameIndex(t.nics[list[i]], t.nics[list[j]]);
    }
  }

  /** A notification and a query answer name no index twice, so that all of this is true of them. */
  lemma CallsDistinct(t: Table, s: Step)
    ensures s.Notify? ==> Distinct(NotifiedNics(s)) && forall u :: u in NotifiedNics(s) ==> !u.ignored
    ensures s.QueryAnswer? ==> Distinct(AnsweredNics(t, s)) && forall u :: u in AnsweredNics(t, s) ==> !u.ignored
  {
    hide WF, Shaped, AddClients, AddServers, Distinct, Init, NicList;
    if s.Notify? {
      NotifiedNotIgnored(s);
      var i := Init(s.maxChannels, s.srvrRss, s.clntRss, [], false);
      InitWF(s.maxChannels, s.srvrRss, s.clntRss, [], false);
      AddClientsExtends(i, s.infos, s.forceRss, |s.infos|);
      ListDistinct(AddClients(i, s.infos, s.forceRss, |s.infos|), true);
    } else if s.QueryAnswer? {
      AnsweredNotIgnored(t, s);
      var i := Init(0, 0, 0, [], false);
      InitWF(0, 0, 0, [], false);
      AddServersExtends(i, s.infos, t.srvrRss, |s.infos|);
      ListDistinct(AddServers(i, s.infos, t.srvrRss, |s.infos|), false);
    }
  }
}
