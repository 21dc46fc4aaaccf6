/**
 Which NICs an update drops. The code means to drop only NICs that the update does not name, but
 the update's list is empty by then.
 */
module McUpdates {
  import opened Options
  import opened McTypes
  import opened McConList
  import opened McReport
  import opened McNotifier

  /** The table once every NIC of the update was applied and the pairs are complete. */
  function Applied(t: Table, updates: seq<Nic>, isClient: bool): Table
    requires Shaped(t)
  {
    var t1 := UpdateTo(t, updates, isClient, |updates|);
    if |Side(t1, isClient)| > |Side(t, isClient)| then Completed(t1) else t1
  }

  predicate Hopeless(c: Con) {
    c.state == FailedToConnect || c.state == NoPotential
  }

  lemma AppliedWF(t: Table, updates: seq<Nic>, isClient: bool)
    requires WF(t) && Shaped(t) && forall u :: u in updates ==> !u.ignored
    ensures var a := Applied(t, updates, isClient);
      && WF(a) && Shaped(a)
      && Update(t, updates, isClient) == DropTo(a, Side(a, isClient), isClient, |Side(a, isClient)|)
  {
    hide WF, Preserves, UpdateTo, DropTo, BusyKept, Completed, Shaped;
    var t1 := UpdateTo(t, updates, isClient, |updates|);
    UpdateToKeeps(t, updates, isClient, |updates|);
    PreservesWF(t, t1);
    CompletedSound(t1);
  }

  // ----- The removal loop -----

  /** What decides whether a NIC is dropped is the same. */
  predicate SameUse(t: Table, t': Table, n: NicId, isClient: bool) {
    && n in t.nics && n in t'.nics && t'.nics[n] == t.nics[n]
    && PairsOf(t', n, isClient) == PairsOf(t, n, isClient)
    && forall id :: id in PairsOf(t, n, isClient) ==>
         SamePair(t'.cons[id], t.cons[id]) && (Hopeless(t'.cons[id]) <==> Hopeless(t.cons[id]))
  }

  lemma SameUseUseless(t: Table, t': Table, n: NicId, isClient: bool)
    requires SameUse(t, t', n, isClient)
    ensures Useless(t', n, isClient) <==> Useless(t, n, isClient)
  {
  }

  lemma SameUseTransitive(a: Table, b: Table, c: Table, n: NicId, isClient: bool)
    requires SameUse(a, b, n, isClient) && SameUse(b, c, n, isClient)
    ensures SameUse(a, c, n, isClient)
  {
  }

  lemma DropUse(t: Table, m: NicId, n: NicId, isClient: bool)
    requires n in t.nics && m != n
    ensures SameUse(t, DropNic(t, m, isClient), n, isClient)
  {
    hide Keep;
    var r := DropNic(t, m, isClient);
    assert forall id :: id in PairsOf(t, n, isClient) ==> id !in PairsOf(t, m, isClient);
    assert r.nics == t.nics - {m} && r.cons == t.cons - PairsOf(t, m, isClient);
  }

  lemma DropSide(t: Table, m: NicId, isClient: bool)
    requires NoDup(Side(t, isClient))
    ensures forall n :: n in Side(DropNic(t, m, isClient), isClient) <==> n in Side(t, isClient) && n != m
  {
    hide Keep, PairsOf;
    WithoutMembers(Side(t, isClient), m);
  }

  /** Dropping a NIC takes it off its list and does not matter to the others of the list. */
  lemma DropMatters(t: Table, m: NicId, n: NicId, isClient: bool)
    requires WF(t) && Shaped(t) && m in Side(t, isClient)
    ensures var r := DropIfUseless(t, m, isClient);
      && (m != n ==> (n in Side(r, isClient) <==> n in Side(t, isClient)))
      && (m != n && n in t.nics ==> SameUse(t, r, n, isClient))
      && m in t.nics && (m in Side(r, isClient) <==> !Useless(t, m, isClient))
  {
    hide WF, Useless, SameUse, DropNic, Shaped, Side;
    SidesKnown(t);
    SideIs(t, isClient);
    SideNoDupWF(t, isClient);
    DropSide(t, m, isClient);
    if n in t.nics {
      SameUseSelf(t, n, isClient);
      if m != n {
        DropUse(t, m, n, isClient);
      }
    }
  }

  lemma SideIs(t: Table, isClient: bool)
    ensures Side(t, isClient) == if isClient then t.clients else t.servers
  {
  }

  lemma {:induction false} DropToDrops(t: Table, isClient: bool, k: nat, j: nat)
    requires WF(t) && Shaped(t) && k <= |Side(t, isClient)| && j < |Side(t, isClient)|
    ensures var n := Side(t, isClient)[j];
      var r := DropTo(t, Side(t, isClient), isClient, k);
      && WF(r) && Shaped(r) && (j >= k ==> SameUse(t, r, n, isClient))
      && (n in Side(r, isClient) <==> j >= k || !Useless(t, n, isClient))
  {
    hide WF, Preserves, DropIfUseless, BusyKept, SameUse, Useless, Shaped;
    var list := Side(t, isClient);
    DropToKeeps(t, isClient, k);
    PreservesWF(t, DropTo(t, list, isClient, k));
    SidesKnown(t);
    if k == 0 {
      SameUseSelf(t, list[j], isClient);
    } else {
      var p := DropTo(t, list, isClient, k - 1);
      DropToDrops(t, isClient, k - 1, j);
      DropToDrops(t, isClient, k - 1, k - 1);
      SidesKnown(p);
      SideNoDupWF(t, isClient);
      DropMatters(p, list[k - 1], list[j], isClient);
      if j == k - 1 {
        SameUseUseless(t, p, list[j], isClient);
      } else if j >= k {
        SameUseTransitive(t, p, DropIfUseless(p, list[k - 1], isClient), list[j], isClient);
      }
    }
  }

  lemma SameUseSelf(t: Table, n: NicId, isClient: bool)
    requires n in t.nics
    ensures SameUse(t, t, n, isClient)
  {
  }

  lemma SidesKnown(t: Table)
    requires Shaped(t)
    ensures forall n :: n in t.clients || n in t.servers ==> n in t.nics
  {
  }

  /** A NIC of the list, named in the update or not, is dropped exactly if it is useless once the
      update is applied. */
  lemma UpdateDrops(t: Table, updates: seq<Nic>, isClient: bool, n: NicId)
    requires WF(t) && Shaped(t) && forall u :: u in updates ==> !u.ignored
    requires n in Side(Applied(t, updates, isClient), isClient) && n in Applied(t, updates, isClient).nics
    ensures n in Side(Update(t, updates, isClient), isClient) <==> !Useless(Applied(t, updates, isClient), n, isClient)
  {
    hide WF, Applied, Update, DropTo, Useless, Shaped, SameUse;
    AppliedWF(t, updates, isClient);
    var a := Applied(t, updates, isClient);
    var j :| 0 <= j < |Side(a, isClient)| && Side(a, isClient)[j] == n;
    DropToDrops(a, isClient, |Side(a, isClient)|, j);
  }

  // ----- A NIC that the update names -----

  lemma InsertUse(t: Table, nic: Nic, isClient: bool, n: NicId)
    requires Shaped(t) && n in t.nics && n != t.next
    ensures SameUse(t, InsertNic(t, nic, isClient), n, isClient)
    ensures n in Side(t, isClient) ==> n in Side(InsertNic(t, nic, isClient), isClient)
  {
    hide InsertAt;
  }

  lemma ResetUse(t: Table, nics: map<NicId, Nic>, m: NicId, n: NicId, isClient: bool)
    requires Shaped(t) && n in t.nics && m in t.nics && m != n && nics.Keys == t.nics.Keys && nics[n] == t.nics[n]
    ensures Shaped(t.(nics := nics)) && SameUse(t, ResetCons(t.(nics := nics), m, isClient), n, isClient)
  {
    hide LinkSpeed;
    var r := ResetCons(t.(nics := nics), m, isClient);
    assert r.cons.Keys == t.cons.Keys;
    assert forall id :: id in t.cons && EndOf(t.cons[id], isClient) == n ==> r.cons[id] == t.cons[id];
    assert forall id :: id in t.cons ==> EndOf(r.cons[id], isClient) == EndOf(t.cons[id], isClient);
  }

  /** An update of another NIC of the list does not matter to `n`. */
  lemma UpdateElsewhere(t: Table, update: Nic, isClient: bool, n: NicId)
    requires WF(t) && Shaped(t) && n in Side(t, isClient) && n in t.nics
    requires update.index != t.nics[n].index
    ensures var r := UpdateOne(t, update, isClient);
      SameUse(t, r, n, isClient) && n in Side(r, isClient)
  {
    hide WF, SameUse, InsertNic, ResetCons, UpdateNic, Changed;
    NextFresh(t);
    SameUseSelf(t, n, isClient);
    match FindNic(t.nics, Side(t, isClient), update.index, 0) {
      case None => InsertUse(t, update, isClient, n);
      case Some(m) =>
        ResetUse(t, t.nics[m := UpdateNic(t.nics[m], update)], m, n, isClient);
        ResetUse(t, t.nics, m, n, isClient);
        assert t.(nics := t.nics) == t;
        ResetSide(t.(nics := t.nics[m := UpdateNic(t.nics[m], update)]), m, isClient);
        ResetSide(t, m, isClient);
    }
  }

  lemma ResetSide(t: Table, m: NicId, isClient: bool)
    requires Shaped(t) && m in t.nics
    ensures Side(ResetCons(t, m, isClient), isClient) == Side(t, isClient)
    ensures ResetCons(t, m, isClient).nics == t.nics
  {
  }

  /** After a reset the NIC has the same pairs and, unless it is ignore-listed, none is hopeless. */
  lemma ResetHelps(t: Table, n: NicId, isClient: bool)
    requires Shaped(t) && n in t.nics
    ensures var r := ResetCons(t, n, isClient);
      && PairsOf(r, n, isClient) == PairsOf(t, n, isClient)
      && (forall id :: id in PairsOf(t, n, isClient) ==> SamePair(r.cons[id], t.cons[id]))
      && (!t.nics[n].ignored ==> forall id :: id in PairsOf(r, n, isClient) ==> !Hopeless(r.cons[id]))
  {
    hide LinkSpeed;
    var r := ResetCons(t, n, isClient);
    assert forall id :: id in t.cons ==> EndOf(r.cons[id], isClient) == EndOf(t.cons[id], isClient);
  }

  /** The NIC has the same pairs; if it was helped and is not ignore-listed, none is hopeless, and
      otherwise the hopeless ones are the same. */
  predicate Helped(t: Table, r: Table, n: NicId, isClient: bool, helped: bool) {
    && n in t.nics && n in r.nics && r.nics[n].ignored == t.nics[n].ignored
    && PairsOf(r, n, isClient) == PairsOf(t, n, isClient)
    && (forall id :: id in PairsOf(t, n, isClient) ==> SamePair(r.cons[id], t.cons[id]))
    && (helped ==> t.nics[n].ignored || forall id :: id in PairsOf(r, n, isClient) ==> !Hopeless(r.cons[id]))
    && (!helped ==> forall id :: id in PairsOf(t, n, isClient) ==> (Hopeless(r.cons[id]) <==> Hopeless(t.cons[id])))
  }

  lemma HelpedOn(a: Table, b: Table, c: Table, n: NicId, isClient: bool, helped: bool)
    requires Helped(a, b, n, isClient, helped) && SameUse(b, c, n, isClient)
    ensures Helped(a, c, n, isClient, helped)
  {
  }

  lemma HelpedAfter(a: Table, b: Table, c: Table, n: NicId, isClient: bool, helped: bool)
    requires SameUse(a, b, n, isClient) && Helped(b, c, n, isClient, helped)
    ensures Helped(a, c, n, isClient, helped)
  {
  }

  lemma HelpedUseless(t: Table, r: Table, n: NicId, isClient: bool, helped: bool)
    requires Helped(t, r, n, isClient, helped)
    ensures Useless(r, n, isClient) <==> !helped && Useless(t, n, isClient)
  {
    assert Useless(r, n, isClient) ==> exists id :: id in PairsOf(r, n, isClient);
  }

  /** The update that names `n`: its pairs may be tried again if it is a client NIC or has changed. */
  lemma UpdateNamed(t: Table, update: Nic, isClient: bool, n: NicId)
    requires WF(t) && Shaped(t) && n in Side(t, isClient) && n in t.nics
    requires update.index == t.nics[n].index
    ensures var r := UpdateOne(t, update, isClient);
      && n in r.nics && n in Side(r, isClient)
      && r.nics[n].index == t.nics[n].index
      && Helped(t, r, n, isClient, isClient || Changed(t.nics[n], update))
  {
    hide WF, ResetCons, Changed, PairsOf, UpdateAddrs, Hopeless;
    FoundByIndex(t, n, isClient);
    var t' := t.(nics := t.nics[n := UpdateNic(t.nics[n], update)]);
    ResetHelps(t', n, isClient);
    ResetSide(t', n, isClient);
    ResetHelps(t, n, isClient);
    ResetSide(t, n, isClient);
    assert PairsOf(t', n, isClient) == PairsOf(t, n, isClient) by {
      PairsFrame(t, t', n, isClient);
    }
  }

  lemma PairsFrame(t: Table, t': Table, n: NicId, isClient: bool)
    requires t'.cons == t.cons
    ensures PairsOf(t', n, isClient) == PairsOf(t, n, isClient)
  {
  }

  lemma FoundByIndex(t: Table, n: NicId, isClient: bool)
    requires WF(t) && Shaped(t) && n in Side(t, isClient)
    ensures FindNic(t.nics, Side(t, isClient), t.nics[n].index, 0) == Some(n)
  {
    hide ConsOk, SlicesOk, UniquePairs, NoDup, FindNic;
    FindNicUnique(t.nics, Side(t, isClient), n);
  }

  lemma OtherSide(t: Table, update: Nic, isClient: bool)
    requires Shaped(t)
    ensures Side(UpdateOne(t, update, isClient), !isClient) == Side(t, !isClient)
  {
    hide InsertAt, Inserted, LinkSpeed, UpdateNic, Changed;
  }

  /** Only one of the updates names `n`. */
  predicate NamedOnce(t: Table, updates: seq<Nic>, n: NicId, i: nat) {
    && i < |updates| && n in t.nics
    && forall j :: 0 <= j < |updates| ==> (updates[j].index == t.nics[n].index <==> j == i)
  }

  lemma {:induction false} UpdateToNamed(t: Table, updates: seq<Nic>, isClient: bool, n: NicId, i: nat, k: nat)
    requires WF(t) && Shaped(t) && k <= |updates| && forall u :: u in updates ==> !u.ignored
    requires n in Side(t, isClient) && NamedOnce(t, updates, n, i)
    ensures var r := UpdateTo(t, updates, isClient, k);
      && WF(r) && Shaped(r) && n in Side(r, isClient) && Side(r, !isClient) == Side(t, !isClient)
      && (k <= i ==> SameUse(t, r, n, isClient))
      && (k > i ==>
        && Helped(t, r, n, isClient, isClient || Changed(t.nics[n], updates[i]))
        && r.nics[n].index == t.nics[n].index)
  {
    hide WF, Shaped, SameUse, Helped, UpdateOne, Changed, Side, BusyKept, Preserves;
    UpdateToKeeps(t, updates, isClient, k);
    PreservesWF(t, UpdateTo(t, updates, isClient, k));
    if k == 0 {
      SameUseSelf(t, n, isClient);
    } else {
      UpdateToNamed(t, updates, isClient, n, i, k - 1);
      var p := UpdateTo(t, updates, isClient, k - 1);
      var r := UpdateOne(p, updates[k - 1], isClient);
      OtherSide(p, updates[k - 1], isClient);
      SameUseIndex(t, p, n, isClient, k - 1 <= i);
      SideKnown(p, n, isClient);
      if k - 1 == i {
        UpdateNamed(p, updates[i], isClient, n);
        HelpedAfter(t, p, r, n, isClient, isClient || Changed(p.nics[n], updates[i]));
      } else {
        UpdateElsewhere(p, updates[k - 1], isClient, n);
        SameUseIndex(p, r, n, isClient, true);
        if k <= i {
          SameUseTransitive(t, p, r, n, isClient);
        } else {
          HelpedOn(t, p, r, n, isClient, isClient || Changed(t.nics[n], updates[i]));
        }
      }
    }
  }

  lemma SameUseIndex(t: Table, r: Table, n: NicId, isClient: bool, same: bool)
    requires same ==> SameUse(t, r, n, isClient)
    ensures same ==> n in t.nics && n in r.nics && r.nics[n] == t.nics[n]
  {
  }

  ghost predicate PairedWith(t: Table, n: NicId, isClient: bool, m: NicId) {
    exists id :: id in PairsOf(t, n, isClient) && EndOf(t.cons[id], !isClient) == m
  }

  /** The NIC has a pair with every NIC of the other side. */
  ghost predicate Paired(t: Table, n: NicId, isClient: bool) {
    forall m :: m in Side(t, !isClient) ==> PairedWith(t, n, isClient, m)
  }

  lemma PairedFrame(t: Table, r: Table, n: NicId, isClient: bool, helped: bool)
    requires Helped(t, r, n, isClient, helped) && Side(r, !isClient) == Side(t, !isClient) && Paired(t, n, isClient)
    ensures Paired(r, n, isClient)
  {
    forall m | m in Side(r, !isClient)
      ensures PairedWith(r, n, isClient, m)
    {
      assert PairedWith(t, n, isClient, m);
      var id :| id in PairsOf(t, n, isClient) && EndOf(t.cons[id], !isClient) == m;
      assert id in PairsOf(r, n, isClient) && SamePair(r.cons[id], t.cons[id]);
    }
  }

  /** Completing the table adds nothing to a NIC that has all its pairs. */
  lemma CompletedUse(t: Table, n: NicId, isClient: bool)
    requires WF(t) && Shaped(t) && n in t.nics && Paired(t, n, isClient)
    ensures SameUse(t, Completed(t), n, isClient) && Side(Completed(t), isClient) == Side(t, isClient)
  {
    hide WF, Completed, PairsOf, Paired, HasPair, NoStarvation, Hopeless;
    var r := Completed(t);
    CompletedSound(t);
    forall id
      ensures id in PairsOf(r, n, isClient) <==> id in PairsOf(t, n, isClient)
    {
      CompletedPair(t, r, n, isClient, id);
    }
    forall id | id in PairsOf(t, n, isClient)
      ensures id in t.cons && id in r.cons && SamePair(r.cons[id], t.cons[id])
      ensures Hopeless(r.cons[id]) <==> Hopeless(t.cons[id])
    {
      GrownPair(t, r, n, isClient, id);
    }
  }

  lemma GrownPair(t: Table, r: Table, n: NicId, isClient: bool, id: ConId)
    requires Grown(t, r) && id in PairsOf(t, n, isClient)
    ensures id in t.cons && id in r.cons && SamePair(r.cons[id], t.cons[id]) &&
      (Hopeless(r.cons[id]) <==> Hopeless(t.cons[id]))
    ensures id in PairsOf(r, n, isClient)
  {
  }

  lemma CompletedPair(t: Table, r: Table, n: NicId, isClient: bool, id: ConId)
    requires WF(r) && Grown(t, r) && Paired(t, n, isClient)
    ensures id in PairsOf(r, n, isClient) <==> id in PairsOf(t, n, isClient)
  {
    hide WF, Grown;
    if id in PairsOf(t, n, isClient) {
      GrownPair(t, r, n, isClient, id);
    } else if id in PairsOf(r, n, isClient) {
      var m := EndOf(r.cons[id], !isClient);
      EndsListed(r);
      GrownSides(t, r);
      assert PairedWith(t, n, isClient, m);
      var k :| k in PairsOf(t, n, isClient) && EndOf(t.cons[k], !isClient) == m;
      GrownPair(t, r, n, isClient, k);
      OnePair(r, k, id);
    }
  }

  lemma GrownSides(t: Table, r: Table)
    requires Grown(t, r)
    ensures r.clients == t.clients && r.servers == t.servers
  {
  }

  lemma OnePair(t: Table, a: ConId, b: ConId)
    requires WF(t) && a in t.cons && b in t.cons && SamePair(t.cons[a], t.cons[b])
    ensures a == b
  {
    hide NicsOk, SlicesOk, NoDup;
  }

  /**
   A NIC that the update names and that has all its pairs is dropped all the same, exactly if it
   is a server NIC, the update tells nothing new of it, and none of its pairs can be used.
   */
  lemma NamedDropped(t: Table, updates: seq<Nic>, isClient: bool, n: NicId, i: nat)
    requires WF(t) && Shaped(t) && forall u :: u in updates ==> !u.ignored
    requires n in Side(t, isClient) && NamedOnce(t, updates, n, i) && Paired(t, n, isClient)
    ensures n !in Side(Update(t, updates, isClient), isClient) <==>
      !isClient && !Changed(t.nics[n], updates[i]) && Useless(t, n, isClient)
  {
    hide WF, Shaped, SameUse, Helped, UpdateTo, Changed, Side, Useless, Paired, Completed;
    var helped := isClient || Changed(t.nics[n], updates[i]);
    UpdateToNamed(t, updates, isClient, n, i, |updates|);
    var t1 := UpdateTo(t, updates, isClient, |updates|);
    SideKnown(t1, n, isClient);
    PairedFrame(t, t1, n, isClient, helped);
    CompletedUse(t1, n, isClient);
    HelpedOn(t, t1, Completed(t1), n, isClient, helped);
    SideKnown(Completed(t1), n, isClient);
    HelpedUseless(t, Applied(t, updates, isClient), n, isClient, helped);
    UpdateDrops(t, updates, isClient, n);
  }

  lemma SideKnown(t: Table, n: NicId, isClient: bool)
    requires Shaped(t) && n in Side(t, isClient)
    ensures n in t.nics
  {
  }
}
