/**
 The entries of the success list that are in the table. Dropping a NIC frees its pairs and leaves
 the success list alone, so a pair on the list can be one that was freed.
 */
module McHeld {
  import opened Options
  import opened McTypes
  import opened McConList
  import opened McReport
  import opened McStats
  import opened McTrial
  import opened McExcess
  import opened McNotifier
  import opened McNics
  import opened McRuns
  import opened McTrialCount
  import opened McUpdates

  // ----- What an update does to the pairs -----

  /** Every pair is still there, between the same NICs, and the success list is as it was. */
  ghost predicate PairsKept(t: Table, t': Table) {
    t'.success == t.success && forall id :: id in t.cons ==> id in t'.cons && SamePair(t'.cons[id], t.cons[id])
  }

  lemma PairsKeptTransitive(a: Table, b: Table, c: Table)
    requires PairsKept(a, b) && PairsKept(b, c)
    ensures PairsKept(a, c)
  {
  }

  lemma GrownKept(t: Table, t': Table)
    requires Grown(t, t')
    ensures PairsKept(t, t')
  {
  }

  lemma UpdateOneKept(t: Table, update: Nic, isClient: bool)
    requires Shaped(t)
    ensures PairsKept(t, UpdateOne(t, update, isClient))
  {
    hide FindNic, InsertNic, ResetCons, UpdateNic, Changed;
    InsertKept(t, update, isClient);
    match FindNic(t.nics, Side(t, isClient), update.index, 0)
    case None =>
    case Some(n) =>
      ResetKept(t, n, isClient);
      ResetKept(t.(nics := t.nics[n := UpdateNic(t.nics[n], update)]), n, isClient);
      PairsKeptSelf(t);
  }

  lemma InsertKept(t: Table, nic: Nic, isClient: bool)
    requires Shaped(t)
    ensures PairsKept(t, InsertNic(t, nic, isClient))
  {
    hide InsertAt, Inserted;
  }

  lemma ResetKept(t: Table, n: NicId, isClient: bool)
    requires Shaped(t) && n in t.nics
    ensures PairsKept(t, ResetCons(t, n, isClient))
  {
    hide LinkSpeed, EndOf, Shaped;
  }

  lemma {:induction false} UpdateToKept(t: Table, updates: seq<Nic>, isClient: bool, k: nat)
    requires Shaped(t) && k <= |updates|
    ensures PairsKept(t, UpdateTo(t, updates, isClient, k))
  {
    hide UpdateOne, Shaped, PairsKept, Steady;
    if k == 0 {
      PairsKeptSelf(t);
    } else {
      var p := UpdateTo(t, updates, isClient, k - 1);
      UpdateToKept(t, updates, isClient, k - 1);
      UpdateOneKept(p, updates[k - 1], isClient);
      PairsKeptTransitive(t, p, UpdateTo(t, updates, isClient, k));
    }
  }

  lemma PairsKeptSelf(t: Table)
    ensures PairsKept(t, t)
  {
  }

  lemma AppliedKept(t: Table, updates: seq<Nic>, isClient: bool)
    requires WF(t) && Shaped(t) && forall u :: u in updates ==> !u.ignored
    ensures PairsKept(t, Applied(t, updates, isClient))
  {
    hide WF, Shaped, UpdateTo, Completed, PairsKept, Preserves, BusyKept, Grown;
    var t1 := UpdateTo(t, updates, isClient, |updates|);
    UpdateToKept(t, updates, isClient, |updates|);
    UpdateToKeeps(t, updates, isClient, |updates|);
    PreservesWF(t, t1);
    CompletedSound(t1);
    GrownKept(t1, Completed(t1));
    PairsKeptTransitive(t, t1, Completed(t1));
  }

  /** Dropping a NIC removes its pairs and no other. */
  lemma DropPairs(t: Table, n: NicId, isClient: bool, id: ConId)
    requires id in t.cons
    ensures var r := DropNic(t, n, isClient);
      && r.success == t.success
      && (id in r.cons <==> EndOf(t.cons[id], isClient) != n) && (id in r.cons ==> r.cons[id] == t.cons[id])
  {
    hide Keep;
  }

  lemma {:induction false} DropToPairs(t: Table, isClient: bool, k: nat, id: ConId)
    requires WF(t) && Shaped(t) && k <= |Side(t, isClient)| && id in t.cons
    ensures var r := DropTo(t, Side(t, isClient), isClient, k);
      && r.success == t.success
      && (id in r.cons <==> EndOf(t.cons[id], isClient) in Side(r, isClient)) &&
        (id in r.cons ==> r.cons[id] == t.cons[id])
  {
    hide WF, Preserves, BusyKept, Useless, Shaped, DropNic, EndOf;
    if k == 0 {
      EndsListed(t);
      EndListed(t, id, isClient);
    } else {
      var list := Side(t, isClient);
      var p, m := DropTo(t, list, isClient, k - 1), list[k - 1];
      DropToKeeps(t, isClient, k - 1);
      PreservesWF(t, p);
      DropToPairs(t, isClient, k - 1, id);
      DropMatters(p, m, EndOf(t.cons[id], isClient), isClient);
      if id in p.cons { DropPairs(p, m, isClient, id); }
      DropList(p, m, isClient, id);
    }
  }

  lemma {:induction false} DropToList(t: Table, list: seq<NicId>, isClient: bool, k: nat)
    requires k <= |list|
    ensures DropTo(t, list, isClient, k).success == t.success
  {
    hide DropNic, Useless;
    if k > 0 {
      DropToList(t, list, isClient, k - 1);
      DropList(DropTo(t, list, isClient, k - 1), list[k - 1], isClient, 0);
    }
  }

  lemma EndListed(t: Table, id: ConId, isClient: bool)
    requires id in t.cons && t.cons[id].client in t.clients && t.cons[id].server in t.servers
    ensures EndOf(t.cons[id], isClient) in Side(t, isClient)
  {
  }

  lemma DropList(t: Table, n: NicId, isClient: bool, id: ConId)
    ensures DropNic(t, n, isClient).success == t.success
    ensures id !in t.cons ==> id !in DropNic(t, n, isClient).cons
  {
    hide Keep;
  }

  /** A pair outlives an update exactly if its NIC on the updated side is not useless once the update is applied. */
  lemma UpdatePairs(t: Table, updates: seq<Nic>, isClient: bool, id: ConId)
    requires WF(t) && Shaped(t) && (forall u :: u in updates ==> !u.ignored) && id in t.cons
    ensures var a := Applied(t, updates, isClient);
      && EndOf(t.cons[id], isClient) in a.nics && Update(t, updates, isClient).success == t.success
      && (id in Update(t, updates, isClient).cons <==> !Useless(a, EndOf(t.cons[id], isClient), isClient))
  {
    hide WF, Shaped, Applied, Update, DropTo, Useless, EndOf;
    AppliedWF(t, updates, isClient);
    AppliedKept(t, updates, isClient);
    var a := Applied(t, updates, isClient);
    SamePairEnd(t.cons[id], a.cons[id], isClient);
    EndsListed(a);
    EndListed(a, id, isClient);
    SidesKnown(a);
    UpdateDrops(t, updates, isClient, EndOf(t.cons[id], isClient));
    DropToPairs(a, isClient, |Side(a, isClient)|, id);
  }

  lemma SamePairEnd(c: Con, c': Con, isClient: bool)
    requires SamePair(c', c)
    ensures EndOf(c', isClient) == EndOf(c, isClient)
  {
  }

  // ----- Steps -----

  /** The update does not drop a NIC of a pair that is on the success list. */
  ghost predicate SparesListed(t: Table, updates: seq<Nic>, isClient: bool)
    requires WF(t) && Shaped(t) && forall u :: u in updates ==> !u.ignored
  {
    hide WF;
    forall id :: id in t.success && id in t.cons ==> NicStays(t, updates, isClient, id)
  }

  ghost predicate NicStays(t: Table, updates: seq<Nic>, isClient: bool, id: ConId)
    requires WF(t) && Shaped(t) && (forall u :: u in updates ==> !u.ignored) && id in t.cons
  {
    hide WF;
    UpdatePairs(t, updates, isClient, id);
    !Useless(Applied(t, updates, isClient), EndOf(t.cons[id], isClient), isClient)
  }

  lemma UpdateList(t: Table, updates: seq<Nic>, isClient: bool)
    requires WF(t) && Shaped(t) && forall u :: u in updates ==> !u.ignored
    ensures Update(t, updates, isClient).success == t.success
  {
    hide WF, Shaped, Applied, Update, DropTo;
    AppliedWF(t, updates, isClient);
    AppliedKept(t, updates, isClient);
    var a := Applied(t, updates, isClient);
    DropToList(a, Side(a, isClient), isClient, |Side(a, isClient)|);
  }

  lemma UpdateHeld(t: Table, updates: seq<Nic>, isClient: bool)
    requires WF(t) && Held(t) && forall u :: u in updates ==> !u.ignored
    ensures Held(Update(t, updates, isClient)) <==> SparesListed(t, updates, isClient)
  {
    hide WF, Shaped, Applied, Update, Useless, Preserves, BusyKept, EndOf;
    UpdateKeeps(t, updates, isClient);
    PreservesWF(t, Update(t, updates, isClient));
    UpdateList(t, updates, isClient);
    forall id | id in t.cons
      ensures NicStays(t, updates, isClient, id) <==> id in Update(t, updates, isClient).cons
    {
      UpdatePairs(t, updates, isClient, id);
    }
  }

  // ----- The other calls -----

  lemma MarkedHeld(t: Table, cn: NicId, sn: NicId, iod: Option<Iod>)
    requires Held(t) && cn in t.nics && sn in t.nics
    ensures Held(Marked(t, cn, sn, iod))
  {
    hide Marked, Shaped;
    MarkedCarries(t, cn, sn, iod);
  }

  lemma MendedHeld(t: Table)
    requires WF(t) && Held(t)
    ensures Held(Completed(RepairTable(t)))
  {
    hide WF, Shaped, Completed, Grown;
    RepairTableSound(t);
    CompletedSound(RepairTable(t));
    GrownKept(RepairTable(t), Completed(RepairTable(t)));
  }

  lemma ReportHeld(t: Table, id: ConId, passed: bool)
    requires WF(t) && Held(t) && id in t.cons
    ensures Held(Report(t, id, passed))
  {
    hide WF, Shaped, Marked, FailTrial, RepairTable, Completed;
    var t0 := t.(trials := Decrement(t.trials));
    StateKeys(t);
    RestateWF(t, t.nicState, t.pause, t0.trials, t.success);
    ReportFinds(t, id);
    TrialsHeld(t, t0.trials);
    var c := t.cons[id];
    if passed {
      ConEnds(t, id);
      MarkedWF(t0, c.client, c.server, None);
      MarkedHeld(t0, c.client, c.server, None);
      MendedHeld(Marked(t0, c.client, c.server, None));
    } else {
      FailTrialWF(t0, id);
      FailHeld(t0, id);
      MendedHeld(FailTrial(t0, id));
    }
  }

  lemma StateKeys(t: Table)
    requires Shaped(t)
    ensures t.nicState.Keys == t.nics.Keys
  {
  }

  lemma TrialsHeld(t: Table, trials: nat)
    requires Held(t)
    ensures Held(t.(trials := trials))
  {
  }

  lemma ConEnds(t: Table, id: ConId)
    requires Shaped(t) && id in t.cons
    ensures EndsKnown(t.nics, t.cons[id])
  {
  }

  lemma FailHeld(t: Table, id: ConId)
    requires Held(t) && id in t.cons
    ensures Held(FailTrial(t, id))
  {
    hide Shaped, Sibling;
  }

  lemma DisconnectHeld(t: Table, id: ConId)
    requires WF(t) && Held(t) && id in t.cons
    ensures Held(Disconnect(t, id))
  {
    hide WF, Shaped, Dropped, RepairTable, Completed;
    DroppedWF(t, id);
    DroppedHeld(t, id);
    MendedHeld(Dropped(t, id));
  }

  lemma DroppedHeld(t: Table, id: ConId)
    requires Held(t) && id in t.cons
    ensures Held(Dropped(t, id))
  {
    hide Shaped, Without;
    WithoutSub(t.success, id);
    DroppedCons(t, id);
  }

  lemma {:induction false} WithoutSub<T>(s: seq<T>, x: T)
    ensures forall y :: y in Without(s, x) ==> y in s
  {
    if s != [] {
      WithoutSub(s[1..], x);
      assert s == [s[0]] + s[1..];
    }
  }

  lemma AskHeld(t: Table, slots: nat)
    requires WF(t) && Held(t) && t.trials < UINT32
    ensures Held(Ask(t, slots).t)
  {
    hide WF, Shaped, AskLoop, TrialsAre;
    AskEffect(t, slots, false);
  }

  lemma ExcessHeld(t: Table, slots: nat)
    requires WF(t) && Held(t) && slots >= 1
    ensures Held(Excess(t, slots).t)
  {
    hide WF, Shaped, Excess, NoIdleInUse, NoStarvation;
    ExcessKeeps(t, slots);
    ExcessFrame(t, slots);
    ExcessCons(t, slots);
  }

  lemma ExcessCons(t: Table, slots: nat)
    requires Held(t) && slots >= 1
    ensures Excess(t, slots).t.cons.Keys == t.cons.Keys
  {
    hide Sorted, CountStats, SweptTo, Shaped, Bar, SurveyTo, Benign;
    SortedHeld(t);
    CountStatsBenign(Sorted(t));
  }

  lemma ResetHeld(t: Table)
    requires Held(t)
    ensures Held(ResetTo(t, |t.clients|))
  {
    hide ResetTo, Shaped, Steady;
    ResetToKept(t, |t.clients|);
  }

  lemma {:induction false} ResetToKept(t: Table, k: nat)
    requires Shaped(t) && k <= |t.clients|
    ensures PairsKept(t, ResetTo(t, k))
  {
    hide ResetCons, PairsKept, Steady;
    if k == 0 {
      PairsKeptSelf(t);
    } else {
      ResetToKept(t, k - 1);
      ResetKept(ResetTo(t, k - 1), t.clients[k - 1], true);
      PairsKeptTransitive(t, ResetTo(t, k - 1), ResetTo(t, k));
    }
  }

  // ----- Runs -----

  /** Only an update can leave the success list with an entry that is not in the table. */
  ghost predicate KeepsListed(t: Table, s: Step)
    requires WF(t) && Shaped(t)
  {
    hide WF, Shaped;
    match s
    case Notify(_, _, _, _, _) => NotifiedNotIgnored(s); SparesListed(t, NotifiedNics(s), true)
    case QueryAnswer(_) => AnsweredNotIgnored(t, s); SparesListed(t, AnsweredNics(t, s), false)
    case _ => true
  }

  lemma StepHeld(t: Table, s: Step)
    requires WF(t) && Held(t) && t.trials < UINT32
    ensures Held(Next(t, s)) <==> KeepsListed(t, s)
  {
    hide WF, Shaped, AddClients, Report, Disconnect, Excess, Marked, Update, Ask, ResetTo, NotifiedNics, AnsweredNics,
      SparesListed;
    match s {
      case Notify(_, _, _, _, _) => NotifiedNotIgnored(s); UpdateHeld(t, NotifiedNics(s), true);
      case QueryAnswer(_) => AnsweredNotIgnored(t, s); UpdateHeld(t, AnsweredNics(t, s), false);
      case LoadClients(infos, forceRss) => AddClientsExtends(t, infos, forceRss, |infos|);
      case MainUp(clientIp, serverIp, iod) => MainHeld(t, clientIp, serverIp, iod);
      case AskTrials(slots) => AskHeld(t, slots);
      case ReportTrial(id, passed) => if id in t.cons { ReportHeld(t, id, passed); }
      case Disconnected(id) => if id in t.cons { DisconnectHeld(t, id); }
      case CollectExcess(slots) => if slots >= 1 { ExcessHeld(t, slots); }
      case ResetNics => ResetHeld(t);
      case ActivityChange(id, active) =>
        if id in t.cons { NoteHeld(t, id, t.cons[id].(active := if active then Active else Inactive)); }
      case AttachIod(id, owner) => if id in t.cons { NoteHeld(t, id, t.cons[id].(iod := owner)); }
      case PauseTrials => PauseHeld(t, (t.pause + 1) % UINT32);
      case ResumeTrials => if t.pause > 0 { PauseHeld(t, t.pause - 1); }
    }
  }

  lemma MainHeld(t: Table, clientIp: Addr, serverIp: Addr, iod: Iod)
    requires Held(t)
    ensures Held(MainChannel(t, clientIp, serverIp, iod))
  {
    hide Marked;
    var cn, sn := FindByIp(t.nics, t.clients, clientIp, 0), FindByIp(t.nics, t.servers, serverIp, 0);
    if cn.Some? && sn.Some? { MarkedHeld(t, cn.value, sn.value, Some(iod)); }
  }

  lemma NoteHeld(t: Table, id: ConId, c: Con)
    requires Held(t) && id in t.cons && SamePair(c, t.cons[id])
    ensures Held(t.(cons := t.cons[id := c]))
  {
  }

  lemma PauseHeld(t: Table, pause: nat)
    requires Held(t)
    ensures Held(t.(pause := pause))
  {
  }

  /**
   In exactly the runs whose updates drop no NIC of a pair on the success list, every entry of the
   success list is in the table in every state.
   */
  lemma {:induction false} RunHeld(states: seq<Table>, steps: seq<Step>, n: nat)
    requires IsRun(states, steps) && n <= |steps|
    ensures forall i :: 0 <= i <= n ==> WF(states[i]) && Shaped(states[i])
    ensures (forall i :: 0 <= i <= n ==> Held(states[i])) <==>
      (forall i :: 0 <= i < n ==> KeepsListed(states[i], steps[i]))
  {
    hide WF, Next, Init, Held, KeepsListed, Shaped;
    RunWellFormed(states, steps, n);
    if n == 0 {
      StartHeld(states, steps);
    } else {
      RunWellFormed(states, steps, n - 1);
      RunHeld(states, steps, n - 1);
      RunCounter(states, steps, n - 1);
      RunSteps(states, steps, n - 1);
      if Held(states[n - 1]) { StepHeld(states[n - 1], steps[n - 1]); }
    }
  }

  lemma StartHeld(states: seq<Table>, steps: seq<Step>)
    requires IsRun(states, steps)
    ensures Held(states[0])
  {
  }

  /** In the runs that keep the success list right they are so too, and collecting excess is never cut off. */
  lemma AgreeingHeld(states: seq<Table>, steps: seq<Step>, n: nat)
    requires IsRun(states, steps) && n <= |steps|
    requires (forall i :: 0 <= i < n ==> Shaped(states[i])) && forall i :: 0 <= i < n ==> ListSafe(states[i], steps[i])
    ensures forall i :: 0 <= i <= n ==> Held(states[i])
  {
    hide WF, Next, Init, Agree, ListSafe, Held;
    RunAgrees(states, steps, n);
    forall i | 0 <= i <= n
      ensures Held(states[i])
    {
      AgreeHeld(states[i]);
    }
  }
}
