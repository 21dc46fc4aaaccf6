/**
 Tables without RSS copies: with one channel per NIC on both sides, a pair is its own
 only sibling, so a failed trial cannot touch another connection.
 */
module McRss {
  import opened Integers
  import opened McTypes
  import opened McConList
  import opened McReport
  import opened McTrial
  import opened McExcess
  import opened McNotifier
  import opened McNics
  import opened McRuns

  /** No NIC is an RSS copy. */
  ghost predicate NoCopies(t: Table) {
    forall n :: n in t.nics ==> t.nics[n].index < UINT32
  }

  /** Without RSS copies, a trial failure is safe exactly when the failed pair is not itself on the success list. */
  lemma FailureSafe(t: Table, id: ConId)
    requires WF(t) && Shaped(t) && id in t.cons && NoCopies(t)
    ensures ReportSafe(t, id, false) <==> !Carried(t.cons[id].state)
  {
    assert Sibling(t.nics, t.cons[id], t.cons[id]);
    forall k | k in t.cons && Sibling(t.nics, t.cons[k], t.cons[id])
      ensures k == id
    {
      SiblingIsSelf(t, k, id);
    }
  }

  lemma SiblingIsSelf(t: Table, k: ConId, id: ConId)
    requires WF(t) && Shaped(t) && id in t.cons && k in t.cons && NoCopies(t) && Sibling(t.nics, t.cons[k], t.cons[id])
    ensures k == id
  {
    hide SlicesOk, Slice, NoDup;
    var c, d := t.cons[k], t.cons[id];
    assert SameIndex(t.nics[c.client], t.nics[d.client]);
    assert SameIndex(t.nics[c.server], t.nics[d.server]);
    assert SamePair(c, d);
  }

  // ----- No step creates a copy -----

  lemma AddInfoNoCopies(t: Table, info: NicInfo, ignored: bool, isClient: bool)
    requires Shaped(t) && NoCopies(t)
    ensures NoCopies(AddInfo(t, info, 0, ignored, isClient))
  {
    hide AddInfo, Shaped;
    var n := AddInfoNics(t, info, 0, ignored, isClient);
  }

  /** A description changes one NIC, the one with its index. */
  lemma AddInfoNics(t: Table, info: NicInfo, rss: nat, ignored: bool, isClient: bool) returns (n: NicId)
    requires Shaped(t)
    ensures var r := AddInfo(t, info, rss, ignored, isClient);
      n in r.nics && r.nics[n].index == CopyIndex(info, rss) && r.nics == t.nics[n := r.nics[n]]
  {
    hide Described, InsertAt, Inserted, CopyIndex, Steady;
    var index := CopyIndex(info, rss);
    var found := FindNic(t.nics, Side(t, isClient), index, 0);
    n := if found.Some? then found.value else t.next;
    DescribedIndex(if found.Some? then t.nics[n] else BlankNic(index), info, ignored);
  }

  lemma DescribedIndex(nic: Nic, info: NicInfo, ignored: bool)
    ensures Described(nic, info, ignored).index == nic.index
  {
  }

  lemma {:induction false} AddClientsNoCopies(t: Table, infos: seq<NicInfo>, forceRss: bool, k: nat)
    requires Shaped(t) && NoCopies(t) && t.clntRss == 1 && k <= |infos|
    ensures NoCopies(AddClients(t, infos, forceRss, k))
  {
    hide AddInfo, NoCopies;
    if k > 0 {
      AddClientsNoCopies(t, infos, forceRss, k - 1);
      var p := AddClients(t, infos, forceRss, k - 1);
      var info := Forced(infos[k - 1], forceRss);
      assert AddCopies(p, info, (info.index as nat) in t.ignoreList, true, 0) == p;
      AddInfoNoCopies(p, info, (info.index as nat) in t.ignoreList, true);
    }
  }

  lemma {:induction false} AddServersNoCopies(t: Table, infos: seq<NicInfo>, k: nat)
    requires Shaped(t) && NoCopies(t) && k <= |infos|
    ensures NoCopies(AddServers(t, infos, 1, k))
  {
    hide AddInfo, NoCopies;
    if k > 0 {
      AddServersNoCopies(t, infos, k - 1);
      var p := AddServers(t, infos, 1, k - 1);
      assert AddCopies(p, infos[k - 1], false, false, 0) == p;
      AddInfoNoCopies(p, infos[k - 1], false, false);
    }
  }

  lemma {:induction false} UpdateToNoCopies(t: Table, updates: seq<Nic>, isClient: bool, k: nat)
    requires Shaped(t) && NoCopies(t) && k <= |updates| && forall u :: u in updates ==> u.index < UINT32
    ensures NoCopies(UpdateTo(t, updates, isClient, k))
  {
    hide UpdateOne, NoCopies, Shaped, Steady;
    if k > 0 {
      UpdateToNoCopies(t, updates, isClient, k - 1);
      UpdateOneNoCopies(UpdateTo(t, updates, isClient, k - 1), updates[k - 1], isClient);
    }
  }

  lemma UpdateOneNoCopies(t: Table, u: Nic, isClient: bool)
    requires Shaped(t) && NoCopies(t) && u.index < UINT32
    ensures NoCopies(UpdateOne(t, u, isClient))
  {
    hide InsertAt, Inserted, UpdateAddrs, ResetCon;
  }

  lemma {:induction false} DropToNoCopies(t: Table, list: seq<NicId>, isClient: bool, k: nat)
    requires NoCopies(t) && k <= |list|
    ensures NoCopies(DropTo(t, list, isClient, k))
  {
    hide Keep, Useless;
    if k > 0 {
      DropToNoCopies(t, list, isClient, k - 1);
    }
  }

  lemma UpdateNoCopies(t: Table, updates: seq<Nic>, isClient: bool)
    requires Shaped(t) && NoCopies(t) && forall u :: u in updates ==> u.index < UINT32
    ensures NoCopies(Update(t, updates, isClient))
  {
    hide UpdateTo, DropTo, Completed;
    var t1 := UpdateTo(t, updates, isClient, |updates|);
    UpdateToNoCopies(t, updates, isClient, |updates|);
    var t2 := if |Side(t1, isClient)| > |Side(t, isClient)| then Completed(t1) else t1;
    DropToNoCopies(t2, Side(t2, isClient), isClient, |Side(t2, isClient)|);
  }

  /** The step configures one RSS channel per NIC, where it configures any. */
  predicate OneChannel(s: Step) {
    s.Notify? ==> s.clntRss == 1
  }

  /** The table and its configuration are free of RSS copies. */
  ghost predicate SingleChannel(t: Table) {
    NoCopies(t) && t.clntRss == 1 && t.srvrRss == 1
  }

  lemma NotifiedNoCopies(s: Step)
    requires s.Notify? && OneChannel(s)
    ensures forall u :: u in NotifiedNics(s) ==> u.index < UINT32
  {
    hide AddClients;
    InitWF(s.maxChannels, s.srvrRss, s.clntRss, [], false);
    AddClientsNoCopies(Init(s.maxChannels, s.srvrRss, s.clntRss, [], false), s.infos, s.forceRss, |s.infos|);
  }

  lemma AnsweredNoCopies(t: Table, s: Step)
    requires s.QueryAnswer? && t.srvrRss == 1
    ensures forall u :: u in AnsweredNics(t, s) ==> u.index < UINT32
  {
    hide AddServers;
    InitWF(0, 0, 0, [], false);
    AddServersNoCopies(Init(0, 0, 0, [], false), s.infos, |s.infos|);
  }

  lemma AskSameNics(t: Table, slots: nat)
    requires WF(t) && Shaped(t) && t.trials < UINT32
    ensures Ask(t, slots).t.nics == t.nics && Ask(t, slots).t.clntRss == t.clntRss &&
      Ask(t, slots).t.srvrRss == t.srvrRss
    ensures Ask(t, slots).t.trials < UINT32
  {
    hide WF, Ask, Matching;
    AskHandsOutMatching(t, slots);
  }

  lemma ExcessSameNics(t: Table, slots: nat)
    requires WF(t) && Held(t) && slots >= 1
    ensures Excess(t, slots).t.nics == t.nics && Steady(t, Excess(t, slots).t)
  {
    hide WF, Excess, Held;
    ExcessFrame(t, slots);
  }

  lemma StepSingleChannel(t: Table, s: Step)
    requires WF(t) && Shaped(t) && t.trials < UINT32 && SingleChannel(t) && OneChannel(s)
    ensures SingleChannel(Next(t, s)) && Next(t, s).trials < UINT32
  {
    hide WF, Update, Ask, AddClients, Excess, NotifiedNics, AnsweredNics, NoCopies, Completed, Shaped;
    if Enabled(t, s) {
      match s {
        case LoadClients(infos, forceRss) => AddClientsNoCopies(t, infos, forceRss, |infos|);
        case Notify(_, _, _, _, _) => NotifiedNoCopies(s); UpdateNoCopies(t, NotifiedNics(s), true);
        case QueryAnswer(_) => AnsweredNoCopies(t, s); UpdateNoCopies(t, AnsweredNics(t, s), false);
        case AskTrials(slots) => AskSameNics(t, slots); SameNicsNoCopies(t, Ask(t, slots).t);
        case CollectExcess(slots) => ExcessSameNics(t, slots); SameNicsNoCopies(t, Excess(t, slots).t);
        case _ => SameNicsNoCopies(t, Next(t, s));
      }
    }
  }

  lemma SameNicsNoCopies(t: Table, t': Table)
    requires t'.nics == t.nics && NoCopies(t)
    ensures NoCopies(t')
  {
  }

  lemma InitSingleChannel(m: uint32, ig: seq<uint32>, w: bool)
    ensures SingleChannel(Init(m, 1, 1, ig, w)) && Init(m, 1, 1, ig, w).trials == 0
  {
  }

  /** No step of the run configures RSS copies. */
  ghost predicate SingleRun(states: seq<Table>, steps: seq<Step>) {
    && IsRun(states, steps)
    && (exists m, ig, w :: states[0] == Init(m, 1, 1, ig, w))
    && forall i :: 0 <= i < |steps| ==> OneChannel(steps[i])
  }

  lemma {:induction false} RunSingleChannel(states: seq<Table>, steps: seq<Step>, i: nat)
    requires SingleRun(states, steps) && i < |states|
    ensures SingleChannel(states[i]) && states[i].trials < UINT32
  {
    hide WF, Next, Init, SingleChannel;
    if i == 0 {
      var m, ig, w :| states[0] == Init(m, 1, 1, ig, w);
      InitSingleChannel(m, ig, w);
    } else {
      RunWellFormed(states, steps, i - 1);
      RunSingleChannel(states, steps, i - 1);
      assert states[i] == Next(states[i - 1], steps[i - 1]);
      StepSingleChannel(states[i - 1], steps[i - 1]);
    }
  }

  /** No report or main-channel step is for a pair that is connected or in removal. */
  ghost predicate FreshReport(t: Table, s: Step)
    requires Shaped(t)
  {
    match s
    case ReportTrial(id, _) => id in t.cons ==> !Carried(t.cons[id].state)
    case _ => ListSafe(t, s)
  }

  /**
   Without RSS copies the condition on failures is automatic: if no pair already on the
   success list is reported connected or failed, the list is right in every state.
   */
  lemma RunAgreesWithoutRss(states: seq<Table>, steps: seq<Step>)
    requires SingleRun(states, steps)
    requires forall i :: 0 <= i < |steps| ==> Shaped(states[i]) && FreshReport(states[i], steps[i])
    ensures forall i :: 0 <= i < |states| ==> Agree(states[i])
  {
    hide WF, Next, Init, Agree, ReportSafe, NoCopies;
    RunAgrees(states, steps, |steps|);
    forall i | 0 <= i < |steps|
      ensures ListSafe(states[i], steps[i])
    {
      RunWellFormed(states, steps, i);
      RunSingleChannel(states, steps, i);
      assert FreshReport(states[i], steps[i]);
      if steps[i].ReportTrial? && steps[i].id in states[i].cons {
        FailureSafe(states[i], steps[i].id);
        PassSafe(states[i], steps[i].id);
      }
    }
  }

  lemma PassSafe(t: Table, id: ConId)
    requires Shaped(t) && id in t.cons
    ensures ReportSafe(t, id, true) <==> !Carried(t.cons[id].state)
  {
  }
}
