/**
 The cached speeds of busy pairs over whole runs: which calls keep them right, and exactly when
 the others do.
 */
module McSpeeds {
  import opened Options
  import opened McTypes
  import opened McConList
  import opened McReport
  import opened McStats
  import opened McTrial
  import opened McExcess
  import opened McNotifier
  import opened McNics
  import opened McRuns

  // ----- Loading descriptions -----

  /** The description, seen by the client's parser, is one of the NIC with the given index. */
  predicate Tells(t: Table, info: NicInfo, index: nat) {
    && info.index == BaseIndex(index)
    && index / UINT32 < Copies(info, t.clntRss, (info.index as nat) in t.ignoreList)
  }

  /** The last of the first `k` descriptions that is one of the NIC with the given index. */
  function Told(t: Table, infos: seq<NicInfo>, forceRss: bool, index: nat, k: nat): (r: Option<NicInfo>)
    requires k <= |infos|
    ensures r.Some? ==> r.value.index == BaseIndex(index)
  {
    if k == 0 then None
    else if Tells(t, Forced(infos[k - 1], forceRss), index) then Some(Forced(infos[k - 1], forceRss))
    else Told(t, infos, forceRss, index, k - 1)
  }

  /** What is left of a NIC once it was told of. */
  predicate LoadedAs(nic: Nic, nic': Nic, told: Option<NicInfo>, ignored: bool) {
    && nic'.index == nic.index
    && nic'.speed == (if told.Some? then told.value.speed else nic.speed)
    && nic'.ignored == (nic.ignored || (told.Some? && ignored))
  }

  lemma AddInfoLoads(t: Table, info: NicInfo, rss: nat, ignored: bool, n: NicId)
    requires WF(t) && Shaped(t) && n in t.nics
    ensures var u := AddInfo(t, info, rss, ignored, true);
      && u.clntRss == t.clntRss && u.ignoreList == t.ignoreList
      && (n in t.clients <==> n in u.clients) && n in u.nics
      && (n !in t.clients ==> u.nics[n] == t.nics[n])
      && (n in t.clients ==>
        LoadedAs(t.nics[n], u.nics[n], if CopyIndex(info, rss) == t.nics[n].index then Some(info) else None, ignored))
  {
    hide InsertAt, Inserted, ConsOk, SlicesOk, UniquePairs, FindNic;
    if n in t.clients {
      FindNicUnique(t.nics, t.clients, n);
      FindNicFinds(t, CopyIndex(info, rss));
    }
  }

  lemma FindNicFinds(t: Table, index: nat)
    requires Shaped(t)
    ensures var r := FindNic(t.nics, t.clients, index, 0);
      r.Some? ==> r.value in t.clients && t.nics[r.value].index == index
  {
  }

  lemma CopyIs(info: NicInfo, rss: nat, index: nat)
    ensures CopyIndex(info, rss) == index <==> info.index == BaseIndex(index) && rss == index / UINT32
  {
  }

  /** The table carries the same client NICs, `n` among them as it was told of. */
  ghost predicate Loads(t: Table, u: Table, n: NicId, told: Option<NicInfo>, ignored: bool) {
    && u.clntRss == t.clntRss && u.ignoreList == t.ignoreList
    && n in t.nics && n in u.nics && (n in t.clients <==> n in u.clients)
    && (n !in t.clients ==> u.nics[n] == t.nics[n])
    && (n in t.clients ==> LoadedAs(t.nics[n], u.nics[n], told, ignored))
  }

  lemma {:induction false} AddCopiesLoads(t: Table, info: NicInfo, ignored: bool, k: nat, n: NicId)
    requires WF(t) && Shaped(t) && n in t.nics
    ensures var index := t.nics[n].index;
      var u := AddCopies(t, info, ignored, true, k);
      WF(u) && Loads(t, u, n, if info.index == BaseIndex(index) && index / UINT32 < k then Some(info)
        else None, ignored)
  {
    hide WF, AddInfo, CopyIndex, BaseIndex;
    AddCopiesExtends(t, info, ignored, true, k);
    if k > 0 {
      AddCopiesLoads(t, info, ignored, k - 1, n);
      AddInfoLoads(AddCopies(t, info, ignored, true, k - 1), info, k - 1, ignored, n);
      CopyIs(info, k - 1, t.nics[n].index);
    }
  }

  lemma {:induction false} AddClientsLoads(t: Table, infos: seq<NicInfo>, forceRss: bool, k: nat, n: NicId)
    requires WF(t) && Shaped(t) && n in t.nics && k <= |infos|
    ensures var index := t.nics[n].index;
      var u := AddClients(t, infos, forceRss, k);
      WF(u) && Loads(t, u, n, Told(t, infos, forceRss, index, k), BaseIndex(index) in t.ignoreList)
  {
    hide WF, AddCopies, BaseIndex, Copies, Forced;
    AddClientsExtends(t, infos, forceRss, k);
    if k > 0 {
      AddClientsLoads(t, infos, forceRss, k - 1, n);
      var p := AddClients(t, infos, forceRss, k - 1);
      var info := Forced(infos[k - 1], forceRss);
      var ignored := (info.index as nat) in t.ignoreList;
      AddCopiesLoads(p, info, ignored, Copies(info, t.clntRss, ignored), n);
    }
  }

  /** No description changes the speed a busy pair can reach, unless its client NIC is ignore-listed. */
  ghost predicate LoadsFresh(t: Table, infos: seq<NicInfo>, forceRss: bool)
    requires Shaped(t)
  {
    forall id :: id in t.cons && Busy(t.cons[id].state) ==> LoadKeepsSpeed(t, infos, forceRss, t.cons[id])
  }

  ghost predicate LoadKeepsSpeed(t: Table, infos: seq<NicInfo>, forceRss: bool, c: Con)
    requires EndsKnown(t.nics, c)
  {
    var nic := t.nics[c.client];
    var told := Told(t, infos, forceRss, nic.index, |infos|);
    told.Some? && !nic.ignored && BaseIndex(nic.index) !in t.ignoreList ==>
      Min(told.value.speed, t.nics[c.server].speed) == LinkSpeed(t.nics, c)
  }

  lemma LoadSpeed(t: Table, infos: seq<NicInfo>, forceRss: bool, id: ConId)
    requires WF(t) && Shaped(t) && SpeedsFresh(t) && id in t.cons && Busy(t.cons[id].state)
    ensures var u := AddClients(t, infos, forceRss, |infos|);
      && u.cons == t.cons && Shaped(u)
      && (LoadKeepsSpeed(t, infos, forceRss, t.cons[id]) <==>
            u.nics[t.cons[id].client].ignored || t.cons[id].speed == LinkSpeed(u.nics, t.cons[id]))
  {
    hide WF, AddClients, BaseIndex, Told;
    var c := t.cons[id];
    AddClientsExtends(t, infos, forceRss, |infos|);
    EndsListed(t);
    SidesApart(t);
    AddClientsLoads(t, infos, forceRss, |infos|, c.client);
    AddClientsLoads(t, infos, forceRss, |infos|, c.server);
  }

  lemma SidesApart(t: Table)
    requires WF(t)
    ensures forall n :: n in t.servers ==> n !in t.clients
  {
  }

  /** Loading descriptions keeps the cached speeds right exactly when it changes none that matters. */
  lemma LoadSpeeds(t: Table, infos: seq<NicInfo>, forceRss: bool)
    requires WF(t) && Shaped(t) && SpeedsFresh(t)
    ensures SpeedsFresh(AddClients(t, infos, forceRss, |infos|)) <==> LoadsFresh(t, infos, forceRss)
  {
    hide WF, AddClients, LoadKeepsSpeed;
    AddClientsExtends(t, infos, forceRss, |infos|);
    forall id | id in t.cons && Busy(t.cons[id].state)
      ensures LoadKeepsSpeed(t, infos, forceRss, t.cons[id]) <==>
        var u := AddClients(t, infos, forceRss, |infos|);
        u.nics[t.cons[id].client].ignored || t.cons[id].speed == LinkSpeed(u.nics, t.cons[id])
    {
      LoadSpeed(t, infos, forceRss, id);
    }
  }

  // ----- Collecting excess -----

  /** Every pair that is put in removal was busy before, or has a client NIC that is
      ignore-listed, or has the speed of its slower NIC once the statistics are gathered. */
  ghost predicate RemovesFresh(t: Table, slots: nat)
    requires Held(t) && slots >= 1
  {
    forall id :: id in t.cons && id in Excess(t, slots).removed ==>
      || Busy(t.cons[id].state)
      || t.nics[t.cons[id].client].ignored
      || Ranked(t).cons[id].speed == LinkSpeed(t.nics, t.cons[id])
  }

  lemma ExcessSpeeds(t: Table, slots: nat)
    requires WF(t) && Held(t) && slots >= 1 && SpeedsFresh(t)
    ensures Shaped(Excess(t, slots).t) && (SpeedsFresh(Excess(t, slots).t) <==> RemovesFresh(t, slots))
  {
    hide WF, CountStats, Sorted, NoIdleInUse, NoStarvation, Agree, SweptTo;
    ExcessKeeps(t, slots);
    RankedKeeps(t);
    SortedHeld(t);
    var n, r := CountStats(Sorted(t)), Ranked(t);
    SweptFrame(r, n.stats.active, n.stats.inactive, slots, |t.success|);
    RankedEnds(t);
  }

  lemma RankedEnds(t: Table)
    requires WF(t) && Held(t)
    ensures forall id :: id in t.cons ==>
      SamePair(Ranked(t).cons[id], t.cons[id]) && (Busy(t.cons[id].state) ==> Busy(Ranked(t).cons[id].state))
  {
    hide WF, CountStats, Sorted;
    SortedHeld(t);
    CountStatsBenign(Sorted(t));
  }

  // ----- Runs -----

  /** Only two calls can leave a busy pair with an outdated speed. */
  ghost predicate SpeedSafe(t: Table, s: Step)
    requires Shaped(t)
  {
    match s
    case LoadClients(infos, forceRss) => LoadsFresh(t, infos, forceRss)
    case CollectExcess(slots) => slots >= 1 && Held(t) ==> RemovesFresh(t, slots)
    case _ => true
  }

  lemma StepSpeeds(t: Table, s: Step)
    requires WF(t) && Shaped(t) && SpeedsFresh(t)
    ensures Shaped(Next(t, s)) && (SpeedsFresh(Next(t, s)) <==> SpeedSafe(t, s))
  {
    hide WF, AddClients, Report, Disconnect, Excess, Marked, NoIdleInUse, NoStarvation, Agree, SpeedsFresh, Update, Ask,
      ResetTo, NotifiedNics, AnsweredNics, LoadsFresh, RemovesFresh, Held;
    StepKeeps(t, s);
    if Plain(s) {
      PlainPreserves(t, s);
    } else if Enabled(t, s) {
      match s {
        case LoadClients(infos, forceRss) => LoadSpeeds(t, infos, forceRss);
        case MainUp(clientIp, serverIp, iod) =>
          var cn, sn := FindByIp(t.nics, t.clients, clientIp, 0), FindByIp(t.nics, t.servers, serverIp, 0);
          if cn.Some? && sn.Some? { MarkedSpeeds(t, cn.value, sn.value, Some(iod)); }
        case ReportTrial(id, passed) => ReportSpeeds(t, id, passed);
        case Disconnected(id) => DisconnectKeeps(t, id);
        case CollectExcess(slots) => ExcessSpeeds(t, slots);
      }
    }
  }

  /**
   In exactly the runs whose steps are speed-safe, every busy pair whose client NIC is not
   ignore-listed has the speed of its slower NIC in every state.
   */
  lemma {:induction false} RunSpeedsFresh(states: seq<Table>, steps: seq<Step>, n: nat)
    requires IsRun(states, steps) && n <= |steps|
    ensures forall i :: 0 <= i <= n ==> Shaped(states[i])
    ensures (forall i :: 0 <= i <= n ==> SpeedsFresh(states[i])) <==>
      (forall i :: 0 <= i < n ==> SpeedSafe(states[i], steps[i]))
  {
    hide WF, Next, Init, Shaped, NoIdleInUse, NoStarvation, Agree, SpeedsFresh, SpeedSafe;
    RunWellFormed(states, steps, n);
    if n == 0 {
      var m, sr, cr, ig, w :| states[0] == Init(m, sr, cr, ig, w);
      InitWF(m, sr, cr, ig, w);
    } else {
      RunWellFormed(states, steps, n - 1);
      RunSpeedsFresh(states, steps, n - 1);
      assert states[n] == Next(states[n - 1], steps[n - 1]);
      if SpeedsFresh(states[n - 1]) {
        StepSpeeds(states[n - 1], steps[n - 1]);
      }
    }
  }

  /** With the right success list, collecting excess puts only connections in removal, and their speeds are right. */
  lemma AgreeRemoves(t: Table, slots: nat)
    requires WF(t) && Held(t) && Agree(t) && slots >= 1
    ensures RemovesFresh(t, slots)
  {
    hide WF, Held, Agree, Excess, Ranked;
    ExcessReturns(t, slots);
  }

  /** In the runs that keep the success list right, the speeds are right in every state exactly if no load of client
      interfaces changes one that matters. */
  lemma {:induction false} AgreeingSpeeds(states: seq<Table>, steps: seq<Step>, n: nat)
    requires IsRun(states, steps) && n <= |steps|
    requires (forall i :: 0 <= i < n ==> Shaped(states[i])) && forall i :: 0 <= i < n ==> ListSafe(states[i], steps[i])
    ensures forall i :: 0 <= i <= n ==> Shaped(states[i])
    ensures (forall i :: 0 <= i <= n ==> SpeedsFresh(states[i])) <==>
      forall i :: 0 <= i < n && steps[i].LoadClients? ==> LoadsFresh(states[i], steps[i].infos, steps[i].forceRss)
  {
    hide WF, Next, Init, Shaped, Agree, SpeedsFresh, LoadsFresh, RemovesFresh, ListSafe, Held;
    RunSpeedsFresh(states, steps, n);
    RunAgrees(states, steps, n);
    forall i | 0 <= i < n
      ensures SpeedSafe(states[i], steps[i]) <==>
        (steps[i].LoadClients? ==> LoadsFresh(states[i], steps[i].infos, steps[i].forceRss))
    {
      RunWellFormed(states, steps, i);
      if steps[i].CollectExcess? && steps[i].slots >= 1 && Held(states[i]) { AgreeRemoves(states[i], steps[i].slots); }
    }
  }
}
