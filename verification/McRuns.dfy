/**
 Whole runs of the connection table.  Every public call runs under one lock, so a run is
 a sequence of calls; the properties hold in every state of every run, or in exactly the
 runs that respect a stated condition.
 */
module McRuns {
  import opened Integers
  import opened Options
  import opened McTypes
  import opened McConList
  import opened McReport
  import opened McStats
  import opened McTrial
  import opened McExcess
  import opened McNotifier
  import opened McNics

  /** The public calls.  A step that names a pair is one for a pair of the table. */
  datatype Step =
    | LoadClients(infos: seq<NicInfo>, forceRss: bool)
    | Notify(infos: seq<NicInfo>, forceRss: bool, maxChannels: uint32, srvrRss: uint32, clntRss: uint32)
    | QueryAnswer(infos: seq<NicInfo>)
    | MainUp(clientIp: Addr, serverIp: Addr, iod: Iod)
    | AskTrials(slots: nat)
    | ReportTrial(id: ConId, passed: bool)
    | Disconnected(id: ConId)
    | ActivityChange(id: ConId, active: bool)
    | CollectExcess(slots: nat)
    | PauseTrials
    | ResumeTrials
    | ResetNics
    | AttachIod(id: ConId, owner: Option<Iod>)

  // ----- The remaining calls -----

  const RSS_INDEX_VALUES := 16

  /** The first NIC of `list[k..]` that is no RSS copy and has the address. */
  function FindByIp(nics: map<NicId, Nic>, list: seq<NicId>, ip: Addr, k: nat): (r: Option<NicId>)
    requires k <= |list| && forall n :: n in list ==> n in nics
    ensures r.Some? ==>
      && r.value in list && ip in nics[r.value].addrs
      && (nics[r.value].index / UINT32) % RSS_INDEX_VALUES == 0
    ensures r.None? ==> forall i :: k <= i < |list| ==>
      ip !in nics[list[i]].addrs || (nics[list[i]].index / UINT32) % RSS_INDEX_VALUES != 0
    decreases |list| - k
  {
    if k == |list| then None
    else if (nics[list[k]].index / UINT32) % RSS_INDEX_VALUES == 0 && ip in nics[list[k]].addrs then Some(list[k])
    else FindByIp(nics, list, ip, k + 1)
  }

  /** The main channel is up between two addresses; unknown addresses change nothing. */
  function MainChannel(t: Table, clientIp: Addr, serverIp: Addr, iod: Iod): (r: Table)
    requires Shaped(t)
    ensures Shaped(r) && Steady(t, r)
  {
    var cn := FindByIp(t.nics, t.clients, clientIp, 0);
    var sn := FindByIp(t.nics, t.servers, serverIp, 0);
    if cn.None? || sn.None? then t else Marked(t, cn.value, sn.value, Some(iod))
  }

  /** The update carried by a notification. */
  function NotifiedNics(s: Step): seq<Nic>
    requires s.Notify?
  {
    InitWF(s.maxChannels, s.srvrRss, s.clntRss, [], false);
    var u := AddClients(Init(s.maxChannels, s.srvrRss, s.clntRss, [], false), s.infos, s.forceRss, |s.infos|);
    NicList(u, u.clients)
  }

  /** The update carried by a query answer; the number of RSS copies is that of the session's table. */
  function AnsweredNics(t: Table, s: Step): seq<Nic>
    requires s.QueryAnswer?
  {
    InitWF(0, 0, 0, [], false);
    var u := AddServers(Init(0, 0, 0, [], false), s.infos, t.srvrRss, |s.infos|);
    NicList(u, u.servers)
  }

  /** All client NICs' pairs are reset, the first `k` NICs of the list. */
  function ResetTo(t: Table, k: nat): (r: Table)
    requires Shaped(t) && k <= |t.clients|
    ensures Shaped(r) && r == t.(cons := r.cons)
  {
    if k == 0 then t else ResetCons(ResetTo(t, k - 1), t.clients[k - 1], true)
  }

  // ----- Steps -----

  ghost predicate Enabled(t: Table, s: Step)
    requires Shaped(t)
  {
    match s
    case ReportTrial(id, _) => id in t.cons
    case Disconnected(id) => id in t.cons
    case ActivityChange(id, _) => id in t.cons
    case AttachIod(id, _) => id in t.cons
    case CollectExcess(slots) => slots >= 1 && Held(t)
    case _ => true
  }

  ghost function Perform(t: Table, s: Step): Table
    requires WF(t) && Shaped(t) && Enabled(t, s)
  {
    match s
    case LoadClients(infos, forceRss) => AddClients(t, infos, forceRss, |infos|)
    case Notify(_, _, _, _, _) => Update(t, NotifiedNics(s), true)
    case QueryAnswer(_) => Update(t, AnsweredNics(t, s), false)
    case MainUp(clientIp, serverIp, iod) => MainChannel(t, clientIp, serverIp, iod)
    case AskTrials(slots) => Ask(t, slots).t
    case ReportTrial(id, passed) => Report(t, id, passed)
    case Disconnected(id) => Disconnect(t, id)
    case ActivityChange(id, active) => t.(cons := t.cons[id := t.cons[id].(active := if active then Active
      else Inactive)])
    case CollectExcess(slots) => Excess(t, slots).t
    case PauseTrials => t.(pause := (t.pause + 1) % UINT32)
    case ResumeTrials => if t.pause > 0 then t.(pause := t.pause - 1) else t
    case ResetNics => ResetTo(t, |t.clients|)
    case AttachIod(id, owner) => t.(cons := t.cons[id := t.cons[id].(iod := owner)])
  }

  /** The next state; a step that is not enabled changes nothing. */
  ghost function Next(t: Table, s: Step): Table {
    if WF(t) && Shaped(t) && Enabled(t, s) then Perform(t, s) else t
  }

  /** A run: an empty table, then one state per step. */
  ghost predicate IsRun(states: seq<Table>, steps: seq<Step>) {
    && |states| == |steps| + 1
    && (exists m, sr, cr, ig, w :: states[0] == Init(m, sr, cr, ig, w))
    && forall i :: 0 <= i < |steps| ==> states[i + 1] == Next(states[i], steps[i])
  }

  // ----- One step -----

  lemma NotifiedNotIgnored(s: Step)
    requires s.Notify?
    ensures forall u :: u in NotifiedNics(s) ==> !u.ignored
  {
    hide AddClients;
    var t0 := Init(s.maxChannels, s.srvrRss, s.clntRss, [], false);
    InitWF(s.maxChannels, s.srvrRss, s.clntRss, [], false);
    AddClientsNotIgnored(t0, s.infos, s.forceRss, |s.infos|);
  }

  ghost predicate NoneIgnored(t: Table) {
    forall n :: n in t.nics ==> !t.nics[n].ignored
  }

  lemma AddInfoNotIgnored(t: Table, info: NicInfo, rss: nat, isClient: bool)
    requires Shaped(t) && NoneIgnored(t)
    ensures NoneIgnored(AddInfo(t, info, rss, false, isClient))
  {
    hide InsertAt, Inserted;
  }

  lemma {:induction false} AddCopiesNotIgnored(t: Table, info: NicInfo, isClient: bool, k: nat)
    requires Shaped(t) && NoneIgnored(t)
    ensures NoneIgnored(AddCopies(t, info, false, isClient, k))
  {
    hide AddInfo;
    if k > 0 {
      AddCopiesNotIgnored(t, info, isClient, k - 1);
      AddInfoNotIgnored(AddCopies(t, info, false, isClient, k - 1), info, k - 1, isClient);
    }
  }

  lemma {:induction false} AddClientsNotIgnored(t: Table, infos: seq<NicInfo>, forceRss: bool, k: nat)
    requires Shaped(t) && NoneIgnored(t) && t.ignoreList == [] && k <= |infos|
    ensures NoneIgnored(AddClients(t, infos, forceRss, k))
  {
    hide AddCopies;
    if k > 0 {
      AddClientsNotIgnored(t, infos, forceRss, k - 1);
      var info := Forced(infos[k - 1], forceRss);
      AddCopiesNotIgnored(AddClients(t, infos, forceRss, k - 1), info, true, Copies(info, t.clntRss, false));
    }
  }

  lemma AnsweredNotIgnored(t: Table, s: Step)
    requires s.QueryAnswer?
    ensures forall u :: u in AnsweredNics(t, s) ==> !u.ignored
  {
    hide AddServers;
    var t0 := Init(0, 0, 0, [], false);
    InitWF(0, 0, 0, [], false);
    AddServersExtends(t0, s.infos, t.srvrRss, |s.infos|);
    ServersNotIgnored(AddServers(t0, s.infos, t.srvrRss, |s.infos|));
  }

  lemma {:induction false} ResetToKeeps(t: Table, k: nat)
    requires WF(t) && Shaped(t) && k <= |t.clients|
    ensures Preserves(t, ResetTo(t, k))
  {
    hide WF, Preserves, ResetCons;
    if k == 0 {
      PreservesReflexive(t);
    } else {
      var p, n := ResetTo(t, k - 1), t.clients[k - 1];
      ResetToKeeps(t, k - 1);
      PreservesWF(t, p);
      assert p == p.(nics := p.nics[n := p.nics[n]]);
      ChangeKeeps(p, p, n, true);
      PreservesTransitive(t, p, ResetTo(t, k));
    }
  }

  /** A change of activity or of the attached iod of one pair. */
  lemma AnnotateKeeps(t: Table, id: ConId, c: Con)
    requires WF(t) && Shaped(t) && id in t.cons
    requires c == t.cons[id].(active := c.active, iod := c.iod)
    ensures Preserves(t, t.(cons := t.cons[id := c]))
  {
    hide WF, NoDup;
    ReconsWF(t, t.cons[id := c]);
  }

  lemma PauseKeeps(t: Table, pause: nat)
    requires WF(t) && Shaped(t)
    ensures Preserves(t, t.(pause := pause))
  {
    hide WF, NoDup;
    RestateWF(t, t.nicState, pause, t.trials, t.success);
  }

  /** The calls whose effect on the properties depends on no condition. */
  predicate Plain(s: Step) {
    s.Notify? || s.QueryAnswer? || s.AskTrials? || s.ActivityChange? || s.PauseTrials? || s.ResumeTrials? ||
      s.ResetNics? || s.AttachIod?
  }

  lemma PlainPreserves(t: Table, s: Step)
    requires WF(t) && Shaped(t) && Plain(s)
    ensures Preserves(t, Next(t, s))
  {
    hide WF, Preserves, Update, Ask, ResetTo, NotifiedNics, AnsweredNics;
    if !Enabled(t, s) {
      PreservesReflexive(t);
    } else {
      match s {
        case Notify(_, _, _, _, _) => NotifiedNotIgnored(s); UpdateKeeps(t, NotifiedNics(s), true);
        case QueryAnswer(_) => AnsweredNotIgnored(t, s); UpdateKeeps(t, AnsweredNics(t, s), false);
        case AskTrials(slots) => AskPreserves(t, slots);
        case ActivityChange(id, active) => AnnotateKeeps(t, id,
          t.cons[id].(active := if active then Active else Inactive));
        case AttachIod(id, owner) => AnnotateKeeps(t, id, t.cons[id].(iod := owner));
        case PauseTrials => PauseKeeps(t, (t.pause + 1) % UINT32);
        case ResumeTrials => PreservesReflexive(t); if t.pause > 0 { PauseKeeps(t, t.pause - 1); }
        case ResetNics => ResetToKeeps(t, |t.clients|);
      }
    }
  }

  // ----- Every state is well formed, and no NIC in use is idle -----

  lemma StepKeeps(t: Table, s: Step)
    requires WF(t) && Shaped(t)
    ensures WF(Next(t, s)) && Shaped(Next(t, s))
    ensures NoIdleInUse(t) ==> NoIdleInUse(Next(t, s))
  {
    hide WF, AddClients, Report, Disconnect, Excess, Marked, NoIdleInUse, NoStarvation, Agree, SpeedsFresh, Update, Ask,
      ResetTo, NotifiedNics, AnsweredNics;
    if Plain(s) {
      PlainPreserves(t, s);
    } else if Enabled(t, s) {
      match s {
        case LoadClients(infos, forceRss) =>
          AddClientsExtends(t, infos, forceRss, |infos|);
          ExtendsKeeps(t, AddClients(t, infos, forceRss, |infos|));
        case MainUp(clientIp, serverIp, iod) =>
          var cn, sn := FindByIp(t.nics, t.clients, clientIp, 0), FindByIp(t.nics, t.servers, serverIp, 0);
          if cn.Some? && sn.Some? {
            MarkedWF(t, cn.value, sn.value, Some(iod));
            if NoIdleInUse(t) { MarkedNoIdle(t, cn.value, sn.value, Some(iod)); }
          }
        case ReportTrial(id, passed) => ReportKeeps(t, id, passed);
        case Disconnected(id) => DisconnectKeeps(t, id);
        case CollectExcess(slots) => ExcessKeeps(t, slots);
      }
    }
  }

  /** In every state of every run the table is well formed. */
  lemma {:induction false} RunWellFormed(states: seq<Table>, steps: seq<Step>, i: nat)
    requires IsRun(states, steps) && i < |states|
    ensures WF(states[i]) && Shaped(states[i])
  {
    hide WF, Next, Init, NoIdleInUse, NoStarvation, Agree, SpeedsFresh;
    if i == 0 {
      var m, sr, cr, ig, w :| states[0] == Init(m, sr, cr, ig, w);
      InitWF(m, sr, cr, ig, w);
    } else {
      RunWellFormed(states, steps, i - 1);
      assert states[i] == Next(states[i - 1], steps[i - 1]);
      StepKeeps(states[i - 1], steps[i - 1]);
    }
  }

  /** In every state of every run no NIC of a connected or on-trial pair is idle. */
  lemma {:induction false} RunNoIdleInUse(states: seq<Table>, steps: seq<Step>, i: nat)
    requires IsRun(states, steps) && i < |states|
    ensures Shaped(states[i]) && NoIdleInUse(states[i])
  {
    hide WF, Next, Init, NoIdleInUse, NoStarvation, Agree, SpeedsFresh;
    RunWellFormed(states, steps, i);
    if i == 0 {
      var m, sr, cr, ig, w :| states[0] == Init(m, sr, cr, ig, w);
      InitWF(m, sr, cr, ig, w);
    } else {
      RunWellFormed(states, steps, i - 1);
      RunNoIdleInUse(states, steps, i - 1);
      assert states[i] == Next(states[i - 1], steps[i - 1]);
      StepKeeps(states[i - 1], steps[i - 1]);
    }
  }

  // ----- No pair is parked behind two idle NICs -----

  /**
   The one step that can park a pair behind two idle NICs: the main channel coming up
   between NICs whose pair is not in the table, with a potential pair of two idle NICs
   at either of them.
   */
  ghost predicate ParksSafely(t: Table, s: Step)
    requires Shaped(t)
  {
    s.MainUp? ==>
      var cn := FindByIp(t.nics, t.clients, s.clientIp, 0);
      var sn := FindByIp(t.nics, t.servers, s.serverIp, 0);
      cn.Some? && sn.Some? ==>
        || FindCon(t.cons, t.conList, cn.value, sn.value, 0).Some?
        || forall id ::
             && id in t.cons && t.cons[id].state == Potential
             && (t.cons[id].client == cn.value || t.cons[id].server == sn.value)
             ==> !Free(t.nicState, t.cons[id])
  }

  lemma StepParks(t: Table, s: Step)
    requires WF(t) && Shaped(t) && NoStarvation(t)
    ensures Shaped(Next(t, s)) && (NoStarvation(Next(t, s)) <==> ParksSafely(t, s))
  {
    hide WF, AddClients, Report, Disconnect, Excess, Marked, NoIdleInUse, NoStarvation, Agree, SpeedsFresh, Update, Ask,
      ResetTo, NotifiedNics, AnsweredNics;
    StepKeeps(t, s);
    if Plain(s) {
      PlainPreserves(t, s);
    } else if Enabled(t, s) {
      match s {
        case LoadClients(infos, forceRss) =>
          AddClientsExtends(t, infos, forceRss, |infos|);
          ExtendsKeeps(t, AddClients(t, infos, forceRss, |infos|));
        case MainUp(clientIp, serverIp, iod) =>
          var cn, sn := FindByIp(t.nics, t.clients, clientIp, 0), FindByIp(t.nics, t.servers, serverIp, 0);
          if cn.Some? && sn.Some? { MarkedStarvation(t, cn.value, sn.value, Some(iod)); }
        case ReportTrial(id, passed) => ReportKeeps(t, id, passed);
        case Disconnected(id) => DisconnectKeeps(t, id);
        case CollectExcess(slots) => ExcessKeeps(t, slots);
      }
    }
  }

  /** In exactly the runs that bring the main channel up safely, no state has a pair parked behind two idle NICs. */
  lemma {:induction false} RunNoStarvation(states: seq<Table>, steps: seq<Step>, n: nat)
    requires IsRun(states, steps) && n <= |steps|
    ensures forall i :: 0 <= i <= n ==> Shaped(states[i])
    ensures (forall i :: 0 <= i <= n ==> NoStarvation(states[i])) <==>
      (forall i :: 0 <= i < n ==> ParksSafely(states[i], steps[i]))
  {
    hide WF, Next, Init, NoIdleInUse, NoStarvation, Agree, SpeedsFresh, ParksSafely;
    RunWellFormed(states, steps, n);
    if n == 0 {
      var m, sr, cr, ig, w :| states[0] == Init(m, sr, cr, ig, w);
      InitWF(m, sr, cr, ig, w);
    } else {
      RunWellFormed(states, steps, n - 1);
      RunNoStarvation(states, steps, n - 1);
      assert states[n] == Next(states[n - 1], steps[n - 1]);
      if NoStarvation(states[n - 1]) { StepParks(states[n - 1], steps[n - 1]); }
    }
  }

  // ----- The success list agrees with the pair states -----

  /**
   The steps that keep the success list right: a pair is reported connected only while it
   is not on the list, and a trial failure only while no pair between the same two
   interfaces is on it.
   */
  ghost predicate ListSafe(t: Table, s: Step)
    requires Shaped(t)
  {
    match s
    case ReportTrial(id, passed) => id in t.cons ==> ReportSafe(t, id, passed)
    case MainUp(clientIp, serverIp, _) =>
      var cn := FindByIp(t.nics, t.clients, clientIp, 0);
      var sn := FindByIp(t.nics, t.servers, serverIp, 0);
      cn.Some? && sn.Some? ==>
        var target := FindCon(t.cons, t.conList, cn.value, sn.value, 0);
        target.Some? ==> !Carried(t.cons[target.value].state)
    case _ => true
  }

  lemma StepAgrees(t: Table, s: Step)
    requires WF(t) && Shaped(t) && Agree(t)
    ensures Agree(Next(t, s)) <==> ListSafe(t, s)
  {
    hide WF, AddClients, Report, Disconnect, Excess, Marked, NoIdleInUse, NoStarvation, Agree, SpeedsFresh, Update, Ask,
      ResetTo, NotifiedNics, AnsweredNics, ReportSafe;
    if Plain(s) {
      PlainPreserves(t, s);
    } else if Enabled(t, s) {
      match s {
        case LoadClients(infos, forceRss) =>
          AddClientsExtends(t, infos, forceRss, |infos|);
          ExtendsKeeps(t, AddClients(t, infos, forceRss, |infos|));
        case MainUp(clientIp, serverIp, iod) =>
          var cn, sn := FindByIp(t.nics, t.clients, clientIp, 0), FindByIp(t.nics, t.servers, serverIp, 0);
          if cn.Some? && sn.Some? { MarkedAgree(t, cn.value, sn.value, Some(iod)); }
        case ReportTrial(id, passed) => ReportAgree(t, id, passed);
        case Disconnected(id) => DisconnectAgree(t, id);
        case CollectExcess(slots) => ExcessReturns(t, slots);
      }
    } else if s.CollectExcess? {
      AgreeHeld(t);
    }
  }

  /** In exactly the runs whose steps are list-safe, the success list is right in every state. */
  lemma {:induction false} RunAgrees(states: seq<Table>, steps: seq<Step>, n: nat)
    requires IsRun(states, steps) && n <= |steps|
    ensures forall i :: 0 <= i <= n ==> Shaped(states[i])
    ensures (forall i :: 0 <= i <= n ==> Agree(states[i])) <==>
      (forall i :: 0 <= i < n ==> ListSafe(states[i], steps[i]))
  {
    hide WF, Next, Init, NoIdleInUse, NoStarvation, Agree, SpeedsFresh, ListSafe;
    RunWellFormed(states, steps, n);
    if n == 0 {
      var m, sr, cr, ig, w :| states[0] == Init(m, sr, cr, ig, w);
      InitWF(m, sr, cr, ig, w);
    } else {
      RunWellFormed(states, steps, n - 1);
      RunAgrees(states, steps, n - 1);
      assert states[n] == Next(states[n - 1], steps[n - 1]);
      if Agree(states[n - 1]) { StepAgrees(states[n - 1], steps[n - 1]); }
    }
  }
}
