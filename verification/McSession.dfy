/**
 The connection table as an object whose methods update it in place, each proved to do
 what the corresponding function of the table says.
 */
module McSession {
  import opened Integers
  import opened Options
  import opened McTypes
  import opened McConList
  import opened McReport
  import opened McStats
  import opened McTrial
  import opened McExcess
  import opened McNotifier
  import opened McNics
  import opened McRuns
  import opened McLoops
  import opened McWire
  import opened McArray

  class SessionTable {
    var pause: nat
    var clients: seq<NicId>
    var servers: seq<NicId>
    var nics: map<NicId, Nic>
    var nicState: map<NicId, NicState>
    var possible: map<NicId, seq<ConId>>
    const maxChannels: nat
    const srvrRss: nat
    const clntRss: nat
    const ignoreList: seq<nat>
    const preferWired: bool
    var conList: seq<ConId>
    var cons: map<ConId, Con>
    var trials: nat
    var success: seq<ConId>
    var next: nat

    ghost function View(): Table
      reads this
    {
      Table(pause, clients, servers, nics, nicState, possible, maxChannels, srvrRss, clntRss, ignoreList, preferWired,
            conList, cons, trials, success, next)
    }

    constructor (maxChannels: uint32, srvrRss: uint32, clntRss: uint32, ignoreList: seq<uint32>, preferWired: bool)
      ensures View() == Init(maxChannels, srvrRss, clntRss, ignoreList, preferWired)
      ensures WF(View()) && Shaped(View())
      ensures this.maxChannels == if maxChannels == 0 then 17 else maxChannels
      ensures this.srvrRss == if srvrRss == 0 then 4 else srvrRss
      ensures this.clntRss == if clntRss == 0 then 4 else clntRss
      ensures |this.ignoreList| == if |ignoreList| > 32 then 0 else |ignoreList|
      ensures forall i :: 0 <= i < |this.ignoreList| ==> this.ignoreList[i] == ignoreList[i]
    {
      this.pause := 0;
      this.clients, this.servers := [], [];
      this.nics, this.nicState, this.possible := map[], map[], map[];
      this.maxChannels := if maxChannels != 0 then maxChannels else DEFAULT_MAX_CHANNELS;
      this.srvrRss := if srvrRss != 0 then srvrRss else DEFAULT_RSS_CHANNELS;
      this.clntRss := if clntRss != 0 then clntRss else DEFAULT_RSS_CHANNELS;
      this.ignoreList := if |ignoreList| <= MAX_IGNORE_LIST
                         then seq(|ignoreList|, i requires 0 <= i < |ignoreList| => ignoreList[i] as nat) else [];
      this.preferWired := preferWired;
      this.conList, this.cons := [], map[];
      this.trials, this.success, this.next := 0, [], 0;
      new;
      InitWF(maxChannels, srvrRss, clntRss, ignoreList, preferWired);
    }

    // ----- Repairing and completing -----

    method SetEnds(c: Con, s: NicState)
      modifies this`nicState
      ensures nicState == McConList.SetEnds(old(nicState), c, s)
    {
      nicState := nicState[c.client := s];
      nicState := nicState[c.server := s];
    }

    method RepairNicStates()
      requires Shaped(View())
      modifies this`nicState
      ensures View() == RepairTable(old(View()))
    {
      ghost var t := View();
      for i := 0 to |conList|
        invariant nicState == Repaired(t.nicState, t.cons, t.conList, i)
      {
        var c := cons[conList[i]];
        match c.state {
          case Connected => SetEnds(c, Used);
          case InTrial => SetEnds(c, OnTrial);
          case _ =>
        }
      }
    }

    method FindConByNics(c: NicId, s: NicId) returns (r: Option<ConId>)
      requires forall id :: id in conList ==> id in cons
      ensures r == FindCon(cons, conList, c, s, 0)
    {
      for i := 0 to |conList|
        invariant FindCon(cons, conList, c, s, 0) == FindCon(cons, conList, c, s, i)
      {
        if cons[conList[i]].client == c && cons[conList[i]].server == s { return Some(conList[i]); }
      }
      return None;
    }

    method AddPair(c: NicId, s: NicId)
      requires Shaped(View()) && c in nics && s in nics
      modifies this`conList, this`cons, this`possible, this`next
      ensures View() == NewPair(old(View()), c, s)
    {
      var state := Potential;
      if !((nics[c].ip4 && nics[s].ip4) || (nics[c].ip6 && nics[s].ip6)) || nics[c].ignored {
        state := NoPotential;
      } else if nicState[s] == Used {
        state := Surplus;
      }
      cons := cons[next := Con(state, Active, 0, None, c, s)];
      conList := conList + [next];
      possible := possible[c := possible[c] + [next]];
      next := next + 1;
    }

    method TouchPair(c: NicId, s: NicId)
      requires Shaped(View()) && c in nics && s in nics
      modifies this`conList, this`cons, this`possible, this`next
      ensures View() == McConList.TouchPair(old(View()), c, s)
    {
      hide NewPair, FindCon, Steady;
      var found := FindConByNics(c, s);
      if found.None? {
        AddPair(c, s);
      } else {
        var id := found.value;
        if nicState[c] == Idle && nicState[s] == Idle && cons[id].state == Surplus {
          cons := cons[id := cons[id].(state := Potential)];
        }
      }
    }

    method UpdateRow(c: NicId)
      requires Shaped(View()) && c in nics
      modifies this`conList, this`cons, this`possible, this`next
      ensures View() == Row(old(View()), c, |servers|)
    {
      hide McConList.TouchPair, Shaped, Steady;
      ghost var t := View();
      for j := 0 to |servers|
        invariant View() == Row(t, c, j)
      {
        ServerKnown(t, servers[j]);
        TouchPair(c, servers[j]);
      }
    }

    /** Every client-server pair gets an entry, and parked pairs of two idle NICs are unparked. */
    method UpdateConList()
      requires Shaped(View())
      modifies this`conList, this`cons, this`possible, this`next
      ensures View() == Completed(old(View()))
    {
      hide Row, Shaped, Steady;
      ghost var t := View();
      for i := 0 to |clients|
        invariant View() == Rows(t, i)
      {
        ListedKnown(t);
        UpdateRow(clients[i]);
      }
    }

    // ----- Reports -----

    static method FindNicByIndex(nics: map<NicId, Nic>, list: seq<NicId>, index: nat) returns (r: Option<NicId>)
      requires forall n :: n in list ==> n in nics
      ensures r == FindNic(nics, list, index, 0)
    {
      for i := 0 to |list|
        invariant FindNic(nics, list, index, 0) == FindNic(nics, list, index, i)
      {
        if nics[list[i]].index == index { return Some(list[i]); }
      }
      return None;
    }

    /** The loop over the client NIC's own pairs: the one to the server NIC connects, its potential ones are parked. */
    method MarkClientPairs(cn: NicId, sn: NicId, iod: Option<Iod>) returns (con: Option<ConId>)
      requires WF(View()) && Shaped(View()) && cn in clients && sn in servers
      modifies this`cons, this`nicState, this`success
      ensures con == FindCon(old(cons), conList, cn, sn, 0)
      ensures cons == ClientMarked(old(View()), con, cn, iod, |possible[cn]|)
      ensures nicState == (if con.Some? then old(nicState)[cn := Used][sn := Used] else old(nicState))
      ensures success == (if con.Some? then old(success) + [con.value] else old(success))
    {
      hide WF, Shaped, FindCon, ClientMarked, NoDup;
      ghost var t := View();
      ConsListed(t);
      ClientPairs(t, cn, sn);
      ghost var target := FindCon(t.cons, t.conList, cn, sn, 0);
      con := None;
      ClientMarkedNone(t, target, cn, iod);
      for i := 0 to |possible[cn]|
        invariant cons == ClientMarked(t, target, cn, iod, i)
        invariant con == if target.Some? && target.value in possible[cn][..i] then target else None
        invariant nicState == if con.Some? then t.nicState[cn := Used][sn := Used] else t.nicState
        invariant success == if con.Some? then t.success + [con.value] else t.success
      {
        var id := possible[cn][i];
        LastNew(possible[cn], i + 1);
        ClientMarkedStep(t, target, cn, iod, i);
        var c := cons[id];
        if nics[c.server].index == nics[sn].index {
          cons := cons[id := c.(iod := if iod.Some? then iod
            else c.iod, state := Connected, speed := LinkSpeed(nics, c))];
          nicState := nicState[c.client := Used];
          nicState := nicState[c.server := Used];
          success := success + [id];
          con := Some(id);
        } else if c.state == Potential {
          cons := cons[id := c.(state := Surplus)];
        }
      }
    }

    /** The loop over all pairs: the potential ones of the server NIC are parked. */
    method ParkServerPairs(sn: NicId)
      requires WF(View()) && Shaped(View()) && sn in servers
      modifies this`cons
      ensures cons == ServerParked(old(cons), sn)
    {
      hide WF, Shaped, ServerParked, Blend, NoDup;
      ghost var t := View();
      ghost var final := ServerParked(t.cons, sn);
      ServerPairs(t, sn);
      BlendEnds(t.cons, final, conList);
      for i := 0 to |conList|
        invariant cons == Blend(t.cons, final, conList, i)
      {
        var id := conList[i];
        BlendStep(t.cons, final, conList, i);
        var c := cons[id];
        if nics[c.server].index == nics[sn].index && c.state == Potential {
          cons := cons[id := c.(state := Surplus)];
        }
      }
    }

    /** A connection between the NICs of the two given indices is established. */
    method UpdateNewConnection(clientIndex: nat, serverIndex: nat, iod: Option<Iod>)
      returns (ok: bool, con: Option<ConId>)
      requires WF(View()) && Shaped(View())
      modifies this`cons, this`nicState, this`success
      ensures var cn, sn := FindNic(nics, clients, clientIndex, 0), FindNic(nics, servers, serverIndex, 0);
              && ok == (cn.Some? && sn.Some?)
              && (ok ==> View() == Marked(old(View()), cn.value, sn.value, iod)
                         && con == FindCon(old(cons), conList, cn.value, sn.value, 0))
              && (!ok ==> View() == old(View()) && con == None)
    {
      hide WF, Shaped, FindCon, FindNic, Marked, ServerParked, ClientMarked;
      ghost var t := View();
      ListsKnown(t);
      var cn := FindNicByIndex(nics, clients, clientIndex);
      var sn := FindNicByIndex(nics, servers, serverIndex);
      if cn.None? || sn.None? {
        return false, None;
      }
      ok := true;
      FindNicListed(t, clients, clientIndex);
      FindNicListed(t, servers, serverIndex);
      con := MarkClientPairs(cn.value, sn.value, iod);
      ClientMarkedWF(t, View(), con, cn.value, iod);
      ParkServerPairs(sn.value);
      BothMarked(t, cn.value, sn.value, iod);
    }

    /** The clean-up after a failed trial of pair `id`. */
    method FailConnections(id: ConId)
      requires WF(View()) && Shaped(View()) && id in cons
      modifies this`nicState, this`cons
      ensures View() == FailTrial(old(View()), id)
    {
      hide WF, Shaped, Blend, NoDup, FailedCon, McConList.SetEnds, FailTrial;
      ghost var t := View();
      var d := cons[id];
      FailTrialCons(t, id);
      SetEnds(d, Idle);
      cons := cons[id := d.(iod := None)];
      ghost var before := cons;
      ghost var final := FailTrial(t, id).cons;
      BlendEnds(before, final, conList);
      for i := 0 to |conList|
        invariant cons == Blend(before, final, conList, i)
        invariant nicState == McConList.SetEnds(t.nicState, d, Idle)
      {
        BlendStep(before, final, conList, i);
        var c := cons[conList[i]];
        if BaseIndex(nics[c.client].index) == BaseIndex(nics[d.client].index) {
          if BaseIndex(nics[c.server].index) == BaseIndex(nics[d.server].index) {
            cons := cons[conList[i] := c.(state := FailedToConnect)];
          } else if c.state == Surplus {
            cons := cons[conList[i] := c.(state := Potential)];
          }
        } else if nics[c.server].index == nics[d.server].index {
          if c.state == Surplus {
            cons := cons[conList[i] := c.(state := Potential)];
          }
        }
        FailedConCases(nics, c, d);
      }
    }

    /** The outcome of a trial is reported. */
    method ReportTrialResult(id: ConId, passed: bool) returns (ok: bool)
      requires WF(View()) && Shaped(View()) && id in cons
      modifies this
      ensures View() == Report(old(View()), id, passed)
      ensures WF(View()) && NoIdleInUse(View()) && NoStarvation(View()) && ok
    {
      hide WF, Shaped, Marked, FailTrial, RepairTable, Completed, FindNic, FindCon, NoIdleInUse, NoStarvation;
      ghost var t := View();
      ReportKeeps(t, id, passed);
      ListsKnown(t);
      ConsKnown(t);
      ReportFinds(t, id);
      trials := if trials == 0 then UINT32 - 1 else trials - 1;
      TrialsWF(t, trials);
      var c := cons[id];
      ok := true;
      if passed {
        MarkedWF(View(), c.client, c.server, None);
        var found;
        ok, found := UpdateNewConnection(nics[c.client].index, nics[c.server].index, None);
      } else {
        FailTrialWF(View(), id);
        FailConnections(id);
      }
      RepairTableSound(View());
      RepairNicStates();
      if ok {
        UpdateConList();
      }
    }

    /** The pair leaves the success list, if it is on it, and both its NICs are set idle. */
    method DropConnection(id: ConId)
      requires Shaped(View()) && id in cons
      modifies this`success, this`cons, this`nicState
      ensures View() == Dropped(old(View()), id)
    {
      hide Without, McConList.SetEnds, Shaped;
      var c := cons[id];
      var state := c.state;
      if state == Connected || state == InRemoval {
        success := Without(success, id);
        state := Potential;
      } else if state != FailedToConnect && state != NoPotential {
        state := Potential;
      }
      SetEnds(c, Idle);
      cons := cons[id := c.(state := state, iod := None)];
    }

    /** A channel is gone. */
    method InformDisconnected(id: ConId)
      requires WF(View()) && Shaped(View()) && id in cons
      modifies this
      ensures View() == Disconnect(old(View()), id)
      ensures WF(View()) && NoIdleInUse(View()) && NoStarvation(View())
    {
      hide WF, RepairTable, Completed, NoIdleInUse, NoStarvation, Dropped, Shaped;
      ghost var t := View();
      DisconnectKeeps(t, id);
      DroppedWF(t, id);
      RepairTableSound(Dropped(t, id));
      DropConnection(id);
      RepairNicStates();
      UpdateConList();
    }

    static method FindNicByIp(nics: map<NicId, Nic>, list: seq<NicId>, ip: Addr) returns (r: Option<NicId>)
      requires forall n :: n in list ==> n in nics
      ensures r == FindByIp(nics, list, ip, 0)
    {
      for i := 0 to |list|
        invariant FindByIp(nics, list, ip, 0) == FindByIp(nics, list, ip, i)
      {
        if (nics[list[i]].index / UINT32) % RSS_INDEX_VALUES == 0 && ip in nics[list[i]].addrs { return Some(list[i]); }
      }
      return None;
    }

    /** The main channel is up. */
    method UpdateMainChannel(clientIp: Addr, serverIp: Addr, iod: Iod) returns (ok: bool, con: Option<ConId>)
      requires WF(View()) && Shaped(View())
      modifies this`cons, this`nicState, this`success
      ensures View() == MainChannel(old(View()), clientIp, serverIp, iod)
      ensures ok <==> FindByIp(nics, clients, clientIp, 0).Some? && FindByIp(nics, servers, serverIp, 0).Some?
    {
      hide WF, Shaped, Marked, FindByIp, FindNic, FindCon;
      ghost var t := View();
      ListsKnown(t);
      var cn := FindNicByIp(nics, clients, clientIp);
      var sn := FindNicByIp(nics, servers, serverIp);
      if cn.None? || sn.None? {
        return false, None;
      }
      FindByIpListed(t, clients, clientIp);
      FindByIpListed(t, servers, serverIp);
      FoundAgain(t, cn.value, sn.value);
      ok, con := UpdateNewConnection(nics[cn.value].index, nics[sn.value].index, Some(iod));
    }

    // ----- Counting -----

    /** The effect of one pair on the statistics. */
    method CountPair(st: Stats, id: ConId, c: Con) returns (r: Stats)
      requires EndsKnown(nics, c) && EndStates(nicState, c)
      ensures r == Counted(View(), st, id, c)
    {
      r := st;
      if c.state == Connected {
        if c.active == Active {
          r := r.(active := r.active + 1);
          if c.speed > r.maxActive { r := r.(maxActive := c.speed); }
        } else if c.active == Inactive {
          r := r.(inactive := r.inactive + 1);
          if c.speed > r.maxInactive { r := r.(maxInactive := c.speed, fastestInactive := Some(id)); }
          if nics[c.client].nicType == IFM_ETHER { r := r.(wiredInactive := r.wiredInactive + 1); }
        }
      } else if c.state == Potential && nicState[c.client] == Idle && nicState[c.server] == Idle {
        if c.speed > r.maxPotential { r := r.(maxPotential := c.speed, potential := Some(id)); }
        if preferWired && nics[c.client].nicType == IFM_ETHER && c.speed > r.maxPotentialWired {
          r := r.(maxPotentialWired := c.speed, potentialWired := Some(id));
        }
      }
    }

    method TallyConnections() returns (st: Stats)
      requires WF(View()) && Shaped(View())
      modifies this`cons
      ensures st == Tally(old(View()), |conList|) && View() == FirstPass(old(View()))
    {
      hide WF, Shaped, NoDup, Counted, Refreshed, RefreshedTo, EndsKnown, EndStates;
      ghost var t := View();
      ConsListed(t);
      ListsKnown(t);
      ConsKnown(t);
      st := NO_STATS;
      RefreshedNone(t);
      for i := 0 to |conList|
        invariant st == Tally(t, i) && cons == RefreshedTo(t, i)
      {
        var id := conList[i];
        LastNew(conList, i + 1);
        RefreshedStep(t, i);
        var c := cons[id];
        RefreshedCases(t, c);
        if c.state == Potential && nicState[c.client] == Idle && nicState[c.server] == Idle {
          c := c.(speed := if nics[c.client].speed < nics[c.server].speed then nics[c.client].speed
            else nics[c.server].speed);
        }
        cons := cons[id := c];
        CountedFrame(t, View(), st, id, c);
        st := CountPair(st, id, c);
      }
    }

    method SeekUpgrade(st: Stats) returns (st': Stats)
      requires WF(View()) && Shaped(View())
      modifies this`cons
      ensures Census(View(), st') == McStats.SeekUpgrade(old(View()), st)
    {
      hide WF, Shaped, NoDup, Upgradable, Sharing, SharedTo, FirstUpgrade;
      ghost var t := View();
      ConsListed(t);
      ListsKnown(t);
      ConsKnown(t);
      SharedNone(t);
      st' := st;
      for k := 0 to |conList|
        invariant cons == SharedTo(t, k) && FirstUpgrade(t, st.maxActive, 0) == FirstUpgrade(t, st.maxActive, k)
        invariant st' == st
      {
        var id := conList[k];
        LastNew(conList, k + 1);
        SharedStep(t, k);
        SharingCases(t, t.cons[id], st.maxActive);
        FirstUpgradeStep(t, st.maxActive, k);
        var c := cons[id];
        var half := (nicState[c.client] == Used && nicState[c.server] == Idle) ||
          (nicState[c.client] == Idle && nicState[c.server] == Used);
        if (c.state == Surplus || c.state == Potential) && half {
          var speed := LinkSpeed(nics, c);
          if (!preferWired || nics[c.client].nicType == IFM_ETHER) && speed > st.maxActive &&
            nicState[c.server] != OnTrial {
            cons := cons[id := c.(speed := speed, state := Potential)];
            st' := st.(maxPotential := speed, potential := Some(id), maxPotentialWired := speed,
              potentialWired := Some(id));
            return;
          }
          cons := cons[id := c.(speed := speed)];
        }
      }
      FirstUpgradeEnd(t, st.maxActive);
    }

    method CountConnectionStats() returns (st: Stats)
      requires WF(View()) && Shaped(View())
      modifies this`cons
      ensures Census(View(), st) == CountStats(old(View()))
    {
      hide WF, Shaped, Tally, McStats.SeekUpgrade, FirstPass;
      ghost var t := View();
      FirstPassWF(t);
      st := TallyConnections();
      var wanted := if preferWired then st.potentialWired.None? else st.potential.None?;
      if st.active > 0 && wanted {
        st := SeekUpgrade(st);
      }
    }

    // ----- Trials -----

    /** Which pair this turn adds, with the activity meant for it. */
    method ChoosePair(st: Stats, added: bool) returns (pick: Option<Pick>)
      ensures pick == Choose(View(), st, added)
    {
      var pair, speed, spare := None, 0, false;
      if preferWired {
        if st.potentialWired.Some? {
          pair, speed := st.potentialWired, st.maxPotentialWired;
        } else if st.inactive == 0 {
          pair, speed, spare := st.potential, st.maxPotential, true;
        }
      } else {
        pair, speed := st.potential, st.maxPotential;
      }
      pick := None;
      if pair.Some? {
        if speed >= st.maxActive && !spare {
          pick := Some(Pick(pair.value, Active));
        } else if speed > st.maxInactive || (!added && (st.inactive == 0 || (preferWired && st.wiredInactive == 0))) {
          pick := Some(Pick(pair.value, Inactive));
        }
      }
    }

    method StartTrial(p: Pick)
      requires Shaped(View()) && p.id in cons
      modifies this`cons, this`nicState, this`trials
      ensures View() == McTrial.StartTrial(old(View()), p)
    {
      hide LinkSpeed, McConList.SetEnds;
      var c := cons[p.id];
      cons := cons[p.id := c.(active := p.active, state := InTrial, speed := LinkSpeed(nics, c))];
      SetEnds(c, OnTrial);
      trials := (trials + 1) % UINT32;
    }

    method PromoteSpare(id: ConId)
      requires id in cons
      modifies this`cons
      ensures View() == Promote(old(View()), id)
    {
      cons := cons[id := cons[id].(active := Active)];
    }

    /** Hand out at most `maxOut` pairs for connection trials. */
    method AskForTrials(maxOut: nat) returns (pairs: seq<ConId>)
      requires WF(View()) && Shaped(View())
      modifies this`cons, this`nicState, this`trials
      ensures View() == Ask(old(View()), maxOut).t && pairs == Ask(old(View()), maxOut).pairs
      ensures WF(View()) && Shaped(View())
    {
      hide WF, Shaped, CountStats, Choose, McTrial.StartTrial, Promote, HasActive, Preserves, AskLoop, OneTurn;
      pairs := [];
      if pause > 0 { return; }
      if trials > maxChannels { return; }
      ghost var whole := AskLoop(View(), maxOut, false);
      var slots, added := maxOut, false;
      while slots > 0
        invariant WF(View()) && Shaped(View())
        invariant var r := AskLoop(View(), slots, added); whole.t == r.t && whole.pairs == pairs + r.pairs
        decreases slots, if HasActive(View()) then 0 else 1
      {
        ghost var t := View();
        TurnKeeps(t, added);
        PreservesWF(t, OneTurn(t, added).t);
        AskTurn(t, slots, added);
        TurnUnfold(t, added);
        var st := CountConnectionStats();
        if st.active == 0 && st.inactive != 0 && st.fastestInactive.Some? && cons[st.fastestInactive.value].iod.Some? {
          PromoteSpare(st.fastestInactive.value);
          continue;
        }
        if st.inactive + st.active >= maxChannels && st.maxActive >= st.maxPotential && st.maxActive > st.maxInactive {
          return;
        }
        var pick := ChoosePair(st, added);
        if pick.None? {
          return;
        }
        StartTrial(pick.value);
        pairs := pairs + [pick.value.id];
        added := added || pick.value.active == Inactive;
        slots := slots - 1;
      }
      AskNoSlots(View(), added);
    }

    // ----- Excess connections -----

    /** The speed that makes a connection active, and the top wired speed where wired NICs are preferred. */
    method FindBar() returns (bar: nat, wired: nat)
      requires Held(View())
      ensures bar == Bar(View()) && wired == TopWired(View(), |success|)
    {
      var top := 0;
      wired := 0;
      for k := 0 to |success|
        invariant top == TopSpeed(View(), k) && wired == TopWired(View(), k)
      {
        var c := cons[success[k]];
        if preferWired && nics[c.client].nicType == IFM_ETHER && c.speed > wired { wired := c.speed; }
        if c.speed > top { top := c.speed; }
      }
      bar := if wired > 0 then wired else top;
    }

    /** Whether some pair marked active has one of the two NICs. */
    method IsOnActive(client: NicId, server: NicId) returns (r: bool)
      requires forall id :: id in conList ==> id in cons
      ensures r == OnActive(cons, conList, client, server)
    {
      for i := 0 to |conList|
        invariant forall j :: 0 <= j < i ==>
          !(cons[conList[j]].active == Active &&
          (cons[conList[j]].client == client || cons[conList[j]].server == server))
      {
        var c := cons[conList[i]];
        if c.active == Active && (c.client == client || c.server == server) { return true; }
      }
      return false;
    }

    /** Every successful pair is marked active or inactive, and the spare is looked for on the way. */
    method MarkActivity(bar: nat, wired: nat) returns (s: Survey)
      requires Held(View()) && bar == Bar(View()) && wired == TopWired(View(), |success|)
      modifies this`cons
      ensures s == SurveyTo(old(View()), |success|) && cons == MarkedTo(old(View()), |success|)
    {
      hide Held, MarkedTo, SurveyTo, OnActive, Bar, TopWired;
      ghost var t := View();
      HeldKnown(t);
      MarkedNone(t);
      s := Survey(0, 0, 0, None, 0, None);
      for k := 0 to |success|
        invariant s == SurveyTo(t, k) && cons == MarkedTo(t, k)
      {
        var id := success[k];
        MarkedStep(t, k);
        SurveyUnfold(t, k);
        var c := cons[id];
        assert cons == cons[id := c];
        if c.speed == bar && (wired == 0 || nics[c.client].nicType == IFM_ETHER) {
          if c.active != Active { cons := cons[id := c.(active := Active)]; }
          s := s.(actives := s.actives + 1);
        } else {
          if c.active != Inactive { cons := cons[id := c.(active := Inactive)]; }
          s := s.(inactives := s.inactives + 1);
          var busy := IsOnActive(c.client, c.server);
          if c.speed > s.maxSpare && !busy { s := s.(maxSpare := c.speed, spare := Some(id)); }
          if preferWired && nics[c.client].nicType == IFM_ETHER && c.speed > s.maxWired && !busy {
            s := s.(maxWired := c.speed, wiredSpare := Some(id));
          }
        }
      }
    }

    /** All inactive pairs but one become redundant. */
    method DemoteSpares(keep: Option<ConId>, inactives: nat)
      requires Held(View()) && inactives > 1
      modifies this`cons
      ensures cons == DemotedTo(old(View()), old(cons), keep, inactives, |success|).cons
    {
      hide Shaped, DemotedTo;
      ghost var t := View();
      var left := inactives;
      DemotedNone(t, keep, inactives);
      for k := 0 to |success|
        invariant left > 1 && Demotion(cons, left) == DemotedTo(t, t.cons, keep, inactives, k)
      {
        var id := success[k];
        DemotedNext(t, keep, inactives, k);
        if keep != Some(id) && cons[id].active == Inactive {
          cons := cons[id := cons[id].(active := Redundant)];
          left := left - 1;
          if left == 1 {
            DemotedStops(t, keep, inactives, k + 1);
            return;
          }
        }
      }
    }

    /** Redundant connections, and active ones over the limit, are put in removal. */
    method SweepExcess(activeCount: nat, inactive: nat, maxOut: nat) returns (removed: seq<ConId>)
      requires Held(View()) && maxOut >= 1
      modifies this`cons
      ensures var s := SweptTo(old(View()), activeCount, inactive, maxOut, |success|);
        cons == s.cons && removed == s.removed
    {
      hide Shaped, SweptTo;
      ghost var t := View();
      removed := [];
      var active: nat := activeCount;
      SweptNothing(t, activeCount, inactive, maxOut);
      for k := 0 to |success|
        invariant Sweep(cons, active, removed) == SweptTo(t, activeCount, inactive, maxOut, k) && |removed| < maxOut
      {
        var id := success[k];
        var c := cons[id];
        SweptNext(t, activeCount, inactive, maxOut, k);
        if c.state != InRemoval {
          var over := inactive + active > maxChannels;
          if (over && c.active == Active) || c.active == Redundant {
            if c.active == Active { active := if active == 0 then UINT32 - 1 else active - 1; }
            cons := cons[id := c.(state := InRemoval)];
            removed := removed + [id];
            if |removed| == maxOut {
              SweptStops(t, activeCount, inactive, maxOut, k + 1);
              return;
            }
          }
        }
      }
    }

    /** Every successful pair becomes active, the one spare, or redundant. */
    method SortConnections() returns (actives: nat, speed: nat)
      requires Held(View())
      modifies this`cons
      ensures View() == Sorted(old(View()))
      ensures actives == SurveyTo(old(View()), |success|).actives && speed == Bar(old(View()))
    {
      hide Held, MarkedTo, SurveyTo, DemotedTo, Bar, TopWired, Sorted;
      ghost var t := View();
      var bar, wired := FindBar();
      var s := MarkActivity(bar, wired);
      actives, speed := s.actives, bar;
      SortedUnfold(t);
      if s.inactives > 1 {
        DemoteSpares(if s.wiredSpare.Some? then s.wiredSpare else s.spare, s.inactives);
        DemotedFrame(t, if s.wiredSpare.Some? then s.wiredSpare else s.spare, s.inactives);
      }
    }

    /** Collect the connections to remove, at most `maxOut`; also the number of active ones and their speed. */
    method ReturnExcess(maxOut: nat) returns (removed: seq<ConId>, actives: nat, speed: nat)
      requires WF(View()) && Held(View()) && maxOut >= 1
      modifies this`cons
      ensures Culling(View(), removed, actives, speed) == Excess(old(View()), maxOut)
      ensures WF(View()) && Shaped(View())
      ensures old(Agree(View())) ==> Held(View()) && Agree(View()) && (removed == [] ==> WithinLimits(View()))
    {
      hide WF, Held, Agree, SurveyTo, SweptTo, CountStats, Bar, WithinLimits, Sorted, NoDup;
      ghost var t := View();
      ExcessUnfold(t, maxOut);
      actives, speed := SortConnections();
      var st := CountConnectionStats();
      removed := SweepExcess(st.active, st.inactive, maxOut);
      ExcessKeeps(t, maxOut);
      if Agree(t) {
        ExcessReturns(t, maxOut);
        ExcessQuiet(t, maxOut);
        AgreeHeld(View());
      }
    }

    /** The driver's loop: collect excess and disconnect what is returned, until nothing is. */
    method DrainExcess(maxOut: nat)
      requires WF(View()) && Held(View()) && Agree(View()) && maxOut >= 1
      modifies this
      ensures View() == Drain(old(View()), maxOut)
      ensures WF(View()) && Agree(View()) && WithinLimits(View())
    {
      hide WF, Held, Agree, Excess, DropAll, Drain, WithinLimits, Disconnect;
      ghost var whole := Drain(View(), maxOut);
      DrainSound(View(), maxOut);
      while true
        invariant WF(View()) && Held(View()) && Agree(View())
        invariant whole == Drain(View(), maxOut)
        decreases |success|
      {
        ghost var t := View();
        ExcessThenDrop(t, maxOut);
        DrainUnfold(t, maxOut);
        var removed, _, _ := ReturnExcess(maxOut);
        if removed == [] {
          return;
        }
        DisconnectAll(removed);
      }
    }

    method DisconnectAll(ids: seq<ConId>)
      requires WF(View()) && Shaped(View()) && Agree(View()) && NoDup(ids)
      requires forall id :: id in ids ==> id in cons && Carried(cons[id].state)
      modifies this
      ensures View() == DropAll(old(View()), ids, |ids|)
    {
      hide WF, Agree, NoDup, Disconnect, Shaped, NoIdleInUse, NoStarvation, SpeedsFresh;
      ghost var t := View();
      for u := 0 to |ids|
        invariant View() == DropAll(t, ids, u)
      {
        DropAllSound(t, ids, u);
        InformDisconnected(ids[u]);
      }
    }

    // ----- Updates of the NIC lists -----

    /** Connections of a NIC that was updated are touched up. */
    method ResetConStatus(n: NicId, isClient: bool)
      requires WF(View()) && Shaped(View()) && n in nics
      modifies this`cons
      ensures View() == ResetCons(old(View()), n, isClient)
    {
      hide WF, Shaped, NoDup, Blend, ResetCon, LinkSpeed;
      ghost var t := View();
      ConsListed(t);
      ConsKnown(t);
      ghost var final := ResetCons(t, n, isClient).cons;
      BlendEnds(t.cons, final, conList);
      for i := 0 to |conList|
        invariant cons == Blend(t.cons, final, conList, i)
      {
        var id := conList[i];
        BlendStep(t.cons, final, conList, i);
        var c := cons[id];
        ResetCases(nics, c, n, isClient);
        assert cons == cons[id := c];
        if (if isClient then c.client else c.server) == n && !nics[n].ignored {
          if c.state == FailedToConnect || c.state == NoPotential {
            cons := cons[id := c.(state := Potential)];
          } else {
            cons := cons[id := c.(speed := LinkSpeed(nics, c))];
          }
        }
      }
    }

    /** The addresses of `a` that `b` also has. */
    static method KeepCommon(a: seq<Addr>, b: seq<Addr>) returns (r: seq<Addr>)
      ensures r == Common(a, b)
    {
      r := [];
      for i := 0 to |a|
        invariant Common(a, b) == r + Common(a[i..], b)
      {
        if a[i] in b { r := r + [a[i]]; }
      }
    }

    /** The NIC with the addresses of the update, and whether they differ. */
    static method UpdateIpList(nic: Nic, update: Nic) returns (r: Nic, changed: bool)
      ensures r == UpdateAddrs(nic, update) && changed == (r.addrs != nic.addrs)
    {
      var addrs := KeepCommon(nic.addrs, update.addrs);
      r := nic.(addrs := addrs);
      for i := 0 to |update.addrs|
        invariant r == AddAddrs(nic.(addrs := addrs), update.addrs, i)
      {
        var a := update.addrs[i];
        if a !in r.addrs {
          r := r.(addrs := r.addrs + [a], ip4 := r.ip4 || a.V4?, ip6 := r.ip6 || !a.V4?);
        }
      }
      changed := r.addrs != nic.addrs;
    }

    /** The list with `n` before the first NIC that is not faster. */
    static method PlaceBySpeed(nics: map<NicId, Nic>, list: seq<NicId>, speed: nat, n: NicId) returns (r: seq<NicId>)
      requires forall n :: n in list ==> n in nics
      ensures r == Inserted(list, InsertAt(nics, list, speed, 0), n)
    {
      var i := 0;
      while i < |list| && nics[list[i]].speed > speed
        invariant i <= |list| && InsertAt(nics, list, speed, 0) == InsertAt(nics, list, speed, i)
      {
        i := i + 1;
      }
      r := list[..i] + [n] + list[i..];
    }

    method InsertNicBySpeed(nic: Nic, isClient: bool)
      requires Shaped(View())
      modifies this`clients, this`servers, this`nics, this`nicState, this`possible, this`next
      ensures View() == InsertNic(old(View()), nic, isClient)
    {
      hide InsertAt, Inserted, Shaped, InsertNic, Steady;
      ListsKnown(View());
      InsertUnfold(View(), nic, isClient);
      var n := next;
      var list := PlaceBySpeed(nics, if isClient then clients else servers, nic.speed, n);
      if isClient { clients := list; } else { servers := list; }
      KeepNic(nic);
    }

    method KeepNic(nic: Nic)
      modifies this`nics, this`nicState, this`possible, this`next
      ensures View() == old(View()).(nics := old(nics)[old(next) := nic], nicState := old(nicState)[old(next) := Idle],
                                     possible := old(possible)[old(next) := []], next := old(next) + 1)
    {
      nics := nics[next := nic];
      nicState := nicState[next := Idle];
      possible := possible[next := []];
      next := next + 1;
    }

    /** One NIC of the update: changed in place, or inserted. */
    method ApplyUpdate(update: Nic, isClient: bool) returns (added: bool)
      requires WF(View()) && Shaped(View()) && !update.ignored
      modifies this`clients, this`servers, this`nics, this`nicState, this`possible, this`next, this`cons
      ensures View() == UpdateOne(old(View()), update, isClient)
      ensures WF(View()) && Shaped(View())
      ensures added == (|Side(View(), isClient)| > |Side(old(View()), isClient)|)
      ensures |Side(View(), isClient)| >= |Side(old(View()), isClient)|
    {
      hide WF, Shaped, Preserves, UpdateAddrs, ResetCons, InsertNic, FindNic;
      ghost var t := View();
      UpdateOneKeeps(t, update, isClient);
      PreservesWF(t, UpdateOne(t, update, isClient));
      ListsKnown(t);
      var list := if isClient then clients else servers;
      var found := FindNicByIndex(nics, list, update.index);
      FindNicListed(t, list, update.index);
      added := found.None?;
      if found.None? {
        InsertSides(t, update, isClient);
        InsertNicBySpeed(update, isClient);
      } else {
        var n := found.value;
        ResetSides(t, update, isClient);
        var nic, ipChange := UpdateIpList(nics[n], update);
        if ipChange || nics[n].speed != update.speed || nics[n].nicType != update.nicType {
          nics := nics[n := nic.(speed := update.speed, nicType := update.nicType)];
          ChangedWF(t, n, update, isClient);
          ResetConStatus(n, isClient);
        } else if isClient {
          ResetConStatus(n, isClient);
        }
      }
    }

    /** The NIC and its pairs are dropped if it has pairs and none of them can be used. */
    method RemoveNicIfUnused(n: NicId, isClient: bool)
      requires WF(View()) && Shaped(View()) && n in Side(View(), isClient) && n in nics
      modifies this`clients, this`servers, this`nics, this`nicState, this`possible, this`conList, this`cons
      ensures View() == DropIfUseless(old(View()), n, isClient)
    {
      hide WF, Shaped, NoDup, DropNic, Useless, Without, Slice;
      ghost var t := View();
      ConsListed(t);
      ListsKnown(t);
      var canRemove := CanRemove(n, isClient);
      if canRemove {
        RemovePairs(n, isClient);
        if isClient { clients := Without(clients, n); } else { servers := Without(servers, n); }
        nics := nics - {n};
        nicState := nicState - {n};
        possible := possible - {n};
        DropUnfold(t, n, isClient);
      }
    }

    method CanRemove(n: NicId, isClient: bool) returns (r: bool)
      requires n in nics && forall id :: id in cons <==> id in conList
      ensures r == Useless(View(), n, isClient)
    {
      var pairs := 0;
      for i := 0 to |conList|
        invariant pairs > 0 <==> exists j :: 0 <= j < i && EndOf(cons[conList[j]], isClient) == n
        invariant forall j :: 0 <= j < i && EndOf(cons[conList[j]], isClient) == n ==>
                    !nics[n].ignored && (cons[conList[j]].state == FailedToConnect ||
                      cons[conList[j]].state == NoPotential)
      {
        var c := cons[conList[i]];
        if (if isClient then c.client else c.server) == n {
          pairs := pairs + 1;
          if nics[n].ignored || (c.state != FailedToConnect && c.state != NoPotential) {
            assert conList[i] in PairsOf(View(), n, isClient);
            return false;
          }
        }
      }
      r := pairs > 0;
      if pairs > 0 {
        var j :| 0 <= j < |conList| && EndOf(cons[conList[j]], isClient) == n;
        assert conList[j] in PairsOf(View(), n, isClient);
      } else {
        assert PairsOf(View(), n, isClient) == {};
      }
    }

    /** The pairs of the NIC leave the table and their client NICs' lists. */
    method RemovePairs(n: NicId, isClient: bool)
      requires WF(View()) && Shaped(View())
      modifies this`possible, this`conList, this`cons
      ensures View() == PairsGone(old(View()), PairsOf(old(View()), n, isClient))
    {
      hide WF, Shaped, NoDup, PairsGone;
      ghost var t := View();
      ConsListed(t);
      ConsKnown(t);
      ListsKnown(t);
      PairsGoneNone(t);
      var all := conList;
      ghost var dead: set<ConId> := {};
      for i := 0 to |all|
        invariant View() == PairsGone(t, dead)
        invariant dead == set id | id in all[..i] && EndOf(t.cons[id], isClient) == n
      {
        var id := all[i];
        LastNew(all, i + 1);
        assert id !in dead;
        PairsGoneStep(t, dead, id);
        var c := cons[id];
        if (if isClient then c.client else c.server) == n {
          possible := possible[c.client := Without(possible[c.client], id)];
          conList := Without(conList, id);
          cons := cons - {id};
          dead := dead + {id};
        }
      }
      assert all[..|all|] == all;
      assert dead == PairsOf(t, n, isClient);
    }

    /** An update of one NIC list. */
    method UpdateNicList(updates: seq<Nic>, isClient: bool)
      requires WF(View()) && Shaped(View()) && forall u :: u in updates ==> !u.ignored
      modifies this
      ensures View() == Update(old(View()), updates, isClient)
      ensures WF(View()) && Shaped(View())
    {
      hide WF, Shaped, UpdateOne, DropIfUseless, Completed, Preserves, BusyKept, Steady;
      ghost var t := View();
      UpdateKeeps(t, updates, isClient);
      PreservesWF(t, Update(t, updates, isClient));
      var needUpdate := ApplyUpdates(updates, isClient);
      if needUpdate {
        CompletedPreserves(View());
        PreservesWF(View(), Completed(View()));
        UpdateConList();
      }
      RemoveUnused(isClient);
    }

    /** The NICs of the update, in order; tells whether there is a new one. */
    method ApplyUpdates(updates: seq<Nic>, isClient: bool) returns (needUpdate: bool)
      requires WF(View()) && Shaped(View()) && forall u :: u in updates ==> !u.ignored
      modifies this
      ensures View() == UpdateTo(old(View()), updates, isClient, |updates|) && WF(View()) && Shaped(View())
      ensures needUpdate == (|Side(View(), isClient)| > |Side(old(View()), isClient)|)
    {
      hide WF, Shaped, UpdateOne, Steady;
      ghost var t := View();
      needUpdate := false;
      for k := 0 to |updates|
        invariant View() == UpdateTo(t, updates, isClient, k) && WF(View()) && Shaped(View())
        invariant |Side(View(), isClient)| >= |Side(t, isClient)|
        invariant needUpdate == (|Side(View(), isClient)| > |Side(t, isClient)|)
      {
        var added := ApplyUpdate(updates[k], isClient);
        needUpdate := needUpdate || added;
      }
    }

    /** Every NIC of the list that no pair can use any more is dropped. */
    method RemoveUnused(isClient: bool)
      requires WF(View()) && Shaped(View())
      modifies this
      ensures var list := Side(old(View()), isClient); View() == DropTo(old(View()), list, isClient, |list|)
    {
      hide WF, Shaped, DropIfUseless, Preserves, Steady;
      ghost var t := View();
      var list := if isClient then clients else servers;
      for k := 0 to |list|
        invariant View() == DropTo(t, list, isClient, k)
      {
        DropToKeeps(t, isClient, k);
        PreservesWF(t, View());
        ListsKnown(View());
        RemoveNicIfUnused(list[k], isClient);
      }
    }

    // ----- Loading the client's interfaces -----

    /** One description: its NIC is brought up to date, or made. */
    method AddInterfaceInfo(info: NicInfo, rss: nat, ignored: bool, isClient: bool)
      requires Shaped(View())
      modifies this`clients, this`servers, this`nics, this`nicState, this`possible, this`next
      ensures View() == AddInfo(old(View()), info, rss, ignored, isClient)
    {
      hide Shaped, InsertNic, FindNic, Described, Steady;
      ListsKnown(View());
      var index := CopyIndex(info, rss);
      var list := if isClient then clients else servers;
      var found := FindNicByIndex(nics, list, index);
      FindNicListed(View(), list, index);
      if found.None? {
        InsertNicBySpeed(Described(BlankNic(index), info, ignored), isClient);
      } else {
        nics := nics[found.value := Described(nics[found.value], info, ignored)];
      }
    }

    method IsIgnored(index: nat) returns (r: bool)
      ensures r == (index in ignoreList)
    {
      for i := 0 to |ignoreList|
        invariant index !in ignoreList[..i]
      {
        if ignoreList[i] == index { return true; }
      }
      return false;
    }

    /** One description of the client and its RSS copies, of which an ignored interface has none. */
    method AddClientInfo(info: NicInfo, ignored: bool)
      requires Shaped(View())
      modifies this`clients, this`servers, this`nics, this`nicState, this`possible, this`next
      ensures View() == AddCopies(old(View()), info, ignored, true, Copies(info, clntRss, ignored))
    {
      hide Shaped, AddInfo, Steady;
      ghost var t := View();
      assert AddCopies(t, info, ignored, true, 0) == t;
      AddInterfaceInfo(info, 0, ignored, true);
      if !ignored && RssCapable(info) {
        var rss := 1;
        while rss < clntRss
          invariant 1 <= rss && (rss <= clntRss || rss == 1)
          invariant View() == AddCopies(t, info, ignored, true, rss)
        {
          AddInterfaceInfo(info, rss, ignored, true);
          rss := rss + 1;
        }
      }
    }

    /** The client's array of interfaces, in order, RSS forced on or not; what was taken before an error stays. */
    method ParseClientInterfaces(buf: seq<byte>, count: uint32, forceRss: bool) returns (error: bool)
      requires WF(View()) && Shaped(View())
      modifies this`clients, this`servers, this`nics, this`nicState, this`possible, this`next
      ensures var r := ReadEntries(buf, 0, count);
        View() == AddClients(old(View()), r.infos, forceRss, |r.infos|) && error == !r.ok
      ensures WF(View()) && Shaped(View())
    {
      hide WF, Shaped, AddCopies, AddClients, Copies, Forced, Steady, At, EntryAt, ReadEntries;
      ghost var t, r := View(), ReadEntries(buf, 0, count);
      AddClientsExtends(t, r.infos, forceRss, |r.infos|);
      AddClientsNone(t, forceRss);
      var off := 0;
      ghost var done: seq<NicInfo> := [];
      assert [] + r.infos == r.infos;
      for k := 0 to count
        invariant 0 <= off && Shaped(View()) && View() == AddClients(t, done, forceRss, |done|)
        invariant r == Preceded(done, ReadEntries(buf, off, count - k))
      {
        if off + ENTRY_SIZE > |buf| || off + ADDR_DATA + buf[off + ADDR_OFFSET] as nat > |buf| {
          ReadOut(buf, off, count - k, done);
          return true;
        }
        ReadStep(buf, off, count - k, done);
        var info := EntryAt(buf, off);
        AddClientsOne(t, done, info, forceRss);
        var forced := Forced(info, forceRss);
        var ignored := IsIgnored(forced.index as nat);
        AddClientInfo(forced, ignored);
        done := done + [info];
        var next := At(buf, off, 4);
        if next < ENTRY_SIZE {
          return true;
        }
        off := off + next;
      }
      ReadEnd(buf, off, done);
      return false;
    }

    /** After a reconnect the hopeless pairs of every client NIC may be tried again. */
    method ResetNicList()
      requires WF(View()) && Shaped(View())
      modifies this`cons
      ensures View() == ResetTo(old(View()), |clients|)
      ensures WF(View()) && Shaped(View())
    {
      hide WF, Shaped, ResetCons, Preserves;
      ghost var t := View();
      ListsKnown(t);
      for k := 0 to |clients|
        invariant WF(View()) && Shaped(View()) && View() == ResetTo(t, k)
      {
        ResetConStatus(clients[k], true);
        ResetToKeeps(t, k + 1);
        PreservesWF(t, ResetTo(t, k + 1));
      }
    }

    // ----- Pausing -----

    method PauseTrials()
      modifies this`pause
      ensures View() == old(View()).(pause := (old(pause) + 1) % UINT32)
    {
      pause := (pause + 1) % UINT32;
    }

    method ResumeTrials()
      modifies this`pause
      ensures View() == old(View()).(pause := if old(pause) > 0 then old(pause) - 1 else 0)
    {
      if pause > 0 { pause := pause - 1; }
    }
  }
}
