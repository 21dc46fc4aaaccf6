/**
 What a report leaves behind: every pair and every NIC after a trial was reported, a channel went down
 or the main channel came up.
 */
module McOutcome {
  import opened Options
  import opened McTypes
  import opened McConList
  import opened McReport
  import opened McNotifier
  import opened McRuns

  // ----- Repairing and completing -----

  /** The NIC is used or on trial as the last pair that holds it says, and `otherwise` if none does. */
  ghost predicate NicAsHeld(t: Table, n: NicId, otherwise: NicState)
    requires PairsKnown(t.cons, t.conList)
  {
    && n in t.nicState
    && (Unheld(t.cons, t.conList, |t.conList|, n) ==> t.nicState[n] == otherwise)
    && forall i: nat :: i < |t.conList| && LastHolder(t.cons, t.conList, |t.conList|, n, i) ==>
         t.nicState[n] == if t.cons[t.conList[i]].state == Connected then Used else OnTrial
  }

  lemma ShapedKnown(t: Table)
    requires Shaped(t)
    ensures PairsKnown(t.cons, t.conList)
  {
  }

  /** The pairs of the longer list that are not in the shorter one hold nothing, the others hold what they held. */
  ghost predicate HoldsAlike(cons: map<ConId, Con>, list: seq<ConId>, cons': map<ConId, Con>, list': seq<ConId>)
    requires PairsKnown(cons, list) && PairsKnown(cons', list')
  {
    && list <= list'
    && (forall i :: 0 <= i < |list| && (Holding(cons[list[i]].state) || Holding(cons'[list[i]].state)) ==>
          cons'[list[i]] == cons[list[i]])
    && forall i :: |list| <= i < |list'| ==> !Holding(cons'[list'[i]].state)
  }

  lemma HoldersAlike(cons: map<ConId, Con>, list: seq<ConId>, cons': map<ConId, Con>, list': seq<ConId>, n: NicId)
    requires PairsKnown(cons, list) && PairsKnown(cons', list') && HoldsAlike(cons, list, cons', list')
    ensures Unheld(cons', list', |list'|, n) ==> Unheld(cons, list, |list|, n)
    ensures forall i: nat :: i < |list'| && LastHolder(cons', list', |list'|, n, i) ==>
      && i < |list| && LastHolder(cons, list, |list|, n, i)
      && cons'[list'[i]] == cons[list[i]]
  {
    forall i | 0 <= i < |list|
      ensures Holds(cons'[list'[i]], n) <==> Holds(cons[list[i]], n)
    {
    }
  }

  lemma CompletedHolds(t: Table)
    requires WF(t) && Shaped(t)
    ensures var r := Completed(t);
      && WF(r) && PairsKnown(t.cons, t.conList) && PairsKnown(r.cons, r.conList)
      && HoldsAlike(t.cons, t.conList, r.cons, r.conList)
  {
    hide WF, Completed, NoStarvation, Grown;
    var r := Completed(t);
    CompletedSound(t);
    CompletedPairs(t);
    ConsListed(t);
    ConsListed(r);
    ShapedKnown(t);
    ShapedKnown(r);
    forall i | |t.conList| <= i < |r.conList|
      ensures !Holding(r.cons[r.conList[i]].state)
    {
      assert r.conList[i] !in t.conList;
      assert Born(r, r.cons[r.conList[i]]);
    }
  }

  /** Every NIC is as the pairs that hold it say, or as it was; pairs are new, unparked or as they were. */
  ghost predicate Mended(t: Table, r: Table) {
    && WF(r) && Shaped(r) && PairsKnown(r.cons, r.conList)
    && r == t.(nicState := r.nicState, conList := r.conList, cons := r.cons, possible := r.possible, next := r.next)
    && r.nicState.Keys == t.nicState.Keys
    && (forall n :: n in t.nicState ==> NicAsHeld(r, n, t.nicState[n]))
    && (forall id :: id in r.cons && id !in t.cons ==> Born(r, r.cons[id]))
    && forall id :: id in t.cons ==> id in r.cons && Reopened(r, t.cons[id], r.cons[id])
  }

  /** So it is after the repair and the completion. */
  lemma MendedMeans(t: Table)
    requires WF(t) && Shaped(t)
    ensures Mended(t, Completed(RepairTable(t)))
  {
    hide WF, Completed, Repaired, NicAsHeld, HoldsAlike, NoIdleInUse, Born;
    var p, r := RepairTable(t), Completed(RepairTable(t));
    RepairTableSound(t);
    CompletedHolds(p);
    CompletedPairs(p);
    forall n | n in t.nicState
      ensures NicAsHeld(r, n, t.nicState[n])
    {
      RepairedExact(t.nicState, t.cons, t.conList, |t.conList|, n);
      HoldersAlike(t.cons, t.conList, r.cons, r.conList, n);
      MendedNic(t, r, n);
    }
  }

  lemma MendedNic(t: Table, r: Table, n: NicId)
    requires Shaped(t) && PairsKnown(t.cons, t.conList) && PairsKnown(r.cons, r.conList) && n in t.nicState
    requires r.nicState == RepairTable(t).nicState
    requires Unheld(t.cons, t.conList, |t.conList|, n) ==> r.nicState[n] == t.nicState[n]
    requires forall i: nat :: i < |t.conList| && LastHolder(t.cons, t.conList, |t.conList|, n, i) ==>
      r.nicState[n] == if t.cons[t.conList[i]].state == Connected then Used else OnTrial
    requires Unheld(r.cons, r.conList, |r.conList|, n) ==> Unheld(t.cons, t.conList, |t.conList|, n)
    requires forall i: nat :: i < |r.conList| && LastHolder(r.cons, r.conList, |r.conList|, n, i) ==>
      && i < |t.conList| && LastHolder(t.cons, t.conList, |t.conList|, n, i)
      && r.cons[r.conList[i]] == t.cons[t.conList[i]]
    ensures NicAsHeld(r, n, t.nicState[n])
  {
    hide Repaired, LastHolder, Unheld;
  }

  /** The pair is as it was, but to be tried again if it was parked and both its NICs are idle now. */
  predicate Reopened(r: Table, c: Con, c': Con) {
    && EndStates(r.nicState, c)
    && c' == if c.state == Surplus && Free(r.nicState, c) then c.(state := Potential) else c
  }

  /** Only the pairs, the NIC states and the success list may differ; new pairs are born. */
  ghost predicate Around(t: Table, r: Table) {
    && WF(r) && Shaped(r) && PairsKnown(r.cons, r.conList)
    && r == t.(nicState := r.nicState, conList := r.conList, cons := r.cons, possible := r.possible, next := r.next,
               success := r.success, trials := r.trials)
    && r.nicState.Keys == t.nicState.Keys
    && (forall id :: id in t.cons ==> id in r.cons)
    && forall id :: id in r.cons && id !in t.cons ==> Born(r, r.cons[id])
  }

  // ----- A channel goes down -----

  /** The NIC is at one end of the pair. */
  predicate EndOfPair(c: Con, n: NicId) {
    c.client == n || c.server == n
  }

  /**
   The pair of a channel that went down may be tried again, unless it was hopeless, and has no iod.  Every
   other pair is as it was, or was parked and has two idle NICs now.  Every NIC is as the pairs that hold it
   say, and a NIC of the pair that nothing else holds is idle.
   */
  lemma DisconnectMeans(t: Table, id: ConId)
    requires WF(t) && Shaped(t) && id in t.cons
    ensures var r, d := Disconnect(t, id), t.cons[id];
      && Around(t, r) && r.trials == t.trials
      && r.cons[id] == d.(iod := None, state := if d.state == FailedToConnect || d.state == NoPotential then d.state
                                                else Potential)
      && (forall k :: k in t.cons && k != id ==> Reopened(r, t.cons[k], r.cons[k]))
      && forall n :: n in t.nicState ==> NicAsHeld(r, n, if EndOfPair(d, n) then Idle else t.nicState[n])
  {
    hide WF, NicAsHeld, Born, Shaped, Dropped, Disconnect;
    DisconnectIs(t, id);
  }

  lemma DisconnectIs(t: Table, id: ConId)
    requires WF(t) && Shaped(t) && id in t.cons
    ensures var f, d := Dropped(t, id), t.cons[id];
      && Mended(f, Disconnect(t, id))
      && f == t.(cons := f.cons, nicState := f.nicState, success := f.success)
      && f.cons == t.cons[id := d.(iod := None, state := if d.state == FailedToConnect || d.state == NoPotential
                                                         then d.state else Potential)]
      && f.nicState.Keys == t.nicState.Keys
      && forall n :: n in t.nicState ==> f.nicState[n] == if EndOfPair(d, n) then Idle else t.nicState[n]
  {
    hide WF, Mended, Completed, RepairTable;
    DroppedWF(t, id);
    MendedMeans(Dropped(t, id));
  }

  // ----- A trial is reported -----

  /** The pairs have a NIC in common. */
  predicate Near(c: Con, d: Con) {
    c.client == d.client || c.server == d.server
  }

  /** What another pair becomes when `d` connects: parked if it was to be tried at one of the NICs of `d`. */
  predicate Parked(r: Table, c: Con, d: Con, c': Con) {
    if Near(c, d) then c' == c.(state := if c.state == Potential then Surplus else c.state) else Reopened(r, c, c')
  }

  lemma MarkedMeans(t: Table, id: ConId, iod: Option<Iod>)
    requires WF(t) && Shaped(t) && id in t.cons
    ensures var d := t.cons[id];
      var m := Marked(t, d.client, d.server, iod);
      && m == t.(cons := m.cons, nicState := t.nicState[d.client := Used][d.server := Used],
                 success := t.success + [id])
      && m.cons.Keys == t.cons.Keys
      && m.cons[id] == d.(iod := if iod.Some? then iod else d.iod, state := Connected, speed := LinkSpeed(t.nics, d))
      && forall k :: k in t.cons && k != id ==>
           m.cons[k] == if Near(t.cons[k], d) && t.cons[k].state == Potential then t.cons[k].(state := Surplus)
                        else t.cons[k]
  {
    hide WF, FindCon, FindNic, LinkSpeed;
    ReportFinds(t, id);
  }

  lemma HeldNic(t: Table, id: ConId, n: NicId, a: NicState, b: NicState)
    requires WF(t) && Shaped(t) && PairsKnown(t.cons, t.conList) && id in t.cons && Holds(t.cons[id], n)
    requires NicAsHeld(t, n, a)
    ensures NicAsHeld(t, n, b)
  {
    hide WF, Shaped, LastHolder;
    ListedCons(t);
    var i :| 0 <= i < |t.conList| && t.conList[i] == id;
  }

  /**
   The pair of a trial that passed is connected at the speed of its slower NIC, with the iod it has, and joins
   the success list; the pairs to be tried at either NIC are parked; every other pair is as it was, or was
   parked and has two idle NICs now.  Every NIC is as the pairs that hold it say.
   */
  lemma PassMeans(t: Table, id: ConId)
    requires WF(t) && Shaped(t) && id in t.cons
    ensures var r, d := Report(t, id, true), t.cons[id];
      && Around(t, r) && r.success == t.success + [id]
      && r.cons[id] == d.(state := Connected, speed := LinkSpeed(t.nics, d))
      && (forall k :: k in t.cons && k != id ==> Parked(r, t.cons[k], d, r.cons[k]))
      && forall n :: n in t.nicState ==> NicAsHeld(r, n, t.nicState[n])
  {
    hide WF, NicAsHeld, Born, Marked, LinkSpeed, NoStarvation, Shaped, Report;
    var d, r := t.cons[id], Report(t, id, true);
    PassIs(t, id);
    var m := Marked(t.(trials := Decrement(t.trials)), d.client, d.server, None);
    ReportKeeps(t, id, true);
    PassParks(t, m, r, id);
    forall n | n in t.nicState
      ensures NicAsHeld(r, n, t.nicState[n])
    {
      assert NicAsHeld(r, n, m.nicState[n]);
      if EndOfPair(d, n) {
        HeldNic(r, id, n, m.nicState[n], t.nicState[n]);
      }
    }
  }

  lemma PassIs(t: Table, id: ConId)
    requires WF(t) && Shaped(t) && id in t.cons
    ensures var t0, d := t.(trials := Decrement(t.trials)), t.cons[id];
      && Shaped(t0) && d.client in t.nics && d.server in t.nics && EndsKnown(t.nics, d)
      && var m := Marked(t0, d.client, d.server, None);
      && Mended(m, Report(t, id, true))
      && m == t0.(cons := m.cons, nicState := t.nicState[d.client := Used][d.server := Used],
                  success := t.success + [id])
      && m.nicState.Keys == t.nicState.Keys && m.cons.Keys == t.cons.Keys
      && m.cons[id] == d.(state := Connected, speed := LinkSpeed(t.nics, d))
      && forall k :: k in t.cons && k != id ==>
           m.cons[k] == if Near(t.cons[k], d) && t.cons[k].state == Potential then t.cons[k].(state := Surplus)
                        else t.cons[k]
  {
    hide WF, Mended, Completed, RepairTable, Marked, FindNic, FindCon;
    var t0, d := t.(trials := Decrement(t.trials)), t.cons[id];
    RestateWF(t, t.nicState, t.pause, t0.trials, t.success);
    ReportFinds(t, id);
    MarkedMeans(t0, id, None);
    MarkedWF(t0, d.client, d.server, None);
    MendedMeans(Marked(t0, d.client, d.server, None));
  }

  lemma PassParks(t: Table, m: Table, r: Table, id: ConId)
    requires Shaped(r) && NoIdleInUse(r) && id in t.cons && id in r.cons && id in m.cons && m.cons.Keys == t.cons.Keys
    requires r.cons[id] == m.cons[id] && m.cons[id].state == Connected && SamePair(m.cons[id], t.cons[id])
    requires forall k :: k in t.cons && k != id ==>
           m.cons[k] == if Near(t.cons[k], t.cons[id]) && t.cons[k].state == Potential then t.cons[k].(state := Surplus)
                        else t.cons[k]
    requires forall k :: k in m.cons ==> k in r.cons && Reopened(r, m.cons[k], r.cons[k])
    ensures forall k :: k in t.cons && k != id ==> Parked(r, t.cons[k], t.cons[id], r.cons[k])
  {
    hide Shaped;
    assert Taken(r.nicState, r.cons[id]);
  }

  /** The two NICs are one interface, or RSS copies of one: their indices agree in the low 32 bits. */
  predicate OneInterface(a: Nic, b: Nic) {
    a.index % 0x1_0000_0000 == b.index % 0x1_0000_0000
  }

  /** The pairs join the same two interfaces. */
  predicate Twins(nics: map<NicId, Nic>, c: Con, d: Con)
    requires EndsKnown(nics, c) && EndsKnown(nics, d)
  {
    OneInterface(nics[c.client], nics[d.client]) && OneInterface(nics[c.server], nics[d.server])
  }

  lemma TwinsAreSiblings(nics: map<NicId, Nic>, c: Con, d: Con)
    requires EndsKnown(nics, c) && EndsKnown(nics, d)
    ensures Twins(nics, c, d) <==> Sibling(nics, c, d)
    ensures OneInterface(nics[c.client], nics[d.client]) <==>
      BaseIndex(nics[c.client].index) == BaseIndex(nics[d.client].index)
  {
  }

  /** What another pair becomes when the trial of `d` failed: an RSS sibling fails with it, and a parked pair of the
      client interface or of the server NIC may be tried again. */
  predicate Missed(t: Table, r: Table, c: Con, d: Con, c': Con)
    requires EndsKnown(t.nics, c) && EndsKnown(t.nics, d)
  {
    if Twins(t.nics, c, d) then c' == c.(state := FailedToConnect)
    else if OneInterface(t.nics[c.client], t.nics[d.client]) || c.server == d.server then
      c' == if c.state == Surplus then c.(state := Potential) else c
    else Reopened(r, c, c')
  }

  /**
   The pair of a trial that failed is failed and has no iod, and so are its RSS siblings, which keep theirs; parked
   pairs of the client interface or the server NIC, and those with two idle NICs now, may be tried again; every
   other pair is as it was.  Every NIC is as the pairs that hold it say, and the two of the trial, if nothing else
   holds them, are idle.
   */
  lemma FailMeans(t: Table, id: ConId)
    requires WF(t) && Shaped(t) && id in t.cons
    ensures var r, d := Report(t, id, false), t.cons[id];
      && Around(t, r) && r.success == t.success
      && r.cons[id] == d.(state := FailedToConnect, iod := None)
      && (forall k :: k in t.cons && k != id ==> Missed(t, r, t.cons[k], d, r.cons[k]))
      && forall n :: n in t.nicState ==> NicAsHeld(r, n, if EndOfPair(d, n) then Idle else t.nicState[n])
  {
    hide WF, NicAsHeld, Born, FailTrial, Shaped, Report, Spread, Missed;
    FailIs(t, id);
    FailTrialMeans(t, id);
    var f, r := FailTrial(t, id), Report(t, id, false);
    forall k | k in t.cons && k != id
      ensures Missed(t, r, t.cons[k], t.cons[id], r.cons[k])
    {
      SpreadMissed(t, r, t.cons[k], t.cons[id], f.cons[k], r.cons[k]);
    }
  }

  lemma FailIs(t: Table, id: ConId)
    requires WF(t) && Shaped(t) && id in t.cons
    ensures Mended(FailTrial(t, id).(trials := Decrement(t.trials)), Report(t, id, false))
  {
    hide WF, Mended, Completed, RepairTable;
    var t0 := t.(trials := Decrement(t.trials));
    RestateWF(t, t.nicState, t.pause, t0.trials, t.success);
    FailTrialWF(t0, id);
    MendedMeans(FailTrial(t0, id));
    assert FailTrial(t0, id) == FailTrial(t, id).(trials := Decrement(t.trials));
  }

  /** What another pair is once the failure has spread to the siblings, before the NIC states are repaired. */
  predicate Spread(t: Table, c: Con, d: Con, c': Con)
    requires EndsKnown(t.nics, c) && EndsKnown(t.nics, d)
  {
    if Twins(t.nics, c, d) then c' == c.(state := FailedToConnect)
    else if OneInterface(t.nics[c.client], t.nics[d.client]) || c.server == d.server then
      c' == if c.state == Surplus then c.(state := Potential) else c
    else c' == c
  }

  lemma SpreadMissed(t: Table, r: Table, c: Con, d: Con, f: Con, c': Con)
    requires EndsKnown(t.nics, c) && EndsKnown(t.nics, d) && Spread(t, c, d, f) && Reopened(r, f, c')
    ensures Missed(t, r, c, d, c')
  {
  }

  lemma FailTrialMeans(t: Table, id: ConId)
    requires WF(t) && Shaped(t) && id in t.cons
    ensures forall k :: k in t.cons ==> EndsKnown(t.nics, t.cons[k])
    ensures var f, d := FailTrial(t, id), t.cons[id];
      && f == t.(cons := f.cons, nicState := f.nicState) && f.cons.Keys == t.cons.Keys
      && f.nicState.Keys == t.nicState.Keys
      && (forall n :: n in t.nicState ==> f.nicState[n] == if EndOfPair(d, n) then Idle else t.nicState[n])
      && f.cons[id] == d.(state := FailedToConnect, iod := None)
      && forall k :: k in t.cons && k != id ==> Spread(t, t.cons[k], d, f.cons[k])
  {
    hide WF, BaseIndex, OneInterface;
    ServerByIndex(t);
    forall k | k in t.cons
      ensures EndsKnown(t.nics, t.cons[k])
      ensures Twins(t.nics, t.cons[k], t.cons[id]) <==> Sibling(t.nics, t.cons[k], t.cons[id])
      ensures OneInterface(t.nics[t.cons[k].client], t.nics[t.cons[id].client]) <==>
        BaseIndex(t.nics[t.cons[k].client].index) == BaseIndex(t.nics[t.cons[id].client].index)
    {
      TwinsAreSiblings(t.nics, t.cons[k], t.cons[id]);
    }
  }

  /** Server NICs are told apart by their indices. */
  lemma ServerByIndex(t: Table)
    requires WF(t) && Shaped(t)
    ensures forall a, b ::
      a in t.cons && b in t.cons && SameIndex(t.nics[t.cons[a].server], t.nics[t.cons[b].server]) ==>
        t.cons[a].server == t.cons[b].server
  {
    hide NoDup, UniquePairs, Slice, SlicesOk;
    assert forall id :: id in t.cons ==> t.cons[id].server in t.servers;
  }

  // ----- The main channel comes up -----

  /** The NIC is no RSS copy and has the address. */
  predicate Reaches(nic: Nic, ip: Addr) {
    (nic.index / UINT32) % RSS_INDEX_VALUES == 0 && ip in nic.addrs
  }

  /** The first NIC of the list that has the address is that at `i`. */
  ghost predicate FirstReaching(t: Table, list: seq<NicId>, ip: Addr, i: nat)
    requires forall n :: n in list ==> n in t.nics
  {
    i < |list| && Reaches(t.nics[list[i]], ip) && forall j :: 0 <= j < i ==> !Reaches(t.nics[list[j]], ip)
  }

  lemma {:induction false} FindsFirst(t: Table, list: seq<NicId>, ip: Addr, i: nat, k: nat)
    requires (forall n :: n in list ==> n in t.nics) && FirstReaching(t, list, ip, i) && k <= i
    ensures FindByIp(t.nics, list, ip, k) == Some(list[i])
    decreases i - k
  {
    if k < i {
      FindsFirst(t, list, ip, i, k + 1);
    }
  }

  /** With an address that no NIC has, nothing changes. */
  lemma MainUpUnknown(t: Table, clientIp: Addr, serverIp: Addr, iod: Iod)
    requires Shaped(t)
    requires (forall n :: n in t.clients ==> !Reaches(t.nics[n], clientIp)) ||
      (forall n :: n in t.servers ==> !Reaches(t.nics[n], serverIp))
    ensures MainChannel(t, clientIp, serverIp, iod) == t
  {
  }

  /**
   The main channel comes up on the first NICs that have its two addresses.  Their pair, if it is in the table, is
   connected with the iod at the speed of its slower NIC and joins the success list, and both NICs are used.  The
   other pairs to be tried at either NIC are parked, and nothing else changes.
   */
  lemma MainUpMeans(t: Table, clientIp: Addr, serverIp: Addr, iod: Iod, i: nat, j: nat)
    requires WF(t) && Shaped(t)
    requires FirstReaching(t, t.clients, clientIp, i) && FirstReaching(t, t.servers, serverIp, j)
    ensures var r, cn, sn := MainChannel(t, clientIp, serverIp, iod), t.clients[i], t.servers[j];
      && r == t.(cons := r.cons, nicState := r.nicState, success := r.success) && r.cons.Keys == t.cons.Keys
      && (!HasPair(t, cn, sn) ==> r.nicState == t.nicState && r.success == t.success)
      && forall id :: id in t.cons ==>
           var c := t.cons[id];
           if c.client == cn && c.server == sn then
             && r.cons[id] == c.(iod := Some(iod), state := Connected, speed := LinkSpeed(t.nics, c))
             && r.nicState == t.nicState[cn := Used][sn := Used] && r.success == t.success + [id]
           else if c.state == Potential && (c.client == cn || c.server == sn) then r.cons[id] == c.(state := Surplus)
           else r.cons[id] == c
  {
    hide WF, FindByIp, LinkSpeed, FindCon;
    FindsFirst(t, t.clients, clientIp, i, 0);
    FindsFirst(t, t.servers, serverIp, j, 0);
    FindConUnique(t, t.clients[i], t.servers[j]);
  }

  // ----- The client NICs are reset -----

  /** What a reset does to a pair: nothing behind an ignore-listed NIC; a hopeless one may be tried again; any other
      gets the speed of its slower NIC. */
  function Renewed(nics: map<NicId, Nic>, c: Con): Con
    requires EndsKnown(nics, c)
  {
    if nics[c.client].ignored then c
    else if c.state == FailedToConnect || c.state == NoPotential then c.(state := Potential)
    else c.(speed := Min(nics[c.client].speed, nics[c.server].speed))
  }

  lemma {:induction false} ResetToMeans(t: Table, k: nat)
    requires WF(t) && Shaped(t) && k <= |t.clients|
    ensures ResetTo(t, k).cons.Keys == t.cons.Keys
    ensures forall id :: id in t.cons ==>
      ResetTo(t, k).cons[id] == if t.cons[id].client in t.clients[..k] then Renewed(t.nics, t.cons[id]) else t.cons[id]
  {
    hide WF, Shaped, Steady, ResetTo, ResetCons, Min, NoDup;
    ResetToStep(t, k);
    if k > 0 {
      ResetToMeans(t, k - 1);
      ClientsOnce(t);
      LastNew(t.clients, k);
      ResetOnce(ResetTo(t, k - 1), t.clients[k - 1]);
      assert forall id :: id in t.cons ==> ResetTo(t, k - 1).cons[id].client == t.cons[id].client;
    }
  }

  lemma ResetToStep(t: Table, k: nat)
    requires Shaped(t) && k <= |t.clients|
    ensures k == 0 ==> ResetTo(t, k) == t
    ensures k > 0 ==>
      && Shaped(ResetTo(t, k - 1)) && ResetTo(t, k - 1) == t.(cons := ResetTo(t, k - 1).cons)
      && t.clients[k - 1] in t.nics && ResetTo(t, k) == ResetCons(ResetTo(t, k - 1), t.clients[k - 1], true)
  {
  }

  lemma ResetOnce(t: Table, n: NicId)
    requires Shaped(t) && n in t.nics
    ensures var r := ResetCons(t, n, true);
      && r.cons.Keys == t.cons.Keys
      && forall id :: id in t.cons ==>
           && EndsKnown(t.nics, t.cons[id])
           && r.cons[id] == if t.cons[id].client == n then Renewed(t.nics, t.cons[id]) else t.cons[id]
  {
  }

  lemma ClientsOnce(t: Table)
    requires WF(t)
    ensures NoDup(t.clients)
  {
    hide NoDup, ConsOk, SlicesOk;
  }

  /** After a reset no pair is hopeless, save behind ignore-listed NICs, and nothing but the pairs changes. */
  lemma ResetMeans(t: Table)
    requires WF(t) && Shaped(t)
    ensures var r := ResetTo(t, |t.clients|);
      && r == t.(cons := r.cons) && r.cons.Keys == t.cons.Keys
      && (forall id :: id in t.cons ==> r.cons[id] == Renewed(t.nics, t.cons[id]))
      && forall id :: id in t.cons && !t.nics[t.cons[id].client].ignored ==>
           r.cons[id].state != FailedToConnect && r.cons[id].state != NoPotential
  {
    hide WF, ResetTo;
    ResetToMeans(t, |t.clients|);
    EndsListed(t);
    assert t.clients[..|t.clients|] == t.clients;
  }
}
