/**
 What the loops of the connection table do, one turn at a time.
 */
module McLoops {
  import opened Options
  import opened McTypes
  import opened McConList
  import opened McReport
  import opened McStats
  import opened McTrial
  import opened McExcess
  import opened McNotifier
  import opened McRuns

  lemma ServerKnown(t: Table, s: NicId)
    requires Shaped(t) && s in t.servers
    ensures s in t.nics
  {
  }

  /** The pairs after the loop over the first `k` pairs of client NIC `cn`, one of which may be the target. */
  ghost function ClientMarked(t: Table, target: Option<ConId>, cn: NicId, iod: Option<Iod>, k: nat): map<ConId, Con>
    requires Shaped(t) && cn in t.nics && k <= |t.possible[cn]|
  {
    map id | id in t.cons ::
      var c := t.cons[id];
      if id in t.possible[cn][..k] then ClientMarkedCon(t.nics, c, target == Some(id), iod) else c
  }

  /** What the loop does to one pair of the client NIC. */
  function ClientMarkedCon(nics: map<NicId, Nic>, c: Con, isTarget: bool, iod: Option<Iod>): Con
    requires EndsKnown(nics, c)
  {
    if isTarget then c.(iod := if iod.Some? then iod else c.iod, state := Connected, speed := LinkSpeed(nics, c))
    else if c.state == Potential then c.(state := Surplus)
    else c
  }

  lemma ClientMarkedNone(t: Table, target: Option<ConId>, cn: NicId, iod: Option<Iod>)
    requires Shaped(t) && cn in t.nics
    ensures ClientMarked(t, target, cn, iod, 0) == t.cons
  {
  }

  lemma ClientMarkedStep(t: Table, target: Option<ConId>, cn: NicId, iod: Option<Iod>, k: nat)
    requires Shaped(t) && cn in t.nics && k < |t.possible[cn]|
    requires t.possible[cn][..k + 1] == t.possible[cn][..k] + [t.possible[cn][k]] &&
      t.possible[cn][k] !in t.possible[cn][..k]
    requires t.possible[cn][k] in t.cons
    ensures var id := t.possible[cn][k];
            && id in ClientMarked(t, target, cn, iod, k) && ClientMarked(t, target, cn, iod, k)[id] == t.cons[id]
            && ClientMarked(t, target, cn, iod, k + 1) ==
               ClientMarked(t, target, cn, iod, k)[id := ClientMarkedCon(t.nics, t.cons[id], target == Some(id), iod)]
  {
  }

  /** The client NIC's list holds its pairs, each once; the target is the one whose server NIC has the given index. */
  lemma ClientPairs(t: Table, cn: NicId, sn: NicId)
    requires WF(t) && Shaped(t) && cn in t.clients && sn in t.servers
    ensures cn in t.nics && sn in t.nics && cn in t.possible && NoDup(t.possible[cn])
    ensures forall id :: id in t.possible[cn] ==>
      id in t.cons && t.cons[id].client == cn && EndsKnown(t.nics, t.cons[id])
    ensures forall id :: id in t.possible[cn] ==>
              (t.nics[t.cons[id].server].index == t.nics[sn].index <==>
                FindCon(t.cons, t.conList, cn, sn, 0) == Some(id))
    ensures forall id :: id in t.possible[cn] && t.nics[t.cons[id].server].index == t.nics[sn].index ==>
      t.cons[id].server == sn
    ensures FindCon(t.cons, t.conList, cn, sn, 0).Some? ==>
      FindCon(t.cons, t.conList, cn, sn, 0).value in t.possible[cn]
  {
    hide UniqueIndices, NoDup, Slice;
    SliceMembers(t.conList, t.cons, cn);
    SliceNoDup(t.conList, t.cons, cn);
    FindConUnique(t, cn, sn);
    hide UniquePairs;
    forall id | id in t.possible[cn] && t.nics[t.cons[id].server].index == t.nics[sn].index
      ensures t.cons[id].server == sn
    {
      IndexUnique(t, t.cons[id].server, sn);
    }
  }

  lemma IndexUnique(t: Table, a: NicId, b: NicId)
    requires NicsOk(t) && a in t.servers && b in t.servers && t.nics[a].index == t.nics[b].index
    ensures a == b
  {
    hide NoDup;
    assert SameIndex(t.nics[a], t.nics[b]);
  }

  // ----- Loops over a list of pairs -----

  /** The pairs after a loop has given the first `k` pairs of the list their final contents. */
  ghost function Blend(cons: map<ConId, Con>, final: map<ConId, Con>, list: seq<ConId>, k: nat): map<ConId, Con>
    requires k <= |list|
  {
    map id | id in cons :: if id in list[..k] && id in final then final[id] else cons[id]
  }

  lemma BlendStep(cons: map<ConId, Con>, final: map<ConId, Con>, list: seq<ConId>, k: nat)
    requires k < |list| && NoDup(list) && list[k] in cons && list[k] in final
    ensures list[k] in Blend(cons, final, list, k) && Blend(cons, final, list, k)[list[k]] == cons[list[k]]
    ensures Blend(cons, final, list, k + 1) == Blend(cons, final, list, k)[list[k] := final[list[k]]]
  {
    LastNew(list, k + 1);
  }

  lemma BlendEnds(cons: map<ConId, Con>, final: map<ConId, Con>, list: seq<ConId>)
    requires final.Keys == cons.Keys && forall id :: id in cons && final[id] != cons[id] ==> id in list
    ensures Blend(cons, final, list, 0) == cons && Blend(cons, final, list, |list|) == final
  {
    assert list[..|list|] == list;
  }

  /** The potential pairs of the server NIC parked. */
  ghost function ServerParked(cons: map<ConId, Con>, sn: NicId): (r: map<ConId, Con>)
    ensures r.Keys == cons.Keys
  {
    map id | id in cons :: if cons[id].server == sn && cons[id].state == Potential then cons[id].(state := Surplus)
      else cons[id]
  }

  lemma ServerPairs(t: Table, sn: NicId)
    requires WF(t) && Shaped(t) && sn in t.servers
    ensures NoDup(t.conList) && sn in t.nics
    ensures forall id :: id in t.cons <==> id in t.conList
    ensures forall id :: id in t.cons ==>
      t.cons[id].server in t.nics && (t.nics[t.cons[id].server].index == t.nics[sn].index <==> t.cons[id].server == sn)
    ensures forall id :: id in t.cons ==>
              ServerParked(t.cons, sn)[id] == if t.cons[id].server == sn &&
                t.cons[id].state == Potential then t.cons[id].(state := Surplus) else t.cons[id]
  {
    hide UniqueIndices, UniquePairs, NoDup, Slice, SlicesOk;
    forall id | id in t.cons && t.nics[t.cons[id].server].index == t.nics[sn].index
      ensures t.cons[id].server == sn
    {
      IndexUnique(t, t.cons[id].server, sn);
    }
  }

  lemma ListsKnown(t: Table)
    requires Shaped(t)
    ensures forall n :: n in t.clients || n in t.servers ==> n in t.nics && n in t.nicState && n in t.possible
    ensures forall id :: id in t.conList ==> id in t.cons
  {
  }

  lemma FindNicListed(t: Table, list: seq<NicId>, index: nat)
    requires forall n :: n in list ==> n in t.nics
    ensures FindNic(t.nics, list, index, 0).Some? ==> FindNic(t.nics, list, index, 0).value in list
  {
  }

  /** The table after the first loop. */
  ghost predicate HalfMarked(t: Table, t': Table, con: Option<ConId>, cn: NicId, iod: Option<Iod>)
    requires Shaped(t) && cn in t.nics
  {
    && t' == t.(cons := t'.cons, nicState := t'.nicState, success := t'.success) && t'.nicState.Keys == t.nicState.Keys
    && t'.cons == ClientMarked(t, con, cn, iod, |t.possible[cn]|)
  }

  lemma ClientMarkedWF(t: Table, t': Table, con: Option<ConId>, cn: NicId, iod: Option<Iod>)
    requires WF(t) && Shaped(t) && cn in t.nics && HalfMarked(t, t', con, cn, iod)
    ensures WF(t') && Shaped(t')
  {
    hide WF;
    ReconsWF(t, t'.cons);
    RestateWF(t.(cons := t'.cons), t'.nicState, t.pause, t.trials, t'.success);
  }

  lemma BothMarkedCon(t: Table, id: ConId, target: Option<ConId>, cn: NicId, sn: NicId, iod: Option<Iod>)
    requires Shaped(t) && id in t.cons && cn in t.nics
    requires t.cons[id].client == cn <==> id in t.possible[cn]
    requires target == Some(id) ==> id in t.possible[cn]
    ensures var half := ClientMarked(t, target, cn, iod, |t.possible[cn]|);
            id in half && ServerParked(half, sn)[id] == MarkedCon(t.nics, id, t.cons[id], target, cn, sn, iod)
  {
    assert t.possible[cn][..|t.possible[cn]|] == t.possible[cn];
  }

  /** The two loops together mark the pairs as a new connection demands. */
  lemma BothMarked(t: Table, cn: NicId, sn: NicId, iod: Option<Iod>)
    requires WF(t) && Shaped(t) && cn in t.clients && sn in t.servers
    requires cn in t.nics && sn in t.nics
    ensures var con := FindCon(t.cons, t.conList, cn, sn, 0);
            Marked(t, cn, sn, iod) == t.(cons := ServerParked(ClientMarked(t, con, cn, iod, |t.possible[cn]|), sn),
                                         nicState := if con.Some? then t.nicState[cn := Used][sn := Used]
                                           else t.nicState,
                                         success := if con.Some? then t.success + [con.value] else t.success)
  {
    hide WF, FindCon, ServerParked, ClientMarked, Marked, Shaped;
    MarkedUnfold(t, cn, sn, iod);
    BothMarkedCons(t, cn, sn, iod);
  }

  lemma MarkedUnfold(t: Table, cn: NicId, sn: NicId, iod: Option<Iod>)
    requires Shaped(t) && cn in t.nics && sn in t.nics
    ensures var con, r := FindCon(t.cons, t.conList, cn, sn, 0), Marked(t, cn, sn, iod);
      && r == t.(cons := r.cons, nicState := r.nicState, success := r.success)
      && r.nicState == (if con.Some? then t.nicState[cn := Used][sn := Used] else t.nicState)
      && r.success == (if con.Some? then t.success + [con.value] else t.success)
      && r.cons == map id | id in t.cons :: MarkedCon(t.nics, id, t.cons[id], con, cn, sn, iod)
  {
    hide FindCon, MarkedCon;
  }

  lemma BothMarkedCons(t: Table, cn: NicId, sn: NicId, iod: Option<Iod>)
    requires WF(t) && Shaped(t) && cn in t.clients && sn in t.servers && cn in t.nics && sn in t.nics
    ensures ServerParked(ClientMarked(t, FindCon(t.cons, t.conList, cn, sn, 0), cn, iod, |t.possible[cn]|), sn) ==
      Marked(t, cn, sn, iod).cons
  {
    hide WF, FindCon, ServerParked, MarkedCon, ClientMarkedCon, NoDup, Marked;
    ListsKnown(t);
    ClientPairs(t, cn, sn);
    ClientPairsAll(t, cn);
    MarkedUnfold(t, cn, sn, iod);
    var con := FindCon(t.cons, t.conList, cn, sn, 0);
    var half := ClientMarked(t, con, cn, iod, |t.possible[cn]|);
    forall id | id in t.cons
      ensures id in half && ServerParked(half, sn)[id] == MarkedCon(t.nics, id, t.cons[id], con, cn, sn, iod)
    {
      BothMarkedCon(t, id, con, cn, sn, iod);
    }
  }

  lemma ClientPairsAll(t: Table, cn: NicId)
    requires WF(t) && Shaped(t) && cn in t.clients
    ensures cn in t.possible && forall id :: id in t.cons ==> (t.cons[id].client == cn <==> id in t.possible[cn])
  {
    hide UniqueIndices, UniquePairs, NoDup, Slice;
    SliceMembers(t.conList, t.cons, cn);
  }

  // ----- Facts the reports need -----

  lemma FailTrialCons(t: Table, id: ConId)
    requires WF(t) && Shaped(t) && id in t.cons
    ensures NoDup(t.conList) && forall k :: k in t.cons <==> k in t.conList
    ensures FailTrial(t, id).cons.Keys == t.cons.Keys
    ensures forall k :: k in t.cons ==> EndsKnown(t.nics, t.cons[k])
    ensures forall k :: k in t.cons ==>
              FailTrial(t, id).cons[k] == FailedCon(t.nics, if k == id then t.cons[k].(iod := None)
                else t.cons[k], t.cons[id])
    ensures FailTrial(t, id) == t.(nicState := McConList.SetEnds(t.nicState, t.cons[id], Idle),
      cons := FailTrial(t, id).cons)
  {
    hide WF, FailedCon, NoDup;
    ConsListed(t);
  }

  lemma FailedConCases(nics: map<NicId, Nic>, c: Con, d: Con)
    requires EndsKnown(nics, c) && EndsKnown(nics, d)
    ensures FailedCon(nics, c, d) ==
            if BaseIndex(nics[c.client].index) == BaseIndex(nics[d.client].index) then
              if BaseIndex(nics[c.server].index) == BaseIndex(nics[d.server].index) then c.(state := FailedToConnect)
              else if c.state == Surplus then c.(state := Potential) else c
            else if nics[c.server].index == nics[d.server].index && c.state == Surplus then c.(state := Potential)
            else c
  {
  }

  lemma ConsKnown(t: Table)
    requires Shaped(t)
    ensures forall id :: id in t.cons ==> EndsKnown(t.nics, t.cons[id])
  {
  }

  lemma TrialsWF(t: Table, trials: nat)
    requires WF(t) && Shaped(t)
    ensures WF(t.(trials := trials)) && Shaped(t.(trials := trials))
  {
    hide WF;
    RestateWF(t, t.nicState, t.pause, trials, t.success);
  }

  lemma FindByIpListed(t: Table, list: seq<NicId>, ip: Addr)
    requires forall n :: n in list ==> n in t.nics
    ensures FindByIp(t.nics, list, ip, 0).Some? ==> FindByIp(t.nics, list, ip, 0).value in list
  {
  }

  /** A listed NIC is found again by its index. */
  lemma FoundAgain(t: Table, cn: NicId, sn: NicId)
    requires WF(t) && Shaped(t) && cn in t.clients && sn in t.servers
    ensures FindNic(t.nics, t.clients, t.nics[cn].index, 0) == Some(cn)
    ensures FindNic(t.nics, t.servers, t.nics[sn].index, 0) == Some(sn)
  {
    hide UniquePairs, UniqueIndices, NoDup, Slice, SlicesOk, ConsOk;
    FindNicUnique(t.nics, t.clients, cn);
    FindNicUnique(t.nics, t.servers, sn);
  }

  // ----- Facts counting needs -----

  lemma RefreshedNone(t: Table)
    requires Shaped(t)
    ensures RefreshedTo(t, 0) == t.cons && FirstPass(t) == t.(cons := RefreshedTo(t, |t.conList|))
  {
  }

  lemma RefreshedStep(t: Table, k: nat)
    requires Shaped(t) && k < |t.conList| && t.conList[k] in t.cons
    requires t.conList[..k + 1] == t.conList[..k] + [t.conList[k]] && t.conList[k] !in t.conList[..k]
    ensures t.conList[k] in RefreshedTo(t, k) && RefreshedTo(t, k)[t.conList[k]] == t.cons[t.conList[k]]
    ensures RefreshedTo(t, k + 1) == RefreshedTo(t, k)[t.conList[k] := Refreshed(t, t.cons[t.conList[k]])]
  {
    hide Refreshed;
  }

  lemma RefreshedCases(t: Table, c: Con)
    requires Shaped(t) && EndsKnown(t.nics, c)
    ensures EndStates(t.nicState, c) && c.client in t.nicState && c.server in t.nicState && c.client in t.nics &&
      c.server in t.nics
    ensures SamePair(Refreshed(t, c), c) && EndsKnown(t.nics, Refreshed(t, c)) && EndStates(t.nicState, Refreshed(t, c))
    ensures Refreshed(t, c) ==
            if c.state == Potential && t.nicState[c.client] == Idle && t.nicState[c.server] == Idle
            then c.(speed := if t.nics[c.client].speed < t.nics[c.server].speed then t.nics[c.client].speed
              else t.nics[c.server].speed)
            else c
  {
  }

  /** Counting one pair depends on the NICs and the preference only. */
  lemma CountedFrame(t: Table, t': Table, st: Stats, id: ConId, c: Con)
    requires EndsKnown(t.nics, c) && EndStates(t.nicState, c)
    requires t'.nics == t.nics && t'.nicState == t.nicState && t'.preferWired == t.preferWired
    ensures EndsKnown(t'.nics, c) && EndStates(t'.nicState, c) && Counted(t', st, id, c) == Counted(t, st, id, c)
  {
  }

  lemma SharedNone(t: Table)
    requires Shaped(t)
    ensures SharedTo(t, 0) == t.cons
  {
  }

  lemma SharedStep(t: Table, k: nat)
    requires Shaped(t) && k < |t.conList| && t.conList[k] in t.cons
    requires t.conList[..k + 1] == t.conList[..k] + [t.conList[k]] && t.conList[k] !in t.conList[..k]
    ensures EndStates(t.nicState, t.cons[t.conList[k]])
    ensures t.conList[k] in SharedTo(t, k) && SharedTo(t, k)[t.conList[k]] == t.cons[t.conList[k]]
    ensures var c := t.cons[t.conList[k]];
            SharedTo(t, k + 1) == if Sharing(t, c) then
              SharedTo(t, k)[t.conList[k] := c.(speed := LinkSpeed(t.nics, c))] else SharedTo(t, k)
  {
    hide Sharing, LinkSpeed;
  }

  lemma SharingCases(t: Table, c: Con, maxActive: nat)
    requires Shaped(t) && EndsKnown(t.nics, c) && EndStates(t.nicState, c)
    ensures Sharing(t, c) <==>
            && (c.state == Surplus || c.state == Potential)
            && ((t.nicState[c.client] == Used && t.nicState[c.server] == Idle) ||
              (t.nicState[c.client] == Idle && t.nicState[c.server] == Used))
    ensures Upgradable(t, c, maxActive) <==>
            Sharing(t, c) && (!t.preferWired || t.nics[c.client].nicType == IFM_ETHER) &&
              LinkSpeed(t.nics, c) > maxActive
            && t.nicState[c.server] != OnTrial
  {
  }

  lemma FirstUpgradeStep(t: Table, maxActive: nat, k: nat)
    requires Shaped(t) && k < |t.conList|
    ensures FirstUpgrade(t, maxActive, k) == if Upgradable(t, t.cons[t.conList[k]], maxActive) then k
      else FirstUpgrade(t, maxActive, k + 1)
  {
  }

  lemma FirstUpgradeEnd(t: Table, maxActive: nat)
    requires Shaped(t)
    ensures FirstUpgrade(t, maxActive, |t.conList|) == |t.conList|
  {
  }

  lemma FirstPassWF(t: Table)
    requires WF(t) && Shaped(t)
    ensures WF(FirstPass(t))
  {
    hide WF, FirstPass, Preserves;
    FirstPassBenign(t);
    BenignKeeps(t, FirstPass(t));
    PreservesWF(t, FirstPass(t));
  }

  // ----- Facts the trial loop needs -----

  lemma AskTurn(t: Table, slots: nat, added: bool)
    requires WF(t) && Shaped(t) && slots > 0
    ensures WF(OneTurn(t, added).t) && Shaped(OneTurn(t, added).t)
    ensures AskLoop(t, slots, added) ==
            match OneTurn(t, added)
            case Promotion(t') => AskLoop(t', slots, added)
            case Halt(t', stop) => Handout(t', [], stop)
            case Start(t', p) =>
              var r := AskLoop(t', slots - 1, added || p.active == Inactive);
              Handout(r.t, [p.id] + r.pairs, r.stop)
  {
    hide WF, OneTurn, HasActive, Preserves;
    TurnKeeps(t, added);
    PreservesWF(t, OneTurn(t, added).t);
  }

  lemma TurnUnfold(t: Table, added: bool)
    requires WF(t) && Shaped(t)
    ensures WF(CountStats(t).t) && Shaped(CountStats(t).t)
    ensures var n := CountStats(t);
            && (forall id :: n.stats.fastestInactive == Some(id) ==> id in n.t.cons)
            && (forall p :: Choose(n.t, n.stats, added) == Some(p) ==> p.id in n.t.cons)
            && n.t.maxChannels == t.maxChannels
            && OneTurn(t, added) ==
               if Promotes(n.t, n.stats) then Promotion(Promote(n.t, n.stats.fastestInactive.value))
               else if AtChannelLimit(n.t, n.stats) then Halt(n.t, ChannelLimit)
               else match Choose(n.t, n.stats, added)
                 case None => Halt(n.t, NothingToAdd)
                 case Some(p) => Start(McTrial.StartTrial(n.t, p), p)
  {
    hide WF, CountStats, Choose, OfferSound, Preserves;
    CountStatsSound(t);
    BenignKeeps(t, CountStats(t).t);
    PreservesWF(t, CountStats(t).t);
    ChooseOffered(CountStats(t).t, CountStats(t).stats, added);
  }

  lemma AskNoSlots(t: Table, added: bool)
    requires WF(t) && Shaped(t)
    ensures AskLoop(t, 0, added) == Handout(t, [], Full)
  {
  }

  // ----- Facts collecting excess needs -----

  lemma HeldKnown(t: Table)
    requires Held(t)
    ensures Shaped(t) && (forall id :: id in t.success ==> id in t.cons) &&
      (forall id :: id in t.conList ==> id in t.cons)
    ensures forall id :: id in t.cons ==> EndsKnown(t.nics, t.cons[id])
  {
  }

  lemma MarkedNone(t: Table)
    requires Held(t)
    ensures MarkedTo(t, 0) == t.cons && SurveyTo(t, 0) == Survey(0, 0, 0, None, 0, None)
  {
  }

  lemma MarkedStep(t: Table, k: nat)
    requires Held(t) && k < |t.success| && t.success[k] in t.cons && EndsKnown(t.nics, t.cons[t.success[k]])
    ensures var id := t.success[k];
      && id in MarkedTo(t, k) && MarkedTo(t, k)[id] == t.cons[id].(active := MarkedTo(t, k)[id].active)
      && MarkedTo(t, k + 1) == MarkedTo(t, k)[id := Activity(t, t.cons[id])]
  {
    hide AtTheBar;
    assert t.success[..k + 1] == t.success[..k] + [t.success[k]];
  }

  lemma SurveyUnfold(t: Table, k: nat)
    requires Held(t) && k < |t.success|
    ensures t.success[k] in t.cons && EndsKnown(t.nics, t.cons[t.success[k]]) && forall id :: id in t.conList ==>
      id in MarkedTo(t, k + 1)
    ensures var p, id := SurveyTo(t, k), t.success[k];
            var c := t.cons[id];
            SurveyTo(t, k + 1) ==
              if AtTheBar(t, c) then p.(actives := p.actives + 1)
              else
                var alone := !OnActive(MarkedTo(t, k + 1), t.conList, c.client, c.server);
                var wired := t.preferWired && Wired(t.nics, c);
                p.(inactives := p.inactives + 1,
                   maxSpare := if c.speed > p.maxSpare && alone then c.speed else p.maxSpare,
                   spare := if c.speed > p.maxSpare && alone then Some(id) else p.spare,
                   maxWired := if wired && c.speed > p.maxWired && alone then c.speed else p.maxWired,
                   wiredSpare := if wired && c.speed > p.maxWired && alone then Some(id) else p.wiredSpare)
  {
    hide AtTheBar, OnActive;
  }

  /** Once one inactive pair is left, the demotion loop changes nothing more. */
  lemma {:induction false} DemotedStops(t: Table, keep: Option<ConId>, left: nat, k: nat)
    requires Held(t) && k <= |t.success| && DemotedTo(t, t.cons, keep, left, k).left == 1
    ensures DemotedTo(t, t.cons, keep, left, |t.success|) == DemotedTo(t, t.cons, keep, left, k)
    decreases |t.success| - k
  {
    if k < |t.success| {
      assert DemotedTo(t, t.cons, keep, left, k + 1) == DemotedTo(t, t.cons, keep, left, k);
      DemotedStops(t, keep, left, k + 1);
    }
  }

  /** Once the vector is full, the sweep changes nothing more. */
  lemma {:induction false} SweptStops(t: Table, active: nat, inactive: nat, slots: nat, k: nat)
    requires Held(t) && k <= |t.success| && |SweptTo(t, active, inactive, slots, k).removed| == slots
    ensures SweptTo(t, active, inactive, slots, |t.success|) == SweptTo(t, active, inactive, slots, k)
    decreases |t.success| - k
  {
    if k < |t.success| {
      assert SweptTo(t, active, inactive, slots, k + 1) == SweptTo(t, active, inactive, slots, k);
      SweptStops(t, active, inactive, slots, k + 1);
    }
  }

  lemma ExcessUnfold(t: Table, slots: nat)
    requires WF(t) && Held(t) && slots >= 1
    ensures Shaped(t) && WF(Sorted(t)) && Shaped(Sorted(t)) && Sorted(t).success == t.success
    ensures Held(CountStats(Sorted(t)).t) && CountStats(Sorted(t)).t.success == t.success
    ensures var n := CountStats(Sorted(t));
            var s := SweptTo(n.t, n.stats.active, n.stats.inactive, slots, |t.success|);
            Excess(t, slots) == Culling(n.t.(cons := s.cons), s.removed, SurveyTo(t, |t.success|).actives, Bar(t))
  {
    hide WF, CountStats, Sorted, SweptTo, SurveyTo, Bar, Preserves;
    RankedKeeps(t);
    SortedHeld(t);
    ActivityKeeps(t, Sorted(t));
    PreservesWF(t, Sorted(t));
  }

  lemma SortedUnfold(t: Table)
    requires Held(t)
    ensures var n := |t.success|;
            var s := SurveyTo(t, n);
            var keep := if s.wiredSpare.Some? then s.wiredSpare else s.spare;
            && Held(t.(cons := MarkedTo(t, n)))
            && Sorted(t) == t.(cons := if s.inactives > 1 then DemotedTo(t, MarkedTo(t, n), keep, s.inactives, n).cons
              else MarkedTo(t, n))
  {
    hide SurveyTo, DemotedTo, MarkedTo;
    MarkedActivity(t, |t.success|);
  }

  /** The demotion loop reads the pairs it is given and the success list only. */
  lemma DemotedFrame(t: Table, keep: Option<ConId>, left: nat)
    requires Held(t) && Held(t.(cons := MarkedTo(t, |t.success|)))
    ensures var t' := t.(cons := MarkedTo(t, |t.success|));
            DemotedTo(t', t'.cons, keep, left, |t.success|) == DemotedTo(t, t'.cons, keep, left, |t.success|)
  {
    hide MarkedTo;
    DemotedFrameTo(t, t.(cons := MarkedTo(t, |t.success|)), MarkedTo(t, |t.success|), keep, left, |t.success|);
  }

  lemma {:induction false} DemotedFrameTo(t: Table, t': Table, cons: map<ConId, Con>, keep: Option<ConId>, left: nat,
    k: nat)
    requires Held(t) && Held(t') && t'.success == t.success && k <= |t.success| &&
      cons.Keys == t.cons.Keys == t'.cons.Keys
    ensures DemotedTo(t', cons, keep, left, k) == DemotedTo(t, cons, keep, left, k)
  {
    hide Shaped, DemotedOnce;
    if k > 0 {
      DemotedFrameTo(t, t', cons, keep, left, k - 1);
    }
  }

  lemma DrainUnfold(t: Table, slots: nat)
    requires WF(t) && Held(t) && Agree(t) && slots >= 1
    ensures var e := Excess(t, slots);
            && Shaped(e.t) && WF(e.t) && Agree(e.t) && NoDup(e.removed)
            && (forall id :: id in e.removed ==> id in e.t.cons && Carried(e.t.cons[id].state))
            && WF(DropAll(e.t, e.removed, |e.removed|)) && Held(DropAll(e.t, e.removed, |e.removed|)) &&
              Agree(DropAll(e.t, e.removed, |e.removed|))
            && Drain(t, slots) == if e.removed == [] then e.t else Drain(DropAll(e.t, e.removed, |e.removed|), slots)
  {
    hide WF, Agree, Excess, DropAll, NoDup, Held, NoIdleInUse, NoStarvation, SpeedsFresh;
    HeldKnown(t);
    ExcessThenDrop(t, slots);
    ExcessKeeps(t, slots);
    ExcessReturns(t, slots);
  }

  // ----- Facts the updates need -----

  lemma ResetCases(nics: map<NicId, Nic>, c: Con, n: NicId, isClient: bool)
    requires EndsKnown(nics, c) && n in nics
    ensures ResetCon(nics, c, n, isClient) ==
            if (if isClient then c.client else c.server) == n && !nics[n].ignored then
              if c.state == FailedToConnect || c.state == NoPotential then c.(state := Potential)
                else c.(speed := LinkSpeed(nics, c))
            else c
  {
  }

  lemma InsertUnfold(t: Table, nic: Nic, isClient: bool)
    requires Shaped(t)
    ensures InsertNic(t, nic, isClient) ==
            t.(clients := if isClient then Inserted(t.clients, InsertAt(t.nics, t.clients, nic.speed, 0), t.next)
              else t.clients,
               servers := if isClient then t.servers
                 else Inserted(t.servers, InsertAt(t.nics, t.servers, nic.speed, 0), t.next),
               nics := t.nics[t.next := nic], nicState := t.nicState[t.next := Idle],
                 possible := t.possible[t.next := []],
               next := t.next + 1)
  {
    hide InsertAt, Inserted;
  }

  lemma InsertSides(t: Table, nic: Nic, isClient: bool)
    requires Shaped(t)
    ensures |Side(InsertNic(t, nic, isClient), isClient)| == |Side(t, isClient)| + 1
  {
    hide InsertAt, Inserted;
  }

  lemma ResetSides(t: Table, update: Nic, isClient: bool)
    requires Shaped(t) && FindNic(t.nics, Side(t, isClient), update.index, 0).Some?
    ensures Side(UpdateOne(t, update, isClient), isClient) == Side(t, isClient)
  {
    hide UpdateAddrs, ResetCon;
  }

  lemma ChangedWF(t: Table, n: NicId, update: Nic, isClient: bool)
    requires WF(t) && Shaped(t) && n in Side(t, isClient)
    ensures n in t.nics
    ensures var t' := t.(nics := t.nics[n := UpdateNic(t.nics[n], update)]); WF(t') && Shaped(t')
  {
    hide WF, UpdateAddrs;
    ServersNotIgnored(t);
    RenicsWF(t, t.nics[n := UpdateNic(t.nics[n], update)]);
  }

  // ----- Facts removal needs -----

  /** The table without the pairs of `dead`. */
  ghost function PairsGone(t: Table, dead: set<ConId>): Table {
    t.(possible := ListsWithout(t.possible, dead), conList := Keep(t.conList, dead), cons := t.cons - dead)
  }

  ghost function ListsWithout(possible: map<NicId, seq<ConId>>, dead: set<ConId>): map<NicId, seq<ConId>> {
    map c | c in possible :: Keep(possible[c], dead)
  }

  lemma DropUnfold(t: Table, n: NicId, isClient: bool)
    requires WF(t)
    ensures var g := PairsGone(t, PairsOf(t, n, isClient));
            DropNic(t, n, isClient) ==
            g.(clients := if isClient then Without(t.clients, n) else t.clients,
               servers := if isClient then t.servers else Without(t.servers, n),
               nics := t.nics - {n}, nicState := t.nicState - {n}, possible := g.possible - {n})
  {
    hide WF, Keep, Without, PairsOf;
  }

  lemma {:induction false} KeepNone(s: seq<ConId>)
    ensures Keep(s, {}) == s
  {
    if s != [] {
      KeepNone(s[..|s| - 1]);
    }
  }

  lemma PairsGoneNone(t: Table)
    ensures PairsGone(t, {}) == t
  {
    hide Keep;
    KeepNone(t.conList);
    forall c | c in t.possible
      ensures Keep(t.possible[c], {}) == t.possible[c]
    {
      KeepNone(t.possible[c]);
    }
    assert t.cons - {} == t.cons;
  }

  lemma {:induction false} WithoutAppend(s: seq<ConId>, y: ConId, x: ConId)
    ensures Without(s + [y], x) == if x in s then Without(s, x) + [y] else if y == x then s else s + [y]
  {
    if s != [] {
      assert s + [y] == [s[0]] + (s[1..] + [y]);
      assert (s + [y])[1..] == s[1..] + [y];
      WithoutAppend(s[1..], y, x);
    }
  }

  lemma {:induction false} KeepWithout(s: seq<ConId>, dead: set<ConId>, x: ConId)
    requires NoDup(s) && x !in dead
    ensures Keep(s, dead + {x}) == Without(Keep(s, dead), x)
  {
    if s != [] {
      var init, last := s[..|s| - 1], s[|s| - 1];
      assert s == init + [last];
      KeepWithout(init, dead, x);
      WithoutAppend(Keep(init, dead), last, x);
      if x !in Keep(init, dead) {
        WithoutAbsent(Keep(init, dead), x);
      }
    }
  }

  lemma {:induction false} WithoutAbsent(s: seq<ConId>, x: ConId)
    requires x !in s
    ensures Without(s, x) == s
  {
    if s != [] {
      WithoutAbsent(s[1..], x);
    }
  }

  /** Taking one pair out of the lists. */
  lemma PairsGoneStep(t: Table, dead: set<ConId>, id: ConId)
    requires WF(t) && Shaped(t) && id in t.cons && id !in dead
    ensures var g := PairsGone(t, dead);
            var c := t.cons[id].client;
            && id in g.cons && g.cons[id] == t.cons[id] && c in g.possible
            && PairsGone(t, dead + {id}) ==
               g.(possible := g.possible[c := Without(g.possible[c], id)], conList := Without(g.conList, id),
                 cons := g.cons - {id})
  {
    hide WF, Keep, Without, NoDup, Shaped, ListsWithout;
    ConsListed(t);
    KeepWithout(t.conList, dead, id);
    ClientsHoldOwn(t, id);
    LessOne(t.cons, dead, id);
    PossibleGone(t.possible, dead, id, t.cons[id].client);
  }

  lemma LessOne(cons: map<ConId, Con>, dead: set<ConId>, id: ConId)
    ensures cons - (dead + {id}) == (cons - dead) - {id}
  {
  }

  lemma PossibleGone(possible: map<NicId, seq<ConId>>, dead: set<ConId>, id: ConId, c: NicId)
    requires id !in dead && c in possible
    requires forall n :: n in possible ==> NoDup(possible[n]) && (id in possible[n] ==> n == c)
    ensures var l := ListsWithout(possible, dead);
      c in l && ListsWithout(possible, dead + {id}) == l[c := Without(l[c], id)]
  {
    hide Keep, Without, NoDup;
    ListsGone(possible, dead, id, c);
  }

  lemma ListsGone(possible: map<NicId, seq<ConId>>, dead: set<ConId>, id: ConId, c: NicId)
    requires id !in dead && c in possible
    requires forall n :: n in possible ==> NoDup(possible[n]) && (id in possible[n] ==> n == c)
    ensures forall n :: n in possible ==>
              Keep(possible[n], dead + {id}) == if n == c then Without(Keep(possible[n], dead), id)
                else Keep(possible[n], dead)
  {
    hide Keep, Without, NoDup;
    forall n | n in possible
      ensures Keep(possible[n], dead + {id}) == if n == c then Without(Keep(possible[n], dead), id)
        else Keep(possible[n], dead)
    {
      KeepWithout(possible[n], dead, id);
      if n != c {
        WithoutAbsent(Keep(possible[n], dead), id);
      }
    }
  }

  lemma EmptyNoDup(s: seq<ConId>)
    requires s == []
    ensures NoDup(s)
  {
  }

  /** Each NIC's list is duplicate-free, and only the client NIC of a pair lists it. */
  lemma ClientsHoldOwn(t: Table, id: ConId)
    requires WF(t) && Shaped(t) && id in t.cons
    ensures t.cons[id].client in t.possible
    ensures forall n :: n in t.possible ==> NoDup(t.possible[n]) && (id in t.possible[n] ==> n == t.cons[id].client)
  {
    hide UniqueIndices, UniquePairs, Slice, NoDup;
    forall n | n in t.possible
      ensures NoDup(t.possible[n]) && (id in t.possible[n] ==> n == t.cons[id].client)
    {
      if n in t.clients {
        SliceMembers(t.conList, t.cons, n);
        SliceNoDup(t.conList, t.cons, n);
      } else {
        EmptyNoDup(t.possible[n]);
      }
    }
  }

  // ----- Single turns of the excess loops -----

  lemma DemotedNone(t: Table, keep: Option<ConId>, left: nat)
    requires Held(t)
    ensures DemotedTo(t, t.cons, keep, left, 0) == Demotion(t.cons, left)
  {
  }

  lemma DemotedNext(t: Table, keep: Option<ConId>, left: nat, k: nat)
    requires Held(t) && k < |t.success|
    ensures t.success[k] in t.cons
    ensures DemotedTo(t, t.cons, keep, left, k + 1) ==
      DemotedOnce(DemotedTo(t, t.cons, keep, left, k), keep, t.success[k])
  {
    hide DemotedOnce;
  }

  lemma SweptNothing(t: Table, active: nat, inactive: nat, slots: nat)
    requires Held(t)
    ensures SweptTo(t, active, inactive, slots, 0) == Sweep(t.cons, active, [])
  {
  }

  lemma SweptNext(t: Table, active: nat, inactive: nat, slots: nat, k: nat)
    requires Held(t) && k < |t.success|
    ensures t.success[k] in t.cons
    ensures SweptTo(t, active, inactive, slots, k + 1) ==
      SweptOnce(SweptTo(t, active, inactive, slots, k), t.maxChannels, inactive, slots, t.success[k])
  {
    hide SweptOnce;
  }
}
