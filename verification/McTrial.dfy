/**
 Handing out pairs for connection trials: a greedy choice inside a loop, one pair per
 turn, each turn recounting the whole table.
 */
module McTrial {
  import opened Options
  import opened McTypes
  import opened McConList
  import opened McStats

  /** A pair that counting offers: potential, no NIC on trial, and as fast as recorded. */
  ghost predicate Offered(t: Table, id: ConId, speed: nat)
    requires Shaped(t)
  {
    && id in t.cons && t.cons[id].state == Potential
    && t.nicState[t.cons[id].client] != OnTrial && t.nicState[t.cons[id].server] != OnTrial
    && LinkSpeed(t.nics, t.cons[id]) == speed > 0
  }

  /** The fastest active speed is recorded, and so is some connected inactive pair. */
  ghost predicate ActivitySound(cons: map<ConId, Con>, st: Stats) {
    && (forall id :: id in cons && ActiveCon(cons[id]) ==> cons[id].speed <= st.maxActive)
    && (st.maxActive > 0 ==> exists id :: id in cons && ActiveCon(cons[id]) && cons[id].speed == st.maxActive)
    && (forall id :: st.fastestInactive == Some(id) ==> id in cons && InactiveCon(cons[id]))
  }

  /** The pairs offered are on offer; unless wired NICs are preferred, no potential pair of two idle NICs is faster. */
  ghost predicate OfferSound(t: Table, st: Stats)
    requires Shaped(t)
  {
    && (forall id :: st.potential == Some(id) ==> Offered(t, id, st.maxPotential))
    && (forall id :: st.potentialWired == Some(id) ==> Offered(t, id, st.maxPotentialWired))
    && (st.potential.None? ==> st.maxPotential == 0)
    && (!t.preferWired ==> NoneFaster(t, st.maxPotential))
  }

  ghost predicate NoneFaster(t: Table, speed: nat)
    requires Shaped(t)
  {
    forall id :: id in t.cons && FreePotential(t, t.cons[id]) ==> LinkSpeed(t.nics, t.cons[id]) <= speed
  }

  lemma TallySound(t: Table)
    requires Shaped(t) && forall id :: id in t.cons ==> id in t.conList
    ensures ActivitySound(t.cons, Tally(t, |t.conList|)) && OfferSound(t, Tally(t, |t.conList|))
  {
    hide Tally, Counted, LinkSpeed;
    var n := |t.conList|;
    TallyConnected(t, n);
    TallyPotential(t, n);
    TallyPotentialWired(t, n);
    forall id | id in t.cons
      ensures exists i :: 0 <= i < n && t.conList[i] == id
    {
    }
  }

  lemma ActivityFrame(t: Table, t': Table, st: Stats, st': Stats)
    requires AllBenign(t, t') && ActivitySound(t.cons, st)
    requires st'.maxActive == st.maxActive && st'.fastestInactive == st.fastestInactive
    ensures ActivitySound(t'.cons, st')
  {
    assert forall id :: id in t.cons ==> Benign(t.cons[id], t'.cons[id]);
    if st.maxActive > 0 {
      var id :| id in t.cons && ActiveCon(t.cons[id]) && t.cons[id].speed == st.maxActive;
      assert ActiveCon(t'.cons[id]) && t'.cons[id].speed == st.maxActive;
    }
  }

  /** The second loop only touches pairs that have one NIC in use. */
  lemma SeekUpgradeTouches(t: Table, st: Stats)
    requires Shaped(t)
    ensures var t' := SeekUpgrade(t, st).t;
            && t' == t.(cons := t'.cons) && t'.cons.Keys == t.cons.Keys && Shaped(t')
            && forall id :: id in t.cons ==>
                 && SamePair(t'.cons[id], t.cons[id])
                 && (t'.cons[id].state != t.cons[id].state ==> HalfUsed(t, t.cons[id]))
  {
    hide LinkSpeed, SharedTo;
    SharedTouches(t, FirstUpgrade(t, st.maxActive, 0));
  }

  lemma SharedTouches(t: Table, r: nat)
    requires Shaped(t) && r <= |t.conList|
    ensures var cons := SharedTo(t, r);
      cons.Keys == t.cons.Keys && forall id :: id in t.cons ==> cons[id] == t.cons[id].(speed := cons[id].speed)
  {
    hide LinkSpeed;
  }

  lemma NoneFasterFrame(t: Table, t': Table, speed: nat)
    requires Shaped(t) && Shaped(t') && t' == t.(cons := t'.cons) && t'.cons.Keys == t.cons.Keys
    requires forall id :: id in t.cons ==>
               SamePair(t'.cons[id], t.cons[id]) && (t'.cons[id].state != t.cons[id].state ==> HalfUsed(t, t.cons[id]))
    requires NoneFaster(t, speed)
    ensures NoneFaster(t', speed)
  {
    forall id | id in t'.cons && FreePotential(t', t'.cons[id])
      ensures LinkSpeed(t'.nics, t'.cons[id]) <= speed
    {
      assert FreePotential(t, t.cons[id]);
    }
  }

  /** The same pair is offered both as the fastest and as the fastest wired one. */
  ghost predicate OneOffer(t: Table, st: Stats)
    requires Shaped(t)
  {
    exists id :: && st.potential == st.potentialWired == Some(id)
                 && st.maxPotential == st.maxPotentialWired && Offered(t, id, st.maxPotential)
  }

  lemma SeekUpgradeFound(t: Table, st: Stats)
    requires Shaped(t)
    ensures Shaped(SeekUpgrade(t, st).t)
    ensures SeekUpgrade(t, st).stats == st || OneOffer(SeekUpgrade(t, st).t, SeekUpgrade(t, st).stats)
    ensures SeekUpgrade(t, st).stats.active == st.active && SeekUpgrade(t, st).stats.inactive == st.inactive
    ensures SeekUpgrade(t, st).stats.maxActive == st.maxActive &&
      SeekUpgrade(t, st).stats.fastestInactive == st.fastestInactive
  {
    SeekUpgradeTouches(t, st);
    var r := SeekUpgrade(t, st);
    var k := FirstUpgrade(t, st.maxActive, 0);
    hide SharedTo;
    if k < |t.conList| {
      var id := t.conList[k];
      assert r.stats.potential == r.stats.potentialWired == Some(id);
      assert Offered(r.t, id, r.stats.maxPotential);
    }
  }

  lemma OfferedFrame(t: Table, t': Table, id: ConId, speed: nat)
    requires Shaped(t) && Shaped(t') && AllBenign(t, t') && Offered(t, id, speed)
    ensures Offered(t', id, speed)
  {
    assert Benign(t.cons[id], t'.cons[id]);
  }

  lemma SeekUpgradeOffers(t: Table, st: Stats)
    requires Shaped(t) && OfferSound(t, st)
    requires if t.preferWired then st.potentialWired.None? else st.potential.None?
    ensures Shaped(SeekUpgrade(t, st).t) && OfferSound(SeekUpgrade(t, st).t, SeekUpgrade(t, st).stats)
  {
    hide SeekUpgrade, Offered, NoneFaster, AllBenign;
    var r := SeekUpgrade(t, st);
    SeekUpgradeTouches(t, st);
    SeekUpgradeFound(t, st);
    if !t.preferWired {
      NoneFasterFrame(t, r.t, 0);
      NoneFasterWeaken(r.t, 0, r.stats.maxPotential);
    }
    if r.stats == st {
      SeekUpgradeBenign(t, st);
      if st.potential.Some? { OfferedFrame(t, r.t, st.potential.value, st.maxPotential); }
      if st.potentialWired.Some? { OfferedFrame(t, r.t, st.potentialWired.value, st.maxPotentialWired); }
    }
  }

  lemma NoneFasterWeaken(t: Table, a: nat, b: nat)
    requires Shaped(t) && NoneFaster(t, a) && a <= b
    ensures NoneFaster(t, b)
  {
  }

  /** What one count tells about the table it leaves. */
  lemma CountStatsSound(t: Table)
    requires WF(t) && Shaped(t)
    ensures Shaped(CountStats(t).t) && AllBenign(t, CountStats(t).t)
    ensures ActivitySound(CountStats(t).t.cons, CountStats(t).stats) && OfferSound(CountStats(t).t, CountStats(t).stats)
  {
    hide WF, SeekUpgrade, Tally, ActivitySound, OfferSound, AllBenign, FirstPass;
    var st, t1 := Tally(t, |t.conList|), FirstPass(t);
    ConsListed(t);
    TallySound(t);
    CountStatsBenign(t);
    FirstPassBenign(t);
    ActivityFrame(t, t1, st, st);
    OfferFrame(t, t1, st);
    if WantsUpgrade(t, st) {
      SeekUpgradeBenign(t1, st);
      SeekUpgradeFound(t1, st);
      SeekUpgradeOffers(t1, st);
      ActivityFrame(t1, SeekUpgrade(t1, st).t, st, SeekUpgrade(t1, st).stats);
    }
  }

  lemma OfferFrame(t: Table, t': Table, st: Stats)
    requires Shaped(t) && Shaped(t') && AllBenign(t, t') && OfferSound(t, st)
    requires forall id :: id in t.cons ==> t'.cons[id].state == t.cons[id].state
    ensures OfferSound(t', st)
  {
    if !t.preferWired { NoneFasterFrame(t, t', st.maxPotential); }
    hide Offered, NoneFaster;
    if st.potential.Some? { OfferedFrame(t, t', st.potential.value, st.maxPotential); }
    if st.potentialWired.Some? { OfferedFrame(t, t', st.potentialWired.value, st.maxPotentialWired); }
  }

  // ----- The trial loop -----

  /** The pair picked by one turn, and whether it is meant to be active. */
  datatype Pick = Pick(id: ConId, active: ActiveState)

  /** Which pair this turn adds, if any; `added` tells whether an earlier turn added an inactive one. */
  function Choose(t: Table, st: Stats, added: bool): Option<Pick> {
    var spare := t.preferWired && st.potentialWired.None?;
    var pair := if t.preferWired && st.potentialWired.Some? then st.potentialWired
                else if spare && st.inactive != 0 then None
                else st.potential;
    var speed := if t.preferWired && st.potentialWired.Some? then st.maxPotentialWired
                 else if spare && st.inactive != 0 then 0
                 else st.maxPotential;
    if pair.None? then None
    else if speed >= st.maxActive && !spare then Some(Pick(pair.value, Active))
    else if speed > st.maxInactive
         || (!added && (st.inactive == 0 || (t.preferWired && st.wiredInactive == 0)))
    then Some(Pick(pair.value, Inactive))
    else None
  }

  /** No more channels are wanted. */
  predicate AtChannelLimit(t: Table, st: Stats) {
    st.inactive + st.active >= t.maxChannels && st.maxActive >= st.maxPotential && st.maxActive > st.maxInactive
  }

  /** The session lost its active channels but has an inactive one to promote. */
  predicate Promotes(t: Table, st: Stats)
    requires st.fastestInactive.Some? ==> st.fastestInactive.value in t.cons
  {
    st.active == 0 && st.inactive != 0 && st.fastestInactive.Some? && t.cons[st.fastestInactive.value].iod.Some?
  }

  function Promote(t: Table, id: ConId): Table
    requires id in t.cons
  {
    t.(cons := t.cons[id := t.cons[id].(active := Active)])
  }

  function StartTrial(t: Table, p: Pick): (r: Table)
    requires Shaped(t) && p.id in t.cons
  {
    var c := t.cons[p.id];
    t.(cons := t.cons[p.id := c.(active := p.active, state := InTrial, speed := LinkSpeed(t.nics, c))],
       nicState := SetEnds(t.nicState, c, OnTrial),
       trials := (t.trials + 1) % UINT32)
  }

  /** Why a request stopped: refused at entry, the vector is full, the channel limit, or no pair worth adding. */
  datatype Stop = Refused | Full | ChannelLimit | NothingToAdd

  datatype Handout = Handout(t: Table, pairs: seq<ConId>, stop: Stop)

  ghost predicate HasActive(t: Table) {
    ActiveIds(t.cons) != {}
  }

  lemma ChooseOffered(t: Table, st: Stats, added: bool)
    requires Shaped(t) && OfferSound(t, st)
    ensures forall p :: Choose(t, st, added) == Some(p) ==> OnOffer(t, p.id)
  {
    hide NoneFaster, LinkSpeed;
  }

  /** A potential pair, neither of whose NICs is on trial. */
  predicate OnOffer(t: Table, id: ConId)
    requires Shaped(t)
  {
    && id in t.cons && t.cons[id].state == Potential
    && t.nicState[t.cons[id].client] != OnTrial && t.nicState[t.cons[id].server] != OnTrial
  }

  lemma StartTrialWF(t: Table, p: Pick)
    requires WF(t) && Shaped(t) && p.id in t.cons
    ensures WF(StartTrial(t, p)) && Shaped(StartTrial(t, p))
  {
    hide WF;
    var r := StartTrial(t, p);
    ReconsWF(t, r.cons);
    RestateWF(t.(cons := r.cons), r.nicState, t.pause, r.trials, t.success);
  }

  lemma PromoteActive(t: Table, id: ConId)
    requires id in t.cons && InactiveCon(t.cons[id])
    ensures HasActive(Promote(t, id))
  {
    assert id in ActiveIds(Promote(t, id).cons);
  }

  lemma NoneActive(t: Table)
    requires WF(t) && Shaped(t) && CountStats(t).stats.active == 0
    ensures !HasActive(t)
  {
    hide WF, CountStats, ActiveIds;
    CountStatsCounts(t);
  }

  /** One turn: promote the fastest inactive pair, stop, or start a trial. */
  datatype Turn = Promotion(t: Table) | Halt(t: Table, stop: Stop) | Start(t: Table, pick: Pick)

  function OneTurn(t: Table, added: bool): Turn
    requires WF(t) && Shaped(t)
  {
    hide WF, CountStats, Choose, OfferSound, AllBenign;
    CountStatsSound(t);
    var n := CountStats(t);
    if Promotes(n.t, n.stats) then Promotion(Promote(n.t, n.stats.fastestInactive.value))
    else if AtChannelLimit(n.t, n.stats) then Halt(n.t, ChannelLimit)
    else match Choose(n.t, n.stats, added)
      case None => Halt(n.t, NothingToAdd)
      case Some(p) =>
        ChooseOffered(n.t, n.stats, added);
        Start(StartTrial(n.t, p), p)
  }

  // ----- What a turn keeps -----

  lemma PromoteKeeps(t: Table, id: ConId)
    requires WF(t) && Shaped(t) && id in t.cons
    ensures Preserves(t, Promote(t, id))
  {
    hide WF, NoDup;
    ReconsWF(t, Promote(t, id).cons);
  }

  lemma StartTrialKeeps(t: Table, p: Pick)
    requires WF(t) && Shaped(t) && OnOffer(t, p.id)
    ensures Preserves(t, StartTrial(t, p))
  {
    hide WF, NoDup;
    StartTrialWF(t, p);
  }

  lemma TurnKeeps(t: Table, added: bool)
    requires WF(t) && Shaped(t)
    ensures Preserves(t, OneTurn(t, added).t)
    ensures OneTurn(t, added).Promotion? ==> !HasActive(t) && HasActive(OneTurn(t, added).t)
  {
    hide WF, CountStats, AllBenign, OfferSound, HasActive, Choose, Preserves, Promote, StartTrial;
    var n := CountStats(t);
    CountStatsSound(t);
    BenignKeeps(t, n.t);
    PreservesWF(t, n.t);
    match OneTurn(t, added) {
      case Promotion(t') =>
        NoneActive(t);
        PromoteActive(n.t, n.stats.fastestInactive.value);
        PromoteKeeps(n.t, n.stats.fastestInactive.value);
        PreservesTransitive(t, n.t, t');
      case Halt(t', stop) =>
      case Start(t', p) =>
        ChooseOffered(n.t, n.stats, added);
        StartTrialKeeps(n.t, p);
        PreservesTransitive(t, n.t, t');
    }
  }

  /** Pairs are neither moved, added nor removed, and NIC states only change to on-trial. */
  ghost predicate TrialFrame(t: Table, t': Table)
    requires Shaped(t)
  {
    && Shaped(t') && t' == t.(cons := t'.cons, nicState := t'.nicState, trials := t'.trials)
    && t'.cons.Keys == t.cons.Keys && t'.nicState.Keys == t.nicState.Keys
    && (forall id :: id in t.cons ==> SamePair(t.cons[id], t'.cons[id]))
    && (forall n :: n in t.nicState ==> t'.nicState[n] == t.nicState[n] || t'.nicState[n] == OnTrial)
  }

  /** The pairs on trial afterwards are those on trial before and those of `pairs`; each adds one to the counter. */
  ghost predicate TrialsAre(t: Table, t': Table, pairs: seq<ConId>) {
    && t'.cons.Keys == t.cons.Keys
    && (forall id :: id in t.cons ==> (t'.cons[id].state == InTrial <==> t.cons[id].state == InTrial || id in pairs))
    && t'.trials == (t.trials + |pairs|) % UINT32
  }

  /** What one turn does to trials and NICs, given the pairs it starts: none, or the pair picked. */
  ghost predicate TurnDoes(t: Table, t': Table, pairs: seq<ConId>)
    requires Shaped(t)
  {
    TrialFrame(t, t') && (t.trials < UINT32 ==> TrialsAre(t, t', pairs))
  }

  lemma BenignDoes(t: Table, t': Table)
    requires Shaped(t) && Shaped(t') && AllBenign(t, t')
    ensures TurnDoes(t, t', [])
  {
    assert forall id :: id in t.cons ==> Benign(t.cons[id], t'.cons[id]);
  }

  lemma DoesTrials(t: Table, t': Table, pairs: seq<ConId>)
    requires Shaped(t) && TurnDoes(t, t', pairs) && t.trials < UINT32
    ensures t'.trials < UINT32
  {
  }

  lemma DoesReflexive(t: Table)
    requires Shaped(t)
    ensures TurnDoes(t, t, [])
  {
  }

  lemma PromoteDoes(t: Table, id: ConId)
    requires Shaped(t) && id in t.cons
    ensures TurnDoes(t, Promote(t, id), [])
  {
  }

  lemma StartTrialDoes(t: Table, p: Pick)
    requires Shaped(t) && p.id in t.cons
    ensures TurnDoes(t, StartTrial(t, p), [p.id])
  {
  }

  lemma DoesTransitive(a: Table, b: Table, c: Table, pairs: seq<ConId>, pairs': seq<ConId>)
    requires Shaped(a) && Shaped(b) && TurnDoes(a, b, pairs) && TurnDoes(b, c, pairs')
    ensures TurnDoes(a, c, pairs + pairs')
    ensures pairs == [] ==> TurnDoes(a, c, pairs')
  {
    assert forall id :: id in a.cons ==> SamePair(a.cons[id], b.cons[id]) && SamePair(b.cons[id], c.cons[id]);
  }

  lemma TurnEffect(t: Table, added: bool)
    requires WF(t) && Shaped(t)
    ensures var u := OneTurn(t, added); TurnDoes(t, u.t, if u.Start? then [u.pick.id] else [])
    ensures var u := OneTurn(t, added); u.Halt? ==> u.stop == ChannelLimit || u.stop == NothingToAdd
    ensures var u := OneTurn(t, added);
            u.Start? ==>
              || OnOffer(t, u.pick.id)
              || (u.pick.id in t.cons && t.cons[u.pick.id].state == Surplus && OffTrial(t, u.pick.id))
  {
    hide WF, CountStats, AllBenign, OfferSound, Choose, TurnDoes, Promote, StartTrial;
    var n := CountStats(t);
    CountStatsSound(t);
    BenignDoes(t, n.t);
    match OneTurn(t, added) {
      case Promotion(t') =>
        PromoteDoes(n.t, n.stats.fastestInactive.value);
        DoesTransitive(t, n.t, t', [], []);

      case Halt(t', stop) =>
      case Start(t', p) =>
        ChooseOffered(n.t, n.stats, added);
        StartTrialDoes(n.t, p);
        DoesTransitive(t, n.t, t', [], [p.id]);
        OnOfferBack(t, n.t, p.id);
    }
  }

  lemma OnOfferBack(t: Table, t': Table, id: ConId)
    requires Shaped(t) && Shaped(t') && AllBenign(t, t') && OnOffer(t', id)
    ensures OnOffer(t, id) || (id in t.cons && t.cons[id].state == Surplus && OffTrial(t, id))
  {
    assert Benign(t.cons[id], t'.cons[id]);
  }

  // ----- The loop -----

  /** The loop, with room for `slots` more pairs. */
  ghost function AskLoop(t: Table, slots: nat, added: bool): (r: Handout)
    requires WF(t) && Shaped(t)
    decreases slots, if HasActive(t) then 0 else 1
  {
    hide WF, OneTurn, HasActive, Preserves;
    if slots == 0 then Handout(t, [], Full)
    else
      TurnKeeps(t, added);
      PreservesWF(t, OneTurn(t, added).t);
      match OneTurn(t, added)
      case Promotion(t') => AskLoop(t', slots, added)
      case Halt(t', stop) => Handout(t', [], stop)
      case Start(t', p) =>
        var r := AskLoop(t', slots - 1, added || p.active == Inactive);
        Handout(r.t, [p.id] + r.pairs, r.stop)
  }

  lemma {:induction false} AskKeeps(t: Table, slots: nat, added: bool)
    requires WF(t) && Shaped(t)
    ensures Preserves(t, AskLoop(t, slots, added).t)
    decreases slots, if HasActive(t) then 0 else 1
  {
    hide WF, OneTurn, HasActive, Preserves;
    if slots == 0 {
      PreservesReflexive(t);
    } else {
      TurnKeeps(t, added);
      PreservesWF(t, OneTurn(t, added).t);
      match OneTurn(t, added) {
        case Promotion(t') =>
          AskKeeps(t', slots, added);
          PreservesTransitive(t, t', AskLoop(t, slots, added).t);
        case Halt(t', stop) =>
        case Start(t', p) =>
          AskKeeps(t', slots - 1, added || p.active == Inactive);
          PreservesTransitive(t, t', AskLoop(t, slots, added).t);
      }
    }
  }

  /**
   The pairs handed out fit the vector and fill it exactly when the loop says so; they
   are exactly the pairs put on trial, and each is counted once.
   */
  lemma {:induction false} AskEffect(t: Table, slots: nat, added: bool)
    requires WF(t) && Shaped(t) && t.trials < UINT32
    ensures var r := AskLoop(t, slots, added);
            && |r.pairs| <= slots && (r.stop == Full <==> |r.pairs| == slots)
            && TurnDoes(t, r.t, r.pairs)
    decreases slots, if HasActive(t) then 0 else 1
  {
    hide WF, OneTurn, HasActive, Preserves, TurnDoes;
    if slots == 0 {
      DoesReflexive(t);
    } else {
      TurnKeeps(t, added);
      PreservesWF(t, OneTurn(t, added).t);
      TurnEffect(t, added);
      match OneTurn(t, added) {
        case Promotion(t') =>
          DoesTrials(t, t', []);
          AskEffect(t', slots, added);
          DoesTransitive(t, t', AskLoop(t, slots, added).t, [], AskLoop(t, slots, added).pairs);
        case Halt(t', stop) =>
        case Start(t', p) =>
          var r := AskLoop(t', slots - 1, added || p.active == Inactive);
          DoesTrials(t, t', [p.id]);
          AskEffect(t', slots - 1, added || p.active == Inactive);
          DoesTransitive(t, t', r.t, [p.id], r.pairs);
      }
    }
  }

  // ----- The pairs handed out form a matching -----

  predicate OffTrial(t: Table, id: ConId)
    requires Shaped(t) && id in t.cons
  {
    t.nicState[t.cons[id].client] != OnTrial && t.nicState[t.cons[id].server] != OnTrial
  }

  predicate Apart(c: Con, d: Con) {
    c.client != d.client && c.server != d.server
  }

  /** No pair of the list has a NIC on trial, and no two of them share a NIC. */
  ghost predicate Matching(t: Table, pairs: seq<ConId>)
    requires Shaped(t)
  {
    && (forall i :: 0 <= i < |pairs| ==> pairs[i] in t.cons && OffTrial(t, pairs[i]))
    && (forall i, j :: 0 <= i < j < |pairs| ==> Apart(t.cons[pairs[i]], t.cons[pairs[j]]))
  }

  lemma MatchingBack(t: Table, t': Table, pairs: seq<ConId>)
    requires Shaped(t) && TrialFrame(t, t') && Matching(t', pairs)
    ensures Matching(t, pairs)
  {
    forall i | 0 <= i < |pairs|
      ensures pairs[i] in t.cons && OffTrial(t, pairs[i]) && SamePair(t.cons[pairs[i]], t'.cons[pairs[i]])
    {
      assert OffTrial(t', pairs[i]) && SamePair(t.cons[pairs[i]], t'.cons[pairs[i]]);
    }
    forall i, j | 0 <= i < j < |pairs|
      ensures Apart(t.cons[pairs[i]], t.cons[pairs[j]])
    {
      assert Apart(t'.cons[pairs[i]], t'.cons[pairs[j]]);
    }
  }

  lemma MatchingCons(t: Table, t': Table, id: ConId, pairs: seq<ConId>)
    requires Shaped(t) && TrialFrame(t, t') && Matching(t', pairs)
    requires id in t.cons && OffTrial(t, id)
    requires t'.nicState[t'.cons[id].client] == OnTrial && t'.nicState[t'.cons[id].server] == OnTrial
    ensures Matching(t, [id] + pairs)
  {
    MatchingBack(t, t', pairs);
    assert SamePair(t.cons[id], t'.cons[id]);
    forall j | 0 <= j < |pairs|
      ensures Apart(t.cons[id], t.cons[pairs[j]])
    {
      assert OffTrial(t', pairs[j]) && SamePair(t.cons[pairs[j]], t'.cons[pairs[j]]);
    }
  }

  lemma TurnTakes(t: Table, added: bool)
    requires WF(t) && Shaped(t)
    ensures var u := OneTurn(t, added);
            u.Start? ==> && Shaped(u.t) && u.pick.id in u.t.cons
                         && u.t.nicState[u.t.cons[u.pick.id].client] == OnTrial &&
                           u.t.nicState[u.t.cons[u.pick.id].server] == OnTrial
  {
    hide WF, CountStats, AllBenign, OfferSound, Choose;
    CountStatsSound(t);
    ChooseOffered(CountStats(t).t, CountStats(t).stats, added);
  }

  /** The pairs handed out by one request form a matching, and none of their NICs was on trial before. */
  lemma {:induction false} AskMatching(t: Table, slots: nat, added: bool)
    requires WF(t) && Shaped(t)
    ensures Matching(t, AskLoop(t, slots, added).pairs)
    decreases slots, if HasActive(t) then 0 else 1
  {
    hide WF, OneTurn, HasActive, Preserves, TrialFrame, TrialsAre, OffTrial, Apart;
    if slots > 0 {
      TurnKeeps(t, added);
      PreservesWF(t, OneTurn(t, added).t);
      TurnEffect(t, added);
      match OneTurn(t, added) {
        case Promotion(t') =>
          AskMatching(t', slots, added);
          MatchingBack(t, t', AskLoop(t, slots, added).pairs);
        case Halt(t', stop) =>
        case Start(t', p) =>
          AskMatching(t', slots - 1, added || p.active == Inactive);
          TurnTakes(t, added);
          OnOfferOffTrial(t, p.id);
          MatchingCons(t, t', p.id, AskLoop(t', slots - 1, added || p.active == Inactive).pairs);
      }
    }
  }

  lemma OnOfferOffTrial(t: Table, id: ConId)
    requires Shaped(t)
    ensures OnOffer(t, id) ==> OffTrial(t, id)
  {
  }

  // ----- Nothing worth trying is left -----

  /** Every potential pair of two idle NICs that has a speed is slower than some active connection. */
  ghost predicate Saturated(t: Table)
    requires Shaped(t)
  {
    forall id :: id in t.cons && FreePotential(t, t.cons[id]) && LinkSpeed(t.nics, t.cons[id]) > 0 ==>
      exists a :: a in t.cons && ActiveCon(t.cons[a]) && t.cons[a].speed > LinkSpeed(t.nics, t.cons[id])
  }

  lemma CountSaturates(t: Table, st: Stats, added: bool)
    requires Shaped(t) && ActivitySound(t.cons, st) && OfferSound(t, st) && !t.preferWired
    requires Choose(t, st, added).None?
    ensures Saturated(t)
  {
    hide LinkSpeed, Offered;
    assert NoneFaster(t, st.maxPotential);
    if st.potential.Some? {
      assert st.maxPotential < st.maxActive;
      var a :| a in t.cons && ActiveCon(t.cons[a]) && t.cons[a].speed == st.maxActive;
    }
  }

  lemma TurnSaturates(t: Table, added: bool)
    requires WF(t) && Shaped(t) && !t.preferWired
    ensures var u := OneTurn(t, added); u.Halt? && u.stop == NothingToAdd ==> Shaped(u.t) && Saturated(u.t)
  {
    hide WF, CountStats, OfferSound, Choose, ActivitySound, Saturated;
    CountStatsSound(t);
    assert CountStats(t).t.preferWired == t.preferWired;
    hide AllBenign;
    if OneTurn(t, added).Halt? && OneTurn(t, added).stop == NothingToAdd {
      CountSaturates(CountStats(t).t, CountStats(t).stats, added);
    }
  }

  /** When the loop ends for want of a pair worth adding, the table is saturated. */
  lemma {:induction false} AskSaturates(t: Table, slots: nat, added: bool)
    requires WF(t) && Shaped(t) && !t.preferWired
    ensures var r := AskLoop(t, slots, added); r.stop == NothingToAdd ==> Shaped(r.t) && Saturated(r.t)
    decreases slots, if HasActive(t) then 0 else 1
  {
    hide WF, OneTurn, HasActive, Preserves, Saturated;
    if slots > 0 {
      TurnKeeps(t, added);
      PreservesWF(t, OneTurn(t, added).t);
      TurnEffect(t, added);
      TurnSaturates(t, added);
      match OneTurn(t, added) {
        case Promotion(t') => AskSaturates(t', slots, added);
        case Halt(t', stop) =>
        case Start(t', p) => AskSaturates(t', slots - 1, added || p.active == Inactive);
      }
    }
  }

  /** The channel limit is reached and, unless wired NICs are preferred, no potential pair of two
      idle NICs is faster than every active connection. */
  ghost predicate Capped(t: Table)
    requires Shaped(t)
  {
    && |ActiveIds(t.cons)| + |InactiveIds(t.cons)| >= t.maxChannels
    && (!t.preferWired ==>
          forall id :: id in t.cons && FreePotential(t, t.cons[id]) ==>
            exists a :: a in t.cons && ActiveCon(t.cons[a]) && t.cons[a].speed >= LinkSpeed(t.nics, t.cons[id]))
  }

  lemma CountCaps(t: Table, st: Stats)
    requires Shaped(t) && ActivitySound(t.cons, st) && OfferSound(t, st) && AtChannelLimit(t, st)
    requires st.active == |ActiveIds(t.cons)| && st.inactive == |InactiveIds(t.cons)|
    ensures Capped(t)
  {
    hide LinkSpeed, Offered, ActiveIds, InactiveIds;
    var a :| a in t.cons && ActiveCon(t.cons[a]) && t.cons[a].speed == st.maxActive;
    assert !t.preferWired ==> NoneFaster(t, st.maxPotential);
  }

  lemma TurnLimit(t: Table, added: bool)
    requires WF(t) && Shaped(t)
    ensures var u := OneTurn(t, added); u.Halt? && u.stop == ChannelLimit ==> Shaped(u.t) && Capped(u.t)
  {
    hide WF, CountStats, OfferSound, Choose, ActivitySound, Capped;
    CountStatsSound(t);
    CountStatsCounts(t);
    var r := CountStats(t).t;
    assert forall id :: id in t.cons ==> Benign(t.cons[id], r.cons[id]);
    assert ActiveIds(r.cons) == ActiveIds(t.cons) && InactiveIds(r.cons) == InactiveIds(t.cons);
    if OneTurn(t, added).Halt? && OneTurn(t, added).stop == ChannelLimit {
      CountCaps(r, CountStats(t).stats);
    }
  }

  /** When the loop ends at the channel limit, the table is capped. */
  lemma {:induction false} AskLimit(t: Table, slots: nat, added: bool)
    requires WF(t) && Shaped(t)
    ensures var r := AskLoop(t, slots, added); r.stop == ChannelLimit ==> Shaped(r.t) && Capped(r.t)
    decreases slots, if HasActive(t) then 0 else 1
  {
    hide WF, OneTurn, HasActive, Preserves, Capped;
    if slots > 0 {
      TurnKeeps(t, added);
      PreservesWF(t, OneTurn(t, added).t);
      TurnLimit(t, added);
      TurnEffect(t, added);
      match OneTurn(t, added) {
        case Promotion(t') => AskLimit(t', slots, added);
        case Halt(t', stop) =>
        case Start(t', p) => AskLimit(t', slots - 1, added || p.active == Inactive);
      }
    }
  }

  // ----- The public call -----

  /** A request for at most `slots` trials. */
  ghost function Ask(t: Table, slots: nat): Handout
    requires WF(t) && Shaped(t)
  {
    if t.pause > 0 then Handout(t, [], Refused)
    else if t.trials > t.maxChannels then Handout(t, [], Refused)
    else AskLoop(t, slots, false)
  }

  /** A paused table, or one with more open trials than channels allowed, hands out nothing and does not change. */
  lemma AskRefused(t: Table, slots: nat)
    requires WF(t) && Shaped(t) && t.trials < UINT32
    requires t.pause > 0 || t.trials > t.maxChannels
    ensures Ask(t, slots).pairs == [] && Ask(t, slots).t == t
  {
  }

  /**
   One request hands out at most `slots` pairs, a matching none of whose NICs was on
   trial; exactly these pairs become pairs on trial, each counted once.
   */
  lemma AskHandsOutMatching(t: Table, slots: nat)
    requires WF(t) && Shaped(t) && t.trials < UINT32
    ensures var r := Ask(t, slots); |r.pairs| <= slots && Matching(t, r.pairs) && TurnDoes(t, r.t, r.pairs)
  {
    hide WF, AskLoop, TurnDoes, Matching;
    AskMatching(t, slots, false);
    AskEffect(t, slots, false);
    DoesReflexive(t);
    MatchingNone(t);
  }

  lemma MatchingNone(t: Table)
    requires Shaped(t)
    ensures Matching(t, [])
  {
  }

  /**
   A request that was not refused and left room in the vector ended at the channel limit, with
   the table capped, or for want of a pair, with the table saturated unless wired NICs are
   preferred.
   */
  lemma AskLeavesNothing(t: Table, slots: nat)
    requires WF(t) && Shaped(t) && t.trials < UINT32
    requires t.pause == 0 && t.trials <= t.maxChannels && |Ask(t, slots).pairs| < slots
    ensures var r := Ask(t, slots);
      && Shaped(r.t) && (r.stop == ChannelLimit || r.stop == NothingToAdd)
      && (r.stop == ChannelLimit ==> Capped(r.t))
      && (r.stop == NothingToAdd && !t.preferWired ==> Saturated(r.t))
  {
    hide WF, AskLoop, TurnDoes, Saturated, Capped, Preserves;
    AskKeeps(t, slots, false);
    PreservesWF(t, Ask(t, slots).t);
    AskEffect(t, slots, false);
    AskLimit(t, slots, false);
    AskStops(t, slots, false);
    if !t.preferWired {
      AskSaturates(t, slots, false);
    }
  }

  lemma {:induction false} AskStops(t: Table, slots: nat, added: bool)
    requires WF(t) && Shaped(t)
    ensures AskLoop(t, slots, added).stop != Refused
    decreases slots, if HasActive(t) then 0 else 1
  {
    hide WF, OneTurn, HasActive, Preserves;
    if slots > 0 {
      TurnKeeps(t, added);
      PreservesWF(t, OneTurn(t, added).t);
      TurnEffect(t, added);
      match OneTurn(t, added) {
        case Promotion(t') => AskStops(t', slots, added);
        case Halt(t', stop) =>
        case Start(t', p) => AskStops(t', slots - 1, added || p.active == Inactive);
      }
    }
  }

  lemma AskPreserves(t: Table, slots: nat)
    requires WF(t) && Shaped(t)
    ensures Preserves(t, Ask(t, slots).t)
  {
    hide WF, AskLoop, Preserves;
    PreservesReflexive(t);
    AskKeeps(t, slots, false);
  }
}
