/**
 Which pair each turn of a trial request takes, said of the table before the turn: the offer of the turn, whether
 it is worth a trial, and whether it is meant to be active.
 */
module McChoice {
  import opened Options
  import opened McTypes
  import opened McConList
  import opened McStats
  import opened McTrial

  // ----- The first best of a kind -----

  /** The kinds of pairs that counting looks for the fastest of. */
  datatype Kind = AnyOpen | WiredOpen | Spare

  function At(t: Table, i: nat): Con
    requires Shaped(t) && i < |t.conList|
  {
    t.cons[t.conList[i]]
  }

  /** The pair at `i` is of the kind: potential behind two idle NICs, the same and wired where that is preferred, or
      connected and inactive. */
  ghost predicate Fits(t: Table, i: nat, kind: Kind)
    requires Shaped(t) && i < |t.conList|
  {
    match kind
    case AnyOpen => At(t, i).state == Potential && Free(t.nicState, At(t, i))
    case WiredOpen =>
      At(t, i).state == Potential && Free(t.nicState, At(t, i)) && t.preferWired && Wired(t.nics, At(t, i))
    case Spare => At(t, i).state == Connected && At(t, i).active == Inactive
  }

  /** The speed that counts: what the NICs of an open pair allow, what a connection has. */
  function Rate(t: Table, i: nat, kind: Kind): nat
    requires Shaped(t) && i < |t.conList|
  {
    if kind.Spare? then At(t, i).speed else LinkSpeed(t.nics, At(t, i))
  }

  /** Of the first `k` pairs that at `i` is the fastest of its kind, and the first of these. */
  ghost predicate Best(t: Table, k: nat, kind: Kind, i: nat)
    requires Shaped(t) && k <= |t.conList|
  {
    && i < k && Fits(t, i, kind) && Rate(t, i, kind) > 0
    && forall j :: 0 <= j < k && Fits(t, j, kind) ==>
         Rate(t, j, kind) <= Rate(t, i, kind) && (j < i ==> Rate(t, j, kind) < Rate(t, i, kind))
  }

  /** None of the first `k` pairs is of the kind and has a speed. */
  ghost predicate NoBest(t: Table, k: nat, kind: Kind)
    requires Shaped(t) && k <= |t.conList|
  {
    forall j :: 0 <= j < k && Fits(t, j, kind) ==> Rate(t, j, kind) == 0
  }

  /** The pair and its speed are those of the first best, or nothing and zero if there is none. */
  ghost predicate BestIs(t: Table, k: nat, kind: Kind, id: Option<ConId>, speed: nat)
    requires Shaped(t) && k <= |t.conList|
  {
    || (id.None? && speed == 0 && NoBest(t, k, kind))
    || exists i: nat :: i < k && Best(t, k, kind, i) && id == Some(t.conList[i]) && speed == Rate(t, i, kind)
  }

  function Found(st: Stats, kind: Kind): Option<ConId> {
    match kind
    case AnyOpen => st.potential
    case WiredOpen => st.potentialWired
    case Spare => st.fastestInactive
  }

  function Top(st: Stats, kind: Kind): nat {
    match kind
    case AnyOpen => st.maxPotential
    case WiredOpen => st.maxPotentialWired
    case Spare => st.maxInactive
  }

  lemma TallyStep(t: Table, k: nat, kind: Kind)
    requires Shaped(t) && 0 < k <= |t.conList|
    ensures var p, st := Tally(t, k - 1), Tally(t, k);
      if Fits(t, k - 1, kind) && Rate(t, k - 1, kind) > Top(p, kind)
      then Found(st, kind) == Some(t.conList[k - 1]) && Top(st, kind) == Rate(t, k - 1, kind)
      else Found(st, kind) == Found(p, kind) && Top(st, kind) == Top(p, kind)
  {
    hide LinkSpeed, Tally;
    TallyLast(t, k);
  }

  lemma TallyLast(t: Table, k: nat)
    requires Shaped(t) && k <= |t.conList|
    ensures k == 0 ==> Tally(t, k) == NO_STATS
    ensures k > 0 ==>
      && t.conList[k - 1] in t.cons
      && Tally(t, k) == Counted(t, Tally(t, k - 1), t.conList[k - 1], Refreshed(t, t.cons[t.conList[k - 1]]))
  {
    hide Counted;
  }

  lemma {:induction false} TallyBest(t: Table, k: nat, kind: Kind)
    requires Shaped(t) && k <= |t.conList|
    ensures BestIs(t, k, kind, Found(Tally(t, k), kind), Top(Tally(t, k), kind))
  {
    hide Tally, BestIs, Shaped;
    if k == 0 {
      TallyLast(t, k);
      BestNone(t, kind);
    } else {
      TallyBest(t, k - 1, kind);
      TallyStep(t, k, kind);
      BestStep(t, k, kind, Found(Tally(t, k - 1), kind), Top(Tally(t, k - 1), kind));
    }
  }

  lemma BestNone(t: Table, kind: Kind)
    requires Shaped(t)
    ensures BestIs(t, 0, kind, None, 0)
  {
  }

  lemma BestStep(t: Table, k: nat, kind: Kind, id: Option<ConId>, speed: nat)
    requires Shaped(t) && 0 < k <= |t.conList| && BestIs(t, k - 1, kind, id, speed)
    ensures if Fits(t, k - 1, kind) && Rate(t, k - 1, kind) > speed
      then BestIs(t, k, kind, Some(t.conList[k - 1]), Rate(t, k - 1, kind)) else BestIs(t, k, kind, id, speed)
  {
    hide Fits, Rate, Shaped;
    if Fits(t, k - 1, kind) && Rate(t, k - 1, kind) > speed {
      assert Best(t, k, kind, k - 1);
    } else if id.Some? {
      var i: nat :| i < k - 1 && Best(t, k - 1, kind, i) && id == Some(t.conList[i]) && speed == Rate(t, i, kind);
      assert Best(t, k, kind, i);
    }
  }

  lemma BestUnique(t: Table, k: nat, kind: Kind, i: nat, j: nat)
    requires Shaped(t) && k <= |t.conList| && Best(t, k, kind, i) && Best(t, k, kind, j)
    ensures i == j
  {
    hide Fits, Rate, Shaped;
  }

  // ----- Upgrades -----

  /** One NIC is in use and the other idle. */
  predicate Astride(t: Table, c: Con)
    requires EndStates(t.nicState, c)
  {
    var a, b := t.nicState[c.client], t.nicState[c.server];
    (a == Used && b == Idle) || (a == Idle && b == Used)
  }

  /** The pair at `i` could replace a slower channel: it is faster than every active connection, astride a NIC in use
      and an idle one, and wired where that is preferred. */
  ghost predicate Upgrade(t: Table, i: nat)
    requires Shaped(t) && i < |t.conList|
  {
    && HasActive(t) && (At(t, i).state == Surplus || At(t, i).state == Potential) && Astride(t, At(t, i))
    && (t.preferWired ==> Wired(t.nics, At(t, i)))
    && forall a :: a in t.cons && ActiveCon(t.cons[a]) ==> t.cons[a].speed < LinkSpeed(t.nics, At(t, i))
  }

  ghost predicate FirstUp(t: Table, i: nat)
    requires Shaped(t)
  {
    i < |t.conList| && Upgrade(t, i) && forall j :: 0 <= j < i ==> !Upgrade(t, j)
  }

  ghost predicate NoUpgrade(t: Table)
    requires Shaped(t)
  {
    forall i :: 0 <= i < |t.conList| ==> !Upgrade(t, i)
  }

  /** The kind of open pair sought first. */
  function Sought(t: Table): Kind {
    if t.preferWired then WiredOpen else AnyOpen
  }

  /** There is no open pair of the kind sought. */
  ghost predicate Closed(t: Table)
    requires Shaped(t)
  {
    NoBest(t, |t.conList|, Sought(t))
  }

  /** The recorded speed is the highest of the active connections. */
  ghost predicate TopActive(t: Table, speed: nat) {
    && (forall a :: a in t.cons && ActiveCon(t.cons[a]) ==> t.cons[a].speed <= speed)
    && (speed > 0 ==> exists a :: a in t.cons && ActiveCon(t.cons[a]) && t.cons[a].speed == speed)
  }

  lemma FirstPassIs(t: Table)
    requires Shaped(t)
    ensures var f := FirstPass(t);
      && Shaped(f) && f == t.(cons := f.cons) && f.cons.Keys == t.cons.Keys
      && forall id :: id in t.cons ==>
           && f.cons[id] == t.cons[id].(speed := f.cons[id].speed)
           && (f.cons[id].speed == t.cons[id].speed || f.cons[id].speed == LinkSpeed(t.nics, t.cons[id]))
           && (t.cons[id].state != Potential ==> f.cons[id] == t.cons[id])
  {
    hide LinkSpeed;
  }

  lemma UpgradableIs(t: Table, maxActive: nat, i: nat)
    requires Shaped(t) && i < |t.conList| && TopActive(t, maxActive) && HasActive(t)
    ensures var f := FirstPass(t); Upgradable(f, f.cons[f.conList[i]], maxActive) <==> Upgrade(t, i)
  {
    hide FirstPass;
    FirstPassIs(t);
    var a :| a in ActiveIds(t.cons);
    assert ActiveCon(t.cons[a]);
  }

  /** Where the second loop stops. */
  lemma SeekStops(t: Table, maxActive: nat)
    requires Shaped(t) && TopActive(t, maxActive) && HasActive(t)
    ensures var r := FirstUpgrade(FirstPass(t), maxActive, 0);
      if r < |t.conList| then FirstUp(t, r) else NoUpgrade(t)
  {
    hide Upgradable, Upgrade, FirstPass, TopActive, HasActive;
    FirstPassIs(t);
    var f := FirstPass(t);
    forall i: nat | i < |t.conList|
      ensures f.conList[i] in f.cons && (Upgradable(f, f.cons[f.conList[i]], maxActive) <==> Upgrade(t, i))
    {
      UpgradableIs(t, maxActive, i);
    }
  }

  // ----- What counting tells -----

  ghost predicate NoWiredSpare(t: Table)
    requires Shaped(t)
  {
    forall b :: b in t.cons && InactiveCon(t.cons[b]) ==> !Wired(t.nics, t.cons[b])
  }

  /** The fastest open pairs are recorded, and there is one of the kind sought or no upgrade. */
  ghost predicate TellsOpen(t: Table, st: Stats)
    requires Shaped(t)
  {
    && BestIs(t, |t.conList|, AnyOpen, st.potential, st.maxPotential)
    && BestIs(t, |t.conList|, WiredOpen, st.potentialWired, st.maxPotentialWired)
  }

  /** The first upgrade is recorded, as the fastest pair and as the fastest wired one. */
  ghost predicate TellsUpgrade(t: Table, st: Stats)
    requires Shaped(t)
  {
    exists i: nat :: && i < |t.conList| && FirstUp(t, i) && st.potential == st.potentialWired == Some(t.conList[i])
                     && st.maxPotential == st.maxPotentialWired == LinkSpeed(t.nics, At(t, i))
  }

  ghost predicate Tells(t: Table, st: Stats)
    requires Shaped(t)
  {
    && st.active == |ActiveIds(t.cons)| && st.inactive == |InactiveIds(t.cons)| && TopActive(t, st.maxActive)
    && BestIs(t, |t.conList|, Spare, st.fastestInactive, st.maxInactive)
    && (st.wiredInactive == 0 <==> NoWiredSpare(t))
    && if Closed(t) && !NoUpgrade(t) then TellsUpgrade(t, st) else TellsOpen(t, st)
  }

  lemma {:induction false} TallyWired(t: Table, k: nat)
    requires Shaped(t) && k <= |t.conList|
    ensures Tally(t, k).wiredInactive == 0 <==>
      forall i :: 0 <= i < k && InactiveCon(At(t, i)) ==> !Wired(t.nics, At(t, i))
  {
    hide LinkSpeed, Tally, Shaped;
    TallyLast(t, k);
    if k > 0 {
      TallyWired(t, k - 1);
      WiredStep(t, k);
    }
  }

  lemma WiredStep(t: Table, k: nat)
    requires Shaped(t) && 0 < k <= |t.conList|
    ensures Tally(t, k).wiredInactive == Tally(t, k - 1).wiredInactive +
      if InactiveCon(At(t, k - 1)) && Wired(t.nics, At(t, k - 1)) then 1 else 0
  {
    hide LinkSpeed, Tally;
    TallyLast(t, k);
  }

  lemma WiredTells(t: Table)
    requires Shaped(t) && forall id :: id in t.cons ==> id in t.conList
    ensures Tally(t, |t.conList|).wiredInactive == 0 <==> NoWiredSpare(t)
  {
    hide Tally, Shaped;
    TallyWired(t, |t.conList|);
    ShapedList(t);
    forall id | id in t.cons
      ensures exists i: nat :: i < |t.conList| && At(t, i) == t.cons[id]
    {
      var i: nat :| i < |t.conList| && t.conList[i] == id;
      assert At(t, i) == t.cons[id];
    }
  }

  lemma ShapedList(t: Table)
    requires Shaped(t)
    ensures forall i :: 0 <= i < |t.conList| ==> t.conList[i] in t.cons
    ensures forall id :: id in t.cons ==> EndsKnown(t.nics, t.cons[id]) && EndStates(t.nicState, t.cons[id])
  {
  }

  lemma TallyTells(t: Table)
    requires WF(t) && Shaped(t)
    ensures var st := Tally(t, |t.conList|);
      && st.active == |ActiveIds(t.cons)| && st.inactive == |InactiveIds(t.cons)| && TopActive(t, st.maxActive)
      && BestIs(t, |t.conList|, Spare, st.fastestInactive, st.maxInactive)
      && (st.wiredInactive == 0 <==> NoWiredSpare(t)) && TellsOpen(t, st)
  {
    hide WF, Shaped, Tally, BestIs, ActiveIds, InactiveIds, CountStats, NoWiredSpare, OfferSound;
    var n := |t.conList|;
    CountStatsCounts(t);
    CountsAre(t);
    ConsListed(t);
    TallySound(t);
    TallyBest(t, n, AnyOpen);
    TallyBest(t, n, WiredOpen);
    TallyBest(t, n, Spare);
    WiredTells(t);
  }

  lemma CountsAre(t: Table)
    requires Shaped(t)
    ensures CountStats(t).stats.active == Tally(t, |t.conList|).active
    ensures CountStats(t).stats.inactive == Tally(t, |t.conList|).inactive
  {
    hide Tally, SeekUpgrade, FirstPass;
    SeekUpgradeFound(FirstPass(t), Tally(t, |t.conList|));
  }

  /** The second loop runs exactly if there is an active connection and no open pair of the kind sought. */
  lemma WantsIs(t: Table, st: Stats)
    requires Shaped(t) && st.active == |ActiveIds(t.cons)| && TellsOpen(t, st)
    ensures WantsUpgrade(t, st) <==> HasActive(t) && Closed(t)
  {
    hide Fits, Rate, Shaped;
    var n := |t.conList|;
    BestOrNone(t, AnyOpen, st.potential, st.maxPotential);
    BestOrNone(t, WiredOpen, st.potentialWired, st.maxPotentialWired);
  }

  lemma BestOrNone(t: Table, kind: Kind, id: Option<ConId>, speed: nat)
    requires Shaped(t) && BestIs(t, |t.conList|, kind, id, speed)
    ensures id.None? <==> NoBest(t, |t.conList|, kind)
    ensures id.None? ==> speed == 0
  {
    hide Fits, Rate, Shaped;
  }

  lemma NoActiveNoUpgrade(t: Table)
    requires Shaped(t) && !HasActive(t)
    ensures NoUpgrade(t)
  {
    hide Shaped, HasActive;
  }

  /** A pair other than `but` may have its speed set to that of its slower NIC unless it is busy; nothing else
      changes, but that `but` is potential. */
  ghost predicate SpeedsOnly(t: Table, t': Table, but: Option<ConId>)
    requires Shaped(t)
  {
    && t' == t.(cons := t'.cons) && t'.cons.Keys == t.cons.Keys
    && forall id :: id in t.cons ==>
         && t'.cons[id] == t.cons[id].(speed := t'.cons[id].speed,
                                       state := if but == Some(id) then Potential else t.cons[id].state)
         && (t'.cons[id].speed == t.cons[id].speed || t'.cons[id].speed == LinkSpeed(t.nics, t.cons[id]))
         && (t.cons[id].state != Potential && t.cons[id].state != Surplus ==> t'.cons[id].speed == t.cons[id].speed)
  }

  lemma FirstPassSpeeds(t: Table)
    requires Shaped(t)
    ensures SpeedsOnly(t, FirstPass(t), None)
  {
    hide FirstPass, LinkSpeed;
    FirstPassIs(t);
  }

  /** The second loop stopped at `i`. */
  ghost predicate SeekFinds(t: Table, st: Stats, c: Census, i: nat)
    requires Shaped(t) && i < |t.conList|
  {
    && FirstUp(t, i) && SpeedsOnly(t, c.t, Some(t.conList[i]))
    && c.stats == st.(potential := Some(t.conList[i]), potentialWired := Some(t.conList[i]),
                      maxPotential := LinkSpeed(t.nics, At(t, i)), maxPotentialWired := LinkSpeed(t.nics, At(t, i)))
  }

  lemma SharedSpeeds(t: Table, f: Table, r: nat)
    requires Shaped(t) && Shaped(f) && SpeedsOnly(t, f, None) && r <= |t.conList|
    ensures SpeedsOnly(t, f.(cons := SharedTo(f, r)), None)
  {
    hide HalfUsed;
  }

  lemma UnparkSpeeds(t: Table, f: Table, id: ConId)
    requires Shaped(t) && SpeedsOnly(t, f, None) && id in t.cons
    requires t.cons[id].state == Surplus || t.cons[id].state == Potential
    ensures SpeedsOnly(t, f.(cons := f.cons[id := t.cons[id].(speed := LinkSpeed(t.nics, t.cons[id]),
                                                               state := Potential)]), Some(id))
  {
    hide LinkSpeed, Shaped;
  }

  /** What the second loop does to the pairs and the statistics. */
  lemma SeekMeans(t: Table, st: Stats)
    requires Shaped(t) && TopActive(t, st.maxActive) && HasActive(t)
    ensures var c := SeekUpgrade(FirstPass(t), st);
      if NoUpgrade(t) then c.stats == st && SpeedsOnly(t, c.t, None)
      else exists i: nat :: i < |t.conList| && SeekFinds(t, st, c, i)
  {
    hide FirstPass, TopActive, HasActive, FirstUpgrade, SharedTo, LinkSpeed, SpeedsOnly, Shaped, Astride, Upgradable;
    FirstPassSpeeds(t);
    SeekStops(t, st.maxActive);
    var f := FirstPass(t);
    var r := FirstUpgrade(f, st.maxActive, 0);
    SpeedsKept(t, f);
    SharedSpeeds(t, f, r);
    if r < |t.conList| {
      UnparkSpeeds(t, f.(cons := SharedTo(f, r)), t.conList[r]);
      assert SeekFinds(t, st, SeekUpgrade(f, st), r);
    }
  }

  lemma SpeedsKept(t: Table, f: Table)
    requires Shaped(t) && SpeedsOnly(t, f, None)
    ensures Shaped(f) && f == t.(cons := f.cons)
    ensures forall i :: 0 <= i < |t.conList| ==>
      var id := t.conList[i];
      && id in t.cons && id in f.cons && f.cons[id] == t.cons[id].(speed := f.cons[id].speed)
      && EndsKnown(t.nics, t.cons[id]) && LinkSpeed(f.nics, f.cons[id]) == LinkSpeed(t.nics, t.cons[id])
  {
  }

  /** Counting tells what there is, and unparks at most the first upgrade. */
  lemma CountTells(t: Table)
    requires WF(t) && Shaped(t)
    ensures var c := CountStats(t);
      && Tells(t, c.stats)
      && if Closed(t) && !NoUpgrade(t) then
           exists i: nat :: && i < |t.conList| && FirstUp(t, i) && SpeedsOnly(t, c.t, Some(t.conList[i]))
                            && c.stats.potential == Some(t.conList[i])
         else SpeedsOnly(t, c.t, None)
  {
    hide WF, Tally, BestIs, ActiveIds, InactiveIds, HasActive, TopActive, NoWiredSpare, SeekUpgrade, Closed,
      NoUpgrade, FirstPass, Shaped, SpeedsOnly, LinkSpeed, FirstUp, WantsUpgrade;
    var st := Tally(t, |t.conList|);
    TallyTells(t);
    WantsIs(t, st);
    FirstPassSpeeds(t);
    if HasActive(t) {
      SeekMeans(t, st);
    } else {
      NoActiveNoUpgrade(t);
    }
  }

  // ----- The offer of a turn -----

  /**
   The pair that a turn considers: the fastest open one, or wired one where that is preferred; failing that the
   first upgrade; failing that too, where wired NICs are preferred and no connection is inactive, the fastest open
   one of any kind.
   */
  ghost predicate Offer(t: Table, i: nat)
    requires Shaped(t) && i < |t.conList|
  {
    || Best(t, |t.conList|, Sought(t), i)
    || (Closed(t) && FirstUp(t, i))
    || (t.preferWired && Closed(t) && NoUpgrade(t) && InactiveIds(t.cons) == {} && Best(t, |t.conList|, AnyOpen, i))
  }

  /** The pair is at least as fast as every active connection, and wired where that is preferred. */
  ghost predicate Leads(t: Table, i: nat)
    requires Shaped(t) && i < |t.conList|
  {
    && (t.preferWired ==> Wired(t.nics, At(t, i)))
    && forall a :: a in t.cons && ActiveCon(t.cons[a]) ==> t.cons[a].speed <= LinkSpeed(t.nics, At(t, i))
  }

  /** A spare is wanted: the pair is faster than every inactive connection, or there is none yet, or no wired one
      where that is preferred, and no earlier turn has added one. */
  ghost predicate SpareWanted(t: Table, i: nat, added: bool)
    requires Shaped(t) && i < |t.conList|
  {
    || (forall b :: b in t.cons && InactiveCon(t.cons[b]) ==> t.cons[b].speed < LinkSpeed(t.nics, At(t, i)))
    || (!added && (InactiveIds(t.cons) == {} || (t.preferWired && NoWiredSpare(t))))
  }

  /** The pair and the speed that the choice is about. */
  function Considered(t: Table, st: Stats): (Option<ConId>, nat) {
    if !t.preferWired then (st.potential, st.maxPotential)
    else if st.potentialWired.Some? then (st.potentialWired, st.maxPotentialWired)
    else if st.inactive == 0 then (st.potential, st.maxPotential)
    else (None, 0)
  }

  lemma ChooseIs(t: Table, st: Stats, added: bool)
    ensures var (pair, speed) := Considered(t, st);
      var fallback := t.preferWired && st.potentialWired.None?;
      Choose(t, st, added) ==
        if pair.None? then None
        else if speed >= st.maxActive && !fallback then Some(Pick(pair.value, Active))
        else if speed > st.maxInactive || (!added && (st.inactive == 0 || (t.preferWired && st.wiredInactive == 0)))
        then Some(Pick(pair.value, Inactive))
        else None
  {
  }

  /** What is considered is the offer. */
  lemma ConsideredOffer(t: Table, st: Stats)
    requires Shaped(t) && Tells(t, st)
    ensures var (pair, speed) := Considered(t, st);
      && (pair.None? ==> forall i: nat :: i < |t.conList| ==> !Offer(t, i))
      && (pair.Some? ==>
            exists i: nat :: i < |t.conList| && Offer(t, i) && pair == Some(t.conList[i])
                             && speed == LinkSpeed(t.nics, At(t, i)) > 0)
  {
    hide Fits, Shaped, LinkSpeed;
  }

  lemma OfferUnique(t: Table, i: nat, j: nat)
    requires Shaped(t) && i < |t.conList| && j < |t.conList| && Offer(t, i) && Offer(t, j)
    ensures i == j
  {
    hide Fits, Rate, Shaped, Upgrade;
  }

  /** The offer is wired where that is preferred, unless it is the last resort. */
  lemma OfferWired(t: Table, st: Stats, i: nat)
    requires Shaped(t) && Tells(t, st) && i < |t.conList| && Offer(t, i) && t.preferWired
    ensures Wired(t.nics, At(t, i)) <==> st.potentialWired.Some?
  {
    hide Shaped, LinkSpeed, Free;
    ShapedList(t);
    if Closed(t) && !NoUpgrade(t) {
      assert TellsUpgrade(t, st);
    } else {
      BestOrNone(t, WiredOpen, st.potentialWired, st.maxPotentialWired);
      assert Rate(t, i, WiredOpen) == Rate(t, i, AnyOpen);
      assert Fits(t, i, WiredOpen) <==> Fits(t, i, AnyOpen) && Wired(t.nics, At(t, i));
    }
  }

  lemma SpareBound(t: Table, st: Stats, speed: nat)
    requires Shaped(t) && Tells(t, st) && (forall id :: id in t.cons ==> id in t.conList) && speed > 0
    ensures speed > st.maxInactive <==> forall b :: b in t.cons && InactiveCon(t.cons[b]) ==> t.cons[b].speed < speed
  {
    hide Shaped, LinkSpeed, TellsUpgrade, TellsOpen, TopActive, Closed, NoUpgrade;
    ShapedList(t);
    forall b | b in t.cons && InactiveCon(t.cons[b])
      ensures t.cons[b].speed <= st.maxInactive
    {
      var i: nat :| i < |t.conList| && t.conList[i] == b;
      assert Fits(t, i, Spare) && Rate(t, i, Spare) == t.cons[b].speed;
    }
    if st.fastestInactive.Some? {
      var i: nat :| i < |t.conList| && Best(t, |t.conList|, Spare, i) && st.maxInactive == Rate(t, i, Spare);
      assert InactiveCon(t.cons[t.conList[i]]) && t.cons[t.conList[i]].speed == st.maxInactive;
    }
  }

  lemma TopBound(t: Table, top: nat, speed: nat)
    requires TopActive(t, top)
    ensures speed >= top <==> forall a :: a in t.cons && ActiveCon(t.cons[a]) ==> t.cons[a].speed <= speed
  {
  }

  /** The choice is the offer, active if it leads, as a spare if one is wanted, and nothing otherwise. */
  lemma ChooseMeans(t: Table, st: Stats, added: bool)
    requires Shaped(t) && Tells(t, st) && forall id :: id in t.cons ==> id in t.conList
    ensures Choose(t, st, added).None? ==>
      forall i: nat :: i < |t.conList| && Offer(t, i) ==> !Leads(t, i) && !SpareWanted(t, i, added)
    ensures Choose(t, st, added).Some? ==>
      exists i: nat :: && i < |t.conList| && Offer(t, i) && (Leads(t, i) || SpareWanted(t, i, added))
                       && Choose(t, st, added) == Some(Pick(t.conList[i], if Leads(t, i) then Active else Inactive))
  {
    hide Shaped, Offer, Tells, Choose, LinkSpeed, NoWiredSpare, TopActive;
    ChooseIs(t, st, added);
    ConsideredOffer(t, st);
    CountsTold(t, st);
    ShapedList(t);
    var (pair, speed) := Considered(t, st);
    if pair.Some? {
      var i: nat :| i < |t.conList| && Offer(t, i) && pair == Some(t.conList[i])
                    && speed == LinkSpeed(t.nics, At(t, i)) > 0;
      if t.preferWired { OfferWired(t, st, i); }
      SpareBound(t, st, speed);
      TopBound(t, st.maxActive, speed);
      forall j: nat | j < |t.conList| && Offer(t, j) ensures j == i { OfferUnique(t, i, j); }
    }
  }

  lemma CountsTold(t: Table, st: Stats)
    requires Shaped(t) && Tells(t, st)
    ensures st.inactive == 0 <==> InactiveIds(t.cons) == {}
    ensures st.active == 0 <==> !HasActive(t)
    ensures st.wiredInactive == 0 <==> NoWiredSpare(t)
    ensures TopActive(t, st.maxActive)
  {
    hide ActiveIds, InactiveIds, BestIs, NoWiredSpare, TopActive, TellsOpen, TellsUpgrade, Closed, NoUpgrade;
  }

  // ----- One turn -----

  /** No connection is active, and the pair at `i` is the fastest inactive one and has an iod. */
  ghost predicate Promotable(t: Table, i: nat)
    requires Shaped(t)
  {
    i < |t.conList| && !HasActive(t) && Best(t, |t.conList|, Spare, i) && At(t, i).iod.Some?
  }

  /** There are as many connections as allowed, and some active one has a speed, is faster than every inactive one
      and at least as fast as every open pair, and has no upgrade. */
  ghost predicate AtLimit(t: Table)
    requires Shaped(t)
  {
    && |ActiveIds(t.cons)| + |InactiveIds(t.cons)| >= t.maxChannels && !(Closed(t) && !NoUpgrade(t))
    && exists a :: && a in t.cons && ActiveCon(t.cons[a]) && t.cons[a].speed > 0
                   && (forall j :: 0 <= j < |t.conList| && Fits(t, j, AnyOpen) ==>
                         Rate(t, j, AnyOpen) <= t.cons[a].speed)
                   && (forall b :: b in t.cons && InactiveCon(t.cons[b]) ==> t.cons[b].speed < t.cons[a].speed)
  }

  /** The pair at `i` is now `c`; any other may have its speed set to that of its slower NIC unless it is busy. */
  ghost predicate Only(t: Table, t': Table, i: nat, c: Con)
    requires Shaped(t) && i < |t.conList|
  {
    && t' == t.(cons := t'.cons, nicState := t'.nicState, trials := t'.trials) && t'.cons.Keys == t.cons.Keys
    && t'.cons[t.conList[i]] == c
    && forall id :: id in t.cons && id != t.conList[i] ==>
         && t'.cons[id] == t.cons[id].(speed := t'.cons[id].speed)
         && (t'.cons[id].speed == t.cons[id].speed || t'.cons[id].speed == LinkSpeed(t.nics, t.cons[id]))
         && (t.cons[id].state != Potential && t.cons[id].state != Surplus ==> t'.cons[id].speed == t.cons[id].speed)
  }

  /** The turn makes the pair at `i` active. */
  ghost predicate PromotesAt(t: Table, t': Table, i: nat)
    requires Shaped(t)
  {
    && Promotable(t, i) && Only(t, t', i, At(t, i).(active := Active))
    && t'.nicState == t.nicState && t'.trials == t.trials
  }

  /** The turn puts the pair at `i` on trial: the offer, active if it leads, as a spare if one is wanted. */
  ghost predicate StartsAt(t: Table, t': Table, added: bool, p: Pick, i: nat)
    requires Shaped(t)
  {
    && i < |t.conList| && Offer(t, i) && (Leads(t, i) || SpareWanted(t, i, added))
    && p == Pick(t.conList[i], if Leads(t, i) then Active else Inactive)
    && Only(t, t', i, At(t, i).(active := p.active, state := InTrial, speed := LinkSpeed(t.nics, At(t, i))))
    && t'.nicState == t.nicState[At(t, i).client := OnTrial][At(t, i).server := OnTrial]
    && t'.trials == (t.trials + 1) % UINT32
  }

  /** No pair is worth a trial. */
  ghost predicate NothingWorth(t: Table, added: bool)
    requires Shaped(t)
  {
    forall i: nat :: i < |t.conList| && Offer(t, i) ==> !Leads(t, i) && !SpareWanted(t, i, added)
  }

  lemma PromotesIs(t: Table)
    requires WF(t) && Shaped(t)
    ensures var n := CountStats(t);
      && (n.stats.fastestInactive.Some? ==> n.stats.fastestInactive.value in n.t.cons)
      && (Promotes(n.t, n.stats) ==>
            exists i: nat :: i < |t.conList| && Promotable(t, i) && n.stats.fastestInactive == Some(t.conList[i]))
      && (!Promotes(n.t, n.stats) ==> forall i: nat :: !Promotable(t, i))
  {
    hide WF, Shaped, CountStats, AllBenign, Offered, NoneFaster, LinkSpeed, TopActive, NoWiredSpare, TellsOpen, Closed,
      TellsUpgrade, NoUpgrade, SpeedsOnly;
    var n := CountStats(t);
    CountTells(t);
    CountsTold(t, n.stats);
    CountStatsSound(t);
    ConnectedKept(t, n.t);
    forall i: nat | i < |t.conList| && Best(t, |t.conList|, Spare, i)
      ensures n.stats.fastestInactive == Some(t.conList[i]) && n.stats.inactive != 0
    {
      assert InactiveCon(At(t, i)) && t.conList[i] in InactiveIds(t.cons);
      forall j: nat | j < |t.conList| && Best(t, |t.conList|, Spare, j) ensures j == i {
        BestUnique(t, |t.conList|, Spare, i, j);
      }
    }
  }

  lemma ConnectedKept(t: Table, t': Table)
    requires Shaped(t) && AllBenign(t, t')
    ensures forall id :: id in t.cons && t.cons[id].state == Connected ==> id in t'.cons && t'.cons[id] == t.cons[id]
    ensures forall i :: 0 <= i < |t.conList| ==> t.conList[i] in t.cons && t.conList[i] in t'.cons
  {
  }

  /** The recorded speed bounds the open pairs, unless it is that of an upgrade. */
  lemma OpenBound(t: Table, st: Stats, speed: nat)
    requires Shaped(t) && Tells(t, st) && !(Closed(t) && !NoUpgrade(t))
    ensures speed >= st.maxPotential <==>
      forall j :: 0 <= j < |t.conList| && Fits(t, j, AnyOpen) ==> Rate(t, j, AnyOpen) <= speed
  {
    hide Shaped, Fits, Rate, TopActive, Closed, NoUpgrade, NoWiredSpare;
  }

  lemma UpgradeFaster(t: Table, st: Stats)
    requires Shaped(t) && Tells(t, st) && Closed(t) && !NoUpgrade(t)
    ensures st.maxPotential > st.maxActive
  {
    hide Shaped, Fits, Rate, Closed, NoUpgrade, NoWiredSpare, LinkSpeed, ActiveIds;
    ShapedList(t);
    var i: nat :| i < |t.conList| && FirstUp(t, i) && st.maxPotential == LinkSpeed(t.nics, At(t, i));
    assert HasActive(t) && Upgrade(t, i);
    ActiveExists(t);
  }

  lemma ActiveExists(t: Table)
    requires HasActive(t)
    ensures exists a :: a in t.cons && ActiveCon(t.cons[a])
  {
    var a :| a in ActiveIds(t.cons);
    assert ActiveCon(t.cons[a]);
  }

  lemma AtLimitIs(t: Table, st: Stats)
    requires Shaped(t) && Tells(t, st) && forall id :: id in t.cons ==> id in t.conList
    ensures AtChannelLimit(t, st) <==> AtLimit(t)
  {
    hide Shaped, Fits, Rate, Closed, NoUpgrade, NoWiredSpare, BestIs, TellsOpen, TellsUpgrade, ActiveIds, InactiveIds;
    if Closed(t) && !NoUpgrade(t) {
      UpgradeFaster(t, st);
    } else {
      if AtChannelLimit(t, st) {
        var a :| a in t.cons && ActiveCon(t.cons[a]) && t.cons[a].speed == st.maxActive;
        OpenBound(t, st, t.cons[a].speed);
        SpareBound(t, st, t.cons[a].speed);
      }
      if AtLimit(t) {
        var a :| && a in t.cons && ActiveCon(t.cons[a]) && t.cons[a].speed > 0
                 && (forall j :: 0 <= j < |t.conList| && Fits(t, j, AnyOpen) ==> Rate(t, j, AnyOpen) <= t.cons[a].speed)
                 && (forall b :: b in t.cons && InactiveCon(t.cons[b]) ==> t.cons[b].speed < t.cons[a].speed);
        OpenBound(t, st, t.cons[a].speed);
        SpareBound(t, st, t.cons[a].speed);
      }
    }
  }

  /**
   What a turn does.  It promotes the fastest inactive connection exactly if no connection is active and that one has
   an iod; otherwise it stops exactly at the limit or if nothing is worth a trial, and changes no more than the speeds
   of pairs not in use; otherwise it puts the offer on trial.
   */
  ghost predicate TurnIs(t: Table, added: bool, u: Turn)
    requires Shaped(t)
  {
    match u
    case Promotion(t') => exists i: nat :: PromotesAt(t, t', i)
    case Halt(t', stop) =>
      && (forall i: nat :: !Promotable(t, i)) && SpeedsOnly(t, t', None)
      && if stop == ChannelLimit then AtLimit(t) else stop == NothingToAdd && !AtLimit(t) && NothingWorth(t, added)
    case Start(t', p) =>
      (forall i: nat :: !Promotable(t, i)) && !AtLimit(t) && exists i: nat :: StartsAt(t, t', added, p, i)
  }

  /** An upgrade is always worth a trial. */
  lemma UpgradeLeads(t: Table, i: nat)
    requires Shaped(t) && Closed(t) && FirstUp(t, i)
    ensures Offer(t, i) && Leads(t, i)
  {
    hide Shaped, Closed, LinkSpeed;
  }

  lemma PromoteAt(t: Table, n: Table, i: nat)
    requires Shaped(t) && SpeedsOnly(t, n, None) && Promotable(t, i) && t.conList[i] in n.cons
    ensures PromotesAt(t, Promote(n, t.conList[i]), i)
  {
    hide Shaped, LinkSpeed, HasActive, Free;
    ShapedList(t);
  }

  lemma StartAt(t: Table, n: Table, but: Option<ConId>, added: bool, p: Pick, i: nat)
    requires Shaped(t) && Shaped(n) && SpeedsOnly(t, n, but) && i < |t.conList| && Offer(t, i)
    requires but.None? || but == Some(t.conList[i])
    requires Leads(t, i) || SpareWanted(t, i, added)
    requires p == Pick(t.conList[i], if Leads(t, i) then Active else Inactive) && p.id in n.cons
    ensures StartsAt(t, StartTrial(n, p), added, p, i)
  {
    hide Shaped, Offer, Leads, SpareWanted;
    ShapedList(t);
  }

  lemma TurnMeans(t: Table, added: bool)
    requires WF(t) && Shaped(t)
    ensures TurnIs(t, added, OneTurn(t, added))
  {
    hide WF, Shaped, CountStats, AllBenign, OfferSound, ActivitySound, Choose, Tells, Offer, Leads, SpareWanted,
      AtLimit, Promotes, Promotable, Closed, NoUpgrade, FirstUp, SpeedsOnly, Promote, StartTrial, PromotesAt, StartsAt,
      AtChannelLimit;
    var n := CountStats(t);
    CountTells(t);
    CountStatsSound(t);
    PromotesIs(t);
    SameConfig(t, n.t, n.stats, added);
    ConsListed(t);
    AtLimitIs(t, n.stats);
    ChooseMeans(t, n.stats, added);
    ChooseOffered(n.t, n.stats, added);
    if Closed(t) && !NoUpgrade(t) {
      TurnUpgrades(t, added);
    } else if Promotes(n.t, n.stats) {
      var i: nat :| i < |t.conList| && Promotable(t, i) && n.stats.fastestInactive == Some(t.conList[i]);
      PromoteAt(t, n.t, i);
    } else if !AtChannelLimit(n.t, n.stats) && Choose(n.t, n.stats, added).Some? {
      var i: nat :| && i < |t.conList| && Offer(t, i) && (Leads(t, i) || SpareWanted(t, i, added))
                    && Choose(t, n.stats, added) == Some(Pick(t.conList[i], if Leads(t, i) then Active else Inactive));
      StartAt(t, n.t, None, added, Choose(n.t, n.stats, added).value, i);
    }
  }

  lemma SameConfig(t: Table, n: Table, st: Stats, added: bool)
    requires AllBenign(t, n)
    ensures n.preferWired == t.preferWired
    ensures Choose(n, st, added) == Choose(t, st, added) && (AtChannelLimit(n, st) <==> AtChannelLimit(t, st))
  {
  }

  /** A turn that finds an upgrade puts it on trial. */
  lemma TurnUpgrades(t: Table, added: bool)
    requires WF(t) && Shaped(t) && Closed(t) && !NoUpgrade(t)
    ensures OneTurn(t, added).Start? && TurnIs(t, added, OneTurn(t, added))
  {
    hide WF, Shaped, CountStats, AllBenign, OfferSound, ActivitySound, Choose, Tells, Offer, Leads, SpareWanted,
      AtLimit, Closed, NoUpgrade, SpeedsOnly, Promote, StartTrial, PromotesAt, StartsAt, AtChannelLimit, Upgrade,
      HasActive, InactiveIds, ActiveIds;
    var n := CountStats(t);
    CountTells(t);
    CountStatsSound(t);
    PromotesIs(t);
    SameConfig(t, n.t, n.stats, added);
    ConsListed(t);
    AtLimitIs(t, n.stats);
    UpgradeFaster(t, n.stats);
    UpgradeAbove(n.t, n.stats);
    ChooseMeans(t, n.stats, added);
    ChooseOffered(n.t, n.stats, added);
    var i: nat :| i < |t.conList| && FirstUp(t, i) && SpeedsOnly(t, n.t, Some(t.conList[i]));
    UpgradeLeads(t, i);
    UpgradeActive(t, i);
    var j: nat :| && j < |t.conList| && Offer(t, j) && (Leads(t, j) || SpareWanted(t, j, added))
                  && Choose(t, n.stats, added) == Some(Pick(t.conList[j], if Leads(t, j) then Active else Inactive));
    OfferUnique(t, i, j);
    StartAt(t, n.t, Some(t.conList[i]), added, Choose(n.t, n.stats, added).value, i);
  }

  lemma UpgradeAbove(t: Table, st: Stats)
    requires st.maxPotential > st.maxActive
    ensures !AtChannelLimit(t, st)
  {
  }

  lemma UpgradeActive(t: Table, i: nat)
    requires Shaped(t) && FirstUp(t, i)
    ensures forall j: nat :: !Promotable(t, j)
  {
    hide Shaped, HasActive;
  }

  // ----- A whole request -----

  /** The table before turn `i`. */
  function Before(t: Table, us: seq<Turn>, i: nat): Table
    requires i <= |us|
  {
    if i == 0 then t else us[i - 1].t
  }

  /** Whether a turn before `i` has put a spare on trial, or one did before the first. */
  ghost predicate AddedBefore(us: seq<Turn>, i: nat, added: bool)
    requires i <= |us|
  {
    added || exists j :: 0 <= j < i && us[j].Start? && us[j].pick.active == Inactive
  }

  /** Each turn does what a turn does, on the table that the one before left, and the last one alone may stop. */
  ghost predicate TurnsRight(t: Table, us: seq<Turn>, added: bool) {
    forall i :: 0 <= i < |us| ==>
      && Shaped(Before(t, us, i)) && TurnIs(Before(t, us, i), AddedBefore(us, i, added), us[i])
      && (us[i].Halt? ==> i == |us| - 1)
  }

  /** The pairs put on trial, in order. */
  function Started(us: seq<Turn>): seq<ConId> {
    if us == [] then [] else (if us[0].Start? then [us[0].pick.id] else []) + Started(us[1..])
  }

  /** The request is a series of such turns; it has handed out what they put on trial and ended because the vector
      was full or for the reason that the last one gave. */
  ghost predicate RequestBy(t: Table, slots: nat, added: bool, r: Handout, us: seq<Turn>) {
    && TurnsRight(t, us, added) && r.pairs == Started(us) && r.t == Before(t, us, |us|)
    && if r.stop == Full then |r.pairs| == slots && (forall i :: 0 <= i < |us| ==> !us[i].Halt?)
       else us != [] && us[|us| - 1] == Halt(r.t, r.stop)
  }

  ghost predicate RequestRight(t: Table, slots: nat, added: bool, r: Handout) {
    exists us :: RequestBy(t, slots, added, r, us)
  }

  lemma TurnsCons(t: Table, u: Turn, us: seq<Turn>, added: bool)
    requires Shaped(t) && TurnIs(t, added, u) && !u.Halt?
    requires TurnsRight(u.t, us, added || (u.Start? && u.pick.active == Inactive))
    ensures TurnsRight(t, [u] + us, added)
  {
    hide TurnIs, Shaped;
    var all, added' := [u] + us, added || (u.Start? && u.pick.active == Inactive);
    forall i | 0 <= i < |all|
      ensures && Shaped(Before(t, all, i)) && TurnIs(Before(t, all, i), AddedBefore(all, i, added), all[i])
              && (all[i].Halt? ==> i == |all| - 1)
    {
      if i > 0 {
        assert Before(t, all, i) == Before(u.t, us, i - 1);
        AddedCons(u, us, i - 1, added);
      }
    }
  }

  lemma AddedCons(u: Turn, us: seq<Turn>, i: nat, added: bool)
    requires i <= |us|
    ensures AddedBefore([u] + us, i + 1, added) <==>
      AddedBefore(us, i, added || (u.Start? && u.pick.active == Inactive))
  {
    var all := [u] + us;
    assert all[0] == u && forall j :: 0 <= j < |us| ==> all[j + 1] == us[j];
    if AddedBefore(all, i + 1, added) && !added {
      var j :| 0 <= j < i + 1 && all[j].Start? && all[j].pick.active == Inactive;
      assert j > 0 ==> us[j - 1] == all[j];
    }
    if AddedBefore(us, i, added || (u.Start? && u.pick.active == Inactive)) &&
       !(added || (u.Start? && u.pick.active == Inactive)) {
      var j :| 0 <= j < i && us[j].Start? && us[j].pick.active == Inactive;
      assert all[j + 1] == us[j];
    }
  }

  lemma StartedCons(u: Turn, us: seq<Turn>)
    ensures Started([u] + us) == (if u.Start? then [u.pick.id] else []) + Started(us)
  {
    assert ([u] + us)[1..] == us;
  }

  lemma RequestCons(t: Table, slots: nat, added: bool, u: Turn, r: Handout, us: seq<Turn>)
    requires Shaped(t) && TurnIs(t, added, u) && !u.Halt? && (u.Start? ==> slots > 0)
    requires RequestBy(u.t, if u.Start? then slots - 1 else slots,
                       added || (u.Start? && u.pick.active == Inactive), r, us)
    ensures RequestBy(t, slots, added, Handout(r.t, (if u.Start? then [u.pick.id] else []) + r.pairs, r.stop), [u] + us)
  {
    hide TurnIs, Shaped, TurnsRight, Started;
    TurnsCons(t, u, us, added);
    StartedCons(u, us);
    assert Before(t, [u] + us, |us| + 1) == Before(u.t, us, |us|);
  }

  lemma {:induction false} LoopMeans(t: Table, slots: nat, added: bool)
    requires WF(t) && Shaped(t)
    ensures RequestRight(t, slots, added, AskLoop(t, slots, added))
    decreases slots, if HasActive(t) then 0 else 1
  {
    hide WF, Shaped, OneTurn, HasActive, Preserves, TurnIs, RequestBy;
    if slots == 0 {
      RequestNone(t, added);
    } else {
      var u, r := OneTurn(t, added), AskLoop(t, slots, added);
      TurnKeeps(t, added);
      PreservesWF(t, u.t);
      TurnMeans(t, added);
      match u {
        case Promotion(t') =>
          LoopMeans(t', slots, added);
          var us :| RequestBy(t', slots, added, AskLoop(t', slots, added), us);
          RequestCons(t, slots, added, u, AskLoop(t', slots, added), us);
          assert [] + r.pairs == r.pairs;
        case Halt(t', stop) =>
          RequestHalts(t, slots, added, t', stop);
        case Start(t', p) =>
          var added' := added || p.active == Inactive;
          LoopMeans(t', slots - 1, added');
          var us :| RequestBy(t', slots - 1, added', AskLoop(t', slots - 1, added'), us);
          RequestCons(t, slots, added, u, AskLoop(t', slots - 1, added'), us);
      }
    }
  }

  lemma RequestNone(t: Table, added: bool)
    ensures RequestRight(t, 0, added, Handout(t, [], Full))
  {
    assert RequestBy(t, 0, added, Handout(t, [], Full), []);
  }

  lemma RequestHalts(t: Table, slots: nat, added: bool, t': Table, stop: Stop)
    requires Shaped(t) && TurnIs(t, added, Halt(t', stop))
    ensures RequestRight(t, slots, added, Handout(t', [], stop))
  {
    HaltNotFull(t, added, t', stop);
    hide Shaped, TurnIs;
    var us := [Halt(t', stop)];
    assert us[1..] == [] && Started([]) == [];
    forall i | 0 <= i < |us|
      ensures Shaped(Before(t, us, i)) && TurnIs(Before(t, us, i), AddedBefore(us, i, added), us[i])
    {
      assert Before(t, us, 0) == t && (AddedBefore(us, 0, added) <==> added);
    }
    assert RequestBy(t, slots, added, Handout(t', [], stop), us);
  }

  lemma HaltNotFull(t: Table, added: bool, t': Table, stop: Stop)
    requires Shaped(t) && TurnIs(t, added, Halt(t', stop))
    ensures stop != Full
  {
    hide Shaped, AtLimit, NothingWorth, SpeedsOnly, Promotable;
  }

  /** A request that is not refused is a series of turns, each of which does to the table it finds what a turn does. */
  lemma AskMeans(t: Table, slots: nat)
    requires WF(t) && Shaped(t) && t.pause == 0 && t.trials <= t.maxChannels
    ensures RequestRight(t, slots, false, Ask(t, slots))
  {
    hide WF, Shaped, RequestRight;
    LoopMeans(t, slots, false);
  }

  // ----- What a request leaves -----

  /** No open pair has a speed, and no pair could replace a slower channel. */
  ghost predicate Exhausted(t: Table)
    requires Shaped(t)
  {
    NoBest(t, |t.conList|, AnyOpen) && NoUpgrade(t)
  }

  lemma BestExists(t: Table, kind: Kind)
    requires Shaped(t) && !NoBest(t, |t.conList|, kind)
    ensures exists i: nat :: i < |t.conList| && Best(t, |t.conList|, kind, i)
  {
    hide Shaped, Best, NoBest, Tally;
    TallyBest(t, |t.conList|, kind);
  }

  /** If no connection is inactive and something could be tried, there is an offer. */
  lemma OfferExists(t: Table)
    requires Shaped(t) && InactiveIds(t.cons) == {} && !Exhausted(t)
    ensures exists i: nat :: i < |t.conList| && Offer(t, i)
  {
    hide Shaped, Best, NoBest, FirstUp, NoUpgrade;
    if !Closed(t) {
      BestExists(t, Sought(t));
      var i: nat :| i < |t.conList| && Best(t, |t.conList|, Sought(t), i);
      assert Offer(t, i);
    } else if !NoUpgrade(t) {
      FirstUpExists(t);
      var i: nat :| i < |t.conList| && FirstUp(t, i);
      assert Offer(t, i);
    } else {
      BestExists(t, AnyOpen);
      var i: nat :| i < |t.conList| && Best(t, |t.conList|, AnyOpen, i);
      assert Offer(t, i);
    }
  }

  lemma FirstUpExists(t: Table)
    requires Shaped(t) && !NoUpgrade(t)
    ensures exists i: nat :: i < |t.conList| && FirstUp(t, i)
  {
    hide Shaped, Upgrade;
    var i: nat :| i < |t.conList| && Upgrade(t, i);
    FirstUpTo(t, i);
  }

  lemma {:induction false} FirstUpTo(t: Table, i: nat)
    requires Shaped(t) && i < |t.conList| && Upgrade(t, i)
    ensures exists j: nat :: j < |t.conList| && FirstUp(t, j)
  {
    hide Shaped, Upgrade;
    if j: nat :| j < i && Upgrade(t, j) {
      FirstUpTo(t, j);
    } else {
      assert FirstUp(t, i);
    }
  }

  lemma ActingFrame(t: Table, t': Table)
    requires Shaped(t) && SpeedsOnly(t, t', None)
    ensures ActiveIds(t'.cons) == ActiveIds(t.cons) && InactiveIds(t'.cons) == InactiveIds(t.cons)
    ensures forall id :: id in t.cons && t.cons[id].state == Connected ==> t'.cons[id] == t.cons[id]
  {
    hide LinkSpeed, Shaped;
  }

  lemma NoUpgradeFrame(t: Table, t': Table)
    requires Shaped(t) && Shaped(t') && SpeedsOnly(t, t', None) && NoUpgrade(t)
    ensures NoUpgrade(t')
  {
    ActingFrame(t, t');
    SpeedsKept(t, t');
    hide Shaped, SpeedsOnly, LinkSpeed, ActiveIds;
    ShapedList(t);
    forall i | 0 <= i < |t'.conList|
      ensures !Upgrade(t', i)
    {
      assert !Upgrade(t, i);
    }
  }

  /** New speeds of pairs not in use change nothing of this. */
  lemma ExhaustedFrame(t: Table, t': Table)
    requires Shaped(t) && Shaped(t') && SpeedsOnly(t, t', None) && Exhausted(t)
    ensures Exhausted(t')
  {
    NoUpgradeFrame(t, t');
    SpeedsKept(t, t');
    hide Shaped, SpeedsOnly, LinkSpeed, NoUpgrade;
    ShapedList(t);
    forall j | 0 <= j < |t'.conList| && Fits(t', j, AnyOpen)
      ensures Rate(t', j, AnyOpen) == 0
    {
      assert Fits(t, j, AnyOpen);
    }
  }

  /** A turn leaves the pairs on trial alone. */
  lemma TurnKeepsTrials(t: Table, added: bool, u: Turn)
    requires Shaped(t) && TurnIs(t, added, u)
    ensures forall id :: id in t.cons && t.cons[id].state == InTrial ==> id in u.t.cons && u.t.cons[id] == t.cons[id]
  {
    hide Shaped, AtLimit, NothingWorth, SpareWanted, Leads, LinkSpeed;
    ShapedList(t);
  }

  lemma {:induction false} LoopKeepsTrials(t: Table, slots: nat, added: bool)
    requires WF(t) && Shaped(t)
    ensures forall id :: id in t.cons && t.cons[id].state == InTrial ==>
      id in AskLoop(t, slots, added).t.cons && AskLoop(t, slots, added).t.cons[id] == t.cons[id]
    decreases slots, if HasActive(t) then 0 else 1
  {
    hide WF, Shaped, OneTurn, HasActive, Preserves, TurnIs;
    if slots > 0 {
      TurnKeeps(t, added);
      PreservesWF(t, OneTurn(t, added).t);
      TurnMeans(t, added);
      TurnKeepsTrials(t, added, OneTurn(t, added));
      match OneTurn(t, added) {
        case Promotion(t') => LoopKeepsTrials(t', slots, added);
        case Halt(t', stop) =>
        case Start(t', p) => LoopKeepsTrials(t', slots - 1, added || p.active == Inactive);
      }
    }
  }

  lemma StartsTrial(t: Table, added: bool, t': Table, p: Pick)
    requires Shaped(t) && TurnIs(t, added, Start(t', p))
    ensures p.id in t'.cons && t'.cons[p.id].state == InTrial && t'.cons[p.id].active == p.active
  {
    hide Shaped, AtLimit, Promotable, SpareWanted, Leads, LinkSpeed, Offer;
    ShapedList(t);
  }

  lemma HaltExhausts(t: Table, t': Table)
    requires Shaped(t) && Shaped(t') && TurnIs(t, false, Halt(t', NothingToAdd)) && InactiveIds(t'.cons) == {}
    ensures Exhausted(t')
  {
    hide Shaped, AtLimit, Promotable, Leads, LinkSpeed, Offer, Exhausted, SpeedsOnly;
    ActingFrame(t, t');
    if !Exhausted(t) {
      OfferExists(t);
    } else {
      ExhaustedFrame(t, t');
    }
  }

  /** Some pair of the list is meant as a spare. */
  ghost predicate AddsSpare(t: Table, pairs: seq<ConId>) {
    exists id :: id in pairs && id in t.cons && t.cons[id].active == Inactive
  }

  lemma {:induction false} LoopExhausts(t: Table, slots: nat, added: bool)
    requires WF(t) && Shaped(t)
    ensures var r := AskLoop(t, slots, added);
      && Shaped(r.t)
      && (r.stop == NothingToAdd && InactiveIds(r.t.cons) == {} && !added && !AddsSpare(r.t, r.pairs) ==>
            Exhausted(r.t))
    decreases slots, if HasActive(t) then 0 else 1
  {
    hide WF, Shaped, OneTurn, HasActive, Preserves, TurnIs, Exhausted, InactiveIds;
    if slots > 0 {
      var u := OneTurn(t, added);
      TurnKeeps(t, added);
      PreservesWF(t, u.t);
      TurnMeans(t, added);
      match u {
        case Promotion(t') => LoopExhausts(t', slots, added);
        case Halt(t', stop) =>
          if stop == NothingToAdd && !added && InactiveIds(t'.cons) == {} { HaltExhausts(t, t'); }
        case Start(t', p) =>
          var added' := added || p.active == Inactive;
          LoopExhausts(t', slots - 1, added');
          LoopKeepsTrials(t', slots - 1, added');
          StartsTrial(t, added, t', p);
          var r := AskLoop(t, slots, added);
          assert r.pairs[0] == p.id;
      }
    }
  }

  /**
   A request that was not refused and ended for want of a pair leaves no open pair with a speed and no upgrade, if no
   connection is inactive and it has put no spare on trial; whether wired NICs are preferred does not matter.
   */
  lemma AskExhausts(t: Table, slots: nat)
    requires WF(t) && Shaped(t)
    ensures var r := Ask(t, slots);
      && Shaped(r.t)
      && (r.stop == NothingToAdd && InactiveIds(r.t.cons) == {} && !AddsSpare(r.t, r.pairs) ==> Exhausted(r.t))
  {
    hide WF, Shaped, AskLoop, Exhausted, InactiveIds, AddsSpare;
    LoopExhausts(t, slots, false);
  }
}
