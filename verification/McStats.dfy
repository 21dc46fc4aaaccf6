/**
 Counting the connections and finding the next pair worth trying.  The count also
 refreshes the cached speed of the pairs it considers, and may unpark one pair that
 would be faster than every active channel.
 */
module McStats {
  import opened Options
  import opened McTypes

  datatype Stats = Stats(active: nat, inactive: nat, wiredInactive: nat,
                         maxActive: nat, maxInactive: nat, maxPotential: nat, maxPotentialWired: nat,
                         potential: Option<ConId>, potentialWired: Option<ConId>, fastestInactive: Option<ConId>)

  const NO_STATS := Stats(0, 0, 0, 0, 0, 0, 0, None, None, None)

  function Max(a: nat, b: nat): nat {
    if a > b then a else b
  }

  /** A potential pair with two idle NICs. */
  predicate FreePotential(t: Table, c: Con)
    requires EndStates(t.nicState, c)
  {
    c.state == Potential && Free(t.nicState, c)
  }

  function Refreshed(t: Table, c: Con): Con
    requires EndsKnown(t.nics, c) && EndStates(t.nicState, c)
  {
    if FreePotential(t, c) then c.(speed := LinkSpeed(t.nics, c)) else c
  }

  /** The statistics after one more pair `id`, whose refreshed contents are `c`. */
  function Counted(t: Table, st: Stats, id: ConId, c: Con): Stats
    requires EndsKnown(t.nics, c) && EndStates(t.nicState, c)
  {
    if c.state == Connected then
      if c.active == Active then
        st.(active := st.active + 1, maxActive := Max(st.maxActive, c.speed))
      else if c.active == Inactive then
        st.(inactive := st.inactive + 1,
            maxInactive := Max(st.maxInactive, c.speed),
            fastestInactive := if c.speed > st.maxInactive then Some(id) else st.fastestInactive,
            wiredInactive := if Wired(t.nics, c) then st.wiredInactive + 1 else st.wiredInactive)
      else st
    else if FreePotential(t, c) then
      var wired := t.preferWired && Wired(t.nics, c);
      st.(maxPotential := Max(st.maxPotential, c.speed),
          potential := if c.speed > st.maxPotential then Some(id) else st.potential,
          maxPotentialWired := if wired then Max(st.maxPotentialWired, c.speed) else st.maxPotentialWired,
          potentialWired := if wired && c.speed > st.maxPotentialWired then Some(id) else st.potentialWired)
    else st
  }

  /** The statistics after the first `k` pairs of the first loop. */
  function Tally(t: Table, k: nat): Stats
    requires Shaped(t) && k <= |t.conList|
  {
    if k == 0 then NO_STATS
    else
      var id := t.conList[k - 1];
      Counted(t, Tally(t, k - 1), id, Refreshed(t, t.cons[id]))
  }

  /** The pairs after the first `k` pairs of the first loop. */
  function RefreshedTo(t: Table, k: nat): map<ConId, Con>
    requires Shaped(t) && k <= |t.conList|
  {
    map id | id in t.cons :: if id in t.conList[..k] then Refreshed(t, t.cons[id]) else t.cons[id]
  }

  /** Exactly one NIC of the pair is in use and the other is idle. */
  predicate HalfUsed(t: Table, c: Con)
    requires EndStates(t.nicState, c)
  {
    || (t.nicState[c.client] == Used && t.nicState[c.server] == Idle)
    || (t.nicState[c.client] == Idle && t.nicState[c.server] == Used)
  }

  /** The pair is not in use, and one of its NICs is. */
  predicate Sharing(t: Table, c: Con)
    requires EndStates(t.nicState, c)
  {
    (c.state == Surplus || c.state == Potential) && HalfUsed(t, c)
  }

  /** The pair may replace a slower channel of the NIC it shares. */
  predicate Upgradable(t: Table, c: Con, maxActive: nat)
    requires EndsKnown(t.nics, c) && EndStates(t.nicState, c)
  {
    Sharing(t, c) && (t.preferWired ==> Wired(t.nics, c)) && LinkSpeed(t.nics, c) > maxActive
  }

  /** Where the second loop stops: the first upgradable pair at or after `k`. */
  function FirstUpgrade(t: Table, maxActive: nat, k: nat): (r: nat)
    requires Shaped(t) && k <= |t.conList|
    ensures k <= r <= |t.conList|
    ensures forall i :: k <= i < r ==> !Upgradable(t, t.cons[t.conList[i]], maxActive)
    ensures r < |t.conList| ==> Upgradable(t, t.cons[t.conList[r]], maxActive)
    decreases |t.conList| - k
  {
    if k == |t.conList| || Upgradable(t, t.cons[t.conList[k]], maxActive) then k
    else FirstUpgrade(t, maxActive, k + 1)
  }

  /** The pairs after the second loop has passed `r` pairs over, without the pair it may have stopped at. */
  function SharedTo(t: Table, r: nat): (cons: map<ConId, Con>)
    requires Shaped(t) && r <= |t.conList|
    ensures cons.Keys == t.cons.Keys
  {
    map id | id in t.cons ::
      if id in t.conList[..r] && Sharing(t, t.cons[id]) then t.cons[id].(speed := LinkSpeed(t.nics, t.cons[id]))
        else t.cons[id]
  }

  /** Whether the second loop runs. */
  predicate WantsUpgrade(t: Table, st: Stats) {
    st.active > 0 && (if t.preferWired then st.potentialWired.None? else st.potential.None?)
  }

  datatype Census = Census(t: Table, stats: Stats)

  /** The second loop. */
  function SeekUpgrade(t: Table, st: Stats): Census
    requires Shaped(t)
  {
    var r := FirstUpgrade(t, st.maxActive, 0);
    var cons := SharedTo(t, r);
    if r == |t.conList| then Census(t.(cons := cons), st)
    else
      var id := t.conList[r];
      var speed := LinkSpeed(t.nics, t.cons[id]);
      Census(t.(cons := cons[id := t.cons[id].(speed := speed, state := Potential)]),
             st.(maxPotential := speed, potential := Some(id), maxPotentialWired := speed, potentialWired := Some(id)))
  }

  /** The table after the first loop. */
  function FirstPass(t: Table): (r: Table)
    requires Shaped(t)
    ensures Shaped(r)
  {
    t.(cons := RefreshedTo(t, |t.conList|))
  }

  function CountStats(t: Table): Census
    requires Shaped(t)
  {
    var st := Tally(t, |t.conList|);
    if WantsUpgrade(t, st) then SeekUpgrade(FirstPass(t), st) else Census(FirstPass(t), st)
  }

  // ----- What counting changes -----

  /** Only idle bookkeeping changed: a pair not in use may have a new speed or be unparked. */
  predicate Benign(c: Con, c': Con) {
    if c.state == Potential || c.state == Surplus then
      c' == c.(speed := c'.speed, state := c'.state) && (c'.state == c.state || c'.state == Potential)
    else c' == c
  }

  ghost predicate AllBenign(t: Table, t': Table) {
    && t' == t.(cons := t'.cons)
    && t'.cons.Keys == t.cons.Keys
    && forall id :: id in t.cons ==> Benign(t.cons[id], t'.cons[id])
  }

  lemma SeekUpgradeBenign(t: Table, st: Stats)
    requires Shaped(t)
    ensures AllBenign(t, SeekUpgrade(t, st).t)
  {
  }

  lemma FirstPassBenign(t: Table)
    requires Shaped(t)
    ensures AllBenign(t, FirstPass(t))
    ensures forall id :: id in t.cons ==> FirstPass(t).cons[id].state == t.cons[id].state
  {
  }

  lemma BenignTransitive(a: Table, b: Table, c: Table)
    requires AllBenign(a, b) && AllBenign(b, c)
    ensures AllBenign(a, c)
  {
    forall id | id in a.cons
      ensures Benign(a.cons[id], c.cons[id])
    {
      assert Benign(a.cons[id], b.cons[id]) && Benign(b.cons[id], c.cons[id]);
    }
  }

  lemma BenignShaped(t: Table, t': Table)
    requires Shaped(t) && AllBenign(t, t')
    ensures Shaped(t')
  {
    assert forall id :: id in t.cons ==> Benign(t.cons[id], t'.cons[id]);
  }

  lemma CountStatsBenign(t: Table)
    requires Shaped(t)
    ensures AllBenign(t, CountStats(t).t) && Shaped(CountStats(t).t)
  {
    hide Tally, SeekUpgrade, FirstPass, AllBenign;
    var st := Tally(t, |t.conList|);
    FirstPassBenign(t);
    SeekUpgradeBenign(FirstPass(t), st);
    BenignTransitive(t, FirstPass(t), SeekUpgrade(FirstPass(t), st).t);
    BenignShaped(t, CountStats(t).t);
  }

  lemma BenignKeeps(t: Table, t': Table)
    requires WF(t) && Shaped(t) && AllBenign(t, t')
    ensures Preserves(t, t')
  {
    hide WF, NoDup, NoIdleInUse, NoStarvation, Agree, SpeedsFresh, Shaped;
    BenignWF(t, t');
    BenignSafe(t, t');
    BenignAgree(t, t');
  }

  lemma BenignWF(t: Table, t': Table)
    requires WF(t) && Shaped(t) && AllBenign(t, t')
    ensures WF(t') && Shaped(t')
  {
    hide WF;
    assert forall id :: id in t.cons ==> Benign(t.cons[id], t'.cons[id]);
    ReconsWF(t, t'.cons);
  }

  lemma BenignSafe(t: Table, t': Table)
    requires Shaped(t) && Shaped(t') && AllBenign(t, t')
    ensures NoIdleInUse(t) ==> NoIdleInUse(t')
    ensures NoStarvation(t) ==> NoStarvation(t')
    ensures SpeedsFresh(t) ==> SpeedsFresh(t')
  {
    hide Shaped;
    assert forall id :: id in t.cons ==> Benign(t.cons[id], t'.cons[id]);
  }

  lemma BenignAgree(t: Table, t': Table)
    requires AllBenign(t, t')
    ensures Agree(t') <==> Agree(t)
  {
    hide NoDup;
    assert forall id :: id in t.cons ==> Benign(t.cons[id], t'.cons[id]);
  }

  // ----- What counting finds -----

  predicate ActiveCon(c: Con) {
    c.state == Connected && c.active == Active
  }

  predicate InactiveCon(c: Con) {
    c.state == Connected && c.active == Inactive
  }

  ghost function ActiveIds(cons: map<ConId, Con>): set<ConId> {
    set id | id in cons && ActiveCon(cons[id])
  }

  ghost function InactiveIds(cons: map<ConId, Con>): set<ConId> {
    set id | id in cons && InactiveCon(cons[id])
  }

  /** The pairs of the list that are connected with the given activity. */
  ghost function Acting(cons: map<ConId, Con>, list: seq<ConId>, a: ActiveState): set<ConId> {
    set id | id in list && id in cons && cons[id].state == Connected && cons[id].active == a
  }

  lemma ActingAppend(cons: map<ConId, Con>, list: seq<ConId>, id: ConId, a: ActiveState)
    requires id in cons && id !in list
    ensures |Acting(cons, list + [id], a)| ==
            |Acting(cons, list, a)| + if cons[id].state == Connected && cons[id].active == a then 1 else 0
  {
    if cons[id].state == Connected && cons[id].active == a {
      assert Acting(cons, list + [id], a) == Acting(cons, list, a) + {id};
    } else {
      assert Acting(cons, list + [id], a) == Acting(cons, list, a);
    }
  }

  lemma {:induction false} TallyCounts(t: Table, k: nat)
    requires Shaped(t) && k <= |t.conList| && NoDup(t.conList)
    ensures Tally(t, k).active == |Acting(t.cons, t.conList[..k], Active)|
    ensures Tally(t, k).inactive == |Acting(t.cons, t.conList[..k], Inactive)|
  {
    if k > 0 {
      TallyCounts(t, k - 1);
      var id := t.conList[k - 1];
      assert Tally(t, k).active == Tally(t, k - 1).active + if ActiveCon(t.cons[id]) then 1 else 0;
      assert Tally(t, k).inactive == Tally(t, k - 1).inactive + if InactiveCon(t.cons[id]) then 1 else 0;
      hide Tally, Counted, Acting, NoDup;
      LastNew(t.conList, k);
      ActingAppend(t.cons, t.conList[..k - 1], id, Active);
      ActingAppend(t.cons, t.conList[..k - 1], id, Inactive);
    }
  }

  /** The two counts are the numbers of connected pairs that are active and inactive. */
  lemma CountStatsCounts(t: Table)
    requires WF(t) && Shaped(t)
    ensures CountStats(t).stats.active == |ActiveIds(t.cons)|
    ensures CountStats(t).stats.inactive == |InactiveIds(t.cons)|
  {
    hide NicsOk, SlicesOk, Slice, UniquePairs, Counted, Tally;
    var n := |t.conList|;
    TallyCounts(t, n);
    assert t.conList[..n] == t.conList;
    assert ActiveIds(t.cons) == Acting(t.cons, t.conList, Active);
    assert InactiveIds(t.cons) == Acting(t.cons, t.conList, Inactive);
  }

  /** The recorded maxima bound the speeds of the connected pairs, and are reached by the pairs recorded. */
  ghost predicate ConnectedBounds(t: Table, st: Stats, k: nat)
    requires Shaped(t) && k <= |t.conList|
  {
    && (forall i :: 0 <= i < k && ActiveCon(t.cons[t.conList[i]]) ==> t.cons[t.conList[i]].speed <= st.maxActive)
    && (forall i :: 0 <= i < k && InactiveCon(t.cons[t.conList[i]]) ==> t.cons[t.conList[i]].speed <= st.maxInactive)
    && (forall id :: st.fastestInactive == Some(id) ==>
      id in t.cons && InactiveCon(t.cons[id]) && t.cons[id].speed == st.maxInactive > 0)
    && (st.maxActive > 0 ==> exists id :: id in t.cons && ActiveCon(t.cons[id]) && t.cons[id].speed == st.maxActive)
    && (st.fastestInactive.None? ==> st.maxInactive == 0)
  }

  lemma {:induction false} TallyConnected(t: Table, k: nat)
    requires Shaped(t) && k <= |t.conList|
    ensures ConnectedBounds(t, Tally(t, k), k)
  {
    if k > 0 {
      TallyConnected(t, k - 1);
      var p, st, id := Tally(t, k - 1), Tally(t, k), t.conList[k - 1];
      var c := t.cons[id];
      assert st.maxActive == if ActiveCon(c) then Max(p.maxActive, c.speed) else p.maxActive;
      assert st.maxInactive == if InactiveCon(c) then Max(p.maxInactive, c.speed) else p.maxInactive;
      assert st.fastestInactive == if InactiveCon(c) && c.speed > p.maxInactive then Some(id) else p.fastestInactive;
      hide Tally, Counted;
    }
  }

  /** The potential pairs recorded are the fastest of those with two idle NICs. */
  ghost predicate PotentialBounds(t: Table, st: Stats, k: nat)
    requires Shaped(t) && k <= |t.conList|
  {
    && (forall i :: 0 <= i < k && FreePotential(t, t.cons[t.conList[i]]) ==>
      LinkSpeed(t.nics, t.cons[t.conList[i]]) <= st.maxPotential)
    && (forall id :: st.potential == Some(id) ==>
          id in t.cons && FreePotential(t, t.cons[id]) && LinkSpeed(t.nics, t.cons[id]) == st.maxPotential > 0)
    && (st.potential.None? ==> st.maxPotential == 0)
  }

  lemma {:induction false} TallyPotential(t: Table, k: nat)
    requires Shaped(t) && k <= |t.conList|
    ensures PotentialBounds(t, Tally(t, k), k)
  {
    if k > 0 {
      TallyPotential(t, k - 1);
      var p, st, id := Tally(t, k - 1), Tally(t, k), t.conList[k - 1];
      var c := t.cons[id];
      assert st.maxPotential == if FreePotential(t, c) then Max(p.maxPotential, LinkSpeed(t.nics, c))
        else p.maxPotential;
      assert st.potential == if FreePotential(t, c) && LinkSpeed(t.nics, c) > p.maxPotential then Some(id)
        else p.potential;
      hide Tally, Counted, LinkSpeed;
    }
  }

  lemma {:induction false} TallyPotentialWired(t: Table, k: nat)
    requires Shaped(t) && k <= |t.conList|
    ensures var st := Tally(t, k);
            forall id :: st.potentialWired == Some(id) ==>
              && t.preferWired && id in t.cons && FreePotential(t, t.cons[id]) && Wired(t.nics, t.cons[id])
              && LinkSpeed(t.nics, t.cons[id]) == st.maxPotentialWired > 0
  {
    if k > 0 {
      TallyPotentialWired(t, k - 1);
      var p, st, id := Tally(t, k - 1), Tally(t, k), t.conList[k - 1];
      var c := t.cons[id];
      var fit := FreePotential(t, c) && t.preferWired && Wired(t.nics, c);
      assert st.maxPotentialWired == if fit then Max(p.maxPotentialWired, LinkSpeed(t.nics, c))
        else p.maxPotentialWired;
      assert st.potentialWired == if fit && LinkSpeed(t.nics, c) > p.maxPotentialWired then Some(id)
        else p.potentialWired;
      hide Tally, Counted, LinkSpeed;
    }
  }
}
