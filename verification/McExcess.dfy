/**
 Collecting excess connections: every connection at the top speed is active, one of the
 others may stay as a spare, and the rest, and active ones beyond the channel limit, are
 to be removed.
 */
module McExcess {
  import opened Options
  import opened McTypes
  import opened McConList
  import opened McStats
  import opened McReport

  /** Every entry of the success list is a pair of the table. */
  ghost predicate Held(t: Table) {
    Shaped(t) && forall id :: id in t.success ==> id in t.cons
  }

  // ----- Active and inactive -----

  /** The highest speed of the first `k` successful pairs. */
  function TopSpeed(t: Table, k: nat): nat
    requires Held(t) && k <= |t.success|
  {
    if k == 0 then 0 else Max(TopSpeed(t, k - 1), t.cons[t.success[k - 1]].speed)
  }

  /** The highest speed of the wired ones among them, when wired NICs are preferred. */
  function TopWired(t: Table, k: nat): nat
    requires Held(t) && k <= |t.success|
  {
    if k == 0 then 0
    else
      var c := t.cons[t.success[k - 1]];
      if t.preferWired && Wired(t.nics, c) then Max(TopWired(t, k - 1), c.speed) else TopWired(t, k - 1)
  }

  /** The speed that makes a connection active. */
  function Bar(t: Table): nat
    requires Held(t)
  {
    if TopWired(t, |t.success|) > 0 then TopWired(t, |t.success|) else TopSpeed(t, |t.success|)
  }

  predicate AtTheBar(t: Table, c: Con)
    requires Held(t) && EndsKnown(t.nics, c)
  {
    c.speed == Bar(t) && (TopWired(t, |t.success|) == 0 || Wired(t.nics, c))
  }

  function Activity(t: Table, c: Con): Con
    requires Held(t) && EndsKnown(t.nics, c)
  {
    c.(active := if AtTheBar(t, c) then Active else Inactive)
  }

  /** The pairs after the marking loop has met the first `k` successful ones. */
  function MarkedTo(t: Table, k: nat): (cons: map<ConId, Con>)
    requires Held(t) && k <= |t.success|
    ensures cons.Keys == t.cons.Keys
  {
    map id | id in t.cons :: if id in t.success[..k] then Activity(t, t.cons[id]) else t.cons[id]
  }

  /** Some pair marked active, connected or not, has one of the two NICs. */
  predicate OnActive(cons: map<ConId, Con>, list: seq<ConId>, client: NicId, server: NicId)
    requires forall id :: id in list ==> id in cons
  {
    exists i :: 0 <= i < |list| && cons[list[i]].active == Active &&
      (cons[list[i]].client == client || cons[list[i]].server == server)
  }

  /** What the marking loop counts, and the spare it has found so far. */
  datatype Survey = Survey(actives: nat, inactives: nat, maxSpare: nat, spare: Option<ConId>, maxWired: nat,
    wiredSpare: Option<ConId>)

  function SurveyTo(t: Table, k: nat): Survey
    requires Held(t) && k <= |t.success|
  {
    if k == 0 then Survey(0, 0, 0, None, 0, None)
    else
      var p := SurveyTo(t, k - 1);
      var id := t.success[k - 1];
      var c := t.cons[id];
      if AtTheBar(t, c) then p.(actives := p.actives + 1)
      else
        var alone := !OnActive(MarkedTo(t, k), t.conList, c.client, c.server);
        var wired := t.preferWired && Wired(t.nics, c);
        p.(inactives := p.inactives + 1,
           maxSpare := if c.speed > p.maxSpare && alone then c.speed else p.maxSpare,
           spare := if c.speed > p.maxSpare && alone then Some(id) else p.spare,
           maxWired := if wired && c.speed > p.maxWired && alone then c.speed else p.maxWired,
           wiredSpare := if wired && c.speed > p.maxWired && alone then Some(id) else p.wiredSpare)
  }

  // ----- One spare -----

  /** Pairs, and how many of the successful ones are still inactive. */
  datatype Demotion = Demotion(cons: map<ConId, Con>, left: nat)

  /** The loop that makes all but one inactive pair redundant, after `k` successful pairs; it stops when one is left. */
  function DemotedTo(t: Table, cons: map<ConId, Con>, keep: Option<ConId>, left: nat, k: nat): (r: Demotion)
    requires Held(t) && cons.Keys == t.cons.Keys && k <= |t.success|
    ensures r.cons.Keys == t.cons.Keys
  {
    if k == 0 then Demotion(cons, left)
    else
      var p := DemotedTo(t, cons, keep, left, k - 1);
      var id := t.success[k - 1];
      DemotedOnce(p, keep, id)
  }

  /** The table once every successful pair is active, the one spare, or redundant. */
  function Sorted(t: Table): (r: Table)
    requires Held(t)
  {
    var n := |t.success|;
    var s := SurveyTo(t, n);
    var marked := MarkedTo(t, n);
    var keep := if s.wiredSpare.Some? then s.wiredSpare else s.spare;
    t.(cons := if s.inactives > 1 then DemotedTo(t, marked, keep, s.inactives, n).cons else marked)
  }

  // ----- Removal -----

  datatype Sweep = Sweep(cons: map<ConId, Con>, active: nat, removed: seq<ConId>)

  /** Whether the sweep takes this pair. */
  predicate Takes(c: Con, active: nat, inactive: nat, maxChannels: nat) {
    c.state != InRemoval && ((inactive + active > maxChannels && c.active == Active) || c.active == Redundant)
  }

  /** One turn of the removal loop. */
  function SweptOnce(p: Sweep, maxChannels: nat, inactive: nat, slots: nat, id: ConId): Sweep
    requires id in p.cons
  {
    var c := p.cons[id];
    if |p.removed| < slots && Takes(c, p.active, inactive, maxChannels)
    then Sweep(p.cons[id := c.(state := InRemoval)],
               if c.active == Active then Decrement(p.active) else p.active,
               p.removed + [id])
    else p
  }

  /** The removal loop after `k` successful pairs; it stops when the vector of `slots` entries is full. */
  function SweptTo(t: Table, active: nat, inactive: nat, slots: nat, k: nat): (r: Sweep)
    requires Held(t) && k <= |t.success|
    ensures r.cons.Keys == t.cons.Keys
  {
    if k == 0 then Sweep(t.cons, active, [])
    else
      var p := SweptTo(t, active, inactive, slots, k - 1);
      SweptOnce(p, t.maxChannels, inactive, slots, t.success[k - 1])
  }

  /** The table afterwards, the pairs to remove, and the number of active connections and their speed. */
  datatype Culling = Culling(t: Table, removed: seq<ConId>, actives: nat, speed: nat)

  function Excess(t: Table, slots: nat): Culling
    requires Held(t) && slots >= 1
  {
    SortedHeld(t);
    var n := CountStats(Sorted(t));
    CountStatsBenign(Sorted(t));
    var s := SweptTo(n.t, n.stats.active, n.stats.inactive, slots, |t.success|);
    Culling(n.t.(cons := s.cons), s.removed, SurveyTo(t, |t.success|).actives, Bar(t))
  }

  // ----- Sorting -----

  /** Only the activity of pairs of the list differs. */
  ghost predicate ActivityOnly(cons: map<ConId, Con>, cons': map<ConId, Con>, list: seq<ConId>) {
    && cons'.Keys == cons.Keys
    && forall id :: id in cons ==>
      cons'[id] == cons[id].(active := cons'[id].active) && (id !in list ==> cons'[id] == cons[id])
  }

  /** The pairs of the list that are inactive, though not redundant. */
  ghost function Spares(cons: map<ConId, Con>, list: seq<ConId>): set<ConId> {
    set id | id in list && id in cons && cons[id].active == Inactive
  }

  lemma MarkedActivity(t: Table, k: nat)
    requires Held(t) && k <= |t.success|
    ensures ActivityOnly(t.cons, MarkedTo(t, k), t.success)
  {
    hide Bar, AtTheBar;
  }

  /** One turn of the demotion loop. */
  function DemotedOnce(p: Demotion, keep: Option<ConId>, id: ConId): Demotion
    requires id in p.cons
  {
    if p.left > 1 && keep != Some(id) && p.cons[id].active == Inactive
    then Demotion(p.cons[id := p.cons[id].(active := Redundant)], p.left - 1)
    else p
  }

  lemma {:induction false} DemotedActivity(t: Table, cons: map<ConId, Con>, keep: Option<ConId>, left: nat, k: nat)
    requires Held(t) && cons.Keys == t.cons.Keys && k <= |t.success|
    ensures ActivityOnly(cons, DemotedTo(t, cons, keep, left, k).cons, t.success)
    ensures SameActives(cons, DemotedTo(t, cons, keep, left, k).cons)
  {
    if k > 0 {
      DemotedActivity(t, cons, keep, left, k - 1);
      DemotedOnceActivity(cons, DemotedTo(t, cons, keep, left, k - 1), keep, t.success[k - 1], t.success);
      hide ActivityOnly, SameActives;
    }
  }

  ghost predicate SameActives(cons: map<ConId, Con>, cons': map<ConId, Con>) {
    cons'.Keys == cons.Keys && forall id :: id in cons ==> (cons'[id].active == Active <==> cons[id].active == Active)
  }

  lemma DemotedOnceActivity(cons: map<ConId, Con>, p: Demotion, keep: Option<ConId>, id: ConId, list: seq<ConId>)
    requires id in p.cons && id in list && ActivityOnly(cons, p.cons, list) && SameActives(cons, p.cons)
    ensures ActivityOnly(cons, DemotedOnce(p, keep, id).cons, list) && SameActives(cons, DemotedOnce(p, keep, id).cons)
  {
  }

  lemma SortedHeld(t: Table)
    requires Held(t)
    ensures Held(Sorted(t)) && Sorted(t) == t.(cons := Sorted(t).cons)
    ensures ActivityOnly(t.cons, Sorted(t).cons, t.success)
  {
    hide SurveyTo, DemotedTo, MarkedTo;
    var n := |t.success|;
    var s := SurveyTo(t, n);
    var keep := if s.wiredSpare.Some? then s.wiredSpare else s.spare;
    MarkedActivity(t, n);
    DemotedActivity(t, MarkedTo(t, n), keep, s.inactives, n);
  }

  lemma SparesDemote(cons: map<ConId, Con>, list: seq<ConId>, id: ConId)
    requires id in list && id in cons && cons[id].active == Inactive
    ensures Spares(cons[id := cons[id].(active := Redundant)], list) == Spares(cons, list) - {id}
    ensures |Spares(cons[id := cons[id].(active := Redundant)], list)| == |Spares(cons, list)| - 1
  {
    assert Spares(cons[id := cons[id].(active := Redundant)], list) == Spares(cons, list) - {id};
  }

  /** Of the first `k` pairs of the list, only the one to keep is inactive. */
  ghost predicate Cleared(cons: map<ConId, Con>, list: seq<ConId>, keep: Option<ConId>, k: nat)
    requires k <= |list| && forall id :: id in list ==> id in cons
  {
    forall i :: 0 <= i < k && keep != Some(list[i]) ==> cons[list[i]].active != Inactive
  }

  lemma ClearedOnce(p: Demotion, list: seq<ConId>, keep: Option<ConId>, k: nat)
    requires k < |list| && (forall id :: id in list ==> id in p.cons)
    requires p.left == |Spares(p.cons, list)| >= 1 && (p.left > 1 ==> Cleared(p.cons, list, keep, k))
    ensures var r := DemotedOnce(p, keep, list[k]);
            && r.left == |Spares(r.cons, list)| >= 1
            && (r.left > 1 ==> Cleared(r.cons, list, keep, k + 1))
  {
    if p.left > 1 && keep != Some(list[k]) && p.cons[list[k]].active == Inactive {
      SparesDemote(p.cons, list, list[k]);
    }
    hide Spares;
  }

  /** The demotion loop counts the inactive pairs left, and stops short of the last one. */
  lemma {:induction false} DemotedCounts(t: Table, cons: map<ConId, Con>, keep: Option<ConId>, left: nat, k: nat)
    requires Held(t) && cons.Keys == t.cons.Keys && k <= |t.success|
    requires left == |Spares(cons, t.success)| > 1
    ensures var r := DemotedTo(t, cons, keep, left, k);
            && r.left == |Spares(r.cons, t.success)| >= 1
            && (r.left > 1 ==> Cleared(r.cons, t.success, keep, k))
  {
    hide Spares, DemotedOnce;
    if k > 0 {
      DemotedCounts(t, cons, keep, left, k - 1);
      ClearedOnce(DemotedTo(t, cons, keep, left, k - 1), t.success, keep, k - 1);
      hide Cleared;
    }
  }

  lemma DemotedLeavesOne(t: Table, cons: map<ConId, Con>, keep: Option<ConId>, left: nat)
    requires Held(t) && cons.Keys == t.cons.Keys && left == |Spares(cons, t.success)| > 1
    ensures |Spares(DemotedTo(t, cons, keep, left, |t.success|).cons, t.success)| == 1
  {
    hide DemotedTo;
    DemotedCounts(t, cons, keep, left, |t.success|);
    var r := DemotedTo(t, cons, keep, left, |t.success|);
    var s := Spares(r.cons, t.success);
    if r.left > 1 {
      var only := if keep.Some? then {keep.value} else {};
      assert s <= only;
      AtMostOne(s, only);
    }
  }

  lemma AtMostOne<T>(s: set<T>, only: set<T>)
    requires s <= only && |only| <= 1
    ensures |s| <= 1
  {
    assert only == s + (only - s);
  }

  /** The pairs of the list at the bar, or those below it. */
  ghost function BySpeed(t: Table, list: seq<ConId>, top: bool): set<ConId>
    requires Held(t)
  {
    set id | id in list && id in t.cons && AtTheBar(t, t.cons[id]) == top
  }

  lemma BySpeedAppend(t: Table, list: seq<ConId>, id: ConId, top: bool)
    requires Held(t) && id in t.cons && id !in list
    ensures |BySpeed(t, list + [id], top)| == |BySpeed(t, list, top)| + if AtTheBar(t, t.cons[id]) == top then 1 else 0
  {
    hide AtTheBar;
    if AtTheBar(t, t.cons[id]) == top {
      assert BySpeed(t, list + [id], top) == BySpeed(t, list, top) + {id};
    } else {
      assert BySpeed(t, list + [id], top) == BySpeed(t, list, top);
    }
  }

  lemma {:induction false} SurveyCounts(t: Table, k: nat)
    requires Held(t) && k <= |t.success| && NoDup(t.success)
    ensures SurveyTo(t, k).inactives == |BySpeed(t, t.success[..k], false)|
    ensures SurveyTo(t, k).actives == |BySpeed(t, t.success[..k], true)|
  {
    hide AtTheBar, Shaped, OnActive;
    if k > 0 {
      SurveyCounts(t, k - 1);
      var id := t.success[k - 1];
      SurveyStep(t, k);
      hide SurveyTo, BySpeed, NoDup;
      LastNew(t.success, k);
      BySpeedAppend(t, t.success[..k - 1], id, true);
      BySpeedAppend(t, t.success[..k - 1], id, false);
    }
  }

  lemma SurveyStep(t: Table, k: nat)
    requires Held(t) && 0 < k <= |t.success|
    ensures var id := t.success[k - 1];
            && SurveyTo(t, k).inactives == SurveyTo(t, k - 1).inactives + (if AtTheBar(t, t.cons[id]) then 0 else 1)
            && SurveyTo(t, k).actives == SurveyTo(t, k - 1).actives + (if AtTheBar(t, t.cons[id]) then 1 else 0)
  {
    hide AtTheBar, OnActive, MarkedTo;
  }

  /** Sorting makes exactly the connections at the bar active, and leaves at most one spare. */
  lemma SortedSound(t: Table)
    requires Held(t) && NoDup(t.success)
    ensures forall id :: id in t.success ==> (Sorted(t).cons[id].active == Active <==> AtTheBar(t, t.cons[id]))
    ensures |Spares(Sorted(t).cons, t.success)| <= 1
    ensures |Spares(Sorted(t).cons, t.success)| == 0 ==> BySpeed(t, t.success, false) == {}
  {
    hide SurveyTo, DemotedTo, AtTheBar, MarkedTo, NoDup, Shaped;
    var n := |t.success|;
    var s, marked := SurveyTo(t, n), MarkedTo(t, n);
    var keep := if s.wiredSpare.Some? then s.wiredSpare else s.spare;
    SurveyCounts(t, n);
    MarkedAll(t);
    DemotedActivity(t, marked, keep, s.inactives, n);
    hide Spares;
    if s.inactives > 1 { DemotedLeavesOne(t, marked, keep, s.inactives); }
  }

  lemma MarkedAll(t: Table)
    requires Held(t)
    ensures var n := |t.success|;
            && (forall id :: id in t.success ==> (MarkedTo(t, n)[id].active == Active <==> AtTheBar(t, t.cons[id])))
            && Spares(MarkedTo(t, n), t.success) == BySpeed(t, t.success[..n], false) == BySpeed(t, t.success, false)
  {
    hide AtTheBar, Shaped;
    assert t.success[..|t.success|] == t.success;
  }

  // ----- Sweeping -----

  /** Only pairs of the vector changed, and they are now in removal. */
  ghost predicate OnlyRemoved(cons: map<ConId, Con>, cons': map<ConId, Con>, removed: seq<ConId>) {
    && cons'.Keys == cons.Keys
    && (forall id :: id in cons ==> cons'[id] == if id in removed then cons[id].(state := InRemoval) else cons[id])
    && (forall id :: id in removed ==> id in cons && cons[id].state != InRemoval)
    && NoDup(removed)
  }

  lemma SweptOnceFrame(cons: map<ConId, Con>, p: Sweep, maxChannels: nat, inactive: nat, slots: nat, id: ConId)
    requires id in p.cons && OnlyRemoved(cons, p.cons, p.removed) && |p.removed| <= slots
    ensures var r := SweptOnce(p, maxChannels, inactive, slots, id);
            OnlyRemoved(cons, r.cons, r.removed) && |r.removed| <= slots && |r.removed| <= |p.removed| + 1
  {
    var r := SweptOnce(p, maxChannels, inactive, slots, id);
    if r != p {
      assert id !in p.removed;
      assert NoDup(r.removed);
    }
  }

  lemma {:induction false} SweptFrame(t: Table, active: nat, inactive: nat, slots: nat, k: nat)
    requires Held(t) && k <= |t.success|
    ensures var r := SweptTo(t, active, inactive, slots, k);
            && OnlyRemoved(t.cons, r.cons, r.removed) && |r.removed| <= slots && |r.removed| <= k
            && forall id :: id in r.removed ==> id in t.success
  {
    if k > 0 {
      hide OnlyRemoved;
      SweptFrame(t, active, inactive, slots, k - 1);
      SweptOnceFrame(t.cons, SweptTo(t, active, inactive, slots, k - 1), t.maxChannels, inactive, slots,
        t.success[k - 1]);
    }
  }

  /** What is left to do among the first `k` successful pairs: nothing redundant is connected, nor
      active while over the limit. */
  ghost predicate Swept(cons: map<ConId, Con>, list: seq<ConId>, k: nat, over: bool)
    requires k <= |list| && forall id :: id in list ==> id in cons
  {
    forall i :: 0 <= i < k && cons[list[i]].state != InRemoval ==>
      cons[list[i]].active != Redundant && (over ==> cons[list[i]].active != Active)
  }

  /** The sweep counts the active connections right, and keeps one if there may be two channels. */
  ghost predicate SweepCounts(p: Sweep, list: seq<ConId>, k: nat, maxChannels: nat, inactive: nat, slots: nat)
    requires k <= |list| && forall id :: id in list ==> id in p.cons
  {
    && p.active == |ActiveIds(p.cons)|
    && (|p.removed| < slots ==> Swept(p.cons, list, k, inactive + p.active > maxChannels))
  }

  lemma ActiveIdsRemove(cons: map<ConId, Con>, id: ConId)
    requires id in cons && cons[id].state == Connected
    ensures |ActiveIds(cons[id := cons[id].(state := InRemoval)])| ==
      |ActiveIds(cons)| - if cons[id].active == Active then 1 else 0
    ensures cons[id].active == Active ==> |ActiveIds(cons)| >= 1
  {
    var cons' := cons[id := cons[id].(state := InRemoval)];
    if cons[id].active == Active {
      assert ActiveIds(cons') == ActiveIds(cons) - {id} && id in ActiveIds(cons);
    } else {
      assert ActiveIds(cons') == ActiveIds(cons);
    }
  }

  lemma SweptOnceCounts(p: Sweep, list: seq<ConId>, k: nat, maxChannels: nat, inactive: nat, slots: nat)
    requires k < |list| && (forall id :: id in list ==> id in p.cons && Carried(p.cons[id].state))
    requires SweepCounts(p, list, k, maxChannels, inactive, slots)
    ensures var r := SweptOnce(p, maxChannels, inactive, slots, list[k]);
            && (forall id :: id in list ==> id in r.cons && Carried(r.cons[id].state))
            && SweepCounts(r, list, k + 1, maxChannels, inactive, slots)
            && r.active <= p.active
            && (inactive < maxChannels && p.active >= 1 ==> r.active >= 1)
  {
    var id := list[k];
    if |p.removed| < slots && Takes(p.cons[id], p.active, inactive, maxChannels) {
      ActiveIdsRemove(p.cons, id);
    }
    hide ActiveIds;
  }

  lemma SweptNone(t: Table, active: nat, inactive: nat, slots: nat)
    requires Held(t) && active == |ActiveIds(t.cons)|
    ensures SweepCounts(SweptTo(t, active, inactive, slots, 0), t.success, 0, t.maxChannels, inactive, slots)
  {
    hide ActiveIds, Shaped;
  }

  lemma {:induction false} SweptCounts(t: Table, active: nat, inactive: nat, slots: nat, k: nat)
    requires Held(t) && k <= |t.success| && active == |ActiveIds(t.cons)|
    requires forall id :: id in t.success ==> Carried(t.cons[id].state)
    ensures var r := SweptTo(t, active, inactive, slots, k);
            && (forall id :: id in t.success ==> Carried(r.cons[id].state))
            && SweepCounts(r, t.success, k, t.maxChannels, inactive, slots)
            && (inactive < t.maxChannels && active >= 1 ==> r.active >= 1)
  {
    hide ActiveIds, Shaped, SweepCounts, SweptOnce;
    if k == 0 {
      SweptNone(t, active, inactive, slots);
    } else {
      SweptCounts(t, active, inactive, slots, k - 1);
      SweptOnceCounts(SweptTo(t, active, inactive, slots, k - 1), t.success, k - 1, t.maxChannels, inactive, slots);
    }
  }

  // ----- The whole call -----

  /** The table just before the sweep. */
  ghost function Ranked(t: Table): (r: Table)
    requires Held(t)
    ensures r == t.(cons := r.cons) && r.cons.Keys == t.cons.Keys
  {
    hide CountStats, Sorted;
    SortedHeld(t);
    CountStatsBenign(Sorted(t));
    CountStats(Sorted(t)).t
  }

  lemma ActivityKeeps(t: Table, t': Table)
    requires WF(t) && Shaped(t) && t' == t.(cons := t'.cons) && ActivityOnly(t.cons, t'.cons, t.success)
    ensures Preserves(t, t')
  {
    hide WF, NoDup;
    ReconsWF(t, t'.cons);
  }

  lemma RankedKeeps(t: Table)
    requires WF(t) && Held(t)
    ensures Preserves(t, Ranked(t)) && Held(Ranked(t)) && Ranked(t) == t.(cons := Ranked(t).cons)
    ensures forall id :: id in t.success && Carried(t.cons[id].state) ==> Ranked(t).cons[id] == Sorted(t).cons[id]
  {
    hide WF, CountStats, Sorted, Preserves;
    SortedHeld(t);
    ActivityKeeps(t, Sorted(t));
    PreservesWF(t, Sorted(t));
    CountStatsBenign(Sorted(t));
    BenignKeeps(Sorted(t), Ranked(t));
    PreservesTransitive(t, Sorted(t), Ranked(t));
    hide Shaped;
    assert forall id :: id in t.cons ==> Benign(Sorted(t).cons[id], Ranked(t).cons[id]);
  }

  lemma RemovalKeeps(t: Table, cons': map<ConId, Con>, removed: seq<ConId>)
    requires WF(t) && Shaped(t) && OnlyRemoved(t.cons, cons', removed)
    ensures WF(t.(cons := cons')) && Shaped(t.(cons := cons'))
    ensures NoIdleInUse(t) ==> NoIdleInUse(t.(cons := cons'))
    ensures NoStarvation(t) ==> NoStarvation(t.(cons := cons'))
  {
    hide WF, NoDup;
    ReconsWF(t, cons');
  }

  lemma RemovalAgree(t: Table, cons': map<ConId, Con>, removed: seq<ConId>)
    requires Shaped(t) && Shaped(t.(cons := cons')) && OnlyRemoved(t.cons, cons', removed) && Agree(t)
    requires forall id :: id in removed ==> id in t.success
    ensures Agree(t.(cons := cons'))
    ensures SpeedsFresh(t) ==> SpeedsFresh(t.(cons := cons'))
    ensures forall id :: id in removed ==> t.cons[id].state == Connected
  {
    hide NoDup;
  }

  /** Collecting excess keeps the NIC properties in every table whose success list holds pairs of the table. */
  lemma ExcessKeeps(t: Table, slots: nat)
    requires WF(t) && Held(t) && slots >= 1
    ensures WF(Excess(t, slots).t) && Shaped(Excess(t, slots).t)
    ensures NoIdleInUse(t) ==> NoIdleInUse(Excess(t, slots).t)
    ensures NoStarvation(t) ==> NoStarvation(Excess(t, slots).t)
  {
    hide WF, CountStats, Sorted, NoIdleInUse, NoStarvation, Agree, SpeedsFresh, SweptTo, OnlyRemoved;
    RankedKeeps(t);
    SortedHeld(t);
    var n := CountStats(Sorted(t));
    SweptFrame(Ranked(t), n.stats.active, n.stats.inactive, slots, |t.success|);
    var s := SweptTo(Ranked(t), n.stats.active, n.stats.inactive, slots, |t.success|);
    RemovalKeeps(Ranked(t), s.cons, s.removed);
  }

  /** It returns connected pairs of the success list, at most `slots` of them and none twice, and
      marks exactly these. */
  lemma ExcessReturns(t: Table, slots: nat)
    requires WF(t) && Held(t) && Agree(t) && slots >= 1
    ensures Agree(Excess(t, slots).t) && Excess(t, slots).t.success == t.success
    ensures Shaped(Excess(t, slots).t) && (SpeedsFresh(t) ==> SpeedsFresh(Excess(t, slots).t))
    ensures var r := Excess(t, slots);
            && |r.removed| <= slots && NoDup(r.removed)
            && (forall id :: id in r.removed ==> id in t.success && t.cons[id].state == Connected)
            && (forall id :: id in t.success ==>
              id in r.t.cons && r.t.cons[id].state == if id in r.removed then InRemoval else t.cons[id].state)
  {
    hide WF, CountStats, Sorted, NoIdleInUse, NoStarvation, SpeedsFresh, SweptTo;
    RankedKeeps(t);
    SortedHeld(t);
    var n := CountStats(Sorted(t));
    SweptFrame(Ranked(t), n.stats.active, n.stats.inactive, slots, |t.success|);
    var s := SweptTo(Ranked(t), n.stats.active, n.stats.inactive, slots, |t.success|);
    RemovalKeeps(Ranked(t), s.cons, s.removed);
    RemovalAgree(Ranked(t), s.cons, s.removed);
  }

  /** The counts the sweep starts from, and the one spare at most. */
  lemma RankedCounts(t: Table)
    requires WF(t) && Held(t) && Agree(t)
    ensures Shaped(Sorted(t))
    ensures CountStats(Sorted(t)).stats.active == |ActiveIds(Ranked(t).cons)|
    ensures CountStats(Sorted(t)).stats.inactive == |InactiveIds(Ranked(t).cons)| <= 1
  {
    hide WF, CountStats, Sorted, Preserves, NoDup, AllBenign, Shaped, ActiveIds, InactiveIds, Spares;
    SortedHeld(t);
    ActivityKeeps(t, Sorted(t));
    PreservesWF(t, Sorted(t));
    CountStatsCounts(Sorted(t));
    CountStatsBenign(Sorted(t));
    SortedSound(t);
    var u, r := Sorted(t), Ranked(t);
    BenignIds(u, r);
    SortedInactive(t, u);
    SubsetSize(InactiveIds(u.cons), Spares(u.cons, t.success));
  }

  lemma BenignIds(t: Table, t': Table)
    requires AllBenign(t, t')
    ensures ActiveIds(t'.cons) == ActiveIds(t.cons) && InactiveIds(t'.cons) == InactiveIds(t.cons)
  {
    assert forall id :: id in t.cons ==> Benign(t.cons[id], t'.cons[id]);
  }

  lemma SortedInactive(t: Table, u: Table)
    requires Agree(t) && ActivityOnly(t.cons, u.cons, t.success)
    ensures InactiveIds(u.cons) <= Spares(u.cons, t.success)
  {
    hide NoDup;
  }

  lemma SubsetSize<T>(a: set<T>, b: set<T>)
    requires a <= b
    ensures |a| <= |b|
  {
    assert b == a + (b - a);
  }

  /** At most `maxChannels` connected pairs are active or inactive, at most one is inactive, and none is redundant. */
  ghost predicate WithinLimits(t: Table) {
    && |ActiveIds(t.cons)| + |InactiveIds(t.cons)| <= t.maxChannels
    && |InactiveIds(t.cons)| <= 1
    && forall id :: id in t.cons && t.cons[id].state == Connected ==> t.cons[id].active != Redundant
  }

  lemma NothingTaken(t: Table, s: Sweep, inactive: nat, slots: nat)
    requires Held(t) && Agree(t) && s.cons == t.cons && s.removed == [] && slots >= 1 && t.maxChannels >= 1
    requires inactive == |InactiveIds(t.cons)| <= 1
    requires SweepCounts(s, t.success, |t.success|, t.maxChannels, inactive, slots)
    ensures WithinLimits(t)
  {
    hide NoDup, Shaped;
    forall id | id in t.cons && t.cons[id].state == Connected
      ensures t.cons[id].active != Redundant && (inactive + s.active > t.maxChannels ==> t.cons[id].active != Active)
    {
      var i :| 0 <= i < |t.success| && t.success[i] == id;
    }
    assert inactive + s.active > t.maxChannels ==> ActiveIds(t.cons) == {};
  }

  /** When nothing is returned, the connections are within the limits. */
  lemma ExcessQuiet(t: Table, slots: nat)
    requires WF(t) && Held(t) && Agree(t) && slots >= 1
    ensures Excess(t, slots).removed == [] ==> WithinLimits(Excess(t, slots).t)
  {
    hide CountStats, Sorted, NicsOk, ConsOk, SlicesOk, SweptTo, WithinLimits, SweepCounts, Agree, ActiveIds,
      InactiveIds, NoIdleInUse, NoStarvation, SpeedsFresh;
    RankedKeeps(t);
    RankedCounts(t);
    var n, r := CountStats(Sorted(t)), Ranked(t);
    AgreeCarried(r);
    SweptFrame(r, n.stats.active, n.stats.inactive, slots, |t.success|);
    SweptCounts(r, n.stats.active, n.stats.inactive, slots, |t.success|);
    var s := SweptTo(r, n.stats.active, n.stats.inactive, slots, |t.success|);
    if s.removed == [] {
      assert s.cons == r.cons;
      NothingTaken(r, s, n.stats.inactive, slots);
    }
  }

  lemma AgreeCarried(t: Table)
    requires Held(t) && Agree(t)
    ensures forall id :: id in t.success ==> Carried(t.cons[id].state)
  {
    hide NoDup;
  }

  // ----- Some connection stays active -----

  lemma {:induction false} TopSpeedIsMax(t: Table, k: nat)
    requires Held(t) && k <= |t.success|
    ensures forall i :: 0 <= i < k ==> t.cons[t.success[i]].speed <= TopSpeed(t, k)
    ensures k > 0 ==> exists i :: 0 <= i < k && t.cons[t.success[i]].speed == TopSpeed(t, k)
  {
    if k > 0 {
      TopSpeedIsMax(t, k - 1);
      if TopSpeed(t, k) == TopSpeed(t, k - 1) && k > 1 {
        var i :| 0 <= i < k - 1 && t.cons[t.success[i]].speed == TopSpeed(t, k - 1);
      } else {
        assert t.cons[t.success[k - 1]].speed == TopSpeed(t, k);
      }
    }
  }

  lemma {:induction false} TopWiredIsMax(t: Table, k: nat)
    requires Held(t) && k <= |t.success|
    ensures !t.preferWired ==> TopWired(t, k) == 0
    ensures t.preferWired ==> forall i :: 0 <= i < k && Wired(t.nics, t.cons[t.success[i]]) ==>
      t.cons[t.success[i]].speed <= TopWired(t, k)
    ensures TopWired(t, k) > 0 ==>
      exists i :: 0 <= i < k && Wired(t.nics, t.cons[t.success[i]]) && t.cons[t.success[i]].speed == TopWired(t, k)
  {
    if k > 0 {
      TopWiredIsMax(t, k - 1);
      var c := t.cons[t.success[k - 1]];
      if TopWired(t, k) == TopWired(t, k - 1) {
        if TopWired(t, k) > 0 {
          var i :| 0 <= i < k - 1 && Wired(t.nics, t.cons[t.success[i]]) &&
            t.cons[t.success[i]].speed == TopWired(t, k - 1);
        }
      } else {
        assert Wired(t.nics, c) && c.speed == TopWired(t, k);
      }
    }
  }

  /** A preference for wired NICs applies, and some wired connection has a speed. */
  ghost predicate WiredCounts(t: Table)
    requires Held(t)
  {
    t.preferWired && exists id :: id in t.success && Wired(t.nics, t.cons[id]) && t.cons[id].speed > 0
  }

  /** No connection is faster, among the wired ones where these count. */
  ghost predicate Fastest(t: Table, id: ConId)
    requires Held(t) && id in t.success
  {
    && (WiredCounts(t) ==> Wired(t.nics, t.cons[id]))
    && forall b :: b in t.success && (WiredCounts(t) ==> Wired(t.nics, t.cons[b])) ==>
         t.cons[b].speed <= t.cons[id].speed
  }

  /** The bar is the top speed of the connections, or of the wired ones where these count; some
      connection is at it, and those at it are those that none is faster than. */
  lemma BarIsTop(t: Table)
    requires Held(t)
    ensures TopWired(t, |t.success|) > 0 <==> WiredCounts(t)
    ensures forall id :: id in t.success && (WiredCounts(t) ==> Wired(t.nics, t.cons[id])) ==>
      t.cons[id].speed <= Bar(t)
    ensures t.success != [] ==> exists id :: id in t.success && AtTheBar(t, t.cons[id])
    ensures forall id :: id in t.success ==> (AtTheBar(t, t.cons[id]) <==> Fastest(t, id))
  {
    var n := |t.success|;
    TopSpeedIsMax(t, n);
    TopWiredIsMax(t, n);
    hide TopSpeed, TopWired;
    if TopWired(t, n) > 0 {
      var i :| 0 <= i < n && Wired(t.nics, t.cons[t.success[i]]) && t.cons[t.success[i]].speed == TopWired(t, n);
      assert t.success[i] in t.success && AtTheBar(t, t.cons[t.success[i]]);
    } else if n > 0 {
      var i :| 0 <= i < n && t.cons[t.success[i]].speed == TopSpeed(t, n);
      assert t.success[i] in t.success && AtTheBar(t, t.cons[t.success[i]]);
    }
  }

  /** Each active connection is as fast as any, and wired where wired connections count. */
  ghost predicate ActiveAreFastest(t: Table, cons: map<ConId, Con>)
    requires Held(t)
  {
    forall id :: id in cons && ActiveCon(cons[id]) ==>
      && id in t.success && (WiredCounts(t) ==> Wired(t.nics, t.cons[id]))
      && forall b :: b in t.success && (WiredCounts(t) ==> Wired(t.nics, t.cons[b])) ==>
        t.cons[b].speed <= cons[id].speed
  }

  /** The ranking changes the activity of connections only. */
  lemma RankedFacts(t: Table)
    requires WF(t) && Held(t) && Agree(t)
    ensures Held(Sorted(t)) && Sorted(t).success == t.success && Sorted(t).cons.Keys == t.cons.Keys
    ensures forall id :: id in t.success ==>
      && Carried(t.cons[id].state) && Ranked(t).cons[id] == Sorted(t).cons[id]
      && Sorted(t).cons[id] == t.cons[id].(active := Sorted(t).cons[id].active)
    ensures forall id :: id in t.cons && Carried(Ranked(t).cons[id].state) ==> id in t.success
  {
    hide WF, Sorted, Ranked, NoDup, NoIdleInUse, NoStarvation, SpeedsFresh, Shaped;
    RankedKeeps(t);
    SortedHeld(t);
    AgreeCarried(t);
  }

  lemma RankedFastest(t: Table)
    requires WF(t) && Held(t) && Agree(t)
    ensures ActiveAreFastest(t, Ranked(t).cons)
    ensures forall id :: id in t.success ==> (Ranked(t).cons[id].active == Active <==> AtTheBar(t, t.cons[id]))
  {
    hide WF, Sorted, Ranked, Bar, NoDup, TopWired, Shaped, WiredCounts;
    RankedFacts(t);
    SortedSound(t);
    BarIsTop(t);
  }

  /** Some connected pair is active. */
  ghost predicate Served(cons: map<ConId, Con>) {
    ActiveIds(cons) != {}
  }

  lemma RankedServed(t: Table)
    requires WF(t) && Held(t) && Agree(t) && t.success != []
    requires forall id :: id in t.cons ==> t.cons[id].state != InRemoval
    ensures |ActiveIds(Ranked(t).cons)| >= 1
  {
    hide WF, Sorted, Bar, NoDup, CountStats, NoIdleInUse, NoStarvation, SpeedsFresh;
    RankedKeeps(t);
    SortedHeld(t);
    RankedFastest(t);
    BarIsTop(t);
    AgreeCarried(t);
    hide AtTheBar, Agree;
    var id :| id in t.success && AtTheBar(t, t.cons[id]);
    assert id in ActiveIds(Ranked(t).cons);
  }

  lemma OnlyRemovedActive(t: Table, cons: map<ConId, Con>, cons': map<ConId, Con>, removed: seq<ConId>)
    requires Held(t) && OnlyRemoved(cons, cons', removed) && ActiveAreFastest(t, cons)
    ensures ActiveAreFastest(t, cons')
  {
    hide WiredCounts, NoDup;
  }

  /** The inactive pairs of the ranking are the spares of the success list. */
  lemma RankedInactive(t: Table)
    requires WF(t) && Held(t) && Agree(t)
    requires forall id :: id in t.cons ==> t.cons[id].state != InRemoval
    ensures Held(Sorted(t)) && Sorted(t).success == t.success
    ensures InactiveIds(Ranked(t).cons) == Spares(Sorted(t).cons, t.success)
  {
    hide WF, Sorted, Ranked, NoDup, Shaped, Agree;
    RankedFacts(t);
  }

  /** Without pairs in removal, a spare is kept exactly when some connection is below the bar. */
  lemma RankedSpare(t: Table)
    requires WF(t) && Held(t) && Agree(t)
    requires forall id :: id in t.cons ==> t.cons[id].state != InRemoval
    ensures |InactiveIds(Ranked(t).cons)| == 0 <==> BySpeed(t, t.success, false) == {}
  {
    hide WF, Sorted, Ranked, Bar, NoDup, CountStats, NoIdleInUse, NoStarvation, SpeedsFresh, AtTheBar, Shaped;
    RankedInactive(t);
    SortedSound(t);
    var u := Sorted(t);
    if BySpeed(t, t.success, false) == {} {
      assert forall id :: id in t.success ==> id !in BySpeed(t, t.success, false);
      assert Spares(u.cons, t.success) == {};
    }
  }

  /** With no room left beside the spare, the sweep takes every active connection. */
  lemma SweptTakesAll(t: Table, s: Sweep, inactive: nat, slots: nat)
    requires Held(t) && Agree(t) && OnlyRemoved(t.cons, s.cons, s.removed) && |s.removed| < slots
    requires inactive >= t.maxChannels && SweepCounts(s, t.success, |t.success|, t.maxChannels, inactive, slots)
    ensures ActiveIds(s.cons) == {}
  {
    hide NoDup, Shaped;
    assert forall id :: id in ActiveIds(s.cons) ==> id in t.success;
    assert s.active > 0 ==> forall id :: id in t.success ==> id !in ActiveIds(s.cons);
  }

  /**
   Collecting excess never strands the session.  With a connection and nothing in removal,
   some connection stays active if two channels are allowed or no connection is below the
   bar, and, when the vector has room for all, only then; every active one is as fast as
   any, and wired where wired connections count.
   */
  lemma ExcessStrandsNone(t: Table, slots: nat)
    requires WF(t) && Held(t) && Agree(t) && slots >= 1 && t.success != []
    requires forall id :: id in t.cons ==> t.cons[id].state != InRemoval
    ensures t.maxChannels >= 2 || BySpeed(t, t.success, false) == {} ==> Served(Excess(t, slots).t.cons)
    ensures slots > |t.success| && Served(Excess(t, slots).t.cons) ==>
      t.maxChannels >= 2 || BySpeed(t, t.success, false) == {}
    ensures ActiveAreFastest(t, Excess(t, slots).t.cons)
  {
    hide CountStats, Sorted, WF, SweptTo, SweepCounts, Agree, ActiveIds, InactiveIds, NoIdleInUse, NoStarvation,
      SpeedsFresh, OnlyRemoved, ActiveAreFastest, BySpeed;
    MaxChannelsPositive(t);
    RankedKeeps(t);
    RankedCounts(t);
    RankedServed(t);
    RankedSpare(t);
    RankedFastest(t);
    var n, r := CountStats(Sorted(t)), Ranked(t);
    AgreeCarried(r);
    SweptFrame(r, n.stats.active, n.stats.inactive, slots, |t.success|);
    SweptCounts(r, n.stats.active, n.stats.inactive, slots, |t.success|);
    var s := SweptTo(r, n.stats.active, n.stats.inactive, slots, |t.success|);
    CountsActive(s, t.success, t.maxChannels, n.stats.inactive, slots);
    OnlyRemovedActive(t, r.cons, s.cons, s.removed);
    if slots > |t.success| && n.stats.inactive >= t.maxChannels {
      SweptTakesAll(r, s, n.stats.inactive, slots);
    }
  }

  lemma MaxChannelsPositive(t: Table)
    requires WF(t)
    ensures t.maxChannels >= 1
  {
    hide NicsOk, ConsOk, SlicesOk;
  }

  lemma CountsActive(s: Sweep, list: seq<ConId>, maxChannels: nat, inactive: nat, slots: nat)
    requires (forall id :: id in list ==> id in s.cons) && SweepCounts(s, list, |list|, maxChannels, inactive, slots)
    ensures s.active == |ActiveIds(s.cons)|
  {
  }

  // ----- Draining -----

  /** Each pair of the list is disconnected in turn. */
  function DropAll(t: Table, ids: seq<ConId>, k: nat): (r: Table)
    requires Shaped(t) && k <= |ids|
    ensures Shaped(r)
  {
    if k == 0 then t
    else
      var p := DropAll(t, ids, k - 1);
      if ids[k - 1] in p.cons then Disconnect(p, ids[k - 1]) else p
  }

  /** Disconnecting `k` distinct connections takes exactly these off the success list. */
  lemma {:induction false} DropAllSound(t: Table, ids: seq<ConId>, k: nat)
    requires WF(t) && Shaped(t) && Agree(t) && k <= |ids| && NoDup(ids)
    requires forall id :: id in ids ==> id in t.cons && Carried(t.cons[id].state)
    ensures var r := DropAll(t, ids, k);
            && WF(r) && Agree(r) && |r.success| == |t.success| - k && r.maxChannels == t.maxChannels
            && (k > 0 ==> NoIdleInUse(r) && NoStarvation(r))
            && (SpeedsFresh(t) ==> SpeedsFresh(r))
            && forall i :: k <= i < |ids| ==> ids[i] in r.cons && Carried(r.cons[ids[i]].state)
  {
    hide WF, Agree, NoIdleInUse, NoStarvation, SpeedsFresh, Disconnect;
    if k > 0 {
      DropAllSound(t, ids, k - 1);
      var p, r := DropAll(t, ids, k - 1), DropAll(t, ids, k);
      var id := ids[k - 1];
      assert id in p.cons && Carried(p.cons[id].state) && r == Disconnect(p, id);
      hide DropAll;
      DisconnectKeeps(p, id);
      DisconnectAgree(p, id);
      DisconnectFrame(p, id);
    }
  }

  lemma DisconnectFrame(t: Table, id: ConId)
    requires WF(t) && Shaped(t) && id in t.cons
    ensures Disconnect(t, id).maxChannels == t.maxChannels
  {
    hide WF, Completed;
    DroppedWF(t, id);
    MendedSound(Dropped(t, id));
  }

  lemma ExcessThenDrop(t: Table, slots: nat)
    requires WF(t) && Held(t) && Agree(t) && slots >= 1
    ensures Shaped(Excess(t, slots).t)
    ensures var e := Excess(t, slots);
            var r := DropAll(e.t, e.removed, |e.removed|);
            && WF(r) && Held(r) && Agree(r) && |r.success| == |t.success| - |e.removed|
            && r.maxChannels == t.maxChannels
  {
    hide WF, Agree, Excess, DropAll, NoIdleInUse, NoStarvation, SpeedsFresh;
    ExcessKeeps(t, slots);
    ExcessReturns(t, slots);
    ExcessFrame(t, slots);
    var e := Excess(t, slots);
    DropAllSound(e.t, e.removed, |e.removed|);
    AgreeHeld(DropAll(e.t, e.removed, |e.removed|));
  }

  lemma AgreeHeld(t: Table)
    requires Shaped(t) && Agree(t)
    ensures Held(t)
  {
    hide NoDup;
  }

  lemma ExcessFrame(t: Table, slots: nat)
    requires WF(t) && Held(t) && slots >= 1
    ensures Excess(t, slots).t == t.(cons := Excess(t, slots).t.cons)
  {
    hide WF, Sorted, CountStats, SweptTo;
    RankedKeeps(t);
    SortedHeld(t);
  }

  /** The driver's loop: collect excess and disconnect what is returned, until nothing is. */
  ghost function Drain(t: Table, slots: nat): (r: Table)
    requires WF(t) && Held(t) && Agree(t) && slots >= 1
    decreases |t.success|
  {
    hide WF, Agree, Excess, DropAll;
    ExcessThenDrop(t, slots);
    var e := Excess(t, slots);
    if e.removed == [] then e.t else Drain(DropAll(e.t, e.removed, |e.removed|), slots)
  }

  /** Draining ends, with the connections within the limits and the success list right. */
  lemma {:induction false} DrainSound(t: Table, slots: nat)
    requires WF(t) && Held(t) && Agree(t) && slots >= 1
    ensures var r := Drain(t, slots); WF(r) && Agree(r) && WithinLimits(r) && r.maxChannels == t.maxChannels
    decreases |t.success|
  {
    hide WF, Agree, Excess, DropAll, WithinLimits, NoIdleInUse, NoStarvation;
    ExcessThenDrop(t, slots);
    var e := Excess(t, slots);
    if e.removed == [] {
      ExcessKeeps(t, slots);
      ExcessReturns(t, slots);
      ExcessQuiet(t, slots);
      ExcessFrame(t, slots);
    } else {
      DrainSound(DropAll(e.t, e.removed, |e.removed|), slots);
    }
  }
}
