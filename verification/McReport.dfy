/**
 Reporting what became of a connection: a trial that passed or failed, the main
 channel coming up, a channel going down.
 */
module McReport {
  import opened Options
  import opened McTypes
  import opened McConList

  // ----- A new connection -----

  /** The first NIC of `list[k..]` with the given index. */
  function FindNic(nics: map<NicId, Nic>, list: seq<NicId>, index: nat, k: nat): (r: Option<NicId>)
    requires k <= |list| && forall n :: n in list ==> n in nics
    ensures r.Some? ==> r.value in list && nics[r.value].index == index
    ensures r.None? ==> forall i :: k <= i < |list| ==> nics[list[i]].index != index
    decreases |list| - k
  {
    if k == |list| then None
    else if nics[list[k]].index == index then Some(list[k])
    else FindNic(nics, list, index, k + 1)
  }

  lemma FindNicUnique(nics: map<NicId, Nic>, list: seq<NicId>, n: NicId)
    requires forall m :: m in list ==> m in nics
    requires UniqueIndices(nics, list) && n in list
    ensures FindNic(nics, list, nics[n].index, 0) == Some(n)
  {
    var r := FindNic(nics, list, nics[n].index, 0);
    if r.Some? {
      assert SameIndex(nics[r.value], nics[n]);
    }
  }

  /** What a pair becomes when `target` connects the NICs `cn` and `sn`. */
  function MarkedCon(nics: map<NicId, Nic>, id: ConId, c: Con, target: Option<ConId>, cn: NicId, sn: NicId,
    iod: Option<Iod>): Con
    requires EndsKnown(nics, c)
  {
    if target == Some(id) then
      c.(iod := if iod.Some? then iod else c.iod, state := Connected, speed := LinkSpeed(nics, c))
    else if c.state == Potential && (c.client == cn || c.server == sn) then c.(state := Surplus)
    else c
  }

  /** The table once the pair of the NICs `cn` and `sn` is connected: the other pairs of either NIC are parked. */
  function Marked(t: Table, cn: NicId, sn: NicId, iod: Option<Iod>): (r: Table)
    requires Shaped(t) && cn in t.nics && sn in t.nics
    ensures Shaped(r) && Steady(t, r)
  {
    var target := FindCon(t.cons, t.conList, cn, sn, 0);
    t.(cons := map id | id in t.cons :: MarkedCon(t.nics, id, t.cons[id], target, cn, sn, iod),
       nicState := if target.Some? then t.nicState[cn := Used][sn := Used] else t.nicState,
       success := if target.Some? then t.success + [target.value] else t.success)
  }

  lemma MarkedWF(t: Table, cn: NicId, sn: NicId, iod: Option<Iod>)
    requires WF(t) && Shaped(t) && cn in t.nics && sn in t.nics
    ensures WF(Marked(t, cn, sn, iod))
  {
    hide WF;
    var r := Marked(t, cn, sn, iod);
    ReconsWF(t, r.cons);
    RestateWF(t.(cons := r.cons), r.nicState, t.pause, t.trials, r.success);
  }

  lemma MarkedNoIdle(t: Table, cn: NicId, sn: NicId, iod: Option<Iod>)
    requires Shaped(t) && cn in t.nics && sn in t.nics && NoIdleInUse(t)
    ensures NoIdleInUse(Marked(t, cn, sn, iod))
  {
    var r := Marked(t, cn, sn, iod);
    forall id | id in r.cons && Holding(r.cons[id].state)
      ensures Taken(r.nicState, r.cons[id])
    {
      if Holding(t.cons[id].state) { assert Taken(t.nicState, t.cons[id]); }
    }
  }

  /**
   Connecting a pair keeps parked pairs behind a non-idle NIC exactly when the pair is in
   the table, or no potential pair of either NIC has two idle NICs.
   */
  lemma MarkedStarvation(t: Table, cn: NicId, sn: NicId, iod: Option<Iod>)
    requires Shaped(t) && cn in t.nics && sn in t.nics && NoStarvation(t)
    ensures NoStarvation(Marked(t, cn, sn, iod)) <==>
            || FindCon(t.cons, t.conList, cn, sn, 0).Some?
            || forall id ::
                 && id in t.cons && t.cons[id].state == Potential
                 && (t.cons[id].client == cn || t.cons[id].server == sn)
                 ==> !Free(t.nicState, t.cons[id])
  {
    var r := Marked(t, cn, sn, iod);
    if FindCon(t.cons, t.conList, cn, sn, 0).Some? {
      forall id | id in r.cons && r.cons[id].state == Surplus
        ensures !Free(r.nicState, r.cons[id])
      {
        if t.cons[id].state == Surplus { assert !Free(t.nicState, t.cons[id]); }
      }
    } else {
      assert r.nicState == t.nicState;
      forall id | id in t.cons && t.cons[id].state == Potential && (t.cons[id].client == cn || t.cons[id].server == sn)
        ensures r.cons[id].state == Surplus && (Free(r.nicState, r.cons[id]) <==> Free(t.nicState, t.cons[id]))
      {
      }
    }
  }

  /** Connecting a pair keeps the success list right exactly when the pair is not on it already. */
  lemma MarkedAgree(t: Table, cn: NicId, sn: NicId, iod: Option<Iod>)
    requires Shaped(t) && cn in t.nics && sn in t.nics && Agree(t)
    ensures Agree(Marked(t, cn, sn, iod)) <==>
            var target := FindCon(t.cons, t.conList, cn, sn, 0); target.Some? ==> !Carried(t.cons[target.value].state)
  {
    hide Marked, FindCon, NoDup;
    MarkedCarries(t, cn, sn, iod);
    var target := FindCon(t.cons, t.conList, cn, sn, 0);
    if target.Some? {
      AppendNoDup(t.success, target.value);
    }
  }

  lemma MarkedCarries(t: Table, cn: NicId, sn: NicId, iod: Option<Iod>)
    requires Shaped(t) && cn in t.nics && sn in t.nics
    ensures var r := Marked(t, cn, sn, iod);
      var target := FindCon(t.cons, t.conList, cn, sn, 0);
      && (target.Some? ==> target.value in t.cons)
      && r.success == (if target.Some? then t.success + [target.value] else t.success) && r.cons.Keys == t.cons.Keys
      && forall id :: id in t.cons ==> (Carried(r.cons[id].state) <==> Carried(t.cons[id].state) || target == Some(id))
  {
  }

  lemma AppendNoDup<T>(s: seq<T>, x: T)
    requires NoDup(s)
    ensures NoDup(s + [x]) <==> x !in s
  {
    var r := s + [x];
    if x in s {
      var i :| 0 <= i < |s| && s[i] == x;
      assert r[i] == r[|s|];
    }
  }

  lemma MarkedSpeeds(t: Table, cn: NicId, sn: NicId, iod: Option<Iod>)
    requires Shaped(t) && cn in t.nics && sn in t.nics && SpeedsFresh(t)
    ensures SpeedsFresh(Marked(t, cn, sn, iod))
  {
  }

  // ----- A failed trial -----

  /** The pair joins the same two interfaces, RSS copies of a NIC counting as one interface. */
  predicate Sibling(nics: map<NicId, Nic>, c: Con, d: Con)
    requires EndsKnown(nics, c) && EndsKnown(nics, d)
  {
    && BaseIndex(nics[c.client].index) == BaseIndex(nics[d.client].index)
    && BaseIndex(nics[c.server].index) == BaseIndex(nics[d.server].index)
  }

  /** What pair `c` becomes when the trial of `d` fails. */
  function FailedCon(nics: map<NicId, Nic>, c: Con, d: Con): Con
    requires EndsKnown(nics, c) && EndsKnown(nics, d)
  {
    if Sibling(nics, c, d) then c.(state := FailedToConnect)
    else if c.state == Surplus && (BaseIndex(nics[c.client].index) == BaseIndex(nics[d.client].index)
                                   || nics[c.server].index == nics[d.server].index)
    then c.(state := Potential)
    else c
  }

  function FailTrial(t: Table, id: ConId): (r: Table)
    requires Shaped(t) && id in t.cons
    ensures Shaped(r) && Steady(t, r)
  {
    var d := t.cons[id];
    var cons := t.cons[id := d.(iod := None)];
    t.(nicState := SetEnds(t.nicState, d, Idle),
       cons := map k | k in cons :: FailedCon(t.nics, cons[k], d))
  }

  lemma FailTrialWF(t: Table, id: ConId)
    requires WF(t) && Shaped(t) && id in t.cons
    ensures WF(FailTrial(t, id))
  {
    hide WF;
    var r := FailTrial(t, id);
    ReconsWF(t, r.cons);
    RestateWF(t.(cons := r.cons), r.nicState, t.pause, t.trials, t.success);
  }

  /** A failed trial keeps the success list right exactly when no pair between the same two interfaces is on it. */
  lemma FailTrialAgree(t: Table, id: ConId)
    requires Shaped(t) && id in t.cons && Agree(t)
    ensures Agree(FailTrial(t, id)) <==>
            forall k :: k in t.cons && Sibling(t.nics, t.cons[k], t.cons[id]) ==> !Carried(t.cons[k].state)
  {
    var r := FailTrial(t, id);
    forall k | k in t.cons
      ensures Carried(r.cons[k].state) <==> Carried(t.cons[k].state) && !Sibling(t.nics, t.cons[k], t.cons[id])
    {
    }
  }

  lemma FailTrialSpeeds(t: Table, id: ConId)
    requires Shaped(t) && id in t.cons && SpeedsFresh(t)
    ensures SpeedsFresh(FailTrial(t, id))
  {
  }

  // ----- The public calls -----

  /** One unsigned 32-bit decrement. */
  function Decrement(n: nat): nat {
    if n == 0 then UINT32 - 1 else n - 1
  }

  /** The outcome of a trial is reported for pair `id`. */
  function Report(t: Table, id: ConId, passed: bool): (r: Table)
    requires Shaped(t) && id in t.cons
    ensures Shaped(r) && Steady(t.(trials := Decrement(t.trials)), r)
  {
    var t0 := t.(trials := Decrement(t.trials));
    if passed then
      var cn := FindNic(t.nics, t.clients, t.nics[t.cons[id].client].index, 0);
      var sn := FindNic(t.nics, t.servers, t.nics[t.cons[id].server].index, 0);
      if cn.None? || sn.None? then RepairTable(t0)
      else Completed(RepairTable(Marked(t0, cn.value, sn.value, None)))
    else Completed(RepairTable(FailTrial(t0, id)))
  }

  /** `s` without its first occurrence of `x`. */
  function Without<T(==)>(s: seq<T>, x: T): seq<T> {
    if s == [] then []
    else if s[0] == x then s[1..]
    else [s[0]] + Without(s[1..], x)
  }

  lemma {:induction false} WithoutMembers<T>(s: seq<T>, x: T)
    requires NoDup(s)
    ensures NoDup(Without(s, x))
    ensures forall y :: y in Without(s, x) <==> y in s && y != x
    ensures |Without(s, x)| == if x in s then |s| - 1 else |s|
  {
    if s != [] {
      var rest := s[1..];
      assert s == [s[0]] + rest;
      assert NoDup(rest) && s[0] !in rest;
      WithoutMembers(rest, x);
    }
  }

  /** The channel of pair `id` is gone. */
  function Dropped(t: Table, id: ConId): (r: Table)
    requires Shaped(t) && id in t.cons
    ensures Shaped(r)
  {
    var c := t.cons[id];
    var state := if c.state == FailedToConnect || c.state == NoPotential then c.state else Potential;
    t.(success := if Carried(c.state) then Without(t.success, id) else t.success,
       cons := t.cons[id := c.(state := state, iod := None)],
       nicState := SetEnds(t.nicState, c, Idle))
  }

  function Disconnect(t: Table, id: ConId): (r: Table)
    requires Shaped(t) && id in t.cons
    ensures Shaped(r) && Steady(t, r)
  {
    Completed(RepairTable(Dropped(t, id)))
  }

  lemma DroppedWF(t: Table, id: ConId)
    requires WF(t) && Shaped(t) && id in t.cons
    ensures WF(Dropped(t, id))
  {
    hide WF;
    var r := Dropped(t, id);
    ReconsWF(t, r.cons);
    RestateWF(t.(cons := r.cons), r.nicState, t.pause, t.trials, r.success);
  }

  lemma DroppedAgree(t: Table, id: ConId)
    requires Shaped(t) && id in t.cons && Agree(t)
    ensures Agree(Dropped(t, id))
    ensures |Dropped(t, id).success| == if Carried(t.cons[id].state) then |t.success| - 1 else |t.success|
  {
    WithoutMembers(t.success, id);
  }

  lemma DroppedSpeeds(t: Table, id: ConId)
    requires Shaped(t) && id in t.cons && SpeedsFresh(t)
    ensures SpeedsFresh(Dropped(t, id))
  {
  }

  // ----- Repairing and completing -----

  /** Repairing and completing the table restores both NIC properties, whatever the NIC states were. */
  lemma MendedSound(t: Table)
    requires WF(t) && Shaped(t)
    ensures var r := Completed(RepairTable(t));
            WF(r) && NoIdleInUse(r) && NoStarvation(r) && Grown(RepairTable(t), r)
  {
    hide WF, Grown;
    RepairTableSound(t);
    CompletedSound(RepairTable(t));
    GrownNoIdle(RepairTable(t), Completed(RepairTable(t)));
  }

  lemma GrownNoIdle(t: Table, t': Table)
    requires Shaped(t) && Shaped(t') && Grown(t, t') && NoIdleInUse(t)
    ensures NoIdleInUse(t')
  {
    forall id | id in t'.cons && Holding(t'.cons[id].state)
      ensures Taken(t'.nicState, t'.cons[id])
    {
      assert id in t.cons;
    }
  }

  /** Completing the table neither breaks nor mends the success list. */
  lemma GrownAgree(t: Table, t': Table)
    requires Grown(t, t')
    ensures Agree(t') <==> Agree(t)
  {
    forall id | id in t'.cons
      ensures Carried(t'.cons[id].state) <==> id in t.cons && Carried(t.cons[id].state)
    {
      if id in t.cons {
        assert Unparked(t, t.cons[id], t'.cons[id]);
      } else {
        assert Newborn(t, t'.cons[id]);
      }
    }
  }

  lemma GrownSpeeds(t: Table, t': Table)
    requires Shaped(t) && Shaped(t') && Grown(t, t') && SpeedsFresh(t)
    ensures SpeedsFresh(t')
  {
    forall id | id in t'.cons && Busy(t'.cons[id].state) && !t'.nics[t'.cons[id].client].ignored
      ensures t'.cons[id].speed == LinkSpeed(t'.nics, t'.cons[id])
    {
      assert id in t.cons;
    }
  }

  lemma MendedAgree(t: Table)
    requires WF(t) && Shaped(t)
    ensures Agree(Completed(RepairTable(t))) <==> Agree(t)
  {
    hide WF, Grown, Agree, NoDup;
    MendedSound(t);
    GrownAgree(RepairTable(t), Completed(RepairTable(t)));
    RepairAgree(t);
  }

  lemma RepairAgree(t: Table)
    requires Shaped(t)
    ensures Agree(RepairTable(t)) <==> Agree(t)
    ensures SpeedsFresh(RepairTable(t)) <==> SpeedsFresh(t)
  {
  }

  lemma MendedSpeeds(t: Table)
    requires WF(t) && Shaped(t) && SpeedsFresh(t)
    ensures SpeedsFresh(Completed(RepairTable(t)))
  {
    hide WF, Grown, SpeedsFresh;
    MendedSound(t);
    RepairAgree(t);
    GrownSpeeds(RepairTable(t), Completed(RepairTable(t)));
  }

  /** Reporting on a pair of a well-formed table finds that pair again by its NIC indices. */
  lemma ReportFinds(t: Table, id: ConId)
    requires WF(t) && Shaped(t) && id in t.cons
    ensures FindNic(t.nics, t.clients, t.nics[t.cons[id].client].index, 0) == Some(t.cons[id].client)
    ensures FindNic(t.nics, t.servers, t.nics[t.cons[id].server].index, 0) == Some(t.cons[id].server)
    ensures FindCon(t.cons, t.conList, t.cons[id].client, t.cons[id].server, 0) == Some(id)
  {
    hide UniquePairs, UniqueIndices, NoDup, Slice;
    FindNicUnique(t.nics, t.clients, t.cons[id].client);
    FindNicUnique(t.nics, t.servers, t.cons[id].server);
    FindConUnique(t, t.cons[id].client, t.cons[id].server);
  }

  // ----- What the calls keep -----

  /** A reported trial leaves no NIC of a holding pair idle and no pair parked behind two idle
      NICs, whatever the table was. */
  lemma ReportKeeps(t: Table, id: ConId, passed: bool)
    requires WF(t) && Shaped(t) && id in t.cons
    ensures WF(Report(t, id, passed)) && NoIdleInUse(Report(t, id, passed)) && NoStarvation(Report(t, id, passed))
  {
    hide WF, Marked, FailTrial, RepairTable, Completed, Grown;
    var t0 := t.(trials := Decrement(t.trials));
    RestateWF(t, t.nicState, t.pause, t0.trials, t.success);
    ReportFinds(t, id);
    var c := t.cons[id];
    if passed {
      MarkedWF(t0, c.client, c.server, None);
      MendedSound(Marked(t0, c.client, c.server, None));
    } else {
      FailTrialWF(t0, id);
      MendedSound(FailTrial(t0, id));
    }
  }

  /** The reports that keep the success list right: a pass for a pair not on it, a failure with no sibling on it. */
  ghost predicate ReportSafe(t: Table, id: ConId, passed: bool)
    requires Shaped(t) && id in t.cons
  {
    if passed then !Carried(t.cons[id].state)
    else forall k :: k in t.cons && Sibling(t.nics, t.cons[k], t.cons[id]) ==> !Carried(t.cons[k].state)
  }

  lemma ReportAgree(t: Table, id: ConId, passed: bool)
    requires WF(t) && Shaped(t) && id in t.cons && Agree(t)
    ensures Agree(Report(t, id, passed)) <==> ReportSafe(t, id, passed)
  {
    hide WF, Marked, FailTrial, RepairTable, Completed, NoDup;
    var t0 := t.(trials := Decrement(t.trials));
    RestateWF(t, t.nicState, t.pause, t0.trials, t.success);
    ReportFinds(t, id);
    assert Agree(t0);
    hide Agree;
    var c := t.cons[id];
    if passed {
      MarkedWF(t0, c.client, c.server, None);
      MendedAgree(Marked(t0, c.client, c.server, None));
      MarkedAgree(t0, c.client, c.server, None);
    } else {
      FailTrialWF(t0, id);
      MendedAgree(FailTrial(t0, id));
      FailTrialAgree(t0, id);
    }
  }

  lemma ReportSpeeds(t: Table, id: ConId, passed: bool)
    requires WF(t) && Shaped(t) && id in t.cons && SpeedsFresh(t)
    ensures SpeedsFresh(Report(t, id, passed))
  {
    hide WF, Marked, FailTrial, RepairTable, Completed;
    var t0 := t.(trials := Decrement(t.trials));
    RestateWF(t, t.nicState, t.pause, t0.trials, t.success);
    ReportFinds(t, id);
    assert SpeedsFresh(t0);
    hide SpeedsFresh;
    var c := t.cons[id];
    if passed {
      MarkedWF(t0, c.client, c.server, None);
      MarkedSpeeds(t0, c.client, c.server, None);
      MendedSpeeds(Marked(t0, c.client, c.server, None));
    } else {
      FailTrialWF(t0, id);
      FailTrialSpeeds(t0, id);
      MendedSpeeds(FailTrial(t0, id));
    }
  }

  /** So does a disconnect. */
  lemma DisconnectKeeps(t: Table, id: ConId)
    requires WF(t) && Shaped(t) && id in t.cons
    ensures WF(Disconnect(t, id)) && NoIdleInUse(Disconnect(t, id)) && NoStarvation(Disconnect(t, id))
    ensures SpeedsFresh(t) ==> SpeedsFresh(Disconnect(t, id))
  {
    hide WF, Dropped, RepairTable, Completed, Grown, SpeedsFresh;
    DroppedWF(t, id);
    MendedSound(Dropped(t, id));
    if SpeedsFresh(t) {
      DroppedSpeeds(t, id);
      MendedSpeeds(Dropped(t, id));
    }
  }

  /** A disconnect takes the pair off the success list and leaves the other connections alone. */
  lemma DisconnectAgree(t: Table, id: ConId)
    requires WF(t) && Shaped(t) && id in t.cons && Agree(t)
    ensures var r := Disconnect(t, id);
            && Agree(r) && id in r.cons && !Carried(r.cons[id].state)
            && |r.success| == (if Carried(t.cons[id].state) then |t.success| - 1 else |t.success|)
            && forall k :: k in t.cons && k != id && Carried(t.cons[k].state) ==> k in r.cons && r.cons[k] == t.cons[k]
  {
    hide WF, NoDup, Agree, Dropped, Completed, RepairTable, Shaped, Grown;
    DroppedWF(t, id);
    DroppedAgree(t, id);
    DroppedCons(t, id);
    var d := Dropped(t, id);
    MendedAgree(d);
    MendedSound(d);
    RepairTableSound(d);
    MendedCons(d, Disconnect(t, id));
  }

  lemma DroppedCons(t: Table, id: ConId)
    requires Shaped(t) && id in t.cons
    ensures var d := Dropped(t, id);
      && d.cons.Keys == t.cons.Keys && !Carried(d.cons[id].state) && d.cons[id].state != Surplus
      && forall k :: k in t.cons && k != id ==> d.cons[k] == t.cons[k]
  {
  }

  /** Repairing and completing leaves every pair that is not parked as it is. */
  lemma MendedCons(t: Table, r: Table)
    requires Shaped(t) && Shaped(RepairTable(t)) && Grown(RepairTable(t), r)
    ensures r.success == t.success
    ensures forall k :: k in t.cons && t.cons[k].state != Surplus ==> k in r.cons && r.cons[k] == t.cons[k]
  {
    hide Shaped, Repaired;
  }
}
