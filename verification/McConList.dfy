/**
 Keeping the pair table complete and the NIC states right: the repair scan after a
 failure or a disconnect, the client-by-server completion of the table, and the
 marking of a newly connected pair.
 */
module McConList {
  import opened Options
  import opened McTypes

  // ----- Repairing NIC states -----

  function SetEnds(states: map<NicId, NicState>, c: Con, s: NicState): map<NicId, NicState> {
    states[c.client := s][c.server := s]
  }

  /** Every pair of the list is known, and the states of both its NICs. */
  predicate ListKnown(states: map<NicId, NicState>, cons: map<ConId, Con>, list: seq<ConId>) {
    forall id :: id in list ==> id in cons && EndStates(states, cons[id])
  }

  /** NIC states after the first `k` pairs of the repair scan. */
  function Repaired(states: map<NicId, NicState>, cons: map<ConId, Con>, list: seq<ConId>, k: nat)
    : (r: map<NicId, NicState>)
    requires k <= |list| && ListKnown(states, cons, list)
    ensures r.Keys == states.Keys
  {
    if k == 0 then states
    else
      var r := Repaired(states, cons, list, k - 1);
      var c := cons[list[k - 1]];
      if c.state == Connected then SetEnds(r, c, Used)
      else if c.state == InTrial then SetEnds(r, c, OnTrial)
      else r
  }

  /**
   The scan never makes a NIC idle, and ends with no NIC of a scanned holding pair idle.
   */
  lemma {:induction false} RepairedSound(states: map<NicId, NicState>, cons: map<ConId, Con>, list: seq<ConId>, k: nat)
    requires k <= |list| && ListKnown(states, cons, list)
    ensures forall n :: n in states && Repaired(states, cons, list, k)[n] == Idle ==> states[n] == Idle
    ensures forall i :: 0 <= i < k && Holding(cons[list[i]].state) ==>
      Taken(Repaired(states, cons, list, k), cons[list[i]])
  {
    hide Repaired;
    if k == 0 {
      RepairedNone(states, cons, list);
    } else {
      RepairedSound(states, cons, list, k - 1);
      RepairedStep(states, cons, list, k);
    }
  }

  /** The pair holds the NIC. */
  predicate Holds(c: Con, n: NicId) {
    Holding(c.state) && (c.client == n || c.server == n)
  }

  ghost predicate PairsKnown(cons: map<ConId, Con>, list: seq<ConId>) {
    forall id :: id in list ==> id in cons
  }

  /** Among the first `k` pairs of the list the last one that holds the NIC is that at `i`. */
  ghost predicate LastHolder(cons: map<ConId, Con>, list: seq<ConId>, k: nat, n: NicId, i: nat)
    requires PairsKnown(cons, list)
  {
    && i < k <= |list| && Holds(cons[list[i]], n)
    && forall j :: i < j < k ==> !Holds(cons[list[j]], n)
  }

  ghost predicate Unheld(cons: map<ConId, Con>, list: seq<ConId>, k: nat, n: NicId)
    requires PairsKnown(cons, list) && k <= |list|
  {
    forall i :: 0 <= i < k ==> !Holds(cons[list[i]], n)
  }

  /** What the scan leaves a NIC with: used or on trial as the last pair that holds it says, and as
      it was if none does. */
  lemma {:induction false} RepairedExact(states: map<NicId, NicState>, cons: map<ConId, Con>, list: seq<ConId>, k: nat,
    n: NicId)
    requires k <= |list| && ListKnown(states, cons, list) && n in states
    ensures forall i: nat :: i < k && LastHolder(cons, list, k, n, i) ==>
      Repaired(states, cons, list, k)[n] == if cons[list[i]].state == Connected then Used else OnTrial
    ensures Unheld(cons, list, k, n) ==> Repaired(states, cons, list, k)[n] == states[n]
  {
    hide Repaired, ListKnown, LastHolder, Unheld;
    ScanKnown(states, cons, list);
    if k == 0 {
      RepairedNone(states, cons, list);
    } else {
      RepairedExact(states, cons, list, k - 1, n);
      RepairedAt(states, cons, list, k, n);
      if Unheld(cons, list, k, n) {
        UnheldBack(cons, list, k, n);
      }
      forall i: nat | i < k && LastHolder(cons, list, k, n, i)
        ensures Repaired(states, cons, list, k)[n] == if cons[list[i]].state == Connected then Used else OnTrial
      {
        HolderBack(cons, list, k, n, i);
      }
    }
  }

  lemma ScanKnown(states: map<NicId, NicState>, cons: map<ConId, Con>, list: seq<ConId>)
    requires ListKnown(states, cons, list)
    ensures PairsKnown(cons, list)
  {
  }

  lemma UnheldBack(cons: map<ConId, Con>, list: seq<ConId>, k: nat, n: NicId)
    requires PairsKnown(cons, list) && 0 < k <= |list| && Unheld(cons, list, k, n)
    ensures Unheld(cons, list, k - 1, n) && !Holds(cons[list[k - 1]], n)
  {
  }

  lemma HolderBack(cons: map<ConId, Con>, list: seq<ConId>, k: nat, n: NicId, i: nat)
    requires PairsKnown(cons, list) && LastHolder(cons, list, k, n, i)
    ensures 0 < k <= |list| && i < k
    ensures if i == k - 1 then Holds(cons[list[k - 1]], n)
      else LastHolder(cons, list, k - 1, n, i) && !Holds(cons[list[k - 1]], n)
  {
  }

  lemma RepairedAt(states: map<NicId, NicState>, cons: map<ConId, Con>, list: seq<ConId>, k: nat, n: NicId)
    requires 0 < k <= |list| && ListKnown(states, cons, list) && n in states
    ensures var c := cons[list[k - 1]];
      Repaired(states, cons, list, k)[n] ==
        if !Holds(c, n) then Repaired(states, cons, list, k - 1)[n] else if c.state == Connected then Used else OnTrial
  {
    KnownAt(states, cons, list, k - 1);
    hide ListKnown;
  }

  lemma RepairedNone(states: map<NicId, NicState>, cons: map<ConId, Con>, list: seq<ConId>)
    requires ListKnown(states, cons, list)
    ensures Repaired(states, cons, list, 0) == states
  {
  }

  /** One pair of the scan: its NICs are taken if it holds them, and no other NIC changes. */
  lemma RepairedStep(states: map<NicId, NicState>, cons: map<ConId, Con>, list: seq<ConId>, k: nat)
    requires 0 < k <= |list| && ListKnown(states, cons, list)
    ensures var r, p, c := Repaired(states, cons, list, k), Repaired(states, cons, list, k - 1), cons[list[k - 1]];
      && r.Keys == p.Keys == states.Keys
      && (forall n :: n in states && r[n] == Idle ==> p[n] == Idle)
      && (Holding(c.state) ==> Taken(r, c))
  {
    hide ListKnown;
    assert list[k - 1] in list;
    KnownAt(states, cons, list, k - 1);
  }

  lemma KnownAt(states: map<NicId, NicState>, cons: map<ConId, Con>, list: seq<ConId>, i: nat)
    requires ListKnown(states, cons, list) && i < |list|
    ensures list[i] in cons && EndStates(states, cons[list[i]])
  {
  }

  function RepairTable(t: Table): Table
    requires Shaped(t)
  {
    t.(nicState := Repaired(t.nicState, t.cons, t.conList, |t.conList|))
  }

  lemma ListedCons(t: Table)
    requires WF(t)
    ensures forall id :: id in t.cons <==> id in t.conList
  {
    hide NicsOk, SlicesOk, UniquePairs, NoDup;
  }

  /** After the scan no NIC of a holding pair is idle, whatever the states were before. */
  lemma RepairTableSound(t: Table)
    requires WF(t) && Shaped(t)
    ensures WF(RepairTable(t)) && Shaped(RepairTable(t)) && NoIdleInUse(RepairTable(t))
  {
    hide WF, UniquePairs, NoDup, Slice, UniqueIndices, Repaired;
    var r := RepairTable(t);
    ListedCons(t);
    RepairedSound(t.nicState, t.cons, t.conList, |t.conList|);
    RestateWF(t, r.nicState, t.pause, t.trials, t.success);
    forall id | id in r.cons && Holding(r.cons[id].state)
      ensures Taken(r.nicState, r.cons[id])
    {
      var i :| 0 <= i < |t.conList| && t.conList[i] == id;
    }
  }

  // ----- Completing the table -----

  /** The first pair of `list[k..]` with the given NICs. */
  function FindCon(cons: map<ConId, Con>, list: seq<ConId>, c: NicId, s: NicId, k: nat): (r: Option<ConId>)
    requires k <= |list| && forall id :: id in list ==> id in cons
    ensures r.Some? ==> r.value in list[k..] && cons[r.value].client == c && cons[r.value].server == s
    ensures r.None? ==> forall i :: k <= i < |list| ==> cons[list[i]].client != c || cons[list[i]].server != s
    decreases |list| - k
  {
    if k == |list| then None
    else if cons[list[k]].client == c && cons[list[k]].server == s then Some(list[k])
    else FindCon(cons, list, c, s, k + 1)
  }

  /** The state given to a pair on creation. */
  function BirthState(client: Nic, server: Nic, serverState: NicState): ConState {
    if !((client.ip4 && server.ip4) || (client.ip6 && server.ip6)) || client.ignored then NoPotential
    else if serverState == Used then Surplus
    else Potential
  }

  function NewPair(t: Table, c: NicId, s: NicId): Table
    requires Shaped(t) && c in t.nics && s in t.nics
  {
    var id := t.next;
    t.(conList := t.conList + [id],
       cons := t.cons[id := Con(BirthState(t.nics[c], t.nics[s], t.nicState[s]), Active, 0, None, c, s)],
       possible := t.possible[c := t.possible[c] + [id]],
       next := id + 1)
  }

  /** One body of the nested loop: create the pair, or unpark it when both its NICs are idle. */
  function TouchPair(t: Table, c: NicId, s: NicId): (r: Table)
    requires Shaped(t) && c in t.nics && s in t.nics
    ensures Shaped(r) && Steady(t, r) && r.clients == t.clients && r.servers == t.servers && r.nics == t.nics
  {
    match FindCon(t.cons, t.conList, c, s, 0)
    case None => NewPair(t, c, s)
    case Some(id) =>
      if Free(t.nicState, t.cons[id]) && t.cons[id].state == Surplus
      then t.(cons := t.cons[id := t.cons[id].(state := Potential)])
      else t
  }

  ghost predicate HasPair(t: Table, c: NicId, s: NicId) {
    exists id :: id in t.cons && t.cons[id].client == c && t.cons[id].server == s
  }

  /** The pair is in the table and not parked behind two idle NICs. */
  ghost predicate Settled(t: Table, c: NicId, s: NicId) {
    && HasPair(t, c, s)
    && c in t.nicState && s in t.nicState
    && forall id :: id in t.cons && t.cons[id].client == c && t.cons[id].server == s && t.cons[id].state == Surplus ==>
         t.nicState[c] != Idle || t.nicState[s] != Idle
  }

  /** What completing the table may do: add fresh pairs behind the others, and unpark pairs whose NICs are both
      idle. */
  ghost predicate Grown(t: Table, t': Table) {
    && t' == t.(conList := t'.conList, cons := t'.cons, possible := t'.possible, next := t'.next)
    && t.next <= t'.next && t.conList <= t'.conList
    && (forall id :: id in t.cons ==> id in t'.cons && Unparked(t, t.cons[id], t'.cons[id]))
    && (forall id :: id in t'.cons && id !in t.cons ==> Newborn(t, t'.cons[id]))
  }

  predicate Unparked(t: Table, c: Con, c': Con) {
    || c' == c
    || (c.state == Surplus && EndStates(t.nicState, c) && Free(t.nicState, c) && c' == c.(state := Potential))
  }

  predicate Newborn(t: Table, c: Con) {
    && EndsKnown(t.nics, c) && EndStates(t.nicState, c)
    && c == Con(BirthState(t.nics[c.client], t.nics[c.server], t.nicState[c.server]), Active, 0, None, c.client,
      c.server)
  }

  lemma GrownReflexive(t: Table)
    ensures Grown(t, t)
  {
  }

  lemma GrownTransitive(a: Table, b: Table, c: Table)
    requires Grown(a, b) && Grown(b, c)
    ensures Grown(a, c)
  {
    forall id | id in a.cons
      ensures id in c.cons && Unparked(a, a.cons[id], c.cons[id])
    {
      assert Unparked(b, b.cons[id], c.cons[id]);
    }
    forall id | id in c.cons && id !in a.cons
      ensures Newborn(a, c.cons[id])
    {
      if id in b.cons {
        assert Newborn(a, b.cons[id]);
        assert Unparked(b, b.cons[id], c.cons[id]);
      } else {
        assert Newborn(b, c.cons[id]);
      }
    }
  }

  lemma SettledGrown(t: Table, t': Table, c: NicId, s: NicId)
    requires WF(t') && Grown(t, t') && Settled(t, c, s)
    ensures Settled(t', c, s)
  {
    hide NicsOk, NoDup, Slice, SlicesOk, BirthState;
    var id0 :| id0 in t.cons && t.cons[id0].client == c && t.cons[id0].server == s;
    assert Unparked(t, t.cons[id0], t'.cons[id0]);
    forall id | id in t'.cons && t'.cons[id].client == c && t'.cons[id].server == s && t'.cons[id].state == Surplus
      ensures t'.nicState[c] != Idle || t'.nicState[s] != Idle
    {
      assert SamePair(t'.cons[id], t'.cons[id0]);
    }
  }

  lemma NewPairNicsOk(t: Table, c: NicId, s: NicId)
    requires Shaped(t) && NicsOk(t) && c in t.clients && s in t.servers
    ensures NicsOk(NewPair(t, c, s))
  {
    hide BirthState, NoDup, UniqueIndices;
  }

  lemma NewPairUnique(t: Table, c: NicId, s: NicId)
    requires Shaped(t) && UniquePairs(t.cons) && c in t.nics && s in t.nics && !HasPair(t, c, s)
    ensures UniquePairs(NewPair(t, c, s).cons)
  {
    hide BirthState;
    var cons, id := NewPair(t, c, s).cons, t.next;
    forall a, b | a in cons && b in cons && SamePair(cons[a], cons[b])
      ensures a == b
    {
      if a != id && b != id { assert SamePair(t.cons[a], t.cons[b]); }
    }
  }

  lemma NewPairConsOk(t: Table, c: NicId, s: NicId)
    requires Shaped(t) && ConsOk(t) && c in t.clients && s in t.servers && !HasPair(t, c, s)
    ensures ConsOk(NewPair(t, c, s))
  {
    NewPairUnique(t, c, s);
    hide BirthState, UniquePairs, HasPair;
    var t' := NewPair(t, c, s);
    assert t.next !in t.conList;
    assert NoDup(t'.conList);
  }

  lemma NewPairSlices(t: Table, c: NicId, s: NicId)
    requires Shaped(t) && NicsOk(t) && ConsOk(t) && SlicesOk(t) && c in t.clients && s in t.servers
    requires NicsOk(NewPair(t, c, s)) && ConsOk(NewPair(t, c, s))
    ensures SlicesOk(NewPair(t, c, s))
  {
    hide BirthState, UniquePairs, UniqueIndices, NoDup, Slice;
    var t', id := NewPair(t, c, s), t.next;
    forall n | n in t'.clients
      ensures t'.possible[n] == Slice(t'.conList, t'.cons, n)
    {
      SliceAppend(t.conList, t.cons, id, t'.cons[id], n);
    }
  }

  lemma NewPairWF(t: Table, c: NicId, s: NicId)
    requires WF(t) && Shaped(t) && c in t.clients && s in t.servers && !HasPair(t, c, s)
    ensures WF(NewPair(t, c, s))
  {
    hide BirthState, NicsOk, ConsOk, SlicesOk, HasPair;
    NewPairNicsOk(t, c, s);
    NewPairConsOk(t, c, s);
    NewPairSlices(t, c, s);
  }

  lemma FindConUnique(t: Table, c: NicId, s: NicId)
    requires WF(t) && Shaped(t)
    ensures FindCon(t.cons, t.conList, c, s, 0).None? ==> !HasPair(t, c, s)
    ensures forall id :: FindCon(t.cons, t.conList, c, s, 0) == Some(id) ==>
              id in t.cons && forall k :: k in t.cons && t.cons[k].client == c && t.cons[k].server == s ==> k == id
  {
    hide NicsOk, Slice, SlicesOk, NoDup;
    match FindCon(t.cons, t.conList, c, s, 0) {
      case None =>
        assert forall id :: id in t.cons ==> id in t.conList;
      case Some(id) =>
        forall k | k in t.cons && t.cons[k].client == c && t.cons[k].server == s
          ensures k == id
        {
          assert SamePair(t.cons[k], t.cons[id]);
        }
    }
  }

  lemma NextFresh(t: Table)
    requires WF(t)
    ensures t.next !in t.cons && t.next !in t.nics && t.next !in t.conList
  {
    hide UniquePairs, NoDup, Slice, SlicesOk, UniqueIndices;
  }

  lemma NewPairGrown(t: Table, c: NicId, s: NicId)
    requires Shaped(t) && c in t.nics && s in t.nics && t.next !in t.cons && !HasPair(t, c, s)
    ensures Grown(t, NewPair(t, c, s)) && Settled(NewPair(t, c, s), c, s)
  {
    var t' := NewPair(t, c, s);
    assert t'.cons[t.next].client == c && t'.cons[t.next].server == s;
    assert forall id :: id in t.cons ==> t.cons[id].client != c || t.cons[id].server != s;
  }

  lemma UnparkSettled(t: Table, c: NicId, s: NicId, id: ConId)
    requires Shaped(t) && id in t.cons && t.cons[id].client == c && t.cons[id].server == s
    requires forall k :: k in t.cons && t.cons[k].client == c && t.cons[k].server == s ==> k == id
    requires FindCon(t.cons, t.conList, c, s, 0) == Some(id)
    ensures Grown(t, TouchPair(t, c, s)) && Settled(TouchPair(t, c, s), c, s)
  {
    hide TouchPair, FindCon, Shaped, Steady;
    UnparkIs(t, c, s, id);
    var t' := TouchPair(t, c, s);
    assert t'.cons[id].client == c && t'.cons[id].server == s;
  }

  lemma UnparkIs(t: Table, c: NicId, s: NicId, id: ConId)
    requires Shaped(t) && id in t.cons && t.cons[id].client == c && t.cons[id].server == s
    requires FindCon(t.cons, t.conList, c, s, 0) == Some(id)
    ensures c in t.nics && s in t.nics && EndStates(t.nicState, t.cons[id])
    ensures TouchPair(t, c, s) ==
      if Free(t.nicState, t.cons[id]) &&
        t.cons[id].state == Surplus then t.(cons := t.cons[id := t.cons[id].(state := Potential)]) else t
  {
    hide FindCon;
  }

  lemma TouchPairSound(t: Table, c: NicId, s: NicId)
    requires WF(t) && Shaped(t) && c in t.clients && s in t.servers
    ensures WF(TouchPair(t, c, s)) && Grown(t, TouchPair(t, c, s)) && Settled(TouchPair(t, c, s), c, s)
  {
    hide WF, Grown, Settled;
    var t' := TouchPair(t, c, s);
    FindConUnique(t, c, s);
    match FindCon(t.cons, t.conList, c, s, 0) {
      case None =>
        NextFresh(t);
        NewPairWF(t, c, s);
        NewPairGrown(t, c, s);
      case Some(id) =>
        UnparkSettled(t, c, s, id);
        ReconsWF(t, t'.cons);
    }
  }

  /** The table after the inner loop has met the first `k` server NICs. */
  function Row(t: Table, c: NicId, k: nat): (r: Table)
    requires Shaped(t) && c in t.nics && k <= |t.servers|
    ensures Shaped(r) && Steady(t, r) && r.clients == t.clients && r.servers == t.servers && r.nics == t.nics
  {
    if k == 0 then t else TouchPair(Row(t, c, k - 1), c, t.servers[k - 1])
  }

  lemma ListedKnown(t: Table)
    requires Shaped(t)
    ensures forall n :: n in t.clients ==> n in t.nics
  {
  }

  lemma {:induction false} RowSound(t: Table, c: NicId, k: nat)
    requires WF(t) && Shaped(t) && c in t.clients && k <= |t.servers|
    ensures WF(Row(t, c, k)) && Grown(t, Row(t, c, k))
    ensures forall j :: 0 <= j < k ==> Settled(Row(t, c, k), c, t.servers[j])
  {
    hide WF, Grown, Settled, TouchPair, Steady, Shaped;
    ListedKnown(t);
    if k > 0 {
      var p, r, s := Row(t, c, k - 1), Row(t, c, k), t.servers[k - 1];
      RowSound(t, c, k - 1);
      TouchPairSound(p, c, s);
      GrownTransitive(t, p, r);
      forall j | 0 <= j < k
        ensures Settled(r, c, t.servers[j])
      {
        if j < k - 1 { SettledGrown(p, r, c, t.servers[j]); }
      }
    } else {
      GrownReflexive(t);
    }
  }

  /** Every pair of the first `k` client NICs is settled. */
  ghost predicate RowsSettled(t: Table, k: nat) {
    k <= |t.clients| && forall i, j :: 0 <= i < k && 0 <= j < |t.servers| ==> Settled(t, t.clients[i], t.servers[j])
  }

  /** The table after the outer loop has met the first `k` client NICs. */
  function Rows(t: Table, k: nat): (r: Table)
    requires Shaped(t) && k <= |t.clients|
    ensures Shaped(r) && Steady(t, r) && r.clients == t.clients && r.servers == t.servers && r.nics == t.nics
  {
    if k == 0 then t else Row(Rows(t, k - 1), t.clients[k - 1], |t.servers|)
  }

  lemma {:induction false} RowsSound(t: Table, k: nat)
    requires WF(t) && Shaped(t) && k <= |t.clients|
    ensures WF(Rows(t, k)) && Grown(t, Rows(t, k)) && RowsSettled(Rows(t, k), k)
  {
    hide WF, Grown, Settled, Row, Steady, Shaped;
    ListedKnown(t);
    if k > 0 {
      var p, r, c := Rows(t, k - 1), Rows(t, k), t.clients[k - 1];
      RowsSound(t, k - 1);
      RowSound(p, c, |t.servers|);
      GrownTransitive(t, p, r);
      forall i, j | 0 <= i < k && 0 <= j < |r.servers|
        ensures Settled(r, r.clients[i], r.servers[j])
      {
        if i < k - 1 { SettledGrown(p, r, p.clients[i], p.servers[j]); }
      }
    } else {
      GrownReflexive(t);
    }
  }

  /** The table with an entry for every client-server pair. */
  function Completed(t: Table): (r: Table)
    requires Shaped(t)
    ensures Shaped(r) && Steady(t, r) && r.clients == t.clients && r.servers == t.servers && r.nics == t.nics
  {
    Rows(t, |t.clients|)
  }

  lemma EndsListed(t: Table)
    requires WF(t)
    ensures forall id :: id in t.cons ==> t.cons[id].client in t.clients && t.cons[id].server in t.servers
  {
    hide UniquePairs, NoDup, Slice, SlicesOk, NicsOk;
  }

  lemma ConsListed(t: Table)
    requires WF(t)
    ensures NoDup(t.conList) && forall id :: id in t.cons <==> id in t.conList
  {
    hide UniquePairs, NoDup, Slice, SlicesOk, NicsOk;
  }

  /**
   Completing the table yields an entry for each client-server pair, keeps every busy
   pair as it was, and leaves no pair parked behind two idle NICs.
   */
  lemma CompletedSound(t: Table)
    requires WF(t) && Shaped(t)
    ensures WF(Completed(t)) && Grown(t, Completed(t)) && NoStarvation(Completed(t))
    ensures forall c, s :: c in t.clients && s in t.servers ==> HasPair(Completed(t), c, s)
  {
    hide WF, Grown, Rows;
    var r := Completed(t);
    RowsSound(t, |t.clients|);
    EndsListed(r);
    forall c, s | c in t.clients && s in t.servers
      ensures Settled(r, c, s)
    {
      var i :| 0 <= i < |t.clients| && t.clients[i] == c;
      var j :| 0 <= j < |t.servers| && t.servers[j] == s;
      assert Settled(r, r.clients[i], r.servers[j]);
    }
    forall id | id in r.cons && r.cons[id].state == Surplus
      ensures !Free(r.nicState, r.cons[id])
    {
      assert Settled(r, r.cons[id].client, r.cons[id].server);
    }
  }

  // ----- The new pairs -----

  /** The two NICs have an address family in common. */
  predicate ShareFamily(a: Nic, b: Nic) {
    (a.ip4 && b.ip4) || (a.ip6 && b.ip6)
  }

  /** A pair as it enters the table: hopeless without a common address family or behind an ignore-listed
      NIC, otherwise parked behind a used server NIC, otherwise to be tried; nothing else is known of it. */
  ghost predicate Born(t: Table, c: Con) {
    && EndsKnown(t.nics, c) && EndStates(t.nicState, c)
    && c.active == Active && c.speed == 0 && c.iod.None?
    && (c.state == NoPotential <==> !ShareFamily(t.nics[c.client], t.nics[c.server]) || t.nics[c.client].ignored)
    && (c.state == Surplus <==> c.state != NoPotential && t.nicState[c.server] == Used)
    && (c.state == Potential <==> c.state != NoPotential && t.nicState[c.server] != Used)
  }

  /** What completing the table does to each pair: a new one is born, a parked one behind two idle NICs is to be
      tried again, any other is as it was. */
  lemma CompletedPairs(t: Table)
    requires WF(t) && Shaped(t)
    ensures var r := Completed(t);
      && r == t.(conList := r.conList, cons := r.cons, possible := r.possible, next := r.next)
      && t.conList <= r.conList
      && (forall id :: id in r.cons && id !in t.cons ==> Born(r, r.cons[id]))
      && forall id :: id in t.cons ==>
           id in r.cons && r.cons[id] == if t.cons[id].state == Surplus && Free(t.nicState, t.cons[id])
             then t.cons[id].(state := Potential) else t.cons[id]
  {
    hide WF, Completed;
    CompletedSound(t);
    var r := Completed(t);
    forall id | id in t.cons
      ensures id in r.cons && r.cons[id] == if t.cons[id].state == Surplus && Free(t.nicState, t.cons[id])
        then t.cons[id].(state := Potential) else t.cons[id]
    {
      assert Unparked(t, t.cons[id], r.cons[id]);
    }
  }
}
