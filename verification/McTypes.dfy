/**
 The multichannel connection table: client NICs, server NICs, and one entry per
 NIC pair.  NICs and pairs are shared between lists in the code, so each has an
 identity (`NicId`, `ConId`) and its contents live in a map indexed by that identity.
 */
module McTypes {
  import opened Options

  type NicId = nat
  type ConId = nat
  type Iod = nat

  datatype ConState = Potential | NoPotential | InTrial | FailedToConnect | Connected | Surplus | InRemoval

  datatype ActiveState = Active | Inactive | Redundant

  datatype NicState = Idle | OnTrial | Used | Disconnected

  datatype Addr = V4(ip: nat) | V6(bytes: seq<nat>)

  /** One NIC pair; `speed` caches the minimum of the link speeds of its two NICs. */
  datatype Con = Con(state: ConState, active: ActiveState, speed: nat, iod: Option<Iod>, client: NicId, server: NicId)

  /** What a NIC is; its state and its list of pairs change more often and are separate maps of the table. */
  datatype Nic = Nic(index: nat, speed: nat, caps: nat, nicType: nat, ip4: bool, ip6: bool, ignored: bool,
                     addrs: seq<Addr>)

  /** `next` is the allocator: the identity of the next NIC or pair to be created. */
  datatype Table = Table(pause: nat, clients: seq<NicId>, servers: seq<NicId>,
                         nics: map<NicId, Nic>, nicState: map<NicId, NicState>, possible: map<NicId, seq<ConId>>,
                         maxChannels: nat, srvrRss: nat, clntRss: nat, ignoreList: seq<nat>, preferWired: bool,
                         conList: seq<ConId>, cons: map<ConId, Con>, trials: nat, success: seq<ConId>, next: nat)

  const UINT32: nat := 0x1_0000_0000

  const IFM_ETHER: nat := 0x20

  /** The interface index shared by a NIC and its RSS copies: the low 32 bits. */
  function BaseIndex(index: nat): nat {
    index % UINT32
  }

  /** The pair is on trial, connected, or waiting to be removed. */
  predicate Busy(s: ConState) {
    s == InTrial || s == Connected || s == InRemoval
  }

  /** The pair belongs on the list of successful connections. */
  predicate Carried(s: ConState) {
    s == Connected || s == InRemoval
  }

  /** The pair holds its two NICs. */
  predicate Holding(s: ConState) {
    s == Connected || s == InTrial
  }

  ghost predicate NoDup<T>(s: seq<T>) {
    forall i, j :: 0 <= i < j < |s| ==> s[i] != s[j]
  }

  /** In a duplicate-free list each element is new when it is reached. */
  lemma LastNew<T>(s: seq<T>, k: nat)
    requires NoDup(s) && 0 < k <= |s|
    ensures s[..k] == s[..k - 1] + [s[k - 1]] && s[k - 1] !in s[..k - 1]
  {
  }

  function Min(a: nat, b: nat): nat {
    if a < b then a else b
  }

  predicate EndsKnown(nics: map<NicId, Nic>, c: Con) {
    c.client in nics && c.server in nics
  }

  /** The speed a pair can reach now. */
  function LinkSpeed(nics: map<NicId, Nic>, c: Con): nat
    requires EndsKnown(nics, c)
  {
    Min(nics[c.client].speed, nics[c.server].speed)
  }

  predicate EndStates(states: map<NicId, NicState>, c: Con) {
    c.client in states && c.server in states
  }

  /** Both NICs of the pair are idle. */
  predicate Free(states: map<NicId, NicState>, c: Con)
    requires EndStates(states, c)
  {
    states[c.client] == Idle && states[c.server] == Idle
  }

  /** Neither NIC of the pair is idle. */
  predicate Taken(states: map<NicId, NicState>, c: Con)
    requires EndStates(states, c)
  {
    states[c.client] != Idle && states[c.server] != Idle
  }

  predicate Wired(nics: map<NicId, Nic>, c: Con)
    requires c.client in nics
  {
    nics[c.client].nicType == IFM_ETHER
  }

  // ----- Well-formed tables -----

  /** Every identity mentioned in the table resolves. */
  ghost predicate Shaped(t: Table) {
    && t.nicState.Keys == t.nics.Keys && t.possible.Keys == t.nics.Keys
    && (forall n :: n in t.clients ==> n in t.nics)
    && (forall n :: n in t.servers ==> n in t.nics)
    && (forall id :: id in t.conList ==> id in t.cons)
    && (forall id :: id in t.cons ==> EndsKnown(t.nics, t.cons[id]))
  }

  /** The two NIC lists are duplicate-free, disjoint and cover the NICs; indices are unique on
      each side; only client NICs are ignore-listed. */
  ghost predicate NicsOk(t: Table) {
    && NoDup(t.clients) && NoDup(t.servers)
    && (forall n :: n in t.clients ==> n !in t.servers)
    && (forall n :: n in t.nics <==> n in t.clients || n in t.servers)
    && UniqueIndices(t.nics, t.clients)
    && UniqueIndices(t.nics, t.servers)
    && (forall n :: n in t.nics ==> n < t.next)
    && (forall n :: n in t.servers ==> !t.nics[n].ignored)
    && t.nicState.Keys == t.nics.Keys && t.possible.Keys == t.nics.Keys
  }

  predicate SameIndex(a: Nic, b: Nic) {
    a.index == b.index
  }

  ghost predicate UniqueIndices(nics: map<NicId, Nic>, list: seq<NicId>)
    requires forall n :: n in list ==> n in nics
  {
    forall a, b {:trigger SameIndex(nics[a], nics[b])} ::
      a in list && b in list && SameIndex(nics[a], nics[b]) ==> a == b
  }

  /** The pair list is duplicate-free, covers the pairs, and holds at most one entry per NIC pair, both NICs listed. */
  ghost predicate ConsOk(t: Table) {
    && NoDup(t.conList)
    && (forall id :: id in t.cons <==> id in t.conList)
    && (forall id :: id in t.cons ==> t.cons[id].client in t.clients && t.cons[id].server in t.servers)
    && UniquePairs(t.cons)
    && (forall id :: id in t.cons ==> id < t.next)
  }

  ghost predicate UniquePairs(cons: map<ConId, Con>) {
    forall a, b {:trigger SamePair(cons[a], cons[b])} ::
      a in cons && b in cons && SamePair(cons[a], cons[b]) ==> a == b
  }

  predicate SamePair(a: Con, b: Con) {
    a.client == b.client && a.server == b.server
  }

  /** The entries of `list` whose client NIC is `n`, in list order. */
  ghost function Slice(list: seq<ConId>, cons: map<ConId, Con>, n: NicId): seq<ConId>
    requires forall id :: id in list ==> id in cons
  {
    if list == [] then []
    else
      var rest := Slice(list[..|list| - 1], cons, n);
      var last := list[|list| - 1];
      if cons[last].client == n then rest + [last] else rest
  }

  /** Each client NIC's own list is its slice of the pair list; a server NIC's list stays empty. */
  ghost predicate SlicesOk(t: Table)
    requires NicsOk(t) && ConsOk(t)
  {
    && (forall n :: n in t.clients ==> t.possible[n] == Slice(t.conList, t.cons, n))
    && (forall n :: n in t.servers ==> t.possible[n] == [])
  }

  ghost predicate WF(t: Table) {
    NicsOk(t) && ConsOk(t) && SlicesOk(t) && t.maxChannels >= 1
  }

  lemma WFShaped(t: Table)
    requires WF(t)
    ensures Shaped(t)
  {
    hide NoDup, UniqueIndices, UniquePairs, Slice, SlicesOk;
  }

  // ----- The safety properties -----

  /** No NIC of a connected or on-trial pair is idle. */
  ghost predicate NoIdleInUse(t: Table)
    requires Shaped(t)
  {
    forall id :: id in t.cons && Holding(t.cons[id].state) ==> Taken(t.nicState, t.cons[id])
  }

  /** No parked pair has two idle NICs. */
  ghost predicate NoStarvation(t: Table)
    requires Shaped(t)
  {
    forall id :: id in t.cons && t.cons[id].state == Surplus ==> !Free(t.nicState, t.cons[id])
  }

  /** The success list holds exactly the connected and in-removal pairs, each once. */
  ghost predicate Agree(t: Table) {
    && NoDup(t.success)
    && (forall id :: id in t.success <==> id in t.cons && Carried(t.cons[id].state))
  }

  /** The cached speed of every busy pair is the speed of its slower NIC, unless its client NIC is ignore-listed. */
  ghost predicate SpeedsFresh(t: Table)
    requires Shaped(t)
  {
    forall id :: id in t.cons && Busy(t.cons[id].state) && !t.nics[t.cons[id].client].ignored ==>
      t.cons[id].speed == LinkSpeed(t.nics, t.cons[id])
  }

  /** The configuration and the two counters are as they were. */
  predicate Steady(t: Table, t': Table) {
    && t'.maxChannels == t.maxChannels && t'.srvrRss == t.srvrRss && t'.clntRss == t.clntRss
    && t'.ignoreList == t.ignoreList && t'.preferWired == t.preferWired
    && t'.trials == t.trials && t'.pause == t.pause
  }

  /** A step that keeps the table well formed and each safety property it had, and neither breaks
      nor mends the success list. */
  ghost predicate Preserves(t: Table, t': Table)
    requires Shaped(t)
  {
    && WF(t') && Shaped(t')
    && (NoIdleInUse(t) ==> NoIdleInUse(t'))
    && (NoStarvation(t) ==> NoStarvation(t'))
    && (Agree(t') <==> Agree(t))
    && (SpeedsFresh(t) ==> SpeedsFresh(t'))
  }

  lemma PreservesReflexive(t: Table)
    requires WF(t) && Shaped(t)
    ensures Preserves(t, t)
  {
    hide WF, NoIdleInUse, NoStarvation, Agree, SpeedsFresh, Shaped;
  }

  lemma PreservesWF(t: Table, t': Table)
    requires Shaped(t) && Preserves(t, t')
    ensures WF(t') && Shaped(t')
  {
    hide WF, NoIdleInUse, NoStarvation, Agree, SpeedsFresh;
  }

  lemma PreservesTransitive(a: Table, b: Table, c: Table)
    requires Shaped(a) && Preserves(a, b) && Preserves(b, c)
    ensures Preserves(a, c)
  {
    hide WF, NoIdleInUse, NoStarvation, Agree, SpeedsFresh, Shaped;
  }

  // ----- Slices -----

  lemma {:induction false} SliceFrame(list: seq<ConId>, cons: map<ConId, Con>, cons': map<ConId, Con>, n: NicId)
    requires forall id :: id in list ==> id in cons && id in cons' && cons'[id].client == cons[id].client
    ensures Slice(list, cons', n) == Slice(list, cons, n)
  {
    if list != [] {
      SliceFrame(list[..|list| - 1], cons, cons', n);
    }
  }

  lemma {:induction false} SliceMembers(list: seq<ConId>, cons: map<ConId, Con>, n: NicId)
    requires forall id :: id in list ==> id in cons
    ensures forall id :: id in Slice(list, cons, n) <==> id in list && cons[id].client == n
  {
    if list != [] {
      var init, last := list[..|list| - 1], list[|list| - 1];
      assert list == init + [last];
      SliceMembers(init, cons, n);
    }
  }

  lemma {:induction false} SliceNoDup(list: seq<ConId>, cons: map<ConId, Con>, n: NicId)
    requires forall id :: id in list ==> id in cons
    requires NoDup(list)
    ensures NoDup(Slice(list, cons, n))
  {
    if list != [] {
      var init := list[..|list| - 1];
      SliceNoDup(init, cons, n);
      SliceMembers(init, cons, n);
    }
  }

  /** Appending a pair appends it to the slice of its client NIC only. */
  lemma SliceAppend(list: seq<ConId>, cons: map<ConId, Con>, id: ConId, c: Con, n: NicId)
    requires forall k :: k in list ==> k in cons
    requires id !in list
    ensures Slice(list + [id], cons[id := c], n) == Slice(list, cons, n) + if c.client == n then [id] else []
  {
    assert (list + [id])[..|list|] == list;
    SliceFrame(list, cons, cons[id := c], n);
  }

  /** Changing pairs without moving them keeps the table well formed. */
  lemma ReconsWF(t: Table, cons': map<ConId, Con>)
    requires WF(t)
    requires cons'.Keys == t.cons.Keys
    requires forall id :: id in t.cons ==> SamePair(cons'[id], t.cons[id])
    ensures WF(t.(cons := cons'))
  {
    hide NoDup, UniqueIndices, UniquePairs, ConsOk, Slice;
    ReconsOk(t, cons');
    ConsListKnown(t, cons');
    var t' := t.(cons := cons');
    forall n | n in t'.clients
      ensures t'.possible[n] == Slice(t'.conList, t'.cons, n)
    {
      SliceFrame(t.conList, t.cons, cons', n);
    }
  }

  lemma ConsListKnown(t: Table, cons': map<ConId, Con>)
    requires ConsOk(t) && cons'.Keys == t.cons.Keys && forall id :: id in t.cons ==> SamePair(cons'[id], t.cons[id])
    ensures forall id :: id in t.conList ==> id in t.cons && id in cons' && cons'[id].client == t.cons[id].client
  {
    hide NoDup, UniquePairs;
  }

  lemma ReconsOk(t: Table, cons': map<ConId, Con>)
    requires ConsOk(t) && cons'.Keys == t.cons.Keys && forall id :: id in t.cons ==> SamePair(cons'[id], t.cons[id])
    ensures ConsOk(t.(cons := cons'))
  {
    hide NoDup, UniquePairs;
    UniquePairsFrame(t.cons, cons');
    assert forall id :: id in cons' <==> id in t.cons;
  }

  lemma UniquePairsFrame(cons: map<ConId, Con>, cons': map<ConId, Con>)
    requires UniquePairs(cons)
    requires forall id :: id in cons' ==> id in cons && SamePair(cons'[id], cons[id])
    ensures UniquePairs(cons')
  {
    forall a, b | a in cons' && b in cons' && SamePair(cons'[a], cons'[b])
      ensures a == b
    {
      assert SamePair(cons[a], cons[b]);
    }
  }

  lemma UniqueIndicesFrame(nics: map<NicId, Nic>, nics': map<NicId, Nic>, list: seq<NicId>)
    requires forall n :: n in list ==> n in nics && n in nics' && nics'[n].index == nics[n].index
    requires UniqueIndices(nics, list)
    ensures UniqueIndices(nics', list)
  {
    forall a, b | a in list && b in list && SameIndex(nics'[a], nics'[b])
      ensures a == b
    {
      assert SameIndex(nics[a], nics[b]);
    }
  }

  /** Changing NICs without touching their indices keeps the table well formed. */
  lemma RenicsWF(t: Table, nics': map<NicId, Nic>)
    requires WF(t)
    requires nics'.Keys == t.nics.Keys
    requires forall n :: n in t.nics ==> nics'[n].index == t.nics[n].index && (n in t.servers ==> !nics'[n].ignored)
    ensures WF(t.(nics := nics'))
  {
    hide NoDup, UniqueIndices, UniquePairs, Slice, NicsOk;
    RenicsOk(t, nics');
  }

  lemma RenicsOk(t: Table, nics': map<NicId, Nic>)
    requires NicsOk(t) && nics'.Keys == t.nics.Keys
    requires forall n :: n in t.nics ==> nics'[n].index == t.nics[n].index && (n in t.servers ==> !nics'[n].ignored)
    ensures NicsOk(t.(nics := nics'))
  {
    hide NoDup, UniqueIndices;
    UniqueIndicesFrame(t.nics, nics', t.clients);
    UniqueIndicesFrame(t.nics, nics', t.servers);
    assert forall n :: n in nics' <==> n in t.nics;
  }

  /** NIC states, counters and the success list do not affect well-formedness. */
  lemma RestateWF(t: Table, states: map<NicId, NicState>, pause: nat, trials: nat, success: seq<ConId>)
    requires WF(t) && states.Keys == t.nics.Keys
    ensures WF(t.(nicState := states, pause := pause, trials := trials, success := success))
  {
    hide NoDup, UniqueIndices, UniquePairs, Slice;
  }
}
