/**
 The connection objects (session list, sessions, shares) and the references on them. A
 reference is a handle that some holder has: a device slot, a mount, a call in flight, or a
 teardown that still has to give back the reference its object had on the parent. A child on
 a parent's list counts as one reference on the parent.

 Each step is one locked section of the code, so every interleaving is a sequence of steps.
 */
module CoRefs {
  import opened Options

  type Id = nat

  datatype Holder =
    | Base
    | SessionSlot(dev: nat)
    | ShareSlot(dev: nat)
    | Mount(mount: nat)
    | Call(call: nat)
    | Teardown(child: Id)

  /** The place of an object in the hierarchy; `unlinked` once its teardown has left the parent. */
  datatype Node = Node(level: nat, parent: Option<Id>, children: set<Id>, unlinked: bool)

  /**
   The objects with their use counts, those marked gone, and who holds what. `torn` counts the
   teardowns that were started: it is bookkeeping of the model.
   */
  datatype State = State(
    nodes: map<Id, Node>,
    gone: set<Id>,
    uses: map<Id, nat>,
    torn: map<Id, nat>,
    handles: map<Holder, Id>)

  datatype Step =
    | Init(id: Id, level: nat, holder: Holder)
    | Ref(holder: Holder, id: Id)
    | Rele(holder: Holder)
    | Put(holder: Holder)
    | Move(holder: Holder, taker: Holder)
    | Insert(holder: Holder, id: Id)
    | Unlink(id: Id)
    | Free(id: Id)

  const LIST: Id := 0

  /** The session list, which nobody releases. */
  function Start(): State {
    State(map[LIST := Node(0, None, {}, false)], {}, map[LIST := 1], map[LIST := 0], map[Base := LIST])
  }

  predicate Shaped(s: State) {
    && s.uses.Keys == s.nodes.Keys
    && s.torn.Keys == s.nodes.Keys
  }

  predicate Ordinary(h: Holder) {
    !h.Base? && !h.Teardown?
  }

  function Drop(s: State, h: Holder): State {
    s.(handles := s.handles - {h})
  }

  /** The last reference is gone: the object is marked and its teardown begins. */
  function Begin(s: State, id: Id): State
    requires id in s.torn
  {
    s.(gone := s.gone + {id}, torn := s.torn[id := s.torn[id] + 1])
  }

  function Lessen(s: State, id: Id): State
    requires id in s.uses
  {
    s.(uses := s.uses[id := if s.uses[id] > 0 then s.uses[id] - 1 else 0])
  }

  /** Releasing: the last reference starts the teardown, unless one is draining already. */
  function Released(s: State, id: Id): State
    requires Shaped(s) && id in s.nodes
  {
    if s.uses[id] == 1 && id !in s.gone then Begin(Lessen(s, id), id) else Lessen(s, id)
  }

  /** Unlocking and releasing: whoever finds the object gone goes on to tear it down. */
  function PutDown(s: State, id: Id): State
    requires Shaped(s) && id in s.nodes
  {
    if s.uses[id] == 1 || id in s.gone then Begin(Lessen(s, id), id) else Lessen(s, id)
  }

  /** A call on a handle whose object has been freed is no step: what it does is not defined. */
  predicate Enabled(s: State, e: Step)
    requires Shaped(s)
  {
    match e
    case Init(id, level, h) => id !in s.nodes && level > 0 && Ordinary(h) && h !in s.handles
    case Ref(h, id) => id in s.nodes && Ordinary(h) && h !in s.handles
    case Rele(h) => Ordinary(h) && h in s.handles && s.handles[h] in s.nodes
    case Put(h) => !h.Base? && h in s.handles && s.handles[h] in s.nodes
    case Move(h, taker) => Ordinary(h) && Ordinary(taker) && h in s.handles && taker !in s.handles
    case Insert(h, id) =>
      && Ordinary(h) && h in s.handles && s.handles[h] in s.nodes && s.handles[h] !in s.gone
      && id in s.nodes && s.nodes[id].parent.None? && id !in s.gone
      && s.nodes[id].level == s.nodes[s.handles[h]].level + 1
    case Unlink(id) => id in s.nodes && id in s.gone && !s.nodes[id].unlinked
    case Free(id) => id in s.nodes && s.nodes[id].unlinked && Teardown(id) !in s.handles
  }

  /** The end of a teardown takes the object off its parent's list, if the parent can be locked. */
  function Unlinked(s: State, id: Id): State
    requires id in s.nodes
  {
    var n := s.nodes[id].(unlinked := true);
    if n.parent.None? || n.parent.value !in s.nodes || n.parent.value in s.gone then s.(nodes := s.nodes[id := n])
    else
      var p := n.parent.value;
      s.(nodes := s.nodes[p := s.nodes[p].(children := s.nodes[p].children - {id})][id := n],
         handles := s.handles[Teardown(id) := p])
  }

  function Perform(s: State, e: Step): (r: State)
    requires Shaped(s) && Enabled(s, e)
    ensures Shaped(r)
  {
    match e
    case Init(id, level, h) =>
      State(s.nodes[id := Node(level, None, {}, false)], s.gone, s.uses[id := 1], s.torn[id := 0], s.handles[h := id])
    case Ref(h, id) => s.(uses := s.uses[id := s.uses[id] + 1], handles := s.handles[h := id])
    case Rele(h) => Drop(Released(s, s.handles[h]), h)
    case Put(h) => Drop(PutDown(s, s.handles[h]), h)
    case Move(h, taker) => s.(handles := (s.handles - {h})[taker := s.handles[h]])
    case Insert(h, id) =>
      var p := s.handles[h];
      Drop(s.(nodes := s.nodes[p := s.nodes[p].(children := s.nodes[p].children + {id})]
                              [id := s.nodes[id].(parent := Some(p))]), h)
    case Unlink(id) => Unlinked(s, id)
    case Free(id) => State(s.nodes - {id}, s.gone - {id}, s.uses - {id}, s.torn - {id}, s.handles)
  }

  function Next(s: State, e: Step): (r: State)
    requires Shaped(s)
    ensures Shaped(r)
  {
    if Enabled(s, e) then Perform(s, e) else s
  }

  // ----- What holds -----

  function Held(handles: map<Holder, Id>, id: Id): set<Holder> {
    set h | h in handles && handles[h] == id
  }

  /** Every use count is the number of children and of handles. */
  predicate CountsOk(nodes: map<Id, Node>, uses: map<Id, nat>, handles: map<Holder, Id>)
    requires uses.Keys == nodes.Keys
  {
    forall id :: id in nodes ==> uses[id] == |nodes[id].children| + |Held(handles, id)|
  }

  /** Children know their parents, parents their children, and no parent is gone. */
  predicate LinksOk(nodes: map<Id, Node>, gone: set<Id>) {
    && gone <= nodes.Keys
    && (forall id :: id in nodes && id in gone ==> nodes[id].children == {})
    && (forall id, c :: id in nodes && c in nodes[id].children ==>
      c in nodes && nodes[c].parent == Some(id) && !nodes[c].unlinked)
    && (forall id :: id in nodes && nodes[id].parent.Some? && !nodes[id].unlinked ==>
      && nodes[id].parent.value in nodes
      && id in nodes[nodes[id].parent.value].children
      && nodes[id].level == nodes[nodes[id].parent.value].level + 1)
    && (forall id :: id in nodes && nodes[id].unlinked ==> id in gone)
  }

  /** A live object is in use; a gone one was torn down once. */
  predicate AgesOk(nodes: map<Id, Node>, gone: set<Id>, uses: map<Id, nat>, torn: map<Id, nat>)
    requires uses.Keys == nodes.Keys && torn.Keys == nodes.Keys
  {
    && (forall id :: id in nodes && id !in gone ==> uses[id] > 0 && torn[id] == 0)
    && (forall id :: id in nodes && id in gone ==> torn[id] == 1)
  }

  /** A teardown that has left the parent's list keeps the parent, one level up, until it gives it back. */
  predicate PointsOk(nodes: map<Id, Node>, gone: set<Id>, handles: map<Holder, Id>) {
    forall h :: h in handles && h.Teardown? ==>
      && h.child in nodes && nodes[h.child].unlinked
      && nodes[h.child].parent == Some(handles[h])
      && handles[h] !in gone
      && handles[h] in nodes && nodes[h.child].level == nodes[handles[h]].level + 1
  }

  predicate Rooted(nodes: map<Id, Node>, gone: set<Id>, handles: map<Holder, Id>) {
    && LIST in nodes && nodes[LIST].level == 0 && nodes[LIST].parent.None? && LIST !in gone
    && Base in handles && handles[Base] == LIST
  }

  /** Every handle is on an object that is there. */
  predicate Resolved(nodes: map<Id, Node>, handles: map<Holder, Id>) {
    forall h :: h in handles ==> handles[h] in nodes
  }

  predicate Inv(s: State) {
    && Shaped(s)
    && Resolved(s.nodes, s.handles)
    && CountsOk(s.nodes, s.uses, s.handles)
    && LinksOk(s.nodes, s.gone)
    && AgesOk(s.nodes, s.gone, s.uses, s.torn)
    && PointsOk(s.nodes, s.gone, s.handles)
    && Rooted(s.nodes, s.gone, s.handles)
  }

  lemma StartInv()
    ensures Inv(Start())
  {
    assert Held(Start().handles, LIST) == {Base};
  }

  // ----- Handles -----

  lemma HeldGain(handles: map<Holder, Id>, h: Holder, id: Id)
    requires h !in handles
    ensures |Held(handles[h := id], id)| == |Held(handles, id)| + 1
    ensures forall o :: o != id ==> Held(handles[h := id], o) == Held(handles, o)
  {
    assert Held(handles[h := id], id) == Held(handles, id) + {h};
  }

  lemma HeldLoss(handles: map<Holder, Id>, h: Holder)
    requires h in handles
    ensures |Held(handles - {h}, handles[h])| == |Held(handles, handles[h])| - 1
    ensures forall o :: o != handles[h] ==> Held(handles - {h}, o) == Held(handles, o)
  {
    var id := handles[h];
    assert Held(handles - {h}, id) == Held(handles, id) - {h};
    assert h in Held(handles, id);
  }

  lemma HeldLast(handles: map<Holder, Id>, h: Holder)
    requires h in handles && |Held(handles, handles[h])| == 1
    ensures forall k :: k in handles && handles[k] == handles[h] ==> k == h
  {
    var all := Held(handles, handles[h]);
    assert |all - {h}| == 0;
    forall k | k in handles && handles[k] == handles[h]
      ensures k == h
    {
      assert k in all && k !in all - {h};
    }
  }

  // ----- Counts -----

  lemma CountsGain(nodes: map<Id, Node>, uses: map<Id, nat>, handles: map<Holder, Id>, h: Holder, id: Id)
    requires uses.Keys == nodes.Keys && CountsOk(nodes, uses, handles)
    requires h !in handles && id in nodes
    ensures CountsOk(nodes, uses[id := uses[id] + 1], handles[h := id])
  {
    HeldGain(handles, h, id);
  }

  lemma CountsLoss(nodes: map<Id, Node>, uses: map<Id, nat>, handles: map<Holder, Id>, h: Holder)
    requires uses.Keys == nodes.Keys && CountsOk(nodes, uses, handles)
    requires h in handles && handles[h] in nodes
    ensures uses[handles[h]] > 0
    ensures CountsOk(nodes, uses[handles[h] := uses[handles[h]] - 1], handles - {h})
    ensures uses[handles[h]] == 1 ==> nodes[handles[h]].children == {} && |Held(handles, handles[h])| == 1
  {
    HeldLoss(handles, h);
    assert h in Held(handles, handles[h]);
  }

  lemma CountsNew(nodes: map<Id, Node>, uses: map<Id, nat>, handles: map<Holder, Id>, h: Holder, id: Id, n: Node)
    requires uses.Keys == nodes.Keys && CountsOk(nodes, uses, handles)
    requires h !in handles && id !in nodes && n.children == {}
    requires forall k :: k in handles ==> handles[k] in nodes
    ensures CountsOk(nodes[id := n], uses[id := 1], handles[h := id])
  {
    HeldGain(handles, h, id);
    assert Held(handles, id) == {};
  }

  /** A reference turned into a child, or a child into a reference, leaves the count. */
  lemma CountsTraded(nodes: map<Id, Node>, uses: map<Id, nat>, handles: map<Holder, Id>, h: Holder, c: Id, n: Node)
    requires uses.Keys == nodes.Keys && CountsOk(nodes, uses, handles)
    requires h in handles && handles[h] in nodes && c in nodes && c != handles[h]
    requires c !in nodes[handles[h]].children && n.children == nodes[c].children
    ensures var p := handles[h];
      CountsOk(nodes[p := nodes[p].(children := nodes[p].children + {c})][c := n], uses, handles - {h})
  {
    HeldLoss(handles, h);
  }

  lemma CountsReturned(nodes: map<Id, Node>, uses: map<Id, nat>, handles: map<Holder, Id>, h: Holder, p: Id, c: Id,
    n: Node)
    requires uses.Keys == nodes.Keys && CountsOk(nodes, uses, handles)
    requires h !in handles && p in nodes && c in nodes && c != p
    requires c in nodes[p].children && n.children == nodes[c].children
    ensures CountsOk(nodes[p := nodes[p].(children := nodes[p].children - {c})][c := n], uses, handles[h := p])
  {
    HeldGain(handles, h, p);
  }

  lemma CountsSame(nodes: map<Id, Node>, uses: map<Id, nat>, handles: map<Holder, Id>, c: Id, n: Node)
    requires uses.Keys == nodes.Keys && CountsOk(nodes, uses, handles)
    requires c in nodes && n.children == nodes[c].children
    ensures CountsOk(nodes[c := n], uses, handles)
  {
  }

  // ----- Links -----

  lemma LinksNew(nodes: map<Id, Node>, gone: set<Id>, id: Id, n: Node)
    requires LinksOk(nodes, gone) && id !in nodes
    requires n.parent.None? && n.children == {} && !n.unlinked
    ensures LinksOk(nodes[id := n], gone)
  {
  }

  lemma LinksGone(nodes: map<Id, Node>, gone: set<Id>, id: Id)
    requires LinksOk(nodes, gone) && id in nodes && nodes[id].children == {}
    ensures LinksOk(nodes, gone + {id})
  {
  }

  lemma LinksInsert(nodes: map<Id, Node>, gone: set<Id>, p: Id, c: Id)
    requires LinksOk(nodes, gone) && p in nodes && c in nodes && p !in gone && c !in gone
    requires nodes[c].parent.None? && nodes[c].level == nodes[p].level + 1
    ensures c !in nodes[p].children && c != p
    ensures LinksOk(nodes[p := nodes[p].(children := nodes[p].children + {c})][c := nodes[c].(parent := Some(p))], gone)
  {
  }

  lemma LinksUnlink(nodes: map<Id, Node>, gone: set<Id>, c: Id)
    requires LinksOk(nodes, gone) && c in nodes && c in gone && !nodes[c].unlinked && nodes[c].parent.Some?
    ensures var p := nodes[c].parent.value;
      && p in nodes && p !in gone && p != c && c in nodes[p].children && nodes[c].level == nodes[p].level + 1
      && LinksOk(nodes[p := nodes[p].(children := nodes[p].children - {c})][c := nodes[c].(unlinked := true)], gone)
  {
  }

  lemma LinksOrphan(nodes: map<Id, Node>, gone: set<Id>, c: Id)
    requires LinksOk(nodes, gone) && c in nodes && c in gone && nodes[c].parent.None?
    ensures LinksOk(nodes[c := nodes[c].(unlinked := true)], gone)
  {
  }

  lemma LinksFree(nodes: map<Id, Node>, gone: set<Id>, c: Id)
    requires LinksOk(nodes, gone) && c in nodes && nodes[c].unlinked
    ensures LinksOk(nodes - {c}, gone - {c})
  {
  }

  // ----- Steps -----

  lemma InitKeeps(s: State, id: Id, level: nat, h: Holder)
    requires Inv(s) && Enabled(s, Init(id, level, h))
    ensures Inv(Perform(s, Init(id, level, h)))
  {
    hide CountsOk, LinksOk, Held;
    CountsNew(s.nodes, s.uses, s.handles, h, id, Node(level, None, {}, false));
    LinksNew(s.nodes, s.gone, id, Node(level, None, {}, false));
    GoneKnown(s.nodes, s.gone);
  }

  lemma RefKeeps(s: State, h: Holder, id: Id)
    requires Inv(s) && Enabled(s, Ref(h, id))
    ensures Inv(Perform(s, Ref(h, id)))
  {
    hide LinksOk, CountsOk, Held;
    CountsGain(s.nodes, s.uses, s.handles, h, id);
  }

  lemma MoveKeeps(s: State, h: Holder, taker: Holder)
    requires Inv(s) && Enabled(s, Move(h, taker))
    ensures Inv(Perform(s, Move(h, taker)))
  {
    hide LinksOk, AgesOk, CountsOk, Held;
    var id := s.handles[h];
    CountsLoss(s.nodes, s.uses, s.handles, h);
    CountsGain(s.nodes, s.uses[id := s.uses[id] - 1], s.handles - {h}, taker, id);
    assert s.uses == s.uses[id := s.uses[id] - 1][id := s.uses[id]];
  }

  lemma DropKeeps(s: State, h: Holder)
    requires Inv(s) && !h.Base? && h in s.handles && s.uses[s.handles[h]] > 1
    ensures Inv(Drop(Lessen(s, s.handles[h]), h))
  {
    hide LinksOk, CountsOk, Held;
    CountsLoss(s.nodes, s.uses, s.handles, h);
  }

  /** The last reference: the object has no children and nothing else points to it. */
  lemma LastKeeps(s: State, h: Holder)
    requires Inv(s) && !h.Base? && h in s.handles && s.uses[s.handles[h]] == 1 && s.handles[h] !in s.gone
    ensures Inv(Drop(Begin(Lessen(s, s.handles[h]), s.handles[h]), h))
  {
    hide LinksOk, CountsOk, Held;
    CountsLoss(s.nodes, s.uses, s.handles, h);
    HeldLast(s.handles, h);
    LinksGone(s.nodes, s.gone, s.handles[h]);
    GoneKnown(s.nodes, s.gone);
  }

  lemma DrainKeeps(s: State, h: Holder)
    requires Inv(s) && !h.Base? && h in s.handles && s.handles[h] in s.gone
    ensures Inv(Drop(Lessen(s, s.handles[h]), h))
  {
    hide LinksOk, CountsOk, Held;
    CountsLoss(s.nodes, s.uses, s.handles, h);
  }

  lemma GoneKnown(nodes: map<Id, Node>, gone: set<Id>)
    requires LinksOk(nodes, gone)
    ensures gone <= nodes.Keys
    ensures forall id :: id in nodes && nodes[id].unlinked ==> id in gone
  {
  }

  /** A release or a put keeps the references exact, unless it is a put on a gone object. */
  lemma ReleaseKeeps(s: State, h: Holder)
    requires Inv(s) && !h.Base? && h in s.handles
    ensures Inv(Drop(Released(s, s.handles[h]), h))
    ensures s.handles[h] !in s.gone ==> Inv(Drop(PutDown(s, s.handles[h]), h))
  {
    hide LinksOk, AgesOk, PointsOk, CountsOk, Held, Begin, Lessen;
    CountsLoss(s.nodes, s.uses, s.handles, h);
    if s.handles[h] in s.gone {
      DrainKeeps(s, h);
    } else if s.uses[s.handles[h]] == 1 {
      LastKeeps(s, h);
    } else {
      DropKeeps(s, h);
    }
  }

  lemma InsertKeeps(s: State, h: Holder, c: Id)
    requires Inv(s) && Enabled(s, Insert(h, c))
    ensures Inv(Perform(s, Insert(h, c)))
  {
    hide LinksOk, CountsOk, Held;
    var p := s.handles[h];
    LinksInsert(s.nodes, s.gone, p, c);
    CountsTraded(s.nodes, s.uses, s.handles, h, c, s.nodes[c].(parent := Some(p)));
    GoneKnown(s.nodes, s.gone);
  }

  lemma UnlinkKeeps(s: State, c: Id)
    requires Inv(s) && Enabled(s, Unlink(c))
    ensures Inv(Perform(s, Unlink(c)))
  {
    hide LinksOk, CountsOk, Held;
    var n := s.nodes[c].(unlinked := true);
    if n.parent.None? {
      LinksOrphan(s.nodes, s.gone, c);
      CountsSame(s.nodes, s.uses, s.handles, c, n);
    } else {
      LinksUnlink(s.nodes, s.gone, c);
      CountsReturned(s.nodes, s.uses, s.handles, Teardown(c), n.parent.value, c, n);
    }
  }

  lemma FreeKeeps(s: State, c: Id)
    requires Inv(s) && Enabled(s, Free(c)) && Held(s.handles, c) == {}
    ensures Inv(Perform(s, Free(c)))
  {
    hide LinksOk, Held, CountsOk;
    LinksFree(s.nodes, s.gone, c);
    GoneKnown(s.nodes, s.gone);
    CountsFree(s.nodes, s.uses, s.handles, c);
    NotHeld(s.handles, c);
  }

  lemma NotHeld(handles: map<Holder, Id>, id: Id)
    ensures Held(handles, id) == {} <==> forall h :: h in handles ==> handles[h] != id
  {
    if Held(handles, id) == {} {
      forall h | h in handles
        ensures handles[h] != id
      {
        assert h !in Held(handles, id);
      }
    }
  }

  lemma CountsFree(nodes: map<Id, Node>, uses: map<Id, nat>, handles: map<Holder, Id>, c: Id)
    requires uses.Keys == nodes.Keys && CountsOk(nodes, uses, handles)
    ensures CountsOk(nodes - {c}, uses - {c}, handles)
  {
    hide Held;
  }

  /** A put on an object whose teardown has begun begins another. */
  predicate PutsGone(s: State, e: Step) {
    e.Put? && !e.holder.Base? && e.holder in s.handles && s.handles[e.holder] in s.gone
  }

  /** The end of a teardown frees the object, whoever has a handle on it. */
  predicate FreesHeld(s: State, e: Step) {
    && e.Free? && e.id in s.nodes && s.nodes[e.id].unlinked && Teardown(e.id) !in s.handles
    && Held(s.handles, e.id) != {}
  }

  predicate Harmful(s: State, e: Step) {
    PutsGone(s, e) || FreesHeld(s, e)
  }

  lemma PutBreaks(s: State, e: Step)
    requires Inv(s) && PutsGone(s, e)
    ensures !Inv(Next(s, e))
  {
    hide LinksOk, CountsOk, Held, PointsOk;
    var id := s.handles[e.holder];
    assert s.torn[id] == 1;
    assert Next(s, e).torn[id] == 2;
  }

  lemma FreeBreaks(s: State, e: Step)
    requires Inv(s) && FreesHeld(s, e)
    ensures exists h :: h in Next(s, e).handles && Next(s, e).handles[h] !in Next(s, e).nodes
    ensures !Inv(Next(s, e))
  {
    hide LinksOk, CountsOk, AgesOk, PointsOk;
    var h :| h in Held(s.handles, e.id);
    assert h in Next(s, e).handles && Next(s, e).handles[h] !in Next(s, e).nodes;
  }

  /** One step keeps the references exact precisely when it is not such a put or such a free. */
  lemma StepKeeps(s: State, e: Step)
    requires Inv(s)
    ensures Inv(Next(s, e)) <==> !Harmful(s, e)
  {
    hide LinksOk, AgesOk, PointsOk, CountsOk, Held, Released, PutDown, Unlinked;
    if PutsGone(s, e) {
      PutBreaks(s, e);
    } else if FreesHeld(s, e) {
      FreeBreaks(s, e);
    } else if Enabled(s, e) {
      match e
      case Init(id, level, h) => InitKeeps(s, id, level, h);
      case Ref(h, id) => RefKeeps(s, h, id);
      case Rele(h) => ReleaseKeeps(s, h);
      case Put(h) => ReleaseKeeps(s, h);
      case Move(h, taker) => MoveKeeps(s, h, taker);
      case Insert(h, id) => InsertKeeps(s, h, id);
      case Unlink(id) => UnlinkKeeps(s, id);
      case Free(id) => FreeKeeps(s, id);
    }
  }

  // ----- Whole runs -----

  /** The state after the first `k` steps. */
  function After(run: seq<Step>, k: nat): (s: State)
    requires k <= |run|
    ensures Shaped(s)
  {
    if k == 0 then Start() else Next(After(run, k - 1), run[k - 1])
  }

  ghost predicate ExactThroughout(run: seq<Step>) {
    forall k :: 0 <= k <= |run| ==> Inv(After(run, k))
  }

  ghost predicate Harmless(run: seq<Step>) {
    forall k :: 0 <= k < |run| ==> !Harmful(After(run, k), run[k])
  }

  lemma {:induction false} KeptUpTo(run: seq<Step>, k: nat)
    requires k <= |run| && Harmless(run)
    ensures Inv(After(run, k))
  {
    hide Inv, Next, Harmful;
    if k == 0 {
      StartInv();
    } else {
      KeptUpTo(run, k - 1);
      assert !Harmful(After(run, k - 1), run[k - 1]);
      StepKeeps(After(run, k - 1), run[k - 1]);
    }
  }

  /** In every interleaving the references are exact throughout precisely when no put ever meets
      a gone object and no object is freed under a handle. */
  lemma RunExact(run: seq<Step>)
    ensures ExactThroughout(run) <==> Harmless(run)
  {
    hide Inv, Next, Harmful;
    if Harmless(run) {
      forall k | 0 <= k <= |run|
        ensures Inv(After(run, k))
      {
        KeptUpTo(run, k);
      }
    }
    if ExactThroughout(run) {
      forall k | 0 <= k < |run|
        ensures !Harmful(After(run, k), run[k])
      {
        assert Inv(After(run, k)) && Inv(After(run, k + 1));
        StepKeeps(After(run, k), run[k]);
      }
    }
  }

  // ----- What exactness means -----

  /** The use count is children plus handles; an object with a child is not gone; a gone object
      was torn down once, a live one never. */
  lemma Exact(s: State, id: Id)
    requires Inv(s) && id in s.nodes
    ensures s.uses[id] == |s.nodes[id].children| + |Held(s.handles, id)|
    ensures s.nodes[id].children != {} ==> id !in s.gone
    ensures s.torn[id] == (if id in s.gone then 1 else 0)
    ensures id !in s.gone ==> s.uses[id] > 0
  {
  }

  /** A teardown begins exactly when the use count of a live object falls to zero. */
  lemma TeardownAtZero(s: State, e: Step, id: Id)
    requires Inv(s) && id in s.nodes && id !in s.gone
    ensures id in Next(s, e).nodes
    ensures id in Next(s, e).gone <==> Next(s, e).uses[id] == 0
  {
    hide CountsOk, PointsOk, LinksOk, Held, Inv;
    LiveInUse(s, id);
    if Harmful(s, e) {
      HarmElsewhere(s, e, id);
    } else {
      StepKeeps(s, e);
      LiveStays(s, e, id);
      GoneAtZero(s, e, id);
      ZeroGone(Next(s, e), id);
    }
  }

  lemma LiveInUse(s: State, id: Id)
    requires Inv(s) && id in s.nodes && id !in s.gone
    ensures Shaped(s) && s.uses[id] > 0 && !s.nodes[id].unlinked
  {
    hide CountsOk, PointsOk, Held;
  }

  lemma HarmElsewhere(s: State, e: Step, id: Id)
    requires Shaped(s) && Harmful(s, e) && id in s.nodes && id !in s.gone && !s.nodes[id].unlinked
    ensures var r := Next(s, e); id in r.nodes && r.uses[id] == s.uses[id] && id !in r.gone
  {
  }

  lemma LiveStays(s: State, e: Step, id: Id)
    requires Shaped(s) && id in s.nodes && !s.nodes[id].unlinked
    ensures id in Next(s, e).nodes
  {
  }

  lemma GoneAtZero(s: State, e: Step, id: Id)
    requires Shaped(s) && id in s.nodes && id !in s.gone && s.uses[id] > 0 && id in Next(s, e).nodes
    ensures id in Next(s, e).gone ==> Next(s, e).uses[id] == 0
  {
  }

  lemma ZeroGone(s: State, id: Id)
    requires Inv(s) && id in s.nodes
    ensures id !in s.gone ==> s.uses[id] > 0
  {
    hide CountsOk, PointsOk, LinksOk, Held;
  }

  /** Every ancestor is there and not gone. */
  ghost predicate Sheltered(s: State, c: Id)
    requires Inv(s) && c in s.nodes
    decreases s.nodes[c].level
  {
    s.nodes[c].parent.Some? ==>
      var p := s.nodes[c].parent.value;
      && p in s.nodes && p !in s.gone && s.nodes[p].level < s.nodes[c].level
      && Sheltered(s, p)
  }

  /** An object on its parent's list, a live one above all, has all its ancestors live. */
  lemma {:induction false} AncestorsLive(s: State, c: Id)
    requires Inv(s) && c in s.nodes && !s.nodes[c].unlinked
    ensures Sheltered(s, c)
    decreases s.nodes[c].level
  {
    hide CountsOk, PointsOk, AgesOk;
    if s.nodes[c].parent.Some? {
      AncestorsLive(s, s.nodes[c].parent.value);
    }
  }

  /** The step takes the handle away from its holder. */
  predicate Yields(e: Step, h: Holder) {
    (e.Rele? || e.Put? || e.Move? || e.Insert?) && e.holder == h
  }

  /** Another handle given up leaves the object in use. */
  lemma OtherReleased(s: State, g: Holder, h: Holder)
    requires Inv(s) && h in s.handles && g in s.handles && g != h && s.handles[h] !in s.gone
    ensures s.handles[h] !in Released(s, s.handles[g]).gone && s.handles[h] !in PutDown(s, s.handles[g]).gone
  {
    hide LinksOk, AgesOk, PointsOk, Held, CountsOk;
    if s.handles[g] == s.handles[h] {
      CountsLoss(s.nodes, s.uses, s.handles, g);
      if s.uses[s.handles[g]] == 1 {
        HeldLast(s.handles, g);
      }
    }
  }

  /** Whatever others do, a live object stays live for as long as one handle on it is kept. */
  lemma HeldStaysLive(s: State, e: Step, h: Holder)
    requires Inv(s) && h in s.handles && s.handles[h] !in s.gone && !Yields(e, h)
    ensures h in Next(s, e).handles && Next(s, e).handles[h] == s.handles[h]
    ensures s.handles[h] in Next(s, e).nodes && s.handles[h] !in Next(s, e).gone
  {
    hide Inv, Next, Released, PutDown;
    InvShaped(s);
    if (e.Rele? || e.Put?) && e.holder in s.handles {
      OtherReleased(s, e.holder, h);
      ReleasedFrame(s, s.handles[e.holder]);
      ReleaseIs(s, e);
    } else {
      OtherStep(s, e, h);
    }
  }

  lemma ReleaseIs(s: State, e: Step)
    requires Shaped(s) && (e.Rele? || e.Put?) && e.holder in s.handles && s.handles[e.holder] in s.nodes
    ensures var id := s.handles[e.holder];
      || Next(s, e) == s
      || Next(s, e) == Drop(Released(s, id), e.holder)
      || Next(s, e) == Drop(PutDown(s, id), e.holder)
  {
    hide Released, PutDown;
  }

  lemma OtherStep(s: State, e: Step, h: Holder)
    requires Inv(s) && h in s.handles && s.handles[h] !in s.gone && !Yields(e, h)
    requires (e.Rele? || e.Put?) ==> e.holder !in s.handles
    ensures h in Next(s, e).handles && Next(s, e).handles[h] == s.handles[h]
    ensures s.handles[h] in Next(s, e).nodes && s.handles[h] !in Next(s, e).gone
  {
    hide LinksOk, AgesOk, CountsOk, Held, Released, PutDown;
    GoneKnown(s.nodes, s.gone);
  }

  lemma ReleasedFrame(s: State, id: Id)
    requires Shaped(s) && id in s.nodes
    ensures Released(s, id).nodes == s.nodes && Released(s, id).handles == s.handles
    ensures PutDown(s, id).nodes == s.nodes && PutDown(s, id).handles == s.handles
  {
  }

  // ----- Handles on live objects -----

  /** The holder came by its handle while the object was live. */
  ghost predicate GotLive(run: seq<Step>, k: nat, h: Holder)
    requires k <= |run|
  {
    k > 0 ==>
      var s, e := After(run, k - 1), run[k - 1];
      if !Enabled(s, e) then GotLive(run, k - 1, h)
      else if e.Init? && e.holder == h then true
      else if e.Ref? && e.holder == h then e.id !in s.gone
      else if e.Move? && e.taker == h then GotLive(run, k - 1, e.holder)
      else if e.Unlink? && h == Teardown(e.id) then true
      else GotLive(run, k - 1, h)
  }

  /** Every put is by a holder that came by its handle while the object was live. */
  ghost predicate Considerate(run: seq<Step>) {
    forall k :: 0 <= k < |run| && run[k].Put? ==> GotLive(run, k, run[k].holder)
  }

  ghost predicate LiveHandles(run: seq<Step>, k: nat)
    requires k <= |run|
  {
    var s := After(run, k);
    forall h :: h in s.handles && GotLive(run, k, h) ==> s.handles[h] !in s.gone
  }

  /** A handle that a step hands out or leaves alone. */
  lemma HandleOrigin(s: State, e: Step, h: Holder)
    requires Inv(s) && Enabled(s, e) && h in Next(s, e).handles
    requires e.Init? || e.Ref? || e.Move? || e.Unlink?
    ensures e.Init? && e.holder == h ==> Next(s, e).handles[h] !in Next(s, e).gone
    ensures e.Ref? && e.holder == h ==> Next(s, e).handles[h] == e.id && Next(s, e).gone == s.gone
    ensures e.Move? && e.taker == h ==>
      e.holder in s.handles && Next(s, e).handles[h] == s.handles[e.holder] && Next(s, e).gone == s.gone
    ensures e.Unlink? && h == Teardown(e.id) ==> Next(s, e).handles[h] !in Next(s, e).gone
  {
    hide CountsOk, AgesOk, Held;
  }

  lemma HandleKept(s: State, e: Step, h: Holder)
    requires Inv(s) && h in Next(s, e).handles
    requires !(e.Init? && e.holder == h) && !(e.Ref? && e.holder == h) && !(e.Move? && e.taker == h) &&
      !(e.Unlink? && h == Teardown(e.id))
    ensures h in s.handles && (Enabled(s, e) ==> !Yields(e, h))
  {
    hide CountsOk, AgesOk, LinksOk, PointsOk, Held, Released, PutDown;
    if Enabled(s, e) && (e.Rele? || e.Put?) { ReleasedFrame(s, s.handles[e.holder]); }
  }

  lemma InvShaped(s: State)
    requires Inv(s)
    ensures Shaped(s) && Resolved(s.nodes, s.handles)
  {
  }

  lemma LiveHandleStep(run: seq<Step>, k: nat, h: Holder)
    requires k < |run| && Inv(After(run, k)) && LiveHandles(run, k)
    requires h in After(run, k + 1).handles && GotLive(run, k + 1, h)
    ensures After(run, k + 1).handles[h] !in After(run, k + 1).gone
  {
    hide Inv, Next, Enabled;
    var s, e := After(run, k), run[k];
    assert After(run, k + 1) == Next(s, e);
    if !Enabled(s, e) {
      DisabledStays(s, e);
    } else if (e.Init? && e.holder == h) || (e.Ref? && e.holder == h) || (e.Move? && e.taker == h) ||
      (e.Unlink? && h == Teardown(e.id)) {
      HandleOrigin(s, e, h);
    } else {
      HandleKept(s, e, h);
      HeldStaysLive(s, e, h);
    }
  }

  lemma DisabledStays(s: State, e: Step)
    requires Shaped(s) && !Enabled(s, e)
    ensures Next(s, e) == s
  {
  }

  // ----- Handles and the end of a teardown -----

  /** No handle is on an object that has left its parent. */
  predicate UnlinkedUnheld(s: State) {
    forall h :: h in s.handles && s.handles[h] in s.nodes ==> !s.nodes[s.handles[h]].unlinked
  }

  /** No handle is left on an object when it leaves its parent, and none is taken afterwards. */
  predicate Clears(s: State, e: Step) {
    && (e.Unlink? ==> Held(s.handles, e.id) == {})
    && (e.Ref? && e.id in s.nodes ==> !s.nodes[e.id].unlinked)
  }

  ghost predicate Cleared(run: seq<Step>) {
    forall k :: 0 <= k < |run| ==> Clears(After(run, k), run[k])
  }

  lemma UnlinkedStep(s: State, e: Step)
    requires Inv(s) && UnlinkedUnheld(s) && Clears(s, e)
    ensures UnlinkedUnheld(Next(s, e)) && !FreesHeld(s, e)
  {
    hide CountsOk, AgesOk, Held, Released, PutDown;
    if e.Unlink? { NotHeld(s.handles, e.id); }
    if e.Free? { NotHeld(s.handles, e.id); }
    if Enabled(s, e) && (e.Rele? || e.Put?) { ReleasedFrame(s, s.handles[e.holder]); }
  }

  lemma {:induction false} ConsiderateUpTo(run: seq<Step>, k: nat)
    requires k <= |run| && Considerate(run) && Cleared(run)
    ensures Inv(After(run, k)) && LiveHandles(run, k) && UnlinkedUnheld(After(run, k))
  {
    hide Inv, Next, GotLive, UnlinkedUnheld, FreesHeld, Clears;
    if k == 0 {
      StartInv();
      StartUnheld();
    } else {
      ConsiderateUpTo(run, k - 1);
      assert Clears(After(run, k - 1), run[k - 1]);
      UnlinkedStep(After(run, k - 1), run[k - 1]);
      StepKeeps(After(run, k - 1), run[k - 1]);
      forall h | h in After(run, k).handles && GotLive(run, k, h)
        ensures After(run, k).handles[h] !in After(run, k).gone
      {
        LiveHandleStep(run, k - 1, h);
      }
    }
  }

  lemma StartUnheld()
    ensures Start().gone == {} && UnlinkedUnheld(Start()) && GoneUnheld(Start())
  {
  }

  /** When every put is by a holder that came by its handle on a live object, and every handle on a
      gone object is given up before the object leaves its parent, the references are exact
      throughout, in every interleaving. */
  lemma ConsiderateExact(run: seq<Step>)
    requires Considerate(run) && Cleared(run)
    ensures ExactThroughout(run)
  {
    hide Inv, Next, GotLive, Clears;
    forall k | 0 <= k <= |run|
      ensures Inv(After(run, k))
    {
      ConsiderateUpTo(run, k);
    }
  }

  // ----- No references on gone objects -----

  predicate GoneUnheld(s: State) {
    forall h :: h in s.handles ==> s.handles[h] !in s.gone
  }

  predicate TakesGone(s: State, e: Step) {
    e.Ref? && e.id in s.gone
  }

  ghost predicate Watchful(run: seq<Step>) {
    forall k :: 0 <= k < |run| ==> !TakesGone(After(run, k), run[k])
  }

  lemma GoneUnheldStep(s: State, e: Step)
    requires Inv(s) && GoneUnheld(s) && !TakesGone(s, e)
    ensures GoneUnheld(Next(s, e)) && !Harmful(s, e)
  {
    hide Inv, Next, Enabled, Held;
    if FreesHeld(s, e) {
      UnlinkedGone(s, e.id);
      NotHeld(s.handles, e.id);
    }
    InvShaped(s);
    forall h | h in Next(s, e).handles
      ensures Next(s, e).handles[h] !in Next(s, e).gone
    {
      if !Enabled(s, e) {
        DisabledStays(s, e);
      } else if (e.Init? && e.holder == h) || (e.Ref? && e.holder == h) || (e.Move? && e.taker == h) ||
        (e.Unlink? && h == Teardown(e.id)) {
        HandleOrigin(s, e, h);
      } else {
        HandleKept(s, e, h);
        HeldStaysLive(s, e, h);
      }
    }
  }

  lemma UnlinkedGone(s: State, id: Id)
    requires Inv(s) && id in s.nodes && s.nodes[id].unlinked
    ensures id in s.gone
  {
    hide CountsOk, AgesOk, PointsOk, Held;
  }

  lemma {:induction false} WatchfulUpTo(run: seq<Step>, k: nat)
    requires k <= |run| && Watchful(run)
    ensures Inv(After(run, k)) && GoneUnheld(After(run, k))
  {
    hide Inv, Next, GoneUnheld, Harmful, TakesGone;
    if k == 0 {
      StartInv();
      StartUnheld();
    } else {
      WatchfulUpTo(run, k - 1);
      assert !TakesGone(After(run, k - 1), run[k - 1]);
      GoneUnheldStep(After(run, k - 1), run[k - 1]);
      StepKeeps(After(run, k - 1), run[k - 1]);
    }
  }

  /** When no reference is ever taken on a gone object, no handle is ever on one, and the
      references are exact throughout, in every interleaving. */
  lemma WatchfulExact(run: seq<Step>)
    requires Watchful(run)
    ensures ExactThroughout(run)
    ensures forall k :: 0 <= k <= |run| ==> GoneUnheld(After(run, k))
  {
    hide Inv, Next, GoneUnheld, TakesGone;
    forall k | 0 <= k <= |run|
      ensures Inv(After(run, k)) && GoneUnheld(After(run, k))
    {
      WatchfulUpTo(run, k);
    }
  }

  // ----- Runs that end in a failure -----

  lemma DrainingRun(run: seq<Step>)
    requires run == [Init(1, 1, Call(0)), Rele(Call(0)), Ref(Call(1), 1), Put(Call(1))]
    ensures PutsGone(After(run, 3), run[3])
  {
    hide Next;
    var s1 := Next(Start(), run[0]);
    FirstSession();
    var s2 := Next(s1, run[1]);
    LastReleased(s1, Call(0));
    GoneTaken(s2, Call(1), 1);
    assert After(run, 0) == Start();
    assert After(run, 1) == s1;
    assert After(run, 2) == s2;
  }

  lemma FirstSession()
    ensures var s := Next(Start(), Init(1, 1, Call(0)));
      && 1 in s.nodes && s.uses[1] == 1 && s.gone == {}
      && Call(0) in s.handles && s.handles[Call(0)] == 1 && Call(1) !in s.handles
  {
  }

  lemma LastReleased(s: State, h: Holder)
    requires Shaped(s) && Ordinary(h) && h in s.handles && s.handles[h] in s.nodes
    requires s.uses[s.handles[h]] == 1 && s.handles[h] !in s.gone
    ensures var r := Next(s, Rele(h));
      r.nodes == s.nodes && r.gone == s.gone + {s.handles[h]} && r.handles == s.handles - {h}
  {
  }

  lemma GoneTaken(s: State, h: Holder, id: Id)
    requires Shaped(s) && id in s.nodes && id in s.gone && Ordinary(h) && h !in s.handles
    ensures var r := Next(s, Ref(h, id)); h in r.handles && r.handles[h] == id && id in r.gone
  {
  }

  /** A condition on puts is needed: a session is created and released, and while it drains a call
      takes a reference on it and puts it down. */
  lemma PutOnGoneExample()
    ensures !ExactThroughout([Init(1, 1, Call(0)), Rele(Call(0)), Ref(Call(1), 1), Put(Call(1))])
  {
    hide Inv, After, PutsGone;
    var run := [Init(1, 1, Call(0)), Rele(Call(0)), Ref(Call(1), 1), Put(Call(1))];
    DrainingRun(run);
    RunExact(run);
  }

  /**
   Two devices and one session: the first device closes and its release marks the session gone;
   a search of the second device, which had found the session before that, takes its reference;
   then the teardown goes on and frees the session.
   */
  function SharedRun(): (run: seq<Step>)
    ensures |run| == 8
  {
    [Init(1, 1, SessionSlot(0)), Ref(Call(0), LIST), Insert(Call(0), 1), Rele(SessionSlot(0)),
     Ref(SessionSlot(1), 1), Unlink(1), Put(Teardown(1)), Free(1)]
  }

  /** The session list and the session, with the given children, uses and handles. */
  function Pair(children: set<Id>, node: Node, gone: set<Id>, list: nat, session: nat, torn: nat,
                handles: map<Holder, Id>): State {
    State(map[LIST := Node(0, None, children, false), 1 := node], gone, map[LIST := list, 1 := session],
          map[LIST := 0, 1 := torn], handles)
  }

  const LONE: Node := Node(1, None, {}, false)
  const LISTED: Node := Node(1, Some(LIST), {}, false)
  const LEFT: Node := Node(1, Some(LIST), {}, true)

  lemma SharedCreated()
    ensures Next(Start(), Init(1, 1, SessionSlot(0))) ==
      Pair({}, LONE, {}, 1, 1, 0, map[Base := LIST, SessionSlot(0) := 1])
  {
  }

  lemma SharedReferred(s: State)
    requires s == Pair({}, LONE, {}, 1, 1, 0, map[Base := LIST, SessionSlot(0) := 1])
    ensures Next(s, Ref(Call(0), LIST)) ==
      Pair({}, LONE, {}, 2, 1, 0, map[Base := LIST, SessionSlot(0) := 1, Call(0) := LIST])
  {
  }

  lemma SharedListed(s: State)
    requires s == Pair({}, LONE, {}, 2, 1, 0, map[Base := LIST, SessionSlot(0) := 1, Call(0) := LIST])
    ensures Next(s, Insert(Call(0), 1)) == Pair({1}, LISTED, {}, 2, 1, 0, map[Base := LIST, SessionSlot(0) := 1])
  {
    assert {} + {1} == {1};
  }

  lemma SharedReleased(s: State)
    requires s == Pair({1}, LISTED, {}, 2, 1, 0, map[Base := LIST, SessionSlot(0) := 1])
    ensures Next(s, Rele(SessionSlot(0))) == Pair({1}, LISTED, {1}, 2, 0, 1, map[Base := LIST])
  {
  }

  lemma SharedTaken(s: State)
    requires s == Pair({1}, LISTED, {1}, 2, 0, 1, map[Base := LIST])
    ensures Next(s, Ref(SessionSlot(1), 1)) == Pair({1}, LISTED, {1}, 2, 1, 1, map[Base := LIST, SessionSlot(1) := 1])
  {
  }

  lemma SharedUnlinked(s: State)
    requires s == Pair({1}, LISTED, {1}, 2, 1, 1, map[Base := LIST, SessionSlot(1) := 1])
    ensures Next(s, Unlink(1)) ==
      Pair({}, LEFT, {1}, 2, 1, 1, map[Base := LIST, SessionSlot(1) := 1, Teardown(1) := LIST])
  {
    hide Next;
    UnlinkLeaves(s, 1, LIST);
    assert {1} - {1} == {};
    assert s.nodes[LIST := Node(0, None, {}, false)][1 := LEFT] == map[LIST := Node(0, None, {}, false), 1 := LEFT];
  }

  lemma UnlinkLeaves(s: State, id: Id, p: Id)
    requires Shaped(s) && id in s.nodes && id in s.gone && !s.nodes[id].unlinked
    requires s.nodes[id].parent == Some(p) && p in s.nodes && p !in s.gone
    ensures Next(s, Unlink(id)) ==
      s.(nodes := s.nodes[p := s.nodes[p].(children := s.nodes[p].children - {id})]
                         [id := s.nodes[id].(unlinked := true)],
         handles := s.handles[Teardown(id) := p])
  {
  }

  lemma SharedReturned(s: State)
    requires s == Pair({}, LEFT, {1}, 2, 1, 1, map[Base := LIST, SessionSlot(1) := 1, Teardown(1) := LIST])
    ensures Next(s, Put(Teardown(1))) == Pair({}, LEFT, {1}, 1, 1, 1, map[Base := LIST, SessionSlot(1) := 1])
  {
    hide Next;
    PutLessens(s, Teardown(1));
    assert s.handles - {Teardown(1)} == map[Base := LIST, SessionSlot(1) := 1];
    assert s.uses[LIST := 1] == map[LIST := 1, 1 := 1];
  }

  lemma PutLessens(s: State, h: Holder)
    requires Shaped(s) && !h.Base? && h in s.handles && s.handles[h] in s.nodes
    requires s.uses[s.handles[h]] > 1 && s.handles[h] !in s.gone
    ensures Next(s, Put(h)) ==
      s.(uses := s.uses[s.handles[h] := s.uses[s.handles[h]] - 1], handles := s.handles - {h})
  {
  }

  lemma SharedStates(run: seq<Step>)
    requires run == SharedRun()
    ensures After(run, 5) == Pair({1}, LISTED, {1}, 2, 1, 1, map[Base := LIST, SessionSlot(1) := 1])
    ensures After(run, 7) == Pair({}, LEFT, {1}, 1, 1, 1, map[Base := LIST, SessionSlot(1) := 1])
    ensures After(run, 8) == Next(After(run, 7), Free(1))
  {
    hide Next, Start, Pair;
    assert After(run, 0) == Start();
    SharedCreated();
    SharedReferred(After(run, 1));
    SharedListed(After(run, 2));
    SharedReleased(After(run, 3));
    SharedTaken(After(run, 4));
    SharedUnlinked(After(run, 5));
    SharedReturned(After(run, 6));
  }

  /** The session is freed, and the slot of the second device is still on it. */
  lemma FreedUnderHandle()
    ensures var s := After(SharedRun(), 8);
      SessionSlot(1) in s.handles && s.handles[SessionSlot(1)] == 1 && 1 !in s.nodes
    ensures Considerate(SharedRun()) && !ExactThroughout(SharedRun())
  {
    hide After, Inv;
    var run := SharedRun();
    SharedStates(run);
    var s := After(run, 7);
    assert SessionSlot(1) in Held(s.handles, 1);
    assert FreesHeld(s, run[7]);
    RunExact(run);
    SharedConsiderate(run);
  }

  lemma SharedConsiderate(run: seq<Step>)
    requires run == SharedRun()
    ensures Considerate(run)
  {
    hide After, Enabled;
    SharedStates(run);
    UnlinkEnabled(After(run, 5), 1);
    assert GotLive(run, 6, Teardown(1));
  }

  lemma UnlinkEnabled(s: State, id: Id)
    requires Shaped(s) && id in s.nodes && id in s.gone && !s.nodes[id].unlinked
    ensures Enabled(s, Unlink(id))
  {
  }
}
