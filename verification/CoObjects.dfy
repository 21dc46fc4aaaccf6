/**
 The connection objects as the code keeps them, and the device calls that hand references
 around: tree connect, tree disconnect, close, and the hand-over of a share to a mount.
 */
module CoObjects {
  import opened Options
  import opened CoRefs
  import opened CoCascade

  const SESSION_LEVEL: nat := 1
  const SHARE_LEVEL: nat := 2

  /** `Refused` stands for whatever error the server's answer to the tree connect gives. */
  datatype Error = Success | EISCONN | ENOTCONN | ENOENT | EBUSY | Refused

  /** Releasing outside the object lock: a teardown under way is left to finish. */
  function ReleAll(s: State, h: Holder): (r: State)
    requires Shaped(s) && h in s.handles && s.handles[h] in s.nodes && Ordinary(h)
    ensures Shaped(r)
  {
    hide Next;
    ReleNodes(s, h);
    var s1 := Next(s, Rele(h));
    if s.handles[h] !in s.gone && s.handles[h] in s1.gone then Collapse(s1, s.handles[h]) else s1
  }

  lemma ReleNodes(s: State, h: Holder)
    requires Shaped(s) && h in s.handles && s.handles[h] in s.nodes && Ordinary(h)
    ensures Next(s, Rele(h)).nodes == s.nodes
  {
  }

  lemma ReleIsPut(s: State, h: Holder)
    requires Inv(s) && h in s.handles && Ordinary(h) && s.handles[h] !in s.gone
    ensures ReleAll(s, h) == PutAll(s, h)
  {
    hide LinksOk, CountsOk, PointsOk, AgesOk, Held, Collapse;
  }

  /** Releasing, whatever is draining: nothing else drains afterwards, and what is left is as it was. */
  lemma ReleaseSettles(s: State, h: Holder)
    requires Inv(s) && h in s.handles && Ordinary(h)
    ensures Shaped(s) && s.handles[h] in s.nodes
    ensures var r := ReleAll(s, h);
      Inv(r) && r.gone == s.gone && r.handles == s.handles - {h} && Pruned(s, r)
  {
    hide Inv, Held, PutAll, ReleAll, Pruned, DeepKept;
    InvShaped(s);
    if s.handles[h] in s.gone {
      StepKeeps(s, Rele(h));
      DrainingReleased(s, h);
      PrunedSelf(s);
      NodesMatter(s, s, ReleAll(s, h), 0);
    } else {
      ReleIsPut(s, h);
      PutAllExact(s, h);
    }
  }

  lemma DrainingReleased(s: State, h: Holder)
    requires Shaped(s) && h in s.handles && Ordinary(h) && s.handles[h] in s.nodes && s.handles[h] in s.gone
    ensures var r := Next(s, Rele(h));
      ReleAll(s, h) == r && r.gone == s.gone && r.handles == s.handles - {h} && r.nodes == s.nodes
  {
  }

  /** A share on a session, and the slot that holds it. */
  function Connected(s: State, dev: nat, session: Id, share: Id): State
    requires Shaped(s) && session in s.nodes
  {
    State(s.nodes[session := s.nodes[session].(children := s.nodes[session].children + {share})]
                 [share := Node(SHARE_LEVEL, Some(session), {}, false)],
          s.gone,
          s.uses[session := s.uses[session] + 1][share := 1],
          s.torn[share := 0],
          s.handles[ShareSlot(dev) := share])
  }

  /** While the tree connect is under way, the call has a reference of its own. */
  function Connecting(s: State, dev: nat, session: Id, share: Id, call: nat): State
    requires Shaped(s) && session in s.nodes
  {
    var c := Connected(s, dev, session, share);
    c.(uses := s.uses[session := s.uses[session] + 2][share := 1],
       handles := s.handles[Call(call) := session][ShareSlot(dev) := share])
  }

  predicate Ready(s: State, dev: nat, session: Id, share: Id, call: nat) {
    && Inv(s) && session in s.nodes && session !in s.gone && s.nodes[session].level == SESSION_LEVEL
    && SessionSlot(dev) in s.handles && s.handles[SessionSlot(dev)] == session
    && share !in s.nodes && share !in s.gone && ShareSlot(dev) !in s.handles
    && Call(call) !in s.handles && Call(call + 1) !in s.handles
  }

  lemma RefIs(s: State, h: Holder, id: Id)
    requires Shaped(s) && id in s.nodes && Ordinary(h) && h !in s.handles
    ensures Next(s, Ref(h, id)) == s.(uses := s.uses[id := s.uses[id] + 1], handles := s.handles[h := id])
  {
  }

  lemma InitIs(s: State, id: Id, level: nat, h: Holder)
    requires Shaped(s) && id !in s.nodes && level > 0 && Ordinary(h) && h !in s.handles
    ensures Next(s, Init(id, level, h))
         == State(s.nodes[id := Node(level, None, {}, false)], s.gone, s.uses[id := 1], s.torn[id := 0],
           s.handles[h := id])
  {
  }

  lemma InsertIs(s: State, h: Holder, id: Id)
    requires Shaped(s) && Enabled(s, Insert(h, id))
    ensures var p := s.handles[h];
      Next(s, Insert(h, id)) == s.(
        nodes := s.nodes[p := s.nodes[p].(children := s.nodes[p].children + {id})]
                        [id := s.nodes[id].(parent := Some(p))],
        handles := s.handles - {h})
  {
  }

  lemma ConnectingReached(s: State, dev: nat, session: Id, share: Id, call: nat)
    requires Ready(s, dev, session, share, call) && Shaped(s)
    ensures var s1 := Next(s, Ref(Call(call), session));
      var s2 := Next(s1, Init(share, SHARE_LEVEL, ShareSlot(dev)));
      var s3 := Next(s2, Ref(Call(call + 1), session));
      Next(s3, Insert(Call(call + 1), share)) == Connecting(s, dev, session, share, call)
  {
    hide Inv, Held, Next;
    RefIs(s, Call(call), session);
    var s1 := Next(s, Ref(Call(call), session));
    InitIs(s1, share, SHARE_LEVEL, ShareSlot(dev));
    var s2 := Next(s1, Init(share, SHARE_LEVEL, ShareSlot(dev)));
    RefIs(s2, Call(call + 1), session);
    var s3 := Next(s2, Ref(Call(call + 1), session));
    InsertIs(s3, Call(call + 1), share);
    var s4 := Next(s3, Insert(Call(call + 1), share));
    var c := Connecting(s, dev, session, share, call);
    assert s4.handles == c.handles;
    assert s4.uses == c.uses;
    assert s4.nodes == c.nodes;
  }

  lemma SessionInUse(s: State, dev: nat, session: Id, share: Id, call: nat)
    requires Ready(s, dev, session, share, call)
    ensures s.uses[session] >= 1
  {
  }

  lemma PutIs(s: State, h: Holder)
    requires Shaped(s) && !h.Base? && h in s.handles && s.handles[h] in s.nodes
    requires s.uses[s.handles[h]] > 1 && s.handles[h] !in s.gone
    ensures PutAll(s, h) == s.(uses := s.uses[s.handles[h] := s.uses[s.handles[h]] - 1], handles := s.handles - {h})
    ensures Ordinary(h) ==> ReleAll(s, h) == PutAll(s, h)
  {
    hide Collapse;
  }

  /** A tree connect that succeeds leaves one share more. */
  lemma ConnectSucceeds(s: State, dev: nat, session: Id, share: Id, call: nat)
    requires Ready(s, dev, session, share, call) && Shaped(s)
    requires Shaped(Connecting(s, dev, session, share, call))
    ensures ReleAll(Connecting(s, dev, session, share, call), Call(call)) == Connected(s, dev, session, share)
  {
    hide Inv, Held, Collapse, PutAll, ReleAll, Shaped;
    SessionInUse(s, dev, session, share, call);
    var c := Connecting(s, dev, session, share, call);
    PutIs(c, Call(call));
    var r := ReleAll(c, Call(call));
    assert r.uses == Connected(s, dev, session, share).uses;
    assert r.handles == Connected(s, dev, session, share).handles;
  }

  /** The last reference on a share with no children. */
  lemma LastIs(s: State, h: Holder)
    requires Shaped(s) && Ordinary(h) && h in s.handles && s.handles[h] in s.nodes
    requires s.uses[s.handles[h]] == 1 && s.handles[h] !in s.gone
    ensures var id := s.handles[h];
      var s1 := s.(uses := s.uses[id := 0], gone := s.gone + {id}, torn := s.torn[id := s.torn[id] + 1],
        handles := s.handles - {h});
      Shaped(s1) && Next(s, Rele(h)) == s1 && ReleAll(s, h) == Collapse(s1, id)
  {
    hide Collapse;
  }

  /** A tree connect that fails takes the new share down again; the call keeps its reference. */
  lemma ConnectUndone(s: State, dev: nat, session: Id, share: Id, call: nat)
    requires Ready(s, dev, session, share, call) && Shaped(s)
    requires Inv(Connecting(s, dev, session, share, call)) && Shaped(Connecting(s, dev, session, share, call))
    ensures ReleAll(Connecting(s, dev, session, share, call), ShareSlot(dev))
         == s.(uses := s.uses[session := s.uses[session] + 1], handles := s.handles[Call(call) := session])
  {
    hide Inv, Held, Collapse, PutAll, ReleAll, Shaped, Next;
    SessionInUse(s, dev, session, share, call);
    var c := Connecting(s, dev, session, share, call);
    LastIs(c, ShareSlot(dev));
    var s1 := Next(c, Rele(ShareSlot(dev)));
    ReleaseDrains(c, ShareSlot(dev));
    CollapseUnfolds(s1, share);
    var s2 := s1.(
      nodes := s1.nodes[session := s1.nodes[session].(children := s1.nodes[session].children - {share})]
                       [share := s1.nodes[share].(unlinked := true)],
      handles := s1.handles[Teardown(share) := session]);
    PutIs(s2, Teardown(share));
    var r := Freed(PutAll(s2, Teardown(share)), share);
    UndoneEqual(s, dev, session, share, call, r);
  }

  lemma UndoneEqual(s: State, dev: nat, session: Id, share: Id, call: nat, r: State)
    requires Ready(s, dev, session, share, call) && Shaped(s)
    requires r.gone == s.gone + {share} - {share}
    requires r.torn == s.torn[share := 0][share := 1] - {share}
    requires r.uses ==
      s.uses[session := s.uses[session] + 2][share := 1][share := 0][session := s.uses[session] + 1] - {share}
    requires var taken := s.handles[Call(call) := session][ShareSlot(dev) := share];
      r.handles == (taken - {ShareSlot(dev)})[Teardown(share) := session] - {Teardown(share)}
    requires var more := s.nodes[session].(children := s.nodes[session].children + {share});
      var node := Node(SHARE_LEVEL, Some(session), {}, false);
      r.nodes == s.nodes[session := more][share := node]
                        [session := more.(children := more.children - {share})]
                        [share := node.(unlinked := true)] - {share}
    ensures r == s.(uses := s.uses[session := s.uses[session] + 1], handles := s.handles[Call(call) := session])
  {
    hide Inv;
    NewShare(s, share, session);
    var children := s.nodes[session].children;
    assert children + {share} - {share} == children;
    assert r.nodes == s.nodes;
    assert r.torn == s.torn;
    assert r.uses == s.uses[session := s.uses[session] + 1];
  }

  /** Nothing knows of a share that is not there yet. */
  lemma NewShare(s: State, share: Id, session: Id)
    requires Inv(s) && share !in s.nodes && session in s.nodes
    ensures share !in s.nodes[session].children && Teardown(share) !in s.handles
  {
    hide CountsOk, AgesOk, Held;
  }

  lemma ReleaseDrains(s: State, h: Holder)
    requires Inv(s) && Shaped(s) && Ordinary(h) && h in s.handles && s.uses[s.handles[h]] == 1 &&
      s.handles[h] !in s.gone
    ensures Inv(Next(s, Rele(h))) && Drained(Next(s, Rele(h)), s.handles[h])
  {
    hide LinksOk, CountsOk, PointsOk, AgesOk, Held;
    StepKeeps(s, Rele(h));
    GoneKnown(s.nodes, s.gone);
    NoneHeld(Next(s, Rele(h)), s.handles[h]);
  }

  lemma InvRoot(s: State)
    requires Inv(s)
    ensures LIST in s.nodes
  {
  }

  lemma CallReturns(s: State, dev: nat, session: Id, share: Id, call: nat)
    requires Ready(s, dev, session, share, call) && Shaped(s)
    requires var s1 := s.(uses := s.uses[session := s.uses[session] + 1], handles := s.handles[Call(call) := session]);
      Shaped(s1)
    ensures var s1 := s.(uses := s.uses[session := s.uses[session] + 1], handles := s.handles[Call(call) := session]);
      ReleAll(s1, Call(call)) == s
  {
    hide Inv, Held, ReleAll, PutAll;
    var s1 := s.(uses := s.uses[session := s.uses[session] + 1], handles := s.handles[Call(call) := session]);
    SessionInUse(s, dev, session, share, call);
    PutIs(s1, Call(call));
    assert s1.uses[session := s.uses[session]] == s.uses;
    assert s1.handles - {Call(call)} == s.handles;
  }

  lemma ConnectingHolds(s: State, dev: nat, session: Id, share: Id, call: nat)
    requires Shaped(s) && session in s.nodes
    ensures var c := Connecting(s, dev, session, share, call);
      Call(call) in c.handles && ShareSlot(dev) in c.handles
  {
  }

  lemma ConnectedKeys(s: State, dev: nat, session: Id, share: Id)
    requires Shaped(s) && session in s.nodes
    ensures Connected(s, dev, session, share).nodes.Keys == s.nodes.Keys + {share}
  {
  }

  lemma GoneInTable(s: State)
    requires Inv(s)
    ensures s.gone <= s.nodes.Keys
  {
  }

  lemma PrunedSelf(s: State)
    requires Inv(s)
    ensures Pruned(s, s)
  {
    KnownChildren(s);
  }

  lemma PrunedTwice(s: State, s1: State, r: State)
    requires Pruned(s, s1) && Pruned(s1, r)
    ensures Pruned(s, r)
  {
  }

  lemma PrunedKeys(s: State, r: State)
    requires Pruned(s, r)
    ensures r.nodes.Keys <= s.nodes.Keys
  {
  }

  lemma PutAllKeys(s: State, h: Holder)
    requires Inv(s) && Shaped(s) && !h.Base? && h in s.handles && s.handles[h] in s.nodes && s.handles[h] !in s.gone
    ensures Inv(PutAll(s, h)) && PutAll(s, h).nodes.Keys <= s.nodes.Keys
  {
    hide Inv, Held, PutAll, DeepKept;
    PutAllExact(s, h);
  }

  lemma LevelledShaped(s: State)
    requires Levelled(s)
    ensures Shaped(s)
  {
  }

  lemma PutUnfolds(s: State, h: Holder)
    requires Shaped(s) && h in s.handles && s.handles[h] in s.nodes
    ensures var s1 := Next(s, Put(h));
      && s.handles[h] in s1.nodes && s1.nodes == s.nodes
      && PutAll(s, h) == if s.handles[h] in s1.gone then Collapse(s1, s.handles[h]) else s1
  {
    hide Collapse;
    PutNodes(s, h);
  }

  lemma ReleUnfolds(s: State, h: Holder)
    requires Shaped(s) && h in s.handles && s.handles[h] in s.nodes && Ordinary(h)
    ensures var s1 := Next(s, Rele(h));
      && s.handles[h] in s1.nodes
      && ReleAll(s, h) == if s.handles[h] !in s.gone && s.handles[h] in s1.gone then Collapse(s1, s.handles[h]) else s1
  {
    hide Collapse;
    ReleNodes(s, h);
  }

  class Connections {
    var nodes: map<Id, Node>
    var gone: set<Id>
    var uses: map<Id, nat>
    var handles: map<Holder, Id>
    var unusedId: Id
    ghost var torn: map<Id, nat>

    ghost function View(): State
      reads this
    {
      State(nodes, gone, uses, torn, handles)
    }

    ghost predicate Valid()
      reads this
    {
      Inv(View()) && forall id :: id in nodes ==> id < unusedId
    }

    constructor ()
      ensures Valid() && View() == Start()
    {
      nodes := map[LIST := Node(0, None, {}, false)];
      gone := {};
      uses := map[LIST := 1];
      torn := map[LIST := 0];
      handles := map[Base := LIST];
      unusedId := 1;
      new;
      StartInv();
    }

    method CoInit(level: nat, h: Holder) returns (id: Id)
      requires Valid() && level > 0 && Ordinary(h) && h !in handles
      modifies this
      ensures id == old(unusedId) && unusedId == id + 1 && View() == Next(old(View()), Init(id, level, h)) && Valid()
    {
      hide Inv, Held;
      InvShaped(View());
      id := unusedId;
      StepKeeps(View(), Init(id, level, h));
      unusedId := unusedId + 1;
      nodes := nodes[id := Node(level, None, {}, false)];
      uses := uses[id := 1];
      torn := torn[id := 0];
      handles := handles[h := id];
    }

    method CoRef(h: Holder, id: Id)
      requires Valid() && id in nodes && Ordinary(h) && h !in handles
      modifies this`uses, this`handles
      ensures View() == Next(old(View()), Ref(h, id)) && Valid()
    {
      hide Inv, Held;
      InvShaped(View());
      StepKeeps(View(), Ref(h, id));
      uses := uses[id := uses[id] + 1];
      handles := handles[h := id];
    }

    /** A reference on the parent, then the child on its list. */
    method AddChild(parent: Id, child: Id, h: Holder)
      requires Valid() && parent in nodes && child in nodes && Ordinary(h) && h !in handles
      requires parent !in gone && child !in gone && nodes[child].parent.None? &&
        nodes[child].level == nodes[parent].level + 1
      modifies this`uses, this`handles, this`nodes
      ensures View() == Next(Next(old(View()), Ref(h, parent)), Insert(h, child)) && Valid()
    {
      hide Inv, Held;
      CoRef(h, parent);
      InvShaped(View());
      StepKeeps(View(), Insert(h, child));
      nodes := nodes[parent := nodes[parent].(children := nodes[parent].children + {child})]
                    [child := nodes[child].(parent := Some(parent))];
      handles := handles - {h};
    }

    method CoPut(h: Holder)
      requires Levelled(View()) && !h.Base? && h in handles && handles[h] in nodes
      modifies this`nodes, this`gone, this`uses, this`handles, this`torn
      ensures View() == PutAll(old(View()), h)
      ensures old(Valid()) && old(handles)[h] !in old(gone) ==> Valid()
      decreases nodes[handles[h]].level, 1
    {
      hide Inv, Held, PutAll, Pruned, DeepKept, Levelled, Next, Collapse, Shaped;
      ghost var s := View();
      LevelledShaped(s);
      if Inv(s) && handles[h] !in gone { PutAllKeys(s, h); }
      PutLevelled(s, h);
      PutUnfolds(s, h);
      var id := handles[h];
      Uncount(h);
      if id in gone {
        CoGone(id);
      }
    }

    /** One reference less; the last one, or any on a gone object, begins a teardown. */
    method Uncount(h: Holder)
      requires Shaped(View()) && !h.Base? && h in handles && handles[h] in nodes
      modifies this`gone, this`uses, this`handles, this`torn
      ensures View() == Next(old(View()), Put(h))
    {
      var id := handles[h];
      if uses[id] > 1 {
        uses := uses[id := uses[id] - 1];
      } else if uses[id] == 1 {
        uses := uses[id := 0];
        gone := gone + {id};
      }
      if id in gone {
        torn := torn[id := torn[id] + 1];
      }
      handles := handles - {h};
    }

    method CoGone(id: Id)
      requires Levelled(View()) && id in nodes
      modifies this`nodes, this`gone, this`uses, this`handles, this`torn
      ensures View() == Collapse(old(View()), id)
      decreases nodes[id].level, 0
    {
      hide Inv, Held, PutAll, Levelled, Next, Enabled;
      ghost var s := View();
      LevelledShaped(s);
      UnlinkLevelled(s, id);
      LeaveParent(id);
      LevelledShaped(View());
      if Teardown(id) in handles {
        CoPut(Teardown(id));
      }
      Dispose(id);
    }

    /** The object leaves its parent's list if the parent can be locked. */
    method LeaveParent(id: Id)
      requires Shaped(View()) && id in nodes
      modifies this`nodes, this`handles
      ensures View() == Next(old(View()), Unlink(id))
    {
      if id !in gone || nodes[id].unlinked {
        return;
      }
      var n := nodes[id].(unlinked := true);
      if n.parent.Some? && n.parent.value in nodes && n.parent.value !in gone {
        var p := n.parent.value;
        nodes := nodes[p := nodes[p].(children := nodes[p].children - {id})][id := n];
        handles := handles[Teardown(id) := p];
      } else {
        nodes := nodes[id := n];
      }
    }

    /** The object is freed, whoever has a handle on it. */
    method Dispose(id: Id)
      requires Shaped(View())
      modifies this`nodes, this`gone, this`uses, this`torn
      ensures View() == Next(old(View()), Free(id))
    {
      if id in nodes && nodes[id].unlinked && Teardown(id) !in handles {
        nodes := nodes - {id};
        gone := gone - {id};
        uses := uses - {id};
        torn := torn - {id};
      }
    }

    method CoRele(h: Holder)
      requires Valid() && Ordinary(h) && h in handles
      modifies this`nodes, this`gone, this`uses, this`handles, this`torn
      ensures Shaped(old(View())) && old(handles)[h] in old(nodes) && View() == ReleAll(old(View()), h) && Valid()
    {
      hide Inv, Held, Collapse, ReleAll, Pruned, Levelled, Next, Shaped;
      ghost var s := View();
      ReleaseSettles(s, h);
      PrunedKeys(s, ReleAll(s, h));
      ReleUnfolds(s, h);
      StepKeeps(s, Rele(h));
      InvLevelled(Next(s, Rele(h)));
      var id := handles[h];
      var last := Lower(h);
      if last {
        CoGone(id);
      }
    }

    /** One reference less; tells whether a teardown begins with it. */
    method Lower(h: Holder) returns (last: bool)
      requires Shaped(View()) && Ordinary(h) && h in handles && handles[h] in nodes
      modifies this`gone, this`uses, this`handles, this`torn
      ensures View() == Next(old(View()), Rele(h))
      ensures last == (old(handles)[h] !in old(gone) && old(handles)[h] in gone)
    {
      var id := handles[h];
      handles := handles - {h};
      last := false;
      if uses[id] > 1 {
        uses := uses[id := uses[id] - 1];
        return;
      }
      if uses[id] == 0 {
        return;
      }
      uses := uses[id := uses[id] - 1];
      if id in gone {
        return;
      }
      gone := gone + {id};
      torn := torn[id := torn[id] + 1];
      last := true;
    }

    /** A reference for the call, then a new share on the session, held by the slot. */
    method MakeShare(dev: nat, session: Id, call: nat)
      requires Valid() && Shaped(View()) && Ready(View(), dev, session, unusedId, call)
      modifies this
      ensures View() == Connecting(old(View()), dev, session, old(unusedId), call)
      ensures Valid() && unusedId == old(unusedId) + 1
    {
      hide Inv, Held, Next, Shaped, Connecting;
      ghost var s := View();
      ConnectingReached(s, dev, session, unusedId, call);
      RefIs(s, Call(call), session);
      CoRef(Call(call), session);
      InvShaped(View());
      InitIs(View(), unusedId, SHARE_LEVEL, ShareSlot(dev));
      var share := CoInit(SHARE_LEVEL, ShareSlot(dev));
      AddChild(session, share, Call(call + 1));
    }

    /** The share is made and connected; a refusal takes it down again. */
    method ConnectShare(dev: nat, session: Id, call: nat, accepted: bool)
      requires Valid() && Shaped(View()) && Ready(View(), dev, session, unusedId, call)
      modifies this
      ensures View() == if accepted then Connected(old(View()), dev, session, old(unusedId)) else old(View())
      ensures Valid()
    {
      hide Inv, Held, Shaped, ReleAll, Connecting, Connected;
      ghost var s, share := View(), unusedId;
      MakeShare(dev, session, call);
      InvShaped(View());
      ConnectingHolds(s, dev, session, share, call);
      if accepted {
        ConnectSucceeds(s, dev, session, share, call);
      } else {
        ConnectUndone(s, dev, session, share, call);
        CoRele(ShareSlot(dev));
        InvShaped(View());
        CallReturns(s, dev, session, share, call);
      }
      CoRele(Call(call));
      ConnectedKeys(s, dev, session, share);
    }

    /** The connect of a share on the session, if the session is still on the list. */
    method SmTcon(dev: nat, session: Id, call: nat, accepted: bool) returns (error: Error)
      requires Valid() && Call(call) !in handles && Call(call + 1) !in handles && ShareSlot(dev) !in handles
      requires SessionSlot(dev) in handles && handles[SessionSlot(dev)] == session
      requires session in nodes && nodes[session].level == SESSION_LEVEL
      modifies this
      ensures error == (
        if LIST !in old(nodes) || session !in old(nodes)[LIST].children then ENOENT
        else if session in old(gone) then EBUSY
        else if accepted then Success else Refused)
      ensures error != Success ==> View() == old(View())
      ensures error == Success ==>
        Shaped(old(View())) && View() == Connected(old(View()), dev, session, old(unusedId))
      ensures Valid()
    {
      hide Inv, Held, Shaped, Connected;
      InvShaped(View());
      InvRoot(View());
      if session !in nodes[LIST].children {
        return ENOENT;
      }
      if session in gone {
        return EBUSY;
      }
      GoneInTable(View());
      ConnectShare(dev, session, call, accepted);
      error := if accepted then Success else Refused;
    }

    /**
     A tree connect from a device: on success the slot has one more share on its session;
     otherwise everything is as it was.
     */
    method Tcon(dev: nat, call: nat, accepted: bool) returns (error: Error)
      requires Valid() && Call(call) !in handles && Call(call + 1) !in handles
      requires SessionSlot(dev) in handles ==>
        handles[SessionSlot(dev)] in nodes && nodes[handles[SessionSlot(dev)]].level == SESSION_LEVEL
      modifies this
      ensures error == (
        if ShareSlot(dev) in old(handles) then EISCONN
        else if SessionSlot(dev) !in old(handles) then ENOTCONN
        else if LIST !in old(nodes) || old(handles)[SessionSlot(dev)] !in old(nodes)[LIST].children then ENOENT
        else if old(handles)[SessionSlot(dev)] in old(gone) then EBUSY
        else if accepted then Success else Refused)
      ensures error != Success ==> View() == old(View())
      ensures error == Success ==>
        && Shaped(old(View())) && old(handles)[SessionSlot(dev)] in old(nodes)
        && View() == Connected(old(View()), dev, old(handles)[SessionSlot(dev)], old(unusedId))
      ensures Valid()
    {
      hide Inv, Held, Shaped, Connected;
      if ShareSlot(dev) in handles {
        error := EISCONN;
      } else if SessionSlot(dev) !in handles {
        error := ENOTCONN;
      } else {
        error := SmTcon(dev, handles[SessionSlot(dev)], call, accepted);
      }
    }

    /** A tree disconnect from a device gives up the share of the slot. */
    method Tdis(dev: nat) returns (error: Error)
      requires Valid()
      modifies this
      ensures error == if ShareSlot(dev) in old(handles) then Success else ENOTCONN
      ensures error != Success ==> View() == old(View())
      ensures error == Success ==> Shaped(old(View())) && View() == ReleAll(old(View()), ShareSlot(dev))
      ensures Valid()
    {
      hide Inv, Held, Shaped, ReleAll;
      InvShaped(View());
      if ShareSlot(dev) !in handles {
        return ENOTCONN;
      }
      CoRele(ShareSlot(dev));
      error := Success;
    }

    /** Closing a device gives up the share first and then the session. */
    method Close(dev: nat)
      requires Valid()
      modifies this
      ensures Valid() && gone == old(gone) && Pruned(old(View()), View())
      ensures handles == old(handles) - {ShareSlot(dev), SessionSlot(dev)}
    {
      hide Inv, Held, ReleAll, Pruned;
      PrunedSelf(View());
      if ShareSlot(dev) in handles {
        ReleaseSettles(View(), ShareSlot(dev));
        CoRele(ShareSlot(dev));
      }
      ghost var s1 := View();
      PrunedSelf(s1);
      if SessionSlot(dev) in handles {
        ReleaseSettles(View(), SessionSlot(dev));
        CoRele(SessionSlot(dev));
      }
      PrunedTwice(old(View()), s1, View());
    }

    /** The share of the slot goes to the mount with its reference: no count changes. */
    method Dev2Share(dev: nat, mount: nat) returns (error: Error)
      requires Valid() && Mount(mount) !in handles
      modifies this`handles
      ensures error == if ShareSlot(dev) in old(handles) then Success else ENOTCONN
      ensures error != Success ==> View() == old(View())
      ensures error == Success ==>
        handles == (old(handles) - {ShareSlot(dev)})[Mount(mount) := old(handles)[ShareSlot(dev)]]
      ensures Valid()
    {
      hide Inv, Held;
      if ShareSlot(dev) !in handles {
        return ENOTCONN;
      }
      InvShaped(View());
      StepKeeps(View(), Move(ShareSlot(dev), Mount(mount)));
      handles := (handles - {ShareSlot(dev)})[Mount(mount) := handles[ShareSlot(dev)]];
      error := Success;
    }
  }
}
