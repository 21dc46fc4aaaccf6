/**
 Releasing a reference with everything that follows from it: the teardown of the object, the
 release of its parent, and so on up the hierarchy.
 */
module CoCascade {
  import opened Options
  import opened CoRefs

  predicate Drained(s: State, id: Id) {
    id in s.nodes && id in s.gone && !s.nodes[id].unlinked && Held(s.handles, id) == {}
  }

  /** Some objects are gone for good; what is left is linked as before. */
  predicate Pruned(s: State, r: State) {
    && r.nodes.Keys <= s.nodes.Keys
    && (forall x :: x in r.nodes ==>
      && r.nodes[x].level == s.nodes[x].level && r.nodes[x].parent == s.nodes[x].parent
      && r.nodes[x].children == s.nodes[x].children * r.nodes.Keys)
  }

  /** Nothing below the level is touched. */
  predicate DeepKept(s: State, r: State, level: nat) {
    forall x :: x in s.nodes && s.nodes[x].level > level ==> x in r.nodes && r.nodes[x] == s.nodes[x]
  }

  lemma PutStep(s: State, h: Holder)
    requires Inv(s) && !h.Base? && h in s.handles && s.handles[h] !in s.gone
    ensures var r := Next(s, Put(h));
      var p := s.handles[h];
      && Inv(r) && r.nodes == s.nodes && r.handles == s.handles - {h}
      && (if s.uses[p] == 1 then r.gone == s.gone + {p} && Drained(r, p) else r.gone == s.gone)
  {
    hide LinksOk, CountsOk, PointsOk, AgesOk, Held;
    StepKeeps(s, Put(h));
    GoneKnown(s.nodes, s.gone);
    if s.uses[s.handles[h]] == 1 {
      NoneHeld(Next(s, Put(h)), s.handles[h]);
    }
  }

  lemma NoneHeld(s: State, id: Id)
    requires Inv(s) && id in s.nodes && s.uses[id] == 0
    ensures Held(s.handles, id) == {}
  {
  }

  lemma UnlinkStep(s: State, id: Id)
    requires Inv(s) && Drained(s, id)
    ensures var r := Next(s, Unlink(id));
      && Inv(r) && r.gone == s.gone && r.uses == s.uses && r.torn == s.torn && Teardown(id) !in s.handles
      && id in r.nodes && r.nodes[id] == s.nodes[id].(unlinked := true)
      && (s.nodes[id].parent.None? ==> r.handles == s.handles && r.nodes == s.nodes[id := r.nodes[id]])
      && (s.nodes[id].parent.Some? ==>
        var p := s.nodes[id].parent.value;
        && p in s.nodes && p !in s.gone && p != id && s.nodes[id].level == s.nodes[p].level + 1
        && r.handles == s.handles[Teardown(id) := p]
        && r.nodes == s.nodes[p := s.nodes[p].(children := s.nodes[p].children - {id})][id := r.nodes[id]])
  {
    hide CountsOk, AgesOk;
    StepKeeps(s, Unlink(id));
  }

  function Freed(s: State, id: Id): State {
    State(s.nodes - {id}, s.gone - {id}, s.uses - {id}, s.torn - {id}, s.handles)
  }

  lemma FreeStep(s: State, id: Id)
    requires Inv(s) && id in s.nodes && s.nodes[id].unlinked && Teardown(id) !in s.handles && Held(s.handles, id) == {}
    ensures var r := Next(s, Free(id));
      Inv(r) && r == Freed(s, id)
  {
    hide CountsOk, AgesOk, LinksOk, PointsOk;
    assert forall h :: h in s.handles && s.handles[h] == id ==> h in Held(s.handles, id);
    StepKeeps(s, Free(id));
  }

  lemma PutNodes(s: State, h: Holder)
    requires Shaped(s) && h in s.handles
    ensures Next(s, Put(h)).nodes == s.nodes
  {
  }

  /** The teardown of a drained object, up to and including its own freeing. The parent, one
      level up, is put down on the way. */
  function Collapse(s: State, id: Id): (r: State)
    requires Shaped(s) && id in s.nodes
    ensures Shaped(r)
    decreases s.nodes[id].level, 0
  {
    hide Next;
    var s1 := Next(s, Unlink(id));
    var s2 :=
      if Teardown(id) in s1.handles && s1.handles[Teardown(id)] in s1.nodes
         && s1.nodes[s1.handles[Teardown(id)]].level < s.nodes[id].level
      then PutAll(s1, Teardown(id)) else s1;
    Next(s2, Free(id))
  }

  /** Giving up a reference, and the teardown if it was the last one. */
  function PutAll(s: State, h: Holder): (r: State)
    requires Shaped(s) && h in s.handles && s.handles[h] in s.nodes
    ensures Shaped(r)
    decreases s.nodes[s.handles[h]].level, 1
  {
    hide Next;
    PutNodes(s, h);
    var s1 := Next(s, Put(h));
    if s.handles[h] in s1.gone then Collapse(s1, s.handles[h]) else s1
  }

  /** Parents, and what teardowns still hold, are above. */
  ghost predicate Levelled(s: State) {
    && Shaped(s)
    && (forall id ::
      && id in s.nodes && !s.nodes[id].unlinked
      && s.nodes[id].parent.Some? && s.nodes[id].parent.value in s.nodes
      ==> s.nodes[s.nodes[id].parent.value].level < s.nodes[id].level)
    && (forall h :: h in s.handles && h.Teardown? && h.child in s.nodes ==>
      s.handles[h] in s.nodes && s.nodes[s.handles[h]].level < s.nodes[h.child].level)
  }

  lemma InvLevelled(s: State)
    requires Inv(s)
    ensures Levelled(s)
  {
    hide CountsOk, AgesOk;
  }

  lemma PutLevelled(s: State, h: Holder)
    requires Levelled(s) && h in s.handles
    ensures Levelled(Next(s, Put(h)))
  {
    PutNodes(s, h);
  }

  lemma UnlinkLevelled(s: State, id: Id)
    requires Levelled(s) && id in s.nodes
    ensures var r := Next(s, Unlink(id));
      && Levelled(r) && r.nodes.Keys == s.nodes.Keys
      && (Teardown(id) in r.handles ==>
        r.handles[Teardown(id)] in r.nodes && r.nodes[r.handles[Teardown(id)]].level < s.nodes[id].level)
  {
  }

  lemma HeldAgain(s: State, r: State, id: Id)
    requires Drained(s, id) && r.handles == s.handles
    ensures Held(r.handles, id) == {}
  {
  }

  lemma DeepAfter(s: State, s1: State, s2: State, r: State, id: Id, p: Id)
    requires id in s.nodes && p in s.nodes && s.nodes[id].level == s.nodes[p].level + 1 && p != id
    requires s1.nodes == s.nodes[p := s.nodes[p].(children := s.nodes[p].children - {id})]
                                [id := s.nodes[id].(unlinked := true)]
    requires DeepKept(s1, s2, s.nodes[p].level) && r.nodes == s2.nodes - {id}
    ensures id in s2.nodes && s2.nodes[id].unlinked
    ensures DeepKept(s, r, s.nodes[id].level) && id !in r.nodes
  {
    assert s1.nodes[id].level > s.nodes[p].level;
  }

  lemma KnownChildren(s: State)
    requires Inv(s)
    ensures forall x :: x in s.nodes ==> s.nodes[x].children <= s.nodes.Keys
  {
  }

  lemma OnlyParent(s: State, id: Id)
    requires Inv(s) && id in s.nodes
    ensures forall x :: x in s.nodes && id in s.nodes[x].children ==> s.nodes[id].parent == Some(x)
    ensures forall x :: x in s.nodes ==> s.nodes[x].children <= s.nodes.Keys
  {
  }

  lemma PrunedAfter(s: State, s1: State, s2: State, id: Id, p: Id)
    requires id in s.nodes && p in s.nodes && p != id
    requires forall x :: x in s.nodes && id in s.nodes[x].children ==> x == p
    requires s1.nodes == s.nodes[p := s.nodes[p].(children := s.nodes[p].children - {id})]
                                [id := s.nodes[id].(unlinked := true)]
    requires Pruned(s1, s2)
    ensures Pruned(s, s2.(nodes := s2.nodes - {id}))
  {
  }

  lemma OrphanPruned(s: State, s1: State, id: Id)
    requires id in s.nodes && s1.nodes == s.nodes[id := s.nodes[id].(unlinked := true)]
    requires forall x :: x in s.nodes ==> id !in s.nodes[x].children && s.nodes[x].children <= s.nodes.Keys
    ensures Pruned(s, s1.(nodes := s1.nodes - {id})) && DeepKept(s, s1.(nodes := s1.nodes - {id}), s.nodes[id].level)
  {
  }

  /** Only the node tables matter to pruning. */
  lemma NodesMatter(s: State, r: State, r': State, level: nat)
    requires r.nodes == r'.nodes
    ensures Pruned(s, r) == Pruned(s, r') && DeepKept(s, r, level) == DeepKept(s, r', level)
  {
  }

  /** The cascade ends, keeps the references exact, and leaves nothing draining behind. */
  lemma {:induction false} CollapseExact(s: State, id: Id)
    requires Inv(s) && Drained(s, id)
    ensures var r := Collapse(s, id);
      && Inv(r) && r.gone == s.gone - {id} && r.handles == s.handles
      && DeepKept(s, r, s.nodes[id].level) && id !in r.nodes && Pruned(s, r)
    decreases s.nodes[id].level, 0
  {
    hide Inv, Next, Held, Shaped, PutAll, DeepKept, Pruned;
    InvShaped(s);
    UnlinkStep(s, id);
    OnlyParent(s, id);
    var s1 := Next(s, Unlink(id));
    if s.nodes[id].parent.Some? {
      var p := s.nodes[id].parent.value;
      PutAllExact(s1, Teardown(id));
      var s2 := PutAll(s1, Teardown(id));
      assert s2.handles == s.handles;
      HeldAgain(s, s2, id);
      DeepAfter(s, s1, s2, s2.(nodes := s2.nodes - {id}), id, p);
      PrunedAfter(s, s1, s2, id, p);
      FreeStep(s2, id);
      NodesMatter(s, s2.(nodes := s2.nodes - {id}), Collapse(s, id), s.nodes[id].level);
    } else {
      HeldAgain(s, s1, id);
      FreeStep(s1, id);
      OrphanPruned(s, s1, id);
      NodesMatter(s, s1.(nodes := s1.nodes - {id}), Collapse(s, id), s.nodes[id].level);
    }
  }

  lemma {:induction false} PutAllExact(s: State, h: Holder)
    requires Inv(s) && !h.Base? && h in s.handles && s.handles[h] in s.nodes && s.handles[h] !in s.gone
    ensures var r := PutAll(s, h);
      && Inv(r) && r.gone == s.gone && r.handles == s.handles - {h}
      && DeepKept(s, r, s.nodes[s.handles[h]].level) && Pruned(s, r)
    decreases s.nodes[s.handles[h]].level, 1
  {
    hide Inv, Next, Held, Shaped, Collapse;
    InvShaped(s);
    KnownChildren(s);
    PutStep(s, h);
    if s.handles[h] in Next(s, Put(h)).gone {
      CollapseExact(Next(s, Put(h)), s.handles[h]);
    }
  }

  /** The last steps of a teardown, spelled out. */
  lemma CollapseUnfolds(s: State, id: Id)
    requires Inv(s) && Drained(s, id)
    ensures s.nodes[id].parent.None? ==>
      Collapse(s, id) == Freed(s.(nodes := s.nodes[id := s.nodes[id].(unlinked := true)]), id)
    ensures s.nodes[id].parent.Some? ==>
      var p := s.nodes[id].parent.value;
      && p in s.nodes && p !in s.gone && s.nodes[p].level < s.nodes[id].level
      && var s1 := s.(
        nodes := s.nodes[p := s.nodes[p].(children := s.nodes[p].children - {id})]
                        [id := s.nodes[id].(unlinked := true)],
        handles := s.handles[Teardown(id) := p]);
      Inv(s1) && Shaped(s1) && Collapse(s, id) == Freed(PutAll(s1, Teardown(id)), id)
  {
    hide Inv, Next, Held, Shaped, PutAll, DeepKept, Pruned;
    InvShaped(s);
    UnlinkStep(s, id);
    var s1 := Next(s, Unlink(id));
    InvShaped(s1);
    if s.nodes[id].parent.Some? {
      PutAllExact(s1, Teardown(id));
      var s2 := PutAll(s1, Teardown(id));
      HeldAgain(s, s2.(handles := s.handles), id);
      assert s2.handles == s.handles;
      DeepAfter(s, s1, s2, Freed(s2, id), id, s.nodes[id].parent.value);
      FreeStep(s2, id);
    } else {
      HeldAgain(s, s1, id);
      FreeStep(s1, id);
    }
  }

  // ----- Nothing leaks -----

  /** A way down from an object to one that somebody holds. */
  ghost predicate LeadsToHeld(s: State, x: Id, path: seq<Id>) {
    && |path| > 0 && path[0] == x
    && (forall i :: 0 <= i < |path| ==> path[i] in s.nodes)
    && (forall i :: 0 <= i < |path| - 1 ==> path[i + 1] in s.nodes[path[i]].children)
    && Held(s.handles, path[|path| - 1]) != {}
  }

  lemma LevelBound(nodes: map<Id, Node>) returns (bound: nat)
    ensures forall x :: x in nodes ==> nodes[x].level <= bound
  {
    bound := 0;
    var todo := nodes.Keys;
    while todo != {}
      invariant todo <= nodes.Keys
      invariant forall x :: x in nodes && x !in todo ==> nodes[x].level <= bound
      decreases |todo|
    {
      var x :| x in todo;
      todo := todo - {x};
      if nodes[x].level > bound {
        bound := nodes[x].level;
      }
    }
  }

  lemma ChildBelow(s: State, x: Id)
    requires Inv(s) && x in s.nodes && x !in s.gone && Held(s.handles, x) == {}
    ensures exists c :: c in s.nodes[x].children && c in s.nodes && s.nodes[c].level == s.nodes[x].level + 1
  {
    assert s.uses[x] > 0;
    assert s.nodes[x].children != {};
    var c :| c in s.nodes[x].children;
    assert s.nodes[c].level == s.nodes[x].level + 1;
  }

  lemma {:induction false} HeldBelow(s: State, x: Id, bound: nat) returns (path: seq<Id>)
    requires Inv(s) && s.gone == {} && x in s.nodes
    requires forall y :: y in s.nodes ==> s.nodes[y].level <= bound
    ensures LeadsToHeld(s, x, path)
    decreases bound - s.nodes[x].level
  {
    hide Inv, Held;
    if Held(s.handles, x) != {} {
      path := [x];
    } else {
      ChildBelow(s, x);
      var c :| c in s.nodes[x].children && c in s.nodes && s.nodes[c].level == s.nodes[x].level + 1;
      var rest := HeldBelow(s, c, bound);
      path := [x] + rest;
    }
  }

  /** When no teardown is under way, every object is there for a handle on it or below it. */
  lemma NothingLeaks(s: State, x: Id)
    requires Inv(s) && s.gone == {} && x in s.nodes
    ensures exists path :: LeadsToHeld(s, x, path)
  {
    var bound := LevelBound(s.nodes);
    var path := HeldBelow(s, x, bound);
  }
}
