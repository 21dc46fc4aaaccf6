/**
 The size of the completed table: one entry for each client-server pair.
 */
module McProduct {
  import opened McTypes
  import opened McConList

  ghost predicate Complete(t: Table) {
    forall c, s :: c in t.clients && s in t.servers ==> HasPair(t, c, s)
  }

  /** The pairs of client NIC `c` with the first `j` server NICs. */
  ghost function RowIds(t: Table, c: NicId, j: nat): set<ConId>
    requires j <= |t.servers|
  {
    set id | id in t.cons && t.cons[id].client == c && t.cons[id].server in t.servers[..j]
  }

  lemma {:induction false} RowSize(t: Table, c: NicId, j: nat)
    requires UniquePairs(t.cons) && NoDup(t.servers) && Complete(t) && c in t.clients && j <= |t.servers|
    ensures |RowIds(t, c, j)| == j
  {
    hide NoDup;
    if j > 0 {
      RowSize(t, c, j - 1);
      var s := t.servers[j - 1];
      LastNew(t.servers, j);
      assert HasPair(t, c, s);
      var id :| id in t.cons && t.cons[id].client == c && t.cons[id].server == s;
      RowGrows(t, c, j, id);
    }
  }

  lemma RowGrows(t: Table, c: NicId, j: nat, id: ConId)
    requires UniquePairs(t.cons) && 0 < j <= |t.servers|
    requires t.servers[..j] == t.servers[..j - 1] + [t.servers[j - 1]] && t.servers[j - 1] !in t.servers[..j - 1]
    requires id in t.cons && t.cons[id].client == c && t.cons[id].server == t.servers[j - 1]
    ensures RowIds(t, c, j) == RowIds(t, c, j - 1) + {id} && id !in RowIds(t, c, j - 1)
  {
    forall k | k in t.cons && t.cons[k].client == c && t.cons[k].server == t.servers[j - 1]
      ensures k == id
    {
      assert SamePair(t.cons[k], t.cons[id]);
    }
  }

  /** The pairs of the first `i` client NICs. */
  ghost function RowsIds(t: Table, i: nat): set<ConId>
    requires i <= |t.clients|
  {
    set id | id in t.cons && t.cons[id].client in t.clients[..i]
  }

  lemma RowsGrow(t: Table, i: nat)
    requires 0 < i <= |t.clients| && forall id :: id in t.cons ==> t.cons[id].server in t.servers
    requires t.clients[..i] == t.clients[..i - 1] + [t.clients[i - 1]] && t.clients[i - 1] !in t.clients[..i - 1]
    ensures RowsIds(t, i) == RowsIds(t, i - 1) + RowIds(t, t.clients[i - 1], |t.servers|)
    ensures RowsIds(t, i - 1) !! RowIds(t, t.clients[i - 1], |t.servers|)
  {
    assert t.servers[..|t.servers|] == t.servers;
  }

  lemma RowsNone(t: Table)
    ensures RowsIds(t, 0) == {}
  {
  }

  lemma {:induction false} RowsSize(t: Table, i: nat)
    requires UniquePairs(t.cons) && NoDup(t.servers) && NoDup(t.clients) && Complete(t) && i <= |t.clients|
    requires forall id :: id in t.cons ==> t.cons[id].server in t.servers
    ensures |RowsIds(t, i)| == i * |t.servers|
  {
    hide UniquePairs, HasPair, NoDup, RowIds, Complete, RowsIds;
    if i == 0 {
      RowsNone(t);
    } else {
      RowsSize(t, i - 1);
      LastNew(t.clients, i);
      RowSize(t, t.clients[i - 1], |t.servers|);
      RowsGrow(t, i);
      RowsAdd(RowsIds(t, i - 1), RowIds(t, t.clients[i - 1], |t.servers|), i, |t.servers|);
    }
  }

  lemma RowsAdd(rows: set<ConId>, row: set<ConId>, i: nat, n: nat)
    requires rows !! row && 0 < i && |rows| == (i - 1) * n && |row| == n
    ensures |rows + row| == i * n
  {
    assert i * n == (i - 1) * n + n;
  }

  ghost function Elements<T>(s: seq<T>): set<T> {
    set x | x in s
  }

  lemma {:induction false} NoDupSize<T>(s: seq<T>)
    requires NoDup(s)
    ensures |Elements(s)| == |s|
  {
    if s != [] {
      var init := s[..|s| - 1];
      NoDupSize(init);
      LastNew(s, |s|);
      assert s[..|s|] == s;
      assert Elements(s) == Elements(init) + {s[|s| - 1]};
    }
  }

  /** A complete table has exactly as many entries as there are client-server pairs. */
  lemma CompleteSize(t: Table)
    requires WF(t) && Complete(t)
    ensures |t.conList| == |t.clients| * |t.servers|
  {
    hide SlicesOk, UniqueIndices, UniquePairs, NoDup, Complete;
    RowsSize(t, |t.clients|);
    assert t.clients[..|t.clients|] == t.clients;
    assert RowsIds(t, |t.clients|) == Elements(t.conList);
    NoDupSize(t.conList);
  }

  /** The client NIC's own list holds exactly its pairs, each once. */
  ghost predicate Sliced(t: Table, c: NicId) {
    && c in t.possible && NoDup(t.possible[c])
    && forall id :: id in t.possible[c] <==> id in t.cons && t.cons[id].client == c
  }

  /** After completion the table is exactly the client-by-server product, and each client NIC's
      list is its slice of it. */
  lemma CompletedIsProduct(t: Table)
    requires WF(t) && Shaped(t)
    ensures var r := Completed(t);
            && Complete(r) && |r.conList| == |r.clients| * |r.servers|
            && UniquePairs(r.cons)
            && forall c :: c in r.clients ==> Sliced(r, c)
  {
    hide WF, Completed, Grown, HasPair;
    CompletedSound(t);
    CompleteSize(Completed(t));
    SlicesMean(Completed(t));
  }

  lemma SlicesMean(t: Table)
    requires WF(t)
    ensures UniquePairs(t.cons)
    ensures forall c :: c in t.clients ==> Sliced(t, c)
  {
    hide UniqueIndices, UniquePairs, Slice, NoDup;
    forall c | c in t.clients
      ensures Sliced(t, c)
    {
      SliceMembers(t.conList, t.cons, c);
      SliceNoDup(t.conList, t.cons, c);
    }
  }
}
