/**
 Which connections collecting excess takes: all but one of those that are not among the fastest, as many of the fastest
 as are over the channel limit, and no other.
 */
module McCull {
  import opened Options
  import opened McTypes
  import opened McConList
  import opened McStats
  import opened McExcess

  // ----- The spare -----

  function ConAt(t: Table, i: nat): Con
    requires Held(t) && i < |t.success|
  {
    t.cons[t.success[i]]
  }

  /** The connection is below the bar. */
  ghost predicate Below(t: Table, i: nat)
    requires Held(t) && i < |t.success|
  {
    !AtTheBar(t, ConAt(t, i))
  }

  /** No entry of the table at one of the NICs counts as active when the connection at `i` is looked at: the
      connections up to it if they are at the bar, every other entry, connected or not, if it was active before. */
  ghost predicate Alone(t: Table, i: nat)
    requires Held(t) && i < |t.success|
  {
    forall id :: id in t.conList && (t.cons[id].client == ConAt(t, i).client || t.cons[id].server == ConAt(t, i).server)
      ==> if id in t.success[..i + 1] then !AtTheBar(t, t.cons[id]) else t.cons[id].active != Active
  }

  /** The connection qualifies as the spare, among the wired ones where these are preferred. */
  ghost predicate Contends(t: Table, wired: bool, i: nat)
    requires Held(t) && i < |t.success|
  {
    Below(t, i) && ConAt(t, i).speed > 0 && Alone(t, i) && (wired ==> t.preferWired && Wired(t.nics, ConAt(t, i)))
  }

  /** Of the first `k` connections that at `i` is the fastest that qualifies, and the first of these. */
  ghost predicate Wins(t: Table, wired: bool, k: nat, i: nat)
    requires Held(t) && k <= |t.success|
  {
    && i < k && Contends(t, wired, i)
    && forall j :: 0 <= j < k && Contends(t, wired, j) ==>
         ConAt(t, j).speed <= ConAt(t, i).speed && (j < i ==> ConAt(t, j).speed < ConAt(t, i).speed)
  }

  ghost predicate NoneContends(t: Table, wired: bool, k: nat)
    requires Held(t) && k <= |t.success|
  {
    forall j :: 0 <= j < k ==> !Contends(t, wired, j)
  }

  ghost predicate WinnerIs(t: Table, wired: bool, k: nat, id: Option<ConId>, speed: nat)
    requires Held(t) && k <= |t.success|
  {
    || (id.None? && speed == 0 && NoneContends(t, wired, k))
    || exists i: nat :: i < k && Wins(t, wired, k, i) && id == Some(t.success[i]) && speed == ConAt(t, i).speed
  }

  lemma AloneIs(t: Table, i: nat)
    requires Held(t) && i < |t.success|
    ensures OnActive(MarkedTo(t, i + 1), t.conList, ConAt(t, i).client, ConAt(t, i).server) <==> !Alone(t, i)
  {
    hide AtTheBar;
    var m, c := MarkedTo(t, i + 1), ConAt(t, i);
    forall id | id in t.cons
      ensures SamePair(m[id], t.cons[id])
      ensures m[id].active == Active <==>
        if id in t.success[..i + 1] then AtTheBar(t, t.cons[id]) else t.cons[id].active == Active
    {
    }
    hide MarkedTo;
    if !Alone(t, i) {
      var id :| id in t.conList && (t.cons[id].client == c.client || t.cons[id].server == c.server) &&
        m[id].active == Active;
      var j :| 0 <= j < |t.conList| && t.conList[j] == id;
    }
  }

  function WinnerOf(s: Survey, wired: bool): Option<ConId> {
    if wired then s.wiredSpare else s.spare
  }

  function WinnerSpeed(s: Survey, wired: bool): nat {
    if wired then s.maxWired else s.maxSpare
  }

  lemma SurveyTurn(t: Table, wired: bool, k: nat)
    requires Held(t) && 0 < k <= |t.success|
    ensures var p, s, c := SurveyTo(t, k - 1), SurveyTo(t, k), ConAt(t, k - 1);
      if Contends(t, wired, k - 1) && c.speed > WinnerSpeed(p, wired)
      then WinnerOf(s, wired) == Some(t.success[k - 1]) && WinnerSpeed(s, wired) == c.speed
      else WinnerOf(s, wired) == WinnerOf(p, wired) && WinnerSpeed(s, wired) == WinnerSpeed(p, wired)
  {
    hide AtTheBar, MarkedTo, OnActive, Alone, Shaped;
    AloneIs(t, k - 1);
  }

  lemma WinnerStep(t: Table, wired: bool, k: nat, id: Option<ConId>, speed: nat)
    requires Held(t) && 0 < k <= |t.success| && WinnerIs(t, wired, k - 1, id, speed)
    ensures if Contends(t, wired, k - 1) && ConAt(t, k - 1).speed > speed
      then WinnerIs(t, wired, k, Some(t.success[k - 1]), ConAt(t, k - 1).speed) else WinnerIs(t, wired, k, id, speed)
  {
    ContendsSpeed(t, wired);
    hide Contends, Shaped;
    if Contends(t, wired, k - 1) && ConAt(t, k - 1).speed > speed {
      assert Wins(t, wired, k, k - 1);
    } else if id.Some? {
      var i: nat :| i < k - 1 && Wins(t, wired, k - 1, i) && id == Some(t.success[i]) && speed == ConAt(t, i).speed;
      assert Wins(t, wired, k, i);
    }
  }

  lemma ContendsSpeed(t: Table, wired: bool)
    requires Held(t)
    ensures forall i: nat :: i < |t.success| && Contends(t, wired, i) ==> ConAt(t, i).speed > 0
  {
  }

  lemma WinnerNone(t: Table, wired: bool)
    requires Held(t)
    ensures WinnerIs(t, wired, 0, WinnerOf(SurveyTo(t, 0), wired), WinnerSpeed(SurveyTo(t, 0), wired))
  {
    hide Contends, Shaped;
  }

  lemma {:induction false} SurveyWinner(t: Table, wired: bool, k: nat)
    requires Held(t) && k <= |t.success|
    ensures WinnerIs(t, wired, k, WinnerOf(SurveyTo(t, k), wired), WinnerSpeed(SurveyTo(t, k), wired))
  {
    hide SurveyTo, WinnerIs, Held, Contends, WinnerOf, WinnerSpeed;
    if k == 0 {
      WinnerNone(t, wired);
    } else {
      SurveyWinner(t, wired, k - 1);
      SurveyTurn(t, wired, k);
      WinnerStep(t, wired, k, WinnerOf(SurveyTo(t, k - 1), wired), WinnerSpeed(SurveyTo(t, k - 1), wired));
    }
  }

  /** The connection that stays as the spare: the fastest wired one that qualifies where wired ones are preferred,
      failing that the fastest that qualifies, failing that the last one below the bar. */
  ghost predicate SpareIs(t: Table, i: nat)
    requires Held(t) && i < |t.success|
  {
    var n := |t.success|;
    if !NoneContends(t, true, n) then Wins(t, true, n, i)
    else if !NoneContends(t, false, n) then Wins(t, false, n, i)
    else Below(t, i) && forall j :: i < j < n ==> !Below(t, j)
  }

  lemma SpareBelow(t: Table, i: nat)
    requires Held(t) && i < |t.success| && SpareIs(t, i)
    ensures Below(t, i)
  {
    hide Alone, AtTheBar, Shaped;
  }

  lemma SpareUnique(t: Table, i: nat, j: nat)
    requires Held(t) && i < |t.success| && j < |t.success| && SpareIs(t, i) && SpareIs(t, j)
    ensures i == j
  {
    hide Contends, Below, Shaped;
  }

  /** What the demotion keeps. */
  function Kept(s: Survey): Option<ConId> {
    if s.wiredSpare.Some? then s.wiredSpare else s.spare
  }

  /** It is the spare, or there is nothing that qualifies. */
  lemma KeptIs(t: Table)
    requires Held(t)
    ensures var keep, n := Kept(SurveyTo(t, |t.success|)), |t.success|;
      && (keep.None? <==> NoneContends(t, true, n) && NoneContends(t, false, n))
      && (keep.Some? ==> exists i: nat :: i < n && SpareIs(t, i) && keep == Some(t.success[i]))
  {
    hide SurveyTo, Contends, Held, Shaped;
    SurveyWinner(t, true, |t.success|);
    SurveyWinner(t, false, |t.success|);
  }

  /** The pair to keep is never demoted. */
  lemma {:induction false} KeepStays(t: Table, cons: map<ConId, Con>, keep: ConId, left: nat, k: nat)
    requires Held(t) && cons.Keys == t.cons.Keys && k <= |t.success| && keep in cons
    ensures DemotedTo(t, cons, Some(keep), left, k).cons[keep] == cons[keep]
  {
    hide Held, Shaped;
    if k > 0 {
      KeepStays(t, cons, keep, left, k - 1);
    }
  }

  /** With nothing to keep, the last inactive pair is not demoted, for one is left when it is met. */
  lemma {:induction false} LastStays(t: Table, cons: map<ConId, Con>, left: nat, l: nat, k: nat)
    requires Held(t) && cons.Keys == t.cons.Keys && k <= |t.success| && l < |t.success| && NoDup(t.success)
    requires left == |Spares(cons, t.success)| > 1
    requires forall j :: l < j < |t.success| ==> cons[t.success[j]].active != Inactive
    ensures DemotedTo(t, cons, None, left, k).cons[t.success[l]] == cons[t.success[l]]
  {
    hide Held, Shaped, Spares;
    if k > 0 {
      LastStays(t, cons, left, l, k - 1);
      if k - 1 == l {
        LastLeft(t, cons, left, l);
      }
    }
  }

  lemma LastLeft(t: Table, cons: map<ConId, Con>, left: nat, l: nat)
    requires Held(t) && cons.Keys == t.cons.Keys && l < |t.success| && NoDup(t.success)
    requires left == |Spares(cons, t.success)| > 1
    requires forall j :: l < j < |t.success| ==> cons[t.success[j]].active != Inactive
    ensures DemotedTo(t, cons, None, left, l).left <= 1
  {
    hide DemotedTo, Shaped;
    DemotedCounts(t, cons, None, left, l);
    DemotedActivity(t, cons, None, left, l);
    DemotedFrame(t, cons, None, left, l);
    var r := DemotedTo(t, cons, None, left, l);
    if r.left > 1 {
      assert Spares(r.cons, t.success) <= {t.success[l]};
      AtMostOne(Spares(r.cons, t.success), {t.success[l]});
    }
  }

  /** Demotion only makes inactive pairs redundant. */
  lemma {:induction false} DemotedFrame(t: Table, cons: map<ConId, Con>, keep: Option<ConId>, left: nat, k: nat)
    requires Held(t) && cons.Keys == t.cons.Keys && k <= |t.success|
    ensures forall id :: id in cons && DemotedTo(t, cons, keep, left, k).cons[id].active == Inactive ==>
      cons[id].active == Inactive
  {
    hide Held, Shaped;
    if k > 0 {
      DemotedFrame(t, cons, keep, left, k - 1);
    }
  }

  /** Some connection below the bar is the spare, and it alone is inactive after the sorting. */
  ghost predicate OneSpare(t: Table, cons: map<ConId, Con>, i: nat)
    requires Held(t) && cons.Keys == t.cons.Keys
  {
    i < |t.success| && SpareIs(t, i) && Spares(cons, t.success) == {t.success[i]}
  }

  lemma LastBelow(t: Table, i: nat) returns (l: nat)
    requires Held(t) && i < |t.success| && Below(t, i)
    ensures l < |t.success| && Below(t, l) && forall j :: l < j < |t.success| ==> !Below(t, j)
    decreases |t.success| - i
  {
    hide Below, Held;
    if j: nat :| i < j < |t.success| && Below(t, j) {
      l := LastBelow(t, j);
    } else {
      l := i;
    }
  }

  lemma BelowIs(t: Table)
    requires Held(t)
    ensures forall i: nat :: i < |t.success| ==> (Below(t, i) <==> t.success[i] in BySpeed(t, t.success, false))
    ensures forall id :: id in BySpeed(t, t.success, false) ==> exists i: nat :: i < |t.success| && t.success[i] == id
  {
    hide AtTheBar, Shaped;
  }

  /** The demotion leaves the spare. */
  lemma DemotedSpare(t: Table) returns (i: nat)
    requires Held(t) && NoDup(t.success) && |BySpeed(t, t.success, false)| > 1
    ensures var n := |t.success|;
      var s := SurveyTo(t, n);
      OneSpare(t, DemotedTo(t, MarkedTo(t, n), Kept(s), |BySpeed(t, t.success, false)|, n).cons, i)
  {
    hide SurveyTo, DemotedTo, MarkedTo, AtTheBar, Shaped, BySpeed, Contends, Wins;
    var n, marked, left := |t.success|, MarkedTo(t, |t.success|), |BySpeed(t, t.success, false)|;
    var keep := Kept(SurveyTo(t, n));
    KeptIs(t);
    MarkedAll(t);
    BelowIs(t);
    var r := DemotedTo(t, marked, keep, left, n).cons;
    DemotedLeavesOne(t, marked, keep, left);
    if keep.Some? {
      i :| i < n && SpareIs(t, i) && keep == Some(t.success[i]);
      SpareBelow(t, i);
      KeepStays(t, marked, t.success[i], left, n);
    } else {
      var id :| id in BySpeed(t, t.success, false);
      var j: nat :| j < n && t.success[j] == id;
      i := LastBelow(t, j);
      MarkedBelow(t);
      LastStays(t, marked, left, i, n);
    }
    MarkedBelow(t);
    OnlyOne(Spares(r, t.success), t.success[i]);
  }

  lemma OnlyOne<T>(s: set<T>, x: T)
    requires |s| == 1 && x in s
    ensures s == {x}
  {
    assert |s - {x}| == 0;
  }

  lemma MarkedBelow(t: Table)
    requires Held(t)
    ensures forall i: nat :: i < |t.success| ==>
      MarkedTo(t, |t.success|)[t.success[i]].active == if Below(t, i) then Inactive else Active
  {
    hide AtTheBar, Shaped;
  }

  /** A single connection below the bar is the spare. */
  lemma SingleSpare(t: Table) returns (i: nat)
    requires Held(t) && NoDup(t.success) && |BySpeed(t, t.success, false)| == 1
    ensures i < |t.success| && SpareIs(t, i) && BySpeed(t, t.success, false) == {t.success[i]}
  {
    hide AtTheBar, Shaped, BySpeed, Alone;
    BelowIs(t);
    var id :| id in BySpeed(t, t.success, false);
    i :| i < |t.success| && t.success[i] == id;
    OnlyOne(BySpeed(t, t.success, false), id);
    forall j: nat | j < |t.success| && Below(t, j) ensures j == i {}
    hide Below, NoDup;
  }

  /** Sorting gives each connection its rank: active at the bar, inactive as the spare, redundant otherwise. */
  ghost predicate RankedRight(t: Table, cons: map<ConId, Con>)
    requires Held(t) && cons.Keys == t.cons.Keys
  {
    forall i: nat :: i < |t.success| ==>
      cons[t.success[i]].active == if !Below(t, i) then Active else if SpareIs(t, i) then Inactive else Redundant
  }

  lemma SortedRight(t: Table)
    requires Held(t) && NoDup(t.success)
    ensures Sorted(t).cons.Keys == t.cons.Keys && RankedRight(t, Sorted(t).cons)
  {
    hide Sorted, Held, AtTheBar, SpareIs, BySpeed, Shaped, NoDup;
    SortedHeld(t);
    SortedSound(t);
    InSuccess(t);
    var u := Sorted(t).cons;
    if BySpeed(t, t.success, false) == {} {
      BelowIs(t);
    } else {
      var l := SortedSpare(t);
      SpareBelow(t, l);
      forall i: nat | i < |t.success|
        ensures u[t.success[i]].active == if !Below(t, i) then Active else if SpareIs(t, i) then Inactive else Redundant
      {
        assert t.success[i] in Spares(u, t.success) <==> u[t.success[i]].active == Inactive;
        if SpareIs(t, i) {
          SpareUnique(t, i, l);
        } else if t.success[i] == t.success[l] {
          SameEntry(t, i, l);
        }
      }
    }
  }

  lemma InSuccess(t: Table)
    requires Held(t)
    ensures forall i :: 0 <= i < |t.success| ==> t.success[i] in t.success && t.success[i] in t.cons
  {
  }

  lemma SameEntry(t: Table, i: nat, l: nat)
    requires NoDup(t.success) && i < |t.success| && l < |t.success| && t.success[i] == t.success[l]
    ensures i == l
  {
  }

  lemma SortedSpare(t: Table) returns (i: nat)
    requires Held(t) && NoDup(t.success) && BySpeed(t, t.success, false) != {}
    ensures Sorted(t).cons.Keys == t.cons.Keys && OneSpare(t, Sorted(t).cons, i)
  {
    hide SurveyTo, DemotedTo, MarkedTo, AtTheBar, SpareIs, BySpeed, Shaped, NoDup, Spares;
    var n := |t.success|;
    SortedHeld(t);
    SurveyCounts(t, n);
    MarkedAll(t);
    if |BySpeed(t, t.success, false)| > 1 {
      i := DemotedSpare(t);
    } else {
      i := SingleSpare(t);
    }
  }

  // ----- The sweep -----

  /** How many of the active connections are too many. */
  function Over(active: nat, inactive: nat, maxChannels: nat): nat {
    if active + inactive > maxChannels then active + inactive - maxChannels else 0
  }

  /** The sweep takes the connection at `i`: it is redundant, or active with fewer active ones before it than are too
      many. */
  ghost predicate Due(t: Table, over: nat, i: nat)
    requires Held(t) && i < |t.success|
  {
    && ConAt(t, i).state == Connected
    && (ConAt(t, i).active == Redundant ||
        (ConAt(t, i).active == Active && |Acting(t.cons, t.success[..i], Active)| < over))
  }

  /** The connections due among the first `k`, in list order. */
  ghost function Dues(t: Table, over: nat, k: nat): seq<ConId>
    requires Held(t) && k <= |t.success|
  {
    if k == 0 then [] else Dues(t, over, k - 1) + if Due(t, over, k - 1) then [t.success[k - 1]] else []
  }

  /** What the sweep has done after `k` connections. */
  ghost predicate SweptRight(t: Table, active: nat, over: nat, k: nat, s: Sweep)
    requires Held(t) && k <= |t.success|
  {
    && s.active + Min(|Acting(t.cons, t.success[..k], Active)|, over) == active
    && OnlyRemoved(t.cons, s.cons, s.removed)
    && (forall id :: id in s.removed ==> id in t.success[..k])
    && s.removed == Dues(t, over, k)
  }

  lemma SweptRightNone(t: Table, active: nat, inactive: nat, slots: nat, over: nat)
    requires Held(t)
    ensures SweptRight(t, active, over, 0, SweptTo(t, active, inactive, slots, 0))
  {
    hide Shaped;
    assert Acting(t.cons, t.success[..0], Active) == {};
  }

  lemma SweptRightStep(t: Table, active: nat, inactive: nat, slots: nat, k: nat, p: Sweep)
    requires Held(t) && NoDup(t.success) && 0 < k <= |t.success| && Carried(ConAt(t, k - 1).state)
    requires active == |Acting(t.cons, t.success, Active)| && |p.removed| < slots
    requires SweptRight(t, active, Over(active, inactive, t.maxChannels), k - 1, p) && t.success[k - 1] in p.cons
    ensures SweptRight(t, active, Over(active, inactive, t.maxChannels), k,
                       SweptOnce(p, t.maxChannels, inactive, slots, t.success[k - 1]))
  {
    hide Shaped, Acting, OnlyRemoved;
    var id, over := t.success[k - 1], Over(active, inactive, t.maxChannels);
    LastNew(t.success, k);
    ActingAppend(t.cons, t.success[..k - 1], id, Active);
    ActingPrefix(t.cons, t.success, k);
    UntouchedYet(t, p, k);
    SweptOnceFrame(t.cons, p, t.maxChannels, inactive, slots, id);
    assert Takes(p.cons[id], p.active, inactive, t.maxChannels) <==> Due(t, over, k - 1);
    assert forall j :: j in t.success[..k] <==> j in t.success[..k - 1] || j == id;
  }

  lemma ActingPrefix(cons: map<ConId, Con>, list: seq<ConId>, k: nat)
    requires k <= |list|
    ensures |Acting(cons, list[..k], Active)| <= |Acting(cons, list, Active)|
  {
    SubsetSize(Acting(cons, list[..k], Active), Acting(cons, list, Active));
  }

  lemma UntouchedYet(t: Table, p: Sweep, k: nat)
    requires Held(t) && 0 < k <= |t.success| && OnlyRemoved(t.cons, p.cons, p.removed)
    requires (forall id :: id in p.removed ==> id in t.success[..k - 1]) && t.success[k - 1] !in t.success[..k - 1]
    ensures t.success[k - 1] in p.cons && t.success[k - 1] !in p.removed && p.cons[t.success[k - 1]] == ConAt(t, k - 1)
  {
    hide NoDup;
  }

  lemma {:induction false} SweptMeans(t: Table, active: nat, inactive: nat, slots: nat, k: nat)
    requires Held(t) && NoDup(t.success) && k <= |t.success| < slots && active == |Acting(t.cons, t.success, Active)|
    requires forall id :: id in t.success ==> Carried(t.cons[id].state)
    ensures SweptRight(t, active, Over(active, inactive, t.maxChannels), k, SweptTo(t, active, inactive, slots, k))
  {
    hide Shaped, Acting, SweptRight, SweptOnce, OnlyRemoved, NoDup;
    if k == 0 {
      SweptRightNone(t, active, inactive, slots, Over(active, inactive, t.maxChannels));
    } else {
      SweptMeans(t, active, inactive, slots, k - 1);
      SweptFrame(t, active, inactive, slots, k - 1);
      SweptRightStep(t, active, inactive, slots, k, SweptTo(t, active, inactive, slots, k - 1));
    }
  }

  /** A shorter vector takes the first of what a longer one takes. */
  lemma {:induction false} SweptShort(t: Table, active: nat, inactive: nat, slots: nat, slots': nat, k: nat)
    requires Held(t) && k <= |t.success| && slots <= slots'
    ensures var s, s' := SweptTo(t, active, inactive, slots, k), SweptTo(t, active, inactive, slots', k);
      if |s'.removed| <= slots then s == s' else s.removed == s'.removed[..slots]
  {
    hide Held, Shaped, Takes;
    if k > 0 {
      SweptShort(t, active, inactive, slots, slots', k - 1);
    }
  }

  // ----- What is taken, said of the table before -----

  /** The connections of the list that are at the bar and not in removal already. */
  ghost function TopLive(t: Table, list: seq<ConId>): set<ConId>
    requires Held(t)
  {
    set id | id in list && id in t.cons && t.cons[id].state == Connected && AtTheBar(t, t.cons[id])
  }

  /** There is a spare, and it is not in removal. */
  ghost predicate SpareStays(t: Table)
    requires Held(t)
  {
    exists i: nat :: i < |t.success| && SpareIs(t, i) && ConAt(t, i).state == Connected
  }

  ghost function SpareCount(t: Table): nat
    requires Held(t)
  {
    if SpareStays(t) then 1 else 0
  }

  /** The connection at `i` is to go: it is below the bar and not the spare, or it is at the bar and fewer of those at
      the bar come before it than there are too many beside the spare. */
  ghost predicate Leaves(t: Table, i: nat)
    requires Held(t) && i < |t.success|
  {
    && ConAt(t, i).state == Connected
    && if Below(t, i) then !SpareIs(t, i)
       else |TopLive(t, t.success[..i])| + t.maxChannels < |TopLive(t, t.success)| + SpareCount(t)
  }

  /** The connections to go among the first `k`, in list order. */
  ghost function Leaving(t: Table, k: nat): seq<ConId>
    requires Held(t) && k <= |t.success|
  {
    if k == 0 then [] else Leaving(t, k - 1) + if Leaves(t, k - 1) then [t.success[k - 1]] else []
  }

  /** The ranking, as far as the sweep looks at it. */
  ghost predicate RankedLike(t: Table, r: Table)
    requires Held(t)
  {
    && Held(r) && r == t.(cons := r.cons) && r.cons.Keys == t.cons.Keys && RankedRight(t, r.cons)
    && forall id :: id in t.success ==> r.cons[id].state == t.cons[id].state
  }

  lemma RankedIs(t: Table)
    requires WF(t) && Held(t) && Agree(t)
    ensures RankedLike(t, Ranked(t)) && Agree(Ranked(t))
    ensures forall id :: id in t.success ==> Carried(Ranked(t).cons[id].state)
  {
    hide WF, Sorted, Ranked, Shaped, NoIdleInUse, NoStarvation, SpeedsFresh, Below, SpareIs;
    RankedKeeps(t);
    RankedFacts(t);
    AgreeNoDup(t);
    SortedRight(t);
    InSuccess(t);
  }

  lemma AgreeNoDup(t: Table)
    requires Agree(t)
    ensures NoDup(t.success)
  {
    hide NoDup;
  }

  lemma RankedTop(t: Table, r: Table, k: nat)
    requires Held(t) && RankedLike(t, r) && k <= |t.success|
    ensures Acting(r.cons, t.success[..k], Active) == TopLive(t, t.success[..k])
  {
    hide SpareIs, AtTheBar;
    forall id | id in t.success[..k]
      ensures id in t.cons && r.cons[id].state == t.cons[id].state
      ensures r.cons[id].active == Active <==> AtTheBar(t, t.cons[id])
    {
      var i: nat :| i < k && t.success[i] == id;
      assert r.cons[t.success[i]].active == if !Below(t, i) then Active else if SpareIs(t, i) then Inactive
        else Redundant;
    }
  }

  lemma RankedDue(t: Table, r: Table, i: nat)
    requires Held(t) && RankedLike(t, r) && i < |t.success|
    ensures Due(r, Over(|TopLive(t, t.success)|, SpareCount(t), t.maxChannels), i) <==> Leaves(t, i)
  {
    hide SpareIs, AtTheBar, Shaped, TopLive, Acting, SpareStays;
    RankedTop(t, r, i);
  }

  lemma {:induction false} RankedDues(t: Table, r: Table, k: nat)
    requires Held(t) && RankedLike(t, r) && k <= |t.success|
    ensures Dues(r, Over(|TopLive(t, t.success)|, SpareCount(t), t.maxChannels), k) == Leaving(t, k)
  {
    hide Held, TopLive, SpareCount, Due, Leaves, RankedRight;
    if k > 0 {
      RankedDues(t, r, k - 1);
      RankedDue(t, r, k - 1);
    }
  }

  lemma RankedActive(t: Table, r: Table)
    requires Held(t) && RankedLike(t, r) && Agree(r)
    ensures ActiveIds(r.cons) == Acting(r.cons, t.success, Active) == TopLive(t, t.success)
  {
    hide SpareIs, AtTheBar, Shaped, NoDup, RankedRight, TopLive;
    assert t.success[..|t.success|] == t.success;
    RankedTop(t, r, |t.success|);
  }

  /** The inactive connection is the spare. */
  lemma RankedInactiveIs(t: Table, r: Table)
    requires Held(t) && RankedLike(t, r) && Agree(r)
    ensures forall i: nat :: i < |t.success| && SpareIs(t, i) && ConAt(t, i).state == Connected ==>
      InactiveIds(r.cons) == {t.success[i]}
    ensures |InactiveIds(r.cons)| == SpareCount(t)
  {
    hide SpareIs, AtTheBar, Shaped, NoDup;
    forall id | id in InactiveIds(r.cons)
      ensures exists i: nat :: i < |t.success| && SpareIs(t, i) && ConAt(t, i).state == Connected && t.success[i] == id
    {
      var i: nat :| i < |t.success| && t.success[i] == id;
      assert r.cons[t.success[i]].active == if !Below(t, i) then Active else if SpareIs(t, i) then Inactive
        else Redundant;
    }
    forall i: nat | i < |t.success| && SpareIs(t, i) && ConAt(t, i).state == Connected
      ensures InactiveIds(r.cons) == {t.success[i]}
    {
      SpareBelow(t, i);
      assert r.cons[t.success[i]].active == Inactive && t.success[i] in InactiveIds(r.cons);
      forall j: nat | j < |t.success| && SpareIs(t, j) ensures j == i { SpareUnique(t, i, j); }
    }
    if !SpareStays(t) {
      assert InactiveIds(r.cons) == {};
    }
  }

  /** The sweep of a ranked table. */
  lemma ExcessSweeps(t: Table, slots: nat)
    requires WF(t) && Held(t) && Agree(t) && slots >= 1
    ensures var e, r := Excess(t, slots), Ranked(t);
      && Held(r) && r.success == t.success
      && var s := SweptTo(r, |TopLive(t, t.success)|, SpareCount(t), slots, |t.success|);
      && e.removed == s.removed && e.t == t.(cons := s.cons)
      && e.actives == |BySpeed(t, t.success, true)| && e.speed == Bar(t)
  {
    hide WF, CountStats, Sorted, SweptTo, Agree, NoDup, NoIdleInUse, NoStarvation, SpeedsFresh, ActiveIds, InactiveIds,
      TopLive, SpareCount, RankedRight, SurveyTo, BySpeed, Bar;
    RankedKeeps(t);
    RankedCounts(t);
    RankedIs(t);
    RankedActive(t, Ranked(t));
    RankedInactiveIs(t, Ranked(t));
    AgreeNoDup(t);
    SurveyCounts(t, |t.success|);
    assert t.success[..|t.success|] == t.success;
  }

  /**
   Collecting excess returns the connections to go, in list order, as many of them as fit the vector, and no other; it
   reports how many are at the bar, and the bar.
   */
  lemma ExcessTakes(t: Table, slots: nat)
    requires WF(t) && Held(t) && Agree(t) && slots >= 1
    ensures var e, gone := Excess(t, slots), Leaving(t, |t.success|);
      && e.removed == (if |gone| <= slots then gone else gone[..slots])
      && e.actives == |BySpeed(t, t.success, true)| && e.speed == Bar(t)
  {
    hide WF, Ranked, SweptTo, Agree, TopLive, SpareCount, RankedRight, BySpeed, Bar, Excess, Leaving, NoDup, Dues,
      OnlyRemoved, Shaped;
    var n := |t.success|;
    var r, top := Ranked(t), |TopLive(t, t.success)|;
    ExcessSweeps(t, slots);
    RankedIs(t);
    RankedActive(t, r);
    RankedDues(t, r, n);
    AgreeNoDup(r);
    SweptMeans(r, top, SpareCount(t), n + slots, n);
    SweptShort(r, top, SpareCount(t), slots, n + slots, n);
  }

  /** Every connection has its rank afterwards: active at the bar, inactive as the spare, redundant otherwise. */
  lemma ExcessRanks(t: Table, slots: nat)
    requires WF(t) && Held(t) && Agree(t) && slots >= 1
    ensures Excess(t, slots).t.cons.Keys == t.cons.Keys && RankedRight(t, Excess(t, slots).t.cons)
  {
    hide WF, Ranked, SweptTo, Agree, TopLive, SpareCount, Excess, NoDup, Shaped, Below, SpareIs;
    ExcessSweeps(t, slots);
    RankedIs(t);
    InSuccess(t);
    SweptFrame(Ranked(t), |TopLive(t, t.success)|, SpareCount(t), slots, |t.success|);
  }

  /** With room for all of them, as many connections at the bar stay active as the limit allows beside the spare. */
  lemma ExcessLeaves(t: Table, slots: nat)
    requires WF(t) && Held(t) && Agree(t) && slots >= 1 && slots >= |Leaving(t, |t.success|)|
    ensures |ActiveIds(Excess(t, slots).t.cons)| == Min(|TopLive(t, t.success)|, t.maxChannels - SpareCount(t))
  {
    hide WF, Ranked, SweptTo, Agree, TopLive, SpareStays, RankedRight, BySpeed, Bar, Excess, Leaving, NoDup, Dues,
      Shaped, ActiveIds, Acting, OnlyRemoved;
    var n := |t.success|;
    var r, top := Ranked(t), |TopLive(t, t.success)|;
    MaxChannelsPositive(t);
    ExcessSweeps(t, slots);
    RankedIs(t);
    RankedActive(t, r);
    RankedDues(t, r, n);
    AgreeNoDup(r);
    SweptMeans(r, top, SpareCount(t), n + slots, n);
    SweptShort(r, top, SpareCount(t), slots, n + slots, n);
    SweptCounts(r, top, SpareCount(t), slots, n);
    CountsActive(SweptTo(r, top, SpareCount(t), slots, n), t.success, t.maxChannels, SpareCount(t), slots);
    assert t.success[..n] == t.success;
  }

  // ----- When nothing is taken -----

  ghost predicate NoneInRemoval(t: Table) {
    forall id :: id in t.cons ==> t.cons[id].state != InRemoval
  }

  lemma {:induction false} LeavingNone(t: Table, k: nat)
    requires Held(t) && k <= |t.success|
    ensures Leaving(t, k) == [] <==> forall i: nat :: i < k ==> !Leaves(t, i)
  {
    hide Held, Leaves;
    if k > 0 {
      LeavingNone(t, k - 1);
    }
  }

  /** Every connection is at the bar or below it. */
  lemma {:induction false} BySpeedSplits(t: Table, k: nat)
    requires Held(t) && NoDup(t.success) && k <= |t.success|
    ensures |BySpeed(t, t.success[..k], true)| + |BySpeed(t, t.success[..k], false)| == k
  {
    hide AtTheBar, Shaped, NoDup;
    if k == 0 {
      assert BySpeed(t, t.success[..0], true) == {} && BySpeed(t, t.success[..0], false) == {};
    } else {
      BySpeedSplits(t, k - 1);
      hide BySpeed;
      LastNew(t.success, k);
      BySpeedAppend(t, t.success[..k - 1], t.success[k - 1], true);
      BySpeedAppend(t, t.success[..k - 1], t.success[k - 1], false);
    }
  }

  /** With nothing in removal all connections are live. */
  lemma AllLive(t: Table)
    requires Held(t) && Agree(t) && NoneInRemoval(t)
    ensures TopLive(t, t.success) == BySpeed(t, t.success, true)
    ensures forall i: nat :: i < |t.success| ==> ConAt(t, i).state == Connected
  {
    hide AtTheBar, Shaped, NoDup;
  }

  lemma SpareCounts(t: Table)
    requires Held(t) && Agree(t) && NoneInRemoval(t)
    ensures SpareCount(t) == 1 <==> BySpeed(t, t.success, false) != {}
  {
    hide AtTheBar, Shaped, NoDup, SpareIs, BySpeed, Agree;
    AgreeNoDup(t);
    AllLive(t);
    BelowIs(t);
    if BySpeed(t, t.success, false) != {} {
      var i := SortedSpare(t);
    } else if SpareStays(t) {
      var i: nat :| i < |t.success| && SpareIs(t, i);
      SpareBelow(t, i);
    }
  }

  lemma {:induction false} FirstTop(t: Table, i: nat) returns (f: nat)
    requires Held(t) && i < |t.success| && !Below(t, i)
    ensures f < |t.success| && !Below(t, f) && TopLive(t, t.success[..f]) == {}
  {
    hide Below, Held, Shaped;
    if j: nat :| j < i && !Below(t, j) {
      f := FirstTop(t, j);
    } else {
      f := i;
      NoTopBefore(t, i);
    }
  }

  lemma NoTopBefore(t: Table, i: nat)
    requires Held(t) && i < |t.success| && forall j: nat :: j < i ==> Below(t, j)
    ensures TopLive(t, t.success[..i]) == {}
  {
    hide AtTheBar, Shaped;
    forall id | id in t.success[..i]
      ensures id in t.cons && EndsKnown(t.nics, t.cons[id]) && !AtTheBar(t, t.cons[id])
    {
      var j: nat :| j < i && t.success[j] == id;
      assert Below(t, j);
      BelowAt(t, j);
    }
  }

  lemma BelowAt(t: Table, j: nat)
    requires Held(t) && j < |t.success|
    ensures EndsKnown(t.nics, t.cons[t.success[j]]) && (Below(t, j) <==> !AtTheBar(t, t.cons[t.success[j]]))
  {
    hide AtTheBar;
  }

  /**
   Nothing is taken exactly if at most one connection is below the bar and all together are within the channel limit.
   */
  lemma ExcessNothing(t: Table, slots: nat)
    requires WF(t) && Held(t) && Agree(t) && slots >= 1 && NoneInRemoval(t)
    ensures Excess(t, slots).removed == [] <==>
      |BySpeed(t, t.success, false)| <= 1 && |t.success| <= t.maxChannels
  {
    hide WF, Agree, AtTheBar, Shaped, SpareIs, BySpeed, NoDup, Excess, Leaving, TopLive, SpareStays, Below,
      NoneInRemoval;
    var n := |t.success|;
    MaxChannelsPositive(t);
    ExcessTakes(t, slots);
    LeavingNone(t, n);
    AgreeNoDup(t);
    AllLive(t);
    SpareCounts(t);
    BelowIs(t);
    BySpeedSplits(t, n);
    assert t.success[..n] == t.success;
    if |BySpeed(t, t.success, false)| > 1 {
      TwoBelow(t);
      var i: nat :| i < n && Below(t, i) && !SpareIs(t, i);
      assert Leaves(t, i);
    } else {
      OneBelow(t);
      assert |BySpeed(t, t.success, false)| == SpareCount(t);
      if n > t.maxChannels {
        var i := SomeTop(t);
        var f := FirstTop(t, i);
        assert Leaves(t, f);
      }
    }
  }

  lemma SomeTop(t: Table) returns (i: nat)
    requires Held(t) && t.success != []
    ensures i < |t.success| && !Below(t, i)
  {
    hide AtTheBar, Fastest;
    BarIsTop(t);
    var id :| id in t.success && AtTheBar(t, t.cons[id]);
    i :| 0 <= i < |t.success| && t.success[i] == id;
  }

  lemma OneBelow(t: Table)
    requires Held(t) && NoDup(t.success) && |BySpeed(t, t.success, false)| <= 1
    ensures forall i: nat :: i < |t.success| && Below(t, i) ==> SpareIs(t, i)
  {
    hide AtTheBar, Shaped, SpareIs, BySpeed, Below;
    BelowIs(t);
    if |BySpeed(t, t.success, false)| == 1 {
      var l := SingleSpare(t);
    }
  }

  /** Of two connections below the bar one is not the spare. */
  lemma TwoBelow(t: Table)
    requires Held(t) && NoDup(t.success) && |BySpeed(t, t.success, false)| > 1
    ensures exists i: nat :: i < |t.success| && Below(t, i) && !SpareIs(t, i)
  {
    hide AtTheBar, Shaped, SpareIs, BySpeed, Below;
    BelowIs(t);
    var l := SortedSpare(t);
    var others := BySpeed(t, t.success, false) - {t.success[l]};
    assert |others| > 0;
    var id :| id in others;
    var i: nat :| i < |t.success| && t.success[i] == id;
    if SpareIs(t, i) { SpareUnique(t, i, l); }
  }
}
