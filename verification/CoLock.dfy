/**
 The re-entrant lock of a connection object. Threads interleave at single reads and writes of
 the shared fields; only the mutex itself is atomic.
 */
module CoLock {
  import opened Options

  type Tid = nat

  /** The next access of a thread. */
  datatype Pc =
    | Idle
      // taking the lock
    | TestGone | TestOwner | LoadUp | StoreUp(up: int)
    | Acquire | Recheck | Back | SetOwner | SetCount
      // giving it up
    | TestFree | TestMine | LoadTest | LoadDown | StoreDown(down: int)
    | Clear | Release

  /** `depth` is how many times the thread has the lock: it is bookkeeping of the model. */
  datatype Thread = Thread(pc: Pc, depth: nat)

  datatype State = State(mutex: Option<Tid>, owner: Option<Tid>, count: int, gone: bool, threads: seq<Thread>)

  datatype Event = Lock(t: Tid) | Unlock(t: Tid) | Run(t: Tid) | Teardown

  function Fresh(n: nat): State {
    State(None, None, 0, false, seq(n, i => Thread(Idle, 0)))
  }

  function Goto(s: State, t: Tid, pc: Pc): State
    requires t < |s.threads|
  {
    s.(threads := s.threads[t := s.threads[t].(pc := pc)])
  }

  function Deepen(s: State, t: Tid, depth: nat): State
    requires t < |s.threads|
  {
    s.(threads := s.threads[t := s.threads[t].(depth := depth)])
  }

  function Less(depth: nat): nat {
    if depth == 0 then 0 else depth - 1
  }

  /** One access of thread `t`; a thread that waits for the mutex does not move. */
  function Access(s: State, t: Tid): State
    requires t < |s.threads|
  {
    var th := s.threads[t];
    match th.pc
    case Idle => s
    case TestGone => Goto(s, t, if s.gone then Idle else TestOwner)
    case TestOwner => Goto(s, t, if s.owner == Some(t) then LoadUp else Acquire)
    case LoadUp => Goto(s, t, StoreUp(s.count))
    case StoreUp(v) => Deepen(Goto(s.(count := v + 1), t, Idle), t, th.depth + 1)
    case Acquire => if s.mutex.None? then Goto(s.(mutex := Some(t)), t, Recheck) else s
    case Recheck => Goto(s, t, if s.gone then Back else SetOwner)
    case Back => Goto(s.(mutex := None), t, Idle)
    case SetOwner => Goto(s.(owner := Some(t)), t, SetCount)
    case SetCount => Deepen(Goto(s.(count := 1), t, Idle), t, 1)
    case TestFree => Goto(s, t, if s.owner.None? then LoadTest else TestMine)
    case TestMine => Goto(s, t, if s.owner == Some(t) then LoadTest else Idle)
    case LoadTest => Goto(s, t, if s.count != 0 then LoadDown else Idle)
    case LoadDown => Goto(s, t, StoreDown(s.count))
    case StoreDown(v) => Deepen(Goto(s.(count := v - 1), t, if v == 1 then Clear else Idle), t, Less(th.depth))
    case Clear => Goto(s.(owner := None), t, Release)
    case Release => Goto(s.(mutex := None), t, Idle)
  }

  function Next(s: State, e: Event): State {
    match e
    case Teardown => s.(gone := true)
    case Lock(t) => if t < |s.threads| && s.threads[t].pc.Idle? then Goto(s, t, TestGone) else s
    case Unlock(t) => if t < |s.threads| && s.threads[t].pc.Idle? then Goto(s, t, TestFree) else s
    case Run(t) => if t < |s.threads| then Access(s, t) else s
  }

  // ----- What holds -----

  predicate Entering(pc: Pc) {
    pc.Recheck? || pc.Back? || pc.SetOwner? || pc.SetCount?
  }

  predicate Leaving(pc: Pc) {
    pc.Clear? || pc.Release?
  }

  /** The thread is between getting the mutex and giving it back. */
  predicate Inside(th: Thread) {
    th.depth > 0 || Entering(th.pc) || Leaving(th.pc)
  }

  predicate Named(th: Thread) {
    th.depth > 0 || th.pc.SetCount? || th.pc.Clear?
  }

  /** What the position of a thread says of its depth. */
  predicate Placed(th: Thread) {
    match th.pc
    case LoadUp => th.depth > 0
    case StoreUp(v) => th.depth > 0 && v == th.depth
    case LoadDown => th.depth > 0
    case StoreDown(v) => th.depth > 0 && v == th.depth
    case Acquire => th.depth == 0
    case Recheck => th.depth == 0
    case Back => th.depth == 0
    case SetOwner => th.depth == 0
    case SetCount => th.depth == 0
    case Clear => th.depth == 0
    case Release => th.depth == 0
    case _ => true
  }

  predicate Sound(s: State, t: Tid)
    requires t < |s.threads|
  {
    var th := s.threads[t];
    && Placed(th)
    && (s.mutex == Some(t) <==> Inside(th))
    && (s.owner == Some(t) <==> Named(th))
    && (th.depth > 0 ==> s.count == th.depth)
  }

  predicate Inv(s: State) {
    && (forall t :: 0 <= t < |s.threads| ==> Sound(s, t))
    && (s.mutex.Some? ==> s.mutex.value < |s.threads|)
    && (s.owner.Some? ==> s.owner.value < |s.threads|)
    && (s.count != 0 ==> s.owner.Some? && s.threads[s.owner.value].depth > 0)
  }

  /** A thread that does not hold the lock is about to find a count that is not its own. */
  predicate Harmful(s: State, e: Event) {
    e.Run? && e.t < |s.threads| && s.threads[e.t] == Thread(LoadTest, 0) && s.count != 0
  }

  lemma FreshInv(n: nat)
    ensures Inv(Fresh(n))
  {
  }

  /** An access of `t` leaves every other thread sound. */
  lemma OthersSound(s: State, t: Tid, u: Tid)
    requires Inv(s) && t < |s.threads| && u < |s.threads| && u != t
    requires !Harmful(s, Run(t))
    ensures |Access(s, t).threads| == |s.threads| && Sound(Access(s, t), u)
  {
    assert Sound(s, t) && Sound(s, u);
  }

  predicate Taking(pc: Pc) {
    Entering(pc) || pc.Acquire? || pc.TestGone? || pc.TestOwner? || pc.LoadUp? || pc.StoreUp?
  }

  lemma TakerSound(s: State, t: Tid)
    requires Inv(s) && t < |s.threads| && Taking(s.threads[t].pc)
    ensures |Access(s, t).threads| == |s.threads| && Sound(Access(s, t), t)
  {
    assert Sound(s, t);
    assert s.owner.Some? ==> Sound(s, s.owner.value);
  }

  lemma GiverSound(s: State, t: Tid)
    requires Inv(s) && t < |s.threads| && !Taking(s.threads[t].pc)
    requires !Harmful(s, Run(t))
    ensures |Access(s, t).threads| == |s.threads| && Sound(Access(s, t), t)
  {
    assert Sound(s, t);
  }

  lemma CountSound(s: State, t: Tid)
    requires Inv(s) && t < |s.threads|
    requires !Harmful(s, Run(t))
    ensures var n := Access(s, t);
      && (n.mutex.Some? ==> n.mutex.value < |n.threads|)
      && (n.owner.Some? ==> n.owner.value < |n.threads|)
      && (n.count != 0 ==> n.owner.Some? && n.threads[n.owner.value].depth > 0)
  {
    assert Sound(s, t);
    assert s.owner.Some? ==> Sound(s, s.owner.value);
  }

  lemma CallKeeps(s: State, e: Event)
    requires Inv(s) && !e.Run?
    ensures Inv(Next(s, e))
  {
    var n := Next(s, e);
    forall u | 0 <= u < |n.threads|
      ensures Sound(n, u)
    {
      assert Sound(s, u);
    }
  }

  lemma StrayBreaks(s: State, e: Event)
    requires Inv(s) && Harmful(s, e)
    ensures !Inv(Next(s, e))
  {
    assert !Sound(Next(s, e), e.t);
  }

  /** One access keeps the lock exactly when it is not the stray one. */
  lemma StepKeeps(s: State, e: Event)
    requires Inv(s)
    ensures Inv(Next(s, e)) <==> !Harmful(s, e)
  {
    hide Access, Sound;
    if Harmful(s, e) {
      StrayBreaks(s, e);
    } else if !e.Run? {
      CallKeeps(s, e);
    } else if e.t < |s.threads| {
      if Taking(s.threads[e.t].pc) {
        TakerSound(s, e.t);
      } else {
        GiverSound(s, e.t);
      }
      CountSound(s, e.t);
      forall u | 0 <= u < |s.threads| && u != e.t
        ensures Sound(Access(s, e.t), u)
      {
        OthersSound(s, e.t, u);
      }
    }
  }

  // ----- Whole runs -----

  /** The state after the first `k` events. */
  function After(n: nat, run: seq<Event>, k: nat): State
    requires k <= |run|
  {
    if k == 0 then Fresh(n) else Next(After(n, run, k - 1), run[k - 1])
  }

  ghost predicate Harmless(n: nat, run: seq<Event>) {
    forall k :: 0 <= k < |run| ==> !Harmful(After(n, run, k), run[k])
  }

  lemma {:induction false} KeptUpTo(n: nat, run: seq<Event>, k: nat)
    requires k <= |run|
    requires forall j :: 0 <= j < k ==> !Harmful(After(n, run, j), run[j])
    ensures Inv(After(n, run, k))
  {
    hide Inv, Next;
    if k == 0 {
      FreshInv(n);
    } else {
      KeptUpTo(n, run, k - 1);
      StepKeeps(After(n, run, k - 1), run[k - 1]);
    }
  }

  ghost predicate SoundThroughout(n: nat, run: seq<Event>) {
    forall k :: 0 <= k <= |run| ==> Inv(After(n, run, k))
  }

  /** For every interleaving of any number of threads, the lock is sound throughout exactly
      when no stray unlock gets past the count test. */
  lemma RunSound(n: nat, run: seq<Event>)
    ensures SoundThroughout(n, run) <==> Harmless(n, run)
  {
    hide Inv, Next, Harmful;
    if Harmless(n, run) {
      forall k | 0 <= k <= |run|
        ensures Inv(After(n, run, k))
      {
        KeptUpTo(n, run, k);
      }
    }
    if SoundThroughout(n, run) {
      forall k | 0 <= k < |run|
        ensures !Harmful(After(n, run, k), run[k])
      {
        assert Inv(After(n, run, k)) && Inv(After(n, run, k + 1));
        StepKeeps(After(n, run, k), run[k]);
      }
    }
  }

  // ----- Unlocks called only by the thread that has the lock -----

  predicate Unlocking(pc: Pc) {
    pc.TestFree? || pc.TestMine? || pc.LoadTest?
  }

  predicate Earned(th: Thread) {
    Unlocking(th.pc) ==> th.depth > 0
  }

  /** The caller of unlock has the lock. */
  predicate Rightful(s: State, e: Event) {
    e.Unlock? && e.t < |s.threads| ==> s.threads[e.t].depth > 0
  }

  ghost predicate Disciplined(n: nat, run: seq<Event>) {
    forall k :: 0 <= k < |run| ==> Rightful(After(n, run, k), run[k])
  }

  predicate AllEarned(s: State) {
    forall t :: 0 <= t < |s.threads| ==> Earned(s.threads[t])
  }

  lemma MoverEarned(s: State, t: Tid)
    requires t < |s.threads| && Earned(s.threads[t])
    ensures |Access(s, t).threads| == |s.threads| && Earned(Access(s, t).threads[t])
    ensures forall u :: 0 <= u < |s.threads| && u != t ==> Access(s, t).threads[u] == s.threads[u]
  {
  }

  lemma EarnedKept(s: State, e: Event)
    requires Rightful(s, e) && AllEarned(s)
    ensures AllEarned(Next(s, e))
  {
    hide Access;
    if e.Run? && e.t < |s.threads| {
      MoverEarned(s, e.t);
    }
  }

  lemma {:induction false} EarnedUpTo(n: nat, run: seq<Event>, k: nat)
    requires k <= |run| && Disciplined(n, run)
    ensures AllEarned(After(n, run, k))
  {
    hide Next;
    if k > 0 {
      EarnedUpTo(n, run, k - 1);
      assert Rightful(After(n, run, k - 1), run[k - 1]);
      EarnedKept(After(n, run, k - 1), run[k - 1]);
    }
  }

  /** If only holders unlock, the lock is sound in every state of every interleaving. */
  lemma DisciplinedSound(n: nat, run: seq<Event>)
    requires Disciplined(n, run)
    ensures SoundThroughout(n, run)
  {
    hide After, SoundThroughout, Disciplined;
    forall k | 0 <= k < |run|
      ensures !Harmful(After(n, run, k), run[k])
    {
      EarnedUpTo(n, run, k);
      var s := After(n, run, k);
      assert run[k].Run? && run[k].t < |s.threads| ==> Earned(s.threads[run[k].t]);
    }
    RunSound(n, run);
  }

  // ----- What soundness means -----

  /** At most one thread is inside; a thread with the lock is its owner and the count is its
      nesting depth; and it never waits for the mutex it has. */
  lemma SoundMeans(s: State, t: Tid, u: Tid)
    requires Inv(s) && t < |s.threads| && u < |s.threads|
    ensures Inside(s.threads[t]) && Inside(s.threads[u]) ==> t == u
    ensures s.threads[t].depth > 0 ==>
      && s.owner == Some(t) && s.count == s.threads[t].depth && !s.threads[t].pc.Acquire?
    ensures s.threads[t].depth == 0 && s.owner == Some(t) ==> s.threads[t].pc.SetCount? || s.threads[t].pc.Clear?
    ensures s.owner.None? ==> s.count == 0
  {
    assert Sound(s, t) && Sound(s, u);
  }

  /** The thread has called unlock without having the lock. */
  predicate Straying(th: Thread) {
    th.depth == 0 && Unlocking(th.pc)
  }

  predicate SameLock(s: State, s': State) {
    s.mutex == s'.mutex && s.owner == s'.owner && s.count == s'.count && s.gone == s'.gone
  }

  /** The unlock of a thread that has nothing to unlock changes nothing, access by access. */
  lemma StrayChangesNothing(s: State, t: Tid)
    requires Inv(s) && t < |s.threads| && Straying(s.threads[t]) && !Harmful(s, Run(t))
    ensures SameLock(s, Access(s, t))
    ensures var th := Access(s, t).threads[t]; th.pc.Idle? || Straying(th)
    ensures forall u :: 0 <= u < |s.threads| && u != t ==> Access(s, t).threads[u] == s.threads[u]
  {
    assert Sound(s, t);
  }

  function Alone(s: State, t: Tid, k: nat): State
    requires t < |s.threads|
    ensures |Alone(s, t, k).threads| == |s.threads|
  {
    if k == 0 then s else Access(Alone(s, t, k - 1), t)
  }

  /** If no other thread moves meanwhile, a stray unlock ends with the state as it was. */
  lemma StrayAlone(s: State, t: Tid)
    requires Inv(s) && t < |s.threads| && s.threads[t] == Thread(Idle, 0)
    ensures Alone(Next(s, Unlock(t)), t, 3) == s
  {
    assert Sound(s, t);
    var s0 := Next(s, Unlock(t));
    var s1 := Access(s0, t);
    var s2 := Access(s1, t);
    var s3 := Access(s2, t);
    assert Alone(s0, t, 1) == s1;
    assert Alone(s0, t, 2) == s2;
    assert s3.threads == s.threads;
  }

  /** If the lock is taken between the two tests, the stray unlock takes one level away from
      the thread that has it. */
  lemma StrayRobs(s: State, t: Tid)
    requires Inv(s) && Harmful(s, Run(t))
    ensures s.owner.Some? && s.owner.value != t
    ensures var n := Alone(s, t, 3);
      var holder := s.owner.value;
      && n.threads[holder] == s.threads[holder]
      && n.count == n.threads[holder].depth - 1
  {
    var h := s.owner.value;
    assert Sound(s, h);
    var s1 := Access(s, t);
    var s2 := Access(s1, t);
    var s3 := Access(s2, t);
    assert Alone(s, t, 1) == s1;
    assert Alone(s, t, 2) == s2;
  }

  /** Whoever has the lock is its owner, as many times as the count says. */
  predicate OwnerCount(s: State) {
    forall t :: 0 <= t < |s.threads| && s.threads[t].depth > 0 ==> s.owner == Some(t) && s.count == s.threads[t].depth
  }

  /** Whenever a thread moves in the run, owner and count are right however far it then goes on alone. */
  ghost predicate OwnedThroughout(n: nat, run: seq<Event>) {
    forall k, j: nat :: 0 <= k < |run| && run[k].Run? && run[k].t < |After(n, run, k).threads| ==>
      OwnerCount(Alone(After(n, run, k), run[k].t, j))
  }

  lemma InvOwnerCount(s: State)
    requires Inv(s)
    ensures OwnerCount(s)
  {
    forall t | 0 <= t < |s.threads| && s.threads[t].depth > 0
      ensures s.owner == Some(t) && s.count == s.threads[t].depth
    {
      assert Sound(s, t);
    }
  }

  /** After an access of its own that did no harm a thread is never about to do harm. */
  lemma NeverAtOnce(s: State, t: Tid)
    requires Inv(s) && t < |s.threads| && !Harmful(s, Run(t))
    ensures |Access(s, t).threads| == |s.threads| && !Harmful(Access(s, t), Run(t))
  {
    assert Sound(s, t);
  }

  lemma {:induction false} AloneKeeps(s: State, t: Tid, j: nat)
    requires Inv(s) && t < |s.threads| && !Harmful(s, Run(t))
    ensures Inv(Alone(s, t, j)) && !Harmful(Alone(s, t, j), Run(t))
  {
    hide Inv, Harmful, Access;
    if j > 0 {
      AloneKeeps(s, t, j - 1);
      StepKeeps(Alone(s, t, j - 1), Run(t));
      NeverAtOnce(Alone(s, t, j - 1), t);
    }
  }

  lemma {:induction false} OwnedHarmless(n: nat, run: seq<Event>, k: nat)
    requires k <= |run| && OwnedThroughout(n, run)
    ensures forall j :: 0 <= j < k ==> !Harmful(After(n, run, j), run[j])
  {
    hide After, Inv, Alone, Access;
    if k > 0 {
      OwnedHarmless(n, run, k - 1);
      KeptUpTo(n, run, k - 1);
      var s, e := After(n, run, k - 1), run[k - 1];
      if Harmful(s, e) {
        RobbedMiscounts(s, e.t);
      }
    }
  }

  lemma RobbedMiscounts(s: State, t: Tid)
    requires Inv(s) && Harmful(s, Run(t))
    ensures !OwnerCount(Alone(s, t, 3))
  {
    hide Alone, Access, Sound;
    StrayRobs(s, t);
  }

  /**
   For every interleaving of any number of threads, owner and count are right throughout, also
   when the thread that moves goes on alone, exactly when no stray unlock gets past the count test.
   */
  lemma RunOwned(n: nat, run: seq<Event>)
    ensures OwnedThroughout(n, run) <==> Harmless(n, run)
  {
    hide After, Inv, Alone, Next, Harmful, OwnerCount;
    if Harmless(n, run) {
      forall k, j: nat | 0 <= k < |run| && run[k].Run? && run[k].t < |After(n, run, k).threads|
        ensures OwnerCount(Alone(After(n, run, k), run[k].t, j))
      {
        KeptUpTo(n, run, k);
        assert !Harmful(After(n, run, k), run[k]);
        AloneKeeps(After(n, run, k), run[k].t, j);
        InvOwnerCount(Alone(After(n, run, k), run[k].t, j));
      }
    }
    if OwnedThroughout(n, run) {
      OwnedHarmless(n, run, |run|);
    }
  }

  /** Two threads: the first tests the owner while the lock is free, the second takes the
      lock, the first goes on. */
  function StrayRun(): (run: seq<Event>)
    ensures |run| == 12
  {
    [Unlock(0), Run(0), Lock(1), Run(1), Run(1), Run(1), Run(1), Run(1), Run(1), Run(0), Run(0), Run(0)]
  }

  /** The second thread has the lock once, and the count is zero. */
  lemma StrayExample()
    ensures var s := After(2, StrayRun(), 12);
      |s.threads| == 2 && s.threads[1].depth == 1 && s.owner == Some(1) && s.count == 0
  {
    hide After;
    var run, held := StrayRun(), Thread(Idle, 1);
    StrayWaits(run);
    LockTaken(run);
    var s9 := After(2, run, 9);
    var s10 := AfterOne(run, 9, s9, [Thread(LoadDown, 0), held]);
    var s11 := AfterOne(run, 10, s10, [Thread(StoreDown(1), 0), held]);
    var s12 := AfterOne(run, 11, s11.(count := 0), [Thread(Clear, 0), held]);
  }

  lemma StrayWaits(run: seq<Event>)
    requires StrayRun() <= run
    ensures After(2, run, 5) == State(None, None, 0, false, [Thread(LoadTest, 0), Thread(Acquire, 0)])
  {
    hide After;
    var idle, stray := Thread(Idle, 0), Thread(LoadTest, 0);
    var s0 := State(None, None, 0, false, [idle, idle]);
    AfterNone(run);
    var s1 := AfterOne(run, 0, s0, [Thread(TestFree, 0), idle]);
    var s2 := AfterOne(run, 1, s1, [stray, idle]);
    var s3 := AfterOne(run, 2, s2, [stray, Thread(TestGone, 0)]);
    var s4 := AfterOne(run, 3, s3, [stray, Thread(TestOwner, 0)]);
    var s5 := AfterOne(run, 4, s4, [stray, Thread(Acquire, 0)]);
  }

  lemma LockTaken(run: seq<Event>)
    requires StrayRun() <= run
    requires After(2, run, 5) == State(None, None, 0, false, [Thread(LoadTest, 0), Thread(Acquire, 0)])
    ensures After(2, run, 9) == State(Some(1), Some(1), 1, false, [Thread(LoadTest, 0), Thread(Idle, 1)])
  {
    hide After;
    var stray := Thread(LoadTest, 0);
    var s5 := After(2, run, 5);
    var s6 := AfterOne(run, 5, s5.(mutex := Some(1)), [stray, Thread(Recheck, 0)]);
    var s7 := AfterOne(run, 6, s6, [stray, Thread(SetOwner, 0)]);
    var s8 := AfterOne(run, 7, s7.(owner := Some(1)), [stray, Thread(SetCount, 0)]);
    var s9 := AfterOne(run, 8, s8.(count := 1), [stray, Thread(Idle, 1)]);
  }

  lemma AfterNone(run: seq<Event>)
    ensures After(2, run, 0) == State(None, None, 0, false, [Thread(Idle, 0), Thread(Idle, 0)])
  {
  }

  lemma AfterOne(run: seq<Event>, k: nat, shared: State, threads: seq<Thread>) returns (s: State)
    requires k < |run| && Next(After(2, run, k), run[k]) == shared.(threads := threads)
    ensures s == shared.(threads := threads) && After(2, run, k + 1) == s
  {
    s := shared.(threads := threads);
  }

  // ----- Waiting for the lock before a teardown -----

  /** A teardown waits while the count is above zero, and goes on when it is not. */
  predicate DrainPasses(s: State) {
    s.gone && s.count <= 0
  }

  /** The thread has found the object not gone under the mutex, and has not set the count yet. */
  predicate Admitted(th: Thread) {
    th.pc.SetOwner? || th.pc.SetCount?
  }

  predicate NobodyHas(s: State) {
    forall t :: 0 <= t < |s.threads| ==> s.threads[t].depth == 0
  }

  predicate NoneAdmitted(s: State) {
    forall t :: 0 <= t < |s.threads| ==> !Admitted(s.threads[t])
  }

  /** When the teardown goes on nobody has the lock, and nobody is inside exactly if the mutex is free. */
  lemma DrainMeans(s: State)
    requires Inv(s) && DrainPasses(s)
    ensures NobodyHas(s)
    ensures (forall t :: 0 <= t < |s.threads| ==> !Inside(s.threads[t])) <==> s.mutex.None?
  {
    forall t | 0 <= t < |s.threads|
      ensures s.threads[t].depth == 0 && (Inside(s.threads[t]) <==> s.mutex == Some(t))
    {
      assert Sound(s, t);
    }
  }

  /** The state after the first `k` events from `s`. */
  function From(s: State, run: seq<Event>, k: nat): State
    requires k <= |run|
  {
    if k == 0 then s else Next(From(s, run, k - 1), run[k - 1])
  }

  /** Nobody has the lock, and nobody is on the way to having it. */
  predicate Deserted(s: State) {
    && s.gone
    && (forall t :: 0 <= t < |s.threads| ==>
      var th := s.threads[t];
      && th.depth == 0 && !Admitted(th) && !th.pc.LoadUp? && !th.pc.StoreUp?
      && (s.owner == Some(t) ==> th.pc.Clear?))
  }

  lemma DrainDeserts(s: State)
    requires Inv(s) && DrainPasses(s) && NoneAdmitted(s)
    ensures Deserted(s)
  {
    DrainMeans(s);
    forall t | 0 <= t < |s.threads|
      ensures var th := s.threads[t]; !th.pc.LoadUp? && !th.pc.StoreUp? && (s.owner == Some(t) ==> th.pc.Clear?)
    {
      assert Sound(s, t) && !Admitted(s.threads[t]);
    }
  }

  lemma DesertedStays(s: State, e: Event)
    requires Deserted(s)
    ensures Deserted(Next(s, e))
  {
    var n := Next(s, e);
    assert |n.threads| == |s.threads|;
    forall t | 0 <= t < |n.threads|
      ensures var th := n.threads[t];
        && th.depth == 0 && !Admitted(th) && !th.pc.LoadUp? && !th.pc.StoreUp?
        && (n.owner == Some(t) ==> th.pc.Clear?)
    {
      assert s.threads[t].depth == 0;
      if e.Run? && e.t < |s.threads| { assert s.threads[e.t].depth == 0; }
    }
  }

  lemma {:induction false} DesertedFrom(s: State, run: seq<Event>, k: nat)
    requires Deserted(s) && k <= |run|
    ensures Deserted(From(s, run, k))
  {
    hide Next, Deserted;
    if k > 0 {
      DesertedFrom(s, run, k - 1);
      DesertedStays(From(s, run, k - 1), run[k - 1]);
    }
  }

  /** Whatever happens after the teardown goes on, nobody ever has the lock again. */
  ghost predicate NeverHad(s: State) {
    forall run: seq<Event>, k: nat :: k <= |run| ==> NobodyHas(From(s, run, k))
  }

  lemma AdmittedHas(s: State, t: Tid)
    requires t < |s.threads| && Admitted(s.threads[t])
    ensures !NeverHad(s)
  {
    var run := [Run(t), Run(t)];
    var s1 := Next(s, Run(t));
    var s2 := Next(s1, Run(t));
    assert From(s, run, 0) == s;
    assert From(s, run, 1) == s1;
    assert From(s, run, 2) == s2;
    if s.threads[t].pc.SetCount? {
      assert s1.threads[t].depth == 1;
    } else {
      assert s2.threads[t].depth == 1;
    }
  }

  /**
   A teardown that waited for the lock is alone from then on, in every continuation, exactly if no
   thread was between its second look at the gone mark and the setting of the count.
   */
  lemma DrainAlone(s: State)
    requires Inv(s) && DrainPasses(s)
    ensures NeverHad(s) <==> NoneAdmitted(s)
  {
    hide Inv, Next, From, Deserted, NeverHad, Admitted;
    if NoneAdmitted(s) {
      DrainDeserts(s);
      DesertedNever(s);
    } else {
      var t :| 0 <= t < |s.threads| && Admitted(s.threads[t]);
      AdmittedHas(s, t);
    }
  }

  lemma DesertedNever(s: State)
    requires Deserted(s)
    ensures NeverHad(s)
  {
    hide Next, From;
    forall run: seq<Event>, k: nat | k <= |run|
      ensures NobodyHas(From(s, run, k))
    {
      DesertedFrom(s, run, k);
    }
  }

  /** A thread takes the mutex and finds the object not gone; the object is marked gone; the count is still zero. */
  function AdmittedRun(): (run: seq<Event>)
    ensures |run| == 6
  {
    [Lock(0), Run(0), Run(0), Run(0), Run(0), Teardown]
  }

  lemma DrainExample()
    ensures var s := After(1, AdmittedRun(), 6);
      Inv(s) && DrainPasses(s) && s.mutex == Some(0) && !NoneAdmitted(s)
  {
    var run := AdmittedRun();
    var s0 := State(None, None, 0, false, [Thread(Idle, 0)]);
    assert Fresh(1).threads == [Thread(Idle, 0)];
    assert After(1, run, 0) == s0;
    assert After(1, run, 1) == s0.(threads := [Thread(TestGone, 0)]);
    assert After(1, run, 2) == s0.(threads := [Thread(TestOwner, 0)]);
    assert After(1, run, 3) == s0.(threads := [Thread(Acquire, 0)]);
    assert After(1, run, 4) == s0.(mutex := Some(0), threads := [Thread(Recheck, 0)]);
    assert After(1, run, 5) == s0.(mutex := Some(0), threads := [Thread(SetOwner, 0)]);
    var s := After(1, run, 6);
    assert s == s0.(mutex := Some(0), gone := true, threads := [Thread(SetOwner, 0)]);
    assert Admitted(s.threads[0]);
  }
}
