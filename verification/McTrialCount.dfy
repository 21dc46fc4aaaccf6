/**
 The counter of open trials over whole runs.
 */
module McTrialCount {
  import opened McTypes
  import opened McReport
  import opened McTrial
  import opened McExcess
  import opened McNotifier
  import opened McNics
  import opened McRuns

  /** The pairs handed out by a step. */
  ghost function HandedOut(t: Table, s: Step): seq<ConId>
    requires WF(t) && Shaped(t)
  {
    if s.AskTrials? then Ask(t, s.slots).pairs else []
  }

  lemma ExcessSteady(t: Table, slots: nat)
    requires WF(t) && Held(t) && slots >= 1
    ensures Steady(t, Excess(t, slots).t)
  {
    hide WF, Excess, Held;
    ExcessFrame(t, slots);
  }

  /** What a step does to the counter: a request adds one per pair handed out, a report takes one
      off, nothing else touches it. */
  lemma StepCounts(t: Table, s: Step)
    requires WF(t) && Shaped(t) && t.trials < UINT32
    ensures Next(t, s).maxChannels == t.maxChannels
    ensures Next(t, s).trials ==
            if s.ReportTrial? && s.id in t.cons then Decrement(t.trials) else (t.trials + |HandedOut(t, s)|) % UINT32
    ensures s.AskTrials? && HandedOut(t, s) != [] ==> t.trials <= t.maxChannels && |HandedOut(t, s)| <= s.slots
  {
    hide WF, Excess, Update, Ask, ResetTo, AddClients, MainChannel, Report, Disconnect, NotifiedNics, AnsweredNics,
      TrialFrame;
    if s.CollectExcess? && Enabled(t, s) {
      ExcessSteady(t, s.slots);
    }
    if s.AskTrials? {
      AskHandsOutMatching(t, s.slots);
      AskSteady(t, s.slots);
      if t.trials > t.maxChannels { AskRefused(t, s.slots); }
    }
  }

  lemma AskSteady(t: Table, slots: nat)
    requires WF(t) && Shaped(t) && TurnDoes(t, Ask(t, slots).t, Ask(t, slots).pairs) && t.trials < UINT32
    ensures Ask(t, slots).t.maxChannels == t.maxChannels
    ensures Ask(t, slots).t.trials == (t.trials + |Ask(t, slots).pairs|) % UINT32
  {
    hide WF, Ask;
  }

  /** The trials handed out by the first `n` steps and not reported by them. */
  ghost function Outstanding(states: seq<Table>, steps: seq<Step>, n: nat): multiset<ConId>
    requires IsRun(states, steps) && n <= |steps|
  {
    hide WF;
    if n == 0 then multiset{}
    else
      RunWellFormed(states, steps, n - 1);
      var s := steps[n - 1];
      Outstanding(states, steps, n - 1) - (if s.ReportTrial? then multiset{s.id} else multiset{})
      + multiset(HandedOut(states[n - 1], s))
  }

  /** Each report is for an outstanding trial of a pair of the table, and each request for at most `most` pairs. */
  ghost predicate Disciplined(states: seq<Table>, steps: seq<Step>, n: nat, most: nat)
    requires IsRun(states, steps) && n <= |steps|
  {
    forall i :: 0 <= i < n ==>
      && (steps[i].ReportTrial? ==> steps[i].id in states[i].cons && steps[i].id in Outstanding(states, steps, i))
      && (steps[i].AskTrials? ==> steps[i].slots <= most)
  }

  /**
   If each trial is reported once, the counter is the number of outstanding trials, and
   it never exceeds the channel limit plus the longest vector.
   */
  lemma {:induction false} CounterIsOutstanding(states: seq<Table>, steps: seq<Step>, n: nat, most: nat)
    requires IsRun(states, steps) && n <= |steps|
    requires states[0].maxChannels + most < UINT32 && Disciplined(states, steps, n, most)
    ensures states[n].maxChannels == states[0].maxChannels
    ensures states[n].trials == |Outstanding(states, steps, n)| <= states[0].maxChannels + most
  {
    hide WF, Shaped, Next, Init, Ask, Outstanding;
    if n == 0 {
      RunStarts(states, steps);
    } else {
      CounterIsOutstanding(states, steps, n - 1, most);
      RunWellFormed(states, steps, n - 1);
      RunSteps(states, steps, n - 1);
      StepCounts(states[n - 1], steps[n - 1]);
      OutstandingStep(states, steps, n);
    }
  }

  lemma RunStarts(states: seq<Table>, steps: seq<Step>)
    requires IsRun(states, steps)
    ensures states[0].trials == 0 && states[0].pause == 0 && Outstanding(states, steps, 0) == multiset{}
  {
  }

  lemma RunSteps(states: seq<Table>, steps: seq<Step>, i: nat)
    requires IsRun(states, steps) && i < |steps|
    ensures states[i + 1] == Next(states[i], steps[i])
  {
    hide Next, Init;
  }

  lemma OutstandingStep(states: seq<Table>, steps: seq<Step>, n: nat)
    requires IsRun(states, steps) && 0 < n <= |steps|
    requires steps[n - 1].ReportTrial? ==> steps[n - 1].id in Outstanding(states, steps, n - 1)
    ensures WF(states[n - 1]) && Shaped(states[n - 1])
    ensures |Outstanding(states, steps, n)| ==
            if steps[n - 1].ReportTrial? then |Outstanding(states, steps, n - 1)| - 1
            else |Outstanding(states, steps, n - 1)| + |HandedOut(states[n - 1], steps[n - 1])|
  {
    hide WF, Shaped, Ask, Next, Init;
    RunWellFormed(states, steps, n - 1);
    var o, s := Outstanding(states, steps, n - 1), steps[n - 1];
    assert Outstanding(states, steps, n) ==
      o - (if s.ReportTrial? then multiset{s.id} else multiset{}) + multiset(HandedOut(states[n - 1], s));
  }

  /** The counter stays below its range in every state of every run. */
  lemma {:induction false} RunCounter(states: seq<Table>, steps: seq<Step>, n: nat)
    requires IsRun(states, steps) && n <= |steps|
    ensures states[n].trials < UINT32
  {
    hide WF, Shaped, Next, Init, Ask;
    if n == 0 {
      RunStarts(states, steps);
    } else {
      RunCounter(states, steps, n - 1);
      RunWellFormed(states, steps, n - 1);
      RunSteps(states, steps, n - 1);
      StepCounts(states[n - 1], steps[n - 1]);
    }
  }

  // ----- Pausing -----

  /** How many more pauses than resumes there are in `steps[i..n]`. */
  function Balance(steps: seq<Step>, i: nat, n: nat): int
    requires i <= n <= |steps|
  {
    if i == n then 0
    else Balance(steps, i, n - 1) + if steps[n - 1].PauseTrials? then 1 else if steps[n - 1].ResumeTrials? then -1
      else 0
  }

  lemma StepPauses(t: Table, s: Step)
    requires WF(t) && Shaped(t) && t.trials < UINT32
    ensures Next(t, s).pause ==
      if s.PauseTrials? then (t.pause + 1) % UINT32 else if s.ResumeTrials? && t.pause > 0 then t.pause - 1 else t.pause
  {
    hide WF, Excess, Update, Ask, ResetTo, AddClients, MainChannel, Report, Disconnect, NotifiedNics, AnsweredNics;
    if s.CollectExcess? && Enabled(t, s) {
      ExcessSteady(t, s.slots);
    }
    if s.AskTrials? {
      AskPause(t, s.slots);
    }
  }

  lemma AskPause(t: Table, slots: nat)
    requires WF(t) && Shaped(t) && t.trials < UINT32
    ensures Ask(t, slots).t.pause == t.pause
  {
    hide WF, AskLoop, TrialsAre;
    AskEffect(t, slots, false);
  }

  lemma {:induction false} PauseIsBalance(states: seq<Table>, steps: seq<Step>, n: nat)
    requires IsRun(states, steps) && n <= |steps| && n < UINT32
    ensures states[n].pause <= n
    ensures forall i :: 0 <= i <= n ==> Balance(steps, i, n) <= states[n].pause
    ensures exists i :: 0 <= i <= n && Balance(steps, i, n) == states[n].pause
  {
    hide WF, Shaped, Next, Init;
    if n == 0 {
      RunStarts(states, steps);
      assert Balance(steps, 0, 0) == 0;
    } else {
      PauseIsBalance(states, steps, n - 1);
      RunWellFormed(states, steps, n - 1);
      RunSteps(states, steps, n - 1);
      RunCounter(states, steps, n - 1);
      StepPauses(states[n - 1], steps[n - 1]);
      var j :| 0 <= j <= n - 1 && Balance(steps, j, n - 1) == states[n - 1].pause;
      assert Balance(steps, n, n) == 0;
      assert Balance(steps, j, n) == states[n].pause || Balance(steps, n, n) == states[n].pause;
    }
  }

  /**
   Trials are paused `k` deep exactly when some last part of the run has `k` more pauses than
   resumes; a paused table hands out nothing and stays as it is.
   */
  lemma PausedHandsOutNothing(states: seq<Table>, steps: seq<Step>, n: nat, k: nat)
    requires IsRun(states, steps) && n <= |steps| && n < UINT32 && k > 0
    ensures states[n].pause >= k <==> exists i :: 0 <= i <= n && Balance(steps, i, n) >= k
    ensures WF(states[n]) && Shaped(states[n])
    ensures n < |steps| && steps[n].AskTrials? && states[n].pause > 0 ==>
      HandedOut(states[n], steps[n]) == [] && states[n + 1] == states[n]
  {
    hide WF, Shaped, Next, Init, Balance;
    PauseIsBalance(states, steps, n);
    RunWellFormed(states, steps, n);
    if n < |steps| && steps[n].AskTrials? && states[n].pause > 0 {
      RunSteps(states, steps, n);
      AskPaused(states[n], steps[n]);
    }
  }

  lemma AskPaused(t: Table, s: Step)
    requires WF(t) && Shaped(t) && s.AskTrials? && t.pause > 0
    ensures HandedOut(t, s) == [] && Next(t, s) == t
  {
    hide WF, AskLoop;
  }
}
