/**
 Runs of the public calls on one client and one server NIC that end in a state in which a
 property fails: the conditions of the theorems cannot be dropped.
 */
module McExamples {
  import opened Integers
  import opened Options
  import opened McTypes
  import opened McConList
  import opened McReport
  import opened McStats
  import opened McTrial
  import opened McExcess
  import opened McNotifier
  import opened McNics
  import opened McRuns
  import opened McSpeeds
  import opened McUpdates

  /** A wired interface with one address. */
  function Interface(index: uint32, caps: uint32, speed: nat): NicInfo {
    NicInfo(index, caps, speed, IFM_ETHER, V4(index))
  }

  function NicOf(index: nat, info: NicInfo): Nic {
    Nic(index, info.speed, info.caps, info.nicType, info.addr.V4?, !info.addr.V4?, false, [info.addr])
  }

  /** A step that is enabled leads on to a well-formed table. */
  lemma Follows(t: Table, s: Step)
    requires WF(t) && Shaped(t) && Enabled(t, s)
    ensures Next(t, s) == Perform(t, s) && WF(Perform(t, s)) && Shaped(Perform(t, s))
  {
    hide WF, Shaped, Perform, Enabled, NoIdleInUse;
    StepKeeps(t, s);
  }

  // ----- One client NIC and one server NIC -----

  function Empty(): Table {
    Init(4, 1, 1, [], false)
  }

  const CLIENT: Nic := Nic(1, 100, 0, IFM_ETHER, true, false, false, [V4(1)])
  const SERVER: Nic := Nic(7, 100, 0, IFM_ETHER, true, false, false, [V4(7)])

  function Loaded(): Table {
    Table(0, [0], [], map[0 := CLIENT], map[0 := Idle], map[0 := []], 4, 1, 1, [], false, [], map[], 0, [], 1)
  }

  function Single(cstate: NicState, sstate: NicState, pair: Con, trials: nat, success: seq<ConId>): Table {
    Table(0, [0], [1], map[0 := CLIENT, 1 := SERVER], map[0 := cstate, 1 := sstate], map[0 := [2], 1 := []],
          4, 1, 1, [], false, [2], map[2 := pair], trials, success, 3)
  }

  function Answered(): Table {
    Single(Idle, Idle, Con(Potential, Active, 0, None, 0, 1), 0, [])
  }

  lemma DescribedBlank(index: nat, info: NicInfo)
    ensures Described(BlankNic(index), info, false) == NicOf(index, info)
  {
    assert [] + [info.addr] == [info.addr];
  }

  /** A new NIC that is as fast as any goes to the front of its list. */
  lemma InsertFront(t: Table, nic: Nic, isClient: bool)
    requires Shaped(t) && forall n :: n in Side(t, isClient) ==> t.nics[n].speed <= nic.speed
    ensures InsertNic(t, nic, isClient) ==
      t.(clients := if isClient then [t.next] + t.clients else t.clients,
         servers := if isClient then t.servers else [t.next] + t.servers,
         nics := t.nics[t.next := nic], nicState := t.nicState[t.next := Idle],
         possible := t.possible[t.next := []], next := t.next + 1)
  {
    var list := Side(t, isClient);
    assert InsertAt(t.nics, list, nic.speed, 0) == 0;
    assert list[..0] + [t.next] + list[0..] == [t.next] + list;
  }

  /** A description of an unknown index makes a NIC at the front of the list. */
  lemma AddFront(t: Table, info: NicInfo, rss: nat, isClient: bool)
    requires Shaped(t) && forall n :: n in Side(t, isClient) ==>
      t.nics[n].speed <= info.speed && t.nics[n].index != CopyIndex(info, rss)
    ensures AddInfo(t, info, rss, false, isClient) ==
      t.(clients := if isClient then [t.next] + t.clients else t.clients,
         servers := if isClient then t.servers else [t.next] + t.servers,
         nics := t.nics[t.next := NicOf(CopyIndex(info, rss), info)], nicState := t.nicState[t.next := Idle],
         possible := t.possible[t.next := []], next := t.next + 1)
  {
    hide InsertNic, Described, InsertAt, Inserted;
    DescribedBlank(CopyIndex(info, rss), info);
    InsertFront(t, NicOf(CopyIndex(info, rss), info), isClient);
  }

  /** One description that stands for one NIC. */
  lemma LoadOne(t: Table, info: NicInfo)
    requires Shaped(t) && !RssCapable(info) && t.ignoreList == []
    ensures AddClients(t, [info], false, 1) == AddInfo(t, info, 0, false, true)
    ensures AddServers(t, [info], 1, 1) == AddInfo(t, info, 0, false, false)
  {
    hide AddInfo;
    assert AddClients(t, [info], false, 0) == t && AddServers(t, [info], 1, 0) == t;
    CopiesOne(t, info, true);
    CopiesOne(t, info, false);
  }

  lemma CopiesOne(t: Table, info: NicInfo, isClient: bool)
    requires Shaped(t)
    ensures AddCopies(t, info, false, isClient, 1) == AddInfo(t, info, 0, false, isClient)
  {
    hide AddInfo;
    assert AddCopies(t, info, false, isClient, 0) == t;
  }

  lemma LoadStep()
    ensures WF(Empty()) && Shaped(Empty()) && AddClients(Empty(), [Interface(1, 0, 100)], false, 1) == Loaded()
  {
    hide AddInfo, AddClients, WF;
    InitWF(4, 1, 1, [], false);
    LoadOne(Empty(), Interface(1, 0, 100));
    AddFront(Empty(), Interface(1, 0, 100), 0, true);
    assert [0] + Empty().clients == [0];
  }

  lemma AnswerIs(t: Table)
    requires t.srvrRss == 1
    ensures AnsweredNics(t, QueryAnswer([Interface(7, 0, 100)])) == [SERVER]
  {
    hide AddInfo, AddServers;
    var e := Init(0, 0, 0, [], false);
    InitWF(0, 0, 0, [], false);
    LoadOne(e, Interface(7, 0, 100));
    AddFront(e, Interface(7, 0, 100), 0, false);
    assert [0] + e.servers == [0];
  }

  /** A new server NIC beside the client NIC: one potential pair. */
  lemma AnswerStep()
    ensures Shaped(Loaded()) && Update(Loaded(), [SERVER], false) == Answered()
  {
    hide InsertNic, Completed, DropTo;
    var t := Loaded();
    InsertFront(t, SERVER, false);
    assert [1] + t.servers == [1];
    var t1 := t.(servers := [1], nics := t.nics[1 := SERVER], nicState := t.nicState[1 := Idle],
      possible := t.possible[1 := []], next := 2);
    assert UpdateTo(t, [SERVER], false, 0) == t;
    assert UpdateTo(t, [SERVER], false, 1) == t1;
    CompleteSingle(t1);
    KeepSingle(Answered());
  }

  lemma CompleteSingle(t: Table)
    requires t == Answered().(conList := [], cons := map[], possible := map[0 := [], 1 := []], next := 2)
    ensures Shaped(t) && Completed(t) == Answered()
  {
    assert Rows(t, 0) == t;
    assert Row(t, 0, 0) == t;
    assert TouchPair(t, 0, 1) == NewPair(t, 0, 1);
    assert [] + [2] == [2];
    assert NewPair(t, 0, 1) == Answered();
  }

  lemma KeepSingle(t: Table)
    requires t == Answered()
    ensures DropTo(t, [1], false, 1) == t
  {
    assert 2 in PairsOf(t, 1, false);
    assert DropTo(t, [1], false, 0) == t;
  }

  const LOAD: Step := LoadClients([Interface(1, 0, 100)], false)
  const ANSWER: Step := QueryAnswer([Interface(7, 0, 100)])

  /** The client's NIC is loaded and the server's NIC is announced. */
  lemma SingleStarts()
    ensures Next(Empty(), LOAD) == Loaded() && Next(Loaded(), ANSWER) == Answered()
    ensures WF(Answered()) && Shaped(Answered())
  {
    hide WF, Shaped, AddClients, Update, AnsweredNics;
    LoadStep();
    Follows(Empty(), LOAD);
    AnswerIs(Loaded());
    AnswerStep();
    Follows(Loaded(), ANSWER);
  }

  /** A second client NIC, not yet paired. */
  function Joined(): Table {
    Answered().(clients := [3, 0], nics := Answered().nics[3 := NicOf(2, Interface(2, 0, 100))],
                nicState := map[0 := Idle, 1 := Idle, 3 := Idle], possible := map[0 := [2], 1 := [], 3 := []],
                  next := 4)
  }

  lemma JoinStep()
    requires WF(Answered()) && Shaped(Answered())
    ensures WF(Joined()) && Shaped(Joined()) && Next(Answered(), LoadClients([Interface(2, 0, 100)], false)) == Joined()
  {
    hide WF, AddInfo, AddClients;
    var t, info := Answered(), Interface(2, 0, 100);
    LoadOne(t, info);
    AddFront(t, info, 0, true);
    assert [3] + t.clients == [3, 0];
    Follows(t, LoadClients([info], false));
  }

  lemma FirstStates(states: seq<Table>, steps: seq<Step>)
    requires |states| == |steps| + 1 >= 3 && states[0] == Empty() && states[1] == Loaded() && states[2] == Answered()
    requires steps[0] == LOAD && steps[1] == ANSWER
    requires forall i :: 2 <= i < |steps| ==> states[i + 1] == Next(states[i], steps[i])
    ensures IsRun(states, steps)
  {
    hide Next, Init;
    SingleStarts();
    assert states[0] == Init(4, 1, 1, [], false) by { assert Empty() == Init(4, 1, 1, [], false); }
  }

  /**
   A run into starvation: the main channel comes up on a client NIC that was loaded after the server's answer and has no
   pairs yet, and the other client NIC's pair is parked behind two idle NICs.
   */
  lemma StarvingRun(states: seq<Table>, steps: seq<Step>)
    requires steps == [LOAD, ANSWER, LoadClients([Interface(2, 0, 100)], false), MainUp(V4(2), V4(7), 1)]
    requires states == [Empty(), Loaded(), Answered(), Joined(), Next(Joined(), steps[3])]
    ensures IsRun(states, steps) && Shaped(states[4]) && !NoStarvation(states[4])
  {
    hide WF, Next, IsRun, Shaped;
    SingleStarts();
    JoinStep();
    FirstStates(states, steps);
    JoinedStarves();
  }

  lemma JoinedStarves()
    requires WF(Joined()) && Shaped(Joined())
    ensures var r := Next(Joined(), MainUp(V4(2), V4(7), 1)); Shaped(r) && !NoStarvation(r)
  {
    hide WF, Marked, Next;
    var t := Joined();
    assert FindByIp(t.nics, t.clients, V4(2), 0) == Some(3);
    assert FindByIp(t.nics, t.servers, V4(7), 0) == Some(1);
    assert FindCon(t.cons, t.conList, 3, 1, 0) == None;
    assert t.cons[2].state == Potential && t.cons[2].server == 1 && Free(t.nicState, t.cons[2]);
    StepParks(t, MainUp(V4(2), V4(7), 1));
  }

  /** The one pair carries the main channel. */
  function Up(): Table {
    Single(Used, Used, Con(Connected, Active, 100, Some(1), 0, 1), 0, [2])
  }

  lemma UpMarks()
    requires Shaped(Answered())
    ensures MainChannel(Answered(), V4(1), V4(7), 1) == Up()
  {
    var t := Answered();
    assert FindByIp(t.nics, t.clients, V4(1), 0) == Some(0);
    assert FindByIp(t.nics, t.servers, V4(7), 0) == Some(1);
    assert FindCon(t.cons, t.conList, 0, 1, 0) == Some(2);
    assert [] + [2] == [2];
  }

  lemma UpStep()
    requires WF(Answered()) && Shaped(Answered())
    ensures WF(Up()) && Shaped(Up()) && Next(Answered(), MainUp(V4(1), V4(7), 1)) == Up()
  {
    hide WF, Shaped, MainChannel, Answered, Up;
    UpMarks();
    Follows(Answered(), MainUp(V4(1), V4(7), 1));
  }

  /** A run into an outdated speed: the client's interfaces are loaded again after its NIC slowed down. */
  lemma OutdatedRun(states: seq<Table>, steps: seq<Step>)
    requires steps == [LOAD, ANSWER, MainUp(V4(1), V4(7), 1), LoadClients([Interface(1, 0, 10)], false)]
    requires states == [Empty(), Loaded(), Answered(), Up(), Next(Up(), steps[3])]
    ensures IsRun(states, steps) && Shaped(states[4]) && !SpeedsFresh(states[4])
  {
    hide WF, Next, IsRun, AddClients;
    SingleStarts();
    UpStep();
    FirstStates(states, steps);
    var t, infos := Up(), [Interface(1, 0, 10)];
    assert Tells(t, Forced(infos[0], false), 1);
    assert Told(t, infos, false, 1, 1) == Some(infos[0]);
    assert !LoadKeepsSpeed(t, infos, false, t.cons[2]);
    StepSpeeds(t, steps[3]);
  }

  /** The one pair is on trial. */
  function Trying(): Table {
    Single(OnTrial, OnTrial, Con(InTrial, Active, 100, None, 0, 1), 1, [])
  }

  lemma TryingCount()
    requires Shaped(Answered())
    ensures CountStats(Answered()) == Census(Answered().(cons := map[2 := Con(Potential, Active, 100, None, 0, 1)]),
      NO_STATS.(maxPotential := 100, potential := Some(2)))
  {
    var t := Answered();
    assert Tally(t, 0) == NO_STATS;
    assert Tally(t, 1) == NO_STATS.(maxPotential := 100, potential := Some(2));
    assert t.conList[..1] == [2];
    assert RefreshedTo(t, 1) == map[2 := Con(Potential, Active, 100, None, 0, 1)];
  }

  lemma TryTurn()
    requires WF(Answered()) && Shaped(Answered())
    ensures OneTurn(Answered(), false) == Start(Trying(), Pick(2, Active))
  {
    hide WF, CountStats;
    TryingCount();
  }

  lemma TryAsks()
    requires WF(Answered()) && Shaped(Answered())
    ensures Ask(Answered(), 1).t == Trying()
  {
    hide WF, OneTurn, Shaped, HasActive;
    TryTurn();
    TurnKeeps(Answered(), false);
  }

  lemma TryStep()
    requires WF(Answered()) && Shaped(Answered())
    ensures WF(Trying()) && Shaped(Trying()) && Next(Answered(), AskTrials(1)) == Trying()
  {
    hide WF, Shaped, Ask, Answered, Trying;
    TryAsks();
    Follows(Answered(), AskTrials(1));
  }

  /** The trial has failed. */
  function Failed(): Table {
    Single(Idle, Idle, Con(FailedToConnect, Active, 100, None, 0, 1), 0, [])
  }

  lemma FailReports()
    requires Shaped(Trying())
    ensures Shaped(Failed()) && Report(Trying(), 2, false) == Failed()
  {
    hide Completed, RepairTable, FailTrial;
    FailIs();
    CompleteNothing(Failed());
    RepairNothing();
  }

  lemma FailIs()
    ensures var t := Trying().(trials := 0); Shaped(t) && FailTrial(t, 2) == Failed()
  {
  }

  lemma RepairNothing()
    requires Shaped(Failed())
    ensures RepairTable(Failed()) == Failed()
  {
    assert Repaired(Failed().nicState, Failed().cons, [2], 0) == Failed().nicState;
  }

  lemma FailStep()
    requires WF(Trying()) && Shaped(Trying())
    ensures WF(Failed()) && Shaped(Failed()) && Next(Trying(), ReportTrial(2, false)) == Failed()
  {
    hide WF, Shaped, Report, Failed;
    FailReports();
    Follows(Trying(), ReportTrial(2, false));
  }

  lemma CompleteNothing(t: Table)
    requires t == Failed()
    ensures Shaped(t) && Completed(t) == t
  {
    assert Rows(t, 0) == t && Row(t, 0, 0) == t;
    assert FindCon(t.cons, t.conList, 0, 1, 0) == Some(2);
    assert TouchPair(t, 0, 1) == t;
  }

  lemma FailedDrops()
    requires WF(Failed()) && Shaped(Failed())
    ensures AnsweredNics(Failed(), ANSWER) == [Failed().nics[1]]
    ensures 1 in Failed().servers && 1 !in Next(Failed(), ANSWER).servers
  {
    hide WF, Update, AnsweredNics;
    var t := Failed();
    AnswerIs(t);
    assert 2 in PairsOf(t, 1, false);
    assert PairedWith(t, 1, false, 0);
    NamedDropped(t, [SERVER], false, 1, 0);
    Follows(t, ANSWER);
  }

  /**
   A run that drops a NIC which the server still has: after the only trial failed, the server's answer names its NIC
   again with nothing changed, and the NIC is dropped.
   */
  lemma DroppingRun(states: seq<Table>, steps: seq<Step>)
    requires steps == [LOAD, ANSWER, AskTrials(1), ReportTrial(2, false), ANSWER]
    requires states == [Empty(), Loaded(), Answered(), Trying(), Failed(), Next(Failed(), ANSWER)]
    ensures IsRun(states, steps)
    ensures AnsweredNics(states[4], steps[4]) == [states[4].nics[1]] && 1 in states[4].servers &&
      1 !in states[5].servers
  {
    hide WF, IsRun, AnsweredNics, Next, Shaped;
    SingleStarts();
    TryStep();
    FailStep();
    FirstStates(states, steps);
    FailedDrops();
  }
}
