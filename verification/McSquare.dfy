/**
 Runs on two client and two server NICs: a failed trial that takes a connected pair down
 with it, and a session of one allowed channel that is left without one.
 */
module McSquare {
  import opened Integers
  import opened Options
  import opened McTypes
  import opened McConList
  import opened McReport
  import opened McStats
  import opened McTrial
  import opened McExcess
  import opened McNotifier
  import opened McNics
  import opened McRuns
  import opened McUpdates
  import opened McHeld
  import opened McExamples

  function Blank(channels: nat, rss: nat): Table {
    Table(0, [], [], map[], map[], map[], channels, rss, rss, [], false, [], map[], 0, [], 0)
  }

  /** Two client NICs, no server NIC. */
  function Half(channels: nat, rss: nat, a: Nic, b: Nic): Table {
    Blank(channels, rss).(clients := [1, 0], nics := map[0 := a, 1 := b], nicState := map[0 := Idle, 1 := Idle],
                          possible := map[0 := [], 1 := []], next := 2)
  }

  /** Two client NICs and two server NICs, with their four pairs. */
  function Square(channels: nat, rss: nat, nics: map<NicId, Nic>, states: map<NicId, NicState>, cons: map<ConId, Con>,
                  trials: nat, success: seq<ConId>): Table {
    Blank(channels, rss).(clients := [1, 0], servers := [3, 2], nics := nics, nicState := states,
                          possible := map[0 := [6, 7], 1 := [4, 5], 2 := [], 3 := []],
                          conList := [4, 5, 6, 7], cons := cons, trials := trials, success := success, next := 8)
  }

  function Corners(a: Nic, b: Nic, y: Nic, x: Nic): map<NicId, Nic> {
    map[0 := a, 1 := b, 2 := y, 3 := x]
  }

  function Four(s: ConState, t: ConState, u: ConState, v: ConState): map<ConId, Con> {
    map[4 := Con(s, Active, 0, None, 1, 3), 5 := Con(t, Active, 0, None, 1, 2),
        6 := Con(u, Active, 0, None, 0, 3), 7 := Con(v, Active, 0, None, 0, 2)]
  }

  function All(s: NicState): map<NicId, NicState> {
    map[0 := s, 1 := s, 2 := s, 3 := s]
  }

  predicate Usable(n: Nic) {
    n.ip4 && !n.ignored
  }

  // ----- The four NICs become known -----

  lemma TwoClients(channels: nat, rss: nat, i: NicInfo, ri: nat, j: NicInfo, rj: nat)
    requires i.speed <= j.speed && CopyIndex(i, ri) != CopyIndex(j, rj)
    ensures Shaped(Blank(channels, rss))
    ensures AddInfo(AddInfo(Blank(channels, rss), i, ri, false, true), j, rj, false, true) ==
      Half(channels, rss, NicOf(CopyIndex(i, ri), i), NicOf(CopyIndex(j, rj), j))
  {
    hide AddInfo, CopyIndex;
    var t := Blank(channels, rss);
    AddFront(t, i, ri, true);
    assert [0] + t.clients == [0];
    var u := AddInfo(t, i, ri, false, true);
    assert u.nics[0].index == CopyIndex(i, ri) && u.nics[0].speed == i.speed;
    AddFront(u, j, rj, true);
    assert [1] + u.clients == [1, 0];
  }

  lemma TwoServers(i: NicInfo, ri: nat, j: NicInfo, rj: nat)
    requires i.speed <= j.speed && CopyIndex(i, ri) != CopyIndex(j, rj)
    ensures Shaped(Blank(17, 4))
    ensures var u := AddInfo(AddInfo(Blank(17, 4), i, ri, false, false), j, rj, false, false);
      Shaped(u) && NicList(u, u.servers) == [NicOf(CopyIndex(j, rj), j), NicOf(CopyIndex(i, ri), i)]
  {
    hide AddInfo, CopyIndex;
    var t := Blank(17, 4);
    AddFront(t, i, ri, false);
    assert [0] + t.servers == [0];
    var u := AddInfo(t, i, ri, false, false);
    assert u.nics[0].index == CopyIndex(i, ri) && u.nics[0].speed == i.speed;
    AddFront(u, j, rj, false);
    assert [1] + u.servers == [1, 0];
  }

  /** The two server NICs are new: the table of the four idle NICs before its pairs are made. */
  function Bare(channels: nat, rss: nat, a: Nic, b: Nic, y: Nic, x: Nic): Table {
    Half(channels, rss, a, b).(servers := [3, 2], nics := Corners(a, b, y, x), nicState := All(Idle),
                               possible := map[0 := [], 1 := [], 2 := [], 3 := []], next := 4)
  }

  lemma TwoInserted(channels: nat, rss: nat, a: Nic, b: Nic, y: Nic, x: Nic)
    requires y.speed <= x.speed && y.index != x.index
    ensures Shaped(Half(channels, rss, a, b))
    ensures UpdateTo(Half(channels, rss, a, b), [y, x], false, 2) == Bare(channels, rss, a, b, y, x)
  {
    hide InsertNic;
    var t := Half(channels, rss, a, b);
    InsertFront(t, y, false);
    assert [2] + t.servers == [2];
    assert UpdateTo(t, [y, x], false, 0) == t;
    var u := UpdateTo(t, [y, x], false, 1);
    assert u == InsertNic(t, y, false);
    InsertFront(u, x, false);
    assert [3] + u.servers == [3, 2];
    assert FindNic(u.nics, u.servers, x.index, 0) == None;
  }

  /** The table once the server has answered. */
  function Known(channels: nat, rss: nat, a: Nic, b: Nic, y: Nic, x: Nic): Table {
    Square(channels, rss, Corners(a, b, y, x), All(Idle), Four(Potential, Potential, Potential, Potential), 0, [])
  }

  /** The table with one more potential pair. */
  function WithPair(t: Table, c: NicId, s: NicId): Table
    requires c in t.possible
  {
    t.(conList := t.conList + [t.next], cons := t.cons[t.next := Con(Potential, Active, 0, None, c, s)],
       possible := t.possible[c := t.possible[c] + [t.next]], next := t.next + 1)
  }

  lemma TouchNew(t: Table, c: NicId, s: NicId)
    requires Shaped(t) && c in t.nics && s in t.nics && Usable(t.nics[c]) && Usable(t.nics[s]) && t.nicState[s] == Idle
    requires forall id :: id in t.conList ==> t.cons[id].client != c || t.cons[id].server != s
    ensures TouchPair(t, c, s) == WithPair(t, c, s)
  {
  }

  lemma OneRow(t: Table, u: Table, c: NicId)
    requires Shaped(t) && t.servers == [3, 2] && c in t.nics && 3 in t.nics && 2 in t.nics
    requires Usable(t.nics[c]) && Usable(t.nics[3]) && Usable(t.nics[2]) && t.nicState[3] == Idle &&
      t.nicState[2] == Idle
    requires (forall id :: id in t.conList ==> t.cons[id].client != c) && t.next !in t.conList
    requires u == WithPair(t, c, 3)
    ensures Row(t, c, 2) == WithPair(u, c, 2)
  {
    hide TouchPair, Usable, Steady;
    assert Row(t, c, 0) == t;
    TouchNew(t, c, 3);
    assert Row(t, c, 1) == u;
    TouchNew(u, c, 2);
  }

  /** The table with the pairs of the first client NIC. */
  function FirstRow(t: Table): Table {
    t.(conList := [4, 5], cons := map[4 := Con(Potential, Active, 0, None, 1, 3),
      5 := Con(Potential, Active, 0, None, 1, 2)],
       possible := map[0 := [], 1 := [4, 5], 2 := [], 3 := []], next := 6)
  }

  lemma PairsOne(t: Table)
    requires t.conList == [] && t.cons == map[] && t.possible == map[0 := [], 1 := [], 2 := [], 3 := []] && t.next == 4
    ensures WithPair(WithPair(t, 1, 3), 1, 2) == FirstRow(t)
  {
    assert [] + [4] == [4] && [4] + [5] == [4, 5];
  }

  lemma PairsTwo(t: Table, r: Table)
    requires t == FirstRow(t)
    requires r == t.(conList := [4, 5, 6, 7], cons := Four(Potential, Potential, Potential, Potential),
                     possible := map[0 := [6, 7], 1 := [4, 5], 2 := [], 3 := []], next := 8)
    ensures WithPair(WithPair(t, 0, 3), 0, 2) == r
  {
    assert [] + [6] == [6] && [6] + [7] == [6, 7];
    assert [4, 5] + [6] == [4, 5, 6] && [4, 5, 6] + [7] == [4, 5, 6, 7];
  }

  lemma BareShaped(t: Table, a: Nic, b: Nic, y: Nic, x: Nic)
    requires t == Bare(t.maxChannels, t.srvrRss, a, b, y, x)
    ensures Shaped(t) && Shaped(FirstRow(t))
  {
  }

  lemma RowOne(t: Table, a: Nic, b: Nic, y: Nic, x: Nic)
    requires t == Bare(t.maxChannels, t.srvrRss, a, b, y, x) && Usable(b) && Usable(y) && Usable(x)
    ensures Shaped(t) && Row(t, 1, 2) == FirstRow(t)
  {
    hide Row, Usable, Shaped, WithPair, FirstRow, Bare;
    BareShaped(t, a, b, y, x);
    BareIs(t, a, b, y, x);
    PairsOne(t);
    OneRow(t, WithPair(t, 1, 3), 1);
  }

  lemma BareIs(t: Table, a: Nic, b: Nic, y: Nic, x: Nic)
    requires t == Bare(t.maxChannels, t.srvrRss, a, b, y, x)
    ensures t.servers == [3, 2] && t.conList == [] && t.cons == map[] && t.next == 4
    ensures t.possible == map[0 := [], 1 := [], 2 := [], 3 := []]
    ensures 1 in t.nics && 2 in t.nics && 3 in t.nics && t.nics[1] == b && t.nics[2] == y && t.nics[3] == x
    ensures 2 in t.nicState && 3 in t.nicState && t.nicState[2] == Idle && t.nicState[3] == Idle
  {
  }

  lemma RowTwo(t: Table, a: Nic, b: Nic, y: Nic, x: Nic)
    requires t == Bare(t.maxChannels, t.srvrRss, a, b, y, x) && Usable(a) && Usable(y) && Usable(x)
    ensures Shaped(FirstRow(t)) && Row(FirstRow(t), 0, 2) == Known(t.maxChannels, t.srvrRss, a, b, y, x)
  {
    hide Row, Usable, Shaped, WithPair;
    BareShaped(t, a, b, y, x);
    PairsTwo(FirstRow(t), Known(t.maxChannels, t.srvrRss, a, b, y, x));
    OneRow(FirstRow(t), WithPair(FirstRow(t), 0, 3), 0);
  }

  lemma TwoRows(t: Table, a: Nic, b: Nic, y: Nic, x: Nic)
    requires t == Bare(t.maxChannels, t.srvrRss, a, b, y, x) && Usable(a) && Usable(b) && Usable(y) && Usable(x)
    ensures Shaped(t) && Completed(t) == Known(t.maxChannels, t.srvrRss, a, b, y, x)
  {
    hide Row, Usable;
    RowOne(t, a, b, y, x);
    assert Rows(t, 0) == t;
    assert Rows(t, 1) == FirstRow(t);
    RowTwo(t, a, b, y, x);
  }

  /** A NIC with a pair that can be used stays. */
  lemma KeptNic(t: Table, n: NicId, isClient: bool, id: ConId)
    requires n in t.nics && id in PairsOf(t, n, isClient) && t.cons[id].state == Potential
    ensures DropIfUseless(t, n, isClient) == t
  {
  }

  lemma SquareUpdate(channels: nat, rss: nat, a: Nic, b: Nic, y: Nic, x: Nic)
    requires y.speed <= x.speed && y.index != x.index && Usable(a) && Usable(b) && Usable(y) && Usable(x)
    ensures Shaped(Half(channels, rss, a, b))
    ensures Update(Half(channels, rss, a, b), [y, x], false) == Known(channels, rss, a, b, y, x)
  {
    hide UpdateTo, Completed, DropIfUseless, Usable;
    TwoInserted(channels, rss, a, b, y, x);
    TwoRows(Bare(channels, rss, a, b, y, x), a, b, y, x);
    var t := Known(channels, rss, a, b, y, x);
    assert 4 in PairsOf(t, 3, false) && 5 in PairsOf(t, 2, false);
    KeptNic(t, 3, false, 4);
    KeptNic(t, 2, false, 5);
    assert DropTo(t, [3, 2], false, 0) == t;
    assert DropTo(t, [3, 2], false, 1) == t;
  }

  // ----- The main channel comes up on one diagonal, and the other one is tried -----

  /** The pairs once pair 6 is connected, pair 5 as given. */
  function Crossed(pair: Con, speed: nat): map<ConId, Con> {
    map[4 := Con(Surplus, Active, 0, None, 1, 3), 5 := pair,
        6 := Con(Connected, Active, speed, Some(1), 0, 3), 7 := Con(Surplus, Active, 0, None, 0, 2)]
  }

  /** The main channel is up. */
  function Joint(channels: nat, rss: nat, a: Nic, b: Nic, y: Nic, x: Nic): Table {
    Square(channels, rss, Corners(a, b, y, x), map[0 := Used, 1 := Idle, 2 := Idle, 3 := Used],
           Crossed(Con(Potential, Active, 0, None, 1, 2), Min(a.speed, x.speed)), 0, [6])
  }

  lemma JointCons(channels: nat, rss: nat, a: Nic, b: Nic, y: Nic, x: Nic, cons: map<ConId, Con>)
    requires var t := Known(channels, rss, a, b, y, x);
      Shaped(t) && cons == map id | id in t.cons :: MarkedCon(t.nics, id, t.cons[id], Some(6), 0, 3, Some(1))
    ensures cons == Joint(channels, rss, a, b, y, x).cons
  {
    hide Shaped;
    var t := Known(channels, rss, a, b, y, x);
    assert MarkedCon(t.nics, 4, t.cons[4], Some(6), 0, 3, Some(1)) == Con(Surplus, Active, 0, None, 1, 3);
    assert MarkedCon(t.nics, 5, t.cons[5], Some(6), 0, 3, Some(1)) == t.cons[5];
    assert MarkedCon(t.nics, 6, t.cons[6], Some(6), 0, 3, Some(1)) ==
      Con(Connected, Active, Min(a.speed, x.speed), Some(1), 0, 3);
    assert MarkedCon(t.nics, 7, t.cons[7], Some(6), 0, 3, Some(1)) == Con(Surplus, Active, 0, None, 0, 2);
  }

  lemma FindSix(cons: map<ConId, Con>)
    requires cons == Four(Potential, Potential, Potential, Potential)
    ensures FindCon(cons, [4, 5, 6, 7], 0, 3, 0) == Some(6)
  {
    assert FindCon(cons, [4, 5, 6, 7], 0, 3, 2) == Some(6);
    assert FindCon(cons, [4, 5, 6, 7], 0, 3, 1) == Some(6);
  }

  lemma JointMarked(channels: nat, rss: nat, a: Nic, b: Nic, y: Nic, x: Nic)
    requires Shaped(Known(channels, rss, a, b, y, x))
    ensures Marked(Known(channels, rss, a, b, y, x), 0, 3, Some(1)) == Joint(channels, rss, a, b, y, x)
  {
    hide Shaped, FindCon, MarkedCon, Crossed, Four;
    var t := Known(channels, rss, a, b, y, x);
    FindSix(t.cons);
    var r := Marked(t, 0, 3, Some(1));
    JointCons(channels, rss, a, b, y, x, r.cons);
    assert [] + [6] == [6];
    assert r.nicState == map[0 := Used, 1 := Idle, 2 := Idle, 3 := Used];
  }

  /** The potential pair is on trial. */
  function OnTheWay(channels: nat, rss: nat, a: Nic, b: Nic, y: Nic, x: Nic): Table {
    Square(channels, rss, Corners(a, b, y, x), map[0 := Used, 1 := OnTrial, 2 := OnTrial, 3 := Used],
           Crossed(Con(InTrial, Active, Min(b.speed, y.speed), None, 1, 2), Min(a.speed, x.speed)), 1, [6])
  }

  lemma JointTally(channels: nat, rss: nat, a: Nic, b: Nic, y: Nic, x: Nic)
    requires Shaped(Joint(channels, rss, a, b, y, x)) && b.speed > 0 && y.speed > 0
    ensures Tally(Joint(channels, rss, a, b, y, x), 4) ==
      NO_STATS.(active := 1, maxActive := Min(a.speed, x.speed), maxPotential := Min(b.speed, y.speed),
        potential := Some(5))
  {
    hide Shaped;
    var t := Joint(channels, rss, a, b, y, x);
    assert Tally(t, 0) == NO_STATS;
    assert Tally(t, 1) == NO_STATS;
    assert Tally(t, 2) == NO_STATS.(maxPotential := Min(b.speed, y.speed), potential := Some(5));
    assert Tally(t, 3) == Tally(t, 2).(active := 1, maxActive := Min(a.speed, x.speed));
    assert Tally(t, 4) == Tally(t, 3);
  }

  lemma JointRefreshed(channels: nat, rss: nat, a: Nic, b: Nic, y: Nic, x: Nic)
    requires Shaped(Joint(channels, rss, a, b, y, x))
    ensures RefreshedTo(Joint(channels, rss, a, b, y, x), 4) ==
      Crossed(Con(Potential, Active, Min(b.speed, y.speed), None, 1, 2), Min(a.speed, x.speed))
  {
    hide Shaped;
    var t := Joint(channels, rss, a, b, y, x);
    assert t.conList[..4] == [4, 5, 6, 7];
  }

  lemma JointTurn(channels: nat, rss: nat, a: Nic, b: Nic, y: Nic, x: Nic)
    requires var t := Joint(channels, rss, a, b, y, x); WF(t) && Shaped(t)
    requires 0 < b.speed && 0 < y.speed && Min(a.speed, x.speed) <= Min(b.speed, y.speed)
    requires channels >= 2 || Min(a.speed, x.speed) < Min(b.speed, y.speed)
    ensures OneTurn(Joint(channels, rss, a, b, y, x), false) ==
      Start(OnTheWay(channels, rss, a, b, y, x), Pick(5, Active))
  {
    hide WF, Tally, RefreshedTo, Shaped;
    JointTally(channels, rss, a, b, y, x);
    JointRefreshed(channels, rss, a, b, y, x);
  }

  lemma JointAsks(channels: nat, rss: nat, a: Nic, b: Nic, y: Nic, x: Nic)
    requires var t := Joint(channels, rss, a, b, y, x); WF(t) && Shaped(t)
    requires 0 < b.speed && 0 < y.speed && Min(a.speed, x.speed) <= Min(b.speed, y.speed)
    requires channels >= 2 || Min(a.speed, x.speed) < Min(b.speed, y.speed)
    ensures Ask(Joint(channels, rss, a, b, y, x), 1).t == OnTheWay(channels, rss, a, b, y, x)
  {
    hide WF, OneTurn, Shaped, HasActive;
    var t, u := Joint(channels, rss, a, b, y, x), OnTheWay(channels, rss, a, b, y, x);
    JointTurn(channels, rss, a, b, y, x);
    TurnKeeps(t, false);
    assert AskLoop(u, 0, false) == Handout(u, [], Full);
    assert AskLoop(t, 1, false).t == u;
  }

  /** What the two examples share: four NICs, of which the second client's and the third are the faster diagonal. */
  ghost predicate Setting(channels: nat, a: Nic, b: Nic, y: Nic, x: Nic, clientIp: Addr, serverIp: Addr) {
    && Usable(a) && Usable(b) && Usable(y) && Usable(x)
    && y.speed <= x.speed && y.index != x.index
    && 0 < b.speed && 0 < y.speed && Min(a.speed, x.speed) <= Min(b.speed, y.speed)
    && (channels >= 2 || Min(a.speed, x.speed) < Min(b.speed, y.speed))
    && FindByIp(Corners(a, b, y, x), [1, 0], clientIp, 0) == Some(0)
    && FindByIp(Corners(a, b, y, x), [3, 2], serverIp, 0) == Some(3)
  }

  lemma StartsKnown(channels: nat, rss: nat, a: Nic, b: Nic, y: Nic, x: Nic, load: Step, answer: Step)
    requires Usable(a) && Usable(b) && Usable(y) && Usable(x) && y.speed <= x.speed && y.index != x.index
    requires WF(Blank(channels, rss)) && Shaped(Blank(channels, rss))
    requires load.LoadClients? &&
      AddClients(Blank(channels, rss), load.infos, load.forceRss, |load.infos|) == Half(channels, rss, a, b)
    requires answer.QueryAnswer? && AnsweredNics(Half(channels, rss, a, b), answer) == [y, x]
    ensures Next(Blank(channels, rss), load) == Half(channels, rss, a, b)
    ensures Next(Half(channels, rss, a, b), answer) == Known(channels, rss, a, b, y, x)
    ensures WF(Known(channels, rss, a, b, y, x)) && Shaped(Known(channels, rss, a, b, y, x))
  {
    hide WF, Shaped, AddClients, AnsweredNics, Update, Usable, Known, Half, Blank;
    Follows(Blank(channels, rss), load);
    SquareUpdate(channels, rss, a, b, y, x);
    Follows(Half(channels, rss, a, b), answer);
  }

  lemma JointStep(channels: nat, rss: nat, a: Nic, b: Nic, y: Nic, x: Nic, up: Step)
    requires var t := Known(channels, rss, a, b, y, x); WF(t) && Shaped(t)
    requires up.MainUp? && up.iod == 1 && Setting(channels, a, b, y, x, up.clientIp, up.serverIp)
    ensures var t := Joint(channels, rss, a, b, y, x);
      WF(t) && Shaped(t) && Next(Known(channels, rss, a, b, y, x), up) == t
  {
    hide WF, Shaped, Marked, FindByIp, Joint;
    JointMarked(channels, rss, a, b, y, x);
    Follows(Known(channels, rss, a, b, y, x), up);
  }

  lemma TrialStep(channels: nat, rss: nat, a: Nic, b: Nic, y: Nic, x: Nic, clientIp: Addr, serverIp: Addr)
    requires var t := Joint(channels, rss, a, b, y, x); WF(t) && Shaped(t)
    requires Setting(channels, a, b, y, x, clientIp, serverIp)
    ensures var t := OnTheWay(channels, rss, a, b, y, x);
      WF(t) && Shaped(t) && Next(Joint(channels, rss, a, b, y, x), AskTrials(1)) == t
  {
    hide WF, Shaped, Ask, FindByIp, Joint, OnTheWay, Usable;
    JointAsks(channels, rss, a, b, y, x);
    Follows(Joint(channels, rss, a, b, y, x), AskTrials(1));
  }

  /** The four steps, and where they lead. */
  lemma Leads(channels: nat, rss: nat, a: Nic, b: Nic, y: Nic, x: Nic, load: Step, answer: Step, up: Step)
    requires WF(Blank(channels, rss)) && Shaped(Blank(channels, rss))
    requires load.LoadClients? &&
      AddClients(Blank(channels, rss), load.infos, load.forceRss, |load.infos|) == Half(channels, rss, a, b)
    requires answer.QueryAnswer? && AnsweredNics(Half(channels, rss, a, b), answer) == [y, x]
    requires up.MainUp? && up.iod == 1 && Setting(channels, a, b, y, x, up.clientIp, up.serverIp)
    ensures Next(Blank(channels, rss), load) == Half(channels, rss, a, b)
    ensures Next(Half(channels, rss, a, b), answer) == Known(channels, rss, a, b, y, x)
    ensures Next(Known(channels, rss, a, b, y, x), up) == Joint(channels, rss, a, b, y, x)
    ensures Next(Joint(channels, rss, a, b, y, x), AskTrials(1)) == OnTheWay(channels, rss, a, b, y, x)
    ensures WF(OnTheWay(channels, rss, a, b, y, x)) && Shaped(OnTheWay(channels, rss, a, b, y, x))
  {
    hide WF, Shaped, Next, AddClients, AnsweredNics, Known, Joint, Half, Blank, OnTheWay, FindByIp, Usable;
    StartsKnown(channels, rss, a, b, y, x, load, answer);
    JointStep(channels, rss, a, b, y, x, up);
    TrialStep(channels, rss, a, b, y, x, up.clientIp, up.serverIp);
  }

  lemma BlankIs(channels: uint32, rss: uint32)
    requires channels > 0 && rss > 0
    ensures Blank(channels, rss) == Init(channels, rss, rss, [], false)
    ensures WF(Blank(channels, rss)) && Shaped(Blank(channels, rss))
    ensures Blank(17, 4) == Init(0, 0, 0, [], false)
  {
    InitWF(channels, rss, rss, [], false);
    assert Blank(channels, rss) == Init(channels, rss, rss, [], false);
  }

  // ----- A failed trial takes a connected pair with it -----

  const RSS_CLIENT: NicInfo := Interface(1, 1, 100)
  const RSS_SERVER: NicInfo := Interface(7, 1, 100)

  lemma RssLoads()
    ensures Shaped(Blank(4, 2))
    ensures AddClients(Blank(4, 2), [RSS_CLIENT], false, 1) ==
      Half(4, 2, NicOf(1, RSS_CLIENT), NicOf(UINT32 + 1, RSS_CLIENT))
  {
    hide AddInfo, Half, NicOf;
    var t := Blank(4, 2);
    TwoClients(4, 2, RSS_CLIENT, 0, RSS_CLIENT, 1);
    assert AddCopies(t, RSS_CLIENT, false, true, 0) == t;
    assert AddCopies(t, RSS_CLIENT, false, true, 1) == AddInfo(t, RSS_CLIENT, 0, false, true);
    assert AddClients(t, [RSS_CLIENT], false, 0) == t;
  }

  lemma RssAnswers(t: Table)
    requires t.srvrRss == 2
    ensures AnsweredNics(t, QueryAnswer([RSS_SERVER])) == [NicOf(UINT32 + 7, RSS_SERVER), NicOf(7, RSS_SERVER)]
  {
    hide AddInfo, NicOf;
    BlankIs(1, 1);
    var u := Blank(17, 4);
    TwoServers(RSS_SERVER, 0, RSS_SERVER, 1);
    assert AddCopies(u, RSS_SERVER, false, false, 0) == u;
    assert AddCopies(u, RSS_SERVER, false, false, 1) == AddInfo(u, RSS_SERVER, 0, false, false);
    assert AddServers(u, [RSS_SERVER], 2, 0) == u;
  }

  lemma RssSetting(a: Nic, b: Nic, y: Nic, x: Nic)
    requires a == NicOf(1, RSS_CLIENT) && b == NicOf(UINT32 + 1, RSS_CLIENT)
    requires y == NicOf(UINT32 + 7, RSS_SERVER) && x == NicOf(7, RSS_SERVER)
    ensures Setting(4, a, b, y, x, V4(1), V4(7))
  {
    assert (UINT32 + 1) / UINT32 == 1 && (UINT32 + 7) / UINT32 == 1;
    assert FindByIp(Corners(a, b, y, x), [1, 0], V4(1), 1) == Some(0);
    assert FindByIp(Corners(a, b, y, x), [3, 2], V4(7), 0) == Some(3);
  }

  /** Both diagonals join the same two interfaces. */
  lemma RssSiblings(a: Nic, b: Nic, y: Nic, x: Nic)
    requires a == NicOf(1, RSS_CLIENT) && b == NicOf(UINT32 + 1, RSS_CLIENT)
    requires y == NicOf(UINT32 + 7, RSS_SERVER) && x == NicOf(7, RSS_SERVER)
    requires Shaped(OnTheWay(4, 2, a, b, y, x))
    ensures Agree(OnTheWay(4, 2, a, b, y, x)) && !ReportSafe(OnTheWay(4, 2, a, b, y, x), 5, false)
  {
    var t := OnTheWay(4, 2, a, b, y, x);
    assert (UINT32 + 1) % UINT32 == 1 && (UINT32 + 7) % UINT32 == 7;
    assert Sibling(t.nics, t.cons[6], t.cons[5]) && Carried(t.cons[6].state);
  }

  /**
   A run that ends with a pair on the success list which is not connected: a trial between RSS copies of two
   interfaces fails, and the pair of the same two interfaces that carries the main channel counts as failed too.
   */
  lemma FailingRun(states: seq<Table>, steps: seq<Step>, a: Nic, b: Nic, y: Nic, x: Nic)
    requires a == NicOf(1, RSS_CLIENT) && b == NicOf(UINT32 + 1, RSS_CLIENT)
    requires y == NicOf(UINT32 + 7, RSS_SERVER) && x == NicOf(7, RSS_SERVER)
    requires steps == [LoadClients([RSS_CLIENT], false), QueryAnswer([RSS_SERVER]), MainUp(V4(1), V4(7), 1),
                       AskTrials(1),
                       ReportTrial(5, false)]
    requires states == [Blank(4, 2), Half(4, 2, a, b), Known(4, 2, a, b, y, x), Joint(4, 2, a, b, y, x),
                        OnTheWay(4, 2, a, b, y, x), Next(OnTheWay(4, 2, a, b, y, x), steps[4])]
    ensures IsRun(states, steps) && Agree(states[4]) && !Agree(states[5])
  {
    hide WF, Shaped, Next, Known, Joint, Half, Blank, OnTheWay, Init, Agree, NicOf, ReportSafe;
    BlankIs(4, 2);
    RssLeads(a, b, y, x);
    RssSiblings(a, b, y, x);
    StepAgrees(states[4], steps[4]);
    OnTheWayHas(4, 2, a, b, y, x);
  }

  lemma RssLeads(a: Nic, b: Nic, y: Nic, x: Nic)
    requires a == NicOf(1, RSS_CLIENT) && b == NicOf(UINT32 + 1, RSS_CLIENT)
    requires y == NicOf(UINT32 + 7, RSS_SERVER) && x == NicOf(7, RSS_SERVER)
    ensures Next(Blank(4, 2), LoadClients([RSS_CLIENT], false)) == Half(4, 2, a, b)
    ensures Next(Half(4, 2, a, b), QueryAnswer([RSS_SERVER])) == Known(4, 2, a, b, y, x)
    ensures Next(Known(4, 2, a, b, y, x), MainUp(V4(1), V4(7), 1)) == Joint(4, 2, a, b, y, x)
    ensures Next(Joint(4, 2, a, b, y, x), AskTrials(1)) == OnTheWay(4, 2, a, b, y, x)
    ensures WF(OnTheWay(4, 2, a, b, y, x)) && Shaped(OnTheWay(4, 2, a, b, y, x))
  {
    hide WF, Shaped, Next, AddClients, AnsweredNics, Known, Joint, Half, Blank, OnTheWay, Init, Setting, NicOf;
    BlankIs(4, 2);
    RssLoads();
    HalfRss(4, 2, a, b);
    RssAnswers(Half(4, 2, a, b));
    RssSetting(a, b, y, x);
    Leads(4, 2, a, b, y, x, LoadClients([RSS_CLIENT], false), QueryAnswer([RSS_SERVER]), MainUp(V4(1), V4(7), 1));
  }

  // ----- The failed pair is freed while it is on the success list -----

  /** Every pair joins the same two interfaces, so one failure fails them all. */
  lemma RssFails(t: Table, a: Nic, b: Nic, y: Nic, x: Nic)
    requires a == NicOf(1, RSS_CLIENT) && b == NicOf(UINT32 + 1, RSS_CLIENT)
    requires y == NicOf(UINT32 + 7, RSS_SERVER) && x == NicOf(7, RSS_SERVER)
    requires Shaped(t) && t == OnTheWay(4, 2, a, b, y, x).(trials := 0)
    ensures var r := FailTrial(t, 5);
      && r.success == [6] && r.clients == [1, 0] && r.servers == [3, 2] && r.nics == Corners(a, b, y, x)
      && r.cons.Keys == t.cons.Keys
      && forall id :: id in t.cons ==> r.cons[id].state == FailedToConnect && SamePair(r.cons[id], t.cons[id])
  {
    hide Sibling, Shaped, NicOf;
    RssAllSiblings(t, a, b, y, x);
  }

  lemma RssAllSiblings(t: Table, a: Nic, b: Nic, y: Nic, x: Nic)
    requires a == NicOf(1, RSS_CLIENT) && b == NicOf(UINT32 + 1, RSS_CLIENT)
    requires y == NicOf(UINT32 + 7, RSS_SERVER) && x == NicOf(7, RSS_SERVER)
    requires Shaped(t) && t == OnTheWay(4, 2, a, b, y, x).(trials := 0)
    ensures 5 in t.cons && forall id :: id in t.cons ==> Sibling(t.nics, t.cons[id], t.cons[5])
  {
    hide Shaped;
    assert (UINT32 + 1) % UINT32 == 1 && (UINT32 + 7) % UINT32 == 7;
    assert forall id :: id in t.cons ==> t.cons[id].client in {0, 1} && t.cons[id].server in {2, 3};
    assert forall n :: n in {0, 1} ==> BaseIndex(t.nics[n].index) == 1;
    assert forall n :: n in {2, 3} ==> BaseIndex(t.nics[n].index) == 7;
  }

  /** The table after the failure: the client NIC of the main channel has two pairs, and both have failed. */
  lemma RssFailed(t: Table, a: Nic, b: Nic, y: Nic, x: Nic)
    requires a == NicOf(1, RSS_CLIENT) && b == NicOf(UINT32 + 1, RSS_CLIENT)
    requires y == NicOf(UINT32 + 7, RSS_SERVER) && x == NicOf(7, RSS_SERVER)
    requires WF(t) && Shaped(t) && t == OnTheWay(4, 2, a, b, y, x)
    ensures var r := Report(t, 5, false);
      && WF(r) && Held(r) && r.success == [6] && 6 in r.cons && r.cons[6].client == 0
      && 0 in r.nics && Useless(r, 0, true)
  {
    hide WF, Shaped, FailTrial, RepairTable, Completed, Useless, Grown, OnTheWay, Sibling;
    OnTheWayPairs(4, 2, a, b, y, x);
    var t0, r := t.(trials := 0), Report(t, 5, false);
    RestatedTrials(t, 0);
    RssFails(t0, a, b, y, x);
    var f := FailTrial(t0, 5);
    FailTrialWF(t0, 5);
    MendedSound(f);
    RepairTableSound(f);
    MendedCons(f, r);
    MendedNics(f, r);
    FailedUseless(r);
  }

  lemma OnTheWayPairs(channels: nat, rss: nat, a: Nic, b: Nic, y: Nic, x: Nic)
    ensures var t := OnTheWay(channels, rss, a, b, y, x);
      && t.trials == 1 && t.cons.Keys == {4, 5, 6, 7}
      && t.cons[6].client == 0 && t.cons[6].server == 3 && t.cons[7].client == 0 && t.cons[7].server == 2
  {
  }

  lemma RestatedTrials(t: Table, trials: nat)
    requires WF(t) && Shaped(t)
    ensures WF(t.(trials := trials)) && Shaped(t.(trials := trials))
  {
    hide WF;
    RestateWF(t, t.nicState, t.pause, trials, t.success);
  }

  lemma MendedNics(t: Table, r: Table)
    requires Shaped(t) && Shaped(RepairTable(t)) && Grown(RepairTable(t), r)
    ensures r.clients == t.clients && r.servers == t.servers && r.nics == t.nics
  {
    hide Shaped, Repaired;
  }

  lemma FailedUseless(r: Table)
    requires WF(r) && r.servers == [3, 2] && 0 in r.nics && !r.nics[0].ignored && 6 in r.cons && 7 in r.cons
    requires r.cons[6].state == FailedToConnect && r.cons[6].client == 0 && r.cons[6].server == 3
    requires r.cons[7].state == FailedToConnect && r.cons[7].client == 0 && r.cons[7].server == 2
    ensures Useless(r, 0, true)
  {
    hide WF;
    EndsListed(r);
    assert 6 in PairsOf(r, 0, true);
    forall id | id in PairsOf(r, 0, true)
      ensures id == 6 || id == 7
    {
      if r.cons[id].server == 3 { OnePair(r, id, 6); } else { OnePair(r, id, 7); }
    }
  }

  lemma NotifiedNone(s: Step)
    requires s == Notify([], false, 4, 2, 2)
    ensures NotifiedNics(s) == []
  {
  }

  lemma AppliedNone(t: Table)
    requires Shaped(t)
    ensures Applied(t, [], true) == t
  {
  }

  /**
   The run goes on: the client's interface is gone from the next notification, its NICs are dropped and their pairs
   freed, and the success list still has the pair of the main channel.
   */
  lemma FreedRun(states: seq<Table>, steps: seq<Step>, a: Nic, b: Nic, y: Nic, x: Nic)
    requires a == NicOf(1, RSS_CLIENT) && b == NicOf(UINT32 + 1, RSS_CLIENT)
    requires y == NicOf(UINT32 + 7, RSS_SERVER) && x == NicOf(7, RSS_SERVER)
    requires steps == [LoadClients([RSS_CLIENT], false), QueryAnswer([RSS_SERVER]), MainUp(V4(1), V4(7), 1),
                       AskTrials(1),
                       ReportTrial(5, false), Notify([], false, 4, 2, 2)]
    requires var t4 := OnTheWay(4, 2, a, b, y, x);
      var t5 := Next(t4, steps[4]);
      states == [Blank(4, 2), Half(4, 2, a, b), Known(4, 2, a, b, y, x), Joint(4, 2, a, b, y, x), t4, t5,
        Next(t5, steps[5])]
    ensures IsRun(states, steps) && Held(states[5]) && states[6].success == [6] && 6 !in states[6].cons
  {
    hide WF, Shaped, Next, NotifiedNics, Known, Joint, Half, Blank, OnTheWay, Init, NicOf;
    BlankIs(4, 2);
    RssLeads(a, b, y, x);
    FailedStep(states[4], a, b, y, x);
    FreedStep(states[5], steps[5]);
  }

  lemma FailedStep(t: Table, a: Nic, b: Nic, y: Nic, x: Nic)
    requires a == NicOf(1, RSS_CLIENT) && b == NicOf(UINT32 + 1, RSS_CLIENT)
    requires y == NicOf(UINT32 + 7, RSS_SERVER) && x == NicOf(7, RSS_SERVER)
    requires WF(t) && Shaped(t) && t == OnTheWay(4, 2, a, b, y, x)
    ensures var r := Next(t, ReportTrial(5, false));
      && WF(r) && Held(r) && r.success == [6] && 6 in r.cons && r.cons[6].client == 0
      && 0 in r.nics && Useless(r, 0, true)
  {
    hide WF, Shaped, Report, OnTheWay, Useless, NicOf;
    OnTheWayPairs(4, 2, a, b, y, x);
    RssFailed(t, a, b, y, x);
    Follows(t, ReportTrial(5, false));
  }

  lemma FreedStep(t: Table, s: Step)
    requires s == Notify([], false, 4, 2, 2) && WF(t) && Held(t) && t.success == [6]
    requires 6 in t.cons && t.cons[6].client == 0 && 0 in t.nics && Useless(t, 0, true)
    ensures Next(t, s).success == [6] && 6 !in Next(t, s).cons
  {
    hide WF, Shaped, Update, Applied, NotifiedNics, Useless;
    Follows(t, s);
    NotifiedNone(s);
    AppliedNone(t);
    UpdatePairs(t, [], true, 6);
  }

  lemma HalfRss(channels: nat, rss: nat, a: Nic, b: Nic)
    ensures Half(channels, rss, a, b).srvrRss == rss
  {
  }

  lemma OnTheWayHas(channels: nat, rss: nat, a: Nic, b: Nic, y: Nic, x: Nic)
    ensures 5 in OnTheWay(channels, rss, a, b, y, x).cons
  {
  }

  // ----- One allowed channel, and none left -----

  const SLOW: NicInfo := Interface(1, 0, 10)
  const FAST: NicInfo := Interface(2, 0, 100)
  const PORT_A: NicInfo := Interface(7, 0, 100)
  const PORT_B: NicInfo := Interface(8, 0, 100)

  lemma PlainLoads()
    ensures Shaped(Blank(1, 1))
    ensures AddClients(Blank(1, 1), [SLOW, FAST], false, 2) == Half(1, 1, NicOf(1, SLOW), NicOf(2, FAST))
  {
    hide AddInfo, Half, NicOf, AddCopies;
    var t := Blank(1, 1);
    TwoClients(1, 1, SLOW, 0, FAST, 0);
    CopiesOne(t, SLOW, true);
    CopiesOne(AddInfo(t, SLOW, 0, false, true), FAST, true);
    assert AddClients(t, [SLOW, FAST], false, 0) == t;
    assert AddClients(t, [SLOW, FAST], false, 1) == AddInfo(t, SLOW, 0, false, true);
  }

  lemma PlainAnswers(t: Table)
    requires t.srvrRss == 1
    ensures AnsweredNics(t, QueryAnswer([PORT_A, PORT_B])) == [NicOf(8, PORT_B), NicOf(7, PORT_A)]
  {
    hide AddInfo, NicOf, AddCopies;
    BlankIs(1, 1);
    var u := Blank(17, 4);
    TwoServers(PORT_A, 0, PORT_B, 0);
    CopiesOne(u, PORT_A, false);
    CopiesOne(AddInfo(u, PORT_A, 0, false, false), PORT_B, false);
    assert AddServers(u, [PORT_A, PORT_B], 1, 0) == u;
    assert AddServers(u, [PORT_A, PORT_B], 1, 1) == AddInfo(u, PORT_A, 0, false, false);
  }

  lemma PlainSetting(a: Nic, b: Nic, y: Nic, x: Nic)
    requires a == NicOf(1, SLOW) && b == NicOf(2, FAST) && y == NicOf(8, PORT_B) && x == NicOf(7, PORT_A)
    ensures Setting(1, a, b, y, x, V4(1), V4(7))
  {
    assert FindByIp(Corners(a, b, y, x), [1, 0], V4(1), 1) == Some(0);
    assert FindByIp(Corners(a, b, y, x), [3, 2], V4(7), 0) == Some(3);
  }

  /** Both diagonals are connected. */
  function Both(channels: nat, rss: nat, a: Nic, b: Nic, y: Nic, x: Nic): Table {
    Square(channels, rss, Corners(a, b, y, x), All(Used),
           Crossed(Con(Connected, Active, Min(b.speed, y.speed), None, 1, 2), Min(a.speed, x.speed)), 0, [6, 5])
  }

  lemma FindFive(cons: map<ConId, Con>, pair: Con, speed: nat)
    requires pair.client == 1 && pair.server == 2 && cons == Crossed(pair, speed)
    ensures FindCon(cons, [4, 5, 6, 7], 1, 2, 0) == Some(5)
  {
    assert FindCon(cons, [4, 5, 6, 7], 1, 2, 1) == Some(5);
  }

  lemma BothCons(t: Table, a: Nic, b: Nic, y: Nic, x: Nic, cons: map<ConId, Con>)
    requires Shaped(t) && t == OnTheWay(t.maxChannels, t.srvrRss, a, b, y, x).(trials := 0)
    requires cons == map id | id in t.cons :: MarkedCon(t.nics, id, t.cons[id], Some(5), 1, 2, None)
    ensures cons == Both(t.maxChannels, t.srvrRss, a, b, y, x).cons
  {
    hide Shaped;
    assert MarkedCon(t.nics, 4, t.cons[4], Some(5), 1, 2, None) == t.cons[4];
    assert MarkedCon(t.nics, 5, t.cons[5], Some(5), 1, 2, None) ==
      Con(Connected, Active, Min(b.speed, y.speed), None, 1, 2);
    assert MarkedCon(t.nics, 6, t.cons[6], Some(5), 1, 2, None) == t.cons[6];
    assert MarkedCon(t.nics, 7, t.cons[7], Some(5), 1, 2, None) == t.cons[7];
  }

  lemma BothMarkedPairs(t: Table, a: Nic, b: Nic, y: Nic, x: Nic)
    requires Shaped(t) && t == OnTheWay(t.maxChannels, t.srvrRss, a, b, y, x).(trials := 0)
    ensures Marked(t, 1, 2, None) == Both(t.maxChannels, t.srvrRss, a, b, y, x)
  {
    hide Shaped, FindCon, MarkedCon, Crossed;
    FindFive(t.cons, Con(InTrial, Active, Min(b.speed, y.speed), None, 1, 2), Min(a.speed, x.speed));
    var r := Marked(t, 1, 2, None);
    BothCons(t, a, b, y, x, r.cons);
    assert [6] + [5] == [6, 5];
    assert r.nicState == All(Used);
  }

  lemma BothRepaired(t: Table, a: Nic, b: Nic, y: Nic, x: Nic)
    requires Shaped(t) && t == Both(t.maxChannels, t.srvrRss, a, b, y, x)
    ensures RepairTable(t) == t
  {
    hide Shaped;
    var s := t.nicState;
    assert ListKnown(s, t.cons, t.conList);
    assert Repaired(s, t.cons, t.conList, 0) == s;
    assert Repaired(s, t.cons, t.conList, 1) == s;
    assert Repaired(s, t.cons, t.conList, 2) == s;
    assert Repaired(s, t.cons, t.conList, 3) == s;
    assert Repaired(s, t.cons, t.conList, 4) == s;
  }

  lemma HasCon(cons: map<ConId, Con>, list: seq<ConId>, id: ConId, c: NicId, s: NicId)
    requires (forall k :: k in list ==> k in cons) && id in list && cons[id].client == c && cons[id].server == s
    ensures FindCon(cons, list, c, s, 0).Some?
  {
    hide FindCon;
    var i :| 0 <= i < |list| && list[i] == id;
    assert cons[list[i]].client == c;
  }

  lemma TouchBusy(t: Table, c: NicId, s: NicId)
    requires Shaped(t) && c in t.nics && s in t.nics && t.nicState[c] != Idle
    requires FindCon(t.cons, t.conList, c, s, 0).Some?
    ensures TouchPair(t, c, s) == t
  {
  }

  /** A row whose pairs exist and whose client NIC is busy stays as it is. */
  lemma {:induction false} BusyRow(t: Table, c: NicId, k: nat)
    requires Shaped(t) && c in t.nics && t.nicState[c] != Idle && k <= |t.servers|
    requires forall s :: s in t.servers ==> FindCon(t.cons, t.conList, c, s, 0).Some?
    ensures Row(t, c, k) == t
  {
    hide TouchPair, FindCon, Shaped;
    ShapedNics(t);
    if k > 0 {
      BusyRow(t, c, k - 1);
      TouchBusy(t, c, t.servers[k - 1]);
    }
  }

  lemma ShapedNics(t: Table)
    requires Shaped(t)
    ensures (forall n :: n in t.clients ==> n in t.nics) && (forall n :: n in t.servers ==> n in t.nics)
    ensures t.nicState.Keys == t.nics.Keys && forall id :: id in t.conList ==> id in t.cons
  {
  }

  lemma {:induction false} BusyRows(t: Table, k: nat)
    requires Shaped(t) && k <= |t.clients|
    requires forall c :: c in t.clients ==> t.nicState[c] != Idle
    requires forall c, s :: c in t.clients && s in t.servers ==> FindCon(t.cons, t.conList, c, s, 0).Some?
    ensures Rows(t, k) == t
  {
    hide Row, FindCon, Shaped;
    ShapedNics(t);
    if k > 0 {
      BusyRows(t, k - 1);
      BusyRow(t, t.clients[k - 1], |t.servers|);
    }
  }

  lemma BothCompleted(t: Table, a: Nic, b: Nic, y: Nic, x: Nic)
    requires Shaped(t) && t == Both(t.maxChannels, t.srvrRss, a, b, y, x)
    ensures Completed(t) == t
  {
    hide Shaped, FindCon;
    ShapedNics(t);
    HasCon(t.cons, t.conList, 4, 1, 3);
    HasCon(t.cons, t.conList, 5, 1, 2);
    HasCon(t.cons, t.conList, 6, 0, 3);
    HasCon(t.cons, t.conList, 7, 0, 2);
    BusyRows(t, 2);
  }

  lemma BothReported(t: Table, a: Nic, b: Nic, y: Nic, x: Nic)
    requires WF(t) && Shaped(t) && t == OnTheWay(t.maxChannels, t.srvrRss, a, b, y, x)
    ensures Report(t, 5, true) == Both(t.maxChannels, t.srvrRss, a, b, y, x)
  {
    hide WF, Marked, RepairTable, Completed;
    ReportFinds(t, 5);
    var t0 := t.(trials := 0);
    BothMarkedPairs(t0, a, b, y, x);
    BothRepaired(Both(t.maxChannels, t.srvrRss, a, b, y, x), a, b, y, x);
    BothCompleted(Both(t.maxChannels, t.srvrRss, a, b, y, x), a, b, y, x);
  }

  lemma BothStep(t: Table, a: Nic, b: Nic, y: Nic, x: Nic)
    requires WF(t) && Shaped(t) && t == OnTheWay(t.maxChannels, t.srvrRss, a, b, y, x)
    ensures var r := Both(t.maxChannels, t.srvrRss, a, b, y, x);
      WF(r) && Shaped(r) && Next(t, ReportTrial(5, true)) == r
  {
    hide WF, Shaped, Report, Both;
    BothReported(t, a, b, y, x);
    Follows(t, ReportTrial(5, true));
  }

  /** The slower connection is below the bar. */
  lemma BothBar(t: Table, a: Nic, b: Nic, y: Nic, x: Nic)
    requires Shaped(t) && t == Both(t.maxChannels, t.srvrRss, a, b, y, x)
    requires Min(a.speed, x.speed) < Min(b.speed, y.speed)
    ensures Held(t) && Agree(t) && BySpeed(t, t.success, false) != {}
    ensures forall id :: id in t.cons ==> t.cons[id].state != InRemoval
  {
    hide Shaped;
    assert TopWired(t, 0) == 0 && TopWired(t, 1) == 0 && TopWired(t, 2) == 0;
    assert TopSpeed(t, 0) == 0 && TopSpeed(t, 1) == t.cons[6].speed && TopSpeed(t, 2) == t.cons[5].speed;
    assert !AtTheBar(t, t.cons[6]);
    assert 6 in BySpeed(t, t.success, false);
  }

  lemma BothStranded(t: Table, a: Nic, b: Nic, y: Nic, x: Nic)
    requires WF(t) && Shaped(t) && t == Both(1, t.srvrRss, a, b, y, x) && Min(a.speed, x.speed) < Min(b.speed, y.speed)
    ensures Served(t.cons) && !Served(Next(t, CollectExcess(3)).cons)
  {
    hide WF, Shaped, Excess, BySpeed, Agree, ActiveAreFastest, Bar;
    BothBar(t, a, b, y, x);
    ExcessStrandsNone(t, 3);
    Follows(t, CollectExcess(3));
    assert 5 in ActiveIds(t.cons);
  }

  /**
   A run that leaves a session of one allowed channel without an active one: a faster channel comes up beside the main
   channel, and collecting the excess removes it and keeps the slower one as a spare.
   */
  lemma StrandingRun(states: seq<Table>, steps: seq<Step>, a: Nic, b: Nic, y: Nic, x: Nic)
    requires a == NicOf(1, SLOW) && b == NicOf(2, FAST) && y == NicOf(8, PORT_B) && x == NicOf(7, PORT_A)
    requires steps == [LoadClients([SLOW, FAST], false), QueryAnswer([PORT_A, PORT_B]), MainUp(V4(1), V4(7), 1),
                       AskTrials(1),
                       ReportTrial(5, true), CollectExcess(3)]
    requires states == [Blank(1, 1), Half(1, 1, a, b), Known(1, 1, a, b, y, x), Joint(1, 1, a, b, y, x),
      OnTheWay(1, 1, a, b, y, x),
                        Both(1, 1, a, b, y, x), Next(Both(1, 1, a, b, y, x), CollectExcess(3))]
    ensures IsRun(states, steps) && Served(states[5].cons) && !Served(states[6].cons)
  {
    hide WF, Shaped, Next, AddClients, AnsweredNics, Known, Joint, Half, Blank, Both, OnTheWay, Init, Setting, Served;
    BlankIs(1, 1);
    PlainLoads();
    HalfRss(1, 1, a, b);
    PlainAnswers(Half(1, 1, a, b));
    PlainSetting(a, b, y, x);
    Leads(1, 1, a, b, y, x, steps[0], steps[1], steps[2]);
    SquareIs(1, 1, a, b, y, x);
    BothStep(states[4], a, b, y, x);
    BothStranded(states[5], a, b, y, x);
  }

  lemma SquareIs(channels: nat, rss: nat, a: Nic, b: Nic, y: Nic, x: Nic)
    ensures var t := OnTheWay(channels, rss, a, b, y, x); t.maxChannels == channels && t.srvrRss == rss
    ensures Both(channels, rss, a, b, y, x).srvrRss == rss
  {
  }
}
