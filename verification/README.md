# SMB client: connection table, connection objects, digest and name conversion

A model of five parts of the SMB client's kernel code, with their properties proved for all
inputs, all runs or all interleavings. `dafny verify dfyconfig.toml` checks the whole project.

**The multichannel connection table** (modules `Mc…`). A session keeps the client's NICs, the
server's NICs and one entry per pair of them, with a life cycle per pair and a state per NIC.
Every public call holds the table's lock, so each is one step. `McTypes` to `McNics` say what each
call does to a table as a value and what it keeps; `McRuns`, `McSpeeds`, `McTrialCount`, `McHeld`,
`McProduct` and `McRss` are about whole runs from an empty table, and `McExamples` and `McSquare`
have runs that end in a failure. What each call makes of the table, said of the pairs and NICs and
not of the loops, is in `McOutcome` (reports, disconnects, the main channel, resets), `McChoice`
(which pair a trial request takes), `McCull` (which connections are collected as excess),
`McRefresh` and `McUpdates` (updates of the NIC lists) and `McMerge` (NICs out of descriptions).
`McSession` is the table as the code keeps it, an object whose methods update lists and maps in
place in loops, each proved to do what the value form says (`McLoops` has the facts its loops
need). `McWire` reads the server's answer to an interface query from bytes and `McArray` the
client's array of interfaces.

**The connection objects** (modules `Co…`). `CoLock` is the re-entrant object lock, in which
threads interleave at single reads and writes. `CoRefs` is the reference counting over session
list, sessions and shares, in which every locked section is one step; `CoCascade` follows a
release through the teardowns it causes; `CoObjects` has the operations in place, with the device
calls that take and hand over references. The references are exact precisely when no put meets an
object that is already gone and no object is freed under a handle (`CoRefs.RunExact`); so they are
whenever no reference is taken on a gone object (`CoRefs.WatchfulExact`).

**The session search** (`SmLookup`), with its retries, locks and references.

**MD4** (`Md4Spec`, `Md4Rounds`, `Md4Context`, `Md4Vectors`): the streaming digest against sections
3.1 to 3.5 of RFC 1320, and two digests of its test suite.

**Names on the network** (`PathSpec`, `PathConvert`, `CodePageTables`, `CodePage`): paths in
Unicode mode, for any conversion of single components, and code page 437.

## What the code does not keep

Each of these has an example, or a statement for all inputs of that kind, and a theorem that says
exactly when the code does keep the property.

- A reported trial failure fails every RSS sibling of the pair, connected or not, so the success
  list can hold a failed pair (the run `McSquare.FailingRun`; exactly when: `McRuns.RunAgrees`).
- The main channel coming up on a pair that the table does not have yet parks the other pairs of
  both NICs without setting the NICs used (the run `McExamples.StarvingRun`; exactly when:
  `McRuns.RunNoStarvation`).
- Loading the client's interfaces again leaves the cached speed of a connected pair outdated (the
  run `McExamples.OutdatedRun`; exactly when: `McSpeeds.RunSpeedsFresh`).
- With one channel allowed, collecting excess can leave no active connection (the run
  `McSquare.StrandingRun`; exactly when, given room for all: `McExcess.ExcessStrandsNone`).
- In the update of a NIC list, the list of updates is already empty when unused NICs are dropped,
  so a NIC named in the update is not protected (the run `McExamples.DroppingRun`; exactly when:
  `McUpdates.UpdateDrops`, `McUpdates.NamedDropped`).
- Dropping a NIC frees its pairs and leaves the success list alone, so that the list can name a freed
  pair, which collecting excess then uses (the run `McSquare.FreedRun`; exactly when:
  `McHeld.RunHeld`; never where the success list is right: `McHeld.AgreeingHeld`).
- A NIC that loses its last address of a family in an update goes on counting as having the family,
  so that pairs with NICs of that family are tried in vain (`McRefresh.StaleFlag`; exactly when:
  `McRefresh.FlagsAfter`).
- An array of client interfaces is refused for the next-entry offset of its last entry, after which
  nothing follows, and its entries are in the table all the same (exactly when:
  `McArray.ArrayRoundTrip`).
- An unlock by a thread that does not have the lock does nothing if it is not interrupted, but if
  the lock is taken between its owner test and its count test it takes a level away from the new
  owner (the interleaving `CoLock.StrayExample`; exactly when: `CoLock.RunOwned`).
- A teardown waits for the lock count and not for the mutex, so that a thread that has looked at the
  gone mark and not yet set the count gets the lock afterwards (the interleaving
  `CoLock.DrainExample`; exactly when: `CoLock.DrainAlone`).
- The end of a teardown frees the object whatever its use count, so that a search which locked a
  session before its last release and takes its reference afterwards is left with a handle on a
  freed session (the run `CoRefs.FreedUnderHandle`; exactly when: `CoRefs.RunExact`; never where no
  reference is taken on a gone object, `CoRefs.WatchfulExact`, or each one is given up before the
  object leaves its parent, `CoRefs.ConsiderateExact`).
- The name flag of the session search can be set although no session is found
  (`SmLookup.FlagExample`, `SmLookup.FlagAfterRetry`; exactly when: `SmLookup.FlagMisleadsWhen`).
- A path to the network and back is another path when a name has the delimiter in it
  (`PathSpec.DelimiterInName`; exactly when it is the same: `PathSpec.RoundTrip`).
- The 32-bit test of the digest's block loop wraps around for some of the longest pieces
  (`Md4Context.WrapExample`; exactly when: `Md4Context.WrapsWhen`).
- The conversion of a network path stops without an error when the room ends right after a
  delimiter (`PathSpec.BackStopsEarly`; exactly when: `PathSpec.BackSucceeds`).

## Model

| member | source | states |
|---|---|---|
| `McRuns.RunWellFormed` | kernel/netsmb/smb2_mc_support.c:1623-1683 | In every state of every run of the public calls, both NIC lists are duplicate-free with unique indices, there is at most one entry per NIC pair with both NICs listed, and each client NIC's own list is its slice of the pair list |
| `McRuns.RunNoIdleInUse` | kernel/netsmb/smb2_mc_support.c:1255-1277 | In every state of every run, RSS copies included, no NIC of a connected or on-trial pair is idle, although a failure and a disconnect first set both NICs idle |
| `McRuns.RunNoStarvation` | kernel/netsmb/smb2_mc_support.c:1629-1680 | No state of a run has a surplus pair of two idle NICs, exactly for the runs in which the main channel never comes up on a pair that is missing from the table while a free potential pair shares a NIC with it |
| `McRuns.RunAgrees` | kernel/netsmb/smb2_mc_support.c:2045-2060 | The success list is duplicate-free and holds exactly the connected and in-removal pairs in every state, exactly for the runs whose reports are safe: a pass for a pair that is not on the list, a failure while no pair between the same two interfaces is on it |
| `McRss.RunAgreesWithoutRss` | kernel/netsmb/smb2_mc_support.c:1404-1410 | With one RSS channel configured on both sides the condition on failures holds by itself: if no pair that is connected or in removal is reported again, the success list is right in every state |
| `McRss.FailureSafe` | kernel/netsmb/smb2_mc_support.c:1404-1410 | Without RSS copies a reported failure keeps the success list right exactly when the failed pair is not on it |
| `McSquare.FailingRun` | kernel/netsmb/smb2_mc_support.c:1404-1410 | A run of five calls on RSS interfaces, a load, an answer, the main channel, a trial and its failure, after which the pair of the main channel is on the success list and not connected |
| `McSquare.FreedRun` | kernel/netsmb/smb2_mc_support.c:948-974 | The same run and a notification without the interface: the pair of the main channel is freed and still on the success list |
| `McHeld.RunHeld` | kernel/netsmb/smb2_mc_support.c:906-977 | Every entry of the success list is in the table in every state, exactly for the runs in which no update drops a NIC of a pair on the list |
| `McHeld.AgreeingHeld` | kernel/netsmb/smb2_mc_support.c:338-493 | In the runs whose reports keep the success list right every entry is in the table in every state |
| `McHeld.UpdatePairs` | kernel/netsmb/smb2_mc_support.c:1119-1144 | A pair outlives an update exactly if its NIC on the updated side is not useless once the update is applied, and the success list stays as it was |
| `McExamples.StarvingRun` | kernel/netsmb/smb2_mc_support.c:2061-2095 | A run of four calls in which the main channel comes up on a client NIC loaded after the answer and leaves a surplus pair of two idle NICs |
| `McExamples.OutdatedRun` | kernel/netsmb/smb2_mc_support.c:697-712 | A run of four calls in which the client interfaces are loaded again and a connected pair keeps the speed of before |
| `McExamples.DroppingRun` | kernel/netsmb/smb2_mc_support.c:1046-1148 | A run of five calls in which the server names its NIC again with nothing changed and the NIC is dropped |
| `McSquare.StrandingRun` | kernel/netsmb/smb2_mc_support.c:338-493 | A run of six calls with one channel allowed in which collecting excess leaves no active connection where there was one |
| `McSpeeds.RunSpeedsFresh` | kernel/netsmb/smb2_mc_support.c:1526-1548 | The cached speed of every busy pair whose client NIC is not ignore-listed is the minimum of the link speeds of its NICs in every state, exactly for the runs in which no load of client interfaces changes a speed that matters and no pair is put in removal with an outdated one |
| `McSpeeds.LoadSpeeds` | kernel/netsmb/smb2_mc_support.c:643-753 | Loading client interfaces keeps these speeds right exactly when, for each busy pair, the last description of its client NIC gives the pair the speed it had |
| `McSpeeds.ExcessSpeeds` | kernel/netsmb/smb2_mc_support.c:317-503 | Collecting excess keeps these speeds right exactly when no pair that was not busy is put in removal with an outdated speed |
| `McSpeeds.AgreeRemoves` | kernel/netsmb/smb2_mc_support.c:457-493 | With the right success list no such pair is |
| `McSpeeds.AgreeingSpeeds` | kernel/netsmb/smb2_mc_support.c:1526-1548 | In the runs whose reports keep the success list right, the cached speeds are right in every state exactly when no load of client interfaces changes one that matters |
| `McSpeeds.StepSpeeds` | kernel/netsmb/smb2_mc_support.c:1526-1548 | Of all public calls only these two can leave a speed outdated |
| `McTrialCount.PausedHandsOutNothing` | kernel/netsmb/smb2_mc_support.c:1550-1594 | Trials are paused k deep exactly when some last part of the run has k more pauses than resumes; a paused table hands out nothing and stays as it is |
| `McTrialCount.CounterIsOutstanding` | kernel/netsmb/smb2_mc_support.c:513-632 | If every report is for an outstanding trial, the trial counter equals the number of trials handed out and not reported, and never exceeds the channel limit plus the largest request |
| `McProduct.CompletedIsProduct` | kernel/netsmb/smb2_mc_support.c:1623-1683 | Completing the pair list gives exactly one entry per client and server NIC, as many as the product of the two list lengths, and each client NIC's list is its own pairs, each once |
| `McProduct.CompleteSize` | kernel/netsmb/smb2_mc_support.c:1623-1683 | A complete well-formed table has as many entries as there are pairs of a client and a server NIC |
| `McConList.RepairTableSound` | kernel/netsmb/smb2_mc_support.c:1429-1443 | After the repair scan no NIC of a connected or on-trial pair is idle, whatever the NIC states were before it |
| `McConList.CompletedSound` | kernel/netsmb/smb2_mc_support.c:1623-1683 | Completing the list only adds fresh pairs and unparks pairs whose NICs are both idle; afterwards every client-server pair is there and none is parked behind two idle NICs |
| `McConList.CompletedPairs` | kernel/netsmb/smb2_mc_support.c:1631-1679 | Each pair afterwards: a new one has no potential exactly if its NICs share no address family or its client NIC is ignore-listed, is otherwise surplus exactly if its server NIC is used and otherwise potential, with speed 0 and no iod; an old one is as it was, but potential again if it was surplus and both its NICs are idle |
| `McConList.RepairedExact` | kernel/netsmb/smb2_mc_support.c:1429-1443 | The scan leaves each NIC used or on trial as the last connected or on-trial pair that has it says, and as it was if there is none |
| `McReport.MarkedAgree` | kernel/netsmb/smb2_mc_support.c:2045-2060 | Connecting a pair keeps the success list right exactly when the pair was not on it |
| `McReport.MarkedStarvation` | kernel/netsmb/smb2_mc_support.c:2061-2095 | Connecting a pair parks no pair behind two idle NICs, exactly under the stated condition on the pair and the potential pairs of its NICs |
| `McReport.FailTrialAgree` | kernel/netsmb/smb2_mc_support.c:1394-1423 | A failed trial keeps the success list right exactly when no pair between the same two interfaces is on it |
| `McReport.ReportKeeps` | kernel/netsmb/smb2_mc_support.c:1355-1451 | After any reported trial the table is well formed, no NIC in use is idle and no pair is parked behind two idle NICs, whatever held before |
| `McReport.ReportAgree` | kernel/netsmb/smb2_mc_support.c:1355-1451 | A report keeps the success list right exactly when it is a safe one |
| `McReport.DisconnectKeeps` | kernel/netsmb/smb2_mc_support.c:1231-1283 | A disconnect leaves no NIC in use idle and no pair parked behind two idle NICs, and keeps the cached speeds right |
| `McReport.DisconnectAgree` | kernel/netsmb/smb2_mc_support.c:1231-1283 | A disconnect takes exactly its pair off the success list and leaves every other connection alone |
| `McOutcome.PassMeans` | kernel/netsmb/smb2_mc_support.c:1355-1451 | After a trial that passed, its pair is connected at the speed of its slower NIC, keeps the iod it has and is last on the success list; the potential pairs of either NIC are surplus; every other pair is as it was, or was surplus and is potential behind two idle NICs; every NIC is as the pairs that hold it say |
| `McOutcome.FailMeans` | kernel/netsmb/smb2_mc_support.c:1387-1451 | After a trial that failed, its pair has failed and has no iod; the pairs between the same two interfaces have failed too; surplus pairs of the client interface or the server NIC, and those behind two idle NICs, are potential; every other pair and the success list are as they were; a NIC of the trial that no pair holds is idle |
| `McOutcome.DisconnectMeans` | kernel/netsmb/smb2_mc_support.c:1231-1283 | After a disconnect the pair is potential, or failed or without potential if it was, and has no iod; every other pair is as it was, or was surplus and is potential behind two idle NICs; its NICs are idle unless another pair holds them |
| `McOutcome.MainUpMeans` | kernel/netsmb/smb2_mc_support.c:1310-1353 | The main channel comes up on the first NICs that are no RSS copies and have the two addresses: their pair, if the table has it, is connected with the iod and last on the success list and both NICs are used; potential pairs of either NIC become surplus; nothing else changes |
| `McOutcome.MainUpUnknown` | kernel/netsmb/smb2_mc_support.c:1324-1338 | With an address that no such NIC has, nothing changes |
| `McOutcome.ResetMeans` | kernel/netsmb/smb2_mc_support.c:1857-1875 | After a reset no pair of a client NIC that is not ignore-listed has failed or is without potential; the pairs that had are potential, the others have the speed of their slower NIC, and nothing else changes |
| `McStats.CountStatsCounts` | kernel/netsmb/smb2_mc_support.c:109-293 | The two counts gathered are the numbers of connected pairs that are active and inactive |
| `McStats.BenignKeeps` | kernel/netsmb/smb2_mc_support.c:109-293 | Gathering statistics, which may refresh speeds and unpark pairs that are not in use, keeps every safety property |
| `McTrial.CountStatsSound` | kernel/netsmb/smb2_mc_support.c:109-293 | The pairs the statistics offer are potential with no NIC on trial, the recorded maxima are reached and bound the connected pairs, and without a preference for wired NICs no free potential pair is faster than the one offered |
| `McTrial.AskRefused` | kernel/netsmb/smb2_mc_support.c:513-522 | A paused table, or one with more open trials than channels, hands out nothing and does not change |
| `McTrial.AskHandsOutMatching` | kernel/netsmb/smb2_mc_support.c:527-632 | A request hands out at most as many pairs as asked for; no two of them share a NIC and none had a NIC on trial; exactly these pairs go on trial and each is counted once |
| `McTrial.AskLeavesNothing` | kernel/netsmb/smb2_mc_support.c:527-632 | A request that was not refused and left room ended at the channel limit, with as many connections as channels are allowed and no free potential pair faster than every active one, or for want of a pair, with no free potential pair as fast as some active connection; the speeds are stated without a preference for wired NICs |
| `McTrial.AskPreserves` | kernel/netsmb/smb2_mc_support.c:505-637 | A request keeps every safety property of the table; its loop ends although promoting a spare uses up no slot |
| `McChoice.CountTells` | kernel/netsmb/smb2_mc_support.c:109-293 | The statistics are those of the table: the counts, the top speed of the active connections, the first fastest inactive one, whether one of these is wired, and the first fastest open pair of any kind and wired; with an active connection and no open pair of the kind sought, the first pair that could replace a slower channel instead, which alone changes its state |
| `McChoice.TurnMeans` | kernel/netsmb/smb2_mc_support.c:527-632 | A turn promotes the fastest inactive connection exactly if none is active and it has an iod; otherwise it stops exactly at the channel limit, or if the pair on offer is not worth a trial; otherwise it puts that pair on trial, as active exactly if it is at least as fast as every active connection and wired where that is preferred. On offer is the fastest open pair, a wired one where that is preferred, failing that the first upgrade, failing that, where wired ones are preferred and none is inactive, the fastest open pair of any kind |
| `McChoice.AskMeans` | kernel/netsmb/smb2_mc_support.c:505-637 | A request that is not refused is a series of such turns, each on the table the one before left; it hands out the pairs they put on trial, in order, and ends with the vector full or for the reason the last one gives |
| `McChoice.AskExhausts` | kernel/netsmb/smb2_mc_support.c:572-632 | A request that ends for want of a pair leaves no open pair with a speed and no upgrade, if no connection is inactive and it started no spare, whether or not wired NICs are preferred |
| `McExcess.BarIsTop` | kernel/netsmb/smb2_mc_support.c:338-358 | The speed that makes a connection active is the top speed of the connections, or of the wired ones where these are preferred and have a speed, and some connection reaches it |
| `McExcess.ExcessKeeps` | kernel/netsmb/smb2_mc_support.c:317-503 | Collecting excess keeps the NIC properties |
| `McExcess.ExcessReturns` | kernel/netsmb/smb2_mc_support.c:457-493 | It returns connected pairs of the success list, at most as many as asked for and none twice, and puts exactly these in removal |
| `McExcess.ExcessQuiet` | kernel/netsmb/smb2_mc_support.c:360-493 | When nothing is returned, at most the channel limit of connected pairs is active or inactive, at most one is inactive and none is redundant |
| `McExcess.ExcessStrandsNone` | kernel/netsmb/smb2_mc_support.c:338-493 | With a connection and nothing in removal, some connection stays active if two channels are allowed or none is below the top speed, and with room for all only then; every active one has the top speed, and is wired where wired ones count |
| `McCull.ExcessTakes` | kernel/netsmb/smb2_mc_support.c:457-493 | Collecting excess returns, in list order and as many as fit, exactly the connections below the bar that are not the spare, and the first of those at the bar as far as there are more of them than the limit allows beside the spare; it reports how many are at the bar |
| `McCull.ExcessRanks` | kernel/netsmb/smb2_mc_support.c:360-444 | Afterwards a connection is active if it is at the bar, inactive if it is the spare, and redundant otherwise. The spare is the fastest one below the bar that shares no NIC with an entry that counts as active, a wired one where these are preferred and one qualifies; if none qualifies, the last one below the bar |
| `McCull.ExcessLeaves` | kernel/netsmb/smb2_mc_support.c:457-493 | With room for all of them, the active connections left number the smaller of those at the bar and the channel limit less the spare |
| `McCull.ExcessNothing` | kernel/netsmb/smb2_mc_support.c:360-493 | With nothing in removal, nothing is returned exactly if at most one connection is below the bar and all together are within the channel limit |
| `McExcess.DropAllSound` | kernel/netsmb/smb2_mc_support.c:1231-1283 | Disconnecting distinct connections one after the other takes exactly these off the success list |
| `McExcess.DrainSound` | mc_support_tester/main.c:512-535 | Collecting and disconnecting until nothing is returned ends, within the channel limits and with the success list right |
| `McNotifier.UpdateKeeps` | kernel/netsmb/smb2_mc_support.c:1021-1148 | An update of a NIC list keeps every safety property, removes no connected, on-trial or in-removal pair and changes nothing of it but its cached speed |
| `McUpdates.UpdateDrops` | kernel/netsmb/smb2_mc_support.c:1119-1144 | A NIC of the list, named in the update or not, is dropped exactly if, once the update is applied, it has pairs, is not ignore-listed and none of its pairs can be used |
| `McUpdates.NamedDropped` | kernel/netsmb/smb2_mc_support.c:1050-1144 | A NIC that the update names and that has all its pairs is dropped exactly if it is a server NIC, nothing about it has changed, and none of its pairs can be used |
| `McRefresh.UpdateNics` | kernel/netsmb/smb2_mc_support.c:1021-1148 | After an update that names no index twice, a NIC that stays has the speed, the type and exactly the addresses of the update that names it, or is as it was if none does; a new index has an idle NIC as described; a NIC is dropped exactly if it is not ignore-listed, has pairs, and all of them have failed or are without potential; the other side is as it was |
| `McRefresh.UpdatePairsMean` | kernel/netsmb/smb2_mc_support.c:1021-1148 | After it, a pair of a named client NIC or of a NIC that has changed, unless it is ignore-listed, is potential if it had failed or was without potential, and has the speed of its slower NIC otherwise; any other pair is as it was; if an index was new, surplus pairs behind two idle NICs are potential and the new pairs are born as above |
| `McRefresh.UpdateNicMeans` | kernel/netsmb/smb2_mc_support.c:979-1009 | A NIC that takes over an update has its addresses, the known ones first and none twice unless one was before, and counts as changed exactly if it differs from what it was |
| `McRefresh.CallsDistinct` | kernel/netsmb/smb2_mc_support.c:1453-1503 | A notification and a query answer never name an index twice, so that this holds of both |
| `McRefresh.FlagsAfter` | kernel/netsmb/smb2_mc_support.c:981-1007 | Address family flags that are right stay right exactly if the update has an address of each family that the NIC had |
| `McRefresh.StaleFlag` | kernel/netsmb/smb2_mc_support.c:981-1007 | A NIC that goes from an IPv4 to an IPv6 address counts as having both |
| `McNotifier.InsertedInOrder` | kernel/netsmb/smb2_mc_support.c:1717-1750 | A NIC that joins a list in order of speed leaves it so, and stands before those of its own speed |
| `McNics.AddInfoExtends` | kernel/netsmb/smb2_mc_support.c:1453-1503 | Adding an interface description keeps the table well formed and touches no pair and no NIC state |
| `McNics.ExtendsKeeps` | kernel/netsmb/smb2_mc_support.c:643-753 | Adding descriptions keeps the NIC properties and the success list |
| `McSession.SessionTable.constructor` | kernel/netsmb/smb2_mc_support.c:1169-1223 | An empty table with defaults for zero counts, the overlong ignore list dropped |
| `McSession.SessionTable.RepairNicStates` | kernel/netsmb/smb2_mc_support.c:1429-1443 | The scan in place gives the repaired NIC states |
| `McSession.SessionTable.FindConByNics` | kernel/netsmb/smb2_mc_support.c:1505-1520 | The first pair of the list with the two NICs |
| `McSession.SessionTable.TouchPair` | kernel/netsmb/smb2_mc_support.c:1631-1679 | One body of the nested loop: the pair is created, or unparked when its NICs are idle |
| `McSession.SessionTable.UpdateConList` | kernel/netsmb/smb2_mc_support.c:1623-1683 | The nested loop in place gives the completed table |
| `McSession.SessionTable.MarkClientPairs` | kernel/netsmb/smb2_mc_support.c:2045-2076 | The loop over the client NIC's own pairs: the right one connects and joins the success list, the potential ones are parked |
| `McSession.SessionTable.ParkServerPairs` | kernel/netsmb/smb2_mc_support.c:2078-2095 | The loop over all pairs parks the potential ones of the server NIC |
| `McSession.SessionTable.UpdateNewConnection` | kernel/netsmb/smb2_mc_support.c:2027-2098 | A new connection between two indices connects its pair and parks the others, or changes nothing if an index is unknown |
| `McSession.SessionTable.FailConnections` | kernel/netsmb/smb2_mc_support.c:1394-1423 | The clean-up after a failed trial: the failed pair and its RSS siblings fail, its surplus neighbours may be tried again |
| `McSession.SessionTable.ReportTrialResult` | kernel/netsmb/smb2_mc_support.c:1355-1451 | The report of a trial in place, after which no NIC in use is idle and no pair is parked behind two idle NICs |
| `McSession.SessionTable.DropConnection` | kernel/netsmb/smb2_mc_support.c:1240-1257 | The pair leaves the success list and its NICs are set idle |
| `McSession.SessionTable.InformDisconnected` | kernel/netsmb/smb2_mc_support.c:1231-1283 | A disconnect in place, with the same guarantees as a report |
| `McSession.SessionTable.UpdateMainChannel` | kernel/netsmb/smb2_mc_support.c:1310-1353 | The main channel comes up on the pair of two addresses; unknown addresses change nothing |
| `McSession.SessionTable.TallyConnections` | kernel/netsmb/smb2_mc_support.c:134-203 | The first loop of the statistics: one pass gives the counts and the fastest pairs of each kind |
| `McSession.SessionTable.SeekUpgrade` | kernel/netsmb/smb2_mc_support.c:204-262 | The second loop looks for a pair that could replace a slower channel of a NIC |
| `McSession.SessionTable.CountConnectionStats` | kernel/netsmb/smb2_mc_support.c:109-293 | Both loops in place give the statistics and the touched-up pairs |
| `McSession.SessionTable.AskForTrials` | kernel/netsmb/smb2_mc_support.c:505-637 | The request loop in place hands out exactly the pairs of the specification and ends |
| `McSession.SessionTable.IsOnActive` | kernel/netsmb/smb2_mc_support.c:295-315 | Whether some entry marked active, connected or not, has one of the two NICs |
| `McSession.SessionTable.SortConnections` | kernel/netsmb/smb2_mc_support.c:338-444 | Every successful pair becomes active, the one spare, or redundant |
| `McSession.SessionTable.SweepExcess` | kernel/netsmb/smb2_mc_support.c:457-493 | Redundant connections and active ones over the limit are put in removal |
| `McSession.SessionTable.ReturnExcess` | kernel/netsmb/smb2_mc_support.c:317-503 | Collecting excess in place, within the limits when nothing is returned |
| `McSession.SessionTable.DrainExcess` | mc_support_tester/main.c:512-535 | The driver's loop in place ends within the channel limits |
| `McSession.SessionTable.ResetConStatus` | kernel/netsmb/smb2_mc_support.c:1526-1548 | Pairs of an updated NIC: hopeless ones may be tried again, the others get their speed refreshed |
| `McSession.SessionTable.UpdateIpList` | kernel/netsmb/smb2_mc_support.c:979-1009 | The addresses shared with the update stay first, the new ones follow, and the change is reported |
| `McSession.SessionTable.InsertNicBySpeed` | kernel/netsmb/smb2_mc_support.c:1717-1750 | A NIC goes before the first one that is not faster |
| `McSession.SessionTable.RemoveNicIfUnused` | kernel/netsmb/smb2_mc_support.c:906-977 | A NIC is dropped with its pairs exactly if it has pairs and all of them are hopeless |
| `McSession.SessionTable.UpdateNicList` | kernel/netsmb/smb2_mc_support.c:1021-1148 | The whole update in place, well formed afterwards |
| `McSession.SessionTable.AddInterfaceInfo` | kernel/netsmb/smb2_mc_support.c:1453-1503 | One description brings the NIC of its index up to date, or makes it |
| `McSession.SessionTable.ParseClientInterfaces` | kernel/netsmb/smb2_mc_support.c:643-753 | For every buffer and count the entries are read inside the buffer and added in order, with RSS copies for capable ones that are not ignore-listed; it fails exactly when an entry leaves the buffer or gives too small an offset, and what was taken before stays |
| `McArray.ReadBound` | kernel/netsmb/smb2_mc_support.c:671-748 | However large the count, no more entries are taken than the buffer has room for |
| `McArray.ArrayRoundTrip` | kernel/netsmb/smb2_mc_support.c:671-748 | Every array of entries, with any bytes in the gaps and after each entry, is read back whole and in order; it is then refused exactly if the last entry gives an offset below the size of an entry |
| `McSession.SessionTable.ResetNicList` | kernel/netsmb/smb2_mc_support.c:1857-1875 | Every hopeless pair of a client NIC that is not ignore-listed may be tried again, and the table stays well formed |
| `McWire.GetAndAdvance` | kernel/netsmb/smb2_mc_support.c:1904-1958 | A read succeeds exactly when the field lies before the end, gives its little-endian value and moves past it |
| `McWire.ParseEntry` | kernel/netsmb/smb2_mc_support.c:793-845 | An entry is refused exactly when a field that is looked at leaves the buffer; an IPv4 or IPv6 entry gives its index, capabilities, speed and address, any other family gives nothing |
| `McWire.AddDescription` | kernel/netsmb/smb2_mc_support.c:847-880 | One description adds the NIC and, if it is RSS-capable, its further copies |
| `McWire.QueryInfoResponse` | kernel/netsmb/smb2_mc_support.c:793-880 | For every buffer the parser ends and reads inside it; it fails exactly when the chain of entries leaves the buffer, and otherwise builds the server list from all descriptions in order |
| `McWire.RoundTrip` | kernel/netsmb/smb2_mc_support.c:793-845 | Every non-empty list of IPv4 and IPv6 entries (section 2.2.32.5 of [MS-SMB2]), with any padding, is read back as the same indices, capabilities, speeds and addresses in order |
| `McMerge.ServersMerge` | kernel/netsmb/smb2_mc_support.c:1453-1503 | The NIC of an index exists after the server's descriptions exactly if it did before or one of them is of that index, RSS copies counting for capable interfaces only and below the configured number; it has each address it had or was told of once and no other, flags that tell its address families, and the speed, type and capabilities of the last description |
| `McMerge.ClientsMerge` | kernel/netsmb/smb2_mc_support.c:643-753 | The same for the client's descriptions, with the RSS bit forced where asked for and no copies of ignore-listed interfaces, whose NICs are marked |
| `CoLock.StepKeeps` | kernel/netsmb/smb_conn.c:79-117 | One access of any thread keeps the lock sound exactly when it is not the count test of an unlock by a thread that does not have the lock, passed on a count that is not zero |
| `CoLock.RunSound` | kernel/netsmb/smb_conn.c:79-117 | For every interleaving of any number of threads the lock is sound in every state, exactly when no stray unlock gets past the count test |
| `CoLock.RunOwned` | kernel/netsmb/smb_conn.c:79-117 | Whoever has the lock is its owner and the count is its nesting depth, in every state of the interleaving and however far the thread that moves then goes on alone, exactly when no stray unlock gets past the count test |
| `CoLock.DisciplinedSound` | kernel/netsmb/smb_conn.c:79-117 | If only threads that have the lock unlock it, it is sound in every state of every interleaving |
| `CoLock.SoundMeans` | kernel/netsmb/smb_conn.c:79-101 | At most one thread is inside; a thread with the lock is its owner, the count is its nesting depth, and it never waits for the mutex; the owner is someone without a level only while entering or leaving |
| `CoLock.StrayChangesNothing` | kernel/netsmb/smb_conn.c:103-107 | Each access of an unlock by a thread without the lock leaves the lock and every other thread alone, short of the one excluded |
| `CoLock.StrayAlone` | kernel/netsmb/smb_conn.c:103-107 | If no other thread moves meanwhile, such an unlock ends with the state as it was |
| `CoLock.StrayRobs` | kernel/netsmb/smb_conn.c:107-109 | If the lock is taken between its two tests, such an unlock takes one level from the thread that has it |
| `CoLock.StrayExample` | kernel/netsmb/smb_conn.c:103-109 | A concrete interleaving of two threads after which one has the lock once and the count is zero |
| `CoLock.DrainMeans` | kernel/netsmb/smb_conn.c:153-159 | When a teardown that waits for the lock goes on, nobody has the lock, and nobody is between taking and giving up the mutex exactly if the mutex is free |
| `CoLock.DrainAlone` | kernel/netsmb/smb_conn.c:82-96 | After that nobody gets the lock in any continuation, exactly if no thread was between its second look at the gone mark and the setting of the count |
| `CoLock.DrainExample` | kernel/netsmb/smb_conn.c:88-96 | A concrete interleaving in which the teardown goes on while a thread has the mutex and is about to get the lock |
| `CoRefs.StepKeeps` | kernel/netsmb/smb_conn.c:149-250 | One locked section keeps the references exact precisely when it is neither a put on an object that is already gone nor the freeing of an object on which a handle is left |
| `CoRefs.RunExact` | kernel/netsmb/smb_conn.c:149-250 | In every interleaving the references are exact throughout, precisely when no put ever meets a gone object and no object is freed under a handle |
| `CoRefs.Exact` | kernel/netsmb/smb_conn.c:181-250 | The use count is the number of children plus the handles held; an object with a child is not gone; a gone object was torn down once, a live one never |
| `CoRefs.TeardownAtZero` | kernel/netsmb/smb_conn.c:228-250 | The teardown of a live object begins exactly when its use count falls to zero |
| `CoRefs.AncestorsLive` | kernel/netsmb/smb_conn.c:165-176 | An object on its parent's list has all its ancestors present and not gone |
| `CoRefs.HeldStaysLive` | kernel/netsmb/smb_conn.c:205-250 | Whatever others do, a live object stays live for as long as one handle on it is kept |
| `CoRefs.WatchfulExact` | kernel/netsmb/smb_conn.c:205-219 | When no reference is taken on a gone object, no handle is ever on one and the references are exact throughout every interleaving |
| `CoRefs.ConsiderateExact` | kernel/netsmb/smb_conn.c:149-250 | When each put is by a holder that came by its handle on a live object, and no handle is left on an object when it leaves its parent and none is taken afterwards, the references are exact throughout every interleaving |
| `CoRefs.FreedUnderHandle` | kernel/netsmb/smb_conn.c:149-219 | A run of two devices on one session: the first releases it, the search of the second takes its reference, the teardown frees it, and the slot of the second is left on the freed session |
| `CoRefs.PutOnGoneExample` | kernel/netsmb/smb_conn.c:181-203 | The condition is needed: in a run of the model in which a reference taken on a draining object is put down, which no caller does, the references are not exact |
| `CoCascade.CollapseExact` | kernel/netsmb/smb_conn.c:149-179 | The cascade of teardowns ends by level, keeps the references exact, leaves nothing draining behind, touches no object below the level and leaves the others linked as they were |
| `CoCascade.PutAllExact` | kernel/netsmb/smb_conn.c:181-203 | Putting a reference, with whatever teardown follows, removes exactly that handle and keeps the references exact |
| `CoCascade.NothingLeaks` | kernel/netsmb/smb_conn.c:149-250 | When nothing is draining, every object is there for a handle on it or on something below it |
| `CoObjects.Connections.CoInit` | kernel/netsmb/smb_conn.c:121-137 | A new object has one use, held by its creator |
| `CoObjects.Connections.CoRef` | kernel/netsmb/smb_conn.c:205-219 | A reference raises the use count by one for its holder |
| `CoObjects.Connections.AddChild` | kernel/netsmb/smb_conn.c:221-226 | A reference on the parent becomes a child on its list |
| `CoObjects.Connections.CoPut` | kernel/netsmb/smb_conn.c:181-203 | A put in place, on any object, is the put of the specification with the whole cascade, and keeps the references exact when the object is not gone |
| `CoObjects.Connections.CoGone` | kernel/netsmb/smb_conn.c:149-179 | A teardown in place is the cascade of the specification, which frees the object whoever has a handle on it |
| `CoObjects.Connections.CoRele` | kernel/netsmb/smb_conn.c:228-250 | A release in place, which leaves a teardown under way to finish and the references exact |
| `CoObjects.ReleaseSettles` | kernel/netsmb/smb_conn.c:228-250 | Whatever is draining, a release removes exactly its handle, leaves nothing else draining and the remaining objects as they were |
| `CoObjects.ConnectUndone` | kernel/netsmb/smb_conn.c:1561-1568 | A refused tree connect takes the new share off again and leaves only the reference of the call |
| `CoObjects.Connections.ConnectShare` | kernel/netsmb/smb_conn.c:1553-1579 | The connect of a share adds one share, or leaves everything as it was |
| `CoObjects.Connections.SmTcon` | kernel/netsmb/smb_conn.c:1536-1582 | The session must still be on the list and not gone; success adds one share, any failure leaves everything as it was |
| `CoObjects.Connections.Tcon` | kernel/netsmb/smb_dev.c:659-682 | A device with a share, or without a session, or whose session has left the list or is gone, is refused with the error of that case; otherwise the server decides, and success gives the slot one new share on its session; any failure changes nothing |
| `CoObjects.Connections.Tdis` | kernel/netsmb/smb_dev.c:683-706 | The slot's share is given up with all that follows, or there was none |
| `CoObjects.Connections.Close` | kernel/netsmb/smb_dev.c:215-224 | Share and session of the slot are given up, the share first, and nothing else is, whatever is draining |
| `CoObjects.Connections.Dev2Share` | kernel/netsmb/smb_dev.c:1919-1933 | The share of the slot goes to the mount together with its reference, so that no count changes |
| `SmLookup.CompareNames` | kernel/netsmb/smb_conn.c:938-1019 | Two server names match exactly if they are the same up to case, the first label alone being compared for a name that is the only one with a dot |
| `SmLookup.AttemptMeans` | kernel/netsmb/smb_conn.c:1039-1214 | The outcome of an attempt is that of the first session that is a candidate and either gone or usable, and not found exactly if there is none |
| `SmLookup.SearchRight` | kernel/netsmb/smb_conn.c:1039-1224 | Across all attempts a session found is live and is the one asked for, or is authenticated, active, of the same owner and mode, at the address or of the name, with fitting authentication; if none is found the last list had none |
| `SmLookup.ShareMeans` | kernel/netsmb/smb_conn.c:1060-1212 | A live session ends the search exactly if it is authenticated, active and not reconnecting, is at the address or of the name asked for, has the owner and the mode of the request, and has simple file sharing or: private guests meet private guests, anonymous users anonymous users, Kerberos Kerberos, a guest a guest, a name the same name |
| `SmLookup.DnsMatchMeans` | kernel/netsmb/smb_conn.c:938-1019 | Names match exactly if they agree up to case on all, or up to the first dot of the only one that has a dot, at most 255 characters of each |
| `SmLookup.SessionList.CheckAccess` | kernel/netsmb/smb_conn.c:1160-1212 | The chain of branches accepts exactly the sessions whose authentication suits the request and unlocks the others |
| `SmLookup.SessionList.Visit` | kernel/netsmb/smb_conn.c:1041-1213 | One session is passed over unchanged, or ends the search; the name flag tells that the name and not the address matched |
| `SmLookup.SessionList.Scan` | kernel/netsmb/smb_conn.c:1041-1214 | One attempt leaves every session as it was but the one found, which has one more lock level; found or not, the name flag is that of the specification |
| `SmLookup.SessionList.LookupInt` | kernel/netsmb/smb_conn.c:1027-1224 | The session found has one more lock level and one more use; every other session and the lock on the list are as they were; a failure changes nothing, however often the search starts again; the name flag is that of the specification |
| `SmLookup.SearchFlagMeans` | kernel/netsmb/smb_conn.c:1027-1224 | Found or not, the name flag tells whether the last session visited, in the last attempt that had one to visit, was matched by its name alone; if none had, it is what the caller had put there |
| `SmLookup.FlagMisleadsWhen` | kernel/netsmb/smb_conn.c:1027-1224 | No session is found and the flag is set exactly when that session has the name asked for and is passed over or gone, or there was none and the caller had set the flag |
| `SmLookup.FlagAfterRetry` | kernel/netsmb/smb_conn.c:1083-1124 | A session that is going away sets the flag, and an empty list at the next attempt leaves it set |
| `SmLookup.FlagWithoutSession` | kernel/netsmb/smb_conn.c:1043-1104 | A session of another owner that has the name asked for sets the flag although none is found |
| `SmLookup.FlagExample` | kernel/netsmb/smb_conn.c:1043-1104 | A concrete search that finds nothing and leaves the flag set |
| `Md4Spec.PadLengthFits` | kernel/netsmb/md4c.c:147-151 | The padding has 1 to 64 bytes, reaches 56 modulo 64, and with the length fills whole blocks |
| `Md4Rounds.TurnMeans` | kernel/netsmb/md4c.c:74-87 | Each of the three transformations, adding in 32-bit steps, is the operation of section 3.4 of RFC 1320 |
| `Md4Rounds.QuadAdvances` | kernel/netsmb/md4c.c:181-233 | Four assignments of the code are four operations of the schedule, the words taking turns |
| `Md4Rounds.Decode` | kernel/netsmb/md4c.c:263-270 | The sixteen words of a block, low-order byte first |
| `Md4Rounds.Encode` | kernel/netsmb/md4c.c:248-258 | The bytes of the words, low-order byte first |
| `Md4Rounds.Transform` | kernel/netsmb/md4c.c:175-243 | The 48 assignments written out are the three rounds of section 3.4 of RFC 1320 on the block, whose words go in order, in columns, and in bit-reversed order |
| `Md4Context.CountedAdvances` | kernel/netsmb/md4c.c:113-117 | The two count words, with carry and wrap-around, hold the number of bits modulo 2^64 |
| `Md4Context.WrapsWhen` | kernel/netsmb/md4c.c:126-127 | At every index before the last one tested the 32-bit loop test is that of the natural numbers; at the last one it ends the loop exactly if that index plus 63 is below 2^32 |
| `Md4Context.Context.constructor` | kernel/netsmb/md4c.c:91-101 | A new context has taken in the empty message |
| `Md4Context.Context.TransformBlocks` | kernel/netsmb/md4c.c:119-132 | The state holds all full blocks of the message so far and the rest is left over |
| `Md4Context.Context.Update` | kernel/netsmb/md4c.c:107-136 | A context that has taken in a message has then taken in the message followed by the piece, for every piece in the range of its length that does not make the loop test wrap around |
| `Md4Context.Context.Pad` | kernel/netsmb/md4c.c:139-155 | The context has then taken in the padded message of sections 3.1 and 3.2 of RFC 1320 |
| `Md4Context.Context.Final` | kernel/netsmb/md4c.c:160-171 | The digest is that of RFC 1320 of everything taken in, and the context is wiped |
| `Md4Context.DigestPieces` | kernel/netsmb/md4c.c:107-171 | For every message and every way of cutting it into such pieces the digest is that of the whole message |
| `Md4Vectors.EmptyDigest` | kernel/netsmb/md4c.c:91-243 | The digest of the empty message is that of section A.5 of RFC 1320 |
| `Md4Vectors.LettersDigest` | kernel/netsmb/md4c.c:91-243 | So is that of the 62 letters and digits, which fill two blocks |
| `Md4Context.WrapExample` | kernel/netsmb/md4c.c:126-127 | The longest piece, after one byte, makes the test wrap around |
| `PathSpec.NetOfComponents` | kernel/netsmb/smb_converter.c:545-585 | The network path of some components is the components, each converted by itself and dot and dotdot without mappings, with the delimiter between them |
| `PathSpec.NetOfNone` | kernel/netsmb/smb_converter.c:556-566 | There is none exactly if some component cannot be converted |
| `PathSpec.PathOfComponents` | kernel/netsmb/smb_converter.c:627-679 | A network path comes back as its components, each converted by itself, with slashes between them |
| `PathSpec.RoundTrip` | kernel/netsmb/smb_converter.c:523-682 | For any component conversion, the network form of a path gives the path back exactly when each of its components is decoded to itself and none is encoded with a delimiter in it |
| `PathSpec.RoundTripFull` | kernel/netsmb/smb_converter.c:538-543 | With the delimiter put in front, the path comes back with a slash in front, exactly then too |
| `PathSpec.DelimiterInName` | kernel/netsmb/smb_converter.c:523-682 | A name with a backslash in it that is converted as it is comes back as a path of two names |
| `PathSpec.SendFits` | kernel/netsmb/smb_converter.c:545-585 | The conversion to the network into limited room succeeds exactly when the whole network path fits, and gives it, if only nothing is converted to nothing |
| `PathSpec.BackWhole` | kernel/netsmb/smb_converter.c:616-682 | The conversion back gives the whole path exactly when there is room for it |
| `PathSpec.BackSucceeds` | kernel/netsmb/smb_converter.c:627-679 | It succeeds exactly when there is room for all of it or the room ends right after a delimiter, and then it is silently cut short |
| `PathSpec.BackIsPrefix` | kernel/netsmb/smb_converter.c:627-679 | What it gives is always the beginning of the path and fits the room |
| `PathSpec.BackStopsEarly` | kernel/netsmb/smb_converter.c:672-679 | A path of two components comes back as the first one and a slash, without an error, when only these fit |
| `PathConvert.StrlChr` | kernel/netsmb/smb_converter.c:455-487 | The first occurrence before the NUL, inside the given length |
| `PathConvert.CutComponent` | kernel/netsmb/smb_converter.c:547-555 | The next component, its delimiter overwritten with a NUL |
| `PathConvert.Emit` | kernel/netsmb/smb_converter.c:556-566 | One component is converted, dot and dotdot without mappings, into the room left cut to whole units |
| `PathConvert.SetDelimiter` | kernel/netsmb/smb_converter.c:489-505 | A delimiter is written exactly when there is room for it |
| `PathConvert.PathToNetwork` | kernel/netsmb/smb_converter.c:523-598 | Ends as the specification says for the room: with the whole output and the source as it was, for want of room with the source as it was, or at a component that cannot be put out, with the delimiter after it, if it has one, overwritten |
| `PathConvert.SendingFits` | kernel/netsmb/smb_converter.c:523-598 | With the delimiter that may be put in front, it succeeds exactly when the whole fits and gives the whole |
| `PathConvert.NetworkToPath` | kernel/netsmb/smb_converter.c:616-682 | Ends as the specification of the conversion back says for the room, with the source as it was, or with the delimiter after a component that cannot be put out overwritten |
| `PathConvert.ThereAndBack` | kernel/netsmb/smb_converter.c:523-682 | If the components of the path come back and are encoded without a NUL, a path that fits is, there and back, the same path up to the added leading slash, and the source buffer is as it was |
| `CodePage.SearchMap` | kernel/netsmb/smb_converter.c:220-238 | On any strictly sorted map the binary search finds a character exactly when it is in the map, with its byte |
| `CodePage.MapSorted` | kernel/netsmb/smb_converter.c:64-193 | The map of code page 437 is strictly sorted |
| `CodePageTables.Inverse` | kernel/netsmb/smb_converter.c:44-193 | Every byte from 0x80 on is in the map, at the character the other table gives it |
| `CodePageTables.Backward` | kernel/netsmb/smb_converter.c:44-193 | Every entry of the map has the byte whose character it is |
| `CodePage.ByteOfUcs2` | kernel/netsmb/smb_converter.c:195-261 | A byte converted to a character and back is the same byte |
| `CodePage.Ucs2OfByte` | kernel/netsmb/smb_converter.c:240-261 | A character converted to a byte and back is the same character exactly when the code page has it |
| `CodePage.CodepageToUcs2` | kernel/netsmb/smb_converter.c:195-214 | As many bytes as there is room for are converted, and the rest of the buffer is left alone |
| `CodePage.Ucs2ToCodepage` | kernel/netsmb/smb_converter.c:240-261 | As many characters as there is room for are converted, an underscore standing for each one the code page does not have |
| `CodePage.ThereAndBack` | kernel/netsmb/smb_converter.c:195-261 | Any byte string to UCS-2 and back is the same byte string when there is room for it |

## Left out

- Mutexes, sleeping and waking: a locked multichannel call is one step; in `CoLock` the mutex is atomic, and a waiting teardown is the test that lets it go on, not its sleep.
- Allocation failure, copying from and to user space, logging and debug output.
- iod threads, sockets, GSS, session setup and the messages of tree connect and disconnect: trial outcomes and the server's answer to a tree connect are free choices; the iod of a pair is only an identity.
- `smb2_mc_abort_trials`, `smb2_mc_check_for_active_trials`, the state printers and the release functions of the table: they change no field of the model, or free memory.
- The exclusivity of the ignore list over whole runs: the code does not keep it, since updates are built without the ignore list.
- UTF-8 and UTF-16 conversion of a component: a parameter; what is assumed of it is a condition of the theorem that needs it. Paths in code-page mode are left out, the code page itself is not.
- The remaining device calls, `smb_sm_negotiate` and `smb_session_create` as wholes: creation and the hand-over to the session slot are the steps of `CoRefs`.
- The other code of the repository (file system, mount, command-line tools, libraries): it would add other subjects, not harder properties of these.
- McRuns.StepKeeps: a step that names a pair which is not in the table, and collecting excess while the success list names such a pair, change nothing; the code would use freed memory there. `McHeld.RunHeld` says exactly in which runs the second can come up.
- McRuns.RunWellFormed: as for `McRuns.StepKeeps`, a call on a freed pair changes nothing.
- McRuns.RunNoIdleInUse: as for `McRuns.StepKeeps`, a call on a freed pair changes nothing.
- McRuns.RunNoStarvation: as for `McRuns.StepKeeps`, a call on a freed pair changes nothing.
- McSession.SessionTable.SortConnections: the entries of the success list are in the table, as `McHeld.RunHeld` has it.
- McSession.SessionTable.ReturnExcess: the entries of the success list are in the table, as `McHeld.RunHeld` has it.
- McSpeeds.ExcessSpeeds: the condition names the pairs the call takes; with the right success list it holds by itself (`McSpeeds.AgreeRemoves`).
- McTrial.AskLeavesNothing: where wired NICs are preferred only the reason for stopping and the channel count are stated, since the code then takes a slower wired pair first; what a request does then is stated by `McChoice.TurnMeans` and `McChoice.AskExhausts`.
- McCull.ExcessTakes: the success list is the right one, which `McRuns.RunAgrees` is about.
- McCull.ExcessRanks: the success list is the right one, as for `McCull.ExcessTakes`.
- McCull.ExcessLeaves: the success list is the right one, as for `McCull.ExcessTakes`.
- McCull.ExcessNothing: the success list is the right one, as for `McCull.ExcessTakes`.
- McRefresh.UpdateNics: an update names no index twice and no NIC of it is ignore-listed, which `McRefresh.CallsDistinct` has of every update the calls carry.
- McRefresh.UpdatePairsMean: the updates are as in `McRefresh.UpdateNics`.
- CoRefs.StepKeeps: a call on a handle whose object was freed is no step, since the code would use freed memory; the locks that searches and teardowns hold meanwhile are the subject of `CoLock`, and every order of the locked sections is allowed.
- CoObjects.Connections.Tcon: one device call at a time; interleavings are the subject of `CoRefs`.
- SmLookup.SessionList.LookupInt: a session lock held by another thread is waited for; the number of retries is that of the lists given, and `Retry` is returned when they are used up.
- Md4Context.Context.Update: a piece has less than 2^32 bytes, the range of its length, and does not make the loop test wrap around.
- Md4Context.DigestPieces: the pieces are as in `Md4Context.Context.Update`.
- Md4Rounds.Decode: bytes at disjoint bit positions are added instead of joined by a bitwise or.
- PathConvert.PathToNetwork: assumes of the component conversion that nothing is converted to nothing, and of the buffer that it has at least one byte; the test for unread input asks for the length left before it reads the byte, which the code reads first.
- McSession.SessionTable.ParseClientInterfaces: the size of an entry and the places of its fields are those of a 64-bit build; an address of a family other than IPv4 is read as an IPv6 one.
- McWire.ParseEntry: the port, flow and scope fields are read past and not kept.
