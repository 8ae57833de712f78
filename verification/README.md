# Verified models of insta-game

insta-game starts game servers on demand. This project models its concurrent and byte-level parts in Dafny and proves
what they promise over every run and every input. `dafny verify dfyconfig.toml` checks all of it.

## What is modelled

**The fleet** (`Fleet*.dfy`). One revisioned registry document is changed by browser requests, several reconcilers and
deployment teardown, all through compare-and-swap; one worker per host carries requests to the local controller and
publishes reports; the machine provider is a second state machine, tied to the registry only by a launch token.
`FleetState`, `FleetPlacement`, `FleetStore` and `FleetPlan` hold the document, the table and the loops that prepare each
change. `FleetWorld.Step` interleaves all of these programs one remote call at a time: every program keeps the document it
loaded, however old, saves may take effect although the caller was told of an error or a conflict, and launch requests may
arrive late or twice. `FleetHistory` and `FleetSafety` prove one invariant of all steps, `FleetTheorems` states what follows
for whole runs, and `FleetIntent` follows each request from the registry to the host that acts on it. `FleetNodes` runs the
fleet together with the controller of every host, and `FleetRelease` follows the host's answer back to the release of the
slot; `FleetTraces` says what each step leaves alone. `FleetArithmetic` carries the theorems over to placement in 64-bit
integers and finds the exact bound up to which they hold there. `FleetMachines` reads the provider's listings;
`FleetWitness`, `FleetRemoval` and `FleetDeletion` hold runs that show the theorems are about something. What each program
decides is stated a second time, in terms of saved records, reports, machines as they were seen, and earlier events of the
run: `FleetChoice` for placement, `FleetActions` for browser actions, `FleetPasses` for a reconcile pass, `FleetWalk` and
`FleetNotes` for its walk over the machines, `FleetSync` for a worker and the origin of its reports.

**The local controller** (`Controller*.dfy`). User intent, maximum runtime, at most four concurrent reconciliations of a
pass, provider calls that may fail after taking effect, restarts, and idle shutdown. `ControllerIntent` says what intent
does to a record, and `ControllerIdle` why games are stopped, over whole runs of observations.

**The lobby** (`Lobby.dfy`, `LobbyMarks.dfy`). The older request table with its single worker, on top of the same
controller, and what a completion or failure it shows goes back to.

**The wake gateway.** `QuakeWire`, `QuakeSession`, `QuakeSplice` and `QuakeTheorems` model the held NetQuake connection:
loading messages sent reliably by the gateway, then a relay that shifts sequence numbers so that the client sees a single
reliable stream. The network loses, repeats and reorders datagrams at will; `QuakeHandover` says what becomes of each
datagram and at each tick. `BzWire` and `BzRelay` model the exchange of player IDs in BZFlag messages, and `BzMessages` the
typed messages of which those bytes are the encoding. `Gateway` models admission and UDP linking, `GatewayTraffic` the
datagrams on their way to each client, `SharedStarts` the attempts shared by everyone who waits for a game.

**The ring log** (`AgentLogs.dfy`). Splitting a byte stream that arrives in arbitrary pieces into lines, the last N of
which are kept and handed to live subscribers.

Code that changes state step by step is modelled by classes and methods with the same fields, loops and branches; each is
proved against a function or predicate, and the theorems are about those.

### Where the code differs from what one might expect

- A BZFlag datagram that is refused can have been partly rewritten (`BzRelay.RefusedButRewritten`); it is left alone
  exactly when no message before the refused one names an exchanged player (`BzRelay.UntouchedExactly`). The caller drops
  the datagram.
- A game is stopped as idle although not every observation of the idle time was of a ready, empty game: one that found its
  process gone does not start the time anew (`ControllerIdle.AGameGoneCountsAsIdle`), nor does a retry of such a game
  (`ControllerIdle.ARetryKeepsIdleTime`). All observations of that time were of a ready, empty game exactly when none of
  them found the process gone (`ControllerIdle.IdleMinutesWereEmpty`).
- An empty write between the CR and the LF of one line end makes the ring log record an extra line
  (`AgentLogs.EmptyWriteTears`); the recorded lines are right exactly when that never happens (`AgentLogs.LinesAreTheInputs`).
- The placement test adds 64-bit integers. It differs from the exact test exactly when some component's sum wraps and no
  other component refuses by itself (`FleetArithmetic.FitIsExact`), and a valid configuration with hosts of 2^62 MiB lets
  the second create overcommit its host (`FleetArithmetic.MachineOvercommits`). With every configured capacity below 2^62
  each run in 64-bit integers is a run of the exact model (`FleetArithmetic.ModestRunsAreExact`), and no larger bound will
  do (`FleetArithmetic.BoundIsSharp`).
- Framing inverts packet building only below 64 KiB (`QuakeWire.FrameInvertsData`), and shifting a sequence up and down is
  the identity only while the shifted sequence does not wrap (`QuakeWire.ShiftRoundTrips`).

### What is assumed about the environment

- Random identities are new each time they are drawn, and of the saved form.
- The provider makes at most one machine per launch token, for ever, and gives machines distinct IDs. Asked for an instance
  ID, it answers "not found" only after that instance was terminated; `FleetRemoval.EarlyNotFoundLeavesAnOrphan` is a run
  that shows what one earlier answer would do. Listings may lag, but never show an end that has not come.
- On a fleet host only the worker sends intent to the controller (internal/command/fleet_host.go:153-182), and a new host
  starts with an empty store and no game on its disk. `FleetNodes.IsHosted` says so; only `FleetRelease` relies on it.
- The table's compare-and-swap, transactions and consistent reads are atomic.
- NetQuake peers acknowledge every reliable packet, accept only the expected sequence, and offer the next reliable packet
  only after the last was acknowledged (docs/architecture.md:116-122); datagrams come from the addresses they claim, and none
  is left over from an earlier connection between the same addresses. A backend sends fewer than 2^32 - 90 reliable packets.
- Clocks do not run backwards while a start attempt is in progress.

## Model

| member | source | states |
|---|---|---|
| FleetState.Validate | internal/fleet/state.go:42-70 | accepts a configuration if and only if limits are in range, the catalog is not empty, its IDs are unique and every game fits an empty host |
| FleetState.UsedRemove | internal/fleet/scheduler.go:37-47 | removing one server from the document releases exactly its own reservation, on its own host only |
| FleetState.UsedPointwise | internal/fleet/scheduler.go:37-47 | editing servers in place changes no reservation as long as host and resources stay |
| FleetPlacement.SumUsed | internal/fleet/scheduler.go:37-47 | the loop computes the reservation of a host over all its servers, whatever their desired state |
| FleetPlacement.Choose | internal/fleet/scheduler.go:107-148 | returns an eligible host that no eligible host precedes by rank, leftover memory and ID, or none exactly when no host is eligible; FleetChoice.ChoiceIsBest says which host that is |
| FleetPlacement.Least | internal/fleet/scheduler.go:134-146 | the head of the sorted candidates: a member that no member precedes |
| FleetPlacement.ChoiceIsUnique | internal/fleet/scheduler.go:134-147 | with unique host IDs the ordering leaves exactly one answer |
| FleetPlacement.CapacityRefusalIsExact | internal/fleet/scheduler.go:64-95 | a create is refused for capacity if and only if the server limit is reached, or no host is eligible and the host limit is reached |
| FleetPlacement.ProposalIsAdmissible | internal/fleet/scheduler.go:82-98 | an admitted create adds one server, to an open host with room or to one new host, within the limits of the acting configuration |
| FleetChoice.FirstDifferenceDecides | internal/fleet/scheduler.go:140-142 | one ID sorts before another if and only if it is a proper prefix or has the smaller character at the first difference |
| FleetChoice.ChoiceIsBest | internal/fleet/scheduler.go:107-148 | a running open host wins over one coming up or not launched, that over a sleeping one; within the class the least memory is left over, then the smallest ID decides; nobody is chosen exactly when no open host was seen in a usable state |
| FleetChoice.CreatesAreAnswered | internal/fleet/scheduler.go:59-98 | when a create is refused, and why, when it returns the existing server, and the fields of a new one |
| FleetChoice.CreatesTakeTheBestHost | internal/fleet/scheduler.go:59-148 | over every run, a saved create puts its server on the best open host of the very document it replaces, and draws a new host exactly when no open one can be used |
| FleetArithmetic.FitIsExact | internal/fleet/scheduler.go:34-36 | the three-component fit test in 64-bit integers agrees with the exact one if and only if no component's sum wraps or some component refuses without wrapping; it never refuses what fits |
| FleetArithmetic.ChoiceIsExact | internal/fleet/scheduler.go:107-148 | in a sound document whose capacities are below 2^62, placement in 64-bit integers chooses exactly the host it should |
| FleetArithmetic.ModestRunsAreExact | internal/fleet/scheduler.go:34-148 | every run in 64-bit integers whose configured capacities are below 2^62 is a run of the fleet, so all theorems about runs hold of it |
| FleetArithmetic.MachineNeverOvercommits | internal/fleet/scheduler.go:34-47 | in 64-bit integers, too, no host is ever overcommitted below that bound |
| FleetArithmetic.MachineOvercommits | internal/fleet/scheduler.go:34-36 | a run with a valid configuration of 2^62 MiB whose second create overcommits its only host |
| FleetArithmetic.BoundIsSharp | internal/fleet/scheduler.go:34-148 | a bound on configured capacities rules overcommitment out of every run in 64-bit integers if and only if it is below 2^62 |
| FleetStore.Table.Save | internal/fleet/table.go:56-93 | commits the next revision only over the one that was loaded, within the table's limits, and changes nothing otherwise |
| FleetStore.Table.Forget | internal/fleet/table.go:103-126 | slot, tombstone and report change together or not at all; a draft that still has the server is rejected |
| FleetStore.Table.Reports | internal/fleet/table.go:128-169 | answers the stored reports of exactly the servers in the registry |
| FleetStore.Table.Publish | internal/fleet/table.go:171-193 | stores a report unless the server is tombstoned or another host owns the report |
| FleetPlan.ApplyAction | internal/fleet/scheduler.go:159-196 | the scan over the servers gives the requested one a new request, and leaves all others alone, or reports why not, whatever document it is given; FleetActions.ActionsAreAnswered says when |
| FleetActions.ActionsAreAnswered | internal/fleet/scheduler.go:154-203 | for start, stop and remove of a given server, exactly when the action is new intent, in fields of the record, its report and the time |
| FleetActions.ActionsAreSavedExactly | internal/fleet/scheduler.go:154-203 | over every run, an action on the current document is saved if and only if the deployment goes on, the action is news and the table has room; then that one record carries an unused request and nothing else changes |
| FleetPlan.RefreshServer | internal/fleet/scheduler.go:250-278 | one turn of the loop: readiness, failure text and mirrored stop, whether anything changed, and whether a removal is acknowledged; FleetPasses.PassesAreRenewals says so in fields |
| FleetPlan.RefreshServers | internal/fleet/scheduler.go:250-278 | the loop refreshes every server before the first acknowledged removal and stops there |
| FleetPlan.RetireHosts | internal/fleet/scheduler.go:279-290 | a host is marked retiring if and only if the deployment ends or none of its servers should stay |
| FleetPlan.ReconcilePass | internal/fleet/scheduler.go:245-296 | the whole pass over the loaded document, up to its save |
| FleetPasses.PassesAreRenewals | internal/fleet/scheduler.go:245-296 | a pass makes of every record, in fields, exactly what its own report asks for, up to the first acknowledged removal |
| FleetPasses.PassesWriteWhatWasReported | internal/fleet/scheduler.go:232-296 | over every run, a pass that changes the document writes exactly that into the current one |
| FleetPasses.ServersBecomeReadyAsReported | internal/fleet/scheduler.go:250-256 | over every run, a pass makes a server ready only on a report of its own host about its newest request that the game runs without an error, answers players and was seen within 45 seconds, and readiness dates from it |
| FleetPasses.ReportedReadinessIsSaved | internal/fleet/scheduler.go:250-296 | and it does so whenever that was reported, unless the pass releases a server first or meets a newer document or a full table |
| FleetPlan.UnchangedPassIsIdentity | internal/fleet/scheduler.go:245-296 | a pass that skips its save really left the document as it was loaded |
| FleetPlan.HostDemand | internal/fleet/scheduler.go:298-313 | the loop decides exactly which hosts need a machine and which only hold abandoned requests |
| FleetWalk.WalksDecide | internal/fleet/scheduler.go:297-361 | over every run, at each host the walk retires, wakes, stops or passes on exactly as saved records, reports and time say |
| FleetWalk.MachinesStopWhenGivenUp | internal/fleet/scheduler.go:350-359 | over every run, a stop call is made only where nobody waited for any server, some request was given up, the document was still current, and the machine was last seen up or coming up |
| FleetWalk.MachinesEndAndStart | internal/fleet/ec2.go:70-139 | a terminate call is made only for a retiring host whose machine was seen neither gone nor going, a start call only for a machine seen stopped that somebody waits for or that a retirement has to recover |
| FleetWalk.MachinesAreLaunchedWhenMissing | internal/fleet/ec2.go:70-91 | a launch is sent only after a lookup found nothing, for a host without a recorded instance |
| FleetWalk.LooksDecide | internal/fleet/ec2.go:54-157 | what each answer of the provider leads to, at each point that looks |
| FleetNotes.NotesAreWritten | internal/fleet/scheduler.go:406-426 | over every run, a note changes instance and error of one record of the current document and nothing else, and a recorded instance is the machine made for that host's token |
| FleetNotes.NotesGoOn | internal/fleet/scheduler.go:331-347 | after a note comes the next host; a conflict is tried again, then costs the whole reconcile only when it was a launch |
| FleetNotes.ErrorsGoOn | internal/fleet/scheduler.go:322-359 | a provider's error ends the work on that host alone, and only a failed start is written down, once |
| FleetNotes.CallsGoOn | internal/fleet/scheduler.go:322-359 | after a machine call: a stopped or ended machine is done with, a started one is recorded |
| FleetPlan.ForgetRound | internal/fleet/scheduler.go:366-405 | one round drops the first server of a retiring host, or the host record once it is empty, or says why it must not |
| FleetPlan.NoteHost | internal/fleet/scheduler.go:406-426 | rewrites the record of one host and no other |
| FleetMachines.Find | internal/fleet/ec2.go:35-52 | the scan accepts exactly a single instance with this host's identity; a foreign or a second one is refused |
| FleetMachines.AcceptedListingIsALookup | internal/fleet/ec2.go:20-53 | an instance the scan accepts is the host's own machine under its own token, whatever else the provider runs and however late the listing is |
| FleetHistory.AdmittedIsSound | internal/fleet/scheduler.go:34-47 | one more server on an open host with room keeps every host within its capacity, IDs unique and retirement safe |
| FleetHistory.EditedIsSound | internal/fleet/scheduler.go:188-192 | documents edited in place stay sound |
| FleetHistory.CommitKeeps | internal/fleet/table.go:56-126 | every commit of a draft that succeeds the current document keeps document and history consistent, tombstones and reports disjoint from what is gone |
| FleetSafety.ProgramStays | internal/fleet/scheduler.go:297-361 | what a program relies on, including its old copy of the document, survives every step of all others |
| FleetSafety.CreateKeeps | internal/fleet/scheduler.go:59-105 | a create attempt keeps the invariant, although registry and tombstone are read separately |
| FleetSafety.ActionKeeps | internal/fleet/scheduler.go:154-203 | a browser action keeps the invariant |
| FleetSafety.PassKeeps | internal/fleet/scheduler.go:232-296 | a reconcile pass keeps the invariant, also when its save took effect and it was told of an error or a conflict |
| FleetSafety.LookIsOk | internal/fleet/ec2.go:70-157 | after any lookup a retirement goes on to the disks only when the host's token is used up |
| FleetSafety.AnswerKeeps | internal/fleet/ec2.go:83-91 | the instance recorded after a launch is the one made for the host's token |
| FleetSafety.CallKeeps | internal/fleet/ec2.go:95-157 | start, stop and terminate calls, taken or lost, keep the invariant |
| FleetSafety.ArriveKeeps | internal/fleet/ec2.go:79-91 | a launch request that arrives late or again makes no machine for a host that is gone |
| FleetSafety.ForgetKeeps | internal/fleet/scheduler.go:366-405 | emptying and removing a retired host keeps the invariant |
| FleetSafety.NoteKeeps | internal/fleet/scheduler.go:332-347 | writing back a launch outcome keeps the invariant under any interference, also when the save took effect and a conflict was told |
| FleetSafety.ServeKeeps | internal/fleet/worker.go:46-71 | the first local transaction of a worker's sync, a creation or a stop for a late start, keeps the invariant |
| FleetSafety.AskKeeps | internal/fleet/worker.go:72-83 | handing the request over, a transaction of its own with others in between, keeps the invariant |
| FleetSafety.RereadKeeps | internal/fleet/worker.go:79-96 | so does the second read and the report made from it |
| FleetSafety.StumbleKeeps | internal/fleet/worker.go:36-44 | so does an error about one server, from its host's store or from the table, after which the sync goes on with the next |
| FleetSafety.PublishKeeps | internal/fleet/table.go:171-193 | late reports never bring a removed server back |
| FleetSync.LateStartsAreStopped | internal/fleet/worker.go:48-59 | a start not up after twenty minutes is stopped locally, if it exists, and reported as failed, under exactly these conditions |
| FleetSync.MissingGamesAreServed | internal/fleet/worker.go:60-71 | without an instance: a settled report, the new instance field by field, or a failed setup, each exactly when |
| FleetSync.RequestsAreHandedOver | internal/fleet/worker.go:72-97 | a recorded request is reported on, a new one recorded together with its intent, anything else a failed setup |
| FleetSync.ReportsTellWhatHostsHad | internal/fleet/worker.go:46-101 | over every run, each stored report goes back to a worker's step and to what that server's own host had before it; reports of an instance are about the request it had recorded |
| FleetSync.ReadyServersWereUp | internal/fleet/worker.go:84-92 | end to end over every run: when a server becomes ready, its own host had earlier had its game running for the newest request, without an error and with its players counted, seen at that time and since the host's boot |
| FleetNotes.WorkersServeInService | internal/fleet/worker.go:21-34 | over every run, a worker only serves from documents in which the deployment goes on and its own host is not retiring |
| FleetSafety.StepKeepsInv | internal/fleet/scheduler.go:221-426 | every step of every program, of the provider and of the hosts keeps the whole invariant, and history only grows |
| FleetTheorems.RunKeepsInv | internal/fleet/scheduler.go:221-426 | the invariant holds in every state of every run |
| FleetTheorems.NoMachineIsOrphaned | internal/fleet/ec2.go:70-139 | every machine that is not terminated runs for a host record that holds its launch token |
| FleetTheorems.RemovedHostStaysDead | internal/fleet/ec2.go:105-139 | once a host record is gone it never returns, and its token can never yield a live machine again |
| FleetTheorems.DocumentIsSound | internal/fleet/scheduler.go:34-47 | in every reachable document servers have hosts, no host is overcommitted, IDs are unique and retiring hosts hold only departing servers; in exact integers, and by FleetArithmetic.ModestRunsAreExact in 64-bit integers below 2^62 |
| FleetTheorems.DeparturesAreIntended | internal/fleet/scheduler.go:364-405 | servers leave only with deletion intent or deployment end, hosts only retired and empty, and neither deletion intent nor the end of a deployment is ever taken back |
| FleetTheorems.RetirementIsNeverRefused | internal/fleet/scheduler.go:314-321 | the branch that refuses to retire a host with saved servers is unreachable |
| FleetTheorems.EmptyingIsNeverRefused | internal/fleet/scheduler.go:374-394 | the two refusals of the loop that empties a host are unreachable |
| FleetTheorems.RetiredHostOnlyEmpties | internal/fleet/scheduler.go:366-405 | under any interference a retired host stays retired and the servers on it only become fewer |
| FleetTheorems.ForgetRoundProgresses | internal/fleet/scheduler.go:391-403 | each committed round takes one server off the host, or removes the record of a host that is empty in that very revision |
| FleetTheorems.EmptyingEnds | internal/fleet/scheduler.go:366-405 | from any state of a run on, at most as many committed rounds take servers off a retired host as it has then, and at most one takes its record, by whichever reconcilers and under any interference |
| FleetTheorems.CreateStaysWithinLimits | internal/fleet/scheduler.go:82-104 | a create that changes the registry adds one new server to an open host, within the limits of its own configuration, never under a tombstoned ID |
| FleetWitness.FirstCreateSucceeds | internal/fleet/scheduler.go:59-104 | a new deployment's first create goes through, for every valid configuration and game: the runs above are not empty |
| FleetWitness.FirstMachineStarts | internal/fleet/scheduler.go:332-347 | and a reconcile pass then brings that host's machine up under its saved token |
| FleetRemoval.HostsGetRemoved | internal/fleet/scheduler.go:314-405 | for every valid configuration and game some run goes on to retire that host, terminate its machine and remove its record |
| FleetRemoval.EarlyNotFoundLeavesAnOrphan | internal/fleet/ec2.go:27-34 | the assumption about the provider is needed: with one early "not found" a run of the same programs leaves a machine running for a host that is gone |
| FleetRelease.LeavingIsReleased | internal/fleet/scheduler.go:274-277 | a server leaves the registry in no other way than a pass over an acknowledged removal or a round of the emptying loop |
| FleetNodes.NodeStays | internal/command/fleet_host.go:153-182 | along a run of fleet and controllers a host's store agrees with its disk, forgets no deletion, and gains an instance only where its worker serves a server that should run |
| FleetNodes.GoneMeansUninstalled | internal/control/controller.go:228-328 | in every state of such a run, a host that keeps no instance of a game, or keeps it as deleted, has nothing of the game installed |
| FleetRelease.SettledForGood | internal/fleet/worker.go:46-97 | once a host has no instance of a server that is to be deleted, or keeps it as deleted, that stays so for the rest of the run, whatever old document a worker still serves from |
| FleetRelease.DeletedReportsStayTrue | internal/fleet/worker.go:46-97 | a stored report that a server is deleted is true when it is stored and at every later time: no instance but a deleted one, and nothing installed |
| FleetRelease.SlotsAreReleasedWhenGone | internal/fleet/scheduler.go:274-405 | end to end: when a slot is released, the host's machine is terminated for good, or the server's newest request is a deletion and, at the release and ever after, the host has no instance of it but a deleted one and nothing of its game installed |
| FleetDeletion.AcknowledgedSlotsAreReleased | internal/fleet/scheduler.go:274-277 | such releases happen: for every valid configuration and game some run, controllers included, ends with a pass that releases a server on its host's stored report |
| FleetTheorems.RemovedStaysRemoved | internal/fleet/table.go:95-193 | in every reachable state tombstoned IDs are neither servers nor report keys, and a server's report carries its own host |
| FleetTheorems.TombstonesArePermanent | internal/fleet/table.go:103-126 | the ID of a removed server is never used again |
| FleetTheorems.WorkersOwnTheirReports | internal/fleet/table.go:182-191 | a worker's report is never rejected as another host's |
| FleetIntent.UpToExtends | internal/fleet/worker.go:72-83 | applying the next request extends the subsequence of issued requests |
| FleetIntent.CurrentIsNotBehind | internal/fleet/worker.go:21-45 | a freshly loaded document is never behind what its host already applied |
| FleetIntent.ServeRecords | internal/fleet/worker.go:46-71 | the first transaction of a sync records the server's own request or leaves the record alone, and touches no other instance |
| FleetIntent.AskRecords | internal/fleet/worker.go:72-78 | the second does the same, with other steps in between |
| FleetIntent.StepKeepsIntent | internal/fleet/worker.go:21-97 | every step of the fleet keeps applied requests a prefix-bounded subsequence of issued ones |
| FleetIntent.RequestsApplyOnceInOrder | internal/fleet/worker.go:46-97 | end to end: what a host applied to a server is a duplicate-free subsequence of what was issued for it, and the host remembers the last of it |
| FleetIntent.RetryNeverRestarts | internal/fleet/worker.go:72-83 | handing a recorded request over again changes nothing, and no transaction of a sync about it turns a game back on |
| FleetIntent.ControllerStepsAreLocalMoves | internal/control/controller.go:98-375 | the controller's own steps and restarts keep every recorded request, as the fleet assumes |
| FleetIntent.PassRefreshes | internal/fleet/scheduler.go:250-278 | a pass keeps each server or refreshes it from the report under its own ID |
| FleetIntent.MirroredStopIsCurrent | internal/fleet/scheduler.go:267-273 | a committed pass issues no request, and changes an intent only to mirror a stop its host reported for the newest request |
| Controller.LocalController.CreateRequested | internal/control/controller.go:50-96 | creates once, under the trimmed name, a drawn ID where none is given, and default provider and configuration; the same settings return the stored instance unchanged, others are refused, and a closed gate refuses all |
| Controller.TrimmedIsTight | internal/control/controller.go:62 | trimming cuts white space only, all of it at both ends, and empties exactly the blank names |
| Controller.LocalController.SetDesired | internal/control/controller.go:98-108 | intent is refused once shutdown began, for unknown instances and for resurrecting deleted ones |
| Controller.LocalController.RequestDesired | internal/control/controller.go:114-136 | a request is recorded together with its intent, and a recorded request is accepted without effect |
| Controller.LocalController.Apply | internal/control/controller.go:137-167 | a new intent starts a new generation, repeating one does not except to retry a failure |
| Controller.LocalController.BeginIdleShutdown | internal/control/controller.go:169-191 | closes admission if and only if every instance rests |
| ControllerRuns.ApplyAgentStatus | internal/control/controller.go:338-375 | the status the agent reports becomes phase, players and idle stop; ControllerIdle.ObservationsAreRecorded gives it field by field over runs |
| ControllerRuns.SaveObservation | internal/control/controller.go:238-260 | an observation is stored only for the generation that was observed |
| ControllerIntent.IntentIsExact | internal/control/controller.go:137-168 | what an intent does to each field of a record, when it starts a new generation, and when it is refused |
| ControllerIntent.RequestIsExact | internal/control/controller.go:114-136 | a request is taken exactly when the controller is open and the instance is there and may get that intent, or has recorded it already; it is recorded together with its intent |
| ControllerIdle.ObservationsAreRecorded | internal/control/controller.go:228-262 | over every run, each stored observation changes the record of its own generation field by field, and others not at all |
| ControllerIdle.IdleStopsAreEarned | internal/control/controller.go:338-375 | over every run, an observation that stops a running game found it ready and empty, and the game has an idle limit for at least which every stored observation found it so, or its process gone |
| ControllerIdle.IdleMinutesWereEmpty | internal/control/controller.go:338-375 | with clocks that advance: all stored observations of the idle minutes were of a ready, empty game if and only if none found its process gone |
| ControllerIdle.PlayersKeepGamesUp | internal/control/controller.go:361-367 | an observation with players never changes the intent, and ends the idle time |
| ControllerIdle.IdleGamesAreStopped | internal/control/controller.go:361-375 | a game found empty that long, within one generation, is stopped by the observation that completes it |
| ControllerIdle.AGameGoneCountsAsIdle | internal/control/controller.go:345-350 | a run in which an observation that the process was gone counts as idle time |
| ControllerIdle.ARetryKeepsIdleTime | internal/control/controller.go:148-155 | a run in which the first observation after a retry stops the game for idle time of the generation before |
| ControllerIdle.GamesStopForAReason | internal/control/controller.go:228-375 | over every run, what should run stops running only by new intent, by such an idle stop, or when this generation's runtime is over |
| ControllerIdle.CallsFit | internal/control/controller.go:265-320 | over every run, each provider call fits what was copied and what the same reconciliation saw before |
| ControllerIdle.PresentGamesAreLeftOrStarted | internal/control/controller.go:295-328 | a present game that runs is left alone, one that ran and exited stays down until asked for again, any other is started |
| ControllerRuns.AgentKeepsIntent | internal/control/controller.go:338-375 | observations change intent only from running to stopped |
| ControllerRuns.NextIsHonest | internal/control/controller.go:265-328 | every path through a reconciliation ends in a phase that its provider calls justify |
| ControllerRuns.StepKeepsInv | internal/control/controller.go:205-375 | every step of users, passes, reconciliations, failed saves, time-outs and restarts keeps the controller's invariant |
| ControllerRuns.LostKeeps | internal/control/controller.go:260-262 | an observation that could not be saved ends its reconciliation and harms nothing |
| ControllerRuns.PhasesAreHonest | internal/control/controller.go:228-328 | phase stopped implies that nothing should run; phase deleted implies deleted intent, no error and no game left |
| ControllerRuns.StoredFollows | internal/control/controller.go:238-242 | each step takes a record to a later version of itself, a deleted one stays deleted, and a superseded observation changes nothing at all |
| ControllerRuns.FencingHolds | internal/control/controller.go:137-167 | across every run generations never fall and deleted intent is final |
| ControllerRuns.IdleExcludesStarts | internal/control/controller.go:180-191 | the idle check already excludes every stale copy that still wants its game running |
| ControllerRuns.ClosedStaysClosed | internal/control/controller.go:98-122 | a closed host accepts no intent, starts no game and stays closed until its controller restarts |
| ControllerRuns.IdleShutdownIsFinal | internal/control/controller.go:180-227 | once idle shutdown commits, no later step of that controller accepts intent or brings a game up |
| Lobby.StoredRow.Queue | internal/lobby/store.go:119-132 | stores a new request exactly under the table's condition |
| Lobby.StoredRow.Note | internal/lobby/store.go:141-157 | a mark changes the row only while its request is the current one |
| Lobby.StoredRow.Create | internal/lobby/store.go:179-192 | opens a row once, with the game's own ID as its first request |
| Lobby.OneRequestAtATime | internal/lobby/store.go:60-62 | a listed game takes a new request exactly when none is pending and the same action was not asked for within 30 seconds |
| Lobby.ServedRecords | internal/lobby/worker.go:32-110 | a sync records the row's own request or none, and marks acceptance only of a recorded request |
| LobbyMarks.NothingToDo | internal/lobby/worker.go:80-83 | a row without an open request changes nothing, but an expired request of a present game is closed with that reason |
| LobbyMarks.AcceptedIsAnswered | internal/lobby/worker.go:93-106 | an accepted request is completed, refused with its reason, or left open, by exactly these states of its game |
| LobbyMarks.NewRequestIsHandedOver | internal/lobby/worker.go:84-92 | a new request is recorded with its intent exactly when the controller takes it, and accepted exactly then |
| LobbyMarks.MissingIsAnswered | internal/lobby/worker.go:38-57 | a missing game fails the request, or completes its removal; a missing preset fails the start |
| LobbyMarks.PresetIsCreated | internal/lobby/worker.go:38-48 | a start from a preset creates the game with the preset's settings and the row's name, exactly when it may |
| LobbyMarks.ShownCompletionsAreTrue | internal/lobby/worker.go:32-106 | over every run, each completion or failure the row shows, with its reason, goes back to the state of that game after the host acted on that very request, to its absence, or to the worker's clock |
| Lobby.RequestsReachTheHostInOrder | internal/lobby/worker.go:80-110 | over every run requests reach the controller in stored order, each at most once, and acceptance is shown only for applied ones |
| LobbyMarks.CompletedStartsWereReady | internal/lobby/worker.go:80-106 | over every run, a start shown as completed without a failure goes back to a state in which the host had acted on that very request and its game was ready, observed since the host booted |
| Lobby.MarksSpeakForTheirRequest | internal/lobby/store.go:141-157 | over every run what is shown of a request changes only by a mark made for it and its action; marks of replaced requests change nothing, and a shown failure belongs to the current request |
| QuakeWire.FrameInvertsData | internal/wake/wire.go:36-53 | framing returns flags, sequence and payload of a built packet if and only if it fits the 16-bit length |
| QuakeWire.BuildDataPacket | internal/wake/wire.go:36-42 | the fresh buffer holds header, sequence and payload in their places |
| QuakeWire.PutWord | internal/wake/session.go:136-160 | overwrites four bytes in place and no others |
| QuakeWire.SequenceIsSeparate | internal/wake/session.go:136-160 | rewriting the sequence keeps flags, length and payload |
| QuakeWire.ShiftRoundTrips | internal/wake/session.go:136-160 | shifting up and down again is the byte identity if and only if the shifted sequence stays below 2^32 |
| QuakeWire.AcceptIsUnderstood | internal/wake/wire.go:16-53 | one gateway can sit behind another: its connect request is one that its own kind answers, the accept is understood for every port, and neither is taken for part of a connection |
| QuakeWire.RejectionIsUnderstood | internal/wake/session.go:237-245 | a rejection's reason survives the handshake |
| QuakeSession.Session.OnInput | internal/wake/session.go:116-148 | the client side of the loop: acknowledgements count only for the pending message, relayed ones are shifted down in place, the first reliable packet is kept unchanged |
| QuakeSession.Session.OnBackend | internal/wake/session.go:149-163 | only reliable packets are shifted up |
| QuakeSession.Session.OnTick | internal/wake/session.go:164-195 | resends, new messages, notices and time-outs on the source's schedule |
| QuakeSession.Session.Attach | internal/wake/session.go:77-106 | hands the kept packet over, if there is one, once a backend is taken on; QuakeHandover.FirstPacketIsHandedOver says when there is |
| QuakeHandover.FirstPacketIsHandedOver | internal/wake/session.go:77-106 | over every run, a client that sent its first reliable packet while waiting has that packet, and nothing else, on the way to the backend the moment the game is taken on |
| QuakeHandover.ClientDatagramsPass | internal/wake/session.go:116-148 | over every run, which of the client's datagrams pass, with which sequence number, and which end the session |
| QuakeHandover.BackendDatagramsPass | internal/wake/session.go:149-163 | over every run, every frame of the backend passes, the reliable ones with the loading messages added to their sequence |
| QuakeHandover.TicksKeepTheSchedule | internal/wake/session.go:164-195 | over every run, what one tick does: the drop after a minute of silence, the time-out, the repeat after a second, the message every two seconds and the progress every five |
| QuakeSplice.LoadingCarries | internal/wake/session.go:182-191 | a loading message is a reliable packet with its own number and payload |
| QuakeSplice.FailureIsNoise | internal/wake/session.go:199-206 | the farewell sent on failure is unreliable and disturbs no reliable stream |
| QuakeSplice.ShiftKeepsKind | internal/wake/session.go:136-160 | a shifted packet stays data, acknowledgement or neither, with the same body |
| QuakeSplice.InputPrefix | internal/wake/session.go:116-135 | the prefix grows only by acknowledgement of the pending message, which the client accepted, and is frozen once attached |
| QuakeSplice.IssueKeeps | internal/wake/session.go:182-194 | a loading message is issued only after the one before was acknowledged and within the deadline |
| QuakeSplice.StepKeepsInv | internal/wake/session.go:77-196 | every step of client, backend, network and gateway keeps the splice invariant |
| QuakeTheorems.ClientAcceptsTheSplice | internal/wake/session.go:77-196 | the client accepts exactly the loading messages followed by a prefix of the backend's stream, in order, none lost or repeated, and the backend counts only what was accepted |
| QuakeTheorems.BackendAcceptsTheClient | internal/wake/session.go:116-148 | the backend accepts a prefix of the client's stream from its first reliable packet on |
| QuakeTheorems.ShiftsNeverWrap | internal/wake/session.go:182-194 | at most 90 loading messages are issued, so no sequence on the link wraps when shifted |
| QuakeTheorems.SpliceIsFinal | internal/wake/session.go:77-106 | the splice point never moves and accepted data is never taken back |
| QuakeTheorems.ReadyGamesAreAttached | internal/wake/session.go:77-106 | a game that is ready at once is taken on without a loading message: attached sessions do occur |
| QuakeTheorems.DataComesThrough | internal/wake/session.go:136-163 | a backend packet and the client's answer to it make an undisturbed round trip |
| QuakeTheorems.BackendFragmentArrives | internal/wake/session.go:116-163 | no backend packet is ever stuck: five delivered datagrams later it is acknowledged |
| QuakeTheorems.ClientFragmentArrives | internal/wake/session.go:116-163 | the same for the client's stream, which passes byte for byte |
| QuakeTheorems.LoadingMessageArrives | internal/wake/session.go:116-194 | a pending loading message, resent and answered, leaves the session free to attach |
| BzWire.Translate | internal/wake/bzflag_wire.go:112-201 | accepts exactly the well-formed messages of supported opcodes, applies the transposition at exactly their ID positions in place, and leaves refused ones untouched |
| BzWire.FlagOffsets | internal/wake/bzflag_wire.go:129-135 | lists the owner of every flag record, each once |
| BzWire.PlayerOffsets | internal/wake/bzflag_wire.go:136-143 | lists the head of every fixed-size player record, each once |
| BzWire.AddressOffsets | internal/wake/bzflag_wire.go:144-158 | follows the variable-length records and lists the ID of each |
| BzWire.Exchange | internal/wake/bzflag_wire.go:192-199 | every listed byte is exchanged exactly once |
| BzWire.AcceptanceIgnoresIds | internal/wake/bzflag_wire.go:112-191 | acceptance and the positions of the IDs do not depend on the IDs |
| BzWire.TranslationIsAnInvolution | internal/wake/bzflag_wire.go:108-111 | a translated message is accepted like the original and translates back to it |
| BzMessages.AcceptedExactlyMessages | internal/wake/bzflag_wire.go:112-191 | what is accepted is exactly the encodings, up to 1024 bytes, of messages given by opcode letters and typed fields |
| BzMessages.TranslationExchangesPlayers | internal/wake/bzflag_wire.go:108-201 | translating an encoded message encodes the message with the two players exchanged: translation commutes with encoding |
| BzRelay.BuildMessage | internal/wake/bzflag_wire.go:65-71 | the fresh buffer holds length, code and payload in their places |
| BzRelay.ReadInvertsBuild | internal/wake/bzflag_wire.go:73-86 | a reader takes back exactly what was built, whatever follows, if and only if the payload fits, also where the length wraps around |
| BzRelay.TranslateDatagram | internal/wake/bzflag_wire.go:88-106 | accepts exactly datagrams made of accepted messages, and says what the buffer holds in either case |
| BzRelay.DatagramIsAnInvolution | internal/wake/bzflag_wire.go:88-106 | an accepted datagram stays accepted and translates back to itself |
| BzRelay.UntouchedExactly | internal/wake/bzflag_wire.go:100-102 | a datagram's buffer is unchanged if and only if no message before the first refused one names an exchanged player |
| BzRelay.RefusedButRewritten | internal/wake/bzflag_wire.go:100-102 | a refused datagram whose buffer has changed all the same |
| BzRelay.StartupQueue.Hold | internal/wake/bzflag.go:175-189 | checks a message on arrival without changing it, keeps at most eight, and ends on exit |
| BzRelay.StartupQueue.Replay | internal/wake/bzflag.go:206-213 | whatever ID the server assigned, everything held is delivered translated: the refusal on replay is unreachable |
| Gateway.Admission.Admit | internal/wake/gateway.go:178-189 | opens a session exactly for a connect request from a new address below the limit, and keeps the count right |
| Gateway.Admission.Remove | internal/wake/gateway.go:266-271 | the entry a session deletes is its own |
| Gateway.Admission.FirstFree | internal/wake/bzflag.go:42-50 | below the client limit the lowest free slot exists and is below 200 |
| Gateway.Admission.Seated | internal/wake/bzflag.go:37-56 | a player is turned away exactly when the client limit is reached |
| Gateway.Admission.Greeted | internal/wake/bzflag.go:123-125 | a goroutine that took a seat still owns it when it marks it accepted |
| Gateway.Admission.Leave | internal/wake/bzflag.go:59-64 | it frees its own seat and no other, and the count falls by one |
| Gateway.Admission.Taken | internal/wake/bzflag.go:85-89 | finds whether another client of the listener has the address |
| Gateway.Admission.Find | internal/wake/bzflag.go:91-97 | finds the client linked to an address, if there is one |
| Gateway.Admission.Route | internal/wake/bzflag.go:72-105 | links an address only to an accepted client of the same IP that nobody else has, delivers to that client alone, and keeps counts, slots and links consistent |
| Gateway.RouteIsUnique | internal/wake/bzflag.go:72-105 | a datagram has one possible receiver, an accepted client at the sender's own IP |
| GatewayTraffic.DatagramsReachTheirClient | internal/wake/bzflag.go:72-105 | for each client exactly which datagrams it gets, judged by bytes, addresses and links; they are queued while fewer than eight wait, and no other client changes |
| GatewayTraffic.ClientsReadWhatWasKept | internal/wake/bzflag.go:98-105 | over every run, what a client has read and what waits is everything that was kept for it, each once and in order |
| GatewayTraffic.OneAddressEach | internal/wake/bzflag.go:77-97 | over every run, all that a client gets while it keeps its seat comes from one address, at its own IP, that no other client of the listener has |
| SharedStarts.Starts.Join | internal/wake/gateway.go:231-257 | begins an attempt exactly when none runs and the last has expired, and joins the current one otherwise |
| SharedStarts.Starts.Publish | internal/wake/gateway.go:246-253 | publishes an outcome once, with 5 seconds of life for a ready game and 60 for a failure |
| SharedStarts.Starts.Take | internal/wake/gateway.go:258-263 | a caller takes the outcome of the attempt it joined |
| SharedStarts.AttemptsAreSpaced | internal/wake/gateway.go:231-257 | over every run at most one start runs for a game, and each begins strictly after the last one's lifetime |
| SharedStarts.NextStartWaits | internal/wake/gateway.go:231-257 | measured from when an attempt finished, the next start for that game begins more than 5 seconds after a ready one and more than 60 after a failure |
| SharedStarts.CallersKeepTheirAttempt | internal/wake/gateway.go:258-263 | a caller waits for the attempt it joined, whatever begins meanwhile |
| SharedStarts.WaitersShareTheOutcome | internal/wake/gateway.go:231-264 | everyone who waited for the same attempt came back with the same outcome |
| AgentLogs.SplitContinues | internal/agent/logs.go:41-65 | splitting may go on from the unfinished line, wherever the input was cut |
| AgentLogs.SplitSwallows | internal/agent/logs.go:37-40 | an LF right after a CR adds no line |
| AgentLogs.WritesRemember | internal/agent/logs.go:32-65 | for any way to cut the input, empty writes included: fragment, CR flag and number of lines |
| AgentLogs.LinesAreTheInputs | internal/agent/logs.go:32-65 | the recorded lines are those of the concatenated input if and only if no empty write tore a CRLF apart |
| AgentLogs.HistoryIsTheInputsEnd | internal/agent/logs.go:29-65 | for non-empty writes the last N lines recorded are the last N lines of the input |
| AgentLogs.EmptyWriteTears | internal/agent/logs.go:36-40 | three writes of one line that are recorded as two |
| AgentLogs.RingTakes | internal/agent/logs.go:68-75 | storing a line keeps the ring equal to the newest lines, before and after it is full |
| AgentLogs.RingLog.Record | internal/agent/logs.go:68-75 | the ring update in place |
| AgentLogs.RingLog.FanOut | internal/agent/logs.go:77-83 | every subscriber with room gets the line, and only those |
| AgentLogs.RingLog.Write | internal/agent/logs.go:32-65 | the scanning loop records exactly the lines of carried fragment and chunk, fills the subscribers' queues with them, and keeps the log equal to what all writes so far recorded |
| AgentLogs.RingLog.History | internal/agent/logs.go:91-94 | the copied history is the newest lines, oldest first |
| AgentLogs.RingLog.Subscribe | internal/agent/logs.go:88-96 | history and empty queue are taken at one moment; while no write was empty, the history is the last N lines of everything ever written |
| AgentLogs.RingLog.Receive | internal/agent/logs.go:88-108 | a subscriber takes its lines in order |
| AgentLogs.RingLog.HistoryThenLive | internal/agent/logs.go:86-108 | history, received lines and waiting lines are one gapless end of the log while the queue was never full |

## Left out

- Remote services, JSON encoding, item size limits and retries inside the SDK: the table and the provider are atomic steps whose answers may be lost.
- Load's consistency check of the stored revision: the stored document and its revision are one value.
- Several reads of the clock inside one reconcile pass are one `now`, as are those inside one local transaction of a worker; over a run it may be any value at any step.
- The reports a browser action or a reconcile pass uses may be any reports at all, so the theorems hold for reads as old as one likes; only FleetRelease and FleetSync.ReadyServersWereUp ask that each was stored at some time before.
- The order of reports and of candidates: the source sorts, the model selects the least candidate and keeps reports in a map.
- Host addresses, endpoints, snapshots and player maps: they are shown to users and decide nothing here.
- FleetState.Validate: lengths count characters where the source counts bytes; so do all other limits on text.
- FleetTheorems.EmptyingEnds: counts committed rounds; that the loop reaches its end also needs the table to answer, which is not modelled.
- ControllerRuns.StepKeepsInv: provider calls take effect at one moment, and the operation deadline is a failed call.
- The machine's power-off after idle shutdown, its grace period and the worker's pending checks before it.
- Lobby: the public snapshot, the list of managed rows and the check of configured IDs.
- QuakeSession.Session.Attach: the handshake with a backend is one step; its packets are modelled only as far as `QuakeWire.ReplyOf` reads them, and the Xonotic handshake is not part of this model.
- QuakeSplice.StepKeepsInv: sequence numbers beyond 2^32 - 90 in one connection, where a shifted sequence would wrap.
- Input queues of eight packets between reader and session: a dropped packet is one the network lost.
- The UDP relays for Quake II, Quake III and UT99 and their status replies: they forward packets unchanged.
- BZFlag greetings, progress messages and rejections written by the gateway itself, and the one byte it patches in a held UDP link request.
- SharedStarts.Starts.Join: cancellation of a waiting caller is a separate step; resolving the address is part of the attempt's outcome.
- AgentLogs.RingLog.constructor: needs a positive capacity, because with none the source fails on its first line.
