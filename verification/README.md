# A verified model of the watch-together relay

The relay hosts rooms in which one host and up to seven guests watch something together. This project
models its room system in Dafny and proves what it promises: the per-room state machine, the registry
of rooms with its per-address quotas, the snapshot writer that makes departures durable, the cleanup
sweep, and the connections that drive them, all interleaving. Three standalone algorithms are modelled
beside it: the message token bucket, the upload limiter, and the `X-Forwarded-For` walk.

`dafny verify dfyconfig.toml` checks everything.

## How the model is built

- **Values and objects.** Every room operation is a function on a `Room` value (`RoomSpec`), and a
  method of the mutable class `RoomState` (`RoomMachine`) that changes the fields step by step and is
  proved equal to that function. The registry (`RegistrySpec`, class `RoomTable`), the writer (`Writer`,
  class `SnapshotWriter`) and the limiters (`Quotas`) are built the same way. Laws are proved about the
  functions, so they hold of the classes.
- **The running relay** (`System`) is a state machine. A run is any sequence of events; an event is one
  section under one lock: `leave` is begin / send to the writer / finish; `endSession` is begin / remove
  from the table / release the slot / send / finish; a join is lookup / admission; the writer takes one
  command, captures one room, or writes; the sweep visits one room, removes it, or releases its slot.
  Events that are not enabled do nothing, so theorems over runs quantify over every interleaving.
- **The invariant** `Runs.Inv` collects what every event keeps. It is proved piece by piece
  (`CoreInvariant`, `StepDurability`, `Answers`, `Tickets`, `StepRegistry`, `RaceFree`) from small facts about what
  one room operation may change (`Seats`, `Moves`). `RoomHistory` shows that every run of the relay is,
  for each room object, a run of that room, which carries the room-level laws over to the relay, and
  `Progress` that whoever waits for the writer can always be answered and finish. `Saving` shows what
  a persist puts into the file, and `Restart` and `Lives` compose runs with crashes and startups.
- **What the answers are** is stated a second time in the terms of a reader of the protocol, in fields,
  versions and plain times rather than through the checks that compute it: who is admitted and may come
  back (`Admission`), who may leave, end or is swept (`Departure`), who is told what (`Delivery`,
  `Presence`), who may become host (`TransferLaws`), who gets a room (`RegistrySpec.CreateIsExact`), what is
  loaded (`Snapshot.LoadIsExact`) and who shares a quota (`ClientIp.ChargedAlike`).

Modelling decisions:

- `create` is one event, as the header of `src/registry.rs` intends. The code drops and retakes the
  room lock between its check and the admission (`src/registry.rs:126-132`, `139-148`);
  `RegistrySpec.CreateGap` and `RegistrySpec.ReclaimGap` say exactly when the second half would still be
  right, and `RegistrySpec.EndInTheGap` and `RegistrySpec.JoinInTheGap` show steps after which it would
  not.
- Room objects live in an arena and handles are positions in it, so identity comparison of handles is
  equality. Every record captured for the file remembers the object it was captured from; durability is
  stated about that object's own record.
- Connections are named per room by the connection id of their entry. Messages the relay pushes in
  hash-map order are one `Wave` to a set of connections; the class produces a list in some order and is
  proved to give each connection the same messages in the same order.
- Clocks are inputs, in nanoseconds; nothing is assumed about them unless a lemma says so. Verifiers are
  opaque values compared by equality; a token carries the verifier its bytes hash to, if well formed.
- A persist captures the rooms one by one, each at its own moment, and then replaces the file wholly or
  leaves it. Notifications of ordinary changes reach the writer at arbitrary times, also spuriously.
- A connection handles one message to completion before it can disconnect (`src/connection.rs:73-111`).
- Where the code and its comments differ the code is followed: an `endSession` that is refused still
  clears the connection's room; `end_session` releases a slot even when it removed nothing; the loader
  does not count reservations.

Laws that fail without a condition, with runs that show it: quota conservation
(`Exceptions.RaceUnbalances`, `Exceptions.RaceBreaksTheLimit`; exact condition per step
`StepRegistry.ConservedUnlessOvercharged`, over runs `Runs.ConservedIffNeverOvercharged`), every seat
being held by a connection (`Exceptions.SeatWithoutHolder`; exact condition `Runs.OccupancyAgrees` and
`Exceptions.RefusedEndOrphans`), the seat limit after loading a foreign file
(`Snapshot.CrowdedRecordIsLoaded`; exact condition `Snapshot.LoadedRoomInvariant`), reservations
expiring after a restart (`Lingering.LingersForever`, `Lingering.RestartCrowdsOut`; exact condition
`Lingering.RestartUntimes`), and header splitting at the byte limit (`ClientIp.OneByteTooMany`; exact
condition `ClientIp.SplittingALine`).

## Model

| member | source | states |
|---|---|---|
| Runs.DurableLeave | src/room.rs:328-385 | In every interleaving, whenever finishing a leave replies `left`, the state file's record of that room object names the peer neither as host nor as reserved guest |
| Runs.LeftStaysDurable | src/snapshot.rs:222-290 | A confirmed leave stays out of every later file until that peer joins that room again |
| Runs.ReleasedUntilJoin | src/room.rs:242-323 | Only an admission of that very peer to that very room withdraws a confirmed leave |
| Runs.DurableEnd | src/registry.rs:179-197 | `ended` is replied only when the file has no record of that room object, and no later file, whatever follows, has one again |
| Runs.TicketHasOnePlace | src/snapshot.rs:222-270 | A terminal command handed to the writer is at any moment answered, or being persisted for, or queued once, and exactly one of these |
| Runs.WaiterHasTicket | src/snapshot.rs:190-196 | A connection that waits for the writer waits on such a command, and no other connection waits on it |
| Progress.TicketIsAnswered | src/snapshot.rs:222-270 | From every reachable state some steps of the writer alone (receive, capture, write, drop) answer each terminal command handed out; a given answer stands, and a writer not asked to stop answers what its disk says |
| Progress.WriterMoves | src/snapshot.rs:229-270 | While a command is unanswered the writer has a step of its own to take, after which it is closer to its answer, and answers, if it does, what the disk says |
| Progress.OwnStepsAdvance | src/snapshot.rs:229-270 | Every own step of the writer brings every unanswered command closer to its answer |
| Progress.OthersDoNotDelay | src/snapshot.rs:182-196 | No event of a connection, the sweep or the queue puts a command further from its answer |
| Progress.OwnStepAnswers | src/snapshot.rs:238-246 | A writer not asked to stop stays so under its own steps and gives as new answers what its disk says |
| Progress.PendingClears | src/room.rs:693-712 | From every reachable state with a pending mark in a live room, steps of the writer and of the leaving connection clear it with the room still live; that connection is told `left` if the disk works and an error if not, unless its answer was settled or the writer stopping before |
| Progress.LeaveFinishes | src/room.rs:693-712 | The same for every leave in flight, from any state satisfying the invariant; if told `left` it is logged as confirmed |
| Progress.EndClears | src/registry.rs:179-197 | From every reachable state each endSession in flight gets its reply by steps of the writer and of its own connection, which is then in no room: `ended` if the disk works and an error if not, unless settled or stopping before |
| Progress.EndFinishes | src/registry.rs:179-197 | The same from any state satisfying the invariant, from whichever of its steps the endSession is at; if told `ended` it is logged as confirmed |
| Witnesses.SomebodyLeaves | src/room.rs:693-712 | A run from an empty relay, for any names, on which a guest joins, leaves and is told `left` |
| Witnesses.SomebodyEnds | src/registry.rs:179-197 | A run from an empty relay, for any names, on which a host ends its session and is told `ended` |
| Saving.PersistSavesEverything | src/registry.rs:199-217 | Whatever happens while a persist runs, a successful one leaves exactly one record for every room that was in the table when it began and is not closing when it ends, no other record, and each record shows its room as it was at some moment in between; a failed one leaves the file alone |
| Saving.BuiltShows | src/snapshot.rs:314-342 | A record shows its room: session, host, host verifier, exactly the guests not leaving with verifier and absence, and the times to the millisecond |
| Saving.FileStands | src/snapshot.rs:284-290 | Only the end of a persist changes the file |
| Saving.EverythingCanBeSaved | src/snapshot.rs:222-270 | From every state of the invariant with a running writer, a notification and the writer's own steps on a working disk lead to a file with one record for each live mapped room, showing it as it is, and none else |
| Presence.EverybodyHears | src/room.rs:488-500 | In the running relay a broadcast reaches every other connection present in the room once and not its sender |
| Presence.DropOutsComeBack | src/room.rs:520-535 | In any interleaving, whoever drops out of a live room is let back in with its identity's token, by join or resume as asked, within five minutes, unless the room closes or it is back already |
| Presence.EverybodyHearsTheEnd | src/room.rs:415-442 | When an accepted endSession is confirmed, every connection that was in the room when it began hears `ended` once, the host by its reply, and nobody else, whatever happened meanwhile |
| Tickets.StepWaits | src/snapshot.rs:190-196 | Every event keeps: waiting connections have tickets that were handed out, each its own, and a capture under way can go on |
| Runs.AnswersStand | src/snapshot.rs:190-196 | An answer given to a terminal command never changes in any continuation |
| Runs.LeaveWindow | src/room.rs:259-273 | In every reachable live room a pending release means exactly one leave in flight, by the connection that occupies that seat |
| Runs.LeaveAlwaysResolves | src/room.rs:351-385 | Once its persist is answered, finishing a leave in a live room is never silent: it replies `left` or an error as the persist went, and clears the pending mark either way |
| Runs.OccupancyAgrees | src/connection.rs:155-225 | A seat of a reachable live room is held by a connection iff it was not given up by a refused endSession, and never by two |
| Runs.OnlyRefusedEndAbandons | src/connection.rs:215-225 | A seat is given up behind the room's back exactly by a refused endSession of the connection holding it |
| Runs.QuotaConservation | src/registry.rs:71-109 | On every run without a sweep taking a room from under an endSession, each owner's counter is its mapped rooms plus the releases still owed, and no address has more than three rooms |
| Runs.ConservedIffNeverOvercharged | src/registry.rs:89-109 | Over any run the books balance in every state if and only if no event is a second release against a non-zero counter |
| Runs.RoomsPerAddress | src/registry.rs:101-109 | Over any run, raced or not, an address has at most three rooms plus the number of events that overcharged it |
| Runs.Reachable | src/registry.rs:36-53 | Every state reachable from a startup satisfies the whole invariant |
| Runs.StepInv | src/connection.rs:73-111 | Every event of a connection, the writer or the sweep keeps the whole invariant |
| Runs.BootInv | src/registry.rs:36-53 | Starting from restored rooms of distinct sessions establishes it |
| Runs.BootBooks | src/registry.rs:36-53 | The books balance at startup, every restored room charged to the empty key |
| RoomHistory.RelayRunsAreRoomRuns | src/room.rs:659-712 | For each room object, any run of the relay is one run of room operations |
| RoomHistory.EventIsOps | src/connection.rs:116-271 | Each event acts on each room as the operations listed for it, and on no other room |
| RoomHistory.MoveSaysOp | src/connection.rs:155-271 | The reply, broadcasts and evictions of a connection's step are those of the operation listed for it |
| RoomHistory.ReturnSaysOp | src/registry.rs:130-137 | So are those of a `create` that returns the host |
| RoomHistory.RoomLife | src/registry.rs:111-174 | Every room object of every reachable state is what the operations this very run performed on it since its birth have made of it |
| RoomHistory.BirthOf | src/registry.rs:111-174 | Each room object was restored at startup from its own record, or made by one `create` of the run, with that message's session, host, token, owner and profile |
| RoomHistory.EveryRoomIsSound | src/room.rs:124-584 | Over its life in this very run, every room object meets the room invariant and the eight-peer limit, the roster and host its occupants folded from the messages of this run are its own, and each occupant was admitted in this run with a token matching its identity |
| RoomHistory.ClosingIsFinal | src/room.rs:238-251 | Once closing, a room object stays closing and hands out no further seat in any continuation |
| RoomHistory.RetiredIsFinal | src/room.rs:569-584 | A superseded or departed connection id never owns a seat of that room again in any continuation |
| RoomHistory.CredentialsAreFinal | src/room.rs:254-298 | While an identity persists in a room its verifier is unchanged in every continuation |
| RoomHistory.ViewsNeverDrift | src/room.rs:586-598 | Client views that agree with a room keep agreeing under every continuation |
| RoomHistory.SweepsAreInvisible | src/cleanup.rs:22-43 | Two runs of the relay in which a room hears the same but for sweep visits that do not remove it, anywhere and any number of them, say the same to all its clients |
| RoomHistory.IdleVisitIsUnheard | src/cleanup.rs:26-43 | A sweep visit that does not remove the room is not heard at all |
| RoomHistory.ClosingIsRemoved | src/cleanup.rs:44-46 | A closing room still in the table has a removal in flight that can proceed and after which nothing points at it |
| Restart.RestartIsComplete | src/snapshot.rs:94-164 | After a crash at any moment everything in the file loads, but for rooms past their limits, into a state from which every guarantee starts again |
| Restart.ConfirmedSurvivesCrash | src/snapshot.rs:5-12 | No reloaded room is one whose end was confirmed, nor has a place for a peer whose leave was confirmed |
| Lives.LivesAreSound | src/snapshot.rs:94-164 | Through any number of crashes at any moments and restarts, every life starts with the whole invariant, a well-formed file and balanced books |
| Lives.GoneThroughLives | src/snapshot.rs:5-12 | A peer gone from a room is in no room and no file of its line of restored rooms, through any number of restarts, until it is admitted again |
| Lives.LeftForGood | src/snapshot.rs:5-12 | So a confirmed leave stays out of every later file of that line, in this life and all later ones, until that peer joins again |
| Lives.GoneCrossesRestart | src/snapshot.rs:94-164 | A peer gone from a room is gone from the room a restart makes of its record |
| Lives.EndedHasNoHeir | src/registry.rs:179-197 | No room of the next life continues one whose end was confirmed |
| Lives.PersistedRoomLivesOn | src/snapshot.rs:94-164 | A room a persist found in the table and that was not closing when it ended is carried on after a crash at any time before the next write, with the session, host, verifiers and guests it had at some moment of the persist, provided its record is recent |
| Lives.EverythingCanLiveOn | src/snapshot.rs:94-164 | From every state with a running writer a notification and the writer's own steps lead to a file from which a restart carries on every live room, as it is, whose record is recent |
| Lives.RecentIsInherited | src/snapshot.rs:116-126 | A record created within a day and active within five minutes of the startup is restored and mapped under its session |
| Lives.ExecKeepsGone | src/room.rs:242-323 | Within a life a peer gone from a room, the file and the capture stays so until it is admitted |
| Restart.ExecFiles | src/registry.rs:199-217 | The file and the capture in progress always hold well-formed records of distinct sessions with at most seven reservations (that no live room is missing is Saving.PersistSavesEverything) |
| Restart.LoadsEverything | src/snapshot.rs:94-164 | Loading such records drops nothing but rooms past the age and idle limits, in order |
| Restart.FreshIsBootable | src/snapshot.rs:94-164 | What is loaded has distinct valid sessions and rooms meeting the room invariant |
| Exceptions.RaceUnbalances | src/registry.rs:187-193 | For any names: a sweep and an endSession removing one room release two slots, so the books do not balance |
| Exceptions.RaceBreaksTheLimit | src/registry.rs:101-109 | After that race one address owns four rooms at once |
| Exceptions.OpensAll | src/registry.rs:153-173 | An address opens sessions until its counter, not its rooms, reaches the limit |
| Exceptions.RefusedEndOrphans | src/connection.rs:215-225 | The caller's seat survives an endSession request, and is then held by no connection exactly when the request was refused |
| Exceptions.SeatWithoutHolder | src/connection.rs:215-225 | A run that reaches a live room whose only seat no connection holds |
| Lingering.OrphanedSeatStays | src/connection.rs:215-225 | A seat given up by a refused endSession stays taken and unheld in every continuation, which blocks reclaim and the idle sweep, until the room closes or the run admits that peer again |
| Lingering.RestartUntimes | src/snapshot.rs:314-342 | A restart leaves a guest reserved, away and without an absence time exactly when the saved reservation had none, as that of every connected guest |
| Lingering.LingersForever | src/room.rs:544-545 | Such a reservation is unchanged after any run at any times, unless the room closes or that peer is admitted |
| Lingering.RestoredReservationLingers | src/room.rs:544-545 | The same for every restored room in every run of the relay |
| Lingering.RestartCrowdsOut | src/room.rs:275-298 | A full room saved with everybody present refuses every newcomer with `room_full` after the restart, until one of the seven returns or the room closes |
| CoreInvariant.StepCore | src/connection.rs:73-111 | Every event keeps: well-formed table and rooms, holdings that name handed-out seats once, seats held or abandoned, and leaves in flight matching pending marks both ways |
| CoreInvariant.IdleIsNotPending | src/room.rs:520-535 | A connection between messages never has its own seat pending release in a live room |
| StepDurability.StepDurable | src/snapshot.rs:222-290 | Every event keeps the durability invariant: what a waiting leave or end will be told is already true of the capture or of the file |
| StepDurability.FinishLeaveDurable | src/room.rs:693-712 | Finishing a leave keeps it, and replies `left` only with the file clean of that peer |
| StepDurability.FinishEndDurable | src/registry.rs:194-196 | Finishing an end keeps it, and succeeds only with the file clean of that room |
| Durability.CaptureDurable | src/registry.rs:199-217 | Capturing one room during a persist keeps it, also for leaves that began meanwhile |
| Durability.WriteDurable | src/snapshot.rs:284-290 | So does replacing the file and answering the waiter, and a failed write |
| Durability.CaptureHides | src/snapshot.rs:314-342 | A record built while an identity is pending release, or gone, does not mention it |
| Answers.StepAnswers | src/snapshot.rs:222-270 | Every event keeps: durable sequence at most dirty sequence, nobody waiting at a loop head, at most one waiter during a persist, no ticket outstanding twice |
| Answers.AnsweredOnce | src/snapshot.rs:272-282 | An answer is new only when a persist ends, with that persist's result, or fails because the writer stopped; given answers stay |
| Answers.StepAccounted | src/snapshot.rs:190-196 | No ticket is ever lost |
| StepRegistry.StepClosing | src/cleanup.rs:33-46 | Every event keeps: live rooms are in the table, and a closing room in the table has somebody about to remove it |
| StepRegistry.StepBalance | src/registry.rs:89-109 | From any books an event puts each owner's off by at most its overcharge, and balanced ones by exactly that |
| StepRegistry.ConservedUnlessOvercharged | src/registry.rs:187-193 | Conservation survives an event if and only if the event is not a second release against a non-zero counter |
| StepRegistry.StepCapped | src/registry.rs:101-109 | No event takes the counter of a non-empty key above three |
| RaceFree.StepUnraced | src/cleanup.rs:44-46 | Without a race no endSession in flight has lost its room |
| RaceFree.UnracedNeverOvercharges | src/registry.rs:187-193 | And then no release is a second one |
| RaceFree.StepEnders | src/room.rs:390-413 | A room is being ended by at most one connection |
| Closing.UnmapIsExact | src/registry.rs:71-87 | Removal drops exactly the entry pointing at that object and leaves a newer room under the same session in place |
| Closing.RemovalProceeds | src/registry.rs:187-192 | A pending removal is enabled and unmaps the room |
| RoomInvariant.StepKeeps | src/room.rs:124-584 | Every operation keeps: host unreserved, connected guests reserved and not absent, at most seven reservations, connection ids distinct and below the counter, valid ids |
| RoomInvariant.RunKeeps | src/room.rs:275-298 | So does every run, which therefore never connects more than eight peers |
| RoomInvariant.NewRoomHolds | src/room.rs:124-170 | A new room satisfies it |
| RoomInvariant.RoomSizeBound | src/room.rs:275-298 | The invariant bounds connected peers by eight |
| RoomInvariant.StaleIsInert | src/room.rs:328-333 | An operation presenting a connection id that does not occupy the entry changes nothing and reaches nobody |
| RoomInvariant.RetiredForever | src/room.rs:569-584 | A connection id that left its entry never occupies one again, over any run |
| RoomInvariant.ClosingForever | src/room.rs:242-251 | A closing room never reopens or admits, over any run |
| Admission.AdmissionIsExact | src/room.rs:242-323 | Who is admitted, in fields of the room: the host or a kept, non-pending guest with its token, or a newcomer by `join` with a well-formed token and fewer than seven kept reservations; the reply of each, and the refusal of everybody else |
| Admission.ReturnsWithinGrace | src/room.rs:254-298 | A peer admitted with a token and disconnected at an instant is admitted with that token, as it asks, within the five minutes after, whatever happened while it was there and whatever others do meanwhile short of closing the room |
| Admission.RunKeepsAway | src/room.rs:537-552 | An absent peer's identity, credential and absence time outlast any run with clock readings before its grace ends, until it is admitted or the room closes |
| Admission.GraceIsExact | src/room.rs:520-552 | A guest disconnected at an instant is pruned exactly from five minutes after |
| Admission.SeatKeepsCredential | src/room.rs:569-584 | A seat still occupied after a run was occupied all along, with the same credential |
| Departure.LeaveTakesOwnToken | src/room.rs:328-345 | A leave is accepted exactly from a non-leaving guest of a live room, at version 2, with the very token its connection was admitted with |
| Departure.EndTakesOwnToken | src/room.rs:390-413 | A session is ended exactly by its host's connection, at version 2, with the very token it was admitted with |
| Departure.ActivityIsExact | src/room.rs:488-535 | Admissions, committed leaves, relayed messages and disconnects restart the idle clock, and nothing else does; nothing changes the age |
| Departure.SweepIsExact | src/cleanup.rs:29-36 | A sweep removes a room exactly when it is more than a day old, or empty and without activity for more than five minutes |
| Departure.EmptiedRoomIsSwept | src/cleanup.rs:29-36 | A room its last occupant leaves and nobody enters again is removed by the first sweep more than five minutes later, or past a day, and by none before |
| Delivery.BroadcastReaches | src/room.rs:488-500 | A broadcast by the occupant of a live room promises the message once to every other occupant's connection and nothing to any other |
| Delivery.BroadcastReachesPeers | src/room.rs:586-592 | Peer by peer: the sender gets nothing back, everybody else the message |
| Delivery.SendToReaches | src/room.rs:502-518 | A directed message is promised to its target's connection only; NotInRoom is replied iff the target is not connected |
| Delivery.EndReaches | src/room.rs:415-442 | A persisted end promises `ended` to exactly the guests connected when it began and drops everybody still connected; a failed one only drops them |
| Delivery.EvictionIsExact | src/room.rs:569-584 | A connection is dropped exactly when an admission replaces it, a session ends, or a room past its age is swept |
| Delivery.ChangesAreReported | src/room.rs:488-535 | An operation reports a change to the writer exactly when it seats or unseats somebody or changes the host, the end of a session aside, or the sweep removes the room |
| ClientViews.ViewsRefineTheRoom | src/room.rs:586-598 | After any run the roster and host each occupant folded from its messages are the room's own |
| ClientViews.StepAgree | src/room.rs:204-233 | Every operation's reply and broadcasts keep all views exact |
| ClientViews.NewRoomAgree | src/room.rs:150-166 | The creator's first view is exact |
| ClientViews.NoticeTeachesNothing | src/room.rs:615-635 | Eligibility notices never change a view |
| Credentials.CredentialIsConstant | src/room.rs:466-473 | While an identity stays host or reserved its verifier never changes, through resumes and host transfers |
| Credentials.StepKeepsCredential | src/room.rs:254-298 | No single operation changes the verifier of an identity that stays |
| Credentials.OccupantsAreAuthentic | src/room.rs:204-207 | After any run every occupant's admission token has its identity's verifier |
| Pruning.PruningIsInvisible | src/room.rs:537-552 | Two runs that differ only in when the sweep prunes give identical replies, broadcasts and evictions throughout |
| Pruning.VisitsAreInvisible | src/cleanup.rs:26-43 | Two room runs that differ only in sweep visits that do not remove the room give identical replies, broadcasts and evictions |
| Pruning.HeardSaysTheSame | src/cleanup.rs:26-43 | A run and the same run without those visits, on a room that prunes alike, say the same |
| Pruning.Simulates | src/cleanup.rs:22-43 | Rooms that differ only in reservations expired by now answer every later operation alike and stay so related |
| Pruning.OutputsSimulate | src/room.rs:242-323 | A run and the same run without the sweep's prunes produce the same outputs |
| Pruning.PruneKeepsTargets | src/room.rs:607-635 | Pruning never changes the host-transfer targets |
| Pruning.PruneIsExact | src/room.rs:544-545 | One prune drops a reservation exactly when it carries an absence time past its grace, is not pending release, and its peer is not connected |
| TransferLaws.TransferIsReversible | src/room.rs:444-486 | After an accepted transfer the reverse transfer by the new host's connection is accepted and restores host, host verifier and all reservations |
| TransferLaws.TransferKeepsGroup | src/host_transfer.rs:26-65 | An accepted transfer keeps the group of the host and its valid targets |
| TransferLaws.PublishedTargetsAreExact | src/room.rs:615-635 | The targets any operation on a room publishes are exactly those a transfer by the current host would accept next |
| TransferLaws.FirstTargetsAreExact | src/room.rs:150-170 | So are those a new room publishes, to its creator, iff the creator is capable |
| TransferLaws.SilentStepsKeepTargets | src/room.rs:452-464 | Between publications the set is unchanged in a live room, except that an accepted begin of a leave takes out exactly that peer and only its rollback may put it back |
| TransferLaws.AcceptableAreTargets | src/host_transfer.rs:44-65 | What the host's transfer accepts is the set of valid targets |
| TransferLaws.TransferIsExact | src/room.rs:444-486 | When the host's request is granted, in what peers declared: a capable host, nobody with a non-positive version or at the host's version without the capability, and a connected, non-leaving guest at the host's version; and the refusal of each other case |
| TransferLaws.OnlyTheHostTransfers | src/room.rs:444-451 | Everybody else is refused, with the code of each case |
| TransferLaws.StragglerBlocks | src/host_transfer.rs:20-37 | One peer without a usable version, or at the host's version without the capability, empties the targets and refuses every otherwise valid request |
| TransferLaws.BystanderDoesNotMatter | src/host_transfer.rs:20-37 | A peer at another usable version changes no target by being there |
| HostTransfer.EligibilityIgnoresOrder | src/host_transfer.rs:26-42 | Host eligibility over any listing of the peers equals its definition on the roster |
| HostTransfer.TargetIgnoresOrder | src/host_transfer.rs:44-65 | So does target validity |
| HostTransfer.NoticeIgnoresOrder | src/host_transfer.rs:76-95 | So do the recipients and targets of the notice, sent iff somebody is capable |
| HostTransfer.TransferGroupIsStable | src/host_transfer.rs:26-65 | Swapping host and target leaves the transfer group unchanged |
| HostTransfer.Find | src/host_transfer.rs:26-42 | Finds the first entry with that id, none iff there is none |
| RoomMachine.RoomState.constructor | src/room.rs:172-197 | A room object holds the given room |
| RoomMachine.RoomState.NewRoom | src/room.rs:124-170 | The fresh object and its messages are those of the specification |
| RoomMachine.RoomState.ReconnectHost | src/room.rs:204-233 | The host's return changes the fields and produces the messages, evictions and connection id of the specification |
| RoomMachine.RoomState.JoinOrResume | src/room.rs:242-323 | So does joining or resuming, with its pruning, authorization and room-full refusals |
| RoomMachine.RoomState.Seat | src/room.rs:275-323 | So does the admission part of it |
| RoomMachine.RoomState.BeginLeave | src/room.rs:328-345 | So does the first phase of leaving |
| RoomMachine.RoomState.FinishLeave | src/room.rs:351-385 | So does the second phase, committed, rolled back or silent |
| RoomMachine.RoomState.BeginEndSession | src/room.rs:390-413 | So does the first phase of ending, which also yields the other occupants |
| RoomMachine.RoomState.FinishEndSession | src/room.rs:415-442 | So does the second phase of ending |
| RoomMachine.RoomState.SendToAll | src/room.rs:415-442 | Each listed connection gets the message once |
| RoomMachine.RoomState.TransferHost | src/room.rs:444-486 | So does host transfer with its refusals |
| RoomMachine.RoomState.CommitTransfer | src/room.rs:466-485 | The accepted transfer swaps host and guest, credentials included, and announces it |
| RoomMachine.RoomState.CanTransferHostTo | src/room.rs:607-613 | True iff the peer is a valid target |
| RoomMachine.RoomState.Broadcast | src/room.rs:488-500 | Relaying to the others matches the specification |
| RoomMachine.RoomState.SendTo | src/room.rs:502-518 | Relaying to one peer matches the specification |
| RoomMachine.RoomState.HandleDisconnect | src/room.rs:520-535 | Disconnecting matches the specification |
| RoomMachine.RoomState.PruneExpiredReservations | src/room.rs:537-552 | Removes exactly the expired reservations and reports whether there were any |
| RoomMachine.RoomState.Admit | src/room.rs:569-584 | Gives the peer a fresh connection id and reports the replaced connection |
| RoomMachine.RoomState.BroadcastExcept | src/room.rs:586-592 | Everybody but one gets one copy after what they had |
| RoomMachine.RoomState.BroadcastAll | src/room.rs:594-598 | Everybody gets one copy after what they had |
| RoomMachine.RoomState.PeerInfos | src/room.rs:600-605 | Lists each connected peer once |
| RoomMachine.RoomState.AppendEligibility | src/room.rs:615-635 | Appends the eligibility notice of the current room, or nothing |
| RoomMachine.RoomState.Sweep | src/cleanup.rs:26-43 | The sweep's section prunes, decides removal, closes, clears an expired room and collects the evictions as specified |
| Snapshot.SaveThenLoad | src/snapshot.rs:94-164 | Loading a built snapshot restores, in order, every room within the limits with session, host, verifiers and all reservations not pending release |
| Snapshot.LoadIsExact | src/snapshot.rs:94-164 | What is loaded from any list of records: for each session the first candidate (valid ids, version 2, decodable verifier, created within 24 hours and active within 5 minutes), if its guests are in order |
| Snapshot.LoadedIffRecent | src/snapshot.rs:116-126 | A well-formed first record of its session is loaded iff it is that recent, which is iff the sweep would not remove the restored room at that time |
| Snapshot.LimitsAreTheSweeps | src/snapshot.rs:88-126 | The loader's limits are the sweep's, in plain times |
| Snapshot.FreshIsRecent | src/snapshot.rs:116-126 | In the round trip a room is within the limits iff it is that recent at the file's precision, iff the sweep would keep it |
| Snapshot.SavedRoomLoads | src/snapshot.rs:314-342 | One saved room is well formed and loads back to its survivor, iff still within the limits |
| Snapshot.GraceSurvivesRestart | src/snapshot.rs:81-87 | A restored grace ends no later than, and less than a millisecond before, it would have without the restart, exactly when the saved absence fits the new clocks (or the startup falls on its start) |
| Snapshot.GraceAfterRestart | src/snapshot.rs:131-148 | When a restored grace ends, in every case |
| Snapshot.GraceRestartsWhenLost | src/snapshot.rs:131-148 | With the wall clock set back past the absence, or an absence older than the new monotonic clock's origin, the full grace starts over |
| Snapshot.RestartKeepsCredentials | src/room.rs:172-197 | A restart keeps exactly the identities that were not leaving, each with its credential |
| Snapshot.LoadedRoomInvariant | src/snapshot.rs:131-148 | A loaded room meets the room invariant if and only if its record has at most seven reservations |
| Snapshot.WrittenRoomsRestore | src/room.rs:172-197 | A record this relay wrote always restores to a room meeting the invariant |
| Snapshot.CrowdedRecordIsLoaded | src/snapshot.rs:131-148 | A record with eight reservations is loaded and breaks the seat limit |
| Snapshot.LoadReservations | src/snapshot.rs:131-148 | The validation loop accepts a record iff every reservation is valid, and converts them all |
| Snapshot.LoadSnapshot | src/snapshot.rs:94-164 | The loading loop yields exactly the rooms of the specification, skipping invalid and repeated sessions |
| Writer.SnapshotWriter.constructor | src/snapshot.rs:222-227 | A writer starts with nothing dirty and nobody waiting |
| Writer.SnapshotWriter.ResolveAll | src/snapshot.rs:272-282 | Draining the waiters answers those the write covers, or all on failure, and keeps the rest in order |
| Writer.SnapshotWriter.Persisted | src/snapshot.rs:241-245 | The end of a persist advances the durable sequence on success and resolves the waiters |
| Writer.SnapshotWriter.Run | src/snapshot.rs:222-270 | Over any history of wake-ups the loop returns to its head with nobody waiting, having answered each terminal command once, in order, with the result of its own persist |
| Writer.SnapshotWriter.FlushAndStop | src/snapshot.rs:247-258 | Stopping succeeds iff nothing was dirty or the last write succeeded, and then everything is durable |
| Writer.ReactKeepsHead | src/snapshot.rs:222-270 | Each wake-up returns to the loop head and answers exactly the terminal command that caused it |
| Writer.OwedOncePerTerminal | src/snapshot.rs:190-196 | An answer is owed exactly as often as its command and persist result occur |
| RegistrySpec.CreateGap | src/registry.rs:126-132 | The gap before the admission: had the room changed meanwhile, the admission is what `create` promises iff the check still holds |
| RegistrySpec.EndInTheGap | src/registry.rs:126-132 | An endSession accepted in that gap would see a host admitted into a closing room |
| RegistrySpec.ReclaimGap | src/registry.rs:139-150 | The gap before the reclaim: closing unchecked is what the atomic step would do iff the room is still abandoned or closing; it is unmapped either way |
| RegistrySpec.JoinInTheGap | src/registry.rs:139-150 | A join admitted in that gap leaves its peer seated in a closed room that is out of the table |
| RegistrySpec.RestoreAllMaps | src/registry.rs:36-53 | Startup maps every restored session to its own room |
| RegistrySpec.RestoreAllCharges | src/registry.rs:36-53 | Startup charges all restored rooms to the empty key and nobody else |
| Registry.RoomTable.constructor | src/registry.rs:36-53 | The table after startup |
| Registry.RoomTable.ReleaseRoomQuota | src/registry.rs:89-99 | Releasing takes one off a positive counter and drops it at zero |
| Registry.RoomTable.TryClaimRoomQuota | src/registry.rs:101-109 | Claiming succeeds iff the counter is below three, and then adds one |
| Registry.RoomTable.RemoveIfCurrent | src/registry.rs:71-87 | Removes and releases iff the session still points at that object |
| Registry.RoomTable.Create | src/registry.rs:111-174 | Host return, refusal, reclaim or fresh room, with the resulting table, counters and effects |
| RegistrySpec.CreateIsExact | src/registry.rs:111-174 | Who gets a room from `create`: the host its own back; nobody with a malformed token, at a session closing or occupied by others, past 2000 rooms or three at the address; otherwise a fresh room with the caller as host and only occupant |
| Registry.RoomTable.InsertFresh | src/registry.rs:153-173 | The limits and the fresh insert of it |
| Registry.RoomTable.BuildSnapshot | src/registry.rs:199-217 | One record for each mapped room that is not closing, each once, and none else |
| Registry.RegistryRoundTrip | src/registry.rs:199-217 | Saving the mapped rooms of a registry, in any order, and loading the file restores all of them that are within the limits |
| ClientIp.Resolve | src/client_ip.rs:50-95 | The nested loops compute the flat answer: limits, then well-formedness, then the walk |
| ClientIp.CheckLimits | src/client_ip.rs:59-70 | Accepts iff all lines together are within 4096 bytes and 32 hops |
| ClientIp.VisitLine | src/client_ip.rs:79-93 | The inner loop over one line keeps the walk's standing, and stops only at a malformed hop |
| ClientIp.VisitHop | src/client_ip.rs:81-92 | One hop: rejected iff blank or unparsable, else the choice moves on only past a trusted proxy |
| ClientIp.WalkIsFirstUntrusted | src/client_ip.rs:72-94 | The answer is the first untrusted address from the right, or the leftmost hop if all before it are trusted |
| ClientIp.LeftHopsDoNotMatter | src/client_ip.rs:72-94 | Requests agreeing from an untrusted hop rightwards resolve alike whenever both resolve |
| ClientIp.SplittingALine | src/client_ip.rs:59-94 | Splitting a header line at a comma changes the answer exactly when the peer is trusted, the hops are few enough and well formed, and that comma was the one byte too many |
| ClientIp.OneByteTooMany | src/client_ip.rs:59-70 | Any acceptable hop, padded with spaces and repeated to a line of 4097 bytes, is refused as one line and resolves as two |
| ClientIp.Split | src/client_ip.rs:80 | Splitting gives one piece more than there are commas |
| ClientIp.JoinSplit | src/client_ip.rs:80 | The pieces hold no comma and rejoin to the text |
| ClientIp.TrimIsExact | src/client_ip.rs:81 | Trimming takes exactly the blanks off both ends |
| ClientIp.ChargedAlike | src/client_ip.rs:98-122 | Two addresses are charged alike exactly when they denote one IPv4 address, plain or mapped, or are genuine IPv6 addresses of one /64 |
| ClientIp.UntrustedIsItself | src/client_ip.rs:50-57 | Without a trusted proxy the headers are not looked at |
| Quotas.TokenBucket.constructor | src/quotas.rs:45-47 | A bucket starts full |
| Quotas.TokenBucket.AllowAt | src/quotas.rs:53-61 | Grants iff a token is there after the refill, and spends it; the level stays between empty and full |
| Quotas.TokenBucket.RefillAt | src/quotas.rs:63-70 | Refills for the time passed up to the burst, and not at all when the clock ran backwards |
| Quotas.TokensAreConserved | src/quotas.rs:53-70 | Over any calls at any times, grants plus the level left are at most the level before plus the refill, and the level stays in bounds |
| Quotas.BucketBound | src/quotas.rs:53-70 | In any stretch of any run at most the burst plus rate times the advance of the bucket's clock is granted |
| Quotas.BucketRecovers | src/quotas.rs:53-70 | A throttled caller is granted again once the clock advanced by one token's time |
| Quotas.LastTimestampLimiter.constructor | src/quotas.rs:99-101 | A limiter starts with no stamps |
| Quotas.LastTimestampLimiter.Allow | src/quotas.rs:103-113 | Permits iff the last permitted use is an interval ago, and stamps it |
| Quotas.LastTimestampLimiter.Cleanup | src/quotas.rs:115-120 | Keeps stamps unchanged or drops them, so that no answer for any address at any later time changes |
| Quotas.ForgettingIsInvisible | src/quotas.rs:103-120 | With time moving forward, cleanup at any moments changes no answer of any run |
| Quotas.UploadsAreSpaced | src/quotas.rs:98-121 | Uses let through from one address are at least the interval apart, whatever is cleaned up when |
| Quotas.AllowedIffSpaced | src/quotas.rs:103-120 | After any uses and cleanups a use is let through iff every earlier one of its address that was let through is at least the interval ago |
| Quotas.ConnectionQuota.constructor | src/quotas.rs:127-136 | No connections are open |
| Quotas.ConnectionQuota.TryConnect | src/quotas.rs:139-151 | Admits iff fewer than 100 connections and fewer than 5 of that address are open; the counters are those of the multiset of open connections |
| Quotas.ConnectionQuota.Disconnect | src/quotas.rs:153-170 | Closes one connection of that address, or none if there is none |

## Left out

- The connection actor, the writer's scheduling and the sweep are events of a state machine on values, not mutable objects: the interleaving is what matters about them. Their lock sections on rooms, the table and the waiter list are methods of the classes.
- WebSocket framing, ping and pong, message size and rate checks in front of `handle_message`, and the log store.
- Outbound channels that are full or closed: messages are delivered in the order the room produced them.
- Replies for messages the connection refuses by itself (not in a room, already in a room, invalid ids, unsupported version): they touch no room.
- Cancellation of evicted connections: any idle connection may disconnect at any time instead.
- SHA-256, base64, JSON, file system calls inside the atomic replace, CIDR and address parsing.
- `IpRateLimiter`, which wraps a library.
- Overflow of the 64-bit counters and of 64-bit millisecond times.
- Fair scheduling: progress means that some steps of the writer and the waiting connection lead there, that the writer's own steps all lead closer and nobody else's lead away, not that they are taken. Liveness of the debounce timer, and the time limit of `flush_and_stop`.
- Quotas.TokensAreConserved: is over real numbers where the relay rounds 64-bit floats, because rounding is not part of the promise.
- Quotas.TokenBucket.constructor: asks for a non-negative burst and rate, because the relay only makes buckets of 30 tokens at 10 per second.
- ClientIp.Resolve: takes network membership and address parsing as parameters, and header text as ASCII as the header type guarantees.
