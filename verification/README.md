# Chat server: protocol, codec, tick engine, message windows and Windows client

A Dafny model of a chat server whose lobby runs on one thread and whose channels each run a worker
thread, of the wire format its clients speak, and of the hand-written JSON code of the Windows client.
`dafny verify dfyconfig.toml` checks everything.

## What is modelled

**Admission and switching** (`ChannelProtocol`, `Protocol*`). A transition system over unboundedly many
channels and descriptors. The lobby thread and every channel worker have an explicit program counter and
each step is one visible action: locking `pool_mtx`, moving a pool out, adding one client, storing
`stop_flag`, stamping `empty_since`, blocking in `worker.join()`, and so on. Steps interleave freely
(sequentially consistent). The invariant of `ProtocolSafety` assumes nothing about the clients.
`ProtocolUsers` shows that, for clients that have at most one switch outstanding and do not disconnect
during it, the whole system refines one small automaton per user, from which "no lost user" follows.

**The code of a channel and of the lobby** (`ChannelRoom`, `ChannelTick`, `ChannelServer`). Classes whose
methods carry out the source's operations on fields and loops, each proved against a function on values.
`TickRefinement`, `ServerRefinement`, `ReportRefinement` and `LobbyRefinement` show that these functions are what
the protocol's steps add up to: one tick in the registered task order is a run of the protocol's worker, and the
handling of a whole report queue, one lobby join and one pass of the reaper are runs of the protocol's lobby thread.

**Framing** (`HexHeader`, `Framing`, `Communication`, `ClientFraming`). `%04x` and `stoul` (section 7.22.1.4
of ISO/IEC 9899:2011), a recursive reference parser of a whole byte stream, and the incremental decoders of
the server and of both clients against it, under every segmentation, and the sending loops of both sides under
any partial sends.

**Ticks and windows** (`TaskRunner`, `ProducerConsumer`, `MessageWindows`, `ChannelRuns`, `ChannelWindow`,
`ChannelDeletion`, `ServerPosts`, `ChannelOverflow`, `LobbyTimeout`). The task runner with throwing tasks, the
queue, the multimap as a stable sort (section 26.2.6 of ISO/IEC 14882:2017), whole runs of a channel, what
exactly a tick's window holds and what the lobby posts for it, what becomes of a channel whose window does not
fit a frame, and the throttled lobby timeout.

**The Windows client** (`JsonText`, `WindowJson`, `ClientJson`, `JsonExtraction`, `ClientDisplay`,
`ClientMessages`, `ClientWindow`, `ClientErrors`, `WindowDelivery`). Escaping (section 7 of RFC 8259), key search by substring,
the brace-cutting loop, one request builder, and their composition: from a channel's window, through the bytes
on the wire, or an error frame to what the client shows and which channel it believes it is in.

## Where the code does not do what one would expect

Each of these is a lemma, most with a concrete input or run, and the condition under which the code does what
one would expect is proved beside it.

- `check_channels` samples the clock before it looks at the channels. A channel that stops and stamps itself
  after that sample wraps the unsigned subtraction and is destroyed at once
  (`FreshStampIsDestroyed`; exact in `ReaperDecidesRightlyExactly`).
- A refused switch whose error frame cannot be sent leaves `consume_report` by an exception with the full
  channel's `pool_mtx` held, for good (`RefusalLeavesLock`; exact in `DisciplineExactly`).
- With a channel limit of 0 the fresh channel is used without a probe (`ZeroLimitOverAdmits`;
  exact in `CapacityExactly`).
- A restart starts the new worker before it clears `stop_flag`; if the worker looks first it ends at once, and
  the admitted user waits in a join pool nobody resolves (`UserIsStranded`; exact in `StrandedExactlyByRace`).
- A queued switch report outlives its client. If `accept` hands out the same descriptor again, a lobby user
  becomes a channel member too (`StaleReportJoinsLobbyUser`; exact in `ApartExactly`: the lobby stays apart
  exactly as long as no report is admitted for a descriptor in the lobby).
- A second join frame of a lobby user in one read makes `delete_client` throw with the channel's lock held
  (`TwoJoins`, `SecondJoinLocks`; exact in `ChannelServer.Server.JoinRequest`).
- A user whose second switch request is queued before the first is served becomes a client of two channels
  (`TwoSwitchesTwoChannels`); `NoLostUser` holds for users with one switch at a time.
- A client that is deleted while its leave is pending is announced twice (`TwoAnnouncements`; exact in
  `OneAnnouncementExactly`).
- The lobby timeout is paced by the wall clock but measured on the steady one, so a wall clock that stands still
  suspends it (`StandingWallMarksNobody`; exact in `MarkedExactly`).
- The clients compute `4 + len` in 32 bits, so the headers `-001` to `-004` wrap: what is shown then depends on
  where the stream was cut (`WrappedDependsOnCuts`; exact in `CutDoesNotMatterExactly`), and `-004` erases nothing,
  so that the loop never ends (`MinusFourSpins`). The clients also send frames longer than the server accepts
  (`ClientFrameArrivesExactly`).
- A window longer than 16384 bytes fails for every client and empties the channel (exact in
  `EveryoneStaysExactly`). One legal chat request of 16376 bytes is enough (`LegalRequestEmptiesChannel`).
- A message with an empty name or an empty text is accepted and broadcast but not shown
  (exact in `WindowIsShown`).
- The substring search is exact only for keys that do not start with a colon (`ObjectKeyIsSafeExactly`,
  `SearchKeyIsSafeExactly`), the cut loop only for texts without `}` (`ArrayCutExactly`), and a channel id of
  2^31 or more makes `stoi` throw (`WindowThrowsExactly`). The five control characters with a short escape are
  read back as letters (`ReadsBackExactly`).

## Model

| member | source | states |
|---|---|---|
| ChannelProtocol.FreshFrom | src/server/channel_server.cpp:181-182 | the search ends at the least unused id from its start on, whatever finite set of ids is in use |
| ChannelProtocol.FreshIsSmall | src/server/channel_server.cpp:181-182 | the id found is at most one more than the number of channels, so the 32-bit counter does not wrap below 2^32 - 1 channels |
| ProtocolSafety.WorkKeepsInv | src/server/channel.cpp:93-144 | no step of any worker breaks the reservation, "stopped means empty", the lock ownership, or what the lobby thread relies on at its program point |
| ProtocolSafety.StepKeepsInv | src/server/channel_server.cpp:81-219 | every step of every thread keeps that invariant, with no hypothesis on clients |
| ProtocolRuns.CapacityReserved | src/server/channel.cpp:74-77 | clients, pending joins and joins between pool and tracker together never exceed the limit, in every interleaving |
| ProtocolRuns.AdmittedIsAdded | src/libs/connection_tracker.cpp:46-66 | inside `resolve_pool` the tracker is never full: every admitted user becomes a client |
| ProtocolRuns.StoppedMeansEmpty | src/server/channel.cpp:140-143 | a channel with `stop_flag` set has no client, no pending join and no join under way |
| ProtocolRuns.DestroyedIsEmpty | src/server/channel_server.cpp:204-219 | only stopped, empty channels outside their critical section are destroyed |
| ProtocolRuns.RestartFindsWorkerPastLock | src/server/channel.cpp:34-42 | when the lobby holds the lock and waits in `worker.join()`, the old worker is past its critical section |
| ProtocolRuns.WaitMakesProgress | src/server/channel.cpp:34-42 | while the lobby waits, each step of that worker needs no lock and brings it nearer its end, and nobody else touches it |
| ProtocolRuns.WaitIsNotDeadlock | src/server/channel.cpp:13-42 | while the lobby waits, the awaited worker can step without a lock, or has ended and the wait is over |
| ProtocolRuns.WaitIsBounded | src/server/channel.cpp:20-42 | over any stretch of waiting the awaited worker takes at most a fixed number of steps known at its start |
| ProtocolRuns.StrandedExactlyByRace | src/server/channel.cpp:35-41 | a channel is left with no worker and a clear `stop_flag` exactly when a restarted worker tested the flag before the lobby cleared it |
| ProtocolRuns.StuckStays | src/server/channel_server.cpp:124-131 | a lock left behind stays held for the rest of every run |
| ProtocolRuns.DisciplineExactly | src/server/channel_server.cpp:94-142 | the lobby holds exactly the lock its program point says, exactly when no refusal was lost on the way |
| ProtocolPlacement.FullWasProbed | src/server/channel_server.cpp:155-178 | a channel counts as full only after it was probed, under its lock, during this very placement, without a slot |
| ProtocolPlacement.FreshOnlyWhenAllFull | src/server/channel_server.cpp:166-186 | a channel is created only when every existing one was found full, under the least unused positive id |
| ProtocolPlacement.PlacementIsLockedWithSlot | src/server/channel_server.cpp:155-187 | a placement ends with exactly one lock held, of a channel with a free slot |
| ProtocolPlacement.StampedMeansIdleSince | src/server/channel.cpp:39-39 | a nonzero stamp was there, on a stopped and empty channel, in every earlier state with a later clock |
| ProtocolPlacement.DestroyedAfterIdling | src/server/channel_server.cpp:208-215 | with a stamp not newer than the sample, a destroyed channel was empty throughout more than 300000 ms |
| ProtocolPlacement.ReaperDecidesRightlyExactly | src/server/channel_server.cpp:205-215 | the reaper's unsigned test agrees with the idle time exactly when the stamp is not newer than the sample |
| ProtocolUsers.RunRefines | src/server/channel_server.cpp:81-142 | every run with polite clients matches, user by user, a run of a seven-stage automaton |
| ProtocolUsers.ServeRefines | src/server/channel_server.cpp:94-142 | each lobby step moves each user by at most one move of that automaton |
| ProtocolUsers.WorkRefines | src/server/channel.cpp:93-144 | each worker step moves each user by at most one move of that automaton |
| ProtocolNoLostUser.NoLostUser | src/server/channel_server.cpp:113-142 | exactly the accepted, not yet disconnected descriptors are in the lobby, a tracker or a join pool, in every interleaving |
| ProtocolNoLostUser.LeaveMeansElsewhere | src/server/channel_server.cpp:133-134 | an unresolved leave means the user is in another channel's join pool or tracker |
| ProtocolNoLostUser.SettledInOneTracker | src/server/channel.cpp:116-138 | a channel user with nothing outstanding is in exactly one tracker |
| ProtocolNoLostUser.SwitchEndsInTarget | src/server/channel.cpp:116-138 | once a switch is recorded, when both pools are resolved the user is in the target only |
| ProtocolNoLostUser.RefusalChangesNothing | src/server/channel_server.cpp:126-131 | a refused switch changes no membership and leaves the user in its source only |
| ProtocolLobby.ApartExactly | src/server/channel_server.cpp:94-137 | with accepted descriptors in no tracker and no pool, the lobby stays apart from every tracker and pool exactly as long as no report is admitted for a descriptor that is in the lobby |
| ProtocolLobby.LobbyAndChannelsDisjoint | src/server/channel_server.cpp:94-102 | when no report that is still to be handled names an accepted descriptor, none is ever in the lobby tracker and a channel tracker at once |
| ProtocolWitnesses.CapacityExactly | src/server/channel_server.cpp:180-186 | the reservation holds in all reachable states exactly for limits of at least 1 |
| ProtocolWitnesses.ZeroLimitOverAdmits | src/server/channel_server.cpp:180-186 | a run with limit 0 that over-admits |
| ProtocolWitnesses.FreshStampIsDestroyed | src/server/channel_server.cpp:205-215 | a run in which a channel that has been empty for 0 ms is condemned |
| ProtocolWitnesses.UserIsStranded | src/server/channel.cpp:35-41 | a run that leaves an admitted user in a pool without a worker |
| ProtocolWitnesses.RefusalLeavesLock | src/server/channel_server.cpp:126-131 | a run that ends with the lobby idle and a full channel locked |
| ProtocolWitnesses.StaleReportJoinsLobbyUser | src/server/channel_server.cpp:113-137 | a run in which a reused descriptor ends up in the lobby and in a channel |
| ProtocolWitnesses.TwoSwitchesTwoChannels | src/server/channel_server.cpp:113-137 | a run in which a user with two queued switches becomes a client of two channels |
| ChannelRoom.Channel.AddClient | src/libs/connection_tracker.cpp:46-66 | refused when the tracker is full or already has the descriptor, otherwise exactly it is added |
| ChannelRoom.Channel.DeleteClient | src/libs/connection_tracker.cpp:67-81 | refused when the descriptor is not registered, otherwise exactly it is removed |
| ChannelRoom.OneMoreJoin | src/server/channel.cpp:74-77 | `ping_pool` says yes exactly when one more join keeps clients and pending joins within the limit |
| ChannelRoom.PendingJoinsArrive | src/server/channel.cpp:116-128 | within the limit every pending join becomes a client when the pool is resolved, in any order |
| ChannelRoom.BytesReadBack | src/server/chat_server.cpp:83-85 | the bytes handed to `broadcast` are the characters of the text |
| ChannelRoom.Channel.LeaveChannel | src/server/channel.cpp:30-32 | an entry that is already in the leave pool stays, and nothing else changes |
| ChannelRoom.Channel.JoinChannel | src/server/channel.cpp:34-42 | a stopped channel is running and unstamped afterwards, the user is posted, an earlier entry stays |
| ChannelRoom.Channel.ResolveJoins | src/server/channel.cpp:119-128 | the loop over the moved-out join pool equals the recursive addition, messages included |
| ChannelRoom.Channel.ResolveLeaves | src/server/channel.cpp:129-138 | the loop over the moved-out leave pool equals the recursive removal, messages included |
| ChannelRoom.Channel.ResolvePoolNow | src/server/channel.cpp:116-144 | joins, then leaves, then the stop with its stamp exactly when nobody is left |
| ChannelRoom.Channel.ResolveTimestamps | src/server/chat_server.cpp:38-46 | the queue is drained into the window |
| ChannelRoom.Channel.SendWindow | src/server/chat_server.cpp:83-86 | every client's connection holds a part of one frame with the window's text, all of it exactly for the clients that are not returned |
| ChannelRoom.Channel.BroadcastWindow | src/server/chat_server.cpp:38-91 | the drained queue becomes the window, and exactly the clients whose connection does not hold all of its frame are marked |
| ChannelRoom.Channel.ResolveDeletionNow | src/server/channel.cpp:93-114 | one "leave" per marked descriptor, which leaves tracker and buffers |
| ChannelTick.ServerBaseTasks | src/server/server_base.cpp:22-43 | the sessions the base constructor leaves |
| ChannelTick.ChatServerTasks | src/server/chat_server.cpp:7-16 | the broadcast ends up before the deletion, the clearing after the base's |
| ChannelTick.ChannelTasks | src/server/channel.cpp:5-12 | the order once the constructor is done: pools, broadcast, deletion |
| ChannelTick.ChannelServerTasks | src/server/channel_server.cpp:5-14 | the final order of the lobby: checks before the deletion, reports before polling |
| ChannelTick.TickIsComposition | src/server/server_base.cpp:22-43 | running those sessions is one composition of the operations, and a polling failure only clears |
| ChannelTick.HandleEvent | src/server/server_base.cpp:119-139 | a hang-up or a throwing read marks, a read pushes its messages or reports its switch request, unless that is to the channel itself |
| ChannelTick.RequestsExactly | src/server/channel.cpp:153-167 | the requests reported are those for another channel, one for one and in the order of their events |
| ChannelTick.ReadSayings | src/server/chat_server.cpp:93-112 | chat requests become user messages with their own text and timestamp under the sender's name, none without a name |
| ChannelTick.RunTick | src/server/channel.cpp:20-28 | the tick carried out on the channel object is the tick of the task runner, reports exactly the requests read, and whoever is still a client has been sent the whole window |
| TickRefinement.PoolIsWorkerRun | src/server/channel.cpp:116-144 | from lock to unlock, the protocol's worker steps compute `resolve_pool` |
| TickRefinement.TickIsWorkerRun | src/server/channel.cpp:20-28 | one round of `proc`, throwing or not, is a run of the protocol's worker with the same outcome and the same switch requests |
| TickRefinement.WorkerRunIsSystemRun | src/server/channel.cpp:153-167 | what a worker does alone is a run of the whole system that leaves everything else alone and queues its requests as reports, in order |
| TickRefinement.TickIsSystemRun | src/server/channel.cpp:20-28 | so one round of `proc` is a run of the whole system |
| TickRefinement.EarlyTickIsWorkerRun | src/server/channel.cpp:5-12 | a tick before `resolve_pool` is registered is a worker round that does not reach the lock; pending joins and leaves stay |
| ChannelServer.Server.GetChannel | src/server/channel_server.cpp:146-153 | an unknown id gets a new empty channel, a known one is left alone |
| ChannelServer.Server.Probe | src/server/channel_server.cpp:173-177 | the lock is kept exactly when there is a slot |
| ChannelServer.Server.ProbeOthers | src/server/channel_server.cpp:166-178 | returns a locked channel with a slot, or none is locked and all others are full |
| ChannelServer.Server.FindOrCreateChannel | src/server/channel_server.cpp:155-187 | the preferred channel if it has a slot, else another with one, else the least fresh id when all are full; exactly its lock is held and no other channel changes |
| ChannelServer.Server.AdmitTo | src/server/channel.cpp:58-72 | a named user that is not pending is posted as a system message with its name, the text asked for and the timestamp; a pending one stays as posted, a nameless one is ignored |
| ChannelServer.Server.DismissFrom | src/server/channel.cpp:44-56 | a named user that is not leaving yet is posted as a system "leave" under its name, a nameless one is marked for deletion |
| ChannelServer.Server.JoinRequest | src/server/channel_server.cpp:81-111 | the user is named, placed, out of the lobby and its timeout table with no lock held; exactly for a user not in the lobby it throws with the lock held |
| ChannelServer.Server.TwoJoins | src/server/channel_server.cpp:81-111 | of two join frames of a lobby user the second always throws, posts the user again and leaves the picked channel locked |
| ChannelServer.SecondJoinLocks | src/server/channel_server.cpp:94-102 | for instance on a new server with one user |
| ChannelServer.Server.SwitchOne | src/server/channel_server.cpp:121-137 | the table becomes that of the switch, and the lock is left held exactly when a refusal is not sent |
| ChannelServer.Server.ConsumeReport | src/server/channel_server.cpp:113-142 | the loop equals the fold over the queue, up to the first lost refusal |
| ChannelServer.Server.CheckChannels | src/server/channel_server.cpp:204-219 | exactly the stopped channels with an old nonzero stamp are gone, and the others are unchanged |
| ServerPosts.LobbyJoinIsPosted | src/server/channel_server.cpp:94-97 | a lobby join posts `join` with name, timestamp and descriptor to the channel it was placed in |
| ServerPosts.SwitchIsPosted | src/server/channel_server.cpp:133-134 | an admitted switch posts `rejoin` to the target and `leave` to the source |
| ServerPosts.ConsumeKeepsPosted | src/server/channel_server.cpp:113-142 | a report queue leaves only such posts behind, wherever it stops |
| ServerPosts.PoolsAreWellFormed | src/server/channel.cpp:30-72 | after any joins, reports, reaper passes and ticks, every pool holds what the deletion theorems assume of it |
| ServerRefinement.AdmitIsServerRun | src/server/channel.cpp:34-72 | the protocol's steps from `join` on, restart included, post the user as `AdmitTo` does |
| ServerRefinement.DismissIsServerRun | src/server/channel_server.cpp:134-136 | the protocol's last two steps post the leave and release the lock |
| ServerRefinement.SwitchIsServerRun | src/server/channel_server.cpp:115-137 | handling one report is a run of the protocol's lobby thread with the same table, lock and program point |
| ReportRefinement.ConsumeIsServerRun | src/server/channel_server.cpp:113-142 | from drain to end, the whole report queue is a run of the protocol's lobby thread with the same table and exactly the lock that a lost refusal leaves |
| LobbyRefinement.PlaceIsServerRun | src/server/channel_server.cpp:155-187 | every channel the placement rule allows is reached by a run of the protocol's probes, locked |
| LobbyRefinement.JoinIsServerRun | src/server/channel_server.cpp:81-111 | a lobby join is a run of the protocol's lobby thread with the same table, lobby and lock |
| LobbyRefinement.ReapIsServerRun | src/server/channel_server.cpp:204-219 | one pass of the reaper is a run of the protocol's lobby thread with the same table |
| TaskRunner.TaskRunner.Run | src/libs/task_runner.tpp:45-54 | the nested loops with in-place erasure equal the recursive meaning, also when a task throws |
| TaskRunner.TaskRunner.RunOne | src/libs/task_runner.tpp:49-52 | one session: completed one-shots are erased, a thrower and all after it stay |
| TaskRunner.TaskRunner.PushFront | src/libs/task_runner.tpp:10-22 | the task is first in its session, or the session does not exist and nothing changes |
| TaskRunner.TaskRunner.PushBack | src/libs/task_runner.tpp:14-26 | the task is last in its session, or the session does not exist and nothing changes |
| TaskRunner.TaskRunner.NewSession | src/libs/task_runner.tpp:37-43 | exactly so many empty sessions are appended |
| TaskRunner.TickMeaning | src/libs/task_runner.tpp:45-54 | a tick executes the flattened sessions in order; without a throw each keeps exactly its persistent tasks in order |
| TaskRunner.ThrowingTick | src/libs/task_runner.tpp:45-54 | the tasks before the thrower ran, their one-shots are gone, the thrower and the rest are untouched |
| TaskRunner.OneShotsRunOnce | src/libs/task_runner.tpp:10-54 | over any history of pushes and ticks every one-shot has completed once or is still waiting, and none is waiting after a tick without a throw |
| ProducerConsumer.ProducerConsumerQueue.Push | src/libs/producer_consumer.tpp:12-19 | the item is last |
| ProducerConsumer.ProducerConsumerQueue.WaitAndPop | src/libs/producer_consumer.tpp:21-31 | fails only when stopped and empty, otherwise takes the oldest item |
| ProducerConsumer.ProducerConsumerQueue.TryPop | src/libs/producer_consumer.tpp:33-42 | fails exactly when empty, otherwise takes the oldest item |
| ProducerConsumer.ProducerConsumerQueue.PopAll | src/libs/producer_consumer.tpp:44-50 | returns the whole content and leaves nothing |
| ProducerConsumer.FirstInFirstOut | src/libs/producer_consumer.tpp:12-50 | over any history of the queue object's calls, which its methods record, items come out once and in push order |
| MessageWindows.FillWindow | src/server/chat_server.cpp:38-46 | the draining loop is the repeated emplacement |
| MessageWindows.WindowIsStableSort | src/server/chat_server.cpp:38-50 | a window is sorted by timestamp and keeps the arrival order of equal timestamps |
| MessageWindows.StableSortIsUnique | src/server/chat_server.cpp:38-50 | nothing else is a stable sort of the batch |
| ChannelWindow.JoinsAreAnnounced | src/server/channel.cpp:119-128 | `resolve_pool` announces every pending join that is not a client yet, once, as it was posted, and nothing else for the joins |
| ChannelWindow.LeavesAreAnnounced | src/server/channel.cpp:129-138 | the same for the leaves of clients |
| ChannelWindow.EverythingSaidIsQueued | src/server/server_base.cpp:33-40 | all messages of a tick's chat events are queued, in order |
| ChannelWindow.TickWindow | src/server/channel.cpp:20-28 | the window of a polling tick is the stable sort of the queue, what was said, and exactly the joins and leaves that took effect |
| ChannelWindow.JoinIsShown | src/server/channel.cpp:119-123 | a join that takes effect is in the window of the same tick |
| ChannelWindow.LeaveIsShown | src/server/channel.cpp:129-132 | so is the leave of a client |
| ChannelRuns.ExactlyOnce | src/server/chat_server.cpp:8-50 | over any run, aborted ticks included, the windows and the queue hold exactly the messages pushed, and each window is the stable sort of one drained batch |
| ChannelRuns.WindowSenderExactly | src/server/chat_server.cpp:38-50 | one window keeps a sender's order exactly when its batch had that sender's timestamps in order |
| ChannelRuns.SenderOrderExactly | src/server/chat_server.cpp:38-50 | a whole run shows a sender in push order exactly when no drained batch has its timestamps out of order |
| ChannelRuns.SenderOrderIsKept | src/server/chat_server.cpp:38-50 | nondecreasing timestamps suffice |
| ChannelDeletion.DeletedWithinTick | src/server/channel.cpp:93-114 | at the end of a polling tick exactly the marked descriptors are out of tracker and buffers, each with one "leave" queued |
| ChannelDeletion.EmptiedExactly | src/server/chat_server.cpp:86-89 | the channel ends the tick empty exactly when all its clients were marked, by an event or because the window was not sent to them |
| ChannelOverflow.TickKeepsOrEmpties | src/server/chat_server.cpp:48-91 | with working connections a tick keeps every client when the printed window has at most 16384 bytes, and otherwise deletes all |
| ChannelOverflow.EveryoneStaysExactly | src/server/chat_server.cpp:83-89 | so everyone stays exactly when the window fits a frame |
| ChannelOverflow.OneMessageLength | src/server/chat_server.cpp:57-59 | a window of one chat message is its escaped name, text and timestamp and 63 more characters |
| ChannelOverflow.RequestLength | src/client/client_win.cpp:404-405 | the request that posts it is its escaped text, its timestamp and 43 more characters |
| ChannelOverflow.OneMessageEmptiesExactly | src/server/chat_server.cpp:48-91 | one message in a quiet channel empties it exactly above a length, and its own request is legal exactly up to another |
| ChannelOverflow.LegalRequestEmptiesChannel | src/server/chat_server.cpp:83-89 | a request of 16376 bytes arrives as one frame and its window deletes every client |
| ChannelDeletion.OneAnnouncementExactly | src/server/channel.cpp:93-138 | a deleted client is announced once in this tick when no leave of it was pending, and twice when one was |
| ChannelDeletion.TwoAnnouncements | src/server/channel.cpp:93-138 | for instance a client that hangs up while its switch is pending |
| ChannelDeletion.QueuedLeaveIsShown | src/server/chat_server.cpp:38-50 | a polling tick shows each queued "leave" as often as it is queued |
| ChannelDeletion.LeaveShownNextTick | src/server/channel.cpp:93-114 | the "leave" of a deletion is in the window of the next tick that polls, once, if the server posts no leave for that descriptor in between |
| LobbyTimeout.Throttle.Call | src/libs/task_runner.h:48-56 | the function runs exactly when the timeout has passed, and only then is the time remembered |
| LobbyTimeout.ExecutionsSpread | src/libs/task_runner.h:48-56 | with a nondecreasing clock k executions span at least (k-1) timeouts |
| LobbyTimeout.CheckLobby | src/server/channel_server.cpp:189-202 | exactly the entries of 5000 ms or more are marked and the others kept |
| LobbyTimeout.Lobby.Tick | src/server/channel_server.cpp:10-13 | one throttled check on the object, which reads the two clocks apart |
| LobbyTimeout.MemoryIsLastExecution | src/libs/task_runner.h:48-56 | the throttle remembers the reading of its last execution |
| LobbyTimeout.MarkedExactly | src/server/channel_server.cpp:189-202 | for any readings of the two clocks, arrivals and joins: a client is marked in the first tick whose throttle is due and whose steady reading finds its entry 5000 ms old, and never exactly when there is none |
| LobbyTimeout.LobbyTimeoutBound | src/server/channel_server.cpp:10-13 | with the wall clock between `lo` and `hi` ahead of the steady one at each tick, a client that never joins is marked no earlier than 5000 ms and before 6000 ms, that slack and one tick gap |
| LobbyTimeout.StandingWallMarksNobody | src/libs/task_runner.h:48-56 | a wall clock that stands still delays the timeout for ever |
| LobbyTimeout.NeverTooEarly | src/server/channel_server.cpp:189-202 | the lower bound holds whatever the two clocks do |
| LobbyTimeout.JoinedIsNotMarked | src/server/channel_server.cpp:99-100 | a client that joined is never marked by the lobby |
| HexHeader.HeaderRoundTrip | src/libs/communication.cpp:62-63 | `stoul` of `%04x` gives the length back exactly up to 65535, and never throws |
| HexHeader.HeaderDigits | src/libs/communication.cpp:62-63 | the header of a length up to 65535, digit by digit |
| HexHeader.ReadPlainDigits | src/libs/communication.cpp:33-33 | four lower-case digits are read as their plain value |
| Framing.ParseAppend | src/libs/communication.cpp:30-51 | parsing may stop after any byte and go on from the unconsumed tail |
| Framing.FramesAreShort | src/libs/communication.cpp:38-48 | every delivered frame has 1 to 16384 bytes |
| Framing.StreamParses | src/libs/communication.cpp:30-51 | complete frames within 16384 bytes are delivered in order whatever their headers look like, empty ones are skipped, and the first header without a number or above the limit is refused |
| Framing.EveryStream | src/libs/communication.cpp:30-51 | every buffer consists of such frames and such a rest |
| Framing.RoundTrip | src/libs/communication.cpp:55-78 | everything the server may send parses back, in order, with nothing left; empty payloads vanish |
| Framing.ClientToServer | src/client/client.cpp:56-71 | the same for what the clients send |
| Framing.ClientFrameArrivesExactly | src/client/client.cpp:56-71 | a client frame arrives as sent exactly when it has at most 16384 bytes |
| Communication.Communication.RecvFrame | src/libs/communication.cpp:11-54 | all bytes the kernel returned are kept behind the buffer, a fault throws, and otherwise buffer and result are those of the reference parser; other buffers are untouched |
| Communication.Communication.ReadAll | src/libs/communication.cpp:18-28 | appends the data of every read up to and including the first that is not full, and throws exactly when that one failed or ended the stream |
| Communication.Communication.Decode | src/libs/communication.cpp:30-53 | the cutting loop equals the recursive parser |
| Communication.Communication.ClearBuffer | src/libs/communication.cpp:92-94 | exactly this buffer is gone |
| Communication.SendFrame | src/libs/communication.cpp:55-78 | the wire always holds a prefix of the frame; success is exactly a size within the limit, a whole header and a completed body |
| Communication.PartialSendsComplete | src/libs/communication.cpp:70-77 | however the kernel splits the body, enough accepting calls send all of it |
| Communication.SendAll | src/libs/communication.cpp:55-78 | payload after payload, the wire holds a prefix of their encoding, and all of it exactly when every send is delivered |
| Communication.Broadcast | src/libs/communication.cpp:79-90 | exactly the clients whose frame did not go out are returned, and every client is tried |
| Communication.RunCalls | src/libs/communication.cpp:11-94 | any mixture of calls on one object ends with the buffers and histories that the theorems below speak of |
| Communication.SegmentationIndependence | src/libs/communication.cpp:11-54 | for any cuts and any mixture of descriptors, delivered frames and buffer are those of one parse of the bytes since the last clear |
| Communication.DeliveredIsPrefix | src/libs/communication.cpp:33-40 | when a call throws, what was delivered before is a prefix of the reference frames |
| Communication.ThrowsExactly | src/libs/communication.cpp:18-45 | with error-free reads a descriptor's calls throw exactly when its bytes hold a refused header, wherever they were cut |
| Communication.RawThrowsExactly | src/libs/communication.cpp:18-45 | a descriptor's calls throw exactly when the kernel reported a fault or the bytes it returned hold a refused header |
| Communication.NothingIsLost | src/libs/communication.cpp:18-28 | the bytes parsed are exactly the bytes the kernel returned since the last clear |
| Communication.EndToEnd | src/libs/communication.cpp:11-78 | when the bytes the kernel returned are what `SendAll` of server or client put on the wire, nothing throws, the non-empty payloads are delivered in order and nothing is kept back |
| Communication.CutOffArrives | src/libs/communication.cpp:11-78 | when they are only a first part of it, a prefix of the payloads arrives, and nothing throws |
| ClientFraming.DecodeAppend | src/client/client.cpp:185-195 | the clients' decoder goes on from its tail after any byte while no header wraps |
| ClientFraming.CutDoesNotMatterExactly | src/client/client.cpp:185-195 | below 4 GiB a cut does not matter exactly when nothing follows it or no header before it wraps |
| ClientFraming.MinusFourSpins | src/client/client.cpp:191-194 | the header "-004" erases nothing, so the loop does not end |
| ClientFraming.StreamDecodes | src/client/client.cpp:185-195 | complete frames of any size are shown in order, empty ones too, up to an incomplete frame or a header without a number |
| ClientFraming.WrappedDependsOnCuts | src/client/client.cpp:191-194 | with a wrapped header it does |
| ClientFraming.ServerToClient | src/client/client.cpp:185-195 | what the server sends is shown by the clients, in order, with nothing left |
| ClientFraming.SendFrame | src/client/client.cpp:56-71 | the wire always holds a prefix of the frame; success is exactly a whole header and a completed body, of any size |
| ClientFraming.SendAll | src/client/client.cpp:56-71 | request after request, as for the server |
| ClientFraming.Receiver.DecodeLoop | src/client/client_win.cpp:289-299 | the loop equals the recursive decoding, outcome included |
| ClientFraming.Receiver.Converse | src/client/client.cpp:176-197 | handshake reads followed by main-loop reads on one buffer lose, repeat and reorder nothing |
| ClientFraming.Receiver.Listen | src/client/client.cpp:176-197 | reads that add up to what the server sent leave its non-empty payloads, in order, and an empty buffer |
| ClientJson.JsonEscape | src/client/client_win.cpp:264-277 | the loop is the character-wise escaping |
| ClientJson.CollectsEscaped | src/client/client_win.cpp:156-171 | an escaped value is read to its own closing quote, whatever follows |
| ClientJson.ReadsBackExactly | src/client/client_win.cpp:264-277 | escaping and reading back is the identity exactly without the five short-escape control characters |
| ClientJson.ExtractJsonString | src/client/client_win.cpp:142-172 | the index loops equal the function on text |
| ClientJson.ExtractJsonInt | src/client/client_win.cpp:175-188 | the index loops equal the function on text, `stoi` exceptions included |
| JsonExtraction.NoForgedKey | src/client/client_win.cpp:142-172 | every string value is read under its own key and nothing under any other, whatever the values contain |
| JsonExtraction.NoForgedInt | src/client/client_win.cpp:175-188 | every integer in range is read under its own key, others throw, and no text forges one |
| JsonExtraction.SearchKeyIsSafeExactly | src/client/client_win.cpp:143-144 | a search key is right on all objects without colon keys exactly when it is not a colon and the writer's gap |
| JsonExtraction.ObjectKeyIsSafeExactly | src/client/client_win.cpp:143-144 | a key may occur in objects without spoiling a reading exactly when it does not start with a colon |
| JsonExtraction.GapKeyIsForged | src/client/client_win.cpp:143-144 | the member `"a":":"` forges that search key |
| JsonExtraction.ColonKeyForges | src/client/client_win.cpp:143-144 | any key that starts with a colon lets another key be misread |
| ClientDisplay.DisplayMessage | src/client/client_win.cpp:234-261 | the texts handed on are the cuts of an array, or the payload itself |
| ClientDisplay.CutFrom | src/client/client_win.cpp:244-255 | the two-search loop equals the character scan, and terminates |
| ClientDisplay.ArrayCutExactly | src/client/client_win.cpp:237-256 | the loop yields exactly the objects, in order, exactly when none holds a closing brace inside |
| ClientMessages.BuildChatMessage | src/client/client_win.cpp:404-405 | the concatenation is the printed object |
| ClientWindow.WindowCutExactly | src/server/chat_server.cpp:48-83 | a window is cut into its messages exactly when no name and no text holds a closing brace |
| ClientWindow.ParseAndPrint | src/client/client_win.cpp:225-232 | the five extractions, or the exception of the last |
| ClientWindow.MessageIsRead | src/client/client_win.cpp:225-232 | a message is read back field by field, whatever its name and text spell |
| ClientWindow.Screen.PrintLine | src/client/client_win.cpp:190-223 | a line is printed exactly when its kind is known and its parts are there, and only the client's own join or rejoin with a positive id moves its channel |
| ClientWindow.Screen.Display | src/client/client_win.cpp:234-261 | printed lines and channel are those of the fold over the cut texts, up to an exception |
| ClientWindow.WindowIsShown | src/client/client_win.cpp:190-261 | exactly the messages with a name and a text are shown, as broadcast, so all exactly when every one has both; the channel changes exactly when the window holds the client's own join |
| ClientWindow.WindowThrowsExactly | src/client/client_win.cpp:175-188 | showing a window fails exactly when a system message carries a channel id beyond `int` |
| WindowDelivery.MessageText | src/server/chat_server.cpp:57-73 | the text of each message in a window, spelled out |
| WindowDelivery.WireShowsWindow | src/client/client_win.cpp:280-299 | a client whose connection holds all of a window's frame decodes exactly the window's text and shows the window |
| WindowDelivery.JoinerFollows | src/client/client_win.cpp:190-213 | a user whose join takes effect learns from that tick's frame which channel it is in |
| ClientErrors.ErrorFrameText | src/server/channel_server.cpp:72-72 | the literal error frames are the printed object of two members |
| ClientErrors.ErrorIsShown | src/client/client_win.cpp:215-222 | an error frame is handed on whole, is read as its message and nothing else, is shown, and moves no channel |

## Modelling notes

- Atomic steps are sequentially consistent; a moved-from pool is empty. The lobby's `leave()` on the source
  channel is one atomic step without that channel's lock, as in the source.
- `unsigned long` has 64 bits and `uint32_t` wraps. Clock values are below 2^64 and the subtraction of two of
  them wraps.
- The iteration order of unordered containers is a parameter about which only "each element once" is known.
- `recv` and `send` are lists of results, epoll is a list of events for tracked clients, clocks are inputs.
- `ChannelServer` runs alone: its lock operations require what the interleaving model proves.

## Left out

- ProtocolRuns.StrandedExactlyByRace: safety only; that an admitted user is eventually tracked is not claimed, because it is false after that race and otherwise a question of scheduling.
- ProtocolRuns.AdmittedIsAdded: the tracker is never full; that epoll may refuse a descriptor that was closed meanwhile is outside the model.
- ChannelRoom.Channel.DeleteClient: a registered descriptor is always removed; that epoll may refuse the removal, which keeps the descriptor in the set, is outside the model.
- ProtocolRuns.DisciplineExactly: lobby joins are those of users in the lobby; the lock that a second join in one read leaves behind is in ChannelServer.Server.JoinRequest only.
- ProtocolNoLostUser.NoLostUser: needs one switch at a time, no disconnect during it, and accepted descriptors that nothing refers to; without these a user can be in two channels (`TwoSwitchesTwoChannels`).
- Communication.SegmentationIndependence: per `Communication` object; bytes buffered by the lobby are not handed to the channel.
- ChannelOverflow.TickKeepsOrEmpties: windows below 4 GiB, whose length fits the 32-bit `len`; control characters without a short escape count as one character.
- ChannelTick.HandleEvent: a read that holds several requests is several events in a row; the connection a channel's worker accepts through the shared listening socket, whose `on_accept` does nothing, is no event.
- ClientWindow.MessageIsRead: printable ASCII names and texts, for which the server's JSON library escapes like the client; timestamps are not limited to 64 bits.
- JSON parsing and packing on the server, the variadic unpack of ids, and string dispatch by hash: an unseen library, so the model starts from decoded requests.
- Sockets, epoll, terminals, consoles, `getaddrinfo`, signals and argument parsing.
- Closing of descriptors refused at accept, and of the listening socket in the base destructor.
- The join and switch request builders of the Windows client: the same concatenation as the chat builder.
- Memory ownership of request objects, the destructors of the server, logging, and the multi-client simulator.
