# A verified model of the replicated state machine library

The repository is a Viewstamped Replication library: replicas that agree on a log through view changes
and crashes, a client, a simulator that says what must hold, and a key-value store with a journal and a
text protocol. This project models its hard parts in Dafny and proves what they are for.

## What is modelled

**The cluster** (`Quorums`, `Protocol`, `Cluster`). Any number of replicas with their disks, a network
that loses, repeats and reorders, and every handler of `lib.rs` as a function from state to state; the
code's assertions set a flag. A message that left stays deliverable for good. A write is out from `Take`
to `Land`, steps go on meanwhile, and a crash lands it whole or not at all. Logs are whole: op numbers
are positions. A run is any sequence of such steps.

`Invariant` states what every reachable state satisfies, `Safety` is the quorum-intersection argument,
and `Growth` to `Running` show that every step keeps the invariant. `Agreement`, `Linearizability`,
`ExactlyOnce` and `QueryRounds` hold what follows, each for every state of every run.

What replicas must do, besides what they must not, is in `Duties` (what a replica owes whoever sends it a
message, in every reachable state), `Counting` (what a quorum acknowledged is committed at once) and
`Answering` (no query is dropped or answered twice). And no reachable state is a dead end: `Serving` and
`Asking` prove that however a run has gone the replicas of any quorum can go on, without the others, to
change views, commit and execute an entry at all of them, and answer a query, and `Healing` that a replica
that missed entries or a whole view can catch up. `Continuing` and `Reviving` are the steps of that.

A replica that fetched a checkpoint may restore it at any time a segment names one (`Restore`), which is
durable at once, before the write that follows.

Two things decide whether replicas agree, and `Deciding.Decides` says exactly how: a cluster of any size
agrees in every run if and only if `Config.Sound` holds of it.

* *The gate.* The module documentation promises that a view change is on disk before anything sent in
  the new view (lib.rs:21-23). `send` lets `Prepare`, `Commit`, `NewState` and `ConfirmView` leave
  earlier (lib.rs:3490-3507). Replicas that crash agree only if owners hold those back until the
  primary's disk was normal in the view. `Ungated` is a run, for every number of replicas, in which they
  do not and two replicas commit different entries.
* *The guard: a checkpoint does not outlive the view it came with.* A restored checkpoint is durable with
  the state machine before the write that follows it (lib.rs:2769-2787, simulator/disk.rs:127-136). A
  crash in between leaves a commit number of a later view under an older `last_normal_view`. Replicas
  that crash agree if a checkpoint is restored only once the disk records the view it came with, which an
  owner can see before the step. The library asks for no such thing: `EarlyRestore` is a run, for every
  number of replicas from five on, all of them gated, in which such a commit number passes for one of
  another log, and two replicas commit different entries. Up to four replicas agree without the guard,
  since a replica left behind so is left behind by all the others.

`Restoring` is the proof that checkpoints keep the invariant, and `Runs`, `Electing` and `Committing` are
the pieces of which the two runs are made.

**The write pipeline** (`WritePipeline`, `Transfer`). One replica and its disk as classes, with compaction,
checkpoints and restarts: incremental writes against the whole state they stand for, and how one replica
comes by the log of another.

**Sessions** (`Sessions`, `Ordering`, `ClientTable`). The simulator's reference model of a log, the logs
primaries build, and the client table with its lazy list of sessions to evict, as a class that refines
the reference model, with the copy of the table that its state machine keeps, flushes and hands out.
`Tables` says of the log what the reference model makes of it.

**The client** (`Client`), and that no reply is lost to it (`Replies`), **the journal** (`Journal`,
`JournalText`), alone and as the disk of a replica, **the text protocol** (`Text`, `Codec`, `Tokens`) and
**checkpoint transfer**, chunk by chunk (`Checkpoints`).

State machines are opaque: a replica's state is the sequence of entries it executed, and a result stands
for the ops executed up to it.

## Model

| member | source | states |
|---|---|---|
| `Agreement.Agreement` | lib.rs:2336-2431 | in every run of a sound cluster, with crashes, overlapping writes and restored checkpoints, any two replicas that have both committed an op, each at any time, hold the same entry at it |
| `Agreement.CommittedIsCompleted` | simulator/properties.rs:626-664 | what any replica has committed at any time is a prefix of one log, which only grows |
| `Agreement.StatesAgree` | simulator/properties.rs:537-610 | any two state machines at any two times executed sequences one of which starts the other |
| `Agreement.AssertionsHold` | lib.rs:3395-3404 | none of the code's assertions on logs and commit numbers fails in a reachable state |
| `Agreement.ViewChangeLosesNothing` | lib.rs:2961-3009 | every view started from a quorum of reports; the log chosen ranks highest, holds every op a quorum acknowledged in any earlier view, and no reported commit number passes its end, unless a replica strayed and a later view had chosen something |
| `Agreement.ExecutedIsDurable` | simulator/properties.rs:170-213 | every executed op is flushed, or on disk with and without the write that is out, as memory holds it |
| `Agreement.CommittedIsDurable` | simulator/properties.rs:112-168 | everything committed is on the disks of a quorum |
| `Agreement.DurablePromise` | simulator/properties.rs:215-329 | every message released by a write that lands is backed by the disk or by a later view on it, whatever happened while the write was out |
| `Serving.EveryRunGoesOn` | lib.rs:2336-3057 | no reachable state is a dead end: however a run has gone, the replicas of any quorum, led by any one of them, can go on without the others until all of them have committed and executed an entry that a client asks for, after all that had completed |
| `Serving.NormalCourse` | lib.rs:2336-2434 | for every number of replicas, a run without view change or state transfer in which an entry is prepared by all, committed and executed by the primary, and by the others with the next `Prepare` |
| `Reviving.Assembles` | lib.rs:2799-3057 | however a run has gone, the replicas of any quorum can start a view together that any one of them leads |
| `Healing.CatchesUp` | lib.rs:2436-2659 | however a run has gone, a replica that leads a view and any other not past it can go on, the two alone, to hold the same log in it, by the next `Prepare`, a state transfer or by catching up with the view |
| `Counting.QuorumCommits` | lib.rs:2397-2415 | in every reachable state the one that leads a view has committed every op that a quorum, as far as it has heard, acknowledged |
| `Duties.PrepareTaken` | lib.rs:2336-2366 | in every reachable state: a backup normal in the view of a `Prepare` it has a place for then has the entry at its op, unless it had committed that op, has acknowledged its log, and has committed and executed what it may |
| `Duties.CommitTaken` | lib.rs:2422-2434 | one that has the ops commits them |
| `Duties.LaterViewJoined` | lib.rs:2436-2463 | one that hears from the primary of a view it has not entered catches up with it |
| `Duties.StateGiven` | lib.rs:2467-2491 | a replica whose log is settled sends all of it after the op asked for |
| `Duties.StateTaken` | lib.rs:2551-2659 | a segment that joins on is taken to its end, entered with and acknowledged |
| `Duties.CheckpointTaken` | lib.rs:2747-2787 | a restored checkpoint is the state, durable, and the entries after it follow |
| `Duties.AnnouncedTaken` | lib.rs:2843-2865 | an announced view is entered with its log, and acknowledged |
| `Duties.VoteCounted` | lib.rs:2799-2815 | a vote is joined and counted, and with enough of them the replica has reported what it holds |
| `Duties.ReportCounted` | lib.rs:2819-2836 | a report is counted, and with a quorum of them the view is started and announced |
| `Duties.AsksAgain` | lib.rs:3219-3301 | what went unanswered goes again, whatever the replica waits for |
| `Duties.ComesBack` | lib.rs:1536-1601 | after a crash a replica has its disk's view, log and commit number but for what its state machine has beyond them, has executed what is committed, and changes views where it must |
| `Linearizability.Linearizable` | lib.rs:2209-2242 | every answered query read a state that starts with all that had completed in any view when that very query arrived at the replica, and that had completed by the answer |
| `Linearizability.DeposedNeverAnswers` | lib.rs:2256-2329 | if a quorum had left the view when a query arrived, its round is never confirmed |
| `Answering.Conserved` | lib.rs:2220-2242 | in any stretch of any run in which a replica leads one view, the queries it answered and those that wait at the end are, one for one and in order, those that waited at the start and those it took |
| `Answering.StepConserves` | lib.rs:2311-2329 | each step answers queries from the front, each with its own id and floor and from the state as it is then, and the rest go on waiting |
| `Asking.EveryQueryAnswered` | lib.rs:2209-2329 | however a run has gone, the replicas of any quorum can go on without the others so that a query to any one of them is answered, from a state that holds all that had completed |
| `Ungated.GateIsNeeded` | lib.rs:3480-3507 | without the gate, for every number of replicas, a run in which one of them crashes commits two entries at one op |
| `EarlyRestore.RestoreBreaksAgreement` | lib.rs:2765-2787 | without the guard, for every number of replicas from five on and gated or not, a run commits two entries at one op, after a crash between a restored checkpoint and its write |
| `Deciding.Decides` | lib.rs:16-29 | for every number of replicas: they agree in every run if and only if they never crash, or keep to the gate and either to the guard or to no more than four |
| `Restoring.RestoreKeeps` | lib.rs:2747-2787 | a checkpoint restored and the entries that follow it keep the invariant of a replica, in a state transfer or as it catches up with a view |
| `Restoring.CertainOnDisk` | lib.rs:2769-2787 | what a restored checkpoint holds is still committed in the view that a crash goes back to, by the guard or because the replica fell behind alone |
| `Restoring.AllPast` | lib.rs:2961-2967 | with up to four replicas, one that is short of a view that chose something is the only one |
| `ExactlyOnce.LogsGood` | lib.rs:2122-2207 | when primaries append by their client tables, what every replica of a sound cluster has committed in any state of any run executes requests in turn, and so does its whole log if its last normal view started in time and covers that |
| `ExactlyOnce.CommittedOnce` | simulator/properties.rs:666-698 | no two ops of what the cluster committed execute the same request |
| `ExactlyOnce.StartsWithBest` | lib.rs:2968-2983 | a view that starts before any later one chose something starts with exactly the log it chose: what its primary had committed is in it |
| `Safety.ChosenInTime` | lib.rs:2961-2967 | every view that chooses something starts before any later one does |
| `QueryRounds.RoundsHold` | lib.rs:2209-2329 | in every run at most 32 rounds are out, queries wait in the order of rounds and of ops, one is parked only while all 32 are out, and none that is ready waits |
| `Quorums.QuorumsMeet` | lib.rs:261-263 | any two quorums share a replica |
| `Quorums.QuorumMark` | lib.rs:2404-2414 | the watermark committed is one that a quorum reaches, and no lower than any other such |
| `Quorums.QuorumMarkIsHighest` | lib.rs:2404-2414 | fewer than a quorum reach anything above it |
| `Protocol.Best` | lib.rs:2968-2974 | the report chosen is one of those made and ranks at least as high as each |
| `Protocol.MaxCommit` | lib.rs:2988-2993 | the commit number taken is the greatest reported |
| `Safety.ChosenKept` | lib.rs:2961-2967 | what a quorum acknowledged in a view starts the log of every later view |
| `Safety.SomeReportKeeps` | lib.rs:2961-2967 | among the reports of a later view one keeps what a quorum acknowledged |
| `Safety.BornBefore` | lib.rs:2961-2967 | a view that chose something started before every later view did |
| `Safety.ChosenAgree` | lib.rs:3388-3394 | any two views that chose an op chose the same entry, in whichever order they started |
| `Running.RunOk` | simulator/disk.rs:113-196 | every state of every run satisfies the invariant, and what completed only grows |
| `Running.StepKeeps` | simulator/disk.rs:113-196 | so does every step: input, early send, write taken or landed, flush, checkpoint restored, crash |
| `Handlers.PrepareKeeps` | lib.rs:2336-2366 | a `Prepare`, whatever its view or gap, keeps the replica's invariant, and its acknowledgement with it |
| `Handlers.CommitKeeps` | lib.rs:2422-2434 | a `Commit` keeps it |
| `Handlers.GetStateKeeps` | lib.rs:2467-2491 | what answers a `GetState` is a stretch of the view's log |
| `Handlers.NewStateKeeps` | lib.rs:2551-2617 | a `NewState`, in the view or to catch up with one, keeps what was committed and joins the view's log |
| `Handlers.StartViewKeeps` | lib.rs:2843-2865 | so does a `StartView` |
| `Handlers.TimeoutKeeps` | lib.rs:2868-2889 | a view change started on a timer keeps the invariant |
| `Handlers.IdlePrimaryKeeps` | lib.rs:3222-3252 | what an idle primary sends again is so |
| `Leading.RequestKeeps` | lib.rs:2199-2207 | an appended entry is the next of the view's log, and its `Prepare` says so |
| `Leading.RegisterAckKeeps` | lib.rs:2397-2415 | what acknowledgements commit was acknowledged by a quorum and extends everything committed |
| `Leading.CommittedExtends` | lib.rs:2397-2415 | what a quorum acknowledged extends what any replica committed before |
| `Starting.TryStartKeeps` | lib.rs:2968-3009 | a view started from a quorum of reports keeps the invariant of the cluster |
| `Starting.MaxCommitWithin` | lib.rs:2988-3000 | the greatest reported commit number is within the new log, and was chosen before |
| `Changing.StartViewChangeKeeps` | lib.rs:2799-2815 | a vote, whether it moves the replica, makes it report or starts the view, keeps the invariant |
| `Changing.DoViewChangeKeeps` | lib.rs:2819-2836 | so does a report |
| `Changing.SendReportKeeps` | lib.rs:2925-2950 | a replica's report keeps every acknowledgement it has given |
| `Changing.MaybeSendReportKeeps` | lib.rs:2908-2921 | it reports once enough others want the view |
| `Changing.RecordReportKeeps` | lib.rs:2954-2960 | a report counted keeps the invariant |
| `Changing.IdleViewChangeKeeps` | lib.rs:3276-3301 | so do view change messages sent again |
| `Reads.QueryKeeps` | lib.rs:2220-2242 | a query waits for ops that hold all that completed, or for a round that a quorum past the view does not confirm |
| `Reads.FloorOk` | lib.rs:2209-2219 | the ops a query waits for cover what had completed, or a quorum is past the view |
| `Reads.ConfirmViewKeeps` | lib.rs:2259-2268 | a confirmation is given by a replica whose disk is not past the view |
| `Reads.ConfirmViewOkKeeps` | lib.rs:2273-2304 | rounds counted, started and done keep the invariant |
| `Steps.QueryReads` | lib.rs:2311-2329 | a query that may go reads all that had completed when it arrived |
| `Steps.ExecuteQueriesOk` | lib.rs:2311-2329 | answering queries keeps the invariant and touches nothing else |
| `Steps.ApplyCommittedOk` | lib.rs:1753-1772 | so does executing what is committed and durable |
| `Steps.CommitUpToOk` | lib.rs:3410-3426 | and committing what was chosen |
| `Steps.StateCompleted` | lib.rs:1753-1772 | what a replica executed starts what the cluster completed |
| `Entering.InstallOk` | lib.rs:2640-2659 | installing a later view's log keeps what was committed and executed |
| `Entering.BeginViewChangeOk` | lib.rs:2868-2905 | leaving a view forgets its view change and its queries, and keeps its acknowledgements |
| `Writing.TakeKeeps` | lib.rs:1654-1697 | taking a write keeps the invariant |
| `Writing.DrainKeeps` | lib.rs:3602-3608 | so do messages that leave before it |
| `Landing.LandKeeps` | lib.rs:1705-1728 | and a write that lands, with the acknowledgement it counts and what it lets execute |
| `Crashing.CrashKeeps` | lib.rs:1536-1601 | and a crash and restart from the disk, with the write landed or not |
| `WritePipeline.PersistentState.Apply` | lib.rs:477-497 | brings a copy up to date in place |
| `WritePipeline.WriteRefinesSnapshot` | lib.rs:1654-1697 | the write's range assertion holds, and applying it to the disk gives the whole state as it was taken |
| `WritePipeline.SkipLosesCommitOnly` | lib.rs:1664-1671 | a write that needs no sync changes nothing on disk but the commit number |
| `WritePipeline.ExecuteNext` | lib.rs:1749-1772 | an op executes only when the disk holds it with and without the write that is out |
| `WritePipeline.RebuiltCommitted` | lib.rs:1560-1582 | a restart takes nothing for committed that was not, and loses nothing the disk has as committed |
| `WritePipeline.ResumesItsLog` | lib.rs:1510-1535 | a restart ends where the disk's log did if and only if the state machine's flush does not pass it |
| `WritePipeline.RestoreThenCrash` | lib.rs:2769-2787 | after a checkpoint restored and a crash before its write, it does pass it |
| `WritePipeline.CheckpointCovers` | lib.rs:2495-2508 | a checkpoint and the entries sent after it make up what is committed |
| `WritePipeline.Node.AppendToLog` | lib.rs:3380-3386 | appends, with what is committed and durable as it was |
| `WritePipeline.Node.MergeLog` | lib.rs:3395-3404 | replaces the uncommitted entries only |
| `WritePipeline.Node.Compact` | lib.rs:1737-1747 | drops entries that are flushed and no kept checkpoint needs |
| `WritePipeline.Node.RestoreCheckpoint` | lib.rs:2769-2787 | starts over from a checkpoint, durable with the state machine, of ops that completed, as those committed here did |
| `WritePipeline.Node.ApplyCommitted` | lib.rs:1753-1772 | executes what is committed and durable, in order |
| `WritePipeline.Node.CommitUpTo` | lib.rs:3410-3426 | commits, and executes what the disk holds |
| `WritePipeline.Node.TakeWrite` | lib.rs:1654-1697 | the write taken carries exactly what changed, asks for a sync exactly if more than the commit number did, is one that `apply` takes and the journal accepts, and turns the disk into memory as it is |
| `WritePipeline.Node.Land` | simulator/disk.rs:176-184 | the disk is the state as the write was taken, but for a commit number if the owner skipped a write without sync, and what is committed of what has not changed since executes |
| `WritePipeline.Node.Flush` | simulator/disk.rs:198-202 | the state machine holds all it executed |
| `WritePipeline.Node.CrashAndRestart` | lib.rs:1536-1601 | the replica comes back in its disk's view, never before that of a write that landed, with the disk's log and commit number but for what the state machine has beyond them, its committed ops a prefix of those before |
| `WritePipeline.Node.SegmentFrom` | lib.rs:2495-2526 | what is served joins on without a gap, after the op asked for or after a checkpoint between the log's start and what executed |
| `Transfer.CatchUp` | lib.rs:2495-2526 | a replica that asks another for the log after an op, and installs the segment or the checkpoint and the entries after it, has the log of the other and its committed ops, unless it has more committed by then |
| `Transfer.Resume` | lib.rs:2747-2787 | a checkpoint restored and the entries after it, merged and committed, are the log and the committed ops of the replica that sent them as it sent them |
| `Transfer.InstallFromCommit` | lib.rs:2640-2659 | so are the entries of a segment that starts within what is committed, over the replica's own |
| `Sessions.FoldOk` | simulator/properties.rs:460-535 | every log leaves a table within its limit, whose records keep the results of their last requests, in order |
| `Sessions.ExecuteOk` | simulator/properties.rs:480-507 | a request executes under an id that has no result yet |
| `Tables.RegisterAdmits` | lib.rs:1838-1903 | a registration leaves every other session as it is while there is room, and otherwise ends exactly one, the one whose latest entry executed earliest |
| `Tables.NoneEvicted` | simulator/properties.rs:512-534 | a log in which no more clients register than there is room for leaves each of them the session of its first registration, and no other |
| `Tables.LatestOp` | simulator/properties.rs:480-534 | a record has the op of its session's latest entry, by which sessions are evicted |
| `Tables.RunsRequests` | lib.rs:1773-1836 | the state machine runs exactly the requests that execute, each with the result of the ops up to it, and keeps no more results than the client may want |
| `Tables.AcceptsNext` | lib.rs:2176-2196 | what a primary takes by its table and its last entries is exactly the next request, by the whole log, of a session open where it has executed up to, within the window |
| `Ordering.NumberIsCount` | lib.rs:1803-1808 | a session's request number counts the requests of it that executed |
| `Ordering.ExecutesInTurn` | lib.rs:1773-1836 | a request executes as its session's next one, with a result it had not had |
| `Ordering.ExecutesOnce` | simulator/properties.rs:666-698 | requests of a session execute with increasing numbers |
| `Ordering.AppendRequestGood` | lib.rs:2125-2196 | what a primary appends keeps the log in order, however far behind it is in execution |
| `Ordering.AppendRegisterGood` | lib.rs:2101-2120 | so does a registration |
| `Ordering.PrefixGood` | lib.rs:3395-3404 | a log cut short stays in order |
| `Ordering.PendingNext` | lib.rs:1790-1793 | executing an entry clears what is pending exactly if that is the entry, so `pending` stays the client's last entry after `applied` |
| `Ordering.ReplyRetained` | lib.rs:2158-2172 | a request executed in a live session and still in flight at its client has its result at the index a re-send computes, whichever copies were appended |
| `Replies.Answerable` | lib.rs:947-983 | a request that a client still waits for, of the session it has, is answered with its own result when it is sent again: by what the client keeps of all it sends and the table of what executed |
| `ClientTable.FrontIsLeast` | lib.rs:1879-1903 | the first candidate that is current is the least of the whole table, whatever else is listed |
| `ClientTable.FindLeast` | lib.rs:1909-1924 | the session whose latest entry executed earliest |
| `ClientTable.FindCandidates` | lib.rs:1905-1924 | a sixteenth of the sessions and at least one, oldest first, no other older |
| `ClientTable.Server.Evict` | lib.rs:1877-1903 | evicts the session the reference model evicts, and its loop ends |
| `ClientTable.Server.Execute` | lib.rs:1773-1836 | table, state machine and pending entries are those of the log up to the op executed, and the reply carries the result the model has |
| `ClientTable.Server.Register` | lib.rs:1838-1875 | a registration ends a session only if there is no room, then the oldest and no other, and leaves the table the model has |
| `ClientTable.Server.Request` | lib.rs:1776-1836 | a request executes only in its session, as the next one |
| `ClientTable.Server.AppendToLog` | lib.rs:3380-3386 | keeps what is pending up to date |
| `ClientTable.Server.ReplaceLog` | lib.rs:3395-3404 | so does replacing the log after what executed |
| `ClientTable.Server.RebuildPending` | lib.rs:1926-1937 | rebuilds exactly each client's last entry after `applied` |
| `ClientTable.Server.Restart` | lib.rs:1536-1617 | a replica rebuilt from its disk's log and what its state machine flushed, whatever records were handed to that, has the table, state and pending entries of the log up to what it executed, and the same table as before the crash if that is the same |
| `ClientTable.Server.Restore` | lib.rs:2769-2787 | so has one that restores the checkpoint another keeps, with the entries that come with it |
| `ClientTable.Server.KeepCheckpoint` | lib.rs:2513-2524 | the checkpoint kept is the state machine as of an op executed, and stays while it is kept |
| `ClientTable.Server.OnRegister` | lib.rs:2098-2120 | answers if and only if the client has a session, with it, and appends a registration if and only if it has none and its last entry is not one |
| `ClientTable.Server.OnRequest` | lib.rs:2125-2196 | appends if and only if the request is its session's next, answers a re-send with its own result, says evicted if and only if the session is gone, and says nothing else |
| `Client.Answer` | lib.rs:1142-1157 | takes a reply if and only if it is awaited, and keeps what is in flight contiguous |
| `Client.Client.OnRequest` | lib.rs:875-890 | a request is queued behind earlier operations, or the only one, which may go, is sent to the primary, in issue order |
| `Client.Client.OnQuery` | lib.rs:894-904 | so does a query |
| `Client.Client.SendQueued` | lib.rs:916-945 | what is left of the queue may not go |
| `Client.Client.SendRequest` | lib.rs:963-983 | exactly one message goes out, to the primary, with the session, the next number, how far the replies have come and the op, within the window and after all issued before it |
| `Client.Client.SendQuery` | lib.rs:985-999 | exactly one goes out, to the primary, with the next number and the query, while no request is in flight |
| `Client.Client.Register` | lib.rs:906-914 | one message asks for a session if there is none and none is awaited, and nothing is sent otherwise |
| `Client.Client.OnRegistered` | lib.rs:1011-1018 | a session is taken only while one is awaited, and only one later than any evicted |
| `Client.Client.OnExecuted` | lib.rs:1019-1030 | a request completes if and only if it was sent in this session and has not completed |
| `Client.Client.OnQueried` | lib.rs:1031-1040 | so does a query, whose numbers outlive sessions |
| `Client.Client.OnEvicted` | lib.rs:1041-1055 | everything outstanding is dropped, and nothing late completes it |
| `Client.Client.OnReply` | lib.rs:1005-1058 | each request and each query completes at most once, exactly when its reply first comes, a session is taken only if awaited, and the client learns the view |
| `Client.Client.OnIdle` | lib.rs:1060-1104 | exactly what went a whole period without a reply, the registration, then requests, then queries, goes to every replica, with how far the replies have come |
| `Client.Client.WaitsForReason` | lib.rs:916-961 | what is queued waits for a session that was asked for, for operations of the other kind, or for room in the window |
| `Journal.ReplayHolds` | examples/kvstore/journal.rs:187-222 | replaying every write gives the log that applying every write gives |
| `Journal.TrimmedReplays` | examples/kvstore/journal.rs:352-374 | what is left after trimming replays to the same, if every retained entry is in a file that stays |
| `Journal.ReindexedOk` | examples/kvstore/journal.rs:330-351 | the run index names the file of every retained entry, after replacements and compactions |
| `Journal.Journal.Append` | examples/kvstore/journal.rs:282-287 | a write is recorded, and the journal stands for the state all writes come to |
| `Journal.Journal.StartTrim` | examples/kvstore/journal.rs:352-374 | the files before the oldest that a retained entry is in, or the last one if there is none, are to be deleted, if some were not and no deletion is out |
| `Journal.Journal.Open` | examples/kvstore/journal.rs:164-255 | replaying the files left gives the state all writes came to, and rebuilds the index |
| `Journal.Persist` | lib.rs:1632-1645 | the replica's writes appended one by one, those without sync or not, the journal stands for what the replica's disk holds |
| `Journal.CrashAndOpen` | examples/kvstore/journal.rs:164-255 | after a crash with the record under way in it or not, the journal replays to the state whose fields and entries the replica comes back with |
| `JournalText.DecodeEncodeWrite` | examples/kvstore/journal.rs:257-318 | a record reads back as the write it holds |
| `JournalText.Submit` | examples/kvstore/journal.rs:295-318 | writes the record |
| `Text.PushNumber` | examples/kvstore/journal.rs:44-57 | prints every 64-bit number in decimal, within 20 digits |
| `Text.ParseDecimal` | examples/kvstore/journal.rs:157-161 | parsing recovers what was printed |
| `Text.WordsOfJoin` | examples/kvstore/node.rs:127-143 | splitting what was joined gives the words back |
| `Codec.DecodeEncodeIff` | examples/kvstore/main.rs:77-412 | a frame decodes to itself if and only if its strings are single words and its lists within the limit |
| `Codec.DecodeEncodeEntryIff` | examples/kvstore/node.rs:75-104 | a log entry does if and only if its key and value are nonempty single words |
| `Codec.ChunkBack` | examples/kvstore/main.rs:57-67 | a checkpoint chunk reads back, with its client records |
| `Codec.SegmentBack` | examples/kvstore/main.rs:69-75 | so does a log segment |
| `Codec.RecordBack` | examples/kvstore/node.rs:565-579 | and a client record with its results |
| `Tokens.WriteEntry` | examples/kvstore/node.rs:73-97 | appends an entry's text |
| `Tokens.EncodeEntries` | examples/kvstore/node.rs:111-118 | and a list of them |
| `Tokens.EncodeClient` | examples/kvstore/node.rs:565-579 | and a client record's |
| `Tokens.EncodeChunk` | examples/kvstore/main.rs:57-67 | and a chunk's |
| `Tokens.Cursor.Entries` | examples/kvstore/node.rs:192-199 | the cursor reads entries as the encoding says, and fails as it does |
| `Tokens.Cursor.Client` | examples/kvstore/node.rs:173-190 | and client records |
| `Tokens.Cursor.Chunk` | examples/kvstore/main.rs:240-253 | and chunks |
| `Tokens.Cursor.Segment` | examples/kvstore/main.rs:263-271 | and segments |
| `Tokens.ReadEntry` | examples/kvstore/node.rs:99-104 | and an entry that is all there is |
| `Checkpoints.PartsAreAll` | simulator/state_machine.rs:157-173 | the parts of a checkpoint make up the whole |
| `Checkpoints.Accumulator.ApplyOp` | simulator/state_machine.rs:113-122 | executes an op and leaves a kept checkpoint as it is |
| `Checkpoints.Accumulator.RecordClient` | simulator/state_machine.rs:128-140 | records a client and leaves a kept checkpoint as it is |
| `Checkpoints.Accumulator.Checkpoint` | simulator/state_machine.rs:146-155 | keeps the state as it is |
| `Checkpoints.Accumulator.CheckpointChunk` | simulator/state_machine.rs:157-173 | a chunk of the checkpoint kept, whatever was applied since |
| `Checkpoints.Accumulator.Restore` | simulator/state_machine.rs:187-205 | all chunks staged in order restore exactly the state they were taken from |
| `Checkpoints.Fetcher.StartFetch` | lib.rs:2661-2694 | a fetch of the same checkpoint goes on, asked for again only if it stalled, one of a later checkpoint is left alone unless it stalled, and any other starts over with chunk 0 |
| `Checkpoints.Fetcher.OnIdle` | lib.rs:3318-3344 | a fetch asks for its chunk again after a whole period without it, and stalls after twice the timeout |
| `Checkpoints.Fetcher.OnNewChunk` | lib.rs:2710-2763 | only the chunk awaited counts, and the next is asked for; after the last, and only if that is past what is committed, the state is the checkpoint of the replica it came from, whole, which is what that replica's log up to it comes to, and in the view of the message the log is that replica's after it |

## Left out

- Compaction in the cluster runs: logs are whole there, a checkpoint is its ops, and so a primary never fetches the compacted part of the log it chose; compaction is in `WritePipeline`, transfer in `Transfer` and `Checkpoints`.
- Agreement.ViewChangeLosesNothing: the bound on reported commit numbers is not claimed of a view that a replica which strayed starts once a later one has chosen something; nothing is chosen in it.
- ExactlyOnce.LogsGood: of a replica that a crash took back behind a restored checkpoint only what is committed is claimed to be in order; the rest of its log is an earlier view's, and need not go on from it.
- Agreement.DurablePromise: recovery messages are not part of the model, so the clauses about them are not either; and entries before the commit number in memory are not compared, as `holds_uncommitted` does not compare them.
- Agreement.CommittedIsDurable: no disk is lost in the model, so all replicas take part.
- WritePipeline.Node.RestoreCheckpoint: that both sides committed ops of one history is a precondition, here and in Transfer.CatchUp; it is what Agreement.CommittedIsCompleted proves of the cluster.
- WritePipeline.Node.Compact: that the state machine has flushed up to the op is a precondition, as the library demands of its owner.
- Checkpoints.Fetcher.OnNewChunk: that a replica sends the chunks of what it keeps, and cuts a checkpoint kept again at the same op the same way, is a precondition, as the state machine's contract says; fetches named by a recovery response are not modelled.
- ClientTable.Server.Restart: a replica that restarts executes what is committed after it rebuilds what is pending, where the code does so before; the outcome is the same.
- Disk-loss recovery and its nonces: a replica is never without its disk; only the `recovering` mark on disk is modelled, in `WritePipeline`.
- Timers, backoff and liveness: idle periods are arbitrary re-sends and view change starts, and nothing is said about progress.
- `catch_up` of the simulator's state machine, and state machines that flush part of what they executed on a process crash.
- The simulator's random network, workload and scheduling, and its terminal interface: any order of steps is a run.
- The key-value store itself, its threads and sockets, and the write-ahead log library: a record is taken to be durable whole, in files that are never older than the last.
- 64-bit overflow of counters other than in the text encoding, where numbers are below 2^64.
