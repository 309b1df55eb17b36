# A model of CURP over a Raft log

xraft runs the CURP protocol on top of a Raft log. A client sends a command to every server. Each server's *witness*
records the command if it conflicts with nothing recorded so far. The *leader* also executes the command at once,
before it is committed, and hands it to raft. The client is done after one round when a super-quorum of servers
accepted; otherwise it waits until the leader has taken the command from the committed log.

This project models that core and proves what it guarantees over every run. `dafny verify dfyconfig.toml` checks the
whole project.

| file | content |
|---|---|
| Commands.dfy | commands, the conflict test, execution on the store |
| Traces.dfy | schedules of commands: replay, trace equivalence, batches, re-execution |
| MemStore.dfy | the map store, and rollback through old values |
| Witness.dfy | the witness |
| Board.dfy | the command board: its critical sections, its waiters, and every interleaving of both |
| Client.dfy | super-quorum, vote loop, Propose, proposal ids |
| Delivery.dfy | committed entries: skipping, publication, the commit reader |
| Replica.dfy | the state machine object: proposal path and command worker |
| Worker.dfy | what the worker leaves on the board, and when it is stuck |
| Pipeline.dfy | delivery, commit reader and worker in a row |
| Node.dfy | one server as a state machine, with its local invariants |
| Cluster.dfy | n servers, the log, the pools of pending sends and the clients as one step relation, with its invariant |
| Guarantees.dfy | the theorems over runs of the cluster |
| Contents.dfy | what a client is told, in every run and without any assumption on the order of turns |
| Sequential.dfy | one sequential order in every run whose repeated executions are undisturbed |
| Progress.dfy | every run can be drained, and with both hypotheses all servers then agree |
| Completion.dfy | which operations can still return, and which are stranded for good |
| FastPath.dfy | when an operation returns after one round, and that it needs no commit |
| Reachable.dfy | runs with a late proposal, a client told that nothing was found, and a client that waits for good |
| Divergence.dfy | runs whose stores stay different, and one whose answers fit no order |

## How the system is represented

- Objects that the program updates in place (`Witness`, `CommandBoard`, `MemStore`, `StateMachine`, `CurpNode`,
  `GrpcClient`) are classes; each method is proved against a function on values. The same functions (`Record`,
  `Insert`, `Notify`, `FastTaken`, `SlowTaken`, `RecordRemoved`, ...) are the steps of the node and cluster machines,
  so the theorems about runs are about what the methods do.
- A section under a lock is one step. `WaitForEr` and `WaitForAsr` release the lock in mid-call; each call is a waiter
  with explicit phases. A send to a full capacity-one channel under the lock is a false `sent`, after which the worker is stuck.
- The goroutines that send to `fastPath` and `proposeC` are unordered multisets: any pending send may go next.
- A slow turn is two steps, execute-and-notify and then `removeRecord`, so that proposals may fall between them.
- A nil leader slot at the super-quorum exit makes the client dereference nil; that operation is `Failed`.

What runs assume of the environment is part of the step relation: one log, each proposal appended at most once, servers
apply prefixes of it, one stable leader, unique ids, a command reaches each server once, and one `WaitSynced` call per
operation. Two conditions that the code relies on and does not enforce are named predicates on runs:

- `FastBeforeSlow`: at the leader a command's fast turn comes before its slow turn. The worker's `select` picks freely
  and `removeRecord` clears the de-duplication set, so the other order executes the command twice
  (`TwiceExactlyWhenSlowFirst`). Then the leader's store can differ from the log's with nothing left to do
  (`SlowFirstDivergenceHappens`), a client can be told that nothing was found (`ReturnedContent`, `NotFoundHappens`) or
  wait for good (`StrandedExactly`, `StrandedHappens`), and what clients are told can fit no order at all
  (`UnexplainedHappens`). `LinearizableWhenUndisturbed` gives a condition under which it still does.
- `LeaderAccepts`: the leader's witness reports no conflict. The leader queues a command whatever its witness says, so
  conflicting commands can be executed and logged in opposite orders (`ConflictDivergenceHappens`). Only the speculation
  and convergence theorems need it; `ConvergenceSameOrder` replaces it by an agreement of the two orders, and
  `StoresAgreeExactly` says with neither hypothesis when the stores agree.

Where the code differs from its own comments, the model follows the code:

- The super-quorum comment says f + f/2 + 1; the code rounds f/2 up (curp/client_grpc.go:104-107).
- The branch marked UNREACHABLE in `WaitForAsr` is taken by a call that is woken when nothing has been inserted for its
  id by the time it takes the lock again (`NotFoundExactly`); `NotifyOnlyFindsNothing` is a run of the board that gets
  there (curp/command/cmd_board.go:102-107).
- Idempotent commands are said to make double execution harmless (curp/state.go:335-337); `ReexecutionExactly` gives
  the exact condition, and a newer write to the key breaks it; `UnexplainedHappens` is a run in which clients see it.
- A record is said to be removed safely once its command is committed (curp/state.go:253-254). At a follower the
  proposal can arrive after that; its record then stays for good and refuses every conflicting proposal
  (`StaleExactlyWhenLate`, `LateProposalBlocksItsKey`), and `LateProposalHappens` gives such runs.
- A `WaitForEr` call that starts after the clean-up of a completed `WaitForAsr` blocks for good
  (`ErStuckExactlyWhenLate`, `SyncFirstLosesTheResult`).

## Model

| member | source | states |
|---|---|---|
| Commands.NoConflictCommutes | curp/curp_proto/command_extend.go:41-52 | commands the test passes give the same store and the same two results in either order, from every store |
| Commands.CommuteExactly | curp/curp_proto/command_extend.go:41-52 | two commands commute on all stores if and only if the test passes them or the pair is one of four harmless kinds |
| Commands.HarmfulPairDistinguished | curp/curp_proto/command_extend.go:41-52 | every other rejected pair is told apart by some store |
| Commands.ConflictBatch | curp/curp_proto/command_extend.go:54-63 | the nested loop answers true if and only if some cross pair conflicts |
| Traces.MovePast | curp/state.go:295-313 | a command moves past any schedule free of conflicts with it, with the same store and result |
| Traces.TraceEquivalence | curp/state.go:295-313 | two schedules of the same commands that order every conflicting pair alike give the same store and the same result for each command |
| Traces.BatchesCommute | curp/curp_proto/command_extend.go:54-63 | two batches with no cross conflict give the same store and per-command results as blocks in either order |
| Traces.ReplayAtKey | curp/state.go:295-328 | the store after any schedule, read at one key, is the effect of the last write to that key |
| Traces.ReadReturnsLastWrite | curp/state.go:295-313 | a read returns what the last write to its key before it left, or what the initial store held, and the not-found text if neither; other commands return nothing |
| Traces.AsyncReturnsLastWrite | curp/state.go:315-328 | executeAsync after any schedule returns the same, with the empty string for a missing key |
| Traces.SameStoreExactly | curp/state.go:295-328 | any two schedules give the same store if and only if, at every key, their last writes leave the same |
| Traces.ReexecutionExactly | curp/state.go:335-340 | executing a command again after any schedule changes nothing if and only if the last write to its key in between, if any, had the same effect |
| Traces.SafeReexecution | curp/state.go:315-341 | executing a command again is harmless after any schedule it does not conflict with |
| Traces.RepetitionsAreHarmless | curp/state.go:335-340 | in a schedule with repetitions, if nothing that conflicts with a command runs between two executions of it, keeping only the last execution of each command gives the same store, and every result of every execution is its command's result there |
| Witness.RecordKeepsCommuting | curp/witness/witness.go:20-36 | recording keeps the records pairwise free of conflicts |
| Witness.Witness.HasConflictWith | curp/witness/witness.go:44-51 | the loop answers true if and only if some record conflicts with the command |
| Witness.Witness.InsertIfNotConflict | curp/witness/witness.go:20-36 | reports exactly whether a record conflicts; records the command under its id exactly when none does; records stay commuting |
| Witness.Witness.Remove | curp/witness/witness.go:38-42 | deletes that id's record and no other; records stay commuting |
| MemStore.MemStore.Get | kv/mem_kv.go:22-31 | the value and success for a present key, the empty string and failure for a missing one |
| MemStore.MemStore.Put | kv/mem_kv.go:33-38 | sets one key and keeps all others |
| MemStore.MemStore.Delete | kv/mem_kv.go:40-45 | removes one key and keeps all others |
| MemStore.MemStore.PutWithOldValue | kv/mem_kv.go:47-57 | the put as an undoable change, with the old value and whether there was one |
| MemStore.MemStore.RollbackPutWithOldValue | kv/mem_kv.go:59-68 | the undo of a put, whatever value it wrote; an empty old value deletes the key |
| MemStore.MemStore.DeleteWithOldValue | kv/mem_kv.go:77-87 | the delete as an undoable change; it deletes even when it reports a missing key |
| MemStore.MemStore.RollbackDeleteWithOldValue | kv/mem_kv.go:70-75 | the undo of a delete |
| MemStore.MemStore.Destroy | kv/mem_kv.go:88-90 | leaves an empty store |
| MemStore.DoneAtKey | kv/mem_kv.go:47-87 | after any changes, a key holds what the last change of it put, or is absent if that was a delete; a key that no change names keeps its value |
| MemStore.RolledBackAtKey | kv/mem_kv.go:47-87 | after any changes and their rollbacks in reverse, each key holds what undoing only its first change would give |
| MemStore.UndoLogRestoresExactly | kv/mem_kv.go:47-87 | rollback in reverse order restores the store if and only if the first change of every key is a put not over an empty value or a delete of a present key |
| MemStore.UndoLogRestores | kv/mem_kv.go:47-87 | with no empty value in the initial store and every delete successful, rollback restores the store, empty values put meanwhile included |
| MemStore.EmptyValueIsLost | kv/mem_kv.go:59-68 | a put over a stored empty string is not undone |
| Board.CommandBoard.InsertEr | curp/command/cmd_board.go:28-33 | the whole new board, and that the send is stuck exactly when the channel is full |
| Board.CommandBoard.NotifyEr | curp/command/cmd_board.go:42-47 | sends exactly when the id has a channel with room, and touches nothing else |
| Board.CommandBoard.NotifyAsr | curp/command/cmd_board.go:49-57 | the whole new board, and that the send is stuck exactly when the channel is full |
| Board.CommandBoard.EnterWaitForEr | curp/command/cmd_board.go:59-77 | returns a buffered result and keeps it buffered, or makes sure of a channel and waits |
| Board.CommandBoard.EnterWaitForAsr | curp/command/cmd_board.go:80-101 | returns and forgets a result that is inserted and synced, or makes sure of a channel and waits with both buffers untouched |
| Board.CommandBoard.LeaveWaitForAsr | curp/command/cmd_board.go:102-107 | returns the buffered result or the not-found text, and forgets the id in both buffers |
| Board.SoundKept | curp/command/cmd_board.go:28-108 | every critical section keeps provenance of results, provenance of wake-ups and retention |
| Board.ProvenanceAndRetention | curp/command/cmd_board.go:28-108 | in every interleaving: a WaitForEr result was inserted for that id; WaitForAsr returns only after its id's notification; an inserted result stays buffered until a WaitForAsr call for the id has returned |
| Board.WorkerNeverBlocks | curp/command/cmd_board.go:42-57 | with at most one insertion and one notification per id, and any number of waiters, every send under the lock finds its channel empty |
| Board.NoLostWakeup | curp/command/cmd_board.go:80-108 | with insertion before notification and one WaitForAsr per id, a notified call is never left blocked and returns the inserted result |
| Board.NotFoundExactly | curp/command/cmd_board.go:102-107 | with one WaitForAsr per id, a woken call finds a result if and only if one was inserted for its id by then, and returns the not-found text otherwise: the branch marked unreachable |
| Board.NotifyOnlyFindsNothing | curp/command/cmd_board.go:102-107 | a disciplined run in which a call is woken, finishes, and returns the not-found text |
| Board.StuckExactlyWhenLate | curp/command/cmd_board.go:80-101 | in any order of insertion and notification, a blocked and notified call can go on if and only if it had not come after the notification |
| Board.NotifyFirstLosesTheWakeup | curp/command/cmd_board.go:80-101 | a run with notification, call and then insertion in which the call stays blocked |
| Board.ErStuckExactlyWhenLate | curp/command/cmd_board.go:59-77 | in any order of insertion and notification, with at most one of each and one WaitForEr call per id: a blocked WaitForEr call whose result is inserted can receive it if and only if the call had not come after both that insertion and the return of a WaitForAsr call for its id |
| Board.SyncFirstLosesTheResult | curp/command/cmd_board.go:86-87 | a disciplined run in which the clean-up of WaitForAsr leaves a later WaitForEr blocked |
| Board.BuffersExactly | curp/command/cmd_board.go:28-108 | with one insertion before one notification per id, an id's result or notification is buffered if and only if it happened and no WaitForAsr call for the id has returned |
| Board.SentIsKept | curp/command/cmd_board.go:42-77 | in every interleaving a value sent to a channel stays in it until a call receives it |
| Board.OneWakeupPerSend | curp/command/cmd_board.go:42-77 | with one insertion and one notification per id, once a call has received no other call of its kind for that id can |
| Client.SuperQuorumIsAllExactly | curp/client_grpc.go:104-107 | the super-quorum is all servers if and only if there are one or three, and never more than all |
| Client.SuperQuorumExactly | curp/client_grpc.go:104-107 | with 2f+1 servers, and with 2f+2, the super-quorum is three halves of f rounded up and one |
| Client.SuperQuorumIsLeast | curp/client_grpc.go:104-107 | with 2f+1 servers it is the least number of which any f+1 servers hold a majority |
| Client.FastRound | curp/client_grpc.go:177-221 | the vote loop: refused by the first non-accepting reply; a quorum only with that many distinct acceptances and with the leader's own slot; the count is the number of distinct servers that accepted |
| Client.OutcomeUnique | curp/client_grpc.go:177-221 | the replies in order of arrival determine the outcome |
| Client.LeaderVotesExactly | curp/client_grpc.go:209-214 | the super-quorum exit finds the leader's slot filled in every order of arrival if and only if there are one or three servers |
| Client.GrpcClient.Propose | curp/client_grpc.go:152-172 | a super-quorum of acceptances first ends it with the leader's content and counts a fast round, or crashes on an empty slot; a refusal first ends it with the sync's content and counts a slow round; otherwise it times out |
| Client.GrpcClient.GetProposeId | curp/client_grpc.go:95-102 | the next id in sequence: one more than the last, and 0 after the last 64-bit number |
| Client.TakeIds | curp/client_grpc.go:95-102 | any number of calls of one client: the j-th counts j on from the start, modulo 2^64, and two return equal ids if and only if a multiple of 2^64 calls lies between them |
| Delivery.SkipExactly | curp/raft.go:150-151 | the wrapping skip expression is the true distance except for index 0 against the last 64-bit index |
| Delivery.SliceIsCut | curp/raft.go:142-154 | a slice of the log is fatal if and only if it leaves a gap, and else is cut to exactly the entries not applied yet |
| Delivery.CurpNode.PublishEntries | curp/raft.go:158-207 | publishes one datum for each normal entry with data, in the order of the entries, as one commit with its own done channel, which it returns; hands every membership change it meets to raft and keeps the answer; tells the transport of added and removed peers; moves the applied index; fails exactly on removal of its own node or a stop with data to send, and then publishes nothing |
| Delivery.PayloadsExactly | curp/raft.go:166-172 | what is published of any entries is as long as there are normal entries with data, and holds each one's data at the place that counts those before it |
| Delivery.ConfExactly | curp/raft.go:173-189 | raft receives every membership change once, and the transport every added peer with an address and every other removed one, in order |
| Delivery.ExaminedExactly | curp/raft.go:183-187 | the loop looks at the entries up to the first that removes the node itself, and at all if there is none |
| Delivery.CurpNode.ServeBatch | curp/raft.go:458-471 | one round keeps what was published equal to the log's data up to the applied index, each commit with a channel of its own |
| Delivery.CurpNode.ServeBatches | curp/raft.go:451-490 | over any gap-free, possibly overlapping slices, what was published is one datum for each normal entry with data, in order, up to where the slices reach |
| Delivery.ReachedExactly | curp/raft.go:142-154 | slices reach as far as the one that ends last, and never back |
| Delivery.ReadCommits | curp/state.go:259-290 | the slow path receives the commands of all data up to the first that does not decode; exactly the commits dealt with have their channel closed; the process ends exactly at a datum that does not decode, a snapshot that does not load, or an error on errorC |
| Delivery.ChannelsExactly | curp/state.go:284 | among the commits dealt with, each channel is closed as often as a commit with data carries it |
| Delivery.ReaderDelivers | curp/state.go:276-283 | over any commits, stopping at the first datum that does not decode delivers the commands of the whole stream up to that datum, and nothing stops the reader if and only if all data decode |
| Delivery.DecodedAll | curp/state.go:276-283 | data that all decode give one command each, in order |
| Delivery.DecodedExactly | curp/state.go:276-283 | the commands delivered are those of the data before the first that does not decode, one each, in order |
| Replica.StateMachine.EnterWitness | curp/state.go:139-141 | the witness's verdict and its only effect on the replica |
| Replica.StateMachine.QueueOrAnswer | curp/state.go:142-178 | a follower answers its verdict and changes nothing; the leader adds the command to both pools whatever the verdict |
| Replica.StateMachine.ExecuteSync | curp/state.go:295-313 | the store and result of the command; a missing key reads as the not-found text |
| Replica.StateMachine.ExecuteAsync | curp/state.go:315-328 | the same store; a missing key reads as the empty string |
| Replica.StateMachine.FastTurn | curp/state.go:222-236 | the worker's fast turn, de-duplicated, with the board updated; `TurnsAreWork` and `WorkOnBoard` say what the board gets |
| Replica.StateMachine.SlowTurn | curp/state.go:238-254 | the worker's slow turn, skipped only at a leader that holds the id, then notification and removal; `TurnsAreWork` and `WorkOnBoard` say what the board gets |
| Replica.StateMachine.RemoveRecord | curp/state.go:330-341 | removes the id from the witness and the set, and nothing else |
| Replica.StateMachine.CmdWorker | curp/state.go:219-257 | the loop is the fold of its turns until a send is stuck |
| Replica.WorkAllIsServeAll | curp/state.go:219-257 | a worker that is never stuck leaves the replica as its turns without the board would |
| Worker.WorkOnBoard | curp/state.go:219-257 | whatever the queues deliver to a worker that is not stuck: each id's stored result, and the one in its channel, is that of the last fast turn of it that executed, at that point of the order of execution; exactly the ids with a slow turn are notified |
| Worker.TurnStuckExactly | curp/command/cmd_board.go:28-57 | a turn is stuck if and only if it sends to a channel without room; its result or notification is stored by then, and a slow turn has not removed the record |
| Worker.StuckExactly | curp/state.go:219-257 | with nobody receiving, a worker gets stuck if and only if some turn sends to a channel that was full or has been sent to |
| Replica.StoreIsReplay | curp/state.go:219-257 | whatever the two queues deliver, the store is the replay of the executions |
| Replica.ExecutionsExactly | curp/state.go:219-257 | at a leader, whatever the queues deliver and however often: an id executes exactly in the turns that are its first or follow a slow turn of it, and the set holds it if and only if its last turn was fast |
| Replica.TwiceExactlyWhenSlowFirst | curp/state.go:221-254 | with one fast and one slow turn of an id at most, it executes twice if and only if the slow turn comes first, and else once if it has any turn |
| Replica.FollowerServesLog | curp/state.go:238-254 | a replica that does not lead executes each log entry once in log order, whatever its set holds; its store is the fold, and the entries' ids are out of the set |
| Replica.SlowFirstDiverges | curp/state.go:221-254 | a slow-first script after which the leader's store differs from the log's |
| Replica.LeaderConflictDiverges | curp/state.go:167-177 | conflicting commands queued together, after which the leader's store differs from the log's |
| Pipeline.FollowerNeverStuck | curp/state.go:238-254 | with no waiter on the board the slow path alone never blocks the worker |
| Pipeline.ReplicateToFollower | curp/raft.go:142-207 | from committed batches through reader and worker: the follower's store is the fold over the commands of the non-empty entries, once each in index order, up to the first that does not decode, and it ends exactly if there is one |
| Node.WitnessKept | curp/witness/witness.go:20-42 | every action of a server keeps: records commute, an accepted command is recorded or was applied and removed, and of two conflicting accepted commands one was removed before the other was accepted |
| Node.CleanKept | curp/state.go:330-341 | every action keeps: an accepted command is recorded exactly until its removal, or for good when accepted after it |
| Node.LocalKept | curp/state.go:219-257 | every action keeps: store is the replay of executions, the board has notified exactly the slow-applied commands, a follower executes exactly its slow path |
| Node.LeaderKept | curp/state.go:219-257 | with fast turns first, every action keeps: each queued command is pending or executed once, the set is the executed and unsynced ids, the board holds each executed command's result in that order |
| Node.OrderKept | curp/state.go:139-257 | with no conflict at the leader too, every action keeps: of two conflicting executions the earlier is slow-applied already and the log keeps their order |
| Node.WorkerCanServe | curp/state.go:235-251 | whatever an unoccupied worker receives, its board send has room |
| Node.TurnsAreWork | curp/state.go:219-257 | a server's fast and slow actions are the worker's turns, replica and board, and are possible exactly when the worker is not stuck in them |
| Node.Speculation | curp/state.go:139-257 | the speculation theorem for one server's state |
| Cluster.StepIsAdmissible | curp/state.go:139-257 | what the cluster lets a server do meets what the server's invariants assume |
| Cluster.InvKept | curp/state.go:139-257 | every step of the cluster keeps the whole invariant of servers, log and clients; for clients: a reply is ACCEPTED if and only if the server accepted, an operation that was voted through returned the leader's content with the leader among the votes, and one in its slow round was refused |
| Guarantees.AlwaysInv | curp/state.go:139-257 | the invariant holds in every state of every run |
| Guarantees.SpeculationHolds | curp/state.go:139-257 | in every state of a run with both hypotheses, the leader's store is its synced log prefix followed by the executed and unsynced commands in any order; these are all in its witness and pairwise free of conflicts |
| Guarantees.Convergence | curp/state.go:167-257 | once drained, the leader's store, built in fast order, equals every follower's, built in log order, and each result is as in the log |
| Guarantees.ConvergenceSameOrder | curp/state.go:167-257 | the same without any assumption on conflicts, if the leader executed conflicting pairs in log order |
| Guarantees.StoresAgreeExactly | curp/state.go:219-257 | in every state of every run, with neither hypothesis: leader and follower stores agree if and only if, at every key, the last write the leader executed left what the last write of the follower's log prefix left |
| Guarantees.LeaderExecutesOnce | curp/state.go:219-257 | with fast turns first the leader executes each id at most once, every slow-applied one exactly once, and between turns its set is the ids executed but not slow-applied |
| Guarantees.FollowersExecuteLog | curp/state.go:238-254 | in every run a follower has executed exactly the log prefix it took, its store is the fold, its set is empty between turns |
| Guarantees.WorkersNeverBlock | curp/state.go:219-257 | in every run every worker can serve whatever waits for it next |
| Guarantees.SyncCallsAnswered | curp/state.go:197-207 | with fast turns first, a WaitSynced call for a synced command can go on and returns a result of that command |
| Guarantees.Linearizability | curp/client_grpc.go:152-233 | with fast turns first, conflicts included: the leader's one order of execution holds each command at most once, each returned content is the command's result in it, and operations that returned before another's invocation come earlier in it |
| Guarantees.OneOrder | curp/state.go:219-257 | the leader's order of execution only grows along a run |
| Contents.InsertedExactly | curp/state.go:222-236 | in every run the leader has a result for an id if and only if its worker had a fast turn of it: no fast turn is ever skipped |
| Contents.ReturnedContent | curp/client_grpc.go:152-233 | in every run, no matter the order of turns: an operation that returned by vote was told the result of an execution of its command at the leader; one that returned by sync was told such a result if a fast turn of it came before its call finished, and the not-found text if not |
| Sequential.FastTurnIsLast | curp/state.go:221-254 | in every run the leader does not execute a command again after its fast turn |
| Sequential.LinearizableWhenUndisturbed | curp/state.go:335-340 | in every run, fast turns first or not: if nothing that conflicts with a command ran between two executions of it, and no call finished before its command's fast turn, then the order of last executions has the leader's store, holds each command at most once, explains every returned content and respects real time |
| Guarantees.Durability | curp/client_grpc.go:152-233 | in every run, from an operation's return on: a super-quorum of distinct servers each record the command or have applied it, or the log holds it and the leader has applied it |
| Guarantees.FastPathExclusion | curp/client_grpc.go:104-107 | with 2f+1 servers, two conflicting commands with a super-quorum each were both accepted at f+1 servers at least, and at each of these one was applied and removed before the other was accepted |
| Guarantees.Recoverability | curp/client_grpc.go:104-107 | a command accepted by a super-quorum and not applied there is held by at least ceil(f/2)+1 witnesses of any f+1 servers, and any conflicting one by at most floor(f/2) |
| Guarantees.StaleExactlyWhenLate | curp/state.go:330-341 | a server that removed an accepted command's record has one again if and only if it accepted the command after the removal, which never happens at the leader |
| Guarantees.LateProposalBlocksItsKey | curp/state.go:139-178 | a proposal accepted after its own removal makes that server refuse every conflicting proposal in all later states |
| Reachable.LateProposalHappens | curp/state.go:139-178 | from every start and for every follower and command, a run with both hypotheses in which the follower accepts the command after it removed its record |
| Reachable.NotFoundHappens | curp/client_grpc.go:223-233 | from every start with a second server and for every two conflicting commands, a run in which a client is told that nothing was found |
| Reachable.StrandedHappens | curp/command/cmd_board.go:80-101 | from every start with a second server and for every two conflicting commands, a run after which nothing is left to do for raft and the workers, and from which the client can never return |
| Divergence.ConflictDivergenceHappens | curp/state.go:167-177 | from every start and for every two writes that leave different things at a key, a run with fast turns first that ends drained, with every other server at the log's store and the leader not |
| Divergence.SlowFirstDivergenceHappens | curp/state.go:221-254 | the same with a run in which the leader's witness reports no conflict and a slow turn comes first |
| Divergence.UnexplainedHappens | curp/state.go:335-340 | from every start with a second server, a run with no conflict at the leader in which two clients read one value before and after a third overwrites it: no order of issued commands, each at most once, explains what they were told and respects real time |
| Progress.CanDrain | curp/state.go:219-257 | every run goes on, by steps of raft and the workers alone and keeping to whichever of the two hypotheses it kept to, to a state with nothing pending and the whole log applied everywhere |
| Progress.CanConverge | curp/state.go:167-257 | every run with both hypotheses goes on, by such steps, to a state in which every server's store is the log's replay and the log holds everything the leader queued |
| Completion.AlwaysTracked | curp/state.go:179-207 | in every state of every run the leader's board has its result and sync channels exactly as full as their callers need, and no operation waits for a sync before its vote is over |
| Completion.VoteDecided | curp/client_grpc.go:198-214 | with a reply from every server and the leader's first, the vote loop is refused or exits with the leader's slot filled |
| FastPath.ReplyTellsVerdict | curp/state.go:146-192 | in every run a server's reply is ACCEPTED if and only if its witness accepted |
| FastPath.SlowRoundNeedsConflict | curp/client_grpc.go:158-171 | in every run an operation is in its slow round, or back from it, only if a server that replied had found its command in conflict |
| FastPath.VoteEnds | curp/client_grpc.go:152-221 | a vote sends its operation to the slow round if and only if a reply among the first super-quorum refuses; it fails it if too few replied or the leader's slot is empty; and it returns the leader's content otherwise |
| FastPath.OneRoundNeedsNoCommit | curp/client_grpc.go:152-221 | from every state of every run, if a super-quorum with the leader accepts a voting operation's command or would now, it can return by vote with nothing more committed |
| FastPath.CanReturnByVoteExactly | curp/client_grpc.go:152-221 | from every state of every run a voting operation can still return by vote if and only if some super-quorum with the leader can: each of its servers has accepted the command, or has not judged it and holds no conflicting record that is left for good |
| FastPath.FastReturnHappens | curp/client_grpc.go:152-221 | from every start and for every command, a run that ends with the log empty and the command answered by vote with its result |
| Completion.FastRoundEnds | curp/client_grpc.go:177-221 | from every state of every run a client in its fast round can come to the end of it: it returns by vote, or was refused and goes on to its sync, neither failed nor stranded |
| Completion.StrandedExactly | curp/command/cmd_board.go:80-101 | in every run a WaitForAsr call is stranded if and only if it started after the slow turn of its command and before the fast turn |
| Completion.SlowRoundReturns | curp/client_grpc.go:223-233 | from every state of every run a client in its slow round can come to its return, whatever the phase of its WaitForAsr call, unless that call is stranded |
| Completion.CanReturnExactly | curp/client_grpc.go:152-233 | from every state of every run, no matter the order of turns, an operation can still return if and only if it has not timed out or met an empty leader slot and its WaitForAsr call is not stranded |
| Completion.CanReturnResultExactly | curp/client_grpc.go:152-233 | from every state of a run with fast turns first an operation can still return, with its command's result in the leader's order, if and only if it has not timed out or met an empty leader slot |

## Left out

- Raft consensus, elections, the write-ahead log and transport: only the one log they deliver is modelled.
- Membership: the configuration raft answers with is a parameter, and calls to the transport are only recorded.
- Leader change and crash recovery: the repository does not implement them; the leader is fixed in every run.
- Snapshots: the snapshot functions are stubs; a commit that signals a snapshot loads it or ends the process, no more.
- gob and protobuf encoding: the decoder is a parameter of the commit reader, and may fail.
- gRPC errors and nil replies, timers, listeners, tracing, configuration and the benchmark client: input and output only.
- curp/client.go: its client duplicates the gRPC client.
- Bolt and Badger stores: wrappers over databases; the map store stands for them.
- `Equal`, `Printf` and the snapshot functions of the map store: `Equal` compares the receiver with itself.
- Locks of the map store: its operations are called by the worker alone, so each is one step.
- `math.Ceil` over a 64-bit float: the super-quorum rounds up over integers.
- The worker's endless loop and the endless read of commits: both are modelled over finite inputs of any length.
- Logs of 2^64 - 1 entries or more: an index would wrap.
- Fair scheduling: theorems say that a step or a completion of the run is possible, not that a scheduler picks it.
- Sequential.LinearizableWhenUndisturbed: one direction only; a disturbed order can still explain what clients were told, as when nobody reads what a repeated write overwrote. `UnexplainedHappens` shows that it need not.
- Guarantees.ConvergenceSameOrder: one direction only; stores can agree by accident, as when equal values are written. The exact condition is `StoresAgreeExactly`.
