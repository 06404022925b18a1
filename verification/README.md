# Verified model of TiCDC's core protocols

TiCDC replicates the changes of a TiDB cluster to a downstream system. This project
models the five parts of it whose correctness is hardest to see, and proves what each is
there for. `dafny verify dfyconfig.toml` checks everything.

* **Table scheduling** (`Scheduler*.dfy`, `TermProtocol.dfy`, `ScheduleDispatcher.dfy`,
  `Agent.dfy`, `Balancer.dfy`). The owner's dispatcher and the processors' agents are classes with the
  fields the source updates. Each of their methods is shown to move by atomic actions
  (`DispatcherSpec`, `AgentSpec`) and to send just the messages of those actions. The whole
  system, with message channels, owner failover and lost captures, is the state machine
  of `SchedulerProtocol`; the theorem is that no table is ever held by two live captures.
  A report names no term and is addressed to the capture in office, so a capture that takes
  office again may get reports meant for an earlier term of its own, and an agent may write to
  an owner it has not heard from. `SchedulerOffice` and `SchedulerGreeting` show exactly when
  that is safe. The proof follows the system of `TermProtocol`, in which each term has its own
  channels. `SchedulerLevel` shows what rebalancing achieves. That a tick does all it can if its
  messages are taken, and that an exchange left alone ends as it should (`SchedulerRounds`), is
  proved too.
* **MySQL sink** (`CausalityKeys.dfy`, `TxnMerge.dfy`, `SinkConcurrency.dfy`,
  `SinkDispatch.dfy`, `MysqlSink.dfy`, `SinkStatements.dfy`, `SinkReading.dfy`, `SinkPrepare.dfy`,
  `SinkBatches.dfy`, `SinkTables.dfy`, `SinkMeaning.dfy`, `SinkEndToEnd.dfy`,
  `SinkBuffers.dfy`). Merging,
  conflict detection, workers, barriers, batching of statements and the two buffers in front
  of it. The theorems are that any interleaving of the workers has the effect of serial
  execution, that batched statements have the effect of their rows, and both together.
  Statements are read back from their text, placeholders and arguments (`SinkReading`), and
  what they say is what the row change does to a table (`SinkTables`).
* **Schema storage** (`Schema*.dfy`). Snapshots changed in place, cloned, searched and
  collected. The theorems are that a lookup is the replay of exactly the jobs finished by
  then, that it stays so, and that the indexes of a snapshot agree with each other. What the
  jobs leave behind, schema by schema and table by table, is said from the jobs alone
  (`SchemaContents`), for every history. The first three
  fail for RENAME TABLES; `SchemaHistory`, `SchemaStorage` and `SchemaConsistency` say exactly
  when, and `SchemaRename` has a snapshot for which they do.
* **DDLs in the owner** (`OwnerDdlSpec.dfy`, `OwnerDdlProgress.dfy`, `OwnerDdl.dfy`). Queue, barriers with a cached
  minimum, asynchronous DDL sink and published watermarks. The theorem is that the
  watermarks never pass a DDL that is not executed, except for a resolved timestamp that a
  restarted feed has taken over and not published again. `OwnerDdlProgress` shows that they are
  the scheduler's own, capped at the barrier, and that no DDL is lost or stuck.
* **Region feeds** (`RegionFeedSpec.dfy`, `RegionFeedOrigins.dfy`, `RegionFeed.dfy`,
  `RegionTsHeap.dfy`). Matching of prewrites and commits with in-place compaction, resolved
  timestamps over any number of reconnections, and the indexed heap of regions. The theorems
  are that the output is ordered, that no prewrite and no commit makes two rows, and that a commit
  whose prewrite stands is put out with its values.

## What is assumed

Scheduling: handlers run between the atomic actions of a tick. One of these actions is to
turn to a new owner, send it a Sync and note that as sent. In the source these are three
steps (`cdc/scheduler/agent.go:180-196`); an Announce that comes in between has its Sync lost,
and the owner waits for it. Messages from one capture to another arrive in order, whatever
their topic; a capture ID is not used twice; terms do not overlap, but messages of old terms
may be in flight. The capture list of a tick has every live capture that an owner has sent
something to, and what leaves the list is down for good.

A capture takes office only if it is clear (`SchedulerProtocol.Clear`): of its earlier terms no
Sync is in flight to it or due, and no report on a table that a capture other than the sender
has to do with. A capture that is new in office always is (`NewInOffice`). The source does not
see to the rest: a report carries no revision (`cdc/model/protocol.go:46-75`) and goes to the
owner's capture (`cdc/processor/agent.go:161-192`). That it matters, and that no weaker
condition would do, is proved (`OfficeExactly`); `ComingBackIsUnsafe` is a run in which a
capture comes back too early.

An agent that knows an owner it has not heard from does not send its Sync to the capture in
office (`SchedulerProtocol.Discreet`). The source does not see to this either: an agent starts
with a Sync due and may look the owner up (`cdc/processor/agent.go:120-137`), and a Sync leaves
out operations not yet taken over. That it matters, and that no weaker condition would do, is
proved as well (`GreetingExactly`); `UnsolicitedSyncIsUnsafe` is about all runs from a start.

The table executor adds a table when it accepts the operation and has dropped it
when it says the removal is finished. Which messages the communicator refuses in a tick of the
dispatcher, and what messenger and executor answer in a tick of the agent, are inputs of the
tick; nothing is offered or asked twice in one. An error of the communicator is a refusal of that
message and of all that would follow. The shuffle of victims and the order in which maps are
walked are left open, so the proofs hold for every outcome. The target of a manual move may be a
capture that is gone.

MySQL sink: no worker fails and no context is cancelled; executing a batch downstream is
atomic and applies its rows in order; transactions without a common causality key commute.
A column value is held as the text it is written out as. For the meaning of batches, inserts
of different statement texts commute, which is what lets the source take them in map order.
For what statements do to a table (`SinkTables`), a server executes each as it reads, a table is
a set of rows without their generated columns, and at most one row has the old values that a
change goes by.

Buffers: no errors, no table is destroyed, each table emits its rows in commit order.

Schema storage: upstream jobs are well-formed (table names unique in a schema, partition IDs
unique, an ordinary ALTER keeps name and partitions, the tables that RENAME TABLES creates are
new under their names). For the theorems that RENAME TABLES is at fault, no table of the first
snapshot is newer than the snapshot. For lookups to be stable, a job that is taken finished above
what was resolved. Whether the filter or the job state makes a job be skipped
is an input.

DDLs: commit timestamps of DDLs strictly increase, and each is above the resolved timestamp
received before it. The scheduler's watermarks, the next sync point and the reasons for
skipping a DDL are inputs.

Region feeds: whether an operation type can be turned into a row, and whether a key lies in
the subscribed span, are inputs.

## Model

| member | source | states |
|---|---|---|
| `SchedulerProtocol.EveryRunIsSafe` | cdc/scheduler/schedule_dispatcher.go:149-278 | In every run in which captures take office only when clear, through owner failover, capture loss and reports of old terms, no table is in the executors of two live captures, no report in flight makes the owner panic, and no live agent ever has two operations on one table |
| `SchedulerProtocol.RunKeepsInv` | cdc/scheduler/agent.go:179-219 | Events of owner, agents, channels, failures and elections, in any order, keep the system in step with one that has channels for each term |
| `SchedulerProtocol.StepOk` | cdc/processor/agent.go:161-192 | One event does: reports meant for earlier terms are harmless and come before the Sync |
| `SchedulerProtocol.NothingLate` | cdc/scheduler/schedule_dispatcher.go:186-197 | Once all captures have synced, no report of an earlier term is in flight to the owner |
| `SchedulerProtocol.LateReport` | cdc/scheduler/schedule_dispatcher.go:516-553 | A report of an earlier term that is harmless changes nothing |
| `SchedulerProtocol.LateSend` | cdc/processor/agent.go:161-192 | Nor does an agent that follows an earlier term of the capture in office send anything that is not |
| `SchedulerProtocol.ElectOk` | cdc/scheduler/agent.go:401-451 | A new term of a capture that is clear, with empty records and old messages in flight, keeps the systems in step |
| `SchedulerProtocol.InvImpliesGood` | cdc/scheduler/agent.go:47-66 | As long as they are in step, all is well |
| `SchedulerOffice.OfficeExactly` | cdc/processor/agent.go:161-192 | From any state reached so far, all runs after an election are well exactly if the capture elected is clear |
| `SchedulerOffice.UnclearIsUnsafe` | cdc/model/protocol.go:46-75 | If it is not, some run of its term ends in a panic, two operations on one table, or a table with two live captures |
| `SchedulerOffice.EarlySyncIsUnsafe` | cdc/scheduler/schedule_dispatcher.go:556-608 | So it does whenever a Sync of an earlier term is in flight |
| `SchedulerOffice.OwingIsUnsafe` | cdc/scheduler/agent.go:375-393 | And whenever an agent is yet to answer, or to hear, an Announce of an earlier term |
| `SchedulerOffice.LateFinishIsUnsafe` | cdc/scheduler/schedule_dispatcher.go:516-553 | And whenever a finished operation is in flight on a table that another capture has to do with |
| `SchedulerOffice.NewInOffice` | cdc/scheduler/agent.go:401-451 | A capture that has not been in office before may always take it |
| `SchedulerOffice.ComingBackIsUnsafe` | cdc/processor/agent.go:161-192 | A run in which a capture takes office twice and goes wrong |
| `TermProtocol.StepOk` | cdc/scheduler/schedule_dispatcher.go:347-512 | With channels for each term, one event keeps records, operations, queues and messages of every capture fitting together, and a table claimed by one capture at most |
| `TermProtocol.InvImpliesSafe` | cdc/scheduler/agent.go:47-66 | The invariant leaves no table with two live captures |
| `SchedulerProtocol.InvImpliesNoPanic` | cdc/scheduler/schedule_dispatcher.go:516-608 | The panics of both report handlers are unreachable |
| `TermProtocol.UnrecordedIsUnclaimed` | cdc/scheduler/schedule_dispatcher.go:186-197 | Once all captures have synced, a table without a record is held, queued and reported by nobody, so adding it is safe |
| `TermProtocol.RefreshOk` | cdc/scheduler/schedule_dispatcher.go:300-317 | Taking in a new capture list keeps the invariant |
| `TermProtocol.SendAnnounceOk` | cdc/scheduler/schedule_dispatcher.go:319-331 | Announcing to a capture keeps the invariant |
| `TermProtocol.DescheduleOk` | cdc/scheduler/schedule_dispatcher.go:347-361 | Forgetting the tables of a capture that is gone keeps the invariant |
| `TermProtocol.DispatchOk` | cdc/scheduler/schedule_dispatcher.go:384-442 | An add of a table without a record, or a removal of a running one, keeps the invariant, also when the target is gone |
| `TermProtocol.AgentActsOk` | cdc/scheduler/agent.go:271-319 | Whatever an agent does in a tick keeps its part of the invariant and claims no new table |
| `TermProtocol.DeliverToAgentOk` | cdc/scheduler/agent.go:341-393 | So does a message from any owner, old or new |
| `TermProtocol.DeliverSyncOk` | cdc/scheduler/schedule_dispatcher.go:556-608 | After a Sync the owner's records are exactly what the capture may still act on |
| `TermProtocol.DeliverFinishOk` | cdc/scheduler/schedule_dispatcher.go:516-553 | A finished operation updates just the record it belongs to |
| `TermProtocol.ElectOk` | cdc/scheduler/agent.go:401-451 | A new term, with empty records and old messages in flight, keeps the invariant |
| `SchedulerKnowing.EveryDiscreetRunIsSafe` | cdc/processor/agent.go:120-137 | With any agents knowing the owner from the start, the same holds of every run in which captures take office only when clear and no Sync goes unasked to the capture in office |
| `SchedulerKnowing.RunSeems` | cdc/scheduler/agent.go:179-219 | Such a run looks like one in which no agent knows an owner it has not heard from |
| `SchedulerKnowing.LiveStep` | cdc/scheduler/agent.go:240-267 | Each event does: the system seen makes the same step, or none |
| `SchedulerGreeting.GreetingExactly` | cdc/scheduler/agent.go:240-267 | From any state reached so far, all runs after a Sync is sent are well exactly if the agent has heard from the owner, or is gone, or that owner is not in office |
| `SchedulerGreeting.SpokenIsUnsafe` | cdc/scheduler/schedule_dispatcher.go:556-608 | Wherever the owner stands, a Sync of an agent that has not heard from it leads to a panic or a table with two live captures |
| `SchedulerGreeting.UnsolicitedSyncIsUnsafe` | cdc/processor/agent.go:120-137 | If agents may speak unasked, all runs are well exactly if no agent knows the owner from the start |
| `SchedulerRuns.OwnerPathIsRun` | cdc/scheduler/schedule_dispatcher.go:384-512 | A stretch of the dispatcher's actions is a run of the system that ends with its state and its messages on the wire |
| `SchedulerRuns.TickIsRun` | cdc/scheduler/schedule_dispatcher.go:149-278 | So is a whole tick, starting with the capture list |
| `SchedulerRuns.AgentTickIsRun` | cdc/scheduler/agent.go:179-219 | So is an agent's tick, with its reports on the wire |
| `DispatcherSpec.ListedIsRefresh` | cdc/scheduler/schedule_dispatcher.go:300-317 | What the two loops over the captures do, capture by capture, is the one refresh action |
| `DispatcherSpec.ChangesAreTold` | cdc/scheduler/schedule_dispatcher.go:384-442 | Over any actions of a tick, a record that changes changes to adding or removing, or an announcement to sent, and its capture has been sent just that message |
| `Balancer.FindTarget` | cdc/scheduler/balancer.go:82-110 | A capture with the fewest tables; none just if there are no captures |
| `Balancer.RandomPartBreaksTiesOnly` | cdc/scheduler/balancer.go:123-131 | The random low byte never overrides a difference in table count |
| `Balancer.FindVictims` | cdc/scheduler/balancer.go:138-210 | From each capture exactly the tables in excess of the rounded-up average |
| `Balancer.LeastIsBelowLimit` | cdc/scheduler/balancer.go:82-110 | While a table is missing, the least loaded capture is below the average rounded up |
| `Balancer.MarkingLevels` | cdc/scheduler/schedule_dispatcher.go:491-512 | With the victims marked, no capture keeps more than that |
| `Balancer.PlacingKeepsLevel` | cdc/scheduler/schedule_dispatcher.go:384-419 | A missing table placed on a capture with the fewest keeps it so |
| `SchedulerLevel.RunKeepsLevel` | cdc/scheduler/schedule_dispatcher.go:186-277 | So does every run of the ticks' actions and of finished operations, while the tables to run and the captures stay and no table is moved by hand |
| `SchedulerLevel.RunEndsLevel` | cdc/scheduler/balancer.go:138-210 | However it plays out, when no removal is left each capture has at most the average rounded up |
| `SchedulerLevel.TickIsRun` | cdc/scheduler/schedule_dispatcher.go:149-278 | What a tick does is such a run |
| `ScheduleDispatcher.BaseScheduleDispatcher.Tick` | cdc/scheduler/schedule_dispatcher.go:149-278 | Moves and sends by enabled actions only, and adds tables only where they belong; it gets to the watermarks just if all captures have synced, exactly the tables to run do run, and neither a move nor a rebalance is due; then the watermarks are the least last reports of the captures with tables; after a rebalance no capture keeps more than the average rounded up; every record changed has its message sent to the capture concerned, and no others change; every capture not heard of yet is announced to; with all captures synced and nothing refused, every missing table is being added and every superfluous one that ran removed, their captures told, moves that are due are started, and without any a due rebalance is made |
| `ScheduleDispatcher.BaseScheduleDispatcher.Advance` | cdc/scheduler/schedule_dispatcher.go:186-277 | The same from the capture list on; without watermarks both results are zero |
| `ScheduleDispatcher.BaseScheduleDispatcher.CalculateTs` | cdc/scheduler/schedule_dispatcher.go:280-298 | Each result is the least report over the captures that have tables, or the largest number if none has |
| `ScheduleDispatcher.BaseScheduleDispatcher.UpdateCaptureStatus` | cdc/scheduler/schedule_dispatcher.go:300-317 | Captures that left are forgotten, new ones start uninitialized at the checkpoint, others keep their status |
| `ScheduleDispatcher.BaseScheduleDispatcher.SyncCaptures` | cdc/scheduler/schedule_dispatcher.go:319-342 | True exactly if every capture has synced; exactly the uninitialized captures whose announcement is taken change, to announced |
| `ScheduleDispatcher.BaseScheduleDispatcher.SyncCapture` | cdc/scheduler/schedule_dispatcher.go:319-342 | An announcement that is taken is in the outbox and on record; otherwise nothing changes |
| `ScheduleDispatcher.BaseScheduleDispatcher.DescheduleTablesFromDownCaptures` | cdc/scheduler/schedule_dispatcher.go:347-361 | Keeps exactly the records on listed captures, and drops the moves to those of the others that had tables |
| `ScheduleDispatcher.BaseScheduleDispatcher.ApplyDiff` | cdc/scheduler/schedule_dispatcher.go:363-382 | Only missing tables are added and only superfluous running ones sent off, all of them if nothing is refused; the captures of all of these are told |
| `ScheduleDispatcher.BaseScheduleDispatcher.AddTable` | cdc/scheduler/schedule_dispatcher.go:384-419 | Goes where a manual move takes it, else to a capture with the fewest tables; unless that capture's message is refused it is on record as being added, the message is in the outbox, and the move is done with; refused, nothing changes |
| `ScheduleDispatcher.BaseScheduleDispatcher.RemoveTable` | cdc/scheduler/schedule_dispatcher.go:421-442 | Done exactly if the message to the table's own capture is taken; then it is in the outbox and the record says removing; otherwise nothing changes |
| `ScheduleDispatcher.BaseScheduleDispatcher.StartMove` | cdc/scheduler/move_table_manager.go:125-164 | A move without table or live target is given up; another is started exactly if the message is taken: then it is in the outbox, the record says removing and the move is marked |
| `ScheduleDispatcher.BaseScheduleDispatcher.HandleMoveTableJobs` | cdc/scheduler/schedule_dispatcher.go:454-484 | When done, every move that is due has been started and no other record changed; it stops early only if one was due and refused |
| `ScheduleDispatcher.BaseScheduleDispatcher.RebalanceTables` | cdc/scheduler/schedule_dispatcher.go:491-512 | When done, exactly the surplus of each capture is marked; it stops early only if something is refused; nothing happens just if no capture is overloaded |
| `ScheduleDispatcher.BaseScheduleDispatcher.PlaceTables` | cdc/scheduler/schedule_dispatcher.go:198-248 | True exactly if the tables to run, and no others, are running on listed captures; if nothing is refused, missing tables are being added and superfluous ones removed |
| `ScheduleDispatcher.BaseScheduleDispatcher.MoveTables` | cdc/scheduler/schedule_dispatcher.go:250-274 | True exactly if no move and no rebalance had to be started; if nothing is refused, all moves that are due are, and without any a due rebalance is made |
| `ScheduleDispatcher.BaseScheduleDispatcher.CountCaptures` | cdc/scheduler/schedule_dispatcher.go:164-176 | A changed number of captures calls for a rebalance, except at the first tick |
| `ScheduleDispatcher.BaseScheduleDispatcher.OnAgentFinishedTableOperation` | cdc/scheduler/schedule_dispatcher.go:516-553 | An added table runs, a removed one is forgotten, unknown ones are ignored; false exactly where the source panics, on a table of another capture or one that runs |
| `ScheduleDispatcher.BaseScheduleDispatcher.OnAgentSyncTaskStatuses` | cdc/scheduler/schedule_dispatcher.go:556-608 | The capture's records are replaced by the reported ones; false exactly where the source panics, a list that names a table twice included |
| `ScheduleDispatcher.BaseScheduleDispatcher.OnAgentCheckpoint` | cdc/scheduler/schedule_dispatcher.go:611-627 | Only a synced capture's report is recorded |
| `ScheduleDispatcher.BaseScheduleDispatcher.MoveTable` | cdc/scheduler/move_table_manager.go:109-123 | A move is noted unless one for the table is under way |
| `ScheduleDispatcher.ClashMeansPanic` | cdc/scheduler/schedule_dispatcher.go:556-608 | The handler panics exactly if the reports name a table twice or one that another capture has |
| `SchedulerAgent.BaseAgent.Tick` | cdc/scheduler/agent.go:179-219 | Moves and sends by enabled actions only; a Sync that is due comes first, and is sent exactly if it is taken; it fails with a duplicate operation exactly if there is one; every operation, queued ones included, goes exactly as far as executor and messenger let it, and is gone with its end reported if they let it go all the way |
| `SchedulerAgent.BaseAgent.PopPendingOps` | cdc/scheduler/agent.go:226-237 | Empties the queue, order kept across batches |
| `SchedulerAgent.BaseAgent.AddOperations` | cdc/scheduler/agent.go:205-212 | Fails exactly if some table would have two operations |
| `SchedulerAgent.BaseAgent.CollectStatuses` | cdc/scheduler/agent.go:240-255 | Each table is reported once: with an operation as adding or removing, otherwise as running |
| `SchedulerAgent.BaseAgent.SendSync` | cdc/scheduler/agent.go:240-267 | What is sent, to the current owner, is that report, exactly if there is an owner and it is taken |
| `SchedulerAgent.BaseAgent.Start` | cdc/scheduler/agent.go:274-295 | An operation is started exactly if the executor is not busy with it; a table to add is then with the executor |
| `SchedulerAgent.BaseAgent.Complete` | cdc/scheduler/agent.go:296-307 | It is finished exactly if the executor says so; a table to remove is then gone |
| `SchedulerAgent.BaseAgent.FinishOperation` | cdc/scheduler/agent.go:308-316 | It is forgotten exactly if its end is taken, and then that is in the outbox; false exactly if the messenger fails |
| `SchedulerAgent.BaseAgent.ProcessOne` | cdc/scheduler/agent.go:271-319 | An operation goes exactly as far as the answers let it; it is forgotten exactly if they let it go all the way, with its end reported; false exactly if one of them fails; the executor has what it should |
| `SchedulerAgent.BaseAgent.ProcessOperations` | cdc/scheduler/agent.go:271-319 | The same for all operations, in any order; true exactly if none fails; up to a failure, operations keep their kind and never go back |
| `SchedulerAgent.BaseAgent.UpdateOwnerInfo` | cdc/scheduler/agent.go:401-451 | A newer revision resets the queue and is remembered, an older one is refused; two owners of one revision do not fit |
| `SchedulerAgent.BaseAgent.OnOwnerDispatchedTask` | cdc/scheduler/agent.go:341-368 | Queues the operation unless the owner is an old one |
| `SchedulerAgent.BaseAgent.OnOwnerAnnounce` | cdc/scheduler/agent.go:375-393 | Asks for a Sync unless the owner is an old one |
| `SchedulerRounds.DispatchedTableRuns` | cdc/scheduler/agent.go:271-319 | A table that is dispatched to a capture in touch is added, finished and reported; the owner then has it as running, and so has the executor |
| `SchedulerRounds.DismissedTableIsGone` | cdc/scheduler/schedule_dispatcher.go:516-553 | One that is taken off is removed, finished and reported; then neither has it |
| `SchedulerRounds.AnnouncedCaptureIsSynced` | cdc/scheduler/schedule_dispatcher.go:556-608 | A capture that a new owner announces itself to sends its Sync; the owner then has exactly its tables, each as it stands with the agent |
| `SchedulerRounds.WorkIsDone` | cdc/scheduler/agent.go:179-319 | A request that comes in is taken over, started and finished, and is left only to be reported |
| `CausalityKeys.GenKeyList` | cdc/sink/causality.go:122-142 | The index's values, index number and table in bytes; nothing if a column is missing, null or generated |
| `CausalityKeys.GenVersionKeys` | cdc/sink/causality.go:91-120 | The keys of all indexes that have one, for one version of a row |
| `CausalityKeys.GenRowKeys` | cdc/sink/causality.go:91-120 | Those of both versions, or the table's key if there are none |
| `CausalityKeys.GenTxnKeys` | cdc/sink/causality.go:73-89 | The keys of all rows |
| `CausalityKeys.SameIndexValuesShareAKey` | cdc/sink/causality.go:91-142 | Rows of a table that agree on a unique index, in whichever versions, share a key |
| `CausalityKeys.KeylessRowsShareAKey` | cdc/sink/causality.go:113-119 | Rows of a table without index keys share the table's key |
| `CausalityKeys.IndexKeysAreApart` | cdc/sink/causality.go:122-142 | Keys for different indexes or tables are different byte strings |
| `CausalityKeys.TableKeysAreApart` | cdc/sink/causality.go:113-142 | A table's key is no index key and no other table's key |
| `CausalityKeys.SharedKeyMeansMeeting` | cdc/sink/causality.go:73-142 | Rows without zero bytes in their values share a key exactly if they are of one table and agree on a unique index in some versions, or neither has an index key |
| `CausalityKeys.JoinedMeansAgree` | cdc/sink/causality.go:122-142 | Keys with the same values in front were made from the same values, if no value but the first has a zero byte |
| `CausalityKeys.ZeroBytesConfuse` | cdc/sink/causality.go:122-142 | With one, they need not |
| `TxnMerge.TxnsHeap.Next` | cdc/sink/txns_heap.go:69-85 | Hands out the head of a group with the least first timestamp |
| `TxnMerge.TxnsHeap.Iter` | cdc/sink/txns_heap.go:69-85 | Ends; every transaction comes out once, each table's in order; sorted if every table's list is |
| `TxnMerge.MergeLength` | cdc/sink/txns_heap.go:69-85 | A merge is as long as the groups together: nothing is made up |
| `SinkConcurrency.ParallelIsSerial` | cdc/sink/mysql.go:406-463 | In every interleaving of dispatcher and workers the final downstream state is that of the transactions one by one; before that something can always happen; transactions waiting with different workers share no key |
| `SinkConcurrency.RunKeepsInv` | cdc/sink/mysql_worker.go:125-155 | At every point, what is left in dispatch order and then what is not dispatched gives the serial result |
| `SinkConcurrency.StepOk` | cdc/sink/mysql.go:433-463 | Each step of dispatcher or worker keeps it |
| `SinkConcurrency.PullFirst` | cdc/sink/mysql_worker.go:125-155 | A worker's first transaction may run ahead of all others left |
| `SinkConcurrency.BatchIsSerial` | cdc/sink/mysql_worker.go:108-124 | A batch of rows does what its transactions do in turn |
| `SinkConcurrency.NothingLeft` | cdc/sink/mysql.go:406-431 | When the last mark is passed, nothing is left to execute |
| `SinkConcurrency.InvImpliesLive` | cdc/sink/mysql.go:406-422 | The wait at a barrier always ends |
| `MysqlSink.Causality.Add` | cdc/sink/causality.go:39-47 | The keys lead to the worker from now on, others as before |
| `MysqlSink.Causality.DetectConflict` | cdc/sink/causality.go:54-71 | A conflict exactly if some key is known; the worker all known keys went to, or -1 exactly if they went to several |
| `MysqlSink.SinkWorker.Handle` | cdc/sink/mysql_worker.go:129-148 | Moves as the worker of the state machine; rows executed and gathered are those received, in order; what is gathered is executed exactly at a mark or when the transaction does not fit |
| `MysqlSink.SinkWorker.Run` | cdc/sink/mysql_worker.go:77-155 | Rows are executed in the order received, none lost or repeated, in batches of one replica within the row limit; each mark is acknowledged, once all rows before it are executed |
| `MysqlSink.TxnDispatcher.NotifyAndWaitExec` | cdc/sink/mysql.go:406-431 | Every worker is told of the barrier, and all have passed it |
| `MysqlSink.TxnDispatcher.SendTo` | cdc/sink/mysql.go:438-447 | To the worker all known keys went to |
| `MysqlSink.TxnDispatcher.SendNext` | cdc/sink/mysql.go:452-454 | To the next worker in turn |
| `MysqlSink.TxnDispatcher.PassBarrier` | cdc/sink/mysql.go:449-450 | After the barrier no conflicts are remembered |
| `MysqlSink.TxnDispatcher.ResolveConflict` | cdc/sink/mysql.go:442-455 | Sends the transaction on, past a barrier if its keys went to several workers |
| `MysqlSink.TxnDispatcher.Finish` | cdc/sink/mysql.go:462-462 | After the last barrier the downstream state is the serial one |
| `MysqlSink.DispatchInOrder` | cdc/sink/mysql.go:433-463 | The loop over a given order ends with its serial effect |
| `MysqlSink.DispatchAndExecTxns` | cdc/sink/mysql.go:433-463 | The tables' transactions have the effect of their merge, one after the other |
| `SinkDispatch.GoesByHistory` | cdc/sink/mysql.go:433-463 | In every run a transaction that shares no key with those dispatched since the last barrier goes to the worker whose turn it is, one that shares keys with those of one worker goes there, and otherwise, and only then, there is a barrier |
| `SinkDispatch.MapIsHistory` | cdc/sink/causality.go:39-71 | The conflict map has just the keys of the transactions since the last barrier, each by the worker it went to |
| `SinkStatements.DeleteCount` | cdc/sink/mysql.go:844-867 | A DELETE has as many arguments as placeholders |
| `SinkStatements.UpdateCount` | cdc/sink/mysql.go:799-842 | So has an UPDATE |
| `SinkStatements.PlanCount` | cdc/sink/mysql.go:764-797 | So has an insert statement, batched or not |
| `SinkStatements.BatchReadsBack` | cdc/sink/mysql.go:764-797 | From a multi-row statement its rows can be read back |
| `SinkStatements.UnitReadsBack` | cdc/sink/mysql.go:757-761 | So it can from a statement on a single row |
| `SinkReading.ReadsQuoted` | pkg/quotes/quotes.go:27-34 | A quoted name can be read back, whatever is in it |
| `SinkReading.UpdateSays` | cdc/sink/mysql.go:799-842 | Read back, with the n-th argument for the n-th placeholder, an UPDATE sets exactly the written columns to their new values where exactly the columns of the key have their old ones, nulls as IS NULL; there is one exactly if there is something to set and something to go by |
| `SinkReading.DeleteSays` | cdc/sink/mysql.go:844-867 | A DELETE deletes where these columns have their old values; there is one exactly if there is something to go by |
| `SinkReading.InsertSays` | cdc/sink/mysql.go:728-762 | An insert names the written columns, and its arguments are their new values in that order; INSERT exactly if told so, else REPLACE |
| `SinkReading.SingleInsertSays` | cdc/sink/mysql.go:728-762 | The same read from the whole statement on a single row |
| `SinkPrepare.WhereSlice` | cdc/sink/mysql.go:869-888 | The columns of the key, or all columns if that is forced and there is no key; false exactly where a missing one is dereferenced |
| `SinkPrepare.PrepareDelete` | cdc/sink/mysql.go:844-867 | The statement, with its arguments matched, or none exactly if there is nothing to go by; read back it says what it should; false exactly where the columns for it are missing |
| `SinkPrepare.PrepareUpdate` | cdc/sink/mysql.go:799-842 | The same for the columns to set and to go by, but with nothing to set the latter are not looked at |
| `SinkBatches.BatchRows` | cdc/sink/mysql.go:774-795 | Read back from their placeholders and arguments, the statements hold the rows in order, 1 to batch-size rows each |
| `SinkBatches.ReduceReplace` | cdc/sink/mysql.go:764-797 | For every text the statements hold just its rows, in order |
| `SinkBatches.DmlBuilder.FlushCache` | cdc/sink/mysql.go:617-625 | What was gathered is written out before anything else |
| `SinkBatches.DmlBuilder.AddRow` | cdc/sink/mysql.go:627-688 | Adds the statements of one row, an update never split, an insert gathered if batching; false exactly where a missing column is dereferenced |
| `SinkBatches.PrepareDMLs` | cdc/sink/mysql.go:609-706 | Expanded, the statements are those of the rows one by one, the same per text, with deletes and updates in their places; exactly those without batching; each has as many arguments as placeholders; the row count is right; false exactly where a missing column is dereferenced |
| `SinkTables.SafeModeReplaces` | cdc/sink/mysql.go:627-688 | Executed as they read, the statements of a row change in safe mode make of a table exactly: the old row gone, the new one there in place of those it clashes with |
| `SinkTables.SafeModeAgain` | cdc/sink/mysql.go:627-688 | Executing them again changes nothing |
| `SinkTables.UpdatesInPlace` | cdc/sink/mysql.go:635-644 | Otherwise an update makes exactly the old row have the new values |
| `SinkTables.InsertsOrDeletes` | cdc/sink/mysql.go:646-688 | And an insert adds exactly the new row, if it clashes with none, and a delete takes exactly the old one |
| `SinkTables.ConditionsMean` | cdc/sink/mysql.go:869-888 | A row is selected exactly if it has the old values in the key, or in all columns if that is forced and there is no key |
| `SinkMeaning.SameEffect` | cdc/sink/mysql.go:609-706 | Statement lists that agree per text have the same effect |
| `SinkMeaning.UnbatchedRunsRows` | cdc/sink/mysql.go:627-688 | The unbatched statements have the effect of the rows |
| `SinkMeaning.PreparedRunsRows` | cdc/sink/mysql.go:708-726 | So what a worker executes has the effect of its rows in order |
| `SinkEndToEnd.StatementsAreSerial` | cdc/sink/mysql.go:406-463 | In every interleaving of dispatcher and workers, with every batch executed by any statements that may be prepared for it, what is executed downstream has the effect of the rows' statements one by one in the order of the transactions |
| `SinkEndToEnd.MovesAreSteps` | cdc/sink/mysql_worker.go:108-155 | Each step that executes prepared statements is one that executes the rows |
| `SinkEndToEnd.ExecTxns` | cdc/sink/mysql.go:433-463 | The loop over the tables' transactions ends with the effect of the statements of their merge |
| `SinkBuffers.Search` | cdc/sink/table_sink.go:67-69 | The first row above the timestamp |
| `SinkBuffers.SinkManager.EmitRowChangedEvents` | cdc/sink/table_sink.go:45-52 | Emitted rows are in backend, shared buffer and table buffer, in turn |
| `SinkBuffers.SinkManager.PassRows` | cdc/sink/table_sink.go:62-80 | Exactly the rows up to the timestamp move to the shared buffer |
| `SinkBuffers.SinkManager.FlushRowChangedEvents` | cdc/sink/table_sink.go:62-92 | Then a flush is requested, no later than the redo log |
| `SinkBuffers.SinkManager.ReceiveBatch` | cdc/sink/buffer_sink.go:95-119 | Takes requests in order, all of them or a full batch |
| `SinkBuffers.SinkManager.EmitFor` | cdc/sink/buffer_sink.go:124-146 | Exactly the rows up to the request's timestamp go to the backend |
| `SinkBuffers.SinkManager.FlushBatch` | cdc/sink/buffer_sink.go:150-157 | The backend is told to flush only what it already has all rows for |
| `SinkBuffers.SinkManager.RunOnce` | cdc/sink/buffer_sink.go:95-168 | A round serves these requests in order; no row is lost, out of turn, or delivered without a request |
| `SinkBuffers.DeliverServes` | cdc/sink/buffer_sink.go:124-146 | Once they are delivered, the backend has all rows the request covers |
| `SinkBuffers.PassKeeps` | cdc/sink/table_sink.go:62-80 | Moving rows on keeps their order and every promise made to a request |
| `SchemaStorage.SchemaStorageImpl.GetSnapshot` | cdc/entry/schema_storage.go:742-763 | What is found is the last snapshot at or below the timestamp of all there ever were, which without RENAME TABLES is the replay of the jobs finished by then; the errors are given exactly when they apply |
| `SchemaStorage.SchemaStorageImpl.HandleDDLJob` | cdc/entry/schema_storage.go:800-825 | A skipped job advances the resolved timestamp, an old one does nothing, a failing one reports its error and changes nothing, another adds a snapshot, RENAME TABLES included |
| `SchemaStorage.SchemaStorageImpl.AdvanceResolvedTs` | cdc/entry/schema_storage.go:828-837 | The resolved timestamp is the larger of the two |
| `SchemaStorage.SchemaStorageImpl.DoGC` | cdc/entry/schema_storage.go:845-874 | Exactly the snapshots before the last one at or below the timestamp go |
| `SchemaStorage.SchemaStorageImpl.Search` | cdc/entry/schema_storage.go:755-757 | How many snapshots are at or below the timestamp |
| `SchemaHistory.ChainCut` | cdc/entry/schema_storage.go:742-763 | The snapshot found is what the accepted jobs finished by then give, if no RENAME TABLES is among them |
| `SchemaHistory.LookupsAreReplays` | cdc/entry/schema_storage.go:556-643 | That is so at all timestamps exactly if no RENAME TABLES has renamed anything |
| `SchemaHistory.RenameIsSeenEarly` | cdc/entry/schema_storage.go:594-595 | The snapshot after RENAME TABLES is found before the job has finished, and that is right exactly if it renamed nothing |
| `SchemaHistory.ChainIsConsistent` | cdc/entry/schema_storage.go:800-825 | With well-formed jobs all snapshots are consistent |
| `SchemaStorage.LookupIsReplay` | cdc/entry/schema_storage.go:742-763 | So a lookup that succeeds is the replay, whatever was collected |
| `SchemaStorage.LookupIsTold` | cdc/entry/schema_storage.go:742-763 | A lookup finds exactly the schemas, tables and truncated IDs that the jobs behind it tell of, without RENAME TABLES those finished by then |
| `SchemaStorage.LookupExactly` | cdc/entry/schema_storage.go:742-763 | It succeeds exactly from the first snapshot on, between what is collected and what is resolved, and gives the last snapshot at or below |
| `SchemaStorage.JobIsTaken` | cdc/entry/schema_storage.go:800-825 | A job that finished after the last snapshot is taken in exactly if it is possible there; a skipped one only raises what is resolved |
| `SchemaStorage.CollectedExactly` | cdc/entry/schema_storage.go:845-874 | Exactly what lookups from the timestamp on do not need is collected |
| `SchemaContents.TablesAre` | cdc/entry/schema_storage.go:556-674 | After every history of accepted jobs a table is there exactly if the last job that creates or drops it, directly or with a schema that lists it, creates it; it has the name, schema, partitions and detail of the last job that carried it, and its timestamp as version; how often each schema lists it |
| `SchemaContents.SchemasAre` | cdc/entry/schema_storage.go:371-416 | A schema is there exactly if the last job on it does not drop it, and is as that job describes it |
| `SchemaContents.TruncatedAre` | cdc/entry/schema_storage.go:451-496 | The IDs gone for good are exactly those of tables truncated and of partitions lost to a partition change |
| `SchemaContents.GoesWithItsSchema` | cdc/entry/schema_storage.go:371-393 | In a consistent snapshot the tables that go with a schema are exactly those last said to be in it |
| `SchemaContents.OneJob` | cdc/entry/schema_storage.go:556-643 | What one job does to a schema, a table, a list of tables and the truncated IDs |
| `SchemaContents.SucceedsExactly` | cdc/entry/schema_storage.go:556-643 | When a job succeeds on a consistent snapshot, RENAME TABLES included |
| `SchemaContents.FailsForReason` | cdc/entry/schema_storage.go:371-554 | The error of one that fails, RENAME TABLES aside, names what stands in its way |
| `SchemaStorage.LookupsAreStable` | cdc/entry/schema_storage.go:742-874 | Through any sequence of jobs, resolved timestamps and collections, a lookup that succeeded gives the same ever after, or the collection error from some point on |
| `SchemaStorage.RequestKeepsLookup` | cdc/entry/schema_storage.go:800-874 | Each of these does |
| `SchemaStorage.RenameDisturbsExactly` | cdc/entry/schema_storage.go:594-595 | Of the jobs finished above what is resolved, exactly those that rename tables disturb a lookup |
| `SchemaConsistency.JobKeeps` | cdc/entry/schema_storage.go:556-643 | Every successful job keeps names, partitions, table lists and schema names in agreement |
| `SchemaConsistency.CreateKeeps` | cdc/entry/schema_storage.go:498-531 | Creating a table does |
| `SchemaConsistency.DropKeeps` | cdc/entry/schema_storage.go:418-449 | Dropping a table does |
| `SchemaConsistency.ReplaceKeeps` | cdc/entry/schema_storage.go:534-554 | Replacing a table does |
| `SchemaConsistency.UpdateKeeps` | cdc/entry/schema_storage.go:451-496 | Changing partitions does |
| `SchemaConsistency.CreateSchemaKeeps` | cdc/entry/schema_storage.go:395-406 | Creating a schema does |
| `SchemaConsistency.ReplaceSchemaKeeps` | cdc/entry/schema_storage.go:408-416 | Replacing a schema does |
| `SchemaConsistency.DropSchemaKeeps` | cdc/entry/schema_storage.go:371-393 | Dropping a schema does, with all its tables |
| `SchemaConsistency.DropSchemaSucceeds` | cdc/entry/schema_storage.go:371-393 | Dropping a known schema of a consistent snapshot cannot hit a missing table |
| `SchemaSnapshot.Snapshot.Clone` | cdc/entry/schema_storage.go:215-270 | The copy has the same content and no storage in common with the original |
| `SchemaSnapshot.CloneLists` | cdc/entry/schema_storage.go:243-250 | Every list of tables is copied to an array of its own |
| `SchemaSnapshot.TableLists.Append` | cdc/entry/schema_storage.go:498-531 | Adds to one list, in place or in a larger copy, and to no other |
| `SchemaSnapshot.TableLists.Remove` | cdc/entry/schema_storage.go:418-449 | Takes the table out of one list in place, order kept |
| `SchemaSnapshot.Snapshot.CreateTable` | cdc/entry/schema_storage.go:498-531 | The snapshot with the table in all indexes, or the error |
| `SchemaSnapshot.Snapshot.DropTable` | cdc/entry/schema_storage.go:418-449 | The snapshot without the table in all indexes, or the error |
| `SchemaSnapshot.Snapshot.ReplaceTable` | cdc/entry/schema_storage.go:534-554 | The new version of the table takes the place of the old one, and its partitions lead to it; an error exactly if there is no such table |
| `SchemaSnapshot.Snapshot.UpdatePartition` | cdc/entry/schema_storage.go:451-496 | New partitions lead to the table, those gone are remembered as truncated |
| `SchemaSnapshot.Snapshot.CreateSchema` | cdc/entry/schema_storage.go:395-406 | The snapshot with an empty schema, or the error |
| `SchemaSnapshot.Snapshot.ReplaceSchema` | cdc/entry/schema_storage.go:408-416 | The snapshot with the schema replaced, or the error |
| `SchemaSnapshot.Snapshot.DropSchema` | cdc/entry/schema_storage.go:371-393 | The snapshot without the schema and its tables, or the error, or the nil dereference |
| `SchemaSnapshot.Snapshot.RenameTables` | cdc/entry/schema_storage.go:645-674 | All old tables dropped, then all new ones created under lower-case schema names |
| `SchemaSnapshot.Snapshot.HandleTableDDL` | cdc/entry/schema_storage.go:583-640 | What each kind of job on a table makes of the snapshot |
| `SchemaSnapshot.Snapshot.HandleDDLJob` | cdc/entry/schema_storage.go:556-643 | The job's effect in place, with its timestamp unless it was ignored |
| `SchemaConsistency.RenameKeepsExactly` | cdc/entry/schema_storage.go:645-674 | RENAME TABLES to new names keeps them in agreement exactly if all the schemas that tables move to are spelled in lower case |
| `SchemaRename.RenamingFooGoesWrong` | cdc/entry/schema_storage.go:661-672 | A snapshot and a RENAME TABLES that leaves it inconsistent and is seen before it has finished |
| `OwnerDdlRuns.EveryRunIsSafe` | cdc/owner/changefeed.go:162-226 | In every run the published checkpoint passes no DDL that is queued or can still arrive; DDLs are handed downstream once and in order, applied to the schema once and in order, and leave the queue only executed or skipped |
| `OwnerDdlRuns.ResolvedIsSafe` | cdc/owner/changefeed.go:549-572 | The resolved timestamp does not either once a tick has published it, or if the feed started with it not above the checkpoint; until then it is the one the feed started with, and passes a queued DDL exactly if it is above the first |
| `OwnerDdlRuns.ResolvedIsSafeExactly` | cdc/owner/changefeed.go:228-329 | In all runs of a feed it passes no queued DDL exactly if it started not above the checkpoint |
| `OwnerDdlRuns.RestartedFeed` | cdc/owner/changefeed.go:228-329 | A feed that starts at checkpoint 10 with 20 resolved and pulls the DDL at 10 |
| `OwnerDdlRuns.ResolvedStep` | cdc/owner/changefeed.go:549-572 | What a tick publishes is below all that is not executed; anything else leaves it alone |
| `OwnerDdlRuns.OneDdlAtATime` | cdc/owner/changefeed.go:456-547 | In every run a DDL is handed over only when it is first in the queue, both watermarks stand at its timestamp, and all DDLs handed over before are executed |
| `OwnerDdlRuns.RunKeepsInv` | cdc/owner/changefeed.go:162-226 | Every event of puller, sink and owner keeps the invariant behind this |
| `OwnerDdlRuns.TickOk` | cdc/owner/changefeed.go:162-226 | A tick does, whatever the scheduler's watermarks |
| `OwnerDdlRuns.BarrierStaysBelow` | cdc/owner/changefeed.go:456-502 | The barrier a tick caps at is below all that is not executed, before and after it is handled |
| `OwnerDdlRuns.ExecOk` | cdc/owner/changefeed.go:504-547 | Executing a DDL, in as many ticks as it takes, does |
| `OwnerDdlRuns.PopOk` | cdc/owner/ddl_puller.go:185-194 | The queue moves on only past a DDL that was executed or skipped |
| `OwnerDdlProgress.WatermarksAreTheSchedulers` | cdc/owner/changefeed.go:162-226 | In every run checkpoint and resolved timestamp are those of the last tick that published, each the scheduler's own or the barrier's if that is lower; before one, those the feed started with |
| `OwnerDdlProgress.NoDdlIsLost` | cdc/owner/ddl_puller.go:117-194 | In every run what left the queue and what is in it are just the DDLs that arrived, in order, and the puller stands at the largest resolved timestamp |
| `OwnerDdlProgress.EveryDdlIsAccountedFor` | cdc/owner/changefeed.go:456-547 | In every run, of the DDLs that left the queue exactly those not to be skipped were executed downstream, and exactly those not skipped for cyclic replication were applied to the schema |
| `OwnerDdlProgress.DueDdlGetsDone` | cdc/owner/changefeed.go:456-547 | From every state of a run in which the first DDL is due and not yet handed over, two ticks and one round of the sink have it executed and off the queue, with the barrier moved on |
| `OwnerDdlProgress.BarrierKeepsUp` | cdc/owner/changefeed.go:456-502 | Until a DDL is due its barrier keeps up with the front of the queue, or with what is resolved |
| `OwnerDdlProgress.OtherBarriers` | cdc/owner/changefeed.go:456-502 | A sync point moves on exactly when both watermarks stand at it; the end of the feed stays |
| `OwnerDdl.Barriers.Update` | cdc/owner/barrier.go:49-56 | The barrier is set and the remembered minimum stays true |
| `OwnerDdl.Barriers.Remove` | cdc/owner/barrier.go:82-85 | The barrier is gone and the remembered minimum stays true |
| `OwnerDdl.Barriers.CalcMin` | cdc/owner/barrier.go:68-80 | The true minimum; a panic exactly if none is below the largest number |
| `OwnerDdl.Barriers.Min` | cdc/owner/barrier.go:58-66 | The same, whether remembered or computed |
| `OwnerDdl.DdlPuller.ReceiveResolved` | cdc/owner/ddl_puller.go:117-125 | The resolved timestamp never falls |
| `OwnerDdl.DdlPuller.ReceiveDDL` | cdc/owner/ddl_puller.go:126-145 | Queued exactly if neither discarded nor the last one again |
| `OwnerDdl.DdlPuller.FrontDDL` | cdc/owner/ddl_puller.go:175-183 | The first DDL and its timestamp, or what is resolved |
| `OwnerDdl.DdlPuller.PopFrontDDL` | cdc/owner/ddl_puller.go:185-194 | The queue without its first DDL |
| `OwnerDdl.DdlSink.EmitDDLEvent` | cdc/owner/ddl_sink.go:182-202 | Done exactly if it was executed; however often it is called, the DDL goes into the channel once |
| `OwnerDdl.DdlSink.FinishDDL` | cdc/owner/ddl_sink.go:153-165 | The executed DDL is marked as finished |
| `OwnerDdl.Changefeed.constructor` | cdc/owner/changefeed.go:228-329 | Puller and DDL barrier start just before the checkpoint |
| `OwnerDdl.Changefeed.ReceiveResolved` | cdc/owner/ddl_puller.go:117-125 | One resolved timestamp is one such event of the state machine |
| `OwnerDdl.Changefeed.ReceiveDDL` | cdc/owner/ddl_puller.go:126-145 | So is one DDL, a repeated one included |
| `OwnerDdl.Changefeed.SinkTakesDDL` | cdc/owner/ddl_sink.go:153-154 | So is the sink's taking a DDL from the channel |
| `OwnerDdl.Changefeed.SinkFinishesDDL` | cdc/owner/ddl_sink.go:153-165 | So is its having executed it |
| `OwnerDdl.Changefeed.AsyncExecDDL` | cdc/owner/changefeed.go:504-547 | Applied to the schema the first time, then skipped or handed to the sink |
| `OwnerDdl.Changefeed.HandleBarriers` | cdc/owner/changefeed.go:456-502 | The least barrier is handled as in the state machine |
| `OwnerDdl.Changefeed.Tick` | cdc/owner/changefeed.go:162-226 | A tick is one tick of the state machine, with the true minimum; it publishes the checkpoint and the resolved timestamp of the scheduler, each capped at the barrier, or leaves both alone |
| `RegionFeedSpec.EveryRunIsOrdered` | cdc/kv/region_worker.go:624-776 | Over all subscriptions of a region each row commits after every timestamp resolved before it, cached commits included, resolved timestamps never fall, and the region is taken up again from one that was put out, the highest |
| `RegionFeedSpec.RunKeepsInv` | cdc/kv/region_worker.go:238-241 | Entries, resolved timestamps, failures and reconnections in any order keep the output ordered |
| `RegionFeedSpec.StepOk` | cdc/kv/region_worker.go:624-776 | Each of them does |
| `RegionFeedSpec.OrderDoesNotMatter` | cdc/kv/matcher.go:43-99 | During the scan a commit comes out exactly once, with its own fields and the value and old value of its prewrite, whichever came first, heartbeats notwithstanding |
| `RegionFeedOrigins.EveryRowHasItsOwnPrewrite` | cdc/kv/matcher.go:43-99 | In every run, before and after initialization and over all subscriptions, each matched row is a commit with the value and old value of a prewrite of the same key and start that stood at the commit, not superseded, used or rolled back, both of one subscription, and no two rows share a prewrite or a commit |
| `RegionFeedOrigins.CommitIsEmitted` | cdc/kv/matcher.go:43-99 | In every run a commit whose prewrite stands, with no other commit for the key in the subscription, is put out at once with that prewrite's values |
| `RegionFeedOrigins.OthersAreEmitted` | cdc/kv/region_worker.go:624-776 | Rows that need no prewrite and resolved timestamps that do not fall back are put out as they are; the others fail the feed or are ignored |
| `RegionFeedOrigins.StepTraced` | cdc/kv/region_worker.go:624-776 | Each event leaves what waits to be matched unused |
| `RegionFeedSpec.MatchAllKeepsOrder` | cdc/kv/matcher.go:75-95 | Commits matched at initialization come out in the order they were cached |
| `RegionFeedSpec.KeysAreApart` | cdc/kv/matcher.go:43-99 | A key's rows depend on its own entries alone |
| `RegionFeedSpec.FeedFollowsScan` | cdc/kv/region_worker.go:642-726 | Before initialization the feed holds and has emitted what the scan has |
| `RegionFeedSpec.FeedEmitsScan` | cdc/kv/region_worker.go:642-666 | Once initialized it has emitted all the rows of the scan, in order |
| `RegionFeed.MatcherState.PutPrewriteRow` | cdc/kv/matcher.go:43-57 | An empty prewrite does not replace one that is there |
| `RegionFeed.MatcherState.MatchRow` | cdc/kv/matcher.go:61-69 | A match has the commit's own fields with the value and old value of the prewrite, which is used up |
| `RegionFeed.MatcherState.CacheCommitRow` | cdc/kv/matcher.go:71-73 | The commit is cached behind the others |
| `RegionFeed.MatcherState.MatchCachedRow` | cdc/kv/matcher.go:75-95 | The matched commits are compacted to the front of the array, in place and in order |
| `RegionFeed.MatcherState.RollbackRow` | cdc/kv/matcher.go:97-99 | The prewrite is forgotten |
| `RegionFeed.RegionFeedState.constructor` | cdc/kv/client.go:192-196 | The feed starts, and reports its start as resolved |
| `RegionFeed.RegionFeedState.HandleOne` | cdc/kv/region_worker.go:642-726 | One entry is one step of the feed |
| `RegionFeed.RegionFeedState.HandleEventEntry` | cdc/kv/region_worker.go:624-729 | All entries up to the first that fails |
| `RegionFeed.RegionFeedState.HandleResolvedTs` | cdc/kv/region_worker.go:731-776 | Ignored before initialization and when it falls back; otherwise sent on |
| `RegionFeed.RegionFeedState.HandleSingleRegionError` | cdc/kv/region_worker.go:238-283 | The region is handed back once, where the next subscription carries on |
| `RegionFeed.RegionFeedState.Evict` | cdc/kv/region_worker.go:780-805 | The same for a region whose stream is lost |
| `RegionTsHeap.RegionTsManager.Upsert` | cdc/kv/resolvedts_heap.go:92-117 | A new region is added, a known one merged and put in its place; no other changes |
| `RegionTsHeap.Merged` | cdc/kv/resolvedts_heap.go:92-117 | A tracked resolved timestamp never falls, nor does the key |
| `RegionTsHeap.StallsAreCounted` | cdc/kv/resolvedts_heap.go:92-117 | After updates one after another a region has the highest resolved timestamp, the last event time, and as penalty the number of updates since the one that last raised it |
| `RegionTsHeap.LatestEventCounts` | cdc/kv/resolvedts_heap.go:107-112 | Ordered by event time it has the latest, and nothing else changes |
| `RegionTsHeap.RegionTsManager.Pop` | cdc/kv/resolvedts_heap.go:120-127 | An item with the least key leaves map and heap; none just if there is none |
| `RegionTsHeap.RegionTsManager.Remove` | cdc/kv/resolvedts_heap.go:130-136 | The region's item leaves map and heap; every other stays at its true index |
| `RegionTsHeap.RegionTsManager.Swap` | cdc/kv/resolvedts_heap.go:54-58 | Two items change places and still know them |
| `RegionTsHeap.RegionTsManager.Push` | cdc/kv/resolvedts_heap.go:60-65 | The item is added in order |
| `RegionTsHeap.RegionTsManager.TakeLast` | cdc/kv/resolvedts_heap.go:67-74 | The last item leaves and loses its index |
| `RegionTsHeap.RootIsLeast` | cdc/kv/resolvedts_heap.go:47-52 | In heap order the root is least |

## Left out

- Checkpoint messages from agents to the owner carry no table operations: whether their sending fails is an input, their arrival is `OnAgentCheckpoint`.
- That the published checkpoint is below every table's true progress: it depends on when the pipeline and the messaging layer acknowledge, which is not part of this model.
- SchedulerProtocol.EveryRunIsSafe: a capture that comes back into office before its earlier terms have died down is excluded, because the property is false then; `SchedulerOffice.OfficeExactly` gives the exact condition.
- SchedulerKnowing.EveryDiscreetRunIsSafe: a Sync that goes to an owner the agent has not heard from is excluded, because the property is false then; `SchedulerGreeting.GreetingExactly` gives the exact condition.
- A dispatcher that restarts within one owner term, and a capture list that is wrong about a live capture.
- SchedulerAgent.BaseAgent.Tick: after a duplicate operation is reported nothing is said of the state, because the source gives the processor up then.
- MysqlSink.SinkWorker.Run: no execution error and no cancelled context; a worker that fails still releases the barrier in the source.
- TxnMerge.TxnsHeap.PopEntry: the library heap is a set from which an entry with the least timestamp is taken; its array is not modelled here (that of the region heap is).
- MysqlSink.TxnDispatcher.NotifyAndWaitExec: the bounded capacity of the workers' channels is not modelled, so a send never waits.
- SinkBatches.PrepareDMLs: the statement that marks a table in cyclic replication is left out.
- SinkBuffers.SinkManager.RunOnce: removal of a table's buffer, errors and the checkpoints handed back are left out.
- Tables without a usable key (ineligible tables) and the flag that keeps only the others, a job without any binlog info, and building the first snapshot from the store.
- OwnerDdl.Changefeed.Tick: errors, pausing and restarting the feed, the redo log and the store of sync points are left out.
- RegionFeed.RegionFeedState.HandleEventEntry: building a row event from an entry is reduced to whether it succeeds; gRPC streams, tokens and the lock resolver are left out.
- RegionTsHeap.RegionTsManager.Upsert: all items of one manager are ordered by the same kind of key; the region worker only uses resolved timestamps.
- The sinks' table checkpoints, the MQ sink, the older scheduler, sorter, mounter, range locks, etcd and the HTTP API: they would only add easy members or wrap libraries and I/O.
