# Testflinger: the protocols, verified

Testflinger shares test machines through a job queue. A server keeps job documents; agents pop jobs, run
their phases and post results, states and logs; a command line tool follows the logs; connectors and charms
do the work around it. This project models the protocols between these parts, and the self-contained
algorithms beside them, in Dafny 4.11, and proves what they are for. `dafny verify dfyconfig.toml` checks
all of it.

The network, the clocks, the database's own scheduling, phase exit codes, administrators and encryption are
an environment that may do anything: functions of an unknown world in the imperative models, unconstrained
steps in the step systems.

| module | what it models |
|---|---|
| `Basics` | optional values, the seven phases |
| `Sse` | the control-host connector: the event-stream reader and its reconnect cursor |
| `LogStream` | log fragments: written by the agent, kept by the server, polled by the command line tool |
| `LogDelivery`, `JobLog` | what overtaking costs over a whole run of the poll loop; the job that writes the log |
| `Results` | the result document, posts to it, and the events a post gives rise to |
| `JobStore` | the database calls on jobs and agent records, and every interleaving of the handlers that make them |
| `PhaseEvents` | cumulative phase results over a lossy link, and the event log that concurrent handlers append to |
| `AgentTrace`, `Agent`, `AgentLife` | deferred offline and restart requests through the agent's job loop: what others see of it, what each operation does, what its whole life guarantees |
| `AgentJobs` | the order of what the agent does: phases in a job, jobs in a round, rounds in a life |
| `HandOff`, `Multi` | the device hand-off between child and parent jobs, and the multi-device connector |
| `Duration` | the duration language, its parser and its printer |
| `KeyRotation` | master-key rotation, and the charm that starts and retries it |
| `SecretsStore` | the expiring secrets store against a plain map |
| `QueueOrder` | queue positions against the order of service |
| `BootOrder`, `Ports`, `Percentiles` | boot-order rearrangement, metrics-port allocation, wait-time percentiles |

Methods follow the source's loops and updates in place, and are proved equal to functions; the theorems are
about those functions, over all inputs, all runs and all interleavings.

## Results that are conditions, not guarantees

Some promises hold only under a condition. Each condition is proved to be exact.

- The log of the control host, given that its ids are distinct, is exactly once over all reconnects if and only if
  every event that can be logged carries a non-empty id (`Sse.ExactlyOnceIff`).
- When the poll loop ends on "complete" it has printed the log from its start fragment on if and only if no round that
  showed something had skipped a fragment with text, that is, missed it and seen a later one
  (`LogDelivery.DeliveredIff`; for one round `LogStream.GaplessIff`). In a log without empty fragments this is that no
  fragment overtook an earlier one between two queries of a round that was made (`LogDelivery.LosesIff`). What was
  overtaken is in no round of the run (`LogDelivery.OvertakenIsLost`), and `LogDelivery.LogIsLost` is such a run.
- A failed provisioning has tried to cancel every child on the server if and only if no submission was stored and then
  answered with an error, or not at all (`Multi.Multi.Provision`); `Multi.LostReplyLeavesChild` is the other case.
- Before work, a restart that a check for restarts reads is taken up if and only if no offline request is in hand
  (`AgentLife.RestartBeforeWorkIff`); otherwise the offline post goes over it (`AgentLife.RestartLostBeforeWork`).
  Before a phase it is always taken up (`AgentLife.RestartBeforePhaseIff`). After a job nothing looks for it
  (`AgentLife.RestartAfterJobIff`), and the agent posts over it that it waits (`AgentLife.RestartLostAfterJob`).
- Exit code 46, a failed recovery, takes the agent offline if and only if the phase is not the cleanup
  (`AgentLife.RecoveryFailureIff`). After a cleanup that failed so the agent asks for work again
  (`AgentLife.CleanupFailureIgnored`).
- Each phase is announced exactly once if and only if some stored post carried the full status, the posts were stored
  in the order of sending up to the first such, and no phase was dropped and came back after it
  (`PhaseEvents.ExactlyOnceIff`).
- A finished job can show up on an agent record again if and only if the call that records it is still pending
  (`JobStore.RecordReappearsIff`): a cancellation between the pop and that call leaves a stale record.
- A stopped key rotation can be repeated if and only if its second pass has written nothing
  (`KeyRotation.RetryableIff`).
- A job's turn is its queue position if and only if no job ahead of it is closed to the agents
  (`QueueOrder.TurnAndPosition`).
- A secret that can be read but does not exist is one at the very instant of its expiry
  (`SecretsStore.ReadIffExists`).

## Where the code may surprise

The models follow the code, also where its own documentation says something else.

- `control_host/__init__.py:52-56` says that the base pause is used after a stream that logged something. The loop
  (226-234) sleeps the old pause and resets only afterwards, so the reset counts for the next pause
  (`Sse.DelaysBackOff`).
- `agent.py:205-221` returns a restart request even while an offline request has priority; `process_jobs` then
  drops a request that the server made, and keeps only one already flagged. After a job (490-501) it does not look
  for one at all.
- `check_offline` takes "maintenance" for offline, but a starting agent preserves only "offline".
- `offline_agent` clears its flag whether or not the post arrived. A lost post, a failed read without the flag,
  and an administrator who changes the state are the only things that end an offline request
  (`AgentTrace.NoWorkWhileOffline`).
- `multi.py:89-97` says that a completed parent stops the connector. "complete", the state agents post, does not.
- A child job that the server stored, but whose submission looked like a failure, is not among the jobs that are
  cancelled.
- `agent.py:465-475` runs the cleanup and only logs its exit code. A cleanup that could not release the machine
  (`maas2.py:96-98`, made exit code 46 by `cmd.py:99-100`) leaves the agent online.

## Assumptions

- Job ids are fresh. Agents post only phases, "allocated" and "complete", and never an agent id;
  `JobStore.PostKeepsGivenIff` says which other posts would matter.
- The control host gives distinct ids to its events (`Sse.UniqueIds`).
- Every log fragment is stored at most once, and in the order of writing. Polls that read one snapshot, or during
  which only one phase writes, do not overtake.
- Only the agent calls its job complete.
- A phase runs at most once per job.
- The device-info file of a child does not change once it has been posted.
- Wrapping and encryption are symbolic. Distinct numbers are distinct keys.
- Expired documents are removed only after, not at, their expiry, and all clocks in the secrets store agree.
- Jobs of equal priority keep the order of the collection in `QueueOrder`; `JobStore` allows any of them.
- The wall clock does not run backwards during a sleep.

## Model

| member | source | states |
|---|---|---|
| Sse.ControlHostConnector.StreamSseLogs | device-connectors/src/testflinger_device_connectors/devices/control_host/__init__.py:245-297 | line loop: fields, dispatch on a blank line, cursor only after the payload was handled, exceptions leave what was logged; equals feeding the lines to the reader function |
| Sse.ControlHostConnector.Run | device-connectors/src/testflinger_device_connectors/devices/control_host/__init__.py:191-243 | reconnect loop: resumes from the cursor, stops on completion, failure or exception; without an exception it is finished, or a provisioning error, exactly if the first status that is not "running" is "completed", or "failed", and has slept once for each status before |
| Sse.OutcomeIff | device-connectors/src/testflinger_device_connectors/devices/control_host/__init__.py:226-243 | the first status that is not "running" decides the outcome; the run breaks off exactly if a stream up to there lets an exception escape; nothing is logged or slept after it |
| Sse.ParseRendered | device-connectors/src/testflinger_device_connectors/devices/control_host/__init__.py:266-296 | an event written as id and data lines is read back as that id, none if it is empty, and the joined lines, whatever they contain |
| Sse.FeedRendered | device-connectors/src/testflinger_device_connectors/devices/control_host/__init__.py:280-296 | a field is read alike with one space after the colon and without, and an empty id takes the id away |
| Sse.JoinSplits | device-connectors/src/testflinger_device_connectors/devices/control_host/__init__.py:268-278 | a payload cut at its newlines is its data lines again |
| Sse.IgnorableLines | device-connectors/src/testflinger_device_connectors/devices/control_host/__init__.py:280-296 | comments, lines without a colon and unknown fields anywhere in an event change nothing |
| Sse.CutLines | device-connectors/src/testflinger_device_connectors/devices/control_host/__init__.py:261-266 | a stream cut at any character yields whole lines and at most one fragment that is not blank |
| Sse.CutDeliversPrefix | device-connectors/src/testflinger_device_connectors/devices/control_host/__init__.py:245-297 | cut at any character, a stream delivers exactly a prefix of its events |
| Sse.ConnectDelivers | device-connectors/src/testflinger_device_connectors/devices/control_host/__init__.py:201-225 | one connection delivers a run of the host's list that starts right after the cursor |
| Sse.ConnectKeepsInv | device-connectors/src/testflinger_device_connectors/devices/control_host/__init__.py:201-243 | after every connection the log is the payloads of a prefix, and nothing loggable lies between it and the cursor |
| Sse.ExactlyOnce | device-connectors/src/testflinger_device_connectors/devices/control_host/__init__.py:201-235 | over any number of connections, each cut anywhere, the log is the well-formed payloads of a prefix of the list, once each, in order |
| Sse.CompleteStreamLogsAll | device-connectors/src/testflinger_device_connectors/devices/control_host/__init__.py:201-235 | after a last stream that was not cut and did not raise, every well-formed payload has been logged |
| Sse.MissingIdRepeats | device-connectors/src/testflinger_device_connectors/devices/control_host/__init__.py:266-296 | a loggable event without an id is logged twice by two streams, the first cut behind it |
| Sse.ExactlyOnceIff | device-connectors/src/testflinger_device_connectors/devices/control_host/__init__.py:201-296 | exactly once over every run, if and only if all loggable events carry ids |
| Sse.DelaysBackOff | device-connectors/src/testflinger_device_connectors/devices/control_host/__init__.py:226-243 | each pause is 2 doubled per silent stream since the last one that added to the log, at most 30, counting the streams before the current one |
| LogStream.EndpointLogHandler.Write | agent/src/testflinger_agent/handlers.py:183-191 | one fragment with the current phase and number, if the post arrives; the counter advances in any case |
| LogStream.EndpointLogHandler.WriteFromFile | agent/src/testflinger_agent/handlers.py:193-207 | the fragments of a file are those of its chunks, numbered on from the counter |
| LogStream.ChunksSpellContents | agent/src/testflinger_agent/handlers.py:193-207 | if no post is lost, the chunks spell out the file, none empty or over size, numbered without gaps |
| LogStream.SortOrdered | server/src/testflinger/logs.py:146-190 | sorting by number leaves an ordered log as it is |
| LogStream.RetrievedInOrder | server/src/testflinger/logs.py:146-190 | a query returns the fragments of its phase from the start number on, in order |
| LogStream.SnapshotDoesNotOvertake | cli/testflinger_cli/__init__.py:1461-1497 | polls that read one snapshot never see a fragment without the earlier ones |
| LogStream.OnePhaseDoesNotOvertake | cli/testflinger_cli/__init__.py:1461-1497 | nor do polls during which only one phase writes |
| LogStream.SeenMember | server/src/testflinger/api/v1.py:500-545 | a fragment is returned exactly if the cursor asks for it and its phase's query came after it was stored |
| LogStream.SeenIsSnapshot | cli/testflinger_cli/__init__.py:1487-1497 | without overtaking, the concatenation in phase order is the log by number at one instant |
| LogStream.GaplessIff | cli/testflinger_cli/__init__.py:1487-1497 | a poll returns a gapless stretch of the log from its cursor on, if and only if nothing overtook there |
| LogStream.TestflingerCli.GetCombinedLogOutput | cli/testflinger_cli/__init__.py:1461-1497 | the largest number and the texts of all phases, in phase order |
| LogStream.TestflingerCli.DoPoll | cli/testflinger_cli/__init__.py:1615-1684 | the poll loop: state before logs, cursor after printing; it ends as complete, or cancelled, exactly if the first round that reads either state reads that one |
| LogStream.ExitIff | cli/testflinger_cli/__init__.py:1637-1684 | how the loop ends, by the states read in rounds that did not fail, and that rounds after it print nothing |
| LogStream.StateIsLast | cli/testflinger_cli/__init__.py:1639-1641 | the state that is read is the one set last |
| LogStream.DeliveredOnComplete | cli/testflinger_cli/__init__.py:1645-1684 | on "complete", without overtaking, the tool has printed every stored fragment from any start number on, once, in order |
| LogDelivery.DeliveredIff | cli/testflinger_cli/__init__.py:1645-1684 | on "complete" the tool has printed the log from any start fragment on if and only if no round that showed something skipped a fragment with text for a later one |
| LogDelivery.LosesIff | cli/testflinger_cli/__init__.py:1487-1497 | without empty fragments text is lost if and only if in a round that was made a fragment, from the start on, overtook an earlier one |
| LogDelivery.RunBounds | cli/testflinger_cli/__init__.py:1645-1684 | over any run the output is the log from the start fragment to the cursor, or shorter if anything was skipped; the cursor has passed only what was stored by the last query |
| LogStream.OvertakenIsMissed | cli/testflinger_cli/__init__.py:1645-1684 | a fragment overtaken in a poll that showed something is missed by it, and is asked for by no query from the cursor that it leaves |
| LogDelivery.OvertakenIsLost | cli/testflinger_cli/__init__.py:1645-1684 | a fragment overtaken in a round that showed text is in no round of the run, before or after |
| LogDelivery.LogIsLost | cli/testflinger_cli/__init__.py:1487-1497 | a run of two rounds that ends on "complete" without the whole log |
| LogStream.AgentRunIsHistory | agent/src/testflinger_agent/agent.py:465-491 | with the outcome posted after everything else, no fragment follows "complete" |
| JobLog.TestflingerJob.RunTestPhase | agent/src/testflinger_agent/job.py:91-198 | a phase with a command moves both handlers on and writes its live output to one log, then its file to the serial log; nothing lost means exactly these texts are added |
| JobLog.TestflingerJob.LogSerial | agent/src/testflinger_agent/job.py:190-194 | the file is added to the serial log, numbered by its own handler; the live log stays |
| JobLog.PhaseInText | agent/src/testflinger_agent/job.py:145-198 | every phase that is reached has its pieces, and its file, in the texts of the two logs, right behind what the phases before it wrote |
| JobLog.TestflingerJob.Run | agent/src/testflinger_agent/agent.py:368-485 | phases up to the one that ends the job, cleanup, outcome: of each of the two logs the server has the handler's fragments in order, none after "complete", and without loss they spell out what the phases wrote there |
| LogStream.AlwaysGapless | cli/testflinger_cli/__init__.py:1645-1684 | at any time and however it ends, what it has printed is a gapless prefix of the log |
| JobStore.JobDatabase.PopJob | server/src/testflinger/database.py:227-265 | a job that waits in one of the queues, whose archive is not missing and which does not exclude the agent, with none of these of higher priority, starts running for the agent; there is none exactly if every job fails one of these conditions |
| JobStore.JobDatabase.ClearAgentJob | server/src/testflinger/database.py:545-557 | one record that holds the job is cleared, if there is one |
| JobStore.JobDatabase.SetAgentJob | server/src/testflinger/database.py:533-542 | an existing record gets the job; an unknown agent gets none |
| JobStore.JobDatabase.CancelJob | server/src/testflinger/database.py:288-325 | a job not over becomes cancelled, one that is over stays; one record that holds it is cleared, and the count tells |
| JobStore.JobDatabase.UpdateJobResults | server/src/testflinger/database.py:937-997 | the post wins key by key, the timestamp moves on a real change only, the old document is returned, a terminal state clears a record |
| JobStore.JobDatabase.AttachmentsReceived | server/src/testflinger/database.py:210-219 | only a job awaiting its archive is marked |
| JobStore.PostKeepsGivenIff | server/src/testflinger/database.py:955-959 | exactly a post back to "waiting" or with another agent id would take a job from its agent |
| JobStore.PoppedAtMostOnce | server/src/testflinger/database.py:236-265 | over every interleaving a job is popped at most once |
| JobStore.ArchiveStored | server/src/testflinger/api/v1.py:389-396 | over every interleaving, a job marked as having its attachments has its archive stored |
| JobStore.PopIsSound | server/src/testflinger/database.py:236-265 | a popped job was waiting, in a requested queue, not closed to the agent, with its archive stored, and of highest priority among the eligible |
| JobStore.MarkedIsServed | server/src/testflinger/database.py:210-265 | once the arrival of its attachments is marked, a waiting job makes every request for its queue, by an agent it does not exclude, succeed |
| JobStore.OpenIsServed | server/src/testflinger/database.py:237-265 | whenever some job is open to a request, some pop answers it |
| JobStore.OneHolder | server/src/testflinger/database.py:533-557 | at most one agent record shows a job, and it is the agent the job was given to |
| JobStore.ClearingOneSuffices | server/src/testflinger/database.py:545-557 | clearing the one record found leaves none |
| JobStore.EndClears | server/src/testflinger/database.py:288-316 | after a cancellation, or a post that ends the job, the clearing call that becomes pending leaves the job on no record |
| JobStore.SettledStays | server/src/testflinger/api/v1.py:251-325 | a job on no record, with no call pending, never shows up on one again |
| JobStore.RecordReappearsIff | server/src/testflinger/api/v1.py:251-325 | a job given out can be on a record later if and only if it is on one or the call that records it is pending |
| JobStore.ChangedAtIsLastChange | server/src/testflinger/database.py:961-985 | the stored timestamp is always the time of the last real change of state |
| JobStore.EventsAreChanges | server/src/testflinger/events.py:125-168 | started and completed events are, in order, the changes made by posts into a phase, or to the end from outside it |
| PhaseEvents.OutcomeFile.UpdatePhaseResults | agent/src/testflinger_agent/job.py:215-225 | the exit code is set in place or appended, and the whole status is posted |
| PhaseEvents.RecordedFrom | agent/src/testflinger_agent/job.py:215-225 | the code replaces the one the phase had, in its place, and otherwise comes last; no other entry changes |
| PhaseEvents.RecordedAppends | agent/src/testflinger_agent/job.py:215-221 | a new phase is appended, so posts are prefixes of one list |
| PhaseEvents.NewPhases | server/src/testflinger/events.py:101-122 | a post of k phases on a document with l announces phases l to k in order, with their exit codes |
| PhaseEvents.DeliveryCompletes | server/src/testflinger/database.py:980-997 | what a stored post announces depends only on how far document and post have got |
| PhaseEvents.CompletedCount | server/src/testflinger/events.py:101-122 | the number of announcements is the phases reported plus the phases stepped back over |
| PhaseEvents.CompletedInOrder | server/src/testflinger/events.py:101-122 | with posts stored in order, whatever is lost or repeated, the phases reported are announced once, in order |
| PhaseEvents.ExactlyOnceIff | server/src/testflinger/api/v1.py:609-615 | each phase is announced exactly once if and only if deliveries run once over all phases: some delivery knows them all, those before the first such come in order, and after it the level never rises again |
| PhaseEvents.LogConserves | server/src/testflinger/api/v1.py:613-615 | between detection and log nothing is dropped or doubled, however handlers interleave |
| PhaseEvents.LoggedExactlyOnce | server/src/testflinger/api/v1.py:609-615 | when all handlers are done, and deliveries ran once over all phases, the log has exactly one completed event per phase run, with its exit code |
| PhaseEvents.SequentialLogInOrder | server/src/testflinger/api/v1.py:613-615 | handlers that run one after the other also keep the order |
| Agent.UpdateKeeps | agent/src/testflinger_agent/handlers.py:57-81 | a flagged restart stays, offline follows the argument, an offline comment prevails over later ones |
| Agent.AgentStatusHandler.Update | agent/src/testflinger_agent/handlers.py:57-81 | the flags and the comment after an update |
| Agent.TestflingerAgent.RestartSignalHandler | agent/src/testflinger_agent/agent.py:520-531 | the signal flags a restart and leaves the offline flag |
| Agent.TestflingerAgent.SetAgentState | agent/src/testflinger_agent/agent.py:158-165 | the record becomes the status if the post arrives; otherwise it stays |
| Agent.TestflingerAgent.GetAgentState | agent/src/testflinger_agent/agent.py:167-188 | the reply is the record at that moment, or nothing if the read fails; a heartbeat posts it back, stale as it may be |
| Agent.TestflingerAgent.CheckOffline | agent/src/testflinger_agent/agent.py:190-203 | needed exactly if the record that was read is offline or in maintenance, or the flag is set, with the matching comment |
| Agent.TestflingerAgent.CheckRestart | agent/src/testflinger_agent/agent.py:205-221 | needed exactly if the record that was read asks for a restart, or the flag is set and it is not offline |
| Agent.TestflingerAgent.RestartAgent | agent/src/testflinger_agent/agent.py:223-230 | posts the restart and ends the agent |
| Agent.TestflingerAgent.OfflineAgent | agent/src/testflinger_agent/agent.py:232-239 | posts offline, which may get lost, and drops the flag |
| Agent.TestflingerAgent.CheckBeforePhase | agent/src/testflinger_agent/agent.py:378-398 | looks for each request that is not flagged, and flags what it finds |
| Agent.TestflingerAgent.RunPhase | agent/src/testflinger_agent/agent.py:370-460 | cancelled, checked, posted, run; in any phase of the loop exit code 46 takes the agent offline; the job goes on after success and after a failed test |
| Agent.TestflingerAgent.RunJob | agent/src/testflinger_agent/agent.py:340-475 | the phases, if the job gets that far; then the cleanup whenever there is a directory, and nothing follows from its exit code |
| Agent.TestflingerAgent.CheckBeforeWork | agent/src/testflinger_agent/agent.py:294-315 | both checks, offline flagged first, then offline or restart or neither |
| Agent.TestflingerAgent.CheckAfterJob | agent/src/testflinger_agent/agent.py:490-498 | one check, for offline; a restart only if already flagged |
| Agent.TestflingerAgent.ProcessJobs | agent/src/testflinger_agent/agent.py:280-502 | checks, then job after job, each with its cleanup, until there is none or a request stops it |
| Agent.TestflingerAgent.StartAgent | agent/src/testflinger_agent/__init__.py:121-150 | startup state, then rounds of waiting while offline and processing jobs |
| AgentJobs.JobInOrder | agent/src/testflinger_agent/agent.py:368-475 | a job checks for a cancellation and runs a phase in turn, the phases in order from the first; a phase is followed by the next check exactly if it exited with 0, or was the test and exited, and it is not the last; a check by its phase exactly if the job is not cancelled; each phase comes right after the post that the agent is in it, and a failed recovery is followed by going offline; then the cleanup |
| AgentJobs.RoundInOrder | agent/src/testflinger_agent/agent.py:280-502 | a round goes offline or restarts at once, or asks for a job, runs what was granted, posts that it waits and asks again, until there is no job or it goes offline or restarts after one |
| AgentJobs.IdlesWhileDown | agent/src/testflinger_agent/__init__.py:131-144 | while the agent is offline it only looks, and stops looking with the first look that does not see it down |
| AgentJobs.ComesUpWaiting | agent/src/testflinger_agent/agent.py:137-156 | a starting agent posts that it waits, exactly if it does not read that it is offline |
| AgentJobs.LifeGoesOn | agent/src/testflinger_agent/__init__.py:129-150 | the agent makes round after round of work, until it leaves to restart or stays down as long as it is watched |
| AgentJobs.HeartbeatIff | agent/src/testflinger_agent/handlers.py:117-151 | a record that was read is posted back exactly if a heartbeat is due |
| AgentJobs.OfflineKeepsComment | agent/src/testflinger_agent/agent.py:190-239 | an agent that goes offline because its record says so keeps the comment that is there |
| AgentTrace.ReleaseIsReal | agent/src/testflinger_agent/agent.py:190-203 | what ends a standing offline request is a read or post that the world refused, or an administrator's move |
| AgentTrace.SafeIsKept | agent/src/testflinger_agent/agent.py:232-239 | in every allowed history a standing offline request is in the agent's hands or on the server |
| AgentTrace.NoWorkWhileOffline | agent/src/testflinger_agent/agent.py:190-203 | between a check that saw offline, or exit code 46 before the cleanup, and the next request for work, a read failed, the offline post was lost, or an administrator raised the record |
| AgentTrace.OfflineOnlyOnRequest | agent/src/testflinger_agent/agent.py:232-239 | the agent posts itself offline only for a request it has not yet acted on |
| AgentTrace.LooksBeforeWork | agent/src/testflinger_agent/agent.py:490-502 | before every request for work the agent has looked for an offline request anew, and then owed no restart |
| AgentTrace.NoWorkBeforeRestart | agent/src/testflinger_agent/agent.py:490-502 | once a restart is owed, by a signal or by a check that read it, the agent asks for work at most once more |
| AgentTrace.NoWorkAfterDecision | agent/src/testflinger_agent/agent.py:294-315 | after a check with a restart owed it never asks again |
| AgentLife.LifeIsSafe | agent/src/testflinger_agent/__init__.py:121-150 | in every world the agent's history is what the world gave, every act in it was allowed, and its restart flag is exactly the restart owed |
| AgentLife.PhaseDoneSound | agent/src/testflinger_agent/agent.py:370-460 | through a phase, its checks and a failed recovery, the flags stay what the history asks for |
| AgentLife.OfflineHonoured | agent/src/testflinger_agent/agent.py:280-502 | unless the world interferes, a check that saw offline, or a phase before the cleanup that exited with 46, leaves the agent offline on the server at the end of the round, with no job asked for since |
| AgentLife.RecoveryFailureIff | agent/src/testflinger_agent/agent.py:441-475 | exit code 46 is followed by an offline post, and becomes a request, if and only if the phase is not the cleanup |
| AgentLife.CleanupFailureIgnored | agent/src/testflinger_agent/agent.py:465-502 | with everything else working, after a cleanup that exits with 46 the agent posts that it waits and asks for the next job |
| AgentLife.RestartHonoured | agent/src/testflinger_agent/agent.py:294-315 | with a restart owed no job is asked for; the agent leaves, exactly if it is not to go offline, and otherwise still owes the restart |
| AgentLife.RestartBeforeWorkIff | agent/src/testflinger_agent/agent.py:294-315 | after both checks before work a restart is flagged if and only if it was flagged before, by a signal too, or the check read it and no offline request was in hand |
| AgentLife.RestartBeforePhaseIff | agent/src/testflinger_agent/agent.py:378-398 | before a phase a restart is flagged if and only if it was flagged before, or signalled, or the check read it |
| AgentLife.RestartLostBeforeWork | agent/src/testflinger_agent/agent.py:205-221 | with everything working, a restart read right after an offline request is overwritten by the offline post and not flagged |
| AgentLife.RestartLostAfterJob | agent/src/testflinger_agent/agent.py:490-501 | with everything working, a restart on the server after a job is read and then overwritten by waiting |
| AgentLife.RestartAfterJobIff | agent/src/testflinger_agent/agent.py:490-498 | after a job the agent leaves exactly if it is not to go offline and owed the restart before, or is signalled then |
| HandOff.RunKeeps | agent/src/testflinger_agent/job.py:234-254 | through any posts lost, delayed, reordered and repeated, whatever was stored stays, and "allocated" implies a stored report |
| HandOff.AllocatedThenDevice | agent/src/testflinger_agent/job.py:244-252 | whoever has read "allocated" finds, then and ever after, the device that the child's file names |
| HandOff.NoFileNoHandOff | agent/src/testflinger_agent/job.py:311-327 | a child without the file never becomes allocated, whatever else it posts |
| HandOff.CanHandOffIff | agent/src/testflinger_agent/job.py:113-124 | a child can come to be allocated if and only if it was told to allocate and has the file |
| Multi.Multi.Provision | device-connectors/src/testflinger_device_connectors/devices/multi/multi.py:46-81 | at most floor(T/10)+1 rounds; success means every child was seen allocated, 10 times their number is at most T, no reply said stop, and the list holds their devices; an error has tried to cancel every child that was acknowledged, which is every child on the server if and only if no failed submission was stored; its reason is the last reply, or the clock; every recorded reply is the true state at its time |
| Multi.LostReplyLeavesChild | device-connectors/src/testflinger_device_connectors/devices/multi/multi.py:137-162 | a child stored by a submission that seemed to fail stays on the server with no attempt to cancel it |
| Multi.Multi.SubmitJob | device-connectors/src/testflinger_device_connectors/devices/multi/multi.py:137-162 | a job is recorded exactly if it was acknowledged, and is on the server also if only the acknowledgement was lost, or turned into an error |
| Multi.Multi.GetStatus | device-connectors/src/testflinger_device_connectors/devices/multi/tfclient.py:101-118 | the child's state at that moment, or unknown if the server cannot be reached |
| Multi.Multi.AwaitRound | device-connectors/src/testflinger_device_connectors/devices/multi/multi.py:59-79 | one round: ten seconds or more, parent first, then the children in order up to one with news; one found allocated leaves the list, one that is over ends the wait; timeout last |
| Multi.Multi.PollOnce | device-connectors/src/testflinger_device_connectors/devices/multi/multi.py:62-73 | the children are looked at in order up to the first with news: one read allocated, with its device handed over, leaves the list; one that is over is reported |
| Multi.Multi.TerminateIfParentCompleted | device-connectors/src/testflinger_device_connectors/devices/multi/multi.py:83-97 | stops, after cancelling, exactly if the server is reached and the parent is cancelled or completed |
| Multi.Multi.CancelJob | device-connectors/src/testflinger_device_connectors/devices/multi/multi.py:184-190 | a request that gets through leaves the child over |
| Multi.Multi.CancelJobs | device-connectors/src/testflinger_device_connectors/devices/multi/multi.py:184-190 | a cancel request for each child in order, whatever fails |
| Multi.Multi.CreateJobs | device-connectors/src/testflinger_device_connectors/devices/multi/multi.py:126-162 | the children are the first of the entries that are jobs, each told to allocate, linked to this job and otherwise with its own file; on an error all of them are cancelled |
| Multi.Multi.SaveJobListFile | device-connectors/src/testflinger_device_connectors/devices/multi/multi.py:99-124 | one entry per child in order, with its device if the request got through |
| Duration.ParseDuration | common/src/testflinger_common/duration.py:31-134 | the loops over the matches equal the parse function; integers and other types as in the code |
| Duration.ParseExact | common/src/testflinger_common/duration.py:77-134 | a string is accepted with a value exactly if it spells that value: numbers with units with white space anywhere around them, or a plain integer |
| Duration.ErrorsMean | common/src/testflinger_common/duration.py:77-90 | an empty duration is exactly a blank string, a negative one exactly a string that starts with a minus sign but for white space |
| Duration.OneUnit | common/src/testflinger_common/duration.py:112-134 | a number with a unit is that many seconds, minutes, hours or days, by the first letter |
| Duration.UnitNames | common/src/testflinger_common/duration.py:92-98 | the units are these twelve and no others |
| Duration.FindAllSpelled | common/src/testflinger_common/duration.py:92-98 | matching a spelled list of items gives back its numbers and units |
| Duration.Unspelled | common/src/testflinger_common/duration.py:100-111 | if the matches cover all but white space the string is a list of items |
| Duration.UnitAtExact | common/src/testflinger_common/duration.py:92-98 | the ordered alternatives find exactly the unit that is there |
| Duration.UnitsAdd | common/src/testflinger_common/duration.py:112-134 | durations with units, written one after the other, spell the sum |
| Duration.ParseAdds | common/src/testflinger_common/duration.py:77-134 | parsing is additive over concatenation, for strings that are not plain integers |
| Duration.FormatDuration | common/src/testflinger_common/duration.py:137-176 | the loop over the scale equals the print function; negative input is an error |
| Duration.RoundTrip | common/src/testflinger_common/duration.py:156-176 | parsing what was printed gives the number back, for all n |
| Duration.FormatUnique | common/src/testflinger_common/duration.py:156-176 | what is printed is the only canonical spelling: largest units first, none zero, none overflowing |
| KeyRotation.KeyVault.RewrapManyDataKey | server/src/testflinger/tools/rotate_mongo_secrets_key.py:71-76 | a pass writes nothing unless it can read every key |
| KeyRotation.KeyVault.RotateMasterKey | server/src/testflinger/tools/rotate_mongo_secrets_key.py:60-95 | two passes, stopped anywhere |
| KeyRotation.RotateKeepsPlaintexts | server/src/testflinger/tools/rotate_mongo_secrets_key.py:60-95 | no rotation, stopped or not, changes a data key's plaintext or loses one |
| KeyRotation.RotateSucceedsIff | server/src/testflinger/tools/rotate_mongo_secrets_key.py:60-95 | a rotation succeeds if and only if each key is under the old master key or has been through the first pass; it then ends under the new one as "local"; otherwise nothing changes |
| KeyRotation.RetryableIff | server/src/testflinger/tools/rotate_mongo_secrets_key.py:82-95 | a stopped rotation can be repeated if and only if its second pass wrote nothing |
| KeyRotation.TestflingerCharm.OnConfigChanged | server/charm/src/charm.py:293-338 | the handler; the key is recorded exactly if there was none, it did not change, the unit does not lead, or the rotation got through; the unit is blocked exactly after a failed rotation |
| KeyRotation.TestflingerCharm.OnRetryKeyRotationAction | server/charm/src/charm.py:340-376 | the retry, with the recorded and the configured key; it succeeds, and records the key, exactly on a leader that can connect, with another key recorded, every data key readable and no stop |
| KeyRotation.RunRecovers | server/charm/src/charm.py:306-337 | with any keys configured in any order and rotations stopped before the second pass, every data key keeps its plaintext and one known key can finish |
| KeyRotation.RetryCompletes | server/charm/src/charm.py:340-376 | after any number of stopped attempts the first that is not stopped leaves all keys under the new master key, plaintexts unchanged |
| KeyRotation.UnreportedBlocks | server/src/testflinger/tools/rotate_mongo_secrets_key.py:82-95 | once the second pass has written a key without the charm knowing, every retry fails and changes nothing |
| KeyRotation.NewLeaderHasNothingToRetry | server/charm/src/charm.py:306-337 | a unit that recorded a key without leading never rotates to it later, so an unfinished rotation stays unfinished |
| KeyRotation.UnsetForgets | server/charm/src/charm.py:298-304 | after unsetting the key only the same key set again fits the vault |
| SecretsStore.MongoStore.Read | server/src/testflinger/secrets/mongo.py:87-134 | the reply and the new documents, with failures at every step |
| SecretsStore.MongoStore.Write | server/src/testflinger/secrets/mongo.py:136-202 | the same, with the index before the first timed write of a collection |
| SecretsStore.MongoStore.Delete | server/src/testflinger/secrets/mongo.py:204-217 | the same |
| SecretsStore.MongoStore.Exists | server/src/testflinger/secrets/mongo.py:219-243 | the answer; a failing database means no |
| SecretsStore.StoreIsMap | server/src/testflinger/secrets/mongo.py:87-243 | over every history with failures and removals of expired documents, the replies are those of a map from which entries vanish when they expire, for namespaces without underscores |
| SecretsStore.FaultsTold | server/src/testflinger/secrets/mongo.py:87-243 | what the database refuses changes nothing and is an access error; what is lost is a store error, applied or not |
| SecretsStore.CleanupAgrees | server/src/testflinger/secrets/mongo.py:66-85 | removing expired documents is never seen |
| SecretsStore.EphemeralReadOnce | server/src/testflinger/secrets/mongo.py:114-125 | a handed-out ephemeral secret is not read again until it is written again |
| SecretsStore.ReadIffExists | server/src/testflinger/secrets/mongo.py:219-243 | what exists can be read at that instant; the converse fails exactly at the instant of expiry |
| SecretsStore.NormalizeIsCoded | server/src/testflinger/secrets/mongo.py:54-64 | the three replacements do not disturb each other: two names share a collection exactly if they agree once each character is spelled out |
| SecretsStore.NormalizeInjective | server/src/testflinger/secrets/mongo.py:54-64 | names without underscores share a collection only if equal |
| SecretsStore.NormalizeCollides | server/src/testflinger/secrets/mongo.py:54-64 | a name with a replaced character shares its collection with the name that spells the replacement out |
| QueueOrder.SortedSelect | server/src/testflinger/database.py:860-872 | filtering the sorted jobs is sorting the filtered ones |
| QueueOrder.SortedDescending | server/src/testflinger/database.py:860-872 | the jobs are the same and their priorities fall |
| QueueOrder.SortedStable | server/src/testflinger/database.py:860-872 | jobs of one priority keep the order of the collection |
| QueueOrder.NextIsFirst | server/src/testflinger/database.py:249-265 | an agent is given the first waiting job it may have |
| QueueOrder.WaitingAfterPop | server/src/testflinger/database.py:249-265 | a pop removes its job from the waiting ones and keeps the order of the others |
| QueueOrder.PositionAfterPop | server/src/testflinger/api/v1.py:1027-1033 | a pop ahead lowers a position by one, a pop behind leaves it |
| QueueOrder.GivenInOrder | server/src/testflinger/database.py:249-265 | agents with the same rights are given the jobs open to them in queue order |
| QueueOrder.TurnAndPosition | server/src/testflinger/api/v1.py:1027-1033 | a job is served in the turn that counts the open jobs ahead; this is its position if and only if all ahead are open |
| QueueOrder.PositionIsTurn | server/src/testflinger/api/v1.py:1027-1033 | with every job open to every agent, position k is served by exactly the (k+1)-th pop |
| BootOrder.ResetEfi | device-connectors/src/testflinger_device_connectors/devices/maas2/maas2.py:189-223 | the loops equal the reset function; without a boot order there is an error |
| BootOrder.ResetMeans | device-connectors/src/testflinger_device_connectors/devices/maas2/maas2.py:189-223 | nothing without data, an error exactly without a boot order, and otherwise an order that, read back, is as the row on its meaning says |
| BootOrder.CurrentMeans | device-connectors/src/testflinger_device_connectors/devices/maas2/maas2.py:200-207 | the current entry goes first exactly if the first line that names it says IPv4 |
| BootOrder.NumbersMean | device-connectors/src/testflinger_device_connectors/devices/maas2/maas2.py:209-216 | the network entries are the numbers of the lines that say IPv4, in the order of the lines |
| BootOrder.BootNumberMeans | device-connectors/src/testflinger_device_connectors/devices/maas2/maas2.py:212-214 | a number is the first place where "Boot" is followed by four hexadecimal digits |
| BootOrder.JoinSplit | device-connectors/src/testflinger_device_connectors/devices/maas2/maas2.py:196-223 | splitting at the commas and joining again changes nothing |
| BootOrder.OrderMeans | device-connectors/src/testflinger_device_connectors/devices/maas2/maas2.py:196-223 | no duplicates, nothing else added, every old entry kept; the leading part holds network entries only, the current one first, and none comes later |
| BootOrder.OthersKeepOrder | device-connectors/src/testflinger_device_connectors/devices/maas2/maas2.py:218-221 | the other entries keep their relative order |
| BootOrder.FirmwareNumberIsPlain | device-connectors/src/testflinger_device_connectors/devices/maas2/maas2.py:200-212 | a four-digit hexadecimal current entry, as firmware prints it, meets the condition of the next row |
| BootOrder.ResetTwice | device-connectors/src/testflinger_device_connectors/devices/maas2/maas2.py:196-223 | fed back as the boot order, the result is computed again, character for character |
| Ports.FindAvailablePort | agent/charms/testflinger-agent-host-charm/src/supervisord.py:126-144 | the first port from 8000 below 10000 that is unused and can be bound |
| Ports.FindFromMeans | agent/charms/testflinger-agent-host-charm/src/supervisord.py:126-144 | it is unused, bindable and the lowest such; none only if every port is used or cannot be bound |
| Ports.AgentHostCharm.WriteSupervisorServiceFiles | agent/charms/testflinger-agent-host-charm/src/charm.py:107-176 | the files after an update, complete or broken off, with distinct ports |
| Ports.WriteKeeps | agent/charms/testflinger-agent-host-charm/src/supervisord.py:147-169 | old ports are kept, new ones come from the range and are nobody's old port, all distinct |
| Ports.PortsDistinct | agent/charms/testflinger-agent-host-charm/src/charm.py:132-176 | over any updates, failed ones included, ports are distinct and in range |
| Ports.SuccessKeepsPorts | agent/charms/testflinger-agent-host-charm/src/charm.py:132-176 | a successful update configures exactly the agents that are there, each with a readable file at the port it had, the others at ports of the range that no readable file has |
| Ports.FailureKeepsFirst | agent/charms/testflinger-agent-host-charm/src/charm.py:151-164 | a failed update stops at a new agent when no port is left, keeps the agents before it and drops the others |
| Percentiles.CalculatePercentiles | server/src/testflinger/database.py:378-408 | sorts in place without going out of bounds, and maps exactly 5, 10, 50, 90 and 95 to their percentiles; nothing for no data |
| Percentiles.PercentileOfMultiset | server/src/testflinger/database.py:386-408 | only the multiset of values matters |
| Percentiles.PercentilesGrow | server/src/testflinger/database.py:386-408 | percentiles are monotone |
| Percentiles.PercentilesAmongValues | server/src/testflinger/database.py:386-408 | a percentile lies between two of the values |
| Percentiles.PercentileAtRank | server/src/testflinger/database.py:386-408 | where the index is whole it is the value of that rank |
| Percentiles.PercentileExact | server/src/testflinger/database.py:386-408 | a percentile that falls some hundredths of the way between two ranks divides the distance between their values in that proportion |

## Left out

- HTTP, authentication, schema validation, the database driver and its indexes: calls are atomic steps that may
  fail, be lost or be repeated.
- Sse: other line separators than the newline, and how the transport splits the body into chunks.
- LogStream: polling of a single phase, the start-timestamp filter, terminal output and the output handlers for
  legacy agents.
- JobStore.JobDatabase.CancelJob: does not model who cancelled the job and the JOB_CANCELLED event, because they follow
  directly from the count it returns.
- JobStore.JobDatabase.PopJob: does not model the copying of the job's data to the agent and the recording of wait
  times.
- Agent: job ids in comments, influx and event reports, attachment unpacking, the retry of
  old results, and an exception that escapes from the cleanup, which ends the process.
- Agent.TestflingerAgent.StartAgent: watches the endless loop for any given number of rounds and polls.
- Waiting of an allocated child for its parent (`wait_for_completion`): it ends when either job does, and posts nothing.
- Multi: replies that are not JSON, which the code does not catch.
- Duration: characters outside ASCII, and Python's limit of 4300 digits.
- KeyRotation: the restart of the server after a configuration change, which the retry action does not do;
  units that are not leader only as a branch of one handler.
- SecretsStore: real encryption, and concurrent readers of one ephemeral secret.
- QueueOrder: arrivals and cancellations between pops.
- BootOrder.ResetTwice: requires that the current entry is not part of the name "BootOrder:" and, if it goes first, has
  no comma in it; `BootOrder.FirmwareNumberIsPlain` shows that the digits which firmware prints are neither.
- Ports: service files with other contents than the charm writes; the charm reports itself active even after a
  failed allocation.
- Percentiles: rounding of floating-point numbers.
- Token flows, role tables, the vault back end, other connectors, web views, webhooks, tables and prompts.
