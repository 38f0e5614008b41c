# Meeseeks-Box: the dispatcher and its stores

Meeseeks-Box takes requests from a chat, finds the command each one names, checks that the user may run it there,
records a job, queues it, runs it in a goroutine or on a remote agent, answers, and keeps jobs, logs and aliases in
Bolt buckets. This project models that path and proves what it keeps over every run, including crashes, restarts,
failing transactions and any interleaving of tasks.

| file | what it models |
|---|---|
| `Bytes.dfy`, `Keys.dfy`, `Bolt.dfy` | Go strings with `strings.TrimSpace`, the 8-byte keys, Bolt buckets and cursors |
| `Parser.dfy`, `Grammar.dfy`, `TokenText.dfy` | the quoting and escaping state machine of the command parser; the language it reads, as a grammar with a meaning; the law for a token's text and its message |
| `JobTable.dfy`, `Jobs.dfy` | the job store as a table, and the two buckets that implement it |
| `JobLogs.dfy`, `Logs.dfy` | the logs as per-job histories, and the buckets and cursor loops that implement them |
| `Aliases.dfy`, `Commands.dfy`, `Auth.dfy` | aliases, the command registry and `Find`, authorisation |
| `Executor.dfy` | the executor as a system of atomic steps: Run loop, task goroutines, cancel map, crash, restart |
| `ExecutorInvariant.dfy`, `ExecutorRuns.dfy` | the invariant of every step, and induction over runs |
| `ExecutorJobs.dfy`, `ExecutorRequests.dfy`, `ExecutorCancels.dfy` | the executor's promises about jobs, requests and cancellation |
| `Dispatcher.dfy`, `DispatcherRuns.dfy` | the executor as an object, and proof that any sequence of its calls follows the step system |
| `Pipeline.dfy`, `PipelineRuns.dfy` | agents, remote commands and their jobs as a step system, and its promises |
| `RemoteJobs.dfy` | executor and pipeline as one process, where tasks start the remote jobs |
| `RemoteServer.dfy` | the server's and the agent's ends of the pipeline as objects |
| `Meeseeks.dfy`, `Wrappers.dfy` | requests, jobs, commands; Option and Result |

## How to read it

A component that changes state is a class whose methods are proved against a function on values (`Table`, `History`,
`State`, `Image`); what the program promises is then proved about that function, or about runs of a step system.
A parameter `commits` says whether a database transaction commits; a failed one is rolled back as a whole. `now` is the
clock. How a command's execution ends is an input (`failed`, or `content` and `err`). In the step systems a run is a
sequence of events from `INITIAL`, each enabled when it happens; `Reaches(es, s)` says that such a run leads to `s`.
The state carries its own history (`tasks`, `owner`, `lost`, `counts`; `chans`, `calls`), which no step reads to decide
anything except to identify the task it moves.

`lost` holds the running jobs no task will finish: those left by a crash until the next restart, and those whose call of
`Fail` or `Succeed` did not commit.

## Findings: where the code and its documentation or intent part

- `Tail` is documented to return the bottom lines (`meeseeks/meeseeks.go:55`). Once an error is recorded the cursor's
  last entry is the nested error bucket, whose nil value ends the loop at once: it returns no line at all
  (`JobLogs.TailIsComplete`, `JobLogs.TailOutputOnError`).
- `FailRunningJobs` is documented to flag jobs as failed (`meeseeks/meeseeks.go:170`); it marks them killed.
- `activeCommands` keys cancel functions by job ID, and commands that are not recorded all have ID 0. When such a task
  ends it calls whatever function is registered under 0, which may be that of another task still executing
  (`ExecutorCancels.WhoseCancelEndCalls` says exactly when, `ExecutorCancels.NullJobsInterfere` gives a run).
- In the parser an escaped byte at the start of a word leaves the machine between words with text pending. An
  unfinished word of that kind, an open quote or a dangling backslash at the end of a token's text changes how the
  message after it is parsed (`Parser.UncleanConcatenation`). Bytes from 0x80 up come back as two-byte runes
  (`Parser.EscapedRoundTrip`).
- `TrimSpace` takes off more than the two separators. The API joins text and message before trimming, so white space
  in front of the message that is neither a space nor a tab becomes part of an argument: the text `a` and the message
  `\nb` give the arguments `a` and `\nb`, though the message alone gives `b` (`TokenText.NewlineIsKept`;
  `TokenText.FollowsExactly` says exactly when).
- Creating a job when the 64-bit sequence is exhausted would reuse ID 0 and break the store (`JobTable.CreateKeeps`); this
  takes Bolt's `NextSequence` to be an increment of a 64-bit number.

## Model

| member | source | states |
|---|---|---|
| Executor.ActiveCommands.Add | meeseeks/executor/executor.go:194-201 | registers a task's cancel function under its job ID, replacing the one there |
| Executor.ActiveCommands.Cancel | meeseeks/executor/executor.go:203-218 | an unknown ID changes nothing; a known one is removed and its function called once |
| ExecutorInvariant.StepKeeps | meeseeks/executor/executor.go:90-181 | every step of every kind, crash and restart included, keeps all eight parts of the invariant: numbering of tasks, memory, per-task history, channel, counters, owners of jobs, running index, cancel map |
| ExecutorInvariant.ContextsCancel | meeseeks/executor/executor.go:203-218 | cancelling any ID leaves every other entry owned by an active task whose function was never called |
| ExecutorInvariant.ExpectedIsFinal | meeseeks/executor/executor.go:161-177 | a task's replies contain one final reply once it is answered or refused, and none before |
| ExecutorRuns.ReachedKeeps | meeseeks/executor/executor.go:90-218 | the invariant holds in every state any run reaches |
| ExecutorRuns.NothingUndone | persistence/jobs/jobs.go:120-146 | however a run goes on, a job that has ended keeps status and times, replies are not taken back, and a request that left the pipeline does not return |
| ExecutorJobs.RunningIndexIsInFlight | persistence/jobs/jobs.go:68-146 | in every reachable state the running bucket is the disjoint union of the jobs of tasks between Create and Fail/Succeed and the lost ones; each such task has its own job |
| ExecutorJobs.RunningIndexExact | persistence/jobs/jobs.go:68-146 | with no failing Fail/Succeed transaction, and after any number of crashes and restarts, a running server's index is exactly what is in flight |
| ExecutorJobs.CrashLosesInFlight | main.go:131-132 | a crash leaves the database alone and turns every task in flight into a lost one whose job is still indexed |
| ExecutorJobs.RestartKills | persistence/jobs/jobs.go:182-222 | a restart empties the index; the jobs whose status was Running, and only they, get the status Killed and the time as their end, and keep ID, request and start; no other job changes |
| ExecutorJobs.StatusMatchesAnswer | meeseeks/executor/executor.go:161-177 | without database errors the stored status of every finished recorded task is the one its final reply announced, for the rest of the run |
| ExecutorRequests.Conservation | meeseeks/executor/executor.go:91-121 | requests received = unknown + rejected + not created + completed + lost + still in the pipeline, in every reachable state |
| ExecutorRequests.WaitGroupCounts | meeseeks/executor/executor.go:118-119 | the wait group is the number of tasks between Add and Done, zero exactly when there is none, and Done never takes it below zero |
| ExecutorRequests.ShutdownDrained | meeseeks/executor/executor.go:134-145 | when Wait returns the channel is empty and every task ever counted has had its one final reply and has called Fail or Succeed, unless a crash took it |
| ExecutorRequests.OneFinalReply | meeseeks/executor/executor.go:91-181 | at most one final reply per request ever, none before it is due, exactly one once the request left the pipeline other than by a crash |
| ExecutorRequests.RepliesSent | meeseeks/executor/executor.go:94-177 | the exact replies, in order, of unknown, rejected, uncreated and completed requests |
| ExecutorRequests.ResolvedAtOwnStep | meeseeks/executor/executor.go:95-100 | the command and rewritten request a task carries are what Find made of its original request at the task's own resolution step, with the registry and aliases of that step; none exactly when it was answered as unknown |
| ExecutorRequests.OnlyAdmittedRun | meeseeks/executor/executor.go:102-107 | a task gets past authorisation only if Check returned nil for its request and command at the task's own authorisation step, with the groups in force at that step, and is rejected only if it did not |
| ExecutorRequests.OnlyMembersRun | meeseeks/executor/executor.go:102-107 | no task of a group command gets past authorisation unless its user was in one of the command's groups at the task's own check, none of a command with an unknown user strategy does, and direct-message and channel restrictions are kept to |
| ExecutorRequests.RejectedForAReason | meeseeks/executor/executor.go:102-107 | a request is rejected only for a user strategy that lets nobody in, a group membership missing at its own check, or a channel that is not allowed |
| ExecutorRequests.InArrivalOrder | meeseeks/executor/executor.go:119-149 | the channel holds at most 20 tasks, is first in first out, and recorded jobs are numbered in order of arrival |
| ExecutorCancels.EntriesAreActive | meeseeks/executor/executor.go:158-159 | every entry of the cancel map belongs to a task between Add and its deferred Cancel, under that task's job ID and never called; with no such task the map is empty, null jobs included |
| ExecutorCancels.RecordedCancelledOnce | meeseeks/executor/executor.go:194-218 | a recorded job's entry is its own function, called at most once, registered until called, and called by the time the task is gone |
| ExecutorCancels.CancelReachesOwnJob | commands/builtins/builtins.go:401-415 | a cancel command changes nothing but the context of the task that runs the named job for the caller, and does cancel that one; any other caller or ID changes nothing |
| ExecutorCancels.KillReachesJob | commands/builtins/builtins.go:440-451 | a kill command cancels the context of the task that runs the named job, whoever asked for it, and changes nothing else |
| ExecutorCancels.CalledOnlyUnderOwnID | meeseeks/executor/executor.go:203-218 | whatever event happens in a run, a cancel function is called only by the owner's cancel command, a kill command or the end of a task, under its own job's ID, for the first time, and while its task is active |
| ExecutorCancels.WhoseCancelEndCalls | meeseeks/executor/executor.go:159 | a task's deferred Cancel calls another task's function exactly when its job is null and the shared entry is not its own; a recorded task's own function has always been called |
| ExecutorCancels.NullJobsInterfere | meeseeks/executor/executor.go:194-218 | a run without any cancel or kill in which an unrecorded task is executing with its context cancelled |
| Dispatcher.Server.CreateTask | meeseeks/executor/executor.go:123-130 | a null job for a command that is not recorded; otherwise a created job, or none when the transaction fails |
| Dispatcher.Server.Admit | meeseeks/executor/executor.go:95-107 | the resolved request and command, or the one refusal sent to the client |
| Dispatcher.Server.Accept | meeseeks/executor/executor.go:91-118 | one turn of Run: its work, replies, job table and wait group, from the request and configuration |
| Dispatcher.Server.Process | meeseeks/executor/executor.go:149-179 | the goroutine of a task: its replies and stored status, as the execution ended, Done and deferred Cancel |
| Dispatcher.AcceptFollows | meeseeks/executor/executor.go:91-118 | one turn of Run is a run of the step system, ending in the matching state with the same replies and the same task; only recording a job needs a number left in the sequence |
| Dispatcher.SendFollows | meeseeks/executor/executor.go:119 | so is the send on a channel with room |
| Dispatcher.ReceiveFollows | meeseeks/executor/executor.go:147-149 | so is taking a task off the channel |
| Dispatcher.ProcessFollows | meeseeks/executor/executor.go:149-179 | so is the life of a task's goroutine, after which the task is completed with exactly those replies |
| DispatcherRuns.CallsFollow | meeseeks/executor/executor.go:61-181 | from a new dispatcher, any sequence of accepting, sending, receiving, processing and changing the configuration leads to a matching state that a run of the step system reaches |
| DispatcherRuns.WorkInHandRuns | meeseeks/executor/executor.go:113-176 | so after any such calls the recorded jobs of the work in hand are stored as running, listed in the index, and each has its own |
| Pipeline.JoinRegisters | remote/server/command_pipeline.go:112-162 | whatever order the offered commands are walked in, registration is accepted exactly when no name is blank or present, and then adds those commands bound to the agent and nothing else |
| Pipeline.LeaveRegisters | remote/server/command_pipeline.go:164-196 | deregistration is accepted exactly when all names are remote commands, and then removes exactly those names |
| Pipeline.OthersKeepRemotes | commands/commands.go:63-141 | no registration of local commands or builtins, accepted or not, adds, removes or changes a remote command |
| PipelineRuns.ReachedKeeps | remote/server/command_pipeline.go:112-238 | ownership of remote commands and the single place of every result channel hold in every state any run reaches |
| PipelineRuns.RemotesAreLiveOffers | remote/server/command_pipeline.go:112-196 | the remote commands of the registry are the disjoint union of the live agents' offers, each bound to its own connection |
| PipelineRuns.AgentJoins | remote/server/command_pipeline.go:112-162 | a colliding or blank offer changes nothing; any other is registered whole |
| PipelineRuns.AgentLeaves | remote/server/command_pipeline.go:164-196 | a live agent's deregistration always validates and removes exactly its own commands |
| PipelineRuns.OneResultPerJob | remote/server/command_pipeline.go:198-238 | each channel is sent at most one result, about its own job, and at most one call of finishJob ever gets it, however finishes repeat or race |
| PipelineRuns.FinishAcceptedOnce | remote/server/command_pipeline.go:198-238 | a finish is accepted exactly when its ID is in the map, which for IDs started once means started and not finished before; otherwise nothing changes |
| PipelineRuns.LogsChangeForAccepted | remote/server/command_pipeline.go:204-208 | finishing writes to the logs only the error of an accepted finish, for its own job |
| PipelineRuns.ErrorRecorded | remote/server/command_pipeline.go:204-208 | the log step of an accepted finish with an error leaves that error in its job's log, when the transaction commits, and every line and other job alone; without an error it changes nothing |
| PipelineRuns.ResultDelivered | remote/server/command_pipeline.go:210-214 | a send puts exactly the finish of its call on the channel of that job, which was empty, and on no other |
| RemoteJobs.ReachedKeeps | remote/server/command_pipeline.go:261-279 | with tasks of the executor starting the jobs, both invariants hold and every channel carries the job of the one task that made it, through crashes and restarts |
| RemoteJobs.FinishOfTaskOnce | remote/server/command_pipeline.go:198-238 | there no job is started twice, and a finish is accepted exactly when a task of the process started its job and no finish was accepted before |
| RemoteJobs.ResultOfOwnTask | remote/server/command_pipeline.go:261-293 | the task that waits on a channel gets at most one result, and it is for that task's own job |
| RemoteServer.Server.Registered | remote/server/command_pipeline.go:124-143 | one registration per offered command, in some order of the map |
| RemoteServer.Server.RegisterAgent | remote/server/command_pipeline.go:112-162 | the whole new state, whatever the order of the map; a connection only when accepted |
| RemoteServer.Server.DeRegisterAgentCommands | remote/server/command_pipeline.go:164-196 | the whole new state and the error, whatever the order of the map |
| RemoteServer.Server.StartJob | remote/server/command_pipeline.go:217-224 | a new channel, entered under the job's ID |
| RemoteServer.Server.PopJob | remote/server/command_pipeline.go:226-238 | the channel of a running ID, which is removed; an unknown ID changes nothing |
| RemoteServer.Server.FinishJob | remote/server/command_pipeline.go:198-215 | an unknown ID is an error that changes nothing; otherwise pop, log and, with a receiver, send |
| RemoteServer.FinishIsARun | remote/server/command_pipeline.go:198-215 | an undisturbed finishJob ends where a run of the step system ends |
| RemoteServer.Agent.RunCommand | remote/agent/agent.go:148-205 | every request is answered by exactly one finish with its own job ID: the result of execution, or an error when the command is unknown |
| JobTable.CreateKeeps | persistence/jobs/jobs.go:68-98 | creating a job keeps the store consistent exactly while the 64-bit sequence lasts, uses an ID never used before and leaves ended jobs alone |
| JobTable.CreatedExactly | persistence/jobs/jobs.go:68-98 | the job stored is numbered next, carries the request, starts now, has no end and the status Running; it is indexed and nothing else changes |
| JobTable.FinishKeeps | persistence/jobs/jobs.go:120-146 | finishing succeeds exactly for Failed or Successful on a job in the running index, never overwrites an ended job, and does nothing for the null job |
| JobTable.FinishedExactly | persistence/jobs/jobs.go:120-146 | which error each bad finish gets, in the order of the checks; a good one sets status and end time, keeps ID, request and start, and takes the job off the index |
| JobTable.KillKeeps | persistence/jobs/jobs.go:182-222 | killing every indexed job without looking at its status overwrites no ended job, because index and status agree; every running job ends up Killed, ended now, the rest of it kept |
| JobTable.KilledExactly | persistence/jobs/jobs.go:182-222 | in any table, each indexed job gets the status Killed and the end time, and keeps the rest; jobs not indexed keep everything |
| JobTable.StoreRun | persistence/jobs/jobs.go:59-222 | under every sequence of creates, finishes and kills the running index is exactly the jobs whose status is Running, every job sits under its own ID within 1..sequence, and a job that ended at any point is the same ever after |
| JobTable.LatestUnique | persistence/jobs/jobs.go:148-180 | the specification of find has one answer for each table, limit and filter |
| Jobs.Store.Create | persistence/jobs/jobs.go:68-98 | the new table and job, field by field; a transaction that fails leaves nothing |
| Jobs.Store.Get | persistence/jobs/jobs.go:100-118 | the job stored under the ID, or the error that there is none, before any job exists too |
| Jobs.Store.Finish | persistence/jobs/jobs.go:120-146 | the new table, field by field, and each of the errors: bad status, no such job, not running, not committed |
| Jobs.KillIndexed | persistence/jobs/jobs.go:182-222 | the cursor walk over the running bucket gives what a snapshot of the index lists the status Killed and an end, and empties it; it fails only on an indexed job that is missing |
| Jobs.Store.FailRunningJobs | persistence/jobs/jobs.go:182-222 | all or nothing: every indexed job ended as Killed with ID, request and start kept and the index emptied, or the store unchanged |
| Jobs.Store.Find | persistence/jobs/jobs.go:148-180 | the backward cursor loop returns the first max(0, limit) matching jobs by strictly descending ID, none skipped |
| Jobs.Store.FindLastJobIDForUser | commands/builtins/builtins.go:1082-1095 | the user's greatest job ID, or an error exactly when the user has no job |
| Jobs.Store.FindOwnJob | commands/builtins/builtins.go:1061-1071 | limit 1 with the user and ID matchers finds that job exactly when the user owns it |
| Jobs.Store.ListJobs | commands/builtins/builtins.go:518-532 | the user's newest jobs, of the given status if there is one, none skipped: a matching job left out is older than all listed, and the limit was reached |
| Keys.IDRoundTrip | persistence/db/db.go:50-59 | decoding an encoded ID gives it back, for every uint64 |
| Keys.KeyRoundTrip | persistence/db/db.go:50-59 | encoding a decoded 8-byte key gives it back, so the encoding is a bijection |
| Keys.IDOrder | persistence/db/db.go:50-54 | byte order of keys is numeric order of IDs, for all pairs |
| Bolt.Ascending | persistence/db/db.go:49-54 | a cursor's path holds every key of the bucket, each once |
| Bolt.AscendingSorted | persistence/db/db.go:49-54 | a cursor's path is strictly ascending in byte order |
| Parser.Parse | text/parser/parser.go:18-84 | the loop computes the parse of the trimmed command, or the unclosed quote error |
| Grammar.EveryTextIsALine | text/parser/parser.go:27-83 | every text is written by a line of the grammar: arguments of bare, escaped and quoted parts, and an end that is finished, dangling or open |
| Grammar.ParsedIsMeaning | text/parser/parser.go:18-84 | every command, trimmed, can be read as a line of the grammar, and however it is read the parse is the meaning of that line: one argument per closed argument, a quote that opens inside a word continuing it and one that closes ending it, or the unclosed quote error |
| Parser.RoundTrip | text/parser/parser.go:27-83 | any list of words, each bare, quoted or escaped as suits it, parses back to the texts written, as they were exactly when they are ASCII |
| Parser.EscapedRoundTrip | text/parser/parser.go:27-83 | a backslash before every byte and an empty quoted pair after each argument is a total printer: every list of texts comes back, unchanged exactly when ASCII |
| Parser.UncleanConcatenation | api/api.go:57 | for every text without outer white space that does not end cleanly, a message for which the law fails |
| TokenText.FollowsExactly | api/api.go:57 | for every text whose trimmed form ends cleanly and every message, the joined parse is the text's arguments followed by the message's, failing with the message, exactly when one of them is blank, the message does not parse, or all white space between their trimmed forms is separators |
| TokenText.TextKeepsLaw | api/api.go:57 | a text without outer white space keeps the law for all messages that start with nothing but separators exactly when it ends with no open quote, dangling backslash or pending escaped word |
| TokenText.NewlineIsKept | api/api.go:57 | a text that ends cleanly and a message starting with a newline for which the law fails |
| Bytes.TrimJoined | text/parser/parser.go:18-25 | trimming a text, a space and a text keeps what is trimmed off inside and drops it at the outer ends, for every kind of white space |
| Bytes.TrimSpaceTrims | text/parser/parser.go:18-25 | TrimSpace leaves no white space of any width at either end, and leaves alone exactly the texts without any |
| Bytes.LeadingSpaceIsRune | text/parser/parser.go:18-25 | a text starts with white space exactly when it starts with the UTF-8 form of a code point that Unicode calls white space |
| Bytes.TrailingSpaceIsRune | text/parser/parser.go:18-25 | the same for the end of a text |
| JobLogs.ReplayIsPerJob | persistence/logs/local/logs.go:27-65 | for any interleaving of writes to any jobs, a job's log is its own non-empty lines in order and its own last error |
| JobLogs.LinesInOrder | persistence/logs/local/logs.go:27-46 | the lines of a job's log are the contents of all its non-empty writes, each from a write of its own, in their order |
| JobLogs.LastErrorWins | persistence/logs/local/logs.go:49-65 | a job's log has no error exactly when none was set for it, and otherwise the one set last |
| JobLogs.FirstAndLast | persistence/logs/local/logs.go:95-138 | the first and the last n lines: as many as asked for or all, from either end |
| JobLogs.JoinExactly | persistence/logs/local/logs.go:70-138 | every line stands whole in the output, right after the newline of the one before, and the last ends it |
| JobLogs.HeadAndTailPartition | persistence/logs/local/logs.go:95-138 | with no error recorded, the output of Head(k), a newline and the output of Tail(len-k) make up the output of Get, for every k |
| JobLogs.TopIsComplete | persistence/logs/local/logs.go:70-115 | Get and Head miss lines exactly when an error is recorded and there are at least 0x6572726F72000000 lines (for Head: asked for) |
| JobLogs.TailIsComplete | persistence/logs/local/logs.go:118-138 | the exact condition under which Tail returns the last lines, and that with an error it returns none |
| JobLogs.TailOutputOnError | persistence/logs/local/logs.go:118-138 | with an error recorded the output of Tail is empty, right only when no line was there or asked for |
| Logs.ErrorKeyOrder | persistence/logs/local/logs.go:140-141 | where the key "error" falls among the line keys, for every line number |
| Logs.CursorWalks | persistence/logs/local/logs.go:73-82 | the path of a cursor through a job's bucket: its lines in order with the error bucket in its place |
| Logs.Store.Append | persistence/logs/local/logs.go:27-46 | the new history: one line added to the job's, its error kept; an empty content changes nothing |
| Logs.Store.SetError | persistence/logs/local/logs.go:49-65 | the new history: the job's error replaced, its lines kept; a nil error changes nothing |
| Logs.Store.Get | persistence/logs/local/logs.go:70-92 | the error recorded last, or the empty text, and all lines a forward walk yields; or that the job has no logs |
| Logs.Store.Head | persistence/logs/local/logs.go:95-115 | the error recorded last, or the empty text, and the first lines |
| Logs.Store.Tail | persistence/logs/local/logs.go:118-138 | the error recorded last, or the empty text, and the last lines a backward walk yields |
| Aliases.UsersApart | persistence/aliases/aliases.go:41-140 | under every sequence of operations a user's aliases are what that user's operations alone make them |
| Aliases.ApplyExactly | persistence/aliases/aliases.go:41-81 | which operations are refused and with which error, and what the others put in or take out |
| Aliases.AliasesApart | persistence/aliases/aliases.go:41-140 | what one alias stands for depends on the operations on that alias of that user alone, refused ones included |
| Aliases.CreateRemove | persistence/aliases/aliases.go:41-81 | creating a new alias and later removing it comes to nothing, whatever happens to other aliases in between |
| Aliases.EmptyBucketUnseen | persistence/aliases/aliases.go:125-131 | creating a user's empty bucket cannot be observed |
| Aliases.DeleteRefines | persistence/aliases/aliases.go:60-81 | deleting the alias, and dropping the bucket when it was the last, both amount to removing one pair |
| Aliases.Store.Create | persistence/aliases/aliases.go:41-58 | the new table and exactly when each error is returned; anything but success changes nothing |
| Aliases.Store.Remove | persistence/aliases/aliases.go:60-81 | the new table and exactly when each error is returned; a missing alias is an error and rolls back |
| Aliases.Store.Get | persistence/aliases/aliases.go:104-122 | the alias's command and arguments, or why not; the table is unchanged |
| Aliases.Store.List | persistence/aliases/aliases.go:83-102 | exactly the user's aliases, by ascending name |
| Commands.Registry.ValidateAll | commands/commands.go:63-102 | succeeds exactly for acceptable calls, and otherwise reports the header's fault or that of the first bad registration |
| Commands.HeaderFaultExactly | commands/commands.go:63-80 | which kinds and actions of a call are refused, and how |
| Commands.FaultExactly | commands/commands.go:63-102 | for every registry, kind, action and registration, exactly when each error is drawn and when none is |
| Commands.AcceptedExactly | commands/commands.go:63-102 | which calls are accepted: local commands and builtins register, also again, unless the name is held by another kind; remote ones only under free names; only what is there with the same kind can be unregistered |
| Commands.Registry.RegisterCommands | commands/commands.go:134-141 | the registrations of the call added in order, the last of a name winning |
| Commands.Registry.UnregisterCommands | commands/commands.go:117-132 | all local commands, the named remote ones, or no builtin removed |
| Commands.Registry.Register | commands/commands.go:161-172 | a rejected call changes nothing, an accepted one has its whole effect |
| Commands.RegisterExactly | commands/commands.go:104-141 | after an accepted registration each name has the last command given for it, and everything else is as before, but for local commands when local ones were given |
| Commands.UnregisterExactly | commands/commands.go:104-132 | an accepted unregistration leaves all but every local command, or the named remote ones, and changes none that stays |
| Commands.RegisterKeeps | commands/commands.go:63-141 | no call lets in a blank name, changes the kind of a name that stays, or loses a builtin |
| Commands.RegisterRun | commands/commands.go:161-172 | over every sequence of calls from an empty registry, names are never blank and builtins never leave |
| Commands.LocalReload | commands/commands.go:104-141 | a reload is accepted whenever every name is non-blank, given a command and not held by another kind; it makes the local commands exactly the new ones, the last given for each name, keeps all others, and is accepted again without effect |
| Commands.Registry.Find | commands/commands.go:178-198 | the command found and the request as rewritten, from registry and aliases, also when the alias lookup fails |
| Commands.FindOneLevel | commands/commands.go:178-198 | over all registrations from an empty registry and all alias operations: a registered alias target runs with the alias's arguments first, even when its name is an alias too; otherwise the request is untouched and its own name decides |
| Commands.FindOwnAliasOnly | commands/commands.go:178-198 | of all alias operations by anyone, a request depends on those on its own name by its own user |
| Commands.TargetNotFollowed | commands/commands.go:178-198 | whatever is done to aliases of any other name, the target's included, changes nothing for a request |
| Auth.Authorizer.Configure | auth/auth.go:140-156 | membership is exactly the configured one, nothing of an earlier configuration left |
| Auth.Authorizer.CheckUserInGroup | auth/auth.go:159-168 | nil exactly for members; the error tells a missing group from a missing member |
| Auth.Authorizer.Check | auth/auth.go:70-127 | the user strategy decides first: "any" lets everyone through, "group" the members of the command's groups, any other nobody; then "im_only" and "channel" refuse with their own errors, and unknown channel strategies do not |
| Auth.RefusedExactly | auth/auth.go:70-127 | from the strategies, the groups and the request: exactly when each of the three errors is returned, and when none is |

## Left out

- Bolt itself: a bucket is an ordered map with a sequence, a cursor a walk over the keys present when it was made. For `failRunningJobs` this assumes that deleting during the walk skips no key. Limits on key and value size and errors of the disk are one outcome, a transaction that does not commit.
- JSON encoding of jobs, aliases and tokens is taken to be faithful; a stored job or alias is its value.
- JobTable.CreateKeeps: says what happens when the 64-bit sequence is exhausted; the executor's step that commits a new job is enabled only before that, and the log readers take fewer than 2^64 - 1 lines of one job.
- `persistence/tokens/tokens.go`: a map and an ascending copy of the `find` loop.
- Slack, HTTP and its API handlers, gRPC transport, TLS, process execution, metrics, message templates and help text.
- Other builtins than cancel and kill, and the parsing of their arguments; the jobs command's flags.
- ExecutorRequests.ShutdownDrained: covers the moment Wait returns; requests accepted between Wait and the close of the channel, whose send would panic, are not modelled as a step.
- A panic inside a command's Execute, and cancelling a job that is still queued, which is a no-op.
- `Dispatcher.Server` runs one turn of Run or one goroutine at a time; interleaving inside them, and crashes, are in the step system only.
- RemoteServer.Server.FinishJob: leaves a call without a receiver where it blocks; that every remote job is finished in the end is not claimed, and is not so when Execute gave up first.
- Closing an agent's pipe, which two places do; the end of a stream is one step. Sending a request down the pipe is not a step either.
- Timeouts: the agent sends nanoseconds and the server reads them as seconds (`remote/agent/agent_config.go:82`, `remote/server/command_pipeline.go:137`).
- A `Finish` call of the agent that does not reach the server; the agent's stream loop with its back-off, and `Reset` of the registry, which only tests use.
- Reopening the database in `db.Configure`, and `GetGroups` and `IsKnownUser` as operations.
- PipelineRuns.FinishAcceptedOnce: its statement about IDs started once takes that from elsewhere; `RemoteJobs.FinishOfTaskOnce` does without.
