# Verified model of the debug gateway

The gateway shares one target console between a human and an AI. A coordinator serializes every
change of a board's session behind one lock: reader chunks, prompt and authentication timers,
timeout ticks, human operations and AI operations. This project models that coordinator and the
small exact machines around it, and proves what they promise over every input and every run.

| file | what it models |
|---|---|
| `Basics.dfy` | options, bytes, decimal numerals |
| `Ring.dfy` | the bounded transcript ring, as an array that agrees with an append-only log |
| `Telnet.dfy` | the NVT filter and escaper (RFC 854, section "TELNET COMMAND STRUCTURE"; subnegotiation framing of RFC 855) |
| `Validate.dfy`, `Marker.dfy` | the managed-command lexer and the completion marker |
| `Session.dfy`, `Secret.dfy`, `Command.dfy` | the session machine, the redaction window, the proposal and transaction store |
| `Protocol.dfy` | an observer that says which action of the gateway may follow which trace, and what lawful traces have in common |
| `GatewayModel.dfy` | every critical section of the coordinator as a function on its state; runs as sequences of them |
| `GatewayEffects.dfy` | what each section must do, field by field, in every state or run |
| the other `Gateway*.dfy` | invariants of every step, lifted to every run |
| `Coordinator.dfy` | the coordinator as a class; each method takes exactly the step the model gives it |
| `OpenSet.dfy` | the durable open-transaction set, its effects one by one, crashes between any two of them |
| `ShellPolicy.dfy`, `BoardPolicy.dfy` | the shell-line walk, the board rule merge, the denylist |

A run is any sequence of critical sections the environment can produce. Read chunks, clock
readings, write failures, timer callbacks and minted identifiers are inputs of the steps;
identifiers are assumed new, and nonces and transaction identifiers well formed. Configured
patterns are arbitrary predicates on byte strings. A timer is a token with the generation it was
armed with, and a stopped timer may still fire. What the gateway writes and decides goes to a
history, and the observer in `Protocol.dfy` judges that history.

## Properties that hold only under a condition

- **A transaction is active exactly while the session runs a command.** `EndSession` releases the
  lock between waiting for the reader and its last section, and `Stop` finishes the transaction
  without leaving the running state. `GatewayExclusive.GapPartsThem` gives a run that breaks the
  property; `GatewayExclusive.StepExclusive` proves that a step keeps it if and only if it is not
  a stop or such a last section meeting an active transaction.
- **The exit status is recovered.** The marker pattern has no terminator, so digits that arrive in
  a later read are missed. `Marker.SplitStatusExample` reads 13 off a split 137;
  `Marker.SplitStatusRecoveredIff` proves for any text in front, the echoed command line included,
  that the status is recovered if and only if all its digits had arrived or an earlier line gave it.
- **At most one result record per transaction over all lifetimes.** A crash between a record and
  the replacement of the file leaves a stale entry that recovery records again;
  `OpenTransactions.TwoRecordsForOneAdd` gives such a life. For a transaction added once,
  `OpenTransactions.AtMostOneRecordIff` proves that the records written and due are at most one if
  and only if no crash struck while its entry was stale; within one lifetime there is always at
  most one (`OpenTransactions.AtMostOneRecord`).

The comment on the `EndSession` function says the stream is guaranteed to be gone when it returns;
the code allows a new session to start before its last section, and the model follows the code.

## Model

| member | source | states |
|---|---|---|
| `GatewayLedger.RunConserved` | internal/gateway/coordinator.go:396-465 | in every run approved proposals and transactions are in bijection with equal text, and transactions are the disjoint union of those with a result and the active one |
| `GatewayLedger.StepBooks` | internal/gateway/coordinator.go:1017-1038 | every critical section keeps the books in that order |
| `GatewayTrace.RunRefinesProtocol` | internal/gateway/coordinator.go:225-1104 | every run's trace is allowed throughout by the observer, whose summary equals the coordinator's fields |
| `GatewayTrace.RunGuarantees` | internal/gateway/coordinator.go:432-465 | for any two actions of any run: resynchronisation after a timeout, serial execution, one line and one result per transaction, silence under an open window, a fresh identifier per stream |
| `GatewayTrace.RunNudgesBounded` | internal/gateway/coordinator.go:897-968 | between two counter resets no run writes more newlines than the limit, each while authenticating with no shell prompt on the tail |
| `GatewayTrace.RunSecretPersists` | internal/gateway/coordinator.go:805-821 | a coordinator's open window is still open at any later point of the run unless a prompt was confirmed, the human ended it or a reboot was confirmed in between |
| `GatewayTrace.RunSidStable` | internal/core/session/state.go:75-117 | a coordinator's session identifier still stands at any later point of the run unless a stream was opened in between |
| `GatewayTrace.RunPromptlessTimeout` | internal/gateway/coordinator.go:1098-1103 | after a timeout with no shell prompt to recognise only a confirmed reboot or a new stream lets a command line follow |
| `GatewayTrace.TimeoutHangsUp` | internal/gateway/coordinator.go:1090-1103 | such a timeout interrupts, records its result and closes the stream, in this order and in one step |
| `GatewayTrace.RunAIDisabledAfterTimeout` | internal/gateway/coordinator.go:672-687 | the AI is not reported enabled between a timeout and a confirmed prompt, confirmed reboot or new stream |
| `GatewayTrace.RunAIDisabledWhileSecret` | internal/gateway/coordinator.go:672-687 | the AI is not reported enabled while a window is open |
| `GatewayTrace.RunRebootEvidence` | internal/gateway/coordinator.go:788-803 | each target-rebooted result directly follows a login or password prompt on a stream that showed a matched boot banner while ready or running, with no completed marker, confirmed prompt or transport reset between banner and prompt; a reboot is acted upon directly after such a prompt, or such a prompt and the result |
| `GatewayTrace.RunTimeoutNotEarly` | internal/gateway/coordinator.go:1079-1104 | in every run a timeout is recorded no earlier than the deadline set last since its line: the one written with it or that of a window opened meanwhile |
| `GatewayTrace.RunWritesApprovedText` | internal/gateway/coordinator.go:445-465 | every command line ever written, in vain or not, is a recorded transaction's approved text with its own marker's suffix and one line feed, due its timeout after approval |
| `GatewayTrace.RunActiveLine` | internal/gateway/coordinator.go:445-465 | while a transaction is active its line is the last one written and unanswered |
| `GatewayTrace.RunKeepsTransactions` | internal/core/command/store.go:189-218 | no transaction is forgotten or changed in a continuation of a run |
| `GatewayResults.RunKeepsResults` | internal/core/command/store.go:253-267 | no stored result vanishes or changes in a continuation of a run |
| `GatewayResults.RunSound` | internal/gateway/coordinator.go:1017-1038 | in every run results are exactly attributed, intervals disjoint, waiters in order and the ring redacted |
| `GatewayResults.RunExitCodes` | internal/gateway/coordinator.go:982-996 | a result has an exit code iff completed, and then its own identifier, nonce and those digits stand in the first 65536 retained bytes of its own interval |
| `GatewayStatus.ChunkCompletesIff` | internal/gateway/coordinator.go:823-828 | a chunk that reaches marker matching completes the transaction iff its marker is found in the visible output, then with that status |
| `GatewayStatus.RunPrintedStatusCompletes` | internal/gateway/coordinator.go:982-996 | in every run a marker line printed on a line of its own, with a non-digit after the status and no own match before it, completes the transaction with exactly that status |
| `GatewayStatus.RunEchoedStatusCompletes` | internal/gateway/coordinator.go:448-457 | the same with the echoed command line in front of the output |
| `GatewayStatus.RunEchoNeverCompletes` | internal/gateway/coordinator.go:448-457 | in every run no chunk completes a transaction of which no more than the echoed line is visible |
| `GatewayEffects.RunTimesOutIff` | internal/gateway/coordinator.go:1084-1104 | in every run and configuration a tick at or past the deadline interrupts, records the timeout result, owes a resync, makes a running session ready and closes a promptless stream, in that order; any other tick changes nothing |
| `GatewayEffects.RunConfirmedPrompt` | internal/gateway/coordinator.go:874-893 | in every run the confirmation armed last makes an authenticating session ready, closes the window and clears resync, suspicion and line, so that with a stream and nothing active a command can start; any other is spent without effect |
| `GatewayEffects.ChunkOpensWindowIff` | internal/gateway/coordinator.go:805-821 | unless a reboot is confirmed, the window stands after a chunk iff it stood or the line asks for a secret; opening it moves the active deadline to the grace period, clears the line and does nothing else |
| `GatewayEffects.RunSecretPromptRedacts` | internal/gateway/coordinator.go:733-748 | in every run, after a chunk whose line asks for a secret, only the length of the next chunk enters the ring |
| `GatewayEffects.RunRedactsWhileOpen` | internal/gateway/coordinator.go:733-748 | from an open window on, until something closes it, the ring of a run grows by the placeholders of the chunks read and nothing else |
| `GatewayEffects.ArrivalDoes` | internal/gateway/coordinator.go:771-796 | a chunk extends the line, outdates pending confirmations and raises the suspicion of a reboot iff line and chunk together show a boot banner while ready or running |
| `GatewayEffects.ChunkReboots` | internal/gateway/coordinator.go:788-803 | a login or password prompt under suspicion ends the active command as rebooted, expires the session's proposals, authenticates anew with window, resync and suspicion clear, and answers the login prompt |
| `GatewayEffects.ChunkWhileAuthenticating` | internal/gateway/coordinator.go:970-980 | the first login prompt is answered with the user name iff there is one at the line end, and the nudge timer is set anew iff nudges are left |
| `GatewayEffects.ChunkWhileRunning` | internal/gateway/coordinator.go:982-996 | a visible marker completes the command with its status, makes the session ready and refutes a suspected reboot; without one only the line changes |
| `GatewayEffects.ChunkArmsPromptIff` | internal/gateway/coordinator.go:860-869 | a chunk that neither reboots nor opens the window arms a confirmation on the line it leaves iff that line ends in a shell prompt |
| `GatewayEffects.ChunkOtherwise` | internal/gateway/coordinator.go:812-830 | under an open window, or with nothing to authenticate or complete, a chunk does nothing but extend the line and arm a confirmation |
| `GatewayEffects.NudgeTimerDoes` | internal/gateway/coordinator.go:944-968 | the nudge timer armed last writes and counts a newline iff authenticating on a stream with no window and no shell prompt, and is armed anew while nudges are left; any other does nothing |
| `GatewayEffects.ReadErrorDoes` | internal/gateway/coordinator.go:1046-1063 | an error of the current stream ends the active command as disconnected, expires the session's proposals and leaves the session reconnecting; one of a former stream does nothing |
| `GatewayEffects.TakeoverDoes` | internal/gateway/coordinator.go:533-544 | a takeover stores the interrupted result and makes a running session ready; with nothing active it does nothing |
| `GatewayEffects.ReadyDoes` | internal/gateway/coordinator.go:470-478 | an authenticating session becomes ready and nothing else changes; in any other state nothing does |
| `GatewayEffects.BeginSecretDoes` | internal/gateway/coordinator.go:549-556 | the human opens the same window as a prompt, with the same grace period, but keeps the line |
| `GatewayEffects.EndSecretDoes` | internal/gateway/coordinator.go:561-570 | the window closes; an authenticating session becomes ready with fresh nudging, any other keeps its state |
| `GatewayEffects.StopDoes` | internal/gateway/coordinator.go:225-237 | a stop stores the daemon-restarted result, closes the stream and outdates confirmations and nudges, leaving session and window |
| `GatewayEffects.ShutdownDoes` | internal/gateway/coordinator.go:623-625 | the last section of ending a session leaves it disconnected under its identifier and changes nothing else |
| `GatewayEffects.ApproveDoes` | internal/gateway/coordinator.go:396-465 | in a startable session a pending proposal that is not overdue starts exactly its transaction, an overdue one expires and starts nothing, any other starts nothing; in any other session nothing changes |
| `GatewayEffects.RunOverdueApproval` | internal/core/command/store.go:200-203 | in every run an approval later than five minutes after the proposal expires it and makes, writes and starts nothing |
| `GatewayEffects.RunTimelyApproval` | internal/gateway/coordinator.go:445-465 | in every run an approval within five minutes makes one transaction and writes its line; a failed write ends it as disconnected |
| `GatewayLedger.RunApprovedInTime` | internal/core/command/store.go:189-218 | in every run each transaction was approved within five minutes of its proposal's creation |
| `GatewayEffects.ProposalRuns` | internal/gateway/coordinator.go:380-407 | what was proposed is the text that an approval in time runs |
| `GatewayEffects.EditRuns` | internal/core/command/store.go:133-168 | after an edit the new proposal runs the new text with the old terms, and the old one starts nothing |
| `GatewayEffects.RejectedStartsNothing` | internal/core/command/store.go:171-184 | approving a rejected proposal starts nothing |
| `GatewayEffects.DiagnoseDoes` | internal/gateway/coordinator.go:411-430 | a diagnostic command of a startable session starts at once or, if overdue, not at all, and leaves no pending proposal; otherwise nothing changes |
| `GatewayEffects.RegisterDoes` | internal/gateway/coordinator.go:494-512 | a call for an unfinished transaction joins its waiter or opens one, unless that would be the 1025th; otherwise nothing changes |
| `GatewayPrompt.TailIs` | internal/gateway/coordinator.go:836-847 | the tail is the longest end of those bytes that holds no line break and at most 1024 bytes |
| `GatewayResults.BlockedOnFinished` | internal/gateway/coordinator.go:488-528 | a call still blocked on a finished transaction holds a closed channel |
| `GatewayResults.ResultWakes` | internal/gateway/coordinator.go:1032-1037 | storing a result wakes exactly the calls waiting for it and keeps every other waiter counted |
| `GatewayResults.CancelOrderly` | internal/gateway/coordinator.go:517-527 | a cancelled call releases its reference and the registry stays exact |
| `GatewayResults.RunsIndistinguishable` | internal/gateway/coordinator.go:726-757 | two runs with equal clear chunks, windows and redacted lengths leave identical rings |
| `GatewayJobs.StepJob` | internal/gateway/coordinator.go:225-1104 | every section leaves the active transaction alone, begins one, ends it, or begins and ends one, and nothing else happens to results, waiters or intervals |
| `GatewayControl.StepControl` | internal/gateway/coordinator.go:245-358 | every section keeps the session lineage, the nudge generation argument and the agreement with the observer |
| `GatewayControl.RunControl` | internal/core/session/state.go:75-136 | in every run reconnecting implies no stream, and no stream implies disconnected or reconnecting |
| `GatewayPrompt.TailAdvances` | internal/gateway/coordinator.go:836-847 | the line tail is the last 1024 bytes after the last break of all bytes fed, however reads split them |
| `GatewayPrompt.RunPromptBelief` | internal/gateway/coordinator.go:874-893 | a confirmation restores the shell (an authenticating session ready, window, resync, suspicion and line clear) iff it is the one armed last, then on the very tail it was armed on, with no chunk handled since |
| `GatewayProposals.DecidedForever` | internal/core/command/store.go:171-233 | a proposal that left the pending state keeps its state in every continuation of the run |
| `GatewayProposals.LostProposalNeverApproved` | internal/gateway/coordinator.go:998-1063 | a proposal pending under the current session at a loss or confirmed reboot is expired ever after and no transaction is made of it |
| `GatewayExclusive.StepExclusive` | internal/gateway/coordinator.go:225-237 | a step keeps "active iff running" iff it is no stop or shutdown meeting an active transaction |
| `GatewayExclusive.RunExclusive` | internal/gateway/coordinator.go:432-465 | a run without such a step always has a transaction active iff the session is running a command |
| `GatewayExclusive.RunAIEnabledIff` | internal/gateway/coordinator.go:669-687 | in such a run the AI is reported enabled iff a command could start this moment or one is running with no window open |
| `GatewayExclusive.NothingActiveWithoutStream` | internal/gateway/coordinator.go:608-627 | in such a run nothing is active once the stream is gone, so ending a session meets nothing |
| `GatewayExclusive.GapPartsThem` | internal/gateway/coordinator.go:619-625 | a start and command in the gap of an ending session leave a transaction active while disconnected |
| `Protocol.TimeoutThenResync` | internal/gateway/coordinator.go:1084-1104 | after a timeout no command line is written before a confirmed prompt, confirmed reboot or new stream |
| `Protocol.TimeoutNotEarly` | internal/gateway/coordinator.go:1084-1089 | the same from the trace alone |
| `Protocol.CommandLinesSerial` | internal/gateway/coordinator.go:432-465 | between two command lines the first one's result is recorded |
| `Protocol.WrittenOnce` | internal/gateway/coordinator.go:445-465 | no transaction's line is written twice |
| `Protocol.FinishedWasWritten` | internal/gateway/coordinator.go:1017-1038 | every result answers an earlier line of the same transaction |
| `Protocol.FinishedOnce` | internal/core/command/store.go:253-267 | no transaction gets two results |
| `Protocol.SecretPersists` | internal/gateway/coordinator.go:805-821 | an open window closes only by a confirmed prompt, the human's secret-done or a confirmed reboot |
| `Protocol.SilentWhileSecret` | internal/gateway/coordinator.go:923-980 | while a window is open no command line, username or nudge is written |
| `Protocol.NudgesBounded` | internal/gateway/coordinator.go:944-968 | nudges between resets stay within the limit, each while authenticating with no shell prompt on the tail |
| `Protocol.RebootHasEvidence` | internal/gateway/coordinator.go:788-803 | the same from the trace alone |
| `Protocol.SessionsDistinct` | internal/core/session/state.go:126-136 | every stream gets a session identifier no earlier one had, and only after the last stream was lost |
| `Protocol.SidStable` | internal/core/session/state.go:75-117 | nothing but a start or retry changes the session identifier |
| `Coordination.Coordinator.Perform` | internal/gateway/coordinator.go:225-1104 | whatever section runs, the object takes exactly one step of the model |
| `Coordination.Drive` | internal/gateway/coordinator.go:209-222 | a coordinator put through any possible run is in the state the model gives that run |
| `Coordination.Coordinator.Start` | internal/gateway/coordinator.go:245-284 | whole new state of a start; refused iff a stream is present |
| `Coordination.Coordinator.Retry` | internal/gateway/coordinator.go:331-353 | whole new state of a retry; refused iff no longer reconnecting |
| `GatewayControl.RetryInstallsIff` | internal/gateway/coordinator.go:313-353 | a retry in a reconnecting session, so one whose first section let it pass, finds no stream and installs the new one under a fresh identifier; otherwise nothing changes |
| `GatewayControl.StartInstallsIff` | internal/gateway/coordinator.go:245-284 | a start installs its stream under a fresh identifier iff there is none, dangling reconnect or not; former nudges are outdated and a new one is armed unless authenticated or under a window |
| `Coordination.Coordinator.InstallStream` | internal/gateway/coordinator.go:259-268 | a new stream resets login, resync and prompt state and rotates the session |
| `Coordination.Coordinator.Stop` | internal/gateway/coordinator.go:225-237 | whole new state of a stop, which ends the transaction, closes the stream and resets prompt state |
| `Coordination.Coordinator.Shutdown` | internal/gateway/coordinator.go:623-625 | the last section of ending a session |
| `Coordination.Coordinator.Propose` | internal/gateway/coordinator.go:380-391 | a proposal is stored iff its text is managed |
| `Coordination.Coordinator.Edit` | internal/gateway/coordinator.go:581-585 | an edit replaces a pending proposal iff the text is managed |
| `Coordination.Coordinator.Reject` | internal/gateway/coordinator.go:573-577 | rejects iff pending |
| `Coordination.Coordinator.CanStart` | internal/gateway/coordinator.go:432-443 | accepts exactly the states in which a command may start |
| `Coordination.Coordinator.Approve` | internal/gateway/coordinator.go:396-407 | succeeds iff startable, approvable and written; whole new state otherwise too |
| `Coordination.Coordinator.DiagnoseStart` | internal/gateway/coordinator.go:411-430 | proposal, approval and start in one step, or rejection |
| `Coordination.Coordinator.StartTransaction` | internal/gateway/coordinator.go:445-465 | installs the transaction and writes its line; a failed write ends it as disconnected |
| `Coordination.Coordinator.ConfirmSessionReady` | internal/gateway/coordinator.go:470-478 | acts iff authenticating |
| `Coordination.Coordinator.Takeover` | internal/gateway/coordinator.go:533-544 | ends the active transaction as interrupted |
| `Coordination.Coordinator.BeginSecret` | internal/gateway/coordinator.go:549-556 | opens the window and moves the active deadline to the grace period |
| `Coordination.Coordinator.EndSecret` | internal/gateway/coordinator.go:561-570 | closes the window and, while authenticating, resets nudging and becomes ready |
| `Coordination.Coordinator.AIEnabled` | internal/gateway/coordinator.go:672-687 | decides the model predicate that the three results about it speak of |
| `Coordination.Coordinator.ReadChunk` | internal/gateway/coordinator.go:733-748 | the ring grows by the chunk filtered under the window as sampled |
| `Coordination.Coordinator.OnData` | internal/gateway/coordinator.go:771-830 | whole new state after a chunk |
| `Coordination.Coordinator.AdvanceTail` | internal/gateway/coordinator.go:836-847 | the searching and copying form computes the tail function |
| `Coordination.LastBreak` | internal/gateway/coordinator.go:838-838 | finds the last line break, or reports that there is none |
| `Coordination.MatchesSecretPrompt` | internal/gateway/coordinator.go:116-126 | the loop finds a match iff some configured pattern matches |
| `Coordination.Coordinator.AuthPromptAtLineEnd` | internal/gateway/coordinator.go:849-855 | iff a login or password pattern matches the tail |
| `Coordination.Coordinator.ArmPromptConfirm` | internal/gateway/coordinator.go:860-869 | arms a confirmation of the current generation on the current tail |
| `Coordination.Coordinator.ConfirmShellPrompt` | internal/gateway/coordinator.go:874-893 | whole new state when a confirmation fires |
| `Coordination.Coordinator.ResetPromptState` | internal/gateway/coordinator.go:897-907 | invalidates pending confirmations and nudges and clears the tail |
| `Coordination.Coordinator.ArmAuthRetry` | internal/gateway/coordinator.go:923-937 | arms a nudge of a new generation iff a stream is open, no window is and the limit is not reached |
| `Coordination.Coordinator.RetryAuth` | internal/gateway/coordinator.go:944-968 | whole new state when a nudge timer fires |
| `Coordination.Coordinator.HandleAuthenticating` | internal/gateway/coordinator.go:970-980 | answers a login prompt once and re-arms the nudge |
| `Coordination.Coordinator.HandleMarker` | internal/gateway/coordinator.go:982-996 | completes the transaction iff its marker is found in the first 65536 retained bytes of its output |
| `Coordination.Coordinator.HandleTargetReboot` | internal/gateway/coordinator.go:998-1011 | whole new state of a confirmed reboot |
| `Coordination.Coordinator.FinishActiveLocked` | internal/gateway/coordinator.go:1017-1038 | stores the result, wakes the waiters and clears the active transaction, if there is one |
| `Coordination.Coordinator.OnReadError` | internal/gateway/coordinator.go:1046-1063 | whole new state of a transport loss; a stale reader changes nothing |
| `Coordination.Coordinator.CheckTimeout` | internal/gateway/coordinator.go:1084-1104 | past the deadline: interrupt, timeout result, resync pending, and the stream closed if no shell prompt is configured |
| `Coordination.Coordinator.WaitRegister` | internal/gateway/coordinator.go:494-512 | result found, call counted on its waiter's channel, or registry full |
| `Coordination.Coordinator.WaitCancel` | internal/gateway/coordinator.go:517-527 | releases the reference iff the waiter is still the same one |
| `Transcript.Ring.Append` | internal/core/transcript/ring.go:42-76 | the retained part of the array agrees with the log grown by the data, wraps and oversized appends included |
| `Transcript.Ring.CopyWrapped` | internal/core/transcript/ring.go:50-75 | writes each byte at its position and disturbs no retained one |
| `Transcript.Ring.Len` | internal/core/transcript/ring.go:81-85 | the number of bytes ever appended |
| `Transcript.Ring.ReadAfter` | internal/core/transcript/ring.go:90-117 | the array read equals the read of the log |
| `Transcript.Ring.ReadRange` | internal/core/transcript/ring.go:122-138 | retained bytes in order, across the wrap |
| `Transcript.ReadLog` | internal/core/transcript/ring.go:90-117 | a slice of the log from `after`, or from the retained start with the gap flag, to the end or the limit |
| `Transcript.PollerReceivesLog` | internal/core/transcript/ring.go:42-138 | any interleaving of appends and reads gives a poller the log with exactly the reported gaps missing |
| `Transcript.GaplessPollerHoldsLog` | internal/core/transcript/ring.go:87-117 | a poller told of no gap has received the log up to its cursor |
| `Telnet.TelnetEndToEnd` | internal/transport/telnet/telnet.go:99-195 | any interleaving of escaped writes, negotiations, two-byte commands and subnegotiations, cut into reads anywhere, yields the application bytes and one refusal per DO or WILL |
| `Telnet.RefusalsAreSilent` | internal/transport/telnet/telnet.go:146-154 | refusals fed back yield no data and no refusals |
| `Telnet.DecodeConcat` | internal/transport/telnet/telnet.go:117-170 | the carried state makes decoding independent of where reads cut |
| `Telnet.DecodeEscaped` | internal/transport/telnet/telnet.go:175-187 | escaped bytes decode to themselves |
| `Telnet.Stream.Accept` | internal/transport/telnet/telnet.go:122-167 | one byte of the state machine |
| `Telnet.Stream.Filter` | internal/transport/telnet/telnet.go:120-170 | the buffer compacted in place holds the decoded data; mode and refusals follow |
| `Telnet.Stream.Read` | internal/transport/telnet/telnet.go:99-115 | returns data or an error, never an empty success, and hands over every refusal, whether or not it can be written |
| `Telnet.Stream.Write` | internal/transport/telnet/telnet.go:175-195 | hands the escaped bytes over in one raw write and counts all bytes as written, or none if that fails |
| `ManagedCommand.ValidateManaged` | internal/core/command/validate.go:24-84 | the skipping loop accepts exactly the managed texts |
| `ManagedCommand.JoinManaged` | internal/core/command/validate.go:24-84 | managed texts joined by "; " are managed |
| `ManagedCommand.ManagedMeans` | internal/core/command/validate.go:24-84 | managed iff one line, every quote closed and every unquoted, unescaped byte harmless where it stands |
| `ManagedCommand.QuotingRules` | internal/core/command/validate.go:24-84 | a backslash shields the next byte outside quotes and in double ones, not in single ones, and only the same quote ends a quotation |
| `Marker.LineManaged` | internal/gateway/marker.go:32-34 | a managed text with the marker suffix is again managed |
| `Marker.SuffixPrints` | internal/gateway/marker.go:32-34 | run by a shell, the suffix prints the marker's header and the exit status on a line of their own |
| `Marker.SuffixStatusRecovered` | internal/gateway/marker.go:32-53 | what the written line prints for a status completes it with that status, whatever the echo in front |
| `Marker.Find` | internal/gateway/marker.go:41-53 | the loop returns the first own match with a readable status |
| `Marker.SearchSound` | internal/gateway/marker.go:36-53 | a status is only read off this transaction's identifier and nonce |
| `Marker.ScanSplits` | internal/gateway/marker.go:36-53 | no match spans a line break: a search finds what the text before one holds, or else what follows it |
| `Marker.EchoNeverCompletes` | internal/gateway/marker.go:32-53 | the echo of the written line never completes it when the nonce is absent from the rest |
| `Marker.PrintedStatusRecovered` | internal/gateway/marker.go:32-53 | a printed status followed by a non-digit in the same scan is recovered, whatever stands before it, iff no earlier own match says otherwise |
| `Marker.EchoedStatusRecovered` | internal/gateway/marker.go:32-53 | it is recovered when the written line is echoed in front of it |
| `Marker.SplitStatusRecoveredIff` | internal/gateway/marker.go:36-36 | a status cut by the scan anywhere is recovered iff no digit was cut off, or an earlier line already gave it |
| `Marker.EchoedSplitRecoveredIff` | internal/gateway/marker.go:36-36 | with the echoed line in front, a cut status is recovered iff no digit was cut off |
| `Marker.SplitStatusExample` | internal/gateway/marker.go:36-36 | 137 cut after two digits reads as 13 |
| `Session.Machine.Apply` | internal/core/session/state.go:126-136 | moves as the table says or reports an error and changes nothing |
| `Session.IdRotatesIff` | internal/core/session/state.go:75-117 | the identifier rotates iff connecting from disconnected or retrying from reconnecting |
| `Session.AcceptedIff` | internal/core/session/state.go:75-117 | in which states each event is accepted, and in no other |
| `Session.EventDecidesState` | internal/core/session/state.go:75-117 | an accepted event leads to one state, from wherever it is accepted |
| `Secret.RedactionNonInterference` | internal/core/secret/window.go:60-65 | only the length of what is read under an open window reaches the ring |
| `Secret.PlaceholderTellsLength` | internal/core/secret/window.go:60-65 | a placeholder tells exactly the number of bytes it stands for |
| `Secret.Window.FilterTarget` | internal/core/secret/window.go:60-65 | the placeholder while open, the data otherwise |
| `Secret.Window.Begin` | internal/core/secret/window.go:32-36 | opens the window |
| `Secret.Window.Finish` | internal/core/secret/window.go:72-76 | closes the window |
| `Command.Store.Propose` | internal/core/command/store.go:104-128 | stores a pending proposal iff the text is managed |
| `Command.Store.Edit` | internal/core/command/store.go:133-168 | replaces a pending proposal by a new one |
| `Command.Store.Reject` | internal/core/command/store.go:171-184 | rejects iff pending |
| `Command.Store.Approve` | internal/core/command/store.go:189-218 | snapshots a pending, unexpired proposal into one transaction; an overdue one expires |
| `Command.Store.InvalidateSession` | internal/core/command/store.go:224-233 | expires exactly the pending proposals of the session |
| `Command.Store.CompleteTransaction` | internal/core/command/store.go:253-267 | stores a result iff the transaction exists and has none |
| `Command.ProposedMeans` | internal/core/command/store.go:104-128 | a managed text becomes a pending proposal with five minutes to be approved in; any other changes nothing |
| `Command.EditedMeans` | internal/core/command/store.go:133-168 | the new proposal carries the new text and its own five minutes, the old one's session and timeout and its name; the old one is replaced |
| `Command.ApprovedMeans` | internal/core/command/store.go:189-218 | in time one transaction with the proposal's own terms, too late an expired proposal and none; nothing else changes |
| `Command.InvalidatedMeans` | internal/core/command/store.go:224-233 | the pending proposals of the session expire and no other changes |
| `Command.LedgerApprove` | internal/core/command/store.go:189-218 | approval keeps proposals and transactions in bijection |
| `Command.LedgerEdit` | internal/core/command/store.go:133-168 | an edit keeps the ledger in order |
| `Command.LedgerInvalidate` | internal/core/command/store.go:224-233 | invalidation keeps the ledger in order |
| `Command.LedgerComplete` | internal/core/command/store.go:253-267 | completion keeps every result with its own transaction |
| `OpenTransactions.RunInv` | cmd/gatewayd/openset.go:52-116 | after any number of lifetimes cut off anywhere: nothing durable lost, entries backed by records, at most one record per claim |
| `OpenTransactions.NothingLostAtCrash` | cmd/gatewayd/openset.go:69-89 | wherever the daemon dies, each transaction ever in the file is loaded again or has a record |
| `OpenTransactions.EmptySetMeansAllRecorded` | cmd/gatewayd/openset.go:170-184 | once the set is empty every transaction ever in the file has a record |
| `OpenTransactions.AtMostOneRecord` | cmd/gatewayd/openset.go:69-89 | racing finalizers of one daemon write at most one record per add |
| `OpenTransactions.AtMostOneRecordEver` | cmd/gatewayd/openset.go:69-116 | over all lifetimes at most one record per add when no crash strikes a stale entry |
| `OpenTransactions.AtMostOneRecordIff` | cmd/gatewayd/openset.go:69-116 | for a transaction added at most once, the records written and still due over all lifetimes are at most one iff no crash struck its entry while stale |
| `OpenTransactions.StaleCrashRecordsAgain` | cmd/gatewayd/openset.go:176-184 | from any stale entry a crash and the next recovery write one more record without another add |
| `OpenTransactions.TwoRecordsForOneAdd` | cmd/gatewayd/openset.go:75-89 | a concrete life in which one add gets two records |
| `OpenTransactions.RecordsAttributed` | cmd/gatewayd/openset.go:16-21 | records, recovered ones included, name the session their transaction was added with |
| `OpenTransactions.OpenSet.Add` | cmd/gatewayd/openset.go:52-57 | the entry is in memory, and in the file iff saving succeeds |
| `OpenTransactions.OpenSet.Finalize` | cmd/gatewayd/openset.go:75-89 | whoever finds the entry writes the record, then removes it; a failed append leaves it |
| `OpenTransactions.OpenSet.Save` | cmd/gatewayd/openset.go:91-116 | the file is replaced whole or not at all |
| `OpenTransactions.OpenSet.Reconcile` | cmd/gatewayd/openset.go:158-168 | clears exactly the entries with a result whose record could be written, one record each |
| `OpenTransactions.OpenSet.Recover` | cmd/gatewayd/openset.go:176-184 | succeeds iff nothing fails, then leaves none open and one daemon-restarted record each |
| `ShellPolicy.EvaluateShellLine` | internal/policy/shellparse.go:23-104 | a line is allowed iff it has a call, no forbidden node occurs anywhere, every call is literal and allowed, and a board-added call stands alone |
| `ShellPolicy.Walker.Walk` | internal/policy/shellparse.go:35-96 | the walk with its early stops equals judging all nodes in order |
| `ShellPolicy.Walker.Visit` | internal/policy/shellparse.go:36-95 | what one node does to decision, call count and file-rule flag |
| `ShellPolicy.FirstDenial` | internal/policy/shellparse.go:35-96 | a denied line is denied for the first node that is not permitted |
| `ShellPolicy.PreorderIsTree` | internal/policy/shellparse.go:35-35 | the walk meets exactly the nodes of the tree |
| `ShellPolicy.LiteralArgv` | internal/policy/policy.go:37-62 | yields the unquoted words iff every part is literal |
| `ShellPolicy.LineAllowedMeans` | internal/policy/shellparse.go:23-104 | the same with every refused construct named |
| `ShellPolicy.WordTextConcat` | internal/policy/policy.go:37-62 | a word's text is its parts' texts one after the other |
| `ShellPolicy.OnePart` | internal/policy/policy.go:37-62 | the text of a literal or single-quoted part is its value, that of a double-quoted one the text of what it holds |
| `ShellPolicy.DollarIgnored` | internal/policy/policy.go:46-58 | a dollar sign in front of a quoted part makes no difference to the argument vector |
| `ShellPolicy.LinesShrink` | internal/policy/shellparse.go:15-18 | a stricter classifier allows fewer lines |
| `BoardPolicy.LoadFile` | internal/policy/file.go:37-103 | loads iff there is a base, the file is regular, owner-only and decodable, and its rules are complete, valid and not contradictory; then decides every vector as deny rules, base and allow rules say in that order |
| `BoardPolicy.MergedAllowsIff` | internal/policy/file.go:145-160 | allowed iff not denied and, where the base knows the executable, allowed by it, else an exact allow rule |
| `BoardPolicy.MergedLineWasAllowed` | internal/policy/file.go:35-36 | on lines naming only executables the base knows a board file only takes away |
| `BoardPolicy.BoardRuleStandsAlone` | internal/policy/shellparse.go:100-102 | a call the base does not know is the whole line, an exact rule, and never an ungrantable executable |
| `BoardPolicy.Materialize` | internal/policy/file.go:105-125 | fails iff some rule lacks its arguments |
| `BoardPolicy.AcceptableMeans` | internal/policy/file.go:71-196 | rules are acceptable iff every executable is a plain name, no argument holds a null byte, nothing ungrantable is allowed and nothing is both allowed and denied |
| `BoardPolicy.WrapAll` | internal/policy/file.go:90-101 | the two loops wrap each named executable exactly once around the base |
| `BoardPolicy.DenylistPolicy.ClassifyArgv` | internal/policy/denylist.go:100-124 | decides by hard rules, sensitive paths, denied executables, exact denials, in that order |
| `BoardPolicy.DenylistAllowsIff` | internal/policy/denylist.go:100-124 | allowed iff not hard-denied, not a denied executable, no exact denial and, unless all paths are allowed, without a sensitive argument |
| `BoardPolicy.DenyRulesDeny` | internal/policy/denylist.go:93-124 | an allowed line holds no call that a rule, the hard rules or a sensitive path denies |
| `BoardPolicy.UndeniedLineAllowed` | internal/policy/denylist.go:93-124 | a line of supported constructs whose literal calls nothing denies is allowed |
| `BoardPolicy.HardDeniedMeans` | internal/policy/denylist.go:11-47 | hard-denied iff an interpreter, an indirect runner or find with an executing option, each named |
| `BoardPolicy.IsHardDenied` | internal/policy/denylist.go:25-47 | iff an interpreter, an indirect runner or find with an executing option |
| `BoardPolicy.DenyRulesOnlyShrink` | internal/policy/denylist.go:77-98 | adding deny rules only takes lines away |
| `BoardPolicy.HardDeniedNeverAllowed` | internal/policy/denylist.go:11-47 | no rules and no place in a line let a hard-denied call through |

## Left out

- Wrap-around of the 64-bit ring total and generation counters: they are unbounded here.
- Concurrency below a critical section: sampling the window, filtering and appending are one step, though the code appends outside the lock.
- Several clock readings inside one section: a section has one reading, except that proposing and approving in `DiagnoseStart` have one each.
- What closing a stream does to its reader: the closing is recorded, and a read error may come at any time.
- Board name, purpose, advisory text and transport kind of proposals; none of them decides anything.
- Subscribers, `WriteHuman` and the human's keystrokes.
- `EndSession` up to its last section: it only closes the stream and waits, which shows as a read error.
- Termination of background goroutines and the lifetime of timers: a stopped timer may still fire, which only adds runs.
- The regular expression engine: configured patterns are arbitrary predicates; the marker pattern is written out.
- ShellPolicy.LiteralArgv: states what the source takes as the argument vector, not what a shell makes of it; escapes and translation in dollar-quoted parts are not interpreted, as in the source.
- The shell parser, comments in its tree, and the wording of decisions.
- The command tables and path cleaning of `internal/policy/common.go`: a validator per executable, a base-name function and a sensitive-path predicate are parameters.
- The JSON decoder and `LoadUnsafeShellFile`; a board file either decodes into rules or does not.
- OpenTransactions.OpenSet.Finalize: does not model a missing audit writer, with which the source removes the entry without a record; the daemon always passes a writer.
- Power loss and partial audit lines: a failed append leaves no complete record, and a completed rename survives.
- The legacy format of the open-set file and the wording of a result record.
- Serial and SSH transports, the IPC server and the command-line client.
