# Verification of the board controller

The controller routes commands of local clients to boards over TCP. Each board has one command in flight and a
bounded queue; a command is answered by whichever of six parties gets to it first: the board's response, its
execution timer, its residency cap, the loss of the board, a latched e-stop, or shutdown. This project models that
dispatcher as a protocol of atomic steps and proves what every interleaving of them keeps.

## How it is built

The dispatcher is asyncio code, so state changes only between suspension points, and one step is one run of code
between two of them. `Controller` is the specification: a value `Ctl` holding the tables as the source keys them
(pending entries, timers and resolved statuses by bare board seq) and one function per step. `ControllerCore` is the
same code in its own form, a class whose methods update those tables in place with the loops of the source; each
method is proved to take `State()` exactly where the specification function does. `System` adds one connection
manager per board (`board_connection.py`), which decides the legal order of connection steps, and defines runs: any
sequence of enabled events over any set of expected boards. Write completions, writes that raise, responses, timer
wake-ups, e-stop tasks, shutdown phases and the passing of time are separate events, so a command can be answered
while its own write is still suspended. A command is *answered* when its future is set. Whether somebody still awaits
that future is a question of its own: `System` also keeps in which write each call of `route_command` is suspended and
which calls a raising write has ended, and `Delivery` says which answers reach their caller.

| modules | content |
|---|---|
| `Controller`, `System`, `ControllerCore` | specification, runs, the class that refines it |
| `Accounts`, `Conservation`, `Steps`, `Resolvers`, `Loss`, `Distinct` | no command is lost or answered twice; exactly which step loses which |
| `Dispatching`, `Causes`, `Writes`, `Controls`, `Tallies` | what the events do, in plain arithmetic: dispatch, the cause of every answer, the circumstances of every write, timers, connections and e-stop sends, counters |
| `Delivery` | which answers reach the call that routed the command |
| `Collision`, `PerBoard` | the shortest runs in which things go wrong; the variant with one set of tables per board |
| `Outcomes`, `Correlation`, `Counting`, `ResolvedCache` | who is answered what; responses and leftovers; counters; the cache of resolved seqs |
| `Safety`, `SafetyRuns`, `Slots`, `Flight`, `Service`, `Stranded`, `Estop`, `Timing`, `Gates` | writes under e-stop and shutdown, queue bound, slots and timers, stuck boards, e-stop convergence, time bound, gate tables |
| `Protocol`, `SchemaGate` | the message contract: validation, seq rewriting, error replies, gate extraction |
| `ClientQueue`, `ObsQueue`, `Heartbeat`, `Backoff`, `Percentile` | the supporting cores, each a class with loops or fields as in the source |

## Main results

* In every run, over any boards, an accepted command is lost (neither answered nor queued nor pending) if and only if
  one of the steps so far forfeited it; every step forfeits at most one command, named before the step, however many
  were lost before. There are three kinds, each decidable before the step: a dispatch that stores under a board seq
  that is pending, a finished write whose own command is answered and that pops another entry under its seq, and a
  response whose reported processing time is an integer beyond the range of a double, which raises after its entry was
  taken out (`controller.py:376`, `controller.py:1353`) and leaves its command unanswered for good. The books
  (answered + queued + pending = taken in) balance if and only if no step forfeited.
* Every answer of every run has one of six causes, told in plain arithmetic from the states before and after: the
  board's response, relayed with the board's own status and code and the time since the write began; the command's own
  timer; its residency cap; the loss of its board; a trigger while it was queued; the fail phase of a shutdown. A board
  that is up and free takes the first queued command within its cap, and exactly those before it are answered as stale.
* Connection states, writers, ack flags, scheduled e-stop sends, the latch, the shutdown flag and the counters are in
  every run what the events say they are.
* In every run the answer to a command reaches the call that routed it if and only if the command is answered and no
  write that its own call began raised or is still suspended. While no response raised, the only write a call begins is
  its own command's, at once, on an idle board.
* If every accepted command gets a board seq that no live command has, live meaning queued, pending or being written,
  the first two kinds cannot happen. One expected board guarantees that. Two boards do not: both start at seq 1, and the
  second board's first command takes the first one's pending entry. With one set of tables per board the clause is not
  needed.
* A response that does not raise answers the command accepted under the seq it echoes, and nobody else except stale
  commands of the same queue. It need not come from that command's board; when nothing was lost it does if and only if
  its seq is the one in flight on the board it comes from. A response to a command already answered has an effect if
  and only if another command is pending under the same seq; with one board never.
* No queue ever exceeds its depth, in any run. While no response raised, a ready board with a free slot has an empty
  queue until shutdown. A command whose write raised keeps its board standing still until a response to its seq, the
  loss of the board, or the fail phase of a shutdown.
* No write of a gated command begins under the latch, none after shutdown began, none past its residency cap; board
  seqs written to a board strictly increase across reconnects.
* Bounded completion: with writes of at most W and punctual timers, a command is answered within
  (fifo depth + 1) * (W + 10 s), plus at most the teardown time T if its board's session broke off under it, unless the
  manager of that board was stopped before it could report that.

## Model

| member | source | states |
|---|---|---|
| Loss.NothingLostIffClean | controller.py:226-1162 | in every run the dispatcher is sound, and no accepted command is lost iff no step so far wrote over a pending key, popped another command's key, or took out an entry and raised |
| Loss.LostIffForfeited | controller.py:226-1162 | in every run an accepted command is neither answered nor queued nor pending iff one of the steps so far forfeited that very command |
| Loss.StepPreserves | controller.py:226-621 | each atomic step keeps tables and books sound, takes the place of the command it forfeits, if any, and of no other, whatever was lost before; it brings none back and never changes an answer given |
| Distinct.LiveSeqsLoseNothing | controller.py:1071-1119 | in runs whose accepted commands get board seqs no live command has, a command is lost iff a response raised on an entry it had taken out |
| Distinct.LiveNeverForfeits | controller.py:1047-1100 | the same of one step: with distinct live seqs only a raising response forfeits |
| Distinct.OneBoardLosesNothing | controller.py:154-157 | with one expected board every run is such a run |
| Distinct.ExactlyOnePlace | controller.py:344-354 | while no step forfeits, an accepted command is at every suspension point in exactly one of: answered, queued on its board, pending |
| Collision.TwoBoardsLose | controller.py:1071-1079 | for any two boards and any schema declaring a command, an eight-step run that loses a command because both boards use seq 1 |
| Collision.DemoRegisters | protocol.py:225-240 | a schema as these runs need exists |
| Collision.OneBoardCanLose | controller.py:376-411 | one board, one command, and the board's own valid response reporting 2^1024 microseconds: the command is lost |
| Collision.OversizedRaises | controller.py:1345-1353 | that response is valid and its reported time does not convert |
| Collision.StrangerAnswers | controller.py:356-359 | a response from one board answers the other board's only command |
| Collision.SeqsCoincide | controller.py:317-327 | a first command with client seq 1 gets board seq 1 |
| Delivery.DeliveredIff | controller.py:353-354 | in every run an answer reaches the call that routed the command iff the command is answered and no write that call began raised or is still suspended |
| Delivery.DeliveredUnlessOwnRaised | controller.py:353-354 | while no response raised, the only such write is that of the command itself |
| Delivery.CallsBeginTheirOwn | controller.py:344-353 | while no response raised, a call that begins a write begins that of the command it routes, on a board with a free slot |
| Delivery.CallsEndOnce | local_socket.py:328-331 | an answer that reached its caller stays what it is, and a call that a write ended gets none later |
| Delivery.ShutdownDelivers | controller.py:512-535 | after the fail phase, when nothing was lost, every command ever accepted has its answer delivered, but for those same writes |
| Delivery.AnsweredNotDelivered | board_connection.py:118-122 | one board, a first command whose write raises and a second behind it: the second is not sent; at the loss of the board both are answered, nothing is lost, and only the second answer is delivered |
| PerBoard.FamilyLosesNothing | controller.py:154-157 | in the product of one dispatcher per board, which stands for tables kept per board, any number of boards would lose a command only to a raising response of its own board |
| Steps.StartWriteKeeps | controller.py:1071-1088 | beginning a write takes the place of exactly the command pending under its seq, if there is one |
| Steps.DispatchKeeps | controller.py:1047-1088 | one dispatch keeps soundness and answers given, and takes the place of exactly the command pending under the seq of the first live entry of the queue, if there is one |
| Dispatching.DispatchExactly | controller.py:1047-1088 | the whole of one dispatch: on a board that is up and free outside shutdown, exactly the head commands with now - enqueued > cap are answered COMMAND_TIMEOUT and counted stale, and the first with now - enqueued <= cap is written; otherwise nothing happens |
| Dispatching.SettledBoardIsServed | controller.py:359-411 | in every run, when a response or a timer settles a command, its board is offered its queue in that way, and nobody else is answered |
| Dispatching.RoutedCommandIsServed | controller.py:344-354 | in every run, so is the board of a command that is taken in, with the command at the end of the queue |
| Causes.EveryAnswerHasItsCause | controller.py:226-1162 | in every run each answer has one of six causes, with the reply that goes with it, field by field |
| Writes.WritesBeginLawfully | controller.py:1047-1088 | in every run each write begins outside shutdown, on a registered board with a writer, under the latch only if the schema lets the command through, within its cap; it takes the slot, and its entry is stamped with the time |
| Writes.ResponsesAreRelayed | controller.py:376-410 | in every run a matched response that does not raise gives its command the board's own status and code; on ok the echoed seq and the milliseconds since its write began |
| Writes.ReturnedWritesSetTimers | controller.py:1088-1100 | in every run, what the end of a write does in its three cases; the timer runs for the command's own timeout |
| Writes.TimerIsOwn | controller.py:1097-1103 | in every run a sleeping timer was set when its own command's write returned, and its deadline is that moment plus that command's timeout |
| Writes.RaisedWritesStrand | controller.py:1088 | in every run a write that raises leaves entry, slot and queue as they are, without a timer |
| Steps.ResumeKeeps | controller.py:1089-1100 | a finished write whose own command is answered takes the place of exactly the command pending under its seq, if there is one; any other loses nobody |
| Steps.EnqueueKeeps | controller.py:317-347 | queueing a routed command keeps the tables, drawing a board seq greater than every earlier one of its board |
| Resolvers.MatchedSettles | controller.py:356-410 | a matched response that does not raise settles its entry and disturbs no other command |
| Resolvers.TakeOutLoses | controller.py:359-376 | one that raises loses exactly the command whose entry it took out |
| Resolvers.TimedOutSettles | controller.py:1104-1118 | so does an execution timeout |
| Resolvers.BoardDownSettles | controller.py:414-454 | a lost board's commands are settled, none is lost |
| Resolvers.TriggerSettles | controller.py:581-605 | so are the queues a latched e-stop flushes |
| Resolvers.FailRemainingSettles | controller.py:512-535 | so is all that a shutdown finds left |
| Accounts.SettleKeeps | controller.py:393-410 | settling an open command once keeps log, cache and counters in agreement |
| Accounts.ResolveErrorKeeps | controller.py:1137-1162 | an error answer reaches only a future that is not done, addressed to its own client |
| Accounts.ResolveAllKeeps | controller.py:433-449 | failing a list of commands answers exactly those that were open, with the given code |
| Counting.BusyIffFull | controller.py:300-315 | a command that passes every other check is answered BOARD_BUSY iff depth + 1 commands of its board wait for their answer; there never are more |
| Outcomes.RoutingRefusals | controller.py:235-315 | which commands are answered at once, in which order of checks, with which reply, and what that counts |
| Outcomes.LocalAnswers | controller.py:247-251 | a command to the controller gets its own handler's answer, which is counted by its status |
| Outcomes.RoutingAccepts | controller.py:317-354 | all others are taken in, with every field they record and the next board seq, iff the seq is within uint64 and the timeout at most ten seconds; else routing raises and at most draws the seq |
| Outcomes.BoardDownAnswers | controller.py:414-454 | exactly the open commands of the lost board are answered BOARD_UNAVAILABLE; the board is left faulted and empty |
| Outcomes.TriggerAnswers | controller.py:581-613 | exactly the queued commands are answered ESTOP_ACTIVE; what is in flight keeps its entry, slot and timer |
| Outcomes.FailRemainingAnswers | controller.py:512-535 | exactly the open commands are answered CONTROLLER_SHUTDOWN |
| Outcomes.TimeoutAnswers | controller.py:1102-1119 | a timer that finds its seq pending answers that command COMMAND_TIMEOUT; one that comes too late changes nothing |
| Correlation.AnswersAreFinal | controller.py:1137-1162 | in every run an answer, once given, never changes, and carries client seq and target of its own command |
| Correlation.ResolvedOnce | controller.py:1186-1193 | each answered command is resolved exactly once, with the status it was answered with |
| Correlation.ResponsesCorrelate | controller.py:356-412 | in every run a matched response answers the command accepted under the echoed seq with the board's own status and code, others answered in that step being past their cap in the same queue; or it raises, answers nobody, and its command has no place left |
| Correlation.VanishedForGood | controller.py:356-412 | a command with no place left is never answered |
| Correlation.AnswersItsOwnBoardIff | controller.py:356-372 | when nothing was lost, a matched response answers a command of the board it comes from iff its seq is in flight there |
| Correlation.LeftoverAnswersIff | controller.py:356-376 | a response to an answered command answers somebody iff another command is pending under that seq and it does not raise |
| Correlation.LeftoversAnswerNobody | controller.py:356-367 | in every run such a response moves only the three counters for unmatched responses iff no other command is pending under its seq |
| Correlation.OneBoardLeftovers | state.py:296-307 | with one board a response left over from any earlier write or connection never resolves a later command |
| Correlation.UnmatchedAreToldApart | controller.py:359-367 | in every run an unmatched response counts as late or duplicate by the last resolution of its seq, and as neither iff there is none or the window has since evicted the seq |
| Counting.BooksBalance | controller.py:96-109 | in every run the two timeout counters agree, and answered + queued + pending equals taken in iff no step forfeited |
| Tallies.CountersTellStatuses | controller.py:96-109 | in every run the counters of ok, error and timeout answers are the numbers of commands resolved or answered at once with that status |
| Tallies.ClockTellsTime | controller.py:1337-1343 | in every run the clock has moved by the time that passed between the steps, and not within them |
| Tallies.CountersTellEvents | controller.py:359-367 | in every run the counters of board losses, refused registrations and unmatched responses are the numbers of those events |
| Counting.PlacesAddUp | controller.py:344-354 | the accepted commands number the answered, queued and pending ones together |
| ResolvedCache.RememberAgreesIff | controller.py:1186-1193 | the exact condition under which one more resolution keeps dictionary and deque equal to the last 4096 resolutions |
| ResolvedCache.WindowHolds | controller.py:156-157 | the deque holds the seqs of the last 4096 resolutions in order |
| ResolvedCache.ReplayLookup | controller.py:1186-1193 | after any resolutions the dictionary holds the last status of a seq iff no resolution of that seq has left the window since |
| ResolvedCache.ReplayAgreesIff | controller.py:1186-1193 | after any resolutions dictionary and deque equal the last 4096 iff no seq of theirs was evicted for an earlier resolution |
| ResolvedCache.ReplayAgrees | controller.py:156-157 | for distinct seqs they always are |
| SafetyRuns.EnvironmentIsFree | controller.py:226-672 | no routing, write completion, response, timer, trigger, ack or reset is excluded from the runs |
| SafetyRuns.WritesAreLawful | controller.py:1047-1088 | no gated write begins under the latch, none after shutdown began, none past its residency cap; seqs per board strictly increase within uint64 |
| SafetyRuns.NoWriteAfterShutdown | controller.py:237-245 | from the shutdown flag on no write begins and no command is taken in |
| SafetyRuns.ShutdownIsFinal | controller.py:476-539 | after the fail phase everything is empty for good and no outcome changes; every command ever accepted has its answer iff no step forfeited |
| SafetyRuns.SafeStep | board_connection.py:206-278 | every event keeps the invariant: a board between sessions is unavailable with an empty queue; under the latch only ungated commands are queued |
| Service.SlotsMatchPending | controller.py:1053-1100 | a slot holds a seq exactly when the board's pending entries are that one; each pending entry has its write suspended, one armed timer, or is stranded, exclusively |
| Service.WritingOrTimed | controller.py:1088-1100 | while writes do not raise and shutdown has not begun, a pending entry has its write suspended or exactly one armed timer |
| Slots.QueuesAreBounded | controller.py:300-315 | in every run, over any boards, no queue exceeds the configured depth |
| Slots.QueuesAreServed | controller.py:1047-1088 | while no response raised, a registered board with a writer and a free slot has an empty queue until shutdown |
| Slots.WritesFreeNoSlot | controller.py:1089-1095 | in every run a slot never holds the seq of an answered or queued command of its board, so the branch that frees a slot after a write is dead |
| Stranded.StuckBoardsStandStill | controller.py:1088-1100 | while nothing is lost, a command whose write raised keeps its entry and slot, and no write to its board begins, until a response to its seq, the loss of the board or the fail phase |
| Outcomes.TimersAnswerTheirOwn | controller.py:1097-1119 | while no step forfeits, a timer that fires is the armed one of its command, finds it unanswered and answers it COMMAND_TIMEOUT |
| Controls.EveryBoardIsStopped | controller.py:581-621 | in every run, under the latch, a registered board with a writer has a send scheduled, or the last send to it began no earlier than latch and registration; its ack flag means an ack processed after that send |
| Controls.ControlsFollowEvents | controller.py:173-197 | in every run connection state, writer, ack flag, scheduled sends and shutdown flag are what the events say |
| Controls.HistoriesAreTrue | controller.py:581-621 | the histories these theorems use name the steps of the run their names promise |
| Estop.EstopReachesEveryBoard | controller.py:581-621 | the same as an invariant over the histories, in shutdown too |
| Estop.RegisteredBoardsAreReady | controller.py:173-197 | until the writers close a registered board has a writer |
| Estop.LatchHolds | controller.py:623-672 | in every run the latch is set iff an e-stop was triggered and no `estop_reset` addressed to "controller" came since while the condition was cleared |
| Estop.LatchStep | controller.py:623-672 | from a latched state exactly such a reset clears the latch |
| Estop.ResetMovesTheLatch | controller.py:631-657 | a refused reset changes nothing, one that clears nothing but the latch |
| Timing.BoundedCompletion | state.py:182-187 | the time bound on answers, for every run with punctual writes, timers and teardowns in which nothing was lost |
| Timing.OneBoardCompletes | state.py:182-187 | with one board the bound holds in every such run in which no response raised on an entry |
| Gates.GatesFollowSchemas | controller.py:173-218 | in every run a board's gates, record and revision are those of the schemas it has sent |
| ControllerCore.ControllerCore.RouteCommand | controller.py:226-354 | the method takes the state to what `Controller.Route` says |
| ControllerCore.ControllerCore.DispatchNext | controller.py:1047-1088 | the loop over stale entries up to the write refines the closed form |
| ControllerCore.ControllerCore.ResumeWrite | controller.py:1089-1100 | the end of a write, in its three cases |
| ControllerCore.ControllerCore.HandleBoardResponse | controller.py:356-412 | pop, stop the timer, free the slot; then raise, or answer and dispatch |
| ControllerCore.ControllerCore.ExecutionTimeout | controller.py:1102-1119 | the timeout task after its sleep |
| ControllerCore.ControllerCore.BoardDown | controller.py:414-454 | the loops over pending entries and queue refine the batch form |
| ControllerCore.ControllerCore.TriggerEstop | controller.py:581-613 | the loops over boards and queues, and the sends they schedule |
| ControllerCore.ControllerCore.ResetEstop | controller.py:623-672 | the code of each of the three refusals in the order of the source, the ok reply, and what each does to the latch |
| ControllerCore.ControllerCore.FailRemaining | controller.py:512-535 | the fail phase of a shutdown |
| ControllerCore.ControllerCore.RegisterBoard | controller.py:173-197 | registration, and the version mismatch that faults the board |
| ControllerCore.ControllerCore.RememberTerminalBoardSeq | controller.py:1186-1193 | dictionary and deque forget the oldest and learn the newest |
| ControllerCore.ControllerCore.ResolveEntryError | controller.py:1137-1162 | nothing for a done future, else cache, counters and future together |
| Protocol.ParseCodeInvertsName | protocol.py:103-110 | error codes and their names correspond one to one |
| Protocol.RelayKeepsMeaning | protocol.py:270-309 | relaying a valid response gives a valid response with the client's seq, same status and error, and the board seq inside an ok result |
| Protocol.RelayEnvelope | protocol.py:286-309 | and with the controller as source, the board's error and timestamp, and the latency inside an ok result |
| Protocol.ErrorReplyIsCoupled | protocol.py:312-334 | which error replies are built, that they are valid and coupled, and from whom and to whom they go |
| Protocol.ValidResponseIff | protocol.py:390-412 | which objects are valid responses, field by field |
| Protocol.ValidCommandIff | protocol.py:380-387 | which objects are valid commands, field by field |
| Protocol.TypedReads | controller.py:1345-1353 | what is read of a valid response; its time does not convert iff it is an integer of at least 2^1024 - 2^970 |
| Protocol.ValidationForcesCoupling | protocol.py:390-412 | whatever result and timestamp it carries, a terminal error is accepted exactly when status and code are coupled |
| Protocol.BoardHopKeepsCommand | protocol.py:243-267 | the board hop is a valid command under the board seq with the client's command and arguments |
| SchemaGate.RegistersIff | protocol.py:225-240 | which schema messages register, field by field, and which are refused for their version alone |
| SchemaGate.RecordKeepsSchema | controller.py:988-1001 | what is recorded of an accepted schema |
| SchemaGate.GateMatchesEffective | controller.py:988-1001 | gate table and effective schema agree on every command, absent meaning blocked |
| SchemaGate.EffectiveIdempotent | controller.py:988-1001 | an effective schema is its own effective schema |
| SchemaGate.RegistrationHistory | controller.py:185-193 | over any history of schemas: last accepted record, its gates, a revision counting changes, no trace of refused ones |
| ClientQueue.QueueRefinesLog | local_socket.py:92-144 | delivered and then queued messages are the accepted ones in order with only non-criticals missing; the drop counter counts those and the refused |
| ClientQueue.SendExactly | local_socket.py:106-144 | a send to a connected client returns true iff the queue has room or holds a non-critical message, whatever the new one's priority; the queue is then the old one, without its oldest non-critical message if it was full, and the new message; otherwise it stays, and the client is disconnected or the drop counted |
| ClientQueue.SendEvictsTheOldest | local_socket.py:106-144 | a send evicts at most the oldest queued non-critical message, only from a full queue, and accepts exactly if it returns true |
| ClientQueue.DisconnectsIff | local_socket.py:106-127 | a client is disconnected exactly when a critical message meets a full queue of criticals |
| ClientQueue.LocalClientConnection.Send | local_socket.py:106-127 | the loops of `_send` refine the step; when it returns true and when the client stays |
| ClientQueue.LocalClientConnection.EvictOldestNoncritical | local_socket.py:129-144 | draining and refilling removes exactly the oldest non-critical message |
| ClientQueue.LocalClientConnection.Get | local_socket.py:92-104 | the writer takes the oldest message |
| ObsQueue.DropOldest | observability.py:52-74 | contents are the most recent records; enqueued = dropped + written + failed + in hand + queued; written and failed count the writes that ended well and not; unfinished = in hand + queued |
| ObsQueue.FullDropsOldest | observability.py:62-74 | a full queue loses its oldest record to the new one and nothing else |
| ObsQueue.ObservabilityQueue.Enqueue | observability.py:62-74 | the method refines the step |
| ObsQueue.ObservabilityQueue.Take | observability.py:169-172 | the worker takes the oldest record |
| ObsQueue.ObservabilityQueue.Finish | observability.py:175-182 | each record taken counts once as written or failed and is marked done |
| Heartbeat.SettledExactlyOnce | board_connection.py:476-521 | a heartbeat whose write completed is recorded exactly once, as acked or missed, unless its session stopped first or its ack is still awaited |
| Heartbeat.BeatsFollowEvents | board_connection.py:489-521 | a heartbeat is on record as acked iff an ack naming it arrived while it was pending, as missed iff its ack timeout ran out while it was pending |
| Heartbeat.PendingIff | board_connection.py:451-521 | the pending heartbeat is the latest begun, until its ack, the end of its wait or the end of its session |
| Heartbeat.HistoriesFollowEvents | board_connection.py:451-487 | which heartbeats count as written, and as cut off by a stop |
| Heartbeat.LoopMoves | board_connection.py:464-498 | where the loop goes on each event; a wait ends early exactly if the heartbeat is no longer pending |
| Heartbeat.SuspectIffThreshold | state.py:145-166 | the suspicion flag holds exactly when the heartbeats that timed out since the last one acked, counted over the events, have reached the threshold |
| Heartbeat.StrayAcksChangeNothing | board_connection.py:500-521 | an ack changes something exactly if it names the pending heartbeat, across reconnects; then no miss and no suspicion is left |
| Heartbeat.HeartbeatLoop.BeginHeartbeat | board_connection.py:476-487 | the beat up to its write |
| Heartbeat.HeartbeatLoop.AckTimedOut | board_connection.py:491-498 | a timeout records a miss only for the heartbeat still pending |
| Heartbeat.HeartbeatLoop.HandleHeartbeatAck | board_connection.py:500-521 | an ack matches iff it names the pending heartbeat, and then clears pending, misses and suspicion |
| Heartbeat.HeartbeatLoop.StopHeartbeat | board_connection.py:451-462 | stopping forgets the pending heartbeat |
| Backoff.CeilingClosedForm | board_connection.py:67-74 | after k delays the ceiling is min(cap, base * factor^k) |
| Backoff.CapIsReached | board_connection.py:67-74 | the cap is reached after finitely many delays and kept |
| Backoff.CeilingGrows | board_connection.py:67-74 | ceilings never fall between resets |
| Backoff.ReconnectBackoff.NextDelay | board_connection.py:67-74 | a delay lies between zero and the closed-form ceiling; a fraction outside 0..1 raises and changes nothing |
| Backoff.ReconnectBackoff.Reset | board_connection.py:76-77 | a reset starts the sequence over |
| Percentile.NearestRankIsLeast | state.py:52-61 | a percentile is the least sample that at least p percent of the window are at most, with the cases that give none or raise |
| Percentile.RanksAreMonotone | state.py:52-69 | percentiles are monotone in p |
| Percentile.IndexInRange | state.py:60-61 | the rank index is always within the window |
| Percentile.WindowHolds | state.py:41-50 | the window is the last 1024 observations, with negative ones as zero |
| Percentile.LatencyPercentileObservation.Observe | state.py:48-50 | a full window loses its oldest observation to the new one, clamped at zero |
| Percentile.LatencyPercentileObservation.Metrics | state.py:63-69 | p50, p95 and p99 are ordered samples of the window |

## Where the code and its documents differ

* `docs/contracts/V1_Networking_Decisions.md:552-553` says queued commands are never silently dropped. With two
  boards whose live seqs coincide the code loses one, as `Collision.TwoBoardsLose` shows.
* `docs/contracts/V1_Networking_Decisions.md:544` wants exactly one outcome delivered per command. A response whose
  reported time does not convert delivers none, as `Collision.OneBoardCanLose` shows; nor does a write that raises in
  the call that routed the command, as one over the line limit of the board does: `Delivery.AnsweredNotDelivered`.
* `docs/contracts/V1_Networking_Decisions.md:70-71` calls client seq and board seq never equal. They are kept apart, but
  nothing keeps two independent numberings from coinciding in value: `Collision.SeqsCoincide`.
* `docs/contracts/V1_Networking_Decisions.md:250` counts later e-stop triggers as logged no-ops; the code returns
  without a log entry.

## Left out

- Timing.BoundedCompletion: speaks of runs in which shutdown does not begin and writes do not raise; what a raising write leaves behind is said by `Stranded.StuckBoardsStandStill`.
- Stranded.StuckBoardsStandStill: speaks of runs in which nothing was lost; a forfeiting step could take the entry itself.
- PerBoard.FamilyLosesNothing: a product of one-board dispatchers, so that boards do not touch each other's tables is built in; one dispatcher whose tables are keyed by pairs is not modelled.
- Delivery.DeliveredIff: ends where `route_command` returns; a client that has gone by then is counted as an orphaned response (`local_socket.py:329-331`).
- Service.WritingOrTimed: likewise; `Service.SlotsMatchPending` covers the other runs.
- ControllerCore.ControllerCore.RouteCommand: the schema query is answered by a parameter; its response building is pure lookup. A raise for an exhausted seq or too long a timeout leaves the client without an answer and counts as not taken in.
- Each handler gets messages of its own type, which its only callers see to (`local_socket.py:304-318`, `board_connection.py:354-366`); called directly with another type that has the fields they read, `route_command` and `handle_board_response` would raise halfway.
- After a response that raised, and after a failing parse, the task of the connection manager ends; in the model the session of that board may end next, but its manager may also go on.
- Interpreter limits, such as the recursion depth on deeply nested JSON, which could raise in the middle of a registration.
- The writes of an e-stop, and their errors.
- ClientQueue.QueueRefinesLog: ends with the disconnection of the client; the sentinel placed on close may discard the oldest item. A transport that is closing counts as disconnected.
- ObsQueue.DropOldest: assumes the worker is not cancelled while it holds a record; cancellation during a write would mark the record done without counting it.
- Protocol.RelayKeepsMeaning: JSON text, line limits and UTF-8 are library code; messages are decoded objects, an oversize frame is a write that raises.
- SchemaGate.RegistrationHistory: records are compared by value; Python also equates `1`, `1.0` and `True` inside a schema.
- Board runtimes are values in a map; that tasks share one runtime object is expressed by every step reading the current map.
- One clock reading per step: the source may read its clock more than once within a run of code, during which no time is taken to pass.
- A negative `fifo_depth`, which behaves as zero does.
- The connection manager is a state machine of phases: sockets, keepalive, reading and the wait between attempts are the environment's choice.
- Cancellation of `route_command` by its caller; no caller in the repository cancels it.
- Latency and telemetry observations, lifecycle records, event emission, `connected_count` and other counters without an invariant: apart from the conversion of a reported processing time, which is modelled, they never feed back into dispatch.
- Redis calls, configuration, signal handling, the demos and the tools.
- Times, delays and percentiles are reals; floating-point rounding is not modelled.
