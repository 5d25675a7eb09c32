# Silta, modelled and verified

Silta connects Matrix rooms to sessions of Claude Code. Three processes cooperate: the daemon
`siltad`, which talks to Matrix and to sessions over a socket; the plugin `silta-claude`, which
runs beside Claude Code and hands it events; and the supervisor `silta-session`, which starts
Claude Code, reads its output and rotates a session whose context has grown too large. This
project models the state machines and protocols between them, and the algorithms they rest on,
and proves what they promise over every run, every interleaving and every input.

`dafny verify dfyconfig.toml` checks the whole project. There is no include and no library: the
modules import each other.

| file | what it models |
|---|---|
| `Rotation.dfy`, `RotationTiming.dfy`, `RotationHeard.dfy` | the rotation tracker: object, value, time bounds, rank; what it does in terms of the calls it got |
| `History.dfy`, `Supervisor.dfy`, `SupervisorSafety.dfy`, `SupervisorRuns.dfy`, `SupervisorPromises.dfy`, `SupervisorWitness.dfy` | tracker, actions, disk record and next start as one transition system with outside stops; its histories and their safety |
| `SupervisorHeard.dfy`, `SupervisorDeeds.dfy`, `SupervisorIds.dfy` | what a run does and how it ends in terms of what was heard; when the saved id changes |
| `Backlog.dfy`, `Delivery.dfy`, `Redelivery.dfy`, `RedeliveryExact.dfy` | the registry of a session, one lock section per step |
| `Replay.dfy`, `EndToEnd.dfy` | watermarks, the verdict after a restart, and the way of an event to Claude Code and of its acknowledgement back |
| `Lines.dfy`, `Transfer.dfy`, `Multiplex.dfy` | the socket: line framing, files in pieces, commands and results |
| `Text.dfy`, `Chunker.dfy`, `ChunkerLaws.dfy`, `ChunkPlaces.dfy` | outbound Markdown in chunks |
| `Routing.dfy` | people, sessions, routing tables and ownership of rooms |
| `Calendar.dfy`, `Stamps.dfy`, `Pruning.dfy` | dates, stamps as text, pruning by name |
| `Journal.dfy`, `JournalMessages.dfy` | the journal line of a message |
| `Typing.dfy` | the typing tasks |
| `Prelude.dfy` | shared definitions |

## How the supervisor is specified

`Supervisor.Transition` is one step of the supervisor or its surroundings; Claude Code, the
clock, the operator and the moment of a crash are unconstrained inputs. Every step appends to a
history. `History.Allowed` says which entry may follow which history, and
`SupervisorRuns.EveryRunIsSafe` that no run of any length appends a forbidden one. The lemmas of
`History` say what a safe history means position by position, which earlier entry must be there
and in the same rotation, and `SupervisorPromises` states this of every run.

Safety says what may never happen. What does happen is stated over the inputs of one run of
claude: `SupervisorHeard` says exactly which input ends it and with which code the process leaves,
`SupervisorDeeds` which calls the tracker gets and that exactly its answers are carried out, and
`RotationHeard` what a tracker answers, over the calls it got. They speak of what was heard
rather than of the flags in which the code remembers it.

## Where code and documentation differ

The model follows the code. Each of these has an exact condition and an input or a run that
shows it.

- `chunk_text` is documented never to split a fenced block that fits the cap. It does when the
  block shares an over-long paragraph with other lines: `FenceWholeExactly` says exactly when,
  `FenceCanBeSplit` is an example.
- Events are meant to come again in their original order. A connection made while the previous
  one still holds events, a dispatch that waits behind another, or a message sent straight to a
  connection ahead of waiting ones can change it: `OrderlyExactly` and `DrainsExactly` say
  exactly when, `ReconnectOvertakes` is a run. `DrainsExactly` leaves two places free in the
  backlog, because a message that overtook a full backlog is the first to be evicted from it.
- The replay window is added to a timestamp in 64 bits, where the sum can wrap:
  `WindowExactly`, `LargestWindowDropsAll`.
- A watermark keeps one event id per room, so of several events with one timestamp all but the
  last acknowledged would come again: `ComesAgainExactly`, `FirstComesAgain`.
- Snapshots are pruned by name. Within one second the name of the one after the handoff sorts
  before the name of the one before it: `SnapshotsKeptAreNewest`, `NewerSnapshotLost`.
- A delivery can find a task in its room that is no longer watched, or past its cap, and is then
  not watched itself: `DeliveryWatchedExactly`, `LateDeliveryUnwatched`, `NextDeliveryUnwatched`.
- A reply can stop a task and the task still report silence: `ReportedAfterStopExactly`,
  `ReplyTooLate`.

## Model

| member | source | states |
|---|---|---|
| `Rotation.Tracker.BeginPending` | crates/silta-session/src/rotation.rs:200-219 | a start that found the marker waits for quiet, from the end of the pause, with the attempts and the flag of the record |
| `Rotation.Tracker.BeginRetrying` | crates/silta-session/src/rotation.rs:224-232 | a start with the combined line awaits the handoff |
| `Rotation.Tracker.Cancel` | crates/silta-session/src/rotation.rs:265-271 | cancels exactly a pending rotation still waiting, and changes nothing otherwise |
| `Rotation.Tracker.MarkerSeen` | crates/silta-session/src/rotation.rs:283-289 | the object moves and answers as the machine that the timing and safety theorems are about |
| `Rotation.Tracker.EndTurn` | crates/silta-session/src/rotation.rs:310-361 | the end of a turn while the handoff or the compaction is awaited, in all its cases |
| `Rotation.Tracker.HandleEvent` | crates/silta-session/src/rotation.rs:291-368 | the same for every event, in every phase |
| `Rotation.Tracker.Tick` | crates/silta-session/src/rotation.rs:370-384 | the same for a tick, with the context threshold and the idle gap |
| `Rotation.Tracker.Proceed` | crates/silta-session/src/rotation.rs:395-435 | the phases' caps and the quiet moment |
| `Rotation.Tracker.CutShort` | crates/silta-session/src/rotation.rs:438-454 | a cut spends an attempt: retry below the limit, else give up |
| `Rotation.Tracker.Fail` | crates/silta-session/src/rotation.rs:458-475 | a failure spends an attempt: postpone with the pause below the limit, else give up |
| `RotationTiming.HorizonNeverMoves` | crates/silta-session/src/rotation.rs:291-435 | no call extends the last deadline of a rotation under way, ends of turns without the note or the boundary included |
| `RotationTiming.UnderWayOnlyUntilHorizon` | crates/silta-session/src/rotation.rs:291-435 | for every sequence of calls with a monotone clock and ticks at least every d, a rotation under way has not passed its horizon |
| `RotationTiming.RotationEndsInTime` | crates/silta-session/src/rotation.rs:200-232 | a rotation pending at a start is resolved by an answer, or cancelled, by the time pause, quiet, handoff and compact caps and three tick intervals have passed, whatever events came |
| `RotationTiming.RetryEndsInTime` | crates/silta-session/src/rotation.rs:224-232 | the same for a start with the combined line, within two caps and two tick intervals |
| `RotationTiming.BegunEndsInTime` | crates/silta-session/src/rotation.rs:283-289 | the same for a rotation that the marker or the threshold begins during a run: resolved at once or within the bound |
| `RotationTiming.EndsByAnswer` | crates/silta-session/src/rotation.rs:291-435 | whatever call ends a rotation under way, its last answer resolves the attempt, or the call cancelled the wait |
| `RotationTiming.RankFalls` | crates/silta-session/src/rotation.rs:395-475 | every move of a rotation under way lowers (attempts left, phases to come), it ends exactly with a resolving answer, which comes last and once |
| `RotationHeard.TickBeginsExactly` | crates/silta-session/src/rotation.rs:370-384 | a tick begins a rotation if and only if rotation is enabled, the last turn has ended, the last prompt since the last boundary has the limit's size, and the last message of a person, or the start, is the idle time ago |
| `RotationHeard.AsksExactly` | crates/silta-session/src/rotation.rs:395-413 | the handoff is asked for only with the last turn ended, the last list of background tasks empty and the pause over, and by a waiting rotation as soon as that is so |
| `RotationHeard.EveryCapCounts` | crates/silta-session/src/rotation.rs:395-435 | every deadline is the cap counted from the call that began its phase |
| `RotationHeard.CutsExactly` | crates/silta-session/src/rotation.rs:395-454 | an attempt is cut if and only if its cap has passed, and while it waits only if it may look and there is no quiet moment |
| `RotationHeard.TurnEndsExactly` | crates/silta-session/src/rotation.rs:310-361 | the answer to the end of an awaited turn, from the note that was checked, the boundaries and the failures heard since `/compact` |
| `RotationHeard.SnapshotsExactly` | crates/silta-session/src/rotation.rs:395-413 | a snapshot before the handoff exactly with the first attempt's request, one after it exactly with every `/compact` |
| `History.RotationFieldsMean` | crates/silta-session/src/state.rs:18-38 | what the running summary says of the current rotation is the count of the entries since the last rotation ended |
| `SupervisorPromises.EveryHandoffHasItsSnapshot` | crates/silta-session/src/rotation.rs:398-413 | in every run, no line asks for the handoff unless a before-handoff snapshot was taken earlier in the same rotation, retries and outside stops included |
| `SupervisorPromises.EveryRotationAsksSeldom` | crates/silta-session/src/rotation.rs:438-475 | in every run, one rotation asks for the handoff at most once per attempt, plus once per interruption from outside |
| `SupervisorPromises.EveryFreshIdIsTheLastResort` | crates/silta-session/src/lib.rs:310-398 | in every run, an id that could be resumed is replaced only after all attempts of its rotation were recorded as spent |
| `SupervisorPromises.EveryHandoffFlagIsEarned` | crates/silta-session/src/lib.rs:325-384 | in every run, a fresh session is told of a note only if a turn of that rotation ended well, in the handoff phase, with the note written |
| `SupervisorPromises.EveryHandoffFlagIsGiven` | crates/silta-session/src/lib.rs:325-384 | in every run, it is told so if one did and nothing interrupted the supervisor since |
| `SupervisorPromises.EveryCompactionIsReal` | crates/silta-session/src/rotation.rs:310-361 | in every run, `/compact` directly follows an after-handoff snapshot, and a rotation counts as compacted only on a result heard after a non-automatic boundary after its last `/compact` |
| `SupervisorPromises.EveryDecisionIsFinal` | crates/silta-session/src/lib.rs:894-979 | in every run, once claude's run is decided nothing more is written and the channel never opens; only a requested stop overrules, and only a restart |
| `SupervisorPromises.EveryTurnWaitsForTheWindow` | crates/silta-session/src/lib.rs:832-847 | in every run with a window configured, no line goes to claude before it answered with at least that window |
| `SupervisorPromises.EveryOneShotIsOne` | crates/silta-session/src/lib.rs:244-306 | in one-shot mode a process starts claude at most once, and without a requested stop leaves with 80 or 79 |
| `SupervisorSafety.PlanKeeps` | crates/silta-session/src/lib.rs:310-398 | reading a record back into a start agrees with what the history spent, took and wrote |
| `SupervisorSafety.StepKeeps` | crates/silta-session/src/lib.rs:406-787 | every step, at every moment, keeps the invariant between tracker, run, disk and history |
| `SupervisorRuns.ExecuteKeeps` | crates/silta-session/src/lib.rs:244-306 | every sequence of inputs keeps it |
| `SupervisorRuns.EveryRunIsSafe` | crates/silta-session/src/lib.rs:244-306 | from any disk without a record, every run of every length has a safe history |
| `SupervisorRuns.PersistedAttemptsBounded` | crates/silta-session/src/state.rs:148-170 | the attempts on disk are those the rotation spent and stay below the limit; a fresh start is recorded exactly when all are spent |
| `SupervisorRuns.RestartLowersRank` | crates/silta-session/src/lib.rs:1001-1115 | from a cut or a failure through the record to the next run: that run carries on with a lower rank, or the rotation is over |
| `SupervisorHeard.EndsExactly` | crates/silta-session/src/lib.rs:604-760 | over every run of claude, which input ends it: a model that refuses, no answer in time or none in the first turn, the end of the one turn of emergency mode or of its time, a stop; and else only the tracker's restart |
| `SupervisorHeard.CodesExactly` | crates/silta-session/src/lib.rs:286-306 | the exit code from what ended the run, and that the process starts claude again in every other case |
| `SupervisorHeard.OwnCode` | crates/silta-session/src/lib.rs:763-786 | when claude leaves undecided, the process leaves with its code, or 80 in emergency mode unless a stop was asked for |
| `SupervisorHeard.StopOverrules` | crates/silta-session/src/lib.rs:606-610 | a stop seen while a restart is due makes the process leave with 0 |
| `SupervisorHeard.StartsExactly` | crates/silta-session/src/lib.rs:255-285 | when claude is started, and else the code the process leaves with |
| `SupervisorHeard.EveryBootStarts` | crates/silta-session/src/lib.rs:244-285 | wherever a process died, and whether or not it was asked to stop, the next one starts claude |
| `SupervisorDeeds.TrackerGets` | crates/silta-session/src/lib.rs:664-735 | in every run the tracker gets exactly the calls that the inputs are: lines once the first line is out, the look at the note, ticks, and every fifth the look at the marker |
| `SupervisorDeeds.DoesExactly` | crates/silta-session/src/lib.rs:1001-1115 | at every step of every run exactly the tracker's answers are carried out (lines, snapshots, records, restarts and their pause, the marker), what is heard is recorded, the channel opens with the first answer of a model, and the first line goes out with the window check |
| `SupervisorDeeds.BeginsExactly` | crates/silta-session/src/lib.rs:500-594 | for every disk, with which line a run begins, with which tracker, and whether a snapshot is still due |
| `SupervisorDeeds.PauseLasts` | crates/silta-session/src/lib.rs:1079-1103 | after a failed attempt, the next run of claude asks for the handoff of that rotation only when the pause since the failure is over |
| `SupervisorIds.PlanExactly` | crates/silta-session/src/lib.rs:310-398 | a start takes a new id if and only if the session was given up or has no transcript, and else resumes the saved one |
| `SupervisorIds.IdChangesExactly` | crates/silta-session/src/lib.rs:763-786 | over every step, the saved id becomes a new recorded one exactly when a start gives the session up, is dropped exactly when claude refused to resume it, and else stays |
| `SupervisorIds.EverySavedIdIsKept` | crates/silta-session/src/lib.rs:310-398 | in every run, a saved id with its transcript is lost only after all attempts of its rotation were recorded as spent, or after such a refusal |
| `SupervisorWitness.ARotationFinishes` | crates/silta-session/src/rotation.rs:291-368 | a run in which a rotation is compacted: what safety says of handoffs and compactions happens |
| `SupervisorWitness.AnIdIsReplaced` | crates/silta-session/src/lib.rs:310-398 | a run in which a resumable id is replaced, after two cuts |
| `Backlogs.Backlog.Push` | crates/silta/src/backlog.rs:25-33 | the queue after a push and the exact count of evictions |
| `Backlogs.Backlog.Drain` | crates/silta/src/backlog.rs:37-40 | hands out what the front eviction leaves, and empties the queue |
| `Backlogs.Backlog.Restore` | crates/silta/src/backlog.rs:45-55 | puts items in front, in order, and the exact count of evictions |
| `Backlogs.Backlog.EvictExpired` | crates/silta/src/backlog.rs:65-76 | eviction at the front only, with its count |
| `Backlogs.FrontEvictionExact` | crates/silta/src/backlog.rs:65-76 | looking at the front only removes exactly the expired items, if and only if no expired one stands behind a fresh one |
| `Backlogs.PushKeepsTheNewest` | crates/silta/src/backlog.rs:25-33 | for ordered timestamps a push keeps the newest max(1, cap) of the unexpired and the new one |
| `Backlogs.RestoreKeepsTheNewest` | crates/silta/src/backlog.rs:45-55 | for ordered timestamps a restore keeps the newest max(1, cap) of all unexpired |
| `Backlogs.DrainsTheYoung` | crates/silta/src/backlog.rs:37-40 | for ordered timestamps `Drain` hands out exactly the items at most the configured age old |
| `Backlogs.PushKeepsTheYoung` | crates/silta/src/backlog.rs:25-33 | and a push keeps exactly those, less the oldest over the cap, and the new one |
| `Backlogs.RestoreKeepsTheYoung` | crates/silta/src/backlog.rs:45-55 | and a restore keeps exactly those of both, less the oldest over the cap |
| `Replay.SetMarkTells` | crates/siltad/src/daemon.rs:379-390 | a room's mark is the last id acknowledged at the largest timestamp acknowledged there |
| `Replay.RejectedExactly` | crates/silta/src/replay.rs:29-47 | taken as delivered before if and only if something strictly newer was acknowledged in the room, or it is that marked event |
| `Replay.ComesAgainExactly` | crates/silta/src/replay.rs:29-47 | an acknowledged event would come again exactly if another id was acknowledged after it at the same, largest timestamp |
| `Replay.FirstComesAgain` | crates/siltad/src/daemon.rs:379-390 | two acknowledgements of one timestamp after which the first is judged as new |
| `Replay.WindowExactly` | crates/silta/src/replay.rs:29-47 | a message not delivered before is too old if and only if it was sent more than the window before the start, or the 64-bit sum wraps below the start; else it is delivered with its delay |
| `Replay.LargestWindowDropsAll` | crates/silta/src/replay.rs:41-43 | an input for which the sum wraps and a message in the window is dropped |
| `Delivery.SectionConserves` | crates/siltad/src/daemon.rs:472-548 | no lock section creates, duplicates or loses a message |
| `Delivery.NothingLostNothingTwice` | crates/siltad/src/daemon.rs:171-189 | under every interleaving a dispatched message is in exactly one of: in flight, backlog, in hand, acknowledged, evicted, dropped for a full queue |
| `Delivery.AtMostOneClaim` | crates/siltad/src/daemon.rs:442-464 | under every interleaving at most one connection holds the session |
| `Delivery.MarksTellTheAcks` | crates/siltad/src/daemon.rs:195-202 | under every interleaving the marks are what the acknowledgements say |
| `Delivery.AcknowledgesExactly` | crates/siltad/src/daemon.rs:520-527 | an acknowledgement counts for the first event in flight with its id, and for none if there is none |
| `Delivery.DroppedExactly` | crates/siltad/src/daemon.rs:472-500 | under every interleaving a message is dropped if and only if its dispatch found a connection with a full queue |
| `Delivery.QueueingEvictsNone` | crates/siltad/src/daemon.rs:488-500 | for ordered timestamps, queueing evicts nothing if and only if fewer than 100 wait and all are within the age |
| `Delivery.GivingBackEvictsNone` | crates/siltad/src/daemon.rs:532-548 | and giving back evicts nothing if and only if there are at most 100 in all and all are within the age |
| `Redelivery.RedeliveredInOrder` | crates/siltad/src/daemon.rs:503-548 | after any number of drops in an orderly run, the next connection is handed every unacknowledged message in the order of dispatch, behind what was sent to it already, less an evicted prefix |
| `RedeliveryExact.OrderlyExactly` | crates/siltad/src/daemon.rs:472-548 | in every state of an orderly run, a section is orderly if and only if every orderly run after it leaves the unacknowledged messages to come in the order of dispatch |
| `RedeliveryExact.DrainsExactly` | crates/silta/src/backlog.rs:45-55 | and, with two places left in the backlog, if and only if every orderly run after it drains them in that order |
| `Redelivery.ReconnectOvertakes` | crates/siltad/src/daemon.rs:557-566 | a run in which a newer message overtakes one still in the hands of the connection before |
| `EndToEnd.DeliveredMeansNotified` | crates/silta-claude/src/mcp.rs:587-611 | wherever connections break and however late an acknowledgement travels, an event counts as delivered only if Claude Code was handed it, and it is handed only what was dispatched |
| `EndToEnd.OnlyNotifiedAreSkipped` | crates/siltad/src/server.rs:286-294 | a restart skips a message only if Claude Code was handed that event or a newer one of the room |
| `EndToEnd.EveryMessageGetsThrough` | crates/silta-claude/src/mcp.rs:587-611 | over a connection that lasts, any messages are notified once each, in order, and acknowledged |
| `EndToEnd.ArrivesInOrder` | crates/silta-claude/src/daemon.rs:395-408 | under every interleaving while a connection lasts, notified and on its way are what was on its way and what the connection was handed since, in that order |
| `EndToEnd.BreakLosesTheWire` | crates/silta-claude/src/daemon.rs:493-499 | after a break nothing that was on the wire arrives |
| `EndToEnd.FailureIsFinal` | crates/silta-claude/src/mcp.rs:605-608 | after a notification that failed there is none any more |
| `EndToEnd.LostAckComesAgain` | crates/silta-claude/src/daemon.rs:290-295 | an acknowledgement that finds no connection is lost, and the event comes again and is notified twice |
| `Lines.LineReader.NextLine` | crates/silta/src/line.rs:48-76 | for every way the stream arrives in buffers, a call answers what the whole rest of the stream says, and an abandoned call loses nothing |
| `Lines.Session` | crates/silta/src/line.rs:48-76 | any number of calls, abandoned or not, answer a prefix of the one sequence of answers of the stream |
| `Lines.ReadsTheSplit` | crates/silta/src/line.rs:48-92 | that sequence is the split of the stream at newlines, up to the first line over the cap |
| `Lines.SplitAtEveryNewline` | crates/silta/src/line.rs:48-76 | no line of the split holds a newline |
| `Lines.SplitThenFrame` | crates/silta/src/line.rs:95-103 | framing the split again gives the stream with its last newline |
| `Lines.FramingRoundTrip` | crates/silta/src/line.rs:87-103 | framed messages are read back as written, if and only if none has a newline, ends in a carriage return or is over the cap |
| `Transfer.ReadChunk` | crates/silta/src/transfer.rs:66-76 | fills the buffer unless the file ends, whatever the reads return |
| `Transfer.Send` | crates/silta/src/transfer.rs:38-64 | a header, the file in pieces of the chunk size, an end |
| `Transfer.Receiver.Begin` | crates/silta/src/transfer.rs:146-175 | refuses a duplicate and an over-large file, else opens the transfer |
| `Transfer.Receiver.TakeChunk` | crates/silta/src/transfer.rs:177-206 | appends within the declared size; otherwise, or undecodable, the transfer is discarded |
| `Transfer.Receiver.End` | crates/silta/src/transfer.rs:208-229 | returns the file only with equal counts, and closes the transfer in any case |
| `Transfer.Receiver.AbortAll` | crates/silta/src/transfer.rs:233-238 | nothing is left open |
| `Transfer.PieceKeepsBounds` | crates/silta/src/transfer.rs:146-229 | received <= declared <= cap is kept by every piece, and what is returned has its declared size |
| `Transfer.AlwaysBounded` | crates/silta/src/transfer.rs:122-246 | the bounds hold after any pieces |
| `Transfer.TransfersIndependent` | crates/silta/src/transfer.rs:122-246 | what becomes of a transfer does not depend on the pieces of others |
| `Transfer.FileArrives` | crates/silta/src/transfer.rs:38-76 | a file sent among other transfers is returned with identical bytes, if and only if its declared size is true and within the cap |
| `Transfer.KeepsExactly` | crates/silta/src/transfer.rs:122-246 | after any pieces, what is kept of a transfer is its header and the bytes since, if and only if nothing since ended it, failed to decode or was too much |
| `Transfer.AnswersExactly` | crates/silta/src/transfer.rs:146-229 | the answer to every piece, from the pieces before it |
| `Transfer.PiecesAreFull` | crates/silta/src/transfer.rs:38-64 | every chunk of a file but the last carries 1 MiB |
| `Multiplex.StepKeeps` | crates/silta-claude/src/daemon.rs:391-492 | what goes round the connection is what is pending, in order, at every step |
| `Multiplex.ReadCompletesFirst` | crates/silta-claude/src/daemon.rs:427-432 | a result read is that of the oldest pending command and completes it |
| `Multiplex.CompletedExactlyOnce` | crates/siltad/src/server.rs:209-347 | under every interleaving and break: each accepted command is pending or completed once, an answer is its own, answers come in command order, and after the end all are completed |
| `Multiplex.RefusedExactly` | crates/silta-claude/src/daemon.rs:451-492 | a command is refused if and only if its file cannot be read; none is lost while the plugin serves, which it does until the connection breaks or a write fails |
| `Multiplex.OnlyTheWireIsLeft` | crates/siltad/src/server.rs:209-347 | after the daemon's end has broken, the plugin reads only what was on the wire |
| `Text.Paragraphs` | crates/silta/src/text.rs:34-64 | the loop over lines gives the paragraphs that the theorems are about |
| `Text.ParagraphsShowTheText` | crates/silta/src/text.rs:34-64 | the paragraphs are non-empty parts of the text and together show all of it, in order |
| `Text.FencedBlockStaysWhole` | crates/silta/src/text.rs:40-46 | a fenced block lies whole inside one paragraph |
| `Chunker.SplitCharsLoop` | crates/silta/src/text.rs:78-93 | an over-long line in maximal pieces at character boundaries |
| `Chunker.SplitLinesLoop` | crates/silta/src/text.rs:66-76 | a paragraph by lines, its over-long lines by characters |
| `Chunker.Append` | crates/silta/src/text.rs:95-111 | a piece joins the chunk being filled or begins the next |
| `Chunker.Flush` | crates/silta/src/text.rs:113-117 | a begun chunk is done |
| `Chunker.ChunkText` | crates/silta/src/text.rs:7-31 | the loops compute the chunks that the laws are about |
| `ChunkerLaws.ChunksShowTheText` | crates/silta/src/text.rs:7-31 | for every text and cap from 4: chunks are non-empty, within the cap, and joined equal the text up to whitespace |
| `ChunkerLaws.SomethingIsSent` | crates/silta/src/text.rs:7-12 | no chunk if and only if the text shows nothing |
| `ChunkerLaws.ParagraphWholeIfItFits` | crates/silta/src/text.rs:20-29 | a paragraph lies whole inside one chunk if and only if it fits |
| `ChunkPlaces.LongLineInChunks` | crates/silta/src/text.rs:66-117 | for every over-long line of every text: its first piece ends a chunk, the middle ones are the next chunks, and the last begins the one after, so no newline comes between two of them |
| `ChunkPlaces.LinesWholeExactly` | crates/silta/src/text.rs:18-29 | for every text: lines of an over-long paragraph that fit the cap together stand whole in the chunk where they begin, if and only if the chunk begun before them has room for all of them or not even for the first |
| `ChunkPlaces.FenceWholeExactly` | crates/silta/src/text.rs:4-6 | for every text and cap: a fenced block that fits stands whole in the chunk where it begins, if and only if its paragraph fits or the chunk begun before it has room for all of it or not even for its first line |
| `ChunkerLaws.FenceCanBeSplit` | crates/silta/src/text.rs:4-6 | a text and a cap for which a block that fits is split |
| `Routing.ValidatePeople` | crates/silta/src/config.rs:296-322 | accepts exactly: names distinct and non-empty, addresses distinct user ids other than the bot's |
| `Routing.ValidateSessions` | crates/silta/src/config.rs:324-388 | accepts exactly: names distinct, users set, one `all` and one `groups` session at most, no person or room listed twice, people known, rooms room ids |
| `Routing.Validate` | crates/silta/src/config.rs:264-391 | accepts exactly the configurations whose bot id is a user id and whose people and sessions are valid |
| `Routing.BuildTables` | crates/silta/src/config.rs:520-558 | for a valid configuration each table maps a key to the one entry that has it, and misses none |
| `Routing.RegisteredFor` | crates/silta/src/config.rs:569-571 | an address is found for exactly the person who lists it |
| `Routing.PeopleIn` | crates/silta/src/config.rs:608-623 | the set of registered people among the members, and whether all but the bot are registered |
| `Routing.Route` | crates/silta/src/config.rs:630-665 | the decision on an inbound message that the theorems are about |
| `Routing.RouteMeans` | crates/silta/src/config.rs:515-517 | as the configuration has it: exactly when a message is dropped and why, and for one delivered its person and whether the room is a group |
| `Routing.RoutedExactly` | crates/silta/src/config.rs:630-665 | as the configuration has it: a message goes to a session if and only if the session lists the room; or, in an unlisted room, is the `groups` session of a group or lists the person otherwise; or is the `all` session and none of these exists |
| `Routing.OwnershipIsRouting` | crates/silta/src/config.rs:708-735 | in an unlisted room of registered members, a session other than `all` owns the room if and only if every member's message is routed to it |
| `Routing.SoleOwner` | crates/silta/src/config.rs:708-735 | so at most one such session owns it |
| `Routing.RecipientMayAnswer` | crates/silta/src/config.rs:669-702 | the session that gets a member's message may write there exactly if it may write anywhere, lists the room, or all members are registered; and read there exactly if it is `all`, lists it, or all are registered |
| `Routing.RightsExactly` | crates/silta/src/config.rs:669-735 | for every session and room, as the configuration has it: it may read if and only if it is `all`, lists the room, or all members are registered and it is `groups` in a group or lists every person otherwise; and write if and only if it may write anywhere or owns the room so; the policy on writing never matters for reading |
| `Routing.UnknownExactly` | crates/silta/src/config.rs:669-702 | a name is unknown exactly if no session has it |
| `Calendar.Ranges` | crates/silta/src/time.rs:19-30 | every intermediate value is in the range noted beside it, for every day number |
| `Calendar.CivilHasItsNumber` | crates/silta/src/time.rs:19-30 | for every day number, negative ones too, the result is a date of the Gregorian calendar with that number |
| `Calendar.CivilExactly` | crates/silta/src/time.rs:19-30 | a date is the result for a day number if and only if it is a date of the calendar and has that number: the inverse of counting days |
| `Calendar.NextNumber` | crates/silta/src/time.rs:19-30 | the next day of the calendar has the next number |
| `Calendar.CivilIsCounted` | crates/silta/src/time.rs:19-30 | for every day from 1970 the arithmetic gives the date that counting day by day gives |
| `Calendar.CivilOrder` | crates/silta/src/time.rs:19-30 | later days have later dates |
| `Stamps.StampOrder` | crates/silta/src/time.rs:5-16 | stamps of years up to 9999, whatever follows them, sort by the second they name (section 5.1 of RFC 3339) |
| `Stamps.StampReadsBack` | crates/silta/src/time.rs:5-16 | a stamp has the form of section 5.6 of RFC 3339, and read back field by field through the calendar it names the very second it was made from |
| `Stamps.StampIsStamp` | crates/siltad/src/backup.rs:28-38 | the name of a copy passes the test for copies exactly up to the year 9999 |
| `Stamps.CopiesSortByTime` | crates/siltad/src/backup.rs:28-38 | names of copies sort by time and are equal exactly within one second |
| `Stamps.TenThousandSortsFirst` | crates/silta/src/time.rs:5-16 | the year 10000 sorts before the year 9999 |
| `Stamps.SnapshotOrder` | crates/silta-session/src/state.rs:224-228 | the exact order of snapshot names, with the two moments of one second reversed |
| `Pruning.Folder.Collect` | crates/siltad/src/backup.rs:118-132 | temporary directories go, and the copies are collected |
| `Pruning.Folder.RemoveOldest` | crates/siltad/src/backup.rs:133-139 | of the sorted copies exactly the newest are left |
| `Pruning.Folder.PruneCopies` | crates/siltad/src/backup.rs:117-141 | of all copies exactly the newest `keep` stay, nothing else but temporary directories goes, and the count is right |
| `Pruning.Folder.PruneSnapshots` | crates/silta-session/src/state.rs:250-262 | of all snapshots exactly the last `2 * keep` by name stay, and nothing else goes |
| `Pruning.NewestAre` | crates/siltad/src/backup.rs:133-139 | what is kept is as many as asked for, if there are, and sorts after all that goes |
| `Pruning.CopiesKeptAreNewest` | crates/siltad/src/backup.rs:117-141 | every copy kept is newer in time than every copy removed |
| `Pruning.SnapshotsKeptAreNewest` | crates/silta-session/src/state.rs:250-262 | for every set of snapshots: all kept are newer than all removed, if and only if no pair of one second, before and after a handoff, has exactly `2 * keep - 1` names after its first |
| `Pruning.NewerSnapshotLost` | crates/silta-session/src/state.rs:250-262 | three snapshots of which the newer of a pair is removed |
| `Pruning.SnapshotsAre` | crates/silta-session/src/state.rs:250-256 | a name is taken for a snapshot's if and only if it ends in one of the two moments, and every one that is taken is |
| `Pruning.TemporariesAre` | crates/siltad/src/backup.rs:118-132 | a name is taken for a temporary one exactly between a dot and `.tmp`, as a copy is named while it is made |
| `Journal.ResultBytes` | crates/silta-session/src/stream.rs:332-339 | the bytes of the texts of a tool result |
| `Journal.CountBlocks` | crates/silta-session/src/stream.rs:309-342 | the loop's counters are the numbers of blocks by kind, their bytes, tool names in order and failures |
| `Journal.Summarize` | crates/silta-session/src/stream.rs:295-384 | the line written is the one that non-interference is about |
| `Journal.NonInterference` | crates/silta-session/src/stream.rs:295-384 | two lines with the same block kinds, tool names, sizes, error flags, model, stop reason and usage have the same journal line, if and only if a user's lines agree on being a channel delivery |
| `Journal.TextsNeverMatter` | crates/silta-session/src/stream.rs:197-220 | for an assistant's line, or one whose origin is the channel, texts never show |
| `Journal.LabelsNameTheirFields` | crates/silta-session/src/stream.rs:344-384 | model, stop reason and prompt size stand under their own labels, if and only if the message has them |
| `JournalMessages.CountsWhatIsMeant` | crates/silta-session/src/stream.rs:295-342 | for every message as Claude Code means it, what is counted of its line is how many texts, tools, results, failures and other blocks it has, with the bytes of what was said and answered |
| `JournalMessages.TellsWhatIsMeant` | crates/silta-session/src/stream.rs:295-384 | and its journal line says so, with the size of the prompt in the main conversation, and whether a person wrote it |
| `JournalMessages.CountsAreWritten` | crates/silta-session/src/stream.rs:344-362 | the wording of the counts |
| `JournalMessages.FailuresAreWritten` | crates/silta-session/src/stream.rs:350-358 | and of the failures |
| `Typing.Table.StartTask` | crates/siltad/src/daemon.rs:248-272 | a room with a task keeps it, losing its watch on an unwatched start; else a task of a new generation |
| `Typing.Table.StopRoom` | crates/siltad/src/daemon.rs:311-315 | the room's entry goes and its task is cancelled |
| `Typing.Table.StopTasks` | crates/siltad/src/daemon.rs:318-330 | the loop over a session's rooms drops exactly those |
| `Typing.Table.EndTask` | crates/siltad/src/daemon.rs:280-299 | a task leaves its loop on its token or at the cap, where a watched one reports |
| `Typing.Table.FinishTask` | crates/siltad/src/daemon.rs:300-305 | a task removes its entry only if it is still its own |
| `Typing.StepKeeps` | crates/siltad/src/daemon.rs:248-330 | registered is exactly what is neither cancelled nor finished, at every step |
| `Typing.AlwaysOneLiveTask` | crates/siltad/src/daemon.rs:248-330 | under every interleaving an entry has an uncancelled task of its own room and generation, no room has two, none is reported twice |
| `Typing.FinishSparesOthers` | crates/siltad/src/daemon.rs:300-305 | a finishing task never removes a newer entry |
| `Typing.GoneForGood` | crates/siltad/src/daemon.rs:300-305 | after it finished nothing is ever registered under its generation |
| `Typing.SessionEndLeavesNone` | crates/siltad/src/daemon.rs:318-330 | the end of a session leaves no entry and no live task of it, and touches no other |
| `Typing.DeliveryWatchedExactly` | crates/siltad/src/daemon.rs:248-255 | under every interleaving a delivery is watched if and only if its room had no task, or a watched one before its cap |
| `Typing.SilenceExactly` | crates/siltad/src/daemon.rs:280-299 | over every run silence is reported for a task if and only if a delivery started it, it reached its cap before seeing a cancellation, and no unwatched start came in its room between |
| `Typing.ReportedAfterStopExactly` | crates/siltad/src/daemon.rs:311-330 | over every run a task stopped by a reply or the end of its session reports silence after that if and only if the cap came before it saw the stop |
| `Typing.LateDeliveryUnwatched` | crates/siltad/src/daemon.rs:248-255 | a delivery between a task's cap and its clean-up is left without a task |
| `Typing.NextDeliveryUnwatched` | crates/siltad/src/daemon.rs:250-255 | a delivery after something was shown is not watched and never reported |
| `Typing.ReplyTooLate` | crates/siltad/src/daemon.rs:284-299 | a reply that stops a task whose cap comes first does not keep it from reporting |

## Left out

- Matrix: login, encryption, sync, sending, receipts and downloads; they are calls into a client library.
- Process spawning, signals, pipes, environment and credentials; Claude Code is an unconstrained source of events, and planning a start and spawning it are one step.
- File-system failures, and a `clear_rotation` that removes only one of its files; the disk is a record that is written whole.
- Whether the handoff note was written is an input; modification times are not modelled.
- A restart of the daemon loses the events in flight and in the backlog, which it keeps in memory only; no durability is claimed. The pause before a retry is lost with the supervisor's process too.
- JSON and TOML parsing, UTF-8 validation and base64; a line is bytes, a message a JSON value, a chunk its bytes or undecodable.
- The path a received file is stored under, which is not injective in the transfer id; contents are kept by transfer id.
- `Run` in the supervisor, `Registry` in the daemon and the plugin's `serve` loop are values moved by functions, one per lock section or loop turn, because what is proved of them is about interleavings; update in place within a section is not captured there.
- The checks of `Config::validate` on the socket, the state directory, the homeserver, password, device id and limits, and the error texts; `people_for`, `warnings` and the other accessors: easy members.
- System, result and control lines of the journal; only user and assistant messages are reduced here.
- Timeouts of `submit`, the reconnection backoff, alerts, host-line wording, MCP schemas, history rendering and `human_size`.
- Counters of bytes, generations and ids are unbounded; only the replay window, the backlog's saturating age and the context size are modelled at 64 bits.
