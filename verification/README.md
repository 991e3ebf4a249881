# A verified model of dutctl's agent core

dutctl lets users run commands on devices under test (DUTs) through an agent.
This project models the four parts of the agent whose correctness is not visible
from one function body, and proves what they promise:

- **the serial module** (`EscapeFilter`, `Engine`, `EngineMeaning`,
  `EngineEnds`, `EngineLoops`, `Steps`): an incremental terminal-escape filter that carries a
  partial sequence across reads, a send/expect engine that matches on a bounded
  rolling window, the step parser and the send-escape decoder;
- **the device locker and the Run handlers** (`Locker`, `Handlers`, `Driver`,
  `Outcome`, `Templating`): two kinds of hold, reservations that are pruned
  lazily, many handlers interleaved over one locker, the driver of one handler,
  what the result of a run says about the modules, and the arguments each module
  is given;
- **the session broker** (`Session`, `SessionOrder`, `SessionSend`,
  `SessionAstray`, `SessionFiles`, `SessionMixup`, `SessionVerdict`,
  `SessionTurnaway`, `SessionReply`, `SessionEnds`,
  `SessionStdin`, `SessionTeardown`, `ErrChannel`): the module's goroutine, two
  workers, a receive loop and a closer over unbuffered channels and a shared
  current-file name;
- **the channel-backed reader** (`ChanReader`).

`Base` holds what they share: bytes, options, flattening, subsequences.

## How the model is built

Objects that the source updates in place are classes (`SerialEngine`,
`DeviceLocker`, `ChannelReader`); each method is proved equal to a function on
the object's old value (`Engine.Expect`, `Locker.Apply`, `ChanReader.Read`, ...),
and the properties are proved about those functions, over every history. Loops of
the source are loops here, with their invariants. One Run handler is modelled as
it is written (`RunHandler`): its driver loop and state functions work on a
`DeviceLocker`, resolve the modules' arguments, wait for an answer of `Outcome`,
and are proved to follow the step system of all handlers.

What is concurrent is a step system: a state, the steps that are possible in it,
and `Path`/`After` for an arbitrary interleaving. A rendezvous is one step of both
partners; a select with several ready cases may take any of them, cancellation
included. Theorems are about every path from the initial state.

Everything outside is a parameter. The port, the context and the client's sink
are a history of turns; a history may end while the engine still waits (outcome
`Pending`). Each locker call is given the clock readings it takes, several where
the source reads the clock several times, and they never go back. A regular
expression is a language together with the end the matcher prefers for a match
that starts at the front of a text; this is what an expression without anchors
is, and the module's help text advises against anchors. `Windowed` says that no
match spans more than the match window.

## What turned out otherwise than documented

Each of these comes with an input that shows it and with the condition under
which the code does meet the promise.

- `pkg/module/serial/engine.go:24-29` says a match longer than the window cannot
  match. It can: the buffer is searched before it is cut. Exactly the patterns
  that match some text of up to the window and one read can ever match
  (`EngineMeaning.MatchableExactly`, with `EngineMeaning.LongMatchSucceeds` for
  the history of reads); and after any reads a match is found exactly if one
  begins no more than a window before the last of them
  (`EngineMeaning.FoundExactly`).
- Filtering in chunks equals filtering the whole stream if and only if no
  unfinished sequence at a chunk boundary exceeds 16 KiB
  (`EscapeFilter.ChunkingInvisibleIff`).
- Two users can be inside one device at once if one of them overlaps two runs on
  it, or after a forced unlock (`Handlers.OverlapBreaksExclusion`,
  `Handlers.ForceBreaksExclusion`); otherwise they cannot
  (`Handlers.MutualExclusion`).
- `fromClientWorker` clears the current file after handing a reply over, and so
  can wipe the name of the next request; a client that answers properly is then
  turned away (`SessionFiles.HonestClientTurnedAway`). A reply is rejected exactly
  if the name was so wiped, is empty, or the reply has no content
  (`SessionVerdict.JudgedExactly`, `SessionVerdict.WipedExactly`). A module can have
  a reply with content turned away exactly if it requests a file without a name,
  or requests one and later requests or sends another
  (`SessionTurnaway.TurnedAwayExactly`); if it gives up no request, exactly if it
  requests one without a name, or two (`SessionTurnaway.TurnedAwayWaitingExactly`).
- A reply with an empty file is always turned away: the content field of a file
  message has no presence (`protobuf/dutctl/v1/dutctl.proto:116`), so encoders
  leave empty bytes out and the file arrives without content, the case of no
  content in `SessionVerdict.JudgedExactly`.
- Both workers use one file channel, so `toClientWorker` can take the reply meant
  for the module and send the client its own file back
  (`SessionFiles.ReplyEchoedToClient`). This, the end of `fromClientWorker` and
  the end of the receive loop are the only ways a reply is lost
  (`SessionReply.ReplyLostExactly`).
- A reply that is not lost can still be stuck: input typed before it is offered
  first, to a module that waits for the file
  (`SessionReply.InputBeforeReplyBlocks`). Whether a reply can still reach the
  module is decided by `SessionReply.AnswerableExactly`.
- A reader returned by `RequestFile` carries the content of the requested file
  unless the module gave up an earlier request at teardown
  (`SessionFiles.ReaderHasRequestedContent`,
  `SessionFiles.AbandonedReplyResurfaces`). A module can come to read another
  request's file exactly if it makes two requests, the earlier of them named
  (`SessionMixup.MixUpExactly`).
- What the client is sent, files with their names included, can differ from what
  the module handed over exactly if the module requests a file by name, or leaves
  out the name of a request or a file before it sends a named one
  (`SessionAstray.AstrayExactly`); everything else arrives in every interleaving
  (`SessionAstray.OthersArrive`). For a module that is at risk, it arrives as long
  as its files have names, no request was given up and no reply stolen
  (`SessionSend.ClientGetsFilesAsSent`); each of the three is needed
  (`SessionSend.UnnamedFileMisnamed`, `SessionSend.AbandonedRequestMisnames`,
  `SessionFiles.ReplyEchoedToClient`).

## Model

| member | source | states |
|---|---|---|
| `EscapeFilter.CsiEnd` | pkg/module/serial/engine.go:297-320 | The index loop finds the end of a control sequence exactly as the grammar has it: what it spans is one complete (ended or aborted) sequence, and -1 means the text is an unfinished one. |
| `EscapeFilter.StringSeqEnd` | pkg/module/serial/engine.go:325-346 | The same for control strings: ended by ST, "ESC \", or BEL for an OSC, at the first such place. |
| `EscapeFilter.SeqEnd` | pkg/module/serial/engine.go:273-286 | The same for any escape, including the two-byte rule (so "ESC ( B" leaves a visible B). |
| `EscapeFilter.CompleteLen` | pkg/module/serial/engine.go:273-346 | The grammar is deterministic: at most one prefix of a text is a complete sequence in front of what follows it. |
| `EscapeFilter.SeqLenComplete` | pkg/module/serial/engine.go:273-346 | A text that starts with ESC either has a complete sequence in front or is itself a partial one. |
| `EscapeFilter.StripEscapes` | pkg/module/serial/engine.go:246-269 | The filter loop computes the visible text and the carried remainder of the left-to-right reading. |
| `EscapeFilter.SegmentationExists` | pkg/module/serial/engine.go:242-269 | Every byte string reads as plain bytes, complete sequences and one partial tail. |
| `EscapeFilter.SegmentationUnique` | pkg/module/serial/engine.go:242-269 | It reads so in only one way. |
| `EscapeFilter.StripOfSegmentation` | pkg/module/serial/engine.go:242-269 | The filter's output is the text of that reading and its remainder is the tail. |
| `EscapeFilter.StripShape` | pkg/module/serial/engine.go:242-269 | The output has no ESC, is a subsequence of the input, and the remainder is a partial sequence or nothing. |
| `EscapeFilter.CsiRemoved` | pkg/module/serial/engine.go:206-215 | For any parameter, intermediate and final bytes in the ranges of the control sequence, the sequence is removed and nothing else. |
| `EscapeFilter.CsiCarried` | pkg/module/serial/engine.go:307-309 | Without its final byte it is carried whole. |
| `EscapeFilter.CsiBroken` | pkg/module/serial/engine.go:311-317 | A byte outside the ranges, or a parameter after an intermediate, aborts it: what came before is removed and the byte is read anew. |
| `EscapeFilter.StringRemoved` | pkg/module/serial/engine.go:288-346 | For each of the five introducers and any body, a control string is removed up to ST, "ESC \", or for an OSC alone BEL. |
| `EscapeFilter.StringCarried` | pkg/module/serial/engine.go:345-345 | Without such an end it is carried whole, a BEL in it included if it is no OSC. |
| `EscapeFilter.TwoRemoved` | pkg/module/serial/engine.go:283-284 | ESC and any other byte are removed, and nothing after them. |
| `EscapeFilter.StripAppend` | pkg/module/serial/engine.go:219-240 | Filtering a, then the remainder with b in front of it, is filtering a + b at once. |
| `EscapeFilter.CompletionReachesPastPartial` | pkg/module/serial/engine.go:224-229 | A carried partial sequence, once completed, ends no earlier than where the new chunk starts. |
| `EscapeFilter.CleanFromChunkAlone` | pkg/module/serial/engine.go:219-240 | Carried bytes never resurface: what one call lets through is a subsequence of the new chunk alone, and the remainder keeps its form and bound. |
| `EscapeFilter.ChunkingInvisible` | pkg/module/serial/engine.go:217-240 | For every stream and every split that never overflows the carry, chunked filtering equals filtering the whole. |
| `EscapeFilter.ChunkingInvisibleIff` | pkg/module/serial/engine.go:231-237 | Exactly then: all prefixes are filtered as one piece if and only if no boundary overflows. |
| `EscapeFilter.ChunkedOutputIsSegmentedText` | pkg/module/serial/engine.go:242-269 | The chunked output is the ESC-free text of the one segmentation of the whole stream. |
| `EscapeFilter.CleanAllConcat` | pkg/module/serial/engine.go:219-240 | Filtering two runs of chunks one after the other is filtering them as one run. |
| `Engine.TrailsCaps` | pkg/module/serial/engine.go:64-75 | After a failed search, cutting the buffer to its window drops only text no match can start in. |
| `Engine.TrailsGrows` | pkg/module/serial/engine.go:82-96 | That stays so whatever is read later, for patterns within the window. |
| `Engine.FindTrailing` | pkg/module/serial/engine.go:68-72 | The cut buffer and the full text have a leftmost match together or not at all, with the same text after it. |
| `Engine.ExpectTrimInvisible` | pkg/module/serial/engine.go:60-107 | One expect: the trimming engine stops at the same turn with the same outcome, output and leftover as one that never trims. |
| `Engine.ScriptTrimInvisible` | pkg/module/serial/serial.go:262-315 | The same for every script, every history of reads and writes, and the drain or monitor mode. |
| `EngineMeaning.ExpectFindsInReach` | pkg/module/serial/engine.go:60-107 | For every pattern: an expect stops at the first turn after which the last window of the earlier text with the text of that turn holds a match, takes the leftmost one there and leaves exactly what follows it. |
| `EngineMeaning.FoundExactly` | pkg/module/serial/engine.go:64-75 | For every pattern: a match is found after j turns if and only if one in the text seen begins no more than a window before the last turn. |
| `EngineMeaning.LiteralFoundExactly` | pkg/module/serial/engine.go:24-29 | A literal of any length is found exactly when it stands in the text from that point on. |
| `EngineMeaning.LongMatchSucceeds` | pkg/module/serial/engine.go:24-29 | From a fresh engine, any text of the pattern's of up to a window and one read is matched by the reads given, though it may exceed the window. |
| `EngineMeaning.MatchableExactly` | pkg/module/serial/engine.go:24-29 | Some history of reads makes an expect succeed on a fresh engine if and only if the pattern matches some text of up to the window and one read, without ESC when filtering. |
| `EngineMeaning.ExpectFindsFirstMatch` | pkg/module/serial/engine.go:55-72 | For a pattern whose matches fit the window, the whole text seen takes the place of the reach: the expect succeeds at the first read after which the text contains a match, and leaves what follows the leftmost one. |
| `EngineEnds.WhyExpectEnds` | pkg/module/serial/engine.go:77-107 | For every pattern, from the turns alone: an expect is cancelled exactly at a done context, fails with a port error exactly at a failed read that delivered nothing, and with a sink error exactly at visible text the client refuses; it waits out everything else, read timeouts included, and is undecided only when all turns are used. |
| `EngineEnds.WhyPumpEnds` | pkg/module/serial/engine.go:142-171 | Monitor and drain end only at a done context (success), at a failed read after its bytes are forwarded (success exactly if it is to be swallowed), or at refused text. |
| `EngineEnds.WhyWriteEnds` | pkg/module/serial/engine.go:111-124 | A send fails exactly at a refused write, and goes on over every short one until all is written. |
| `EngineEnds.PausedSend` | pkg/module/serial/serial.go:286-297 | The pause before a send takes one turn of the timer; a deadline in it cancels the step with nothing written. |
| `EngineEnds.StepsStopAt` | pkg/module/serial/serial.go:276-304 | A script stops at the first step that does not succeed and ends as that step does, from where the steps before it led. |
| `EngineEnds.WhyScriptEnds` | pkg/module/serial/serial.go:258-322 | Without steps the run forwards until the context is done; it drains exactly after a script that completed with a send, whose failed reads do not fail it; after anything else it reads nothing more. |
| `EngineEnds.KeptOutputIsAll` | pkg/module/serial/engine.go:219-222 | An engine that keeps escapes forwards exactly the bytes the port delivered. |
| `EngineMeaning.StepsWrite` | pkg/module/serial/serial.go:276-304 | The port receives the payloads of the completed sends whole, once and in order, and at most a beginning of an interrupted one. |
| `EngineMeaning.ScriptWrites` | pkg/module/serial/serial.go:258-322 | A completed run has written the payloads of all its sends and nothing else. |
| `Engine.ExpectBounded` | pkg/module/serial/engine.go:60-135 | At the top of every turn the buffer is at most window plus one chunk and the remainder within its limit. |
| `Engine.ScriptBounded` | pkg/module/serial/serial.go:262-315 | The bounds hold in every state at the top of a turn or the beginning of a send, over every script, its closing drain or monitor mode. |
| `Engine.WriteKeeps` | pkg/module/serial/engine.go:111-124 | A send over short writes writes the whole payload and empties the buffer, or writes a proper prefix and leaves the buffer. |
| `Engine.ExpectForwards` | pkg/module/serial/engine.go:82-96 | An expect forwards every filtered byte of what it read once and in order. |
| `Engine.PumpForwards` | pkg/module/serial/engine.go:142-171 | So do monitor mode and the drain. |
| `Engine.ScriptForwards` | pkg/module/serial/serial.go:262-315 | So does every script, trimming or not. |
| `Engine.ScriptOutputIsVisibleText` | pkg/module/serial/engine.go:34-39 | From a fresh engine that filters, as long as the sink does not fail and no unfinished sequence at a read boundary exceeds what the filter carries, the client receives exactly the visible text of all the port delivered, filtered as one stream. |
| `EngineLoops.SerialEngine.constructor` | pkg/module/serial/engine.go:51-53 | A new engine has an empty buffer and no remainder. |
| `EngineLoops.SerialEngine.CleanChunk` | pkg/module/serial/engine.go:219-240 | One call of the filter: output and new remainder are those of the filter function on the old remainder. |
| `EngineLoops.SerialEngine.CapBuffer` | pkg/module/serial/engine.go:129-135 | The last window of the buffer is kept. |
| `EngineLoops.SerialEngine.ReadUntil` | pkg/module/serial/engine.go:60-107 | The expect loop ends in the state and outcome of `Expect`, within the memory bounds. |
| `EngineLoops.SerialEngine.PumpUntilDone` | pkg/module/serial/engine.go:142-187 | The forwarding loop of monitor and drain ends as `Pump` does. |
| `EngineLoops.SerialEngine.WriteAll` | pkg/module/serial/engine.go:111-124 | On success the payload follows what was written before and the buffer is empty; otherwise the buffer is untouched. |
| `EngineLoops.SerialEngine.PerformStep` | pkg/module/serial/serial.go:276-304 | One step, an expect or a paced send. |
| `EngineLoops.SerialEngine.RunSteps` | pkg/module/serial/serial.go:258-322 | The step loop with monitor mode and closing drain: final state, outcome and number of completed steps are those of `RunScript`. |
| `Steps.DecodeOfUnits` | pkg/module/serial/step.go:177-225 | Every text made of plain bytes and supported escapes decodes to the values of its units. |
| `Steps.DecodeAcceptsGrammar` | pkg/module/serial/step.go:172-225 | Decoding succeeds exactly on such texts. |
| `Steps.DecodeFailsExactly` | pkg/module/serial/step.go:186-222 | It fails with an error exactly if, after units that are sound, the rest begins with an escape broken in that way. |
| `Steps.EscapesMean` | pkg/module/serial/step.go:198-218 | The short escapes are carriage return, line feed, tab and backslash; hexadecimal digits of either case have their values. |
| `Steps.DecodeConcat` | pkg/module/serial/step.go:177-225 | It distributes over concatenation of accepted texts. |
| `Steps.DecodeNeverLengthens` | pkg/module/serial/step.go:184-184 | The output fits in the capacity reserved for it. |
| `Steps.DecodeEscape` | pkg/module/serial/step.go:172-225 | Every byte string can be written so that decoding gives it back. |
| `Steps.DecodeEscapes` | pkg/module/serial/step.go:177-225 | The decoding loop returns the decoding, or the error of the first bad escape. |
| `Steps.ParsedPrintsBack` | pkg/module/serial/step.go:119-170 | Parsed steps printed as verb and source token are the input tokens, each step carrying what its source means. |
| `Steps.PrintedParsesBack` | pkg/module/serial/step.go:119-170 | Parsing the printed form of steps gives back the steps. |
| `Steps.ParseSucceedsExactly` | pkg/module/serial/step.go:119-170 | Parsing succeeds exactly on the printed forms of meaningful steps. |
| `Steps.ParseFailsExactly` | pkg/module/serial/step.go:122-165 | Parsing fails with an error exactly if, after steps that are right, the next token is wrong in that way: an unknown verb, a missing argument, a bad pattern or bad data. |
| `Steps.ParseSteps` | pkg/module/serial/step.go:119-170 | The token loop returns the parse, or the first error. |
| `ChanReader.ReadConserves` | internal/chanio/chanio.go:57-134 | One Read loses, invents and reorders nothing, never yields (0, nil) for a non-empty request, and holds nothing back at EOF. |
| `ChanReader.ReadEnds` | internal/chanio/chanio.go:70-134 | A Read ends at EOF exactly when it comes to the close, blocks only when nothing is left, is short only if it leaves nothing buffered, and does not wait for the channel if the buffer has enough. |
| `ChanReader.ReadManyConserves` | internal/chanio/chanio.go:67-134 | Over any read sizes, bytes returned plus buffer are the old buffer plus the messages consumed. |
| `ChanReader.ReadToEofIsWholeStream` | internal/chanio/chanio.go:106-131 | Reading a closed channel to EOF yields the whole stream, whatever the sizes. |
| `ChanReader.ReadToEofEnds` | internal/chanio/chanio.go:93-134 | And EOF comes: non-empty reads of a closed channel never block and cannot deliver forever. |
| `ChanReader.ChannelReader.ReadInto` | internal/chanio/chanio.go:67-134 | The reader object fills the caller's slice as `Read` says and leaves the rest of the slice alone. |
| `ChanReader.ChannelReader.FillFromChannel` | internal/chanio/chanio.go:93-134 | The receive loop of Read, skipping empty messages. |
| `Templating.SegmentsRead` | pkg/dut/templating.go:12-13 | Every text has a left-to-right reading into references and literal characters, a reference wherever one starts. |
| `Templating.SegmentationUnique` | pkg/dut/templating.go:12-13 | It has only one. |
| `Templating.ReplaceExpands` | pkg/dut/templating.go:91-104 | The replacement callback yields the one-pass expansion: each declared reference becomes the value of the last declaration, each undeclared one stays as written. |
| `Templating.NoReferencesExpand` | pkg/dut/templating.go:69-77 | A text without references means itself. |
| `Templating.ReferencesInPlace` | pkg/dut/templating.go:54-67 | The references of a text are the names of its references, each in its place, and nothing else. |
| `Templating.CountPassthroughModules` | pkg/dut/dut.go:157-167 | The counting loop counts the passthrough modules. |
| `Templating.CountedPassthrough` | pkg/dut/dut.go:152-155 | The count is positive exactly when some module is passthrough. |
| `Templating.CountedTwice` | pkg/dut/config.go:261-263 | It is more than one exactly when two modules are passthrough. |
| `Templating.ValidateTemplateReferences` | pkg/dut/templating.go:17-42 | Accepts exactly the commands whose static arguments reference declared names; the rejected name is the first undeclared one, in the order of modules, arguments and references. |
| `Templating.CheckCommand` | pkg/dut/config.go:257-283 | The load-time checks pass exactly on commands that satisfy `Loaded`, and each error is reported exactly for its own fault, the first in order. |
| `Templating.BuildTable` | pkg/dut/templating.go:86-89 | The table has exactly the declared names, and gives each the value at the last position where it is declared. |
| `Templating.MadeOfUnique` | pkg/dut/templating.go:91-104 | By position there is one text a template is made into: characters as they stand, for each declared reference the value at its last declaration's position, undeclared ones as written. |
| `Templating.SubstituteArgs` | pkg/dut/templating.go:73-107 | Without declared arguments returns the arguments unchanged; otherwise fails exactly on a wrong count, and makes each argument of its pieces, every declared reference replaced by the runtime value at the position of its last declaration. |
| `Templating.ModuleArgs` | pkg/dut/dut.go:178-203 | For a loaded command: success exactly with a passthrough module or the declared number of arguments; then every module gets the runtime arguments, or its static ones with each reference replaced by the value at the position of its last declaration, none left over. |
| `Locker.ApplyConsistent` | internal/dutagent/locker/locker.go:119-132 | Every call keeps one owner per device across both stores, expired entries included. |
| `Locker.ReachableConsistent` | internal/dutagent/locker/locker.go:337-339 | So does every history. |
| `Locker.BusyEffect` | internal/dutagent/locker/locker.go:269-310 | Busy holds change only by a granted AutoLock, by the owner's release and by a forced clear, and only on that device. |
| `Locker.StatusAgreesWithAccess` | internal/dutagent/locker/locker.go:312-351 | At one moment a device absent from StatusAll admits everybody; a reported one admits exactly its owner and names that hold to others. |
| `Locker.HoldExcludesOne` | internal/dutagent/locker/locker.go:163-175 | While an owner holds a device, a call of anybody else on it is denied and leaves the hold in place. |
| `Locker.HoldExcludes` | internal/dutagent/locker/locker.go:145-325 | Over every history until the owner clears it, a forced clear or expiry, nobody else's Lock, AutoLock, CheckAccess or clear succeeds. |
| `Locker.GrantHolds` | internal/dutagent/locker/locker.go:182-287 | A granted Lock or AutoLock establishes such a hold, lasting at least as long as asked; a new one begins when it is taken and lasts just that long. |
| `Locker.GrantExcludes` | internal/dutagent/locker/locker.go:177-325 | From a granted Lock (while its requested time lasts) or AutoLock, over every later history without the owner's clear or a forced one, every call of anybody else on the device is denied. |
| `Locker.SucceedsExactly` | internal/dutagent/locker/locker.go:177-325 | Acquiring and access succeed exactly for whoever no other owner's live hold shuts out, a clear exactly for the hold's owner, a forced clear exactly on a held device; and what a clear leaves. |
| `Locker.OpenExactly` | internal/dutagent/locker/locker.go:163-175 | Access and acquisition succeed exactly if no other owner has a busy hold or a reservation whose stored expiry is still to come. |
| `Locker.ExpiryExactly` | internal/dutagent/locker/locker.go:63-67 | A reservation ends at its expiry, neither later nor earlier: before it every call and the report treat the device as its owner's alone, from it on as free to everybody. |
| `Locker.BusyWithoutEnd` | internal/dutagent/locker/locker.go:266-310 | A busy hold has no end whatever the time: every call answers by its owner, and only its owner's release or a force ends it. |
| `Locker.UntouchedIsFree` | internal/dutagent/locker/locker.go:145-351 | A device nobody has anything on is free to everybody and has nothing to clear or report. |
| `Locker.BadDurationRefused` | internal/dutagent/locker/locker.go:182-185 | A duration that is not positive is refused and changes nothing. |
| `Locker.OtherDevicesKept` | internal/dutagent/locker/locker.go:143-351 | A call leaves other devices' holds alone, but for reservations whose time is over. |
| `Locker.ReservationLapses` | internal/dutagent/locker/locker.go:177-214 | After any history of extensions, everybody is let in from the latest moment requested on, and only the owner before it. |
| `Locker.PruningInvisibleOne` | internal/dutagent/locker/locker.go:143-161 | One call on the lazily pruned stores reports what a locker that drops reservations exactly at expiry reports. |
| `Locker.PruningInvisible` | internal/dutagent/locker/locker.go:143-161 | The same for every result of every history with a clock that never goes back. |
| `Locker.ExtendOne` | internal/dutagent/locker/locker.go:198-208 | A call changes a live reservation at most by raising its expiry to the one the owner requests. |
| `Locker.ReservationExtends` | internal/dutagent/locker/locker.go:177-214 | A reservation that never lapses keeps its LockedAt, expires at the maximum of all requested expiries, and excludes others throughout. |
| `Locker.DeviceLocker.constructor` | internal/dutagent/locker/locker.go:135-141 | A new locker holds nothing. |
| `Locker.DeviceLocker.LiveReservation` | internal/dutagent/locker/locker.go:145-161 | Returns the reservation and keeps it exactly if its expiry is still to come; otherwise prunes it. |
| `Locker.DeviceLocker.CheckLocked` | internal/dutagent/locker/locker.go:165-175 | Names the blocking hold, the reservation before the busy hold. |
| `Locker.DeviceLocker.Lock` | internal/dutagent/locker/locker.go:182-214 | New stores and result are those of `Apply`, and the invariant is kept. |
| `Locker.DeviceLocker.ClearLock` | internal/dutagent/locker/locker.go:220-236 | The same; busy holds are untouched. |
| `Locker.DeviceLocker.ForceClearLock` | internal/dutagent/locker/locker.go:242-264 | The same; afterwards the device carries no hold. |
| `Locker.DeviceLocker.AutoLock` | internal/dutagent/locker/locker.go:269-287 | The same; idempotent for the owner. |
| `Locker.DeviceLocker.ClearAutoLock` | internal/dutagent/locker/locker.go:293-310 | The same; reservations are outside its frame. |
| `Locker.DeviceLocker.CheckAccess` | internal/dutagent/locker/locker.go:315-325 | The same; changes nothing but an expired reservation. |
| `Locker.DeviceLocker.StatusAll` | internal/dutagent/locker/locker.go:331-351 | The loop over the map, in any order and with a clock reading per device, gives the report and the pruned store of `Apply`. |
| `Handlers.StepNoOrphans` | cmds/dutagent/rpc.go:377-389 | Every step of any handler or RPC keeps: each busy hold belongs to a handler that has yet to release it. |
| `Handlers.NoBusyLeaks` | cmds/dutagent/rpc.go:377-389 | In every interleaving, forced unlocks included, once no handler is between acquire and release nothing is busy. |
| `Handlers.TeardownReleases` | cmds/dutagent/rpc.go:340-351 | The deferred release leaves no busy hold of its user on the device and touches no reservation, no other user's hold and no other device. |
| `Handlers.FinishedByRelease` | cmds/dutagent/rpc.go:379-389 | A handler ends by exactly one pass through the deferred release, however it ended. |
| `Driver.RunHandler.constructor` | cmds/dutagent/rpc.go:377-397 | A Run begins with an empty auto-lock record, before its first state. |
| `Driver.RunHandler.ReceiveCommand` | cmds/dutagent/states.go:60-76 | The first state leads on with a device, or out with an error. |
| `Driver.RunHandler.FindCommand` | cmds/dutagent/states.go:88-113 | The second leads on, or out with an error. |
| `Driver.RunHandler.CheckDeviceAccess` | cmds/dutagent/states.go:123-134 | Leads on exactly if no other owner has an unexpired hold on the device at the locker's clock reading, and fails with the hold that blocks otherwise. |
| `Driver.RunHandler.AcquireAutoLock` | cmds/dutagent/states.go:145-161 | Takes the auto-lock and records it exactly if no other owner has an unexpired hold on the device; otherwise leads out with the record untouched. |
| `Driver.RunHandler.ExecuteModules` | cmds/dutagent/states.go:184-257 | Resolves the argument lists of the modules and leads on to the waiting state, or out with an error exactly if they do not resolve. |
| `Driver.RunHandler.WaitModules` | cmds/dutagent/states.go:274-309 | The last state ends the run without an error exactly if the modules and the broker, run on the resolved lists, are answered with success; then every module ran once, in order, with its own arguments. |
| `Driver.RunHandler.CallState` | internal/fsm/fsm.go:39-39 | Any state function: it leads to the next state, to the end, or out by error or panic, with the record as the locker has it. |
| `Driver.RunHandler.DriveStates` | internal/fsm/fsm.go:29-48 | The driver loop: it leaves the states on a done context, an error, a panic or no next state, whatever other handlers do in between; each ending is explained by what happened, every failure by its cause. |
| `Driver.RunHandler.LetOthersLast` | cmds/dutagent/rpc.go:379-389 | Others act once more between the last state and the release, a forced unlock included, and leave this handler's entry as it is. |
| `Driver.RunHandler.ReleaseDeferred` | cmds/dutagent/rpc.go:385-389 | The deferred release on the real locker: whatever holds there are by then, it leaves no busy hold of this user on a device the run acquired. |
| `Driver.RunHandler.Serve` | cmds/dutagent/rpc.go:377-399 | The whole run, deferred release included, is an interleaving of the step system; it ends released, and returns no error only if every module of the command ran once, in order, with the arguments resolved for it, and both workers ended cleanly. |
| `Handlers.StepExclusive` | cmds/dutagent/states.go:145-161 | Every orderly step keeps: each handler inside holds its device, and no user has two active runs on one. |
| `Handlers.MutualExclusion` | cmds/dutagent/states.go:145-161 | Without forced unlocks and without one user overlapping runs on a device, at most one handler per device is between acquire and release. |
| `Handlers.OverlapBreaksExclusion` | internal/dutagent/locker/locker.go:278-280 | For any two users and any device: overlapping runs of the first let the second in beside it. |
| `Handlers.ForceBreaksExclusion` | cmds/dutagent/rpc.go:310-311 | For any two users and any device: a forced unlock does the same, with one run each. |
| `Handlers.LockRpcMeans` | cmds/dutagent/rpc.go:229-284 | The Lock RPC reserves the named device for the caller, for the seconds asked or half an hour if none are, unless another's hold shuts the caller out; a negative duration changes nothing, and no other device is touched. |
| `Handlers.UnlockRpcMeans` | cmds/dutagent/rpc.go:310-319 | An unlock ends the caller's own reservation on the named device and nothing else but one whose time is over. |
| `Handlers.ForceUnlockRpcMeans` | cmds/dutagent/rpc.go:310-311 | A forced unlock frees the named device altogether and touches no other. |
| `Outcome.StepInvariant` | cmds/dutagent/states.go:213-303 | Every step of the module goroutine, the broker or the waiting state keeps the log and the channels accounted for. |
| `Outcome.AnswerIsTrue` | cmds/dutagent/states.go:259-309 | Success only if all modules ran once, in order, with their own arguments, returning nil, and both workers ended without error; a module failure only if the modules before it went well and it returned an error; each other failure answered did happen. |
| `Outcome.WhatHappensIsAnswered` | cmds/dutagent/states.go:278-302 | In every interleaving, while the run is waited for: a module's error, a worker's first error and a cancellation are each still there, and taking it is the answer. |
| `Outcome.RestIsAnswered` | cmds/dutagent/states.go:274-309 | A run in which nothing but a cancellation can change anything is answered; with all modules returned nil, both workers ended clean and no cancellation, the answer is success. |
| `Outcome.ChangesBounded` | cmds/dutagent/states.go:215-303 | And it comes to rest: no run takes more steps that change anything than two for each module and thirteen. |
| `Outcome.NothingStartsAfterCancel` | cmds/dutagent/states.go:219-224 | Once the context is cancelled no module is started any more. |
| `Outcome.SuccessRanTheCommand` | cmds/dutagent/states.go:205-254 | For a command and its runtime arguments: module i was started with the argument list ModuleArgs promises for index i, and nothing else was. |
| `ErrChannel.PostNeverBlocks` | internal/dutagent/session/broker.go:49-50 | A worker about to report an error finds room and an open channel. |
| `ErrChannel.StepValid` | internal/dutagent/session/broker.go:95-146 | Every event keeps: each worker has sent its own error once or nothing, and nothing in the channel comes from elsewhere. |
| `ErrChannel.ChannelDiscipline` | internal/dutagent/session/broker.go:53-93 | In every interleaving at most one error per worker; closed once, after both have left; draining it yields every error, none exactly if both ended cleanly. |
| `Session.StepSound` | internal/dutagent/session/worker.go:29-262 | Every step of the interleaved session keeps worker functions, goroutine stages and the error channel in agreement. |
| `Session.ReportsDisciplined` | internal/dutagent/session/broker.go:53-146 | The error-channel discipline holds in every interleaving of the whole session. |
| `SessionEnds.ToEndsExactly` | internal/dutagent/session/worker.go:24-77 | In every interleaving toClientWorker has ended with a stream error exactly if a send failed, without an error exactly if it saw the context done, and otherwise not. |
| `SessionEnds.FromEndsExactly` | internal/dutagent/session/worker.go:114-262 | fromClientWorker has ended with a stream error exactly if a failed receive came to it, with a bad transfer exactly if a bad file message did, and without an error exactly if the client closed the stream or it saw the context done. |
| `SessionEnds.FaultlessChannelEmpty` | internal/dutagent/session/broker.go:53-146 | Without such a fault the error channel is given nothing and closes empty; closed, it was given something exactly if there was one. |
| `SessionEnds.CancelledExactly` | internal/dutagent/session/broker.go:95-146 | The context is done exactly if the parent was cancelled or a worker cancelled on leaving. |
| `SessionEnds.SeenOnlyWhenDone` | internal/dutagent/session/session.go:85-219 | No goroutine of the session acts on a done context before it is done. |
| `SessionEnds.OneEndsAll` | internal/dutagent/session/broker.go:117-144 | The end of either worker is the end of the session: going no further after it, the session has ended altogether. |
| `SessionOrder.StepInOrder` | internal/dutagent/session/worker.go:29-77 | Every step keeps what was taken, sent and in hand in program order. |
| `SessionOrder.StepKeepsProgram` | internal/dutagent/session/session.go:85-219 | No call of the module is lost, repeated or reordered. |
| `SessionOrder.ClientSeesProgramOrder` | internal/dutagent/session/worker.go:29-77 | What the worker takes is a subsequence of the module's messages in program order across all channels, files included; prints, output and file requests sent, with at most one in hand, are those taken, and before teardown none is missing. |
| `SessionSend.StepSmooth` | internal/dutagent/session/session.go:186-219 | Every step keeps the current-file name in one pair of hands at a time, and every message sent or in hand as the module gave it. |
| `SessionSend.ClientGetsFilesAsSent` | internal/dutagent/session/worker.go:78-109 | With a client that replies only to requests it was sent, named files, no request abandoned and no reply stolen: everything sent, file names and contents included, is what the module handed over, in program order and once. |
| `SessionAstray.StepSure` | internal/dutagent/session/worker.go:63-109 | Every step keeps, for a module without such calls: whatever overwrites the current file writes the empty name when no other is left to lose, and what was sent or is in hand is what was taken. |
| `SessionAstray.AstrayExactly` | internal/dutagent/session/session.go:147-219 | For every program of calls: in some interleaving with a prompted client what was sent differs from what the module handed over if and only if it requests a file by name, or leaves out the name of a request or file before it sends a named one. |
| `SessionAstray.OthersArrive` | internal/dutagent/session/worker.go:29-109 | For every other program, in every interleaving, given-up requests included: everything sent, names and contents included, with at most one message in hand, is what the module handed over, in program order and once. |
| `SessionSend.UnnamedFileMisnamed` | internal/dutagent/session/session.go:187-203 | For any second name: a file sent under the empty name is delivered under the next file's name. |
| `SessionSend.AbandonedRequestMisnames` | internal/dutagent/session/worker.go:63-77 | For any two names: a file sent after a request was given up is delivered under the requested name. |
| `SessionStdin.StepInPipe` | internal/dutagent/session/worker.go:195-209 | Every step keeps stdin messages in order from client to module. |
| `SessionStdin.StdinArrivesInOrder` | internal/dutagent/session/worker.go:195-209 | In every interleaving what the module read of stdin is a prefix of what the client typed, and while worker and loop live the rest is on its way complete. |
| `SessionStdin.StdinBytesInOrder` | internal/dutagent/session/session.go:114-141 | In bytes: what the module's stdin reader returned, with reads of any sizes, and what it buffers begin the bytes the client typed. |
| `SessionFiles.StepKept` | internal/dutagent/session/worker.go:214-256 | Every step with an honest client keeps: files in the air answer the request being waited on, and every reader is on its own reply, until a request is abandoned. |
| `SessionFiles.ReaderHasRequestedContent` | internal/dutagent/session/session.go:147-181 | A reader RequestFile returns is on a reply of the client's; unless an earlier request was abandoned, on the reply to this request, and reading it to EOF with any sizes yields that content. |
| `SessionFiles.AbandonedReplyResurfaces` | internal/dutagent/session/session.go:165-171 | After an abandoned request, for any two names and content: the next request's reader carries the first request's file. |
| `SessionFiles.ReplyEchoedToClient` | internal/dutagent/session/worker.go:78-109 | For any name and content: an interleaving without cancellation in which the client's reply is sent back to it and the module waits on with nothing in the air. |
| `SessionFiles.HonestClientTurnedAway` | internal/dutagent/session/worker.go:246-256 | For any two names and content: an interleaving without cancellation in which a client answering both requests properly is rejected. |
| `SessionMixup.MixUpExactly` | internal/dutagent/session/session.go:147-181 | For every program of calls: some interleaving with an honest client gives a reader another request's file if and only if the module makes two requests, the earlier of them named. |
| `SessionVerdict.StepOnRecord` | internal/dutagent/session/worker.go:63-77 | Every step keeps: while the module waits and no request was given up, the current file is the requested name, unless it is yet to be recorded, was wiped, or the reply was stolen. |
| `SessionVerdict.JudgedExactly` | internal/dutagent/session/worker.go:214-234 | In every interleaving with a prompted client and no request given up: a reply is rejected exactly if the name is empty, the content is missing or the name was wiped, and is otherwise offered to the module. |
| `SessionVerdict.WipedExactly` | internal/dutagent/session/worker.go:256-256 | A name was wiped exactly if the current file was cleared while the module waited with the next name already recorded. |
| `SessionTurnaway.StepCalm` | internal/dutagent/session/worker.go:63-109 | Every step keeps, for a module with one named request and files only before it: from the request on nothing else sets the current file until the reply is judged. |
| `SessionTurnaway.TurnedAwayExactly` | internal/dutagent/session/worker.go:214-234 | For every program of calls: some interleaving turns a prompted client's reply with content away if and only if the module requests a file without a name, or requests one and later requests or sends another. |
| `SessionTurnaway.TurnedAwayWaitingExactly` | internal/dutagent/session/worker.go:214-256 | The same over interleavings in which no request is given up: if and only if it requests a file without a name, or two files. |
| `SessionReply.StepConserved` | internal/dutagent/session/worker.go:119-262 | Every step keeps: the reply awaited, once sent and not stolen, is in the air as long as the worker and the receive loop go on. |
| `SessionReply.ReplyLostExactly` | internal/dutagent/session/worker.go:119-262 | In every interleaving: the reply is off its way exactly if it was stolen, the worker has ended, or the receive loop was over before passing it on. |
| `SessionReply.AnswerableExactly` | internal/dutagent/session/worker.go:174-256 | In every interleaving, once the client has replied: some continuation without giving up hands the module its file if and only if the worker offers it, or it would pass and is being judged or is the first message an idle worker will not skip. |
| `SessionReply.InputBeforeReplyBlocks` | internal/dutagent/session/worker.go:195-209 | For any input and content: an interleaving without cancellation in which input typed ahead of the reply leaves no continuation that delivers it, unless the module gives up. |
| `SessionTeardown.OwnStepShrinks` | internal/dutagent/session/worker.go:29-262 | Every step of a session goroutine lowers one measure of the whole session. |
| `SessionTeardown.StepsBounded` | internal/dutagent/session/worker.go:29-262 | So from any moment the goroutines together take at most that many steps, plus ten for each later client message. |
| `SessionTeardown.NobodyStuck` | internal/dutagent/session/session.go:85-219 | After cancellation every unfinished goroutine, in whatever call, has a step that waits for no partner. |
| `SessionTeardown.QuietMeansEnded` | internal/dutagent/session/broker.go:61-146 | A cancelled session that can go no further has ended altogether: module calls returned, workers and loop gone, error channel closed. |

## Left out

- Module goroutines that outlive an aborted run: exclusion is stated for handlers, not for the modules they started.
- Update in place of the session and of the Run arguments: goroutines and handlers share them concurrently, so they are step systems on values.
- Blocking inside a rendezvous: filling and closing the handed-over file channel is part of the hand-over step, since neither can block.
- `ChanWriter` and the formatting of Print, Printf and Println: each is one message offered on its channel.
- What a module does with bytes of stdin it has received: `ReadStdin` stands for one blocked receive of the console reader.
- Anchors and word boundaries in expect patterns, and how RE2 finds a match.
- Whole-configuration YAML decoding: only the checks on a decoded command are modelled.
- Lock durations over 9223372036 seconds, where the multiplication in the Lock RPC wraps.
- Anonymous callers, unknown devices in Lock, and the mapping of errors to RPC codes: they reject a request before it reaches the locker, or rename its result.
- `clientWriter`'s line bookkeeping and step markers: they add text between the forwarded output and do not change its bytes.
- `resolveEOL` and flag parsing: the line ending and the keep-escapes flag are parameters of the parser and the engine.
- Version compatibility, file path handling, hardware and network modules, the dutserver relay, the command-line client and its output formats: foreign calls and presentation.
- State functions of a Run that do not return: the driver is modelled given that each returns or panics.
- SessionFiles.ReaderHasRequestedContent: of one interleaving in which a request was given up it says nothing more, because which reply a later reader gets then depends on which ready case a select takes; which programs can be affected at all is said exactly by `SessionMixup.MixUpExactly`.
- SessionSend.ClientGetsFilesAsSent: of one interleaving of a program at risk it gives conditions that suffice; which programs are at risk is said exactly by `SessionAstray.AstrayExactly`.
