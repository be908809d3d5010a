# mqtt-file-watch, modelled in Dafny

`app.js` is a small Node.js tail-and-forward agent. It watches one text file
and pushes every new non-empty line onto an in-memory buffer. It can also load
whole files up front. A 200 ms interval runs while the MQTT link is up. On each
tick it swaps the buffer out and publishes it in JSON messages of at most ten
lines (`{timestamp, data}`, QoS 1), pausing 200 ms between messages. When the
link drops, undelivered lines go back onto the buffer.

The model has eight modules:

- `Optional` (`optional.dfy`): the `Option` datatype the other modules share.
- `Text` (`text.dfy`): JavaScript's `split('\n')` and the blank-line filter,
  with `Join` as the inverse of the split.
- `FileWatch` (`file_watch.dfy`): the file-change callback's arithmetic. It
  reads the whole file when the file shrank, and only the appended bytes
  otherwise. The read goes into a zero-filled buffer.
- `Options` (`options.dfy`): the command-line parser. `ParseOptions` and
  `Parse` are the specification; `ParseArgv` is the index-advancing loop of
  the start-up code.
- `Delivery` (`delivery.dfy`): the message payload and how a batch is cut into
  chunks of `MaxObjCount` = 10 lines.
- `Machine` (`machine.dfy`): the program's module-level state (`dataBuffer`,
  `connected`, `sending`, whether the interval is installed). Its transitions
  are pure functions that follow the handlers as written.
- `App` (`pipeline.dfy`): the same state as a mutable `Pipeline` object. Its
  methods update the fields in place, and each method is proved to perform
  the matching `Machine` transition.
- `Scheduling` (`scheduling.dfy`): the event loop around the pipeline. It
  covers link events, file reads, interval ticks, publish acknowledgements
  and pacing timeouts. A `World` adds the pending continuation of the
  delivery loop, the acknowledged messages and the abandoned lines. The
  module proves three things:
  - what the program keeps (conservation of lines, single flight);
  - where it goes wrong (stalls, reordering);
  - that a corrected pipeline keeps delivery order over every run.

The model follows the code as written in three places:

- a requeue appends the lines to the end of the buffer;
- `sendValue` on a dropped link leaves `sending` set;
- a tick on an empty buffer leaves `sending` set.

The consequences are proved in `Scheduling` and listed under "## Findings".
The corrected pipeline (`TickFixed`, `SendValueFixed`, `ApplyFixed`) sits
beside the as-written one.

Two behaviours of the code that a reader might not expect:

- **Partial lines.** One would expect the forwarded lines to be the non-empty
  records of the file. The code splits whatever byte range it reads, so a line
  that is still being written when the watcher looks is forwarded in pieces
  (`Text.PartialLineIsForwardedInPieces`). Forwarding whole records does hold
  when every observed size but the last ends at a line boundary
  (`FileWatch.TailingForwardsEveryRecord`).
- **`sendFile` keeps blank fields.** Unlike the watcher, `sendFile` pushes
  empty fields too, including the one after a trailing newline
  (`App.Pipeline.SendFile` ingests `Split(content)`, not `Lines(content)`).

## Model

| member | source | states |
|---|---|---|
| Text.Split | app.js:136 | `s.split('\n')` always yields at least one field |
| Text.NonBlank | app.js:137-141 | the filter keeps only non-empty fields, never adds one, and keeps exactly the non-empty members |
| Text.SplitFieldsHaveNoNewline | app.js:136 | no field produced by the split contains a newline |
| Text.SplitLength | app.js:148-149 | a text with k newlines splits into k + 1 fields (the count `sendFile` logs) |
| Text.JoinSplit | app.js:136 | joining the fields with newlines gives the original text back |
| Text.SplitJoin | app.js:136 | splitting newline-free fields joined with newlines gives the fields back |
| Text.SplitAroundNewline | app.js:136 | a newline separates the fields before it from the fields after it |
| Text.NonBlankAppend | app.js:137-141 | the blank filter distributes over concatenation |
| Text.LinesWellFormed | app.js:136-141 | every line the watcher forwards is non-empty and newline-free |
| Text.LinesOfConcat | app.js:136-141 | text cut just after a newline forwards its two parts' lines, in order |
| Text.LinesOfRecords | app.js:136-141 | non-empty records, each written with a trailing newline, are forwarded exactly |
| Text.PartialLineIsForwardedInPieces | app.js:133-141 | a record read half-written is forwarded as two lines ("ab", "c"), unlike the same record read whole |
| FileWatch.RangeToRead | app.js:123-132 | the read ends at the current size; a shrunk file is read from 0, otherwise only the grown part is read |
| FileWatch.Region | app.js:133-135 | the buffer has exactly the requested size and holds the file's bytes when they all exist |
| FileWatch.GrowthReadsAppended | app.js:125-134 | when the file only grew, the old content plus the region read is the new content |
| FileWatch.TruncationRereadsAll | app.js:125-128 | when the file shrank, the region read is the whole current file |
| FileWatch.AppendForwardsNewRecords | app.js:118-143 | appending to a file that ends at a line boundary forwards exactly the new file's lines that the old one lacked |
| FileWatch.TailingForwardsEveryRecord | app.js:118-143 | a file tailed from empty and observed at line boundaries (the last observation may end mid-line) has all its non-empty lines forwarded once each, in order |
| Options.ParseOptions | app.js:42-68 | options never change the positional fields, never clear a flag, never remove a regex, and never report missing arguments |
| Options.Parse | app.js:13-22 | fewer than six argv entries is the missing-arguments error and nothing else is; a run's positional fields are argv[2..5] |
| Options.ParseArgv | app.js:42-68 | the index-advancing loop (including `++i` for `-m`) returns the same result as the specification `Parse` |
| Options.ParseOptionsAppend | app.js:43-67 | a fully parsed prefix can be followed by more tokens, which continue from the prefix's configuration |
| Options.LaterMigrateOverrides | app.js:62-65 | a trailing `--migrate=X` sets the regex to X, overriding earlier ones |
| Options.LaterDashMOverrides | app.js:49-53 | a trailing `-m X` sets the regex to X, overriding earlier ones |
| Options.TrailingDashMFails | app.js:50-51 | `-m` as the last token is the missing-regex error |
| Options.UnknownTokenFails | app.js:62-64 | a token that is no option and not `--migrate=` is the unknown-option error |
| Options.FlagsSet | app.js:45-61 | `-b` and `--begin` set `begin`, `-d` and `--debug` set `debugging`, and nothing else changes; `-h` and `--help` give `ShowHelp` |
| Delivery.ChunkEnd | app.js:207 | the first chunk is `values.slice(0, 10)`: ten lines, or all of them when fewer |
| Delivery.FlattenChunks | app.js:207-224 | the chunks of a batch put back together are the batch |
| Delivery.ChunkShape | app.js:194-212 | a batch of n lines goes out as ceil(n / 10) chunks of 1 to 10 lines, all full but the last |
| Delivery.TwentyFiveLines | app.js:207-212 | 25 lines go out as chunks of 10, 10 and 5 |
| Machine.Connect | app.js:70-76 | `connect` marks the link up, installs the interval and leaves the buffer and `sending` alone |
| Machine.Disconnect | app.js:78-106 | `reconnect`, `close` and `offline` mark the link down, clear the interval and leave the buffer and `sending` alone |
| Machine.Ingest | app.js:137-141 | pushed lines are appended in order after the old buffer, and nothing else changes |
| Machine.HandleBuffer | app.js:187-197 | the handler returns early exactly when the link is down or a delivery runs; otherwise it sets `sending` and empties the buffer into the batch |
| Machine.SendValue | app.js:199-215 | link down means requeue to the end with `sending` unchanged; no values means clear `sending`; otherwise publish the first at most 10 values stamped `now`, with the rest left for later |
| Machine.Tick | app.js:187-215 | a tick is skipped, or sets `sending` on an empty buffer, or publishes the first chunk of the whole buffer |
| Machine.PublishedIsFirstChunk | app.js:207-212 | the published data is the first chunk and the rest is chunked as the remaining messages |
| App.Pipeline.constructor | app.js:28-40 | start-up state: empty buffer, link down, no delivery, no interval |
| App.Pipeline.OnConnect | app.js:70-76 | the fields change as `Machine.Connect` says |
| App.Pipeline.OnDisconnect | app.js:78-106 | the fields change as `Machine.Disconnect` says |
| App.Pipeline.FileChanged | app.js:118-143 | the loop pushes exactly the non-empty lines of the changed range |
| App.Pipeline.SendFile | app.js:145-153 | the loop pushes every field of the file, blank ones included |
| App.Pipeline.SendStep | app.js:199-215 | one `sendValue` call changes the fields and returns the step as `Machine.SendValue` says, including the requeue loop |
| App.Pipeline.Tick | app.js:187-197 | one `handleBuffer` run changes the fields as `Machine.Tick` says |
| Scheduling.StartIsValid | app.js:28-40 | the program starts valid, with no lines and not stalled |
| Scheduling.ApplyKeepsInv | app.js:70-227 | every event keeps "a continuation exists only while `sending`" and "the interval runs exactly while the link is up" |
| Scheduling.SingleFlight | app.js:189-190 | while a delivery loop is pending, the interval does nothing |
| Scheduling.ApplyKeepsOrder | app.js:118-227 | except for a requeue or a failed publish, every event keeps the order acknowledged, in flight, buffered, and appends new lines at the end |
| Scheduling.RequeueConserves | app.js:201-205 | a requeue moves the undelivered lines to the buffer without losing or duplicating one |
| Scheduling.FailureConserves | app.js:216-219 | a failed publish abandons its chunk and the rest, and loses nothing else |
| Scheduling.ApplyConserves | app.js:118-227 | no event loses or duplicates a line: the acknowledged, in-flight, buffered and abandoned lines are the lines read, as a multiset |
| Scheduling.RunConserves | app.js:118-227 | over any run from a valid state, the invariant and line conservation hold |
| Scheduling.StalledForever | app.js:187-205 | once `sending` is set with no continuation, no event ever publishes again, and new lines only pile up |
| Scheduling.EmptyTickStalls | app.js:191-196 | a tick over a live link with an empty buffer stalls the pipeline |
| Scheduling.DisconnectWhilePacedStalls | app.js:199-224 | the link dropping during the pacing delay requeues the rest and stalls the pipeline |
| Scheduling.RequeueReorders | app.js:201-205 | a requeue after newer lines were read puts the newer lines first |
| Scheduling.TickFixed | app.js:187-197 | corrected tick: as written when there is a batch, otherwise nothing changes |
| Scheduling.SendValueFixed | app.js:199-206 | corrected step: a requeue goes to the front and ends the loop; otherwise as written |
| Scheduling.FixedInvNeverStalled | app.js:189-191 | the corrected invariant rules out a stall |
| Scheduling.ApplyFixedKeepsInv | app.js:187-227 | every corrected event keeps "`sending` exactly while a continuation exists" |
| Scheduling.ApplyFixedKeepsOrder | app.js:118-227 | every corrected event keeps delivery order and abandons nothing |
| Scheduling.FixedFailureKeepsOrder | app.js:216-219 | a corrected failed publish retries the same lines |
| Scheduling.RunFixedKeepsInv | app.js:187-227 | the corrected pipeline never stalls over any run |
| Scheduling.RunFixedKeepsOrder | app.js:118-227 | over any corrected run, lines are delivered in the order read, and none is abandoned |
| Scheduling.FixedTickPublishes | app.js:187-197 | the corrected interval always starts a delivery when the link is up, the pipeline is idle and lines wait |
| Scheduling.MessagesAt | app.js:213-215 | message i carries chunk i with clock reading i |
| Scheduling.AckStep | app.js:221-225 | an acknowledgement records the message and schedules the rest after the pacing delay |
| Scheduling.PacedDeliveryEnds | app.js:207-211 | the last pacing timeout finds nothing left and clears `sending` |
| Scheduling.PacedDeliveryPublishesChunks | app.js:199-227 | a paced delivery over a steady link publishes exactly the chunks, in order, then clears `sending` |
| Scheduling.TickStepPublishes | app.js:187-216 | a tick over a steady link with lines waiting publishes the first chunk |
| Scheduling.BatchDeliveredInOrder | app.js:187-227 | with every publish acknowledged, a swapped-out batch is acknowledged as ceil(n / 10) messages of at most 10 lines that hold the batch in order, stamped in clock order; then `sending` is clear and the buffer is empty |
| Scheduling.DataOfMessages | app.js:213-215 | the lines of the messages are the chunks concatenated |

## Left out

- The MQTT client (`mqtt.connect`, QoS 1 handshakes, persistent sessions) is outside the model. A publish is an event whose completion arrives later as success or failure.
- Timers are events: `setInterval(handleBuffer, 200)` is `IntervalFired`, `setTimeout(…, 200)` is `PacingDone`. The clock reading is a parameter. Real durations and the 1000 ms polling of `fs.watchFile` are not modelled.
- File-system I/O is replaced by parameters: the file's content and the sizes the watcher reports. `fs.open`, `fs.readSync` and `fs.readFileSync` are not called, and an open error (fatal in the source) is not modelled. The watch callback never closes the descriptor it opens (app.js:119-142), so over a long run `fs.open` eventually fails and `err` ends the process; descriptors are not modelled.
- UTF-8 decoding is not modelled: a string is a sequence of characters, one per byte, and a zero byte is `'\0'`.
- JSON serialization of the payload is not modelled; a message is the `Payload` value.
- `readMatchingFiles` and the glob library are outside the model. glob reports its matches in an asynchronous callback (app.js:157-165), so the lines of the migrated files arrive as `LinesRead` events at an unspecified point: after the `-b` load, and possibly after `connect`, interval ticks or watch events. No match order is modelled.
- Logging, `debug`, `warn`, the help text and `process.exit` are not modelled. `-h`/`--help` parses to `ShowHelp`, and the `err` exits are the `Failed` results of `Options.Parse`.
- Scheduling.Apply: a failed publish calls `sendValue(value)` on an undefined identifier. The model ends the delivery loop there, with its lines abandoned and `sending` left set. The effect of the uncaught exception on the process is not modelled.
- `values.splice(maxObjCount)` (app.js:212) cuts `values` down in place to the published chunk. The model slices instead, because as written nothing else that holds `values` looks at it again.
- Machine.Connect: a second `connect` without a disconnect in between installs a second interval and leaks the first handle. `intervalActive` is a boolean, so the model does not count intervals.
- The start-up sequence (app.js:108-116) is not modelled as one operation. The `-b` load is synchronous: it is `App.Pipeline.SendFile` on the watched file before any event, so the watched file's lines reach the buffer before those of every migrated file, despite the help text's "first" (app.js:9).

## Findings

| source | as written | input that shows it | evidently intended | confidence | as-written member | corrected member |
|---|---|---|---|---|---|---|
| app.js:191-196 | `handleBuffer` sets `sending` before checking that the batch is non-empty, and nothing clears it when the batch is empty | link up, nothing sending, empty buffer, interval fires | an empty tick leaves `sending` clear so that later lines are still sent | not executed | Scheduling.EmptyTickStalls | Scheduling.RunFixedKeepsInv |
| app.js:201-205 | `sendValue` on a dropped link requeues its lines but does not clear `sending`, so after reconnection the interval never runs a delivery again | link drops during the 200 ms pacing delay of a two-message batch | the requeue ends the loop and clears `sending` | not executed | Scheduling.DisconnectWhilePacedStalls | Scheduling.ApplyFixedKeepsInv |
| app.js:202-204 | the requeue pushes the undelivered lines behind lines read since the batch was swapped out | `["b"]` pending in the loop, `["c"]` read, link drops: the stream goes from `b, c` to `c, b` | undelivered lines go back in front, keeping the order in which lines were read | not executed | Scheduling.RequeueReorders | Scheduling.RunFixedKeepsOrder |
| app.js:217-219 | the failure callback calls `sendValue(value)`, an identifier that does not exist, so the chunk and the rest are never retried | any publish that completes with an error | retry the chunk and the rest, i.e. `sendValue(values.concat(toSend))`; `sendValue(values)` would retry only the chunk, because the splice at app.js:212 has already cut `values` down to it | not executed | Scheduling.FailureConserves | Scheduling.FixedFailureKeepsOrder |
