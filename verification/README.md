# Verified model of the gateway's store-and-forward, polling and configuration core

The gateway polls Modbus devices, buffers readings in a SQLite-backed chunk queue, and forwards
them over MQTT to a server that removes duplicates and reports gaps. This project models that
path in Dafny, step by step as the Go code takes it, and proves what the path promises.

**Store and forward.** `QueueModel` holds `queue.db` and the in-memory side of the queue as values,
with every transaction as a function. `QueueStore`, `ServerStore`, `AckMatching` and `Forwarder` are
the Go objects as classes, each method proved against those functions. `Delivery` is the protocol as a
transition system: 29 kinds of step over memory buffer, chunk table, meta counters, forwarder,
evictor, every message and ack ever sent, and the server. A commit and the counter update that
follows it are separate steps, because the code takes different locks for them. Messages and acks
may be lost, repeated and delayed without limit (nothing is ever removed from the network, and
nothing has to be delivered); writes, discards and deletes may fail; eviction runs in the middle of a
send; power may fail anywhere; rows may be damaged; the file may be replaced by a new one with a
new stream id; the server may restart and forget what it has seen, though not what it wrote.
`DeliveryInvariant` and `DeliveryProof` give the inductive invariant; `DeliveryTheorems`,
`DeliveryGaps`, `DeliveryProgress`, `DeliveryStall` and `DeliveryDrain` state what follows for every
run, over the continuations of `DeliveryPaths`; `DeliverySamples` builds concrete runs; `AnonymousAck`
and `StrippedAcks` say what happens when acks do not name their stream.

**Server.** `IngestServer`, `GapLedger`, `ServerFacts`: what one message does to the demo server, what
it answers, and what its gap counters mean.

**Chunk codec.** `ChunkCodec`: uvarints, zigzag deltas that wrap at 64 bits, optional strings and
values, printed and parsed. `Wire`: the message, and which values have a JSON form.

**Modbus.** `Registers` (data types, byte orders, the register-bank slave), `BlockPlan`,
`BlockPlanOptimal`, `BlockPlanTail`, `BlockPlanTies`, `BlockPlanner` (the greedy merger in uint16
arithmetic), `BlockReads`, `Polling`, `PollingTheorems` (the polling goroutine as a trace of events).

**Configuration and clock.** `ConfigIO`, `ConfigRestore`, `ConfigUpdate`, `ConfigStore` (export and
import), `Sntp`.

## Where the code and what it promises differ

Each is kept as the code has it, with a concrete case and the exact condition under which the promise
holds.

- *A reading that is NaN or infinite stops the queue.* FLOAT32 and FLOAT64 registers can hold either
  and the codec stores them, but Go's JSON encoder refuses them, so `Send` fails before publishing.
  From an idle forwarder with something to send, a message can follow if and only if no row of the
  next batch holds such a value (`DeliveryStall.PublishesIff`); otherwise nothing is published until
  that very row is evicted, damaged or lost with the file (`DeliveryStall.NonFiniteValueStalls`). From
  any state the queue can be drained if and only if no stored row holds one
  (`DeliveryDrain.DrainsIff`). Example: `DeliverySamples.NonFiniteRun`.
- *Restoring an export onto an empty gateway can lose rows.* Update overwrites a row restored moments
  before when the exported id was already handed out in this import: a data point even on new hardware
  (`ConfigRestore.PointLost`), a connection on an emptied gateway, whose allocator has moved on
  (`ConfigRestore.ConnectionLost`). It happens if and only if some exported id lies between the
  allocator at the start and the allocator when its turn comes (`ConfigRestore.ImportOntoEmptyGateway`).
- *One invalid row makes the whole export unusable*, such as a device without a slave id, which the
  schema allows (`ConfigRestore.ExportAcceptedIff`, example `ConfigRestore.ExportUnusable`).
- *The missing-chunks counter is off when chunks come out of order.* It counts a chunk that comes late
  and misses a hole below the first chunk to arrive: counter + uncounted = missing + late
  (`GapLedger.CounterBalance`). It counts exactly the missing chunks if and only if neither happens
  (`GapLedger.CountsMissingIff`, examples `GapLedger.LateChunkOvercounts` and
  `GapLedger.EarlyHoleUndercounts`).
- *A point ending past register 65534 can be left out of its block*, if and only if it is merged into an
  open block (`BlockPlan.CoverageIff`, example `BlockPlanOptimal.CoverageIsSharp`), and its reading is
  then invalid (`BlockReads.BlockReadRefinesIff`).
- *Past 65527 the plan need not be the smallest*, because the gap test wraps
  (`BlockPlanOptimal.OptimalityIsSharp`). A plan that reads its points is the smallest if and only if
  nothing follows the first point past 65527, or what follows is one block that the span limit would
  have forced anyway (`BlockPlanTail.PlanIsOptimalIff`).
- *An ack without a stream id is accepted for any stream.* Being let through proves the stream if and
  only if the ack names one (`AnonymousAck.StreamCheckedIff`); one that does not can lose a chunk
  (`AnonymousAck.AnonymousAckLosesChunk`), though only after the file has been replaced
  (`StrippedAcks.NothingVanishesOnOneFile`). The server always echoes the stream id.
- *A restarted server accepts chunks again.* A chunk is written twice if and only if two server
  processes each stored a message holding it (`DeliveryTheorems.WrittenByProcessIff`,
  `DeliveryTheorems.WrittenAgainIff`, example `DeliverySamples.WrittenTwice`); nothing is lost.
- *The SNTP offset is off by 2^32 seconds from 7 February 2036 on*, when the seconds on the wire start
  over, *and wraps* when the clocks are too far apart. It is right if and only if both server times lie
  before that date and the sum of the two clock differences fits int64 (`Sntp.OffsetErrorIff`, examples
  `Sntp.EraRollover` and `Sntp.SumWraps`).

## Model

| member | source | states |
|---|---|---|
| DeliveryTheorems.NothingVanishes | internal/queue/store.go:379-504 | In every run, every chunk ever committed is in the table (visibly damaged, or decoding to the same ids, values and qualities with each time cut to its millisecond), or written by a server process exactly once with every reading's ids, value, quality and millisecond, or was evicted, discarded as corrupt, or lost with its file; server restarts included. |
| DeliveryTheorems.RowsLeaveOnlyFor | internal/queue/store.go:423-504 | A row leaves the table only by deletion of something a server process has already stored, by eviction, or because it could not be decoded. |
| DeliveryProof.AckedRowsStored | internal/forwarder/forwarder.go:89-114 | When Send has returned without error, every row that deleting up to to_seq will remove is stored at the server. |
| DeliveryProof.AckMeansStored | internal/forwarder/mqttadapter.go:261-281 | An error-free ack for the stream and to_seq of the message now waiting, whichever message it answers, proves that every chunk of the waiting message is at the server. |
| DeliveryTheorems.LaterMessageIsSubset | internal/queue/store.go:379-421 | Of two messages of one stream with one to_seq, the later holds no chunk the earlier did not, across timeouts, evictions and restarts. |
| DeliveryTheorems.AnyMatchingAckIsSound | internal/forwarder/mqttadapter.go:261-324 | However late or repeated, an error-free ack let through to the waiting Send proves that all of its message was written, each chunk once by some server process, reading by reading with the ids, value, quality and millisecond committed. |
| AnonymousAck.StreamCheckedIff | internal/forwarder/mqttadapter.go:268-276 | Being let through to a waiting message proves the message's stream if and only if the ack carries a stream id. |
| AnonymousAck.AnonymousAckLosesChunk | internal/forwarder/mqttadapter.go:268-276 | A run of the protocol with one ack that arrives stripped of its stream id, at whose end a committed chunk has been deleted and is nowhere: not at the server, not evicted, discarded or lost. |
| StrippedAcks.NothingVanishesOnOneFile | internal/forwarder/mqttadapter.go:268-276 | In runs where any ack may arrive stripped, every committed chunk still has one of the five fates as long as the file is not replaced. |
| DeliveryTheorems.AcceptedOnceAsFlushed | cmd/server-demo/store.go:127-191 | In every run each server process accepts each (gateway, stream, seq) at most once, and logs for it, one for one, the ids, value, quality and millisecond of the readings flushed under it; there are as many processes before the present one as restarts. |
| DeliveryTheorems.WrittenByProcessIff | cmd/server-demo/store.go:87-95 | A server process wrote a chunk if and only if it stored a message holding it, so a chunk is written twice exactly when two processes did. |
| DeliveryTheorems.WrittenAgainIff | cmd/server-demo/store.go:131-151 | Handling a message writes a chunk if and only if the message is stored, holds it, and the present process has not seen it. |
| DeliverySamples.WrittenTwice | cmd/server-demo/store.go:87-95 | A run in which a chunk is stored, the server restarts, and the same message makes the new process write it again. |
| DeliveryProof.RestartKeeps | cmd/server-demo/store.go:87-95 | A server restart at any moment keeps the protocol invariant. |
| DeliveryTheorems.HistoryOnlyGrows | internal/queue/store.go:319-342 | Committed contents never change, what the server wrote only grows, and a seq is never reused in a stream, across crashes and empty tables. |
| DeliveryTheorems.ReadingsConserved | internal/queue/store.go:263-317 | At every step appended + pending at open = buffered + unflushed + pending + acked + evicted + dropped; the meta counters always describe the table, the in-memory ones whenever no commit waits to be counted. |
| DeliveryTheorems.CrashRestoresCounters | internal/queue/store.go:188-231 | A crash at any step: counters read back equal row count and sum of n, the file is kept, and the allocator is above every committed seq. |
| DeliveryTheorems.EvictionBounded | internal/queue/capacity.go:75-117 | An eviction removes a lowest-seq prefix of at most the k <= 20000 rows counted when the cut was chosen, whatever ran in between, and counts exactly its readings. |
| DeliveryProof.InitHolds | internal/queue/store.go:188-231 | A new queue and an empty server satisfy the protocol invariant. |
| DeliveryProof.StepKeeps | internal/queue/store.go:263-504 | Each of the 29 steps keeps the protocol invariant. |
| DeliveryProof.InvariantHolds | internal/queue/store.go:263-504 | Every state of every run satisfies the protocol invariant. |
| DeliveryProof.BuiltMessage | internal/forwarder/wire.go:49-71 | A message built from a finished batch ascends strictly, names its own ends, and carries what was committed under each seq. |
| DeliveryProof.BuiltMessageHolds | internal/queue/store.go:379-421 | It holds every row still stored up to its end, and nothing up to an earlier message's end that the earlier one lacked. |
| DeliveryGaps.MissingWasGivenUp | cmd/server-demo/store.go:149-170 | In every run, in whatever order messages arrive, every seq up to a stream's last that the server process has not accepted was evicted or discarded on the gateway, or written by an earlier process. |
| DeliveryGaps.FreshAboveLast | cmd/server-demo/store.go:149-170 | When first deliveries follow send order, every fresh chunk lies above its stream's last seq. |
| DeliveryGaps.GapAccountingExact | cmd/server-demo/store.go:149-170 | When first deliveries follow send order, repeats at any time, the counter counts exactly the seqs between the lowest and the highest accepted that were never accepted, each evicted or discarded, or written before the server last started. |
| DeliveryProgress.BacklogNeverGrows | internal/queue/store.go:319-342 | For a seq already handed out, the number of stored chunks up to it never grows. |
| DeliveryProgress.DispatchMakesProgress | internal/forwarder/forwarder.go:89-114 | While a chunk up to it is stored, every error-free dispatch lowers that number, even if every chunk read was corrupt. |
| DeliveryProgress.MessageSizeBounded | internal/queue/store.go:379-421 | A message without its last chunk stays under the configured number of readings. |
| DeliveryStall.PublishableIff | internal/forwarder/mqttadapter.go:286-294 | A decoded batch can be published if and only if no row of it decodes to a NaN or infinite value. |
| DeliveryStall.NonFiniteValueStalls | internal/forwarder/mqttadapter.go:286-294 | While any row of the next batch holds such a value, nothing is published until that very row is evicted, damaged or lost, across timeouts, flushes, discards, evictions of other rows and crashes. |
| DeliveryStall.PublishesIff | internal/forwarder/forwarder.go:89-114 | From an idle forwarder with something decodable to send, a run without eviction, damage or a new file publishes if and only if every row of the next batch is finite. |
| DeliveryStall.InScanIff | internal/queue/store.go:379-402 | A row is in the next batch if and only if it is the oldest, or among the first 500 with fewer readings before it than the limit. |
| DeliverySamples.NonFiniteRun | internal/forwarder/mqttadapter.go:286-294 | A run that appends and flushes a NaN: the forwarder is idle with it in the next batch, and no continuation without eviction, damage or a new file publishes. |
| DeliveryDrain.DrainsIff | internal/forwarder/forwarder.go:89-114 | From every reachable state, whatever the forwarder is doing, some continuation without eviction, damage or a new file empties the queue, with every decodable row at the server, if and only if no stored row holds a NaN or infinite value. |
| DeliveryDrain.NonFiniteStays | internal/queue/store.go:423-504 | A row with such a value leaves the table only by eviction, damage or loss of the file. |
| DeliveryDrain.OneDispatch | internal/forwarder/forwarder.go:89-114 | From rest with finite rows, one answered dispatch lowers the number of rows. |
| DeliveryStall.NonFiniteIsStored | internal/queue/codec.go:97-101 | The codec lets such values through: a flushed list with one becomes such a chunk. |
| ChunkCodec.BlobRoundTrip | internal/queue/codec.go:62-193 | Decoding an encoding returns as many readings, each with its ids, quality (listed or not) and value bits or absence, at a whole millisecond with the original time within the millisecond after it (even when deltas wrap); no guard rejects a genuine encoding. |
| ChunkCodec.RawRoundTrip | internal/queue/codec.go:62-193 | The same before compression, with any bytes following. |
| ChunkCodec.RecordsRoundTrip | internal/queue/codec.go:131-192 | The same for a list of records from any previous timestamp. |
| ChunkCodec.UnixMilliFloors | internal/queue/codec.go:81-81 | The millisecond of a time is the whole one at or before it, also before 1970. |
| ChunkCodec.FormatSample | internal/queue/codec.go:20-30 | The exact bytes of a two-reading list: field order, base and signed deltas, value flag, little-endian value, string of an unlisted quality. |
| ChunkCodec.FormatNumbers | internal/queue/codec.go:14-51 | The version byte and the codes of the five listed qualities. |
| ChunkCodec.OtherFormatsRefused | internal/queue/codec.go:120-181 | An empty blob, another version, data that does not inflate and an unknown quality code are refused. |
| ChunkCodec.UvarintIsBase128 | internal/queue/codec.go:20-30 | A uvarint is its number in base 128, low digits first, with the high bit set on every byte but the last. |
| ChunkCodec.RawTruncated | internal/queue/codec.go:131-192 | Every proper prefix of an encoded record list is rejected. |
| ChunkCodec.RecordsTruncated | internal/queue/codec.go:145-192 | Every proper prefix of the records themselves is rejected, wherever it is cut. |
| ChunkCodec.BlobInjective | internal/queue/codec.go:62-117 | Lists that differ at millisecond precision never share a blob. |
| ChunkCodec.EncodeChunk | internal/queue/codec.go:62-117 | Fails exactly on a negative id; otherwise returns the encoding, which decodes to every reading's ids, quality and value, its time cut to the millisecond. |
| ChunkCodec.WriteRecord | internal/queue/codec.go:79-101 | Appends exactly one record and moves the previous timestamp on. |
| ChunkCodec.DecodeChunk | internal/queue/codec.go:120-193 | On arbitrary bytes terminates without reading past the end and returns the decoding or an error. |
| ChunkCodec.DecodeRaw | internal/queue/codec.go:131-143 | On success returns exactly the announced number of readings, never more than there are bytes. |
| ChunkCodec.ParseRecord | internal/queue/codec.go:146-190 | Reads one record or fails, as the record parser does. |
| QueueModel.InsertConsistent | internal/queue/store.go:319-342 | Keeps meta counters equal to row count and sum of n, and numbers the batch above every key so far. |
| QueueModel.NumberedFromOne | internal/queue/store.go:319-342 | A new file numbers its chunks from 1, and a chunk stays under its number when more follow. |
| QueueModel.TrimKeepsNewest | internal/queue/store.go:293-302 | A backlog over the limit is cut to its newest chunks, the others' readings counted as dropped, and nothing else changes. |
| QueueModel.DeleteConsistent | internal/queue/store.go:471-504 | Keeps them equal and removes exactly the keys up to the cut. |
| QueueModel.DiscardConsistent | internal/queue/store.go:423-452 | Keeps them equal and removes exactly one key. |
| QueueModel.CutSplits | internal/queue/store.go:471-504 | On a key-ordered table a cut splits the rows into a prefix that goes and a suffix that stays. |
| QueueModel.CutRemovesK | internal/queue/capacity.go:93-101 | Cutting at the k-th key removes exactly the first k rows. |
| QueueModel.ScanBounds | internal/queue/store.go:379-402 | All scanned rows but the last are under the limit, and the scan stops early only once the limit is reached. |
| QueueModel.ScanNonEmpty | internal/queue/store.go:379-402 | A non-empty table always yields its oldest row. |
| QueueStore.ReadRowsFacts | internal/queue/store.go:379-452 | A read returns every decodable row scanned, loses only corrupt rows it scanned, keeps the file consistent and every counter in step; it fails exactly when a discard does. |
| QueueStore.EstimateCovers | internal/queue/capacity.go:89-93 | Evicting the estimated k chunks covers the excess at the average size (size / chunks, or 1), unless capped at 20000 or by the whole queue, and k is exactly one more than the least number that does, or a cap below it. |
| QueueStore.Store.Open | internal/queue/store.go:188-231 | Restores exact counters from meta without a scan. |
| QueueStore.Store.Append | internal/queue/store.go:252-257 | Adds one reading to the buffer and to the total in the queue's care. |
| QueueStore.Store.InsertChunks | internal/queue/store.go:319-342 | All rows and both counters, or nothing. |
| QueueStore.Store.Flush | internal/queue/store.go:263-317 | The whole new state for success, failure and nothing to do; no reading is lost uncounted. |
| QueueStore.Store.SealBuffer | internal/queue/store.go:267-284 | The buffer becomes one chunk, or is counted as dropped when it cannot be encoded. |
| QueueStore.Store.DropOverflow | internal/queue/store.go:293-302 | After a failed write the oldest chunks beyond the limit go, counted as dropped. |
| QueueStore.Store.CountBatch | internal/queue/store.go:303-315 | The written batch leaves the backlog and is counted as pending. |
| QueueStore.Store.ReadBatch | internal/queue/store.go:379-421 | Returns the read described by ReadRowsFacts and conserves the total. |
| QueueStore.Store.ScanRows | internal/queue/store.go:379-402 | The prefix of rows ScanBounds describes. |
| QueueStore.Store.DiscardRow | internal/queue/store.go:423-452 | A row already gone changes nothing; any other leaves the table alone of all rows, the file stays consistent, file and memory counters move together, and its readings go from pending to dropped. |
| QueueStore.Store.Ack | internal/queue/store.go:455-466 | Deletes exactly the rows up to the seq, or nothing on failure; the total falls by exactly their readings. |
| QueueStore.Store.EvictOnce | internal/queue/capacity.go:75-117 | Without excess, or when a query fails, changes nothing; otherwise removes exactly the k lowest-seq rows, where k is one more than the least number covering the excess at the average size, or a cap below it; counts their readings as evicted, and reports progress exactly when it removed some. |
| QueueStore.Store.Maintain | internal/queue/capacity.go:59-69 | Removes a lowest-seq prefix of at most 20000 rows per pass with excess, counting from the first of the five and never more than 100000; unless writes fail or the queue runs empty, each such pass evicts; nothing changes when nothing is in excess or writes fail. |
| Wire.BuildMessage | internal/forwarder/wire.go:49-71 | Gateway and stream as given, ends from the first and last chunk, and chunk by chunk the seq and, reading by reading, device, data point, value, quality and millisecond of the batch. |
| Wire.WireOfStored | internal/forwarder/wire.go:49-71 | Going through storage first changes nothing on the wire. |
| Wire.JsonIff | internal/forwarder/mqttadapter.go:286-294 | A message has a JSON form if and only if every reading it was built from is finite. |
| Wire.FiniteBelowInfinity | internal/forwarder/mqttadapter.go:286-294 | The finite bit patterns are, sign aside, those below that of infinity. |
| AckMatching.MqttAdapter.Await | internal/forwarder/mqttadapter.go:296-300 | Registers an empty slot and the stream for the message's to_seq. |
| AckMatching.MqttAdapter.OnAck | internal/forwarder/mqttadapter.go:261-281 | Fills an empty slot of a matching stream, ignores everything else, keeps the two maps in step. |
| AckMatching.MqttAdapter.Collect | internal/forwarder/mqttadapter.go:301-324 | Succeeds exactly on an error-free ack in the slot, which is for this to_seq and stream, and always cleans up. |
| AckMatching.MqttAdapter.Send | internal/forwarder/mqttadapter.go:286-324 | Succeeds exactly when connected, the message has a JSON form, it is not cancelled, and the first matching ack carries no error; leaves no entry behind. |
| AckMatching.AnswerIsFirst | internal/forwarder/mqttadapter.go:261-281 | The ack that decides is the first with the message's to_seq and its stream id or none. |
| Forwarder.Forwarder.DispatchOnce | internal/forwarder/forwarder.go:89-114 | Reports nothing pending if and only if no discard fails and every scanned row is corrupt, and then all of them are gone; reports success if and only if no discard fails, something decodes, all of it is finite, the broker is connected, the first matching ack carries no error, Send is not cancelled and the delete works, and then every row up to the last decoded seq is gone and every later one stays; fails otherwise, and then only corrupt rows are gone. Without error the queue gets shorter. |
| Forwarder.Forwarder.Run | internal/forwarder/forwarder.go:56-85 | One message at a time, with the waits WaitsMean describes; adds no rows. In good weather and with finite rows no dispatch fails and each one shortens the queue until it is empty. |
| Forwarder.WaitsMean | internal/forwarder/forwarder.go:56-85 | Each wait is none after a send, the poll interval when idle, and after an error the backoff of the errors in a row. |
| Forwarder.TrailingMeans | internal/forwarder/forwarder.go:56-74 | The errors in a row are those since the last dispatch that did not fail. |
| Forwarder.BackoffTable | internal/forwarder/backoff.go:8-25 | 1, 2, 4, 8, 16 and 32 seconds, then 60. |
| Forwarder.BatchFacts | internal/forwarder/forwarder.go:89-105 | A read that yields nothing has disposed of the oldest row; one that yields chunks reaches at or past it. |
| IngestServer.HandleEffect | cmd/server-demo/server.go:36-95 | All or nothing: stored whole before an error-free ack, otherwise nothing persistent changes; every ack echoes stream and to_seq. |
| IngestServer.FreshIsUnseen | cmd/server-demo/store.go:131-147 | The chunks ingest takes are exactly those of the message not seen before. |
| ServerFacts.GapIsBetween | cmd/server-demo/store.go:149-157 | A recorded gap is exactly the seqs strictly between the stream's last and the new one, and none is recorded when there are none. |
| ServerFacts.AcceptMeans | cmd/server-demo/store.go:150-184 | A fresh chunk becomes seen and is logged under its key with its readings; its gap goes first in the list of the latest hundred and its seqs are counted; other streams and gateways are left alone. |
| ServerFacts.LastSeqRises | cmd/server-demo/store.go:167-170 | The last seq of the stream, also in the gateway's statistics, rises to a higher one and otherwise stays. |
| ServerFacts.ReceivedGrows | cmd/server-demo/store.go:171-183 | The readings of a chunk are listed in order, each under its key. |
| ServerFacts.ReceivedTrimmed | cmd/server-demo/store.go:185-190 | After a message the newest ten thousand readings are kept, the accepted ones counted and the last error cleared. |
| ServerFacts.AnswerMeans | cmd/server-demo/server.go:36-95 | When there is an ack, when it carries no error, and when the message is stored, each if and only if, over fault, registration, what has been seen and the write. |
| ServerFacts.CountsMean | cmd/server-demo/server.go:36-67 | Every message is counted; duplicates, readings and refusals by what became of it; the last error is clear exactly when it was stored. |
| GapLedger.HandleBalanced | cmd/server-demo/store.go:127-191 | Any message under any fault and write outcome leaves seen, last seq and missing counters in agreement with the log of stored chunks. |
| GapLedger.MissingCharacterized | cmd/server-demo/store.go:149-170 | The set compared with the counter is exactly the seqs between the lowest and the highest accepted that were never accepted. |
| GapLedger.CounterBalance | cmd/server-demo/store.go:149-170 | Counter + holes below the first arrival = missing + accepted late, for every gateway and every order of arrival. |
| GapLedger.CountsMissingIff | cmd/server-demo/store.go:149-170 | The server counts exactly the missing chunks if and only if none came late and none is missing below the first to arrive of its stream. |
| GapLedger.OvercountedIff | cmd/server-demo/store.go:149-170 | A chunk is counted though accepted if and only if it came late. |
| GapLedger.UncountedIff | cmd/server-demo/store.go:149-170 | A chunk is missing though not counted if and only if it is a hole between the lowest seq and the first to arrive. |
| GapLedger.LateChunkOvercounts | cmd/server-demo/store.go:149-170 | Seqs 1, 3, 2: nothing missing, one counted. |
| GapLedger.EarlyHoleUndercounts | cmd/server-demo/store.go:149-170 | Seqs 3, 1: one missing, nothing counted. |
| ServerStore.Server.constructor | cmd/server-demo/store.go:87-95 | An empty, balanced server. |
| ServerStore.Server.Sift | cmd/server-demo/store.go:131-140 | Splits a message into unseen chunks in order and a count of the others. |
| ServerStore.Server.Record | cmd/server-demo/store.go:150-184 | One chunk: seen, gap, last seq, log and readings. |
| ServerStore.Server.AcceptUnseen | cmd/server-demo/store.go:149-184 | All unseen chunks in order, and the number of readings accepted. |
| ServerStore.Server.Finish | cmd/server-demo/store.go:185-190 | Adds to the gateway's readings, clears its error and keeps the latest readings. |
| ServerStore.Server.IngestMessage | cmd/server-demo/store.go:127-191 | Stores nothing when the write fails, otherwise every unseen chunk. |
| ServerStore.Server.Handle | cmd/server-demo/server.go:36-95 | Keeps the balance; an error-free ack means every chunk of the message has been seen. |
| BlockPlanTail.PlanIsOptimalIff | internal/acquisition/blockplan.go:77-114 | A plan that reads its points has the fewest blocks the span and gap limits allow if and only if nothing follows the first point past 65527, or what follows joins into one block and some of it would overreach the block before. |
| BlockPlanOptimal.FewestIff | internal/acquisition/blockplan.go:77-114 | For all points, the fewest blocks of any assignment within the limits is what the greedy rule on unbounded integers uses. |
| BlockPlanOptimal.IdealIsLeast | internal/acquisition/blockplan.go:77-114 | The greedy merger on unbounded integers is the smallest of all feasible assignments. |
| BlockPlanOptimal.OpenersNeverShare | internal/acquisition/blockplan.go:92-110 | Two points that each open a block can share none in any feasible assignment. |
| BlockPlanOptimal.OptimalityIsSharp | internal/acquisition/blockplan.go:90-98 | Past 65527, two adjacent points get two blocks though one would do. |
| BlockPlanOptimal.CoverageIsSharp | internal/acquisition/blockplan.go:90-98 | UINT16 points at 65526 and 65535 share a block that does not contain the second. |
| BlockPlan.CoverageIff | internal/acquisition/blockplan.go:77-114 | Every block contains its points whole if and only if no point ending past register 65534 is merged into an open block. |
| BlockPlan.MergeKeepsPoints | internal/acquisition/blockplan.go:77-114 | The blocks list the points, all and in order, whatever wraps. |
| BlockPlan.MergeIsIdeal | internal/acquisition/blockplan.go:77-114 | If every point but the last in address order ends at or below 65527 and the last is not merged with a wrapped end, the uint16 merger equals the one on unbounded integers. |
| BlockPlanner.PlanBlockReads | internal/acquisition/blockplan.go:44-118 | For each function code, the merge of its points in address order, or one block per point for coils and discrete inputs. |
| BlockPlanner.SortByAddress | internal/acquisition/blockplan.go:77-77 | A permutation in address order. |
| BlockPlanner.MergeGroup | internal/acquisition/blockplan.go:84-114 | The loop over the sorted points computes the merge, skipping unknown types. |
| BlockPlanner.Place | internal/acquisition/blockplan.go:85-111 | One turn of that loop. |
| BlockPlanner.SingleBlocks | internal/acquisition/blockplan.go:62-73 | One block per known point. |
| BlockPlanner.PlanValid | internal/acquisition/blockplan.go:44-118 | Each known point is in exactly one block, unknown ones in none; if known points end at or below 65535, every block has 1 to 125 registers and contains its points whole. |
| BlockPlanner.PlanFewest | internal/acquisition/blockplan.go:44-118 | The planner's result for a function code, if it reads its points, has the fewest blocks possible, whichever way ties are sorted, if and only if none is wasted past 65527; always when no point ends there. |
| BlockPlanTies.FewestRearranged | internal/acquisition/blockplan.go:77-77 | The fewest blocks do not depend on how points at one address are sorted. |
| BlockReads.BlockReadRefinesSingleRead | internal/acquisition/poller.go:213-247 | For every register bank, the reading of a point sliced from a block equals that of a request of its own. |
| BlockReads.BlockReadRefinesIff | internal/acquisition/poller.go:213-247 | A point's reading from a block equals that of a request of its own if and only if the block contains the point or its own reading is invalid. |
| BlockReads.BlockReadableIff | cmd/modbus-sim/main.go:112-132 | The slave answers a merged read if and only if it would answer every single read it replaces. |
| BlockReads.MergeTight | internal/acquisition/blockplan.go:90-111 | Every block ends where one of its points does. |
| BlockReads.PlanRefinesSingleReads | internal/acquisition/poller.go:176-247 | For every block of every plan that contains its points: answered exactly when each single read would be, with the same readings. |
| BlockReads.DecodeAndEmit | internal/acquisition/poller.go:213-247 | The point's bytes decoded, or a bad reading; a value exactly when the quality is good. |
| Registers.Reorder | internal/modbus/decode.go:48-65 | The permutation the order string names, or an error for one that does not fit. |
| Registers.Decode | internal/modbus/decode.go:70-108 | The value of the reordered bytes, an error for a wrong width, order or type. |
| Registers.DecodeInvertsDevice | internal/modbus/decode.go:70-108 | For every type, value and byte order, decoding what a device lays out in two, four or eight bytes returns the value. |
| Registers.LayoutExists | internal/modbus/decode.go:48-65 | Every order naming each position once has such a layout. |
| Registers.RegisterCounts | internal/modbus/decode.go:34-41 | One, two or four registers, and none for an unknown type. |
| Registers.OneRegisterDecoded | internal/modbus/decode.go:70-108 | One register of any bank decodes as UINT16 to itself and as INT16 to its two's complement. |
| Registers.TwoRegistersDecoded | internal/modbus/decode.go:70-108 | Two registers decode to the first times 65536 plus the second, in two's complement for INT32, as bits for FLOAT32. |
| Registers.FourRegistersDecoded | internal/modbus/decode.go:70-108 | Four registers, high word first, are the bits of a FLOAT64. |
| Registers.WrongWidthRefused | internal/modbus/decode.go:70-78 | Any other number of bytes, or an unknown type, is refused whatever the order. |
| Registers.ByteOrders | internal/modbus/decode.go:43-65 | What "AB", "BA", "ABCD", "BADC", "CDAB" and "DCBA" do to the bytes. |
| Registers.BadOrderRefused | internal/modbus/decode.go:52-61 | An order of the wrong length, or naming a byte there is not, is refused. |
| Registers.HandlePdu | cmd/modbus-sim/main.go:105-150 | Total on every request, with the response or exception the simulator gives. |
| Registers.RequestAnswered | cmd/modbus-sim/main.go:112-132 | A register request gets exactly the registers it names from its own bank, if they exist and number 1 to 125. |
| Registers.OtherRequests | cmd/modbus-sim/main.go:105-150 | Coils and discrete inputs are answered with zero bits if they number 1 to 2000; empty, malformed and other requests get their exception. |
| Registers.SliceOfRead | cmd/modbus-sim/main.go:112-132 | The bytes of a range inside a larger read are those of a read of its own. |
| Polling.ReadDevice | internal/acquisition/poller.go:176-207 | One read per planned block, and its readings whatever the outcome. |
| Polling.Pass | internal/acquisition/poller.go:141-161 | An uninterrupted pass visits each device exactly once in order; it stops only when cancelled, between visits. |
| Polling.VisitDevice | internal/acquisition/poller.go:141-160 | One visit: the device's own unit id, its planned reads, the environment's answers. |
| Polling.TryConnect | internal/acquisition/poller.go:126-139 | Connected exactly when the environment says so; otherwise one bad reading per point. |
| Polling.RunConnection | internal/acquisition/poller.go:99-168 | The events of a run are those of whole connects and device visits in order, with the environment's answers, then Close; it ends promptly after cancellation and, with devices to poll, not before. |
| Polling.EmitOffline | internal/acquisition/poller.go:249-255 | One bad reading per point of every device of the connection. |
| PollingTheorems.OneReadingPerPoint | internal/acquisition/poller.go:176-268 | A device visit emits exactly one reading per known-type point whatever each read's outcome, and a value exactly when the quality is good. |
| PollingTheorems.VisitSays | internal/acquisition/poller.go:176-268 | Block by block and point by point, the reading emitted has no value and the quality of a failed read, or the decoded value of the point's bytes in the answer, or is invalid if they are not there or do not decode. |
| PollingTheorems.GoodReadings | internal/acquisition/poller.go:213-247 | With natural byte order the reading of a point is good and carries its registers' value, type by type, straight from the bank. |
| PollingTheorems.OfflineSays | internal/acquisition/poller.go:126-136 | A failed connect emits exactly one reading for each point of each device in order, without a value and with the failure's quality. |
| PollingTheorems.ReadsAreInOrder | internal/acquisition/poller.go:99-168 | Over a whole run no read precedes a successful Connect, and each is of a block planned in the visit it belongs to, under that device's unit id, with points of that device and function code, whole inside the block if the device's points end at or below 65535. |
| ConfigRestore.ImportOntoEmptyGateway | internal/api/configio.go:143-261 | Importing an export onto any gateway without rows is accepted if and only if every row of the source is valid, and otherwise changes nothing; devices are restored by rank on the images of their connections; connections, and data points on the images of their devices, are all restored if and only if no exported id was handed out earlier in the import. |
| ConfigRestore.ImportOntoFreshGateway | internal/api/configio.go:143-261 | On new hardware connections are always all restored, numbered by rank; only the data points carry the condition. |
| ConfigRestore.ExportAcceptedIff | internal/api/configio.go:150-170 | An export passes validation if and only if every row it came from does. |
| ConfigRestore.ImportOntoSameGateway | internal/api/configio.go:143-261 | Importing an export where it came from changes nothing; it is accepted if and only if every row is valid, and then creates nothing. |
| ConfigUpdate.ImportUpdates | internal/api/configio.go:143-261 | On any gateway, for any valid payload: every connection, device and point found takes the value of its last entry under its own id; the device on the image of its entry's connection, the point still on its own device; what the payload does not name is left alone. |
| ConfigUpdate.ImportCounts | internal/api/configio.go:180-261 | Every connection is created or updated, every device too unless its connection is not in the payload, which is reported, and every point of a device taken; the counts of new rows are what the allocators advanced by. |
| ConfigUpdate.ValidationEdges | internal/connection/connection.go:63-98 | Validation at its limits: names, addresses, ports 1 to 65535, slave ids 1 to 247, function codes 1 to 4, parity, types, scale, and the sign of timeouts, retries and delays. |
| ConfigRestore.ConnectionsRestoredIff | internal/api/configio.go:180-205 | For any allocator: all connections are restored, numbered from it, if and only if none has an id handed out earlier in the import. |
| ConfigRestore.AscendingIdsFree | internal/api/configio.go:101-104 | Ascending ids are free when numbering starts at 1. |
| ConfigRestore.PassedIdsFree | migrations/0004_connection_split.sql:21-22 | So are ids the allocator has already passed, as on the emptied gateway they came from. |
| ConfigRestore.DevicesOntoEmpty | internal/api/configio.go:207-257 | Nor does a device lookup. |
| ConfigRestore.PointsRestoredIff | internal/api/configio.go:237-256 | Point by point, for any allocator: all are restored if and only if no id has been handed out by the time its turn comes. |
| ConfigRestore.AscendingNoneTaken | internal/api/configio.go:101-118 | On new hardware, ids ascending over the flattened device order are enough. |
| ConfigRestore.PointLost | internal/datapoint/datapoint.go:140-155 | A valid gateway with points 2 and 1 on two devices: importing its export onto new hardware leaves one point, on the wrong device. |
| ConfigRestore.ConnectionLost | internal/api/configio.go:180-205 | Connections 5 and 6 imported where the next id is 6: one row is left, and both ids map to it. |
| ConfigRestore.ExportUnusable | internal/api/configio.go:150-170 | A gateway with a device without a slave id: its export is refused everywhere. |
| ConfigRestore.PlacedUnderOwnDevice | internal/api/configio.go:101-118 | Every exported point is a point of the source, listed under its own device. |
| ConfigRestore.EveryPointPlaced | internal/api/configio.go:101-118 | Every point of the source is exported. |
| ConfigStore.Gateway.Import | internal/api/configio.go:143-261 | An invalid payload changes nothing; a valid one is applied row by row with its counts. |
| ConfigStore.Gateway.RestoreConnections | internal/api/configio.go:180-205 | The connection loop with its id map. |
| ConfigStore.Gateway.RestoreDevice | internal/api/configio.go:207-257 | One device with its points. |
| ConfigStore.Gateway.Export | internal/api/configio.go:65-122 | Exactly the tables, in id order, each device with its own points. |
| Sntp.OffsetErrorIff | internal/time/ntp.go:69-81 | For any true server times, offset and non-negative path delays, the computed offset is within half the difference of the delays plus less than 1.5 ns of truncation if and only if the sum of the two differences fits int64 and both server times lie before 2^32 seconds; then it is off by at most half the total delay plus 1.5 ns. |
| Sntp.EraRollover | internal/time/ntp.go:76-81 | Server time 2^32 + 10 s, exact local clock, no delay: the offset is -2^32 s. |
| Sntp.SumWraps | internal/time/ntp.go:69-74 | Local clock 2^62 + 1 ns ahead: the offset comes out positive. |
| Sntp.OnWireMissesEras | internal/time/ntp.go:76-81 | A time read off the wire is behind by whole eras of 2^32 seconds and less than a nanosecond more. |
| Sntp.OffsetExactIff | internal/time/ntp.go:69-74 | Half the exact sum is computed if and only if the sum fits int64. |
| Sntp.HalfTruncates | internal/time/ntp.go:69-74 | The halved sum is truncated toward zero, also when negative. |
| Sntp.InstantExchangeExactIff | internal/time/ntp.go:69-74 | With no delay the offset is the true one if and only if the clocks are no more than 2^62 ns apart. |
| Sntp.TimestampNoOverflow | internal/time/ntp.go:76-81 | No overflow for any 32-bit seconds and fraction. |
| Sntp.TruncationUnderOneNano | internal/time/ntp.go:76-81 | A timestamp is truncated by less than a nanosecond. |
| Sntp.PlausibleClocksFit | internal/time/ntp.go:69-74 | With a local clock between 1900 and 2046, the differences and their sum fit for any server answer, which leaves the era. |

## Left out

- BlockPlanTail.PlanIsOptimalIff: for plans that read all their points, which BlockPlan.CoverageIff characterizes; of a plan that leaves a point out, nothing is claimed.
- DeliveryTheorems.EvictionBounded: the protocol lets an eviction choose any k from 1 to 20000; the estimate itself is in QueueStore.Store.EvictOnce.
- DeliveryStall.PublishableIff: which values JSON refuses is taken from the Go encoder's documented behaviour.
- Sntp.OffsetErrorIff: for differences that fit int64, as clocks less than 292 years apart have; beyond that Time.Sub saturates, which Sntp.InstantExchangeExactIff covers for exchanges without delay.
- ChunkCodec.UnixMilliFloors: for times whose millisecond fits int64, within 292 million years of 1970; the round trips and the wire say nothing of the time of others.
- BlockReads.DecodeAndEmit: scaling (ApplyScale) is not applied.
- QueueStore.EstimateCovers: average size in reals, not float64.
- QueueStore.Store.Append: assumes fewer than 2^63 readings in the buffer and quality strings under 2^63 bytes.
- Registers.Decode: integers exactly, floats as bit patterns; the conversion of a 32-bit to a 64-bit float, and scaling (ApplyScale), are not part of this model.
- SQLite, WAL, vacuum and page sizes: a transaction is atomic and durable, a commit that reports an error has not happened, and file size is an input to eviction.
- DEFLATE is any pair of functions where inflating undoes deflating; damage to a stored row is limited to what decodeChunk detects.
- JSON, MQTT, paho, InfluxDB and HTTP: a lossy, duplicating, delaying channel; broker connection and the reconnect watchdog, and the HTTP ingest route, are left out.
- Lookup of the waiting slot and the push into its channel in handleAck are one step.
- Oldest and newest pending timestamps, rates and last-seen times: Flush and refreshBounds define the newest differently, so no clean invariant exists.
- DeliveryProof.RestartKeeps: for a server with a persistent chunk writer; the demo server can run with none, memory only, and then a restart loses what it acknowledged.
- The wire timestamp text is its number of milliseconds.
- Exhaustion of 64-bit seqs and ids.
- Values read with function codes 1 and 2: such points get their own block and one reading; how bits decode is left out.
- Classification of error texts into qualities, diagnostics, status, latest values, Manager.Reload, settings, web UI.
- Database errors while importing: each row's create or update succeeds; the only error reported is a device whose connection is unknown.
- netconfig's confirm-or-revert, RTC and clock system calls.
