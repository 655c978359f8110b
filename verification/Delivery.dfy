/** Store and forward as one transition system: the flusher, the forwarder and the evictor of
    a gateway run interleaved against a network that loses, repeats and delays, and a
    server that may refuse, fail or drop its acks. A database transaction is one atomic
    durable step; the in-memory counter update after it is a separate step. */
module Delivery {
  import opened Ints
  import opened ChunkCodec
  import opened QueueModel
  import opened Wire
  import opened IngestServer
  import opened AckMatching

  datatype Config = Config(z: Flate, gateway: string, maxReadings: int, maxUnflushed: nat)

  /** Flush: after the first critical section, and after the commit. */
  datatype FlushPhase = FlushIdle | FlushSealed | FlushWritten

  /** dispatchOnce: the rows of one ReadBatch being decoded; a corrupt row deleted but not
      yet uncounted; a message waiting for its ack; Send returned; rows deleted but not yet
      uncounted. `head` is the seq of the first row scanned. */
  datatype SendPhase =
    | SendIdle
    | Decoding(raw: seq<Row>, pos: nat, chunks: seq<Chunk>)
    | Discarding(raw: seq<Row>, pos: nat, chunks: seq<Chunk>)
    | Sending(msg: Message, head: nat)
    | Released(msg: Message, head: nat)
    | Deleted(count: nat, readings: nat)

  /** evictOnce: the cut point chosen, then the rows deleted but not yet uncounted. */
  datatype EvictPhase = EvictIdle | EvictChosen(k: nat, cut: nat) | Evicted(count: nat, readings: nat)

  /** What has happened, kept for the statements only. `batches` holds the readings behind
      each unflushed chunk, `committed` the readings behind each seq ever committed,
      `delivered` the messages ever stored, `current` those stored since the server last
      started. The counts are since the gateway last started. */
  datatype History = History(
    batches: seq<seq<Reading>>,
    committed: map<ChunkKey, seq<Reading>>,
    evicted: set<ChunkKey>,
    discarded: set<ChunkKey>,
    lost: set<ChunkKey>,
    streams: set<string>,
    delivered: set<nat>,
    current: set<nat>,
    appended: nat,
    openReadings: int,
    openEvicted: int,
    acked: nat)

  /** A server process that has ended: what it wrote, and the messages it stored. */
  datatype Process = Process(log: seq<StoredChunk>, stored: set<nat>)

  /** `msgs` lists every message handed to the broker, in order, and `acks` every ack
      published; the network may deliver any of them any number of times, or never.
      `archive` holds the server processes before the present one. */
  datatype State = State(
    disk: Disk,
    mem: Memory,
    flush: FlushPhase,
    send: SendPhase,
    evict: EvictPhase,
    waiters: Waiters,
    msgs: seq<Message>,
    acks: set<Ack>,
    server: ServerState,
    archive: seq<Process>,
    hist: History)

  function KeyFor(c: Config, d: Disk, q: int): ChunkKey {
    ChunkKey(c.gateway, d.streamId, q)
  }

  ghost function KeysOfRows(c: Config, d: Disk, rows: seq<Row>): set<ChunkKey> {
    set r <- rows :: KeyFor(c, d, r.seqNo)
  }

  // ---------------------------------------------------------------------------
  // Start

  ghost predicate Init(c: Config, s: State) {
    && s.disk.streamId != ""
    && s.disk == NewDisk(s.disk.streamId)
    && s.mem == Reopened(s.disk)
    && s.flush == FlushIdle && s.send == SendIdle && s.evict == EvictIdle
    && s.waiters == NO_WAITERS && s.msgs == [] && s.acks == {}
    && s.server == EMPTY_SERVER && s.archive == []
    && s.hist == History([], map[], {}, {}, {}, {s.disk.streamId}, {}, {}, 0, 0, 0, 0)
  }

  // ---------------------------------------------------------------------------
  // Acquisition and flush

  ghost predicate Append(c: Config, s: State, s': State, r: Reading) {
    && |r.quality| < TWO63 && |s.mem.buf| + 1 < TWO63
    && s' == s.(mem := s.mem.(buf := s.mem.buf + [r]), hist := s.hist.(appended := s.hist.appended + 1))
  }

  ghost predicate SealBuffer(c: Config, s: State, s': State) {
    && s.flush == FlushIdle && GoSized(s.mem.buf)
    && var sealed := s.mem.buf != [] && NonNegativeIds(s.mem.buf);
       s' == s.(mem := Seal(c.z, s.mem),
                flush := if Seal(c.z, s.mem).unflushed == [] then FlushIdle else FlushSealed,
                hist := if sealed then s.hist.(batches := s.hist.batches + [s.mem.buf]) else s.hist)
  }

  /** The keys the next `n` inserts get. */
  ghost function NextKeys(c: Config, d: Disk, n: nat): (ks: set<ChunkKey>)
    ensures forall k :: k in ks <==>
                          k.gateway == c.gateway && k.stream == d.streamId && d.nextSeq <= k.seqNo < d.nextSeq + n
  {
    var ks := set q: int | d.nextSeq <= q < d.nextSeq + n :: KeyFor(c, d, q);
    assert forall k: ChunkKey :: k.gateway == c.gateway && k.stream == d.streamId ==> k == KeyFor(c, d, k.seqNo);
    ks
  }

  ghost function Committed(c: Config, s: State): map<ChunkKey, seq<Reading>> {
    map k <- NextKeys(c, s.disk, |s.hist.batches|) :: s.hist.batches[k.seqNo - s.disk.nextSeq]
  }

  ghost predicate WriteChunks(c: Config, s: State, s': State) {
    && s.flush == FlushSealed
    && s' == s.(disk := Insert(s.disk, s.mem.unflushed), flush := FlushWritten,
                hist := s.hist.(committed := s.hist.committed + Committed(c, s)))
  }

  ghost predicate WriteFails(c: Config, s: State, s': State) {
    && s.flush == FlushSealed
    && var over := |s.mem.unflushed| - c.maxUnflushed;
       s' == s.(mem := TrimBacklog(s.mem, c.maxUnflushed), flush := FlushIdle,
                hist := s.hist.(batches := if 0 < over <= |s.hist.batches| then s.hist.batches[over..] else s.hist.batches))
  }

  ghost predicate CountWrite(c: Config, s: State, s': State) {
    && s.flush == FlushWritten
    && s' == s.(mem := CountWritten(s.mem, s.mem.unflushed), flush := FlushIdle,
                hist := s.hist.(batches := []))
  }

  // ---------------------------------------------------------------------------
  // Forwarder: ReadBatch, Send, Ack

  ghost predicate StartBatch(c: Config, s: State, s': State) {
    && s.send == SendIdle
    && s' == s.(send := Decoding(Scan(s.disk.rows, c.maxReadings), 0, []))
  }

  ghost predicate DecodeRow(c: Config, s: State, s': State) {
    && s.send.Decoding? && s.send.pos < |s.send.raw|
    && var row := s.send.raw[s.send.pos];
       var rs := DecodeBlob(c.z, row.blob);
       && rs.Some?
       && s' == s.(send := Decoding(s.send.raw, s.send.pos + 1, s.send.chunks + [Chunk(row.seqNo, rs.value)]))
  }

  ghost predicate CorruptAhead(c: Config, s: State) {
    s.send.Decoding? && s.send.pos < |s.send.raw| && DecodeBlob(c.z, s.send.raw[s.send.pos].blob).None?
  }

  ghost predicate DiscardRow(c: Config, s: State, s': State) {
    && CorruptAhead(c, s)
    && var row := s.send.raw[s.send.pos];
       && row.seqNo in RowSeqs(s.disk.rows)
       && s' == s.(disk := Discard(s.disk, row.seqNo, row.n),
                   send := Discarding(s.send.raw, s.send.pos, s.send.chunks),
                   hist := s.hist.(discarded := s.hist.discarded + {KeyFor(c, s.disk, row.seqNo)}))
  }

  ghost predicate DiscardFindsNothing(c: Config, s: State, s': State) {
    && CorruptAhead(c, s)
    && s.send.raw[s.send.pos].seqNo !in RowSeqs(s.disk.rows)
    && s' == s.(send := Decoding(s.send.raw, s.send.pos + 1, s.send.chunks))
  }

  ghost predicate DiscardFails(c: Config, s: State, s': State) {
    CorruptAhead(c, s) && s' == s.(send := SendIdle)
  }

  ghost predicate CountDiscard(c: Config, s: State, s': State) {
    && s.send.Discarding? && s.send.pos < |s.send.raw|
    && var n := s.send.raw[s.send.pos].n;
       s' == s.(mem := CountDeleted(s.mem, 1, n).(dropped := s.mem.dropped + n),
                send := Decoding(s.send.raw, s.send.pos + 1, s.send.chunks))
  }

  ghost predicate NothingToSend(c: Config, s: State, s': State) {
    && s.send.Decoding? && s.send.pos == |s.send.raw| && s.send.chunks == []
    && s' == s.(send := SendIdle)
  }

  ghost predicate Marshalable(chunks: seq<Chunk>) {
    forall ch <- chunks :: forall r <- ch.readings :: r.value.Some? ==> Finite(r.value.value)
  }

  /** Send gives up before publishing: not connected, or the message has no JSON form. */
  ghost predicate SendRefused(c: Config, s: State, s': State) {
    && s.send.Decoding? && s.send.pos == |s.send.raw| && s.send.chunks != []
    && s' == s.(send := SendIdle)
  }

  ghost predicate Publish(c: Config, s: State, s': State) {
    && s.send.Decoding? && s.send.pos == |s.send.raw| && s.send.chunks != [] && s.send.raw != []
    && Marshalable(s.send.chunks)
    && var m := MessageOf(c.gateway, s.disk.streamId, s.send.chunks);
       s' == s.(send := Sending(m, s.send.raw[0].seqNo), waiters := Register(s.waiters, m), msgs := s.msgs + [m])
  }

  /** A timeout, a cancelled context, a failed publish or an ack carrying an error. */
  ghost predicate SendFails(c: Config, s: State, s': State) {
    && s.send.Sending?
    && s' == s.(send := SendIdle, waiters := Unregister(s.waiters, s.send.msg))
  }

  ghost predicate SendReturns(c: Config, s: State, s': State) {
    && s.send.Sending?
    && var q := s.send.msg.toSeq;
       && q in s.waiters.pending && s.waiters.pending[q].Some? && s.waiters.pending[q].value.error == ""
       && s' == s.(send := Released(s.send.msg, s.send.head), waiters := Unregister(s.waiters, s.send.msg))
  }

  ghost predicate DeleteAcked(c: Config, s: State, s': State) {
    && s.send.Released?
    && var gone := UpTo(s.disk.rows, s.send.msg.toSeq);
       s' == s.(disk := DeleteThrough(s.disk, s.send.msg.toSeq, false),
                send := Deleted(|gone|, SumRows(gone)),
                hist := s.hist.(acked := s.hist.acked + SumRows(gone)))
  }

  ghost predicate DeleteFails(c: Config, s: State, s': State) {
    s.send.Released? && s' == s.(send := SendIdle)
  }

  ghost predicate CountAcked(c: Config, s: State, s': State) {
    && s.send.Deleted?
    && s' == s.(mem := CountDeleted(s.mem, s.send.count, s.send.readings), send := SendIdle)
  }

  // ---------------------------------------------------------------------------
  // Network and server

  ghost predicate ServerHandles(c: Config, s: State, s': State, i: nat, settings: Settings, writeError: string) {
    && i < |s.msgs|
    && var m := s.msgs[i];
       var (server, ack) := HandleMessage(s.server, settings, m, writeError);
       s' == s.(server := server,
                acks := s.acks + (if ack.Some? then {ack.value} else {}),
                hist := if Stores(s.server, settings, m, writeError)
                        then s.hist.(delivered := s.hist.delivered + {i}, current := s.hist.current + {i})
                        else s.hist)
  }

  /** The server process ends and a new one starts: what it wrote stays written, but seen,
      last seqs and counters were in memory only. */
  ghost predicate ServerRestarts(c: Config, s: State, s': State) {
    s' == s.(server := EMPTY_SERVER,
             archive := s.archive + [Process(s.server.stored, s.hist.current)],
             hist := s.hist.(current := {}))
  }

  ghost predicate AckArrives(c: Config, s: State, s': State, a: Ack) {
    && a in s.acks
    && s' == s.(waiters := HandleAck(s.waiters, a))
  }

  // ---------------------------------------------------------------------------
  // Eviction

  /** `k` is the size estimate, at least one and capped; SELECT ... OFFSET k - 1 finds the cut. */
  ghost predicate ChooseCut(c: Config, s: State, s': State, k: nat) {
    && s.evict == EvictIdle
    && 1 <= k <= |s.disk.rows| && k <= MAX_EVICT_CHUNKS_PER_PASS
    && s' == s.(evict := EvictChosen(k, s.disk.rows[k - 1].seqNo))
  }

  ghost predicate EvictRows(c: Config, s: State, s': State) {
    && s.evict.EvictChosen?
    && var gone := UpTo(s.disk.rows, s.evict.cut);
       s' == s.(disk := DeleteThrough(s.disk, s.evict.cut, true),
                evict := Evicted(|gone|, SumRows(gone)),
                hist := s.hist.(evicted := s.hist.evicted + KeysOfRows(c, s.disk, gone)))
  }

  ghost predicate EvictFails(c: Config, s: State, s': State) {
    s.evict.EvictChosen? && s' == s.(evict := EvictIdle)
  }

  ghost predicate CountEvicted(c: Config, s: State, s': State) {
    && s.evict.Evicted?
    && s' == s.(mem := CountDeleted(s.mem, s.evict.count, s.evict.readings)
                       .(evicted := s.mem.evicted + s.evict.readings),
                evict := EvictIdle)
  }

  // ---------------------------------------------------------------------------
  // Damage and restarts

  /** Storage damage the decoder detects. */
  ghost predicate Corrupt(c: Config, s: State, s': State, j: nat, blob: seq<Byte>) {
    && j < |s.disk.rows| && DecodeBlob(c.z, blob).None?
    && s' == s.(disk := s.disk.(rows := s.disk.rows[j := s.disk.rows[j].(blob := blob)]))
  }

  /** Power loss or restart at any point: memory is gone, the file is reopened. */
  ghost predicate Crash(c: Config, s: State, s': State) {
    s' == s.(mem := Reopened(s.disk), flush := FlushIdle, send := SendIdle, evict := EvictIdle,
             waiters := NO_WAITERS,
             hist := s.hist.(batches := [], appended := 0, openReadings := s.disk.pendingReadings,
                             openEvicted := s.disk.evictedReadings, acked := 0))
  }

  /** The file is lost while the process is down; a new one gets a stream id never used. */
  ghost predicate ReplaceFile(c: Config, s: State, s': State, id: string) {
    && id != "" && id !in s.hist.streams
    && var d := NewDisk(id);
       s' == s.(disk := d, mem := Reopened(d), flush := FlushIdle, send := SendIdle, evict := EvictIdle,
                waiters := NO_WAITERS,
                hist := s.hist.(batches := [], lost := s.hist.lost + KeysOfRows(c, s.disk, s.disk.rows),
                                streams := s.hist.streams + {id}, appended := 0,
                                openReadings := 0, openEvicted := 0, acked := 0))
  }

  // ---------------------------------------------------------------------------
  // Runs

  datatype Event =
    | OnAppend(r: Reading)
    | OnSealBuffer | OnWriteChunks | OnWriteFails | OnCountWrite
    | OnStartBatch | OnDecodeRow | OnDiscardRow | OnDiscardFindsNothing | OnDiscardFails | OnCountDiscard
    | OnNothingToSend | OnSendRefused | OnPublish | OnSendFails | OnSendReturns
    | OnDeleteAcked | OnDeleteFails | OnCountAcked
    | OnServerHandles(i: nat, settings: Settings, writeError: string) | OnServerRestarts
    | OnAckArrives(a: Ack)
    | OnChooseCut(k: nat) | OnEvictRows | OnEvictFails | OnCountEvicted
    | OnCorrupt(j: nat, blob: seq<Byte>)
    | OnCrash
    | OnReplaceFile(id: string)

  ghost predicate Next(c: Config, s: State, s': State, e: Event) {
    match e
    case OnAppend(r) => Append(c, s, s', r)
    case OnSealBuffer => SealBuffer(c, s, s')
    case OnWriteChunks => WriteChunks(c, s, s')
    case OnWriteFails => WriteFails(c, s, s')
    case OnCountWrite => CountWrite(c, s, s')
    case OnStartBatch => StartBatch(c, s, s')
    case OnDecodeRow => DecodeRow(c, s, s')
    case OnDiscardRow => DiscardRow(c, s, s')
    case OnDiscardFindsNothing => DiscardFindsNothing(c, s, s')
    case OnDiscardFails => DiscardFails(c, s, s')
    case OnCountDiscard => CountDiscard(c, s, s')
    case OnNothingToSend => NothingToSend(c, s, s')
    case OnSendRefused => SendRefused(c, s, s')
    case OnPublish => Publish(c, s, s')
    case OnSendFails => SendFails(c, s, s')
    case OnSendReturns => SendReturns(c, s, s')
    case OnDeleteAcked => DeleteAcked(c, s, s')
    case OnDeleteFails => DeleteFails(c, s, s')
    case OnCountAcked => CountAcked(c, s, s')
    case OnServerHandles(i, settings, writeError) => ServerHandles(c, s, s', i, settings, writeError)
    case OnServerRestarts => ServerRestarts(c, s, s')
    case OnAckArrives(a) => AckArrives(c, s, s', a)
    case OnChooseCut(k) => ChooseCut(c, s, s', k)
    case OnEvictRows => EvictRows(c, s, s')
    case OnEvictFails => EvictFails(c, s, s')
    case OnCountEvicted => CountEvicted(c, s, s')
    case OnCorrupt(j, blob) => Corrupt(c, s, s', j, blob)
    case OnCrash => Crash(c, s, s')
    case OnReplaceFile(id) => ReplaceFile(c, s, s', id)
  }

  /** A finite run: `events[i]` leads from `states[i]` to `states[i + 1]`. */
  datatype Run = Run(states: seq<State>, events: seq<Event>)

  ghost predicate Steps(c: Config, run: Run) {
    && |run.states| == |run.events| + 1
    && forall i :: 0 <= i < |run.events| ==> Next(c, run.states[i], run.states[i + 1], run.events[i])
  }

  ghost predicate IsRun(c: Config, run: Run) {
    && c.z.Inverse()
    && Steps(c, run)
    && Init(c, run.states[0])
  }

  /** One step, and then a run from where it leads. */
  function Before(s: State, e: Event, run: Run): Run {
    Run([s] + run.states, [e] + run.events)
  }

  lemma StepBefore(c: Config, s: State, e: Event, run: Run)
    requires Steps(c, run) && Next(c, s, run.states[0], e)
    ensures Steps(c, Before(s, e, run))
  {
    hide Next;
    var all := Before(s, e, run);
    forall i | 0 <= i < |all.events| ensures Next(c, all.states[i], all.states[i + 1], all.events[i]) {
      if i > 0 {
        assert Next(c, run.states[i - 1], run.states[i], run.events[i - 1]);
      }
    }
  }

  function Joined(a: Run, b: Run): Run
    requires b.states != []
  {
    Run(a.states + b.states[1..], a.events + b.events)
  }

  lemma JoinedSteps(c: Config, a: Run, b: Run)
    requires Steps(c, a) && Steps(c, b) && b.states[0] == a.states[|a.events|]
    ensures Steps(c, Joined(a, b))
    ensures var run := Joined(a, b);
            run.states[0] == a.states[0] && run.states[|run.events|] == b.states[|b.events|]
  {
    hide Next;
    var run, n := Joined(a, b), |a.events|;
    forall i | 0 <= i < |run.events| ensures Next(c, run.states[i], run.states[i + 1], run.events[i]) {
      if i < n {
        assert Next(c, a.states[i], a.states[i + 1], a.events[i]);
      } else {
        assert Next(c, b.states[i - n], b.states[i - n + 1], b.events[i - n]);
        assert run.states[i] == b.states[i - n];
      }
    }
  }

  // ---------------------------------------------------------------------------
  // Which steps touch what

  ghost predicate ChangesDisk(e: Event) {
    e.OnWriteChunks? || e.OnDiscardRow? || e.OnDeleteAcked? || e.OnEvictRows? || e.OnCorrupt? || e.OnReplaceFile?
  }

  /** The event names the step. */
  lemma StepIs(c: Config, s: State, s': State, e: Event)
    requires Next(c, s, s', e)
    ensures e.OnWriteChunks? ==> WriteChunks(c, s, s')
    ensures e.OnPublish? ==> Publish(c, s, s')
    ensures e.OnDiscardRow? ==> DiscardRow(c, s, s')
    ensures e.OnDeleteAcked? ==> DeleteAcked(c, s, s')
    ensures e.OnEvictRows? ==> EvictRows(c, s, s')
    ensures e.OnCorrupt? ==> Corrupt(c, s, s', e.j, e.blob)
    ensures e.OnServerHandles? ==> ServerHandles(c, s, s', e.i, e.settings, e.writeError)
    ensures e.OnServerRestarts? ==> ServerRestarts(c, s, s')
    ensures e.OnReplaceFile? ==> ReplaceFile(c, s, s', e.id)
  {
    hide WriteChunks;
    hide Publish;
    hide DiscardRow;
    hide DeleteAcked;
    hide EvictRows;
    hide Corrupt;
    hide ServerHandles;
    hide ServerRestarts;
    hide ReplaceFile;
  }

  lemma DiskFrame(c: Config, s: State, s': State, e: Event)
    requires Next(c, s, s', e)
    ensures !ChangesDisk(e) ==> s'.disk == s.disk
    ensures !e.OnReplaceFile? ==> s'.disk.streamId == s.disk.streamId
    ensures !e.OnReplaceFile? && !e.OnWriteChunks? ==> s'.disk.nextSeq == s.disk.nextSeq
  {
    hide DecodeBlob;
    hide HandleMessage;
    hide Stores;
    hide Marshalable;
    hide Above;
    hide UpTo;
    hide Without;
    hide SumRows;
    hide Scan;
    hide Seal;
    hide TrimBacklog;
  }

  lemma ServerFrame(c: Config, s: State, s': State, e: Event)
    requires Next(c, s, s', e)
    ensures !e.OnServerHandles? && !e.OnServerRestarts? ==> s'.server == s.server
    ensures !e.OnServerRestarts? ==> s'.archive == s.archive
  {
    hide DecodeBlob;
    hide HandleMessage;
    hide Stores;
    hide Marshalable;
    hide DeleteThrough;
    hide Discard;
    hide Insert;
    hide NewDisk;
    hide Reopened;
    hide Register;
    hide Unregister;
    hide HandleAck;
    hide CountDeleted;
    hide CountWritten;
    hide UpTo;
    hide SumRows;
    hide Scan;
    hide Seal;
    hide TrimBacklog;
  }

  lemma HistoryFrame(c: Config, s: State, s': State, e: Event)
    requires Next(c, s, s', e)
    ensures !e.OnWriteChunks? ==> s'.hist.committed == s.hist.committed
    ensures !e.OnReplaceFile? ==> s'.hist.streams == s.hist.streams
  {
    hide DecodeBlob;
    hide HandleMessage;
    hide Stores;
    hide Marshalable;
    hide DeleteThrough;
    hide Discard;
    hide Insert;
    hide NewDisk;
    hide Reopened;
    hide Register;
    hide Unregister;
    hide HandleAck;
    hide CountDeleted;
    hide CountWritten;
    hide UpTo;
    hide SumRows;
    hide Scan;
    hide Seal;
    hide TrimBacklog;
  }
}
