/** What holds in every reachable state of the delivery protocol. */
module DeliveryInvariant {
  import opened Ints
  import opened ChunkCodec
  import opened QueueModel
  import opened Wire
  import opened IngestServer
  import opened GapLedger
  import opened AckMatching
  import opened Delivery

  type Contents = map<ChunkKey, seq<Reading>>

  ghost function Live(d: Disk): set<nat> {
    RowSeqs(d.rows)
  }

  /** Each stream's seqs are committed without holes, the current one's up to the allocator. */
  ghost predicate CommittedOk(c: Config, d: Disk, committed: Contents, streams: set<string>) {
    && d.streamId != "" && d.streamId in streams && "" !in streams
    && (forall k <- committed :: k.gateway == c.gateway && k.stream in streams && k.seqNo >= 1)
    && (forall k <- committed :: k.stream == d.streamId ==> k.seqNo < d.nextSeq)
    && (forall q :: 1 <= q < d.nextSeq ==> KeyFor(c, d, q) in committed)
    && (forall k <- committed, q | 1 <= q < k.seqNo :: ChunkKey(k.gateway, k.stream, q) in committed)
  }

  /** A row decodes to what was committed under its seq, or not at all. */
  ghost predicate RowOk(c: Config, stream: string, committed: Contents, r: Row) {
    var k := ChunkKey(c.gateway, stream, r.seqNo);
    && k in committed
    && r.n == |committed[k]|
    && (DecodeBlob(c.z, r.blob).None? || DecodeBlob(c.z, r.blob) == Some(AllAtMillis(committed[k])))
  }

  ghost predicate RowsOk(c: Config, stream: string, committed: Contents, rows: seq<Row>) {
    forall r <- rows :: RowOk(c, stream, committed, r)
  }

  ghost predicate BatchOk(c: Config, p: PendingChunk, rs: seq<Reading>) {
    && NonNegativeIds(rs) && GoSized(rs)
    && p == PendingChunk(|rs|, EncodeBlob(c.z, rs))
  }

  ghost predicate MemOk(c: Config, m: Memory, batches: seq<seq<Reading>>) {
    && GoSized(m.buf)
    && |batches| == |m.unflushed|
    && forall i :: 0 <= i < |batches| ==> BatchOk(c, m.unflushed[i], batches[i])
  }

  /** Nothing committed disappears without a trace. */
  ghost predicate Accounted(d: Disk, seen: set<ChunkKey>, gone: set<ChunkKey>, lost: set<ChunkKey>, k: ChunkKey) {
    k in seen || k in gone || k in lost || (k.stream == d.streamId && k.seqNo in Live(d))
  }

  ghost predicate AccountedOk(d: Disk, seen: set<ChunkKey>, committed: Contents, gone: set<ChunkKey>, lost: set<ChunkKey>) {
    && (forall k <- committed :: Accounted(d, seen, gone, lost, k))
    && (forall k <- lost :: k in committed && k.stream != d.streamId)
  }

  ghost predicate MsgOk(c: Config, m: Message, committed: Contents, streams: set<string>) {
    && m.chunks != [] && AscendingChunks(m.chunks)
    && m.gatewayId == c.gateway && m.streamId in streams
    && m.fromSeq == m.chunks[0].seqNo
    && m.toSeq == m.chunks[|m.chunks| - 1].seqNo
    && forall ch <- m.chunks :: Key(m, ch) in committed && ch.readings == ToWireAll(committed[Key(m, ch)])
  }

  ghost predicate MsgsOk(c: Config, msgs: seq<Message>, committed: Contents, streams: set<string>) {
    forall m <- msgs :: MsgOk(c, m, committed, streams)
  }

  /** Every row still stored up to a message's end is in that message. */
  ghost predicate Holds(d: Disk, live: set<nat>, m: Message) {
    m.streamId == d.streamId ==>
      m.toSeq < d.nextSeq && forall q <- live :: q <= m.toSeq ==> q in Seqs(m.chunks)
  }

  ghost predicate PrefixOk(d: Disk, live: set<nat>, msgs: seq<Message>) {
    forall m <- msgs :: Holds(d, live, m)
  }

  /** What a message's range leaves out is with the server or was given up. */
  ghost predicate ExplainsGaps(m: Message, seen: set<ChunkKey>, committed: Contents, gone: set<ChunkKey>) {
    forall k <- committed :: k.stream == m.streamId && k.seqNo <= m.toSeq && k.seqNo !in Seqs(m.chunks) ==>
      k in seen || k in gone
  }

  ghost predicate GapsOk(msgs: seq<Message>, seen: set<ChunkKey>, committed: Contents, gone: set<ChunkKey>) {
    forall m <- msgs :: ExplainsGaps(m, seen, committed, gone)
  }

  /** Up to its own end, an earlier message holds whatever a later one of its stream does. */
  ghost predicate Covers(earlier: Message, later: Message) {
    earlier.streamId == later.streamId ==>
      forall q <- Seqs(later.chunks) :: q <= earlier.toSeq ==> q in Seqs(earlier.chunks)
  }

  ghost predicate CoverOk(msgs: seq<Message>) {
    forall i, j :: 0 <= i < j < |msgs| ==> Covers(msgs[i], msgs[j])
  }

  /** An error-free ack names a message the server has stored whole. */
  ghost predicate AckOk(msgs: seq<Message>, delivered: set<nat>, a: Ack) {
    && a.streamId != ""
    && (a.error == "" ==>
          exists i <- delivered :: i < |msgs| && msgs[i].streamId == a.streamId && msgs[i].toSeq == a.toSeq)
  }

  ghost predicate AcksOk(msgs: seq<Message>, delivered: set<nat>, acks: set<Ack>) {
    forall a <- acks :: AckOk(msgs, delivered, a)
  }

  /** What the server has seen is exactly the chunks of the delivered messages. */
  ghost predicate DeliveredOk(msgs: seq<Message>, delivered: set<nat>, seen: set<ChunkKey>) {
    && (forall i <- delivered :: i < |msgs| && Keys(msgs[i], msgs[i].chunks) <= seen)
    && (forall k <- seen :: exists i <- delivered :: i < |msgs| && k in Keys(msgs[i], msgs[i].chunks))
  }

  /** Accepted once, with the content committed under the key. */
  ghost predicate LogOk(log: seq<StoredChunk>, committed: Contents) {
    && DistinctKeys(log)
    && forall e <- log :: e.key in committed && e.readings == ToWireAll(committed[e.key])
  }

  ghost predicate ServerOk(server: ServerState, committed: Contents) {
    Balanced(server) && LogOk(server.stored, committed)
  }

  /** The same of a process that has ended. */
  ghost predicate ProcessOk(p: Process, msgs: seq<Message>, committed: Contents) {
    LogOk(p.log, committed) && DeliveredOk(msgs, p.stored, KeysOf(p.log))
  }

  ghost predicate ArchiveOk(archive: seq<Process>, msgs: seq<Message>, committed: Contents) {
    forall p <- archive :: ProcessOk(p, msgs, committed)
  }

  ghost function Archived(archive: seq<Process>): set<ChunkKey> {
    set p <- archive, k <- KeysOf(p.log) :: k
  }

  /** What some server process has stored. */
  ghost function Held(s: State): set<ChunkKey> {
    Archived(s.archive) + s.server.seen
  }

  /** A batch read from the table: it still covers the table's prefix up to its last row,
      and its corrupt rows before `pos` are gone from the table. */
  ghost predicate BatchRead(c: Config, d: Disk, raw: seq<Row>, pos: nat, chunks: seq<Chunk>,
                            msgs: seq<Message>, committed: Contents)
  {
    && pos <= |raw| && Ascending(raw)
    && RowsOk(c, d.streamId, committed, raw)
    && (forall r <- raw :: r.seqNo < d.nextSeq)
    && (raw != [] ==> forall q <- Live(d) :: q <= raw[|raw| - 1].seqNo ==> q in RowSeqs(raw))
    && chunks == Decoded(c.z, raw[..pos])
    && (forall j :: 0 <= j < pos && DecodeBlob(c.z, raw[j].blob).None? ==> raw[j].seqNo !in Live(d))
    && PrefixOk(d, RowSeqs(raw), msgs)
    && (c.maxReadings > 0 && raw != [] ==> SumRows(raw[..|raw| - 1]) < c.maxReadings)
  }

  ghost predicate WaitsFor(w: Waiters, m: Message, acks: set<Ack>) {
    && w.pending.Keys == {m.toSeq} && w.stream == map[m.toSeq := m.streamId]
    && (w.pending[m.toSeq].Some? ==>
          var a := w.pending[m.toSeq].value;
          a in acks && a.toSeq == m.toSeq && a.streamId == m.streamId)
  }

  ghost predicate LastSent(d: Disk, msgs: seq<Message>, m: Message, head: nat) {
    && msgs != [] && msgs[|msgs| - 1] == m && m.streamId == d.streamId && head <= m.toSeq
  }

  ghost predicate SendOk(c: Config, d: Disk, send: SendPhase, w: Waiters, msgs: seq<Message>,
                         acks: set<Ack>, seen: set<ChunkKey>, committed: Contents)
  {
    match send
    case SendIdle => w == NO_WAITERS
    case Deleted(_, _) => w == NO_WAITERS
    case Decoding(raw, pos, chunks) => w == NO_WAITERS && BatchRead(c, d, raw, pos, chunks, msgs, committed)
    case Discarding(raw, pos, chunks) =>
      && w == NO_WAITERS && BatchRead(c, d, raw, pos, chunks, msgs, committed)
      && pos < |raw| && DecodeBlob(c.z, raw[pos].blob).None? && raw[pos].seqNo !in Live(d)
    case Sending(m, head) => LastSent(d, msgs, m, head) && WaitsFor(w, m, acks)
    case Released(m, head) => w == NO_WAITERS && LastSent(d, msgs, m, head) && Keys(m, m.chunks) <= seen
  }

  ghost function UpToSet(live: set<nat>, cut: int): set<nat> {
    set q <- live | q <= cut
  }

  ghost predicate EvictOk(d: Disk, e: EvictPhase) {
    e.EvictChosen? ==> e.cut < d.nextSeq && |UpToSet(Live(d), e.cut)| <= e.k <= MAX_EVICT_CHUNKS_PER_PASS
  }

  // ---------------------------------------------------------------------------
  // Counters

  /** Committed by each thread but not yet applied to the counters in memory. */
  function UnappliedChunks(m: Memory, flush: FlushPhase, send: SendPhase, evict: EvictPhase): int {
    (if flush.FlushWritten? then |m.unflushed| else 0)
    - (if send.Discarding? then 1 else if send.Deleted? then send.count else 0)
    - (if evict.Evicted? then evict.count else 0)
  }

  function UnappliedDrop(send: SendPhase): int {
    if send.Discarding? && send.pos < |send.raw| then send.raw[send.pos].n else 0
  }

  function UnappliedReadings(m: Memory, flush: FlushPhase, send: SendPhase, evict: EvictPhase): int {
    (if flush.FlushWritten? then SumPending(m.unflushed) else 0)
    - UnappliedDrop(send) - (if send.Deleted? then send.readings else 0)
    - (if evict.Evicted? then evict.readings else 0)
  }

  /** The counters in memory lag the file by exactly the unapplied commits. */
  ghost predicate CountersOk(d: Disk, m: Memory, flush: FlushPhase, send: SendPhase, evict: EvictPhase) {
    && m.pendingChunks + UnappliedChunks(m, flush, send, evict) == d.pendingChunks
    && m.pendingReadings + UnappliedReadings(m, flush, send, evict) == d.pendingReadings
    && m.evicted + (if evict.Evicted? then evict.readings else 0) == d.evictedReadings
  }

  /** Every reading appended since the start, or stored then, is in exactly one place. */
  ghost predicate Conserved(d: Disk, m: Memory, flush: FlushPhase, send: SendPhase,
                            appended: nat, openReadings: int, openEvicted: int, acked: nat)
  {
    appended + openReadings ==
      |m.buf| + (if flush.FlushWritten? then 0 else SumPending(m.unflushed)) + d.pendingReadings
      + acked + (d.evictedReadings - openEvicted) + m.dropped + UnappliedDrop(send)
  }

  // ---------------------------------------------------------------------------

  ghost function Gone(h: History): set<ChunkKey> {
    h.evicted + h.discarded
  }

  /** The file and the memory side. */
  ghost predicate Storage(c: Config, d: Disk, m: Memory, seen: set<ChunkKey>, h: History) {
    && Consistent(d)
    && CommittedOk(c, d, h.committed, h.streams)
    && RowsOk(c, d.streamId, h.committed, d.rows)
    && MemOk(c, m, h.batches)
    && AccountedOk(d, seen, h.committed, Gone(h), h.lost)
  }

  /** Everything in flight and at the server. */
  ghost predicate Traffic(c: Config, d: Disk, msgs: seq<Message>, acks: set<Ack>, server: ServerState,
                          archive: seq<Process>, h: History)
  {
    var held := Archived(archive) + server.seen;
    && MsgsOk(c, msgs, h.committed, h.streams)
    && PrefixOk(d, Live(d), msgs)
    && GapsOk(msgs, held, h.committed, Gone(h))
    && CoverOk(msgs)
    && AcksOk(msgs, h.delivered, acks)
    && DeliveredOk(msgs, h.delivered, held)
    && DeliveredOk(msgs, h.current, server.seen)
    && ServerOk(server, h.committed)
    && ArchiveOk(archive, msgs, h.committed)
  }

  ghost predicate Inv(c: Config, s: State) {
    var h := s.hist;
    && Storage(c, s.disk, s.mem, Held(s), h)
    && Traffic(c, s.disk, s.msgs, s.acks, s.server, s.archive, h)
    && SendOk(c, s.disk, s.send, s.waiters, s.msgs, s.acks, Held(s), h.committed)
    && EvictOk(s.disk, s.evict)
    && CountersOk(s.disk, s.mem, s.flush, s.send, s.evict)
    && Conserved(s.disk, s.mem, s.flush, s.send, h.appended, h.openReadings, h.openEvicted, h.acked)
  }
}
