/** The de-duplicating server: what one message does to its state, and what is answered. */
module IngestServer {
  import opened Ints
  import opened Wire

  datatype ChunkKey = ChunkKey(gateway: string, stream: string, seqNo: int)

  datatype StreamKey = StreamKey(gateway: string, stream: string)

  datatype StoredReading = StoredReading(key: ChunkKey, reading: WireReading)

  datatype StoredChunk = StoredChunk(key: ChunkKey, readings: seq<WireReading>)

  datatype Gap = Gap(gateway: string, stream: string, fromSeq: int, toSeq: int)

  datatype GatewayStats = GatewayStats(
    messages: nat,
    readings: nat,
    duplicateChunks: nat,
    gaps: nat,
    missingChunks: int,
    rejected: nat,
    lastError: string,
    streams: map<string, int>)

  /** `stored` is everything handed to the chunk writer, oldest first; `received` the most
      recent readings kept for the status page; `gaps` the most recent gaps first. */
  datatype ServerState = ServerState(
    seen: set<ChunkKey>,
    lastSeq: map<StreamKey, int>,
    gateways: map<string, GatewayStats>,
    gaps: seq<Gap>,
    received: seq<StoredReading>,
    stored: seq<StoredChunk>)

  const MAX_RECEIVED := 10000
  const MAX_GAPS := 100
  const NO_STATS := GatewayStats(0, 0, 0, 0, 0, 0, "", map[])
  const EMPTY_SERVER := ServerState({}, map[], map[], [], [], [])

  function StatsOf(s: ServerState, gateway: string): GatewayStats {
    if gateway in s.gateways then s.gateways[gateway] else NO_STATS
  }

  function WithStats(s: ServerState, gateway: string, g: GatewayStats): ServerState {
    s.(gateways := s.gateways[gateway := g])
  }

  // ---------------------------------------------------------------------------
  // ingest

  function Key(m: Message, c: WireChunk): ChunkKey {
    ChunkKey(m.gatewayId, m.streamId, c.seqNo)
  }

  function Fresh(seen: set<ChunkKey>, m: Message, chunks: seq<WireChunk>): seq<WireChunk> {
    if chunks == [] then []
    else if Key(m, chunks[0]) in seen then Fresh(seen, m, chunks[1..])
    else [chunks[0]] + Fresh(seen, m, chunks[1..])
  }

  /** The numbers strictly between the stream's last seq and q, when it has a last seq. */
  function GapBefore(s: ServerState, sk: StreamKey, q: int): Option<Gap> {
    if sk in s.lastSeq && q > s.lastSeq[sk] + 1
    then Some(Gap(sk.gateway, sk.stream, s.lastSeq[sk] + 1, q - 1))
    else None
  }

  function Tagged(k: ChunkKey, rs: seq<WireReading>): (out: seq<StoredReading>)
    ensures |out| == |rs|
  {
    seq(|rs|, i requires 0 <= i < |rs| => StoredReading(k, rs[i]))
  }

  function Raised(s: ServerState, sk: StreamKey, q: int): bool {
    q > (if sk in s.lastSeq then s.lastSeq[sk] else 0)
  }

  function LatestGaps(g: seq<Gap>): seq<Gap> {
    if |g| > MAX_GAPS then g[..MAX_GAPS] else g
  }

  /** One iteration of ingest's second loop: a fresh chunk is recorded. */
  function Accept(s: ServerState, m: Message, c: WireChunk): ServerState {
    var sk := StreamKey(m.gatewayId, m.streamId);
    var k := Key(m, c);
    var g0 := StatsOf(s, m.gatewayId);
    var gap := GapBefore(s, sk, c.seqNo);
    var g1 := if gap.Some?
              then g0.(gaps := g0.gaps + 1,
                       missingChunks := g0.missingChunks + (gap.value.toSeq - gap.value.fromSeq + 1))
              else g0;
    var g2 := if Raised(s, sk, c.seqNo) then g1.(streams := g1.streams[m.streamId := c.seqNo]) else g1;
    ServerState(
      s.seen + {k},
      if Raised(s, sk, c.seqNo) then s.lastSeq[sk := c.seqNo] else s.lastSeq,
      s.gateways[m.gatewayId := g2],
      if gap.Some? then LatestGaps([gap.value] + s.gaps) else s.gaps,
      s.received + Tagged(k, c.readings),
      s.stored + [StoredChunk(k, c.readings)])
  }

  function AcceptAll(s: ServerState, m: Message, unseen: seq<WireChunk>): ServerState
    decreases |unseen|
  {
    if unseen == [] then s
    else Accept(AcceptAll(s, m, unseen[..|unseen| - 1]), m, unseen[|unseen| - 1])
  }

  function CountDuplicates(s: ServerState, m: Message): ServerState {
    var g := StatsOf(s, m.gatewayId);
    WithStats(s, m.gatewayId,
              g.(duplicateChunks := g.duplicateChunks + CountSeen(s.seen, m, m.chunks)))
  }

  function CountSeen(seen: set<ChunkKey>, m: Message, chunks: seq<WireChunk>): nat {
    if chunks == [] then 0
    else (if Key(m, chunks[0]) in seen then 1 else 0) + CountSeen(seen, m, chunks[1..])
  }

  function Rejected(s: ServerState, gateway: string, reason: string): ServerState {
    var g := StatsOf(s, gateway);
    WithStats(s, gateway, g.(rejected := g.rejected + 1, lastError := reason))
  }

  /** After the loop: the readings are counted, the error cleared, `received` trimmed. */
  function Finished(s: ServerState, gateway: string, accepted: nat): ServerState {
    var g := StatsOf(s, gateway);
    var n := |s.received|;
    WithStats(s, gateway, g.(readings := g.readings + accepted, lastError := ""))
      .(received := if n > MAX_RECEIVED then s.received[n - MAX_RECEIVED..] else s.received)
  }

  datatype IngestResult = Ingested(accepted: nat, duplicates: nat) | NotStored(duplicates: nat, error: string)

  /** `writeError` is the chunk writer's answer, empty when the write succeeds. */
  function Ingest(s: ServerState, m: Message, writeError: string): (ServerState, IngestResult) {
    var unseen := Fresh(s.seen, m, m.chunks);
    var dups := CountSeen(s.seen, m, m.chunks);
    var s1 := CountDuplicates(s, m);
    if unseen != [] && writeError != "" then
      (Rejected(s1, m.gatewayId, writeError), NotStored(dups, writeError))
    else
      var n := CountReadings(unseen);
      (Finished(AcceptAll(s1, m, unseen), m.gatewayId, n), Ingested(n, dups))
  }

  // ---------------------------------------------------------------------------
  // process and handleMQTT

  datatype Fault = NoFault | DropAck | ErrorAck | Ignore

  datatype Settings = Settings(fault: Fault, rejectUnknown: bool, registered: set<string>)

  function NoteMessage(s: ServerState, gateway: string): ServerState {
    var g := StatsOf(s, gateway);
    WithStats(s, gateway, g.(messages := g.messages + 1))
  }

  function UnregisteredError(gateway: string): (e: string)
    ensures e != ""
  {
    "gateway " + gateway + " is not registered on this server"
  }

  /** The new state, and the ack to publish if any. */
  function HandleMessage(s: ServerState, settings: Settings, m: Message, writeError: string)
    : (ServerState, Option<Ack>)
  {
    var s1 := NoteMessage(s, m.gatewayId);
    if settings.fault == Ignore then
      (Rejected(s1, m.gatewayId, "simulated: message ignored"), None)
    else if settings.rejectUnknown && m.gatewayId !in settings.registered then
      (Rejected(s1, m.gatewayId, "gateway not registered"),
       Some(Ack(m.streamId, m.toSeq, UnregisteredError(m.gatewayId))))
    else if settings.fault == ErrorAck then
      (Rejected(s1, m.gatewayId, "simulated: error ack"),
       Some(Ack(m.streamId, m.toSeq, "simulated server error")))
    else
      var (s2, r) := Ingest(s1, m, writeError);
      if r.NotStored? then (s2, Some(Ack(m.streamId, m.toSeq, r.error)))
      else if settings.fault == DropAck then (s2, None)
      else (s2, Some(Ack(m.streamId, m.toSeq, "")))
  }

  /** Whether the message's chunks end up stored. */
  predicate Stores(s: ServerState, settings: Settings, m: Message, writeError: string) {
    && settings.fault != Ignore
    && !(settings.rejectUnknown && m.gatewayId !in settings.registered)
    && settings.fault != ErrorAck
    && (Fresh(s.seen, m, m.chunks) == [] || writeError == "")
  }

  // ---------------------------------------------------------------------------
  // Facts about one message

  ghost function Keys(m: Message, chunks: seq<WireChunk>): set<ChunkKey> {
    set c <- chunks :: Key(m, c)
  }

  lemma {:induction false} FreshIsUnseen(seen: set<ChunkKey>, m: Message, chunks: seq<WireChunk>)
    ensures forall c :: c in Fresh(seen, m, chunks) <==> c in chunks && Key(m, c) !in seen
    ensures |Fresh(seen, m, chunks)| + CountSeen(seen, m, chunks) == |chunks|
  {
    if chunks != [] {
      FreshIsUnseen(seen, m, chunks[1..]);
      assert chunks == [chunks[0]] + chunks[1..];
    }
  }

  lemma {:induction false} FreshAscends(seen: set<ChunkKey>, m: Message, chunks: seq<WireChunk>)
    requires AscendingChunks(chunks)
    ensures AscendingChunks(Fresh(seen, m, chunks))
  {
    if chunks != [] {
      FreshAscends(seen, m, chunks[1..]);
      FreshIsUnseen(seen, m, chunks[1..]);
      var rest := Fresh(seen, m, chunks[1..]);
      forall j | 0 <= j < |rest| ensures chunks[0].seqNo < rest[j].seqNo {
        assert rest[j] in chunks[1..];
      }
    }
  }

  /** The persistent effects of accepting `unseen`, whatever the gap bookkeeping does. */
  lemma {:induction false} AcceptAllEffect(s: ServerState, m: Message, unseen: seq<WireChunk>)
    ensures var t := AcceptAll(s, m, unseen);
            && t.seen == s.seen + Keys(m, unseen)
            && t.stored == s.stored + Records(m, unseen)
    decreases |unseen|
  {
    if unseen != [] {
      var n := |unseen| - 1;
      AcceptAllEffect(s, m, unseen[..n]);
      assert unseen == unseen[..n] + [unseen[n]];
      assert Records(m, unseen) == Records(m, unseen[..n]) + [StoredChunk(Key(m, unseen[n]), unseen[n].readings)];
    }
  }

  function Records(m: Message, chunks: seq<WireChunk>): (out: seq<StoredChunk>)
    ensures |out| == |chunks|
  {
    seq(|chunks|, i requires 0 <= i < |chunks| => StoredChunk(Key(m, chunks[i]), chunks[i].readings))
  }

  /** All or nothing: a message is stored whole and only then acknowledged without error;
      otherwise nothing persistent changes. */
  lemma HandleEffect(s: ServerState, settings: Settings, m: Message, writeError: string)
    ensures var (t, ack) := HandleMessage(s, settings, m, writeError);
            && (Stores(s, settings, m, writeError) ==>
                  && t.seen == s.seen + Keys(m, m.chunks)
                  && t.stored == s.stored + Records(m, Fresh(s.seen, m, m.chunks)))
            && (!Stores(s, settings, m, writeError) ==>
                  t.seen == s.seen && t.stored == s.stored && t.lastSeq == s.lastSeq
                  && t.gaps == s.gaps && t.received == s.received)
            && (ack.Some? ==> ack.value.streamId == m.streamId && ack.value.toSeq == m.toSeq)
            && (ack.Some? && ack.value.error == "" ==> Stores(s, settings, m, writeError))
  {
    hide AcceptAll;
    hide Fresh;
    hide CountSeen;
    hide Keys;
    hide Records;
    var s1 := NoteMessage(s, m.gatewayId);
    var unseen := Fresh(s.seen, m, m.chunks);
    AcceptAllEffect(CountDuplicates(s1, m), m, unseen);
    FreshCoversKeys(s.seen, m);
  }

  lemma FreshCoversKeys(seen: set<ChunkKey>, m: Message)
    ensures seen + Keys(m, Fresh(seen, m, m.chunks)) == seen + Keys(m, m.chunks)
  {
    FreshIsUnseen(seen, m, m.chunks);
  }
}
