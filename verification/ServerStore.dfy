/** The server's store and message handler as objects, proved against IngestServer. */
module ServerStore {
  import opened Ints
  import opened Wire
  import opened IngestServer
  import opened GapLedger

  class Server {
    var seen: set<ChunkKey>
    var lastSeq: map<StreamKey, int>
    var gateways: map<string, GatewayStats>
    var gaps: seq<Gap>
    var received: seq<StoredReading>
    var stored: seq<StoredChunk>

    ghost function View(): ServerState
      reads this
    {
      ServerState(seen, lastSeq, gateways, gaps, received, stored)
    }

    constructor ()
      ensures View() == EMPTY_SERVER && Balanced(View())
    {
      seen, lastSeq, gateways, gaps, received, stored := {}, map[], map[], [], [], [];
      new;
      assert forall g :: SkippedOf([], g) == {};
    }

    /** gw: the gateway's statistics, started on first use. */
    method Stats(gateway: string) returns (g: GatewayStats)
      ensures g == StatsOf(View(), gateway)
    {
      g := if gateway in gateways then gateways[gateway] else NO_STATS;
    }

    method NoteRejected(gateway: string, reason: string)
      modifies this`gateways
      ensures View() == Rejected(old(View()), gateway, reason)
    {
      var g := Stats(gateway);
      gateways := gateways[gateway := g.(rejected := g.rejected + 1, lastError := reason)];
    }

    /** ingest's first loop: which chunks are new, and how many are not. */
    method Sift(m: Message) returns (unseen: seq<WireChunk>, duplicates: nat)
      ensures unseen == Fresh(seen, m, m.chunks) && duplicates == CountSeen(seen, m, m.chunks)
    {
      unseen, duplicates := [], 0;
      for i := 0 to |m.chunks|
        invariant unseen + Fresh(seen, m, m.chunks[i..]) == Fresh(seen, m, m.chunks)
        invariant duplicates + CountSeen(seen, m, m.chunks[i..]) == CountSeen(seen, m, m.chunks)
      {
        var c := m.chunks[i];
        assert m.chunks[i..][0] == c && m.chunks[i..][1..] == m.chunks[i + 1..];
        if ChunkKey(m.gatewayId, m.streamId, c.seqNo) in seen {
          duplicates := duplicates + 1;
        } else {
          unseen := unseen + [c];
        }
      }
      assert unseen + [] == unseen;
    }

    /** ingest's second loop for one chunk. */
    method Record(m: Message, c: WireChunk)
      modifies this
      ensures View() == Accept(old(View()), m, c)
    {
      hide Tagged;
      var k := ChunkKey(m.gatewayId, m.streamId, c.seqNo);
      var sk := StreamKey(m.gatewayId, m.streamId);
      var g := Stats(m.gatewayId);
      seen := seen + {k};
      var last := if sk in lastSeq then lastSeq[sk] else 0;
      if sk in lastSeq && c.seqNo > last + 1 {
        var gap := Gap(m.gatewayId, m.streamId, last + 1, c.seqNo - 1);
        g := g.(gaps := g.gaps + 1, missingChunks := g.missingChunks + (gap.toSeq - gap.fromSeq + 1));
        gaps := [gap] + gaps;
        if |gaps| > MAX_GAPS {
          gaps := gaps[..MAX_GAPS];
        }
      }
      if c.seqNo > last {
        lastSeq := lastSeq[sk := c.seqNo];
        g := g.(streams := g.streams[m.streamId := c.seqNo]);
      }
      gateways := gateways[m.gatewayId := g];
      received := Keep(received, k, c.readings);
      stored := stored + [StoredChunk(k, c.readings)];
    }

    /** The innermost loop over a chunk's readings. */
    static method Keep(before: seq<StoredReading>, k: ChunkKey, rs: seq<WireReading>) returns (out: seq<StoredReading>)
      ensures out == before + Tagged(k, rs)
    {
      out := before;
      for i := 0 to |rs|
        invariant out == before + Tagged(k, rs)[..i]
      {
        out := out + [StoredReading(k, rs[i])];
      }
      assert Tagged(k, rs)[..|rs|] == Tagged(k, rs);
    }

    /** ingest's second loop. */
    method AcceptUnseen(m: Message, unseen: seq<WireChunk>) returns (accepted: nat)
      modifies this
      ensures View() == AcceptAll(old(View()), m, unseen) && accepted == CountReadings(unseen)
    {
      accepted := 0;
      for i := 0 to |unseen|
        invariant View() == AcceptAll(old(View()), m, unseen[..i])
        invariant accepted + CountReadings(unseen[i..]) == CountReadings(unseen)
      {
        assert unseen[..i + 1][..i] == unseen[..i];
        assert unseen[i..][0] == unseen[i] && unseen[i..][1..] == unseen[i + 1..];
        Record(m, unseen[i]);
        accepted := accepted + |unseen[i].readings|;
      }
      assert unseen[..|unseen|] == unseen;
    }

    /** The end of ingest: counts, clears the error, keeps the most recent readings. */
    method Finish(gateway: string, accepted: nat)
      modifies this`gateways, this`received
      ensures View() == Finished(old(View()), gateway, accepted)
    {
      var g := Stats(gateway);
      gateways := gateways[gateway := g.(readings := g.readings + accepted, lastError := "")];
      var n := |received|;
      if n > MAX_RECEIVED {
        received := received[n - MAX_RECEIVED..];
      }
    }

    /** ingest. `writeError` is the chunk writer's answer, empty on success. */
    method IngestMessage(m: Message, writeError: string) returns (r: IngestResult)
      modifies this
      ensures (View(), r) == Ingest(old(View()), m, writeError)
    {
      hide AcceptAll;
      hide Fresh;
      hide CountSeen;
      hide CountReadings;
      var unseen, duplicates := Sift(m);
      var g := Stats(m.gatewayId);
      gateways := gateways[m.gatewayId := g.(duplicateChunks := g.duplicateChunks + duplicates)];
      if |unseen| > 0 && writeError != "" {
        NoteRejected(m.gatewayId, writeError);
        return NotStored(duplicates, writeError);
      }
      var accepted := AcceptUnseen(m, unseen);
      Finish(m.gatewayId, accepted);
      return Ingested(accepted, duplicates);
    }

    /** handleMQTT with process: registry and simulated fault first, then store, then ack. */
    method Handle(settings: Settings, m: Message, writeError: string) returns (ack: Option<Ack>)
      modifies this
      ensures (View(), ack) == HandleMessage(old(View()), settings, m, writeError)
      ensures old(Balanced(View())) ==> Balanced(View())
      ensures ack.Some? && ack.value.error == "" ==> forall c <- m.chunks :: Key(m, c) in seen
    {
      hide Balanced;
      hide Ingest;
      ghost var before := View();
      HandleBalancedIf(before, settings, m, writeError);
      HandleEffect(before, settings, m, writeError);
      var g := Stats(m.gatewayId);
      gateways := gateways[m.gatewayId := g.(messages := g.messages + 1)];
      if settings.fault == Ignore {
        NoteRejected(m.gatewayId, "simulated: message ignored");
        return None;
      }
      if settings.rejectUnknown && m.gatewayId !in settings.registered {
        NoteRejected(m.gatewayId, "gateway not registered");
        return Some(Ack(m.streamId, m.toSeq, UnregisteredError(m.gatewayId)));
      }
      if settings.fault == ErrorAck {
        NoteRejected(m.gatewayId, "simulated: error ack");
        return Some(Ack(m.streamId, m.toSeq, "simulated server error"));
      }
      var r := IngestMessage(m, writeError);
      if r.NotStored? {
        return Some(Ack(m.streamId, m.toSeq, r.error));
      }
      if settings.fault == DropAck {
        return None;
      }
      return Some(Ack(m.streamId, m.toSeq, ""));
    }
  }

  lemma HandleBalancedIf(s: ServerState, settings: Settings, m: Message, writeError: string)
    ensures Balanced(s) ==> Balanced(HandleMessage(s, settings, m, writeError).0)
  {
    hide Balanced;
    hide HandleMessage;
    if Balanced(s) {
      HandleBalanced(s, settings, m, writeError);
    }
  }
}
