/** What one message does to the server's statistics, and what is answered, case by case. */
module ServerFacts {
  import opened Ints
  import opened Wire
  import opened IngestServer

  /** A recorded gap is exactly the seqs strictly between the stream's last one and the new one;
      none is recorded when there are none. */
  lemma GapIsBetween(s: ServerState, sk: StreamKey, q: int, x: int)
    ensures var g := GapBefore(s, sk, q);
            && (g.Some? && g.value.fromSeq <= x <= g.value.toSeq <==> sk in s.lastSeq && s.lastSeq[sk] < x < q)
            && (g.Some? ==> g.value.gateway == sk.gateway && g.value.stream == sk.stream && g.value.fromSeq <= g.value.toSeq)
  {
  }

  /** One fresh chunk: the gap before it comes first in the list, which keeps the latest hundred,
      and is counted; the last seq only rises; the chunk's readings are appended under its key;
      other gateways and streams are left alone. */
  lemma AcceptMeans(s: ServerState, m: Message, c: WireChunk)
    ensures var t := Accept(s, m, c);
            var sk := StreamKey(m.gatewayId, m.streamId);
            var g, g' := StatsOf(s, m.gatewayId), StatsOf(t, m.gatewayId);
            var gap := GapBefore(s, sk, c.seqNo);
            && t.seen == s.seen + {ChunkKey(m.gatewayId, m.streamId, c.seqNo)}
            && t.stored == s.stored + [StoredChunk(ChunkKey(m.gatewayId, m.streamId, c.seqNo), c.readings)]
            && (gap.None? ==> t.gaps == s.gaps && g'.gaps == g.gaps && g'.missingChunks == g.missingChunks)
            && (gap.Some? ==>
                  && t.gaps != [] && t.gaps[0] == gap.value && t.gaps <= [gap.value] + s.gaps
                  && |t.gaps| == (if |s.gaps| >= 100 then 100 else |s.gaps| + 1)
                  && g'.gaps == g.gaps + 1
                  && g'.missingChunks == g.missingChunks + (c.seqNo - s.lastSeq[sk] - 1))
            && (forall other: StreamKey :: other != sk ==>
                  (other in t.lastSeq <==> other in s.lastSeq) && (other in s.lastSeq ==> t.lastSeq[other] == s.lastSeq[other]))
            && (forall other: string :: other != m.gatewayId ==> StatsOf(t, other) == StatsOf(s, other))
  {
  }

  lemma LastSeqRises(s: ServerState, m: Message, c: WireChunk)
    ensures var t := Accept(s, m, c);
            var sk := StreamKey(m.gatewayId, m.streamId);
            var before := if sk in s.lastSeq then s.lastSeq[sk] else 0;
            && (c.seqNo > before ==>
                  && sk in t.lastSeq && t.lastSeq[sk] == c.seqNo
                  && m.streamId in StatsOf(t, m.gatewayId).streams && StatsOf(t, m.gatewayId).streams[m.streamId] == c.seqNo)
            && (c.seqNo <= before ==>
                  t.lastSeq == s.lastSeq && StatsOf(t, m.gatewayId).streams == StatsOf(s, m.gatewayId).streams)
  {
  }

  /** The readings are listed in order, each under its chunk. */
  lemma ReceivedGrows(s: ServerState, m: Message, c: WireChunk)
    ensures var t := Accept(s, m, c);
            && |t.received| == |s.received| + |c.readings| && s.received <= t.received
            && forall i :: 0 <= i < |c.readings| ==>
                 t.received[|s.received| + i] ==
                 StoredReading(ChunkKey(m.gatewayId, m.streamId, c.seqNo), c.readings[i])
  {
  }

  /** At the end of a message the newest ten thousand readings are kept. */
  lemma ReceivedTrimmed(s: ServerState, gateway: string, accepted: nat)
    ensures var t := Finished(s, gateway, accepted);
            && |t.received| == (if |s.received| > 10000 then 10000 else |s.received|)
            && t.received == s.received[|s.received| - |t.received|..]
            && StatsOf(t, gateway).readings == StatsOf(s, gateway).readings + accepted
            && StatsOf(t, gateway).lastError == ""
  {
  }

  /** Accepting chunks leaves the other counters of the gateway alone. */
  lemma {:induction false} AcceptAllStats(s: ServerState, m: Message, unseen: seq<WireChunk>)
    ensures var g, g' := StatsOf(s, m.gatewayId), StatsOf(AcceptAll(s, m, unseen), m.gatewayId);
            && g'.messages == g.messages && g'.readings == g.readings && g'.duplicateChunks == g.duplicateChunks
            && g'.rejected == g.rejected && g'.lastError == g.lastError
    decreases |unseen|
  {
    if unseen != [] {
      AcceptAllStats(s, m, unseen[..|unseen| - 1]);
    }
  }

  ghost predicate Registered(settings: Settings, gateway: string) {
    !settings.rejectUnknown || gateway in settings.registered
  }

  /** A gateway that is not ignored, is registered, and meets no error on purpose. */
  ghost predicate LetIn(settings: Settings, gateway: string) {
    settings.fault != Ignore && settings.fault != ErrorAck && Registered(settings, gateway)
  }

  /** What is answered: nothing for an ignored message or a dropped ack, an error for an unknown
      gateway, on purpose, or for new chunks that could not be written, and otherwise an ack
      without error. */
  lemma AnswerMeans(s: ServerState, settings: Settings, m: Message, writeError: string)
    ensures var ack := HandleMessage(s, settings, m, writeError).1;
            var allSeen := forall c <- m.chunks :: ChunkKey(m.gatewayId, m.streamId, c.seqNo) in s.seen;
            var written := allSeen || writeError == "";
            && (ack.None? <==> settings.fault == Ignore || (LetIn(settings, m.gatewayId) && written && settings.fault == DropAck))
            && (ack.Some? ==> ack.value.streamId == m.streamId && ack.value.toSeq == m.toSeq)
            && (ack.Some? && ack.value.error == "" <==> LetIn(settings, m.gatewayId) && settings.fault == NoFault && written)
            && (LetIn(settings, m.gatewayId) && !written ==> ack.Some? && ack.value.error == writeError)
            && (Stores(s, settings, m, writeError) <==> LetIn(settings, m.gatewayId) && written)
  {
    hide AcceptAll;
    hide CountSeen;
    hide CountReadings;
    FreshIsUnseen(s.seen, m, m.chunks);
    hide Fresh;
    var unseen := Fresh(s.seen, m, m.chunks);
    assert unseen == [] || unseen[0] in unseen;
  }

  /** What an ingested message counts: chunks seen before; and the readings of the others when they
      are stored, which clears the last error, or a refusal with its reason. */
  lemma IngestCounts(s: ServerState, m: Message, writeError: string)
    ensures var g, g' := StatsOf(s, m.gatewayId), StatsOf(Ingest(s, m, writeError).0, m.gatewayId);
            var unseen := Fresh(s.seen, m, m.chunks);
            && g'.messages == g.messages
            && g'.duplicateChunks == g.duplicateChunks + (|m.chunks| - |unseen|)
            && (unseen == [] || writeError == "" ==>
                  g'.readings == g.readings + CountReadings(unseen) && g'.rejected == g.rejected && g'.lastError == "")
            && (unseen != [] && writeError != "" ==>
                  g'.readings == g.readings && g'.rejected == g.rejected + 1 && g'.lastError == writeError)
  {
    hide AcceptAll;
    hide CountReadings;
    FreshIsUnseen(s.seen, m, m.chunks);
    hide Fresh;
    hide CountSeen;
    AcceptAllStats(CountDuplicates(s, m), m, Fresh(s.seen, m, m.chunks));
  }

  /** Every message is counted; one that is let in counts as above, any other as a refusal. */
  lemma CountsMean(s: ServerState, settings: Settings, m: Message, writeError: string)
    ensures var g, g' := StatsOf(s, m.gatewayId), StatsOf(HandleMessage(s, settings, m, writeError).0, m.gatewayId);
            var unseen := Fresh(s.seen, m, m.chunks);
            var stored := LetIn(settings, m.gatewayId) && (unseen == [] || writeError == "");
            && g'.messages == g.messages + 1
            && g'.duplicateChunks == g.duplicateChunks + (if LetIn(settings, m.gatewayId) then |m.chunks| - |unseen| else 0)
            && g'.readings == g.readings + (if stored then CountReadings(unseen) else 0)
            && g'.rejected == g.rejected + (if stored then 0 else 1)
            && (g'.lastError == "" <==> stored)
  {
    hide Ingest;
    hide CountReadings;
    hide Fresh;
    var s1 := NoteMessage(s, m.gatewayId);
    if LetIn(settings, m.gatewayId) {
      IngestCounts(s1, m, writeError);
      NotedAlike(s, settings, m, writeError);
    }
  }

  /** When a message is let in it is ingested. */
  lemma NotedAlike(s: ServerState, settings: Settings, m: Message, writeError: string)
    requires LetIn(settings, m.gatewayId)
    ensures HandleMessage(s, settings, m, writeError).0 == Ingest(NoteMessage(s, m.gatewayId), m, writeError).0
  {
    hide Ingest;
  }
}
