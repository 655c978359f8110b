/** What a gap in the server's sequence means for the gateway that caused it. */
module DeliveryGaps {
  import opened Ints
  import opened ChunkCodec
  import opened Wire
  import opened IngestServer
  import opened GapLedger
  import opened Delivery
  import opened DeliveryInvariant
  import opened DeliveryProof

  /** Every chunk up to a stream's last seq that the server process has not accepted was
      evicted or discarded on the gateway, or written by an earlier process, in whatever
      order messages arrived. */
  lemma MissingWasGivenUp(c: Config, run: Run, t: nat, k: ChunkKey)
    requires IsRun(c, run) && t < |run.states|
    requires var log := run.states[t].server.stored;
             Last(log, StreamOf(k)).Some? && 1 <= k.seqNo <= Last(log, StreamOf(k)).value && k !in KeysOf(log)
    ensures var s := run.states[t];
            k in s.hist.evicted || k in s.hist.discarded || k in Archived(s.archive)
  {
    InvariantHolds(c, run, t);
    MissingExplained(c, run.states[t], k);
  }

  /** The delivered message that brought a stream's last seq. */
  lemma TopDelivered(c: Config, s: State, sk: StreamKey) returns (i: nat)
    requires Inv(c, s) && Last(s.server.stored, sk).Some?
    ensures i in s.hist.current && i < |s.msgs| && MsgOk(c, s.msgs[i], s.hist.committed, s.hist.streams)
    ensures s.msgs[i].gatewayId == sk.gateway && s.msgs[i].streamId == sk.stream
    ensures Last(s.server.stored, sk).value <= s.msgs[i].toSeq
    ensures Keys(s.msgs[i], s.msgs[i].chunks) <= s.server.seen
    ensures ChunkKey(sk.gateway, sk.stream, Last(s.server.stored, sk).value) in s.hist.committed
  {
    hide Storage;
    hide SendOk;
    hide EvictOk;
    hide PrefixOk;
    hide CoverOk;
    hide GapsOk;
    hide AcksOk;
    hide Last;
    var log := s.server.stored;
    FirstWithLast(log, sk);
    LastAccepted(log, sk);
    var top := ChunkKey(sk.gateway, sk.stream, Last(log, sk).value);
    assert top in s.server.seen;
    assert DeliveredOk(s.msgs, s.hist.current, s.server.seen);
    i :| i in s.hist.current && i < |s.msgs| && top in Keys(s.msgs[i], s.msgs[i].chunks);
    var m := s.msgs[i];
    assert MsgOk(c, m, s.hist.committed, s.hist.streams);
    var x :| 0 <= x < |m.chunks| && Key(m, m.chunks[x]) == top;
    assert m.chunks[x] in m.chunks;
  }

  lemma MissingExplained(c: Config, s: State, k: ChunkKey)
    requires Inv(c, s)
    requires var log := s.server.stored;
             Last(log, StreamOf(k)).Some? && 1 <= k.seqNo <= Last(log, StreamOf(k)).value && k !in KeysOf(log)
    ensures k in Gone(s.hist) || k in Archived(s.archive)
  {
    hide SendOk;
    hide EvictOk;
    hide PrefixOk;
    hide CoverOk;
    hide AcksOk;
    hide DeliveredOk;
    hide RowsOk;
    hide AccountedOk;
    hide Last;
    hide MsgOk;
    hide Archived;
    hide ArchiveOk;
    var log, sk := s.server.stored, StreamOf(k);
    var i := TopDelivered(c, s, sk);
    var m := s.msgs[i];
    assert s.server.seen == KeysOf(log);
    assert ExplainsGaps(m, Held(s), s.hist.committed, Gone(s.hist));
    assert k == ChunkKey(sk.gateway, sk.stream, k.seqNo);
    assert k in s.hist.committed;
    forall ch | ch in m.chunks ensures ch.seqNo != k.seqNo {
      assert Key(m, ch) in Keys(m, m.chunks);
    }
  }

  // ---------------------------------------------------------------------------
  // First deliveries in send order

  /** A message the server process stores for the first time, it stores while it has stored
      no later one of its stream. Repeats of a stored message may come at any time. */
  ghost predicate InOrderStep(s: State, e: Event) {
    e.OnServerHandles? && e.i < |s.msgs| && e.i !in s.hist.current
    && Stores(s.server, e.settings, s.msgs[e.i], e.writeError) ==>
      forall j <- s.hist.current :: j < |s.msgs| && s.msgs[j].streamId == s.msgs[e.i].streamId ==> j <= e.i
  }

  ghost predicate InOrder(run: Run)
    requires |run.states| == |run.events| + 1
  {
    forall i :: 0 <= i < |run.events| ==> InOrderStep(run.states[i], run.events[i])
  }

  /** Each entry lies above every earlier one of its stream. */
  ghost predicate Rising(log: seq<StoredChunk>) {
    forall i :: 0 <= i < |log| ==> RisesAt(log, i)
  }

  ghost predicate RisesAt(log: seq<StoredChunk>, i: nat)
    requires i < |log|
  {
    log[i].key.seqNo > Floor(Last(log[..i], StreamOf(log[i].key)))
  }

  /** Then nothing is late, and the first to arrive is the lowest. */
  lemma {:induction false} RisingFacts(log: seq<StoredChunk>, sk: StreamKey)
    requires Rising(log)
    ensures forall i :: 0 <= i < |log| ==> !Late(log, i)
    ensures Low(log, sk) == First(log, sk)
  {
    forall i | 0 <= i < |log| ensures !Late(log, i) {
      assert RisesAt(log, i);
    }
    hide Late;
    if log != [] {
      var n := |log| - 1;
      var prefix := log[..n];
      forall i | 0 <= i < n ensures RisesAt(prefix, i) {
        assert RisesAt(log, i) && prefix[..i] == log[..i];
      }
      RisingFacts(prefix, sk);
      assert RisesAt(log, n);
      FirstWithLast(prefix, sk);
    }
  }

  /** In order, every fresh chunk lies above its stream's last seq. */
  lemma FreshAboveLast(c: Config, s: State, i: nat, ch: WireChunk)
    requires Inv(c, s) && i < |s.msgs|
    requires forall j <- s.hist.current :: j < |s.msgs| && s.msgs[j].streamId == s.msgs[i].streamId ==> j <= i
    requires ch in s.msgs[i].chunks && Key(s.msgs[i], ch) !in s.server.seen
    ensures var m := s.msgs[i];
            ch.seqNo > Floor(Last(s.server.stored, StreamKey(m.gatewayId, m.streamId)))
  {
    hide SendOk;
    hide EvictOk;
    hide PrefixOk;
    hide GapsOk;
    hide AcksOk;
    hide DeliveredOk;
    hide RowsOk;
    hide AccountedOk;
    hide Last;
    var m, log := s.msgs[i], s.server.stored;
    var sk := StreamKey(m.gatewayId, m.streamId);
    assert MsgOk(c, m, s.hist.committed, s.hist.streams);
    if Last(log, sk).Some? {
      var j := TopDelivered(c, s, sk);
      var m0 := s.msgs[j];
      assert j < i ==> Covers(m0, m);
      assert ch.seqNo in Seqs(m.chunks);
      forall ch0 | ch0 in m0.chunks ensures ch0.seqNo != ch.seqNo {
        assert Key(m0, ch0) in Keys(m0, m0.chunks);
      }
    }
  }

  lemma HigherRises(log: seq<StoredChunk>, e: StoredChunk)
    requires Rising(log) && e.key.seqNo > Floor(Last(log, StreamOf(e.key)))
    ensures Rising(log + [e]) && Last(log + [e], StreamOf(e.key)) == Some(e.key.seqNo)
  {
    var all := log + [e];
    assert all[..|log|] == log;
    hide Last;
    forall i | 0 <= i < |all| ensures RisesAt(all, i) {
      if i < |log| {
        assert all[..i] == log[..i];
        assert RisesAt(log, i);
      }
    }
  }

  /** Entries added in ascending order above the last seq keep the log rising. */
  lemma {:induction false} AscendingRises(log: seq<StoredChunk>, m: Message, unseen: seq<WireChunk>)
    requires Rising(log) && AscendingChunks(unseen)
    requires forall ch <- unseen :: ch.seqNo > Floor(Last(log, StreamKey(m.gatewayId, m.streamId)))
    ensures Rising(log + Records(m, unseen))
    ensures unseen != [] ==>
              Last(log + Records(m, unseen), StreamKey(m.gatewayId, m.streamId)) == Some(unseen[|unseen| - 1].seqNo)
    decreases |unseen|
  {
    hide Rising;
    hide Last;
    if unseen == [] {
      assert log + Records(m, unseen) == log;
    } else {
      var n := |unseen| - 1;
      var init, e := unseen[..n], StoredChunk(Key(m, unseen[n]), unseen[n].readings);
      AscendingRises(log, m, init);
      var before := log + Records(m, init);
      assert log + Records(m, unseen) == before + [e];
      assert init == [] ==> before == log;
      assert unseen[n] in unseen;
      HigherRises(before, e);
    }
  }

  lemma RisingStep(c: Config, s: State, s': State, e: Event)
    requires Inv(c, s) && Next(c, s, s', e) && InOrderStep(s, e) && Rising(s.server.stored)
    ensures Rising(s'.server.stored)
  {
    hide Inv;
    hide Next;
    StepIs(c, s, s', e);
    hide ServerHandles;
    if e.OnServerHandles? {
      hide Rising;
      ServerRises(c, s, s', e);
    } else {
      ServerFrame(c, s, s', e);
    }
  }

  lemma ServerRises(c: Config, s: State, s': State, e: Event)
    requires e.OnServerHandles?
    requires Inv(c, s) && ServerHandles(c, s, s', e.i, e.settings, e.writeError)
    requires InOrderStep(s, e) && Rising(s.server.stored)
    ensures Rising(s'.server.stored)
  {
    hide Rising;
    hide HandleMessage;
    hide Records;
    hide Fresh;
    hide Inv;
    var m := s.msgs[e.i];
    HandleEffect(s.server, e.settings, m, e.writeError);
    if Stores(s.server, e.settings, m, e.writeError) {
      if e.i in s.hist.current {
        RepeatIsSeen(c, s, e.i);
        NothingRecorded(s.server.seen, m);
        assert s.server.stored + [] == s.server.stored;
      } else {
        FirstStoreRises(c, s, e.i);
      }
    }
  }

  lemma FirstStoreRises(c: Config, s: State, i: nat)
    requires Inv(c, s) && i < |s.msgs| && Rising(s.server.stored)
    requires forall j <- s.hist.current :: j < |s.msgs| && s.msgs[j].streamId == s.msgs[i].streamId ==> j <= i
    ensures Rising(s.server.stored + Records(s.msgs[i], Fresh(s.server.seen, s.msgs[i], s.msgs[i].chunks)))
  {
    hide Rising;
    hide Records;
    hide Storage;
    hide SendOk;
    hide EvictOk;
    var m := s.msgs[i];
    assert MsgOk(c, m, s.hist.committed, s.hist.streams);
    hide Inv;
    FreshIsUnseen(s.server.seen, m, m.chunks);
    FreshAscends(s.server.seen, m, m.chunks);
    hide Fresh;
    forall ch | ch in Fresh(s.server.seen, m, m.chunks)
      ensures ch.seqNo > Floor(Last(s.server.stored, StreamKey(m.gatewayId, m.streamId)))
    {
      FreshAboveLast(c, s, i, ch);
    }
    AscendingRises(s.server.stored, m, Fresh(s.server.seen, m, m.chunks));
  }

  lemma NothingRecorded(seen: set<ChunkKey>, m: Message)
    requires forall ch <- m.chunks :: Key(m, ch) in seen
    ensures Records(m, Fresh(seen, m, m.chunks)) == []
  {
    NothingFresh(seen, m, m.chunks);
  }

  lemma {:induction false} NothingFresh(seen: set<ChunkKey>, m: Message, chunks: seq<WireChunk>)
    requires forall ch <- chunks :: Key(m, ch) in seen
    ensures Fresh(seen, m, chunks) == []
  {
    if chunks != [] {
      NothingFresh(seen, m, chunks[1..]);
    }
  }

  lemma RepeatIsSeen(c: Config, s: State, i: nat)
    requires Inv(c, s) && i in s.hist.current
    ensures i < |s.msgs| && forall ch <- s.msgs[i].chunks :: Key(s.msgs[i], ch) in s.server.seen
  {
    hide Storage;
    hide SendOk;
    hide EvictOk;
    assert DeliveredOk(s.msgs, s.hist.current, s.server.seen);
    forall ch | ch in s.msgs[i].chunks ensures Key(s.msgs[i], ch) in s.server.seen {
      assert Key(s.msgs[i], ch) in Keys(s.msgs[i], s.msgs[i].chunks);
    }
  }

  lemma {:induction false} InOrderRises(c: Config, run: Run, t: nat)
    requires IsRun(c, run) && InOrder(run) && t < |run.states|
    ensures Rising(run.states[t].server.stored)
  {
    hide Inv;
    hide Next;
    hide InOrderStep;
    if t > 0 {
      InOrderRises(c, run, t - 1);
      InvariantHolds(c, run, t - 1);
      hide Rising;
      RisingStep(c, run.states[t - 1], run.states[t], run.events[t - 1]);
    }
  }

  /** When first deliveries follow send order, repeats at any time, the gateway's
      missing-chunks counter counts exactly the missing chunks, and each of them was evicted
      or discarded, or written before the server last started. */
  lemma GapAccountingExact(c: Config, run: Run, t: nat)
    requires IsRun(c, run) && InOrder(run) && t < |run.states|
    ensures var s := run.states[t];
            var missing := MissingOf(s.server.stored, c.gateway);
            && StatsOf(s.server, c.gateway).missingChunks == |missing|
            && SkippedOf(s.server.stored, c.gateway) == missing
            && (forall k :: k in missing <==> k.gateway == c.gateway && Missing(s.server.stored, k))
            && missing <= s.hist.evicted + s.hist.discarded + Archived(s.archive)
  {
    InOrderRises(c, run, t);
    InvariantHolds(c, run, t);
    hide IsRun;
    hide InOrder;
    CountsExactly(c, run.states[t]);
    MissingAllGivenUp(c, run.states[t]);
    hide Inv;
    hide SkippedOf;
    hide MissingOf;
    hide Missing;
    hide Archived;
  }

  lemma CountsExactly(c: Config, s: State)
    requires Inv(c, s) && Rising(s.server.stored)
    ensures SkippedOf(s.server.stored, c.gateway) == MissingOf(s.server.stored, c.gateway)
    ensures StatsOf(s.server, c.gateway).missingChunks == |MissingOf(s.server.stored, c.gateway)|
  {
    hide Storage;
    hide SendOk;
    hide EvictOk;
    hide Late;
    hide SkippedOf;
    hide MissingOf;
    hide ArchiveOk;
    var log := s.server.stored;
    RisingFacts(log, StreamKey("", ""));
    forall k: ChunkKey ensures !EarlyHole(log, k) {
      RisingFacts(log, StreamOf(k));
    }
    hide EarlyHole;
    hide Rising;
    CountsMissingIff(log, c.gateway);
  }

  lemma MissingAllGivenUp(c: Config, s: State)
    requires Inv(c, s)
    ensures var missing := MissingOf(s.server.stored, c.gateway);
            && (forall k :: k in missing <==> k.gateway == c.gateway && Missing(s.server.stored, k))
            && missing <= s.hist.evicted + s.hist.discarded + Archived(s.archive)
  {
    hide Inv;
    hide Archived;
    var log := s.server.stored;
    forall k: ChunkKey
      ensures k in MissingOf(log, c.gateway) <==> k.gateway == c.gateway && Missing(log, k)
      ensures k in MissingOf(log, c.gateway) ==> k in s.hist.evicted + s.hist.discarded + Archived(s.archive)
    {
      MissingCharacterized(log, k);
      if Missing(log, k) {
        LowFacts(log, StreamOf(k));
        MissingExplained(c, s, k);
      }
    }
  }
}
