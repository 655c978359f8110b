/** What the server's gap counters mean, as a function of the chunks it stored. */
module GapLedger {
  import opened Ints
  import opened Wire
  import opened IngestServer

  function StreamOf(k: ChunkKey): StreamKey {
    StreamKey(k.gateway, k.stream)
  }

  /** The last seq a log leaves behind for a stream. */
  function Last(log: seq<StoredChunk>, sk: StreamKey): Option<int> {
    if log == [] then None
    else
      var prev := Last(log[..|log| - 1], sk);
      var k := log[|log| - 1].key;
      if StreamOf(k) == sk && k.seqNo > Floor(prev) then Some(k.seqNo) else prev
  }

  function Floor(last: Option<int>): int {
    if last.Some? then last.value else 0
  }

  /** The first seq to arrive. */
  function First(log: seq<StoredChunk>, sk: StreamKey): Option<int> {
    if log == [] then None
    else
      var prev := First(log[..|log| - 1], sk);
      var k := log[|log| - 1].key;
      if prev.None? && StreamOf(k) == sk && k.seqNo > 0 then Some(k.seqNo) else prev
  }

  /** The lowest seq accepted. */
  function Low(log: seq<StoredChunk>, sk: StreamKey): Option<int> {
    if log == [] then None
    else
      var prev := Low(log[..|log| - 1], sk);
      var k := log[|log| - 1].key;
      if StreamOf(k) == sk && k.seqNo > 0 && (prev.None? || k.seqNo < prev.value) then Some(k.seqNo) else prev
  }

  ghost function KeysOf(log: seq<StoredChunk>): set<ChunkKey> {
    set e <- log :: e.key
  }

  ghost predicate DistinctKeys(log: seq<StoredChunk>) {
    forall i, j :: 0 <= i < j < |log| ==> log[i].key != log[j].key
  }

  ghost function Between(sk: StreamKey, lo: int, hi: int): (ks: set<ChunkKey>)
    ensures forall k :: k in ks <==> StreamOf(k) == sk && lo < k.seqNo < hi
  {
    var ks := set q: int | lo < q < hi :: ChunkKey(sk.gateway, sk.stream, q);
    assert forall k: ChunkKey :: StreamOf(k) == sk ==> k == ChunkKey(sk.gateway, sk.stream, k.seqNo);
    ks
  }

  /** Every key jumped over when a stream's last seq was raised. */
  ghost function Skipped(log: seq<StoredChunk>): set<ChunkKey> {
    if log == [] then {}
    else
      var prefix, k := log[..|log| - 1], log[|log| - 1].key;
      Skipped(prefix) + NewlySkipped(Last(prefix, StreamOf(k)), k)
  }

  ghost function NewlySkipped(last: Option<int>, k: ChunkKey): set<ChunkKey> {
    if last.Some? then Between(StreamOf(k), last.value, k.seqNo) else {}
  }

  ghost function SkippedOf(log: seq<StoredChunk>, gateway: string): set<ChunkKey> {
    set k <- Skipped(log) | k.gateway == gateway
  }

  /** The reference: never accepted, though between the lowest and the highest accepted. */
  ghost predicate Missing(log: seq<StoredChunk>, k: ChunkKey) {
    var low, last := Low(log, StreamOf(k)), Last(log, StreamOf(k));
    low.Some? && last.Some? && low.value <= k.seqNo <= last.value && k !in KeysOf(log)
  }

  /** A hole below the first arrival, which no gap was ever recorded for. */
  ghost predicate EarlyHole(log: seq<StoredChunk>, k: ChunkKey) {
    var low, first := Low(log, StreamOf(k)), First(log, StreamOf(k));
    low.Some? && first.Some? && low.value < k.seqNo < first.value && k !in KeysOf(log)
  }

  /** From the first arrival to the highest. */
  ghost predicate InRange(log: seq<StoredChunk>, k: ChunkKey) {
    var first, last := First(log, StreamOf(k)), Last(log, StreamOf(k));
    first.Some? && last.Some? && first.value <= k.seqNo <= last.value
  }

  ghost predicate StrictlyInRange(log: seq<StoredChunk>, k: ChunkKey) {
    var first, last := First(log, StreamOf(k)), Last(log, StreamOf(k));
    first.Some? && last.Some? && first.value < k.seqNo < last.value
  }

  /** Every key below an accepted one. */
  ghost function Candidates(log: seq<StoredChunk>): set<ChunkKey> {
    set e <- log, k <- Between(StreamOf(e.key), 0, e.key.seqNo) :: k
  }

  ghost function MissingOf(log: seq<StoredChunk>, gateway: string): set<ChunkKey> {
    set k <- Candidates(log) | k.gateway == gateway && Missing(log, k)
  }

  /** Counted as missing, though accepted. */
  ghost function Overcounted(log: seq<StoredChunk>, gateway: string): set<ChunkKey> {
    SkippedOf(log, gateway) * KeysOf(log)
  }

  /** Missing, though not counted. */
  ghost function Uncounted(log: seq<StoredChunk>, gateway: string): set<ChunkKey> {
    MissingOf(log, gateway) - SkippedOf(log, gateway)
  }

  /** The server's counters agree with its log. */
  ghost predicate Balanced(s: ServerState) {
    && s.seen == KeysOf(s.stored)
    && (forall sk :: sk in s.lastSeq <==> Last(s.stored, sk).Some?)
    && (forall sk <- s.lastSeq :: Last(s.stored, sk) == Some(s.lastSeq[sk]))
    && (forall g :: StatsOf(s, g).missingChunks == |SkippedOf(s.stored, g)|)
  }

  /** The entry at i came after a higher seq of its stream, but not before the first. */
  ghost predicate Late(log: seq<StoredChunk>, i: nat)
    requires i < |log|
  {
    StrictlyInRange(log[..i], log[i].key)
  }

  // ---------------------------------------------------------------------------

  lemma {:induction false} FirstWithLast(log: seq<StoredChunk>, sk: StreamKey)
    ensures First(log, sk).Some? <==> Last(log, sk).Some?
    ensures First(log, sk).Some? ==> 0 < First(log, sk).value <= Last(log, sk).value
  {
    if log != [] {
      FirstWithLast(log[..|log| - 1], sk);
    }
  }

  /** Last is the highest positive seq accepted, so it never falls. */
  lemma {:induction false} LastIsHighest(log: seq<StoredChunk>, i: nat)
    requires i < |log| && log[i].key.seqNo > 0
    ensures Last(log, StreamOf(log[i].key)).Some?
    ensures log[i].key.seqNo <= Last(log, StreamOf(log[i].key)).value
  {
    var n := |log| - 1;
    if i < n {
      LastIsHighest(log[..n], i);
    }
  }

  lemma {:induction false} LastAccepted(log: seq<StoredChunk>, sk: StreamKey)
    requires Last(log, sk).Some? && First(log, sk).Some?
    ensures ChunkKey(sk.gateway, sk.stream, Last(log, sk).value) in KeysOf(log)
    ensures ChunkKey(sk.gateway, sk.stream, First(log, sk).value) in KeysOf(log)
  {
    var n := |log| - 1;
    var prefix := log[..n];
    FirstWithLast(log, sk);
    FirstWithLast(prefix, sk);
    assert log[n].key in KeysOf(log);
    if Last(prefix, sk).Some? {
      LastAccepted(prefix, sk);
      assert forall k :: k in KeysOf(prefix) ==> k in KeysOf(log);
    }
  }

  /** Skipped keys lie strictly inside their stream's range, and whatever lies there and was
      not skipped was accepted. */
  lemma {:induction false} SkippedRange(log: seq<StoredChunk>, k: ChunkKey)
    ensures k in Skipped(log) ==> StrictlyInRange(log, k)
    ensures InRange(log, k) && k !in Skipped(log) ==> k in KeysOf(log)
  {
    FirstWithLast(log, StreamOf(k));
    if log != [] {
      var n := |log| - 1;
      var prefix := log[..n];
      SkippedRange(prefix, k);
      FirstWithLast(prefix, StreamOf(k));
      assert log[n].key in KeysOf(log);
      assert forall k' :: k' in KeysOf(prefix) ==> k' in KeysOf(log);
      if StreamOf(k) == StreamOf(log[n].key) && k.seqNo == log[n].key.seqNo {
        assert k == log[n].key;
      }
    }
  }

  lemma {:induction false} LowFacts(log: seq<StoredChunk>, sk: StreamKey)
    ensures Low(log, sk).Some? <==> First(log, sk).Some?
    ensures Low(log, sk).Some? ==>
              && 0 < Low(log, sk).value <= First(log, sk).value
              && ChunkKey(sk.gateway, sk.stream, Low(log, sk).value) in KeysOf(log)
  {
    if log != [] {
      var n := |log| - 1;
      LowFacts(log[..n], sk);
      assert log[n].key in KeysOf(log);
      assert forall k :: k in KeysOf(log[..n]) ==> k in KeysOf(log);
    }
  }

  /** MissingOf collects exactly the missing chunks of a gateway. */
  lemma MissingCharacterized(log: seq<StoredChunk>, k: ChunkKey)
    ensures k in MissingOf(log, k.gateway) <==> Missing(log, k)
  {
    if Missing(log, k) {
      var sk := StreamOf(k);
      LowFacts(log, sk);
      FirstWithLast(log, sk);
      LastAccepted(log, sk);
      hide Last;
      hide Low;
      var e :| e in log && e.key == ChunkKey(sk.gateway, sk.stream, Last(log, sk).value);
      assert k == ChunkKey(sk.gateway, sk.stream, k.seqNo);
      assert k in Between(StreamOf(e.key), 0, e.key.seqNo);
    }
  }

  /** What was skipped and never accepted is missing. */
  lemma SkippedIsMissing(log: seq<StoredChunk>, k: ChunkKey)
    requires k in Skipped(log) && k !in KeysOf(log)
    ensures Missing(log, k)
  {
    SkippedRange(log, k);
    LowFacts(log, StreamOf(k));
    hide Skipped;
  }

  /** What is missing without having been skipped lies below the first arrival. */
  lemma UncountedIff(log: seq<StoredChunk>, k: ChunkKey)
    ensures k in Uncounted(log, k.gateway) <==> EarlyHole(log, k)
  {
    hide MissingOf;
    hide Skipped;
    var sk := StreamOf(k);
    MissingCharacterized(log, k);
    SkippedRange(log, k);
    LowFacts(log, sk);
    FirstWithLast(log, sk);
    hide Low;
    hide First;
    hide Last;
    if Low(log, sk).Some? {
      assert k.seqNo == Low(log, sk).value ==> k == ChunkKey(sk.gateway, sk.stream, Low(log, sk).value);
    }
  }

  // ---------------------------------------------------------------------------
  // Every accepted chunk keeps the counters balanced

  lemma {:induction false} BetweenSize(sk: StreamKey, lo: int, hi: int)
    ensures |Between(sk, lo, hi)| == if hi > lo + 1 then hi - lo - 1 else 0
    decreases hi - lo
  {
    if hi > lo + 1 {
      BetweenSize(sk, lo, hi - 1);
      var top := ChunkKey(sk.gateway, sk.stream, hi - 1);
      assert Between(sk, lo, hi) == Between(sk, lo, hi - 1) + {top};
    } else {
      assert Between(sk, lo, hi) == {};
    }
  }

  lemma SkippedGrows(log: seq<StoredChunk>, e: StoredChunk, gateway: string)
    ensures var last := Last(log, StreamOf(e.key));
            |SkippedOf(log + [e], gateway)| ==
            |SkippedOf(log, gateway)| +
            if gateway == e.key.gateway && last.Some? && e.key.seqNo > last.value + 1
            then e.key.seqNo - last.value - 1 else 0
  {
    var last := Last(log, StreamOf(e.key));
    assert (log + [e])[..|log|] == log;
    var more := NewlySkipped(last, e.key);
    if gateway == e.key.gateway && last.Some? {
      assert SkippedOf(log + [e], gateway) == SkippedOf(log, gateway) + more;
      forall k | k in SkippedOf(log, gateway) ensures k !in more {
        SkippedRange(log, k);
      }
      BetweenSize(StreamOf(e.key), last.value, e.key.seqNo);
    } else {
      assert SkippedOf(log + [e], gateway) == SkippedOf(log, gateway);
    }
  }

  lemma AcceptBalanced(s: ServerState, m: Message, c: WireChunk)
    requires Balanced(s)
    ensures Balanced(Accept(s, m, c))
  {
    hide Skipped;
    hide SkippedOf;
    hide LatestGaps;
    var t := Accept(s, m, c);
    var e := StoredChunk(Key(m, c), c.readings);
    assert t.stored[..|s.stored|] == s.stored;
    var sk := StreamOf(e.key);
    assert Floor(Last(s.stored, sk)) == if sk in s.lastSeq then s.lastSeq[sk] else 0;
    forall g ensures StatsOf(t, g).missingChunks == |SkippedOf(t.stored, g)| {
      SkippedGrows(s.stored, e, g);
    }
  }

  lemma {:induction false} AcceptAllBalanced(s: ServerState, m: Message, unseen: seq<WireChunk>)
    requires Balanced(s)
    ensures Balanced(AcceptAll(s, m, unseen))
    decreases |unseen|
  {
    if unseen != [] {
      AcceptAllBalanced(s, m, unseen[..|unseen| - 1]);
      AcceptBalanced(AcceptAll(s, m, unseen[..|unseen| - 1]), m, unseen[|unseen| - 1]);
    }
  }

  /** Statistics other than missingChunks do not matter to the balance. */
  lemma StatsBalanced(s: ServerState, t: ServerState)
    requires Balanced(s)
    requires t.seen == s.seen && t.lastSeq == s.lastSeq && t.stored == s.stored
    requires forall g :: StatsOf(t, g).missingChunks == StatsOf(s, g).missingChunks
    ensures Balanced(t)
  {
  }

  lemma RejectedBalanced(s: ServerState, gateway: string, reason: string)
    requires Balanced(s)
    ensures Balanced(Rejected(s, gateway, reason))
  {
    hide Balanced;
    StatsBalanced(s, Rejected(s, gateway, reason));
  }

  lemma IngestBalanced(s: ServerState, m: Message, writeError: string)
    requires Balanced(s)
    ensures Balanced(Ingest(s, m, writeError).0)
  {
    hide Balanced;
    hide AcceptAll;
    hide Fresh;
    hide CountSeen;
    var s1 := CountDuplicates(s, m);
    StatsBalanced(s, s1);
    var unseen := Fresh(s.seen, m, m.chunks);
    var s2 := AcceptAll(s1, m, unseen);
    AcceptAllBalanced(s1, m, unseen);
    StatsBalanced(s2, Finished(s2, m.gatewayId, CountReadings(unseen)));
    RejectedBalanced(s1, m.gatewayId, writeError);
  }

  /** Any message, under any fault and any write outcome, leaves the counters balanced. */
  lemma HandleBalanced(s: ServerState, settings: Settings, m: Message, writeError: string)
    requires Balanced(s)
    ensures Balanced(HandleMessage(s, settings, m, writeError).0)
  {
    hide Balanced;
    hide Ingest;
    hide Rejected;
    var s1 := NoteMessage(s, m.gatewayId);
    StatsBalanced(s, s1);
    IngestBalanced(s1, m, writeError);
    RejectedBalanced(s1, m.gatewayId, "simulated: message ignored");
    RejectedBalanced(s1, m.gatewayId, "gateway not registered");
    RejectedBalanced(s1, m.gatewayId, "simulated: error ack");
  }

  // ---------------------------------------------------------------------------
  // When the counter is exact

  /** A late entry is one that was already counted as missing. */
  lemma LateWasSkipped(log: seq<StoredChunk>, i: nat)
    requires DistinctKeys(log) && i < |log| && Late(log, i)
    ensures log[i].key in Skipped(log[..i])
  {
    var k := log[i].key;
    FirstWithLast(log[..i], StreamOf(k));
    SkippedRange(log[..i], k);
  }

  lemma {:induction false} SkippedMonotone(log: seq<StoredChunk>, i: nat)
    requires i <= |log|
    ensures Skipped(log[..i]) <= Skipped(log)
  {
    if i < |log| {
      var prefix := log[..|log| - 1];
      SkippedMonotone(prefix, i);
      assert prefix[..i] == log[..i];
    } else {
      assert log[..i] == log;
    }
  }

  /** A key both skipped and accepted was accepted late. */
  lemma {:induction false} SkippedThenLate(log: seq<StoredChunk>, i: nat)
    requires DistinctKeys(log) && i < |log| && log[i].key in Skipped(log)
    ensures Late(log, i)
  {
    var k, sk := log[i].key, StreamOf(log[i].key);
    var n := |log| - 1;
    var prefix := log[..n];
    if i < n {
      if k in Skipped(prefix) {
        SkippedThenLate(prefix, i);
        assert prefix[..i] == log[..i];
      } else {
        FirstWithLast(prefix, sk);
        if k.seqNo > 0 {
          LastIsHighest(prefix, i);
        }
        assert false;
      }
    } else {
      assert k in Skipped(prefix);
      SkippedRange(prefix, k);
      FirstWithLast(prefix, sk);
    }
  }

  /** Counted though accepted: the chunks that came late. */
  lemma OvercountedIff(log: seq<StoredChunk>, i: nat)
    requires DistinctKeys(log) && i < |log|
    ensures log[i].key in Overcounted(log, log[i].key.gateway) <==> Late(log, i)
  {
    hide Skipped;
    hide Late;
    assert log[i].key in KeysOf(log);
    if Late(log, i) {
      LateWasSkipped(log, i);
      SkippedMonotone(log, i);
    } else if log[i].key in Skipped(log) {
      SkippedThenLate(log, i);
    }
  }

  /** The counter, exactly: what is missing, plus what came late, less the holes below the
      first arrival. */
  lemma CounterBalance(s: ServerState, gateway: string)
    requires Balanced(s)
    ensures StatsOf(s, gateway).missingChunks + |Uncounted(s.stored, gateway)| ==
            |MissingOf(s.stored, gateway)| + |Overcounted(s.stored, gateway)|
  {
    var log := s.stored;
    var jumped, missing, accepted := SkippedOf(log, gateway), MissingOf(log, gateway), KeysOf(log);
    forall k | k in jumped - accepted ensures k in missing {
      SkippedIsMissing(log, k);
      MissingCharacterized(log, k);
    }
    forall k | k in missing ensures k !in accepted {
      MissingCharacterized(log, k);
    }
    hide SkippedOf;
    hide MissingOf;
    hide KeysOf;
    SizesBalance(jumped, missing, accepted);
  }

  lemma SizesBalance(jumped: set<ChunkKey>, missing: set<ChunkKey>, accepted: set<ChunkKey>)
    requires jumped - accepted <= missing && missing !! accepted
    ensures |jumped| + |missing - jumped| == |missing| + |jumped * accepted|
  {
    assert jumped == (jumped - accepted) + jumped * accepted;
    assert missing == (jumped - accepted) + (missing - jumped);
    assert |jumped| == |jumped - accepted| + |jumped * accepted|;
    assert |missing| == |jumped - accepted| + |missing - jumped|;
  }

  /** The server counts exactly the missing chunks of a gateway if and only if none of its
      chunks came late and none is missing below the first to arrive of its stream. */
  lemma CountsMissingIff(log: seq<StoredChunk>, gateway: string)
    requires DistinctKeys(log)
    ensures SkippedOf(log, gateway) == MissingOf(log, gateway) <==>
            && (forall i :: 0 <= i < |log| && log[i].key.gateway == gateway ==> !Late(log, i))
            && (forall k: ChunkKey :: k.gateway == gateway ==> !EarlyHole(log, k))
  {
    hide Late;
    hide EarlyHole;
    hide Missing;
    hide Skipped;
    var jumped, missing := SkippedOf(log, gateway), MissingOf(log, gateway);
    forall i | 0 <= i < |log| && log[i].key.gateway == gateway
      ensures Late(log, i) <==> log[i].key in jumped && log[i].key !in missing
    {
      OvercountedIff(log, i);
      assert log[i].key in KeysOf(log);
      NotMissingIfAccepted(log, log[i].key);
    }
    forall k: ChunkKey | k.gateway == gateway ensures EarlyHole(log, k) <==> k in missing && k !in jumped {
      UncountedIff(log, k);
    }
    forall k | k in jumped && k !in missing
      ensures exists i :: 0 <= i < |log| && log[i].key == k && Late(log, i)
    {
      CountedButNotMissing(log, k);
      var i :| 0 <= i < |log| && log[i].key == k;
      assert log[i].key in jumped;
    }
    OnlyThisGateway(log, gateway);
    hide SkippedOf;
    hide MissingOf;
  }

  lemma OnlyThisGateway(log: seq<StoredChunk>, gateway: string)
    ensures forall k <- SkippedOf(log, gateway) :: k.gateway == gateway
    ensures forall k <- MissingOf(log, gateway) :: k.gateway == gateway
  {
  }

  lemma NotMissingIfAccepted(log: seq<StoredChunk>, k: ChunkKey)
    requires k in KeysOf(log)
    ensures k !in MissingOf(log, k.gateway)
  {
  }

  lemma CountedButNotMissing(log: seq<StoredChunk>, k: ChunkKey)
    requires k in SkippedOf(log, k.gateway) && k !in MissingOf(log, k.gateway)
    ensures k in KeysOf(log)
  {
    hide Skipped;
    MissingCharacterized(log, k);
    if k !in KeysOf(log) {
      SkippedIsMissing(log, k);
    }
  }

  function Stored(q: int): StoredChunk {
    StoredChunk(ChunkKey("g", "s", q), [])
  }

  /** Two chunks of one stream, the higher first: the one between them is missing, and not
      counted. */
  lemma EarlyHoleUndercounts()
    ensures var log := [Stored(3), Stored(1)];
            && SkippedOf(log, "g") == {}
            && MissingOf(log, "g") == {ChunkKey("g", "s", 2)}
  {
    var log := [Stored(3), Stored(1)];
    var sk := StreamKey("g", "s");
    assert log[..1] == [Stored(3)] && log[..1][..0] == [];
    assert Last([Stored(3)], sk) == Some(3) && Last(log, sk) == Some(3);
    assert Low([Stored(3)], sk) == Some(3) && Low(log, sk) == Some(1);
    assert Skipped([Stored(3)]) == {} && Skipped(log) == {};
    forall k: ChunkKey ensures k in MissingOf(log, "g") <==> k == ChunkKey("g", "s", 2) {
      MissingCharacterized(log, k);
      assert log[0].key in KeysOf(log) && log[1].key in KeysOf(log);
      assert KeysOf(log) == {ChunkKey("g", "s", 3), ChunkKey("g", "s", 1)};
      if StreamOf(k) != sk {
        NothingOfStream(log, StreamOf(k));
      } else {
        assert k == ChunkKey("g", "s", k.seqNo);
      }
    }
  }

  lemma {:induction false} NothingOfStream(log: seq<StoredChunk>, sk: StreamKey)
    requires forall e <- log :: StreamOf(e.key) != sk
    ensures Low(log, sk).None? && Last(log, sk).None?
  {
    if log != [] {
      NothingOfStream(log[..|log| - 1], sk);
      assert log[|log| - 1] in log;
    }
  }

  /** Three chunks of one stream, the second delivered last: nothing is missing, yet one
      chunk was counted. */
  lemma LateChunkOvercounts()
    ensures var log := [Stored(1), Stored(3), Stored(2)];
            && SkippedOf(log, "g") == {ChunkKey("g", "s", 2)}
            && MissingOf(log, "g") == {}
  {
    var log := [Stored(1), Stored(3), Stored(2)];
    var sk := StreamKey("g", "s");
    assert log[..2] == [Stored(1), Stored(3)] && log[..2][..1] == [Stored(1)] && log[..1][..0] == [];
    assert Last([Stored(1)], sk) == Some(1);
    assert Last([Stored(1), Stored(3)], sk) == Some(3);
    assert Skipped([Stored(1)]) == {};
    assert Skipped([Stored(1), Stored(3)]) == {ChunkKey("g", "s", 2)};
    assert log[0].key in KeysOf(log) && log[1].key in KeysOf(log) && log[2].key in KeysOf(log);
    assert Low([Stored(1)], sk) == Some(1) && Low(log, sk) == Some(1);
    assert Last(log, sk) == Some(3);
    forall k: ChunkKey ensures k !in MissingOf(log, "g") {
      MissingCharacterized(log, k);
      if StreamOf(k) != sk {
        NothingOfStream(log, StreamOf(k));
      } else {
        assert k == ChunkKey("g", "s", k.seqNo);
      }
    }
  }
}
