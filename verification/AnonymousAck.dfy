/** Why acks must carry the stream id: one that does not can make the gateway delete a chunk
    the server never saw. */
module AnonymousAck {
  import opened Ints
  import opened ChunkCodec
  import opened QueueModel
  import opened Wire
  import opened IngestServer
  import opened AckMatching
  import opened Delivery
  import opened DeliveryInvariant
  import opened DeliveryPaths
  import opened DeliverySamples

  /** Being let through to a waiting message proves that the ack is for the message's stream
      if and only if the ack carries a stream id. */
  lemma StreamCheckedIff(w: Waiters, stream: string, q: int, error: string)
    ensures (forall m: Message :: m.toSeq == q && Matches(Register(w, m), Ack(stream, q, error)) ==> m.streamId == stream)
            <==> stream != ""
  {
    if stream == "" {
      var m := Message("", "x", q, q, []);
      assert Matches(Register(w, m), Ack(stream, q, error)) && m.streamId != stream;
    }
  }

  // ---------------------------------------------------------------------------
  // A run that loses a chunk

  /** An ack the server published arrives with its stream id missing. */
  ghost predicate StrippedAckArrives(c: Config, s: State, s': State, a: Ack) {
    a in s.acks && s' == s.(waiters := HandleAck(s.waiters, a.(streamId := "")))
  }

  /** A run of the protocol but for step `at`, where such an ack arrives. */
  ghost predicate IsRunButFor(c: Config, run: Run, at: nat, a: Ack) {
    && c.z.Inverse()
    && |run.states| == |run.events| + 1 && at < |run.events|
    && Init(c, run.states[0])
    && StrippedAckArrives(c, run.states[at], run.states[at + 1], a)
    && forall i :: 0 <= i < |run.events| && i != at ==> Next(c, run.states[i], run.states[i + 1], run.events[i])
  }

  /** A chunk was committed and is nowhere: not in the table, not at the server, and
      neither evicted, discarded nor lost with its file. */
  ghost predicate Vanished(c: Config, s: State, k: ChunkKey) {
    && k in s.hist.committed
    && !(k.stream == s.disk.streamId && k.seqNo in Live(s.disk))
    && k !in Held(s) && k !in s.hist.evicted && k !in s.hist.discarded && k !in s.hist.lost
  }

  // ---------------------------------------------------------------------------
  // The run

  /** The file is replaced while the process is down. */
  lemma StartsOver(c: Config, s: State, id: string) returns (t: State)
    requires id != "" && id !in s.hist.streams
    ensures ReplaceFile(c, s, t, id) && AtRest(t) && t.disk == NewDisk(id)
    ensures t.server == s.server && t.archive == s.archive && t.acks == s.acks && t.msgs == s.msgs
    ensures t.hist.evicted == s.hist.evicted && t.hist.discarded == s.hist.discarded
    ensures t.hist.lost == s.hist.lost + KeysOfRows(c, s.disk, s.disk.rows)
  {
    var d := NewDisk(id);
    t := s.(disk := d, mem := Reopened(d), flush := FlushIdle, send := SendIdle, evict := EvictIdle,
            waiters := NO_WAITERS,
            hist := s.hist.(batches := [], lost := s.hist.lost + KeysOfRows(c, s.disk, s.disk.rows),
                            streams := s.hist.streams + {id}, appended := 0,
                            openReadings := 0, openEvicted := 0, acked := 0));
  }

  /** An anonymous ack for the same number ends the wait, and the row is deleted. */
  lemma ReleasedAndDeleted(c: Config, s: State, a: Ack) returns (s1: State, s2: State, s3: State)
    requires s.send.Sending? && s.waiters == Register(NO_WAITERS, s.send.msg)
    requires a in s.acks && a.toSeq == s.send.msg.toSeq && a.error == ""
    requires Ascending(s.disk.rows) && RowSeqs(s.disk.rows) == {s.send.msg.toSeq}
    ensures StrippedAckArrives(c, s, s1, a) && SendReturns(c, s1, s2) && DeleteAcked(c, s2, s3)
    ensures s3.disk.streamId == s.disk.streamId && Live(s3.disk) == {}
    ensures s3.server == s.server && s3.archive == s.archive
    ensures s3.hist == s.hist.(acked := s3.hist.acked)
  {
    var q := s.send.msg.toSeq;
    s1 := s.(waiters := HandleAck(s.waiters, a.(streamId := "")));
    assert s1.waiters.pending[q] == Some(a.(streamId := ""));
    s2 := s1.(send := Released(s1.send.msg, s1.send.head), waiters := Unregister(s1.waiters, s1.send.msg));
    var gone := UpTo(s2.disk.rows, q);
    s3 := s2.(disk := DeleteThrough(s2.disk, q, false), send := Deleted(|gone|, SumRows(gone)),
              hist := s2.hist.(acked := s2.hist.acked + SumRows(gone)));
    CutKeys(s.disk.rows, q);
  }

  /** Chunk 1 of the old stream is stored and acknowledged, the file is replaced, chunk 1 of
      the new stream is sent and lost on the way. The old ack arrives without its stream id:
      the gateway takes it for the new message and deletes a chunk nobody has. */
  lemma AnonymousAckLosesChunk(z: Flate, max: int, backlog: nat) returns (c: Config, run: Run, at: nat, a: Ack, k: ChunkKey)
    requires z.Inverse()
    ensures c == Config(z, "g", max, backlog)
    ensures IsRunButFor(c, run, at, a)
    ensures Vanished(c, run.states[|run.events|], k)
    ensures run.events[|run.events| - 1].OnDeleteAcked?
            && k.seqNo in Live(run.states[|run.events| - 1].disk)
  {
    c := Config(z, "g", max, backlog);
    var s0 := NewSystem("old");
    InitAtRest(c, "old");
    var first := SendsOne(c, s0, None);
    var s1 := first.states[|first.events|];
    var s2 := ServerStores(c, s1);
    var s3 := StartsOver(c, s2, "new");
    var second := SendsOne(c, s3, None);
    var s4 := second.states[|second.events|];
    a := Ack("old", 1, "");
    var s5, s6, s7 := ReleasedAndDeleted(c, s4, a);
    k := ChunkKey("g", "new", 1);
    OldKeysOnly(c, s1, s2);
    assert Vanished(c, s7, k);
    var middle := Run([s1, s2, s3], [OnServerHandles(|s1.msgs| - 1, NORMAL, ""), OnReplaceFile("new")]);
    MiddleSteps(c, s1, s2, s3);
    var front := Joined(first, middle);
    JoinedSteps(c, first, middle);
    var before := Joined(front, second);
    JoinedSteps(c, front, second);
    run, at := EndsWith(c, before, a, s5, s6, s7);
  }

  /** All that the server and the lost file know is of the old stream. */
  lemma OldKeysOnly(c: Config, s1: State, s2: State)
    requires c.gateway == "g" && Waiting(c, NewSystem("old"), s1)
    requires s2.server.seen == s1.server.seen + Keys(s1.send.msg, s1.send.msg.chunks)
    requires s2.disk == s1.disk && s2.archive == s1.archive && s2.hist.lost == s1.hist.lost
    ensures forall x <- Held(s2) + s2.hist.lost + KeysOfRows(c, s2.disk, s2.disk.rows) :: x.stream == "old"
  {
  }

  lemma MiddleSteps(c: Config, s1: State, s2: State, s3: State)
    requires s1.msgs != [] && ServerHandles(c, s1, s2, |s1.msgs| - 1, NORMAL, "") && ReplaceFile(c, s2, s3, "new")
    ensures Steps(c, Run([s1, s2, s3], [OnServerHandles(|s1.msgs| - 1, NORMAL, ""), OnReplaceFile("new")]))
  {
    hide ServerHandles;
    hide ReplaceFile;
    var run := Run([s1, s2, s3], [OnServerHandles(|s1.msgs| - 1, NORMAL, ""), OnReplaceFile("new")]);
    assert Next(c, s1, s2, run.events[0]) && Next(c, s2, s3, run.events[1]);
    hide Next;
  }

  lemma EndsWith(c: Config, before: Run, a: Ack, s1: State, s2: State, s3: State) returns (run: Run, at: nat)
    requires c.z.Inverse() && Steps(c, before) && Init(c, before.states[0])
    requires StrippedAckArrives(c, before.states[|before.events|], s1, a)
    requires SendReturns(c, s1, s2) && DeleteAcked(c, s2, s3)
    ensures IsRunButFor(c, run, at, a)
    ensures run.states[|run.events|] == s3 && run.events[|run.events| - 1].OnDeleteAcked?
    ensures run.states[|run.events| - 1] == s2
  {
    hide StrippedAckArrives;
    hide SendReturns;
    hide DeleteAcked;
    hide Init;
    assert Next(c, s1, s2, OnSendReturns) && Next(c, s2, s3, OnDeleteAcked);
    hide Next;
    at := |before.events|;
    run := Run(before.states + [s1, s2, s3], before.events + [OnAckArrives(a), OnSendReturns, OnDeleteAcked]);
    forall i | 0 <= i < |run.events| && i != at ensures Next(c, run.states[i], run.states[i + 1], run.events[i]) {
      if i < at {
        assert Next(c, before.states[i], before.states[i + 1], before.events[i]);
      } else if i == at + 1 {
        assert run.states[i] == s1 && run.states[i + 1] == s2;
      } else {
        assert run.states[i] == s2 && run.states[i + 1] == s3;
      }
    }
  }
}
