/** Continuations in which only the forwarder, the network and the server move. */
module DeliveryPaths {
  import opened Ints
  import opened ChunkCodec
  import opened QueueModel
  import opened Wire
  import opened IngestServer
  import opened Delivery
  import opened DeliveryInvariant
  import opened DeliveryProof

  /** Steps of a forwarder that is neither interrupted nor raced, and of what answers it. */
  ghost predicate Calm(e: Event) {
    || e.OnStartBatch? || e.OnDecodeRow? || e.OnDiscardRow? || e.OnDiscardFindsNothing? || e.OnCountDiscard?
    || e.OnNothingToSend? || e.OnSendRefused? || e.OnPublish? || e.OnSendFails? || e.OnSendReturns?
    || e.OnDeleteAcked? || e.OnCountAcked? || e.OnServerHandles? || e.OnAckArrives?
  }

  ghost predicate IsPath(c: Config, s: State, t: State, run: Run) {
    && Steps(c, run) && run.states[0] == s && run.states[|run.events|] == t
    && forall e <- run.events :: Calm(e)
  }

  ghost predicate Reaches(c: Config, s: State, t: State) {
    exists run: Run :: IsPath(c, s, t, run)
  }

  lemma ReachesSelf(c: Config, s: State)
    ensures Reaches(c, s, s)
  {
    assert IsPath(c, s, s, Run([s], []));
  }

  lemma StepReaches(c: Config, s: State, s': State, e: Event, t: State)
    requires Next(c, s, s', e) && Calm(e) && Reaches(c, s', t)
    ensures Reaches(c, s, t)
  {
    hide Next;
    hide Calm;
    var run: Run :| IsPath(c, s', t, run);
    StepBefore(c, s, e, run);
    var all := Before(s, e, run);
    assert forall x :: x in all.events <==> x == e || x in run.events;
    assert IsPath(c, s, t, all);
  }

  lemma ReachesTrans(c: Config, s: State, t: State, u: State)
    requires Reaches(c, s, t) && Reaches(c, t, u)
    ensures Reaches(c, s, u)
  {
    hide Next;
    hide Calm;
    var a: Run :| IsPath(c, s, t, a);
    var b: Run :| IsPath(c, t, u, b);
    JoinedSteps(c, a, b);
    assert forall x :: x in a.events + b.events <==> x in a.events || x in b.events;
    assert IsPath(c, s, u, Joined(a, b));
  }

  // ---------------------------------------------------------------------------
  // To the end of a batch

  /** A batch being decoded is decoded to its end: one row after the other, corrupt ones
      discarded. */
  lemma {:induction false} DecodesToEnd(c: Config, s: State) returns (t: State)
    requires c.z.Inverse() && Inv(c, s) && s.send.Decoding?
    ensures Reaches(c, s, t) && Inv(c, t)
    ensures t.send.Decoding? && t.send.raw == s.send.raw && t.send.pos == |t.send.raw|
    ensures t.waiters == s.waiters && t.msgs == s.msgs
    decreases if s.send.pos <= |s.send.raw| then |s.send.raw| - s.send.pos else 0
  {
    hide Inv;
    hide DecodeBlob;
    hide RowSeqs;
    hide Reaches;
    PosInBatch(c, s);
    var raw, pos := s.send.raw, s.send.pos;
    if pos == |raw| {
      t := s;
      ReachesSelf(c, s);
    } else if DecodeBlob(c.z, raw[pos].blob).Some? {
      var rs := DecodeBlob(c.z, raw[pos].blob);
      var s' := s.(send := Decoding(raw, pos + 1, s.send.chunks + [Chunk(raw[pos].seqNo, rs.value)]));
      OneDecoded(c, s, s');
      t := DecodesToEnd(c, s');
      StepReaches(c, s, s', OnDecodeRow, t);
    } else if raw[pos].seqNo in RowSeqs(s.disk.rows) {
      var s1, s2 := OneDiscarded(c, s);
      t := DecodesToEnd(c, s2);
      StepReaches(c, s1, s2, OnCountDiscard, t);
      StepReaches(c, s, s1, OnDiscardRow, t);
    } else {
      var s' := s.(send := Decoding(raw, pos + 1, s.send.chunks));
      OneSkipped(c, s, s');
      t := DecodesToEnd(c, s');
      StepReaches(c, s, s', OnDiscardFindsNothing, t);
    }
  }

  lemma PosInBatch(c: Config, s: State)
    requires Inv(c, s) && s.send.Decoding?
    ensures s.send.pos <= |s.send.raw|
  {
    hide Storage;
    hide Traffic;
    hide EvictOk;
  }

  lemma OneDecoded(c: Config, s: State, s': State)
    requires c.z.Inverse() && Inv(c, s) && DecodeRow(c, s, s')
    ensures Next(c, s, s', OnDecodeRow) && Inv(c, s')
  {
    hide Inv;
    hide DecodeRow;
    assert Next(c, s, s', OnDecodeRow);
    hide Next;
    StepKeeps(c, s, s', OnDecodeRow);
  }

  lemma OneSkipped(c: Config, s: State, s': State)
    requires c.z.Inverse() && Inv(c, s) && DiscardFindsNothing(c, s, s')
    ensures Next(c, s, s', OnDiscardFindsNothing) && Inv(c, s')
  {
    hide Inv;
    hide DiscardFindsNothing;
    assert Next(c, s, s', OnDiscardFindsNothing);
    hide Next;
    StepKeeps(c, s, s', OnDiscardFindsNothing);
  }

  lemma OneDiscarded(c: Config, s: State) returns (s1: State, s2: State)
    requires c.z.Inverse() && Inv(c, s) && CorruptAhead(c, s)
    requires s.send.raw[s.send.pos].seqNo in RowSeqs(s.disk.rows)
    ensures Next(c, s, s1, OnDiscardRow) && Next(c, s1, s2, OnCountDiscard) && Inv(c, s2)
    ensures s2.send == Decoding(s.send.raw, s.send.pos + 1, s.send.chunks)
    ensures s2.waiters == s.waiters && s2.msgs == s.msgs
  {
    hide Inv;
    hide DecodeBlob;
    hide RowSeqs;
    hide Discard;
    var raw, pos := s.send.raw, s.send.pos;
    var row := raw[pos];
    s1 := s.(disk := Discard(s.disk, row.seqNo, row.n), send := Discarding(raw, pos, s.send.chunks),
             hist := s.hist.(discarded := s.hist.discarded + {KeyFor(c, s.disk, row.seqNo)}));
    s2 := s1.(mem := CountDeleted(s1.mem, 1, row.n).(dropped := s1.mem.dropped + row.n),
              send := Decoding(raw, pos + 1, s.send.chunks));
    assert DiscardRow(c, s, s1) && CountDiscard(c, s1, s2);
    hide DiscardRow;
    hide CountDiscard;
    assert Next(c, s, s1, OnDiscardRow) && Next(c, s1, s2, OnCountDiscard);
    hide Next;
    StepKeeps(c, s, s1, OnDiscardRow);
    StepKeeps(c, s1, s2, OnCountDiscard);
  }

  lemma BatchDecoded(c: Config, s: State)
    requires Inv(c, s) && s.send.Decoding? && s.send.pos == |s.send.raw|
    ensures s.send.chunks == Decoded(c.z, s.send.raw)
    ensures s.send.chunks != [] ==> s.send.raw != []
  {
    hide Storage;
    hide Traffic;
    hide EvictOk;
    assert s.send.raw[..|s.send.raw|] == s.send.raw;
  }

  // ---------------------------------------------------------------------------
  // A message stored and acknowledged

  const NORMAL := Settings(NoFault, false, {})

  /** A message the server has not seen is stored and acknowledged. */
  lemma ServerStores(c: Config, s: State) returns (t: State)
    requires s.send.Sending? && s.msgs != [] && s.msgs[|s.msgs| - 1] == s.send.msg
    ensures ServerHandles(c, s, t, |s.msgs| - 1, NORMAL, "")
    ensures Ack(s.send.msg.streamId, s.send.msg.toSeq, "") in t.acks
    ensures t == s.(server := t.server, acks := t.acks, hist := t.hist)
    ensures t.server.seen == s.server.seen + Keys(s.send.msg, s.send.msg.chunks)
    ensures t.hist == s.hist.(delivered := t.hist.delivered, current := t.hist.current)
  {
    hide Fresh;
    hide AcceptAll;
    hide Keys;
    var i := |s.msgs| - 1;
    var (server, ack) := HandleMessage(s.server, NORMAL, s.msgs[i], "");
    HandleEffect(s.server, NORMAL, s.msgs[i], "");
    t := s.(server := server, acks := s.acks + {ack.value},
            hist := s.hist.(delivered := s.hist.delivered + {i}, current := s.hist.current + {i}));
  }
}
