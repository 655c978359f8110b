/** When the queue can be emptied into the server: exactly when no stored chunk holds a value
    that JSON cannot carry. */
module DeliveryDrain {
  import opened Ints
  import opened ChunkCodec
  import opened QueueModel
  import opened Wire
  import opened IngestServer
  import opened AckMatching
  import opened Delivery
  import opened DeliveryInvariant
  import opened DeliveryProof
  import opened DeliveryPaths
  import opened DeliveryProgress
  import opened DeliveryStall

  // ---------------------------------------------------------------------------
  // Two more things every reachable state satisfies

  /** A row read as corrupt is still corrupt, if it is still there. */
  ghost predicate HonestRows(c: Config, raw: seq<Row>, rows: seq<Row>) {
    forall x <- raw, r <- rows :: x.seqNo == r.seqNo && DecodeBlob(c.z, x.blob).None? ==> DecodeBlob(c.z, r.blob).None?
  }

  ghost predicate HonestBatch(c: Config, send: SendPhase, rows: seq<Row>) {
    send.Decoding? || send.Discarding? ==> HonestRows(c, send.raw, rows)
  }

  /** And what was published had a JSON form. */
  ghost predicate Sound(c: Config, s: State) {
    (forall m <- s.msgs :: HasJson(m)) && HonestBatch(c, s.send, s.disk.rows)
  }

  lemma MessagesFrame(c: Config, s: State, s': State, e: Event)
    requires Next(c, s, s', e) && !e.OnPublish?
    ensures s'.msgs == s.msgs
  {
    hide DecodeBlob;
    hide HandleMessage;
    hide Stores;
    hide DeleteThrough;
    hide Discard;
    hide Insert;
    hide Scan;
    hide Seal;
    hide TrimBacklog;
    hide SumRows;
    hide UpTo;
  }

  lemma PublishedFinite(c: Config, s: State, s': State)
    requires Publish(c, s, s') && forall m <- s.msgs :: HasJson(m)
    ensures forall m <- s'.msgs :: HasJson(m)
  {
    JsonIff(c.gateway, s.disk.streamId, s.send.chunks);
    hide Finite;
    hide MessageOf;
    hide HasJson;
  }

  /** Where the rows of the next state come from, while the file stays. */
  ghost predicate RowsFrom(c: Config, d: Disk, d': Disk) {
    forall r <- d'.rows :: r in d.rows || r.seqNo >= d.nextSeq || DecodeBlob(c.z, r.blob).None?
  }

  lemma RowsStep(c: Config, s: State, s': State, e: Event)
    requires Inv(c, s) && Next(c, s, s', e) && !e.OnReplaceFile?
    ensures RowsFrom(c, s.disk, s'.disk)
  {
    hide Inv;
    hide DecodeBlob;
    hide Above;
    hide UpTo;
    hide Without;
    hide SumRows;
    DiskFrame(c, s, s', e);
    ConsistentNow(c, s);
    match e {
      case OnDiscardRow => DiscardSubset(s.disk, s.send.raw[s.send.pos].seqNo, s.send.raw[s.send.pos].n);
      case OnDeleteAcked => DeleteConsistent(s.disk, s.send.msg.toSeq, false);
      case OnEvictRows => DeleteConsistent(s.disk, s.evict.cut, true);
      case _ =>
    }
    hide Consistent;
  }

  lemma DiscardSubset(d: Disk, q: nat, n: nat)
    ensures forall r <- Discard(d, q, n).rows :: r in d.rows
    ensures forall r <- d.rows :: r.seqNo != q ==> r in Discard(d, q, n).rows
    ensures Discard(d, q, n).streamId == d.streamId && Discard(d, q, n).nextSeq == d.nextSeq
  {
    WithoutKeeps(d.rows, q);
    WithoutSubset(d.rows, q);
    hide Without;
  }

  lemma {:induction false} WithoutSubset(rows: seq<Row>, q: nat)
    ensures forall r <- Without(rows, q) :: r in rows
  {
    if rows != [] {
      WithoutSubset(rows[1..], q);
    }
  }

  /** A batch in hand was in hand before, unless it was just read. */
  lemma BatchFrame(c: Config, s: State, s': State, e: Event)
    requires Next(c, s, s', e) && !e.OnStartBatch? && (s'.send.Decoding? || s'.send.Discarding?)
    ensures (s.send.Decoding? || s.send.Discarding?) && s'.send.raw == s.send.raw && !e.OnReplaceFile?
  {
    hide DecodeBlob;
    hide HandleMessage;
    hide Stores;
    hide DeleteThrough;
    hide Discard;
    hide Insert;
    hide Seal;
    hide TrimBacklog;
    hide SumRows;
    hide UpTo;
  }

  lemma HonestStep(c: Config, s: State, s': State, e: Event)
    requires Inv(c, s) && Next(c, s, s', e) && HonestBatch(c, s.send, s.disk.rows)
    ensures HonestBatch(c, s'.send, s'.disk.rows)
  {
    hide Inv;
    hide DecodeBlob;
    if s'.send.Decoding? || s'.send.Discarding? {
      if e.OnStartBatch? {
        assert StartBatch(c, s, s');
        ConsistentNow(c, s);
        ScannedHonest(c, s.disk.rows, c.maxReadings);
      } else {
        BatchFrame(c, s, s', e);
        RowsStep(c, s, s', e);
        RawBelow(c, s);
      }
    }
    hide Next;
  }

  lemma ScannedHonest(c: Config, rows: seq<Row>, max: int)
    requires Ascending(rows)
    ensures HonestRows(c, Scan(rows, max), rows)
  {
    hide DecodeBlob;
    hide ScanLength;
    forall x, r | x in Scan(rows, max) && r in rows && x.seqNo == r.seqNo ensures x == r {
      var i := ScanIndex(rows, max, x);
      var j :| 0 <= j < |rows| && rows[j] == r;
    }
  }

  lemma RawBelow(c: Config, s: State)
    requires Inv(c, s) && (s.send.Decoding? || s.send.Discarding?)
    ensures forall x <- s.send.raw :: x.seqNo < s.disk.nextSeq
  {
    hide Storage;
    hide Traffic;
    hide EvictOk;
  }

  lemma SoundStep(c: Config, s: State, s': State, e: Event)
    requires Inv(c, s) && Sound(c, s) && Next(c, s, s', e)
    ensures Sound(c, s')
  {
    hide Inv;
    hide HasJson;
    hide HonestBatch;
    HonestStep(c, s, s', e);
    if e.OnPublish? {
      assert Publish(c, s, s');
      PublishedFinite(c, s, s');
    } else {
      MessagesFrame(c, s, s', e);
    }
    hide Next;
  }

  lemma {:induction false} SoundHolds(c: Config, run: Run, i: nat)
    requires IsRun(c, run) && i < |run.states|
    ensures Sound(c, run.states[i])
  {
    hide Inv;
    hide Next;
    if i > 0 {
      hide Sound;
      SoundHolds(c, run, i - 1);
      InvariantHolds(c, run, i - 1);
      SoundStep(c, run.states[i - 1], run.states[i], run.events[i - 1]);
    }
  }

  // ---------------------------------------------------------------------------
  // A non-finite row never leaves by itself

  lemma NonFiniteStays(c: Config, s: State, s': State, e: Event, r: Row)
    requires Inv(c, s) && Sound(c, s) && Next(c, s, s', e) && Undisturbed(e)
    requires r in s.disk.rows && NonFiniteRow(c, r)
    ensures r in s'.disk.rows
  {
    hide Inv;
    hide DecodeBlob;
    hide HasJson;
    hide Above;
    hide UpTo;
    hide Without;
    hide SumRows;
    DiskFrame(c, s, s', e);
    match e {
      case OnWriteChunks =>
      case OnDiscardRow =>
        var row := s.send.raw[s.send.pos];
        assert row in s.send.raw;
        DiscardSubset(s.disk, row.seqNo, row.n);
      case OnDeleteAcked =>
        NotInMessage(c, s, r);
        KeptAboveCut(c, s, s.send.msg.toSeq, r);
      case _ =>
    }
  }

  lemma KeptAboveCut(c: Config, s: State, cut: int, r: Row)
    requires Inv(c, s) && r in s.disk.rows && r.seqNo > cut
    ensures r in Above(s.disk.rows, cut)
  {
    hide Traffic;
    hide SendOk;
    hide Above;
    hide UpTo;
    CutSplits(s.disk.rows, cut);
    assert r in UpTo(s.disk.rows, cut) + Above(s.disk.rows, cut);
  }

  /** It lies past the end of any message sent of its stream: a message that reached it would
      have carried it. */
  lemma NotInMessage(c: Config, s: State, r: Row)
    requires Inv(c, s) && Sound(c, s) && s.send.Released? && r in s.disk.rows && NonFiniteRow(c, r)
    ensures r.seqNo > s.send.msg.toSeq
  {
    hide EvictOk;
    hide ServerOk;
    hide ArchiveOk;
    hide Archived;
    hide GapsOk;
    hide CoverOk;
    hide AcksOk;
    hide DeliveredOk;
    hide HasJson;
    hide DecodeBlob;
    hide HonestBatch;
    var m := s.send.msg;
    assert Holds(s.disk, Live(s.disk), m) && MsgOk(c, m, s.hist.committed, s.hist.streams);
    assert RowOk(c, s.disk.streamId, s.hist.committed, r);
    assert r.seqNo in Live(s.disk);
    if r.seqNo <= m.toSeq {
      assert r.seqNo in Seqs(m.chunks);
      var ch :| ch in m.chunks && ch.seqNo == r.seqNo;
      var k := KeyFor(c, s.disk, r.seqNo);
      assert Key(m, ch) == k;
      CarriesNonFinite(c, m, ch, s.hist.committed[k], r);
    }
  }

  lemma CarriesNonFinite(c: Config, m: Message, ch: WireChunk, rs: seq<Reading>, r: Row)
    requires ch in m.chunks && ch.readings == ToWireAll(rs) && NonFiniteRow(c, r)
    requires DecodeBlob(c.z, r.blob) == Some(AllAtMillis(rs))
    ensures !HasJson(m)
  {
    hide DecodeBlob;
    hide Finite;
    WireOfStored(rs);
    WireFinite(AllAtMillis(rs));
    hide ToWireAll;
    hide AllAtMillis;
  }

  lemma {:induction false} StaysAlong(c: Config, run: Run, j: nat, r: Row)
    requires c.z.Inverse() && Steps(c, run) && j < |run.states|
    requires Inv(c, run.states[0]) && Sound(c, run.states[0])
    requires r in run.states[0].disk.rows && NonFiniteRow(c, r)
    requires forall e <- run.events :: Undisturbed(e)
    ensures Inv(c, run.states[j]) && Sound(c, run.states[j]) && r in run.states[j].disk.rows
  {
    hide NonFiniteRow;
    hide Next;
    hide Inv;
    hide Sound;
    hide Undisturbed;
    if j > 0 {
      StaysAlong(c, run, j - 1, r);
      assert run.events[j - 1] in run.events;
      var s, s', e := run.states[j - 1], run.states[j], run.events[j - 1];
      NonFiniteStays(c, s, s', e, r);
      SoundStep(c, s, s', e);
      StepKeeps(c, s, s', e);
    }
  }

  // ---------------------------------------------------------------------------
  // What calm steps achieve

  /** Rows only leave, and those that can be decoded only for the server. */
  ghost predicate Progressed(c: Config, s: State, t: State) {
    && t.disk.streamId == s.disk.streamId && t.disk.nextSeq == s.disk.nextSeq
    && Held(s) <= Held(t)
    && (forall r <- t.disk.rows :: r in s.disk.rows)
    && (forall r <- s.disk.rows ::
          r in t.disk.rows || DecodeBlob(c.z, r.blob).None? || KeyFor(c, s.disk, r.seqNo) in Held(t))
  }

  lemma ProgressedTrans(c: Config, s: State, t: State, u: State)
    requires Progressed(c, s, t) && Progressed(c, t, u)
    ensures Progressed(c, s, u)
  {
    hide DecodeBlob;
    hide Held;
  }

  lemma CalmStep(c: Config, s: State, s': State, e: Event)
    requires Inv(c, s) && Sound(c, s) && Next(c, s, s', e) && Calm(e)
    ensures Progressed(c, s, s')
  {
    hide Inv;
    hide Sound;
    hide Progressed;
    hide Held;
    hide DecodeBlob;
    hide Above;
    hide UpTo;
    hide SumRows;
    if e.OnDiscardRow? {
      DiscardProgress(c, s, s');
    } else if e.OnDeleteAcked? {
      DeleteProgress(c, s, s');
    } else {
      DiskFrame(c, s, s', e);
      ServerFrame(c, s, s', e);
      if e.OnServerHandles? {
        HeldGrows(c, s, s', e.i, e.settings, e.writeError);
      } else {
        SameHeld(s, s');
      }
      NoRowLeft(c, s, s');
    }
  }

  lemma SameHeld(s: State, s': State)
    requires s'.server == s.server && s'.archive == s.archive
    ensures Held(s') == Held(s)
  {
  }

  lemma NoRowLeft(c: Config, s: State, s': State)
    requires s'.disk == s.disk && Held(s) <= Held(s')
    ensures Progressed(c, s, s')
  {
    hide Held;
    hide DecodeBlob;
  }

  lemma DiscardProgress(c: Config, s: State, s': State)
    requires Sound(c, s) && DiscardRow(c, s, s')
    ensures Progressed(c, s, s')
  {
    hide DecodeBlob;
    hide HasJson;
    hide Archived;
    var row := s.send.raw[s.send.pos];
    assert row in s.send.raw;
    DiscardSubset(s.disk, row.seqNo, row.n);
    hide Discard;
    hide RowSeqs;
  }

  lemma DeleteProgress(c: Config, s: State, s': State)
    requires Inv(c, s) && DeleteAcked(c, s, s')
    ensures Progressed(c, s, s')
  {
    hide Inv;
    hide DecodeBlob;
    hide Above;
    hide UpTo;
    hide SumRows;
    hide Archived;
    AckedRowsStored(c, s);
    ConsistentNow(c, s);
    DeleteConsistent(s.disk, s.send.msg.toSeq, false);
    hide Consistent;
    forall r | r in s.disk.rows && r.seqNo > s.send.msg.toSeq ensures r in s'.disk.rows {
      KeptAboveCut(c, s, s.send.msg.toSeq, r);
    }
  }

  lemma {:induction false} CalmAlong(c: Config, run: Run, j: nat)
    requires c.z.Inverse() && Steps(c, run) && j < |run.states|
    requires Inv(c, run.states[0]) && Sound(c, run.states[0]) && forall e <- run.events :: Calm(e)
    ensures Inv(c, run.states[j]) && Sound(c, run.states[j]) && Progressed(c, run.states[0], run.states[j])
  {
    hide Next;
    hide Inv;
    hide Sound;
    hide Calm;
    if j > 0 {
      CalmAlong(c, run, j - 1);
      hide Progressed;
      assert run.events[j - 1] in run.events;
      var s, s', e := run.states[j - 1], run.states[j], run.events[j - 1];
      CalmStep(c, s, s', e);
      SoundStep(c, s, s', e);
      StepKeeps(c, s, s', e);
      ProgressedTrans(c, run.states[0], s, s');
    }
  }

  lemma ReachesProgress(c: Config, s: State, t: State)
    requires c.z.Inverse() && Inv(c, s) && Sound(c, s) && Reaches(c, s, t)
    ensures Inv(c, t) && Sound(c, t) && Progressed(c, s, t)
  {
    hide Inv;
    hide Sound;
    hide Progressed;
    hide Steps;
    var run: Run :| IsPath(c, s, t, run);
    assert |run.states| == |run.events| + 1 by { PathShape(c, s, t, run); }
    CalmAlong(c, run, |run.events|);
  }

  lemma PathShape(c: Config, s: State, t: State, run: Run)
    requires IsPath(c, s, t, run)
    ensures |run.states| == |run.events| + 1
  {
    hide Next;
  }

  // ---------------------------------------------------------------------------
  // The forwarder comes to rest

  /** Whatever it is doing, the forwarder can be idle without having published. */
  lemma ReachesIdle(c: Config, s: State) returns (t: State)
    requires c.z.Inverse() && Inv(c, s)
    ensures Reaches(c, s, t) && t.send == SendIdle
  {
    hide Inv;
    hide Reaches;
    match s.send {
      case SendIdle =>
        t := s;
        ReachesSelf(c, s);
      case Decoding(_, _, _) =>
        t := BatchGivenUp(c, s);
      case Discarding(raw, pos, chunks) =>
        var s' := DiscardCounted(c, s);
        t := BatchGivenUp(c, s');
        StepReaches(c, s, s', OnCountDiscard, t);
      case Sending(m, _) =>
        t := s.(send := SendIdle, waiters := Unregister(s.waiters, m));
        assert SendFails(c, s, t);
        ReachesSelf(c, t);
        StepReaches(c, s, t, OnSendFails, t);
      case Released(_, _) =>
        var s' := AckedDeleted(c, s);
        t := AckedCounted(c, s');
        StepReaches(c, s, s', OnDeleteAcked, t);
      case Deleted(_, _) =>
        t := AckedCounted(c, s);
    }
  }

  lemma BatchGivenUp(c: Config, s: State) returns (t: State)
    requires c.z.Inverse() && Inv(c, s) && s.send.Decoding?
    ensures Reaches(c, s, t) && t.send == SendIdle
  {
    hide Inv;
    hide Reaches;
    var u := DecodesToEnd(c, s);
    t := u.(send := SendIdle);
    ReachesSelf(c, t);
    if u.send.chunks == [] {
      assert NothingToSend(c, u, t);
      StepReaches(c, u, t, OnNothingToSend, t);
    } else {
      assert SendRefused(c, u, t);
      StepReaches(c, u, t, OnSendRefused, t);
    }
    ReachesTrans(c, s, u, t);
  }

  lemma DiscardCounted(c: Config, s: State) returns (s': State)
    requires c.z.Inverse() && Inv(c, s) && s.send.Discarding?
    ensures Next(c, s, s', OnCountDiscard) && Inv(c, s') && s'.send.Decoding?
  {
    hide Inv;
    var raw, pos := s.send.raw, s.send.pos;
    DiscardInBatch(c, s);
    s' := s.(mem := CountDeleted(s.mem, 1, raw[pos].n).(dropped := s.mem.dropped + raw[pos].n),
             send := Decoding(raw, pos + 1, s.send.chunks));
    assert CountDiscard(c, s, s');
    hide CountDiscard;
    assert Next(c, s, s', OnCountDiscard);
    hide Next;
    StepKeeps(c, s, s', OnCountDiscard);
  }

  lemma DiscardInBatch(c: Config, s: State)
    requires Inv(c, s) && s.send.Discarding?
    ensures s.send.pos < |s.send.raw|
  {
    hide Storage;
    hide Traffic;
    hide EvictOk;
  }

  lemma AckedDeleted(c: Config, s: State) returns (s': State)
    requires s.send.Released?
    ensures Next(c, s, s', OnDeleteAcked) && DeleteAcked(c, s, s') && s'.send.Deleted?
  {
    hide UpTo;
    hide SumRows;
    hide DeleteThrough;
    var gone := UpTo(s.disk.rows, s.send.msg.toSeq);
    s' := s.(disk := DeleteThrough(s.disk, s.send.msg.toSeq, false), send := Deleted(|gone|, SumRows(gone)),
             hist := s.hist.(acked := s.hist.acked + SumRows(gone)));
  }

  lemma AckedCounted(c: Config, s: State) returns (t: State)
    requires s.send.Deleted?
    ensures Reaches(c, s, t) && t.send == SendIdle && t.disk == s.disk
  {
    hide Reaches;
    t := s.(mem := CountDeleted(s.mem, s.send.count, s.send.readings), send := SendIdle);
    assert CountAcked(c, s, t);
    ReachesSelf(c, t);
    StepReaches(c, s, t, OnCountAcked, t);
  }

  // ---------------------------------------------------------------------------
  // One dispatch, answered

  /** A published message is stored and acknowledged, and what it carried is deleted. */
  lemma AnsweredDispatch(c: Config, s: State) returns (t: State)
    requires c.z.Inverse() && Inv(c, s) && s.send.Sending?
    requires s.waiters == Register(NO_WAITERS, s.send.msg) && s.msgs != [] && s.msgs[|s.msgs| - 1] == s.send.msg
    ensures Reaches(c, s, t) && t.send == SendIdle && s.send.head !in Live(t.disk)
  {
    hide Inv;
    hide Reaches;
    var m := s.send.msg;
    var s1, s2, s3 := AckReturned(c, s);
    var s4 := AckedDeleted(c, s3);
    hide DeleteAcked;
    hide RowSeqs;
    HeadGone(c, s3, s4, OnDeleteAcked, s.send.head);
    hide Next;
    t := AckedCounted(c, s4);
    StepReaches(c, s3, s4, OnDeleteAcked, t);
    StepReaches(c, s2, s3, OnSendReturns, t);
    StepReaches(c, s1, s2, OnAckArrives(Ack(m.streamId, m.toSeq, "")), t);
    StepReaches(c, s, s1, OnServerHandles(|s.msgs| - 1, NORMAL, ""), t);
  }

  lemma AckReturned(c: Config, s: State) returns (s1: State, s2: State, s3: State)
    requires c.z.Inverse() && Inv(c, s) && s.send.Sending?
    requires s.waiters == Register(NO_WAITERS, s.send.msg) && s.msgs != [] && s.msgs[|s.msgs| - 1] == s.send.msg
    ensures Next(c, s, s1, OnServerHandles(|s.msgs| - 1, NORMAL, ""))
    ensures Next(c, s1, s2, OnAckArrives(Ack(s.send.msg.streamId, s.send.msg.toSeq, "")))
    ensures Next(c, s2, s3, OnSendReturns)
    ensures Inv(c, s3) && s3.send == Released(s.send.msg, s.send.head)
  {
    hide Inv;
    hide HandleMessage;
    hide Stores;
    var m := s.send.msg;
    var a := Ack(m.streamId, m.toSeq, "");
    s1 := ServerStores(c, s);
    s2 := s1.(waiters := HandleAck(s1.waiters, a));
    assert s2.waiters.pending[m.toSeq] == Some(a);
    s3 := s2.(send := Released(m, s.send.head), waiters := Unregister(s2.waiters, m));
    assert AckArrives(c, s1, s2, a) && SendReturns(c, s2, s3);
    hide ServerHandles;
    hide AckArrives;
    hide SendReturns;
    assert Next(c, s, s1, OnServerHandles(|s.msgs| - 1, NORMAL, ""));
    assert Next(c, s1, s2, OnAckArrives(a)) && Next(c, s2, s3, OnSendReturns);
    hide Next;
    StepKeeps(c, s, s1, OnServerHandles(|s.msgs| - 1, NORMAL, ""));
    StepKeeps(c, s1, s2, OnAckArrives(a));
    StepKeeps(c, s2, s3, OnSendReturns);
  }

  ghost predicate AllFinite(c: Config, rows: seq<Row>) {
    forall r <- rows :: !NonFiniteRow(c, r)
  }

  /** From rest, with something stored and all of it finite: one dispatch lowers the number of
      rows. */
  lemma OneDispatch(c: Config, s: State) returns (t: State)
    requires c.z.Inverse() && Inv(c, s) && Sound(c, s) && s.send == SendIdle
    requires s.disk.rows != [] && AllFinite(c, s.disk.rows)
    ensures Reaches(c, s, t) && t.send == SendIdle && |t.disk.rows| < |s.disk.rows|
  {
    hide Inv;
    hide Sound;
    hide Reaches;
    hide RowSeqs;
    hide NonFiniteRow;
    var s1, u := BatchInHand(c, s);
    var q := s.disk.rows[0].seqNo;
    if u.send.chunks == [] {
      t := u.(send := SendIdle);
      assert NothingToSend(c, u, t);
      assert Next(c, u, t, OnNothingToSend);
      HeadGone(c, u, t, OnNothingToSend, q);
      ReachesSelf(c, t);
      StepReaches(c, u, t, OnNothingToSend, t);
    } else {
      var v := BatchPublished(c, u);
      t := AnsweredDispatch(c, v);
      StepReaches(c, u, v, OnPublish, t);
    }
    hide Next;
    ReachesTrans(c, s, u, t);
    ReachesProgress(c, s, t);
    OldestIsLive(s.disk);
    FewerRows(c, s, t, q);
  }

  /** The batch read and decoded. */
  lemma BatchInHand(c: Config, s: State) returns (s1: State, u: State)
    requires c.z.Inverse() && Inv(c, s) && s.send == SendIdle && s.disk.rows != [] && AllFinite(c, s.disk.rows)
    ensures Reaches(c, s, u) && Inv(c, u)
    ensures u.send.Decoding? && u.send.pos == |u.send.raw| && AllFinite(c, u.send.raw)
    ensures HeadIs(u.send, s.disk.rows[0].seqNo) && u.waiters == NO_WAITERS
  {
    hide NonFiniteRow;
    hide Reaches;
    hide Inv;
    hide Scan;
    hide AllFinite;
    IdleWaitsForNothing(c, s);
    var raw := Scan(s.disk.rows, c.maxReadings);
    s1 := s.(send := Decoding(raw, 0, []));
    assert StartBatch(c, s, s1);
    ScanNonEmpty(s.disk.rows, c.maxReadings);
    ScanFinite(c, s.disk.rows);
    hide StartBatch;
    assert Next(c, s, s1, OnStartBatch);
    hide Next;
    StepKeeps(c, s, s1, OnStartBatch);
    u := DecodesToEnd(c, s1);
    StepReaches(c, s, s1, OnStartBatch, u);
  }

  lemma ScanFinite(c: Config, rows: seq<Row>)
    requires AllFinite(c, rows)
    ensures AllFinite(c, Scan(rows, c.maxReadings))
  {
    hide NonFiniteRow;
    hide ScanLength;
  }

  lemma IdleWaitsForNothing(c: Config, s: State)
    requires Inv(c, s) && s.send == SendIdle
    ensures s.waiters == NO_WAITERS
  {
    hide Storage;
    hide Traffic;
    hide EvictOk;
  }

  lemma BatchPublished(c: Config, u: State) returns (v: State)
    requires c.z.Inverse() && Inv(c, u) && u.send.Decoding? && u.send.pos == |u.send.raw| && u.send.chunks != []
    requires AllFinite(c, u.send.raw) && u.waiters == NO_WAITERS
    ensures Next(c, u, v, OnPublish) && Inv(c, v) && v.send.Sending?
    ensures u.send.raw != [] && v.send.head == u.send.raw[0].seqNo
    ensures v.waiters == Register(NO_WAITERS, v.send.msg) && v.msgs == u.msgs + [v.send.msg]
  {
    hide Inv;
    hide NonFiniteRow;
    hide MessageOf;
    hide Marshalable;
    PublishableIff(c, u);
    v :| Publish(c, u, v);
    assert Next(c, u, v, OnPublish);
    StepKeeps(c, u, v, OnPublish);
  }

  lemma OldestIsLive(d: Disk)
    requires d.rows != []
    ensures d.rows[0].seqNo in Live(d)
  {
  }

  lemma FewerRows(c: Config, s: State, t: State, q: nat)
    requires Inv(c, s) && Inv(c, t) && Progressed(c, s, t) && q in Live(s.disk) && q !in Live(t.disk)
    ensures |t.disk.rows| < |s.disk.rows|
  {
    hide DecodeBlob;
    hide Held;
    ConsistentNow(c, s);
    ConsistentNow(c, t);
    hide Inv;
    AscendingSize(s.disk.rows);
    AscendingSize(t.disk.rows);
    assert Live(t.disk) <= Live(s.disk);
    SubsetSize(Live(t.disk), Live(s.disk));
  }

  // ---------------------------------------------------------------------------
  // Draining

  lemma {:induction false} DrainsFromRest(c: Config, s: State) returns (t: State)
    requires c.z.Inverse() && Inv(c, s) && Sound(c, s) && s.send == SendIdle && AllFinite(c, s.disk.rows)
    ensures Reaches(c, s, t) && t.disk.rows == []
    decreases |s.disk.rows|
  {
    hide Inv;
    hide Sound;
    hide Reaches;
    hide NonFiniteRow;
    if s.disk.rows == [] {
      t := s;
      ReachesSelf(c, s);
    } else {
      var u := OneDispatch(c, s);
      ReachesProgress(c, s, u);
      FiniteKept(c, s, u);
      t := DrainsFromRest(c, u);
      ReachesTrans(c, s, u, t);
    }
  }

  lemma FiniteKept(c: Config, s: State, t: State)
    requires Progressed(c, s, t) && AllFinite(c, s.disk.rows)
    ensures AllFinite(c, t.disk.rows)
  {
    hide NonFiniteRow;
  }

  /** Every row stored in s is gone in t, and all that could be decoded is with the server. */
  ghost predicate Drained(c: Config, s: State, t: State) {
    && t.disk.streamId == s.disk.streamId
    && (forall q <- Live(t.disk) :: q >= s.disk.nextSeq)
    && (forall r <- s.disk.rows :: DecodeBlob(c.z, r.blob).Some? ==> KeyFor(c, s.disk, r.seqNo) in Held(t))
  }

  /** Some continuation without eviction, damage or a new file drains the queue. */
  ghost predicate CanDrain(c: Config, s: State) {
    exists run: Run :: LeadsToDrained(c, s, run)
  }

  ghost predicate LeadsToDrained(c: Config, s: State, run: Run) {
    && Steps(c, run) && run.states[0] == s && Drained(c, s, run.states[|run.events|])
    && forall e <- run.events :: Undisturbed(e)
  }

  /** From every reachable state, whatever the forwarder is doing, the queue can be drained into
      the server without eviction, damage or a new file, if and only if no stored row holds a
      NaN or infinite value. */
  lemma DrainsIff(c: Config, run: Run, i: nat)
    requires IsRun(c, run) && i < |run.states|
    ensures CanDrain(c, run.states[i]) <==> AllFinite(c, run.states[i].disk.rows)
  {
    hide Inv;
    hide Sound;
    hide Next;
    hide Init;
    hide CanDrain;
    hide NonFiniteRow;
    InvariantHolds(c, run, i);
    SoundHolds(c, run, i);
    hide Steps;
    var s := run.states[i];
    if AllFinite(c, s.disk.rows) {
      FiniteDrains(c, s);
    } else {
      var r :| r in s.disk.rows && NonFiniteRow(c, r);
      CannotDrain(c, s, r);
    }
  }

  lemma FiniteDrains(c: Config, s: State)
    requires c.z.Inverse() && Inv(c, s) && Sound(c, s) && AllFinite(c, s.disk.rows)
    ensures CanDrain(c, s)
  {
    hide Inv;
    hide Sound;
    hide Reaches;
    hide NonFiniteRow;
    hide CanDrain;
    var u := ReachesIdle(c, s);
    ReachesProgress(c, s, u);
    FiniteKept(c, s, u);
    var t := DrainsFromRest(c, u);
    ReachesTrans(c, s, u, t);
    ReachesProgress(c, s, t);
    EmptyIsDrained(c, s, t);
    hide Progressed;
    DrainedPath(c, s, t);
  }

  lemma EmptyIsDrained(c: Config, s: State, t: State)
    requires Progressed(c, s, t) && t.disk.rows == []
    ensures Drained(c, s, t)
  {
    hide DecodeBlob;
    hide Held;
  }

  lemma DrainedPath(c: Config, s: State, t: State)
    requires Reaches(c, s, t) && Drained(c, s, t)
    ensures CanDrain(c, s)
  {
    hide Drained;
    hide Next;
    var run: Run :| IsPath(c, s, t, run);
    assert LeadsToDrained(c, s, run);
  }

  lemma CannotDrain(c: Config, s: State, r: Row)
    requires c.z.Inverse() && Inv(c, s) && Sound(c, s) && r in s.disk.rows && NonFiniteRow(c, r)
    ensures !CanDrain(c, s)
  {
    hide Inv;
    hide Sound;
    hide NonFiniteRow;
    hide LeadsToDrained;
    forall run: Run ensures !LeadsToDrained(c, s, run) {
      StuckPath(c, s, r, run);
    }
  }

  lemma StuckPath(c: Config, s: State, r: Row, run: Run)
    requires c.z.Inverse() && Inv(c, s) && Sound(c, s) && r in s.disk.rows && NonFiniteRow(c, r)
    ensures !LeadsToDrained(c, s, run)
  {
    hide Sound;
    hide NonFiniteRow;
    hide Drained;
    hide Inv;
    hide Next;
    hide Undisturbed;
    if LeadsToDrained(c, s, run) {
      var t := run.states[|run.events|];
      StaysAlong(c, run, |run.events|, r);
      ConsistentNow(c, s);
      NotDrained(c, s, t, r);
    }
  }

  lemma NotDrained(c: Config, s: State, t: State, r: Row)
    requires Consistent(s.disk) && r in s.disk.rows && r in t.disk.rows
    ensures !Drained(c, s, t)
  {
    hide DecodeBlob;
    hide Held;
    assert r.seqNo in Live(t.disk);
  }
}
