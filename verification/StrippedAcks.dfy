/** As long as the file is not replaced there is only one stream, and acks may lose their stream
    id as they please: nothing vanishes. */
module StrippedAcks {
  import opened Ints
  import opened QueueModel
  import opened ChunkCodec
  import opened Wire
  import opened IngestServer
  import opened AckMatching
  import opened Delivery
  import opened DeliveryTheorems
  import opened AnonymousAck

  /** A step of the protocol with the file in place, or an ack that arrives stripped. */
  ghost predicate StepOrStripped(c: Config, s: State, s': State, e: Event) {
    || (Next(c, s, s', e) && !e.OnReplaceFile?)
    || (e.OnAckArrives? && StrippedAckArrives(c, s, s', e.a))
  }

  ghost predicate IsStrippedRun(c: Config, run: Run) {
    && c.z.Inverse()
    && |run.states| == |run.events| + 1
    && Init(c, run.states[0])
    && forall i :: 0 <= i < |run.events| ==> StepOrStripped(c, run.states[i], run.states[i + 1], run.events[i])
  }

  // ---------------------------------------------------------------------------
  // Everything is of one stream

  ghost predicate OneStream(s: State) {
    && (forall a <- s.acks :: a.streamId == s.disk.streamId)
    && (forall m <- s.msgs :: m.streamId == s.disk.streamId)
    && s.waiters.pending.Keys == s.waiters.stream.Keys
    && (forall q <- s.waiters.stream :: s.waiters.stream[q] == s.disk.streamId)
  }

  /** Steps that change messages, acks or waiters. */
  ghost predicate Communicates(e: Event) {
    || e.OnPublish? || e.OnSendFails? || e.OnSendReturns? || e.OnServerHandles? || e.OnAckArrives? || e.OnCrash?
    || e.OnReplaceFile?
  }

  lemma QuietFrame(c: Config, s: State, s': State, e: Event)
    requires Next(c, s, s', e) && !Communicates(e)
    ensures s'.msgs == s.msgs && s'.acks == s.acks && s'.waiters == s.waiters
  {
    hide DecodeBlob;
    hide DeleteThrough;
    hide Discard;
    hide Insert;
    hide Scan;
    hide Seal;
    hide TrimBacklog;
    hide SumRows;
    hide UpTo;
    hide RowSeqs;
  }

  lemma OneStreamStep(c: Config, s: State, s': State, e: Event)
    requires OneStream(s) && StepOrStripped(c, s, s', e)
    ensures OneStream(s') && s'.disk.streamId == s.disk.streamId
  {
    if Next(c, s, s', e) && !e.OnReplaceFile? {
      DiskFrame(c, s, s', e);
      if Communicates(e) {
        SpokenStep(c, s, s', e);
      } else {
        QuietFrame(c, s, s', e);
      }
    }
    hide Next;
  }

  lemma SpokenStep(c: Config, s: State, s': State, e: Event)
    requires OneStream(s) && Next(c, s, s', e) && Communicates(e) && !e.OnReplaceFile?
    ensures OneStream(s')
  {
    hide HandleMessage;
    hide Stores;
    hide Marshalable;
    match e {
      case OnServerHandles(i, settings, writeError) =>
        HandleEffect(s.server, settings, s.msgs[i], writeError);
        assert s.msgs[i] in s.msgs;
      case _ =>
    }
  }

  // ---------------------------------------------------------------------------
  // The same run with the names put back

  function NamedAck(o: Option<Ack>, stream: string): Option<Ack> {
    if o.Some? then Some(o.value.(streamId := stream)) else None
  }

  function NamedWaiters(w: Waiters, stream: string): Waiters {
    w.(pending := map q <- w.pending :: NamedAck(w.pending[q], stream))
  }

  function Named(s: State): State {
    s.(waiters := NamedWaiters(s.waiters, s.disk.streamId))
  }

  /** A step that leaves the waiters alone does not look at them. */
  lemma QuietNamed(c: Config, s: State, s': State, e: Event, w: Waiters)
    requires Next(c, s, s', e) && !Communicates(e)
    ensures Next(c, s.(waiters := w), s'.(waiters := w), e)
  {
    hide DecodeBlob;
    hide DeleteThrough;
    hide Discard;
    hide Insert;
    hide Scan;
    hide Seal;
    hide TrimBacklog;
    hide SumRows;
    hide UpTo;
    hide RowSeqs;
    hide KeysOfRows;
    CommittedNamed(c, s, w);
    hide Committed;
  }

  lemma CommittedNamed(c: Config, s: State, w: Waiters)
    ensures Committed(c, s.(waiters := w)) == Committed(c, s)
  {
  }

  lemma RegisterNamed(w: Waiters, m: Message, stream: string)
    ensures NamedWaiters(Register(w, m), stream) == Register(NamedWaiters(w, stream), m)
    ensures NamedWaiters(Unregister(w, m), stream) == Unregister(NamedWaiters(w, stream), m)
    ensures NamedWaiters(NO_WAITERS, stream) == NO_WAITERS
  {
    assert NamedWaiters(Register(w, m), stream).pending == Register(NamedWaiters(w, stream), m).pending;
    assert NamedWaiters(Unregister(w, m), stream).pending == Unregister(NamedWaiters(w, stream), m).pending;
  }

  /** An ack of the stream, with or without its name, does the same once the name is back. */
  lemma HandleNamed(w: Waiters, a: Ack, a': Ack, stream: string)
    requires w.pending.Keys == w.stream.Keys && (forall q <- w.stream :: w.stream[q] == stream)
    requires a.streamId == stream && (a' == a || a' == a.(streamId := ""))
    ensures NamedWaiters(HandleAck(w, a'), stream) == HandleAck(NamedWaiters(w, stream), a)
  {
    assert Matches(w, a') == Matches(NamedWaiters(w, stream), a);
    assert NamedWaiters(HandleAck(w, a'), stream).pending == HandleAck(NamedWaiters(w, stream), a).pending;
  }

  lemma SpokenNamed(c: Config, s: State, s': State, e: Event)
    requires OneStream(s) && Next(c, s, s', e) && Communicates(e) && !e.OnReplaceFile?
    ensures Next(c, Named(s), Named(s'), e)
  {
    hide HandleMessage;
    hide Stores;
    hide Marshalable;
    hide MessageOf;
    hide Register;
    hide Unregister;
    hide HandleAck;
    DiskFrame(c, s, s', e);
    var stream := s.disk.streamId;
    match e {
      case OnPublish =>
        RegisterNamed(s.waiters, s'.send.msg, stream);
        hide NamedWaiters;
        assert Publish(c, Named(s), Named(s'));
      case OnSendFails =>
        RegisterNamed(s.waiters, s.send.msg, stream);
        hide NamedWaiters;
        assert SendFails(c, Named(s), Named(s'));
      case OnSendReturns =>
        RegisterNamed(s.waiters, s.send.msg, stream);
        assert SendReturns(c, Named(s), Named(s'));
      case OnServerHandles(i, settings, writeError) =>
        hide NamedWaiters;
        assert ServerHandles(c, Named(s), Named(s'), i, settings, writeError);
      case OnAckArrives(a) =>
        HandleNamed(s.waiters, a, a, stream);
        hide NamedWaiters;
        assert AckArrives(c, Named(s), Named(s'), a);
      case OnCrash =>
        RegisterNamed(s.waiters, Message("", "", 0, 0, []), stream);
        hide NamedWaiters;
        assert Crash(c, Named(s), Named(s'));
      case _ =>
    }
  }

  lemma NamedStep(c: Config, s: State, s': State, e: Event)
    requires OneStream(s) && StepOrStripped(c, s, s', e)
    ensures Next(c, Named(s), Named(s'), e)
  {
    hide NamedWaiters;
    hide HandleAck;
    if Next(c, s, s', e) && !e.OnReplaceFile? {
      DiskFrame(c, s, s', e);
      if Communicates(e) {
        SpokenNamed(c, s, s', e);
      } else {
        QuietFrame(c, s, s', e);
        QuietNamed(c, s, s', e, NamedWaiters(s.waiters, s.disk.streamId));
      }
    } else {
      HandleNamed(s.waiters, e.a, e.a.(streamId := ""), s.disk.streamId);
      assert AckArrives(c, Named(s), Named(s'), e.a);
    }
  }

  ghost function NamedRun(run: Run): (named: Run)
    ensures |named.states| == |run.states| && named.events == run.events
    ensures forall i :: 0 <= i < |run.states| ==> named.states[i] == Named(run.states[i])
  {
    Run(seq(|run.states|, i requires 0 <= i < |run.states| => Named(run.states[i])), run.events)
  }

  lemma {:induction false} AllOneStream(c: Config, run: Run, i: nat)
    requires IsStrippedRun(c, run) && i < |run.states|
    ensures OneStream(run.states[i])
  {
    hide StepOrStripped;
    if i > 0 {
      AllOneStream(c, run, i - 1);
      OneStreamStep(c, run.states[i - 1], run.states[i], run.events[i - 1]);
    }
  }

  lemma NamedIsRun(c: Config, run: Run)
    requires IsStrippedRun(c, run)
    ensures IsRun(c, NamedRun(run))
  {
    hide Next;
    hide StepOrStripped;
    hide OneStream;
    var named := NamedRun(run);
    RegisterNamed(NO_WAITERS, Message("", "", 0, 0, []), run.states[0].disk.streamId);
    hide NamedWaiters;
    forall i | 0 <= i < |run.events| ensures Next(c, named.states[i], named.states[i + 1], named.events[i]) {
      AllOneStream(c, run, i);
      NamedStep(c, run.states[i], run.states[i + 1], run.events[i]);
    }
  }

  /** Any number of acks may arrive without their stream id: while the file is not replaced,
      every chunk ever committed is still where NothingVanishes says. */
  lemma NothingVanishesOnOneFile(c: Config, run: Run, i: nat, k: ChunkKey)
    requires IsStrippedRun(c, run) && i < |run.states| && k in run.states[i].hist.committed
    ensures var s := run.states[i];
            || InTable(c, s, k)
            || AtServer(s, k, s.hist.committed[k])
            || k in s.hist.evicted || k in s.hist.discarded || k in s.hist.lost
  {
    NamedIsRun(c, run);
    NothingVanishes(c, NamedRun(run), i, k);
    hide IsRun;
    hide IsStrippedRun;
    hide StoredOnce;
    hide DecodeBlob;
    hide NamedWaiters;
  }
}
