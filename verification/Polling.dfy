/** One connection's polling goroutine: what it does on the bus and what it emits, over every
    run up to the moment it is cancelled. */
module Polling {
  import opened Ints
  import opened BlockPlan
  import opened BlockPlanner
  import opened BlockReads

  datatype Device = Device(id: Int64, slaveId: Byte, points: seq<DataPoint>)

  datatype ReadResult = Data(bytes: seq<Byte>) | ReadError(quality: BadQuality)

  datatype Event =
    | Connect(ok: bool)
    | SetUnit(unit: Byte)
    | Read(functionCode: Byte, start: int, quantity: int)
    | Emit(reading: Reading)
    | Close

  /** The k-th connect attempt fails with a quality or succeeds; the k-th read answers; the
      context is cancelled from its cancelAt-th inspection on. A wait that has run out may
      win over a cancellation that is also due. */
  datatype Environment = Environment(
    connect: nat -> Option<BadQuality>,
    read: nat -> ReadResult,
    cancelAt: nat,
    timerWins: nat -> bool)

  // ---------------------------------------------------------------------------
  // Events of one block, one device visit, one failed connect

  ghost function Answer(d: Device, b: Block, r: ReadResult, p: DataPoint): Reading
    requires 0 <= b.start < TWO16
  {
    match r
    case Data(bytes) => FromBlock(d.id, p, bytes, b.start)
    case ReadError(q) => BadReading(d.id, p, q)
  }

  ghost function Answers(d: Device, b: Block, r: ReadResult): (out: seq<Reading>)
    requires 0 <= b.start < TWO16
    ensures |out| == |b.points|
  {
    seq(|b.points|, i requires 0 <= i < |b.points| => Answer(d, b, r, b.points[i]))
  }

  function Emits(rs: seq<Reading>): (out: seq<Event>)
    ensures |out| == |rs|
  {
    seq(|rs|, i requires 0 <= i < |rs| => Emit(rs[i]))
  }

  ghost predicate Addressable(bs: seq<Block>) {
    forall b <- bs :: 0 <= b.start < TWO16
  }

  /** The readings of a visit, block by block. */
  ghost function VisitReadings(d: Device, bs: seq<Block>, results: seq<ReadResult>): seq<Reading>
    requires |results| == |bs| && Addressable(bs)
  {
    if bs == [] then []
    else
      var n := |bs| - 1;
      VisitReadings(d, bs[..n], results[..n]) + Answers(d, bs[n], results[n])
  }

  ghost function VisitEvents(d: Device, bs: seq<Block>, results: seq<ReadResult>): seq<Event>
    requires |results| == |bs| && Addressable(bs)
  {
    if bs == [] then []
    else
      var n := |bs| - 1;
      VisitEvents(d, bs[..n], results[..n])
      + [Read(bs[n].functionCode, bs[n].start, bs[n].quantity)] + Emits(Answers(d, bs[n], results[n]))
  }

  function OfflineReadings(d: Device, q: BadQuality): (out: seq<Reading>)
    ensures |out| == |d.points|
  {
    seq(|d.points|, i requires 0 <= i < |d.points| => BadReading(d.id, d.points[i], q))
  }

  function OfflineEvents(ds: seq<Device>, q: BadQuality): seq<Event> {
    if ds == [] then [] else OfflineEvents(ds[..|ds| - 1], q) + Emits(OfflineReadings(ds[|ds| - 1], q))
  }

  ghost predicate PlannedVisit(d: Device, bs: seq<Block>, results: seq<ReadResult>) {
    && |results| == |bs| && Addressable(bs)
    && forall fc: Byte :: PlannedFrom(BlocksFor(bs, fc), GroupOf(d.points, fc), fc)
  }

  // ---------------------------------------------------------------------------
  // readDevice

  method EmitBlock(d: Device, b: Block, r: ReadResult) returns (events: seq<Event>)
    requires 0 <= b.start < TWO16
    ensures events == Emits(Answers(d, b, r))
  {
    events := [];
    for i := 0 to |b.points|
      invariant events == Emits(Answers(d, b, r))[..i]
    {
      var reading;
      match r {
        case Data(bytes) => reading := DecodeAndEmit(d.id, b.points[i], bytes, b.start);
        case ReadError(q) => reading := BadReading(d.id, b.points[i], q);
      }
      events := events + [Emit(reading)];
    }
  }

  method ReadDevice(env: Environment, d: Device, firstRead: nat)
    returns (events: seq<Event>, blocks: seq<Block>, results: seq<ReadResult>, readCount: nat)
    ensures PlannedVisit(d, blocks, results)
    ensures forall i :: 0 <= i < |results| ==> results[i] == env.read(firstRead + i)
    ensures events == VisitEvents(d, blocks, results) && readCount == |Flat(blocks)|
  {
    hide PlannedFrom;
    hide BlocksFor;
    hide GroupOf;
    hide Answers;
    hide Emits;
    NothingVisited(d);
    hide VisitEvents;
    hide Flat;
    blocks := PlanBlockReads(d.points);
    PlanAddressable(blocks, d.points);
    events, results, readCount := [], [], 0;
    assert blocks[..0] == [];
    for i := 0 to |blocks|
      invariant |results| == i && Addressable(blocks[..i])
      invariant forall j :: 0 <= j < i ==> results[j] == env.read(firstRead + j)
      invariant events == VisitEvents(d, blocks[..i], results) && readCount == |Flat(blocks[..i])|
    {
      var b := blocks[i];
      var r := env.read(firstRead + i);
      var emitted := EmitBlock(d, b, r);
      assert blocks[..i + 1] == blocks[..i] + [b];
      FlatSnoc(blocks[..i], b);
      VisitSnoc(d, blocks[..i], results, b, r);
      results := results + [r];
      events := events + [Read(b.functionCode, b.start, b.quantity)] + emitted;
      readCount := readCount + |b.points|;
    }
    assert blocks[..|blocks|] == blocks;
  }

  lemma NothingVisited(d: Device)
    ensures VisitEvents(d, [], []) == [] && Flat([]) == []
  {
  }

  lemma VisitSnoc(d: Device, bs: seq<Block>, results: seq<ReadResult>, b: Block, r: ReadResult)
    requires |results| == |bs| && Addressable(bs) && 0 <= b.start < TWO16
    ensures Addressable(bs + [b])
    ensures VisitEvents(d, bs + [b], results + [r]) ==
            VisitEvents(d, bs, results) + [Read(b.functionCode, b.start, b.quantity)] + Emits(Answers(d, b, r))
    ensures VisitReadings(d, bs + [b], results + [r]) == VisitReadings(d, bs, results) + Answers(d, b, r)
  {
    assert (bs + [b])[..|bs|] == bs && (results + [r])[..|results|] == results;
  }

  /** Every planned block starts at a register address. */
  lemma PlanAddressable(bs: seq<Block>, ps: seq<DataPoint>)
    requires forall fc: Byte :: PlannedFrom(BlocksFor(bs, fc), GroupOf(ps, fc), fc)
    ensures Addressable(bs)
  {
    hide PlannedFrom;
    hide GroupOf;
    forall b | b in bs ensures 0 <= b.start < TWO16 {
      var fc := b.functionCode;
      InBlocksFor(bs, b);
      assert PlannedFrom(BlocksFor(bs, fc), GroupOf(ps, fc), fc);
      GroupAddressable(BlocksFor(bs, fc), GroupOf(ps, fc), fc, b);
    }
  }

  lemma {:induction false} InBlocksFor(bs: seq<Block>, b: Block)
    requires b in bs
    ensures b in BlocksFor(bs, b.functionCode)
  {
    var n := |bs| - 1;
    if bs[n] != b {
      assert bs == bs[..n] + [bs[n]];
      InBlocksFor(bs[..n], b);
    }
  }

  lemma GroupAddressable(bs: seq<Block>, group: seq<DataPoint>, fc: Byte, b: Block)
    requires PlannedFrom(bs, group, fc) && b in bs
    ensures 0 <= b.start < TWO16
  {
    if BitAccess(fc) {
      SinglesAddressable(fc, KnownOf(group), b);
    } else {
      var g :| Sorted(g) && multiset(g) == multiset(group) && bs == Blocks(Merge(fc, KnownOf(g)));
      KnownSorted(g);
      CoverageIff(fc, KnownOf(g));
      assert CodeShape(b);
    }
  }

  lemma {:induction false} SinglesAddressable(fc: Byte, ks: seq<DataPoint>, b: Block)
    requires b in Singles(fc, ks)
    ensures 0 <= b.start < TWO16
  {
    var n := |ks| - 1;
    if b in Singles(fc, ks[..n]) {
      SinglesAddressable(fc, ks[..n], b);
    }
  }

  // ---------------------------------------------------------------------------
  // Whole runs

  datatype Segment =
    | FailedConnect(quality: BadQuality)
    | Connected
    | Visit(index: nat, blocks: seq<Block>, results: seq<ReadResult>)

  ghost predicate SegmentOk(ds: seq<Device>, g: Segment) {
    g.Visit? ==> g.index < |ds| && PlannedVisit(ds[g.index], g.blocks, g.results)
  }

  /** Round robin over the devices, and only once connected. */
  ghost predicate Follows(ds: seq<Device>, g: Segment, next: Segment) {
    match next
    case FailedConnect(_) => g.FailedConnect?
    case Connected => g.FailedConnect?
    case Visit(i, _, _) =>
      || (g.Connected? && i == 0)
      || (g.Visit? && i == if g.index + 1 == |ds| then 0 else g.index + 1)
  }

  ghost predicate Orderly(ds: seq<Device>, segs: seq<Segment>) {
    && (forall g <- segs :: SegmentOk(ds, g))
    && (segs != [] ==> !segs[0].Visit?)
    && forall i :: 0 <= i < |segs| - 1 ==> Follows(ds, segs[i], segs[i + 1])
  }

  ghost function Render(ds: seq<Device>, g: Segment): seq<Event>
    requires SegmentOk(ds, g)
  {
    match g
    case FailedConnect(q) => [Connect(false)] + OfflineEvents(ds, q)
    case Connected => [Connect(true)]
    case Visit(i, bs, results) => [SetUnit(ds[i].slaveId)] + VisitEvents(ds[i], bs, results)
  }

  ghost function RenderAll(ds: seq<Device>, segs: seq<Segment>): seq<Event>
    requires forall g <- segs :: SegmentOk(ds, g)
  {
    if segs == [] then []
    else RenderAll(ds, segs[..|segs| - 1]) + Render(ds, segs[|segs| - 1])
  }

  lemma OrderlySnoc(ds: seq<Device>, segs: seq<Segment>, g: Segment)
    requires Orderly(ds, segs) && SegmentOk(ds, g)
    requires if segs == [] then !g.Visit? else Follows(ds, segs[|segs| - 1], g)
    ensures Orderly(ds, segs + [g]) && RenderAll(ds, segs + [g]) == RenderAll(ds, segs) + Render(ds, g)
  {
    hide Render;
    hide SegmentOk;
    hide Follows;
    var all := segs + [g];
    assert all[..|segs|] == segs;
    forall i | 0 <= i < |all| - 1 ensures Follows(ds, all[i], all[i + 1]) {
      assert all[i] == segs[i];
      if i + 1 < |segs| {
        assert all[i + 1] == segs[i + 1];
      }
    }
  }

  // ---------------------------------------------------------------------------
  // What the environment answered

  function Connects(segs: seq<Segment>): nat {
    if segs == [] then 0
    else Connects(segs[..|segs| - 1]) + if segs[|segs| - 1].Visit? then 0 else 1
  }

  function ReadsIn(segs: seq<Segment>): nat {
    if segs == [] then 0
    else
      var last := segs[|segs| - 1];
      ReadsIn(segs[..|segs| - 1]) + if last.Visit? then |last.results| else 0
  }

  /** The segment's outcome is the environment's answer to its connect or its reads. */
  ghost predicate AnswersSegment(env: Environment, g: Segment, connects: nat, readsBefore: nat) {
    match g
    case FailedConnect(q) => env.connect(connects) == Some(q)
    case Connected => env.connect(connects).None?
    case Visit(_, _, results) => forall i :: 0 <= i < |results| ==> results[i] == env.read(readsBefore + i)
  }

  ghost predicate Answered(env: Environment, segs: seq<Segment>) {
    segs != [] ==>
      var init := segs[..|segs| - 1];
      Answered(env, init) && AnswersSegment(env, segs[|segs| - 1], Connects(init), ReadsIn(init))
  }

  lemma AnsweredSnoc(env: Environment, segs: seq<Segment>, g: Segment)
    requires Answered(env, segs) && AnswersSegment(env, g, Connects(segs), ReadsIn(segs))
    ensures Answered(env, segs + [g])
    ensures Connects(segs + [g]) == Connects(segs) + if g.Visit? then 0 else 1
    ensures ReadsIn(segs + [g]) == ReadsIn(segs) + if g.Visit? then |g.results| else 0
  {
    hide AnswersSegment;
    assert (segs + [g])[..|segs|] == segs;
  }

  // ---------------------------------------------------------------------------

  /** Where the goroutine is: events so far, their segments, inspections of the context,
      connects and reads done. */
  datatype Progress = Progress(events: seq<Event>, segs: seq<Segment>, ticks: nat, connects: nat, readsDone: nat)

  ghost predicate Traced(env: Environment, ds: seq<Device>, p: Progress) {
    && Orderly(ds, p.segs) && p.events == RenderAll(ds, p.segs)
    && Answered(env, p.segs) && p.connects == Connects(p.segs) && p.readsDone == ReadsIn(p.segs)
    && |p.segs| <= p.ticks && |p.segs| <= env.cancelAt
  }

  predicate OnlyFailures(segs: seq<Segment>) {
    segs == [] || segs[|segs| - 1].FailedConnect?
  }

  /** The device the next visit goes to. */
  predicate NextIs(ds: seq<Device>, segs: seq<Segment>, i: nat) {
    segs != [] &&
    match segs[|segs| - 1]
    case FailedConnect(_) => false
    case Connected => i == 0
    case Visit(j, _, _) => i == if j + 1 == |ds| then 0 else j + 1
  }

  /** Visits to the first devices, in order, follow `before`. */
  ghost predicate VisitsFollow(before: seq<Segment>, segs: seq<Segment>, n: nat) {
    && |segs| == |before| + n && before <= segs
    && forall j :: |before| <= j < |segs| ==> segs[j].Visit? && segs[j].index == j - |before|
  }

  lemma VisitsFollowSnoc(before: seq<Segment>, segs: seq<Segment>, n: nat, g: Segment)
    requires VisitsFollow(before, segs, n) && g.Visit? && g.index == n
    ensures VisitsFollow(before, segs + [g], n + 1)
  {
  }

  /** One more segment: the trace stays in step with its events and its answers. */
  lemma TracedSnoc(env: Environment, ds: seq<Device>, p: Progress, g: Segment, q: Progress)
    requires Traced(env, ds, p) && SegmentOk(ds, g)
    requires if p.segs == [] then !g.Visit? else Follows(ds, p.segs[|p.segs| - 1], g)
    requires AnswersSegment(env, g, p.connects, p.readsDone)
    requires q.events == p.events + Render(ds, g) && q.segs == p.segs + [g]
    requires q.connects == p.connects + (if g.Visit? then 0 else 1)
    requires q.readsDone == p.readsDone + (if g.Visit? then |g.results| else 0)
    requires |p.segs| < q.ticks && |p.segs| < env.cancelAt
    ensures Traced(env, ds, q)
  {
    hide Orderly;
    hide Render;
    hide SegmentOk;
    hide Follows;
    hide AnswersSegment;
    hide Answered;
    OrderlySnoc(ds, p.segs, g);
    hide RenderAll;
    AnsweredSnoc(env, p.segs, g);
  }

  /** One turn of the loop over the devices: the unit id is set and the device read. */
  method VisitDevice(env: Environment, ds: seq<Device>, i: nat, p: Progress) returns (q: Progress, readCount: nat)
    requires Traced(env, ds, p) && NextIs(ds, p.segs, i) && i < |ds|
    requires |p.segs| < p.ticks <= env.cancelAt
    ensures Traced(env, ds, q) && q.ticks == p.ticks && NextIs(ds, q.segs, if i + 1 == |ds| then 0 else i + 1)
    ensures |q.segs| == |p.segs| + 1 && p.segs <= q.segs
    ensures q.segs[|p.segs|].Visit? && q.segs[|p.segs|].index == i
  {
    hide Orderly;
    hide RenderAll;
    hide Answered;
    var events, blocks, results;
    events, blocks, results, readCount := ReadDevice(env, ds[i], p.readsDone);
    var g := Visit(i, blocks, results);
    q := Progress(p.events + ([SetUnit(ds[i].slaveId)] + events), p.segs + [g], p.ticks, p.connects, p.readsDone + |blocks|);
    hide VisitEvents;
    hide PlannedVisit;
    TracedSnoc(env, ds, p, g, q);
  }

  /** One pass over the devices: an uninterrupted one visits each of them exactly once, in
      order; `stopped` when cancelled in between, and only then. */
  method Pass(env: Environment, ds: seq<Device>, delayMs: int, start: Progress)
    returns (p: Progress, stopped: bool, visits: nat)
    requires Traced(env, ds, start) && NextIs(ds, start.segs, 0)
    ensures Traced(env, ds, p) && VisitsFollow(start.segs, p.segs, visits)
    ensures !stopped ==> visits == |ds| && NextIs(ds, p.segs, 0)
    ensures stopped ==> p.ticks > env.cancelAt
    ensures start.ticks <= p.ticks <= start.ticks + 2 * visits + (if stopped then 1 else 0)
  {
    hide Orderly;
    hide RenderAll;
    hide Answered;
    hide NextIs;
    p, stopped, visits := start, false, 0;
    for i := 0 to |ds|
      invariant visits == i && Traced(env, ds, p) && VisitsFollow(start.segs, p.segs, i)
      invariant NextIs(ds, p.segs, if i == |ds| then 0 else i)
      invariant start.ticks <= p.ticks <= start.ticks + 2 * i
    {
      p := p.(ticks := p.ticks + 1);
      if p.ticks > env.cancelAt {
        return p, true, i;
      }
      var q, readCount := VisitDevice(env, ds, i, p);
      assert q.segs == p.segs + [q.segs[|p.segs|]];
      VisitsFollowSnoc(start.segs, p.segs, i, q.segs[|p.segs|]);
      p, visits := q, i + 1;
      if readCount > 0 && delayMs > 0 {
        p := p.(ticks := p.ticks + 1);
        if p.ticks > env.cancelAt && !env.timerWins(p.ticks) {
          return p, true, i + 1;
        }
      }
    }
  }

  /** Connect, or emit a bad reading for every point and start a wait. */
  method TryConnect(env: Environment, ds: seq<Device>, p: Progress) returns (q: Progress, ok: bool)
    requires Traced(env, ds, p) && OnlyFailures(p.segs) && |p.segs| < p.ticks <= env.cancelAt
    ensures Traced(env, ds, q) && |q.segs| == |p.segs| + 1
    ensures ok <==> env.connect(p.connects).None?
    ensures if ok then NextIs(ds, q.segs, 0) && q.ticks == p.ticks else OnlyFailures(q.segs) && q.ticks == p.ticks + 1
  {
    hide Orderly;
    hide RenderAll;
    hide Answered;
    var failure := env.connect(p.connects);
    ok := failure.None?;
    if ok {
      q := Progress(p.events + [Connect(true)], p.segs + [Connected], p.ticks, p.connects + 1, p.readsDone);
      TracedSnoc(env, ds, p, Connected, q);
    } else {
      var offline := EmitOffline(ds, failure.value);
      q := Progress(p.events + ([Connect(false)] + offline), p.segs + [FailedConnect(failure.value)],
                    p.ticks + 1, p.connects + 1, p.readsDone);
      TracedSnoc(env, ds, p, FailedConnect(failure.value), q);
    }
  }

  /** runConnectionWithClient: the events of a run are those of whole segments and a Close,
      with the environment's answers. A cancellation is acted on between device visits only,
      and promptly; and nothing else ends the run, so it does work up to then. */
  method RunConnection(env: Environment, ds: seq<Device>, delayMs: int) returns (events: seq<Event>, segs: seq<Segment>)
    ensures Orderly(ds, segs) && events == RenderAll(ds, segs) + [Close] && Answered(env, segs)
    ensures |segs| <= env.cancelAt
    ensures ds != [] ==> env.cancelAt <= 4 * |segs| + 1
  {
    hide Orderly;
    hide RenderAll;
    hide Answered;
    var p := Progress([], [], 0, 0, 0);
    NothingYet(env, ds);
    var connected := false;
    while true
      invariant Traced(env, ds, p)
      invariant if connected then NextIs(ds, p.segs, 0) else OnlyFailures(p.segs)
      invariant ds != [] ==> p.ticks <= 4 * |p.segs|
      decreases env.cancelAt - p.ticks
    {
      p := p.(ticks := p.ticks + 1);
      if p.ticks > env.cancelAt {
        return p.events + [Close], p.segs;
      }
      if !connected {
        p, connected := TryConnect(env, ds, p);
        if !connected {
          if p.ticks > env.cancelAt && !env.timerWins(p.ticks) {
            return p.events + [Close], p.segs;
          }
          continue;
        }
      }
      var stopped, visits;
      p, stopped, visits := Pass(env, ds, delayMs, p);
      if stopped {
        return p.events + [Close], p.segs;
      }
      p := p.(ticks := p.ticks + 1);
      if p.ticks > env.cancelAt && !env.timerWins(p.ticks) {
        return p.events + [Close], p.segs;
      }
    }
  }

  lemma NothingYet(env: Environment, ds: seq<Device>)
    ensures Orderly(ds, []) && RenderAll(ds, []) == [] && Answered(env, [])
  {
  }

  lemma OfflineSnoc(ds: seq<Device>, i: nat, q: BadQuality)
    requires i < |ds|
    ensures OfflineEvents(ds[..i + 1], q) == OfflineEvents(ds[..i], q) + Emits(OfflineReadings(ds[i], q))
  {
    assert ds[..i + 1][..i] == ds[..i];
  }

  /** emitDeviceOffline for every device of the connection. */
  method EmitOffline(ds: seq<Device>, q: BadQuality) returns (events: seq<Event>)
    ensures events == OfflineEvents(ds, q)
  {
    events := [];
    assert ds[..0] == [];
    for i := 0 to |ds|
      invariant events == OfflineEvents(ds[..i], q)
    {
      OfflineSnoc(ds, i, q);
      var d := ds[i];
      var some: seq<Event> := [];
      for j := 0 to |d.points|
        invariant some == Emits(OfflineReadings(d, q))[..j]
      {
        assert Emits(OfflineReadings(d, q))[j] == Emit(BadReading(d.id, d.points[j], q));
        some := some + [Emit(BadReading(d.id, d.points[j], q))];
      }
      assert some == Emits(OfflineReadings(d, q));
      events := events + some;
    }
    assert ds[..|ds|] == ds;
  }
}
