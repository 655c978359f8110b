/** What importing an export does, to a fresh gateway and to the one it came from. */
module ConfigRestore {
  import opened Ints
  import opened ConfigIO

  ghost predicate AscendingIds<T>(es: seq<Entry<T>>) {
    (forall i, j :: 0 <= i < j < |es| ==> es[i].id < es[j].id) && forall e <- es :: e.id >= 1
  }

  /** The k-th of ascending positive ids is at least k, counting from one. */
  lemma {:induction false} RankBound(ids: seq<int>, k: nat)
    requires k < |ids| && ids[0] >= 1 && forall i, j :: 0 <= i < j < |ids| ==> ids[i] < ids[j]
    ensures ids[k] >= k + 1
  {
    if k > 0 {
      RankBound(ids, k - 1);
    }
  }

  // ---------------------------------------------------------------------------
  // Connections onto an empty table

  /** Numbered from `first` in the order of the entries. */
  ghost predicate Renumbered<T>(es: seq<Entry<T>>, m: map<int, T>, first: int) {
    && (forall id :: id in m <==> first <= id < first + |es|)
    && forall k :: 0 <= k < |es| ==> m[first + k] == es[k].value
  }

  ghost predicate MapsToRank<T>(es: seq<Entry<T>>, ids: map<int, int>, first: int) {
    && (forall k :: 0 <= k < |es| ==> es[k].id in ids && ids[es[k].id] == first + k)
    && forall id <- ids :: exists e <- es :: e.id == id
  }

  /** No entry's id is one handed out earlier in the import, `first` being the allocator at its
      start. */
  ghost predicate IdsFree<T>(es: seq<Entry<T>>, first: int) {
    forall k :: 0 <= k < |es| ==> !(first <= es[k].id < first + k)
  }

  /** Ascending ids are free when numbering starts at 1, as on new hardware. */
  lemma AscendingIdsFree<T>(es: seq<Entry<T>>)
    requires AscendingIds(es)
    ensures IdsFree(es, 1)
  {
    forall k | 0 <= k < |es| ensures !(1 <= es[k].id < 1 + k) {
      RankOf(es, k);
    }
  }

  /** And so are ids the allocator has passed, as on the emptied gateway they came from. */
  lemma PassedIdsFree<T>(es: seq<Entry<T>>, first: int)
    requires forall e <- es :: e.id < first
    ensures IdsFree(es, first)
  {
    forall k | 0 <= k < |es| ensures !(first <= es[k].id < first + k) {
      assert es[k] in es;
    }
  }

  lemma RenumberedSnoc<T>(es: seq<Entry<T>>, m: map<int, T>, e: Entry<T>, first: int)
    requires Renumbered(es, m, first)
    ensures Renumbered(es + [e], m[first + |es| := e.value], first)
  {
  }

  lemma MapsToRankSnoc<T>(es: seq<Entry<T>>, ids: map<int, int>, e: Entry<T>, first: int)
    requires MapsToRank(es, ids, first) && AscendingIds(es + [e])
    ensures MapsToRank(es + [e], ids[e.id := first + |es|], first)
  {
    var all, ids' := es + [e], ids[e.id := first + |es|];
    forall k | 0 <= k < |all| ensures all[k].id in ids' && ids'[all[k].id] == first + k {
      if k < |es| {
        assert all[k].id < all[|es|].id;
      }
    }
    forall id | id in ids' ensures exists x <- all :: x.id == id {
      if id in ids {
        var x :| x in es && x.id == id;
        assert x in all;
      } else {
        assert e in all;
      }
    }
  }

  /** Where connections end up, whether or not some were overwritten. */
  ghost predicate ConnectionsPut(p: Progress, es: seq<Entry<Connection>>, first: int) {
    && (forall id :: id in p.db.connections <==> first <= id < p.db.nextConnection)
    && first <= p.db.nextConnection <= first + |es|
    && p.counts == NO_COUNTS.(connectionsCreated := p.db.nextConnection - first,
                              connectionsUpdated := first + |es| - p.db.nextConnection)
    && (forall e <- es :: e.id in p.connIds && p.connIds[e.id] in p.db.connections)
  }

  /** All connections are restored, numbered from the allocator on, if and only if no exported
      id was handed out earlier in the import; otherwise one is overwritten and lost. */
  lemma {:induction false} ConnectionsRestoredIff(es: seq<Entry<Connection>>, target: Db)
    requires AscendingIds(es) && target.connections == map[]
    ensures var first := target.nextConnection;
            var p := ImportConnections(Progress(target, NO_COUNTS, map[]), es);
            && ConnectionsPut(p, es, first)
            && (p.counts.connectionsCreated == |es| <==> IdsFree(es, first))
            && (IdsFree(es, first) ==> Renumbered(es, p.db.connections, first) && MapsToRank(es, p.connIds, first))
            && p.db.(connections := map[], nextConnection := first) == target
  {
    hide Renumbered;
    hide MapsToRank;
    hide AscendingIds;
    hide ConnectionsPut;
    hide ImportConnection;
    hide IdsFree;
    var first := target.nextConnection;
    if es == [] {
      NothingRenumbered<Connection>(first);
      NothingPut(target);
    } else {
      var n := |es| - 1;
      var init, e := es[..n], es[n];
      assert es == init + [e];
      AscendingInit(es);
      ConnectionsRestoredIff(init, target);
      RankOf(es, n);
      IdsFreeSnoc(init, e, first);
      var p := ImportConnections(Progress(target, NO_COUNTS, map[]), init);
      PutOneMore(p, init, e, first);
      if IdsFree(es, first) {
        RenumberedSnoc(init, p.db.connections, e, first);
        MapsToRankSnoc(init, p.connIds, e, first);
      }
    }
  }

  lemma NothingPut(target: Db)
    requires target.connections == map[]
    ensures ConnectionsPut(Progress(target, NO_COUNTS, map[]), [], target.nextConnection)
    ensures IdsFree<Connection>([], target.nextConnection)
  {
  }

  /** One connection more: found exactly when its id lies among those handed out. */
  lemma PutOneMore(p: Progress, es: seq<Entry<Connection>>, e: Entry<Connection>, first: int)
    requires ConnectionsPut(p, es, first) && e.id >= 1
    ensures var q := ImportConnection(p, e);
            && ConnectionsPut(q, es + [e], first)
            && (q.db.nextConnection == p.db.nextConnection + 1 <==> !(first <= e.id < p.db.nextConnection))
            && p.db.nextConnection <= q.db.nextConnection <= p.db.nextConnection + 1
            && (q.db.nextConnection == p.db.nextConnection + 1 ==>
                  && q.db == p.db.(connections := p.db.connections[p.db.nextConnection := e.value],
                                   nextConnection := p.db.nextConnection + 1)
                  && q.connIds == p.connIds[e.id := p.db.nextConnection])
            && q.db.(connections := map[], nextConnection := first) == p.db.(connections := map[], nextConnection := first)
            && p.counts.connectionsCreated == p.db.nextConnection - first <= |es|
            && q.counts.connectionsCreated == q.db.nextConnection - first
  {
    assert forall x :: x in es + [e] <==> x in es || x == e;
  }

  lemma IdsFreeSnoc<T>(init: seq<Entry<T>>, e: Entry<T>, first: int)
    ensures IdsFree(init + [e], first) <==> IdsFree(init, first) && !(first <= e.id < first + |init|)
  {
    var all := init + [e];
    assert all[|init|] == e && forall k :: 0 <= k < |init| ==> all[k] == init[k];
    if IdsFree(all, first) {
      assert forall k :: 0 <= k < |init| ==> !(first <= all[k].id < first + k);
    } else if IdsFree(init, first) {
      assert forall k :: 0 <= k < |init| ==> !(first <= init[k].id < first + k);
    }
  }

  lemma NothingRenumbered<T>(first: int)
    ensures Renumbered<T>([], map[], first) && MapsToRank<T>([], map[], first)
  {
  }

  lemma AscendingInit<T>(es: seq<Entry<T>>)
    requires AscendingIds(es) && es != []
    ensures AscendingIds(es[..|es| - 1])
  {
  }

  lemma RankOf<T>(es: seq<Entry<T>>, k: nat)
    requires AscendingIds(es) && k < |es|
    ensures es[k].id >= k + 1
  {
    var ids := seq(|es|, i requires 0 <= i < |es| => es[i].id);
    assert es[0] in es;
    RankBound(ids, k);
  }

  // ---------------------------------------------------------------------------
  // Points, across all devices

  /** A point and the device it is imported under. */
  datatype Placed = Placed(deviceId: int, entry: Entry<DataPoint>)

  datatype PointTable = PointTable(rows: map<int, DataPoint>, next: int)

  function PutPoint(t: PointTable, x: Placed): PointTable {
    if x.entry.id != 0 && x.entry.id in t.rows then
      t.(rows := t.rows[x.entry.id := x.entry.value.(deviceId := t.rows[x.entry.id].deviceId)])
    else PointTable(t.rows[t.next := x.entry.value.(deviceId := x.deviceId)], t.next + 1)
  }

  function PutPoints(t: PointTable, xs: seq<Placed>): PointTable {
    if xs == [] then t else PutPoint(PutPoints(t, xs[..|xs| - 1]), xs[|xs| - 1])
  }

  /** The same of points: none has an id handed out earlier in the import. */
  ghost predicate NoneTaken(xs: seq<Placed>, first: int) {
    forall k :: 0 <= k < |xs| ==> !(first <= xs[k].entry.id < first + k)
  }

  /** All points are restored if and only if no exported id has been handed out again by the
      time its turn comes; otherwise a restored point is overwritten and lost. */
  lemma {:induction false} PointsRestoredIff(xs: seq<Placed>, first: int)
    requires forall x <- xs :: x.entry.id >= 1
    ensures var t := PutPoints(PointTable(map[], first), xs);
            && (forall id :: id in t.rows <==> first <= id < t.next)
            && first <= t.next <= first + |xs|
            && (t.next == first + |xs| <==> NoneTaken(xs, first))
            && (NoneTaken(xs, first) ==> forall k :: 0 <= k < |xs| ==>
                  t.rows[first + k] == xs[k].entry.value.(deviceId := xs[k].deviceId))
  {
    if xs != [] {
      var n := |xs| - 1;
      PointsRestoredIff(xs[..n], first);
      assert xs[n] in xs;
      NoneTakenSnoc(xs, n, first);
      hide NoneTaken;
      assert forall k :: 0 <= k < n ==> xs[..n][k] == xs[k];
    }
  }

  lemma NoneTakenSnoc(xs: seq<Placed>, n: nat, first: int)
    requires n + 1 == |xs|
    ensures NoneTaken(xs, first) <==> NoneTaken(xs[..n], first) && !(first <= xs[n].entry.id < first + n)
  {
    assert forall k :: 0 <= k < n ==> xs[..n][k] == xs[k];
    if NoneTaken(xs[..n], first) {
      assert forall k :: 0 <= k < n ==> !(first <= xs[..n][k].entry.id < first + k);
    }
  }

  /** On new hardware, ascending ids in the order they are imported are enough. */
  lemma AscendingNoneTaken(xs: seq<Placed>)
    requires forall x <- xs :: x.entry.id >= 1
    requires forall i, j :: 0 <= i < j < |xs| ==> xs[i].entry.id < xs[j].entry.id
    ensures NoneTaken(xs, 1)
  {
    var ids := seq(|xs|, i requires 0 <= i < |xs| => xs[i].entry.id);
    forall k | 0 <= k < |xs| ensures !(1 <= xs[k].entry.id < 1 + k) {
      assert xs[0] in xs;
      RankBound(ids, k);
    }
  }

  // ---------------------------------------------------------------------------
  // Devices with their points

  function PlacePoints(deviceId: int, es: seq<Entry<DataPoint>>): (xs: seq<Placed>)
    ensures |xs| == |es|
  {
    seq(|es|, i requires 0 <= i < |es| => Placed(deviceId, es[i]))
  }

  /** The points in import order, each under the rank of its device. */
  function Flattened(ds: seq<DeviceEntry>): seq<Placed> {
    if ds == [] then [] else Flattened(ds[..|ds| - 1]) + PlacePoints(|ds|, ds[|ds| - 1].points)
  }

  function TableOf(db: Db): PointTable {
    PointTable(db.points, db.nextPoint)
  }

  lemma {:induction false} PutPointsAppend(t: PointTable, xs: seq<Placed>, ys: seq<Placed>)
    ensures PutPoints(t, xs + ys) == PutPoints(PutPoints(t, xs), ys)
  {
    if ys == [] {
      assert xs + ys == xs;
    } else {
      PutPointsAppend(t, xs, ys[..|ys| - 1]);
      assert (xs + ys)[..|xs + ys| - 1] == xs + ys[..|ys| - 1];
    }
  }

  /** Importing points touches the point table and the point counts, nothing else. */
  lemma {:induction false} ImportPointsEffect(p: Progress, deviceId: int, es: seq<Entry<DataPoint>>)
    ensures var q := ImportPoints(p, deviceId, es);
            && TableOf(q.db) == PutPoints(TableOf(p.db), PlacePoints(deviceId, es))
            && q.db.(points := p.db.points, nextPoint := p.db.nextPoint) == p.db
            && q.connIds == p.connIds
            && q.counts == p.counts.(pointsCreated := q.counts.pointsCreated, pointsUpdated := q.counts.pointsUpdated)
            && q.counts.pointsCreated - p.counts.pointsCreated == q.db.nextPoint - p.db.nextPoint
            && q.counts.pointsCreated + q.counts.pointsUpdated == p.counts.pointsCreated + p.counts.pointsUpdated + |es|
  {
    if es != [] {
      var n := |es| - 1;
      ImportPointsEffect(p, deviceId, es[..n]);
      assert PlacePoints(deviceId, es)[..n] == PlacePoints(deviceId, es[..n]);
    } else {
      assert PlacePoints(deviceId, es) == [];
    }
  }

  ghost predicate AscendingDevices(ds: seq<DeviceEntry>) {
    (forall i, j :: 0 <= i < j < |ds| ==> ds[i].id < ds[j].id) && forall d <- ds :: d.id >= 1
  }

  /** The devices renumbered by rank, each pointing at the image of its connection. */
  ghost predicate DevicesRenumbered(ds: seq<DeviceEntry>, m: map<int, Device>, connIds: map<int, int>) {
    && (forall d <- ds :: d.value.connectionId in connIds)
    && (forall id :: id in m <==> 1 <= id <= |ds|)
    && forall k :: 0 <= k < |ds| ==>
         m[k + 1] == ds[k].value.(connectionId := connIds[ds[k].value.connectionId])
  }

  lemma DevicesRenumberedSnoc(ds: seq<DeviceEntry>, m: map<int, Device>, connIds: map<int, int>, e: DeviceEntry)
    requires DevicesRenumbered(ds, m, connIds) && e.value.connectionId in connIds
    ensures DevicesRenumbered(ds + [e], m[|ds| + 1 := e.value.(connectionId := connIds[e.value.connectionId])], connIds)
  {
  }

  lemma {:induction false} DevicesOntoEmpty(p: Progress, ds: seq<DeviceEntry>)
    requires AscendingDevices(ds)
    requires p.db.devices == map[] && p.db.nextDevice == 1 && p.db.points == map[]
    requires forall d <- ds :: d.value.connectionId in p.connIds
    ensures var q := ImportDevices(p, ds);
            && DevicesRenumbered(ds, q.db.devices, p.connIds) && q.db.nextDevice == |ds| + 1
            && TableOf(q.db) == PutPoints(PointTable(map[], p.db.nextPoint), Flattened(ds))
            && q.db.connections == p.db.connections && q.db.nextConnection == p.db.nextConnection
            && q.connIds == p.connIds
            && q.counts.errors == p.counts.errors
            && q.counts.devicesCreated == p.counts.devicesCreated + |ds|
            && q.counts.devicesUpdated == p.counts.devicesUpdated
            && q.counts.connectionsCreated == p.counts.connectionsCreated
            && q.counts.connectionsUpdated == p.counts.connectionsUpdated
            && q.counts.pointsCreated - p.counts.pointsCreated == q.db.nextPoint - p.db.nextPoint
            && q.counts.pointsCreated + q.counts.pointsUpdated ==
               p.counts.pointsCreated + p.counts.pointsUpdated + |Flattened(ds)|
  {
    if ds != [] {
      var n := |ds| - 1;
      var init, e := ds[..n], ds[n];
      assert ds == init + [e];
      DevicesOntoEmpty(p, init);
      DeviceRank(ds, n);
      var before := ImportDevices(p, init);
      assert e in ds && e.id !in before.db.devices;
      DevicesRenumberedSnoc(init, before.db.devices, p.connIds, e);
      hide DevicesRenumbered;
      ImportPointsEffect(PutDevice(before, e), |ds|, e.points);
      hide ImportPoints;
      PutPointsAppend(PointTable(map[], p.db.nextPoint), Flattened(init), PlacePoints(|ds|, e.points));
      hide PutPoints;
    } else {
      assert TableOf(p.db) == PutPoints(PointTable(map[], p.db.nextPoint), []);
    }
  }

  lemma DeviceRank(ds: seq<DeviceEntry>, k: nat)
    requires AscendingDevices(ds) && k < |ds|
    ensures ds[k].id >= k + 1
  {
    var ids := seq(|ds|, i requires 0 <= i < |ds| => ds[i].id);
    assert ds[0] in ds;
    RankBound(ids, k);
  }

  // ---------------------------------------------------------------------------
  // An empty gateway

  lemma ExportAscends(payload: Payload, db: Db)
    requires WellFormed(db) && IsExport(payload, db)
    ensures AscendingIds(payload.connections) && AscendingDevices(payload.devices)
    ensures forall d <- payload.devices :: exists e <- payload.connections :: e.id == d.value.connectionId
  {
    forall d | d in payload.devices ensures exists e <- payload.connections :: e.id == d.value.connectionId {
      assert d.value.connectionId in db.connections;
    }
  }

  lemma {:induction false} FlattenedIds(ds: seq<DeviceEntry>)
    requires forall d <- ds :: forall e <- d.points :: e.id >= 1
    ensures forall x <- Flattened(ds) :: x.entry.id >= 1
  {
    if ds != [] {
      var n := |ds| - 1;
      FlattenedIds(ds[..n]);
      assert ds[n] in ds;
      var last := PlacePoints(|ds|, ds[n].points);
      forall x | x in last ensures x.entry.id >= 1 {
        var i :| 0 <= i < |last| && last[i] == x;
        assert ds[n].points[i] in ds[n].points;
      }
    }
  }

  lemma ExportedPointIds(payload: Payload, db: Db)
    requires WellFormed(db) && IsExport(payload, db)
    ensures forall x <- Flattened(payload.devices) :: x.entry.id >= 1
  {
    forall d, e | d in payload.devices && e in d.points ensures e.id >= 1 {
      assert Lists(d.points, PointsOf(db, d.id));
      assert e.id in db.points;
    }
    FlattenedIds(payload.devices);
  }

  /** An export is accepted if and only if every row it came from is valid. */
  lemma ExportAcceptedIff(payload: Payload, db: Db)
    requires WellFormed(db) && IsExport(payload, db)
    ensures ValidPayload(payload) <==> RowsValid(db)
  {
    hide ValidConnection;
    hide ValidDevice;
    hide ValidPoint;
    if ValidPayload(payload) {
      forall id | id in db.connections ensures ValidConnection(db.connections[id]) {
        var e :| e in payload.connections && e.id == id;
      }
      forall id | id in db.devices ensures ValidDevice(db.devices[id]) {
        var d :| d in payload.devices && d.id == id;
      }
      forall id | id in db.points ensures ValidPoint(db.points[id]) {
        var d, e := PointListed(payload, db, id);
      }
    }
    if RowsValid(db) {
      forall d, e | d in payload.devices && e in d.points ensures ValidPoint(e.value) {
        assert Lists(d.points, PointsOf(db, d.id));
        assert e.id in db.points && db.points[e.id] == e.value;
      }
    }
  }

  /** Where a point is in the export. */
  lemma PointListed(payload: Payload, db: Db, id: int) returns (d: DeviceEntry, e: Entry<DataPoint>)
    requires WellFormed(db) && IsExport(payload, db) && id in db.points
    ensures d in payload.devices && e in d.points && e == Entry(id, db.points[id])
  {
    d :| d in payload.devices && d.id == db.points[id].deviceId;
    assert Lists(d.points, PointsOf(db, d.id)) && id in PointsOf(db, d.id);
    e :| e in d.points && e.id == id;
  }

  /** A gateway without rows. The connection and point allocators go on from where they were;
      a device id is one more than the highest, so it starts over. */
  ghost predicate Emptied(db: Db) {
    && db.connections == map[] && db.devices == map[] && db.points == map[]
    && db.nextConnection >= 1 && db.nextDevice == 1 && db.nextPoint >= 1
  }

  /** What an accepted import leaves on an empty gateway: the devices by rank, each on the image
      of its connection; all connections, if and only if none has an id handed out earlier in
      the import; and all data points, each on the image of its device, under the same
      condition on theirs. */
  ghost predicate Restored(payload: Payload, target: Db, q: Progress) {
    var conns, xs := payload.connections, Flattened(payload.devices);
    && (q.counts.connectionsCreated == |conns| <==> IdsFree(conns, target.nextConnection))
    && (IdsFree(conns, target.nextConnection) ==>
          && Renumbered(conns, q.db.connections, target.nextConnection)
          && MapsToRank(conns, q.connIds, target.nextConnection))
    && |conns| == q.counts.connectionsCreated + q.counts.connectionsUpdated
    && (forall id :: id in q.db.connections <==> 0 <= id - target.nextConnection < q.counts.connectionsCreated)
    && DevicesRenumbered(payload.devices, q.db.devices, q.connIds)
    && q.counts.errors == [] && q.counts.devicesUpdated == 0 && q.counts.devicesCreated == |payload.devices|
    && (forall id :: id in q.db.points <==> 0 <= id - target.nextPoint < q.counts.pointsCreated)
    && (q.counts.pointsCreated == |xs| <==> NoneTaken(xs, target.nextPoint))
    && (NoneTaken(xs, target.nextPoint) ==> forall k :: 0 <= k < |xs| ==>
          q.db.points[target.nextPoint + k] == xs[k].entry.value.(deviceId := xs[k].deviceId))
  }

  /** Importing an export onto any gateway without rows: accepted if and only if every row of the
      source is valid, and then restored as above; otherwise nothing changes. */
  lemma ImportOntoEmptyGateway(payload: Payload, db: Db, target: Db)
    requires WellFormed(db) && IsExport(payload, db) && Emptied(target)
    ensures var (after, r) := ImportConfig(target, payload);
            && (r.Some? <==> RowsValid(db))
            && (r.None? ==> after == target)
            && (r.Some? ==>
                  var q := ImportAll(target, payload);
                  after == q.db && r.value == q.counts && Restored(payload, target, q))
  {
    ExportAcceptedIff(payload, db);
    ImportRestores(payload, db, target);
    hide Restored;
    hide RowsValid;
    hide IsExport;
    hide ValidPayload;
    hide ImportAll;
  }

  /** On new hardware all connections are restored, numbered by rank, so each device is on the
      image of its own connection; only the data points carry a condition. */
  lemma ImportOntoFreshGateway(payload: Payload, db: Db)
    requires WellFormed(db) && IsExport(payload, db)
    ensures var (after, r) := ImportConfig(EMPTY_DB, payload);
            && (r.Some? <==> RowsValid(db))
            && (r.None? ==> after == EMPTY_DB)
            && (r.Some? ==>
                  var q := ImportAll(EMPTY_DB, payload);
                  && after == q.db && r.value == q.counts && Restored(payload, EMPTY_DB, q)
                  && Renumbered(payload.connections, q.db.connections, 1)
                  && MapsToRank(payload.connections, q.connIds, 1)
                  && q.counts.connectionsUpdated == 0)
  {
    ImportOntoEmptyGateway(payload, db, EMPTY_DB);
    ExportAscends(payload, db);
    AscendingIdsFree(payload.connections);
    hide RowsValid;
    hide IsExport;
    hide IdsFree;
    hide Renumbered;
    hide MapsToRank;
    hide NoneTaken;
    hide ImportAll;
  }

  lemma ImportRestores(payload: Payload, db: Db, target: Db)
    requires WellFormed(db) && IsExport(payload, db) && Emptied(target)
    ensures Restored(payload, target, ImportAll(target, payload))
  {
    hide ImportConnections;
    hide ImportDevices;
    hide Flattened;
    hide PutPoints;
    hide NoneTaken;
    hide IdsFree;
    hide Renumbered;
    hide MapsToRank;
    hide AscendingIds;
    hide IsExport;
    hide WellFormed;
    ExportAscends(payload, db);
    ExportedPointIds(payload, db);
    ConnectionsRestoredIff(payload.connections, target);
    var p := ImportConnections(Progress(target, NO_COUNTS, map[]), payload.connections);
    forall d | d in payload.devices ensures d.value.connectionId in p.connIds {
      var e :| e in payload.connections && e.id == d.value.connectionId;
    }
    hide DevicesRenumbered;
    DevicesOntoEmpty(p, payload.devices);
    PointsRestoredIff(Flattened(payload.devices), target.nextPoint);
  }

  // ---------------------------------------------------------------------------
  // Concrete losses

  const SAMPLE_CONNECTION := Connection("bus", RTU, "/dev/ttyS0", "", 0, 9600, 8, "N", 1, 1000, 0, true, 0)

  function SampleDevice(connectionId: int, slaveId: int): Device {
    Device("meter", connectionId, slaveId, true)
  }

  function SamplePoint(deviceId: int, tag: string): DataPoint {
    DataPoint(deviceId, tag, 3, 0, "UINT16", "", "", 1.0, 0.0, "", true)
  }

  /** A device without a slave id makes the whole export unusable, even where it came from. */
  lemma ExportUnusable()
    ensures var db := Db(map[1 := SAMPLE_CONNECTION], map[1 := SampleDevice(1, 0)], map[], 2, 2, 1);
            var payload := Payload([Entry(1, SAMPLE_CONNECTION)], [DeviceEntry(1, SampleDevice(1, 0), [])]);
            && WellFormed(db) && IsExport(payload, db)
            && ImportConfig(EMPTY_DB, payload) == (EMPTY_DB, None)
            && ImportConfig(db, payload) == (db, None)
  {
    var payload := Payload([Entry(1, SAMPLE_CONNECTION)], [DeviceEntry(1, SampleDevice(1, 0), [])]);
    assert payload.devices[0] in payload.devices && payload.connections[0] in payload.connections;
  }

  /** Two devices, the first point added to the second of them: exported, and restored onto new
      hardware, one of the two points is gone and the other is on the wrong device. */
  lemma PointLost()
    ensures var a, b := SamplePoint(1, "a"), SamplePoint(2, "b");
            var db := Db(map[1 := SAMPLE_CONNECTION], map[1 := SampleDevice(1, 1), 2 := SampleDevice(1, 2)],
                         map[1 := b, 2 := a], 2, 3, 3);
            var payload := Payload([Entry(1, SAMPLE_CONNECTION)],
                                   [DeviceEntry(1, SampleDevice(1, 1), [Entry(2, a)]),
                                    DeviceEntry(2, SampleDevice(1, 2), [Entry(1, b)])]);
            && WellFormed(db) && RowsValid(db) && IsExport(payload, db)
            && ImportConfig(EMPTY_DB, payload).0.points == map[1 := b.(deviceId := 1)]
  {
    var a, b := SamplePoint(1, "a"), SamplePoint(2, "b");
    var db := Db(map[1 := SAMPLE_CONNECTION], map[1 := SampleDevice(1, 1), 2 := SampleDevice(1, 2)],
                 map[1 := b, 2 := a], 2, 3, 3);
    var payload := Payload([Entry(1, SAMPLE_CONNECTION)],
                           [DeviceEntry(1, SampleDevice(1, 1), [Entry(2, a)]),
                            DeviceEntry(2, SampleDevice(1, 2), [Entry(1, b)])]);
    TwoPointsExported(db, payload, a, b);
    ImportOntoFreshGateway(payload, db);
    TwoPointsPut(a, b);
    OntoFreshPoints(payload, db);
    TwoPointsFlattened(payload, a, b);
  }

  lemma TwoPointsExported(db: Db, payload: Payload, a: DataPoint, b: DataPoint)
    requires a == SamplePoint(1, "a") && b == SamplePoint(2, "b")
    requires db == Db(map[1 := SAMPLE_CONNECTION], map[1 := SampleDevice(1, 1), 2 := SampleDevice(1, 2)],
                      map[1 := b, 2 := a], 2, 3, 3)
    requires payload == Payload([Entry(1, SAMPLE_CONNECTION)],
                                [DeviceEntry(1, SampleDevice(1, 1), [Entry(2, a)]),
                                 DeviceEntry(2, SampleDevice(1, 2), [Entry(1, b)])])
    ensures WellFormed(db) && RowsValid(db) && IsExport(payload, db)
  {
    hide ListsDevices;
    hide Lists;
    hide SamplePoint;
    hide SampleDevice;
    assert a.deviceId == 1 && b.deviceId == 2 by { SamplesPlaced(); }
    TwoDevicesListed(db, payload.devices, a, b);
    ListsOne(1, SAMPLE_CONNECTION);
    SamplesPlaced();
    TwoPointsWell(db, a, b);
    hide WellFormed;
    hide RowsValid;
  }

  lemma SamplesPlaced()
    ensures SamplePoint(1, "a").deviceId == 1 && SamplePoint(2, "b").deviceId == 2
    ensures SampleDevice(1, 1).connectionId == 1 && SampleDevice(1, 2).connectionId == 1
  {
  }

  lemma TwoPointsWell(db: Db, a: DataPoint, b: DataPoint)
    requires a == SamplePoint(1, "a") && b == SamplePoint(2, "b")
    requires db == Db(map[1 := SAMPLE_CONNECTION], map[1 := SampleDevice(1, 1), 2 := SampleDevice(1, 2)],
                      map[1 := b, 2 := a], 2, 3, 3)
    ensures WellFormed(db) && RowsValid(db)
  {
    hide ValidConnection;
    hide ValidDevice;
    hide ValidPoint;
    hide SamplePoint;
    hide SampleDevice;
    SamplesPlaced();
    SamplesValid();
  }

  lemma SamplesValid()
    ensures ValidConnection(SAMPLE_CONNECTION) && ValidDevice(SampleDevice(1, 1)) && ValidDevice(SampleDevice(1, 2))
    ensures ValidPoint(SamplePoint(1, "a")) && ValidPoint(SamplePoint(2, "b"))
  {
  }

  lemma TwoDevicesListed(db: Db, ds: seq<DeviceEntry>, a: DataPoint, b: DataPoint)
    requires a.deviceId == 1 && b.deviceId == 2 && db.points == map[1 := b, 2 := a]
    requires db.devices == map[1 := SampleDevice(1, 1), 2 := SampleDevice(1, 2)]
    requires ds == [DeviceEntry(1, SampleDevice(1, 1), [Entry(2, a)]), DeviceEntry(2, SampleDevice(1, 2), [Entry(1, b)])]
    ensures ListsDevices(ds, db)
  {
    assert PointsOf(db, 1) == map[2 := a] && PointsOf(db, 2) == map[1 := b];
    ListsOne(2, a);
    ListsOne(1, b);
    hide Lists;
    hide PointsOf;
    assert ds[0] in ds && ds[1] in ds;
  }

  lemma ListsOne<T>(id: int, p: T)
    ensures Lists([Entry(id, p)], map[id := p])
  {
    assert [Entry(id, p)][0] in [Entry(id, p)];
  }

  /** The points an accepted import onto new hardware leaves. */
  lemma OntoFreshPoints(payload: Payload, db: Db)
    requires WellFormed(db) && IsExport(payload, db)
    ensures TableOf(ImportAll(EMPTY_DB, payload).db) == PutPoints(PointTable(map[], 1), Flattened(payload.devices))
  {
    hide PutPoints;
    hide IsExport;
    hide WellFormed;
    ExportAscends(payload, db);
    ConnectionsRestoredIff(payload.connections, EMPTY_DB);
    var p := ImportConnections(Progress(EMPTY_DB, NO_COUNTS, map[]), payload.connections);
    forall d | d in payload.devices ensures d.value.connectionId in p.connIds {
      var e :| e in payload.connections && e.id == d.value.connectionId;
    }
    DevicesOntoEmpty(p, payload.devices);
  }

  lemma TwoPointsFlattened(payload: Payload, a: DataPoint, b: DataPoint)
    requires |payload.devices| == 2
    requires payload.devices[0].points == [Entry(2, a)] && payload.devices[1].points == [Entry(1, b)]
    ensures Flattened(payload.devices) == [Placed(1, Entry(2, a)), Placed(2, Entry(1, b))]
  {
    var ds := payload.devices;
    assert ds[..1] == [ds[0]] && ds[..1][..0] == [];
    assert Flattened([ds[0]]) == [Placed(1, Entry(2, a))];
  }

  lemma TwoPointsPut(a: DataPoint, b: DataPoint)
    ensures var xs := [Placed(1, Entry(2, a)), Placed(2, Entry(1, b))];
            PutPoints(PointTable(map[], 1), xs) == PointTable(map[1 := b.(deviceId := 1)], 2)
  {
    var xs := [Placed(1, Entry(2, a)), Placed(2, Entry(1, b))];
    assert xs[..1] == [xs[0]] && xs[..1][..0] == [];
    assert PutPoints(PointTable(map[], 1), [xs[0]]) == PointTable(map[1 := a.(deviceId := 1)], 2);
  }

  /** An emptied gateway whose next connection id is 6, and an export of connections 5 and 6: the
      first is created as 6, the second overwrites it. */
  lemma ConnectionLost(a: Connection, b: Connection)
    requires ValidConnection(a) && ValidConnection(b)
    ensures var target := Db(map[], map[], map[], 6, 1, 1);
            var payload := Payload([Entry(5, a), Entry(6, b)], []);
            && Emptied(target) && ValidPayload(payload)
            && ImportConfig(target, payload).0.connections == map[6 := b]
            && ImportAll(target, payload).connIds == map[5 := 6, 6 := 6]
  {
    var target := Db(map[], map[], map[], 6, 1, 1);
    var es := [Entry(5, a), Entry(6, b)];
    var start := Progress(target, NO_COUNTS, map[]);
    assert es[..1] == [es[0]] && es[..1][..0] == [];
    assert ImportConnections(start, [es[0]]).db.connections == map[6 := a];
    assert ImportConnections(start, [es[0]]).connIds == map[5 := 6];
    assert ImportConnections(start, es).db.connections == map[6 := b];
    assert ImportConnections(start, es).connIds == map[5 := 6, 6 := 6];
  }

  /** Every flattened point is a point of the source, placed under its own device. */
  lemma {:induction false} PlacedUnderOwnDevice(ds: seq<DeviceEntry>, db: Db, x: Placed)
    requires forall d <- ds :: Lists(d.points, PointsOf(db, d.id))
    requires x in Flattened(ds)
    ensures 1 <= x.deviceId <= |ds|
    ensures x.entry.id in db.points && db.points[x.entry.id] == x.entry.value
    ensures x.entry.value.deviceId == ds[x.deviceId - 1].id
  {
    var n := |ds| - 1;
    var last := PlacePoints(|ds|, ds[n].points);
    if x in last {
      var i :| 0 <= i < |last| && last[i] == x;
      assert ds[n].points[i] in ds[n].points;
      assert Lists(ds[n].points, PointsOf(db, ds[n].id));
    } else {
      PlacedUnderOwnDevice(ds[..n], db, x);
    }
  }

  lemma {:induction false} PlacedWhere(ds: seq<DeviceEntry>, i: nat, e: Entry<DataPoint>)
    requires i < |ds| && e in ds[i].points
    ensures Placed(i + 1, e) in Flattened(ds)
  {
    var n := |ds| - 1;
    if i < n {
      PlacedWhere(ds[..n], i, e);
    } else {
      var j :| 0 <= j < |ds[n].points| && ds[n].points[j] == e;
      assert PlacePoints(|ds|, ds[n].points)[j] == Placed(|ds|, e);
    }
  }

  /** And every point of the source is among them. */
  lemma EveryPointPlaced(payload: Payload, db: Db, id: int)
    requires WellFormed(db) && IsExport(payload, db) && id in db.points
    ensures exists x <- Flattened(payload.devices) :: x.entry == Entry(id, db.points[id])
  {
    var d, e := PointListed(payload, db, id);
    var i :| 0 <= i < |payload.devices| && payload.devices[i] == d;
    PlacedWhere(payload.devices, i, e);
  }

  // ---------------------------------------------------------------------------
  // The gateway the export came from

  lemma {:induction false} SelfConnections(db: Db, es: seq<Entry<Connection>>)
    requires forall e <- es :: e.id >= 1 && e.id in db.connections && db.connections[e.id] == e.value
    ensures var p := ImportConnections(Progress(db, NO_COUNTS, map[]), es);
            && p.db == db && p.counts == NO_COUNTS.(connectionsUpdated := |es|)
            && (forall e <- es :: e.id in p.connIds) && (forall id <- p.connIds :: p.connIds[id] == id)
  {
    if es != [] {
      var n := |es| - 1;
      SelfConnections(db, es[..n]);
      assert es == es[..n] + [es[n]];
      assert db.connections[es[n].id := es[n].value] == db.connections;
    }
  }

  lemma {:induction false} SelfPoints(p: Progress, deviceId: int, es: seq<Entry<DataPoint>>)
    requires forall e <- es :: e.id >= 1 && e.id in p.db.points && p.db.points[e.id] == e.value
    ensures var q := ImportPoints(p, deviceId, es);
            q == p.(counts := p.counts.(pointsUpdated := p.counts.pointsUpdated + |es|))
  {
    if es != [] {
      var n := |es| - 1;
      SelfPoints(p, deviceId, es[..n]);
      assert es[n] in es;
      assert p.db.points[es[n].id := es[n].value] == p.db.points;
    }
  }

  ghost predicate AlreadyThere(db: Db, e: DeviceEntry) {
    && e.id >= 1 && e.id in db.devices && db.devices[e.id] == e.value
    && forall x <- e.points :: x.id >= 1 && x.id in db.points && db.points[x.id] == x.value
  }

  lemma {:induction false} SelfDevices(p: Progress, ds: seq<DeviceEntry>)
    requires forall d <- ds :: AlreadyThere(p.db, d) && d.value.connectionId in p.connIds
    requires forall id <- p.connIds :: p.connIds[id] == id
    ensures var q := ImportDevices(p, ds);
            && q.db == p.db && q.connIds == p.connIds && q.counts.errors == p.counts.errors
            && q.counts.devicesCreated == p.counts.devicesCreated
            && q.counts.pointsCreated == p.counts.pointsCreated
            && q.counts.connectionsCreated == p.counts.connectionsCreated
  {
    if ds != [] {
      var n := |ds| - 1;
      SelfDevices(p, ds[..n]);
      var e, before := ds[n], ImportDevices(p, ds[..n]);
      assert e in ds && AlreadyThere(p.db, e);
      assert p.db.devices[e.id := e.value] == p.db.devices;
      SelfPoints(PutDevice(before, e), e.id, e.points);
    }
  }

  /** Importing a gateway's own export changes nothing; it is accepted if and only if every row
      is valid, and then creates nothing either. */
  lemma ImportOntoSameGateway(payload: Payload, db: Db)
    requires WellFormed(db) && IsExport(payload, db)
    ensures var (after, r) := ImportConfig(db, payload);
            && after == db && (r.Some? <==> RowsValid(db))
            && (r.Some? ==>
                  && r.value.errors == [] && r.value.connectionsCreated == 0
                  && r.value.devicesCreated == 0 && r.value.pointsCreated == 0)
  {
    ExportAcceptedIff(payload, db);
    SelfImport(payload, db);
    hide RowsValid;
    hide IsExport;
    hide ValidPayload;
    hide ImportAll;
  }

  lemma SelfImport(payload: Payload, db: Db)
    requires WellFormed(db) && IsExport(payload, db)
    ensures var q := ImportAll(db, payload);
            && q.db == db && q.counts.errors == []
            && q.counts.connectionsCreated == 0 && q.counts.devicesCreated == 0 && q.counts.pointsCreated == 0
  {
    SelfConnections(db, payload.connections);
    var p := ImportConnections(Progress(db, NO_COUNTS, map[]), payload.connections);
    ExportAscends(payload, db);
    forall d | d in payload.devices ensures AlreadyThere(db, d) && d.value.connectionId in p.connIds {
      assert Lists(d.points, PointsOf(db, d.id));
      var e :| e in payload.connections && e.id == d.value.connectionId;
    }
    SelfDevices(p, payload.devices);
  }
}
