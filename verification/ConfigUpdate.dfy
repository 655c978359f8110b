/** What an import does to the rows it finds, on any gateway. */
module ConfigUpdate {
  import opened Ints
  import opened ConfigIO
  import opened ConfigRestore

  /** The last entry for an id. */
  function LastFor<T>(es: seq<Entry<T>>, id: int): Option<T> {
    if es == [] then None
    else if es[|es| - 1].id == id then Some(es[|es| - 1].value)
    else LastFor(es[..|es| - 1], id)
  }

  /** The value a found row ends up with. */
  function Updated<T>(last: Option<T>, before: T): T {
    if last.Some? then last.value else before
  }

  // ---------------------------------------------------------------------------
  // Connections

  /** A connection that is there takes the value of its last entry, and keeps its id. */
  lemma {:induction false} ConnectionsFound(p: Progress, es: seq<Entry<Connection>>, id: int)
    requires id in p.db.connections && 1 <= id < p.db.nextConnection
    ensures var q := ImportConnections(p, es);
            && id in q.db.connections && id < q.db.nextConnection
            && q.db.connections[id] == Updated(LastFor(es, id), p.db.connections[id])
            && (LastFor(es, id).Some? ==> id in q.connIds && q.connIds[id] == id)
  {
    if es != [] {
      ConnectionsFound(p, es[..|es| - 1], id);
    }
  }

  /** Every entry is created or updated, and only connections change. */
  lemma {:induction false} ConnectionsCounted(p: Progress, es: seq<Entry<Connection>>)
    ensures var q := ImportConnections(p, es);
            && q.db.devices == p.db.devices && q.db.nextDevice == p.db.nextDevice
            && q.db.points == p.db.points && q.db.nextPoint == p.db.nextPoint
            && q.counts == p.counts.(connectionsCreated := q.counts.connectionsCreated,
                                     connectionsUpdated := q.counts.connectionsUpdated)
            && q.counts.connectionsCreated - p.counts.connectionsCreated == q.db.nextConnection - p.db.nextConnection
            && q.counts.connectionsCreated + q.counts.connectionsUpdated ==
               p.counts.connectionsCreated + p.counts.connectionsUpdated + |es|
            && (forall id :: id in q.connIds <==> id in p.connIds || exists e <- es :: e.id == id)
  {
    if es != [] {
      var n := |es| - 1;
      ConnectionsCounted(p, es[..n]);
      assert forall e :: e in es <==> e in es[..n] || e == es[n];
    }
  }

  // ---------------------------------------------------------------------------
  // Points

  /** A point that is there takes the value of its last entry, but stays on its device. */
  lemma {:induction false} PointsFound(p: Progress, deviceId: int, es: seq<Entry<DataPoint>>, id: int)
    requires id in p.db.points && 1 <= id < p.db.nextPoint
    ensures var q := ImportPoints(p, deviceId, es);
            && id in q.db.points && id < q.db.nextPoint
            && q.db.points[id] == Updated(LastFor(es, id), p.db.points[id]).(deviceId := p.db.points[id].deviceId)
  {
    if es != [] {
      PointsFound(p, deviceId, es[..|es| - 1], id);
    }
  }

  // ---------------------------------------------------------------------------
  // Devices

  /** An entry is taken when its connection was in the payload. */
  predicate Taken(e: DeviceEntry, connIds: map<int, int>) {
    e.value.connectionId in connIds
  }

  function LastDevice(ds: seq<DeviceEntry>, connIds: map<int, int>, id: int): Option<Device> {
    if ds == [] then None
    else
      var e := ds[|ds| - 1];
      if Taken(e, connIds) && e.id == id then Some(e.value.(connectionId := connIds[e.value.connectionId]))
      else LastDevice(ds[..|ds| - 1], connIds, id)
  }

  function LastPoint(ds: seq<DeviceEntry>, connIds: map<int, int>, id: int): Option<DataPoint> {
    if ds == [] then None
    else
      var e := ds[|ds| - 1];
      if Taken(e, connIds) && LastFor(e.points, id).Some? then LastFor(e.points, id)
      else LastPoint(ds[..|ds| - 1], connIds, id)
  }

  function Refused(ds: seq<DeviceEntry>, connIds: map<int, int>): nat {
    if ds == [] then 0
    else Refused(ds[..|ds| - 1], connIds) + if Taken(ds[|ds| - 1], connIds) then 0 else 1
  }

  function PointsTaken(ds: seq<DeviceEntry>, connIds: map<int, int>): nat {
    if ds == [] then 0
    else PointsTaken(ds[..|ds| - 1], connIds) + if Taken(ds[|ds| - 1], connIds) then |ds[|ds| - 1].points| else 0
  }

  /** A device that is there takes the value of its last taken entry, on the image of that
      entry's connection. */
  lemma {:induction false} DevicesFound(p: Progress, ds: seq<DeviceEntry>, id: int)
    requires id in p.db.devices && 1 <= id < p.db.nextDevice
    ensures var q := ImportDevices(p, ds);
            && q.connIds == p.connIds && q.db.connections == p.db.connections && q.db.nextConnection == p.db.nextConnection
            && id in q.db.devices && id < q.db.nextDevice
            && q.db.devices[id] == Updated(LastDevice(ds, p.connIds, id), p.db.devices[id])
  {
    hide ImportPoints;
    if ds != [] {
      var n := |ds| - 1;
      DevicesFound(p, ds[..n], id);
      var before, e := ImportDevices(p, ds[..n]), ds[n];
      if Taken(e, p.connIds) {
        ImportPointsEffect(PutDevice(before, e), DeviceIdFor(before.db, e), e.points);
        hide PutPoints;
      }
    }
  }

  lemma {:induction false} DevicePointsFound(p: Progress, ds: seq<DeviceEntry>, id: int)
    requires id in p.db.points && 1 <= id < p.db.nextPoint
    ensures var q := ImportDevices(p, ds);
            && q.connIds == p.connIds
            && id in q.db.points && id < q.db.nextPoint
            && q.db.points[id] == Updated(LastPoint(ds, p.connIds, id), p.db.points[id]).(deviceId := p.db.points[id].deviceId)
  {
    hide ImportPoints;
    if ds != [] {
      var n := |ds| - 1;
      DevicePointsFound(p, ds[..n], id);
      var before, e := ImportDevices(p, ds[..n]), ds[n];
      if Taken(e, p.connIds) {
        var put := PutDevice(before, e);
        PointsFound(put, DeviceIdFor(before.db, e), e.points, id);
        ImportPointsEffect(put, DeviceIdFor(before.db, e), e.points);
        hide PutPoints;
      }
    }
  }

  lemma {:induction false} DevicesCounted(p: Progress, ds: seq<DeviceEntry>)
    ensures var q := ImportDevices(p, ds);
            && q.connIds == p.connIds && q.db.connections == p.db.connections
            && q.counts.connectionsCreated == p.counts.connectionsCreated
            && q.counts.connectionsUpdated == p.counts.connectionsUpdated
            && |q.counts.errors| == |p.counts.errors| + Refused(ds, p.connIds)
            && q.counts.devicesCreated - p.counts.devicesCreated == q.db.nextDevice - p.db.nextDevice
            && q.counts.devicesCreated + q.counts.devicesUpdated + Refused(ds, p.connIds) ==
               p.counts.devicesCreated + p.counts.devicesUpdated + |ds|
            && q.counts.pointsCreated - p.counts.pointsCreated == q.db.nextPoint - p.db.nextPoint
            && q.counts.pointsCreated + q.counts.pointsUpdated ==
               p.counts.pointsCreated + p.counts.pointsUpdated + PointsTaken(ds, p.connIds)
  {
    hide ImportPoints;
    if ds != [] {
      var n := |ds| - 1;
      DevicesCounted(p, ds[..n]);
      var before, e := ImportDevices(p, ds[..n]), ds[n];
      if Taken(e, p.connIds) {
        ImportPointsEffect(PutDevice(before, e), DeviceIdFor(before.db, e), e.points);
        hide PutPoints;
      }
    }
  }

  // ---------------------------------------------------------------------------
  // A whole import

  /** On any gateway, for any valid payload: rows that are there take the values of their last
      entry and keep their ids; a device goes to the image of its entry's connection, unless
      that connection is not in the payload; a point stays on its device; rows the payload does
      not name are left alone; and everything else is created and counted. */
  lemma ImportUpdates(db: Db, payload: Payload, id: int)
    requires WellFormed(db) && ValidPayload(payload)
    ensures var (after, r) := ImportConfig(db, payload);
            var connIds := ImportConnections(Progress(db, NO_COUNTS, map[]), payload.connections).connIds;
            && r.Some?
            && (id in db.connections ==>
                  && id in after.connections
                  && after.connections[id] == Updated(LastFor(payload.connections, id), db.connections[id])
                  && (LastFor(payload.connections, id).Some? ==> id in connIds && connIds[id] == id))
            && (id in db.devices ==>
                  && id in after.devices
                  && after.devices[id] == Updated(LastDevice(payload.devices, connIds, id), db.devices[id]))
            && (id in db.points ==>
                  && id in after.points
                  && after.points[id] ==
                     Updated(LastPoint(payload.devices, connIds, id), db.points[id]).(deviceId := db.points[id].deviceId))
  {
    hide ImportConnections;
    hide ImportDevices;
    hide ValidPayload;
    hide LastFor;
    hide LastDevice;
    hide LastPoint;
    var start := Progress(db, NO_COUNTS, map[]);
    var p := ImportConnections(start, payload.connections);
    ConnectionsCounted(start, payload.connections);
    DevicesCounted(p, payload.devices);
    if id in db.connections {
      ConnectionsFound(start, payload.connections, id);
    }
    if id in db.devices {
      DevicesFound(p, payload.devices, id);
    }
    if id in db.points {
      DevicePointsFound(p, payload.devices, id);
    }
  }

  /** Every connection of the payload is created or updated, and so is every device whose
      connection is in the payload, with its points; the others are reported. */
  lemma ImportCounts(db: Db, payload: Payload)
    requires ValidPayload(payload)
    ensures var (after, r) := ImportConfig(db, payload);
            var p := ImportConnections(Progress(db, NO_COUNTS, map[]), payload.connections);
            && r.Some?
            && (forall id :: id in p.connIds <==> exists e <- payload.connections :: e.id == id)
            && r.value.connectionsCreated == after.nextConnection - db.nextConnection
            && r.value.connectionsCreated + r.value.connectionsUpdated == |payload.connections|
            && r.value.devicesCreated == after.nextDevice - db.nextDevice
            && r.value.devicesCreated + r.value.devicesUpdated + |r.value.errors| == |payload.devices|
            && |r.value.errors| == Refused(payload.devices, p.connIds)
            && r.value.pointsCreated == after.nextPoint - db.nextPoint
            && r.value.pointsCreated + r.value.pointsUpdated == PointsTaken(payload.devices, p.connIds)
  {
    hide ImportConnections;
    hide ImportDevices;
    hide ValidPayload;
    hide Refused;
    hide PointsTaken;
    var start := Progress(db, NO_COUNTS, map[]);
    var p := ImportConnections(start, payload.connections);
    ConnectionsCounted(start, payload.connections);
    DevicesCounted(p, payload.devices);
    ConnectionAllocatorKept(p, payload.devices);
  }

  lemma {:induction false} ConnectionAllocatorKept(p: Progress, ds: seq<DeviceEntry>)
    ensures ImportDevices(p, ds).db.nextConnection == p.db.nextConnection
  {
    hide ImportPoints;
    if ds != [] {
      var n := |ds| - 1;
      ConnectionAllocatorKept(p, ds[..n]);
      var before, e := ImportDevices(p, ds[..n]), ds[n];
      if e.value.connectionId in before.connIds {
        ImportPointsEffect(PutDevice(before, e), DeviceIdFor(before.db, e), e.points);
        hide PutPoints;
      }
    }
  }

  // ---------------------------------------------------------------------------
  // What validation lets through

  /** The limits at their edges. */
  lemma ValidationEdges(c: Connection, d: Device, p: DataPoint)
    requires ValidConnection(c) && ValidDevice(d) && ValidPoint(p)
    ensures ValidDevice(d.(slaveId := 1)) && ValidDevice(d.(slaveId := 247))
    ensures !ValidDevice(d.(slaveId := 0)) && !ValidDevice(d.(slaveId := 248))
    ensures !ValidDevice(d.(name := "")) && !ValidDevice(d.(connectionId := 0))
    ensures forall fc :: ValidPoint(p.(functionCode := fc)) <==> 1 <= fc <= 4
    ensures !ValidPoint(p.(tagName := "")) && !ValidPoint(p.(scale := 0.0)) && !ValidPoint(p.(dataType := "INT8"))
    ensures ValidPoint(p.(dataType := "INT16")) && ValidPoint(p.(dataType := "FLOAT64"))
    ensures c.protocol.TCP? ==> forall port :: ValidConnection(c.(port := port)) <==> 1 <= port <= 65535
    ensures c.protocol.TCP? ==> !ValidConnection(c.(ipAddress := ""))
    ensures c.protocol.RTU? ==> !ValidConnection(c.(serialPort := "")) && !ValidConnection(c.(baudRate := 0))
    ensures c.protocol.RTU? ==> !ValidConnection(c.(parity := "X")) && ValidConnection(c.(parity := "E"))
    ensures !ValidConnection(c.(name := "")) && !ValidConnection(c.(timeoutMs := 0)) && !ValidConnection(c.(retry := -1))
    ensures !ValidConnection(c.(nextDeviceDelayMs := -1)) && !ValidConnection(c.(protocol := OtherProtocol("x")))
  {
  }
}
