/** Configuration export and import: rows by id, references by id, ids assigned anew when a
    row is not found. */
module ConfigIO {
  import opened Ints

  datatype Protocol = RTU | TCP | OtherProtocol(name: string)

  datatype Connection = Connection(
    name: string, protocol: Protocol, serialPort: string, ipAddress: string, port: int,
    baudRate: int, dataBits: int, parity: string, stopBits: int,
    timeoutMs: int, retry: int, enabled: bool, nextDeviceDelayMs: int)

  datatype Device = Device(name: string, connectionId: int, slaveId: int, enabled: bool)

  datatype DataPoint = DataPoint(
    deviceId: int, tagName: string, functionCode: int, address: UInt16, dataType: string,
    byteOrder: string, wordOrder: string, scale: real, offset: real, unit: string, enabled: bool)

  /** The three tables and their id allocators. */
  datatype Db = Db(
    connections: map<int, Connection>,
    devices: map<int, Device>,
    points: map<int, DataPoint>,
    nextConnection: int,
    nextDevice: int,
    nextPoint: int)

  const EMPTY_DB := Db(map[], map[], map[], 1, 1, 1)

  datatype Entry<T> = Entry(id: int, value: T)

  datatype DeviceEntry = DeviceEntry(id: int, value: Device, points: seq<Entry<DataPoint>>)

  datatype Payload = Payload(connections: seq<Entry<Connection>>, devices: seq<DeviceEntry>)

  datatype Counts = Counts(
    connectionsCreated: nat, connectionsUpdated: nat,
    devicesCreated: nat, devicesUpdated: nat,
    pointsCreated: nat, pointsUpdated: nat,
    errors: seq<string>)

  const NO_COUNTS := Counts(0, 0, 0, 0, 0, 0, [])

  // ---------------------------------------------------------------------------
  // Validation

  predicate ValidConnection(c: Connection) {
    && c.name != ""
    && (match c.protocol
        case TCP => c.ipAddress != "" && 0 < c.port <= 65535
        case RTU => c.serialPort != "" && c.baudRate > 0 && (c.parity == "N" || c.parity == "E" || c.parity == "O")
        case OtherProtocol(_) => false)
    && c.timeoutMs > 0 && c.retry >= 0 && c.nextDeviceDelayMs >= 0
  }

  predicate ValidDevice(d: Device) {
    d.name != "" && d.connectionId > 0 && 1 <= d.slaveId <= 247
  }

  predicate ValidPoint(p: DataPoint) {
    && p.tagName != "" && 1 <= p.functionCode <= 4
    && p.dataType in {"INT16", "UINT16", "INT32", "UINT32", "FLOAT32", "FLOAT64"}
    && p.scale != 0.0
  }

  predicate ValidPayload(p: Payload) {
    && (forall c <- p.connections :: ValidConnection(c.value))
    && (forall d <- p.devices :: ValidDevice(d.value) && forall x <- d.points :: ValidPoint(x.value))
  }

  // ---------------------------------------------------------------------------
  // Import, row by row

  datatype Progress = Progress(db: Db, counts: Counts, connIds: map<int, int>)

  /** A connection whose id is found is updated, any other is created; either way the map
      records where it went. */
  function ImportConnection(p: Progress, e: Entry<Connection>): Progress {
    var db, n := p.db, p.counts;
    if e.id != 0 && e.id in db.connections then
      Progress(db.(connections := db.connections[e.id := e.value]),
               n.(connectionsUpdated := n.connectionsUpdated + 1), p.connIds[e.id := e.id])
    else
      Progress(db.(connections := db.connections[db.nextConnection := e.value], nextConnection := db.nextConnection + 1),
               n.(connectionsCreated := n.connectionsCreated + 1), p.connIds[e.id := db.nextConnection])
  }

  /** Update keeps the row's device, Create takes the importing one. */
  function ImportPoint(p: Progress, deviceId: int, e: Entry<DataPoint>): Progress {
    var db, n := p.db, p.counts;
    if e.id != 0 && e.id in db.points then
      p.(db := db.(points := db.points[e.id := e.value.(deviceId := db.points[e.id].deviceId)]),
         counts := n.(pointsUpdated := n.pointsUpdated + 1))
    else
      p.(db := db.(points := db.points[db.nextPoint := e.value.(deviceId := deviceId)], nextPoint := db.nextPoint + 1),
         counts := n.(pointsCreated := n.pointsCreated + 1))
  }

  function ImportPoints(p: Progress, deviceId: int, es: seq<Entry<DataPoint>>): Progress {
    if es == [] then p else ImportPoint(ImportPoints(p, deviceId, es[..|es| - 1]), deviceId, es[|es| - 1])
  }

  /** The id a device entry ends up under. */
  function DeviceIdFor(db: Db, e: DeviceEntry): int {
    if e.id != 0 && e.id in db.devices then e.id else db.nextDevice
  }

  function PutDevice(p: Progress, e: DeviceEntry): Progress
    requires e.value.connectionId in p.connIds
  {
    var db, n := p.db, p.counts;
    var d := e.value.(connectionId := p.connIds[e.value.connectionId]);
    if e.id != 0 && e.id in db.devices then
      p.(db := db.(devices := db.devices[e.id := d]), counts := n.(devicesUpdated := n.devicesUpdated + 1))
    else
      p.(db := db.(devices := db.devices[db.nextDevice := d], nextDevice := db.nextDevice + 1),
         counts := n.(devicesCreated := n.devicesCreated + 1))
  }

  function ImportDevice(p: Progress, e: DeviceEntry): Progress {
    if e.value.connectionId !in p.connIds then
      p.(counts := p.counts.(errors := p.counts.errors + [e.value.name]))
    else ImportPoints(PutDevice(p, e), DeviceIdFor(p.db, e), e.points)
  }

  function ImportConnections(p: Progress, es: seq<Entry<Connection>>): Progress {
    if es == [] then p else ImportConnection(ImportConnections(p, es[..|es| - 1]), es[|es| - 1])
  }

  function ImportDevices(p: Progress, es: seq<DeviceEntry>): Progress {
    if es == [] then p else ImportDevice(ImportDevices(p, es[..|es| - 1]), es[|es| - 1])
  }

  function ImportAll(db: Db, payload: Payload): Progress {
    ImportDevices(ImportConnections(Progress(db, NO_COUNTS, map[]), payload.connections), payload.devices)
  }

  /** importConfig: one invalid row refuses the whole payload. */
  function ImportConfig(db: Db, payload: Payload): (Db, Option<Counts>) {
    if !ValidPayload(payload) then (db, None)
    else
      var p := ImportAll(db, payload);
      (p.db, Some(p.counts))
  }

  // ---------------------------------------------------------------------------
  // Export

  /** The rows of a table in id order. */
  ghost predicate Lists<T>(es: seq<Entry<T>>, m: map<int, T>) {
    && (forall i, j :: 0 <= i < j < |es| ==> es[i].id < es[j].id)
    && (forall e <- es :: e.id in m && m[e.id] == e.value)
    && (forall id <- m :: exists e <- es :: e.id == id)
  }

  function PointsOf(db: Db, deviceId: int): map<int, DataPoint> {
    map id | id in db.points && db.points[id].deviceId == deviceId :: db.points[id]
  }

  ghost predicate ListsDevices(es: seq<DeviceEntry>, db: Db) {
    && (forall i, j :: 0 <= i < j < |es| ==> es[i].id < es[j].id)
    && (forall e <- es :: e.id in db.devices && db.devices[e.id] == e.value && Lists(e.points, PointsOf(db, e.id)))
    && (forall id <- db.devices :: exists e <- es :: e.id == id)
  }

  ghost predicate IsExport(payload: Payload, db: Db) {
    Lists(payload.connections, db.connections) && ListsDevices(payload.devices, db)
  }

  /** What the schema guarantees: positive ids below the allocators, references that resolve. */
  ghost predicate WellFormed(db: Db) {
    && (forall id <- db.connections :: 1 <= id < db.nextConnection)
    && (forall id <- db.devices :: 1 <= id < db.nextDevice && db.devices[id].connectionId in db.connections)
    && (forall id <- db.points :: 1 <= id < db.nextPoint && db.points[id].deviceId in db.devices)
    && db.nextConnection >= 1 && db.nextDevice >= 1 && db.nextPoint >= 1
  }

  /** Every row would pass validation. The schema does not see to it: slave_id may be NULL. */
  ghost predicate RowsValid(db: Db) {
    && (forall id <- db.connections :: ValidConnection(db.connections[id]))
    && (forall id <- db.devices :: ValidDevice(db.devices[id]))
    && (forall id <- db.points :: ValidPoint(db.points[id]))
  }
}
