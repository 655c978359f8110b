/** The gateway's configuration tables, with export and import as the loops they are. */
module ConfigStore {
  import opened Ints
  import opened ConfigIO

  class Gateway {
    var db: Db

    constructor (db: Db)
      ensures this.db == db
    {
      this.db := db;
    }

    /** importConfig. An invalid payload changes nothing. */
    method Import(payload: Payload) returns (r: Option<Counts>)
      modifies this
      ensures (db, r) == ImportConfig(old(db), payload)
      ensures r.Some? <==> ValidPayload(payload)
      ensures r.None? ==> db == old(db)
    {
      if !ValidPayload(payload) {
        return None;
      }
      var counts, connIds := RestoreConnections(payload.connections);
      ghost var start := Progress(db, counts, connIds);
      for i := 0 to |payload.devices|
        invariant Progress(db, counts, connIds) == ImportDevices(start, payload.devices[..i])
      {
        var e := payload.devices[i];
        assert payload.devices[..i + 1][..i] == payload.devices[..i];
        if e.value.connectionId !in connIds {
          counts := counts.(errors := counts.errors + [e.value.name]);
          continue;
        }
        counts := RestoreDevice(e, counts, connIds);
      }
      assert payload.devices[..|payload.devices|] == payload.devices;
      r := Some(counts);
    }

    method RestoreConnections(es: seq<Entry<Connection>>) returns (counts: Counts, connIds: map<int, int>)
      modifies this
      ensures Progress(db, counts, connIds) == ImportConnections(Progress(old(db), NO_COUNTS, map[]), es)
    {
      counts, connIds := NO_COUNTS, map[];
      for i := 0 to |es|
        invariant Progress(db, counts, connIds) == ImportConnections(Progress(old(db), NO_COUNTS, map[]), es[..i])
      {
        var e := es[i];
        assert es[..i + 1][..i] == es[..i];
        var connId := 0;
        if e.id != 0 && e.id in db.connections {
          db := db.(connections := db.connections[e.id := e.value]);
          connId := e.id;
          counts := counts.(connectionsUpdated := counts.connectionsUpdated + 1);
        } else {
          connId := db.nextConnection;
          db := db.(connections := db.connections[connId := e.value], nextConnection := connId + 1);
          counts := counts.(connectionsCreated := counts.connectionsCreated + 1);
        }
        connIds := connIds[e.id := connId];
      }
      assert es[..|es|] == es;
    }

    /** One device and its data points. */
    method RestoreDevice(e: DeviceEntry, before: Counts, connIds: map<int, int>) returns (counts: Counts)
      requires e.value.connectionId in connIds
      modifies this
      ensures Progress(db, counts, connIds) == ImportDevice(Progress(old(db), before, connIds), e)
    {
      counts := before;
      var d := e.value.(connectionId := connIds[e.value.connectionId]);
      var deviceId := 0;
      if e.id != 0 && e.id in db.devices {
        db := db.(devices := db.devices[e.id := d]);
        deviceId := e.id;
        counts := counts.(devicesUpdated := counts.devicesUpdated + 1);
      } else {
        deviceId := db.nextDevice;
        db := db.(devices := db.devices[deviceId := d], nextDevice := deviceId + 1);
        counts := counts.(devicesCreated := counts.devicesCreated + 1);
      }
      ghost var placed := Progress(db, counts, connIds);
      for i := 0 to |e.points|
        invariant Progress(db, counts, connIds) == ImportPoints(placed, deviceId, e.points[..i])
      {
        var x := e.points[i];
        assert e.points[..i + 1][..i] == e.points[..i];
        if x.id != 0 && x.id in db.points {
          db := db.(points := db.points[x.id := x.value.(deviceId := db.points[x.id].deviceId)]);
          counts := counts.(pointsUpdated := counts.pointsUpdated + 1);
          continue;
        }
        db := db.(points := db.points[db.nextPoint := x.value.(deviceId := deviceId)], nextPoint := db.nextPoint + 1);
        counts := counts.(pointsCreated := counts.pointsCreated + 1);
      }
      assert e.points[..|e.points|] == e.points;
    }

    /** exportConfig: every table in id order, points under their device. */
    method Export() returns (payload: Payload)
      ensures IsExport(payload, db)
    {
      hide PointsOf;
      var connections := ListById(db.connections);
      var rows := ListById(db.devices);
      var devices: seq<DeviceEntry> := [];
      for i := 0 to |rows|
        invariant |devices| == i
        invariant forall k :: 0 <= k < i ==>
                    devices[k].id == rows[k].id && devices[k].value == rows[k].value
                    && Lists(devices[k].points, PointsOf(db, devices[k].id))
      {
        var points := ListById(PointsOf(db, rows[i].id));
        devices := devices + [DeviceEntry(rows[i].id, rows[i].value, points)];
      }
      payload := Payload(connections, devices);
      DevicesListed(rows, devices, db);
    }
  }

  lemma DevicesListed(rows: seq<Entry<Device>>, es: seq<DeviceEntry>, db: Db)
    requires Lists(rows, db.devices) && |es| == |rows|
    requires forall k :: 0 <= k < |es| ==>
               es[k].id == rows[k].id && es[k].value == rows[k].value && Lists(es[k].points, PointsOf(db, es[k].id))
    ensures ListsDevices(es, db)
  {
    forall k | 0 <= k < |es| ensures es[k].id in db.devices && db.devices[es[k].id] == es[k].value {
      assert rows[k] in rows;
    }
    forall id | id in db.devices ensures exists e <- es :: e.id == id {
      var r :| r in rows && r.id == id;
      var k :| 0 <= k < |rows| && rows[k] == r;
      assert es[k] in es;
    }
  }

  lemma SmallestExists(s: set<int>) returns (k: int)
    requires s != {}
    ensures k in s && forall x <- s :: k <= x
    decreases |s|
  {
    if forall x :: x !in s {
      assert false;
    }
    var first :| first in s;
    var rest := s - {first};
    assert s == rest + {first};
    k := first;
    if rest != {} {
      var m := SmallestExists(rest);
      if m < first {
        k := m;
      }
    }
  }

  /** SELECT ... ORDER BY id. */
  method ListById<T>(m: map<int, T>) returns (es: seq<Entry<T>>)
    ensures Lists(es, m)
  {
    es := [];
    var todo := m.Keys;
    while todo != {}
      invariant todo <= m.Keys
      invariant forall i, j :: 0 <= i < j < |es| ==> es[i].id < es[j].id
      invariant forall e <- es :: e.id in m && m[e.id] == e.value && e.id !in todo && forall x <- todo :: e.id < x
      invariant forall id <- m :: id in todo || exists e <- es :: e.id == id
      decreases |todo|
    {
      ghost var least := SmallestExists(todo);
      var id :| id in todo && forall x <- todo :: id <= x;
      ListedSoFar(m, es, todo, id);
      es := es + [Entry(id, m[id])];
      todo := todo - {id};
    }
  }

  /** One row more at the end of the list. */
  lemma ListedSoFar<T>(m: map<int, T>, es: seq<Entry<T>>, todo: set<int>, id: int)
    requires id in m && forall i, j :: 0 <= i < j < |es| ==> es[i].id < es[j].id
    requires forall e <- es :: e.id < id
    requires forall x <- m :: x in todo || exists e <- es :: e.id == x
    ensures var all := es + [Entry(id, m[id])];
            && (forall i, j :: 0 <= i < j < |all| ==> all[i].id < all[j].id)
            && (forall x <- m :: x in todo - {id} || exists e <- all :: e.id == x)
  {
    var all := es + [Entry(id, m[id])];
    assert all[|es|] in all;
    forall i | 0 <= i < |es| ensures all[i].id < id {
      assert es[i] in es;
    }
    forall x | x in m && x !in todo && x != id ensures exists e <- all :: e.id == x {
      var e :| e in es && e.id == x;
      assert e in all;
    }
  }
}
