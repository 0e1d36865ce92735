/**
 The hub's device table (internal/hub/store/sqlite.go). The store has a single
 connection, so every statement is one atomic step: each is a function from a
 table to a table, and the class `DeviceStore` is proved to perform exactly that
 function. A statement that reports an error has no effect.
 */
module DeviceTable {

  datatype Device = Device(id: string)

  datatype Status = Registered | Online | Offline

  /** `beat` is last_heartbeat; times are integers on one nondecreasing clock. */
  datatype Row = Row(nickname: string, ip: string, port: int, status: Status, beat: int)

  type Table = map<Device, Row>

  predicate IsOnline(t: Table, d: Device) {
    d in t && t[d].status == Online
  }

  function OnlineOf(t: Table): set<Device> {
    set d | d in t && t[d].status == Online
  }

  predicate Stale(t: Table, d: Device, threshold: int) {
    IsOnline(t, d) && t[d].beat < threshold
  }

  predicate Promotable(t: Table, d: Device) {
    d in t && t[d].status == Offline
  }

  predicate Prunable(t: Table, d: Device, threshold: int, active: set<Device>) {
    d in t && t[d].status == Offline && t[d].beat < threshold && d !in active
  }

  function Beat(t: Table, d: Device, now: int): Table {
    if d in t then t[d := t[d].(beat := now)] else t
  }

  function SetStatus(t: Table, d: Device, status: Status, ip: string, port: int): Table {
    if d in t then t[d := t[d].(status := status, ip := ip, port := port)] else t
  }

  function DemoteIfStale(t: Table, d: Device, threshold: int): Table {
    if Stale(t, d, threshold) then t[d := t[d].(status := Offline)] else t
  }

  function DemoteRow(r: Row): Row {
    if r.status == Online then r.(status := Offline) else r
  }

  function DemoteAll(t: Table): Table {
    map d | d in t :: DemoteRow(t[d])
  }

  /** A non-empty ip replaces last_ip; an empty one leaves it alone. */
  function Promote(t: Table, d: Device, ip: string): Table {
    if Promotable(t, d)
    then t[d := t[d].(status := Online, ip := if ip == "" then t[d].ip else ip)]
    else t
  }

  /** device_id is the primary key and nickname is unique. */
  predicate Insertable(t: Table, d: Device, nickname: string) {
    d !in t && forall e | e in t :: t[e].nickname != nickname
  }

  function Insert(t: Table, d: Device, r: Row): Table {
    if Insertable(t, d, r.nickname) then t[d := r] else t
  }

  function Delete(t: Table, ds: set<Device>): Table {
    t - ds
  }

  /** A select's answer: the wanted rows, each once, in some order. */
  ghost predicate Lists(answer: seq<Device>, wanted: set<Device>) {
    && (forall d :: d in answer <==> d in wanted)
    && (forall i, j | 0 <= i < j < |answer| :: answer[i] != answer[j])
  }

  function StaleOf(t: Table, threshold: int): set<Device> {
    set d | d in t && Stale(t, d, threshold)
  }

  /** The store: one mutable table. Its methods are the SQL statements the hub runs. */
  class DeviceStore {
    var rows: Table

    constructor (rows: Table)
      ensures this.rows == rows
    {
      this.rows := rows;
    }

    method UpdateHeartbeat(d: Device, now: int) returns (found: bool)
      modifies this
      ensures rows == Beat(old(rows), d, now)
      ensures found <==> d in old(rows)
      ensures rows.Keys == old(rows).Keys && forall e | e in rows && e != d :: rows[e] == old(rows)[e]
      ensures found ==> var r := old(rows)[d]; rows[d] == Row(r.nickname, r.ip, r.port, r.status, now)
    {
      found := d in rows;
      if found {
        rows := rows[d := rows[d].(beat := now)];
      }
    }

    method UpdateDeviceStatus(d: Device, status: Status, ip: string, port: int) returns (found: bool)
      modifies this
      ensures rows == SetStatus(old(rows), d, status, ip, port)
      ensures found <==> d in old(rows)
      ensures rows.Keys == old(rows).Keys && forall e | e in rows && e != d :: rows[e] == old(rows)[e]
      ensures found ==> rows[d] == Row(old(rows)[d].nickname, ip, port, status, old(rows)[d].beat)
    {
      found := d in rows;
      if found {
        rows := rows[d := rows[d].(status := status, ip := ip, port := port)];
      }
    }

    /** Demotes only a row that is still online and still stale, and reports whether it did. */
    method MarkOfflineIfStale(d: Device, threshold: int) returns (demoted: bool)
      modifies this
      ensures rows == DemoteIfStale(old(rows), d, threshold)
      ensures demoted <==> d in old(rows) && old(rows)[d].status == Online && old(rows)[d].beat < threshold
      ensures OnlineOf(rows) == OnlineOf(old(rows)) - (if demoted then {d} else {})
      ensures rows.Keys == old(rows).Keys && forall e | e in rows && (e != d || !demoted) :: rows[e] == old(rows)[e]
      ensures demoted ==> var r := old(rows)[d]; rows[d] == Row(r.nickname, r.ip, r.port, Offline, r.beat)
    {
      demoted := d in rows && rows[d].status == Online && rows[d].beat < threshold;
      if demoted {
        rows := rows[d := rows[d].(status := Offline)];
      }
    }

    /** One statement over all rows; reports how many online rows it demoted. */
    method MarkAllOffline() returns (demoted: nat)
      modifies this
      ensures rows == DemoteAll(old(rows))
      ensures OnlineOf(rows) == {} && demoted == |OnlineOf(old(rows))|
      ensures rows.Keys == old(rows).Keys
      ensures forall e | e in rows && old(rows)[e].status != Online :: rows[e] == old(rows)[e]
      ensures forall e | e in rows && old(rows)[e].status == Online ::
                var r := old(rows)[e]; rows[e] == Row(r.nickname, r.ip, r.port, Offline, r.beat)
    {
      var online := set d | d in rows && rows[d].status == Online;
      demoted := |online|;
      rows := map d | d in rows :: if d in online then rows[d].(status := Offline) else rows[d];
    }

    method MarkOnlineIfOffline(d: Device, ip: string) returns (promoted: bool)
      modifies this
      ensures rows == Promote(old(rows), d, ip)
      ensures promoted <==> d in old(rows) && old(rows)[d].status == Offline
      ensures OnlineOf(rows) == OnlineOf(old(rows)) + (if promoted then {d} else {})
      ensures promoted <==> OnlineOf(rows) != OnlineOf(old(rows))
      ensures rows.Keys == old(rows).Keys && forall e | e in rows && (e != d || !promoted) :: rows[e] == old(rows)[e]
      ensures promoted ==>
                var r := old(rows)[d];
                && rows[d] == Row(r.nickname, rows[d].ip, r.port, Online, r.beat)
                && (ip == "" ==> rows[d].ip == r.ip) && (ip != "" ==> rows[d].ip == ip)
    {
      promoted := d in rows && rows[d].status == Offline;
      if promoted {
        assert d !in OnlineOf(rows);
        rows := rows[d := rows[d].(status := Online, ip := if ip == "" then rows[d].ip else ip)];
        assert d in OnlineOf(rows);
      }
    }

    /** Fails without effect on a duplicate device_id or nickname. */
    method CreateDevice(d: Device, r: Row) returns (created: bool)
      modifies this
      ensures rows == Insert(old(rows), d, r)
      ensures created <==> d !in old(rows) && forall e | e in old(rows) :: old(rows)[e].nickname != r.nickname
      ensures rows.Keys == old(rows).Keys + (if created then {d} else {})
      ensures (forall e | e in old(rows) :: rows[e] == old(rows)[e]) && (created ==> rows[d] == r)
    {
      created := d !in rows && forall e | e in rows :: rows[e].nickname != r.nickname;
      if created {
        rows := rows[d := r];
      }
    }

    method ListOnlineDevices() returns (online: seq<Device>)
      ensures Lists(online, OnlineOf(rows))
      ensures forall d :: d in online <==> d in rows && rows[d].status == Online
      ensures forall i, j | 0 <= i < j < |online| :: online[i] != online[j]
    {
      online := [];
      var todo := rows.Keys;
      while todo != {}
        invariant todo <= rows.Keys
        invariant Lists(online, OnlineOf(rows) - todo)
      {
        var d :| d in todo;
        todo := todo - {d};
        if rows[d].status == Online {
          online := online + [d];
        }
      }
    }

    /** GetStaleDevices: the online rows last heard of before the threshold. */
    method ListStaleDevices(threshold: int) returns (stale: seq<Device>)
      ensures Lists(stale, StaleOf(rows, threshold))
      ensures forall d :: d in stale <==> d in rows && rows[d].status == Online && rows[d].beat < threshold
      ensures forall i, j | 0 <= i < j < |stale| :: stale[i] != stale[j]
    {
      stale := [];
      var todo := rows.Keys;
      while todo != {}
        invariant todo <= rows.Keys
        invariant Lists(stale, StaleOf(rows, threshold) - todo)
      {
        var d :| d in todo;
        todo := todo - {d};
        if rows[d].status == Online && rows[d].beat < threshold {
          stale := stale + [d];
        }
      }
    }
  }
}
