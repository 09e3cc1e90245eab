/**
 * The device table (`device_info`) and its data-access operations:
 * lookups by id and by IP, partial-field edits, the system-information
 * refresh, deletion, the monitoring list, statistics and the paged list.
 */
module DeviceDao {
  import opened Basics
  import opened Records

  /** A `device_info` row: the auto-increment key and the other columns by name. */
  datatype Device = Device(deviceId: int, columns: Record)

  /** Auto-increment keys: strictly increasing in insertion order and below the next key. */
  ghost predicate IdsIncreasing(rows: seq<Device>, nextId: int) {
    (forall i, j :: 0 <= i < j < |rows| ==> rows[i].deviceId < rows[j].deviceId) &&
    (forall i :: 0 <= i < |rows| ==> rows[i].deviceId < nextId)
  }

  predicate HasId(d: Device, deviceId: int) {
    d.deviceId == deviceId
  }

  /** `get_device_by_id`. */
  function DeviceById(rows: seq<Device>, deviceId: int): Lookup<Device> {
    ScalarOneOrNone(rows, (d: Device) => HasId(d, deviceId))
  }

  /** With unique keys a lookup by id finds the row holding that id, and never raises. */
  lemma DeviceByIdFinds(rows: seq<Device>, nextId: int, deviceId: int)
    requires IdsIncreasing(rows, nextId)
    ensures !DeviceById(rows, deviceId).Raised?
    ensures (exists i :: 0 <= i < |rows| && rows[i].deviceId == deviceId) <==> DeviceById(rows, deviceId).Found?
    ensures DeviceById(rows, deviceId).Found? ==> DeviceById(rows, deviceId).row.deviceId == deviceId
  {
    var p := (d: Device) => HasId(d, deviceId);
    var hits := FilterSeq(rows, p);
    CountIsFilterLength(rows, p);
    AtMostOneWithId(rows, nextId, deviceId);
    if exists i :: 0 <= i < |rows| && rows[i].deviceId == deviceId {
      var i :| 0 <= i < |rows| && rows[i].deviceId == deviceId;
      FilterSeqComplete(rows, p, rows[i]);
    }
  }

  /** At most one row carries a given key. */
  lemma {:induction false} AtMostOneWithId(rows: seq<Device>, nextId: int, deviceId: int)
    requires IdsIncreasing(rows, nextId)
    ensures |FilterSeq(rows, (d: Device) => HasId(d, deviceId))| <= 1
  {
    var p := (d: Device) => HasId(d, deviceId);
    if rows != [] {
      AtMostOneWithId(rows[1..], nextId, deviceId);
      if rows[0].deviceId == deviceId {
        forall x | x in rows[1..]
          ensures !p(x)
        {
          var j :| 0 <= j < |rows[1..]| && rows[1..][j] == x;
          assert rows[j + 1].deviceId > rows[0].deviceId;
        }
        NoneLeft(rows[1..], p);
      }
    }
  }

  // ---------------------------------------------------------------- get_device_by_ip

  /** `if business_ip:` / `if oob_ip:` — a missing or empty address adds no condition. */
  predicate Given(ip: Option<string>) {
    ip.Some? && ip.value != ""
  }

  /** The `or_` of the conditions that were given. */
  predicate IpMatches(d: Device, businessIp: Option<string>, oobIp: Option<string>) {
    (Given(businessIp) && TextEquals(ColumnOf(d.columns, "business_ip"), businessIp.value)) ||
    (Given(oobIp) && TextEquals(ColumnOf(d.columns, "oob_ip"), oobIp.value))
  }

  /**
   * `get_device_by_ip`: no lookup at all when neither address is given;
   * otherwise the single device whose business or out-of-band IP matches,
   * and `MultipleResultsFound` when several do.
   */
  function DeviceByIp(rows: seq<Device>, businessIp: Option<string>, oobIp: Option<string>): (r: Lookup<Device>)
    ensures !Given(businessIp) && !Given(oobIp) ==> r == NoRow
    ensures r.Found? ==> r.row in rows && IpMatches(r.row, businessIp, oobIp)
    ensures r.NoRow? ==> forall d :: d in rows ==> !IpMatches(d, businessIp, oobIp)
    ensures r.Raised? ==> CountIf(rows, (d: Device) => IpMatches(d, businessIp, oobIp)) >= 2
  {
    if !Given(businessIp) && !Given(oobIp) then NoRow
    else ScalarOneOrNone(rows, (d: Device) => IpMatches(d, businessIp, oobIp))
  }

  /** `get_device_by_hostname_or_ip`: the duplicate check of the import. */
  function DeviceByHostnameOrIp(rows: seq<Device>, hostname: string, oobIp: string): (r: Lookup<Device>)
    ensures r.Found? ==> (r.row in rows &&
      (TextEquals(ColumnOf(r.row.columns, "hostname"), hostname) || TextEquals(ColumnOf(r.row.columns, "oob_ip"), oobIp)))
    ensures r.NoRow? ==> forall d :: d in rows ==>
      !TextEquals(ColumnOf(d.columns, "hostname"), hostname) && !TextEquals(ColumnOf(d.columns, "oob_ip"), oobIp)
  {
    ScalarOneOrNone(rows, (d: Device) =>
      TextEquals(ColumnOf(d.columns, "hostname"), hostname) || TextEquals(ColumnOf(d.columns, "oob_ip"), oobIp))
  }

  // ---------------------------------------------------------------- edits

  /** The only keys `update_device_system_info` copies. */
  const SystemInfoKeys: set<string> := {"manufacturer", "model", "serial_number"}

  /** The system-information columns present in `system_info`, copied as they are (even `None`). */
  function SystemInfoUpdates(systemInfo: Record): (u: Record)
    ensures u.Keys == systemInfo.Keys * SystemInfoKeys
    ensures forall k :: k in u ==> u[k] == systemInfo[k]
  {
    map k | k in systemInfo && k in SystemInfoKeys :: systemInfo[k]
  }

  /** `model_dump(exclude={'device_id'}, exclude_none=True)` of an edit request. */
  function EditUpdates(fields: Record): Record {
    NonNone(fields, {"device_id"})
  }

  /** The rows after `edit_device`: the row holding the key takes the edit, any other row is untouched. */
  function EditedRows(rows: seq<Device>, deviceId: int, fields: Record): (r: seq<Device>)
    ensures |r| == |rows|
    ensures forall i :: 0 <= i < |rows| && rows[i].deviceId != deviceId ==> r[i] == rows[i]
  {
    match FirstWhere(rows, (d: Device) => HasId(d, deviceId))
      case None => rows
      case Some(i) => rows[i := Device(deviceId, rows[i].columns + EditUpdates(fields))]
  }

  /** An edit overwrites exactly the non-None fields other than `device_id`. */
  lemma EditTouchesOnlyGivenFields(columns: Record, fields: Record, k: string)
    ensures ColumnOf(columns + EditUpdates(fields), k) ==
      (if k in fields && k != "device_id" && fields[k] != SqlNull then fields[k] else ColumnOf(columns, k))
  {
    ColumnOfEdited(columns, EditUpdates(fields), k);
  }

  /** A system-information refresh changes only manufacturer, model and serial number. */
  lemma SystemInfoTouchesOnlyItsKeys(columns: Record, systemInfo: Record, k: string)
    ensures k !in SystemInfoKeys ==> ColumnOf(columns + SystemInfoUpdates(systemInfo), k) == ColumnOf(columns, k)
    ensures k in SystemInfoKeys && k in systemInfo ==> ColumnOf(columns + SystemInfoUpdates(systemInfo), k) == systemInfo[k]
    ensures k in SystemInfoKeys && k !in systemInfo ==> ColumnOf(columns + SystemInfoUpdates(systemInfo), k) == ColumnOf(columns, k)
  {
    ColumnOfEdited(columns, SystemInfoUpdates(systemInfo), k);
  }

  // ---------------------------------------------------------------- listing

  predicate Monitored(d: Device) {
    ColumnOf(d.columns, "monitor_enabled") == Number(1)
  }

  /** `get_monitoring_devices`: the rows with `monitor_enabled == 1`, ordered by id. */
  function MonitoringDevices(rows: seq<Device>): seq<Device> {
    FilterSeq(rows, Monitored)
  }

  /** A filter keeps the relative order of the rows, so key order survives it. */
  lemma FilterKeepsIdOrder(rows: seq<Device>, nextId: int, p: Device -> bool)
    requires IdsIncreasing(rows, nextId)
    ensures IdsIncreasing(FilterSeq(rows, p), nextId)
  {
    var below := (a: Device, b: Device) => a.deviceId < b.deviceId;
    assert forall i, j :: 0 <= i < j < |rows| ==> below(rows[i], rows[j]);
    FilterSeqPairwise(rows, p, below);
    var out := FilterSeq(rows, p);
    assert forall i :: 0 <= i < |out| ==> out[i] in rows;
  }

  /** The monitoring list is ordered by device id. */
  lemma MonitoringDevicesOrdered(rows: seq<Device>, nextId: int)
    requires IdsIncreasing(rows, nextId)
    ensures forall i, j :: 0 <= i < j < |MonitoringDevices(rows)| ==>
      MonitoringDevices(rows)[i].deviceId < MonitoringDevices(rows)[j].deviceId
    ensures forall d :: d in MonitoringDevices(rows) <==> d in rows && Monitored(d)
  {
    FilterKeepsIdOrder(rows, nextId, Monitored);
    forall d | d in rows && Monitored(d)
      ensures d in MonitoringDevices(rows)
    {
      FilterSeqComplete(rows, Monitored, d);
    }
  }

  /** The paged-list query (`DevicePageQueryModel`). */
  datatype DeviceQuery = DeviceQuery(
    hostname: Option<string>,
    businessIp: Option<string>,
    oobIp: Option<string>,
    location: Option<string>,
    technicalSystem: Option<string>,
    systemOwner: Option<string>,
    manufacturer: Option<string>,
    monitorEnabled: Option<int>,
    healthStatus: Option<string>,
    pageNum: int,
    pageSize: int)

  /** A truthy filter text adds `column LIKE '%text%'`; a missing or empty one adds nothing. */
  predicate LikeIfGiven(filter: Option<string>, c: Cell) {
    !Given(filter) || Like(c, filter.value)
  }

  /** The `and_` of the list conditions built in `get_device_list`. */
  predicate ListMatches(q: DeviceQuery, d: Device) {
    LikeIfGiven(q.hostname, ColumnOf(d.columns, "hostname")) &&
    LikeIfGiven(q.businessIp, ColumnOf(d.columns, "business_ip")) &&
    LikeIfGiven(q.oobIp, ColumnOf(d.columns, "oob_ip")) &&
    LikeIfGiven(q.location, ColumnOf(d.columns, "location")) &&
    LikeIfGiven(q.technicalSystem, ColumnOf(d.columns, "technical_system")) &&
    LikeIfGiven(q.systemOwner, ColumnOf(d.columns, "system_owner")) &&
    LikeIfGiven(q.manufacturer, ColumnOf(d.columns, "manufacturer")) &&
    (q.monitorEnabled.None? || ColumnOf(d.columns, "monitor_enabled") == Number(q.monitorEnabled.value)) &&
    (!Given(q.healthStatus) || TextEquals(ColumnOf(d.columns, "health_status"), q.healthStatus.value))
  }

  /** The list with its total; `Failed` is the database error a negative offset or limit raises. */
  datatype DeviceList = Listed(devices: seq<Device>, total: int) | Failed

  /**
   * `get_device_list` over the table in `create_time` descending order:
   * unpaged, every matching row and its number; paged, the page at offset
   * `(page_num - 1) * page_size` and the count over the same conditions.
   */
  function GetDeviceList(ordered: seq<Device>, q: DeviceQuery, isPage: bool): DeviceList {
    var matching := FilterSeq(ordered, (d: Device) => ListMatches(q, d));
    if !isPage then Listed(matching, |matching|)
    else match SqlPage(matching, PageOffset(q.pageNum, q.pageSize), q.pageSize)
      case None => Failed
      case Some(page) => Listed(page, CountIf(ordered, (d: Device) => ListMatches(q, d)))
  }

  /**
   * The paged total counts the rows the unpaged list returns, and page n
   * holds the matching rows `(n-1)*size` onwards, at most `size` of them.
   */
  lemma DeviceListPaging(ordered: seq<Device>, q: DeviceQuery)
    requires q.pageNum >= 1 && q.pageSize >= 0
    ensures GetDeviceList(ordered, q, true).Listed?
    ensures GetDeviceList(ordered, q, true).total == GetDeviceList(ordered, q, false).total
    ensures var page := GetDeviceList(ordered, q, true).devices;
      var all := GetDeviceList(ordered, q, false).devices;
      |page| <= q.pageSize &&
      forall k :: 0 <= k < |page| ==> PageOffset(q.pageNum, q.pageSize) + k < |all| && page[k] == all[PageOffset(q.pageNum, q.pageSize) + k]
  {
    CountIsFilterLength(ordered, (d: Device) => ListMatches(q, d));
  }

  /** A query with no filter lists the whole table. */
  lemma EmptyQueryListsAll(ordered: seq<Device>, pageNum: int, pageSize: int)
    ensures GetDeviceList(ordered, DeviceQuery(None, None, None, None, None, None, None, None, None, pageNum, pageSize), false)
      == Listed(ordered, |ordered|)
  {
    var q := DeviceQuery(None, None, None, None, None, None, None, None, None, pageNum, pageSize);
    FilterAllPass(ordered, (d: Device) => ListMatches(q, d));
  }

  // ---------------------------------------------------------------- statistics

  predicate Healthy(d: Device) {
    TextEquals(ColumnOf(d.columns, "health_status"), "ok")
  }

  predicate NotHealthy(d: Device) {
    !Healthy(d)
  }

  /**
   * `get_device_statistics`: exactly four keys, and the unhealthy count is
   * the number of devices whose health is anything but 'ok' (NULL included).
   */
  function DeviceStatistics(rows: seq<Device>): (r: map<string, int>)
    ensures r.Keys == {"total_devices", "monitoring_devices", "healthy_devices", "unhealthy_devices"}
    ensures r["total_devices"] == |rows|
    ensures r["healthy_devices"] + r["unhealthy_devices"] == r["total_devices"]
    ensures 0 <= r["monitoring_devices"] <= r["total_devices"]
    ensures r["unhealthy_devices"] == CountIf(rows, NotHealthy)
  {
    var healthy := CountIf(rows, Healthy);
    CountComplement(rows, Healthy, NotHealthy);
    map["total_devices" := |rows|,
        "monitoring_devices" := CountIf(rows, Monitored),
        "healthy_devices" := healthy,
        "unhealthy_devices" := |rows| - healthy]
  }

  // ---------------------------------------------------------------- the table

  class DeviceTable {
    var rows: seq<Device>
    var nextId: int

    ghost predicate Valid()
      reads this`rows, this`nextId
    {
      IdsIncreasing(rows, nextId)
    }

    constructor ()
      ensures Valid() && rows == [] && nextId == 1
    {
      rows := [];
      nextId := 1;
    }

    /** `add_device`: a new row with the next key and the dumped fields as columns. */
    method AddDevice(fields: Record) returns (device: Device)
      modifies this`rows, this`nextId
      ensures device == Device(old(nextId), fields)
      ensures rows == old(rows) + [device] && nextId == old(nextId) + 1
      ensures old(Valid()) ==> Valid()
    {
      device := Device(nextId, fields);
      rows := rows + [device];
      nextId := nextId + 1;
    }

    /** The position of a key, when some row holds it. */
    method IndexOf(deviceId: int) returns (found: Option<nat>)
      ensures found.Some? ==> found.value < |rows| && rows[found.value].deviceId == deviceId
      ensures found.Some? ==> forall i :: 0 <= i < found.value ==> rows[i].deviceId != deviceId
      ensures found.None? ==> forall i :: 0 <= i < |rows| ==> rows[i].deviceId != deviceId
    {
      var i := 0;
      while i < |rows|
        invariant 0 <= i <= |rows|
        invariant forall j :: 0 <= j < i ==> rows[j].deviceId != deviceId
      {
        if rows[i].deviceId == deviceId {
          return Some(i);
        }
        i := i + 1;
      }
      return None;
    }

    /**
     * `edit_device`: False for an unknown id; otherwise every non-None
     * field except `device_id` is written onto the row.
     */
    method EditDevice(deviceId: int, fields: Record) returns (ok: bool)
      modifies this`rows
      ensures ok <==> exists i :: 0 <= i < |old(rows)| && old(rows)[i].deviceId == deviceId
      ensures !ok ==> rows == old(rows)
      ensures ok ==> exists i :: (0 <= i < |old(rows)| && old(rows)[i].deviceId == deviceId &&
        rows == old(rows)[i := Device(deviceId, old(rows)[i].columns + EditUpdates(fields))])
      ensures rows == EditedRows(old(rows), deviceId, fields)
      ensures old(Valid()) ==> Valid()
    {
      var found := IndexOf(deviceId);
      if found.None? {
        return false;
      }
      var i := found.value;
      FirstWhereIs(rows, (d: Device) => HasId(d, deviceId), i);
      var columns := SetAttrs(rows[i].columns, EditUpdates(fields));
      rows := rows[i := Device(deviceId, columns)];
      return true;
    }

    /**
     * `update_device_system_info`: False for an unknown id; otherwise the
     * manufacturer, model and serial number present in `system_info` are copied.
     */
    method UpdateDeviceSystemInfo(deviceId: int, systemInfo: Record) returns (ok: bool)
      modifies this`rows
      ensures ok <==> exists i :: 0 <= i < |old(rows)| && old(rows)[i].deviceId == deviceId
      ensures !ok ==> rows == old(rows)
      ensures ok ==> exists i :: (0 <= i < |old(rows)| && old(rows)[i].deviceId == deviceId &&
        rows == old(rows)[i := Device(deviceId, old(rows)[i].columns + SystemInfoUpdates(systemInfo))])
      ensures old(Valid()) ==> Valid()
    {
      var found := IndexOf(deviceId);
      if found.None? {
        return false;
      }
      var i := found.value;
      var columns := rows[i].columns;
      if "manufacturer" in systemInfo {
        columns := columns["manufacturer" := systemInfo["manufacturer"]];
      }
      if "model" in systemInfo {
        columns := columns["model" := systemInfo["model"]];
      }
      if "serial_number" in systemInfo {
        columns := columns["serial_number" := systemInfo["serial_number"]];
      }
      assert columns == rows[i].columns + SystemInfoUpdates(systemInfo);
      rows := rows[i := Device(deviceId, columns)];
      return true;
    }

    /** `delete_device`: every row whose id is listed goes; always True. */
    method DeleteDevice(deviceIds: set<int>) returns (ok: bool)
      modifies this`rows
      ensures ok
      ensures rows == FilterSeq(old(rows), (d: Device) => d.deviceId !in deviceIds)
      ensures forall d :: d in rows <==> d in old(rows) && d.deviceId !in deviceIds
      ensures old(Valid()) ==> Valid()
    {
      var p := (d: Device) => d.deviceId !in deviceIds;
      if Valid() {
        FilterKeepsIdOrder(rows, nextId, p);
      }
      forall d | d in rows && p(d)
        ensures d in FilterSeq(rows, p)
      {
        FilterSeqComplete(rows, p, d);
      }
      rows := FilterSeq(rows, p);
      return true;
    }
  }
}
