/**
 * The device service's own rules: the listing's password mask and
 * business-type names, adding and editing a device (the conflict checks,
 * the password rule and the urgency recalculation trigger), and the
 * connectivity verdict. The Excel import and export it also carries are
 * the same code as the import service's and are modelled there.
 */
module DeviceService {
  import opened Basics
  import opened Records
  import opened DeviceDao

  // ---------------------------------------------------------------- the listing

  /** What the listing and the edit form show in place of a stored password. */
  const PasswordMask := "******"

  /**
   * One listed device: the password masked, and a business-type code
   * replaced by its name when the mapping knows it.
   */
  function Masked(d: Device, typeNames: map<string, string>): (m: Device)
    ensures m.deviceId == d.deviceId
    ensures ColumnOf(m.columns, "redfish_password") == Text(PasswordMask)
    ensures var bt := ColumnOf(d.columns, "business_type");
      ColumnOf(m.columns, "business_type") == (if NonEmptyText(bt) && bt.s in typeNames then Text(typeNames[bt.s]) else bt)
    ensures forall k :: k in d.columns && k != "redfish_password" && k != "business_type" ==> k in m.columns && m.columns[k] == d.columns[k]
  {
    var bt := ColumnOf(d.columns, "business_type");
    var masked := d.columns["redfish_password" := Text(PasswordMask)];
    if NonEmptyText(bt) && bt.s in typeNames then Device(d.deviceId, masked["business_type" := Text(typeNames[bt.s])])
    else Device(d.deviceId, masked)
  }

  /**
   * The loop of `get_device_list_services` over the listed devices; the
   * mapping is empty when the business types cannot be read.
   */
  method MaskDeviceList(devices: seq<Device>, typeNames: map<string, string>) returns (shown: seq<Device>)
    ensures |shown| == |devices|
    ensures forall i :: 0 <= i < |devices| ==> shown[i] == Masked(devices[i], typeNames)
  {
    shown := [];
    for i := 0 to |devices|
      invariant |shown| == i
      invariant forall j :: 0 <= j < i ==> shown[j] == Masked(devices[j], typeNames)
    {
      var entry := Masked(devices[i], typeNames);
      shown := shown + [entry];
    }
  }

  /** No stored password is ever listed. */
  lemma ListingHidesPasswords(devices: seq<Device>, typeNames: map<string, string>, shown: seq<Device>)
    requires |shown| == |devices|
    requires forall i :: 0 <= i < |devices| ==> shown[i] == Masked(devices[i], typeNames)
    ensures forall d :: d in shown ==> ColumnOf(d.columns, "redfish_password") == Text(PasswordMask)
  {
    forall d | d in shown
      ensures ColumnOf(d.columns, "redfish_password") == Text(PasswordMask)
    {
      var i :| 0 <= i < |shown| && shown[i] == d;
      assert d == Masked(devices[i], typeNames);
    }
  }

  // ---------------------------------------------------------------- add and edit

  /** An optional address field as `get_device_by_ip` receives it. */
  function IpOf(fields: Record, k: string): Option<string> {
    var c := ColumnOf(fields, k);
    if c.Text? then Some(c.s) else None
  }

  /**
   * The password an edit stores: a new value is encrypted, while an empty
   * one or the mask keeps the stored password.
   */
  function EditedPassword(input: Cell, stored: Cell, encrypt: string -> string): (c: Cell)
    ensures NonEmptyText(input) && input.s != PasswordMask ==> c == Text(encrypt(input.s))
    ensures !(NonEmptyText(input) && input.s != PasswordMask) ==> c == stored
  {
    if NonEmptyText(input) && input.s != PasswordMask then Text(encrypt(input.s)) else stored
  }

  /** Saving the form as listed, mask and all, leaves the stored password as it was. */
  lemma MaskedFormKeepsPassword(d: Device, typeNames: map<string, string>, stored: Cell, encrypt: string -> string)
    ensures EditedPassword(ColumnOf(Masked(d, typeNames).columns, "redfish_password"), stored, encrypt) == stored
  {
  }

  /** The password an add stores: encrypted when given, as it came otherwise. */
  function AddedFields(fields: Record, encrypt: string -> string): (f: Record)
    ensures NonEmptyText(ColumnOf(fields, "redfish_password")) ==>
      f == fields["redfish_password" := Text(encrypt(ColumnOf(fields, "redfish_password").s))]
    ensures !NonEmptyText(ColumnOf(fields, "redfish_password")) ==> f == fields
  {
    var pw := ColumnOf(fields, "redfish_password");
    if NonEmptyText(pw) then fields["redfish_password" := Text(encrypt(pw.s))] else fields
  }

  /**
   * `add_device_services`: refused when a device already holds the
   * business or out-of-band IP; otherwise the device is added with its
   * password encrypted. A lookup that finds several devices raises.
   */
  method AddDeviceServices(table: DeviceTable, fields: Record, encrypt: string -> string) returns (reply: Reply)
    modifies table`rows, table`nextId
    ensures var found := DeviceByIp(old(table.rows), IpOf(fields, "business_ip"), IpOf(fields, "oob_ip"));
      (found.Found? ==> reply == Failure("业务IP或带外IP已存在")) &&
      (found.Raised? ==> reply == Propagated) &&
      (found.NoRow? ==> reply == Success("添加设备成功", map[]))
    ensures reply.Success? ==> table.rows == old(table.rows) + [Device(old(table.nextId), AddedFields(fields, encrypt))]
    ensures reply.Success? ==> table.nextId == old(table.nextId) + 1
    ensures !reply.Success? ==> table.rows == old(table.rows) && table.nextId == old(table.nextId)
    ensures old(table.Valid()) ==> table.Valid()
  {
    var found := DeviceByIp(table.rows, IpOf(fields, "business_ip"), IpOf(fields, "oob_ip"));
    match found {
      case Found(_) =>
        reply := Failure("业务IP或带外IP已存在");
      case Raised =>
        reply := Propagated;
      case NoRow =>
        var added := table.AddDevice(AddedFields(fields, encrypt));
        reply := Success("添加设备成功", map[]);
    }
  }

  /** The edit request as written to the table: the password field replaced by the one the rule keeps. */
  function EditRequest(fields: Record, stored: Device, encrypt: string -> string): Record {
    fields["redfish_password" := EditedPassword(ColumnOf(fields, "redfish_password"),
                                                ColumnOf(stored.columns, "redfish_password"), encrypt)]
  }

  /** The address lookup of an edit finds nothing, or finds the edited device itself. */
  predicate NoConflict(found: Lookup<Device>, deviceId: int) {
    found.NoRow? || (found.Found? && found.row.deviceId == deviceId)
  }

  /** A changed, non-empty business type starts the background urgency recalculation. */
  predicate TypeChanged(fields: Record, stored: Device) {
    NonEmptyText(ColumnOf(fields, "business_type")) &&
    ColumnOf(stored.columns, "business_type") != ColumnOf(fields, "business_type")
  }

  /**
   * `edit_device_services`: an unknown device and an address held by
   * another device are refused; otherwise the edit is written with the
   * password rule applied, and `recalculate` says whether the urgency
   * recalculation task is queued for the device.
   */
  method EditDeviceServices(table: DeviceTable, deviceId: int, fields: Record, encrypt: string -> string)
    returns (reply: Reply, recalculate: bool)
    modifies table`rows
    ensures DeviceById(old(table.rows), deviceId).NoRow? <==> reply == Failure("设备不存在")
    ensures DeviceById(old(table.rows), deviceId).Raised? ==> reply == Propagated
    ensures reply.Success? <==> (DeviceById(old(table.rows), deviceId).Found? &&
      NoConflict(DeviceByIp(old(table.rows), IpOf(fields, "business_ip"), IpOf(fields, "oob_ip")), deviceId))
    ensures reply.Success? ==> reply.msg == "编辑设备成功"
    ensures reply.Success? ==>
      table.rows == EditedRows(old(table.rows), deviceId, EditRequest(fields, DeviceById(old(table.rows), deviceId).row, encrypt))
    ensures !reply.Success? ==> table.rows == old(table.rows) && !recalculate
    ensures recalculate <==> reply.Success? && TypeChanged(fields, DeviceById(old(table.rows), deviceId).row)
    ensures old(table.Valid()) ==> table.Valid()
  {
    recalculate := false;
    var existing := DeviceById(table.rows, deviceId);
    match existing {
      case Raised =>
        reply := Propagated;
      case NoRow =>
        reply := Failure("设备不存在");
      case Found(stored) =>
        var conflict := DeviceByIp(table.rows, IpOf(fields, "business_ip"), IpOf(fields, "oob_ip"));
        if conflict.Raised? {
          reply := Propagated;
        } else if conflict.Found? && conflict.row.deviceId != deviceId {
          reply := Failure("业务IP或带外IP与其他设备冲突");
        } else {
          var ok := table.EditDevice(deviceId, EditRequest(fields, stored, encrypt));
          assert ok;
          reply := Success("编辑设备成功", map[]);
          recalculate := TypeChanged(fields, stored);
        }
    }
  }

  // ---------------------------------------------------------------- connectivity

  /** One probe result: its `success` entry when it has one, or the exception it raised. */
  datatype Probe = Reported(success: Option<bool>) | Threw

  /** `result.get("success", False)`, with a raised probe counted as a failure. */
  predicate Succeeded(p: Probe) {
    p.Reported? && p.success == Some(true)
  }

  /** The device is online when the ping or any of ports 22, 80 and 443 answered. */
  function Online(ping: Probe, ssh: Probe, http: Probe, https: Probe): (online: bool)
    ensures online <==> exists p :: p in [ping, ssh, http, https] && Succeeded(p)
  {
    assert ping in [ping, ssh, http, https] && ssh in [ping, ssh, http, https];
    assert http in [ping, ssh, http, https] && https in [ping, ssh, http, https];
    Succeeded(ping) || Succeeded(ssh) || Succeeded(http) || Succeeded(https)
  }

  /** The address `check_business_ip_connectivity_services` probes, or the error it reports first. */
  datatype Target = Probed(ip: string, hostname: Cell) | Refused(error: string) | LookupRaised

  function ConnectivityTarget(rows: seq<Device>, deviceId: Option<int>, businessIp: Option<string>): (t: Target)
    ensures deviceId.Some? && deviceId.value != 0 && DeviceById(rows, deviceId.value).NoRow? ==> t == Refused("设备不存在")
    ensures (deviceId.None? || deviceId.value == 0) && !Present(businessIp) ==> t == Refused("必须提供device_id或business_ip")
    ensures (deviceId.None? || deviceId.value == 0) && Present(businessIp) ==>
      t == Probed(businessIp.value, Text(businessIp.value))
    ensures t.Probed? ==> t.ip != ""
    ensures t == Refused("设备业务IP为空") <==>
      deviceId.Some? && deviceId.value != 0 && DeviceById(rows, deviceId.value).Found? &&
      !NonEmptyText(ColumnOf(DeviceById(rows, deviceId.value).row.columns, "business_ip"))
  {
    if deviceId.Some? && deviceId.value != 0 then
      match DeviceById(rows, deviceId.value)
        case Raised => LookupRaised
        case NoRow => Refused("设备不存在")
        case Found(d) =>
          var ip := ColumnOf(d.columns, "business_ip");
          if NonEmptyText(ip) then Probed(ip.s, ColumnOf(d.columns, "hostname")) else Refused("设备业务IP为空")
    else if Present(businessIp) then Probed(businessIp.value, Text(businessIp.value))
    else Refused("必须提供device_id或business_ip")
  }
}
