/**
 * The Excel import and export of devices: the required columns, the checks
 * on each sheet row, the insert-or-update of each row with its counters and
 * error list, the result message, and the formatting of an exported row.
 * The device service carries a copy of the same import and export code,
 * and this module stands for both.
 */
module DeviceImportService {
  import opened Basics
  import opened Records
  import opened Exports
  import opened DeviceDao
  import opened Dates

  // ---------------------------------------------------------------- sheet rows

  /** A sheet row read with `dtype=str` and `fillna('')`: column header to text. */
  type Row = map<string, string>

  /** `row.get(header, default)`. */
  function RowGet(row: Row, header: string, default: string): string {
    if header in row then row[header] else default
  }

  const RequiredHeaders: seq<string> := ["主机名*", "业务IP*", "带外IP*"]

  /** The required columns the sheet lacks, in the order they are listed. */
  function Missing(columns: set<string>): (m: seq<string>)
    ensures forall h :: h in m <==> h in RequiredHeaders && h !in columns
    ensures |m| <= |RequiredHeaders|
  {
    FilterSeqMembers(RequiredHeaders, (h: string) => h !in columns);
    FilterSeq(RequiredHeaders, (h: string) => h !in columns)
  }

  /** The codes an import accepts: the configured business types, or only OTHER when they cannot be read. */
  function AcceptedTypes(fetched: Option<set<string>>): set<string> {
    if fetched.Some? then fetched.value else {"OTHER"}
  }

  /** `text.strip() or 'admin'`: never empty, never padded. */
  function Credential(text: string): (c: string)
    ensures c != "" && Trimmed(c)
    ensures Strip(text) != "" ==> c == Strip(text)
    ensures Strip(text) == "" ==> c == "admin"
  {
    StripIsTrimmed(text);
    if Strip(text) != "" then Strip(text) else "admin"
  }

  /** `value if value else None`. */
  function OptionalText(text: string): Cell {
    if text == "" then SqlNull else Text(text)
  }

  /** The settings of one import: accepted codes, `update_support`, the user, the clock and the password cipher. */
  datatype Settings = Settings(types: set<string>, updateSupport: bool, user: string, now: int, encrypt: string -> string)

  /** The password as stored: the cipher applied to the sheet's credential. */
  function StoredPassword(row: Row, s: Settings): Cell {
    Text(s.encrypt(Credential(RowGet(row, "Redfish密码", ""))))
  }

  /** The model fields read from optional sheet cells, which a blank cell leaves `None`. */
  const OptionalFields: set<string> := {"operating_system", "serial_number", "model", "manufacturer",
                                        "technical_system", "system_owner", "remark"}

  /** The columns of an added device that come straight from the sheet. */
  function SheetFields(row: Row): Record {
    map["hostname" := Text(RowGet(row, "主机名*", "")),
        "business_ip" := OptionalText(RowGet(row, "业务IP*", "")),
        "oob_ip" := Text(RowGet(row, "带外IP*", "")),
        "location" := Text(RowGet(row, "机房位置", "")),
        "operating_system" := OptionalText(RowGet(row, "操作系统", "")),
        "serial_number" := OptionalText(RowGet(row, "序列号", "")),
        "model" := OptionalText(RowGet(row, "设备型号", "")),
        "manufacturer" := OptionalText(RowGet(row, "厂商", "")),
        "technical_system" := OptionalText(RowGet(row, "技术系统", "")),
        "system_owner" := OptionalText(RowGet(row, "系统负责人", "")),
        "remark" := OptionalText(RowGet(row, "备注", ""))]
  }

  /** The columns of an added device that the import sets itself. */
  function AddedFields(row: Row, businessType: string, s: Settings): Record {
    map["oob_port" := Number(443),
        "business_type" := Text(businessType),
        "health_status" := Text("unknown"),
        "monitor_enabled" := Number(1),
        "redfish_username" := Text(Credential(RowGet(row, "Redfish用户名", ""))),
        "redfish_password" := StoredPassword(row, s),
        "create_by" := Text(s.user),
        "create_time" := Number(s.now)]
  }

  /**
   * `AddDeviceModel(...).model_dump()` with the encrypted password: the
   * columns of a device added from a row.
   */
  function Inserted(row: Row, businessType: string, s: Settings): Record {
    SheetFields(row) + AddedFields(row, businessType, s)
  }

  /** The sheet's columns of an added device: every optional field, the hostname and the out-of-band IP. */
  lemma SheetColumns(row: Row)
    ensures forall k :: k in OptionalFields ==> k in SheetFields(row)
    ensures ColumnOf(SheetFields(row), "hostname") == Text(RowGet(row, "主机名*", ""))
    ensures ColumnOf(SheetFields(row), "oob_ip") == Text(RowGet(row, "带外IP*", ""))
  {
  }

  /** The columns the import sets on an added device, none of them the hostname or the out-of-band IP. */
  lemma AddedColumns(row: Row, businessType: string, s: Settings)
    ensures var f := AddedFields(row, businessType, s);
      ColumnOf(f, "business_type") == Text(businessType) && ColumnOf(f, "oob_port") == Number(443) &&
      ColumnOf(f, "health_status") == Text("unknown") && ColumnOf(f, "monitor_enabled") == Number(1) &&
      ColumnOf(f, "redfish_username") == Text(Credential(RowGet(row, "Redfish用户名", ""))) &&
      ColumnOf(f, "redfish_password") == StoredPassword(row, s) &&
      ColumnOf(f, "create_by") == Text(s.user) && ColumnOf(f, "create_time") == Number(s.now) &&
      "hostname" !in f && "oob_ip" !in f
  {
  }

  /**
   * A device added from a row keeps the sheet's hostname and out-of-band
   * IP and every optional field, and takes the business type, port 443,
   * health unknown, monitoring on, the credential rule, the encrypted
   * password, the creator and the creation time.
   */
  lemma InsertedColumns(row: Row, businessType: string, s: Settings)
    ensures var f := Inserted(row, businessType, s);
      (forall k :: k in OptionalFields ==> k in f) &&
      ColumnOf(f, "hostname") == Text(RowGet(row, "主机名*", "")) && ColumnOf(f, "oob_ip") == Text(RowGet(row, "带外IP*", "")) &&
      ColumnOf(f, "business_type") == Text(businessType) && ColumnOf(f, "oob_port") == Number(443) &&
      ColumnOf(f, "health_status") == Text("unknown") && ColumnOf(f, "monitor_enabled") == Number(1) &&
      ColumnOf(f, "redfish_username") == Text(Credential(RowGet(row, "Redfish用户名", ""))) &&
      ColumnOf(f, "redfish_password") == StoredPassword(row, s) &&
      ColumnOf(f, "create_by") == Text(s.user) && ColumnOf(f, "create_time") == Number(s.now)
  {
    var sheet, added := SheetFields(row), AddedFields(row, businessType, s);
    SheetColumns(row);
    AddedColumns(row, businessType, s);
    assert forall k :: k in added ==> ColumnOf(sheet + added, k) == ColumnOf(added, k);
    assert forall k :: k !in added ==> ColumnOf(sheet + added, k) == ColumnOf(sheet, k);
  }

  /**
   * The `EditDeviceModel(...)` built for an existing device, with the
   * encrypted password: the same sheet values, no port and no creator, the
   * updater and the update time.
   */
  function EditFields(row: Row, businessType: string, deviceId: int, s: Settings): Record {
    map["device_id" := Number(deviceId),
        "hostname" := Text(RowGet(row, "主机名*", "")),
        "business_ip" := OptionalText(RowGet(row, "业务IP*", "")),
        "oob_ip" := Text(RowGet(row, "带外IP*", "")),
        "location" := Text(RowGet(row, "机房位置", "")),
        "operating_system" := OptionalText(RowGet(row, "操作系统", "")),
        "serial_number" := OptionalText(RowGet(row, "序列号", "")),
        "model" := OptionalText(RowGet(row, "设备型号", "")),
        "manufacturer" := OptionalText(RowGet(row, "厂商", "")),
        "technical_system" := OptionalText(RowGet(row, "技术系统", "")),
        "system_owner" := OptionalText(RowGet(row, "系统负责人", "")),
        "business_type" := Text(businessType),
        "health_status" := Text("unknown"),
        "monitor_enabled" := Number(1),
        "redfish_username" := Text(Credential(RowGet(row, "Redfish用户名", ""))),
        "redfish_password" := StoredPassword(row, s),
        "remark" := OptionalText(RowGet(row, "备注", "")),
        "update_by" := Text(s.user),
        "update_time" := Number(s.now)]
  }

  /** The columns an update from a row sets. */
  const EditKeys: set<string> := {"device_id", "hostname", "business_ip", "oob_ip", "location", "operating_system",
    "serial_number", "model", "manufacturer", "technical_system", "system_owner", "business_type", "health_status",
    "monitor_enabled", "redfish_username", "redfish_password", "remark", "update_by", "update_time"}

  lemma EditKeysLackCreation()
    ensures "oob_port" !in EditKeys && "create_by" !in EditKeys && "create_time" !in EditKeys
  {
  }

  /** An update from a row sets exactly the `EditKeys`: no port, no creator and no creation time. */
  lemma EditLeavesCreationColumns(row: Row, businessType: string, deviceId: int, s: Settings)
    ensures var f := EditFields(row, businessType, deviceId, s);
      f.Keys == EditKeys && "oob_port" !in f && "create_by" !in f && "create_time" !in f
  {
    EditKeysLackCreation();
  }

  /** An update from a row carries the device id, health unknown, the encrypted password and the updater. */
  lemma EditColumns(row: Row, businessType: string, deviceId: int, s: Settings)
    ensures var f := EditFields(row, businessType, deviceId, s);
      ColumnOf(f, "device_id") == Number(deviceId) && ColumnOf(f, "health_status") == Text("unknown") &&
      ColumnOf(f, "redfish_password") == StoredPassword(row, s) &&
      ColumnOf(f, "update_by") == Text(s.user) && ColumnOf(f, "update_time") == Number(s.now)
  {
  }

  /**
   * Updating from the sheet never clears a column: a blank remark keeps
   * the stored remark, and the port, the creator and the creation time
   * keep theirs, while the health is reset to unknown.
   */
  lemma UpdateKeepsUnsetColumns(columns: Record, row: Row, businessType: string, deviceId: int, s: Settings)
    requires RowGet(row, "备注", "") == ""
    ensures var after := columns + EditUpdates(EditFields(row, businessType, deviceId, s));
      ColumnOf(after, "remark") == ColumnOf(columns, "remark") &&
      ColumnOf(after, "oob_port") == ColumnOf(columns, "oob_port") &&
      ColumnOf(after, "create_time") == ColumnOf(columns, "create_time") &&
      ColumnOf(after, "health_status") == Text("unknown")
  {
    var f := EditFields(row, businessType, deviceId, s);
    EditLeavesCreationColumns(row, businessType, deviceId, s);
    EditColumns(row, businessType, deviceId, s);
    EditTouchesOnlyGivenFields(columns, f, "remark");
    EditTouchesOnlyGivenFields(columns, f, "oob_port");
    EditTouchesOnlyGivenFields(columns, f, "create_time");
    EditTouchesOnlyGivenFields(columns, f, "health_status");
  }

  // ---------------------------------------------------------------- the import loop

  /** The table, the success counter and the error list as the loop leaves them after some rows. */
  datatype ImportState = ImportState(rows: seq<Device>, nextId: int, successCount: nat, errors: seq<string>)

  /** `str(MultipleResultsFound)`: two devices share the hostname or the out-of-band IP. */
  const MultipleRowsText := "Multiple rows were found when one or none was required"

  /** The `{count}.` that starts every error line. */
  function RowTag(count: nat): string {
    NatToString(count) + "."
  }

  function Fail(st: ImportState, message: string): ImportState {
    st.(errors := st.errors + [message])
  }

  /**
   * One sheet row, numbered `count`: a row missing a required value or
   * naming an unknown business type is an error; otherwise a device with
   * the same hostname or out-of-band IP is updated when updates are
   * allowed and is an error when they are not, and a new device is added.
   */
  function ImportRow(st: ImportState, row: Row, count: nat, s: Settings): (r: ImportState)
    ensures (r.successCount == st.successCount + 1 && r.errors == st.errors) ||
            (r.successCount == st.successCount && r.rows == st.rows && r.nextId == st.nextId &&
             |r.errors| == |st.errors| + 1 && r.errors[..|st.errors|] == st.errors &&
             StartsWith(r.errors[|st.errors|], RowTag(count)))
    ensures RowGet(row, "主机名*", "") == "" || RowGet(row, "业务IP*", "") == "" || RowGet(row, "带外IP*", "") == "" ==>
      r == Fail(st, RowTag(count) + "主机名、业务IP、带外IP为必填项")
    ensures r.rows != st.rows ==> RowGet(row, "业务类型", "OTHER") in s.types
    ensures DeviceByHostnameOrIp(st.rows, RowGet(row, "主机名*", ""), RowGet(row, "带外IP*", "")).Found? && !s.updateSupport ==>
      r.rows == st.rows && r.nextId == st.nextId && r.successCount == st.successCount
    ensures r.nextId != st.nextId ==>
      r.nextId == st.nextId + 1 &&
      r.rows == st.rows + [Device(st.nextId, Inserted(row, RowGet(row, "业务类型", "OTHER"), s))]
  {
    var hostname := RowGet(row, "主机名*", "");
    var businessIp := RowGet(row, "业务IP*", "");
    var oobIp := RowGet(row, "带外IP*", "");
    var businessType := RowGet(row, "业务类型", "OTHER");
    if hostname == "" || businessIp == "" || oobIp == "" then
      Fail(st, RowTag(count) + "主机名、业务IP、带外IP为必填项")
    else if businessType !in s.types then
      Fail(st, RowTag(count) + "业务类型无效，请使用有效的业务类型编码")
    else StoreRow(st, DeviceByHostnameOrIp(st.rows, hostname, oobIp), row, count, s, hostname, businessType)
  }

  /** A valid row against the table: refused on a clash, else the matching device updated or a new one added. */
  function StoreRow(st: ImportState, existing: Lookup<Device>, row: Row, count: nat, s: Settings, hostname: string,
                    businessType: string): ImportState
  {
    match existing
      case Raised => Fail(st, RowTag(count) + "导入设备 " + hostname + " 失败: " + MultipleRowsText)
      case Found(existing) =>
        if s.updateSupport then
          st.(rows := EditedRows(st.rows, existing.deviceId, EditFields(row, businessType, existing.deviceId, s)),
              successCount := st.successCount + 1)
        else Fail(st, RowTag(count) + "设备 " + hostname + " 已存在")
      case NoRow =>
        st.(rows := st.rows + [Device(st.nextId, Inserted(row, businessType, s))],
            nextId := st.nextId + 1,
            successCount := st.successCount + 1)
  }

  /** The loop over the rows, in sheet order; row `i` is numbered `i + 1`. */
  function ImportRows(start: ImportState, rows: seq<Row>, s: Settings): ImportState {
    if rows == [] then start
    else ImportRow(ImportRows(start, rows[..|rows| - 1], s), rows[|rows| - 1], |rows|, s)
  }

  /** Every row is counted once: successes plus errors grow by the number of rows, and earlier errors stay first. */
  lemma {:induction false} ImportCountsEveryRow(start: ImportState, rows: seq<Row>, s: Settings)
    ensures ImportRows(start, rows, s).successCount + |ImportRows(start, rows, s).errors| ==
      start.successCount + |start.errors| + |rows|
    ensures |start.errors| <= |ImportRows(start, rows, s).errors|
    ensures ImportRows(start, rows, s).errors[..|start.errors|] == start.errors
  {
    if rows != [] {
      var front := rows[..|rows| - 1];
      ImportCountsEveryRow(start, front, s);
      var mid := ImportRows(start, front, s);
      var fin := ImportRow(mid, rows[|rows| - 1], |rows|, s);
      if fin.errors != mid.errors {
        assert fin.errors[..|start.errors|] == mid.errors[..|mid.errors|][..|start.errors|];
      }
    }
  }

  /** `导入完成! 成功: {s}, 失败: {e}`, followed by the error lines when there are any. */
  function ImportMessage(fin: ImportState): (m: string)
    ensures StartsWith(m, "导入完成! 成功: " + NatToString(fin.successCount) + ", 失败: " + NatToString(|fin.errors|))
  {
    var head := "导入完成! 成功: " + NatToString(fin.successCount) + ", 失败: " + NatToString(|fin.errors|);
    var m := head + (if fin.errors == [] then "" else "\n错误详情:\n" + Join(fin.errors, "\n"));
    assert m[..|head|] == head;
    m
  }

  /** The body of the loop for one row: what `ImportRow` describes, done on the table. */
  method ImportOne(table: DeviceTable, row: Row, count: nat, s: Settings, successCount: nat, errors: seq<string>)
    returns (successAfter: nat, errorsAfter: seq<string>, failed: bool)
    modifies table`rows, table`nextId
    ensures ImportState(table.rows, table.nextId, successAfter, errorsAfter) ==
      ImportRow(ImportState(old(table.rows), old(table.nextId), successCount, errors), row, count, s)
    ensures failed <==> |errorsAfter| == |errors| + 1
    ensures !failed ==> |errorsAfter| == |errors|
  {
    successAfter, errorsAfter, failed := successCount, errors, true;
    var hostname := RowGet(row, "主机名*", "");
    var businessIp := RowGet(row, "业务IP*", "");
    var oobIp := RowGet(row, "带外IP*", "");
    var businessType := RowGet(row, "业务类型", "OTHER");
    if hostname == "" || businessIp == "" || oobIp == "" {
      errorsAfter := errors + [RowTag(count) + "主机名、业务IP、带外IP为必填项"];
    } else if businessType !in s.types {
      errorsAfter := errors + [RowTag(count) + "业务类型无效，请使用有效的业务类型编码"];
    } else {
      var existing := DeviceByHostnameOrIp(table.rows, hostname, oobIp);
      successAfter, errorsAfter, failed := StoreOne(table, existing, row, count, s, successCount, errors, hostname, businessType);
    }
  }

  /** `edit_device` on an existing device, as the import uses it: the rows become `EditedRows`. */
  method UpdateExisting(table: DeviceTable, deviceId: int, fields: Record)
    modifies table`rows
    ensures table.rows == EditedRows(old(table.rows), deviceId, fields)
  {
    var edited := table.EditDevice(deviceId, fields);
  }

  /** The store step of `ImportOne`: what `StoreRow` describes, done on the table. */
  method StoreOne(table: DeviceTable, existing: Lookup<Device>, row: Row, count: nat, s: Settings, successCount: nat,
                  errors: seq<string>, hostname: string, businessType: string)
    returns (successAfter: nat, errorsAfter: seq<string>, failed: bool)
    modifies table`rows, table`nextId
    ensures ImportState(table.rows, table.nextId, successAfter, errorsAfter) ==
      StoreRow(ImportState(old(table.rows), old(table.nextId), successCount, errors), existing, row, count, s, hostname, businessType)
    ensures failed <==> |errorsAfter| == |errors| + 1
    ensures !failed ==> |errorsAfter| == |errors|
  {
    if existing.Raised? {
      return successCount, errors + [RowTag(count) + "导入设备 " + hostname + " 失败: " + MultipleRowsText], true;
    } else if existing.Found? && !s.updateSupport {
      return successCount, errors + [RowTag(count) + "设备 " + hostname + " 已存在"], true;
    }
    StoreValid(table, existing, row, count, s, successCount, errors, hostname, businessType);
    return successCount + 1, errors, false;
  }

  /** The two stores that succeed: the matching device updated, or a new one added. */
  method StoreValid(table: DeviceTable, existing: Lookup<Device>, row: Row, count: nat, s: Settings, successCount: nat,
                    errors: seq<string>, hostname: string, businessType: string)
    requires existing.NoRow? || (existing.Found? && s.updateSupport)
    modifies table`rows, table`nextId
    ensures ImportState(table.rows, table.nextId, successCount + 1, errors) ==
      StoreRow(ImportState(old(table.rows), old(table.nextId), successCount, errors), existing, row, count, s, hostname, businessType)
  {
    if existing.Found? {
      UpdateExisting(table, existing.row.deviceId, EditFields(row, businessType, existing.row.deviceId, s));
    } else {
      AddNew(table, row, businessType, s);
    }
  }

  /** `add_device` with the columns of the new row, as the import uses it. */
  method AddNew(table: DeviceTable, row: Row, businessType: string, s: Settings)
    modifies table`rows, table`nextId
    ensures table.rows == old(table.rows) + [Device(old(table.nextId), Inserted(row, businessType, s))]
    ensures table.nextId == old(table.nextId) + 1
  {
    var added := table.AddDevice(Inserted(row, businessType, s));
  }

  /**
   * `batch_import_device_services` on a sheet with the given columns and
   * rows, against the device table: a sheet missing a required column is
   * refused untouched; otherwise every row is imported in order and the
   * table, the counters and the message are those of `ImportRows`.
   */
  method BatchImport(table: DeviceTable, columns: set<string>, rows: seq<Row>, fetchedTypes: Option<set<string>>,
                     updateSupport: bool, user: string, now: int, encrypt: string -> string)
    returns (isSuccess: bool, message: string)
    modifies table`rows, table`nextId
    ensures Missing(columns) != [] ==> !isSuccess && table.rows == old(table.rows) && table.nextId == old(table.nextId)
    ensures Missing(columns) != [] ==> message == "Excel文件缺少必要的列: " + Join(Missing(columns), ", ")
    ensures Missing(columns) == [] ==> isSuccess
    ensures Missing(columns) == [] ==>
      var fin := ImportRows(ImportState(old(table.rows), old(table.nextId), 0, []), rows,
                            Settings(AcceptedTypes(fetchedTypes), updateSupport, user, now, encrypt));
      table.rows == fin.rows && table.nextId == fin.nextId && message == ImportMessage(fin)
  {
    var missing := Missing(columns);
    if missing != [] {
      return false, "Excel文件缺少必要的列: " + Join(missing, ", ");
    }
    var s := Settings(AcceptedTypes(fetchedTypes), updateSupport, user, now, encrypt);
    ghost var start := ImportState(table.rows, table.nextId, 0, []);
    var successCount: nat := 0;
    var errorCount: nat := 0;
    var errors: seq<string> := [];
    for i := 0 to |rows|
      invariant ImportRows(start, rows[..i], s) == ImportState(table.rows, table.nextId, successCount, errors)
      invariant errorCount == |errors|
    {
      assert rows[..i + 1][..i] == rows[..i];
      var failed: bool;
      successCount, errors, failed := ImportOne(table, rows[i], i + 1, s, successCount, errors);
      if failed {
        errorCount := errorCount + 1;
      }
    }
    assert rows[..|rows|] == rows;
    message := ImportMessage(ImportState(table.rows, table.nextId, successCount, errors));
    isSuccess := true;
  }

  // ---------------------------------------------------------------- export formatting

  const DeviceHealthLabels: map<string, string> := map["ok" := "正常", "warning" := "警告", "critical" := "警告", "unknown" := "未知"]

  /** The health column: 正常 for ok, 警告 for warning and critical, 未知 for anything else or nothing. */
  function DeviceHealthText(c: Cell): (t: string)
    ensures t == "正常" <==> c == Text("ok")
    ensures t == "警告" <==> c == Text("warning") || c == Text("critical")
    ensures t == "未知" <==> c != Text("ok") && c != Text("warning") && c != Text("critical")
  {
    if CellTruthy(c) && c.Text? && c.s in DeviceHealthLabels then DeviceHealthLabels[c.s] else "未知"
  }

  /** The monitoring column: 启用 exactly for the integer 1. */
  function MonitorText(c: Cell): (t: string)
    ensures t == "启用" <==> c == Number(1)
    ensures t == "停用" <==> c != Number(1)
  {
    if c == Number(1) then "启用" else "停用"
  }

  const DeviceTimeFields: set<string> := {"lastCheckTime", "createTime", "updateTime"}

  /**
   * One time field of a device export: unlike the alert export, a falsy
   * value is left as it is; a non-empty string is kept and a datetime,
   * held here as its seconds and truthy whatever its value, prints as
   * `%Y-%m-%d %H:%M:%S`.
   */
  function DeviceTime(c: Cell): (r: Cell)
    ensures c == SqlNull || c == Text("") ==> r == c
    ensures NonEmptyText(c) ==> r == c
    ensures c.Number? && FormatSeconds(c.n).Some? ==>
      r.Text? && DateTimeShaped(r.s) && ValidDateTime(ReadBack(r.s)) && SecondsOf(ReadBack(r.s)) == c.n
    ensures c.Number? && FormatSeconds(c.n).None? ==> r == Text("")
  {
    match c
    case Number(t) => Text(if FormatSeconds(t).Some? then FormatSeconds(t).value else "")
    case _ => c
  }

  /** The formatting the device export applies to one device dictionary; the password never leaves. */
  function FormatDevice(item: Record): (r: Record)
    ensures forall k :: k in r <==> (k in item || k == "healthStatus" || k == "monitorEnabled") && k != "redfishPassword"
    ensures r["healthStatus"] == Text(DeviceHealthText(ColumnOf(item, "healthStatus")))
    ensures r["monitorEnabled"] == Text(MonitorText(ColumnOf(item, "monitorEnabled")))
  {
    Labelled(DeviceStamped(item) - {"redfishPassword"}, item)
  }

  /** The formatted device has the formatted times and every other field it held unchanged. */
  lemma FormatDeviceFields(item: Record)
    ensures var r := FormatDevice(item);
      forall f :: f in DeviceTimeFields && f in item ==> f in r && r[f] == DeviceTime(item[f])
    ensures var r := FormatDevice(item);
      forall k :: (k in item && k !in DeviceTimeFields && k != "healthStatus" && k != "monitorEnabled" &&
        k != "redfishPassword") ==> k in r && r[k] == item[k]
  {
    DeviceKeysApart();
  }

  /** The password and the two labels are not time fields. */
  lemma DeviceKeysApart()
    ensures "redfishPassword" !in DeviceTimeFields && "healthStatus" !in DeviceTimeFields
    ensures "monitorEnabled" !in DeviceTimeFields
  {
  }

  /** The health and monitoring labels, read from the original dictionary. */
  function Labelled(base: Record, item: Record): (r: Record)
    ensures r.Keys == base.Keys + {"healthStatus", "monitorEnabled"}
    ensures r["healthStatus"] == Text(DeviceHealthText(ColumnOf(item, "healthStatus")))
    ensures r["monitorEnabled"] == Text(MonitorText(ColumnOf(item, "monitorEnabled")))
    ensures forall k :: k in base && k != "healthStatus" && k != "monitorEnabled" ==> r[k] == base[k]
  {
    base["healthStatus" := Text(DeviceHealthText(ColumnOf(item, "healthStatus")))]
        ["monitorEnabled" := Text(MonitorText(ColumnOf(item, "monitorEnabled")))]
  }

  /** The loop over the time fields: only fields the dictionary holds are touched. */
  function DeviceStamped(item: Record): (r: Record)
    ensures r.Keys == item.Keys
    ensures forall f :: f in DeviceTimeFields && f in item ==> r[f] == DeviceTime(item[f])
    ensures forall k :: k in item && k !in DeviceTimeFields ==> r[k] == item[k]
  {
    item + map f | f in DeviceTimeFields && f in item :: DeviceTime(item[f])
  }

  /**
   * The rows the device export writes: every convertible device formatted
   * and numbered with its 1-based input position, none with a password.
   */
  method ExportDeviceRows(items: seq<Option<Record>>) returns (processed: seq<Record>)
    ensures |processed| == |Kept(items)|
    ensures forall k :: 0 <= k < |processed| ==>
      processed[k] == Numbered(FormatDevice(items[Kept(items)[k]].value), Kept(items)[k])
    ensures forall k :: 0 <= k < |processed| ==> "redfishPassword" !in processed[k]
  {
    processed := ProcessRows(items, FormatDevice);
  }
}
