# redhawk monitoring core in Dafny

redhawk monitors server hardware over Redfish. It has a Python backend and a browser frontend.

- The backend polls each device's baseboard controller and normalises the vendor's answers into component records. From those it decides on alerts and an overall health.
- It stores alerts, devices, Redfish logs, urgency rules, duty schedules and maintenance schedules in database tables.
- It pushes events to browsers over WebSocket rooms.
- The frontend keeps one push-channel client. That client reconnects with backoff, authenticates, subscribes to four rooms, removes duplicate messages and routes each one to its listeners. The frontend also remembers which notices a user has read.

This project models that core and proves properties of the model. It has one Dafny module per source file.

- **Stateful parts become classes.** Methods carry `modifies` clauses, and their postconditions state the whole new state. This covers:
  - the browser client and its timers, where each timer fires through a method of its own;
  - the server's room registry;
  - the stored read-notice lists;
  - the loops of the backend.
- **Decision logic becomes functions with named results.** This covers normalisation, alert rules, urgency, shifts, date arithmetic and export labels.
- **A database table is a sequence of records.** A record is a map from column name to cell: SQL NULL, text or number. A DAO method is a function or method over that sequence. A service function maps the DAO outcome to the reply it builds: success, failure, or an exception that propagates.
- **Module layout:**
  - `basics.dfy` holds the Python helpers: `strip`, `lower`, `int()`, `in`, paging and filters.
  - `records.dfy` holds the row model.
  - `dates.dfy` holds the calendar arithmetic.
  - `js_values.dfy` holds JavaScript values and their truthiness.
  - `exports.dfy` holds the shared export loop.

The lemmas cover these properties:
- round trips, such as the responsible-person note encoding and its extraction;
- invariants kept by every operation, such as the inverse room maps, unique rule pairs and unique duty slots;
- the bounds of timers and backoff;
- the counters of every batch loop, stated as functions of the inputs;
- the connection handshake, from an opening socket to readiness.

## Model
| member | source | states |
|---|---|---|
| AdaptersBase.StatusBlock | backend/module_redfish/adapters/base.py:26 | a missing or empty Status block reads as the empty dict, otherwise the block itself |
| AdaptersBase.StatusOf | backend/module_redfish/adapters/base.py:25-27 | health is Status.Health if present, else the item's health_status, else "Unknown"; state likewise from Status.State, state, "Unknown" |
| AdaptersBase.NormalizeHealth | backend/module_redfish/adapters/base.py:30-32 | the result is always one of OK/Warning/Critical/Unknown; a Redfish health value passes unchanged, anything else (None included) becomes "Unknown" |
| AdaptersBase.NormalizeHealthIdempotent | backend/module_redfish/adapters/base.py:30-32 | normalising an already normalised health changes nothing |
| AdaptersBase.NonAbsentExactly | backend/module_redfish/adapters/base.py:35-41 | an item survives the Absent filter exactly when it is an input item whose state is not "Absent" |
| AdaptersBase.NonAbsentOfAppend | backend/module_redfish/adapters/base.py:35-41 | the filter distributes over concatenation, so it keeps input order |
| AdaptersBase.IgnoreAbsent | backend/module_redfish/adapters/base.py:35-41 | the loop returns exactly the non-Absent sub-sequence |
| AdaptersBase.NameOf | backend/module_redfish/adapters/base.py:54 | the name fallback chain always yields a non-empty name |
| AdaptersBase.StorageHealth | backend/module_redfish/adapters/base.py:70-72 | a drive with health None or "Unknown" and state "Enabled" is "OK"; any other health is kept |
| AdaptersBase.Unify | backend/module_redfish/adapters/base.py:51-97 | one normalised record: type fixed by the kind, state and raw item from the input, health clamped to a Redfish value (after the storage rule for drives), non-empty name |
| AdaptersBase.UnifyEach | backend/module_redfish/adapters/base.py:51-97 | the shared loop produces one unified record per non-Absent item, in order |
| AdaptersBase.EnabledDriveIsOk | backend/module_redfish/adapters/base.py:70-72 | a drive without health but Enabled is reported OK |
| AdaptersBase.UnifiedListShape | backend/module_redfish/adapters/base.py:51-97 | every output record has the list's type, clamped health, a non-Absent state and comes from an input item |
| AdaptersBase.NormalizeSystem | backend/module_redfish/adapters/base.py:47-49 | the system record has type "system", name "System", normalised health, its own state and the raw item |
| AdaptersBase.SystemNeverFiltered | backend/module_redfish/adapters/base.py:47-49 | an Absent system is still normalised (no Absent filter for the system) |
| AdaptersBase.NormalizeProcessors | backend/module_redfish/adapters/base.py:51-57 | one processor record per non-Absent processor |
| AdaptersBase.NormalizeMemory | backend/module_redfish/adapters/base.py:59-65 | one memory record per non-Absent module |
| AdaptersBase.NormalizeStorage | backend/module_redfish/adapters/base.py:67-76 | one storage record per non-Absent drive, with the Enabled-drive rule |
| AdaptersBase.NormalizePower | backend/module_redfish/adapters/base.py:78-84 | one power record per non-Absent supply |
| AdaptersBase.NormalizeThermal | backend/module_redfish/adapters/base.py:86-97 | one temperature record per non-Absent sensor and one fan record per non-Absent fan |
| AdaptersBase.Postprocess | backend/module_redfish/adapters/base.py:99-100 | the generic post-processing returns the status unchanged |
| AdaptersRegistry.Loaded | backend/module_redfish/adapters/registry.py:55-58 | at most one instance per candidate import |
| AdaptersRegistry.BuildAdaptors | backend/module_redfish/adapters/registry.py:55-58 | the registration loop instantiates exactly the classes whose import succeeded |
| AdaptersRegistry.LoadedCount | backend/module_redfish/adapters/registry.py:9-58 | the registry holds one instance per successful import, and only those |
| AdaptersRegistry.LoadedInOrder | backend/module_redfish/adapters/registry.py:56 | registered adaptors keep the fixed vendor order (HPE, Dell, Lenovo, Huawei, Fujitsu, Supermicro, Inspur, Cisco, Gigabyte) |
| AdaptersRegistry.FirstMatch | backend/module_redfish/adapters/registry.py:63-65 | the index found is the first adaptor one of whose vendor names occurs in the name; none found means no adaptor matches |
| AdaptersRegistry.GetVendorAdaptor | backend/module_redfish/adapters/registry.py:61-66 | with the upper-cased manufacturer (None as ""), the result is the first matching registered adaptor, or the generic adaptor when none matches |
| AdaptersRegistry.SelectionIgnoresCase | backend/module_redfish/adapters/registry.py:62 | lower- or upper-casing the manufacturer does not change the choice |
| AdaptersRegistry.MissingManufacturer | backend/module_redfish/adapters/registry.py:62 | a missing manufacturer selects as the empty string does |
| AdaptersRegistry.SupermicroChosen | backend/module_redfish/adapters/supermicro.py:6 | a manufacturer containing SUPERMICRO or SUPER SERVER (any case) selects the Supermicro adaptor when no earlier adaptor matches |
| AdaptersSupermicro.NormalizeSystem | backend/module_redfish/adapters/supermicro.py:8-10 | the system record is the one the generic adaptor builds |
| AdaptersSupermicro.NormalizeProcessors | backend/module_redfish/adapters/supermicro.py:12-18 | one processor record per non-Absent processor |
| AdaptersSupermicro.NormalizeMemory | backend/module_redfish/adapters/supermicro.py:20-26 | one memory record per non-Absent module |
| AdaptersSupermicro.NormalizeStorage | backend/module_redfish/adapters/supermicro.py:28-36 | one storage record per non-Absent drive, Enabled drives without health being OK |
| AdaptersSupermicro.NormalizePower | backend/module_redfish/adapters/supermicro.py:38-44 | one power record per non-Absent supply |
| AdaptersSupermicro.NormalizeThermal | backend/module_redfish/adapters/supermicro.py:46-57 | one record per non-Absent sensor and per non-Absent fan |
| AdaptersSupermicro.Postprocess | backend/module_redfish/adapters/supermicro.py:59-60 | post-processing is the identity, as in the generic adaptor |
| AdaptersSupermicro.SameAsGeneric | backend/module_redfish/adapters/supermicro.py:12-57 | the list contract determines the output, so the Supermicro lists equal the generic ones |
| AdaptersSupermicro.OutputLength | backend/module_redfish/adapters/supermicro.py:12-57 | a single Absent item gives no record, any other gives exactly one |
| AlertDao.CreateKeywordsUndeclared | backend/module_redfish/dao/alert_dao.py:170-185 | the create names hostname, business_ip and health_status, none of them an AlertInfo column, and omits alert_source and alert_type, which are NOT NULL without a default; the corrected create names declared columns only, every required column among them |
| AlertDao.StatusKeywordsUndeclared | backend/module_redfish/dao/alert_dao.py:206-240 | the status updates name resolved_by and resolved_note, neither an AlertInfo column; the corrected update names declared columns only |
| AlertDao.ActiveMatches | backend/module_redfish/dao/alert_dao.py:141-151 | the lookup finds exactly the active rows with the same device, component type and name, in table order |
| AlertDao.NewAlert | backend/module_redfish/dao/alert_dao.py:170-185 | the inserted row is active on the given device and component, holds the given source, type, message and level, with count 1, first and last occurrence now, and no resolution |
| AlertDao.Refreshed | backend/module_redfish/dao/alert_dao.py:153-160 | a repeated alert takes the new message and level, adds one occurrence and stamps the last occurrence and update time; nothing else changes, and the health is not stored |
| AlertDao.WithStatus | backend/module_redfish/dao/alert_dao.py:193-242 | the corrected status update: the given status, the time and the note in resolution_note on exactly the rows whose id is listed; every other row unchanged |
| AlertDao.AlertTable.constructor | backend/module_redfish/dao/alert_dao.py:13 | an empty alert table that satisfies the table invariant |
| AlertDao.AlertTable.GetOrCreateAlert | backend/module_redfish/dao/alert_dao.py:115-190 | exactly one active match is refreshed in place with no row added; with none or several the call raises and no row changes |
| AlertDao.AlertTable.CorrectedGetOrCreateAlert | backend/module_redfish/dao/alert_dao.py:115-190 | several active matches raise; one is refreshed in place; with none a fresh active alert carrying the caller's source and type is inserted under the next id, or the call raises when the device does not exist; no other row changes and the table invariant is kept |
| AlertDao.AlertTable.ResolveAlerts | backend/module_redfish/dao/alert_dao.py:193-216 | as written the update raises, whatever the ids |
| AlertDao.AlertTable.IgnoreAlerts | backend/module_redfish/dao/alert_dao.py:219-242 | as written the update raises, whatever the ids |
| AlertDao.AlertTable.CorrectedResolveAlerts | backend/module_redfish/dao/alert_dao.py:193-216 | reports success and marks exactly the listed alerts resolved, with the note and the time; the invariant is kept |
| AlertDao.AlertTable.CorrectedIgnoreAlerts | backend/module_redfish/dao/alert_dao.py:219-242 | reports success and marks exactly the listed alerts ignored, with the reason as note and the time; the invariant is kept |
| AlertDao.AlertTable.GetAlertTrend | backend/module_redfish/dao/alert_dao.py:349-398 | one point per day for max(days,0) days, the i-th point being the counts of the day today-days+1+i |
| AlertDao.RefreshKeepsValid | backend/module_redfish/dao/alert_dao.py:153-162 | refreshing a row keeps ids fresh and at most one active alert per component |
| AlertDao.InsertKeepsValid | backend/module_redfish/dao/alert_dao.py:163-190 | inserting a fresh-id alert for a component with no active alert keeps the invariant |
| AlertDao.LeavingActiveKeepsValid | backend/module_redfish/dao/alert_dao.py:193-242 | resolving or ignoring alerts keeps the invariant |
| AlertDao.AtMostOneActiveMatch | backend/module_redfish/dao/alert_dao.py:141-151 | under the invariant the upsert's one-or-none lookup never finds two rows |
| AlertDao.PointOn | backend/module_redfish/dao/alert_dao.py:361-389 | a day's point carries its date and total_count = urgent_count + scheduled_count, bounded by the table size |
| AlertDao.DisjointCounts | backend/module_redfish/dao/alert_dao.py:361-389 | urgent and scheduled counts of a day never exceed the rows counted |
| AlertDao.TrendEndsToday | backend/module_redfish/dao/alert_dao.py:360-398 | the trend dates are consecutive and the last one is today |
| AlertDao.AlertStatistics | backend/module_redfish/dao/alert_dao.py:280-346 | the urgent and scheduled period counts fit within the period total, which fits within the table; active, resolved and ignored together fit within the table |
| AlertDao.PartCounts | backend/module_redfish/dao/alert_dao.py:293-318 | counts of two disjoint sub-filters of a filter sum to at most the filter's count |
| AlertDao.ThreeWayCounts | backend/module_redfish/dao/alert_dao.py:320-339 | counts of three mutually exclusive statuses sum to at most the table size |
| AlertDao.FirstPageSkipsFirstAlert | backend/module_redfish/dao/alert_dao.py:87 | as written the page offset is page_num rows, so page 1 starts at the second row and the newest alert is never on it |
| AlertDao.CorrectedPagesTile | backend/module_redfish/dao/alert_dao.py:87 | with offset (page_num-1)*page_size, page n holds exactly the rows from (n-1)*size on, and page 1 starts at the first row |
| AlertService.DeviceAlerts | backend/module_redfish/service/alert_service.py:256-263 | as written (field names instead of the model's aliases), the listing is every alert joined to an existing device, whatever the device id |
| AlertService.AlertCountIgnoresDevice | backend/module_redfish/service/alert_service.py:256-263 | as written, any two devices are credited with the same number of alerts |
| AlertService.OtherDeviceCreditedWithAlert | backend/module_redfish/service/alert_service.py:256-263 | as written, device 2 is shown device 1's active alert |
| AlertService.CorrectedDeviceAlerts | backend/module_redfish/service/alert_service.py:245-277 | as intended, the listing holds exactly the joined alerts of the given device that are active |
| AlertService.CorrectedCountsSplit | backend/module_redfish/service/alert_service.py:245-277 | corrected, two distinct devices' alert counts together never exceed the number of alerts |
| AlertService.Label | backend/module_redfish/service/alert_service.py:661-713 | a non-empty text found in the map gives its label; anything else gives the default |
| AlertService.UrgencyText | backend/module_redfish/service/alert_service.py:661-670 | 紧急 exactly for urgent, 择期 exactly for scheduled, 未知 for every other value or none |
| AlertService.AlertHealthText | backend/module_redfish/service/alert_service.py:673-687 | 正常 exactly for OK/ok, 未知 exactly for Unknown/unknown, 警告 for every other value, a missing one included |
| AlertService.AlertStatusText | backend/module_redfish/service/alert_service.py:689-699 | 活跃, 已解决, 已忽略 exactly for active, resolved, ignored; 未知 otherwise |
| AlertService.MaintenanceStatusText | backend/module_redfish/service/alert_service.py:701-713 | 已计划, 进行中, 已完成, 已取消 exactly for the four known states; 未安排 for none, unknown values and missing ones |
| AlertService.AlertTime | backend/module_redfish/service/alert_service.py:716-728 | a non-empty string time is kept; None or '' becomes ''; a datetime prints as YYYY-MM-DD HH:MM:SS text that reads back as the same instant |
| AlertService.FormatAlert | backend/module_redfish/service/alert_service.py:660-728 | the formatted item has the item's keys plus the four label and five time fields, each label given by its map, each time field by the time rule, and every other key unchanged |
| AlertService.TimeStamped | backend/module_redfish/service/alert_service.py:716-728 | the time loop adds exactly the five time fields and leaves the other keys alone |
| AlertService.ExportAlertRows | backend/module_redfish/service/alert_service.py:642-732 | one processed row per convertible item, in order, formatted and given serialNo = its 1-based position in the input (skipped items keep their number) |
| AlertService.ExportedRowShape | backend/module_redfish/service/alert_service.py:621-638 | every exported row carries the label, time and serialNo columns of the sheet, and its urgency is one of 紧急/择期/未知 |
| AlertService.UpdateDump | backend/module_redfish/service/alert_service.py:335-343 | the four maintenance fields, by column name |
| AlertService.MaintenanceData | backend/module_redfish/service/alert_service.py:335-345 | the update dictionary is exactly the non-None maintenance fields |
| AlertService.UpdateMaintenanceReply | backend/module_redfish/service/alert_service.py:354-362 | success exactly when the DAO reports True; 告警不存在或更新维修计划失败 exactly for False; 更新维修计划失败 exactly when it raises |
| AlertService.UpdateMaintenanceAlwaysFails | backend/module_redfish/service/alert_service.py:347-352 | as written the DAO has no update_maintenance, so every update answers the generic failure |
| AlertService.BatchScheduleReply | backend/module_redfish/service/alert_service.py:397-404 | success exactly for a positive count; 没有找到符合条件的告警记录 for a count of zero or less; 批量安排维修时间失败 when the DAO raises |
| AlertService.BatchMessageReportsCount | backend/module_redfish/service/alert_service.py:399 | the success message carries the updated count between its fixed texts, and reading it back gives the count |
| AlertService.BatchScheduleAlwaysFails | backend/module_redfish/service/alert_service.py:394-398 | as written the DAO has no batch_schedule_maintenance, so every batch answers the generic failure |
| AlertService.CeilDiv | backend/module_redfish/service/alert_service.py:445 | the ceiling of a/b for positive b: the least q with a <= q*b |
| AlertService.HasNext | backend/module_redfish/service/alert_service.py:445 | no rows means no next page; a zero page size with rows raises (division by zero) |
| AlertService.HasNextMeansRowsLeft | backend/module_redfish/service/alert_service.py:445 | with rows and a positive page size, there is a next page exactly when page_num*page_size < total |
| AlertUrgencyService.FirstDevice | backend/module_redfish/service/alert_urgency_service.py:36-40 | no device row exactly when no device has the id; otherwise a row with that id |
| AlertUrgencyService.UrgencyByDeviceAndComponent | backend/module_redfish/service/alert_urgency_service.py:17-97 | an unknown device gives 'scheduled' unmatched with reason 设备不存在; a match happens exactly when the device exists and one active rule holds (business type, upper-cased component type), and then the rule's level and id are returned; every unmatched answer is 'scheduled' with no rule id |
| AlertUrgencyService.MatchedIffActiveRule | backend/module_redfish/service/alert_urgency_service.py:55-67 | with unique (business, hardware) pairs, the lookup matches exactly when an active rule holds the device's business type and the upper-cased component type |
| AlertUrgencyService.FirstAlert | backend/module_redfish/service/alert_urgency_service.py:117-121 | none exactly when no alert has the id; otherwise the position of the first alert with that id |
| AlertUrgencyService.UrgencyByAlertId | backend/module_redfish/service/alert_urgency_service.py:100-144 | an unknown alert gives 'scheduled' unmatched (告警不存在); otherwise the answer is the device-and-component lookup of the first alert with that id |
| AlertUrgencyService.Selection | backend/module_redfish/service/alert_urgency_service.py:171-182 | the batch selects by alert ids if given, else by device ids, else all active alerts |
| AlertUrgencyService.CountUrgent | backend/module_redfish/service/alert_urgency_service.py:184-200 | the urgent count never exceeds the alerts looked up |
| AlertUrgencyService.NoRulesNoUrgent | backend/module_redfish/service/alert_urgency_service.py:17-97 | with no rules every alert comes out scheduled |
| AlertUrgencyService.BatchUpdateAlertUrgency | backend/module_redfish/service/alert_urgency_service.py:147-217 | success; total is the number selected; each selected alert is counted once as urgent or scheduled, so updated = urgent + scheduled = total and no errors |
| AlertUrgencyService.ActiveOfDevice | backend/module_redfish/service/alert_urgency_service.py:244-253 | exactly the device's active alerts |
| AlertUrgencyService.SidesPartition | backend/module_redfish/service/alert_urgency_service.py:258-274 | the urgent and scheduled lists together hold every alert's data exactly once |
| AlertUrgencyService.UrgencyStatisticsByDevice | backend/module_redfish/service/alert_urgency_service.py:227-283 | the device's active alerts are split into urgent and the rest, the counts are the list lengths and add up to the total |
| AlertUrgencyService.SideLevels | backend/module_redfish/service/alert_urgency_service.py:271-274 | the urgent list holds only urgent alerts, the scheduled list none |
| AvailabilityMonitor.CheckDeviceAvailability | backend/module_redfish/core/availability_monitor.py:22-136 | no business IP: success, status unknown, no components or alerts; probe raised: failure, status error, nothing; online: one ok downtime component, no alert; offline: one critical downtime component and one alert |
| AvailabilityMonitor.CheckShape | backend/module_redfish/core/availability_monitor.py:22-136 | at most one component, no more alerts than components, and an alert exactly when offline |
| AvailabilityMonitor.KeptChecks | backend/module_redfish/core/availability_monitor.py:170-180 | one kept result per outcome that returned with success |
| AvailabilityMonitor.KeptChecksAppend | backend/module_redfish/core/availability_monitor.py:170-180 | the kept results grow in input order |
| AvailabilityMonitor.AlertTotalAppend | backend/module_redfish/core/availability_monitor.py:191 | the alert total adds each kept result's number of alerts |
| AvailabilityMonitor.BatchCheck | backend/module_redfish/core/availability_monitor.py:160-209 | the valid results are the successful ones in order; the counters are the number of devices, successful checks, online, offline, error outcomes and the alerts of the valid results |
| AvailabilityMonitor.CountersPartition | backend/module_redfish/core/availability_monitor.py:170-189 | every outcome is counted exactly once as online, offline or error |
| AvailabilityMonitor.NoIpCountsAsError | backend/module_redfish/core/availability_monitor.py:39-50 | a device without business IP is a successful check but is counted as an error (its status is unknown) |
| BusinessRuleDao.AtMostOnePair | backend/module_redfish/dao/business_rule_dao.py:113-122 | with unique (business, hardware) pairs, at most one rule matches any filter that fixes the pair |
| BusinessRuleDao.UniquePairLookup | backend/module_redfish/dao/business_rule_dao.py:144-155 | a pair-fixing filter over a table with unique pairs finds at most one row |
| BusinessRuleDao.GetRuleById | backend/module_redfish/dao/business_rule_dao.py:79-93 | the one rule with that id, none exactly when no rule has it, and never several under distinct keys |
| BusinessRuleDao.HasRuleMeans | backend/module_redfish/dao/business_rule_dao.py:90-93 | a rule with the id exists exactly when the id filter has a row |
| BusinessRuleDao.GetRuleByType | backend/module_redfish/dao/business_rule_dao.py:96-122 | a found rule is active and holds exactly the pair; none is found exactly when no active rule holds it; unique pairs rule out the raise |
| BusinessRuleDao.ActiveRuleFor | backend/module_redfish/dao/business_rule_dao.py:113-122 | a NULL business or hardware type finds nothing (an IS NULL test on a NOT NULL column); text values behave as get_rule_by_type |
| BusinessRuleDao.CheckRuleExists | backend/module_redfish/dao/business_rule_dao.py:125-155 | True exactly when another rule (not the excluded id, a falsy id excluding nothing) holds the pair, whatever its status; False exactly when none does; under unique pairs it never raises |
| BusinessRuleDao.CountActive | backend/module_redfish/dao/business_rule_dao.py:238-244 | the active count never exceeds the table |
| BusinessRuleDao.LevelsBounded | backend/module_redfish/dao/business_rule_dao.py:246-266 | urgent and scheduled active rules together fit in the active count |
| BusinessRuleDao.DistinctValues | backend/module_redfish/dao/business_rule_dao.py:268-278 | SELECT DISTINCT lists every stored value once |
| BusinessRuleDao.GetRuleStatistics | backend/module_redfish/dao/business_rule_dao.py:222-287 | total is the table size; urgent + scheduled <= active <= total; the business and hardware type lists hold every stored type exactly once |
| BusinessRuleDao.RuleTable.constructor | backend/module_redfish/dao/business_rule_dao.py:19 | an empty rule table with the next key 1 |
| BusinessRuleDao.RuleTable.AddRule | backend/module_redfish/dao/business_rule_dao.py:158-173 | appends one rule with the next key and the dumped fields; nothing else changes |
| BusinessRuleDao.RuleTable.IndexOf | backend/module_redfish/dao/business_rule_dao.py:187-190 | the position of the rule with the key, or none when no rule has it |
| BusinessRuleDao.RuleTable.EditRule | backend/module_redfish/dao/business_rule_dao.py:176-201 | False and no change for an unknown key; otherwise True and only that rule gets every non-None field except rule_id |
| BusinessRuleDao.RuleTable.DeleteRule | backend/module_redfish/dao/business_rule_dao.py:204-219 | always True; exactly the rules with a listed key are removed; unique pairs stay unique |
| BusinessRuleDao.RuleTable.BatchUpdateStatus | backend/module_redfish/dao/business_rule_dao.py:290-314 | always True; every stored rule with a listed key gets the new status and update time, unlisted ids are ignored, nothing else changes |
| BusinessRuleService.AddFields | backend/module_redfish/service/business_rule_service.py:115 | the added row holds the requested business and hardware types |
| BusinessRuleService.AppendKeepsUnique | backend/module_redfish/service/business_rule_service.py:110-117 | appending a rule whose pair no stored rule holds keeps pairs unique |
| BusinessRuleService.AddRuleServices | backend/module_redfish/service/business_rule_service.py:99-120 | an existing pair is refused with 该业务类型和硬件类型的规则已存在 and nothing changes; otherwise the rule is appended with 添加规则成功; pairs stay unique |
| BusinessRuleService.StoredPair | backend/module_redfish/service/business_rule_service.py:196-198 | after an edit the stored pair takes each supplied type, even an empty one, and keeps the stored type otherwise |
| BusinessRuleService.EditedKeepsUnique | backend/module_redfish/service/business_rule_service.py:147-151 | an edit whose new pair no other rule holds keeps pairs unique |
| BusinessRuleService.CorrectedCheckKeepsUnique | backend/module_redfish/service/business_rule_service.py:139-145 | when the corrected clash check passes, the edit keeps pairs unique |
| BusinessRuleService.CheckAgreesWithoutEmptyTypes | backend/module_redfish/service/business_rule_service.py:140-142 | when no supplied type is empty, the check as written equals the corrected one |
| BusinessRuleService.EditAdmitsDuplicatePair | backend/module_redfish/service/business_rule_service.py:140-142 | as written an edit supplying an empty business type is checked against the stored type but stores the empty one, so two rules end up with the same pair |
| BusinessRuleService.EditAfterCheck | backend/module_redfish/service/business_rule_service.py:144-156 | a clash gives 该业务类型和硬件类型的规则已存在, an exception propagates, and a passing check writes the edit with 编辑规则成功; only the edited rule changes |
| BusinessRuleService.EditRuleServices | backend/module_redfish/service/business_rule_service.py:123-156 | an unknown id gives 规则不存在; otherwise the clash check as written decides the reply, and a successful edit changes only that rule |
| BusinessRuleService.CorrectedEditRuleServices | backend/module_redfish/service/business_rule_service.py:123-156 | the same service with the clash check done on the pair the edit stores: every accepted edit keeps pairs unique |
| BusinessRuleService.ParseIds | backend/module_redfish/service/business_rule_service.py:170 | empty pieces are skipped; the parse fails exactly when a non-empty piece is not an integer; no ids exactly when every piece is empty |
| BusinessRuleService.ParseIdsOfPrinted | backend/module_redfish/service/business_rule_service.py:170 | a comma list of printed ids parses back to those ids |
| BusinessRuleService.DeleteRuleServices | backend/module_redfish/service/business_rule_service.py:159-184 | a non-integer piece raises; no id gives 请选择要删除的规则 and no change; otherwise exactly the listed rules are removed with 删除规则成功 |
| BusinessRuleService.BatchUpdateStatusServices | backend/module_redfish/service/business_rule_service.py:256-283 | success with 批量启用规则成功 or 批量禁用规则成功 by the status; the listed rules take the status, nothing else changes |
| BusinessRuleService.MatchUrgencyRule | backend/module_redfish/service/business_rule_service.py:209-253 | a match gives the active rule's level and id; no rule gives 'scheduled' unmatched with 未匹配到规则，默认为择期; under unique pairs matched exactly when an active rule holds the pair |
| BusinessRuleService.FindGroup | backend/module_redfish/service/business_rule_service.py:379 | the position of the category's group, or none when no group has it |
| BusinessRuleService.FlattenAppend | backend/module_redfish/service/business_rule_service.py:376-381 | the grouped contents grow by the appended group's items |
| BusinessRuleService.FlattenUpdate | backend/module_redfish/service/business_rule_service.py:381 | replacing one group changes the contents by exactly that group's items |
| BusinessRuleService.GroupedPartition | backend/module_redfish/service/business_rule_service.py:376-383 | the grouping is a partition: distinct categories, each list holds only its category, and together exactly the input |
| BusinessRuleService.AddKeepsWellGrouped | backend/module_redfish/service/business_rule_service.py:378-381 | adding an item keeps categories distinct and lists to their category |
| BusinessRuleService.AddKeepsContents | backend/module_redfish/service/business_rule_service.py:378-381 | adding an item adds exactly that item |
| BusinessRuleService.GroupByCategory | backend/module_redfish/service/business_rule_service.py:363-383 | the loop yields the grouping: a partition of the hardware types by category ('other' when none) |
| BusinessRuleService.FindGroupFirst | backend/module_redfish/service/business_rule_service.py:379 | the lookup returns the first position whose category matches |
| CeleryTasks.FirstApplicable | backend/module_redfish/celery_tasks.py:300-304 | the first active rule with the business type and upper-cased hardware type, or none exactly when no rule applies |
| CeleryTasks.DetermineAlertType | backend/module_redfish/celery_tasks.py:286-318 | the first applicable rule gives its level; without one, exactly lower-case 'cpu' and 'memory' are urgent and everything else scheduled; a non-text hardware type raises and gives 'scheduled' |
| CeleryTasks.AlertTypeAgreesWithRuleLookup | backend/module_redfish/celery_tasks.py:300-307 | under unique pairs the .first() rule is the rule the DAO lookup finds, so both give the same level |
| CeleryTasks.DefaultIsCaseSensitive | backend/module_redfish/celery_tasks.py:311-314 | without rules 'cpu' is urgent but 'CPU' is scheduled; the default list is case-sensitive |
| CeleryTasks.ExistingFor | backend/module_redfish/celery_tasks.py:232-237 | a found row is a committed active alert of the same device, component type and name |
| CeleryTasks.Refreshed | backend/module_redfish/celery_tasks.py:241-243 | a repeated alert gets now as last occurrence, one more occurrence and the new raw data, nothing else |
| CeleryTasks.SaveAlert | backend/module_redfish/celery_tasks.py:230-262 | one loop step never shrinks the table |
| CeleryTasks.SaveAlerts | backend/module_redfish/celery_tasks.py:230-262 | the loop never shrinks the table |
| CeleryTasks.SavedAlertsShape | backend/module_redfish/celery_tasks.py:229-262 | each committed row is counted up once per reported alert that finds it and is otherwise unchanged; one new row per alert that finds none |
| CeleryTasks.SavedKeysFresh | backend/module_redfish/celery_tasks.py:229-262 | the loop keeps alert keys unique and below the next key |
| CeleryTasks.NewLogs | backend/module_redfish/celery_tasks.py:265-276 | one 'redfish' log row per reported log, on the device, with its occurrence time and consecutive keys |
| CeleryTasks.Checked | backend/module_redfish/celery_tasks.py:224-227 | the checked device gets the check time and the overall health ('unknown' when absent); other columns unchanged |
| CeleryTasks.MonitoringStore.constructor | backend/module_redfish/celery_tasks.py:209 | empty alert and log tables |
| CeleryTasks.MonitoringStore.SaveReportedAlerts | backend/module_redfish/celery_tasks.py:229-262 | the alert table after the loop is the loop's function of the committed rows; keys stay fresh |
| CeleryTasks.MonitoringStore.SaveMonitoringResult | backend/module_redfish/celery_tasks.py:209-283 | the device row gets check time and health, the alerts are refreshed or inserted by the loop, one log row is added per reported log; the invariants hold |
| CeleryTasks.MonitoringStore.MonitorSingleDevice | backend/module_redfish/celery_tasks.py:42-72 | the monitor's result is returned, and stored only when it is successful; a failed result changes nothing |
| CeleryTasks.MonitoringStore.CleanupOldLogs | backend/module_redfish/celery_tasks.py:159-198 | logs older than the cut-off go, and so do resolved or closed alerts resolved before it; the counts are what went |
| CeleryTasks.FindOpen | backend/module_redfish/celery_tasks.py:232-237 | the loop lookup is the first committed active alert of the component |
| CeleryTasks.CheckedRows | backend/module_redfish/celery_tasks.py:224-227 | the device update keeps the number of rows |
| CeleryTasks.MarkChecked | backend/module_redfish/celery_tasks.py:224-227 | the first row with the id is marked checked; ids unchanged |
| CeleryTasks.FilterKeepsFresh | backend/module_redfish/celery_tasks.py:184-187 | deleting alerts keeps keys fresh |
| CeleryTasks.FilterKeepsFreshLogs | backend/module_redfish/celery_tasks.py:179-181 | deleting logs keeps keys fresh |
| CeleryTasks.MonitorAllDevices | backend/module_redfish/celery_tasks.py:80-155 | no monitored device gives success with total 0; raising while collecting gives the error reply; otherwise total devices, results, success + failed = number of results, failed 0 exactly when all succeeded |
| CeleryTasks.SuccessCount | backend/module_redfish/celery_tasks.py:134-135 | the success count is all results exactly when none failed, and zero exactly when none succeeded |
| ComponentNameService.Fallback | backend/module_redfish/utils/component_name_service.py:208-235 | an empty type gives 未知组件; a special component name gives its special name; otherwise the built-in table entry of the lower-cased, trimmed type, or the type as given |
| ComponentNameService.GetStandardName | backend/module_redfish/utils/component_name_service.py:144-181 | an empty type gives 未知组件; when Redis fails the fallback answers; otherwise a special-name hit wins, then the mapping hit of the normalised type, else the type as given |
| ComponentNameService.EmptyTypeIsDefault | backend/module_redfish/utils/component_name_service.py:155-156 | a missing or empty type gives the default name whatever the component name |
| ComponentNameService.SpecialNameWins | backend/module_redfish/utils/component_name_service.py:160-163 | special component names take precedence over the type table, with and without Redis |
| ComponentNameService.PathsAgree | backend/module_redfish/utils/component_name_service.py:118-235 | with Redis holding the default tables, the Redis and fallback paths agree on every input except the type oob_connectivity |
| ComponentNameService.OobIsNormalized | backend/module_redfish/utils/component_name_service.py:166 | oob_connectivity is already normalised |
| ComponentNameService.MappedTypeName | backend/module_redfish/utils/component_name_service.py:166-172 | a normalised type found in the Redis mapping gives its mapped name |
| ComponentNameService.FallbackMappedTypeName | backend/module_redfish/utils/component_name_service.py:218-235 | a normalised type in the fallback table gives its table name |
| ComponentNameService.OobEntries | backend/module_redfish/utils/component_name_service.py:132 | the Redis default names oob_connectivity 带外IP连通性, the fallback table 带外IP连通性测试 |
| ComponentNameService.OobNamesDiffer | backend/module_redfish/utils/component_name_service.py:132-231 | the two paths name the out-of-band connectivity check differently |
| ComponentNameService.UnmappedTypeReturnedVerbatim | backend/module_redfish/utils/component_name_service.py:174-176 | an unmapped type comes back exactly as given, not normalised |
| ComponentNameService.Service.constructor | backend/module_redfish/utils/component_name_service.py:24-27 | a fresh instance has no tables set yet |
| ComponentNameService.ServiceClass.constructor | backend/module_redfish/utils/component_name_service.py:21-22 | the class starts with no instance and not initialised |
| ComponentNameService.ServiceClass.New | backend/module_redfish/utils/component_name_service.py:24-27 | the first call creates the instance; later calls return the same one |
| ComponentNameService.ServiceClass.Init | backend/module_redfish/utils/component_name_service.py:29-53 | only the first initialisation sets the special names and the default name; later ones change nothing |
| ComponentNameService.ServiceClass.Construct | backend/module_redfish/utils/component_name_service.py:24-53 | constructing twice yields the same initialised singleton |
| ComponentTypeMapper.Code | backend/module_redfish/utils/component_type_mapper.py:30-37 | an empty type is 'unknown', a table key gives its code, anything else is itself |
| ComponentTypeMapper.ToHardwareCode | backend/module_redfish/utils/component_type_mapper.py:28-37 | after trim and lower-case: empty is 'unknown', storage/disk are 'storage', processor is 'cpu', an unlisted type is returned normalised |
| ComponentTypeMapper.OnlyNormalizedTypeMatters | backend/module_redfish/utils/component_type_mapper.py:28-29 | the code depends only on the normalised type, never on raw |
| ComponentTypeMapper.TableValuesAreFixed | backend/module_redfish/utils/component_type_mapper.py:8-25 | every table value is a key mapping to itself |
| ComponentTypeMapper.TableCodeIsCanonical | backend/module_redfish/utils/component_type_mapper.py:8-25 | every table code is trimmed and lower-case |
| ComponentTypeMapper.CodeOfTableCode | backend/module_redfish/utils/component_type_mapper.py:30-37 | a table lookup yields a code that maps to itself |
| ComponentTypeMapper.NormalizedIsCanonical | backend/module_redfish/utils/component_type_mapper.py:29 | a normalised type is trimmed and lower-case |
| ComponentTypeMapper.ToHardwareCodeIdempotent | backend/module_redfish/utils/component_type_mapper.py:28-37 | canonicalising a code again changes nothing |
| ComponentTypeMapper.TableEntry | backend/module_redfish/utils/component_type_mapper.py:10-23 | each kind the monitor emits is in the table with its monitor code |
| ComponentTypeMapper.MonitorKindsAreIdents | backend/module_redfish/utils/component_type_mapper.py:10-23 | the monitor kinds are lower-case identifiers |
| ComponentTypeMapper.NormalizedIdent | backend/module_redfish/utils/component_type_mapper.py:29 | a lower-case identifier is unchanged by normalisation |
| ComponentTypeMapper.MonitorKindCode | backend/module_redfish/utils/component_type_mapper.py:10-23 | the monitor kinds map to themselves, except processor, which becomes cpu |
| CoreDeviceMonitor.NormalizeHealthStatus | backend/module_redfish/core/device_monitor.py:20-25 | OK, Warning, Critical map to ok, warning, critical; every other value to unknown |
| CoreDeviceMonitor.HealthToScore | backend/module_redfish/core/device_monitor.py:596-597 | Critical 3, Warning 2, OK 1, anything else 0 |
| CoreDeviceMonitor.ScoreToHealth | backend/module_redfish/core/device_monitor.py:599-600 | scores 1-3 name a lower-case health; anything else is unknown |
| CoreDeviceMonitor.ScoreRoundTrip | backend/module_redfish/core/device_monitor.py:596-609 | scoring then naming a health is the same as normalising it, for every value |
| CoreDeviceMonitor.MapHealthToUrgencyLevel | backend/module_redfish/core/device_monitor.py:602-606 | urgent exactly for Critical, scheduled otherwise |
| CoreDeviceMonitor.MapHealthToLogLevel | backend/module_redfish/core/device_monitor.py:611-619 | OK info, Warning and Unknown warning, Critical error, unlisted values info |
| CoreDeviceMonitor.GetComponentStatus | backend/module_redfish/core/device_monitor.py:37-53 | a truthy top-level health_status or state wins; else the Status block's Health or State, 'Unknown' only when the key is absent |
| CoreDeviceMonitor.AnalyzeSystemHealth | backend/module_redfish/core/device_monitor.py:336-360 | always the System component with normalised health; an alert exactly when the health is Warning or Critical, carrying that health and its urgency |
| CoreDeviceMonitor.AnalyzeComponentHealth | backend/module_redfish/core/device_monitor.py:362-549 | nothing for an Absent component; otherwise a component of the fixed kind with normalised health, and an alert exactly when the raw health is Warning or Critical |
| CoreDeviceMonitor.StoredCodes | backend/module_redfish/core/device_monitor.py:204-334 | the stored component types are the hardware codes of the analyser kinds (processor stored as cpu) |
| CoreDeviceMonitor.ListAlertsBounded | backend/module_redfish/core/device_monitor.py:211-334 | a component list never yields more alerts than components |
| CoreDeviceMonitor.AbsentContributesNothing | backend/module_redfish/core/device_monitor.py:362-549 | Absent components add neither a component nor an alert |
| CoreDeviceMonitor.ListCompsAppend | backend/module_redfish/core/device_monitor.py:211-334 | components accumulate in input order |
| CoreDeviceMonitor.ListAlertsAppend | backend/module_redfish/core/device_monitor.py:211-334 | alerts accumulate in input order |
| CoreDeviceMonitor.AnalyzeList | backend/module_redfish/core/device_monitor.py:211-334 | each per-component loop appends exactly the list's components and alerts |
| CoreDeviceMonitor.ConnectivityRules | backend/module_redfish/core/device_monitor.py:157-199 | a downtime component only with a business IP; an alert only when offline (critical, urgent, downtime_detection); a failed check gives unknown and no alert |
| CoreDeviceMonitor.SummaryFallback | backend/module_redfish/core/device_monitor.py:245-292 | one MemorySummary component and alert exactly when no DIMM is warning/critical, the vendor is not Fujitsu and HealthRollup (else Health) is Warning or Critical |
| CoreDeviceMonitor.SystemPart | backend/module_redfish/core/device_monitor.py:201-209 | the system part adds at most one component and no more alerts than components |
| CoreDeviceMonitor.AnalyzeStatus | backend/module_redfish/core/device_monitor.py:143-334 | the alerts and components are those of the connectivity, system, component and summary parts, in order |
| CoreDeviceMonitor.AlertsAtMostComponents | backend/module_redfish/core/device_monitor.py:143-334 | never more alerts than components |
| CoreDeviceMonitor.CountedHealths | backend/module_redfish/core/device_monitor.py:573-581 | only OK, Warning, Critical healths of present, non-empty components are counted |
| CoreDeviceMonitor.MaxScore | backend/module_redfish/core/device_monitor.py:588-591 | the maximum score is attained by some counted health and bounds all |
| CoreDeviceMonitor.OverallIsWorst | backend/module_redfish/core/device_monitor.py:583-594 | unknown exactly when nothing is counted; critical exactly when a Critical is counted; warning when Warning but no Critical; ok exactly when every counted health is OK |
| CoreDeviceMonitor.CountedHealthsAppend | backend/module_redfish/core/device_monitor.py:573-581 | counted healths accumulate in order |
| CoreDeviceMonitor.CollectHealths | backend/module_redfish/core/device_monitor.py:573-581 | the inner loop collects exactly the counted healths of one list |
| CoreDeviceMonitor.CalculateOverallHealth | backend/module_redfish/core/device_monitor.py:551-594 | the overall health is the worst counted health of all lists |
| CoreDeviceMonitor.IgnoredComponents | backend/module_redfish/core/device_monitor.py:576-581 | Absent components and healths outside OK/Warning/Critical never influence the roll-up |
| CoreDeviceMonitor.AsItems | backend/module_redfish/core/device_monitor.py:84-95 | each unified record is read back as a component item |
| CoreDeviceMonitor.UnifiedSeq | backend/module_redfish/core/device_monitor.py:84-95 | the normalised list the adaptor returns |
| CoreDeviceMonitor.UnifiedListIsUnifiedSeq | backend/module_redfish/core/device_monitor.py:84-95 | the adaptor's list contract determines the list |
| CoreDeviceMonitor.MonitorDevice | backend/module_redfish/core/device_monitor.py:55-141 | a failed fetch gives an unsuccessful result without alerts; otherwise success with the analysis and overall health of the normalised status |
| CoreDeviceMonitor.UnifiedStatus | backend/module_redfish/core/device_monitor.py:37-53 | on a unified record the status read is its clamped health and a non-Absent state |
| CoreDeviceMonitor.UnifiedItemReported | backend/module_redfish/core/device_monitor.py:362-549 | each kept item of a normalised list gives one component under its kind's code, and an alert exactly when its unified health is Warning or Critical |
| CoreDeviceMonitor.NamesLostAfterNormalization | backend/module_redfish/core/device_monitor.py:365-523 | as written every analyser except memory looks the name up under keys a unified record lacks, so the name is Unknown; memory keeps the adaptor's name |
| CoreDeviceMonitor.ProcessorAlertsCollide | backend/module_redfish/core/device_monitor.py:365-390 | as written two different bad processors raise alerts with the same device, type and name, the key under which alerts are merged |
| CoreDeviceMonitor.CorrectedNameKeepsAdaptorName | backend/module_redfish/core/device_monitor.py:395-401 | the corrected lookup (component_name first, as memory does) keeps the adaptor's name and agrees with the original on raw items |
| DashboardService.DeltaOf | backend/module_redfish/service/dashboard_service.py:453 | a timedelta: days and a seconds part in [0, 86400) that recombine into the span |
| DashboardService.DurationOf | backend/module_redfish/service/dashboard_service.py:443-464 | whole days when the span is at least a day, else whole hours from an hour, else whole minutes from a minute, else just now; a future start never gives days |
| DashboardService.NumberHead | backend/module_redfish/service/dashboard_service.py:456-462 | a printed number starts with a digit or a minus sign |
| DashboardService.DurationTextRoundTrip | backend/module_redfish/service/dashboard_service.py:455-464 | every duration text (N天, N小时, N分钟, 刚刚) reads back as the duration it was printed from |
| DashboardService.PriorityScore | backend/module_redfish/service/dashboard_service.py:219-221 | ten per occurrence, plus fifty exactly when the first occurrence is over seven days ago |
| DashboardService.PriorityOrder | backend/module_redfish/service/dashboard_service.py:219-221 | more occurrences or an older first occurrence never score lower |
| DashboardService.GroupCounts | backend/module_redfish/service/dashboard_service.py:399-408 | the GROUP BY result holds exactly the health values some device has |
| DashboardService.HealthDistribution | backend/module_redfish/service/dashboard_service.py:385-415 | exactly the keys ok, warning, critical, unknown, each the number of devices with that health, 0 when none |
| DashboardService.GroupGetCounts | backend/module_redfish/service/dashboard_service.py:410-415 | reading a grouped count gives the number of devices with that health |
| DashboardService.HealthSplit | backend/module_redfish/service/dashboard_service.py:385-415 | every device is in exactly one of the four counts or among the others |
| DashboardService.DistributionIgnoresOthers | backend/module_redfish/service/dashboard_service.py:410-415 | the four counts add up to at most the devices, and to all of them exactly when no device has another health |
| DashboardService.TrendDays | backend/module_redfish/service/dashboard_service.py:356-361 | 30 exactly for '30d', 90 exactly for '90d', 7 otherwise |
| DashboardService.AlertTrendChart | backend/module_redfish/service/dashboard_service.py:80-107 | four parallel lists, one element per trend point |
| DashboardService.ChartPoints | backend/module_redfish/service/dashboard_service.py:97-100 | the points the parallel lists describe |
| DashboardService.TrendChartRoundTrip | backend/module_redfish/service/dashboard_service.py:95-107 | zipping the chart's lists back gives the trend, in order |
| DashboardService.TrendChartEndsToday | backend/module_redfish/service/dashboard_service.py:95-107 | a trend of consecutive days ending today gives a chart whose last date is today and whose totals add urgent and scheduled |
| DashboardService.DashboardOverview | backend/module_redfish/service/dashboard_service.py:25-77 | online + offline devices = total; the healthy count equals online; warning + critical fit within offline; the urgent and scheduled alerts fit within each period's total and within the table |
| DashboardService.OnlineIsOk | backend/module_redfish/service/dashboard_service.py:55-67 | the statistics' healthy devices are the distribution's ok devices, and warning plus critical fit within the unhealthy ones |
| DashboardService.DeviceHealthChart | backend/module_redfish/service/dashboard_service.py:110-146 | the four counts from the distribution, unknown shown as offline, and the five component rows fixed at zero |
| DashboardService.DeviceColumn | backend/module_redfish/service/dashboard_service.py:174-175 | a column of the found device, or Unknown when no device matches |
| DashboardService.RealtimeOf | backend/module_redfish/service/dashboard_service.py:167-189 | the corrected entry: the alert's device, component, level, message and last occurrence, and the device's hostname, IP, location and health, each Unknown when no device matches |
| DashboardService.RealtimeDurationReadsBack | backend/module_redfish/service/dashboard_service.py:168 | the entry's duration text reads back as the time since the alert first occurred |
| DashboardService.AnyEntryFails | backend/module_redfish/service/dashboard_service.py:167-189 | some alert's device lookup raises or its entry cannot be built |
| DashboardService.EntriesOf | backend/module_redfish/service/dashboard_service.py:167-189 | the shared list loop: None exactly when some device lookup raises, otherwise one item per alert, in order, built from the alert and its lookup |
| DashboardService.GetRealtimeAlertList | backend/module_redfish/service/dashboard_service.py:149-191 | as written the first alert raises, on alert.hostname if not in its device lookup: the call raises exactly when there is an alert, and otherwise returns [] |
| DashboardService.CorrectedGetRealtimeAlertList | backend/module_redfish/service/dashboard_service.py:149-191 | one corrected entry per alert, in order, unless a device lookup raises |
| DashboardService.ScheduledOf | backend/module_redfish/service/dashboard_service.py:212-235 | the corrected entry: the alert's fields, the device's hostname, IP, location and health (Unknown without a device), and its priority score |
| DashboardService.GetScheduledAlertList | backend/module_redfish/service/dashboard_service.py:194-237 | as written the first alert raises: the call raises exactly when there is an alert, and otherwise returns [] |
| DashboardService.CorrectedGetScheduledAlertList | backend/module_redfish/service/dashboard_service.py:194-237 | one corrected entry per alert, in order, unless a device lookup raises |
| DashboardService.ListsBuiltWithUniqueKeys | backend/module_redfish/service/dashboard_service.py:174-215 | with unique device keys no lookup raises |
| DashboardService.OrUnknown | backend/module_redfish/service/dashboard_service.py:283-285 | a truthy column is kept; NULL, '' and 0 become Unknown |
| DashboardService.SummaryOf | backend/module_redfish/service/dashboard_service.py:279-296 | the device's location, manufacturer and model with the Unknown fallbacks, the fixed OK/On/Connected texts, and the alert count |
| DashboardService.GetDeviceHealthSummary | backend/module_redfish/service/dashboard_service.py:240-298 | one row per device of devices[:limit], in order, each counting that device's own active alerts (with the corrected device-alert listing) |
| DashboardService.PySlice | backend/module_redfish/service/dashboard_service.py:259 | Python s[:limit], a negative limit counting from the end |
| DashboardService.SystemHealthMetrics | backend/module_redfish/service/dashboard_service.py:322 | reads device_stats['inactive_devices'], which the statistics never hold, so the call always raises KeyError |
| DashboardService.DictGet | backend/module_redfish/service/dashboard_service.py:322 | d[k] is the value, or a KeyError exactly for a missing key |
| Dates.DaysInMonth | backend/module_redfish/service/duty_service.py:468-475 | every month has 28 to 31 days |
| Dates.YearLength | backend/module_redfish/service/duty_service.py:468-475 | a year has 366 days when it is a leap year, 365 otherwise |
| Dates.NextMonthFollows | backend/module_redfish/service/duty_service.py:471-475 | the first of the next month (January of the next year after December) follows the last day of this one |
| Dates.MonthDays | backend/module_redfish/service/duty_service.py:468-475 | the first and last day of the month, or the ValueError of date() for a month outside 1..12, a year outside 1..9999, or December 9999 |
| Dates.SplitYear | backend/module_redfish/service/alert_service.py:724 | the year and day-of-year of a day counted from a new year: the day lies within that year and the day count is preserved |
| Dates.SplitMonth | backend/module_redfish/service/alert_service.py:724 | the month and day of a day of the year: a valid day of that month at the same distance from new year |
| Dates.DateTimeOf | backend/module_redfish/service/alert_service.py:724 | the datetime held as seconds since 1970-01-01 00:00:00 is a valid date and time of day whose seconds are exactly the given ones |
| Dates.TwoDigitsReadBack | backend/module_redfish/service/alert_service.py:724 | a two-digit field is two digits that read back as the value |
| Dates.FourDigitsReadBack | backend/module_redfish/service/alert_service.py:724 | a four-digit year is four digits that read back as the year |
| Dates.StrftimeReadsBack | backend/module_redfish/service/alert_service.py:724 | strftime('%Y-%m-%d %H:%M:%S') of a datetime in years 1..9999 has the YYYY-MM-DD HH:MM:SS shape and its six fields read back as the datetime's |
| Dates.FormatSeconds | backend/module_redfish/service/alert_service.py:724 | the text of the datetime held as t seconds exists exactly when its year is in 1..9999; it has the YYYY-MM-DD HH:MM:SS shape and reads back as a valid datetime of t seconds |
| DeviceDao.DeviceByIdFinds | backend/module_redfish/dao/device_dao.py:94-108 | with unique keys the lookup never raises and finds a row exactly when one holds the id |
| DeviceDao.AtMostOneWithId | backend/module_redfish/dao/device_dao.py:105-108 | at most one row carries a key |
| DeviceDao.DeviceByIp | backend/module_redfish/dao/device_dao.py:111-135 | no lookup when neither address is given; otherwise the device whose business or out-of-band IP matches, none exactly when no device matches, a raise only when two or more do |
| DeviceDao.DeviceByHostnameOrIp | backend/module_redfish/dao/device_dao.py:330-355 | a found device has the hostname or the out-of-band IP; none found means no device has either |
| DeviceDao.SystemInfoUpdates | backend/module_redfish/dao/device_dao.py:283-288 | exactly the manufacturer, model and serial_number keys present in system_info, with their values |
| DeviceDao.EditedRows | backend/module_redfish/dao/device_dao.py:158-183 | the row with the key takes the edit; every other row is untouched |
| DeviceDao.EditTouchesOnlyGivenFields | backend/module_redfish/dao/device_dao.py:178-180 | an edit overwrites exactly the non-None fields other than device_id |
| DeviceDao.SystemInfoTouchesOnlyItsKeys | backend/module_redfish/dao/device_dao.py:283-288 | a system-information refresh changes only manufacturer, model and serial number, and only those given |
| DeviceDao.FilterKeepsIdOrder | backend/module_redfish/dao/device_dao.py:215-220 | filtering keeps the rows in key order |
| DeviceDao.MonitoringDevicesOrdered | backend/module_redfish/dao/device_dao.py:205-220 | exactly the monitored devices, ordered by device id |
| DeviceDao.DeviceListPaging | backend/module_redfish/dao/device_dao.py:75-91 | the paged total counts the unpaged list, and page n holds at most size rows of that list from (n-1)*size on |
| DeviceDao.EmptyQueryListsAll | backend/module_redfish/dao/device_dao.py:34-69 | a query with no filter lists the whole table |
| DeviceDao.DeviceStatistics | backend/module_redfish/dao/device_dao.py:294-327 | exactly four keys; total is the table size, healthy + unhealthy = total, monitoring within total, and unhealthy counts every health other than 'ok' (NULL included) |
| DeviceDao.DeviceTable.constructor | backend/module_redfish/dao/device_dao.py:140 | an empty device table with the next key 1 |
| DeviceDao.DeviceTable.AddDevice | backend/module_redfish/dao/device_dao.py:140-155 | appends one device with the next key and the dumped fields |
| DeviceDao.DeviceTable.IndexOf | backend/module_redfish/dao/device_dao.py:169-172 | the first position holding the key, or none when no row holds it |
| DeviceDao.DeviceTable.EditDevice | backend/module_redfish/dao/device_dao.py:158-183 | False and no change for an unknown id; otherwise True and the row takes every non-None field except device_id; no other row changes |
| DeviceDao.DeviceTable.UpdateDeviceSystemInfo | backend/module_redfish/dao/device_dao.py:257-291 | False and no change for an unknown id; otherwise True and only the given manufacturer, model and serial number are copied onto the row |
| DeviceDao.DeviceTable.DeleteDevice | backend/module_redfish/dao/device_dao.py:186-202 | always True; exactly the listed devices are removed, the rest kept in order |
| DeviceImportService.Missing | backend/module_redfish/service/device_import_service.py:58-59 | exactly the required columns the sheet lacks, no more than three |
| DeviceImportService.Credential | backend/module_redfish/service/device_import_service.py:89-90 | the stripped value when it is non-empty, 'admin' otherwise; never empty or padded |
| DeviceImportService.InsertedColumns | backend/module_redfish/service/device_import_service.py:100-119 | a new device from a row keeps the sheet's hostname and out-of-band IP, the business type, port 443, health unknown, monitoring on, the credential rule, the encrypted password and the creator and create time |
| DeviceImportService.EditColumns | backend/module_redfish/service/device_import_service.py:124-147 | an update from a row carries the device id, health unknown, the encrypted password, the updater and the update time |
| DeviceImportService.EditLeavesCreationColumns | backend/module_redfish/service/device_import_service.py:124-147 | an update from a row sets exactly the sheet columns, the type, health, monitoring, credentials and updater: no port, creator or create time |
| DeviceImportService.UpdateKeepsUnsetColumns | backend/module_redfish/service/device_import_service.py:124-151 | updating from the sheet keeps a stored remark when the cell is blank, and the stored port and create time, while the health becomes unknown |
| DeviceImportService.ImportRow | backend/module_redfish/service/device_import_service.py:80-164 | every row either succeeds or adds exactly one error line tagged with its number and changes nothing; a missing required value is the 必填项 error; only an accepted business type reaches the table; an existing device without update support is the 已存在 error |
| DeviceImportService.ImportCountsEveryRow | backend/module_redfish/service/device_import_service.py:79-169 | successes plus errors grow by exactly the number of rows, and earlier errors stay first |
| DeviceImportService.ImportMessage | backend/module_redfish/service/device_import_service.py:172-174 | the message opens with the success and failure counts |
| DeviceImportService.ImportOne | backend/module_redfish/service/device_import_service.py:80-169 | one loop step does on the table exactly what ImportRow describes; an error is added exactly when the row failed |
| DeviceImportService.BatchImport | backend/module_redfish/service/device_import_service.py:27-176 | a sheet missing a required column is refused with the column list and no change; otherwise success, the table is the result of importing every row in order, and the message reports it |
| DeviceImportService.DeviceHealthText | backend/module_redfish/service/device_import_service.py:366-376 | 正常 exactly for ok, 警告 exactly for warning or critical, 未知 for anything else or nothing |
| DeviceImportService.MonitorText | backend/module_redfish/service/device_import_service.py:379-383 | 启用 exactly for the integer 1, 停用 otherwise |
| DeviceImportService.DeviceTime | backend/module_redfish/service/device_import_service.py:391-400 | None and '' are left as they are, a non-empty string is kept, a datetime prints as YYYY-MM-DD HH:MM:SS text that reads back as the same instant |
| DeviceImportService.FormatDevice | backend/module_redfish/service/device_import_service.py:364-400 | the formatted device has every field of the device plus the two labels, no password, and the labels computed from the original values |
| DeviceImportService.FormatDeviceFields | backend/module_redfish/service/device_import_service.py:390-400 | the three time fields the device holds are formatted and every other field but the labels and the password is unchanged |
| DeviceImportService.Labelled | backend/module_redfish/service/device_import_service.py:366-383 | the health and monitoring labels come from the original values; nothing else changes |
| DeviceImportService.DeviceStamped | backend/module_redfish/service/device_import_service.py:390-400 | only the three time fields the device holds are reformatted; every other field is unchanged |
| DeviceImportService.ExportDeviceRows | backend/module_redfish/service/device_import_service.py:349-405 | one row per convertible device, in order, formatted and numbered with its 1-based position in the input, none holding a password |
| DeviceService.Masked | backend/module_redfish/service/device_service.py:66-70 | a listed device shows the password mask, its business type replaced by the name when the mapping knows the code, and every other column unchanged |
| DeviceService.MaskDeviceList | backend/module_redfish/service/device_service.py:55-70 | one shown device per listed device, in order, each masked |
| DeviceService.ListingHidesPasswords | backend/module_redfish/service/device_service.py:66-68 | no listed device shows a stored password |
| DeviceService.EditedPassword | backend/module_redfish/service/device_service.py:224-228 | a new non-mask password is encrypted; an empty one or the mask keeps the stored password |
| DeviceService.MaskedFormKeepsPassword | backend/module_redfish/service/device_service.py:224-228 | saving a listed device unchanged, mask included, keeps the stored password |
| DeviceService.AddedFields | backend/module_redfish/service/device_service.py:185-186 | the password is encrypted when given; every field is kept otherwise |
| DeviceService.AddDeviceServices | backend/module_redfish/service/device_service.py:166-195 | refused when a device holds either IP (a lookup across several devices raises); otherwise exactly one device appended with the next key and the encrypted password; nothing changes on refusal |
| DeviceService.EditDeviceServices | backend/module_redfish/service/device_service.py:197-245 | 设备不存在 exactly for an unknown id; success exactly when the device exists and no other device holds the IPs; on success only that row takes the edit with the password rule; on failure no change and no recalculation |
| DeviceService.Online | backend/module_redfish/service/device_service.py:951-955 | online exactly when the ping or one of the ports 22, 80 and 443 answered |
| DeviceService.ConnectivityTarget | backend/module_redfish/service/device_service.py:913-929 | an unknown device id, no id and no IP, and a device without a business IP are refused with their messages; a given IP without an id is probed; a probed IP is never empty |
| DeviceMonitorLegacy.AlertLevel | backend/module_redfish/device_monitor.py:485-493 | OK gives info, Critical gives critical, every other value warning |
| DeviceMonitorLegacy.LogLevel | backend/module_redfish/device_monitor.py:495-502 | Critical gives error, Warning and Unknown give warning, every other value info |
| DeviceMonitorLegacy.Analyze | backend/module_redfish/device_monitor.py:170-440 | every analysed component gives exactly one log at its log level; it gives an alert exactly when there is an alert reason, and the alert carries the component's type, name and level |
| DeviceMonitorLegacy.SystemAlertRule | backend/module_redfish/device_monitor.py:170-200 | the system alerts exactly when its health is Warning or Critical, or its state is neither Enabled nor StandbyOffline |
| DeviceMonitorLegacy.SimpleAlertRule | backend/module_redfish/device_monitor.py:202-348 | a processor, memory module or power supply alerts exactly when its health is Warning or Critical, or its state is not Enabled |
| DeviceMonitorLegacy.StorageAlertRule | backend/module_redfish/device_monitor.py:268-315 | storage alerts exactly when its health is bad, its state is unexpected, or less than 10 percent of media life is left |
| DeviceMonitorLegacy.StoppedFanIsCritical | backend/module_redfish/device_monitor.py:420-437 | a fan at 0 RPM always alerts, and at level critical |
| DeviceMonitorLegacy.HotSensorIsCritical | backend/module_redfish/device_monitor.py:377-390 | a reading at its set critical threshold or above always alerts; any alert at or above the threshold (100 when unset) is critical |
| DeviceMonitorLegacy.VisitAlerts | backend/module_redfish/device_monitor.py:108-166 | one visit adds at most one alert |
| DeviceMonitorLegacy.Logs | backend/module_redfish/device_monitor.py:108-166 | one log per visited component |
| DeviceMonitorLegacy.AlertsAtMostLogs | backend/module_redfish/device_monitor.py:102-168 | never more alerts than logs |
| DeviceMonitorLegacy.VisitStep | backend/module_redfish/device_monitor.py:108-166 | one more visited component appends its log, and its alert when there is one |
| DeviceMonitorLegacy.AnalyzeStatus | backend/module_redfish/device_monitor.py:91-168 | the loop's alerts and logs are those of every visited component, in the order system, processors, memory, storage, power, temperatures, fans |
| DeviceMonitorLegacy.OneLogPerComponent | backend/module_redfish/device_monitor.py:91-168 | exactly one log per analysed component, and no more alerts than logs |
| DeviceMonitorLegacy.Score | backend/module_redfish/device_monitor.py:464-472 | 4 exactly for OK, 2 exactly for Warning, 1 exactly for Critical, 0 exactly for anything else |
| DeviceMonitorLegacy.MinScore | backend/module_redfish/device_monitor.py:461 | the minimum is at most every score and is one of them |
| DeviceMonitorLegacy.OverallRules | backend/module_redfish/device_monitor.py:442-483 | ok exactly when every health is OK; unknown exactly when some health is outside OK/Warning/Critical; critical exactly when all are known and one is Critical |
| DeviceMonitorLegacy.MinStep | backend/module_redfish/device_monitor.py:461 | one more score lowers the minimum to it exactly when it is smaller |
| DeviceMonitorLegacy.CalculateOverallHealth | backend/module_redfish/device_monitor.py:442-462 | the loop's verdict is the overall health of the collected healths |
| DeviceMonitorLegacy.MissingSystemIsUnknown | backend/module_redfish/device_monitor.py:446-448 | without a system entry the device is always unknown |
| DutyDao.PersonById | backend/module_redfish/dao/duty_dao.py:83-98 | a found person has the key; none exactly when no person has it; never a raise with unique keys |
| DutyDao.PersonByName | backend/module_redfish/dao/duty_dao.py:100-115 | a found person has the name; none exactly when nobody has it; a raise only when the name is shared |
| DutyDao.ScheduleById | backend/module_redfish/dao/duty_dao.py:244-259 | a found schedule has the key; none exactly when no schedule has it; never a raise with unique keys |
| DutyDao.PersonOf | backend/module_redfish/dao/duty_dao.py:190 | the joined person has the schedule's person key; none exactly when no person has it |
| DutyDao.PersonOfIsLookup | backend/module_redfish/dao/duty_dao.py:190 | with unique keys the join finds the person the key lookup finds |
| DutyDao.Conflicts | backend/module_redfish/dao/duty_dao.py:289-323 | exactly the schedules of the same person, day and shift, less the excluded one |
| DutyDao.SlotTotal | backend/module_redfish/dao/duty_dao.py:284 | the day-then-shift order is total |
| DutyDao.SlotTrans | backend/module_redfish/dao/duty_dao.py:284 | the day-then-shift order is transitive |
| DutyDao.InsertKeepsSlotOrder | backend/module_redfish/dao/duty_dao.py:284 | inserting into a sorted list keeps it sorted and adds exactly that schedule |
| DutyDao.SortBySlot | backend/module_redfish/dao/duty_dao.py:284 | the result is sorted by day, then shift, and is a permutation of the input |
| DutyDao.InRange | backend/module_redfish/dao/duty_dao.py:278-285 | exactly the schedules dated from start to end, both included, never more often than stored |
| DutyDao.ScheduleByDateRange | backend/module_redfish/dao/duty_dao.py:261-286 | exactly the schedules of the range, each as often as it is stored, sorted by day then shift |
| DutyDao.RangeDaysAscend | backend/module_redfish/dao/duty_dao.py:284 | along the range listing the days never decrease |
| DutyDao.ShiftAt | backend/module_redfish/dao/duty_dao.py:392-398 | day exactly from 8:00 to 19:59, night otherwise |
| DutyDao.FirstOnDuty | backend/module_redfish/dao/duty_dao.py:400-412 | the first schedule on duty, with none before it; none exactly when no schedule is on duty |
| DutyDao.GetCurrentDutyPerson | backend/module_redfish/dao/duty_dao.py:380-429 | none exactly when nobody is on today's shift of the type; otherwise the first such schedule with its person, whose shift is the current one and never "all" |
| DutyDao.MatchingPersons | backend/module_redfish/dao/duty_dao.py:17-70 | exactly the persons the conditions accept, in newest-first order |
| DutyDao.MatchingSchedules | backend/module_redfish/dao/duty_dao.py:172-231 | exactly the joined schedules the conditions accept, in the listing's order |
| DutyDao.DutyPage | backend/module_redfish/dao/duty_dao.py:72-80 | the total counts every match; unpaged lists everything; a negative offset or limit fails; a page holds the matches from row page_num on |
| DutyDao.FirstDutyRowOnNoPage | backend/module_redfish/dao/duty_dao.py:72 | as written, no page from 1 on ever holds the first match |
| DutyDao.CorrectedDutyPage | backend/module_redfish/dao/duty_dao.py:72 | the corrected paging keeps the total and the unpaged listing |
| DutyDao.CorrectedDutyPagesCover | backend/module_redfish/dao/duty_dao.py:72 | with offset (n-1)*size every match is on page i/size+1 at its place |
| DutyDao.GetDutyStatistics | backend/module_redfish/dao/duty_dao.py:432-489 | the active persons, the schedules of the last days days with both ends included, and the department and duty-type counts, each keyed exactly by the values present and between 1 and its total |
| DutyDao.DeptCounts | backend/module_redfish/dao/duty_dao.py:463-468 | each department count lies between 1 and the number of active persons |
| DutyDao.TypeCounts | backend/module_redfish/dao/duty_dao.py:471-481 | each duty-type count lies between 1 and the number of schedules in range |
| DutyDao.PersonsEdited | backend/module_redfish/dao/duty_dao.py:135-152 | the keyed person takes the supplied columns and the update time; every other row, and each key and create time, is kept |
| DutyDao.EditedPersonReadsBack | backend/module_redfish/dao/duty_dao.py:135-152 | an edit keeps the keys valid; the edited key reads back the new columns and the other keys read as before |
| DutyDao.EditedPersonOf | backend/module_redfish/dao/duty_dao.py:135-152 | after an edit the join finds the edited person under its key and the other persons unchanged |
| DutyDao.SchedulesEdited | backend/module_redfish/dao/duty_dao.py:343-360 | the keyed schedule takes the supplied columns and the update time; every other row is kept |
| DutyDao.PersonsWithout | backend/module_redfish/dao/duty_dao.py:154-170 | exactly the persons whose key is not listed |
| DutyDao.SchedulesWithout | backend/module_redfish/dao/duty_dao.py:362-378 | exactly the schedules whose key is not listed |
| DutyDao.PersonsWithoutValid | backend/module_redfish/dao/duty_dao.py:154-170 | deleting persons keeps the keys valid and the names unique |
| DutyDao.SchedulesWithoutValid | backend/module_redfish/dao/duty_dao.py:362-378 | deleting schedules keeps the keys valid and the slots unique |
| DutyDao.DutyTables.constructor | backend/module_redfish/dao/duty_dao.py:117 | both tables empty, both next keys 1 |
| DutyDao.DutyTables.AddDutyPerson | backend/module_redfish/dao/duty_dao.py:117-133 | appends exactly the new person with the next key and the create and update times |
| DutyDao.DutyTables.EditDutyPerson | backend/module_redfish/dao/duty_dao.py:135-152 | always True; the persons become PersonsEdited; the invariant holds |
| DutyDao.DutyTables.DeleteDutyPersons | backend/module_redfish/dao/duty_dao.py:154-170 | always True; the persons become PersonsWithout; unique names stay unique |
| DutyDao.DutyTables.AddDutySchedule | backend/module_redfish/dao/duty_dao.py:325-341 | appends exactly the new schedule with the next key |
| DutyDao.DutyTables.EditDutySchedule | backend/module_redfish/dao/duty_dao.py:343-360 | always True; the schedules become SchedulesEdited |
| DutyDao.DutyTables.DeleteDutySchedules | backend/module_redfish/dao/duty_dao.py:362-378 | always True; the schedules become SchedulesWithout; unique slots stay unique |
| DutyService.StatusLabel | backend/module_redfish/service/duty_service.py:52 | 正常 exactly for status '1', 停用 exactly for '0', 未知 for anything else |
| DutyService.DutyTypeLabel | backend/module_redfish/service/duty_service.py:261 | 主值班, 备值班 and 应急值班 exactly for primary, backup and emergency; 未知 for any other code |
| DutyService.ShiftLabel | backend/module_redfish/service/duty_service.py:263 | 白班, 夜班 and 全天 exactly for day, night and all; 未知 for any other code |
| DutyService.GetDutyPersonListService | backend/module_redfish/service/duty_service.py:21-81 | paged: the views of the page of matches with the full match count, an exception exactly for a negative offset or limit; unpaged: every match in brief, in order |
| DutyService.GetDutyPersonDetailService | backend/module_redfish/service/duty_service.py:84-117 | 值班人员不存在 exactly when no person has the key; an answer is the view of a person with that key; a raise only when keys repeat |
| DutyService.NamedIsUnique | backend/module_redfish/service/duty_service.py:131-135 | with unique names, two persons holding one name are the same person |
| DutyService.AddKeepsNamesUnique | backend/module_redfish/service/duty_service.py:131-140 | adding a person whose name nobody holds keeps the names unique |
| DutyService.EditKeepsNamesUnique | backend/module_redfish/service/duty_service.py:171-178 | renaming a person to a name nobody else holds keeps the names unique |
| DutyService.AddDutyPersonService | backend/module_redfish/service/duty_service.py:120-149 | a stored name is refused with 值班人员姓名已存在 and no change; otherwise the person is appended with the next key, which the reply returns; schedules never change |
| DutyService.EditDutyPersonService | backend/module_redfish/service/duty_service.py:152-184 | an unknown key is refused with 值班人员不存在, then a name held by a different person with 值班人员姓名已存在, with no change; otherwise the row takes the request's columns |
| DutyService.FirstBlocked | backend/module_redfish/service/duty_service.py:200-211 | the first listed key with a schedule in the coming year, none before it blocked; none exactly when no listed key is blocked |
| DutyService.FirstBlockedIs | backend/module_redfish/service/duty_service.py:200-211 | the first blocked key is the one the guard names |
| DutyService.FirstBlockedNone | backend/module_redfish/service/duty_service.py:200-213 | with no blocked key the guard names nobody |
| DutyService.DeleteKeepsFutureStaffed | backend/module_redfish/service/duty_service.py:200-213 | deleting persons without future schedules leaves every future schedule with its person |
| DutyService.PersonFuture | backend/module_redfish/service/duty_service.py:202-208 | the person's schedules in the coming year are non-empty exactly when the person has one |
| DutyService.DeleteDutyPersonsService | backend/module_redfish/service/duty_service.py:187-220 | the first blocked key stops the delete, is named in the refusal and nothing is removed; otherwise exactly the listed persons go and future schedules stay staffed |
| DutyService.FindBlocked | backend/module_redfish/service/duty_service.py:200-211 | the guard's loop finds the first blocked key |
| DutyService.Prefetched | backend/module_redfish/service/duty_service.py:244-250 | with unique keys the prefetched person is the one the join finds |
| DutyService.ViewsListed | backend/module_redfish/service/duty_service.py:252-267 | every view built from a listed schedule shows that schedule's listed data |
| DutyService.GetDutyScheduleListService | backend/module_redfish/service/duty_service.py:223-291 | with unique person keys an exception exactly for a negative offset or limit; paged answers carry the match count and listed views; unpaged one view per match |
| DutyService.GetDutyScheduleDetailService | backend/module_redfish/service/duty_service.py:294-330 | 值班排期不存在 exactly when no schedule has the key; an answer is that schedule's view, showing 未知 exactly when it has no person or the person is named 未知 |
| DutyService.PersonOfIsLookupFound | backend/module_redfish/service/duty_service.py:345-348 | a lookup that finds a single person finds the one the join pairs |
| DutyService.ScheduleRefusal | backend/module_redfish/service/duty_service.py:345-362 | 值班人员不存在 exactly for an unknown person, 状态异常 exactly for an inactive one, 已有值班安排 exactly when another schedule holds the slot, and none exactly when all guards pass |
| DutyService.AddKeepsSlotsUnique | backend/module_redfish/service/duty_service.py:356-366 | adding a schedule in a free slot keeps the slots unique |
| DutyService.EditKeepsSlotsUnique | backend/module_redfish/service/duty_service.py:409-420 | moving a schedule to a slot no other schedule holds keeps the slots unique and the keys valid |
| DutyService.AddKeepsStaffed | backend/module_redfish/service/duty_service.py:345-366 | adding a schedule of a known person keeps every schedule staffed |
| DutyService.EditKeepsStaffed | backend/module_redfish/service/duty_service.py:398-420 | editing a schedule to a known person keeps every schedule staffed |
| DutyService.AddDutyScheduleService | backend/module_redfish/service/duty_service.py:333-376 | a refusal changes nothing; otherwise the schedule is appended with the next key, which the reply returns; persons never change |
| DutyService.EditDutyScheduleService | backend/module_redfish/service/duty_service.py:379-426 | 值班排期不存在 for an unknown key; then the same guards with the schedule itself left out of the slot check; otherwise the row takes the columns |
| DutyService.DeleteDutySchedulesService | backend/module_redfish/service/duty_service.py:429-446 | always success; exactly the listed schedules go; slots stay unique and schedules staffed |
| DutyService.ItemOf | backend/module_redfish/service/duty_service.py:496-506 | a calendar entry carries its schedule's key |
| DutyService.DayItems | backend/module_redfish/service/duty_service.py:489-506 | a day never holds more entries than there are rows |
| DutyService.DayItemsFrom | backend/module_redfish/service/duty_service.py:489-506 | every entry of a day comes from a row of that day |
| DutyService.DayItemsHold | backend/module_redfish/service/duty_service.py:489-506 | every row is filed under its own day |
| DutyService.DutyCalendarStep | backend/module_redfish/service/duty_service.py:489-506 | one more row appends its entry to its day, opening the day when it is new |
| DutyService.CalendarFilesOnce | backend/module_redfish/service/duty_service.py:489-506 | with distinct keys a schedule's entry is under a day exactly when that day is its date |
| DutyService.CalendarDays | backend/module_redfish/service/duty_service.py:477-506 | the calendar's days are exactly the days of the range that hold a schedule |
| DutyService.GetDutyCalendarService | backend/module_redfish/service/duty_service.py:449-511 | an impossible month is an exception; otherwise the month's schedules grouped by day, whose days are exactly the scheduled days of the month |
| DutyService.GetCurrentDutyPersonService | backend/module_redfish/service/duty_service.py:514-537 | none for primary or backup exactly when nobody of that type is on the current shift today; each found one is of its type and today |
| DutyService.GetDutyStatisticsService | backend/module_redfish/service/duty_service.py:540-556 | the statistics over 30 days: the active persons and the schedules from 30 days ago to today |
| Exports.Kept | backend/module_redfish/service/device_import_service.py:350-362 | exactly the positions of the convertible items, ascending |
| Exports.Numbered | backend/module_redfish/service/device_import_service.py:403-404 | the row gains serialNo, the item's 1-based position, and keeps every other field |
| Exports.ProcessRows | backend/module_redfish/service/device_import_service.py:349-405 | one row per convertible item, in input order, formatted and numbered with its 1-based position |
| MaintenanceDao.NextSaturdayOffset | backend/module_redfish/dao/maintenance_dao.py:419-422 | 0 to 7 days that land on a Saturday; 0 exactly on a Saturday before 06:00 |
| MaintenanceDao.SaturdayWindow | backend/module_redfish/dao/maintenance_dao.py:424-425 | 02:00 of the day that many days on is a Saturday, on that day |
| MaintenanceDao.ScheduledDate | backend/module_redfish/dao/maintenance_dao.py:399-425 | immediate gives now, urgent gives now plus 24 hours, anything else gives 02:00 of a Saturday 0 to 7 days on |
| MaintenanceDao.ScheduledBeforeNow | backend/module_redfish/dao/maintenance_dao.py:419-425 | a Saturday schedule lies in the past exactly when it is computed on a Saturday after 02:00 and before 06:00 |
| MaintenanceDao.ExtractResponsiblePerson | backend/module_redfish/dao/maintenance_dao.py:428-446 | a person exactly when there is a note holding the marker, and then stripped |
| MaintenanceDao.ExtractAfterNote | backend/module_redfish/dao/maintenance_dao.py:428-446 | the note written for a person holding neither the marker nor a newline reads back that person, stripped, whatever the description |
| MaintenanceDao.Settable | backend/module_redfish/dao/maintenance_dao.py:214-216 | exactly the non-None keyword values whose names are columns |
| MaintenanceDao.UpdatedColumn | backend/module_redfish/dao/maintenance_dao.py:214-218 | after an update a column holds the given non-None value when it is a column, its old value otherwise |
| MaintenanceDao.UpdatedRows | backend/module_redfish/dao/maintenance_dao.py:206-220 | the rows of the listed keys are updated, every other row is kept |
| MaintenanceDao.UpdatedTwice | backend/module_redfish/dao/maintenance_dao.py:214-218 | the same update applied twice is applied once |
| MaintenanceDao.UpdatedRowsUnion | backend/module_redfish/dao/maintenance_dao.py:391-394 | updating one key set and then another updates the rows of both |
| MaintenanceDao.KnownCount | backend/module_redfish/dao/maintenance_dao.py:391-396 | the count never exceeds the number of listed keys |
| MaintenanceDao.KnownCountAll | backend/module_redfish/dao/maintenance_dao.py:391-396 | the count equals the number of listed keys exactly when every listed key exists |
| MaintenanceDao.CreateFields | backend/module_redfish/dao/maintenance_dao.py:163-181 | the keywords of the new row: the urgency, the device, status scheduled, source maintenance, the given or computed date, the person's note, and the component type when no name is given |
| MaintenanceDao.CreateFieldsNeedUrgency | backend/module_redfish/dao/maintenance_dao.py:168-181 | the keywords include urgency_level, which the mapped class lacks, and fit the corrected columns |
| MaintenanceDao.CreateFieldsLackLevel | backend/module_redfish/dao/maintenance_dao.py:168-181 | the keywords leave out alert_level, which is NOT NULL without a default, so not every required column is set |
| MaintenanceDao.LevelOf | backend/module_redfish/entity/vo/alert_vo.py:19 | the corrected create's level is urgent or scheduled, and urgent exactly for an immediate or urgent schedule |
| MaintenanceDao.CorrectedCreateFields | backend/module_redfish/dao/maintenance_dao.py:168-181 | the create's keywords plus alert_level at the urgency's level, every other keyword unchanged; every required column is set, all keywords fit the corrected columns, and they do not fit the class as declared |
| MaintenanceDao.CountIn | backend/module_redfish/dao/maintenance_dao.py:262-264 | the total never exceeds the rows |
| MaintenanceDao.CountUrgency | backend/module_redfish/dao/maintenance_dao.py:276-282 | an urgency group never exceeds the total |
| MaintenanceDao.CountOverdue | backend/module_redfish/dao/maintenance_dao.py:286-293 | overdue schedules are open ones |
| MaintenanceDao.StatusPartition | backend/module_redfish/dao/maintenance_dao.py:257-273 | the four statuses partition the total |
| MaintenanceDao.OpenPartition | backend/module_redfish/dao/maintenance_dao.py:288 | the open statuses are active, acknowledged and scheduled |
| MaintenanceDao.UrgencyBounded | backend/module_redfish/dao/maintenance_dao.py:276-302 | the three urgency groups together never exceed the total |
| MaintenanceDao.MaintenanceStatistics | backend/module_redfish/dao/maintenance_dao.py:246-304 | none exactly when urgency_level is not a column; otherwise total = pending + in progress + completed, the urgency groups within the total, and overdue within the open schedules |
| MaintenanceDao.CalendarRows | backend/module_redfish/dao/maintenance_dao.py:323-334 | exactly the open schedules dated within the range, each as often as the rows hold it |
| MaintenanceDao.CalendarRowsInDateOrder | backend/module_redfish/dao/maintenance_dao.py:323-335 | over the table in resolved_time order the selection holds every open schedule of the table dated in the range, each as often as the table holds it, in ascending date order |
| MaintenanceDao.BucketIndex | backend/module_redfish/dao/maintenance_dao.py:341 | the first bucket of the day, none before it; none exactly when no bucket has the day |
| MaintenanceDao.AddEntryShape | backend/module_redfish/dao/maintenance_dao.py:339-370 | filing an entry adds its day, keeps the days distinct and keeps each bucket's counts in agreement with its list |
| MaintenanceDao.ScheduledDaysSnoc | backend/module_redfish/dao/maintenance_dao.py:339-340 | one more schedule adds its day when it has a date |
| MaintenanceDao.CalendarShape | backend/module_redfish/dao/maintenance_dao.py:336-372 | one bucket per distinct day, exactly the days of dated schedules, each bucket's counts agreeing with its list |
| MaintenanceDao.CalendarStep | backend/module_redfish/dao/maintenance_dao.py:338-370 | one more schedule files its entry under its day, or nothing without a date |
| MaintenanceDao.SelectedAreDated | backend/module_redfish/dao/maintenance_dao.py:326-331 | a non-empty selection holds a dated schedule |
| MaintenanceDao.RemoveAt | backend/module_redfish/dao/maintenance_dao.py:237-242 | removing the row at a position removes exactly the rows of its key and keeps the keys distinct |
| MaintenanceDao.MaintenanceTable.constructor | backend/module_redfish/dao/maintenance_dao.py:168 | an empty table with the given columns and the next key 1 |
| MaintenanceDao.MaintenanceTable.IndexOf | backend/module_redfish/dao/maintenance_dao.py:206-208 | a position holding the key, or none when no row holds it |
| MaintenanceDao.MaintenanceTable.SetPresentAttrs | backend/module_redfish/dao/maintenance_dao.py:214-216 | the row with exactly the settable values written over it |
| MaintenanceDao.MaintenanceTable.UpdateMaintenanceSchedule | backend/module_redfish/dao/maintenance_dao.py:190-220 | True exactly for a known key; the rows become UpdatedRows for that key alone; no change otherwise |
| MaintenanceDao.MaintenanceTable.BatchUpdateSchedules | backend/module_redfish/dao/maintenance_dao.py:375-396 | the count is the number of listed keys a row holds; every listed row is updated |
| MaintenanceDao.MaintenanceTable.DeleteMaintenanceSchedule | backend/module_redfish/dao/maintenance_dao.py:223-243 | True exactly for a known key; exactly that key's row goes |
| MaintenanceDao.MaintenanceTable.Store | backend/module_redfish/dao/maintenance_dao.py:183-187 | none and no change when a keyword is not a column or a required column is unset; otherwise the new row under the next key is appended, and the table invariant is kept |
| MaintenanceDao.MaintenanceTable.CreateMaintenanceSchedule | backend/module_redfish/dao/maintenance_dao.py:137-187 | the row as written is never storable, so the create gives none and changes nothing, whatever the class declares |
| MaintenanceDao.MaintenanceTable.CorrectedCreateMaintenanceSchedule | backend/module_redfish/dao/maintenance_dao.py:137-187 | with alert_level set, the new row under the next key is appended exactly when every keyword is a column: always with the corrected columns, never with the class as declared |
| MaintenanceDao.MaintenanceTable.GetCalendarData | backend/module_redfish/dao/maintenance_dao.py:307-372 | over the table in resolved_time order: none when urgency_level is not a column and some schedule is selected; otherwise the calendar of the selected schedules |
| MaintenanceDao.FileEntry | backend/module_redfish/dao/maintenance_dao.py:341-370 | one loop step files the entry as AddEntry does and keeps the day index in step |
| MaintenanceDao.FileOne | backend/module_redfish/dao/maintenance_dao.py:338-370 | one more schedule extends the calendar of the schedules before it, and the day index stays in step |
| MaintenanceDao.FileByDay | backend/module_redfish/dao/maintenance_dao.py:336-372 | none exactly when urgency_level is missing and some schedule is dated; otherwise the calendar of the schedules |
| MaintenanceDao.PrefixDated | backend/module_redfish/dao/maintenance_dao.py:338-339 | a dated schedule among the first n is a dated schedule of the whole list |
| MaintenanceService.CreatedNoteNamesPerson | backend/module_redfish/service/maintenance_service.py:163-180 | the created note reads back the supplied person, or else the device's system owner, stripped |
| MaintenanceService.ChosenDateFollowsUrgency | backend/module_redfish/service/maintenance_service.py:168-180 | without a chosen date an urgent schedule lands 24 hours on and any other non-immediate one on the Saturday 02:00 slot |
| MaintenanceService.CreateMaintenanceScheduleServices | backend/module_redfish/service/maintenance_service.py:142-194 | 设备不存在 and no change for an unknown device; otherwise the create raises and gives the generic failure, because its row is not storable; so creation never succeeds, whatever columns the class declares |
| MaintenanceService.CorrectedCreateMaintenanceScheduleServices | backend/module_redfish/service/maintenance_service.py:142-194 | over the corrected create: 设备不存在 and no change for an unknown device; otherwise the row is created with the chosen person and date when every keyword is a column, and the generic failure is given when not; with the class as declared creation never succeeds, and with the `urgency_level` column added it succeeds for every known device |
| MaintenanceService.UpdateFields | backend/module_redfish/service/maintenance_service.py:213-250 | only truthy inputs become fields; the date goes to resolved_time and the status to alert_status; a person makes the note, with the description line when there is one; without a person the description goes to alert_message |
| MaintenanceService.UpdateNoteNamesPerson | backend/module_redfish/service/maintenance_service.py:240-245 | an update's note reads back its person whatever description follows |
| MaintenanceService.UpdatedKeepsMissingColumn | backend/module_redfish/dao/maintenance_dao.py:214-216 | a field the class lacks never changes through an update |
| MaintenanceService.UpdateMaintenanceScheduleServices | backend/module_redfish/service/maintenance_service.py:197-265 | a named device must exist; then the row takes the update dictionary; an unknown row is reported as not found or failed |
| MaintenanceService.DeleteMaintenanceScheduleServices | backend/module_redfish/service/maintenance_service.py:268-294 | success exactly when the key is known, and exactly that row goes |
| MaintenanceService.MaintenanceStatisticsServices | backend/module_redfish/service/maintenance_service.py:297-332 | the DAO's figures, or all zeros when it raises |
| MaintenanceService.MonthBounds | backend/module_redfish/service/maintenance_service.py:350-358 | midnight of the first day and midnight of the last day, or none for a month or year datetime refuses |
| MaintenanceService.CorrectedMonthBounds | backend/module_redfish/service/maintenance_service.py:350-358 | the corrected end is the last second of the month's last day |
| MaintenanceService.CorrectedBoundsCoverMonth | backend/module_redfish/service/maintenance_service.py:350-358 | the corrected bounds hold exactly the seconds of the month's days |
| MaintenanceService.LastDayMissed | backend/module_redfish/service/maintenance_service.py:356-358 | as written, 02:00 on the last day of the month falls outside the bounds |
| MaintenanceService.MaintenanceCalendarServices | backend/module_redfish/service/maintenance_service.py:335-365 | an invalid month or a raising DAO gives an empty calendar; otherwise the DAO's calendar between the bounds as written |
| MaintenanceService.CorrectedMaintenanceCalendarServices | backend/module_redfish/service/maintenance_service.py:335-365 | with the corrected bounds every schedule dated within the month is listed |
| MaintenanceService.BatchFields | backend/module_redfish/service/maintenance_service.py:384-392 | the request names the batch passes, none of them a column |
| MaintenanceService.CorrectedBatchFields | backend/module_redfish/service/maintenance_service.py:384-392 | mapped as the single update maps them: the note, resolved_time and alert_status |
| MaintenanceService.BatchTouchesOnlyUpdateTime | backend/module_redfish/service/maintenance_service.py:384-398 | as written a batch update changes nothing on a row but its update time |
| MaintenanceService.CorrectedBatchApplies | backend/module_redfish/service/maintenance_service.py:384-398 | with mapped keywords a batch writes the status, the date and the person's note |
| MaintenanceService.UpdateBatch | backend/module_redfish/service/maintenance_service.py:394-397 | the batch through the DAO: the count of known listed rows, every listed row updated |
| MaintenanceService.BatchUpdateSchedulesServices | backend/module_redfish/service/maintenance_service.py:368-406 | the success count reaches the total exactly when every id is known, yet only the update time changes |
| MaintenanceService.CorrectedBatchUpdateSchedulesServices | backend/module_redfish/service/maintenance_service.py:368-406 | with the mapped keywords the listed rows take the status, date and note |
| MaintenanceService.ScheduleById | backend/module_redfish/dao/maintenance_dao.py:117-135 | a row exactly when some row holds the key, and then that row |
| MaintenanceService.AutoDefaultIsSaturday | backend/module_redfish/service/maintenance_service.py:446-453 | without a matching rule the automatic schedule takes the Saturday 02:00 slot |
| MaintenanceService.AutoCreateScheduleFromAlertServices | backend/module_redfish/service/maintenance_service.py:419-471 | a missing alert or one already a maintenance schedule is refused, then a missing device; otherwise the alert is marked scheduled at its rule's urgency date with the owner (or 系统自动分配) as person |
| NoticeStorage.LocalStorage.constructor | frontend/src/utils/noticeStorage.js:10 | a store holding the given user info and read lists |
| NoticeStorage.StorageKey | frontend/src/utils/noticeStorage.js:7-24 | notice_read_list_ followed by the id when the user info parses and carries a truthy id, notice_read_list otherwise |
| NoticeStorage.NestedIdFirst | frontend/src/utils/noticeStorage.js:13 | a truthy nested user.userId wins over the top-level userId |
| NoticeStorage.StoredIds | frontend/src/utils/noticeStorage.js:30-39 | the stored list under the user's key, or [] when it is missing or does not parse |
| NoticeStorage.WithRead | frontend/src/utils/noticeStorage.js:47-49 | the notice is in the list afterwards, appended exactly when absent, and a duplicate-free list stays duplicate-free |
| NoticeStorage.MarkIdempotent | frontend/src/utils/noticeStorage.js:45-56 | marking a notice twice is marking it once |
| NoticeStorage.MarkNoticeAsRead | frontend/src/utils/noticeStorage.js:45-56 | the user's list gains the notice at the end unless it is there, in which case storage is untouched |
| NoticeStorage.Distinct | frontend/src/utils/noticeStorage.js:65 | the distinct values, no duplicates, never longer than the input |
| NoticeStorage.FirstIndex | frontend/src/utils/noticeStorage.js:65 | the first position of a value |
| NoticeStorage.FirstIndexOfPrefix | frontend/src/utils/noticeStorage.js:65 | a prefix shows a value first where the whole list does |
| NoticeStorage.DistinctInFirstOccurrenceOrder | frontend/src/utils/noticeStorage.js:65 | the distinct values come in the order of their first occurrence |
| NoticeStorage.BatchIsOneByOne | frontend/src/utils/noticeStorage.js:62-71 | for a duplicate-free stored list the batch mark equals marking each notice in turn |
| NoticeStorage.DistinctOfDistinct | frontend/src/utils/noticeStorage.js:65 | a duplicate-free list is its own set of distinct values |
| NoticeStorage.MarkNoticesAsRead | frontend/src/utils/noticeStorage.js:62-71 | the stored list becomes the distinct union of old and new ids, old ones first, the same as marking one by one |
| NoticeStorage.UnreadOf | frontend/src/utils/noticeStorage.js:108 | exactly the notices whose id is not read, never more than given |
| NoticeStorage.GetUnreadNotices | frontend/src/utils/noticeStorage.js:102-109 | [] for a non-array; otherwise exactly the notices not marked read |
| NoticeStorage.CountIsLength | frontend/src/utils/noticeStorage.js:94 | the count filter counts the unread list |
| NoticeStorage.UnreadCountMatchesList | frontend/src/utils/noticeStorage.js:88-109 | the unread count is the length of the unread list, for every argument |
| NoticeStorage.ClearReadHistory | frontend/src/utils/noticeStorage.js:114-121 | only the user's key is removed, so the user's list reads as [] |
| NoticeStorage.StillCurrent | frontend/src/utils/noticeStorage.js:131 | exactly the read ids still current, never longer, duplicate-free when the input is |
| NoticeStorage.StillCurrentIsSubsequence | frontend/src/utils/noticeStorage.js:131 | pruning is the order-preserving filter by currency |
| NoticeStorage.CleanupExpiredReads | frontend/src/utils/noticeStorage.js:128-137 | the user's list keeps exactly the read ids among the current ones, in order |
| RedfishClient.DictGet | backend/module_redfish/redfish_client.py:636 | the stored value under a present key, the default otherwise |
| RedfishClient.PyIn | backend/module_redfish/redfish_client.py:813 | the membership test raises exactly for None, a boolean or an integer container |
| RedfishClient.GetProperty | backend/module_redfish/redfish_client.py:802-827 | the top-level value when present and not None; otherwise the value under Oem.Hpe; never None when found; a raise exactly when the Oem membership test raises |
| RedfishClient.FirstResponse | backend/module_redfish/redfish_client.py:607-633 | the first successful response within the tries, with every earlier one failed; none exactly when every try failed |
| RedfishClient.FirstResponseStep | backend/module_redfish/redfish_client.py:609 | one more try yields that try's response when nothing succeeded before |
| RedfishClient.FetchEntry | backend/module_redfish/redfish_client.py:605-633 | one to three requests, stopping at the first success; three exactly when all fail |
| RedfishClient.FirstSuccessStays | backend/module_redfish/redfish_client.py:609 | after a success further tries change nothing |
| RedfishClient.EntryStep | backend/module_redfish/redfish_client.py:636-682 | a kept entry is neither repaired nor OK and has an upper-case severity and its raw data; before the start point an entry is skipped, marking whether it is the start point |
| RedfishClient.GetLogServiceEntries | backend/module_redfish/redfish_client.py:583-692 | the loop returns the entries Collect describes and its counters |
| RedfishClient.CollectBounds | backend/module_redfish/redfish_client.py:583-683 | the collected list only grows, up to the cap; each member is processed at most once, and failures never exceed processed members |
| RedfishClient.EntriesCapped | backend/module_redfish/redfish_client.py:590-592 | at most max_entries entries come back, none when the cap is not positive |
| RedfishClient.CountersBounded | backend/module_redfish/redfish_client.py:605-633 | failed members are processed ones, and no member is processed twice |
| RedfishClient.CollectedAreUnrepaired | backend/module_redfish/redfish_client.py:656-668 | every collected entry is unrepaired and non-OK with an upper-case severity |
| RedfishClient.EntriesAreUnrepaired | backend/module_redfish/redfish_client.py:656-668 | every returned entry is unrepaired and non-OK with an upper-case severity |
| RedfishClient.SkipsThroughStartPoint | backend/module_redfish/redfish_client.py:639-645 | with a start id the entries up to and including the start point are skipped, and collection resumes after it |
| RedfishClient.MissingStartPointCollectsNothing | backend/module_redfish/redfish_client.py:639-645 | with a start id no entry carries, nothing at all is collected |
| RedfishClient.PrefixSlice | backend/module_redfish/redfish_client.py:764 | Python's s[:n] for a non-negative and a negative n |
| RedfishClient.GetEventLogs | backend/module_redfish/redfish_client.py:698-768 | the service loop returns the entries EventLogs describes |
| RedfishClient.CollectServicesCapped | backend/module_redfish/redfish_client.py:730-758 | each service is asked only for what is left, so the total never passes the cap |
| RedfishClient.EventLogsCapped | backend/module_redfish/redfish_client.py:764 | at most max_entries logs, none when the cap is not positive |
| RedfishClient.CollectedFromSelected | backend/module_redfish/redfish_client.py:723-758 | every collected log comes from a reachable service that the type filter selects |
| RedfishClient.EventLogsFromSelected | backend/module_redfish/redfish_client.py:723-764 | every returned log comes from a reachable selected service |
| RedfishClient.KeepEntry | backend/module_redfish/redfish_client.py:868-907 | an entry is kept exactly when it passes the id test (greater id for a numeric MEL pair, a different id otherwise) and the time test (no time or a None one, or strictly newer) |
| RedfishClient.InsertKeepsOrder | backend/module_redfish/redfish_client.py:852 | inserting into a list sorted highest key first keeps it so, when all keys are of one kind |
| RedfishClient.InsertPermutes | backend/module_redfish/redfish_client.py:852 | inserting adds exactly the one entry |
| RedfishClient.SortBy | backend/module_redfish/redfish_client.py:852 | the result is a permutation of the input and, where sorted can compare the keys, in descending key order |
| RedfishClient.SortedDesc | backend/module_redfish/redfish_client.py:852 | sorted(..., reverse=True) succeeds exactly on fewer than two entries or keys of one kind, and returns the entries in descending key order |
| RedfishClient.TimeSortRaises | backend/module_redfish/redfish_client.py:852 | the time sort raises exactly when two or more entries are sorted and one holds a None timestamp |
| RedfishClient.FinalSort | backend/module_redfish/redfish_client.py:912-917 | newest first when the time sort succeeds; otherwise by redfish_log_id descending; a raise exactly when both sorts raise; always a permutation of the kept entries |
| RedfishClient.ApplyIncrementalFilter | backend/module_redfish/redfish_client.py:829-917 | [] for no entries; without a start id or time, the unguarded time sort (raising where it raises); otherwise the entries passing the id and time tests in the closing sort's order |
| RedfishClient.IncrementalFilterKeepsExactly | backend/module_redfish/redfish_client.py:856-917 | when the call returns, an entry is in the result exactly when it passes both the id and the time test |
| RedfishClient.MelKeepsLaterIds | backend/module_redfish/redfish_client.py:871-881 | for a MEL service with numeric ids exactly the ids above the start id survive |
| RedfishLogDao.KeywordSearchFails | backend/module_redfish/dao/redfish_log_dao.py:103-110 | as written every keyword search fails, whatever the table holds, because the message_id column does not exist |
| RedfishLogDao.CorrectedListPaging | backend/module_redfish/dao/redfish_log_dao.py:39-79 | with the keyword on the message column: the paged total counts the unpaged list, page n holds at most size rows of it from (n-1)*size on, each matching the keyword |
| RedfishLogDao.AllImposesNoFilter | backend/module_redfish/dao/redfish_log_dao.py:95-101 | a source and a severity of 'all' list what an empty query lists |
| RedfishLogDao.CorrectedListIsMatchingRows | backend/module_redfish/dao/redfish_log_dao.py:35-37 | over the table in created_time descending order the unpaged list holds exactly the table's matching rows, each as often as the table holds it, newest first |
| RedfishLogDao.LogById | backend/module_redfish/dao/redfish_log_dao.py:125-138 | a found log has the key; none exactly when no log has it |
| RedfishLogDao.CheckLogExists | backend/module_redfish/dao/redfish_log_dao.py:338-359 | True exactly when one log has the device, entry and created time; False exactly when none has; a raise exactly when two or more have |
| RedfishLogDao.LatestLogTime | backend/module_redfish/dao/redfish_log_dao.py:362-375 | none exactly when the device has no log; otherwise the largest created time among its logs |
| RedfishLogDao.DeviceLogCount | backend/module_redfish/dao/redfish_log_dao.py:322-336 | zero exactly when the device has no log |
| RedfishLogDao.LogStats | backend/module_redfish/dao/redfish_log_dao.py:256-320 | the seven counts; critical + warning and SEL + MEL within the total; today within the last seven days within the total |
| RedfishLogDao.RedfishLogTable.constructor | backend/module_redfish/dao/redfish_log_dao.py:159 | an empty log table with the next key 1 |
| RedfishLogDao.RedfishLogTable.AddRedfishLogsBatch | backend/module_redfish/dao/redfish_log_dao.py:159-182 | one row per model, in order, each under a fresh consecutive key, appended to the table |
| RedfishLogDao.RedfishLogTable.DeleteRedfishLog | backend/module_redfish/dao/redfish_log_dao.py:185-204 | True exactly when the key was stored; only that row goes |
| RedfishLogDao.RedfishLogTable.DeleteWhere | backend/module_redfish/dao/redfish_log_dao.py:218-227 | the count is the number of rows passing the test, and exactly those rows go |
| RedfishLogDao.RedfishLogTable.DeleteAll | backend/module_redfish/dao/redfish_log_dao.py:223-224 | deleting the selected rows one at a time removes exactly their keys |
| RedfishLogDao.RedfishLogTable.DeleteRedfishLogsByDevice | backend/module_redfish/dao/redfish_log_dao.py:207-227 | the count is the device's log count, and none of its rows remain while all others do |
| RedfishLogDao.RedfishLogTable.CleanupOldLogs | backend/module_redfish/dao/redfish_log_dao.py:230-253 | the count is the number of logs created before the date, and exactly the rows from the date on remain |
| RedfishLogDao.StepDelete | backend/module_redfish/dao/redfish_log_dao.py:249-250 | one more pass of the delete loop removes one more key |
| RedfishLogDao.WithoutKeys | backend/module_redfish/dao/redfish_log_dao.py:249-250 | exactly the rows whose key is not deleted, in order |
| RedfishLogDao.WithoutAbsentKeys | backend/module_redfish/dao/redfish_log_dao.py:249-250 | deleting keys no row has changes nothing |
| RedfishLogDao.WithoutOneMore | backend/module_redfish/dao/redfish_log_dao.py:249-250 | deleting one key after others is deleting them all at once |
| RedfishLogDao.WithoutKeepsKeysFresh | backend/module_redfish/dao/redfish_log_dao.py:249-250 | deleting rows keeps the keys distinct and below the next key |
| RedfishLogDao.VictimKeys | backend/module_redfish/dao/redfish_log_dao.py:242-250 | with distinct keys a row's key is selected exactly when the row passes the test |
| RedfishLogDao.SameKeySameRow | backend/module_redfish/dao/redfish_log_dao.py:185-204 | with distinct keys two rows with one key are one row |
| RedfishLogVo.QueryLogSource | backend/module_redfish/entity/vo/redfish_log_vo.py:27-32 | an empty value passes; otherwise exactly SEL, MEL or all, returned unchanged |
| RedfishLogVo.QuerySeverity | backend/module_redfish/entity/vo/redfish_log_vo.py:34-46 | an empty value passes unchanged; 'all' in any case becomes 'all'; any other value passes exactly when it upper-cases to CRITICAL or WARNING, and is returned upper-cased |
| RedfishLogVo.AllIsLower | backend/module_redfish/entity/vo/redfish_log_vo.py:39 | 'all' is its own lower case |
| RedfishLogVo.QuerySeverityIdempotent | backend/module_redfish/entity/vo/redfish_log_vo.py:34-46 | validating an already validated severity changes nothing |
| RedfishLogVo.NewLogQuery | backend/module_redfish/entity/vo/redfish_log_vo.py:11-46 | a query exists exactly when the source, the severity and the page bounds all pass, and then carries every argument as given (device id and IP, source, keyword, time bounds, page number and size), the severity normalised |
| RedfishLogVo.QueryTime | backend/module_redfish/entity/vo/redfish_log_vo.py:63-73 | no time for an absent value; otherwise the ISO parse after a Z becomes +00:00 |
| RedfishLogVo.AsQueryIgnoresBadTimes | backend/module_redfish/entity/vo/redfish_log_vo.py:48-86 | a time string never makes the query fail, and an unparseable one becomes None |
| RedfishLogVo.AddLogSource | backend/module_redfish/entity/vo/redfish_log_vo.py:132-137 | exactly SEL or MEL |
| RedfishLogVo.AddSeverity | backend/module_redfish/entity/vo/redfish_log_vo.py:139-148 | an empty value is kept; any other passes exactly when it upper-cases to CRITICAL or WARNING, and is stored upper-cased |
| RedfishLogVo.AddSeverityIdempotent | backend/module_redfish/entity/vo/redfish_log_vo.py:139-148 | the add-model severity validator is idempotent |
| RedfishLogVo.CollectLogType | backend/module_redfish/entity/vo/redfish_log_vo.py:174-179 | exactly sel, mel or all, case included |
| RedfishLogVo.NewCollectRequest | backend/module_redfish/entity/vo/redfish_log_vo.py:164-179 | a request exists exactly when the log type is valid and 1 <= max_entries <= 1000 |
| RedfishLogService.StoredLogBreaksListing | backend/module_redfish/service/redfish_log_service.py:39-65 | as written an unfiltered listing of a non-empty table raises, and any listing that succeeds lists nothing |
| RedfishLogService.CorrectedLogView | backend/module_redfish/service/redfish_log_service.py:384-401 | the corrected converter shows the key as its str, with the device and created time of the row |
| RedfishLogService.ViewsOf | backend/module_redfish/service/redfish_log_service.py:44-47 | one view per listed log, in order |
| RedfishLogService.HasNextMeansMoreRows | backend/module_redfish/service/redfish_log_service.py:49-58 | over the table in query order a page in range is answered with at most page_size rows, each naming the key of a row of the table, and has_next holds exactly when matching rows remain after it |
| RedfishLogService.DetailNeverShown | backend/module_redfish/service/redfish_log_service.py:67-89 | as written no stored log can be shown, and 日志不存在 comes exactly for an unknown key |
| RedfishLogService.CorrectedDetailServices | backend/module_redfish/service/redfish_log_service.py:67-89 | with the corrected converter: not found exactly for an unknown key, otherwise the detail of that key, never a raise |
| RedfishLogService.DeleteRedfishLogServices | backend/module_redfish/service/redfish_log_service.py:331-360 | success exactly when the key is stored; a missing key deletes nothing; otherwise only that row goes |
| RedfishLogService.DeleteDeviceLogsServices | backend/module_redfish/service/redfish_log_service.py:362-382 | the number of the device's rows removed, and none of them remains |
| RedfishLogService.CleanupOldLogsServices | backend/module_redfish/service/redfish_log_service.py:302-329 | always success with the date days*24h before now; the count is the number of rows created earlier, and exactly the later rows remain |
| RedfishLogService.SinceTimestamp | backend/module_redfish/service/redfish_log_service.py:219-222 | none on a forced refresh; otherwise the latest created time stored for the device, none when it has no log |
| RedfishLogService.Step | backend/module_redfish/service/redfish_log_service.py:238-287 | an entry without a truthy id or created time is skipped; a kept entry is a new row of this device with that entry id, a SEL or MEL source and a normalised severity |
| RedfishLogService.PrepareAt | backend/module_redfish/service/redfish_log_service.py:238-287 | one scan step: a skipped entry adds nothing, a failing one abandons the scan, a kept one is prepended |
| RedfishLogService.ThenAppend | backend/module_redfish/service/redfish_log_service.py:279 | appending rows one at a time is appending them together |
| RedfishLogService.PreparedRowsAreNew | backend/module_redfish/service/redfish_log_service.py:238-287 | a scan saves at most one row per entry, each a new SEL or MEL row of this device with a non-empty entry id and a known severity |
| RedfishLogService.Tally | backend/module_redfish/service/redfish_log_service.py:280-300 | the total is the batch size, and critical plus warning never exceed it |
| RedfishLogService.ScanEntries | backend/module_redfish/service/redfish_log_service.py:232-287 | the loop gathers exactly the planned rows and their counts; the first raising entry abandons the scan |
| RedfishLogService.CollectSingleDeviceLogs | backend/module_redfish/service/redfish_log_service.py:194-300 | a failed plan saves nothing; otherwise the table becomes the old rows followed by the planned rows under consecutive fresh keys, and the counts returned |
| RedfishLogService.Appended | backend/module_redfish/service/redfish_log_service.py:279 | one new row per planned row, keyed consecutively from the next key |
| RedfishLogService.CollectInTurnStep | backend/module_redfish/service/redfish_log_service.py:145-158 | collecting a list of devices is collecting the first, then the rest against the table the first left |
| RedfishLogService.CollectInTurnAppends | backend/module_redfish/service/redfish_log_service.py:145-176 | collecting every device keeps the stored rows in front, uses one key per new row, keeps each device's critical and warning counts within its total, and the first device fails exactly when its plan does |
| RedfishLogService.CollectEach | backend/module_redfish/service/redfish_log_service.py:145-158 | the device loop leaves the table and the per-device outcomes that collecting the devices in turn gives |
| RedfishLogService.DevicesToCollect | backend/module_redfish/service/redfish_log_service.py:124-129 | a truthy device id selects at most that device; otherwise exactly the monitored devices |
| RedfishLogService.SelectionById | backend/module_redfish/service/redfish_log_service.py:125-127 | with unique keys a truthy id selects exactly one device when one holds it |
| RedfishLogService.FailedDevices | backend/module_redfish/service/redfish_log_service.py:169-172 | the out-of-band IPs of the devices whose collection raised, all of them exactly when every device failed |
| RedfishLogService.CollectedBounded | backend/module_redfish/service/redfish_log_service.py:173-176 | when each device's critical and warning counts stay within its total, so do the sums |
| RedfishLogService.Summarise | backend/module_redfish/service/redfish_log_service.py:131-188 | no devices gives an unsuccessful all-zero result; success exactly when some device succeeded; the failed IPs and the summed counts |
| RedfishLogService.CollectDeviceLogsServices | backend/module_redfish/service/redfish_log_service.py:111-192 | a raising device selection raises and changes nothing; otherwise the table is what collecting the selected devices in turn leaves, success holds exactly when some device returned outcomes, and the failed IPs and the summed counts are those of the per-device outcomes, critical plus warning within the total |
| WebSocketClient.WebSocketUrl | frontend/src/utils/websocket.js:43-58 | the scheme is wss exactly when the page is served over https, and the URL always ends in the fixed port and path `:9099/ws/redfish` |
| WebSocketClient.DelayDoubles | frontend/src/utils/websocket.js:717 | each further reconnect attempt waits twice as long as the previous one |
| WebSocketClient.BackoffSchedule | frontend/src/utils/websocket.js:12-13 | with an interval of 3000 ms and a cap of 5 attempts the delays are 3, 6, 12, 24 and 48 seconds |
| WebSocketClient.JoinFrames | frontend/src/utils/websocket.js:250-260 | one join_room frame per target room, in the order of the target list |
| WebSocketClient.CallsTo | frontend/src/utils/websocket.js:778-790 | one invocation per registered callback, in registration order, each with the event's data |
| WebSocketClient.IndexOf | frontend/src/utils/websocket.js:768 | -1 exactly when the callback is absent; otherwise the position of its first occurrence |
| WebSocketClient.RemoveFirst | frontend/src/utils/websocket.js:765-776 | an absent callback leaves the array as it is; otherwise exactly the first occurrence is removed, one element shorter and the same multiset minus that callback |
| WebSocketClient.DedupKey | frontend/src/utils/websocket.js:308-331 | a key exists exactly for the four de-duplicated types and is the type, an underscore and the timestamp |
| WebSocketClient.KeysSeparateTypes | frontend/src/utils/websocket.js:315 | two different de-duplicated types never share a cache key, whatever their timestamps |
| WebSocketClient.KnownTypesKeepTheirName | frontend/src/utils/websocket.js:337-422 | every routed message type is re-emitted under its own event name |
| WebSocketClient.UnknownTypesGoOutWhole | frontend/src/utils/websocket.js:423-425 | a message of an unknown type is emitted whole as 'message' |
| WebSocketClient.RouterAlwaysEmits | frontend/src/utils/websocket.js:337-427 | apart from the silent health update and the manual monitor result, every message produces an event |
| WebSocketClient.SilentUpdateRule | frontend/src/utils/websocket.js:495-511 | a silent update emits exactly when `data` and `data.device_id` are truthy, and the payload carries `silent: true` |
| WebSocketClient.HandshakeScenario | frontend/src/utils/websocket.js:93-306 | a socket that opens with a token sends a ping and the four join requests, and is ready once the authentication timer has fired and the four rooms are confirmed |
| WebSocketClient.ConfirmTargetRooms | frontend/src/utils/websocket.js:575-606 | confirming the four target rooms on an open, authenticated connection makes the client ready and sends nothing |
| WebSocketClient.WebSocketService.GetReadyState | frontend/src/utils/websocket.js:810-812 | the ready state is at most CLOSED (3) and is OPEN (1) exactly when the client is connected |
| WebSocketClient.WebSocketService.constructor | frontend/src/utils/websocket.js:8-39 | no socket, no timers, zero attempts, no listeners, an empty cache, all three flags false and reconnecting enabled |
| WebSocketClient.WebSocketService.On | frontend/src/utils/websocket.js:755-760 | the callback is appended to the event's array, which is created when missing; other events are untouched |
| WebSocketClient.WebSocketService.Off | frontend/src/utils/websocket.js:765-776 | the first identical callback is removed; an unknown event or an unregistered callback changes nothing |
| WebSocketClient.WebSocketService.EmitEvent | frontend/src/utils/websocket.js:778-790 | every callback registered for the event is invoked in order, a throwing callback not stopping the rest |
| WebSocketClient.WebSocketService.Send | frontend/src/utils/websocket.js:670-684 | the result is true exactly when the socket is open, and only then does the frame go out |
| WebSocketClient.WebSocketService.CheckReadyState | frontend/src/utils/websocket.js:286-305 | 'ready' goes out exactly when connected, authenticated and rooms-subscribed are all set |
| WebSocketClient.WebSocketService.RequestClose | frontend/src/utils/websocket.js:741-743 | a connecting or open socket starts closing, and only an open one sends a close frame with the given code; any other socket is left alone |
| WebSocketClient.WebSocketService.ScheduleReconnect | frontend/src/utils/websocket.js:689-728 | below the cap of 5 one timer with delay 3000·2^attempts replaces any earlier one and the counter goes up by one; at the cap nothing changes |
| WebSocketClient.WebSocketService.Connect | frontend/src/utils/websocket.js:62-90 | a no-op while connecting or open; otherwise a new socket starts connecting, or a failed creation schedules a reconnect |
| WebSocketClient.WebSocketService.ManualReconnect | frontend/src/utils/websocket.js:730-753 | the counter is reset, reconnecting re-enabled, the socket closed with 1000 (a close frame only when it was open), the reconnect timer cleared and a connect armed one second later |
| WebSocketClient.WebSocketService.Disconnect | frontend/src/utils/websocket.js:793-806 | reconnecting disabled, the timer cleared, the socket closed with 1000 (a close frame only when it was open) and dropped |
| WebSocketClient.WebSocketService.Authenticate | frontend/src/utils/websocket.js:201-231 | with a token on an open socket a ping goes out and a 100 ms timer is armed; otherwise `authenticated` is set at once and readiness is checked |
| WebSocketClient.WebSocketService.SubscribeToRooms | frontend/src/utils/websocket.js:236-281 | joined rooms and the flag are reset, one join_room per target goes out, the fallback is armed, and a 100 ms forcing timer is armed when nothing was sent |
| WebSocketClient.WebSocketService.OnOpen | frontend/src/utils/websocket.js:93-115 | the counter is reset, only `connected` set before the handshake, and 'connection' goes out; without a socket the handler throws on its first line and nothing changes |
| WebSocketClient.WebSocketService.Opened | frontend/src/utils/websocket.js:98-112 | after an open the socket is open, `authenticated` holds exactly when no token is stored, the ping and the four joins are queued, and 'connection' is delivered |
| WebSocketClient.WebSocketService.AuthenticateAndSubscribe | frontend/src/utils/websocket.js:108-109 | the two handshake steps queue the ping (with a token) and the four joins and set `authenticated` exactly when no token is stored |
| WebSocketClient.WebSocketService.ResetConnection | frontend/src/utils/websocket.js:148-159 | all three flags cleared, not connecting, no joined rooms and no fallback timer |
| WebSocketClient.WebSocketService.OnClose | frontend/src/utils/websocket.js:142-173 | the state is reset, 'connection' and 'not_ready' are delivered, and a reconnect is scheduled only when enabled and the code is not 1000 |
| WebSocketClient.WebSocketService.OnError | frontend/src/utils/websocket.js:176-196 | the same reset and notifications as a close, with the error, and never a reconnect |
| WebSocketClient.WebSocketService.IsDuplicateMessage | frontend/src/utils/websocket.js:308-331 | a duplicate exactly when the message has a key already cached; a new key is cached with a five-second expiry timer; other types touch nothing |
| WebSocketClient.WebSocketService.HandleRoomMessage | frontend/src/utils/websocket.js:575-606 | 'joined' adds the room and, once all targets are joined, sets the flag, cancels the fallback and checks readiness; 'left' removes the room; 'room_message' always goes out |
| WebSocketClient.WebSocketService.HandleMessage | frontend/src/utils/websocket.js:337-427 | a non-room message leaves the room bookkeeping alone and delivers exactly the event the router picks |
| WebSocketClient.WebSocketService.OnMessage | frontend/src/utils/websocket.js:120-137 | unparsable or null data and duplicates change nothing; any other message is handled as its type says |
| WebSocketClient.WebSocketService.FireReconnectTimer | frontend/src/utils/websocket.js:722-724 | the reconnect timer is spent and `connect` runs with its usual guard |
| WebSocketClient.WebSocketService.FireSubscriptionTimeout | frontend/src/utils/websocket.js:265-271 | the fallback is spent and forces `roomsSubscribed`, checking readiness only when the flag was still unset |
| WebSocketClient.WebSocketService.FireTimer | frontend/src/utils/websocket.js:214-326 | the fired timer is removed; the authentication timer sets `authenticated`, the forcing timer sets `roomsSubscribed`, each checking readiness, and an expiry timer drops its cache key |
| WebSocketManager.Without | backend/module_redfish/core/websocket_manager.py:132-140 | after leaving the given rooms the user is in none of them, every other membership is kept, and exactly the rooms the user emptied disappear |
| WebSocketManager.DropRoom | backend/module_redfish/core/websocket_manager.py:132-133 | only the leaving user's set changes, losing exactly that room; the key set is unchanged |
| WebSocketManager.JoinKeepsInverse | backend/module_redfish/core/websocket_manager.py:100-106 | joining adds the pair to both maps, so user-to-room and room-to-user stay inverse |
| WebSocketManager.LeaveKeepsInverse | backend/module_redfish/core/websocket_manager.py:132-140 | leaving removes the pair from both maps, so they stay inverse even when a room is deleted |
| WebSocketManager.WithoutOne | backend/module_redfish/core/websocket_manager.py:135-140 | leaving one room removes the user from it, deleting it when it becomes empty, and changes nothing when the user was not a member |
| WebSocketManager.WithoutStep | backend/module_redfish/core/websocket_manager.py:77-79 | leaving the rooms one at a time, as the loop of `disconnect` does, is leaving their union |
| WebSocketManager.EmptyUserIsInNoRoom | backend/module_redfish/core/websocket_manager.py:77-80 | with inverse maps a user with an empty room set is listed in no room, and the set can be dropped or reset to empty without breaking that |
| WebSocketManager.ChannelNamesItsRoom | backend/module_redfish/core/websocket_manager.py:267-271 | a Redis channel `websocket:<room>` is forwarded to room `<room>` whenever the room is not `broadcast` and does not itself contain the prefix, since the prefix is stripped everywhere |
| WebSocketManager.OtherChannelsDropped | backend/module_redfish/core/websocket_manager.py:259-271 | a channel without the `websocket:` prefix is never forwarded |
| WebSocketManager.ReconnectKeepsStaleMembership | backend/module_redfish/core/websocket_manager.py:43-84 | connect, join, connect again and disconnect leave the user listed in the room after the user's maps are gone |
| WebSocketManager.ConnectLeavingOldRooms | backend/module_redfish/core/websocket_manager.py:43-84 | connecting after leaving the earlier rooms keeps the maps inverse and puts the user in no room |
| WebSocketManager.WebSocketManager.constructor | backend/module_redfish/core/websocket_manager.py:18-23 | no connections, no memberships and nothing sent |
| WebSocketManager.WebSocketManager.SendToUser | backend/module_redfish/core/websocket_manager.py:147-164 | exactly one delivery on the user's connection when the user is connected, none otherwise |
| WebSocketManager.WebSocketManager.Connect | backend/module_redfish/core/websocket_manager.py:43-66 | once accepted the socket becomes the user's connection, the user's room set is reset to empty and an acknowledgement is sent; a failed accept changes nothing |
| WebSocketManager.WebSocketManager.JoinRoom | backend/module_redfish/core/websocket_manager.py:91-121 | the pair is added to both maps, creating missing sets, the maps stay inverse, and a connected user is told |
| WebSocketManager.WebSocketManager.LeaveRoom | backend/module_redfish/core/websocket_manager.py:123-145 | the pair leaves both maps, an emptied room is deleted, an absent pair changes nothing, and the maps stay inverse |
| WebSocketManager.WebSocketManager.LeaveAllRooms | backend/module_redfish/core/websocket_manager.py:77-79 | the user leaves every room of a copy of the user's set, which ends empty |
| WebSocketManager.WebSocketManager.Disconnect | backend/module_redfish/core/websocket_manager.py:68-89 | the user leaves all rooms and loses the room set and the connection; with inverse maps the user is then in no room |
| WebSocketManager.WebSocketManager.BroadcastToRoom | backend/module_redfish/core/websocket_manager.py:166-196 | an unknown room gets nothing; otherwise each connected member other than the excluded user gets exactly one delivery |
| WebSocketManager.WebSocketManager.BroadcastToAll | backend/module_redfish/core/websocket_manager.py:198-220 | every active connection gets exactly one delivery of the message |
| WebSocketManager.WebSocketManager.RoomUsersCount | backend/module_redfish/core/websocket_manager.py:282-292 | 0 for an unknown room, otherwise the size of the room's member set |

## Left out
- **Browser side effects:**
  - The real WebSocket and JSON parsing become a state field and an `Option` parameter.
  - `ElNotification`/`ElMessage`, `playNotificationSound` and console logging are not modelled, nor is the `connection_failed` event raised when the notification closes.
  - Timers are entries in a list, fired by explicit methods. Wall-clock time is not modelled.
  - The token in `localStorage` is a boolean parameter of `Authenticate` and `OnOpen`.
- The display handlers of websocket.js (new alert, device status, dashboard updates and the like) are modelled only as the event each one emits. The shape of each payload is abstracted.
- **The database:** SQLAlchemy query building, sessions, commit and rollback, foreign keys and collation are not modelled. A table is a sequence of rows in query order. Per-row exceptions other than the "multiple rows found" error of `scalar_one_or_none` are left out, and so are outer "导入失败" (import failed) paths that only log.
- Redis, Celery and the scheduler: `.delay(...)` calls become the list of recalculations a function returns. The celery session's no-autoflush lookups are modelled against the committed table. Redis pub/sub becomes the channel-routing function `WebSocketManager.RouteChannel`.
- **Network:** ping, TCP and HTTP probes become parameters. All Redfish HTTP fetching is left out (connecting, `get_*_status`, `discover_log_services` and the monitor's `monitor_device` I/O). Only the filtering of fetched entries is modelled.
- **Crypto:** Fernet `encrypt_password`/`decrypt_password` are function parameters.
- Floating point: health and availability percentages, completion rates, progress percentages and temperature readings are left out; integer readings replace them where a rule compares a reading.
- Excel: pandas reading, openpyxl styling and the templates are left out. An export item is an `Option<Record>` (None where the source skips an item).
- Datetimes are day numbers or seconds since the epoch, or opaque text where the source only copies them. Time-zone handling is not modelled.
- Dates.Strftime: the year is zero-padded to four digits, as the Python documentation describes `%Y`. A C library that prints years before 1000 unpadded is not modelled. A number of seconds whose year lies outside 1..9999 stands for no datetime, and the exports print it as ''.
- `ResponseUtil` messages beyond the success or failure decision are not modelled, and neither is the controllers' parsing of ids.
- The business-type lookup of a device is a function parameter.
- The VO modules `alert_vo.py` and `maintenance_vo.py` do not define several models that the services import, so those services would not import as written. Their request fields are taken from the attributes the services read.
- In `alert_service.py` the schedule, update, batch, list, cancel, calendar and delete maintenance services call `AlertDao` methods that `alert_dao.py` does not define. Only update and batch are modelled, in the finding on alert_service.py:343-349. The others are not modelled: as written, each one ends in its failure reply.
- The maintenance listing (maintenance_dao.py:24-115), the maintenance detail, `generate_maintenance_report`, `_convert_alert_to_schedule_model` and the static urgency option list are not modelled.
- `get_complete_dashboard_data_services` is modelled only by its trend window, `DashboardService.TrendDays`.
- The alert rows hold the columns of `models.AlertInfo`. The `urgency_level` read in `get_device_alerts_services` is not modelled.
- AlertDao.AlertPage: the filters of `get_alert_list` are not modelled, only its paging. Its health filter names `AlertInfo.health_status`, which the class lacks, so a query with a health status raises AttributeError (alert_dao.py:55-56).
- AlertDao.Refreshed: the refresh also sets `health_status` on the instance. That is a plain attribute, not a column, so it is never stored, and the model leaves it out (alert_dao.py:155).
- DashboardService.GetScheduledAlertList: it fails as written in the same way as the realtime list in the finding on dashboard_service.py:177-183, here at dashboard_service.py:226-232. Its corrected twin is DashboardService.CorrectedGetScheduledAlertList.
- `device_service.py` repeats the batch import and export of `device_import_service.py` (device_service.py:469-600 and 756-857). They are modelled once, in `DeviceImportService`.
- Redfish log UUID keys are modelled as fresh integers.
- RedfishLogService.CollectDeviceLogsServices: the devices are collected concurrently with `asyncio.gather` over one session (redfish_log_service.py:145-158). The model collects them one after another in device order, so each device's plan sees the rows saved for the devices before it. Other interleavings at the await points are not modelled.
- RedfishLogVo.NewCollectRequest: the `no_storage` flag (redfish_log_vo.py:172) is left out. The collection never reads it, so collected logs are always stored.
- RedfishLogService.CorrectedLogView: the view leaves out the `remark` column (redfish_log_do.py:47) and the audit columns. The modelled operations never write them.
- Basics.PyInt: Python's `int` also accepts `_` between digits ("1_000"), and non-ASCII digits. The model rejects both. This matters in two places. In `BusinessRuleService.ParseIds` such a piece is refused, where Python would read it as an id. In `RedfishClient.IdAsInt`, and so in `Included` and `KeepEntry`, a MEL entry id or start id such as "1_000" is taken as text, so the different-id test is applied where Python applies the greater-id test.
- MaintenanceService.CreateMaintenanceScheduleServices: no longer promises success when the `urgency_level` column is added. As written the row lacks `alert_level`, so that promise is now made by `CorrectedCreateMaintenanceScheduleServices`.
- MaintenanceDao.LevelOf: the source sets no `alert_level` for a schedule. The level the corrected create stores (urgent for an immediate or urgent schedule, else scheduled) is this model's choice.
- AlertDao.AlertTable.CorrectedGetOrCreateAlert: the source and type are parameters of the corrected create. alert_service.py:230 supplies neither, and the model does not choose values for them.
- WebSocketManager.WebSocketManager.SendToUser: a send that fails with `WebSocketDisconnect` disconnects the user in the source. The model assumes sends succeed, so the clean-up loops of the two broadcasts never run.
- Python and JavaScript strings are sequences of characters. There is no Unicode case folding beyond ASCII `lower`/`upper`.
- Defects that are modelled as written and are not findings here:
  - `connectivity` versus `downtime` component types;
  - `inactive_devices` read from device statistics;
  - the undefined `alert_level` in `alert_service.py:237`;
  - the sort on a `created` key that is never present (redfish_client.py:762);
  - the lowercase entry keys in `redfish_log_service.py`, which is modelled over an abstract entry record.
- Out of scope:
  - `core/redfish_client.py`, `connectivity_service.py`, `device_connection_service.py`, `realtime_service.py`, `notice_service.py`;
  - the controllers, `server.py`, configuration, the frontend API wrappers, and one-off scripts and tests.

## Findings
| source | as written | input that shows it | evidently intended | confidence | as-written member | corrected member |
|---|---|---|---|---|---|---|
| backend/module_redfish/core/device_monitor.py:365-523 | after vendor normalisation the processor, storage, power, temperature and fan analysers look the name up under `socket`, `name` or `id`, which a unified record does not carry | two present processors whose unified health is Warning | each alert is named after the adaptor's `component_name`, so the two alerts are kept apart | not executed | CoreDeviceMonitor.NamesLostAfterNormalization | CoreDeviceMonitor.CorrectedNameKeepsAdaptorName |
| backend/module_redfish/core/websocket_manager.py:52-54 | `connect` resets the user's room set without taking the user out of the rooms | connect "user", join "room", connect again, disconnect | after disconnect the user is listed in no room | not executed | WebSocketManager.ReconnectKeepsStaleMembership | WebSocketManager.ConnectLeavingOldRooms |
| backend/module_redfish/dao/alert_dao.py:87 | the page is taken at offset `page_num` | page_num 1, page_size 10, one alert | the page starts at `(page_num - 1) * page_size`, so the first page shows the first alert | not executed | AlertDao.FirstPageSkipsFirstAlert | AlertDao.CorrectedPagesTile |
| backend/module_redfish/dao/redfish_log_dao.py:103-110 | a message keyword builds a condition on `message_id`, a column the log table does not have | any query with message_keyword "fan" | the keyword is matched against the message text | not executed | RedfishLogDao.KeywordSearchFails | RedfishLogDao.CorrectedListPaging |
| backend/module_redfish/service/redfish_log_service.py:384-401 | the converter reads `message_id`, `sensor_type` and `sensor_number`, which the row class lacks | one stored log, listed or shown in detail | a stored log is converted and shown | not executed | RedfishLogService.DetailNeverShown | RedfishLogService.CorrectedDetailServices |
| backend/module_redfish/dao/maintenance_dao.py:173 | `create_maintenance_schedule` passes `urgency_level` to the mapped alert class, which has no such column | any creation request | the column exists and creation stores the schedule | not executed | MaintenanceDao.CreateFieldsNeedUrgency | MaintenanceService.CorrectedCreateMaintenanceScheduleServices |
| backend/module_redfish/dao/maintenance_dao.py:168-181 | `create_maintenance_schedule` leaves `alert_level` unset, a column that is NOT NULL without a default, so the INSERT fails even with `urgency_level` declared | any creation request, with the `urgency_level` column added | the schedule is stored with an alert level | not executed | MaintenanceDao.CreateFieldsLackLevel | MaintenanceDao.MaintenanceTable.CorrectedCreateMaintenanceSchedule |
| backend/module_redfish/service/maintenance_service.py:384-392 | the batch update passes `responsible_person`, `scheduled_date` and `status`, which the row lacks, so the guarded setattr skips every one | batch with status "completed" | the batch writes the note, the resolved time and the alert status | not executed | MaintenanceService.BatchTouchesOnlyUpdateTime | MaintenanceService.CorrectedBatchApplies |
| backend/module_redfish/service/maintenance_service.py:354-358 | the month's end bound is midnight at the start of its last day | a schedule at 02:00 on the last day of the month | the whole last day is in the calendar | not executed | MaintenanceService.LastDayMissed | MaintenanceService.CorrectedMaintenanceCalendarServices |
| backend/module_redfish/service/business_rule_service.py:140-142 | an edit with an empty business type is checked against the stored type but stores the empty one | rules 1 ("", X) and 2 (b, Y); rule 2 edited with business type "" and hardware type X | the stored pair is the pair that was checked, so pairs stay unique | not executed | BusinessRuleService.EditAdmitsDuplicatePair | BusinessRuleService.CorrectedEditRuleServices |
| backend/module_redfish/dao/duty_dao.py:72 | duty lists are taken at offset `page_num` | page_num 1 with one matching row | the first page starts with the first matching row | not executed | DutyDao.FirstDutyRowOnNoPage | DutyDao.CorrectedDutyPagesCover |
| backend/module_redfish/service/alert_service.py:256-263 | the query model is built with field names, which an alias-only model ignores, so `device_id` and `status` are dropped | one active alert on device 1, asked for device 2 | only the device's active alerts are returned | not executed; relies on Pydantic v2 alias-only validation | AlertService.OtherDeviceCreditedWithAlert | AlertService.CorrectedCountsSplit |
| backend/module_redfish/service/alert_service.py:343-349 | `AlertDao.update_maintenance` does not exist, so the call raises and the generic failure is returned | any maintenance update | the DAO outcome decides the reply | not executed | AlertService.UpdateMaintenanceAlwaysFails | AlertService.UpdateMaintenanceReply |
| backend/module_redfish/dao/alert_dao.py:170-185 | the create passes `hostname`, `business_ip` and `health_status` to `AlertInfo(...)`, which declares none of them, so the constructor raises TypeError; it also leaves `alert_source` and `alert_type` unset, which are NOT NULL without a default, so the INSERT would fail without the three | a first alert for a component of an existing device | a new active alert is inserted, with its source and type | not executed | AlertDao.CreateKeywordsUndeclared | AlertDao.AlertTable.CorrectedGetOrCreateAlert |
| backend/module_redfish/dao/alert_dao.py:206-240 | the resolve and ignore updates set `resolved_by` and `resolved_note`, which are not columns of `AlertInfo`, so the update raises | resolve alert 1 by "admin" | the listed alerts take the status, the time and the note | not executed | AlertDao.StatusKeywordsUndeclared | AlertDao.AlertTable.CorrectedResolveAlerts |
| backend/module_redfish/service/dashboard_service.py:177-183 | the realtime and scheduled lists read `alert.hostname`, `alert.business_ip` and `alert.health_status`, which `AlertInfo` lacks, so the first alert raises AttributeError | one active urgent alert | each alert is listed with its device's hostname, IP and health | not executed | DashboardService.GetRealtimeAlertList | DashboardService.CorrectedGetRealtimeAlertList |
