/**
 * The vendor-adaptor helpers and the generic adaptor: every inventory item
 * is reduced to a unified component record with a fixed type, a display
 * name from a fallback chain, a health value clamped to the Redfish
 * vocabulary and the original item.
 */
module AdaptersBase {
  import opened Basics

  /** The four health values the unified record may carry. */
  predicate IsRedfishHealth(h: string) {
    h == "OK" || h == "Warning" || h == "Critical" || h == "Unknown"
  }

  /** A unified component as the adaptors emit it. */
  datatype Component = Component(
    componentType: string,
    componentName: string,
    healthStatus: string,
    state: Val,
    raw: Item)

  /** `item.get("Status", {}) or {}`: a missing or empty block is `{}`. */
  function StatusBlock(item: Item): (d: Dict)
    ensures item.status.None? ==> d == map[]
    ensures item.status.Some? ==> d == item.status.value
  {
    if item.status.Some? then item.status.value else map[]
  }

  /**
   * `_status_of`: health and state from the Status block, falling back to
   * the item's own `health_status` / `state` and then to "Unknown". The
   * fall-backs apply only when a key is absent, so a present `None` stays.
   */
  function StatusOf(item: Item): (hs: (Val, Val))
    ensures "Health" in StatusBlock(item) ==> hs.0 == StatusBlock(item)["Health"]
    ensures "Health" !in StatusBlock(item) && "health_status" in item.attrs ==> hs.0 == item.attrs["health_status"]
    ensures "Health" !in StatusBlock(item) && "health_status" !in item.attrs ==> hs.0 == Str("Unknown")
    ensures "State" in StatusBlock(item) ==> hs.1 == StatusBlock(item)["State"]
    ensures "State" !in StatusBlock(item) && "state" in item.attrs ==> hs.1 == item.attrs["state"]
    ensures "State" !in StatusBlock(item) && "state" !in item.attrs ==> hs.1 == Str("Unknown")
  {
    var status := StatusBlock(item);
    (GetOr(status, "Health", GetOr(item.attrs, "health_status", Str("Unknown"))),
     GetOr(status, "State", GetOr(item.attrs, "state", Str("Unknown"))))
  }

  /** `_normalize_health`: the four Redfish values pass, everything else is "Unknown". */
  function NormalizeHealth(health: Val): (h: string)
    ensures IsRedfishHealth(h)
    ensures health.Str? && IsRedfishHealth(health.s) ==> h == health.s
    ensures !(health.Str? && IsRedfishHealth(health.s)) ==> h == "Unknown"
  {
    if health.Str? && IsRedfishHealth(health.s) then health.s else "Unknown"
  }

  lemma NormalizeHealthIdempotent(health: Val)
    ensures NormalizeHealth(Str(NormalizeHealth(health))) == NormalizeHealth(health)
  {
  }

  predicate NotAbsent(item: Item) {
    StatusOf(item).1 != Str("Absent")
  }

  /** The items `_ignore_absent` keeps. */
  function NonAbsent(items: seq<Item>): (r: seq<Item>)
  {
    FilterSeq(items, NotAbsent)
  }

  /** `NonAbsent` keeps exactly the non-Absent items. */
  lemma NonAbsentExactly(items: seq<Item>, x: Item)
    ensures x in NonAbsent(items) <==> x in items && StatusOf(x).1 != Str("Absent")
  {
    if x in items && NotAbsent(x) {
      FilterSeqComplete(items, NotAbsent, x);
    }
  }

  /** `NonAbsent` preserves the input order: it is an order-preserving sub-sequence. */
  lemma {:induction false} NonAbsentOfAppend(items: seq<Item>, more: seq<Item>)
    ensures NonAbsent(items + more) == NonAbsent(items) + NonAbsent(more)
  {
    if items == [] {
      assert items + more == more;
    } else {
      assert (items + more)[1..] == items[1..] + more;
      NonAbsentOfAppend(items[1..], more);
    }
  }

  /** `_ignore_absent`. */
  method IgnoreAbsent(items: seq<Item>) returns (results: seq<Item>)
    ensures results == NonAbsent(items)
  {
    results := [];
    var i := 0;
    while i < |items|
      invariant 0 <= i <= |items|
      invariant results == NonAbsent(items[..i])
    {
      var it := items[i];
      assert items[..i + 1] == items[..i] + [it];
      FilterSeqAppend(items[..i], it, NotAbsent);
      if StatusOf(it).1 != Str("Absent") {
        results := results + [it];
      }
      i := i + 1;
    }
    assert items[..i] == items;
  }

  /** The kinds of list the adaptors normalise. */
  datatype ListKind = Processors | Memory | Storage | Power | Temperatures | Fans

  /** The fixed `component_type` each normaliser writes. */
  function TypeOf(kind: ListKind): string {
    match kind
      case Processors => "processor"
      case Memory => "memory"
      case Storage => "storage"
      case Power => "power"
      case Temperatures => "temperature"
      case Fans => "fan"
  }

  /** The name fallback chain of each normaliser. */
  function NameOf(kind: ListKind, a: Dict): (name: string)
    ensures name != ""
  {
    match kind
      case Processors => FirstTruthy([Get(a, "socket"), Get(a, "id"), Get(a, "name")], "Processor")
      case Memory => FirstTruthy([Get(a, "device_locator"), Get(a, "id"), Get(a, "name")], "Memory")
      case Storage => FirstTruthy([Get(a, "name"), Get(a, "id"), Get(a, "model")], "Drive")
      case Power => FirstTruthy([Get(a, "name"), Get(a, "id")], "PowerSupply")
      case Temperatures => FirstTruthy([Get(a, "name"), Get(a, "id")], "Temp")
      case Fans => FirstTruthy([Get(a, "name"), Get(a, "id")], "Fan")
  }

  /** The storage rule: no health (None or "Unknown") on an Enabled drive counts as OK. */
  function StorageHealth(health: Val, state: Val): (h: Val)
    ensures (health == Null || health == Str("Unknown")) && state == Str("Enabled") ==> h == Str("OK")
    ensures !((health == Null || health == Str("Unknown")) && state == Str("Enabled")) ==> h == health
  {
    if (health == Null || health == Str("Unknown")) && state == Str("Enabled") then Str("OK") else health
  }

  /** The record one normaliser builds for one kept item. */
  function Unify(kind: ListKind, item: Item): (c: Component)
    ensures c.componentType == TypeOf(kind) && c.raw == item && c.state == StatusOf(item).1
    ensures IsRedfishHealth(c.healthStatus) && c.componentName != ""
    ensures kind != Storage ==> c.healthStatus == NormalizeHealth(StatusOf(item).0)
    ensures kind == Storage ==> c.healthStatus == NormalizeHealth(StorageHealth(StatusOf(item).0, StatusOf(item).1))
  {
    var (health, state) := StatusOf(item);
    var h := if kind == Storage then StorageHealth(health, state) else health;
    Component(TypeOf(kind), NameOf(kind, item.attrs), NormalizeHealth(h), state, item)
  }

  /** The output every list normaliser promises for its input. */
  ghost predicate UnifiedList(kind: ListKind, items: seq<Item>, out: seq<Component>) {
    |out| == |NonAbsent(items)| &&
    forall i :: 0 <= i < |out| ==> out[i] == Unify(kind, NonAbsent(items)[i])
  }

  /** The loop shared by the `normalize_*` methods: one record per kept item. */
  method UnifyEach(kind: ListKind, items: seq<Item>) returns (out: seq<Component>)
    ensures UnifiedList(kind, items, out)
  {
    var kept := IgnoreAbsent(items);
    out := [];
    var i := 0;
    while i < |kept|
      invariant 0 <= i <= |kept|
      invariant |out| == i
      invariant forall j :: 0 <= j < i ==> out[j] == Unify(kind, kept[j])
    {
      out := out + [Unify(kind, kept[i])];
      i := i + 1;
    }
  }

  /** A storage item with no health but state Enabled becomes an OK component. */
  lemma EnabledDriveIsOk(item: Item)
    requires StatusOf(item).0 in {Null, Str("Unknown")} && StatusOf(item).1 == Str("Enabled")
    ensures Unify(Storage, item).healthStatus == "OK"
  {
  }

  /** Every unified list holds only components of its kind with clamped health. */
  lemma UnifiedListShape(kind: ListKind, items: seq<Item>, out: seq<Component>, i: nat)
    requires UnifiedList(kind, items, out) && i < |out|
    ensures out[i].componentType == TypeOf(kind) && IsRedfishHealth(out[i].healthStatus)
    ensures out[i].state != Str("Absent") && out[i].raw in items
  {
    var x := NonAbsent(items)[i];
    NonAbsentExactly(items, x);
  }

  // ------------------------------------------------------- GenericAdaptor

  const GenericVendorNames: seq<string> := ["GENERIC"]

  /** `normalize_system`: no Absent filter; fixed type and name. */
  function NormalizeSystem(system: Item): (c: Component)
    ensures c.componentType == "system" && c.componentName == "System"
    ensures c.healthStatus == NormalizeHealth(StatusOf(system).0) && IsRedfishHealth(c.healthStatus)
    ensures c.state == StatusOf(system).1 && c.raw == system
  {
    var (health, state) := StatusOf(system);
    Component("system", "System", NormalizeHealth(health), state, system)
  }

  /** A system marked Absent is still normalised. */
  lemma SystemNeverFiltered(system: Item)
    requires StatusOf(system).1 == Str("Absent")
    ensures NormalizeSystem(system).state == Str("Absent")
  {
  }

  method NormalizeProcessors(processors: seq<Item>) returns (out: seq<Component>)
    ensures UnifiedList(Processors, processors, out)
  {
    out := UnifyEach(Processors, processors);
  }

  method NormalizeMemory(memory: seq<Item>) returns (out: seq<Component>)
    ensures UnifiedList(Memory, memory, out)
  {
    out := UnifyEach(Memory, memory);
  }

  method NormalizeStorage(storage: seq<Item>) returns (out: seq<Component>)
    ensures UnifiedList(Storage, storage, out)
  {
    out := UnifyEach(Storage, storage);
  }

  method NormalizePower(power: seq<Item>) returns (out: seq<Component>)
    ensures UnifiedList(Power, power, out)
  {
    out := UnifyEach(Power, power);
  }

  method NormalizeThermal(temperatures: seq<Item>, fans: seq<Item>)
    returns (tempsOut: seq<Component>, fansOut: seq<Component>)
    ensures UnifiedList(Temperatures, temperatures, tempsOut)
    ensures UnifiedList(Fans, fans, fansOut)
  {
    tempsOut := UnifyEach(Temperatures, temperatures);
    fansOut := UnifyEach(Fans, fans);
  }

  /** `postprocess` hands the status back untouched. */
  function Postprocess<T>(status: T): (r: T)
    ensures r == status
  {
    status
  }
}
