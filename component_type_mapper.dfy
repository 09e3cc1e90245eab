/**
 * Canonicalisation of monitor component types to the lower-case hardware
 * dictionary codes used by the urgency rules.
 */
module ComponentTypeMapper {
  import opened Basics

  /** The fixed monitor-type to hardware-code table. */
  const BasicMap: map<string, string> := map[
    "processor" := "cpu",
    "cpu" := "cpu",
    "memory" := "memory",
    "storage" := "storage",
    "disk" := "storage",
    "power" := "power",
    "fan" := "fan",
    "temperature" := "temperature",
    "system" := "system",
    "network" := "network",
    "bmc" := "bmc",
    "firmware" := "firmware",
    "downtime" := "downtime",
    "oob_connectivity" := "oob_connectivity"
  ]

  /** `(component_type or "").strip().lower()`. */
  function Normalized(componentType: Val): string {
    Lower(Strip(TextOf(componentType)))
  }

  /** The table lookup applied to an already normalised type. */
  function Code(t: string): (r: string)
    ensures t == "" ==> r == "unknown"
    ensures t != "" && t in BasicMap ==> r == BasicMap[t]
    ensures t != "" && t !in BasicMap ==> r == t
  {
    if t == "" then "unknown"
    else if t == "storage" || t == "disk" then "storage"
    else if t in BasicMap then BasicMap[t] else t
  }

  /**
   * `to_hardware_code(component_type, raw)`; `raw` is accepted and ignored,
   * as in the source.
   */
  function ToHardwareCode(componentType: Val, raw: Dict): (r: string)
    ensures Normalized(componentType) == "" ==> r == "unknown"
    ensures Normalized(componentType) in {"storage", "disk"} ==> r == "storage"
    ensures Normalized(componentType) == "processor" ==> r == "cpu"
    ensures Normalized(componentType) != "" && Normalized(componentType) !in BasicMap
            ==> r == Normalized(componentType)
  {
    Code(Normalized(componentType))
  }

  /** The result depends only on the normalised type, never on `raw`. */
  lemma OnlyNormalizedTypeMatters(a: Val, b: Val, rawA: Dict, rawB: Dict)
    requires Normalized(a) == Normalized(b)
    ensures ToHardwareCode(a, rawA) == ToHardwareCode(b, rawB)
  {
  }

  /** Every value in the table is its own code. */
  lemma TableValuesAreFixed()
    ensures forall k :: k in BasicMap ==> BasicMap[k] in BasicMap && BasicMap[BasicMap[k]] == BasicMap[k]
  {
  }

  /** The codes the table produces are canonical strings. */
  predicate IsTableCode(code: string) {
    code in {"unknown", "cpu", "memory", "storage", "power", "fan", "temperature", "system",
             "network", "bmc", "firmware", "downtime", "oob_connectivity"}
  }

  lemma TableCodeIsCanonical(code: string)
    requires IsTableCode(code)
    ensures Strip(code) == code && Lower(code) == code
  {
    if code == "unknown" { Canonical("unknown"); }
    else if code == "cpu" { Canonical("cpu"); }
    else if code == "memory" { Canonical("memory"); }
    else if code == "storage" { Canonical("storage"); }
    else if code == "power" { Canonical("power"); }
    else if code == "fan" { Canonical("fan"); }
    else if code == "temperature" { Canonical("temperature"); }
    else if code == "system" { Canonical("system"); }
    else if code == "network" { Canonical("network"); }
    else if code == "bmc" { Canonical("bmc"); }
    else if code == "firmware" { Canonical("firmware"); }
    else if code == "downtime" { Canonical("downtime"); }
    else { Canonical("oob_connectivity"); }
  }

  lemma CodeOfTableCode(t: string)
    requires t == "" || t in BasicMap
    ensures IsTableCode(Code(t)) && Code(Code(t)) == Code(t)
  {
    TableValuesAreFixed();
  }

  /** A normalised type is trimmed and lower-case. */
  lemma NormalizedIsCanonical(v: Val)
    ensures Strip(Normalized(v)) == Normalized(v) && Lower(Normalized(v)) == Normalized(v)
  {
    var s := Strip(TextOf(v));
    StripIsTrimmed(TextOf(v));
    LowerKeepsTrimmed(s);
    StripOfTrimmed(Lower(s));
    LowerOfLower(s);
  }

  /** Canonicalising a code a second time changes nothing. */
  lemma {:induction false} ToHardwareCodeIdempotent(componentType: Val, raw: Dict, raw2: Dict)
    ensures ToHardwareCode(Str(ToHardwareCode(componentType, raw)), raw2) == ToHardwareCode(componentType, raw)
  {
    var t := Normalized(componentType);
    var r := Code(t);
    if t == "" || t in BasicMap {
      CodeOfTableCode(t);
      TableCodeIsCanonical(r);
      assert Normalized(Str(r)) == r;
    } else {
      NormalizedIsCanonical(componentType);
      assert r == t;
      assert Normalized(Str(r)) == r;
    }
  }

  /** The codes of the monitor's own component kinds. */
  function MonitorCode(t: string): string {
    if t == "processor" then "cpu" else t
  }

  lemma TableEntry(t: string)
    requires t in {"processor", "system", "memory", "storage", "power", "temperature", "fan", "downtime"}
    ensures t in BasicMap && BasicMap[t] == MonitorCode(t)
  {
  }

  predicate IsIdent(t: string) {
    forall i :: 0 <= i < |t| ==> 'a' <= t[i] <= 'z' || t[i] == '_'
  }

  lemma MonitorKindsAreIdents(t: string)
    requires t in {"processor", "system", "memory", "storage", "power", "temperature", "fan", "downtime"}
    ensures IsIdent(t)
  {
  }

  lemma NormalizedIdent(t: string)
    requires IsIdent(t)
    ensures Normalized(Str(t)) == t
  {
    Canonical(t);
  }

  /**
   * The kinds the monitor emits map to themselves, except "processor",
   * which becomes "cpu".
   */
  lemma MonitorKindCode(t: string, raw: Dict)
    requires t in {"processor", "system", "memory", "storage", "power", "temperature", "fan", "downtime"}
    ensures ToHardwareCode(Str(t), raw) == MonitorCode(t)
  {
    TableEntry(t);
    MonitorKindsAreIdents(t);
    NormalizedIdent(t);
  }
}
