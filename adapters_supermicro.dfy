/**
 * The Supermicro adaptor: vendor names of its own, normalisers that
 * behave exactly like the generic adaptor's.
 */
module AdaptersSupermicro {
  import opened Basics
  import opened AdaptersBase

  const VendorNames: seq<string> := ["SUPERMICRO", "SUPER SERVER"]

  /** `normalize_system`, as the generic adaptor does it. */
  function NormalizeSystem(system: Item): (c: Component)
    ensures c == AdaptersBase.NormalizeSystem(system)
    ensures c.componentType == "system" && c.componentName == "System" && IsRedfishHealth(c.healthStatus)
  {
    var (health, state) := StatusOf(system);
    Component("system", "System", NormalizeHealth(health), state, system)
  }

  method NormalizeProcessors(processors: seq<Item>) returns (out: seq<Component>)
    ensures UnifiedList(Processors, processors, out)
  {
    out := UnifyEach(Processors, processors);
  }

  method NormalizeMemory(memory: seq<Item>) returns (out: seq<Component>)
    ensures UnifiedList(Memory, memory, out)
  {
    out := UnifyEach(Memory, memory);
  }

  method NormalizeStorage(storage: seq<Item>) returns (out: seq<Component>)
    ensures UnifiedList(Storage, storage, out)
  {
    out := UnifyEach(Storage, storage);
  }

  method NormalizePower(power: seq<Item>) returns (out: seq<Component>)
    ensures UnifiedList(Power, power, out)
  {
    out := UnifyEach(Power, power);
  }

  method NormalizeThermal(temperatures: seq<Item>, fans: seq<Item>)
    returns (tempsOut: seq<Component>, fansOut: seq<Component>)
    ensures UnifiedList(Temperatures, temperatures, tempsOut)
    ensures UnifiedList(Fans, fans, fansOut)
  {
    tempsOut := UnifyEach(Temperatures, temperatures);
    fansOut := UnifyEach(Fans, fans);
  }

  /** `postprocess` is the identity here too. */
  function Postprocess<T>(status: T): (r: T)
    ensures r == AdaptersBase.Postprocess(status)
  {
    status
  }

  /**
   * The list contract fixes the output: any two outputs for the same input
   * coincide, so every Supermicro normaliser returns exactly what the
   * generic one returns.
   */
  lemma {:induction false} SameAsGeneric(kind: ListKind, items: seq<Item>, ours: seq<Component>, generic: seq<Component>)
    requires UnifiedList(kind, items, ours) && UnifiedList(kind, items, generic)
    ensures ours == generic
  {
    assert |ours| == |generic|;
    forall i | 0 <= i < |ours| ensures ours[i] == generic[i] {
    }
  }

  /** One record per non-Absent input, and nothing for an Absent one. */
  lemma {:induction false} OutputLength(kind: ListKind, item: Item, out: seq<Component>)
    requires UnifiedList(kind, [item], out)
    ensures |out| == (if StatusOf(item).1 == Str("Absent") then 0 else 1)
  {
    assert [item][1..] == [];
    assert NonAbsent([item]) == (if NotAbsent(item) then [item] else []) + NonAbsent([]);
  }
}
