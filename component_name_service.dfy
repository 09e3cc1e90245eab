/**
 * Standard display names for component types, looked up in two Redis
 * hashes (special component names, type mappings) with an in-process
 * fallback table when Redis fails.
 */
module ComponentNameService {
  import opened Basics

  const DefaultName: string := "未知组件"

  /** `_special_components`, the in-process table used by the fallback. */
  const SpecialComponents: map<string, string> := map["MemorySummary" := "MemorySummary", "System" := "System"]

  /** The table `_load_default_mapping_to_redis` writes into the mapping hash. */
  const RedisDefaultMappings: map<string, string> := map[
    "cpu" := "CPU处理器", "memory" := "内存", "storage" := "存储设备", "network" := "网卡",
    "power" := "电源", "fan" := "风扇", "temperature" := "温度传感器", "system" := "系统信息",
    "bmc" := "BMC管理器", "firmware" := "固件版本", "downtime" := "宕机",
    "oob_connectivity" := "带外IP连通性", "unknown" := "未知硬件"]

  /** The table `_get_standard_name_fallback` consults. */
  const FallbackMappings: map<string, string> := map[
    "cpu" := "CPU处理器", "memory" := "内存", "storage" := "存储设备", "network" := "网卡",
    "power" := "电源", "fan" := "风扇", "temperature" := "温度传感器", "system" := "系统信息",
    "bmc" := "BMC管理器", "firmware" := "固件版本", "downtime" := "宕机",
    "oob_connectivity" := "带外IP连通性测试", "unknown" := "未知硬件"]

  /** The two Redis hashes `special_components` and `component_name_mappings`. */
  datatype Hashes = Hashes(special: map<string, string>, mapping: map<string, string>)

  /** `hget` followed by a truthiness test: a missing field or an empty string is a miss. */
  predicate Hit(h: map<string, string>, k: string) {
    k in h && h[k] != ""
  }

  /** `component_type.lower().strip()`. */
  function NormalizedType(t: string): string {
    Strip(Lower(t))
  }

  /** `_get_standard_name_fallback`. */
  function Fallback(componentType: Val, componentName: Val): (r: string)
    ensures !Truthy(componentType) ==> r == DefaultName
    ensures Truthy(componentType) && Truthy(componentName) && componentName.s in SpecialComponents
            ==> r == SpecialComponents[componentName.s]
    ensures Truthy(componentType) && !(Truthy(componentName) && componentName.s in SpecialComponents) ==>
            r == (if NormalizedType(componentType.s) in FallbackMappings
                  then FallbackMappings[NormalizedType(componentType.s)] else componentType.s)
  {
    if !Truthy(componentType) then DefaultName
    else if Truthy(componentName) && componentName.s in SpecialComponents then SpecialComponents[componentName.s]
    else
      var t := NormalizedType(componentType.s);
      if t in FallbackMappings then FallbackMappings[t] else componentType.s
  }

  /**
   * `get_standard_name`. `redis` is None when a Redis call raises, in which
   * case the fallback answers (the lookups have no side effects, so where
   * the error happens does not matter).
   */
  function GetStandardName(redis: Option<Hashes>, componentType: Val, componentName: Val): (r: string)
    ensures !Truthy(componentType) ==> r == DefaultName
    ensures redis.None? ==> r == Fallback(componentType, componentName)
    ensures redis.Some? && Truthy(componentType) && Truthy(componentName) && Hit(redis.value.special, componentName.s)
            ==> r == redis.value.special[componentName.s]
    ensures redis.Some? && Truthy(componentType) && !(Truthy(componentName) && Hit(redis.value.special, componentName.s)) ==>
            r == (if Hit(redis.value.mapping, NormalizedType(componentType.s))
                  then redis.value.mapping[NormalizedType(componentType.s)] else componentType.s)
  {
    if !Truthy(componentType) then DefaultName
    else match redis
      case None => Fallback(componentType, componentName)
      case Some(h) =>
        if Truthy(componentName) && Hit(h.special, componentName.s) then h.special[componentName.s]
        else
          var t := NormalizedType(componentType.s);
          if Hit(h.mapping, t) then h.mapping[t] else componentType.s
  }

  /** An empty type gives the default name whatever the component name. */
  lemma EmptyTypeIsDefault(redis: Option<Hashes>, name: Val)
    ensures GetStandardName(redis, Null, name) == DefaultName
    ensures GetStandardName(redis, Str(""), name) == DefaultName
  {
  }

  /** The special names take precedence over the type mapping, on both paths. */
  lemma SpecialNameWins(t: string, name: string)
    requires t != "" && name in SpecialComponents
    ensures GetStandardName(Some(Hashes(SpecialComponents, RedisDefaultMappings)), Str(t), Str(name)) == SpecialComponents[name]
    ensures GetStandardName(None, Str(t), Str(name)) == SpecialComponents[name]
  {
  }

  /**
   * With Redis holding the default table and the special names, the two
   * paths agree on every input except the type `oob_connectivity`, whose
   * two tables name it differently.
   */
  lemma {:induction false} PathsAgree(t: Val, name: Val)
    requires !(Truthy(t) && NormalizedType(t.s) == "oob_connectivity" &&
               !(Truthy(name) && name.s in SpecialComponents))
    ensures GetStandardName(Some(Hashes(SpecialComponents, RedisDefaultMappings)), t, name) == Fallback(t, name)
  {
    var h := Hashes(SpecialComponents, RedisDefaultMappings);
    if Truthy(t) && !(Truthy(name) && name.s in SpecialComponents) {
      var n := NormalizedType(t.s);
      assert n in RedisDefaultMappings <==> n in FallbackMappings;
      assert n in RedisDefaultMappings && n != "oob_connectivity" ==> RedisDefaultMappings[n] == FallbackMappings[n];
    }
  }

  lemma OobIsNormalized(t: string)
    requires t == "oob_connectivity"
    ensures NormalizedType(t) == t
  {
    Canonical(t);
  }

  lemma MappedTypeName(h: map<string, string>, t: string)
    requires t != "" && NormalizedType(t) == t && Hit(h, t)
    ensures GetStandardName(Some(Hashes(SpecialComponents, h)), Str(t), Null) == h[t]
  {
  }

  lemma FallbackMappedTypeName(t: string)
    requires t != "" && NormalizedType(t) == t && t in FallbackMappings
    ensures Fallback(Str(t), Null) == FallbackMappings[t]
  {
  }

  lemma OobEntries(t: string)
    requires t == "oob_connectivity"
    ensures Hit(RedisDefaultMappings, t) && RedisDefaultMappings[t] == "带外IP连通性"
    ensures t in FallbackMappings && FallbackMappings[t] == "带外IP连通性测试"
  {
  }

  /** The two tables name the out-of-band connectivity check differently. */
  lemma OobNamesDiffer(t: string)
    requires t == "oob_connectivity"
    ensures GetStandardName(Some(Hashes(SpecialComponents, RedisDefaultMappings)), Str(t), Null) == "带外IP连通性"
    ensures Fallback(Str(t), Null) == "带外IP连通性测试"
  {
    OobIsNormalized(t);
    OobEntries(t);
    MappedTypeName(RedisDefaultMappings, t);
    FallbackMappedTypeName(t);
  }

  /** An unmapped type comes back exactly as given, not normalised. */
  lemma UnmappedTypeReturnedVerbatim(h: Hashes, t: string)
    requires t != "" && !Hit(h.mapping, NormalizedType(t))
    ensures GetStandardName(Some(h), Str(t), Null) == t
  {
  }

  // ------------------------------------------------------------ singleton

  /** An instance of the service; `__init__` fills it once. */
  class Service {
    var specialComponents: map<string, string>
    var defaultName: string

    constructor ()
      ensures specialComponents == map[] && defaultName == ""
    {
      specialComponents := map[];
      defaultName := "";
    }
  }

  /** The class object with its `_instance` and `_initialized` attributes. */
  class ServiceClass {
    var instance: Service?
    var initialized: bool

    constructor ()
      ensures instance == null && !initialized
    {
      instance := null;
      initialized := false;
    }

    /** `__new__`: create the instance on the first call, hand back the same one afterwards. */
    method New() returns (s: Service)
      modifies this
      ensures old(instance) != null ==> s == old(instance)
      ensures old(instance) == null ==> fresh(s)
      ensures instance == s && initialized == old(initialized)
    {
      if instance == null {
        instance := new Service();
      }
      s := instance;
    }

    /** `__init__`: only the first initialisation sets the tables. */
    method Init(s: Service)
      modifies this, s
      ensures initialized
      ensures !old(initialized) ==> s.specialComponents == SpecialComponents && s.defaultName == DefaultName
      ensures old(initialized) ==> s.specialComponents == old(s.specialComponents) && s.defaultName == old(s.defaultName)
      ensures instance == old(instance)
    {
      if !initialized {
        s.specialComponents := SpecialComponents;
        s.defaultName := DefaultName;
        initialized := true;
      }
    }

    /** `ComponentNameService()`: `__new__` then `__init__`. */
    method Construct() returns (s: Service)
      modifies this, instance
      ensures old(instance) != null ==> s == old(instance)
      ensures instance == s && initialized
      ensures !old(initialized) ==> s.specialComponents == SpecialComponents && s.defaultName == DefaultName
    {
      s := New();
      Init(s);
    }
  }
}
