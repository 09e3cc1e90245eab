/**
 * Adaptor registration and selection: the adaptor classes that imported
 * are instantiated in a fixed order, and a device's manufacturer string
 * picks the first adaptor with a vendor name occurring in it.
 */
module AdaptersRegistry {
  import opened Basics
  import AdaptersBase
  import AdaptersSupermicro

  datatype Kind = Hpe | Dell | Lenovo | Huawei | Fujitsu | Supermicro | Inspur | Cisco | Gigabyte | Generic

  /** An adaptor instance, known here by its class and its `vendor_names`. */
  datatype Adaptor = Adaptor(kind: Kind, vendorNames: seq<string>)

  /** The order of the candidate list in the registration loop. */
  const ImportOrder: seq<Kind> := [Hpe, Dell, Lenovo, Huawei, Fujitsu, Supermicro, Inspur, Cisco, Gigabyte]

  function Rank(k: Kind): nat {
    match k
      case Hpe => 0 case Dell => 1 case Lenovo => 2 case Huawei => 3 case Fujitsu => 4
      case Supermicro => 5 case Inspur => 6 case Cisco => 7 case Gigabyte => 8 case Generic => 9
  }

  const GenericAdaptor: Adaptor := Adaptor(Generic, AdaptersBase.GenericVendorNames)
  const SupermicroAdaptor: Adaptor := Adaptor(Supermicro, AdaptersSupermicro.VendorNames)

  /**
   * The outcome of the nine guarded imports, in `ImportOrder`: `None` for a
   * class whose import failed. Only the Supermicro class is part of this
   * model, so its vendor names are fixed; the others are parameters.
   */
  predicate WellFormedImports(imports: seq<Option<Adaptor>>) {
    |imports| == |ImportOrder| &&
    (forall i :: 0 <= i < |imports| && imports[i].Some? ==> imports[i].value.kind == ImportOrder[i]) &&
    (imports[5].Some? ==> imports[5].value == SupermicroAdaptor)
  }

  /** The instances of the imported classes, in candidate order. */
  function Loaded(imports: seq<Option<Adaptor>>): (r: seq<Adaptor>)
    ensures |r| <= |imports|
  {
    if imports == [] then []
    else (if imports[0].Some? then [imports[0].value] else []) + Loaded(imports[1..])
  }

  predicate IsSomeAdaptor(o: Option<Adaptor>) { o.Some? }

  /** `_ADAPTORS = []; for cls in [...]: if cls is not None: _ADAPTORS.append(cls())`. */
  method BuildAdaptors(imports: seq<Option<Adaptor>>) returns (adaptors: seq<Adaptor>)
    requires WellFormedImports(imports)
    ensures adaptors == Loaded(imports)
  {
    adaptors := [];
    var i := 0;
    while i < |imports|
      invariant 0 <= i <= |imports|
      invariant adaptors + Loaded(imports[i..]) == Loaded(imports)
    {
      assert imports[i..][1..] == imports[i + 1..];
      if imports[i].Some? {
        adaptors := adaptors + [imports[i].value];
      }
      i := i + 1;
    }
  }

  /** One instance per successfully imported class. */
  lemma {:induction false} LoadedCount(imports: seq<Option<Adaptor>>)
    ensures |Loaded(imports)| == CountIf(imports, IsSomeAdaptor)
    ensures forall a :: a in Loaded(imports) ==> Some(a) in imports
  {
    if imports != [] {
      LoadedCount(imports[1..]);
    }
  }

  /** Instances keep the fixed candidate order. */
  lemma {:induction false} LoadedInOrder(imports: seq<Option<Adaptor>>, offset: nat)
    requires offset + |imports| <= |ImportOrder|
    requires forall i :: 0 <= i < |imports| && imports[i].Some? ==> imports[i].value.kind == ImportOrder[offset + i]
    ensures forall a :: a in Loaded(imports) ==> offset <= Rank(a.kind) < offset + |imports|
    ensures forall i, j :: 0 <= i < j < |Loaded(imports)| ==> Rank(Loaded(imports)[i].kind) < Rank(Loaded(imports)[j].kind)
  {
    if imports != [] {
      LoadedInOrder(imports[1..], offset + 1);
      assert forall k :: 0 <= k < |ImportOrder| ==> Rank(ImportOrder[k]) == k;
    }
  }

  /** Some vendor name of the adaptor occurs in the (upper-cased) manufacturer. */
  predicate Matches(a: Adaptor, name: string) {
    exists v :: v in a.vendorNames && Contains(name, v)
  }

  function FirstMatch(adaptors: seq<Adaptor>, name: string): (r: Option<nat>)
    ensures r.Some? ==> r.value < |adaptors| && Matches(adaptors[r.value], name)
    ensures r.Some? ==> forall j :: 0 <= j < r.value ==> !Matches(adaptors[j], name)
    ensures r.None? ==> forall j :: 0 <= j < |adaptors| ==> !Matches(adaptors[j], name)
  {
    if adaptors == [] then None
    else if Matches(adaptors[0], name) then Some(0)
    else match FirstMatch(adaptors[1..], name)
      case None => None
      case Some(k) => Some(k + 1)
  }

  /**
   * `get_vendor_adaptor`: upper-case the manufacturer (None -> ""), return
   * the first registered adaptor that matches, else a fresh GenericAdaptor.
   */
  function GetVendorAdaptor(adaptors: seq<Adaptor>, manufacturer: Val): (a: Adaptor)
    ensures var name := Upper(TextOf(manufacturer));
      (a == GenericAdaptor && forall j :: 0 <= j < |adaptors| ==> !Matches(adaptors[j], name)) ||
      (exists k :: 0 <= k < |adaptors| && a == adaptors[k] && Matches(a, name) &&
                   forall j :: 0 <= j < k ==> !Matches(adaptors[j], name))
  {
    var name := Upper(TextOf(manufacturer));
    match FirstMatch(adaptors, name)
      case None => GenericAdaptor
      case Some(k) => adaptors[k]
  }

  /** The choice does not depend on the letter case of the manufacturer. */
  lemma SelectionIgnoresCase(adaptors: seq<Adaptor>, m: string)
    ensures GetVendorAdaptor(adaptors, Str(Lower(m))) == GetVendorAdaptor(adaptors, Str(m))
    ensures GetVendorAdaptor(adaptors, Str(Upper(m))) == GetVendorAdaptor(adaptors, Str(m))
  {
    UpperOfLower(m);
    UpperOfUpper(m);
  }

  /** A missing manufacturer behaves like the empty string. */
  lemma MissingManufacturer(adaptors: seq<Adaptor>)
    ensures GetVendorAdaptor(adaptors, Null) == GetVendorAdaptor(adaptors, Str(""))
  {
  }

  /** A manufacturer string naming Supermicro selects the registered Supermicro adaptor when no earlier adaptor matches. */
  lemma {:induction false} SupermicroChosen(adaptors: seq<Adaptor>, k: nat, m: Val)
    requires k < |adaptors| && adaptors[k] == SupermicroAdaptor
    requires Contains(Upper(TextOf(m)), "SUPERMICRO") || Contains(Upper(TextOf(m)), "SUPER SERVER")
    requires forall j :: 0 <= j < k ==> !Matches(adaptors[j], Upper(TextOf(m)))
    ensures GetVendorAdaptor(adaptors, m) == SupermicroAdaptor
  {
    var name := Upper(TextOf(m));
    assert "SUPERMICRO" in SupermicroAdaptor.vendorNames && "SUPER SERVER" in SupermicroAdaptor.vendorNames;
    assert Matches(adaptors[k], name);
    var r := FirstMatch(adaptors, name);
    assert r == Some(k);
  }
}
