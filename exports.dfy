/**
 * The loop shared by the alert and device exports: every item the loop can
 * turn into a dictionary is formatted, numbered with its position in the
 * input and kept; any other item is skipped, leaving a gap in the numbers.
 */
module Exports {
  import opened Basics
  import opened Records

  /**
   * The positions of the items that are kept, in order. `None` stands for
   * an item that is neither a dictionary, a Pydantic model nor an object
   * with attributes.
   */
  function Kept(items: seq<Option<Record>>): (r: seq<nat>)
    ensures forall k :: 0 <= k < |r| ==> r[k] < |items| && items[r[k]].Some?
    ensures forall i :: 0 <= i < |items| && items[i].Some? ==> i in r
    ensures forall a, b :: 0 <= a < b < |r| ==> r[a] < r[b]
  {
    if items == [] then []
    else
      var front := Kept(items[..|items| - 1]);
      if items[|items| - 1].Some? then front + [|items| - 1] else front
  }

  /** `item['serialNo'] = index`, with `enumerate(..., 1)` counting from one. */
  function Numbered(item: Record, position: nat): (r: Record)
    ensures r.Keys == item.Keys + {"serialNo"}
    ensures r["serialNo"] == Number(position + 1)
    ensures forall k :: k in item && k != "serialNo" ==> r[k] == item[k]
  {
    item["serialNo" := Number(position + 1)]
  }

  /**
   * The export loop: one row per convertible item, formatted and numbered
   * with that item's 1-based position, in input order.
   */
  method ProcessRows(items: seq<Option<Record>>, format: Record -> Record) returns (processed: seq<Record>)
    ensures |processed| == |Kept(items)|
    ensures forall k :: 0 <= k < |processed| ==>
      processed[k] == Numbered(format(items[Kept(items)[k]].value), Kept(items)[k])
  {
    processed := [];
    for i := 0 to |items|
      invariant |processed| == |Kept(items[..i])|
      invariant forall k :: 0 <= k < |processed| ==>
        processed[k] == Numbered(format(items[Kept(items[..i])[k]].value), Kept(items[..i])[k])
    {
      assert items[..i + 1][..i] == items[..i];
      if items[i].Some? {
        var row := Numbered(format(items[i].value), i);
        processed := processed + [row];
      }
    }
    assert items[..|items|] == items;
  }
}
