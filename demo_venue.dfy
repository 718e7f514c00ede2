/**
 * The demo's simplified venue: items that carry a section, and a map that
 * items are only ever added to. Both are mutable objects; the reservation
 * system of the demo writes `item.status` directly.
 */
module DemoVenues {
  import opened Common

  const AVAILABLE := "available"
  const RESERVED := "reserved"
  const OCCUPIED := "occupied"

  /** `s || fallback` on a string: the empty string is falsy. */
  function OrString(s: string, fallback: string): (r: string)
    ensures r != "" || fallback == ""
    ensures s != "" ==> r == s
  {
    if s == "" then fallback else s
  }

  /** `n || fallback` on a number: zero is falsy. */
  function OrNumber(n: int, fallback: int): (r: int)
    ensures r != 0 || fallback == 0
    ensures n != 0 ==> r == n
  {
    if n == 0 then fallback else n
  }

  /** The options of the demo item's constructor; `""` and `0` stand for a falsy or absent property. */
  datatype ItemOptions = ItemOptions(
    id: string, labelText: string, itemType: string, x: int, y: int, width: int, height: int,
    shape: string, status: string, rotation: int, capacity: int, section: string,
    metadata: map<string, string>)

  class VenueItem {
    const id: string
    const labelText: string
    const itemType: string
    const x: int
    const y: int
    const width: int
    const height: int
    const shape: string
    var status: string
    const rotation: int
    const capacity: int
    const section: string
    const metadata: map<string, string>

    /** Every falsy option takes its default: a 30 by 30 available rectangular seat in section `main`. */
    constructor (o: ItemOptions)
      ensures id == o.id && labelText == o.labelText && x == o.x && y == o.y && rotation == o.rotation
      ensures itemType == OrString(o.itemType, "seat") && shape == OrString(o.shape, "rect")
      ensures width == OrNumber(o.width, 30) && height == OrNumber(o.height, 30)
      ensures status == OrString(o.status, AVAILABLE) && capacity == OrNumber(o.capacity, 1)
      ensures section == OrString(o.section, "main") && metadata == o.metadata
    {
      id, labelText, x, y, rotation := o.id, o.labelText, o.x, o.y, o.rotation;
      itemType, shape := OrString(o.itemType, "seat"), OrString(o.shape, "rect");
      width, height := OrNumber(o.width, 30), OrNumber(o.height, 30);
      status, capacity := OrString(o.status, AVAILABLE), OrNumber(o.capacity, 1);
      section, metadata := OrString(o.section, "main"), o.metadata;
    }
  }

  /** `findIndex` by id: the position of the first item with `id`, or -1. */
  function IndexOfItem(items: seq<VenueItem>, id: string): (k: int)
    ensures -1 <= k < |items|
    ensures k == -1 <==> forall i :: 0 <= i < |items| ==> items[i].id != id
    ensures 0 <= k ==> items[k].id == id && forall i :: 0 <= i < k ==> items[i].id != id
  {
    if items == [] then -1
    else if items[0].id == id then 0
    else
      var k := IndexOfItem(items[1..], id);
      if k == -1 then -1 else k + 1
  }

  /** `find` by id: the first item with `id`, or `undefined`. */
  function FirstWithId(items: seq<VenueItem>, id: string): (r: VenueItem?)
    ensures r == null <==> forall i :: 0 <= i < |items| ==> items[i].id != id
    ensures r != null ==> r.id == id && r == items[IndexOfItem(items, id)]
  {
    var k := IndexOfItem(items, id);
    if k < 0 then null else items[k]
  }

  /** A zone, as the plain object the demo stores without looking inside. */
  type Zone = map<string, string>

  /** The options of the demo map's constructor; `0` and `None` stand for a falsy or absent property. */
  datatype MapOptions = MapOptions(width: int, height: int, zones: Option<seq<Zone>>, background: Option<string>)

  const NoMapOptions := MapOptions(0, 0, None, None)

  class VenueMap {
    const width: int
    const height: int
    var items: seq<VenueItem>
    const zones: seq<Zone>
    const background: Option<string>

    /** An empty map, 800 by 600 unless the options say otherwise. */
    constructor (o: MapOptions)
      ensures items == []
      ensures width == OrNumber(o.width, 800) && height == OrNumber(o.height, 600)
      ensures zones == (if o.zones.Some? then o.zones.value else []) && background == o.background
    {
      width, height := OrNumber(o.width, 800), OrNumber(o.height, 600);
      items := [];
      zones := if o.zones.Some? then o.zones.value else [];
      background := o.background;
    }

    /** Appends `item`, without any check, and returns it. */
    method AddItem(item: VenueItem) returns (r: VenueItem)
      modifies this`items
      ensures items == old(items) + [item] && r == item
    {
      items := items + [item];
      r := item;
    }

    /** The first item with `id`, or `undefined`. */
    function GetItemById(id: string): (r: VenueItem?)
      reads this
      ensures r == null <==> forall i :: 0 <= i < |items| ==> items[i].id != id
      ensures r != null ==> r.id == id && r == items[IndexOfItem(items, id)]
      ensures r == FirstWithId(items, id)
    {
      FirstWithId(items, id)
    }

    /** The items of type `itemType`, in map order. */
    function GetItemsByType(itemType: string): (r: seq<VenueItem>)
      reads this
      ensures Subsequence(r, items)
      ensures forall o :: o in r ==> o in items && o.itemType == itemType
      ensures forall o :: o in items && o.itemType == itemType ==> o in r
      ensures forall o :: o in items ==> multiset(r)[o] == if o.itemType == itemType then multiset(items)[o] else 0
    {
      Filter(items, (o: VenueItem) => o.itemType == itemType)
    }

    /** The items in section `section`, in map order. */
    function GetItemsBySection(section: string): (r: seq<VenueItem>)
      reads this
      ensures Subsequence(r, items)
      ensures forall o :: o in r ==> o in items && o.section == section
      ensures forall o :: o in items && o.section == section ==> o in r
      ensures forall o :: o in items ==> multiset(r)[o] == if o.section == section then multiset(items)[o] else 0
    {
      Filter(items, (o: VenueItem) => o.section == section)
    }

    /** The items with `status`, in map order. */
    function GetItemsByStatus(status: string): (r: seq<VenueItem>)
      reads this, items
      ensures Subsequence(r, items)
      ensures forall o :: o in r ==> o in items && o.status == status
      ensures forall o :: o in items && o.status == status ==> o in r
      ensures forall o :: o in items ==> multiset(r)[o] == if o.status == status then multiset(items)[o] else 0
    {
      WithStatusCounts(items, status);
      WithStatus(items, status)
    }
  }

  /** `items.filter(item => item.status === status)`. */
  function WithStatus(items: seq<VenueItem>, status: string): (r: seq<VenueItem>)
    reads items
    ensures Subsequence(r, items)
    ensures forall o :: o in r ==> o in items && o.status == status
    ensures forall o :: o in items && o.status == status ==> o in r
  {
    if items == [] then []
    else
      var rest := WithStatus(items[1..], status);
      if items[0].status == status then [items[0]] + rest
      else
        assert rest == [] || rest[0] != items[0];
        rest
  }

  /** The filter keeps every matching element as often as `items` has it, and drops the others. */
  lemma {:induction false} WithStatusCounts(items: seq<VenueItem>, status: string)
    ensures var r := WithStatus(items, status);
      forall o :: o in items ==> multiset(r)[o] == if o.status == status then multiset(items)[o] else 0
  {
    if items != [] {
      var rest := WithStatus(items[1..], status);
      WithStatusCounts(items[1..], status);
      assert items == [items[0]] + items[1..];
      assert multiset(items) == multiset([items[0]]) + multiset(items[1..]);
      assert multiset([items[0]] + rest) == multiset([items[0]]) + multiset(rest);
    }
  }
}
