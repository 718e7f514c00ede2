/**
 * The venue map: an ordered collection of items (the order is the drawing
 * order) and of zones, with lookups, hit-testing and the plain-object form.
 */
module VenueMaps {
  import opened Common
  import opened VenueItems

  datatype Zone = Zone(id: string, name: string, points: seq<Point>, color: string)

  /** A map's `metadata`: its `zones` key (`None` when absent) and the other keys, passed through. */
  datatype MapMetadata = MapMetadata(zones: Option<seq<Zone>>, extra: map<string, string>)

  /** The plain object `toJSON` returns; a width or height of 0 stands for a falsy value. */
  datatype MapJson = MapJson(
    items: seq<ItemJson>, width: int, height: int,
    backgroundImage: Option<string>, metadata: MapMetadata)

  /** `findIndex` by id: the position of the first item with `id`, or -1. */
  function IndexOfItem(items: seq<VenueItem>, id: string): (k: int)
    ensures -1 <= k < |items|
    ensures k == -1 <==> forall i :: 0 <= i < |items| ==> items[i].id != id
    ensures 0 <= k ==> items[k].id == id && forall i :: 0 <= i < k ==> items[i].id != id
  {
    if items == [] then -1
    else if items[0].id == id then 0
    else
      var k := IndexOfItem(items[1..], id);
      if k == -1 then -1 else k + 1
  }

  /** `find` by id: the first item with `id`, or `null`. */
  function FirstWithId(items: seq<VenueItem>, id: string): (r: VenueItem?)
    ensures r == null <==> forall i :: 0 <= i < |items| ==> items[i].id != id
    ensures r != null ==> r.id == id && r == items[IndexOfItem(items, id)]
  {
    var k := IndexOfItem(items, id);
    if k < 0 then null else items[k]
  }

  /** The plain objects of `items`, in order. */
  function ItemsJson(items: seq<VenueItem>): (js: seq<ItemJson>)
    reads items
    ensures |js| == |items|
    ensures forall i :: 0 <= i < |items| ==> js[i] == items[i].ToJSON()
  {
    if items == [] then [] else [items[0].ToJSON()] + ItemsJson(items[1..])
  }

  /** `items.filter(item => item.status === status)`. */
  function ItemsWithStatus(items: seq<VenueItem>, status: string): (r: seq<VenueItem>)
    reads items
    ensures Subsequence(r, items)
    ensures forall o :: o in r ==> o in items && o.status == status
    ensures forall o :: o in items && o.status == status ==> o in r
  {
    if items == [] then []
    else
      var rest := ItemsWithStatus(items[1..], status);
      if items[0].status == status then [items[0]] + rest
      else
        assert rest == [] || rest[0] != items[0];
        rest
  }

  /** The filter keeps every matching element as often as `items` has it, and drops the others. */
  lemma {:induction false} ItemsWithStatusCounts(items: seq<VenueItem>, status: string)
    ensures var r := ItemsWithStatus(items, status);
      forall o :: o in items ==> multiset(r)[o] == if o.status == status then multiset(items)[o] else 0
  {
    if items != [] {
      var rest := ItemsWithStatus(items[1..], status);
      ItemsWithStatusCounts(items[1..], status);
      assert items == [items[0]] + items[1..];
      assert multiset(items) == multiset([items[0]]) + multiset(items[1..]);
      assert multiset([items[0]] + rest) == multiset([items[0]]) + multiset(rest);
    }
  }

  /** Every item in the plain object carries the width and height its constructor would compute. */
  predicate DimensionsConsistent(items: seq<ItemJson>) {
    forall i :: 0 <= i < |items| ==> (items[i].width, items[i].height) == Dimensions(items[i].itemType, items[i].metadata)
  }

  /** The plain object of the map that `fromJSON(json)` builds. */
  function Rebuilt(json: MapJson): MapJson {
    MapJson(
      seq(|json.items|, i requires 0 <= i < |json.items| => FromOptions(AsOptions(json.items[i]))),
      if json.width != 0 then json.width else 800,
      if json.height != 0 then json.height else 600,
      json.backgroundImage,
      MapMetadata(Some(if json.metadata.zones.Some? then json.metadata.zones.value else []),
                  json.metadata.extra))
  }

  /**
   * `fromJSON(toJSON(m))` has the same items, in the same order and with the
   * same fields, and the same zones; a falsy width or height becomes 800 or 600.
   */
  lemma {:induction false} RoundTrip(json: MapJson)
    requires DimensionsConsistent(json.items) && json.metadata.zones.Some?
    ensures Rebuilt(json) == json.(width := if json.width != 0 then json.width else 800,
                                   height := if json.height != 0 then json.height else 600)
  {
    var r := Rebuilt(json);
    forall i | 0 <= i < |json.items| ensures r.items[i] == json.items[i] {
      OptionsRoundTrip(json.items[i]);
    }
  }

  class VenueMap {
    var items: seq<VenueItem>
    const width: int
    const height: int
    const backgroundImage: Option<string>
    const metadata: MapMetadata
    var zones: seq<Zone>

    /**
     * The options' defaults (no items, 800 by 600, no background) are the
     * caller's; the zones come from `metadata.zones` when that is present.
     */
    constructor (items: seq<VenueItem>, width: int, height: int,
                 backgroundImage: Option<string>, metadata: MapMetadata)
      ensures this.items == items && this.width == width && this.height == height
      ensures this.backgroundImage == backgroundImage && this.metadata == metadata
      ensures zones == if metadata.zones.Some? then metadata.zones.value else []
    {
      this.items := items;
      this.width, this.height := width, height;
      this.backgroundImage, this.metadata := backgroundImage, metadata;
      zones := if metadata.zones.Some? then metadata.zones.value else [];
    }

    /** Appends an item; anything that is not an item (here: `null`) throws. */
    method AddItem(item: VenueItem?) returns (r: Result<VenueMap, string>)
      modifies this`items
      ensures item == null ==> r == Err("Invalid venue item object") && items == old(items)
      ensures item != null ==> r == Ok(this) && items == old(items) + [item]
    {
      if item == null {
        return Err("Invalid venue item object");
      }
      items := items + [item];
      r := Ok(this);
    }

    /** Removes every item with `itemId` and keeps the others in order. */
    method RemoveItem(itemId: string)
      modifies this`items
      ensures Subsequence(items, old(items))
      ensures forall o :: o in items ==> o in old(items) && o.id != itemId
      ensures forall o :: o in old(items) && o.id != itemId ==> multiset(items)[o] == multiset(old(items))[o]
    {
      items := Filter(items, (o: VenueItem) => o.id != itemId);
    }

    /** The first item with `itemId`, or `null`. */
    function GetItemById(itemId: string): (r: VenueItem?)
      reads this
      ensures r == null <==> forall i :: 0 <= i < |items| ==> items[i].id != itemId
      ensures r != null ==> r.id == itemId && r == items[IndexOfItem(items, itemId)]
      ensures r == FirstWithId(items, itemId)
    {
      FirstWithId(items, itemId)
    }

    /**
     * Scans from the last item to the first and returns the first one whose
     * shape contains the point; `containsPoint` is the item's own geometry test.
     */
    method GetItemAtPosition(px: int, py: int, containsPoint: (ItemJson, int, int) -> bool)
      returns (r: VenueItem?)
      ensures r == null ==> forall i :: 0 <= i < |items| ==> !containsPoint(items[i].ToJSON(), px, py)
      ensures r != null ==>
        exists k :: 0 <= k < |items| && items[k] == r && containsPoint(items[k].ToJSON(), px, py) &&
                    forall j :: k < j < |items| ==> !containsPoint(items[j].ToJSON(), px, py)
    {
      var i := |items|;
      while i > 0
        invariant 0 <= i <= |items|
        invariant forall j :: i <= j < |items| ==> !containsPoint(items[j].ToJSON(), px, py)
      {
        i := i - 1;
        if containsPoint(items[i].ToJSON(), px, py) {
          return items[i];
        }
      }
      r := null;
    }

    /** The items with `status`, in map order. */
    function GetItemsByStatus(status: string): (r: seq<VenueItem>)
      reads this, items
      ensures Subsequence(r, items)
      ensures forall o :: o in r ==> o.status == status
      ensures forall o :: o in items && o.status == status ==> o in r
      ensures forall o :: o in items ==> multiset(r)[o] == if o.status == status then multiset(items)[o] else 0
    {
      ItemsWithStatusCounts(items, status);
      ItemsWithStatus(items, status)
    }

    /** The items of type `itemType`, in map order. */
    function GetItemsByType(itemType: string): (r: seq<VenueItem>)
      reads this
      ensures Subsequence(r, items)
      ensures forall o :: o in r ==> o.itemType == itemType
      ensures forall o :: o in items && o.itemType == itemType ==> o in r
      ensures forall o :: o in items ==> multiset(r)[o] == if o.itemType == itemType then multiset(items)[o] else 0
    {
      Filter(items, (o: VenueItem) => o.itemType == itemType)
    }

    method AddZone(zone: Zone)
      modifies this`zones
      ensures zones == old(zones) + [zone]
    {
      zones := zones + [zone];
    }

    /** Removes every zone with `zoneId` and keeps the others in order. */
    method RemoveZone(zoneId: string)
      modifies this`zones
      ensures Subsequence(zones, old(zones))
      ensures forall z :: z in zones ==> z.id != zoneId
      ensures forall z :: z in old(zones) && z.id != zoneId ==> multiset(zones)[z] == multiset(old(zones))[z]
    {
      zones := Filter(zones, (z: Zone) => z.id != zoneId);
    }

    /** The map as a plain object: its items' plain objects and its current zones. */
    function ToJSON(): (j: MapJson)
      reads this, items
      ensures DimensionsConsistent(j.items)
      ensures j.metadata.zones == Some(zones)
      ensures |j.items| == |items| && forall i :: 0 <= i < |items| ==> j.items[i] == items[i].ToJSON()
    {
      MapJson(ItemsJson(items), width, height, backgroundImage, MapMetadata(Some(zones), metadata.extra))
    }

    /** Builds a new map, with new items constructed from the plain objects in `json`. */
    static method FromJSON(json: MapJson) returns (m: VenueMap)
      ensures fresh(m)
      ensures forall o :: o in m.items ==> fresh(o)
      ensures m.ToJSON() == Rebuilt(json)
    {
      var built := BuildItems(json.items);
      var zones := if json.metadata.zones.Some? then json.metadata.zones.value else [];
      m := new VenueMap(built,
                        if json.width != 0 then json.width else 800,
                        if json.height != 0 then json.height else 600,
                        json.backgroundImage,
                        MapMetadata(Some(zones), json.metadata.extra));
    }

    /** `items.map(item => new VenueItem(item))`: one fresh item per plain object, in order. */
    static method BuildItems(items: seq<ItemJson>) returns (built: seq<VenueItem>)
      ensures forall o :: o in built ==> fresh(o)
      ensures |built| == |items|
      ensures forall i :: 0 <= i < |items| ==> built[i].ToJSON() == FromOptions(AsOptions(items[i]))
    {
      built := [];
      for k := 0 to |items|
        invariant |built| == k
        invariant forall o :: o in built ==> fresh(o)
        invariant forall i :: 0 <= i < k ==> built[i].ToJSON() == FromOptions(AsOptions(items[i]))
      {
        var item := new VenueItem(AsOptions(items[k]));
        built := built + [item];
      }
    }
  }
}
