/**
 * A reservable item of a venue (seat, table, booth, ...): its constructor
 * defaults, the status it carries through the reservation life cycle, its
 * position and its plain-object form.
 */
module VenueItems {
  import opened Common

  const AVAILABLE := "available"
  const RESERVED := "reserved"
  const OCCUPIED := "occupied"
  const DISABLED := "disabled"
  const MAINTENANCE := "maintenance"

  /** The statuses `updateStatus` accepts; the constructor accepts any string. */
  const ItemStatuses: seq<string> := [AVAILABLE, RESERVED, OCCUPIED, DISABLED, MAINTENANCE]

  datatype Point = Point(x: int, y: int)

  /**
   * An item's `metadata`: `width` and `height`, where 0 stands for an absent or
   * falsy value, and the remaining keys, which the item only passes through.
   */
  datatype ItemMetadata = ItemMetadata(width: int, height: int, extra: map<string, string>)

  const NoMetadata := ItemMetadata(0, 0, map[])

  /** The options object of the constructor; `None` is a property left `undefined`. */
  datatype ItemOptions = ItemOptions(
    id: string, labelText: string,
    x: Option<int>, y: Option<int>, rotation: Option<int>,
    status: Option<string>, itemType: Option<string>, shape: Option<string>,
    points: Option<seq<Point>>, capacity: Option<int>, metadata: Option<ItemMetadata>)

  /** The plain object `toJSON` returns. */
  datatype ItemJson = ItemJson(
    id: string, labelText: string, x: int, y: int, rotation: int,
    status: string, itemType: string, shape: string, points: seq<Point>,
    width: int, height: int, capacity: int, metadata: ItemMetadata)

  /**
   * Width and height of an item: from its metadata when either is given,
   * otherwise from its type.
   */
  function Dimensions(itemType: string, m: ItemMetadata): (dims: (int, int))
    ensures dims.0 != 0 && dims.1 != 0
    ensures m.width != 0 ==> dims.0 == m.width
    ensures m.height != 0 ==> dims.1 == m.height
    ensures m.width == 0 && m.height != 0 ==> dims.0 == 30
    ensures m.width != 0 && m.height == 0 ==> dims.1 == 30
    ensures m.width == 0 && m.height == 0 ==>
      dims == (if itemType == "table" then (60, 60) else if itemType == "booth" then (80, 40) else (30, 30))
  {
    if m.width == 0 && m.height == 0 then
      if itemType == "table" then (60, 60)
      else if itemType == "booth" then (80, 40)
      else (30, 30)
    else
      (if m.width != 0 then m.width else 30, if m.height != 0 then m.height else 30)
  }

  /** Once either dimension is given in the metadata, the item's type no longer matters. */
  lemma DimensionsIgnoreTypeWhenGiven(t1: string, t2: string, m: ItemMetadata)
    requires m.width != 0 || m.height != 0
    ensures Dimensions(t1, m) == Dimensions(t2, m)
  {
  }

  /** The fields a freshly constructed item has: the constructor's defaults applied to `o`. */
  function FromOptions(o: ItemOptions): (j: ItemJson)
    ensures o.status.None? ==> j.status == AVAILABLE
    ensures o.itemType.None? ==> j.itemType == "seat"
    ensures o.shape.None? ==> j.shape == "rect"
    ensures o.capacity.None? ==> j.capacity == 1
    ensures o.rotation.None? ==> j.rotation == 0
    ensures o.status.Some? ==> j.status == o.status.value
    ensures (j.width, j.height) == Dimensions(j.itemType, j.metadata)
  {
    var itemType := OrElse(o.itemType, "seat");
    var metadata := OrElse(o.metadata, NoMetadata);
    var dims := Dimensions(itemType, metadata);
    ItemJson(o.id, o.labelText, OrElse(o.x, 0), OrElse(o.y, 0), OrElse(o.rotation, 0),
             OrElse(o.status, AVAILABLE), itemType, OrElse(o.shape, "rect"), OrElse(o.points, []),
             dims.0, dims.1, OrElse(o.capacity, 1), metadata)
  }

  /** A plain object read back as constructor options: every property is present. */
  function AsOptions(j: ItemJson): ItemOptions {
    ItemOptions(j.id, j.labelText, Some(j.x), Some(j.y), Some(j.rotation), Some(j.status),
                Some(j.itemType), Some(j.shape), Some(j.points), Some(j.capacity), Some(j.metadata))
  }

  /**
   * Constructing an item from its own plain object gives back the same fields:
   * the width and height the constructor recomputes are the ones it had.
   */
  lemma OptionsRoundTrip(j: ItemJson)
    requires (j.width, j.height) == Dimensions(j.itemType, j.metadata)
    ensures FromOptions(AsOptions(j)) == j
  {
  }

  class VenueItem {
    const id: string
    const labelText: string
    var x: int
    var y: int
    var rotation: int
    var status: string
    const itemType: string
    const shape: string
    const points: seq<Point>
    const capacity: int
    const metadata: ItemMetadata
    /** Computed once, from the metadata and the type, when the item is constructed. */
    const width: int := Dimensions(itemType, metadata).0
    const height: int := Dimensions(itemType, metadata).1

    /** The constructor applies the defaults and does not validate `status`. */
    constructor (o: ItemOptions)
      ensures ToJSON() == FromOptions(o)
    {
      var j := FromOptions(o);
      id, labelText, x, y, rotation := j.id, j.labelText, j.x, j.y, j.rotation;
      status, itemType, shape, points := j.status, j.itemType, j.shape, j.points;
      capacity, metadata := j.capacity, j.metadata;
    }

    /** Sets `status` when it is one of the five item statuses; otherwise throws and leaves it. */
    method UpdateStatus(newStatus: string) returns (r: Result<VenueItem, string>)
      modifies this`status
      ensures newStatus in ItemStatuses ==> r == Ok(this) && status == newStatus
      ensures newStatus !in ItemStatuses ==>
        r == Err("Invalid item status: " + newStatus) && status == old(status)
    {
      if newStatus !in ItemStatuses {
        return Err("Invalid item status: " + newStatus);
      }
      status := newStatus;
      r := Ok(this);
    }

    predicate IsAvailable()
      reads this
    {
      status == AVAILABLE
    }

    /** Moves the item; the rotation changes only when one is given. */
    method UpdatePosition(newX: int, newY: int, newRotation: Option<int>)
      modifies this`x, this`y, this`rotation
      ensures x == newX && y == newY
      ensures rotation == if newRotation.Some? then newRotation.value else old(rotation)
    {
      x, y := newX, newY;
      if newRotation.Some? {
        rotation := newRotation.value;
      }
    }

    function ToJSON(): (j: ItemJson)
      reads this
      ensures j.id == id && j.status == status
      ensures (j.width, j.height) == Dimensions(j.itemType, j.metadata)
    {
      ItemJson(id, labelText, x, y, rotation, status, itemType, shape, points,
               width, height, capacity, metadata)
    }
  }
}
