/**
 * A seat of the older seat-map API: its constructor defaults, the status it
 * carries (available, reserved, sold or disabled), its position and its
 * plain-object form.
 */
module Seats {
  import opened Common

  const AVAILABLE := "available"
  const RESERVED := "reserved"
  const SOLD := "sold"
  const DISABLED := "disabled"

  /** The statuses `updateStatus` accepts; the constructor accepts any string. */
  const SeatStatuses: seq<string> := [AVAILABLE, RESERVED, SOLD, DISABLED]

  /**
   * A seat's `metadata`: `width`, `height` and `shape`, where 0 and `""` stand
   * for an absent or falsy value, and the remaining keys, only passed through.
   */
  datatype SeatMetadata = SeatMetadata(width: int, height: int, shape: string, extra: map<string, string>)

  const NoMetadata := SeatMetadata(0, 0, "", map[])

  /** The options object of the constructor; `None` is a property left `undefined`. */
  datatype SeatOptions = SeatOptions(
    id: string, labelText: string, x: Option<int>, y: Option<int>,
    status: Option<string>, seatType: Option<string>, metadata: Option<SeatMetadata>)

  /** The plain object `toJSON` returns. */
  datatype SeatJson = SeatJson(
    id: string, labelText: string, x: int, y: int, status: string, seatType: string,
    metadata: SeatMetadata, width: int, height: int, shape: string)

  /** The box a seat gets from its metadata: `width || 30`, `height || 30`, `shape || "rect"`. */
  function Box(m: SeatMetadata): (b: (int, int, string))
    ensures b.0 != 0 && b.1 != 0 && b.2 != ""
    ensures m.width != 0 ==> b.0 == m.width
    ensures m.height != 0 ==> b.1 == m.height
    ensures m.shape != "" ==> b.2 == m.shape
    ensures m.width == 0 ==> b.0 == 30
    ensures m.height == 0 ==> b.1 == 30
    ensures m.shape == "" ==> b.2 == "rect"
  {
    (if m.width != 0 then m.width else 30,
     if m.height != 0 then m.height else 30,
     if m.shape != "" then m.shape else "rect")
  }

  /** The fields of a freshly constructed seat: the constructor's defaults applied to `o`. */
  function FromOptions(o: SeatOptions): (j: SeatJson)
    ensures j.id == o.id && j.labelText == o.labelText
    ensures o.x.None? ==> j.x == 0
    ensures o.y.None? ==> j.y == 0
    ensures o.status.None? ==> j.status == AVAILABLE
    ensures o.status.Some? ==> j.status == o.status.value
    ensures o.seatType.None? ==> j.seatType == "standard"
    ensures o.metadata.None? ==> j.metadata == NoMetadata && j.width == 30 && j.height == 30 && j.shape == "rect"
    ensures (j.width, j.height, j.shape) == Box(j.metadata)
  {
    var metadata := OrElse(o.metadata, NoMetadata);
    var b := Box(metadata);
    SeatJson(o.id, o.labelText, OrElse(o.x, 0), OrElse(o.y, 0), OrElse(o.status, AVAILABLE),
             OrElse(o.seatType, "standard"), metadata, b.0, b.1, b.2)
  }

  /** A plain object read back as constructor options: every property is present. */
  function AsOptions(j: SeatJson): SeatOptions {
    SeatOptions(j.id, j.labelText, Some(j.x), Some(j.y), Some(j.status), Some(j.seatType), Some(j.metadata))
  }

  /**
   * Constructing a seat from its own plain object gives back the same fields:
   * the box the constructor recomputes from the metadata is the one it had.
   */
  lemma OptionsRoundTrip(j: SeatJson)
    requires (j.width, j.height, j.shape) == Box(j.metadata)
    ensures FromOptions(AsOptions(j)) == j
  {
  }

  class Seat {
    const id: string
    const labelText: string
    var x: int
    var y: int
    var status: string
    const seatType: string
    const metadata: SeatMetadata
    /** Computed once, from the metadata, when the seat is constructed. */
    const width: int := Box(metadata).0
    const height: int := Box(metadata).1
    const shape: string := Box(metadata).2

    /** The constructor applies the defaults and does not validate `status`. */
    constructor (o: SeatOptions)
      ensures ToJSON() == FromOptions(o)
    {
      var j := FromOptions(o);
      id, labelText, x, y := j.id, j.labelText, j.x, j.y;
      status, seatType, metadata := j.status, j.seatType, j.metadata;
    }

    /** Sets `status` when it is one of the four seat statuses; otherwise throws and leaves it. */
    method UpdateStatus(newStatus: string) returns (r: Result<Seat, string>)
      modifies this`status
      ensures newStatus in SeatStatuses ==> r == Ok(this) && status == newStatus
      ensures newStatus !in SeatStatuses ==>
        r == Err("Invalid seat status: " + newStatus) && status == old(status)
      ensures IsAvailable() <==> if newStatus in SeatStatuses then newStatus == AVAILABLE else old(IsAvailable())
    {
      if newStatus !in SeatStatuses {
        return Err("Invalid seat status: " + newStatus);
      }
      status := newStatus;
      r := Ok(this);
    }

    /** The seat can be reserved exactly when its status is `available`. */
    predicate IsAvailable()
      reads this
    {
      status == AVAILABLE
    }

    /** Moves the seat; nothing but its position changes. */
    method UpdatePosition(newX: int, newY: int) returns (r: Seat)
      modifies this`x, this`y
      ensures r == this && x == newX && y == newY
      ensures ToJSON() == old(ToJSON()).(x := newX, y := newY)
    {
      x, y := newX, newY;
      r := this;
    }

    function ToJSON(): (j: SeatJson)
      reads this
      ensures j.id == id && j.labelText == labelText && j.status == status && j.seatType == seatType
      ensures j.x == x && j.y == y && j.metadata == metadata
      ensures (j.width, j.height, j.shape) == Box(j.metadata)
    {
      SeatJson(id, labelText, x, y, status, seatType, metadata, width, height, shape)
    }
  }
}
