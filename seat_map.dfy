/**
 * The seat map of the older API: a list of seats the map appends to and
 * filters, looked up by id, by position and by status, and its plain-object
 * form.
 */
module SeatMaps {
  import opened Common
  import opened Seats

  /** The map's `metadata`: the background it may name, and other keys it only passes through. */
  datatype MapMetadata = MapMetadata(background: Option<string>, extra: map<string, string>)

  const NoMapMetadata := MapMetadata(None, map[])

  /** The plain object `toJSON` returns. */
  datatype SeatMapJson = SeatMapJson(seats: seq<SeatJson>, width: int, height: int, metadata: MapMetadata)

  /** `findIndex` by id: the position of the first seat with `id`, or -1. */
  function IndexOfSeat(seats: seq<Seat>, id: string): (k: int)
    ensures -1 <= k < |seats|
    ensures k == -1 <==> forall i :: 0 <= i < |seats| ==> seats[i].id != id
    ensures 0 <= k ==> seats[k].id == id && forall i :: 0 <= i < k ==> seats[i].id != id
  {
    if seats == [] then -1
    else if seats[0].id == id then 0
    else
      var k := IndexOfSeat(seats[1..], id);
      if k == -1 then -1 else k + 1
  }

  /** `find` by id: the first seat with `id`, or `null`. */
  function FirstSeatWithId(seats: seq<Seat>, id: string): (r: Seat?)
    ensures r == null <==> forall i :: 0 <= i < |seats| ==> seats[i].id != id
    ensures r != null ==> r.id == id && r == seats[IndexOfSeat(seats, id)]
  {
    var k := IndexOfSeat(seats, id);
    if k < 0 then null else seats[k]
  }

  /**
   * An appended seat is found by its id only when no earlier seat has that id:
   * the lookup always returns the first match.
   */
  lemma {:induction false} IndexOfSeatAppend(seats: seq<Seat>, s: Seat, id: string)
    ensures IndexOfSeat(seats + [s], id) ==
      if IndexOfSeat(seats, id) >= 0 then IndexOfSeat(seats, id)
      else if s.id == id then |seats| else -1
  {
    if seats != [] {
      assert (seats + [s])[1..] == seats[1..] + [s];
      IndexOfSeatAppend(seats[1..], s, id);
    }
  }

  /** The lookup tries the first seat, then the rest. */
  lemma FirstSeatWithIdCons(seats: seq<Seat>, id: string)
    requires seats != []
    ensures FirstSeatWithId(seats, id) == if seats[0].id == id then seats[0] else FirstSeatWithId(seats[1..], id)
  {
  }

  /** Removing the seats with one id does not change which seat any other id finds. */
  lemma {:induction false} RemoveKeepsOtherLookups(seats: seq<Seat>, removed: string, id: string)
    requires id != removed
    ensures FirstSeatWithId(Filter(seats, (s: Seat) => s.id != removed), id) == FirstSeatWithId(seats, id)
  {
    var keep := (s: Seat) => s.id != removed;
    if seats != [] {
      var kept := Filter(seats, keep);
      var rest := Filter(seats[1..], keep);
      assert kept == if keep(seats[0]) then [seats[0]] + rest else rest;
      RemoveKeepsOtherLookups(seats[1..], removed, id);
      FirstSeatWithIdCons(seats, id);
      if keep(seats[0]) {
        assert kept[0] == seats[0] && kept[1..] == rest;
        FirstSeatWithIdCons(kept, id);
      }
    }
  }

  /**
   * `x >= seat.x - seat.width / 2 && x <= seat.x + seat.width / 2` and the
   * same on `y`, boundaries included; both sides are doubled to keep the
   * halves exact.
   */
  predicate Covers(s: Seat, px: int, py: int)
    reads s
  {
    2 * px >= 2 * s.x - s.width && 2 * px <= 2 * s.x + s.width &&
    2 * py >= 2 * s.y - s.height && 2 * py <= 2 * s.y + s.height
  }

  /** The position of the first seat whose box contains the point, or -1. */
  function IndexOfCovering(seats: seq<Seat>, px: int, py: int): (k: int)
    reads seats
    ensures -1 <= k < |seats|
    ensures k == -1 <==> forall i :: 0 <= i < |seats| ==> !Covers(seats[i], px, py)
    ensures 0 <= k ==> Covers(seats[k], px, py) && forall i :: 0 <= i < k ==> !Covers(seats[i], px, py)
  {
    if seats == [] then -1
    else if Covers(seats[0], px, py) then 0
    else
      var k := IndexOfCovering(seats[1..], px, py);
      if k == -1 then -1 else k + 1
  }

  /** `seats.filter(seat => seat.status === status)`. */
  function SeatsWithStatus(seats: seq<Seat>, status: string): (r: seq<Seat>)
    reads seats
    ensures Subsequence(r, seats)
    ensures forall s :: s in r ==> s in seats && s.status == status
    ensures forall s :: s in seats && s.status == status ==> s in r
  {
    if seats == [] then []
    else
      var rest := SeatsWithStatus(seats[1..], status);
      if seats[0].status == status then [seats[0]] + rest
      else
        assert rest == [] || rest[0] != seats[0];
        rest
  }

  /** The filter keeps every matching element as often as `seats` has it, and drops the others. */
  lemma {:induction false} SeatsWithStatusCounts(seats: seq<Seat>, status: string)
    ensures var r := SeatsWithStatus(seats, status);
      forall s :: s in seats ==> multiset(r)[s] == if s.status == status then multiset(seats)[s] else 0
  {
    if seats != [] {
      var rest := SeatsWithStatus(seats[1..], status);
      SeatsWithStatusCounts(seats[1..], status);
      assert seats == [seats[0]] + seats[1..];
      assert multiset(seats) == multiset([seats[0]]) + multiset(seats[1..]);
      assert multiset([seats[0]] + rest) == multiset([seats[0]]) + multiset(rest);
    }
  }

  /** `seats.map(seat => seat.toJSON())`. */
  function SeatsJson(seats: seq<Seat>): (js: seq<SeatJson>)
    reads seats
    ensures |js| == |seats|
    ensures forall i :: 0 <= i < |seats| ==> js[i] == seats[i].ToJSON()
  {
    if seats == [] then [] else [seats[0].ToJSON()] + SeatsJson(seats[1..])
  }

  class SeatMap {
    var seats: seq<Seat>
    const width: int
    const height: int
    const metadata: MapMetadata

    /** The given seats (the caller passes `[]` for the default), and 800 by 600 and empty metadata unless the options say otherwise. */
    constructor (seats: seq<Seat>, width: Option<int>, height: Option<int>, metadata: Option<MapMetadata>)
      ensures this.seats == seats
      ensures this.width == OrElse(width, 800) && this.height == OrElse(height, 600)
      ensures this.metadata == OrElse(metadata, NoMapMetadata)
    {
      this.seats := seats;
      this.width, this.height := OrElse(width, 800), OrElse(height, 600);
      this.metadata := OrElse(metadata, NoMapMetadata);
    }

    /** Appends a seat; anything that is not a seat (here: `null`) throws. */
    method AddSeat(seat: Seat?) returns (r: Result<SeatMap, string>)
      modifies this`seats
      ensures seat == null ==> r == Err("Invalid seat object") && seats == old(seats)
      ensures seat != null ==> r == Ok(this) && seats == old(seats) + [seat]
    {
      if seat == null {
        return Err("Invalid seat object");
      }
      seats := seats + [seat];
      r := Ok(this);
    }

    /** Removes every seat with `seatId` and keeps the others in order. */
    method RemoveSeat(seatId: string) returns (r: SeatMap)
      modifies this`seats
      ensures r == this && GetSeatById(seatId) == null
      ensures Subsequence(seats, old(seats))
      ensures forall s :: s in seats ==> s in old(seats) && s.id != seatId
      ensures forall s :: s in old(seats) && s.id != seatId ==> multiset(seats)[s] == multiset(old(seats))[s]
    {
      seats := Filter(seats, (s: Seat) => s.id != seatId);
      forall i | 0 <= i < |seats|
        ensures seats[i].id != seatId
      {
        assert seats[i] in seats;
      }
      r := this;
    }

    /** The first seat with `seatId`, or `null`. */
    function GetSeatById(seatId: string): (r: Seat?)
      reads this
      ensures r == null <==> forall i :: 0 <= i < |seats| ==> seats[i].id != seatId
      ensures r != null ==> r.id == seatId && r == seats[IndexOfSeat(seats, seatId)]
    {
      FirstSeatWithId(seats, seatId)
    }

    /** The first seat, in list order, whose box contains the point, or `null`. */
    function GetSeatAtPosition(px: int, py: int): (r: Seat?)
      reads this, seats
      ensures r == null <==> forall i :: 0 <= i < |seats| ==> !Covers(seats[i], px, py)
      ensures r != null ==>
        exists k :: 0 <= k < |seats| && seats[k] == r && Covers(r, px, py) &&
                    forall i :: 0 <= i < k ==> !Covers(seats[i], px, py)
    {
      var k := IndexOfCovering(seats, px, py);
      if k < 0 then null else seats[k]
    }

    /** The seats with `status`, in map order. */
    function GetSeatsByStatus(status: string): (r: seq<Seat>)
      reads this, seats
      ensures Subsequence(r, seats)
      ensures forall s :: s in r ==> s in seats && s.status == status
      ensures forall s :: s in seats && s.status == status ==> s in r
      ensures forall s :: s in seats ==> multiset(r)[s] == if s.status == status then multiset(seats)[s] else 0
    {
      SeatsWithStatusCounts(seats, status);
      SeatsWithStatus(seats, status)
    }

    /** Every seat's plain object, in order, with the map's size and metadata. */
    function ToJSON(): (j: SeatMapJson)
      reads this, seats
      ensures |j.seats| == |seats| && forall i :: 0 <= i < |seats| ==> j.seats[i] == seats[i].ToJSON()
      ensures j.width == width && j.height == height && j.metadata == metadata
    {
      SeatMapJson(SeatsJson(seats), width, height, metadata)
    }
  }
}
