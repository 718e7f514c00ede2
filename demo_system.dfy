/**
 * The demo's `Reservation` and `ReservationSystem` classes. The system owns
 * the venue map, the reservation objects, the settings and the listeners, and
 * writes `reservation.status` and `item.status` in place. Each state-changing
 * method is proved to leave exactly the state the matching function of
 * `DemoRules` computes and to return what that function's outcome says.
 */
module DemoSystems {
  import opened Common
  import opened DemoVenues
  import opened DemoRules
  import R = Reservations
  import E = EngineStates

  class Reservation {
    const id: nat
    const itemIds: seq<string>
    const customer: R.Customer
    const startTime: R.Time
    const endTime: R.Time
    var status: string
    const metadata: map<string, string>
    const createdAt: R.Time
    var updatedAt: R.Time

    /** The constructor applies the defaults; `randomId` stands for the random id and `now` for `new Date()`. */
    constructor (o: RecordOptions, randomId: nat, now: R.Time)
      ensures Fields() == FromOptions(o, randomId, now)
    {
      var j := FromOptions(o, randomId, now);
      id, itemIds, customer, startTime, endTime := j.id, j.itemIds, j.customer, j.startTime, j.endTime;
      status, metadata, createdAt, updatedAt := j.status, j.metadata, j.createdAt, j.updatedAt;
    }

    function Fields(): Record
      reads this
    {
      Record(id, itemIds, customer, startTime, endTime, status, metadata, createdAt, updatedAt)
    }
  }

  /** The records of `rs`, in order. */
  function RecordsOf(rs: seq<Reservation>): (js: seq<Record>)
    reads rs
    ensures |js| == |rs|
  {
    if rs == [] then [] else RecordsOf(rs[..|rs| - 1]) + [rs[|rs| - 1].Fields()]
  }

  /** Position by position, the records are the objects' fields. */
  lemma {:induction false} RecordsOfAt(rs: seq<Reservation>)
    ensures forall k :: 0 <= k < |rs| ==> RecordsOf(rs)[k] == rs[k].Fields()
    decreases |rs|
  {
    if rs != [] {
      RecordsOfAt(rs[..|rs| - 1]);
    }
  }

  /** The record at position `k` is the fields of the object there. */
  lemma RecordsOfAtOne(rs: seq<Reservation>, k: nat)
    requires k < |rs|
    ensures RecordsOf(rs)[k] == rs[k].Fields()
  {
    RecordsOfAt(rs);
  }

  /** The statuses of `items`, in order. */
  function StatusesOf(items: seq<VenueItem>): (st: seq<string>)
    reads items
    ensures |st| == |items|
  {
    if items == [] then [] else StatusesOf(items[..|items| - 1]) + [items[|items| - 1].status]
  }

  /** Position by position, the statuses are the items' `status`. */
  lemma {:induction false} StatusesOfAt(items: seq<VenueItem>)
    ensures forall k :: 0 <= k < |items| ==> StatusesOf(items)[k] == items[k].status
    decreases |items|
  {
    if items != [] {
      StatusesOfAt(items[..|items| - 1]);
    }
  }

  /** `find` by id over the reservation objects: the position of the first one with `id`, or -1. */
  function IndexOfReservation(rs: seq<Reservation>, id: nat): (k: int)
    ensures -1 <= k < |rs|
    ensures k == -1 <==> forall i :: 0 <= i < |rs| ==> rs[i].id != id
    ensures 0 <= k ==> rs[k].id == id && forall i :: 0 <= i < k ==> rs[i].id != id
  {
    if rs == [] then -1
    else if rs[0].id == id then 0
    else
      var k := IndexOfReservation(rs[1..], id);
      if k == -1 then -1 else k + 1
  }

  /** Searching the objects by id finds the position that searching their records finds. */
  lemma IndexOfReservationIsIndexOfId(rs: seq<Reservation>, id: nat)
    ensures IndexOfReservation(rs, id) == IndexOfId(RecordsOf(rs), id)
  {
    RecordsOfAt(rs);
  }

  /** The reservation a method returns, or the error it throws, as the pure outcome says. */
  predicate Returns(result: Result<Reservation, DemoError>, outcome: Result<nat, DemoError>, rs: seq<Reservation>) {
    match outcome
    case Err(e) => result == Err(e)
    case Ok(k) => k < |rs| && result == Ok(rs[k])
  }

  class ReservationSystem {
    const venueMap: VenueMap
    var reservations: seq<Reservation>
    const settings: Settings
    var eventListeners: map<string, seq<Callback>>
    /** Every listener call made so far, in order. */
    var log: seq<E.Delivery>
    /** The next fresh reservation id, standing for the random ids of the demo. */
    var nextId: nat

    /** Reservation ids are unique and all below `nextId`. */
    ghost predicate Valid()
      reads this`reservations, this`nextId
    {
      (forall i, j :: 0 <= i < j < |reservations| ==> reservations[i].id != reservations[j].id) &&
      (forall i :: 0 <= i < |reservations| ==> reservations[i].id < nextId)
    }

    /** The system's state as values. */
    ghost function State(): DemoState
      reads this, reservations, venueMap, venueMap.items
    {
      DemoState(RecordsOf(reservations), StatusesOf(venueMap.items), eventListeners, log, nextId)
    }

    /**
     * No reservations, the settings spread over the defaults, an empty list of
     * listeners for each of the three events, and a new empty map unless one is given.
     */
    constructor (venueMap: VenueMap?, settings: SettingsOverride)
      ensures Valid()
      ensures venueMap != null ==> this.venueMap == venueMap
      ensures venueMap == null ==> fresh(this.venueMap) && this.venueMap.items == []
      ensures reservations == [] && this.settings == Merge(settings)
      ensures eventListeners == InitialListeners && log == [] && nextId == 0
    {
      if venueMap != null {
        this.venueMap := venueMap;
      } else {
        this.venueMap := new VenueMap(NoMapOptions);
      }
      reservations := [];
      this.settings := Merge(settings);
      eventListeners := InitialListeners;
      log := [];
      nextId := 0;
    }

    /** Registers `callback` for one of the three events; any other name is ignored. */
    method On(event: string, callback: Callback)
      modifies this`eventListeners
      ensures event in old(eventListeners) ==>
        eventListeners == old(eventListeners)[event := old(eventListeners)[event] + [callback]]
      ensures event !in old(eventListeners) ==> eventListeners == old(eventListeners)
    {
      if event in eventListeners {
        eventListeners := eventListeners[event := eventListeners[event] + [callback]];
      }
    }

    /**
     * The listener loop of `_emitEvent`: `cbs` are called in order until one
     * throws, whose identity is returned.
     */
    method CallListeners(cbs: seq<Callback>, event: string, reservationId: nat) returns (thrown: Option<nat>)
      modifies this`log
      ensures var n := FirstThrower(cbs);
        && (n < |cbs| ==> thrown == Some(cbs[n].id) && log == old(log) + Calls(cbs[..n + 1], event, reservationId))
        && (n == |cbs| ==> thrown == None && log == old(log) + Calls(cbs, event, reservationId))
    {
      for i := 0 to |cbs|
        invariant log == old(log) + Calls(cbs[..i], event, reservationId)
        invariant FirstThrower(cbs) == i + FirstThrower(cbs[i..])
      {
        assert cbs[i..][1..] == cbs[i + 1..];
        log := log + [E.Delivery(cbs[i].id, event, reservationId)];
        if cbs[i].throws {
          return Some(cbs[i].id);
        }
      }
      assert cbs[..|cbs|] == cbs;
      thrown := None;
    }

    /**
     * `_emitEvent(event, reservation)` for the reservation at position `k`:
     * the listeners of `event` are called in order until one throws, whose
     * identity is returned.
     */
    method EmitEvent(event: string, ghost k: nat, reservationId: nat) returns (thrown: Option<nat>)
      modifies this`log
      ensures var step := Emit(old(State()), event, k, reservationId);
        State() == step.state && step.outcome == if thrown.Some? then Err(ListenerThrew(thrown.value)) else Ok(k)
    {
      thrown := CallListeners(CallbacksOf(eventListeners, event), event, reservationId);
    }

    /**
     * The status loop over the item objects: the item `getItemById` finds for
     * each id, in order, takes `status`, until an id names no item; that id is
     * returned.
     */
    method UpdateItems(ids: seq<string>, status: string) returns (missing: Option<string>)
      modifies venueMap.items`status
      ensures var m := FirstMissing(venueMap.items, ids);
        && (forall j :: 0 <= j < |venueMap.items| ==>
              venueMap.items[j].status ==
                if venueMap.items[j] in Touched(venueMap.items, ids[..m]) then status else old(venueMap.items[j].status))
        && missing == if m < |ids| then Some(ids[m]) else None
    {
      ghost var items := venueMap.items;
      for k := 0 to |ids|
        invariant FirstMissing(items, ids) == k + FirstMissing(items, ids[k..])
        invariant forall j :: 0 <= j < |items| ==>
          items[j].status == if items[j] in Touched(items, ids[..k]) then status else old(items[j].status)
      {
        assert ids[..k + 1][..k] == ids[..k];
        assert ids[k..][1..] == ids[k + 1..];
        var item := venueMap.GetItemById(ids[k]);
        if item == null {
          return Some(ids[k]);
        }
        item.status := status;
      }
      assert ids[..|ids|] == ids;
      missing := None;
    }

    /** The status loop, as a change of the sequence of item statuses. */
    method UpdateStatuses(ids: seq<string>, status: string) returns (missing: Option<string>)
      modifies venueMap.items`status
      ensures var m := FirstMissing(venueMap.items, ids);
        && StatusesOf(venueMap.items) == SetStatuses(venueMap.items, old(StatusesOf(venueMap.items)), ids[..m], status)
        && missing == if m < |ids| then Some(ids[m]) else None
    {
      ghost var items := venueMap.items;
      ghost var st := StatusesOf(items);
      StatusesOfAt(items);
      missing := UpdateItems(ids, status);
      ghost var m := FirstMissing(items, ids);
      StatusesOfAt(items);
      forall j | 0 <= j < |items|
        ensures StatusesOf(items)[j] == SetStatuses(items, st, ids[..m], status)[j]
      {
        TouchedTargeted(items, ids[..m], j);
      }
      assert StatusesOf(items) == SetStatuses(items, st, ids[..m], status);
    }

    /** The status loop, as a change of the system's state. */
    method MarkItems(ids: seq<string>, status: string) returns (missing: Option<string>)
      modifies venueMap.items`status
      ensures var m := FirstMissing(venueMap.items, ids);
        && State() == old(State()).(itemStatus := SetStatuses(venueMap.items, old(State()).itemStatus, ids[..m], status))
        && missing == if m < |ids| then Some(ids[m]) else None
    {
      missing := UpdateStatuses(ids, status);
    }

    /**
     * The validation loop of `createReservation`: the first id whose item is
     * missing or neither `available` nor `reserved` is reported.
     */
    method CheckItems(ids: seq<string>) returns (err: Option<DemoError>)
      ensures err == ItemCheck(venueMap.items, StatusesOf(venueMap.items), ids)
    {
      ghost var st := StatusesOf(venueMap.items);
      StatusesOfAt(venueMap.items);
      for k := 0 to |ids|
        invariant FirstOffender(venueMap.items, st, ids) == k + FirstOffender(venueMap.items, st, ids[k..])
      {
        assert ids[k..][1..] == ids[k + 1..];
        var item := venueMap.GetItemById(ids[k]);
        if item == null {
          return Some(ItemNotFound(ids[k]));
        }
        if item.status != AVAILABLE && item.status != RESERVED {
          return Some(ItemNotAvailable(ids[k]));
        }
      }
      err := None;
    }

    /** The random id of a new reservation, here the next fresh one. */
    method NewId() returns (id: nat)
      requires Valid()
      modifies this`nextId
      ensures Valid()
      ensures id == old(nextId) && nextId == id + 1
      ensures State() == old(State()).(nextId := id + 1)
    {
      id := nextId;
      nextId := nextId + 1;
    }

    /** `reservations.push(r)`, for a reservation whose id is fresh. */
    method Push(r: Reservation)
      requires Valid() && r.id < nextId
      requires forall i :: 0 <= i < |reservations| ==> reservations[i].id < r.id
      modifies this`reservations
      ensures Valid()
      ensures reservations == old(reservations) + [r]
      ensures State() == old(State()).(reservations := old(State()).reservations + [r.Fields()])
    {
      ghost var rs := reservations;
      reservations := reservations + [r];
      assert reservations[..|reservations| - 1] == rs;
    }

    /** `new Reservation({itemIds, customer, startTime, endTime, metadata})`, with the next fresh id. */
    method NewReservation(itemIds: seq<string>, customer: R.Customer, startTime: R.Time, endTime: R.Time,
                          metadata: map<string, string>, now: R.Time)
      returns (r: Reservation)
      requires Valid()
      modifies this`nextId
      ensures Valid() && fresh(r) && r.id == old(nextId)
      ensures r.Fields() == FromOptions(CreateOptions(itemIds, customer, startTime, endTime, metadata), old(nextId), now)
      ensures State() == old(State()).(nextId := old(nextId) + 1)
    {
      var id := NewId();
      r := new Reservation(CreateOptions(itemIds, customer, startTime, endTime, metadata), id, now);
    }

    /**
     * The success path of `createReservation` up to the event, once the items
     * have passed the validation loop: a new reservation with the options the
     * demo passes, its items set to `reserved`, appended.
     */
    method Book(itemIds: seq<string>, customer: R.Customer, startTime: R.Time, endTime: R.Time,
                metadata: map<string, string>, now: R.Time)
      returns (r: Reservation)
      requires Valid()
      requires ItemCheck(venueMap.items, StatusesOf(venueMap.items), itemIds).None?
      modifies this`reservations, this`nextId, venueMap.items`status
      ensures Valid() && fresh(r) && r.id == old(nextId)
      ensures reservations == old(reservations) + [r]
      ensures State() == Hold(old(State()), venueMap.items, itemIds, customer, startTime, endTime, metadata, now)
    {
      CheckedItemsFound(venueMap.items, StatusesOf(venueMap.items), itemIds);
      r := NewReservation(itemIds, customer, startTime, endTime, metadata, now);
      var _ := MarkItems(itemIds, RESERVED);
      assert itemIds[..|itemIds|] == itemIds;
      Push(r);
    }

    /**
     * The end of `createReservation` once every check has passed: the
     * reservation is recorded and `reservationCreated` emitted; a listener
     * that throws makes the call throw with the reservation already recorded.
     */
    method Admit(itemIds: seq<string>, customer: R.Customer, startTime: R.Time, endTime: R.Time,
                 metadata: map<string, string>, now: R.Time)
      returns (result: Result<Reservation, DemoError>)
      requires Valid()
      requires ItemCheck(venueMap.items, StatusesOf(venueMap.items), itemIds).None?
      modifies this`reservations, this`log, this`nextId, venueMap.items`status
      ensures Valid()
      ensures var step := Emit(Hold(old(State()), venueMap.items, itemIds, customer, startTime, endTime, metadata, now),
                               E.RESERVATION_CREATED, old(|reservations|), old(nextId));
        State() == step.state && Returns(result, step.outcome, reservations)
    {
      ghost var n := |reservations|;
      var r := Book(itemIds, customer, startTime, endTime, metadata, now);
      var thrown := EmitEvent(E.RESERVATION_CREATED, n, r.id);
      if thrown.Some? {
        return Err(ListenerThrew(thrown.value));
      }
      result := Ok(r);
    }

    /**
     * `createReservation`: the item loop, the customer and the dates are
     * checked in that order, each throwing before anything changes; then the
     * reservation is recorded and `reservationCreated` emitted.
     */
    method CreateReservation(itemIds: seq<string>, customer: Option<R.Customer>, startTime: Option<R.Time>,
                             endTime: Option<R.Time>, metadata: map<string, string>, now: R.Time)
      returns (result: Result<Reservation, DemoError>)
      requires Valid()
      modifies this`reservations, this`log, this`nextId, venueMap.items`status
      ensures Valid()
      ensures var step := Create(old(State()), venueMap.items, itemIds, customer, startTime, endTime, metadata, now);
        State() == step.state && Returns(result, step.outcome, reservations)
    {
      var err := CheckItems(itemIds);
      if err.Some? {
        return Err(err.value);
      }
      if customer.None? || customer.value.name == "" || customer.value.email == "" {
        return Err(CustomerRequired);
      }
      if startTime.None? || endTime.None? || startTime.value >= endTime.value {
        return Err(InvalidDates);
      }
      result := Admit(itemIds, customer.value, startTime.value, endTime.value, metadata, now);
    }

    /** The first reservation with `reservationId`, or `undefined`. */
    function GetReservationById(reservationId: nat): (r: Reservation?)
      reads this
      ensures r == null <==> forall x :: x in reservations ==> x.id != reservationId
      ensures r != null ==> r.id == reservationId && r == reservations[IndexOfReservation(reservations, reservationId)]
    {
      var k := IndexOfReservation(reservations, reservationId);
      if k < 0 then null else reservations[k]
    }

    /** `reservation.status = status; reservation.updatedAt = new Date()` for the reservation at position `k`. */
    method SetStatusAt(r: Reservation, ghost k: nat, status: string, now: R.Time)
      requires Valid() && k < |reservations| && reservations[k] == r
      modifies r`status, r`updatedAt
      ensures State() == old(State()).(reservations := old(State()).reservations[k := old(State()).reservations[k].(status := status, updatedAt := now)])
    {
      ghost var js := RecordsOf(reservations);
      RecordsOfAt(reservations);
      r.status := status;
      r.updatedAt := now;
      RecordsOfAt(reservations);
      forall i | 0 <= i < |reservations| && i != k
        ensures RecordsOf(reservations)[i] == js[i]
      {
        assert reservations[i].id != r.id;
      }
      assert RecordsOf(reservations) == js[k := js[k].(status := status, updatedAt := now)];
    }

    /**
     * The common body of `confirmReservation` and `cancelReservation` for the
     * reservation at position `k`: its status, then its items' statuses, then
     * the event.
     */
    method ApplyTransition(r: Reservation, ghost k: nat, status: string, itemStatus: string, event: string, now: R.Time)
      returns (result: Result<Reservation, DemoError>)
      requires Valid() && k < |reservations| && reservations[k] == r
      modifies r`status, r`updatedAt, venueMap.items`status, this`log
      ensures var step := Transition(old(State()), venueMap.items, k, status, itemStatus, event, now);
        State() == step.state && Returns(result, step.outcome, reservations)
    {
      RecordsOfAtOne(reservations, k);
      SetStatusAt(r, k, status, now);
      var missing := MarkItems(r.itemIds, itemStatus);
      if missing.Some? {
        return Err(StatusOfUndefined(missing.value));
      }
      var thrown := EmitEvent(event, k, r.id);
      if thrown.Some? {
        return Err(ListenerThrew(thrown.value));
      }
      result := Ok(r);
    }

    /** `confirmReservation`: an unknown id throws; any other reservation is confirmed, whatever its status. */
    method ConfirmReservation(reservationId: nat, now: R.Time) returns (result: Result<Reservation, DemoError>)
      requires Valid()
      modifies reservations`status, reservations`updatedAt, venueMap.items`status, this`log
      ensures var step := Confirm(old(State()), venueMap.items, reservationId, now);
        State() == step.state && Returns(result, step.outcome, reservations)
    {
      IndexOfReservationIsIndexOfId(reservations, reservationId);
      var r := GetReservationById(reservationId);
      if r == null {
        return Err(ReservationNotFound(reservationId));
      }
      ghost var k := IndexOfReservation(reservations, reservationId);
      result := ApplyTransition(r, k, CONFIRMED, OCCUPIED, E.RESERVATION_CONFIRMED, now);
    }

    /** `cancelReservation`: an unknown id throws; any other reservation is cancelled again, whatever its status. */
    method CancelReservation(reservationId: nat, now: R.Time) returns (result: Result<Reservation, DemoError>)
      requires Valid()
      modifies reservations`status, reservations`updatedAt, venueMap.items`status, this`log
      ensures var step := Cancel(old(State()), venueMap.items, reservationId, now);
        State() == step.state && Returns(result, step.outcome, reservations)
    {
      IndexOfReservationIsIndexOfId(reservations, reservationId);
      var r := GetReservationById(reservationId);
      if r == null {
        return Err(ReservationNotFound(reservationId));
      }
      ghost var k := IndexOfReservation(reservations, reservationId);
      result := ApplyTransition(r, k, CANCELLED, AVAILABLE, E.RESERVATION_CANCELLED, now);
    }

    /** The demo's availability test ignores the time range: the first item with `itemId` exists and is `available`. */
    function IsItemAvailableForTimeRange(itemId: string, startTime: R.Time, endTime: R.Time): (r: bool)
      reads this, venueMap, venueMap.items
      ensures r <==> (exists k :: 0 <= k < |venueMap.items| && venueMap.items[k].id == itemId &&
                                   (forall j :: 0 <= j < k ==> venueMap.items[j].id != itemId) &&
                                   venueMap.items[k].status == AVAILABLE)
    {
      var item := venueMap.GetItemById(itemId);
      item != null && item.status == AVAILABLE
    }
  }
}
