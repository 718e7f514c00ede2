/**
 * The reservation engine as the class the program defines: it owns the venue
 * map, the list of reservation objects, the settings and the event listeners,
 * and changes them in place. Each state-changing method is proved to leave
 * exactly the state the matching function of `EngineStates` computes, and to
 * return what that function's outcome says; the lemmas over those functions
 * then apply to the class.
 */
module ReservationSystems {
  import opened Common
  import opened VenueItems
  import opened VenueMaps
  import opened Reservations
  import opened EngineStates

  /** The plain objects of `rs`, in order. */
  function JsonOf(rs: seq<Reservation>): (js: seq<ReservationJson>)
    reads rs
    ensures |js| == |rs|
  {
    if rs == [] then [] else JsonOf(rs[..|rs| - 1]) + [rs[|rs| - 1].ToJSON()]
  }

  /** Position by position, the plain objects are the objects' `toJSON()`. */
  lemma {:induction false} JsonOfAt(rs: seq<Reservation>)
    ensures forall k :: 0 <= k < |rs| ==> JsonOf(rs)[k] == rs[k].ToJSON()
    decreases |rs|
  {
    if rs != [] {
      JsonOfAt(rs[..|rs| - 1]);
    }
  }

  /** The statuses of `items`, in order. */
  function StatusesOf(items: seq<VenueItem>): (st: seq<string>)
    reads items
    ensures |st| == |items|
  {
    if items == [] then [] else StatusesOf(items[..|items| - 1]) + [items[|items| - 1].status]
  }

  /** The plain object at position `k` is the `toJSON()` of the object there. */
  lemma JsonOfAtOne(rs: seq<Reservation>, k: nat)
    requires k < |rs|
    ensures JsonOf(rs)[k] == rs[k].ToJSON()
  {
    JsonOfAt(rs);
  }

  /** Position by position, the statuses are the items' `status`. */
  lemma {:induction false} StatusesOfAt(items: seq<VenueItem>)
    ensures forall k :: 0 <= k < |items| ==> StatusesOf(items)[k] == items[k].status
    decreases |items|
  {
    if items != [] {
      StatusesOfAt(items[..|items| - 1]);
    }
  }

  /** The four filters the engine runs over its reservations; each one skips cancelled reservations. */
  datatype Query =
    | InTimeRange(s: Time, e: Time)
    | ForItem(itemId: string)
    | ItemInTimeRange(itemId: string, s: Time, e: Time)
    | Conflicting(itemIds: seq<string>, s: Time, e: Time)

  predicate Matches(x: Reservation, q: Query)
    reads x
  {
    x.status != CANCELLED &&
    match q
    case InTimeRange(s, e) => OverlapTest(x.startTime, x.endTime, s, e)
    case ForItem(itemId) => itemId in x.itemIds
    case ItemInTimeRange(itemId, s, e) => itemId in x.itemIds && OverlapTest(x.startTime, x.endTime, s, e)
    case Conflicting(itemIds, s, e) => SharesItem(x.itemIds, itemIds) && OverlapTest(x.startTime, x.endTime, s, e)
  }

  /** `reservations.filter(...)` for one of the queries. */
  function Select(rs: seq<Reservation>, q: Query): (r: seq<Reservation>)
    reads rs
    ensures Subsequence(r, rs)
    ensures forall x :: x in r ==> x in rs && Matches(x, q)
    ensures forall x :: x in rs && Matches(x, q) ==> x in r
  {
    if rs == [] then []
    else
      var rest := Select(rs[1..], q);
      if Matches(rs[0], q) then [rs[0]] + rest
      else
        assert rest == [] || rest[0] != rs[0];
        rest
  }

  /** A filter that no reservation passes selects nothing. */
  lemma {:induction false} NothingSelected(rs: seq<Reservation>, q: Query)
    requires forall x :: x in rs ==> !Matches(x, q)
    ensures Select(rs, q) == []
  {
    if rs != [] {
      NothingSelected(rs[1..], q);
    }
  }

  /** The conflict filter over the objects is empty exactly when no plain object conflicts. */
  lemma ConflictingIsOverlapExists(rs: seq<Reservation>, itemIds: seq<string>, s: Time, e: Time)
    ensures Select(rs, Conflicting(itemIds, s, e)) == [] <==> !OverlapExists(JsonOf(rs), itemIds, s, e)
  {
    var js := JsonOf(rs);
    var q := Conflicting(itemIds, s, e);
    JsonOfAt(rs);
    if OverlapExists(js, itemIds, s, e) {
      var k :| 0 <= k < |js| && Conflicts(js[k], itemIds, s, e);
      assert rs[k] in rs && Matches(rs[k], q);
    } else {
      forall x | x in rs ensures !Matches(x, q) {
        var k :| 0 <= k < |rs| && rs[k] == x;
        assert !Conflicts(js[k], itemIds, s, e);
      }
      NothingSelected(rs, q);
    }
  }

  /** `find` by id over the reservation objects: the position of the first one with `id`, or -1. */
  function IndexOfReservation(rs: seq<Reservation>, id: nat): (k: int)
    ensures -1 <= k < |rs|
    ensures k == -1 <==> forall i :: 0 <= i < |rs| ==> rs[i].id != id
    ensures 0 <= k ==> rs[k].id == id && forall i :: 0 <= i < k ==> rs[i].id != id
  {
    if rs == [] then -1
    else if rs[0].id == id then 0
    else
      var k := IndexOfReservation(rs[1..], id);
      if k == -1 then -1 else k + 1
  }

  /** Searching the objects by id finds the position that searching their plain objects finds. */
  lemma IndexOfReservationIsIndexOfId(rs: seq<Reservation>, id: nat)
    ensures IndexOfReservation(rs, id) == IndexOfId(JsonOf(rs), id)
  {
    JsonOfAt(rs);
  }

  /** An id larger than every id in `rs`: where the engine's fresh ids start. */
  function NextFreeId(rs: seq<Reservation>): (n: nat)
    ensures forall x :: x in rs ==> x.id < n
  {
    if rs == [] then 0
    else
      var m := NextFreeId(rs[1..]);
      if rs[0].id < m then m else rs[0].id + 1
  }

  /** `itemIds.filter(id => !item || !item.isAvailable())` over the map's item objects. */
  function UnavailableIn(m: VenueMap, ids: seq<string>): (r: seq<string>)
    reads m, m.items
  {
    if ids == [] then []
    else
      var rest := UnavailableIn(m, ids[1..]);
      var item := m.GetItemById(ids[0]);
      if item == null || !item.IsAvailable() then [ids[0]] + rest else rest
  }

  /** The filter over the item objects picks the ids that the pure check picks from their statuses. */
  lemma {:induction false} UnavailableInIsUnavailable(m: VenueMap, ids: seq<string>)
    ensures UnavailableIn(m, ids) == Unavailable(m.items, StatusesOf(m.items), ids)
  {
    if ids != [] {
      UnavailableInIsUnavailable(m, ids[1..]);
      StatusesOfAt(m.items);
    }
  }

  /** The reservations an engine method returns, or the error it throws, as the pure outcome says. */
  predicate Returns(result: Result<Reservation, EngineError>, outcome: Result<nat, EngineError>, rs: seq<Reservation>) {
    match outcome
    case Err(e) => result == Err(e)
    case Ok(k) => k < |rs| && result == Ok(rs[k])
  }

  class ReservationSystem {
    const venueMap: VenueMap
    var reservations: seq<Reservation>
    const settings: Settings
    var eventListeners: map<string, seq<Listener>>
    /** Every listener call made so far, in order. */
    var log: seq<Delivery>
    /** The next fresh reservation id. */
    var nextId: nat

    /** Reservation ids are unique and all below `nextId`. */
    ghost predicate Valid()
      reads this`reservations, this`nextId
    {
      (forall i, j :: 0 <= i < j < |reservations| ==> reservations[i].id != reservations[j].id) &&
      (forall i :: 0 <= i < |reservations| ==> reservations[i].id < nextId)
    }

    /** The engine's state as values. */
    ghost function State(): EngineState
      reads this, reservations, venueMap, venueMap.items
    {
      EngineState(JsonOf(reservations), StatusesOf(venueMap.items), eventListeners, log, nextId)
    }

    /** The class invariant is the unique-id invariant of the values. */
    lemma ValidState()
      requires Valid()
      ensures UniqueIds(State())
    {
      JsonOfAt(reservations);
    }

    /** A `settings` object replaces the defaults wholesale; the initial reservations must have distinct ids. */
    constructor (venueMap: VenueMap, reservations: seq<Reservation>, settings: Option<Settings>)
      requires forall i, j :: 0 <= i < j < |reservations| ==> reservations[i].id != reservations[j].id
      ensures Valid()
      ensures this.venueMap == venueMap && this.reservations == reservations
      ensures this.settings == if settings.Some? then settings.value else DefaultSettings
      ensures eventListeners == map[] && log == []
    {
      this.venueMap := venueMap;
      this.reservations := reservations;
      this.settings := if settings.Some? then settings.value else DefaultSettings;
      eventListeners := map[];
      log := [];
      nextId := NextFreeId(reservations);
      assert forall i :: 0 <= i < |reservations| ==> reservations[i] in reservations;
    }

    /** Registers `callback` for `event`, after the listeners already there. */
    method On(event: string, callback: Listener)
      modifies this`eventListeners
      ensures eventListeners == old(eventListeners)[event := ListenersOf(old(eventListeners), event) + [callback]]
    {
      if event !in eventListeners {
        eventListeners := eventListeners[event := []];
      }
      eventListeners := eventListeners[event := eventListeners[event] + [callback]];
    }

    /** Unregisters every registration of `callback` for `event`, keeping the others in order. */
    method Off(event: string, callback: Listener)
      modifies this`eventListeners
      ensures event !in old(eventListeners) ==> eventListeners == old(eventListeners)
      ensures event in old(eventListeners) ==>
        eventListeners == old(eventListeners)[event := Without(old(eventListeners)[event], callback)]
    {
      if event !in eventListeners {
        return;
      }
      eventListeners := eventListeners[event := Without(eventListeners[event], callback)];
    }

    /** Calls every listener of `event`, in registration order; a listener that throws is swallowed. */
    method TriggerEvent(event: string, reservationId: nat)
      modifies this`log
      ensures log == old(log) + Deliveries(ListenersOf(eventListeners, event), event, reservationId)
      ensures State() == Emit(old(State()), event, reservationId)
    {
      if event !in eventListeners {
        return;
      }
      var listeners := eventListeners[event];
      for k := 0 to |listeners|
        invariant log == old(log) + Deliveries(listeners[..k], event, reservationId)
      {
        log := log + [Delivery(listeners[k], event, reservationId)];
      }
      assert listeners[..|listeners|] == listeners;
    }

    /** The loop the engine runs over a reservation's items: the item found for each id gets `status`. */
    method SetItemStatuses(ids: seq<string>, status: string)
      requires status in ItemStatuses
      modifies venueMap.items`status
      ensures State() == old(State()).(itemStatus := SetStatuses(venueMap.items, old(State()).itemStatus, ids, status))
    {
      UpdateStatuses(ids, status);
    }

    /** The loop as a change of the sequence of item statuses. */
    method UpdateStatuses(ids: seq<string>, status: string)
      requires status in ItemStatuses
      modifies venueMap.items`status
      ensures StatusesOf(venueMap.items) == SetStatuses(venueMap.items, old(StatusesOf(venueMap.items)), ids, status)
    {
      ghost var items := venueMap.items;
      ghost var st := StatusesOf(items);
      StatusesOfAt(items);
      UpdateItems(ids, status);
      StatusesOfAt(items);
      forall j | 0 <= j < |items|
        ensures StatusesOf(items)[j] == SetStatuses(items, st, ids, status)[j]
      {
        TouchedTargeted(items, ids, j);
      }
      assert StatusesOf(items) == SetStatuses(items, st, ids, status);
    }

    /** The loop itself: the item `getItemById` finds for each id of `ids` takes `status`, in order. */
    method UpdateItems(ids: seq<string>, status: string)
      requires status in ItemStatuses
      modifies venueMap.items`status
      ensures forall j :: 0 <= j < |venueMap.items| ==>
        venueMap.items[j].status == if venueMap.items[j] in Touched(venueMap.items, ids) then status else old(venueMap.items[j].status)
    {
      ghost var items := venueMap.items;
      for k := 0 to |ids|
        invariant forall j :: 0 <= j < |items| ==>
          items[j].status == if items[j] in Touched(items, ids[..k]) then status else old(items[j].status)
      {
        assert ids[..k + 1][..k] == ids[..k];
        var item := venueMap.GetItemById(ids[k]);
        if item != null {
          var _ := item.UpdateStatus(status);
        }
      }
      assert ids[..|ids|] == ids;
    }

    /** The first reservation with `reservationId`, or `null`. */
    function GetReservationById(reservationId: nat): (r: Reservation?)
      reads this
      ensures r == null <==> forall x :: x in reservations ==> x.id != reservationId
      ensures r != null ==> r.id == reservationId && r == reservations[IndexOfReservation(reservations, reservationId)]
    {
      var k := IndexOfReservation(reservations, reservationId);
      if k < 0 then null else reservations[k]
    }

    /** With unique ids, the lookup by id finds exactly the reservation at that position. */
    lemma LookupFindsItself(i: nat)
      requires Valid() && i < |reservations|
      ensures GetReservationById(reservations[i].id) == reservations[i]
    {
      assert IndexOfReservation(reservations, reservations[i].id) == i;
    }

    /** The reservations whose customer has `customerId`, in order. */
    function GetReservationsByCustomer(customerId: string): (r: seq<Reservation>)
      reads this
      ensures Subsequence(r, reservations)
      ensures forall x :: x in r ==> x in reservations && x.customer.id == Some(customerId)
      ensures forall x :: x in reservations && x.customer.id == Some(customerId) ==> x in r
    {
      Filter(reservations, (x: Reservation) => x.customer.id == Some(customerId))
    }

    /** The live reservations whose interval overlaps `[s, e)`, in order. */
    function GetReservationsInTimeRange(s: Time, e: Time): (r: seq<Reservation>)
      reads this, reservations
      ensures Subsequence(r, reservations)
      ensures forall x :: x in r ==> x in reservations && x.status != CANCELLED && OverlapTest(x.startTime, x.endTime, s, e)
      ensures forall x :: x in reservations && x.status != CANCELLED && OverlapTest(x.startTime, x.endTime, s, e) ==> x in r
    {
      Select(reservations, InTimeRange(s, e))
    }

    /** The live reservations that contain `itemId`, in order. */
    function GetReservationsForItem(itemId: string): (r: seq<Reservation>)
      reads this, reservations
      ensures Subsequence(r, reservations)
      ensures forall x :: x in r ==> x in reservations && x.status != CANCELLED && itemId in x.itemIds
      ensures forall x :: x in reservations && x.status != CANCELLED && itemId in x.itemIds ==> x in r
    {
      Select(reservations, ForItem(itemId))
    }

    /** The live reservations that share an item with `itemIds` and overlap `[s, e)`. */
    function FindOverlapping(itemIds: seq<string>, s: Time, e: Time): (r: seq<Reservation>)
      reads this, reservations
      ensures Subsequence(r, reservations)
      ensures forall x :: x in r ==> x in reservations && Conflicts(x.ToJSON(), itemIds, s, e)
      ensures forall x :: x in reservations && Conflicts(x.ToJSON(), itemIds, s, e) ==> x in r
      ensures r == [] <==> !OverlapExists(JsonOf(reservations), itemIds, s, e)
    {
      ConflictingIsOverlapExists(reservations, itemIds, s, e);
      Select(reservations, Conflicting(itemIds, s, e))
    }

    /**
     * False for a missing, disabled or under-maintenance item; otherwise true
     * exactly when no live reservation of the item overlaps `[s, e)`. Whether the
     * item is `reserved` or `occupied` right now plays no part.
     */
    function IsItemAvailableForTimeRange(itemId: string, s: Time, e: Time): (r: bool)
      reads this, venueMap, venueMap.items, reservations
      ensures r <==>
        && FirstWithId(venueMap.items, itemId) != null
        && FirstWithId(venueMap.items, itemId).status != DISABLED
        && FirstWithId(venueMap.items, itemId).status != MAINTENANCE
        && forall x :: x in reservations && x.status != CANCELLED && itemId in x.itemIds ==>
             !OverlapTest(x.startTime, x.endTime, s, e)
    {
      var item := venueMap.GetItemById(itemId);
      if item == null || item.status == DISABLED || item.status == MAINTENANCE then false
      else
        var overlapping := Select(reservations, ItemInTimeRange(itemId, s, e));
        assert overlapping == [] || overlapping[0] in overlapping;
        overlapping == []
    }

    /** `reservations.push(r)`, for a reservation whose id is fresh. */
    method Push(r: Reservation)
      requires Valid() && r.id < nextId
      requires forall i :: 0 <= i < |reservations| ==> reservations[i].id < r.id
      modifies this`reservations
      ensures Valid()
      ensures reservations == old(reservations) + [r]
      ensures State() == old(State()).(reservations := old(State()).reservations + [r.ToJSON()])
    {
      ghost var rs := reservations;
      reservations := reservations + [r];
      assert reservations[..|reservations| - 1] == rs;
    }

    /** `_generateId()`: the next fresh id, which is then used up. */
    method GenerateId() returns (id: nat)
      requires Valid()
      modifies this`nextId
      ensures Valid()
      ensures id == old(nextId) && nextId == id + 1
      ensures State() == old(State()).(nextId := id + 1)
    {
      id := nextId;
      nextId := nextId + 1;
    }

    /**
     * The success path of `createReservation` up to the event: a new pending
     * reservation with the next fresh id, its items set to `reserved`, appended.
     */
    method Record(itemIds: seq<string>, customer: Customer, startTime: Option<Time>,
                  endTime: Option<Time>, metadata: map<string, string>, now: Time)
      returns (r: Reservation)
      requires Valid()
      modifies this`reservations, this`nextId, venueMap.items`status
      ensures Valid() && fresh(r) && r.id == old(nextId)
      ensures reservations == old(reservations) + [r]
      ensures State() == Hold(old(State()), venueMap.items, settings, itemIds, customer, startTime, endTime, metadata, now)
    {
      r := NewPending(itemIds, customer, startTime, endTime, metadata, now);
      SetItemStatuses(itemIds, RESERVED);
      Push(r);
    }

    /** `new Reservation({...})` with the fields `createReservation` gives it and the next fresh id. */
    method NewPending(itemIds: seq<string>, customer: Customer, startTime: Option<Time>,
                      endTime: Option<Time>, metadata: map<string, string>, now: Time)
      returns (r: Reservation)
      requires Valid()
      modifies this`nextId
      ensures Valid() && fresh(r) && r.id == old(nextId)
      ensures r.ToJSON() == ReservationJson(old(nextId), itemIds, PENDING, customer, startTime, endTime, now,
                                            ExpiryOf(settings, now), metadata)
      ensures State() == old(State()).(nextId := old(nextId) + 1)
    {
      var id := GenerateId();
      var expiresAt := ExpiryOf(settings, now);
      r := new Reservation(ReservationOptions(id, Some(itemIds), Some(PENDING), Some(customer),
                                              startTime, endTime, Some(now), expiresAt, Some(metadata)), now);
    }

    /**
     * The success tail of `createReservation`: the reservation is recorded and
     * `reservationCreated` emitted.
     */
    method AddReservation(itemIds: seq<string>, customer: Customer, startTime: Option<Time>,
                          endTime: Option<Time>, metadata: map<string, string>, now: Time)
      returns (r: Reservation)
      requires Valid()
      modifies this`reservations, this`log, this`nextId, venueMap.items`status
      ensures Valid() && fresh(r)
      ensures reservations == old(reservations) + [r]
      ensures State() == Admit(old(State()), venueMap.items, settings, itemIds, customer, startTime, endTime, metadata, now)
    {
      ghost var s0 := State();
      r := Record(itemIds, customer, startTime, endTime, metadata, now);
      ghost var h := State();
      assert h == Hold(s0, venueMap.items, settings, itemIds, customer, startTime, endTime, metadata, now);
      TriggerEvent(RESERVATION_CREATED, r.id);
      assert State() == Emit(h, RESERVATION_CREATED, s0.nextId);
    }

    /**
     * The checks at the head of `createReservation`, in the engine's order:
     * unavailable items, too many items, missing times, end not after start,
     * and an overlap with a live reservation unless overlaps are allowed.
     */
    method CheckAdmission(itemIds: seq<string>, startTime: Option<Time>, endTime: Option<Time>)
      returns (err: Option<EngineError>)
      ensures err == AdmissionCheck(State(), venueMap.items, settings, itemIds, startTime, endTime)
    {
      UnavailableInIsUnavailable(venueMap, itemIds);
      var unavailable := UnavailableIn(venueMap, itemIds);
      if unavailable != [] {
        return Some(ItemsNotAvailable(unavailable));
      }
      if settings.maxItemsPerReservation != 0 && |itemIds| > settings.maxItemsPerReservation {
        return Some(TooManyItems(settings.maxItemsPerReservation));
      }
      if startTime.None? || endTime.None? {
        return Some(TimesRequired);
      }
      if startTime.value >= endTime.value {
        return Some(EndNotAfterStart);
      }
      if !settings.allowOverlappingReservations {
        var overlapping := FindOverlapping(itemIds, startTime.value, endTime.value);
        if |overlapping| > 0 {
          return Some(OverlapNotAllowed);
        }
      }
      err := None;
    }

    /**
     * `createReservation`: the first admission check that fails throws before
     * anything changes; otherwise the reservation is added.
     */
    method CreateReservation(itemIds: seq<string>, customer: Customer, startTime: Option<Time>,
                             endTime: Option<Time>, metadata: map<string, string>, now: Time)
      returns (result: Result<Reservation, EngineError>)
      requires Valid()
      modifies this`reservations, this`log, this`nextId, venueMap.items`status
      ensures Valid()
      ensures var step := Create(old(State()), venueMap.items, settings, itemIds, customer, startTime, endTime, metadata, now);
        State() == step.state && Returns(result, step.outcome, reservations)
      ensures result.Ok? ==> fresh(result.value) && reservations == old(reservations) + [result.value]
    {
      var err := CheckAdmission(itemIds, startTime, endTime);
      if err.Some? {
        return Err(err.value);
      }
      var r := AddReservation(itemIds, customer, startTime, endTime, metadata, now);
      result := Ok(r);
    }

    /** `reservation.updateStatus(status)` for the reservation at position `k`. */
    method SetStatusAt(r: Reservation, ghost k: nat, status: string)
      requires Valid() && k < |reservations| && reservations[k] == r
      requires status in ReservationStatuses
      modifies r`status
      ensures State() == old(State()).(reservations := old(State()).reservations[k := old(State()).reservations[k].(status := status)])
    {
      ghost var js := JsonOf(reservations);
      JsonOfAt(reservations);
      var _ := r.UpdateStatus(status);
      JsonOfAt(reservations);
      forall i | 0 <= i < |reservations| && i != k
        ensures JsonOf(reservations)[i] == js[i]
      {
        assert reservations[i].id != r.id;
      }
      assert JsonOf(reservations) == js[k := js[k].(status := status)];
    }

    /** The reservation at position `k` takes `status`, its items take `itemStatus`, and `event` is emitted. */
    method ApplyTransition(r: Reservation, ghost k: nat, status: string, itemStatus: string, event: string)
      requires Valid() && k < |reservations| && reservations[k] == r
      requires status in ReservationStatuses && itemStatus in ItemStatuses
      modifies r`status, venueMap.items`status, this`log
      ensures State() == Transition(old(State()), venueMap.items, k, status, itemStatus, event)
    {
      ghost var s0 := State();
      JsonOfAt(reservations);
      assert s0.reservations[k].itemIds == r.itemIds && s0.reservations[k].id == r.id;
      SetStatusAt(r, k, status);
      SetItemStatuses(r.itemIds, itemStatus);
      TriggerEvent(event, r.id);
    }

    /**
     * `confirmReservation`: an unknown id, a reservation that is not pending and
     * an expired one each throw and change nothing; otherwise the reservation is
     * confirmed, its items occupied, and `reservationConfirmed` emitted.
     */
    method ConfirmReservation(reservationId: nat, now: Time) returns (result: Result<Reservation, EngineError>)
      requires Valid()
      modifies reservations`status, venueMap.items`status, this`log
      ensures var step := Confirm(old(State()), venueMap.items, reservationId, now);
        State() == step.state && Returns(result, step.outcome, reservations)
    {
      ghost var s0 := State();
      ValidState();
      IndexOfReservationIsIndexOfId(reservations, reservationId);
      var r := GetReservationById(reservationId);
      if r == null {
        return Err(ReservationNotFound(reservationId));
      }
      ghost var k := IndexOfReservation(reservations, reservationId);
      JsonOfAtOne(reservations, k);
      if r.status != PENDING {
        return Err(CannotConfirm(r.status));
      }
      if r.IsExpired(now) {
        return Err(ConfirmExpired);
      }
      ApplyTransition(r, k, CONFIRMED, OCCUPIED, RESERVATION_CONFIRMED);
      result := Ok(r);
    }

    /**
     * `cancelReservation`: an unknown id throws; an already cancelled
     * reservation is returned unchanged; otherwise the reservation is cancelled,
     * its items made available, and `reservationCancelled` emitted.
     */
    method CancelReservation(reservationId: nat) returns (result: Result<Reservation, EngineError>)
      requires Valid()
      modifies reservations`status, venueMap.items`status, this`log
      ensures var step := Cancel(old(State()), venueMap.items, reservationId);
        State() == step.state && Returns(result, step.outcome, reservations)
    {
      ghost var s0 := State();
      ValidState();
      IndexOfReservationIsIndexOfId(reservations, reservationId);
      var r := GetReservationById(reservationId);
      if r == null {
        return Err(ReservationNotFound(reservationId));
      }
      ghost var k := IndexOfReservation(reservations, reservationId);
      JsonOfAtOne(reservations, k);
      if r.status == CANCELLED {
        return Ok(r);
      }
      ApplyTransition(r, k, CANCELLED, AVAILABLE, RESERVATION_CANCELLED);
      result := Ok(r);
    }

    /**
     * One turn of the cleanup loop: the reservation at position `i` is
     * cancelled when it is pending and its expiry has passed.
     */
    method CleanupAt(i: nat, now: Time, ghost s0: EngineState, count: nat) returns (next: nat)
      requires Valid() && UniqueIds(s0)
      requires i < |reservations| == |s0.reservations|
      requires Sweep(count, State()) == SweptTo(s0, venueMap.items, now, i)
      modifies reservations`status, venueMap.items`status, this`log
      ensures Sweep(next, State()) == SweptTo(s0, venueMap.items, now, i + 1)
    {
      var x := reservations[i];
      JsonOfAtOne(reservations, i);
      CancelStaleAt(s0.reservations, i, now, i);
      assert State() == Swept(s0, venueMap.items, now, i);
      assert SweptTo(s0, venueMap.items, now, i + 1).count == count + if Stale(s0.reservations[i], now) then 1 else 0;
      if x.status == PENDING && x.expiresAt.Some? && x.expiresAt.value < now {
        SweepCancelsNext(s0, venueMap.items, now, i);
        var _ := CancelReservation(x.id);
        next := count + 1;
      } else {
        SweptStep(s0, venueMap.items, now, i + 1);
        next := count;
      }
    }

    /**
     * `cleanupExpiredReservations`, with the current instant passed in: every
     * pending reservation whose expiry has passed is cancelled, in list order,
     * and the number cancelled is returned.
     */
    method CleanupExpiredReservations(now: Time) returns (count: nat)
      requires Valid()
      modifies reservations`status, venueMap.items`status, this`log
      ensures Valid() && reservations == old(reservations)
      ensures var sweep := Cleanup(old(State()), venueMap.items, now);
        count == sweep.count && State() == sweep.state
    {
      ghost var s0 := State();
      ghost var items := venueMap.items;
      ValidState();
      SweptNone(s0, items, now);
      count := 0;
      for i := 0 to |reservations|
        invariant |s0.reservations| == |reservations|
        invariant Sweep(count, State()) == SweptTo(s0, items, now, i)
      {
        count := CleanupAt(i, now, s0, count);
      }
    }
  }
}
