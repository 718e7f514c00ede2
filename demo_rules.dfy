/**
 * The rules of the demo's simplified reservation system over plain values:
 * its reservations as records, the statuses of the map's items, its
 * listeners, the listener calls made so far and the next fresh id, and what
 * `createReservation`, `confirmReservation` and `cancelReservation` make of
 * them. Unlike the library engine, the demo admits items that are already
 * `reserved`, confirms a reservation in any status, re-announces a repeated
 * cancellation, and lets an exception from a listener escape after the state
 * has changed. The lemmas state these rules and the one invariant the demo
 * does keep: every item a reservation names is in the map.
 */
module DemoRules {
  import opened Common
  import opened DemoVenues
  import R = Reservations
  import E = EngineStates

  const PENDING := R.PENDING
  const CONFIRMED := R.CONFIRMED
  const CANCELLED := R.CANCELLED

  /** The settings the demo stores; it never reads them. */
  datatype Settings = Settings(
    reservationExpiryMinutes: int,
    maxItemsPerReservation: int,
    allowOverlappingReservations: bool,
    timeSlotDurationMinutes: int)

  const DefaultSettings := Settings(15, 10, false, 120)

  /** `options.settings`: the properties it has (`Some`) are spread over the defaults. */
  datatype SettingsOverride = SettingsOverride(
    reservationExpiryMinutes: Option<int>,
    maxItemsPerReservation: Option<int>,
    allowOverlappingReservations: Option<bool>,
    timeSlotDurationMinutes: Option<int>)

  /** `{...defaults, ...options.settings}`: a property given overrides its default, one not given keeps it. */
  function Merge(o: SettingsOverride): (s: Settings)
    ensures o.reservationExpiryMinutes.Some? ==> s.reservationExpiryMinutes == o.reservationExpiryMinutes.value
    ensures o.reservationExpiryMinutes.None? ==> s.reservationExpiryMinutes == 15
    ensures o.maxItemsPerReservation.Some? ==> s.maxItemsPerReservation == o.maxItemsPerReservation.value
    ensures o.maxItemsPerReservation.None? ==> s.maxItemsPerReservation == 10
    ensures o.allowOverlappingReservations.Some? ==> s.allowOverlappingReservations == o.allowOverlappingReservations.value
    ensures o.allowOverlappingReservations.None? ==> !s.allowOverlappingReservations
    ensures o.timeSlotDurationMinutes.Some? ==> s.timeSlotDurationMinutes == o.timeSlotDurationMinutes.value
    ensures o.timeSlotDurationMinutes.None? ==> s.timeSlotDurationMinutes == 120
  {
    Settings(
      if o.reservationExpiryMinutes.Some? then o.reservationExpiryMinutes.value else DefaultSettings.reservationExpiryMinutes,
      if o.maxItemsPerReservation.Some? then o.maxItemsPerReservation.value else DefaultSettings.maxItemsPerReservation,
      if o.allowOverlappingReservations.Some? then o.allowOverlappingReservations.value else DefaultSettings.allowOverlappingReservations,
      if o.timeSlotDurationMinutes.Some? then o.timeSlotDurationMinutes.value else DefaultSettings.timeSlotDurationMinutes)
  }

  /** The fields of the demo's `Reservation`. */
  datatype Record = Record(
    id: nat, itemIds: seq<string>, customer: R.Customer, startTime: R.Time, endTime: R.Time,
    status: string, metadata: map<string, string>, createdAt: R.Time, updatedAt: R.Time)

  /** The options of the demo's `Reservation` constructor; `None` and `""` stand for a falsy property. */
  datatype RecordOptions = RecordOptions(
    id: Option<nat>, itemIds: Option<seq<string>>, customer: Option<R.Customer>,
    startTime: Option<R.Time>, endTime: Option<R.Time>, status: string,
    metadata: Option<map<string, string>>, createdAt: Option<R.Time>, updatedAt: Option<R.Time>)

  /**
   * The constructor's defaults: a random id (`randomId`), no items, an empty
   * customer, `now` for every missing instant, and status `pending`.
   */
  function FromOptions(o: RecordOptions, randomId: nat, now: R.Time): (r: Record)
    ensures o.id.None? ==> r.id == randomId
    ensures o.startTime.None? ==> r.startTime == now
    ensures o.endTime.None? ==> r.endTime == now
    ensures o.status == "" ==> r.status == PENDING
    ensures o.customer.None? ==> r.customer == R.NoCustomer
  {
    Record(
      if o.id.Some? then o.id.value else randomId,
      if o.itemIds.Some? then o.itemIds.value else [],
      if o.customer.Some? then o.customer.value else R.NoCustomer,
      if o.startTime.Some? then o.startTime.value else now,
      if o.endTime.Some? then o.endTime.value else now,
      OrString(o.status, PENDING),
      if o.metadata.Some? then o.metadata.value else map[],
      if o.createdAt.Some? then o.createdAt.value else now,
      if o.updatedAt.Some? then o.updatedAt.value else now)
  }

  /** The options `createReservation` passes: items, customer, times and metadata, nothing else. */
  function CreateOptions(itemIds: seq<string>, customer: R.Customer, startTime: R.Time, endTime: R.Time,
                         metadata: map<string, string>): RecordOptions {
    RecordOptions(None, Some(itemIds), Some(customer), Some(startTime), Some(endTime), "",
                  Some(metadata), None, None)
  }

  /** A callback registered with `on`: its identity, and whether calling it throws. */
  datatype Callback = Callback(id: nat, throws: bool)

  /** The errors the demo throws; `StatusOfUndefined` is the `TypeError` of `item.status = ...` on a missing item. */
  datatype DemoError =
    | ItemNotFound(itemId: string)
    | ItemNotAvailable(itemId: string)
    | CustomerRequired
    | InvalidDates
    | ReservationNotFound(reservationId: nat)
    | StatusOfUndefined(itemId: string)
    | ListenerThrew(callback: nat)

  datatype DemoState = DemoState(
    reservations: seq<Record>,
    itemStatus: seq<string>,
    listeners: map<string, seq<Callback>>,
    log: seq<E.Delivery>,
    nextId: nat)

  /** What an operation returns, as the position of its reservation or the error it throws, and the state it leaves. */
  datatype Step = Step(outcome: Result<nat, DemoError>, state: DemoState)

  /** The listeners the constructor registers: an empty list for each of the three events. */
  const InitialListeners: map<string, seq<Callback>> :=
    map[E.RESERVATION_CREATED := [], E.RESERVATION_CONFIRMED := [], E.RESERVATION_CANCELLED := []]

  function CallbacksOf(listeners: map<string, seq<Callback>>, event: string): seq<Callback> {
    if event in listeners then listeners[event] else []
  }

  /** The calls of `cbs`, in order, with the reservation `reservationId`. */
  function Calls(cbs: seq<Callback>, event: string, reservationId: nat): (ds: seq<E.Delivery>)
    ensures |ds| == |cbs|
    ensures forall i :: 0 <= i < |cbs| ==> ds[i] == E.Delivery(cbs[i].id, event, reservationId)
  {
    seq(|cbs|, i requires 0 <= i < |cbs| => E.Delivery(cbs[i].id, event, reservationId))
  }

  /** The position of the first callback that throws, or `|cbs|`. */
  function FirstThrower(cbs: seq<Callback>): (n: nat)
    ensures n <= |cbs|
  {
    if cbs == [] || cbs[0].throws then 0 else 1 + FirstThrower(cbs[1..])
  }

  /** The callbacks before the first thrower do not throw, and the first thrower does. */
  lemma {:induction false} FirstThrowerSpec(cbs: seq<Callback>)
    ensures forall i :: 0 <= i < FirstThrower(cbs) ==> !cbs[i].throws
    ensures FirstThrower(cbs) < |cbs| ==> cbs[FirstThrower(cbs)].throws
    decreases |cbs|
  {
    if cbs != [] && !cbs[0].throws {
      FirstThrowerSpec(cbs[1..]);
    }
  }

  /** No listener of `event` throws. */
  predicate Quiet(listeners: map<string, seq<Callback>>, event: string) {
    forall i :: 0 <= i < |CallbacksOf(listeners, event)| ==> !CallbacksOf(listeners, event)[i].throws
  }

  /**
   * `_emitEvent(event, reservation)`: the listeners are called in order until
   * one throws; that exception escapes, and the listeners after it are not
   * called. Otherwise the operation returns the reservation at position `k`.
   */
  function Emit(s: DemoState, event: string, k: nat, reservationId: nat): (r: Step)
    ensures r.state == s.(log := r.state.log)
  {
    var cbs := CallbacksOf(s.listeners, event);
    var n := FirstThrower(cbs);
    if n < |cbs| then
      Step(Err(ListenerThrew(cbs[n].id)), s.(log := s.log + Calls(cbs[..n + 1], event, reservationId)))
    else
      Step(Ok(k), s.(log := s.log + Calls(cbs, event, reservationId)))
  }

  /** A throwing listener stops the emission: the calls made end with it, and the error names it. */
  lemma EmitStopsAtThrower(s: DemoState, event: string, k: nat, reservationId: nat)
    requires !Quiet(s.listeners, event)
    ensures var cbs := CallbacksOf(s.listeners, event);
      var r := Emit(s, event, k, reservationId);
      exists n :: 0 <= n < |cbs| && cbs[n].throws && (forall i :: 0 <= i < n ==> !cbs[i].throws) &&
        r.outcome == Err(ListenerThrew(cbs[n].id)) && r.state.log == s.log + Calls(cbs[..n + 1], event, reservationId)
  {
    var cbs := CallbacksOf(s.listeners, event);
    FirstThrowerSpec(cbs);
    assert FirstThrower(cbs) < |cbs|;
  }

  /** When no listener throws, every listener is called once, in order, and the operation returns. */
  lemma EmitQuiet(s: DemoState, event: string, k: nat, reservationId: nat)
    requires Quiet(s.listeners, event)
    ensures Emit(s, event, k, reservationId) ==
      Step(Ok(k), s.(log := s.log + Calls(CallbacksOf(s.listeners, event), event, reservationId)))
  {
    FirstThrowerSpec(CallbacksOf(s.listeners, event));
  }

  /** The item at position `k` is the one `getItemById` finds for some id of `ids`. */
  predicate Targeted(items: seq<VenueItem>, ids: seq<string>, k: nat) {
    k < |items| && items[k].id in ids && FirstWithId(items, items[k].id) == items[k]
  }

  /** The item statuses after `for (id of ids) getItemById(id).status = status`, when every id is found. */
  function SetStatuses(items: seq<VenueItem>, st: seq<string>, ids: seq<string>, status: string): (r: seq<string>)
    ensures |r| == |st|
  {
    seq(|st|, k requires 0 <= k < |st| => if Targeted(items, ids, k) then status else st[k])
  }

  /** Read by id, the loop sets the status of every item of `ids` and of no other id. */
  lemma SetStatusesById(items: seq<VenueItem>, st: seq<string>, ids: seq<string>, status: string, id: string)
    requires 0 <= IndexOfItem(items, id) < |st|
    ensures SetStatuses(items, st, ids, status)[IndexOfItem(items, id)] ==
      if id in ids then status else st[IndexOfItem(items, id)]
  {
    var k := IndexOfItem(items, id);
    assert FirstWithId(items, id) == items[k];
  }

  /** The item objects `getItemById` finds for the ids of `ids`: those the status loop writes. */
  function Touched(items: seq<VenueItem>, ids: seq<string>): set<VenueItem>
    decreases |ids|
  {
    if ids == [] then {}
    else
      var o := FirstWithId(items, ids[|ids| - 1]);
      Touched(items, ids[..|ids| - 1]) + if o == null then {} else {o}
  }

  /** An item object is written by the loop exactly when its position is a targeted one. */
  lemma {:induction false} TouchedTargeted(items: seq<VenueItem>, ids: seq<string>, k: nat)
    requires k < |items|
    ensures items[k] in Touched(items, ids) <==> Targeted(items, ids, k)
    decreases |ids|
  {
    if ids != [] {
      var init := ids[..|ids| - 1];
      TouchedTargeted(items, init, k);
      assert ids == init + [ids[|ids| - 1]];
    }
  }

  /** The position of the first id of `ids` that names no item: where the status loop throws. */
  function FirstMissing(items: seq<VenueItem>, ids: seq<string>): (m: nat)
    ensures m <= |ids|
  {
    if ids == [] || IndexOfItem(items, ids[0]) < 0 then 0 else 1 + FirstMissing(items, ids[1..])
  }

  /** The ids before the first missing one all name items, and the first missing one names none. */
  lemma {:induction false} FirstMissingSpec(items: seq<VenueItem>, ids: seq<string>)
    ensures forall i :: 0 <= i < FirstMissing(items, ids) ==> IndexOfItem(items, ids[i]) >= 0
    ensures FirstMissing(items, ids) < |ids| ==> IndexOfItem(items, ids[FirstMissing(items, ids)]) < 0
    decreases |ids|
  {
    if ids != [] && IndexOfItem(items, ids[0]) >= 0 {
      FirstMissingSpec(items, ids[1..]);
    }
  }

  /** An item status that the validation loop of `createReservation` lets through. */
  predicate Admits(status: string) {
    status == AVAILABLE || status == RESERVED
  }

  /** The item `id` exists and its status admits a new reservation. */
  predicate Fine(items: seq<VenueItem>, st: seq<string>, id: string) {
    0 <= IndexOfItem(items, id) < |st| && Admits(st[IndexOfItem(items, id)])
  }

  /** What the validation loop throws for an id that is not fine. */
  function Offence(items: seq<VenueItem>, id: string): DemoError {
    if IndexOfItem(items, id) < 0 then ItemNotFound(id) else ItemNotAvailable(id)
  }

  /** The position of the first id the validation loop rejects, or `|ids|`. */
  function FirstOffender(items: seq<VenueItem>, st: seq<string>, ids: seq<string>): (m: nat)
    ensures m <= |ids|
  {
    if ids == [] || !Fine(items, st, ids[0]) then 0 else 1 + FirstOffender(items, st, ids[1..])
  }

  /** The ids before the first offender are fine, and the first offender is not. */
  lemma {:induction false} FirstOffenderSpec(items: seq<VenueItem>, st: seq<string>, ids: seq<string>)
    ensures forall i :: 0 <= i < FirstOffender(items, st, ids) ==> Fine(items, st, ids[i])
    ensures FirstOffender(items, st, ids) < |ids| ==> !Fine(items, st, ids[FirstOffender(items, st, ids)])
    decreases |ids|
  {
    if ids != [] && Fine(items, st, ids[0]) {
      FirstOffenderSpec(items, st, ids[1..]);
    }
  }

  /**
   * The validation loop of `createReservation`: the first id, in order, whose
   * item is missing or neither `available` nor `reserved` is reported; an
   * item that is already reserved passes.
   */
  function ItemCheck(items: seq<VenueItem>, st: seq<string>, ids: seq<string>): (r: Option<DemoError>)
    ensures r.Some? ==> (r.value.ItemNotFound? || r.value.ItemNotAvailable?) && r.value.itemId in ids
    ensures r.Some? && r.value.ItemNotFound? ==> IndexOfItem(items, r.value.itemId) < 0
  {
    var m := FirstOffender(items, st, ids);
    if m < |ids| then Some(Offence(items, ids[m])) else None
  }

  /**
   * The validation loop passes exactly when every id names an item that is
   * `available` or `reserved`; otherwise it reports the first id that does not.
   */
  lemma ItemCheckSpec(items: seq<VenueItem>, st: seq<string>, ids: seq<string>)
    ensures ItemCheck(items, st, ids).None? <==> forall i :: 0 <= i < |ids| ==> Fine(items, st, ids[i])
    ensures ItemCheck(items, st, ids).Some? ==> exists i :: (0 <= i < |ids| && !Fine(items, st, ids[i]) &&
      (forall j :: 0 <= j < i ==> Fine(items, st, ids[j])) && ItemCheck(items, st, ids).value == Offence(items, ids[i]))
  {
    FirstOffenderSpec(items, st, ids);
  }

  /** Every id the validation loop lets through names an item, so the marking loop that follows finds them all. */
  lemma CheckedItemsFound(items: seq<VenueItem>, st: seq<string>, ids: seq<string>)
    requires ItemCheck(items, st, ids).None?
    ensures FirstMissing(items, ids) == |ids|
  {
    FirstOffenderSpec(items, st, ids);
    FirstMissingSpec(items, ids);
  }

  /** `!customer || !customer.name || !customer.email` fails. */
  predicate CustomerGiven(customer: Option<R.Customer>) {
    customer.Some? && customer.value.name != "" && customer.value.email != ""
  }

  /** `!startTime || !endTime || startTime >= endTime` fails. */
  predicate DatesValid(startTime: Option<R.Time>, endTime: Option<R.Time>) {
    startTime.Some? && endTime.Some? && startTime.value < endTime.value
  }

  /**
   * The accepted reservation is recorded: a pending record with the next id
   * is appended and the items of `itemIds` become `reserved`.
   */
  function Hold(s: DemoState, items: seq<VenueItem>, itemIds: seq<string>, customer: R.Customer,
                startTime: R.Time, endTime: R.Time, metadata: map<string, string>, now: R.Time): (r: DemoState)
    ensures |r.reservations| == |s.reservations| + 1 && r.reservations[..|s.reservations|] == s.reservations
    ensures var j := r.reservations[|s.reservations|];
      j.id == s.nextId && j.status == PENDING && j.itemIds == itemIds && j.customer == customer &&
      j.startTime == startTime && j.endTime == endTime && j.createdAt == now
    ensures |r.itemStatus| == |s.itemStatus|
    ensures r.listeners == s.listeners && r.log == s.log && r.nextId == s.nextId + 1
  {
    var j := FromOptions(CreateOptions(itemIds, customer, startTime, endTime, metadata), s.nextId, now);
    s.(reservations := s.reservations + [j],
       itemStatus := SetStatuses(items, s.itemStatus, itemIds, RESERVED),
       nextId := s.nextId + 1)
  }

  /**
   * `createReservation`: the item loop, then the customer, then the dates,
   * each throwing before anything changes; otherwise the reservation is
   * recorded and `reservationCreated` emitted.
   */
  function Create(s: DemoState, items: seq<VenueItem>, itemIds: seq<string>, customer: Option<R.Customer>,
                  startTime: Option<R.Time>, endTime: Option<R.Time>, metadata: map<string, string>,
                  now: R.Time): (r: Step)
    ensures r.state.listeners == s.listeners
  {
    var err := ItemCheck(items, s.itemStatus, itemIds);
    if err.Some? then Step(Err(err.value), s)
    else if !CustomerGiven(customer) then Step(Err(CustomerRequired), s)
    else if !DatesValid(startTime, endTime) then Step(Err(InvalidDates), s)
    else
      Emit(Hold(s, items, itemIds, customer.value, startTime.value, endTime.value, metadata, now),
           E.RESERVATION_CREATED, |s.reservations|, s.nextId)
  }

  /**
   * The checks of `createReservation` in order: an item error wins over a
   * customer error, which wins over a date error, and each leaves the state
   * as it was; once all pass the record is appended, pending, with the next
   * id, and the call returns it unless a listener throws.
   */
  lemma CreateOutcome(s: DemoState, items: seq<VenueItem>, itemIds: seq<string>, customer: Option<R.Customer>,
                      startTime: Option<R.Time>, endTime: Option<R.Time>, metadata: map<string, string>, now: R.Time)
    ensures var r := Create(s, items, itemIds, customer, startTime, endTime, metadata, now);
      var err := ItemCheck(items, s.itemStatus, itemIds);
      && (err.Some? ==> r == Step(Err(err.value), s))
      && (err.None? && !CustomerGiven(customer) ==> r == Step(Err(CustomerRequired), s))
      && (err.None? && CustomerGiven(customer) && !DatesValid(startTime, endTime) ==> r == Step(Err(InvalidDates), s))
      && (err.None? && CustomerGiven(customer) && DatesValid(startTime, endTime) ==>
            && r.state.reservations == s.reservations +
                 [Record(s.nextId, itemIds, customer.value, startTime.value, endTime.value, PENDING, metadata, now, now)]
            && r.state.nextId == s.nextId + 1
            && (forall id :: 0 <= IndexOfItem(items, id) < |s.itemStatus| ==>
                  r.state.itemStatus[IndexOfItem(items, id)] ==
                    if id in itemIds then RESERVED else s.itemStatus[IndexOfItem(items, id)])
            && (r.outcome == Ok(|s.reservations|) <==> Quiet(s.listeners, E.RESERVATION_CREATED))
            && (Quiet(s.listeners, E.RESERVATION_CREATED) ==>
                  r.state.log == s.log + Calls(CallbacksOf(s.listeners, E.RESERVATION_CREATED), E.RESERVATION_CREATED, s.nextId)))
  {
    if ItemCheck(items, s.itemStatus, itemIds).None? && CustomerGiven(customer) && DatesValid(startTime, endTime) {
      var h := Hold(s, items, itemIds, customer.value, startTime.value, endTime.value, metadata, now);
      forall id | 0 <= IndexOfItem(items, id) < |s.itemStatus| {
        SetStatusesById(items, s.itemStatus, itemIds, RESERVED, id);
      }
      if Quiet(s.listeners, E.RESERVATION_CREATED) {
        EmitQuiet(h, E.RESERVATION_CREATED, |s.reservations|, s.nextId);
      } else {
        EmitStopsAtThrower(h, E.RESERVATION_CREATED, |s.reservations|, s.nextId);
      }
    }
  }

  /** `find` by id over the records: the position of the first one with `id`, or -1. */
  function IndexOfId(js: seq<Record>, id: nat): (k: int)
    ensures -1 <= k < |js|
    ensures k == -1 <==> forall i :: 0 <= i < |js| ==> js[i].id != id
    ensures 0 <= k ==> js[k].id == id && forall i :: 0 <= i < k ==> js[i].id != id
  {
    if js == [] then -1
    else if js[0].id == id then 0
    else
      var k := IndexOfId(js[1..], id);
      if k == -1 then -1 else k + 1
  }

  /** Replacing a record by one with the same id does not move any lookup by id. */
  lemma IndexOfIdUpdate(js: seq<Record>, k: nat, j: Record, id: nat)
    requires k < |js| && j.id == js[k].id
    ensures IndexOfId(js[k := j], id) == IndexOfId(js, id)
  {
    var js' := js[k := j];
    assert forall i :: 0 <= i < |js| ==> js'[i].id == js[i].id;
  }

  /**
   * The common body of confirmation and cancellation: the record at `k` takes
   * `status` and `now` as its update time, then the item of each of its ids,
   * in order, takes `itemStatus`; a missing item throws a `TypeError` there,
   * with the earlier changes kept. Otherwise `event` is emitted.
   */
  function Transition(s: DemoState, items: seq<VenueItem>, k: nat, status: string, itemStatus: string,
                      event: string, now: R.Time): (r: Step)
    requires k < |s.reservations|
    ensures r.state.listeners == s.listeners && r.state.nextId == s.nextId
    ensures |r.state.reservations| == |s.reservations|
  {
    var j := s.reservations[k];
    var m := FirstMissing(items, j.itemIds);
    var s1 := s.(reservations := s.reservations[k := j.(status := status, updatedAt := now)],
                 itemStatus := SetStatuses(items, s.itemStatus, j.itemIds[..m], itemStatus));
    if m < |j.itemIds| then Step(Err(StatusOfUndefined(j.itemIds[m])), s1)
    else Emit(s1, event, k, j.id)
  }

  /** A transition changes the status and update time of the one record at `k` and keeps every other record. */
  lemma TransitionShape(s: DemoState, items: seq<VenueItem>, k: nat, status: string, itemStatus: string,
                        event: string, now: R.Time)
    requires k < |s.reservations|
    ensures var r := Transition(s, items, k, status, itemStatus, event, now);
      r.state.reservations == s.reservations[k := s.reservations[k].(status := status, updatedAt := now)]
  {
  }

  /** `confirmReservation`: only an unknown id is refused; a reservation in any status becomes `confirmed`. */
  function Confirm(s: DemoState, items: seq<VenueItem>, reservationId: nat, now: R.Time): (r: Step)
    ensures r.state.listeners == s.listeners
    ensures IndexOfId(s.reservations, reservationId) < 0 <==> r.outcome == Err(ReservationNotFound(reservationId))
    ensures r.outcome == Err(ReservationNotFound(reservationId)) ==> r.state == s
  {
    var k := IndexOfId(s.reservations, reservationId);
    if k < 0 then Step(Err(ReservationNotFound(reservationId)), s)
    else Transition(s, items, k, CONFIRMED, OCCUPIED, E.RESERVATION_CONFIRMED, now)
  }

  /** `cancelReservation`: only an unknown id is refused; a reservation in any status becomes `cancelled`. */
  function Cancel(s: DemoState, items: seq<VenueItem>, reservationId: nat, now: R.Time): (r: Step)
    ensures r.state.listeners == s.listeners
    ensures IndexOfId(s.reservations, reservationId) < 0 <==> r.outcome == Err(ReservationNotFound(reservationId))
    ensures r.outcome == Err(ReservationNotFound(reservationId)) ==> r.state == s
  {
    var k := IndexOfId(s.reservations, reservationId);
    if k < 0 then Step(Err(ReservationNotFound(reservationId)), s)
    else Transition(s, items, k, CANCELLED, AVAILABLE, E.RESERVATION_CANCELLED, now)
  }

  /**
   * The invariant the demo keeps: one status per item of the map, and every
   * item id of every reservation names an item of the map.
   */
  predicate Known(s: DemoState, items: seq<VenueItem>)
    ensures s.reservations == [] ==> (Known(s, items) <==> |s.itemStatus| == |items|)
  {
    |s.itemStatus| == |items| &&
    forall k, id :: 0 <= k < |s.reservations| && id in s.reservations[k].itemIds ==> IndexOfItem(items, id) >= 0
  }

  /** Under the invariant, the status loop of a transition finds every item and throws nothing. */
  lemma KnownTransitionFindsAll(s: DemoState, items: seq<VenueItem>, k: nat, status: string, itemStatus: string,
                                event: string, now: R.Time)
    requires Known(s, items) && k < |s.reservations|
    ensures FirstMissing(items, s.reservations[k].itemIds) == |s.reservations[k].itemIds|
    ensures var r := Transition(s, items, k, status, itemStatus, event, now);
      && Known(r.state, items)
      && r.state.itemStatus == SetStatuses(items, s.itemStatus, s.reservations[k].itemIds, itemStatus)
      && (Quiet(s.listeners, event) ==>
            && r.outcome == Ok(k)
            && r.state.log == s.log + Calls(CallbacksOf(s.listeners, event), event, s.reservations[k].id))
  {
    var j := s.reservations[k];
    FirstMissingSpec(items, j.itemIds);
    assert j.itemIds[..FirstMissing(items, j.itemIds)] == j.itemIds;
    TransitionShape(s, items, k, status, itemStatus, event, now);
    if Quiet(s.listeners, event) {
      var s1 := s.(reservations := s.reservations[k := j.(status := status, updatedAt := now)],
                   itemStatus := SetStatuses(items, s.itemStatus, j.itemIds, itemStatus));
      EmitQuiet(s1, event, k, j.id);
    }
  }

  /** Under the invariant, confirming and cancelling never hit a missing item, and keep the invariant. */
  lemma KnownTransitions(s: DemoState, items: seq<VenueItem>, reservationId: nat, now: R.Time)
    requires Known(s, items)
    ensures Confirm(s, items, reservationId, now).outcome.Err? ==>
      !Confirm(s, items, reservationId, now).outcome.error.StatusOfUndefined?
    ensures Cancel(s, items, reservationId, now).outcome.Err? ==>
      !Cancel(s, items, reservationId, now).outcome.error.StatusOfUndefined?
    ensures Known(Confirm(s, items, reservationId, now).state, items)
    ensures Known(Cancel(s, items, reservationId, now).state, items)
  {
    var k := IndexOfId(s.reservations, reservationId);
    if 0 <= k {
      KnownTransitionFindsAll(s, items, k, CONFIRMED, OCCUPIED, E.RESERVATION_CONFIRMED, now);
      KnownTransitionFindsAll(s, items, k, CANCELLED, AVAILABLE, E.RESERVATION_CANCELLED, now);
    }
  }

  /** Creation keeps the invariant: it records only ids the item loop has found. */
  lemma KnownCreate(s: DemoState, items: seq<VenueItem>, itemIds: seq<string>, customer: Option<R.Customer>,
                    startTime: Option<R.Time>, endTime: Option<R.Time>, metadata: map<string, string>, now: R.Time)
    requires Known(s, items)
    ensures Known(Create(s, items, itemIds, customer, startTime, endTime, metadata, now).state, items)
  {
    var r := Create(s, items, itemIds, customer, startTime, endTime, metadata, now);
    if ItemCheck(items, s.itemStatus, itemIds).None? && CustomerGiven(customer) && DatesValid(startTime, endTime) {
      CreateOutcome(s, items, itemIds, customer, startTime, endTime, metadata, now);
      ItemCheckSpec(items, s.itemStatus, itemIds);
      forall id | id in itemIds ensures IndexOfItem(items, id) >= 0 {
        var i :| 0 <= i < |itemIds| && itemIds[i] == id;
        assert Fine(items, s.itemStatus, itemIds[i]);
      }
    }
  }

  /** `addItem` keeps the invariant: the ids found before are still found. */
  lemma KnownAddItem(s: DemoState, items: seq<VenueItem>, item: VenueItem, status: string)
    requires Known(s, items)
    ensures Known(s.(itemStatus := s.itemStatus + [status]), items + [item])
  {
    forall id | IndexOfItem(items, id) >= 0 ensures IndexOfItem(items + [item], id) >= 0 {
      assert (items + [item])[IndexOfItem(items, id)].id == id;
    }
  }

  /**
   * Double booking: an item held by a pending reservation is admitted again.
   * Two creations with the same items both succeed, whatever their times, and
   * leave two pending reservations that share every one of those items.
   */
  lemma {:induction false} DoubleBooking(s: DemoState, items: seq<VenueItem>, itemIds: seq<string>,
                                         c1: R.Customer, c2: R.Customer, s1: R.Time, e1: R.Time, s2: R.Time, e2: R.Time,
                                         m1: map<string, string>, m2: map<string, string>, now1: R.Time, now2: R.Time)
    requires Known(s, items) && Quiet(s.listeners, E.RESERVATION_CREATED)
    requires ItemCheck(items, s.itemStatus, itemIds).None?
    requires CustomerGiven(Some(c1)) && CustomerGiven(Some(c2)) && s1 < e1 && s2 < e2
    ensures var a := Create(s, items, itemIds, Some(c1), Some(s1), Some(e1), m1, now1);
      var b := Create(a.state, items, itemIds, Some(c2), Some(s2), Some(e2), m2, now2);
      var n := |s.reservations|;
      && a.outcome == Ok(n) && b.outcome == Ok(n + 1)
      && b.state.reservations[n].status == PENDING && b.state.reservations[n + 1].status == PENDING
      && b.state.reservations[n].itemIds == itemIds && b.state.reservations[n + 1].itemIds == itemIds
  {
    var a := Create(s, items, itemIds, Some(c1), Some(s1), Some(e1), m1, now1);
    CreateOutcome(s, items, itemIds, Some(c1), Some(s1), Some(e1), m1, now1);
    ItemCheckSpec(items, s.itemStatus, itemIds);
    var st := a.state.itemStatus;
    assert st == SetStatuses(items, s.itemStatus, itemIds, RESERVED);
    forall i | 0 <= i < |itemIds| ensures Fine(items, st, itemIds[i]) {
      assert Fine(items, s.itemStatus, itemIds[i]);
      SetStatusesById(items, s.itemStatus, itemIds, RESERVED, itemIds[i]);
    }
    ItemCheckSpec(items, st, itemIds);
    CreateOutcome(a.state, items, itemIds, Some(c2), Some(s2), Some(e2), m2, now2);
  }

  /**
   * Confirmation does not look at the status: from any status, even
   * `cancelled`, a known reservation becomes `confirmed` and all its items
   * `occupied`.
   */
  lemma ConfirmFromAnyStatus(s: DemoState, items: seq<VenueItem>, reservationId: nat, now: R.Time)
    requires Known(s, items) && Quiet(s.listeners, E.RESERVATION_CONFIRMED)
    requires 0 <= IndexOfId(s.reservations, reservationId)
    ensures var k := IndexOfId(s.reservations, reservationId);
      var r := Confirm(s, items, reservationId, now);
      && r.outcome == Ok(k)
      && r.state.reservations[k] == s.reservations[k].(status := CONFIRMED, updatedAt := now)
      && forall id :: id in s.reservations[k].itemIds ==> r.state.itemStatus[IndexOfItem(items, id)] == OCCUPIED
  {
    var k := IndexOfId(s.reservations, reservationId);
    var ids := s.reservations[k].itemIds;
    KnownTransitionFindsAll(s, items, k, CONFIRMED, OCCUPIED, E.RESERVATION_CONFIRMED, now);
    TransitionShape(s, items, k, CONFIRMED, OCCUPIED, E.RESERVATION_CONFIRMED, now);
    forall id | id in ids ensures Confirm(s, items, reservationId, now).state.itemStatus[IndexOfItem(items, id)] == OCCUPIED {
      SetStatusesById(items, s.itemStatus, ids, OCCUPIED, id);
    }
  }

  /**
   * Cancellation is not idempotent: cancelling again finds the same
   * reservation, leaves the records and items as the first call left them
   * (but for the update time) and announces the cancellation a second time.
   */
  lemma {:induction false} CancelTwiceAnnouncesTwice(s: DemoState, items: seq<VenueItem>, reservationId: nat,
                                                     now1: R.Time, now2: R.Time)
    requires Known(s, items) && Quiet(s.listeners, E.RESERVATION_CANCELLED)
    requires 0 <= IndexOfId(s.reservations, reservationId)
    ensures var k := IndexOfId(s.reservations, reservationId);
      var once := Cancel(s, items, reservationId, now1);
      var twice := Cancel(once.state, items, reservationId, now2);
      var cbs := CallbacksOf(s.listeners, E.RESERVATION_CANCELLED);
      && once.outcome == Ok(k) && twice.outcome == Ok(k)
      && twice.state.reservations == once.state.reservations[k := once.state.reservations[k].(updatedAt := now2)]
      && twice.state.itemStatus == once.state.itemStatus
      && twice.state.log == once.state.log + Calls(cbs, E.RESERVATION_CANCELLED, s.reservations[k].id)
  {
    var k := IndexOfId(s.reservations, reservationId);
    var ids := s.reservations[k].itemIds;
    var once := Cancel(s, items, reservationId, now1);
    KnownTransitionFindsAll(s, items, k, CANCELLED, AVAILABLE, E.RESERVATION_CANCELLED, now1);
    TransitionShape(s, items, k, CANCELLED, AVAILABLE, E.RESERVATION_CANCELLED, now1);
    assert once == Transition(s, items, k, CANCELLED, AVAILABLE, E.RESERVATION_CANCELLED, now1);
    IndexOfIdUpdate(s.reservations, k, s.reservations[k].(status := CANCELLED, updatedAt := now1), reservationId);
    KnownTransitionFindsAll(once.state, items, k, CANCELLED, AVAILABLE, E.RESERVATION_CANCELLED, now2);
    TransitionShape(once.state, items, k, CANCELLED, AVAILABLE, E.RESERVATION_CANCELLED, now2);
    var st1 := once.state.itemStatus;
    var st2 := Cancel(once.state, items, reservationId, now2).state.itemStatus;
    forall i | 0 <= i < |st1| ensures st2[i] == st1[i] {
      if Targeted(items, ids, i) {
        assert st1[i] == AVAILABLE;
      }
    }
  }

  /**
   * Cancelling one of two reservations that share an item frees the item,
   * although the other reservation still holds it and stays pending.
   */
  lemma CancelFreesSharedItem(s: DemoState, items: seq<VenueItem>, i: nat, j: nat, id: string, now: R.Time)
    requires Known(s, items) && Quiet(s.listeners, E.RESERVATION_CANCELLED)
    requires i < |s.reservations| && j < |s.reservations| && i != j
    requires IndexOfId(s.reservations, s.reservations[i].id) == i
    requires id in s.reservations[i].itemIds && id in s.reservations[j].itemIds
    ensures var r := Cancel(s, items, s.reservations[i].id, now);
      && r.state.reservations[j] == s.reservations[j]
      && r.state.itemStatus[IndexOfItem(items, id)] == AVAILABLE
  {
    KnownTransitionFindsAll(s, items, i, CANCELLED, AVAILABLE, E.RESERVATION_CANCELLED, now);
    TransitionShape(s, items, i, CANCELLED, AVAILABLE, E.RESERVATION_CANCELLED, now);
    SetStatusesById(items, s.itemStatus, s.reservations[i].itemIds, AVAILABLE, id);
  }

  /** The operations of the demo system that change its state. */
  datatype Operation =
    | CreateOp(itemIds: seq<string>, customer: Option<R.Customer>, startTime: Option<R.Time>,
               endTime: Option<R.Time>, metadata: map<string, string>, now: R.Time)
    | ConfirmOp(reservationId: nat, now: R.Time)
    | CancelOp(reservationId: nat, now: R.Time)

  function Apply(s: DemoState, items: seq<VenueItem>, op: Operation): DemoState {
    match op
    case CreateOp(itemIds, customer, startTime, endTime, metadata, now) =>
      Create(s, items, itemIds, customer, startTime, endTime, metadata, now).state
    case ConfirmOp(reservationId, now) => Confirm(s, items, reservationId, now).state
    case CancelOp(reservationId, now) => Cancel(s, items, reservationId, now).state
  }

  /** The state after `ops`, in order, whatever each one returned or threw. */
  function Run(s: DemoState, items: seq<VenueItem>, ops: seq<Operation>): DemoState
    decreases |ops|
  {
    if ops == [] then s else Run(Apply(s, items, ops[0]), items, ops[1..])
  }

  /** Any run of operations keeps the invariant, so no confirmation or cancellation ever meets a missing item. */
  lemma {:induction false} RunKeepsKnown(s: DemoState, items: seq<VenueItem>, ops: seq<Operation>)
    requires Known(s, items)
    ensures Known(Run(s, items, ops), items)
    decreases |ops|
  {
    if ops != [] {
      match ops[0] {
        case CreateOp(itemIds, customer, startTime, endTime, metadata, now) =>
          KnownCreate(s, items, itemIds, customer, startTime, endTime, metadata, now);
        case ConfirmOp(reservationId, now) => KnownTransitions(s, items, reservationId, now);
        case CancelOp(reservationId, now) => KnownTransitions(s, items, reservationId, now);
      }
      RunKeepsKnown(Apply(s, items, ops[0]), items, ops[1..]);
    }
  }

  /** A freshly constructed system, with no reservations, satisfies the invariant. */
  lemma KnownInitially(items: seq<VenueItem>, st: seq<string>, log: seq<E.Delivery>, nextId: nat)
    requires |st| == |items|
    ensures Known(DemoState([], st, InitialListeners, log, nextId), items)
  {
  }
}
