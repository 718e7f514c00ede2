/**
 * The rules of the reservation engine over plain values: the engine's state
 * (its reservations as plain objects, the statuses of the venue map's items,
 * its listeners, the listener calls made so far and the next fresh id) and
 * what each operation makes of it. The engine class is proved to change its
 * objects exactly as these functions say; the lemmas here state what the
 * functions guarantee: ordered admission checks, atomic rejection, the
 * reservation life cycle, idempotent cancellation, the expiry sweep and the
 * mutual-exclusion invariant.
 */
module EngineStates {
  import opened Common
  import opened VenueItems
  import opened VenueMaps
  import opened Reservations

  const MS_PER_MINUTE := 60000

  /**
   * The engine's settings. `maxItemsPerReservation == 0` stands for a falsy
   * value (no limit); the advisory settings are carried but never read.
   */
  datatype Settings = Settings(
    reservationExpiryMinutes: Option<int>,
    allowMultipleItemsPerReservation: bool,
    maxItemsPerReservation: int,
    allowOverlappingReservations: bool,
    timeSlotDurationMinutes: int)

  const DefaultSettings := Settings(Some(15), true, 10, false, 60)

  /** The errors the engine throws, one per distinct message. */
  datatype EngineError =
    | ItemsNotAvailable(itemIds: seq<string>)
    | TooManyItems(max: int)
    | TimesRequired
    | EndNotAfterStart
    | OverlapNotAllowed
    | ReservationNotFound(reservationId: nat)
    | CannotConfirm(status: string)
    | ConfirmExpired

  const RESERVATION_CREATED := "reservationCreated"
  const RESERVATION_CONFIRMED := "reservationConfirmed"
  const RESERVATION_CANCELLED := "reservationCancelled"

  /** A registered callback, known by its identity. */
  type Listener = nat

  /** One call of a listener with the reservation an event is about. */
  datatype Delivery = Delivery(listener: Listener, event: string, reservationId: nat)

  /** The calls one emission makes: every listener once, in registration order. */
  function Deliveries(listeners: seq<Listener>, event: string, reservationId: nat): (ds: seq<Delivery>)
    ensures |ds| == |listeners|
    ensures forall i :: 0 <= i < |ds| ==> ds[i] == Delivery(listeners[i], event, reservationId)
  {
    seq(|listeners|, i requires 0 <= i < |listeners| => Delivery(listeners[i], event, reservationId))
  }

  /** The listeners registered for `event`, in registration order. */
  function ListenersOf(listeners: map<string, seq<Listener>>, event: string): seq<Listener> {
    if event in listeners then listeners[event] else []
  }

  /** A relational comparison in JavaScript turns `null` into 0. */
  function AsNumber(t: Option<Time>): int {
    if t.Some? then t.value else 0
  }

  /** The overlap test the engine writes out three times, of a reservation `[rs, re)` against `[s, e)`. */
  predicate OverlapTest(rs: Option<Time>, re: Option<Time>, s: Time, e: Time) {
    var a, b := AsNumber(rs), AsNumber(re);
    (a >= s && a < e) || (b > s && b <= e) || (a <= s && b >= e)
  }

  /** For nonempty intervals the three-disjunct test is half-open interval intersection. */
  lemma OverlapIsHalfOpenIntersection(rs: Time, re: Time, s: Time, e: Time)
    requires s < e && rs < re
    ensures OverlapTest(Some(rs), Some(re), s, e) <==> rs < e && s < re
  {
  }

  /** Some id occurs in both lists (`a.some(id => b.includes(id))`). */
  predicate SharesItem(a: seq<string>, b: seq<string>) {
    exists id :: id in a && id in b
  }

  /**
   * The engine's state as values: its reservations as plain objects, in list
   * order; the status of each item of the venue map, by position; the
   * registered listeners; every listener call made so far; and the next fresh
   * reservation id.
   */
  datatype EngineState = EngineState(
    reservations: seq<ReservationJson>,
    itemStatus: seq<string>,
    listeners: map<string, seq<Listener>>,
    log: seq<Delivery>,
    nextId: nat)

  /**
   * What an operation returns, as the position of the reservation it returns
   * or the error it throws, and the state it leaves.
   */
  datatype Step = Step(outcome: Result<nat, EngineError>, state: EngineState)

  /** `_triggerEvent(event, reservation)`: each listener of `event` is called once, in order. */
  function Emit(s: EngineState, event: string, reservationId: nat): (r: EngineState)
    ensures r.reservations == s.reservations && r.itemStatus == s.itemStatus
    ensures r.listeners == s.listeners && r.nextId == s.nextId
    ensures |r.log| == |s.log| + |ListenersOf(s.listeners, event)| && r.log[..|s.log|] == s.log
    ensures forall i :: |s.log| <= i < |r.log| ==>
      r.log[i].event == event && r.log[i].reservationId == reservationId && r.log[i].listener in ListenersOf(s.listeners, event)
  {
    s.(log := s.log + Deliveries(ListenersOf(s.listeners, event), event, reservationId))
  }

  /** The item at position `k` is the one `getItemById` finds for some id of `ids`. */
  predicate Targeted(items: seq<VenueItem>, ids: seq<string>, k: nat) {
    k < |items| && items[k].id in ids && FirstWithId(items, items[k].id) == items[k]
  }

  /** The item objects `getItemById` finds for the ids of `ids`: those the engine's loop writes. */
  function Touched(items: seq<VenueItem>, ids: seq<string>): set<VenueItem>
    decreases |ids|
  {
    if ids == [] then {}
    else
      var o := FirstWithId(items, ids[|ids| - 1]);
      Touched(items, ids[..|ids| - 1]) + if o == null then {} else {o}
  }

  /** An item object is written by the loop exactly when its position is a targeted one. */
  lemma {:induction false} TouchedTargeted(items: seq<VenueItem>, ids: seq<string>, k: nat)
    requires k < |items|
    ensures items[k] in Touched(items, ids) <==> Targeted(items, ids, k)
    decreases |ids|
  {
    if ids != [] {
      var init := ids[..|ids| - 1];
      TouchedTargeted(items, init, k);
      assert ids == init + [ids[|ids| - 1]];
    }
  }

  /**
   * The item statuses after the engine's loop `ids.forEach(id => getItemById(id)?.updateStatus(status))`:
   * the item found for each id takes `status`, every other item keeps its own.
   */
  function SetStatuses(items: seq<VenueItem>, st: seq<string>, ids: seq<string>, status: string): (r: seq<string>)
    ensures |r| == |st|
  {
    seq(|st|, k requires 0 <= k < |st| => if Targeted(items, ids, k) then status else st[k])
  }

  /** Read by id, the loop sets the status of every item of `ids` found in the map and of no other id. */
  lemma SetStatusesById(items: seq<VenueItem>, st: seq<string>, ids: seq<string>, status: string, id: string)
    requires 0 <= IndexOfItem(items, id) < |st|
    ensures SetStatuses(items, st, ids, status)[IndexOfItem(items, id)] ==
      if id in ids then status else st[IndexOfItem(items, id)]
  {
    var k := IndexOfItem(items, id);
    assert FirstWithId(items, id) == items[k];
  }

  /** Two loops that set the same status are one loop over both lists of ids. */
  lemma SetStatusesTwice(items: seq<VenueItem>, st: seq<string>, a: seq<string>, b: seq<string>, status: string)
    ensures SetStatuses(items, SetStatuses(items, st, a, status), b, status) == SetStatuses(items, st, a + b, status)
  {
  }

  /** The ids of `js`, in order. */
  function Ids(js: seq<ReservationJson>): (ids: seq<nat>)
    ensures |ids| == |js| && forall i :: 0 <= i < |js| ==> ids[i] == js[i].id
  {
    seq(|js|, i requires 0 <= i < |js| => js[i].id)
  }

  /** A status change keeps every id in place. */
  lemma IdsOfStatusUpdate(js: seq<ReservationJson>, k: nat, status: string)
    requires k < |js|
    ensures Ids(js[k := js[k].(status := status)]) == Ids(js)
  {
  }

  /** `indexOf`: the position of the first occurrence of `id`, or -1. */
  function FirstIndex(ids: seq<nat>, id: nat): (k: int)
    ensures -1 <= k < |ids|
    ensures k == -1 <==> id !in ids
    ensures 0 <= k ==> ids[k] == id && id !in ids[..k]
  {
    if ids == [] then -1
    else if ids[0] == id then 0
    else
      var k := FirstIndex(ids[1..], id);
      assert k >= 0 ==> ids[..k + 1] == [ids[0]] + ids[1..][..k];
      if k == -1 then -1 else k + 1
  }

  /** `find` by id over the plain objects: the position of the first reservation with `id`, or -1. */
  function IndexOfId(js: seq<ReservationJson>, id: nat): (k: int)
    ensures -1 <= k < |js|
    ensures k == -1 <==> forall i :: 0 <= i < |js| ==> js[i].id != id
    ensures 0 <= k ==> js[k].id == id && forall i :: 0 <= i < k ==> js[i].id != id
  {
    var ids := Ids(js);
    var k := FirstIndex(ids, id);
    assert k == -1 ==> forall i :: 0 <= i < |js| ==> ids[i] in ids;
    assert 0 <= k ==> forall i :: 0 <= i < k ==> ids[..k][i] == ids[i];
    k
  }

  /** Reservation ids are unique, and all lie below the next fresh id. */
  predicate UniqueIds(s: EngineState) {
    (forall i, j :: 0 <= i < j < |s.reservations| ==> s.reservations[i].id != s.reservations[j].id) &&
    (forall i :: 0 <= i < |s.reservations| ==> s.reservations[i].id < s.nextId)
  }

  /** With unique ids, the lookup by id finds the reservation at that position. */
  lemma IndexOfUniqueId(s: EngineState, k: nat)
    requires UniqueIds(s) && k < |s.reservations|
    ensures IndexOfId(s.reservations, s.reservations[k].id) == k
  {
  }

  /** The item status in which a live reservation with status `status` holds its items. */
  function HeldStatus(status: string): string {
    if status == PENDING then RESERVED else OCCUPIED
  }

  /**
   * Mutual exclusion: every item of a live (not cancelled) reservation is in
   * the map and is `reserved` while the reservation is pending and `occupied`
   * once it is confirmed, and no item belongs to two live reservations.
   */
  predicate Exclusive(s: EngineState, items: seq<VenueItem>)
    ensures (forall k :: 0 <= k < |s.reservations| ==> s.reservations[k].status == CANCELLED) ==> Exclusive(s, items)
  {
    var js := s.reservations;
    (forall k, id :: 0 <= k < |js| && js[k].status != CANCELLED && id in js[k].itemIds ==>
       0 <= IndexOfItem(items, id) < |s.itemStatus| && s.itemStatus[IndexOfItem(items, id)] == HeldStatus(js[k].status)) &&
    (forall k, l, id :: 0 <= k < l < |js| && id in js[k].itemIds && id in js[l].itemIds ==>
       js[k].status == CANCELLED || js[l].status == CANCELLED)
  }

  /** Every id of `ids` names an item of the map, and that item is `available`. */
  predicate AllAvailable(items: seq<VenueItem>, st: seq<string>, ids: seq<string>) {
    forall id :: id in ids ==> ItemAvailable(items, st, id)
  }

  /** `id` names an item of the map, and that item is `available`. */
  predicate ItemAvailable(items: seq<VenueItem>, st: seq<string>, id: string) {
    0 <= IndexOfItem(items, id) < |st| && st[IndexOfItem(items, id)] == AVAILABLE
  }

  /** The ids of `ids` whose item is missing or not `available`, in order. */
  function Unavailable(items: seq<VenueItem>, st: seq<string>, ids: seq<string>): (r: seq<string>)
    ensures forall id :: id in r <==> id in ids && !ItemAvailable(items, st, id)
    ensures r == [] <==> AllAvailable(items, st, ids)
    ensures Subsequence(r, ids)
    ensures forall id :: id in ids ==> multiset(r)[id] == if ItemAvailable(items, st, id) then 0 else multiset(ids)[id]
  {
    var r := Filter(ids, id => !ItemAvailable(items, st, id));
    assert forall id :: id in ids && !ItemAvailable(items, st, id) ==> multiset(r)[id] > 0;
    r
  }

  /** The item limit applies only when `maxItemsPerReservation` is truthy. */
  predicate ExceedsItemLimit(settings: Settings, n: nat) {
    settings.maxItemsPerReservation != 0 && n > settings.maxItemsPerReservation
  }

  /** A live reservation that shares an item with `itemIds` and overlaps `[s, e)`. */
  predicate Conflicts(j: ReservationJson, itemIds: seq<string>, s: Time, e: Time) {
    j.status != CANCELLED && SharesItem(j.itemIds, itemIds) && OverlapTest(j.startTime, j.endTime, s, e)
  }

  /** `_findOverlappingReservations(...)` is nonempty. */
  predicate OverlapExists(js: seq<ReservationJson>, itemIds: seq<string>, s: Time, e: Time) {
    exists k :: 0 <= k < |js| && Conflicts(js[k], itemIds, s, e)
  }

  /**
   * The first admission check of `createReservation` that fails, in the order
   * the engine runs them: items missing or not available, too many items,
   * times missing, end not after start, overlap with a live reservation.
   */
  function AdmissionCheck(s: EngineState, items: seq<VenueItem>, settings: Settings, itemIds: seq<string>,
                          startTime: Option<Time>, endTime: Option<Time>): (err: Option<EngineError>)
    ensures !AllAvailable(items, s.itemStatus, itemIds) ==>
      err == Some(ItemsNotAvailable(Unavailable(items, s.itemStatus, itemIds)))
    ensures AllAvailable(items, s.itemStatus, itemIds) && ExceedsItemLimit(settings, |itemIds|) ==>
      err == Some(TooManyItems(settings.maxItemsPerReservation))
    ensures (AllAvailable(items, s.itemStatus, itemIds) && !ExceedsItemLimit(settings, |itemIds|) &&
             (startTime.None? || endTime.None?)) ==>
      err == Some(TimesRequired)
    ensures (AllAvailable(items, s.itemStatus, itemIds) && !ExceedsItemLimit(settings, |itemIds|) &&
             startTime.Some? && endTime.Some? && startTime.value >= endTime.value) ==>
      err == Some(EndNotAfterStart)
    ensures err == Some(OverlapNotAllowed) <==>
      && AllAvailable(items, s.itemStatus, itemIds) && !ExceedsItemLimit(settings, |itemIds|)
      && startTime.Some? && endTime.Some? && startTime.value < endTime.value
      && !settings.allowOverlappingReservations && OverlapExists(s.reservations, itemIds, startTime.value, endTime.value)
    ensures err.None? <==>
      && AllAvailable(items, s.itemStatus, itemIds) && !ExceedsItemLimit(settings, |itemIds|)
      && startTime.Some? && endTime.Some? && startTime.value < endTime.value
      && (settings.allowOverlappingReservations || !OverlapExists(s.reservations, itemIds, startTime.value, endTime.value))
  {
    var unavailable := Unavailable(items, s.itemStatus, itemIds);
    if unavailable != [] then
      Some(ItemsNotAvailable(unavailable))
    else if ExceedsItemLimit(settings, |itemIds|) then
      Some(TooManyItems(settings.maxItemsPerReservation))
    else if startTime.None? || endTime.None? then
      Some(TimesRequired)
    else if startTime.value >= endTime.value then
      Some(EndNotAfterStart)
    else if !settings.allowOverlappingReservations && OverlapExists(s.reservations, itemIds, startTime.value, endTime.value) then
      Some(OverlapNotAllowed)
    else
      None
  }

  /**
   * While mutual exclusion holds, the overlap check of `createReservation`
   * never rejects anything: items that pass the availability check belong to
   * no live reservation at all.
   */
  lemma OverlapCheckRedundant(s: EngineState, items: seq<VenueItem>, itemIds: seq<string>, start: Time, end: Time)
    requires Exclusive(s, items)
    requires AllAvailable(items, s.itemStatus, itemIds)
    ensures !OverlapExists(s.reservations, itemIds, start, end)
  {
    forall k | 0 <= k < |s.reservations| && s.reservations[k].status != CANCELLED
      ensures !SharesItem(s.reservations[k].itemIds, itemIds)
    {
      forall id | id in s.reservations[k].itemIds
        ensures id !in itemIds
      {
        assert s.itemStatus[IndexOfItem(items, id)] == HeldStatus(s.reservations[k].status);
      }
    }
  }

  /**
   * The instant a reservation created at `now` expires. A settings object
   * without `reservationExpiryMinutes` makes `setMinutes` produce an invalid
   * date, which, like `null`, never compares as expired: both are `None`.
   */
  function ExpiryOf(settings: Settings, now: Time): (e: Option<Time>)
    ensures e.Some? <==> settings.reservationExpiryMinutes.Some?
    ensures e.Some? ==> (now <= e.value <==> 0 <= settings.reservationExpiryMinutes.value)
    ensures e.Some? ==> (e.value - now) % MS_PER_MINUTE == 0
  {
    match settings.reservationExpiryMinutes
    case Some(minutes) => Some(now + minutes * MS_PER_MINUTE)
    case None => None
  }

  /**
   * Without `reservationExpiryMinutes` in the settings, a reservation
   * `createReservation` makes is never expired for `confirmReservation` and
   * never swept by `cleanupExpiredReservations`, however late it is.
   */
  lemma MissingExpirySettingNeverExpires(s: EngineState, items: seq<VenueItem>, settings: Settings, itemIds: seq<string>,
                                         customer: Customer, startTime: Option<Time>, endTime: Option<Time>,
                                         metadata: map<string, string>, now: Time, later: Time)
    requires settings.reservationExpiryMinutes.None?
    ensures var j := Hold(s, items, settings, itemIds, customer, startTime, endTime, metadata, now).reservations[|s.reservations|];
      j.status == PENDING && !Expired(j.expiresAt, later) && !Stale(j, later)
  {
  }

  /**
   * The success path of `createReservation` before its event: one new pending
   * reservation with the next fresh id is appended and its items are set to
   * `reserved`.
   */
  function Hold(s: EngineState, items: seq<VenueItem>, settings: Settings, itemIds: seq<string>, customer: Customer,
                startTime: Option<Time>, endTime: Option<Time>, metadata: map<string, string>, now: Time): (r: EngineState)
    ensures |r.reservations| == |s.reservations| + 1 && r.reservations[..|s.reservations|] == s.reservations
    ensures var j := r.reservations[|s.reservations|];
      j.id == s.nextId && j.status == PENDING && j.itemIds == itemIds && j.createdAt == now
    ensures |r.itemStatus| == |s.itemStatus|
    ensures r.listeners == s.listeners && r.log == s.log && r.nextId == s.nextId + 1
  {
    var j := ReservationJson(s.nextId, itemIds, PENDING, customer, startTime, endTime, now,
                             ExpiryOf(settings, now), metadata);
    s.(reservations := s.reservations + [j],
       itemStatus := SetStatuses(items, s.itemStatus, itemIds, RESERVED),
       nextId := s.nextId + 1)
  }

  /** The success path of `createReservation`: the reservation is held and `reservationCreated` emitted. */
  function Admit(s: EngineState, items: seq<VenueItem>, settings: Settings, itemIds: seq<string>, customer: Customer,
                 startTime: Option<Time>, endTime: Option<Time>, metadata: map<string, string>, now: Time): (r: EngineState)
    ensures var h := Hold(s, items, settings, itemIds, customer, startTime, endTime, metadata, now);
      r.reservations == h.reservations && r.itemStatus == h.itemStatus && r.nextId == h.nextId && r.listeners == s.listeners
    ensures |r.log| == |s.log| + |ListenersOf(s.listeners, RESERVATION_CREATED)| && r.log[..|s.log|] == s.log
    ensures forall i :: |s.log| <= i < |r.log| ==>
      r.log[i].event == RESERVATION_CREATED && r.log[i].reservationId == r.reservations[|s.reservations|].id
  {
    Emit(Hold(s, items, settings, itemIds, customer, startTime, endTime, metadata, now), RESERVATION_CREATED, s.nextId)
  }

  /**
   * `createReservation`: when every admission check passes, the reservation is
   * admitted; otherwise the first failing check's error is thrown and nothing
   * changes.
   */
  function Create(s: EngineState, items: seq<VenueItem>, settings: Settings, itemIds: seq<string>, customer: Customer,
                  startTime: Option<Time>, endTime: Option<Time>, metadata: map<string, string>, now: Time): (r: Step)
    ensures AdmissionCheck(s, items, settings, itemIds, startTime, endTime).Some? ==>
      r == Step(Err(AdmissionCheck(s, items, settings, itemIds, startTime, endTime).value), s)
    ensures AdmissionCheck(s, items, settings, itemIds, startTime, endTime).None? ==>
      r.outcome == Ok(|s.reservations|)
  {
    var err := AdmissionCheck(s, items, settings, itemIds, startTime, endTime);
    if err.Some? then Step(Err(err.value), s)
    else Step(Ok(|s.reservations|), Admit(s, items, settings, itemIds, customer, startTime, endTime, metadata, now))
  }

  /**
   * An admitted reservation is appended as the only new one: pending, with the
   * next fresh id, the given items, customer, times and metadata, created now
   * and expiring after the configured minutes. Every item it names is then
   * `reserved`, every other item keeps its status, and each listener of
   * `reservationCreated` is called once.
   */
  lemma AdmitAppendsPending(s: EngineState, items: seq<VenueItem>, settings: Settings, itemIds: seq<string>, customer: Customer,
                            startTime: Option<Time>, endTime: Option<Time>, metadata: map<string, string>, now: Time)
    ensures var r := Admit(s, items, settings, itemIds, customer, startTime, endTime, metadata, now);
      && r.reservations == s.reservations + [ReservationJson(s.nextId, itemIds, PENDING, customer, startTime, endTime,
                                                            now, if settings.reservationExpiryMinutes.Some?
                                                                  then Some(now + settings.reservationExpiryMinutes.value * 60000)
                                                                  else None, metadata)]
      && (forall id :: 0 <= IndexOfItem(items, id) < |s.itemStatus| ==>
            r.itemStatus[IndexOfItem(items, id)] == if id in itemIds then RESERVED else s.itemStatus[IndexOfItem(items, id)])
      && r.log == s.log + Deliveries(ListenersOf(s.listeners, RESERVATION_CREATED), RESERVATION_CREATED, s.nextId)
      && r.nextId == s.nextId + 1 && r.listeners == s.listeners
  {
    forall id | 0 <= IndexOfItem(items, id) < |s.itemStatus| {
      SetStatusesById(items, s.itemStatus, itemIds, RESERVED, id);
    }
  }

  /** Admitting available items keeps mutual exclusion and unique ids. */
  lemma AdmitKeepsExclusive(s: EngineState, items: seq<VenueItem>, settings: Settings, itemIds: seq<string>, customer: Customer,
                            startTime: Option<Time>, endTime: Option<Time>, metadata: map<string, string>, now: Time)
    requires Exclusive(s, items) && UniqueIds(s)
    requires AllAvailable(items, s.itemStatus, itemIds)
    ensures var r := Admit(s, items, settings, itemIds, customer, startTime, endTime, metadata, now);
      Exclusive(r, items) && UniqueIds(r)
  {
    AdmitAppendsPending(s, items, settings, itemIds, customer, startTime, endTime, metadata, now);
    var js := s.reservations;
    forall k, id | 0 <= k < |js| && js[k].status != CANCELLED && id in js[k].itemIds
      ensures id !in itemIds
    {
      assert s.itemStatus[IndexOfItem(items, id)] == HeldStatus(js[k].status);
    }
  }

  /** Creation keeps mutual exclusion and unique ids. */
  lemma CreateKeepsExclusive(s: EngineState, items: seq<VenueItem>, settings: Settings, itemIds: seq<string>, customer: Customer,
                             startTime: Option<Time>, endTime: Option<Time>, metadata: map<string, string>, now: Time)
    requires Exclusive(s, items) && UniqueIds(s)
    ensures var r := Create(s, items, settings, itemIds, customer, startTime, endTime, metadata, now);
      Exclusive(r.state, items) && UniqueIds(r.state)
  {
    if AdmissionCheck(s, items, settings, itemIds, startTime, endTime).None? {
      AdmitKeepsExclusive(s, items, settings, itemIds, customer, startTime, endTime, metadata, now);
    }
  }

  /**
   * The reservation at position `k` takes `status`, its items take
   * `itemStatus`, and `event` is emitted: the common tail of confirmation and
   * cancellation.
   */
  function Transition(s: EngineState, items: seq<VenueItem>, k: nat, status: string, itemStatus: string, event: string): (r: EngineState)
    requires k < |s.reservations|
    ensures Ids(r.reservations) == Ids(s.reservations) && r.listeners == s.listeners && r.nextId == s.nextId
  {
    var j := s.reservations[k];
    IdsOfStatusUpdate(s.reservations, k, status);
    Emit(s.(reservations := s.reservations[k := j.(status := status)],
            itemStatus := SetStatuses(items, s.itemStatus, j.itemIds, itemStatus)),
         event, j.id)
  }

  /** A transition changes the status of one reservation and keeps every other field of every reservation. */
  lemma TransitionShape(s: EngineState, items: seq<VenueItem>, k: nat, status: string, itemStatus: string, event: string)
    requires k < |s.reservations|
    ensures var r := Transition(s, items, k, status, itemStatus, event);
      && (forall i :: 0 <= i < |s.reservations| ==>
            r.reservations[i] == if i == k then s.reservations[i].(status := status) else s.reservations[i])
      && (forall id :: 0 <= IndexOfItem(items, id) < |s.itemStatus| ==>
            r.itemStatus[IndexOfItem(items, id)] ==
              if id in s.reservations[k].itemIds then itemStatus else s.itemStatus[IndexOfItem(items, id)])
      && r.log == s.log + Deliveries(ListenersOf(s.listeners, event), event, s.reservations[k].id)
      && r.listeners == s.listeners && r.nextId == s.nextId
  {
    forall id | 0 <= IndexOfItem(items, id) < |s.itemStatus| {
      SetStatusesById(items, s.itemStatus, s.reservations[k].itemIds, itemStatus, id);
    }
  }

  /**
   * `confirmReservation`: an unknown id, a status other than `pending` and an
   * expired reservation each throw and change nothing; otherwise the
   * reservation becomes `confirmed`, its items `occupied`, and
   * `reservationConfirmed` is emitted.
   */
  function Confirm(s: EngineState, items: seq<VenueItem>, reservationId: nat, now: Time): (r: Step)
    ensures r.outcome.Err? ==> r.state == s
    ensures r.outcome.Ok? ==> r.outcome.value == IndexOfId(s.reservations, reservationId)
  {
    var k := IndexOfId(s.reservations, reservationId);
    if k < 0 then Step(Err(ReservationNotFound(reservationId)), s)
    else if s.reservations[k].status != PENDING then Step(Err(CannotConfirm(s.reservations[k].status)), s)
    else if Expired(s.reservations[k].expiresAt, now) then Step(Err(ConfirmExpired), s)
    else Step(Ok(k), Transition(s, items, k, CONFIRMED, OCCUPIED, RESERVATION_CONFIRMED))
  }

  /** Confirmation succeeds exactly on a known, pending, unexpired reservation. */
  lemma ConfirmOutcome(s: EngineState, items: seq<VenueItem>, reservationId: nat, now: Time)
    ensures var r := Confirm(s, items, reservationId, now);
      var k := IndexOfId(s.reservations, reservationId);
      && (k < 0 <==> r.outcome == Err(ReservationNotFound(reservationId)))
      && (0 <= k && s.reservations[k].status != PENDING ==> r.outcome == Err(CannotConfirm(s.reservations[k].status)))
      && (0 <= k && s.reservations[k].status == PENDING && Expired(s.reservations[k].expiresAt, now) ==>
            r.outcome == Err(ConfirmExpired))
      && (r.outcome.Ok? <==> 0 <= k && s.reservations[k].status == PENDING && !Expired(s.reservations[k].expiresAt, now))
  {
  }

  /** Confirmation keeps mutual exclusion and unique ids. */
  lemma ConfirmKeepsExclusive(s: EngineState, items: seq<VenueItem>, reservationId: nat, now: Time)
    requires Exclusive(s, items) && UniqueIds(s)
    ensures var r := Confirm(s, items, reservationId, now);
      Exclusive(r.state, items) && UniqueIds(r.state)
  {
    var r := Confirm(s, items, reservationId, now);
    if r.outcome.Ok? {
      var k := r.outcome.value;
      TransitionShape(s, items, k, CONFIRMED, OCCUPIED, RESERVATION_CONFIRMED);
      assert s.reservations[k].status == PENDING;
    }
  }

  /**
   * `cancelReservation`: an unknown id throws; an already cancelled
   * reservation is returned with nothing changed; otherwise the reservation
   * becomes `cancelled`, its items `available` whatever their status, and
   * `reservationCancelled` is emitted.
   */
  function Cancel(s: EngineState, items: seq<VenueItem>, reservationId: nat): (r: Step)
    ensures Ids(r.state.reservations) == Ids(s.reservations) && r.state.listeners == s.listeners && r.state.nextId == s.nextId
    ensures r.outcome.Err? <==> IndexOfId(s.reservations, reservationId) < 0
    ensures r.outcome.Err? ==> r.state == s
    ensures r.outcome.Ok? ==> r.outcome.value == IndexOfId(s.reservations, reservationId)
  {
    var k := IndexOfId(s.reservations, reservationId);
    if k < 0 then Step(Err(ReservationNotFound(reservationId)), s)
    else if s.reservations[k].status == CANCELLED then Step(Ok(k), s)
    else Step(Ok(k), Transition(s, items, k, CANCELLED, AVAILABLE, RESERVATION_CANCELLED))
  }

  /** Cancelling twice is cancelling once: the second call returns the same reservation and changes nothing. */
  lemma {:induction false} CancelIdempotent(s: EngineState, items: seq<VenueItem>, reservationId: nat)
    ensures var once := Cancel(s, items, reservationId);
      Cancel(once.state, items, reservationId) == once
  {
    var once := Cancel(s, items, reservationId);
    var k := IndexOfId(s.reservations, reservationId);
    if 0 <= k && s.reservations[k].status != CANCELLED {
      TransitionShape(s, items, k, CANCELLED, AVAILABLE, RESERVATION_CANCELLED);
      assert IndexOfId(once.state.reservations, reservationId) == k;
    }
  }

  /** Cancellation keeps mutual exclusion and unique ids. */
  lemma CancelKeepsExclusive(s: EngineState, items: seq<VenueItem>, reservationId: nat)
    requires Exclusive(s, items) && UniqueIds(s)
    ensures var r := Cancel(s, items, reservationId);
      Exclusive(r.state, items) && UniqueIds(r.state)
  {
    var r := Cancel(s, items, reservationId);
    var k := IndexOfId(s.reservations, reservationId);
    if 0 <= k && s.reservations[k].status != CANCELLED {
      TransitionShape(s, items, k, CANCELLED, AVAILABLE, RESERVATION_CANCELLED);
    }
  }

  /** A pending reservation that `cleanupExpiredReservations` cancels at `now`. */
  predicate Stale(j: ReservationJson, now: Time) {
    j.status == PENDING && j.expiresAt.Some? && j.expiresAt.value < now
  }

  /** The stale reservations among the first `n` of `js`, in order. */
  function StaleIn(js: seq<ReservationJson>, n: int, now: Time): seq<ReservationJson> {
    if n <= 0 then []
    else StaleIn(js, n - 1, now) + (if n - 1 < |js| && Stale(js[n - 1], now) then [js[n - 1]] else [])
  }

  /** At most one stale reservation per reservation looked at. */
  lemma {:induction false} StaleInBound(js: seq<ReservationJson>, n: int, now: Time)
    ensures |StaleIn(js, n, now)| <= if n <= 0 then 0 else n
  {
    if n > 0 {
      StaleInBound(js, n - 1, now);
    }
  }

  /** `StaleIn` keeps exactly the stale reservations of the prefix. */
  lemma {:induction false} StaleInMembers(js: seq<ReservationJson>, n: nat, now: Time)
    requires n <= |js|
    ensures forall j :: j in StaleIn(js, n, now) <==> j in js[..n] && Stale(j, now)
  {
    if n > 0 {
      StaleInMembers(js, n - 1, now);
      assert js[..n] == js[..n - 1] + [js[n - 1]];
    }
  }

  /** The item ids of the stale reservations among the first `n` of `js`, in order. */
  function FreedIn(js: seq<ReservationJson>, n: int, now: Time): seq<string> {
    if n <= 0 then []
    else FreedIn(js, n - 1, now) + (if n - 1 < |js| && Stale(js[n - 1], now) then js[n - 1].itemIds else [])
  }

  /** `FreedIn` collects exactly the item ids held by a stale reservation of the prefix. */
  lemma {:induction false} FreedInMembers(js: seq<ReservationJson>, n: nat, now: Time)
    requires n <= |js|
    ensures forall id :: id in FreedIn(js, n, now) <==> exists k :: 0 <= k < n && Stale(js[k], now) && id in js[k].itemIds
  {
    if n > 0 {
      FreedInMembers(js, n - 1, now);
    }
  }

  /** The listener calls of one `reservationCancelled` event per stale reservation among the first `n` of `js`. */
  function CancellationLog(listeners: seq<Listener>, js: seq<ReservationJson>, n: int, now: Time): seq<Delivery> {
    if n <= 0 then []
    else
      var last := if n - 1 < |js| && Stale(js[n - 1], now) then Deliveries(listeners, RESERVATION_CANCELLED, js[n - 1].id) else [];
      CancellationLog(listeners, js, n - 1, now) + last
  }

  /** Every listener hears once about every stale reservation. */
  lemma {:induction false} CancellationLogLength(listeners: seq<Listener>, js: seq<ReservationJson>, n: nat, now: Time)
    requires n <= |js|
    ensures |CancellationLog(listeners, js, n, now)| == |listeners| * |StaleIn(js, n, now)|
  {
    if n > 0 {
      CancellationLogLength(listeners, js, n - 1, now);
      if Stale(js[n - 1], now) {
        var k := |StaleIn(js, n - 1, now)|;
        assert |StaleIn(js, n, now)| == k + 1;
        MulSucc(|listeners|, k);
      }
    }
  }

  lemma MulSucc(a: nat, k: nat)
    ensures a * (k + 1) == a * k + a
  {
  }

  /** `js` with the stale reservations among the first `n` marked `cancelled`. */
  function CancelStale(js: seq<ReservationJson>, n: int, now: Time): (r: seq<ReservationJson>)
    ensures |r| == |js|
  {
    if n <= 0 then js
    else
      var prev := CancelStale(js, n - 1, now);
      if n - 1 < |js| && Stale(js[n - 1], now) then prev[n - 1 := js[n - 1].(status := CANCELLED)] else prev
  }

  /** Position by position: a stale reservation among the first `n` is cancelled, any other is as it was. */
  lemma {:induction false} CancelStaleAt(js: seq<ReservationJson>, n: nat, now: Time, k: nat)
    requires k < |js|
    ensures CancelStale(js, n, now)[k] == if k < n && Stale(js[k], now) then js[k].(status := CANCELLED) else js[k]
  {
    if n > 0 {
      CancelStaleAt(js, n - 1, now, k);
    }
  }

  /** Marking stale reservations `cancelled` keeps every id in its place. */
  lemma {:induction false} CancelStaleIds(js: seq<ReservationJson>, n: nat, now: Time)
    ensures Ids(CancelStale(js, n, now)) == Ids(js)
  {
    if n > 0 {
      CancelStaleIds(js, n - 1, now);
      if n - 1 < |js| && Stale(js[n - 1], now) {
        IdsOfStatusUpdate(CancelStale(js, n - 1, now), n - 1, CANCELLED);
        CancelStaleAt(js, n - 1, now, n - 1);
      }
    }
  }

  /**
   * The state once `cleanupExpiredReservations` has looked at the first `n`
   * reservations: the stale ones among them are `cancelled`, the items they
   * named are `available`, and one `reservationCancelled` event per stale
   * reservation has gone to every listener.
   */
  function Swept(s: EngineState, items: seq<VenueItem>, now: Time, n: int): EngineState {
    var js := s.reservations;
    s.(reservations := CancelStale(js, n, now),
       itemStatus := SetStatuses(items, s.itemStatus, FreedIn(js, n, now), AVAILABLE),
       log := s.log + CancellationLog(ListenersOf(s.listeners, RESERVATION_CANCELLED), js, n, now))
  }

  /** What `cleanupExpiredReservations` returns, and the state it leaves. */
  datatype Sweep = Sweep(count: nat, state: EngineState)

  /** `cleanupExpiredReservations` at instant `now`. */
  function Cleanup(s: EngineState, items: seq<VenueItem>, now: Time): (r: Sweep)
    ensures r.count <= |s.reservations|
    ensures |r.state.reservations| == |s.reservations| && Ids(r.state.reservations) == Ids(s.reservations)
    ensures |r.state.itemStatus| == |s.itemStatus|
    ensures r.state.listeners == s.listeners && r.state.nextId == s.nextId
  {
    StaleInBound(s.reservations, |s.reservations|, now);
    CancelStaleIds(s.reservations, |s.reservations|, now);
    SweptTo(s, items, now, |s.reservations|)
  }

  /** The count so far and the state once the first `n` reservations have been looked at. */
  function SweptTo(s: EngineState, items: seq<VenueItem>, now: Time, n: int): Sweep {
    Sweep(|StaleIn(s.reservations, n, now)|, Swept(s, items, now, n))
  }

  /**
   * The cleanup is `cancelReservation` applied to each stale reservation in
   * list order: once the first `i` reservations have been swept, cancelling
   * the stale one at `i` by its id finds it at `i` (ids are unique, and the
   * sweep so far has only changed statuses) and yields the state swept up to
   * `i + 1`.
   */
  lemma SweepCancelsNext(s: EngineState, items: seq<VenueItem>, now: Time, i: nat)
    requires UniqueIds(s) && i < |s.reservations| && Stale(s.reservations[i], now)
    ensures Cancel(Swept(s, items, now, i), items, s.reservations[i].id) == Step(Ok(i), Swept(s, items, now, i + 1))
  {
    var js := s.reservations;
    CancelStaleIds(js, i, now);
    IndexOfUniqueId(s, i);
    CancelStaleAt(js, i, now, i);
    SetStatusesTwice(items, s.itemStatus, FreedIn(js, i, now), js[i].itemIds, AVAILABLE);
    var ls := ListenersOf(s.listeners, RESERVATION_CANCELLED);
    AppendAssoc(s.log, CancellationLog(ls, js, i, now), Deliveries(ls, RESERVATION_CANCELLED, js[i].id));
  }

  lemma AppendAssoc<T>(a: seq<T>, b: seq<T>, c: seq<T>)
    ensures a + b + c == a + (b + c)
  {
  }

  /**
   * `cleanupExpiredReservations` cancels exactly the pending reservations whose
   * expiry lies before `now` and returns how many: confirmed and cancelled
   * reservations, and pending ones not yet expired, are untouched, and
   * afterwards no stale reservation is left.
   */
  lemma CleanupCancelsExactlyStale(s: EngineState, items: seq<VenueItem>, now: Time)
    ensures var r := Cleanup(s, items, now);
      var js := s.reservations;
      && |r.state.reservations| == |js|
      && (forall k :: 0 <= k < |js| && Stale(js[k], now) ==> r.state.reservations[k] == js[k].(status := CANCELLED))
      && (forall k :: 0 <= k < |js| && !Stale(js[k], now) ==> r.state.reservations[k] == js[k])
      && (forall k :: 0 <= k < |js| ==> !Stale(r.state.reservations[k], now))
      && (forall j :: j in StaleIn(js, |js|, now) <==> j in js && Stale(j, now))
  {
    var js := s.reservations;
    forall k | 0 <= k < |js| {
      CancelStaleAt(js, |js|, now, k);
    }
    StaleInMembers(js, |js|, now);
    assert js[..|js|] == js;
  }

  /** One `reservationCancelled` emission per reservation of `rs`, in order: every listener hears about each. */
  function Announced(listeners: seq<Listener>, rs: seq<ReservationJson>): (ds: seq<Delivery>)
    decreases |rs|
  {
    if rs == [] then []
    else Announced(listeners, rs[..|rs| - 1]) + Deliveries(listeners, RESERVATION_CANCELLED, rs[|rs| - 1].id)
  }

  /** The sweep's log is the announcements of the stale reservations, in list order. */
  lemma {:induction false} CancellationLogIsAnnounced(listeners: seq<Listener>, js: seq<ReservationJson>, n: nat, now: Time)
    requires n <= |js|
    ensures CancellationLog(listeners, js, n, now) == Announced(listeners, StaleIn(js, n, now))
  {
    if n > 0 {
      CancellationLogIsAnnounced(listeners, js, n - 1, now);
      var prev := StaleIn(js, n - 1, now);
      if Stale(js[n - 1], now) {
        var rs := prev + [js[n - 1]];
        assert StaleIn(js, n, now) == rs;
        assert rs[..|rs| - 1] == prev;
        assert Announced(listeners, rs) == Announced(listeners, prev) + Deliveries(listeners, RESERVATION_CANCELLED, js[n - 1].id);
      } else {
        assert StaleIn(js, n, now) == prev + [];
        assert prev + [] == prev;
      }
    }
  }

  /**
   * After the cleanup the items of the cancelled reservations are `available`
   * and every other item keeps its status; each cancellation is announced once
   * to every listener, in list order.
   */
  lemma CleanupFreesAndAnnounces(s: EngineState, items: seq<VenueItem>, now: Time)
    ensures var r := Cleanup(s, items, now);
      var js := s.reservations;
      var ls := ListenersOf(s.listeners, RESERVATION_CANCELLED);
      && (forall id :: id in FreedIn(js, |js|, now) <==> exists k :: 0 <= k < |js| && Stale(js[k], now) && id in js[k].itemIds)
      && |r.state.itemStatus| == |s.itemStatus|
      && (forall id :: 0 <= IndexOfItem(items, id) < |s.itemStatus| ==>
            r.state.itemStatus[IndexOfItem(items, id)] ==
              if id in FreedIn(js, |js|, now) then AVAILABLE else s.itemStatus[IndexOfItem(items, id)])
      && r.state.log == s.log + Announced(ls, StaleIn(js, |js|, now))
      && |r.state.log| == |s.log| + |ls| * r.count
  {
    var js := s.reservations;
    var ls := ListenersOf(s.listeners, RESERVATION_CANCELLED);
    FreedInMembers(js, |js|, now);
    forall id | 0 <= IndexOfItem(items, id) < |s.itemStatus| {
      SetStatusesById(items, s.itemStatus, FreedIn(js, |js|, now), AVAILABLE, id);
    }
    CancellationLogIsAnnounced(ls, js, |js|, now);
    CancellationLogLength(ls, js, |js|, now);
  }

  /** `cancelReservation` called on the id of each reservation of `rs`, in order. */
  function CancelEach(s: EngineState, items: seq<VenueItem>, rs: seq<ReservationJson>): EngineState
    decreases |rs|
  {
    if rs == [] then s
    else Cancel(CancelEach(s, items, rs[..|rs| - 1]), items, rs[|rs| - 1].id).state
  }

  /** One more reservation in the sweep: a stale one is cancelled by id, any other changes nothing. */
  lemma SweptStep(s: EngineState, items: seq<VenueItem>, now: Time, n: nat)
    requires UniqueIds(s) && 0 < n <= |s.reservations|
    ensures Swept(s, items, now, n) ==
      if Stale(s.reservations[n - 1], now) then Cancel(Swept(s, items, now, n - 1), items, s.reservations[n - 1].id).state
      else Swept(s, items, now, n - 1)
  {
    if Stale(s.reservations[n - 1], now) {
      SweepCancelsNext(s, items, now, n - 1);
    } else {
      var js := s.reservations;
      assert FreedIn(js, n, now) == FreedIn(js, n - 1, now);
      assert CancellationLog(ListenersOf(s.listeners, RESERVATION_CANCELLED), js, n, now) ==
        CancellationLog(ListenersOf(s.listeners, RESERVATION_CANCELLED), js, n - 1, now);
    }
  }

  /** Cancelling the stale reservations among the first `n` is cancelling those among the first `n - 1`, then the one at `n - 1` if it is stale. */
  lemma CancelEachStaleStep(s: EngineState, items: seq<VenueItem>, now: Time, n: nat)
    requires 0 < n <= |s.reservations|
    ensures var js := s.reservations;
      CancelEach(s, items, StaleIn(js, n, now)) ==
        if Stale(js[n - 1], now) then Cancel(CancelEach(s, items, StaleIn(js, n - 1, now)), items, js[n - 1].id).state
        else CancelEach(s, items, StaleIn(js, n - 1, now))
  {
    var js := s.reservations;
    var rs := StaleIn(js, n, now);
    if Stale(js[n - 1], now) {
      assert rs[..|rs| - 1] == StaleIn(js, n - 1, now);
    } else {
      assert rs == StaleIn(js, n - 1, now);
    }
  }

  /** Equal states stay equal when both take the same optional cancellation. */
  lemma SameStep(x: EngineState, y: EngineState, x': EngineState, y': EngineState, items: seq<VenueItem>, id: nat, cancel: bool)
    requires x == y
    requires x' == if cancel then Cancel(x, items, id).state else x
    requires y' == if cancel then Cancel(y, items, id).state else y
    ensures x' == y'
  {
  }

  /** Before the sweep has looked at any reservation, nothing has changed. */
  lemma SweptNone(s: EngineState, items: seq<VenueItem>, now: Time)
    ensures Swept(s, items, now, 0) == s
  {
    assert SetStatuses(items, s.itemStatus, [], AVAILABLE) == s.itemStatus;
  }

  /** The state left by cancelling, one after the other, the stale reservations among the first `n`. */
  function CancelledInTurn(s: EngineState, items: seq<VenueItem>, now: Time, n: int): EngineState {
    CancelEach(s, items, StaleIn(s.reservations, n, now))
  }

  /** If the sweep so far agrees with cancelling the stale reservations one by one, it still does one reservation further. */
  lemma SweptIsCancelEachStep(s: EngineState, items: seq<VenueItem>, now: Time, n: nat)
    requires UniqueIds(s) && 0 < n <= |s.reservations|
    ensures Swept(s, items, now, n - 1) == CancelledInTurn(s, items, now, n - 1) ==>
      Swept(s, items, now, n) == CancelledInTurn(s, items, now, n)
  {
    SweptStep(s, items, now, n);
    CancelEachStaleStep(s, items, now, n);
    var js := s.reservations;
    if Swept(s, items, now, n - 1) == CancelledInTurn(s, items, now, n - 1) {
      SameStep(Swept(s, items, now, n - 1), CancelledInTurn(s, items, now, n - 1),
               Swept(s, items, now, n), CancelledInTurn(s, items, now, n), items, js[n - 1].id, Stale(js[n - 1], now));
    }
  }

  /**
   * The state the sweep leaves after `n` reservations is the one that
   * cancelling the stale reservations among them one after the other leaves.
   */
  lemma {:induction false} SweptIsCancelEach(s: EngineState, items: seq<VenueItem>, now: Time, n: nat)
    requires UniqueIds(s) && n <= |s.reservations|
    ensures Swept(s, items, now, n) == CancelledInTurn(s, items, now, n)
  {
    if n == 0 {
      SweptNone(s, items, now);
    } else {
      SweptIsCancelEachStep(s, items, now, n);
      SweptIsCancelEach(s, items, now, n - 1);
    }
  }

  /** `cleanupExpiredReservations` is `cancelReservation` on each stale reservation, in list order. */
  lemma CleanupIsCancelEach(s: EngineState, items: seq<VenueItem>, now: Time)
    requires UniqueIds(s)
    ensures Cleanup(s, items, now).state == CancelEach(s, items, StaleIn(s.reservations, |s.reservations|, now))
  {
    SweptIsCancelEach(s, items, now, |s.reservations|);
  }

  /** Cancelling reservations one after the other keeps mutual exclusion and unique ids. */
  lemma {:induction false} CancelEachKeepsExclusive(s: EngineState, items: seq<VenueItem>, rs: seq<ReservationJson>)
    requires Exclusive(s, items) && UniqueIds(s)
    ensures Exclusive(CancelEach(s, items, rs), items) && UniqueIds(CancelEach(s, items, rs))
    decreases |rs|
  {
    if rs != [] {
      CancelEachKeepsExclusive(s, items, rs[..|rs| - 1]);
      CancelKeepsExclusive(CancelEach(s, items, rs[..|rs| - 1]), items, rs[|rs| - 1].id);
    }
  }

  /** The cleanup keeps mutual exclusion and unique ids. */
  lemma CleanupKeepsExclusive(s: EngineState, items: seq<VenueItem>, now: Time)
    requires Exclusive(s, items) && UniqueIds(s)
    ensures Exclusive(Cleanup(s, items, now).state, items) && UniqueIds(Cleanup(s, items, now).state)
  {
    CleanupIsCancelEach(s, items, now);
    CancelEachKeepsExclusive(s, items, StaleIn(s.reservations, |s.reservations|, now));
  }

  /** The operations of the engine that change reservations or items. */
  datatype Operation =
    | CreateOp(itemIds: seq<string>, customer: Customer, startTime: Option<Time>, endTime: Option<Time>,
               metadata: map<string, string>, now: Time)
    | ConfirmOp(reservationId: nat, now: Time)
    | CancelOp(reservationId: nat)
    | CleanupOp(now: Time)

  /** The state after one operation, whether it returns or throws. */
  function Apply(s: EngineState, items: seq<VenueItem>, settings: Settings, op: Operation): EngineState {
    match op
    case CreateOp(itemIds, customer, startTime, endTime, metadata, now) =>
      Create(s, items, settings, itemIds, customer, startTime, endTime, metadata, now).state
    case ConfirmOp(reservationId, now) => Confirm(s, items, reservationId, now).state
    case CancelOp(reservationId) => Cancel(s, items, reservationId).state
    case CleanupOp(now) => Cleanup(s, items, now).state
  }

  /** Every operation keeps mutual exclusion and unique ids, whether it returns or throws. */
  lemma ApplyKeepsExclusive(s: EngineState, items: seq<VenueItem>, settings: Settings, op: Operation)
    requires Exclusive(s, items) && UniqueIds(s)
    ensures Exclusive(Apply(s, items, settings, op), items) && UniqueIds(Apply(s, items, settings, op))
  {
    match op {
      case CreateOp(itemIds, customer, startTime, endTime, metadata, now) =>
        CreateKeepsExclusive(s, items, settings, itemIds, customer, startTime, endTime, metadata, now);
      case ConfirmOp(reservationId, now) => ConfirmKeepsExclusive(s, items, reservationId, now);
      case CancelOp(reservationId) => CancelKeepsExclusive(s, items, reservationId);
      case CleanupOp(now) => CleanupKeepsExclusive(s, items, now);
    }
  }

  /** The state after a sequence of operations, in order. */
  function Run(s: EngineState, items: seq<VenueItem>, settings: Settings, ops: seq<Operation>): EngineState
    decreases |ops|
  {
    if ops == [] then s else Run(Apply(s, items, settings, ops[0]), items, settings, ops[1..])
  }

  /**
   * Mutual exclusion is an invariant of the engine: when only the engine's own
   * operations touch reservations and item statuses, no sequence of them,
   * successful or throwing, breaks it.
   */
  lemma {:induction false} RunKeepsExclusive(s: EngineState, items: seq<VenueItem>, settings: Settings, ops: seq<Operation>)
    requires Exclusive(s, items) && UniqueIds(s)
    ensures Exclusive(Run(s, items, settings, ops), items) && UniqueIds(Run(s, items, settings, ops))
    decreases |ops|
  {
    if ops != [] {
      ApplyKeepsExclusive(s, items, settings, ops[0]);
      RunKeepsExclusive(Apply(s, items, settings, ops[0]), items, settings, ops[1..]);
    }
  }

  /**
   * Starting from an empty reservation list, whatever the items' statuses,
   * every item is held by at most one live reservation after any sequence of
   * the engine's operations, in `reserved` while it is pending and in
   * `occupied` once it is confirmed.
   */
  lemma ExclusiveFromEmpty(itemStatus: seq<string>, listeners: map<string, seq<Listener>>, nextId: nat,
                           items: seq<VenueItem>, settings: Settings, ops: seq<Operation>)
    ensures var r := Run(EngineState([], itemStatus, listeners, [], nextId), items, settings, ops);
      && (forall k, id :: 0 <= k < |r.reservations| && r.reservations[k].status != CANCELLED && id in r.reservations[k].itemIds ==>
            0 <= IndexOfItem(items, id) < |r.itemStatus| && r.itemStatus[IndexOfItem(items, id)] == HeldStatus(r.reservations[k].status))
      && (forall k, l, id :: 0 <= k < l < |r.reservations| && id in r.reservations[k].itemIds && id in r.reservations[l].itemIds ==>
            r.reservations[k].status == CANCELLED || r.reservations[l].status == CANCELLED)
  {
    RunKeepsExclusive(EngineState([], itemStatus, listeners, [], nextId), items, settings, ops);
  }
}
