# Venue reservation system — a verified model

This project models the core of a JavaScript venue reservation library in Dafny. It covers five parts:

- **The reservation engine** (`lib/reservation-system.js`) and the objects it changes in place:
  - reservations (`lib/reservation.js`);
  - venue items (`lib/venue-item.js`);
  - the venue map (`lib/venue-map.js`).
- **The demo engine** (`demo/venue-reservation.js`): a separate, simplified engine with its own rules.
- **The legacy seat API** (`lib/seat.js`, `lib/seat-map.js`).
- **The reservation validator** (`utils/validators.js`).

## How the model is built

Each source class becomes a Dafny `class`:

- Fields the source writes are `var`s; the others are `const`s.
- Lists the source mutates are `seq` fields that the methods reassign.
- Thrown errors are the `Err` case of a `Result`, and `null`/`undefined` is `None` or `null`.

Each engine keeps a pure, value-level mirror of its state.

- The lib engine's mirror is `EngineStates.EngineState`. It holds:
  - the reservations as plain objects;
  - the status of every item in the map;
  - the registered listeners;
  - every listener call made so far;
  - the next fresh id.

  The demo engine's mirror is `DemoRules.DemoState`.
- Every state-changing method of an engine class is proved to leave exactly the state that the matching pure function computes: `Create`, `Confirm`, `Cancel`, `Cleanup`.
- It is also proved to return what that function's outcome says.
- The lemmas about those functions therefore hold for the classes. They cover:
  - the order of the admission checks;
  - atomic rejection;
  - the reservation life cycle;
  - idempotent cancellation;
  - the expiry sweep;
  - the per-item mutual-exclusion invariant.

The library engine and the demo engine are kept in separate modules because their rules differ.

- The demo engine admits items that are already `reserved`, so two pending reservations can hold the same item (`DoubleBooking`).
- The demo engine confirms a reservation from any status.
- The demo engine announces a repeated cancellation again.
- In the demo engine, a listener that throws escapes after the state has changed.

The validator reads `seatIds`, while reservations of the library engine carry `itemIds`. So every engine reservation fails validation with the seat message first (`EngineReservationsAlwaysInvalid`).

## Model

| member | source | states |
|---|---|---|
| VenueItems.Dimensions | lib/venue-item.js:45-63 | with neither metadata width nor height, the size comes from the type: 60×60 for a table, 80×40 for a booth, 30×30 otherwise; once either is given, that value is kept and a missing one becomes 30; neither is ever 0 |
| VenueItems.DimensionsIgnoreTypeWhenGiven | lib/venue-item.js:60-63 | once metadata gives a width or a height, the item type no longer affects the size |
| VenueItems.FromOptions | lib/venue-item.js:20-44 | constructor defaults: status `available`, type `seat`, shape `rect`, capacity 1, rotation 0; a given status is kept unvalidated; the size follows `Dimensions` |
| VenueItems.OptionsRoundTrip | lib/venue-item.js:192-208 | building an item from its own `toJSON` object gives back every field |
| VenueItems.VenueItem.constructor | lib/venue-item.js:20-64 | the new item's plain object is the options with the constructor's defaults applied |
| VenueItems.VenueItem.UpdateStatus | lib/venue-item.js:71-78 | accepts exactly the five item statuses and returns the item; any other value throws "Invalid item status: …" and leaves the status; only `status` may change |
| VenueItems.VenueItem.UpdatePosition | lib/venue-item.js:95-102 | sets x and y; rotation changes only when one is given |
| VenueItems.VenueItem.ToJSON | lib/venue-item.js:192-208 | the plain object carries the item's id and status, and a size consistent with its type and metadata |
| VenueMaps.RoundTrip | lib/venue-map.js:245-258 | `fromJSON(toJSON(m))` has the same items in the same order with the same fields, and the same zones; a falsy width or height becomes 800 or 600 |
| VenueMaps.VenueMap.constructor | lib/venue-map.js:16-23 | keeps the given items, size, background and metadata; zones are `metadata.zones`, or empty when absent |
| VenueMaps.VenueMap.AddItem | lib/venue-map.js:30-36 | a non-item (`null`) throws "Invalid venue item object" and changes nothing; otherwise the item is appended at the end |
| VenueMaps.VenueMap.RemoveItem | lib/venue-map.js:43-46 | every item with the id is removed; the others keep their order and multiplicity |
| VenueMaps.VenueMap.GetItemById | lib/venue-map.js:53-55 | the first item with the id, or null exactly when there is none |
| VenueMaps.VenueMap.GetItemAtPosition | lib/venue-map.js:63-72 | the highest-index item whose `containsPoint` holds; null exactly when none holds |
| VenueMaps.VenueMap.GetItemsByStatus | lib/venue-map.js:79-81 | an order-preserving subsequence holding exactly the items with that status, each as many times as the map holds it |
| VenueMaps.ItemsWithStatusCounts | lib/venue-map.js:79-81 | the status filter keeps every matching item as often as the map holds it and drops every other |
| VenueMaps.VenueMap.GetItemsByType | lib/venue-map.js:88-90 | an order-preserving subsequence holding exactly the items of that type, each as many times as the map holds it |
| VenueMaps.VenueMap.AddZone | lib/venue-map.js:101-104 | the zone is appended |
| VenueMaps.VenueMap.RemoveZone | lib/venue-map.js:111-114 | every zone with the id is removed; the others keep their order and multiplicity |
| VenueMaps.VenueMap.ToJSON | lib/venue-map.js:227-238 | every item's plain object, in order, with the current zones put into the metadata |
| VenueMaps.VenueMap.FromJSON | lib/venue-map.js:245-258 | builds a fresh map of fresh items whose plain object is `Rebuilt(json)`, which `RoundTrip` relates back to `json` |
| VenueMaps.VenueMap.BuildItems | lib/venue-map.js:246 | one fresh item per plain object, in order, each with the plain object its constructor makes of that entry |
| Reservations.FromOptions | lib/reservation.js:18-38 | constructor defaults: status `pending`, no items, empty customer, `createdAt` now; start, end and expiry are kept as given (`null` when absent) |
| Reservations.OptionsRoundTrip | lib/reservation.js:89-101 | building a reservation from its own `toJSON` object gives back every field |
| Reservations.WithItem | lib/reservation.js:45-50 | the id is present afterwards, nothing else is added, and the old list is an unchanged prefix |
| Reservations.WithItemIdempotent | lib/reservation.js:45-50 | adding an item twice is adding it once |
| Reservations.WithItemKeepsNoDuplicates | lib/reservation.js:45-50 | `addItem` never introduces a duplicate id |
| Reservations.Reservation.constructor | lib/reservation.js:18-38 | the new reservation's plain object is the options with the defaults applied |
| Reservations.Reservation.AddItem | lib/reservation.js:45-50 | the item list becomes `WithItem(old list, id)` |
| Reservations.Reservation.RemoveItem | lib/reservation.js:57-60 | the id is absent afterwards; the other ids keep their order and multiplicity |
| Reservations.Reservation.UpdateStatus | lib/reservation.js:67-74 | accepts exactly `pending`, `confirmed` and `cancelled`, from any status; anything else throws "Invalid reservation status: …" and leaves the status |
| Reservations.Reservation.IsExpired | lib/reservation.js:80-83 | a reservation without an expiry never expires; otherwise it expires once `now` is strictly later than `expiresAt` |
| Reservations.Reservation.ToJSON | lib/reservation.js:89-101 | the plain object carries the id, status and item ids unchanged |
| EngineStates.Deliveries | lib/reservation-system.js:321-330 | one emission calls every listener exactly once, in registration order |
| EngineStates.OverlapIsHalfOpenIntersection | lib/reservation-system.js:300-302 | for nonempty intervals, the three-disjunct overlap test is exactly half-open interval intersection `rs < e && s < re` |
| EngineStates.Unavailable | lib/reservation-system.js:43-46 | the ids whose item is missing or not `available`, in the order given and each as often as given, with every other id dropped; empty exactly when every item is available |
| EngineStates.SetStatusesById | lib/reservation-system.js:92-97 | after the status loop, an item named in the list has the new status and any other item keeps its own |
| EngineStates.AdmissionCheck | lib/reservation-system.js:41-72 | the first failing check in the engine's order: unavailable items (listing all of them), then too many items (only when the cap is truthy), then missing times, then end not after start, then an overlap unless overlaps are allowed; `None` exactly when all pass |
| EngineStates.OverlapCheckRedundant | lib/reservation-system.js:66-72 | while mutual exclusion holds, items that pass the availability check belong to no live reservation, so the overlap check never rejects |
| EngineStates.Create | lib/reservation-system.js:41-106 | a failing check throws its error and leaves the state unchanged; otherwise the new reservation is returned at the end of the list |
| EngineStates.AdmitAppendsPending | lib/reservation-system.js:74-105 | success appends exactly one reservation: pending, with the next fresh id, the given items, customer, times and metadata, created now and expiring after the configured minutes (never, when the setting is absent); its items become `reserved`, other items keep their status, and every `reservationCreated` listener is called once |
| EngineStates.ExpiryOf | lib/reservation-system.js:74-76 | an expiry exists exactly when the setting does; it lies a whole number of minutes from creation, and not before creation exactly when the setting is not negative |
| EngineStates.Hold | lib/reservation-system.js:78-100 | one pending reservation, with the next fresh id, the given items and creation time now, is appended after the old list; the item statuses keep their length; listeners and log are untouched; the id counter advances by one |
| EngineStates.Admit | lib/reservation-system.js:78-105 | reservations, items and id counter are as `Hold` leaves them; the log keeps its old entries and gains one `reservationCreated` entry per listener, each about the new reservation |
| EngineStates.Emit | lib/reservation-system.js:321-330 | only the log changes: it keeps its old entries and gains one entry per listener of the event, each naming a listener of that event, the event and the reservation |
| EngineStates.Exclusive | lib/reservation-system.js:91-170 | the mutual-exclusion invariant holds whenever no reservation is live, in particular when there are none |
| EngineStates.Transition | lib/reservation-system.js:128-173 | confirming or cancelling keeps every reservation id in its place, the listeners and the id counter |
| EngineStates.Cleanup | lib/reservation-system.js:251-263 | the count is at most the number of reservations; the sweep keeps the list's length and ids, the item statuses' length, the listeners and the id counter |
| EngineStates.AdmitKeepsExclusive | lib/reservation-system.js:92-97 | admitting available items keeps mutual exclusion and unique ids |
| EngineStates.CreateKeepsExclusive | lib/reservation-system.js:41-106 | creation keeps mutual exclusion and unique ids, whether it succeeds or throws |
| EngineStates.TransitionShape | lib/reservation-system.js:128-140 | a transition changes the status of one reservation only; the items it names take the new item status, other items keep theirs, and each listener of the event is called once |
| EngineStates.Confirm | lib/reservation-system.js:113-143 | a throw leaves the state unchanged; success returns the position of the reservation with that id |
| EngineStates.ConfirmOutcome | lib/reservation-system.js:113-126 | unknown id, then a status other than pending, then expiry, each throw their own error; confirmation succeeds exactly on a known, pending, unexpired reservation |
| EngineStates.ConfirmKeepsExclusive | lib/reservation-system.js:128-137 | confirmation keeps mutual exclusion (items go from `reserved` to `occupied`) and unique ids |
| EngineStates.Cancel | lib/reservation-system.js:150-176 | throws exactly on an unknown id, leaving the state unchanged; otherwise returns that reservation's position; ids, listeners and the next id never change |
| EngineStates.CancelIdempotent | lib/reservation-system.js:157-159 | cancelling twice is cancelling once: the second call returns the same reservation and changes nothing, emitting no event |
| EngineStates.CancelKeepsExclusive | lib/reservation-system.js:161-170 | cancellation keeps mutual exclusion and unique ids |
| EngineStates.StaleInMembers | lib/reservation-system.js:255-256 | the reservations the sweep counts are exactly the pending ones whose expiry lies before now |
| EngineStates.SweepCancelsNext | lib/reservation-system.js:255-260 | in the sweep, `cancelReservation` by id of the next stale reservation finds that reservation and yields the state swept one step further |
| EngineStates.CleanupCancelsExactlyStale | lib/reservation-system.js:251-263 | cleanup cancels exactly the pending reservations with `expiresAt < now`; confirmed, cancelled and unexpired ones are untouched, and none stale is left |
| EngineStates.CancellationLogIsAnnounced | lib/reservation-system.js:255-260 | the sweep's listener calls are one `reservationCancelled` emission per stale reservation, in list order |
| EngineStates.CleanupFreesAndAnnounces | lib/reservation-system.js:251-263 | an item held by a stale reservation becomes `available` and every other item keeps its status; the log grows by exactly one `reservationCancelled` emission to every listener per stale reservation, in list order |
| EngineStates.CleanupIsCancelEach | lib/reservation-system.js:255-260 | cleanup is `cancelReservation` applied to each stale reservation in list order |
| EngineStates.CleanupKeepsExclusive | lib/reservation-system.js:251-263 | cleanup keeps mutual exclusion and unique ids |
| EngineStates.MissingExpirySettingNeverExpires | lib/reservation-system.js:74-76 | with no `reservationExpiryMinutes` in the settings, a created reservation is never expired for confirmation and never swept |
| EngineStates.ApplyKeepsExclusive | lib/reservation-system.js:41-263 | create, confirm, cancel and cleanup each keep mutual exclusion and unique ids, whether they return or throw |
| EngineStates.RunKeepsExclusive | lib/reservation-system.js:41-263 | no sequence of engine operations breaks mutual exclusion or unique ids |
| EngineStates.ExclusiveFromEmpty | lib/reservation-system.js:41-263 | from an empty reservation list, after any operations, every item of a live reservation is `reserved` while it is pending and `occupied` once confirmed, and no item belongs to two live reservations |
| ReservationSystems.ConflictingIsOverlapExists | lib/reservation-system.js:295-304 | the overlap filter over the reservation objects is empty exactly when no plain object conflicts |
| ReservationSystems.UnavailableInIsUnavailable | lib/reservation-system.js:43-46 | the availability filter over the item objects picks the ids that the pure check picks from their statuses |
| ReservationSystems.ReservationSystem.constructor | lib/reservation-system.js:15-30 | a given settings object replaces the defaults wholesale (15, true, 10, false, 60 when none is given), so a setting it lacks is absent rather than defaulted; no listeners yet |
| ReservationSystems.ReservationSystem.On | lib/reservation-system.js:270-275 | the callback is appended to the event's listeners, creating the list when absent |
| ReservationSystems.ReservationSystem.Off | lib/reservation-system.js:282-285 | every registration of the callback for the event is removed; an unknown event is left alone |
| ReservationSystems.ReservationSystem.TriggerEvent | lib/reservation-system.js:321-330 | each listener of the event is called once, in order, and a throwing listener is swallowed; only the call log changes |
| ReservationSystems.ReservationSystem.SetItemStatuses | lib/reservation-system.js:92-97 | the status loop changes the state exactly as `SetStatuses` says |
| ReservationSystems.ReservationSystem.UpdateItems | lib/reservation-system.js:132-137 | the item `getItemById` finds for each id takes the status; every other item object keeps its own |
| ReservationSystems.ReservationSystem.GetReservationById | lib/reservation-system.js:183-185 | the first reservation with the id, or null exactly when there is none |
| ReservationSystems.ReservationSystem.LookupFindsItself | lib/reservation-system.js:183-185 | with unique ids, the lookup by a reservation's id returns that reservation |
| ReservationSystems.ReservationSystem.GetReservationsByCustomer | lib/reservation-system.js:192-194 | an order-preserving subsequence holding exactly the reservations whose customer has that id |
| ReservationSystems.ReservationSystem.GetReservationsInTimeRange | lib/reservation-system.js:202-210 | an order-preserving subsequence holding exactly the live reservations that pass the overlap test |
| ReservationSystems.ReservationSystem.GetReservationsForItem | lib/reservation-system.js:217-219 | an order-preserving subsequence holding exactly the live reservations that contain the item |
| ReservationSystems.ReservationSystem.FindOverlapping | lib/reservation-system.js:295-304 | exactly the live reservations that share an item and overlap, in order; empty exactly when no conflict exists |
| ReservationSystems.ReservationSystem.IsItemAvailableForTimeRange | lib/reservation-system.js:228-245 | false for a missing, disabled or maintenance item; otherwise true exactly when no live reservation of the item overlaps the range; `reserved`/`occupied` status plays no part |
| ReservationSystems.ReservationSystem.Push | lib/reservation-system.js:100 | the reservation is appended and ids stay unique |
| ReservationSystems.ReservationSystem.GenerateId | lib/reservation-system.js:311-313 | returns an id never used before and uses it up |
| ReservationSystems.ReservationSystem.NewPending | lib/reservation-system.js:74-89 | a fresh reservation whose plain object is pending, with the next id, the given fields, created now and expiring after the configured minutes |
| ReservationSystems.ReservationSystem.Record | lib/reservation-system.js:79-100 | the state becomes `Hold`: reservation appended, its items `reserved` |
| ReservationSystems.ReservationSystem.AddReservation | lib/reservation-system.js:74-105 | the state becomes `Admit`: held, then `reservationCreated` emitted |
| ReservationSystems.ReservationSystem.CheckAdmission | lib/reservation-system.js:42-72 | returns exactly the first failing admission check, without changing anything |
| ReservationSystems.ReservationSystem.CreateReservation | lib/reservation-system.js:41-106 | the new state and the result are those of `Create`; on success a fresh reservation is appended at the end |
| ReservationSystems.ReservationSystem.SetStatusAt | lib/reservation-system.js:129 | only the status of the one reservation changes |
| ReservationSystems.ReservationSystem.ApplyTransition | lib/reservation-system.js:128-140 | the state becomes the pure `Transition` |
| ReservationSystems.ReservationSystem.ConfirmReservation | lib/reservation-system.js:113-143 | the new state and the result are those of `Confirm` |
| ReservationSystems.ReservationSystem.CancelReservation | lib/reservation-system.js:150-176 | the new state and the result are those of `Cancel` |
| ReservationSystems.ReservationSystem.CleanupAt | lib/reservation-system.js:256-259 | one turn of the sweep advances the state and the count by one reservation |
| ReservationSystems.ReservationSystem.CleanupExpiredReservations | lib/reservation-system.js:251-263 | the count and new state are those of `Cleanup`; the reservation list itself is not replaced |
| DemoVenues.VenueItem.constructor | demo/venue-reservation.js:5-19 | every falsy option takes its default: an available 30×30 rectangular seat, capacity 1, in section `main` |
| DemoVenues.VenueMap.constructor | demo/venue-reservation.js:24-30 | an empty map, 800×600 unless given, with the given zones and background |
| DemoVenues.VenueMap.AddItem | demo/venue-reservation.js:32-35 | appends the item without any check and returns it |
| DemoVenues.VenueMap.GetItemById | demo/venue-reservation.js:37-39 | the first item with the id, or `undefined` exactly when there is none |
| DemoVenues.VenueMap.GetItemsByType | demo/venue-reservation.js:41-43 | an order-preserving subsequence holding exactly the items of that type, each as many times as the map holds it |
| DemoVenues.VenueMap.GetItemsByStatus | demo/venue-reservation.js:45-47 | an order-preserving subsequence holding exactly the items with that status, each as many times as the map holds it |
| DemoVenues.WithStatusCounts | demo/venue-reservation.js:45-47 | the status filter keeps every matching item as often as the map holds it and drops every other |
| DemoVenues.VenueMap.GetItemsBySection | demo/venue-reservation.js:49-51 | an order-preserving subsequence holding exactly the items of that section, each as many times as the map holds it |
| DemoRules.Merge | demo/venue-reservation.js:74-80 | a setting given in the options overrides its default; one not given keeps 15, 10, false or 120 |
| DemoRules.FromOptions | demo/venue-reservation.js:56-66 | constructor defaults: a random id, an empty customer, now for missing instants, status `pending` |
| DemoRules.Emit | demo/venue-reservation.js:180-186 | only the call log changes |
| DemoRules.EmitStopsAtThrower | demo/venue-reservation.js:180-186 | a throwing listener stops the emission: the calls end with it, and its exception escapes |
| DemoRules.EmitQuiet | demo/venue-reservation.js:180-186 | when no listener throws, each is called once in order and the operation returns |
| DemoRules.SetStatusesById | demo/venue-reservation.js:120-123 | after the marking loop, an item named in the list has the new status and any other item keeps its own |
| DemoRules.FirstMissingSpec | demo/venue-reservation.js:140-143 | the marking loop reaches exactly the ids before the first one that names no item |
| DemoRules.ItemCheckSpec | demo/venue-reservation.js:90-98 | the item loop passes exactly when every id names an item that is `available` or `reserved`; otherwise it reports the first id that does not, as missing or not available |
| DemoRules.ItemCheck | demo/venue-reservation.js:90-98 | an error from the item loop is "not found" or "not available" for an id the call asked for, and "not found" only for an id no item has |
| DemoRules.FirstThrower | demo/venue-reservation.js:182-184 | the listener that stops the loop is one of the listeners, or the loop runs through all of them |
| DemoRules.Hold | demo/venue-reservation.js:110-125 | one pending record with the next id, the given items, customer, times and creation time now is appended after the old records; the item statuses keep their length; listeners and log are untouched; the id counter advances by one |
| DemoRules.Transition | demo/venue-reservation.js:130-166 | confirming or cancelling keeps the number of records, the listeners and the id counter, whether it succeeds or throws |
| DemoRules.Known | demo/venue-reservation.js:70-86 | with no reservations, the invariant reduces to one status per item of the map |
| DemoRules.CheckedItemsFound | demo/venue-reservation.js:90-123 | every id the item loop lets through names an item, so the marking loop never meets `undefined` |
| DemoRules.Create | demo/venue-reservation.js:88-128 | creation never changes the listeners |
| DemoRules.CreateOutcome | demo/venue-reservation.js:88-128 | item errors come before the customer check, which comes before the date check, and each leaves the state unchanged; with no max-items, overlap or expiry check, success appends a pending record with the next id, sets every item of `itemIds` to `reserved` and keeps the other items' statuses, and the call returns it exactly when no listener throws, after calling every `reservationCreated` listener once in order |
| DemoRules.TransitionShape | demo/venue-reservation.js:136-137 | a transition changes only the status and update time of the one record |
| DemoRules.Confirm | demo/venue-reservation.js:130-147 | only an unknown id is refused, and that changes nothing |
| DemoRules.Cancel | demo/venue-reservation.js:149-166 | only an unknown id is refused, and that changes nothing |
| DemoRules.KnownTransitionFindsAll | demo/venue-reservation.js:139-145 | while every reservation's items are in the map, a transition's marking loop finds them all, sets them to the new status, and the call returns after calling every listener |
| DemoRules.KnownTransitions | demo/venue-reservation.js:130-166 | under that invariant, confirm and cancel never throw on a missing item, and they keep the invariant |
| DemoRules.KnownCreate | demo/venue-reservation.js:88-128 | creation keeps the invariant |
| DemoRules.KnownAddItem | demo/venue-reservation.js:32-35 | adding an item to the map keeps the invariant |
| DemoRules.DoubleBooking | demo/venue-reservation.js:95-127 | two creations over the same items both succeed, whatever their times, leaving two pending reservations that share those items |
| DemoRules.ConfirmFromAnyStatus | demo/venue-reservation.js:130-147 | a known reservation in any status, even `cancelled`, becomes `confirmed`, and all its items become `occupied` |
| DemoRules.CancelTwiceAnnouncesTwice | demo/venue-reservation.js:149-166 | a second cancel finds the same reservation, leaves records and items as they were (except the update time), and announces the cancellation again |
| DemoRules.CancelFreesSharedItem | demo/venue-reservation.js:158-162 | cancelling one of two reservations that share an item makes the item `available`, although the other reservation still holds it |
| DemoRules.RunKeepsKnown | demo/venue-reservation.js:88-166 | no sequence of demo operations breaks the invariant |
| DemoRules.KnownInitially | demo/venue-reservation.js:70-86 | a new system, with no reservations and empty lists for the three events, satisfies the invariant |
| DemoSystems.Reservation.constructor | demo/venue-reservation.js:56-66 | the fields are the options with the demo defaults applied |
| DemoSystems.ReservationSystem.constructor | demo/venue-reservation.js:71-86 | no reservations, settings merged over the defaults, empty listener lists for the three events, and a new empty map unless one is given |
| DemoSystems.ReservationSystem.On | demo/venue-reservation.js:174-178 | appends the callback for one of the three events; a name that is neither one of them nor inherited from `Object.prototype` is silently ignored |
| DemoSystems.ReservationSystem.CallListeners | demo/venue-reservation.js:182-184 | calls the listeners in order, up to and including the first that throws, and reports which one threw |
| DemoSystems.ReservationSystem.EmitEvent | demo/venue-reservation.js:180-186 | the new state and the outcome are those of the pure `Emit` |
| DemoSystems.ReservationSystem.UpdateItems | demo/venue-reservation.js:140-143 | the items found for the ids before the first missing one take the status, other items keep theirs, and the missing id is reported |
| DemoSystems.ReservationSystem.UpdateStatuses | demo/venue-reservation.js:159-162 | the status sequence becomes `SetStatuses` over the ids the loop reached |
| DemoSystems.ReservationSystem.MarkItems | demo/venue-reservation.js:120-123 | only the item statuses change, as `SetStatuses` over the ids the loop reached |
| DemoSystems.ReservationSystem.CheckItems | demo/venue-reservation.js:90-98 | returns exactly the pure `ItemCheck`: the first missing or unavailable id |
| DemoSystems.ReservationSystem.NewId | demo/venue-reservation.js:57 | returns an id never used before and uses it up |
| DemoSystems.ReservationSystem.Push | demo/venue-reservation.js:125 | the reservation is appended and ids stay unique |
| DemoSystems.ReservationSystem.NewReservation | demo/venue-reservation.js:111-117 | a fresh reservation whose fields are what the demo constructor makes of the options `createReservation` passes |
| DemoSystems.ReservationSystem.Book | demo/venue-reservation.js:110-125 | the state becomes `Hold`: record appended, its items `reserved` |
| DemoSystems.ReservationSystem.Admit | demo/venue-reservation.js:110-127 | the state and result are `Hold` followed by the `reservationCreated` emission |
| DemoSystems.ReservationSystem.CreateReservation | demo/venue-reservation.js:88-128 | the new state and the result are those of `Create` |
| DemoSystems.ReservationSystem.GetReservationById | demo/venue-reservation.js:131 | the first reservation with the id, or `undefined` exactly when there is none |
| DemoSystems.ReservationSystem.SetStatusAt | demo/venue-reservation.js:136-137 | only the status and update time of the one reservation change |
| DemoSystems.ReservationSystem.ApplyTransition | demo/venue-reservation.js:136-146 | the state and result are those of the pure `Transition` |
| DemoSystems.ReservationSystem.ConfirmReservation | demo/venue-reservation.js:130-147 | the new state and the result are those of `Confirm` |
| DemoSystems.ReservationSystem.CancelReservation | demo/venue-reservation.js:149-166 | the new state and the result are those of `Cancel` |
| DemoSystems.ReservationSystem.IsItemAvailableForTimeRange | demo/venue-reservation.js:168-172 | ignores the time range: true exactly when the first item with the id exists and is `available` |
| Seats.Box | lib/seat.js:24-26 | metadata width and height, or 30 when falsy; metadata shape, or `rect` |
| Seats.FromOptions | lib/seat.js:16-27 | constructor defaults: position (0, 0), status `available` (unvalidated when given), type `standard`, empty metadata with a 30×30 `rect` box |
| Seats.OptionsRoundTrip | lib/seat.js:67-80 | building a seat from its own `toJSON` object gives back every field |
| Seats.Seat.constructor | lib/seat.js:16-27 | the new seat's plain object is the options with the defaults applied |
| Seats.Seat.UpdateStatus | lib/seat.js:34-41 | accepts exactly `available`, `reserved`, `sold` and `disabled`; anything else throws "Invalid seat status: …" and leaves the status; the seat is available afterwards exactly when the accepted status is `available` |
| Seats.Seat.UpdatePosition | lib/seat.js:57-61 | only x and y change in the seat's plain object |
| Seats.Seat.ToJSON | lib/seat.js:67-80 | carries the id, label, position, status, type and metadata, with a box consistent with the metadata |
| SeatMaps.IndexOfSeatAppend | lib/seat-map.js:50-52 | after an append, the id lookup still returns the first match; the new seat is found only when no earlier seat has its id |
| SeatMaps.RemoveKeepsOtherLookups | lib/seat-map.js:40-43 | removing the seats with one id does not change which seat any other id finds |
| SeatMaps.IndexOfCovering | lib/seat-map.js:60-71 | the lowest index whose box contains the point, boundaries included; -1 exactly when none does |
| SeatMaps.SeatMap.constructor | lib/seat-map.js:15-20 | keeps the given seats; width and height default to 800 and 600, metadata to empty |
| SeatMaps.SeatMap.AddSeat | lib/seat-map.js:27-33 | a non-seat (`null`) throws "Invalid seat object" and changes nothing; otherwise the seat is appended |
| SeatMaps.SeatMap.RemoveSeat | lib/seat-map.js:40-43 | afterwards no seat has the id; the others keep their order and multiplicity |
| SeatMaps.SeatMap.GetSeatById | lib/seat-map.js:50-52 | the first seat with the id, or null exactly when there is none |
| SeatMaps.SeatMap.GetSeatAtPosition | lib/seat-map.js:60-71 | the first, lowest-index seat whose box contains the point, boundaries included; null exactly when none does |
| SeatMaps.SeatMap.GetSeatsByStatus | lib/seat-map.js:78-80 | an order-preserving subsequence holding exactly the seats with that status, each as many times as the map holds it |
| SeatMaps.SeatsWithStatusCounts | lib/seat-map.js:78-80 | the status filter keeps every matching seat as often as the map holds it and drops every other |
| SeatMaps.SeatMap.ToJSON | lib/seat-map.js:148-155 | every seat's plain object, in order, with the map's size and metadata |
| Validators.ValidEmailMatches | utils/validators.js:52-55 | an address `isValidEmail` accepts splits as `^[^\s@]+@[^\s@]+\.[^\s@]+$` requires |
| Validators.MatchingEmailValid | utils/validators.js:52-55 | an address split as the regular expression requires is accepted |
| Validators.IsValidEmailMatchesPattern | utils/validators.js:52-55 | `isValidEmail` accepts exactly the strings the regular expression matches |
| Validators.IsValidEmail | utils/validators.js:52-55 | an accepted address has at least five characters, contains `@`, and has no whitespace |
| Validators.CheckEmail | utils/validators.js:29-33 | at most one email message: "required" for a missing required email, otherwise "invalid" for a malformed one |
| Validators.CheckCustomer | utils/validators.js:24-38 | the name, email and phone messages of a present customer, in that order |
| Validators.ValidateReservation | utils/validators.js:10-44 | the errors are exactly `ValidationErrors`, in check order; `isValid` holds exactly when there are none |
| Validators.ValidationErrors | utils/validators.js:14-38 | no message only for a present customer and a nonempty seat list; a missing customer is always reported; a missing or empty seat list is reported first |
| Validators.SeatErrorFirst | utils/validators.js:16-19 | the seat message appears exactly for a missing or empty seat list, and then it comes first |
| Validators.MissingCustomerOnly | utils/validators.js:22-23 | a missing customer gives its one message and no name, email or phone message |
| Validators.EmailErrorsExclusive | utils/validators.js:29-33 | "required" and "invalid" never both appear |
| Validators.CustomerFieldErrors | utils/validators.js:21-38 | each customer message appears exactly under its own condition; name and email are required unless switched off, phone only when switched on |
| Validators.AtMostFourErrors | utils/validators.js:14-44 | there are never more than four messages |
| Validators.EngineReservationsAlwaysInvalid | utils/validators.js:17-19 | a reservation of the engine, which names its items `itemIds`, always fails validation, with the seat message first |

## Left out

- Rendering is not modelled: the `toSVG` methods, canvas output and the renderers. They only build strings and draw calls.
- Floating-point geometry is not modelled: `VenueItem.containsPoint` and `_pointInPolygon`, which use trigonometry, and `VenueMap.getItemsInZone`. `VenueMaps.VenueMap.GetItemAtPosition` takes `containsPoint` as a parameter instead.
- The layout generators, the examples and the demo's app glue are not modelled. They produce item lists from random and trigonometric input, or drive the DOM.
- The clock is a parameter. `new Date()` and `Date.now()` become a `now: int` in milliseconds. Expiry is modelled as `now + minutes * 60000`, which is what `setMinutes` computes for a numeric setting when no daylight-saving change falls in between. A settings object without `reservationExpiryMinutes` makes `setMinutes` produce an invalid date. Like `null`, it never compares as expired, so both are modelled as `None`.
- `EngineStates.ExpiryOf`: local-time arithmetic is not modelled. `setMinutes` works on the local wall clock, so across a daylight-saving change the expiry is off by the change. When clocks fall back, a short expiry can even lie before creation; `confirmReservation` then throws "expired" and `cleanupExpiredReservations` sweeps the reservation at once.
- `ReservationSystems.ReservationSystem.On`: an event name inherited from `Object.prototype` (such as `toString` or `constructor`) is not modelled. The source finds the inherited value, and its `push` call throws a `TypeError`; the model appends the callback under that name.
- `ReservationSystems.ReservationSystem.Off`: an event name inherited from `Object.prototype` is not modelled. The source's `filter` call on the inherited value throws a `TypeError`; the model leaves the listeners unchanged.
- `DemoSystems.ReservationSystem.On`: an event name inherited from `Object.prototype` is not modelled. The source finds the inherited value, and its `push` call throws a `TypeError`; the model ignores the name.
- Method chaining is not modelled everywhere. `VenueMaps.VenueMap.RemoveItem`, `VenueMaps.VenueMap.AddZone`, `VenueMaps.VenueMap.RemoveZone`, `Reservations.Reservation.AddItem`, `Reservations.Reservation.RemoveItem` and `VenueItems.VenueItem.UpdatePosition` return nothing, while the source returns `this`. Their state change is modelled in full, and a caller can keep using the same object.
- Ids are a counter, not random. The random ids of both engines become a counter `nextId` that always yields an unused id. Collisions of the random ids are not modelled.
- Listeners are not run. A callback is known by its identity, and an emission appends one call record per listener to a log.
  - In the demo, a callback also says whether it throws.
  - `console.error` is not modelled.
- `ReservationSystems.ReservationSystem.constructor`: requires that the initial reservations have distinct ids, which the source does not check. The engine looks reservations up by id, so with duplicate ids cleanup could cancel a reservation other than the one it is scanning.
- Aliasing of the caller's arrays is not modelled. The lib engine, `VenueMap` and `SeatMap` store the array they are given, and later pushes are visible to the caller. In the model the collection is a value field of the object.
- Item objects that several maps share are not modelled.
- Falsy values are modelled per field:
  - absent options are `None`;
  - absent strings are `""`;
  - absent numbers are 0, and 0 is treated as falsy where the source writes `||`. The expiry setting is the exception: it is an `Option`.
  - `NaN` and non-integer coordinates are not modelled, because coordinates are integers.
  - Seat boxes compare doubled coordinates so that half widths stay exact.
- A time of 0 is not modelled as falsy. Times are `Option<int>` in both engines, and a present time of 0 counts as present. The source would treat a bare `0` as missing, but callers pass `Date` objects, which are always truthy.
- `instanceof` checks are not modelled as such. "Not a `VenueItem`" and "not a `Seat`" are modelled as `null`, the only non-object the typed model can pass.
- `VenueItems.VenueItem.IsAvailable`, `Seats.Seat.IsAvailable` and `Reservations.Expired` are plain predicates without a contract of their own. Their definitions are the source's one-line tests.
- `VenueMaps.VenueMap.constructor`: the destructuring defaults (`items = []`, `width = 800`, `height = 600`, `backgroundImage = null`, `metadata = {}`) are not modelled. Every value comes from the caller, which passes the default itself.
- `ReservationSystems.ReservationSystem.constructor`: the defaults `venueMap = new VenueMap({})` and `reservations = []` are not modelled. The caller passes a map and a list. Only the settings default is modelled.
- `Validators.ValidateReservation`: a `null` or `undefined` reservation is not modelled. The candidate is always present, while the source throws a `TypeError` reading `reservation.seatIds`.
- `Validators.ValidateReservation`: the options object is always present. The source destructures its second parameter, so a call without one throws; that case is not modelled.
- The validator's other input shapes are not modelled: a customer that is a non-object truthy value, and a `seatIds` that is a non-array truthy value.
- The seat map's `toSVG` and the legacy helpers after line 80 of `lib/seat-map.js` are not modelled, apart from `toJSON`.
