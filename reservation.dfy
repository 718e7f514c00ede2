/**
 * A reservation: the items it binds, its customer and time interval, its
 * status and the instant it expires while pending.
 */
module Reservations {
  import opened Common

  /** An instant, in milliseconds; the source only ever compares instants. */
  type Time = int

  const PENDING := "pending"
  const CONFIRMED := "confirmed"
  const CANCELLED := "cancelled"

  /** The statuses `updateStatus` accepts; the constructor accepts any string. */
  const ReservationStatuses: seq<string> := [PENDING, CONFIRMED, CANCELLED]

  /** The customer record; an empty string stands for an absent field. */
  datatype Customer = Customer(id: Option<string>, name: string, email: string, phone: string)

  /** `{}`, the customer a reservation gets when none is given. */
  const NoCustomer := Customer(None, "", "", "")

  /**
   * The options object of the constructor; `None` is a property left
   * `undefined`. Start, end and expiry times default to `null`, which is also
   * `None`, so one `Option` suffices for them.
   */
  datatype ReservationOptions = ReservationOptions(
    id: nat, itemIds: Option<seq<string>>, status: Option<string>, customer: Option<Customer>,
    startTime: Option<Time>, endTime: Option<Time>, createdAt: Option<Time>,
    expiresAt: Option<Time>, metadata: Option<map<string, string>>)

  /** The plain object `toJSON` returns. */
  datatype ReservationJson = ReservationJson(
    id: nat, itemIds: seq<string>, status: string, customer: Customer,
    startTime: Option<Time>, endTime: Option<Time>, createdAt: Time,
    expiresAt: Option<Time>, metadata: map<string, string>)

  /** The fields of a freshly constructed reservation: the constructor's defaults applied to `o`. */
  function FromOptions(o: ReservationOptions, now: Time): (j: ReservationJson)
    ensures j.id == o.id
    ensures o.status.None? ==> j.status == PENDING
    ensures o.itemIds.None? ==> j.itemIds == []
    ensures o.customer.None? ==> j.customer == NoCustomer
    ensures o.createdAt.None? ==> j.createdAt == now
    ensures j.startTime == o.startTime && j.endTime == o.endTime && j.expiresAt == o.expiresAt
  {
    ReservationJson(o.id, OrElse(o.itemIds, []), OrElse(o.status, PENDING), OrElse(o.customer, NoCustomer),
                    o.startTime, o.endTime, OrElse(o.createdAt, now), o.expiresAt, OrElse(o.metadata, map[]))
  }

  /** A plain object read back as constructor options. */
  function AsOptions(j: ReservationJson): ReservationOptions {
    ReservationOptions(j.id, Some(j.itemIds), Some(j.status), Some(j.customer), j.startTime, j.endTime,
                       Some(j.createdAt), j.expiresAt, Some(j.metadata))
  }

  /** Constructing a reservation from its own plain object gives back every field unchanged. */
  lemma OptionsRoundTrip(j: ReservationJson, now: Time)
    ensures FromOptions(AsOptions(j), now) == j
  {
  }

  /** `itemIds` after `addItem(itemId)`: appended only when absent. */
  function WithItem(itemIds: seq<string>, itemId: string): (r: seq<string>)
    ensures itemId in r
    ensures forall x :: x in r <==> x in itemIds || x == itemId
    ensures |itemIds| <= |r| <= |itemIds| + 1 && r[..|itemIds|] == itemIds
  {
    if itemId in itemIds then itemIds else itemIds + [itemId]
  }

  /** No id occurs twice. */
  predicate NoDuplicates(ids: seq<string>) {
    forall i, j :: 0 <= i < j < |ids| ==> ids[i] != ids[j]
  }

  /** Adding an item twice is adding it once. */
  lemma WithItemIdempotent(itemIds: seq<string>, itemId: string)
    ensures WithItem(WithItem(itemIds, itemId), itemId) == WithItem(itemIds, itemId)
  {
  }

  /** `addItem` never introduces a duplicate. */
  lemma WithItemKeepsNoDuplicates(itemIds: seq<string>, itemId: string)
    requires NoDuplicates(itemIds)
    ensures NoDuplicates(WithItem(itemIds, itemId))
  {
  }

  /**
   * `isExpired()` at instant `now`: a reservation without expiry never expires;
   * otherwise it has expired once `now` is strictly past `expiresAt`.
   */
  predicate Expired(expiresAt: Option<Time>, now: Time) {
    expiresAt.Some? && now > expiresAt.value
  }

  class Reservation {
    const id: nat
    var itemIds: seq<string>
    var status: string
    const customer: Customer
    const startTime: Option<Time>
    const endTime: Option<Time>
    const createdAt: Time
    const expiresAt: Option<Time>
    const metadata: map<string, string>

    /** The constructor applies the defaults (`createdAt` is `now`) and does not validate `status`. */
    constructor (o: ReservationOptions, now: Time)
      ensures ToJSON() == FromOptions(o, now)
    {
      var j := FromOptions(o, now);
      id, itemIds, status, customer := j.id, j.itemIds, j.status, j.customer;
      startTime, endTime, createdAt := j.startTime, j.endTime, j.createdAt;
      expiresAt, metadata := j.expiresAt, j.metadata;
    }

    /** Appends `itemId` unless it is already there. */
    method AddItem(itemId: string)
      modifies this`itemIds
      ensures itemIds == WithItem(old(itemIds), itemId)
    {
      if itemId !in itemIds {
        itemIds := itemIds + [itemId];
      }
    }

    /** Removes every occurrence of `itemId` and keeps the other ids in order. */
    method RemoveItem(itemId: string)
      modifies this`itemIds
      ensures itemId !in itemIds
      ensures Subsequence(itemIds, old(itemIds))
      ensures forall x :: x in old(itemIds) && x != itemId ==> multiset(itemIds)[x] == multiset(old(itemIds))[x]
    {
      itemIds := Without(itemIds, itemId);
    }

    /** Sets any of the three statuses, with no restriction on the transition; anything else throws. */
    method UpdateStatus(newStatus: string) returns (r: Result<Reservation, string>)
      modifies this`status
      ensures newStatus in ReservationStatuses ==> r == Ok(this) && status == newStatus
      ensures newStatus !in ReservationStatuses ==>
        r == Err("Invalid reservation status: " + newStatus) && status == old(status)
    {
      if newStatus !in ReservationStatuses {
        return Err("Invalid reservation status: " + newStatus);
      }
      status := newStatus;
      r := Ok(this);
    }

    /** `isExpired()`, with the current instant passed in. */
    predicate IsExpired(now: Time)
      ensures IsExpired(now) ==> expiresAt.Some?
    {
      Expired(expiresAt, now)
    }

    function ToJSON(): (j: ReservationJson)
      reads this
      ensures j.id == id && j.status == status && j.itemIds == itemIds
    {
      ReservationJson(id, itemIds, status, customer, startTime, endTime, createdAt, expiresAt, metadata)
    }
  }
}
