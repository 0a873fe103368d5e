/**
 * Ticket inventory on Redis (redis/inventory/all.py).
 *
 * An event is the hash `events:<name>` with the fields capacity, available,
 * price and reservations, plus one pair of fields
 * `reservations-user:<user>` / `reservations-ts:<user>` per open hold.
 * Orders go to the list `orders:<name>` (part two) or, in part four, to
 * the string `purchase_orders:<id>` with the id pushed on `pending:<name>`.
 * Posting feeds the sets `invoices:<who>` and `sales:<name>`, the counter
 * `<name>:total_tickets_sold` of the hash `sales_summary` and two BITFIELD
 * histograms of unsigned 8-bit counters, one per hour of the day.
 *
 * A missing hash field is `None`. HINCRBY treats it as 0, HSETNX writes
 * only into it. A list or set that becomes empty no longer exists.
 */
module RedisTickets {
  import opened Wrappers
  import opened Tokens
  import opened MapSums

  datatype EventHash = EventHash(
    capacity: Option<int>,
    available: Option<int>,
    price: Option<int>,
    reservations: Option<int>,
    heldQty: map<string, int>,   // reservations-user:<user>
    heldTs: map<string, int>)    // reservations-ts:<user>

  const NoHash: EventHash := EventHash(None, None, None, None, map[], map[])

  /** The JSON order; `event` is present only in the orders of part four. */
  datatype Order = Order(who: string, qty: int, ts: int, cost: int, orderId: string, event: Option<string>)

  datatype Outcome = Done | NotEnough | TypeError | NameError | WriteConflict

  /** What the first transaction of `reserve` binds once stock suffices. */
  datatype Quote = Quote(orderId: string, price: int)

  /** The keys that posting writes: invoices:<who>, sales:<name>, the tickets-sold counters of sales_summary and the two histograms. */
  datatype Ledger = Ledger(
    invoices: map<string, set<string>>,
    sales: map<string, set<string>>,
    ticketsSold: map<string, int>,
    histogram: map<nat, int>,
    eventHistograms: map<string, map<nat, int>>)

  function HashOf(events: map<string, EventHash>, name: string): EventHash
  {
    if name in events then events[name] else NoHash
  }

  function ListOf<T>(lists: map<string, seq<T>>, key: string): seq<T>
  {
    if key in lists then lists[key] else []
  }

  function SetOf(sets: map<string, set<string>>, key: string): set<string>
  {
    if key in sets then sets[key] else {}
  }

  function CountOf(counters: map<string, int>, key: string): int
  {
    if key in counters then counters[key] else 0
  }

  /** A list that becomes empty is deleted. */
  function PutList<T>(lists: map<string, seq<T>>, key: string, l: seq<T>): map<string, seq<T>>
  {
    if l == [] then lists - {key} else lists[key := l]
  }

  // ---------------------------------------------------------------------
  // Lists: LPUSH at the head, RPOP at the tail
  // ---------------------------------------------------------------------

  function LPush<T>(lists: map<string, seq<T>>, key: string, x: T): (r: map<string, seq<T>>)
    ensures ListOf(r, key) == [x] + ListOf(lists, key)
    ensures forall k :: k != key ==> ListOf(r, k) == ListOf(lists, k)
  {
    lists[key := [x] + ListOf(lists, key)]
  }

  /** LPUSH of each element in turn. */
  function PushAll<T>(l: seq<T>, xs: seq<T>): seq<T>
    decreases |xs|
  {
    if xs == [] then l else PushAll([xs[0]] + l, xs[1..])
  }

  /** What RPOP returns, call after call, until the list is empty. */
  function PopAll<T>(l: seq<T>): seq<T>
    decreases |l|
  {
    if l == [] then [] else [l[|l| - 1]] + PopAll(l[..|l| - 1])
  }

  lemma {:induction false} PopAllPushed<T>(x: T, l: seq<T>)
    ensures PopAll([x] + l) == PopAll(l) + [x]
    decreases |l|
  {
    if l == [] {
      assert ([x] + l)[..0] == [];
    } else {
      var n := |l|;
      assert ([x] + l)[..n] == [x] + l[..n - 1];
      PopAllPushed(x, l[..n - 1]);
    }
  }

  /** The pending list is first in, first out: what is pushed comes back in the same order, after what was already there. */
  lemma {:induction false} PendingIsFifo<T>(l: seq<T>, xs: seq<T>)
    ensures PopAll(PushAll(l, xs)) == PopAll(l) + xs
    decreases |xs|
  {
    if xs != [] {
      PendingIsFifo([xs[0]] + l, xs[1..]);
      PopAllPushed(xs[0], l);
      assert xs == [xs[0]] + xs[1..];
    }
  }

  // ---------------------------------------------------------------------
  // Hash fields
  // ---------------------------------------------------------------------

  function SetNx(f: Option<int>, v: int): Option<int>
  {
    if f.Some? then f else Some(v)
  }

  function IncrBy(f: Option<int>, delta: int): Option<int>
  {
    Some(f.GetOr(0) + delta)
  }

  function Avail(h: EventHash): int { h.available.GetOr(0) }

  function Held(h: EventHash): int { h.reservations.GetOr(0) }

  function Qty(q: int): int { q }

  /** `create_event`: HSETNX of capacity, available and price. */
  function Created(h: EventHash, available: int, price: int): EventHash
  {
    h.(capacity := SetNx(h.capacity, available), available := SetNx(h.available, available),
       price := SetNx(h.price, price))
  }

  /** A second `create_event` never overwrites what the first one set. */
  lemma CreateEventNeverOverwrites(h: EventHash, available: int, price: int, available2: int, price2: int)
    ensures Created(Created(h, available, price), available2, price2) == Created(h, available, price)
    ensures h.capacity.Some? ==> Created(h, available, price).capacity == h.capacity
    ensures h.available.Some? ==> Created(h, available, price).available == h.available
    ensures h.price.Some? ==> Created(h, available, price).price == h.price
  {
  }

  /** `check_availability_and_purchase`: HINCRBY available by −qty. */
  function Purchased(h: EventHash, qty: int): EventHash
  {
    h.(available := IncrBy(h.available, -qty))
  }

  /** The first transaction of `reserve`: the counters move and the per-user fields are set only if absent. */
  function Reserved(h: EventHash, user: string, qty: int, now: int): EventHash
  {
    h.(available := IncrBy(h.available, -qty), reservations := IncrBy(h.reservations, qty),
       heldQty := if user in h.heldQty then h.heldQty else h.heldQty[user := qty],
       heldTs := if user in h.heldTs then h.heldTs else h.heldTs[user := now])
  }

  /** The confirm transaction of `reserve`: the hold is released into an order. */
  function Confirmed(h: EventHash, user: string, qty: int): EventHash
  {
    h.(reservations := IncrBy(h.reservations, -qty), heldQty := h.heldQty - {user}, heldTs := h.heldTs - {user})
  }

  /** `backout_reservation`: the tickets go back on sale, whatever the hold was. */
  function BackedOut(h: EventHash, user: string, qty: int): EventHash
  {
    h.(available := IncrBy(h.available, qty), reservations := IncrBy(h.reservations, -qty),
       heldQty := h.heldQty - {user}, heldTs := h.heldTs - {user})
  }

  // ---------------------------------------------------------------------
  // Stock accounting
  // ---------------------------------------------------------------------

  function SumQty(os: seq<Order>): int
  {
    if os == [] then 0 else os[0].qty + SumQty(os[1..])
  }

  /** Tickets on sale plus reserved plus ordered. */
  function Accounted(h: EventHash, os: seq<Order>): int
  {
    Avail(h) + Held(h) + SumQty(os)
  }

  /** Every ticket of the capacity is on sale, reserved or ordered. */
  predicate Balanced(h: EventHash, os: seq<Order>)
  {
    h.capacity.Some? && h.capacity.value == Accounted(h, os)
  }

  /** The reservations counter is the sum of the per-user holds. */
  ghost predicate HoldsAccounted(h: EventHash)
  {
    Held(h) == SumMap(h.heldQty, Qty)
  }

  lemma SumQtyPush(o: Order, os: seq<Order>)
    ensures SumQty([o] + os) == o.qty + SumQty(os)
  {
    assert ([o] + os)[1..] == os;
  }

  /** A fresh event is balanced. */
  lemma CreatedBalanced(available: int, price: int)
    ensures Balanced(Created(NoHash, available, price), [])
    ensures HoldsAccounted(Created(NoHash, available, price))
  {
  }

  /** A purchase moves `qty` tickets from sale into the order list. */
  lemma PurchaseKeepsBalance(h: EventHash, os: seq<Order>, o: Order)
    ensures Accounted(Purchased(h, o.qty), [o] + os) == Accounted(h, os)
    ensures Avail(Purchased(h, o.qty)) == Avail(h) - o.qty
  {
    SumQtyPush(o, os);
  }

  /** Reserving then confirming moves `qty` tickets from sale into the order list and leaves the counter where it was. */
  lemma ReserveConfirmKeepsBalance(h: EventHash, os: seq<Order>, user: string, now: int, o: Order)
    ensures var after := Confirmed(Reserved(h, user, o.qty, now), user, o.qty);
      && Accounted(after, [o] + os) == Accounted(h, os)
      && Avail(after) == Avail(h) - o.qty
      && Held(after) == Held(h)
      && user !in after.heldQty && user !in after.heldTs
  {
    SumQtyPush(o, os);
  }

  /** A confirm with no reservation before it: the order is added while the tickets stay on sale. */
  lemma ConfirmWithoutHoldOversells(h: EventHash, os: seq<Order>, user: string, o: Order)
    ensures var after := Confirmed(h, user, o.qty);
      && Avail(after) + SumQty([o] + os) == Avail(h) + SumQty(os) + o.qty
      && Held(after) == Held(h) - o.qty
  {
    SumQtyPush(o, os);
  }

  /** A backout puts `qty` back on sale and takes it off the counter, so the balance stays. */
  lemma BackoutKeepsBalance(h: EventHash, os: seq<Order>, user: string, qty: int)
    ensures Accounted(BackedOut(h, user, qty), os) == Accounted(h, os)
    ensures Avail(BackedOut(h, user, qty)) == Avail(h) + qty
  {
  }

  /** For a user without a hold, reserve and confirm keep the counter equal to the sum of the holds. */
  lemma ReserveKeepsHoldsAccounted(h: EventHash, user: string, qty: int, now: int)
    requires HoldsAccounted(h) && user !in h.heldQty
    ensures HoldsAccounted(Reserved(h, user, qty, now))
    ensures HoldsAccounted(Confirmed(Reserved(h, user, qty, now), user, qty))
  {
    SumMapUpdate(h.heldQty, Qty, user, qty);
    var r := Reserved(h, user, qty, now);
    SumMapRemoveKey(r.heldQty, Qty, user);
    assert r.heldQty - {user} == h.heldQty;
  }

  /**
   * A user who already holds tickets and reserves again: the HSETNX keeps
   * the old hold, the confirm deletes it, and the counter keeps it. Those
   * tickets are then counted as reserved with no per-user field left for
   * `expire_reservation` to find.
   */
  lemma RepeatReserveOrphansHold(h: EventHash, user: string, qty: int, now: int)
    requires HoldsAccounted(h) && user in h.heldQty
    ensures var after := Confirmed(Reserved(h, user, qty, now), user, qty);
      && user !in after.heldQty
      && Held(after) == SumMap(after.heldQty, Qty) + h.heldQty[user]
  {
    var after := Confirmed(Reserved(h, user, qty, now), user, qty);
    assert after.heldQty == h.heldQty - {user};
    SumMapRemove(h.heldQty, Qty, user);
  }

  /** Backing out a user's stored hold keeps the counter equal to the sum of the holds. */
  lemma BackoutKeepsHoldsAccounted(h: EventHash, user: string)
    requires HoldsAccounted(h) && user in h.heldQty
    ensures HoldsAccounted(BackedOut(h, user, h.heldQty[user]))
  {
    SumMapRemove(h.heldQty, Qty, user);
  }

  // ---------------------------------------------------------------------
  // Expiry
  // ---------------------------------------------------------------------

  /** The holds `expire_reservation` keeps: stamped at or after the cutoff. */
  function Unexpired(ts: map<string, int>, cutoff: int): map<string, int>
  {
    map u | u in ts && ts[u] >= cutoff :: ts[u]
  }

  /** Every hold stamped before the cutoff has its quantity field, so the scan can read it. */
  predicate ExpiredHaveQty(h: EventHash, cutoff: int)
  {
    forall u :: u in h.heldTs && h.heldTs[u] < cutoff ==> u in h.heldQty
  }

  /** The holds `expire_reservation` backs out, with the quantity each had. */
  function Expired(h: EventHash, cutoff: int): map<string, int>
  {
    map u | u in h.heldTs && h.heldTs[u] < cutoff && u in h.heldQty :: h.heldQty[u]
  }

  /** The expired holds among those the scan has already passed (all but `todo`). */
  function ExpiredAmong(h: EventHash, cutoff: int, todo: set<string>): map<string, int>
  {
    map u | u in h.heldTs && u !in todo && h.heldTs[u] < cutoff && u in h.heldQty :: h.heldQty[u]
  }

  lemma ExpiredAmongStep(h: EventHash, cutoff: int, todo: set<string>, u: string)
    requires u in todo && u in h.heldTs
    ensures ExpiredAmong(h, cutoff, todo - {u}) ==
      if h.heldTs[u] < cutoff && u in h.heldQty then ExpiredAmong(h, cutoff, todo)[u := h.heldQty[u]]
      else ExpiredAmong(h, cutoff, todo)
  {
  }

  /** The hash once the holds in `done` have been backed out one by one. */
  ghost predicate PartlyExpired(now: EventHash, e: EventHash, done: map<string, int>)
  {
    && now.capacity == e.capacity && now.price == e.price
    && Avail(now) == Avail(e) + SumMap(done, Qty)
    && Held(now) == Held(e) - SumMap(done, Qty)
    && now.heldQty == e.heldQty - done.Keys
    && now.heldTs == e.heldTs - done.Keys
  }

  lemma ExpireOne(now: EventHash, e: EventHash, done: map<string, int>, u: string)
    requires PartlyExpired(now, e, done)
    requires u in e.heldQty && u !in done
    ensures PartlyExpired(BackedOut(now, u, e.heldQty[u]), e, done[u := e.heldQty[u]])
  {
    SumMapUpdate(done, Qty, u, e.heldQty[u]);
    assert e.heldQty - done[u := e.heldQty[u]].Keys == (e.heldQty - done.Keys) - {u};
    assert e.heldTs - done[u := e.heldQty[u]].Keys == (e.heldTs - done.Keys) - {u};
  }

  /**
   * Once the scan is over, exactly the holds stamped before the cutoff are
   * gone, their tickets are back on sale, and the counter still equals the
   * sum of the holds.
   */
  lemma ExpiryFinished(now: EventHash, e: EventHash, cutoff: int)
    requires PartlyExpired(now, e, ExpiredAmong(e, cutoff, {}))
    requires ExpiredHaveQty(e, cutoff)
    ensures PartlyExpired(now, e, Expired(e, cutoff))
    ensures now.heldTs == Unexpired(e.heldTs, cutoff)
    ensures now.heldQty.Keys == e.heldQty.Keys - (e.heldTs.Keys - Unexpired(e.heldTs, cutoff).Keys)
    ensures Avail(now) + Held(now) == Avail(e) + Held(e)
    ensures HoldsAccounted(e) ==> HoldsAccounted(now)
  {
    var x := Expired(e, cutoff);
    assert ExpiredAmong(e, cutoff, {}) == x;
    assert x.Keys == e.heldTs.Keys - Unexpired(e.heldTs, cutoff).Keys;
    assert e.heldTs - x.Keys == Unexpired(e.heldTs, cutoff);
    SumMapSplit(e.heldQty, x, Qty);
  }

  /**
   * The scan of `expire_reservation` over one event's hash: each hold
   * stamped before the cutoff is backed out with the quantity stored for
   * it, one write at a time. Returns the hash as those writes leave it; a
   * stamp without a quantity field stops the scan with a TypeError.
   */
  method ScanExpired(e: EventHash, cutoff: int) returns (current: EventHash, outcome: Outcome)
    ensures outcome == Done || outcome == TypeError
    ensures outcome == Done <==> ExpiredHaveQty(e, cutoff)
    ensures current.capacity == e.capacity && current.price == e.price
    ensures outcome == Done ==>
      && PartlyExpired(current, e, Expired(e, cutoff))
      && current.heldTs == Unexpired(e.heldTs, cutoff)
      && Avail(current) + Held(current) == Avail(e) + Held(e)
      && (HoldsAccounted(e) ==> HoldsAccounted(current))
  {
    var todo := e.heldTs.Keys;
    assert ExpiredAmong(e, cutoff, todo) == map[];
    assert e.heldQty - {} == e.heldQty && e.heldTs - {} == e.heldTs;
    current := e;
    while todo != {}
      invariant todo <= e.heldTs.Keys
      invariant PartlyExpired(current, e, ExpiredAmong(e, cutoff, todo))
      invariant forall u :: u in e.heldTs && u !in todo && e.heldTs[u] < cutoff ==> u in e.heldQty
      decreases |todo|
    {
      var u :| u in todo;
      ExpiredAmongStep(e, cutoff, todo, u);
      if e.heldTs[u] < cutoff {
        if u !in current.heldQty {
          // int(None) on the missing reservations-user field
          assert !ExpiredHaveQty(e, cutoff);
          return current, TypeError;
        }
        ExpireOne(current, e, ExpiredAmong(e, cutoff, todo), u);
        current := BackedOut(current, u, current.heldQty[u]);
      }
      todo := todo - {u};
    }
    ExpiryFinished(current, e, cutoff);
    outcome := Done;
  }

  // ---------------------------------------------------------------------
  // Hour-of-day histogram
  // ---------------------------------------------------------------------

  /** The BITFIELD bit offset of the counter for an hour of the day. */
  function HourOffset(hour: nat): nat
  {
    (hour + 1) * 8
  }

  /** The byte at an index of a BITFIELD string; bytes never written read 0. */
  function ByteAt(b: map<nat, int>, i: nat): int
  {
    if i in b then b[i] else 0
  }

  /** BITFIELD INCRBY u8 at a byte-aligned offset: the default overflow mode wraps modulo 256. */
  function IncrU8(b: map<nat, int>, offset: nat, delta: int): map<nat, int>
    requires offset % 8 == 0
  {
    b[offset / 8 := (ByteAt(b, offset / 8) + delta) % 256]
  }

  /** BITFIELD GET u8 at a byte-aligned offset. */
  function GetU8(b: map<nat, int>, offset: nat): int
    requires offset % 8 == 0
  {
    ByteAt(b, offset / 8)
  }

  /**
   * The hour offsets are byte-aligned and distinct, so reading hour `i`
   * after posting at hour `hour` sees the posted quantity, wrapped to 8
   * bits, exactly when `i == hour`.
   */
  lemma HistogramReadsBack(b: map<nat, int>, hour: nat, i: nat, delta: int)
    requires hour < 24 && i < 24
    ensures HourOffset(hour) % 8 == 0 && HourOffset(i) % 8 == 0
    ensures GetU8(IncrU8(b, HourOffset(hour), delta), HourOffset(i)) ==
      if i == hour then (GetU8(b, HourOffset(i)) + delta) % 256 else GetU8(b, HourOffset(i))
    ensures 0 <= GetU8(IncrU8(b, HourOffset(hour), delta), HourOffset(hour)) < 256
  {
    assert HourOffset(hour) / 8 == hour + 1;
    assert HourOffset(i) / 8 == i + 1;
  }

  // ---------------------------------------------------------------------
  // Posting
  // ---------------------------------------------------------------------

  function HistogramOf(hs: map<string, map<nat, int>>, key: string): map<nat, int>
  {
    if key in hs then hs[key] else map[]
  }

  /** The writes of `post_purchases` for one order: SADD, SADD, HINCRBY and the two BITFIELD increments. */
  function PostOrder(l: Ledger, event: string, id: string, o: Order, hour: nat): Ledger
    requires hour < 24
  {
    assert HourOffset(hour) % 8 == 0;
    Ledger(
      l.invoices[o.who := SetOf(l.invoices, o.who) + {id}],
      l.sales[event := SetOf(l.sales, event) + {id}],
      l.ticketsSold[event := CountOf(l.ticketsSold, event) + o.qty],
      IncrU8(l.histogram, HourOffset(hour), o.qty),
      l.eventHistograms[event := IncrU8(HistogramOf(l.eventHistograms, event), HourOffset(hour), o.qty)])
  }

  /**
   * Posting an order files its id under the buyer's invoices and the
   * event's sales, adds its quantity to the event's tickets sold and to
   * the hour's counters, and changes no other invoice, sale, counter or
   * hour.
   */
  lemma PostOrderRecords(l: Ledger, event: string, id: string, o: Order, hour: nat)
    requires hour < 24
    ensures var r := PostOrder(l, event, id, o, hour);
      && SetOf(r.invoices, o.who) == SetOf(l.invoices, o.who) + {id}
      && (forall who :: who != o.who ==> SetOf(r.invoices, who) == SetOf(l.invoices, who))
      && SetOf(r.sales, event) == SetOf(l.sales, event) + {id}
      && (forall ev :: ev != event ==> SetOf(r.sales, ev) == SetOf(l.sales, ev))
      && CountOf(r.ticketsSold, event) == CountOf(l.ticketsSold, event) + o.qty
      && (forall ev :: ev != event ==> CountOf(r.ticketsSold, ev) == CountOf(l.ticketsSold, ev))
      && (forall i: nat :: i < 24 ==>
            GetU8(r.histogram, HourOffset(i)) ==
              if i == hour then (GetU8(l.histogram, HourOffset(i)) + o.qty) % 256 else GetU8(l.histogram, HourOffset(i)))
      && (forall i: nat :: i < 24 ==>
            GetU8(HistogramOf(r.eventHistograms, event), HourOffset(i)) ==
              if i == hour then (GetU8(HistogramOf(l.eventHistograms, event), HourOffset(i)) + o.qty) % 256
              else GetU8(HistogramOf(l.eventHistograms, event), HourOffset(i)))
  {
    forall i: nat | i < 24
      ensures GetU8(IncrU8(l.histogram, HourOffset(hour), o.qty), HourOffset(i)) ==
        if i == hour then (GetU8(l.histogram, HourOffset(i)) + o.qty) % 256 else GetU8(l.histogram, HourOffset(i))
      ensures var b := HistogramOf(l.eventHistograms, event);
        GetU8(IncrU8(b, HourOffset(hour), o.qty), HourOffset(i)) ==
          if i == hour then (GetU8(b, HourOffset(i)) + o.qty) % 256 else GetU8(b, HourOffset(i))
    {
      HistogramReadsBack(l.histogram, hour, i, o.qty);
      HistogramReadsBack(HistogramOf(l.eventHistograms, event), hour, i, o.qty);
    }
  }

  // ---------------------------------------------------------------------
  // The store
  // ---------------------------------------------------------------------

  class RedisTicketStore {
    var events: map<string, EventHash>          // events:<name>
    var orders: map<string, seq<Order>>         // orders:<name>, head first
    var purchaseOrders: map<string, Order>      // purchase_orders:<id>
    var pending: map<string, seq<string>>       // pending:<name>, head first
    var ledger: Ledger                          // the keys posting writes

    constructor ()
      ensures events == map[] && orders == map[] && purchaseOrders == map[] && pending == map[]
      ensures ledger == Ledger(map[], map[], map[], map[], map[])
    {
      events, orders, purchaseOrders, pending := map[], map[], map[], map[];
      ledger := Ledger(map[], map[], map[], map[], map[]);
    }

    /** `create_event`. */
    method CreateEvent(name: string, available: int, price: int)
      modifies this
      ensures events == old(events)[name := Created(HashOf(old(events), name), available, price)]
      ensures orders == old(orders) && purchaseOrders == old(purchaseOrders) && pending == old(pending)
      ensures ledger == old(ledger)
    {
      events := events[name := Created(HashOf(events, name), available, price)];
    }

    /**
     * `check_availability_and_purchase`: reads available (a TypeError when
     * the field is missing), and when it covers `qty` reads the price and
     * runs the transaction. A watch conflict applies none of its writes.
     */
    method CheckAvailabilityAndPurchase(user: string, event: string, qty: int, choices: seq<nat>, now: int, conflict: bool)
      returns (outcome: Outcome, order: Option<Order>)
      requires Choices(choices)
      modifies this
      ensures var h := HashOf(old(events), event);
        && (h.available.None? ==> outcome == TypeError)
        && (h.available.Some? && h.available.value < qty ==> outcome == NotEnough)
        && (h.available.Some? && h.available.value >= qty && h.price.None? ==> outcome == TypeError)
        && (h.available.Some? && h.available.value >= qty && h.price.Some? ==>
              outcome == (if conflict then WriteConflict else Done))
      ensures outcome != Done ==> events == old(events) && orders == old(orders) && order == None
      ensures outcome == Done ==>
        && order.Some? && order.value.who == user && order.value.qty == qty && IsToken(order.value.orderId)
        && event in old(events)
        && events == old(events)[event := Purchased(old(events)[event], qty)]
        && orders == LPush(old(orders), event, order.value)
      ensures purchaseOrders == old(purchaseOrders) && pending == old(pending) && ledger == old(ledger)
    {
      order := None;
      var h := HashOf(events, event);
      if h.available.None? {
        return TypeError, None;
      }
      if h.available.value < qty {
        return NotEnough, None;
      }
      var orderId := GenerateToken(choices);
      if h.price.None? {
        return TypeError, None;
      }
      if conflict {
        return WriteConflict, None;
      }
      var o := Order(user, qty, now, qty * h.price.value, orderId, None);
      events := events[event := Purchased(h, qty)];
      orders := LPush(orders, event, o);
      outcome, order := Done, Some(o);
    }

    /**
     * The first transaction of `reserve` and `reserve_with_pending`: when
     * available covers `qty`, binds an order id and the price and reserves.
     * `quote` is what is bound afterwards, whether or not a conflict
     * dropped the writes.
     */
    method HoldTickets(user: string, event: string, qty: int, choices: seq<nat>, now: int, conflict: bool)
      returns (outcome: Outcome, quote: Option<Quote>)
      requires Choices(choices)
      modifies this
      ensures var h := HashOf(old(events), event);
        && (h.available.None? ==> outcome == TypeError)
        && (h.available.Some? && h.available.value < qty ==> outcome == NotEnough)
        && (h.available.Some? && h.available.value >= qty && h.price.None? ==> outcome == TypeError)
        && (h.available.Some? && h.available.value >= qty && h.price.Some? ==>
              outcome == (if conflict then WriteConflict else Done))
      ensures quote.Some? <==> outcome in {Done, WriteConflict}
      ensures quote.Some? ==> event in old(events) && quote.value.price == old(events)[event].price.value && IsToken(quote.value.orderId)
      ensures outcome == Done ==> events == old(events)[event := Reserved(old(events)[event], user, qty, now)]
      ensures outcome != Done ==> events == old(events)
      ensures orders == old(orders) && purchaseOrders == old(purchaseOrders) && pending == old(pending)
      ensures ledger == old(ledger)
    {
      var h := HashOf(events, event);
      if h.available.None? {
        return TypeError, None;
      }
      if h.available.value < qty {
        return NotEnough, None;
      }
      var orderId := GenerateToken(choices);
      if h.price.None? {
        return TypeError, None;
      }
      quote := Some(Quote(orderId, h.price.value));
      if conflict {
        return WriteConflict, quote;
      }
      events := events[event := Reserved(h, user, qty, now)];
      outcome := Done;
    }

    /** The confirm transaction of `reserve`. */
    method ConfirmOrder(user: string, event: string, o: Order, conflict: bool) returns (outcome: Outcome)
      modifies this
      ensures outcome == (if conflict then WriteConflict else Done)
      ensures conflict ==> events == old(events) && orders == old(orders)
      ensures !conflict ==>
        && events == old(events)[event := Confirmed(HashOf(old(events), event), user, o.qty)]
        && orders == LPush(old(orders), event, o)
      ensures purchaseOrders == old(purchaseOrders) && pending == old(pending) && ledger == old(ledger)
    {
      if conflict {
        return WriteConflict;
      }
      events := events[event := Confirmed(HashOf(events, event), user, o.qty)];
      orders := LPush(orders, event, o);
      outcome := Done;
    }

    /**
     * `reserve`, as written: the confirm step runs outside the first
     * transaction's guard. Short stock leaves price and order id unbound,
     * so building the order raises NameError; a conflict that dropped the
     * reservation still lets the confirm through.
     */
    method ReserveAsWritten(user: string, event: string, qty: int, choices: seq<nat>, now: int,
                            holdConflict: bool, confirmConflict: bool)
      returns (outcome: Outcome)
      requires Choices(choices)
      modifies this
      ensures var h := HashOf(old(events), event);
        h.available.Some? && h.available.value < qty ==>
          outcome == NameError && events == old(events) && orders == old(orders)
      ensures var h := HashOf(old(events), event);
        h.available.Some? && h.available.value >= qty && h.price.Some? && holdConflict && !confirmConflict ==>
          && outcome == Done
          && events == old(events)[event := Confirmed(h, user, qty)]
          && |ListOf(orders, event)| == |ListOf(old(orders), event)| + 1
          && ListOf(orders, event)[0].qty == qty
      ensures purchaseOrders == old(purchaseOrders) && pending == old(pending) && ledger == old(ledger)
    {
      var held, quote := HoldTickets(user, event, qty, choices, now, holdConflict);
      if held == TypeError {
        return TypeError;
      }
      if quote.None? {
        return NameError;
      }
      // creditcard_auth always approves
      var o := Order(user, qty, now, qty * quote.value.price, quote.value.orderId, None);
      outcome := ConfirmOrder(user, event, o, confirmConflict);
    }

    /** `reserve`, confirming only a reservation that was made. */
    method Reserve(user: string, event: string, qty: int, choices: seq<nat>, now: int,
                   holdConflict: bool, confirmConflict: bool)
      returns (outcome: Outcome, order: Option<Order>)
      requires Choices(choices)
      modifies this
      ensures var h := HashOf(old(events), event);
        && (h.available.Some? && h.available.value < qty ==> outcome == NotEnough)
        && (outcome == Done <==>
              h.available.Some? && h.available.value >= qty && h.price.Some? && !holdConflict && !confirmConflict)
      ensures outcome != Done ==> order == None
      ensures outcome != Done && outcome != WriteConflict ==> events == old(events) && orders == old(orders)
      ensures outcome == Done ==>
        && order.Some? && order.value.who == user && order.value.qty == qty && IsToken(order.value.orderId)
        && event in old(events)
        && events == old(events)[event := Confirmed(Reserved(old(events)[event], user, qty, now), user, qty)]
        && orders == LPush(old(orders), event, order.value)
      ensures event in old(events) && Balanced(old(events)[event], ListOf(old(orders), event)) ==>
        event in events && Balanced(events[event], ListOf(orders, event))
      ensures purchaseOrders == old(purchaseOrders) && pending == old(pending) && ledger == old(ledger)
    {
      order := None;
      var held, quote := HoldTickets(user, event, qty, choices, now, holdConflict);
      if held != Done {
        return held, None;
      }
      ghost var h := old(events)[event];
      ghost var os := ListOf(old(orders), event);
      var o := Order(user, qty, now, qty * quote.value.price, quote.value.orderId, None);
      outcome := ConfirmOrder(user, event, o, confirmConflict);
      if outcome == Done {
        order := Some(o);
        ReserveConfirmKeepsBalance(h, os, user, now, o);
      }
    }

    /** `backout_reservation`: unconditional; any failure applies none of its writes. */
    method BackoutReservation(user: string, event: string, qty: int, conflict: bool) returns (outcome: Outcome)
      modifies this
      ensures outcome == (if conflict then WriteConflict else Done)
      ensures conflict ==> events == old(events)
      ensures !conflict ==> events == old(events)[event := BackedOut(HashOf(old(events), event), user, qty)]
      ensures orders == old(orders) && purchaseOrders == old(purchaseOrders) && pending == old(pending)
      ensures ledger == old(ledger)
    {
      if conflict {
        return WriteConflict;
      }
      events := events[event := BackedOut(HashOf(events, event), user, qty)];
      outcome := Done;
    }

    /** `create_expired_reservation`: HSET of the counters and three holds stamped 16, 22 and 30 seconds ago. */
    method CreateExpiredReservation(event: string, now: int)
      modifies this
      ensures var h := HashOf(old(events), event);
        events == old(events)[event := h.(available := Some(485), reservations := Some(15),
          heldQty := h.heldQty["Fred" := 3]["Jim" := 5]["Amy" := 7],
          heldTs := h.heldTs["Fred" := now - 16]["Jim" := now - 22]["Amy" := now - 30])]
      ensures orders == old(orders) && purchaseOrders == old(purchaseOrders) && pending == old(pending)
      ensures ledger == old(ledger)
    {
      var h := HashOf(events, event);
      events := events[event := h.(available := Some(485), reservations := Some(15),
        heldQty := h.heldQty["Fred" := 3]["Jim" := 5]["Amy" := 7],
        heldTs := h.heldTs["Fred" := now - 16]["Jim" := now - 22]["Amy" := now - 30])];
    }

    /**
     * `expire_reservation`: scans the stamps and backs out each hold
     * stamped before now − 30 with the quantity stored for it. A stamp
     * without a quantity field makes the read a TypeError.
     */
    method ExpireReservation(event: string, now: int) returns (outcome: Outcome)
      modifies this
      ensures outcome == Done <==> ExpiredHaveQty(HashOf(old(events), event), now - 30)
      ensures event !in old(events) ==> events == old(events)
      ensures event in old(events) && outcome == Done ==>
        var e := old(events)[event];
        && event in events && events == old(events)[event := events[event]]
        && PartlyExpired(events[event], e, Expired(e, now - 30))
        && events[event].heldTs == Unexpired(e.heldTs, now - 30)
        && Avail(events[event]) + Held(events[event]) == Avail(e) + Held(e)
        && (HoldsAccounted(e) ==> HoldsAccounted(events[event]))
      ensures orders == old(orders) && purchaseOrders == old(purchaseOrders) && pending == old(pending)
      ensures ledger == old(ledger)
    {
      if event !in events {
        return Done;
      }
      var e := events[event];
      var current;
      current, outcome := ScanExpired(e, now - 30);
      events := events[event := current];
    }

    /** The confirm transaction of `reserve_with_pending`: the order is stored and its id pushed on the pending list. */
    method ConfirmPending(user: string, event: string, o: Order, conflict: bool) returns (outcome: Outcome)
      modifies this
      ensures outcome == (if conflict then WriteConflict else Done)
      ensures conflict ==> events == old(events) && purchaseOrders == old(purchaseOrders) && pending == old(pending)
      ensures !conflict ==>
        && events == old(events)[event := Confirmed(HashOf(old(events), event), user, o.qty)]
        && purchaseOrders == old(purchaseOrders)[o.orderId := o]
        && pending == LPush(old(pending), event, o.orderId)
      ensures orders == old(orders) && ledger == old(ledger)
    {
      if conflict {
        return WriteConflict;
      }
      events := events[event := Confirmed(HashOf(events, event), user, o.qty)];
      purchaseOrders := purchaseOrders[o.orderId := o];
      pending := LPush(pending, event, o.orderId);
      outcome := Done;
    }

    /** `reserve_with_pending`, as written: the same unguarded confirm step as `reserve`. */
    method ReserveWithPendingAsWritten(user: string, event: string, qty: int, choices: seq<nat>, now: int,
                                       holdConflict: bool, confirmConflict: bool)
      returns (outcome: Outcome)
      requires Choices(choices)
      modifies this
      ensures var h := HashOf(old(events), event);
        h.available.Some? && h.available.value < qty ==>
          outcome == NameError && events == old(events) && pending == old(pending)
      ensures var h := HashOf(old(events), event);
        h.available.Some? && h.available.value >= qty && h.price.Some? && holdConflict && !confirmConflict ==>
          && outcome == Done
          && events == old(events)[event := Confirmed(h, user, qty)]
          && |ListOf(pending, event)| == |ListOf(old(pending), event)| + 1
      ensures orders == old(orders) && ledger == old(ledger)
    {
      var held, quote := HoldTickets(user, event, qty, choices, now, holdConflict);
      if held == TypeError {
        return TypeError;
      }
      if quote.None? {
        return NameError;
      }
      var o := Order(user, qty, now, qty * quote.value.price, quote.value.orderId, Some(event));
      outcome := ConfirmPending(user, event, o, confirmConflict);
    }

    /** `reserve_with_pending`, confirming only a reservation that was made. */
    method ReserveWithPending(user: string, event: string, qty: int, choices: seq<nat>, now: int,
                              holdConflict: bool, confirmConflict: bool)
      returns (outcome: Outcome, order: Option<Order>)
      requires Choices(choices)
      modifies this
      ensures var h := HashOf(old(events), event);
        && (h.available.Some? && h.available.value < qty ==> outcome == NotEnough)
        && (outcome == Done <==>
              h.available.Some? && h.available.value >= qty && h.price.Some? && !holdConflict && !confirmConflict)
      ensures outcome != Done ==> order == None
      ensures outcome != Done && outcome != WriteConflict ==>
        events == old(events) && purchaseOrders == old(purchaseOrders) && pending == old(pending)
      ensures outcome == Done ==>
        && order.Some? && order.value.who == user && order.value.qty == qty
        && order.value.event == Some(event) && IsToken(order.value.orderId)
        && event in old(events)
        && events == old(events)[event := Confirmed(Reserved(old(events)[event], user, qty, now), user, qty)]
        && purchaseOrders == old(purchaseOrders)[order.value.orderId := order.value]
        && pending == LPush(old(pending), event, order.value.orderId)
      ensures orders == old(orders) && ledger == old(ledger)
    {
      order := None;
      var held, quote := HoldTickets(user, event, qty, choices, now, holdConflict);
      if held != Done {
        return held, None;
      }
      var o := Order(user, qty, now, qty * quote.value.price, quote.value.orderId, Some(event));
      outcome := ConfirmPending(user, event, o, confirmConflict);
      if outcome == Done {
        order := Some(o);
      }
    }

    /**
     * `post_purchases`: RPOP the oldest pending id; when there is one, read
     * its order (a TypeError when it is missing) and post it to the
     * invoices, the sales set, the tickets-sold counter and both
     * histograms at the hour of posting.
     */
    method PostPurchases(event: string, hour: nat) returns (outcome: Outcome, posted: Option<Order>)
      requires hour < 24
      modifies this
      ensures var p := ListOf(old(pending), event);
        p == [] ==> outcome == Done && posted == None && pending == old(pending) && ledger == old(ledger)
      ensures var p := ListOf(old(pending), event);
        p != [] ==> pending == PutList(old(pending), event, p[..|p| - 1])
      ensures var p := ListOf(old(pending), event);
        p != [] && p[|p| - 1] !in old(purchaseOrders) ==>
          outcome == TypeError && posted == None && ledger == old(ledger)
      ensures var p := ListOf(old(pending), event);
        p != [] && p[|p| - 1] in old(purchaseOrders) ==>
          var id := p[|p| - 1];
          var o := old(purchaseOrders)[id];
          && outcome == Done && posted == Some(o)
          && ledger == PostOrder(old(ledger), event, id, o, hour)
      ensures events == old(events) && orders == old(orders) && purchaseOrders == old(purchaseOrders)
    {
      posted := None;
      var p := ListOf(pending, event);
      if p == [] {
        return Done, None;
      }
      var id := p[|p| - 1];
      pending := PutList(pending, event, p[..|p| - 1]);
      if id !in purchaseOrders {
        // json.loads(None)
        return TypeError, None;
      }
      var o := purchaseOrders[id];
      ledger := PostOrder(ledger, event, id, o, hour);
      outcome, posted := Done, Some(o);
    }
  }

  // ---------------------------------------------------------------------
  // The script's runs
  // ---------------------------------------------------------------------

  /** Part one: ten tickets; buying five succeeds, buying six more is refused. */
  method CheckAvailabilityRun(choices1: seq<nat>, choices2: seq<nat>, now: int)
    returns (s: RedisTicketStore, first: Outcome, second: Outcome)
    requires Choices(choices1) && Choices(choices2)
    ensures first == Done && second == NotEnough
    ensures "Womens 4x400m Final" in s.events
    ensures Avail(s.events["Womens 4x400m Final"]) == 5 && |ListOf(s.orders, "Womens 4x400m Final")| == 1
    ensures Balanced(s.events["Womens 4x400m Final"], ListOf(s.orders, "Womens 4x400m Final"))
  {
    s := new RedisTicketStore();
    var ev := "Womens 4x400m Final";
    s.CreateEvent(ev, 10, 9);
    var order1;
    first, order1 := s.CheckAvailabilityAndPurchase("Fred", ev, 5, choices1, now, false);
    PurchaseKeepsBalance(Created(NoHash, 10, 9), [], order1.value);
    var order2;
    second, order2 := s.CheckAvailabilityAndPurchase("Fred", ev, 6, choices2, now, false);
  }

  /** Part two: five of 500 tickets reserved and confirmed at once. */
  method ReserveRun(choices: seq<nat>, now: int) returns (s: RedisTicketStore, outcome: Outcome)
    requires Choices(choices)
    ensures outcome == Done && "Womens Marathon Final" in s.events
    ensures var h := s.events["Womens Marathon Final"];
      Avail(h) == 495 && Held(h) == 0 && h.heldQty == map[] && |ListOf(s.orders, "Womens Marathon Final")| == 1
    ensures Balanced(s.events["Womens Marathon Final"], ListOf(s.orders, "Womens Marathon Final"))
  {
    s := new RedisTicketStore();
    var ev := "Womens Marathon Final";
    s.CreateEvent(ev, 500, 9);
    CreatedBalanced(500, 9);
    var order;
    outcome, order := s.Reserve("Fred", ev, 5, choices, now, false, false);
  }

  /** Short stock: as written the reservation raises NameError; corrected, it is refused. */
  method ShortStockRun(choices: seq<nat>, now: int) returns (asWritten: Outcome, corrected: Outcome)
    requires Choices(choices)
    ensures asWritten == NameError && corrected == NotEnough
  {
    var s := new RedisTicketStore();
    var ev := "Womens Marathon Final";
    s.CreateEvent(ev, 3, 9);
    asWritten := s.ReserveAsWritten("Fred", ev, 5, choices, now, false, false);
    var order;
    corrected, order := s.Reserve("Fred", ev, 5, choices, now, false, false);
  }

  /** Part three: holds of 3, 5 and 7 stamped 16, 22 and 30 seconds before `now`. */
  method ExpiryRun(now: int) returns (s: RedisTicketStore)
    ensures "Womens Javelin" in s.events
    ensures var h := s.events["Womens Javelin"];
      && Avail(h) == 492 && Held(h) == 8
      && h.heldQty.Keys == {"Fred", "Jim"}
  {
    s := new RedisTicketStore();
    var ev := "Womens Javelin";
    s.CreateExpiredReservation(ev, now);
    var h0 := s.events[ev];
    assert h0.heldQty == map["Fred" := 3, "Jim" := 5, "Amy" := 7];
    assert h0.heldTs == map["Fred" := now - 16, "Jim" := now - 22, "Amy" := now - 30];
    // one second later only Amy's hold is older than the cutoff
    var outcome := s.ExpireReservation(ev, now + 1);
    assert Expired(h0, now + 1 - 30) == map["Amy" := 7];
    assert outcome == Done;
    SumMapRemove(map["Amy" := 7], Qty, "Amy");
    assert map["Amy" := 7] - {"Amy"} == map[];
  }

  /** One buy of part four: `reserve_with_pending` then `post_purchases` on an empty pending list. */
  method ReserveAndPost(s: RedisTicketStore, user: string, ev: string, qty: int, choices: seq<nat>, now: int, hour: nat)
    returns (id: string)
    requires Choices(choices) && hour < 24
    requires ev in s.events && s.events[ev].available.Some? && s.events[ev].available.value >= qty
    requires s.events[ev].price.Some? && ListOf(s.pending, ev) == []
    modifies s
    ensures ev in s.events && Avail(s.events[ev]) == Avail(old(s.events)[ev]) - qty
    ensures Held(s.events[ev]) == Held(old(s.events)[ev])
    ensures s.events[ev].available.Some? && s.events[ev].price.Some?
    ensures ListOf(s.pending, ev) == []
    ensures CountOf(s.ledger.ticketsSold, ev) == CountOf(old(s.ledger.ticketsSold), ev) + qty
    ensures SetOf(s.ledger.invoices, user) == SetOf(old(s.ledger.invoices), user) + {id}
    ensures forall who :: who != user ==> SetOf(s.ledger.invoices, who) == SetOf(old(s.ledger.invoices), who)
    ensures GetU8(s.ledger.histogram, HourOffset(hour)) == (GetU8(old(s.ledger.histogram), HourOffset(hour)) + qty) % 256
  {
    ghost var h := s.events[ev];
    var r, order := s.ReserveWithPending(user, ev, qty, choices, now, false, false);
    assert r == Done;
    ghost var o := Order(user, qty, now, 0, "", None);
    ReserveConfirmKeepsBalance(h, [], user, now, o);
    ghost var l := s.ledger;
    var p, posted := s.PostPurchases(ev, hour);
    assert posted == order;
    id := order.value.orderId;
    PostOrderRecords(l, ev, id, order.value, hour);
  }

  /** Part four: two buyers of one event, each reservation posted straight away. */
  method PostingRun(choices1: seq<nat>, choices2: seq<nat>, now: int, hour: nat) returns (s: RedisTicketStore)
    requires Choices(choices1) && Choices(choices2) && hour < 24
    ensures "Mens Discus" in s.events && Avail(s.events["Mens Discus"]) == 193 && Held(s.events["Mens Discus"]) == 0
    ensures CountOf(s.ledger.ticketsSold, "Mens Discus") == 7
    ensures |SetOf(s.ledger.invoices, "Fred")| == 1 && |SetOf(s.ledger.invoices, "Amy")| == 1
    ensures ListOf(s.pending, "Mens Discus") == []
    ensures GetU8(s.ledger.histogram, HourOffset(hour)) == 7
  {
    s := new RedisTicketStore();
    var ev := "Mens Discus";
    s.CreateEvent(ev, 200, 10);
    var id1 := ReserveAndPost(s, "Fred", ev, 5, choices1, now, hour);
    var id2 := ReserveAndPost(s, "Amy", ev, 2, choices2, now, hour);
  }
}
