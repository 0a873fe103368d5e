/**
 * Ticket inventory on Aerospike (aerospike/inventory/all.py and the
 * straight-line scripts reserving2.py, posting.py, purchase_within_user.py
 * and decrementing_inventory.py).
 *
 * An event record holds the tickets still available, the list of sales
 * (`sold_to`), a map of reservations keyed by user, and the list of sales
 * not yet posted to their buyers (`pending`). Writes that carry the
 * generation read beforehand (POLICY_GEN_EQ) apply only if the record has
 * not been written since; each write bumps the generation.
 */
module TicketInventory {
  import opened Wrappers
  import opened Tokens
  import opened MapSums

  /** An entry of `sold_to` or `pending`: who bought how many, and the order id where the code adds one. */
  datatype Sale = Sale(who: string, qty: int, order: Option<string>)

  /** A value of the `reservations` map. */
  datatype Hold = Hold(qty: int, ts: int)

  /** A purchase as a user record holds it. */
  datatype Purchase = Purchase(event: string, qty: int)

  /**
   * An event record. The straight-line scripts call the `available` bin
   * `qty`. `create_event` writes only the name and available bins: the
   * `reservations` and `pending` bins exist once an operation has written
   * them, which the two flags record (an absent bin reads as empty here,
   * but indexing the record by it raises KeyError).
   */
  datatype Event = Event(
    name: string,
    available: int,
    soldTo: seq<Sale>,
    reservations: map<string, Hold>,
    pending: seq<Sale>,
    gen: nat,
    hasReservations: bool,
    hasPending: bool)

  /**
   * A user record: the `purchased` list of Part Zero, the `purchases` map
   * keyed by order id of Part Five, and the `purchases` list that
   * posting.py appends to.
   */
  datatype User = User(username: Option<string>, purchased: seq<Purchase>, purchases: map<string, Purchase>, purchaseList: seq<Purchase>)

  datatype Outcome =
    | Done
    | NotFound          // a get of a record that does not exist
    | GenerationError   // a POLICY_GEN_EQ write whose generation is not the record's
    | ElementExists     // a MAP_CREATE_ONLY put of a key already in the map
    | KeyError          // a dictionary lookup of a missing key

  // ---------------------------------------------------------------------
  // Tickets accounted for
  // ---------------------------------------------------------------------

  function HoldQty(h: Hold): int
  {
    h.qty
  }

  /** The tickets sold in a list of sales. */
  function SoldQty(s: seq<Sale>): int
  {
    if s == [] then 0 else SoldQty(s[..|s| - 1]) + s[|s| - 1].qty
  }

  lemma SoldQtyAppend(s: seq<Sale>, x: Sale)
    ensures SoldQty(s + [x]) == SoldQty(s) + x.qty
  {
    assert (s + [x])[..|s|] == s;
  }

  /** Every ticket of an event is available, held by a reservation, or sold. */
  ghost function Stock(e: Event): int
  {
    e.available + SumMap(e.reservations, HoldQty) + SoldQty(e.soldTo)
  }

  // ---------------------------------------------------------------------
  // The writes on an event record
  // ---------------------------------------------------------------------

  /** The operate of `purchase` and `check_availability_and_purchase`: take qty and record the sale. */
  function Sell(e: Event, user: string, qty: int): Event
  {
    e.(available := e.available - qty, soldTo := e.soldTo + [Sale(user, qty, None)], gen := e.gen + 1)
  }

  /** `check_availability_and_purchase`: sells only when enough tickets are left. */
  function CheckedSell(e: Event, user: string, qty: int): Event
  {
    if e.available >= qty then Sell(e, user, qty) else e
  }

  /** The first operate of `reserve`: take qty and hold it for the user, CREATE_ONLY. */
  function HoldTickets(e: Event, user: string, qty: int, ts: int): (Event, Outcome)
  {
    if user in e.reservations then (e, ElementExists)
    else (e.(available := e.available - qty, reservations := e.reservations[user := Hold(qty, ts)], gen := e.gen + 1,
             hasReservations := true), Done)
  }

  /** The second operate of `reserve`: record the sale and drop the hold; `reserve_with_pending` also queues it. */
  function Confirm(e: Event, user: string, qty: int, order: string, queue: bool): Event
  {
    var sale := Sale(user, qty, Some(order));
    e.(soldTo := e.soldTo + [sale], reservations := e.reservations - {user},
       pending := if queue then e.pending + [sale] else e.pending, gen := e.gen + 1,
       hasPending := queue || e.hasPending)
  }

  /** `backout_reservation`: give qty back and drop the user's hold, whatever it held. */
  function Backout(e: Event, user: string, qty: int): Event
  {
    e.(available := e.available + qty, reservations := e.reservations - {user}, gen := e.gen + 1)
  }

  /**
   * `reserve` (queue false) and `reserve_with_pending` (queue true) on the
   * event record: nothing happens when too few tickets are left or the user
   * already holds a reservation; otherwise the hold is confirmed as a sale
   * under the order id when the card is approved and backed out when not.
   */
  function Reserve(e: Event, user: string, qty: int, ts: int, approved: Option<string>, queue: bool): (Event, Outcome)
  {
    if e.available < qty then (e, Done)
    else
      var (held, outcome) := HoldTickets(e, user, qty, ts);
      if outcome != Done then (e, outcome)
      else if approved.Some? then (Confirm(held, user, qty, approved.value, queue), Done)
      else (Backout(held, user, qty), Done)
  }

  lemma SellKeepsStock(e: Event, user: string, qty: int)
    ensures Stock(Sell(e, user, qty)) == Stock(e)
  {
    SoldQtyAppend(e.soldTo, Sale(user, qty, None));
  }

  /**
   * Checking first keeps the available count from going negative and
   * accounts for every ticket; selling without the check does not: 500
   * tickets can be sold out of 495.
   */
  lemma CheckedSellSafe(e: Event, user: string, qty: int)
    requires qty >= 0
    ensures e.available >= 0 ==> CheckedSell(e, user, qty).available >= 0
    ensures Stock(CheckedSell(e, user, qty)) == Stock(e)
    ensures e.available == 495 && qty == 500 ==> Sell(e, user, qty).available == -5
  {
    SellKeepsStock(e, user, qty);
  }

  /** A backout returns exactly the tickets the user held only when qty is what the hold was for. */
  lemma BackoutStock(e: Event, user: string, qty: int)
    ensures Stock(Backout(e, user, qty)) == Stock(e) + qty - (if user in e.reservations then e.reservations[user].qty else 0)
  {
    SumMapRemoveKey(e.reservations, HoldQty, user);
  }

  /** Holding moves qty from `available` into the user's new reservation. */
  lemma HoldKeepsStock(e: Event, user: string, qty: int, ts: int)
    requires user !in e.reservations
    ensures Stock(HoldTickets(e, user, qty, ts).0) == Stock(e)
  {
    SumMapUpdate(e.reservations, HoldQty, user, Hold(qty, ts));
  }

  /** Confirming moves the user's reservation of qty into one sale. */
  lemma ConfirmKeepsStock(h: Event, user: string, qty: int, order: string, queue: bool)
    requires user in h.reservations && h.reservations[user].qty == qty
    ensures Stock(Confirm(h, user, qty, order, queue)) == Stock(h)
  {
    SumMapRemoveKey(h.reservations, HoldQty, user);
    SoldQtyAppend(h.soldTo, Sale(user, qty, Some(order)));
  }

  /**
   * A reservation never creates or loses a ticket, on any path; when it is
   * approved the user's tickets leave `available` and show up as one sale
   * under the order id, and no hold is left for the user.
   */
  lemma ReserveKeepsStock(e: Event, user: string, qty: int, ts: int, approved: Option<string>, queue: bool)
    ensures var (after, outcome) := Reserve(e, user, qty, ts, approved, queue);
      && Stock(after) == Stock(e)
      && (outcome == ElementExists <==> e.available >= qty && user in e.reservations)
      && (e.available >= qty && user !in e.reservations && approved.Some? ==>
            && after.available == e.available - qty
            && after.soldTo == e.soldTo + [Sale(user, qty, approved)]
            && user !in after.reservations
            && after.pending == (if queue then e.pending + [Sale(user, qty, approved)] else e.pending))
      && (e.available >= qty && user !in e.reservations && approved.None? ==>
            after.available == e.available && after.soldTo == e.soldTo && after.reservations == e.reservations)
  {
    if e.available >= qty && user !in e.reservations {
      var held := HoldTickets(e, user, qty, ts).0;
      HoldKeepsStock(e, user, qty, ts);
      if approved.Some? {
        ConfirmKeepsStock(held, user, qty, approved.value, queue);
      } else {
        BackoutStock(held, user, qty);
        assert held.reservations - {user} == e.reservations;
      }
    }
  }

  /** The reservations `expire_reservation` keeps: those made at or after the cutoff. */
  function Unexpired(r: map<string, Hold>, cutoff: int): map<string, Hold>
  {
    map k | k in r && r[k].ts >= cutoff :: r[k]
  }

  /** The reservations `expire_reservation` backs out. */
  function Expired(r: map<string, Hold>, cutoff: int): map<string, Hold>
  {
    map k | k in r && r[k].ts < cutoff :: r[k]
  }

  /** The expired reservations among those already looked at (all but `todo`). */
  function ExpiredAmong(r: map<string, Hold>, cutoff: int, todo: set<string>): map<string, Hold>
  {
    map k | k in r && k !in todo && r[k].ts < cutoff :: r[k]
  }

  /** Looking at one more reservation adds it to the expired ones exactly when it is expired. */
  lemma ExpiredAmongStep(r: map<string, Hold>, cutoff: int, todo: set<string>, i: string)
    requires i in todo && i in r
    ensures ExpiredAmong(r, cutoff, todo - {i}) ==
      if r[i].ts < cutoff then ExpiredAmong(r, cutoff, todo)[i := r[i]] else ExpiredAmong(r, cutoff, todo)
  {
  }

  /**
   * The event once the reservations in `done` have been backed out one by
   * one: what they held is available again, they are gone from the map, and
   * each backout bumped the generation.
   */
  ghost predicate PartlyExpired(now: Event, e: Event, done: map<string, Hold>)
  {
    && now.name == e.name && now.soldTo == e.soldTo && now.pending == e.pending
    && now.available == e.available + SumMap(done, HoldQty)
    && now.reservations == e.reservations - done.Keys
    && now.gen == e.gen + |done|
  }

  /** Backing out one more reservation, with the quantity it holds. */
  lemma ExpireOne(now: Event, e: Event, done: map<string, Hold>, i: string)
    requires PartlyExpired(now, e, done)
    requires i in e.reservations && i !in done
    ensures PartlyExpired(Backout(now, i, e.reservations[i].qty), e, done[i := e.reservations[i]])
  {
    SumMapUpdate(done, HoldQty, i, e.reservations[i]);
    DoneGrows(e.reservations, done, i);
  }

  /** Adding a key not yet done: the map grows by one and one more key leaves the reservations. */
  lemma DoneGrows(r: map<string, Hold>, done: map<string, Hold>, i: string)
    requires i in r && i !in done
    ensures |done[i := r[i]]| == |done| + 1
    ensures (r - done.Keys) - {i} == r - done[i := r[i]].Keys
  {
    assert done[i := r[i]].Keys == done.Keys + {i};
  }

  /** Backing out all expired reservations, each with its own quantity, keeps every ticket. */
  lemma ExpiryKeepsStock(now: Event, e: Event, cutoff: int)
    requires PartlyExpired(now, e, Expired(e.reservations, cutoff))
    ensures Stock(now) == Stock(e)
  {
    SumMapSplit(e.reservations, Expired(e.reservations, cutoff), HoldQty);
  }

  /** Having looked at every reservation, the expired ones found are all of them. */
  lemma ExpiredAmongAll(r: map<string, Hold>, cutoff: int)
    ensures ExpiredAmong(r, cutoff, {}) == Expired(r, cutoff)
  {
  }

  /** Dropping the expired reservations leaves the unexpired ones. */
  lemma UnexpiredRemain(r: map<string, Hold>, cutoff: int)
    ensures r - Expired(r, cutoff).Keys == Unexpired(r, cutoff)
  {
  }

  /** Once every reservation has been looked at, the expired ones are gone and the stock is whole. */
  lemma ExpiryFinished(now: Event, e: Event, cutoff: int)
    requires PartlyExpired(now, e, ExpiredAmong(e.reservations, cutoff, {}))
    ensures PartlyExpired(now, e, Expired(e.reservations, cutoff))
    ensures now.reservations == Unexpired(e.reservations, cutoff)
    ensures Stock(now) == Stock(e)
  {
    ExpiredAmongAll(e.reservations, cutoff);
    UnexpiredRemain(e.reservations, cutoff);
    ExpiryKeepsStock(now, e, cutoff);
  }

  /** The event after the first i pops of `pending`. */
  function Popped(e: Event, i: nat): Event
    requires i <= |e.pending|
  {
    e.(pending := e.pending[i..], gen := e.gen + i)
  }

  lemma PopOne(e: Event, i: nat)
    requires i < |e.pending|
    ensures var p := Popped(e, i); p.(pending := p.pending[1..], gen := p.gen + 1) == Popped(e, i + 1)
  {
    assert e.pending[i..][1..] == e.pending[i + 1..];
  }

  // ---------------------------------------------------------------------
  // Posting pending sales to users
  // ---------------------------------------------------------------------

  function UserOf(users: map<string, User>, who: string): User
  {
    if who in users then users[who] else User(None, [], map[], [])
  }

  /** The map put of Part Five: `purchases[order] = {event, qty}` in the buyer's record, created if missing. */
  function PutPurchase(users: map<string, User>, event: string, sale: Sale): map<string, User>
    requires sale.order.Some?
  {
    var u := UserOf(users, sale.who);
    users[sale.who := u.(purchases := u.purchases[sale.order.value := Purchase(event, sale.qty)])]
  }

  /** Every sale of the list put into its buyer's `purchases` map, front to back. */
  function Posted(users: map<string, User>, event: string, sales: seq<Sale>): map<string, User>
    requires forall k :: 0 <= k < |sales| ==> sales[k].order.Some?
  {
    if sales == [] then users
    else PutPurchase(Posted(users, event, sales[..|sales| - 1]), event, sales[|sales| - 1])
  }

  lemma PostedPrefixStep(users: map<string, User>, event: string, pending: seq<Sale>, i: nat)
    requires i < FirstUnordered(pending)
    ensures Posted(users, event, pending[..i + 1]) == PutPurchase(Posted(users, event, pending[..i]), event, pending[i])
  {
    assert pending[..i + 1][..i] == pending[..i];
  }

  /** The index of the first sale without an order id (the length when there is none). */
  function FirstUnordered(sales: seq<Sale>): (r: nat)
    ensures r <= |sales|
    ensures forall k :: 0 <= k < r ==> sales[k].order.Some?
    ensures r < |sales| ==> sales[r].order.None?
  {
    if sales == [] || sales[0].order.None? then 0 else 1 + FirstUnordered(sales[1..])
  }

  /**
   * With distinct order ids, posting puts every sale under its order id in
   * its buyer's record, and leaves users who bought nothing alone.
   */
  lemma {:induction false} PostedRecordsEverySale(users: map<string, User>, event: string, sales: seq<Sale>)
    requires forall k :: 0 <= k < |sales| ==> sales[k].order.Some?
    requires forall j, k :: 0 <= j < k < |sales| ==> sales[j].order != sales[k].order
    ensures var after := Posted(users, event, sales);
      && (forall k :: 0 <= k < |sales| ==>
            && sales[k].who in after && sales[k].order.value in after[sales[k].who].purchases
            && after[sales[k].who].purchases[sales[k].order.value] == Purchase(event, sales[k].qty))
      && (forall w :: w in users && (forall k :: 0 <= k < |sales| ==> sales[k].who != w) ==> w in after && after[w] == users[w])
  {
    if sales != [] {
      var init := sales[..|sales| - 1];
      PostedRecordsEverySale(users, event, init);
      forall k | 0 <= k < |init|
        ensures init[k] == sales[k]
      {
      }
    }
  }

  /** The list append of posting.py: `{event, qty}` at the end of the buyer's `purchases` list. */
  function AppendPurchase(users: map<string, User>, event: string, sale: Sale): map<string, User>
  {
    var u := UserOf(users, sale.who);
    users[sale.who := u.(purchaseList := u.purchaseList + [Purchase(event, sale.qty)])]
  }

  function AppendedAll(users: map<string, User>, event: string, sales: seq<Sale>): map<string, User>
  {
    if sales == [] then users
    else AppendPurchase(AppendedAll(users, event, sales[..|sales| - 1]), event, sales[|sales| - 1])
  }

  lemma AppendedStep(users: map<string, User>, event: string, sales: seq<Sale>, i: nat)
    requires i < |sales|
    ensures AppendedAll(users, event, sales[..i + 1]) == AppendPurchase(AppendedAll(users, event, sales[..i]), event, sales[i])
  {
    assert sales[..i + 1][..i] == sales[..i];
  }

  function Purchases(event: string, sales: seq<Sale>): (r: seq<Purchase>)
    ensures |r| == |sales| && forall k :: 0 <= k < |sales| ==> r[k] == Purchase(event, sales[k].qty)
  {
    if sales == [] then [] else Purchases(event, sales[..|sales| - 1]) + [Purchase(event, sales[|sales| - 1].qty)]
  }

  /** Posting drains FIFO: a buyer's list gains their pending sales in the order they were queued. */
  lemma {:induction false} AppendedInOrder(users: map<string, User>, event: string, sales: seq<Sale>, who: string)
    requires forall k :: 0 <= k < |sales| ==> sales[k].who == who
    ensures var after := AppendedAll(users, event, sales);
      (sales != [] ==> who in after) && UserOf(after, who).purchaseList == UserOf(users, who).purchaseList + Purchases(event, sales)
  {
    if sales != [] {
      AppendedInOrder(users, event, sales[..|sales| - 1], who);
    }
  }

  // ---------------------------------------------------------------------
  // The store
  // ---------------------------------------------------------------------

  class Inventory {
    var events: map<string, Event>
    var users: map<string, User>

    constructor ()
      ensures events == map[] && users == map[]
    {
      events, users := map[], map[];
    }

    /** `create_event`: a put of the name and available bins; other bins of an existing record stay. */
    method CreateEvent(event: string, available: int)
      modifies this
      ensures events == old(events)[event := if event in old(events)
        then old(events)[event].(name := event, available := available, gen := old(events)[event].gen + 1)
        else Event(event, available, [], map[], [], 1, false, false)]
      ensures users == old(users)
    {
      if event in events {
        events := events[event := events[event].(name := event, available := available, gen := events[event].gen + 1)];
      } else {
        events := events[event := Event(event, available, [], map[], [], 1, false, false)];
      }
    }

    /** `create_user`: a put of the username bin. */
    method CreateUser(user: string)
      modifies this
      ensures users == old(users)[user := UserOf(old(users), user).(username := Some(user))]
      ensures events == old(events)
    {
      users := users[user := UserOf(users, user).(username := Some(user))];
    }

    /**
     * `simple_purchase`, as written: the put of the new count goes with an
     * empty meta under the generation-equal policy, so it carries
     * generation 0 and only a record at generation 0 takes it.
     */
    method SimplePurchaseAsWritten(user: string, event: string, qty: int) returns (outcome: Outcome)
      modifies this
      ensures event !in old(events) ==> outcome == NotFound && events == old(events) && users == old(users)
      ensures event in old(events) && old(events)[event].gen != 0 ==>
        outcome == GenerationError && events == old(events) && users == old(users)
      ensures event in old(events) && old(events)[event].gen == 0 ==>
        && outcome == Done
        && events == old(events)[event := old(events)[event].(available := old(events)[event].available - qty, gen := 1)]
        && users == old(users)[user := UserOf(old(users), user).(purchased := UserOf(old(users), user).purchased + [Purchase(event, qty)])]
    {
      if event !in events {
        return NotFound;
      }
      var e := events[event];
      var meta := 0;
      if e.gen != meta {
        return GenerationError;
      }
      events := events[event := e.(available := e.available - qty, gen := e.gen + 1)];
      var u := UserOf(users, user);
      users := users[user := u.(purchased := u.purchased + [Purchase(event, qty)])];
      outcome := Done;
    }

    /** `simple_purchase` with the meta just read: the count drops by qty with no check, then the purchase is listed. */
    method SimplePurchase(user: string, event: string, qty: int) returns (outcome: Outcome)
      modifies this
      ensures event !in old(events) ==> outcome == NotFound && events == old(events) && users == old(users)
      ensures event in old(events) ==>
        && outcome == Done
        && events == old(events)[event := old(events)[event].(available := old(events)[event].available - qty,
                                                            gen := old(events)[event].gen + 1)]
        && users == old(users)[user := UserOf(old(users), user).(purchased := UserOf(old(users), user).purchased + [Purchase(event, qty)])]
    {
      if event !in events {
        return NotFound;
      }
      var e := events[event];
      var meta := e.gen;
      if e.gen != meta {
        return GenerationError;
      }
      events := events[event := e.(available := e.available - qty, gen := e.gen + 1)];
      var u := UserOf(users, user);
      users := users[user := u.(purchased := u.purchased + [Purchase(event, qty)])];
      outcome := Done;
    }

    /** `purchase`: one operate writes the new count and appends the sale; nothing stops it going negative. */
    method PurchaseTickets(user: string, event: string, qty: int) returns (outcome: Outcome)
      modifies this
      ensures event !in old(events) ==> outcome == NotFound && events == old(events)
      ensures event in old(events) ==> outcome == Done && events == old(events)[event := Sell(old(events)[event], user, qty)]
      ensures users == old(users)
    {
      if event !in events {
        return NotFound;
      }
      var e := events[event];
      var meta := e.gen;
      if events[event].gen != meta {
        return GenerationError;
      }
      events := events[event := e.(available := e.available - qty, soldTo := e.soldTo + [Sale(user, qty, None)], gen := e.gen + 1)];
      outcome := Done;
    }

    /** `check_availability_and_purchase` */
    method CheckAvailabilityAndPurchase(user: string, event: string, qty: int) returns (outcome: Outcome)
      modifies this
      ensures event !in old(events) ==> outcome == NotFound && events == old(events)
      ensures event in old(events) ==> outcome == Done && events == old(events)[event := CheckedSell(old(events)[event], user, qty)]
      ensures users == old(users)
    {
      if event !in events {
        return NotFound;
      }
      var e := events[event];
      var meta := e.gen;
      outcome := Done;
      if e.available >= qty {
        if events[event].gen != meta {
          return GenerationError;
        }
        events := events[event := e.(available := e.available - qty, soldTo := e.soldTo + [Sale(user, qty, None)], gen := e.gen + 1)];
      }
    }

    /**
     * `backout_reservation(key, meta, user, qty)`: a generation-checked
     * operate; returns the new generation.
     */
    method BackoutReservation(event: string, meta: nat, user: string, qty: int) returns (outcome: Outcome, newMeta: nat)
      modifies this
      ensures event !in old(events) ==> outcome == NotFound && events == old(events)
      ensures event in old(events) && old(events)[event].gen != meta ==> outcome == GenerationError && events == old(events)
      ensures event in old(events) && old(events)[event].gen == meta ==>
        outcome == Done && events == old(events)[event := Backout(old(events)[event], user, qty)] && newMeta == meta + 1
      ensures users == old(users)
    {
      if event !in events {
        return NotFound, meta;
      }
      if events[event].gen != meta {
        return GenerationError, meta;
      }
      var e := events[event];
      events := events[event := e.(available := e.available + qty, reservations := e.reservations - {user}, gen := e.gen + 1)];
      outcome, newMeta := Done, meta + 1;
    }

    /**
     * `reserve` (queue false) and `reserve_with_pending` (queue true).
     * The card check is a parameter: approved or not. The order id is drawn
     * only for an approved card.
     */
    method ReserveTickets(user: string, event: string, qty: int, approved: bool, choices: seq<nat>, now: int, queue: bool)
      returns (outcome: Outcome, order: Option<string>)
      requires Choices(choices)
      modifies this
      ensures event !in old(events) ==> outcome == NotFound && events == old(events)
      ensures order.Some? ==> IsToken(order.value)
      ensures event in old(events) ==>
        (order.Some? <==> approved && old(events)[event].available >= qty && user !in old(events)[event].reservations)
        && event in events && (events[event], outcome) == Reserve(old(events)[event], user, qty, now, order, queue)
        && events == old(events)[event := events[event]]
      ensures users == old(users)
    {
      order := None;
      if event !in events {
        return NotFound, None;
      }
      var e := events[event];
      var meta := e.gen;
      outcome := Done;
      if e.available < qty {
        return;
      }
      if user in e.reservations {
        return ElementExists, None;
      }
      events := events[event := e.(available := e.available - qty, reservations := e.reservations[user := Hold(qty, now)], gen := e.gen + 1,
                                   hasReservations := true)];
      meta := meta + 1;
      if approved {
        var id := GenerateToken(choices);
        var held := events[event];
        if !queue && held.gen != meta {
          return GenerationError, None;
        }
        var sale := Sale(user, qty, Some(id));
        events := events[event := held.(soldTo := held.soldTo + [sale], reservations := held.reservations - {user},
                                        pending := if queue then held.pending + [sale] else held.pending, gen := held.gen + 1,
                                        hasPending := queue || held.hasPending)];
        order := Some(id);
      } else {
        var _, _ := BackoutReservation(event, meta, user, qty);
      }
    }

    /**
     * `expire_reservation`: every reservation made before `now - 30` is
     * backed out, in whatever order the map yields them, each with the
     * generation the previous backout returned; the rest stay.
     */
    method ExpireReservation(event: string, now: int) returns (outcome: Outcome)
      modifies this
      ensures event !in old(events) ==> outcome == NotFound && events == old(events)
      ensures event in old(events) && !old(events)[event].hasReservations ==> outcome == KeyError && events == old(events)
      ensures event in old(events) && old(events)[event].hasReservations ==>
        var e := old(events)[event];
        && outcome == Done
        && event in events && events == old(events)[event := events[event]]
        && PartlyExpired(events[event], e, Expired(e.reservations, now - 30))
        && events[event].reservations == Unexpired(e.reservations, now - 30)
        && Stock(events[event]) == Stock(e)
      ensures users == old(users)
    {
      if event !in events {
        return NotFound;
      }
      var e := events[event];
      if !e.hasReservations {
        return KeyError;
      }
      var meta := e.gen;
      var cutoff := now - 30;
      var todo := e.reservations.Keys;
      assert ExpiredAmong(e.reservations, cutoff, todo) == map[];
      assert e.reservations - {} == e.reservations;
      var store := events;
      var current := e;
      while todo != {}
        invariant todo <= e.reservations.Keys
        invariant events == store[event := current]
        invariant PartlyExpired(current, e, ExpiredAmong(e.reservations, cutoff, todo))
        invariant meta == current.gen
        invariant users == old(users)
        decreases |todo|
      {
        var i :| i in todo;
        var res := e.reservations[i];
        ExpiredAmongStep(e.reservations, cutoff, todo, i);
        if res.ts < cutoff {
          ExpireOne(current, e, ExpiredAmong(e.reservations, cutoff, todo), i);
          // backout_reservation(key, meta, i, qty): with no other writer the
          // generation the loop carries always matches the record's
          current := Backout(current, i, res.qty);
          events := store[event := current];
          meta := meta + 1;
        }
        todo := todo - {i};
      }
      ExpiryFinished(current, e, cutoff);
      outcome := Done;
    }

    /**
     * `post_purchases`, as written. The pop after each posting is
     * generation-checked, but line 280 unpacks the operate's result in the
     * wrong order and hands the popped bins on as the next meta, which
     * carries no generation. So the first pop applies, and when a second
     * sale is pending it is posted to its buyer and then its pop is refused.
     */
    method PostPurchasesAsWritten(event: string) returns (outcome: Outcome)
      modifies this
      ensures event !in old(events) ==> outcome == NotFound && events == old(events) && users == old(users)
      ensures event in old(events) && !old(events)[event].hasPending ==>
        outcome == KeyError && events == old(events) && users == old(users)
      ensures event in old(events) && old(events)[event].hasPending ==>
        var e := old(events)[event];
        var p := e.pending;
        && (p == [] ==> outcome == Done && events == old(events) && users == old(users))
        && (p != [] && p[0].order.None? ==> outcome == KeyError && events == old(events) && users == old(users))
        && (p != [] && p[0].order.Some? ==>
              && events == old(events)[event := e.(pending := p[1..], gen := e.gen + 1)]
              && (|p| == 1 ==> outcome == Done && users == PutPurchase(old(users), event, p[0]))
              && (|p| >= 2 && p[1].order.None? ==> outcome == KeyError && users == PutPurchase(old(users), event, p[0]))
              && (|p| >= 2 && p[1].order.Some? ==>
                    outcome == GenerationError && users == PutPurchase(PutPurchase(old(users), event, p[0]), event, p[1])))
    {
      if event !in events {
        return NotFound;
      }
      var e := events[event];
      if !e.hasPending {
        return KeyError;
      }
      var meta := e.gen;
      var i := 0;
      while i < |e.pending|
        invariant 0 <= i <= 1 && i <= |e.pending|
        invariant i == 0 ==> events == old(events) && users == old(users) && meta == e.gen
        invariant i == 1 ==>
          e.pending[0].order.Some? && meta == 0
          && events == old(events)[event := e.(pending := e.pending[1..], gen := e.gen + 1)]
          && users == PutPurchase(old(users), event, e.pending[0])
      {
        var res := e.pending[i];
        if res.order.None? {
          return KeyError;
        }
        users := PutPurchase(users, event, res);
        var current := events[event];
        if current.gen != meta {
          return GenerationError;
        }
        events := events[event := current.(pending := current.pending[1..], gen := current.gen + 1)];
        meta := 0;  // the popped bins, which carry no generation
        i := i + 1;
      }
      outcome := Done;
    }

    /** `post_purchases` with each pop checked against the generation the previous one returned. */
    method PostPurchases(event: string) returns (outcome: Outcome)
      modifies this
      ensures event !in old(events) ==> outcome == NotFound && events == old(events) && users == old(users)
      ensures event in old(events) && !old(events)[event].hasPending ==>
        outcome == KeyError && events == old(events) && users == old(users)
      ensures event in old(events) && old(events)[event].hasPending ==>
        var e := old(events)[event];
        var j := FirstUnordered(e.pending);
        && outcome == (if j == |e.pending| then Done else KeyError)
        && events == old(events)[event := Popped(e, j)]
        && users == Posted(old(users), event, e.pending[..j])
    {
      if event !in events {
        return NotFound;
      }
      var e := events[event];
      if !e.hasPending {
        return KeyError;
      }
      var store := events;
      var current := e;
      var meta := e.gen;
      var i := 0;
      while i < |e.pending|
        invariant 0 <= i <= FirstUnordered(e.pending)
        invariant current == Popped(e, i) && events == store[event := current]
        invariant meta == e.gen + i
        invariant users == Posted(old(users), event, e.pending[..i])
      {
        var res := e.pending[i];
        if res.order.None? {
          assert i == FirstUnordered(e.pending);
          return KeyError;
        }
        PostedPrefixStep(old(users), event, e.pending, i);
        users := PutPurchase(users, event, res);
        if current.gen != meta {
          return GenerationError;
        }
        PopOne(e, i);
        current := current.(pending := current.pending[1..], gen := current.gen + 1);
        events := store[event := current];
        meta := meta + 1;
        i := i + 1;
      }
      assert e.pending[..i] == e.pending;
      outcome := Done;
    }

    /**
     * The posting loop of posting.py, as written: every pop reuses the
     * meta read before the loop, so the first pop applies and the second
     * one, after its sale has been appended to the buyer, is refused.
     */
    method PostPendingAsWritten(event: string) returns (outcome: Outcome)
      modifies this
      ensures event !in old(events) ==> outcome == NotFound && events == old(events) && users == old(users)
      ensures event in old(events) && !old(events)[event].hasPending ==>
        outcome == KeyError && events == old(events) && users == old(users)
      ensures event in old(events) && old(events)[event].hasPending ==>
        var e := old(events)[event];
        var p := e.pending;
        && (p == [] ==> outcome == Done && events == old(events) && users == old(users))
        && (p != [] ==> events == old(events)[event := e.(pending := p[1..], gen := e.gen + 1)])
        && (|p| == 1 ==> outcome == Done && users == AppendPurchase(old(users), event, p[0]))
        && (|p| >= 2 ==> outcome == GenerationError && users == AppendedAll(old(users), event, p[..2]))
    {
      if event !in events {
        return NotFound;
      }
      var e := events[event];
      if !e.hasPending {
        return KeyError;
      }
      var meta := e.gen;
      var i := 0;
      while i < |e.pending|
        invariant 0 <= i <= 1 && i <= |e.pending|
        invariant i == 0 ==> events == old(events) && users == old(users)
        invariant i == 1 ==>
          events == old(events)[event := e.(pending := e.pending[1..], gen := e.gen + 1)]
          && users == AppendPurchase(old(users), event, e.pending[0])
      {
        var res := e.pending[i];
        users := AppendPurchase(users, event, res);
        var current := events[event];
        if current.gen != meta {
          assert e.pending[..2][..1] == [e.pending[0]] && [e.pending[0]][..0] == [];
          assert AppendedAll(old(users), event, [e.pending[0]]) == AppendPurchase(old(users), event, e.pending[0]);
          return GenerationError;
        }
        events := events[event := current.(pending := current.pending[1..], gen := current.gen + 1)];
        i := i + 1;
      }
      outcome := Done;
    }

    /** The posting loop of posting.py with the meta re-read before each pop: the whole queue drains FIFO. */
    method PostPending(event: string) returns (outcome: Outcome)
      modifies this
      ensures event !in old(events) ==> outcome == NotFound && events == old(events) && users == old(users)
      ensures event in old(events) && !old(events)[event].hasPending ==>
        outcome == KeyError && events == old(events) && users == old(users)
      ensures event in old(events) && old(events)[event].hasPending ==>
        var e := old(events)[event];
        && outcome == Done
        && events == old(events)[event := e.(pending := [], gen := e.gen + |e.pending|)]
        && users == AppendedAll(old(users), event, e.pending)
    {
      if event !in events {
        return NotFound;
      }
      var e := events[event];
      if !e.hasPending {
        return KeyError;
      }
      var i := 0;
      while i < |e.pending|
        invariant 0 <= i <= |e.pending|
        invariant event in events && events == old(events)[event := Popped(e, i)]
        invariant users == AppendedAll(old(users), event, e.pending[..i])
      {
        var res := e.pending[i];
        AppendedStep(old(users), event, e.pending, i);
        users := AppendPurchase(users, event, res);
        var meta := events[event].gen;
        var current := events[event];
        if current.gen != meta {
          return GenerationError;
        }
        PopOne(e, i);
        events := events[event := current.(pending := current.pending[1..], gen := current.gen + 1)];
        i := i + 1;
      }
      assert e.pending[i..] == [];
      assert e.pending[..i] == e.pending;
      assert e.pending[..i] == e.pending;
      outcome := Done;
    }
  }

  // ---------------------------------------------------------------------
  // The straight-line scripts
  // ---------------------------------------------------------------------

  /**
   * reserving2.py: 5 of Fred's tickets are reserved out of 500, then
   * sold and queued for posting; every ticket is still accounted for and
   * no reservation is left.
   */
  method Reserving2(now: int) returns (inv: Inventory)
    ensures "Mens 100m Final" in inv.events
    ensures var e := inv.events["Mens 100m Final"];
      && e.available == 495 && e.soldTo == [Sale("Fred", 5, None)] && e.pending == [Sale("Fred", 5, None)]
      && "Fred" !in e.reservations
      && e.available + SoldQty(e.soldTo) == 500
  {
    var event, requestor, requested := "Mens 100m Final", "Fred", 5;
    inv := new Inventory();
    inv.CreateEvent(event, 500);
    inv.CreateUser(requestor);
    var e := inv.events[event];
    var meta := e.gen;
    if e.available >= requested {
      // the first operate: the new count and the reservation
      if inv.events[event].gen == meta {
        inv.events := inv.events[event := e.(available := e.available - requested,
                                             reservations := e.reservations[requestor := Hold(requested, now)], gen := e.gen + 1,
                                             hasReservations := true)];
        meta := meta + 1;
      }
      // the second operate: the sale, the reservation dropped, the sale queued
      var held := inv.events[event];
      if held.gen == meta {
        var sale := Sale(requestor, requested, None);
        inv.events := inv.events[event := held.(soldTo := held.soldTo + [sale], reservations := held.reservations - {requestor},
                                                pending := held.pending + [sale], gen := held.gen + 1, hasPending := true)];
      }
    }
  }

  /**
   * posting.py: the one pending sale of 5 reaches Fred's purchases and
   * leaves the queue; the count and the sales list are untouched.
   */
  method Posting() returns (inv: Inventory, outcome: Outcome)
    ensures outcome == Done
    ensures "Mens 100m Final" in inv.events && "Fred" in inv.users
    ensures var e := inv.events["Mens 100m Final"];
      e.available == 495 && e.soldTo == [Sale("Fred", 5, None)] && e.pending == []
    ensures inv.users["Fred"].purchaseList == [Purchase("Mens 100m Final", 5)]
  {
    var event := "Mens 100m Final";
    inv := new Inventory();
    inv.events := inv.events[event := Event(event, 495, [Sale("Fred", 5, None)], map[], [Sale("Fred", 5, None)], 1, false, true)];
    inv.CreateUser("Fred");
    outcome := inv.PostPendingAsWritten(event);
  }

  /** purchase_within_user.py: one operate takes 5 of 500 and lists the sale; the name stays. */
  method PurchaseWithinUser() returns (inv: Inventory)
    ensures "Mens 100m Final" in inv.events
    ensures var e := inv.events["Mens 100m Final"];
      e.name == "Mens 100m Final" && e.available == 495 && e.soldTo == [Sale("Fred", 5, None)]
  {
    var event, requestor, requested := "Mens 100m Final", "Fred", 5;
    inv := new Inventory();
    inv.CreateEvent(event, 500);
    inv.CreateUser(requestor);
    var e := inv.events[event];
    // one operate, no generation condition
    inv.events := inv.events[event := e.(available := e.available - requested,
                                         soldTo := e.soldTo + [Sale(requestor, requested, None)], gen := e.gen + 1)];
  }

  /**
   * decrementing_inventory.py: two separate writes, the new count and then
   * the user's purchase; Fred ends with one purchase of 5 and 495 remain.
   */
  method DecrementingInventory() returns (inv: Inventory)
    ensures "Mens 100m Final" in inv.events && "Fred" in inv.users
    ensures inv.events["Mens 100m Final"].available == 495
    ensures inv.users["Fred"].purchased == [Purchase("Mens 100m Final", 5)]
    ensures inv.users["Fred"].username == Some("Fred")
  {
    var event, requestor, requested := "Mens 100m Final", "Fred", 5;
    inv := new Inventory();
    inv.CreateEvent(event, 500);
    inv.CreateUser(requestor);
    var e := inv.events[event];
    inv.events := inv.events[event := e.(available := e.available - requested, gen := e.gen + 1)];
    var u := UserOf(inv.users, requestor);
    inv.users := inv.users[requestor := u.(purchased := u.purchased + [Purchase(event, requested)])];
  }

  /**
   * An event just created has neither a `reservations` nor a `pending` bin,
   * so `expire_reservation` and `post_purchases` both raise KeyError on it.
   */
  method MissingBinsRun(now: int) returns (expired: Outcome, posted: Outcome)
    ensures expired == KeyError && posted == KeyError
  {
    var inv := new Inventory();
    inv.CreateEvent("Mens Discus", 500);
    expired := inv.ExpireReservation("Mens Discus", now);
    posted := inv.PostPurchases("Mens Discus");
  }

  /** Part Zero of all.py as written: a new event refuses the put, so the purchase never happens. */
  method SimplePurchaseRefused() returns (inv: Inventory, outcome: Outcome)
    ensures outcome == GenerationError
    ensures "Mens 800m Final" in inv.events && inv.events["Mens 800m Final"].available == 500
    ensures "Fred" in inv.users && inv.users["Fred"].purchased == []
  {
    inv := new Inventory();
    inv.CreateUser("Fred");
    inv.CreateEvent("Mens 800m Final", 500);
    outcome := inv.SimplePurchaseAsWritten("Fred", "Mens 800m Final", 5);
  }

  /** Part Zero with the meta passed: 5 of 500 are bought and listed for Fred. */
  method SimplePurchaseApplied() returns (inv: Inventory, outcome: Outcome)
    ensures outcome == Done
    ensures "Mens 800m Final" in inv.events && inv.events["Mens 800m Final"].available == 495
    ensures "Fred" in inv.users && inv.users["Fred"].purchased == [Purchase("Mens 800m Final", 5)]
  {
    inv := new Inventory();
    inv.CreateUser("Fred");
    inv.CreateEvent("Mens 800m Final", 500);
    outcome := inv.SimplePurchase("Fred", "Mens 800m Final", 5);
  }
}
