# Data-modeling tutorials in Dafny

A Dafny model of the logic in the data-modeling tutorial scripts. The scripts drive Redis and Aerospike. Each store record becomes an in-memory value: an Aerospike record is a datatype of bins plus a generation, a Redis hash is a datatype of optional fields, and lists, sets and maps are Dafny sequences, sets and maps. A store whose records the scripts update becomes a class whose map fields the methods reassign. A generation-checked (POLICY_GEN_EQ) or watched (WATCH/MULTI) write applies completely or not at all. A conflict caused by another writer is a boolean parameter. Clocks (`time.time()`), the random order and token ids, and the card check are parameters too.

The modules follow the scripts:

- `SeatMap` (redis/inventory/check_inventory.py): row names in bijective base 26, the seat bitmask of a row, the block search, and the reservation that clears a block with XOR. `Bits` holds the arithmetic on unbounded bit patterns that these use.
- `Tokens`: the six-character A–Z/0–9 identifiers of `generate_token`, `generate_order_id` and `generate_xfer`.
- `DeviceAccounts` (aerospike/state_machines/activate.py, provisioning.py and all.py): per-device accounts with a map of services, provisioning and the entitlement rules (token match, failure count, suspension).
- `ActivationQueue` (aerospike/state_machines/queue.py and the queue part of all.py): the todo, entitlement and devices lists of an activation record, and the claim-by-timestamp loops.
- `RedisActivation` (redis/state_machines/all.py, parts one to three): provisioning and entitlement on an account hash, and the list-to-list transitions of the activation stages with the in-flight counter.
- `DebitCredit` (aerospike/credit_debit/all.py): the simple transfer, the compare-state-then-write transition, and the Begin → Approved → Funding → Debited → Credited workflow, or Begin → Insufficient Funds.
- `TicketInventory` (aerospike/inventory/all.py and the straight-line scripts reserving2.py, posting.py, purchase_within_user.py and decrementing_inventory.py): purchases, reservations with back-out and expiry, and the pending queue posted to users.
- `RedisTickets` (redis/inventory/all.py): the same on Redis hashes and lists, the stock accounting against capacity, posting to invoices and sales, and the hour-of-day histogram.
- `Reparenting` (aerospike/reparenting/all.py): the two-sided transfer of a part between locations.
- `ActivityStream` (aerospike/activity_stream/all.py): fan-out on write, and fan-out into buckets of three posts with a newest-first inbox read.
- `Wrappers` and `MapSums`: an Option type, and sums over maps.

Where a script does something its authors evidently did not intend, the model has both a member that does what the code does (named `…AsWritten`, or a run that exhibits it) and a corrected member that the rest of the model uses. These are listed under "## Findings".

Other behaviour of the code that the model keeps as written:

- `simple_debit_credit` from an account to itself nets to zero, since it is two increments (`DebitCredit.SimpleTransferConserves` has no `from != to` condition). The workflow is different: `process_debit_credit` on a self-transfer debits the account, and then the credit side's CREATE_ONLY map put finds the id the debit has just written and fails with ElementExists. The transfer stops at Debited with the amount gone (`DebitCredit.RunSelfTransferLosesAmount`).
- `create_event` and `check_availability_and_purchase` in aerospike/inventory/all.py key the event by the module-level `for_event`, not their argument. The model uses the argument. In the script the two always agree.
- `creditcard_auth` always approves. The model takes the approval as a parameter.
- `process_debit` runs only on a transfer at Approved. When the payer can no longer cover it, it calls `process_insufficient_funds`, whose transition expects Begin and so does nothing: the transfer stays at Approved (`DebitCredit.DebitUnfundedStaysApproved`). Only `process_debit_credit`, which checks funding at Begin, reaches Insufficient Funds.
- In redis/inventory/all.py a user who reserves again while holding tickets leaves an orphaned hold (`RedisTickets.RepeatReserveOrphansHold`).
- `add_transfer_requests` never updates the transfer record; its two sides stay Ready.
- The Redis WATCH is set on the client, not on the pipeline, so it guards nothing in the code as written. The model treats a conflict as a parameter that drops the transaction's writes, which is what the scripts evidently mean.
- `transition` in redis/state_machines/all.py:113 watches `event_playload:<id>`, a misspelling of the payload key it then reads, so that watch would guard nothing even on the pipeline. The model's `Transition` has no conflict case.
- In aerospike/inventory/all.py `create_event` writes only the name and available bins. `expire_reservation` and `post_purchases` index the record by `reservations` and `pending`, so on an event where nothing has written those bins they raise KeyError (`TicketInventory.MissingBinsRun`). An emptied map or list stays as a bin.
- `post_msg_fanout` and `post_msg_bucketing` append the sender to the caller's list in place. Reusing a list therefore sends to the sender twice (`ActivityStream.ReusedListRun`).
- The "50 messages" comment in `post_msg_bucketing` does not match `calc_bucket`, which makes buckets of three. The model follows the code.

## Model

| member | source | states |
|---|---|---|
| Bits.MaskedTest | redis/inventory/check_inventory.py:60-64 | the window test `(seat_map & block) == block` with block `(2**k - 1) << s` holds exactly when seats s+1 .. s+k are all free |
| Bits.XorBlock | redis/inventory/check_inventory.py:121-127 | XOR with the block `(2**k - 1) << (first - 1)` flips exactly the block's bits and keeps every other bit |
| Bits.BitBelowLength | redis/inventory/check_inventory.py:59 | no bit at or above `bit_length()` is set, so a scan up to bit_length + 1 sees every free seat |
| Tokens.GenerateToken | aerospike/state_machines/all.py:19-21 | the token is six characters, each drawn from A–Z and 0–9, character i being the i-th draw |
| Tokens.ChoicesDistinct | redis/inventory/check_inventory.py:93-95 | different draws give different identifiers, because the 36-character alphabet repeats no character |
| SeatMap.IncrementChar | redis/inventory/check_inventory.py:15-16 | on a capital letter, 'Z' wraps to 'A' and any other letter becomes the next one (digit value d becomes d mod 26 + 1) |
| SeatMap.RStripZ | redis/inventory/check_inventory.py:19 | `rstrip('Z')` returns a prefix of the string, drops only trailing 'Z's and leaves no 'Z' at its end |
| SeatMap.IncrementStrSplit | redis/inventory/check_inventory.py:18-23 | with a non-'Z' character c followed by n 'Z's, the result keeps the prefix, increments c and turns the n 'Z's into 'A's, so the length is kept |
| SeatMap.IncrementStrAllZ | redis/inventory/check_inventory.py:19-22 | a string of n 'Z's, the empty string included, becomes n + 1 'A's ("Z" becomes "AA") |
| SeatMap.IncrementStrAddsOne | redis/inventory/check_inventory.py:18-23 | on row names, `increment_str` adds one in bijective base 26 and yields another row name |
| SeatMap.RowName | redis/inventory/check_inventory.py:28-32 | row k of an event is the row name whose base-26 value is k + 1 |
| SeatMap.ValueInjective | redis/inventory/check_inventory.py:28-32 | distinct row names have distinct values, so `create_event` never writes the same row twice |
| SeatMap.EveryNameIsARow | redis/inventory/check_inventory.py:28-32 | every non-empty capital-letter name is the name of some row |
| SeatMap.AvailableSpec | redis/inventory/check_inventory.py:54-65 | the scan reports exactly the fully free blocks of k seats starting at seats 1 .. end_seat, in increasing order of first seat, each with last = first + k − 1 |
| SeatMap.ScanFindsEveryBlock | redis/inventory/check_inventory.py:58-59 | without a first seat, every free block of the row is reported |
| SeatMap.GetAvailable | redis/inventory/check_inventory.py:54-65 | the loop with its shifting block returns the blocks that AvailableSpec characterises, with end_seat as the code computes it |
| SeatMap.EventRowStep | redis/inventory/check_inventory.py:29-32 | each pass of the `create_event` loop adds exactly the one new row name |
| SeatMap.FirstTaken | redis/inventory/check_inventory.py:114-119 | the first seat of the block whose hold already exists, or last + 1; every seat before it is free of holds |
| SeatMap.SeatStore.constructor | redis/inventory/check_inventory.py:12 | the store starts empty |
| SeatMap.SeatStore.CreateEvent | redis/inventory/check_inventory.py:25-32 | records rows and seats_per_row; when there is a row and the full-row map does not fit a signed long, the first pack raises and no row is written; otherwise writes exactly the event's rows RowName(0) .. RowName(rows − 1) with every seat free, and leaves all else as it was |
| SeatMap.SeatStore.SetSeatMap | redis/inventory/check_inventory.py:90-91 | a map that does not fit a signed long raises and writes nothing; any other map is written to its one row and nothing else changes |
| SeatMap.MaskFitsLong | redis/inventory/check_inventory.py:30-31 | `struct.pack('l', 2**k - 1)` succeeds exactly when k < 64, so `create_event` fails for 64 or more seats per row |
| SeatMap.SeatStore.FindSeatSelection | redis/inventory/check_inventory.py:67-77 | for every row of the event, the free blocks `get_availbale` reports; a row without any is left out |
| SeatMap.SeatStore.Reservation | redis/inventory/check_inventory.py:106-136 | as written: the test accepts any free block starting at seats 1 .. last; holds are taken seat by seat until the first taken seat; on success the row is XORed with the order key's block and True returned, on failure the row is unchanged |
| SeatMap.SeatStore.ReserveBlock | redis/inventory/check_inventory.py:106-136 | corrected test: reserves only when seats first .. last are all free, then clears exactly those seats and no others; otherwise nothing changes |
| SeatMap.SoldSeatsReservedAgain | redis/inventory/check_inventory.py:112-127 | on the row map 3, reserving seats 3 .. 4 as written succeeds and marks the two sold seats free again (map 15) |
| SeatMap.SoldSeatsRefused | redis/inventory/check_inventory.py:112-127 | the corrected test refuses that request and leaves the row map 3 |
| DeviceAccounts.Auth | aerospike/state_machines/activate.py:6-10 | an entry that is not "Active" is never authorised; an active one is authorised exactly when the coin toss says so |
| DeviceAccounts.ProvisionedSpec | aerospike/state_machines/all.py:27-42 | provisioning writes nothing exactly when the entry exists with a status other than "New"/"Suspended"; otherwise it writes {token, ts, "Waiting"} and no failure count |
| DeviceAccounts.ProvisionThenEntitle | aerospike/state_machines/all.py:36-69 | a freshly provisioned entry is made "Active", with failed 0, by the token it was issued with |
| DeviceAccounts.ProvisionThenWrongToken | aerospike/state_machines/all.py:36-74 | a freshly provisioned entry has no `failed` field, so the first wrong token ends in a KeyError instead of counting a failure |
| DeviceAccounts.EntitlementRules | aerospike/state_machines/activate.py:29-54 | each branch as an if-and-only-if: "Active" with failed 0 exactly on a match; a mismatch on "Waiting"/"Suspended" increments failed below 3 and suspends at 3 or more; a mismatch on any other status only stamps the record; the token never changes |
| DeviceAccounts.FailedStaysBounded | aerospike/state_machines/activate.py:33-43 | a failure count within 0 .. 3 stays within 0 .. 3 |
| DeviceAccounts.MismatchesSuspend | aerospike/state_machines/activate.py:39-51 | from a "Waiting" entry with f ≤ 3 failures, k wrong tokens leave min(f + k, 3) failures, and the entry is suspended exactly when f + k > 3 |
| DeviceAccounts.EntitleFrame | aerospike/state_machines/activate.py:27-54 | entitlement changes one account only, and in it at most the named service's entry or the record-level last_logon_ts; a call that raises writes nothing |
| DeviceAccounts.AccountStore.constructor | aerospike/state_machines/all.py:13 | the store starts with no account |
| DeviceAccounts.AccountStore.CreateAccount | aerospike/state_machines/all.py:15-17 | puts an empty `tokens` bin on the device's record and keeps its other bins |
| DeviceAccounts.AccountStore.Account | aerospike/state_machines/provisioning.py:18-20 | puts the device id and an empty `tokens` bin; no other account changes |
| DeviceAccounts.AccountStore.Provision | aerospike/state_machines/all.py:23-42 | as written: an empty token is replaced by a generated one; a missing record raises and writes nothing; an absent service gets a "Waiting" entry; for an existing "New"/"Suspended" entry the reset is filed under the entry itself, so the named entry is unchanged |
| DeviceAccounts.AccountStore.ProvisionGenerated | aerospike/state_machines/provisioning.py:25-37 | the same steps with a token that is always generated, six characters from A–Z and 0–9 |
| DeviceAccounts.AccountStore.ProvisionByName | aerospike/state_machines/all.py:23-42 | corrected: the service's entry becomes exactly what ProvisionedSpec prescribes, and no other entry or account changes |
| DeviceAccounts.AccountStore.DoEntitlement | aerospike/state_machines/activate.py:27-54 | the accounts and the outcome are those the branch rules give for the named device |
| DeviceAccounts.AccountStore.DoEntitlementAsWritten | aerospike/state_machines/all.py:59-86 | as written: the account read and written is the module-level `device_id`, whatever device is passed |
| DeviceAccounts.SuspendedServiceReprovisioned | aerospike/state_machines/all.py:27-35 | provisioning a suspended entry as written leaves it "Suspended" with its old token; provisioning by name makes it "Waiting" with the new token |
| DeviceAccounts.EntitlementChargesModuleDevice | aerospike/state_machines/activate.py:27-45 | a wrong token presented for another device is counted, as written, against the module-level device's entry, and not against that device's |
| ActivationQueue.FirstUnclaimed | aerospike/state_machines/queue.py:53-56 | the first item nobody has taken (ts 0) at or after the start, every item before it already taken, or the end of the list |
| ActivationQueue.RemoveAt | aerospike/state_machines/queue.py:68 | `list_pop(i)`: one item shorter, the items before i kept, the items after i moved down by one |
| ActivationQueue.ActivationEvent.constructor | aerospike/state_machines/queue.py:14-19 | one request to do, both work lists empty, generation 1 |
| ActivationQueue.ActivationEvent.ProcessTodo | aerospike/state_machines/queue.py:21-45 | with a request waiting, todo loses its head and both work lists gain one untaken claim for it, in one generation-checked write; an empty todo changes nothing |
| ActivationQueue.ActivationEvent.ListSet | aerospike/state_machines/queue.py:58-66 | under the generation-equal policy the item is replaced exactly when the generation matches and the index exists; otherwise nothing changes |
| ActivationQueue.ActivationEvent.ListPop | aerospike/state_machines/queue.py:68 | under the generation-equal policy the item is removed exactly when the generation matches and the index exists; otherwise nothing changes |
| ActivationQueue.ActivationEvent.ClaimNext | aerospike/state_machines/queue.py:51-68 | one pass claims exactly the first untaken item and removes it; items already taken stay in place; since `record` is rebound to the LIST_SET's result, the pass raises exactly when any index follows the claimed one, taken or not |
| ActivationQueue.ActivationEvent.ProcessDevice | aerospike/state_machines/queue.py:51-68 | the `devices` list loses its first untaken item, which is returned stamped, and the call raises exactly when an index follows it; todo and entitlement are unchanged |
| ActivationQueue.ActivationEvent.ProcessEntitlement | aerospike/state_machines/queue.py:74-91 | the `entitlement` list loses its first untaken item, which is returned stamped, and the call raises exactly when an index follows it; todo and devices are unchanged |
| ActivationQueue.ActivationEvent.ProcessEntitlementFor | aerospike/state_machines/all.py:143-160 | the first untaken item is stamped, `do_entitlement` runs for it against the module-level device, and the item is removed only when that does not raise; after the removal the call raises exactly when an index follows it |
| ActivationQueue.TakenAfterClaimRaises | aerospike/state_machines/queue.py:51-68 | devices [untaken, taken]: the first is claimed and popped, then reading index 1 raises, leaving only the taken item |
| ActivationQueue.ActivationDemo | aerospike/state_machines/queue.py:93-100 | after activation, process_todo, process_device and process_entitlement every list is empty and the record is five generations on |
| RedisActivation.ProvisionedSpec | redis/state_machines/all.py:34-42 | the else branch keeps an existing token (HSETNX), sets a missing one, and always leaves the service "Waiting" with failed 0 and the new ts; no other field changes |
| RedisActivation.ProvisionAsWrittenDemotesActive | redis/state_machines/all.py:27-42 | as written the guard tests the token's field, so re-provisioning an "Active" service resets it to "Waiting" |
| RedisActivation.ProvisionRespectsExisting | redis/state_machines/all.py:27-42 | with the guard on the service's field, an existing service keeps its token, status and failure count (at most its ts is refreshed), and a new one gets the token, "Waiting" and 0 failures |
| RedisActivation.EntitleAsWrittenSuspendsAtOnce | redis/state_machines/all.py:72-85 | as written the `failed < 3` test compares a string with an integer and never holds, so the first wrong token suspends a "Waiting" service |
| RedisActivation.EntitleAsWrittenIgnoresEventToken | redis/state_machines/all.py:63 | as written the stored token is compared with the module-level token, so the event's own correct token does not activate the service; compared with the event's token it does |
| RedisActivation.EntitleRules | redis/state_machines/all.py:58-91 | "Active" with failed 0 exactly when the token matches; a mismatch on "Waiting"/"Suspended" adds a failure below 3 and suspends otherwise; on any other status it still adds a failure; the token never changes |
| RedisActivation.MismatchesSuspend | redis/state_machines/all.py:72-85 | from "Waiting" with f ≤ 3 failures, k wrong tokens leave min(f + k, 3) failures and suspend exactly when f + k > 3 |
| RedisActivation.Rotate | redis/state_machines/all.py:110 | BRPOPLPUSH of a list onto itself moves the last id to the head and keeps the same ids |
| RedisActivation.Remove | redis/state_machines/all.py:124 | LREM with count 0 removes every copy of the id and keeps every other id as often as before |
| RedisActivation.InFlightUpdate | redis/state_machines/all.py:102-106 | replacing one payload changes the number of activations in flight by at most one, as its old and new steps say |
| RedisActivation.RedisActivationStore.constructor | redis/state_machines/all.py:13 | `flushall`: no account, list or payload, and the counter at 0 |
| RedisActivation.RedisActivationStore.CreateAccount | redis/state_machines/all.py:15-16 | sets created_at on the account hash and nothing else |
| RedisActivation.RedisActivationStore.DoProvision | redis/state_machines/all.py:22-42 | an empty token is replaced by a generated one; the account hash becomes what provisioning with the guard on the service's own field gives (an existing service keeps its token and status, a new one is "Waiting" with 0 failures); lists, payloads and the counter are unchanged |
| RedisActivation.RedisActivationStore.DoEntitlement | redis/state_machines/all.py:58-91 | the account hash becomes what the entitlement rules give against the event's token (Active on a match, a failure counted below 3, suspension at 3); lists, payloads and the counter are unchanged |
| RedisActivation.RedisActivationStore.Transition | redis/state_machines/all.py:108-127 | the stage list is rotated; an id at the stage runs its function (the counter moves for start/finish; for provisioning and entitlement the device's account and the outcome are those of Provision with the chosen token and of Entitle with the event's token) and, if it returns, moves to the next step; an id already past it leaves the stage list (every copy) and goes to the head of the next; any other id changes nothing |
| RedisActivation.RedisActivationStore.Process | redis/state_machines/all.py:102-139 | each stage keeps `events_oustanding` equal to the number of activations in flight |
| RedisActivation.RedisActivationStore.CreateActivation | redis/state_machines/all.py:141-153 | the new id goes at the tail of the start list with its payload at "start", and the in-flight count still matches |
| DebitCredit.TotalUpdate | aerospike/credit_debit/all.py:15-16 | replacing or adding one account changes the sum of all balances by the difference in its balance |
| DebitCredit.SimpleTransferConserves | aerospike/credit_debit/all.py:18-22 | the amount moves exactly when the payer can cover it: payer − amount, payee + amount, the payer stays non-negative if it was, and the sum of all balances is unchanged; otherwise nothing changes |
| DebitCredit.Transition | aerospike/credit_debit/all.py:30-48 | the state becomes the target exactly when it was the expected one; otherwise the records are unchanged; no other transaction changes |
| DebitCredit.RunOnlyFromBegin | aerospike/credit_debit/all.py:57-59 | a transaction not at Begin leaves both record sets unchanged |
| DebitCredit.RunUnfunded | aerospike/credit_debit/all.py:65-77 | an unfunded transfer ends at Insufficient Funds and moves no money |
| DebitCredit.RunCredited | aerospike/credit_debit/all.py:57-139 | a funded transfer between two accounts that have not seen the id reaches Credited; the payer loses the amount and stays non-negative, the payee gains it, each side records it once, and the sum of balances is unchanged |
| DebitCredit.RunSelfTransferLosesAmount | aerospike/credit_debit/all.py:81-139 | a transfer from an account to itself is debited, then refused on the credit side because the id is already in `txs`: it stops at Debited with the amount gone from the sum of balances |
| DebitCredit.Bank.constructor | aerospike/credit_debit/all.py:13 | the store starts with no account and no transaction |
| DebitCredit.Bank.CreateAccount | aerospike/credit_debit/all.py:15-16 | puts the opening balance; an existing record keeps its `txs` |
| DebitCredit.Bank.SimpleDebitCredit | aerospike/credit_debit/all.py:18-22 | the accounts become what SimpleTransferConserves characterises |
| DebitCredit.Bank.TransitionState | aerospike/credit_debit/all.py:30-48 | a missing transaction raises and changes nothing; otherwise the records become Transition's |
| DebitCredit.Bank.CheckFunding | aerospike/credit_debit/all.py:68-74 | returns the payer's generation and whether its balance covers the amount; a funded transaction still at Begin becomes Approved; a missing payer raises |
| DebitCredit.Bank.ProcessInsufficientFunds | aerospike/credit_debit/all.py:76-79 | moves a transaction at Begin to Insufficient Funds and touches no account |
| DebitCredit.Bank.ProcessDebit | aerospike/credit_debit/all.py:81-111 | the records become the debit step's: from Approved, re-check funding, go through Funding, post the debit with CREATE_ONLY, end at Debited |
| DebitCredit.DebitUnfundedStaysApproved | aerospike/credit_debit/all.py:76-88 | on an approved transfer the payer cannot cover, `process_debit` changes nothing: the insufficient-funds transition expects Begin, so the transfer stays at Approved and no money moves |
| DebitCredit.Bank.ProcessCredit | aerospike/credit_debit/all.py:113-139 | the records become the credit step's: from Debited, post the credit with CREATE_ONLY, end at Credited |
| DebitCredit.Bank.ProcessDebitCredit | aerospike/credit_debit/all.py:57-66 | the records become those of the whole run, whose outcomes RunOnlyFromBegin, RunUnfunded and RunCredited state |
| DebitCredit.Bank.StartDebitCredit | aerospike/credit_debit/all.py:145-153 | puts a transaction at Begin under a generated six-character id |
| DebitCredit.DebitCreditDemo | aerospike/credit_debit/all.py:155-162 | Mum 50 and Dad 100; Son's transfer of 10 is Credited (Son 190, Daughter 10) and Daughter's transfer of 11 ends at Insufficient Funds (set-up at lines 24-27) |
| TicketInventory.SellKeepsStock | aerospike/inventory/all.py:42-56 | a sale moves qty from `available` to `sold_to`: available + held + sold is unchanged |
| TicketInventory.CheckedSellSafe | aerospike/inventory/all.py:74-89 | with the availability check a non-negative count stays non-negative and every ticket stays accounted for; without it (`purchase`, lines 42-56 and 68) 500 can be sold out of 495, leaving −5 |
| TicketInventory.BackoutStock | aerospike/inventory/all.py:154-168 | a backout changes the accounted tickets by qty minus what the user actually held, so it is exact only when qty is the held quantity |
| TicketInventory.ReserveKeepsStock | aerospike/inventory/all.py:105-142 | on every path no ticket is created or lost; the CREATE_ONLY put fails exactly when enough are left and the user already holds a reservation; an approved card moves qty from available into one sale under the order id, drops the hold and (with pending) queues the same sale; a declined card restores available, sales and reservations (also lines 215-258) |
| TicketInventory.ExpireOne | aerospike/inventory/all.py:201-204 | backing out one more reservation with its own quantity keeps the invariant "the backed-out ones are returned to available, removed from the map, one generation each" |
| TicketInventory.ExpiryKeepsStock | aerospike/inventory/all.py:197-204 | once all expired reservations are backed out, the accounted tickets equal those before |
| TicketInventory.ExpiryFinished | aerospike/inventory/all.py:197-204 | after every reservation is looked at, exactly the ones at or after the cutoff remain and the stock is whole |
| TicketInventory.PostedRecordsEverySale | aerospike/inventory/all.py:260-272 | with distinct order ids every pending sale ends up in its buyer's `purchases` map under its order id with the event and qty, and users who bought nothing are untouched |
| TicketInventory.AppendedInOrder | aerospike/inventory/posting.py:28-31 | a buyer's `purchases` list gains their pending sales in queue order, each as {event, qty} |
| TicketInventory.Inventory.constructor | aerospike/inventory/all.py:13 | the store starts with no events and no users |
| TicketInventory.Inventory.CreateEvent | aerospike/inventory/all.py:15-16 | the event's name and available bins are set, other bins of an existing record are kept, the generation goes up; no other record changes |
| TicketInventory.Inventory.CreateUser | aerospike/inventory/all.py:18-19 | the username bin is set, other bins kept; events unchanged |
| TicketInventory.Inventory.SimplePurchaseAsWritten | aerospike/inventory/all.py:22-27 | a missing event is NotFound; the put with an empty meta under generation-equal is refused for any record past generation 0, with no purchase listed; only at generation 0 does the count drop and the purchase get listed |
| TicketInventory.Inventory.SimplePurchase | aerospike/inventory/all.py:22-27 | with the meta just read the count of an existing event drops by qty unchecked and {event, qty} is appended to the user's `purchased` list |
| TicketInventory.Inventory.PurchaseTickets | aerospike/inventory/all.py:42-56 | an existing event gets the sale: count − qty and the sale appended, with no check that enough are left; users unchanged |
| TicketInventory.Inventory.CheckAvailabilityAndPurchase | aerospike/inventory/all.py:74-89 | an existing event sells only when at least qty are available and is otherwise unchanged; users unchanged |
| TicketInventory.Inventory.BackoutReservation | aerospike/inventory/all.py:154-168 | a stale generation is refused with nothing changed; otherwise qty is returned, the user's reservation dropped and the new generation returned |
| TicketInventory.Inventory.ReserveTickets | aerospike/inventory/all.py:105-152 | the event ends as the reservation function says; an order id is drawn exactly when the card is approved, enough tickets are left and the user holds no reservation, and it is a six-character token (also lines 215-258) |
| TicketInventory.Inventory.ExpireReservation | aerospike/inventory/all.py:197-204 | an event without a `reservations` bin is a KeyError and nothing changes; otherwise every reservation older than now − 30 is backed out with its own quantity, the rest remain, one generation per backout, and no ticket is created or lost |
| TicketInventory.Inventory.PostPurchasesAsWritten | aerospike/inventory/all.py:260-280 | an event without a `pending` bin is a KeyError and nothing changes; otherwise only the first pending sale is popped; when a second one exists it is still posted to its buyer and then its pop is refused for a bad generation |
| TicketInventory.Inventory.PostPurchases | aerospike/inventory/all.py:260-280 | an event without a `pending` bin is a KeyError and nothing changes; otherwise pending sales are posted to their buyers and popped front to back until one lacks an order id (KeyError) or all are done |
| TicketInventory.Inventory.PostPendingAsWritten | aerospike/inventory/posting.py:26-31 | an event without a `pending` bin is a KeyError; otherwise, reusing the meta read before the loop, the first pop applies and the second sale is appended to its buyer but its pop is refused |
| TicketInventory.Inventory.PostPending | aerospike/inventory/posting.py:26-31 | an event without a `pending` bin is a KeyError; otherwise, with the meta re-read each time the whole pending queue drains and every sale is appended to its buyer in order |
| TicketInventory.Reserving2 | aerospike/inventory/reserving2.py:16-58 | 495 of 500 remain, Fred's sale of 5 is in `sold_to` and `pending`, no reservation is left, and available + sold is 500 |
| TicketInventory.Posting | aerospike/inventory/posting.py:16-31 | the one pending sale reaches Fred's purchases and leaves the queue; count and sales untouched |
| TicketInventory.PurchaseWithinUser | aerospike/inventory/purchase_within_user.py:14-33 | one operate leaves 495 tickets and the sale listed, with the name kept |
| TicketInventory.DecrementingInventory | aerospike/inventory/decrementing_inventory.py:14-22 | 495 remain and Fred's record lists one purchase of 5 |
| TicketInventory.SimplePurchaseRefused | aerospike/inventory/all.py:30-34 | Part Zero as written: the freshly created event refuses the put, so 500 remain and Fred lists nothing |
| TicketInventory.SimplePurchaseApplied | aerospike/inventory/all.py:30-34 | Part Zero with the meta passed: 495 remain and Fred lists the purchase of 5 |
| TicketInventory.MissingBinsRun | aerospike/inventory/all.py:197-201 | on an event just created, which has only the name and available bins (line 16), `expire_reservation` and `post_purchases` (line 262) both end in KeyError |
| RedisTickets.PendingIsFifo | redis/inventory/all.py:182-193 | ids pushed with LPUSH and taken with RPOP come back in the order they were pushed, after those already waiting |
| RedisTickets.CreateEventNeverOverwrites | redis/inventory/all.py:19-24 | a second `create_event` changes nothing, and a field already set keeps its value |
| RedisTickets.CreatedBalanced | redis/inventory/all.py:19-24 | a fresh event's capacity equals available + reserved + ordered, and the reservations counter equals the sum of the per-user holds |
| RedisTickets.PurchaseKeepsBalance | redis/inventory/all.py:36-37 | a purchase moves qty tickets from available into the order list: the accounted total is unchanged |
| RedisTickets.ReserveConfirmKeepsBalance | redis/inventory/all.py:67-84 | reserving then confirming moves qty from available into one order, leaves the reservations counter as it was and removes the user's hold fields |
| RedisTickets.ConfirmWithoutHoldOversells | redis/inventory/all.py:76-85 | a confirm that runs without the reservation before it adds the order while the tickets stay available, and pushes the counter down by qty |
| RedisTickets.BackoutKeepsBalance | redis/inventory/all.py:99-107 | a backout puts qty back on sale and takes it off the counter, so the accounted total stays |
| RedisTickets.ReserveKeepsHoldsAccounted | redis/inventory/all.py:67-83 | for a user with no hold, reserving and then confirming keep the counter equal to the sum of the per-user holds |
| RedisTickets.RepeatReserveOrphansHold | redis/inventory/all.py:69-83 | a user who reserves again while holding tickets: the HSETNX keeps the old hold, the confirm deletes it, and the counter keeps counting it with no per-user field left |
| RedisTickets.BackoutKeepsHoldsAccounted | redis/inventory/all.py:99-107 | backing out a user's stored hold keeps the counter equal to the sum of the holds |
| RedisTickets.ExpireOne | redis/inventory/all.py:136-139 | backing out one more expired hold with its stored quantity keeps the invariant "those backed out are back on sale, off the counter and gone from the hash" |
| RedisTickets.ExpiryFinished | redis/inventory/all.py:133-139 | after the scan exactly the holds stamped before the cutoff are gone, their tickets are back on sale and the counter still equals the sum of the holds |
| RedisTickets.ScanExpired | redis/inventory/all.py:133-139 | the scan finishes exactly when every expired stamp has its quantity field (otherwise TypeError), and then the expired holds are backed out, the rest remain and nothing is lost |
| RedisTickets.HistogramReadsBack | redis/inventory/all.py:201-238 | the hour offsets are byte-aligned and distinct, so reading hour i after posting at another hour sees the old count, and at the same hour the count plus qty modulo 256 |
| RedisTickets.PostOrderRecords | redis/inventory/all.py:196-205 | posting an order files its id under the buyer's invoices and the event's sales, adds qty to the tickets sold and to that hour in both histograms, and changes no other buyer, event or hour |
| RedisTickets.RedisTicketStore.constructor | redis/inventory/all.py:19-24 | the store starts with every key absent |
| RedisTickets.RedisTicketStore.CreateEvent | redis/inventory/all.py:19-24 | the event hash gets capacity, available and price only where they are absent; no other key changes |
| RedisTickets.RedisTicketStore.CheckAvailabilityAndPurchase | redis/inventory/all.py:26-42 | a missing field is a TypeError, short stock is refused and a watch conflict writes nothing; otherwise available drops by qty and an order for the user with a fresh six-character id is pushed on the orders list |
| RedisTickets.RedisTicketStore.HoldTickets | redis/inventory/all.py:60-75 | the same refusals; otherwise an order id and the price are bound and the counters and the user's hold fields are written; a conflict drops the writes but the id stays bound |
| RedisTickets.RedisTicketStore.ConfirmOrder | redis/inventory/all.py:77-89 | without a conflict the hold is released into an order pushed on the orders list; with one nothing changes |
| RedisTickets.RedisTicketStore.ReserveAsWritten | redis/inventory/all.py:59-92 | short stock leaves price and order id unbound, so the confirm raises NameError; a conflict that dropped the reservation still lets the confirm add an order |
| RedisTickets.RedisTicketStore.Reserve | redis/inventory/all.py:59-92 | succeeds exactly when enough tickets are left, the price is set and neither transaction conflicts; then qty moves into one order for the user, and a balanced event stays balanced on every path |
| RedisTickets.RedisTicketStore.BackoutReservation | redis/inventory/all.py:99-111 | qty goes back on sale, off the counter, and the user's hold fields go; a conflict changes nothing |
| RedisTickets.RedisTicketStore.CreateExpiredReservation | redis/inventory/all.py:121-131 | the event holds 485 available, 15 reserved, and holds of 3, 5 and 7 for Fred, Jim and Amy stamped 16, 22 and 30 seconds ago |
| RedisTickets.RedisTicketStore.ExpireReservation | redis/inventory/all.py:133-139 | exactly the holds stamped before now − 30 are backed out with their stored quantities; available + reserved is unchanged; a stamp without its quantity field is a TypeError |
| RedisTickets.RedisTicketStore.ConfirmPending | redis/inventory/all.py:174-187 | without a conflict the hold is released, the order stored under its id and the id pushed on the pending list |
| RedisTickets.RedisTicketStore.ReserveWithPendingAsWritten | redis/inventory/all.py:156-190 | as `reserve` as written: NameError on short stock, and an order queued after a conflict dropped the reservation |
| RedisTickets.RedisTicketStore.ReserveWithPending | redis/inventory/all.py:156-190 | succeeds exactly when stock, price and both transactions allow; the order for the user and event is stored under a fresh id and queued at the head of pending |
| RedisTickets.RedisTicketStore.PostPurchases | redis/inventory/all.py:192-205 | the oldest pending id is popped; a missing order is a TypeError; otherwise that order is posted to the ledger; events, orders and stored orders are unchanged |
| RedisTickets.CheckAvailabilityRun | redis/inventory/all.py:45-56 | of ten tickets buying five succeeds and buying six more is refused, leaving 5 and one order, balanced |
| RedisTickets.ReserveRun | redis/inventory/all.py:114-116 | five of 500 reserved and confirmed: 495 left, nothing held, one order, balanced |
| RedisTickets.ShortStockRun | redis/inventory/all.py:59-92 | on short stock the as-written reserve raises NameError and the corrected one refuses |
| RedisTickets.ExpiryRun | redis/inventory/all.py:142-146 | one second later only Amy's hold of 7 has expired: 492 available, 8 reserved, Fred and Jim still hold |
| RedisTickets.ReserveAndPost | redis/inventory/all.py:217-219 | one buy reserved and posted straight away: qty off available, counter unchanged, pending empty again, qty added to tickets sold and to the hour, the id filed under the buyer only |
| RedisTickets.PostingRun | redis/inventory/all.py:208-219 | after Fred's 5 and Amy's 2 for Mens Discus: 193 left, 7 sold, one invoice each, pending empty, the hour's counter 7 |
| Reparenting.ProcessedSpec | aerospike/reparenting/all.py:73-119 | after processing a location no entry requested on that side is left, every other entry is kept as it was, each requested part has left (out) or arrived (in), and the location's other parts stay |
| Reparenting.ProcessOne | aerospike/reparenting/all.py:79-117 | one operate for one requested entry keeps the invariant "the processed entries are gone, their parts moved, one generation each" |
| Reparenting.MarkOne | aerospike/reparenting/all.py:95-119 | marking one more transfer's side Done keeps the invariant "exactly the processed transfers are marked, the rest unchanged" |
| Reparenting.ProcessedAll | aerospike/reparenting/all.py:75-93 | once every requested entry is processed the location is the processed location |
| Reparenting.MarkedAll | aerospike/reparenting/all.py:95-119 | once every requested transfer is marked the transfer records are the marked ones |
| Reparenting.ScanRequests | aerospike/reparenting/all.py:74-119 | corrected: the loop over a location's entries yields the processed location and marks exactly the requested transfers' side Done |
| Reparenting.FirstRequested | aerospike/reparenting/all.py:75-77 | the first position in the iteration order whose entry is requested on the side, every earlier one not requested |
| Reparenting.ScanRequestsAsWritten | aerospike/reparenting/all.py:74-95 | as written: only the first requested entry in iteration order is processed (part moved, transfer side Done); since the operate rebinds `record`, the call raises exactly when another entry follows it; with no requested entry nothing changes |
| Reparenting.TwoRequestsAsWritten | aerospike/reparenting/all.py:73-95 | two out-requests at Las Vegas: P1 leaves and X1 is marked Done, then a KeyError leaves P2 in place |
| Reparenting.TwoRequestsCorrected | aerospike/reparenting/all.py:73-95 | the same location under the corrected loop: both parts leave and both transfers are marked |
| Reparenting.ProcessedSingle | aerospike/reparenting/all.py:73-119 | a location whose only entry is one request ends with no entries and the part moved, and only that transfer is marked |
| Reparenting.ReparentingStore.constructor | aerospike/reparenting/all.py:15 | the store starts with no locations, parts or transfers |
| Reparenting.ReparentingStore.CreateLocation | aerospike/reparenting/all.py:22-36 | the location's type is set and the part added to its parts, other bins kept; nothing else changes |
| Reparenting.ReparentingStore.CreatePart | aerospike/reparenting/all.py:38-39 | the part record's location is set; nothing else changes |
| Reparenting.ReparentingStore.StartTransfer | aerospike/reparenting/all.py:41-50 | a six-character id is drawn and a transfer record stored under it with status Started and both sides Ready |
| Reparenting.ReparentingStore.AddTransferRequests | aerospike/reparenting/all.py:52-71 | a missing transfer is NotFound; otherwise each side still Ready gets a request entry at its location (out at the source, in at the destination) and the transfer record is not written |
| Reparenting.ReparentingStore.ProcessXfers | aerospike/reparenting/all.py:73-119 | corrected: a missing location is NotFound and one without entries a KeyError; otherwise the location becomes the processed location and the requested transfers are marked Done on that side; parts unchanged |
| Reparenting.ReparentingStore.ProcessXfersAsWritten | aerospike/reparenting/all.py:73-119 | as written: a missing location is NotFound and one without entries a KeyError; otherwise the location and the transfers become ScanRequestsAsWritten's, one request at most, raising when an entry follows it; parts unchanged |
| Reparenting.ReparentingStore.ProcessXferOut | aerospike/reparenting/all.py:73-95 | corrected: the out side of ProcessXfers, every out-request processed |
| Reparenting.ReparentingStore.ProcessXferIn | aerospike/reparenting/all.py:97-119 | corrected: the in side of ProcessXfers, every in-request processed |
| Reparenting.ReparentingStore.CompleteXfer | aerospike/reparenting/all.py:121-126 | only when both sides are Done is the transfer Finished and the part record moved to the destination; a side not Done changes nothing and a missing side bin is a KeyError; once Finished is written, a missing part record is NotFound and a missing `part` or `to_loc` bin a KeyError, with the part unmoved |
| Reparenting.RequestRun | aerospike/reparenting/all.py:129-138 | after the requests Las Vegas holds the out request and Mountain View the in request for the new transfer, both sides still Ready |
| Reparenting.TransferRun | aerospike/reparenting/all.py:129-141 | part 8BQWQM ends listed only at Mountain View, no requests remain, the part record points at Mountain View and the transfer is Finished |
| ActivityStream.CalcBucketStep | aerospike/activity_stream/all.py:38-40 | bucket numbers start at 1 and grow by at most one per message, so no bucket number is skipped |
| ActivityStream.CalcBucketRange | aerospike/activity_stream/all.py:38-40 | message n lands in bucket b exactly when 3(b−1) ≤ n < 3b: bucket 1 takes messages 1 and 2, later buckets three each |
| ActivityStream.BucketEmptyAbove | aerospike/activity_stream/all.py:48-60 | no post lands in a bucket above the one the user's total maps to, so the read loses nothing by starting there |
| ActivityStream.BucketNonEmpty | aerospike/activity_stream/all.py:48-60 | once a user has received a post, every bucket from 1 to the one the total maps to holds a post |
| ActivityStream.ConcatPush | aerospike/activity_stream/all.py:48-54 | delivering post number n puts it in front of everything the buckets up to calc_bucket(n) return |
| ActivityStream.InboxNewestFirst | aerospike/activity_stream/all.py:56-66 | reading buckets calc_bucket(total) down to 1 returns every post the user received, newest first |
| ActivityStream.FanoutPrepends | aerospike/activity_stream/all.py:19-20 | each user's stream gets the post at its head once per time they are listed; other streams are unchanged |
| ActivityStream.FanoutKeys | aerospike/activity_stream/all.py:19-20 | a stream record exists afterwards exactly for users who had one or were listed |
| ActivityStream.FiledBucket | aerospike/activity_stream/all.py:48-54 | under the bucketing invariant a user's bucket holds exactly the posts of that number, and its record exists exactly when it holds one |
| ActivityStream.DeliverOne | aerospike/activity_stream/all.py:47-54 | bumping the recipient's total and inserting the post at the head of the bucket for the new total keeps the invariant "each total counts what was received and each bucket holds its posts, newest first" |
| ActivityStream.TallyCounts | aerospike/activity_stream/all.py:46-54 | each user with a record receives one copy of the post per time they are listed, after what they had, and no user is added |
| ActivityStream.DeliverAll | aerospike/activity_stream/all.py:46-54 | the loop keeps the bucketing invariant and the set of users; it completes exactly when every recipient has a user record, and then each has received the post once per listing |
| ActivityStream.RecipientList.constructor | aerospike/activity_stream/all.py:27 | the list holds the given names |
| ActivityStream.ActivityStore.constructor | aerospike/activity_stream/all.py:12 | no streams, users or buckets, and the bucketing invariant holds |
| ActivityStream.ActivityStore.PostMsgFanout | aerospike/activity_stream/all.py:15-20 | the sender is appended to the caller's list, and the streams become the listed users' streams with the post at the head |
| ActivityStream.ActivityStore.GetInboxFanout | aerospike/activity_stream/all.py:22-24 | the user's stream, newest first; a user without a stream record is NotFound |
| ActivityStream.ActivityStore.CreateUser | aerospike/activity_stream/all.py:35-36 | the user's total becomes 0; for a new user the bucketing invariant is kept, with nothing received |
| ActivityStream.ActivityStore.PostMsgBucketing | aerospike/activity_stream/all.py:42-54 | the sender joins the caller's list; the bucketing invariant is kept; it completes exactly when every listed user has a record, and then each has received the post once per listing |
| ActivityStream.ActivityStore.GetInboxBucketingAsWritten | aerospike/activity_stream/all.py:56-66 | succeeds exactly when the user exists and has received at least one post, and then returns everything received, newest first |
| ActivityStream.ActivityStore.GetInboxBucketing | aerospike/activity_stream/all.py:56-66 | succeeds exactly when the user exists and returns everything received, newest first (empty for a user who received nothing) |
| ActivityStream.ActivityStore.Filed1 | aerospike/activity_stream/all.py:58-60 | the top bucket is calc_bucket(total) ≥ 1, and each bucket up to it holds its posts and exists exactly when nonempty |
| ActivityStream.ReadBucketsAsWritten | aerospike/activity_stream/all.py:60-65 | reading buckets top down to 1 completes exactly when every one of them exists, and returns them concatenated in that order |
| ActivityStream.ReadBuckets | aerospike/activity_stream/all.py:60-65 | the buckets top down to 1 concatenated, a missing bucket read as empty |
| ActivityStream.FanoutRun | aerospike/activity_stream/all.py:26-30 | Jane's inbox holds Jane's own post and then Joe's, newest first |
| ActivityStream.ReusedListRun | aerospike/activity_stream/all.py:16-17 | posting twice with one list appends the sender twice, so the second post reaches them twice |
| ActivityStream.BucketingRun | aerospike/activity_stream/all.py:68-77 | Jane's inbox lists her three posts and Joe's, newest first, across buckets 2 and 1 |
| ActivityStream.JoePostsRun | aerospike/activity_stream/all.py:69-72 | after the three users are created and Joe posts, Jane has received exactly Joe's post |
| ActivityStream.CreateUsersRun | aerospike/activity_stream/all.py:69-71 | the three users exist and the invariant holds with nothing received |
| ActivityStream.PostToJoe | aerospike/activity_stream/all.py:73-75 | one of Jane's posts to Joe: Jane receives her own post too, at the end |
| ActivityStream.EmptyInboxRun | aerospike/activity_stream/all.py:35-66 | for a user created but sent nothing, the as-written read is NotFound and the corrected read returns an empty inbox |

## Left out

- Connection setup, printing, and the `flushall`/scan clean-up: the model starts from empty stores.
- `time.time()`, `random` and `uuid4`: timestamps, the six draws of a token and fresh ids are parameters.
- `struct.pack('l', …)` in redis/inventory/check_inventory.py is a signed 64-bit long. For the row maps the limit is modelled: `SetSeatMap` and `CreateEvent` raise on a map of 2^63 or more, and `MaskFitsLong` gives the 64-seat bound. The order key packed in `reservation` is modelled by the seat numbers it packs.
- SeatMap.SeatStore.Reservation: does not model the struct.error that packing the order key raises when last_seat is above 63 (after the seat holds are taken); the model then XORs the unbounded block.
- SeatMap.SeatStore.ReserveBlock: the same struct.error for a block ending above seat 63 is not modelled.
- `math.pow` and floats in check_inventory.py: the masks are exact integers.
- Redis PX expiry of the per-seat holds: a hold never expires in the model.
- Float prices, `cost` and HINCRBYFLOAT of total_sales: orders carry quantities only, and the sales summary keeps only the tickets-sold counter.
- JSON encoding of orders and payloads: they are datatypes.
- ripemd160 keys of the activity-stream buckets: a bucket is keyed by the (user, number) pair. Bucket records live in their own map, apart from the fan-out streams, so a digest can never collide with a user name.
- A user name containing ':' in redis/inventory/all.py `expire_reservation`, where the split would fail: users are whole strings.
- Concurrency: another writer is a boolean conflict parameter that drops a watched transaction or fails a generation check. Interleavings are not modelled.
- The WATCH in redis/inventory/all.py is on the client rather than the pipeline; the model treats it as guarding the transaction, as intended.
- Worker threads and wall-clock polling loops: redis/state_machines/all.py:161-216 and redis/inventory/all.py:144-153. One pass of each loop body is modelled.
- redis/geospatial, redis/pub_sub, the faceting scripts and aerospike/util.py: no local logic, or they do not run.
- aerospike/inventory/reserving.py, check_availability.py and cleanup_reservations.py: they do not parse, and aerospike/inventory/all.py covers the same logic.
- `check_valid_transition`: inlined as the state comparison in `DebitCredit.Transition`.
- The `qty` bin of the straight-line inventory scripts is the `available` field of the event datatype.
- Reparenting.ReparentingStore.ProcessXferOut: models the evidently intended loop over every out-request. The source stops after the first one it processes (see Findings); that behaviour is `ProcessXfersAsWritten`.
- Reparenting.ReparentingStore.ProcessXferIn: the same, for in-requests.
- The order of HSCAN and of a map's keys: the scans pick the next key arbitrarily, and their contracts hold for every order. The as-written transfer loop, whose outcome depends on the order, takes it as a parameter.
- RedisTickets.RedisTicketStore.ExpireReservation: on a TypeError the contract does not state which holds were already backed out.
- RedisTickets.RedisTicketStore.ReserveAsWritten: the contract states only the short-stock case and the confirm after a dropped reservation. The remaining cases are those of Reserve.
- RedisTickets.RedisTicketStore.ReserveWithPendingAsWritten: the same two cases only.
- RedisTickets.RedisTicketStore.Reserve: the card-decline branch is not modelled, because `creditcard_auth` always approves in redis/inventory/all.py.
- Reparenting.ReparentingStore.AddTransferRequests: when a bin read after the first write is missing, the KeyError's partial writes are not stated.
- ActivityStream.ActivityStore.PostMsgBucketing: on NotFound the contract does not state which recipients were already served.
- ActivityStream.DeliverAll: on NotFound only the invariant and the user set are stated.
- ActivityStream.ActivityStore.CreateUser: re-creating an existing user resets the total but leaves the buckets, so the bucketing invariant is not kept. The contract states the invariant only for a new user.

## Findings

| source | as written | input that shows it | evidently intended | confidence | as-written member | corrected member |
|---|---|---|---|---|---|---|
| redis/inventory/check_inventory.py:112-127 | `reservation` calls `get_availbale` with `first_seat`, which sets end_seat to first + k − 1 (the last seat), scans starts 1 .. last and accepts any free block found there, then XORs the requested block, which sets sold seats free again | row map 3 (seats 1–2 free, 3–4 sold), seats 3–4 | reserve only when seats first .. last are all free | high, not executed | SeatMap.SeatStore.Reservation, SeatMap.SoldSeatsReservedAgain | SeatMap.SeatStore.ReserveBlock, SeatMap.SoldSeatsRefused |
| aerospike/state_machines/all.py:28 (also provisioning.py:29) | `provision` rebinds `service` to the stored entry, so the reset is filed under the entry as key and the named service is unchanged | a "Suspended" service provisioned again | the named service becomes "Waiting" with the new token | high, not executed | DeviceAccounts.AccountStore.Provision, DeviceAccounts.SuspendedServiceReprovisioned | DeviceAccounts.AccountStore.ProvisionByName |
| aerospike/state_machines/activate.py:28, all.py:60 | `do_entitlement` reads and writes the module-level `device_id`, whatever device is passed | a wrong token for a second device | the passed device's entry is checked and updated | high, not executed | DeviceAccounts.AccountStore.DoEntitlementAsWritten, DeviceAccounts.EntitlementChargesModuleDevice | DeviceAccounts.AccountStore.DoEntitlement |
| redis/state_machines/all.py:27 | the `do_provision` guard tests the field `'app:' + token` rather than `'app:' + service` | an "Active" service provisioned again with a new token | an existing service keeps its token and status | high, not executed | RedisActivation.ProvisionAsWrittenDemotesActive | RedisActivation.ProvisionRespectsExisting, RedisActivation.RedisActivationStore.DoProvision |
| redis/state_machines/all.py:63, 73 | `do_entitlement` compares with the module-level `token`, and `failed < 3` compares the string HGETALL returns with an int, which is never true in Python 2 | a "Waiting" service with 0 failures and one wrong token | compare with the event's token; suspend only after three failures | high, not executed | RedisActivation.EntitleAsWrittenSuspendsAtOnce, RedisActivation.EntitleAsWrittenIgnoresEventToken | RedisActivation.EntitleRules, RedisActivation.MismatchesSuspend, RedisActivation.RedisActivationStore.DoEntitlement |
| aerospike/inventory/all.py:280 | `post_purchases` unpacks the operate result as (key, record, meta), so the next pop carries the bins as meta and its generation check fails | an event with two pending sales that have order ids | every pending sale is posted and popped | high, not executed | TicketInventory.Inventory.PostPurchasesAsWritten | TicketInventory.Inventory.PostPurchases |
| aerospike/inventory/posting.py:26-31 | every pop reuses the meta read before the loop under generation-equal, so the second pop is refused after its sale was already appended to the buyer | two pending sales | the queue drains completely, FIFO | high, not executed | TicketInventory.Inventory.PostPendingAsWritten | TicketInventory.Inventory.PostPending |
| aerospike/inventory/all.py:24-25 | `simple_purchase` writes with an empty meta under generation-equal, so the put is refused for any existing record | `create_event` then `simple_purchase` of 5 | the count drops by 5 and the purchase is listed | medium, not executed | TicketInventory.Inventory.SimplePurchaseAsWritten, TicketInventory.SimplePurchaseRefused | TicketInventory.Inventory.SimplePurchase, TicketInventory.SimplePurchaseApplied |
| redis/inventory/all.py:76-92, 173-190 | the confirm step of `reserve` and `reserve_with_pending` runs outside the availability guard and after a watch conflict | short stock: 3 available, reserve 5 (NameError); a conflict on the first transaction (the order is confirmed without a reservation) | confirm only a reservation that was made | medium for the NameError, low for the conflict; not executed | RedisTickets.RedisTicketStore.ReserveAsWritten, RedisTickets.RedisTicketStore.ReserveWithPendingAsWritten, RedisTickets.ShortStockRun, RedisTickets.ConfirmWithoutHoldOversells | RedisTickets.RedisTicketStore.Reserve, RedisTickets.RedisTicketStore.ReserveWithPending, RedisTickets.ReserveConfirmKeepsBalance |
| aerospike/reparenting/all.py:93, 117 | `process_xfer_out` and `process_xfer_in` rebind `record` to the operate's result, whose bins hold no `xfers` map, so the loop raises on the next entry after the first request it processes | Las Vegas holding out-requests for two transfers | every requested entry at the location is processed | high, not executed | Reparenting.ScanRequestsAsWritten, Reparenting.TwoRequestsAsWritten | Reparenting.ScanRequests, Reparenting.TwoRequestsCorrected |
| aerospike/activity_stream/all.py:56-66 | `get_inbox_bucketing` reads bucket 1 even for a user who has received nothing; that record was never written, so the get raises | `create_user("Bob")` then `get_inbox_bucketing("Bob")` | an empty inbox | medium, not executed | ActivityStream.ActivityStore.GetInboxBucketingAsWritten, ActivityStream.EmptyInboxRun | ActivityStream.ActivityStore.GetInboxBucketing |
