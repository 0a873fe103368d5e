/**
 * The activation event record of the Aerospike state machines
 * (aerospike/state_machines/queue.py and all.py): a `todo` list of requests
 * and two work lists, `entitlement` and `devices`, of claims. Claims carry a
 * timestamp, 0 while nobody has taken them. Every write is made under the
 * generation-equal policy with the generation read before it, so a write
 * based on a stale read fails and changes nothing.
 */
module ActivationQueue {
  import opened Wrappers
  import DeviceAccounts

  /** A `todo` item: {service, device} (queue.py) or {service, device, token} (all.py). */
  datatype Request = Request(service: string, device: string, token: Option<string>)

  /** An `entitlement` or `devices` item: the request and a claim timestamp. */
  datatype Claim = Claim(device: string, service: string, token: Option<string>, ts: int)

  datatype Stage = Devices | Entitlements

  /** The item `process_todo` appends for a request: not yet taken (ts 0). */
  function Unclaimed(req: Request): Claim
  {
    Claim(req.device, req.service, req.token, 0)
  }

  /** The index of the first item at or after `from` that nobody has taken, or |items|. */
  function FirstUnclaimed(items: seq<Claim>, from: nat): (r: nat)
    requires from <= |items|
    ensures from <= r <= |items|
    ensures forall j :: from <= j < r ==> items[j].ts != 0
    ensures r < |items| ==> items[r].ts == 0
    decreases |items| - from
  {
    if from == |items| || items[from].ts == 0 then from else FirstUnclaimed(items, from + 1)
  }

  /** `list_pop(i)` */
  function RemoveAt<T>(s: seq<T>, i: nat): (r: seq<T>)
    requires i < |s|
    ensures |r| == |s| - 1
    ensures forall j :: 0 <= j < i ==> r[j] == s[j]
    ensures forall j :: i <= j < |r| ==> r[j] == s[j + 1]
  {
    s[..i] + s[i + 1..]
  }

  class ActivationEvent {
    var todo: seq<Request>
    var entitlement: seq<Claim>
    var devices: seq<Claim>
    var gen: nat

    function Queue(stage: Stage): seq<Claim>
      reads this
    {
      if stage == Devices then devices else entitlement
    }

    /**
     * `activation` (queue.py) and `create_activation` (all.py): one request
     * to do, both work lists empty; a new record is at generation 1.
     */
    constructor (device: string, service: string, token: Option<string>)
      ensures todo == [Request(service, device, token)] && entitlement == [] && devices == []
      ensures gen == 1
    {
      todo := [Request(service, device, token)];
      entitlement := [];
      devices := [];
      gen := 1;
    }

    /**
     * `process_todo`: with a request waiting, one generation-checked operate
     * pops it and appends an untaken claim for it to both work lists; with
     * none, nothing changes. (queue.py builds the claim from device and
     * service only; its requests never carry a token, so the claim is the
     * same.)
     */
    method ProcessTodo()
      modifies this
      ensures old(todo) == [] ==> todo == old(todo) && entitlement == old(entitlement)
                                  && devices == old(devices) && gen == old(gen)
      ensures old(todo) != [] ==>
        && todo == old(todo)[1..]
        && entitlement == old(entitlement) + [Unclaimed(old(todo)[0])]
        && devices == old(devices) + [Unclaimed(old(todo)[0])]
        && gen == old(gen) + 1
    {
      if |todo| > 0 {
        var item := Unclaimed(todo[0]);
        // operate(key, [pop todo, append, append], meta, gen-equal): nothing
        // writes between the get and the operate, so the meta matches
        todo := todo[1..];
        entitlement := entitlement + [item];
        devices := devices + [item];
        gen := gen + 1;
      }
    }

    /** An operate with OP_LIST_SET at index i, under the generation-equal policy. */
    method ListSet(stage: Stage, i: nat, item: Claim, expected: nat) returns (ok: bool)
      modifies this
      ensures ok <==> old(gen) == expected && i < |old(Queue(stage))|
      ensures ok ==> Queue(stage) == old(Queue(stage))[i := item] && gen == old(gen) + 1
      ensures !ok ==> Queue(stage) == old(Queue(stage)) && gen == old(gen)
      ensures todo == old(todo)
      ensures stage == Devices ==> entitlement == old(entitlement)
      ensures stage == Entitlements ==> devices == old(devices)
    {
      ok := gen == expected && i < |Queue(stage)|;
      if ok {
        if stage == Devices {
          devices := devices[i := item];
        } else {
          entitlement := entitlement[i := item];
        }
        gen := gen + 1;
      }
    }

    /** `list_pop(key, bin, i, meta, wpolicy)` under the generation-equal policy. */
    method ListPop(stage: Stage, i: nat, expected: nat) returns (ok: bool)
      modifies this
      ensures ok <==> old(gen) == expected && i < |old(Queue(stage))|
      ensures ok ==> Queue(stage) == RemoveAt(old(Queue(stage)), i) && gen == old(gen) + 1
      ensures !ok ==> Queue(stage) == old(Queue(stage)) && gen == old(gen)
      ensures todo == old(todo)
      ensures stage == Devices ==> entitlement == old(entitlement)
      ensures stage == Entitlements ==> devices == old(devices)
    {
      ok := gen == expected && i < |Queue(stage)|;
      if ok {
        if stage == Devices {
          devices := RemoveAt(devices, i);
        } else {
          entitlement := RemoveAt(entitlement, i);
        }
        gen := gen + 1;
      }
    }

    /**
     * The loop of `process_device` and `process_entitlement` over the
     * indices of the list read at the start. An untaken item is stamped
     * (LIST_SET) and popped; items already taken are skipped and stay where
     * they are. The LIST_SET's operate rebinds `record` to its own result,
     * whose bins hold no list, so reading the item at the next index
     * raises: one call takes exactly the first untaken item, and `failed`
     * says whether any index followed it.
     */
    method ClaimNext(stage: Stage, now: int) returns (claimed: Option<Claim>, failed: bool)
      modifies this
      ensures var snap := old(Queue(stage));
        var c := FirstUnclaimed(snap, 0);
        if c == |snap| then
          claimed == None && !failed && Queue(stage) == snap && gen == old(gen)
        else
          && claimed == Some(snap[c].(ts := now))
          && Queue(stage) == RemoveAt(snap, c)
          && gen == old(gen) + 2
          && (failed <==> c + 1 < |snap|)
      ensures todo == old(todo)
      ensures stage == Devices ==> entitlement == old(entitlement)
      ensures stage == Entitlements ==> devices == old(devices)
    {
      var snapshot := Queue(stage);
      var record: Option<seq<Claim>> := Some(snapshot);
      var meta := gen;
      claimed, failed := None, false;
      ghost var c := FirstUnclaimed(snapshot, 0);
      var i := 0;
      while i < |snapshot|
        invariant 0 <= i <= |snapshot|
        invariant todo == old(todo)
        invariant stage == Devices ==> entitlement == old(entitlement)
        invariant stage == Entitlements ==> devices == old(devices)
        invariant claimed.None? ==>
          c >= i && record == Some(snapshot) && Queue(stage) == snapshot && gen == old(gen) && meta == gen
        invariant claimed.Some? ==>
          && c < |snapshot| && i == c + 1 && record.None? && claimed == Some(snapshot[c].(ts := now))
          && Queue(stage) == RemoveAt(snapshot, c)
          && gen == old(gen) + 2 && meta == old(gen) + 1
      {
        if record.None? {
          // `record` holds the LIST_SET's bins, without the list
          failed := true;
          return;
        }
        var item := record.value[i];
        if item.ts == 0 {
          var stamped := item.(ts := now);
          var ok := ListSet(stage, i, stamped, meta);
          if !ok {
            failed := true;
            return;
          }
          meta := gen;
          // do_device / do_entitlement: placeholders in queue.py
          record := None;
          ok := ListPop(stage, i, meta);
          assert snapshot[i := stamped][..i] + snapshot[i := stamped][i + 1..] == RemoveAt(snapshot, i);
          claimed := Some(stamped);
        }
        i := i + 1;
      }
    }

    /** `process_device` (queue.py and all.py; `do_device` does nothing). */
    method ProcessDevice(now: int) returns (claimed: Option<Claim>, failed: bool)
      modifies this
      ensures var c := FirstUnclaimed(old(devices), 0);
        if c == |old(devices)| then
          claimed == None && !failed && devices == old(devices) && gen == old(gen)
        else
          && claimed == Some(old(devices)[c].(ts := now))
          && devices == RemoveAt(old(devices), c)
          && gen == old(gen) + 2
          && (failed <==> c + 1 < |old(devices)|)
      ensures todo == old(todo) && entitlement == old(entitlement)
    {
      claimed, failed := ClaimNext(Devices, now);
    }

    /** `process_entitlement` (queue.py; its `do_entitlement` does nothing). */
    method ProcessEntitlement(now: int) returns (claimed: Option<Claim>, failed: bool)
      modifies this
      ensures var c := FirstUnclaimed(old(entitlement), 0);
        if c == |old(entitlement)| then
          claimed == None && !failed && entitlement == old(entitlement) && gen == old(gen)
        else
          && claimed == Some(old(entitlement)[c].(ts := now))
          && entitlement == RemoveAt(old(entitlement), c)
          && gen == old(gen) + 2
          && (failed <==> c + 1 < |old(entitlement)|)
      ensures todo == old(todo) && devices == old(devices)
    {
      claimed, failed := ClaimNext(Entitlements, now);
    }

    /**
     * `process_entitlement` (all.py). Between stamping and popping the first
     * untaken item it runs `do_entitlement` for the item's service and token
     * (which reads the account of the module-level device). If that raises,
     * or the item has no token, the item stays in the list, stamped. After
     * a pop, as in ClaimNext, reading the item at any later index raises.
     */
    method ProcessEntitlementFor(now: int, store: DeviceAccounts.AccountStore, moduleDevice: string)
      returns (claimed: Option<Claim>, failed: bool)
      modifies this, store
      ensures var snap := old(entitlement);
        var c := FirstUnclaimed(snap, 0);
        if c == |snap| then
          claimed == None && !failed && entitlement == snap && gen == old(gen) && store.accounts == old(store.accounts)
        else
          var stamped := snap[c].(ts := now);
          if stamped.token.None? then
            failed && entitlement == snap[c := stamped] && gen == old(gen) + 1 && store.accounts == old(store.accounts)
          else
            var (after, outcome) := DeviceAccounts.Entitle(old(store.accounts), moduleDevice, stamped.service, stamped.token.value, now);
            && store.accounts == after
            && (outcome != DeviceAccounts.Done ==> failed && entitlement == snap[c := stamped] && gen == old(gen) + 1)
            && (outcome == DeviceAccounts.Done ==>
                  && claimed == Some(stamped) && entitlement == RemoveAt(snap, c) && gen == old(gen) + 2
                  && (failed <==> c + 1 < |snap|))
      ensures todo == old(todo) && devices == old(devices)
    {
      var snapshot := entitlement;
      var record: Option<seq<Claim>> := Some(snapshot);
      var meta := gen;
      claimed, failed := None, false;
      ghost var c := FirstUnclaimed(snapshot, 0);
      var i := 0;
      while i < |snapshot|
        invariant 0 <= i <= |snapshot|
        invariant todo == old(todo) && devices == old(devices)
        invariant claimed.None? ==>
          && c >= i && record == Some(snapshot) && entitlement == snapshot && gen == old(gen) && meta == gen
          && store.accounts == old(store.accounts)
        invariant claimed.Some? ==>
          && c < |snapshot| && i == c + 1 && record.None?
          && claimed == Some(snapshot[c].(ts := now)) && snapshot[c].token.Some?
          && store.accounts == DeviceAccounts.Entitle(old(store.accounts), moduleDevice, snapshot[c].service, snapshot[c].token.value, now).0
          && DeviceAccounts.Entitle(old(store.accounts), moduleDevice, snapshot[c].service, snapshot[c].token.value, now).1 == DeviceAccounts.Done
          && entitlement == RemoveAt(snapshot, c)
          && gen == old(gen) + 2 && meta == old(gen) + 1
      {
        if record.None? {
          // `record` holds the LIST_SET's bins, without the list
          failed := true;
          return;
        }
        var item := record.value[i];
        if item.ts == 0 {
          var stamped := item.(ts := now);
          var ok := ListSet(Entitlements, i, stamped, meta);
          if !ok {
            failed := true;
            return;
          }
          meta := gen;
          record := None;
          if stamped.token.None? {
            failed := true;
            return;
          }
          var outcome := store.DoEntitlementAsWritten(stamped.device, stamped.service, stamped.token.value, now, moduleDevice);
          if outcome != DeviceAccounts.Done {
            failed := true;
            return;
          }
          ok := ListPop(Entitlements, i, meta);
          assert snapshot[i := stamped][..i] + snapshot[i := stamped][i + 1..] == RemoveAt(snapshot, i);
          claimed := Some(stamped);
        }
        i := i + 1;
      }
    }
  }

  /**
   * A device list holding an untaken item and then one already taken:
   * `process_device` claims and pops the first, and reading the second
   * raises, although nothing was left to claim.
   */
  method TakenAfterClaimRaises() returns (failed: bool, left: seq<Claim>)
    ensures failed && left == [Claim("ABC-123", "NBCSports", None, 5)]
  {
    var e := new ActivationEvent("ABC-123", "NBCSports", None);
    var untaken := Claim("ABC-123", "NBCSports", None, 0);
    e.devices := [untaken, untaken.(ts := 5)];
    var claimed;
    claimed, failed := e.ProcessDevice(1000);
    left := e.devices;
  }

  /**
   * The demo of queue.py: after `activation`, `process_todo`,
   * `process_device` and `process_entitlement`, every list is empty again
   * and the record has moved on five generations.
   */
  method ActivationDemo() returns (e: ActivationEvent)
    ensures e.todo == [] && e.entitlement == [] && e.devices == [] && e.gen == 6
  {
    e := new ActivationEvent("ABC-123", "NBCSports", None);
    e.ProcessTodo();
    var _, _ := e.ProcessDevice(1000);
    var _, _ := e.ProcessEntitlement(1000);
  }
}
