/**
 * The Redis activation state machine (redis/state_machines/all.py, parts
 * one to three).
 *
 * Each account is a hash `accounts:<device>` with fields `app:<service>`
 * (the token), `app:<service>:status`, `:failed`, `:ts` and
 * `:last_logon_ts`. Each activation is a payload hash `event_payload:<id>`
 * whose `last_step` names the stage it has finished; its id sits in the list
 * `events:<queue>:<stage>`. A transition rotates the stage list, runs the
 * stage's function for an id whose last step is the stage, and moves the id
 * to the next stage's list once its last step says so. The counter
 * `events_oustanding` is raised at start and lowered at finish.
 */
module RedisActivation {
  import opened Wrappers
  import opened Tokens

  /** A field of an account hash. Tokens hold no ':', so `'app:' + token` can only name an App field. */
  datatype FieldKey =
    | CreatedAt
    | App(service: string)
    | AppTs(service: string)
    | AppStatus(service: string)
    | AppFailed(service: string)
    | AppLastLogon(service: string)

  /**
   * A hash value as the code uses it: text, or the decimal form of an
   * integer. HGETALL hands both back to Python as strings.
   */
  datatype Field = Text(s: string) | Int(n: int)

  type Hash = map<FieldKey, Field>

  /** How a call ends: normally, or with the exception Python or Redis raises. */
  datatype Outcome =
    | Done
    | Timeout         // BRPOPLPUSH found nothing within its timeout
    | KeyError        // a field or key the code indexes is missing
    | ValueError      // int() of a field that is not a number
    | ResponseError   // HINCRBY of a field that is not an integer

  /** The module-level `token` that `do_entitlement` compares with. */
  const ModuleToken: string := "MTOB1J"

  predicate IsStatus(f: Field, a: string, b: string)
  {
    f == Text(a) || f == Text(b)
  }

  // ---------------------------------------------------------------------
  // Provisioning
  // ---------------------------------------------------------------------

  /**
   * The pipeline of the `else` branch of `do_provision`: HSETNX of the
   * token, then HMSET of ts, status "Waiting" and failed 0.
   */
  function Provisioned(account: Hash, service: string, token: string, now: int): Hash
  {
    var withToken := if App(service) in account then account else account[App(service) := Text(token)];
    withToken[AppTs(service) := Int(now)][AppStatus(service) := Text("Waiting")][AppFailed(service) := Int(0)]
  }

  /**
   * `do_provision` on the account hash, with the guard field given: as
   * written the guard is `'app:' + token`, as intended `'app:' + service`.
   * When the guard field exists, a "New" or "Suspended" service only has its
   * ts refreshed and any other status is left alone.
   */
  function ProvisionStep(account: Hash, guard: FieldKey, service: string, token: string, now: int): (Hash, Outcome)
  {
    if guard in account then
      if AppStatus(service) !in account then (account, KeyError)
      else if IsStatus(account[AppStatus(service)], "New", "Suspended") then (account[AppTs(service) := Int(now)], Done)
      else (account, Done)
    else (Provisioned(account, service, token, now), Done)
  }

  /** `do_provision`, as written: the guard tests the token's field. */
  function ProvisionAsWritten(account: Hash, service: string, token: string, now: int): (Hash, Outcome)
  {
    ProvisionStep(account, App(token), service, token, now)
  }

  /** `do_provision` with the guard on the service's own field. */
  function Provision(account: Hash, service: string, token: string, now: int): (Hash, Outcome)
  {
    ProvisionStep(account, App(service), service, token, now)
  }

  /**
   * HSETNX keeps an existing token, and the else branch always leaves the
   * service "Waiting" with no failures; no other field changes.
   */
  lemma ProvisionedSpec(account: Hash, service: string, token: string, now: int)
    ensures var a := Provisioned(account, service, token, now);
      && a[App(service)] == (if App(service) in account then account[App(service)] else Text(token))
      && a[AppStatus(service)] == Text("Waiting") && a[AppFailed(service)] == Int(0) && a[AppTs(service)] == Int(now)
      && a.Keys == account.Keys + {App(service), AppTs(service), AppStatus(service), AppFailed(service)}
      && forall k :: k in account && k !in {App(service), AppTs(service), AppStatus(service), AppFailed(service)} ==> a[k] == account[k]
  {
  }

  /**
   * As written, re-provisioning an "Active" service demotes it: the token's
   * field is not a field of the hash, so the else branch resets the status to
   * "Waiting" and the failure count to 0.
   */
  lemma ProvisionAsWrittenDemotesActive(account: Hash, service: string, token: string, now: int)
    requires App(token) !in account
    requires App(service) in account && AppStatus(service) in account && account[AppStatus(service)] == Text("Active")
    ensures ProvisionAsWritten(account, service, token, now).0[AppStatus(service)] == Text("Waiting")
  {
  }

  /**
   * With the intended guard, provisioning never changes an existing
   * service's token, status or failure count (it refreshes at most its ts),
   * and a new service gets the token, "Waiting" and 0 failures.
   */
  lemma ProvisionRespectsExisting(account: Hash, service: string, token: string, now: int)
    ensures var (a, outcome) := Provision(account, service, token, now);
      && (App(service) in account ==>
            && (outcome == KeyError <==> AppStatus(service) !in account)
            && forall k :: k in account && k != AppTs(service) ==> k in a && a[k] == account[k])
      && (App(service) !in account ==>
            outcome == Done && a[App(service)] == Text(token)
            && a[AppStatus(service)] == Text("Waiting") && a[AppFailed(service)] == Int(0))
  {
  }

  // ---------------------------------------------------------------------
  // Entitlement
  // ---------------------------------------------------------------------

  /** HINCRBY by 1: an absent field counts as 0; a non-integer field is an error. */
  function IncrFailed(account: Hash, service: string): (Hash, Outcome)
  {
    if AppFailed(service) !in account then (account[AppFailed(service) := Int(1)], Done)
    else match account[AppFailed(service)]
      case Int(n) => (account[AppFailed(service) := Int(n + 1)], Done)
      case Text(_) => (account, ResponseError)
  }

  /**
   * `do_entitlement` on the account hash. `expected` is the token the stored
   * one is compared with, and `belowThree` decides the `failed < 3` test on
   * the stored field; the code as written and as intended differ only in
   * these two.
   */
  function EntitleStep(account: Hash, service: string, expected: string, belowThree: Field -> Option<bool>, now: int)
    : (Hash, Outcome)
  {
    if App(service) !in account then (account, Done)
    else if account[App(service)] == Text(expected) then
      (account[AppFailed(service) := Int(0)][AppLastLogon(service) := Int(now)][AppStatus(service) := Text("Active")], Done)
    else if AppStatus(service) !in account then (account, KeyError)
    else if IsStatus(account[AppStatus(service)], "Waiting", "Suspended") then
      if AppFailed(service) !in account then (account, KeyError)
      else match belowThree(account[AppFailed(service)])
        case None => (account, ValueError)
        case Some(true) => IncrFailed(account[AppLastLogon(service) := Int(now)], service)
        case Some(false) =>
          (account[AppStatus(service) := Text("Suspended")][AppLastLogon(service) := Int(now)], Done)
    else IncrFailed(account[AppLastLogon(service) := Int(now)], service)
  }

  /**
   * `account[...failed] < 3` as Python 2 evaluates it: HGETALL returns
   * strings, and a string never compares below an integer.
   */
  function StrBelowThree(f: Field): Option<bool>
  {
    Some(false)
  }

  /** The intended test `int(account[...failed]) < 3`. */
  function IntBelowThree(f: Field): Option<bool>
  {
    match f
    case Int(n) => Some(n < 3)
    case Text(_) => None
  }

  /** `do_entitlement`, as written: compares with the module-level token, and the `< 3` test never holds. */
  function EntitleAsWritten(account: Hash, service: string, now: int): (Hash, Outcome)
  {
    EntitleStep(account, service, ModuleToken, StrBelowThree, now)
  }

  /** `do_entitlement` as intended: compares with the event's token and counts failures numerically. */
  function Entitle(account: Hash, service: string, token: string, now: int): (Hash, Outcome)
  {
    EntitleStep(account, service, token, IntBelowThree, now)
  }

  /**
   * As written, the first wrong token on a "Waiting" service with no
   * failures suspends it at once.
   */
  lemma EntitleAsWrittenSuspendsAtOnce(account: Hash, service: string, now: int)
    requires App(service) in account && account[App(service)] != Text(ModuleToken)
    requires AppStatus(service) in account && account[AppStatus(service)] == Text("Waiting")
    requires AppFailed(service) in account && account[AppFailed(service)] == Int(0)
    ensures EntitleAsWritten(account, service, now).0[AppStatus(service)] == Text("Suspended")
  {
  }

  /**
   * As written, the device's own token is not what activates it: a service
   * whose stored token the event presents stays unactivated unless that
   * token happens to be the module-level one.
   */
  lemma EntitleAsWrittenIgnoresEventToken(account: Hash, service: string, token: string, now: int)
    requires token != ModuleToken
    requires App(service) in account && account[App(service)] == Text(token)
    requires AppStatus(service) in account && account[AppStatus(service)] == Text("Waiting")
    ensures var (a, _) := EntitleAsWritten(account, service, now);
      AppStatus(service) in a && a[AppStatus(service)] != Text("Active")
    ensures var (a, _) := Entitle(account, service, token, now);
      AppStatus(service) in a && a[AppStatus(service)] == Text("Active")
  {
  }

  /**
   * The rules of the intended `do_entitlement`: the service comes out
   * "Active" exactly when the presented token is the stored one, and then
   * with no failures; a mismatch on "Waiting"/"Suspended" adds a failure below 3 and suspends otherwise;
   * a mismatch on any other status still adds a failure. The stored token
   * never changes.
   */
  lemma EntitleRules(account: Hash, service: string, token: string, now: int)
    requires App(service) in account && AppStatus(service) in account
    requires AppFailed(service) in account && account[AppFailed(service)].Int?
    ensures var (a, outcome) := Entitle(account, service, token, now);
      var n := account[AppFailed(service)].n;
      && outcome == Done
      && a[App(service)] == account[App(service)]
      && (account[App(service)] == Text(token) ==> a[AppFailed(service)] == Int(0))
      && (a[AppStatus(service)] == Text("Active") <==>
            account[App(service)] == Text(token) || account[AppStatus(service)] == Text("Active"))
      && (account[App(service)] != Text(token) ==>
            a[AppFailed(service)] == (if n < 3 || !IsStatus(account[AppStatus(service)], "Waiting", "Suspended")
                                      then Int(n + 1) else Int(n))
            && a[AppStatus(service)] == (if n < 3 || !IsStatus(account[AppStatus(service)], "Waiting", "Suspended")
                                         then account[AppStatus(service)] else Text("Suspended")))
  {
  }

  /** The service fields after k wrong tokens in a row. */
  function Mismatches(account: Hash, service: string, wrong: string, now: int, k: nat): Hash
  {
    if k == 0 then account else Entitle(Mismatches(account, service, wrong, now, k - 1), service, wrong, now).0
  }

  /**
   * With the intended test, a "Waiting" service with f <= 3 failures
   * takes min(f + k, 3) failures after k wrong tokens, and is suspended
   * exactly when f + k > 3.
   */
  lemma {:induction false} MismatchesSuspend(account: Hash, service: string, wrong: string, now: int, k: nat)
    requires App(service) in account && account[App(service)] != Text(wrong)
    requires AppStatus(service) in account && account[AppStatus(service)] == Text("Waiting")
    requires AppFailed(service) in account && account[AppFailed(service)].Int?
    requires 0 <= account[AppFailed(service)].n <= 3
    ensures var a := Mismatches(account, service, wrong, now, k);
      var f := account[AppFailed(service)].n;
      && App(service) in a && a[App(service)] == account[App(service)]
      && AppFailed(service) in a && a[AppFailed(service)] == Int(if f + k < 3 then f + k else 3)
      && AppStatus(service) in a && a[AppStatus(service)] == Text(if f + k > 3 then "Suspended" else "Waiting")
  {
    if k > 0 {
      MismatchesSuspend(account, service, wrong, now, k - 1);
    }
  }

  // ---------------------------------------------------------------------
  // Stage lists and transitions
  // ---------------------------------------------------------------------

  /** The hash `event_payload:<id>`. */
  datatype Payload = Payload(service: string, device: string, token: string, lastStep: string, ts: int)

  /** The list `events:<queue>:<stage>`. */
  datatype ListKey = ListKey(queue: string, stage: string)

  /** What a stage runs when it takes an id. */
  datatype Action = DoStart | DoProvision | DoEntitlement | DoFinish

  /** BRPOPLPUSH of a list onto itself: the last element moves to the head. */
  function Rotate(s: seq<string>): (r: seq<string>)
    ensures |r| == |s| && multiset(r) == multiset(s)
    ensures s != [] ==> r[0] == s[|s| - 1] && r[1..] == s[..|s| - 1]
  {
    if s == [] then []
    else
      assert s == s[..|s| - 1] + [s[|s| - 1]];
      [s[|s| - 1]] + s[..|s| - 1]
  }

  /** LREM with count 0: every copy of x goes. */
  function Remove(s: seq<string>, x: string): (r: seq<string>)
    ensures x !in r
    ensures forall y :: y != x ==> multiset(r)[y] == multiset(s)[y]
  {
    if s == [] then []
    else
      assert s == [s[0]] + s[1..];
      (if s[0] == x then [] else [s[0]]) + Remove(s[1..], x)
  }

  /** The stages of an activation that has started and not finished. */
  predicate InFlight(step: string)
  {
    step == "todo" || step == "provision" || step == "entitlement"
  }

  ghost function InFlightIds(payloads: map<string, Payload>): set<string>
  {
    set id | id in payloads && InFlight(payloads[id].lastStep)
  }

  /** Replacing one payload changes the in-flight count by at most one, as its step says. */
  lemma InFlightUpdate(payloads: map<string, Payload>, id: string, p: Payload)
    requires id in payloads
    ensures |InFlightIds(payloads[id := p])| ==
      |InFlightIds(payloads)| + (if InFlight(p.lastStep) then 1 else 0) - (if InFlight(payloads[id].lastStep) then 1 else 0)
  {
    var before := InFlightIds(payloads);
    var rest := before - {id};
    assert InFlightIds(payloads[id := p]) == rest + (if InFlight(p.lastStep) then {id} else {});
    if InFlight(payloads[id].lastStep) {
      assert before == rest + {id};
    } else {
      assert before == rest;
    }
  }

  /** The step a stage function leads to: `start -> todo -> provision -> entitlement -> end`. */
  function NextStep(action: Action): (string, string)
  {
    match action
    case DoStart => ("start", "todo")
    case DoProvision => ("todo", "provision")
    case DoEntitlement => ("provision", "entitlement")
    case DoFinish => ("entitlement", "end")
  }

  /** Redis keeps no empty hash: writing one back deletes the key. */
  function Put(accounts: map<string, Hash>, device: string, h: Hash): map<string, Hash>
  {
    if h == map[] then accounts - {device} else accounts[device := h]
  }

  /** The token `do_provision` files: the event's own, or a generated one when it carries none. */
  function ChosenToken(event: Payload, choices: seq<nat>): string
    requires Choices(choices)
  {
    if event.token != "" then event.token else TokenOf(choices)
  }

  class RedisActivationStore {
    var accounts: map<string, Hash>
    var lists: map<ListKey, seq<string>>
    var payloads: map<string, Payload>
    var outstanding: int

    /** `flushall` */
    constructor ()
      ensures accounts == map[] && lists == map[] && payloads == map[] && outstanding == 0
    {
      accounts, lists, payloads, outstanding := map[], map[], map[], 0;
    }

    /** `events_oustanding` counts exactly the activations in flight. */
    ghost predicate Valid()
      reads this
    {
      outstanding == |InFlightIds(payloads)|
    }

    function Account(device: string): Hash
      reads this
    {
      if device in accounts then accounts[device] else map[]
    }

    function List(key: ListKey): seq<string>
      reads this
    {
      if key in lists then lists[key] else []
    }

    /** `create_account`: HSET created_at. */
    method CreateAccount(device: string, now: int)
      modifies this
      ensures accounts == old(accounts)[device := old(Account(device))[CreatedAt := Int(now)]]
      ensures lists == old(lists) && payloads == old(payloads) && outstanding == old(outstanding)
    {
      accounts := accounts[device := Account(device)[CreatedAt := Int(now)]];
    }

    /**
     * `do_provision(event)`: an empty token is replaced by a generated one
     * (in the event only), then the account hash is updated as Provision
     * says: the guard is the service's own field (the code tests
     * `'app:' + token`, which ProvisionAsWritten models).
     */
    method DoProvision(event: Payload, choices: seq<nat>, now: int) returns (outcome: Outcome, token: string)
      requires Choices(choices)
      modifies this
      ensures event.token != "" ==> token == event.token
      ensures event.token == "" ==> IsToken(token)
      ensures token == ChosenToken(event, choices)
      ensures var (a, o) := Provision(old(Account(event.device)), event.service, token, now);
        outcome == o && accounts == Put(old(accounts), event.device, a)
      ensures lists == old(lists) && payloads == old(payloads) && outstanding == old(outstanding)
    {
      token := event.token;
      if token == "" {
        token := GenerateToken(choices);
        TokenDetermined(choices, token);
      }
      var account := Account(event.device);
      outcome := Done;
      if App(event.service) in account {
        assert event.device in accounts && Put(accounts, event.device, account) == accounts;
        if AppStatus(event.service) !in account {
          return KeyError, token;
        }
        if account[AppStatus(event.service)] == Text("New") || account[AppStatus(event.service)] == Text("Suspended") {
          accounts := accounts[event.device := account[AppTs(event.service) := Int(now)]];
          assert AppTs(event.service) in accounts[event.device];
        }
      } else {
        var updated := account;
        if App(event.service) !in updated {
          updated := updated[App(event.service) := Text(token)];                       // HSETNX
        }
        updated := updated[AppTs(event.service) := Int(now)][AppStatus(event.service) := Text("Waiting")]
                          [AppFailed(event.service) := Int(0)];                           // HMSET
        assert updated == Provisioned(account, event.service, token, now) && AppFailed(event.service) in updated;
        accounts := accounts[event.device := updated];
      }
    }

    /**
     * `do_entitlement(event)`: the account hash is updated as Entitle says,
     * against the event's token and with the failure count compared as a
     * number (the code as written is EntitleAsWritten).
     */
    method DoEntitlement(event: Payload, now: int) returns (outcome: Outcome)
      modifies this
      ensures var (a, o) := Entitle(old(Account(event.device)), event.service, event.token, now);
        outcome == o && accounts == Put(old(accounts), event.device, a)
      ensures lists == old(lists) && payloads == old(payloads) && outstanding == old(outstanding)
    {
      var (a, o) := Entitle(Account(event.device), event.service, event.token, now);
      outcome := o;
      accounts := Put(accounts, event.device, a);
    }

    /**
     * `transition(queue, from_state, to_state, fn)` for one of the four
     * stages. The stage list is rotated; for an id whose last step is the
     * stage, fn runs and, if it returns, the payload moves on to the next
     * step; for an id already past it, every copy of the id leaves the
     * stage list and one goes to the head of the next stage's list.
     */
    method Transition(queue: string, action: Action, choices: seq<nat>, now: int) returns (outcome: Outcome)
      requires Choices(choices)
      modifies this
      ensures var (fromState, toState) := NextStep(action);
        var from := ListKey(queue, fromState);
        var to := ListKey(queue, toState);
        var l := old(List(from));
        if l == [] then
          outcome == Timeout && accounts == old(accounts) && lists == old(lists)
          && payloads == old(payloads) && outstanding == old(outstanding)
        else
          var id := l[|l| - 1];
          if id !in old(payloads) then
            outcome == KeyError && lists == old(lists)[from := Rotate(l)]
            && accounts == old(accounts) && payloads == old(payloads) && outstanding == old(outstanding)
          else if old(payloads)[id].lastStep == fromState then
            && lists == old(lists)[from := Rotate(l)]
            && (outcome == Done ==> payloads == old(payloads)[id := old(payloads)[id].(lastStep := toState, ts := now)])
            && (outcome != Done ==> payloads == old(payloads))
            && outstanding == old(outstanding) + (if action == DoStart then 1 else if action == DoFinish then -1 else 0)
            && ((action == DoStart || action == DoFinish) ==> outcome == Done && accounts == old(accounts))
            && (action.DoProvision? ==>
                  var ev := old(payloads)[id];
                  var (a, o) := Provision(old(Account(ev.device)), ev.service, ChosenToken(ev, choices), now);
                  outcome == o && accounts == Put(old(accounts), ev.device, a))
            && (action.DoEntitlement? ==>
                  var ev := old(payloads)[id];
                  var (a, o) := Entitle(old(Account(ev.device)), ev.service, ev.token, now);
                  outcome == o && accounts == Put(old(accounts), ev.device, a))
          else if old(payloads)[id].lastStep == toState then
            outcome == Done && lists == old(lists)[from := Remove(Rotate(l), id)][to := [id] + old(List(to))]
            && accounts == old(accounts) && payloads == old(payloads) && outstanding == old(outstanding)
          else
            outcome == Done && lists == old(lists)[from := Rotate(l)]
            && accounts == old(accounts) && payloads == old(payloads) && outstanding == old(outstanding)
    {
      var (fromState, toState) := NextStep(action);
      var from := ListKey(queue, fromState);
      var to := ListKey(queue, toState);
      var l := List(from);
      if l == [] {
        return Timeout;
      }
      var id := l[|l| - 1];
      lists := lists[from := Rotate(l)];
      if id !in payloads {
        return KeyError;
      }
      var event := payloads[id];
      outcome := Done;
      if event.lastStep == fromState {
        match action {
          case DoStart => outstanding := outstanding + 1;
          case DoProvision => var t; outcome, t := DoProvision(event, choices, now);
          case DoEntitlement => outcome := DoEntitlement(event, now);
          case DoFinish => outstanding := outstanding - 1;
        }
        if outcome == Done {
          payloads := payloads[id := event.(lastStep := toState, ts := now)];
        }
      } else if event.lastStep == toState {
        var rest := Remove(lists[from], id);
        var toList := List(to);
        lists := lists[from := rest][to := [id] + toList];
      }
    }

    /** Every stage keeps `events_oustanding` equal to the number of activations in flight. */
    method Process(queue: string, action: Action, choices: seq<nat>, now: int) returns (outcome: Outcome)
      requires Valid()
      requires Choices(choices)
      modifies this
      ensures Valid()
    {
      ghost var before := payloads;
      outcome := Transition(queue, action, choices, now);
      if payloads != before {
        var (fromState, toState) := NextStep(action);
        var l := old(List(ListKey(queue, fromState)));
        var id := l[|l| - 1];
        InFlightUpdate(before, id, before[id].(lastStep := toState, ts := now));
      }
    }

    /**
     * `create_activation`: the new id goes at the tail of the start list
     * and its payload starts at "start". The id comes from uuid4, so it is
     * new. Nothing starts in flight, so the count still matches.
     */
    method CreateActivation(queue: string, device: string, service: string, token: string, id: string)
      requires id !in payloads
      requires Valid()
      modifies this
      ensures lists == old(lists)[ListKey(queue, "start") := old(List(ListKey(queue, "start"))) + [id]]
      ensures payloads == old(payloads)[id := Payload(service, device, token, "start", 0)]
      ensures accounts == old(accounts) && outstanding == old(outstanding)
      ensures Valid()
    {
      var start := ListKey(queue, "start");
      lists := lists[start := List(start) + [id]];
      assert InFlightIds(payloads[id := Payload(service, device, token, "start", 0)]) == InFlightIds(payloads);
      payloads := payloads[id := Payload(service, device, token, "start", 0)];
    }
  }
}
