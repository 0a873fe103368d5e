/**
 * Device accounts and their per-service activation tokens
 * (aerospike/state_machines/activate.py, all.py and provisioning.py).
 *
 * An account record holds a map `tokens` from service to a service entry
 * {token, status, failed, ts, last_logon_ts}. Provisioning (re)issues a token
 * and puts the entry in "Waiting"; entitlement compares the device's token
 * with the stored one: a match activates the service, a mismatch counts a
 * failed attempt, and a fourth mismatch suspends it.
 */
module DeviceAccounts {
  import opened Wrappers
  import opened Tokens

  /** One entry of an account's `tokens` map; absent fields are None. */
  datatype ServiceRec = ServiceRec(
    token: string,
    status: string,
    failed: Option<int>,
    ts: Option<int>,
    lastLogonTs: Option<int>)

  /**
   * A key of the `tokens` map. Entries are filed under the service name;
   * the provisioning code as written can also file one under a whole
   * service entry (see Provision).
   */
  datatype TokenKey = Service(name: string) | RecordKey(rec: ServiceRec)

  /** The record `accounts:<device>`. */
  datatype AccountRec = AccountRec(
    deviceId: Option<string>,
    tokens: map<TokenKey, ServiceRec>,
    lastLogonTs: Option<int>)

  /** How a call ends: normally, or with the exception the client or Python raises. */
  datatype Outcome =
    | Done
    | NoRecord       // the account record does not exist (the read raises)
    | MissingField   // `service_rec['failed']` on an entry without that field (KeyError)

  predicate Suspendable(status: string)
  {
    status == "Waiting" || status == "Suspended"
  }

  /** `auth(device)`: a coin toss for an active device, False otherwise. */
  function Auth(status: string, coin: bool): (r: bool)
    ensures status != "Active" ==> !r
    ensures status == "Active" ==> r == coin
  {
    if status == "Active" then coin else false
  }

  // ---------------------------------------------------------------------
  // Provisioning
  // ---------------------------------------------------------------------

  /** The entry provisioning writes: the token, the time, status "Waiting". */
  function WaitingEntry(token: string, now: int): ServiceRec
  {
    ServiceRec(token, "Waiting", None, Some(now), None)
  }

  /**
   * What provisioning writes for a service whose current entry is
   * `existing`: a fresh "Waiting" entry when there is none or it is "New"
   * or "Suspended", nothing (None) otherwise.
   */
  function Provisioned(existing: Option<ServiceRec>, token: string, now: int): (r: Option<ServiceRec>)
  {
    match existing
    case None => Some(WaitingEntry(token, now))
    case Some(rec) =>
      if rec.status == "New" || rec.status == "Suspended" then Some(WaitingEntry(token, now)) else None
  }

  /**
   * Provisioning leaves a live entry ("Waiting", "Active", ...) alone, and
   * otherwise writes a "Waiting" entry carrying the new token and no failure
   * count.
   */
  lemma ProvisionedSpec(existing: Option<ServiceRec>, token: string, now: int)
    ensures Provisioned(existing, token, now).None? <==>
      existing.Some? && existing.value.status != "New" && existing.value.status != "Suspended"
    ensures Provisioned(existing, token, now).Some? ==>
      var w := Provisioned(existing, token, now).value;
      w.status == "Waiting" && w.token == token && w.failed == None && w.ts == Some(now)
  {
  }

  /** A freshly provisioned entry is activated by the token it was issued with. */
  lemma ProvisionThenEntitle(existing: Option<ServiceRec>, token: string, now: int, later: int)
    requires Provisioned(existing, token, now).Some?
    ensures var w := Provisioned(existing, token, now).value;
      EntitlementStep(w, token, later) == Update(w.(failed := Some(0), lastLogonTs := Some(later), status := "Active"))
  {
  }

  /**
   * A freshly provisioned entry has no failure count, so the first wrong
   * token presented for it ends in a KeyError instead of counting a failure.
   */
  lemma ProvisionThenWrongToken(existing: Option<ServiceRec>, token: string, now: int, wrong: string, later: int)
    requires Provisioned(existing, token, now).Some? && wrong != token
    ensures EntitlementStep(Provisioned(existing, token, now).value, wrong, later) == MissingFailed
  {
  }

  // ---------------------------------------------------------------------
  // Entitlement
  // ---------------------------------------------------------------------

  /** What `do_entitlement` does with an existing entry. */
  datatype Step =
    | Update(rec: ServiceRec)   // map_put of the changed entry
    | Touch                     // put of a record-level last_logon_ts only
    | MissingFailed             // KeyError on `failed`

  function EntitlementStep(rec: ServiceRec, token: string, now: int): Step
  {
    if rec.token == token then
      Update(rec.(failed := Some(0), lastLogonTs := Some(now), status := "Active"))
    else if Suspendable(rec.status) then
      match rec.failed
      case None => MissingFailed
      case Some(f) =>
        if f < 3 then Update(rec.(failed := Some(f + 1), lastLogonTs := Some(now)))
        else Update(rec.(status := "Suspended", lastLogonTs := Some(now)))
    else Touch
  }

  /**
   * The branch rules of `do_entitlement`, each as an if-and-only-if: an entry
   * comes out "Active" exactly when the token matched, and then with
   * `failed` reset to 0; a mismatch on a
   * "Waiting"/"Suspended" entry increments `failed` while it is below 3 and
   * suspends it otherwise; a mismatch on any other status leaves the entry as
   * it was. The token is never changed.
   */
  lemma EntitlementRules(rec: ServiceRec, token: string, now: int)
    ensures rec.token == token ==>
      EntitlementStep(rec, token, now).Update? && EntitlementStep(rec, token, now).rec.failed == Some(0)
    ensures EntitlementStep(rec, token, now).Update? ==>
      var r := EntitlementStep(rec, token, now).rec;
      && r.token == rec.token && r.lastLogonTs == Some(now)
      && (r.status == "Active" <==> rec.token == token)
      && (rec.token != token ==> r.status == (if rec.failed.value < 3 then rec.status else "Suspended"))
      && (rec.token != token ==> r.failed == (if rec.failed.value < 3 then Some(rec.failed.value + 1) else rec.failed))
    ensures EntitlementStep(rec, token, now).Touch? <==> rec.token != token && !Suspendable(rec.status)
    ensures EntitlementStep(rec, token, now).MissingFailed? <==>
      rec.token != token && Suspendable(rec.status) && rec.failed.None?
  {
  }

  /** The failure count never climbs above 3. */
  lemma FailedStaysBounded(rec: ServiceRec, token: string, now: int)
    requires rec.failed.Some? && 0 <= rec.failed.value <= 3
    ensures EntitlementStep(rec, token, now).Update? ==>
      var r := EntitlementStep(rec, token, now).rec;
      r.failed.Some? && 0 <= r.failed.value <= 3
  {
  }

  /** The entry after k wrong tokens in a row (a failed step leaves it as it was). */
  function Mismatches(rec: ServiceRec, wrong: string, now: int, k: nat): ServiceRec
  {
    if k == 0 then rec
    else
      var prev := Mismatches(rec, wrong, now, k - 1);
      match EntitlementStep(prev, wrong, now)
      case Update(r) => r
      case _ => prev
  }

  /**
   * Starting from a "Waiting" entry with f <= 3 failures, k wrong tokens
   * leave min(f + k, 3) failures, and the entry is suspended exactly when
   * f + k > 3: the fourth wrong attempt from a clean entry suspends it.
   */
  lemma {:induction false} MismatchesSuspend(rec: ServiceRec, wrong: string, now: int, k: nat)
    requires rec.status == "Waiting" && rec.failed.Some? && 0 <= rec.failed.value <= 3
    requires wrong != rec.token
    ensures var r := Mismatches(rec, wrong, now, k);
      && r.token == rec.token
      && r.failed == Some(if rec.failed.value + k < 3 then rec.failed.value + k else 3)
      && r.status == (if rec.failed.value + k > 3 then "Suspended" else "Waiting")
  {
    if k > 0 {
      MismatchesSuspend(rec, wrong, now, k - 1);
    }
  }

  /**
   * `do_entitlement` on the account records: no record raises; an absent
   * service changes nothing; otherwise EntitlementStep decides.
   */
  function Entitle(accounts: map<string, AccountRec>, device: string, service: string, token: string, now: int)
    : (map<string, AccountRec>, Outcome)
  {
    if device !in accounts then (accounts, NoRecord)
    else
      var rec := accounts[device];
      if Service(service) !in rec.tokens then (accounts, Done)
      else
        match EntitlementStep(rec.tokens[Service(service)], token, now)
        case Update(r) => (accounts[device := rec.(tokens := rec.tokens[Service(service) := r])], Done)
        case Touch => (accounts[device := rec.(lastLogonTs := Some(now))], Done)
        case MissingFailed => (accounts, MissingField)
  }

  /**
   * Entitlement touches one account only, and in it at most the named
   * service's entry or the record-level last_logon_ts; a call that raises
   * writes nothing.
   */
  lemma EntitleFrame(accounts: map<string, AccountRec>, device: string, service: string, token: string, now: int)
    ensures var (after, outcome) := Entitle(accounts, device, service, token, now);
      && after.Keys == accounts.Keys
      && (forall d :: d in accounts && d != device ==> after[d] == accounts[d])
      && (outcome != Done ==> after == accounts)
      && (device in accounts ==>
            && after[device].deviceId == accounts[device].deviceId
            && after[device].tokens.Keys == accounts[device].tokens.Keys
            && (forall k :: k in accounts[device].tokens && k != Service(service) ==>
                  after[device].tokens[k] == accounts[device].tokens[k]))
  {
  }

  // ---------------------------------------------------------------------
  // The account store
  // ---------------------------------------------------------------------

  class AccountStore {
    var accounts: map<string, AccountRec>

    constructor ()
      ensures accounts == map[]
    {
      accounts := map[];
    }

    /** `create_account` (all.py): `put` of an empty `tokens` bin; other bins stay. */
    method CreateAccount(device: string)
      modifies this
      ensures accounts == old(accounts)[device :=
        if device in old(accounts) then old(accounts)[device].(tokens := map[])
        else AccountRec(None, map[], None)]
    {
      if device in accounts {
        accounts := accounts[device := accounts[device].(tokens := map[])];
      } else {
        accounts := accounts[device := AccountRec(None, map[], None)];
      }
    }

    /** `account` (provisioning.py): `put` of the device id and an empty `tokens` bin. */
    method Account(device: string)
      modifies this
      ensures device in accounts && accounts[device].deviceId == Some(device) && accounts[device].tokens == map[]
      ensures accounts[device].lastLogonTs == if device in old(accounts) then old(accounts)[device].lastLogonTs else None
      ensures forall d :: d in old(accounts) && d != device ==> d in accounts && accounts[d] == old(accounts)[d]
      ensures accounts.Keys == old(accounts).Keys + {device}
    {
      var last := if device in accounts then accounts[device].lastLogonTs else None;
      accounts := accounts[device := AccountRec(Some(device), map[], last)];
    }

    /**
     * `provision` (all.py), as written. An empty token is replaced by a
     * generated one. For an existing service entry, line 28 rebinds `service`
     * to the entry itself, so the reset to "Waiting" is filed under that
     * entry (RecordKey) and the service's own entry is never reset.
     */
    method Provision(device: string, service: string, token: string, choices: seq<nat>, now: int)
      returns (outcome: Outcome, issued: string)
      requires Choices(choices)
      modifies this
      ensures token != "" ==> issued == token
      ensures token == "" ==> IsToken(issued)
      ensures outcome == (if device in old(accounts) then Done else NoRecord)
      ensures device !in old(accounts) ==> accounts == old(accounts)
      ensures device in old(accounts) ==>
        var rec := old(accounts)[device];
        var key := Service(service);
        accounts == old(accounts)[device :=
          if key !in rec.tokens then rec.(tokens := rec.tokens[key := WaitingEntry(issued, now)])
          else match Provisioned(Some(rec.tokens[key]), issued, now)
               case None => rec
               case Some(w) => rec.(tokens := rec.tokens[RecordKey(rec.tokens[key]) := w])]
    {
      issued := token;
      if issued == "" {
        issued := GenerateToken(choices);
      }
      if device !in accounts {
        return NoRecord, issued;
      }
      outcome := Done;
      var rec := accounts[device];
      if Service(service) in rec.tokens {
        var entry := rec.tokens[Service(service)];
        if entry.status == "New" || entry.status == "Suspended" {
          accounts := accounts[device := rec.(tokens := rec.tokens[RecordKey(entry) := WaitingEntry(issued, now)])];
        }
      } else {
        // MAP_CREATE_ONLY: the key was just read as absent
        accounts := accounts[device := rec.(tokens := rec.tokens[Service(service) := WaitingEntry(issued, now)])];
      }
    }

    /** `provision` (provisioning.py): the same steps, always with a generated token. */
    method ProvisionGenerated(device: string, service: string, choices: seq<nat>, now: int)
      returns (outcome: Outcome, issued: string)
      requires Choices(choices)
      modifies this
      ensures IsToken(issued)
      ensures outcome == (if device in old(accounts) then Done else NoRecord)
      ensures device !in old(accounts) ==> accounts == old(accounts)
      ensures device in old(accounts) ==>
        var rec := old(accounts)[device];
        var key := Service(service);
        accounts == old(accounts)[device :=
          if key !in rec.tokens then rec.(tokens := rec.tokens[key := WaitingEntry(issued, now)])
          else match Provisioned(Some(rec.tokens[key]), issued, now)
               case None => rec
               case Some(w) => rec.(tokens := rec.tokens[RecordKey(rec.tokens[key]) := w])]
    {
      outcome, issued := Provision(device, service, "", choices, now);
    }

    /**
     * `provision` as intended: the entry is written under the service name,
     * so after the call the service's entry is exactly what Provisioned
     * prescribes and no other entry or account changes.
     */
    method ProvisionByName(device: string, service: string, token: string, choices: seq<nat>, now: int)
      returns (outcome: Outcome, issued: string)
      requires Choices(choices)
      modifies this
      ensures token != "" ==> issued == token
      ensures token == "" ==> IsToken(issued)
      ensures outcome == (if device in old(accounts) then Done else NoRecord)
      ensures device !in old(accounts) ==> accounts == old(accounts)
      ensures device in old(accounts) ==>
        var rec := old(accounts)[device];
        var key := Service(service);
        var existing := if key in rec.tokens then Some(rec.tokens[key]) else None;
        accounts == old(accounts)[device :=
          match Provisioned(existing, issued, now)
          case None => rec
          case Some(w) => rec.(tokens := rec.tokens[key := w])]
    {
      issued := token;
      if issued == "" {
        issued := GenerateToken(choices);
      }
      if device !in accounts {
        return NoRecord, issued;
      }
      outcome := Done;
      var rec := accounts[device];
      if Service(service) in rec.tokens {
        var entry := rec.tokens[Service(service)];
        if entry.status == "New" || entry.status == "Suspended" {
          accounts := accounts[device := rec.(tokens := rec.tokens[Service(service) := WaitingEntry(issued, now)])];
        }
      } else {
        accounts := accounts[device := rec.(tokens := rec.tokens[Service(service) := WaitingEntry(issued, now)])];
      }
    }

    /**
     * `do_entitlement` for the account of `device`: the new accounts and the
     * way the call ends are those Entitle prescribes.
     */
    method DoEntitlement(device: string, service: string, token: string, now: int) returns (outcome: Outcome)
      modifies this
      ensures (accounts, outcome) == Entitle(old(accounts), device, service, token, now)
    {
      if device !in accounts {
        return NoRecord;
      }
      var rec := accounts[device];
      outcome := Done;
      if Service(service) in rec.tokens {
        var serviceRec := rec.tokens[Service(service)];
        if serviceRec.token == token {
          serviceRec := serviceRec.(failed := Some(0), lastLogonTs := Some(now), status := "Active");
          accounts := accounts[device := rec.(tokens := rec.tokens[Service(service) := serviceRec])];
        } else if serviceRec.status == "Waiting" || serviceRec.status == "Suspended" {
          if serviceRec.failed.None? {
            return MissingField;
          }
          if serviceRec.failed.value < 3 {
            serviceRec := serviceRec.(failed := Some(serviceRec.failed.value + 1), lastLogonTs := Some(now));
          } else {
            serviceRec := serviceRec.(status := "Suspended", lastLogonTs := Some(now));
          }
          accounts := accounts[device := rec.(tokens := rec.tokens[Service(service) := serviceRec])];
        } else {
          accounts := accounts[device := rec.(lastLogonTs := Some(now))];
        }
      }
    }

    /**
     * `do_entitlement` as written: the `device` argument is not used; the
     * account read and written is the one of the module-level `device_id`.
     */
    method DoEntitlementAsWritten(device: string, service: string, token: string, now: int, moduleDevice: string)
      returns (outcome: Outcome)
      modifies this
      ensures (accounts, outcome) == Entitle(old(accounts), moduleDevice, service, token, now)
    {
      outcome := DoEntitlement(moduleDevice, service, token, now);
    }
  }

  /**
   * Provisioning a suspended service as written leaves its entry suspended
   * (the fresh "Waiting" entry goes under the entry itself); provisioning by
   * name resets it to "Waiting" with the new token.
   */
  method SuspendedServiceReprovisioned() returns (asWritten: ServiceRec, corrected: ServiceRec)
    ensures asWritten.status == "Suspended" && asWritten.token == "OLD123"
    ensures corrected.status == "Waiting" && corrected.token == "NEW456"
  {
    var choices := [0, 0, 0, 0, 0, 0];
    var suspended := ServiceRec("OLD123", "Suspended", Some(3), Some(1), Some(2));
    var store := new AccountStore();
    store.accounts := map["ATV-123" := AccountRec(None, map[Service("NBCSports") := suspended], None)];
    var _, _ := store.Provision("ATV-123", "NBCSports", "NEW456", choices, 10);
    asWritten := store.accounts["ATV-123"].tokens[Service("NBCSports")];
    store.accounts := map["ATV-123" := AccountRec(None, map[Service("NBCSports") := suspended], None)];
    var _, _ := store.ProvisionByName("ATV-123", "NBCSports", "NEW456", choices, 10);
    corrected := store.accounts["ATV-123"].tokens[Service("NBCSports")];
  }

  /**
   * A wrong token presented for device "XYZ-999" is charged, as written, to
   * the module-level device "ABC-123"; for the intended call it is charged
   * to "XYZ-999" and "ABC-123" is untouched.
   */
  method EntitlementChargesModuleDevice() returns (asWritten: AccountRec, corrected: AccountRec)
    ensures Service("NBCSports") in asWritten.tokens && asWritten.tokens[Service("NBCSports")].failed == Some(1)
    ensures Service("NBCSports") in corrected.tokens && corrected.tokens[Service("NBCSports")].failed == Some(0)
  {
    var entry := ServiceRec("MTOB1J", "Waiting", Some(0), None, None);
    var other := ServiceRec("QQQ111", "Waiting", Some(0), None, None);
    var store := new AccountStore();
    var initial := map["ABC-123" := AccountRec(Some("ABC-123"), map[Service("NBCSports") := entry], None),
                       "XYZ-999" := AccountRec(Some("XYZ-999"), map[Service("NBCSports") := other], None)];
    store.accounts := initial;
    var _ := store.DoEntitlementAsWritten("XYZ-999", "NBCSports", "XYZ789", 5, "ABC-123");
    asWritten := store.accounts["ABC-123"];
    store.accounts := initial;
    var _ := store.DoEntitlement("XYZ-999", "NBCSports", "XYZ789", 5);
    corrected := store.accounts["ABC-123"];
  }
}
