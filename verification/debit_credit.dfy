/**
 * The Aerospike debit/credit workflow (aerospike/credit_debit/all.py).
 *
 * An account record holds a balance and a map `txs` of the transfers posted
 * to it; a transaction record holds its two accounts, its amount and a
 * state. A transfer moves through Begin -> Approved -> Funding -> Debited ->
 * Credited, or Begin -> Insufficient Funds, and each step only applies when
 * the transaction is still in the state the step expects.
 */
module DebitCredit {
  import opened Tokens
  import opened MapSums

  datatype TxState = Begin | Approved | Funding | Debited | Credited | InsufficientFunds

  /** An entry of an account's `txs` map: `{'amt', 'to'}` on the debit side, `{'amt', 'from'}` on the credit side. */
  datatype Posting = DebitOf(amt: int, to: string) | CreditOf(amt: int, from: string)

  /** An account record; `gen` is its Aerospike generation. */
  datatype Account = Account(balance: int, txs: map<string, Posting>, gen: nat)

  /** A transaction record. */
  datatype Tx = Tx(from: string, to: string, amt: int, state: TxState, ts: int, gen: nat)

  /** How a call ends: normally, or with the error the client raises. */
  datatype Outcome =
    | Done
    | NotFound         // a get/select/operate on a record that does not exist
    | GenerationError  // a POLICY_GEN_EQ write with a stale generation
    | ElementExists    // a MAP_CREATE_ONLY put of a key already in the map

  type Accounts = map<string, Account>
  type Txs = map<string, Tx>

  // ---------------------------------------------------------------------
  // The sum of all balances
  // ---------------------------------------------------------------------

  function BalanceOf(a: Account): int
  {
    a.balance
  }

  /** The sum of all balances. */
  ghost function Total(accounts: Accounts): int
  {
    SumMap(accounts, BalanceOf)
  }

  /** Replacing or adding one account changes Total by the difference in its balance. */
  lemma TotalUpdate(accounts: Accounts, k: string, a: Account)
    ensures Total(accounts[k := a]) == Total(accounts) - (if k in accounts then accounts[k].balance else 0) + a.balance
  {
    SumMapUpdate(accounts, BalanceOf, k, a);
  }

  // ---------------------------------------------------------------------
  // Part one: a debit and a credit with no workflow
  // ---------------------------------------------------------------------

  function Balance(accounts: Accounts, user: string): int
  {
    if user in accounts then accounts[user].balance else 0
  }

  /** `client.increment(..., "balance", delta)`: a missing record is created with the bin. */
  function Increment(accounts: Accounts, user: string, delta: int): Accounts
  {
    if user in accounts then accounts[user := accounts[user].(balance := accounts[user].balance + delta, gen := accounts[user].gen + 1)]
    else accounts[user := Account(delta, map[], 1)]
  }

  /** `simple_debit_credit`: the debit's generation is the one just read, so it applies. */
  function SimpleTransfer(accounts: Accounts, from: string, to: string, amount: int): (Accounts, Outcome)
  {
    if from !in accounts then (accounts, NotFound)
    else if accounts[from].balance >= amount then (Increment(Increment(accounts, from, -amount), to, amount), Done)
    else (accounts, Done)
  }

  /**
   * A simple transfer moves the amount exactly when the payer can cover
   * it: the payer loses it, the payee gains it, the payer stays
   * non-negative if it was, and the sum of all balances is unchanged.
   */
  lemma SimpleTransferConserves(accounts: Accounts, from: string, to: string, amount: int)
    requires from in accounts
    ensures var (after, outcome) := SimpleTransfer(accounts, from, to, amount);
      && outcome == Done
      && Total(after) == Total(accounts)
      && (accounts[from].balance >= amount ==>
            from != to ==> Balance(after, from) == accounts[from].balance - amount
                           && Balance(after, to) == Balance(accounts, to) + amount)
      && (accounts[from].balance < amount ==> after == accounts)
  {
    if accounts[from].balance >= amount {
      var once := Increment(accounts, from, -amount);
      TotalUpdate(accounts, from, once[from]);
      TotalUpdate(once, to, Increment(once, to, amount)[to]);
    }
  }

  // ---------------------------------------------------------------------
  // Part two: the workflow, as functions of the two record sets
  // ---------------------------------------------------------------------

  /** `transition_state` on an existing transaction: a write only from the expected state. */
  function Transition(txs: Txs, id: string, fromState: TxState, toState: TxState, now: int): (r: Txs)
    requires id in txs
    ensures id in r && r.Keys == txs.Keys
    ensures r[id].state == (if txs[id].state == fromState then toState else txs[id].state)
    ensures txs[id].state != fromState ==> r == txs
    ensures forall other :: other in txs && other != id ==> r[other] == txs[other]
  {
    if txs[id].state == fromState then txs[id := txs[id].(state := toState, ts := now, gen := txs[id].gen + 1)]
    else txs
  }

  /**
   * One side of a transfer posted to an account in one operate: the entry
   * goes into `txs` with CREATE_ONLY and the balance moves by delta; an
   * existing entry for the id fails the whole operate.
   */
  function Post(accounts: Accounts, user: string, id: string, entry: Posting, delta: int): (Accounts, Outcome)
    requires user in accounts
  {
    if id in accounts[user].txs then (accounts, ElementExists)
    else (accounts[user := Account(accounts[user].balance + delta, accounts[user].txs[id := entry], accounts[user].gen + 1)], Done)
  }

  /** `check_funding`: approves a transaction still at Begin when the payer can cover the amount. */
  function Funded(accounts: Accounts, txs: Txs, id: string, from: string, amt: int, now: int): (bool, Txs)
    requires id in txs && from in accounts
  {
    if accounts[from].balance >= amt then (true, Transition(txs, id, Begin, Approved, now)) else (false, txs)
  }

  /** `process_debit` */
  function DebitStep(accounts: Accounts, txs: Txs, id: string, from: string, to: string, amt: int, now: int)
    : (Accounts, Txs, Outcome)
  {
    if id !in txs then (accounts, txs, NotFound)
    else if txs[id].state != Approved then (accounts, txs, Done)
    else if from !in accounts then (accounts, txs, NotFound)
    else
      var (funded, txs1) := Funded(accounts, txs, id, from, amt, now);
      if !funded then (accounts, Transition(txs1, id, Begin, InsufficientFunds, now), Done)
      else
        var txs2 := Transition(txs1, id, Approved, Funding, now);
        var (debited, outcome) := Post(accounts, from, id, DebitOf(amt, to), -amt);
        if outcome != Done then (accounts, txs2, outcome)
        else (debited, Transition(txs2, id, Funding, Debited, now), Done)
  }

  /**
   * `process_debit` on an approved transfer the payer can no longer cover:
   * `process_insufficient_funds` expects Begin, so the transfer stays at
   * Approved and nothing is written.
   */
  lemma DebitUnfundedStaysApproved(accounts: Accounts, txs: Txs, id: string, from: string, to: string, amt: int, now: int)
    requires id in txs && txs[id].state == Approved
    requires from in accounts && accounts[from].balance < amt
    ensures DebitStep(accounts, txs, id, from, to, amt, now) == (accounts, txs, Done)
  {
  }

  /** `process_credit` */
  function CreditStep(accounts: Accounts, txs: Txs, id: string, from: string, to: string, amt: int, now: int)
    : (Accounts, Txs, Outcome)
  {
    if id !in txs then (accounts, txs, NotFound)
    else if txs[id].state != Debited then (accounts, txs, Done)
    else if to !in accounts then (accounts, txs, NotFound)
    else
      var (credited, outcome) := Post(accounts, to, id, CreditOf(amt, from), amt);
      if outcome != Done then (accounts, txs, outcome)
      else (credited, Transition(txs, id, Debited, Credited, now), Done)
  }

  /** `process_debit_credit`: only a transaction at Begin moves. */
  function Run(accounts: Accounts, txs: Txs, id: string, now: int): (Accounts, Txs, Outcome)
  {
    if id !in txs then (accounts, txs, NotFound)
    else if txs[id].state != Begin then (accounts, txs, Done)
    else
      var t := txs[id];
      if t.from !in accounts then (accounts, txs, NotFound)
      else
        var (funded, txs1) := Funded(accounts, txs, id, t.from, t.amt, now);
        if funded then
          var (a2, txs2, o2) := DebitStep(accounts, txs1, id, t.from, t.to, t.amt, now);
          if o2 != Done then (a2, txs2, o2)
          else CreditStep(a2, txs2, id, t.from, t.to, t.amt, now)
        else (accounts, Transition(txs1, id, Begin, InsufficientFunds, now), Done)
  }

  /** A transaction that is not at Begin is left alone, and so are the accounts. */
  lemma RunOnlyFromBegin(accounts: Accounts, txs: Txs, id: string, now: int)
    requires id in txs && txs[id].state != Begin
    ensures Run(accounts, txs, id, now) == (accounts, txs, Done)
  {
  }

  /** An unfunded transfer ends at Insufficient Funds and moves no money. */
  lemma RunUnfunded(accounts: Accounts, txs: Txs, id: string, now: int)
    requires id in txs && txs[id].state == Begin
    requires txs[id].from in accounts && accounts[txs[id].from].balance < txs[id].amt
    ensures var (a, t, outcome) := Run(accounts, txs, id, now);
      a == accounts && outcome == Done && t[id].state == InsufficientFunds
  {
  }

  /**
   * A funded transfer between two accounts that have not seen the id
   * reaches Credited; the payer loses the amount and stays non-negative
   * if it was, the payee gains it, each side records the transfer, and
   * the sum of all balances is unchanged.
   */
  lemma RunCredited(accounts: Accounts, txs: Txs, id: string, now: int)
    requires id in txs && txs[id].state == Begin
    requires var t := txs[id];
      t.from in accounts && t.to in accounts && t.from != t.to
      && id !in accounts[t.from].txs && id !in accounts[t.to].txs
      && accounts[t.from].balance >= t.amt
    ensures var (a, t, outcome) := Run(accounts, txs, id, now);
      var tx := txs[id];
      && outcome == Done && t[id].state == Credited
      && a[tx.from].balance == accounts[tx.from].balance - tx.amt
      && (accounts[tx.from].balance >= 0 ==> a[tx.from].balance >= 0)
      && a[tx.to].balance == accounts[tx.to].balance + tx.amt
      && a[tx.from].txs == accounts[tx.from].txs[id := DebitOf(tx.amt, tx.to)]
      && a[tx.to].txs == accounts[tx.to].txs[id := CreditOf(tx.amt, tx.from)]
      && Total(a) == Total(accounts)
  {
    var tx := txs[id];
    var (a1, _) := Post(accounts, tx.from, id, DebitOf(tx.amt, tx.to), -tx.amt);
    TotalUpdate(accounts, tx.from, a1[tx.from]);
    TotalUpdate(a1, tx.to, Post(a1, tx.to, id, CreditOf(tx.amt, tx.from), tx.amt).0[tx.to]);
  }

  /**
   * A transfer from an account to itself is debited and then refused on
   * the credit side, because the debit has already put the id into the
   * account's `txs`: it stops at Debited with the amount gone from the sum
   * of balances.
   */
  lemma RunSelfTransferLosesAmount(accounts: Accounts, txs: Txs, id: string, now: int)
    requires id in txs && txs[id].state == Begin
    requires var t := txs[id];
      t.from == t.to && t.from in accounts && id !in accounts[t.from].txs && accounts[t.from].balance >= t.amt
    ensures var (a, t, outcome) := Run(accounts, txs, id, now);
      outcome == ElementExists && t[id].state == Debited && Total(a) == Total(accounts) - txs[id].amt
  {
    var tx := txs[id];
    TotalUpdate(accounts, tx.from, Post(accounts, tx.from, id, DebitOf(tx.amt, tx.to), -tx.amt).0[tx.from]);
  }

  // ---------------------------------------------------------------------
  // The store
  // ---------------------------------------------------------------------

  class Bank {
    var accounts: Accounts
    var txs: Txs

    constructor ()
      ensures accounts == map[] && txs == map[]
    {
      accounts, txs := map[], map[];
    }

    /** `create_account`: a put of the balance bin; an existing record keeps its `txs`. */
    method CreateAccount(user: string, openingBalance: int)
      modifies this
      ensures user in accounts && accounts[user].balance == openingBalance
      ensures accounts == old(accounts)[user := if user in old(accounts)
        then old(accounts)[user].(balance := openingBalance, gen := old(accounts)[user].gen + 1)
        else Account(openingBalance, map[], 1)]
      ensures txs == old(txs)
    {
      if user in accounts {
        accounts := accounts[user := accounts[user].(balance := openingBalance, gen := accounts[user].gen + 1)];
      } else {
        accounts := accounts[user := Account(openingBalance, map[], 1)];
      }
    }

    /** `simple_debit_credit` */
    method SimpleDebitCredit(from: string, to: string, amount: int) returns (outcome: Outcome)
      modifies this
      ensures (accounts, outcome) == SimpleTransfer(old(accounts), from, to, amount)
      ensures txs == old(txs)
    {
      if from !in accounts {
        return NotFound;
      }
      var meta := accounts[from].gen;
      outcome := Done;
      if accounts[from].balance >= amount {
        if accounts[from].gen != meta {
          return GenerationError;
        }
        accounts := Increment(accounts, from, -amount);
        accounts := Increment(accounts, to, amount);
      }
    }

    /** `transition_state` */
    method TransitionState(id: string, fromState: TxState, toState: TxState, now: int) returns (outcome: Outcome)
      modifies this
      ensures id !in old(txs) ==> outcome == NotFound && txs == old(txs)
      ensures id in old(txs) ==> outcome == Done && txs == Transition(old(txs), id, fromState, toState, now)
      ensures accounts == old(accounts)
    {
      if id !in txs {
        return NotFound;
      }
      var meta := txs[id].gen;
      outcome := Done;
      if txs[id].state == fromState {
        if txs[id].gen != meta {
          return GenerationError;
        }
        txs := txs[id := txs[id].(state := toState, ts := now, gen := txs[id].gen + 1)];
      }
    }

    /** `check_funding`: returns the payer's generation as read, and whether it can cover the amount. */
    method CheckFunding(id: string, from: string, amt: int, now: int) returns (meta: nat, funded: bool, outcome: Outcome)
      requires id in txs
      modifies this
      ensures from !in old(accounts) ==> outcome == NotFound && txs == old(txs)
      ensures from in old(accounts) ==>
        outcome == Done && from in accounts && meta == accounts[from].gen
        && (funded, txs) == Funded(old(accounts), old(txs), id, from, amt, now)
      ensures accounts == old(accounts)
    {
      if from !in accounts {
        return 0, false, NotFound;
      }
      meta := accounts[from].gen;
      funded := accounts[from].balance >= amt;
      if funded {
        outcome := TransitionState(id, Begin, Approved, now);
      }
      outcome := Done;
    }

    /** `process_insufficient_funds` */
    method ProcessInsufficientFunds(id: string, now: int) returns (outcome: Outcome)
      requires id in txs
      modifies this
      ensures outcome == Done && txs == Transition(old(txs), id, Begin, InsufficientFunds, now)
      ensures accounts == old(accounts)
    {
      outcome := TransitionState(id, Begin, InsufficientFunds, now);
    }

    /** `process_debit` */
    method ProcessDebit(id: string, from: string, to: string, amount: int, now: int) returns (outcome: Outcome)
      modifies this
      ensures (accounts, txs, outcome) == DebitStep(old(accounts), old(txs), id, from, to, amount, now)
    {
      if id !in txs {
        return NotFound;
      }
      if txs[id].state != Approved {
        return Done;
      }
      var meta, funded;
      meta, funded, outcome := CheckFunding(id, from, amount, now);
      if outcome != Done {
        return;
      }
      if !funded {
        outcome := ProcessInsufficientFunds(id, now);
        return;
      }
      outcome := TransitionState(id, Approved, Funding, now);
      if accounts[from].gen != meta {
        return GenerationError;
      }
      if id in accounts[from].txs {
        return ElementExists;
      }
      var account := accounts[from];
      accounts := accounts[from := Account(account.balance - amount, account.txs[id := DebitOf(amount, to)], account.gen + 1)];
      outcome := TransitionState(id, Funding, Debited, now);
    }

    /** `process_credit` */
    method ProcessCredit(id: string, from: string, to: string, amount: int, now: int) returns (outcome: Outcome)
      modifies this
      ensures (accounts, txs, outcome) == CreditStep(old(accounts), old(txs), id, from, to, amount, now)
    {
      if id !in txs {
        return NotFound;
      }
      if txs[id].state != Debited {
        return Done;
      }
      if to !in accounts {
        return NotFound;
      }
      var meta := accounts[to].gen;
      var account := accounts[to];
      if id in account.txs {
        return ElementExists;
      }
      if accounts[to].gen != meta {
        return GenerationError;
      }
      accounts := accounts[to := Account(account.balance + amount, account.txs[id := CreditOf(amount, from)], account.gen + 1)];
      outcome := TransitionState(id, Debited, Credited, now);
    }

    /** `process_debit_credit` */
    method ProcessDebitCredit(id: string, now: int) returns (outcome: Outcome)
      modifies this
      ensures (accounts, txs, outcome) == Run(old(accounts), old(txs), id, now)
    {
      if id !in txs {
        return NotFound;
      }
      var t := txs[id];
      if t.state != Begin {
        return Done;
      }
      var meta, funded;
      meta, funded, outcome := CheckFunding(id, t.from, t.amt, now);
      if outcome != Done {
        return;
      }
      if funded {
        outcome := ProcessDebit(id, t.from, t.to, t.amt, now);
        if outcome != Done {
          return;
        }
        outcome := ProcessCredit(id, t.from, t.to, t.amt, now);
      } else {
        outcome := ProcessInsufficientFunds(id, now);
      }
    }

    /** `start_debit_credit`: a put of a transaction at Begin under a generated id. */
    method StartDebitCredit(from: string, to: string, amount: int, choices: seq<nat>, now: int) returns (id: string)
      requires Choices(choices)
      modifies this
      ensures IsToken(id) && forall i :: 0 <= i < 6 ==> id[i] == AlphabetChar(choices[i])
      ensures txs == old(txs)[id := Tx(from, to, amount, Begin, now, if id in old(txs) then old(txs)[id].gen + 1 else 1)]
      ensures accounts == old(accounts)
    {
      id := GenerateToken(choices);
      var gen := if id in txs then txs[id].gen + 1 else 1;
      txs := txs[id := Tx(from, to, amount, Begin, now, gen)];
    }
  }

  /** The script's set-up: Mum pays Dad 100 of her 150, then Daughter and Son are opened. */
  method FamilyBank() returns (bank: Bank)
    ensures fresh(bank) && bank.txs == map[]
    ensures Balance(bank.accounts, "Mum") == 50 && Balance(bank.accounts, "Dad") == 100
    ensures "Son" in bank.accounts && bank.accounts["Son"] == Account(200, map[], 1)
    ensures "Daughter" in bank.accounts && bank.accounts["Daughter"] == Account(0, map[], 1)
  {
    bank := new Bank();
    bank.CreateAccount("Dad", 0);
    bank.CreateAccount("Mum", 150);
    var o := bank.SimpleDebitCredit("Mum", "Dad", 100);
    bank.CreateAccount("Daughter", 0);
    bank.CreateAccount("Son", 200);
  }

  /** Son's transfer of 10 to Daughter: credited. */
  method SonPaysDaughter(bank: Bank, choices: seq<nat>, now: int) returns (tx: string)
    requires Choices(choices) && bank.txs == map[]
    requires "Son" in bank.accounts && bank.accounts["Son"] == Account(200, map[], 1)
    requires "Daughter" in bank.accounts && bank.accounts["Daughter"] == Account(0, map[], 1)
    modifies bank
    ensures IsToken(tx) && forall i :: 0 <= i < 6 ==> tx[i] == AlphabetChar(choices[i])
    ensures bank.txs.Keys == {tx} && bank.txs[tx].state == Credited
    ensures Balance(bank.accounts, "Son") == 190 && Balance(bank.accounts, "Daughter") == 10
    ensures forall u :: u != "Son" && u != "Daughter" ==> Balance(bank.accounts, u) == Balance(old(bank.accounts), u)
  {
    tx := bank.StartDebitCredit("Son", "Daughter", 10, choices, now);
    var o := bank.ProcessDebitCredit(tx, now);
  }

  /**
   * The script's own run: Mum pays Dad 100 of her 150; Son's transfer of 10
   * to Daughter is credited; Daughter's transfer of 11 back is refused.
   */
  method DebitCreditDemo(choices1: seq<nat>, choices2: seq<nat>, now: int) returns (bank: Bank, tx1: string, tx2: string)
    requires Choices(choices1) && Choices(choices2) && choices1 != choices2
    ensures Balance(bank.accounts, "Mum") == 50 && Balance(bank.accounts, "Dad") == 100
    ensures Balance(bank.accounts, "Son") == 190 && Balance(bank.accounts, "Daughter") == 10
    ensures tx1 in bank.txs && bank.txs[tx1].state == Credited
    ensures tx2 in bank.txs && bank.txs[tx2].state == InsufficientFunds
  {
    bank := FamilyBank();
    tx1 := SonPaysDaughter(bank, choices1, now);
    assert Balance(bank.accounts, "Mum") == 50 && Balance(bank.accounts, "Dad") == 100;
    tx2 := bank.StartDebitCredit("Daughter", "Son", 11, choices2, now);
    ChoicesDistinct(choices1, choices2, tx1, tx2);
    var o := bank.ProcessDebitCredit(tx2, now);
  }
}
