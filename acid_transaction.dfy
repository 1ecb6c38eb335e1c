/** The account database with locked, logged transfers of
    acid_transaction.py.

    Balances are real numbers. The clock is a parameter: `nowMs` is the
    millisecond time the transaction id is made from and `now` the time
    recorded in the transaction record. Persisting to disk and printing are
    not modelled. */
module AcidTransaction {
  import opened Common

  datatype TxnStatus = Pending | Active | Committed | RolledBack

  /** A transaction record of `transactions`. */
  datatype Txn = Txn(id: string, fromAccount: string, toAccount: string, amount: real,
                     status: TxnStatus, startTime: int, endTime: Option<int>)

  /** A successful transfer's answer: the new balances of both accounts. */
  datatype Receipt = Receipt(transactionId: string, fromAccount: string, fromBalance: real,
                             toAccount: string, toBalance: real)

  /** `f"txn_{now_ms}"`. */
  function TxnId(nowMs: int): string
  {
    "txn_" + IntString(nowMs)
  }

  /** The balances after a transfer, or the error it raises, checked in the
      source's order: missing source, missing destination, insufficient
      balance, then the two locks. The amount itself is not checked. */
  function TransferStep(accounts: map<string, real>, locks: map<string, string>,
                        from: string, to: string, amount: real): (r: Result<map<string, real>>)
    ensures r.Ok? <==> from in accounts && to in accounts && accounts[from] >= amount
                       && from !in locks && to !in locks && from != to
  {
    if from !in accounts then Err("Account " + from + " not found")
    else if to !in accounts then Err("Account " + to + " not found")
    else if accounts[from] < amount then Err("Insufficient balance in " + from)
    else if from in locks then Err("Account " + from + " is locked by another transaction")
    else if to in locks || to == from then Err("Account " + to + " is locked by another transaction")
    else Ok(accounts[from := accounts[from] - amount][to := accounts[to] + amount])
  }

  /** The sum of all balances. */
  ghost function Total(m: map<string, real>): real
    decreases |m.Keys|
  {
    if m == map[] then 0.0
    else
      var k :| k in m;
      m[k] + Total(m - {k})
  }

  /** Any one account can be taken out of the sum first. */
  lemma {:induction false} TotalRemove(m: map<string, real>, k: string)
    requires k in m
    ensures Total(m) == m[k] + Total(m - {k})
    decreases |m.Keys|
  {
    var j :| j in m && Total(m) == m[j] + Total(m - {j});
    if j != k {
      assert |(m - {j}).Keys| < |m.Keys| by { assert (m - {j}).Keys < m.Keys; }
      assert |(m - {k}).Keys| < |m.Keys| by { assert (m - {k}).Keys < m.Keys; }
      TotalRemove(m - {j}, k);
      TotalRemove(m - {k}, j);
      assert m - {j} - {k} == m - {k} - {j};
    }
  }

  /** Setting one existing balance changes the sum by the difference. */
  lemma TotalUpdate(m: map<string, real>, k: string, v: real)
    requires k in m
    ensures Total(m[k := v]) == Total(m) - m[k] + v
  {
    TotalRemove(m, k);
    TotalRemove(m[k := v], k);
    assert m[k := v] - {k} == m - {k};
  }

  /** A successful transfer moves `amount` from the source to the
      destination: the total is preserved, no account appears or
      disappears, and every other account is untouched. */
  lemma TransferPreservesTotal(accounts: map<string, real>, locks: map<string, string>,
                               from: string, to: string, amount: real)
    requires TransferStep(accounts, locks, from, to, amount).Ok?
    ensures var after := TransferStep(accounts, locks, from, to, amount).value;
            && Total(after) == Total(accounts)
            && after.Keys == accounts.Keys
            && after[from] == accounts[from] - amount && after[to] == accounts[to] + amount
            && forall k :: k in accounts && k != from && k != to ==> after[k] == accounts[k]
  {
    var mid := accounts[from := accounts[from] - amount];
    TotalUpdate(accounts, from, accounts[from] - amount);
    TotalUpdate(mid, to, accounts[to] + amount);
  }

  /** A transfer from an account to itself always fails, at the second lock. */
  lemma SelfTransferFails(accounts: map<string, real>, locks: map<string, string>, a: string, amount: real)
    requires a in accounts && accounts[a] >= amount && a !in locks
    ensures TransferStep(accounts, locks, a, a, amount) == Err("Account " + a + " is locked by another transaction")
  {
  }

  /** Every balance is non-negative. */
  predicate NonNegative(accounts: map<string, real>)
  {
    forall k :: k in accounts ==> accounts[k] >= 0.0
  }

  /** As written, a negative amount passes the balance check and is
      "transferred" backwards, overdrawing the destination. */
  lemma NegativeAmountOverdraws()
    ensures var accounts := map["a" := 0.0, "b" := 100.0];
            && NonNegative(accounts)
            && TransferStep(accounts, map[], "a", "b", -1000.0).Ok?
            && TransferStep(accounts, map[], "a", "b", -1000.0).value["b"] == -900.0
  {
  }

  /** The transfer with the evidently intended guard: a non-positive amount
      is rejected before anything else happens. */
  function CheckedTransferStep(accounts: map<string, real>, locks: map<string, string>,
                               from: string, to: string, amount: real): (r: Result<map<string, real>>)
    ensures amount <= 0.0 ==> r == Err("Transfer amount must be positive")
    ensures amount > 0.0 ==> r == TransferStep(accounts, locks, from, to, amount)
  {
    if amount <= 0.0 then Err("Transfer amount must be positive")
    else TransferStep(accounts, locks, from, to, amount)
  }

  /** With the guard, transfers keep every balance non-negative. */
  lemma CheckedTransferKeepsNonNegative(accounts: map<string, real>, locks: map<string, string>,
                                        from: string, to: string, amount: real)
    requires NonNegative(accounts)
    requires CheckedTransferStep(accounts, locks, from, to, amount).Ok?
    ensures NonNegative(CheckedTransferStep(accounts, locks, from, to, amount).value)
  {
    TransferPreservesTotal(accounts, locks, from, to, amount);
  }

  /** `Database`. */
  class Database {
    var accounts: map<string, real>
    var transactions: seq<Txn>
    var locks: map<string, string>

    constructor()
      ensures accounts == map[] && transactions == [] && locks == map[]
    {
      accounts := map[];
      transactions := [];
      locks := map[];
    }

    /** `create_account`: a negative initial balance is rejected; otherwise
        the account is set, replacing any earlier one. */
    method CreateAccount(id: string, balance: real) returns (r: Result<(string, real)>)
      modifies this
      ensures balance < 0.0 ==> r == Err("Initial balance cannot be negative") && accounts == old(accounts)
      ensures balance >= 0.0 ==> r == Ok((id, balance)) && accounts == old(accounts)[id := balance]
      ensures transactions == old(transactions) && locks == old(locks)
    {
      if balance < 0.0 {
        return Err("Initial balance cannot be negative");
      }
      accounts := accounts[id := balance];
      r := Ok((id, balance));
    }

    /** `acquire_lock`: fails if the account is already locked. */
    method AcquireLock(account: string, txnId: string) returns (r: Result<()>)
      modifies this
      ensures account in old(locks) ==>
                r == Err("Account " + account + " is locked by another transaction") && locks == old(locks)
      ensures account !in old(locks) ==> r == Ok(()) && locks == old(locks)[account := txnId]
      ensures accounts == old(accounts) && transactions == old(transactions)
    {
      if account in locks {
        return Err("Account " + account + " is locked by another transaction");
      }
      locks := locks[account := txnId];
      r := Ok(());
    }

    /** `release_lock`: removes the lock, whoever holds it. */
    method ReleaseLock(account: string)
      modifies this
      ensures locks == old(locks) - {account}
      ensures accounts == old(accounts) && transactions == old(transactions)
    {
      if account in locks {
        locks := locks - {account};
      }
    }

    /** The body of `transfer`'s `try`: the checks, the two locks and the
        new balances, as `TransferStep` says. */
    method TryTransfer(from: string, to: string, amount: real, id: string) returns (outcome: Result<Receipt>)
      modifies this
      ensures var step := TransferStep(old(accounts), old(locks), from, to, amount);
              && (outcome.Ok? <==> step.Ok?)
              && (step.Err? ==> outcome == Err(step.message) && accounts == old(accounts))
              && (step.Ok? ==> accounts == step.value
                               && outcome.value == Receipt(id, from, accounts[from], to, accounts[to]))
      ensures locks - {from, to} == old(locks) - {from, to} && transactions == old(transactions)
    {
      if from !in accounts {
        return Err("Account " + from + " not found");
      }
      if to !in accounts {
        return Err("Account " + to + " not found");
      }
      if accounts[from] < amount {
        return Err("Insufficient balance in " + from);
      }
      var fromBalance, toBalance := accounts[from], accounts[to];
      var lock := AcquireLock(from, id);
      if lock.Err? {
        return Err(lock.message);
      }
      lock := AcquireLock(to, id);
      if lock.Err? {
        return Err(lock.message);
      }
      accounts := accounts[from := fromBalance - amount];
      accounts := accounts[to := toBalance + amount];
      outcome := Ok(Receipt(id, from, fromBalance - amount, to, toBalance + amount));
    }

    /** `transfer`: records one transaction, moves the money as
        `TransferStep` says or raises its error with every balance
        unchanged, and releases both locks whatever happened. */
    method Transfer(from: string, to: string, amount: real, nowMs: int, now: int) returns (r: Result<Receipt>)
      modifies this
      ensures var step := TransferStep(old(accounts), old(locks), from, to, amount);
              && (r.Ok? <==> step.Ok?)
              && (step.Err? ==> r == Err(step.message) && accounts == old(accounts))
              && (step.Ok? ==> accounts == step.value
                               && r.value == Receipt(TxnId(nowMs), from, accounts[from], to, accounts[to]))
      ensures |transactions| == |old(transactions)| + 1 && transactions[..|old(transactions)|] == old(transactions)
      ensures transactions[|old(transactions)|]
                == Txn(TxnId(nowMs), from, to, amount, if r.Ok? then Committed else RolledBack, now, Some(now))
      ensures locks == old(locks) - {from, to}
      ensures amount > 0.0 && NonNegative(old(accounts)) ==> NonNegative(accounts)
    {
      var id := TxnId(nowMs);
      var txn := Txn(id, from, to, amount, Pending, now, None);
      txn := txn.(status := Active);
      transactions := transactions + [txn];
      r := TryTransfer(from, to, amount, id);
      var status := if r.Ok? then Committed else RolledBack;
      transactions := transactions[|transactions| - 1 := txn.(status := status, endTime := Some(now))];
      ghost var held := locks;
      ReleaseLock(from);
      ReleaseLock(to);
      assert locks == held - {from, to};
      if r.Ok? && amount > 0.0 && NonNegative(old(accounts)) {
        TransferPreservesTotal(old(accounts), old(locks), from, to, amount);
      }
    }

    /** `get_balance`. */
    function GetBalance(account: string): (r: Option<real>)
      reads this
      ensures r.Some? <==> account in accounts
      ensures r.Some? ==> r.value == accounts[account]
    {
      if account in accounts then Some(accounts[account]) else None
    }
  }
}
