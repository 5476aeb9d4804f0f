/** The service: amount validation, the three operations, and reconciliation. */
module LedgerService {
  import opened Wrappers
  import opened Money
  import opened Ledger
  import opened LedgerInvariants
  import opened Retries
  import opened Store
  import opened Backoff
  import Conc = Concurrency
  import Refinement

  /** `amount` is what the decimal library makes of the request's text, if it makes anything of it. */
  function ValidatePositiveAmount(amount: Option<real>): Result<real> {
    if amount.Some? && amount.value > 0.0 then Ok(amount.value) else Fail(InvalidAmount)
  }

  /** Ten attempts, each going as it may. */
  ghost predicate GoodWorld(world: seq<AttemptEnv>) {
    |world| == MAX_ATTEMPTS && forall env :: env in world ==> env.Sound()
  }

  /** All or nothing: on success the operation is posted once, otherwise nothing or a lost commit's posting. */
  ghost predicate AllOrNothing(before: Tables, after: Tables, op: Op, world: seq<AttemptEnv>, err: Option<Err>) {
    if err.None? then exists env :: env in world && after == Posted(before, op, env.tx)
    else
      || after == before
      || exists env :: env in world && env.commit.Loses? && env.commit.applied && after == Posted(before, op, env.tx)
  }

  lemma ExecIsAllOrNothing(t: Tables, op: Op, world: seq<AttemptEnv>)
    requires GoodWorld(world)
    ensures AllOrNothing(t, Exec(t, op, world, 0).tables, op, world, Exec(t, op, world, 0).err)
  {
    var last := ExecEffects(t, op, world, 0);
    assert world[last] in world;
  }

  /** If nothing goes wrong the tables decide: the posting, or their own error. */
  ghost predicate TablesDecide(before: Tables, after: Tables, op: Op, world: seq<AttemptEnv>, err: Option<Err>)
    requires |world| > 0
  {
    Undisturbed(world[0]) && world[0].rollback.None? ==>
      err == Refusal(before, op) && after == (if err.None? then Posted(before, op, world[0].tx) else before)
  }

  lemma UndisturbedCallsAreDecided(t: Tables, op: Op, world: seq<AttemptEnv>)
    requires |world| > 0
    ensures var o := Exec(t, op, world, 0); TablesDecide(t, o.tables, op, world, o.err)
  {
    if Undisturbed(world[0]) && world[0].rollback.None? {
      if Refusal(t, op).None? {
        SerializationIsRetried(t, op, world, 0, 0);
      } else {
        RefusalIsReturned(t, op, world, 0);
      }
    }
  }

  /** A call whose ten attempts all meet 40001 has waited 5550 ms and done nothing. */
  lemma TenAttemptsGiveUp(t: Tables, op: Op, world: seq<AttemptEnv>)
    requires GoodWorld(world) && Refusal(t, op).None?
    requires forall env :: env in world ==> Serialization(env) && !env.cancelled
    ensures GivenUp(Exec(t, op, world, 0), t, 5550)
  {
    assert forall j :: 0 <= j < |world| ==> world[j] in world;
    SerializationExhausts(t, op, world, 0);
    TenAttemptsWait();
  }

  /** What ReconcileAccount reports when the first read sees `first` and the second sees `second`. */
  function Reconciled(first: Tables, second: Tables, id: AccountId,
                      fault1: Option<Err>, fault2: Option<Err>): Option<Err> {
    if fault1.Some? then Some(Wrapped(fault1.value))
    else if id !in first.accounts then Some(Wrapped(NoRows))
    else if fault2.Some? then Some(Wrapped(fault2.value))
    else if !InRange(Net(second.entries, id)) then Some(Wrapped(NUMERIC_OVERFLOW))
    else if first.accounts[id].balance != Net(second.entries, id) then Some(BalanceMismatch)
    else None
  }

  /** It reports a match exactly if both reads worked, the account is there, and the two figures agree. */
  lemma ReconciledExactly(first: Tables, second: Tables, id: AccountId, fault1: Option<Err>, fault2: Option<Err>)
    ensures Reconciled(first, second, id, fault1, fault2).None?
            <==> && fault1.None? && fault2.None? && id in first.accounts
                 && first.accounts[id].balance == Net(second.entries, id) && InRange(Net(second.entries, id))
    ensures fault1.None? && id !in first.accounts
            ==> Reconciled(first, second, id, fault1, fault2) == Some(Wrapped(NoRows))
    ensures fault1.Some? ==> Reconciled(first, second, id, fault1, fault2) == Some(Wrapped(fault1.value))
    ensures fault1.None? && id in first.accounts && fault2.Some?
            ==> Reconciled(first, second, id, fault1, fault2) == Some(Wrapped(fault2.value))
    ensures fault1.None? && id in first.accounts && fault2.None? && InRange(Net(second.entries, id))
            && first.accounts[id].balance != Net(second.entries, id)
            ==> Reconciled(first, second, id, fault1, fault2) == Some(BalanceMismatch)
    ensures fault1.None? && id in first.accounts && fault2.None? && !InRange(Net(second.entries, id))
            ==> Reconciled(first, second, id, fault1, fault2) == Some(Wrapped(Sql("22003")))
  {
  }

  class LedgerService {
    const store: Store

    constructor (store: Store)
      ensures this.store == store
    {
      this.store := store;
    }

    method Deposit(account: AccountId, amount: Option<real>, world: seq<AttemptEnv>) returns (err: Option<Err>)
      requires SettlementNamed(store.tables) && GoodWorld(world)
      modifies store
      ensures amount.None? || amount.value <= 0.0 ==> err == Some(InvalidAmount) && unchanged(store)
      ensures amount.Some? && amount.value > 0.0 ==>
        var op := Op.Deposit(account, amount.value);
        && err == Exec(old(store.tables), op, world, 0).err
        && store.Moved(Exec(old(store.tables), op, world, 0))
        && AllOrNothing(old(store.tables), store.tables, op, world, err)
        && TablesDecide(old(store.tables), store.tables, op, world, err)
    {
      var validated := ValidatePositiveAmount(amount);
      if validated.Fail? {
        return Some(validated.error);
      }
      var op := Op.Deposit(account, validated.value);
      ExecIsAllOrNothing(store.tables, op, world);
      UndisturbedCallsAreDecided(store.tables, op, world);
      err := store.ExecTx(op, world);
    }

    method Withdraw(account: AccountId, amount: Option<real>, world: seq<AttemptEnv>) returns (err: Option<Err>)
      requires SettlementNamed(store.tables) && GoodWorld(world)
      modifies store
      ensures amount.None? || amount.value <= 0.0 ==> err == Some(InvalidAmount) && unchanged(store)
      ensures amount.Some? && amount.value > 0.0 ==>
        var op := Op.Withdraw(account, amount.value);
        && err == Exec(old(store.tables), op, world, 0).err
        && store.Moved(Exec(old(store.tables), op, world, 0))
        && AllOrNothing(old(store.tables), store.tables, op, world, err)
        && TablesDecide(old(store.tables), store.tables, op, world, err)
    {
      var validated := ValidatePositiveAmount(amount);
      if validated.Fail? {
        return Some(validated.error);
      }
      var op := Op.Withdraw(account, validated.value);
      ExecIsAllOrNothing(store.tables, op, world);
      UndisturbedCallsAreDecided(store.tables, op, world);
      err := store.ExecTx(op, world);
    }

    method Transfer(from: AccountId, to: AccountId, amount: Option<real>, world: seq<AttemptEnv>)
      returns (err: Option<Err>)
      requires SettlementNamed(store.tables) && GoodWorld(world)
      modifies store
      ensures amount.None? || amount.value <= 0.0 ==> err == Some(InvalidAmount) && unchanged(store)
      ensures amount.Some? && amount.value > 0.0 && from == to
              ==> err == Some(SameAccountTransfer) && unchanged(store)
      ensures amount.Some? && amount.value > 0.0 && from != to ==>
        var op := Op.Transfer(from, to, amount.value);
        && err == Exec(old(store.tables), op, world, 0).err
        && store.Moved(Exec(old(store.tables), op, world, 0))
        && AllOrNothing(old(store.tables), store.tables, op, world, err)
        && TablesDecide(old(store.tables), store.tables, op, world, err)
    {
      var validated := ValidatePositiveAmount(amount);
      if validated.Fail? {
        return Some(validated.error);
      }
      if from == to {
        return Some(SameAccountTransfer);
      }
      var op := Op.Transfer(from, to, validated.value);
      ExecIsAllOrNothing(store.tables, op, world);
      UndisturbedCallsAreDecided(store.tables, op, world);
      err := store.ExecTx(op, world);
    }

    /** The two reads are separate statements: `later` is what the tables have become by the second. */
    method ReconcileAccount(id: AccountId, later: Tables, fault1: Option<Err>, fault2: Option<Err>)
      returns (ok: bool, err: Option<Err>)
      ensures err == Reconciled(store.tables, later, id, fault1, fault2)
      ensures ok <==> err.None?
      ensures ok ==> fault1.None? && fault2.None? && id in store.tables.accounts
      ensures ok ==> store.tables.accounts[id].balance == Net(later.entries, id)
    {
      if fault1.Some? {
        return false, Some(Wrapped(fault1.value));
      }
      if id !in store.tables.accounts {
        return false, Some(Wrapped(NoRows));
      }
      var stored := store.tables.accounts[id].balance;
      if fault2.Some? {
        return false, Some(Wrapped(fault2.value));
      }
      var calculated := Net(later.entries, id);
      if !InRange(calculated) {
        return false, Some(Wrapped(NUMERIC_OVERFLOW));
      }
      if stored != calculated {
        return false, Some(BalanceMismatch);
      }
      return true, None;
    }
  }

  /**
   Reconciliation while others go on: after the steps `a` the balance is read, after further steps
   `b` the journal is summed. The difference is the net of what was committed for the account in
   between, a match is reported exactly when that net is zero, and the sum's cast never overflows.
   */
  lemma ReconciliationUnderInterleaving(limit: nat, a: seq<Conc.Label>, b: seq<Conc.Label>, id: AccountId)
    requires Conc.Run(limit, a + b).Some?
    ensures Conc.Run(limit, a).Some?
    ensures var first, second := Conc.Run(limit, a).value.tables, Conc.Run(limit, a + b).value.tables;
            && first.entries <= second.entries
            && (id in first.accounts ==>
                  var between := Net(second.entries[|first.entries|..], id);
                  && Net(second.entries, id) - first.accounts[id].balance == between
                  && Reconciled(first, second, id, None, None)
                     == (if between == 0 then None else Some(BalanceMismatch)))
  {
    Refinement.JournalOnlyGrows(limit, a, b);
    Refinement.ConcurrentRefinesSerial(limit, a);
    Refinement.ConcurrentRefinesSerial(limit, a + b);
    var first, second := Conc.Run(limit, a).value.tables, Conc.Run(limit, a + b).value.tables;
    var n := |first.entries|;
    assert second.entries == first.entries + second.entries[n..];
    NetAppend(first.entries, second.entries[n..], id);
    JournalSumInRange(second, id);
  }

  /** With no commit in between it always matches. */
  lemma QuietReconciliationMatches(limit: nat, a: seq<Conc.Label>, b: seq<Conc.Label>, id: AccountId)
    requires Conc.Run(limit, a + b).Some? && Conc.Run(limit, a).Some?
    requires Conc.Run(limit, a).value.tables.entries == Conc.Run(limit, a + b).value.tables.entries
    requires id in Conc.Run(limit, a).value.tables.accounts
    ensures Reconciled(Conc.Run(limit, a).value.tables, Conc.Run(limit, a + b).value.tables, id, None, None) == None
  {
    ReconciliationUnderInterleaving(limit, a, b, id);
  }
}
