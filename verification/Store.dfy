/**
 The database as one client drives it: queries inside a transaction, one attempt, and the retry
 loop. Everything that can go wrong comes from outside as an `AttemptEnv`.
 */
module Store {
  import opened Wrappers
  import opened Money
  import opened Ledger
  import opened Backoff

  /** The single settlement row, if present, is the one the settlement query finds. */
  ghost predicate SettlementNamed(t: Tables) {
    forall id :: id in t.accounts ==> (IsSettlementRow(t.accounts[id]) <==> id == SETTLEMENT)
  }

  function FaultAt(faults: seq<Option<Err>>, k: nat): Option<Err> {
    if k < |faults| then faults[k] else None
  }

  /** Deposits and withdrawals wrap whatever goes wrong with their two lock queries. */
  function QueryError(op: Op, k: nat, e: Err): Err {
    if k < 2 && !op.Transfer? then Wrapped(e) else e
  }

  /** The first thing to go wrong from query `k` on: an injected fault, or the tables' own refusal. */
  function Verdict(t: Tables, op: Op, faults: seq<Option<Err>>, k: nat): Option<Err>
    requires k <= QUERIES
    decreases QUERIES - k
  {
    if k == QUERIES then None
    else if FaultAt(faults, k).Some? then Some(QueryError(op, k, FaultAt(faults, k).value))
    else if StageError(t, op, k).Some? then StageError(t, op, k)
    else Verdict(t, op, faults, k + 1)
  }

  /** A body that gets through has met neither a fault nor a refusal. */
  lemma {:induction false} VerdictNone(t: Tables, op: Op, faults: seq<Option<Err>>, k: nat)
    requires k <= QUERIES
    ensures Verdict(t, op, faults, k).None?
            <==> RefusalFrom(t, op, k).None? && forall j :: k <= j < QUERIES ==> FaultAt(faults, j).None?
    decreases QUERIES - k
  {
    if k < QUERIES {
      VerdictNone(t, op, faults, k + 1);
    }
  }

  /** sqlc.Queries bound to one transaction: it works on its own view of the tables. */
  class Queries {
    const faults: seq<Option<Err>>
    var view: Tables
    var made: nat

    constructor (tables: Tables, faults: seq<Option<Err>>)
      ensures view == tables && made == 0 && this.faults == faults
    {
      this.view := tables;
      this.faults := faults;
      this.made := 0;
    }

    method GetAccountForUpdate(id: AccountId) returns (r: Result<Account>)
      modifies this`made
      ensures made == old(made) + 1
      ensures r == (match FaultAt(faults, old(made))
                    case Some(e) => Fail(e)
                    case None => if id in view.accounts then Ok(view.accounts[id]) else Fail(NoRows))
    {
      var fault := FaultAt(faults, made);
      made := made + 1;
      if fault.Some? {
        return Fail(fault.value);
      }
      if id !in view.accounts {
        return Fail(NoRows);
      }
      r := Ok(view.accounts[id]);
    }

    method GetSettlementAccountForUpdate() returns (r: Result<(AccountId, Account)>)
      requires SettlementNamed(view)
      modifies this`made
      ensures made == old(made) + 1
      ensures r == (match FaultAt(faults, old(made))
                    case Some(e) => Fail(e)
                    case None =>
                      if SETTLEMENT in view.accounts then Ok((SETTLEMENT, view.accounts[SETTLEMENT])) else Fail(NoRows))
      ensures r.Ok? ==> r.value.1.isSystem && r.value.1.name == "Settlement Account"
    {
      var fault := FaultAt(faults, made);
      made := made + 1;
      if fault.Some? {
        return Fail(fault.value);
      }
      if id :| id in view.accounts && IsSettlementRow(view.accounts[id]) {
        return Ok((id, view.accounts[id]));
      }
      r := Fail(NoRows);
    }

    method CreateEntry(e: Entry) returns (err: Option<Err>)
      modifies this
      ensures made == old(made) + 1
      ensures err == (if FaultAt(faults, old(made)).Some? then FaultAt(faults, old(made))
                      else InsertError(old(view), e))
      ensures view == (if err.None? then old(view).(entries := old(view).entries + [e]) else old(view))
    {
      err := FaultAt(faults, made);
      made := made + 1;
      if err.Some? {
        return;
      }
      err := InsertError(view, e);
      if err.None? {
        view := view.(entries := view.entries + [e]);
      }
    }

    method UpdateAccountBalance(id: AccountId, change: int) returns (err: Option<Err>)
      modifies this
      ensures made == old(made) + 1
      ensures err == (if FaultAt(faults, old(made)).Some? then FaultAt(faults, old(made))
                      else if id in old(view).accounts && !InRange(old(view).accounts[id].balance + change)
                      then Some(NUMERIC_OVERFLOW) else None)
      ensures view == (if err.None? then old(view).(accounts := Adjusted(old(view).accounts, id, change))
                       else old(view))
    {
      err := FaultAt(faults, made);
      made := made + 1;
      if err.Some? {
        return;
      }
      if id in view.accounts && !InRange(view.accounts[id].balance + change) {
        return Some(NUMERIC_OVERFLOW);
      }
      view := view.(accounts := Adjusted(view.accounts, id, change));
    }
  }

  /** The body of LedgerService.Deposit. */
  method DepositBody(q: Queries, account: AccountId, amount: real, tx: TxId) returns (err: Option<Err>)
    requires q.made == 0 && SettlementNamed(q.view) && amount > 0.0
    modifies q
    ensures err == Verdict(old(q.view), Deposit(account, amount), q.faults, 0)
    ensures err.None? ==> q.view == Posted(old(q.view), Deposit(account, amount), tx)
  {
    ghost var t, op := q.view, Deposit(account, amount);
    var settlement := q.GetSettlementAccountForUpdate();
    if settlement.Fail? {
      return Some(Wrapped(settlement.error));
    }
    var row := q.GetAccountForUpdate(account);
    if row.Fail? {
      return Some(Wrapped(row.error));
    }
    if row.value.currency != settlement.value.1.currency {
      return Some(CurrencyMismatch);
    }
    err := q.CreateEntry(Entry(account, 0, RoundUnits(amount), tx, DepositType));
    if err.Some? {
      return;
    }
    err := q.CreateEntry(Entry(settlement.value.0, RoundUnits(amount), 0, tx, DepositType));
    if err.Some? {
      return;
    }
    err := q.UpdateAccountBalance(account, RoundUnits(amount));
    if err.Some? {
      return;
    }
    err := q.UpdateAccountBalance(settlement.value.0, RoundUnits(-amount));
    if err.None? {
      WritesMakePosting(t, op, tx);
    }
  }

  /** The body of LedgerService.Withdraw. */
  method WithdrawBody(q: Queries, account: AccountId, amount: real, tx: TxId) returns (err: Option<Err>)
    requires q.made == 0 && SettlementNamed(q.view) && amount > 0.0
    modifies q
    ensures err == Verdict(old(q.view), Withdraw(account, amount), q.faults, 0)
    ensures err.None? ==> q.view == Posted(old(q.view), Withdraw(account, amount), tx)
  {
    ghost var t, op := q.view, Withdraw(account, amount);
    var settlement := q.GetSettlementAccountForUpdate();
    if settlement.Fail? {
      return Some(Wrapped(settlement.error));
    }
    var row := q.GetAccountForUpdate(account);
    if row.Fail? {
      return Some(Wrapped(row.error));
    }
    if row.value.currency != settlement.value.1.currency {
      return Some(CurrencyMismatch);
    }
    if Value(row.value.balance) < amount {
      return Some(InsufficientFunds);
    }
    err := q.CreateEntry(Entry(account, RoundUnits(amount), 0, tx, WithdrawalType));
    if err.Some? {
      return;
    }
    err := q.CreateEntry(Entry(settlement.value.0, 0, RoundUnits(amount), tx, WithdrawalType));
    if err.Some? {
      return;
    }
    err := q.UpdateAccountBalance(account, RoundUnits(-amount));
    if err.Some? {
      return;
    }
    err := q.UpdateAccountBalance(settlement.value.0, RoundUnits(amount));
    if err.None? {
      WritesMakePosting(t, op, tx);
    }
  }

  /** The body of LedgerService.Transfer. */
  method TransferBody(q: Queries, from: AccountId, to: AccountId, amount: real, tx: TxId) returns (err: Option<Err>)
    requires q.made == 0 && amount > 0.0 && from != to
    modifies q
    ensures err == Verdict(old(q.view), Transfer(from, to, amount), q.faults, 0)
    ensures err.None? ==> q.view == Posted(old(q.view), Transfer(from, to, amount), tx)
  {
    ghost var t, op := q.view, Transfer(from, to, amount);
    var fromRow := q.GetAccountForUpdate(from);
    if fromRow.Fail? {
      return Some(fromRow.error);
    }
    var toRow := q.GetAccountForUpdate(to);
    if toRow.Fail? {
      return Some(toRow.error);
    }
    if fromRow.value.currency != toRow.value.currency {
      return Some(CurrencyMismatch);
    }
    if Value(fromRow.value.balance) < amount {
      return Some(InsufficientFunds);
    }
    err := q.CreateEntry(Entry(from, RoundUnits(amount), 0, tx, TransferType));
    if err.Some? {
      return;
    }
    err := q.CreateEntry(Entry(to, 0, RoundUnits(amount), tx, TransferType));
    if err.Some? {
      return;
    }
    err := q.UpdateAccountBalance(from, RoundUnits(-amount));
    if err.Some? {
      return;
    }
    err := q.UpdateAccountBalance(to, RoundUnits(amount));
    if err.None? {
      WritesMakePosting(t, op, tx);
    }
  }

  /** The function handed to ExecTx. */
  method RunBody(q: Queries, op: Op, tx: TxId) returns (err: Option<Err>)
    requires q.made == 0 && SettlementNamed(q.view) && op.Valid()
    modifies q
    ensures err == Verdict(old(q.view), op, q.faults, 0)
    ensures err.None? ==> q.view == Posted(old(q.view), op, tx)
  {
    match op
    case Deposit(account, amount) => err := DepositBody(q, account, amount, tx);
    case Withdraw(account, amount) => err := WithdrawBody(q, account, amount, tx);
    case Transfer(from, to, amount) => err := TransferBody(q, from, to, amount, tx);
  }

  // ---- Attempts and retries ----

  /** The bound ExecTx uses; the results below hold for every positive one. */
  const MAX_ATTEMPTS: nat := 10

  datatype CommitFate =
    | Applies
    | Refuses(error: Err)                  // surely not applied
    | Loses(error: Err, applied: bool)     // the client cannot tell

  /** One attempt as the world makes it go, and whether the context ends in the wait after it. */
  datatype AttemptEnv = AttemptEnv(begin: Option<Err>, faults: seq<Option<Err>>, tx: TxId,
                                   rollback: Option<Err>, commit: CommitFate, cancelled: bool)
  {
    /** PostgreSQL reports 40001 only for a transaction it has rolled back. */
    predicate Sound() {
      commit.Loses? ==> !IsSerializationError(commit.error)
    }
  }

  datatype Outcome = Outcome(err: Option<Err>, tables: Tables, runs: nat, commits: nat, slept: nat)

  /** execTxOnce. */
  function Attempt(t: Tables, op: Op, env: AttemptEnv): Outcome {
    if env.begin.Some? then Outcome(env.begin, t, 0, 0, 0)
    else AfterBody(t, op, env, Verdict(t, op, env.faults, 0))
  }

  /** Its end, after a body with this verdict: rollback or commit. */
  function AfterBody(t: Tables, op: Op, env: AttemptEnv, verdict: Option<Err>): Outcome {
    match verdict
    case Some(e) => Outcome(Some(if env.rollback.Some? then Wrapped(e) else e), t, 1, 0, 0)
    case None =>
      match env.commit
      case Applies => Outcome(None, Posted(t, op, env.tx), 1, 1, 0)
      case Refuses(e) => Outcome(Some(Wrapped(e)), t, 1, 0, 0)
      case Loses(e, applied) =>
        Outcome(Some(Wrapped(e)), if applied then Posted(t, op, env.tx) else t, 1, if applied then 1 else 0, 0)
  }

  /** ExecTx from attempt `i` on; there are as many attempts as the world provides for. */
  function Exec(t: Tables, op: Op, world: seq<AttemptEnv>, i: nat): Outcome
    requires i < |world|
    decreases |world| - i
  {
    var a := Attempt(t, op, world[i]);
    if a.err.None? || !IsSerializationError(a.err.value) then a
    else if i + 1 == |world| then a.(err := Some(Wrapped(a.err.value)))
    else if world[i].cancelled then a.(err := Some(Cancelled))
    else
      var rest := Exec(a.tables, op, world, i + 1);
      Outcome(rest.err, rest.tables, a.runs + rest.runs, a.commits + rest.commits,
              WaitMillis(i) * 1_000_000 + rest.slept)
  }

  class Store {
    var tables: Tables
    var runs: nat           // bodies run so far
    var commits: nat        // commits that reached the tables
    var slept: nat          // nanoseconds spent in sleepWithContext

    constructor (tables: Tables)
      ensures this.tables == tables && runs == 0 && commits == 0 && slept == 0
    {
      this.tables := tables;
      runs, commits, slept := 0, 0, 0;
    }

    /** The fields moved from `before` by what `o` says. */
    twostate predicate Moved(o: Outcome)
      reads this
    {
      && tables == o.tables
      && runs == old(runs) + o.runs
      && commits == old(commits) + o.commits
      && slept == old(slept) + o.slept
    }

    /** What is left of the call from attempt `i` on, added to what was done, is the whole call. */
    twostate predicate Behind(t: Tables, op: Op, world: seq<AttemptEnv>, i: nat)
      requires i < |world|
      reads this
    {
      var all, rest := Exec(t, op, world, 0), Exec(t, op, world, i);
      && all.err == rest.err && all.tables == rest.tables
      && runs + rest.runs == old(runs) + all.runs
      && commits + rest.commits == old(commits) + all.commits
      && slept + rest.slept == old(slept) + all.slept
    }

    method ExecTxOnce(op: Op, env: AttemptEnv) returns (err: Option<Err>)
      requires op.Valid() && SettlementNamed(tables)
      modifies this
      ensures err == Attempt(old(tables), op, env).err
      ensures Moved(Attempt(old(tables), op, env))
    {
      if env.begin.Some? {
        return env.begin;
      }
      var q := new Queries(tables, env.faults);
      runs := runs + 1;
      err := RunBody(q, op, env.tx);
      if err.Some? {
        if env.rollback.Some? {
          err := Some(Wrapped(err.value));
        }
        return;
      }
      match env.commit
      case Applies =>
        tables, commits := q.view, commits + 1;
      case Refuses(e) =>
        err := Some(Wrapped(e));
      case Loses(e, applied) =>
        err := Some(Wrapped(e));
        if applied {
          tables, commits := q.view, commits + 1;
        }
    }

    method ExecTx(op: Op, world: seq<AttemptEnv>) returns (err: Option<Err>)
      requires op.Valid() && SettlementNamed(tables) && |world| > 0
      requires forall env :: env in world ==> env.Sound()
      modifies this
      ensures err == Exec(old(tables), op, world, 0).err
      ensures Moved(Exec(old(tables), op, world, 0))
    {
      err := None;
      var attempt := 0;
      while attempt < |world|
        invariant attempt <= |world| && tables == old(tables)
        invariant attempt < |world| ==> Behind(old(tables), op, world, attempt)
        invariant attempt == |world| ==> err.Some?
        invariant attempt == |world| ==> Exec(old(tables), op, world, 0).err == Some(Wrapped(err.value))
        invariant attempt == |world| ==> Moved(Exec(old(tables), op, world, 0))
      {
        assert world[attempt] in world;
        err := ExecTxOnce(op, world[attempt]);
        if err.None? || !IsSerializationError(err.value) {
          return;
        }
        if attempt < |world| - 1 {
          if world[attempt].cancelled {
            return Some(Cancelled);
          }
          var wait := RetryWait(attempt);
          slept := slept + wait as nat;
        }
        attempt := attempt + 1;
      }
      err := Some(Wrapped(err.value));
    }
  }

  /** A retried attempt has not touched the tables: only 40001 is retried, and it is never a lost commit. */
  lemma RetriedAttemptIsClean(t: Tables, op: Op, env: AttemptEnv)
    requires env.Sound()
    requires var a := Attempt(t, op, env); a.err.Some? && IsSerializationError(a.err.value)
    ensures Attempt(t, op, env).commits == 0 && Attempt(t, op, env).tables == t
  {
  }

  /** The effect of one attempt, for every way it can go. */
  lemma AttemptEffect(t: Tables, op: Op, env: AttemptEnv)
    ensures var a := Attempt(t, op, env);
            && a.runs <= 1 && a.commits <= a.runs
            && (a.err.None? ==> a.commits == 1)
            && (a.commits == 0 ==> a.tables == t)
            && (a.commits == 1 ==> Refusal(t, op).None? && a.tables == Posted(t, op, env.tx))
            && (a.commits == 1 && a.err.Some? ==> env.commit.Loses? && env.commit.applied)
  {
    VerdictNone(t, op, env.faults, 0);
  }

  /** An attempt that is followed by another: 40001, and no effect. */
  predicate GivesWay(t: Tables, op: Op, env: AttemptEnv) {
    var a := Attempt(t, op, env);
    a.err.Some? && IsSerializationError(a.err.value) && a.commits == 0 && a.tables == t
  }

  /** The effect of a call, or of what is left of it, that ended with the attempt `env`. */
  ghost predicate EffectOf(r: Outcome, t: Tables, op: Op, env: AttemptEnv) {
    && r.commits <= 1
    && (r.err.None? ==> r.commits == 1)
    && (r.commits == 0 ==> r.tables == t)
    && (r.commits == 1 ==> Refusal(t, op).None? && r.tables == Posted(t, op, env.tx))
    && (r.commits == 1 && r.err.Some? ==> env.commit.Loses? && env.commit.applied)
  }

  /** The last attempt has the effect of the call. */
  lemma LastAttemptDecides(t: Tables, op: Op, world: seq<AttemptEnv>, i: nat)
    requires i < |world| && world[i].Sound()
    requires !GivesWay(t, op, world[i]) || i + 1 == |world| || world[i].cancelled
    ensures var r := Exec(t, op, world, i);
            EffectOf(r, t, op, world[i]) && r.runs <= 1 && r.slept == 0
  {
    AttemptEffect(t, op, world[i]);
  }

  /** A retried one only costs its run and its wait. */
  lemma RetryGoesOn(t: Tables, op: Op, world: seq<AttemptEnv>, i: nat)
    requires i + 1 < |world| && GivesWay(t, op, world[i]) && !world[i].cancelled
    ensures var r, rest := Exec(t, op, world, i), Exec(t, op, world, i + 1);
            && r.err == rest.err && r.tables == rest.tables && r.commits == rest.commits
            && r.runs <= rest.runs + 1 && r.slept == WaitMillis(i) * 1_000_000 + rest.slept
  {
    AttemptEffect(t, op, world[i]);
  }

  /**
   For every failure pattern and every number of attempts: the body runs at most once per attempt;
   nil means exactly one commit; an error means none, or one whose outcome was lost; and the tables
   are the old ones, or the old ones with the operation posted once.
   */
  lemma {:induction false} ExecEffects(t: Tables, op: Op, world: seq<AttemptEnv>, i: nat) returns (last: nat)
    requires i < |world| && forall env :: env in world ==> env.Sound()
    ensures i <= last < |world|
    ensures var r := Exec(t, op, world, i);
            && EffectOf(r, t, op, world[last]) && r.runs <= last - i + 1
            && r.slept == (TotalMillis(last) - TotalMillis(i)) * 1_000_000
    ensures forall k :: i <= k < last ==> GivesWay(t, op, world[k])
    decreases |world| - i
  {
    assert world[i] in world;
    if GivesWay(t, op, world[i]) && i + 1 < |world| && !world[i].cancelled {
      RetryGoesOn(t, op, world, i);
      last := ExecEffects(t, op, world, i + 1);
    } else {
      LastAttemptDecides(t, op, world, i);
      last := i;
    }
  }
}
