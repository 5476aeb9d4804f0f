/**
 The tables and the three money operations, as atomic transitions: when an operation is refused,
 and what the tables hold after one that is not.
 */
module Ledger {
  import opened Wrappers
  import opened Money

  type AccountId = nat
  type TxId = nat

  /** The id the seeding migration happened to generate for the settlement row. */
  const SETTLEMENT: AccountId := 0

  datatype OperationType = DepositType | WithdrawalType | TransferType

  datatype Account = Account(name: string, balance: int, currency: string, isSystem: bool)

  datatype Entry = Entry(account: AccountId, debit: int, credit: int, tx: TxId, kind: OperationType)

  datatype Tables = Tables(accounts: map<AccountId, Account>, entries: seq<Entry>)

  /** A request that has passed amount validation. */
  datatype Op =
    | Deposit(account: AccountId, amount: real)
    | Withdraw(account: AccountId, amount: real)
    | Transfer(from: AccountId, to: AccountId, amount: real)
  {
    predicate Valid() {
      amount > 0.0 && (Transfer? ==> from != to)
    }

    /** The row locked first, and the row locked second. */
    function First(): AccountId {
      if Transfer? then from else SETTLEMENT
    }

    function Second(): AccountId {
      if Transfer? then to else account
    }

    function Debited(): AccountId {
      match this
      case Deposit(_, _) => SETTLEMENT
      case Withdraw(account, _) => account
      case Transfer(from, _, _) => from
    }

    function Credited(): AccountId {
      match this
      case Deposit(account, _) => account
      case Withdraw(_, _) => SETTLEMENT
      case Transfer(_, to, _) => to
    }

    function Kind(): OperationType {
      match this
      case Deposit(_, _) => DepositType
      case Withdraw(_, _) => WithdrawalType
      case Transfer(_, _, _) => TransferType
    }

    function Units(): int {
      RoundUnits(amount)
    }

    /** A deposit writes its credit leg first, the other two their debit leg. */
    function LegAccount(second: bool): AccountId {
      if Deposit? != second then Credited() else Debited()
    }

    function Leg(second: bool, tx: TxId): Entry {
      if Deposit? != second
      then Entry(Credited(), 0, RoundUnits(amount), tx, Kind())
      else Entry(Debited(), RoundUnits(amount), 0, tx, Kind())
    }

    /** The amount given to the balance update of a leg: the debit leg's is negated, then rounded. */
    function Change(second: bool): int {
      if Deposit? != second then RoundUnits(amount) else RoundUnits(-amount)
    }
  }

  /** The predicate of the settlement queries. */
  predicate IsSettlementRow(a: Account) {
    a.isSystem && a.name == "Settlement Account"
  }

  /** The tables as the migrations leave them. */
  const SEEDED: Tables :=
    Tables(map[SETTLEMENT := Account("Settlement Account", 0, "USD", true)], [])

  function BalanceOf(t: Tables, id: AccountId): int {
    if id in t.accounts then t.accounts[id].balance else 0
  }

  /** What the column types, the foreign key and the CHECK constraints say to a new entry. */
  function InsertError(t: Tables, e: Entry): Option<Err> {
    if !InRange(e.debit) || !InRange(e.credit) then Some(NUMERIC_OVERFLOW)
    else if e.debit < 0 || e.credit < 0 then Some(CHECK_VIOLATION)
    else if !((e.debit > 0 && e.credit == 0) || (e.debit == 0 && e.credit > 0)) then Some(CHECK_VIOLATION)
    else if e.account !in t.accounts then Some(FOREIGN_KEY_VIOLATION)
    else None
  }

  /** Deposits and withdrawals wrap a missing row; transfers return it as it is. */
  function MissingRow(op: Op): Err {
    if op.Transfer? then NoRows else Wrapped(NoRows)
  }

  /** Queries in one transaction body: two locks, two inserts, two updates. */
  const QUERIES: nat := 6

  /** Why query `k`, or the checks that follow it, refuses the operation on these tables. */
  function StageError(t: Tables, op: Op, k: nat): Option<Err>
    requires k < QUERIES
  {
    if k == 0 then
      if op.First() !in t.accounts then Some(MissingRow(op)) else None
    else if k == 1 then
      if op.Second() !in t.accounts then Some(MissingRow(op))
      else if op.First() in t.accounts then CheckError(op, t.accounts[op.First()], t.accounts[op.Second()])
      else None
    else if k == 2 then InsertError(t, op.Leg(false, 0))
    else if k == 3 then InsertError(t, op.Leg(true, 0))
    else if k == 4 then
      if InRange(BalanceOf(t, op.LegAccount(false)) + op.Change(false)) then None else Some(NUMERIC_OVERFLOW)
    else
      var before := BalanceOf(t, op.LegAccount(true))
                    + (if op.LegAccount(false) == op.LegAccount(true) then op.Change(false) else 0);
      if InRange(before + op.Change(true)) then None else Some(NUMERIC_OVERFLOW)
  }

  /** Currency, then funds of the debited row; a deposit has no funds check. */
  function CheckError(op: Op, first: Account, second: Account): Option<Err> {
    if first.currency != second.currency then Some(CurrencyMismatch)
    else if op.Withdraw? && Value(second.balance) < op.amount then Some(InsufficientFunds)
    else if op.Transfer? && Value(first.balance) < op.amount then Some(InsufficientFunds)
    else None
  }

  /** The first refusal from query `k` on. */
  function RefusalFrom(t: Tables, op: Op, k: nat): Option<Err>
    requires k <= QUERIES
    decreases QUERIES - k
  {
    if k == QUERIES then None
    else if StageError(t, op, k).Some? then StageError(t, op, k)
    else RefusalFrom(t, op, k + 1)
  }

  function Refusal(t: Tables, op: Op): Option<Err> {
    RefusalFrom(t, op, 0)
  }

  /** Net effect of the operation on one account; zero when both legs land on it. */
  function Delta(op: Op, id: AccountId): int {
    (if id == op.Credited() then op.Units() else 0) - (if id == op.Debited() then op.Units() else 0)
  }

  /** The tables after the operation: two more entries, two balances moved, all else as it was. */
  function Posted(t: Tables, op: Op, tx: TxId): Tables {
    Tables(map id | id in t.accounts :: t.accounts[id].(balance := t.accounts[id].balance + Delta(op, id)),
           t.entries + [op.Leg(false, tx), op.Leg(true, tx)])
  }

  /** One operation as a single step. */
  function Atomic(t: Tables, op: Op, tx: TxId): Result<Tables> {
    match Refusal(t, op)
    case Some(e) => Fail(e)
    case None => Ok(Posted(t, op, tx))
  }

  /** A new account starts at zero and is never a system row. */
  function Opened(t: Tables, id: AccountId, name: string, currency: string): Tables {
    t.(accounts := t.accounts[id := Account(name, 0, currency, false)])
  }

  /** UPDATE accounts SET balance = balance + change WHERE id = id; no row, no effect. */
  function Adjusted(accounts: map<AccountId, Account>, id: AccountId, change: int): map<AccountId, Account> {
    if id in accounts then accounts[id := accounts[id].(balance := accounts[id].balance + change)] else accounts
  }

  /** No refusal means that no query refuses. */
  lemma {:induction false} NoRefusal(t: Tables, op: Op, k: nat)
    requires k <= QUERIES
    ensures RefusalFrom(t, op, k).None? <==> forall j :: k <= j < QUERIES ==> StageError(t, op, j).None?
    decreases QUERIES - k
  {
    if k < QUERIES {
      NoRefusal(t, op, k + 1);
    }
  }

  /** The first query that refuses decides the verdict. */
  lemma {:induction false} FirstRefusal(t: Tables, op: Op, k: nat, j: nat)
    requires k <= j < QUERIES
    requires forall i :: k <= i < j ==> StageError(t, op, i).None?
    requires StageError(t, op, j).Some?
    ensures RefusalFrom(t, op, k) == StageError(t, op, j)
    decreases j - k
  {
    if k < j {
      FirstRefusal(t, op, k + 1, j);
    }
  }

  /** Four writes made one after the other are exactly the declared posting, even on one account. */
  lemma WritesMakePosting(t: Tables, op: Op, tx: TxId)
    ensures Tables(Adjusted(Adjusted(t.accounts, op.LegAccount(false), op.Change(false)),
                            op.LegAccount(true), op.Change(true)),
                   t.entries + [op.Leg(false, tx)] + [op.Leg(true, tx)]) == Posted(t, op, tx)
  {
    RoundNegation(op.amount);
    assert t.entries + [op.Leg(false, tx)] + [op.Leg(true, tx)]
        == t.entries + [op.Leg(false, tx), op.Leg(true, tx)];
  }

  /** What an accepted operation is known to satisfy on the tables it was accepted on. */
  lemma AcceptedFacts(t: Tables, op: Op)
    requires op.Valid() && Refusal(t, op).None?
    ensures op.First() in t.accounts && op.Second() in t.accounts
    ensures op.Debited() in t.accounts && op.Credited() in t.accounts
    ensures t.accounts[op.Debited()].currency == t.accounts[op.Credited()].currency
    ensures 0 < op.Units() <= MAX_UNITS
    ensures !op.Deposit? ==> op.Units() <= t.accounts[op.Debited()].balance
  {
    NoRefusal(t, op, 0);
    assert StageError(t, op, 0).None? && StageError(t, op, 1).None? && StageError(t, op, 2).None?;
    RoundsToZero(op.amount);
    if !op.Deposit? {
      FundsCheckCoversPosting(t.accounts[op.Debited()].balance, op.amount);
    }
  }

  /** An accepted operation leaves both touched balances inside NUMERIC(19,4). */
  lemma AcceptedStaysInRange(t: Tables, op: Op, id: AccountId)
    requires op.Valid() && Refusal(t, op).None?
    requires id in t.accounts && InRange(t.accounts[id].balance)
    ensures InRange(t.accounts[id].balance + Delta(op, id))
  {
    NoRefusal(t, op, 0);
    assert StageError(t, op, 4).None? && StageError(t, op, 5).None?;
    RoundNegation(op.amount);
  }

  /** A positive amount that rounds to zero never gets past the first insert, whatever the tables hold. */
  lemma VanishingAmountRefused(t: Tables, op: Op)
    requires op.Valid() && op.amount < 0.00005
    ensures RefusalFrom(t, op, 2) == Some(CHECK_VIOLATION)
    ensures Refusal(t, op).Some?
  {
    RoundsToZero(op.amount);
    assert StageError(t, op, 2) == Some(CHECK_VIOLATION);
    NoRefusal(t, op, 0);
  }
}
