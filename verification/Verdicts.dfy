/**
 What the three operations do and why they are refused, spelled out: the error for every reason, in
 the order in which the reasons are looked at, and the posting leg by leg.
 */
module Verdicts {
  import opened Wrappers
  import opened Money
  import opened Ledger

  // ---- Refusals ----

  /** The two rows an operation is about. */
  predicate RowsExist(t: Tables, op: Op) {
    match op
    case Deposit(account, _) => SETTLEMENT in t.accounts && account in t.accounts
    case Withdraw(account, _) => SETTLEMENT in t.accounts && account in t.accounts
    case Transfer(from, to, _) => from in t.accounts && to in t.accounts
  }

  predicate OneCurrency(t: Tables, op: Op)
    requires RowsExist(t, op)
  {
    match op
    case Deposit(account, _) => t.accounts[SETTLEMENT].currency == t.accounts[account].currency
    case Withdraw(account, _) => t.accounts[SETTLEMENT].currency == t.accounts[account].currency
    case Transfer(from, to, _) => t.accounts[from].currency == t.accounts[to].currency
  }

  /** The unrounded amount against the balance of the account that pays; a deposit is not asked. */
  predicate FundsCover(t: Tables, op: Op)
    requires RowsExist(t, op)
  {
    match op
    case Deposit(_, _) => true
    case Withdraw(account, amount) => amount <= t.accounts[account].balance as real / 10000.0
    case Transfer(from, _, amount) => amount <= t.accounts[from].balance as real / 10000.0
  }

  /** The largest balance, in units of 1/10000. */
  const LARGEST: int := 9_999_999_999_999_999_999

  /**
   Each write fits its column. On one account the two writes follow each other: the first one alone
   decides, for the second takes it back.
   */
  predicate Fits(t: Tables, op: Op)
    requires RowsExist(t, op)
  {
    var u := RoundUnits(op.amount);
    && u <= LARGEST
    && match op
       case Deposit(account, _) =>
         && t.accounts[account].balance + u <= LARGEST
         && (account != SETTLEMENT ==> t.accounts[SETTLEMENT].balance - u >= -LARGEST)
       case Withdraw(account, _) =>
         && t.accounts[account].balance - u >= -LARGEST
         && (account != SETTLEMENT ==> t.accounts[SETTLEMENT].balance + u <= LARGEST)
       case Transfer(from, to, _) =>
         t.accounts[from].balance - u >= -LARGEST && t.accounts[to].balance + u <= LARGEST
  }

  /** The reason, if there is one. */
  ghost predicate RefusedBecause(t: Tables, op: Op, e: Err) {
    if !RowsExist(t, op) then e == (if op.Transfer? then NoRows else Wrapped(NoRows))
    else if !OneCurrency(t, op) then e == CurrencyMismatch
    else if !FundsCover(t, op) then e == InsufficientFunds
    else if RoundUnits(op.amount) > LARGEST then e == Sql("22003")
    else if op.amount < 0.00005 then e == Sql("23514")
    else !Fits(t, op) && e == Sql("22003")
  }

  lemma {:induction false} ReasonAt(t: Tables, op: Op, k: nat)
    requires k < QUERIES && StageError(t, op, k).Some?
    requires forall j :: 0 <= j < k ==> StageError(t, op, j).None?
    ensures Refusal(t, op) == StageError(t, op, k)
  {
    FirstRefusal(t, op, 0, k);
  }

  lemma LocksSayWhy(t: Tables, op: Op)
    requires op.Valid()
    ensures StageError(t, op, 0).Some? || StageError(t, op, 1).Some?
            <==> !RowsExist(t, op) || !OneCurrency(t, op) || !FundsCover(t, op)
    ensures StageError(t, op, 0).Some? ==> RefusedBecause(t, op, StageError(t, op, 0).value)
    ensures StageError(t, op, 0).None? && StageError(t, op, 1).Some?
            ==> RefusedBecause(t, op, StageError(t, op, 1).value)
  {
  }

  lemma InsertsSayWhy(t: Tables, op: Op)
    requires op.Valid() && RowsExist(t, op) && OneCurrency(t, op) && FundsCover(t, op)
    ensures StageError(t, op, 2).Some? || StageError(t, op, 3).Some?
            <==> RoundUnits(op.amount) > LARGEST || op.amount < 0.00005
    ensures StageError(t, op, 2).Some? ==> RefusedBecause(t, op, StageError(t, op, 2).value)
    ensures StageError(t, op, 3).Some? ==> StageError(t, op, 2).Some?
  {
    RoundsToZero(op.amount);
  }

  lemma UpdatesSayWhy(t: Tables, op: Op)
    requires op.Valid() && RowsExist(t, op) && OneCurrency(t, op) && FundsCover(t, op)
    requires RoundUnits(op.amount) <= LARGEST && op.amount >= 0.00005
    requires forall id :: id in t.accounts ==> -LARGEST <= t.accounts[id].balance <= LARGEST
    ensures StageError(t, op, 4).Some? || StageError(t, op, 5).Some? <==> !Fits(t, op)
    ensures StageError(t, op, 4).Some? ==> StageError(t, op, 4) == Some(Sql("22003"))
    ensures StageError(t, op, 5).Some? ==> StageError(t, op, 5) == Some(Sql("22003"))
  {
    RoundsToZero(op.amount);
    RoundNegation(op.amount);
  }

  /**
   On tables within their range, an operation is refused exactly for a missing row, different
   currencies, missing funds, an amount that does not fit or vanishes, or a balance that does not fit;
   of several reasons the first in this order is reported.
   */
  lemma {:induction false} RefusalSaysWhy(t: Tables, op: Op)
    requires op.Valid() && forall id :: id in t.accounts ==> -LARGEST <= t.accounts[id].balance <= LARGEST
    ensures Refusal(t, op).Some? ==> RefusedBecause(t, op, Refusal(t, op).value)
    ensures Refusal(t, op).None?
            <==> RowsExist(t, op) && OneCurrency(t, op) && FundsCover(t, op) && op.amount >= 0.00005 && Fits(t, op)
  {
    NoRefusal(t, op, 0);
    LocksSayWhy(t, op);
    if RowsExist(t, op) && OneCurrency(t, op) && FundsCover(t, op) {
      InsertsSayWhy(t, op);
      if RoundUnits(op.amount) <= LARGEST && op.amount >= 0.00005 {
        UpdatesSayWhy(t, op);
      }
    }
    if Refusal(t, op).Some? {
      var k :| 0 <= k < QUERIES && StageError(t, op, k).Some? && forall j :: 0 <= j < k ==> StageError(t, op, j).None?;
      ReasonAt(t, op, k);
    }
  }

  /** The two business errors on any tables, one account's own row or both missing included. */
  lemma BusinessErrorsExactly(t: Tables, op: Op)
    requires op.Valid()
    ensures Refusal(t, op) == Some(if op.Transfer? then NoRows else Wrapped(NoRows)) <==> !RowsExist(t, op)
    ensures Refusal(t, op) == Some(CurrencyMismatch) <==> RowsExist(t, op) && !OneCurrency(t, op)
    ensures Refusal(t, op) == Some(InsufficientFunds)
            <==> RowsExist(t, op) && OneCurrency(t, op) && !FundsCover(t, op)
  {
    NoRefusal(t, op, 0);
    LocksSayWhy(t, op);
    if Refusal(t, op).Some? {
      var k :| 0 <= k < QUERIES && StageError(t, op, k).Some? && forall j :: 0 <= j < k ==> StageError(t, op, j).None?;
      ReasonAt(t, op, k);
    }
  }

  /** What the entries table takes: one side positive and within its column, the other zero, the account known. */
  lemma EntriesAccepted(t: Tables, e: Entry)
    ensures InsertError(t, e).None?
            <==> e.account in t.accounts
                 && ((0 < e.debit <= LARGEST && e.credit == 0) || (e.debit == 0 && 0 < e.credit <= LARGEST))
    ensures InsertError(t, e) == Some(Sql("22003"))
            <==> !(-LARGEST <= e.debit <= LARGEST && -LARGEST <= e.credit <= LARGEST)
    ensures InsertError(t, e) == Some(Sql("23503")) ==> e.account !in t.accounts
  {
  }

  // ---- Postings ----

  /** The accounts that are neither `a` nor `b`, and every field but the balance of these, are as they were. */
  ghost predicate OthersUntouched(t: Tables, t': Tables, a: AccountId, b: AccountId) {
    && t'.accounts.Keys == t.accounts.Keys
    && (forall id :: id in t.accounts && id != a && id != b ==> t'.accounts[id] == t.accounts[id])
    && forall id :: id in t.accounts ==> t'.accounts[id] == t.accounts[id].(balance := t'.accounts[id].balance)
  }

  /** A deposit credits the account and debits settlement; into settlement itself it moves nothing. */
  lemma DepositPosts(t: Tables, account: AccountId, amount: real, tx: TxId)
    requires SETTLEMENT in t.accounts && account in t.accounts
    ensures var t', u := Posted(t, Deposit(account, amount), tx), RoundUnits(amount);
            && OthersUntouched(t, t', account, SETTLEMENT)
            && t'.entries
               == t.entries + [Entry(account, 0, u, tx, DepositType), Entry(SETTLEMENT, u, 0, tx, DepositType)]
            && (account != SETTLEMENT ==>
                  && t'.accounts[account].balance == t.accounts[account].balance + u
                  && t'.accounts[SETTLEMENT].balance == t.accounts[SETTLEMENT].balance - u)
            && (account == SETTLEMENT ==> t'.accounts == t.accounts)
  {
  }

  /** A withdrawal debits the account and credits settlement. */
  lemma WithdrawalPosts(t: Tables, account: AccountId, amount: real, tx: TxId)
    requires SETTLEMENT in t.accounts && account in t.accounts
    ensures var t', u := Posted(t, Withdraw(account, amount), tx), RoundUnits(amount);
            && OthersUntouched(t, t', account, SETTLEMENT)
            && t'.entries
               == t.entries + [Entry(account, u, 0, tx, WithdrawalType), Entry(SETTLEMENT, 0, u, tx, WithdrawalType)]
            && (account != SETTLEMENT ==>
                  && t'.accounts[account].balance == t.accounts[account].balance - u
                  && t'.accounts[SETTLEMENT].balance == t.accounts[SETTLEMENT].balance + u)
            && (account == SETTLEMENT ==> t'.accounts == t.accounts)
  {
  }

  /** A transfer debits the source and credits the destination. */
  lemma TransferPosts(t: Tables, from: AccountId, to: AccountId, amount: real, tx: TxId)
    requires from in t.accounts && to in t.accounts && from != to
    ensures var t', u := Posted(t, Transfer(from, to, amount), tx), RoundUnits(amount);
            && OthersUntouched(t, t', from, to)
            && t'.entries == t.entries + [Entry(from, u, 0, tx, TransferType), Entry(to, 0, u, tx, TransferType)]
            && t'.accounts[from].balance == t.accounts[from].balance - u
            && t'.accounts[to].balance == t.accounts[to].balance + u
  {
  }

  /** The settlement queries look at flag and name: neither another system row nor a user's row of that name will do. */
  lemma SettlementRowExactly(a: Account)
    ensures a.isSystem && a.name == "Settlement Account" ==> IsSettlementRow(a)
    ensures a.isSystem && a.name != "Settlement Account" ==> !IsSettlementRow(a)
    ensures !a.isSystem ==> !IsSettlementRow(a)
  {
  }

  /** A new account is empty, bears the name and currency asked for, and is no system row; nothing else changes. */
  lemma OpeningAddsAnEmptyAccount(t: Tables, id: AccountId, name: string, currency: string)
    requires id !in t.accounts
    ensures var t' := Opened(t, id, name, currency);
            && t'.entries == t.entries && t'.accounts.Keys == t.accounts.Keys + {id}
            && (forall other :: other in t.accounts ==> t'.accounts[other] == t.accounts[other])
            && t'.accounts[id] == Account(name, 0, currency, false)
  {
  }
}
