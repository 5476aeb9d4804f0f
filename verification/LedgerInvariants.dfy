/** What every accepted operation keeps: agreement, funds, conservation, range and journal shape. */
module LedgerInvariants {
  import opened Money
  import opened Ledger

  /** The fold of GetAccountBalance: credits minus debits of one account. */
  function Net(entries: seq<Entry>, id: AccountId): int {
    if entries == [] then 0
    else
      var e := entries[|entries| - 1];
      Net(entries[..|entries| - 1], id) + (if e.account == id then e.credit - e.debit else 0)
  }

  lemma {:induction false} NetAppend(a: seq<Entry>, b: seq<Entry>, id: AccountId)
    ensures Net(a + b, id) == Net(a, id) + Net(b, id)
  {
    if b == [] {
      assert a + b == a;
    } else {
      assert (a + b)[..|a + b| - 1] == a + b[..|b| - 1];
      NetAppend(a, b[..|b| - 1], id);
    }
  }

  lemma {:induction false} NetOfStranger(entries: seq<Entry>, id: AccountId)
    requires forall e :: e in entries ==> e.account != id
    ensures Net(entries, id) == 0
  {
    if entries != [] {
      NetOfStranger(entries[..|entries| - 1], id);
    }
  }

  /** The two legs move an account by exactly the operation's net effect on it. */
  lemma NetOfLegs(op: Op, tx: TxId, id: AccountId)
    ensures Net([op.Leg(false, tx), op.Leg(true, tx)], id) == Delta(op, id)
  {
    var a, b := [op.Leg(false, tx)], [op.Leg(true, tx)];
    NetAppend(a, b, id);
    assert a[..0] == [] && b[..0] == [];
    assert [op.Leg(false, tx), op.Leg(true, tx)] == a + b;
  }

  // ---- Totals per currency ----

  ghost function Pick(accounts: map<AccountId, Account>): (id: AccountId)
    requires accounts != map[]
    ensures id in accounts
  {
    assert accounts.Keys != {};
    var id :| id in accounts;
    id
  }

  function Counted(a: Account, currency: string): int {
    if a.currency == currency then a.balance else 0
  }

  /** Sum of the balances held in one currency. */
  ghost function Total(accounts: map<AccountId, Account>, currency: string): int
    decreases |accounts|
  {
    if accounts == map[] then 0
    else
      var id := Pick(accounts);
      Counted(accounts[id], currency) + Total(accounts - {id}, currency)
  }

  lemma {:induction false} TotalSplit(accounts: map<AccountId, Account>, id: AccountId, currency: string)
    requires id in accounts
    ensures Total(accounts, currency) == Counted(accounts[id], currency) + Total(accounts - {id}, currency)
    decreases |accounts|
  {
    var other := Pick(accounts);
    if other != id {
      TotalSplit(accounts - {other}, id, currency);
      TotalSplit(accounts - {id}, other, currency);
      assert accounts - {other} - {id} == accounts - {id} - {other};
    }
  }

  lemma TotalWrite(accounts: map<AccountId, Account>, id: AccountId, a: Account, currency: string)
    ensures Total(accounts[id := a], currency)
         == Total(accounts, currency) + Counted(a, currency)
            - (if id in accounts then Counted(accounts[id], currency) else 0)
  {
    TotalSplit(accounts[id := a], id, currency);
    assert accounts[id := a] - {id} == accounts - {id};
    if id in accounts {
      TotalSplit(accounts, id, currency);
    } else {
      assert accounts - {id} == accounts;
    }
  }

  /** A total of non-negative balances bounds each of them. */
  lemma {:induction false} TotalBoundsParts(accounts: map<AccountId, Account>, currency: string)
    requires forall id :: id in accounts && accounts[id].currency == currency ==> accounts[id].balance >= 0
    ensures Total(accounts, currency) >= 0
    ensures forall id :: id in accounts && accounts[id].currency == currency
                         ==> accounts[id].balance <= Total(accounts, currency)
    decreases |accounts|
  {
    if accounts != map[] {
      var id := Pick(accounts);
      var rest := accounts - {id};
      TotalBoundsParts(rest, currency);
      forall other | other in accounts && accounts[other].currency == currency
        ensures accounts[other].balance <= Total(accounts, currency)
      {
        assert other == id || other in rest;
      }
    }
  }

  // ---- The invariant ----

  /** Exactly the seeded row answers the settlement queries. */
  ghost predicate OneSettlement(t: Tables) {
    && SETTLEMENT in t.accounts
    && forall id :: id in t.accounts ==> (IsSettlementRow(t.accounts[id]) <==> id == SETTLEMENT)
  }

  ghost predicate CacheAgrees(t: Tables) {
    && (forall e :: e in t.entries ==> e.account in t.accounts)
    && forall id :: id in t.accounts ==> t.accounts[id].balance == Net(t.entries, id)
  }

  ghost predicate NoOverdraft(t: Tables) {
    forall id :: id in t.accounts && id != SETTLEMENT ==> t.accounts[id].balance >= 0
  }

  ghost predicate AllInRange(t: Tables) {
    forall id :: id in t.accounts ==> InRange(t.accounts[id].balance)
  }

  ghost predicate Conserved(t: Tables) {
    forall currency :: Total(t.accounts, currency) == 0
  }

  predicate IsDebit(e: Entry) { e.debit > 0 && e.credit == 0 }

  predicate IsCredit(e: Entry) { e.debit == 0 && e.credit > 0 }

  /** Two legs of one transaction: one pure debit, one pure credit, same size, kind and currency. */
  ghost predicate Balanced(t: Tables, a: Entry, b: Entry) {
    && a.tx == b.tx && a.kind == b.kind
    && ((IsDebit(a) && IsCredit(b) && a.debit == b.credit) || (IsCredit(a) && IsDebit(b) && a.credit == b.debit))
    && a.account in t.accounts && b.account in t.accounts
    && t.accounts[a.account].currency == t.accounts[b.account].currency
  }

  /** The journal is a row of balanced pairs, no two pairs sharing a transaction id. */
  ghost predicate Paired(t: Tables) {
    && |t.entries| % 2 == 0
    && (forall i :: 0 <= i < |t.entries| - 1 && i % 2 == 0 ==> Balanced(t, t.entries[i], t.entries[i + 1]))
    && (forall i, j :: 0 <= i < j < |t.entries| && t.entries[i].tx == t.entries[j].tx ==> i % 2 == 0 && j == i + 1)
  }

  ghost predicate Invariant(t: Tables) {
    && OneSettlement(t) && CacheAgrees(t) && NoOverdraft(t) && AllInRange(t) && Conserved(t) && Paired(t)
  }

  predicate FreshTx(t: Tables, tx: TxId) {
    forall e :: e in t.entries ==> e.tx != tx
  }

  lemma SeededInvariant()
    ensures Invariant(SEEDED)
  {
    forall currency ensures Total(SEEDED.accounts, currency) == 0 {
      TotalSplit(SEEDED.accounts, SETTLEMENT, currency);
      assert SEEDED.accounts - {SETTLEMENT} == map[];
    }
  }

  lemma OpenKeepsJournal(t: Tables, id: AccountId, name: string, currency: string)
    requires CacheAgrees(t) && Paired(t) && id !in t.accounts
    ensures CacheAgrees(Opened(t, id, name, currency)) && Paired(Opened(t, id, name, currency))
  {
    var t' := Opened(t, id, name, currency);
    NetOfStranger(t.entries, id);
    forall i | 0 <= i < |t.entries| - 1 && i % 2 == 0 ensures Balanced(t', t.entries[i], t.entries[i + 1]) {
      assert Balanced(t, t.entries[i], t.entries[i + 1]);
    }
  }

  lemma OpenKeepsInvariant(t: Tables, id: AccountId, name: string, currency: string)
    requires Invariant(t) && id !in t.accounts
    ensures Invariant(Opened(t, id, name, currency))
  {
    var t' := Opened(t, id, name, currency);
    OpenKeepsJournal(t, id, name, currency);
    forall c ensures Total(t'.accounts, c) == 0 {
      TotalWrite(t.accounts, id, t'.accounts[id], c);
    }
  }

  lemma PostKeepsAgreement(t: Tables, op: Op, tx: TxId)
    requires CacheAgrees(t) && op.Valid() && Refusal(t, op).None?
    ensures CacheAgrees(Posted(t, op, tx))
  {
    AcceptedFacts(t, op);
    forall id | id in t.accounts
      ensures Posted(t, op, tx).accounts[id].balance == Net(Posted(t, op, tx).entries, id)
    {
      NetAppend(t.entries, [op.Leg(false, tx), op.Leg(true, tx)], id);
      NetOfLegs(op, tx, id);
    }
  }

  /** The posted balances are two writes, one row after the other, possibly the same one. */
  lemma PostingIsTwoWrites(t: Tables, op: Op, tx: TxId)
    requires op.Debited() in t.accounts && op.Credited() in t.accounts
    ensures Posted(t, op, tx).accounts
         == Adjusted(Adjusted(t.accounts, op.Debited(), -op.Units()), op.Credited(), op.Units())
  {
  }

  /** Moving the same amount out of one row and into another of the same currency keeps every total. */
  lemma PostKeepsTotals(t: Tables, op: Op, tx: TxId, currency: string)
    requires op.Valid() && Refusal(t, op).None?
    ensures Total(Posted(t, op, tx).accounts, currency) == Total(t.accounts, currency)
  {
    AcceptedFacts(t, op);
    var d, c, u := op.Debited(), op.Credited(), op.Units();
    var mid := Adjusted(t.accounts, d, -u);
    TotalWrite(t.accounts, d, mid[d], currency);
    TotalWrite(mid, c, Adjusted(mid, c, u)[c], currency);
    PostingIsTwoWrites(t, op, tx);
  }

  lemma {:induction false} PostKeepsPairs(t: Tables, op: Op, tx: TxId)
    requires Paired(t) && op.Valid() && Refusal(t, op).None? && FreshTx(t, tx)
    ensures Paired(Posted(t, op, tx))
  {
    AcceptedFacts(t, op);
    var t' := Posted(t, op, tx);
    var n := |t.entries|;
    assert t'.entries[n] == op.Leg(false, tx) && t'.entries[n + 1] == op.Leg(true, tx);
    forall i | 0 <= i < |t'.entries| - 1 && i % 2 == 0
      ensures Balanced(t', t'.entries[i], t'.entries[i + 1])
    {
      if i < n {
        assert Balanced(t, t.entries[i], t.entries[i + 1]);
      }
    }
    forall i, j | 0 <= i < j < |t'.entries| && t'.entries[i].tx == t'.entries[j].tx
      ensures i % 2 == 0 && j == i + 1
    {
      if i < n {
        assert t'.entries[i] in t.entries;
      }
    }
  }

  /** Every accepted operation keeps the whole invariant. */
  lemma PostKeepsInvariant(t: Tables, op: Op, tx: TxId)
    requires Invariant(t) && op.Valid() && Refusal(t, op).None? && FreshTx(t, tx)
    ensures Invariant(Posted(t, op, tx))
  {
    AcceptedFacts(t, op);
    PostKeepsAgreement(t, op, tx);
    PostKeepsPairs(t, op, tx);
    forall id | id in t.accounts ensures InRange(t.accounts[id].balance + Delta(op, id)) {
      AcceptedStaysInRange(t, op, id);
    }
    forall currency ensures Total(Posted(t, op, tx).accounts, currency) == 0 {
      PostKeepsTotals(t, op, tx, currency);
    }
  }

  // ---- Consequences ----

  /** The settlement balance is never positive, and no other currency than its own holds money. */
  lemma SettlementNeverPositive(t: Tables)
    requires Invariant(t)
    ensures t.accounts[SETTLEMENT].balance <= 0
    ensures forall id :: id in t.accounts && t.accounts[id].currency != t.accounts[SETTLEMENT].currency
                         ==> t.accounts[id].balance == 0
  {
    var users := t.accounts - {SETTLEMENT};
    var home := t.accounts[SETTLEMENT].currency;
    TotalSplit(t.accounts, SETTLEMENT, home);
    TotalBoundsParts(users, home);
    forall id | id in t.accounts && t.accounts[id].currency != home ensures t.accounts[id].balance == 0 {
      TotalBoundsParts(t.accounts, t.accounts[id].currency);
    }
  }

  /** No withdrawal or transfer out of the settlement account is ever accepted. */
  lemma NothingLeavesSettlement(t: Tables, op: Op)
    requires Invariant(t) && op.Valid()
    requires !op.Deposit? && op.Debited() == SETTLEMENT
    ensures Refusal(t, op).Some?
  {
    SettlementNeverPositive(t);
    if Refusal(t, op).None? {
      AcceptedFacts(t, op);
      assert false;
    }
  }

  /** ListEntriesByTransaction. */
  function ByTransaction(entries: seq<Entry>, tx: TxId): seq<Entry> {
    if entries == [] then []
    else
      var e := entries[|entries| - 1];
      ByTransaction(entries[..|entries| - 1], tx) + (if e.tx == tx then [e] else [])
  }

  lemma {:induction false} ByTransactionNone(entries: seq<Entry>, tx: TxId)
    requires forall e :: e in entries ==> e.tx != tx
    ensures ByTransaction(entries, tx) == []
  {
    if entries != [] {
      ByTransactionNone(entries[..|entries| - 1], tx);
    }
  }

  lemma {:induction false} ByTransactionAppend(a: seq<Entry>, b: seq<Entry>, tx: TxId)
    ensures ByTransaction(a + b, tx) == ByTransaction(a, tx) + ByTransaction(b, tx)
  {
    if b == [] {
      assert a + b == a;
    } else {
      assert (a + b)[..|a + b| - 1] == a + b[..|b| - 1];
      ByTransactionAppend(a, b[..|b| - 1], tx);
    }
  }

  lemma OthersDiffer(t: Tables, i: nat)
    requires Paired(t) && i % 2 == 0 && i + 1 < |t.entries|
    ensures forall e :: e in t.entries[..i] || e in t.entries[i + 2..] ==> e.tx != t.entries[i].tx
  {
    assert Balanced(t, t.entries[i], t.entries[i + 1]);
    forall k | 0 <= k < |t.entries| && k != i && k != i + 1
      ensures t.entries[k].tx != t.entries[i].tx
    {
      if k < i {
        assert t.entries[k].tx == t.entries[i].tx ==> i == k + 1;
      }
    }
  }

  lemma ByTransactionPair(a: Entry, b: Entry)
    requires a.tx == b.tx
    ensures ByTransaction([a, b], a.tx) == [a, b]
  {
    ByTransactionAppend([a], [b], a.tx);
    assert [a][..0] == [] && [b][..0] == [];
    assert [a, b] == [a] + [b];
  }

  lemma ByTransactionBetween(before: seq<Entry>, a: Entry, b: Entry, after: seq<Entry>)
    requires a.tx == b.tx && forall e :: e in before || e in after ==> e.tx != a.tx
    ensures ByTransaction(before + [a, b] + after, a.tx) == [a, b]
  {
    ByTransactionAppend(before + [a, b], after, a.tx);
    ByTransactionAppend(before, [a, b], a.tx);
    ByTransactionNone(before, a.tx);
    ByTransactionNone(after, a.tx);
    ByTransactionPair(a, b);
  }

  /** Each transaction id that occurs lists exactly two entries, and they balance. */
  lemma {:induction false} TransactionHasTwoLegs(t: Tables, tx: TxId)
    requires Paired(t) && !FreshTx(t, tx)
    ensures var legs := ByTransaction(t.entries, tx); |legs| == 2 && Balanced(t, legs[0], legs[1])
  {
    var n :| 0 <= n < |t.entries| && t.entries[n].tx == tx;
    var i := n - n % 2;
    var a, b := t.entries[i], t.entries[i + 1];
    assert Balanced(t, a, b);
    OthersDiffer(t, i);
    var before, after := t.entries[..i], t.entries[i + 2..];
    assert t.entries == before + [a, b] + after;
    ByTransactionBetween(before, a, b, after);
  }

  /** The cast in GetAccountBalance never overflows, however many entries the account has. */
  lemma JournalSumInRange(t: Tables, id: AccountId)
    requires CacheAgrees(t) && AllInRange(t)
    ensures InRange(Net(t.entries, id))
  {
    if id !in t.accounts {
      NetOfStranger(t.entries, id);
    }
  }

  /** Operations that some tables will accept: the amount does not vanish and fits, and is not taken from settlement. */
  predicate EverAccepted(op: Op) {
    && op.Valid() && 0 < op.Units() <= MAX_UNITS
    && (op.Deposit? || (op.Debited() != SETTLEMENT && op.amount <= Value(MAX_UNITS)))
  }

  /** Tables that satisfy the invariant accept no others. */
  lemma AcceptedIsEverAccepted(t: Tables, op: Op)
    requires Invariant(t) && op.Valid() && Refusal(t, op).None?
    ensures EverAccepted(op)
  {
    AcceptedFacts(t, op);
    if !op.Deposit? {
      if op.Debited() == SETTLEMENT {
        NothingLeavesSettlement(t, op);
      }
      NoRefusal(t, op, 0);
      assert StageError(t, op, 1).None?;
      assert InRange(t.accounts[op.Debited()].balance);
    }
  }
}
