/**
 A row that is created while an attempt is under way is not in the attempt's snapshot: the attempt
 reports it missing, although the tables of that moment would accept its operation. Handlers look up
 the account of a deposit, a withdrawal or a transfer's source before the call begins; a transfer's
 destination nobody looks up.
 */
module HiddenRows {
  import opened Wrappers
  import opened Money
  import opened Ledger
  import opened History
  import opened Concurrency
  import opened Refinement
  import opened SoloCall

  /** A call begins, the second row of its operation is created, and the first one is locked. */
  function LateOpening(p: Pid, op: Op, name: string, currency: string, tx: TxId): seq<Label> {
    [Spawn(p, op)] + ([Begin(p)] + ([Open(op.Second(), name, currency)] + ([Query(p, tx)] + [])))
  }

  /** The row is created, and the first lock taken, by an attempt that has just begun. */
  lemma LateLockRuns(s: State, p: Pid, name: string, currency: string, tx: TxId) returns (s': State)
    requires p in s.txns && s.txns[p].phase == Running(0) && s.txns[p].snapshot == s.tables.accounts.Keys
    requires s.txns[p].op.First() in s.tables.accounts && s.txns[p].op.Second() !in s.tables.accounts
    requires forall q :: q in s.txns && q != p ==> s.txns[p].op.First() !in s.txns[q].rows
    ensures RunFrom(s, [Open(s.txns[p].op.Second(), name, currency)] + ([Query(p, tx)] + [])) == Some(s')
    ensures s'.tables == Opened(s.tables, s.txns[p].op.Second(), name, currency) && s'.usedTx == s.usedTx
    ensures p in s'.txns && s'.txns[p].op == s.txns[p].op && s'.txns[p].phase == Running(1)
    ensures s'.txns[p].snapshot == s.txns[p].snapshot
  {
    var op := s.txns[p].op;
    var later := Do(s, Open(op.Second(), name, currency));
    assert !Blocked(later, p);
    s' := Do(later, Query(p, tx));
    RunFromStep(later, Query(p, tx), []);
    RunFromStep(s, Open(op.Second(), name, currency), [Query(p, tx)] + []);
  }

  lemma LateOpeningRuns(s: State, p: Pid, op: Op, name: string, currency: string, tx: TxId) returns (s': State)
    requires p !in s.txns && op.Valid() && op.First() in s.tables.accounts && op.Second() !in s.tables.accounts
    requires forall q :: q in s.txns ==> op.First() !in s.txns[q].rows
    ensures RunFrom(s, LateOpening(p, op, name, currency, tx)) == Some(s')
    ensures s'.tables == Opened(s.tables, op.Second(), name, currency) && s'.usedTx == s.usedTx
    ensures p in s'.txns && s'.txns[p].op == op && s'.txns[p].phase == Running(1)
    ensures op.Second() !in s'.txns[p].snapshot
  {
    var rest := [Open(op.Second(), name, currency)] + ([Query(p, tx)] + []);
    var spawned := Do(s, Spawn(p, op));
    var begun := Do(spawned, Begin(p));
    s' := LateLockRuns(begun, p, name, currency, tx);
    RunFromStep(spawned, Begin(p), rest);
    RunFromStep(s, Spawn(p, op), [Begin(p)] + rest);
  }

  /**
   From any state, with any new call: if its first row is there and free, its second row is created
   after it has begun, and the tables accept the operation then, its next query gives up all the same.
   */
  lemma SnapshotHidesNewRow(s: State, p: Pid, op: Op, name: string, currency: string, tx: TxId) returns (s': State)
    requires p !in s.txns && op.Valid() && op.First() in s.tables.accounts && op.Second() !in s.tables.accounts
    requires (forall q :: q in s.txns ==> op.First() !in s.txns[q].rows) && tx !in s.usedTx
    requires Refusal(Opened(s.tables, op.Second(), name, currency), op).None?
    ensures RunFrom(s, LateOpening(p, op, name, currency, tx)) == Some(s') && Enabled(s', Query(p, tx))
    ensures GaveUp(Do(s', Query(p, tx)), p, MissingRow(op)) && Refusal(s'.tables, op).None?
  {
    s' := LateOpeningRuns(s, p, op, name, currency, tx);
    assert Wanted(s'.txns[p]).None?;
    assert !Blocked(s', p);
  }

  // ---- A funded transfer to an account that is just being opened ----

  const PAYMENT: Op := Deposit(1, 1.0)
  const MOVE: Op := Transfer(1, 2, 1.0)

  function AfterPayment(tx: TxId): Tables {
    Posted(Opened(SEEDED, 1, "", "USD"), PAYMENT, tx)
  }

  /** An account is opened and paid into. */
  function PaidIn(p: Pid, tx: TxId): seq<Label> {
    [Open(1, "", "USD")] + ([Spawn(p, PAYMENT)] + Through(p, tx, false))
  }

  lemma FirstPaymentAccepted()
    ensures Refusal(Opened(SEEDED, 1, "", "USD"), PAYMENT).None?
  {
    assert RoundUnits(1.0) == 10000 && RoundUnits(-1.0) == -10000;
    NoRefusal(Opened(SEEDED, 1, "", "USD"), PAYMENT, 0);
  }

  lemma LateMoveAccepted(tx: TxId)
    ensures Refusal(Opened(AfterPayment(tx), 2, "", "USD"), MOVE).None?
  {
    assert RoundUnits(1.0) == 10000 && RoundUnits(-1.0) == -10000;
    NoRefusal(Opened(AfterPayment(tx), 2, "", "USD"), MOVE, 0);
  }

  lemma {:induction false} FirstPaymentRuns(c: State, p: Pid, tx: TxId) returns (s: State)
    requires Reachable(c) && c.txns == map[] && c.usedTx == {} && c.tables == Opened(SEEDED, 1, "", "USD")
    ensures RunFrom(c, [Spawn(p, PAYMENT)] + Through(p, tx, false)) == Some(s)
    ensures s.tables == AfterPayment(tx) && s.usedTx <= {tx} && s.txns.Keys == {p} && s.txns[p].rows == map[]
  {
    FirstPaymentAccepted();
    s := CallWorks(c, p, PAYMENT, tx, false);
    RunFromStep(c, Spawn(p, PAYMENT), Through(p, tx, false));
  }

  lemma {:induction false} PaidInRuns(limit: nat, p: Pid, tx: TxId) returns (s: State)
    ensures Run(limit, PaidIn(p, tx)) == Some(s)
    ensures s.tables == AfterPayment(tx) && s.usedTx <= {tx} && s.txns.Keys == {p} && s.txns[p].rows == map[]
  {
    var first := Do(Start(limit), Open(1, "", "USD"));
    assert Run(limit, []) == Some(Start(limit));
    StepReaches(Start(limit), Open(1, "", "USD"));
    s := FirstPaymentRuns(first, p, tx);
    RunFromStep(Start(limit), Open(1, "", "USD"), [Spawn(p, PAYMENT)] + Through(p, tx, false));
    RunOnward(limit, [], PaidIn(p, tx));
    assert [] + PaidIn(p, tx) == PaidIn(p, tx);
  }

  /**
   From the migrated tables, for any numbers the two calls and their transactions get: a transfer that
   the tables would accept is told that there is no such row.
   */
  lemma {:induction false} FundedTransferMissesNewRow(limit: nat, f: Pid, tx: TxId, p: Pid, tx': TxId)
    returns (s: State)
    requires f != p && tx != tx'
    ensures Run(limit, PaidIn(f, tx) + LateOpening(p, MOVE, "", "USD", tx')) == Some(s) && Enabled(s, Query(p, tx'))
    ensures GaveUp(Do(s, Query(p, tx')), p, NoRows) && Refusal(s.tables, MOVE).None?
  {
    var funded := PaidInRuns(limit, f, tx);
    LateMoveAccepted(tx);
    s := SnapshotHidesNewRow(funded, p, MOVE, "", "USD", tx');
    RunOnward(limit, PaidIn(f, tx), LateOpening(p, MOVE, "", "USD", tx'));
  }
}
