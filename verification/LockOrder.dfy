/** Who waits for whom under the row locks, and when the waiting can close into a cycle. */
module LockOrder {
  import opened Wrappers
  import opened Ledger
  import opened History
  import opened Concurrency

  /** Each call in the row waits for the next, and the last for the first. */
  ghost predicate WaitCycle(s: State, cycle: seq<Pid>) {
    && |cycle| > 0
    && (forall i :: 0 <= i < |cycle| - 1 ==> WaitsFor(s, cycle[i], cycle[i + 1]))
    && WaitsFor(s, cycle[|cycle| - 1], cycle[0])
  }

  /** No running transfer names the settlement account. */
  ghost predicate TransfersAvoidSettlement(s: State) {
    forall p :: p in s.txns && s.txns[p].op.Transfer?
                ==> s.txns[p].op.from != SETTLEMENT && s.txns[p].op.to != SETTLEMENT
  }

  /** In a cycle every member is waited for, hence holds a row, hence waits for its second one. */
  lemma CycleMember(s: State, cycle: seq<Pid>, i: nat) returns (before: nat)
    requires Inv(s) && WaitCycle(s, cycle) && i < |cycle|
    ensures before < |cycle| && WaitsFor(s, cycle[before], cycle[i])
    ensures s.txns[cycle[i]].phase == Running(1)
    ensures s.txns[cycle[i]].rows.Keys == {s.txns[cycle[i]].op.First()}
  {
    before := if i == 0 then |cycle| - 1 else i - 1;
    assert WaitsFor(s, cycle[before], cycle[i]);
    assert i < |cycle| - 1 ==> WaitsFor(s, cycle[i], cycle[i + 1]);
    assert TxnOk(s.tables, s.usedTx, s.txns[cycle[i]]);
  }

  /** A deposit or withdrawal in a cycle would be waited for on the settlement row, by a call holding none. */
  lemma NonTransferBreaksCycle(s: State, cycle: seq<Pid>, i: nat)
    requires Inv(s) && TransfersAvoidSettlement(s) && WaitCycle(s, cycle) && i < |cycle|
    ensures cycle[i] in s.txns && s.txns[cycle[i]].op.Transfer?
  {
    var before := CycleMember(s, cycle, i);
    var further := CycleMember(s, cycle, before);
    assert s.txns[cycle[i]].op.First() in s.txns[cycle[i]].rows;
    assert s.txns[cycle[before]].op.First() in s.txns[cycle[before]].rows;
  }

  /** While transfers stay clear of the settlement row, only transfers can be part of a cycle. */
  lemma CyclesAreTransfers(s: State, cycle: seq<Pid>)
    requires Inv(s) && TransfersAvoidSettlement(s) && WaitCycle(s, cycle)
    ensures forall p :: p in cycle ==> p in s.txns && s.txns[p].op.Transfer?
  {
    forall i | 0 <= i < |cycle| ensures cycle[i] in s.txns && s.txns[cycle[i]].op.Transfer? {
      NonTransferBreaksCycle(s, cycle, i);
    }
  }

  /** Deposits and withdrawals alone: whoever holds a row can go on, so nothing ever deadlocks. */
  lemma HoldersNeverBlock(s: State, p: Pid)
    requires Inv(s) && p in s.txns && s.txns[p].rows != map[]
    requires forall q :: q in s.txns ==> !s.txns[q].op.Transfer?
    ensures !Blocked(s, p)
  {
    assert TxnOk(s.tables, s.usedTx, s.txns[p]);
    forall q | q in s.txns && q != p ensures !WaitsFor(s, p, q) {
      assert TxnOk(s.tables, s.usedTx, s.txns[q]);
      assert SETTLEMENT in s.txns[p].rows;
    }
  }

  /** The same, over whole runs. */
  lemma DepositsAndWithdrawalsNeverDeadlock(limit: nat, steps: seq<Label>, cycle: seq<Pid>)
    requires Run(limit, steps).Some?
    requires forall p :: p in Run(limit, steps).value.txns ==> !Run(limit, steps).value.txns[p].op.Transfer?
    ensures !WaitCycle(Run(limit, steps).value, cycle)
  {
    RunInv(limit, steps);
    var s := Run(limit, steps).value;
    if WaitCycle(s, cycle) {
      NonTransferBreaksCycle(s, cycle, 0);
      assert false;
    }
  }

  // ---- Deadlocks of any length ----

  /** Each operation locks second what the next one locks first, round to the first one; no two start on one row. */
  predicate Ring(ops: seq<Op>) {
    && |ops| > 1
    && (forall i :: 0 <= i < |ops| - 1 ==> ops[i].Second() == ops[i + 1].First())
    && ops[|ops| - 1].Second() == ops[0].First()
    && (forall i, j :: 0 <= i < j < |ops| ==> ops[i].First() != ops[j].First())
  }

  predicate Distinct(ps: seq<Pid>) {
    forall i, j :: 0 <= i < j < |ps| ==> ps[i] != ps[j]
  }

  predicate Runs(s: State, ps: seq<Pid>, ops: seq<Op>) {
    |ps| == |ops| && forall i :: 0 <= i < |ps| ==> ps[i] in s.txns && s.txns[ps[i]].op == ops[i]
  }

  /** A member of a cycle waits for the row its successor locked first. */
  lemma WaitIsSecondRow(s: State, cycle: seq<Pid>, i: nat, j: nat)
    requires Inv(s) && WaitCycle(s, cycle) && i < |cycle| && j < |cycle| && WaitsFor(s, cycle[i], cycle[j])
    ensures s.txns[cycle[i]].op.Second() == s.txns[cycle[j]].op.First()
  {
    var _ := CycleMember(s, cycle, i);
    var _ := CycleMember(s, cycle, j);
  }

  /** Different members of a cycle hold different first rows. */
  lemma MembersHoldDifferentRows(s: State, cycle: seq<Pid>, i: nat, j: nat)
    requires Inv(s) && WaitCycle(s, cycle) && i < |cycle| && j < |cycle| && cycle[i] != cycle[j]
    requires cycle[i] in s.txns && cycle[j] in s.txns
    ensures s.txns[cycle[i]].op.First() != s.txns[cycle[j]].op.First()
  {
    var _ := CycleMember(s, cycle, i);
    var _ := CycleMember(s, cycle, j);
    assert s.txns[cycle[i]].op.First() in s.txns[cycle[i]].rows;
    assert s.txns[cycle[j]].op.First() in s.txns[cycle[j]].rows;
  }

  /** The operations of any wait cycle form a ring. */
  lemma CyclesAreRings(s: State, cycle: seq<Pid>, ops: seq<Op>)
    requires Inv(s) && WaitCycle(s, cycle) && Distinct(cycle) && Runs(s, cycle, ops)
    ensures Ring(ops)
  {
    var n := |cycle|;
    forall i | 0 <= i < n - 1 ensures ops[i].Second() == ops[i + 1].First() {
      WaitIsSecondRow(s, cycle, i, i + 1);
    }
    WaitIsSecondRow(s, cycle, n - 1, 0);
    forall i, j | 0 <= i < j < n ensures ops[i].First() != ops[j].First() {
      MembersHoldDifferentRows(s, cycle, i, j);
    }
  }

  /** Start each call in turn and let it take its first lock. */
  function FirstLocks(ps: seq<Pid>, ops: seq<Op>, tx: TxId, i: nat): seq<Label>
    requires i <= |ps| == |ops|
    decreases |ps| - i
  {
    if i == |ps| then []
    else [Spawn(ps[i], ops[i])] + ([Begin(ps[i])] + ([Query(ps[i], tx)] + FirstLocks(ps, ops, tx, i + 1)))
  }

  /** The first `i` calls hold their first rows; the others are not there yet, and their first rows are free. */
  ghost predicate Holding(s: State, ps: seq<Pid>, ops: seq<Op>, i: nat)
    requires i <= |ps| == |ops|
  {
    && (forall j :: 0 <= j < i ==>
          && ps[j] in s.txns && s.txns[ps[j]].op == ops[j] && s.txns[ps[j]].phase == Running(1)
          && s.txns[ps[j]].rows.Keys == {ops[j].First()} && s.txns[ps[j]].snapshot == s.tables.accounts.Keys)
    && (forall j :: i <= j < |ps| ==> ps[j] !in s.txns)
    && (forall j :: 0 <= j < |ps| ==> ops[j].First() in s.tables.accounts)
    && (forall j, q :: i <= j < |ps| && q in s.txns ==> ops[j].First() !in s.txns[q].rows)
  }

  /** One more call starts and takes its first lock. */
  lemma {:induction false} NextLock(s: State, p: Pid, op: Op, tx: TxId, rest: seq<Label>) returns (s': State)
    requires p !in s.txns && op.Valid() && op.First() in s.tables.accounts
    requires forall q :: q in s.txns ==> op.First() !in s.txns[q].rows
    ensures RunFrom(s, [Spawn(p, op)] + ([Begin(p)] + ([Query(p, tx)] + rest))) == RunFrom(s', rest)
    ensures s'.tables == s.tables && p in s'.txns && s'.txns == s.txns[p := s'.txns[p]]
    ensures s'.txns[p].op == op && s'.txns[p].phase == Running(1) && s'.txns[p].rows.Keys == {op.First()}
    ensures s'.txns[p].snapshot == s.tables.accounts.Keys
  {
    var s1 := Do(s, Spawn(p, op));
    var s2 := Do(s1, Begin(p));
    assert forall q :: q in s2.txns && q != p ==> s2.txns[q] == s.txns[q];
    assert !Blocked(s2, p);
    s' := Do(s2, Query(p, tx));
    RunFromStep(s2, Query(p, tx), rest);
    RunFromStep(s1, Begin(p), [Query(p, tx)] + rest);
    RunFromStep(s, Spawn(p, op), [Begin(p)] + ([Query(p, tx)] + rest));
  }

  lemma HoldingOneMore(s: State, s': State, ps: seq<Pid>, ops: seq<Op>, i: nat)
    requires i < |ps| == |ops| && Distinct(ps) && Holding(s, ps, ops, i)
    requires forall j :: i < j < |ops| ==> ops[i].First() != ops[j].First()
    requires s'.tables == s.tables && ps[i] in s'.txns && s'.txns == s.txns[ps[i] := s'.txns[ps[i]]]
    requires var y := s'.txns[ps[i]];
             && y.op == ops[i] && y.phase == Running(1) && y.rows.Keys == {ops[i].First()}
             && y.snapshot == s.tables.accounts.Keys
    ensures Holding(s', ps, ops, i + 1)
  {
    forall j, q | i < j < |ps| && q in s'.txns ensures ops[j].First() !in s'.txns[q].rows {
      assert q != ps[i] ==> ops[j].First() !in s.txns[q].rows;
    }
  }

  lemma {:induction false} AllTakeFirstLocks(s: State, ps: seq<Pid>, ops: seq<Op>, tx: TxId, i: nat) returns (s': State)
    requires i <= |ps| == |ops| && Distinct(ps) && forall op :: op in ops ==> op.Valid()
    requires forall j, k :: 0 <= j < k < |ops| ==> ops[j].First() != ops[k].First()
    requires Holding(s, ps, ops, i)
    ensures RunFrom(s, FirstLocks(ps, ops, tx, i)) == Some(s')
    ensures Holding(s', ps, ops, |ps|)
    decreases |ps| - i
  {
    s' := s;
    if i < |ps| {
      assert ops[i] in ops;
      var next := NextLock(s, ps[i], ops[i], tx, FirstLocks(ps, ops, tx, i + 1));
      HoldingOneMore(s, next, ps, ops, i);
      s' := AllTakeFirstLocks(next, ps, ops, tx, i + 1);
    }
  }

  /**
   From any state, calls whose operations form a ring can end up all waiting for each other: it is
   enough that they are new, that their first rows exist and that nobody holds these.
   */
  lemma {:induction false} RingsDeadlock(s: State, ps: seq<Pid>, ops: seq<Op>, tx: TxId) returns (s': State)
    requires |ps| == |ops| && Distinct(ps) && Ring(ops) && forall op :: op in ops ==> op.Valid()
    requires Holding(s, ps, ops, 0)
    ensures RunFrom(s, FirstLocks(ps, ops, tx, 0)) == Some(s')
    ensures WaitCycle(s', ps) && Runs(s', ps, ops)
  {
    s' := AllTakeFirstLocks(s, ps, ops, tx, 0);
    forall i | 0 <= i < |ps| - 1 ensures WaitsFor(s', ps[i], ps[i + 1]) {
      assert ops[i + 1].First() in s'.txns[ps[i + 1]].rows;
    }
    assert ops[0].First() in s'.txns[ps[0]].rows;
  }

  /** Accounts for the first `n` operations to lock. */
  lemma {:induction false} OpenFirstRows(limit: nat, ops: seq<Op>, n: nat) returns (steps: seq<Label>)
    requires n <= |ops|
    ensures Run(limit, steps).Some? && Run(limit, steps).value.txns == map[]
    ensures forall i :: 0 <= i < n ==> ops[i].First() in Run(limit, steps).value.tables.accounts
  {
    steps := [];
    if n > 0 {
      steps := OpenFirstRows(limit, ops, n - 1);
      var id := ops[n - 1].First();
      if id !in Run(limit, steps).value.tables.accounts {
        RunSnoc(limit, steps, Open(id, "", "USD"));
        steps := steps + [Open(id, "", "USD")];
      }
    }
  }

  /** A run in which these calls, with these operations, all wait for each other in turn. */
  ghost predicate Deadlocks(limit: nat, steps: seq<Label>, ps: seq<Pid>, ops: seq<Op>) {
    && Run(limit, steps).Some?
    && WaitCycle(Run(limit, steps).value, ps) && Runs(Run(limit, steps).value, ps, ops)
  }

  /**
   Any number of calls can deadlock exactly when their operations form a ring: opposite transfers,
   transfers in a circle, or a deposit or withdrawal and transfers leading from its account to settlement.
   */
  lemma {:induction false} DeadlockExactly(limit: nat, ps: seq<Pid>, ops: seq<Op>)
    requires |ps| == |ops| && Distinct(ps) && forall op :: op in ops ==> op.Valid()
    ensures (exists steps :: Deadlocks(limit, steps, ps, ops)) <==> Ring(ops)
  {
    if Ring(ops) {
      var accounts := OpenFirstRows(limit, ops, |ops|);
      var s := Run(limit, accounts).value;
      var _ := RingsDeadlock(s, ps, ops, 0);
      RunOnward(limit, accounts, FirstLocks(ps, ops, 0, 0));
      assert Deadlocks(limit, accounts + FirstLocks(ps, ops, 0, 0), ps, ops);
    }
    if steps :| Deadlocks(limit, steps, ps, ops) {
      RunInv(limit, steps);
      CyclesAreRings(Run(limit, steps).value, ps, ops);
    }
  }

  predicate Crossed(a: Op, b: Op) {
    a.First() == b.Second() && a.Second() == b.First() && a.First() != b.First()
  }

  /** Two calls alone: exactly when they lock the same two rows in opposite order. */
  lemma TwoCallsDeadlockExactly(limit: nat, p: Pid, a: Op, q: Pid, b: Op)
    requires p != q && a.Valid() && b.Valid()
    ensures (exists steps :: Deadlocks(limit, steps, [p, q], [a, b])) <==> Crossed(a, b)
  {
    DeadlockExactly(limit, [p, q], [a, b]);
    assert Ring([a, b]) <==> Crossed(a, b);
  }

  /**
   Deposits and withdrawals lock settlement first, transfers their source: so one of the former on an
   account can deadlock with a transfer from it to settlement, but not with one from settlement to it.
   */
  lemma SettlementCrossings(limit: nat, p: Pid, q: Pid, op: Op, account: AccountId, amount: real)
    requires p != q && account != SETTLEMENT && op.Valid() && amount > 0.0
    requires op == Deposit(account, op.amount) || op == Withdraw(account, op.amount)
    ensures exists steps :: Deadlocks(limit, steps, [p, q], [op, Transfer(account, SETTLEMENT, amount)])
    ensures !exists steps :: Deadlocks(limit, steps, [p, q], [op, Transfer(SETTLEMENT, account, amount)])
    ensures exists steps :: Deadlocks(limit, steps, [p, q],
                                      [Transfer(SETTLEMENT, account, amount), Transfer(account, SETTLEMENT, amount)])
  {
    TwoCallsDeadlockExactly(limit, p, op, q, Transfer(account, SETTLEMENT, amount));
    TwoCallsDeadlockExactly(limit, p, op, q, Transfer(SETTLEMENT, account, amount));
    TwoCallsDeadlockExactly(limit, p, Transfer(SETTLEMENT, account, amount), q, Transfer(account, SETTLEMENT, amount));
  }
}
