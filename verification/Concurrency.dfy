/**
 Many calls of ExecTx at once. Each call runs its body query by query; lock steps, inserts, updates,
 commits, failures, rollbacks and retries of different calls interleave freely. Row locks are the
 rows an attempt has read FOR UPDATE, held until it commits or rolls back; inserts and updates stay
 in the attempt's buffer until then.
 */
module Concurrency {
  import opened Wrappers
  import opened Money
  import opened Ledger
  import opened LedgerInvariants
  import opened History

  datatype Phase =
    | Waiting                                       // no attempt open: before the first, or backing off
    | Running(done: nat)                            // `done` queries of the open attempt have returned
    | Aborting(error: Err)                          // the body failed; its rollback is still to come
    | Finished(result: Option<Err>, committed: bool) // ExecTx returned; `committed` is what the tables saw

  /** One call of ExecTx and its open attempt. */
  datatype Txn = Txn(op: Op, attempt: nat, phase: Phase,
                     snapshot: set<AccountId>,       // rows that exist for this attempt
                     rows: map<AccountId, Account>,  // rows locked, as they were read
                     tx: TxId,
                     entries: seq<Entry>,            // inserts not yet committed
                     balances: map<AccountId, int>)  // updates not yet committed

  datatype State = State(limit: nat, tables: Tables, txns: map<Pid, Txn>, usedTx: set<TxId>, history: seq<Event>)

  datatype Label =
    | Spawn(pid: Pid, op: Op)
    | Begin(pid: Pid)
    | Query(pid: Pid, tx: TxId)                     // the next query returns; `tx` is the uuid drawn after the checks
    | Break(pid: Pid, error: Err)                   // begin, query or commit fails, surely without effect
    | Rollback(pid: Pid, clean: bool)
    | Commit(pid: Pid)
    | CommitLost(pid: Pid, applied: bool, error: Err) // the commit's outcome is not known to the caller
    | Cancel(pid: Pid)                              // the context ends during the backoff
    | Open(id: AccountId, name: string, currency: string)

  function Start(limit: nat): State {
    State(limit, SEEDED, map[], {}, [])
  }

  function NewAttempt(op: Op, attempt: nat, phase: Phase): Txn {
    Txn(op, attempt, phase, {}, map[], 0, [], map[])
  }

  /** The end of an attempt that failed: another one after 40001, while any are left. */
  function AttemptFailed(limit: nat, x: Txn, error: Err): Txn {
    if !IsSerializationError(error) then NewAttempt(x.op, x.attempt, Finished(Some(error), false))
    else if x.attempt + 1 < limit then NewAttempt(x.op, x.attempt + 1, Waiting)
    else NewAttempt(x.op, x.attempt, Finished(Some(Wrapped(error)), false))
  }

  /** The row the next query of an attempt is after, while it is one of the two lock queries. */
  function Sought(x: Txn): Option<AccountId> {
    if x.phase == Running(0) then Some(x.op.First())
    else if x.phase == Running(1) then Some(x.op.Second())
    else None
  }

  /** The row it will lock: one that its snapshot does not show is not found, and not waited for. */
  function Wanted(x: Txn): Option<AccountId> {
    if Sought(x).Some? && Sought(x).value in x.snapshot then Sought(x) else None
  }

  predicate Holds(s: State, p: Pid, id: AccountId) {
    p in s.txns && id in s.txns[p].rows
  }

  /** `p` cannot go on because `q` holds the row it wants. */
  predicate WaitsFor(s: State, p: Pid, q: Pid) {
    p in s.txns && p != q && Wanted(s.txns[p]).Some? && Holds(s, q, Wanted(s.txns[p]).value)
  }

  predicate Blocked(s: State, p: Pid) {
    exists q :: q in s.txns && WaitsFor(s, p, q)
  }

  predicate Enabled(s: State, l: Label) {
    match l
    case Spawn(p, op) => p !in s.txns && op.Valid()
    case Begin(p) => p in s.txns && s.txns[p].phase.Waiting?
    case Query(p, tx) =>
      && p in s.txns && s.txns[p].phase.Running? && s.txns[p].phase.done < QUERIES
      && !Blocked(s, p) && (s.txns[p].phase.done == 1 ==> tx !in s.usedTx)
    case Break(p, _) => p in s.txns && (s.txns[p].phase.Waiting? || s.txns[p].phase.Running?)
    case Rollback(p, _) => p in s.txns && s.txns[p].phase.Aborting?
    case Commit(p) => p in s.txns && s.txns[p].phase == Running(QUERIES)
    case CommitLost(p, _, error) =>
      p in s.txns && s.txns[p].phase == Running(QUERIES) && !IsSerializationError(error)
    case Cancel(p) => p in s.txns && s.txns[p].phase.Waiting? && s.txns[p].attempt > 0
    case Open(id, _, _) => id !in s.tables.accounts
  }

  function Put(s: State, p: Pid, x: Txn): State {
    s.(txns := s.txns[p := x])
  }

  /** The body gives up with `error`. */
  function GiveUp(s: State, p: Pid, x: Txn, error: Err): State {
    Put(s, p, x.(phase := Aborting(error))).(history := s.history + [Refused(p, x.op, error)])
  }

  /** A lock query for a row outside the snapshot finds nothing. */
  function RowMissing(s: State, p: Pid, x: Txn, id: AccountId): State {
    if id in s.tables.accounts then Put(s, p, x.(phase := Aborting(MissingRow(x.op))))
    else GiveUp(s, p, x, MissingRow(x.op))
  }

  /** The row `id` is locked and read. */
  function WithRow(t: Tables, x: Txn, id: AccountId): Txn
    requires id in t.accounts
  {
    x.(rows := x.rows[id := t.accounts[id]])
  }

  function LockFirst(s: State, p: Pid, x: Txn): State {
    var id := x.op.First();
    if id !in x.snapshot || id !in s.tables.accounts then RowMissing(s, p, x, id)
    else Put(s, p, WithRow(s.tables, x, id).(phase := Running(1)))
  }

  /** The second lock, the checks on the two rows as read, and the transaction id. */
  function LockSecondAndCheck(s: State, p: Pid, x: Txn, tx: TxId): State {
    var id := x.op.Second();
    if id !in x.snapshot || id !in s.tables.accounts then RowMissing(s, p, x, id)
    else
      var y := WithRow(s.tables, x, id);
      if x.op.First() !in y.rows then s // cannot happen: the first row is locked by now
      else
        match CheckError(x.op, y.rows[x.op.First()], y.rows[id])
        case Some(e) => GiveUp(s, p, y, e)
        case None => Put(s, p, y.(phase := Running(2), tx := tx)).(usedTx := s.usedTx + {tx})
  }

  function WithInsert(x: Txn, second: bool): Txn {
    x.(phase := Running(if second then 4 else 3), entries := x.entries + [x.op.Leg(second, x.tx)])
  }

  function InsertLeg(s: State, p: Pid, x: Txn, second: bool): State {
    match InsertError(s.tables, x.op.Leg(second, x.tx))
    case Some(e) => GiveUp(s, p, x, e)
    case None => Put(s, p, WithInsert(x, second))
  }

  /** The balance this attempt sees: its own update if it made one, else the committed row. */
  function SeenBalance(t: Tables, x: Txn, id: AccountId): int {
    if id in x.balances then x.balances[id] else BalanceOf(t, id)
  }

  function NewBalance(t: Tables, x: Txn, second: bool): int {
    SeenBalance(t, x, x.op.LegAccount(second)) + x.op.Change(second)
  }

  function WithUpdate(t: Tables, x: Txn, second: bool): Txn {
    x.(phase := Running(if second then 6 else 5),
       balances := x.balances[x.op.LegAccount(second) := NewBalance(t, x, second)])
  }

  function UpdateLeg(s: State, p: Pid, x: Txn, second: bool): State {
    if InRange(NewBalance(s.tables, x, second)) then Put(s, p, WithUpdate(s.tables, x, second))
    else GiveUp(s, p, x, NUMERIC_OVERFLOW)
  }

  function RunQuery(s: State, p: Pid, x: Txn, k: nat, tx: TxId): State
    requires k < QUERIES
  {
    if k == 0 then LockFirst(s, p, x)
    else if k == 1 then LockSecondAndCheck(s, p, x, tx)
    else if k == 2 then InsertLeg(s, p, x, false)
    else if k == 3 then InsertLeg(s, p, x, true)
    else if k == 4 then UpdateLeg(s, p, x, false)
    else UpdateLeg(s, p, x, true)
  }

  /** The committed tables once an attempt's buffer reaches them. */
  function Flushed(t: Tables, x: Txn): Tables {
    Tables(map id | id in t.accounts ::
             if id in x.balances then t.accounts[id].(balance := x.balances[id]) else t.accounts[id],
           t.entries + x.entries)
  }

  function Committed(s: State, p: Pid, x: Txn): State {
    s.(tables := Flushed(s.tables, x), history := s.history + [Posting(p, x.op, x.tx)])
  }

  function Do(s: State, l: Label): State
    requires Enabled(s, l)
  {
    match l
    case Spawn(p, op) => Put(s, p, NewAttempt(op, 0, Waiting))
    case Begin(p) => Put(s, p, s.txns[p].(phase := Running(0), snapshot := s.tables.accounts.Keys))
    case Query(p, tx) => RunQuery(s, p, s.txns[p], s.txns[p].phase.done, tx)
    case Break(p, e) =>
      var x := s.txns[p];
      if x.phase.Waiting? then Put(s, p, AttemptFailed(s.limit, x, e))
      else if x.phase.done < QUERIES then Put(s, p, x.(phase := Aborting(e)))
      else Put(s, p, AttemptFailed(s.limit, x, Wrapped(e)))
    case Rollback(p, clean) =>
      var x := s.txns[p];
      Put(s, p, AttemptFailed(s.limit, x, if clean then x.phase.error else Wrapped(x.phase.error)))
    case Commit(p) =>
      var x := s.txns[p];
      Put(Committed(s, p, x), p, NewAttempt(x.op, x.attempt, Finished(None, true)))
    case CommitLost(p, applied, e) =>
      var x := s.txns[p];
      Put(if applied then Committed(s, p, x) else s, p,
          NewAttempt(x.op, x.attempt, Finished(Some(Wrapped(e)), applied)))
    case Cancel(p) => Put(s, p, s.txns[p].(phase := Finished(Some(Cancelled), false)))
    case Open(id, name, currency) =>
      s.(tables := Opened(s.tables, id, name, currency), history := s.history + [Opening(id, name, currency)])
  }

  /** The state after a run of steps, or None when some step was not possible. */
  function Run(limit: nat, steps: seq<Label>): Option<State> {
    if steps == [] then Some(Start(limit))
    else
      match Run(limit, steps[..|steps| - 1])
      case None => None
      case Some(s) =>
        var l := steps[|steps| - 1];
        if Enabled(s, l) then Some(Do(s, l)) else None
  }

  lemma RunSnoc(limit: nat, steps: seq<Label>, l: Label)
    requires Run(limit, steps).Some? && Enabled(Run(limit, steps).value, l)
    ensures Run(limit, steps + [l]) == Some(Do(Run(limit, steps).value, l))
  {
    assert (steps + [l])[..|steps|] == steps;
  }

  /** Steps taken from a given state. */
  function RunFrom(s: State, steps: seq<Label>): Option<State>
    decreases |steps|
  {
    if steps == [] then Some(s)
    else if Enabled(s, steps[0]) then RunFrom(Do(s, steps[0]), steps[1..])
    else None
  }

  lemma RunFromStep(s: State, l: Label, rest: seq<Label>)
    requires Enabled(s, l)
    ensures RunFrom(s, [l] + rest) == RunFrom(Do(s, l), rest)
  {
    assert ([l] + rest)[1..] == rest;
  }

  /** Running on from a reachable state is running. */
  lemma {:induction false} RunOnward(limit: nat, past: seq<Label>, steps: seq<Label>)
    requires Run(limit, past).Some? && RunFrom(Run(limit, past).value, steps).Some?
    ensures Run(limit, past + steps) == RunFrom(Run(limit, past).value, steps)
    decreases |steps|
  {
    if steps == [] {
      assert past + steps == past;
    } else {
      RunSnoc(limit, past, steps[0]);
      RunOnward(limit, past + [steps[0]], steps[1..]);
      assert past + [steps[0]] + steps[1..] == past + steps;
    }
  }

  // ---- Frames ----

  /** A query moves its own attempt and nothing that is committed. */
  lemma QueryFrame(s: State, p: Pid, k: nat, tx: TxId)
    requires p in s.txns && k < QUERIES
    ensures var s' := RunQuery(s, p, s.txns[p], k, tx);
            && s'.tables == s.tables && s'.limit == s.limit && p in s'.txns && s'.txns == s.txns[p := s'.txns[p]]
            && s'.txns[p].op == s.txns[p].op && s'.txns[p].attempt == s.txns[p].attempt
            && (s'.txns[p].phase.Running? || s'.txns[p].phase.Aborting? || s' == s)
  {
  }

  /** A step moves its own call only, and that call keeps its operation. */
  lemma StepFrame(s: State, l: Label, q: Pid)
    requires Enabled(s, l)
    ensures var s' := Do(s, l);
            && s'.limit == s.limit
            && (q in s'.txns <==> q in s.txns || (l.Spawn? && l.pid == q))
            && (q in s.txns ==> s'.txns[q].op == s.txns[q].op)
            && (q in s.txns && (l.Open? || l.pid != q || s.txns[q].phase.Finished?) ==> s'.txns[q] == s.txns[q])
  {
    if l.Query? {
      QueryFrame(s, l.pid, s.txns[l.pid].phase.done, l.tx);
    }
  }

  /** Only commits and openings reach the tables. */
  lemma TablesFrame(s: State, l: Label)
    requires Enabled(s, l)
    ensures !l.Commit? && !l.Open? && !(l.CommitLost? && l.applied) ==> Do(s, l).tables == s.tables
    ensures s.tables.entries <= Do(s, l).tables.entries
    ensures s.tables.accounts.Keys <= Do(s, l).tables.accounts.Keys
  {
    if l.Query? {
      QueryFrame(s, l.pid, s.txns[l.pid].phase.done, l.tx);
    }
  }

  // ---- Invariant ----

  /** The buffer after `k` queries. */
  predicate BufferOk(t: Tables, x: Txn, k: nat) {
    && x.entries == (if k <= 2 then [] else if k == 3 then [x.op.Leg(false, x.tx)]
                     else [x.op.Leg(false, x.tx)] + [x.op.Leg(true, x.tx)])
    && var one := map[x.op.LegAccount(false) := BalanceOf(t, x.op.LegAccount(false)) + x.op.Change(false)];
    x.balances == (if k <= 4 then map[] else if k == 5 then one
                   else one[x.op.LegAccount(true) :=
                            (if x.op.LegAccount(true) in one then one[x.op.LegAccount(true)]
                             else BalanceOf(t, x.op.LegAccount(true))) + x.op.Change(true)])
  }

  /** An open attempt after `k` queries: its locks, its buffer, and no refusal so far. */
  ghost predicate AttemptOk(t: Tables, usedTx: set<TxId>, x: Txn, k: nat) {
    && k <= QUERIES
    && x.rows.Keys == (if k == 0 then {} else if k == 1 then {x.op.First()} else {x.op.First(), x.op.Second()})
    && (forall j :: 0 <= j < k && j < QUERIES ==> StageError(t, x.op, j).None?)
    && (k >= 2 ==> x.tx in usedTx && FreshTx(t, x.tx))
    && BufferOk(t, x, k)
  }

  ghost predicate TxnOk(t: Tables, usedTx: set<TxId>, x: Txn) {
    && x.op.Valid()
    && (forall id :: id in x.rows ==> id in t.accounts && t.accounts[id] == x.rows[id])
    && match x.phase
       case Waiting => x == NewAttempt(x.op, x.attempt, Waiting)
       case Running(k) => AttemptOk(t, usedTx, x, k)
       case Aborting(_) => x.rows != map[] ==> x.op.First() in x.rows
       case Finished(result, committed) => x.rows == map[] && (result.None? ==> committed)
  }

  ghost predicate AllTxnsOk(t: Tables, usedTx: set<TxId>, txns: map<Pid, Txn>) {
    forall p :: p in txns ==> TxnOk(t, usedTx, txns[p])
  }

  ghost predicate Exclusive(txns: map<Pid, Txn>) {
    forall p, q, id :: p in txns && q in txns && p != q && id in txns[p].rows ==> id !in txns[q].rows
  }

  predicate HasTx(x: Txn) {
    x.phase.Running? && x.phase.done >= 2
  }

  ghost predicate DistinctTx(txns: map<Pid, Txn>) {
    forall p, q :: p in txns && q in txns && p != q && HasTx(txns[p]) && HasTx(txns[q]) ==> txns[p].tx != txns[q].tx
  }

  /** How often call `p` changed the ledger. */
  function Postings(history: seq<Event>, p: Pid): nat {
    if history == [] then 0
    else
      var e := history[|history| - 1];
      Postings(history[..|history| - 1], p) + (if e.Posting? && e.pid == p then 1 else 0)
  }

  predicate CountOk(s: State, p: Pid) {
    Postings(s.history, p) ==
    (if p in s.txns && s.txns[p].phase.Finished? && s.txns[p].phase.committed then 1 else 0)
  }

  ghost predicate Inv(s: State) {
    && Replay(s.history) == Some(s.tables)
    && (forall e :: e in s.tables.entries ==> e.tx in s.usedTx)
    && AllTxnsOk(s.tables, s.usedTx, s.txns)
    && Exclusive(s.txns)
    && DistinctTx(s.txns)
    && (forall p :: CountOk(s, p))
  }

  lemma HistoryGrows(h: seq<Event>, e: Event)
    ensures (h + [e])[..|h + [e]| - 1] == h
    ensures Replay(h).Some? ==> Replay(h + [e]) == Step(Replay(h).value, e)
    ensures forall p :: Postings(h + [e], p) == Postings(h, p) + (if e.Posting? && e.pid == p then 1 else 0)
  {
    assert (h + [e])[..|h + [e]| - 1] == h;
  }

  /** A query's verdict depends only on the two rows it is about. */
  lemma StageErrorFrame(t: Tables, t': Tables, op: Op, k: nat)
    requires k < QUERIES
    requires op.First() in t.accounts && op.First() in t'.accounts && t.accounts[op.First()] == t'.accounts[op.First()]
    requires k > 0 ==> op.Second() in t.accounts && op.Second() in t'.accounts
    requires k > 0 ==> t.accounts[op.Second()] == t'.accounts[op.Second()]
    ensures StageError(t, op, k) == StageError(t', op, k)
  {
    assert forall second :: op.LegAccount(second) == op.First() || op.LegAccount(second) == op.Second();
  }

  /** An attempt is untouched by table changes outside the rows it has locked. */
  lemma TxnFrame(t: Tables, t': Tables, usedTx: set<TxId>, x: Txn)
    requires TxnOk(t, usedTx, x)
    requires forall id :: id in x.rows && id in t.accounts ==> id in t'.accounts && t'.accounts[id] == t.accounts[id]
    requires HasTx(x) && FreshTx(t, x.tx) ==> FreshTx(t', x.tx)
    ensures TxnOk(t', usedTx, x)
  {
    if x.phase.Running? {
      var k := x.phase.done;
      forall j | 0 <= j < k && j < QUERIES ensures StageError(t', x.op, j).None? {
        assert x.op.First() in x.rows;
        assert j > 0 ==> x.op.Second() in x.rows;
        StageErrorFrame(t, t', x.op, j);
      }
      if k >= 2 {
        assert x.op.First() in x.rows && x.op.Second() in x.rows;
        assert forall second :: x.op.LegAccount(second) == x.op.First() || x.op.LegAccount(second) == x.op.Second();
      }
    }
  }

  /** A complete attempt has met no refusal, and its id is still fresh. */
  lemma CompleteIsAccepted(t: Tables, usedTx: set<TxId>, x: Txn)
    requires TxnOk(t, usedTx, x) && x.phase == Running(QUERIES)
    ensures Refusal(t, x.op).None? && FreshTx(t, x.tx)
  {
    NoRefusal(t, x.op, 0);
  }

  /** Its buffer, written out, is the four writes of the operation. */
  lemma FlushIsPosting(t: Tables, usedTx: set<TxId>, x: Txn)
    requires TxnOk(t, usedTx, x) && x.phase == Running(QUERIES)
    requires x.op.Debited() in t.accounts && x.op.Credited() in t.accounts
    ensures Flushed(t, x) == Posted(t, x.op, x.tx)
  {
    WritesMakePosting(t, x.op, x.tx);
    assert Flushed(t, x).accounts == Adjusted(Adjusted(t.accounts, x.op.LegAccount(false), x.op.Change(false)),
                                              x.op.LegAccount(true), x.op.Change(true));
    assert t.entries + x.entries == t.entries + [x.op.Leg(false, x.tx)] + [x.op.Leg(true, x.tx)];
  }

  /** The commit of a complete attempt is the atomic operation. */
  lemma CommitIsAtomic(t: Tables, usedTx: set<TxId>, x: Txn)
    requires TxnOk(t, usedTx, x) && x.phase == Running(QUERIES)
    ensures Atomic(t, x.op, x.tx) == Ok(Flushed(t, x))
    ensures FreshTx(t, x.tx)
  {
    CompleteIsAccepted(t, usedTx, x);
    AcceptedFacts(t, x.op);
    FlushIsPosting(t, usedTx, x);
  }

  /** A body that gives up after `k` clean queries gives up as the atomic operation would. */
  lemma RefusalIsAtomic(t: Tables, op: Op, k: nat, e: Err)
    requires k < QUERIES && StageError(t, op, k) == Some(e)
    requires forall j :: 0 <= j < k ==> StageError(t, op, j).None?
    ensures Refusal(t, op) == Some(e)
  {
    FirstRefusal(t, op, 0, k);
  }

  lemma LocalTxns(s: State, p: Pid, x: Txn, usedTx: set<TxId>)
    requires s.usedTx <= usedTx && TxnOk(s.tables, usedTx, x)
    requires AllTxnsOk(s.tables, s.usedTx, s.txns)
    ensures AllTxnsOk(s.tables, usedTx, s.txns[p := x])
  {
    forall q | q in s.txns && q != p ensures TxnOk(s.tables, usedTx, s.txns[q]) {
      assert TxnOk(s.tables, s.usedTx, s.txns[q]);
    }
  }

  lemma LocalDistinctTx(s: State, p: Pid, x: Txn)
    requires DistinctTx(s.txns)
    requires forall q :: q in s.txns && HasTx(s.txns[q]) ==> s.txns[q].tx in s.usedTx
    requires HasTx(x) ==> (p in s.txns && HasTx(s.txns[p]) && s.txns[p].tx == x.tx) || x.tx !in s.usedTx
    ensures DistinctTx(s.txns[p := x])
  {
  }

  /** Steps that change one call and nothing in the tables. */
  lemma LocalStep(s: State, p: Pid, x: Txn, usedTx: set<TxId>)
    requires Inv(s) && s.usedTx <= usedTx
    requires TxnOk(s.tables, usedTx, x)
    requires forall q, id :: q in s.txns && q != p && id in s.txns[q].rows ==> id !in x.rows
    requires HasTx(x) ==> (p in s.txns && HasTx(s.txns[p]) && s.txns[p].tx == x.tx) || x.tx !in s.usedTx
    requires x.phase.Finished? ==> !x.phase.committed
    requires p in s.txns && s.txns[p].phase.Finished? ==> !s.txns[p].phase.committed
    ensures Inv(Put(s, p, x).(usedTx := usedTx))
  {
    var s' := Put(s, p, x).(usedTx := usedTx);
    forall q ensures CountOk(s', q) {
      assert CountOk(s, q);
    }
    LocalTxns(s, p, x, usedTx);
    LocalDistinctTx(s, p, x);
  }

  /** The same for a step that draws no transaction id. */
  lemma OwnStep(s: State, p: Pid, x: Txn)
    requires Inv(s) && p in s.txns && !s.txns[p].phase.Finished? && !x.phase.Finished?
    requires TxnOk(s.tables, s.usedTx, x)
    requires forall q, id :: q in s.txns && q != p && id in s.txns[q].rows ==> id !in x.rows
    requires HasTx(x) ==> HasTx(s.txns[p]) && s.txns[p].tx == x.tx
    ensures Inv(Put(s, p, x))
  {
    LocalStep(s, p, x, s.usedTx);
    assert Put(s, p, x).(usedTx := s.usedTx) == Put(s, p, x);
  }

  /** A refusal goes into the history without touching the tables. */
  lemma {:induction false} RefusalStep(s: State, p: Pid, x: Txn, e: Err)
    requires Inv(s) && p in s.txns && !s.txns[p].phase.Finished?
    requires TxnOk(s.tables, s.usedTx, x.(phase := Aborting(e)))
    requires Refusal(s.tables, x.op) == Some(e)
    requires forall q, id :: q in s.txns && q != p && id in s.txns[q].rows ==> id !in x.rows
    ensures Inv(GiveUp(s, p, x, e))
  {
    var y := x.(phase := Aborting(e));
    OwnStep(s, p, y);
    var s1 := Put(s, p, y);
    HistoryGrows(s.history, Refused(p, x.op, e));
    forall q ensures CountOk(GiveUp(s, p, x, e), q) {
      assert CountOk(s1, q);
    }
  }

  lemma {:induction false} QueryStep(s: State, p: Pid, tx: TxId)
    requires Inv(s) && Enabled(s, Query(p, tx))
    ensures Inv(Do(s, Query(p, tx)))
  {
    var x := s.txns[p];
    assert TxnOk(s.tables, s.usedTx, x);
    var k := x.phase.done;
    if k < 2 {
      LockStep(s, p, tx);
    } else if k < 4 {
      InsertStep(s, p, k == 3);
    } else {
      UpdateStep(s, p, k == 5);
    }
  }

  /** An unblocked lock query meets no other holder. */
  lemma UnblockedMeansFree(s: State, p: Pid)
    requires p in s.txns && Wanted(s.txns[p]).Some? && !Blocked(s, p)
    ensures forall q :: q in s.txns && q != p ==> Wanted(s.txns[p]).value !in s.txns[q].rows
  {
    forall q | q in s.txns && q != p ensures Wanted(s.txns[p]).value !in s.txns[q].rows {
      assert !WaitsFor(s, p, q);
    }
  }

  lemma {:induction false} LockStep(s: State, p: Pid, tx: TxId)
    requires Inv(s) && Enabled(s, Query(p, tx)) && s.txns[p].phase.done < 2
    ensures Inv(Do(s, Query(p, tx)))
  {
    var x := s.txns[p];
    var k := x.phase.done;
    var id := Sought(x).value;
    assert TxnOk(s.tables, s.usedTx, x);
    if id !in s.tables.accounts {
      RefuseStep(s, p, MissingRow(x.op));
    } else if id !in x.snapshot {
      OwnStep(s, p, x.(phase := Aborting(MissingRow(x.op))));
    } else if k == 0 {
      UnblockedMeansFree(s, p);
      OwnStep(s, p, WithRow(s.tables, x, id).(phase := Running(1)));
    } else {
      UnblockedMeansFree(s, p);
      SecondLockStep(s, p, tx);
    }
  }

  /** Both rows locked, checks passed, id drawn. */
  lemma SecondLockKeepsAttempt(t: Tables, usedTx: set<TxId>, x: Txn, tx: TxId)
    requires TxnOk(t, usedTx, x) && x.phase == Running(1) && x.op.Second() in t.accounts
    requires StageError(t, x.op, 1).None? && FreshTx(t, tx)
    ensures TxnOk(t, usedTx + {tx}, WithRow(t, x, x.op.Second()).(phase := Running(2), tx := tx))
  {
  }

  lemma {:induction false} SecondLockStep(s: State, p: Pid, tx: TxId)
    requires Inv(s) && p in s.txns && s.txns[p].phase == Running(1) && tx !in s.usedTx
    requires forall q :: q in s.txns && q != p ==> s.txns[p].op.Second() !in s.txns[q].rows
    requires s.txns[p].op.Second() in s.tables.accounts && s.txns[p].op.Second() in s.txns[p].snapshot
    ensures Inv(LockSecondAndCheck(s, p, s.txns[p], tx))
  {
    var x := s.txns[p];
    assert TxnOk(s.tables, s.usedTx, x);
    assert x.op.First() in x.rows && StageError(s.tables, x.op, 0).None?;
    var y := WithRow(s.tables, x, x.op.Second());
    match StageError(s.tables, x.op, 1)
    case Some(e) =>
      RefusalIsAtomic(s.tables, x.op, 1, e);
      RefusalStep(s, p, y, e);
    case None =>
      assert FreshTx(s.tables, tx);
      SecondLockKeepsAttempt(s.tables, s.usedTx, x, tx);
      LocalStep(s, p, y.(phase := Running(2), tx := tx), s.usedTx + {tx});
  }

  lemma InsertKeepsAttempt(t: Tables, usedTx: set<TxId>, x: Txn, second: bool)
    requires TxnOk(t, usedTx, x) && x.phase == Running(if second then 3 else 2)
    ensures StageError(t, x.op, x.phase.done) == InsertError(t, x.op.Leg(second, x.tx))
    ensures InsertError(t, x.op.Leg(second, x.tx)).None? ==> TxnOk(t, usedTx, WithInsert(x, second))
  {
  }

  lemma UpdateKeepsAttempt(t: Tables, usedTx: set<TxId>, x: Txn, second: bool)
    requires TxnOk(t, usedTx, x) && x.phase == Running(if second then 5 else 4)
    ensures StageError(t, x.op, x.phase.done)
         == (if InRange(NewBalance(t, x, second)) then None else Some(NUMERIC_OVERFLOW))
    ensures InRange(NewBalance(t, x, second)) ==> TxnOk(t, usedTx, WithUpdate(t, x, second))
  {
  }

  lemma {:induction false} RefuseStep(s: State, p: Pid, e: Err)
    requires Inv(s) && p in s.txns && s.txns[p].phase.Running? && s.txns[p].phase.done < QUERIES
    requires StageError(s.tables, s.txns[p].op, s.txns[p].phase.done) == Some(e)
    ensures Inv(GiveUp(s, p, s.txns[p], e))
  {
    var x := s.txns[p];
    assert TxnOk(s.tables, s.usedTx, x);
    RefusalIsAtomic(s.tables, x.op, x.phase.done, e);
    RefusalStep(s, p, x, e);
  }

  lemma {:induction false} InsertStep(s: State, p: Pid, second: bool)
    requires Inv(s) && p in s.txns && s.txns[p].phase == Running(if second then 3 else 2)
    ensures Inv(InsertLeg(s, p, s.txns[p], second))
  {
    var x := s.txns[p];
    InsertKeepsAttempt(s.tables, s.usedTx, x, second);
    match InsertError(s.tables, x.op.Leg(second, x.tx))
    case Some(e) => RefuseStep(s, p, e);
    case None => OwnStep(s, p, WithInsert(x, second));
  }

  lemma {:induction false} UpdateStep(s: State, p: Pid, second: bool)
    requires Inv(s) && p in s.txns && s.txns[p].phase == Running(if second then 5 else 4)
    ensures Inv(UpdateLeg(s, p, s.txns[p], second))
  {
    var x := s.txns[p];
    UpdateKeepsAttempt(s.tables, s.usedTx, x, second);
    if InRange(NewBalance(s.tables, x, second)) {
      OwnStep(s, p, WithUpdate(s.tables, x, second));
    } else {
      RefuseStep(s, p, NUMERIC_OVERFLOW);
    }
  }

  /** A complete attempt writes only rows it has locked, and entries under its own id. */
  lemma FlushIsLocal(t: Tables, usedTx: set<TxId>, x: Txn)
    requires TxnOk(t, usedTx, x) && x.phase == Running(QUERIES)
    ensures x.balances.Keys <= x.rows.Keys
    ensures forall e :: e in x.entries ==> e.tx == x.tx
  {
    assert forall second :: x.op.LegAccount(second) == x.op.First() || x.op.LegAccount(second) == x.op.Second();
  }

  /** The other calls do not notice a commit: it writes only rows its own attempt has locked. */
  lemma CommitFrame(s: State, p: Pid, q: Pid)
    requires Inv(s) && p in s.txns && s.txns[p].phase == Running(QUERIES) && q in s.txns && q != p
    ensures TxnOk(Flushed(s.tables, s.txns[p]), s.usedTx, s.txns[q])
  {
    var x, y := s.txns[p], s.txns[q];
    FlushIsLocal(s.tables, s.usedTx, x);
    assert forall id :: id in y.rows ==> id !in x.rows;
    TxnFrame(s.tables, Flushed(s.tables, x), s.usedTx, y);
  }

  /** What a commit inserts bears an id that has been drawn. */
  lemma CommitUsesItsId(t: Tables, usedTx: set<TxId>, x: Txn)
    requires TxnOk(t, usedTx, x) && x.phase == Running(QUERIES)
    requires forall e :: e in t.entries ==> e.tx in usedTx
    ensures forall e :: e in Flushed(t, x).entries ==> e.tx in usedTx
  {
    FlushIsLocal(t, usedTx, x);
  }

  /** The serial history goes on with the posting. */
  lemma CommitReplays(t: Tables, usedTx: set<TxId>, x: Txn, history: seq<Event>, p: Pid)
    requires TxnOk(t, usedTx, x) && x.phase == Running(QUERIES) && Replay(history) == Some(t)
    ensures Replay(history + [Posting(p, x.op, x.tx)]) == Some(Flushed(t, x))
  {
    CommitIsAtomic(t, usedTx, x);
    HistoryGrows(history, Posting(p, x.op, x.tx));
  }

  lemma {:induction false} CommitTxns(s: State, p: Pid, x': Txn)
    requires Inv(s) && p in s.txns && s.txns[p].phase == Running(QUERIES)
    requires x'.rows == map[] && !HasTx(x') && TxnOk(Flushed(s.tables, s.txns[p]), s.usedTx, x')
    ensures AllTxnsOk(Flushed(s.tables, s.txns[p]), s.usedTx, s.txns[p := x'])
    ensures Exclusive(s.txns[p := x']) && DistinctTx(s.txns[p := x'])
  {
    forall q | q in s.txns && q != p ensures TxnOk(Flushed(s.tables, s.txns[p]), s.usedTx, s.txns[q]) {
      CommitFrame(s, p, q);
    }
  }

  /** A commit counts once, for its own call. */
  lemma CommitCounts(s: State, p: Pid, result: Option<Err>, q: Pid)
    requires CountOk(s, q) && p in s.txns && !s.txns[p].phase.Finished?
    ensures var x := s.txns[p];
            CountOk(Put(Committed(s, p, x), p, NewAttempt(x.op, x.attempt, Finished(result, true))), q)
  {
    HistoryGrows(s.history, Posting(p, s.txns[p].op, s.txns[p].tx));
  }

  /** A commit that reaches the tables, whatever its caller is told. */
  lemma {:induction false} CommitStep(s: State, p: Pid, result: Option<Err>)
    requires Inv(s) && p in s.txns && s.txns[p].phase == Running(QUERIES)
    ensures var x := s.txns[p];
            Inv(Put(Committed(s, p, x), p, NewAttempt(x.op, x.attempt, Finished(result, true))))
  {
    var x := s.txns[p];
    var x' := NewAttempt(x.op, x.attempt, Finished(result, true));
    assert TxnOk(s.tables, s.usedTx, x);
    CommitReplays(s.tables, s.usedTx, x, s.history, p);
    CommitUsesItsId(s.tables, s.usedTx, x);
    CommitTxns(s, p, x');
    forall q ensures CountOk(Put(Committed(s, p, x), p, x'), q) {
      CommitCounts(s, p, result, q);
    }
  }

  lemma OpenStep(s: State, id: AccountId, name: string, currency: string)
    requires Inv(s) && id !in s.tables.accounts
    ensures Inv(Do(s, Open(id, name, currency)))
  {
    var s' := Do(s, Open(id, name, currency));
    HistoryGrows(s.history, Opening(id, name, currency));
    forall q | q in s'.txns ensures TxnOk(s'.tables, s'.usedTx, s'.txns[q]) {
      assert TxnOk(s.tables, s.usedTx, s.txns[q]);
      TxnFrame(s.tables, s'.tables, s.usedTx, s.txns[q]);
    }
    forall q ensures CountOk(s', q) {
      assert CountOk(s, q);
    }
  }

  /** Steps of one call that only change its phase or drop its attempt. */
  lemma PhaseStep(s: State, p: Pid, x: Txn)
    requires Inv(s) && x.op.Valid() && x.rows == map[] && !HasTx(x)
    requires p in s.txns ==> !s.txns[p].phase.Finished?
    requires TxnOk(s.tables, s.usedTx, x)
    requires x.phase.Finished? ==> !x.phase.committed
    ensures Inv(Put(s, p, x))
  {
    LocalStep(s, p, x, s.usedTx);
    assert Put(s, p, x).(usedTx := s.usedTx) == Put(s, p, x);
  }

  /** The end of a failed attempt, from any phase of it. */
  lemma AttemptFailedStep(s: State, p: Pid, e: Err)
    requires Inv(s) && p in s.txns && !s.txns[p].phase.Finished?
    ensures Inv(Put(s, p, AttemptFailed(s.limit, s.txns[p], e)))
  {
    assert TxnOk(s.tables, s.usedTx, s.txns[p]);
    PhaseStep(s, p, AttemptFailed(s.limit, s.txns[p], e));
  }

  lemma {:induction false} BreakStep(s: State, p: Pid, e: Err)
    requires Inv(s) && Enabled(s, Break(p, e))
    ensures Inv(Do(s, Break(p, e)))
  {
    var x := s.txns[p];
    if x.phase.Running? && x.phase.done < QUERIES {
      assert TxnOk(s.tables, s.usedTx, x);
      OwnStep(s, p, x.(phase := Aborting(e)));
    } else {
      AttemptFailedStep(s, p, if x.phase.Running? then Wrapped(e) else e);
    }
  }

  /** Every step of every call keeps the invariant. */
  lemma StepKeepsInv(s: State, l: Label)
    requires Inv(s) && Enabled(s, l)
    ensures Inv(Do(s, l))
  {
    match l
    case Query(p, tx) => QueryStep(s, p, tx);
    case Commit(p) => CommitStep(s, p, None);
    case CommitLost(p, applied, e) =>
      if applied {
        CommitStep(s, p, Some(Wrapped(e)));
      } else {
        assert TxnOk(s.tables, s.usedTx, s.txns[p]);
        PhaseStep(s, p, NewAttempt(s.txns[p].op, s.txns[p].attempt, Finished(Some(Wrapped(e)), false)));
      }
    case Open(id, name, currency) => OpenStep(s, id, name, currency);
    case Break(p, e) => BreakStep(s, p, e);
    case Rollback(p, clean) =>
      AttemptFailedStep(s, p, if clean then s.txns[p].phase.error else Wrapped(s.txns[p].phase.error));
    case Spawn(p, op) => PhaseStep(s, p, NewAttempt(op, 0, Waiting));
    case _ =>
      assert TxnOk(s.tables, s.usedTx, s.txns[l.pid]);
      PhaseStep(s, l.pid, Do(s, l).txns[l.pid]);
  }

  lemma {:induction false} RunInv(limit: nat, steps: seq<Label>)
    requires Run(limit, steps).Some?
    ensures Inv(Run(limit, steps).value)
  {
    if steps != [] {
      RunInv(limit, steps[..|steps| - 1]);
      StepKeepsInv(Run(limit, steps[..|steps| - 1]).value, steps[|steps| - 1]);
    }
  }

  /** Some run of calls leads here. */
  ghost predicate Reachable(s: State) {
    exists limit, steps :: Run(limit, steps) == Some(s)
  }

  lemma ReachableInv(s: State)
    requires Reachable(s)
    ensures Inv(s)
  {
    var limit, steps :| Run(limit, steps) == Some(s);
    RunInv(limit, steps);
  }

  lemma StepReaches(s: State, l: Label)
    requires Reachable(s) && Enabled(s, l)
    ensures Reachable(Do(s, l))
  {
    var limit, steps :| Run(limit, steps) == Some(s);
    RunSnoc(limit, steps, l);
  }
}
