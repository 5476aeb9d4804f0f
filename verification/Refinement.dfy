/**
 What the interleaved system of module Concurrency amounts to, over whole runs: a serial history of
 atomic operations, logged in commit order, with each call in it once or not at all.
 */
module Refinement {
  import opened Wrappers
  import opened Ledger
  import opened LedgerInvariants
  import opened History
  import opened Concurrency

  // ---- The log of a run ----

  /** The attempt is after a row that was created since it began, which it cannot see. */
  predicate HiddenRow(s: State, x: Txn) {
    Sought(x).Some? && Sought(x).value in s.tables.accounts && Sought(x).value !in x.snapshot
  }

  /** What a step means to the serial history, told by its label and the tables it is taken on. */
  function Events(s: State, l: Label): seq<Event>
    requires Enabled(s, l)
  {
    match l
    case Commit(p) => [Posting(p, s.txns[p].op, s.txns[p].tx)]
    case CommitLost(p, applied, _) => if applied then [Posting(p, s.txns[p].op, s.txns[p].tx)] else []
    case Open(id, name, currency) => [Opening(id, name, currency)]
    case Query(p, _) =>
      var x := s.txns[p];
      if HiddenRow(s, x) || StageError(s.tables, x.op, x.phase.done).None? then []
      else [Refused(p, x.op, StageError(s.tables, x.op, x.phase.done).value)]
    case _ => []
  }

  /** The log of a whole run. */
  function Log(limit: nat, steps: seq<Label>): seq<Event>
    requires Run(limit, steps).Some?
  {
    if steps == [] then []
    else
      var before := steps[..|steps| - 1];
      Log(limit, before) + Events(Run(limit, before).value, steps[|steps| - 1])
  }

  /** The body of `p` has given up with `e`, and is to be rolled back. */
  predicate GaveUp(s: State, p: Pid, e: Err) {
    p in s.txns && s.txns[p].phase == Aborting(e)
  }

  /** A query's verdict is logged, and is what the body gives up with; a hidden row counts as missing. */
  ghost predicate Reports(s: State, s': State, p: Pid, hidden: bool, verdict: Option<Err>)
    requires p in s.txns
  {
    && s'.history == s.history + (if hidden || verdict.None? then [] else [Refused(p, s.txns[p].op, verdict.value)])
    && forall e :: GaveUp(s', p, e) ==> if hidden then e == MissingRow(s.txns[p].op) else verdict == Some(e)
  }

  lemma FirstLockReports(s: State, p: Pid)
    requires p in s.txns && s.txns[p].phase == Running(0)
    ensures var x := s.txns[p];
            Reports(s, LockFirst(s, p, x), p, HiddenRow(s, x), StageError(s.tables, x.op, 0))
  {
  }

  lemma SecondLockReports(s: State, p: Pid, tx: TxId)
    requires p in s.txns && s.txns[p].phase == Running(1) && TxnOk(s.tables, s.usedTx, s.txns[p])
    ensures var x := s.txns[p];
            Reports(s, LockSecondAndCheck(s, p, x, tx), p, HiddenRow(s, x), StageError(s.tables, x.op, 1))
  {
    assert s.txns[p].op.First() in s.txns[p].rows;
  }

  lemma InsertReports(s: State, p: Pid, second: bool)
    requires p in s.txns && s.txns[p].phase == Running(if second then 3 else 2)
    requires TxnOk(s.tables, s.usedTx, s.txns[p])
    ensures var x := s.txns[p];
            Reports(s, InsertLeg(s, p, x, second), p, false, StageError(s.tables, x.op, x.phase.done))
  {
    InsertKeepsAttempt(s.tables, s.usedTx, s.txns[p], second);
  }

  lemma UpdateReports(s: State, p: Pid, second: bool)
    requires p in s.txns && s.txns[p].phase == Running(if second then 5 else 4)
    requires TxnOk(s.tables, s.usedTx, s.txns[p])
    ensures var x := s.txns[p];
            Reports(s, UpdateLeg(s, p, x, second), p, false, StageError(s.tables, x.op, x.phase.done))
  {
    UpdateKeepsAttempt(s.tables, s.usedTx, s.txns[p], second);
  }

  lemma QueryReports(s: State, p: Pid, tx: TxId)
    requires Inv(s) && Enabled(s, Query(p, tx))
    ensures var x := s.txns[p];
            Reports(s, Do(s, Query(p, tx)), p, HiddenRow(s, x), StageError(s.tables, x.op, x.phase.done))
  {
    var k := s.txns[p].phase.done;
    assert TxnOk(s.tables, s.usedTx, s.txns[p]);
    if k == 0 {
      FirstLockReports(s, p);
    } else if k == 1 {
      SecondLockReports(s, p, tx);
    } else if k < 4 {
      InsertReports(s, p, k == 3);
    } else {
      UpdateReports(s, p, k == 5);
    }
  }

  lemma StepLogs(s: State, l: Label)
    requires Inv(s) && Enabled(s, l)
    ensures Do(s, l).history == s.history + Events(s, l)
  {
    match l
    case Query(p, tx) => QueryReports(s, p, tx);
    case _ =>
  }

  /** The history a state carries is the log of the run that led there. */
  lemma {:induction false} HistoryIsLog(limit: nat, steps: seq<Label>)
    requires Run(limit, steps).Some?
    ensures Run(limit, steps).value.history == Log(limit, steps)
  {
    if steps != [] {
      var before := steps[..|steps| - 1];
      HistoryIsLog(limit, before);
      RunInv(limit, before);
      StepLogs(Run(limit, before).value, steps[|steps| - 1]);
    }
  }

  /** Every logged operation is one that its call was made for; what is posted, its call committed. */
  ghost predicate EventOk(s: State, e: Event) {
    match e
    case Posting(p, op, _) =>
      p in s.txns && s.txns[p].op == op && s.txns[p].phase.Finished? && s.txns[p].phase.committed
    case Refused(p, op, _) => p in s.txns && s.txns[p].op == op
    case Opening(_, _, _) => true
  }

  lemma StepKeepsEvent(s: State, l: Label, e: Event)
    requires Enabled(s, l) && EventOk(s, e)
    ensures EventOk(Do(s, l), e)
  {
    if !e.Opening? {
      StepFrame(s, l, e.pid);
    }
  }

  lemma NewEventOk(s: State, l: Label, e: Event)
    requires Enabled(s, l) && e in Events(s, l)
    ensures EventOk(Do(s, l), e)
  {
    if l.Query? {
      StepFrame(s, l, l.pid);
    }
  }

  lemma {:induction false} LogIsOfCalls(limit: nat, steps: seq<Label>)
    requires Run(limit, steps).Some?
    ensures forall e :: e in Log(limit, steps) ==> EventOk(Run(limit, steps).value, e)
  {
    if steps != [] {
      var before, l := steps[..|steps| - 1], steps[|steps| - 1];
      var s := Run(limit, before).value;
      LogIsOfCalls(limit, before);
      forall e | e in Log(limit, steps) ensures EventOk(Do(s, l), e) {
        if e in Log(limit, before) {
          StepKeepsEvent(s, l, e);
        } else {
          NewEventOk(s, l, e);
        }
      }
    }
  }

  /**
   The query-level system refines the serial one: in every reachable state the committed tables are
   those of running the logged operations one at a time in commit order, each the operation of the
   call that committed it, with every logged refusal being the refusal the operation meets there; so
   the ledger invariant holds at every moment.
   */
  lemma {:induction false} ConcurrentRefinesSerial(limit: nat, steps: seq<Label>)
    requires Run(limit, steps).Some?
    ensures var s := Run(limit, steps).value;
            && s.history == Log(limit, steps)
            && Replay(s.history) == Some(s.tables) && Invariant(s.tables)
            && (forall e :: e in s.history ==> EventOk(s, e))
  {
    RunInv(limit, steps);
    HistoryIsLog(limit, steps);
    LogIsOfCalls(limit, steps);
    ReplayKeepsInvariant(Run(limit, steps).value.history);
  }

  lemma ReachableEventsOk(s: State)
    requires Reachable(s)
    ensures forall e :: e in s.history ==> EventOk(s, e)
  {
    var limit, steps :| Run(limit, steps) == Some(s);
    ConcurrentRefinesSerial(limit, steps);
  }

  // ---- What one call does ----

  /** The commit of this call was applied, and its caller not told. */
  ghost predicate CommitWasLost(steps: seq<Label>, p: Pid) {
    exists e :: CommitLost(p, true, e) in steps
  }

  /** The call returned an error although its operation is in the tables. */
  predicate FailedButPosted(s: State, p: Pid) {
    p in s.txns && s.txns[p].phase.Finished? && s.txns[p].phase.committed && s.txns[p].phase.result.Some?
  }

  lemma StepLosesCommit(s: State, l: Label, p: Pid)
    requires Enabled(s, l)
    ensures FailedButPosted(Do(s, l), p) <==> FailedButPosted(s, p) || (l.CommitLost? && l.pid == p && l.applied)
  {
    if l.Open? || l.pid != p {
      StepFrame(s, l, p);
    } else if l.Query? {
      QueryFrame(s, p, s.txns[p].phase.done, l.tx);
    }
  }

  lemma {:induction false} LostCommitsShow(limit: nat, steps: seq<Label>, p: Pid)
    requires Run(limit, steps).Some?
    ensures FailedButPosted(Run(limit, steps).value, p) <==> CommitWasLost(steps, p)
  {
    if steps != [] {
      var before, l := steps[..|steps| - 1], steps[|steps| - 1];
      LostCommitsShow(limit, before, p);
      StepLosesCommit(Run(limit, before).value, l, p);
      assert steps == before + [l];
      assert forall e :: CommitLost(p, true, e) in steps
                         <==> CommitLost(p, true, e) in before || CommitLost(p, true, e) == l;
    }
  }

  /** An attempt that is open or over has run one body, an earlier one at most one each. */
  predicate BodiesOk(s: State, p: Pid, bodies: nat) {
    if p !in s.txns then bodies == 0
    else
      && bodies <= s.txns[p].attempt + (if s.txns[p].phase.Waiting? then 0 else 1)
      && (s.txns[p].attempt == 0 || s.txns[p].attempt < s.limit)
  }

  lemma StepCountsBodies(s: State, l: Label, p: Pid, bodies: nat)
    requires Enabled(s, l) && BodiesOk(s, p, bodies)
    ensures BodiesOk(Do(s, l), p, bodies + (if l == Begin(p) then 1 else 0))
  {
    StepFrame(s, l, p);
    if l.Query? && l.pid == p {
      QueryFrame(s, p, s.txns[p].phase.done, l.tx);
    }
  }

  lemma {:induction false} BodiesAreBounded(limit: nat, steps: seq<Label>, p: Pid)
    requires Run(limit, steps).Some?
    ensures BodiesOk(Run(limit, steps).value, p, multiset(steps)[Begin(p)]) && Run(limit, steps).value.limit == limit
  {
    if steps != [] {
      var before := steps[..|steps| - 1];
      BodiesAreBounded(limit, before, p);
      assert steps == before + [steps[|steps| - 1]];
      StepCountsBodies(Run(limit, before).value, steps[|steps| - 1], p, multiset(before)[Begin(p)]);
      StepFrame(Run(limit, before).value, steps[|steps| - 1], p);
    }
  }

  /**
   Exactly once on nil, at most once on an error: a call that returned nil has posted once; a call
   that returned an error has posted once if its commit was lost, and else not at all; a call still
   going on has not posted. And no call runs its body more often than the attempt bound says.
   */
  lemma {:induction false} CallPostsAtMostOnce(limit: nat, steps: seq<Label>, p: Pid)
    requires Run(limit, steps).Some?
    requires p in Run(limit, steps).value.txns
    ensures var s := Run(limit, steps).value;
            var phase := s.txns[p].phase;
            && Postings(s.history, p) <= 1
            && (phase.Finished? && phase.result.None? ==> Postings(s.history, p) == 1)
            && (phase.Finished? && phase.result.Some? ==> (Postings(s.history, p) == 1 <==> CommitWasLost(steps, p)))
            && (!phase.Finished? ==> Postings(s.history, p) == 0)
    ensures limit > 0 ==> multiset(steps)[Begin(p)] <= limit
  {
    RunInv(limit, steps);
    LostCommitsShow(limit, steps, p);
    BodiesAreBounded(limit, steps, p);
    var s := Run(limit, steps).value;
    assert CountOk(s, p) && TxnOk(s.tables, s.usedTx, s.txns[p]);
  }

  /**
   The check after the second lock sees what the serial history holds, although the first row was
   read earlier: it passes or refuses as it would if the operation ran there all at once.
   */
  lemma {:induction false} CheckVerdictIsSerial(limit: nat, steps: seq<Label>, p: Pid, tx: TxId)
    requires Run(limit, steps).Some? && Enabled(Run(limit, steps).value, Query(p, tx))
    requires var s := Run(limit, steps).value;
             var x := s.txns[p];
             x.phase == Running(1) && x.op.Second() in x.snapshot && x.op.Second() in s.tables.accounts
    ensures var s := Run(limit, steps).value;
            var op := s.txns[p].op;
            var t := Replay(s.history);
            && t.Some? && op.First() in t.value.accounts && op.Second() in t.value.accounts
            && Do(s, Query(p, tx)).txns[p].phase
               == (match CheckError(op, t.value.accounts[op.First()], t.value.accounts[op.Second()])
                   case Some(e) => Aborting(e)
                   case None => Running(2))
  {
    RunInv(limit, steps);
    var s := Run(limit, steps).value;
    assert TxnOk(s.tables, s.usedTx, s.txns[p]);
    assert s.txns[p].op.First() in s.txns[p].rows;
  }

  // ---- Refusals, and the one case in which they are not the verdict of the tables ----

  lemma {:induction false} RefusalIsAStage(t: Tables, op: Op, k: nat) returns (j: nat)
    requires k <= QUERIES && RefusalFrom(t, op, k).Some?
    ensures k <= j < QUERIES && StageError(t, op, j) == RefusalFrom(t, op, k)
    decreases QUERIES - k
  {
    j := k;
    if StageError(t, op, k).None? {
      j := RefusalIsAStage(t, op, k + 1);
    }
  }

  /** Only a row that is not there makes an operation say so. */
  lemma MissingRowMeansMissing(t: Tables, op: Op)
    requires Refusal(t, op) == Some(MissingRow(op))
    ensures op.First() !in t.accounts || op.Second() !in t.accounts
  {
    var j := RefusalIsAStage(t, op, 0);
  }

  /**
   A query that makes the body give up gives it the verdict which the operation would meet on the
   tables of that moment, exactly unless it was after a row hidden by its snapshot. (If then the
   second row does not exist at all, the verdict happens to be the same.)
   */
  lemma {:induction false} RefusalIsVerdictExactly(limit: nat, steps: seq<Label>, p: Pid, tx: TxId, e: Err)
    requires Run(limit, steps).Some? && Enabled(Run(limit, steps).value, Query(p, tx))
    requires GaveUp(Do(Run(limit, steps).value, Query(p, tx)), p, e)
    ensures var s := Run(limit, steps).value; var op := s.txns[p].op;
            Refusal(s.tables, op) == Some(e) <==> (HiddenRow(s, s.txns[p]) ==> op.Second() !in s.tables.accounts)
  {
    RunInv(limit, steps);
    StepVerdict(Run(limit, steps).value, p, tx, e);
  }

  lemma {:induction false} StepVerdict(s: State, p: Pid, tx: TxId, e: Err)
    requires Inv(s) && Enabled(s, Query(p, tx)) && GaveUp(Do(s, Query(p, tx)), p, e)
    ensures var op := s.txns[p].op;
            Refusal(s.tables, op) == Some(e) <==> (HiddenRow(s, s.txns[p]) ==> op.Second() !in s.tables.accounts)
  {
    var op, k := s.txns[p].op, s.txns[p].phase.done;
    QueryReports(s, p, tx);
    NoErrorsSoFar(s, p);
    if HiddenRow(s, s.txns[p]) {
      HiddenVerdict(s.tables, op, k);
    } else {
      RefusalIsAtomic(s.tables, op, k, e);
    }
  }

  lemma NoErrorsSoFar(s: State, p: Pid)
    requires Inv(s) && p in s.txns && s.txns[p].phase.Running?
    ensures forall j :: 0 <= j < s.txns[p].phase.done && j < QUERIES ==> StageError(s.tables, s.txns[p].op, j).None?
  {
    assert TxnOk(s.tables, s.usedTx, s.txns[p]);
  }

  /** With the first row there, the tables call a row missing only if it is the second one. */
  lemma HiddenVerdict(t: Tables, op: Op, k: nat)
    requires k < 2 && (k == 0 ==> op.First() in t.accounts) && (k == 1 ==> op.Second() in t.accounts)
    requires k == 1 ==> StageError(t, op, 0).None?
    ensures Refusal(t, op) == Some(MissingRow(op)) <==> op.Second() !in t.accounts
  {
    if op.Second() !in t.accounts {
      FirstRefusal(t, op, 0, 1);
    } else if Refusal(t, op) == Some(MissingRow(op)) {
      MissingRowMeansMissing(t, op);
    }
  }

  /** No step rewrites or drops a committed entry, or drops an account. */
  lemma {:induction false} JournalOnlyGrows(limit: nat, a: seq<Label>, b: seq<Label>)
    requires Run(limit, a + b).Some?
    ensures Run(limit, a).Some?
    ensures Run(limit, a).value.tables.entries <= Run(limit, a + b).value.tables.entries
    ensures Run(limit, a).value.tables.accounts.Keys <= Run(limit, a + b).value.tables.accounts.Keys
  {
    if b == [] {
      assert a + b == a;
    } else {
      assert (a + b)[..|a + b| - 1] == a + b[..|b| - 1];
      JournalOnlyGrows(limit, a, b[..|b| - 1]);
      TablesFrame(Run(limit, a + b[..|b| - 1]).value, (a + b)[|a + b| - 1]);
    }
  }
}
