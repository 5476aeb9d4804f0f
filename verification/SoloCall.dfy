/**
 The imperative ExecTx of module Store is one call of the interleaved system of module Concurrency:
 whatever its attempts meet, there are steps that take a call which no other one blocks to the same
 result, the same tables and the same number of commits.
 */
module SoloCall {
  import opened Wrappers
  import opened Ledger
  import opened History
  import opened Store
  import opened Concurrency

  // ---- The steps of a call, read off what its attempts meet ----

  /** The body from query `k` on, as far as it gets. */
  function BodySteps(t: Tables, op: Op, p: Pid, env: AttemptEnv, k: nat): seq<Label>
    requires k <= QUERIES
    decreases QUERIES - k
  {
    if k == QUERIES then []
    else if FaultAt(env.faults, k).Some? then [Break(p, QueryError(op, k, FaultAt(env.faults, k).value))]
    else if StageError(t, op, k).Some? then [Query(p, env.tx)]
    else [Query(p, env.tx)] + BodySteps(t, op, p, env, k + 1)
  }

  /** Rollback after a body that failed, commit after one that did not. */
  function EndStep(p: Pid, env: AttemptEnv, verdict: Option<Err>): Label {
    if verdict.Some? then Rollback(p, env.rollback.None?)
    else
      match env.commit
      case Applies => Commit(p)
      case Refuses(e) => Break(p, e)
      case Loses(e, applied) => CommitLost(p, applied, e)
  }

  function AttemptSteps(t: Tables, op: Op, p: Pid, env: AttemptEnv): seq<Label> {
    if env.begin.Some? then [Break(p, env.begin.value)]
    else [Begin(p)] + (BodySteps(t, op, p, env, 0) + [EndStep(p, env, Verdict(t, op, env.faults, 0))])
  }

  /** ExecTx from attempt `i` on. */
  function ExecSteps(t: Tables, op: Op, p: Pid, world: seq<AttemptEnv>, i: nat): seq<Label>
    requires i < |world|
    decreases |world| - i
  {
    AttemptSteps(t, op, p, world[i])
    + if !GivesWay(t, op, world[i]) || i + 1 == |world| then []
      else if world[i].cancelled then [Cancel(p)]
      else ExecSteps(t, op, p, world, i + 1)
  }

  // ---- They can be taken ----

  /** No other call holds a row. */
  ghost predicate Alone(c: State, p: Pid) {
    && Reachable(c) && p in c.txns
    && forall q :: q in c.txns && q != p ==> c.txns[q].rows == map[]
  }

  lemma AloneOk(c: State, p: Pid)
    requires Alone(c, p)
    ensures TxnOk(c.tables, c.usedTx, c.txns[p])
  {
    ReachableInv(c);
  }

  /** Only `p` has moved, and no transaction id but `ids` has been drawn. */
  ghost predicate OnlyMoved(c: State, c': State, p: Pid, ids: set<TxId>) {
    && c'.limit == c.limit && c'.usedTx <= c.usedTx + ids
    && p in c.txns && c'.txns.Keys == c.txns.Keys && c'.txns[p].op == c.txns[p].op
    && forall q :: q in c.txns && q != p ==> c'.txns[q] == c.txns[q]
  }

  lemma MovesCompose(a: State, b: State, c: State, p: Pid, ids: set<TxId>, more: set<TxId>)
    requires OnlyMoved(a, b, p, ids) && OnlyMoved(b, c, p, more)
    ensures OnlyMoved(a, c, p, ids + more)
  {
  }

  /** An open attempt of a call that is alone, after `k` queries. */
  ghost predicate Ongoing(c: State, p: Pid, tx: TxId, k: nat) {
    && Alone(c, p) && c.txns[p].phase == Running(k) && k <= QUERIES
    && c.txns[p].snapshot == c.tables.accounts.Keys
    && (if k < 2 then tx !in c.usedTx else c.txns[p].tx == tx)
  }

  lemma {:induction false} RunFromConcat(c: State, a: seq<Label>, b: seq<Label>)
    requires RunFrom(c, a).Some?
    ensures RunFrom(c, a + b) == RunFrom(RunFrom(c, a).value, b)
    decreases |a|
  {
    if a == [] {
      assert a + b == b;
    } else {
      assert (a + b)[0] == a[0] && (a + b)[1..] == a[1..] + b;
      RunFromConcat(Do(c, a[0]), a[1..], b);
    }
  }

  lemma OneStep(c: State, l: Label)
    requires Enabled(c, l)
    ensures RunFrom(c, [l]) == Some(Do(c, l))
  {
    RunFromStep(c, l, []);
    assert [l] + [] == [l];
  }

  /** What a query does to an attempt that meets no other call: the verdict of the tables decides. */
  ghost predicate Queried(x: Txn, y: Txn, k: nat, tx: TxId, verdict: Option<Err>) {
    match verdict
    case Some(e) => y.phase == Aborting(e)
    case None => y.phase == Running(k + 1) && y.snapshot == x.snapshot && y.tx == (if k == 1 then tx else x.tx)
  }

  lemma FirstLockQueried(c: State, p: Pid, tx: TxId)
    requires p in c.txns && c.txns[p].phase == Running(0) && c.txns[p].snapshot == c.tables.accounts.Keys
    ensures var x := c.txns[p];
            Queried(x, LockFirst(c, p, x).txns[p], 0, tx, StageError(c.tables, x.op, 0))
  {
  }

  lemma SecondLockQueried(c: State, p: Pid, tx: TxId)
    requires p in c.txns && c.txns[p].phase == Running(1) && c.txns[p].snapshot == c.tables.accounts.Keys
    requires TxnOk(c.tables, c.usedTx, c.txns[p])
    ensures var x := c.txns[p];
            Queried(x, LockSecondAndCheck(c, p, x, tx).txns[p], 1, tx, StageError(c.tables, x.op, 1))
  {
    assert c.txns[p].op.First() in c.txns[p].rows;
  }

  lemma WriteQueried(c: State, p: Pid, k: nat, tx: TxId)
    requires p in c.txns && 2 <= k < QUERIES && c.txns[p].phase == Running(k)
    requires TxnOk(c.tables, c.usedTx, c.txns[p])
    ensures Queried(c.txns[p], RunQuery(c, p, c.txns[p], k, tx).txns[p], k, tx, StageError(c.tables, c.txns[p].op, k))
  {
    var x := c.txns[p];
    if k < 4 {
      InsertKeepsAttempt(c.tables, c.usedTx, x, k == 3);
    } else {
      UpdateKeepsAttempt(c.tables, c.usedTx, x, k == 5);
    }
  }

  lemma NotBlocked(c: State, p: Pid)
    requires Alone(c, p)
    ensures !Blocked(c, p)
  {
    forall q | q in c.txns ensures !WaitsFor(c, p, q) {
    }
  }

  lemma {:induction false} QueryRuns(c: State, p: Pid, tx: TxId, k: nat) returns (c': State)
    requires k < QUERIES && Ongoing(c, p, tx, k)
    ensures Enabled(c, Query(p, tx)) && c' == Do(c, Query(p, tx))
    ensures Alone(c', p) && OnlyMoved(c, c', p, {tx}) && c'.tables == c.tables
    ensures match StageError(c.tables, c.txns[p].op, k)
            case Some(e) => c'.txns[p].phase == Aborting(e)
            case None => Ongoing(c', p, tx, k + 1)
    ensures c'.txns[p].attempt == c.txns[p].attempt
  {
    NotBlocked(c, p);
    AloneOk(c, p);
    if k == 0 {
      FirstLockQueried(c, p, tx);
    } else if k == 1 {
      SecondLockQueried(c, p, tx);
    } else {
      WriteQueried(c, p, k, tx);
    }
    QueryFrame(c, p, k, tx);
    QueryDraws(c, p, k, tx);
    StepReaches(c, Query(p, tx));
    c' := Do(c, Query(p, tx));
  }

  /** Only the second lock draws an id. */
  lemma QueryDraws(c: State, p: Pid, k: nat, tx: TxId)
    requires p in c.txns && k < QUERIES
    ensures RunQuery(c, p, c.txns[p], k, tx).usedTx <= (if k == 1 then c.usedTx + {tx} else c.usedTx)
  {
  }

  /** The body gets as far as the verdict says. */
  ghost predicate BodyDone(c': State, p: Pid, tx: TxId, verdict: Option<Err>) {
    match verdict
    case Some(e) => Alone(c', p) && c'.txns[p].phase == Aborting(e)
    case None => Ongoing(c', p, tx, QUERIES)
  }

  lemma BreakRuns(c: State, p: Pid, e: Err)
    requires Alone(c, p) && c.txns[p].phase.Running? && c.txns[p].phase.done < QUERIES
    ensures RunFrom(c, [Break(p, e)]) == Some(Do(c, Break(p, e)))
    ensures var c' := Do(c, Break(p, e));
            && Alone(c', p) && OnlyMoved(c, c', p, {}) && c'.tables == c.tables
            && c'.txns[p].phase == Aborting(e) && c'.txns[p].attempt == c.txns[p].attempt
  {
    OneStep(c, Break(p, e));
    StepReaches(c, Break(p, e));
  }

  lemma {:induction false} BodyRuns(c: State, p: Pid, env: AttemptEnv, k: nat) returns (c': State)
    requires Ongoing(c, p, env.tx, k)
    ensures RunFrom(c, BodySteps(c.tables, c.txns[p].op, p, env, k)) == Some(c')
    ensures OnlyMoved(c, c', p, {env.tx}) && c'.tables == c.tables
    ensures BodyDone(c', p, env.tx, Verdict(c.tables, c.txns[p].op, env.faults, k))
    ensures c'.txns[p].attempt == c.txns[p].attempt
    decreases QUERIES - k
  {
    var t, op := c.tables, c.txns[p].op;
    c' := c;
    if k < QUERIES {
      if FaultAt(env.faults, k).Some? {
        var e := QueryError(op, k, FaultAt(env.faults, k).value);
        BreakRuns(c, p, e);
        c' := Do(c, Break(p, e));
      } else {
        var next := QueryRuns(c, p, env.tx, k);
        if StageError(t, op, k).Some? {
          OneStep(c, Query(p, env.tx));
          c' := next;
        } else {
          c' := BodyRuns(next, p, env, k + 1);
          MovesCompose(c, next, c', p, {env.tx}, {env.tx});
          RunFromStep(c, Query(p, env.tx), BodySteps(t, op, p, env, k + 1));
        }
      }
    }
  }

  /** The call after an attempt: over with its commit, or left to the retry rule. */
  function AfterAttempt(limit: nat, x: Txn, a: Outcome): Txn
    requires a.commits == 0 ==> a.err.Some?
  {
    if a.commits > 0 then NewAttempt(x.op, x.attempt, Finished(a.err, true))
    else AttemptFailed(limit, x, a.err.value)
  }

  /** The attempt has ended as `a` says. */
  ghost predicate Ended(c: State, c': State, p: Pid, a: Outcome)
    requires p in c.txns
  {
    && (a.commits == 0 ==> a.err.Some?)
    && c'.tables == a.tables && c'.limit == c.limit && c'.usedTx == c.usedTx
    && c'.txns == c.txns[p := AfterAttempt(c.limit, c.txns[p], a)]
  }

  lemma RollbackEnds(c: State, p: Pid, env: AttemptEnv, e: Err)
    requires p in c.txns && c.txns[p].phase == Aborting(e)
    ensures var l := EndStep(p, env, Some(e));
            Enabled(c, l) && Ended(c, Do(c, l), p, AfterBody(c.tables, c.txns[p].op, env, Some(e)))
  {
  }

  lemma CommitEnds(c: State, p: Pid, env: AttemptEnv)
    requires p in c.txns && TxnOk(c.tables, c.usedTx, c.txns[p]) && env.Sound()
    requires c.txns[p].phase == Running(QUERIES) && c.txns[p].tx == env.tx
    ensures var l := EndStep(p, env, None);
            Enabled(c, l) && Ended(c, Do(c, l), p, AfterBody(c.tables, c.txns[p].op, env, None))
  {
    CommitIsAtomic(c.tables, c.usedTx, c.txns[p]);
    assert Flushed(c.tables, c.txns[p]) == Posted(c.tables, c.txns[p].op, env.tx);
  }

  lemma EndMovesOne(c: State, c': State, p: Pid, a: Outcome)
    requires Alone(c, p) && Ended(c, c', p, a) && Reachable(c')
    ensures Alone(c', p) && OnlyMoved(c, c', p, {})
  {
  }

  /** How an attempt ends, given the verdict of its body. */
  lemma {:induction false} EndTaken(c: State, p: Pid, env: AttemptEnv, verdict: Option<Err>) returns (c': State)
    requires Alone(c, p) && BodyDone(c, p, env.tx, verdict) && env.Sound()
    ensures RunFrom(c, [EndStep(p, env, verdict)]) == Some(c')
    ensures Alone(c', p) && OnlyMoved(c, c', p, {})
    ensures Ended(c, c', p, AfterBody(c.tables, c.txns[p].op, env, verdict))
  {
    var l := EndStep(p, env, verdict);
    if verdict.Some? {
      RollbackEnds(c, p, env, verdict.value);
    } else {
      AloneOk(c, p);
      CommitEnds(c, p, env);
    }
    OneStep(c, l);
    StepReaches(c, l);
    c' := Do(c, l);
    EndMovesOne(c, c', p, AfterBody(c.tables, c.txns[p].op, env, verdict));
  }

  /** The attempt from its begun state to its end. */
  lemma {:induction false} BegunRuns(c: State, p: Pid, env: AttemptEnv) returns (c': State)
    requires Ongoing(c, p, env.tx, 0) && env.Sound()
    ensures var t, op := c.tables, c.txns[p].op;
            var verdict := Verdict(t, op, env.faults, 0);
            var a := AfterBody(t, op, env, verdict);
            && RunFrom(c, BodySteps(t, op, p, env, 0) + [EndStep(p, env, verdict)]) == Some(c')
            && (a.commits == 0 ==> a.err.Some?)
            && Alone(c', p) && OnlyMoved(c, c', p, {env.tx}) && c'.tables == a.tables
            && c'.txns[p] == AfterAttempt(c.limit, c.txns[p], a)
  {
    var verdict := Verdict(c.tables, c.txns[p].op, env.faults, 0);
    var body := BodyRuns(c, p, env, 0);
    c' := EndTaken(body, p, env, verdict);
    RunFromConcat(c, BodySteps(c.tables, c.txns[p].op, p, env, 0), [EndStep(p, env, verdict)]);
  }

  lemma BeginRuns(c: State, p: Pid, tx: TxId)
    requires Alone(c, p) && c.txns[p].phase.Waiting? && tx !in c.usedTx
    ensures var c' := Do(c, Begin(p));
            Ongoing(c', p, tx, 0) && OnlyMoved(c, c', p, {}) && c'.tables == c.tables && c'.usedTx == c.usedTx
    ensures Do(c, Begin(p)).txns[p].attempt == c.txns[p].attempt
  {
    StepReaches(c, Begin(p));
  }

  lemma BeginFails(c: State, p: Pid, e: Err)
    requires Alone(c, p) && c.txns[p].phase.Waiting?
    ensures RunFrom(c, [Break(p, e)]) == Some(Do(c, Break(p, e)))
    ensures var c' := Do(c, Break(p, e));
            && Alone(c', p) && OnlyMoved(c, c', p, {}) && c'.tables == c.tables
            && c'.txns[p] == AttemptFailed(c.limit, c.txns[p], e)
  {
    OneStep(c, Break(p, e));
    StepReaches(c, Break(p, e));
  }

  /** One attempt of execTxOnce. */
  lemma {:induction false} AttemptRuns(c: State, p: Pid, env: AttemptEnv) returns (c': State)
    requires Alone(c, p) && env.Sound() && c.txns[p].phase.Waiting? && env.tx !in c.usedTx
    ensures RunFrom(c, AttemptSteps(c.tables, c.txns[p].op, p, env)) == Some(c')
    ensures var a := Attempt(c.tables, c.txns[p].op, env);
            && (a.commits == 0 ==> a.err.Some?)
            && Alone(c', p) && OnlyMoved(c, c', p, {env.tx}) && c'.tables == a.tables
            && c'.txns[p] == AfterAttempt(c.limit, c.txns[p], a)
  {
    var t, op := c.tables, c.txns[p].op;
    if env.begin.Some? {
      BeginFails(c, p, env.begin.value);
      c' := Do(c, Break(p, env.begin.value));
    } else {
      BeginRuns(c, p, env.tx);
      var begun := Do(c, Begin(p));
      c' := BegunRuns(begun, p, env);
      RunFromStep(c, Begin(p), BodySteps(t, op, p, env, 0) + [EndStep(p, env, Verdict(t, op, env.faults, 0))]);
      MovesCompose(c, begun, c', p, {}, {env.tx});
    }
  }

  /** The ids drawn from attempt `i` on. */
  function Ids(world: seq<AttemptEnv>, i: nat): set<TxId> {
    set j | i <= j < |world| :: world[j].tx
  }

  /** uuid.New gives every attempt an id of its own. */
  ghost predicate FreshIds(c: State, world: seq<AttemptEnv>, i: nat) {
    && Ids(world, i) !! c.usedTx
    && forall j, k :: i <= j < k < |world| ==> world[j].tx != world[k].tx
  }

  lemma LaterIdsAreFresh(c: State, c': State, p: Pid, world: seq<AttemptEnv>, i: nat)
    requires i < |world| && FreshIds(c, world, i) && OnlyMoved(c, c', p, {world[i].tx})
    ensures world[i].tx !in c.usedTx && FreshIds(c', world, i + 1)
    ensures Ids(world, i) == {world[i].tx} + Ids(world, i + 1)
  {
    assert world[i].tx in Ids(world, i);
    assert world[i].tx !in Ids(world, i + 1);
    assert Ids(world, i + 1) <= Ids(world, i);
  }

  /** The retry rule of the interleaved system is that of the loop. */
  lemma RetryRule(limit: nat, x: Txn, t: Tables, op: Op, world: seq<AttemptEnv>, i: nat)
    requires i < |world| == limit && x.attempt == i && world[i].Sound()
    ensures Attempt(t, op, world[i]).commits == 0 ==> Attempt(t, op, world[i]).err.Some?
    ensures var y := AfterAttempt(limit, x, Attempt(t, op, world[i]));
            if GivesWay(t, op, world[i]) && i + 1 < limit then y == NewAttempt(x.op, i + 1, Waiting)
            else
              && y.phase == Finished(Exec(t, op, world, i).err, Exec(t, op, world, i).commits > 0)
              && Attempt(t, op, world[i]).tables == Exec(t, op, world, i).tables
  {
    AttemptEffect(t, op, world[i]);
  }

  lemma CancelRuns(c: State, p: Pid)
    requires Alone(c, p) && c.txns[p].phase.Waiting? && c.txns[p].attempt > 0
    ensures RunFrom(c, [Cancel(p)]) == Some(Do(c, Cancel(p)))
    ensures var c' := Do(c, Cancel(p));
            && Alone(c', p) && OnlyMoved(c, c', p, {}) && c'.tables == c.tables
            && c'.txns[p].phase == Finished(Some(Cancelled), false)
  {
    OneStep(c, Cancel(p));
    StepReaches(c, Cancel(p));
  }

  /** The call is over, with this outcome. */
  ghost predicate Returned(c': State, p: Pid, o: Outcome) {
    && Alone(c', p) && c'.tables == o.tables
    && c'.txns[p].phase == Finished(o.err, o.commits > 0)
  }

  /** What ExecRuns asks of the call before attempt `i`. */
  ghost predicate AboutToTry(c: State, p: Pid, world: seq<AttemptEnv>, i: nat) {
    && i < |world| == c.limit && (forall env :: env in world ==> env.Sound())
    && Alone(c, p) && c.txns[p].phase.Waiting? && c.txns[p].attempt == i
    && FreshIds(c, world, i)
  }

  /** The attempt after which there is no other. */
  lemma {:induction false} LastAttemptRuns(c: State, p: Pid, world: seq<AttemptEnv>, i: nat) returns (c': State)
    requires AboutToTry(c, p, world, i)
    requires GivesWay(c.tables, c.txns[p].op, world[i]) && i + 1 < |world| ==> world[i].cancelled
    ensures RunFrom(c, ExecSteps(c.tables, c.txns[p].op, p, world, i)) == Some(c')
    ensures Returned(c', p, Exec(c.tables, c.txns[p].op, world, i)) && OnlyMoved(c, c', p, {world[i].tx})
  {
    var t, op, env := c.tables, c.txns[p].op, world[i];
    assert env in world && env.tx in Ids(world, i);
    c' := AttemptRuns(c, p, env);
    var steps := AttemptSteps(t, op, p, env);
    RetryRule(c.limit, c.txns[p], t, op, world, i);
    assert steps + [] == steps;
    if GivesWay(t, op, env) && i + 1 < |world| {
      var first := c';
      CancelRuns(first, p);
      c' := Do(first, Cancel(p));
      RunFromConcat(c, steps, [Cancel(p)]);
      MovesCompose(c, first, c', p, {env.tx}, {});
    }
  }

  /** An attempt that is followed by another. */
  lemma {:induction false} RetriedAttemptRuns(c: State, p: Pid, world: seq<AttemptEnv>, i: nat) returns (c': State)
    requires AboutToTry(c, p, world, i)
    requires GivesWay(c.tables, c.txns[p].op, world[i]) && i + 1 < |world| && !world[i].cancelled
    ensures RunFrom(c, AttemptSteps(c.tables, c.txns[p].op, p, world[i])) == Some(c')
    ensures AboutToTry(c', p, world, i + 1) && OnlyMoved(c, c', p, {world[i].tx}) && c'.tables == c.tables
    ensures Ids(world, i) == {world[i].tx} + Ids(world, i + 1)
  {
    assert world[i] in world && world[i].tx in Ids(world, i);
    c' := AttemptRuns(c, p, world[i]);
    RetryRule(c.limit, c.txns[p], c.tables, c.txns[p].op, world, i);
    LaterIdsAreFresh(c, c', p, world, i);
  }

  /**
   The whole call, for any number of attempts and any failure pattern: the interleaved system can
   take it to the outcome ExecTx has, leaving every other call as it was.
   */
  lemma {:induction false} ExecRuns(c: State, p: Pid, world: seq<AttemptEnv>, i: nat) returns (c': State)
    requires AboutToTry(c, p, world, i)
    ensures RunFrom(c, ExecSteps(c.tables, c.txns[p].op, p, world, i)) == Some(c')
    ensures Returned(c', p, Exec(c.tables, c.txns[p].op, world, i)) && OnlyMoved(c, c', p, Ids(world, i))
    decreases |world| - i
  {
    var t, op := c.tables, c.txns[p].op;
    if GivesWay(t, op, world[i]) && i + 1 < |world| && !world[i].cancelled {
      var first := RetriedAttemptRuns(c, p, world, i);
      c' := ExecRuns(first, p, world, i + 1);
      RunFromConcat(c, AttemptSteps(t, op, p, world[i]), ExecSteps(t, op, p, world, i + 1));
      MovesCompose(c, first, c', p, {world[i].tx}, Ids(world, i + 1));
      RetryGoesOn(t, op, world, i);
    } else {
      c' := LastAttemptRuns(c, p, world, i);
      assert world[i].tx in Ids(world, i);
    }
  }

  /** From the call's arrival in any reachable state in which no other call is inside an attempt. */
  lemma {:induction false} ExecTxIsACall(c: State, p: Pid, op: Op, world: seq<AttemptEnv>) returns (c': State)
    requires Reachable(c) && p !in c.txns && op.Valid() && forall q :: q in c.txns ==> c.txns[q].rows == map[]
    requires 0 < |world| == c.limit && (forall env :: env in world ==> env.Sound()) && FreshIds(c, world, 0)
    ensures RunFrom(c, [Spawn(p, op)] + ExecSteps(c.tables, op, p, world, 0)) == Some(c')
    ensures Returned(c', p, Exec(c.tables, op, world, 0))
    ensures forall q :: q in c.txns ==> q in c'.txns && c'.txns[q] == c.txns[q]
  {
    var spawned := Do(c, Spawn(p, op));
    StepReaches(c, Spawn(p, op));
    c' := ExecRuns(spawned, p, world, 0);
    RunFromStep(c, Spawn(p, op), ExecSteps(c.tables, op, p, world, 0));
  }

  // ---- A call that nobody disturbs ----

  /** Nothing fails; at the end the commit's outcome is lost, or it is not. */
  function Smooth(tx: TxId, lost: bool): AttemptEnv {
    AttemptEnv(None, [], tx, None, if lost then Loses(Driver, true) else Applies, false)
  }

  /** The last `n` queries of the body. */
  function QueriesLeft(p: Pid, tx: TxId, n: nat): seq<Label> {
    if n == 0 then [] else [Query(p, tx)] + QueriesLeft(p, tx, n - 1)
  }

  /** Begin, six queries, and the commit. */
  function Through(p: Pid, tx: TxId, lost: bool): seq<Label> {
    [Begin(p)] + (QueriesLeft(p, tx, QUERIES) + [if lost then CommitLost(p, true, Driver) else Commit(p)])
  }

  lemma {:induction false} SmoothBody(t: Tables, op: Op, p: Pid, tx: TxId, lost: bool, k: nat)
    requires k <= QUERIES && RefusalFrom(t, op, k).None?
    ensures BodySteps(t, op, p, Smooth(tx, lost), k) == QueriesLeft(p, tx, QUERIES - k)
    decreases QUERIES - k
  {
    if k < QUERIES {
      SmoothBody(t, op, p, tx, lost, k + 1);
    }
  }

  lemma SmoothAttempt(t: Tables, op: Op, p: Pid, tx: TxId, lost: bool)
    requires Refusal(t, op).None?
    ensures AttemptSteps(t, op, p, Smooth(tx, lost)) == Through(p, tx, lost)
    ensures Attempt(t, op, Smooth(tx, lost)) == Outcome(Reported(lost), Posted(t, op, tx), 1, 1, 0)
  {
    SmoothBody(t, op, p, tx, lost, 0);
    VerdictNone(t, op, [], 0);
  }

  /** What the caller hears of a commit that was applied. */
  function Reported(lost: bool): Option<Err> {
    if lost then Some(Wrapped(Driver)) else None
  }

  lemma {:induction false} ThroughLabels(p: Pid, tx: TxId, lost: bool, n: nat)
    ensures forall l :: l in QueriesLeft(p, tx, n) ==> l.Query?
    ensures n == QUERIES ==>
              forall l :: l in Through(p, tx, lost) ==> !l.Spawn? && (l.CommitLost? ==> lost && l.pid == p)
  {
    if n > 0 {
      ThroughLabels(p, tx, lost, n - 1);
    }
  }

  /** No call is inside an attempt. */
  ghost predicate Idle(c: State) {
    forall p :: p in c.txns ==> c.txns[p].rows == map[]
  }

  /** Its posting is in the tables, and only its own call has come to be. */
  ghost predicate Worked(c: State, c': State, r: Pid, op: Op, tx: TxId, lost: bool) {
    && c'.tables == Posted(c.tables, op, tx) && c'.usedTx <= c.usedTx + {tx}
    && c'.txns == c.txns[r := NewAttempt(op, 0, Finished(Reported(lost), true))]
  }

  lemma CallWorks(c: State, r: Pid, op: Op, tx: TxId, lost: bool) returns (c': State)
    requires Reachable(c) && r !in c.txns && tx !in c.usedTx && Idle(c)
    requires op.Valid() && Refusal(c.tables, op).None?
    ensures RunFrom(Do(c, Spawn(r, op)), Through(r, tx, lost)) == Some(c')
    ensures Worked(c, c', r, op, tx, lost)
  {
    var spawned := Do(c, Spawn(r, op));
    StepReaches(c, Spawn(r, op));
    c' := AttemptRuns(spawned, r, Smooth(tx, lost));
    SmoothAttempt(c.tables, op, r, tx, lost);
  }
}
