/**
 Which failures are retried, and what becomes of the call, told by the failures themselves: where an
 attempt meets an error, and which error it is.
 */
module Retries {
  import opened Wrappers
  import opened Ledger
  import opened Backoff
  import opened Store
  import opened History
  import Conc = Concurrency

  predicate NoFaults(env: AttemptEnv) {
    forall k :: 0 <= k < |env.faults| ==> env.faults[k].None?
  }

  /** Nothing goes wrong. */
  predicate Undisturbed(env: AttemptEnv) {
    env.begin.None? && NoFaults(env) && env.commit.Applies?
  }

  /** Where an attempt can meet an error of the database or the driver. */
  datatype Place = AtBegin | AtQuery(k: nat) | AtCommit

  /** The first thing to go wrong is `e`, there; a refused commit has surely had no effect. */
  predicate Meets(env: AttemptEnv, place: Place, e: Err) {
    match place
    case AtBegin => env.begin == Some(e)
    case AtQuery(k) =>
      && env.begin.None? && k < QUERIES && k < |env.faults| && env.faults[k] == Some(e)
      && forall j :: 0 <= j < k ==> env.faults[j].None?
    case AtCommit => env.begin.None? && NoFaults(env) && env.commit == Refuses(e)
  }

  /** How the attempt reports it. */
  function Report(op: Op, env: AttemptEnv, place: Place, e: Err): Err {
    match place
    case AtBegin => e
    case AtCommit => Wrapped(e)
    case AtQuery(k) =>
      // deposits and withdrawals wrap what their two lock queries return
      var returned := if k < 2 && !op.Transfer? then Wrapped(e) else e;
      if env.rollback.Some? then Wrapped(returned) else returned
  }

  lemma {:induction false} VerdictIsTheFault(t: Tables, op: Op, faults: seq<Option<Err>>, i: nat, k: nat)
    requires i <= k < QUERIES && FaultAt(faults, k).Some?
    requires forall j :: i <= j < k ==> FaultAt(faults, j).None? && StageError(t, op, j).None?
    ensures Verdict(t, op, faults, i) == Some(QueryError(op, k, FaultAt(faults, k).value))
    decreases k - i
  {
    if i < k {
      VerdictIsTheFault(t, op, faults, i + 1, k);
    }
  }

  /** An attempt at an operation the tables accept: it reports what it met, and has done nothing. */
  lemma {:induction false} AttemptReports(t: Tables, op: Op, env: AttemptEnv, place: Place, e: Err)
    requires Refusal(t, op).None? && Meets(env, place, e)
    ensures Attempt(t, op, env) == Outcome(Some(Report(op, env, place, e)), t, if place.AtBegin? then 0 else 1, 0, 0)
  {
    NoRefusal(t, op, 0);
    match place
    case AtBegin =>
    case AtQuery(k) => VerdictIsTheFault(t, op, env.faults, 0, k);
    case AtCommit => VerdictNone(t, op, env.faults, 0);
  }

  lemma UndisturbedAttempt(t: Tables, op: Op, env: AttemptEnv)
    requires Undisturbed(env) && Refusal(t, op).None?
    ensures Attempt(t, op, env) == Outcome(None, Posted(t, op, env.tx), 1, 1, 0)
  {
    VerdictNone(t, op, env.faults, 0);
  }

  lemma {:induction false} VerdictIsTheRefusal(t: Tables, op: Op, faults: seq<Option<Err>>, k: nat)
    requires k <= QUERIES && forall j :: 0 <= j < |faults| ==> faults[j].None?
    ensures Verdict(t, op, faults, k) == RefusalFrom(t, op, k)
    decreases QUERIES - k
  {
    if k < QUERIES {
      VerdictIsTheRefusal(t, op, faults, k + 1);
    }
  }

  /** The attempt meets SQLSTATE 40001. */
  ghost predicate Serialization(env: AttemptEnv) {
    exists place :: Meets(env, place, Sql("40001"))
  }

  lemma SerializationGivesWay(t: Tables, op: Op, env: AttemptEnv)
    requires Refusal(t, op).None? && Serialization(env)
    ensures GivesWay(t, op, env)
    ensures exists n: nat :: n <= 2 && Attempt(t, op, env).err == Some(Wraps(n, Sql("40001")))
  {
    var place :| Meets(env, place, Sql("40001"));
    AttemptReports(t, op, env, place, Sql("40001"));
    var e := Report(op, env, place, Sql("40001"));
    assert e == Wraps(0, Sql("40001")) || e == Wraps(1, Sql("40001")) || e == Wraps(2, Sql("40001"));
  }

  /** The same outcome, so much later. */
  predicate Delayed(o: Outcome, rest: Outcome, millis: int) {
    && o.err == rest.err && o.tables == rest.tables && o.commits == rest.commits
    && o.slept == millis * 1_000_000 + rest.slept
  }

  lemma DelaysAdd(a: Outcome, b: Outcome, c: Outcome, m: int, n: int)
    requires Delayed(a, b, m) && Delayed(b, c, n)
    ensures Delayed(a, c, m + n)
  {
  }

  lemma RetryDelays(t: Tables, op: Op, world: seq<AttemptEnv>, i: nat)
    requires i + 1 < |world| && Refusal(t, op).None? && Serialization(world[i]) && !world[i].cancelled
    ensures Delayed(Exec(t, op, world, i), Exec(t, op, world, i + 1), TotalMillis(i + 1) - TotalMillis(i))
  {
    SerializationGivesWay(t, op, world[i]);
    RetryGoesOn(t, op, world, i);
  }

  /** Any number of attempts that meet 40001 only cost their waits. */
  lemma {:induction false} RetriesDelay(t: Tables, op: Op, world: seq<AttemptEnv>, i: nat, n: nat)
    requires i + n < |world| && Refusal(t, op).None?
    requires forall j :: i <= j < i + n ==> Serialization(world[j]) && !world[j].cancelled
    ensures Delayed(Exec(t, op, world, i), Exec(t, op, world, i + n), TotalMillis(i + n) - TotalMillis(i))
    decreases n
  {
    if n > 0 {
      RetryDelays(t, op, world, i);
      RetriesDelay(t, op, world, i + 1, n - 1);
      DelaysAdd(Exec(t, op, world, i), Exec(t, op, world, i + 1), Exec(t, op, world, i + n),
                TotalMillis(i + 1) - TotalMillis(i), TotalMillis(i + n) - TotalMillis(i + 1));
    }
  }

  /**
   Any number of attempts that meet 40001, at whatever place and however it is wrapped, and then an
   undisturbed one: the call succeeds, with that one's posting, after the waits in between.
   */
  lemma SerializationIsRetried(t: Tables, op: Op, world: seq<AttemptEnv>, i: nat, n: nat)
    requires i + n < |world| && Refusal(t, op).None? && Undisturbed(world[i + n])
    requires forall j :: i <= j < i + n ==> Serialization(world[j]) && !world[j].cancelled
    ensures var o := Exec(t, op, world, i);
            && o.err == None && o.tables == Posted(t, op, world[i + n].tx) && o.commits == 1
            && o.slept == (TotalMillis(i + n) - TotalMillis(i)) * 1_000_000
  {
    RetriesDelay(t, op, world, i, n);
    UndisturbedAttempt(t, op, world[i + n]);
  }

  /** The error of a call that ran out of attempts. */
  ghost predicate IsExhaustion(err: Option<Err>) {
    exists m: nat :: m > 0 && err == Some(Wraps(m, Sql("40001")))
  }

  /** No attempt is left, nothing has been done, and so long has been waited. */
  ghost predicate GivenUp(o: Outcome, t: Tables, millis: int) {
    o.tables == t && o.commits == 0 && IsExhaustion(o.err) && o.slept == millis * 1_000_000
  }

  lemma GivenUpLater(o: Outcome, rest: Outcome, t: Tables, millis: int)
    requires Delayed(o, rest, millis) && GivenUp(rest, t, 0)
    ensures GivenUp(o, t, millis)
  {
  }

  lemma LastOneExhausts(t: Tables, op: Op, world: seq<AttemptEnv>, i: nat)
    requires i + 1 == |world| && Refusal(t, op).None? && Serialization(world[i])
    ensures GivenUp(Exec(t, op, world, i), t, 0)
  {
    SerializationGivesWay(t, op, world[i]);
    var n: nat :| n <= 2 && Attempt(t, op, world[i]).err == Some(Wraps(n, Sql("40001")));
    assert Exec(t, op, world, i).err == Some(Wraps(n + 1, Sql("40001")));
  }

  /** If all attempts meet 40001 the call gives up with the last one's error, and has done nothing. */
  lemma SerializationExhausts(t: Tables, op: Op, world: seq<AttemptEnv>, i: nat)
    requires i < |world| && Refusal(t, op).None?
    requires forall j :: i <= j < |world| ==> Serialization(world[j]) && !world[j].cancelled
    ensures GivenUp(Exec(t, op, world, i), t, TotalMillis(|world| - 1) - TotalMillis(i))
  {
    var last := |world| - 1;
    RetriesDelay(t, op, world, i, last - i);
    LastOneExhausts(t, op, world, last);
    GivenUpLater(Exec(t, op, world, i), Exec(t, op, world, last), t, TotalMillis(last) - TotalMillis(i));
  }

  /** A context that ends in the wait ends the call, with its own error. */
  lemma CancelledInWait(t: Tables, op: Op, world: seq<AttemptEnv>, i: nat)
    requires i + 1 < |world| && Refusal(t, op).None? && Serialization(world[i]) && world[i].cancelled
    ensures var o := Exec(t, op, world, i); o.err == Some(Cancelled) && o.tables == t && o.commits == 0 && o.slept == 0
  {
    SerializationGivesWay(t, op, world[i]);
  }

  lemma NotSerialization(op: Op, env: AttemptEnv, place: Place, e: Err)
    requires !e.Wrapped? && e != Sql("40001")
    ensures !IsSerializationError(Report(op, env, place, e))
  {
    assert !IsSerializationError(e);
    assert !IsSerializationError(Wrapped(e));
    assert !IsSerializationError(Wrapped(Wrapped(e)));
  }

  /** Any other error is returned at once. */
  lemma OthersAreNotRetried(t: Tables, op: Op, world: seq<AttemptEnv>, i: nat, place: Place, e: Err)
    requires i < |world| && Refusal(t, op).None? && Meets(world[i], place, e) && !e.Wrapped? && e != Sql("40001")
    ensures Exec(t, op, world, i)
         == Outcome(Some(Report(op, world[i], place, e)), t, if place.AtBegin? then 0 else 1, 0, 0)
  {
    AttemptReports(t, op, world[i], place, e);
    NotSerialization(op, world[i], place, e);
  }

  /** So is a refusal by the tables. */
  lemma RefusalIsReturned(t: Tables, op: Op, world: seq<AttemptEnv>, i: nat)
    requires i < |world| && Refusal(t, op).Some?
    requires world[i].begin.None? && NoFaults(world[i]) && world[i].rollback.None?
    ensures Exec(t, op, world, i) == Outcome(Refusal(t, op), t, 1, 0, 0)
  {
    VerdictIsTheRefusal(t, op, world[i].faults, 0);
    NoRefusal(t, op, 0);
    var k :| 0 <= k < QUERIES && StageError(t, op, k).Some? && forall j :: 0 <= j < k ==> StageError(t, op, j).None?;
    FirstRefusal(t, op, 0, k);
  }

  // ---- The same in the interleaved system ----

  /** A step that ends an attempt in the error `e`: a failed begin, a refused commit, or a rollback. */
  predicate EndsIn(s: Conc.State, l: Conc.Label, p: Pid, e: Err) {
    && Conc.Enabled(s, l) && p in s.txns
    && var phase := s.txns[p].phase;
       || (phase.Waiting? && l == Conc.Break(p, e))
       || (phase == Conc.Running(QUERIES) && e.Wrapped? && l == Conc.Break(p, e.inner))
       || (phase == Conc.Aborting(e) && l == Conc.Rollback(p, true))
       || (e.Wrapped? && phase == Conc.Aborting(e.inner) && l == Conc.Rollback(p, false))
  }

  /** There too an attempt is followed by another exactly after 40001, while any are left. */
  lemma {:induction false} StepRetriesExactly(s: Conc.State, l: Conc.Label, p: Pid, e: Err)
    requires EndsIn(s, l, p, e)
    ensures var s' := Conc.Do(s, l);
            var serialization := exists n: nat :: e == Wraps(n, Sql("40001"));
            && s'.tables == s.tables && p in s'.txns
            && s'.txns[p].phase == (if serialization && s.txns[p].attempt + 1 < s.limit then Conc.Waiting
                                    else Conc.Finished(Some(if serialization then Wrapped(e) else e), false))
            && (s'.txns[p].phase.Waiting? ==> s'.txns[p].attempt == s.txns[p].attempt + 1)
  {
    SerializationErrorsExactly(e);
  }
}
