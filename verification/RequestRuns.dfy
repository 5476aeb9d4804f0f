/**
 Runs of requests, piece by piece: a request enters, is refused or makes its ledger call, and leaves.
 Each piece is a run from any state already reached, while some requests are watched.
 */
module RequestRuns {
  import opened Wrappers
  import opened Ledger
  import opened History
  import opened Handlers
  import opened KeyTable
  import opened SoloCall
  import opened EndToEnd
  import opened AtMostOnce
  import Conc = Concurrency

  /** A request, its number, and the transaction id its posting will get. */
  datatype Turn = Turn(r: Pid, q: Request, tx: TxId)

  /** The requests that are watched, and what may happen to them. */
  datatype Watch = Watch(limit: nat, id: Digest, user: UserId, tolerated: set<Disturbance>)

  ghost predicate Reached(w: Watch, past: seq<Action>, s: System) {
    Run(w.limit, past) == Some(s) && CalmUpTo(w.limit, past, w.id, w.user, w.tolerated)
  }

  lemma Assoc(a: seq<Action>, b: seq<Action>, c: seq<Action>)
    ensures a + b + c == a + (b + c)
  {
  }

  lemma OneMore(w: Watch, past: seq<Action>, s: System, a: Action)
    requires Reached(w, past, s) && Enabled(s, a) && Allowed(s, a, w.id, w.user, w.tolerated)
    ensures Reached(w, past + [a], Do(s, a))
  {
    assert (past + [a])[..|past|] == past;
  }

  /** A request arrives and is looked up. */
  function Enter(r: Pid, q: Request, works: bool): seq<Action> {
    [Arrive(r, q)] + [Lookup(r, works)]
  }

  function RequestOf(key: string, user: UserId, payload: string, op: Op): Request {
    Request(key, user, payload, CompoundHash(key, user, payload), op, Arrived)
  }

  ghost predicate Newcomer(s: System, r: Pid, q: Request) {
    r !in s.requests && r !in s.core.txns && q.New()
  }

  /** A request at the door of its handler. */
  function Entered(s: System, t: Turn): System {
    s.(requests := s.requests[t.r := t.q.(stage := Missed)])
  }

  lemma EnterMisses(s: System, t: Turn, works: bool)
    requires Newcomer(s, t.r, t.q) && (works ==> Find(s.keys, t.q.id, t.q.user).None?)
    ensures Enabled(s, Arrive(t.r, t.q)) && Enabled(Do(s, Arrive(t.r, t.q)), Lookup(t.r, works))
    ensures Do(Do(s, Arrive(t.r, t.q)), Lookup(t.r, works)) == Entered(s, t)
  {
    assert s.requests[t.r := t.q][t.r := t.q.(stage := Missed)] == s.requests[t.r := t.q.(stage := Missed)];
  }

  /** A request arrives and is looked up, in vain. */
  lemma EnterRuns(w: Watch, past: seq<Action>, s: System, t: Turn, works: bool)
    requires Reached(w, past, s) && Newcomer(s, t.r, t.q) && Allowed(s, Arrive(t.r, t.q), w.id, w.user, w.tolerated)
    requires if works then Find(s.keys, t.q.id, t.q.user).None? else FailingLookup in w.tolerated
    ensures Reached(w, past + Enter(t.r, t.q, works), Entered(s, t))
  {
    EnterMisses(s, t, works);
    OneMore(w, past, s, Arrive(t.r, t.q));
    OneMore(w, past + [Arrive(t.r, t.q)], Do(s, Arrive(t.r, t.q)), Lookup(t.r, works));
    Assoc(past, [Arrive(t.r, t.q)], [Lookup(t.r, works)]);
  }

  /** A request that has been answered with the stored row. */
  function Hit(s: System, t: Turn): System
    requires t.q.id in s.keys
  {
    var row := s.keys[t.q.id];
    s.(requests := s.requests[t.r := t.q.(stage := Done(row.code, row.body, true))],
       answers := s.answers + [Answer(t.q.id, t.q.user, row.code, row.body)])
  }

  lemma EnterFinds(s: System, t: Turn)
    requires Newcomer(s, t.r, t.q) && Find(s.keys, t.q.id, t.q.user).Some?
    ensures Enabled(s, Arrive(t.r, t.q)) && Enabled(Do(s, Arrive(t.r, t.q)), Lookup(t.r, true))
    ensures Do(Do(s, Arrive(t.r, t.q)), Lookup(t.r, true)) == Hit(s, t)
  {
    var stage := Done(s.keys[t.q.id].code, s.keys[t.q.id].body, true);
    assert s.requests[t.r := t.q][t.r := t.q.(stage := stage)] == s.requests[t.r := t.q.(stage := stage)];
  }

  /** A request arrives and finds its answer in the key table. */
  lemma EnterHits(w: Watch, past: seq<Action>, s: System, t: Turn)
    requires Reached(w, past, s) && Newcomer(s, t.r, t.q) && Allowed(s, Arrive(t.r, t.q), w.id, w.user, w.tolerated)
    requires Find(s.keys, t.q.id, t.q.user).Some?
    ensures Reached(w, past + Enter(t.r, t.q, true), Hit(s, t))
  {
    EnterFinds(s, t);
    OneMore(w, past, s, Arrive(t.r, t.q));
    OneMore(w, past + [Arrive(t.r, t.q)], Do(s, Arrive(t.r, t.q)), Lookup(t.r, true));
    Assoc(past, [Arrive(t.r, t.q)], [Lookup(t.r, true)]);
  }

  /** The handler answers, and the answer is saved if the table works. */
  function Leave(r: Pid, works: bool): seq<Action> {
    [Respond(r)] + [Save(r, works)]
  }

  /** The answer given and, below 500 and with a working table, stored. */
  function Left(s: System, r: Pid, code: nat, body: Body, works: bool): System
    requires r in s.requests
  {
    var q := s.requests[r];
    System(s.core, if works && code < 500 then Insert(s.keys, q.id, Row(q.user, code, body)) else s.keys,
           s.requests[r := q.(stage := Done(code, body, false))], s.answers + [Answer(q.id, q.user, code, body)])
  }

  lemma SaveRuns(w: Watch, past: seq<Action>, s: System, r: Pid, works: bool) returns (s': System)
    requires Reached(w, past, s) && r in s.requests && s.requests[r].stage.Answered?
    requires works || FailingSave in w.tolerated
    ensures Reached(w, past + [Save(r, works)], s')
    ensures s' == Left(s, r, s.requests[r].stage.code, s.requests[r].stage.body, works)
  {
    OneMore(w, past, s, Save(r, works));
    s' := Do(s, Save(r, works));
  }

  lemma LeaveRuns(w: Watch, past: seq<Action>, s: System, r: Pid, works: bool) returns (s': System)
    requires Reached(w, past, s) && At(s, r, Serving) && r in s.core.txns && s.core.txns[r].phase.Finished?
    requires works || FailingSave in w.tolerated
    ensures Reached(w, past + Leave(r, works), s')
    ensures var op, result := s.requests[r].op, s.core.txns[r].phase.result;
            s' == Left(s, r, StatusOf(op, result), BodyOf(op, result), works)
  {
    OneMore(w, past, s, Respond(r));
    s' := SaveRuns(w, past + [Respond(r)], Do(s, Respond(r)), r, works);
    Assoc(past, [Respond(r)], [Save(r, works)]);
    assert s'.requests == Left(s, r, 0, Text(""), false).requests[r := s'.requests[r]];
  }

  // ---- Its ledger call ----

  function Lift(steps: seq<Conc.Label>): seq<Action> {
    if steps == [] then [] else [Core(steps[0])] + Lift(steps[1..])
  }

  /** Ledger steps that are no disturbance, or a tolerated one. */
  ghost predicate MayStep(w: Watch, s: System, steps: seq<Conc.Label>) {
    forall l :: l in steps ==> !l.Spawn? && Allowed(s, Core(l), w.id, w.user, w.tolerated)
  }

  lemma LiftOneMore(past: seq<Action>, steps: seq<Conc.Label>)
    requires steps != []
    ensures past + [Core(steps[0])] + Lift(steps[1..]) == past + Lift(steps)
  {
  }

  lemma LiftOne(w: Watch, past: seq<Action>, s: System, steps: seq<Conc.Label>) returns (s': System)
    requires Reached(w, past, s) && steps != [] && MayStep(w, s, steps) && Conc.Enabled(s.core, steps[0])
    ensures s' == s.(core := Conc.Do(s.core, steps[0]))
    ensures Reached(w, past + [Core(steps[0])], s') && MayStep(w, s', steps[1..])
  {
    assert steps[0] in steps;
    OneMore(w, past, s, Core(steps[0]));
    s' := Do(s, Core(steps[0]));
  }

  lemma {:induction false} LiftRuns(w: Watch, past: seq<Action>, s: System, steps: seq<Conc.Label>)
    requires Reached(w, past, s) && Conc.RunFrom(s.core, steps).Some? && MayStep(w, s, steps)
    ensures Reached(w, past + Lift(steps), s.(core := Conc.RunFrom(s.core, steps).value))
    decreases |steps|
  {
    if steps == [] {
      assert past + Lift(steps) == past;
    } else {
      var s1 := LiftOne(w, past, s, steps);
      LiftRuns(w, past + [Core(steps[0])], s1, steps[1..]);
      LiftOneMore(past, steps);
    }
  }

  /** The handler makes its ledger call, and the call gets as far as its commit. */
  function Work(r: Pid, tx: TxId, lost: bool): seq<Action> {
    [Launch(r)] + Lift(Through(r, tx, lost))
  }

  /** The ledger would take the operation of this request, and nobody is in the way. */
  ghost predicate Welcome(s: System, r: Pid, tx: TxId) {
    && At(s, r, Missed) && r !in s.core.txns && tx !in s.core.usedTx && Idle(s.core)
    && s.requests[r].op.Valid() && Refusal(s.core.tables, s.requests[r].op).None?
  }

  lemma SystemInv(w: Watch, past: seq<Action>, s: System)
    requires Reached(w, past, s)
    ensures Inv(s)
  {
    RunInv(w.limit, past);
  }

  lemma CoreIsReachable(w: Watch, past: seq<Action>, s: System)
    requires Reached(w, past, s)
    ensures Conc.Reachable(s.core)
  {
    RunInv(w.limit, past);
  }

  lemma WorkIsAllowed(w: Watch, s: System, r: Pid, tx: TxId, lost: bool)
    requires r in s.requests && (lost ==> LostCommit in w.tolerated || s.requests[r].op.Transfer?)
    ensures MayStep(w, s, Through(r, tx, lost))
  {
    ThroughLabels(r, tx, lost, QUERIES);
  }

  /** The request with its call started. */
  function Launched(s: System, r: Pid): System
    requires r in s.requests
  {
    s.(core := LaunchCore(s.core, r, s.requests[r].op), requests := s.requests[r := s.requests[r].(stage := Serving)])
  }

  lemma LaunchRuns(w: Watch, past: seq<Action>, s: System, r: Pid)
    requires Reached(w, past, s) && At(s, r, Missed) && s.requests[r].op.Valid()
    ensures Reached(w, past + [Launch(r)], Launched(s, r))
  {
    OneMore(w, past, s, Launch(r));
  }

  lemma LaunchAndLift(w: Watch, past: seq<Action>, s: System, r: Pid, steps: seq<Conc.Label>, c: Conc.State)
    requires Reached(w, past, s) && At(s, r, Missed) && s.requests[r].op.Valid()
    requires Conc.RunFrom(LaunchCore(s.core, r, s.requests[r].op), steps) == Some(c)
    requires MayStep(w, Launched(s, r), steps)
    ensures Reached(w, past + ([Launch(r)] + Lift(steps)), Launched(s, r).(core := c))
  {
    LaunchRuns(w, past, s, r);
    LiftRuns(w, past + [Launch(r)], Launched(s, r), steps);
    Assoc(past, [Launch(r)], Lift(steps));
  }

  lemma WorkRuns(w: Watch, past: seq<Action>, s: System, r: Pid, tx: TxId, lost: bool) returns (s': System)
    requires Reached(w, past, s) && Welcome(s, r, tx)
    requires lost ==> LostCommit in w.tolerated || s.requests[r].op.Transfer?
    ensures Reached(w, past + Work(r, tx, lost), s')
    ensures Worked(s.core, s'.core, r, s.requests[r].op, tx, lost)
    ensures s' == s.(core := s'.core, requests := s.requests[r := s.requests[r].(stage := Serving)])
  {
    CoreIsReachable(w, past, s);
    var c := CallWorks(s.core, r, s.requests[r].op, tx, lost);
    WorkIsAllowed(w, Launched(s, r), r, tx, lost);
    LaunchAndLift(w, past, s, r, Through(r, tx, lost), c);
    s' := Launched(s, r).(core := c);
  }

  /** The handler runs, and what it answers is saved if the table works. */
  function Serve(r: Pid, tx: TxId, lost: bool, saved: bool): seq<Action> {
    Work(r, tx, lost) + Leave(r, saved)
  }

  ghost predicate Served(s: System, s': System, r: Pid, tx: TxId, lost: bool, saved: bool)
    requires r in s.requests
  {
    var op := s.requests[r].op;
    && Worked(s.core, s'.core, r, op, tx, lost)
    && s' == Left(s.(core := s'.core), r, StatusOf(op, Reported(lost)), BodyOf(op, Reported(lost)), saved)
  }

  lemma ServeRuns(w: Watch, past: seq<Action>, s: System, r: Pid, tx: TxId, lost: bool, saved: bool)
    returns (s': System)
    requires Reached(w, past, s) && Welcome(s, r, tx)
    requires lost ==> LostCommit in w.tolerated || s.requests[r].op.Transfer?
    requires saved || FailingSave in w.tolerated
    ensures Reached(w, past + Serve(r, tx, lost, saved), s')
    ensures Served(s, s', r, tx, lost, saved)
  {
    var s1 := WorkRuns(w, past, s, r, tx, lost);
    s' := LeaveRuns(w, past + Work(r, tx, lost), s1, r, saved);
    Assoc(past, Work(r, tx, lost), Leave(r, saved));
    assert s'.requests == s.requests[r := s'.requests[r]];
  }

  /** The handler refuses the request before any ledger call. */
  function Refuse(r: Pid, code: nat, text: string, saved: bool): seq<Action> {
    [Reject(r, code, Text(text))] + [Save(r, saved)]
  }

  lemma RefuseRuns(w: Watch, past: seq<Action>, s: System, r: Pid, code: nat, text: string, saved: bool)
    requires Reached(w, past, s) && At(s, r, Missed) && 400 <= code < 500
    requires saved || FailingSave in w.tolerated
    ensures Reached(w, past + Refuse(r, code, text, saved), Left(s, r, code, Text(text), saved))
  {
    OneMore(w, past, s, Reject(r, code, Text(text)));
    var s1 := Do(s, Reject(r, code, Text(text)));
    var s2 := SaveRuns(w, past + [Reject(r, code, Text(text))], s1, r, saved);
    Assoc(past, [Reject(r, code, Text(text))], [Save(r, saved)]);
    assert s2.requests == Left(s, r, code, Text(text), saved).requests;
  }
}
