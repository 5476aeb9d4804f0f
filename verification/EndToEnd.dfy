/**
 Requests through the idempotency middleware, the handlers, ExecTx and the tables together. Lookups,
 handler runs, ledger queries and saves of all requests interleave; the ledger part is the
 query-level system of module Concurrency, a request's ledger call bearing the request's own number.
 */
module EndToEnd {
  import opened Wrappers
  import opened Ledger
  import opened History
  import opened Handlers
  import opened KeyTable
  import Conc = Concurrency

  datatype Stage =
    | Arrived
    | Missed                                      // the lookup gave nothing; the handler is to run
    | Serving                                     // the handler is inside its ledger call
    | Answered(code: nat, body: Body)             // response captured, save still to come
    | Done(code: nat, body: Body, hit: bool)

  /** A mutating request with an idempotency key and a valid user; `id` is its digest. */
  datatype Request = Request(key: string, user: UserId, payload: string, id: Digest, op: Op, stage: Stage)
  {
    /** As the middleware gets it. Requests without a key it does not keep track of. */
    predicate New() {
      stage.Arrived? && key != "" && id == CompoundHash(key, user, payload)
    }
  }

  datatype Answer = Answer(id: Digest, user: UserId, code: nat, body: Body)

  datatype System = System(core: Conc.State, keys: Keys<Body>, requests: map<Pid, Request>, answers: seq<Answer>)

  datatype Action =
    | Arrive(r: Pid, request: Request)
    | Lookup(r: Pid, works: bool)
    | Reject(r: Pid, code: nat, body: Body)       // the handler answers 4xx without calling ExecTx
    | Launch(r: Pid)
    | Core(step: Conc.Label)                      // a step of some ledger call, or of an untracked one
    | Respond(r: Pid)
    | Save(r: Pid, works: bool)

  function Start(limit: nat): System {
    System(Conc.Start(limit), map[], map[], [])
  }

  predicate At(s: System, r: Pid, stage: Stage) {
    r in s.requests && s.requests[r].stage == stage
  }

  predicate Enabled(s: System, a: Action) {
    match a
    case Arrive(r, q) =>
      r !in s.requests && r !in s.core.txns && q.New()
    case Lookup(r, _) => At(s, r, Arrived)
    case Reject(r, code, _) => At(s, r, Missed) && 400 <= code < 500
    case Launch(r) => At(s, r, Missed) && s.requests[r].op.Valid()
    case Core(l) => Conc.Enabled(s.core, l) && (l.Spawn? ==> l.pid !in s.requests)
    case Respond(r) => At(s, r, Serving) && r in s.core.txns && s.core.txns[r].phase.Finished?
    case Save(r, _) => r in s.requests && s.requests[r].stage.Answered?
  }

  function Move(s: System, r: Pid, stage: Stage): System
    requires r in s.requests
  {
    s.(requests := s.requests[r := s.requests[r].(stage := stage)])
  }

  function Finish(s: System, r: Pid, code: nat, body: Body, hit: bool): System
    requires r in s.requests
  {
    var q := s.requests[r];
    Move(s, r, Done(code, body, hit)).(answers := s.answers + [Answer(q.id, q.user, code, body)])
  }

  function Do(s: System, a: Action): System
    requires Enabled(s, a)
  {
    match a
    case Arrive(r, q) => s.(requests := s.requests[r := q])
    case Lookup(r, works) =>
      var found := Find(s.keys, s.requests[r].id, s.requests[r].user);
      if works && found.Some? then Finish(s, r, found.value.code, found.value.body, true)
      else Move(s, r, Missed)
    case Reject(r, code, body) => Move(s, r, Answered(code, body))
    case Launch(r) => Move(s, r, Serving).(core := LaunchCore(s.core, r, s.requests[r].op))
    case Core(l) => s.(core := Conc.Do(s.core, l))
    case Respond(r) =>
      var op := s.requests[r].op;
      var result := s.core.txns[r].phase.result;
      Move(s, r, Answered(StatusOf(op, result), BodyOf(op, result)))
    case Save(r, works) =>
      var q := s.requests[r];
      var s' := if works && q.stage.code < 500
                then s.(keys := Insert(s.keys, q.id, Row(q.user, q.stage.code, q.stage.body))) else s;
      Finish(s', r, q.stage.code, q.stage.body, false)
  }

  function LaunchCore(core: Conc.State, r: Pid, op: Op): Conc.State {
    Conc.Put(core, r, Conc.NewAttempt(op, 0, Conc.Waiting))
  }

  function Run(limit: nat, actions: seq<Action>): Option<System> {
    if actions == [] then Some(Start(limit))
    else
      match Run(limit, actions[..|actions| - 1])
      case None => None
      case Some(s) =>
        var a := actions[|actions| - 1];
        if Enabled(s, a) then Some(Do(s, a)) else None
  }

  // ---- What holds in every run, overlapping requests and failing key table included ----

  /** How a request's stage and its ledger call agree. */
  ghost predicate RequestOk(s: System, r: Pid)
    requires r in s.requests
  {
    var q := s.requests[r];
    match q.stage
    case Arrived => r !in s.core.txns
    case Missed => r !in s.core.txns
    case Serving => r in s.core.txns && s.core.txns[r].op == q.op
    case Answered(code, body) => AnswerOk(s, r, code, body)
    case Done(code, body, hit) =>
      if hit then r !in s.core.txns && s.keys.Keys >= {q.id} && s.keys[q.id] == Row(q.user, code, body)
      else AnswerOk(s, r, code, body)
  }

  /** An answer given without the cache is a 4xx refusal, or the outcome of the finished ledger call. */
  ghost predicate AnswerOk(s: System, r: Pid, code: nat, body: Body)
    requires r in s.requests
  {
    var q := s.requests[r];
    if r in s.core.txns then
      && s.core.txns[r].op == q.op && s.core.txns[r].phase.Finished?
      && code == StatusOf(q.op, s.core.txns[r].phase.result)
      && body == BodyOf(q.op, s.core.txns[r].phase.result)
    else 400 <= code < 500
  }

  /** A stored response is one that a request with this digest and user really got. */
  ghost predicate Origin(s: System, id: Digest, r: Pid) {
    && id in s.keys && r in s.requests && s.requests[r].id == id
    && s.requests[r].user == s.keys[id].user
    && s.requests[r].stage == Done(s.keys[id].code, s.keys[id].body, false)
  }

  ghost predicate RequestsOk(s: System) {
    forall r :: r in s.requests ==> RequestOk(s, r)
  }

  ghost predicate KeysOk(s: System) {
    forall id :: id in s.keys ==> s.keys[id].code < 500 && exists r :: Origin(s, id, r)
  }

  ghost predicate Inv(s: System) {
    Conc.Reachable(s.core) && RequestsOk(s) && KeysOk(s)
  }

  /** A ledger step leaves finished calls, and calls that do not exist yet, as they are. */
  lemma CoreStepFrame(core: Conc.State, l: Conc.Label, r: Pid)
    requires Conc.Enabled(core, l) && (l.Spawn? ==> l.pid != r)
    ensures var core' := Conc.Do(core, l);
            && (r in core'.txns <==> r in core.txns)
            && (r in core.txns ==> core'.txns[r].op == core.txns[r].op)
            && (r in core.txns && core.txns[r].phase.Finished? ==> core'.txns[r] == core.txns[r])
  {
    Conc.StepFrame(core, l, r);
  }

  /** The ledger part of every run of requests is a run of the query-level system. */
  lemma StepKeepsCore(s: System, a: Action)
    requires Conc.Reachable(s.core) && RequestsOk(s) && Enabled(s, a)
    ensures Conc.Reachable(Do(s, a).core)
  {
    match a
    case Core(l) => Conc.StepReaches(s.core, l);
    case Launch(r) =>
      assert RequestOk(s, r);
      Conc.StepReaches(s.core, Conc.Spawn(r, s.requests[r].op));
    case _ =>
  }

  lemma CoreStepKeepsRequest(s: System, l: Conc.Label, r: Pid)
    requires Enabled(s, Core(l)) && r in s.requests && RequestOk(s, r)
    ensures RequestOk(Do(s, Core(l)), r)
  {
    CoreStepFrame(s.core, l, r);
  }

  /** An action of another request. */
  lemma OtherStepKeepsRequest(s: System, a: Action, r: Pid)
    requires Enabled(s, a) && !a.Core? && a.r != r && r in s.requests && RequestOk(s, r)
    ensures r in Do(s, a).requests && RequestOk(Do(s, a), r)
  {
  }

  lemma OwnStepKeepsRequest(s: System, a: Action)
    requires Enabled(s, a) && !a.Core? && (a.r in s.requests ==> RequestOk(s, a.r))
    ensures a.r in Do(s, a).requests && RequestOk(Do(s, a), a.r)
  {
  }

  lemma {:induction false} StepKeepsRequests(s: System, a: Action)
    requires RequestsOk(s) && Enabled(s, a)
    ensures RequestsOk(Do(s, a))
  {
    forall r | r in Do(s, a).requests ensures RequestOk(Do(s, a), r) {
      if a.Core? {
        CoreStepKeepsRequest(s, a.step, r);
      } else if a.r == r {
        OwnStepKeepsRequest(s, a);
      } else {
        OtherStepKeepsRequest(s, a, r);
      }
    }
  }

  /** Only a save writes to the key table, and never over a row. */
  lemma KeysFrame(s: System, a: Action)
    requires Enabled(s, a)
    ensures forall id :: id in s.keys ==> id in Do(s, a).keys && Do(s, a).keys[id] == s.keys[id]
    ensures forall id :: id in Do(s, a).keys && id !in s.keys ==> a.Save? && Origin(Do(s, a), id, a.r)
    ensures forall id :: id in Do(s, a).keys && id !in s.keys ==> Do(s, a).keys[id].code < 500
  {
  }

  lemma StepKeepsOrigin(s: System, a: Action, id: Digest, r: Pid)
    requires Enabled(s, a) && Origin(s, id, r)
    ensures Origin(Do(s, a), id, r)
  {
  }

  lemma {:induction false} StepKeepsKeys(s: System, a: Action)
    requires KeysOk(s) && Enabled(s, a)
    ensures KeysOk(Do(s, a))
  {
    KeysFrame(s, a);
    forall id | id in s.keys ensures exists r :: Origin(Do(s, a), id, r) {
      var r :| Origin(s, id, r);
      StepKeepsOrigin(s, a, id, r);
    }
  }

  lemma StepKeepsInv(s: System, a: Action)
    requires Inv(s) && Enabled(s, a)
    ensures Inv(Do(s, a))
  {
    StepKeepsCore(s, a);
    StepKeepsRequests(s, a);
    StepKeepsKeys(s, a);
  }

  lemma {:induction false} RunInv(limit: nat, actions: seq<Action>)
    requires Run(limit, actions).Some?
    ensures Inv(Run(limit, actions).value)
  {
    if actions == [] {
      assert Conc.Run(limit, []) == Some(Conc.Start(limit));
    } else {
      RunInv(limit, actions[..|actions| - 1]);
      StepKeepsInv(Run(limit, actions[..|actions| - 1]).value, actions[|actions| - 1]);
    }
  }

  /** Once written, a stored response is never changed or removed, whatever requests do. */
  lemma {:induction false} StoredResponsesAreFinal(limit: nat, a: seq<Action>, b: seq<Action>)
    requires Run(limit, a + b).Some?
    ensures Run(limit, a).Some?
    ensures var before, after := Run(limit, a).value.keys, Run(limit, a + b).value.keys;
            forall id :: id in before ==> id in after && after[id] == before[id]
  {
    if b == [] {
      assert a + b == a;
    } else {
      assert (a + b)[..|a + b| - 1] == a + b[..|b| - 1];
      StoredResponsesAreFinal(limit, a, b[..|b| - 1]);
      KeysFrame(Run(limit, a + b[..|b| - 1]).value, (a + b)[|a + b| - 1]);
    }
  }

  /**
   Every hit replays the stored response exactly, to the user it was stored for, and that response
   is what some request of that user with the same digest got from its handler.
   */
  lemma HitsReplayTheStoredRun(limit: nat, actions: seq<Action>, r: Pid)
    requires Run(limit, actions).Some?
    requires var s := Run(limit, actions).value;
             r in s.requests && s.requests[r].stage.Done? && s.requests[r].stage.hit
    ensures var s := Run(limit, actions).value; var q := s.requests[r];
            && q.id in s.keys && s.keys[q.id] == Row(q.user, q.stage.code, q.stage.body)
            && exists r0 :: Origin(s, q.id, r0)
  {
    RunInv(limit, actions);
    assert RequestOk(Run(limit, actions).value, r);
  }
}
