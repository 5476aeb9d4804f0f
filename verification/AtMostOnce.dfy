/**
 The property the idempotency key is there for: requests that share a digest change the ledger at
 most once and get one answer, as long as nothing of a list of disturbances happens to them. Module
 Disturbances shows that each of them breaks it.
 */
module AtMostOnce {
  import opened Ledger
  import opened History
  import opened KeyTable
  import opened EndToEnd
  import opened Refinement
  import Conc = Concurrency

  predicate Tracked(s: System, id: Digest, r: Pid) {
    r in s.requests && s.requests[r].id == id
  }

  predicate Open(s: System, id: Digest, r: Pid) {
    Tracked(s, id, r) && !s.requests[r].stage.Done?
  }

  /** The ledger call of this request reached the tables. */
  predicate Changed(s: System, r: Pid) {
    r in s.core.txns && s.core.txns[r].phase.Finished? && s.core.txns[r].phase.committed
  }

  /** What can come between a request and its retries. */
  datatype Disturbance =
    | LostCommit      // a commit of a deposit or withdrawal is applied, and its outcome lost
    | Overlap         // a request arrives before another with its digest has been saved; the other may be
                      // answered by then, since the answer goes out first
    | FailingLookup   // the key table cannot be read
    | FailingSave     // or not be written
    | SecondUser      // another user's request has the same digest

  /** Nothing happens to the requests with this digest, which `user` sends, but what is tolerated. */
  ghost predicate Allowed(s: System, a: Action, id: Digest, user: UserId, tolerated: set<Disturbance>) {
    match a
    case Arrive(r, q) =>
      q.id == id ==>
        && (q.user == user || SecondUser in tolerated)
        && ((forall r0 :: Tracked(s, id, r0) ==> s.requests[r0].stage.Done?) || Overlap in tolerated)
    case Lookup(r, works) => Tracked(s, id, r) ==> works || FailingLookup in tolerated
    case Save(r, works) => Tracked(s, id, r) ==> works || FailingSave in tolerated
    case Core(l) =>
      l.CommitLost? && l.applied && Tracked(s, id, l.pid) && !s.requests[l.pid].op.Transfer? ==> LostCommit in tolerated
    case _ => true
  }

  ghost predicate CalmUpTo(limit: nat, actions: seq<Action>, id: Digest, user: UserId, tolerated: set<Disturbance>)
    requires Run(limit, actions).Some?
  {
    actions == [] ||
    var before := actions[..|actions| - 1];
    && CalmUpTo(limit, before, id, user, tolerated)
    && Allowed(Run(limit, before).value, actions[|actions| - 1], id, user, tolerated)
  }

  // ---- Requests and stored rows ----

  /** An answer below 500 from a handler, not from the key table. */
  predicate Stands(stage: Stage) {
    stage.Done? && !stage.hit && stage.code < 500
  }

  ghost predicate OneOpen(s: System, id: Digest, user: UserId) {
    && (forall r :: Tracked(s, id, r) ==> s.requests[r].user == user)
    && (forall r1, r2 :: Open(s, id, r1) && Open(s, id, r2) ==> r1 == r2)
  }

  /** Before anything is stored: only 5xx answers so far. */
  ghost predicate NothingYet(s: System, id: Digest) {
    forall r :: Tracked(s, id, r) && s.requests[r].stage.Done? ==> s.requests[r].stage.code >= 500
  }

  /** After that: the stored answer is the only one that stands, and every open request will hit. */
  ghost predicate SettledBy(s: System, id: Digest, r0: Pid) {
    && Origin(s, id, r0)
    && forall r :: Tracked(s, id, r) && r != r0
                   ==> s.requests[r].stage.Arrived? || (s.requests[r].stage.Done? && !Stands(s.requests[r].stage))
  }

  ghost predicate StagesInv(s: System, id: Digest, user: UserId) {
    && OneOpen(s, id, user)
    && (if id in s.keys then exists r0 :: SettledBy(s, id, r0) else NothingYet(s, id))
  }

  /** A request's stage moves; for this digest nothing is saved. */
  lemma MoveKeepsStages(s: System, s': System, r: Pid, stage: Stage, id: Digest, user: UserId)
    requires StagesInv(s, id, user) && r in s.requests && !s.requests[r].stage.Done?
    requires s'.requests == s.requests[r := s.requests[r].(stage := stage)]
    requires (id in s'.keys <==> id in s.keys) && (id in s.keys ==> s'.keys[id] == s.keys[id])
    requires Tracked(s, id, r) && stage.Done? && id !in s.keys ==> stage.code >= 500
    requires Tracked(s, id, r) && id in s.keys ==> stage.Arrived? || (stage.Done? && !Stands(stage))
    ensures StagesInv(s', id, user)
  {
    assert forall x :: Tracked(s', id, x) <==> Tracked(s, id, x);
    assert forall x :: Open(s', id, x) ==> Open(s, id, x);
    if id in s.keys {
      var r0 :| SettledBy(s, id, r0);
      assert SettledBy(s', id, r0);
    }
  }

  lemma ArriveStep(s: System, r: Pid, q: Request, id: Digest, user: UserId)
    requires Enabled(s, Arrive(r, q)) && Allowed(s, Arrive(r, q), id, user, {LostCommit}) && StagesInv(s, id, user)
    ensures StagesInv(Do(s, Arrive(r, q)), id, user)
  {
    var s' := Do(s, Arrive(r, q));
    assert forall x :: Tracked(s', id, x) && x != r ==> Tracked(s, id, x);
    assert forall x :: Open(s', id, x) && x != r ==> Open(s, id, x);
    if id in s.keys {
      var r0 :| SettledBy(s, id, r0);
      assert SettledBy(s', id, r0);
    }
  }

  /** An open request that is past its lookup means that nothing is stored yet. */
  lemma PastLookupMeansUnstored(s: System, r: Pid, id: Digest, user: UserId)
    requires StagesInv(s, id, user) && Open(s, id, r) && !s.requests[r].stage.Arrived?
    ensures id !in s.keys
  {
  }

  /** A row that is stored belongs to the user all these requests come from. */
  lemma StoredForUser(s: System, id: Digest, user: UserId)
    requires StagesInv(s, id, user) && id in s.keys
    ensures s.keys[id].user == user
  {
    var r0 :| SettledBy(s, id, r0);
    assert Tracked(s, id, r0);
  }

  lemma HandlerStep(s: System, a: Action, id: Digest, user: UserId)
    requires Enabled(s, a) && StagesInv(s, id, user)
    requires a.Reject? || a.Launch? || a.Respond?
    ensures StagesInv(Do(s, a), id, user)
  {
    if Tracked(s, id, a.r) {
      PastLookupMeansUnstored(s, a.r, id, user);
    }
    MoveKeepsStages(s, Do(s, a), a.r, Do(s, a).requests[a.r].stage, id, user);
  }

  lemma LookupStep(s: System, r: Pid, works: bool, id: Digest, user: UserId)
    requires Enabled(s, Lookup(r, works)) && Allowed(s, Lookup(r, works), id, user, {LostCommit})
    requires StagesInv(s, id, user)
    ensures StagesInv(Do(s, Lookup(r, works)), id, user)
  {
    if id in s.keys {
      StoredForUser(s, id, user);
    }
    MoveKeepsStages(s, Do(s, Lookup(r, works)), r, Do(s, Lookup(r, works)).requests[r].stage, id, user);
  }

  /** The first answer below 500 is stored, and settles the digest. */
  lemma FirstSave(s: System, r: Pid, id: Digest, user: UserId)
    requires Enabled(s, Save(r, true)) && StagesInv(s, id, user)
    requires Tracked(s, id, r) && id !in s.keys && s.requests[r].stage.code < 500
    ensures StagesInv(Do(s, Save(r, true)), id, user)
  {
    var s' := Do(s, Save(r, true));
    assert forall x :: Tracked(s', id, x) <==> Tracked(s, id, x);
    assert forall x :: Tracked(s, id, x) && x != r ==> !Open(s, id, x) by {
      assert Open(s, id, r);
    }
    assert SettledBy(s', id, r);
  }

  lemma SaveStep(s: System, r: Pid, works: bool, id: Digest, user: UserId)
    requires Enabled(s, Save(r, works)) && Allowed(s, Save(r, works), id, user, {LostCommit})
    requires StagesInv(s, id, user)
    ensures StagesInv(Do(s, Save(r, works)), id, user)
  {
    var s' := Do(s, Save(r, works));
    if Tracked(s, id, r) {
      PastLookupMeansUnstored(s, r, id, user);
    }
    if Tracked(s, id, r) && s.requests[r].stage.code < 500 {
      FirstSave(s, r, id, user);
    } else {
      MoveKeepsStages(s, s', r, s'.requests[r].stage, id, user);
    }
  }

  lemma CoreStep(s: System, l: Conc.Label, id: Digest, user: UserId)
    requires Enabled(s, Core(l)) && StagesInv(s, id, user)
    ensures StagesInv(Do(s, Core(l)), id, user)
  {
    var s' := Do(s, Core(l));
    assert forall x :: (Tracked(s', id, x) <==> Tracked(s, id, x)) && (Open(s', id, x) <==> Open(s, id, x));
    if id in s.keys {
      var r0 :| SettledBy(s, id, r0);
      assert SettledBy(s', id, r0);
    }
  }

  lemma StepKeepsStages(s: System, a: Action, id: Digest, user: UserId)
    requires Enabled(s, a) && Allowed(s, a, id, user, {LostCommit}) && StagesInv(s, id, user)
    ensures StagesInv(Do(s, a), id, user)
  {
    match a {
      case Core(l) => CoreStep(s, l, id, user);
      case Arrive(r, q) => ArriveStep(s, r, q, id, user);
      case Lookup(r, works) => LookupStep(s, r, works, id, user);
      case Save(r, works) => SaveStep(s, r, works, id, user);
      case _ => HandlerStep(s, a, id, user);
    }
  }

  // ---- Answers ----

  predicate IsFor(x: Answer, id: Digest, user: UserId) {
    x.id == id && x.user == user
  }

  /** After the first answer below 500 to a user, every later answer to this user is that answer. */
  ghost predicate OneAnswer(answers: seq<Answer>, id: Digest, user: UserId) {
    forall i, j :: 0 <= i < j < |answers| && IsFor(answers[i], id, user) && IsFor(answers[j], id, user)
                   && answers[i].code < 500
                   ==> answers[j] == answers[i]
  }

  /** Every answer below 500 is the stored one. */
  ghost predicate AnswersAreStored(s: System, id: Digest, user: UserId) {
    forall i :: 0 <= i < |s.answers| && IsFor(s.answers[i], id, user) && s.answers[i].code < 500
                ==> id in s.keys && s.answers[i] == Answer(id, user, s.keys[id].code, s.keys[id].body)
  }

  ghost predicate AnswersInv(s: System, id: Digest, user: UserId) {
    AnswersAreStored(s, id, user) && OneAnswer(s.answers, id, user)
  }

  /** One more answer: below 500 it is the stored one, and it has to be once there is a stored one. */
  lemma AnswerAppended(s: System, s': System, x: Answer, id: Digest, user: UserId)
    requires AnswersInv(s, id, user) && s'.answers == s.answers + [x]
    requires id in s.keys ==> id in s'.keys && s'.keys[id] == s.keys[id]
    requires IsFor(x, id, user) && x.code < 500
             ==> id in s'.keys && x == Answer(id, user, s'.keys[id].code, s'.keys[id].body)
    requires IsFor(x, id, user) && id in s.keys ==> x.code < 500
    ensures AnswersInv(s', id, user)
  {
  }

  lemma NoAnswerAdded(s: System, s': System, id: Digest, user: UserId)
    requires AnswersInv(s, id, user) && s'.answers == s.answers
    requires id in s.keys ==> id in s'.keys && s'.keys[id] == s.keys[id]
    ensures AnswersInv(s', id, user)
  {
  }

  lemma StepKeepsAnswers(s: System, a: Action, id: Digest, user: UserId)
    requires Enabled(s, a) && Allowed(s, a, id, user, {LostCommit}) && StagesInv(s, id, user)
    requires KeysOk(s) && AnswersInv(s, id, user)
    ensures AnswersInv(Do(s, a), id, user)
  {
    var s' := Do(s, a);
    KeysFrame(s, a);
    if s'.answers == s.answers {
      NoAnswerAdded(s, s', id, user);
    } else {
      if a.Save? && Tracked(s, id, a.r) {
        PastLookupMeansUnstored(s, a.r, id, user);
      }
      AnswerAppended(s, s', s'.answers[|s.answers|], id, user);
    }
  }

  lemma MoreIsTolerated(s: System, a: Action, id: Digest, user: UserId, less: set<Disturbance>, more: set<Disturbance>)
    requires less <= more && Allowed(s, a, id, user, less)
    ensures Allowed(s, a, id, user, more)
  {
  }

  /** Runs without any disturbance but lost commits keep the requests, the row and the answers in step. */
  lemma {:induction false} CalmRunInv(limit: nat, actions: seq<Action>, id: Digest, user: UserId,
                                      tolerated: set<Disturbance>)
    requires Run(limit, actions).Some? && CalmUpTo(limit, actions, id, user, tolerated) && tolerated <= {LostCommit}
    ensures var s := Run(limit, actions).value;
            StagesInv(s, id, user) && AnswersInv(s, id, user)
  {
    if actions != [] {
      var before, a := actions[..|actions| - 1], actions[|actions| - 1];
      var s := Run(limit, before).value;
      RunInv(limit, before);
      CalmRunInv(limit, before, id, user, tolerated);
      MoreIsTolerated(s, a, id, user, tolerated, {LostCommit});
      StepKeepsStages(s, a, id, user);
      StepKeepsAnswers(s, a, id, user);
    }
  }

  // ---- Lost commits ----

  /** The commit of this request's call was applied, and the handler not told. */
  ghost predicate CommitLostIn(actions: seq<Action>, r: Pid) {
    exists e :: Core(Conc.CommitLost(r, true, e)) in actions
  }

  lemma StepLosesCommitOf(s: System, a: Action, r: Pid)
    requires RequestsOk(s) && Enabled(s, a)
    ensures FailedButPosted(Do(s, a).core, r)
            <==> FailedButPosted(s.core, r)
                 || (a.Core? && a.step.CommitLost? && a.step.pid == r && a.step.applied)
  {
    match a
    case Core(l) => StepLosesCommit(s.core, l, r);
    case Launch(x) => assert RequestOk(s, x);
    case _ =>
  }

  lemma {:induction false} LostCommitsShowInCalls(limit: nat, actions: seq<Action>, r: Pid)
    requires Run(limit, actions).Some?
    ensures FailedButPosted(Run(limit, actions).value.core, r) <==> CommitLostIn(actions, r)
  {
    if actions != [] {
      var before, a := actions[..|actions| - 1], actions[|actions| - 1];
      LostCommitsShowInCalls(limit, before, r);
      RunInv(limit, before);
      StepLosesCommitOf(Run(limit, before).value, a, r);
      assert actions == before + [a];
      assert forall x :: x in actions <==> x in before || x == a;
    }
  }

  /** A deposit or withdrawal that reported an error left the ledger alone. */
  ghost predicate ErrorsAreClean(s: System, id: Digest) {
    forall r :: Tracked(s, id, r) && FailedButPosted(s.core, r) ==> s.requests[r].op.Transfer?
  }

  lemma StepKeepsErrorsClean(s: System, a: Action, id: Digest, user: UserId, tolerated: set<Disturbance>)
    requires RequestsOk(s) && Enabled(s, a) && Allowed(s, a, id, user, tolerated) && LostCommit !in tolerated
    requires ErrorsAreClean(s, id)
    ensures ErrorsAreClean(Do(s, a), id)
  {
    forall r | Tracked(Do(s, a), id, r) && FailedButPosted(Do(s, a).core, r)
      ensures Do(s, a).requests[r].op.Transfer?
    {
      StepLosesCommitOf(s, a, r);
      assert r in s.core.txns;
    }
  }

  lemma {:induction false} CalmRunClean(limit: nat, actions: seq<Action>, id: Digest, user: UserId,
                                        tolerated: set<Disturbance>)
    requires Run(limit, actions).Some? && CalmUpTo(limit, actions, id, user, tolerated) && LostCommit !in tolerated
    ensures ErrorsAreClean(Run(limit, actions).value, id)
  {
    if actions != [] {
      var before := actions[..|actions| - 1];
      RunInv(limit, before);
      CalmRunClean(limit, before, id, user, tolerated);
      StepKeepsErrorsClean(Run(limit, before).value, actions[|actions| - 1], id, user, tolerated);
    }
  }

  // ---- Counting changes ----

  /** A request whose call may have reached the tables: under way, or with an answer below 500 of its own. */
  predicate MayHaveChanged(stage: Stage) {
    stage.Serving? || (stage.Answered? && stage.code < 500) || Stands(stage)
  }

  /**
   Only these may: so a 5xx answer means a deposit or withdrawal whose ledger call failed without
   effect, and an answer from the key table a request that never called the ledger.
   */
  lemma ServerErrorIsClean(s: System, id: Digest, r: Pid)
    requires Tracked(s, id, r) && RequestOk(s, r) && ErrorsAreClean(s, id) && Changed(s, r)
    ensures MayHaveChanged(s.requests[r].stage)
  {
  }

  /** How often these calls changed the ledger. */
  function ChangesBy(history: seq<Event>, who: set<Pid>): nat {
    if history == [] then 0
    else
      var e := history[|history| - 1];
      ChangesBy(history[..|history| - 1], who) + (if e.Posting? && e.pid in who then 1 else 0)
  }

  /** The requests of one user with this digest. */
  function Sent(s: System, id: Digest, user: UserId): set<Pid> {
    set r | r in s.requests && s.requests[r].id == id && s.requests[r].user == user
  }

  /** How often they changed the ledger. */
  function Changes(s: System, id: Digest, user: UserId): nat {
    ChangesBy(s.core.history, Sent(s, id, user))
  }

  lemma {:induction false} ChangesOfOne(history: seq<Event>, who: set<Pid>, r0: Pid)
    requires forall r :: r in who && r != r0 ==> Conc.Postings(history, r) == 0
    ensures ChangesBy(history, who) <= Conc.Postings(history, r0)
    ensures r0 in who ==> ChangesBy(history, who) == Conc.Postings(history, r0)
  {
    if history != [] {
      forall r | r in who && r != r0
        ensures Conc.Postings(history[..|history| - 1], r) == 0 && Conc.Postings(history, r) == 0
      {
      }
      ChangesOfOne(history[..|history| - 1], who, r0);
    }
  }

  lemma PostingsOfRequest(s: System, r: Pid)
    requires Inv(s)
    ensures Conc.Postings(s.core.history, r) == (if Changed(s, r) then 1 else 0)
  {
    Conc.ReachableInv(s.core);
    assert Conc.CountOk(s.core, r);
  }

  /** In every calm state there is one request at most that can have changed the ledger. */
  lemma OneChanger(s: System, id: Digest, user: UserId) returns (r0: Pid)
    requires RequestsOk(s) && StagesInv(s, id, user) && ErrorsAreClean(s, id)
    ensures forall r :: Tracked(s, id, r) && Changed(s, r) ==> r == r0
    ensures id in s.keys ==> Origin(s, id, r0)
  {
    r0 := 0;
    if id in s.keys {
      r0 :| SettledBy(s, id, r0);
    } else if r :| Open(s, id, r) {
      r0 := r;
    }
    forall r | Tracked(s, id, r) && Changed(s, r) ensures r == r0 {
      assert RequestOk(s, r);
      ServerErrorIsClean(s, id, r);
      assert s.requests[r].stage.Done? || Open(s, id, r);
    }
  }

  /** The ledger changed once if that request's call reached the tables, and else not at all. */
  lemma OneChangeAtMost(s: System, id: Digest, user: UserId) returns (r0: Pid)
    requires Inv(s) && StagesInv(s, id, user) && ErrorsAreClean(s, id)
    ensures Changes(s, id, user) <= 1 && (id in s.keys ==> Origin(s, id, r0))
    ensures Tracked(s, id, r0) ==> Changes(s, id, user) == (if Changed(s, r0) then 1 else 0)
    ensures forall r :: Tracked(s, id, r) && Changed(s, r) ==> r == r0
  {
    r0 := OneChanger(s, id, user);
    forall r ensures Conc.Postings(s.core.history, r) == (if Changed(s, r) then 1 else 0) {
      PostingsOfRequest(s, r);
    }
    ChangesOfOne(s.core.history, Sent(s, id, user), r0);
  }

  lemma SuccessIsCommitted(s: System, r: Pid)
    requires Inv(s) && r in s.requests && s.requests[r].stage.Done? && !s.requests[r].stage.hit
    requires s.requests[r].stage.code == 200
    ensures Changed(s, r)
  {
    assert RequestOk(s, r);
    Conc.ReachableInv(s.core);
    assert Conc.TxnOk(s.core.tables, s.core.usedTx, s.core.txns[r]);
  }

  // ---- What a success has posted ----

  lemma {:induction false} PostingIn(history: seq<Event>, r: Pid) returns (e: Event)
    requires Conc.Postings(history, r) > 0
    ensures e in history && e.Posting? && e.pid == r
  {
    e := history[|history| - 1];
    if !(e.Posting? && e.pid == r) {
      e := PostingIn(history[..|history| - 1], r);
    }
  }

  /** A request's posting is that of the operation it asked for. */
  lemma PostingIsOfSender(s: System, r: Pid, op: Op, tx: TxId)
    requires Inv(s) && r in s.requests && Posting(r, op, tx) in s.core.history
    ensures Changed(s, r) && s.requests[r].op == op
  {
    ReachableEventsOk(s.core);
    assert RequestOk(s, r);
  }

  lemma ChangedHasPosting(s: System, r: Pid) returns (tx: TxId)
    requires Inv(s) && r in s.requests && Changed(s, r)
    ensures Posting(r, s.requests[r].op, tx) in s.core.history
  {
    PostingsOfRequest(s, r);
    var e := PostingIn(s.core.history, r);
    PostingIsOfSender(s, r, e.op, e.tx);
    tx := e.tx;
  }

  /** What this request asked for is in the tables, posted for it or for another of its user and digest. */
  ghost predicate OwnPosted(s: System, r: Pid)
    requires r in s.requests
  {
    var q := s.requests[r];
    exists r0, tx :: r0 in Sent(s, q.id, q.user) && Posting(r0, q.op, tx) in s.core.history
  }

  /** The request has been told 200. */
  predicate Succeeded(s: System, r: Pid) {
    r in s.requests && s.requests[r].stage.Done? && s.requests[r].stage.code == 200
  }

  ghost predicate SuccessesAreOwn(s: System, id: Digest, user: UserId) {
    forall r :: r in Sent(s, id, user) && Succeeded(s, r) ==> OwnPosted(s, r)
  }

  /** A success was stored by the request whose call was committed. */
  lemma SuccessHasOrigin(s: System, id: Digest, user: UserId, r: Pid) returns (r0: Pid)
    requires Inv(s) && StagesInv(s, id, user) && ErrorsAreClean(s, id)
    requires Tracked(s, id, r) && Succeeded(s, r)
    ensures Tracked(s, id, r0) && Changed(s, r0) && Changes(s, id, user) == 1
    ensures forall x :: Tracked(s, id, x) && Changed(s, x) ==> x == r0
  {
    assert RequestOk(s, r);
    r0 := OneChangeAtMost(s, id, user);
    SuccessIsCommitted(s, r0);
  }

  /**
   In an undisturbed run a success means that one operation of its digest was posted, once: the one
   asked for by the request that was served. It is the request's own exactly if it asked for the same.
   */
  lemma SuccessPostsTheServedOperation(limit: nat, actions: seq<Action>, id: Digest, user: UserId, r: Pid)
    returns (r0: Pid, tx: TxId)
    requires Run(limit, actions).Some? && CalmUpTo(limit, actions, id, user, {})
    requires var s := Run(limit, actions).value; r in Sent(s, id, user) && Succeeded(s, r)
    ensures var s := Run(limit, actions).value;
            && r0 in Sent(s, id, user) && Posting(r0, s.requests[r0].op, tx) in s.core.history
            && Changes(s, id, user) == 1
            && (OwnPosted(s, r) <==> s.requests[r].op == s.requests[r0].op)
  {
    var s := Run(limit, actions).value;
    RunInv(limit, actions);
    CalmRunInv(limit, actions, id, user, {});
    CalmRunClean(limit, actions, id, user, {});
    r0 := SuccessHasOrigin(s, id, user, r);
    tx := ChangedHasPosting(s, r0);
    if r1, tx1 :| r1 in Sent(s, id, user) && Posting(r1, s.requests[r].op, tx1) in s.core.history {
      PostingIsOfSender(s, r1, s.requests[r].op, tx1);
    }
  }

  /** All requests of this user and digest ask for one operation, as retries do. */
  ghost predicate OneOperation(s: System, id: Digest, user: UserId) {
    forall r1, r2 :: r1 in Sent(s, id, user) && r2 in Sent(s, id, user) ==> s.requests[r1].op == s.requests[r2].op
  }

  /**
   At most once, end to end. Over any number of retries of a request that meet none of the
   disturbances, the ledger changes at most once; after the first answer below 500 every later answer
   is that answer; when that answer is the success the ledger has changed exactly once, by what every
   one of the retries asked for.
   */
  lemma EndToEndAtMostOnce(limit: nat, actions: seq<Action>, id: Digest, user: UserId)
    requires Run(limit, actions).Some? && CalmUpTo(limit, actions, id, user, {})
    ensures var s := Run(limit, actions).value;
            && Changes(s, id, user) <= 1
            && OneAnswer(s.answers, id, user)
            && (forall i :: 0 <= i < |s.answers| && IsFor(s.answers[i], id, user) && s.answers[i].code == 200
                            ==> Changes(s, id, user) == 1)
            && (OneOperation(s, id, user) ==> SuccessesAreOwn(s, id, user))
  {
    var s := Run(limit, actions).value;
    RunInv(limit, actions);
    CalmRunInv(limit, actions, id, user, {});
    CalmRunClean(limit, actions, id, user, {});
    var r0 := OneChangeAtMost(s, id, user);
    if id in s.keys && s.keys[id].code == 200 {
      SuccessIsCommitted(s, r0);
    }
    forall r | r in Sent(s, id, user) && Succeeded(s, r) ensures OneOperation(s, id, user) ==> OwnPosted(s, r) {
      var _, _ := SuccessPostsTheServedOperation(limit, actions, id, user, r);
    }
  }

  /** Some transfer with this digest had its commit applied and lost. */
  ghost predicate TransferWasLost(s: System, actions: seq<Action>, id: Digest) {
    exists r :: Tracked(s, id, r) && s.requests[r].op.Transfer? && CommitLostIn(actions, r)
  }

  /** A request that was refused, by its handler, changed the ledger only by a lost commit. */
  lemma RefusedChange(s: System, r: Pid)
    requires r in s.requests && RequestOk(s, r) && s.requests[r].stage.Done? && !s.requests[r].stage.hit
    requires 400 <= s.requests[r].stage.code < 500
    ensures Changed(s, r) <==> FailedButPosted(s.core, r)
  {
  }

  /**
   A 4xx answer means that the ledger never changed, exactly unless a transfer's commit was applied
   and lost: the transfer handler answers 400 to every error, and the 400 is stored for good.
   */
  lemma RefusedRequestsChangeNothingExactly(limit: nat, actions: seq<Action>, id: Digest, user: UserId, i: nat)
    requires Run(limit, actions).Some? && CalmUpTo(limit, actions, id, user, {})
    requires var s := Run(limit, actions).value;
             i < |s.answers| && IsFor(s.answers[i], id, user) && 400 <= s.answers[i].code < 500
    ensures var s := Run(limit, actions).value;
            Changes(s, id, user) == (if TransferWasLost(s, actions, id) then 1 else 0)
  {
    var s := Run(limit, actions).value;
    RunInv(limit, actions);
    CalmRunInv(limit, actions, id, user, {});
    CalmRunClean(limit, actions, id, user, {});
    var r0 := OneChangeAtMost(s, id, user);
    assert Tracked(s, id, r0) && RequestOk(s, r0);
    RefusedChange(s, r0);
    forall r ensures FailedButPosted(s.core, r) <==> CommitLostIn(actions, r) {
      LostCommitsShowInCalls(limit, actions, r);
    }
  }
}
