/**
 What the disturbances of module AtMostOnce do: each of them, alone, lets a request and its retry
 change the ledger twice, and each but the lost commit lets them get two answers. So the exclusions
 under which at-most-once holds are exactly the ones needed. And what a lost commit does to a transfer:
 the money moves, and the answer is a 400 for good.
 */
module Disturbances {
  import opened Wrappers
  import opened Money
  import opened Ledger
  import opened History
  import opened Handlers
  import opened KeyTable
  import opened HiddenRows
  import opened SoloCall
  import opened EndToEnd
  import opened AtMostOnce
  import opened RequestRuns
  import Conc = Concurrency

  // ---- Twice ----

  /** Two requests of one digest with one disturbance: they overlap, or come one after the other. */
  function Twice(past: seq<Action>, d: Disturbance, a: Turn, b: Turn): seq<Action> {
    if d.Overlap? then
      past + Enter(a.r, a.q, true) + Enter(b.r, b.q, true)
      + Serve(a.r, a.tx, false, true) + Serve(b.r, b.tx, false, true)
    else
      past + Enter(a.r, a.q, true) + Serve(a.r, a.tx, d.LostCommit?, !d.FailingSave?)
      + Enter(b.r, b.q, !d.FailingLookup?) + Serve(b.r, b.tx, false, true)
  }

  /**
   A request and its retry, of a user from whom this digest has not been heard. If the disturbance is a
   second user, an answer to that one is stored; else no answer is.
   */
  ghost predicate Pair(w: Watch, s: System, d: Disturbance, a: Turn, b: Turn) {
    && Newcomer(s, a.r, a.q) && Newcomer(s, b.r, b.q) && a.r != b.r
    && a.q == b.q && a.q.id == w.id && a.q.user == w.user
    && (forall r :: Tracked(s, w.id, r) ==> s.requests[r].user != w.user && s.requests[r].stage.Done?)
    && (if d.SecondUser? then w.id in s.keys && s.keys[w.id].user != w.user else w.id !in s.keys)
  }

  /** The ledger would take both operations, one after the other. */
  ghost predicate BothWelcome(c: Conc.State, a: Turn, b: Turn) {
    && Idle(c) && {a.tx, b.tx} !! c.usedTx && a.tx != b.tx
    && a.q.op.Valid() && Refusal(c.tables, a.q.op).None?
    && b.q.op.Valid() && Refusal(Posted(c.tables, a.q.op, a.tx), b.q.op).None?
  }

  /** Both have been served, and both calls have reached the tables. */
  ghost predicate BothServed(s: System, s': System, d: Disturbance, a: Turn, b: Turn) {
    && Changed(s', a.r) && Changed(s', b.r)
    && s'.requests.Keys == s.requests.Keys + {a.r, b.r}
    && (forall r :: r in s.requests && r != a.r && r != b.r ==> s'.requests[r] == s.requests[r])
    && s'.requests[a.r].id == a.q.id && s'.requests[a.r].user == a.q.user
    && s'.requests[b.r].id == b.q.id && s'.requests[b.r].user == b.q.user
    && |s'.answers| == |s.answers| + 2 && s'.answers[..|s.answers|] == s.answers
    && s'.answers[|s.answers|].code == (if d.LostCommit? then 500 else 200)
    && s'.answers[|s.answers| + 1].code == 200
  }

  /** The ledger after the first of two calls takes the second. */
  lemma CoreTakesNext(c: Conc.State, c': Conc.State, a: Turn, b: Turn, lost: bool)
    requires BothWelcome(c, a, b) && a.r != b.r && b.r !in c.txns && Worked(c, c', a.r, a.q.op, a.tx, lost)
    ensures Idle(c') && b.tx !in c'.usedTx && Refusal(c'.tables, b.q.op).None? && b.r !in c'.txns
  {
  }

  /** After the first request has been served, the second one is let in and misses. */
  lemma SecondIsLetIn(w: Watch, s: System, s': System, d: Disturbance, a: Turn, b: Turn)
    requires d in w.tolerated && !d.Overlap? && (d.LostCommit? ==> !a.q.op.Transfer?)
    requires Pair(w, s, d, a, b) && a.q.op.Valid()
    requires Served(Entered(s, a), s', a.r, a.tx, d.LostCommit?, !d.FailingSave?)
    ensures Newcomer(s', b.r, b.q) && Allowed(s', Arrive(b.r, b.q), w.id, w.user, w.tolerated)
    ensures !d.FailingLookup? ==> Find(s'.keys, b.q.id, b.q.user).None?
  {
    assert forall x :: Tracked(s', w.id, x) && x != a.r ==> Tracked(s, w.id, x) && s'.requests[x] == s.requests[x];
  }

  /** What serving one request adds. */
  ghost predicate OneServed(s: System, s': System, t: Turn, lost: bool) {
    && Changed(s', t.r) && (forall r :: Changed(s, r) ==> Changed(s', r))
    && s'.requests.Keys == s.requests.Keys + {t.r} && s'.requests[t.r].id == t.q.id
    && s'.requests[t.r].user == t.q.user
    && (forall r :: r in s.requests && r != t.r ==> s'.requests[r] == s.requests[r])
    && exists x :: s'.answers == s.answers + [x] && x.code == (if lost then 500 else 200)
  }

  lemma ServedAddsOne(s: System, s1: System, s': System, t: Turn, lost: bool, saved: bool)
    requires t.r in s1.requests && s1.requests[t.r] == t.q.(stage := Missed) && t.r !in s.core.txns
    requires s1.core == s.core && s1.answers == s.answers && (lost ==> !t.q.op.Transfer?)
    requires s1.requests.Keys == s.requests.Keys + {t.r}
    requires forall r :: r in s.requests && r != t.r ==> s1.requests[r] == s.requests[r]
    requires Served(s1, s', t.r, t.tx, lost, saved)
    ensures OneServed(s, s', t, lost)
  {
    assert s'.answers == s.answers + [s'.answers[|s.answers|]];
  }

  lemma OneByOneIsBoth(s: System, s2: System, s': System, d: Disturbance, a: Turn, b: Turn)
    requires a.r != b.r && OneServed(s, s2, a, d.LostCommit?) && OneServed(s2, s', b, false)
    ensures BothServed(s, s', d, a, b)
  {
    assert s'.answers[..|s.answers|] == s.answers;
  }

  lemma BothAreServed(s: System, s2: System, s': System, d: Disturbance, a: Turn, b: Turn)
    requires Newcomer(s, a.r, a.q) && Newcomer(s2, b.r, b.q) && a.r != b.r
    requires d.LostCommit? ==> !a.q.op.Transfer?
    requires Served(Entered(s, a), s2, a.r, a.tx, d.LostCommit?, !d.FailingSave?)
    requires Served(Entered(s2, b), s', b.r, b.tx, false, true)
    ensures BothServed(s, s', d, a, b)
  {
    ServedAddsOne(s, Entered(s, a), s2, a, d.LostCommit?, !d.FailingSave?);
    ServedAddsOne(s2, Entered(s2, b), s', b, false, true);
    OneByOneIsBoth(s, s2, s', d, a, b);
  }

  lemma OverlapIsBoth(s: System, s3: System, s': System, a: Turn, b: Turn)
    requires a.r != b.r && a.r !in s.core.txns && b.r !in s3.core.txns && b.r !in s.requests
    requires Served(Entered(Entered(s, a), b), s3, a.r, a.tx, false, true)
    requires b.r in s3.requests && Served(s3, s', b.r, b.tx, false, true)
    ensures BothServed(s, s', Overlap, a, b)
  {
    assert s'.answers[..|s.answers|] == s.answers;
  }

  /** Both are let in before either is served. */
  lemma BothEnter(w: Watch, past: seq<Action>, s: System, a: Turn, b: Turn)
    requires Reached(w, past, s) && Overlap in w.tolerated && Pair(w, s, Overlap, a, b)
    ensures Reached(w, past + Enter(a.r, a.q, true) + Enter(b.r, b.q, true), Entered(Entered(s, a), b))
  {
    EnterRuns(w, past, s, a, true);
    EnterRuns(w, past + Enter(a.r, a.q, true), Entered(s, a), b, true);
  }

  lemma {:induction false} OverlapRuns(w: Watch, past: seq<Action>, s: System, a: Turn, b: Turn) returns (s': System)
    requires Reached(w, past, s) && Overlap in w.tolerated
    requires Pair(w, s, Overlap, a, b) && BothWelcome(s.core, a, b)
    ensures Reached(w, Twice(past, Overlap, a, b), s') && BothServed(s, s', Overlap, a, b)
  {
    BothEnter(w, past, s, a, b);
    var p := past + Enter(a.r, a.q, true) + Enter(b.r, b.q, true);
    var s3 := ServeRuns(w, p, Entered(Entered(s, a), b), a.r, a.tx, false, true);
    CoreTakesNext(s.core, s3.core, a, b, false);
    s' := ServeRuns(w, p + Serve(a.r, a.tx, false, true), s3, b.r, b.tx, false, true);
    OverlapIsBoth(s, s3, s', a, b);
  }

  /** The first of two that come one after the other. */
  lemma {:induction false} FirstRuns(w: Watch, past: seq<Action>, s: System, d: Disturbance, a: Turn, b: Turn)
    returns (s': System)
    requires Reached(w, past, s) && d in w.tolerated && !d.Overlap? && (d.LostCommit? ==> !a.q.op.Transfer?)
    requires Pair(w, s, d, a, b) && BothWelcome(s.core, a, b)
    ensures Reached(w, past + Enter(a.r, a.q, true) + Serve(a.r, a.tx, d.LostCommit?, !d.FailingSave?), s')
    ensures Served(Entered(s, a), s', a.r, a.tx, d.LostCommit?, !d.FailingSave?)
  {
    EnterRuns(w, past, s, a, true);
    s' := ServeRuns(w, past + Enter(a.r, a.q, true), Entered(s, a), a.r, a.tx, d.LostCommit?, !d.FailingSave?);
  }

  lemma {:induction false} InTurnRuns(w: Watch, past: seq<Action>, s: System, d: Disturbance, a: Turn, b: Turn)
    returns (s': System)
    requires Reached(w, past, s) && d in w.tolerated && !d.Overlap? && (d.LostCommit? ==> !a.q.op.Transfer?)
    requires Pair(w, s, d, a, b) && BothWelcome(s.core, a, b)
    ensures Reached(w, Twice(past, d, a, b), s') && BothServed(s, s', d, a, b)
  {
    var s2 := FirstRuns(w, past, s, d, a, b);
    SecondIsLetIn(w, s, s2, d, a, b);
    CoreTakesNext(s.core, s2.core, a, b, d.LostCommit?);
    s' := SecondRuns(w, past + Enter(a.r, a.q, true) + Serve(a.r, a.tx, d.LostCommit?, !d.FailingSave?), s2, b,
                     !d.FailingLookup?);
    BothAreServed(s, s2, s', d, a, b);
  }

  lemma {:induction false} SecondRuns(w: Watch, past: seq<Action>, s: System, b: Turn, looked: bool)
    returns (s': System)
    requires Reached(w, past, s) && Newcomer(s, b.r, b.q) && Allowed(s, Arrive(b.r, b.q), w.id, w.user, w.tolerated)
    requires if looked then Find(s.keys, b.q.id, b.q.user).None? else FailingLookup in w.tolerated
    requires Idle(s.core) && b.tx !in s.core.usedTx && b.q.op.Valid() && Refusal(s.core.tables, b.q.op).None?
    ensures Reached(w, past + Enter(b.r, b.q, looked) + Serve(b.r, b.tx, false, true), s')
    ensures Served(Entered(s, b), s', b.r, b.tx, false, true)
  {
    EnterRuns(w, past, s, b, looked);
    s' := ServeRuns(w, past + Enter(b.r, b.q, looked), Entered(s, b), b.r, b.tx, false, true);
  }

  lemma {:induction false} ChangesOfTwo(history: seq<Event>, r1: Pid, r2: Pid)
    requires r1 != r2
    ensures ChangesBy(history, {r1, r2}) == Conc.Postings(history, r1) + Conc.Postings(history, r2)
  {
    if history != [] {
      ChangesOfTwo(history[..|history| - 1], r1, r2);
    }
  }

  lemma BothCount(s: System, id: Digest, user: UserId, r1: Pid, r2: Pid)
    requires Inv(s) && r1 != r2 && Changed(s, r1) && Changed(s, r2) && Sent(s, id, user) == {r1, r2}
    ensures Changes(s, id, user) == 2
  {
    PostingsOfRequest(s, r1);
    PostingsOfRequest(s, r2);
    ChangesOfTwo(s.core.history, r1, r2);
  }

  lemma BothAreSent(w: Watch, s: System, s': System, d: Disturbance, a: Turn, b: Turn)
    requires Pair(w, s, d, a, b) && BothServed(s, s', d, a, b)
    ensures Sent(s', w.id, w.user) == {a.r, b.r}
  {
    forall r | r in Sent(s', w.id, w.user) ensures r in {a.r, b.r} {
      assert r in s.requests && r != a.r && r != b.r ==> Tracked(s, w.id, r);
    }
  }

  /**
   From any state reached so far in which the digest has not been heard of from this user and no call is
   inside an attempt, with any operation the ledger takes twice: one disturbance, and a request and its
   retry change the ledger twice. (A transfer's lost commit is no disturbance; a second user is one once
   an answer to that user is stored, for then no other can be.)
   */
  lemma {:induction false} DisturbedTwice(w: Watch, past: seq<Action>, s: System, d: Disturbance, a: Turn, b: Turn)
    returns (s': System)
    requires Reached(w, past, s) && d in w.tolerated && (d.LostCommit? ==> !a.q.op.Transfer?)
    requires Pair(w, s, d, a, b) && BothWelcome(s.core, a, b)
    ensures Reached(w, Twice(past, d, a, b), s') && BothServed(s, s', d, a, b)
    ensures Changes(s', w.id, w.user) == 2
  {
    if d.Overlap? {
      s' := OverlapRuns(w, past, s, a, b);
    } else {
      s' := InTurnRuns(w, past, s, d, a, b);
    }
    SystemInv(w, Twice(past, d, a, b), s');
    BothAreSent(w, s, s', d, a, b);
    BothCount(s', w.id, w.user, a.r, b.r);
  }

  // ---- At most once, exactly ----

  /** The other user's request is served, and its answer stored. */
  lemma {:induction false} SecondUserIsStored(w: Watch, past: seq<Action>, s: System, c: Turn) returns (s': System)
    requires Reached(w, past, s) && SecondUser in w.tolerated && Newcomer(s, c.r, c.q)
    requires c.q.id == w.id && c.q.user != w.user
    requires w.id !in s.keys && forall r :: r in s.requests ==> s.requests[r].id != w.id
    requires c.q.op.Valid() && Refusal(s.core.tables, c.q.op).None? && Idle(s.core) && c.tx !in s.core.usedTx
    ensures Reached(w, past + Enter(c.r, c.q, true) + Serve(c.r, c.tx, false, true), s')
    ensures Served(Entered(s, c), s', c.r, c.tx, false, true)
    ensures w.id in s'.keys && s'.keys[w.id].user == c.q.user
    ensures forall r :: Tracked(s', w.id, r) ==> s'.requests[r].user == c.q.user && s'.requests[r].stage.Done?
  {
    EnterRuns(w, past, s, c, true);
    s' := ServeRuns(w, past + Enter(c.r, c.q, true), Entered(s, c), c.r, c.tx, false, true);
  }

  const ANNE: UserId := "00000000-0000-0000-0000-00000000000a"
  const BEN: UserId := "00000000-0000-0000-0000-00000000000b"
  const BODY: string := "{\"amount\":\"1\"}"

  /** A deposit that needs no other account: into the settlement account itself. */
  const SMALL_DEPOSIT: Op := Deposit(SETTLEMENT, 1.0)

  /** Anne's request, and Ben's, whose longer key makes the same digest. */
  const ANNES: Request := RequestOf("k", ANNE, BODY + BEN + BODY, SMALL_DEPOSIT)
  const BENS: Request := RequestOf("k" + ANNE + BODY, BEN, BODY, SMALL_DEPOSIT)

  lemma RequestsShareDigest()
    ensures ANNES.id == BENS.id && ANNES.user != BENS.user
  {
    assert "k" + ANNE + (BODY + BEN + BODY) == ("k" + ANNE + BODY) + BEN + BODY;
    assert ANNE[35] != BEN[35];
  }

  /** What comes before Ben's request and its retry. */
  function Before(d: Disturbance, c: Turn): seq<Action> {
    if d.SecondUser? then [] + Enter(c.r, c.q, true) + Serve(c.r, c.tx, false, true) else []
  }

  ghost predicate IsSmallDeposit(t: Turn) {
    t.q.op == SMALL_DEPOSIT && t.q.New()
  }

  lemma SmallDepositAccepted(t: Tables)
    requires SETTLEMENT in t.accounts && t.accounts[SETTLEMENT].balance == 0
    ensures Refusal(t, SMALL_DEPOSIT).None?
  {
    assert RoundUnits(1.0) == 10000 && RoundUnits(-1.0) == -10000;
    NoRefusal(t, SMALL_DEPOSIT, 0);
  }

  /** The settlement row after deposits into itself. */
  lemma SmallDepositsGoOn(t: Tables, tx: TxId)
    requires SETTLEMENT in t.accounts && t.accounts[SETTLEMENT].balance == 0
    ensures var t' := Posted(t, SMALL_DEPOSIT, tx);
            SETTLEMENT in t'.accounts && t'.accounts[SETTLEMENT].balance == 0
    ensures Refusal(t, SMALL_DEPOSIT).None? && Refusal(Posted(t, SMALL_DEPOSIT, tx), SMALL_DEPOSIT).None?
  {
    SmallDepositAccepted(t);
    SmallDepositAccepted(Posted(t, SMALL_DEPOSIT, tx));
  }

  /** From the start, `c` being the other user's turn, a request of this user and its retry are ready. */
  lemma {:induction false} ReadyRuns(w: Watch, d: Disturbance, c: Turn, a: Turn, b: Turn) returns (s: System)
    requires d in w.tolerated && IsSmallDeposit(a) && IsSmallDeposit(b) && IsSmallDeposit(c)
    requires a.q == b.q && a.q.id == w.id == c.q.id && a.q.user == w.user != c.q.user
    requires a.r != b.r && a.r != c.r && b.r != c.r && a.tx != b.tx && a.tx != c.tx && b.tx != c.tx
    ensures Reached(w, Before(d, c), s)
    ensures Pair(w, s, d, a, b) && BothWelcome(s.core, a, b)
  {
    s := Start(w.limit);
    SmallDepositsGoOn(SEEDED, c.tx);
    SmallDepositsGoOn(SEEDED, a.tx);
    if d.SecondUser? {
      s := SecondUserIsStored(w, [], s, c);
      SmallDepositsGoOn(s.core.tables, a.tx);
    }
  }

  const ANNES_TURN: Turn := Turn(1, ANNES, 1)
  const FIRST_TURN: Turn := Turn(2, BENS, 2)
  const SECOND_TURN: Turn := Turn(3, BENS, 3)

  lemma {:induction false} StartIsReady(w: Watch, d: Disturbance) returns (s: System)
    requires d in w.tolerated && w.id == BENS.id && w.user == BEN
    ensures Reached(w, Before(d, ANNES_TURN), s)
    ensures Pair(w, s, d, FIRST_TURN, SECOND_TURN) && BothWelcome(s.core, FIRST_TURN, SECOND_TURN)
  {
    RequestsShareDigest();
    s := ReadyRuns(w, d, ANNES_TURN, FIRST_TURN, SECOND_TURN);
  }

  /** Whatever happens apart from what is tolerated, no user's digest ever changes the ledger more than once. */
  ghost predicate AtMostOnceUnder(limit: nat, tolerated: set<Disturbance>) {
    forall actions, id, user :: Run(limit, actions).Some? && CalmUpTo(limit, actions, id, user, tolerated)
                                ==> Changes(Run(limit, actions).value, id, user) <= 1
  }

  /**
   At most once holds over all runs, digests and users exactly when none of the disturbances is
   tolerated: for each of them there is a run from the migrated tables in which it is the only one,
   and in which a deposit and its retry are both posted.
   */
  lemma {:induction false} AtMostOnceExactly(limit: nat, tolerated: set<Disturbance>)
    ensures AtMostOnceUnder(limit, tolerated) <==> tolerated == {}
  {
    if tolerated == {} {
      forall actions, id, user | Run(limit, actions).Some? && CalmUpTo(limit, actions, id, user, tolerated)
        ensures Changes(Run(limit, actions).value, id, user) <= 1
      {
        EndToEndAtMostOnce(limit, actions, id, user);
      }
    } else {
      var d :| d in tolerated;
      var w := Watch(limit, BENS.id, BEN, tolerated);
      var s := StartIsReady(w, d);
      var s' := DisturbedTwice(w, Before(d, ANNES_TURN), s, d, FIRST_TURN, SECOND_TURN);
      assert Run(limit, Twice(Before(d, ANNES_TURN), d, FIRST_TURN, SECOND_TURN)) == Some(s');
    }
  }

  // ---- One answer, exactly ----

  /** Two requests of one digest, refused for different reasons. */
  function RefusedTwice(past: seq<Action>, d: Disturbance, a: Turn, b: Turn): seq<Action> {
    if d.Overlap? then
      past + Enter(a.r, a.q, true) + Enter(b.r, b.q, true)
      + Refuse(a.r, 404, "account not found", true) + Refuse(b.r, 403, "access denied", true)
    else
      past + Enter(a.r, a.q, true) + Refuse(a.r, 404, "account not found", !d.FailingSave?)
      + Enter(b.r, b.q, !d.FailingLookup?) + Refuse(b.r, 403, "access denied", true)
  }

  /** The two answers are there, one after the other, and differ. */
  ghost predicate TwoAnswers(s: System, s': System, id: Digest, user: UserId) {
    && |s'.answers| == |s.answers| + 2
    && s'.answers[|s.answers|] == Answer(id, user, 404, Text("account not found"))
    && s'.answers[|s.answers| + 1] == Answer(id, user, 403, Text("access denied"))
  }

  /** After a refusal that could not be saved or cannot be found, the next is let in. */
  lemma NextIsLetIn(w: Watch, s: System, s': System, d: Disturbance, a: Turn, b: Turn)
    requires d in w.tolerated && !d.Overlap? && !d.LostCommit? && Pair(w, s, d, a, b)
    requires s' == Left(Entered(s, a), a.r, 404, Text("account not found"), !d.FailingSave?)
    ensures Newcomer(s', b.r, b.q) && Allowed(s', Arrive(b.r, b.q), w.id, w.user, w.tolerated)
    ensures !d.FailingLookup? ==> Find(s'.keys, b.q.id, b.q.user).None?
  {
    assert forall x :: Tracked(s', w.id, x) && x != a.r ==> Tracked(s, w.id, x) && s'.requests[x] == s.requests[x];
  }

  lemma {:induction false} OverlapAnswers(w: Watch, past: seq<Action>, s: System, a: Turn, b: Turn) returns (s': System)
    requires Reached(w, past, s) && Overlap in w.tolerated && Pair(w, s, Overlap, a, b)
    ensures Reached(w, RefusedTwice(past, Overlap, a, b), s') && TwoAnswers(s, s', w.id, w.user)
  {
    BothEnter(w, past, s, a, b);
    var s2 := Entered(Entered(s, a), b);
    var p := past + Enter(a.r, a.q, true) + Enter(b.r, b.q, true);
    RefuseRuns(w, p, s2, a.r, 404, "account not found", true);
    var s3 := Left(s2, a.r, 404, Text("account not found"), true);
    RefuseRuns(w, p + Refuse(a.r, 404, "account not found", true), s3, b.r, 403, "access denied", true);
    s' := Left(s3, b.r, 403, Text("access denied"), true);
  }

  lemma {:induction false} InTurnAnswers(w: Watch, past: seq<Action>, s: System, d: Disturbance, a: Turn, b: Turn)
    returns (s': System)
    requires Reached(w, past, s) && d in w.tolerated && !d.Overlap? && !d.LostCommit? && Pair(w, s, d, a, b)
    ensures Reached(w, RefusedTwice(past, d, a, b), s') && TwoAnswers(s, s', w.id, w.user)
  {
    EnterRuns(w, past, s, a, true);
    var s1 := Entered(s, a);
    var p1 := past + Enter(a.r, a.q, true);
    RefuseRuns(w, p1, s1, a.r, 404, "account not found", !d.FailingSave?);
    var s2 := Left(s1, a.r, 404, Text("account not found"), !d.FailingSave?);
    var p2 := p1 + Refuse(a.r, 404, "account not found", !d.FailingSave?);
    NextIsLetIn(w, s, s2, d, a, b);
    EnterRuns(w, p2, s2, b, !d.FailingLookup?);
    var s3 := Entered(s2, b);
    RefuseRuns(w, p2 + Enter(b.r, b.q, !d.FailingLookup?), s3, b.r, 403, "access denied", true);
    s' := Left(s3, b.r, 403, Text("access denied"), true);
  }

  /** From any such state: one disturbance other than a lost commit, and a user's two answers differ. */
  lemma {:induction false} DisturbedAnswers(w: Watch, past: seq<Action>, s: System, d: Disturbance, a: Turn, b: Turn)
    returns (s': System)
    requires Reached(w, past, s) && d in w.tolerated && !d.LostCommit? && Pair(w, s, d, a, b)
    ensures Reached(w, RefusedTwice(past, d, a, b), s') && TwoAnswers(s, s', w.id, w.user)
  {
    if d.Overlap? {
      s' := OverlapAnswers(w, past, s, a, b);
    } else {
      s' := InTurnAnswers(w, past, s, d, a, b);
    }
  }

  /** After a user's first answer below 500 every later one is that answer, whatever else is tolerated. */
  ghost predicate OneAnswerUnder(limit: nat, tolerated: set<Disturbance>) {
    forall actions, id, user :: Run(limit, actions).Some? && CalmUpTo(limit, actions, id, user, tolerated)
                                ==> OneAnswer(Run(limit, actions).value.answers, id, user)
  }

  /** That holds exactly when nothing but lost commits is tolerated: these cost money, not consistency. */
  lemma {:induction false} OneAnswerExactly(limit: nat, tolerated: set<Disturbance>)
    ensures OneAnswerUnder(limit, tolerated) <==> tolerated <= {LostCommit}
  {
    if tolerated <= {LostCommit} {
      forall actions, id, user | Run(limit, actions).Some? && CalmUpTo(limit, actions, id, user, tolerated)
        ensures OneAnswer(Run(limit, actions).value.answers, id, user)
      {
        CalmRunInv(limit, actions, id, user, tolerated);
      }
    } else {
      var d :| d in tolerated && !d.LostCommit?;
      var w := Watch(limit, BENS.id, BEN, tolerated);
      var s := StartIsReady(w, d);
      var s' := DisturbedAnswers(w, Before(d, ANNES_TURN), s, d, FIRST_TURN, SECOND_TURN);
      assert Run(limit, RefusedTwice(Before(d, ANNES_TURN), d, FIRST_TURN, SECOND_TURN)) == Some(s');
      TwoAnswersDiffer(s, s', BENS.id, BEN);
    }
  }

  lemma TwoAnswersDiffer(s: System, s': System, id: Digest, user: UserId)
    requires TwoAnswers(s, s', id, user)
    ensures !OneAnswer(s'.answers, id, user)
  {
    assert s'.answers[|s.answers|] != s'.answers[|s.answers| + 1];
  }

  // ---- A transfer that happened and was refused ----

  lemma OneCounts(s: System, id: Digest, user: UserId, r0: Pid)
    requires Inv(s) && Changed(s, r0) && Sent(s, id, user) == {r0}
    ensures Changes(s, id, user) == 1
  {
    PostingsOfRequest(s, r0);
    ChangesOfOne(s.core.history, {r0}, r0);
  }

  /** What a transfer with a lost commit leaves behind: the posting, the answer 400, and the 400 stored. */
  ghost predicate RefusedButPosted(s: System, s': System, t: Turn) {
    && s'.core.tables == Posted(s.core.tables, t.q.op, t.tx)
    && s'.answers == s.answers + [Answer(t.q.id, t.q.user, 400, ErrorText(Wrapped(Driver)))]
    && t.q.id in s'.keys && s'.keys[t.q.id] == Row(t.q.user, 400, ErrorText(Wrapped(Driver)))
    && s'.requests == s.requests[t.r := t.q.(stage := Done(400, ErrorText(Wrapped(Driver)), false))]
    && s'.core.txns.Keys == s.core.txns.Keys + {t.r}
  }

  /**
   From any state reached so far in which the digest has not been heard of and no call is inside an
   attempt, whatever is tolerated: a transfer that the ledger takes, and whose commit is lost, moves the
   money, answers 400, and has the 400 stored for its digest.
   */
  lemma {:induction false} LostTransferIsRefused(w: Watch, past: seq<Action>, s: System, t: Turn) returns (s': System)
    requires Reached(w, past, s) && Newcomer(s, t.r, t.q) && t.q.id == w.id && t.q.user == w.user
    requires w.id !in s.keys && forall r :: r in s.requests ==> s.requests[r].id != w.id
    requires t.q.op.Transfer? && t.q.op.Valid() && Refusal(s.core.tables, t.q.op).None?
    requires Idle(s.core) && t.tx !in s.core.usedTx
    ensures Reached(w, past + Enter(t.r, t.q, true) + Serve(t.r, t.tx, true, true), s')
    ensures RefusedButPosted(s, s', t) && Changes(s', w.id, w.user) == 1
  {
    EnterRuns(w, past, s, t, true);
    s' := ServeRuns(w, past + Enter(t.r, t.q, true), Entered(s, t), t.r, t.tx, true, true);
    ServedIsRefusedButPosted(s, s', t);
    SystemInv(w, past + Enter(t.r, t.q, true) + Serve(t.r, t.tx, true, true), s');
    assert Sent(s', w.id, w.user) == {t.r};
    OneCounts(s', w.id, w.user, t.r);
  }

  lemma ServedIsRefusedButPosted(s: System, s': System, t: Turn)
    requires t.r !in s.core.txns && t.q.id !in s.keys && t.q.op.Transfer?
    requires Served(Entered(s, t), s', t.r, t.tx, true, true)
    ensures RefusedButPosted(s, s', t) && Changed(s', t.r)
  {
  }

  /** Two accounts, money paid in on one of them, and a transfer of it to the other. */
  const ACCOUNTS: seq<Action> := [Core(Conc.Open(1, "", "USD"))] + [Core(Conc.Open(2, "", "USD"))]

  function WithAccounts(): Tables {
    Opened(Opened(SEEDED, 1, "", "USD"), 2, "", "USD")
  }

  lemma PaymentAccepted()
    ensures Refusal(WithAccounts(), PAYMENT).None?
  {
    assert RoundUnits(1.0) == 10000 && RoundUnits(-1.0) == -10000;
    NoRefusal(WithAccounts(), PAYMENT, 0);
  }

  lemma MoveAccepted(tx: TxId)
    ensures Refusal(Posted(WithAccounts(), PAYMENT, tx), MOVE).None?
  {
    assert RoundUnits(1.0) == 10000 && RoundUnits(-1.0) == -10000;
    NoRefusal(Posted(WithAccounts(), PAYMENT, tx), MOVE, 0);
  }

  lemma AccountsOpen(w: Watch) returns (s: System)
    ensures Reached(w, ACCOUNTS, s)
    ensures s == Start(w.limit).(core := s.core) && s.core.tables == WithAccounts()
    ensures s.core.txns == map[] && s.core.usedTx == {}
  {
    var s0 := Start(w.limit);
    var s1 := Do(s0, Core(Conc.Open(1, "", "USD")));
    s := Do(s1, Core(Conc.Open(2, "", "USD")));
    OneMore(w, [], s0, Core(Conc.Open(1, "", "USD")));
    assert [] + [Core(Conc.Open(1, "", "USD"))] == [Core(Conc.Open(1, "", "USD"))];
    OneMore(w, [Core(Conc.Open(1, "", "USD"))], s1, Core(Conc.Open(2, "", "USD")));
  }

  /** The accounts are opened, and `f` pays the money in. */
  function Funding(f: Turn): seq<Action> {
    ACCOUNTS + Enter(f.r, f.q, true) + Serve(f.r, f.tx, false, true)
  }

  /** Then `m` moves it, and its commit is lost. */
  function LostTransfer(f: Turn, m: Turn): seq<Action> {
    Funding(f) + Enter(m.r, m.q, true) + Serve(m.r, m.tx, true, true)
  }

  ghost predicate Fresh(q: Request, op: Op) {
    q.New() && q.op == op
  }

  /** A payment and a move, of different digests; the move is watched. */
  ghost predicate PaymentAndMove(w: Watch, f: Turn, m: Turn) {
    && Fresh(f.q, PAYMENT) && Fresh(m.q, MOVE)
    && f.r != m.r && f.tx != m.tx && f.q.id != m.q.id
    && w.id == m.q.id && w.user == m.q.user
  }

  function Moved(f: Turn, m: Turn): Tables {
    Posted(Posted(WithAccounts(), PAYMENT, f.tx), MOVE, m.tx)
  }

  lemma MovedBalances(f: Turn, m: Turn)
    ensures BalanceOf(Moved(f, m), 1) == 0 && BalanceOf(Moved(f, m), 2) == 10000
  {
    assert RoundUnits(1.0) == 10000;
  }

  lemma {:induction false} FundingRuns(w: Watch, f: Turn) returns (s: System)
    requires Fresh(f.q, PAYMENT) && f.q.id != w.id
    ensures Reached(w, Funding(f), s)
    ensures s.core.tables == Posted(WithAccounts(), PAYMENT, f.tx) && Idle(s.core) && s.core.usedTx <= {f.tx}
    ensures s.requests.Keys == {f.r} == s.core.txns.Keys && s.requests[f.r].id == f.q.id && w.id !in s.keys
    ensures |s.answers| == 1
  {
    var s0 := AccountsOpen(w);
    PaymentAccepted();
    EnterRuns(w, ACCOUNTS, s0, f, true);
    s := ServeRuns(w, ACCOUNTS + Enter(f.r, f.q, true), Entered(s0, f), f.r, f.tx, false, true);
  }

  lemma {:induction false} LostTransferRuns(w: Watch, f: Turn, m: Turn) returns (s: System)
    requires PaymentAndMove(w, f, m)
    ensures Reached(w, LostTransfer(f, m), s) && Changes(s, w.id, w.user) == 1
    ensures s.core.tables == Moved(f, m)
    ensures s.requests.Keys == {f.r, m.r} == s.core.txns.Keys
    ensures s.requests[f.r].id == f.q.id && s.requests[m.r].stage.Done?
    ensures w.id in s.keys && s.keys[w.id] == Row(w.user, 400, ErrorText(Wrapped(Driver)))
    ensures |s.answers| == 2 && s.answers[1] == Answer(w.id, w.user, 400, ErrorText(Wrapped(Driver)))
  {
    var funded := FundingRuns(w, f);
    MoveAccepted(f.tx);
    s := LostTransferIsRefused(w, Funding(f), funded, m);
  }

  /** The retry is answered from the key table. */
  lemma {:induction false} RetriedTransferRuns(w: Watch, f: Turn, m: Turn, r: Pid) returns (s: System)
    requires PaymentAndMove(w, f, m) && r != f.r && r != m.r
    ensures Reached(w, LostTransfer(f, m) + Enter(r, m.q, true), s)
    ensures s.core.tables == Moved(f, m)
    ensures |s.answers| == 3
    ensures s.answers[1] == s.answers[2] == Answer(w.id, w.user, 400, ErrorText(Wrapped(Driver)))
  {
    var moved := LostTransferRuns(w, f, m);
    EnterHits(w, LostTransfer(f, m), moved, Turn(r, m.q, 0));
    s := Hit(moved, Turn(r, m.q, 0));
  }

  const FUNDING: Turn := Turn(1, RequestOf("f", ANNE, BODY, PAYMENT), 1)
  const TRANSFER: Turn := Turn(2, RequestOf("t", ANNE, BODY, MOVE), 2)

  /**
   From the migrated tables, with no disturbance at all: the transfer has moved the money, its
   sender is told 400, and so is the retry.
   */
  lemma {:induction false} RefusedTransferMovedMoney(limit: nat) returns (s: System)
    ensures var actions := LostTransfer(FUNDING, TRANSFER) + Enter(3, TRANSFER.q, true);
            Run(limit, actions) == Some(s) && CalmUpTo(limit, actions, TRANSFER.q.id, ANNE, {})
    ensures BalanceOf(s.core.tables, 1) == 0 && BalanceOf(s.core.tables, 2) == 10000
    ensures |s.answers| == 3
    ensures s.answers[1] == s.answers[2] == Answer(TRANSFER.q.id, ANNE, 400, ErrorText(Wrapped(Driver)))
  {
    assert FUNDING.q.id[0] != TRANSFER.q.id[0];
    s := RetriedTransferRuns(Watch(limit, TRANSFER.q.id, ANNE, {}), FUNDING, TRANSFER, 3);
    MovedBalances(FUNDING, TRANSFER);
  }
}
