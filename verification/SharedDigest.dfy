/**
 The digest covers key, user and body, but not the path. Requests for different operations can share
 it, and then the second is told that it succeeded because the first one did. Here is exactly when a
 success means that the request's own operation was posted, and which operations can succeed at all.
 */
module SharedDigest {
  import opened Wrappers
  import opened Money
  import opened Ledger
  import opened LedgerInvariants
  import opened History
  import opened Handlers
  import opened KeyTable
  import opened SoloCall
  import opened EndToEnd
  import opened AtMostOnce
  import opened RequestRuns
  import opened Disturbances
  import Conc = Concurrency

  // ---- Which operations can succeed ----

  /** Nothing has happened but that accounts were opened, all in the settlement currency. */
  ghost predicate Blank(s: System) {
    && s.requests == map[] && s.keys == map[] && s.core.txns == map[] && s.core.usedTx == {}
    && BlankRows(s.core.tables)
  }

  ghost predicate BlankRows(t: Tables) {
    && SETTLEMENT in t.accounts
    && forall id :: id in t.accounts ==> t.accounts[id].balance == 0 && t.accounts[id].currency == "USD"
  }

  /** One more account, unless it is there. */
  lemma OpenRow(w: Watch, past: seq<Action>, s: System, id: AccountId) returns (past': seq<Action>, s': System)
    requires Reached(w, past, s) && Blank(s)
    ensures Reached(w, past', s') && Blank(s')
    ensures id in s'.core.tables.accounts && s.core.tables.accounts.Keys <= s'.core.tables.accounts.Keys
  {
    past', s' := past, s;
    if id !in s.core.tables.accounts {
      var a := Core(Conc.Open(id, "", "USD"));
      OneMore(w, past, s, a);
      past', s' := past + [a], Do(s, a);
    }
  }

  lemma RowsFor(w: Watch, op: Op) returns (past: seq<Action>, s: System)
    ensures Reached(w, past, s) && Blank(s)
    ensures op.Debited() in s.core.tables.accounts && op.Credited() in s.core.tables.accounts
  {
    past, s := [], Start(w.limit);
    past, s := OpenRow(w, past, s, op.Debited());
    past, s := OpenRow(w, past, s, op.Credited());
  }

  lemma BlankTakesDeposit(t: Tables, op: Op)
    requires BlankRows(t) && op.Deposit? && op.account in t.accounts && EverAccepted(op)
    ensures Refusal(t, op).None?
  {
    RoundNegation(op.amount);
    NoRefusal(t, op, 0);
  }

  /** As much as an account can hold. */
  function Fill(account: AccountId): Op {
    Deposit(account, Value(MAX_UNITS))
  }

  lemma FillFits(account: AccountId)
    ensures EverAccepted(Fill(account)) && Fill(account).Units() == MAX_UNITS
  {
    RoundFixesUnits(MAX_UNITS);
  }

  lemma FilledTakes(t: Tables, op: Op, tx: TxId)
    requires BlankRows(t) && op.Debited() in t.accounts && op.Credited() in t.accounts
    requires !op.Deposit? && EverAccepted(op)
    ensures Refusal(Posted(t, Fill(op.Debited()), tx), op).None?
  {
    FillFits(op.Debited());
    RoundNegation(op.amount);
    NoRefusal(Posted(t, Fill(op.Debited()), tx), op, 0);
  }

  /** The ledger is idle and takes the operation; the watched digest has not been heard of. */
  ghost predicate Takes(w: Watch, s: System, op: Op) {
    && Idle(s.core) && op.Valid() && Refusal(s.core.tables, op).None?
    && w.id !in s.keys && forall r :: r in s.requests ==> s.requests[r].id != w.id
  }

  /** A request with another digest. */
  lemma AnotherRequest(id: Digest, op: Op) returns (q: Request)
    ensures q.New() && q.op == op && q.id != id
  {
    q := RequestOf(seq(|id| + 1, i => '0'), ANNE, "", op);
    assert |q.id| > |id|;
  }

  /** The account an operation takes from has been filled, by request `t`. */
  lemma FilledTakesNext(w: Watch, s: System, s': System, op: Op, t: Turn)
    requires Blank(s) && !op.Deposit? && EverAccepted(op) && t.q.op == Fill(op.Debited()) && t.q.id != w.id
    requires op.Debited() in s.core.tables.accounts && op.Credited() in s.core.tables.accounts
    requires Served(Entered(s, t), s', t.r, t.tx, false, true)
    ensures Takes(w, s', op) && s'.requests.Keys == {t.r} == s'.core.txns.Keys && s'.core.usedTx <= {t.tx}
  {
    FilledTakes(s.core.tables, op, t.tx);
  }

  lemma {:induction false} FillRuns(w: Watch, past: seq<Action>, s: System, op: Op, r: Pid, tx: TxId)
    returns (past': seq<Action>, s': System)
    requires Reached(w, past, s) && Blank(s) && !op.Deposit? && EverAccepted(op)
    requires op.Debited() in s.core.tables.accounts && op.Credited() in s.core.tables.accounts
    ensures Reached(w, past', s') && Takes(w, s', op)
    ensures s'.requests.Keys == {r} == s'.core.txns.Keys && s'.core.usedTx <= {tx}
  {
    var q := AnotherRequest(w.id, Fill(op.Debited()));
    var t := Turn(r, q, tx);
    FillFits(op.Debited());
    BlankTakesDeposit(s.core.tables, q.op);
    EnterRuns(w, past, s, t, true);
    s' := ServeRuns(w, past + Enter(r, q, true), Entered(s, t), r, tx, false, true);
    past' := past + Enter(r, q, true) + Serve(r, tx, false, true);
    FilledTakesNext(w, s, s', op, t);
  }

  /** From the migrated tables there is a way to have any such operation accepted. */
  lemma {:induction false} TakingRuns(w: Watch, op: Op, r: Pid, tx: TxId) returns (past: seq<Action>, s: System)
    requires EverAccepted(op)
    ensures Reached(w, past, s) && Takes(w, s, op)
    ensures s.requests.Keys <= {r} && s.core.txns.Keys <= {r} && s.core.usedTx <= {tx}
  {
    past, s := RowsFor(w, op);
    if op.Deposit? {
      BlankTakesDeposit(s.core.tables, op);
    } else {
      past, s := FillRuns(w, past, s, op, r, tx);
    }
  }

  ghost predicate AcceptedAfter(limit: nat, actions: seq<Action>, op: Op) {
    Run(limit, actions).Some? && op.Valid() && Refusal(Run(limit, actions).value.core.tables, op).None?
  }

  /** The operations that some run leads to accepting, exactly. */
  lemma {:induction false} AcceptedSomewhereExactly(limit: nat, op: Op)
    ensures (exists actions :: AcceptedAfter(limit, actions, op)) <==> EverAccepted(op)
  {
    if EverAccepted(op) {
      var past, _ := TakingRuns(Watch(limit, "", ANNE, {}), op, 1, 1);
      assert AcceptedAfter(limit, past, op);
    }
    if actions :| AcceptedAfter(limit, actions, op) {
      TablesAreSound(limit, actions);
      AcceptedIsEverAccepted(Run(limit, actions).value.core.tables, op);
    }
  }

  /** The ledger invariant holds in every run of requests, and the history is a serial one. */
  lemma TablesAreSound(limit: nat, actions: seq<Action>)
    requires Run(limit, actions).Some?
    ensures var core := Run(limit, actions).value.core;
            Invariant(core.tables) && Replay(core.history) == Some(core.tables)
  {
    RunInv(limit, actions);
    Conc.ReachableInv(Run(limit, actions).value.core);
    ReplayKeepsInvariant(Run(limit, actions).value.core.history);
  }

  // ---- Two operations, one digest ----

  /** The second request is as the first, but for what its path asks for. */
  ghost predicate SameButPath(a: Turn, b: Turn) {
    a.r != b.r && b.q == a.q.(op := b.q.op)
  }

  /** What the second is told is the first one's success, and nothing is done for it. */
  ghost predicate ToldTheOthers(s: System, s': System, a: Turn, b: Turn) {
    && s'.core.tables == Posted(s.core.tables, a.q.op, a.tx) && b.r !in s'.core.txns
    && s'.requests == s.requests[a.r := a.q.(stage := Done(200, BodyOf(a.q.op, None), false))]
                                [b.r := b.q.(stage := Done(200, BodyOf(a.q.op, None), true))]
  }

  /**
   From any state reached so far in which the digest has not been heard of, no call is inside an attempt
   and the ledger takes the first operation, whatever is tolerated and whatever the second one is: the
   second request is told 200, in the first one's words.
   */
  lemma {:induction false} OtherOperationIsReplayed(w: Watch, past: seq<Action>, s: System, a: Turn, b: Turn)
    returns (s': System)
    requires Reached(w, past, s) && Newcomer(s, a.r, a.q) && Newcomer(s, b.r, b.q) && SameButPath(a, b)
    requires a.q.id == w.id && a.q.user == w.user && Takes(w, s, a.q.op) && a.tx !in s.core.usedTx
    ensures Reached(w, past + Enter(a.r, a.q, true) + Serve(a.r, a.tx, false, true) + Enter(b.r, b.q, true), s')
    ensures ToldTheOthers(s, s', a, b)
  {
    EnterRuns(w, past, s, a, true);
    var s1 := ServeRuns(w, past + Enter(a.r, a.q, true), Entered(s, a), a.r, a.tx, false, true);
    NextMayEnter(w, s, s1, a, b);
    EnterHits(w, past + Enter(a.r, a.q, true) + Serve(a.r, a.tx, false, true), s1, b);
    s' := Hit(s1, b);
  }

  lemma NextMayEnter(w: Watch, s: System, s1: System, a: Turn, b: Turn)
    requires Newcomer(s, a.r, a.q) && Newcomer(s, b.r, b.q) && SameButPath(a, b)
    requires a.q.id == w.id && a.q.user == w.user && Takes(w, s, a.q.op)
    requires Served(Entered(s, a), s1, a.r, a.tx, false, true)
    ensures Newcomer(s1, b.r, b.q) && Allowed(s1, Arrive(b.r, b.q), w.id, w.user, w.tolerated)
    ensures Find(s1.keys, w.id, w.user) == Some(Row(w.user, 200, BodyOf(a.q.op, None)))
    ensures ToldTheOthers(s, Hit(s1, b), a, b)
  {
    assert forall x :: Tracked(s1, w.id, x) ==> x == a.r;
  }

  /** The second request's own operation has not been posted. */
  lemma OtherIsNotPosted(w: Watch, s: System, s': System, a: Turn, b: Turn)
    requires Inv(s') && SameButPath(a, b) && ToldTheOthers(s, s', a, b)
    requires a.q.id == w.id && forall r :: r in s.requests ==> s.requests[r].id != w.id
    requires a.q.op != b.q.op
    ensures b.r in Sent(s', w.id, a.q.user) && Succeeded(s', b.r) && !OwnPosted(s', b.r)
  {
    forall r0, tx | r0 in Sent(s', w.id, a.q.user) ensures Posting(r0, b.q.op, tx) !in s'.core.history {
      if Posting(r0, b.q.op, tx) in s'.core.history {
        PostingIsOfSender(s', r0, b.q.op, tx);
      }
    }
  }

  // ---- When a success is one's own ----

  /** In every undisturbed run whose requests of one digest ask for `ops` only, successes are the requests' own. */
  ghost predicate OwnSuccessUnder(limit: nat, ops: set<Op>) {
    forall actions, id, user ::
      && Run(limit, actions).Some? && CalmUpTo(limit, actions, id, user, {})
      && AskFor(Run(limit, actions).value, id, user, ops)
      ==> SuccessesAreOwn(Run(limit, actions).value, id, user)
  }

  ghost predicate AskFor(s: System, id: Digest, user: UserId, ops: set<Op>) {
    forall r :: r in Sent(s, id, user) ==> s.requests[r].op in ops
  }

  /** No operation that can succeed is among others. */
  ghost predicate NothingToMistake(ops: set<Op>) {
    forall a, b :: a in ops && b in ops && EverAccepted(a) ==> a == b
  }

  lemma {:induction false} SuccessIsOwn(limit: nat, actions: seq<Action>, id: Digest, user: UserId,
                                        ops: set<Op>, r: Pid)
    requires Run(limit, actions).Some? && CalmUpTo(limit, actions, id, user, {}) && NothingToMistake(ops)
    requires var s := Run(limit, actions).value;
             AskFor(s, id, user, ops) && r in Sent(s, id, user) && Succeeded(s, r)
    ensures OwnPosted(Run(limit, actions).value, r)
  {
    var s := Run(limit, actions).value;
    var r0, tx := SuccessPostsTheServedOperation(limit, actions, id, user, r);
    TablesAreSound(limit, actions);
    PostedIsEverAccepted(s.core.history, Posting(r0, s.requests[r0].op, tx));
    assert s.requests[r0].op in ops && s.requests[r].op in ops;
  }

  /** A request whose success is not its own. */
  lemma {:induction false} MistakenSuccess(limit: nat, a: Op, b: Op) returns (actions: seq<Action>, q: Request)
    requires EverAccepted(a) && a != b
    ensures Run(limit, actions).Some? && CalmUpTo(limit, actions, q.id, q.user, {})
    ensures var s := Run(limit, actions).value; AskFor(s, q.id, q.user, {a, b}) && !SuccessesAreOwn(s, q.id, q.user)
  {
    q := RequestOf("k", ANNE, BODY, a);
    actions := Mistake(Watch(limit, q.id, q.user, {}), 1, 1, Turn(2, q, 2), Turn(3, q.(op := b), 3));
  }

  lemma {:induction false} Mistake(w: Watch, f: Pid, tx: TxId, a: Turn, b: Turn) returns (actions: seq<Action>)
    requires EverAccepted(a.q.op) && a.q.op != b.q.op && SameButPath(a, b) && f != a.r && f != b.r && tx != a.tx
    requires a.q.New()
    requires w == Watch(w.limit, a.q.id, a.q.user, {})
    ensures Run(w.limit, actions).Some? && CalmUpTo(w.limit, actions, w.id, w.user, {})
    ensures var s := Run(w.limit, actions).value;
            AskFor(s, w.id, w.user, {a.q.op, b.q.op}) && !SuccessesAreOwn(s, w.id, w.user)
  {
    var past, s := TakingRuns(w, a.q.op, f, tx);
    var s' := OtherOperationIsReplayed(w, past, s, a, b);
    actions := past + Enter(a.r, a.q, true) + Serve(a.r, a.tx, false, true) + Enter(b.r, b.q, true);
    SystemInv(w, actions, s');
    OtherIsNotPosted(w, s, s', a, b);
  }

  /**
   Over all undisturbed runs in which the requests of one digest ask for these operations, a success
   means that the request's own operation was posted, if and only if none of the operations that can
   succeed at all comes with another one: for two operations, one of which can succeed, exactly if they
   are the same.
   */
  lemma {:induction false} SuccessIsOwnExactly(limit: nat, ops: set<Op>)
    ensures OwnSuccessUnder(limit, ops) <==> NothingToMistake(ops)
  {
    if NothingToMistake(ops) {
      forall actions, id, user, r |
        && Run(limit, actions).Some? && CalmUpTo(limit, actions, id, user, {})
        && AskFor(Run(limit, actions).value, id, user, ops)
        && r in Sent(Run(limit, actions).value, id, user) && Succeeded(Run(limit, actions).value, r)
        ensures OwnPosted(Run(limit, actions).value, r)
      {
        SuccessIsOwn(limit, actions, id, user, ops, r);
      }
    } else {
      var a, b :| a in ops && b in ops && EverAccepted(a) && a != b;
      var actions, q := MistakenSuccess(limit, a, b);
    }
  }

  // ---- Two accounts ----

  /** The same body and key, sent to one account and then to another. */
  function PayOneThenTheOther(a: Turn, b: Turn): seq<Action> {
    ACCOUNTS + Enter(a.r, a.q, true) + Serve(a.r, a.tx, false, true) + Enter(b.r, b.q, true)
  }

  lemma {:induction false} SecondAccountRuns(w: Watch, a: Turn, b: Turn) returns (s: System)
    requires Fresh(a.q, Deposit(1, 1.0)) && SameButPath(a, b) && b.q.op == Deposit(2, 1.0)
    requires w == Watch(w.limit, a.q.id, a.q.user, {})
    ensures Reached(w, PayOneThenTheOther(a, b), s)
    ensures BalanceOf(s.core.tables, 1) == 10000 && BalanceOf(s.core.tables, 2) == 0
    ensures b.r in s.requests && s.requests[b.r].stage == Done(200, Message("deposit successful"), true)
  {
    var s0 := AccountsOpen(w);
    PaymentAccepted();
    assert RoundUnits(1.0) == 10000;
    s := OtherOperationIsReplayed(w, ACCOUNTS, s0, a, b);
  }

  const TO_ONE: Turn := Turn(1, RequestOf("k", ANNE, BODY, Deposit(1, 1.0)), 1)
  const TO_TWO: Turn := Turn(2, RequestOf("k", ANNE, BODY, Deposit(2, 1.0)), 2)

  /** From the migrated tables, undisturbed: the second deposit is said to have succeeded, and nothing was paid. */
  lemma {:induction false} SecondAccountGetsNothing(limit: nat) returns (s: System)
    ensures Run(limit, PayOneThenTheOther(TO_ONE, TO_TWO)) == Some(s)
    ensures CalmUpTo(limit, PayOneThenTheOther(TO_ONE, TO_TWO), TO_ONE.q.id, ANNE, {})
    ensures BalanceOf(s.core.tables, 1) == 10000 && BalanceOf(s.core.tables, 2) == 0
    ensures 2 in s.requests && s.requests[2].stage == Done(200, Message("deposit successful"), true)
  {
    s := SecondAccountRuns(Watch(limit, TO_ONE.q.id, ANNE, {}), TO_ONE, TO_TWO);
  }
}
