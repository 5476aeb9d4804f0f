/** Serial histories of the ledger: operations run one at a time, in a given order. */
module History {
  import opened Wrappers
  import opened Ledger
  import opened LedgerInvariants

  type Pid = nat

  datatype Event =
    | Posting(pid: Pid, op: Op, tx: TxId)
    | Refused(pid: Pid, op: Op, error: Err)
    | Opening(id: AccountId, name: string, currency: string)

  /** The tables after one event, or None when a serial run could not have produced it. */
  function Step(t: Tables, e: Event): Option<Tables> {
    match e
    case Posting(_, op, tx) =>
      if op.Valid() && FreshTx(t, tx) && Atomic(t, op, tx).Ok? then Some(Atomic(t, op, tx).value) else None
    case Refused(_, op, error) =>
      if op.Valid() && Refusal(t, op) == Some(error) then Some(t) else None
    case Opening(id, name, currency) =>
      if id !in t.accounts then Some(Opened(t, id, name, currency)) else None
  }

  /** The tables after the whole history, run serially from the seeded ones. */
  function Replay(history: seq<Event>): Option<Tables> {
    if history == [] then Some(SEEDED)
    else
      match Replay(history[..|history| - 1])
      case None => None
      case Some(t) => Step(t, history[|history| - 1])
  }

  /** Every serial history keeps the ledger invariant. */
  lemma {:induction false} ReplayKeepsInvariant(history: seq<Event>)
    requires Replay(history).Some?
    ensures Invariant(Replay(history).value)
  {
    if history == [] {
      SeededInvariant();
    } else {
      ReplayKeepsInvariant(history[..|history| - 1]);
      var t := Replay(history[..|history| - 1]).value;
      match history[|history| - 1]
      case Posting(_, op, tx) => PostKeepsInvariant(t, op, tx);
      case Refused(_, _, _) =>
      case Opening(id, name, currency) => OpenKeepsInvariant(t, id, name, currency);
    }
  }

  /** A longer history only appends entries and accounts; it never rewrites or drops one. */
  lemma {:induction false} ReplayOnlyAppends(a: seq<Event>, b: seq<Event>)
    requires Replay(a + b).Some?
    ensures Replay(a).Some?
    ensures Replay(a).value.entries <= Replay(a + b).value.entries
    ensures Replay(a).value.accounts.Keys <= Replay(a + b).value.accounts.Keys
  {
    if b == [] {
      assert a + b == a;
    } else {
      assert (a + b)[..|a + b| - 1] == a + b[..|b| - 1];
      ReplayOnlyAppends(a, b[..|b| - 1]);
    }
  }

  /** What a serial history has posted was once accepted. */
  lemma {:induction false} PostedIsEverAccepted(history: seq<Event>, e: Event)
    requires Replay(history).Some? && e in history && e.Posting?
    ensures EverAccepted(e.op)
  {
    var before := history[..|history| - 1];
    if e in before {
      PostedIsEverAccepted(before, e);
    } else {
      assert e == history[|history| - 1];
      ReplayKeepsInvariant(before);
      AcceptedIsEverAccepted(Replay(before).value, e.op);
    }
  }
}
