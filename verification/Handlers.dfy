/** Which status and body the three money handlers give to each outcome of the ledger call. */
module Handlers {
  import opened Wrappers
  import opened Ledger

  datatype Body = Message(text: string) | ErrorText(error: Err) | Text(text: string)

  /** A transfer answers every ledger error with 400; the other two know their business errors. */
  function StatusOf(op: Op, result: Option<Err>): nat {
    match result
    case None => 200
    case Some(e) =>
      if op.Transfer? || Is(e, InvalidAmount) || Is(e, CurrencyMismatch) then 400
      else if op.Withdraw? && Is(e, InsufficientFunds) then 400
      else 500
  }

  function BodyOf(op: Op, result: Option<Err>): Body {
    match result
    case Some(e) => ErrorText(e)
    case None =>
      match op
      case Deposit(_, _) => Message("deposit successful")
      case Withdraw(_, _) => Message("withdrawal successful")
      case Transfer(_, _, _) => Message("transfer successful")
  }

  /**
   A 400 tells the caller of a deposit or withdrawal exactly that both rows were there and the
   checks on them said no; missing rows, constraint violations and overflows are 500s. The caller of
   a transfer is told nothing but 400.
   */
  lemma ClientErrorsAreCheckVerdicts(t: Tables, op: Op)
    requires Refusal(t, op).Some?
    ensures StatusOf(op, Refusal(t, op)) == 400
            <==> op.Transfer?
                 || (op.First() in t.accounts && op.Second() in t.accounts
                     && CheckError(op, t.accounts[op.First()], t.accounts[op.Second()]).Some?)
    ensures StatusOf(op, Refusal(t, op)) == 400 || StatusOf(op, Refusal(t, op)) == 500
  {
    NoRefusal(t, op, 0);
    var k :| 0 <= k < QUERIES && StageError(t, op, k).Some? && forall j :: 0 <= j < k ==> StageError(t, op, j).None?;
    FirstRefusal(t, op, 0, k);
  }

  /**
   The status of every outcome. A deposit knows two errors as the client's, a withdrawal three, under
   any number of layers; all else is the server's. A transfer blames the client for everything.
   */
  lemma StatusExactly(op: Op, e: Err)
    ensures StatusOf(op, None) == 200
    ensures StatusOf(op, Some(e)) == 400 || StatusOf(op, Some(e)) == 500
    ensures op.Deposit? ==> (StatusOf(op, Some(e)) == 400
                             <==> exists n: nat :: e == Wraps(n, InvalidAmount) || e == Wraps(n, CurrencyMismatch))
    ensures op.Withdraw? ==> (StatusOf(op, Some(e)) == 400
                              <==> exists n: nat :: e == Wraps(n, InvalidAmount) || e == Wraps(n, CurrencyMismatch)
                                                    || e == Wraps(n, InsufficientFunds))
    ensures op.Transfer? ==> StatusOf(op, Some(e)) == 400
  {
    IsExactly(e, InvalidAmount);
    IsExactly(e, CurrencyMismatch);
    IsExactly(e, InsufficientFunds);
  }

  /** What a success is said to be; an error is its own text. */
  lemma AnswerTexts(op: Op, e: Err)
    ensures BodyOf(op, Some(e)) == ErrorText(e)
    ensures BodyOf(op, None) == Message(match op.Kind()
                                        case DepositType => "deposit successful"
                                        case WithdrawalType => "withdrawal successful"
                                        case TransferType => "transfer successful")
  {
  }
}
