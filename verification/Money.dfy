/**
 Amounts are exact decimals; stored money is a whole number of 1/10000 units, as NUMERIC(19,4)
 keeps it. A request amount becomes stored money by rounding half away from zero.
 */
module Money {
  /** Largest magnitude of a NUMERIC(19,4), in units. */
  const MAX_UNITS: int := 9_999_999_999_999_999_999

  predicate InRange(units: int) {
    -MAX_UNITS <= units <= MAX_UNITS
  }

  /** The decimal that `units` stands for. */
  function Value(units: int): real {
    units as real / 10000.0
  }

  /** StringFixed(4): round half away from zero at the fourth place. */
  function RoundUnits(amount: real): int {
    if amount >= 0.0 then (amount * 10000.0 + 0.5).Floor
    else -((-amount * 10000.0 + 0.5).Floor)
  }

  /** Rounding is odd, so the negated balance update has exactly the magnitude of the entry. */
  lemma RoundNegation(amount: real)
    ensures RoundUnits(-amount) == -RoundUnits(amount)
  {
    if amount == 0.0 {
      assert RoundUnits(amount) == 0;
    }
  }

  /** A posting differs from the requested amount by at most half of 0.0001. */
  lemma RoundError(amount: real)
    ensures amount - 0.00005 <= Value(RoundUnits(amount)) <= amount + 0.00005
  {
  }

  lemma RoundMonotone(a: real, b: real)
    requires a <= b
    ensures RoundUnits(a) <= RoundUnits(b)
  {
  }

  /** Every value with four places is its own rounding. */
  lemma RoundFixesUnits(units: int)
    ensures RoundUnits(Value(units)) == units
  {
    if units >= 0 {
      assert Value(units) * 10000.0 == units as real;
    } else {
      assert -Value(units) * 10000.0 == (-units) as real;
    }
  }

  /** The check compares the unrounded amount, yet what it lets through never exceeds the balance. */
  lemma FundsCheckCoversPosting(balance: int, amount: real)
    requires Value(balance) >= amount
    ensures balance >= RoundUnits(amount)
  {
    RoundMonotone(amount, Value(balance));
    RoundFixesUnits(balance);
  }

  /**
   The converse fails only in one place: the check refuses a posting the balance would cover
   exactly when the amount rounds down onto the whole balance.
   */
  lemma FundsCheckIsExactUpToRounding(balance: int, amount: real)
    ensures (RoundUnits(amount) <= balance && Value(balance) < amount)
            <==> (RoundUnits(amount) == balance && amount > Value(balance))
  {
    if RoundUnits(amount) <= balance && Value(balance) < amount {
      RoundMonotone(Value(balance), amount);
      RoundFixesUnits(balance);
    }
  }

  /** Which positive amounts vanish when rounded. */
  lemma RoundsToZero(amount: real)
    requires amount > 0.0
    ensures RoundUnits(amount) >= 0
    ensures RoundUnits(amount) == 0 <==> amount < 0.00005
  {
  }

  function Magnitude(x: real): real {
    if x < 0.0 then -x else x
  }

  /** `u` is as near to `x` as a whole number can be; of two that are, it is the one farther from zero. */
  predicate NearestAwayFromZero(u: int, x: real) {
    && Magnitude(u as real - x) <= 0.5
    && (Magnitude(u as real - x) == 0.5 ==> Magnitude(u as real) > Magnitude(x))
  }

  /** What StringFixed(4) promises, and that it leaves no choice. */
  lemma RoundingExactly(amount: real, u: int)
    ensures u == RoundUnits(amount) <==> NearestAwayFromZero(u, amount * 10000.0)
  {
  }

  /** Ties go away from zero, on both sides. */
  lemma TiesGoAwayFromZero(n: nat)
    ensures RoundUnits((n as real + 0.5) / 10000.0) == n + 1
    ensures RoundUnits(-(n as real + 0.5) / 10000.0) == -(n + 1)
  {
    var amount := (n as real + 0.5) / 10000.0;
    assert amount * 10000.0 == n as real + 0.5;
    assert -(n as real + 0.5) / 10000.0 == -amount;
    RoundNegation(amount);
  }

  /** NUMERIC(19,4): fifteen digits before the point, four after it. */
  lemma RangeIsNumeric(units: int)
    ensures InRange(units) <==> Magnitude(Value(units)) < 1_000_000_000_000_000.0
  {
  }
}
