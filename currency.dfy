/**
 * The wallet component (UCurrencyComponent): an int32 balance that only
 * AddCurrency and SpendCurrency change, broadcasting OnCurrencyChanged(current, delta)
 * whenever the balance actually moves.
 */
module Currency {
  import opened Common

  /** OnCurrencyChanged(CurrencyComponent, CurrentCurrency, DeltaCurrency); the component is implicit. */
  datatype Event = CurrencyChanged(currentCurrency: int, deltaCurrency: int)

  /** The balance after an operation and the delta it reports. */
  datatype Outcome = Outcome(balance: int, delta: int)

  function MaxInt(a: int, b: int): int
  {
    if a >= b then a else b
  }

  /** Two's-complement truncation of a mathematical integer to int32. */
  function WrapInt32(x: int): (r: Int32)
    ensures MinInt32 <= x <= MaxInt32 ==> r == x
    ensures x > MaxInt32 && x <= MaxInt32 - MinInt32 + MaxInt32 ==> r == x - 0x1_0000_0000
  {
    (x - MinInt32) % 0x1_0000_0000 + MinInt32
  }

  /**
   * AddCurrency exactly as the int32 arithmetic of the source computes it: the sum
   * CurrentCurrency + Amount wraps around on overflow before Max(0, _) is applied.
   */
  function AddAsWritten(balance: Int32, amount: Int32): (r: Outcome)
    ensures amount <= 0 ==> r == Outcome(balance, 0)
    ensures amount > 0 && 0 <= balance && balance + amount <= MaxInt32 ==>
              r == Outcome(balance + amount, amount)
  {
    if amount <= 0 then Outcome(balance, 0)
    else
      var next := MaxInt(0, WrapInt32(balance + amount));
      Outcome(next, next - balance)
  }

  /**
   * On the source's arithmetic, adding 1 to a full wallet empties it and reports a
   * negative delta from an operation meant only to add.
   */
  lemma AddOverflowDropsBalance()
    ensures AddAsWritten(MaxInt32, 1) == Outcome(0, -MaxInt32)
  {
    assert WrapInt32(MaxInt32 + 1) == MinInt32;
  }

  /**
   * AddCurrency with the sum saturating at the int32 maximum (the intended behaviour):
   * a non-positive amount changes nothing; a positive one raises the balance by
   * exactly the amount unless that would exceed int32, and never lowers it.
   */
  function AddOutcome(balance: nat, amount: Int32): (r: Outcome)
    requires balance <= MaxInt32
    ensures 0 <= r.balance <= MaxInt32
    ensures r.delta == r.balance - balance
    ensures amount <= 0 ==> r == Outcome(balance, 0)
    ensures amount > 0 ==> 0 <= r.delta <= amount
    ensures amount > 0 && balance + amount <= MaxInt32 ==> r.delta == amount
    ensures amount > 0 && balance + amount > MaxInt32 ==> r.balance == MaxInt32
  {
    if amount <= 0 then Outcome(balance, 0)
    else
      var sum := if balance + amount > MaxInt32 then MaxInt32 else balance + amount;
      var next := MaxInt(0, sum);
      Outcome(next, next - balance)
  }

  /** Without overflow the corrected and the as-written AddCurrency agree. */
  lemma AddOutcomeMatchesSourceWithoutOverflow(balance: nat, amount: Int32)
    requires balance <= MaxInt32 && balance + amount <= MaxInt32
    ensures AddOutcome(balance, amount) == AddAsWritten(balance, amount)
  {
  }

  /** SpendCurrency: the spend succeeds, and the balance drops by exactly the amount, iff 0 < Amount <= balance. */
  function SpendOutcome(balance: nat, amount: Int32): (r: Outcome)
    requires balance <= MaxInt32
    ensures 0 <= r.balance <= balance
    ensures r.delta == r.balance - balance
    ensures 0 < amount <= balance ==> r == Outcome(balance - amount, -amount)
    ensures !(0 < amount <= balance) ==> r == Outcome(balance, 0)
  {
    if amount <= 0 || balance < amount then Outcome(balance, 0)
    else
      var next := MaxInt(0, balance - amount);
      Outcome(next, next - balance)
  }

  /** Adding back what a successful spend took restores the balance. */
  lemma SpendThenAddRestores(balance: nat, amount: Int32)
    requires balance <= MaxInt32 && 0 < amount <= balance
    ensures AddOutcome(SpendOutcome(balance, amount).balance, amount).balance == balance
  {
  }

  /** The broadcast a balance change produces: one event exactly when the delta is non-zero. */
  function ChangeEvents(o: Outcome): (r: seq<Event>)
    ensures |r| <= 1
    ensures r != [] <==> o.delta != 0
    ensures r != [] ==> r[0].currentCurrency == o.balance && r[0].deltaCurrency == o.delta
  {
    if o.delta != 0 then [CurrencyChanged(o.balance, o.delta)] else []
  }

  class Wallet {
    /** CurrentCurrency */
    var currentCurrency: int
    /** Broadcasts of OnCurrencyChanged, oldest first. */
    var events: seq<Event>

    /** The balance is a non-negative int32. */
    ghost predicate Valid()
      reads this
    {
      0 <= currentCurrency <= MaxInt32
    }

    /** A wallet with its authored starting balance (ClampMin 0, default 0). */
    constructor (initialCurrency: int)
      requires 0 <= initialCurrency <= MaxInt32
      ensures Valid()
      ensures currentCurrency == initialCurrency && events == []
    {
      currentCurrency := initialCurrency;
      events := [];
    }

    /** GetCurrency */
    function GetCurrency(): (r: int)
      reads this
      requires Valid()
      ensures 0 <= r <= MaxInt32
    {
      currentCurrency
    }

    /** AddCurrency(Amount): returns the applied delta (see AddOutcome). */
    method AddCurrency(amount: Int32) returns (delta: Int32)
      requires Valid()
      modifies this
      ensures Valid()
      ensures Outcome(currentCurrency, delta) == AddOutcome(old(currentCurrency), amount)
      ensures events == old(events) + ChangeEvents(Outcome(currentCurrency, delta))
    {
      if amount <= 0 {
        return 0;
      }
      var previousCurrency := currentCurrency;
      var sum := if currentCurrency + amount > MaxInt32 then MaxInt32 else currentCurrency + amount;
      currentCurrency := MaxInt(0, sum);
      delta := currentCurrency - previousCurrency;
      if delta != 0 {
        events := events + [CurrencyChanged(currentCurrency, delta)];
      }
    }

    /** SpendCurrency(Amount): true and the balance lowered by Amount, or false and nothing changed. */
    method SpendCurrency(amount: Int32) returns (ok: bool)
      requires Valid()
      modifies this
      ensures Valid()
      ensures ok <==> 0 < amount <= old(currentCurrency)
      ensures currentCurrency == SpendOutcome(old(currentCurrency), amount).balance
      ensures events == old(events) + ChangeEvents(SpendOutcome(old(currentCurrency), amount))
    {
      if amount <= 0 || currentCurrency < amount {
        return false;
      }
      var previousCurrency := currentCurrency;
      currentCurrency := MaxInt(0, currentCurrency - amount);
      var delta := currentCurrency - previousCurrency;
      if delta != 0 {
        events := events + [CurrencyChanged(currentCurrency, delta)];
      }
      ok := true;
    }
  }
}
