/**
 * An amount of Swedish kronor held in minor units (öre) in a Java `long`,
 * never constructed negative, with guarded `add` and `subtract`.
 */
module Monies {
  import opened JavaInt
  import opened Wrappers
  import JavaText

  /** Why a constructor, `add` or `subtract` threw IllegalArgumentException. */
  datatype MoneyError =
    | NegativeAmount       // the constructor's guard
    | InvalidSubtraction   // more than the balance, or negative
    | NegativeAddition

  /**
   * How `toString` writes an amount of minor units: the whole kronor, by
   * Java's truncating division by 100, followed by "kr".
   */
  function KronorText(minor: int): (r: string)
    ensures |r| >= 3 && r[|r| - 2..] == "kr"
    ensures JavaText.ParseDecimal(r[..|r| - 2]) == Some(Div100(minor))
  {
    var digits := JavaText.Decimal(Div100(minor));
    var r := digits + "kr";
    assert r[..|r| - 2] == digits;
    JavaText.DecimalRoundTrip(Div100(minor));
    r
  }

  /** The balance after `add(x)`, or None where it throws. Java's `+=` wraps past `Long.MAX_VALUE`. */
  function Added(balance: Int64, x: Int64): (r: Option<Int64>)
    ensures r.Some? <==> x >= 0
    ensures r.Some? && InLong(balance + x) ==> r.value == balance + x
    ensures r.Some? && balance >= 0 && InLong(balance + x) ==> r.value >= balance
  {
    if x < 0 then None else Some(Wrap64(balance + x))
  }

  /** The balance after `subtract(x)`, or None where it throws. */
  function Subtracted(balance: Int64, x: Int64): (r: Option<Int64>)
    ensures r.Some? <==> 0 <= x <= balance
    ensures r.Some? ==> r.value == balance - x && 0 <= r.value <= balance
  {
    if x > balance || x < 0 then None else Some(balance - x)
  }

  class Money {
    var amountInMinorUnit: Int64
    const currency: string := "SEK"

    /** The constructor past its guard; `NewMoney` models the guard itself. */
    constructor (amount: Int64)
      requires amount >= 0
      ensures amountInMinorUnit == amount
    {
      amountInMinorUnit := amount;
    }

    function GetAmountInMinorUnit(): (r: Int64)
      reads this
    {
      amountInMinorUnit
    }

    /** Every `Money` is in Swedish kronor. */
    function GetCurrency(): (c: string)
      ensures c == "SEK"
    {
      currency
    }

    /** `subtract`: the balance goes down by exactly `x`, or it throws with the balance unchanged. */
    method Subtract(x: Int64) returns (r: Outcome<MoneyError>)
      modifies this
      ensures Subtracted(old(amountInMinorUnit), x).None? ==>
                r == Fail(InvalidSubtraction) && amountInMinorUnit == old(amountInMinorUnit)
      ensures Subtracted(old(amountInMinorUnit), x).Some? ==>
                r == Pass && amountInMinorUnit == Subtracted(old(amountInMinorUnit), x).value
    {
      if x > amountInMinorUnit || x < 0 {
        return Fail(InvalidSubtraction);
      }
      amountInMinorUnit := amountInMinorUnit - x;
      return Pass;
    }

    /** `add`: the balance goes up by `x`, or it throws with the balance unchanged. */
    method Add(x: Int64) returns (r: Outcome<MoneyError>)
      modifies this
      ensures Added(old(amountInMinorUnit), x).None? ==>
                r == Fail(NegativeAddition) && amountInMinorUnit == old(amountInMinorUnit)
      ensures Added(old(amountInMinorUnit), x).Some? ==>
                r == Pass && amountInMinorUnit == Added(old(amountInMinorUnit), x).value
    {
      if x < 0 {
        return Fail(NegativeAddition);
      }
      amountInMinorUnit := Wrap64(amountInMinorUnit + x);
      return Pass;
    }

    /** Two amounts are equal when their minor units are; the currency is always the same. */
    predicate Equals(other: Money)
      reads this, other
    {
      amountInMinorUnit == other.amountInMinorUnit
    }

    /** `toString`: the whole kronor, truncated, followed by "kr". */
    function ToString(): (r: string)
      reads this
      ensures |r| >= 3 && r[|r| - 2..] == "kr"
      ensures JavaText.ParseDecimal(r[..|r| - 2]) == Some(Div100(amountInMinorUnit))
    {
      KronorText(amountInMinorUnit)
    }
  }

  /** `new Money(amount)`: a fresh `Money` holding `amount`, or the constructor's exception. */
  method NewMoney(amount: Int64) returns (r: Result<Money, MoneyError>)
    ensures r.Failure? <==> amount < 0
    ensures r.Failure? ==> r.error == NegativeAmount
    ensures r.Success? ==>
              fresh(r.value) && r.value.amountInMinorUnit == amount && r.value.GetCurrency() == "SEK"
  {
    if amount < 0 {
      return Failure(NegativeAmount);
    }
    var m := new Money(amount);
    return Success(m);
  }

  // ------------------------------------------------------------ properties

  /** A call on a `Money`. */
  datatype Op = AddOp(x: Int64) | SubtractOp(x: Int64)

  /** The balance after one call: the new balance, or the old one when the call throws. */
  function Step(balance: Int64, op: Op): (r: Int64)
  {
    var r := match op
      case AddOp(x) => Added(balance, x)
      case SubtractOp(x) => Subtracted(balance, x);
    if r.Some? then r.value else balance
  }

  /** The balance after a sequence of calls, each either done or thrown and caught. */
  function Run(balance: Int64, ops: seq<Op>): (r: Int64)
    decreases |ops|
  {
    if ops == [] then balance else Run(Step(balance, ops[0]), ops[1..])
  }

  /** No `add` along the run takes the balance past `Long.MAX_VALUE`. */
  predicate NoOverflow(balance: Int64, ops: seq<Op>)
    decreases |ops|
  {
    ops == [] ||
    ((ops[0].AddOp? ==> InLong(balance + ops[0].x)) && NoOverflow(Step(balance, ops[0]), ops[1..]))
  }

  /** A balance that starts non-negative stays so through any sequence of calls that does not overflow. */
  lemma {:induction false} RunStaysNonNegative(balance: Int64, ops: seq<Op>)
    requires balance >= 0 && NoOverflow(balance, ops)
    ensures Run(balance, ops) >= 0
    decreases |ops|
  {
    if ops != [] {
      RunStaysNonNegative(Step(balance, ops[0]), ops[1..]);
    }
  }

  /** Adding an amount and then subtracting it gives back the balance. */
  lemma AddThenSubtract(balance: Int64, x: Int64)
    requires balance >= 0 && x >= 0 && InLong(balance + x)
    ensures Added(balance, x).Some?
    ensures Subtracted(Added(balance, x).value, x) == Some(balance)
  {
  }

  /** Past `Long.MAX_VALUE` an `add` wraps the balance negative. */
  lemma AddOverflows()
    ensures Added(LONG_MAX, 1) == Some(LONG_MIN)
  {
  }

  /** A balance of 12345 öre is written "123kr". */
  lemma ToStringExample()
    ensures KronorText(12345) == "123kr"
  {
    assert JavaText.NatDigits(123) == "123" by {
      assert JavaText.NatDigits(1) == "1";
      assert JavaText.NatDigits(12) == "12";
    }
  }
}
