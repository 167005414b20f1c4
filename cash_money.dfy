/**
 * A Swedish coin or bill, identified by its value in minor units; only the
 * eleven values in circulation can be made.
 */
module CashMonies {
  import opened JavaInt
  import opened Wrappers
  import Monies
  import JavaText

  /** The values the constructor accepts: 1 öre, and the coins and bills from 1 to 1000 kronor. */
  const Denominations: set<int> :=
    {1, 100, 200, 500, 1_000, 2_000, 5_000, 10_000, 20_000, 50_000, 100_000}

  datatype CashMoney = CashMoney(amountInMinorUnit: Int32)
  {
    function GetCashMoneyDenomination(): (r: Int32)
    {
      amountInMinorUnit
    }

    /** The whole kronor, truncated, followed by "kr". */
    function ToString(): (r: string)
      ensures |r| >= 3 && r[|r| - 2..] == "kr"
      ensures JavaText.ParseDecimal(r[..|r| - 2]) == Some(Div100(amountInMinorUnit))
    {
      Monies.KronorText(amountInMinorUnit)
    }
  }

  /** Why the constructor threw IllegalArgumentException. */
  datatype CashError = InvalidDenomination

  /**
   * The constructor's switch: a coin or bill of value `denomination`, or the
   * exception for any other value.
   */
  function NewCashMoney(denomination: Int32): (r: Result<CashMoney, CashError>)
    ensures r.Success? <==> denomination in Denominations
    ensures r.Success? ==> r.value.GetCashMoneyDenomination() == denomination
    ensures r.Failure? ==> r.error == InvalidDenomination
  {
    match denomination
    case 1 => Success(CashMoney(1))
    case 100 => Success(CashMoney(1_00))
    case 200 => Success(CashMoney(2_00))
    case 500 => Success(CashMoney(5_00))
    case 1_000 => Success(CashMoney(10_00))
    case 2_000 => Success(CashMoney(20_00))
    case 5_000 => Success(CashMoney(50_00))
    case 10_000 => Success(CashMoney(100_00))
    case 20_000 => Success(CashMoney(200_00))
    case 50_000 => Success(CashMoney(500_00))
    case 100_000 => Success(CashMoney(1000_00))
    case _ => Failure(InvalidDenomination)
  }

  /** `equals`: the same value. */
  predicate Equals(a: CashMoney, b: CashMoney)
  {
    a.amountInMinorUnit == b.amountInMinorUnit
  }

  // ------------------------------------------------------------ properties

  /** Two coins or bills are equal exactly when they were made from the same value. */
  lemma EqualIffSameDenomination(d: Int32, e: Int32)
    requires NewCashMoney(d).Success? && NewCashMoney(e).Success?
    ensures Equals(NewCashMoney(d).value, NewCashMoney(e).value) <==> d == e
  {
  }

  /** Seven öre is no coin. */
  lemma SevenIsRejected()
    ensures NewCashMoney(7) == Failure(InvalidDenomination)
  {
  }

  /** One öre is written "0kr" and a ten-krona coin (1000 öre) "10kr". */
  lemma ToStringExamples()
    ensures NewCashMoney(1).Success? && NewCashMoney(1).value.ToString() == "0kr"
    ensures NewCashMoney(1_000).Success? && NewCashMoney(1_000).value.ToString() == "10kr"
  {
    assert JavaText.NatDigits(10) == "10" by {
      assert JavaText.NatDigits(1) == "1";
    }
  }
}
