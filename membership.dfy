/**
 * A customer's membership: points collected (one per öre spent), whether the
 * customer is an employee, and the tier those two determine.
 */
module Memberships {
  import opened JavaInt
  import opened Wrappers
  import opened MembershipTypes

  const THRESHOLD_FOR_SILVER_MEMBERSHIP: int := 25_000_00
  const THRESHOLD_FOR_GOLD_MEMBERSHIP: int := 100_000_00

  /**
   * `determineMembershipType` as a function: an employee is EMPLOYEE whatever
   * the points; anyone else is GOLD from the gold threshold, SILVER from the
   * silver threshold, and BRONZE below it.
   */
  function TierOf(employee: bool, points: int): (t: MembershipType)
    ensures employee <==> t == Employee
    ensures !employee ==>
      (t == Gold <==> points >= THRESHOLD_FOR_GOLD_MEMBERSHIP) &&
      (t == Silver <==> THRESHOLD_FOR_SILVER_MEMBERSHIP <= points < THRESHOLD_FOR_GOLD_MEMBERSHIP) &&
      (t == Bronze <==> points < THRESHOLD_FOR_SILVER_MEMBERSHIP)
  {
    if employee then Employee
    else if points >= THRESHOLD_FOR_GOLD_MEMBERSHIP then Gold
    else if points >= THRESHOLD_FOR_SILVER_MEMBERSHIP then Silver
    else Bronze
  }

  /** For someone who is not an employee, more points never give a lower tier. */
  lemma TierMonotone(p: int, q: int)
    requires p <= q
    ensures TierOf(false, p).GetDiscountPercentage() <= TierOf(false, q).GetDiscountPercentage()
  {
  }

  /**
   * The points after `adjustMemberPoints(d)`, or None where it throws.
   * Java's `+=` on a `long` wraps past `Long.MAX_VALUE`.
   */
  function AdjustedPoints(points: Int64, d: Int64): (r: Option<Int64>)
    ensures r.Some? <==> d >= 0
    ensures r.Some? && InLong(points + d) ==> r.value == points + d && r.value >= points
  {
    if d < 0 then None else Some(Wrap64(points + d))
  }

  /** A calendar date, which the model only stores. */
  datatype Date = Date(year: int, month: int, day: int)

  /**
   * What `validateCustomerAge` concludes from the birth date in the social
   * security number and today's date: 18 or older, younger, or a birth date
   * that does not parse (a ParseException, which the constructor swallows).
   */
  datatype AgeCheck = Adult | Minor | Unparsable

  /**
   * Why an operation threw: the constructor's IllegalStateException for a
   * customer under 18, or `adjustMemberPoints`' IllegalArgumentException
   * for a negative adjustment.
   */
  datatype MembershipError = Underage | NegativePoints

  class Membership<C> {
    const customer: C
    const startDate: Date
    var membershipType: MembershipType
    var memberPoints: Int64
    var employee: bool

    /** The tier is always the one the points and the employment status determine. */
    ghost predicate Valid()
      reads this
    {
      membershipType == TierOf(employee, memberPoints)
    }

    /** The constructor past the age check; `NewMembership` models the check. */
    constructor (customer: C, startDate: Date, initialPoints: Int64, employee: bool)
      ensures Valid()
      ensures this.customer == customer && this.startDate == startDate
      ensures memberPoints == initialPoints && this.employee == employee
    {
      this.customer := customer;
      this.startDate := startDate;
      memberPoints := initialPoints;
      this.employee := employee;
      new;
      DetermineMembershipType();
    }

    /** `determineMembershipType`: the if-chain that sets the tier. */
    method DetermineMembershipType()
      modifies this`membershipType
      ensures Valid()
    {
      if employee {
        membershipType := Employee;
      } else if memberPoints >= THRESHOLD_FOR_GOLD_MEMBERSHIP {
        membershipType := Gold;
      } else if memberPoints >= THRESHOLD_FOR_SILVER_MEMBERSHIP {
        membershipType := Silver;
      } else {
        membershipType := Bronze;
      }
    }

    /**
     * `adjustMemberPoints`: negative adjustments throw and change nothing;
     * otherwise the points grow by `d` and the tier follows.
     */
    method AdjustMemberPoints(d: Int64) returns (r: Outcome<MembershipError>)
      requires Valid()
      modifies this`memberPoints, this`membershipType
      ensures Valid()
      ensures AdjustedPoints(old(memberPoints), d).None? ==>
                r == Fail(NegativePoints) && memberPoints == old(memberPoints) &&
                membershipType == old(membershipType)
      ensures AdjustedPoints(old(memberPoints), d).Some? ==>
                r == Pass && memberPoints == AdjustedPoints(old(memberPoints), d).value
    {
      if d < 0 {
        return Fail(NegativePoints);
      }
      memberPoints := Wrap64(memberPoints + d);
      DetermineMembershipType();
      return Pass;
    }

    /** `setEmploymentStatus`: the new status, and the tier it determines with the points. */
    method SetEmploymentStatus(isEmployed: bool)
      modifies this`employee, this`membershipType
      ensures Valid()
      ensures employee == isEmployed && memberPoints == old(memberPoints)
    {
      employee := isEmployed;
      DetermineMembershipType();
    }

    function IsAnEmployee(): (r: bool)
      reads this
    {
      employee
    }

    function GetCustomer(): (r: C)
    {
      customer
    }

    function GetStartDate(): (r: Date)
    {
      startDate
    }

    /** The current tier, which is the one the points and the employment status determine. */
    function GetMembershipType(): (r: MembershipType)
      reads this
      ensures Valid() ==> r == TierOf(employee, memberPoints)
    {
      membershipType
    }

    function GetMemberPoints(): (r: Int64)
      reads this
    {
      memberPoints
    }

    /** `getDiscountRate`: the percentage of the current tier, which the points and status fix. */
    function GetDiscountRate(): (p: int)
      reads this
      requires Valid()
      ensures p == TierOf(employee, memberPoints).GetDiscountPercentage()
      ensures 0 <= p <= 15
    {
      membershipType.GetDiscountPercentage()
    }
  }

  /**
   * `new Membership(...)`: fails for a customer under 18. A birth date that
   * does not parse is reported and swallowed, so the membership is made.
   */
  method NewMembership<C>(customer: C, startDate: Date, initialPoints: Int64, employee: bool, age: AgeCheck)
    returns (r: Result<Membership<C>, MembershipError>)
    ensures r.Failure? <==> age == Minor
    ensures r.Failure? ==> r.error == Underage
    ensures r.Success? ==>
              fresh(r.value) && r.value.Valid() &&
              r.value.customer == customer && r.value.startDate == startDate &&
              r.value.memberPoints == initialPoints && r.value.employee == employee
  {
    if age == Minor {
      return Failure(Underage);
    }
    var m := new Membership(customer, startDate, initialPoints, employee);
    return Success(m);
  }

  // ------------------------------------------------------------ properties

  /** A non-employee's tier never drops when points are added. */
  lemma AdjustNeverDemotes(points: Int64, d: Int64)
    requires d >= 0 && InLong(points + d)
    ensures AdjustedPoints(points, d).Some?
    ensures TierOf(false, points).GetDiscountPercentage() <=
            TierOf(false, AdjustedPoints(points, d).value).GetDiscountPercentage()
  {
    TierMonotone(points, AdjustedPoints(points, d).value);
  }

  /**
   * The thresholds at work: 1,000,000 points is BRONZE and 1,500,000 more
   * reach SILVER; 2,500,000 gives 5%, 10,000,000 gives 10%, and an employee
   * with no points gets 15% until no longer employed, then BRONZE.
   */
  lemma TierExamples()
    ensures TierOf(false, 10_000_00) == Bronze
    ensures AdjustedPoints(10_000_00, 15_000_00) == Some(25_000_00) && TierOf(false, 25_000_00) == Silver
    ensures TierOf(false, 25_000_00).GetDiscountPercentage() == 5
    ensures TierOf(false, 100_000_00).GetDiscountPercentage() == 10
    ensures TierOf(true, 0).GetDiscountPercentage() == 15 && TierOf(false, 0) == Bronze
  {
  }
}
