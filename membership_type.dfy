/** The membership tiers and the discount each gives. */
module MembershipTypes {

  datatype MembershipType = Employee | Gold | Silver | Bronze
  {
    /** The percentage off a purchase the tier gives. */
    function GetDiscountPercentage(): (p: int)
      ensures 0 <= p <= 15
    {
      match this
      case Employee => 15
      case Gold => 10
      case Silver => 5
      case Bronze => 0
    }

    function ToString(): (r: string)
    {
      match this
      case Employee => "Employee"
      case Gold => "Gold"
      case Silver => "Silver"
      case Bronze => "Bronze"
    }
  }

  /** The discount table and the names the tiers print as. */
  lemma DocumentedTiers()
    ensures Employee.GetDiscountPercentage() == 15 && Employee.ToString() == "Employee"
    ensures Gold.GetDiscountPercentage() == 10 && Gold.ToString() == "Gold"
    ensures Silver.GetDiscountPercentage() == 5 && Silver.ToString() == "Silver"
    ensures Bronze.GetDiscountPercentage() == 0 && Bronze.ToString() == "Bronze"
  {
  }

  /** The higher the tier, the larger the discount; so the discount tells the tier. */
  lemma DiscountsStrictlyOrdered(a: MembershipType, b: MembershipType)
    ensures Employee.GetDiscountPercentage() > Gold.GetDiscountPercentage() >
            Silver.GetDiscountPercentage() > Bronze.GetDiscountPercentage()
    ensures a.GetDiscountPercentage() == b.GetDiscountPercentage() ==> a == b
  {
  }

  /** No two tiers print alike. */
  lemma ToStringInjective(a: MembershipType, b: MembershipType)
    ensures a.ToString() == b.ToString() ==> a == b
  {
  }
}
