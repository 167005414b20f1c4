/**
 * The price arithmetic of a product, in minor units (öre). Every step is
 * Java `int` arithmetic: products and differences wrap around, and division
 * by 100 truncates toward zero.
 */
module Pricing {
  import opened JavaInt
  import opened VatRates

  /** `getPriceWithVat`: the price with its VAT percentage added. */
  function PriceWithVat(price: Int32, vat: Vat): (r: Int32)
  {
    Div100(Wrap32(price * (Rate(vat) + 100)))
  }

  /** `getVatAmountOfPrice`: the part of the price with VAT that is VAT. */
  function VatAmount(price: Int32, vat: Vat): (r: Int32)
  {
    Wrap32(PriceWithVat(price, vat) - price)
  }

  /** `getPriceWithVatAndDiscount`: the price with VAT, less the discount percentage. */
  function PriceWithVatAndDiscount(price: Int32, vat: Vat, discount: Int32): (r: Int32)
  {
    var fraction := Wrap32(100 - discount);
    Div100(Wrap32(PriceWithVat(price, vat) * fraction))
  }

  /** `getDiscountAmount`: how much the discount takes off the price with VAT. */
  function DiscountAmount(price: Int32, vat: Vat, discount: Int32): (r: Int32)
  {
    Wrap32(PriceWithVat(price, vat) - PriceWithVatAndDiscount(price, vat, discount))
  }

  /** The price with VAT is the exact VAT-inclusive price rounded down, and never below the price. */
  lemma PriceWithVatTruncates(price: Int32, vat: Vat)
    requires 0 <= price && price * (Rate(vat) + 100) <= INT_MAX
    ensures var r := PriceWithVat(price, vat);
      100 * r <= price * (Rate(vat) + 100) < 100 * r + 100 && price <= r
  {
    match vat
    case Standard =>
    case Food =>
    case Reduced =>
    case NoTax =>
  }

  /**
   * The VAT amount is the price with VAT minus the price, never negative, and
   * it is the VAT percentage of the price rounded down.
   */
  lemma VatAmountIsRoundedVat(price: Int32, vat: Vat)
    requires 0 <= price && price * (Rate(vat) + 100) <= INT_MAX
    ensures var a := VatAmount(price, vat);
      a + price == PriceWithVat(price, vat) && 0 <= a &&
      100 * a <= price * Rate(vat) < 100 * a + 100
  {
    PriceWithVatTruncates(price, vat);
    match vat
    case Standard =>
    case Food =>
    case Reduced =>
    case NoTax =>
  }

  /**
   * The discounted price is the exact discounted price truncated toward zero,
   * short of `int` overflow. Up to 100 percent off, that is rounding down
   * and the price is not negative; from 100 percent up, the exact price is
   * not positive, so it is rounded up and the price is not positive either.
   * A non-negative discount never raises the price with VAT, and a
   * non-positive one never lowers it.
   */
  lemma DiscountedPriceTruncates(price: Int32, vat: Vat, discount: Int32)
    requires 0 <= price && price * (Rate(vat) + 100) <= INT_MAX
    requires InInt(100 - discount) && InInt(PriceWithVat(price, vat) * (100 - discount))
    ensures var w, d := PriceWithVat(price, vat), PriceWithVatAndDiscount(price, vat, discount);
      var x := w * (100 - discount);
      (discount <= 100 ==> 100 * d <= x < 100 * d + 100 && 0 <= d) &&
      (discount >= 100 ==> x <= 100 * d < x + 100 && d <= 0) &&
      (discount >= 0 ==> d <= w) &&
      (discount <= 0 ==> w <= d)
  {
    PriceWithVatTruncates(price, vat);
    var w := PriceWithVat(price, vat);
    var x := w * (100 - discount);
    assert Wrap32(100 - discount) == 100 - discount;
    assert Wrap32(x) == x;
    var d := Div100(x);
    assert PriceWithVatAndDiscount(price, vat, discount) == d;
    if discount <= 100 {
      MulSigns(w, 100 - discount);
    } else {
      MulSigns(w, discount - 100);
      assert x == -(w * (discount - 100));
    }
    if discount >= 0 {
      assert x <= 100 * w by {
        MulBounds(w, 100 - discount, 100);
      }
    } else {
      assert x >= 100 * w by {
        MulBounds(w, 100, 100 - discount);
      }
    }
  }

  /**
   * The discount amount and the discounted price add up to the price with
   * VAT, whatever the discount, as long as their difference fits in an `int`.
   */
  lemma DiscountAmountCompletesPrice(price: Int32, vat: Vat, discount: Int32)
    requires InInt(PriceWithVat(price, vat) - PriceWithVatAndDiscount(price, vat, discount))
    ensures DiscountAmount(price, vat, discount) + PriceWithVatAndDiscount(price, vat, discount) ==
            PriceWithVat(price, vat)
  {
  }

  /**
   * The discount amount is the discount percentage of the price with VAT,
   * rounded up for discounts up to 100 percent and rounded down from 100
   * percent, short of `int` overflow.
   */
  lemma DiscountAmountRounding(price: Int32, vat: Vat, discount: Int32)
    requires 0 <= price && price * (Rate(vat) + 100) <= INT_MAX
    requires InInt(100 - discount) && InInt(PriceWithVat(price, vat) * (100 - discount))
    requires InInt(PriceWithVat(price, vat) - PriceWithVatAndDiscount(price, vat, discount))
    ensures var w, a := PriceWithVat(price, vat), DiscountAmount(price, vat, discount);
      (discount <= 100 ==> w * discount <= 100 * a < w * discount + 100) &&
      (discount >= 100 ==> w * discount - 100 < 100 * a <= w * discount)
  {
    DiscountedPriceTruncates(price, vat, discount);
    DiscountAmountCompletesPrice(price, vat, discount);
    var w := PriceWithVat(price, vat);
    assert w * (100 - discount) == 100 * w - w * discount;
  }

  /** Multiplying by a non-negative `a` keeps `b <= c` in order. */
  lemma MulBounds(a: nat, b: int, c: int)
    requires b <= c
    ensures a * b <= a * c
  {
  }

  /** A product of two non-negative numbers is non-negative. */
  lemma MulSigns(a: nat, b: nat)
    ensures a * b >= 0
  {
  }

  /** The figures in the documentation comments and the tests. */
  lemma DocumentedPrices()
    ensures PriceWithVat(2000, Food) == 2240
    ensures VatAmount(2000, Food) == 240
    ensures PriceWithVatAndDiscount(2000, Food, 10) == 2016
    ensures DiscountAmount(2000, Food, 10) == 224
    ensures PriceWithVat(2000_00, Food) == 2240_00
    ensures PriceWithVat(2000_00, Standard) == 2500_00
    ensures PriceWithVatAndDiscount(2000_00, Food, 10) == 2016_00
  {
  }
}

/**
 * Products and the builder that creates them. A product's brand, name, price
 * and VAT category never change once built; its stock amount and discount do.
 */
module Products {
  import opened JavaInt
  import opened Wrappers
  import opened VatRates
  import Pricing
  import JavaText

  /** Everything a product holds, as a value. */
  datatype ProductState = ProductState(
    brand: string, name: string, price: Int32, vat: Vat,
    amount: Int32, discount: Int32, hasDiscount: bool)

  /** What every product satisfies from the moment it is built. */
  predicate ValidState(s: ProductState)
  {
    s.price > 0 && s.amount >= 0 && s.hasDiscount == (s.discount > 0)
  }

  /** The builder's fields; `vat` is None while `setVatRate` has not been called (Java's null). */
  datatype BuilderFields = BuilderFields(
    brand: string, name: string, price: Int32, vat: Option<Vat>,
    amount: Int32, discount: Int32, hasDiscount: bool)

  /** Why `build` threw, in the order the checks are made. */
  datatype BuildError = PriceInvalid | AmountInvalid | VatMissing | DiscountInvalid

  /**
   * What `build` makes of the builder's fields: the first failing check, or a
   * product with every field copied unchanged.
   */
  function BuildSpec(b: BuilderFields): (r: Result<ProductState, BuildError>)
    ensures r.Success? <==> b.price > 0 && b.amount > 0 && b.vat.Some? && b.discount >= 0
    ensures r.Success? ==> r.value == ProductState(
      b.brand, b.name, b.price, b.vat.value, b.amount, b.discount, b.hasDiscount)
    ensures r == Failure(PriceInvalid) <==> b.price <= 0
    ensures r == Failure(AmountInvalid) <==> b.price > 0 && b.amount <= 0
    ensures r == Failure(VatMissing) <==> b.price > 0 && b.amount > 0 && b.vat.None?
    ensures r == Failure(DiscountInvalid) <==>
      b.price > 0 && b.amount > 0 && b.vat.Some? && b.discount < 0
  {
    if b.price <= 0 then Failure(PriceInvalid)
    else if b.amount <= 0 then Failure(AmountInvalid)
    else if b.vat.None? then Failure(VatMissing)
    else if b.discount < 0 then Failure(DiscountInvalid)
    else Success(ProductState(b.brand, b.name, b.price, b.vat.value, b.amount, b.discount, b.hasDiscount))
  }

  /** A builder whose discount flag follows its discount builds a valid product. */
  lemma BuiltProductIsValid(b: BuilderFields)
    requires b.hasDiscount == (b.discount > 0)
    requires BuildSpec(b).Success?
    ensures ValidState(BuildSpec(b).value)
    ensures BuildSpec(b).value.hasDiscount == (BuildSpec(b).value.discount > 0)
  {
  }

  /** The key a product is filed under in a `HashMap`: `Objects.hash(brandName, productName)`. */
  function HashOf(brand: string, name: string): (r: Int32)
  {
    JavaText.ObjectsHash([brand, name])
  }

  class Product {
    const brandName: string
    const productName: string
    const price: Int32
    const vatRate: Vat
    var amount: Int32
    var discount: Int32
    var hasDiscount: bool
    /** The value `hashCode()` computes; brand and product name never change, so neither does it. */
    const hash: Int32

    function State(): (r: ProductState)
      reads this
    {
      ProductState(brandName, productName, price, vatRate, amount, discount, hasDiscount)
    }

    ghost predicate Valid()
      reads this
    {
      ValidState(State())
    }

    /** `hash` is `Objects.hash(brandName, productName)`, as fixed at construction. */
    ghost predicate HashMatches()
    {
      hash == HashOf(brandName, productName)
    }

    /** The private constructor, which copies the builder's fields. */
    constructor (s: ProductState)
      ensures State() == s && HashMatches()
    {
      brandName, productName, price, vatRate := s.brand, s.name, s.price, s.vat;
      amount, discount, hasDiscount := s.amount, s.discount, s.hasDiscount;
      hash := HashOf(s.brand, s.name);
    }

    function PriceWithVat(): (r: Int32)
    {
      Pricing.PriceWithVat(price, vatRate)
    }

    function VatAmountOfPrice(): (r: Int32)
    {
      Pricing.VatAmount(price, vatRate)
    }

    function PriceWithVatAndDiscount(): (r: Int32)
      reads this
    {
      Pricing.PriceWithVatAndDiscount(price, vatRate, discount)
    }

    function DiscountAmount(): (r: Int32)
      reads this
    {
      Pricing.DiscountAmount(price, vatRate, discount)
    }

    /** `setDiscount` accepts any value, negative ones included, and keeps the flag in step. */
    method SetDiscount(d: Int32)
      requires Valid()
      modifies this`discount, this`hasDiscount
      ensures Valid()
      ensures discount == d && hasDiscount == (d > 0)
    {
      discount := d;
      hasDiscount := d > 0;
    }

    /** `setAmount`: a negative amount throws (`ok` false) and leaves the amount as it was. */
    method SetAmount(n: Int32) returns (ok: bool)
      requires Valid()
      modifies this`amount
      ensures Valid()
      ensures ok == (n >= 0)
      ensures amount == (if ok then n else old(amount))
    {
      if n < 0 {
        return false;
      }
      amount := n;
      return true;
    }

    /**
     * `increment`: one more in stock. At `Integer.MAX_VALUE` the sum wraps to
     * a negative number, which `setAmount` rejects.
     */
    method Increment() returns (ok: bool)
      requires Valid()
      modifies this`amount
      ensures Valid()
      ensures ok == (old(amount) < INT_MAX)
      ensures amount == (if ok then old(amount) + 1 else old(amount))
    {
      ok := SetAmount(Wrap32(amount + 1));
    }

    /** `decrement`: one fewer in stock; at 0 it throws and the amount stays 0. */
    method Decrement() returns (ok: bool)
      requires Valid()
      modifies this`amount
      ensures Valid()
      ensures ok == (old(amount) > 0)
      ensures amount == (if ok then old(amount) - 1 else old(amount))
    {
      ok := SetAmount(Wrap32(amount - 1));
    }

    /** Products are equal when brand and product name are. */
    predicate Equals(other: Product)
    {
      other.brandName == brandName && other.productName == productName
    }

    /** `hashCode`: the cached hash, which `HashMatches` ties to brand and product name. */
    function HashCode(): (r: Int32)
    {
      hash
    }
  }

  /** Equal products hash alike, as a `HashMap` key must. */
  lemma EqualProductsHashAlike(p: Product, q: Product)
    requires p.HashMatches() && q.HashMatches() && p.Equals(q)
    ensures p.HashCode() == q.HashCode()
    ensures q.Equals(p)
  {
  }

  class ProductBuilder {
    const brandName: string
    const productName: string
    var price: Int32
    var vatRate: Option<Vat>
    var amount: Int32
    var discount: Int32
    var hasDiscount: bool

    function Fields(): (r: BuilderFields)
      reads this
    {
      BuilderFields(brandName, productName, price, vatRate, amount, discount, hasDiscount)
    }

    /** The discount flag always follows the discount. */
    ghost predicate Valid()
      reads this
    {
      hasDiscount == (discount > 0)
    }

    /** Unset numbers are Java's default 0, the VAT is null and there is no discount. */
    constructor (brand: string, name: string)
      ensures Valid()
      ensures Fields() == BuilderFields(brand, name, 0, None, 0, 0, false)
    {
      brandName, productName := brand, name;
      price, vatRate, amount, discount, hasDiscount := 0, None, 0, 0, false;
    }

    method SetPrice(p: Int32) returns (self: ProductBuilder)
      requires Valid()
      modifies this
      ensures Valid() && self == this
      ensures Fields() == old(Fields()).(price := p)
    {
      price := p;
      return this;
    }

    method SetVatRate(v: Option<Vat>) returns (self: ProductBuilder)
      requires Valid()
      modifies this
      ensures Valid() && self == this
      ensures Fields() == old(Fields()).(vat := v)
    {
      vatRate := v;
      return this;
    }

    method SetAmount(a: Int32) returns (self: ProductBuilder)
      requires Valid()
      modifies this
      ensures Valid() && self == this
      ensures Fields() == old(Fields()).(amount := a)
    {
      amount := a;
      return this;
    }

    method SetDiscount(d: Int32) returns (self: ProductBuilder)
      requires Valid()
      modifies this
      ensures Valid() && self == this
      ensures Fields() == old(Fields()).(discount := d, hasDiscount := d > 0)
    {
      discount := d;
      hasDiscount := d > 0;
      return this;
    }

    /**
     * `build`/`validateProduct`: a fresh, valid product carrying the builder's
     * fields, or the first check that failed.
     */
    method Build() returns (r: Result<Product, BuildError>)
      requires Valid()
      ensures BuildSpec(Fields()).Success? <==> r.Success?
      ensures r.Failure? ==> r.error == BuildSpec(Fields()).error
      ensures r.Success? ==>
                fresh(r.value) && r.value.Valid() && r.value.HashMatches() &&
                r.value.State() == BuildSpec(Fields()).value
    {
      match BuildSpec(Fields())
      case Failure(e) =>
        r := Failure(e);
      case Success(s) =>
        var p := new Product(s);
        r := Success(p);
    }
  }

  /**
   * A product built without calling `setDiscount` has discount 0 and no
   * discount flag, whatever else was set.
   */
  method BuildWithoutDiscount(brand: string, name: string, price: Int32, amount: Int32, vat: Vat)
    returns (r: Result<Product, BuildError>)
    ensures r.Success? <==> price > 0 && amount > 0
    ensures r.Success? ==>
              r.value.discount == 0 && !r.value.hasDiscount &&
              r.value.brandName == brand && r.value.productName == name &&
              r.value.price == price && r.value.amount == amount && r.value.vatRate == vat
  {
    var b := new ProductBuilder(brand, name);
    var _ := b.SetPrice(price);
    var _ := b.SetAmount(amount);
    var _ := b.SetVatRate(Some(vat));
    r := b.Build();
  }
}
