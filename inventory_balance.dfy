/**
 * The stock on hand: products filed under their hash code, with lookup of
 * the count and adjustment of it. Also the decoding of one comma-separated
 * row into a product, which `InventoryBalance.java` and `InventoryLoader.java`
 * carry identical copies of.
 */
module InventoryBalances {
  import opened JavaInt
  import opened Wrappers
  import opened VatRates
  import opened Products
  import JavaText

  // ------------------------------------------------------- row decoding

  /** `readVatFromString`: the three named categories, and NO_TAX for anything else. */
  function ReadVatFromString(s: string): (v: Vat)
    ensures s == "VAT.STANDARD" ==> v == Standard
    ensures s == "VAT.FOOD" ==> v == Food
    ensures s == "VAT.REDUCED" ==> v == Reduced
    ensures s != "VAT.STANDARD" && s != "VAT.FOOD" && s != "VAT.REDUCED" ==> v == NoTax
  {
    if s == "VAT.STANDARD" then Standard
    else if s == "VAT.FOOD" then Food
    else if s == "VAT.REDUCED" then Reduced
    else NoTax
  }

  /** Why a row did not give a product. */
  datatype RowError =
    | MissingField      // ArrayIndexOutOfBoundsException: fewer fields than read
    | NotANumber        // NumberFormatException from Integer.parseInt
    | Rejected(reason: BuildError)  // IllegalArgumentException from build

  /**
   * The builder fields `createProductFromString` sets from the fields of a
   * row (brand, product name, price, VAT name, amount, discount), failing
   * where Java's reads would throw, in the order Java reads them.
   */
  function DecodeRow(values: seq<string>): (r: Result<BuilderFields, RowError>)
    ensures r.Success? <==>
      |values| >= 6 && JavaText.ParseInt(values[2]).Some? &&
      JavaText.ParseInt(values[4]).Some? && JavaText.ParseInt(values[5]).Some?
    ensures r.Success? ==>
      var d := JavaText.ParseInt(values[5]).value;
      r.value == BuilderFields(values[0], values[1], JavaText.ParseInt(values[2]).value,
                               Some(ReadVatFromString(values[3])),
                               JavaText.ParseInt(values[4]).value, d, d > 0)
  {
    if |values| < 3 then Failure(MissingField)
    else match JavaText.ParseInt(values[2])
      case None => Failure(NotANumber)
      case Some(price) =>
        if |values| < 5 then Failure(MissingField)
        else match JavaText.ParseInt(values[4])
          case None => Failure(NotANumber)
          case Some(amount) =>
            if |values| < 6 then Failure(MissingField)
            else match JavaText.ParseInt(values[5])
              case None => Failure(NotANumber)
              case Some(discount) =>
                Success(BuilderFields(values[0], values[1], price, Some(ReadVatFromString(values[3])),
                                      amount, discount, discount > 0))
  }

  /**
   * The product a row's fields make, or why none: a field missing, a number
   * that does not parse, or a price, amount or discount the builder rejects.
   * An unrecognised VAT name is not an error.
   */
  function ProductFromValues(values: seq<string>): (r: Result<ProductState, RowError>)
    ensures r.Success? <==>
      DecodeRow(values).Success? &&
      DecodeRow(values).value.price > 0 && DecodeRow(values).value.amount > 0 &&
      DecodeRow(values).value.discount >= 0
    ensures r.Success? ==>
      ValidState(r.value) && r.value.brand == values[0] && r.value.name == values[1] &&
      r.value.vat == ReadVatFromString(values[3]) &&
      Some(r.value.price) == JavaText.ParseInt(values[2]) &&
      Some(r.value.amount) == JavaText.ParseInt(values[4]) &&
      Some(r.value.discount) == JavaText.ParseInt(values[5])
  {
    match DecodeRow(values)
    case Failure(e) => Failure(e)
    case Success(b) =>
      match BuildSpec(b)
      case Failure(e) => Failure(Rejected(e))
      case Success(s) => Success(s)
  }

  /** The product one line of the file makes, split on commas as `line.split(",")` does. */
  function ProductFromLine(line: string): (r: Result<ProductState, RowError>)
  {
    ProductFromValues(JavaText.JavaSplit(line, ','))
  }

  /**
   * `createProductFromString`: runs the product builder on a row's fields,
   * giving a fresh product or the reason the row fails.
   */
  method CreateProductFromString(values: seq<string>) returns (r: Result<Product, RowError>)
    ensures r.Success? <==> ProductFromValues(values).Success?
    ensures r.Failure? ==> r.error == ProductFromValues(values).error
    ensures r.Success? ==>
              fresh(r.value) && r.value.Valid() && r.value.HashMatches() &&
              r.value.State() == ProductFromValues(values).value
  {
    match DecodeRow(values)
    case Failure(e) =>
      r := Failure(e);
    case Success(f) =>
      var b := new ProductBuilder(f.brand, f.name);
      var _ := b.SetPrice(f.price);
      var _ := b.SetVatRate(f.vat);
      var _ := b.SetAmount(f.amount);
      var _ := b.SetDiscount(f.discount);
      assert b.Fields() == f;
      var built := b.Build();
      match built
      case Failure(e) =>
        r := Failure(Rejected(e));
      case Success(p) =>
        r := Success(p);
  }

  // ------------------------------------------------------------ stock

  /** Why a count lookup or adjustment failed. */
  datatype StockError =
    | NotInInventory    // NullPointerException: nothing filed under the product's hash
    | InvalidAmount     // IllegalArgumentException from setAmount

  class InventoryBalance {
    var inventory: map<Int32, Product>

    /** Each product is filed under its own hash code, and is itself valid. */
    ghost predicate Valid()
      reads this, inventory.Values
    {
      forall k :: k in inventory ==> inventory[k].HashCode() == k && inventory[k].Valid()
    }

    /** What the inventory holds, as values. */
    ghost function Contents(): (r: map<Int32, ProductState>)
      reads this, inventory.Values
    {
      map k | k in inventory :: inventory[k].State()
    }

    /** A new inventory holds no products. */
    constructor ()
      ensures Valid() && inventory == map[]
    {
      inventory := map[];
    }

    /**
     * The `File` constructor: skips the header line and decodes the rows up to
     * the first failing one, but never adds what it decodes, so the inventory
     * stays empty.
     */
    constructor FromLines(lines: seq<string>)
      ensures Valid() && inventory == map[]
    {
      inventory := map[];
      new;
      var i := 1;
      while i < |lines|
        invariant inventory == map[]
        decreases |lines| - i
      {
        var r := CreateProductFromString(JavaText.JavaSplit(lines[i], ','));
        if r.Failure? {
          break;
        }
        i := i + 1;
      }
    }

    /**
     * `addProduct`: files `p` under its hash code, replacing whatever product
     * was filed there, whether equal to `p` or only sharing its hash.
     */
    method AddProduct(p: Product)
      requires Valid() && p.Valid()
      modifies this
      ensures Valid()
      ensures inventory == old(inventory)[p.HashCode() := p]
      ensures Contents() == old(Contents())[p.HashCode() := p.State()]
    {
      var k := p.HashCode();
      ghost var before := Contents();
      inventory := inventory[k := p];
      assert Contents().Keys == before[k := p.State()].Keys;
    }

    /** `get`: the product filed under `p`'s hash code, or null. */
    function Get(p: Product): (r: Product?)
      reads this
      ensures r == null <==> p.HashCode() !in inventory
      ensures r != null ==> r == inventory[p.HashCode()]
    {
      if p.HashCode() in inventory then inventory[p.HashCode()] else null
    }

    /** `getCount`: the amount of the product filed under `p`'s hash code. */
    method GetCount(p: Product) returns (r: Result<Int32, StockError>)
      requires Valid()
      ensures p.HashCode() !in inventory ==> r == Failure(NotInInventory)
      ensures p.HashCode() in inventory ==>
                r == Success(Contents()[p.HashCode()].amount) && r.value >= 0
    {
      var q := Get(p);
      if q == null {
        return Failure(NotInInventory);
      }
      return Success(q.amount);
    }

    /**
     * `updateCount`: adds `d` to the amount of the product filed under `p`'s
     * hash code. A sum below 0, or past `Integer.MAX_VALUE` where Java wraps
     * it negative, is rejected with nothing changed. No key is added or
     * removed and no other product changes.
     */
    method UpdateCount(p: Product, d: Int32) returns (r: Outcome<StockError>)
      requires Valid()
      modifies if p.HashCode() in inventory then {inventory[p.HashCode()]} else {}
      ensures Valid() && inventory == old(inventory)
      ensures p.HashCode() !in inventory ==> r == Fail(NotInInventory) && Contents() == old(Contents())
      ensures p.HashCode() in inventory ==>
                var k := p.HashCode();
                var before := old(Contents())[k];
                if 0 <= before.amount + d <= INT_MAX then
                  r == Pass && Contents() == old(Contents())[k := before.(amount := before.amount + d)]
                else
                  r == Fail(InvalidAmount) && Contents() == old(Contents())
    {
      var k := p.HashCode();
      if k !in inventory {
        return Fail(NotInInventory);
      }
      var q := inventory[k];
      ghost var before := Contents();
      var previousAmount := q.amount;
      if previousAmount + d > INT_MAX {
        Wrap32Overflow(previousAmount + d);
      }
      var ok := q.SetAmount(Wrap32(previousAmount + d));
      ghost var expected := if ok then before[k := before[k].(amount := previousAmount + d)] else before;
      assert Contents() == expected by {
        forall j | j in inventory
          ensures Contents()[j] == expected[j]
        {
          if j != k {
            assert inventory[j].HashCode() == j;
          }
        }
        assert Contents().Keys == expected.Keys;
      }
      if ok {
        return Pass;
      } else {
        return Fail(InvalidAmount);
      }
    }
  }

  /** After `addProduct(p)`, `getCount(p)` gives `p`'s amount. */
  method AddThenCount(ib: InventoryBalance, p: Product) returns (r: Result<Int32, StockError>)
    requires ib.Valid() && p.Valid()
    modifies ib
    ensures r == Success(p.amount)
  {
    ib.AddProduct(p);
    r := ib.GetCount(p);
  }
}
