# Point-of-sale core in Dafny

A model of the core of a small Java point-of-sale system for a Swedish
store. All money is counted in öre, the minor unit.

The model covers:

- products with their VAT category, price arithmetic, stock amount and
  discount, and the builder that validates them;
- the inventory, a hash map from `Objects.hash(brand, name)` to products;
- loading the inventory from the lines of a comma-separated file;
- purchases: scanned items and a running total;
- `Money` (a `long` balance with guarded add and subtract) and `CashMoney`
  (the eleven Swedish coins and bills);
- membership tiers and their discounts;
- customers: their validating builder, their optional fields and joining
  or leaving a membership.

Java's semantics are written out where they matter:

- `int` and `long` arithmetic wraps around (`JavaInt.Wrap32`, `JavaInt.Wrap64`).
- Division truncates toward zero (`JavaInt.Div100`).
- `String.length()` counts UTF-16 code units (`JavaText.Length`).
- `String.hashCode()` and `Objects.hash` are computed exactly (`JavaText.ObjectsHash`).
- `split(",")` drops trailing empty fields (`JavaText.JavaSplit`).
- `Integer.parseInt` rejects out-of-range values (`JavaText.ParseInt`).
- Exceptions become `Result`, `Outcome` or `Option` values, and a call that
  throws leaves the object unchanged.

Objects whose fields the Java code updates are Dafny classes:

- `Product`, `ProductBuilder`
- `InventoryBalance`
- `Purchase`
- `Money`
- `Membership`
- `Customer`, `CustomerBuilder`

Each method states its whole new state against a specification function on
values, and lemmas prove the properties of those functions.

Where the repository's tests and its code disagree, the model follows the code:

- `TestProduct` expects `setDiscount(-10)` to throw. `Product.setDiscount`
  accepts any value (`Products.Product.SetDiscount`).
- `TestCashMoney` expects a 1000-öre coin to print as "100kr". `toString`
  divides by 100 and prints "10kr" (`CashMonies.ToStringExamples`).

Where a doc comment and the code disagree, the model also follows the code:

- The doc comment of `createSingleProductFromTextFile` says it returns the
  first valid line's product. The code reads only the line after the header:
  it returns that line's product, or null when the line is missing or makes
  no product (`InventoryLoader.CreateSingleProductFromLines`).

The `InventoryBalance(File)` constructor decodes the rows of the file but
never adds them, so its inventory stays empty. The model keeps this
(`InventoryBalances.InventoryBalance.FromLines`). Only
`InventoryLoader.createInventoryBalanceFromTextFile` fills an inventory.

The files, one module per Java class plus three support modules:

| file | models |
|---|---|
| `wrappers.dfy` | `Option`, `Result`, `Outcome` |
| `java_int.dfy` | Java `int`/`long` ranges, wrap-around, truncating division |
| `java_text.dfy` | `String.length`, `hashCode`, `Objects.hash`, `split`, `Integer.parseInt`, decimal rendering |
| `vat.dfy` | `VAT.java` |
| `product.dfy` | `Product.java` (modules `Pricing` and `Products`) |
| `purchase.dfy` | `Purchase.java` |
| `inventory_balance.dfy` | `InventoryBalance.java` |
| `inventory_loader.dfy` | `InventoryLoader.java` |
| `money.dfy` | `Money.java` |
| `cash_money.dfy` | `CashMoney.java` |
| `membership_type.dfy` | `MembershipType.java` |
| `membership.dfy` | `Membership.java` |
| `customer.dfy` | `Customer.java` |

## Model

| member | source | states |
|---|---|---|
| VatRates.Rate | src/main/java/VAT.java:11-17 | each category's rate is at most 25, and a rate of 0 means exactly NO_TAX |
| VatRates.DocumentedRates | src/main/java/VAT.java:1-11 | the documented 25, 12 and 6 percent rates, and 0 for NO_TAX |
| VatRates.RateDeterminesCategory | src/main/java/VAT.java:11 | no two categories share a rate |
| Pricing.PriceWithVatTruncates | src/main/java/Product.java:29-35 | short of overflow, the price with VAT is the exact VAT-inclusive price rounded down, and never below the price |
| Pricing.VatAmountIsRoundedVat | src/main/java/Product.java:37-43 | the VAT amount plus the price is the price with VAT; it is non-negative and is the VAT percentage of the price rounded down |
| Pricing.PriceWithVat | src/main/java/Product.java:29-35 | Java's `price * (rate + 100) / 100` in `int` arithmetic; its meaning is stated by `PriceWithVatTruncates` |
| Pricing.VatAmount | src/main/java/Product.java:37-43 | the price with VAT less the price, in `int` arithmetic; its meaning is stated by `VatAmountIsRoundedVat` |
| Pricing.PriceWithVatAndDiscount | src/main/java/Product.java:53-62 | the price with VAT times `100 - discount`, divided by 100, in `int` arithmetic; its meaning is stated by `DiscountedPriceTruncates` |
| Pricing.DiscountAmount | src/main/java/Product.java:64-71 | the price with VAT less the discounted price; its meaning is stated by `DiscountAmountCompletesPrice` and `DiscountAmountRounding` |
| Pricing.DiscountedPriceTruncates | src/main/java/Product.java:53-62 | short of overflow, for any discount, the discounted price is the exact discounted price truncated toward zero: rounded down and non-negative up to 100 percent, rounded up and non-positive from 100 percent; a non-negative discount never raises the price with VAT and a non-positive one never lowers it |
| Pricing.DiscountAmountCompletesPrice | src/main/java/Product.java:64-71 | for any discount, the discount amount and the discounted price add up to the price with VAT, whenever their difference fits in an `int` |
| Pricing.DiscountAmountRounding | src/main/java/Product.java:64-71 | short of overflow, the discount amount is the discount percentage of the price with VAT, rounded up up to 100 percent and rounded down from 100 percent |
| Pricing.DocumentedPrices | src/main/java/Product.java:29-71 | the figures in the doc comments: 2000 öre with food VAT is 2240, of which 240 is VAT; with 10% off it is 2016, a discount of 224 |
| Products.BuildSpec | src/main/java/Product.java:196-218 | a build succeeds exactly when price > 0, amount > 0, a VAT is set and discount >= 0; otherwise the first failing check, in source order, is reported; on success every field is copied |
| Products.BuiltProductIsValid | src/main/java/Product.java:186-218 | a built product has a positive price, a non-negative amount and a discount flag that follows the discount |
| Products.Product.constructor | src/main/java/Product.java:19-27 | the product holds the builder's fields, and its cached hash is `Objects.hash(brand, name)` |
| Products.Product.SetDiscount | src/main/java/Product.java:77-80 | any discount is stored, negative ones too, and the flag is set exactly when it is positive |
| Products.Product.SetAmount | src/main/java/Product.java:94-102 | a negative amount is rejected and changes nothing; any other amount is stored |
| Products.Product.Increment | src/main/java/Product.java:104-106 | the amount goes up by one, except at `Integer.MAX_VALUE`, where the wrapped sum is rejected and the amount stays |
| Products.Product.Decrement | src/main/java/Product.java:108-110 | the amount goes down by one, except at 0, where the call is rejected and the amount stays |
| Products.Product.PriceWithVat | src/main/java/Product.java:33-35 | `getPriceWithVat`, which is `Pricing.PriceWithVat` of the product's price and VAT |
| Products.Product.VatAmountOfPrice | src/main/java/Product.java:41-43 | `getVatAmountOfPrice`, which is `Pricing.VatAmount` of the product's price and VAT |
| Products.Product.PriceWithVatAndDiscount | src/main/java/Product.java:58-62 | `getPriceWithVatAndDiscount`, which is `Pricing.PriceWithVatAndDiscount` of the product's price, VAT and current discount |
| Products.Product.DiscountAmount | src/main/java/Product.java:69-71 | `getDiscountAmount`, which is `Pricing.DiscountAmount` of the product's price, VAT and current discount |
| Products.Product.Equals | src/main/java/Product.java:126-134 | products are equal when brand and product name are; `EqualProductsHashAlike` ties it to the hash |
| Products.HashOf | src/main/java/Product.java:137-139 | `Objects.hash(brandName, productName)`, computed as Java does; `HashCollision` shows it is not injective |
| Products.Product.HashCode | src/main/java/Product.java:136-139 | the hash fixed at construction, which `HashMatches` ties to `HashOf` of brand and name |
| Products.EqualProductsHashAlike | src/main/java/Product.java:126-139 | equal products have equal hash codes, and equality is symmetric |
| JavaText.HashCollision | src/main/java/Product.java:137-139 | products with brands "Aa" and "BB" and the same name have the same hash code although they differ |
| Products.ProductBuilder.constructor | src/main/java/Product.java:166-169 | a new builder has price, amount and discount 0, no VAT and no discount flag |
| Products.ProductBuilder.SetPrice | src/main/java/Product.java:171-174 | only the price changes, and the builder itself is returned |
| Products.ProductBuilder.SetVatRate | src/main/java/Product.java:176-179 | only the VAT changes, and the builder itself is returned |
| Products.ProductBuilder.SetAmount | src/main/java/Product.java:181-184 | only the amount changes, and the builder itself is returned |
| Products.ProductBuilder.SetDiscount | src/main/java/Product.java:186-190 | only the discount and its flag change, and the builder itself is returned |
| Products.ProductBuilder.Build | src/main/java/Product.java:196-230 | a fresh valid product with the builder's fields when `BuildSpec` succeeds, otherwise its error |
| Products.BuildWithoutDiscount | src/main/java/Product.java:141-145 | a product built without `setDiscount` has discount 0 and no flag, and keeps the other fields it was given |
| Purchases.Scanned | src/main/java/Purchase.java:20-26 | after a scan the item's count is one more, or 1 if it is new; other entries are untouched; counts stay positive |
| Purchases.Removed | src/main/java/Purchase.java:53-58 | after a removal the count is one less, and the entry is gone when it was the last; other entries are untouched; counts stay positive |
| Purchases.RemoveUndoesScan | src/main/java/Purchase.java:20-61 | removing an item just scanned gives back exactly the earlier item map |
| Purchases.RemoveUndoesScanTotal | src/main/java/Purchase.java:34-40 | adding and then subtracting a price gives back the total, even when the `int` overflows in between |
| Purchases.Purchase.constructor | src/main/java/Purchase.java:10-13 | a new purchase has no items and a total of 0 |
| Purchases.Purchase.IncrementTotalPrice | src/main/java/Purchase.java:34-40 | without a discount, the price is added with `int` wrap-around |
| Purchases.Purchase.DecrementPrice | src/main/java/Purchase.java:67-73 | without a discount, the price is subtracted with `int` wrap-around |
| Purchases.Purchase.ScanItem | src/main/java/Purchase.java:20-28 | the item map becomes `Scanned` of the old one and the total takes the price |
| Purchases.Purchase.RemoveScannedItem | src/main/java/Purchase.java:49-61 | an item never scanned is rejected and nothing changes; otherwise the item map becomes `Removed` of the old one, the price comes off and the item is returned |
| Purchases.Purchase.TotalPrice | src/main/java/Purchase.java:75-77 | `getTotalPrice`: the running total |
| Purchases.Purchase.PurchasedItems | src/main/java/Purchase.java:79-81 | `getPurchasedItems`: the item map |
| Purchases.ScanThenRemove | src/main/java/Purchase.java:20-73 | scanning and then removing an undiscounted item leaves the purchase exactly as it was |
| InventoryBalances.ReadVatFromString | src/main/java/InventoryBalance.java:81-88 | the three VAT names give their categories; every other string gives NO_TAX |
| InventoryBalances.DecodeRow | src/main/java/InventoryBalance.java:65-71 | a row decodes exactly when it has six fields and fields 2, 4 and 5 parse as `int`; the decoded fields are those values |
| InventoryBalances.ProductFromValues | src/main/java/InventoryBalance.java:65-79 | a row makes a product exactly when it decodes with price > 0, amount > 0 and discount >= 0; the product is valid and carries the row's values |
| InventoryBalances.CreateProductFromString | src/main/java/InventoryBalance.java:65-79 | the builder chain gives a fresh product equal to `ProductFromValues`, or the same error |
| InventoryBalances.InventoryBalance.constructor | src/main/java/InventoryBalance.java:13-15 | a new inventory is empty |
| InventoryBalances.InventoryBalance.FromLines | src/main/java/InventoryBalance.java:17-58 | reading a file's rows leaves the inventory empty, because they are never added |
| InventoryBalances.InventoryBalance.AddProduct | src/main/java/InventoryBalance.java:22-24 | the product is filed under its hash code, replacing whatever was there, and nothing else changes |
| InventoryBalances.InventoryBalance.Get | src/main/java/InventoryBalance.java:37-39 | the product filed under the hash, or null exactly when there is none |
| InventoryBalances.InventoryBalance.GetCount | src/main/java/InventoryBalance.java:26-28 | the stored product's amount, which is non-negative, or the null-pointer failure when nothing is filed under the hash |
| InventoryBalances.InventoryBalance.UpdateCount | src/main/java/InventoryBalance.java:31-34 | the stored amount grows by `d` when the sum stays within 0 and `Integer.MAX_VALUE`; otherwise the call is rejected and nothing changes; no other product and no key changes |
| InventoryBalances.AddThenCount | src/main/java/InventoryBalance.java:22-28 | after `addProduct(p)`, `getCount(p)` is `p`'s amount |
| InventoryBalances.ProductFromLine | src/main/java/InventoryBalance.java:50-52 | the product one line makes, its fields split on commas; its meaning is stated by `ProductFromValues` and `JavaSplit` |
| JavaText.JavaSplit | src/main/java/InventoryLoader.java:23 | `split(",")` gives the whole line when there is no comma, otherwise the fields with trailing empty ones dropped |
| JavaText.ParseInt | src/main/java/InventoryLoader.java:40-43 | `Integer.parseInt` succeeds exactly on a signed digit string whose value fits an `int` |
| JavaText.ParseIntDecimal | src/main/java/InventoryLoader.java:40-43 | every `int` written in decimal parses back to itself |
| JavaText.JoinSplitAll | src/main/java/InventoryLoader.java:23 | joining the comma-separated fields of a line gives the line back |
| InventoryLoader.LoadRows | src/main/java/InventoryLoader.java:22-29 | the loading loop as a function: each row's product filed under its hash, stopping at the first failing row; its meaning is stated by the lemmas below |
| InventoryLoader.Loaded | src/main/java/InventoryLoader.java:15-31 | the inventory a file's lines load to: the header skipped, then `LoadRows` from an empty map |
| InventoryLoader.LoadRowsKeepsKeys | src/main/java/InventoryLoader.java:22-26 | loading never removes a key; a product is only ever replaced |
| InventoryLoader.LoadRow | src/main/java/InventoryLoader.java:23-25 | one pass of the loop: the line's product is filed under its hash, or, when the line makes none, the inventory is unchanged |
| InventoryLoader.LoadRowsInto | src/main/java/InventoryLoader.java:22-29 | the loop leaves the inventory holding `LoadRows` of the rows from what it held, stopping at the first failing row |
| InventoryLoader.LoadedStopsAt | src/main/java/InventoryLoader.java:22-29 | a load equals that of the lines before its first failing line |
| InventoryLoader.CreateInventoryBalanceFromLines | src/main/java/InventoryLoader.java:15-31 | the inventory holds exactly `Loaded(lines)`: the header is skipped, each row's product is filed under its hash, and the load stops at the first failing row |
| InventoryLoader.CreateSingleProductFromLines | src/main/java/InventoryLoader.java:68-81 | the product of the line after the header, or null exactly when there is no such line or it makes no product |
| InventoryLoader.HeaderOnlyIsEmpty | src/main/java/InventoryLoader.java:19-22 | a file with no row after the header gives an empty inventory |
| InventoryLoader.LoadRowsWellFiled | src/main/java/InventoryLoader.java:22-26 | loading rows keeps every filed product valid and filed under its own hash |
| InventoryLoader.LoadedWellFiled | src/main/java/InventoryLoader.java:15-31 | every product of a loaded inventory is valid and filed under its own hash |
| InventoryLoader.LoadRowsStopsAtFailure | src/main/java/InventoryLoader.java:22-29 | rows after a failing row contribute nothing |
| InventoryLoader.StopsAtFirstFailure | src/main/java/InventoryLoader.java:22-29 | the lines from the first failing row on make no difference, whatever follows it |
| InventoryLoader.LoadRowsAppend | src/main/java/InventoryLoader.java:22-26 | after rows that all load, one more row files its product on top, or adds nothing when it fails |
| InventoryLoader.LastLineWins | src/main/java/InventoryLoader.java:22-26 | a new last line's product replaces the one with the same hash and leaves the others |
| InventoryLoader.RejectedRows | src/main/java/InventoryLoader.java:37-51 | a decoded row with a non-positive price, a non-positive amount or a negative discount is rejected for that reason, in that order |
| Monies.KronorText | src/main/java/Money.java:58-61 | the text ends in "kr", and what comes before it reads back as the whole kronor, truncated |
| Monies.Added | src/main/java/Money.java:38-43 | `add` succeeds exactly for a non-negative amount; short of overflow the balance grows by it |
| Monies.Subtracted | src/main/java/Money.java:27-32 | `subtract` succeeds exactly for an amount from 0 up to the balance; the balance drops by it and stays non-negative |
| Monies.Money.constructor | src/main/java/Money.java:8-13 | the balance is the given non-negative amount |
| Monies.Money.GetAmountInMinorUnit | src/main/java/Money.java:15-17 | the balance in öre |
| Monies.Money.Equals | src/main/java/Money.java:45-51 | two amounts are equal when their minor units are |
| Monies.Money.ToString | src/main/java/Money.java:58-61 | the text ends in "kr", and what comes before it reads back as the balance's whole kronor, truncated |
| Monies.Money.GetCurrency | src/main/java/Money.java:7-21 | the currency is always "SEK" |
| Monies.Money.Subtract | src/main/java/Money.java:27-32 | the balance becomes `Subtracted`, or the call is rejected with the balance unchanged |
| Monies.Money.Add | src/main/java/Money.java:38-43 | the balance becomes `Added`, or the call is rejected with the balance unchanged |
| Monies.NewMoney | src/main/java/Money.java:8-13 | construction fails exactly for a negative amount; otherwise a fresh SEK balance of that amount |
| Monies.RunStaysNonNegative | src/main/java/Money.java:8-43 | any sequence of adds and subtracts, each done or rejected, keeps a non-negative balance non-negative, short of overflow |
| Monies.AddThenSubtract | src/main/java/Money.java:27-43 | adding an amount and then subtracting it gives back the balance |
| Monies.AddOverflows | src/main/java/Money.java:42 | adding 1 to `Long.MAX_VALUE` wraps to `Long.MIN_VALUE` |
| Monies.ToStringExample | src/main/java/Money.java:58-61 | 12345 öre prints as "123kr" |
| CashMonies.NewCashMoney | src/main/java/CashMoney.java:6-21 | a coin or bill is made exactly for the eleven denominations and keeps its value; any other value is rejected |
| CashMonies.CashMoney.GetCashMoneyDenomination | src/main/java/CashMoney.java:23-25 | the value in öre; `NewCashMoney` states it is the value the coin was made from |
| CashMonies.CashMoney.ToString | src/main/java/CashMoney.java:28-31 | the text ends in "kr", and what comes before it reads back as the whole kronor, truncated |
| CashMonies.Equals | src/main/java/CashMoney.java:33-39 | two coins or bills are equal when their values are |
| CashMonies.EqualIffSameDenomination | src/main/java/CashMoney.java:34-39 | two coins or bills are equal exactly when they were made from the same value |
| CashMonies.SevenIsRejected | src/main/java/CashMoney.java:19 | 7 öre is not a denomination |
| CashMonies.ToStringExamples | src/main/java/CashMoney.java:29-31 | 1 öre prints as "0kr" and 1000 öre as "10kr" |
| MembershipTypes.MembershipType.GetDiscountPercentage | src/main/java/MembershipType.java:1-12 | every tier's discount lies between 0 and 15 percent |
| MembershipTypes.DocumentedTiers | src/main/java/MembershipType.java:1-22 | EMPLOYEE 15%, GOLD 10%, SILVER 5% and BRONZE 0%, with their printed names |
| MembershipTypes.DiscountsStrictlyOrdered | src/main/java/MembershipType.java:2 | the discounts fall strictly from EMPLOYEE to BRONZE, so the discount identifies the tier |
| MembershipTypes.MembershipType.ToString | src/main/java/MembershipType.java:14-22 | each tier's printed name; `ToStringInjective` states no two coincide |
| MembershipTypes.ToStringInjective | src/main/java/MembershipType.java:14-22 | no two tiers print alike |
| Memberships.TierOf | src/main/java/Membership.java:86-96 | an employee is EMPLOYEE; anyone else is GOLD, SILVER or BRONZE exactly by the two thresholds |
| Memberships.TierMonotone | src/main/java/Membership.java:86-96 | for a non-employee, more points never give a smaller discount |
| Memberships.AdjustedPoints | src/main/java/Membership.java:39-45 | an adjustment succeeds exactly when it is non-negative; short of overflow the points grow by it |
| Memberships.Membership.constructor | src/main/java/Membership.java:21-32 | the membership stores customer, date, points and status, and its tier is the one they determine |
| Memberships.Membership.DetermineMembershipType | src/main/java/Membership.java:86-96 | the tier becomes `TierOf(employee, points)` |
| Memberships.Membership.AdjustMemberPoints | src/main/java/Membership.java:39-45 | a negative adjustment is rejected and changes nothing; otherwise the points become `AdjustedPoints` and the tier follows |
| Memberships.Membership.SetEmploymentStatus | src/main/java/Membership.java:52-55 | the status changes, the points stay, and the tier follows |
| Memberships.Membership.IsAnEmployee | src/main/java/Membership.java:57-59 | the employment status |
| Memberships.Membership.GetCustomer | src/main/java/Membership.java:61-63 | the customer the membership was made for |
| Memberships.Membership.GetStartDate | src/main/java/Membership.java:65-67 | the start date the membership was made with |
| Memberships.Membership.GetMembershipType | src/main/java/Membership.java:69-71 | the current tier, which is the one the points and the status determine |
| Memberships.Membership.GetMemberPoints | src/main/java/Membership.java:77-79 | the points collected |
| Memberships.Membership.GetDiscountRate | src/main/java/Membership.java:73-75 | the discount of the tier the points and status determine |
| Memberships.NewMembership | src/main/java/Membership.java:21-32 | construction fails exactly for a customer under 18; a birth date that does not parse still gives a membership |
| Memberships.AdjustNeverDemotes | src/main/java/Membership.java:39-45 | a non-employee's discount never drops when points are added |
| Memberships.TierExamples | src/main/java/Membership.java:12-13 | the thresholds at work: 1,000,000 points is BRONZE, 1,500,000 more reach SILVER, 10,000,000 give GOLD, an employee gets 15% |
| Customers.FindIndex | src/main/java/Customer.java:204 | `find` stops at the first character in the class, or fails when there is none |
| Customers.FindIffSome | src/main/java/Customer.java:204-207 | `find` succeeds exactly when some character is in the class |
| Customers.ValidateName | src/main/java/Customer.java:197-210 | a name passes exactly when it is 3 to 150 UTF-16 units long with no digit and no special character other than the dash; too short is reported first |
| Customers.ValidateSSNumber | src/main/java/Customer.java:216-227 | a number passes exactly when it is 10 units long with no ASCII letter and no special character, dash included; a wrong length is reported first |
| Customers.ValidatePhoneNumber | src/main/java/Customer.java:233-249 | a phone number passes exactly when it is absent, or 8 to 10 units long with no letter and no special character |
| Customers.ValidateEmailAddress | src/main/java/Customer.java:255-264 | an e-mail address passes exactly when it is absent or matches the pattern, a final line terminator allowed |
| Customers.EmailShapeOf | src/main/java/Customer.java:260 | with a non-empty local part of allowed characters, the address matches exactly when every dot-separated part of the domain is a label |
| Customers.TwoLabelEmail | src/main/java/Customer.java:260 | `local@host.tld` matches exactly when host and top-level domain are both labels |
| Customers.EmptyLocalPartRejected | src/main/java/Customer.java:260 | an address starting with `@` does not match |
| Customers.EmptyDomainRejected | src/main/java/Customer.java:260 | an address ending right after the `@` does not match |
| Customers.EmailWithTrailingNewlineAccepted | src/main/java/Customer.java:260-261 | an address followed by a newline still passes, since `$` matches before a final line terminator |
| Customers.ValidateAddress | src/main/java/Customer.java:270-292 | an address passes exactly when it is absent, or has no special character, has a digit and a letter, and starts with a letter or ends with a digit |
| Customers.ValidateCustomer | src/main/java/Customer.java:184-191 | the builder's fields pass exactly when every field passes; a reported failure of any field comes with every earlier field passing and is that field's own validator's reason |
| Customers.LettersAndDashes | src/main/java/Customer.java:148-149 | letters and dashes contain no digit and no special character other than the dash |
| Customers.LetterAndDashNamesPass | src/main/java/Customer.java:197-210 | a name of 3 to 150 ASCII letters and dashes passes |
| Customers.NameWithDigitRejected | src/main/java/Customer.java:204-206 | a name of acceptable length with a digit is rejected for the digit |
| Customers.NameWithSpecialRejected | src/main/java/Customer.java:207-209 | a name of acceptable length with no digit but a `!` is rejected for the special character |
| Customers.CustomerText | src/main/java/Customer.java:124-138 | the `toString` text; its meaning is stated by the five lemmas below |
| Customers.CustomerTextShape | src/main/java/Customer.java:124-138 | the text starts with name and number, ends with `]`, and is just those two in brackets when nothing else is set |
| Customers.CustomerTextAllFields | src/main/java/Customer.java:124-138 | with every optional field set, the text lists name, number, address, e-mail and phone in that order, in brackets |
| Customers.CustomerTextAddress | src/main/java/Customer.java:126-129 | a present address is inserted right after the social security number into the text without it |
| Customers.CustomerTextEmail | src/main/java/Customer.java:127-132 | a present e-mail address is inserted after the name, number and address, before any phone number, into the text without it |
| Customers.CustomerTextPhone | src/main/java/Customer.java:133-137 | a present phone number is inserted last, just before the closing bracket, into the text without it |
| Customers.Customer.HasAPhoneNumber | src/main/java/Customer.java:28-30 | whether a phone number is set |
| Customers.Customer.HasAnEmailAddress | src/main/java/Customer.java:32-34 | whether an e-mail address is set |
| Customers.Customer.HasAnAddress | src/main/java/Customer.java:36-38 | whether an address is set |
| Customers.Customer.IsAMember | src/main/java/Customer.java:40-42 | whether there is a membership |
| Customers.Customer.GetMembership | src/main/java/Customer.java:44-46 | the membership, or null |
| Customers.Customer.Equals | src/main/java/Customer.java:107-116 | customers are equal when social security number and name are |
| Customers.Customer.HashCode | src/main/java/Customer.java:118-121 | `Objects.hash(sSNumber, name)`, computed as Java does |
| Customers.EqualCustomersHashAlike | src/main/java/Customer.java:107-121 | equal customers have equal hash codes, and equality is symmetric |
| Customers.Customer.ToString | src/main/java/Customer.java:123-138 | the text starts with name and number and ends with `]` |
| Customers.Customer.constructor | src/main/java/Customer.java:20-26 | the customer holds the builder's fields and no membership |
| Customers.Customer.JoinMembership | src/main/java/Customer.java:54-66 | a member is rejected and keeps the old membership; a customer under 18 is rejected and stays without one; anyone else gets a fresh membership with the given date, points and status |
| Customers.Customer.LeaveMembership | src/main/java/Customer.java:68-73 | afterwards there is no membership; a non-member is rejected |
| Customers.Customer.SetPhoneNumber | src/main/java/Customer.java:87-89 | the phone number is stored unchecked |
| Customers.Customer.SetEmailAddress | src/main/java/Customer.java:95-97 | the e-mail address is stored unchecked |
| Customers.Customer.SetAddress | src/main/java/Customer.java:103-105 | the address is stored unchecked |
| Customers.CustomerBuilder.constructor | src/main/java/Customer.java:155-158 | a new builder has a name and a number and no optional field |
| Customers.CustomerBuilder.SetPhoneNumber | src/main/java/Customer.java:160-163 | only the phone number changes, and the builder itself is returned |
| Customers.CustomerBuilder.SetEmailAddress | src/main/java/Customer.java:165-168 | only the e-mail address changes, and the builder itself is returned |
| Customers.CustomerBuilder.SetAddress | src/main/java/Customer.java:170-173 | only the address changes, and the builder itself is returned |
| Customers.CustomerBuilder.Build | src/main/java/Customer.java:175-178 | a fresh non-member customer with the builder's fields, or the first invalid field and why |

## Left out

- File reading. The loaders and the `InventoryBalance(File)` constructor take the file's lines as a sequence. An I/O error, which the source catches and prints, is not modelled. Console output is left out.
- `CashRegister`, `Receipt` and `ProductItem` are not part of this model. A purchase's item is modelled as the `Purchases.Item` value, with the fields the purchase reads.
- Purchases.Purchase.IncrementTotalPrice: the total for a discounted item goes through `double` arithmetic in Java. The model takes the resulting total as the parameter `discountedTotal` and does not compute it.
- Purchases.Purchase.DecrementPrice: the same `double` arithmetic for a discounted item is taken as a parameter.
- Purchases.Scanned: an item count is an unbounded integer. The `Integer` count in the Java map could wrap after 2^31 scans of one item.
- `ProductItem` equality and hashing, which decide which map entry a scan updates, are value equality of `Purchases.Item`.
- Products.ProductBuilder.Build: Java constructs the product before validating it, and the half-built product is unreachable after the exception. The model validates first.
- The age check. `Membership.validateCustomerAge` compares the birth date in the social security number with the current clock, so its outcome is the parameter `AgeCheck` of `Memberships.NewMembership` and `Customers.Customer.JoinMembership`. A start date is stored but not interpreted.
- Customers.Customer.JoinMembership: the two overloads are one method. The one without a date passes `LocalDate.now()`, which is a parameter here.
- `Membership.toString` is left out because it prints a `LocalDate`. `Money.hashCode`, `CashMoney.hashCode`, `Product.toString` and the exception messages are left out too.
- JavaText.ParseInt: `Integer.parseInt` also accepts non-ASCII Unicode decimal digits. The model accepts only `0`-`9`.
- Monies.RunStaysNonNegative: proved only for runs in which no `add` passes `Long.MAX_VALUE`. Past it the Java balance wraps negative, as `Monies.AddOverflows` shows.
- Monies.AddThenSubtract: proved only when the sum fits in a `long`.
- Memberships.AdjustNeverDemotes: proved only when the new point total fits in a `long`. Past it the points wrap negative and the tier can drop.
- Memberships.AdjustedPoints: the ensures about the new value hold only short of overflow. The function itself wraps as Java does.
- Pricing.PriceWithVatTruncates and Pricing.VatAmountIsRoundedVat: proved for a non-negative price whose product with `rate + 100` fits in an `int`; a built product's price is positive, and past the bound Java wraps.
- Pricing.DiscountedPriceTruncates: proved for every discount, but only when `100 - discount` and its product with the price with VAT fit in an `int`.
- Pricing.DiscountAmountRounding: proved for every discount under the same overflow hypotheses, and when the price with VAT less the discounted price fits in an `int`.
- Pricing.DiscountAmountCompletesPrice: proved only when the price with VAT less the discounted price fits in an `int`.
- Customers.ValidateName: reasons other than too few characters are stated only through the overall accept-or-reject condition and the name lemmas.
- The e-mail pattern is modelled as its grammar, not through a regular-expression engine. Java's `$` also matches before a final line terminator (`\n`, `\r`, `\r\n`, U+0085, U+2028, U+2029), and the model includes that case.
