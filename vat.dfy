/**
 * VAT categories and their percentages. Each tag carries one rate, fixed
 * when the tag is declared.
 */
module VatRates {

  datatype Vat = Standard | Food | Reduced | NoTax

  /** The percentage a VAT category adds on top of the price before VAT. */
  function Rate(v: Vat): (r: nat)
    ensures r <= 25
    ensures r == 0 <==> v == NoTax
  {
    match v
    case Standard => 25
    case Food => 12
    case Reduced => 6
    case NoTax => 0
  }

  /** The documented 25, 12 and 6 percent categories, and the untaxed one. */
  lemma DocumentedRates()
    ensures Rate(Standard) == 25 && Rate(Food) == 12 && Rate(Reduced) == 6 && Rate(NoTax) == 0
  {
  }

  /** No two categories share a rate, so a rate names its category. */
  lemma RateDeterminesCategory(v: Vat, w: Vat)
    ensures Rate(v) == Rate(w) ==> v == w
  {
  }
}
