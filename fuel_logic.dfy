/** Pricing of one fuel sale: the tendered cash amount decides the litres
    delivered, the purchase cost of those litres and the profit. Litres are
    held in centilitres so that every quantity is an exact integer. */
module FuelLogic {

  /** Selling price of one litre, in rupiah. */
  const BasePricePerLiter: int := 12000
  /** Purchase price of one litre, in rupiah. */
  const CostPricePerLiter: int := 10000

  /** One priced sale. `liter` is in centilitres (1.08 L is 108). */
  datatype TransactionResult = TransactionResult(
    nominal: int,
    liter: int,
    cost: int,
    profit: int,
    isSpecialRule: bool)

  /** The package amounts whose litres are fixed rather than computed. */
  predicate IsPackageAmount(amount: int) {
    amount == 10000 || amount == 6000 || amount == 15000
  }

  /** The fixed litres of a package amount, in centilitres. */
  function PackageLiter(amount: int): (cl: int)
    requires IsPackageAmount(amount)
  {
    if amount == 10000 then 70
    else if amount == 6000 then 50
    else 120
  }

  /** `n / d` rounded to the nearest integer, halves away from zero: the decimal
      reading of `Number(x.toFixed(k))`. */
  function RoundDiv(n: int, d: int): (q: int)
    requires d > 0 && d % 2 == 0
    ensures n >= 0 ==> d * q - d / 2 <= n < d * q + d / 2
    ensures n < 0 ==> d * q - d / 2 < n <= d * q + d / 2
  {
    if n >= 0 then (n + d / 2) / d else -((-n + d / 2) / d)
  }

  /** Litres for an amount outside the packages: amount / 12000 rounded to two
      decimals, that is amount / 120 rounded to whole centilitres. */
  function StandardLiter(amount: int): (cl: int)
    ensures amount >= 0 ==> 120 * cl - 60 <= amount < 120 * cl + 60
    ensures amount >= 0 ==> cl >= 0
  {
    RoundDiv(amount * 100, BasePricePerLiter)
  }

  /** `calculateTransaction(amount)`. */
  function CalculateTransaction(amount: int): (r: TransactionResult)
    ensures r.nominal == amount
    ensures r.isSpecialRule <==> IsPackageAmount(amount)
    ensures amount == 10000 ==> r.liter == 70
    ensures amount == 6000 ==> r.liter == 50
    ensures amount == 15000 ==> r.liter == 120
    ensures !IsPackageAmount(amount) && amount >= 0 ==> 120 * r.liter - 60 <= amount < 120 * r.liter + 60
    ensures 100 * r.cost == r.liter * CostPricePerLiter
    ensures r.profit + r.cost == amount
  {
    var special := IsPackageAmount(amount);
    var liter := if special then PackageLiter(amount) else StandardLiter(amount);
    // liter * COST_PRICE_PER_LITER is a whole number of rupiah, so rounding keeps it
    var cost := RoundDiv(liter * CostPricePerLiter, 100);
    TransactionResult(amount, liter, cost, amount - cost, special)
  }

  /** Rounding to two decimals picks the unique nearest centilitre: any
      count of centilitres within half a centilitre of the exact quotient is
      the one the standard rule delivers. */
  lemma StandardLiterIsNearest(amount: int, cl: int)
    requires amount >= 0
    requires 120 * cl - 60 <= amount < 120 * cl + 60
    ensures StandardLiter(amount) == cl
  {
    var s := StandardLiter(amount);
    assert 120 * s - 60 <= amount < 120 * s + 60;
    assert 120 * (s - cl) < 120 && 120 * (cl - s) < 120;
  }

  /** The packages override the formula: 10000 and 15000 buy fewer litres
      than the 12000-per-litre rate would give, and 6000 exactly as many. */
  lemma PackagesAgainstFormula()
    ensures StandardLiter(10000) == 83 && PackageLiter(10000) == 70
    ensures StandardLiter(6000) == 50 && PackageLiter(6000) == 50
    ensures StandardLiter(15000) == 125 && PackageLiter(15000) == 120
  {
  }

  /** The concrete cases the project's own tests pin. */
  lemma PinnedExamples()
    ensures var r := CalculateTransaction(10000); r.liter == 70 && r.profit == 3000 && r.isSpecialRule
    ensures var r := CalculateTransaction(6000); r.liter == 50 && r.profit == 1000 && r.isSpecialRule
    ensures var r := CalculateTransaction(15000); r.liter == 120 && r.profit == 3000 && r.isSpecialRule
    ensures var r := CalculateTransaction(12000); r.liter == 100 && r.profit == 2000 && !r.isSpecialRule
    ensures var r := CalculateTransaction(24000); r.liter == 200 && r.profit == 4000 && !r.isSpecialRule
    ensures var r := CalculateTransaction(13000); r.liter == 108 && r.cost == 10800 && r.profit == 2200 && !r.isSpecialRule
  {
    StandardLiterIsNearest(12000, 100);
    StandardLiterIsNearest(24000, 200);
    StandardLiterIsNearest(13000, 108);
  }
}
