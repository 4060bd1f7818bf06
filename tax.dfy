/**
 * The rental tax calculator `calcSimpleTax` (index.js:105-136).
 *
 * Money is exact: amounts are whole cents (1 yuan = 100 cents) and rates are
 * basis points (1% = 100 basis points), so the product of an amount and a rate
 * is in ten-thousandths of a cent. Rounding to two decimals is rounding that
 * product to the nearest cent, a tie going up (every amount here is >= 0).
 */
module TaxCalc {
  import opened Wrappers

  /** The house-use categories the calculation endpoint accepts. */
  datatype HouseType = Residential | NonResidential

  /** The wire name of a category, as the request body carries it. */
  function HouseTypeName(h: HouseType): string
  {
    match h
    case Residential => "residential"
    case NonResidential => "non_residential"
  }

  /** The whitelist check of the POST handler: exactly the two names are accepted. */
  function ParseHouseType(s: string): (r: Option<HouseType>)
    ensures r.Some? <==> s == "residential" || s == "non_residential"
    ensures r.Some? ==> HouseTypeName(r.value) == s
  {
    if s == "residential" then Some(Residential)
    else if s == "non_residential" then Some(NonResidential)
    else None
  }

  lemma HouseTypeNameParses(h: HouseType)
    ensures ParseHouseType(HouseTypeName(h)) == Some(h)
  {
  }

  /** The flat 800-yuan deduction, in cents. */
  const DeductionCents: int := 80000

  /** Ten-thousandths of a cent per cent: one cent times 10000 basis points. */
  const UnitsPerCent: nat := 10000

  /** The property-tax rate table, in basis points. */
  function PropertyRate(h: HouseType, propHalf: bool): nat
  {
    match h
    case NonResidential => 1200
    case Residential => if propHalf then 200 else 400
  }

  /** The income-tax rate table, in basis points. */
  function IncomeRate(h: HouseType): nat
  {
    match h
    case NonResidential => 2000
    case Residential => 1000
  }

  /** A tax base: the rent, or the rent less the deduction (never below 0) when the flag is set. */
  function TaxBase(rent: int, deduct: bool): int
  {
    if deduct then Max0(rent - DeductionCents) else rent
  }

  function Max0(x: int): nat
  {
    if x < 0 then 0 else x
  }

  /**
   * Rounds an amount given in ten-thousandths of a cent to the nearest cent,
   * a tie going up: what `toFixed(2)` does to a non-negative amount.
   */
  function RoundToCent(units: nat): (cents: nat)
    ensures cents * UnitsPerCent <= units + 5000 < cents * UnitsPerCent + UnitsPerCent
  {
    (units + 5000) / UnitsPerCent
  }

  function Dist(a: int, b: int): nat
  {
    if a < b then b - a else a - b
  }

  /** No whole number of cents is nearer to the exact amount than the rounded one. */
  lemma RoundToCentIsNearest(units: nat, c: nat)
    ensures Dist(units, RoundToCent(units) * UnitsPerCent) <= Dist(units, c * UnitsPerCent)
  {
    var r := RoundToCent(units);
    if c < r {
      assert c * UnitsPerCent <= r * UnitsPerCent - UnitsPerCent;
    } else if c > r {
      assert c * UnitsPerCent >= r * UnitsPerCent + UnitsPerCent;
    }
  }

  /** Rounding never reverses the order of two amounts. */
  lemma RoundToCentMonotone(u: nat, v: nat)
    requires u <= v
    ensures RoundToCent(u) <= RoundToCent(v)
  {
  }

  /** An amount that already is a whole number of cents rounds to itself. */
  lemma RoundWholeCents(c: nat)
    ensures RoundToCent(c * UnitsPerCent) == c
  {
  }

  /** The breakdown `calcSimpleTax` returns (its `unit` label is a constant and is left out). */
  datatype Quote = Quote(
    houseType: HouseType,
    monthlyRent: int,
    propDeduction: bool,
    incDeduction: bool,
    propHalf: bool,
    propertyBase: int,
    incomeBase: int,
    propertyRate: nat,
    incomeRate: nat,
    propertyTax: nat,
    incomeTax: nat,
    totalTax: nat)

  /** The error `calcSimpleTax` throws. */
  datatype CalcError = RentNotPositive

  /** The rent check of `calcSimpleTax`: a missing or NaN rent (`None`), zero or a negative rent fails. */
  predicate ValidRent(monthlyRent: Option<int>)
  {
    monthlyRent.Some? && monthlyRent.value > 0
  }

  /**
   * `calcSimpleTax`: rates from the table, two independent bases, each tax
   * rounded to the cent, the total rounded from the two rounded taxes.
   */
  function CalcSimpleTax(monthlyRent: Option<int>, houseType: HouseType,
                         propDeduction: bool, incDeduction: bool, propHalf: bool): (r: Result<Quote, CalcError>)
    ensures r.Failure? <==> !ValidRent(monthlyRent)
    ensures r.Success? ==>
      && r.value.houseType == houseType
      && r.value.monthlyRent == monthlyRent.value
      && r.value.propDeduction == propDeduction
      && r.value.incDeduction == incDeduction
      && r.value.propHalf == propHalf
    // the rate table
    ensures r.Success? && houseType == NonResidential ==>
      r.value.propertyRate == 1200 && r.value.incomeRate == 2000
    ensures r.Success? && houseType == Residential ==>
      r.value.propertyRate == (if propHalf then 200 else 400) && r.value.incomeRate == 1000
    // the bases: each depends on its own flag only, and lies between 0 and the rent
    ensures r.Success? ==>
      && 0 <= r.value.propertyBase <= r.value.monthlyRent
      && 0 <= r.value.incomeBase <= r.value.monthlyRent
      && (!propDeduction ==> r.value.propertyBase == r.value.monthlyRent)
      && (propDeduction ==> r.value.propertyBase == Max0(r.value.monthlyRent - DeductionCents))
      && (!incDeduction ==> r.value.incomeBase == r.value.monthlyRent)
      && (incDeduction ==> r.value.incomeBase == Max0(r.value.monthlyRent - DeductionCents))
    // each tax is base times rate to the nearest cent, and the total is exactly their sum
    ensures r.Success? ==>
      && r.value.propertyTax * UnitsPerCent <= r.value.propertyBase * r.value.propertyRate + 5000
      && r.value.propertyBase * r.value.propertyRate + 5000 < r.value.propertyTax * UnitsPerCent + UnitsPerCent
      && r.value.incomeTax * UnitsPerCent <= r.value.incomeBase * r.value.incomeRate + 5000
      && r.value.incomeBase * r.value.incomeRate + 5000 < r.value.incomeTax * UnitsPerCent + UnitsPerCent
      && r.value.totalTax == r.value.propertyTax + r.value.incomeTax
  {
    if !ValidRent(monthlyRent) then Failure(RentNotPositive)
    else
      var rent := monthlyRent.value;
      var propertyRate := PropertyRate(houseType, propHalf);
      var incomeRate := IncomeRate(houseType);
      var propertyBase: nat := TaxBase(rent, propDeduction);
      var incomeBase: nat := TaxBase(rent, incDeduction);
      var propertyTax := RoundToCent(propertyBase * propertyRate);
      var incomeTax := RoundToCent(incomeBase * incomeRate);
      var totalTax := RoundToCent((propertyTax + incomeTax) * UnitsPerCent);
      RoundWholeCents(propertyTax + incomeTax);
      Success(Quote(houseType, rent, propDeduction, incDeduction, propHalf,
                    propertyBase, incomeBase, propertyRate, incomeRate,
                    propertyTax, incomeTax, totalTax))
  }

  /** Toggling the property deduction changes neither the income base nor the income tax. */
  lemma PropertyDeductionLeavesIncomeAlone(rent: Option<int>, h: HouseType, pd: bool, pd': bool, id: bool, half: bool)
    requires ValidRent(rent)
    ensures CalcSimpleTax(rent, h, pd, id, half).value.incomeBase == CalcSimpleTax(rent, h, pd', id, half).value.incomeBase
    ensures CalcSimpleTax(rent, h, pd, id, half).value.incomeTax == CalcSimpleTax(rent, h, pd', id, half).value.incomeTax
  {
  }

  /** Toggling the income deduction changes neither the property base nor the property tax. */
  lemma IncomeDeductionLeavesPropertyAlone(rent: Option<int>, h: HouseType, pd: bool, id: bool, id': bool, half: bool)
    requires ValidRent(rent)
    ensures CalcSimpleTax(rent, h, pd, id, half).value.propertyBase == CalcSimpleTax(rent, h, pd, id', half).value.propertyBase
    ensures CalcSimpleTax(rent, h, pd, id, half).value.propertyTax == CalcSimpleTax(rent, h, pd, id', half).value.propertyTax
  {
  }

  /** Applying the property deduction never raises the property tax, nor the total. */
  lemma PropertyDeductionNeverRaisesTax(rent: Option<int>, h: HouseType, id: bool, half: bool)
    requires ValidRent(rent)
    ensures CalcSimpleTax(rent, h, true, id, half).value.propertyTax <= CalcSimpleTax(rent, h, false, id, half).value.propertyTax
    ensures CalcSimpleTax(rent, h, true, id, half).value.totalTax <= CalcSimpleTax(rent, h, false, id, half).value.totalTax
  {
    var with := CalcSimpleTax(rent, h, true, id, half).value;
    var without := CalcSimpleTax(rent, h, false, id, half).value;
    MulMonotone(with.propertyBase, without.propertyBase, with.propertyRate);
    RoundToCentMonotone(with.propertyBase * with.propertyRate, without.propertyBase * without.propertyRate);
  }

  /** Applying the income deduction never raises the income tax, nor the total. */
  lemma IncomeDeductionNeverRaisesTax(rent: Option<int>, h: HouseType, pd: bool, half: bool)
    requires ValidRent(rent)
    ensures CalcSimpleTax(rent, h, pd, true, half).value.incomeTax <= CalcSimpleTax(rent, h, pd, false, half).value.incomeTax
    ensures CalcSimpleTax(rent, h, pd, true, half).value.totalTax <= CalcSimpleTax(rent, h, pd, false, half).value.totalTax
  {
    var with := CalcSimpleTax(rent, h, pd, true, half).value;
    var without := CalcSimpleTax(rent, h, pd, false, half).value;
    MulMonotone(with.incomeBase, without.incomeBase, with.incomeRate);
    RoundToCentMonotone(with.incomeBase * with.incomeRate, without.incomeBase * without.incomeRate);
  }

  lemma MulMonotone(a: nat, b: nat, k: nat)
    requires a <= b
    ensures a * k <= b * k
  {
  }

  /** Rent 5000 yuan, residential, no flags: 200.00 + 500.00 = 700.00. */
  lemma ResidentialExample()
    ensures var q := CalcSimpleTax(Some(500000), Residential, false, false, false).value;
      q.propertyTax == 20000 && q.incomeTax == 50000 && q.totalTax == 70000
  {
  }

  /** Rent 5000 yuan, residential, both deductions: bases 4200, 168.00 + 420.00 = 588.00. */
  lemma ResidentialDeductionsExample()
    ensures var q := CalcSimpleTax(Some(500000), Residential, true, true, false).value;
      q.propertyBase == 420000 && q.incomeBase == 420000 &&
      q.propertyTax == 16800 && q.incomeTax == 42000 && q.totalTax == 58800
  {
  }

  /** Rent 10000 yuan, non-residential: 1200.00 + 2000.00 = 3200.00. */
  lemma NonResidentialExample()
    ensures var q := CalcSimpleTax(Some(1000000), NonResidential, false, false, false).value;
      q.propertyTax == 120000 && q.incomeTax == 200000 && q.totalTax == 320000
  {
  }
}
