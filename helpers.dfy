/**
 * The actuarial and allocation rules of utils/helpers.js: age from a date of
 * birth, years to retirement, the score-to-category bands and the recommended
 * asset allocation. JavaScript numbers are modelled as exact `real`s and
 * `Math.round(x)` as `Floor(x + 0.5)`.
 */
module Helpers {

  // ---------------------------------------------------------------------------
  // Dates and ages
  // ---------------------------------------------------------------------------

  /** A calendar date as the Date getters report it: full year, month, day of month. */
  datatype Date = Date(year: int, month: int, day: int)

  /** Calendar order: `a` falls strictly before `b`. */
  predicate Before(a: Date, b: Date) {
    a.year < b.year
    || (a.year == b.year && (a.month < b.month || (a.month == b.month && a.day < b.day)))
  }

  /** The date on which someone born on `birth` turns `n`. */
  function Anniversary(birth: Date, n: int): Date {
    Date(birth.year + n, birth.month, birth.day)
  }

  /**
   * calculateAge, with the ambient "today" made a parameter: the year
   * difference, less one while this year's birthday is still ahead.
   */
  function CalculateAge(dateOfBirth: Date, today: Date): (age: int)
    // the number of whole years lived: the age-th birthday has been reached
    // and the next one has not
    ensures !Before(today, Anniversary(dateOfBirth, age))
    ensures Before(today, Anniversary(dateOfBirth, age + 1))
    // the year difference, less one exactly while this year's birthday is ahead
    ensures age == today.year - dateOfBirth.year || age == today.year - dateOfBirth.year - 1
    ensures age == today.year - dateOfBirth.year - 1
        <==> Before(today, Anniversary(dateOfBirth, today.year - dateOfBirth.year))
  {
    var age := today.year - dateOfBirth.year;
    var monthDiff := today.month - dateOfBirth.month;
    if monthDiff < 0 || (monthDiff == 0 && today.day < dateOfBirth.day) then age - 1 else age
  }

  /** Only one count of years brackets `today` between two consecutive birthdays. */
  lemma AgeIsUnique(dateOfBirth: Date, today: Date, n: int)
    requires !Before(today, Anniversary(dateOfBirth, n))
    requires Before(today, Anniversary(dateOfBirth, n + 1))
    ensures n == CalculateAge(dateOfBirth, today)
  {
  }

  /** Born 15 June 2000: 23 on 10 June 2024, 24 on 20 June 2024. */
  lemma AgeExamples()
    ensures CalculateAge(Date(2000, 6, 15), Date(2024, 6, 10)) == 23
    ensures CalculateAge(Date(2000, 6, 15), Date(2024, 6, 20)) == 24
  {
  }

  /** The retirement age calculateYearsToRetirement assumes when none is given. */
  const DefaultRetirementAge: int := 65

  /** calculateYearsToRetirement: the years left until `retirementAge`, never negative. */
  function CalculateYearsToRetirement(dateOfBirth: Date, today: Date, retirementAge: int): (years: int)
    ensures years >= 0
    ensures years >= retirementAge - CalculateAge(dateOfBirth, today)
    ensures years == 0 || years == retirementAge - CalculateAge(dateOfBirth, today)
  {
    var age := CalculateAge(dateOfBirth, today);
    if 0 < retirementAge - age then retirementAge - age else 0
  }

  /** No years are left exactly when the retirement age has been reached. */
  lemma RetiredIffNoYearsLeft(dateOfBirth: Date, today: Date, retirementAge: int)
    ensures CalculateYearsToRetirement(dateOfBirth, today, retirementAge) == 0
        <==> CalculateAge(dateOfBirth, today) >= retirementAge
  {
  }

  // ---------------------------------------------------------------------------
  // Risk categories
  // ---------------------------------------------------------------------------

  /** The three risk bands. */
  datatype RiskCategory = Conservative | Moderate | Aggressive {

    /** The label the application stores and compares. */
    function Name(): (s: string)
      ensures FormulaFor(s) == this
    {
      match this
      case Conservative => "Conservative"
      case Moderate => "Moderate"
      case Aggressive => "Aggressive"
    }

    /** Position from least to most risk tolerant. */
    function Rank(): nat {
      match this
      case Conservative => 0
      case Moderate => 1
      case Aggressive => 2
    }
  }

  /** getRiskCategory: the band of a score. */
  function GetRiskCategory(score: int): (c: RiskCategory)
    ensures c == Conservative <==> score <= 3
    ensures c == Moderate <==> 3 < score <= 6
    ensures c == Aggressive <==> 6 < score
  {
    if score <= 3 then Conservative
    else if score <= 6 then Moderate
    else Aggressive
  }

  /** A higher score never lands in a more cautious band. */
  lemma RiskCategoryMonotone(lower: int, higher: int)
    requires lower <= higher
    ensures GetRiskCategory(lower).Rank() <= GetRiskCategory(higher).Rank()
  {
  }

  /**
   * Which formulas getRecommendedAllocation applies to a stored label: any
   * label other than "Conservative" or "Moderate" falls through to the
   * Aggressive branch.
   */
  function FormulaFor(riskCategory: string): (c: RiskCategory)
    ensures c == Conservative <==> riskCategory == "Conservative"
    ensures c == Moderate <==> riskCategory == "Moderate"
  {
    if riskCategory == "Conservative" then Conservative
    else if riskCategory == "Moderate" then Moderate
    else Aggressive
  }

  // ---------------------------------------------------------------------------
  // Recommended allocation
  // ---------------------------------------------------------------------------

  /** An allocation object: a percentage (or, before normalisation, a weight) per asset class. */
  datatype Allocation = Allocation(stocks: real, bonds: real, realEstate: real, cash: real) {

    /** The fields in the object's key order. */
    function Values(): (v: seq<real>)
      ensures |v| == 4
    {
      [stocks, bonds, realEstate, cash]
    }

    /** The sum of the four fields. */
    function Total(): real {
      stocks + bonds + realEstate + cash
    }
  }

  /** The object whose fields, in key order, are `v`. */
  function FromValues(v: seq<real>): (a: Allocation)
    requires |v| == 4
    ensures a.Values() == v
  {
    Allocation(v[0], v[1], v[2], v[3])
  }

  function Max(x: real, y: real): real { if x >= y then x else y }

  function Min(x: real, y: real): real { if x <= y then x else y }

  /** Sum of a sequence, added left to right as `reduce` does. */
  function Sum(s: seq<real>): real {
    if s == [] then 0.0 else Sum(s[..|s| - 1]) + s[|s| - 1]
  }

  /** Reducing the object's values gives its total. */
  lemma SumOfValues(a: Allocation)
    ensures Sum(a.Values()) == a.Total()
  {
    var v := a.Values();
    assert Sum([a.stocks]) == a.stocks by {
      assert [a.stocks][..0] == [];
    }
    assert Sum([a.stocks, a.bonds]) == a.stocks + a.bonds by {
      assert [a.stocks, a.bonds][..1] == [a.stocks];
    }
    assert Sum([a.stocks, a.bonds, a.realEstate]) == a.stocks + a.bonds + a.realEstate by {
      assert [a.stocks, a.bonds, a.realEstate][..2] == [a.stocks, a.bonds];
    }
    assert v[..3] == [a.stocks, a.bonds, a.realEstate];
  }

  /**
   * The allocation object getRecommendedAllocation builds before normalising,
   * written as the source writes it: the formulas use the term
   * `65 - yearsToRetirement` with `yearsToRetirement = 65 - age`.
   */
  function RawAllocation(riskCategory: string, age: int): (raw: Allocation)
    ensures 100.0 <= raw.Total() <= 110.0
  {
    var yearsToRetirement := 65 - age;
    var term := (65 - yearsToRetirement) as real;
    match FormulaFor(riskCategory)
    case Conservative =>
      Allocation(Max(20.0, 40.0 - term), Min(60.0, 50.0 + term), 10.0, 10.0)
    case Moderate =>
      Allocation(Max(40.0, 60.0 - term * 0.5), Min(40.0, 30.0 + term * 0.5), 15.0, 5.0)
    case Aggressive =>
      Allocation(Max(60.0, 80.0 - term * 0.3), Min(20.0, 10.0 + term * 0.3), 15.0, 5.0)
  }

  /** The lowest raw stock weight of a band. */
  function StockFloor(c: RiskCategory): real {
    match c
    case Conservative => 20.0
    case Moderate => 40.0
    case Aggressive => 60.0
  }

  /** The highest raw bond weight of a band. */
  function BondCap(c: RiskCategory): real {
    match c
    case Conservative => 60.0
    case Moderate => 40.0
    case Aggressive => 20.0
  }

  /** The raw stock weight at age 0 of a band. */
  function StockStart(c: RiskCategory): real {
    match c
    case Conservative => 40.0
    case Moderate => 60.0
    case Aggressive => 80.0
  }

  /** The raw bond weight at age 0 of a band. */
  function BondStart(c: RiskCategory): real {
    match c
    case Conservative => 50.0
    case Moderate => 30.0
    case Aggressive => 10.0
  }

  /** How many points per year of age move from stocks to bonds in a band. */
  function Slope(c: RiskCategory): real {
    match c
    case Conservative => 1.0
    case Moderate => 0.5
    case Aggressive => 0.3
  }

  /** The fixed real-estate weight of a band. */
  function RealEstateWeight(c: RiskCategory): real {
    if c == Conservative then 10.0 else 15.0
  }

  /** The fixed cash weight of a band. */
  function CashWeight(c: RiskCategory): real {
    if c == Conservative then 10.0 else 5.0
  }

  /**
   * The raw allocation as a table of per-band constants in `age` alone: the
   * `65 - yearsToRetirement` term is exactly `age`, so every band glides with
   * age and none depends on years to retirement otherwise.
   */
  lemma RawAllocationByAge(riskCategory: string, age: int)
    ensures var c := FormulaFor(riskCategory);
      RawAllocation(riskCategory, age) == Allocation(
        Max(StockFloor(c), StockStart(c) - Slope(c) * age as real),
        Min(BondCap(c), BondStart(c) + Slope(c) * age as real),
        RealEstateWeight(c), CashWeight(c))
  {
  }

  /** Before normalisation, stocks keep their floor and bonds stay under their cap. */
  lemma RawFloorsAndCaps(riskCategory: string, age: int)
    ensures var c := FormulaFor(riskCategory); var raw := RawAllocation(riskCategory, age);
      raw.stocks >= StockFloor(c) && raw.bonds <= BondCap(c)
      && raw.realEstate == RealEstateWeight(c) && raw.cash == CashWeight(c)
  {
  }

  /** Before normalisation, an older investor gets no more stocks and no fewer bonds. */
  lemma RawMonotoneInAge(riskCategory: string, younger: int, older: int)
    requires younger <= older
    ensures RawAllocation(riskCategory, older).stocks <= RawAllocation(riskCategory, younger).stocks
    ensures RawAllocation(riskCategory, older).bonds >= RawAllocation(riskCategory, younger).bonds
  {
  }

  /** `Math.round`: the nearest integer, halves rounded up. */
  function Round(x: real): (n: int)
    ensures x - 0.5 < n as real <= x + 0.5
  {
    (x + 0.5).Floor
  }

  /** Rounding never reverses the order of two numbers. */
  lemma RoundMonotone(x: real, y: real)
    requires x <= y
    ensures Round(x) <= Round(y)
  {
  }

  /** A whole number rounds to itself. */
  lemma RoundWhole(n: int)
    ensures Round(n as real) == n
  {
  }

  /** One field after normalisation: `Math.round(value / total * 100)`. */
  function Share(value: real, total: real): (pct: real)
    requires total != 0.0
    ensures IsWhole(pct)
    ensures value / total * 100.0 - 0.5 < pct <= value / total * 100.0 + 0.5
  {
    Round(value / total * 100.0) as real
  }

  /** The normalisation step: every field rescaled to a rounded percentage of the total. */
  function Normalize(raw: Allocation): (a: Allocation)
    requires raw.Total() != 0.0
    ensures WholePercentages(a)
    ensures forall i :: 0 <= i < 4 ==> a.Values()[i] == Share(raw.Values()[i], raw.Total())
  {
    var total := raw.Total();
    Allocation(Share(raw.stocks, total), Share(raw.bonds, total),
               Share(raw.realEstate, total), Share(raw.cash, total))
  }

  /** True when `x` is a whole number. */
  predicate IsWhole(x: real) {
    x == x.Floor as real
  }

  /** True when every field of `a` is a whole number. */
  predicate WholePercentages(a: Allocation) {
    IsWhole(a.stocks) && IsWhole(a.bonds) && IsWhole(a.realEstate) && IsWhole(a.cash)
  }

  /** The value getRecommendedAllocation returns. */
  function RecommendedAllocation(riskCategory: string, age: int): (a: Allocation)
    ensures WholePercentages(a)
  {
    Normalize(RawAllocation(riskCategory, age))
  }

  /** Four shares of one total, each before rounding, add up to exactly 100. */
  lemma SharesAddUp(raw: Allocation)
    requires raw.Total() > 0.0
    ensures raw.stocks / raw.Total() * 100.0 + raw.bonds / raw.Total() * 100.0
          + raw.realEstate / raw.Total() * 100.0 + raw.cash / raw.Total() * 100.0 == 100.0
  {
    var t := raw.Total();
    calc {
      raw.stocks / t * 100.0 + raw.bonds / t * 100.0 + raw.realEstate / t * 100.0 + raw.cash / t * 100.0;
      (raw.stocks + raw.bonds + raw.realEstate + raw.cash) / t * 100.0;
      t / t * 100.0;
      100.0;
    }
  }

  /**
   * Each field is rounded on its own, so the four percentages add up to 100
   * only within rounding: between 99 and 102.
   */
  lemma RecommendedTotalNear100(riskCategory: string, age: int)
    ensures 99.0 <= RecommendedAllocation(riskCategory, age).Total() <= 102.0
  {
    var raw := RawAllocation(riskCategory, age);
    var t := raw.Total();
    SharesAddUp(raw);
    var s := Round(raw.stocks / t * 100.0);
    var b := Round(raw.bonds / t * 100.0);
    var r := Round(raw.realEstate / t * 100.0);
    var c := Round(raw.cash / t * 100.0);
    assert 98 < s + b + r + c <= 102;
    assert RecommendedAllocation(riskCategory, age).Total() == (s + b + r + c) as real;
  }

  /** The rounded share of a part no larger than a positive whole is a percentage in [0, 100]. */
  lemma ShareInRange(v: real, t: real)
    requires 0.0 <= v <= t && 0.0 < t
    ensures 0.0 <= Share(v, t) <= 100.0
  {
    var x := v / t * 100.0;
    assert v / t <= 1.0 by {
      assert v / t * t == v;
    }
    assert 0.0 <= x <= 100.0;
    RoundMonotone(0.0, x);
    RoundMonotone(x, 100.0);
    RoundWhole(0);
    RoundWhole(100);
  }

  /** For a non-negative age every recommended percentage lies in [0, 100]. */
  lemma RecommendedPercentagesInRange(riskCategory: string, age: int)
    requires age >= 0
    ensures forall v :: v in RecommendedAllocation(riskCategory, age).Values() ==> 0.0 <= v <= 100.0
  {
    var raw := RawAllocation(riskCategory, age);
    var t := raw.Total();
    assert raw.stocks >= 0.0 && raw.bonds >= 0.0 && raw.realEstate >= 0.0 && raw.cash >= 0.0;
    ShareInRange(raw.stocks, t);
    ShareInRange(raw.bonds, t);
    ShareInRange(raw.realEstate, t);
    ShareInRange(raw.cash, t);
  }

  /** Weights that are already whole percentages summing to 100 pass normalisation unchanged. */
  lemma NormalizeKeepsWholePercentages(raw: Allocation)
    requires raw.Total() == 100.0
    requires WholePercentages(raw)
    ensures Normalize(raw) == raw
  {
    RoundWhole(raw.stocks.Floor);
    RoundWhole(raw.bonds.Floor);
    RoundWhole(raw.realEstate.Floor);
    RoundWhole(raw.cash.Floor);
  }

  /** A Moderate investor aged 40 gets 40/40/15/5, untouched by normalisation. */
  lemma ModerateAtForty()
    ensures RecommendedAllocation("Moderate", 40) == Allocation(40.0, 40.0, 15.0, 5.0)
  {
    var raw := RawAllocation("Moderate", 40);
    assert raw == Allocation(40.0, 40.0, 15.0, 5.0);
    NormalizeKeepsWholePercentages(raw);
  }

  /**
   * getRecommendedAllocation: build the raw object, total its values with a
   * left-to-right reduction, then rewrite each field in key order as its
   * rounded percentage of that total.
   */
  method GetRecommendedAllocation(riskCategory: string, age: int) returns (allocation: Allocation)
    ensures allocation == RecommendedAllocation(riskCategory, age)
  {
    allocation := RawAllocation(riskCategory, age);
    var values := allocation.Values();

    var total := 0.0;
    for i := 0 to |values|
      invariant total == Sum(values[..i])
    {
      assert values[..i + 1][..i] == values[..i];
      total := total + values[i];
    }
    assert values[..|values|] == values;
    SumOfValues(allocation);

    ghost var raw := values;
    for i := 0 to |values|
      invariant |values| == 4
      invariant forall k :: 0 <= k < i ==> values[k] == Share(raw[k], total)
      invariant forall k :: i <= k < 4 ==> values[k] == raw[k]
    {
      values := values[i := Share(values[i], total)];
    }
    allocation := FromValues(values);
  }
}
