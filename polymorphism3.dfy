/** polymorphism/example3: three tax systems behind one `taxSystem` interface,
    and a total computed by calling `calculateTax` on each element of a slice. */
module Polymorphism3 {
  import Sums
  import Decimal
  import opened Runtime

  /** The three implementations of `taxSystem`. Go holds them by pointer, but
      nothing ever changes their fields, so a value stands for each. */
  datatype TaxSystem =
    | IndianTax(taxPercentage: int, income: int)
    | SingaporeTax(taxPercentage: int, income: int)
    | UsaTax(taxPercentage: int, income: int)

  /** Go's integer `/` by a positive divisor: the quotient truncated toward zero
      (Dafny's own `/` rounds down, which differs for a negative dividend). */
  function GoDiv(n: int, d: int): (q: int)
    requires 0 < d
    ensures 0 <= n ==> 0 <= n - q * d < d
    ensures n < 0 ==> 0 <= q * d - n < d
  {
    if 0 <= n then n / d else -((-n) / d)
  }

  /** `calculateTax`, one arm per implementation: `income * taxPercentage / 100`,
      the quotient truncated toward zero whatever the sign of the product. */
  function CalculateTax(t: TaxSystem): (tax: int)
    ensures 0 <= t.income * t.taxPercentage ==> 0 <= t.income * t.taxPercentage - 100 * tax < 100
    ensures t.income * t.taxPercentage < 0 ==> 0 <= 100 * tax - t.income * t.taxPercentage < 100
  {
    match t
    case IndianTax(p, income) => GoDiv(income * p, 100)
    case SingaporeTax(p, income) => GoDiv(income * p, 100)
    case UsaTax(p, income) => GoDiv(income * p, 100)
  }

  /** The tax of a non-negative income at a rate between 0 and 100 percent is
      between 0 and the income. */
  lemma TaxWithinIncome(t: TaxSystem)
    requires 0 <= t.income && 0 <= t.taxPercentage <= 100
    ensures 0 <= CalculateTax(t) <= t.income
  {
  }

  /** The three implementations agree on equal fields: the variant does not matter. */
  lemma SameFormula(p: int, income: int)
    ensures CalculateTax(IndianTax(p, income)) == CalculateTax(SingaporeTax(p, income))
    ensures CalculateTax(SingaporeTax(p, income)) == CalculateTax(UsaTax(p, income))
  {
  }

  /** The tax of each element, in slice order. */
  function Taxes(s: seq<TaxSystem>): seq<int>
  {
    seq(|s|, k requires 0 <= k < |s| => CalculateTax(s[k]))
  }

  /** The income of each element, in slice order. */
  function Incomes(s: seq<TaxSystem>): seq<int>
  {
    seq(|s|, k requires 0 <= k < |s| => s[k].income)
  }

  /** What `calculateTotalTax` returns. */
  function TotalTax(s: seq<TaxSystem>): int
  {
    Sums.Sum(Taxes(s))
  }

  /** One more element adds its own tax to the total. */
  lemma TotalTaxAppend(s: seq<TaxSystem>, t: TaxSystem)
    ensures TotalTax(s + [t]) == TotalTax(s) + CalculateTax(t)
  {
    assert Taxes(s + [t]) == Taxes(s) + [CalculateTax(t)];
    Sums.SumAppend(Taxes(s), CalculateTax(t));
  }

  /** With non-negative incomes and percentages of at most 100, the total tax
      lies between 0 and the total income. */
  lemma TotalTaxBounds(s: seq<TaxSystem>)
    requires forall k :: 0 <= k < |s| ==> 0 <= s[k].income && 0 <= s[k].taxPercentage <= 100
    ensures 0 <= TotalTax(s) <= Sums.Sum(Incomes(s))
  {
    forall k | 0 <= k < |s|
      ensures 0 <= Taxes(s)[k] <= Incomes(s)[k]
    {
      TaxWithinIncome(s[k]);
    }
    Sums.SumNonNegative(Taxes(s));
    Sums.SumMonotone(Taxes(s), Incomes(s));
  }

  /** `calculateTotalTax`: adds up `calculateTax` over the slice, front to back. */
  method CalculateTotalTax(taxSystems: seq<TaxSystem>) returns (totalTax: int)
    ensures totalTax == TotalTax(taxSystems)
    ensures taxSystems == [] ==> totalTax == 0
  {
    totalTax := 0;
    for i := 0 to |taxSystems|
      invariant totalTax == TotalTax(taxSystems[..i])
    {
      assert taxSystems[..i + 1] == taxSystems[..i] + [taxSystems[i]];
      TotalTaxAppend(taxSystems[..i], taxSystems[i]);
      totalTax := totalTax + CalculateTax(taxSystems[i]);
    }
    assert taxSystems[..|taxSystems|] == taxSystems;
  }

  /** The slice built by `main`. */
  function Scenario(): seq<TaxSystem>
  {
    [IndianTax(30, 1000), SingaporeTax(10, 2000), UsaTax(40, 500)]
  }

  /** 30% of 1000, 10% of 2000 and 40% of 500 come to 300, 200 and 200: 700 in all. */
  lemma ScenarioTotal()
    ensures Taxes(Scenario()) == [300, 200, 200]
    ensures TotalTax(Scenario()) == 700
  {
  }

  /** `main`: prints the total of the three taxes. */
  method Run() returns (trace: seq<string>)
    ensures trace == ["Total Tax is 700"]
  {
    var out := new Console();
    var totalTax := CalculateTotalTax(Scenario());
    ScenarioTotal();
    assert totalTax == 700;
    assert Decimal.FormatNat(7) == "7";
    assert Decimal.FormatNat(70) == "70";
    assert Decimal.FormatInt(700) == "700";
    var line := "Total Tax is " + Decimal.FormatInt(totalTax);
    assert line == "Total Tax is 700";
    out.Println(line);
    trace := out.lines;
  }
}
