/** The GST engine: slab lookup, one rounding per line, and the central/state split. */
module Gst {
  import opened Common
  import opened Rounding

  datatype Category = Accommodation | Restaurant | Saas | Other

  /** A rate band; no bound means it has no ceiling. */
  datatype Slab = Slab(maxAmountPaise: Option<int>, ratePercent: int)

  datatype Breakdown = Breakdown(cgst: int, sgst: int, igst: int, tax: int, total: int)

  const HOTEL_SLABS := [Slab(Some(750000), 12), Slab(None, 18)]
  const RESTAURANT_SLABS := [Slab(None, 5)]
  const SAAS_SLABS := [Slab(None, 18)]
  const OTHER_SLABS := [Slab(None, 18)]

  function SlabsFor(category: Category): (slabs: seq<Slab>)
    ensures |slabs| > 0
  {
    match category
    case Accommodation => HOTEL_SLABS
    case Restaurant => RESTAURANT_SLABS
    case Saas => SAAS_SLABS
    case Other => OTHER_SLABS
  }

  function FirstMatchingRate(slabs: seq<Slab>, amount: int): int
    requires |slabs| > 0
  {
    if slabs[0].maxAmountPaise == None || amount <= slabs[0].maxAmountPaise.value then slabs[0].ratePercent
    else if |slabs| == 1 then slabs[0].ratePercent
    else FirstMatchingRate(slabs[1..], amount)
  }

  function ResolveRate(category: Category, amount: int): int {
    FirstMatchingRate(SlabsFor(category), amount)
  }

  /** The statutory rates, written out: the reference the slab walk is measured against. */
  lemma RateTable(category: Category, amount: int)
    ensures ResolveRate(category, amount)
         == if category == Restaurant then 5
            else if category == Accommodation && amount <= 750000 then 12
            else 18
  {
    if category == Accommodation {
      assert HOTEL_SLABS[1..] == SAAS_SLABS;
      assert FirstMatchingRate(HOTEL_SLABS[1..], amount) == 18;
    }
  }

  /** One rounding, then a split that cannot drift and never differs by more than one paisa. */
  function Compute(taxable: int, ratePercent: int, intraState: bool): (b: Breakdown)
    ensures b.cgst + b.sgst + b.igst == b.tax
    ensures intraState ==> b.igst == 0 && b.sgst <= b.cgst <= b.sgst + 1
    ensures !intraState ==> b.cgst == 0 && b.sgst == 0
    ensures -100 < 200 * b.tax - 2 * (taxable * ratePercent) <= 100
    ensures b.total - b.tax == taxable
  {
    var tax := RoundDiv(taxable * ratePercent, 100);
    if intraState then
      var sgst := tax / 2;
      Breakdown(tax - sgst, sgst, 0, tax, taxable + tax)
    else
      Breakdown(0, 0, tax, tax, taxable + tax)
  }

  /** `slabBasis`, when given, decides the slab in place of the taxed amount. */
  function ComputeForCategory(category: Category, taxable: int, slabBasis: Option<int>, intraState: bool): Breakdown {
    var basis := slabBasis.GetOr(taxable);
    Compute(taxable, ResolveRate(category, basis), intraState)
  }

  /** The tax owed does not depend on where the buyer is registered: only the split does. */
  lemma TaxIgnoresPlaceOfSupply(category: Category, taxable: int, basis: Option<int>, here: bool, there: bool)
    ensures ComputeForCategory(category, taxable, basis, here).tax == ComputeForCategory(category, taxable, basis, there).tax
  {}

  /** Within one rate the total payable never falls when the amount rises. */
  lemma TotalMonotoneAtRate(a: int, b: int, rate: int, intraState: bool)
    requires a <= b && rate >= 0
    ensures Compute(a, rate, intraState).tax <= Compute(b, rate, intraState).tax
  {
    assert a * rate <= b * rate by { assert (b - a) * rate >= 0; }
    RoundDivMonotone(a * rate, b * rate, 100);
  }

  /** A dearer supply never costs less in all, even across the slab boundary and for credits. */
  lemma TotalMonotone(category: Category, a: int, b: int, intraState: bool)
    requires a <= b
    ensures ComputeForCategory(category, a, None, intraState).total
         <= ComputeForCategory(category, b, None, intraState).total
  {
    RateTable(category, a);
    RateTable(category, b);
    if ResolveRate(category, a) == ResolveRate(category, b) {
      TotalMonotoneAtRate(a, b, ResolveRate(category, a), intraState);
    } else {
      assert a <= 750000 < b;
      TotalMonotoneAtRate(a, b, 12, intraState);
      RoundDivMonotone(b * 12, b * 18, 100);
    }
  }

  function SumTax(amounts: seq<int>, rate: int, intraState: bool): int {
    if amounts == [] then 0 else Compute(amounts[0], rate, intraState).tax + SumTax(amounts[1..], rate, intraState)
  }

  function Sum(amounts: seq<int>): int {
    if amounts == [] then 0 else amounts[0] + Sum(amounts[1..])
  }

  /** Rounding line by line strays from the exact tax on the sum by at most half a paisa a line. */
  lemma {:induction false} LineRoundingBound(amounts: seq<int>, rate: int, intraState: bool)
    ensures -100 * |amounts| <= 200 * SumTax(amounts, rate, intraState) - 2 * (rate * Sum(amounts)) <= 100 * |amounts|
  {
    if amounts != [] {
      LineRoundingBound(amounts[1..], rate, intraState);
      var x, rest := amounts[0], Sum(amounts[1..]);
      assert rate * (x + rest) == x * rate + rate * rest;
    }
  }

  // ---------- Invoice amounts ----------

  datatype InvoiceInput = InvoiceInput(
    subtotal: int,
    tax: Option<int>,
    discount: Option<int>,
    category: Option<Category>,
    intraState: Option<bool>,
    unitAmount: Option<int>)

  datatype InvoiceAmounts = InvoiceAmounts(subtotal: int, cgst: int, sgst: int, igst: int, tax: int,
      discount: int, total: int)

  /** The money columns of an invoice: an explicit tax is split as given, otherwise the engine decides. */
  function InvoiceFor(i: InvoiceInput): (a: InvoiceAmounts)
    ensures a.cgst + a.sgst + a.igst == a.tax
    ensures if i.intraState.GetOr(true) then a.igst == 0 && a.sgst <= a.cgst <= a.sgst + 1 else a.cgst == a.sgst == 0
    ensures a.subtotal == i.subtotal && a.discount == i.discount.GetOr(0)
    ensures a.total == i.subtotal + a.cgst + a.sgst + a.igst - i.discount.GetOr(0)
    ensures if i.tax.Some? then a.tax == i.tax.value
            else
              var rate := ResolveRate(i.category.GetOr(Accommodation), i.unitAmount.GetOr(i.subtotal));
              -100 < 200 * a.tax - 2 * (i.subtotal * rate) <= 100
  {
    var intra := i.intraState.GetOr(true);
    var discount := i.discount.GetOr(0);
    if i.tax.Some? then
      var tax := i.tax.value;
      var sgst := if intra then tax / 2 else 0;
      var cgst := if intra then tax - sgst else 0;
      var igst := if intra then 0 else tax;
      InvoiceAmounts(i.subtotal, cgst, sgst, igst, tax, discount, i.subtotal + tax - discount)
    else
      var category := i.category.GetOr(Accommodation);
      var g := ComputeForCategory(category, i.subtotal, i.unitAmount, intra);
      InvoiceAmounts(i.subtotal, g.cgst, g.sgst, g.igst, g.tax, discount, i.subtotal + g.tax - discount)
  }
}
