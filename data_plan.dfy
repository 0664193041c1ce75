/** Data plan pricing (src/unl/soc/DataPlan.java): the base price is a
    price per gigabyte, and the plan is taxed at 5.5 %. */
module DataPlans {
  import opened Items

  const TaxPercentage: real := 0.055

  /** DataPlan(uniqueCode, name, pricePerGB): the catalog plan, no gigabytes. */
  function CatalogDataPlan(code: string, name: string, pricePerGB: real): (d: Item)
    ensures d.DataPlan? && d.code == code && d.name == name
    ensures PricePerGB(d) == pricePerGB && d.totalGB == 0.0
    ensures GrossPrice(d) == 0.0 && TotalTax(d) == 0.0
  {
    DataPlan(code, name, pricePerGB, 0.0)
  }

  /** DataPlan(item, totalGB): the sale-line copy keeps code, name and base
      price of the catalog item and records the gigabytes sold. */
  function DataPlanOf(item: Item, totalGB: real): (d: Item)
    ensures d.DataPlan? && d.code == item.code && d.name == item.name
    ensures PricePerGB(d) == BasePrice(item) && d.totalGB == totalGB
    ensures GrossPrice(d) == BasePrice(item) * totalGB
  {
    DataPlan(item.code, item.name, BasePrice(item), totalGB)
  }

  /** getPricePerGB: the base price. */
  function PricePerGB(d: Item): (r: real)
    requires d.DataPlan?
    ensures r == d.basePrice
  {
    BasePrice(d)
  }

  /** getGrossPrice: price per gigabyte times gigabytes, not rounded. */
  function GrossPrice(d: Item): (r: real)
    requires d.DataPlan?
    ensures d.basePrice >= 0.0 && d.totalGB >= 0.0 ==> r >= 0.0
    ensures d.totalGB == 0.0 ==> r == 0.0
  {
    BasePrice(d) * d.totalGB
  }

  /** getTotalTax: 5.5 % of the gross price, not rounded. */
  function TotalTax(d: Item): (r: real)
    requires d.DataPlan?
    ensures d.basePrice >= 0.0 && d.totalGB >= 0.0 ==> 0.0 <= r <= GrossPrice(d)
  {
    GrossPrice(d) * TaxPercentage
  }

  /** equals: both are data plans with the same base price, gigabytes and
      gross price; code and name are not compared. */
  predicate Equals(d: Item, o: Item)
    requires d.DataPlan?
    ensures Equals(d, o) ==> o.DataPlan? && d.totalGB == o.totalGB && PricePerGB(d) == PricePerGB(o)
    ensures Equals(d, o) ==> GrossPrice(d) == GrossPrice(o) && TotalTax(d) == TotalTax(o)
  {
    o.DataPlan? && BasePrice(d) == BasePrice(o) && d.totalGB == o.totalGB
    && GrossPrice(d) == GrossPrice(o)
  }

  /** The gross price comparison in equals is implied by the other two, so
      equality is exactly "same price per GB and same gigabytes". */
  lemma EqualsIgnoresCodeAndName(d: Item, o: Item)
    requires d.DataPlan?
    ensures Equals(d, o) <==> o.DataPlan? && d.basePrice == o.basePrice && d.totalGB == o.totalGB
    ensures o.DataPlan? ==> (Equals(d, o) <==> Equals(o, d))
  {
  }

  /** Base 10.00 with 5 GB: gross 50.00 and tax 2.75. */
  lemma WorkedExample()
    ensures var d := DataPlanOf(CatalogDataPlan("D1", "data", 10.0), 5.0);
            GrossPrice(d) == 50.0 && TotalTax(d) == 2.75
  {
  }
}
