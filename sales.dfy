/** A sale (src/unl/soc/Sale.java): the store, customer, salesman and date
    it was made on, and the list of items it grew line by line. */
module Sales {
  import Money
  import Calendar
  import opened Persons
  import opened Items
  import ProductLeases
  import DataPlans

  /** A store as the loaders build it: code, address and the manager found
      for its manager code (null when none was found). */
  datatype Store = Store(code: string, address: Address, manager: Person?)

  /** Gross price and tax of the item kinds whose classes are not part of
      this model (purchase, service, voice plan). */
  datatype UnseenPricing = UnseenPricing(gross: Item -> real, tax: Item -> real)

  /** The item can be priced: a lease's gross price divides by its period. */
  predicate Priceable(it: Item) {
    it.ProductLease? ==> ProductLeases.PeriodInMonths(it) != 0
  }

  predicate AllPriceable(items: seq<Item>) {
    forall i :: 0 <= i < |items| ==> Priceable(items[i])
  }

  /** item.getGrossPrice(), dispatched on the item's kind. */
  function ItemGross(p: UnseenPricing, it: Item): (r: real)
    requires Priceable(it)
    ensures it.ProductLease? ==> r == ProductLeases.FirstMonthPrice(it)
    ensures it.DataPlan? ==> r == BasePrice(it) * it.totalGB
    ensures !it.ProductLease? && !it.DataPlan? ==> r == p.gross(it)
  {
    match it
    case ProductLease(_, _, _, _, _) => ProductLeases.GrossPrice(it)
    case DataPlan(_, _, _, _) => DataPlans.GrossPrice(it)
    case _ => p.gross(it)
  }

  /** item.getTotalTax(), dispatched on the item's kind. */
  function ItemTax(p: UnseenPricing, it: Item): (r: real)
    ensures it.ProductLease? ==> r == 0.0
    ensures it.DataPlan? ==> r == DataPlans.GrossPrice(it) * DataPlans.TaxPercentage
    ensures !it.ProductLease? && !it.DataPlan? ==> r == p.tax(it)
  {
    match it
    case ProductLease(_, _, _, _, _) => ProductLeases.TotalTax(it)
    case DataPlan(_, _, _, _) => DataPlans.TotalTax(it)
    case _ => p.tax(it)
  }

  /** The unrounded total the gross-price loop accumulates, item by item in
      list order. */
  function SumGross(p: UnseenPricing, items: seq<Item>): real
    requires AllPriceable(items)
  {
    if items == [] then 0.0
    else SumGross(p, items[..|items| - 1]) + ItemGross(p, items[|items| - 1])
  }

  /** The unrounded total the tax loop accumulates. */
  function SumTax(p: UnseenPricing, items: seq<Item>): real {
    if items == [] then 0.0
    else SumTax(p, items[..|items| - 1]) + ItemTax(p, items[|items| - 1])
  }

  /** getGrossPrice's value: the sum rounded half up to cents, once. */
  function GrossTotal(p: UnseenPricing, items: seq<Item>): (r: real)
    requires AllPriceable(items)
    ensures Money.IsCents(r)
    ensures r - 0.005 <= SumGross(p, items) < r + 0.005
  {
    Money.RoundCents(SumGross(p, items))
  }

  /** getTotalTax's value: the tax sum rounded half up to cents, once. */
  function TaxTotal(p: UnseenPricing, items: seq<Item>): (r: real)
    ensures Money.IsCents(r)
    ensures r - 0.005 <= SumTax(p, items) < r + 0.005
  {
    Money.RoundCents(SumTax(p, items))
  }

  /** getNetPrice's value: rounded gross plus rounded tax. It is a whole
      number of cents and within a cent of the exact sum. */
  function Net(p: UnseenPricing, items: seq<Item>): (r: real)
    requires AllPriceable(items)
    ensures Money.IsCents(r)
    ensures r - 0.01 <= SumGross(p, items) + SumTax(p, items) < r + 0.01
  {
    Money.SumOfCents(GrossTotal(p, items), TaxTotal(p, items));
    GrossTotal(p, items) + TaxTotal(p, items)
  }

  /** Both sums distribute over concatenation: adding items to a sale adds
      their prices to its totals. */
  lemma {:induction false} SumAppend(p: UnseenPricing, a: seq<Item>, b: seq<Item>)
    requires AllPriceable(a) && AllPriceable(b)
    ensures AllPriceable(a + b)
    ensures SumGross(p, a + b) == SumGross(p, a) + SumGross(p, b)
    ensures SumTax(p, a + b) == SumTax(p, a) + SumTax(p, b)
    decreases |b|
  {
    if b == [] {
      assert a + b == a;
    } else {
      var b' := b[..|b| - 1];
      assert (a + b)[..|a + b| - 1] == a + b';
      assert (a + b)[|a + b| - 1] == b[|b| - 1];
      SumAppend(p, a, b');
    }
  }

  /** When no item has a negative gross price, neither has the sale. */
  lemma {:induction false} GrossNonNegative(p: UnseenPricing, items: seq<Item>)
    requires AllPriceable(items)
    requires forall i :: 0 <= i < |items| ==> ItemGross(p, items[i]) >= 0.0
    ensures SumGross(p, items) >= 0.0
    ensures GrossTotal(p, items) >= 0.0
  {
    if items != [] {
      GrossNonNegative(p, items[..|items| - 1]);
    }
    Money.RoundCentsIdempotent(0.0);
    Money.RoundCentsMonotonic(0.0, SumGross(p, items));
  }

  /** Double.compare(x, y): -1, 0 or 1 as x is below, equal to or above y. */
  function Compare(x: real, y: real): (r: int)
    ensures r == -1 || r == 0 || r == 1
    ensures r < 0 <==> x < y
    ensures r == 0 <==> x == y
    ensures r > 0 <==> x > y
  {
    if x < y then -1 else if x == y then 0 else 1
  }

  /** compareSales on two net prices: Double.compare(net2, net1), so the
      sale with the larger net price comes first. */
  function CompareNet(net1: real, net2: real): (r: int)
    ensures r < 0 <==> net1 > net2
    ensures r == 0 <==> net1 == net2
    ensures r > 0 <==> net1 < net2
  {
    Compare(net2, net1)
  }

  /** compareSales is a comparator: antisymmetric and transitive. */
  lemma CompareNetIsComparator(a: real, b: real, c: real)
    ensures CompareNet(a, b) == -CompareNet(b, a)
    ensures CompareNet(a, b) <= 0 && CompareNet(b, c) <= 0 ==> CompareNet(a, c) <= 0
  {
  }

  /** item.equals(other) for the item kinds: data plans and leases use their
      own equals (the lease one as corrected in ProductLeases); the kinds not
      part of this model compare as values. */
  predicate ItemEquals(a: Item, b: Item) {
    match a
    case DataPlan(_, _, _, _) => DataPlans.Equals(a, b)
    case ProductLease(_, _, _, _, _) => ProductLeases.Equals(a, b)
    case _ => a == b
  }

  /** List.equals: same length and equal elements position by position. */
  predicate ItemsEqual(xs: seq<Item>, ys: seq<Item>) {
    |xs| == |ys| && forall i :: 0 <= i < |xs| ==> ItemEquals(xs[i], ys[i])
  }

  /** item.equals(other) as the code is written: a lease compares its stored
      price with the other's rounded base price (ProductLeases.EqualsAsWritten). */
  predicate ItemEqualsAsWritten(a: Item, b: Item) {
    match a
    case DataPlan(_, _, _, _) => DataPlans.Equals(a, b)
    case ProductLease(_, _, _, _, _) => ProductLeases.EqualsAsWritten(a, b)
    case _ => a == b
  }

  /** List.equals over the as-written item equality. */
  predicate ItemsEqualAsWritten(xs: seq<Item>, ys: seq<Item>) {
    |xs| == |ys| && forall i :: 0 <= i < |xs| ==> ItemEqualsAsWritten(xs[i], ys[i])
  }

  /** An item the as-written equals treats like the corrected one: anything
      but a lease whose stored price is not whole cents. */
  predicate CentExact(it: Item) {
    it.ProductLease? ==> Money.IsCents(it.price)
  }

  /** The as-written item equality implies the corrected one, and the two
      agree whenever the receiver is cent-exact. */
  lemma ItemEqualsAgree(a: Item, b: Item)
    ensures ItemEqualsAsWritten(a, b) ==> ItemEquals(a, b)
    ensures CentExact(a) ==> (ItemEquals(a, b) <==> ItemEqualsAsWritten(a, b))
  {
    if a.ProductLease? && Money.IsCents(a.price) {
      ProductLeases.BasePriceIdempotent(a);
    }
  }

  /** Item equality is reflexive and symmetric for every kind. */
  lemma ItemEqualsSymmetric(a: Item, b: Item)
    ensures ItemEquals(a, a)
    ensures ItemEquals(a, b) ==> ItemEquals(b, a)
  {
    if a.ProductLease? && b.ProductLease? {
      ProductLeases.EqualsIsEquivalence(a, b, b);
    }
  }

  /** What a sale is made of when it is created: everything but its id and
      its items. */
  datatype SaleRecord = SaleRecord(code: string, store: Store, customer: Person?,
                                   salesman: Person?, date: Calendar.Date)

  class Sale {
    const id: int
    const code: string
    const store: Store
    const customer: Person?
    const salesman: Person?
    const date: Calendar.Date
    /** The sale lines, in the order they were added. */
    var items: seq<Item>

    /** Sale(uniqueCode, store, customer, salesman, date): no item yet and
        the id keeps Java's default 0. */
    constructor (code: string, store: Store, customer: Person?, salesman: Person?,
                 date: Calendar.Date)
      ensures id == 0 && Header() == SaleRecord(code, store, customer, salesman, date)
      ensures items == []
    {
      id := 0;
      this.code := code;
      this.store := store;
      this.customer := customer;
      this.salesman := salesman;
      this.date := date;
      items := [];
    }

    /** Sale(id, uniqueCode, store, customer, salesman, date). */
    constructor WithId(id: int, code: string, store: Store, customer: Person?,
                       salesman: Person?, date: Calendar.Date)
      ensures this.id == id && Header() == SaleRecord(code, store, customer, salesman, date)
      ensures items == []
    {
      this.id := id;
      this.code := code;
      this.store := store;
      this.customer := customer;
      this.salesman := salesman;
      this.date := date;
      items := [];
    }

    function Header(): SaleRecord {
      SaleRecord(code, store, customer, salesman, date)
    }

    /** addItem: one more line at the end. */
    method AddItem(it: Item)
      modifies this
      ensures items == old(items) + [it]
    {
      items := items + [it];
    }

    /** getItemsList: a copy of the lines. */
    method ItemsList() returns (r: seq<Item>)
      ensures r == items
    {
      r := items;
    }

    /** getGrossPrice: add up the items' gross prices, round once. */
    method GrossPrice(p: UnseenPricing) returns (g: real)
      requires AllPriceable(items)
      ensures g == GrossTotal(p, items)
    {
      var total := 0.0;
      var i := 0;
      while i < |items|
        invariant 0 <= i <= |items|
        invariant total == SumGross(p, items[..i])
      {
        assert items[..i + 1][..i] == items[..i];
        total := total + ItemGross(p, items[i]);
        i := i + 1;
      }
      assert items[..i] == items;
      g := Money.RoundCents(total);
    }

    /** getTotalTax: add up the items' taxes, round once. */
    method TotalTax(p: UnseenPricing) returns (t: real)
      ensures t == TaxTotal(p, items)
    {
      var total := 0.0;
      var i := 0;
      while i < |items|
        invariant 0 <= i <= |items|
        invariant total == SumTax(p, items[..i])
      {
        assert items[..i + 1][..i] == items[..i];
        total := total + ItemTax(p, items[i]);
        i := i + 1;
      }
      assert items[..i] == items;
      t := Money.RoundCents(total);
    }

    /** getNetPrice: rounded gross plus rounded tax. */
    method NetPrice(p: UnseenPricing) returns (n: real)
      requires AllPriceable(items)
      ensures n == Net(p, items)
    {
      var g := GrossPrice(p);
      var t := TotalTax(p);
      n := g + t;
    }

    /** equals, with the corrected lease equality: code, store, customer,
        salesman, date and item lists agree; the id is ignored, so a sale
        with the same header and items equals this one whatever its id. */
    predicate Equals(other: Sale)
      reads this, other, customer, salesman, other.customer, other.salesman
      ensures Header() == other.Header() && items == other.items ==> Equals(other)
    {
      ItemsEqualReflexive(items);
      code == other.code && store == other.store
      && SamePerson(customer, other.customer) && SamePerson(salesman, other.salesman)
      && date == other.date && ItemsEqual(items, other.items)
    }

    /** equals as the code is written: the same object, or the fields agree
        and the item lists agree under the as-written item equality. */
    predicate EqualsAsWritten(other: Sale)
      reads this, other, customer, salesman, other.customer, other.salesman
      ensures EqualsAsWritten(other) && this != other ==> Equals(other)
    {
      ItemsAgree(items, other.items);
      this == other
      || (code == other.code && store == other.store
          && SamePerson(customer, other.customer) && SamePerson(salesman, other.salesman)
          && date == other.date && ItemsEqualAsWritten(items, other.items))
    }
  }

  /** An item list equals itself. */
  lemma ItemsEqualReflexive(xs: seq<Item>)
    ensures ItemsEqual(xs, xs)
  {
    forall i | 0 <= i < |xs|
      ensures ItemEquals(xs[i], xs[i])
    {
      ItemEqualsSymmetric(xs[i], xs[i]);
    }
  }

  /** As-written list equality implies the corrected one, and the two agree
      when every item of the first list is cent-exact. */
  lemma ItemsAgree(xs: seq<Item>, ys: seq<Item>)
    ensures ItemsEqualAsWritten(xs, ys) ==> ItemsEqual(xs, ys)
    ensures (forall i :: 0 <= i < |xs| ==> CentExact(xs[i])) ==> (ItemsEqual(xs, ys) <==> ItemsEqualAsWritten(xs, ys))
  {
    forall i | 0 <= i < |xs| && i < |ys|
      ensures ItemEqualsAsWritten(xs[i], ys[i]) ==> ItemEquals(xs[i], ys[i])
      ensures CentExact(xs[i]) ==> (ItemEquals(xs[i], ys[i]) <==> ItemEqualsAsWritten(xs[i], ys[i]))
    {
      ItemEqualsAgree(xs[i], ys[i]);
    }
  }

  /** compareSales(sale1, sale2): Double.compare of the second sale's net
      price with the first's, so sorting puts the larger sale first. */
  method CompareSales(p: UnseenPricing, sale1: Sale, sale2: Sale) returns (r: int)
    requires AllPriceable(sale1.items) && AllPriceable(sale2.items)
    ensures r == -1 || r == 0 || r == 1
    ensures r < 0 <==> Net(p, sale1.items) > Net(p, sale2.items)
    ensures r == 0 <==> Net(p, sale1.items) == Net(p, sale2.items)
    ensures r > 0 <==> Net(p, sale1.items) < Net(p, sale2.items)
  {
    var n1 := sale1.NetPrice(p);
    var n2 := sale2.NetPrice(p);
    r := CompareNet(n1, n2);
  }

  /** A sale equals itself even when its leases carry prices that are not
      whole cents (the as-written lease equals would break this) and
      equality of sales is symmetric. */
  lemma {:induction false} SaleEqualsSymmetric(s: Sale, t: Sale)
    ensures s.Equals(s)
    ensures s.Equals(t) ==> t.Equals(s)
  {
    forall i | 0 <= i < |s.items|
      ensures ItemEquals(s.items[i], s.items[i])
    {
      ItemEqualsSymmetric(s.items[i], s.items[i]);
    }
    if s.Equals(t) {
      forall i | 0 <= i < |t.items|
        ensures ItemEquals(t.items[i], s.items[i])
      {
        ItemEqualsSymmetric(s.items[i], t.items[i]);
      }
    }
  }

  /** As written, sale equality inherits the lease's one-sided equals: of two
      distinct sales with the same header, one holding a lease stored at 1.00
      and the other the same lease stored at 1.004, the first equals the
      second but not the other way round; the corrected equality holds both
      ways. */
  lemma SaleEqualsAsWrittenIsNotSymmetric(s: Sale, t: Sale)
    requires s != t && s.Header() == t.Header()
    requires s.items == [ProductLease("L1", "lease", 1.0, Calendar.Date(2024, 1, 1), Calendar.Date(2024, 1, 1))]
    requires t.items == [ProductLease("L1", "lease", 1.004, Calendar.Date(2024, 1, 1), Calendar.Date(2024, 1, 1))]
    ensures s.EqualsAsWritten(t) && !t.EqualsAsWritten(s)
    ensures s.Equals(t) && t.Equals(s)
  {
    ProductLeases.EqualsAsWrittenIsNotSymmetric();
    ProductLeases.EqualsIsEquivalence(s.items[0], t.items[0], t.items[0]);
  }

  /** When every item of a sale is cent-exact, its as-written equality is the
      corrected one. */
  lemma SaleEqualsAgree(s: Sale, t: Sale)
    requires forall i :: 0 <= i < |s.items| ==> CentExact(s.items[i])
    ensures s.EqualsAsWritten(t) <==> s.Equals(t)
  {
    ItemsAgree(s.items, t.items);
  }

  /** A data plan of 5 GB at 10.00 and a six-month lease of 1200.00:
      gross 50.00 + 300.00, tax 2.75, net 352.75, whatever the unseen
      kinds cost. */
  lemma WorkedExample(p: UnseenPricing)
    ensures var d := DataPlans.DataPlanOf(DataPlans.CatalogDataPlan("D1", "data", 10.0), 5.0);
            var l := ProductLease("L1", "lease", 1200.0,
                                  Calendar.Date(2024, 1, 1), Calendar.Date(2024, 7, 1));
            AllPriceable([d, l]) && Net(p, [d, l]) == 352.75
  {
    var d := DataPlans.DataPlanOf(DataPlans.CatalogDataPlan("D1", "data", 10.0), 5.0);
    var l := ProductLease("L1", "lease", 1200.0,
                          Calendar.Date(2024, 1, 1), Calendar.Date(2024, 7, 1));
    ProductLeases.WorkedExample();
    DataPlans.WorkedExample();
    assert [d, l][..1] == [d] && [d][..0] == [];
    assert SumGross(p, [d]) == ItemGross(p, d) == 50.0;
    assert ItemGross(p, l) == 300.0;
    assert SumTax(p, [d]) == ItemTax(p, d) == 2.75;
    assert SumGross(p, [d, l]) == 350.0;
    assert SumTax(p, [d, l]) == 2.75;
    Money.RoundCentsIdempotent(350.0);
    Money.RoundCentsIdempotent(2.75);
  }
}
