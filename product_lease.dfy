/** Lease pricing (src/unl/soc/ProductLease.java): the sale records the
    first monthly instalment of base price plus a 50 % markup, spread over
    the whole months of the lease; a lease carries no separate tax. */
module ProductLeases {
  import Money
  import Calendar
  import opened Records
  import opened Items

  /** new ProductLease(item, startDate, endDate): code, name and base price
      come from the leased catalog item, and both dates are parsed. */
  function LeaseOf(item: Item, startDate: string, endDate: string, p: Parsers): (r: Result<Item>)
    ensures r.Ok? <==> p.date(startDate).Some? && p.date(endDate).Some?
    ensures p.date(startDate).None? ==> r == Err(BadDate(startDate))
    ensures p.date(startDate).Some? && p.date(endDate).None? ==> r == Err(BadDate(endDate))
    ensures r.Ok? ==> r.value.ProductLease? && r.value.code == item.code && r.value.name == item.name
                      && r.value.startDate == p.date(startDate).value
                      && r.value.endDate == p.date(endDate).value
    ensures r.Ok? ==> r.value.price == BasePrice(item)
    ensures r.Ok? && Money.IsCents(BasePrice(item)) ==> BasePrice(r.value) == BasePrice(item)
  {
    var start :- ParseDate(p, startDate);
    var end :- ParseDate(p, endDate);
    var lease := ProductLease(item.code, item.name, BasePrice(item), start, end);
    if Money.IsCents(BasePrice(item)) then
      Money.RoundCentsIdempotent(BasePrice(item));
      Ok(lease)
    else Ok(lease)
  }

  /** getBasePrice of a lease is already a whole number of cents, and a
      price that is one already is returned unchanged. */
  lemma BasePriceIdempotent(l: Item)
    requires l.ProductLease?
    ensures Money.IsCents(BasePrice(l))
    ensures Money.IsCents(l.price) ==> BasePrice(l) == l.price
  {
    if Money.IsCents(l.price) {
      Money.RoundCentsIdempotent(l.price);
    }
  }

  /** getPeriodInMonths: years * 12 + months of Period.between(start, end),
      the whole months of the lease, counted by day of month. */
  function PeriodInMonths(l: Item): (r: int)
    requires l.ProductLease?
    ensures Calendar.NotAfter(l.startDate, l.endDate) ==>
              r >= 0 && Calendar.MonthsFit(l.startDate, l.endDate, r)
              && !Calendar.MonthsFit(l.startDate, l.endDate, r + 1)
  {
    if Calendar.NotAfter(l.startDate, l.endDate) then
      Calendar.PeriodTruncates(l.startDate, l.endDate);
      Calendar.PeriodInMonths(l.startDate, l.endDate)
    else Calendar.PeriodInMonths(l.startDate, l.endDate)
  }

  /** getMarkupPrice: half the base price, rounded half up to cents. */
  function MarkupPrice(l: Item): (r: real)
    requires l.ProductLease?
    ensures Money.IsCents(r)
    ensures r - 0.005 <= BasePrice(l) / 2.0 < r + 0.005
  {
    Money.RoundCents(BasePrice(l) / 2.0)
  }

  /** getTotalLeasePrice: markup plus base price, both in cents already. */
  function TotalLeasePrice(l: Item): (r: real)
    requires l.ProductLease?
    ensures Money.IsCents(r)
    ensures r - 0.005 <= 1.5 * BasePrice(l) < r + 0.005
  {
    Money.SumOfCents(MarkupPrice(l), BasePrice(l));
    MarkupPrice(l) + BasePrice(l)
  }

  /** getFirstMonthPrice: the total spread over the months, rounded half up
      to cents. The Java code divides by the period, so it must not be 0. */
  function FirstMonthPrice(l: Item): (r: real)
    requires l.ProductLease? && PeriodInMonths(l) != 0
    ensures Money.IsCents(r)
    ensures r - 0.005 <= TotalLeasePrice(l) / PeriodInMonths(l) as real < r + 0.005
  {
    Money.RoundCents(TotalLeasePrice(l) / PeriodInMonths(l) as real)
  }

  /** getGrossPrice: a lease sale records the first instalment only. */
  function GrossPrice(l: Item): (r: real)
    requires l.ProductLease? && PeriodInMonths(l) != 0
    ensures r == FirstMonthPrice(l)
  {
    FirstMonthPrice(l)
  }

  /** getTotalTax: always zero. */
  function TotalTax(l: Item): (r: real)
    requires l.ProductLease?
    ensures r == 0.0
  {
    0.0
  }

  /** A lease of a non-negative price over a forward period has a
      non-negative instalment. */
  lemma {:induction false} GrossPriceNonNegative(l: Item)
    requires l.ProductLease? && l.price >= 0.0 && PeriodInMonths(l) > 0
    ensures GrossPrice(l) >= 0.0
  {
    Money.RoundCentsMonotonic(0.0, l.price);
    Money.RoundCentsIdempotent(0.0);
    assert BasePrice(l) >= 0.0;
    Money.RoundCentsMonotonic(0.0, BasePrice(l) / 2.0);
    assert TotalLeasePrice(l) >= 0.0;
    Money.RoundCentsMonotonic(0.0, TotalLeasePrice(l) / PeriodInMonths(l) as real);
  }

  /** Base 1200.00 from 2024-01-01 to 2024-07-01: 6 months, markup 600.00,
      total 1800.00, first month and gross 300.00, tax 0. */
  lemma WorkedExample()
    ensures var l := ProductLease("L1", "lease", 1200.0,
                                  Calendar.Date(2024, 1, 1), Calendar.Date(2024, 7, 1));
            && PeriodInMonths(l) == 6
            && MarkupPrice(l) == 600.0
            && TotalLeasePrice(l) == 1800.0
            && GrossPrice(l) == 300.0
            && TotalTax(l) == 0.0
  {
    var l := ProductLease("L1", "lease", 1200.0,
                          Calendar.Date(2024, 1, 1), Calendar.Date(2024, 7, 1));
    Calendar.PeriodInMonthsIsAdjustedDistance(l.startDate, l.endDate);
    Money.RoundCentsIdempotent(1200.0);
    Money.RoundCentsIdempotent(600.0);
    Money.RoundCentsIdempotent(300.0);
  }

  /** equals as written: the other object is a lease, this lease's stored
      price equals the other's getBasePrice() (which is rounded), and the
      dates agree. Code and name are not compared. A lease whose stored price
      is not whole cents therefore equals no lease, not even a copy of itself. */
  predicate EqualsAsWritten(l: Item, o: Item)
    requires l.ProductLease?
    ensures EqualsAsWritten(l, o) ==> Money.IsCents(l.price)
  {
    o.ProductLease? && l.price == BasePrice(o) && l.startDate == o.startDate && l.endDate == o.endDate
  }

  /** Comparing a raw price with a rounded one makes equals one-sided: a
      lease priced 1.00 equals one priced 1.004, but not the other way round. */
  lemma EqualsAsWrittenIsNotSymmetric()
    ensures var d := Calendar.Date(2024, 1, 1);
            var a := ProductLease("L1", "lease", 1.0, d, d);
            var b := ProductLease("L1", "lease", 1.004, d, d);
            EqualsAsWritten(a, b) && !EqualsAsWritten(b, a)
  {
    Money.RoundCentsUnique(1.004, 1.0);
    Money.RoundCentsIdempotent(1.0);
  }

  /** equals as evidently intended: both base prices as getBasePrice()
      returns them, and the dates. */
  predicate Equals(l: Item, o: Item)
    requires l.ProductLease?
  {
    o.ProductLease? && BasePrice(l) == BasePrice(o) && l.startDate == o.startDate && l.endDate == o.endDate
  }

  /** The corrected equals is an equivalence on leases and agrees with the
      written one whenever both prices are already whole cents. */
  lemma EqualsIsEquivalence(a: Item, b: Item, c: Item)
    requires a.ProductLease? && b.ProductLease? && c.ProductLease?
    ensures Equals(a, a)
    ensures Equals(a, b) <==> Equals(b, a)
    ensures Equals(a, b) && Equals(b, c) ==> Equals(a, c)
    ensures Money.IsCents(a.price) && Money.IsCents(b.price) ==> (Equals(a, b) <==> EqualsAsWritten(a, b))
  {
    BasePriceIdempotent(a);
    BasePriceIdempotent(b);
  }
}
