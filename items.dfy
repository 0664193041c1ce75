/** The item hierarchy: a catalog definition and the per-sale copies made
    from it. Only ProductLease and DataPlan are part of this model's source;
    the Item base class, ProductPurchase, Service and VoicePlan are not, so
    their constructors here copy what the visible callers pass them and
    their prices stay abstract (see Sales.UnseenPricing). */
module Items {
  import Money
  import Calendar
  import Persons

  datatype Item =
    | ProductPurchase(code: string, name: string, basePrice: real)
    | ProductLease(code: string, name: string, price: real,
                   startDate: Calendar.Date, endDate: Calendar.Date)
    | Service(code: string, name: string, basePrice: real,
              totalHours: real, employee: Persons.Person?)
    | DataPlan(code: string, name: string, basePrice: real, totalGB: real)
    | VoicePlan(code: string, name: string, basePrice: real,
                phoneNumber: string, totalPeriod: real)

  /** getBasePrice: the stored base price, except that a lease rounds its
      stored price to cents. */
  function BasePrice(it: Item): (r: real)
    ensures it.ProductLease? ==> Money.IsCents(r) && r - 0.005 <= it.price < r + 0.005
    ensures !it.ProductLease? ==> r == it.basePrice
  {
    if it.ProductLease? then Money.RoundCents(it.price) else it.basePrice
  }

  /** The catalog Service, as built by the type switch of the item loader:
      no hours and no employee yet. */
  function CatalogService(code: string, name: string, basePrice: real): Item {
    Service(code, name, basePrice, 0.0, null)
  }

  /** The catalog VoicePlan: no phone number and no period yet. */
  function CatalogVoicePlan(code: string, name: string, basePrice: real): Item {
    VoicePlan(code, name, basePrice, "", 0.0)
  }

  /** new ProductPurchase(item): the sale-line copy of a purchasable item. */
  function PurchaseOf(item: Item): Item {
    ProductPurchase(item.code, item.name, BasePrice(item))
  }

  /** new Service(item, totalHours, employee). */
  function ServiceOf(item: Item, totalHours: real, employee: Persons.Person?): Item {
    Service(item.code, item.name, BasePrice(item), totalHours, employee)
  }

  /** new VoicePlan(item, phoneNumber, totalPeriod). */
  function VoicePlanOf(item: Item, phoneNumber: string, totalPeriod: real): Item {
    VoicePlan(item.code, item.name, BasePrice(item), phoneNumber, totalPeriod)
  }
}
