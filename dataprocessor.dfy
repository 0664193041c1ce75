/** The loaders and the sale assembler of src/unl/soc/DataProcessor.java,
    over rows that are already split on commas. Every loader drops the
    header row, stops at the first row with fewer than two fields, and puts
    each parsed row into a map under its natural key, a later row replacing
    an earlier one. The maps the Java loaders read from other files
    themselves (persons for stores and sales, stores for sales) are
    parameters here. */
module DataProcessor {
  import Calendar
  import opened Records
  import opened Persons
  import opened Items
  import DataPlans
  import ProductLeases
  import opened Sales

  // ---------------------------------------------------------------- items

  /** verifyItemType: the one-letter code of an item's kind, None for null. */
  function VerifyItemType(item: Option<Item>): (r: Option<string>)
    ensures r.Some? <==> item.Some?
    ensures r.Some? ==> r.value in {"V", "D", "P", "L", "S"}
  {
    match item
    case None => None
    case Some(VoicePlan(_, _, _, _, _)) => Some("V")
    case Some(DataPlan(_, _, _, _)) => Some("D")
    case Some(ProductPurchase(_, _, _)) => Some("P")
    case Some(ProductLease(_, _, _, _, _)) => Some("L")
    case Some(Service(_, _, _, _, _)) => Some("S")
  }

  /** Two items get the same code exactly when they are of the same kind. */
  lemma VerifyItemTypeSeparatesKinds(a: Item, b: Item)
    ensures VerifyItemType(Some(a)) == VerifyItemType(Some(b))
            <==> (a.VoicePlan? && b.VoicePlan?) || (a.DataPlan? && b.DataPlan?)
                 || (a.ProductPurchase? && b.ProductPurchase?)
                 || (a.ProductLease? && b.ProductLease?) || (a.Service? && b.Service?)
  {
  }

  /** The type switch of the item loader: P, S, D and V build a catalog
      purchase, service, data plan or voice plan, anything else throws. */
  function CatalogItem(code: string, typeCode: string, name: string, baseCost: real): (r: Result<Item>)
    ensures r.Ok? <==> typeCode in {"P", "S", "D", "V"}
    ensures r.Err? ==> r.error == UnexpectedType(typeCode)
    ensures r.Ok? ==> r.value.code == code && r.value.name == name
                      && BasePrice(r.value) == baseCost
                      && VerifyItemType(Some(r.value)) == Some(typeCode)
    ensures r.Ok? && r.value.DataPlan? ==> DataPlans.GrossPrice(r.value) == 0.0
  {
    match typeCode
    case "P" => Ok(ProductPurchase(code, name, baseCost))
    case "S" => Ok(CatalogService(code, name, baseCost))
    case "D" => Ok(DataPlans.CatalogDataPlan(code, name, baseCost))
    case "V" => Ok(CatalogVoicePlan(code, name, baseCost))
    case _ => Err(UnexpectedType(typeCode))
  }

  /** One row of the item file: code, type, name, base cost. */
  function ParseItemRow(p: Parsers, row: Row): (r: Result<(string, Item)>)
    ensures |row| < 4 ==> r == Err(MissingField(|row|))
    ensures |row| >= 4 && p.decimal(row[3]).None? ==> r == Err(BadNumber(row[3]))
    ensures |row| >= 4 && p.decimal(row[3]).Some? ==> (r.Ok? <==> row[1] in {"P", "S", "D", "V"})
    ensures r.Ok? ==> |row| >= 4 && r.value.0 == row[0] && r.value.1.code == row[0]
                      && r.value.1.name == row[2]
                      && p.decimal(row[3]) == Some(BasePrice(r.value.1))
                      && VerifyItemType(Some(r.value.1)) == Some(row[1])
  {
    var code :- Field(row, 0);
    var typeCode :- Field(row, 1);
    var name :- Field(row, 2);
    var costText :- Field(row, 3);
    var cost :- ParseDecimal(p, costText);
    var item :- CatalogItem(code, typeCode, name, cost);
    Ok((code, item))
  }

  function ItemRowParser(p: Parsers): Row -> Result<(string, Item)> {
    row => ParseItemRow(p, row)
  }

  /** readItemsCSVtoMap: input without a header row loads as the empty map. */
  method ReadItems(p: Parsers, rows: seq<Row>) returns (r: Result<map<string, Item>>)
    ensures r == Load(rows, ItemRowParser(p), true, Ok(map[]))
  {
    r := LoadValues(rows, ItemRowParser(p), true, Ok(map[]));
  }

  /** Every catalog item is filed under its own code, and its kind is one
      the type switch knows. */
  lemma ItemsKeyedByCode(p: Parsers, rows: seq<Row>, k: string)
    requires rows != [] && Load(rows, ItemRowParser(p), true, Ok(map[])).Ok?
    requires k in Load(rows, ItemRowParser(p), true, Ok(map[])).value
    ensures var it := Load(rows, ItemRowParser(p), true, Ok(map[])).value[k];
            it.code == k && VerifyItemType(Some(it)).value in {"P", "S", "D", "V"}
  {
    LoadSound(rows, ItemRowParser(p), true, Ok(map[]), k);
  }

  // -------------------------------------------------------------- persons

  /** The email addresses of a person row: the fields from index 7 on. */
  function Emails(row: Row): (r: seq<string>)
    ensures |r| == if |row| > 7 then |row| - 7 else 0
    ensures forall i :: 0 <= i < |r| ==> r[i] == row[7 + i]
  {
    if |row| > 7 then row[7..] else []
  }

  /** The index loop that collects the email addresses. */
  method EmailsOf(row: Row) returns (r: seq<string>)
    ensures r == Emails(row)
  {
    r := [];
    var i := 7;
    while i < |row|
      invariant 7 <= i
      invariant |row| >= 7 ==> i <= |row| && r == row[7..i]
      invariant |row| < 7 ==> r == []
    {
      r := r + [row[i]];
      i := i + 1;
    }
  }

  /** One row of the person file: uuid, first and last name, street, city,
      state, zip code, then the email addresses. */
  function ParsePersonRow(p: Parsers, row: Row): (r: Result<(string, PersonRecord)>)
    ensures |row| < 7 ==> r == Err(MissingField(|row|))
    ensures |row| >= 7 ==> (r.Ok? <==> p.integer(row[6]).Some?)
    ensures r.Ok? ==> |row| >= 7 && r.value.0 == row[0]
                      && r.value.1 == PersonRecord(row[0], row[1], row[2],
                                                   Address(row[3], row[4], row[5], p.integer(row[6]).value),
                                                   Emails(row))
  {
    var uuid :- Field(row, 0);
    var firstName :- Field(row, 1);
    var lastName :- Field(row, 2);
    var street :- Field(row, 3);
    var city :- Field(row, 4);
    var state :- Field(row, 5);
    var zipText :- Field(row, 6);
    var zip :- ParseInteger(p, zipText);
    Ok((uuid, PersonRecord(uuid, firstName, lastName, Address(street, city, state, zip), Emails(row))))
  }

  function PersonRowParser(p: Parsers): Row -> Result<(string, PersonRecord)> {
    row => ParsePersonRow(p, row)
  }

  /** What input without any row loads as: the empty map, or the exception
      from reading the missing header. */
  function OnEmpty<V>(failOnEmpty: bool): Result<map<string, V>> {
    if failOnEmpty then Err(EmptyInput) else Ok(map[])
  }

  /** The body of the person loaders' loop: the emails are collected, the
      fields are read, and a new Person without id is built from them. */
  method PersonOf(p: Parsers, row: Row) returns (r: Result<(string, Person)>)
    ensures r.Err? <==> ParsePersonRow(p, row).Err?
    ensures r.Err? ==> r.error == ParsePersonRow(p, row).error
    ensures r.Ok? ==> fresh(r.value.1) && r.value.0 == ParsePersonRow(p, row).value.0
                      && r.value.1.id == 0 && r.value.1.Record() == ParsePersonRow(p, row).value.1
  {
    var emails := EmailsOf(row);
    var parsed := ParsePersonRow(p, row);
    if parsed.Err? {
      return Err(parsed.error);
    }
    var rec := parsed.value.1;
    var person := new Person.WithoutId(rec.uuid, rec.firstName, rec.lastName, rec.address, emails);
    return Ok((parsed.value.0, person));
  }

  /** The person objects under each key hold the record under that key. */
  ghost predicate Mirrors(persons: map<string, Person>, recs: map<string, PersonRecord>)
    reads persons.Values
  {
    && persons.Keys == recs.Keys
    && forall k :: k in persons ==> persons[k].id == 0 && persons[k].Record() == recs[k]
  }

  /** Filing a new person for the next entry keeps the persons in step with
      the entries. */
  lemma MirrorsPut(persons: map<string, Person>, es: seq<(string, PersonRecord)>, e: (string, PersonRecord),
                   person: Person)
    requires Mirrors(persons, PutAll(es)) && person.id == 0 && person.Record() == e.1
    ensures Mirrors(persons[e.0 := person], PutAll(es + [e]))
  {
    PutAllSnoc(es, e);
  }

  /** The person loader's loop, shared with the older loader in Utils: a new
      Person per row, filed under its uuid. */
  method LoadPersons(p: Parsers, rows: seq<Row>, stopOnShort: bool, failOnEmpty: bool)
    returns (r: Result<map<string, Person>>)
    ensures var spec := Load(rows, PersonRowParser(p), stopOnShort, OnEmpty(failOnEmpty));
            && (r.Ok? <==> spec.Ok?)
            && (r.Err? ==> r.error == spec.error)
            && (r.Ok? ==> Mirrors(r.value, spec.value))
    ensures r.Ok? ==> forall k :: k in r.value ==> fresh(r.value[k])
  {
    if rows == [] {
      return if failOnEmpty then Err(EmptyInput) else Ok(map[]);
    }
    var parse := PersonRowParser(p);
    var data := rows[1..];
    var persons: map<string, Person> := map[];
    ghost var es: seq<(string, PersonRecord)> := [];
    ProgressStart(rows, parse, stopOnShort);
    var i := 0;
    while i < |data|
      invariant Progress(rows, parse, stopOnShort, i, es)
      invariant Mirrors(persons, PutAll(es))
      invariant forall k :: k in persons ==> fresh(persons[k])
    {
      var row := data[i];
      if stopOnShort && IsShort(row) {
        ProgressDone(rows, parse, stopOnShort, OnEmpty(failOnEmpty), i, es);
        return Ok(persons);
      }
      var made := PersonOf(p, row);
      if made.Err? {
        ProgressFails(rows, parse, stopOnShort, OnEmpty(failOnEmpty), i, es);
        return Err(made.error);
      }
      ProgressStep(rows, parse, stopOnShort, i, es);
      ghost var e := ParsePersonRow(p, row).value;
      MirrorsPut(persons, es, e, made.value.1);
      persons := persons[made.value.0 := made.value.1];
      es := es + [e];
      i := i + 1;
    }
    ProgressDone(rows, parse, stopOnShort, OnEmpty(failOnEmpty), i, es);
    return Ok(persons);
  }

  /** readPersonCSVtoMap. */
  method ReadPersons(p: Parsers, rows: seq<Row>) returns (r: Result<map<string, Person>>)
    ensures var spec := Load(rows, PersonRowParser(p), true, Ok(map[]));
            && (r.Ok? <==> spec.Ok?)
            && (r.Err? ==> r.error == spec.error)
            && (r.Ok? ==> Mirrors(r.value, spec.value))
    ensures r.Ok? ==> forall k :: k in r.value ==> fresh(r.value[k])
  {
    r := LoadPersons(p, rows, true, false);
  }

  /** Every person is filed under its own uuid, with the emails of the last
      row carrying that uuid. */
  lemma PersonsKeyedByUuid(p: Parsers, rows: seq<Row>, k: string)
    requires rows != [] && Load(rows, PersonRowParser(p), true, Ok(map[])).Ok?
    requires k in Load(rows, PersonRowParser(p), true, Ok(map[])).value
    ensures Load(rows, PersonRowParser(p), true, Ok(map[])).value[k].uuid == k
    ensures exists i :: 0 <= i < |DataRows(rows, true)|
              && Load(rows, PersonRowParser(p), true, Ok(map[])).value[k].emails
                 == Emails(DataRows(rows, true)[i])
  {
    LoadSound(rows, PersonRowParser(p), true, Ok(map[]), k);
  }

  // --------------------------------------------------------------- stores

  /** Map.get on the person map: null when the key is missing. */
  function Lookup(persons: map<string, Person>, key: string): (r: Person?)
    ensures r != null <==> key in persons
    ensures key in persons ==> r == persons[key]
  {
    if key in persons then persons[key] else null
  }

  /** One row of the store file: code, manager uuid, street, city, state,
      zip code. An unknown manager is kept as null. */
  function ParseStoreRow(p: Parsers, persons: map<string, Person>, row: Row): (r: Result<(string, Store)>)
    ensures 2 <= |row| < 6 ==> r == Err(MissingField(|row|))
    ensures |row| >= 6 ==> (r.Ok? <==> p.integer(row[5]).Some?)
    ensures r.Ok? ==> |row| >= 6 && r.value.0 == row[0]
                      && r.value.1 == Store(row[0], Address(row[2], row[3], row[4], p.integer(row[5]).value),
                                            Lookup(persons, row[1]))
  {
    var code :- Field(row, 0);
    var managerCode :- Field(row, 1);
    var manager := Lookup(persons, managerCode);
    var street :- Field(row, 2);
    var city :- Field(row, 3);
    var state :- Field(row, 4);
    var zipText :- Field(row, 5);
    var zip :- ParseInteger(p, zipText);
    Ok((code, Store(code, Address(street, city, state, zip), manager)))
  }

  function StoreRowParser(p: Parsers, persons: map<string, Person>): Row -> Result<(string, Store)> {
    row => ParseStoreRow(p, persons, row)
  }

  /** readStoreCSVtoMap, given the person map it looks managers up in. */
  method ReadStores(p: Parsers, persons: map<string, Person>, rows: seq<Row>)
    returns (r: Result<map<string, Store>>)
    ensures r == Load(rows, StoreRowParser(p, persons), true, Ok(map[]))
  {
    r := LoadValues(rows, StoreRowParser(p, persons), true, Ok(map[]));
  }

  /** Every store is filed under its own code. */
  lemma StoresKeyedByCode(p: Parsers, persons: map<string, Person>, rows: seq<Row>, k: string)
    requires rows != [] && Load(rows, StoreRowParser(p, persons), true, Ok(map[])).Ok?
    requires k in Load(rows, StoreRowParser(p, persons), true, Ok(map[])).value
    ensures Load(rows, StoreRowParser(p, persons), true, Ok(map[])).value[k].code == k
  {
    LoadSound(rows, StoreRowParser(p, persons), true, Ok(map[]), k);
  }

  // ---------------------------------------------------------------- sales

  /** One row of the sale file: sale code, store code, customer uuid,
      salesman uuid, date. The date is parsed when the Sale is built; the
      store is dereferenced after that, so an unknown store fails then. */
  function ParseSaleRow(p: Parsers, persons: map<string, Person>, stores: map<string, Store>, row: Row)
    : (r: Result<(string, SaleRecord)>)
    ensures 2 <= |row| < 5 ==> r == Err(MissingField(|row|))
    ensures |row| >= 5 && p.date(row[4]).None? ==> r == Err(BadDate(row[4]))
    ensures |row| >= 5 && p.date(row[4]).Some? ==> (r.Ok? <==> row[1] in stores)
    ensures r.Err? && r.error.NoSuchStore? ==> |row| >= 5 && r.error.storeCode == row[1] && row[1] !in stores
    ensures r.Ok? ==> |row| >= 5 && r.value.0 == row[0] && row[1] in stores
                      && r.value.1 == SaleRecord(row[0], stores[row[1]], Lookup(persons, row[2]),
                                                 Lookup(persons, row[3]), p.date(row[4]).value)
  {
    var code :- Field(row, 0);
    var storeCode :- Field(row, 1);
    var customerCode :- Field(row, 2);
    var salesmanCode :- Field(row, 3);
    var dateText :- Field(row, 4);
    var date :- ParseDate(p, dateText);
    if storeCode !in stores then Err(NoSuchStore(storeCode))
    else Ok((code, SaleRecord(code, stores[storeCode], Lookup(persons, customerCode),
                              Lookup(persons, salesmanCode), date)))
  }

  function SaleRowParser(p: Parsers, persons: map<string, Person>, stores: map<string, Store>)
    : Row -> Result<(string, SaleRecord)>
  {
    row => ParseSaleRow(p, persons, stores, row)
  }

  /** No two codes share a Sale object. */
  predicate Distinct(sales: map<string, Sale>) {
    forall a, b :: a in sales && b in sales && a != b ==> sales[a] != sales[b]
  }

  /** Filing an object no code maps to yet keeps the map distinct. */
  lemma DistinctUpdate(sales: map<string, Sale>, k: string, s: Sale)
    requires Distinct(sales) && forall j :: j in sales ==> sales[j] != s
    ensures Distinct(sales[k := s])
  {
  }

  /** The sale objects under each key are new-looking: id 0, no items, and
      the header under that key. */
  ghost predicate MirrorsSales(sales: map<string, Sale>, headers: map<string, SaleRecord>)
    reads sales.Values
  {
    && sales.Keys == headers.Keys
    && forall k :: k in sales ==> sales[k].id == 0 && sales[k].items == [] && sales[k].Header() == headers[k]
  }

  /** Filing a new sale for the next entry keeps the sales distinct and in
      step with the entries. */
  lemma MirrorsSalesPut(sales: map<string, Sale>, es: seq<(string, SaleRecord)>, e: (string, SaleRecord),
                        sale: Sale)
    requires MirrorsSales(sales, PutAll(es)) && Distinct(sales)
    requires forall j :: j in sales ==> sales[j] != sale
    requires sale.id == 0 && sale.items == [] && sale.Header() == e.1
    ensures MirrorsSales(sales[e.0 := sale], PutAll(es + [e])) && Distinct(sales[e.0 := sale])
  {
    PutAllSnoc(es, e);
    DistinctUpdate(sales, e.0, sale);
  }

  /** The body of the sale loader's loop: the fields are read and a new Sale
      without items is built from them. */
  method SaleOf(p: Parsers, persons: map<string, Person>, stores: map<string, Store>, row: Row)
    returns (r: Result<(string, Sale)>)
    ensures r.Err? <==> ParseSaleRow(p, persons, stores, row).Err?
    ensures r.Err? ==> r.error == ParseSaleRow(p, persons, stores, row).error
    ensures r.Ok? ==> fresh(r.value.1) && r.value.0 == ParseSaleRow(p, persons, stores, row).value.0
                      && r.value.1.id == 0 && r.value.1.items == []
                      && r.value.1.Header() == ParseSaleRow(p, persons, stores, row).value.1
  {
    var parsed := ParseSaleRow(p, persons, stores, row);
    if parsed.Err? {
      return Err(parsed.error);
    }
    var h := parsed.value.1;
    var sale := new Sale(h.code, h.store, h.customer, h.salesman, h.date);
    return Ok((parsed.value.0, sale));
  }

  /** readSaleCSVToMap: a new Sale without items per row, filed under its
      code. Unlike the other loaders it does not catch the exception from
      reading the header of an empty input. */
  method ReadSales(p: Parsers, persons: map<string, Person>, stores: map<string, Store>, rows: seq<Row>)
    returns (r: Result<map<string, Sale>>)
    ensures var spec := Load(rows, SaleRowParser(p, persons, stores), true, Err(EmptyInput));
            && (r.Ok? <==> spec.Ok?)
            && (r.Err? ==> r.error == spec.error)
            && (r.Ok? ==> MirrorsSales(r.value, spec.value) && Distinct(r.value))
    ensures r.Ok? ==> forall k :: k in r.value ==> fresh(r.value[k])
  {
    if rows == [] {
      return Err(EmptyInput);
    }
    var parse := SaleRowParser(p, persons, stores);
    var data := rows[1..];
    var sales: map<string, Sale> := map[];
    ghost var es: seq<(string, SaleRecord)> := [];
    ProgressStart(rows, parse, true);
    var i := 0;
    while i < |data|
      invariant Progress(rows, parse, true, i, es)
      invariant MirrorsSales(sales, PutAll(es)) && Distinct(sales)
      invariant forall k :: k in sales ==> fresh(sales[k])
    {
      var row := data[i];
      if IsShort(row) {
        ProgressDone(rows, parse, true, Err(EmptyInput), i, es);
        return Ok(sales);
      }
      var made := SaleOf(p, persons, stores, row);
      if made.Err? {
        ProgressFails(rows, parse, true, Err(EmptyInput), i, es);
        return Err(made.error);
      }
      ProgressStep(rows, parse, true, i, es);
      ghost var e := ParseSaleRow(p, persons, stores, row).value;
      MirrorsSalesPut(sales, es, e, made.value.1);
      sales := sales[made.value.0 := made.value.1];
      es := es + [e];
      i := i + 1;
    }
    ProgressDone(rows, parse, true, Err(EmptyInput), i, es);
    return Ok(sales);
  }

  // ------------------------------------------------------------ sale lines

  /** The item one sale-line row adds, built from the catalog item and the
      row's trailing fields; the kind of the catalog item decides which. */
  function LineItem(p: Parsers, persons: map<string, Person>, item: Item, row: Row): (r: Result<Item>)
    requires |row| >= 2 && !item.ProductLease?
    ensures r.Ok? ==> r.value.code == item.code && r.value.name == item.name
    ensures r.Err? ==> r.error.MissingField? || r.error.BadNumber? || r.error.BadDate?
    // a purchase with no trailing field stays a purchase ...
    ensures item.ProductPurchase? && |row| == 2 ==> r == Ok(PurchaseOf(item))
    // ... with any other number of fields it becomes a lease of fields 2 and 3
    ensures item.ProductPurchase? && |row| != 2 ==>
              (r.Ok? <==> |row| >= 4 && p.date(row[2]).Some? && p.date(row[3]).Some?)
    ensures item.ProductPurchase? && |row| != 2 && r.Ok? ==>
              r.value.ProductLease? && r.value.price == BasePrice(item)
              && Some(r.value.startDate) == p.date(row[2]) && Some(r.value.endDate) == p.date(row[3])
    // a service takes its hours from field 2 and its employee from field 3
    ensures item.Service? ==> (r.Ok? <==> |row| >= 4 && p.decimal(row[2]).Some?)
    ensures item.Service? && r.Ok? ==>
              r.value == ServiceOf(item, p.decimal(row[2]).value, Lookup(persons, row[3]))
    // a data plan takes its gigabytes from field 2
    ensures item.DataPlan? ==> (r.Ok? <==> |row| >= 3 && p.decimal(row[2]).Some?)
    ensures item.DataPlan? && r.Ok? ==> r.value == DataPlans.DataPlanOf(item, p.decimal(row[2]).value)
    // a voice plan takes its phone number from field 2 and its period from field 3
    ensures item.VoicePlan? ==> (r.Ok? <==> |row| >= 4 && p.decimal(row[3]).Some?)
    ensures item.VoicePlan? && r.Ok? ==> r.value == VoicePlanOf(item, row[2], p.decimal(row[3]).value)
  {
    match item
    case ProductPurchase(_, _, _) =>
      if |row| == 2 then Ok(PurchaseOf(item))
      else
        var startDate :- Field(row, 2);
        var endDate :- Field(row, 3);
        ProductLeases.LeaseOf(item, startDate, endDate, p)
    case Service(_, _, _, _, _) =>
      var hoursText :- Field(row, 2);
      var hours :- ParseDecimal(p, hoursText);
      var employeeCode :- Field(row, 3);
      Ok(ServiceOf(item, hours, Lookup(persons, employeeCode)))
    case DataPlan(_, _, _, _) =>
      var gbText :- Field(row, 2);
      var gb :- ParseDecimal(p, gbText);
      Ok(DataPlans.DataPlanOf(item, gb))
    case VoicePlan(_, _, _, _, _) =>
      var phoneNumber :- Field(row, 2);
      var periodText :- Field(row, 3);
      var period :- ParseDecimal(p, periodText);
      Ok(VoicePlanOf(item, phoneNumber, period))
  }

  /** One row of the sale-line file: sale code, item code, then the fields
      of the item's kind. The result pairs the sale code with the item to
      append, None when the row appends nothing. An item code missing from
      the catalog (or naming a lease, which no branch tests for) appends
      nothing; a known item for a sale code missing from the sales fails
      when the item is added, after its fields were read. */
  function ParseSaleLine(p: Parsers, items: map<string, Item>, persons: map<string, Person>,
                         saleCodes: set<string>, row: Row): (r: Result<(string, Option<Item>)>)
    ensures |row| < 2 ==> r == Err(MissingField(|row|))
    ensures r.Ok? ==> r.value.0 == row[0]
    ensures |row| >= 2 && (row[1] !in items || items[row[1]].ProductLease?) ==> r == Ok((row[0], None))
    ensures r.Ok? && r.value.1.Some? ==>
              row[0] in saleCodes && row[1] in items && !items[row[1]].ProductLease?
              && LineItem(p, persons, items[row[1]], row) == Ok(r.value.1.value)
    ensures |row| >= 2 && row[1] in items && !items[row[1]].ProductLease? ==>
              if LineItem(p, persons, items[row[1]], row).Err?
              then r == Err(LineItem(p, persons, items[row[1]], row).error)
              else if row[0] !in saleCodes then r == Err(NoSuchSale(row[0]))
              else r.Ok? && r.value.1.Some?
  {
    var saleCode :- Field(row, 0);
    var itemCode :- Field(row, 1);
    if itemCode !in items || items[itemCode].ProductLease? then Ok((saleCode, None))
    else
      var line :- LineItem(p, persons, items[itemCode], row);
      if saleCode !in saleCodes then Err(NoSuchSale(saleCode))
      else Ok((saleCode, Some(line)))
  }

  function LineParser(p: Parsers, items: map<string, Item>, persons: map<string, Person>,
                      saleCodes: set<string>): Row -> Result<(string, Option<Item>)>
  {
    row => ParseSaleLine(p, items, persons, saleCodes, row)
  }

  /** The sale lines the assembler gets through: those of the rows before the
      first short row, up to the first row that fails. */
  ghost function SaleLines(p: Parsers, items: map<string, Item>, persons: map<string, Person>,
                           saleCodes: set<string>, rows: seq<Row>): seq<(string, Option<Item>)>
  {
    if rows == [] then [] else Parsed(DataRows(rows, true), LineParser(p, items, persons, saleCodes))
  }

  /** The exception that ends the assembler, if any: reading the header of
      an empty input, or the first failing row. */
  ghost function FillError(p: Parsers, items: map<string, Item>, persons: map<string, Person>,
                           saleCodes: set<string>, rows: seq<Row>): Option<LoadError>
  {
    if rows == [] then Some(EmptyInput)
    else match ParseAll(DataRows(rows, true), LineParser(p, items, persons, saleCodes))
      case Ok(_) => None
      case Err(e) => Some(e)
  }

  /** The items the lines append to the object s, in line order; each comes
      from a line whose code names s. */
  function ItemsFor(lines: seq<(string, Option<Item>)>, sales: map<string, Sale>, s: Sale): (r: seq<Item>)
    ensures forall x :: x in r ==> exists c :: c in sales && sales[c] == s && (c, Some(x)) in lines
  {
    if lines == [] then []
    else
      var (code, line) := lines[|lines| - 1];
      ItemsFor(lines[..|lines| - 1], sales, s)
      + (if line.Some? && code in sales && sales[code] == s then [line.value] else [])
  }

  /** The items of the lines naming the sale code k, in line order; each comes
      from such a line. */
  function LinesFor(lines: seq<(string, Option<Item>)>, k: string): (r: seq<Item>)
    ensures forall x :: x in r ==> (k, Some(x)) in lines
  {
    if lines == [] then []
    else
      var (code, line) := lines[|lines| - 1];
      LinesFor(lines[..|lines| - 1], k) + (if line.Some? && code == k then [line.value] else [])
  }

  /** With one Sale object per code, the items appended to the sale filed
      under k are exactly those of the lines naming k. */
  lemma {:induction false} ItemsForDistinct(lines: seq<(string, Option<Item>)>, sales: map<string, Sale>, k: string)
    requires Distinct(sales) && k in sales
    ensures ItemsFor(lines, sales, sales[k]) == LinesFor(lines, k)
  {
    if lines != [] {
      ItemsForDistinct(lines[..|lines| - 1], sales, k);
    }
  }

  /** One more line adds its item to the object its code names, if any. */
  lemma ItemsForSnoc(lines: seq<(string, Option<Item>)>, e: (string, Option<Item>), sales: map<string, Sale>)
    ensures forall s :: ItemsFor(lines + [e], sales, s)
                        == ItemsFor(lines, sales, s) + Appended(sales, e, s)
  {
    assert (lines + [e])[..|lines|] == lines;
  }

  /** What one line appends to the sale object s: its item, when it has one
      and its code names s. */
  function Appended(sales: map<string, Sale>, e: (string, Option<Item>), s: Sale): seq<Item> {
    if e.1.Some? && e.0 in sales && sales[e.0] == s then [e.1.value] else []
  }

  /** Each sale object has grown, since `before` was taken, by the items of
      the lines that name it. */
  ghost predicate Grown(sales: map<string, Sale>, before: map<Sale, seq<Item>>,
                        lines: seq<(string, Option<Item>)>)
    reads sales.Values
  {
    forall s :: s in sales.Values ==> s in before && s.items == before[s] + ItemsFor(lines, sales, s)
  }

  /** The statement of the loop that adds a line's item to its sale. */
  method AppendLine(sales: map<string, Sale>, saleCode: string, line: Option<Item>,
                    ghost before: map<Sale, seq<Item>>, ghost lines: seq<(string, Option<Item>)>)
    requires line.Some? ==> saleCode in sales
    requires Grown(sales, before, lines)
    modifies sales.Values
    ensures forall s :: s in sales.Values ==> s.items == old(s.items) + Appended(sales, (saleCode, line), s)
    ensures Grown(sales, before, lines + [(saleCode, line)])
  {
    ItemsForSnoc(lines, (saleCode, line), sales);
    if line.Some? {
      var sale := sales[saleCode];
      sale.AddItem(line.value);
    }
  }

  /** The assembler's loop stops at a short row or at the end: no error, and
      the lines so far are all the lines. */
  lemma FillDone(p: Parsers, items: map<string, Item>, persons: map<string, Person>,
                 saleCodes: set<string>, rows: seq<Row>, i: nat, es: seq<(string, Option<Item>)>)
    requires Progress(rows, LineParser(p, items, persons, saleCodes), true, i, es)
    requires i == |rows| - 1 || IsShort(rows[1..][i])
    ensures FillError(p, items, persons, saleCodes, rows) == None
    ensures SaleLines(p, items, persons, saleCodes, rows) == es
  {
    ProgressDone(rows, LineParser(p, items, persons, saleCodes), true, Ok(map[]), i, es);
  }

  /** The row at i fails: its error ends the assembler, after the lines so far. */
  lemma FillFails(p: Parsers, items: map<string, Item>, persons: map<string, Person>,
                  saleCodes: set<string>, rows: seq<Row>, i: nat, es: seq<(string, Option<Item>)>)
    requires Progress(rows, LineParser(p, items, persons, saleCodes), true, i, es) && i < |rows| - 1
    requires !IsShort(rows[1..][i])
    requires ParseSaleLine(p, items, persons, saleCodes, rows[1..][i]).Err?
    ensures FillError(p, items, persons, saleCodes, rows)
            == Some(ParseSaleLine(p, items, persons, saleCodes, rows[1..][i]).error)
    ensures SaleLines(p, items, persons, saleCodes, rows) == es
  {
    ProgressFails(rows, LineParser(p, items, persons, saleCodes), true, Ok(map[]), i, es);
  }

  /** fillSalesWithItemsMap: each row appends at most one item, to the sale
      it names, in row order; no other sale changes. When a row fails, the
      items of the rows before it stay appended. */
  method FillSalesWithItems(sales: map<string, Sale>, items: map<string, Item>, persons: map<string, Person>,
                            p: Parsers, rows: seq<Row>) returns (r: Result<map<string, Sale>>)
    modifies sales.Values
    ensures r == match FillError(p, items, persons, sales.Keys, rows)
                 case None => Ok(sales)
                 case Some(e) => Err(e)
    ensures forall s :: s in sales.Values ==>
              s.items == old(s.items) + ItemsFor(SaleLines(p, items, persons, sales.Keys, rows), sales, s)
  {
    if rows == [] {
      return Err(EmptyInput);
    }
    ghost var before := map s | s in sales.Values :: s.items;
    r := FillLoop(sales, items, persons, p, rows, before);
  }

  /** The loop of fillSalesWithItemsMap, after the header row: the sales
      grow, from `before`, by the items of the lines read. */
  method FillLoop(sales: map<string, Sale>, items: map<string, Item>, persons: map<string, Person>,
                  p: Parsers, rows: seq<Row>, ghost before: map<Sale, seq<Item>>)
    returns (r: Result<map<string, Sale>>)
    requires rows != [] && Grown(sales, before, [])
    modifies sales.Values
    ensures r == match FillError(p, items, persons, sales.Keys, rows)
                 case None => Ok(sales)
                 case Some(e) => Err(e)
    ensures Grown(sales, before, SaleLines(p, items, persons, sales.Keys, rows))
  {
    var parse := LineParser(p, items, persons, sales.Keys);
    var data := rows[1..];
    ghost var es: seq<(string, Option<Item>)> := [];
    ProgressStart(rows, parse, true);
    var i := 0;
    while i < |data|
      invariant Progress(rows, parse, true, i, es)
      invariant Grown(sales, before, es)
    {
      var row := data[i];
      if IsShort(row) {
        FillDone(p, items, persons, sales.Keys, rows, i, es);
        return Ok(sales);
      }
      var parsed := ParseSaleLine(p, items, persons, sales.Keys, row);
      if parsed.Err? {
        FillFails(p, items, persons, sales.Keys, rows, i, es);
        return Err(parsed.error);
      }
      ProgressStep(rows, parse, true, i, es);
      var (saleCode, line) := parsed.value;
      AppendLine(sales, saleCode, line, before, es);
      es := es + [parsed.value];
      i := i + 1;
    }
    FillDone(p, items, persons, sales.Keys, rows, i, es);
    return Ok(sales);
  }

  // ---------------------------------------------------------------- stores

  /** The puts updateStoreMapFromSalesMap makes, one per sale in order. */
  function StoreEntries(sales: seq<Sale>): (r: seq<(string, Store)>)
    ensures |r| == |sales|
    ensures forall i :: 0 <= i < |sales| ==> r[i] == (sales[i].store.code, sales[i].store)
  {
    seq(|sales|, i requires 0 <= i < |sales| => (sales[i].store.code, sales[i].store))
  }

  /** One more sale is one more put of its store. */
  lemma StoreEntriesSnoc(stores: map<string, Store>, list: seq<Sale>, i: nat)
    requires i < |list|
    ensures stores + PutAll(StoreEntries(list[..i + 1]))
            == (stores + PutAll(StoreEntries(list[..i])))[list[i].store.code := list[i].store]
  {
    assert StoreEntries(list[..i + 1]) == StoreEntries(list[..i]) + [(list[i].store.code, list[i].store)];
    PutAllSnoc(StoreEntries(list[..i]), (list[i].store.code, list[i].store));
  }

  /** The store codes the sales name. */
  function StoreCodes(sales: map<string, Sale>): set<string> {
    set s | s in sales.Values :: s.store.code
  }

  /** updateStoreMapFromSalesMap: every sale's store is put under its code,
      in the order the sales come out of the map (`order`, which the map
      does not specify), over the stores already there. Whatever that order,
      the codes are the old ones and those the sales name, a code no sale
      names keeps its store, and a named code holds the store of a sale
      naming it. */
  method UpdateStores(stores: map<string, Store>, sales: map<string, Sale>)
    returns (r: map<string, Store>, ghost order: seq<Sale>)
    ensures |order| == |sales| && forall s :: s in order <==> s in sales.Values
    ensures r == stores + PutAll(StoreEntries(order))
    ensures r.Keys == stores.Keys + StoreCodes(sales)
    ensures forall k :: k in stores && k !in StoreCodes(sales) ==> r[k] == stores[k]
    ensures forall k :: k in StoreCodes(sales) ==> exists s :: s in sales.Values && s.store.code == k && r[k] == s.store
  {
    var list, keys := ValuesList(sales);
    order := list;
    r := stores;
    var i := 0;
    while i < |list|
      invariant 0 <= i <= |list|
      invariant r == stores + PutAll(StoreEntries(list[..i]))
    {
      StoreEntriesSnoc(stores, list, i);
      r := r[list[i].store.code := list[i].store];
      i := i + 1;
    }
    assert list[..i] == list;
    UpdateStoresMeaning(stores, sales, order);
  }

  /** Whatever order the sales are put in, the codes are the old ones and
      those the sales name, a code no sale names keeps its store, and a named
      code holds the store of some sale naming it. */
  lemma UpdateStoresMeaning(stores: map<string, Store>, sales: map<string, Sale>, order: seq<Sale>)
    requires forall s :: s in order <==> s in sales.Values
    ensures (stores + PutAll(StoreEntries(order))).Keys == stores.Keys + StoreCodes(sales)
    ensures forall k :: k in stores && k !in StoreCodes(sales) ==> (stores + PutAll(StoreEntries(order)))[k] == stores[k]
    ensures forall k :: k in StoreCodes(sales) ==>
              exists s :: s in sales.Values && s.store.code == k && (stores + PutAll(StoreEntries(order)))[k] == s.store
  {
    var es := StoreEntries(order);
    forall k ensures k in PutAll(es) <==> k in StoreCodes(sales) {
      PutAllKeys(es, k);
      if k in StoreCodes(sales) {
        var s :| s in sales.Values && s.store.code == k;
        var i :| 0 <= i < |order| && order[i] == s;
        assert es[i].0 == k;
      }
      if k in PutAll(es) {
        var i :| 0 <= i < |es| && es[i].0 == k;
        assert order[i] in order;
      }
    }
    forall k | k in StoreCodes(sales)
      ensures exists s :: s in sales.Values && s.store.code == k && (stores + PutAll(es))[k] == s.store
    {
      var i := PutAllSource(es, k);
      assert order[i] in order;
    }
  }
}
