# Sales system core in Dafny

A model of the core of a Java sales system (package `unl.soc`) with the
verifier's proofs about it. It has two parts.

- **Pricing.** A product lease is priced from its calendar dates: the first
  monthly instalment of the base price plus a 50 % markup, with no tax. A data
  plan is priced per gigabyte, with 5.5 % tax. A sale is an ordered,
  append-only list of items; it totals gross price and tax and rounds each
  total half up to cents once. Sales are ordered by descending net price.
- **Loaders and the sale assembler.** Rows that are already split on commas
  become maps keyed by a natural key: items, persons, stores and sales. The
  assembler then reads sale-line rows and appends one item per row to the
  sale that row names, built according to the catalog item's kind.

Money is an exact `real`. `Math.round(100 * x) / 100.0` is `Money.RoundCents`,
half-up rounding to cents. Java's truncating `/` and `%` on `long` are written
out (`Calendar.JavaDiv`, `Calendar.JavaRem`). `Period.between` is modelled as
far as `getYears() * 12 + getMonths()` reads it.

The library parsers `Double.parseDouble`, `Integer.parseInt` and
`LocalDate.parse` are the function fields of `Records.Parsers`. Each returns
`None` where the library throws. The exceptions that end a load are the cases
of `Records.LoadError`, and a load returns `Records.Result`.

The classes whose source is not part of this model are `Item`,
`ProductPurchase`, `Service`, `VoicePlan`, `Store` and `Address`. They are
cases of the value types `Items.Item`, `Sales.Store` and `Persons.Address`.
The gross price and tax of a purchase, a service and a voice plan are the
function fields of `Sales.UnseenPricing`, so nothing is assumed about them.

`Person` and `Sale` are classes, because `addEmail` and `addItem` change
them in place. Every keyed loader follows one specification, `Records.Load`:
1. drop the header row;
2. when the loader checks, ignore everything from the first row with fewer
   than two fields;
3. parse the rows in order, where the first failing row decides the error;
4. put the entries into a map, so that a later row replaces an earlier one.

The loops are proved against that specification. `Records.LoadValues` builds
maps of values. `DataProcessor.LoadPersons` and `DataProcessor.ReadSales`
allocate one object per row. `DataProcessor.FillSalesWithItems` is the
assembler: each row's outcome is the pure `DataProcessor.ParseSaleLine`, and
its effect on every sale object is stated in terms of the lines read before
the loop ended.

Points where the code's behaviour is easy to mistake:
- A sale-line row whose item code is not in the catalog appends nothing and
  the loop goes on (`DataProcessor.java:43-65`: no branch matches `null`). It
  does not fail.
- A sale-line row for an unknown employee records no employee
  (`DataProcessor.java:56`). It does not fail.
- A catalog purchase becomes a lease for every field count other than 2
  (`DataProcessor.java:47`), not only for exactly four fields.
- An input without even a header row loads as the empty map only in the item,
  person and store loaders of `DataProcessor` (they catch
  `NoSuchElementException`). The sale loader, the assembler and both `Utils`
  loaders fail with `EmptyInput`.

## Model

| member | source | states |
|---|---|---|
| Money.RoundCents | src/unl/soc/ProductLease.java:79 | the result is a whole number of cents and the input lies in [r - 0.005, r + 0.005): half-up rounding |
| Money.RoundCentsUnique | src/unl/soc/ProductLease.java:79 | no other cent value lies in that half-open window, so the rounding is determined |
| Money.RoundCentsIdempotent | src/unl/soc/ProductLease.java:77-80 | rounding a value that already is whole cents returns it unchanged |
| Money.RoundCentsMonotonic | src/unl/soc/Sale.java:61 | rounding to cents preserves order |
| Money.SumOfCents | src/unl/soc/Sale.java:105-108 | a sum of two cent values is a cent value, so the net price needs no further rounding |
| Calendar.JavaDivRem | src/unl/soc/ProductLease.java:52 | Java's truncating quotient and remainder satisfy q*b + r == a, with the remainder's sign following the dividend |
| Calendar.PeriodInMonthsIsAdjustedDistance | src/unl/soc/ProductLease.java:50-53 | for start not after end, years*12 + months is the month distance, less one when the end's day of month is before the start's |
| Calendar.PeriodTruncates | src/unl/soc/ProductLease.java:50-53 | the period is the largest whole number of months that fits between the dates, judged by day of month and not clamped to the month's end (2024-01-31 to 2024-02-29 is 0 months): a partial month is dropped, not rounded |
| Calendar.PeriodAntisymmetric | src/unl/soc/ProductLease.java:51 | swapping the dates negates the period |
| Items.BasePrice | src/unl/soc/ProductLease.java:77-80 | a lease's base price is its stored price rounded half up to cents; other kinds return their base price |
| ProductLeases.LeaseOf | src/unl/soc/ProductLease.java:36-41 | the lease succeeds exactly when both dates parse; an unparsable start date fails first, then an unparsable end date; it copies code and name and stores the item's base price as its price, so that base price is kept when it already is whole cents |
| ProductLeases.PeriodInMonths | src/unl/soc/ProductLease.java:50-53 | for a start not after the end, the lease's period is the largest non-negative number of whole months that fits between its dates |
| ProductLeases.BasePriceIdempotent | src/unl/soc/ProductLease.java:77-80 | a lease's base price is whole cents, and equals the stored price when that is whole cents |
| ProductLeases.MarkupPrice | src/unl/soc/ProductLease.java:55-57 | the markup is whole cents and within half a cent of half the base price |
| ProductLeases.TotalLeasePrice | src/unl/soc/ProductLease.java:59-61 | the total is whole cents and within half a cent of 1.5 times the base price |
| ProductLeases.FirstMonthPrice | src/unl/soc/ProductLease.java:63-65 | the first instalment is whole cents and within half a cent of total / period; the period must not be 0 |
| ProductLeases.GrossPrice | src/unl/soc/ProductLease.java:67-70 | the gross price of a lease is its first instalment |
| ProductLeases.TotalTax | src/unl/soc/ProductLease.java:72-75 | a lease carries no tax |
| ProductLeases.GrossPriceNonNegative | src/unl/soc/ProductLease.java:63-70 | a non-negative price over a forward period gives a non-negative instalment |
| ProductLeases.WorkedExample | src/unl/soc/ProductLease.java:50-75 | 1200.00 from 2024-01-01 to 2024-07-01: 6 months, markup 600.00, total 1800.00, gross 300.00, tax 0 |
| ProductLeases.EqualsAsWritten | src/unl/soc/ProductLease.java:95-101 | as written, a lease can equal another only when its own stored price is whole cents, because it is compared with the other's rounded base price |
| ProductLeases.EqualsAsWrittenIsNotSymmetric | src/unl/soc/ProductLease.java:95-101 | with equal dates, a lease at 1.00 equals one at 1.004, but not the other way round |
| ProductLeases.EqualsIsEquivalence | src/unl/soc/ProductLease.java:95-101 | equality on rounded base prices and dates is reflexive, symmetric and transitive, and agrees with the code when both prices are whole cents |
| DataPlans.CatalogDataPlan | src/unl/soc/DataPlan.java:20-22 | a catalog plan has price per GB as given and 0 GB, hence gross price and tax 0 |
| DataPlans.DataPlanOf | src/unl/soc/DataPlan.java:24-27 | the sale-line copy keeps code, name and base price, records the gigabytes, and grosses base price times gigabytes |
| DataPlans.PricePerGB | src/unl/soc/DataPlan.java:29-31 | the price per gigabyte is the stored base price, not rounded |
| DataPlans.GrossPrice | src/unl/soc/DataPlan.java:38 | gross price is non-negative for non-negative inputs and 0 for 0 GB |
| DataPlans.TotalTax | src/unl/soc/DataPlan.java:41 | tax lies between 0 and the gross price for non-negative inputs |
| DataPlans.Equals | src/unl/soc/DataPlan.java:48-54 | equal plans are both data plans with the same gigabytes and price per GB, hence the same gross price and tax |
| DataPlans.EqualsIgnoresCodeAndName | src/unl/soc/DataPlan.java:48-54 | two plans are equal exactly when price per GB and gigabytes agree; code and name do not matter, and the relation is symmetric |
| DataPlans.WorkedExample | src/unl/soc/DataPlan.java:38-41 | 10.00 per GB for 5 GB: gross 50.00, tax 2.75 |
| Persons.Person.constructor | src/unl/soc/Person.java:30-37 | the person holds the id, names, address and the email list in the given order |
| Persons.Person.WithoutEmails | src/unl/soc/Person.java:39-46 | a person built without a list starts with no email |
| Persons.Person.WithoutId | src/unl/soc/Person.java:48-54 | the id keeps its default 0 and the email list is kept in order |
| Persons.Person.AddEmail | src/unl/soc/Person.java:80-82 | one address is appended at the end; earlier addresses keep their place and nothing else changes |
| Persons.Person.EmailList | src/unl/soc/Person.java:76-78 | the result has the person's emails; being a value, changing it cannot change the person |
| Persons.Person.Equals | src/unl/soc/Person.java:92-98 | two persons are equal exactly when uuid, names, address and emails agree; the id is ignored |
| Sales.ItemGross | src/unl/soc/Sale.java:59 | a lease grosses its first instalment, a data plan price times gigabytes, other kinds their unseen price |
| Sales.ItemTax | src/unl/soc/Sale.java:73 | a lease's tax is 0, a data plan's 5.5 % of its gross price, other kinds their unseen tax |
| Sales.GrossTotal | src/unl/soc/Sale.java:55-62 | the sale's gross price is whole cents and within half a cent of the sum of the items' gross prices: rounding happens once, after summing |
| Sales.TaxTotal | src/unl/soc/Sale.java:69-76 | the sale's tax is whole cents and within half a cent of the sum of the items' taxes |
| Sales.Net | src/unl/soc/Sale.java:105-108 | the net price is whole cents and within one cent of the exact gross plus tax |
| Sales.SumAppend | src/unl/soc/Sale.java:56-62 | the sums over a concatenation are the sums of the parts, so appended items add their prices to the totals |
| Sales.GrossNonNegative | src/unl/soc/Sale.java:56-62 | with no item of negative gross price, the sale's gross price is not negative |
| Sales.Compare | src/unl/soc/Sale.java:43 | Double.compare is -1, 0 or 1 as the first value is below, equal to or above the second |
| Sales.CompareNet | src/unl/soc/Sale.java:42-44 | negative when the first net price is larger, 0 when equal, positive when smaller: descending order |
| Sales.CompareNetIsComparator | src/unl/soc/Sale.java:42-44 | the order is antisymmetric and transitive |
| Sales.ItemEqualsAgree | src/unl/soc/Sale.java:135 | item equality as written (a lease through ProductLease.java:100) implies the corrected item equality, and the two agree whenever the receiving item is not a lease with a stored price off whole cents |
| Sales.ItemEqualsSymmetric | src/unl/soc/Sale.java:135 | the corrected item equality is reflexive and symmetric for every kind |
| Sales.ItemsEqualReflexive | src/unl/soc/Sale.java:135 | an item list equals itself under the corrected item equality |
| Sales.ItemsAgree | src/unl/soc/Sale.java:135 | List.equals over the as-written item equality implies it over the corrected one, and they agree when every item of the first list is cent-exact |
| Sales.Sale.constructor | src/unl/soc/Sale.java:23-30 | a new sale holds the code, store, customer, salesman and date, has id 0 and no items |
| Sales.Sale.WithId | src/unl/soc/Sale.java:32-40 | the same with the given id |
| Sales.Sale.AddItem | src/unl/soc/Sale.java:78-80 | one item is appended at the end; the earlier items keep their place |
| Sales.Sale.ItemsList | src/unl/soc/Sale.java:90-92 | the result has the sale's items in order; being a value, changing it cannot change the sale |
| Sales.Sale.GrossPrice | src/unl/soc/Sale.java:55-62 | the loop's result is the rounded sum of the items' gross prices |
| Sales.Sale.TotalTax | src/unl/soc/Sale.java:69-76 | the loop's result is the rounded sum of the items' taxes |
| Sales.Sale.NetPrice | src/unl/soc/Sale.java:105-108 | the result is the rounded gross plus the rounded tax |
| Sales.CompareSales | src/unl/soc/Sale.java:42-44 | the sign compares the two sales' net prices, larger first |
| Sales.Sale.Equals | src/unl/soc/Sale.java:130-136 | with the corrected lease equality: the id is ignored, so a sale with the same header and the same items is equal whatever its id |
| Sales.Sale.EqualsAsWritten | src/unl/soc/Sale.java:130-136 | as written (identity shortcut, then fields and items with the as-written lease equality): a distinct sale equal this way is also equal under the corrected equality |
| Sales.SaleEqualsSymmetric | src/unl/soc/Sale.java:130-136 | the corrected sale equality is reflexive and symmetric |
| Sales.SaleEqualsAsWrittenIsNotSymmetric | src/unl/soc/Sale.java:135 | two distinct sales with the same header, holding one lease each at 1.00 and at 1.004 with equal dates: as written the first equals the second but not the reverse, while the corrected equality holds both ways |
| Sales.SaleEqualsAgree | src/unl/soc/Sale.java:130-136 | for a sale whose items are all cent-exact, the as-written and corrected equalities agree |
| Sales.WorkedExample | src/unl/soc/Sale.java:105-108 | the data plan and lease above in one sale: gross 350.00, tax 2.75, net 352.75, whatever the unseen kinds cost |
| Records.Field | src/unl/soc/DataProcessor.java:225-228 | List.get succeeds exactly for an index below the length and fails with that index otherwise |
| Records.UntilShort | src/unl/soc/DataProcessor.java:221-223 | the rows processed are a prefix with no short row, followed by a short row or the end |
| Records.ParseAll | src/unl/soc/DataProcessor.java:217-239 | on success every row parsed to its entry, in order |
| Records.Parsed | src/unl/soc/DataProcessor.java:32-66 | the entries done before an exception are the parsed prefix, and the next row is the one that failed with that error |
| Records.ParseAllFailsFast | src/unl/soc/DataProcessor.java:217-239 | once a row fails, later rows do not change the result |
| Records.ParsedFailsFast | src/unl/soc/DataProcessor.java:32-66 | once a row fails, later rows add no entry |
| Records.PutAllSnoc | src/unl/soc/DataProcessor.java:238 | one more entry is one more put, replacing any value under its key |
| Records.PutAllKeys | src/unl/soc/DataProcessor.java:238 | a key is in the map exactly when some entry has it |
| Records.PutAllLastWins | src/unl/soc/DataProcessor.java:238 | the value under a key is the one of the last entry with that key |
| Records.PutAllSource | src/unl/soc/DataProcessor.java:238 | every map entry is one of the entries put |
| Records.LoadHeaderOnly | src/unl/soc/DataProcessor.java:216-246 | no row at all gives the loader's empty-input outcome; a header alone gives the empty map |
| Records.UntilShortCut | src/unl/soc/DataProcessor.java:221-223 | the rows after a short row are never looked at |
| Records.LoadStopsAtShortRow | src/unl/soc/DataProcessor.java:36-38 | a stopping loader gives the same result as if the input ended before its first short row |
| Records.LoadLastWins | src/unl/soc/DataProcessor.java:238 | after a successful load the key of each data row maps to the value of the last row carrying that key |
| Records.LoadKeys | src/unl/soc/DataProcessor.java:238 | a key is loaded exactly when some data row carries it |
| Records.LoadSound | src/unl/soc/DataProcessor.java:238 | every loaded value is what some data row parsed to, under that row's key |
| Records.LoadValues | src/unl/soc/DataProcessor.java:210-247 | the loop over rows returns exactly the load specification |
| Records.ValuesList | src/unl/soc/Utils.java:60-62 | the list has one value per key of the map, in the order of some enumeration of its distinct keys, and holds exactly the map's values |
| DataProcessor.VerifyItemType | src/unl/soc/DataProcessor.java:415-428 | null gives null, every item gives one of V, D, P, L, S |
| DataProcessor.VerifyItemTypeSeparatesKinds | src/unl/soc/DataProcessor.java:415-428 | two items get the same code exactly when they are of the same kind |
| DataProcessor.CatalogItem | src/unl/soc/DataProcessor.java:230-236 | P, S, D and V succeed and any other code fails; the item keeps code, name and cost, and verifyItemType gives back its type code |
| DataProcessor.ParseItemRow | src/unl/soc/DataProcessor.java:225-238 | fields 0 to 3 are required and the cost must parse; the entry is keyed by the item's own code |
| DataProcessor.ReadItems | src/unl/soc/DataProcessor.java:210-247 | the item loader is the stopping load with the empty map for an empty input |
| DataProcessor.ItemsKeyedByCode | src/unl/soc/DataProcessor.java:238 | every loaded item sits under its own code and has a known type code |
| DataProcessor.Emails | src/unl/soc/DataProcessor.java:271-274 | the emails are fields 7 onward in order, none for a row of 7 fields |
| DataProcessor.EmailsOf | src/unl/soc/DataProcessor.java:271-274 | the index loop collects exactly those fields |
| DataProcessor.ParsePersonRow | src/unl/soc/DataProcessor.java:276-282 | fields 0 to 6 are required and the zip code must parse; the record is keyed by its uuid |
| DataProcessor.PersonOf | src/unl/soc/DataProcessor.java:271-280 | a row gives a new person with id 0 holding exactly the parsed record, or fails with the parser's error |
| DataProcessor.MirrorsPut | src/unl/soc/DataProcessor.java:282 | putting a new person for the next entry keeps every key's object holding the record the load specification files under that key |
| DataProcessor.LoadPersons | src/unl/soc/DataProcessor.java:257-292 | the loop succeeds exactly when the load specification does, with the same error; on success the keys are the specification's and each key holds a new person with id 0 whose record is the specification's record for that key |
| DataProcessor.ReadPersons | src/unl/soc/DataProcessor.java:257-292 | the person loader is that loop with the short-row stop and the empty map for an empty input |
| DataProcessor.PersonsKeyedByUuid | src/unl/soc/DataProcessor.java:282 | every loaded person sits under its own uuid, with the emails of a data row |
| DataProcessor.Lookup | src/unl/soc/DataProcessor.java:317 | Map.get gives the person under the key, or null exactly when the key is missing |
| DataProcessor.ParseStoreRow | src/unl/soc/DataProcessor.java:317-323 | fields 0 to 5 are required and the zip code must parse; an unknown manager is null |
| DataProcessor.ReadStores | src/unl/soc/DataProcessor.java:302-333 | the store loader is the stopping load with the empty map for an empty input |
| DataProcessor.StoresKeyedByCode | src/unl/soc/DataProcessor.java:323 | every loaded store sits under its own code |
| DataProcessor.ParseSaleRow | src/unl/soc/DataProcessor.java:183-193 | fields 0 to 4 are required, then the date must parse, then the store must exist; customer and salesman may be null |
| DataProcessor.SaleOf | src/unl/soc/DataProcessor.java:183-191 | a row gives a new sale with id 0, no items and exactly the parsed header, or fails with the parser's error |
| DataProcessor.MirrorsSalesPut | src/unl/soc/DataProcessor.java:193 | putting a new sale for the next entry keeps the sale objects distinct and each key holding the header the specification files under it |
| DataProcessor.ReadSales | src/unl/soc/DataProcessor.java:165-200 | succeeds exactly when the stopping load that fails on an empty input does, with the same error; on success each key holds a new sale with id 0, no items and that key's header, and no two codes share a sale |
| DataProcessor.LineItem | src/unl/soc/DataProcessor.java:46-65 | a purchase with 2 fields stays a purchase, otherwise it becomes a lease of fields 2 and 3; a service takes hours and employee, a data plan gigabytes, a voice plan phone and period, each succeeding exactly when its fields exist and parse |
| DataProcessor.ParseSaleLine | src/unl/soc/DataProcessor.java:40-65 | an unknown item code appends nothing; a known item appends only to an existing sale; for an unknown sale the row fails after its fields were read |
| DataProcessor.ItemsForSnoc | src/unl/soc/DataProcessor.java:42-65 | one more line adds its item to the sale object its code names and nothing to any other |
| DataProcessor.AppendLine | src/unl/soc/DataProcessor.java:46-65 | the row's item is appended to the sale object its code names and to no other, so each sale has grown by the items of the lines read so far that name it |
| DataProcessor.ItemsForDistinct | src/unl/soc/DataProcessor.java:42 | with one sale object per code, a sale receives exactly the items of the lines naming its code, in order |
| DataProcessor.FillLoop | src/unl/soc/DataProcessor.java:32-66 | after the header, the loop ends with the first failing row's error or the sales map, and each sale has grown by the items of the lines naming it |
| DataProcessor.FillSalesWithItems | src/unl/soc/DataProcessor.java:24-72 | every sale gains the items of the lines naming it, in row order, up to the short row, the end or the first failing row; the result is that row's error, or the sales map |
| DataProcessor.StoreEntries | src/unl/soc/DataProcessor.java:437-439 | one put per sale: its store under the store's code |
| DataProcessor.StoreEntriesSnoc | src/unl/soc/DataProcessor.java:437-439 | one more sale is one more put of its store under the store's code |
| DataProcessor.UpdateStores | src/unl/soc/DataProcessor.java:436-441 | (returned as a new map value, where the code updates the argument map in place and returns it) the result is the old stores with each sale's store put over them, in the order the sales come out of the map; whatever that order, the codes are the old ones plus those the sales name, a code no sale names keeps its store, and a named code holds the store of a sale naming it |
| DataProcessor.UpdateStoresMeaning | src/unl/soc/DataProcessor.java:436-441 | for any enumeration of the sales: the codes are the old ones plus those the sales name, a code no sale names keeps its store, and a named code holds the store of some sale naming it |
| Utils.ParseCodedItemRow | src/unl/soc/Utils.java:29-32 | fields 0 to 3 are required and the price must parse; the item copies code, type, name and price and is keyed by its code |
| Utils.ReadItems | src/unl/soc/Utils.java:21-40 | the older item loader is the non-stopping load that fails on an empty input |
| Utils.ItemsKeyedByCode | src/unl/soc/Utils.java:32 | every loaded item sits under its own code |
| Utils.ReadPersons | src/unl/soc/Utils.java:115-143 | the older person loader: one new person per row, emails from field 7 on, no short-row stop, fails on an empty input |
| Utils.OfType | src/unl/soc/Utils.java:85-103 | a type's list holds only input items of that type |
| Utils.OfTypeComplete | src/unl/soc/Utils.java:85-103 | every input item of a type is in that type's list |
| Utils.PartitionCount | src/unl/soc/Utils.java:85-103 | the four lists together are as long as the input's items of type P, S, V or D |
| Utils.File | src/unl/soc/Utils.java:86-102 | a P, S, V or D item is appended to the end of its own list only, that list is put back under its key, and any other type changes nothing |
| Utils.ItemsDictParse | src/unl/soc/Utils.java:71-105 | exactly the five keys; the purchase, service, voicePlan and dataPlan lists are the P, S, V and D items in input order; the lease list is empty |

## Left out

- Files: `Scanner`, `File`, the fixed `data/*.csv` paths and the `FileNotFoundException` paths are not modelled. A loader takes its rows, already split on commas.
- Records.DataRows: `String.split` dropping trailing empty fields is not modelled. Neither is `Scanner.hasNext` ending a loop at trailing blank lines: in the non-stopping `Utils` loaders, a trailing blank row fails with a missing field.
- Maps read from other files: the loaders that read persons or stores themselves take those maps as parameters.
- The chaining methods take no part of their own here. These are `fillSalesWithItemsMap(salesMap, path)`, `processedSalesWithItemsMap`, `purchasedItemsSalesMap` (whose loop is the same as `fillSalesWithItemsMap`'s), `rawSalesList`, `processedSalesList` and the `read*CSVtoList` methods. They are modelled by their parts.
- `convertSalesMapToList` reverses a list in `HashMap` order, which is unspecified. The remaining map-to-list helpers are `Records.ValuesList`.
- `Store.addSale` (`DataProcessor.java:191`): the store's own list of sales is not modelled. Only the failure on an unknown store is.
- `Utils.readStoreCSVtoMap` is not modelled.
- Classes not part of this model: `Item`, `ProductPurchase`, `Service`, `VoicePlan`, `Store`, `Address`, and the `unl.soc.items` and `unl.soc.person` classes that `Utils` uses.
  - Their constructors are taken to copy code, name and `getBasePrice()`.
  - Their `equals` is taken to be value equality.
  - Their gross price and tax are parameters.
- Item ids, the catalog lease constructors (`ProductLease.java:26-34`) and the copy constructor taking an id (`ProductLease.java:43-48`) are not modelled.
- Reference identity: item and person `equals` compare values, so their `this == o` shortcut is not modelled; for a sale, Sales.Sale.EqualsAsWritten keeps it. Neither is aliasing of the email list that a Person constructor keeps, which the caller could change.
- `toString`, `hashCode`, and the XStream and Gson annotations are not modelled.
- Sales.ItemGross: a lease whose period is 0 is excluded. With `double`, Java divides by zero into Infinity or NaN, and IEEE `double` rounding, NaN and -0 are not modelled; money is exact.
- ProductLeases.FirstMonthPrice: requires a period other than 0, for the same reason.
- DataProcessor.UpdateStores: the Java method puts the stores into the caller's `storesMap` in place and returns that same map, so a caller holding the argument sees the update; the model returns the updated map as a new value and leaves the argument unchanged, so that aliasing is not captured.
- Calendar.PeriodBetween: only the months part of `Period.between` is modelled. Its properties are proved for a start not after the end, except antisymmetry, which holds for all dates. The day part and month lengths are not modelled. The `int` overflow of `getYears() * 12 + getMonths()` (`ProductLease.java:52`), reached only by leases longer than about 179 million years, is not modelled: the count is an unbounded integer.
- Sales.ItemEqualsSymmetric: states symmetry of the corrected item equality only; the item equality as written is not symmetric for leases (ProductLeases.EqualsAsWrittenIsNotSymmetric), and Sales.ItemEqualsAgree ties the two together.
- Sales.SaleEqualsSymmetric: states symmetry of the corrected sale equality only; the sale equality as written (Sales.Sale.EqualsAsWritten) is not symmetric (Sales.SaleEqualsAsWrittenIsNotSymmetric) and agrees with the corrected one for cent-exact items (Sales.SaleEqualsAgree).

## Findings

| source | as written | input that shows it | evidently intended | confidence | as-written member | corrected member |
|---|---|---|---|---|---|---|
| src/unl/soc/ProductLease.java:100 | `equals` compares this lease's stored `price` with the other lease's rounded `getBasePrice()` | two leases with the same dates, priced 1.00 and 1.004: the first equals the second but the second does not equal the first; a lease priced 1.004 is not equal to a distinct lease with the same fields | compare both rounded base prices, which makes `equals` an equivalence | not executed | ProductLeases.EqualsAsWrittenIsNotSymmetric | ProductLeases.EqualsIsEquivalence |
| src/unl/soc/Sale.java:135 | sale `equals` compares the item lists with `List.equals`, which calls the lease `equals` of ProductLease.java:100 | two distinct sales with the same header, one with a lease stored at 1.00 and one with the same lease stored at 1.004: the first equals the second, the second does not equal the first | sale equality symmetric, through the corrected lease equality | not executed | Sales.SaleEqualsAsWrittenIsNotSymmetric | Sales.SaleEqualsSymmetric |
