/** The older loaders of src/unl/soc/Utils.java and the split of an item
    list by type code. These loaders do not stop at short rows, and they do
    not catch the exception from reading the header of an empty input. */
module Utils {
  import opened Records
  import opened Persons
  import DataProcessor

  /** An item as this part of the code reads it: it carries its own
      one-letter type code. */
  datatype CodedItem = CodedItem(code: string, typeCode: string, name: string, basePrice: real)

  /** One row of the item file: code, type, name, base price. */
  function ParseCodedItemRow(p: Parsers, row: Row): (r: Result<(string, CodedItem)>)
    ensures |row| < 4 ==> r == Err(MissingField(|row|))
    ensures |row| >= 4 ==> (r.Ok? <==> p.decimal(row[3]).Some?)
    ensures r.Ok? ==> |row| >= 4
                      && r.value == (row[0], CodedItem(row[0], row[1], row[2], p.decimal(row[3]).value))
  {
    var code :- Field(row, 0);
    var typeCode :- Field(row, 1);
    var name :- Field(row, 2);
    var priceText :- Field(row, 3);
    var price :- ParseDecimal(p, priceText);
    Ok((code, CodedItem(code, typeCode, name, price)))
  }

  function CodedItemRowParser(p: Parsers): Row -> Result<(string, CodedItem)> {
    row => ParseCodedItemRow(p, row)
  }

  /** readItemsCSVtoMap. */
  method ReadItems(p: Parsers, rows: seq<Row>) returns (r: Result<map<string, CodedItem>>)
    ensures r == Load(rows, CodedItemRowParser(p), false, Err(EmptyInput))
  {
    r := LoadValues(rows, CodedItemRowParser(p), false, Err(EmptyInput));
  }

  /** Every item is filed under its own code and holds the fields of the last
      row with that code. */
  lemma ItemsKeyedByCode(p: Parsers, rows: seq<Row>, k: string)
    requires rows != [] && Load(rows, CodedItemRowParser(p), false, Err(EmptyInput)).Ok?
    requires k in Load(rows, CodedItemRowParser(p), false, Err(EmptyInput)).value
    ensures Load(rows, CodedItemRowParser(p), false, Err(EmptyInput)).value[k].code == k
  {
    LoadSound(rows, CodedItemRowParser(p), false, Err(EmptyInput), k);
  }

  /** readPersonCSVtoMap: the person loop without the short-row stop. */
  method ReadPersons(p: Parsers, rows: seq<Row>) returns (r: Result<map<string, Person>>)
    ensures var spec := Load(rows, DataProcessor.PersonRowParser(p), false, Err(EmptyInput));
            && (r.Ok? <==> spec.Ok?)
            && (r.Err? ==> r.error == spec.error)
            && (r.Ok? ==> DataProcessor.Mirrors(r.value, spec.value))
    ensures r.Ok? ==> forall k :: k in r.value ==> fresh(r.value[k])
  {
    r := DataProcessor.LoadPersons(p, rows, false, true);
  }

  /** The items of one type code, in list order. */
  function OfType(items: seq<CodedItem>, t: string): (r: seq<CodedItem>)
    ensures |r| <= |items|
    ensures forall x :: x in r ==> x in items && x.typeCode == t
  {
    if items == [] then []
    else
      var last := items[|items| - 1];
      OfType(items[..|items| - 1], t) + (if last.typeCode == t then [last] else [])
  }

  /** The items whose type code is one of P, S, V and D. */
  function Known(items: seq<CodedItem>): (r: seq<CodedItem>)
    ensures |r| <= |items|
  {
    if items == [] then []
    else
      var last := items[|items| - 1];
      Known(items[..|items| - 1]) + (if last.typeCode in {"P", "S", "V", "D"} then [last] else [])
  }

  /** Every item of a type goes to that type's list. */
  lemma {:induction false} OfTypeComplete(items: seq<CodedItem>, t: string, i: nat)
    requires i < |items| && items[i].typeCode == t
    ensures items[i] in OfType(items, t)
  {
    if i < |items| - 1 {
      OfTypeComplete(items[..|items| - 1], t, i);
    }
  }

  /** The four lists together hold as many items as there are items with a
      known type code: none is lost and none is counted twice. */
  lemma {:induction false} PartitionCount(items: seq<CodedItem>)
    ensures |OfType(items, "P")| + |OfType(items, "S")| + |OfType(items, "V")| + |OfType(items, "D")|
            == |Known(items)|
  {
    if items != [] {
      PartitionCount(items[..|items| - 1]);
    }
  }

  /** One more item extends the list of its own type and no other. */
  lemma OfTypeSnoc(items: seq<CodedItem>, i: nat, t: string)
    requires i < |items|
    ensures OfType(items[..i + 1], t)
            == OfType(items[..i], t) + (if items[i].typeCode == t then [items[i]] else [])
  {
    assert items[..i + 1][..i] == items[..i];
  }

  /** The five lists of the itemsDictParse result under their keys. */
  function Categories(purchase: seq<CodedItem>, lease: seq<CodedItem>, voicePlan: seq<CodedItem>,
                      dataPlan: seq<CodedItem>, service: seq<CodedItem>): (r: map<string, seq<CodedItem>>)
    ensures r.Keys == {"purchase", "lease", "voicePlan", "dataPlan", "service"}
    ensures r["purchase"] == purchase && r["lease"] == lease && r["voicePlan"] == voicePlan
    ensures r["dataPlan"] == dataPlan && r["service"] == service
  {
    map["purchase" := purchase, "lease" := lease, "voicePlan" := voicePlan,
        "dataPlan" := dataPlan, "service" := service]
  }

  /** The body of the itemsDictParse loop: a copy of the item goes at the end
      of the list for its type, if it has one of the four, and that list is
      put back under its key. */
  method File(item: CodedItem, purchase: seq<CodedItem>, voicePlan: seq<CodedItem>,
              dataPlan: seq<CodedItem>, service: seq<CodedItem>, result: map<string, seq<CodedItem>>)
    returns (purchase': seq<CodedItem>, voicePlan': seq<CodedItem>,
             dataPlan': seq<CodedItem>, service': seq<CodedItem>, result': map<string, seq<CodedItem>>)
    requires result == Categories(purchase, [], voicePlan, dataPlan, service)
    ensures purchase' == purchase + (if item.typeCode == "P" then [item] else [])
    ensures voicePlan' == voicePlan + (if item.typeCode == "V" then [item] else [])
    ensures dataPlan' == dataPlan + (if item.typeCode == "D" then [item] else [])
    ensures service' == service + (if item.typeCode == "S" then [item] else [])
    ensures result' == Categories(purchase', [], voicePlan', dataPlan', service')
  {
    purchase', voicePlan', dataPlan', service', result' := purchase, voicePlan, dataPlan, service, result;
    var copy := CodedItem(item.code, item.typeCode, item.name, item.basePrice);
    if item.typeCode == "P" {
      purchase' := purchase + [copy];
      result' := result["purchase" := purchase'];
    } else if item.typeCode == "S" {
      service' := service + [copy];
      result' := result["service" := service'];
    } else if item.typeCode == "V" {
      voicePlan' := voicePlan + [copy];
      result' := result["voicePlan" := voicePlan'];
    } else if item.typeCode == "D" {
      dataPlan' := dataPlan + [copy];
      result' := result["dataPlan" := dataPlan'];
    }
  }

  /** itemsDictParse: P, S, V and D items are copied, in order, into the
      purchase, service, voicePlan and dataPlan lists, each put back under
      its key; other items are dropped and the lease list stays empty. */
  method ItemsDictParse(items: seq<CodedItem>) returns (r: map<string, seq<CodedItem>>)
    ensures r.Keys == {"purchase", "lease", "voicePlan", "dataPlan", "service"}
    ensures r["purchase"] == OfType(items, "P") && r["service"] == OfType(items, "S")
    ensures r["voicePlan"] == OfType(items, "V") && r["dataPlan"] == OfType(items, "D")
    ensures r["lease"] == []
  {
    var purchase, voicePlan, dataPlan, service := [], [], [], [];
    r := Categories(purchase, [], voicePlan, dataPlan, service);
    var i := 0;
    while i < |items|
      invariant 0 <= i <= |items|
      invariant purchase == OfType(items[..i], "P") && service == OfType(items[..i], "S")
      invariant voicePlan == OfType(items[..i], "V") && dataPlan == OfType(items[..i], "D")
      invariant r == Categories(purchase, [], voicePlan, dataPlan, service)
    {
      OfTypeSnoc(items, i, "P");
      OfTypeSnoc(items, i, "S");
      OfTypeSnoc(items, i, "V");
      OfTypeSnoc(items, i, "D");
      purchase, voicePlan, dataPlan, service, r := File(items[i], purchase, voicePlan, dataPlan, service, r);
      i := i + 1;
    }
    assert items[..i] == items;
  }
}
