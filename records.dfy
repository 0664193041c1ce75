/** What the loaders share: rows of already-split fields, the library
    parsers they call, the exceptions that abort a load, and the common shape
    of every keyed loader (drop the header row, optionally stop at the first
    row with fewer than two fields, parse each row into a key and a value,
    put it into a map so that a later row overwrites an earlier one). */
module Records {
  import Calendar

  /** One line of a file, already split on commas. */
  type Row = seq<string>

  /** Double.parseDouble, Integer.parseInt and LocalDate.parse, as partial
      functions: None is the exception the library throws. */
  datatype Parsers = Parsers(
    decimal: string -> Option<real>,
    integer: string -> Option<int>,
    date: string -> Option<Calendar.Date>)

  datatype Option<+T> = None | Some(value: T)

  /** The exceptions that end a load. */
  datatype LoadError =
    | EmptyInput                    // NoSuchElementException from reading the header
    | MissingField(index: nat)      // IndexOutOfBoundsException from List.get
    | BadNumber(text: string)       // NumberFormatException
    | BadDate(text: string)         // DateTimeParseException
    | UnexpectedType(code: string)  // IllegalStateException from the type switch
    | NoSuchStore(storeCode: string)  // NullPointerException at store.addSale
    | NoSuchSale(saleCode: string)    // NullPointerException at sale.addItem

  datatype Result<+T> = Ok(value: T) | Err(error: LoadError) {
    predicate IsFailure() { Err? }
    function PropagateFailure<U>(): Result<U> requires Err? { Err(error) }
    function Extract(): T requires Ok? { value }
  }

  /** List.get(i) on a row. */
  function Field(row: Row, i: nat): (r: Result<string>)
    ensures r.Ok? <==> i < |row|
    ensures r.Ok? ==> r.value == row[i]
    ensures r.Err? ==> r.error == MissingField(i)
  {
    if i < |row| then Ok(row[i]) else Err(MissingField(i))
  }

  function ParseDecimal(p: Parsers, text: string): Result<real> {
    match p.decimal(text)
    case Some(x) => Ok(x)
    case None => Err(BadNumber(text))
  }

  function ParseInteger(p: Parsers, text: string): Result<int> {
    match p.integer(text)
    case Some(n) => Ok(n)
    case None => Err(BadNumber(text))
  }

  function ParseDate(p: Parsers, text: string): Result<Calendar.Date> {
    match p.date(text)
    case Some(d) => Ok(d)
    case None => Err(BadDate(text))
  }

  /** A row with fewer than two fields ends the loop of the loaders that check. */
  predicate IsShort(row: Row) { |row| < 2 }

  /** The rows a stopping loader processes: those before the first short row. */
  function UntilShort(data: seq<Row>): (r: seq<Row>)
    ensures |r| <= |data| && r == data[..|r|]
    ensures forall i :: 0 <= i < |r| ==> !IsShort(r[i])
    ensures |r| < |data| ==> IsShort(data[|r|])
  {
    if data == [] || IsShort(data[0]) then [] else [data[0]] + UntilShort(data[1..])
  }

  /** The data rows a loader looks at: the header is dropped and, when the
      loader checks, everything from the first short row on is ignored. */
  function DataRows(rows: seq<Row>, stopOnShort: bool): seq<Row>
    requires rows != []
  {
    if stopOnShort then UntilShort(rows[1..]) else rows[1..]
  }

  /** Parse rows in order; the first row that fails decides the error. */
  function ParseAll<V>(data: seq<Row>, parse: Row -> Result<(string, V)>): (r: Result<seq<(string, V)>>)
    ensures r.Ok? ==> |r.value| == |data|
    ensures r.Ok? ==> forall i :: 0 <= i < |data| ==> parse(data[i]) == Ok(r.value[i])
  {
    if data == [] then Ok([])
    else
      var es :- ParseAll(data[..|data| - 1], parse);
      var e :- parse(data[|data| - 1]);
      Ok(es + [e])
  }

  /** HashMap.put of each entry in order. */
  function PutAll<V>(es: seq<(string, V)>): map<string, V> {
    if es == [] then map[]
    else PutAll(es[..|es| - 1])[es[|es| - 1].0 := es[|es| - 1].1]
  }

  /** The entries parsed before the first row that fails (all of them when
      none fails): what a loop has already done when an exception ends it. */
  function Parsed<V>(data: seq<Row>, parse: Row -> Result<(string, V)>): (r: seq<(string, V)>)
    ensures |r| <= |data|
    ensures forall i :: 0 <= i < |r| ==> parse(data[i]) == Ok(r[i])
    ensures ParseAll(data, parse).Ok? ==> r == ParseAll(data, parse).value
    ensures ParseAll(data, parse).Err? ==> |r| < |data| && parse(data[|r|]) == Err(ParseAll(data, parse).error)
  {
    if data == [] then []
    else
      var init := data[..|data| - 1];
      match ParseAll(init, parse)
      case Err(_) => Parsed(init, parse)
      case Ok(es) =>
        match parse(data[|data| - 1])
        case Ok(e) => es + [e]
        case Err(_) => es
  }

  /** A keyed loader: empty input gives `onEmpty` (the loaders differ on
      whether the exception from reading the missing header is caught),
      otherwise the data rows are parsed and put into a map. */
  function Load<V>(rows: seq<Row>, parse: Row -> Result<(string, V)>, stopOnShort: bool,
                   onEmpty: Result<map<string, V>>): Result<map<string, V>> {
    if rows == [] then onEmpty
    else
      var es :- ParseAll(DataRows(rows, stopOnShort), parse);
      Ok(PutAll(es))
  }

  /** Once a prefix fails, nothing after it matters. */
  lemma {:induction false} ParseAllFailsFast<V>(a: seq<Row>, b: seq<Row>, parse: Row -> Result<(string, V)>)
    requires ParseAll(a, parse).Err?
    ensures ParseAll(a + b, parse) == ParseAll(a, parse)
  {
    if b == [] {
      assert a + b == a;
    } else {
      var ab := a + b;
      ParseAllFailsFast(a, b[..|b| - 1], parse);
      assert ab[..|ab| - 1] == a + b[..|b| - 1];
    }
  }

  /** Once a prefix fails, the rows after it add no entry. */
  lemma {:induction false} ParsedFailsFast<V>(a: seq<Row>, b: seq<Row>, parse: Row -> Result<(string, V)>)
    requires ParseAll(a, parse).Err?
    ensures Parsed(a + b, parse) == Parsed(a, parse)
  {
    if b == [] {
      assert a + b == a;
    } else {
      var ab := a + b;
      ParsedFailsFast(a, b[..|b| - 1], parse);
      ParseAllFailsFast(a, b[..|b| - 1], parse);
      assert ab[..|ab| - 1] == a + b[..|b| - 1];
    }
  }

  /** Parsing one more row extends the parsed prefix by its entry. */
  lemma ParseAllSnoc<V>(data: seq<Row>, i: nat, parse: Row -> Result<(string, V)>)
    requires i < |data|
    ensures ParseAll(data[..i + 1], parse)
            == (match ParseAll(data[..i], parse)
                case Err(e) => Err(e)
                case Ok(es) =>
                  match parse(data[i])
                  case Err(e) => Err(e)
                  case Ok(entry) => Ok(es + [entry]))
  {
    assert data[..i + 1][..i] == data[..i];
  }

  lemma UntilShortStep(data: seq<Row>, i: nat)
    requires i < |data| && !IsShort(data[i])
    ensures UntilShort(data[i..]) == [data[i]] + UntilShort(data[i + 1..])
  {
    assert data[i..][1..] == data[i + 1..];
  }

  /** One more entry is one more put. */
  lemma PutAllSnoc<V>(es: seq<(string, V)>, e: (string, V))
    ensures PutAll(es + [e]) == PutAll(es)[e.0 := e.1]
  {
    assert (es + [e])[..|es|] == es;
  }

  /** The keys of the map are exactly the keys of the entries. */
  lemma {:induction false} PutAllKeys<V>(es: seq<(string, V)>, k: string)
    ensures k in PutAll(es) <==> exists i :: 0 <= i < |es| && es[i].0 == k
  {
    if es != [] {
      var init := es[..|es| - 1];
      PutAllKeys(init, k);
      if exists i :: 0 <= i < |init| && init[i].0 == k {
        var i :| 0 <= i < |init| && init[i].0 == k;
        assert es[i].0 == k;
      }
      if exists i :: 0 <= i < |es| && es[i].0 == k {
        var i :| 0 <= i < |es| && es[i].0 == k;
        if i < |init| { assert init[i].0 == k; }
      }
    }
  }

  /** Last write wins: the value under a key is the one of the last entry
      with that key. */
  lemma {:induction false} PutAllLastWins<V>(es: seq<(string, V)>, i: nat)
    requires i < |es|
    requires forall j :: i < j < |es| ==> es[j].0 != es[i].0
    ensures es[i].0 in PutAll(es) && PutAll(es)[es[i].0] == es[i].1
  {
    if i < |es| - 1 {
      var init := es[..|es| - 1];
      PutAllLastWins(init, i);
    }
  }

  /** Input without any row loads as `onEmpty`; a header alone loads as the
      empty map. */
  lemma LoadHeaderOnly<V>(header: Row, parse: Row -> Result<(string, V)>, stopOnShort: bool,
                          onEmpty: Result<map<string, V>>)
    ensures Load([], parse, stopOnShort, onEmpty) == onEmpty
    ensures Load([header], parse, stopOnShort, onEmpty) == Ok(map[])
  {
    assert [header][1..] == [];
  }

  /** A short row ends a stopping loader: the rows after it are never looked at. */
  lemma {:induction false} UntilShortCut(data: seq<Row>, i: nat)
    requires i < |data| && IsShort(data[i])
    ensures UntilShort(data) == UntilShort(data[..i])
  {
    if i > 0 && !IsShort(data[0]) {
      UntilShortCut(data[1..], i - 1);
      assert data[..i][1..] == data[1..][..i - 1];
    }
  }

  lemma LoadStopsAtShortRow<V>(rows: seq<Row>, parse: Row -> Result<(string, V)>,
                               onEmpty: Result<map<string, V>>, i: nat)
    requires 1 <= i < |rows| && IsShort(rows[i])
    ensures Load(rows, parse, true, onEmpty) == Load(rows[..i], parse, true, onEmpty)
  {
    UntilShortCut(rows[1..], i - 1);
    assert rows[..i][1..] == rows[1..][..i - 1];
  }

  /** What a successful load holds: a key is present exactly when some data
      row carries it, and its value is the one parsed from the last such row. */
  lemma LoadLastWins<V>(rows: seq<Row>, parse: Row -> Result<(string, V)>, stopOnShort: bool,
                        onEmpty: Result<map<string, V>>, i: nat)
    requires rows != [] && Load(rows, parse, stopOnShort, onEmpty).Ok?
    requires i < |DataRows(rows, stopOnShort)|
    ensures parse(DataRows(rows, stopOnShort)[i]).Ok?
    ensures var (k, v) := parse(DataRows(rows, stopOnShort)[i]).value;
            (forall j :: i < j < |DataRows(rows, stopOnShort)| ==>
                parse(DataRows(rows, stopOnShort)[j]).value.0 != k)
            ==> k in Load(rows, parse, stopOnShort, onEmpty).value
                && Load(rows, parse, stopOnShort, onEmpty).value[k] == v
  {
    var es := ParseAll(DataRows(rows, stopOnShort), parse).value;
    if forall j :: i < j < |es| ==> es[j].0 != es[i].0 {
      PutAllLastWins(es, i);
    }
  }

  lemma LoadKeys<V>(rows: seq<Row>, parse: Row -> Result<(string, V)>, stopOnShort: bool,
                    onEmpty: Result<map<string, V>>, k: string)
    requires rows != [] && Load(rows, parse, stopOnShort, onEmpty).Ok?
    ensures k in Load(rows, parse, stopOnShort, onEmpty).value
            <==> exists i :: 0 <= i < |DataRows(rows, stopOnShort)|
                   && parse(DataRows(rows, stopOnShort)[i]).value.0 == k
  {
    var data := DataRows(rows, stopOnShort);
    var es := ParseAll(data, parse).value;
    PutAllKeys(es, k);
    assert forall i :: 0 <= i < |data| ==> parse(data[i]).value == es[i];
  }

  /** The state of a loader's loop after it has looked at `data[..i]` without
      stopping or failing: the rows it will process start with those. */
  ghost predicate Progress<V>(rows: seq<Row>, parse: Row -> Result<(string, V)>, stopOnShort: bool,
                              i: nat, es: seq<(string, V)>)
  {
    && rows != [] && i <= |rows| - 1
    && (stopOnShort ==> UntilShort(rows[1..]) == rows[1..][..i] + UntilShort(rows[1..][i..]))
    && ParseAll(rows[1..][..i], parse) == Ok(es)
  }

  lemma ProgressStart<V>(rows: seq<Row>, parse: Row -> Result<(string, V)>, stopOnShort: bool)
    requires rows != []
    ensures Progress(rows, parse, stopOnShort, 0, [])
  {
    assert rows[1..][..0] == [];
    assert rows[1..][0..] == rows[1..];
  }

  /** The loop stops, at a short row or at the end: what it has is the load. */
  lemma ProgressDone<V>(rows: seq<Row>, parse: Row -> Result<(string, V)>, stopOnShort: bool,
                        onEmpty: Result<map<string, V>>, i: nat, es: seq<(string, V)>)
    requires Progress(rows, parse, stopOnShort, i, es)
    requires i == |rows| - 1 || (stopOnShort && IsShort(rows[1..][i]))
    ensures ParseAll(DataRows(rows, stopOnShort), parse) == Ok(es)
    ensures Load(rows, parse, stopOnShort, onEmpty) == Ok(PutAll(es))
  {
    var data := rows[1..];
    if i == |data| {
      assert data[..i] == data;
    } else {
      assert UntilShort(data[i..]) == [];
    }
  }

  /** The row at i fails to parse: the load fails with its error. */
  lemma ProgressFails<V>(rows: seq<Row>, parse: Row -> Result<(string, V)>, stopOnShort: bool,
                         onEmpty: Result<map<string, V>>, i: nat, es: seq<(string, V)>)
    requires Progress(rows, parse, stopOnShort, i, es) && i < |rows| - 1
    requires stopOnShort ==> !IsShort(rows[1..][i])
    requires parse(rows[1..][i]).Err?
    ensures Load(rows, parse, stopOnShort, onEmpty) == Err(parse(rows[1..][i]).error)
    ensures ParseAll(DataRows(rows, stopOnShort), parse) == Err(parse(rows[1..][i]).error)
    ensures Parsed(DataRows(rows, stopOnShort), parse) == es
  {
    var data := rows[1..];
    var e := parse(data[i]).error;
    assert ParseAll(data[..i + 1], parse) == Err(e) by {
      ParseAllSnoc(data, i, parse);
    }
    var tail := DataRowsSplit(rows, stopOnShort, i);
    assert ParseAll(DataRows(rows, stopOnShort), parse) == Err(e) by {
      ParseAllFailsFast(data[..i + 1], tail, parse);
    }
    assert Load(rows, parse, stopOnShort, onEmpty) == Err(e) by {
      LoadErr(rows, parse, stopOnShort, onEmpty);
    }
    assert Parsed(DataRows(rows, stopOnShort), parse) == es by {
      assert data[..i + 1][..i] == data[..i];
      ParsedFailsFast(data[..i + 1], tail, parse);
    }
  }

  /** A load whose data rows fail to parse fails with the same error. */
  lemma LoadErr<V>(rows: seq<Row>, parse: Row -> Result<(string, V)>, stopOnShort: bool,
                   onEmpty: Result<map<string, V>>)
    requires rows != [] && ParseAll(DataRows(rows, stopOnShort), parse).Err?
    ensures Load(rows, parse, stopOnShort, onEmpty) == Err(ParseAll(DataRows(rows, stopOnShort), parse).error)
  {
  }

  /** The row at i parses: the loop moves on with one more entry. */
  lemma ProgressStep<V>(rows: seq<Row>, parse: Row -> Result<(string, V)>, stopOnShort: bool,
                        i: nat, es: seq<(string, V)>)
    requires Progress(rows, parse, stopOnShort, i, es) && i < |rows| - 1
    requires stopOnShort ==> !IsShort(rows[1..][i])
    requires parse(rows[1..][i]).Ok?
    ensures Progress(rows, parse, stopOnShort, i + 1, es + [parse(rows[1..][i]).value])
  {
    var data := rows[1..];
    var entry := parse(data[i]).value;
    ParseAllSnoc(data, i, parse);
    assert ParseAll(data[..i + 1], parse) == Ok(es + [entry]);
    if stopOnShort {
      UntilShortPrefixStep(data, i);
    }
  }

  /** The data rows, cut after row i of a loop that has not stopped yet. */
  lemma DataRowsSplit(rows: seq<Row>, stopOnShort: bool, i: nat) returns (tail: seq<Row>)
    requires rows != [] && i < |rows| - 1
    requires stopOnShort ==> !IsShort(rows[1..][i])
    requires stopOnShort ==> UntilShort(rows[1..]) == rows[1..][..i] + UntilShort(rows[1..][i..])
    ensures DataRows(rows, stopOnShort) == rows[1..][..i + 1] + tail
  {
    var data := rows[1..];
    if stopOnShort {
      UntilShortPrefixStep(data, i);
      tail := UntilShort(data[i + 1..]);
    } else {
      tail := data[i + 1..];
      assert data == data[..i + 1] + tail;
    }
  }

  /** The kept prefix grows by one non-short row. */
  lemma UntilShortPrefixStep(data: seq<Row>, i: nat)
    requires i < |data| && !IsShort(data[i])
    requires UntilShort(data) == data[..i] + UntilShort(data[i..])
    ensures UntilShort(data) == data[..i + 1] + UntilShort(data[i + 1..])
  {
    UntilShortStep(data, i);
    ConsPrefix(data, i, UntilShort(data[i + 1..]));
  }

  lemma ConsPrefix<T>(data: seq<T>, i: nat, tail: seq<T>)
    requires i < |data|
    ensures data[..i] + ([data[i]] + tail) == data[..i + 1] + tail
  {
    assert data[..i] + [data[i]] == data[..i + 1];
  }

  /** The loop every value-building loader runs: read the header, then row
      after row either stop, fail, or put the parsed entry. */
  method LoadValues<V>(rows: seq<Row>, parse: Row -> Result<(string, V)>, stopOnShort: bool,
                       onEmpty: Result<map<string, V>>)
    returns (r: Result<map<string, V>>)
    ensures r == Load(rows, parse, stopOnShort, onEmpty)
  {
    if rows == [] {
      return onEmpty;
    }
    var data := rows[1..];
    var m: map<string, V> := map[];
    ghost var es: seq<(string, V)> := [];
    ProgressStart(rows, parse, stopOnShort);
    var i := 0;
    while i < |data|
      invariant Progress(rows, parse, stopOnShort, i, es)
      invariant m == PutAll(es)
    {
      var row := data[i];
      if stopOnShort && IsShort(row) {
        ProgressDone(rows, parse, stopOnShort, onEmpty, i, es);
        return Ok(m);
      }
      match parse(row)
      case Err(e) =>
        ProgressFails(rows, parse, stopOnShort, onEmpty, i, es);
        return Err(e);
      case Ok(entry) =>
        ProgressStep(rows, parse, stopOnShort, i, es);
        m := m[entry.0 := entry.1];
        es := es + [entry];
        i := i + 1;
    }
    ProgressDone(rows, parse, stopOnShort, onEmpty, i, es);
    return Ok(m);
  }

  /** Every entry of a loaded map comes from some data row: the value under
      k is what that row parsed to, with k as its key. */
  lemma LoadSound<V>(rows: seq<Row>, parse: Row -> Result<(string, V)>, stopOnShort: bool,
                     onEmpty: Result<map<string, V>>, k: string)
    requires rows != [] && Load(rows, parse, stopOnShort, onEmpty).Ok?
    requires k in Load(rows, parse, stopOnShort, onEmpty).value
    ensures exists i :: 0 <= i < |DataRows(rows, stopOnShort)|
              && parse(DataRows(rows, stopOnShort)[i]) == Ok((k, Load(rows, parse, stopOnShort, onEmpty).value[k]))
  {
    var data := DataRows(rows, stopOnShort);
    var es := ParseAll(data, parse).value;
    var i := PutAllSource(es, k);
    assert parse(data[i]) == Ok(es[i]);
  }

  /** The index of the entry whose value PutAll keeps under k. */
  lemma {:induction false} PutAllSource<V>(es: seq<(string, V)>, k: string) returns (i: nat)
    requires k in PutAll(es)
    ensures i < |es| && es[i] == (k, PutAll(es)[k])
  {
    var init := es[..|es| - 1];
    if es[|es| - 1].0 == k {
      i := |es| - 1;
    } else {
      i := PutAllSource(init, k);
    }
  }

  /** new ArrayList<>(map.values()): the values, one per key, in the order
      of some enumeration of the keys (a HashMap's order is not specified). */
  method ValuesList<K, V(==)>(m: map<K, V>) returns (r: seq<V>, ghost keys: seq<K>)
    ensures |r| == |m| && |keys| == |r|
    ensures forall i :: 0 <= i < |keys| ==> keys[i] in m && r[i] == m[keys[i]]
    ensures forall i, j :: 0 <= i < j < |keys| ==> keys[i] != keys[j]
    ensures forall k :: k in m ==> k in keys
    ensures forall v :: v in r <==> v in m.Values
  {
    r, keys := [], [];
    var rest := m.Keys;
    while rest != {}
      invariant rest <= m.Keys
      invariant |keys| == |r| && |keys| + |rest| == |m.Keys|
      invariant forall i :: 0 <= i < |keys| ==> keys[i] in m && keys[i] !in rest && r[i] == m[keys[i]]
      invariant forall i, j :: 0 <= i < j < |keys| ==> keys[i] != keys[j]
      invariant forall k :: k in m ==> k in keys || k in rest
      decreases |rest|
    {
      var k :| k in rest;
      r, keys := r + [m[k]], keys + [k];
      rest := rest - {k};
    }
    forall v | v in m.Values
      ensures v in r
    {
      var k :| k in m && m[k] == v;
      var i :| 0 <= i < |keys| && keys[i] == k;
      assert r[i] == v;
    }
  }
}
