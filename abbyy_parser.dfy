/** `parse_abbyy_response` (api/utils.py): reduces the verbose extraction
    result of ABBYY Vantage to a flat dict from field names to values, with
    the `techSpecs` table as a list of row dicts. The dict is built in place
    by nested loops; the functions below state what those loops compute, the
    methods are the loops. */
module AbbyyParser {
  import opened Json
  import opened Py

  const ParseFailedMessage: string := "Failed to parse the ABBYY JSON structure."
  const TechSpecs: string := "techSpecs"

  /** A value of the cleaned dict: a field's value, or the rows of the
      `techSpecs` table. Keys are the (hashable) names as they appear in the
      input. */
  datatype Entry = Value(v: Json) | Rows(rows: seq<map<Json, Json>>)

  type Clean = map<Json, Entry>

  /** What the parser returns when the structure is not as expected. */
  function ErrorDict(): Clean {
    map[JStr("error") := Value(JStr(ParseFailedMessage))]
  }

  /** The exceptions the parser handles itself. */
  predicate Caught(e: Exc) {
    e.name == "KeyError" || e.name == "IndexError" || e.name == "TypeError"
  }

  function Unhashable(k: Json): Exc {
    Error("TypeError", "unhashable type: '" + TypeName(k) + "'")
  }

  /** `d[k] = v`: a list or a dict cannot be a key. */
  function Store<T>(d: map<Json, T>, k: Json, v: T): (r: Result<map<Json, T>>)
    ensures r.Ok? <==> Hashable(k)
    ensures r.Ok? ==> r.value == d[k := v]
  {
    if Hashable(k) then Ok(d[k := v]) else Raised(Unhashable(k))
  }

  /** `r[key]` chained after a lookup that may already have raised. */
  function Index(r: Result<Json>, key: Json): Result<Json> {
    match r
    case Raised(e) => Raised(e)
    case Ok(v) => Sub(v, key)
  }

  // ---------------------------------------------------------------------
  // What the loops compute

  /** `x.get('Name')` and `x.get('List')` of a field or a column that is a
      dict. */
  function NameOf(x: Json): Json {
    if x.JObj? && "Name" in x.fields then x.fields["Name"] else JNull
  }

  function ListOf(x: Json): Json {
    if x.JObj? && "List" in x.fields then x.fields["List"] else JNull
  }

  /** A field or column the parser does not skip. */
  predicate Named(x: Json) {
    Truthy(NameOf(x)) && Truthy(ListOf(x))
  }

  /** The names of the fields or columns that are not skipped. */
  function NamesOf(xs: seq<Json>): set<Json>
    decreases |xs|
  {
    if xs == [] then {} else (if Named(xs[0]) then {NameOf(xs[0])} else {}) + NamesOf(xs[1..])
  }

  /** `list[0].get('Value')`. */
  function FirstValue(list: Json): Result<Json> {
    match First(list)
    case Raised(e) => Raised(e)
    case Ok(item) => Get(item, "Value", JNull)
  }

  /** One column of a table row added to the row's dict. */
  function ColumnStep(row: map<Json, Json>, column: Json): Result<map<Json, Json>> {
    match Get(column, "Name", JNull)
    case Raised(e) => Raised(e)
    case Ok(name) =>
      if !Named(column) then Ok(row)
      else
        match FirstValue(ListOf(column))
        case Raised(e) => Raised(e)
        case Ok(v) => Store(row, name, v)
  }

  function Columns(row: map<Json, Json>, columns: seq<Json>): Result<map<Json, Json>>
    decreases |columns|
  {
    if columns == [] then Ok(row)
    else
      match ColumnStep(row, columns[0])
      case Raised(e) => Raised(e)
      case Ok(r) => Columns(r, columns[1..])
  }

  /** `row.get('Value', {}).get('Fields', [])`, iterated. */
  function RowColumns(row: Json): Result<seq<Json>> {
    match Get(row, "Value", JObj(map[]))
    case Raised(e) => Raised(e)
    case Ok(value) =>
      match Get(value, "Fields", JArr([]))
      case Raised(e) => Raised(e)
      case Ok(fields) => Iterate(fields)
  }

  /** The dict one table row yields. */
  function RowData(row: Json): Result<map<Json, Json>> {
    match RowColumns(row)
    case Raised(e) => Raised(e)
    case Ok(columns) => Columns(map[], columns)
  }

  /** The table: the rows that yield a non-empty dict, appended to `acc`. */
  function Table(acc: seq<map<Json, Json>>, rows: seq<Json>): Result<seq<map<Json, Json>>>
    decreases |rows|
  {
    if rows == [] then Ok(acc)
    else
      match RowData(rows[0])
      case Raised(e) => Raised(e)
      case Ok(d) => Table(if d != map[] then acc + [d] else acc, rows[1..])
  }

  /** One field added to the cleaned dict. */
  function FieldStep(clean: Clean, field: Json): Result<Clean> {
    match Get(field, "Name", JNull)
    case Raised(e) => Raised(e)
    case Ok(name) =>
      if !Named(field) then Ok(clean)
      else if name == JStr(TechSpecs) then
        match Iterate(ListOf(field))
        case Raised(e) => Raised(e)
        case Ok(rows) =>
          match Table([], rows)
          case Raised(e) => Raised(e)
          case Ok(t) => Ok(clean[name := Rows(t)])
      else
        match FirstValue(ListOf(field))
        case Raised(e) => Raised(e)
        case Ok(v) => Store(clean, name, Value(v))
  }

  function Fields(clean: Clean, fields: seq<Json>): Result<Clean>
    decreases |fields|
  {
    if fields == [] then Ok(clean)
    else
      match FieldStep(clean, fields[0])
      case Raised(e) => Raised(e)
      case Ok(c) => Fields(c, fields[1..])
  }

  /** `raw['Transaction']['Documents'][0]['ExtractedData']['RootObject']['Fields']`. */
  function FieldList(raw: Json): Result<Json> {
    var documents := Index(Key(raw, "Transaction"), JStr("Documents"));
    Index(Index(Index(Index(documents, JNum(0)), JStr("ExtractedData")), JStr("RootObject")), JStr("Fields"))
  }

  /** The loops' outcome before the exception handler. */
  function Extracted(raw: Json): Result<Clean> {
    match FieldList(raw)
    case Raised(e) => Raised(e)
    case Ok(f) =>
      match Iterate(f)
      case Raised(e) => Raised(e)
      case Ok(fields) => Fields(map[], fields)
  }

  /** What `parse_abbyy_response` returns or raises. */
  function Parsed(raw: Json): (r: Result<Clean>)
    ensures r.Raised? ==> !Caught(r.exc)
  {
    var r := Extracted(raw);
    if r.Raised? && Caught(r.exc) then Ok(ErrorDict()) else r
  }

  // ---------------------------------------------------------------------
  // The loops

  /** The inner loop: the dict of one table row. */
  method ReadRow(row: Json) returns (r: Result<map<Json, Json>>)
    ensures r == RowData(row)
  {
    var value := Get(row, "Value", JObj(map[]));
    if value.Raised? {
      return Raised(value.exc);
    }
    var fields := Get(value.value, "Fields", JArr([]));
    if fields.Raised? {
      return Raised(fields.exc);
    }
    var columns := Iterate(fields.value);
    if columns.Raised? {
      return Raised(columns.exc);
    }
    var cols := columns.value;
    var rowData: map<Json, Json> := map[];
    var i := 0;
    while i < |cols|
      invariant 0 <= i <= |cols|
      invariant Columns(rowData, cols[i..]) == RowData(row)
    {
      var column := cols[i];
      assert cols[i..][0] == column && cols[i..][1..] == cols[i + 1..];
      var name := Get(column, "Name", JNull);
      if name.Raised? {
        return Raised(name.exc);
      }
      var list := Get(column, "List", JNull).value;
      if Truthy(name.value) && Truthy(list) {
        var first := First(list);
        if first.Raised? {
          return Raised(first.exc);
        }
        var v := Get(first.value, "Value", JNull);
        if v.Raised? {
          return Raised(v.exc);
        }
        if !Hashable(name.value) {
          return Raised(Unhashable(name.value));
        }
        rowData := rowData[name.value := v.value];
      }
      i := i + 1;
    }
    return Ok(rowData);
  }

  /** The table loop: one dict per row that yields any column. */
  method ReadTable(rows: seq<Json>) returns (r: Result<seq<map<Json, Json>>>)
    ensures r == Table([], rows)
  {
    var table: seq<map<Json, Json>> := [];
    var i := 0;
    while i < |rows|
      invariant 0 <= i <= |rows|
      invariant Table(table, rows[i..]) == Table([], rows)
    {
      assert rows[i..][0] == rows[i] && rows[i..][1..] == rows[i + 1..];
      var rowData := ReadRow(rows[i]);
      if rowData.Raised? {
        return Raised(rowData.exc);
      }
      if rowData.value != map[] {
        table := table + [rowData.value];
      }
      i := i + 1;
    }
    return Ok(table);
  }

  /** The field loop. */
  method ReadFields(fields: seq<Json>) returns (r: Result<Clean>)
    ensures r == Fields(map[], fields)
  {
    var clean: Clean := map[];
    var i := 0;
    while i < |fields|
      invariant 0 <= i <= |fields|
      invariant Fields(clean, fields[i..]) == Fields(map[], fields)
    {
      var field := fields[i];
      assert fields[i..][0] == field && fields[i..][1..] == fields[i + 1..];
      var name := Get(field, "Name", JNull);
      if name.Raised? {
        return Raised(name.exc);
      }
      var list := Get(field, "List", JNull).value;
      if Truthy(name.value) && Truthy(list) {
        if name.value == JStr(TechSpecs) {
          var rows := Iterate(list);
          if rows.Raised? {
            return Raised(rows.exc);
          }
          var table := ReadTable(rows.value);
          if table.Raised? {
            return Raised(table.exc);
          }
          clean := clean[name.value := Rows(table.value)];
        } else {
          var v := FirstValue(list);
          if v.Raised? {
            return Raised(v.exc);
          }
          if !Hashable(name.value) {
            return Raised(Unhashable(name.value));
          }
          clean := clean[name.value := Value(v.value)];
        }
      }
      i := i + 1;
    }
    return Ok(clean);
  }

  /** `parse_abbyy_response(raw_data)`. */
  method ParseAbbyyResponse(raw: Json) returns (r: Result<Clean>)
    ensures r == Parsed(raw)
  {
    var f := FieldList(raw);
    if f.Ok? {
      var fields := Iterate(f.value);
      if fields.Ok? {
        r := ReadFields(fields.value);
      } else {
        r := Raised(fields.exc);
      }
    } else {
      r := Raised(f.exc);
    }
    if r.Raised? && Caught(r.exc) {
      r := Ok(ErrorDict());
    }
  }

  // ---------------------------------------------------------------------
  // Properties

  lemma FieldStepKeys(c: Clean, f: Json)
    requires FieldStep(c, f).Ok?
    ensures FieldStep(c, f).value.Keys == c.Keys + (if Named(f) then {NameOf(f)} else {})
    ensures forall k :: k in c && (!Named(f) || k != NameOf(f)) ==> FieldStep(c, f).value[k] == c[k]
  {
  }

  /** The cleaned dict has exactly one key per name of a field that is not
      skipped: fields whose Name or List is missing or empty leave no
      trace. */
  lemma {:induction false} FieldsKeys(c: Clean, fields: seq<Json>)
    requires Fields(c, fields).Ok?
    ensures Fields(c, fields).value.Keys == c.Keys + NamesOf(fields)
    decreases |fields|
  {
    if fields != [] {
      FieldStepKeys(c, fields[0]);
      FieldsKeys(FieldStep(c, fields[0]).value, fields[1..]);
    }
  }

  /** An entry no later field names is left as it was. */
  lemma {:induction false} FieldsKeep(c: Clean, fields: seq<Json>, k: Json)
    requires Fields(c, fields).Ok? && k in c && k !in NamesOf(fields)
    ensures k in Fields(c, fields).value && Fields(c, fields).value[k] == c[k]
    decreases |fields|
  {
    if fields != [] {
      FieldStepKeys(c, fields[0]);
      FieldsKeep(FieldStep(c, fields[0]).value, fields[1..], k);
    }
  }

  lemma {:induction false} FieldsAppend(c: Clean, a: seq<Json>, b: seq<Json>)
    ensures Fields(c, a + b) == match Fields(c, a) case Raised(e) => Raised(e) case Ok(m) => Fields(m, b)
    decreases |a|
  {
    if a == [] {
      assert a + b == b;
    } else {
      assert (a + b)[0] == a[0] && (a + b)[1..] == a[1..] + b;
      if FieldStep(c, a[0]).Ok? {
        FieldsAppend(FieldStep(c, a[0]).value, a[1..], b);
      }
    }
  }

  /** A plain field maps its name to the Value of its first List item, and
      when several fields share a name the last one wins. */
  lemma LastFieldWins(c: Clean, before: seq<Json>, f: Json, after: seq<Json>)
    requires Fields(c, before + [f] + after).Ok?
    requires Named(f) && NameOf(f) != JStr(TechSpecs) && NameOf(f) !in NamesOf(after)
    ensures FirstValue(ListOf(f)).Ok?
    ensures NameOf(f) in Fields(c, before + [f] + after).value
            && Fields(c, before + [f] + after).value[NameOf(f)] == Value(FirstValue(ListOf(f)).value)
  {
    FieldsAppend(c, before + [f], after);
    FieldsAppend(c, before, [f]);
    var m := Fields(c, before).value;
    assert Fields(m, [f]) == FieldStep(m, f);
    FieldsKeep(FieldStep(m, f).value, after, NameOf(f));
  }

  /** The last `techSpecs` field becomes the table of its rows. */
  lemma LastTableWins(c: Clean, before: seq<Json>, f: Json, after: seq<Json>)
    requires Fields(c, before + [f] + after).Ok?
    requires Named(f) && NameOf(f) == JStr(TechSpecs) && NameOf(f) !in NamesOf(after)
    ensures Iterate(ListOf(f)).Ok? && Table([], Iterate(ListOf(f)).value).Ok?
    ensures NameOf(f) in Fields(c, before + [f] + after).value
            && Fields(c, before + [f] + after).value[NameOf(f)] == Rows(Table([], Iterate(ListOf(f)).value).value)
  {
    FieldsAppend(c, before + [f], after);
    FieldsAppend(c, before, [f]);
    var m := Fields(c, before).value;
    assert Fields(m, [f]) == FieldStep(m, f);
    FieldsKeep(FieldStep(m, f).value, after, NameOf(f));
  }

  lemma ColumnStepKeys(row: map<Json, Json>, column: Json)
    requires ColumnStep(row, column).Ok?
    ensures ColumnStep(row, column).value.Keys == row.Keys + (if Named(column) then {NameOf(column)} else {})
    ensures Named(column) ==> FirstValue(ListOf(column)).Ok?
                               && ColumnStep(row, column).value[NameOf(column)] == FirstValue(ListOf(column)).value
  {
  }

  /** A row's dict has one key per column that is not skipped. */
  lemma {:induction false} ColumnsKeys(row: map<Json, Json>, columns: seq<Json>)
    requires Columns(row, columns).Ok?
    ensures Columns(row, columns).value.Keys == row.Keys + NamesOf(columns)
    decreases |columns|
  {
    if columns != [] {
      ColumnStepKeys(row, columns[0]);
      ColumnsKeys(ColumnStep(row, columns[0]).value, columns[1..]);
    }
  }

  /** Every row in the table is non-empty, and the rows already collected
      stay in front. */
  lemma {:induction false} TableRowsNonEmpty(acc: seq<map<Json, Json>>, rows: seq<Json>)
    requires Table(acc, rows).Ok?
    ensures var t := Table(acc, rows).value;
            |acc| <= |t| <= |acc| + |rows| && t[..|acc|] == acc
            && forall i :: |acc| <= i < |t| ==> t[i] != map[]
    decreases |rows|
  {
    if rows != [] {
      var d := RowData(rows[0]).value;
      var acc' := if d != map[] then acc + [d] else acc;
      TableRowsNonEmpty(acc', rows[1..]);
      var t := Table(acc, rows).value;
      assert t[..|acc'|] == acc';
      assert t[..|acc|] == acc'[..|acc|];
    }
  }

  /** Rows are taken in order: the rows of a prefix come before those of the
      rest. */
  lemma {:induction false} TableAppend(acc: seq<map<Json, Json>>, a: seq<Json>, b: seq<Json>)
    ensures Table(acc, a + b) == match Table(acc, a) case Raised(e) => Raised(e) case Ok(t) => Table(t, b)
    decreases |a|
  {
    if a == [] {
      assert a + b == b;
    } else {
      assert (a + b)[0] == a[0] && (a + b)[1..] == a[1..] + b;
      if RowData(a[0]).Ok? {
        var d := RowData(a[0]).value;
        TableAppend(if d != map[] then acc + [d] else acc, a[1..], b);
      }
    }
  }

  /** The parser returns either the error dict or a dict keyed by exactly the
      names of the fields it did not skip. */
  lemma ParsedKeys(raw: Json)
    requires Parsed(raw).Ok?
    ensures var out := Parsed(raw).value;
            || out == ErrorDict()
            || (&& FieldList(raw).Ok? && Iterate(FieldList(raw).value).Ok?
                && out.Keys == NamesOf(Iterate(FieldList(raw).value).value))
  {
    if Extracted(raw).Ok? {
      FieldsKeys(map[], Iterate(FieldList(raw).value).value);
    }
  }

  /** A KeyError, IndexError or TypeError anywhere drops everything parsed
      so far: a field whose List is a non-empty dict fails the `[0]` lookup,
      however many good fields come before it. */
  lemma ErrorDiscardsPartial(good: seq<Json>, bad: Json)
    requires Fields(map[], good).Ok?
    requires Named(bad) && NameOf(bad) != JStr(TechSpecs) && ListOf(bad).JObj?
    ensures var raw := Wrap(good + [bad]);
            Parsed(raw) == Ok(ErrorDict())
  {
    var raw := Wrap(good + [bad]);
    WrapFields(good + [bad]);
    FieldsAppend(map[], good, [bad]);
    var m := Fields(map[], good).value;
    assert Fields(m, [bad]) == FieldStep(m, bad);
  }

  /** The input shape the parser expects, around a list of fields. */
  function Wrap(fields: seq<Json>): Json {
    var root := Obj1("RootObject", Obj1("Fields", JArr(fields)));
    Obj1("Transaction", Obj1("Documents", JArr([Obj1("ExtractedData", root)])))
  }

  lemma WrapFields(fields: seq<Json>)
    ensures FieldList(Wrap(fields)) == Ok(JArr(fields))
    ensures Extracted(Wrap(fields)) == Fields(map[], fields)
  {
    var fieldsObj := Obj1("Fields", JArr(fields));
    var root := Obj1("RootObject", fieldsObj);
    var doc := Obj1("ExtractedData", root);
    var docs := Obj1("Documents", JArr([doc]));
    IndexOne("Transaction", docs);
    IndexOne("Documents", JArr([doc]));
    IndexFirst(doc);
    IndexOne("ExtractedData", root);
    IndexOne("RootObject", fieldsObj);
    IndexOne("Fields", JArr(fields));
  }

  lemma IndexOne(key: string, v: Json)
    ensures Key(Obj1(key, v), key) == Ok(v) && Index(Ok(Obj1(key, v)), JStr(key)) == Ok(v)
  {
  }

  lemma IndexFirst(v: Json)
    ensures Index(Ok(JArr([v])), JNum(0)) == Ok(v)
  {
  }

  /** A field that is not a dict is not handled: `field.get` raises an
      AttributeError, which escapes the parser. */
  lemma NonDictFieldEscapes(field: Json)
    requires !field.JObj?
    ensures Parsed(Wrap([field])).Raised? && Parsed(Wrap([field])).exc.name == "AttributeError"
  {
    WrapFields([field]);
  }

  /** A missing `Transaction` key yields the error dict. */
  lemma MissingTransaction()
    ensures Parsed(JObj(map[])) == Ok(ErrorDict())
  {
  }
}
