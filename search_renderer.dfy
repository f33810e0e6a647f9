/**
 * `convert_search_results_to_csv` and the helpers behind it: a search response is
 * rendered as CSV when it carries hits, as indented JSON when it carries only
 * aggregations, as both when it carries both, and as a fixed message otherwise.
 *
 * Each hit's `_source` is flattened into dotted column names by two walks that branch
 * alike: `_flatten_fields` collects the names and `_flatten_object` fills one row. The
 * main fact proved here is that the two agree, so a row never holds a key outside the
 * header and the `DictWriter` never raises.
 */
module SearchRenderer {
  import opened Wrappers
  import opened JsonValues
  import StringOrder
  import Csv

  /** The library serialisers the renderer calls, taken as given. */
  datatype Serializers = Serializers(
    dumps: Json -> string,          // json.dumps(v)
    dumpsIndented: Json -> string,  // json.dumps(v, indent=2)
    str: Json -> string)            // str(v) for a value that is not a string or None

  /**
   * What Python raises on a response of the wrong shape: a KeyError for a missing key,
   * and WrongType for the TypeError or AttributeError of indexing, iterating or calling
   * `.items()`/`.get` on a value of the wrong type.
   */
  datatype RenderError = KeyError(key: string) | WrongType

  const NoResults: string := "No search results to convert"
  const NoDocuments: string := "No documents found in search results"

  /** The metadata columns every hit contributes. */
  const Metadata: set<string> := {"_index", "_id", "_score"}

  /* ---------- the Python operations the renderer applies to JSON values ---------- */

  /** `key in v`: a key of a dict, an element of a list, a substring of a str. */
  function Contains(v: Json, key: string): (r: Result<bool, RenderError>)
    ensures v.Obj? ==> r == Ok(key in KeySet(v.fields))
    ensures r.Err? <==> !(v.Obj? || v.Arr? || v.Str?)
  {
    match PyIn(v, key)
    case Some(b) => Ok(b)
    case None => Err(WrongType)
  }

  /** `v[key]`: only a dict holding the key can be indexed by a string. */
  function Subscript(v: Json, key: string): (r: Result<Json, RenderError>)
    ensures r.Ok? <==> v.Obj? && key in KeySet(v.fields)
    ensures r.Ok? ==> Some(r.value) == Lookup(v.fields, key)
    ensures v.Obj? && key !in KeySet(v.fields) ==> r == Err(KeyError(key))
  {
    match v
    case Obj(o) =>
      (match Lookup(o, key)
       case Some(x) => Ok(x)
       case None => Err(KeyError(key)))
    case _ => Err(WrongType)
  }

  /** The text a value takes in a cell: `str(value)`, with None written as the empty string. */
  function Text(ser: Serializers, v: Json): string {
    match v
    case Null => ""
    case Str(s) => s
    case _ => ser.str(v)
  }

  /* ---------- the columns: _flatten_fields ---------- */

  /** The names one entry contributes: a dict its sub-paths, a list of dicts its first element's sub-paths and its own name, anything else its own name. */
  function EntryFields(name: string, value: Json): set<string>
    decreases value
  {
    match value
    case Obj(o) => FieldsOf(o, |o|, name + ".")
    case Arr(items) =>
      if items != [] && items[0].Obj? then FieldsOf(items[0].fields, |items[0].fields|, name + ".") + {name}
      else {name}
    case _ => {name}
  }

  /** The names the first `n` entries of `obj` contribute under `prefix`. */
  function FieldsOf(obj: Object, n: nat, prefix: string): set<string>
    requires n <= |obj|
    decreases Obj(obj), n
  {
    if n == 0 then {}
    else FieldsOf(obj, n - 1, prefix) + EntryFields(prefix + obj[n - 1].0, obj[n - 1].1)
  }

  /** `_flatten_fields(obj, fields, prefix)`: adds the column names of `obj` to `fields`. */
  method FlattenFields(obj: Object, fields: set<string>, prefix: string) returns (r: set<string>)
    ensures r == fields + FieldsOf(obj, |obj|, prefix)
    decreases Obj(obj)
  {
    r := fields;
    for i := 0 to |obj|
      invariant r == fields + FieldsOf(obj, i, prefix)
    {
      var (key, value) := obj[i];
      // f'{prefix}{key}' if prefix else key
      var name := prefix + key;
      if value.Obj? {
        r := FlattenFields(value.fields, r, name + ".");
      } else if value.Arr? && value.items != [] && value.items[0].Obj? {
        r := FlattenFields(value.items[0].fields, r, name + ".");
        r := r + {name};
      } else {
        r := r + {name};
      }
    }
  }

  /* ---------- one row: _flatten_object ---------- */

  /** The row after the writes of one entry, in the order `_flatten_object` makes them. */
  function EntryRow(ser: Serializers, row: Object, name: string, value: Json): Object
    decreases value
  {
    match value
    case Obj(o) => RowAfter(ser, row, o, |o|, name + ".")
    case Arr(items) =>
      var inner := if items != [] && items[0].Obj? then RowAfter(ser, row, items[0].fields, |items[0].fields|, name + ".") else row;
      SetKey(inner, name, Str(ser.dumps(value)))
    case _ => SetKey(row, name, Str(Text(ser, value)))
  }

  /** The row after the writes of the first `n` entries of `obj` under `prefix`. */
  function RowAfter(ser: Serializers, row: Object, obj: Object, n: nat, prefix: string): Object
    requires n <= |obj|
    decreases Obj(obj), n
  {
    if n == 0 then row
    else EntryRow(ser, RowAfter(ser, row, obj, n - 1, prefix), prefix + obj[n - 1].0, obj[n - 1].1)
  }

  /** `_flatten_object(obj, row, prefix)`: writes the flattened cells of `obj` into `row`. */
  method FlattenObject(ser: Serializers, obj: Object, row: Object, prefix: string) returns (r: Object)
    ensures r == RowAfter(ser, row, obj, |obj|, prefix)
    decreases Obj(obj)
  {
    r := row;
    for i := 0 to |obj|
      invariant r == RowAfter(ser, row, obj, i, prefix)
    {
      var (key, value) := obj[i];
      var name := prefix + key;
      if value.Obj? {
        r := FlattenObject(ser, value.fields, r, name + ".");
      } else if value.Arr? {
        if value.items != [] && value.items[0].Obj? {
          r := FlattenObject(ser, value.items[0].fields, r, name + ".");
        }
        r := SetKey(r, name, Str(ser.dumps(value)));
      } else {
        r := SetKey(r, name, Str(Text(ser, value)));
      }
    }
  }

  /* ---------- the two walks agree ---------- */

  lemma {:induction false} EntryRowKeys(ser: Serializers, row: Object, name: string, value: Json)
    ensures KeySet(EntryRow(ser, row, name, value)) == KeySet(row) + EntryFields(name, value)
    decreases value
  {
    match value
    case Obj(o) =>
      RowAfterKeys(ser, row, o, |o|, name + ".");
    case Arr(items) =>
      var inner := if items != [] && items[0].Obj? then RowAfter(ser, row, items[0].fields, |items[0].fields|, name + ".") else row;
      if items != [] && items[0].Obj? {
        RowAfterKeys(ser, row, items[0].fields, |items[0].fields|, name + ".");
      }
      SetKeyKeys(inner, name, Str(ser.dumps(value)));
    case _ =>
      SetKeyKeys(row, name, Str(Text(ser, value)));
  }

  /** The keys `_flatten_object` writes are exactly the names `_flatten_fields` collects. */
  lemma {:induction false} RowAfterKeys(ser: Serializers, row: Object, obj: Object, n: nat, prefix: string)
    requires n <= |obj|
    ensures KeySet(RowAfter(ser, row, obj, n, prefix)) == KeySet(row) + FieldsOf(obj, n, prefix)
    decreases Obj(obj), n
  {
    if n > 0 {
      RowAfterKeys(ser, row, obj, n - 1, prefix);
      EntryRowKeys(ser, RowAfter(ser, row, obj, n - 1, prefix), prefix + obj[n - 1].0, obj[n - 1].1);
    }
  }

  /** A list cell holds the JSON text of the whole list; None is written as ""; other scalars as str(value). */
  lemma EntryCell(ser: Serializers, row: Object, name: string, value: Json)
    requires !value.Obj?
    ensures value.Arr? ==> Lookup(EntryRow(ser, row, name, value), name) == Some(Str(ser.dumps(value)))
    ensures value.Null? ==> Lookup(EntryRow(ser, row, name, value), name) == Some(Str(""))
    ensures value.Str? ==> Lookup(EntryRow(ser, row, name, value), name) == Some(value)
    ensures !value.Arr? && !value.Null? && !value.Str? ==>
      Lookup(EntryRow(ser, row, name, value), name) == Some(Str(ser.str(value)))
  {
    if value.Arr? {
      var items := value.items;
      var inner := if items != [] && items[0].Obj? then RowAfter(ser, row, items[0].fields, |items[0].fields|, name + ".") else row;
      SetKeySame(inner, name, Str(ser.dumps(value)));
    } else {
      SetKeySame(row, name, Str(Text(ser, value)));
    }
  }

  /* ---------- _convert_hits_to_csv ---------- */

  /** A hit the renderer can process: a dict whose `_source`, when present, is a dict. */
  predicate IsHit(v: Json) {
    v.Obj? && match Lookup(v.fields, "_source") case Some(s) => s.Obj? case None => true
  }

  /** The hit's `_source` dict, or no entries when it has none. */
  function Source(v: Json): Object {
    if v.Obj? then
      match Lookup(v.fields, "_source")
      case Some(Obj(s)) => s
      case _ => []
    else []
  }

  /** The columns one hit contributes: its flattened `_source` names and the metadata. */
  function HitColumns(hit: Json): set<string> {
    FieldsOf(Source(hit), |Source(hit)|, "") + Metadata
  }

  /** The columns the first `n` hits contribute. */
  function Columns(hits: seq<Json>, n: nat): set<string>
    requires n <= |hits|
  {
    if n == 0 then {} else Columns(hits, n - 1) + HitColumns(hits[n - 1])
  }

  /** The row of one hit before its `_source` is flattened into it (lines 355-357). */
  function MetaRow(hit: Json): (r: Object)
    ensures KeySet(r) == Metadata
  {
    var o := if hit.Obj? then hit.fields else [];
    var r: Object := [("_index", GetOr(o, "_index", Str(""))), ("_id", GetOr(o, "_id", Str(""))), ("_score", GetOr(o, "_score", Str("")))];
    assert KeySet(r[2..]) == {"_score"};
    assert KeySet(r[1..]) == {"_id"} + KeySet(r[2..]);
    r
  }

  /** The complete row of one hit. */
  function HitRow(ser: Serializers, hit: Json): Object {
    RowAfter(ser, MetaRow(hit), Source(hit), |Source(hit)|, "")
  }

  /** The cells `DictWriter.writerow` writes: the row's value under each column, or "" when absent. */
  function Cells(ser: Serializers, row: Object, header: seq<string>): (r: seq<string>)
    ensures |r| == |header|
  {
    seq(|header|, i requires 0 <= i < |header| => Text(ser, GetOr(row, header[i], Str(""))))
  }

  /** The records of the first `n` hits under the given header. */
  function Rows(ser: Serializers, hits: seq<Json>, header: seq<string>, n: nat): string
    requires n <= |hits|
  {
    if n == 0 then "" else Rows(ser, hits, header, n - 1) + Csv.Record(Cells(ser, HitRow(ser, hits[n - 1]), header))
  }

  /** The header of a list of hits: its columns in ascending order. */
  function Header(hits: seq<Json>): seq<string> {
    StringOrder.Sorted(Columns(hits, |hits|))
  }

  /**
   * What `_convert_hits_to_csv` returns: a message for no hits, an error for a value
   * that is not a list of hits, and otherwise the header record followed by one record
   * per hit.
   */
  function HitsCsv(ser: Serializers, hits: Json): Result<string, RenderError> {
    if !Truthy(hits) then Ok(NoDocuments)
    else if !hits.Arr? || exists i :: 0 <= i < |hits.items| && !IsHit(hits.items[i]) then Err(WrongType)
    else Ok(Csv.Record(Header(hits.items)) + Rows(ser, hits.items, Header(hits.items), |hits.items|))
  }

  /** The `_source` of a dict hit is the dict under that key, if any. */
  lemma SourceOf(hit: Json)
    requires hit.Obj?
    ensures var source := Lookup(hit.fields, "_source");
      Source(hit) == if source.Some? && source.value.Obj? then source.value.fields else []
  {
  }

  /** The row `_convert_hits_to_csv` builds for a hit: the metadata, then the flattened `_source` if present. */
  lemma HitRowOf(ser: Serializers, hit: Json)
    requires IsHit(hit)
    ensures var source := Lookup(hit.fields, "_source");
      HitRow(ser, hit) == if source.Some? then RowAfter(ser, MetaRow(hit), source.value.fields, |source.value.fields|, "") else MetaRow(hit)
  {
  }

  /** The keys of a hit's row are exactly the columns the hit contributes. */
  lemma HitRowKeys(ser: Serializers, hit: Json)
    ensures KeySet(HitRow(ser, hit)) == HitColumns(hit)
  {
    var source := Source(hit);
    var meta := MetaRow(hit);
    RowAfterKeys(ser, meta, source, |source|, "");
  }

  /** The columns of the first `n` hits include those of every hit before position `n`. */
  lemma {:induction false} ColumnsGrow(hits: seq<Json>, m: nat, n: nat)
    requires 0 < m <= n <= |hits|
    ensures HitColumns(hits[m - 1]) <= Columns(hits, n)
    decreases n
  {
    if m < n {
      ColumnsGrow(hits, m, n - 1);
    }
  }

  /** Every key of a hit's row is in a header that holds all the columns. */
  lemma RowFitsHeader(ser: Serializers, hits: seq<Json>, header: seq<string>, i: nat)
    requires i < |hits|
    requires forall k :: k in Columns(hits, |hits|) ==> k in header
    ensures forall k :: k in KeySet(HitRow(ser, hits[i])) ==> k in header
  {
    HitRowKeys(ser, hits[i]);
    ColumnsGrow(hits, i + 1, |hits|);
  }

  /** One pass of the first loop of `_convert_hits_to_csv`: adds the columns of one hit. */
  method AddHitColumns(hit: Json, allFields: set<string>) returns (r: Result<set<string>, RenderError>)
    ensures r.Ok? <==> IsHit(hit)
    ensures r.Ok? ==> r.value == allFields + HitColumns(hit)
    ensures r.Err? ==> r.error == WrongType
  {
    if !hit.Obj? {
      return Err(WrongType);
    }
    var fields := allFields;
    var source := Lookup(hit.fields, "_source");
    SourceOf(hit);
    if source.Some? {
      if !source.value.Obj? {
        return Err(WrongType);
      }
      fields := FlattenFields(source.value.fields, fields, "");
    }
    return Ok(fields + Metadata);
  }

  /** The first loop of `_convert_hits_to_csv`: every column name over all hits, or the error a malformed hit raises. */
  method CollectColumns(items: seq<Json>) returns (r: Result<set<string>, RenderError>)
    ensures r.Ok? <==> forall j :: 0 <= j < |items| ==> IsHit(items[j])
    ensures r.Ok? ==> r.value == Columns(items, |items|)
    ensures r.Err? ==> r.error == WrongType
  {
    var allFields: set<string> := {};
    for i := 0 to |items|
      invariant forall j :: 0 <= j < i ==> IsHit(items[j])
      invariant allFields == Columns(items, i)
    {
      var next := AddHitColumns(items[i], allFields);
      if next.Err? {
        assert !IsHit(items[i]);
        return next;
      }
      assert next.value == Columns(items, i + 1);
      allFields := next.value;
    }
    return Ok(allFields);
  }

  /** The second loop of `_convert_hits_to_csv`: one record per hit under the given header. */
  method WriteRows(ser: Serializers, items: seq<Json>, fieldnames: seq<string>) returns (output: string)
    requires forall j :: 0 <= j < |items| ==> IsHit(items[j])
    requires forall k :: k in Columns(items, |items|) ==> k in fieldnames
    ensures output == Rows(ser, items, fieldnames, |items|)
  {
    output := "";
    for i := 0 to |items|
      invariant output == Rows(ser, items, fieldnames, i)
    {
      var hit := items[i];
      var row := MetaRow(hit);
      var source := Lookup(hit.fields, "_source");
      if source.Some? {
        row := FlattenObject(ser, source.value.fields, row, "");
      }
      assert row == HitRow(ser, hit) by {
        HitRowOf(ser, hit);
      }
      // DictWriter refuses a row with a key outside the header; that never happens.
      RowFitsHeader(ser, items, fieldnames, i);
      assert forall k :: k in KeySet(row) ==> k in fieldnames;
      output := output + Csv.Record(Cells(ser, row, fieldnames));
    }
  }

  /** `_convert_hits_to_csv(hits)`. */
  method ConvertHitsToCsv(ser: Serializers, hits: Json) returns (r: Result<string, RenderError>)
    ensures r == HitsCsv(ser, hits)
  {
    if !Truthy(hits) {
      return Ok(NoDocuments);
    }
    if !hits.Arr? {
      return Err(WrongType);
    }
    var columns := CollectColumns(hits.items);
    if columns.Err? {
      return Err(columns.error);
    }
    var fieldnames := StringOrder.Sorted(columns.value);
    var rows := WriteRows(ser, hits.items, fieldnames);
    return Ok(Csv.Record(fieldnames) + rows);
  }

  /* ---------- what the CSV holds ---------- */

  /** A column of the first `n` hits comes from one of them: the header holds nothing else. */
  lemma {:induction false} ColumnOwner(hits: seq<Json>, n: nat, c: string) returns (i: nat)
    requires n <= |hits| && c in Columns(hits, n)
    ensures i < n && c in HitColumns(hits[i])
    decreases n
  {
    if c in HitColumns(hits[n - 1]) {
      i := n - 1;
    } else {
      i := ColumnOwner(hits, n - 1, c);
    }
  }

  /**
   * The header is ascending, holds the three metadata columns when there is a hit, and
   * holds every column of every hit; `ColumnOwner` gives the converse.
   */
  lemma HeaderColumns(hits: seq<Json>, i: nat)
    requires i < |hits|
    ensures StringOrder.IsSorted(Header(hits))
    ensures forall m :: m in Metadata ==> m in Header(hits)
    ensures forall c :: c in HitColumns(hits[i]) ==> c in Header(hits)
  {
    ColumnsGrow(hits, i + 1, |hits|);
  }

  /** A product hit of the shape the renderer's documented example uses. */
  function ProductHit(id: string, score: FloatVal, name: string, price: FloatVal): Json {
    Obj([("_index", Str("products")), ("_id", Str(id)), ("_score", Float(score)),
         ("_source", Obj([("name", Str(name)), ("price", Float(price)), ("category", Str("electronics"))]))])
  }

  /** The `_source` of a product hit is its dict of three fields. */
  lemma ProductHitSource(id: string, score: FloatVal, name: string, price: FloatVal)
    ensures Source(ProductHit(id, score, name, price)) == [("name", Str(name)), ("price", Float(price)), ("category", Str("electronics"))]
  {
    var source := [("name", Str(name)), ("price", Float(price)), ("category", Str("electronics"))];
    var fields := ProductHit(id, score, name, price).fields;
    assert Lookup(fields, "_source") == Some(Obj(source)) by {
      assert fields[0].0 != "_source" && fields[1].0 != "_source" && fields[2].0 != "_source";
      assert fields[1..][1..][1..] == [("_source", Obj(source))];
      assert Lookup(fields[1..][1..][1..], "_source") == Some(Obj(source));
    }
  }

  /** The columns of a product hit: its three `_source` fields and the metadata. */
  lemma ProductHitColumns(id: string, score: FloatVal, name: string, price: FloatVal)
    ensures HitColumns(ProductHit(id, score, name, price)) == {"_id", "_index", "_score", "category", "name", "price"}
  {
    var source := [("name", Str(name)), ("price", Float(price)), ("category", Str("electronics"))];
    ProductHitSource(id, score, name, price);
    assert FieldsOf(source, 1, "") == {"name"} by { assert "" + "name" == "name"; }
    assert FieldsOf(source, 2, "") == {"name", "price"} by { assert "" + "price" == "price"; }
    assert FieldsOf(source, 3, "") == {"name", "price", "category"} by { assert "" + "category" == "category"; }
  }

  /** Six strings each below the next are an ascending sequence. */
  lemma AscendingSix(a: string, b: string, c: string, d: string, e: string, f: string)
    requires StringOrder.Less(a, b) && StringOrder.Less(b, c) && StringOrder.Less(c, d)
    requires StringOrder.Less(d, e) && StringOrder.Less(e, f)
    ensures StringOrder.IsSorted([a, b, c, d, e, f])
  {
    StringOrder.SortedFromAdjacent([a, b, c, d, e, f]);
  }

  /** Two product hits give the header `_id,_index,_score,category,name,price`. */
  lemma ProductHeaderExample(hits: seq<Json>, id1: string, score1: FloatVal, name1: string, price1: FloatVal,
                             id2: string, score2: FloatVal, name2: string, price2: FloatVal)
    requires hits == [ProductHit(id1, score1, name1, price1), ProductHit(id2, score2, name2, price2)]
    ensures Header(hits) == ["_id", "_index", "_score", "category", "name", "price"]
  {
    var expected := ["_id", "_index", "_score", "category", "name", "price"];
    ProductHitColumns(id1, score1, name1, price1);
    ProductHitColumns(id2, score2, name2, price2);
    var columns := Columns(hits, |hits|);
    assert Columns(hits, 1) == HitColumns(hits[0]);
    assert columns == {"_id", "_index", "_score", "category", "name", "price"};
    assert StringOrder.Less("_id", "_index") && StringOrder.Less("_index", "_score");
    assert StringOrder.Less("_score", "category") && StringOrder.Less("category", "name");
    assert StringOrder.Less("name", "price");
    AscendingSix("_id", "_index", "_score", "category", "name", "price");
    StringOrder.SortedUnique(StringOrder.Sorted(columns), expected);
  }

  /** Flattening never touches a key outside the names it collects. */
  lemma {:induction false} EntryRowOther(ser: Serializers, row: Object, name: string, value: Json, k: string)
    requires k !in EntryFields(name, value)
    ensures Lookup(EntryRow(ser, row, name, value), k) == Lookup(row, k)
    decreases value
  {
    match value
    case Obj(o) =>
      RowAfterOther(ser, row, o, |o|, name + ".", k);
    case Arr(items) =>
      var inner := if items != [] && items[0].Obj? then RowAfter(ser, row, items[0].fields, |items[0].fields|, name + ".") else row;
      if items != [] && items[0].Obj? {
        RowAfterOther(ser, row, items[0].fields, |items[0].fields|, name + ".", k);
      }
      SetKeyOther(inner, name, Str(ser.dumps(value)), k);
    case _ =>
      SetKeyOther(row, name, Str(Text(ser, value)), k);
  }

  lemma {:induction false} RowAfterOther(ser: Serializers, row: Object, obj: Object, n: nat, prefix: string, k: string)
    requires n <= |obj|
    requires k !in FieldsOf(obj, n, prefix)
    ensures Lookup(RowAfter(ser, row, obj, n, prefix), k) == Lookup(row, k)
    decreases Obj(obj), n
  {
    if n > 0 {
      RowAfterOther(ser, row, obj, n - 1, prefix, k);
      EntryRowOther(ser, RowAfter(ser, row, obj, n - 1, prefix), prefix + obj[n - 1].0, obj[n - 1].1, k);
    }
  }

  /**
   * A metadata column holds the hit's own `_index`, `_id` or `_score` (or "" when the hit
   * has none), unless a flattened `_source` field of the same name overwrites it.
   */
  lemma MetadataCell(ser: Serializers, hit: Json, m: string)
    requires hit.Obj? && m in Metadata
    requires m !in FieldsOf(Source(hit), |Source(hit)|, "")
    ensures Lookup(HitRow(ser, hit), m) == Some(GetOr(hit.fields, m, Str("")))
  {
    var meta := MetaRow(hit);
    RowAfterOther(ser, meta, Source(hit), |Source(hit)|, "", m);
  }

  /** Texts written one after another. */
  function Concat(parts: seq<string>): string {
    if parts == [] then "" else Concat(parts[..|parts| - 1]) + parts[|parts| - 1]
  }

  /** Written one after another, the parts before `i`, part `i` and the parts after it. */
  lemma {:induction false} ConcatAt(parts: seq<string>, i: nat)
    requires i < |parts|
    ensures Concat(parts) == Concat(parts[..i]) + parts[i] + Concat(parts[i + 1..])
    decreases |parts|
  {
    var last := |parts| - 1;
    if i < last {
      ConcatAt(parts[..last], i);
      assert parts[..last][..i] == parts[..i];
      assert parts[..last][i + 1..] == parts[i + 1..][..|parts[i + 1..]| - 1];
      assert parts[..last][i] == parts[i];
    } else {
      assert parts[..last] == parts[..i];
      assert parts[i + 1..] == [];
    }
  }

  /** The records of the first `n` hits, each on its own. */
  function HitRecords(ser: Serializers, hits: seq<Json>, header: seq<string>, n: nat): (r: seq<string>)
    requires n <= |hits|
    ensures |r| == n
  {
    seq(n, i requires 0 <= i < n => Csv.Record(Cells(ser, HitRow(ser, hits[i]), header)))
  }

  lemma HitRecordsPrefix(ser: Serializers, hits: seq<Json>, header: seq<string>, m: nat, n: nat)
    requires m <= n <= |hits|
    ensures HitRecords(ser, hits, header, n)[..m] == HitRecords(ser, hits, header, m)
  {
    assert forall k :: 0 <= k < m ==> HitRecords(ser, hits, header, n)[k] == HitRecords(ser, hits, header, m)[k];
  }

  /** The rows text is the records of the hits written one after another. */
  lemma {:induction false} RowsConcat(ser: Serializers, hits: seq<Json>, header: seq<string>, n: nat)
    requires n <= |hits|
    ensures Rows(ser, hits, header, n) == Concat(HitRecords(ser, hits, header, n))
    decreases n
  {
    if n > 0 {
      RowsConcat(ser, hits, header, n - 1);
      HitRecordsPrefix(ser, hits, header, n - 1, n);
    }
  }

  /**
   * Record `i` of the rows text sits right after the records of the hits before it, and
   * a CSV reader reads it back as that hit's cells, one per header column. The header is
   * never empty, since it always holds the metadata columns (HeaderColumns).
   */
  lemma RowReadsBack(ser: Serializers, hits: seq<Json>, header: seq<string>, n: nat, i: nat)
    requires i < n <= |hits| && header != []
    ensures var before := Rows(ser, hits, header, i);
      var record := Csv.Record(Cells(ser, HitRow(ser, hits[i]), header));
      var text := Rows(ser, hits, header, n);
      |before| + |record| <= |text| && text[..|before|] == before &&
      Csv.ReadRecord(text[|before|..|before| + |record|]) == Cells(ser, HitRow(ser, hits[i]), header)
  {
    var cells := Cells(ser, HitRow(ser, hits[i]), header);
    var parts := HitRecords(ser, hits, header, n);
    RowsConcat(ser, hits, header, n);
    RowsConcat(ser, hits, header, i);
    ConcatAt(parts, i);
    HitRecordsPrefix(ser, hits, header, i, n);
    SliceMiddle(Rows(ser, hits, header, i), parts[i], Concat(parts[i + 1..]));
    Csv.ReadWrittenRecord(cells);
  }

  /** In `a + b + c`, `a` comes first and `b` right after it. */
  lemma SliceMiddle(a: string, b: string, c: string)
    ensures (a + b + c)[..|a|] == a && (a + b + c)[|a|..|a| + |b|] == b
  {
    assert (a + b + c)[..|a|] == (a + b)[..|a|];
    assert (a + b + c)[|a|..|a| + |b|] == (a + b)[|a|..];
  }

  /* ---------- convert_search_results_to_csv ---------- */

  /** `search_results['hits']['hits']`. */
  function InnerHits(results: Json): Result<Json, RenderError> {
    match Subscript(results, "hits")
    case Err(e) => Err(e)
    case Ok(outer) => Subscript(outer, "hits")
  }

  /** The layout of both parts when a response has hits and aggregations. */
  function BothLayout(hitsCsv: string, aggregationsJson: string): string {
    "SEARCH HITS:\n" + hitsCsv + "\n\nAGGREGATIONS:\n" + aggregationsJson
  }

  /**
   * `convert_search_results_to_csv(search_results)`. A dict without `hits` never fails:
   * it is rendered as its indented aggregations, or as the fixed message.
   */
  function ConvertSearchResultsToCsv(ser: Serializers, results: Json): (r: Result<string, RenderError>)
    ensures !Truthy(results) ==> r == Ok(NoResults)
    ensures results.Obj? && "hits" !in KeySet(results.fields) ==>
      r == match Lookup(results.fields, "aggregations")
           case Some(a) => Ok(ser.dumpsIndented(a))
           case None => Ok(NoResults)
  {
    if !Truthy(results) then Ok(NoResults)
    else
      match Contains(results, "hits")
      case Err(e) => Err(e)
      case Ok(containsHits) =>
        var hits := if containsHits then InnerHits(results) else Ok(Bool(false));
        match hits
        case Err(e) => Err(e)
        case Ok(h) =>
          var hasHits := Truthy(h);
          var hasAggregations := Contains(results, "aggregations") == Ok(true);
          if hasAggregations && !hasHits then
            (match Subscript(results, "aggregations")
             case Ok(a) => Ok(ser.dumpsIndented(a))
             case Err(e) => Err(e))
          else if hasHits && !hasAggregations then HitsCsv(ser, h)
          else if hasHits && hasAggregations then
            (match HitsCsv(ser, h)
             case Err(e) => Err(e)
             case Ok(csv) =>
               match Subscript(results, "aggregations")
               case Ok(a) => Ok(BothLayout(csv, ser.dumpsIndented(a)))
               case Err(e) => Err(e))
          else Ok(NoResults)
  }

  /** A dict whose `hits` entry is a dict holding `hits`: the four layouts. */
  lemma HitsLayout(ser: Serializers, fields: Object, outer: Object, hits: Json)
    requires Lookup(fields, "hits") == Some(Obj(outer))
    requires Lookup(outer, "hits") == Some(hits)
    ensures var r := ConvertSearchResultsToCsv(ser, Obj(fields));
      var aggregations := Lookup(fields, "aggregations");
      && (!Truthy(hits) && aggregations.None? ==> r == Ok(NoResults))
      && (!Truthy(hits) && aggregations.Some? ==> r == Ok(ser.dumpsIndented(aggregations.value)))
      && (Truthy(hits) && aggregations.None? ==> r == HitsCsv(ser, hits))
      && (Truthy(hits) && aggregations.Some? ==>
            r == match HitsCsv(ser, hits)
                 case Ok(csv) => Ok(BothLayout(csv, ser.dumpsIndented(aggregations.value)))
                 case Err(e) => Err(e))
  {
    var results := Obj(fields);
    var aggregations := Lookup(fields, "aggregations");
    assert Truthy(results) && Contains(results, "hits") == Ok(true);
    assert InnerHits(results) == Ok(hits);
    assert Contains(results, "aggregations") == Ok(true) <==> aggregations.Some?;
    assert aggregations.Some? ==> Subscript(results, "aggregations") == Ok(aggregations.value);
  }

  /** A dict whose `hits` entry is not a dict holding `hits` fails: KeyError for a dict without it, WrongType otherwise. */
  lemma HitsMalformed(ser: Serializers, fields: Object, outer: Json)
    requires fields != []
    requires Lookup(fields, "hits") == Some(outer)
    requires !(outer.Obj? && "hits" in KeySet(outer.fields))
    ensures ConvertSearchResultsToCsv(ser, Obj(fields)) == Err(if outer.Obj? then KeyError("hits") else WrongType)
  {
  }
}
