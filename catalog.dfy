/** Catalog ingest helpers of data/run_database_init.py: the SQL literal
    escaper, the embedding text of a CSV row, the column rename that turns a
    row into a product, and the statements that create and fill the table. */
module Catalog {
  import opened Common

  // ---- `__escape_sql` ----

  /** A Python value handed to `__escape_sql`. A list (the embedding vector)
      is carried as its `str()` text; any other value as its `str()` text. */
  datatype PyValue = PyNone | PyStr(s: string) | PyList(text: string) | PyOther(text: string)

  /** Number of single quotes in `s`. */
  function QuoteCount(s: string): nat
  {
    if s == [] then 0 else (if s[0] == '\'' then 1 else 0) + QuoteCount(s[1..])
  }

  /** `s.replace("'", "''")`. */
  function DoubleQuotes(s: string): string
  {
    if s == [] then []
    else (if s[0] == '\'' then "''" else [s[0]]) + DoubleQuotes(s[1..])
  }

  /** The inverse reading: every `''` collapses back to `'`. */
  function CollapseQuotes(t: string): string
  {
    if t == [] then []
    else if |t| >= 2 && t[0] == '\'' && t[1] == '\'' then "'" + CollapseQuotes(t[2..])
    else [t[0]] + CollapseQuotes(t[1..])
  }

  /** Every quote of `t` is one of an adjacent pair: no quote is unpaired. */
  predicate QuotesPaired(t: string)
  {
    if t == [] then true
    else if t[0] != '\'' then QuotesPaired(t[1..])
    else |t| >= 2 && t[1] == '\'' && QuotesPaired(t[2..])
  }

  /** `__escape_sql`: None becomes NULL, a string is quoted with its quotes
      doubled, a list is quoted as its text, anything else is returned as is. */
  function EscapeSql(v: PyValue): (r: PyValue)
    ensures v.PyNone? ==> r == PyStr("NULL")
    ensures v.PyOther? ==> r == v
    ensures !v.PyOther? ==> r.PyStr?
  {
    match v
    case PyNone => PyStr("NULL")
    case PyStr(s) => PyStr("'" + DoubleQuotes(s) + "'")
    case PyList(text) => PyStr("'" + text + "'")
    case PyOther(_) => v
  }

  /** `str(v)`, as the f-string that assembles a tuple applies it. */
  function Format(v: PyValue): string
  {
    match v
    case PyNone => "None"
    case PyStr(s) => s
    case PyList(text) => text
    case PyOther(text) => text
  }

  lemma {:induction false} DoubleQuotesLength(s: string)
    ensures |DoubleQuotes(s)| == |s| + QuoteCount(s)
  {
    if s != [] {
      DoubleQuotesLength(s[1..]);
    }
  }

  lemma {:induction false} CollapseDoubleQuotes(s: string)
    ensures CollapseQuotes(DoubleQuotes(s)) == s
  {
    if s != [] {
      CollapseDoubleQuotes(s[1..]);
      var rest := DoubleQuotes(s[1..]);
      if s[0] == '\'' {
        var t := "''" + rest;
        assert t[2..] == rest;
      } else {
        var t := [s[0]] + rest;
        assert t[1..] == rest;
      }
      assert s == [s[0]] + s[1..];
    }
  }

  lemma {:induction false} DoubleQuotesPaired(s: string)
    ensures QuotesPaired(DoubleQuotes(s))
  {
    if s != [] {
      DoubleQuotesPaired(s[1..]);
      var rest := DoubleQuotes(s[1..]);
      if s[0] == '\'' {
        assert ("''" + rest)[2..] == rest;
      } else {
        assert ([s[0]] + rest)[1..] == rest;
      }
    }
  }

  /** On text whose quotes are all paired, doubling undoes collapsing: the
      escaped strings are exactly the paired ones. */
  lemma {:induction false} DoubleCollapsedQuotes(t: string)
    requires QuotesPaired(t)
    ensures DoubleQuotes(CollapseQuotes(t)) == t
  {
    if t != [] {
      if t[0] == '\'' {
        DoubleCollapsedQuotes(t[2..]);
        var c := "'" + CollapseQuotes(t[2..]);
        assert c[0] == '\'' && c[1..] == CollapseQuotes(t[2..]);
        assert t == "''" + t[2..];
      } else {
        DoubleCollapsedQuotes(t[1..]);
        var c := [t[0]] + CollapseQuotes(t[1..]);
        assert c[0] == t[0] && c[1..] == CollapseQuotes(t[1..]);
        assert t == [t[0]] + t[1..];
      }
    }
  }

  /** The escaped form of a string: two more characters than the string plus
      one per quote, quotes at both ends, an interior whose quotes are all
      paired, and collapsing the interior gives the string back. */
  lemma EscapeStringRoundTrip(s: string)
    ensures var r := EscapeSql(PyStr(s)).s;
      && |r| == |s| + 2 + QuoteCount(s)
      && r[0] == '\'' && r[|r| - 1] == '\''
      && QuotesPaired(r[1..|r| - 1])
      && CollapseQuotes(r[1..|r| - 1]) == s
  {
    var r := EscapeSql(PyStr(s)).s;
    DoubleQuotesLength(s);
    assert r[1..|r| - 1] == DoubleQuotes(s);
    DoubleQuotesPaired(s);
    CollapseDoubleQuotes(s);
  }

  // ---- `load_dataset` ----

  /** A CSV row as `csv.DictReader` yields it: the header's columns, each
      holding its cell, or None (the default `restval`) for a column a short
      row does not reach. A key absent from the map is a column the header
      does not have. */
  type CsvRow = map<string, Option<string>>

  /** `str()` of a cell, as an f-string renders it: None renders as "None". */
  function CellText(v: Option<string>): string
  {
    if v.Some? then v.value else "None"
  }

  /** An embedding vector, carried as its `str()` text. */
  datatype Embedding = Embedding(text: string)

  /** A row value after the rename: CSV text, None, or the attached vector. */
  datatype Field = Text(s: string) | NoneValue | Vector(e: Embedding)

  function AsField(v: Option<string>): Field
  {
    if v.Some? then Text(v.value) else NoneValue
  }

  type Record = map<string, Field>

  /** `f"{row['product_name']} {row['description']} ({row['audience']})"`;
      a column the header lacks raises, the first missing one in that order;
      a cell a short row does not reach renders as "None". */
  function EmbeddingText(row: CsvRow): (r: Result<string>)
    ensures r.Ok? <==> "product_name" in row && "description" in row && "audience" in row
    ensures r.Ok? ==> r.value == CellText(row["product_name"]) + " " + CellText(row["description"])
                                 + " (" + CellText(row["audience"]) + ")"
    ensures "product_name" !in row ==> r == Err(KeyError("product_name"))
    ensures "product_name" in row && "description" !in row ==> r == Err(KeyError("description"))
    ensures "product_name" in row && "description" in row && "audience" !in row ==> r == Err(KeyError("audience"))
  {
    if "product_name" !in row then Err(KeyError("product_name"))
    else if "description" !in row then Err(KeyError("description"))
    else if "audience" !in row then Err(KeyError("audience"))
    else Ok(CellText(row["product_name"]) + " " + CellText(row["description"]) + " (" + CellText(row["audience"]) + ")")
  }

  /** `texts_to_embed`: one text per row, in row order; the first row that
      lacks a column aborts the comprehension. */
  function EmbeddingTexts(rows: seq<CsvRow>): (r: Result<seq<string>>)
    ensures r.Ok? <==> forall i :: 0 <= i < |rows| ==> EmbeddingText(rows[i]).Ok?
    ensures r.Ok? ==> |r.value| == |rows|
    ensures r.Ok? ==> forall i :: 0 <= i < |rows| ==> Ok(r.value[i]) == EmbeddingText(rows[i])
    ensures r.Err? ==> exists k :: 0 <= k < |rows| && EmbeddingText(rows[k]) == Err(r.error)
                                   && forall i :: 0 <= i < k ==> EmbeddingText(rows[i]).Ok?
  {
    if rows == [] then Ok([])
    else
      match EmbeddingText(rows[0])
      case Err(e) => Err(e)
      case Ok(t) =>
        var rest := EmbeddingTexts(rows[1..]);
        assert forall i :: 1 <= i < |rows| ==> rows[i] == rows[1..][i - 1];
        match rest
        case Err(e) =>
          FirstFailureShifts(rows, e);
          Err(e)
        case Ok(ts) => Ok([t] + ts)
  }

  /** The first failing row of the tail is the first failing row of `rows`
      when the head row has its text. */
  lemma FirstFailureShifts(rows: seq<CsvRow>, e: Error)
    requires rows != [] && EmbeddingText(rows[0]).Ok?
    requires exists k :: 0 <= k < |rows[1..]| && EmbeddingText(rows[1..][k]) == Err(e)
                         && forall i :: 0 <= i < k ==> EmbeddingText(rows[1..][i]).Ok?
    ensures exists k :: 0 <= k < |rows| && EmbeddingText(rows[k]) == Err(e)
                        && forall i :: 0 <= i < k ==> EmbeddingText(rows[i]).Ok?
  {
    var k :| 0 <= k < |rows[1..]| && EmbeddingText(rows[1..][k]) == Err(e)
             && forall i :: 0 <= i < k ==> EmbeddingText(rows[1..][i]).Ok?;
    assert rows[k + 1] == rows[1..][k];
    assert forall i :: 1 <= i < k + 1 ==> rows[i] == rows[1..][i - 1];
  }

  /** The rename and attach of one loop iteration: `Products_types` is popped
      and stored as `products_types` (default `''`), the vector is stored as
      `embedding`, and every other column keeps its value. */
  function Prepare(row: CsvRow, vector: Embedding): (r: Record)
    ensures "Products_types" !in r && "products_types" in r && "embedding" in r
    ensures r["products_types"] == AsField(if "Products_types" in row then row["Products_types"] else Some(""))
    ensures r["embedding"] == Vector(vector)
    ensures r.Keys == row.Keys - {"Products_types"} + {"products_types", "embedding"}
    ensures forall k :: k in row && k !in {"Products_types", "products_types", "embedding"} ==> r[k] == AsField(row[k])
  {
    var popped := if "Products_types" in row then row["Products_types"] else Some("");
    var kept := map k | k in row && k != "Products_types" :: AsField(row[k]);
    kept["products_types" := AsField(popped)]["embedding" := Vector(vector)]
  }

  /** The `Product` model. */
  datatype Product = Product(
    productId: string,
    productName: string,
    description: string,
    kind: string,
    status: string,
    audience: string,
    productsTypes: string,
    installation: string,
    embedding: Option<Embedding>)

  /** `key` is present and holds CSV text. */
  predicate IsText(rec: Record, key: string)
  {
    key in rec && rec[key].Text?
  }

  function EmbeddingField(rec: Record): Option<Embedding>
  {
    if "embedding" in rec && rec["embedding"].Vector? then Some(rec["embedding"].e) else None
  }

  /** `Product.model_validate`: each text field must be present as text; the
      first one that is not is reported. A validated product holds, under
      each column name, that column's text, and the record's vector. */
  function ToProduct(rec: Record): (r: Result<Product>)
    ensures r.Ok? <==> forall k :: k in ProductTextFields ==> IsText(rec, k)
    ensures r.Ok? ==> forall k :: k in ProductTextFields ==> Column(r.value, k) == PyStr(rec[k].s)
    ensures r.Ok? ==> r.value.embedding == EmbeddingField(rec)
  {
    if !IsText(rec, "product_id") then Err(ValidationError("product_id"))
    else if !IsText(rec, "product_name") then Err(ValidationError("product_name"))
    else if !IsText(rec, "description") then Err(ValidationError("description"))
    else if !IsText(rec, "type") then Err(ValidationError("type"))
    else if !IsText(rec, "status") then Err(ValidationError("status"))
    else if !IsText(rec, "audience") then Err(ValidationError("audience"))
    else if !IsText(rec, "products_types") then Err(ValidationError("products_types"))
    else if !IsText(rec, "installation") then Err(ValidationError("installation"))
    else Ok(Product(rec["product_id"].s, rec["product_name"].s, rec["description"].s, rec["type"].s,
                    rec["status"].s, rec["audience"].s, rec["products_types"].s, rec["installation"].s,
                    EmbeddingField(rec)))
  }

  const ProductTextFields: set<string> :=
    {"product_id", "product_name", "description", "type", "status", "audience", "products_types", "installation"}

  /** A renamed row validates exactly when the CSV row holds a cell for the
      seven text columns other than the product type, and for
      `Products_types` when the header has it; the type defaults to `''`,
      and the product carries the vector attached to its row. */
  lemma PreparedRowValidates(row: CsvRow, vector: Embedding)
    ensures var r := ToProduct(Prepare(row, vector));
      && (r.Ok? <==> (forall k :: k in ProductTextFields - {"products_types"} ==> k in row && row[k].Some?)
                     && ("Products_types" in row ==> row["Products_types"].Some?))
      && (r.Ok? ==> r.value.embedding == Some(vector)
                    && r.value.productsTypes == (if "Products_types" in row then row["Products_types"].value else "")
                    && forall k :: k in ProductTextFields - {"products_types"} ==> Column(r.value, k) == PyStr(row[k].value))
  {
    var rec := Prepare(row, vector);
    forall k | k in ProductTextFields - {"products_types"}
      ensures IsText(rec, k) <==> k in row && row[k].Some?
      ensures k in row ==> rec[k] == AsField(row[k])
    {
      KeptColumn(row, vector, k);
    }
    assert IsText(rec, "products_types") <==> ("Products_types" in row ==> row["Products_types"].Some?);
  }

  /** A text column other than the product type passes through the rename
      unchanged. */
  lemma KeptColumn(row: CsvRow, vector: Embedding, k: string)
    requires k in ProductTextFields - {"products_types"}
    ensures IsText(Prepare(row, vector), k) <==> k in row && row[k].Some?
    ensures k in row ==> Prepare(row, vector)[k] == AsField(row[k])
  {
    assert k != "embedding" && k != "Products_types";
  }

  /** One loop iteration of `load_dataset`: the row renamed, given its
      vector, and validated. */
  function RowProduct(row: CsvRow, vector: Embedding): Result<Product>
  {
    ToProduct(Prepare(row, vector))
  }

  /** `load_dataset` after the CSV read: texts first (a missing column
      raises before any embedding), then per row the rename, the i-th
      vector, and validation, in row order. */
  method LoadDataset(rows: seq<CsvRow>, vectors: seq<Embedding>) returns (r: Result<seq<Product>>)
    requires |vectors| == |rows|
    ensures EmbeddingTexts(rows).Err? ==> r == Err(EmbeddingTexts(rows).error)
    ensures r.Ok? <==> EmbeddingTexts(rows).Ok? && forall i :: 0 <= i < |rows| ==> RowProduct(rows[i], vectors[i]).Ok?
    ensures r.Ok? ==> |r.value| == |rows|
    ensures r.Ok? ==> forall i :: 0 <= i < |rows| ==> Ok(r.value[i]) == RowProduct(rows[i], vectors[i])
    ensures r.Err? && EmbeddingTexts(rows).Ok? ==>
      exists k :: 0 <= k < |rows| && RowProduct(rows[k], vectors[k]) == Err(r.error)
                  && forall i :: 0 <= i < k ==> RowProduct(rows[i], vectors[i]).Ok?
  {
    var texts := EmbeddingTexts(rows);
    if texts.Err? {
      return Err(texts.error);
    }
    r := ValidateRows(rows, vectors);
  }

  /** The per-row loop of `load_dataset`: one product per row in order, or
      the error of the first row that does not validate. */
  method ValidateRows(rows: seq<CsvRow>, vectors: seq<Embedding>) returns (r: Result<seq<Product>>)
    requires |vectors| == |rows|
    ensures r.Ok? <==> forall i :: 0 <= i < |rows| ==> RowProduct(rows[i], vectors[i]).Ok?
    ensures r.Ok? ==> |r.value| == |rows|
    ensures r.Ok? ==> forall i :: 0 <= i < |rows| ==> Ok(r.value[i]) == RowProduct(rows[i], vectors[i])
    ensures r.Err? ==> exists k :: 0 <= k < |rows| && RowProduct(rows[k], vectors[k]) == Err(r.error)
                                   && forall i :: 0 <= i < k ==> RowProduct(rows[i], vectors[i]).Ok?
  {
    var products: seq<Product> := [];
    var i := 0;
    while i < |rows|
      invariant 0 <= i <= |rows| && |products| == i
      invariant forall j :: 0 <= j < i ==> Ok(products[j]) == RowProduct(rows[j], vectors[j])
    {
      var product := RowProduct(rows[i], vectors[i]);
      if product.Err? {
        return Err(product.error);
      }
      ghost var before := products;
      products := products + [product.value];
      assert forall j :: 0 <= j < i ==> products[j] == before[j];
      i := i + 1;
    }
    return Ok(products);
  }

  // ---- `initialize_data` ----

  /** The column order of `CREATE TABLE products`. */
  const TableColumns: seq<string> :=
    ["product_id", "product_name", "description", "type", "status", "audience",
     "products_types", "installation", "embedding"]

  /** The product attribute a column is named after. */
  function Column(p: Product, column: string): PyValue
  {
    match column
    case "product_id" => PyStr(p.productId)
    case "product_name" => PyStr(p.productName)
    case "description" => PyStr(p.description)
    case "type" => PyStr(p.kind)
    case "status" => PyStr(p.status)
    case "audience" => PyStr(p.audience)
    case "products_types" => PyStr(p.productsTypes)
    case "installation" => PyStr(p.installation)
    case "embedding" => EmbeddingValue(p)
    case _ => PyNone
  }

  /** The values of one tuple, in the order the f-string lists them. */
  function Fields(p: Product): seq<PyValue>
  {
    [PyStr(p.productId), PyStr(p.productName), PyStr(p.description), PyStr(p.kind), PyStr(p.status),
     PyStr(p.audience), PyStr(p.productsTypes), PyStr(p.installation), EmbeddingValue(p)]
  }

  /** The embedding as `__escape_sql` receives it: the vector, or None. */
  function EmbeddingValue(p: Product): PyValue
  {
    if p.embedding.Some? then PyList(p.embedding.value.text) else PyNone
  }

  /** The tuple lists the product's fields in the table's column order. */
  lemma FieldsFollowTableColumns(p: Product)
    ensures |Fields(p)| == |TableColumns|
    ensures forall i :: 0 <= i < |TableColumns| ==> Fields(p)[i] == Column(p, TableColumns[i])
  {
  }

  const Indent := "            "

  const TupleClose := "\n        )"

  /** One indented line of a tuple: the escaped value. */
  function FieldLine(v: PyValue): string
  {
    Indent + Format(EscapeSql(v))
  }

  /** The nine indented lines of a tuple, one escaped field each. */
  function FieldLines(p: Product): seq<string>
  {
    seq(|Fields(p)|, i requires 0 <= i < |Fields(p)| => FieldLine(Fields(p)[i]))
  }

  /** One parenthesised tuple: each escaped field on its own indented line. */
  function TupleText(p: Product): string
  {
    "(\n" + Join(",\n", FieldLines(p)) + TupleClose
  }

  /** The tuple opens with the escaped product id and closes with the
      escaped embedding, and holds the nine field lines with one ",\n"
      between neighbours. */
  lemma TupleTextShape(p: Product)
    ensures var t := TupleText(p);
      var lines := FieldLines(p);
      && |t| == 2 + TotalLength(lines) + 2 * (|lines| - 1) + |TupleClose|
      && |t| >= 2 + |lines[0]| && |t| >= |lines[8]| + |TupleClose|
      && t[..2 + |lines[0]|] == "(\n" + FieldLine(PyStr(p.productId))
      && t[|t| - |lines[8]| - |TupleClose|..] == FieldLine(EmbeddingValue(p)) + TupleClose
  {
    var lines := FieldLines(p);
    assert |lines| == 9;
    assert lines[0] == FieldLine(PyStr(p.productId)) by {
      assert Fields(p)[0] == PyStr(p.productId);
    }
    assert lines[8] == FieldLine(EmbeddingValue(p)) by {
      assert Fields(p)[8] == EmbeddingValue(p);
    }
    WrappedJoinShape("(\n", ",\n", lines, TupleClose);
  }

  /** A join wrapped between an opening and a closing text holds the opening
      and the first part at its start, the last part and the closing at its
      end, and one separator between each neighbour. */
  lemma WrappedJoinShape(opening: string, sep: string, parts: seq<string>, closing: string)
    requires parts != []
    ensures var t := opening + Join(sep, parts) + closing;
      var last := parts[|parts| - 1];
      && |t| == |opening| + TotalLength(parts) + |sep| * (|parts| - 1) + |closing|
      && |t| >= |opening| + |parts[0]| && |t| >= |last| + |closing|
      && t[..|opening| + |parts[0]|] == opening + parts[0]
      && t[|t| - |last| - |closing|..] == last + closing
  {
    PrefixedJoinShape(opening, sep, parts);
    var stmt := opening + Join(sep, parts);
    var last := parts[|parts| - 1];
    var t := stmt + closing;
    assert t[..|opening| + |parts[0]|] == stmt[..|opening| + |parts[0]|];
    assert t[|t| - |last| - |closing|..] == stmt[|stmt| - |last|..] + closing;
  }

  const InsertPrefix := "INSERT INTO products VALUES "

  function Tuples(products: seq<Product>): (ts: seq<string>)
    ensures |ts| == |products|
    ensures forall i :: 0 <= i < |products| ==> ts[i] == TupleText(products[i])
  {
    seq(|products|, i requires 0 <= i < |products| => TupleText(products[i]))
  }

  /** The statements `initialize_data` issues. */
  datatype SqlCall = Execute(sql: string) | CreateTable(columns: seq<string>)

  /** `initialize_data`: enable the vector extension, create the table, and
      only when there are products issue one INSERT holding their tuples
      joined by ", ". */
  method InitializeData(products: seq<Product>) returns (calls: seq<SqlCall>)
    ensures |calls| >= 2 && calls[..2] == [Execute("CREATE EXTENSION IF NOT EXISTS vector"), CreateTable(TableColumns)]
    ensures products == [] <==> |calls| == 2
    ensures products != [] ==> calls[2..] == [Execute(InsertPrefix + Join(", ", Tuples(products)))]
  {
    calls := [Execute("CREATE EXTENSION IF NOT EXISTS vector"), CreateTable(TableColumns)];
    if products == [] {
      return;
    }
    var values: seq<string> := [];
    var i := 0;
    while i < |products|
      invariant 0 <= i <= |products| && |values| == i
      invariant forall j :: 0 <= j < i ==> values[j] == TupleText(products[j])
    {
      values := values + [TupleText(products[i])];
      i := i + 1;
    }
    assert values == Tuples(products);
    calls := calls + [Execute(InsertPrefix + Join(", ", values))];
  }

  /** A prefixed join holds the prefix and the first part at its start, the
      last part at its end, and one separator between each neighbour. */
  lemma PrefixedJoinShape(prefix: string, sep: string, parts: seq<string>)
    requires parts != []
    ensures var stmt := prefix + Join(sep, parts);
      && |stmt| == |prefix| + TotalLength(parts) + |sep| * (|parts| - 1)
      && |stmt| >= |prefix| + |parts[0]| && |stmt| >= |parts[|parts| - 1]|
      && stmt[..|prefix| + |parts[0]|] == prefix + parts[0]
      && stmt[|stmt| - |parts[|parts| - 1]|..] == parts[|parts| - 1]
  {
    JoinLength(sep, parts);
    JoinEnds(sep, parts);
    var joined := Join(sep, parts);
    var stmt := prefix + joined;
    assert stmt[..|prefix| + |parts[0]|] == prefix + joined[..|parts[0]|];
    assert stmt[|stmt| - |parts[|parts| - 1]|..] == joined[|joined| - |parts[|parts| - 1]|..];
  }

  /** The INSERT begins with the first product's tuple and ends with the
      last one's, and its length is that of the tuples plus one ", " between
      each neighbour: one tuple per product. */
  lemma InsertStatementShape(products: seq<Product>)
    requires products != []
    ensures var stmt := InsertPrefix + Join(", ", Tuples(products));
      var first := TupleText(products[0]);
      var last := TupleText(products[|products| - 1]);
      && |stmt| == |InsertPrefix| + TotalLength(Tuples(products)) + 2 * (|products| - 1)
      && |stmt| >= |InsertPrefix| + |first| && |stmt| >= |last|
      && stmt[..|InsertPrefix| + |first|] == InsertPrefix + first
      && stmt[|stmt| - |last|..] == last
  {
    InsertOfTuplesShape(Tuples(products), TupleText(products[0]), TupleText(products[|products| - 1]));
  }

  /** The INSERT over any non-empty list of tuples, by its first and last. */
  lemma InsertOfTuplesShape(ts: seq<string>, first: string, last: string)
    requires ts != [] && ts[0] == first && ts[|ts| - 1] == last
    ensures var stmt := InsertPrefix + Join(", ", ts);
      && |stmt| == |InsertPrefix| + TotalLength(ts) + 2 * (|ts| - 1)
      && |stmt| >= |InsertPrefix| + |first| && |stmt| >= |last|
      && stmt[..|InsertPrefix| + |first|] == InsertPrefix + first
      && stmt[|stmt| - |last|..] == last
  {
    PrefixedJoinShape(InsertPrefix, ", ", ts);
    assert |", "| * (|ts| - 1) == 2 * (|ts| - 1);
  }
}
