/** The index statistics shown by `get_index_stats` and by the index
    resource, read from the `_all.primaries` part of the stats response. */
module IndexStats {
  import opened Text
  import opened PyValue

  /** `v[k0][k1]…`: subscripts applied left to right; the first that fails raises. */
  function Path(v: Value, keys: seq<string>): (r: Result<Value>)
    decreases |keys|
  {
    if keys == [] then Ok(v)
    else
      var next :- Subscript(v, keys[0]);
      Path(next, keys[1..])
  }

  /** Following a path through nested dicts that have every key finds the innermost value. */
  lemma {:induction false} PathFound(v: Value, keys: seq<string>, inner: Value)
    requires |keys| >= 1
    requires Path(v, keys[..|keys| - 1]) == Ok(inner)
    requires inner.Dict? && HasKey(inner.fields, keys[|keys| - 1])
    ensures Path(v, keys) == Ok(Lookup(inner.fields, keys[|keys| - 1]).value)
    decreases |keys|
  {
    if |keys| > 1 {
      var next := Subscript(v, keys[0]).value;
      assert keys[1..][..|keys| - 2] == keys[..|keys| - 1][1..];
      PathFound(next, keys[1..], inner);
    }
  }

  const DocsCount := ["_all", "primaries", "docs", "count"]
  const SizeInBytes := ["_all", "primaries", "store", "size_in_bytes"]
  const IndexTotal := ["_all", "primaries", "indexing", "index_total"]
  const QueryTotal := ["_all", "primaries", "search", "query_total"]

  /** `size_in_bytes / 1024 / 1024`: true division of a number, TypeError otherwise. */
  function Megabytes(bytes: Value): (r: Result<real>)
    ensures bytes.Int? ==> r == Ok(bytes.i as real / 1048576.0)
    ensures r.Ok? <==> NumberValue(bytes)
  {
    match bytes
    case Int(i) => Ok(i as real / 1024.0 / 1024.0)
    case Float(f) => Ok(f / 1024.0 / 1024.0)
    case Bool(b) => Ok(if b then 1.0 / 1048576.0 else 0.0)
    case _ => Err(TypeError("unsupported operand type(s) for /: '" + TypeName(bytes) + "' and 'int'"))
  }

  predicate NumberValue(v: Value)
  {
    v.Int? || v.Float? || v.Bool?
  }

  /** The text of `get_index_stats`, line by line. */
  function StatsText(indexName: string, stats: Value, p: Printer): (r: Result<string>)
    ensures r.Ok? <==>
      && Path(stats, DocsCount).Ok?
      && Path(stats, SizeInBytes).Ok? && NumberValue(Path(stats, SizeInBytes).value)
      && Path(stats, IndexTotal).Ok?
      && Path(stats, QueryTotal).Ok?
  {
    var docs :- Path(stats, DocsCount);
    var bytes :- Path(stats, SizeInBytes);
    var mb :- Megabytes(bytes);
    var indexing :- Path(stats, IndexTotal);
    var searches :- Path(stats, QueryTotal);
    Ok("Statistics for index: " + indexName + "\n\n"
       + "Documents: " + StrOf(p, docs) + "\n"
       + "Size: " + p.fixed2(mb) + " MB\n"
       + "Indexing operations: " + StrOf(p, indexing) + "\n"
       + "Search operations: " + StrOf(p, searches) + "\n")
  }

  /** The `result` dict of the index resource. */
  function IndexInfo(indexName: string, indexInfo: Value, stats: Value, p: Printer): (r: Result<Value>)
    ensures r.Ok? <==>
      && indexInfo.Dict? && GetOr(indexInfo.fields, indexName, Dict([])).Dict?
      && Path(stats, DocsCount).Ok?
      && Path(stats, SizeInBytes).Ok? && NumberValue(Path(stats, SizeInBytes).value)
    ensures r.Ok? ==> r.value.Dict? && |r.value.fields| == 3 && r.value.fields[0] == ("name", Str(indexName))
  {
    var forIndex :- Get(indexInfo, indexName, Dict([]));
    var settings :- Get(forIndex, "settings", Dict([]));
    var docs :- Path(stats, DocsCount);
    var bytes :- Path(stats, SizeInBytes);
    var mb :- Megabytes(bytes);
    Ok(Dict([("name", Str(indexName)),
             ("settings", settings),
             ("stats", Dict([("docs_count", docs), ("size_bytes", bytes), ("size_mb", Float(p.round2(mb)))]))]))
  }
}
