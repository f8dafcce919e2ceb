/** The index catalog digest of `list_indices` and of the indices resource:
    each catalog entry projected onto a fixed set of columns. */
module Catalog {
  import opened PyValue

  /** Output key and the catalog key it is read from. */
  type Columns = seq<(string, string)>

  /** The columns of the `list_indices` tool. */
  const ToolColumns: Columns :=
    [("index", "index"), ("health", "health"), ("status", "status"), ("docsCount", "docs.count")]

  /** The columns of the indices resource. */
  const ResourceColumns: Columns :=
    [("index", "index"), ("health", "health"), ("status", "status"), ("docs_count", "docs.count"), ("size", "store.size")]

  /** One projected entry: every column, in column order, with `entry.get(key)`
      (`None` when the catalog entry lacks the key). */
  function Row(entry: Fields, columns: Columns): Fields
  {
    seq(|columns|, i requires 0 <= i < |columns| => (columns[i].0, GetOr(entry, columns[i].1, Null)))
  }

  /** The list comprehension over the catalog; `index.get` raises
      AttributeError on the first entry that is not a dict. */
  function Project(entries: seq<Value>, columns: Columns): (r: Result<seq<Value>>)
    ensures r.Ok? <==> forall i :: 0 <= i < |entries| ==> entries[i].Dict?
    ensures r.Ok? ==> |r.value| == |entries|
    ensures r.Ok? ==> forall i :: 0 <= i < |entries| ==> r.value[i] == Dict(Row(entries[i].fields, columns))
    ensures r.Err? ==> r.error.AttributeError?
    decreases |entries|
  {
    if entries == [] then Ok([])
    else
      var first :- AsDict(entries[0], "get");
      var rest := Project(entries[1..], columns);
      assert forall i :: 1 <= i < |entries| ==> entries[i] == entries[1..][i - 1];
      if rest.Err? then Err(rest.error)
      else Ok([Dict(Row(first, columns))] + rest.value)
  }

  /** A projected entry has exactly the column names as keys, in order, each
      holding the catalog's value for its source key or `None`. */
  lemma RowContents(entry: Fields, columns: Columns, i: nat)
    requires i < |columns|
    ensures |Row(entry, columns)| == |columns|
    ensures Row(entry, columns)[i].0 == columns[i].0
    ensures HasKey(entry, columns[i].1) ==> Row(entry, columns)[i].1 == Lookup(entry, columns[i].1).value
    ensures !HasKey(entry, columns[i].1) ==> Row(entry, columns)[i].1 == Null
  {
  }
}
