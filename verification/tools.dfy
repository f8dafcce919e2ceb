/** The five tools and three resources of the server, each a body that may
    raise and the `except` that turns a raised exception into text. The
    search client's calls are the fields of a `Client` value. */
module Tools {
  import opened Text
  import opened PyValue
  import Highlight
  import HitFormat
  import QueryString
  import MappingSummary
  import Catalog
  import IndexStats

  /** The search client's calls, as the server makes them. */
  datatype Client = Client(
    catIndices: Result<Value>,            // es.cat.indices(format="json")
    getMapping: string -> Result<Value>,  // es.indices.get_mapping(index=...)
    search: Value -> Result<Value>,       // es.search(**kwargs), the keyword arguments as a dict
    stats: string -> Result<Value>,       // es.indices.stats(index=...)
    indexExists: string -> Result<bool>,     // es.indices.exists(index=...)
    getIndex: string -> Result<Value>)    // es.indices.get(index=...)

  /** `try: return body except Exception as e: return prefix + str(e)`. */
  function Recover(prefix: string, body: Result<string>): (out: string)
    ensures body.Ok? ==> out == body.value
    ensures body.Err? ==> StartsWith(out, prefix) && out[|prefix|..] == ErrorText(body.error)
  {
    match body
    case Ok(s) => s
    case Err(e) => prefix + ErrorText(e)
  }

  /** `mapping_response.get(index, {}).get('mappings', {})`. */
  function IndexMappings(response: Value, index: string): (r: Result<Value>)
    ensures r.Ok? <==> response.Dict? && GetOr(response.fields, index, Dict([])).Dict?
    ensures r.Ok? ==> r.value == GetOr(GetOr(response.fields, index, Dict([])).fields, "mappings", Dict([]))
    ensures response.Dict? && !HasKey(response.fields, index) ==> r == Ok(Dict([]))
  {
    var forIndex :- Get(response, index, Dict([]));
    Get(forIndex, "mappings", Dict([]))
  }

  // ---------------------------------------------------------------------------
  // list_indices

  /** A failing catalog call is the tool's error; over a catalog list the
      tool succeeds exactly when every entry is a dict. */
  function ListIndicesBody(c: Client, p: Printer): (r: Result<string>)
    ensures c.catIndices.Err? ==> r == Err(c.catIndices.error)
    ensures c.catIndices.Ok? && c.catIndices.value.List? ==>
      (r.Ok? <==> forall i :: 0 <= i < |c.catIndices.value.items| ==> c.catIndices.value.items[i].Dict?)
  {
    var indices :- c.catIndices;
    var entries :- Iterate(indices);
    var info :- Catalog.Project(entries, Catalog.ToolColumns);
    Ok("Found " + IntText(|info|) + " indices\n\n" + p.dumpsIndented(List(info)))
  }

  function ListIndices(c: Client, p: Printer): (out: string)
    ensures ListIndicesBody(c, p).Ok? ==> out == ListIndicesBody(c, p).value
    ensures ListIndicesBody(c, p).Err? ==> StartsWith(out, "Error: ")
  {
    Recover("Error: ", ListIndicesBody(c, p))
  }

  /** For a catalog of dicts, the tool reports their number and lists every
      entry, in catalog order, projected onto the four columns; a catalog
      entry that is not a dict yields an error text. */
  lemma ListIndicesDigest(c: Client, p: Printer, entries: seq<Value>)
    requires c.catIndices == Ok(List(entries))
    ensures (forall i :: 0 <= i < |entries| ==> entries[i].Dict?) ==>
      ListIndices(c, p) == "Found " + IntText(|entries|) + " indices\n\n"
        + p.dumpsIndented(List(seq(|entries|, i requires 0 <= i < |entries| => Dict(Catalog.Row(entries[i].fields, Catalog.ToolColumns)))))
    ensures (exists i :: 0 <= i < |entries| && !entries[i].Dict?) ==> StartsWith(ListIndices(c, p), "Error: ")
  {
    var r := Catalog.Project(entries, Catalog.ToolColumns);
    if r.Ok? {
      assert r.value == seq(|entries|, i requires 0 <= i < |entries| => Dict(Catalog.Row(entries[i].fields, Catalog.ToolColumns)));
    }
  }

  // ---------------------------------------------------------------------------
  // get_mappings

  /** A failing mapping call is the tool's error; an index the mapping
      response does not name is shown with an empty mapping. */
  function GetMappingsBody(index: string, c: Client, p: Printer): (r: Result<string>)
    ensures c.getMapping(index).Err? ==> r == Err(c.getMapping(index).error)
    ensures r.Ok? <==> c.getMapping(index).Ok? && IndexMappings(c.getMapping(index).value, index).Ok?
    ensures c.getMapping(index).Ok? && c.getMapping(index).value.Dict? && !HasKey(c.getMapping(index).value.fields, index) ==>
      r == Ok("Mappings for index: " + index + "\n\n" + p.dumpsIndented(Dict([])))
  {
    var response :- c.getMapping(index);
    var mappings :- IndexMappings(response, index);
    Ok("Mappings for index: " + index + "\n\n" + p.dumpsIndented(mappings))
  }

  function GetMappings(index: string, c: Client, p: Printer): (out: string)
    ensures GetMappingsBody(index, c, p).Ok? ==> out == GetMappingsBody(index, c, p).value
    ensures GetMappingsBody(index, c, p).Err? ==> StartsWith(out, "Error: ")
  {
    Recover("Error: ", GetMappingsBody(index, c, p))
  }

  // ---------------------------------------------------------------------------
  // search

  function SearchBody(index: string, queryBody: Fields, c: Client, p: Printer): (r: Result<string>)
    ensures c.getMapping(index).Err? ==> r == Err(c.getMapping(index).error)
  {
    var response :- c.getMapping(index);
    var indexMappings :- IndexMappings(response, index);
    var request :- Highlight.SearchRequest(index, queryBody, indexMappings);
    var result :- c.search(Dict(request));
    SearchText(queryBody, result, p)
  }

  /** The text `search` builds from the search response. */
  function SearchText(queryBody: Fields, result: Value, p: Printer): Result<string>
  {
    var fromValue := GetOr(queryBody, "from", Int(0));
    var hitsObject :- Subscript(result, "hits");
    var totalValue :- Subscript(hitsObject, "total");
    var total :- HitFormat.TotalHits(totalValue);
    var hitsValue :- Subscript(hitsObject, "hits");
    var shown :- Len(hitsValue);
    HitsText(HitFormat.Header(total, shown, fromValue, p), hitsValue, p)
  }

  /** The header followed by the block of every hit, joined by the divider. */
  function HitsText(header: string, hitsValue: Value, p: Printer): Result<string>
  {
    var items :- Iterate(hitsValue);
    var hits :- HitFormat.DecodeHits(items);
    Ok(Join(HitFormat.Divider, HitFormat.Sections(header, hits, p)))
  }

  function Search(index: string, queryBody: Fields, c: Client, p: Printer): (out: string)
    ensures SearchBody(index, queryBody, c, p).Ok? ==> out == SearchBody(index, queryBody, c, p).value
    ensures SearchBody(index, queryBody, c, p).Err? ==> StartsWith(out, "Error: ")
  {
    Recover("Error: ", SearchBody(index, queryBody, c, p))
  }

  /** Once the response has a hit list, the header reports the total (the
      `value` of an object-shaped total), the number of hits returned and the
      query body's `from` (0 when absent), and one block follows per hit, in
      hit order. */
  lemma SearchTextOutput(queryBody: Fields, p: Printer, result: Value, hitsObject: Value,
                         totalValue: Value, items: seq<Value>, hits: seq<HitFormat.Hit>)
    requires Subscript(result, "hits") == Ok(hitsObject)
    requires Subscript(hitsObject, "total") == Ok(totalValue)
    requires totalValue.Dict? ==> HasKey(totalValue.fields, "value")
    requires Subscript(hitsObject, "hits") == Ok(List(items))
    requires HitFormat.DecodeHits(items) == Ok(hits)
    ensures |hits| == |items|
    ensures SearchText(queryBody, result, p) == Ok(Join(HitFormat.Divider, HitFormat.Sections(
      HitFormat.Header(if totalValue.Dict? then Lookup(totalValue.fields, "value").value else totalValue,
                       |items|, GetOr(queryBody, "from", Int(0)), p),
      hits, p)))
  {
    var total := if totalValue.Dict? then Lookup(totalValue.fields, "value").value else totalValue;
    var header := HitFormat.Header(total, |items|, GetOr(queryBody, "from", Int(0)), p);
    SearchTextHeader(queryBody, p, result, hitsObject, totalValue, items);
    HitsTextBlocks(header, items, hits, p);
  }

  lemma SearchTextHeader(queryBody: Fields, p: Printer, result: Value, hitsObject: Value,
                         totalValue: Value, items: seq<Value>)
    requires Subscript(result, "hits") == Ok(hitsObject)
    requires Subscript(hitsObject, "total") == Ok(totalValue)
    requires totalValue.Dict? ==> HasKey(totalValue.fields, "value")
    requires Subscript(hitsObject, "hits") == Ok(List(items))
    ensures SearchText(queryBody, result, p) == HitsText(
      HitFormat.Header(if totalValue.Dict? then Lookup(totalValue.fields, "value").value else totalValue,
                       |items|, GetOr(queryBody, "from", Int(0)), p),
      List(items), p)
  {
    var total := if totalValue.Dict? then Lookup(totalValue.fields, "value").value else totalValue;
    assert HitFormat.TotalHits(totalValue) == Ok(total);
    assert Len(List(items)) == Ok(|items|);
  }

  lemma HitsTextBlocks(header: string, items: seq<Value>, hits: seq<HitFormat.Hit>, p: Printer)
    requires HitFormat.DecodeHits(items) == Ok(hits)
    ensures HitsText(header, List(items), p) == Ok(Join(HitFormat.Divider, HitFormat.Sections(header, hits, p)))
  {
    assert Iterate(List(items)) == Ok(items);
  }

  /** The `search` tool sends the caller's query body spread after the
      index name, with a `highlight` block over the mapping's text fields
      put in exactly when some top-level property is highlightable, and
      answers with the text built from the response (or the error text). */
  lemma SearchOutput(index: string, queryBody: Fields, c: Client, p: Printer, indexMappings: Value)
    requires c.getMapping(index).Ok? && IndexMappings(c.getMapping(index).value, index) == Ok(indexMappings)
    requires Highlight.SearchRequest(index, queryBody, indexMappings).Ok?
    ensures var spread := Highlight.Spread([("index", Str(index))], queryBody);
      var sent := if Highlight.OffersHighlight(indexMappings)
                  then Put(spread, "highlight", Highlight.HighlightBlock(Highlight.MappingTextFields(indexMappings)))
                  else spread;
      var answer := c.search(Dict(sent));
      Search(index, queryBody, c, p) == Recover("Error: ", if answer.Ok? then SearchText(queryBody, answer.value, p)
                                                          else Err(answer.error))
  {
    Highlight.HighlightDecision(index, queryBody, indexMappings);
  }

  // ---------------------------------------------------------------------------
  // search_with_query_string

  function SearchWithQueryStringBody(indexName: string, queryText: string, fields: string, size: int, from: int,
                                     c: Client, p: Printer): (r: Result<string>)
    ensures var sent := Dict([("index", Str(indexName)), ("body", Dict(QueryString.QueryBody(queryText, fields, size, from)))]);
      c.search(sent).Err? ==> r == Err(c.search(sent).error)
  {
    var query := QueryString.QueryBody(queryText, fields, size, from);
    var results :- c.search(Dict([("index", Str(indexName)), ("body", Dict(query))]));
    var hitsObject :- Subscript(results, "hits");
    var hitsValue :- Subscript(hitsObject, "hits");
    var totalObject :- Subscript(hitsObject, "total");
    var total :- Subscript(totalObject, "value");
    var upper :- QueryString.Min(from + size, total);
    var header := QueryString.ListingHeader(total, from, upper, p);
    var items :- Iterate(hitsValue);
    var hits :- QueryString.DecodeScoredHits(items);
    Ok(header + QueryString.Listing(from, hits, p))
  }

  function SearchWithQueryString(indexName: string, queryText: string, fields: string, size: int, from: int,
                                 c: Client, p: Printer): (out: string)
    ensures SearchWithQueryStringBody(indexName, queryText, fields, size, from, c, p).Ok? ==>
      out == SearchWithQueryStringBody(indexName, queryText, fields, size, from, c, p).value
    ensures SearchWithQueryStringBody(indexName, queryText, fields, size, from, c, p).Err? ==>
      StartsWith(out, "Error searching index " + indexName + ": ")
  {
    Recover("Error searching index " + indexName + ": ", SearchWithQueryStringBody(indexName, queryText, fields, size, from, c, p))
  }

  /** With an integer total, the header shows `from + 1` to
      `min(from + size, total)`, and the i-th hit (from 1) follows as
      `Result {from + i}`, in hit order. */
  lemma SearchWithQueryStringListing(indexName: string, queryText: string, fields: string, size: int, from: int,
                                     c: Client, p: Printer,
                                     results: Value, hitsObject: Value, totalObject: Value, total: int,
                                     items: seq<Value>, hits: seq<QueryString.ScoredHit>)
    requires c.search(Dict([("index", Str(indexName)), ("body", Dict(QueryString.QueryBody(queryText, fields, size, from)))])) == Ok(results)
    requires Subscript(results, "hits") == Ok(hitsObject)
    requires Subscript(hitsObject, "hits") == Ok(List(items))
    requires Subscript(hitsObject, "total") == Ok(totalObject)
    requires Subscript(totalObject, "value") == Ok(Int(total))
    requires QueryString.DecodeScoredHits(items) == Ok(hits)
    ensures SearchWithQueryString(indexName, queryText, fields, size, from, c, p) ==
      "Found " + IntText(total) + " documents. Showing " + IntText(from + 1) + "-"
      + IntText(if total < from + size then total else from + size) + ":\n\n"
      + Concat(QueryString.ResultBlocks(from, hits, p))
  {
    var upper := if total < from + size then total else from + size;
    var header := QueryString.ListingHeader(Int(total), from, Int(upper), p);
    ListingBody(indexName, queryText, fields, size, from, c, p, results, hitsObject, totalObject, total, items, hits);
    QueryString.ListingNumbering(from, hits, p);
    assert header == "Found " + IntText(total) + " documents. Showing " + IntText(from + 1) + "-" + IntText(upper) + ":\n\n";
    assert SearchWithQueryString(indexName, queryText, fields, size, from, c, p) == header + QueryString.Listing(from, hits, p);
  }

  lemma ListingBody(indexName: string, queryText: string, fields: string, size: int, from: int,
                    c: Client, p: Printer,
                    results: Value, hitsObject: Value, totalObject: Value, total: int,
                    items: seq<Value>, hits: seq<QueryString.ScoredHit>)
    requires c.search(Dict([("index", Str(indexName)), ("body", Dict(QueryString.QueryBody(queryText, fields, size, from)))])) == Ok(results)
    requires Subscript(results, "hits") == Ok(hitsObject)
    requires Subscript(hitsObject, "hits") == Ok(List(items))
    requires Subscript(hitsObject, "total") == Ok(totalObject)
    requires Subscript(totalObject, "value") == Ok(Int(total))
    requires QueryString.DecodeScoredHits(items) == Ok(hits)
    ensures SearchWithQueryStringBody(indexName, queryText, fields, size, from, c, p) ==
      Ok(QueryString.ListingHeader(Int(total), from, Int(if total < from + size then total else from + size), p)
         + QueryString.Listing(from, hits, p))
  {
    assert Iterate(List(items)) == Ok(items);
    assert QueryString.Min(from + size, Int(total)) == Ok(Int(if total < from + size then total else from + size));
  }

  // ---------------------------------------------------------------------------
  // get_index_stats

  /** The tool succeeds exactly when the stats call does and the four
      figures it reads are present. */
  function GetIndexStatsBody(indexName: string, c: Client, p: Printer): (r: Result<string>)
    ensures c.stats(indexName).Err? ==> r == Err(c.stats(indexName).error)
    ensures r.Ok? <==> c.stats(indexName).Ok? && IndexStats.StatsText(indexName, c.stats(indexName).value, p).Ok?
  {
    var stats :- c.stats(indexName);
    IndexStats.StatsText(indexName, stats, p)
  }

  function GetIndexStats(indexName: string, c: Client, p: Printer): (out: string)
    ensures GetIndexStatsBody(indexName, c, p).Ok? ==> out == GetIndexStatsBody(indexName, c, p).value
    ensures GetIndexStatsBody(indexName, c, p).Err? ==> StartsWith(out, "Error getting stats for index " + indexName + ": ")
  {
    Recover("Error getting stats for index " + indexName + ": ", GetIndexStatsBody(indexName, c, p))
  }

  // ---------------------------------------------------------------------------
  // Resources

  /** A missing index is reported as text rather than as an error; for an
      existing one the resource succeeds exactly when both calls do and the
      index information can be assembled. */
  function IndexResourceBody(indexName: string, c: Client, p: Printer): (r: Result<string>)
    ensures c.indexExists(indexName).Err? ==> r == Err(c.indexExists(indexName).error)
    ensures c.indexExists(indexName) == Ok(false) ==> r == Ok("Index '" + indexName + "' does not exist")
    ensures c.indexExists(indexName) == Ok(true) ==>
      (r.Ok? <==> c.getIndex(indexName).Ok? && c.stats(indexName).Ok?
                  && IndexStats.IndexInfo(indexName, c.getIndex(indexName).value, c.stats(indexName).value, p).Ok?)
  {
    var present :- c.indexExists(indexName);
    if !present then Ok("Index '" + indexName + "' does not exist")
    else
      var info :- c.getIndex(indexName);
      var stats :- c.stats(indexName);
      var result :- IndexStats.IndexInfo(indexName, info, stats, p);
      Ok(p.dumpsIndented(result))
  }

  function IndexResource(indexName: string, c: Client, p: Printer): (out: string)
    ensures IndexResourceBody(indexName, c, p).Ok? ==> out == IndexResourceBody(indexName, c, p).value
    ensures IndexResourceBody(indexName, c, p).Err? ==> StartsWith(out, "Error retrieving index information: ")
    ensures c.indexExists(indexName) == Ok(false) ==> out == "Index '" + indexName + "' does not exist"
  {
    Recover("Error retrieving index information: ", IndexResourceBody(indexName, c, p))
  }

  /** A missing index is reported as text rather than as an error; for an
      existing one the resource succeeds exactly when the mapping call does
      and its mapping can be summarised. */
  function MappingResourceBody(indexName: string, c: Client, p: Printer): (r: Result<string>)
    ensures c.indexExists(indexName).Err? ==> r == Err(c.indexExists(indexName).error)
    ensures c.indexExists(indexName) == Ok(false) ==> r == Ok("Index '" + indexName + "' does not exist")
    ensures c.indexExists(indexName) == Ok(true) ==>
      (r.Ok? <==> c.getMapping(indexName).Ok? && IndexMappings(c.getMapping(indexName).value, indexName).Ok?
                  && MappingSummary.Summary(indexName, IndexMappings(c.getMapping(indexName).value, indexName).value, p).Ok?)
  {
    var present :- c.indexExists(indexName);
    if !present then Ok("Index '" + indexName + "' does not exist")
    else
      var response :- c.getMapping(indexName);
      var mappings :- IndexMappings(response, indexName);
      var result :- MappingSummary.Summary(indexName, mappings, p);
      Ok(p.dumpsIndented(result))
  }

  function MappingResource(indexName: string, c: Client, p: Printer): (out: string)
    ensures MappingResourceBody(indexName, c, p).Ok? ==> out == MappingResourceBody(indexName, c, p).value
    ensures MappingResourceBody(indexName, c, p).Err? ==> StartsWith(out, "Error retrieving mapping information: ")
    ensures c.indexExists(indexName) == Ok(false) ==> out == "Index '" + indexName + "' does not exist"
  {
    Recover("Error retrieving mapping information: ", MappingResourceBody(indexName, c, p))
  }

  /** For an existing index whose mapping is summarised, the resource writes
      out the index name, the mapping, `field_count` equal to the number of
      top-level properties, and `field_types` whose counts add up to it. */
  lemma MappingResourceCounts(indexName: string, c: Client, p: Printer, mappings: Value)
    requires c.indexExists(indexName) == Ok(true)
    requires c.getMapping(indexName).Ok? && IndexMappings(c.getMapping(indexName).value, indexName) == Ok(mappings)
    requires MappingSummary.FieldTypeCounts(mappings).Ok? && MappingSummary.FieldCount(mappings).Ok?
    ensures var hist := MappingSummary.FieldTypeCounts(mappings).value;
      && MappingSummary.Total(hist) == MappingSummary.PropertyCount(mappings)
      && MappingResource(indexName, c, p) == p.dumpsIndented(Dict([
           ("index", Str(indexName)),
           ("mappings", mappings),
           ("field_count", Int(MappingSummary.PropertyCount(mappings))),
           ("field_types", MappingSummary.HistogramValue(hist, p))]))
  {
    MappingSummary.SummaryCounts(mappings);
  }

  /** Over a catalog list the resource succeeds exactly when every entry is
      a dict. */
  function IndicesResourceBody(c: Client, p: Printer): (r: Result<string>)
    ensures c.catIndices.Err? ==> r == Err(c.catIndices.error)
    ensures c.catIndices.Ok? && c.catIndices.value.List? ==>
      (r.Ok? <==> forall i :: 0 <= i < |c.catIndices.value.items| ==> c.catIndices.value.items[i].Dict?)
  {
    var indices :- c.catIndices;
    var entries :- Iterate(indices);
    var info :- Catalog.Project(entries, Catalog.ResourceColumns);
    Ok(p.dumpsIndented(List(info)))
  }

  function IndicesResource(c: Client, p: Printer): (out: string)
    ensures IndicesResourceBody(c, p).Ok? ==> out == IndicesResourceBody(c, p).value
    ensures IndicesResourceBody(c, p).Err? ==> StartsWith(out, "Error listing indices: ")
  {
    Recover("Error listing indices: ", IndicesResourceBody(c, p))
  }
}
