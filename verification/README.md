# Elasticsearch MCP server, modelled in Dafny

The server (`es_mcp_server.py`) exposes an Elasticsearch cluster to MCP
clients through five tools (`list_indices`, `get_mappings`, `search`,
`search_with_query_string`, `get_index_stats`) and three resources
(`elasticsearch://index/{name}`, `elasticsearch://mapping/{name}`,
`elasticsearch://indices`). Each of them calls the cluster, reshapes the JSON
it gets back and answers with one text. This project models what the server
does with that JSON:

- `Highlight`: the `search` request: the caller's query body spread after the
  index name, and a highlight block for every property of the index mapping
  whose type is `text` or that carries `dense_vector`.
- `HitFormat`: the `search` answer: a header with the total, the number of hits
  and `from`, then one block per hit with its highlighted fragments joined by
  ` ... ` and its source fields that are not highlighted, blocks joined by
  `\n\n---\n\n`.
- `QueryString`: `search_with_query_string`: the query-string request body with
  its optional `_source` projection, and the numbered listing
  `Result {from + i}` of the hits.
- `MappingSummary`: the mapping resource's `field_count` and its histogram of
  field types.
- `Catalog`: the projection of the cluster's index catalog onto fixed columns
  (`list_indices` and the indices resource).
- `IndexStats`: the statistics read from `_all.primaries` (`get_index_stats` and
  the index resource), with the size in megabytes.
- `Tools`: the eight bodies and the `except Exception as e` around each of them
  that turns any raised exception into a text beginning with `Error`.

JSON values are the datatype `PyValue.Value`; a dict is the sequence of its
entries in insertion order. Python's dynamic operations that can raise (`d[k]`, `d.get`,
`.items()`, `in`, `len`, iteration, `min`, `str.join`) are functions returning
`Result`, failing with the exception Python raises (`KeyError`, `TypeError`,
`AttributeError`) in the order Python evaluates them; truthiness, which cannot
raise, is the predicate `PyValue.Truthy`.
The cluster client is the datatype `Tools.Client`, whose fields are the
client calls; `json.dumps`, `str` of floats and containers, `:.2f` and
`round(x, 2)` are the fields of the datatype `PyValue.Printer`. Each loop of
the source is a method proved equal to a specification function over the
already-checked data, and the properties are lemmas about those functions.

## Model

| member | source | states |
|---|---|---|
| Text.Split | es_mcp_server.py:179-180 | `fields.split(",")` gives at least one piece and no piece contains a comma |
| Text.JoinSplit | es_mcp_server.py:180 | joining the pieces of a split with the separator gives back the original string |
| Text.SplitJoin | es_mcp_server.py:180 | splitting the join of comma-free pieces gives back exactly those pieces |
| PyValue.Lookup | es_mcp_server.py:73 | a dict lookup finds a value exactly when the key is present, and the value is that of an entry with the key |
| PyValue.Put | es_mcp_server.py:105 | after `d[k] = v` the key maps to `v`, every other key keeps its value, a new key is appended last, and an existing key leaves the length unchanged |
| PyValue.PutInPlace | es_mcp_server.py:105 | in a dict with distinct keys, assigning an existing key replaces that entry where it stands and leaves every other entry as it was |
| PyValue.PutEntries | es_mcp_server.py:105 | after `d[k] = v` every entry is the new one or an old one |
| PyValue.PutUnique | es_mcp_server.py:100-105 | `d[k] = v` keeps the dict's keys unique |
| PyValue.AsDict | es_mcp_server.py:103-104 | `.get` and `.items()` succeed exactly on dicts and then see the dict's own entries; anything else raises AttributeError |
| PyValue.Subscript | es_mcp_server.py:185-186 | `v[k]` succeeds exactly when `v` is a dict holding `k` and gives the value stored under `k`; a dict without `k` raises KeyError(k), a non-dict TypeError |
| PyValue.Contains | es_mcp_server.py:99 | `k in v` on a dict is key membership; it is defined on dicts, lists and strings and raises TypeError on anything else |
| PyValue.Len | es_mcp_server.py:121 | `len(v)` is defined exactly on strings, lists and dicts, is the number of items of a list and of entries of a dict, and raises TypeError otherwise |
| PyValue.Iterate | es_mcp_server.py:124 | iterating a list yields its items, a dict its keys in order, a string its characters in order; anything else raises TypeError |
| Highlight.Descriptors | es_mcp_server.py:103-104 | the property descriptors are read exactly when every property is a dict, one per property in order; otherwise AttributeError |
| Highlight.CollectTextFields | es_mcp_server.py:100-105 | the loop builds the text-field dict of the specification function |
| Highlight.TextFieldsKeys | es_mcp_server.py:103-105 | a field is a text field exactly when some property with that name is `text`-typed or has `dense_vector` |
| Highlight.TextFieldsValues | es_mcp_server.py:105 | every text field maps to an empty dict and the text fields have unique keys |
| Highlight.TextFieldsEmpty | es_mcp_server.py:107 | there are no text fields exactly when no property is highlightable |
| Highlight.SpreadLookup | es_mcp_server.py:93-96 | in `{**base, **extra}` a key of `extra` has its `extra` value and any other key its `base` value |
| Highlight.SpreadKeys | es_mcp_server.py:93-96 | `{**base, **extra}` holds exactly the keys of `base` and of `extra` |
| Highlight.SpreadRequest | es_mcp_server.py:93-96 | the request holds every query-body key with the query body's value, and `index` when the body does not override it |
| Highlight.HighlightableProperty | es_mcp_server.py:103-107 | some property is a highlightable dict exactly when the collected text fields are not empty |
| Highlight.HighlightDecision | es_mcp_server.py:99-112 | the request is the spread plus the `<em>` highlight block exactly when the mapping offers a highlightable property, and the bare spread otherwise |
| Highlight.SearchRequest | es_mcp_server.py:93-112 | without `properties` the request is the bare spread; with them the request is built exactly when `properties` is a dict of dicts; its errors are AttributeError or TypeError |
| Highlight.SearchRequestContents | es_mcp_server.py:93-112 | every key of the built request: query-body values win, `index` otherwise, `highlight` is the computed block when one is offered and the caller's own otherwise, nothing else |
| Highlight.SearchRequestRejects | es_mcp_server.py:103-104 | a property that is not a dict makes the request fail with AttributeError |
| HitFormat.TotalHits | es_mcp_server.py:120 | the total is the `value` of an object-shaped total and a scalar total as it is; an object without `value` raises KeyError |
| HitFormat.JoinableStrings | es_mcp_server.py:133 | `str.join` succeeds exactly when every item is a string, and then joins exactly those strings in order; otherwise TypeError |
| HitFormat.Fragments | es_mcp_server.py:132-133 | a falsy entry gives no fragments; a list gives its strings in order, succeeding exactly when all items are strings; a string gives its characters and a dict its keys; a truthy number raises |
| HitFormat.DecodeHighlights | es_mcp_server.py:131-133 | the highlight entries decode exactly when each entry's fragments do, into one entry per field, in order, holding that field's fragments |
| HitFormat.DecodeHit | es_mcp_server.py:125-136 | a hit decodes exactly when it is a dict whose `highlight` and `_source` (default `{}`) are dicts and every highlight entry decodes; it then carries the `_source` entries and each highlight entry's fragments; a non-dict hit raises AttributeError |
| HitFormat.DecodeHits | es_mcp_server.py:124-126 | the hits decode exactly when each hit does, into one decoded hit per hit, in order |
| HitFormat.FormatHitText | es_mcp_server.py:128-138 | the two inner loops produce the highlighted lines followed by the lines of the non-highlighted source fields |
| HitFormat.FormatResponse | es_mcp_server.py:121-142 | the answer is the header and one block per hit, in hit order, joined by the divider |
| HitFormat.SectionsInOrder | es_mcp_server.py:121-140 | the sections are the header followed by the i-th hit's block at position i + 1 |
| HitFormat.HighlightLinesExactly | es_mcp_server.py:131-133 | a highlighted line appears exactly for each highlight entry with fragments |
| HitFormat.HighlightLinesInOrder | es_mcp_server.py:131-133 | the highlighted lines keep the order of the highlight entries: the lines of two consecutive runs of entries are those of the first run followed by those of the second |
| HitFormat.SourceLinesExactly | es_mcp_server.py:136-138 | a raw source line appears exactly for each source field that is not a highlight key |
| HitFormat.SourceLinesCount | es_mcp_server.py:136-138 | the raw lines are, one for one and in order, the source fields missing from the highlight dict |
| HitFormat.UnhighlightedFields | es_mcp_server.py:136-137 | the selected fields are exactly the source entries whose name is not a highlight key |
| HitFormat.UnhighlightedInOrder | es_mcp_server.py:136-137 | selection keeps source order: selecting from two consecutive parts of the source is selecting from each part in turn |
| QueryString.SourceFilter | es_mcp_server.py:179-180 | a projection exists exactly when `fields` is neither empty nor `_source`, and its names joined by commas are `fields` |
| QueryString.QueryBody | es_mcp_server.py:168-180 | the request body has distinct keys, only `query`, `size`, `from` and `_source`, four of them exactly when a projection is asked for |
| QueryString.QueryBodyContents | es_mcp_server.py:168-180 | the body carries the query string, `size` and `from` unchanged, and `_source` exactly when a projection is asked for |
| QueryString.ProjectionNames | es_mcp_server.py:179-180 | comma-free names written as `fields` come back as exactly those names |
| QueryString.Min | es_mcp_server.py:188 | `min(from + size, total)` for an integer total is the smaller of the two; a non-number total raises |
| QueryString.DecodeScoredHit | es_mcp_server.py:191-194 | a hit decodes exactly when it is a dict holding `_score`, `_id` and `_source`, into those three values |
| QueryString.DecodeScoredHits | es_mcp_server.py:190-194 | the hits decode exactly when each hit does, into one scored hit per hit, in order |
| QueryString.FormatListing | es_mcp_server.py:188-196 | the loop appends to the header the listing of the specification function |
| QueryString.ListingNumbering | es_mcp_server.py:190-194 | the listing is one block per hit in order, the i-th labelled `Result {from + i}` |
| MappingSummary.FieldTypes | es_mcp_server.py:293-294 | the types are read exactly when every property is a dict whose type is hashable: one type per property, in order, its `type` or `"unknown"` without one |
| MappingSummary.CountFieldTypes | es_mcp_server.py:292-298 | the counting loop builds the histogram of the specification function |
| MappingSummary.BumpCounts | es_mcp_server.py:295-298 | one increment adds one to the total and to the count of its own key only |
| MappingSummary.BumpKeys | es_mcp_server.py:295-298 | an increment introduces no key other than its own and keeps keys distinct |
| MappingSummary.CountMatches | es_mcp_server.py:292-298 | the counts add up to the number of properties, each type's count is its number of occurrences, and no type is counted twice |
| MappingSummary.SummaryCounts | es_mcp_server.py:287-298 | `field_count` is the number of top-level properties and the type counts add up to it |
| MappingSummary.UnknownType | es_mcp_server.py:294 | a property without `type` is counted as `"unknown"` |
| MappingSummary.FieldCount | es_mcp_server.py:287 | `field_count` is 0 without `properties` and the number of properties of a `properties` dict; its failures are TypeError or AttributeError |
| MappingSummary.FieldTypeCounts | es_mcp_server.py:292-298 | the histogram is empty without `properties`; over a `properties` dict it is built exactly when the field types can be read, and it is then `Count` of those types, whose counts `CountMatches` characterises |
| MappingSummary.Summary | es_mcp_server.py:284-298 | the summary exists exactly when `field_count` and the histogram do; it has four entries, `field_count` is the number of properties and the histogram adds up to it |
| Catalog.Project | es_mcp_server.py:53-61 | the projection succeeds exactly when every catalog entry is a dict, keeps their number and order, and projects each entry onto the columns |
| Catalog.RowContents | es_mcp_server.py:54-59 | a projected entry has the column names in order, each with the catalog value of its source key or `None` |
| IndexStats.PathFound | es_mcp_server.py:215-218 | a chain of subscripts through dicts that hold every key finds the innermost value |
| IndexStats.Megabytes | es_mcp_server.py:216 | the size in megabytes is the byte count divided by 1048576, and exists exactly for numbers |
| IndexStats.StatsText | es_mcp_server.py:211-218 | the statistics text exists exactly when all four counters are present and the size is a number |
| IndexStats.IndexInfo | es_mcp_server.py:245-257 | the index information exists exactly when the `get` response is a dict whose entry for the index is a dict, the document count is present and the size is a number; it has three entries, the first the index name |
| Tools.Recover | es_mcp_server.py:64-65 | a successful body is answered as it is; a raised exception becomes the prefix followed by its message |
| Tools.IndexMappings | es_mcp_server.py:73 | the mapping lookup succeeds exactly on a dict response whose index entry, if any, is a dict; it gives that entry's `mappings` (default `{}`), so `{}` for an index absent from the response |
| Tools.ListIndices | es_mcp_server.py:48-65 | the tool answers the body's text, or a text starting with `Error: ` when it raises |
| Tools.ListIndicesBody | es_mcp_server.py:51-63 | a failing catalog call is the tool's error; over a catalog list the tool succeeds exactly when every entry is a dict |
| Tools.ListIndicesDigest | es_mcp_server.py:51-63 | for a catalog of dicts the answer reports their number and lists each projected entry in order; a non-dict entry gives an error text |
| Tools.GetMappings | es_mcp_server.py:68-77 | the tool answers the body's text, or a text starting with `Error: ` when it raises |
| Tools.GetMappingsBody | es_mcp_server.py:71-75 | a failing mapping call is the tool's error; the tool succeeds exactly when the mapping lookup does, and an index absent from the response is shown with `{}` |
| Tools.Search | es_mcp_server.py:87-144 | the tool answers the body's text, or a text starting with `Error: ` when it raises |
| Tools.SearchBody | es_mcp_server.py:90 | a failing mapping call is the tool's error |
| Tools.SearchOutput | es_mcp_server.py:90-114 | the request sent is the query body spread after the index name, with the `<em>` highlight block over the mapping's text fields exactly when some property is highlightable; the answer is the text built from the search response, or the error of the search call |
| Tools.SearchTextOutput | es_mcp_server.py:117-142 | the header reports the total, the number of hits and `from` (0 when absent), and one block follows per hit in order |
| Tools.SearchWithQueryString | es_mcp_server.py:166-198 | the tool answers the body's text, or a text starting with `Error searching index {name}: ` when it raises |
| Tools.SearchWithQueryStringBody | es_mcp_server.py:168-182 | a failing search call, made with the index name and the query-string body, is the tool's error |
| Tools.SearchWithQueryStringListing | es_mcp_server.py:185-196 | with an integer total the header shows `from + 1` to `min(from + size, total)` and the hits follow numbered from `from + 1` |
| Tools.GetIndexStats | es_mcp_server.py:209-222 | the tool answers the body's text, or a text starting with `Error getting stats for index {name}: ` when it raises |
| Tools.GetIndexStatsBody | es_mcp_server.py:211-218 | a failing stats call is the tool's error; the tool succeeds exactly when the call does and its statistics text exists |
| Tools.IndexResource | es_mcp_server.py:237-261 | a missing index is reported as such; otherwise the body's text, or `Error retrieving index information: ` and the message |
| Tools.IndexResourceBody | es_mcp_server.py:241-259 | a failing existence check is the error, a missing index is reported as text, and for an existing index the resource succeeds exactly when both calls do and the index information exists |
| Tools.MappingResource | es_mcp_server.py:272-302 | a missing index is reported as such; otherwise the body's text, or `Error retrieving mapping information: ` and the message |
| Tools.MappingResourceBody | es_mcp_server.py:276-300 | a failing existence check is the error, a missing index is reported as text, and for an existing index the resource succeeds exactly when the mapping call and lookup do and the summary exists |
| Tools.MappingResourceCounts | es_mcp_server.py:276-300 | for an existing index the resource writes the mapping with `field_count` equal to the number of properties and type counts adding up to it |
| Tools.IndicesResource | es_mcp_server.py:310-327 | the resource answers the body's text, or a text starting with `Error listing indices: ` when it raises |
| Tools.IndicesResourceBody | es_mcp_server.py:312-325 | a failing catalog call is the error; over a catalog list the resource succeeds exactly when every entry is a dict |

## Left out

- The lifespan handler (es_mcp_server.py:20-41): reading `ES_CLOUD_ID` and `ES_API_KEY`, building the client, `ping` and `close` are I/O around the modelled code.
- FastMCP registration, `mcp.run`, `mcp.get_context()` and `ctx.request_context.lifespan_context.client`: the client is the `Tools.Client` parameter; a failing context lookup is not modelled.
- The cluster calls are the fields of `Tools.Client`; what the cluster returns is arbitrary, and `es.search(**search_request)` receives the request as one dict value.
- `json.dumps`, `str` of floats and containers, `:.2f` and `round(x, 2)` are the uninterpreted functions of `PyValue.Printer`; their text and the `TypeError` that `json.dumps` raises for values JSON cannot hold are not modelled (values decoded from JSON never raise it).
- IndexStats.Megabytes: float division is modelled with exact real arithmetic, without binary rounding.
- `Tools.Recover`: the text of an exception is `PyValue.ErrorText`, which follows CPython's wording; `str(KeyError(k))` quotes keys containing a quote differently in CPython.
- `list_indices` (es_mcp_server.py:47-65) takes no page or size arguments; neither does the model.
- The defaults of `search_with_query_string` (es_mcp_server.py:151-153: `fields="_source"`, `size=10`, `from_=0`) are not modelled as defaults: `Tools.SearchWithQueryString` takes all three as explicit parameters.
- Loops that may raise are modelled as a decoding pass followed by a formatting loop over the decoded data; both fail on the same first bad item with the same error as the source, but the partial output of an interrupted loop is never observable and is not modelled.
- Highlight.SearchRequestContents and Highlight.SpreadRequest require the query body's keys to be unique, which every Python dict guarantees.
- MappingSummary.HistogramValue: `json.dumps` of a histogram whose keys of different types print alike (the int 1 and the string "1") writes a duplicate key; the model keeps both entries.
- The helper scripts `configure_mcp_server.py`, `check_fastmcp.py` and `test_es_resources.py` are not part of this model.
