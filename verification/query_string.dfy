/** The `search_with_query_string` tool: a free-text query with an optional
    `_source` projection, and a numbered listing of the hits. */
module QueryString {
  import opened Text
  import opened PyValue

  /** A hit as the listing reads it: `hit['_score']`, `hit['_id']`, `hit['_source']`. */
  datatype ScoredHit = ScoredHit(score: Value, id: Value, source: Value)

  /** `query["_source"]`, set to `fields.split(",")` unless `fields` is empty
      or the sentinel `_source`. */
  function SourceFilter(fields: string): (r: Option<seq<string>>)
    ensures r.Some? <==> fields != "" && fields != "_source"
    ensures r.Some? ==> Join(",", r.value) == fields
    ensures r.Some? ==> forall i :: 0 <= i < |r.value| ==> ',' !in r.value[i]
  {
    if fields != "" && fields != "_source" then
      JoinSplit(fields, ',');
      Some(Split(fields, ','))
    else None
  }

  function StrList(names: seq<string>): Value
  {
    List(seq(|names|, i requires 0 <= i < |names| => Str(names[i])))
  }

  /** The request body: the query string query, `size`, `from`, and the
      projection when there is one. */
  function QueryBody(queryText: string, fields: string, size: int, from: int): (r: Fields)
    ensures UniqueKeys(r)
    ensures |r| == if SourceFilter(fields).Some? then 4 else 3
    ensures forall i :: 0 <= i < |r| ==> r[i].0 in ["query", "size", "from", "_source"]
  {
    var query: Fields := [
      ("query", Dict([("query_string", Dict([("query", Str(queryText))]))])),
      ("size", Int(size)),
      ("from", Int(from))];
    assert !HasKey(query, "_source");
    match SourceFilter(fields)
    case Some(names) => Put(query, "_source", StrList(names))
    case None => query
  }

  /** `size` and `from` pass through unchanged, and `_source` is the
      comma-split projection exactly when `fields` asks for one. */
  lemma QueryBodyContents(queryText: string, fields: string, size: int, from: int)
    ensures Lookup(QueryBody(queryText, fields, size, from), "size") == Some(Int(size))
    ensures Lookup(QueryBody(queryText, fields, size, from), "from") == Some(Int(from))
    ensures Lookup(QueryBody(queryText, fields, size, from), "query") ==
      Some(Dict([("query_string", Dict([("query", Str(queryText))]))]))
    ensures Lookup(QueryBody(queryText, fields, size, from), "_source") ==
      if fields != "" && fields != "_source" then Some(StrList(Split(fields, ','))) else None
  {
    var q := Dict([("query_string", Dict([("query", Str(queryText))]))]);
    var query: Fields := [("query", q), ("size", Int(size)), ("from", Int(from))];
    assert "size" != "query" && "from" != "query" && "from" != "size";
    assert "_source" != "query" && "_source" != "size" && "_source" != "from";
    assert query[1..][1..][1..] == [];
    assert Lookup(query, "query") == Some(q);
    assert Lookup(query, "size") == Some(Int(size));
    assert Lookup(query[1..][1..], "from") == Some(Int(from));
    assert Lookup(query[1..], "from") == Some(Int(from));
    assert Lookup(query, "from") == Some(Int(from));
    assert Lookup(query, "_source") == None;
  }

  /** A projection written without empty or comma-containing names comes back
      as exactly those names. */
  lemma ProjectionNames(names: seq<string>)
    requires |names| >= 1
    requires forall i :: 0 <= i < |names| ==> ',' !in names[i]
    requires Join(",", names) != "" && Join(",", names) != "_source"
    ensures SourceFilter(Join(",", names)) == Some(names)
  {
    SplitJoin(names, ',');
  }

  /** `min(a, b)` for an int `a`: `b` when `b < a`, `a` otherwise; comparing
      an int with anything but a number raises TypeError. */
  function Min(a: int, b: Value): (r: Result<Value>)
    ensures b.Int? ==> r == Ok(Int(if b.i < a then b.i else a))
    ensures b.Str? || b.List? || b.Dict? || b.Null? ==> r.Err?
  {
    match b
    case Int(n) => Ok(if n < a then b else Int(a))
    case Bool(t) => Ok(if (if t then 1 else 0) < a then b else Int(a))
    case Float(f) => Ok(if f < a as real then b else Int(a))
    case _ => Err(TypeError("'<' not supported between instances of '" + TypeName(b) + "' and 'int'"))
  }

  function DecodeScoredHit(hit: Value): (r: Result<ScoredHit>)
    ensures r.Ok? <==> hit.Dict? && HasKey(hit.fields, "_score") && HasKey(hit.fields, "_id") && HasKey(hit.fields, "_source")
    ensures r.Ok? ==> r.value == ScoredHit(Lookup(hit.fields, "_score").value, Lookup(hit.fields, "_id").value,
                                            Lookup(hit.fields, "_source").value)
  {
    var score :- Subscript(hit, "_score");
    var id :- Subscript(hit, "_id");
    var source :- Subscript(hit, "_source");
    Ok(ScoredHit(score, id, source))
  }

  function DecodeScoredHits(hits: seq<Value>): (r: Result<seq<ScoredHit>>)
    ensures r.Ok? <==> forall i :: 0 <= i < |hits| ==> DecodeScoredHit(hits[i]).Ok?
    ensures r.Ok? ==> |r.value| == |hits| && forall i :: 0 <= i < |hits| ==> DecodeScoredHit(hits[i]) == Ok(r.value[i])
    decreases |hits|
  {
    if hits == [] then Ok([])
    else
      var first :- DecodeScoredHit(hits[0]);
      assert forall i :: 1 <= i < |hits| ==> hits[i] == hits[1..][i - 1];
      var rest :- DecodeScoredHits(hits[1..]);
      Ok([first] + rest)
  }

  /** `Found … documents. Showing a-b:` with a = from + 1 and b = min(from + size, total). */
  function ListingHeader(total: Value, from: int, upper: Value, p: Printer): string
  {
    "Found " + StrOf(p, total) + " documents. Showing " + IntText(from + 1) + "-" + StrOf(p, upper) + ":\n\n"
  }

  /** The four lines appended for the hit numbered `number`. */
  function ScoreLine(number: int, hit: ScoredHit, p: Printer): string
  {
    "Result " + IntText(number) + ". Score: " + StrOf(p, hit.score) + "\n"
  }

  function IdLine(hit: ScoredHit, p: Printer): string
  {
    "ID: " + StrOf(p, hit.id) + "\n"
  }

  function ContentLines(hit: ScoredHit, p: Printer): string
  {
    p.dumpsIndented(hit.source) + "\n\n"
  }

  /** The text added for the hit numbered `number`. */
  function ResultBlock(number: int, hit: ScoredHit, p: Printer): string
  {
    ScoreLine(number, hit, p) + IdLine(hit, p) + "Content:\n" + ContentLines(hit, p)
  }

  /** What the loop appends for `hits`, numbering them from `from + 1`. */
  function Listing(from: int, hits: seq<ScoredHit>, p: Printer): string
  {
    if hits == [] then ""
    else Listing(from, hits[..|hits| - 1], p) + ResultBlock(from + |hits|, hits[|hits| - 1], p)
  }

  /** The loop `for i, hit in enumerate(hits, 1)` that appends to `formatted`. */
  method FormatListing(header: string, from: int, hits: seq<ScoredHit>, p: Printer) returns (formatted: string)
    ensures formatted == header + Listing(from, hits, p)
  {
    formatted := header;
    var k := 0;
    while k < |hits|
      invariant 0 <= k <= |hits|
      invariant formatted == header + Listing(from, hits[..k], p)
    {
      var i, hit := k + 1, hits[k];
      ghost var before := formatted;
      formatted := formatted + ScoreLine(from + i, hit, p);
      formatted := formatted + IdLine(hit, p);
      formatted := formatted + "Content:\n";
      formatted := formatted + ContentLines(hit, p);
      ListingStep(header, before, formatted, from, hits, k, p);
      k := k + 1;
    }
    assert hits[..|hits|] == hits;
  }

  /** One turn of the loop appends the next numbered block. */
  lemma ListingStep(header: string, before: string, after: string, from: int, hits: seq<ScoredHit>, k: nat, p: Printer)
    requires k < |hits|
    requires before == header + Listing(from, hits[..k], p)
    requires after == before + ScoreLine(from + k + 1, hits[k], p) + IdLine(hits[k], p) + "Content:\n" + ContentLines(hits[k], p)
    ensures after == header + Listing(from, hits[..k + 1], p)
  {
    var score, id, content := ScoreLine(from + k + 1, hits[k], p), IdLine(hits[k], p), ContentLines(hits[k], p);
    var block := ResultBlock(from + k + 1, hits[k], p);
    var listed := Listing(from, hits[..k], p);
    calc {
      after;
      before + score + id + "Content:\n" + content;
      { AppendAssoc(before, score, id); }
      before + (score + id) + "Content:\n" + content;
      { AppendAssoc(before, score + id, "Content:\n"); }
      before + (score + id + "Content:\n") + content;
      { AppendAssoc(before, score + id + "Content:\n", content); }
      before + block;
      header + listed + block;
      { AppendAssoc(header, listed, block); }
      header + (listed + block);
      { ListingExtend(from, hits, k, p); }
      header + Listing(from, hits[..k + 1], p);
    }
  }

  /** The listing of one more hit ends with that hit's block. */
  lemma ListingExtend(from: int, hits: seq<ScoredHit>, k: nat, p: Printer)
    requires k < |hits|
    ensures Listing(from, hits[..k + 1], p) == Listing(from, hits[..k], p) + ResultBlock(from + k + 1, hits[k], p)
  {
    assert hits[..k + 1][..k] == hits[..k];
  }

  /** The blocks of the listing, the i-th (from 0) numbered `from + i + 1`. */
  function ResultBlocks(from: int, hits: seq<ScoredHit>, p: Printer): seq<string>
  {
    seq(|hits|, i requires 0 <= i < |hits| => ResultBlock(from + i + 1, hits[i], p))
  }

  /** The listing is one block per hit, in order, the i-th (from 1) labelled
      `Result {from + i}`. */
  lemma {:induction false} ListingNumbering(from: int, hits: seq<ScoredHit>, p: Printer)
    ensures Listing(from, hits, p) == Concat(ResultBlocks(from, hits, p))
    decreases |hits|
  {
    if hits != [] {
      var n := |hits| - 1;
      ListingNumbering(from, hits[..n], p);
      var blocks := ResultBlocks(from, hits, p);
      var front := ResultBlocks(from, hits[..n], p);
      assert |front| == n;
      assert forall i :: 0 <= i < n ==> blocks[..n][i] == front[i];
      assert blocks[..n] == front;
      assert blocks[n] == ResultBlock(from + |hits|, hits[n], p);
      assert Concat(blocks) == Concat(front) + blocks[n];
    }
  }
}
