/** How the `search` tool turns the search response into text: a header with
    the total, then one block per hit listing its highlighted fragments and
    then its remaining source fields. */
module HitFormat {
  import opened Text
  import opened PyValue

  /** A hit as the formatting loop reads it: every entry of its `highlight`
      dict, with the fragments that will be joined (none when the entry is
      falsy), and the entries of its `_source` dict. */
  datatype Hit = Hit(highlight: seq<(string, seq<string>)>, source: Fields)

  const Divider := "\n\n---\n\n"
  const Ellipsis := " ... "

  // ---------------------------------------------------------------------------
  // Reading the response

  /** `total_hits`: the `value` of an object-shaped total, a scalar total as it is. */
  function TotalHits(total: Value): (r: Result<Value>)
    ensures total.Dict? && HasKey(total.fields, "value") ==> r == Ok(Lookup(total.fields, "value").value)
    ensures !total.Dict? ==> r == Ok(total)
    ensures total.Dict? && !HasKey(total.fields, "value") ==> r == Err(KeyError("value"))
  {
    if total.Dict? then Subscript(total, "value") else Ok(total)
  }

  /** The strings `str.join` receives; the first that is not a string raises
      TypeError. `offset` is the position of `items[0]` in the joined sequence. */
  function JoinableStrings(items: seq<Value>, offset: nat): (r: Result<seq<string>>)
    ensures r.Ok? <==> forall i :: 0 <= i < |items| ==> items[i].Str?
    ensures r.Ok? ==> |r.value| == |items| && forall i :: 0 <= i < |items| ==> items[i] == Str(r.value[i])
    ensures r.Err? ==> r.error.TypeError?
    decreases |items|
  {
    if items == [] then Ok([])
    else if !items[0].Str? then
      Err(TypeError("sequence item " + IntText(offset) + ": expected str instance, " + TypeName(items[0]) + " found"))
    else
      var rest :- JoinableStrings(items[1..], offset + 1);
      Ok([items[0].s] + rest)
  }

  /** The fragments of one highlight entry: `if highlights and len(highlights) > 0`
      guards the join, so a falsy entry gives no fragments at all. */
  function Fragments(highlights: Value): (r: Result<seq<string>>)
    ensures !Truthy(highlights) ==> r == Ok([])
    ensures highlights.List? ==>
      (r.Ok? <==> forall i :: 0 <= i < |highlights.items| ==> highlights.items[i].Str?)
    ensures highlights.List? && r.Ok? ==>
      |r.value| == |highlights.items| && forall i :: 0 <= i < |r.value| ==> highlights.items[i] == Str(r.value[i])
    ensures highlights.Str? ==>
      r.Ok? && |r.value| == |highlights.s| && forall i :: 0 <= i < |r.value| ==> r.value[i] == [highlights.s[i]]
    ensures highlights.Dict? ==>
      r.Ok? && |r.value| == |highlights.fields| && forall i :: 0 <= i < |r.value| ==> r.value[i] == highlights.fields[i].0
    ensures Truthy(highlights) && (highlights.Bool? || highlights.Int? || highlights.Float?) ==> r.Err?
  {
    if !Truthy(highlights) then Ok([])
    else
      var n :- Len(highlights);
      if n == 0 then Ok([])
      else
        // whatever has a length here is also iterable
        JoinableStrings(Iterate(highlights).value, 0)
  }

  function DecodeHighlights(entries: Fields): (r: Result<seq<(string, seq<string>)>>)
    ensures r.Ok? <==> forall i :: 0 <= i < |entries| ==> Fragments(entries[i].1).Ok?
    ensures r.Ok? ==> |r.value| == |entries|
    ensures r.Ok? ==> forall i :: 0 <= i < |entries| ==> r.value[i] == (entries[i].0, Fragments(entries[i].1).value)
    decreases |entries|
  {
    if entries == [] then Ok([])
    else
      var fragments :- Fragments(entries[0].1);
      var rest :- DecodeHighlights(entries[1..]);
      Ok([(entries[0].0, fragments)] + rest)
  }

  /** One hit, read in the order the loop body reads it: `hit.get('highlight')`,
      `hit.get('_source')`, the highlight entries, then `_source.items()`. */
  function DecodeHit(hit: Value): (r: Result<Hit>)
    ensures !hit.Dict? ==> r.Err? && r.error.AttributeError?
    ensures r.Ok? <==>
      && hit.Dict?
      && GetOr(hit.fields, "highlight", Dict([])).Dict?
      && GetOr(hit.fields, "_source", Dict([])).Dict?
      && forall i :: 0 <= i < |GetOr(hit.fields, "highlight", Dict([])).fields| ==>
           Fragments(GetOr(hit.fields, "highlight", Dict([])).fields[i].1).Ok?
    ensures r.Ok? ==>
      && r.value.source == GetOr(hit.fields, "_source", Dict([])).fields
      && |r.value.highlight| == |GetOr(hit.fields, "highlight", Dict([])).fields|
      && forall i :: 0 <= i < |r.value.highlight| ==>
           var entry := GetOr(hit.fields, "highlight", Dict([])).fields[i];
           r.value.highlight[i] == (entry.0, Fragments(entry.1).value)
  {
    // the first `hit.get` raises on a hit that is not a dict; the second cannot
    var fs :- AsDict(hit, "get");
    var highlighted := GetOr(fs, "highlight", Dict([]));
    var sourceData := GetOr(fs, "_source", Dict([]));
    var entries :- Items(highlighted);
    var highlight :- DecodeHighlights(entries);
    var source :- Items(sourceData);
    Ok(Hit(highlight, source))
  }

  function DecodeHits(hits: seq<Value>): (r: Result<seq<Hit>>)
    ensures r.Ok? <==> forall i :: 0 <= i < |hits| ==> DecodeHit(hits[i]).Ok?
    ensures r.Ok? ==> |r.value| == |hits| && forall i :: 0 <= i < |hits| ==> DecodeHit(hits[i]) == Ok(r.value[i])
    decreases |hits|
  {
    if hits == [] then Ok([])
    else
      var first :- DecodeHit(hits[0]);
      assert forall i :: 1 <= i < |hits| ==> hits[i] == hits[1..][i - 1];
      var rest :- DecodeHits(hits[1..]);
      Ok([first] + rest)
  }

  // ---------------------------------------------------------------------------
  // Writing the text

  function HighlightLine(field: string, fragments: seq<string>): string
  {
    field + " (highlighted): " + Join(Ellipsis, fragments)
  }

  function SourceLine(field: string, value: Value, p: Printer): string
  {
    field + ": " + p.dumps(value)
  }

  /** `field not in highlighted_fields`: a key of the highlight dict, whatever its fragments. */
  predicate IsHighlighted(highlight: seq<(string, seq<string>)>, field: string)
  {
    exists i :: 0 <= i < |highlight| && highlight[i].0 == field
  }

  /** The lines the first inner loop appends, one per entry with fragments. */
  function HighlightLines(highlight: seq<(string, seq<string>)>): seq<string>
  {
    if highlight == [] then []
    else
      var last := highlight[|highlight| - 1];
      HighlightLines(highlight[..|highlight| - 1]) + (if |last.1| > 0 then [HighlightLine(last.0, last.1)] else [])
  }

  /** The lines the second inner loop appends, one per source field the
      highlight dict does not name. */
  function SourceLines(source: Fields, highlight: seq<(string, seq<string>)>, p: Printer): seq<string>
  {
    if source == [] then []
    else
      var last := source[|source| - 1];
      SourceLines(source[..|source| - 1], highlight, p)
        + (if !IsHighlighted(highlight, last.0) then [SourceLine(last.0, last.1, p)] else [])
  }

  /** `hit_text`: highlighted lines first, then the remaining source lines. */
  function HitLines(hit: Hit, p: Printer): seq<string>
  {
    HighlightLines(hit.highlight) + SourceLines(hit.source, hit.highlight, p)
  }

  function HitBlock(hit: Hit, p: Printer): string
  {
    Join("\n", HitLines(hit, p))
  }

  function Header(total: Value, shown: nat, from: Value, p: Printer): string
  {
    "Total results: " + StrOf(p, total) + ", showing " + IntText(shown) + " from position " + StrOf(p, from)
  }

  /** The `response` list: the header, then one block per hit in hit order. */
  function Sections(header: string, hits: seq<Hit>, p: Printer): seq<string>
  {
    [header] + seq(|hits|, i requires 0 <= i < |hits| => HitBlock(hits[i], p))
  }

  /** The two inner loops of the hit formatting, which fill `hit_text`. */
  method FormatHitText(hit: Hit, p: Printer) returns (hitText: seq<string>)
    ensures hitText == HighlightLines(hit.highlight) + SourceLines(hit.source, hit.highlight, p)
  {
    hitText := [];
    for i := 0 to |hit.highlight|
      invariant hitText == HighlightLines(hit.highlight[..i])
    {
      assert hit.highlight[..i + 1][..i] == hit.highlight[..i];
      var (field, highlights) := hit.highlight[i];
      if |highlights| > 0 {
        hitText := hitText + [HighlightLine(field, highlights)];
      }
    }
    assert hit.highlight[..|hit.highlight|] == hit.highlight;
    var lines := hitText;
    for i := 0 to |hit.source|
      invariant hitText == lines + SourceLines(hit.source[..i], hit.highlight, p)
    {
      assert hit.source[..i + 1][..i] == hit.source[..i];
      var (field, value) := hit.source[i];
      if !IsHighlighted(hit.highlight, field) {
        hitText := hitText + [SourceLine(field, value, p)];
      }
    }
    assert hit.source[..|hit.source|] == hit.source;
  }

  /** The outer loop: the header, then one block per hit, joined by the divider. */
  method FormatResponse(header: string, hits: seq<Hit>, p: Printer) returns (text: string)
    ensures text == Join(Divider, [header] + seq(|hits|, i requires 0 <= i < |hits| => Join("\n", HitLines(hits[i], p))))
  {
    var response := [header];
    for k := 0 to |hits|
      invariant response == [header] + seq(k, i requires 0 <= i < k => Join("\n", HitLines(hits[i], p)))
    {
      var hitText := FormatHitText(hits[k], p);
      response := response + [Join("\n", hitText)];
    }
    text := Join(Divider, response);
  }

  // ---------------------------------------------------------------------------
  // What the text shows

  /** The response has one section per hit after the header, in hit order. */
  lemma SectionsInOrder(header: string, hits: seq<Hit>, p: Printer, i: nat)
    requires i < |hits|
    ensures |Sections(header, hits, p)| == 1 + |hits|
    ensures Sections(header, hits, p)[0] == header
    ensures Sections(header, hits, p)[i + 1] == HitBlock(hits[i], p)
  {
  }

  /** A highlighted line comes from an entry with fragments, and each such
      entry gives its line. */
  lemma {:induction false} HighlightLinesExactly(highlight: seq<(string, seq<string>)>, line: string)
    ensures line in HighlightLines(highlight) <==>
      exists i :: 0 <= i < |highlight| && |highlight[i].1| > 0 && line == HighlightLine(highlight[i].0, highlight[i].1)
    decreases |highlight|
  {
    if highlight != [] {
      var n := |highlight| - 1;
      var init := highlight[..n];
      HighlightLinesExactly(init, line);
      assert forall i :: 0 <= i < n ==> init[i] == highlight[i];
    }
  }

  /** The highlighted lines keep highlight-map order: the lines of two runs
      of entries one after the other are the lines of the first run followed
      by those of the second. */
  lemma {:induction false} HighlightLinesInOrder(front: seq<(string, seq<string>)>, back: seq<(string, seq<string>)>)
    ensures HighlightLines(front + back) == HighlightLines(front) + HighlightLines(back)
    decreases |back|
  {
    if back == [] {
      assert front + back == front;
    } else {
      var n := |back| - 1;
      var whole := front + back;
      HighlightLinesInOrder(front, back[..n]);
      assert whole[..|whole| - 1] == front + back[..n];
      var a, b := HighlightLines(front), HighlightLines(back[..n]);
      AppendAssoc(a, b, if |back[n].1| > 0 then [HighlightLine(back[n].0, back[n].1)] else []);
    }
  }

  /** A raw source line comes from a source field that is not a highlight key,
      and each such field gives its line: so a highlighted field never also
      appears as a raw line. */
  lemma {:induction false} SourceLinesExactly(source: Fields, highlight: seq<(string, seq<string>)>, p: Printer, line: string)
    ensures line in SourceLines(source, highlight, p) <==>
      exists i :: 0 <= i < |source| && !IsHighlighted(highlight, source[i].0) && line == SourceLine(source[i].0, source[i].1, p)
    decreases |source|
  {
    if source != [] {
      var n := |source| - 1;
      var init := source[..n];
      SourceLinesExactly(init, highlight, p, line);
      assert forall i :: 0 <= i < n ==> init[i] == source[i];
    }
  }

  /** One raw line per source field that is not highlighted: a source field
      named in the highlight dict never gets a raw line. */
  lemma {:induction false} SourceLinesCount(source: Fields, highlight: seq<(string, seq<string>)>, p: Printer)
    ensures |SourceLines(source, highlight, p)| == |UnhighlightedFields(source, highlight)|
    ensures forall i :: 0 <= i < |SourceLines(source, highlight, p)| ==>
      SourceLines(source, highlight, p)[i] == SourceLine(UnhighlightedFields(source, highlight)[i].0, UnhighlightedFields(source, highlight)[i].1, p)
    decreases |source|
  {
    if source != [] {
      SourceLinesCount(source[..|source| - 1], highlight, p);
    }
  }

  /** The source fields the highlight dict does not name, in source order. */
  function UnhighlightedFields(source: Fields, highlight: seq<(string, seq<string>)>): (r: Fields)
    ensures forall i :: 0 <= i < |r| ==> r[i] in source && !IsHighlighted(highlight, r[i].0)
    ensures forall i :: 0 <= i < |source| && !IsHighlighted(highlight, source[i].0) ==> source[i] in r
  {
    if source == [] then []
    else
      var last := source[|source| - 1];
      UnhighlightedFields(source[..|source| - 1], highlight) + (if !IsHighlighted(highlight, last.0) then [last] else [])
  }

  /** The selection keeps source order: selecting from two runs of entries
      one after the other gives the selection from the first run followed by
      that from the second. */
  lemma {:induction false} UnhighlightedInOrder(front: Fields, back: Fields, highlight: seq<(string, seq<string>)>)
    ensures UnhighlightedFields(front + back, highlight) ==
      UnhighlightedFields(front, highlight) + UnhighlightedFields(back, highlight)
    decreases |back|
  {
    if back == [] {
      assert front + back == front;
    } else {
      var n := |back| - 1;
      var whole := front + back;
      UnhighlightedInOrder(front, back[..n], highlight);
      assert whole[..|whole| - 1] == front + back[..n];
      UnhighlightedLast(whole, highlight);
      UnhighlightedLast(back, highlight);
      var a, b := UnhighlightedFields(front, highlight), UnhighlightedFields(back[..n], highlight);
      AppendAssoc(a, b, if !IsHighlighted(highlight, back[n].0) then [back[n]] else []);
    }
  }

  /** Selecting from a run of entries selects from all but its last entry, then the last one if it is not highlighted. */
  lemma UnhighlightedLast(source: Fields, highlight: seq<(string, seq<string>)>)
    requires source != []
    ensures UnhighlightedFields(source, highlight) ==
      UnhighlightedFields(source[..|source| - 1], highlight)
        + (if !IsHighlighted(highlight, source[|source| - 1].0) then [source[|source| - 1]] else [])
  {
  }
}
