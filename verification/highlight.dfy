/** The request the `search` tool sends: the caller's query body spread after
    the index name, plus a `highlight` block naming every highlightable
    top-level property of the index mapping. */
module Highlight {
  import opened Text
  import opened PyValue

  /** A property is highlighted when its descriptor says `"type": "text"` or
      has a `dense_vector` key (a key of the descriptor itself, not the type of
      a sub-field). */
  predicate Highlightable(descriptor: Fields)
  {
    Lookup(descriptor, "type") == Some(Str("text")) || HasKey(descriptor, "dense_vector")
  }

  /** The top-level properties as descriptors. `field_data.get` raises
      AttributeError on the first property whose value is not a dict. */
  function Descriptors(props: Fields): (r: Result<seq<(string, Fields)>>)
    ensures r.Ok? <==> forall i :: 0 <= i < |props| ==> props[i].1.Dict?
    ensures r.Ok? ==> |r.value| == |props|
    ensures r.Ok? ==> forall i :: 0 <= i < |props| ==> r.value[i] == (props[i].0, props[i].1.fields)
    ensures r.Err? ==> r.error.AttributeError?
    decreases |props|
  {
    if props == [] then Ok([])
    else
      var head :- AsDict(props[0].1, "get");
      var tail := Descriptors(props[1..]);
      assert tail.Ok? <==> forall i :: 1 <= i < |props| ==> props[i].1.Dict? by {
        assert forall i :: 1 <= i < |props| ==> props[i] == props[1..][i - 1];
      }
      if tail.Err? then Err(tail.error)
      else Ok([(props[0].0, head)] + tail.value)
  }

  /** The `text_fields` dict once the loop has visited `descriptors`. */
  function TextFields(descriptors: seq<(string, Fields)>): Fields
  {
    if descriptors == [] then []
    else
      var init := TextFields(descriptors[..|descriptors| - 1]);
      var last := descriptors[|descriptors| - 1];
      if Highlightable(last.1) then Put(init, last.0, Dict([])) else init
  }

  /** The loop that fills `text_fields` in place. */
  method CollectTextFields(descriptors: seq<(string, Fields)>) returns (textFields: Fields)
    ensures textFields == TextFields(descriptors)
  {
    textFields := [];
    for i := 0 to |descriptors|
      invariant textFields == TextFields(descriptors[..i])
    {
      assert descriptors[..i + 1][..i] == descriptors[..i];
      var (name, data) := descriptors[i];
      if Highlightable(data) {
        textFields := Put(textFields, name, Dict([]));
      }
    }
    assert descriptors[..|descriptors|] == descriptors;
  }

  /** `text_fields` names exactly the highlightable properties. */
  lemma {:induction false} TextFieldsKeys(descriptors: seq<(string, Fields)>, name: string)
    ensures HasKey(TextFields(descriptors), name) <==>
      exists i :: 0 <= i < |descriptors| && descriptors[i].0 == name && Highlightable(descriptors[i].1)
    decreases |descriptors|
  {
    if descriptors != [] {
      var n := |descriptors| - 1;
      var init := descriptors[..n];
      TextFieldsKeys(init, name);
      var last := descriptors[n];
      var r := TextFields(descriptors);
      assert Lookup(r, name).Some? <==> HasKey(r, name);
      assert Lookup(TextFields(init), name).Some? <==> HasKey(TextFields(init), name);
      if exists i :: 0 <= i < n + 1 && descriptors[i].0 == name && Highlightable(descriptors[i].1) {
        var i :| 0 <= i < n + 1 && descriptors[i].0 == name && Highlightable(descriptors[i].1);
        if i < n { assert init[i] == descriptors[i]; }
      }
      if exists i :: 0 <= i < n && init[i].0 == name && Highlightable(init[i].1) {
        var i :| 0 <= i < n && init[i].0 == name && Highlightable(init[i].1);
        assert descriptors[i] == init[i];
      }
    }
  }

  /** Every entry of `text_fields` has empty options, and no name appears twice. */
  lemma {:induction false} TextFieldsValues(descriptors: seq<(string, Fields)>)
    ensures forall j :: 0 <= j < |TextFields(descriptors)| ==> TextFields(descriptors)[j].1 == Dict([])
    ensures UniqueKeys(TextFields(descriptors))
    decreases |descriptors|
  {
    if descriptors != [] {
      var n := |descriptors| - 1;
      TextFieldsValues(descriptors[..n]);
      if Highlightable(descriptors[n].1) {
        PutEntries(TextFields(descriptors[..n]), descriptors[n].0, Dict([]));
        PutUnique(TextFields(descriptors[..n]), descriptors[n].0, Dict([]));
      }
    }
  }

  /** There are text fields exactly when some property is highlightable. */
  lemma TextFieldsEmpty(descriptors: seq<(string, Fields)>)
    ensures TextFields(descriptors) == [] <==> forall i :: 0 <= i < |descriptors| ==> !Highlightable(descriptors[i].1)
  {
    var tf := TextFields(descriptors);
    if tf != [] {
      assert HasKey(tf, tf[0].0);
      TextFieldsKeys(descriptors, tf[0].0);
    } else {
      forall i | 0 <= i < |descriptors| ensures !Highlightable(descriptors[i].1) {
        TextFieldsKeys(descriptors, descriptors[i].0);
      }
    }
  }

  /** The block attached as `highlight`, with the default `<em>` tags. */
  function HighlightBlock(textFields: Fields): Value
  {
    Dict([("fields", Dict(textFields)),
          ("pre_tags", List([Str("<em>")])),
          ("post_tags", List([Str("</em>")]))])
  }

  /** `{**base, **extra}`. */
  function Spread(base: Fields, extra: Fields): Fields
  {
    if extra == [] then base
    else
      var last := extra[|extra| - 1];
      Put(Spread(base, extra[..|extra| - 1]), last.0, last.1)
  }

  /** The keys of `{**base, **extra}` are those of `base` and those of `extra`. */
  lemma {:induction false} SpreadKeys(base: Fields, extra: Fields, k: string)
    ensures HasKey(Spread(base, extra), k) <==> HasKey(base, k) || HasKey(extra, k)
    decreases |extra|
  {
    if extra != [] {
      var last := extra[|extra| - 1];
      var init := extra[..|extra| - 1];
      SpreadKeys(base, init, k);
      HasKeyInit(extra, k);
      var before := Spread(base, init);
      assert Spread(base, extra) == Put(before, last.0, last.1);
      assert HasKey(Put(before, last.0, last.1), k) <==> HasKey(before, k) || last.0 == k by {
        assert Lookup(Put(before, last.0, last.1), k).Some? <==> HasKey(Put(before, last.0, last.1), k);
        assert Lookup(before, k).Some? <==> HasKey(before, k);
      }
    }
  }

  /** A key of a run of entries is a key of all but its last entry, or the last entry's. */
  lemma HasKeyInit(fs: Fields, k: string)
    requires fs != []
    ensures HasKey(fs, k) <==> HasKey(fs[..|fs| - 1], k) || fs[|fs| - 1].0 == k
  {
    var init := fs[..|fs| - 1];
    if HasKey(init, k) {
      var i :| 0 <= i < |init| && init[i].0 == k;
      assert fs[i].0 == k;
    }
    if HasKey(fs, k) && fs[|fs| - 1].0 != k {
      var i :| 0 <= i < |fs| && fs[i].0 == k;
      assert init[i].0 == k;
    }
  }

  /** Dropping a last entry with another key does not change a lookup. */
  lemma {:induction false} LookupInit(fs: Fields, k: string)
    requires fs != [] && fs[|fs| - 1].0 != k
    ensures Lookup(fs, k) == Lookup(fs[..|fs| - 1], k)
    decreases |fs|
  {
    if |fs| > 1 && fs[0].0 != k {
      LookupInit(fs[1..], k);
      assert fs[1..][..|fs| - 2] == fs[..|fs| - 1][1..];
    }
  }

  /** With unique keys, every entry is what a lookup of its key finds. */
  lemma {:induction false} LookupUnique(fs: Fields, i: nat)
    requires UniqueKeys(fs) && i < |fs|
    ensures Lookup(fs, fs[i].0) == Some(fs[i].1)
    decreases i
  {
    if i > 0 {
      LookupUnique(fs[1..], i - 1);
    }
  }

  /** In a spread, a key of `extra` takes its value from `extra`, any other
      key keeps its value in `base`. */
  lemma {:induction false} SpreadLookup(base: Fields, extra: Fields, k: string)
    requires UniqueKeys(extra)
    ensures Lookup(Spread(base, extra), k) == if HasKey(extra, k) then Lookup(extra, k) else Lookup(base, k)
    decreases |extra|
  {
    if extra != [] {
      var n := |extra| - 1;
      var init := extra[..n];
      assert UniqueKeys(init);
      SpreadLookup(base, init, k);
      if extra[n].0 == k {
        LookupUnique(extra, n);
      } else {
        LookupInit(extra, k);
        assert Lookup(extra, k).Some? <==> HasKey(extra, k);
        assert Lookup(init, k).Some? <==> HasKey(init, k);
      }
    }
  }

  /** Whether the index mapping has a `properties` dict one of whose entries is
      a highlightable descriptor. */
  ghost predicate OffersHighlight(indexMappings: Value)
  {
    && indexMappings.Dict?
    && Lookup(indexMappings.fields, "properties").Some?
    && var props := Lookup(indexMappings.fields, "properties").value;
    && props.Dict?
    && exists i :: 0 <= i < |props.fields| && props.fields[i].1.Dict? && Highlightable(props.fields[i].1.fields)
  }

  /** `search_request` as the `search` tool builds it from the index name, the
      caller's query body and the index mapping. */
  function SearchRequest(index: string, queryBody: Fields, indexMappings: Value): (r: Result<Fields>)
    ensures indexMappings.Dict? && !HasKey(indexMappings.fields, "properties") ==>
      r == Ok(Spread([("index", Str(index))], queryBody))
    ensures indexMappings.Dict? && HasKey(indexMappings.fields, "properties") ==>
      var props := Lookup(indexMappings.fields, "properties").value;
      (r.Ok? <==> props.Dict? && forall i :: 0 <= i < |props.fields| ==> props.fields[i].1.Dict?)
    ensures r.Err? ==> r.error.AttributeError? || r.error.TypeError?
  {
    var request := Spread([("index", Str(index))], queryBody);
    var hasProps :- Contains(indexMappings, "properties");
    if !hasProps then Ok(request)
    else
      var propsValue :- Subscript(indexMappings, "properties");
      var props :- Items(propsValue);
      var descriptors :- Descriptors(props);
      var textFields := TextFields(descriptors);
      if textFields == [] then Ok(request)
      else Ok(Put(request, "highlight", HighlightBlock(textFields)))
  }

  /** The text fields the request highlights for a mapping whose properties
      are all dicts. */
  function MappingTextFields(indexMappings: Value): Fields
  {
    if indexMappings.Dict? then
      match Lookup(indexMappings.fields, "properties")
      case Some(Dict(props)) =>
        (match Descriptors(props)
         case Ok(descriptors) => TextFields(descriptors)
         case Err(_) => [])
      case _ => []
    else []
  }

  /** The caller's query body spread after the index name: `index` and every
      key of the query body, the query body's value winning. */
  lemma SpreadRequest(index: string, queryBody: Fields, k: string)
    requires UniqueKeys(queryBody)
    ensures Lookup(Spread([("index", Str(index))], queryBody), k) ==
      if HasKey(queryBody, k) then Lookup(queryBody, k) else if k == "index" then Some(Str(index)) else None
  {
    var base: Fields := [("index", Str(index))];
    SpreadLookup(base, queryBody, k);
    assert Lookup(base, k) == if k == "index" then Some(Str(index)) else None;
  }

  /** When the mapping has a `properties` dict, the request gains a highlight
      block exactly when one of its descriptors is highlightable. */
  lemma HighlightDecision(index: string, queryBody: Fields, indexMappings: Value)
    requires SearchRequest(index, queryBody, indexMappings).Ok?
    ensures var request := SearchRequest(index, queryBody, indexMappings).value;
      var spread := Spread([("index", Str(index))], queryBody);
      request == if OffersHighlight(indexMappings) then Put(spread, "highlight", HighlightBlock(MappingTextFields(indexMappings)))
                 else spread
  {
    if Contains(indexMappings, "properties") == Ok(true) {
      var props := Lookup(indexMappings.fields, "properties").value.fields;
      assert Subscript(indexMappings, "properties") == Ok(Dict(props));
      assert Items(Dict(props)) == Ok(props);
      var descriptors := Descriptors(props).value;
      assert MappingTextFields(indexMappings) == TextFields(descriptors);
      HighlightableProperty(props, descriptors);
      assert OffersHighlight(indexMappings) <==> TextFields(descriptors) != [];
    } else {
      assert !OffersHighlight(indexMappings);
    }
  }

  /** Some property is a highlightable dict exactly when the collected text
      fields are not empty. */
  lemma HighlightableProperty(props: Fields, descriptors: seq<(string, Fields)>)
    requires Descriptors(props) == Ok(descriptors)
    ensures (exists i :: 0 <= i < |props| && props[i].1.Dict? && Highlightable(props[i].1.fields))
            <==> TextFields(descriptors) != []
  {
    TextFieldsEmpty(descriptors);
    if exists i :: 0 <= i < |descriptors| && Highlightable(descriptors[i].1) {
      var i :| 0 <= i < |descriptors| && Highlightable(descriptors[i].1);
      assert props[i].1.Dict? && Highlightable(props[i].1.fields);
    }
    if exists i :: 0 <= i < |props| && props[i].1.Dict? && Highlightable(props[i].1.fields) {
      var i :| 0 <= i < |props| && props[i].1.Dict? && Highlightable(props[i].1.fields);
      assert Highlightable(descriptors[i].1);
    }
  }

  /** The request holds `index` and every key of the query body, with the query
      body's value winning; `highlight` is the computed block exactly when the
      mapping offers a highlightable property, and the caller's own
      `highlight` (if any) otherwise. Nothing else is added or changed. */
  lemma SearchRequestContents(index: string, queryBody: Fields, indexMappings: Value, k: string)
    requires UniqueKeys(queryBody)
    requires SearchRequest(index, queryBody, indexMappings).Ok?
    ensures var request := SearchRequest(index, queryBody, indexMappings).value;
      && (k != "highlight" ==>
            Lookup(request, k) == if HasKey(queryBody, k) then Lookup(queryBody, k)
                                  else if k == "index" then Some(Str(index)) else None)
      && (k == "highlight" ==>
            Lookup(request, k) == if OffersHighlight(indexMappings) then Some(HighlightBlock(MappingTextFields(indexMappings)))
                                  else Lookup(queryBody, k))
  {
    HighlightDecision(index, queryBody, indexMappings);
    SpreadRequest(index, queryBody, k);
  }

  /** A `properties` entry that is not a dict makes the search fail before any
      request is sent. */
  lemma SearchRequestRejects(index: string, queryBody: Fields, indexMappings: Value, i: nat)
    requires indexMappings.Dict?
    requires Lookup(indexMappings.fields, "properties").Some?
    requires Lookup(indexMappings.fields, "properties").value.Dict?
    requires i < |Lookup(indexMappings.fields, "properties").value.fields|
    requires !Lookup(indexMappings.fields, "properties").value.fields[i].1.Dict?
    ensures SearchRequest(index, queryBody, indexMappings).Err?
    ensures SearchRequest(index, queryBody, indexMappings).error.AttributeError?
  {
  }
}
