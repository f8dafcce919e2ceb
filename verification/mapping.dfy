/** The mapping resource's summary: the number of top-level properties and
    how often each field type occurs among them. */
module MappingSummary {
  import opened Text
  import opened PyValue

  /** One count per field type, in order of first occurrence (the
      `field_types` dict before it is written out as JSON). */
  type Histogram = seq<(Value, nat)>

  /** Values usable as dict keys. */
  predicate Hashable(v: Value)
  {
    !v.List? && !v.Dict?
  }

  /** The number a bool, int or float stands for: Python's dict treats
      `True`, `1` and `1.0` as one key. */
  function NumberOf(v: Value): Option<real>
  {
    match v
    case Bool(b) => Some(if b then 1.0 else 0.0)
    case Int(i) => Some(i as real)
    case Float(f) => Some(f)
    case _ => None
  }

  /** Whether two keys are the same dict key. */
  predicate SameKey(a: Value, b: Value)
  {
    if NumberOf(a).Some? && NumberOf(b).Some? then NumberOf(a) == NumberOf(b) else a == b
  }

  /** `field_data.get("type", "unknown")` for every property, in order. The
      first property that is not a dict raises AttributeError; the first type
      that cannot be a dict key raises TypeError. */
  function FieldTypes(props: Fields): (r: Result<seq<Value>>)
    ensures r.Ok? <==> forall i :: 0 <= i < |props| ==>
      props[i].1.Dict? && Hashable(GetOr(props[i].1.fields, "type", Str("unknown")))
    ensures r.Ok? ==> |r.value| == |props|
    ensures r.Ok? ==> forall i :: 0 <= i < |props| ==>
      props[i].1.Dict? && r.value[i] == GetOr(props[i].1.fields, "type", Str("unknown")) && Hashable(r.value[i])
    decreases |props|
  {
    if props == [] then Ok([])
    else
      var descriptor :- AsDict(props[0].1, "get");
      var fieldType := GetOr(descriptor, "type", Str("unknown"));
      if !Hashable(fieldType) then Err(TypeError("unhashable type: '" + TypeName(fieldType) + "'"))
      else
        var rest :- FieldTypes(props[1..]);
        assert forall i :: 1 <= i < |props| ==> props[i] == props[1..][i - 1];
        Ok([fieldType] + rest)
  }

  /** `field_types[t] += 1` when `t` is already a key, `field_types[t] = 1` otherwise. */
  function Bump(hist: Histogram, t: Value): Histogram
  {
    if hist == [] then [(t, 1)]
    else if SameKey(hist[0].0, t) then [(hist[0].0, hist[0].1 + 1)] + hist[1..]
    else [hist[0]] + Bump(hist[1..], t)
  }

  /** `field_types` once the loop has counted `types`. */
  function Count(types: seq<Value>): Histogram
  {
    if types == [] then [] else Bump(Count(types[..|types| - 1]), types[|types| - 1])
  }

  /** The loop that increments `result["field_types"][field_type]`. */
  method CountFieldTypes(types: seq<Value>) returns (fieldTypes: Histogram)
    ensures fieldTypes == Count(types)
  {
    fieldTypes := [];
    for i := 0 to |types|
      invariant fieldTypes == Count(types[..i])
    {
      assert types[..i + 1][..i] == types[..i];
      fieldTypes := Bump(fieldTypes, types[i]);
    }
    assert types[..|types|] == types;
  }

  /** The sum of all counts. */
  function Total(hist: Histogram): nat
  {
    if hist == [] then 0 else hist[0].1 + Total(hist[1..])
  }

  /** The count stored for key `t`, 0 when there is none. */
  function CountOf(hist: Histogram, t: Value): nat
  {
    if hist == [] then 0 else if SameKey(hist[0].0, t) then hist[0].1 else CountOf(hist[1..], t)
  }

  /** How many of `types` are the same key as `t`. */
  function Occurrences(types: seq<Value>, t: Value): nat
  {
    if types == [] then 0
    else Occurrences(types[..|types| - 1], t) + (if SameKey(types[|types| - 1], t) then 1 else 0)
  }

  /** No two entries of the histogram are the same key. */
  predicate DistinctKeys(hist: Histogram)
  {
    forall i, j :: 0 <= i < j < |hist| ==> !SameKey(hist[i].0, hist[j].0)
  }

  /** One bump adds one to the total and to the count of its key only, and
      keeps the keys distinct. */
  lemma {:induction false} BumpCounts(hist: Histogram, t: Value, u: Value)
    ensures Total(Bump(hist, t)) == Total(hist) + 1
    ensures CountOf(Bump(hist, t), u) == CountOf(hist, u) + (if SameKey(t, u) then 1 else 0)
    decreases |hist|
  {
    if hist != [] && !SameKey(hist[0].0, t) {
      BumpCounts(hist[1..], t, u);
      assert Bump(hist, t)[1..] == Bump(hist[1..], t);
    }
  }

  /** Every key of a bumped histogram is an old key or the bumped one. */
  lemma {:induction false} BumpKeys(hist: Histogram, t: Value)
    ensures |Bump(hist, t)| >= 1
    ensures forall i :: 0 <= i < |Bump(hist, t)| ==>
      SameKey(Bump(hist, t)[i].0, t) || exists j :: 0 <= j < |hist| && Bump(hist, t)[i].0 == hist[j].0
    ensures DistinctKeys(hist) ==> DistinctKeys(Bump(hist, t))
    decreases |hist|
  {
    if hist != [] && !SameKey(hist[0].0, t) {
      BumpKeys(hist[1..], t);
      var b := Bump(hist, t);
      assert b == [hist[0]] + Bump(hist[1..], t);
      forall i | 1 <= i < |b|
        ensures SameKey(b[i].0, t) || exists j :: 0 <= j < |hist| && b[i].0 == hist[j].0
      {
        assert b[i] == Bump(hist[1..], t)[i - 1];
        if !SameKey(b[i].0, t) {
          var j :| 0 <= j < |hist[1..]| && b[i].0 == hist[1..][j].0;
          assert b[i].0 == hist[j + 1].0;
        }
      }
      if DistinctKeys(hist) {
        forall i | 1 <= i < |b| ensures !SameKey(b[0].0, b[i].0) {
          assert b[i] == Bump(hist[1..], t)[i - 1];
          if !SameKey(b[i].0, t) {
            var j :| 0 <= j < |hist[1..]| && b[i].0 == hist[1..][j].0;
            assert b[i].0 == hist[j + 1].0;
          }
        }
        assert DistinctKeys(b) by {
          forall i, j | 0 <= i < j < |b| ensures !SameKey(b[i].0, b[j].0) {
            if i > 0 {
              assert b[i] == Bump(hist[1..], t)[i - 1] && b[j] == Bump(hist[1..], t)[j - 1];
            }
          }
        }
      }
    }
  }

  /** The counts sum to the number of types, each key's count is how often
      it occurs, and no key is counted twice. */
  lemma {:induction false} CountMatches(types: seq<Value>, u: Value)
    ensures Total(Count(types)) == |types|
    ensures CountOf(Count(types), u) == Occurrences(types, u)
    ensures DistinctKeys(Count(types))
    decreases |types|
  {
    if types != [] {
      var n := |types| - 1;
      CountMatches(types[..n], u);
      BumpCounts(Count(types[..n]), types[n], u);
      BumpKeys(Count(types[..n]), types[n]);
    }
  }

  /** `field_count`: the number of entries of `properties` when `mappings`
      has it, 0 otherwise. */
  function FieldCount(mappings: Value): (r: Result<nat>)
    ensures mappings.Dict? && !HasKey(mappings.fields, "properties") ==> r == Ok(0)
    ensures mappings.Dict? && Lookup(mappings.fields, "properties").Some? && Lookup(mappings.fields, "properties").value.Dict? ==>
      r == Ok(|Lookup(mappings.fields, "properties").value.fields|)
    ensures r.Err? ==> r.error.TypeError? || r.error.AttributeError?
  {
    var hasProps :- Contains(mappings, "properties");
    if hasProps then
      var props :- Get(mappings, "properties", Dict([]));
      Len(props)
    else Ok(0)
  }

  /** `field_types`: the histogram of the properties' types, empty without
      `properties`. */
  function FieldTypeCounts(mappings: Value): (r: Result<Histogram>)
    ensures mappings.Dict? && !HasKey(mappings.fields, "properties") ==> r == Ok([])
    ensures mappings.Dict? && Lookup(mappings.fields, "properties").Some? && Lookup(mappings.fields, "properties").value.Dict? ==>
      r.Ok? == FieldTypes(Lookup(mappings.fields, "properties").value.fields).Ok?
    ensures mappings.Dict? && Lookup(mappings.fields, "properties").Some? && Lookup(mappings.fields, "properties").value.Dict? && r.Ok? ==>
      r.value == Count(FieldTypes(Lookup(mappings.fields, "properties").value.fields).value)
  {
    var hasProps :- Contains(mappings, "properties");
    if hasProps then
      var propsValue :- Subscript(mappings, "properties");
      var props :- Items(propsValue);
      var types :- FieldTypes(props);
      Ok(Count(types))
    else Ok([])
  }

  /** The number of top-level properties: those of a `properties` dict, none
      without one. */
  function PropertyCount(mappings: Value): nat
  {
    if mappings.Dict? then
      match Lookup(mappings.fields, "properties")
      case Some(Dict(props)) => |props|
      case _ => 0
    else 0
  }

  /** When both parts succeed, `field_count` is the number of top-level
      properties and the `field_types` counts add up to it. */
  lemma SummaryCounts(mappings: Value)
    requires FieldCount(mappings).Ok? && FieldTypeCounts(mappings).Ok?
    ensures FieldCount(mappings).value == PropertyCount(mappings)
    ensures Total(FieldTypeCounts(mappings).value) == FieldCount(mappings).value
  {
    if Contains(mappings, "properties") == Ok(true) {
      var props := Items(Subscript(mappings, "properties").value).value;
      CountMatches(FieldTypes(props).value, Null);
    }
  }

  /** A property without `type` is counted under `"unknown"`. */
  lemma UnknownType(props: Fields, i: nat)
    requires i < |props|
    ensures FieldTypes(props).Ok? && !HasKey(props[i].1.fields, "type") ==> FieldTypes(props).value[i] == Str("unknown")
  {
  }

  /** The key `json.dumps` writes for a dict key. */
  function KeyText(key: Value, p: Printer): string
  {
    match key
    case Str(s) => s
    case Int(i) => IntText(i)
    case Bool(b) => if b then "true" else "false"
    case Null => "null"
    case _ => p.repr(key)
  }

  function HistogramValue(hist: Histogram, p: Printer): Value
  {
    Dict(seq(|hist|, i requires 0 <= i < |hist| => (KeyText(hist[i].0, p), Int(hist[i].1))))
  }

  /** The `result` dict the mapping resource writes out. */
  function Summary(index: string, mappings: Value, p: Printer): (r: Result<Value>)
    ensures r.Ok? <==> FieldCount(mappings).Ok? && FieldTypeCounts(mappings).Ok?
    ensures r.Ok? ==> r.value.Dict? && |r.value.fields| == 4
    ensures r.Ok? ==> r.value.fields[2] == ("field_count", Int(PropertyCount(mappings)))
    ensures r.Ok? ==> Total(FieldTypeCounts(mappings).value) == PropertyCount(mappings)
  {
    var count :- FieldCount(mappings);
    var hist :- FieldTypeCounts(mappings);
    SummaryCounts(mappings);
    Ok(Dict([("index", Str(index)),
             ("mappings", mappings),
             ("field_count", Int(count)),
             ("field_types", HistogramValue(hist, p))]))
  }
}
