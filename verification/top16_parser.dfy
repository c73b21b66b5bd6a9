/**
 * The query side of the EDH Top 16 client: the colour-combination validator
 * of the command line, the JSON-like object wrapper `JSONObject`, the filter
 * builder `generate_query` and the URL-query decoder `decode_url_query`.
 */
module Top16Parser {
  import opened Wrappers
  import opened Dicts
  import opened Strings
  import opened Seqs

  // ---------------------------------------------------------------------------
  // validate_color_combination

  /** The accepted colour letters, in the order the validator lists them. */
  const ValidColors: seq<char> := ['W', 'U', 'B', 'R', 'G', 'C']

  /** The two `ArgumentTypeError`s the validator raises. */
  datatype ColorError = ColorlessCombined | InvalidColor(color: char)
  {
    function Message(): string {
      match this
      case ColorlessCombined => "Colorless (C) cannot be combined with other colors"
      case InvalidColor(c) => "Invalid color: " + [c]
    }
  }

  /** A colour combination the validator accepts: known letters only, and C only on its own. */
  predicate ValidCombination(colors: string) {
    (forall i :: 0 <= i < |colors| ==> colors[i] in ValidColors) && ('C' in colors ==> |colors| == 1)
  }

  /**
   * `validate_color_combination`: the colorless check runs first, then the
   * letters are checked left to right and the first unknown one is reported.
   * On success the letters come back as a list, in order, duplicates kept.
   */
  method ValidateColorCombination(colors: string) returns (r: Result<seq<char>, ColorError>)
    ensures r.Success? <==> ValidCombination(colors)
    ensures r.Success? ==> r.value == colors
    ensures 'C' in colors && |colors| > 1 ==> r == Failure(ColorlessCombined)
    ensures r.Failure? && r.error.InvalidColor? ==>
      exists i :: 0 <= i < |colors| && colors[i] == r.error.color && colors[i] !in ValidColors &&
        forall j :: 0 <= j < i ==> colors[j] in ValidColors
    ensures r == Failure(ColorlessCombined) ==> 'C' in colors && |colors| > 1
  {
    if 'C' in colors && |colors| > 1 {
      return Failure(ColorlessCombined);
    }
    for i := 0 to |colors|
      invariant forall j :: 0 <= j < i ==> colors[j] in ValidColors
    {
      if colors[i] !in ValidColors {
        return Failure(InvalidColor(colors[i]));
      }
    }
    return Success(colors);
  }

  // ---------------------------------------------------------------------------
  // JSONObject

  /**
   * The values that travel through the query code: Python ints, strings,
   * lists, dicts (`Map`) and `JSONObject` instances (`Obj`, holding `__dict__`).
   */
  datatype Value =
    | Int(i: int)
    | Str(s: string)
    | List(items: seq<Value>)
    | Map(entries: Dict<Value>)
    | Obj(attrs: Dict<Value>)

  /** The `__dict__` of `JSONObject(**kwargs)`: every dict value becomes a nested object, recursively. */
  function Wrap(kwargs: Dict<Value>): Dict<Value>
    decreases Map(kwargs), 0
  {
    seq(|kwargs|, i requires 0 <= i < |kwargs| => (kwargs[i].0, WrapValue(kwargs[i].1)))
  }

  function WrapValue(v: Value): Value
    decreases v, 1
  {
    if v.Map? then Obj(Wrap(v.entries)) else v
  }

  /** The `json` property: every nested object is turned back into a dict. */
  function Json(attrs: Dict<Value>): Dict<Value>
    decreases Obj(attrs), 0
  {
    seq(|attrs|, i requires 0 <= i < |attrs| => (attrs[i].0, JsonValue(attrs[i].1)))
  }

  function JsonValue(v: Value): Value
    decreases v, 1
  {
    if v.Obj? then Map(Json(v.attrs)) else v
  }

  /** A dict that holds no `JSONObject`, at any depth of nesting through dict values. */
  predicate PlainDict(d: Dict<Value>)
    decreases Map(d), 0
  {
    forall i :: 0 <= i < |d| ==> PlainValue(d[i].1)
  }

  predicate PlainValue(v: Value)
    decreases v, 1
  {
    !v.Obj? && (v.Map? ==> PlainDict(v.entries))
  }

  /** An attribute dict as `__init__` leaves it: no dict values, nested objects alike. */
  predicate WrappedDict(a: Dict<Value>)
    decreases Obj(a), 0
  {
    forall i :: 0 <= i < |a| ==> WrappedValue(a[i].1)
  }

  predicate WrappedValue(v: Value)
    decreases v, 1
  {
    !v.Map? && (v.Obj? ==> WrappedDict(v.attrs))
  }

  /** A Python dict: unique keys at every level of nesting through dict values. */
  ghost predicate PyDict(d: Dict<Value>)
    decreases Map(d), 0
  {
    UniqueKeys(d) && forall i :: 0 <= i < |d| ==> PyValue(d[i].1)
  }

  ghost predicate PyValue(v: Value)
    decreases v, 1
  {
    v.Map? ==> PyDict(v.entries)
  }

  /** `JSONObject(**d).json == d` for every dict of plain values that the constructor accepts. */
  lemma JsonWrap(d: Dict<Value>)
    requires PlainDict(d)
    ensures Json(Wrap(d)) == d
    decreases Map(d), 0
  {
    forall i | 0 <= i < |d| ensures JsonValue(WrapValue(d[i].1)) == d[i].1 {
      JsonWrapValue(d[i].1);
    }
  }

  lemma JsonWrapValue(v: Value)
    requires PlainValue(v)
    ensures JsonValue(WrapValue(v)) == v
    decreases v, 1
  {
    if v.Map? {
      JsonWrap(v.entries);
    }
  }

  /** Conversely, wrapping the `json` of a wrapped object rebuilds the same object. */
  lemma WrapJson(a: Dict<Value>)
    requires WrappedDict(a)
    ensures Wrap(Json(a)) == a
    decreases Obj(a), 0
  {
    forall i | 0 <= i < |a| ensures WrapValue(JsonValue(a[i].1)) == a[i].1 {
      WrapJsonValue(a[i].1);
    }
  }

  lemma WrapJsonValue(v: Value)
    requires WrappedValue(v)
    ensures WrapValue(JsonValue(v)) == v
    decreases v, 1
  {
    if v.Obj? {
      WrapJson(v.attrs);
    }
  }

  /** Every object `__init__` builds is fully wrapped, and its `json` is a plain dict. */
  lemma WrapWrapped(d: Dict<Value>)
    requires PlainDict(d)
    ensures WrappedDict(Wrap(d))
    decreases Map(d), 0
  {
    forall i | 0 <= i < |d| ensures WrappedValue(WrapValue(d[i].1)) {
      WrapWrappedValue(d[i].1);
    }
  }

  lemma WrapWrappedValue(v: Value)
    requires PlainValue(v)
    ensures WrappedValue(WrapValue(v))
    decreases v, 1
  {
    if v.Map? {
      WrapWrapped(v.entries);
    }
  }

  lemma JsonPlain(a: Dict<Value>)
    requires WrappedDict(a)
    ensures PlainDict(Json(a))
    decreases Obj(a), 0
  {
    forall i | 0 <= i < |a| ensures PlainValue(JsonValue(a[i].1)) {
      JsonPlainValue(a[i].1);
    }
  }

  lemma JsonPlainValue(v: Value)
    requires WrappedValue(v)
    ensures PlainValue(JsonValue(v))
    decreases v, 1
  {
    if v.Obj? {
      JsonPlain(v.attrs);
    }
  }

  /**
   * No key of d, nor of any dict nested in d through dict values, is `self`:
   * the keyword arguments `JSONObject(**d)` accepts, since `self` is already
   * the name of the first parameter of `__init__`.
   */
  predicate SelfFree(d: Dict<Value>)
    decreases Map(d), 0
  {
    forall i :: 0 <= i < |d| ==> d[i].0 != "self" && SelfFreeValue(d[i].1)
  }

  predicate SelfFreeValue(v: Value)
    decreases v, 1
  {
    v.Map? ==> SelfFree(v.entries)
  }

  /** The `TypeError` "got multiple values for argument 'self'" of `JSONObject(**kwargs)`. */
  datatype InitError = SelfKeyword

  /**
   * `JSONObject(**kwargs)`: the call fails when a key is `self`; otherwise each
   * keyword argument is stored in `__dict__` in turn, a dict value first being
   * wrapped into a nested `JSONObject`, whose own call fails in the same way.
   */
  method NewJSONObject(kwargs: Dict<Value>) returns (r: Result<Value, InitError>)
    requires PyDict(kwargs)
    ensures r.Success? <==> SelfFree(kwargs)
    ensures r.Success? ==> r.value == Obj(Wrap(kwargs))
    decreases Map(kwargs)
  {
    if "self" in Keys(kwargs) {
      return Failure(SelfKeyword);
    }
    var attrs: Dict<Value> := [];
    for i := 0 to |kwargs|
      invariant attrs == Wrap(kwargs[..i])
      invariant forall j :: 0 <= j < i ==> SelfFreeValue(kwargs[j].1)
    {
      var (key, value) := kwargs[i];
      if value.Map? {
        PyDictNested(kwargs, i);
        assert Map(value.entries) == kwargs[i].1;
        var nested := NewJSONObject(value.entries);
        if nested.Failure? {
          assert !SelfFreeValue(kwargs[i].1);
          return Failure(SelfKeyword);
        }
        value := nested.value;
      }
      StoreFresh(kwargs, i, value);
      attrs := Put(attrs, key, value);
      WrapSnoc(kwargs, i);
    }
    assert kwargs[..|kwargs|] == kwargs;
    return Success(Obj(attrs));
  }

  lemma WrapSnoc(d: Dict<Value>, i: nat)
    requires i < |d|
    ensures Wrap(d[..i + 1]) == Wrap(d[..i]) + [(d[i].0, WrapValue(d[i].1))]
  {
  }

  lemma PyDictNested(d: Dict<Value>, i: nat)
    requires PyDict(d) && i < |d| && d[i].1.Map?
    ensures PyDict(d[i].1.entries)
  {
    assert PyValue(d[i].1);
  }

  /** Storing the i-th keyword argument appends it: its key differs from the earlier ones. */
  lemma StoreFresh(kwargs: Dict<Value>, i: nat, value: Value)
    requires UniqueKeys(kwargs) && i < |kwargs|
    ensures Put(Wrap(kwargs[..i]), kwargs[i].0, value) == Wrap(kwargs[..i]) + [(kwargs[i].0, value)]
  {
    var attrs := Wrap(kwargs[..i]);
    forall j | 0 <= j < i ensures Keys(attrs)[j] != kwargs[i].0 {
      assert attrs[j].0 == kwargs[j].0;
    }
    PutNew(attrs, kwargs[i].0, value);
  }

  // ---------------------------------------------------------------------------
  // generate_query

  /** A `+lte`/`+gte` option pair; either bound may be absent. */
  datatype Bounds = Bounds(lte: Option<int>, gte: Option<int>)

  /** The parsed command-line arguments `generate_query` reads. */
  datatype QueryArgs = QueryArgs(
    tstanding: Option<Bounds>,
    tsize: Option<Bounds>,
    tdate: Option<Bounds>,
    tentries: Option<Bounds>,
    color: Option<seq<char>>)

  /** A one-pair dict when the value is present, the empty dict otherwise. */
  function Entry(key: string, value: Option<Value>): Dict<Value>
  {
    if value.Some? then [(key, value.value)] else []
  }

  function IntValue(n: Option<int>): Option<Value>
  {
    if n.Some? then Some(Int(n.value)) else None
  }

  /** The filter dict of one bounds pair: `$lte` first, then `$gte`, each only when given. */
  function BoundsDict(b: Bounds): Dict<Value>
  {
    Entry("$lte", IntValue(b.lte)) + Entry("$gte", IntValue(b.gte))
  }

  function Filter(b: Option<Bounds>): Option<Value>
  {
    if b.Some? then Some(Map(BoundsDict(b.value))) else None
  }

  /** The validated colour letters as a Python list of one-letter strings. */
  function ColorList(colors: seq<char>): Value
  {
    List(seq(|colors|, i requires 0 <= i < |colors| => Str([colors[i]])))
  }

  /** The `tourney_filter` part of the query: the size and date bounds that are given. */
  function TourneyDict(args: QueryArgs): Dict<Value>
  {
    Entry("size", Filter(args.tsize)) + Entry("dateCreated", Filter(args.tdate))
  }

  /** The query `generate_query` builds, written as a concatenation of the optional parts. */
  function QueryDict(args: QueryArgs): Dict<Value>
  {
    Entry("standing", Filter(args.tstanding))
    + Entry("tourney_filter", if args.tsize.Some? || args.tdate.Some? then Some(Map(TourneyDict(args))) else None)
    + Entry("entries", Filter(args.tentries))
    + Entry("colorID", if args.color.Some? then Some(ColorList(args.color.value)) else None)
  }

  /** Every key of d is one of ks. */
  ghost predicate KeysAmong(d: Dict<Value>, ks: set<string>)
  {
    forall i :: 0 <= i < |d| ==> d[i].0 in ks
  }


  /** Appending an optional pair under a key outside ks adds at most that key. */
  lemma KeysEntry(d: Dict<Value>, k: string, v: Option<Value>, ks: set<string>)
    requires KeysAmong(d, ks)
    ensures KeysAmong(d + Entry(k, v), ks + {k})
  {
    var r := d + Entry(k, v);
    forall i | 0 <= i < |r| ensures r[i].0 in ks + {k} {
      if i < |d| {
        assert r[i] == d[i];
      }
    }
  }

  /**
   * Storing an optional value under a key outside ks, which holds every key of
   * d: the Put appends the pair, and no Put leaves d as it is.
   */
  lemma PutEntry(d: Dict<Value>, k: string, v: Option<Value>, ks: set<string>)
    requires KeysAmong(d, ks) && k !in ks
    ensures v.Some? ==> Put(d, k, v.value) == d + Entry(k, v)
    ensures v.None? ==> d + Entry(k, v) == d
    ensures KeysAmong(d + Entry(k, v), ks + {k})
  {
    assert k !in Keys(d);
    if v.Some? {
      PutNew(d, k, v.value);
    } else {
      AppendNil(d);
    }
    KeysEntry(d, k, v, ks);
  }

  /** Appending an optional pair under a fresh key to a Python dict leaves a Python dict. */
  lemma PyDictEntry(d: Dict<Value>, k: string, v: Option<Value>, ks: set<string>)
    requires PyDict(d) && KeysAmong(d, ks) && k !in ks && (v.Some? ==> PyValue(v.value))
    ensures PyDict(d + Entry(k, v)) && KeysAmong(d + Entry(k, v), ks + {k})
  {
    PutEntry(d, k, v, ks);
    var r := d + Entry(k, v);
    forall i, j | 0 <= i < j < |r| ensures r[i].0 != r[j].0 {
      if j < |d| {
        assert r[i] == d[i] && r[j] == d[j];
      } else {
        assert r[i] == d[i];
      }
    }
    forall i | 0 <= i < |r| ensures PyValue(r[i].1) {
      if i < |d| {
        assert r[i] == d[i];
      }
    }
  }

  /** The filter dict of a bounds pair is a Python dict. */
  lemma BoundsPyDict(b: Bounds)
    ensures PyDict(BoundsDict(b))
  {
    var lte := Entry("$lte", IntValue(b.lte));
    PyDictEntry([], "$lte", IntValue(b.lte), {});
    AppendNil(lte);
    PyDictEntry(lte, "$gte", IntValue(b.gte), {} + {"$lte"});
  }

  lemma FilterPyValue(b: Option<Bounds>)
    ensures Filter(b).Some? ==> PyValue(Filter(b).value)
  {
    if b.Some? {
      BoundsPyDict(b.value);
    }
  }

  lemma TourneyPyDict(args: QueryArgs)
    ensures PyDict(TourneyDict(args))
  {
    var size := Entry("size", Filter(args.tsize));
    FilterPyValue(args.tsize);
    FilterPyValue(args.tdate);
    PyDictEntry([], "size", Filter(args.tsize), {});
    AppendNil(size);
    PyDictEntry(size, "dateCreated", Filter(args.tdate), {} + {"size"});
  }

  /** The query `generate_query` builds is a Python dict: unique keys at every level. */
  lemma QueryPyDict(args: QueryArgs)
    ensures PyDict(QueryDict(args))
  {
    var ks: set<string> := {};
    var standing := Entry("standing", Filter(args.tstanding));
    FilterPyValue(args.tstanding);
    PyDictEntry([], "standing", Filter(args.tstanding), ks);
    AppendNil(standing);
    ks := ks + {"standing"};
    var tourney := if args.tsize.Some? || args.tdate.Some? then Some(Map(TourneyDict(args))) else None;
    TourneyPyDict(args);
    PyDictEntry(standing, "tourney_filter", tourney, ks);
    ks := ks + {"tourney_filter"};
    var d2 := standing + Entry("tourney_filter", tourney);
    FilterPyValue(args.tentries);
    PyDictEntry(d2, "entries", Filter(args.tentries), ks);
    ks := ks + {"entries"};
    var d3 := d2 + Entry("entries", Filter(args.tentries));
    PyDictEntry(d3, "colorID", if args.color.Some? then Some(ColorList(args.color.value)) else None, ks);
  }

  lemma PlainEntry(d: Dict<Value>, k: string, v: Option<Value>)
    requires PlainDict(d) && (v.Some? ==> PlainValue(v.value))
    ensures PlainDict(d + Entry(k, v))
  {
    var r := d + Entry(k, v);
    forall i | 0 <= i < |r| ensures PlainValue(r[i].1) {
      if i < |d| {
        assert r[i] == d[i];
      }
    }
  }

  lemma FilterPlain(b: Option<Bounds>)
    ensures Filter(b).Some? ==> PlainValue(Filter(b).value)
  {
    if b.Some? {
      PlainEntry([], "$lte", IntValue(b.value.lte));
      AppendNil(Entry("$lte", IntValue(b.value.lte)));
      PlainEntry(Entry("$lte", IntValue(b.value.lte)), "$gte", IntValue(b.value.gte));
    }
  }

  lemma SelfFreeEntry(d: Dict<Value>, k: string, v: Option<Value>)
    requires SelfFree(d) && k != "self" && (v.Some? ==> SelfFreeValue(v.value))
    ensures SelfFree(d + Entry(k, v))
  {
    var r := d + Entry(k, v);
    forall i | 0 <= i < |r| ensures r[i].0 != "self" && SelfFreeValue(r[i].1) {
      if i < |d| {
        assert r[i] == d[i];
      }
    }
  }

  lemma FilterSelfFree(b: Option<Bounds>)
    ensures Filter(b).Some? ==> SelfFreeValue(Filter(b).value)
  {
    if b.Some? {
      SelfFreeEntry([], "$lte", IntValue(b.value.lte));
      AppendNil(Entry("$lte", IntValue(b.value.lte)));
      SelfFreeEntry(Entry("$lte", IntValue(b.value.lte)), "$gte", IntValue(b.value.gte));
    }
  }

  /** No key of the query `generate_query` builds is `self`, so `JSONObject(**data)` accepts it. */
  lemma QuerySelfFree(args: QueryArgs)
    ensures SelfFree(QueryDict(args))
  {
    var standing := Entry("standing", Filter(args.tstanding));
    FilterSelfFree(args.tstanding);
    SelfFreeEntry([], "standing", Filter(args.tstanding));
    AppendNil(standing);
    FilterSelfFree(args.tsize);
    FilterSelfFree(args.tdate);
    SelfFreeEntry([], "size", Filter(args.tsize));
    AppendNil(Entry("size", Filter(args.tsize)));
    SelfFreeEntry(Entry("size", Filter(args.tsize)), "dateCreated", Filter(args.tdate));
    var tourney := if args.tsize.Some? || args.tdate.Some? then Some(Map(TourneyDict(args))) else None;
    SelfFreeEntry(standing, "tourney_filter", tourney);
    var d2 := standing + Entry("tourney_filter", tourney);
    FilterSelfFree(args.tentries);
    SelfFreeEntry(d2, "entries", Filter(args.tentries));
    var d3 := d2 + Entry("entries", Filter(args.tentries));
    SelfFreeEntry(d3, "colorID", if args.color.Some? then Some(ColorList(args.color.value)) else None);
  }

  /**
   * What `get_entries` posts, `query.json`, is the dict `generate_query`
   * built: the query holds no objects, so unwrapping undoes the wrapping.
   */
  lemma QueryJsonRoundTrip(args: QueryArgs)
    ensures Json(Wrap(QueryDict(args))) == QueryDict(args)
  {
    var standing := Entry("standing", Filter(args.tstanding));
    FilterPlain(args.tstanding);
    PlainEntry([], "standing", Filter(args.tstanding));
    AppendNil(standing);
    FilterPlain(args.tsize);
    FilterPlain(args.tdate);
    PlainEntry([], "size", Filter(args.tsize));
    AppendNil(Entry("size", Filter(args.tsize)));
    PlainEntry(Entry("size", Filter(args.tsize)), "dateCreated", Filter(args.tdate));
    var tourney := if args.tsize.Some? || args.tdate.Some? then Some(Map(TourneyDict(args))) else None;
    PlainEntry(standing, "tourney_filter", tourney);
    var d2 := standing + Entry("tourney_filter", tourney);
    FilterPlain(args.tentries);
    PlainEntry(d2, "entries", Filter(args.tentries));
    var d3 := d2 + Entry("entries", Filter(args.tentries));
    PlainEntry(d3, "colorID", if args.color.Some? then Some(ColorList(args.color.value)) else None);
    JsonWrap(QueryDict(args));
  }

  /** Looking up a dict extended by an optional pair under a fresh key. */
  lemma GetEntry(d: Dict<Value>, k: string, v: Option<Value>, ks: set<string>, k': string)
    requires KeysAmong(d, ks) && k !in ks
    ensures Get(d + Entry(k, v), k') == if k' == k then v else Get(d, k')
  {
    assert k !in Keys(d);
    if v.Some? {
      GetSnoc(d, (k, v.value), k');
    } else {
      AppendNil(d);
      GetNone(d, k);
    }
  }

  /**
   * A filter dict holds `$lte` exactly when the upper bound is given and
   * `$gte` exactly when the lower one is, each with the bound unchanged; it
   * holds nothing else, so no bound at all gives the empty dict.
   */
  lemma {:induction false} BoundsGet(b: Bounds, k: string)
    ensures Get(BoundsDict(b), k) == if k == "$lte" then IntValue(b.lte) else if k == "$gte" then IntValue(b.gte) else None
    ensures BoundsDict(b) == [] <==> b.lte.None? && b.gte.None?
  {
    var lte := Entry("$lte", IntValue(b.lte));
    GetEntry([], "$lte", IntValue(b.lte), {}, k);
    KeysEntry([], "$lte", IntValue(b.lte), {});
    AppendNil(lte);
    GetEntry(lte, "$gte", IntValue(b.gte), {} + {"$lte"}, k);
  }

  /** The `tourney_filter` dict holds `size` and `dateCreated` exactly when those bounds are given. */
  lemma {:induction false} TourneyGet(args: QueryArgs, k: string)
    ensures Get(TourneyDict(args), k) == if k == "size" then Filter(args.tsize) else if k == "dateCreated" then Filter(args.tdate) else None
  {
    var size := Entry("size", Filter(args.tsize));
    GetEntry([], "size", Filter(args.tsize), {}, k);
    KeysEntry([], "size", Filter(args.tsize), {});
    AppendNil(size);
    GetEntry(size, "dateCreated", Filter(args.tdate), {} + {"size"}, k);
  }

  /**
   * The query holds `standing`, `entries` and `colorID` exactly when those
   * arguments are given, and `tourney_filter` exactly when a size or a date
   * bound is; no other key occurs.
   */
  lemma {:induction false} QueryGet(args: QueryArgs, k: string)
    ensures Get(QueryDict(args), k) ==
      if k == "standing" then Filter(args.tstanding)
      else if k == "tourney_filter" then (if args.tsize.Some? || args.tdate.Some? then Some(Map(TourneyDict(args))) else None)
      else if k == "entries" then Filter(args.tentries)
      else if k == "colorID" then (if args.color.Some? then Some(ColorList(args.color.value)) else None)
      else None
  {
    var ks: set<string> := {};
    var standing := Entry("standing", Filter(args.tstanding));
    GetEntry([], "standing", Filter(args.tstanding), ks, k);
    KeysEntry([], "standing", Filter(args.tstanding), ks);
    AppendNil(standing);
    ks := ks + {"standing"};
    var tourney := if args.tsize.Some? || args.tdate.Some? then Some(Map(TourneyDict(args))) else None;
    GetEntry(standing, "tourney_filter", tourney, ks, k);
    KeysEntry(standing, "tourney_filter", tourney, ks);
    ks := ks + {"tourney_filter"};
    var d2 := standing + Entry("tourney_filter", tourney);
    GetEntry(d2, "entries", Filter(args.tentries), ks, k);
    KeysEntry(d2, "entries", Filter(args.tentries), ks);
    ks := ks + {"entries"};
    var d3 := d2 + Entry("entries", Filter(args.tentries));
    GetEntry(d3, "colorID", if args.color.Some? then Some(ColorList(args.color.value)) else None, ks, k);
  }

  /** One `data[...] = {}` block of `generate_query`: a bound is stored only when it is given. */
  method BoundsFilter(b: Bounds) returns (filter: Dict<Value>)
    ensures filter == BoundsDict(b)
  {
    filter := [];
    ghost var ks: set<string> := {};
    PutEntry(filter, "$lte", IntValue(b.lte), ks);
    if b.lte.Some? {
      filter := Put(filter, "$lte", Int(b.lte.value));
    }
    AppendNil(Entry("$lte", IntValue(b.lte)));
    ks := ks + {"$lte"};
    PutEntry(filter, "$gte", IntValue(b.gte), ks);
    if b.gte.Some? {
      filter := Put(filter, "$gte", Int(b.gte.value));
    }
  }

  /**
   * The shape `generate_query` repeats for standing, size, date and entries:
   * when bounds are given, a dict of them is stored under key.
   */
  method AddFilter(data: Dict<Value>, key: string, b: Option<Bounds>, ghost ks: set<string>) returns (data': Dict<Value>)
    requires KeysAmong(data, ks) && key !in ks
    ensures data' == data + Entry(key, Filter(b))
    ensures KeysAmong(data', ks + {key})
  {
    data' := data;
    PutEntry(data, key, Filter(b), ks);
    if b.Some? {
      var filter := BoundsFilter(b.value);
      data' := Put(data', key, Map(filter));
    }
  }

  /** The `tourney_filter` block of `generate_query`, entered when a size or a date bound is given. */
  method TourneyFilter(args: QueryArgs) returns (filter: Dict<Value>)
    ensures filter == TourneyDict(args)
  {
    filter := AddFilter([], "size", args.tsize, {});
    AppendNil(Entry("size", Filter(args.tsize)));
    filter := AddFilter(filter, "dateCreated", args.tdate, {} + {"size"});
  }

  /**
   * `generate_query`. Python creates each sub-dict empty, stores it, and then
   * fills it through the alias; here each sub-dict is filled first and then
   * stored, which leaves the same dict with the same key order.
   */
  method GenerateQuery(args: QueryArgs) returns (query: Value)
    ensures query == Obj(Wrap(QueryDict(args)))
  {
    ghost var ks: set<string> := {};
    var data := AddFilter([], "standing", args.tstanding, ks);
    AppendNil(Entry("standing", Filter(args.tstanding)));
    ks := ks + {"standing"};
    ghost var tourney := if args.tsize.Some? || args.tdate.Some? then Some(Map(TourneyDict(args))) else None;
    PutEntry(data, "tourney_filter", tourney, ks);
    if args.tsize.Some? || args.tdate.Some? {
      var filter := TourneyFilter(args);
      data := Put(data, "tourney_filter", Map(filter));
    }
    ks := ks + {"tourney_filter"};
    data := AddFilter(data, "entries", args.tentries, ks);
    ks := ks + {"entries"};
    ghost var color := if args.color.Some? then Some(ColorList(args.color.value)) else None;
    PutEntry(data, "colorID", color, ks);
    if args.color.Some? {
      data := Put(data, "colorID", ColorList(args.color.value));
    }
    QueryPyDict(args);
    QuerySelfFree(args);
    var made := NewJSONObject(data);
    query := made.value;
  }

  // ---------------------------------------------------------------------------
  // decode_url_query

  /**
   * The two `TypeError`s of `decode_url_query`: a key asks to index into a
   * level that already holds a string rather than a dict (key is the offending
   * query key), or the decoded dict holds a key `self`, which the final
   * `JSONObject(**query)` refuses.
   */
  datatype DecodeError = NotADict(key: string) | SelfArgument

  predicate IsDigit(c: char) {
    '0' <= c <= '9'
  }

  /** `str.isdigit()` restricted to ASCII: non-empty and all decimal digits. */
  predicate IsDigits(s: string) {
    s != [] && forall i :: 0 <= i < |s| ==> IsDigit(s[i])
  }

  /** `int(s)` of a string of decimal digits; leading zeros are allowed. */
  function Decimal(s: string): (n: nat)
    requires forall i :: 0 <= i < |s| ==> IsDigit(s[i])
  {
    if s == [] then 0
    else
      assert IsDigit(s[|s| - 1]);
      10 * Decimal(s[..|s| - 1]) + (s[|s| - 1] as int - '0' as int)
  }

  /** The value stored at the third level: an int when the text is all digits, the text otherwise. */
  function ParseValue(text: string): (v: Value)
    ensures v.Int? <==> IsDigits(text)
    ensures v.Str? <==> !IsDigits(text)
    ensures v.Str? ==> v.s == text
  {
    if IsDigits(text) then Int(Decimal(text)) else Str(text)
  }

  /** The dict under key k of d, or a fresh empty one when d has no key k; `None` when d[k] is not a dict. */
  function Level(d: Dict<Value>, k: string): Option<Dict<Value>>
  {
    match Get(d, k)
    case None => Some([])
    case Some(v) => if v.Map? then Some(v.entries) else None
  }

  /**
   * `d[k0][k1] = v` after creating `d[k0]` as an empty dict when d has no key
   * k0; `None` when `d[k0]` is not a dict.
   */
  function SetIn(d: Dict<Value>, k0: string, k1: string, v: Value): Option<Dict<Value>>
  {
    match Level(d, k0)
    case None => None
    case Some(outer) => Some(Put(d, k0, Map(Put(outer, k1, v))))
  }

  /**
   * One pass of the loop of `decode_url_query`: the key is split on `__`; one
   * segment stores the text, two store it one level down, three store the
   * parsed value two levels down, creating the levels that are missing; four
   * or more leave the query as it is.
   */
  function DecodeStep(query: Dict<Value>, key: string, text: string): Result<Dict<Value>, DecodeError>
  {
    var parts := Split(key, "__");
    if |parts| == 1 then Success(Put(query, parts[0], Str(text)))
    else if |parts| == 2 then
      match SetIn(query, parts[0], parts[1], Str(text))
      case None => Failure(NotADict(key))
      case Some(q) => Success(q)
    else if |parts| == 3 then
      match Level(query, parts[0])
      case None => Failure(NotADict(key))
      case Some(outer) =>
        match SetIn(outer, parts[1], parts[2], ParseValue(text))
        case None => Failure(NotADict(key))
        case Some(outer') => Success(Put(query, parts[0], Map(outer')))
    else Success(query)
  }

  /** The decoded pairs folded from the left; the first error stops the fold. */
  function Decode(pairs: seq<(string, seq<string>)>): Result<Dict<Value>, DecodeError>
    requires forall i :: 0 <= i < |pairs| ==> pairs[i].1 != []
  {
    if pairs == [] then Success([])
    else
      var last := pairs[|pairs| - 1];
      match Decode(pairs[..|pairs| - 1])
      case Failure(e) => Failure(e)
      case Success(query) => DecodeStep(query, last.0, last.1[0])
  }

  /** Once a prefix of the pairs fails, the whole decoding fails with the same error. */
  lemma {:induction false} DecodeFailed(pairs: seq<(string, seq<string>)>, n: nat)
    requires forall i :: 0 <= i < |pairs| ==> pairs[i].1 != []
    requires n <= |pairs| && Decode(pairs[..n]).Failure?
    ensures Decode(pairs) == Decode(pairs[..n])
    decreases |pairs| - n
  {
    if n < |pairs| {
      assert pairs[..n + 1][..n] == pairs[..n];
      DecodeFailed(pairs, n + 1);
    } else {
      assert pairs[..n] == pairs;
    }
  }

  /** `if k0 not in d: d[k0] = {}` followed by `d[k0][k1] = v`. */
  method StoreIn(d: Dict<Value>, k0: string, k1: string, v: Value) returns (r: Option<Dict<Value>>)
    ensures r == SetIn(d, k0, k1, v)
  {
    var q := d;
    GetNone(q, k0);
    if k0 !in Keys(q) {
      q := Put(q, k0, Map([]));
    }
    var outer := Get(q, k0).value;
    if !outer.Map? {
      return None;
    }
    var stored := Map(Put(outer.entries, k1, v));
    PutPut(d, k0, Map([]), stored);
    r := Some(Put(q, k0, stored));
  }

  /** The body of the loop of `decode_url_query`, for one key and its first value. */
  method DecodePair(query: Dict<Value>, key: string, text: string) returns (r: Result<Dict<Value>, DecodeError>)
    ensures r == DecodeStep(query, key, text)
  {
    var parts := Split(key, "__");
    if |parts| == 1 {
      r := Success(Put(query, parts[0], Str(text)));
    } else if |parts| == 2 {
      var stored := StoreIn(query, parts[0], parts[1], Str(text));
      if stored.None? {
        return Failure(NotADict(key));
      }
      r := Success(stored.value);
    } else if |parts| == 3 {
      var q := query;
      GetNone(q, parts[0]);
      if parts[0] !in Keys(q) {
        q := Put(q, parts[0], Map([]));
      }
      var outer := Get(q, parts[0]).value;
      if !outer.Map? {
        return Failure(NotADict(key));
      }
      var stored := StoreIn(outer.entries, parts[1], parts[2], ParseValue(text));
      if stored.None? {
        return Failure(NotADict(key));
      }
      PutPut(query, parts[0], Map([]), Map(stored.value));
      r := Success(Put(q, parts[0], Map(stored.value)));
    } else {
      r := Success(query);
    }
  }

  /** `d[k] = v` keeps a Python dict a Python dict when v is a Python value. */
  lemma PutPyDict(d: Dict<Value>, k: string, v: Value)
    requires PyDict(d) && PyValue(v)
    ensures PyDict(Put(d, k, v))
  {
    PutUnique(d, k, v);
    PutPairs(d, k, v);
    var r := Put(d, k, v);
    forall i | 0 <= i < |r| ensures PyValue(r[i].1) {
      assert r[i] in r;
      if r[i] != (k, v) {
        var j :| 0 <= j < |d| && d[j] == r[i];
        assert PyValue(d[j].1);
      }
    }
  }

  /** The level found or created under a key of a Python dict is a Python dict. */
  lemma LevelPyDict(d: Dict<Value>, k: string)
    requires PyDict(d) && Level(d, k).Some?
    ensures PyDict(Level(d, k).value)
  {
    if Get(d, k).Some? {
      var j :| 0 <= j < |d| && d[j] == (k, Get(d, k).value);
      assert PyValue(d[j].1);
    }
  }

  lemma SetInPyDict(d: Dict<Value>, k0: string, k1: string, v: Value)
    requires PyDict(d) && PyValue(v)
    ensures SetIn(d, k0, k1, v).Some? ==> PyDict(SetIn(d, k0, k1, v).value)
  {
    if Level(d, k0).Some? {
      var outer := Level(d, k0).value;
      LevelPyDict(d, k0);
      PutPyDict(outer, k1, v);
      PutPyDict(d, k0, Map(Put(outer, k1, v)));
    }
  }

  /** Each pass of the loop keeps the query a Python dict. */
  lemma DecodeStepPyDict(query: Dict<Value>, key: string, text: string)
    requires PyDict(query)
    ensures DecodeStep(query, key, text).Success? ==> PyDict(DecodeStep(query, key, text).value)
  {
    var parts := Split(key, "__");
    if |parts| == 1 {
      PutPyDict(query, parts[0], Str(text));
    } else if |parts| == 2 {
      SetInPyDict(query, parts[0], parts[1], Str(text));
    } else if |parts| == 3 && Level(query, parts[0]).Some? {
      var outer := Level(query, parts[0]).value;
      LevelPyDict(query, parts[0]);
      SetInPyDict(outer, parts[1], parts[2], ParseValue(text));
      if SetIn(outer, parts[1], parts[2], ParseValue(text)).Some? {
        PutPyDict(query, parts[0], Map(SetIn(outer, parts[1], parts[2], ParseValue(text)).value));
      }
    }
  }

  /**
   * A pass fails exactly when its key has two or three segments and the first
   * level already holds something other than a dict, or it has three and the
   * second level does.
   */
  lemma DecodeStepFails(query: Dict<Value>, key: string, text: string)
    ensures var parts := Split(key, "__");
      DecodeStep(query, key, text).Failure? <==>
        ((|parts| == 2 || |parts| == 3) && Get(query, parts[0]).Some? && !Get(query, parts[0]).value.Map?)
        || (|parts| == 3 && Get(query, parts[0]).Some? && Get(query, parts[0]).value.Map?
            && Get(Get(query, parts[0]).value.entries, parts[1]).Some?
            && !Get(Get(query, parts[0]).value.entries, parts[1]).value.Map?)
  {
  }

  /**
   * A pass that succeeds stores the text under a one-segment key, the text one
   * level down under a two-segment key, and the parsed value two levels down
   * under a three-segment key.
   */
  lemma DecodeStepStores(query: Dict<Value>, key: string, text: string)
    ensures var parts := Split(key, "__"); var r := DecodeStep(query, key, text);
      r.Success? ==>
        (|parts| == 1 ==> Get(r.value, parts[0]) == Some(Str(text)))
        && (|parts| == 2 ==> exists m :: Get(r.value, parts[0]) == Some(Map(m)) && Get(m, parts[1]) == Some(Str(text)))
        && (|parts| == 3 ==>
              exists m, n :: Get(r.value, parts[0]) == Some(Map(m))
                && Get(m, parts[1]) == Some(Map(n)) && Get(n, parts[2]) == Some(ParseValue(text)))
  {
    var parts := Split(key, "__");
    var r := DecodeStep(query, key, text);
    if r.Success? && |parts| == 3 {
      var outer := Level(query, parts[0]).value;
      var inner := Level(outer, parts[1]).value;
      var n := Put(inner, parts[2], ParseValue(text));
      var m := Put(outer, parts[1], Map(n));
      assert Get(r.value, parts[0]) == Some(Map(m));
    }
  }

  /**
   * A pass changes at most the entry under the first segment of its key, and a
   * key of four or more segments changes nothing.
   */
  lemma DecodeStepFrame(query: Dict<Value>, key: string, text: string, k: string)
    ensures var parts := Split(key, "__"); var r := DecodeStep(query, key, text);
      (|parts| >= 4 ==> r == Success(query))
      && (r.Success? && k != parts[0] ==> Get(r.value, k) == Get(query, k))
  {
  }

  /** No `__` starts inside a and a does not end in `_`, so `a + "__"` holds only the one separator. */
  predicate SegmentFree(a: string) {
    (forall i :: 0 <= i < |a| - 1 ==> !(a[i] == '_' && a[i + 1] == '_'))
    && (a != [] ==> a[|a| - 1] != '_')
  }

  /** A segment without `__` followed by `__` is split off as the first segment. */
  lemma SplitSegment(a: string, rest: string)
    requires SegmentFree(a)
    ensures Split(a + "__" + rest, "__") == [a] + Split(rest, "__")
  {
    forall i | 0 <= i < |a| ensures !OccursAt(a + "__", "__", i) {
      var s := a + "__";
      if i < |a| - 1 {
        assert s[i] == a[i] && s[i + 1] == a[i + 1];
      } else {
        assert s[i] == a[|a| - 1];
      }
      assert s[i..i + 2][0] == s[i] && s[i..i + 2][1] == s[i + 1];
    }
    SplitFirst(a, "__", rest);
  }

  /**
   * A lone two-segment key `a__b` decodes to `{a: {b: text}}` with the text
   * kept a string, digits or not (`standing__$lte=16` keeps "16"); of the
   * values given for the key only the first counts.
   */
  lemma DecodeTwoLevels(a: string, b: string, texts: seq<string>)
    requires SegmentFree(a) && texts != []
    requires forall i :: 0 <= i < |b| ==> b[i] != '_'
    ensures Decode([(a + "__" + b, texts)]) == Success([(a, Map([(b, Str(texts[0]))]))])
  {
    SplitNone(b, "__");
    SplitSegment(a, b);
    var pairs := [(a + "__" + b, texts)];
    assert pairs[..0] == [];
  }

  /**
   * A lone three-segment key `a__b__c` decodes to `{a: {b: {c: v}}}`, where v
   * is the number when the text is all digits and the text otherwise.
   */
  lemma DecodeThreeLevels(a: string, b: string, c: string, texts: seq<string>)
    requires SegmentFree(a) && SegmentFree(b) && texts != []
    requires forall i :: 0 <= i < |c| ==> c[i] != '_'
    ensures Decode([(a + "__" + b + "__" + c, texts)])
      == Success([(a, Map([(b, Map([(c, ParseValue(texts[0]))]))]))])
  {
    SplitNone(c, "__");
    SplitSegment(b, c);
    assert a + "__" + b + "__" + c == a + "__" + (b + "__" + c);
    SplitSegment(a, b + "__" + c);
    var pairs := [(a + "__" + b + "__" + c, texts)];
    assert pairs[..0] == [];
  }

  /** `int(v) if v.isdigit() else v`: "64" and "007" become numbers, "16a" and "" stay text. */
  lemma ParseValueExamples()
    ensures ParseValue("64") == Int(64) && ParseValue("007") == Int(7)
    ensures ParseValue("16a") == Str("16a") && ParseValue("") == Str("")
  {
    assert "64"[..1] == "6" && "6"[..0] == [];
    assert "007"[..2] == "00" && "00"[..1] == "0" && "0"[..0] == [];
    assert !IsDigit("16a"[2]);
  }

  /** `decode_url_query` on the decoded (key, values) pairs of the URL's query string. */
  method DecodeUrlQuery(pairs: seq<(string, seq<string>)>) returns (r: Result<Value, DecodeError>)
    requires forall i :: 0 <= i < |pairs| ==> pairs[i].1 != []
    ensures Decode(pairs).Failure? ==> r == Failure(Decode(pairs).error)
    ensures Decode(pairs).Success? && !SelfFree(Decode(pairs).value) ==> r == Failure(SelfArgument)
    ensures Decode(pairs).Success? && SelfFree(Decode(pairs).value) ==> r == Success(Obj(Wrap(Decode(pairs).value)))
  {
    var query: Dict<Value> := [];
    for i := 0 to |pairs|
      invariant Decode(pairs[..i]) == Success(query) && PyDict(query)
    {
      var step := DecodePair(query, pairs[i].0, pairs[i].1[0]);
      assert pairs[..i + 1][..i] == pairs[..i];
      if step.Failure? {
        DecodeFailed(pairs, i + 1);
        return Failure(step.error);
      }
      DecodeStepPyDict(query, pairs[i].0, pairs[i].1[0]);
      query := step.value;
    }
    assert pairs[..|pairs|] == pairs;
    var obj := NewJSONObject(query);
    if obj.Failure? {
      return Failure(SelfArgument);
    }
    r := Success(obj.value);
  }

  /**
   * `?self=...` decodes without error, but to a dict that `JSONObject(**query)`
   * refuses, so `decode_url_query` raises on it.
   */
  lemma DecodeSelfKey(texts: seq<string>)
    requires texts != []
    ensures Decode([("self", texts)]) == Success([("self", Str(texts[0]))])
    ensures !SelfFree(Decode([("self", texts)]).value)
  {
    SplitNone("self", "__");
    var pairs := [("self", texts)];
    assert pairs[..0] == [];
  }

  /** So does `?a__self=...`: the nested dict `{self: ...}` is refused in turn. */
  lemma DecodeNestedSelfKey(a: string, texts: seq<string>)
    requires SegmentFree(a) && texts != []
    ensures Decode([(a + "__self", texts)]) == Success([(a, Map([("self", Str(texts[0]))]))])
    ensures !SelfFree(Decode([(a + "__self", texts)]).value)
  {
    DecodeTwoLevels(a, "self", texts);
    assert a + "__self" == a + "__" + "self";
    assert !SelfFreeValue(Map([("self", Str(texts[0]))]));
  }
}
