/** The options of a search: the defaults, how the caller's options are
    merged over them, the three validity checks, the field keyword prefix
    and the request parameters built from the merged options. */
module SearchOptions {
  import opened Js

  /** The option names the client knows. */
  const OptionNames: set<string> := {"key", "field", "offset", "limit", "type", "order", "lang"}

  /** A complete set of options, as held by the defaults object.
      `key` and `field` hold `null` when `None`; `printType` is the option
      the client calls `type`. */
  datatype Options = Options(
    key: Option<string>,
    field: Option<string>,
    offset: int,
    limit: int,
    printType: string,
    order: string,
    lang: string)

  /** The defaults the client starts with. */
  function InitialDefaults(): Options
  {
    Options(None, None, 0, 10, "all", "relevance", "en")
  }

  /** The options a caller passes: each property may be absent (`None`).
      `key` and `field` may also be passed as an explicit `null`
      (`Some(None)`). A `null` or absent options argument is `NoOverrides`. */
  datatype Overrides = Overrides(
    key: Option<Option<string>>,
    field: Option<Option<string>>,
    offset: Option<int>,
    limit: Option<int>,
    printType: Option<string>,
    order: Option<string>,
    lang: Option<string>)

  const NoOverrides := Overrides(None, None, None, None, None, None, None)

  /** `options[name]`: the property of a complete options object. */
  function Get(o: Options, name: string): (v: Option<Value>)
    ensures v.Some? <==> name in OptionNames
  {
    match name
    case "key" => Some(OrNull(o.key))
    case "field" => Some(OrNull(o.field))
    case "offset" => Some(Num(o.offset))
    case "limit" => Some(Num(o.limit))
    case "type" => Some(Str(o.printType))
    case "order" => Some(Str(o.order))
    case "lang" => Some(Str(o.lang))
    case _ => None
  }

  /** `options[name]` of the caller's options; `None` when not passed. */
  function Passed(ov: Overrides, name: string): Option<Value>
  {
    match name
    case "key" => if ov.key.Some? then Some(OrNull(ov.key.value)) else None
    case "field" => if ov.field.Some? then Some(OrNull(ov.field.value)) else None
    case "offset" => OfNumber(ov.offset)
    case "limit" => OfNumber(ov.limit)
    case "type" => OfString(ov.printType)
    case "order" => OfString(ov.order)
    case "lang" => OfString(ov.lang)
    case _ => None
  }

  /** Shallow `extend(target, source)`: every property the caller passed
      overwrites the target's, every other property keeps its value. */
  function Extend(target: Options, source: Overrides): (merged: Options)
    ensures forall name ::
      Get(merged, name) == (if Passed(source, name).Some? then Passed(source, name) else Get(target, name))
  {
    Options(
      if source.key.Some? then source.key.value else target.key,
      if source.field.Some? then source.field.value else target.field,
      if source.offset.Some? then source.offset.value else target.offset,
      if source.limit.Some? then source.limit.value else target.limit,
      if source.printType.Some? then source.printType.value else target.printType,
      if source.order.Some? then source.order.value else target.order,
      if source.lang.Some? then source.lang.value else target.lang)
  }

  /** The defaults after a sequence of searches, each of which extends the
      shared defaults with its caller's options. */
  function DefaultsAfter(initial: Options, calls: seq<Overrides>): Options
  {
    if calls == [] then initial
    else Extend(DefaultsAfter(initial, calls[..|calls| - 1]), calls[|calls| - 1])
  }

  /** The value most recently passed for `name` in a sequence of calls. */
  function LastPassed(calls: seq<Overrides>, name: string): Option<Value>
  {
    if calls == [] then None
    else if Passed(calls[|calls| - 1], name).Some? then Passed(calls[|calls| - 1], name)
    else LastPassed(calls[..|calls| - 1], name)
  }

  /** Options leak between searches: after any sequence of calls, each option
      holds the value last passed for it by any caller, and its initial
      default only if no caller ever passed it. */
  lemma {:induction false} DefaultsAfterLeak(initial: Options, calls: seq<Overrides>, name: string)
    ensures Get(DefaultsAfter(initial, calls), name)
         == (if LastPassed(calls, name).Some? then LastPassed(calls, name) else Get(initial, name))
  {
    if calls != [] {
      DefaultsAfterLeak(initial, calls[..|calls| - 1], name);
    }
  }

  // Validation

  /** The three checks run on the merged options, in source order. */
  datatype Check = QueryCheck | OffsetCheck | LimitCheck

  /** Whether a check fails: a falsy query, a negative offset, a limit
      outside 1..40. */
  predicate Fails(c: Check, query: string, o: Options)
  {
    match c
    case QueryCheck => query == ""
    case OffsetCheck => o.offset < 0
    case LimitCheck => o.limit < 1 || o.limit > 40
  }

  /** A well-formed search: non-empty query, offset at least 0, limit in 1..40. */
  predicate Valid(query: string, o: Options)
  {
    query != "" && 0 <= o.offset && 1 <= o.limit <= 40
  }

  /** The failing checks, each once, in the order the client runs them;
      each of them makes the client call back with `null`. */
  function Rejections(query: string, o: Options): (r: seq<Check>)
    ensures forall c :: c in r <==> Fails(c, query, o)
    ensures r == [] <==> Valid(query, o)
    ensures forall i, j :: 0 <= i < j < |r| ==> Rank(r[i]) < Rank(r[j])
  {
    (if query == "" then [QueryCheck] else [])
    + (if o.offset < 0 then [OffsetCheck] else [])
    + (if o.limit < 1 || o.limit > 40 then [LimitCheck] else [])
  }

  /** Source position of a check. */
  function Rank(c: Check): nat
  {
    match c
    case QueryCheck => 0
    case OffsetCheck => 1
    case LimitCheck => 2
  }

  // Field keywords

  /** The field names with a keyword prefix. */
  const Keywords: set<string> := {"title", "author", "publisher", "subject", "isbn"}

  /** `fields[name]`: the prefix scoping a query to one field, absent for a
      name outside the table. */
  function KeywordPrefix(name: string): (p: Option<string>)
    ensures p.Some? <==> name in Keywords
    ensures p.Some? ==> |p.value| > 0 && p.value[|p.value| - 1] == ':'
  {
    match name
    case "title" => Some("intitle:")
    case "author" => Some("inauthor:")
    case "publisher" => Some("inpublisher:")
    case "subject" => Some("subject:")
    case "isbn" => Some("isbn:")
    case _ => None
  }

  /** `fields[name] + query`: an absent prefix converts to the string
      "undefined" under JavaScript's `+`. */
  function Prefixed(name: string, query: string): (q: string)
    ensures name in Keywords ==> q == KeywordPrefix(name).value + query
    ensures name !in Keywords ==> q == "undefined" + query
    ensures q[|q| - |query|..] == query
  {
    match KeywordPrefix(name)
    case Some(p) => p + query
    case None => "undefined" + query
  }

  /** The `q` parameter a search sends. */
  function QueryText(query: string, field: Option<string>): string
  {
    if IsTruthy(OfString(field)) then Prefixed(field.value, query) else query
  }

  /** The field keyword is prepended with no separator; without a field the
      query is sent as given. */
  lemma QueryTextPrefix(query: string, field: Option<string>)
    ensures field.Some? && field.value in Keywords ==>
      QueryText(query, field) == KeywordPrefix(field.value).value + query
    ensures field == None || field == Some("") ==> QueryText(query, field) == query
    ensures field.Some? && field.value != "" && field.value !in Keywords ==>
      QueryText(query, field) == "undefined" + query
  {
  }

  /** The example of a search by author. */
  lemma AuthorExample()
    ensures QueryText("Tolkien", Some("author")) == "inauthor:Tolkien"
  {
  }

  // Request parameters

  /** A request parameter: its name and value. */
  type Param = (string, Value)

  /** `params[name]`: the first parameter with that name. */
  function Lookup(params: seq<Param>, name: string): Option<Value>
  {
    if params == [] then None
    else if params[0].0 == name then Some(params[0].1)
    else Lookup(params[1..], name)
  }

  /** Whether an API key is sent: only when the merged `key` is truthy. */
  predicate KeyGiven(o: Options)
  {
    Truthy(OrNull(o.key))
  }

  /** What each request parameter must hold, by name, for query text `q`
      and merged options `o`: every parameter but `key` always, `key` only
      when given, nothing else. */
  function Expected(name: string, q: string, o: Options): Option<Value>
  {
    match name
    case "q" => Some(Str(q))
    case "startIndex" => Some(Num(o.offset))
    case "maxResults" => Some(Num(o.limit))
    case "printType" => Some(Str(o.printType))
    case "orderBy" => Some(Str(o.order))
    case "langRestrict" => Some(Str(o.lang))
    case "key" => if KeyGiven(o) then Some(OrNull(o.key)) else None
    case _ => None
  }

  /** The request parameters for query text `q`: the six named ones and
      `key` when given, each name once, with the values `Expected` gives.
      The order of the parameters is left open. */
  ghost predicate IsRequest(params: seq<Param>, q: string, o: Options)
  {
    && |params| == (if KeyGiven(o) then 7 else 6)
    && (forall i, j :: 0 <= i < j < |params| ==> params[i].0 != params[j].0)
    && forall name :: Lookup(params, name) == Expected(name, q, o)
  }

  /** The parameter object literal, before the optional key. */
  function BaseParams(q: string, o: Options): seq<Param>
  {
    [("q", Str(q)),
     ("startIndex", Num(o.offset)),
     ("maxResults", Num(o.limit)),
     ("printType", Str(o.printType)),
     ("orderBy", Str(o.order)),
     ("langRestrict", Str(o.lang))]
  }

  /** Builds the request parameters: prepends the field keyword when a field
      is set, then adds `key` when one is given. */
  method BuildRequest(query: string, o: Options) returns (params: seq<Param>)
    ensures IsRequest(params, QueryText(query, o.field), o)
  {
    var q := query;
    if IsTruthy(OfString(o.field)) {
      q := Prefixed(o.field.value, q);
    }
    params := BaseParams(q, o);
    if KeyGiven(o) {
      params := params + [("key", OrNull(o.key))];
    }
    BaseParamsLookup(q, o, params);
  }

  /** Lookup in the built parameters agrees with `Expected`. */
  lemma BaseParamsLookup(q: string, o: Options, params: seq<Param>)
    requires params == BaseParams(q, o) + (if KeyGiven(o) then [("key", OrNull(o.key))] else [])
    ensures forall name :: Lookup(params, name) == Expected(name, q, o)
  {
    forall name ensures Lookup(params, name) == Expected(name, q, o) {
      LookupStep(params, name);
      LookupStep(params[1..], name);
      LookupStep(params[2..], name);
      LookupStep(params[3..], name);
      LookupStep(params[4..], name);
      LookupStep(params[5..], name);
      var tail := params[6..];
      assert tail == (if KeyGiven(o) then [("key", OrNull(o.key))] else []);
      if KeyGiven(o) {
        LookupStep(tail, name);
        assert tail[1..] == [];
      }
    }
  }

  /** One step of `Lookup` down a non-empty parameter list. */
  lemma LookupStep(params: seq<Param>, name: string)
    requires params != []
    ensures Lookup(params, name) == (if params[0].0 == name then Some(params[0].1) else Lookup(params[1..], name))
  {
  }
}
