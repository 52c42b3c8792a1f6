/** The generated client-side mapping of a query record: `QueryModelFromJSON`
    turns the snake_case wire object into the camelCase client object,
    replacing a null or absent optional field by `undefined`, and
    `QueryModelToJSON` goes back. JavaScript values are modelled as a
    datatype; the `Source` converters are parameters. */
module QueryModelJson {

  /** A JavaScript value as these converters see it (numbers as integers). */
  datatype JsValue =
    | Undefined
    | Null
    | Bool(b: bool)
    | Num(n: int)
    | Str(s: string)
    | Arr(elems: seq<JsValue>)
    | Obj(fields: map<string, JsValue>)

  /** The client-side `QueryModel` interface: its eight properties, an
      absent one read as `undefined`. */
  datatype ClientQuery = ClientQuery(
    queryId: JsValue,
    userId: JsValue,
    createdAt: JsValue,
    ttl: JsValue,
    queryText: JsValue,
    answerText: JsValue,
    sources: JsValue,
    isComplete: JsValue)

  /** What the converters take and give on the client side: a model object,
      or the `null` / `undefined` they pass through. */
  datatype ClientValue = Nullish(v: NullishValue) | Model(q: ClientQuery)

  /** `null` or `undefined`, the only values a converter passes through. */
  type NullishValue = v: JsValue | IsNullish(v) witness Undefined

  /** A converter either returns a value or throws a `TypeError` (calling
      `.map` on something that is not an array). */
  datatype Result<T> = Ok(value: T) | TypeError

  /** `v == null`: loose equality holds for `null` and `undefined` alike. */
  predicate IsNullish(v: JsValue)
  {
    v.Undefined? || v.Null?
  }

  /** `v[key]`: an own property of an object, `undefined` otherwise. */
  function Get(v: JsValue, key: string): JsValue
  {
    if v.Obj? && key in v.fields then v.fields[key] else Undefined
  }

  /** `v == null ? undefined : v`. */
  function NullishToUndefined(v: JsValue): (r: JsValue)
    ensures !r.Null?
    ensures IsNullish(v) <==> r.Undefined?
    ensures !IsNullish(v) ==> r == v
  {
    if IsNullish(v) then Undefined else v
  }

  /** `Array.prototype.map` with a one-argument callback. */
  function MapJs(xs: seq<JsValue>, f: JsValue -> JsValue): (ys: seq<JsValue>)
    ensures |ys| == |xs|
    ensures forall k :: 0 <= k < |xs| ==> ys[k] == f(xs[k])
  {
    if xs == [] then [] else MapJs(xs[..|xs| - 1], f) + [f(xs[|xs| - 1])]
  }

  /** Mapping with a converter and then with its inverse gives the array back. */
  lemma MapJsInverse(xs: seq<JsValue>, f: JsValue -> JsValue, g: JsValue -> JsValue)
    requires forall k :: 0 <= k < |xs| ==> g(f(xs[k])) == xs[k]
    ensures MapJs(MapJs(xs, f), g) == xs
  {
    var mid := MapJs(xs, f);
    var ys := MapJs(mid, g);
    assert |ys| == |xs|;
    forall k | 0 <= k < |xs|
      ensures ys[k] == xs[k]
    {
      assert mid[k] == f(xs[k]);
      assert ys[k] == g(mid[k]);
    }
  }

  /** `v == null ? undefined : (v as Array<any>).map(f)`: an array keeps its
      length and order; anything else that is not nullish throws. */
  function MapSources(v: JsValue, f: JsValue -> JsValue): (r: Result<JsValue>)
    ensures IsNullish(v) ==> r == Ok(Undefined)
    ensures v.Arr? ==>
      && r.Ok? && r.value.Arr? && |r.value.elems| == |v.elems|
      && (forall k :: 0 <= k < |v.elems| ==> r.value.elems[k] == f(v.elems[k]))
    ensures r.TypeError? <==> !IsNullish(v) && !v.Arr?
  {
    if IsNullish(v) then Ok(Undefined)
    else if v.Arr? then Ok(Arr(MapJs(v.elems, f)))
    else TypeError
  }

  /** `instanceOfQueryModel`: false exactly when `queryText` is absent or
      `undefined` (a `null` one passes). */
  function InstanceOfQueryModel(value: ClientQuery): (r: bool)
    ensures r <==> !value.queryText.Undefined?
    ensures value.queryText.Null? ==> r
  {
    if value.queryText == Undefined then false else true
  }

  /** `QueryModelFromJSONTyped`. `ignoreDiscriminator` is not read. */
  function QueryModelFromJSONTyped(json: JsValue, ignoreDiscriminator: bool, sourceFromJSON: JsValue -> JsValue)
    : (r: Result<ClientValue>)
    ensures IsNullish(json) ==> r == Ok(Nullish(json))
    ensures !IsNullish(json) ==> (r.TypeError? || r.value.Model?)
    ensures r.TypeError? <==> !IsNullish(json) && !IsNullish(Get(json, "sources")) && !Get(json, "sources").Arr?
  {
    if IsNullish(json) then Ok(Nullish(json))
    else
      match MapSources(Get(json, "sources"), sourceFromJSON)
      case TypeError => TypeError
      case Ok(sources) =>
        Ok(Model(ClientQuery(
          queryId := NullishToUndefined(Get(json, "query_id")),
          userId := NullishToUndefined(Get(json, "user_id")),
          createdAt := NullishToUndefined(Get(json, "created_at")),
          ttl := NullishToUndefined(Get(json, "ttl")),
          queryText := Get(json, "query_text"),
          answerText := NullishToUndefined(Get(json, "answer_text")),
          sources := sources,
          isComplete := NullishToUndefined(Get(json, "is_complete")))))
  }

  /** `QueryModelFromJSON`: the typed converter with `ignoreDiscriminator = false`.
      The flag is not read, so either value gives the same result. */
  function QueryModelFromJSON(json: JsValue, sourceFromJSON: JsValue -> JsValue): (r: Result<ClientValue>)
    ensures forall flag :: r == QueryModelFromJSONTyped(json, flag, sourceFromJSON)
    ensures IsNullish(json) ==> r == Ok(Nullish(json))
  {
    QueryModelFromJSONTyped(json, false, sourceFromJSON)
  }

  /** The object literal `QueryModelToJSONTyped` builds, with its sources
      already mapped. */
  function WireObject(value: ClientQuery, sources: JsValue): JsValue
  {
    Obj(map[
      "query_id" := value.queryId,
      "user_id" := value.userId,
      "created_at" := value.createdAt,
      "ttl" := value.ttl,
      "query_text" := value.queryText,
      "answer_text" := value.answerText,
      "sources" := sources,
      "is_complete" := value.isComplete])
  }

  /** Reading the wire object's eight keys gives the client fields back, as
      they are. */
  lemma WireObjectFields(value: ClientQuery, sources: JsValue)
    ensures var w := WireObject(value, sources);
      && w.Obj? && w.fields.Keys
         == {"query_id", "user_id", "created_at", "ttl", "query_text", "answer_text", "sources", "is_complete"}
      && Get(w, "query_id") == value.queryId && Get(w, "user_id") == value.userId
      && Get(w, "created_at") == value.createdAt && Get(w, "ttl") == value.ttl
      && Get(w, "query_text") == value.queryText && Get(w, "answer_text") == value.answerText
      && Get(w, "sources") == sources && Get(w, "is_complete") == value.isComplete
  {
  }

  /** `QueryModelToJSONTyped`. Scalars are copied as they are: a `null`
      stays `null` and an `undefined` stays `undefined`. */
  function QueryModelToJSONTyped(value: ClientValue, ignoreDiscriminator: bool, sourceToJSON: JsValue -> JsValue)
    : (r: Result<JsValue>)
    ensures value.Nullish? ==> r.Ok? && r.value == value.v
    ensures value.Model? && r.Ok? ==> r.value.Obj?
    ensures r.TypeError? <==> value.Model? && !IsNullish(value.q.sources) && !value.q.sources.Arr?
  {
    match value
    case Nullish(v) => Ok(v)
    case Model(q) =>
      match MapSources(q.sources, sourceToJSON)
      case TypeError => TypeError
      case Ok(sources) => Ok(WireObject(q, sources))
  }

  /** `QueryModelToJSON`: the typed converter with `ignoreDiscriminator = false`.
      The flag is not read, so either value gives the same result. */
  function QueryModelToJSON(value: ClientValue, sourceToJSON: JsValue -> JsValue): (r: Result<JsValue>)
    ensures forall flag :: r == QueryModelToJSONTyped(value, flag, sourceToJSON)
    ensures value.Nullish? ==> r.Ok? && r.value == value.v
  {
    QueryModelToJSONTyped(value, false, sourceToJSON)
  }

  // ---------------------------------------------------------------------
  // Properties

  /** Each optional wire field that is `null` or `undefined` becomes
      `undefined`, any other value is copied; `queryText` is copied as it
      is, `null` included. */
  lemma FromJSONNormalisesNulls(json: JsValue, sourceFromJSON: JsValue -> JsValue)
    requires QueryModelFromJSON(json, sourceFromJSON).Ok? && !IsNullish(json)
    ensures var q := QueryModelFromJSON(json, sourceFromJSON).value.q;
      && (IsNullish(Get(json, "query_id")) ==> q.queryId == Undefined)
      && (!IsNullish(Get(json, "query_id")) ==> q.queryId == Get(json, "query_id"))
      && (IsNullish(Get(json, "user_id")) ==> q.userId == Undefined)
      && (!IsNullish(Get(json, "user_id")) ==> q.userId == Get(json, "user_id"))
      && (IsNullish(Get(json, "created_at")) ==> q.createdAt == Undefined)
      && (!IsNullish(Get(json, "created_at")) ==> q.createdAt == Get(json, "created_at"))
      && (IsNullish(Get(json, "ttl")) ==> q.ttl == Undefined)
      && (!IsNullish(Get(json, "ttl")) ==> q.ttl == Get(json, "ttl"))
      && (IsNullish(Get(json, "answer_text")) ==> q.answerText == Undefined)
      && (!IsNullish(Get(json, "answer_text")) ==> q.answerText == Get(json, "answer_text"))
      && (IsNullish(Get(json, "is_complete")) ==> q.isComplete == Undefined)
      && (!IsNullish(Get(json, "is_complete")) ==> q.isComplete == Get(json, "is_complete"))
      && (IsNullish(Get(json, "sources")) ==> q.sources == Undefined)
      && q.queryText == Get(json, "query_text")
  {
  }

  /** After conversion no field but `queryText` holds `null`. */
  lemma FromJSONHasNoNulls(json: JsValue, sourceFromJSON: JsValue -> JsValue)
    requires QueryModelFromJSON(json, sourceFromJSON).Ok? && !IsNullish(json)
    ensures var q := QueryModelFromJSON(json, sourceFromJSON).value.q;
      q.queryId != Null && q.userId != Null && q.createdAt != Null && q.ttl != Null
      && q.answerText != Null && q.sources != Null && q.isComplete != Null
  {
  }

  /** A converted object passes `instanceOfQueryModel` exactly when the wire
      object's `query_text` is not `undefined`: it is copied without the
      null normalisation the other fields get. */
  lemma InstanceAfterFromJSON(json: JsValue, sourceFromJSON: JsValue -> JsValue)
    requires QueryModelFromJSON(json, sourceFromJSON).Ok? && !IsNullish(json)
    ensures InstanceOfQueryModel(QueryModelFromJSON(json, sourceFromJSON).value.q)
      <==> Get(json, "query_text") != Undefined
  {
  }

  /** A wire object whose eight fields are all set survives the round trip
      through the client object, given `Source` converters that undo each
      other on its sources. */
  lemma WireRoundTrip(json: JsValue, sourceFromJSON: JsValue -> JsValue, sourceToJSON: JsValue -> JsValue)
    requires json.Obj?
    requires !IsNullish(Get(json, "query_id")) && !IsNullish(Get(json, "user_id"))
    requires !IsNullish(Get(json, "created_at")) && !IsNullish(Get(json, "ttl"))
    requires !IsNullish(Get(json, "answer_text")) && !IsNullish(Get(json, "is_complete"))
    requires Get(json, "sources").Arr?
    requires var xs := Get(json, "sources").elems;
      forall k :: 0 <= k < |xs| ==> sourceToJSON(sourceFromJSON(xs[k])) == xs[k]
    ensures QueryModelFromJSON(json, sourceFromJSON).Ok?
    ensures QueryModelToJSON(QueryModelFromJSON(json, sourceFromJSON).value, sourceToJSON).Ok?
    ensures var back := QueryModelToJSON(QueryModelFromJSON(json, sourceFromJSON).value, sourceToJSON).value;
      && Get(back, "query_id") == Get(json, "query_id") && Get(back, "user_id") == Get(json, "user_id")
      && Get(back, "created_at") == Get(json, "created_at") && Get(back, "ttl") == Get(json, "ttl")
      && Get(back, "query_text") == Get(json, "query_text") && Get(back, "answer_text") == Get(json, "answer_text")
      && Get(back, "sources") == Get(json, "sources") && Get(back, "is_complete") == Get(json, "is_complete")
  {
    var model := QueryModelFromJSON(json, sourceFromJSON).value.q;
    var xs := Get(json, "sources").elems;
    MapJsInverse(xs, sourceFromJSON, sourceToJSON);
    assert model.sources == Arr(MapJs(xs, sourceFromJSON));
    WireObjectFields(model, Arr(MapJs(MapJs(xs, sourceFromJSON), sourceToJSON)));
  }

  /** Converting a wire object back gives the client fields it was built
      from when none of them is `null`, with its sources mapped. */
  lemma FromWireObject(value: ClientQuery, sources: JsValue, sourceFromJSON: JsValue -> JsValue)
    requires value.queryId != Null && value.userId != Null && value.createdAt != Null && value.ttl != Null
    requires value.answerText != Null && value.isComplete != Null
    requires MapSources(sources, sourceFromJSON).Ok?
    ensures QueryModelFromJSON(WireObject(value, sources), sourceFromJSON)
      == Ok(Model(value.(sources := MapSources(sources, sourceFromJSON).value)))
  {
    WireObjectFields(value, sources);
  }

  /** A client object with no `null` optional field survives the round trip
      through the wire object, given `Source` converters that undo each
      other on its sources. */
  lemma ModelRoundTrip(value: ClientQuery, sourceFromJSON: JsValue -> JsValue, sourceToJSON: JsValue -> JsValue)
    requires value.queryId != Null && value.userId != Null && value.createdAt != Null && value.ttl != Null
    requires value.answerText != Null && value.isComplete != Null
    requires value.sources.Undefined? || value.sources.Arr?
    requires value.sources.Arr? ==> var xs := value.sources.elems;
      forall k :: 0 <= k < |xs| ==> sourceFromJSON(sourceToJSON(xs[k])) == xs[k]
    ensures QueryModelToJSON(Model(value), sourceToJSON).Ok?
    ensures QueryModelFromJSON(QueryModelToJSON(Model(value), sourceToJSON).value, sourceFromJSON) == Ok(Model(value))
  {
    var sources := MapSources(value.sources, sourceToJSON).value;
    assert QueryModelToJSON(Model(value), sourceToJSON) == Ok(WireObject(value, sources));
    if value.sources.Arr? {
      MapJsInverse(value.sources.elems, sourceToJSON, sourceFromJSON);
    }
    assert MapSources(sources, sourceFromJSON) == Ok(value.sources);
    FromWireObject(value, sources, sourceFromJSON);
    assert value.(sources := value.sources) == value;
  }

  /** The one lossy case: an `answerText` of `null` comes back `undefined`. */
  lemma NullAnswerComesBackUndefined(value: ClientQuery, sourceFromJSON: JsValue -> JsValue, sourceToJSON: JsValue -> JsValue)
    requires value.answerText == Null
    requires QueryModelToJSON(Model(value), sourceToJSON).Ok?
    ensures QueryModelFromJSON(QueryModelToJSON(Model(value), sourceToJSON).value, sourceFromJSON).Ok?
    ensures QueryModelFromJSON(QueryModelToJSON(Model(value), sourceToJSON).value, sourceFromJSON).value.q.answerText
      == Undefined
  {
    WireObjectFields(value, MapSources(value.sources, sourceToJSON).value);
  }

  /** `null` and `undefined` pass through both converters unchanged. */
  lemma NullishRoundTrip(v: JsValue, sourceFromJSON: JsValue -> JsValue, sourceToJSON: JsValue -> JsValue)
    requires IsNullish(v)
    ensures QueryModelFromJSON(v, sourceFromJSON) == Ok(Nullish(v))
    ensures QueryModelToJSON(Nullish(v), sourceToJSON) == Ok(v)
  {
  }
}
