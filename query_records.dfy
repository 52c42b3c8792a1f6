/** The stored query record: its pydantic defaults, the DynamoDB item it is
    written as (`as_ddb_item`), the record rebuilt from an item
    (`cls(**item)`), and how the table calls map a service answer to a
    result. The table's service is reduced to a map from query id to item;
    the random id and the clock readings the defaults draw are parameters. */
module QueryRecords {
  import opened PyText

  /** `TTL_EXPIRE_MONTHS` and `TTL_EXPIRE_TIMESTAMP`: six 30-day months, in
      seconds. */
  const TtlExpireMonths: nat := 6
  const TtlExpireTimestamp: nat := 60 * 60 * 24 * 30 * TtlExpireMonths

  /** The default `user_id`. */
  const DefaultUserId: string := "nobody"

  /** The message `get_table` raises with when `TABLE_NAME` is unset. */
  const TableNameMissing: string := "TABLE_NAME must be set"

  /** A Python value as it sits in an item: str, int (DynamoDB numbers come
      back as integral `Decimal`s), bool, list, or None. */
  datatype PyValue = PyStr(s: string) | PyInt(i: int) | PyBool(b: bool) | PyList(elems: seq<PyValue>) | PyNone

  type Item = map<string, PyValue>

  datatype QueryModel = QueryModel(
    queryId: string,
    userId: string,
    createdAt: int,
    ttl: int,
    queryText: string,
    answerText: Option<string>,
    sources: seq<string>,
    isComplete: bool)

  /** What the default factories draw: `uuid.uuid4().hex`, and the two
      `int(time.time())` readings, for `created_at` and for `ttl` (taken
      one after the other, so they can fall in different seconds). */
  datatype Draws = Draws(uuidHex: string, createdClock: int, ttlClock: int)

  /** How a call ends: a value, or an exception that propagates. */
  datatype Error = ValidationError | ClientError(message: string) | ValueError(message: string)
  datatype Outcome<T> = Ok(value: T) | Raised(error: Error)

  /** `QueryModel(query_text=...)`: every other field takes its default. */
  function NewQuery(queryText: string, draws: Draws): (q: QueryModel)
    ensures IsPending(q) && q.queryText == queryText
  {
    QueryModel(
      queryId := draws.uuidHex,
      userId := DefaultUserId,
      createdAt := draws.createdClock,
      ttl := draws.ttlClock + TtlExpireTimestamp,
      queryText := queryText,
      answerText := None,
      sources := [],
      isComplete := false)
  }

  /** The pending state a query is created in: no answer, no sources, not
      complete. */
  predicate IsPending(q: QueryModel)
  {
    q.answerText.None? && q.sources == [] && !q.isComplete
  }

  lemma TtlIsSixMonthsOfSeconds()
    ensures TtlExpireTimestamp == 15552000
  {
  }

  /** A new query is pending, belongs to "nobody", and expires six months
      after the clock reading taken for its `ttl` (which is at least its
      `created_at` when the clock did not go back). */
  lemma NewQueryIsPending(queryText: string, draws: Draws)
    ensures var q := NewQuery(queryText, draws);
      && IsPending(q) && q.userId == "nobody" && q.queryText == queryText && q.queryId == draws.uuidHex
      && q.ttl - q.createdAt == TtlExpireTimestamp + (draws.ttlClock - draws.createdClock)
      && (draws.createdClock <= draws.ttlClock ==> q.ttl >= q.createdAt + 15552000)
  {
  }

  /** `model_dump()`: every field under its name, `None` included. */
  function ModelDump(q: QueryModel): Item
  {
    map[
      "query_id" := PyStr(q.queryId),
      "user_id" := PyStr(q.userId),
      "created_at" := PyInt(q.createdAt),
      "ttl" := PyInt(q.ttl),
      "query_text" := PyStr(q.queryText),
      "answer_text" := if q.answerText.Some? then PyStr(q.answerText.value) else PyNone,
      "sources" := PyList(seq(|q.sources|, k requires 0 <= k < |q.sources| => PyStr(q.sources[k]))),
      "is_complete" := PyBool(q.isComplete)]
  }

  /** `{k: v for k, v in d.items() if v is not None}`. */
  function DropNone(d: Item): (r: Item)
    ensures forall k :: k in r <==> k in d && !d[k].PyNone?
    ensures forall k :: k in r ==> r[k] == d[k]
  {
    map k | k in d && !d[k].PyNone? :: d[k]
  }

  /** `as_ddb_item`: no entry is None, and only a missing answer is left out. */
  function AsDdbItem(q: QueryModel): (item: Item)
    ensures forall k :: k in item ==> !item[k].PyNone?
    ensures "answer_text" in item <==> q.answerText.Some?
  {
    DropNone(ModelDump(q))
  }

  /** The item has every field but `answer_text` always, and `answer_text`
      exactly when there is an answer, each with the model's value; a
      pending query's item has no `answer_text` at all. */
  lemma AsDdbItemFields(q: QueryModel)
    ensures var item := AsDdbItem(q);
      && (forall k :: k in item ==> !item[k].PyNone?)
      && ("answer_text" in item <==> q.answerText.Some?)
      && (q.answerText.Some? ==> item["answer_text"] == PyStr(q.answerText.value))
      && "query_id" in item && item["query_id"] == PyStr(q.queryId)
      && "user_id" in item && item["user_id"] == PyStr(q.userId)
      && "created_at" in item && item["created_at"] == PyInt(q.createdAt)
      && "ttl" in item && item["ttl"] == PyInt(q.ttl)
      && "query_text" in item && item["query_text"] == PyStr(q.queryText)
      && "sources" in item && item["sources"] == PyList(seq(|q.sources|, k requires 0 <= k < |q.sources| => PyStr(q.sources[k])))
      && "is_complete" in item && item["is_complete"] == PyBool(q.isComplete)
  {
    ModelDumpFields(q);
  }

  /** `model_dump()` holds every field under its name, an absent answer as None. */
  lemma ModelDumpFields(q: QueryModel)
    ensures var d := ModelDump(q);
      && "query_id" in d && d["query_id"] == PyStr(q.queryId)
      && "user_id" in d && d["user_id"] == PyStr(q.userId)
      && "created_at" in d && d["created_at"] == PyInt(q.createdAt)
      && "ttl" in d && d["ttl"] == PyInt(q.ttl)
      && "query_text" in d && d["query_text"] == PyStr(q.queryText)
      && "answer_text" in d && (d["answer_text"].PyNone? <==> q.answerText.None?)
      && (q.answerText.Some? ==> d["answer_text"] == PyStr(q.answerText.value))
      && "sources" in d && d["sources"] == PyList(seq(|q.sources|, k requires 0 <= k < |q.sources| => PyStr(q.sources[k])))
      && "is_complete" in d && d["is_complete"] == PyBool(q.isComplete)
  {
  }

  // ---------------------------------------------------------------------
  // Rebuilding a record from an item: `cls(**item)`

  /** A `str` field: the item's value when it is a string, the default when
      the key is missing, a validation error otherwise. */
  function StrField(item: Item, key: string, default: Option<string>): (r: Outcome<string>)
    ensures key in item && item[key].PyStr? ==> r == Ok(item[key].s)
    ensures key !in item && default.Some? ==> r == Ok(default.value)
    ensures r.Raised? <==> (key in item && !item[key].PyStr?) || (key !in item && default.None?)
  {
    if key in item then (if item[key].PyStr? then Ok(item[key].s) else Raised(ValidationError))
    else if default.Some? then Ok(default.value)
    else Raised(ValidationError)
  }

  function IntField(item: Item, key: string, default: int): (r: Outcome<int>)
    ensures key in item && item[key].PyInt? ==> r == Ok(item[key].i)
    ensures key !in item ==> r == Ok(default)
    ensures r.Raised? <==> key in item && !item[key].PyInt?
  {
    if key !in item then Ok(default)
    else if item[key].PyInt? then Ok(item[key].i)
    else Raised(ValidationError)
  }

  /** `Optional[str] = None`: a string, None, or missing. */
  function OptionalStrField(item: Item, key: string): (r: Outcome<Option<string>>)
    ensures key in item && item[key].PyStr? ==> r == Ok(Some(item[key].s))
    ensures (key !in item || item[key].PyNone?) ==> r == Ok(None)
    ensures r.Raised? <==> key in item && !item[key].PyStr? && !item[key].PyNone?
  {
    if key !in item || item[key].PyNone? then Ok(None)
    else if item[key].PyStr? then Ok(Some(item[key].s))
    else Raised(ValidationError)
  }

  /** Whether every element of a list is a string, and those strings. */
  predicate AllStr(xs: seq<PyValue>)
  {
    forall k :: 0 <= k < |xs| ==> xs[k].PyStr?
  }

  /** `List[str]` with an empty default. */
  function StrListField(item: Item, key: string): (r: Outcome<seq<string>>)
    ensures key !in item ==> r == Ok([])
    ensures r.Ok? && key in item ==>
      && item[key].PyList? && |r.value| == |item[key].elems|
      && (forall k :: 0 <= k < |r.value| ==> item[key].elems[k] == PyStr(r.value[k]))
    ensures r.Raised? <==> key in item && !(item[key].PyList? && AllStr(item[key].elems))
  {
    if key !in item then Ok([])
    else if item[key].PyList? && AllStr(item[key].elems) then
      var xs := item[key].elems;
      Ok(seq(|xs|, k requires 0 <= k < |xs| => xs[k].s))
    else Raised(ValidationError)
  }

  function BoolField(item: Item, key: string, default: bool): (r: Outcome<bool>)
    ensures key in item && item[key].PyBool? ==> r == Ok(item[key].b)
    ensures key !in item ==> r == Ok(default)
    ensures r.Raised? <==> key in item && !item[key].PyBool?
  {
    if key !in item then Ok(default)
    else if item[key].PyBool? then Ok(item[key].b)
    else Raised(ValidationError)
  }

  /** `cls(**item)`: each field from the item when present, its default
      when absent; a value of the wrong type, or a missing `query_text`,
      is a validation error. Keys that are not fields are ignored. */
  function FromItem(item: Item, draws: Draws): (r: Outcome<QueryModel>)
    ensures r.Raised? ==> r.error == ValidationError
    ensures r.Raised? <==>
      StrField(item, "query_id", Some(draws.uuidHex)).Raised? || StrField(item, "user_id", Some(DefaultUserId)).Raised?
      || IntField(item, "created_at", draws.createdClock).Raised?
      || IntField(item, "ttl", draws.ttlClock + TtlExpireTimestamp).Raised?
      || StrField(item, "query_text", None).Raised? || OptionalStrField(item, "answer_text").Raised?
      || StrListField(item, "sources").Raised? || BoolField(item, "is_complete", false).Raised?
  {
    var queryId := StrField(item, "query_id", Some(draws.uuidHex));
    var userId := StrField(item, "user_id", Some(DefaultUserId));
    var createdAt := IntField(item, "created_at", draws.createdClock);
    var ttl := IntField(item, "ttl", draws.ttlClock + TtlExpireTimestamp);
    var queryText := StrField(item, "query_text", None);
    var answerText := OptionalStrField(item, "answer_text");
    var sources := StrListField(item, "sources");
    var isComplete := BoolField(item, "is_complete", false);
    if queryId.Raised? || userId.Raised? || createdAt.Raised? || ttl.Raised?
       || queryText.Raised? || answerText.Raised? || sources.Raised? || isComplete.Raised?
    then Raised(ValidationError)
    else Ok(QueryModel(queryId.value, userId.value, createdAt.value, ttl.value,
                       queryText.value, answerText.value, sources.value, isComplete.value))
  }

  /** Building a record from just its text gives the new pending query. */
  lemma NewQueryFromItem(queryText: string, draws: Draws)
    ensures FromItem(map["query_text" := PyStr(queryText)], draws) == Ok(NewQuery(queryText, draws))
  {
  }

  /** An item without `query_text` is refused. */
  lemma FromItemNeedsQueryText(item: Item, draws: Draws)
    requires "query_text" !in item
    ensures FromItem(item, draws) == Raised(ValidationError)
  {
  }

  /** The stored item rebuilds the record it was made from, whatever the
      default factories would draw: every field is stored, and only a
      `None` answer is left out, which reads back as its default. */
  lemma FromAsDdbItem(q: QueryModel, draws: Draws)
    ensures FromItem(AsDdbItem(q), draws) == Ok(q)
  {
    var item := AsDdbItem(q);
    AsDdbItemFields(q);
    var ss := item["sources"].elems;
    assert forall k :: 0 <= k < |ss| ==> ss[k] == PyStr(q.sources[k]);
    var sources := StrListField(item, "sources");
    assert sources.Ok?;
    assert sources.value == q.sources;
  }

  // ---------------------------------------------------------------------
  // Results of the table calls

  /** What `table.get_item` answered: a client error with its message, or a
      response that may hold an `Item`. */
  datatype GetResponse = GetFailed(message: string) | GetAnswered(item: Option<Item>)

  /** The try/except of `get_item`: None on a client error or when there is
      no item, otherwise the record built from the item (whose validation
      error propagates). */
  function GetItemResult(response: GetResponse, draws: Draws): (r: Outcome<Option<QueryModel>>)
    ensures response.GetFailed? ==> r == Ok(None)
    ensures response.GetAnswered? && response.item.None? ==> r == Ok(None)
    ensures response.GetAnswered? && response.item.Some? ==>
      (r.Ok? <==> FromItem(response.item.value, draws).Ok?)
      && (r.Ok? ==> r.value == Some(FromItem(response.item.value, draws).value))
    ensures r.Raised? ==> r.error == ValidationError
  {
    match response
    case GetFailed(_) => Ok(None)
    case GetAnswered(None) => Ok(None)
    case GetAnswered(Some(item)) =>
      match FromItem(item, draws)
      case Ok(q) => Ok(Some(q))
      case Raised(e) => Raised(e)
  }

  /** What `table.query` answered: a client error with its message, or a
      response that may hold `Items`. */
  datatype QueryResponse = QueryFailed(message: string) | QueryAnswered(items: Option<seq<Item>>)

  /** `[cls(**item) for item in items]`, drawing defaults from `draws(k)`
      for the k-th item; the first invalid item raises. */
  function RecordsFrom(items: seq<Item>, draws: nat -> Draws): (r: Outcome<seq<QueryModel>>)
    ensures r.Ok? <==> forall k :: 0 <= k < |items| ==> FromItem(items[k], draws(k)).Ok?
    ensures r.Ok? ==>
      && |r.value| == |items|
      && (forall k :: 0 <= k < |items| ==> r.value[k] == FromItem(items[k], draws(k)).value)
    ensures r.Raised? ==> r.error == ValidationError
  {
    if items == [] then Ok([])
    else
      match RecordsFrom(items[..|items| - 1], draws)
      case Raised(e) => Raised(e)
      case Ok(rs) =>
        match FromItem(items[|items| - 1], draws(|items| - 1))
        case Raised(e) => Raised(e)
        case Ok(q) => Ok(rs + [q])
  }

  /** The try/except of `list_items`: an empty list on a client error,
      otherwise one record per returned item (none when `Items` is
      missing), in the order returned. */
  function ListItemsResult(response: QueryResponse, draws: nat -> Draws): (r: Outcome<seq<QueryModel>>)
    ensures response.QueryFailed? ==> r == Ok([])
    ensures response.QueryAnswered? && response.items.None? ==> r == Ok([])
    ensures response.QueryAnswered? && response.items.Some? ==> r == RecordsFrom(response.items.value, draws)
  {
    match response
    case QueryFailed(_) => Ok([])
    case QueryAnswered(None) => Ok([])
    case QueryAnswered(Some(items)) => RecordsFrom(items, draws)
  }

  /** Stored items list back as the records they were made from, in order. */
  lemma ListStoredRecords(qs: seq<QueryModel>, draws: nat -> Draws)
    ensures ListItemsResult(QueryAnswered(Some(seq(|qs|, k requires 0 <= k < |qs| => AsDdbItem(qs[k])))), draws)
      == Ok(qs)
  {
    var items := seq(|qs|, k requires 0 <= k < |qs| => AsDdbItem(qs[k]));
    forall k | 0 <= k < |qs|
      ensures FromItem(items[k], draws(k)) == Ok(qs[k])
    {
      FromAsDdbItem(qs[k], draws(k));
    }
    var r := RecordsFrom(items, draws);
    assert r.Ok?;
    assert r.value == qs;
  }

  // ---------------------------------------------------------------------
  // The table

  /** The DynamoDB table `get_table` opens, reduced to the items it holds
      keyed by `query_id` (whatever was stored before, valid records or
      not), and the `TABLE_NAME` it is opened by (None or "" when unset). */
  class QueryTable {
    var tableName: Option<string>
    var items: map<string, Item>

    constructor (tableName: Option<string>, items: map<string, Item>)
      ensures this.tableName == tableName && this.items == items
    {
      this.tableName := tableName;
      this.items := items;
    }

    /** `if not TABLE_NAME`. */
    predicate NameUnset()
      reads this
    {
      tableName.None? || tableName.value == ""
    }

    /** `put_item`: the item is stored under the record's id; an unset
        table name raises `ValueError`, and a client error (`refusal`, the
        service's message) is re-raised, both leaving the table as it was. */
    method PutItem(q: QueryModel, refusal: Option<string>) returns (r: Outcome<()>)
      modifies this
      ensures tableName == old(tableName)
      ensures NameUnset() ==> r == Raised(ValueError(TableNameMissing)) && items == old(items)
      ensures !NameUnset() && refusal.Some? ==> r == Raised(ClientError(refusal.value)) && items == old(items)
      ensures !NameUnset() && refusal.None? ==> r == Ok(()) && items == old(items)[q.queryId := AsDdbItem(q)]
    {
      if NameUnset() {
        return Raised(ValueError(TableNameMissing));
      }
      var item := AsDdbItem(q);
      if refusal.Some? {
        return Raised(ClientError(refusal.value));
      }
      items := items[q.queryId := item];
      r := Ok(());
    }

    /** `get_item`: an unset table name raises `ValueError`; otherwise the
        service's answer (a client error when `refusal` is given, else the
        stored item if any) goes through `GetItemResult`. */
    method GetItem(queryId: string, refusal: Option<string>, draws: Draws) returns (r: Outcome<Option<QueryModel>>)
      ensures NameUnset() ==> r == Raised(ValueError(TableNameMissing))
      ensures !NameUnset() && refusal.Some? ==> r == Ok(None)
      ensures !NameUnset() && refusal.None? ==>
        r == GetItemResult(GetAnswered(if queryId in items then Some(items[queryId]) else None), draws)
    {
      if NameUnset() {
        return Raised(ValueError(TableNameMissing));
      }
      var response: GetResponse;
      if refusal.Some? {
        response := GetFailed(refusal.value);
      } else if queryId in items {
        response := GetAnswered(Some(items[queryId]));
      } else {
        response := GetAnswered(None);
      }
      r := GetItemResult(response, draws);
    }

    /** `list_items`: an unset table name raises `ValueError`; otherwise
        the index query's answer, given as `response`, goes through
        `ListItemsResult`. */
    method ListItems(response: QueryResponse, draws: nat -> Draws) returns (r: Outcome<seq<QueryModel>>)
      ensures NameUnset() ==> r == Raised(ValueError(TableNameMissing))
      ensures !NameUnset() ==> r == ListItemsResult(response, draws)
    {
      if NameUnset() {
        return Raised(ValueError(TableNameMissing));
      }
      r := ListItemsResult(response, draws);
    }
  }

  /** A stored record is fetched back as it was: after `put_item` succeeds,
      `get_item` on its id (with no client error) returns it. */
  lemma PutThenGet(items: map<string, Item>, q: QueryModel, draws: Draws)
    ensures var stored := items[q.queryId := AsDdbItem(q)];
      GetItemResult(GetAnswered(Some(stored[q.queryId])), draws) == Ok(Some(q))
  {
    FromAsDdbItem(q, draws);
  }
}
