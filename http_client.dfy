// The shop's HTTP client: the query string it appends, the headers it sends
// and how it turns a response into a value or an `ApiError`. The fetch
// itself, the base URL and the stored session are outside the model; the
// session token and the decoded response are parameters.

module HttpClient {
  import opened Common
  import opened SearchParams

  /** A value of the `query` object, with scalars and array items already
      written as `String` writes them. */
  datatype QueryValue = Undefined | Null | Scalar(text: string) | List(items: seq<string>)

  /** The filter on entries: `undefined`, `null` and `''` are dropped. A
      scalar whose text is "" can only have been the empty string. */
  predicate Kept(v: QueryValue) {
    !(v.Undefined? || v.Null? || v == Scalar(""))
  }

  /** The pairs one array appends, one per item, in order. */
  function ListPairs(key: string, items: seq<string>): Pairs {
    if |items| == 0 then [] else ListPairs(key, items[..|items| - 1]) + [(key, items[|items| - 1])]
  }

  /** The pairs one entry appends. */
  function EntryPairs(key: string, v: QueryValue): Pairs {
    if !Kept(v) then []
    else match v
      case List(items) => ListPairs(key, items)
      case Scalar(text) => [(key, text)]
      case _ => []
  }

  /** The pairs of the whole query, entry after entry. */
  function QueryPairs(query: seq<(string, QueryValue)>): Pairs {
    if |query| == 0 then []
    else QueryPairs(query[..|query| - 1]) + EntryPairs(query[|query| - 1].0, query[|query| - 1].1)
  }

  /** The values one entry gives its key. */
  function EntryValues(v: QueryValue): seq<string> {
    match v
    case List(items) => items
    case Scalar(text) => if text == "" then [] else [text]
    case _ => []
  }

  lemma {:induction false} ListPairsValues(key: string, items: seq<string>, k: string)
    ensures Values(ListPairs(key, items), k) == if k == key then items else []
  {
    if |items| > 0 {
      var init, last := items[..|items| - 1], items[|items| - 1];
      var front := ListPairs(key, init);
      assert ListPairs(key, items) == front + [(key, last)];
      ListPairsValues(key, init, k);
      ValuesAppend(front, [(key, last)], k);
      SingleValues(key, last, k);
      if k == key {
        assert init + [last] == items;
      }
    }
  }

  lemma EntryPairsValues(key: string, v: QueryValue, k: string)
    ensures Values(EntryPairs(key, v), k) == if k == key then EntryValues(v) else []
  {
    if Kept(v) {
      match v {
        case List(items) => ListPairsValues(key, items, k);
        case Scalar(text) => SingleValues(key, text, k);
        case _ =>
      }
    }
  }

  /** The keys of a query object are distinct. */
  predicate KeysDistinct(query: seq<(string, QueryValue)>) {
    forall i, j :: 0 <= i < j < |query| ==> query[i].0 != query[j].0
  }

  /** In the query string a key has exactly the values its entry gives it:
      none for `undefined`, `null` or `''`, the text of a scalar, every item
      of an array in order; a key not in the query has none. */
  lemma {:induction false} QueryPairsValues(query: seq<(string, QueryValue)>, k: string)
    requires KeysDistinct(query)
    ensures (forall i :: 0 <= i < |query| ==> query[i].0 != k) ==> Values(QueryPairs(query), k) == []
    ensures forall i :: 0 <= i < |query| && query[i].0 == k ==> Values(QueryPairs(query), k) == EntryValues(query[i].1)
  {
    if |query| > 0 {
      var init, last := query[..|query| - 1], query[|query| - 1];
      assert KeysDistinct(init);
      QueryPairsValues(init, k);
      ValuesAppend(QueryPairs(init), EntryPairs(last.0, last.1), k);
      EntryPairsValues(last.0, last.1, k);
      forall i | 0 <= i < |query| && query[i].0 == k
        ensures Values(QueryPairs(query), k) == EntryValues(query[i].1)
      {
        if i < |query| - 1 {
          assert init[i] == query[i];
        }
      }
    }
  }

  /** The appending loop of `buildQueryString`. */
  method BuildParams(query: seq<(string, QueryValue)>) returns (params: Pairs)
    ensures params == QueryPairs(query)
  {
    params := [];
    var i := 0;
    while i < |query|
      invariant 0 <= i <= |query|
      invariant params == QueryPairs(query[..i])
    {
      var key, value := query[i].0, query[i].1;
      params := AppendEntry(params, key, value);
      assert query[..i + 1][..i] == query[..i];
      i := i + 1;
    }
    assert query[..i] == query;
  }

  /** One entry of the loop: nothing for a dropped value, each item of an
      array, or the scalar's text. */
  method AppendEntry(params: Pairs, key: string, value: QueryValue) returns (r: Pairs)
    ensures r == params + EntryPairs(key, value)
  {
    r := params;
    if Kept(value) {
      match value {
        case List(items) =>
          var j := 0;
          while j < |items|
            invariant 0 <= j <= |items|
            invariant r == params + ListPairs(key, items[..j])
          {
            r := Append(r, key, items[j]);
            assert items[..j + 1][..j] == items[..j];
            j := j + 1;
          }
          assert items[..j] == items;
        case Scalar(text) =>
          r := Append(r, key, text);
        case _ =>
      }
    }
  }

  /** `buildQueryString`: "" without a query or when the encoded parameters
      are empty, else "?" and the encoded parameters. `encode` is
      `URLSearchParams.toString`. */
  method BuildQueryString(query: Option<seq<(string, QueryValue)>>, encode: Pairs -> string) returns (r: string)
    ensures query.None? ==> r == ""
    ensures query.Some? ==> var qs := encode(QueryPairs(query.value));
      r == if qs == "" then "" else "?" + qs
  {
    if query.None? {
      return "";
    }
    var params := BuildParams(query.value);
    var qs := encode(params);
    r := if qs != "" then "?" + qs else "";
  }

  const ContentType: string := "Content-Type"
  const Authorization: string := "Authorization"
  const Json: string := "application/json"

  /** The headers sent: JSON content type unless the caller gives one, the
      caller's headers, and a bearer token when the request is authenticated
      and the session holds a non-empty token. */
  function Headers(custom: map<string, string>, authenticated: bool, token: Option<string>): (h: map<string, string>)
    ensures h.Keys == custom.Keys + {ContentType} + (if authenticated && token.Some? && token.value != "" then {Authorization} else {})
    ensures ContentType !in custom ==> h[ContentType] == Json
    ensures authenticated && token.Some? && token.value != "" ==> h[Authorization] == "Bearer " + token.value
    ensures forall k :: k in custom && !(k == Authorization && authenticated && token.Some? && token.value != "") ==>
      h[k] == custom[k]
  {
    var base := map[ContentType := Json] + custom;
    if authenticated && token.Some? && token.value != "" then base[Authorization := "Bearer " + token.value] else base
  }

  /** A decoded JSON body. */
  datatype JsonValue =
    | JObject(fields: map<string, JsonValue>)
    | JArray(items: seq<JsonValue>)
    | JString(s: string)
    | JNumber(n: real)
    | JBool(b: bool)
    | JNull

  /** `payload?.name`: a field of an object; `None` (undefined) otherwise. */
  function Field(p: Option<JsonValue>, name: string): Option<JsonValue> {
    if p.Some? && p.value.JObject? && name in p.value.fields then Some(p.value.fields[name]) else None
  }

  /** `a ?? b`. */
  function Coalesce(a: Option<JsonValue>, b: Option<JsonValue>): (r: Option<JsonValue>)
    ensures r == if a.None? || a == Some(JNull) then b else a
  {
    match a
    case Some(JNull) => b
    case Some(_) => a
    case None => b
  }

  /** JavaScript truthiness of a JSON value. */
  predicate Truthy(v: Option<JsonValue>) {
    match v
    case None => false
    case Some(JNull) => false
    case Some(JString(s)) => s != ""
    case Some(JNumber(n)) => n != 0.0
    case Some(JBool(b)) => b
    case Some(_) => true
  }

  /** `ApiError`: the status, the message and the details. */
  datatype ApiError = ApiError(status: int, message: JsonValue, details: Option<JsonValue>)

  /** How a request ends: the value returned, or the error thrown. */
  datatype Outcome = Returned(value: Option<JsonValue>) | Thrown(error: ApiError)

  /** The end of `httpRequest`. `payload` is the decoded body, `None` when the
      response is not JSON. A failed status throws: the error payload is the
      body's `error` field or the body, its truthy `message` or else the
      status text is the message. A success returns the body's `data` field,
      or the body itself. */
  function Settle(ok: bool, status: int, statusText: string, payload: Option<JsonValue>): (r: Outcome)
    ensures !ok <==> r.Thrown?
    ensures r.Thrown? ==> r.error.status == status
  {
    if !ok then
      var errorPayload := Coalesce(Field(payload, "error"), payload);
      var message := Field(errorPayload, "message");
      Thrown(ApiError(status,
                      if Truthy(message) then message.value else JString(statusText),
                      Coalesce(Field(errorPayload, "details"), payload)))
    else Returned(Coalesce(Field(payload, "data"), payload))
  }

  /** The server's success envelope `{ status: "success", data }` gives back
      its data, unless the data is null, when the whole envelope comes back. */
  lemma SuccessEnvelope(status: int, statusText: string, data: JsonValue)
    ensures var body := JObject(map["status" := JString("success"), "data" := data]);
      Settle(true, status, statusText, Some(body)) == Returned(Some(if data == JNull then body else data))
  {
  }

  /** The server's error envelope `{ status: "error", message, details }`:
      its message when it is non-empty, else the status text; its details
      when they are not null, else the whole envelope. */
  lemma ErrorEnvelope(status: int, statusText: string, message: string, details: JsonValue)
    ensures var body := JObject(map["status" := JString("error"), "message" := JString(message), "details" := details]);
      Settle(false, status, statusText, Some(body)) ==
        Thrown(ApiError(status, JString(if message != "" then message else statusText),
                        Some(if details == JNull then body else details)))
  {
    var body := JObject(map["status" := JString("error"), "message" := JString(message), "details" := details]);
    assert "error" !in body.fields;
  }

  /** A response that is not JSON: a failure carries the status text and no
      details, a success returns nothing. */
  lemma NotJson(ok: bool, status: int, statusText: string)
    ensures Settle(ok, status, statusText, None) ==
      if ok then Returned(None) else Thrown(ApiError(status, JString(statusText), None))
  {
  }
}
