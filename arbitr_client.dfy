/**
 * `ArbitrApiClient`: the GET to an api-assist.com arbitration endpoint with
 * the access key and the non-None parameters as its query, and the
 * classification of the answer into the payload or an `ArbitrApiError`.
 */
module ArbitrClient {
  import opened Wrappers
  import opened JsonValues
  import opened Strings
  import opened Common
  import opened Py
  import opened ArbitrConfig

  const KeyRequiredForProd: string := "ARBITR_API_KEY is required for prod mode"
  const RejectedDefault: string := "Request validation or auth error"
  const UnknownError: string := "Unknown API error"
  const UnexpectedFormat: string := "Unexpected API response format"

  /** Where `key` first occurs. */
  function IndexOf(fields: seq<(string, Json)>, key: string): (i: nat)
    requires key in Keys(fields)
    ensures i < |fields| && fields[i].0 == key
    ensures forall j :: 0 <= j < i ==> fields[j].0 != key
    decreases |fields|
  {
    if fields[0].0 == key then 0
    else
      assert key in Keys(fields[1..]) by {
        var i :| 0 <= i < |fields| && Keys(fields)[i] == key;
        assert Keys(fields[1..])[i - 1] == key;
      }
      var i := IndexOf(fields[1..], key);
      assert forall j :: 1 <= j <= i ==> fields[j] == fields[1..][j - 1];
      i + 1
  }

  /** `d[key] = value` on a dict: the value is replaced in place when the key is there, appended otherwise. */
  function Put(fields: seq<(string, Json)>, key: string, value: Json): (r: seq<(string, Json)>)
    ensures key in Keys(fields) ==> Keys(r) == Keys(fields)
    ensures key !in Keys(fields) ==> r == fields + [(key, value)]
  {
    if key in Keys(fields) then
      var i := IndexOf(fields, key);
      var r := fields[i := (key, value)];
      assert forall j :: 0 <= j < |r| ==> Keys(r)[j] == Keys(fields)[j];
      r
    else fields + [(key, value)]
  }

  /** After `d[key] = value`, `key` maps to `value` and every other key to what it did before. */
  lemma PutLookup(fields: seq<(string, Json)>, key: string, value: Json, k: string)
    ensures Lookup(Put(fields, key, value), k) == if k == key then Some(value) else Lookup(fields, k)
  {
    var r := Put(fields, key, value);
    if key in Keys(fields) {
      var i := IndexOf(fields, key);
      LookupReplaced(fields, i, (key, value), k);
    } else {
      LookupAppended(fields, (key, value), k);
    }
  }

  lemma {:induction false} LookupReplaced(fields: seq<(string, Json)>, i: nat, entry: (string, Json), k: string)
    requires i < |fields| && fields[i].0 == entry.0
    requires forall j :: 0 <= j < i ==> fields[j].0 != entry.0
    ensures Lookup(fields[i := entry], k) == if k == entry.0 then Some(entry.1) else Lookup(fields, k)
    decreases i
  {
    var r := fields[i := entry];
    if i > 0 {
      assert r[1..] == fields[1..][i - 1 := entry];
      LookupReplaced(fields[1..], i - 1, entry, k);
    } else {
      assert r[1..] == fields[1..];
    }
  }

  lemma {:induction false} LookupAppended(fields: seq<(string, Json)>, entry: (string, Json), k: string)
    requires entry.0 !in Keys(fields)
    ensures Lookup(fields + [entry], k) == if k == entry.0 then Some(entry.1) else Lookup(fields, k)
    decreases |fields|
  {
    if fields != [] {
      assert (fields + [entry])[1..] == fields[1..] + [entry];
      assert Keys(fields) == [fields[0].0] + Keys(fields[1..]);
      LookupAppended(fields[1..], entry, k);
    }
  }

  /** `{k: v for k, v in params.items() if v is not None}` */
  function Present(params: seq<(string, Json)>): (r: seq<(string, Json)>)
    ensures forall i :: 0 <= i < |r| ==> r[i].1 != JNull && r[i] in params
    decreases |params|
  {
    if params == [] then []
    else
      var init := Present(params[..|params| - 1]);
      var last := params[|params| - 1];
      assert forall p :: p in init ==> p in params[..|params| - 1] ==> p in params;
      if last.1 == JNull then init else init + [last]
  }

  /** `d.update(pairs)`: each pair put in turn. */
  function Update(fields: seq<(string, Json)>, pairs: seq<(string, Json)>): seq<(string, Json)>
    decreases |pairs|
  {
    if pairs == [] then fields
    else
      var last := pairs[|pairs| - 1];
      Put(Update(fields, pairs[..|pairs| - 1]), last.0, last.1)
  }

  /** The query of a call: the key, then the parameters that are not None. */
  function Query(apiKey: string, params: seq<(string, Json)>): seq<(string, Json)> {
    Update([("key", JStr(apiKey))], Present(params))
  }

  /** `query = {"key": api_key}; query.update({k: v for k, v in params.items() if v is not None})` */
  method BuildQuery(apiKey: string, params: seq<(string, Json)>) returns (query: seq<(string, Json)>)
    ensures query == Query(apiKey, params)
  {
    query := [("key", JStr(apiKey))];
    var i := 0;
    while i < |params|
      invariant i <= |params|
      invariant query == Update([("key", JStr(apiKey))], Present(params[..i]))
    {
      assert params[..i + 1][..i] == params[..i];
      if params[i].1 != JNull {
        query := Put(query, params[i].0, params[i].1);
      }
      i := i + 1;
    }
    assert params[..|params|] == params;
  }

  /** The GET of `_get(path, params)`. */
  function ApiRequest(settings: Settings, path: string, query: seq<(string, Json)>): (q: Request)
    ensures q.verb == GET && q.url == settings.baseUrl + "/" + path && q.params == query
  {
    Request(GET, settings.baseUrl + "/" + path, [], query, None, settings.timeout)
  }

  /** Python's `v == 1`, which `True` and `1.0` also satisfy. */
  predicate EqualsOne(v: Json) {
    v == JInt(1) || v == JBool(true) || v == JReal(1.0)
  }

  /** The exception of a 400 or 403 answer, whose body carries the reason. */
  function Rejection(status: int, body: Option<Json>): (e: Error)
    ensures e.ArbitrApiError? ==> e.statusCode == Some(status)
  {
    match body
    case None => DecodeError()
    case Some(payload) =>
      if payload.JObj? then
        ArbitrApiError(Display(Get(payload, "error", JStr(RejectedDefault)).value), Some(status), Get(payload, "error_code", JNull).value)
      else NoAttribute(payload, "get")
  }

  /** A decoded 2xx answer: the payload when its success flag is 1, else its `error`, else an unexpected format. */
  function Accept(data: Json): (r: Result<Json>)
    ensures r.Ok? ==> r == Ok(data) && data.JObj? && Lookup(data.fields, "Success").Some? && EqualsOne(Lookup(data.fields, "Success").value)
    ensures r.Err? ==> r.error.ArbitrApiError? && r.error.statusCode == None
  {
    if data.JObj? && EqualsOne(Get(data, "Success", JNull).value) then Ok(data)
    else if data.JObj? && "error" in Keys(data.fields) then
      Err(ArbitrApiError(Display(Get(data, "error", JStr(UnknownError)).value), None, Get(data, "error_code", JNull).value))
    else Err(ArbitrApiError(UnexpectedFormat, None, JNull))
  }

  /** How `_get` reads the answer. */
  function Classify(reply: Reply): (r: Result<Json>)
    ensures r.Ok? ==> r.value.JObj? && Lookup(r.value.fields, "Success").Some? && EqualsOne(Lookup(r.value.fields, "Success").value)
    ensures r.Err? && r.error.ArbitrApiError? && r.error.statusCode.Some? ==>
      reply.Response? && (reply.status == 400 || reply.status == 403) && r.error.statusCode == Some(reply.status)
  {
    if reply.Response? && (reply.status == 400 || reply.status == 403) then Err(Rejection(reply.status, reply.body))
    else
      var data :- JsonBody(reply);
      Accept(data)
  }

  /** prod mode without a key is refused before any request. */
  predicate KeyMissing(settings: Settings) {
    settings.mode == "prod" && settings.apiKey == ""
  }

  function Outcome(settings: Settings, reply: Reply): (r: Result<Json>)
    ensures KeyMissing(settings) ==> r == Err(ArbitrApiError(KeyRequiredForProd, None, JNull))
    ensures !KeyMissing(settings) ==> r == Classify(reply)
  {
    if KeyMissing(settings) then Err(ArbitrApiError(KeyRequiredForProd, None, JNull)) else Classify(reply)
  }

  /** `_get(path, params)`: the request it issues, if any, and its outcome given the reply. */
  method Fetch(settings: Settings, path: string, params: seq<(string, Json)>, reply: Reply)
    returns (r: Result<Json>, request: Option<Request>)
    ensures r == Outcome(settings, reply)
    ensures KeyMissing(settings) <==> request.None?
    ensures request.Some? ==> request.value == ApiRequest(settings, path, Query(settings.apiKey, params))
  {
    if settings.mode == "prod" && settings.apiKey == "" {
      return Err(ArbitrApiError(KeyRequiredForProd, None, JNull)), None;
    }
    var query := BuildQuery(settings.apiKey, params);
    request := Some(ApiRequest(settings, path, query));
    r := Classify(reply);
  }

  /** `search_cases(**params)` */
  method SearchCases(settings: Settings, params: seq<(string, Json)>, reply: Reply)
    returns (r: Result<Json>, request: Option<Request>)
    ensures r == Outcome(settings, reply)
    ensures KeyMissing(settings) <==> request.None?
    ensures request.Some? ==> request.value == ApiRequest(settings, "search", Query(settings.apiKey, params))
  {
    r, request := Fetch(settings, "search", params, reply);
  }

  /** `details_by_number(case_number)` */
  method DetailsByNumber(settings: Settings, caseNumber: string, reply: Reply)
    returns (r: Result<Json>, request: Option<Request>)
    ensures r == Outcome(settings, reply)
    ensures KeyMissing(settings) <==> request.None?
    ensures request.Some? ==>
      request.value == ApiRequest(settings, "details_by_number", Query(settings.apiKey, [("CaseNumber", JStr(caseNumber))]))
  {
    r, request := Fetch(settings, "details_by_number", [("CaseNumber", JStr(caseNumber))], reply);
  }

  /** `details_by_id(case_id)` */
  method DetailsById(settings: Settings, caseId: string, reply: Reply)
    returns (r: Result<Json>, request: Option<Request>)
    ensures r == Outcome(settings, reply)
    ensures KeyMissing(settings) <==> request.None?
    ensures request.Some? ==>
      request.value == ApiRequest(settings, "details_by_id", Query(settings.apiKey, [("CaseId", JStr(caseId))]))
  {
    r, request := Fetch(settings, "details_by_id", [("CaseId", JStr(caseId))], reply);
  }

  /** `download_pdf(url)` */
  method DownloadPdf(settings: Settings, url: string, reply: Reply)
    returns (r: Result<Json>, request: Option<Request>)
    ensures r == Outcome(settings, reply)
    ensures KeyMissing(settings) <==> request.None?
    ensures request.Some? ==>
      request.value == ApiRequest(settings, "pdf_download", Query(settings.apiKey, [("url", JStr(url))]))
  {
    r, request := Fetch(settings, "pdf_download", [("url", JStr(url))], reply);
  }

  // ---- Properties ----

  /** A parameter is passed on exactly when its value is not None: falsy values such as 0 or "" are kept. */
  lemma {:induction false} PresentExactly(params: seq<(string, Json)>, p: (string, Json))
    ensures p in Present(params) <==> p in params && p.1 != JNull
    decreases |params|
  {
    if params != [] {
      var init := params[..|params| - 1];
      PresentExactly(init, p);
      assert params == init + [params[|params| - 1]];
    }
  }

  lemma {:induction false} PresentKeys(params: seq<(string, Json)>, k: string)
    requires k in Keys(Present(params))
    ensures k in Keys(params)
  {
    var r := Present(params);
    var i :| 0 <= i < |r| && Keys(r)[i] == k;
    assert r[i] in params;
    var j :| 0 <= j < |params| && params[j] == r[i];
    assert Keys(params)[j] == k;
  }

  /** The last parameter's key is not among the earlier parameters passed on. */
  lemma LastKeyFresh(params: seq<(string, Json)>)
    requires params != [] && UniqueKeys(params)
    ensures params[|params| - 1].0 !in Keys(Present(params[..|params| - 1]))
  {
    var init := params[..|params| - 1];
    var k := params[|params| - 1].0;
    if k in Keys(Present(init)) {
      PresentKeys(init, k);
    }
  }

  lemma AppendAssoc(a: seq<(string, Json)>, b: seq<(string, Json)>, c: seq<(string, Json)>)
    ensures (a + b) + c == a + (b + c)
  {
  }

  lemma KeyNotInConcat(a: seq<(string, Json)>, b: seq<(string, Json)>, k: string)
    requires k !in Keys(a) && k !in Keys(b)
    ensures k !in Keys(a + b)
  {
    forall j | 0 <= j < |a + b|
      ensures Keys(a + b)[j] != k
    {
      if j < |a| {
        assert (a + b)[j] == a[j] && Keys(a)[j] == a[j].0;
      } else {
        assert (a + b)[j] == b[j - |a|] && Keys(b)[j - |a|] == b[j - |a|].0;
      }
    }
  }

  /** One more parameter with a fresh key and a value is appended to the query. */
  lemma QueryStep(apiKey: string, params: seq<(string, Json)>)
    requires params != [] && params[|params| - 1].1 != JNull
    requires params[|params| - 1].0 !in Keys(Present(params[..|params| - 1])) && params[|params| - 1].0 != "key"
    requires Query(apiKey, params[..|params| - 1]) == [("key", JStr(apiKey))] + Present(params[..|params| - 1])
    ensures Query(apiKey, params) == [("key", JStr(apiKey))] + Present(params)
  {
    var base, pres, last := [("key", JStr(apiKey))], Present(params[..|params| - 1]), params[|params| - 1];
    assert Present(params) == pres + [last];
    assert (pres + [last])[..|pres|] == pres;
    assert Update(base, pres) == base + pres;
    assert Update(base, pres + [last]) == Put(base + pres, last.0, last.1);
    KeyNotInConcat(base, pres, last.0);
    assert Put(base + pres, last.0, last.1) == (base + pres) + [last];
    AppendAssoc(base, pres, [last]);
  }

  /**
   * With distinct keys none of which is "key", the query is the key
   * followed by the non-None parameters in their order.
   */
  lemma {:induction false} QueryShape(apiKey: string, params: seq<(string, Json)>)
    requires UniqueKeys(params) && "key" !in Keys(params)
    ensures Query(apiKey, params) == [("key", JStr(apiKey))] + Present(params)
    decreases |params|
  {
    if params != [] {
      var init := params[..|params| - 1];
      assert Keys(params)[|params| - 1] == params[|params| - 1].0;
      assert "key" !in Keys(init) by {
        assert forall j :: 0 <= j < |init| ==> Keys(init)[j] == Keys(params)[j];
      }
      QueryShape(apiKey, init);
      if params[|params| - 1].1 != JNull {
        LastKeyFresh(params);
        QueryStep(apiKey, params);
      } else {
        assert Present(params) == Present(init);
      }
    }
  }

  /** The query always starts with the access key when no parameter is called "key". */
  lemma QueryStartsWithKey(apiKey: string, params: seq<(string, Json)>)
    requires UniqueKeys(params) && "key" !in Keys(params)
    ensures Query(apiKey, params)[0] == ("key", JStr(apiKey))
    ensures forall p :: p in Query(apiKey, params)[1..] <==> p in params && p.1 != JNull
  {
    QueryShape(apiKey, params);
    assert Query(apiKey, params)[1..] == Present(params);
    forall p
      ensures p in Query(apiKey, params)[1..] <==> p in params && p.1 != JNull
    {
      PresentExactly(params, p);
    }
  }

  /** 400 and 403 raise with the payload's message (or the default), the status and the payload's error_code. */
  lemma Rejected(status: int, fields: seq<(string, Json)>, content: seq<Base64.byte>)
    requires status == 400 || status == 403
    ensures var message := if Lookup(fields, "error").Some? then Lookup(fields, "error").value else JStr(RejectedDefault);
      var code := if Lookup(fields, "error_code").Some? then Lookup(fields, "error_code").value else JNull;
      Classify(Response(status, Some(JObj(fields)), content)) == Err(ArbitrApiError(Display(message), Some(status), code))
  {
  }

  /** A success flag of 1 wins over an `error` key. */
  lemma SuccessFirst(status: int, fields: seq<(string, Json)>, content: seq<Base64.byte>)
    requires IsSuccess(status)
    requires Lookup(fields, "Success") == Some(JInt(1))
    ensures Classify(Response(status, Some(JObj(fields)), content)) == Ok(JObj(fields))
  {
    assert Accept(JObj(fields)) == Ok(JObj(fields)) by {
      assert Get(JObj(fields), "Success", JNull) == Ok(JInt(1));
    }
  }

  /** A dict without the success flag but with `error` raises that message and its error_code, with no status. */
  lemma ErrorPayload(status: int, fields: seq<(string, Json)>, content: seq<Base64.byte>)
    requires IsSuccess(status)
    requires Lookup(fields, "Success").None? || !EqualsOne(Lookup(fields, "Success").value)
    requires Lookup(fields, "error").Some?
    ensures var code := if Lookup(fields, "error_code").Some? then Lookup(fields, "error_code").value else JNull;
      Classify(Response(status, Some(JObj(fields)), content)) ==
        Err(ArbitrApiError(Display(Lookup(fields, "error").value), None, code))
  {
    var code := if Lookup(fields, "error_code").Some? then Lookup(fields, "error_code").value else JNull;
    assert Accept(JObj(fields)) == Err(ArbitrApiError(Display(Lookup(fields, "error").value), None, code)) by {
      assert !EqualsOne(Get(JObj(fields), "Success", JNull).value);
    }
  }

  /** Anything else the API answers with a 2xx status is an unexpected format. */
  lemma UnexpectedShape(status: int, data: Json, content: seq<Base64.byte>)
    requires IsSuccess(status)
    requires data.JObj? ==>
      (Lookup(data.fields, "Success").None? || !EqualsOne(Lookup(data.fields, "Success").value)) && "error" !in Keys(data.fields)
    ensures Classify(Response(status, Some(data), content)) == Err(ArbitrApiError(UnexpectedFormat, None, JNull))
  {
  }

  /** Other failing statuses surface as the HTTP status error of `raise_for_status()`. */
  lemma OtherStatus(status: int, body: Option<Json>, content: seq<Base64.byte>)
    requires !IsSuccess(status) && status != 400 && status != 403
    ensures Classify(Response(status, body, content)) == Err(HttpStatusError(status))
  {
  }

  /** The rejected-key answer of the api-assist service. */
  lemma InvalidKeyRejected(content: seq<Base64.byte>)
    ensures Classify(Response(403, Some(JObj([("error", JStr("Invalid access key")), ("error_code", JInt(40301))])), content)) ==
      Err(ArbitrApiError("Invalid access key", Some(403), JInt(40301)))
  {
    Rejected(403, [("error", JStr("Invalid access key")), ("error_code", JInt(40301))], content);
  }
}
