/**
 * `search_companies`: full-text search of the EGRUL/EGRIP registers. The
 * text counts every match and lists at most the first five.
 */
module SearchCompanies {
  import opened Wrappers
  import opened JsonValues
  import opened Strings
  import opened Common
  import opened Py
  import opened FnsUtils
  import opened FnsLookup

  const Generic: string := "Не удалось выполнить поиск"
  const CountPrefix: string := "Найдено компаний: "
  /** How many items the text lists. */
  const Shown: nat := 5
  const NA: Json := JStr("N/A")

  /** The three lines of one register record: name, INN and OGRN, status. */
  function Card(heading: string, nameKey: string, rec: Json): Result<string> {
    var name :- Get(rec, nameKey, NA);
    var inn :- Get(rec, "ИНН", NA);
    var ogrn :- Get(rec, "ОГРН", NA);
    var status :- Get(rec, "Статус", NA);
    Ok(heading + Display(name) + "\n" + "ИНН: " + Display(inn) + ", ОГРН: " + Display(ogrn) + "\n"
       + "Статус: " + Display(status) + "\n\n")
  }

  /** The lines of one item: its ЮЛ record, else its ИП record, else nothing. */
  function ItemText(item: Json): Result<string> {
    var hasUl :- Has("ЮЛ", item);
    if hasUl then
      var ul :- Index(item, "ЮЛ");
      Card("ЮЛ: ", "НаимСокрЮЛ", ul)
    else
      var hasIp :- Has("ИП", item);
      if hasIp then
        var ip :- Index(item, "ИП");
        Card("ИП: ", "ФИОПолн", ip)
      else Ok("")
  }

  /** The text before `strip()`: the count line, then the first five items. */
  function SearchText(count: string, items: Json): Result<string> {
    var shown :- Take(items, Shown);
    var list :- Elements(shown);
    After(CountPrefix + count + "\n\n", RenderAll(list, ItemText))
  }

  method RenderSearch(count: string, items: Json) returns (r: Result<string>)
    ensures r == SearchText(count, items)
  {
    var shown := Take(items, Shown);
    if shown.Err? {
      return Err(shown.error);
    }
    var list := Elements(shown.value);
    r := AppendAll(CountPrefix + count + "\n\n", list.value, ItemText);
  }

  /** Test mode: the mock payload, counted with `len(items)`. */
  function TestResult(q: string, mock: Json): Result<ToolResult> {
    var items :- Get(mock, "items", JArr([]));
    var n :- Len(items);
    var text :- SearchText(NatToString(n), items);
    Ok(ToolResult(Strip(text), mock, ModeMeta("test", [("query", JStr(q)), ("count", JInt(n))])))
  }

  /** `page or 1` */
  function PageOr1(page: Option<int>): (p: Json)
    ensures Truthy(OptInt(page)) ==> p == JInt(page.value)
    ensures !Truthy(OptInt(page)) ==> p == JInt(1)
  {
    if page.Some? && page.value != 0 then JInt(page.value) else JInt(1)
  }

  /** The API answer, counted by its own "Count" when present, else by `len(items)`. */
  function ProdResult(q: string, page: Option<int>, result: Json): Result<ToolResult> {
    var items :- Get(result, "items", JArr([]));
    var n :- Len(items);
    var count :- Get(result, "Count", JInt(n));
    var text :- SearchText(Display(count), items);
    Ok(ToolResult(Strip(text), result, ModeMeta("prod", [("query", JStr(q)), ("count", count), ("page", PageOr1(page))])))
  }

  /** q and key, then page and filter only when truthy. */
  function SearchParams(q: string, token: string, page: Option<int>, filter: Option<string>): seq<(string, Json)> {
    AddIfTruthy(AddIfTruthy([("q", JStr(q)), ("key", JStr(token))], "page", OptInt(page)), "filter", OptStr(filter))
  }

  /**
   * `search_companies(q, page, filter)`. There is no free-mode gate: every
   * mode but "test" calls the API.
   */
  method Search(env: Env, q: string, page: Option<int>, filter: Option<string>, mock: Json, reply: Reply)
    returns (r: Result<ToolResult>, request: Option<Request>)
    ensures !ApiMode(env) ==> request == None && r == TestResult(q, mock)
    ensures ApiMode(env) && !EnvSet(env, TokenVar) ==> r == Err(TokenMissing()) && request == None
    ensures ApiMode(env) && EnvSet(env, TokenVar) ==>
      request == Some(ApiGet("search", SearchParams(q, env[TokenVar], page, filter), 40.0)) &&
      (JsonBody(reply).Err? ==> r == Err(ApiFailure(JsonBody(reply).error, Generic))) &&
      (JsonBody(reply).Ok? ==> r == Guarded(ProdResult(q, page, JsonBody(reply).value), Generic))
  {
    if FnsMode(env) == "test" {
      r := TestSearch(q, mock);
      return r, None;
    }
    if !EnvSet(env, TokenVar) {
      return Err(TokenMissing()), None;
    }
    request := Some(ApiGet("search", SearchParams(q, env[TokenVar], page, filter), 40.0));
    var result := JsonBody(reply);
    if result.Err? {
      return Err(ApiFailure(result.error, Generic)), request;
    }
    r := ProdSearch(q, page, result.value);
    r := Guarded(r, Generic);
  }

  method TestSearch(q: string, mock: Json) returns (r: Result<ToolResult>)
    ensures r == TestResult(q, mock)
  {
    var items := Get(mock, "items", JArr([]));
    if items.Err? {
      return Err(items.error);
    }
    var n := Len(items.value);
    if n.Err? {
      return Err(n.error);
    }
    var text := RenderSearch(NatToString(n.value), items.value);
    if text.Err? {
      return Err(text.error);
    }
    return Ok(ToolResult(Strip(text.value), mock, ModeMeta("test", [("query", JStr(q)), ("count", JInt(n.value))])));
  }

  method ProdSearch(q: string, page: Option<int>, result: Json) returns (r: Result<ToolResult>)
    ensures r == ProdResult(q, page, result)
  {
    var items := Get(result, "items", JArr([]));
    if items.Err? {
      return Err(items.error);
    }
    var n := Len(items.value);
    if n.Err? {
      return Err(n.error);
    }
    var count := Get(result, "Count", JInt(n.value));
    var text := RenderSearch(Display(count.value), items.value);
    if text.Err? {
      return Err(text.error);
    }
    var meta := ModeMeta("prod", [("query", JStr(q)), ("count", count.value), ("page", PageOr1(page))]);
    return Ok(ToolResult(Strip(text.value), result, meta));
  }

  /** Items after the fifth never reach the text. */
  lemma FirstFiveOnly(count: string, first: seq<Json>, rest: seq<Json>)
    requires |first| == Shown
    ensures SearchText(count, JArr(first + rest)) == SearchText(count, JArr(first))
  {
    assert (first + rest)[..Shown] == first;
    if rest == [] {
      assert first + rest == first;
    }
    assert Take(JArr(first + rest), Shown) == Ok(JArr(first));
    assert Take(JArr(first), Shown) == Ok(JArr(first));
  }

  /** The stripped text still begins with the count line, whatever the items render to. */
  lemma CountLineKept(count: string, items: Json)
    requires SearchText(count, items).Ok? && count != [] && !IsPySpace(count[|count| - 1])
    ensures StartsWith(Strip(SearchText(count, items).value), CountPrefix + count)
  {
    var head := CountPrefix + count;
    var t := SearchText(count, items).value;
    assert t[..|head|] == head;
    assert t == head + t[|head|..];
    assert head[0] == CountPrefix[0];
    assert head[|head| - 1] == count[|count| - 1];
    StripKeepsPrefix(head, t[|head|..]);
  }

  /** In test mode the count line and meta.count report every item, not only the ones listed. */
  lemma TestCountsAll(q: string, mock: Json, items: seq<Json>)
    requires mock.JObj? && Lookup(mock.fields, "items") == Some(JArr(items))
    requires TestResult(q, mock).Ok?
    ensures StartsWith(TestResult(q, mock).value.text, CountPrefix + NatToString(|items|))
    ensures TestResult(q, mock).value.meta.fields[2] == ("count", JInt(|items|))
  {
    TestCountLine(q, mock, items);
    TestCountMeta(q, mock, items);
  }

  lemma TestCountLine(q: string, mock: Json, items: seq<Json>)
    requires mock.JObj? && Lookup(mock.fields, "items") == Some(JArr(items))
    requires TestResult(q, mock).Ok?
    ensures StartsWith(TestResult(q, mock).value.text, CountPrefix + NatToString(|items|))
  {
    var count := NatToString(|items|);
    var text := SearchText(count, JArr(items));
    TestResultOf(q, mock, items);
    assert text.Ok? && TestResult(q, mock).value.text == Strip(text.value);
    DigitsEndNoSpace(count);
    CountLineKept(count, JArr(items));
  }

  lemma TestCountMeta(q: string, mock: Json, items: seq<Json>)
    requires mock.JObj? && Lookup(mock.fields, "items") == Some(JArr(items))
    requires TestResult(q, mock).Ok?
    ensures TestResult(q, mock).value.meta.fields[2] == ("count", JInt(|items|))
  {
    TestResultOf(q, mock, items);
    var meta := TestResult(q, mock).value.meta;
    assert meta.fields[1..][1] == meta.fields[2];
  }

  lemma TestResultOf(q: string, mock: Json, items: seq<Json>)
    requires mock.JObj? && Lookup(mock.fields, "items") == Some(JArr(items))
    ensures var text := SearchText(NatToString(|items|), JArr(items));
      TestResult(q, mock) ==
        if text.Ok? then Ok(ToolResult(Strip(text.value), mock, ModeMeta("test", [("query", JStr(q)), ("count", JInt(|items|))])))
        else Err(text.error)
  {
    assert Get(mock, "items", JArr([])) == Ok(JArr(items));
    assert Len(JArr(items)) == Ok(|items|);
  }

  /** Without "Count" in the answer, the API path counts the items it got. */
  lemma ProdCountFallback(q: string, page: Option<int>, result: Json, items: seq<Json>)
    requires result.JObj? && Lookup(result.fields, "items") == Some(JArr(items)) && "Count" !in Keys(result.fields)
    requires ProdResult(q, page, result).Ok?
    ensures ProdResult(q, page, result).value.meta.fields[2] == ("count", JInt(|items|))
    ensures ProdResult(q, page, result).value.meta.fields[3] == ("page", PageOr1(page))
  {
    assert Get(result, "items", JArr([])) == Ok(JArr(items));
    assert Get(result, "Count", JInt(|items|)) == Ok(JInt(|items|));
  }

  /** page and filter reach the query only when truthy; the token is always the key. */
  lemma SearchParamsOptional(q: string, token: string, page: Option<int>, filter: Option<string>)
    ensures SearchParams(q, token, page, filter)[..2] == [("q", JStr(q)), ("key", JStr(token))]
    ensures "page" in Keys(SearchParams(q, token, page, filter)) <==> page.Some? && page.value != 0
    ensures "filter" in Keys(SearchParams(q, token, page, filter)) <==> filter.Some? && filter.value != ""
  {
    var base := [("q", JStr(q)), ("key", JStr(token))];
    var withPage := AddIfTruthy(base, "page", OptInt(page));
    var ps := SearchParams(q, token, page, filter);
    assert Keys(base) == ["q", "key"];
    assert Keys(withPage) == Keys(base) + (if Truthy(OptInt(page)) then ["page"] else []);
    assert Keys(ps) == Keys(withPage) + (if Truthy(OptStr(filter)) then ["filter"] else []);
  }
}
