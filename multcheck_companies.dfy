/**
 * `multcheck_companies`: a basic check of up to a hundred companies at once;
 * the API answers only with the problematic ones, and every one is listed.
 */
module MultcheckCompanies {
  import opened Wrappers
  import opened JsonValues
  import opened Strings
  import opened Common
  import opened Py
  import opened FnsUtils
  import opened FnsLookup

  const Generic: string := "Не удалось проверить группу компаний"
  const CountPrefix: string := "Найдено проблемных компаний: "
  const NoProblems: string := "Проблемных компаний не найдено"
  const ClosedPrefix: string := "Дата прекращения: "
  const NA: Json := JStr("N/A")

  /** Name, INN and OGRN, status: the lines every listed company gets. */
  function CardLines(heading: string, nameKey: string, innKey: string, ogrnKey: string, rec: Json): Result<string> {
    var name :- Get(rec, nameKey, NA);
    var inn :- Get(rec, innKey, NA);
    var ogrn :- Get(rec, ogrnKey, NA);
    var status :- Get(rec, "Статус", NA);
    Ok(heading + Display(name) + "\n" + "ИНН: " + Display(inn) + ", ОГРН: " + Display(ogrn) + "\n"
       + "Статус: " + Display(status) + "\n")
  }

  /** The card, with a closing-date line only when the record has "ДатаПрекр", and a blank line after it. */
  function Card(heading: string, nameKey: string, innKey: string, ogrnKey: string, rec: Json): Result<string> {
    var lines :- CardLines(heading, nameKey, innKey, ogrnKey, rec);
    var closed :- Has("ДатаПрекр", rec);
    if closed then
      var date :- Get(rec, "ДатаПрекр", NA);
      Ok(lines + ClosedPrefix + Display(date) + "\n" + "\n")
    else Ok(lines + "\n")
  }

  function ItemText(item: Json): Result<string> {
    var hasUl :- Has("ЮЛ", item);
    if hasUl then
      var ul :- Index(item, "ЮЛ");
      Card("⚠️ ЮЛ: ", "НаимСокрЮЛ", "ИНН", "ОГРН", ul)
    else
      var hasIp :- Has("ИП", item);
      if hasIp then
        var ip :- Index(item, "ИП");
        Card("⚠️ ИП: ", "ФИОПолн", "ИННФЛ", "ОГРНИП", ip)
      else Ok("")
  }

  /** The text before `strip()`: every item under the count line, or the "none found" line for no items. */
  function MultcheckText(items: Json): Result<string> {
    var n :- Len(items);
    var list :- Elements(items);
    var text :- After(CountPrefix + NatToString(n) + "\n\n", RenderAll(list, ItemText));
    if n == 0 then Ok(NoProblems) else Ok(text)
  }

  method RenderMultcheck(items: Json) returns (r: Result<string>)
    ensures r == MultcheckText(items)
  {
    var n := Len(items);
    if n.Err? {
      return Err(n.error);
    }
    var list := Elements(items);
    var text := AppendAll(CountPrefix + NatToString(n.value) + "\n\n", list.value, ItemText);
    if text.Err? {
      return Err(text.error);
    }
    if n.value == 0 {
      return Ok(NoProblems);
    }
    return text;
  }

  /** The payload rendered, with meta.count = `len(items)`. */
  function Outcome(mode: string, req: string, payload: Json): Result<ToolResult> {
    var items :- Get(payload, "items", JArr([]));
    var n :- Len(items);
    var text :- MultcheckText(items);
    Ok(ToolResult(Strip(text), payload, ModeMeta(mode, [("req", JStr(req)), ("count", JInt(n))])))
  }

  method Render(mode: string, req: string, payload: Json) returns (r: Result<ToolResult>)
    ensures r == Outcome(mode, req, payload)
  {
    var items := Get(payload, "items", JArr([]));
    if items.Err? {
      return Err(items.error);
    }
    var text := RenderMultcheck(items.value);
    if text.Err? {
      return Err(text.error);
    }
    var n := Len(items.value);
    return Ok(ToolResult(Strip(text.value), payload, ModeMeta(mode, [("req", JStr(req)), ("count", JInt(n.value))])));
  }

  /** `multcheck_companies(req)`; no free-mode gate. */
  method Multcheck(env: Env, req: string, mock: Json, reply: Reply)
    returns (r: Result<ToolResult>, request: Option<Request>)
    ensures !ApiMode(env) ==> request == None && r == Outcome("test", req, mock)
    ensures ApiMode(env) && !EnvSet(env, TokenVar) ==> r == Err(TokenMissing()) && request == None
    ensures ApiMode(env) && EnvSet(env, TokenVar) ==>
      request == Some(ApiGet("multcheck", [("req", JStr(req)), ("key", JStr(env[TokenVar]))], 40.0)) &&
      (JsonBody(reply).Err? ==> r == Err(ApiFailure(JsonBody(reply).error, Generic))) &&
      (JsonBody(reply).Ok? ==> r == Guarded(Outcome("prod", req, JsonBody(reply).value), Generic))
  {
    if FnsMode(env) == "test" {
      r := Render("test", req, mock);
      return r, None;
    }
    if !EnvSet(env, TokenVar) {
      return Err(TokenMissing()), None;
    }
    request := Some(ApiGet("multcheck", [("req", JStr(req)), ("key", JStr(env[TokenVar]))], 40.0));
    var result := JsonBody(reply);
    if result.Err? {
      return Err(ApiFailure(result.error, Generic)), request;
    }
    r := Render("prod", req, result.value);
    r := Guarded(r, Generic);
  }

  /** Every item is rendered, with no cap, under a count of all of them. */
  lemma AllItemsListed(items: seq<Json>)
    requires items != [] && RenderAll(items, ItemText).Ok?
    ensures MultcheckText(JArr(items)) == Ok(CountPrefix + NatToString(|items|) + "\n\n" + RenderAll(items, ItemText).value)
  {
    MultcheckOfList(JArr(items));
  }

  lemma MultcheckOfList(v: Json)
    requires v.JArr? && v.items != []
    ensures MultcheckText(v) == After(CountPrefix + NatToString(|v.items|) + "\n\n", RenderAll(v.items, ItemText))
  {
  }

  /** With no items at all the whole text is the "none found" line. */
  lemma NoItemsNoProblems(items: Json)
    requires items == JArr([]) || items == JObj([]) || items == JStr("")
    ensures MultcheckText(items) == Ok(NoProblems)
  {
  }

  /** The closing-date line is there exactly when the record has "ДатаПрекр". */
  lemma ClosingDateLine(heading: string, nameKey: string, innKey: string, ogrnKey: string, rec: Json)
    requires rec.JObj?
    ensures var card := Card(heading, nameKey, innKey, ogrnKey, rec);
      card.Ok? &&
      ("ДатаПрекр" in Keys(rec.fields) ==> IsSubstring(ClosedPrefix, card.value)) &&
      ("ДатаПрекр" !in Keys(rec.fields) ==> card.value == CardLines(heading, nameKey, innKey, ogrnKey, rec).value + "\n")
  {
    CardOfObject(heading, nameKey, innKey, ogrnKey, rec);
    var lines := CardLines(heading, nameKey, innKey, ogrnKey, rec).value;
    if "ДатаПрекр" in Keys(rec.fields) {
      ClosedCardText(lines, Display(Get(rec, "ДатаПрекр", NA).value));
    }
  }

  lemma ClosedCardText(lines: string, date: string)
    ensures IsSubstring(ClosedPrefix, lines + ClosedPrefix + date + "\n" + "\n")
  {
    SubstringOfConcat(lines, ClosedPrefix, date + "\n" + "\n");
    assert lines + ClosedPrefix + date + "\n" + "\n" == lines + ClosedPrefix + (date + "\n" + "\n");
  }

  lemma CardOfObject(heading: string, nameKey: string, innKey: string, ogrnKey: string, rec: Json)
    requires rec.JObj?
    ensures CardLines(heading, nameKey, innKey, ogrnKey, rec).Ok?
    ensures var lines := CardLines(heading, nameKey, innKey, ogrnKey, rec).value;
      Card(heading, nameKey, innKey, ogrnKey, rec) ==
        if "ДатаПрекр" in Keys(rec.fields) then Ok(lines + ClosedPrefix + Display(Get(rec, "ДатаПрекр", NA).value) + "\n" + "\n")
        else Ok(lines + "\n")
  {
    assert Has("ДатаПрекр", rec) == Ok("ДатаПрекр" in Keys(rec.fields));
  }

  /** meta.count is `len(items)` in both modes. */
  lemma CountIsLength(mode: string, req: string, payload: Json, items: seq<Json>)
    requires payload.JObj? && Lookup(payload.fields, "items") == Some(JArr(items))
    requires Outcome(mode, req, payload).Ok?
    ensures Outcome(mode, req, payload).value.meta.fields[2] == ("count", JInt(|items|))
  {
    assert Get(payload, "items", JArr([])) == Ok(JArr(items));
  }
}
