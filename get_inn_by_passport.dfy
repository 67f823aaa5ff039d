/**
 * `get_inn_by_passport`: a person's INN looked up by full name, birth date
 * and identity document. The reply's first item either carries the INN,
 * carries an `error`, or neither; the three cases render differently.
 * The tool does not consult the free allow-list.
 */
module GetInnByPassport {
  import opened Wrappers
  import opened JsonValues
  import opened Strings
  import opened Common
  import opened Py
  import opened FnsUtils
  import opened FnsLookup

  const Generic: string := "Не удалось найти ИНН"
  const Found: string := "ИНН найден:\n\n"
  const NotFound: string := "ИНН не найден"
  const ErrorPrefix: string := "Ошибка: "
  /** The document kind of a Russian internal passport, used when `doctype` is None or empty. */
  const PassportDoctype: string := "21"

  /** The tool's arguments: surname, given name, patronymic, birth date, document number and kind. */
  datatype Person = Person(fam: string, nam: string, otch: string, bdate: string, docno: string, doctype: Option<string>)

  /** The found block, showing `docno` as the caller wrote it. */
  function FoundText(p: Person, inn: Json): string {
    Found + "ФИО: " + p.fam + " " + p.nam + " " + p.otch + "\n" + "Дата рождения: " + p.bdate + "\n" +
    "Документ: " + p.docno + "\n" + "ИНН: " + Display(inn)
  }

  /** The human text before `strip()`: the found block, the reported error, or "ИНН не найден". */
  function PassportText(p: Person, payload: Json): Result<string> {
    var items :- Get(payload, "items", JArr([]));
    if !Truthy(items) then Ok(NotFound)
    else
      var item :- First(items);
      var hasInn :- Has("ИНН", item);
      if hasInn then
        var inn :- Index(item, "ИНН");
        Ok(FoundText(p, inn))
      else
        var hasError :- Has("error", item);
        if hasError then
          var e :- Index(item, "error");
          Ok(ErrorPrefix + Display(e))
        else Ok(NotFound)
  }

  /** The successive `+=` updates of the found block. */
  method RenderFound(p: Person, inn: Json) returns (humanText: string)
    ensures humanText == FoundText(p, inn)
  {
    humanText := Found;
    humanText := humanText + "ФИО: " + p.fam + " " + p.nam + " " + p.otch + "\n";
    humanText := humanText + "Дата рождения: " + p.bdate + "\n";
    humanText := humanText + "Документ: " + p.docno + "\n";
    humanText := humanText + "ИНН: " + Display(inn);
  }

  method RenderPassport(p: Person, payload: Json) returns (r: Result<string>)
    ensures r == PassportText(p, payload)
  {
    var items := Get(payload, "items", JArr([]));
    if items.Err? {
      return Err(items.error);
    }
    if !Truthy(items.value) {
      return Ok(NotFound);
    }
    var item := First(items.value);
    if item.Err? {
      return Err(item.error);
    }
    var hasInn := Has("ИНН", item.value);
    if hasInn.Err? {
      return Err(hasInn.error);
    }
    if hasInn.value {
      var inn := Index(item.value, "ИНН");
      if inn.Err? {
        return Err(inn.error);
      }
      var text := RenderFound(p, inn.value);
      return Ok(text);
    }
    var hasError := Has("error", item.value);
    if hasError.value {
      var e := Index(item.value, "error");
      if e.Err? {
        return Err(e.error);
      }
      return Ok(ErrorPrefix + Display(e.value));
    }
    r := Ok(NotFound);
  }

  /** `doctype or "21"` */
  function Doctype(doctype: Option<string>): string {
    if doctype.None? || doctype.value == "" then PassportDoctype else doctype.value
  }

  /** The query: the name, birth date, the document number with its spaces removed, the document kind and the key. */
  function PassportParams(p: Person, token: string): seq<(string, Json)> {
    [("fam", JStr(p.fam)), ("nam", JStr(p.nam)), ("otch", JStr(p.otch)), ("bdate", JStr(p.bdate)),
     ("docno", JStr(RemoveSpaces(p.docno))), ("doctype", JStr(Doctype(p.doctype))), ("key", JStr(token))]
  }

  function PassportMeta(mode: string, p: Person): Json {
    ModeMeta(mode, [("fam", JStr(p.fam)), ("nam", JStr(p.nam))])
  }

  /** `get_inn_by_passport(fam, nam, otch, bdate, docno, doctype)` */
  method InnByPassport(env: Env, p: Person, mock: Json, reply: Reply) returns (r: Result<ToolResult>, request: Option<Request>)
    ensures FnsMode(env) == "test" ==> request == None && r == Finish(PassportText(p, mock), mock, PassportMeta("test", p))
    ensures ApiMode(env) && !EnvSet(env, TokenVar) ==> r == Err(TokenMissing()) && request == None
    ensures ApiMode(env) && EnvSet(env, TokenVar) ==>
      request == Some(ApiGet("innfl", PassportParams(p, env[TokenVar]), 40.0)) &&
      (JsonBody(reply).Err? ==> r == Err(ApiFailure(JsonBody(reply).error, Generic))) &&
      (JsonBody(reply).Ok? ==>
         r == Guarded(Finish(PassportText(p, JsonBody(reply).value), JsonBody(reply).value, PassportMeta("prod", p)), Generic))
  {
    request := None;
    if FnsMode(env) == "test" {
      var text := RenderPassport(p, mock);
      return Finish(text, mock, PassportMeta("test", p)), None;
    }
    if !EnvSet(env, TokenVar) {
      return Err(TokenMissing()), None;
    }
    request := Some(ApiGet("innfl", PassportParams(p, env[TokenVar]), 40.0));
    var result := JsonBody(reply);
    if result.Err? {
      return Err(ApiFailure(result.error, Generic)), request;
    }
    var text := RenderPassport(p, result.value);
    r := Guarded(Finish(text, result.value, PassportMeta("prod", p)), Generic);
  }

  /** The request carries the document number without spaces; the found block shows it as given. */
  lemma DocnoNormalised(p: Person, token: string, inn: Json)
    ensures PassportParams(p, token)[4] == ("docno", JStr(RemoveSpaces(p.docno)))
    ensures forall i :: 0 <= i < |RemoveSpaces(p.docno)| ==> RemoveSpaces(p.docno)[i] != ' '
    ensures IsSubstring("Документ: " + p.docno + "\n", FoundText(p, inn))
  {
    var before := Found + "ФИО: " + p.fam + " " + p.nam + " " + p.otch + "\n" + "Дата рождения: " + p.bdate + "\n";
    var line := "Документ: " + p.docno + "\n";
    var after := "ИНН: " + Display(inn);
    assert FoundText(p, inn) == before + line + after;
    SubstringOfConcat(before, line, after);
  }

  /** A missing or empty `doctype` is sent as "21"; any other value is sent as given. */
  lemma DoctypeDefault(p: Person, token: string)
    ensures PassportParams(p, token)[5] ==
      ("doctype", JStr(if p.doctype.None? || p.doctype.value == "" then PassportDoctype else p.doctype.value))
  {
  }

  /** A first item with `ИНН` renders the found block with that INN, even when it also has `error`. */
  lemma InnFirst(p: Person, payload: Json, items: seq<Json>, inn: Json)
    requires payload.JObj? && Lookup(payload.fields, "items") == Some(JArr(items)) && items != []
    requires items[0].JObj? && Lookup(items[0].fields, "ИНН") == Some(inn)
    ensures PassportText(p, payload) == Ok(FoundText(p, inn))
  {
    assert Get(payload, "items", JArr([])) == Ok(JArr(items));
    assert First(JArr(items)) == Ok(items[0]);
    assert Has("ИНН", items[0]) == Ok(true);
    assert Index(items[0], "ИНН") == Ok(inn);
  }

  /** Without `ИНН`, a first item with `error` renders "Ошибка: " and that error. */
  lemma ErrorSecond(p: Person, payload: Json, items: seq<Json>, e: Json)
    requires payload.JObj? && Lookup(payload.fields, "items") == Some(JArr(items)) && items != []
    requires items[0].JObj? && "ИНН" !in Keys(items[0].fields) && Lookup(items[0].fields, "error") == Some(e)
    ensures PassportText(p, payload) == Ok(ErrorPrefix + Display(e))
  {
    assert Get(payload, "items", JArr([])) == Ok(JArr(items));
    assert First(JArr(items)) == Ok(items[0]);
    assert Has("ИНН", items[0]) == Ok(false);
    assert Has("error", items[0]) == Ok(true);
    assert Index(items[0], "error") == Ok(e);
  }

  /** No items renders "ИНН не найден". */
  lemma NoItemsNotFound(p: Person, payload: Json)
    requires payload.JObj?
    requires var items := Lookup(payload.fields, "items"); items.None? || !Truthy(items.value)
    ensures PassportText(p, payload) == Ok(NotFound)
  {
  }

  /** A first item with neither `ИНН` nor `error` renders "ИНН не найден" too. */
  lemma NeitherKeyNotFound(p: Person, payload: Json, items: seq<Json>)
    requires payload.JObj? && Lookup(payload.fields, "items") == Some(JArr(items)) && items != []
    requires items[0].JObj? && "ИНН" !in Keys(items[0].fields) && "error" !in Keys(items[0].fields)
    ensures PassportText(p, payload) == Ok(NotFound)
  {
    assert Get(payload, "items", JArr([])) == Ok(JArr(items));
    assert First(JArr(items)) == Ok(items[0]);
    assert Has("ИНН", items[0]) == Ok(false);
    assert Has("error", items[0]) == Ok(false);
  }
}
