/**
 * `monitor_companies`: the api-fns.ru watch list (`list`, `add`, `del`,
 * `chd`, `chbo`). Only list, add and chd have a rendering of their own.
 */
module MonitorCompanies {
  import opened Wrappers
  import opened JsonValues
  import opened Strings
  import opened Common
  import opened Py
  import opened FnsUtils
  import opened FnsLookup

  const Generic: string := "Не удалось выполнить команду мониторинга"
  const ListPrefix: string := "Список компаний на мониторинге: "
  /** How many watched companies `list` shows. */
  const Shown: nat := 10
  const NA: Json := JStr("N/A")

  /** `list`: OGRN and INN of one watched company. */
  function ListLine(item: Json): Result<string> {
    var ogrn :- Get(item, "ОГРН", NA);
    var inn :- Get(item, "ИНН", NA);
    Ok("ОГРН: " + Display(ogrn) + ", ИНН: " + Display(inn) + "\n")
  }

  /** `add`: the outcome for one requested company. */
  function AddLines(item: Json): Result<string> {
    var ogrn :- Get(item, "ОГРН", NA);
    var outcome :- Get(item, "Результат", NA);
    Ok("ОГРН: " + Display(ogrn) + "\n" + "Результат: " + Display(outcome) + "\n")
  }

  /** `chd`: one change of a watched company. */
  function ChdLines(item: Json): Result<string> {
    var ogrn :- Get(item, "ОГРН", NA);
    var kind :- Get(item, "Тип", NA);
    var text :- Get(item, "Текст", NA);
    Ok("ОГРН: " + Display(ogrn) + "\n" + "Тип: " + Display(kind) + "\n" + "Текст: " + Display(text) + "\n\n")
  }

  /** `dat or 'N/A'` */
  function DatOrNA(dat: Option<string>): string {
    if dat.Some? && dat.value != "" then dat.value else "N/A"
  }

  function OtherText(cmd: string): string {
    "Команда " + cmd + " выполнена"
  }

  /** The text before `strip()` for the answer's "items". */
  function MonitorText(cmd: string, dat: Option<string>, items: Json): Result<string> {
    if cmd == "list" then
      var n :- Len(items);
      var shown :- Take(items, Shown);
      var list :- Elements(shown);
      After(ListPrefix + NatToString(n) + "\n\n", RenderAll(list, ListLine))
    else if cmd == "add" then
      var list :- Elements(items);
      After("Результат добавления:\n\n", RenderAll(list, AddLines))
    else if cmd == "chd" then
      var list :- Elements(items);
      After("Изменения на дату " + DatOrNA(dat) + ":\n\n", RenderAll(list, ChdLines))
    else Ok(OtherText(cmd))
  }

  method RenderMonitor(cmd: string, dat: Option<string>, items: Json) returns (r: Result<string>)
    ensures r == MonitorText(cmd, dat, items)
  {
    if cmd == "list" {
      var n := Len(items);
      if n.Err? {
        return Err(n.error);
      }
      var shown := Take(items, Shown);
      if shown.Err? {
        return Err(shown.error);
      }
      var list := Elements(shown.value);
      r := AppendAll(ListPrefix + NatToString(n.value) + "\n\n", list.value, ListLine);
    } else if cmd == "add" || cmd == "chd" {
      var list := Elements(items);
      if list.Err? {
        return Err(list.error);
      }
      if cmd == "add" {
        r := AppendAll("Результат добавления:\n\n", list.value, AddLines);
      } else {
        r := AppendAll("Изменения на дату " + DatOrNA(dat) + ":\n\n", list.value, ChdLines);
      }
    } else {
      r := Ok(OtherText(cmd));
    }
  }

  /** The three test-mode payloads, for `list`, `add` and `chd`. */
  datatype Mocks = Mocks(list: Json, add: Json, chd: Json)

  /** The test-mode payload for a command: its mock, or `{"items": []}` for any other command. */
  function TestPayload(cmd: string, mocks: Mocks): Json {
    if cmd == "list" then mocks.list
    else if cmd == "add" then mocks.add
    else if cmd == "chd" then mocks.chd
    else JObj([("items", JArr([]))])
  }

  /** In test mode another command renders without reading any payload. */
  function TestText(cmd: string, dat: Option<string>, mocks: Mocks): Result<string> {
    if cmd == "list" || cmd == "add" || cmd == "chd" then
      var items :- Get(TestPayload(cmd, mocks), "items", JArr([]));
      MonitorText(cmd, dat, items)
    else Ok(OtherText(cmd))
  }

  /** The API answer's "items" is read for every command, before the command is looked at. */
  function ProdText(cmd: string, dat: Option<string>, result: Json): Result<string> {
    var items :- Get(result, "items", JArr([]));
    MonitorText(cmd, dat, items)
  }

  function CmdMeta(mode: string, cmd: string): Json {
    ModeMeta(mode, [("cmd", JStr(cmd))])
  }

  /** cmd and key, then req, dat, year, type and page, each only when truthy. */
  function MonitorParams(cmd: string, token: string, req: Option<string>, dat: Option<string>,
                         year: Option<int>, kind: Option<string>, page: Option<int>): seq<(string, Json)> {
    var ps := [("cmd", JStr(cmd)), ("key", JStr(token))];
    var ps := AddIfTruthy(ps, "req", OptStr(req));
    var ps := AddIfTruthy(ps, "dat", OptStr(dat));
    var ps := AddIfTruthy(ps, "year", OptInt(year));
    var ps := AddIfTruthy(ps, "type", OptStr(kind));
    AddIfTruthy(ps, "page", OptInt(page))
  }

  /** `monitor_companies(cmd, req, dat, year, type, page)`; no free-mode gate. */
  method Monitor(env: Env, cmd: string, req: Option<string>, dat: Option<string>, year: Option<int>,
                 kind: Option<string>, page: Option<int>, mocks: Mocks, reply: Reply)
    returns (r: Result<ToolResult>, request: Option<Request>)
    ensures !ApiMode(env) ==>
      request == None && r == Finish(TestText(cmd, dat, mocks), TestPayload(cmd, mocks), CmdMeta("test", cmd))
    ensures ApiMode(env) && !EnvSet(env, TokenVar) ==> r == Err(TokenMissing()) && request == None
    ensures ApiMode(env) && EnvSet(env, TokenVar) ==>
      request == Some(ApiGet("mon", MonitorParams(cmd, env[TokenVar], req, dat, year, kind, page), 40.0)) &&
      (JsonBody(reply).Err? ==> r == Err(ApiFailure(JsonBody(reply).error, Generic))) &&
      (JsonBody(reply).Ok? ==>
         r == Guarded(Finish(ProdText(cmd, dat, JsonBody(reply).value), JsonBody(reply).value, CmdMeta("prod", cmd)), Generic))
  {
    if FnsMode(env) == "test" {
      var payload := TestPayload(cmd, mocks);
      var text: Result<string>;
      if cmd == "list" || cmd == "add" || cmd == "chd" {
        var items := Get(payload, "items", JArr([]));
        if items.Err? {
          text := Err(items.error);
        } else {
          text := RenderMonitor(cmd, dat, items.value);
        }
      } else {
        text := Ok(OtherText(cmd));
      }
      return Finish(text, payload, CmdMeta("test", cmd)), None;
    }
    if !EnvSet(env, TokenVar) {
      return Err(TokenMissing()), None;
    }
    request := Some(ApiGet("mon", MonitorParams(cmd, env[TokenVar], req, dat, year, kind, page), 40.0));
    var result := JsonBody(reply);
    if result.Err? {
      return Err(ApiFailure(result.error, Generic)), request;
    }
    var items := Get(result.value, "items", JArr([]));
    var text: Result<string>;
    if items.Err? {
      text := Err(items.error);
    } else {
      text := RenderMonitor(cmd, dat, items.value);
    }
    r := Guarded(Finish(text, result.value, CmdMeta("prod", cmd)), Generic);
  }

  /** `list` shows at most ten companies, while its header counts them all. */
  lemma ListShowsTen(dat: Option<string>, first: seq<Json>, rest: seq<Json>)
    requires |first| == Shown
    ensures MonitorText("list", dat, JArr(first + rest)).Ok? ==>
      MonitorText("list", dat, JArr(first + rest)) ==
      After(ListPrefix + NatToString(|first + rest|) + "\n\n", RenderAll(first, ListLine))
  {
    assert (first + rest)[..Shown] == first;
    if rest == [] {
      assert first + rest == first;
    }
    assert Take(JArr(first + rest), Shown) == Ok(JArr(first));
  }

  /** Any other command renders "Команда {cmd} выполнена", whatever the items. */
  lemma OtherCommand(cmd: string, dat: Option<string>, items: Json, mocks: Mocks)
    requires cmd != "list" && cmd != "add" && cmd != "chd"
    ensures MonitorText(cmd, dat, items) == Ok(OtherText(cmd))
    ensures TestText(cmd, dat, mocks) == Ok(OtherText(cmd))
    ensures TestPayload(cmd, mocks) == JObj([("items", JArr([]))])
  {
  }

  /** The chd header shows dat, or "N/A" when it is missing or empty. */
  lemma ChdHeader(dat: Option<string>, items: seq<Json>)
    requires RenderAll(items, ChdLines).Ok?
    ensures MonitorText("chd", dat, JArr(items)) ==
      Ok("Изменения на дату " + (if dat.Some? && dat.value != "" then dat.value else "N/A") + ":\n\n"
         + RenderAll(items, ChdLines).value)
  {
  }

  /**
   * The query always leads with cmd and key; each optional argument follows,
   * in the order req, dat, year, type, page, exactly when it is truthy.
   */
  lemma MonitorParamsOptional(cmd: string, token: string, req: Option<string>, dat: Option<string>,
                              year: Option<int>, kind: Option<string>, page: Option<int>)
    ensures var ps := MonitorParams(cmd, token, req, dat, year, kind, page);
      |ps| >= 2 && ps[..2] == [("cmd", JStr(cmd)), ("key", JStr(token))] &&
      Keys(ps) == ["cmd", "key"] + Flag("req", OptStr(req)) + Flag("dat", OptStr(dat)) + Flag("year", OptInt(year)) +
        Flag("type", OptStr(kind)) + Flag("page", OptInt(page))
  {
    var p0 := [("cmd", JStr(cmd)), ("key", JStr(token))];
    var p1 := AddIfTruthy(p0, "req", OptStr(req));
    var p2 := AddIfTruthy(p1, "dat", OptStr(dat));
    var p3 := AddIfTruthy(p2, "year", OptInt(year));
    var p4 := AddIfTruthy(p3, "type", OptStr(kind));
    assert Keys(p0) == ["cmd", "key"];
    Appended(p0, "req", OptStr(req));
    Appended(p1, "dat", OptStr(dat));
    Appended(p2, "year", OptInt(year));
    Appended(p3, "type", OptStr(kind));
    Appended(p4, "page", OptInt(page));
    MonitorHead(cmd, token, req, dat, year, kind, page);
  }

  lemma MonitorHead(cmd: string, token: string, req: Option<string>, dat: Option<string>,
                    year: Option<int>, kind: Option<string>, page: Option<int>)
    ensures var ps := MonitorParams(cmd, token, req, dat, year, kind, page);
      |ps| >= 2 && ps[..2] == [("cmd", JStr(cmd)), ("key", JStr(token))]
  {
    var p0 := [("cmd", JStr(cmd)), ("key", JStr(token))];
    var p1 := AddIfTruthy(p0, "req", OptStr(req));
    var p2 := AddIfTruthy(p1, "dat", OptStr(dat));
    var p3 := AddIfTruthy(p2, "year", OptInt(year));
    var p4 := AddIfTruthy(p3, "type", OptStr(kind));
    var p5 := AddIfTruthy(p4, "page", OptInt(page));
    Appended(p0, "req", OptStr(req));
    Appended(p1, "dat", OptStr(dat));
    Appended(p2, "year", OptInt(year));
    Appended(p3, "type", OptStr(kind));
    Appended(p4, "page", OptInt(page));
    Prefixed(p0, p1, p2, p3, p4, p5);
  }

  /** The key `AddIfTruthy` contributes: the key itself when the value is truthy, nothing otherwise. */
  function Flag(key: string, value: Json): (ks: seq<string>)
    ensures key in ks <==> Truthy(value)
    ensures forall k :: k in ks ==> k == key
  {
    if Truthy(value) then [key] else []
  }

  lemma Appended(ps: seq<(string, Json)>, key: string, value: Json)
    ensures |ps| <= |AddIfTruthy(ps, key, value)| && AddIfTruthy(ps, key, value)[..|ps|] == ps
    ensures Keys(AddIfTruthy(ps, key, value)) == Keys(ps) + Flag(key, value)
  {
  }

  lemma Prefixed(p0: seq<(string, Json)>, p1: seq<(string, Json)>, p2: seq<(string, Json)>,
                 p3: seq<(string, Json)>, p4: seq<(string, Json)>, p5: seq<(string, Json)>)
    requires |p0| == 2
    requires |p0| <= |p1| <= |p2| <= |p3| <= |p4| <= |p5|
    requires p1[..|p0|] == p0 && p2[..|p1|] == p1 && p3[..|p2|] == p2 && p4[..|p3|] == p3 && p5[..|p4|] == p4
    ensures p5[..2] == p0
  {
    assert p5[..2] == p4[..2] == p3[..2] == p2[..2] == p1[..2];
  }
}
