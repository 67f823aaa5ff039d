/**
 * `track_changes`: the register change history of a company or
 * entrepreneur, at most ten entries, optionally from a given date.
 */
module TrackChanges {
  import opened Wrappers
  import opened JsonValues
  import opened Strings
  import opened Common
  import opened Py
  import opened FnsUtils
  import opened FnsLookup

  const Generic: string := "Не удалось отследить изменения"
  const Header: string := "Изменения для компании:\n\n"
  const NoData: string := "Данные не найдены"
  const History: string := "История изменений:\n"
  const NoChanges: string := "Изменений не найдено"
  /** How many changes the text lists. */
  const Shown: nat := 10
  const NA: Json := JStr("N/A")

  /** `f"  - {izm.get('Дата')}: {izm.get('Тип')} - {izm.get('Текст')}\n"` */
  function ChangeLine(change: Json): Result<string> {
    var date :- Get(change, "Дата", NA);
    var kind :- Get(change, "Тип", NA);
    var text :- Get(change, "Текст", NA);
    Ok("  - " + Display(date) + ": " + Display(kind) + " - " + Display(text) + "\n")
  }

  /** `f"  - {key}: {value}\n"` */
  function PairLine(entry: (string, Json)): string {
    "  - " + entry.0 + ": " + Display(entry.1) + "\n"
  }

  function PairLines(entries: seq<(string, Json)>): string
    decreases |entries|
  {
    if entries == [] then "" else PairLines(entries[..|entries| - 1]) + PairLine(entries[|entries| - 1])
  }

  /**
   * The lines for the value of "Изменения". With `strict`, a list gives one
   * line per change, a dict one line per key and anything else "Изменений не
   * найдено"; without it (the test-mode ЮЛ branch) any truthy value is sliced and
   * iterated as if it were a list.
   */
  function ChangeList(changes: Json, strict: bool): Result<string> {
    if !Truthy(changes) then Ok(NoChanges)
    else if changes.JArr? || !strict then
      var shown :- Take(changes, Shown);
      var list :- Elements(shown);
      After(History, RenderAll(list, ChangeLine))
    else if changes.JObj? then
      var entries := changes.fields;
      Ok(History + PairLines(if |entries| <= Shown then entries else entries[..Shown]))
    else Ok(NoChanges)
  }

  /** One record: its INN and OGRN line, then its changes. */
  function RecordText(rec: Json, innKey: string, ogrnKey: string, strict: bool): Result<string> {
    var inn :- Get(rec, innKey, NA);
    var ogrn :- Get(rec, ogrnKey, NA);
    var changes :- Get(rec, "Изменения", JArr([]));
    After("ИНН: " + Display(inn) + ", ОГРН: " + Display(ogrn) + "\n\n", ChangeList(changes, strict))
  }

  /** The text before `strip()`; `strictUl` is false only for the test-mode ЮЛ branch. */
  function TrackText(payload: Json, strictUl: bool): Result<string> {
    var items :- Get(payload, "items", JArr([]));
    if !Truthy(items) then Ok(NoData)
    else
      var item :- First(items);
      var hasUl :- Has("ЮЛ", item);
      if hasUl then
        var ul :- Index(item, "ЮЛ");
        After(Header, RecordText(ul, "ИНН", "ОГРН", strictUl))
      else
        var hasIp :- Has("ИП", item);
        if hasIp then
          var ip :- Index(item, "ИП");
          After(Header, RecordText(ip, "ИННФЛ", "ОГРНИП", true))
        else Ok(Header)
  }

  lemma PairLinesSnoc(entries: seq<(string, Json)>, i: nat)
    requires i < |entries|
    ensures PairLines(entries[..i + 1]) == PairLines(entries[..i]) + PairLine(entries[i])
  {
    assert entries[..i + 1][..i] == entries[..i];
  }

  /** `for key, value in list(izmeneniya.items())[:10]: human_text += ...` */
  method AppendPairs(text: string, entries: seq<(string, Json)>) returns (humanText: string)
    ensures humanText == text + PairLines(entries)
  {
    humanText := text;
    var i := 0;
    while i < |entries|
      invariant i <= |entries|
      invariant humanText == text + PairLines(entries[..i])
    {
      PairLinesSnoc(entries, i);
      ConcatAssoc(text, PairLines(entries[..i]), PairLine(entries[i]));
      humanText := humanText + PairLine(entries[i]);
      i := i + 1;
    }
    assert entries[..|entries|] == entries;
  }

  method RenderChanges(changes: Json, strict: bool) returns (r: Result<string>)
    ensures r == ChangeList(changes, strict)
  {
    if !Truthy(changes) {
      return Ok(NoChanges);
    }
    if changes.JArr? || !strict {
      var shown := Take(changes, Shown);
      if shown.Err? {
        return Err(shown.error);
      }
      var list := Elements(shown.value);
      r := AppendAll(History, list.value, ChangeLine);
    } else if changes.JObj? {
      var entries := changes.fields;
      var text := AppendPairs(History, if |entries| <= Shown then entries else entries[..Shown]);
      r := Ok(text);
    } else {
      r := Ok(NoChanges);
    }
  }

  method RenderRecord(rec: Json, innKey: string, ogrnKey: string, strict: bool) returns (r: Result<string>)
    ensures r == RecordText(rec, innKey, ogrnKey, strict)
  {
    var inn := Get(rec, innKey, NA);
    if inn.Err? {
      return Err(inn.error);
    }
    var ogrn := Get(rec, ogrnKey, NA);
    var changes := Get(rec, "Изменения", JArr([]));
    var lines := RenderChanges(changes.value, strict);
    r := After("ИНН: " + Display(inn.value) + ", ОГРН: " + Display(ogrn.value) + "\n\n", lines);
  }

  method RenderTrack(payload: Json, strictUl: bool) returns (r: Result<string>)
    ensures r == TrackText(payload, strictUl)
  {
    var items := Get(payload, "items", JArr([]));
    if items.Err? {
      return Err(items.error);
    }
    if !Truthy(items.value) {
      return Ok(NoData);
    }
    var item := First(items.value);
    if item.Err? {
      return Err(item.error);
    }
    var hasUl := Has("ЮЛ", item.value);
    if hasUl.Err? {
      return Err(hasUl.error);
    }
    if hasUl.value {
      var ul := Index(item.value, "ЮЛ");
      if ul.Err? {
        return Err(ul.error);
      }
      var lines := RenderRecord(ul.value, "ИНН", "ОГРН", strictUl);
      return After(Header, lines);
    }
    var hasIp := Has("ИП", item.value);
    if hasIp.value {
      var ip := Index(item.value, "ИП");
      if ip.Err? {
        return Err(ip.error);
      }
      var lines := RenderRecord(ip.value, "ИННФЛ", "ОГРНИП", true);
      return After(Header, lines);
    }
    return Ok(Header);
  }

  function TrackMeta(mode: string, req: string, dat: Option<string>): Json {
    ModeMeta(mode, [("req", JStr(req)), ("dat", OptStr(dat))])
  }

  /** req and key, then dat only when given and non-empty. */
  function TrackParams(req: string, token: string, dat: Option<string>): seq<(string, Json)> {
    AddIfTruthy([("req", JStr(req)), ("key", JStr(token))], "dat", OptStr(dat))
  }

  /** `track_changes(req, dat)`; no free-mode gate. */
  method Track(env: Env, req: string, dat: Option<string>, mock: Json, reply: Reply)
    returns (r: Result<ToolResult>, request: Option<Request>)
    ensures !ApiMode(env) ==> request == None && r == Finish(TrackText(mock, false), mock, TrackMeta("test", req, dat))
    ensures ApiMode(env) && !EnvSet(env, TokenVar) ==> r == Err(TokenMissing()) && request == None
    ensures ApiMode(env) && EnvSet(env, TokenVar) ==>
      request == Some(ApiGet("changes", TrackParams(req, env[TokenVar], dat), 40.0)) &&
      (JsonBody(reply).Err? ==> r == Err(ApiFailure(JsonBody(reply).error, Generic))) &&
      (JsonBody(reply).Ok? ==>
         r == Guarded(Finish(TrackText(JsonBody(reply).value, true), JsonBody(reply).value, TrackMeta("prod", req, dat)), Generic))
  {
    if FnsMode(env) == "test" {
      var text := RenderTrack(mock, false);
      return Finish(text, mock, TrackMeta("test", req, dat)), None;
    }
    if !EnvSet(env, TokenVar) {
      return Err(TokenMissing()), None;
    }
    request := Some(ApiGet("changes", TrackParams(req, env[TokenVar], dat), 40.0));
    var result := JsonBody(reply);
    if result.Err? {
      return Err(ApiFailure(result.error, Generic)), request;
    }
    var text := RenderTrack(result.value, true);
    r := Guarded(Finish(text, result.value, TrackMeta("prod", req, dat)), Generic);
  }

  /** Changes after the tenth never reach the text, whether they come as a list ... */
  lemma FirstTenChanges(first: seq<Json>, rest: seq<Json>, strict: bool)
    requires |first| == Shown
    ensures ChangeList(JArr(first + rest), strict) == ChangeList(JArr(first), strict)
  {
    assert (first + rest)[..Shown] == first;
    if rest == [] {
      assert first + rest == first;
    }
    assert Take(JArr(first + rest), Shown) == Ok(JArr(first));
    assert Take(JArr(first), Shown) == Ok(JArr(first));
  }

  /** ... or as a dict. */
  lemma FirstTenEntries(first: seq<(string, Json)>, rest: seq<(string, Json)>)
    requires |first| == Shown
    ensures ChangeList(JObj(first + rest), true) == ChangeList(JObj(first), true)
    ensures ChangeList(JObj(first), true) == Ok(History + PairLines(first))
  {
    assert (first + rest)[..Shown] == first;
    if rest == [] {
      assert first + rest == first;
    }
  }

  /** A falsy value lists nothing; so does a truthy value that is neither list nor dict, outside the test-mode ЮЛ branch. */
  lemma NothingToList(changes: Json, strict: bool)
    requires !Truthy(changes) || (strict && !changes.JArr? && !changes.JObj?)
    ensures ChangeList(changes, strict) == Ok(NoChanges)
  {
  }

  /** The test-mode ЮЛ branch cannot render a dict of changes: slicing it raises TypeError. */
  lemma LenientBranchRejectsDict(entries: seq<(string, Json)>)
    requires entries != []
    ensures ChangeList(JObj(entries), false).Err?
    ensures ChangeList(JObj(entries), true).Ok?
  {
  }

  /** No items renders "Данные не найдены". */
  lemma NoItemsNoData(payload: Json, strictUl: bool)
    requires payload.JObj?
    requires Lookup(payload.fields, "items").None? || !Truthy(Lookup(payload.fields, "items").value)
    ensures TrackText(payload, strictUl) == Ok(NoData)
  {
  }

  /** dat reaches the query only when truthy, and the meta echoes the argument as given. */
  lemma DatOptional(req: string, token: string, dat: Option<string>, mode: string)
    ensures "dat" in Keys(TrackParams(req, token, dat)) <==> dat.Some? && dat.value != ""
    ensures TrackMeta(mode, req, dat).fields[2] == ("dat", if dat.Some? then JStr(dat.value) else JNull)
  {
    var ps := TrackParams(req, token, dat);
    if Truthy(OptStr(dat)) {
      assert Keys(ps)[2] == "dat";
    } else {
      assert Keys(ps) == ["req", "key"];
    }
  }
}
