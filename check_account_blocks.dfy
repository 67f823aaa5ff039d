/**
 * `check_account_blocks` and `check_account_blocks_file`: the FNS decisions
 * suspending operations on a taxpayer's bank accounts, as a rendered list or
 * as the signed ZIP file. Neither tool is on the free allow-list.
 */
module CheckAccountBlocks {
  import opened Wrappers
  import opened JsonValues
  import opened Strings
  import opened Common
  import Base64
  import opened Py
  import opened FnsUtils
  import opened FnsLookup

  const ToolName: string := "check_account_blocks"
  const FileToolName: string := "check_account_blocks_file"
  const Generic: string := "Не удалось проверить блокировки счета"
  const FileGeneric: string := "Не удалось получить файл блокировок счета"
  const NoData: string := "Данные не найдены"
  const NoBlocks: string := "✅ Блокировок счетов не найдено"
  const BlocksFound: string := "❌ Найдены блокировки счетов:\n"
  const HeaderPrefix: string := "Проверка блокировок счета для ИНН: "

  function Header(inn: string): string {
    HeaderPrefix + inn + "\n\n"
  }

  /** `f"  - {blok}\n"` */
  function BlockLine(block: Json): string {
    "  - " + Display(block) + "\n"
  }

  /** The lines the loop appends, one per block, in order. */
  function BlockLines(blocks: seq<Json>): string
    decreases |blocks|
  {
    if blocks == [] then "" else BlockLines(blocks[..|blocks| - 1]) + BlockLine(blocks[|blocks| - 1])
  }

  lemma BlockLinesSnoc(blocks: seq<Json>, i: nat)
    requires i < |blocks|
    ensures BlockLines(blocks[..i + 1]) == BlockLines(blocks[..i]) + BlockLine(blocks[i])
  {
    assert blocks[..i + 1][..i] == blocks[..i];
  }

  /** `text` extended by what one ЮЛ or ИП record says about its blocks, or the exception that raises. */
  function SubjectText(text: string, subject: Json): Result<string> {
    var negativ :- Get(subject, "Негатив", JObj([]));
    if !Truthy(negativ) then Ok(text + NoBlocks)
    else
      var blocks :- Get(negativ, "БлокировкиСчетов", JArr([]));
      if !Truthy(blocks) then Ok(text + NoBlocks)
      else
        var list :- Elements(blocks);
        Ok(text + BlocksFound + BlockLines(list))
  }

  /** The human text before `strip()`: the first item's ЮЛ record, else its ИП record. */
  function BlocksText(inn: string, payload: Json): Result<string> {
    var items :- Get(payload, "items", JArr([]));
    if !Truthy(items) then Ok(NoData)
    else
      var item :- First(items);
      var hasUl :- Has("ЮЛ", item);
      if hasUl then
        var ul :- Index(item, "ЮЛ");
        SubjectText(Header(inn), ul)
      else
        var hasIp :- Has("ИП", item);
        if hasIp then
          var ip :- Index(item, "ИП");
          SubjectText(Header(inn), ip)
        else Ok(Header(inn))
  }

  /** The `+=` rendering of one record, loop over the blocks included. */
  method RenderSubject(text: string, subject: Json) returns (r: Result<string>)
    ensures r == SubjectText(text, subject)
  {
    var negativ := Get(subject, "Негатив", JObj([]));
    if negativ.Err? {
      return Err(negativ.error);
    }
    if !Truthy(negativ.value) {
      return Ok(text + NoBlocks);
    }
    var blocks := Get(negativ.value, "БлокировкиСчетов", JArr([]));
    if blocks.Err? {
      return Err(blocks.error);
    }
    if !Truthy(blocks.value) {
      return Ok(text + NoBlocks);
    }
    var list := Elements(blocks.value);
    if list.Err? {
      return Err(list.error);
    }
    var humanText := AppendBlockLines(text + BlocksFound, list.value);
    return Ok(humanText);
  }

  /** `for blok in blokirovki: human_text += f"  - {blok}\n"` */
  method AppendBlockLines(text: string, blocks: seq<Json>) returns (humanText: string)
    ensures humanText == text + BlockLines(blocks)
  {
    humanText := text;
    var i := 0;
    while i < |blocks|
      invariant i <= |blocks|
      invariant humanText == text + BlockLines(blocks[..i])
    {
      BlockLinesSnoc(blocks, i);
      ConcatAssoc(text, BlockLines(blocks[..i]), BlockLine(blocks[i]));
      humanText := humanText + BlockLine(blocks[i]);
      i := i + 1;
    }
    assert blocks[..|blocks|] == blocks;
  }

  method RenderBlocks(inn: string, payload: Json) returns (r: Result<string>)
    ensures r == BlocksText(inn, payload)
  {
    var items := Get(payload, "items", JArr([]));
    if items.Err? {
      return Err(items.error);
    }
    if !Truthy(items.value) {
      return Ok(NoData);
    }
    var item := First(items.value);
    if item.Err? {
      return Err(item.error);
    }
    var hasUl := Has("ЮЛ", item.value);
    if hasUl.Err? {
      return Err(hasUl.error);
    }
    if hasUl.value {
      var ul := Index(item.value, "ЮЛ");
      if ul.Err? {
        return Err(ul.error);
      }
      r := RenderSubject(Header(inn), ul.value);
      return;
    }
    var hasIp := Has("ИП", item.value);
    if hasIp.value {
      var ip := Index(item.value, "ИП");
      if ip.Err? {
        return Err(ip.error);
      }
      r := RenderSubject(Header(inn), ip.value);
      return;
    }
    return Ok(Header(inn));
  }

  function InnMeta(mode: string, inn: string): Json {
    ModeMeta(mode, [("inn", JStr(inn))])
  }

  function BlocksRequest(inn: string, token: string): Request {
    ApiGet("nalogbi", [("inn", JStr(inn)), ("key", JStr(token))], 40.0)
  }

  /**
   * `check_account_blocks(inn)`, given the environment, the test-mode mock
   * payload and what the API answers; also returns the request it issues.
   */
  method CheckBlocks(env: Env, inn: string, mock: Json, reply: Reply)
    returns (r: Result<ToolResult>, request: Option<Request>)
    ensures FnsMode(env) == "free" ==> r == Err(FreeModeDenied(ToolName)) && request == None
    ensures FnsMode(env) == "test" ==> request == None && r == Finish(BlocksText(inn, mock), mock, InnMeta("test", inn))
    ensures FnsMode(env) != "free" && ApiMode(env) && !EnvSet(env, TokenVar) ==> r == Err(TokenMissing()) && request == None
    ensures FnsMode(env) != "free" && ApiMode(env) && EnvSet(env, TokenVar) ==>
      request == Some(BlocksRequest(inn, env[TokenVar])) &&
      (reply.Response? && !IsSuccess(reply.status) ==> r == Err(ApiStatusError(reply.status))) &&
      (JsonBody(reply).Err? && !JsonBody(reply).error.HttpStatusError? ==> r == Err(McpError(InternalError, Generic))) &&
      (JsonBody(reply).Ok? ==>
         r == Guarded(Finish(BlocksText(inn, JsonBody(reply).value), JsonBody(reply).value, InnMeta("prod", inn)), Generic))
  {
    request := None;
    AllowListContents();
    var allowed := EnsureAllowedInFree(env, ToolName);
    if allowed.Err? {
      return Err(allowed.error), None;
    }
    if FnsMode(env) == "test" {
      var text := RenderBlocks(inn, mock);
      return Finish(text, mock, InnMeta("test", inn)), None;
    }
    if !EnvSet(env, TokenVar) {
      return Err(TokenMissing()), None;
    }
    request := Some(BlocksRequest(inn, env[TokenVar]));
    var result := JsonBody(reply);
    if result.Err? {
      return Err(ApiFailure(result.error, Generic)), request;
    }
    var text := RenderBlocks(inn, result.value);
    r := Guarded(Finish(text, result.value, InnMeta("prod", inn)), Generic);
  }

  const FileFormatLine: string := "Формат: ZIP (содержит PDF и подпись SIG)\n"
  const FileHeaderPrefix: string := "Файл блокировок счета для ИНН: "
  const TestFileSize: string := "тестовый файл"

  /** The three lines of the file summary; `size` is what follows "Размер: ". */
  function FileText(inn: string, size: string): string {
    FileHeaderPrefix + inn + "\n" + FileFormatLine + "Размер: " + size
  }

  /** The query of the file request: inn and key, then bik only when it is given and non-empty. */
  function FileParams(inn: string, token: string, bik: Option<string>): seq<(string, Json)> {
    AddIfTruthy([("inn", JStr(inn)), ("key", JStr(token))], "bik", OptStr(bik))
  }

  /** The `+=` construction of the summary and its `strip()`. */
  method FileSummary(inn: string, size: string) returns (text: string)
    requires size != [] && !IsPySpace(size[|size| - 1])
    ensures text == FileText(inn, size)
  {
    var humanText := FileHeaderPrefix + inn + "\n";
    humanText := humanText + FileFormatLine;
    humanText := humanText + "Размер: " + size;
    FileTextStripped(inn, size);
    text := Strip(humanText);
  }

  lemma FileParamsBik(inn: string, token: string, bik: Option<string>)
    ensures FileParams(inn, token, bik)[..2] == [("inn", JStr(inn)), ("key", JStr(token))]
    ensures "bik" in Keys(FileParams(inn, token, bik)) <==> bik.Some? && bik.value != ""
    ensures bik.Some? && bik.value != "" ==> FileParams(inn, token, bik)[2] == ("bik", JStr(bik.value))
  {
    var ps := FileParams(inn, token, bik);
    if bik.Some? && bik.value != "" {
      assert Keys(ps)[2] == "bik";
    } else {
      assert Keys(ps) == ["inn", "key"];
    }
  }

  /** The summary has no whitespace at either end, so `strip()` leaves it as built. */
  lemma FileTextStripped(inn: string, size: string)
    requires size != [] && !IsPySpace(size[|size| - 1])
    ensures Strip(FileText(inn, size)) == FileText(inn, size)
  {
    var s := FileText(inn, size);
    assert s[0] == FileHeaderPrefix[0];
    assert s[|s| - 1] == size[|size| - 1];
    StripUnchanged(s);
  }

  function FileStructured(fileBase64: string, inn: string): Json {
    JObj([("file_base64", JStr(fileBase64)), ("file_type", JStr("zip")), ("inn", JStr(inn))])
  }

  /** `check_account_blocks_file(inn, bik)`: the base64 of the downloaded ZIP and its size in bytes. */
  method CheckBlocksFile(env: Env, inn: string, bik: Option<string>, mockFile: string, reply: Reply)
    returns (r: Result<ToolResult>, request: Option<Request>)
    ensures FnsMode(env) == "free" ==> r == Err(FreeModeDenied(FileToolName)) && request == None
    ensures FnsMode(env) == "test" ==>
      request == None && r == Ok(ToolResult(FileText(inn, TestFileSize), FileStructured(mockFile, inn), InnMeta("test", inn)))
    ensures FnsMode(env) != "free" && ApiMode(env) && !EnvSet(env, TokenVar) ==> r == Err(TokenMissing()) && request == None
    ensures FnsMode(env) != "free" && ApiMode(env) && EnvSet(env, TokenVar) ==>
      request == Some(ApiGet("nalogbi_file", FileParams(inn, env[TokenVar], bik), 60.0)) &&
      (reply.Response? && !IsSuccess(reply.status) ==> r == Err(ApiStatusError(reply.status))) &&
      (reply.TransportFailure? ==> r == Err(McpError(InternalError, FileGeneric))) &&
      (reply.Response? && IsSuccess(reply.status) ==>
         r == Ok(ToolResult(FileText(inn, NatToString(|reply.content|) + " байт"),
                            JObj(FileStructured(Base64.Encode(reply.content), inn).fields + [("size_bytes", JInt(|reply.content|))]),
                            InnMeta("prod", inn))))
  {
    AllowListContents();
    var allowed := EnsureAllowedInFree(env, FileToolName);
    if allowed.Err? {
      return Err(allowed.error), None;
    }
    if FnsMode(env) == "test" {
      var text := FileSummary(inn, TestFileSize);
      return Ok(ToolResult(text, FileStructured(mockFile, inn), InnMeta("test", inn))), None;
    }
    if !EnvSet(env, TokenVar) {
      return Err(TokenMissing()), None;
    }
    request := Some(ApiGet("nalogbi_file", FileParams(inn, env[TokenVar], bik), 60.0));
    var content := ContentBody(reply);
    if content.Err? {
      return Err(ApiFailure(content.error, FileGeneric)), request;
    }
    var fileData := content.value;
    var fileBase64 := Base64.Encode(fileData);
    var text := FileSummary(inn, NatToString(|fileData|) + " байт");
    var structured := JObj(FileStructured(fileBase64, inn).fields + [("size_bytes", JInt(|fileData|))]);
    r := Ok(ToolResult(text, structured, InnMeta("prod", inn)));
  }

  /** No items (or an empty or false `items`) renders "Данные не найдены". */
  lemma NoItemsNoData(inn: string, payload: Json)
    requires payload.JObj?
    requires Lookup(payload.fields, "items").None? || !Truthy(Lookup(payload.fields, "items").value)
    ensures BlocksText(inn, payload) == Ok(NoData)
  {
  }

  /** The ЮЛ record is used whenever the first item has one, whatever else it holds. */
  lemma UlFirst(inn: string, payload: Json, items: seq<Json>)
    requires payload.JObj? && Lookup(payload.fields, "items") == Some(JArr(items)) && items != []
    requires items[0].JObj? && "ЮЛ" in Keys(items[0].fields)
    ensures BlocksText(inn, payload) == SubjectText(Header(inn), Lookup(items[0].fields, "ЮЛ").value)
  {
    assert Get(payload, "items", JArr([])) == Ok(JArr(items));
    assert Has("ЮЛ", items[0]) == Ok(true);
  }

  /** Without a ЮЛ record, the ИП record is used; with neither, only the header remains. */
  lemma IpOtherwise(inn: string, payload: Json, items: seq<Json>)
    requires payload.JObj? && Lookup(payload.fields, "items") == Some(JArr(items)) && items != []
    requires items[0].JObj? && "ЮЛ" !in Keys(items[0].fields)
    ensures "ИП" in Keys(items[0].fields) ==>
      BlocksText(inn, payload) == SubjectText(Header(inn), Lookup(items[0].fields, "ИП").value)
    ensures "ИП" !in Keys(items[0].fields) ==> BlocksText(inn, payload) == Ok(Header(inn))
  {
    assert Get(payload, "items", JArr([])) == Ok(JArr(items));
    assert Has("ЮЛ", items[0]) == Ok(false);
  }

  /** Each block has its own "  - " line, in the order of the list. */
  lemma {:induction false} BlockLineListed(blocks: seq<Json>, i: nat)
    requires i < |blocks|
    ensures IsSubstring(BlockLine(blocks[i]), BlockLines(blocks))
    decreases |blocks|
  {
    var init := blocks[..|blocks| - 1];
    if i == |blocks| - 1 {
      SubstringOfConcat(BlockLines(init), BlockLine(blocks[i]), "");
      assert BlockLines(init) + BlockLine(blocks[i]) + "" == BlockLines(blocks);
    } else {
      assert init[i] == blocks[i];
      BlockLineListed(init, i);
      SubstringExtends(BlockLine(blocks[i]), BlockLines(init), BlockLine(blocks[|blocks| - 1]));
    }
  }

  /** A non-empty list of blocks renders the "found" line followed by one line per block. */
  lemma BlocksListed(text: string, subject: Json, negativ: Json, blocks: seq<Json>)
    requires subject.JObj? && Lookup(subject.fields, "Негатив") == Some(negativ)
    requires negativ.JObj? && negativ.fields != [] && Lookup(negativ.fields, "БлокировкиСчетов") == Some(JArr(blocks))
    requires blocks != []
    ensures SubjectText(text, subject) == Ok(text + BlocksFound + BlockLines(blocks))
  {
    assert Get(subject, "Негатив", JObj([])) == Ok(negativ);
    assert Get(negativ, "БлокировкиСчетов", JArr([])) == Ok(JArr(blocks));
    assert Truthy(negativ) && Truthy(JArr(blocks));
    assert Elements(JArr(blocks)) == Ok(blocks);
  }

  /** A missing or empty `Негатив`, or an empty block list, renders "Блокировок счетов не найдено". */
  lemma NoBlocksReported(inn: string, subject: Json)
    requires subject.JObj?
    requires var n := Lookup(subject.fields, "Негатив");
      n.None? || !Truthy(n.value) ||
      (n.value.JObj? && (Lookup(n.value.fields, "БлокировкиСчетов").None? || !Truthy(Lookup(n.value.fields, "БлокировкиСчетов").value)))
    ensures SubjectText(Header(inn), subject) == Ok(Header(inn) + NoBlocks)
    ensures Strip(Header(inn) + NoBlocks) == Header(inn) + NoBlocks
  {
    var s := Header(inn) + NoBlocks;
    assert s[0] == HeaderPrefix[0];
    assert s[|s| - 1] == NoBlocks[|NoBlocks| - 1];
    StripUnchanged(s);
  }
}
