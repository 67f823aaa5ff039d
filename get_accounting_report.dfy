/**
 * `get_accounting_report` and `get_accounting_report_file`: a legal entity's
 * financial statements, as text listing the first five lines of every year
 * for every INN/OGRN in the reply, or as the signed PDF (or the ZIP of XLS
 * files). Neither tool consults the free allow-list.
 */
module GetAccountingReport {
  import opened Wrappers
  import opened JsonValues
  import opened Strings
  import opened Common
  import Base64
  import opened Py
  import opened FnsUtils
  import opened FnsLookup

  const Generic: string := "Не удалось получить бухгалтерскую отчетность"
  const FileGeneric: string := "Не удалось получить файл отчетности"
  const HeaderPrefix: string := "Бухгалтерская отчетность для: "
  const CompanyPrefix: string := "ИНН/ОГРН: "
  const YearPrefix: string := "Год: "
  const TestFileSize: string := "тестовый файл"
  /** Only the first five lines of each year's statement are shown. */
  const Shown: nat := 5

  function Header(req: string): string {
    HeaderPrefix + req + "\n\n"
  }

  function CompanyHead(innOgrn: string): string {
    CompanyPrefix + innOgrn + "\n\n"
  }

  function YearHead(year: string): string {
    YearPrefix + year + "\n"
  }

  /** `f"  Строка {code}: {value} тыс. руб.\n"` */
  function CodeLine(entry: (string, Json)): string {
    "  Строка " + entry.0 + ": " + Display(entry.1) + " тыс. руб.\n"
  }

  function CodeLines(codes: seq<(string, Json)>): string
    decreases |codes|
  {
    if codes == [] then "" else CodeLines(codes[..|codes| - 1]) + CodeLine(codes[|codes| - 1])
  }

  /** `list(codes_data.items())[:5]` */
  function FirstCodes(codes: seq<(string, Json)>): seq<(string, Json)> {
    if |codes| <= Shown then codes else codes[..Shown]
  }

  /** One year: its heading, the lines of its first five codes and a blank line, or the exception `.items()` raises. */
  function YearText(entry: (string, Json)): Result<string> {
    var codes :- Items(entry.1);
    Ok(YearHead(entry.0) + CodeLines(FirstCodes(codes)) + "\n")
  }

  /** One INN/OGRN: its heading, then every year of it. */
  function CompanyText(entry: (string, Json)): Result<string> {
    var years :- Items(entry.1);
    After(CompanyHead(entry.0), RenderAll(years, YearText))
  }

  /** The human text before `strip()`: every INN/OGRN of the reply, in order. */
  function ReportText(req: string, payload: Json): Result<string> {
    var companies :- Items(payload);
    After(Header(req), RenderAll(companies, CompanyText))
  }

  lemma CodeLinesSnoc(codes: seq<(string, Json)>, i: nat)
    requires i < |codes|
    ensures CodeLines(codes[..i + 1]) == CodeLines(codes[..i]) + CodeLine(codes[i])
  {
    assert codes[..i + 1][..i] == codes[..i];
  }

  /** The innermost loop: one line per code. */
  method AppendCodes(text: string, codes: seq<(string, Json)>) returns (humanText: string)
    ensures humanText == text + CodeLines(codes)
  {
    humanText := text;
    var i := 0;
    while i < |codes|
      invariant i <= |codes|
      invariant humanText == text + CodeLines(codes[..i])
    {
      CodeLinesSnoc(codes, i);
      ConcatAssoc(text, CodeLines(codes[..i]), CodeLine(codes[i]));
      humanText := humanText + CodeLine(codes[i]);
      i := i + 1;
    }
    assert codes[..|codes|] == codes;
  }

  method RenderYear(entry: (string, Json)) returns (r: Result<string>)
    ensures r == YearText(entry)
  {
    var codes := Items(entry.1);
    if codes.Err? {
      return Err(codes.error);
    }
    var humanText := AppendCodes(YearHead(entry.0), FirstCodes(codes.value));
    r := Ok(humanText + "\n");
  }

  /** The middle loop: every year of one INN/OGRN. */
  method RenderCompany(entry: (string, Json)) returns (r: Result<string>)
    ensures r == CompanyText(entry)
  {
    var items := Items(entry.1);
    if items.Err? {
      return Err(items.error);
    }
    var years := items.value;
    var body := "";
    var i := 0;
    while i < |years|
      invariant i <= |years|
      invariant RenderAll(years[..i], YearText) == Ok(body)
    {
      var lines := RenderYear(years[i]);
      assert years[..i + 1][..i] == years[..i];
      if lines.Err? {
        RenderAllStuck(years, i + 1, YearText);
        return Err(lines.error);
      }
      body := body + lines.value;
      i := i + 1;
    }
    assert years[..|years|] == years;
    r := Ok(CompanyHead(entry.0) + body);
  }

  /** The outer loop: every INN/OGRN of the reply. */
  method RenderReport(req: string, payload: Json) returns (r: Result<string>)
    ensures r == ReportText(req, payload)
  {
    var items := Items(payload);
    if items.Err? {
      return Err(items.error);
    }
    var companies := items.value;
    var body := "";
    var i := 0;
    while i < |companies|
      invariant i <= |companies|
      invariant RenderAll(companies[..i], CompanyText) == Ok(body)
    {
      var lines := RenderCompany(companies[i]);
      assert companies[..i + 1][..i] == companies[..i];
      if lines.Err? {
        RenderAllStuck(companies, i + 1, CompanyText);
        return Err(lines.error);
      }
      body := body + lines.value;
      i := i + 1;
    }
    assert companies[..|companies|] == companies;
    r := Ok(Header(req) + body);
  }

  function ReqMeta(mode: string, req: string): Json {
    ModeMeta(mode, [("req", JStr(req))])
  }

  /** `get_accounting_report(req)` */
  method Report(env: Env, req: string, mock: Json, reply: Reply) returns (r: Result<ToolResult>, request: Option<Request>)
    ensures FnsMode(env) == "test" ==> request == None && r == Finish(ReportText(req, mock), mock, ReqMeta("test", req))
    ensures ApiMode(env) && !EnvSet(env, TokenVar) ==> r == Err(TokenMissing()) && request == None
    ensures ApiMode(env) && EnvSet(env, TokenVar) ==>
      request == Some(ApiGet("bo", [("req", JStr(req)), ("key", JStr(env[TokenVar]))], 40.0)) &&
      (JsonBody(reply).Err? ==> r == Err(ApiFailure(JsonBody(reply).error, Generic))) &&
      (JsonBody(reply).Ok? ==>
         r == Guarded(Finish(ReportText(req, JsonBody(reply).value), JsonBody(reply).value, ReqMeta("prod", req)), Generic))
  {
    request := None;
    if FnsMode(env) == "test" {
      var text := RenderReport(req, mock);
      return Finish(text, mock, ReqMeta("test", req)), None;
    }
    if !EnvSet(env, TokenVar) {
      return Err(TokenMissing()), None;
    }
    request := Some(ApiGet("bo", [("req", JStr(req)), ("key", JStr(env[TokenVar]))], 40.0));
    var result := JsonBody(reply);
    if result.Err? {
      return Err(ApiFailure(result.error, Generic)), request;
    }
    var text := RenderReport(req, result.value);
    r := Guarded(Finish(text, result.value, ReqMeta("prod", req)), Generic);
  }

  /** `"zip" if xls else "pdf"` for `xls: Optional[bool]`. */
  function FileType(xls: Option<bool>): string {
    if xls == Some(true) then "zip" else "pdf"
  }

  /** The four lines of the file summary; `size` is what follows "Размер: ". */
  function FileText(req: string, year: int, fileType: string, size: string): string {
    HeaderPrefix + req + "\n" + YearPrefix + IntToString(year) + "\n" + "Формат: " + Upper(fileType) + "\n" + "Размер: " + size
  }

  /** The query of the file request: req, year and key, then `xls=1` only for a truthy `xls`. */
  function FileParams(req: string, year: int, token: string, xls: Option<bool>): seq<(string, Json)> {
    var params := [("req", JStr(req)), ("year", JInt(year)), ("key", JStr(token))];
    if xls == Some(true) then params + [("xls", JInt(1))] else params
  }

  function FileStructured(fileBase64: string, fileType: string, req: string, year: int): seq<(string, Json)> {
    [("file_base64", JStr(fileBase64)), ("file_type", JStr(fileType)), ("req", JStr(req)), ("year", JInt(year))]
  }

  function FileMeta(mode: string, req: string, year: int): Json {
    ModeMeta(mode, [("req", JStr(req)), ("year", JInt(year))])
  }

  /** The summary has no whitespace at either end, so `strip()` leaves it as built. */
  lemma FileTextStripped(req: string, year: int, fileType: string, size: string)
    requires size != [] && !IsPySpace(size[|size| - 1])
    ensures Strip(FileText(req, year, fileType, size)) == FileText(req, year, fileType, size)
  {
    var s := FileText(req, year, fileType, size);
    assert s[0] == HeaderPrefix[0];
    assert s[|s| - 1] == size[|size| - 1];
    StripUnchanged(s);
  }

  /** The `+=` construction of the summary and its `strip()`. */
  method FileSummary(req: string, year: int, fileType: string, size: string) returns (text: string)
    requires size != [] && !IsPySpace(size[|size| - 1])
    ensures text == FileText(req, year, fileType, size)
  {
    var humanText := HeaderPrefix + req + "\n";
    humanText := humanText + YearPrefix + IntToString(year) + "\n";
    humanText := humanText + "Формат: " + Upper(fileType) + "\n";
    humanText := humanText + "Размер: " + size;
    FileTextStripped(req, year, fileType, size);
    text := Strip(humanText);
  }

  /** `get_accounting_report_file(req, year, xls)`: the base64 of the downloaded file and its size in bytes. */
  method ReportFile(env: Env, req: string, year: int, xls: Option<bool>, mockFile: string, reply: Reply)
    returns (r: Result<ToolResult>, request: Option<Request>)
    ensures FnsMode(env) == "test" ==>
      request == None &&
      r == Ok(ToolResult(FileText(req, year, FileType(xls), TestFileSize),
                         JObj(FileStructured(mockFile, FileType(xls), req, year)), FileMeta("test", req, year)))
    ensures ApiMode(env) && !EnvSet(env, TokenVar) ==> r == Err(TokenMissing()) && request == None
    ensures ApiMode(env) && EnvSet(env, TokenVar) ==>
      request == Some(ApiGet("bo_file", FileParams(req, year, env[TokenVar], xls), 60.0)) &&
      (reply.Response? && !IsSuccess(reply.status) ==> r == Err(ApiStatusError(reply.status))) &&
      (reply.TransportFailure? ==> r == Err(McpError(InternalError, FileGeneric))) &&
      (reply.Response? && IsSuccess(reply.status) ==>
         r == Ok(ToolResult(FileText(req, year, FileType(xls), NatToString(|reply.content|) + " байт"),
                            JObj(FileStructured(Base64.Encode(reply.content), FileType(xls), req, year) + [("size_bytes", JInt(|reply.content|))]),
                            FileMeta("prod", req, year))))
  {
    var fileType := FileType(xls);
    if FnsMode(env) == "test" {
      var text := FileSummary(req, year, fileType, TestFileSize);
      return Ok(ToolResult(text, JObj(FileStructured(mockFile, fileType, req, year)), FileMeta("test", req, year))), None;
    }
    if !EnvSet(env, TokenVar) {
      return Err(TokenMissing()), None;
    }
    request := Some(ApiGet("bo_file", FileParams(req, year, env[TokenVar], xls), 60.0));
    var content := ContentBody(reply);
    if content.Err? {
      return Err(ApiFailure(content.error, FileGeneric)), request;
    }
    var fileData := content.value;
    var fileBase64 := Base64.Encode(fileData);
    var text := FileSummary(req, year, fileType, NatToString(|fileData|) + " байт");
    var structured := JObj(FileStructured(fileBase64, fileType, req, year) + [("size_bytes", JInt(|fileData|))]);
    r := Ok(ToolResult(text, structured, FileMeta("prod", req, year)));
  }

  /** A year lists only its first five codes: whatever follows them is never rendered. */
  lemma FirstFiveCodes(year: string, first: seq<(string, Json)>, rest: seq<(string, Json)>)
    requires |first| == Shown
    ensures YearText((year, JObj(first + rest))) == YearText((year, JObj(first)))
    ensures YearText((year, JObj(first))) == Ok(YearHead(year) + CodeLines(first) + "\n")
  {
    if rest == [] {
      assert first + rest == first;
    } else {
      assert (first + rest)[..Shown] == first;
    }
  }

  /** Every INN/OGRN of a reply that renders has its own heading line in the text. */
  lemma CompanyListed(req: string, companies: seq<(string, Json)>, i: nat)
    requires i < |companies| && ReportText(req, JObj(companies)).Ok?
    ensures IsSubstring(CompanyHead(companies[i].0), ReportText(req, JObj(companies)).value)
  {
    assert Items(JObj(companies)) == Ok(companies);
    var whole := RenderAll(companies, CompanyText);
    RenderAllHead(companies, i, CompanyText, CompanyHead(companies[i].0));
    SubstringPrepends(CompanyHead(companies[i].0), Header(req), whole.value);
  }

  /** Every year of an INN/OGRN that renders has its own heading line in that INN/OGRN's text. */
  lemma YearListed(entry: (string, Json), years: seq<(string, Json)>, j: nat)
    requires entry.1 == JObj(years) && j < |years| && CompanyText(entry).Ok?
    ensures IsSubstring(YearHead(years[j].0), CompanyText(entry).value)
  {
    assert Items(entry.1) == Ok(years);
    var whole := RenderAll(years, YearText);
    RenderAllHead(years, j, YearText, YearHead(years[j].0));
    SubstringPrepends(YearHead(years[j].0), CompanyHead(entry.0), whole.value);
  }

  /** A reply that is not a dict, or an INN/OGRN whose years are not a dict, raises; in production that is the generic message. */
  lemma NotADict(req: string, payload: Json, companies: seq<(string, Json)>, i: nat)
    ensures !payload.JObj? ==> ReportText(req, payload).Err?
    ensures !payload.JObj? ==> Guarded(Finish(ReportText(req, payload), payload, ReqMeta("prod", req)), Generic) == Err(McpError(InternalError, Generic))
    ensures i < |companies| && !companies[i].1.JObj? ==> ReportText(req, JObj(companies)).Err?
  {
    if i < |companies| && !companies[i].1.JObj? {
      assert Items(JObj(companies)) == Ok(companies);
      if RenderAll(companies, CompanyText).Ok? {
        RenderAllPart(companies, i, CompanyText);
      }
    }
  }

  /** A reply with no INN/OGRN renders the heading alone. */
  lemma EmptyReport(req: string)
    ensures ReportText(req, JObj([])) == Ok(Header(req))
  {
    assert Header(req) + "" == Header(req);
  }

  /** The file is a ZIP exactly when `xls` is true, and the summary names its format in capitals. */
  lemma ZipIffXls(xls: Option<bool>)
    ensures FileType(xls) == "zip" <==> xls == Some(true)
    ensures FileType(xls) == "pdf" <==> xls != Some(true)
    ensures Upper(FileType(xls)) == (if xls == Some(true) then "ZIP" else "PDF")
  {
  }

  /** `xls=1` is sent exactly when `xls` is true; req, year and key always come first. */
  lemma XlsParam(req: string, year: int, token: string, xls: Option<bool>)
    ensures FileParams(req, year, token, xls)[..3] == [("req", JStr(req)), ("year", JInt(year)), ("key", JStr(token))]
    ensures "xls" in Keys(FileParams(req, year, token, xls)) <==> xls == Some(true)
    ensures xls == Some(true) ==> FileParams(req, year, token, xls)[3] == ("xls", JInt(1))
  {
    var ps := FileParams(req, year, token, xls);
    if xls == Some(true) {
      assert Keys(ps)[3] == "xls";
    } else {
      assert Keys(ps) == ["req", "year", "key"];
    }
  }
}
