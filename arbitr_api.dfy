/**
 * The four arbitration tools: `arbitr_search_cases`, `arbitr_details_by_number`,
 * `arbitr_details_by_id` and `arbitr_download_pdf`. Test mode answers from the
 * stubs; any other mode goes through the api-assist client. Each tool reports
 * its start and its progress to the client session when there is one, turns
 * the payload into a short human text and a meta object, and maps every
 * failure to an internal MCP error.
 */
module ArbitrApi {
  import opened Wrappers
  import opened JsonValues
  import opened Strings
  import opened Common
  import opened Py
  import opened ArbitrConfig
  import opened ArbitrStubs
  import ArbitrClient

  // ---- The client session ----

  /** What a tool sends to the session: a log line or a progress report. */
  datatype Notice = Info(message: string) | Progress(progress: int, total: int)

  /** The session of the calling client; `fails(n)` holds when sending `n` raises. */
  datatype Context = Context(fails: Notice -> bool)

  /**
   * `_ctx_info` / `_ctx_progress`: what reaches the session. Nothing without
   * a session; a send that raises is swallowed and delivers nothing.
   */
  function Notify(ctx: Option<Context>, n: Notice): (sent: seq<Notice>)
    ensures ctx.None? ==> sent == []
    ensures ctx.Some? ==> (sent == [n] <==> !ctx.value.fails(n)) && (sent == [] <==> ctx.value.fails(n))
  {
    if ctx.Some? && !ctx.value.fails(n) then [n] else []
  }

  /** Start of the work; every tool sends it after its opening log line. */
  const Started: Notice := Progress(5, 100)
  /** Sent only when the tool has its result. */
  const Done: Notice := Progress(100, 100)

  const SearchStarting: string := "\U{1F50D} Запуск поиска дел"
  const PdfStarting: string := "\U{1F4E5} Скачивание PDF документа"

  function NumberStarting(caseNumber: string): string {
    "ℹ️ Запрос деталей по делу " + caseNumber
  }

  function IdStarting(caseId: string): string {
    "ℹ️ Запрос деталей по ID дела " + caseId
  }

  /** The notices a tool delivers: its log line, the start, and the end only on success. */
  function Delivered(ctx: Option<Context>, message: string, succeeded: bool): (sent: seq<Notice>)
    ensures ctx.None? ==> sent == []
    ensures ctx.Some? && !ctx.value.fails(Info(message)) && !ctx.value.fails(Started) && !ctx.value.fails(Done) ==>
      sent == [Info(message), Started] + (if succeeded then [Done] else [])
  {
    Notify(ctx, Info(message)) + Notify(ctx, Started) + (if succeeded then Notify(ctx, Done) else [])
  }

  // ---- Failures ----

  const SearchFailed: string := "Failed to search cases: "
  const NumberFailed: string := "Failed to fetch case by number: "
  const IdFailed: string := "Failed to fetch case by id: "
  const PdfFailed: string := "Failed to download PDF: "

  /**
   * The `except` clauses of every tool: an ArbitrApiError keeps its message,
   * anything else is prefixed with what the tool was doing; both are internal errors.
   */
  function ToolFailure(e: Error, prefix: string): (r: Error)
    ensures r.McpError? && r.code == InternalError && r.code != InvalidParams
    ensures e.ArbitrApiError? ==> r.message == e.message
    ensures !e.ArbitrApiError? ==> r.message == prefix + ExceptionText(e)
  {
    if e.ArbitrApiError? then McpError(InternalError, e.message)
    else McpError(InternalError, prefix + ExceptionText(e))
  }

  /** A tool's result with its failure mapped. */
  function Mapped(r: Result<ToolResult>, prefix: string): (m: Result<ToolResult>)
    ensures r.Ok? ==> m == r
    ensures r.Err? ==> m == Err(ToolFailure(r.error, prefix))
  {
    if r.Ok? then r else Err(ToolFailure(r.error, prefix))
  }

  /** The payload: the stub in test mode, the client's answer otherwise. */
  function Fetched(settings: Settings, stub: Json, reply: Reply): (r: Result<Json>)
    ensures settings.mode == "test" ==> r == Ok(stub)
    ensures settings.mode != "test" ==> r == ArbitrClient.Outcome(settings, reply)
  {
    if settings.mode == "test" then Ok(stub) else ArbitrClient.Outcome(settings, reply)
  }

  /** The outcome of a tool whose payload was fetched and whose result is `result(payload)`. */
  function Finished(data: Result<Json>, result: Result<ToolResult>, prefix: string): (r: Result<ToolResult>)
    ensures data.Err? ==> r == Err(ToolFailure(data.error, prefix))
    ensures data.Ok? ==> r == Mapped(result, prefix)
    ensures r.Err? ==> r.error.McpError? && r.error.code == InternalError
  {
    if data.Err? then Err(ToolFailure(data.error, prefix)) else Mapped(result, prefix)
  }

  // ---- arbitr_search_cases ----

  /** The tool's optional filters; InnType defaults to "Any". */
  datatype SearchArgs = SearchArgs(
    page: Option<int>,
    inn: Option<string>,
    innType: Option<string>,
    dateFrom: Option<string>,
    dateTo: Option<string>,
    court: Option<string>,
    caseType: Option<string>)

  const DefaultInnType: Option<string> := Some("Any")

  function IntOrNone(o: Option<int>): Json {
    if o.Some? then JInt(o.value) else JNull
  }

  function StrOrNone(o: Option<string>): Json {
    if o.Some? then JStr(o.value) else JNull
  }

  /** Every keyword passed to the client, None ones included. */
  function SearchParams(args: SearchArgs): (params: seq<(string, Json)>)
    ensures Keys(params) == ["page", "Inn", "InnType", "DateFrom", "DateTo", "Court", "CaseType"]
  {
    [("page", IntOrNone(args.page)), ("Inn", StrOrNone(args.inn)), ("InnType", StrOrNone(args.innType)),
     ("DateFrom", StrOrNone(args.dateFrom)), ("DateTo", StrOrNone(args.dateTo)),
     ("Court", StrOrNone(args.court)), ("CaseType", StrOrNone(args.caseType))]
  }

  /** `data.get("Cases", [])` for a dict, `[]` otherwise. */
  function CasesOf(data: Json): Json {
    if data.JObj? then Get(data, "Cases", JArr([])).value else JArr([])
  }

  /** `data.get("PagesCount")` for a dict, None otherwise. */
  function PagesOf(data: Json): Json {
    if data.JObj? then Get(data, "PagesCount", JNull).value else JNull
  }

  /** How many cases the summary lists. */
  const Listed: nat := 5

  function CountLine(n: nat): string {
    "Найдено дел: " + NatToString(n)
  }

  function PagesLine(pages: Json): string {
    "Всего страниц: " + Display(pages)
  }

  /** `f"№ {case.get('CaseNumber')} — {case.get('Court')} ({case.get('CaseType')})"` */
  function CaseLine(c: Json): (r: Result<string>)
    ensures r.Ok? <==> c.JObj?
  {
    var number :- Get(c, "CaseNumber", JNull);
    var court := Get(c, "Court", JNull).value;
    var kind := Get(c, "CaseType", JNull).value;
    Ok("№ " + Display(number) + " — " + Display(court) + " (" + Display(kind) + ")")
  }

  /** The line of each item in order, or the failure of the first item that has none. */
  function Lines<T>(items: seq<T>, line: T -> Result<string>): Result<seq<string>>
    decreases |items|
  {
    if items == [] then Ok([])
    else
      var init :- Lines(items[..|items| - 1], line);
      var last :- line(items[|items| - 1]);
      Ok(init + [last])
  }

  /** The line of each case in order, or the failure of the first case that is not a dict. */
  function CaseLines(cases: seq<Json>): Result<seq<string>> {
    Lines(cases, CaseLine)
  }

  /** The summary's lines: the count, the page count when truthy, then the first cases. */
  function SearchLines(data: Json): (r: Result<seq<string>>)
    ensures r.Ok? ==> Len(CasesOf(data)).Ok? && r.value != [] && r.value[0] == CountLine(Len(CasesOf(data)).value)
  {
    var cases := CasesOf(data);
    var n :- Len(cases);
    var pages := PagesOf(data);
    var shown :- Take(cases, Listed);
    var list :- Elements(shown);
    var lines :- CaseLines(list);
    Ok([CountLine(n)] + (if Truthy(pages) then [PagesLine(pages)] else []) + lines)
  }

  function SearchMeta(mode: string, data: Json, returned: nat): Json {
    JObj([("mode", JStr(mode)), ("pages", PagesOf(data)), ("returned", JInt(returned))])
  }

  /** The tool result for a payload. */
  function SearchResult(mode: string, data: Json): (r: Result<ToolResult>)
    ensures r.Ok? <==> SearchLines(data).Ok?
  {
    var lines :- SearchLines(data);
    Ok(ToolResult(Join("\n", lines), data, SearchMeta(mode, data, Len(CasesOf(data)).value)))
  }

  function SearchOutcome(settings: Settings, reply: Reply): Result<ToolResult> {
    var data := Fetched(settings, StubSearchCases(), reply);
    Finished(data, if data.Ok? then SearchResult(settings.mode, data.value) else Err(data.error), SearchFailed)
  }

  /** The case lines, appended one per case as the tool's loop does. */
  method AppendCaseLines(lines: seq<string>, cases: seq<Json>) returns (r: Result<seq<string>>)
    ensures CaseLines(cases).Err? ==> r == Err(CaseLines(cases).error)
    ensures CaseLines(cases).Ok? ==> r == Ok(lines + CaseLines(cases).value)
  {
    var acc := lines;
    var i := 0;
    while i < |cases|
      invariant 0 <= i <= |cases|
      invariant CaseLines(cases[..i]).Ok? && acc == lines + CaseLines(cases[..i]).value
    {
      var line := CaseLine(cases[i]);
      assert cases[..i + 1][..i] == cases[..i];
      if line.Err? {
        LinesStuck(cases, i + 1, CaseLine);
        return Err(line.error);
      }
      acc := acc + [line.value];
      i := i + 1;
    }
    assert cases[..i] == cases;
    return Ok(acc);
  }

  /** The summary's lines, built as the tool builds them. */
  method Summary(data: Json) returns (r: Result<seq<string>>)
    ensures r == SearchLines(data)
  {
    var cases := CasesOf(data);
    var n := Len(cases);
    if n.Err? {
      return Err(n.error);
    }
    var pages := PagesOf(data);
    var lines := [CountLine(n.value)];
    if Truthy(pages) {
      lines := lines + [PagesLine(pages)];
    }
    assert lines == [CountLine(n.value)] + (if Truthy(pages) then [PagesLine(pages)] else []);
    var shown := Take(cases, Listed);
    if shown.Err? {
      return Err(shown.error);
    }
    var list := Elements(shown.value);
    if list.Err? {
      return Err(list.error);
    }
    r := AppendCaseLines(lines, list.value);
  }

  /**
   * `search_cases(...)`: the result, the request the client issued (none in
   * test mode or when the key is missing), and the notices delivered.
   */
  method SearchCases(settings: Settings, ctx: Option<Context>, args: SearchArgs, reply: Reply)
    returns (r: Result<ToolResult>, request: Option<Request>, notices: seq<Notice>)
    ensures r == SearchOutcome(settings, reply)
    ensures settings.mode == "test" ==> request == None
    ensures settings.mode != "test" ==> (request.None? <==> ArbitrClient.KeyMissing(settings))
    ensures request.Some? ==>
      request.value == ArbitrClient.ApiRequest(settings, "search", ArbitrClient.Query(settings.apiKey, SearchParams(args)))
    ensures notices == Delivered(ctx, SearchStarting, r.Ok?)
  {
    notices := Notify(ctx, Info(SearchStarting)) + Notify(ctx, Started);
    var data: Result<Json>;
    if settings.mode == "test" {
      data, request := Ok(StubSearchCases()), None;
    } else {
      data, request := ArbitrClient.SearchCases(settings, SearchParams(args), reply);
    }
    var result: Result<ToolResult>;
    if data.Err? {
      result := Err(data.error);
    } else {
      var lines := Summary(data.value);
      result := if lines.Err? then Err(lines.error)
        else Ok(ToolResult(Join("\n", lines.value), data.value, SearchMeta(settings.mode, data.value, Len(CasesOf(data.value)).value)));
    }
    r, notices := Conclude(ctx, notices, data, result, SearchFailed);
  }

  /**
   * The end every tool shares: the failure of the fetch or of the result,
   * mapped, or the result itself, and then Done only when there is a result.
   */
  method Conclude(ctx: Option<Context>, notices: seq<Notice>, data: Result<Json>, result: Result<ToolResult>, prefix: string)
    returns (r: Result<ToolResult>, sent: seq<Notice>)
    ensures r == Finished(data, result, prefix)
    ensures sent == notices + (if r.Ok? then Notify(ctx, Done) else [])
  {
    if data.Err? {
      return Err(ToolFailure(data.error, prefix)), notices;
    }
    if result.Err? {
      return Err(ToolFailure(result.error, prefix)), notices;
    }
    r, sent := result, notices + Notify(ctx, Done);
  }

  // ---- arbitr_details_by_number / arbitr_details_by_id ----

  const NoStatus: string := "—"

  /** `cases[0].get(key) if cases else fallback` */
  function FirstField(cases: Json, key: string, fallback: Json): (r: Result<Json>)
    ensures !Truthy(cases) ==> r == Ok(fallback)
  {
    if !Truthy(cases) then Ok(fallback)
    else
      var first :- First(cases);
      Get(first, key, JNull)
  }

  /** `len(cases[0].get('CaseInstances', [])) if cases else 0` */
  function InstanceCount(cases: Json): (r: Result<nat>)
    ensures !Truthy(cases) ==> r == Ok(0)
  {
    if !Truthy(cases) then Ok(0)
    else
      var first :- First(cases);
      var instances :- Get(first, "CaseInstances", JArr([]));
      Len(instances)
  }

  /** The text of `get_case_by_number`: title, status and number of instances. */
  function NumberText(caseNumber: string, data: Json): Result<string> {
    var cases := CasesOf(data);
    var title :- FirstField(cases, "CaseNumber", JStr(caseNumber));
    var status :- FirstField(cases, "State", JStr(NoStatus));
    var count :- InstanceCount(cases);
    Ok("Дело " + Display(title) + "\nСтатус: " + Display(status) + "\nИнстанций: " + NatToString(count))
  }

  /** The text of `get_case_by_id`: title, status and the queried id. */
  function IdText(caseId: string, data: Json): Result<string> {
    var cases := CasesOf(data);
    var title :- FirstField(cases, "CaseNumber", JStr(caseId));
    var status :- FirstField(cases, "State", JStr(NoStatus));
    Ok("Дело " + Display(title) + "\nСтатус: " + Display(status) + "\nID: " + caseId)
  }

  function WithText(text: Result<string>, data: Json, meta: Json): (r: Result<ToolResult>)
    ensures text.Err? ==> r == Err(text.error)
    ensures text.Ok? ==> r == Ok(ToolResult(text.value, data, meta))
  {
    if text.Err? then Err(text.error) else Ok(ToolResult(text.value, data, meta))
  }

  function NumberOutcome(settings: Settings, caseNumber: string, reply: Reply): Result<ToolResult> {
    var data := Fetched(settings, StubDetailsByNumber(), reply);
    Finished(data, if data.Ok? then
      WithText(NumberText(caseNumber, data.value), data.value,
               JObj([("mode", JStr(settings.mode)), ("case_number", JStr(caseNumber))]))
      else Err(data.error), NumberFailed)
  }

  function IdOutcome(settings: Settings, caseId: string, reply: Reply): Result<ToolResult> {
    var data := Fetched(settings, StubDetailsById(), reply);
    Finished(data, if data.Ok? then
      WithText(IdText(caseId, data.value), data.value, JObj([("mode", JStr(settings.mode)), ("case_id", JStr(caseId))]))
      else Err(data.error), IdFailed)
  }

  /** `get_case_by_number(CaseNumber)` */
  method DetailsByNumber(settings: Settings, ctx: Option<Context>, caseNumber: string, reply: Reply)
    returns (r: Result<ToolResult>, request: Option<Request>, notices: seq<Notice>)
    ensures r == NumberOutcome(settings, caseNumber, reply)
    ensures settings.mode == "test" ==> request == None
    ensures settings.mode != "test" ==> (request.None? <==> ArbitrClient.KeyMissing(settings))
    ensures request.Some? ==>
      request.value == ArbitrClient.ApiRequest(settings, "details_by_number", ArbitrClient.Query(settings.apiKey, [("CaseNumber", JStr(caseNumber))]))
    ensures notices == Delivered(ctx, NumberStarting(caseNumber), r.Ok?)
  {
    notices := Notify(ctx, Info(NumberStarting(caseNumber))) + Notify(ctx, Started);
    var data: Result<Json>;
    if settings.mode == "test" {
      data, request := Ok(StubDetailsByNumber()), None;
    } else {
      data, request := ArbitrClient.DetailsByNumber(settings, caseNumber, reply);
    }
    var meta := JObj([("mode", JStr(settings.mode)), ("case_number", JStr(caseNumber))]);
    var result := if data.Ok? then WithText(NumberText(caseNumber, data.value), data.value, meta) else Err(data.error);
    r, notices := Conclude(ctx, notices, data, result, NumberFailed);
  }

  /** `get_case_by_id(CaseId)` */
  method DetailsById(settings: Settings, ctx: Option<Context>, caseId: string, reply: Reply)
    returns (r: Result<ToolResult>, request: Option<Request>, notices: seq<Notice>)
    ensures r == IdOutcome(settings, caseId, reply)
    ensures settings.mode == "test" ==> request == None
    ensures settings.mode != "test" ==> (request.None? <==> ArbitrClient.KeyMissing(settings))
    ensures request.Some? ==>
      request.value == ArbitrClient.ApiRequest(settings, "details_by_id", ArbitrClient.Query(settings.apiKey, [("CaseId", JStr(caseId))]))
    ensures notices == Delivered(ctx, IdStarting(caseId), r.Ok?)
  {
    notices := Notify(ctx, Info(IdStarting(caseId))) + Notify(ctx, Started);
    var data: Result<Json>;
    if settings.mode == "test" {
      data, request := Ok(StubDetailsById()), None;
    } else {
      data, request := ArbitrClient.DetailsById(settings, caseId, reply);
    }
    var meta := JObj([("mode", JStr(settings.mode)), ("case_id", JStr(caseId))]);
    var result := if data.Ok? then WithText(IdText(caseId, data.value), data.value, meta) else Err(data.error);
    r, notices := Conclude(ctx, notices, data, result, IdFailed);
  }

  // ---- arbitr_download_pdf ----

  const PdfMissing: string := "PDF не найден"

  function PdfText(present: bool, length: nat): string {
    if !present then PdfMissing else "Получен PDF (base64), длина: " + NatToString(length) + " символов"
  }

  /** The tool result for a payload: `pdf_content = data.get("pdfContent")`, `len(pdf_content or "")`. */
  function PdfResult(mode: string, data: Json): Result<ToolResult> {
    var pdf :- Get(data, "pdfContent", JNull);
    var length :- Len(Or(pdf, JStr("")));
    Ok(ToolResult(PdfText(Truthy(pdf), length), data,
                  JObj([("mode", JStr(mode)), ("has_pdf", JBool(Truthy(pdf))), ("length", JInt(length))])))
  }

  function PdfOutcome(settings: Settings, reply: Reply): Result<ToolResult> {
    var data := Fetched(settings, StubPdfDownload(), reply);
    Finished(data, if data.Ok? then PdfResult(settings.mode, data.value) else Err(data.error), PdfFailed)
  }

  /** `download_case_pdf(url)` */
  method DownloadPdf(settings: Settings, ctx: Option<Context>, url: string, reply: Reply)
    returns (r: Result<ToolResult>, request: Option<Request>, notices: seq<Notice>)
    ensures r == PdfOutcome(settings, reply)
    ensures settings.mode == "test" ==> request == None
    ensures settings.mode != "test" ==> (request.None? <==> ArbitrClient.KeyMissing(settings))
    ensures request.Some? ==>
      request.value == ArbitrClient.ApiRequest(settings, "pdf_download", ArbitrClient.Query(settings.apiKey, [("url", JStr(url))]))
    ensures notices == Delivered(ctx, PdfStarting, r.Ok?)
  {
    notices := Notify(ctx, Info(PdfStarting)) + Notify(ctx, Started);
    var data: Result<Json>;
    if settings.mode == "test" {
      data, request := Ok(StubPdfDownload()), None;
    } else {
      data, request := ArbitrClient.DownloadPdf(settings, url, reply);
    }
    var result := if data.Ok? then PdfResult(settings.mode, data.value) else Err(data.error);
    r, notices := Conclude(ctx, notices, data, result, PdfFailed);
  }

  // ---- Properties ----

  /** An item without a line stops the whole list. */
  lemma {:induction false} LinesStuck<T>(items: seq<T>, n: nat, line: T -> Result<string>)
    requires 0 < n <= |items| && Lines(items[..n - 1], line).Ok? && line(items[n - 1]).Err?
    ensures Lines(items, line) == Err(line(items[n - 1]).error)
  {
    assert items[..n][..n - 1] == items[..n - 1];
    assert Lines(items[..n], line) == Err(line(items[n - 1]).error);
    LinesPrefixStuck(items, n, line);
  }

  lemma {:induction false} LinesPrefixStuck<T>(items: seq<T>, n: nat, line: T -> Result<string>)
    requires 0 < n <= |items| && Lines(items[..n], line).Err?
    ensures Lines(items, line) == Lines(items[..n], line)
    decreases |items| - n
  {
    if n < |items| {
      assert items[..n + 1][..n] == items[..n];
      LinesPrefixStuck(items, n + 1, line);
    } else {
      assert items[..n] == items;
    }
  }

  /** One line per item, in order, each the item's own line. */
  lemma {:induction false} LinesShape<T>(items: seq<T>, line: T -> Result<string>)
    requires Lines(items, line).Ok?
    ensures |Lines(items, line).value| == |items|
    ensures forall i :: 0 <= i < |items| ==> line(items[i]) == Ok(Lines(items, line).value[i])
    decreases |items|
  {
    if items != [] {
      var init := items[..|items| - 1];
      LinesShape(init, line);
      assert forall i :: 0 <= i < |init| ==> init[i] == items[i];
    }
  }

  /** The lines exist exactly when every item has one. */
  lemma {:induction false} LinesOk<T>(items: seq<T>, line: T -> Result<string>)
    ensures Lines(items, line).Ok? <==> forall i :: 0 <= i < |items| ==> line(items[i]).Ok?
    decreases |items|
  {
    if items != [] {
      var init := items[..|items| - 1];
      LinesOk(init, line);
      assert forall i :: 0 <= i < |init| ==> init[i] == items[i];
    }
  }

  /** The case lines exist exactly when every listed case is a dict. */
  lemma CaseLinesOk(cases: seq<Json>)
    ensures CaseLines(cases).Ok? <==> forall i :: 0 <= i < |cases| ==> cases[i].JObj?
  {
    LinesOk(cases, CaseLine);
  }

  /** The first five of a list. */
  function Shown(items: seq<Json>): (r: seq<Json>)
    ensures |r| == if |items| <= Listed then |items| else Listed
    ensures forall i :: 0 <= i < |r| ==> r[i] == items[i]
  {
    if |items| <= Listed then items else items[..Listed]
  }

  /** The summary of a list of cases, unfolded. */
  lemma SearchLinesOfList(data: Json, items: seq<Json>)
    requires CasesOf(data) == JArr(items) && SearchLines(data).Ok?
    ensures CaseLines(Shown(items)).Ok?
    ensures SearchLines(data).value ==
      [CountLine(|items|)] + (if Truthy(PagesOf(data)) then [PagesLine(PagesOf(data))] else []) + CaseLines(Shown(items)).value
  {
    assert Len(JArr(items)) == Ok(|items|);
    assert Take(JArr(items), Listed) == Ok(JArr(Shown(items)));
    assert Elements(JArr(Shown(items))) == Ok(Shown(items));
  }

  /** The search summary starts with the count of all cases, then the pages line only when PagesCount is truthy. */
  lemma SearchSummaryHead(data: Json, items: seq<Json>, lines: seq<string>)
    requires CasesOf(data) == JArr(items) && SearchLines(data) == Ok(lines)
    ensures lines[0] == CountLine(|items|)
    ensures Truthy(PagesOf(data)) ==> |lines| > 1 && lines[1] == PagesLine(PagesOf(data))
  {
    SearchLinesOfList(data, items);
  }

  /** After the head, the search summary has one line for each of the first five cases. */
  lemma SearchSummaryCases(data: Json, items: seq<Json>, lines: seq<string>)
    requires CasesOf(data) == JArr(items) && SearchLines(data) == Ok(lines)
    ensures |lines| == 1 + PagesShown(data) + (if |items| <= Listed then |items| else Listed)
    ensures forall i :: 0 <= i < |lines| - 1 - PagesShown(data) ==> CaseLine(items[i]) == Ok(lines[1 + PagesShown(data) + i])
  {
    var tail := SearchTail(data, items, lines);
    CaseLinesAfter(lines, PagesShown(data), items, tail);
  }

  /** The case lines of a search summary: what follows the count and pages lines. */
  lemma SearchTail(data: Json, items: seq<Json>, lines: seq<string>) returns (tail: seq<string>)
    requires CasesOf(data) == JArr(items) && SearchLines(data) == Ok(lines)
    ensures CaseLines(Shown(items)) == Ok(tail)
    ensures 1 + PagesShown(data) <= |lines| && lines[1 + PagesShown(data)..] == tail
  {
    SearchLinesOfList(data, items);
    tail := CaseLines(Shown(items)).value;
    var head := [CountLine(|items|)] + (if Truthy(PagesOf(data)) then [PagesLine(PagesOf(data))] else []);
    AfterHead(lines, head, tail);
    assert |head| == 1 + PagesShown(data);
  }

  /** The number of lines between the count line and the cases: one when PagesCount is truthy. */
  function PagesShown(data: Json): (p: nat)
    ensures p == 1 <==> Truthy(PagesOf(data))
    ensures p <= 1
  {
    if Truthy(PagesOf(data)) then 1 else 0
  }

  lemma AfterHead<T>(lines: seq<T>, head: seq<T>, tail: seq<T>)
    requires lines == head + tail
    ensures |head| <= |lines| && lines[|head|..] == tail
  {
  }

  lemma CaseLinesAfter(lines: seq<string>, p: nat, items: seq<Json>, tail: seq<string>)
    requires 1 + p <= |lines| && lines[1 + p..] == tail && CaseLines(Shown(items)) == Ok(tail)
    ensures |lines| == 1 + p + (if |items| <= Listed then |items| else Listed)
    ensures forall i :: 0 <= i < |lines| - 1 - p ==> CaseLine(items[i]) == Ok(lines[1 + p + i])
  {
    ShownLines(items, tail);
    forall i | 0 <= i < |lines| - 1 - p
      ensures CaseLine(items[i]) == Ok(lines[1 + p + i])
    {
      assert lines[1 + p + i] == tail[i];
    }
  }

  /** The lines of the first five cases: one per case, each that case's line. */
  lemma ShownLines(items: seq<Json>, tail: seq<string>)
    requires CaseLines(Shown(items)) == Ok(tail)
    ensures |tail| == if |items| <= Listed then |items| else Listed
    ensures forall i :: 0 <= i < |tail| ==> CaseLine(items[i]) == Ok(tail[i])
  {
    var shown := Shown(items);
    LinesShape(shown, CaseLine);
    forall i | 0 <= i < |tail|
      ensures CaseLine(items[i]) == Ok(tail[i])
    {
      assert shown[i] == items[i];
    }
  }

  /** A payload that is not a dict has no cases and no pages. */
  lemma NotADict(mode: string, data: Json)
    requires !data.JObj?
    ensures SearchResult(mode, data) ==
      Ok(ToolResult(CountLine(0), data, JObj([("mode", JStr(mode)), ("pages", JNull), ("returned", JInt(0))])))
  {
    assert Take(JArr([]), Listed) == Ok(JArr([]));
    assert Elements(JArr([])) == Ok([]);
    assert Join("\n", [CountLine(0)]) == CountLine(0);
  }

  /** No case: the title is the queried number, the status "—", no instances. */
  lemma NumberFallback(caseNumber: string, data: Json)
    requires !Truthy(CasesOf(data))
    ensures NumberText(caseNumber, data) == Ok("Дело " + caseNumber + "\nСтатус: " + NoStatus + "\nИнстанций: 0")
  {
    var cases := CasesOf(data);
    assert FirstField(cases, "CaseNumber", JStr(caseNumber)) == Ok(JStr(caseNumber));
    assert FirstField(cases, "State", JStr(NoStatus)) == Ok(JStr(NoStatus));
    assert InstanceCount(cases) == Ok(0);
    assert NatToString(0) == "0";
    assert "\nИнстанций: " + "0" == "\nИнстанций: 0";
    ConcatAssoc("Дело " + caseNumber + "\nСтатус: " + NoStatus, "\nИнстанций: ", "0");
  }

  /** No case: the title is the queried id and the status "—". */
  lemma IdFallback(caseId: string, data: Json)
    requires !Truthy(CasesOf(data))
    ensures IdText(caseId, data) == Ok("Дело " + caseId + "\nСтатус: " + NoStatus + "\nID: " + caseId)
  {
  }

  /** The id text always ends with the queried id. */
  lemma IdTextEnds(caseId: string, data: Json)
    requires IdText(caseId, data).Ok?
    ensures var t, suffix := IdText(caseId, data).value, "\nID: " + caseId;
      |suffix| <= |t| && t[|t| - |suffix|..] == suffix
  {
    var cases := CasesOf(data);
    var title := FirstField(cases, "CaseNumber", JStr(caseId)).value;
    var status := FirstField(cases, "State", JStr(NoStatus)).value;
    var head := "Дело " + Display(title) + "\nСтатус: " + Display(status);
    assert IdText(caseId, data).value == head + "\nID: " + caseId;
    EndsWithLast(head, "\nID: ", caseId);
  }

  lemma EndsWithLast(a: string, b: string, c: string)
    ensures var t := a + b + c; |b + c| <= |t| && t[|t| - |b + c|..] == b + c
  {
    var t := a + b + c;
    assert t == a + (b + c);
  }

  /** The PDF meta: has_pdf is the truth of pdfContent, the length its `len`, and the text says which. */
  lemma PdfMeta(mode: string, data: Json)
    requires PdfResult(mode, data).Ok?
    ensures var pdf, r := Lookup(data.fields, "pdfContent"), PdfResult(mode, data).value;
      var present := pdf.Some? && Truthy(pdf.value);
      r.meta.fields[1] == ("has_pdf", JBool(present)) &&
      (r.text == PdfMissing <==> !present) &&
      (!present ==> r.meta.fields[2] == ("length", JInt(0))) &&
      (present && pdf.value.JStr? ==> r.meta.fields[2] == ("length", JInt(|pdf.value.s|)))
  {
    var pdf := Get(data, "pdfContent", JNull).value;
    if Truthy(pdf) {
      assert PdfText(true, Len(pdf).value) != PdfMissing by {
        assert PdfText(true, Len(pdf).value)[0] != PdfMissing[0];
      }
    }
  }

  /** Every failure of the search is an internal error, never "invalid params". */
  lemma SearchInternalErrors(settings: Settings, reply: Reply)
    ensures SearchOutcome(settings, reply).Err? ==> SearchOutcome(settings, reply).error.code == InternalError
  {
  }

  /** Every failure of the detail tools is an internal error, never "invalid params". */
  lemma DetailsInternalErrors(settings: Settings, reply: Reply, caseNumber: string, caseId: string)
    ensures NumberOutcome(settings, caseNumber, reply).Err? ==> NumberOutcome(settings, caseNumber, reply).error.code == InternalError
    ensures IdOutcome(settings, caseId, reply).Err? ==> IdOutcome(settings, caseId, reply).error.code == InternalError
  {
  }

  /** Every failure of the download is an internal error, never "invalid params". */
  lemma PdfInternalErrors(settings: Settings, reply: Reply)
    ensures PdfOutcome(settings, reply).Err? ==> PdfOutcome(settings, reply).error.code == InternalError
  {
  }

  /** The client's refusals reach the caller with their own message, unprefixed. */
  lemma ApiErrorsPassThrough(settings: Settings, reply: Reply)
    requires settings.mode != "test" && ArbitrClient.Outcome(settings, reply).Err?
    requires ArbitrClient.Outcome(settings, reply).error.ArbitrApiError?
    ensures SearchOutcome(settings, reply) ==
      Err(McpError(InternalError, ArbitrClient.Outcome(settings, reply).error.message))
    ensures PdfOutcome(settings, reply) ==
      Err(McpError(InternalError, ArbitrClient.Outcome(settings, reply).error.message))
  {
  }

  /** prod mode without a key: every tool fails with the client's message and nothing is sent upstream. */
  lemma ProdWithoutKey(settings: Settings, reply: Reply, caseNumber: string)
    requires ArbitrClient.KeyMissing(settings)
    ensures SearchOutcome(settings, reply) == Err(McpError(InternalError, ArbitrClient.KeyRequiredForProd))
    ensures NumberOutcome(settings, caseNumber, reply) == Err(McpError(InternalError, ArbitrClient.KeyRequiredForProd))
  {
  }

  /** Other failures, a transport failure say, are prefixed with what the tool was doing. */
  lemma OtherFailuresPrefixed(settings: Settings, reason: string)
    requires settings.mode != "test" && !ArbitrClient.KeyMissing(settings)
    ensures SearchOutcome(settings, TransportFailure(reason)) ==
      Err(McpError(InternalError, SearchFailed + ExceptionText(TransportError(reason))))
    ensures PdfOutcome(settings, TransportFailure(reason)) ==
      Err(McpError(InternalError, PdfFailed + ExceptionText(TransportError(reason))))
  {
  }

  lemma LinesOne<T>(x: T, line: T -> Result<string>)
    requires line(x).Ok?
    ensures Lines([x], line) == Ok([line(x).value])
  {
    assert [x][..0] == [];
    assert Lines([x][..0], line) == Ok([]);
    assert [] + [line(x).value] == [line(x).value];
  }

  /** The line of a case from its three fields. */
  lemma CaseLineOf(c: Json, number: string, court: string, kind: string)
    requires c.JObj? && Lookup(c.fields, "CaseNumber") == Some(JStr(number))
    requires Lookup(c.fields, "Court") == Some(JStr(court)) && Lookup(c.fields, "CaseType") == Some(JStr(kind))
    ensures CaseLine(c) == Ok("№ " + number + " — " + court + " (" + kind + ")")
  {
  }

  /** The summary lines of a payload with one case on one page. */
  lemma OneCaseLines(data: Json, c: Json, line: string)
    requires data.JObj? && CasesOf(data) == JArr([c]) && PagesOf(data) == JInt(1) && CaseLine(c) == Ok(line)
    ensures SearchLines(data) == Ok(["Найдено дел: 1", "Всего страниц: 1", line])
  {
    LinesOne(c, CaseLine);
    assert Len(JArr([c])) == Ok(1);
    assert Take(JArr([c]), Listed) == Ok(JArr([c]));
    assert Elements(JArr([c])) == Ok([c]);
    assert Truthy(JInt(1));
    assert CountLine(1) == "Найдено дел: 1" by {
      assert NatToString(1) == "1";
    }
    assert PagesLine(JInt(1)) == "Всего страниц: 1" by {
      assert Display(JInt(1)) == "1";
    }
    assert [CountLine(1)] + [PagesLine(JInt(1))] + [line] == [CountLine(1), PagesLine(JInt(1)), line];
  }

  const SearchLine: string := "№ " + SearchCaseNumber + " — " + SearchCourt + " (" + SearchCaseType + ")"

  lemma SearchStubLine()
    ensures CaseLine(SearchCase) == Ok(SearchLine)
  {
    SearchCaseNumberField();
    SearchCaseTypeField();
    SearchCourtField();
    CaseLineOf(SearchCase, SearchCaseNumber, SearchCourt, SearchCaseType);
  }

  lemma SearchStubData()
    ensures StubSearchCases().JObj?
    ensures CasesOf(StubSearchCases()) == JArr([SearchCase]) && PagesOf(StubSearchCases()) == JInt(1)
  {
    SearchStubShape();
  }

  /** Test mode answers the search with the stub: one case on one page. */
  lemma TestSearch(settings: Settings, reply: Reply)
    requires settings.mode == "test"
    ensures SearchOutcome(settings, reply) == Ok(ToolResult(
      Join("\n", ["Найдено дел: 1", "Всего страниц: 1", SearchLine]),
      StubSearchCases(),
      JObj([("mode", JStr("test")), ("pages", JInt(1)), ("returned", JInt(1))])))
  {
    SearchStubData();
    SearchStubLine();
    OneCaseLines(StubSearchCases(), SearchCase, SearchLine);
  }

  /** The detail texts of a payload whose first case has a number, a state and instances. */
  lemma FirstCaseTexts(data: Json, c: Json, number: string, state: string, instances: seq<Json>, caseNumber: string, caseId: string)
    requires CasesOf(data) == JArr([c]) && c.JObj?
    requires Lookup(c.fields, "CaseNumber") == Some(JStr(number)) && Lookup(c.fields, "State") == Some(JStr(state))
    requires Lookup(c.fields, "CaseInstances") == Some(JArr(instances))
    ensures NumberText(caseNumber, data) == Ok("Дело " + number + "\nСтатус: " + state + "\nИнстанций: " + NatToString(|instances|))
    ensures IdText(caseId, data) == Ok("Дело " + number + "\nСтатус: " + state + "\nID: " + caseId)
  {
    var cases := CasesOf(data);
    FirstFieldOfOne(cases, c, "CaseNumber", JStr(caseNumber), JStr(number));
    FirstFieldOfOne(cases, c, "CaseNumber", JStr(caseId), JStr(number));
    FirstFieldOfOne(cases, c, "State", JStr(NoStatus), JStr(state));
    InstanceCountOfOne(cases, c, instances);
  }

  lemma FirstFieldOfOne(cases: Json, c: Json, key: string, fallback: Json, value: Json)
    requires cases.JArr? && cases.items == [c] && c.JObj? && Lookup(c.fields, key) == Some(value)
    ensures FirstField(cases, key, fallback) == Ok(value)
  {
  }

  lemma InstanceCountOfOne(cases: Json, c: Json, instances: seq<Json>)
    requires cases.JArr? && cases.items == [c] && c.JObj? && Lookup(c.fields, "CaseInstances") == Some(JArr(instances))
    ensures InstanceCount(cases) == Ok(|instances|)
  {
  }

  lemma DetailsStubData()
    ensures CasesOf(StubDetailsByNumber()) == JArr([DetailsCase])
  {
    assert Lookup(StubDetailsByNumber().fields, "Cases") == Some(JArr([DetailsCase]));
  }

  lemma DetailsStubFirst()
    ensures CasesOf(StubDetailsByNumber()) == JArr([DetailsCase]) && DetailsCase.JObj?
    ensures Lookup(DetailsCase.fields, "CaseNumber") == Some(JStr(DetailsCaseNumber))
    ensures Lookup(DetailsCase.fields, "State") == Some(JStr(DetailsState))
    ensures Lookup(DetailsCase.fields, "CaseInstances") == Some(JArr([CaseInstance]))
  {
    DetailsStubData();
    DetailsCaseNumberField();
    DetailsStateField();
    DetailsInstancesField();
  }

  lemma DetailsStubNumberText(caseNumber: string)
    ensures NumberText(caseNumber, StubDetailsByNumber()) ==
      Ok("Дело " + DetailsCaseNumber + "\nСтатус: " + DetailsState + "\nИнстанций: " + NatToString(1))
  {
    DetailsStubFirst();
    FirstCaseTexts(StubDetailsByNumber(), DetailsCase, DetailsCaseNumber, DetailsState, [CaseInstance], caseNumber, "");
  }

  lemma DetailsStubIdText(caseId: string)
    ensures IdText(caseId, StubDetailsByNumber()) == Ok("Дело " + DetailsCaseNumber + "\nСтатус: " + DetailsState + "\nID: " + caseId)
  {
    DetailsStubFirst();
    FirstCaseTexts(StubDetailsByNumber(), DetailsCase, DetailsCaseNumber, DetailsState, [CaseInstance], "", caseId);
  }

  /** Test mode answers by number with the stub case. */
  lemma TestDetailsByNumber(settings: Settings, caseNumber: string, reply: Reply)
    requires settings.mode == "test"
    ensures NumberOutcome(settings, caseNumber, reply) == Ok(ToolResult(
      "Дело " + DetailsCaseNumber + "\nСтатус: " + DetailsState + "\nИнстанций: " + "1",
      StubDetailsByNumber(),
      JObj([("mode", JStr("test")), ("case_number", JStr(caseNumber))])))
  {
    DetailsStubNumberText(caseNumber);
    assert NatToString(1) == "1";
  }

  /** Test mode answers by id with the same stub case, ending with the queried id. */
  lemma TestDetailsById(settings: Settings, caseId: string, reply: Reply)
    requires settings.mode == "test"
    ensures IdOutcome(settings, caseId, reply) == Ok(ToolResult(
      "Дело " + DetailsCaseNumber + "\nСтатус: " + DetailsState + "\nID: " + caseId,
      StubDetailsByNumber(),
      JObj([("mode", JStr("test")), ("case_id", JStr(caseId))])))
  {
    DetailsStubIdText(caseId);
  }

  /** A payload with PDF content: has_pdf, the length of the content, and the text that reports it. */
  lemma PdfFound(mode: string, data: Json, content: string)
    requires data.JObj? && Lookup(data.fields, "pdfContent") == Some(JStr(content)) && content != []
    ensures PdfResult(mode, data) == Ok(ToolResult(PdfText(true, |content|), data,
      JObj([("mode", JStr(mode)), ("has_pdf", JBool(true)), ("length", JInt(|content|))])))
  {
  }

  /** Test mode finds the stub PDF. */
  lemma TestPdf(settings: Settings, reply: Reply)
    requires settings.mode == "test"
    ensures var content := Lookup(StubPdfDownload().fields, "pdfContent").value.s;
      PdfOutcome(settings, reply) == Ok(ToolResult(PdfText(true, |content|), StubPdfDownload(),
        JObj([("mode", JStr("test")), ("has_pdf", JBool(true)), ("length", JInt(|content|))])))
  {
    PdfStubDecodes();
    PdfFound("test", StubPdfDownload(), Lookup(StubPdfDownload().fields, "pdfContent").value.s);
  }
}
