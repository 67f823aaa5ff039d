/**
 * `get_bank_statement`: the operations on a current account over a period,
 * from T-Bank, Modulbank or Alfa-Bank. The call resolves the provider, gates
 * on its credentials, then takes one of three routes: the T-Bank sandbox
 * (test mode, rendered as a statement with turnover totals), the local mock
 * (test mode, Alfa-Bank), or a request to the bank (everything else,
 * including the Modulbank sandbox).
 */
module BankStatement {
  import opened Wrappers
  import opened JsonValues
  import opened Strings
  import opened Common
  import opened Py
  import opened BankUtils
  import opened BankMocks

  const ProviderVar: string := "BANK_PROVIDER"
  const ProviderError: string := "Укажите " + ProviderVar + ": tbank|modulbank|alfa"
  const ModulbankAccountError: string := "Для Модульбанка нужно указать account_id"
  const SandboxAccountError: string := "Для T-Bank sandbox нужно указать account_id (accountNumber)"
  const Generic: string := "Не удалось получить выписку"
  const BankErrorPrefix: string := "Банк вернул ошибку "
  const TbankUrl: string := "https://business-api.tinkoff.ru/api/v1/statement"
  const ModulbankUrl: string := "https://api.modulbank.ru/v1"
  const AlfaUrl: string := "https://api.alfabank.ru/statement/v2"
  const SandboxUrl: string := "https://business.tbank.ru/openapi/sandbox/api/v1/statement"
  const StatementTitle: string := "Выписка Т‑Банк"
  const NoOperations: string := "Операций не найдено"
  const TableHeader: string := "Дата\tОписание\tСумма\tОстаток"
  const TurnoverPrefix: string := "Итого оборот: "
  const Rouble: string := " ₽"
  const DefaultDescription: string := "Операция"

  datatype Provider = TBank | ModulBank | Alfa

  function Name(p: Provider): string {
    match p
    case TBank => "tbank"
    case ModulBank => "modulbank"
    case Alfa => "alfa"
  }

  /** `bank_provider or os.getenv("BANK_PROVIDER", "")` */
  function ProviderSource(env: Env, bankProvider: Option<string>): string {
    if bankProvider.Some? && bankProvider.value != "" then bankProvider.value else GetEnv(env, ProviderVar, "")
  }

  /** The provider, lower-cased; anything but the three names is a -32602 naming BANK_PROVIDER. */
  function ResolveProvider(env: Env, bankProvider: Option<string>): (r: Result<Provider>)
    ensures r.Ok? ==> Name(r.value) == Lower(ProviderSource(env, bankProvider))
    ensures r.Err? ==> r.error == McpError(InvalidParams, ProviderError)
    ensures r.Err? ==> forall p: Provider :: Name(p) != Lower(ProviderSource(env, bankProvider))
  {
    var name := Lower(ProviderSource(env, bankProvider));
    if name == "tbank" then Ok(TBank)
    else if name == "modulbank" then Ok(ModulBank)
    else if name == "alfa" then Ok(Alfa)
    else Err(FormatError(ProviderError, InvalidParams))
  }

  /** `os.getenv("MODE", "test").lower()` */
  function Mode(env: Env): string {
    Lower(GetEnv(env, "MODE", "test"))
  }

  /** `"T_BANK_TOKEN" if provider == "tbank" else f"{provider.upper()}_TOKEN"` */
  function TokenVar(p: Provider): string {
    if p == TBank then "T_BANK_TOKEN" else Upper(Name(p)) + "_TOKEN"
  }

  const ModulbankSandboxTokenVar: string := "MODULBANK_SANDBOX_TOKEN"

  function ModulbankSandboxToken(env: Env): string {
    GetEnv(env, ModulbankSandboxTokenVar, "sandboxtoken")
  }

  /** The credential gate: Modulbank in test mode takes the sandbox token, every other case requires the provider's variable. */
  function Token(env: Env, p: Provider, mode: string): Result<string> {
    if p == ModulBank && mode == "test" then Ok(ModulbankSandboxToken(env))
    else
      var tokens :- RequireEnvVars(env, [TokenVar(p)]);
      Ok(tokens[TokenVar(p)])
  }

  /** `account_id if isinstance(account_id, str) and account_id.strip() else None` */
  function NormalizedAccount(accountId: Option<string>): (a: Option<string>)
    ensures a.Some? ==> a == accountId && Strip(a.value) != ""
  {
    if accountId.Some? && Strip(accountId.value) != "" then accountId else None
  }

  /** What the checks before the routing establish. */
  datatype Call = Call(provider: Provider, mode: string, token: string, account: Option<string>)

  /** Provider, mode, credential gate and account normalisation, in the source's order. */
  function Prepare(env: Env, bankProvider: Option<string>, accountId: Option<string>): (r: Result<Call>)
    ensures r.Err? ==> r.error.McpError? && r.error.code == InvalidParams
    ensures r.Ok? ==> r.value.mode == Mode(env) && r.value.account == NormalizedAccount(accountId)
    ensures r.Ok? && r.value.provider == ModulBank ==> r.value.account.Some?
  {
    var p :- ResolveProvider(env, bankProvider);
    var mode := Mode(env);
    var token :- Token(env, p, mode);
    var account := NormalizedAccount(accountId);
    if p == ModulBank && account.None? then Err(FormatError(ModulbankAccountError, InvalidParams))
    else Ok(Call(p, mode, token, account))
  }

  datatype Route = TbankSandbox | LocalMock | Upstream

  function RouteOf(c: Call): Route {
    if c.mode == "test" && c.provider == TBank then TbankSandbox
    else if c.mode == "test" && c.provider != ModulBank then LocalMock
    else Upstream
  }

  function Period(fromDate: string, toDate: string): Json {
    JObj([("from", JStr(fromDate)), ("to", JStr(toDate))])
  }

  function Structured(p: Provider, fromDate: string, toDate: string, operations: Json): Json {
    JObj([("bank", JStr(Name(p))), ("period", Period(fromDate, toDate)), ("operations", operations)])
  }

  function Meta(mode: string, total: nat, p: Provider): Json {
    JObj([("mode", JStr(mode)), ("total_operations", JInt(total)), ("bank", JStr(Name(p)))])
  }

  // ---- The T-Bank sandbox and its statement ----

  function SandboxToken(env: Env): string {
    GetEnv(env, "T_BANK_SANDBOX_TOKEN", "TBankSandboxToken")
  }

  /** `_fetch_tbank_sandbox`'s GET: the sandbox token, the account number and the whole days of the period. */
  function SandboxRequest(env: Env, account: string, fromDate: string, toDate: string): Request {
    Request(GET, SandboxUrl, [("Authorization", "Bearer " + SandboxToken(env))],
            [("accountNumber", JStr(account)), ("from", JStr(fromDate + "T00:00:00.000Z")), ("to", JStr(toDate + "T23:59:59.999Z"))],
            None, 30.0)
  }

  /** `data.get("operations") or []` */
  function SandboxOperations(data: Json): Result<Json> {
    var ops :- Get(data, "operations", JNull);
    Ok(Or(ops, JArr([])))
  }

  /** One row of the statement, with the amount it adds to the credit or the debit total. */
  datatype Entry = Entry(row: string, amount: real, credit: bool)

  /** `float(v)` */
  function PyFloat(lib: Library, v: Json): Result<real> {
    match v
    case JBool(b) => Ok(if b then 1.0 else 0.0)
    case JInt(i) => Ok(i as real)
    case JReal(r) => Ok(r)
    case JStr(s) =>
      if lib.parseFloat(s).Some? then Ok(lib.parseFloat(s).value)
      else Err(Raised("ValueError", "could not convert string to float: '" + s + "'"))
    case _ => Err(Raised("TypeError", "float() argument must be a string or a real number, not '" + TypeName(v) + "'"))
  }

  /**
   * The date column: "—" for a missing or empty date; the parsed date when
   * it is a string `fromisoformat` accepts (after "Z" becomes "+00:00");
   * otherwise its first ten characters, or all of it when shorter.
   */
  function DateText(lib: Library, v: Json): Result<string> {
    if !Truthy(v) then Ok("—")
    else if v.JStr? && lib.isoDateTime(ReplaceChar(v.s, 'Z', "+00:00")).Some? then Ok(lib.isoDateTime(ReplaceChar(v.s, 'Z', "+00:00")).value)
    else
      var n :- Len(v);
      if n >= 10 then
        var head :- Take(v, 10);
        Ok(Display(head))
      else Ok(Display(v))
  }

  /** The amount column: the sign chosen by the operation type, then `f"{amount:,.2f} ₽"`. */
  function AmountText(amount: real, credit: bool): string {
    (if credit then "+" else "-") + Grouped2(amount) + Rouble
  }

  /** One operation: its row, and whether it is a credit ("Credit") or a debit (any other type). */
  function OpEntry(lib: Library, op: Json): (r: Result<Entry>)
    ensures r.Ok? ==> op.JObj? && (r.value.credit <==> Lookup(op.fields, "typeOfOperation") == Some(JStr("Credit")))
  {
    var date :- Get(op, "operationDate", JStr(""));
    var dateText :- DateText(lib, date);
    var description := Get(op, "description", JNull).value;
    var purpose := Get(op, "payPurpose", JNull).value;
    var amount :- PyFloat(lib, Get(op, "operationAmount", JInt(0)).value);
    var kind := Get(op, "typeOfOperation", JStr("")).value;
    var credit := kind == JStr("Credit");
    var shown := Or(description, Or(purpose, JStr(DefaultDescription)));
    Ok(Entry(dateText + "\t" + Display(shown) + "\t" + AmountText(amount, credit) + "\t—", amount, credit))
  }

  /** The entries of the operations in order, or the exception of the first that raises. */
  function Entries(lib: Library, ops: seq<Json>): Result<seq<Entry>>
    decreases |ops|
  {
    if ops == [] then Ok([])
    else
      var init :- Entries(lib, ops[..|ops| - 1]);
      var e :- OpEntry(lib, ops[|ops| - 1]);
      Ok(init + [e])
  }

  function Rows(es: seq<Entry>): (rows: seq<string>)
    ensures |rows| == |es| && forall i :: 0 <= i < |es| ==> rows[i] == es[i].row
  {
    seq(|es|, i requires 0 <= i < |es| => es[i].row)
  }

  /** The sum of the credit amounts. */
  function CreditTotal(es: seq<Entry>): real
    decreases |es|
  {
    if es == [] then 0.0
    else CreditTotal(es[..|es| - 1]) + (if es[|es| - 1].credit then es[|es| - 1].amount else 0.0)
  }

  /** The sum of the debit amounts. */
  function DebitTotal(es: seq<Entry>): real
    decreases |es|
  {
    if es == [] then 0.0
    else DebitTotal(es[..|es| - 1]) + (if es[|es| - 1].credit then 0.0 else es[|es| - 1].amount)
  }

  /** The sum of all amounts. */
  function Turnover(es: seq<Entry>): real
    decreases |es|
  {
    if es == [] then 0.0 else Turnover(es[..|es| - 1]) + es[|es| - 1].amount
  }

  /** A turnover line for each total that is positive: credit first, then debit. */
  function TotalLines(credit: real, debit: real): seq<string> {
    (if credit > 0.0 then [TurnoverPrefix + "+" + Grouped2(credit) + Rouble] else []) +
    (if debit > 0.0 then [TurnoverPrefix + "-" + Grouped2(debit) + Rouble] else [])
  }

  function HeadLines(fromDate: string, toDate: string, account: Option<string>): seq<string> {
    [StatementTitle, "Период: " + fromDate + " – " + toDate] +
    (if account.Some? && account.value != "" then ["Счёт: " + account.value] else []) + [""]
  }

  /** The lines of `_format_tbank_statement`. */
  function StatementLines(lib: Library, operations: Json, fromDate: string, toDate: string, account: Option<string>): Result<seq<string>> {
    var head := HeadLines(fromDate, toDate, account);
    if !Truthy(operations) then Ok(head + [NoOperations])
    else
      var list :- Elements(operations);
      var es :- Entries(lib, list);
      Ok(head + [TableHeader] + Rows(es) + [""] + TotalLines(CreditTotal(es), DebitTotal(es)))
  }

  function StatementText(lib: Library, operations: Json, fromDate: string, toDate: string, account: Option<string>): Result<string> {
    var lines :- StatementLines(lib, operations, fromDate, toDate, account);
    Ok(Join("\n", lines))
  }

  lemma {:induction false} EntriesStuck(lib: Library, ops: seq<Json>, n: nat)
    requires n <= |ops| && Entries(lib, ops[..n]).Err?
    ensures Entries(lib, ops) == Entries(lib, ops[..n])
    decreases |ops|
  {
    if n < |ops| {
      var init := ops[..|ops| - 1];
      assert init[..n] == ops[..n];
      EntriesStuck(lib, init, n);
    } else {
      assert ops[..n] == ops;
    }
  }

  /** An operation that does not render fails the whole list with its error. */
  lemma EntriesFail(lib: Library, ops: seq<Json>, i: nat)
    requires i < |ops| && Entries(lib, ops[..i]).Ok? && OpEntry(lib, ops[i]).Err?
    ensures Entries(lib, ops) == Err(OpEntry(lib, ops[i]).error)
  {
    assert ops[..i + 1][..i] == ops[..i];
    EntriesStuck(lib, ops, i + 1);
  }

  /** One more operation that renders adds its row and its amount to one of the two totals. */
  lemma EntriesSnoc(lib: Library, ops: seq<Json>, i: nat, es: seq<Entry>, e: Entry)
    requires i < |ops| && Entries(lib, ops[..i]) == Ok(es) && OpEntry(lib, ops[i]) == Ok(e)
    ensures Entries(lib, ops[..i + 1]) == Ok(es + [e])
    ensures Rows(es + [e]) == Rows(es) + [e.row]
    ensures CreditTotal(es + [e]) == CreditTotal(es) + (if e.credit then e.amount else 0.0)
    ensures DebitTotal(es + [e]) == DebitTotal(es) + (if e.credit then 0.0 else e.amount)
  {
    assert ops[..i + 1][..i] == ops[..i];
    assert (es + [e])[..|es|] == es;
  }

  /** The loop over the operations: one row per operation, and the running credit and debit totals. */
  method AppendRows(lib: Library, ops: seq<Json>, head: seq<string>) returns (r: Result<(seq<string>, real, real)>)
    ensures Entries(lib, ops).Err? ==> r == Err(Entries(lib, ops).error)
    ensures Entries(lib, ops).Ok? ==>
      var es := Entries(lib, ops).value; r == Ok((head + Rows(es), CreditTotal(es), DebitTotal(es)))
  {
    var lines := head;
    var totalDebit, totalCredit := 0.0, 0.0;
    ghost var es: seq<Entry> := [];
    var i := 0;
    while i < |ops|
      invariant i <= |ops|
      invariant Entries(lib, ops[..i]) == Ok(es)
      invariant lines == head + Rows(es)
      invariant totalCredit == CreditTotal(es) && totalDebit == DebitTotal(es)
    {
      var e := OpEntry(lib, ops[i]);
      if e.Err? {
        EntriesFail(lib, ops, i);
        return Err(e.error);
      }
      if e.value.credit {
        totalCredit := totalCredit + e.value.amount;
      } else {
        totalDebit := totalDebit + e.value.amount;
      }
      EntriesSnoc(lib, ops, i, es, e.value);
      lines := lines + [e.value.row];
      es := es + [e.value];
      i := i + 1;
    }
    assert ops[..|ops|] == ops;
    r := Ok((lines, totalCredit, totalDebit));
  }

  /** `_format_tbank_statement(operations, from_date, to_date, account_id)` */
  method FormatTbankStatement(lib: Library, operations: Json, fromDate: string, toDate: string, account: Option<string>)
    returns (r: Result<string>)
    ensures r == StatementText(lib, operations, fromDate, toDate, account)
  {
    var lines := HeadLines(fromDate, toDate, account);
    if !Truthy(operations) {
      lines := lines + [NoOperations];
      return Ok(Join("\n", lines));
    }
    var list := Elements(operations);
    if list.Err? {
      return Err(list.error);
    }
    var rows := AppendRows(lib, list.value, lines + [TableHeader]);
    if rows.Err? {
      return Err(rows.error);
    }
    var totalCredit, totalDebit := rows.value.1, rows.value.2;
    lines := rows.value.0 + [""];
    if totalCredit > 0.0 {
      lines := lines + [TurnoverPrefix + "+" + Grouped2(totalCredit) + Rouble];
    }
    if totalDebit > 0.0 {
      lines := lines + [TurnoverPrefix + "-" + Grouped2(totalDebit) + Rouble];
    }
    assert lines == rows.value.0 + [""] + TotalLines(totalCredit, totalDebit);
    r := Ok(Join("\n", lines));
  }

  /** The T-Bank sandbox route: the statement text, and meta mode "sandbox"; its errors reach the caller unmapped. */
  function SandboxOutcome(lib: Library, c: Call, fromDate: string, toDate: string, reply: Reply): Result<ToolResult> {
    if c.account.None? || c.account.value == "" then Err(FormatError(SandboxAccountError, InvalidParams))
    else
      var data :- JsonBody(reply);
      var ops :- SandboxOperations(data);
      var n :- Len(ops);
      var text :- StatementText(lib, ops, fromDate, toDate, c.account);
      Ok(ToolResult(text, Structured(TBank, fromDate, toDate, ops), Meta("sandbox", n, TBank)))
  }

  // ---- The local mock ----

  const TestMarker: string := "[TEST] "

  function CountText(p: Provider, fromDate: string, toDate: string, n: nat): string {
    "Выписка из " + Upper(Name(p)) + " за " + fromDate + "–" + toDate + "\nОпераций: " + NatToString(n)
  }

  /** The local-mock route: the mock statement as structured content, and its operation count. */
  function MockOutcome(c: Call, fromDate: string, toDate: string, generatedAt: string): ToolResult {
    var payload := StatementMock(Name(c.provider), fromDate, toDate, c.account, generatedAt);
    var n := |Operations(Name(c.provider), fromDate, toDate, Account(c.account))|;
    ToolResult(TestMarker + CountText(c.provider, fromDate, toDate, n), payload, Meta("test", n, c.provider))
  }

  // ---- Requests to the bank ----

  /** `X-API-Key` for Alfa-Bank, a bearer token for the others. */
  function Headers(c: Call): seq<(string, string)> {
    if c.provider == Alfa then [("X-API-Key", c.token)] else [("Authorization", "Bearer " + c.token)]
  }

  function MainUrl(p: Provider): string {
    match p
    case TBank => TbankUrl
    case ModulBank => ModulbankUrl
    case Alfa => AlfaUrl
  }

  /** The period, then `accountId` only when an account was given. */
  function MainParams(fromDate: string, toDate: string, account: Option<string>): seq<(string, Json)> {
    [("from", JStr(fromDate)), ("to", JStr(toDate))] + (if account.Some? && account.value != "" then [("accountId", JStr(account.value))] else [])
  }

  function MainRequest(c: Call, fromDate: string, toDate: string): Request {
    Request(GET, MainUrl(c.provider), Headers(c), MainParams(fromDate, toDate, c.account), None, 30.0)
  }

  /** `data.get("operations") or data.get("transactions") or data.get("items") or data.get("operations", [])` */
  function MainOperations(data: Json): (r: Result<Json>)
    ensures r.Ok? <==> data.JObj?
    ensures r.Ok? ==> var at := (k: string) => Lookup(data.fields, k);
      (at("operations").Some? && Truthy(at("operations").value) ==> r.value == at("operations").value) &&
      (!(at("operations").Some? && Truthy(at("operations").value)) && at("transactions").Some? && Truthy(at("transactions").value) ==>
         r.value == at("transactions").value)
  {
    var ops :- Get(data, "operations", JNull);
    if Truthy(ops) then Ok(ops)
    else
      var transactions := Get(data, "transactions", JNull).value;
      if Truthy(transactions) then Ok(transactions)
      else
        var items := Get(data, "items", JNull).value;
        if Truthy(items) then Ok(items) else Get(data, "operations", JArr([]))
  }

  /** The Modulbank sandbox is selected by test mode, and then authenticates with the sandbox token only. */
  function ModulbankHeaders(env: Env, c: Call): seq<(string, string)> {
    var sandbox := c.mode == "test";
    var auth := if sandbox then ModulbankSandboxToken(env) else c.token;
    [("Authorization", "Bearer " + auth)] +
    (if sandbox then
       [("sandbox", "on"), ("clientId", GetEnv(env, "MODULBANK_SANDBOX_CLIENT_ID", "sandboxapp")),
        ("clientSecret", GetEnv(env, "MODULBANK_SANDBOX_CLIENT_SECRET", "sandboxappsecret")), ("token", auth)]
     else [])
  }

  function ModulbankPayload(sandbox: bool, fromDate: string, toDate: string): Json {
    if sandbox then JObj([("records", JInt(50)), ("skip", JInt(0))])
    else JObj([("from", JStr(fromDate + "T00:00:00")), ("till", JStr(toDate + "T23:59:59"))])
  }

  /** `_fetch_modulbank_history`'s POST to the account's operation history. */
  function ModulbankRequest(env: Env, c: Call, account: string, fromDate: string, toDate: string): Request {
    Request(POST, ModulbankUrl + "/operation-history/" + account, ModulbankHeaders(env, c), [],
            Some(ModulbankPayload(c.mode == "test", fromDate, toDate)), 30.0)
  }

  /** The Modulbank answer: a bare list as it is, else `operations`, then `transactions`, else []. */
  function ModulbankOperations(data: Json): (r: Result<Json>)
    ensures data.JArr? ==> r == Ok(data)
  {
    if data.JArr? then Ok(data)
    else
      var ops :- Get(data, "operations", JNull);
      if Truthy(ops) then Ok(ops)
      else
        var transactions :- Get(data, "transactions", JNull);
        Ok(Or(transactions, JArr([])))
  }

  /** The request of the upstream route. */
  function UpstreamRequest(env: Env, c: Call, fromDate: string, toDate: string): Request
    requires c.provider == ModulBank ==> c.account.Some?
  {
    if c.provider == ModulBank then ModulbankRequest(env, c, c.account.value, fromDate, toDate) else MainRequest(c, fromDate, toDate)
  }

  /** The `except` clauses: an MCP error is re-raised, an HTTP status error reports the status, the rest is generic. */
  function MapError(e: Error): (m: Error)
    ensures m.McpError?
    ensures e.McpError? ==> m == e
    ensures e.HttpStatusError? ==> m == McpError(InternalError, BankErrorPrefix + IntToString(e.status))
    ensures !e.McpError? && !e.HttpStatusError? ==> m == McpError(InternalError, Generic)
  {
    if e.McpError? then e
    else if e.HttpStatusError? then McpError(InternalError, BankErrorPrefix + IntToString(e.status))
    else McpError(InternalError, Generic)
  }

  function MetaMode(c: Call): string {
    if c.mode == "test" && c.provider == ModulBank then "sandbox" else c.mode
  }

  /** The body of the `try` block of the upstream route. */
  function UpstreamResult(c: Call, fromDate: string, toDate: string, reply: Reply): Result<ToolResult> {
    var data :- JsonBody(reply);
    var ops :- if c.provider == ModulBank then ModulbankOperations(data) else MainOperations(data);
    var n :- Len(ops);
    Ok(ToolResult(CountText(c.provider, fromDate, toDate, n), Structured(c.provider, fromDate, toDate, ops), Meta(MetaMode(c), n, c.provider)))
  }

  /** The upstream route, with every failure mapped by the `except` clauses. */
  function UpstreamOutcome(c: Call, fromDate: string, toDate: string, reply: Reply): (r: Result<ToolResult>)
    ensures r.Err? ==> r.error.McpError? && r.error.code == InternalError
    ensures UpstreamResult(c, fromDate, toDate, reply).Ok? ==> r == UpstreamResult(c, fromDate, toDate, reply)
  {
    var u := UpstreamResult(c, fromDate, toDate, reply);
    if u.Ok? then u
    else
      assert !u.error.McpError?;
      Err(MapError(u.error))
  }

  /** `get_bank_statement(from_date, to_date, account_id, bank_provider)` */
  method GetBankStatement(env: Env, lib: Library, fromDate: string, toDate: string, accountId: Option<string>,
                          bankProvider: Option<string>, generatedAt: string, reply: Reply)
    returns (r: Result<ToolResult>, request: Option<Request>)
    ensures Prepare(env, bankProvider, accountId).Err? ==> r == Err(Prepare(env, bankProvider, accountId).error) && request == None
    ensures Prepare(env, bankProvider, accountId).Ok? ==>
      var c := Prepare(env, bankProvider, accountId).value;
      (RouteOf(c) == TbankSandbox ==>
         request == (if c.account.Some? then Some(SandboxRequest(env, c.account.value, fromDate, toDate)) else None) &&
         r == SandboxOutcome(lib, c, fromDate, toDate, reply)) &&
      (RouteOf(c) == LocalMock ==> request == None && r == Ok(MockOutcome(c, fromDate, toDate, generatedAt))) &&
      (RouteOf(c) == Upstream ==>
         request == Some(UpstreamRequest(env, c, fromDate, toDate)) && r == UpstreamOutcome(c, fromDate, toDate, reply))
  {
    var prepared := Prepare(env, bankProvider, accountId);
    if prepared.Err? {
      return Err(prepared.error), None;
    }
    var c := prepared.value;
    match RouteOf(c)
    case TbankSandbox =>
      if c.account.None? {
        return Err(FormatError(SandboxAccountError, InvalidParams)), None;
      }
      request := Some(SandboxRequest(env, c.account.value, fromDate, toDate));
      var data := JsonBody(reply);
      if data.Err? {
        return Err(data.error), request;
      }
      var ops := SandboxOperations(data.value);
      if ops.Err? {
        return Err(ops.error), request;
      }
      var n := Len(ops.value);
      if n.Err? {
        return Err(n.error), request;
      }
      var text := FormatTbankStatement(lib, ops.value, fromDate, toDate, c.account);
      if text.Err? {
        return Err(text.error), request;
      }
      r := Ok(ToolResult(text.value, Structured(TBank, fromDate, toDate, ops.value), Meta("sandbox", n.value, TBank)));
    case LocalMock =>
      r, request := Ok(MockOutcome(c, fromDate, toDate, generatedAt)), None;
    case Upstream =>
      request := Some(UpstreamRequest(env, c, fromDate, toDate));
      r := UpstreamOutcome(c, fromDate, toDate, reply);
  }

  // ---- Properties ----

  /** A non-empty `bank_provider` argument counts exactly as if it were BANK_PROVIDER; an empty one falls back to the variable. */
  lemma ExplicitProviderWins(env: Env, s: string)
    ensures s != "" ==> ResolveProvider(env, Some(s)) == ResolveProvider(env[ProviderVar := s], None)
    ensures ResolveProvider(env, Some("")) == ResolveProvider(env, None)
  {
  }

  /** The three token variables. */
  lemma TokenVars()
    ensures TokenVar(TBank) == "T_BANK_TOKEN" && TokenVar(ModulBank) == "MODULBANK_TOKEN" && TokenVar(Alfa) == "ALFA_TOKEN"
  {
    assert Upper(Name(ModulBank)) == "MODULBANK";
    assert Upper(Name(Alfa)) == "ALFA";
  }

  /** An unknown provider is rejected first, with -32602. */
  lemma UnknownProviderRejected(env: Env, bankProvider: Option<string>, accountId: Option<string>)
    requires forall p: Provider :: Name(p) != Lower(ProviderSource(env, bankProvider))
    ensures Prepare(env, bankProvider, accountId) == Err(McpError(InvalidParams, ProviderError))
  {
    assert Name(TBank) != Lower(ProviderSource(env, bankProvider));
    assert Name(ModulBank) != Lower(ProviderSource(env, bankProvider));
    assert Name(Alfa) != Lower(ProviderSource(env, bankProvider));
  }

  /** The rejection names the variable to set. */
  lemma ProviderErrorNamesVariable()
    ensures IsSubstring(ProviderVar, ProviderError)
  {
    SubstringOfConcat("Укажите ", ProviderVar, ": tbank|modulbank|alfa");
  }

  /**
   * The credential gate: outside the Modulbank sandbox, an unset token
   * variable fails with -32602 naming it, whatever the mode and before the
   * account is looked at (T-Bank and Alfa-Bank need theirs even in test mode).
   */
  lemma CredentialGate(env: Env, bankProvider: Option<string>, accountId: Option<string>, p: Provider)
    requires ResolveProvider(env, bankProvider) == Ok(p)
    requires p != ModulBank || Mode(env) != "test"
    requires !EnvSet(env, TokenVar(p))
    ensures Prepare(env, bankProvider, accountId) == Err(McpError(InvalidParams, MissingPrefix + TokenVar(p)))
  {
    OneMissing(env, TokenVar(p));
  }

  /** Modulbank in test mode needs no token variable: it uses MODULBANK_SANDBOX_TOKEN, "sandboxtoken" by default. */
  lemma ModulbankSandboxGate(env: Env, bankProvider: Option<string>, accountId: Option<string>)
    requires ResolveProvider(env, bankProvider) == Ok(ModulBank) && Mode(env) == "test"
    requires NormalizedAccount(accountId).Some?
    ensures Prepare(env, bankProvider, accountId).Ok?
    ensures Prepare(env, bankProvider, accountId).value.token == GetEnv(env, ModulbankSandboxTokenVar, "sandboxtoken")
    ensures RouteOf(Prepare(env, bankProvider, accountId).value) == Upstream
  {
  }

  /** Once past the gate, Modulbank without a non-blank account fails with -32602. */
  lemma ModulbankNeedsAccount(env: Env, bankProvider: Option<string>, accountId: Option<string>)
    requires ResolveProvider(env, bankProvider) == Ok(ModulBank) && Token(env, ModulBank, Mode(env)).Ok?
    requires accountId.None? || Strip(accountId.value) == ""
    ensures Prepare(env, bankProvider, accountId) == Err(McpError(InvalidParams, ModulbankAccountError))
  {
  }

  /** Test mode sends T-Bank to its sandbox and Alfa-Bank to the local mock; everything else goes to the bank. */
  lemma RouteTable(c: Call)
    ensures RouteOf(c) == TbankSandbox <==> c.mode == "test" && c.provider == TBank
    ensures RouteOf(c) == LocalMock <==> c.mode == "test" && c.provider == Alfa
    ensures RouteOf(c) == Upstream <==> c.mode != "test" || c.provider == ModulBank
  {
  }

  /** meta.mode of the local mock is "test". */
  lemma MockMetaMode(c: Call, fromDate: string, toDate: string, generatedAt: string)
    ensures MockOutcome(c, fromDate, toDate, generatedAt).meta.fields[0] == ("mode", JStr("test"))
  {
  }

  /** meta.mode of the T-Bank sandbox is "sandbox". */
  lemma SandboxMetaMode(lib: Library, c: Call, fromDate: string, toDate: string, reply: Reply)
    requires SandboxOutcome(lib, c, fromDate, toDate, reply).Ok?
    ensures SandboxOutcome(lib, c, fromDate, toDate, reply).value.meta.fields[0] == ("mode", JStr("sandbox"))
  {
  }

  /** meta.mode of a bank call is "sandbox" for the Modulbank sandbox and the MODE value otherwise. */
  lemma UpstreamMetaMode(c: Call, fromDate: string, toDate: string, reply: Reply)
    requires UpstreamOutcome(c, fromDate, toDate, reply).Ok?
    ensures UpstreamOutcome(c, fromDate, toDate, reply).value.meta.fields[0] ==
      ("mode", JStr(if c.mode == "test" && c.provider == ModulBank then "sandbox" else c.mode))
  {
  }

  /** The mock route reports the mock's two operations. */
  lemma MockCount(c: Call, fromDate: string, toDate: string, generatedAt: string)
    ensures MockOutcome(c, fromDate, toDate, generatedAt).meta.fields[1] == ("total_operations", JInt(2))
    ensures MockOutcome(c, fromDate, toDate, generatedAt).structured == StatementMock(Name(c.provider), fromDate, toDate, c.account, generatedAt)
  {
  }

  /** The T-Bank sandbox without an account fails with -32602 before any request. */
  lemma SandboxNeedsAccount(lib: Library, c: Call, fromDate: string, toDate: string, reply: Reply)
    requires c.account.None?
    ensures SandboxOutcome(lib, c, fromDate, toDate, reply) == Err(McpError(InvalidParams, SandboxAccountError))
  {
  }

  /** Alfa-Bank authenticates with `X-API-Key`, the other banks with a bearer token. */
  lemma AuthHeader(c: Call)
    ensures |Headers(c)| == 1
    ensures c.provider == Alfa ==> Headers(c)[0] == ("X-API-Key", c.token)
    ensures c.provider != Alfa ==> Headers(c)[0] == ("Authorization", "Bearer " + c.token)
  {
  }

  /** The main GET sends the period and adds `accountId` only when an account was given. */
  lemma AccountParam(fromDate: string, toDate: string, account: Option<string>)
    ensures MainParams(fromDate, toDate, account)[..2] == [("from", JStr(fromDate)), ("to", JStr(toDate))]
    ensures "accountId" in Keys(MainParams(fromDate, toDate, account)) <==> account.Some? && account.value != ""
  {
    var ps := MainParams(fromDate, toDate, account);
    if account.Some? && account.value != "" {
      assert Keys(ps)[2] == "accountId";
    } else {
      assert Keys(ps) == ["from", "to"];
    }
  }

  /** The T-Bank sandbox request: the sandbox bearer token, and the period from midnight to the last millisecond. */
  lemma SandboxShape(env: Env, account: string, fromDate: string, toDate: string)
    requires "T_BANK_SANDBOX_TOKEN" !in env
    ensures SandboxRequest(env, account, fromDate, toDate).headers == [("Authorization", "Bearer TBankSandboxToken")]
    ensures SandboxRequest(env, account, fromDate, toDate).params ==
      [("accountNumber", JStr(account)), ("from", JStr(fromDate + "T00:00:00.000Z")), ("to", JStr(toDate + "T23:59:59.999Z"))]
  {
    assert SandboxToken(env) == "TBankSandboxToken";
    assert "Bearer " + "TBankSandboxToken" == "Bearer TBankSandboxToken";
  }

  /** With no sandbox variables set, the Modulbank sandbox request carries the documented sandbox credentials and asks for 50 records. */
  lemma ModulbankSandboxShape(env: Env, c: Call, account: string, fromDate: string, toDate: string)
    requires c.mode == "test"
    requires ModulbankSandboxTokenVar !in env && "MODULBANK_SANDBOX_CLIENT_ID" !in env && "MODULBANK_SANDBOX_CLIENT_SECRET" !in env
    ensures var q := ModulbankRequest(env, c, account, fromDate, toDate);
      q.verb == POST && q.url == ModulbankUrl + "/operation-history/" + account &&
      q.headers == [("Authorization", "Bearer sandboxtoken"), ("sandbox", "on"), ("clientId", "sandboxapp"),
                    ("clientSecret", "sandboxappsecret"), ("token", "sandboxtoken")] &&
      q.payload == Some(JObj([("records", JInt(50)), ("skip", JInt(0))]))
  {
    assert ModulbankSandboxToken(env) == "sandboxtoken";
    assert "Bearer " + "sandboxtoken" == "Bearer sandboxtoken";
  }

  /** Outside test mode, Modulbank is asked for the whole days of the period with the configured token. */
  lemma ModulbankProdShape(env: Env, c: Call, account: string, fromDate: string, toDate: string)
    requires c.mode != "test"
    ensures var q := ModulbankRequest(env, c, account, fromDate, toDate);
      q.headers == [("Authorization", "Bearer " + c.token)] &&
      q.payload == Some(JObj([("from", JStr(fromDate + "T00:00:00")), ("till", JStr(toDate + "T23:59:59"))]))
  {
  }

  /** When none of operations, transactions and items is truthy, the main GET falls back to `operations` itself, or []. */
  lemma MainOperationsFallback(fields: seq<(string, Json)>)
    requires forall k :: k in ["operations", "transactions", "items"] ==> Lookup(fields, k).None? || !Truthy(Lookup(fields, k).value)
    ensures MainOperations(JObj(fields)) == Ok(if Lookup(fields, "operations").Some? then Lookup(fields, "operations").value else JArr([]))
  {
    assert "operations" in ["operations", "transactions", "items"];
    assert "transactions" in ["operations", "transactions", "items"];
    assert "items" in ["operations", "transactions", "items"];
  }

  /** Modulbank: a dict answer yields `operations` when truthy, else `transactions` when truthy, else []. */
  lemma ModulbankSelection(fields: seq<(string, Json)>)
    ensures var ops, tr := Lookup(fields, "operations"), Lookup(fields, "transactions");
      ModulbankOperations(JObj(fields)) ==
        Ok(if ops.Some? && Truthy(ops.value) then ops.value else if tr.Some? && Truthy(tr.value) then tr.value else JArr([]))
  {
  }

  /** A bank's HTTP error is reported with its status; a failure to reach it, with the generic message. */
  lemma UpstreamErrors(c: Call, fromDate: string, toDate: string, reply: Reply)
    ensures reply.Response? && !IsSuccess(reply.status) ==>
      UpstreamOutcome(c, fromDate, toDate, reply) == Err(McpError(InternalError, BankErrorPrefix + IntToString(reply.status)))
    ensures reply.TransportFailure? ==> UpstreamOutcome(c, fromDate, toDate, reply) == Err(McpError(InternalError, Generic))
  {
  }

  /** The T-Bank sandbox call lies outside the `try` block: its HTTP error reaches the caller as it is. */
  lemma SandboxErrorsUnmapped(lib: Library, c: Call, fromDate: string, toDate: string, reply: Reply)
    requires c.account.Some? && c.account.value != ""
    requires reply.Response? && !IsSuccess(reply.status)
    ensures SandboxOutcome(lib, c, fromDate, toDate, reply) == Err(HttpStatusError(reply.status))
  {
  }

  /** No operations: the header lines and "Операций не найдено", no table and no totals. */
  lemma EmptyStatement(lib: Library, operations: Json, fromDate: string, toDate: string, account: Option<string>)
    requires !Truthy(operations)
    ensures StatementLines(lib, operations, fromDate, toDate, account) == Ok(HeadLines(fromDate, toDate, account) + [NoOperations])
  {
  }

  /** One entry per operation, each that operation's own. */
  lemma {:induction false} EntryPerOperation(lib: Library, ops: seq<Json>)
    requires Entries(lib, ops).Ok?
    ensures |Entries(lib, ops).value| == |ops|
    ensures forall i :: 0 <= i < |ops| ==> OpEntry(lib, ops[i]) == Ok(Entries(lib, ops).value[i])
    decreases |ops|
  {
    if ops != [] {
      var init := ops[..|ops| - 1];
      assert Entries(lib, init).Ok? && OpEntry(lib, ops[|ops| - 1]).Ok?;
      var es := Entries(lib, init).value;
      var e := OpEntry(lib, ops[|ops| - 1]).value;
      assert Entries(lib, ops) == Ok(es + [e]);
      EntryPerOperation(lib, init);
      forall i | 0 <= i < |ops|
        ensures OpEntry(lib, ops[i]) == Ok(Entries(lib, ops).value[i])
      {
        if i < |init| {
          assert ops[i] == init[i];
          assert (es + [e])[i] == es[i];
        } else {
          assert (es + [e])[i] == e;
        }
      }
    }
  }

  /** Every amount lands in exactly one of the two totals. */
  lemma {:induction false} TotalsPartition(es: seq<Entry>)
    ensures CreditTotal(es) + DebitTotal(es) == Turnover(es)
    decreases |es|
  {
    if es != [] {
      TotalsPartition(es[..|es| - 1]);
    }
  }

  /** With only credit operations the debit total is zero, so no debit line is printed. */
  lemma {:induction false} CreditsOnly(es: seq<Entry>)
    requires forall i :: 0 <= i < |es| ==> es[i].credit
    ensures DebitTotal(es) == 0.0
    ensures CreditTotal(es) > 0.0 ==> TotalLines(CreditTotal(es), DebitTotal(es)) == [TurnoverPrefix + "+" + Grouped2(CreditTotal(es)) + Rouble]
    decreases |es|
  {
    if es != [] {
      CreditsOnly(es[..|es| - 1]);
    }
  }

  /** Each total line appears exactly when its total is positive, credit before debit. */
  lemma TotalLinesShown(credit: real, debit: real)
    ensures |TotalLines(credit, debit)| == (if credit > 0.0 then 1 else 0) + (if debit > 0.0 then 1 else 0)
    ensures credit > 0.0 ==> TotalLines(credit, debit)[0] == TurnoverPrefix + "+" + Grouped2(credit) + Rouble
    ensures debit > 0.0 ==> TotalLines(credit, debit)[|TotalLines(credit, debit)| - 1] == TurnoverPrefix + "-" + Grouped2(debit) + Rouble
  {
  }
}
