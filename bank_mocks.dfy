/**
 * The test-mode statement of the bank-statement server: two operations per
 * provider, the first on the first day of the period and incoming, the
 * second on the last day and outgoing. The wall-clock `generatedAt` stamp
 * is a parameter.
 */
module BankMocks {
  import opened Wrappers
  import opened JsonValues
  import opened Strings

  const DefaultAccount: string := "test-account-001"

  /** `_operation(op_id=…, amount=…, currency=…, description=…, dt=…, account_id=…, balance_after=…)` */
  function Operation(opId: string, amount: real, currency: string, description: string, dt: string,
                     accountId: string, balanceAfter: Option<real>): (op: Json)
    ensures op.JObj? && |op.fields| == 7
    ensures op.fields[0] == ("id", JStr(opId)) && op.fields[1] == ("date", JStr(dt)) && op.fields[2] == ("amount", JReal(amount))
    ensures op.fields[5] == ("accountId", JStr(accountId))
    ensures op.fields[6] == ("balanceAfter", if balanceAfter.None? then JNull else JReal(balanceAfter.value))
  {
    JObj([("id", JStr(opId)), ("date", JStr(dt)), ("amount", JReal(amount)), ("currency", JStr(currency)),
          ("description", JStr(description)), ("accountId", JStr(accountId)),
          ("balanceAfter", if balanceAfter.None? then JNull else JReal(balanceAfter.value))])
  }

  /** `account_id or "test-account-001"` */
  function Account(accountId: Option<string>): string {
    if accountId.None? || accountId.value == "" then DefaultAccount else accountId.value
  }

  /** The two operations of a provider's statement. */
  function Operations(provider: string, fromDate: string, toDate: string, account: string): seq<Json> {
    if provider == "tbank" then
      [Operation("tb-1", 15000.0, "RUB", "Поступление от ООО Альфа", fromDate + "T10:00:00Z", account, Some(115000.0)),
       Operation("tb-2", -3200.5, "RUB", "Оплата поставщику", toDate + "T15:30:00Z", account, Some(111799.5))]
    else if provider == "modulbank" then
      [Operation("mb-1", 50250.75, "RUB", "Зачисление по счету", fromDate + "T09:15:00Z", account, None),
       Operation("mb-2", -12500.0, "RUB", "Выплата контрагенту", toDate + "T18:45:00Z", account, None)]
    else
      [Operation("alfa-1", 8800.0, "RUB", "Зачисление клиент", fromDate + "T12:00:00Z", account, None),
       Operation("alfa-2", -2100.0, "RUB", "Комиссия банка", toDate + "T16:10:00Z", account, None)]
  }

  /** `get_bank_statement_mock(provider, from_date, to_date, account_id)`, stamped `generatedAt`. */
  function StatementMock(provider: string, fromDate: string, toDate: string, accountId: Option<string>, generatedAt: string): Json {
    var account := Account(accountId);
    JObj([("bank", JStr(provider)), ("period", JObj([("from", JStr(fromDate)), ("to", JStr(toDate))])),
          ("accountId", JStr(account)), ("operations", JArr(Operations(provider, fromDate, toDate, account))),
          ("generatedAt", JStr(generatedAt)), ("mode", JStr("test")), ("dateRange", JStr(fromDate + ".." + toDate))])
  }

  /** The id prefix of a provider's operations. */
  function IdPrefix(provider: string): string {
    if provider == "tbank" then "tb-" else if provider == "modulbank" then "mb-" else "alfa-"
  }

  /**
   * Every provider gets two operations on the given account: the first dated
   * on `fromDate` with a positive amount, the second on `toDate` with a
   * negative one.
   */
  lemma TwoOperations(provider: string, fromDate: string, toDate: string, account: string)
    ensures var ops := Operations(provider, fromDate, toDate, account);
      |ops| == 2 &&
      (forall k :: 0 <= k < 2 ==> ops[k].JObj? && |ops[k].fields| == 7 && ops[k].fields[5] == ("accountId", JStr(account))) &&
      ops[0].fields[1].1.JStr? && StartsWith(ops[0].fields[1].1.s, fromDate) &&
      ops[1].fields[1].1.JStr? && StartsWith(ops[1].fields[1].1.s, toDate) &&
      ops[0].fields[2].1.JReal? && ops[0].fields[2].1.r > 0.0 &&
      ops[1].fields[2].1.JReal? && ops[1].fields[2].1.r < 0.0
  {
  }

  /** The operation ids carry the provider's prefix, and only T-Bank's operations carry a balance. */
  lemma OperationIds(provider: string, fromDate: string, toDate: string, account: string)
    ensures var ops := Operations(provider, fromDate, toDate, account);
      |ops| == 2 &&
      (forall k :: 0 <= k < 2 ==>
         ops[k].JObj? && |ops[k].fields| == 7 && ops[k].fields[0].1.JStr? && StartsWith(ops[k].fields[0].1.s, IdPrefix(provider))) &&
      (forall k :: 0 <= k < 2 ==> (ops[k].fields[6].1 != JNull <==> provider == "tbank"))
  {
  }

  /** A missing or empty account id becomes "test-account-001"; it is the top-level `accountId` and every operation's. */
  lemma AccountEverywhere(provider: string, fromDate: string, toDate: string, accountId: Option<string>, generatedAt: string)
    ensures var m := StatementMock(provider, fromDate, toDate, accountId, generatedAt);
      m.JObj? && m.fields[2] == ("accountId", JStr(Account(accountId))) &&
      m.fields[3] == ("operations", JArr(Operations(provider, fromDate, toDate, Account(accountId))))
    ensures accountId.None? || accountId == Some("") ==> Account(accountId) == DefaultAccount
  {
  }

  /** The payload names the provider, the period, the test mode and the range "from..to". */
  lemma MockHeader(provider: string, fromDate: string, toDate: string, accountId: Option<string>, generatedAt: string)
    ensures var m := StatementMock(provider, fromDate, toDate, accountId, generatedAt);
      m.JObj? && |m.fields| == 7 && m.fields[0] == ("bank", JStr(provider)) &&
      m.fields[1] == ("period", JObj([("from", JStr(fromDate)), ("to", JStr(toDate))])) &&
      m.fields[5] == ("mode", JStr("test")) && m.fields[6] == ("dateRange", JStr(fromDate + ".." + toDate))
  {
  }

  /** Two statements for the same arguments differ at most in their `generatedAt` stamp. */
  lemma OnlyClockVaries(provider: string, fromDate: string, toDate: string, accountId: Option<string>, t1: string, t2: string)
    ensures var m1, m2 := StatementMock(provider, fromDate, toDate, accountId, t1), StatementMock(provider, fromDate, toDate, accountId, t2);
      m1.JObj? && m2.JObj? && |m1.fields| == |m2.fields| &&
      forall k :: 0 <= k < |m1.fields| && k != 4 ==> m1.fields[k] == m2.fields[k]
  {
  }
}
