/**
 * The `generate_osno_declaration` tool: check the INN, build the profit-tax
 * tree, compute the tax and package text, structured content and meta.
 */
module OsnoDeclaration {
  import opened Strings
  import opened Wrappers
  import opened JsonValues
  import opened Common
  import opened FnsUtils
  import opened XmlGenerator

  const OsnoFooter: string := "XML декларация сгенерирована по формату ФНС (КНД 1151001)"

  /** The human-readable report, one line per figure, amounts with thousands separators. */
  function OsnoText(inn: string, period: Period, year: int, income: real, expenses: real,
                    profit: real, loss: real, nds: real, tax: real): string {
    Join("\n", [
      "Декларация ОСНО за " + period.Name() + " " + IntToString(year),
      "ИНН: " + inn,
      "Доходы: " + Grouped2(income) + " ₽",
      "Расходы: " + Grouped2(expenses) + " ₽",
      "Прибыль: " + Grouped2(profit) + " ₽",
      "Убыток: " + Grouped2(loss) + " ₽",
      "НДС к уплате: " + Grouped2(nds) + " ₽",
      "Налог на прибыль к уплате: " + Grouped2(tax) + " ₽",
      OsnoFooter])
  }

  function OsnoStructured(xml: string, inn: string, period: Period, year: int, income: real, expenses: real,
                          profit: real, loss: real, nds: real, tax: real): Json {
    JObj([("inn", JStr(inn)), ("period", JStr(period.Name())), ("year", JInt(year)), ("income", JReal(income)),
          ("expenses", JReal(expenses)), ("profit", JReal(profit)), ("loss", JReal(loss)), ("nds", JReal(nds)),
          ("tax_amount", JReal(tax)), ("declaration_xml", JStr(xml)),
          ("status", JStr("generated")), ("format", JStr("КНД 1151001")), ("version", JStr("5.10"))])
  }

  function OsnoMeta(tax: real): Json {
    JObj([("tax_amount", JReal(tax)), ("declaration_type", JStr("OSNO"))])
  }

  /** The tool's result for a serialised tree and a tax amount. */
  function OsnoPackage(xml: string, inn: string, period: Period, year: int, income: real, expenses: real,
                       profit: real, loss: real, nds: real, tax: real): ToolResult {
    ToolResult(OsnoText(inn, period, year, income, expenses, profit, loss, nds, tax),
               OsnoStructured(xml, inn, period, year, income, expenses, profit, loss, nds, tax),
               OsnoMeta(tax))
  }

  /**
   * `generate_osno_declaration(inn, period, year, income, profit, expenses=0.0, loss=0.0, nds=0.0)`.
   * `serialize` stands for `etree.tostring` of the finished tree. An INN that
   * `validate_inn` rejects fails before anything is generated; an INN it accepts
   * but lxml cannot write fails as an internal error carrying lxml's message.
   */
  function GenerateOsnoDeclaration(serialize: Element -> string, inn: string, period: Period, year: int,
                                   income: real, profit: real, expenses: real := 0.0, loss: real := 0.0,
                                   nds: real := 0.0): (r: Result<ToolResult>)
    ensures !ValidateInn(inn) ==> r == Err(InvalidInn())
    ensures ValidateInn(inn) ==> (r.Ok? <==> XmlCompatible(inn))
    ensures ValidateInn(inn) && r.Err? ==> r.error == McpError(InternalError, DeclarationFailed + XmlValueMessage)
  {
    if !ValidateInn(inn) then Err(InvalidInn())
    else OsnoBuilt(serialize, inn, period, year, income, profit, expenses, loss, nds)
  }

  /** The part after the INN check: the tree, then the package with a 20% tax, or lxml's error as an internal error. */
  function OsnoBuilt(serialize: Element -> string, inn: string, period: Period, year: int,
                     income: real, profit: real, expenses: real, loss: real, nds: real): (r: Result<ToolResult>)
    ensures r.Ok? <==> XmlCompatible(inn)
    ensures r.Err? ==> r.error == McpError(InternalError, DeclarationFailed + XmlValueMessage)
  {
    match OsnoXml(inn, period, year, income, expenses, profit, loss, nds)
    case Err(e) =>
      Err(McpError(InternalError, DeclarationFailed + ExceptionText(e)))
    case Ok(tree) =>
      var taxAmount := profit * 0.20;
      Ok(OsnoPackage(serialize(tree), inn, period, year, income, expenses, profit, loss, nds, taxAmount))
  }

  /** A generated declaration packages the tree and the tax the generator computes. */
  lemma OsnoDeclarationOk(serialize: Element -> string, inn: string, period: Period, year: int,
                          income: real, profit: real, expenses: real, loss: real, nds: real)
    requires ValidateInn(inn) && XmlCompatible(inn)
    ensures GenerateOsnoDeclaration(serialize, inn, period, year, income, profit, expenses, loss, nds) ==
            Ok(OsnoPackage(serialize(OsnoXml(inn, period, year, income, expenses, profit, loss, nds).value),
                           inn, period, year, income, expenses, profit, loss, nds, OsnoTax(profit)))
  {
  }

  lemma OsnoStructuredTax(xml: string, inn: string, period: Period, year: int, income: real, expenses: real,
                          profit: real, loss: real, nds: real, tax: real)
    ensures Lookup(OsnoStructured(xml, inn, period, year, income, expenses, profit, loss, nds, tax).fields, "tax_amount") == Some(JReal(tax))
    ensures Lookup(OsnoMeta(tax).fields, "tax_amount") == Some(JReal(tax))
  {
    LookupAt(OsnoStructured(xml, inn, period, year, income, expenses, profit, loss, nds, tax).fields, 8, "tax_amount");
  }

  lemma OsnoStructuredXml(xml: string, inn: string, period: Period, year: int, income: real, expenses: real,
                          profit: real, loss: real, nds: real, tax: real)
    ensures Lookup(OsnoStructured(xml, inn, period, year, income, expenses, profit, loss, nds, tax).fields, "declaration_xml") == Some(JStr(xml))
  {
    LookupAt(OsnoStructured(xml, inn, period, year, income, expenses, profit, loss, nds, tax).fields, 9, "declaration_xml");
  }

  /**
   * A declaration that was generated reports, in its structured content and
   * in its meta, the same tax the tree carries under `СумНалУпл` (20 % of the
   * profit, negative for a negative profit), and the serialised tree as `declaration_xml`.
   */
  lemma OsnoDeclarationConsistent(serialize: Element -> string, inn: string, period: Period, year: int,
                                  income: real, profit: real, expenses: real, loss: real, nds: real)
    requires ValidateInn(inn) && XmlCompatible(inn)
    ensures var r := GenerateOsnoDeclaration(serialize, inn, period, year, income, profit, expenses, loss, nds);
            var tree := OsnoXml(inn, period, year, income, expenses, profit, loss, nds).value;
            var tax := OsnoTax(profit);
            r.Ok? && OsnoTaxAmount(tree) == Some(tax) &&
            Lookup(r.value.structured.fields, "tax_amount") == Some(JReal(tax)) &&
            Lookup(r.value.structured.fields, "declaration_xml") == Some(JStr(serialize(tree))) &&
            Lookup(r.value.meta.fields, "tax_amount") == Some(JReal(tax))
  {
    var tree := OsnoXml(inn, period, year, income, expenses, profit, loss, nds).value;
    OsnoTreeTax(inn, period, year, income, expenses, profit, loss, nds);
    OsnoDeclarationOk(serialize, inn, period, year, income, profit, expenses, loss, nds);
    OsnoStructuredTax(serialize(tree), inn, period, year, income, expenses, profit, loss, nds, OsnoTax(profit));
    OsnoStructuredXml(serialize(tree), inn, period, year, income, expenses, profit, loss, nds, OsnoTax(profit));
  }

  /** An INN of 10 or 12 digits always yields a declaration. */
  lemma OsnoDigitsGenerate(serialize: Element -> string, d: string, period: Period, year: int,
                           income: real, profit: real, expenses: real, loss: real, nds: real)
    requires IsDigits(d) && (|d| == 10 || |d| == 12)
    ensures GenerateOsnoDeclaration(serialize, d, period, year, income, profit, expenses, loss, nds).Ok?
  {
    AcceptsDigits(d);
    DigitsCompatible(d);
  }

  /**
   * An INN that `validate_inn` accepts only because `strip()` drops a leading
   * U+001C reaches lxml, which refuses it: the tool ends with an internal error.
   */
  lemma OsnoSeparatorInn(serialize: Element -> string, d: string, period: Period, year: int,
                         income: real, profit: real, expenses: real, loss: real, nds: real)
    requires IsDigits(d) && (|d| == 10 || |d| == 12)
    ensures GenerateOsnoDeclaration(serialize, "\U{1C}" + d, period, year, income, profit, expenses, loss, nds)
            == Err(McpError(InternalError, DeclarationFailed + XmlValueMessage))
  {
    SeparatorPrefixAccepted(d);
    SeparatorIncompatible(d);
  }
}
