/**
 * The `generate_usn_declaration` tool: check the INN, build the USN tree,
 * compute the tax to pay and package text, structured content and meta.
 */
module UsnDeclaration {
  import opened Strings
  import opened Wrappers
  import opened JsonValues
  import opened Common
  import opened FnsUtils
  import opened XmlGenerator

  const UsnFooter: string := "XML декларация сгенерирована по формату ФНС (КНД 1152017)"

  /** The human-readable report, one line per figure, amounts with thousands separators. */
  function UsnText(inn: string, period: Period, year: int, income: real, expenses: real,
                   taxRate: int, tax: real): string {
    Join("\n", [
      "Декларация УСН " + IntToString(taxRate) + "% за " + period.Name() + " " + IntToString(year),
      "ИНН: " + inn,
      "Доходы: " + Grouped2(income) + " ₽",
      "Расходы: " + Grouped2(expenses) + " ₽",
      "Налог к уплате: " + Grouped2(tax) + " ₽",
      UsnFooter])
  }

  function UsnStructured(xml: string, inn: string, period: Period, year: int, income: real, expenses: real,
                         taxRate: int, tax: real): Json {
    JObj([("inn", JStr(inn)), ("period", JStr(period.Name())), ("year", JInt(year)), ("income", JReal(income)),
          ("expenses", JReal(expenses)), ("tax_rate", JInt(taxRate)), ("tax_amount", JReal(tax)),
          ("declaration_xml", JStr(xml)),
          ("status", JStr("generated")), ("format", JStr("КНД 1152017")), ("version", JStr("5.05"))])
  }

  function UsnMeta(taxRate: int, tax: real): Json {
    JObj([("tax_amount", JReal(tax)), ("declaration_type", JStr("USN_" + IntToString(taxRate)))])
  }

  /** The tool's result for a serialised tree and a tax amount. */
  function UsnPackage(xml: string, inn: string, period: Period, year: int, income: real, expenses: real,
                      taxRate: int, tax: real): ToolResult {
    ToolResult(UsnText(inn, period, year, income, expenses, taxRate, tax),
               UsnStructured(xml, inn, period, year, income, expenses, taxRate, tax),
               UsnMeta(taxRate, tax))
  }

  /**
   * `generate_usn_declaration(inn, period, year, income, expenses=0.0, tax_rate=6)`.
   * `serialize` stands for `etree.tostring` of the finished tree. An INN that
   * `validate_inn` rejects fails before anything is generated; an INN it accepts
   * but lxml cannot write fails as an internal error carrying lxml's message.
   */
  function GenerateUsnDeclaration(serialize: Element -> string, inn: string, period: Period, year: int,
                                  income: real, expenses: real := 0.0, taxRate: int := 6): (r: Result<ToolResult>)
    requires taxRate == 6 || taxRate == 15
    ensures !ValidateInn(inn) ==> r == Err(InvalidInn())
    ensures ValidateInn(inn) ==> (r.Ok? <==> XmlCompatible(inn))
    ensures ValidateInn(inn) && r.Err? ==> r.error == McpError(InternalError, DeclarationFailed + XmlValueMessage)
  {
    if !ValidateInn(inn) then Err(InvalidInn())
    else
      match UsnXml(inn, period, year, income, expenses, taxRate)
      case Err(e) =>
        Err(McpError(InternalError, DeclarationFailed + ExceptionText(e)))
      case Ok(tree) =>
        var taxAmount :=
          if taxRate == 6 then income * 0.06
          else
            var taxBase := income - expenses;
            if taxBase > 0.0 then taxBase * 0.15 else 0.0;
        Ok(UsnPackage(serialize(tree), inn, period, year, income, expenses, taxRate, taxAmount))
  }

  /** A generated declaration packages the serialised tree and the tax the generator computes. */
  lemma UsnDeclarationOk(serialize: Element -> string, inn: string, period: Period, year: int,
                         income: real, expenses: real, taxRate: int)
    requires taxRate == 6 || taxRate == 15
    requires ValidateInn(inn) && XmlCompatible(inn)
    ensures GenerateUsnDeclaration(serialize, inn, period, year, income, expenses, taxRate) ==
            Ok(UsnPackage(serialize(UsnXml(inn, period, year, income, expenses, taxRate).value),
                          inn, period, year, income, expenses, taxRate, UsnTax(income, expenses, taxRate)))
  {
  }

  lemma UsnStructuredTax(xml: string, inn: string, period: Period, year: int, income: real, expenses: real,
                         taxRate: int, tax: real)
    ensures Lookup(UsnStructured(xml, inn, period, year, income, expenses, taxRate, tax).fields, "tax_amount") == Some(JReal(tax))
    ensures Lookup(UsnMeta(taxRate, tax).fields, "tax_amount") == Some(JReal(tax))
  {
    LookupAt(UsnStructured(xml, inn, period, year, income, expenses, taxRate, tax).fields, 6, "tax_amount");
  }

  lemma UsnStructuredXml(xml: string, inn: string, period: Period, year: int, income: real, expenses: real,
                         taxRate: int, tax: real)
    ensures Lookup(UsnStructured(xml, inn, period, year, income, expenses, taxRate, tax).fields, "declaration_xml") == Some(JStr(xml))
  {
    LookupAt(UsnStructured(xml, inn, period, year, income, expenses, taxRate, tax).fields, 7, "declaration_xml");
  }

  /**
   * A declaration that was generated reports, in its structured content and
   * in its meta, the same tax the tree carries under `СумНалУпл`, and the
   * serialised tree as `declaration_xml`.
   */
  lemma UsnDeclarationConsistent(serialize: Element -> string, inn: string, period: Period, year: int,
                                 income: real, expenses: real, taxRate: int)
    requires taxRate == 6 || taxRate == 15
    requires ValidateInn(inn) && XmlCompatible(inn)
    ensures var r := GenerateUsnDeclaration(serialize, inn, period, year, income, expenses, taxRate);
            var tree := UsnXml(inn, period, year, income, expenses, taxRate).value;
            var tax := UsnTax(income, expenses, taxRate);
            r.Ok? && UsnTaxAmount(tree) == Some(tax) &&
            Lookup(r.value.structured.fields, "tax_amount") == Some(JReal(tax)) &&
            Lookup(r.value.structured.fields, "declaration_xml") == Some(JStr(serialize(tree))) &&
            Lookup(r.value.meta.fields, "tax_amount") == Some(JReal(tax))
  {
    var tree := UsnXml(inn, period, year, income, expenses, taxRate).value;
    UsnTreeTax(inn, period, year, income, expenses, taxRate);
    UsnDeclarationOk(serialize, inn, period, year, income, expenses, taxRate);
    UsnStructuredTax(serialize(tree), inn, period, year, income, expenses, taxRate, UsnTax(income, expenses, taxRate));
    UsnStructuredXml(serialize(tree), inn, period, year, income, expenses, taxRate, UsnTax(income, expenses, taxRate));
  }

  /** An INN of 10 or 12 digits always yields a declaration. */
  lemma UsnDigitsGenerate(serialize: Element -> string, d: string, period: Period, year: int,
                          income: real, expenses: real, taxRate: int)
    requires taxRate == 6 || taxRate == 15
    requires IsDigits(d) && (|d| == 10 || |d| == 12)
    ensures GenerateUsnDeclaration(serialize, d, period, year, income, expenses, taxRate).Ok?
  {
    AcceptsDigits(d);
    DigitsCompatible(d);
  }

  /**
   * An INN that `validate_inn` accepts only because `strip()` drops a leading
   * U+001C reaches lxml, which refuses it: the tool ends with an internal error.
   */
  lemma UsnSeparatorInn(serialize: Element -> string, d: string, period: Period, year: int,
                        income: real, expenses: real, taxRate: int)
    requires taxRate == 6 || taxRate == 15
    requires IsDigits(d) && (|d| == 10 || |d| == 12)
    ensures GenerateUsnDeclaration(serialize, "\U{1C}" + d, period, year, income, expenses, taxRate)
            == Err(McpError(InternalError, DeclarationFailed + XmlValueMessage))
  {
    SeparatorPrefixAccepted(d);
    SeparatorIncompatible(d);
  }

  /** The documented example: 500 000 ₽ of income at 6 % reports a tax of 30 000 ₽. */
  lemma UsnExample(serialize: Element -> string, inn: string)
    requires inn == "123456789012"
    ensures var r := GenerateUsnDeclaration(serialize, inn, Q1, 2025, 500000.0);
            r.Ok? && Lookup(r.value.structured.fields, "tax_amount") == Some(JReal(30000.0))
  {
    assert IsDigits(inn);
    UsnDigitsGenerate(serialize, inn, Q1, 2025, 500000.0, 0.0, 6);
    UsnDeclarationConsistent(serialize, inn, Q1, 2025, 500000.0, 0.0, 6);
  }
}
