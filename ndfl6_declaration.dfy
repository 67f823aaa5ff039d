/**
 * The `generate_6ndfl_declaration` tool: check the INN, build the 6-NDFL tree
 * and package text, structured content and meta.
 */
module Ndfl6Declaration {
  import opened Strings
  import opened Wrappers
  import opened JsonValues
  import opened Common
  import opened FnsUtils
  import opened XmlGenerator

  const Ndfl6Footer: string := "XML форма сгенерирована по формату ФНС (КНД 1151078)"

  /** The human-readable report, one line per figure, amounts with thousands separators. */
  function Ndfl6Text(inn: string, period: Period, year: int, totalIncome: real, totalNdfl: real, withheldNdfl: real): string {
    Join("\n", [
      "Форма 6-НДФЛ за " + period.Name() + " " + IntToString(year),
      "ИНН: " + inn,
      "Общая сумма доходов: " + Grouped2(totalIncome) + " ₽",
      "Начислено НДФЛ: " + Grouped2(totalNdfl) + " ₽",
      "Удержано НДФЛ: " + Grouped2(withheldNdfl) + " ₽",
      Ndfl6Footer])
  }

  function Ndfl6Structured(xml: string, inn: string, period: Period, year: int,
                           totalIncome: real, totalNdfl: real, withheldNdfl: real): Json {
    JObj([("inn", JStr(inn)), ("period", JStr(period.Name())), ("year", JInt(year)),
          ("total_income", JReal(totalIncome)), ("total_ndfl", JReal(totalNdfl)), ("withheld_ndfl", JReal(withheldNdfl)),
          ("declaration_xml", JStr(xml)),
          ("status", JStr("generated")), ("format", JStr("КНД 1151078")), ("version", JStr("5.10"))])
  }

  function Ndfl6Meta(totalNdfl: real, withheldNdfl: real): Json {
    JObj([("total_ndfl", JReal(totalNdfl)), ("withheld_ndfl", JReal(withheldNdfl)), ("declaration_type", JStr("6NDFL"))])
  }

  /** The tool's result for a serialised tree. */
  function Ndfl6Package(xml: string, inn: string, period: Period, year: int,
                        totalIncome: real, totalNdfl: real, withheldNdfl: real): ToolResult {
    ToolResult(Ndfl6Text(inn, period, year, totalIncome, totalNdfl, withheldNdfl),
               Ndfl6Structured(xml, inn, period, year, totalIncome, totalNdfl, withheldNdfl),
               Ndfl6Meta(totalNdfl, withheldNdfl))
  }

  /**
   * `generate_6ndfl_declaration(inn, period, year, total_income, total_ndfl, withheld_ndfl)`.
   * `serialize` stands for `etree.tostring` of the finished tree. An INN that
   * `validate_inn` rejects fails before anything is generated; an INN it accepts
   * but lxml cannot write fails as an internal error carrying lxml's message.
   */
  function Generate6NdflDeclaration(serialize: Element -> string, inn: string, period: Period, year: int,
                                    totalIncome: real, totalNdfl: real, withheldNdfl: real): (r: Result<ToolResult>)
    ensures !ValidateInn(inn) ==> r == Err(InvalidInn())
    ensures ValidateInn(inn) ==> (r.Ok? <==> XmlCompatible(inn))
    ensures ValidateInn(inn) && r.Err? ==> r.error == McpError(InternalError, FormFailed + XmlValueMessage)
  {
    if !ValidateInn(inn) then Err(InvalidInn())
    else
      match Ndfl6Xml(inn, period, year, totalIncome, totalNdfl, withheldNdfl)
      case Err(e) =>
        Err(McpError(InternalError, FormFailed + ExceptionText(e)))
      case Ok(tree) =>
        Ok(Ndfl6Package(serialize(tree), inn, period, year, totalIncome, totalNdfl, withheldNdfl))
  }

  /** A generated form packages the serialised tree and the figures as given. */
  lemma Ndfl6DeclarationOk(serialize: Element -> string, inn: string, period: Period, year: int,
                           totalIncome: real, totalNdfl: real, withheldNdfl: real)
    requires ValidateInn(inn) && XmlCompatible(inn)
    ensures Generate6NdflDeclaration(serialize, inn, period, year, totalIncome, totalNdfl, withheldNdfl) ==
            Ok(Ndfl6Package(serialize(Ndfl6Xml(inn, period, year, totalIncome, totalNdfl, withheldNdfl).value),
                            inn, period, year, totalIncome, totalNdfl, withheldNdfl))
  {
  }

  lemma Ndfl6StructuredXml(xml: string, inn: string, period: Period, year: int,
                           totalIncome: real, totalNdfl: real, withheldNdfl: real)
    ensures Lookup(Ndfl6Structured(xml, inn, period, year, totalIncome, totalNdfl, withheldNdfl).fields, "declaration_xml") == Some(JStr(xml))
  {
    LookupAt(Ndfl6Structured(xml, inn, period, year, totalIncome, totalNdfl, withheldNdfl).fields, 6, "declaration_xml");
  }

  /**
   * The amounts are not checked against each other: whatever is given (more
   * withheld than charged, negative income) the form is generated, its
   * `Раздел1` holds exactly those three amounts, and `declaration_xml` is
   * the serialised tree.
   */
  lemma Ndfl6AnyAmounts(serialize: Element -> string, inn: string, period: Period, year: int,
                        totalIncome: real, totalNdfl: real, withheldNdfl: real)
    requires ValidateInn(inn) && XmlCompatible(inn)
    ensures var r := Generate6NdflDeclaration(serialize, inn, period, year, totalIncome, totalNdfl, withheldNdfl);
            var tree := Ndfl6Xml(inn, period, year, totalIncome, totalNdfl, withheldNdfl).value;
            r.Ok? && Lookup(r.value.structured.fields, "declaration_xml") == Some(JStr(serialize(tree))) &&
            Sections(tree) == [Node(Razdel1, [], [Amount(SumDoh, totalIncome), Amount(SumNDFL, totalNdfl),
                                                  Amount(SumNDFLUderzh, withheldNdfl)])]
  {
    var tree := Ndfl6Xml(inn, period, year, totalIncome, totalNdfl, withheldNdfl).value;
    Ndfl6Shape(inn, period, year, totalIncome, totalNdfl, withheldNdfl);
    Ndfl6DeclarationOk(serialize, inn, period, year, totalIncome, totalNdfl, withheldNdfl);
    Ndfl6StructuredXml(serialize(tree), inn, period, year, totalIncome, totalNdfl, withheldNdfl);
  }

  /** An INN of 10 or 12 digits always yields a form. */
  lemma Ndfl6DigitsGenerate(serialize: Element -> string, d: string, period: Period, year: int,
                            totalIncome: real, totalNdfl: real, withheldNdfl: real)
    requires IsDigits(d) && (|d| == 10 || |d| == 12)
    ensures Generate6NdflDeclaration(serialize, d, period, year, totalIncome, totalNdfl, withheldNdfl).Ok?
  {
    AcceptsDigits(d);
    DigitsCompatible(d);
  }

  /**
   * An INN that `validate_inn` accepts only because `strip()` drops a leading
   * U+001C reaches lxml, which refuses it: the tool ends with an internal error.
   */
  lemma Ndfl6SeparatorInn(serialize: Element -> string, d: string, period: Period, year: int,
                          totalIncome: real, totalNdfl: real, withheldNdfl: real)
    requires IsDigits(d) && (|d| == 10 || |d| == 12)
    ensures Generate6NdflDeclaration(serialize, "\U{1C}" + d, period, year, totalIncome, totalNdfl, withheldNdfl)
            == Err(McpError(InternalError, FormFailed + XmlValueMessage))
  {
    SeparatorPrefixAccepted(d);
    SeparatorIncompatible(d);
  }
}
