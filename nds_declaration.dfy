/**
 * The `generate_nds_declaration` tool: check the INN, build the VAT tree and
 * package text, structured content and meta.
 */
module NdsDeclaration {
  import opened Strings
  import opened Wrappers
  import opened JsonValues
  import opened Common
  import opened FnsUtils
  import opened XmlGenerator

  const NdsFooter: string := "XML декларация сгенерирована по формату ФНС (КНД 1151001)"

  /** The human-readable report, one line per figure, amounts with thousands separators. */
  function NdsText(inn: string, period: Period, year: int, turnover: real, ndsToPay: real, ndsToRefund: real): string {
    Join("\n", [
      "Декларация НДС за " + period.Name() + " " + IntToString(year),
      "ИНН: " + inn,
      "Оборот: " + Grouped2(turnover) + " ₽",
      "НДС к уплате: " + Grouped2(ndsToPay) + " ₽",
      "НДС к возмещению: " + Grouped2(ndsToRefund) + " ₽",
      NdsFooter])
  }

  function NdsStructured(xml: string, inn: string, period: Period, year: int,
                         turnover: real, ndsToPay: real, ndsToRefund: real): Json {
    JObj([("inn", JStr(inn)), ("period", JStr(period.Name())), ("year", JInt(year)),
          ("nds_to_pay", JReal(ndsToPay)), ("nds_to_refund", JReal(ndsToRefund)), ("turnover", JReal(turnover)),
          ("declaration_xml", JStr(xml)),
          ("status", JStr("generated")), ("format", JStr("КНД 1151001")), ("version", JStr("5.10"))])
  }

  function NdsMeta(ndsToPay: real, ndsToRefund: real): Json {
    JObj([("nds_to_pay", JReal(ndsToPay)), ("nds_to_refund", JReal(ndsToRefund)), ("declaration_type", JStr("NDS"))])
  }

  /** The tool's result for a serialised tree. */
  function NdsPackage(xml: string, inn: string, period: Period, year: int,
                      turnover: real, ndsToPay: real, ndsToRefund: real): ToolResult {
    ToolResult(NdsText(inn, period, year, turnover, ndsToPay, ndsToRefund),
               NdsStructured(xml, inn, period, year, turnover, ndsToPay, ndsToRefund),
               NdsMeta(ndsToPay, ndsToRefund))
  }

  /**
   * `generate_nds_declaration(inn, period, year, turnover, nds_to_pay=0.0, nds_to_refund=0.0)`.
   * `serialize` stands for `etree.tostring` of the finished tree. An INN that
   * `validate_inn` rejects fails before anything is generated; an INN it accepts
   * but lxml cannot write fails as an internal error carrying lxml's message.
   */
  function GenerateNdsDeclaration(serialize: Element -> string, inn: string, period: Period, year: int,
                                  turnover: real, ndsToPay: real := 0.0, ndsToRefund: real := 0.0): (r: Result<ToolResult>)
    ensures !ValidateInn(inn) ==> r == Err(InvalidInn())
    ensures ValidateInn(inn) ==> (r.Ok? <==> XmlCompatible(inn))
    ensures ValidateInn(inn) && r.Err? ==> r.error == McpError(InternalError, DeclarationFailed + XmlValueMessage)
  {
    if !ValidateInn(inn) then Err(InvalidInn())
    else NdsBuilt(serialize, inn, period, year, turnover, ndsToPay, ndsToRefund)
  }

  /** The part after the INN check: the tree, then the package, or lxml's error as an internal error. */
  function NdsBuilt(serialize: Element -> string, inn: string, period: Period, year: int,
                    turnover: real, ndsToPay: real, ndsToRefund: real): (r: Result<ToolResult>)
    ensures r.Ok? <==> XmlCompatible(inn)
    ensures r.Err? ==> r.error == McpError(InternalError, DeclarationFailed + XmlValueMessage)
  {
    match NdsXml(inn, period, year, ndsToPay, ndsToRefund, turnover)
    case Err(e) =>
      Err(McpError(InternalError, DeclarationFailed + ExceptionText(e)))
    case Ok(tree) =>
      Ok(NdsPackage(serialize(tree), inn, period, year, turnover, ndsToPay, ndsToRefund))
  }

  /** A generated declaration packages the serialised tree and the figures as given. */
  lemma NdsDeclarationOk(serialize: Element -> string, inn: string, period: Period, year: int,
                         turnover: real, ndsToPay: real, ndsToRefund: real)
    requires ValidateInn(inn) && XmlCompatible(inn)
    ensures GenerateNdsDeclaration(serialize, inn, period, year, turnover, ndsToPay, ndsToRefund) ==
            Ok(NdsPackage(serialize(NdsXml(inn, period, year, ndsToPay, ndsToRefund, turnover).value),
                          inn, period, year, turnover, ndsToPay, ndsToRefund))
  {
  }

  lemma NdsStructuredFields(xml: string, inn: string, period: Period, year: int,
                            turnover: real, ndsToPay: real, ndsToRefund: real)
    ensures Lookup(NdsStructured(xml, inn, period, year, turnover, ndsToPay, ndsToRefund).fields, "nds_to_pay") == Some(JReal(ndsToPay))
    ensures Lookup(NdsMeta(ndsToPay, ndsToRefund).fields, "nds_to_pay") == Some(JReal(ndsToPay))
  {
    LookupAt(NdsStructured(xml, inn, period, year, turnover, ndsToPay, ndsToRefund).fields, 3, "nds_to_pay");
  }

  lemma NdsStructuredXml(xml: string, inn: string, period: Period, year: int,
                         turnover: real, ndsToPay: real, ndsToRefund: real)
    ensures Lookup(NdsStructured(xml, inn, period, year, turnover, ndsToPay, ndsToRefund).fields, "declaration_xml") == Some(JStr(xml))
  {
    LookupAt(NdsStructured(xml, inn, period, year, turnover, ndsToPay, ndsToRefund).fields, 6, "declaration_xml");
  }

  /**
   * A declaration that was generated reports the VAT to pay as given, in its
   * structured content and its meta, while the tree carries `СумНДСУпл` only
   * when that amount is positive; `declaration_xml` is the serialised tree.
   */
  lemma NdsDeclarationConsistent(serialize: Element -> string, inn: string, period: Period, year: int,
                                 turnover: real, ndsToPay: real, ndsToRefund: real)
    requires ValidateInn(inn) && XmlCompatible(inn)
    ensures var r := GenerateNdsDeclaration(serialize, inn, period, year, turnover, ndsToPay, ndsToRefund);
            var tree := NdsXml(inn, period, year, ndsToPay, ndsToRefund, turnover).value;
            r.Ok? &&
            Lookup(r.value.structured.fields, "nds_to_pay") == Some(JReal(ndsToPay)) &&
            Lookup(r.value.meta.fields, "nds_to_pay") == Some(JReal(ndsToPay)) &&
            Lookup(r.value.structured.fields, "declaration_xml") == Some(JStr(serialize(tree))) &&
            (SumNDSUpl in ChildTags(Sections(tree)[0]) <==> ndsToPay > 0.0)
  {
    var tree := NdsXml(inn, period, year, ndsToPay, ndsToRefund, turnover).value;
    NdsShape(inn, period, year, ndsToPay, ndsToRefund, turnover);
    NdsSection1(ndsToPay, ndsToRefund, turnover);
    NdsDeclarationOk(serialize, inn, period, year, turnover, ndsToPay, ndsToRefund);
    NdsStructuredFields(serialize(tree), inn, period, year, turnover, ndsToPay, ndsToRefund);
    NdsStructuredXml(serialize(tree), inn, period, year, turnover, ndsToPay, ndsToRefund);
  }

  /** With the default amounts (no VAT to pay, none to refund) `Раздел1` is empty. */
  lemma NdsDefaultsEmptySection1(serialize: Element -> string, inn: string, period: Period, year: int, turnover: real)
    requires ValidateInn(inn) && XmlCompatible(inn)
    ensures GenerateNdsDeclaration(serialize, inn, period, year, turnover).Ok?
    ensures Sections(NdsXml(inn, period, year, 0.0, 0.0, turnover).value)[0].children == []
  {
    NdsShape(inn, period, year, 0.0, 0.0, turnover);
    NdsSection1(0.0, 0.0, turnover);
  }

  /** An INN of 10 or 12 digits always yields a declaration. */
  lemma NdsDigitsGenerate(serialize: Element -> string, d: string, period: Period, year: int,
                          turnover: real, ndsToPay: real, ndsToRefund: real)
    requires IsDigits(d) && (|d| == 10 || |d| == 12)
    ensures GenerateNdsDeclaration(serialize, d, period, year, turnover, ndsToPay, ndsToRefund).Ok?
  {
    AcceptsDigits(d);
    DigitsCompatible(d);
  }

  /**
   * An INN that `validate_inn` accepts only because `strip()` drops a leading
   * U+001C reaches lxml, which refuses it: the tool ends with an internal error.
   */
  lemma NdsSeparatorInn(serialize: Element -> string, d: string, period: Period, year: int,
                        turnover: real, ndsToPay: real, ndsToRefund: real)
    requires IsDigits(d) && (|d| == 10 || |d| == 12)
    ensures GenerateNdsDeclaration(serialize, "\U{1C}" + d, period, year, turnover, ndsToPay, ndsToRefund)
            == Err(McpError(InternalError, DeclarationFailed + XmlValueMessage))
  {
    SeparatorPrefixAccepted(d);
    SeparatorIncompatible(d);
  }
}
