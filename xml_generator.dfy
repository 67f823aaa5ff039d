/**
 * The element trees of the four FNS declarations (USN, OSNO, NDS, 6-NDFL) and
 * the tax figures the generator writes into them. A tree is the finished
 * value the generator assembles node by node; every element lives in the FNS
 * declaration namespace. Element and attribute names come from a fixed
 * vocabulary, transliterated here and spelled out by `Name()`.
 */
module XmlGenerator {
  import opened Strings
  import opened Wrappers
  import opened Common

  const FnsNamespace: string := "http://www.nalog.ru/declaration"

  /** The element names the generators use. */
  datatype Tag =
    | Fajl | Dokument | SvNP | INNUL | PeriodTag | Razdel1 | Razdel2
    | Razdel1_1 | Razdel1_2 | Razdel2_1_1 | Razdel2_2
    | SumNalUpl | SumDoh | SumRash
    | Dohody | Rashody | Pribyl | Ubytok | NDS
    | SumNDSUpl | SumNDSVozm | Oborot
    | SumNDFL | SumNDFLUderzh
  {
    function Name(): string {
      match this
      case Fajl => "Файл"
      case Dokument => "Документ"
      case SvNP => "СвНП"
      case INNUL => "ИННЮЛ"
      case PeriodTag => "Период"
      case Razdel1 => "Раздел1"
      case Razdel2 => "Раздел2"
      case Razdel1_1 => "Раздел1.1"
      case Razdel1_2 => "Раздел1.2"
      case Razdel2_1_1 => "Раздел2.1.1"
      case Razdel2_2 => "Раздел2.2"
      case SumNalUpl => "СумНалУпл"
      case SumDoh => "СумДох"
      case SumRash => "СумРасх"
      case Dohody => "Доходы"
      case Rashody => "Расходы"
      case Pribyl => "Прибыль"
      case Ubytok => "Убыток"
      case NDS => "НДС"
      case SumNDSUpl => "СумНДСУпл"
      case SumNDSVozm => "СумНДСВозм"
      case Oborot => "Оборот"
      case SumNDFL => "СумНДФЛ"
      case SumNDFLUderzh => "СумНДФЛУдерж"
    }
  }

  /** The attribute names the generators set. */
  datatype AttrName = VersForm | IdFajl | KND | NaimDok | God | Kod {
    function Name(): string {
      match this
      case VersForm => "ВерсияФормата"
      case IdFajl => "ИдФайл"
      case KND => "КНД"
      case NaimDok => "НаимДок"
      case God => "Год"
      case Kod => "Код"
    }
  }

  /** An element's text: none, a string, or an amount written with `_format_amount`. */
  datatype Text = NoText | Str(s: string) | AmountText(amount: real)

  datatype Element = Element(ns: string, tag: Tag, attrs: seq<(AttrName, string)>, text: Text, children: seq<Element>)

  /** `_format_amount(amount)`: two decimals. */
  function FormatAmount(amount: real): string {
    Fixed2(amount)
  }

  /** The element's text as lxml holds it. */
  function TextValue(t: Text): Option<string> {
    match t
    case NoText => None
    case Str(s) => Some(s)
    case AmountText(x) => Some(FormatAmount(x))
  }

  /** An element without text in the FNS namespace. */
  function Node(tag: Tag, attrs: seq<(AttrName, string)>, children: seq<Element>): Element {
    Element(FnsNamespace, tag, attrs, NoText, children)
  }

  /** A leaf element holding an amount. */
  function Amount(tag: Tag, amount: real): Element {
    Element(FnsNamespace, tag, [], AmountText(amount), [])
  }

  /** Every element of the tree is in the FNS namespace. */
  predicate AllInNamespace(e: Element)
    decreases e
  {
    e.ns == FnsNamespace && forall i :: 0 <= i < |e.children| ==> AllInNamespace(e.children[i])
  }

  predicate SectionsInNamespace(sections: seq<Element>) {
    forall i :: 0 <= i < |sections| ==> AllInNamespace(sections[i])
  }

  lemma NodeInNamespace(tag: Tag, attrs: seq<(AttrName, string)>, children: seq<Element>)
    requires SectionsInNamespace(children)
    ensures AllInNamespace(Node(tag, attrs, children))
  {
  }

  lemma AmountsInNamespace(amounts: seq<Element>)
    requires forall i :: 0 <= i < |amounts| ==> amounts[i].ns == FnsNamespace && amounts[i].children == []
    ensures SectionsInNamespace(amounts)
  {
  }

  /** The tags of an element's children, in document order. */
  function ChildTags(e: Element): (tags: seq<Tag>)
    ensures |tags| == |e.children| && forall i :: 0 <= i < |tags| ==> tags[i] == e.children[i].tag
  {
    seq(|e.children|, i requires 0 <= i < |e.children| => e.children[i].tag)
  }

  /** The periods a declaration can be for (the `period` argument's literal type). */
  datatype Period = Q1 | Q2 | Q3 | Q4 | Year {
    function Name(): string {
      match this
      case Q1 => "Q1"
      case Q2 => "Q2"
      case Q3 => "Q3"
      case Q4 => "Q4"
      case Year => "YEAR"
    }
  }

  /** `_get_period_code(period)`: a fixed table, with "21" for a name not in it. */
  function PeriodCode(period: string): string {
    var periodMap := map["Q1" := "21", "Q2" := "22", "Q3" := "23", "Q4" := "31", "YEAR" := "34"];
    if period in periodMap then periodMap[period] else "21"
  }

  /** The FNS code of each period: quarters 21, 22, 23, 31 and the year 34. */
  lemma PeriodCodes(period: Period)
    ensures PeriodCode(period.Name()) == match period
      case Q1 => "21" case Q2 => "22" case Q3 => "23" case Q4 => "31" case Year => "34"
  {
  }

  /** A name outside the table gets the first quarter's code. */
  lemma UnknownPeriodCode(period: string)
    requires forall p: Period :: p.Name() != period
    ensures PeriodCode(period) == "21"
  {
    assert Q1.Name() != period && Q2.Name() != period && Q3.Name() != period;
    assert Q4.Name() != period && Year.Name() != period;
  }

  /**
   * A character of XML 1.0's `Char` production, the ones libxml2 accepts in text
   * and attribute values: TAB, LF, CR, and U+0020 up except U+FFFE and U+FFFF
   * (a Dafny `char` is never a surrogate).
   */
  predicate XmlChar(c: char) {
    c == '\t' || c == '\n' || c == '\r' || (c >= ' ' && c != '\U{FFFE}' && c != '\U{FFFF}')
  }

  /** Every character of `s` is one libxml2 accepts. */
  predicate XmlCompatible(s: string)
    decreases |s|
  {
    s == [] || (XmlChar(s[0]) && XmlCompatible(s[1..]))
  }

  lemma {:induction false} XmlCompatibleChars(s: string)
    ensures XmlCompatible(s) <==> forall i :: 0 <= i < |s| ==> XmlChar(s[i])
    decreases |s|
  {
    if s != [] {
      XmlCompatibleChars(s[1..]);
      assert forall i :: 1 <= i < |s| ==> s[i] == s[1..][i - 1];
    }
  }

  lemma {:induction false} XmlCompatibleConcat(a: string, b: string)
    ensures XmlCompatible(a + b) <==> XmlCompatible(a) && XmlCompatible(b)
    decreases |a|
  {
    if a != [] {
      assert (a + b)[1..] == a[1..] + b;
      XmlCompatibleConcat(a[1..], b);
    } else {
      assert a + b == b;
    }
  }

  /** Digits can always be written. */
  lemma DigitsCompatible(d: string)
    requires IsDigits(d)
    ensures XmlCompatible(d)
  {
    XmlCompatibleChars(d);
  }

  /** An information separator (U+001C) cannot be written. */
  lemma SeparatorIncompatible(d: string)
    ensures !XmlCompatible("\U{1C}" + d)
  {
  }

  /** The non-characters U+FFFE and U+FFFF anywhere in a text make lxml reject it. */
  lemma NonCharacterIncompatible(a: string, b: string)
    ensures !XmlCompatible(a + "\U{FFFE}" + b) && !XmlCompatible(a + "\U{FFFF}" + b)
  {
    XmlCompatibleChars(a + "\U{FFFE}" + b);
    XmlCompatibleChars(a + "\U{FFFF}" + b);
    assert (a + "\U{FFFE}" + b)[|a|] == '\U{FFFE}';
    assert (a + "\U{FFFF}" + b)[|a|] == '\U{FFFF}';
  }

  const XmlValueMessage: string := "All strings must be XML compatible: Unicode or ASCII, no NULL bytes or control characters"

  /** The `ValueError` lxml raises when a text or attribute value holds a control character. */
  function XmlValueError(): Error {
    Raised("ValueError", XmlValueMessage)
  }

  /** `ИдФайл` of a declaration: `{prefix}{inn}_{year}_{period}`. */
  function FileId(prefix: string, inn: string, year: int, period: Period): string {
    prefix + inn + "_" + IntToString(year) + "_" + period.Name()
  }

  /** The file id can be written exactly when the INN can. */
  lemma FileIdCompatible(prefix: string, inn: string, year: int, period: Period)
    requires forall i :: 0 <= i < |prefix| ==> XmlChar(prefix[i])
    ensures XmlCompatible(FileId(prefix, inn, year, period)) <==> XmlCompatible(inn)
  {
    XmlCompatibleChars(prefix);
    XmlCompatibleChars(period.Name());
    var y := IntToString(year);
    XmlCompatibleChars(y);
    XmlCompatibleConcat(prefix, inn);
    XmlCompatibleConcat(prefix + inn, "_");
    XmlCompatibleConcat(prefix + inn + "_", y);
    XmlCompatibleConcat(prefix + inn + "_" + y, "_");
    XmlCompatibleConcat(prefix + inn + "_" + y + "_", period.Name());
  }

  /**
   * The part every declaration shares: root `Файл` with the format version and
   * file id, one `Документ` with the form code and title, whose children are
   * `СвНП/ИННЮЛ`, `Период` and then the given sections. Setting the file id is
   * the first place lxml sees the INN, so that is where it fails.
   */
  function Declaration(version: string, id: string, knd: string, title: string,
                       inn: string, year: int, period: Period, sections: seq<Element>): (r: Result<Element>)
    ensures r.Ok? <==> XmlCompatible(id) && XmlCompatible(inn)
    ensures r.Err? ==> r.error == XmlValueError()
  {
    if !XmlCompatible(id) || !XmlCompatible(inn) then Err(XmlValueError())
    else
      var taxpayer := Node(SvNP, [], [Element(FnsNamespace, INNUL, [], Str(inn), [])]);
      var periodElem := Node(PeriodTag, [(God, IntToString(year)), (Kod, PeriodCode(period.Name()))], []);
      var doc := Node(Dokument, [(KND, knd), (NaimDok, title)], [taxpayer, periodElem] + sections);
      Ok(Node(Fajl, [(VersForm, version), (IdFajl, id)], [doc]))
  }

  /** The shared skeleton, as every generator promises it. */
  predicate Skeleton(root: Element, inn: string, year: int, period: Period) {
    root.tag == Fajl && |root.children| == 1 &&
    var doc := root.children[0];
    doc.tag == Dokument && |doc.children| >= 3 &&
    doc.children[0].tag == SvNP && doc.children[0].children == [Element(FnsNamespace, INNUL, [], Str(inn), [])] &&
    doc.children[1].tag == PeriodTag && doc.children[1].children == [] &&
    doc.children[1].attrs == [(God, IntToString(year)), (Kod, PeriodCode(period.Name()))] &&
    doc.children[2].tag == Razdel1 &&
    AllInNamespace(root)
  }

  /** The sections after `СвНП` and `Период`. */
  function Sections(root: Element): seq<Element>
    requires |root.children| == 1 && |root.children[0].children| >= 2
  {
    root.children[0].children[2..]
  }

  /**
   * A declaration tree: the skeleton, the root's `ВерсияФормата` and `ИдФайл`,
   * the document's `КНД` and `НаимДок`, and the given sections after `Период`.
   */
  predicate IsDeclaration(root: Element, version: string, id: string, knd: string, title: string,
                          inn: string, year: int, period: Period, sections: seq<Element>) {
    Skeleton(root, inn, year, period) && Sections(root) == sections &&
    root.attrs == [(VersForm, version), (IdFajl, id)] &&
    root.children[0].attrs == [(KND, knd), (NaimDok, title)]
  }

  /** A declaration that can be written has the shared skeleton, the given header and the given sections. */
  lemma DeclarationShape(version: string, id: string, knd: string, title: string,
                         inn: string, year: int, period: Period, sections: seq<Element>)
    requires XmlCompatible(id) && XmlCompatible(inn)
    requires SectionsInNamespace(sections) && |sections| >= 1 && sections[0].tag == Razdel1
    ensures IsDeclaration(Declaration(version, id, knd, title, inn, year, period, sections).value,
                          version, id, knd, title, inn, year, period, sections)
  {
    var root := Declaration(version, id, knd, title, inn, year, period, sections).value;
    var doc := root.children[0];
    var taxpayer, periodElem := doc.children[0], doc.children[1];
    assert doc.children == [taxpayer, periodElem] + sections;
    assert AllInNamespace(taxpayer.children[0]);
    assert AllInNamespace(taxpayer) && AllInNamespace(periodElem);
    PrependInNamespace(taxpayer, periodElem, sections);
    NodeInNamespace(Dokument, doc.attrs, doc.children);
    NodeInNamespace(Fajl, root.attrs, [doc]);
  }

  lemma PrependInNamespace(a: Element, b: Element, rest: seq<Element>)
    requires AllInNamespace(a) && AllInNamespace(b) && SectionsInNamespace(rest)
    ensures SectionsInNamespace([a, b] + rest)
  {
    var all := [a, b] + rest;
    forall i | 0 <= i < |all|
      ensures AllInNamespace(all[i])
    {
      if i >= 2 {
        assert all[i] == rest[i - 2];
      }
    }
  }

  /** The `НаимДок` of each form. */
  const UsnTitle: string := "Декларация по налогу, уплачиваемому в связи с применением УСН"
  const OsnoTitle: string := "Декларация по налогу на прибыль организаций"
  const NdsTitle: string := "Декларация по налогу на добавленную стоимость"
  const Ndfl6Title: string := "Расчет сумм налога на доходы физических лиц"

  // USN, form КНД 1152017

  /** The tax the USN generator writes: 6 % of income, or else 15 % of a positive income − expenses base. */
  function UsnTax(income: real, expenses: real, taxRate: int): (tax: real)
    ensures taxRate == 6 ==> tax == income * 6.0 / 100.0
    ensures taxRate != 6 ==> tax >= 0.0
    ensures taxRate != 6 ==> (tax == 0.0 <==> income <= expenses)
    ensures taxRate != 6 && income > expenses ==> tax == (income - expenses) * 15.0 / 100.0
  {
    if taxRate == 6 then income * 0.06
    else
      var taxBase := income - expenses;
      if taxBase > 0.0 then taxBase * 0.15 else 0.0
  }

  function UsnSections(income: real, expenses: real, taxRate: int): (sections: seq<Element>)
    ensures SectionsInNamespace(sections) && |sections| == 2
    ensures sections[0].tag == Razdel1 && sections[1].tag == Razdel2
  {
    var tax := Amount(SumNalUpl, UsnTax(income, expenses, taxRate));
    var sub1 := if taxRate == 6 then Node(Razdel1_1, [], [tax]) else Node(Razdel1_2, [], [tax]);
    var sub2 := if taxRate == 6 then Node(Razdel2_1_1, [], [Amount(SumDoh, income)])
                else Node(Razdel2_2, [], [Amount(SumDoh, income), Amount(SumRash, expenses)]);
    AmountsInNamespace(sub1.children);
    AmountsInNamespace(sub2.children);
    NodeInNamespace(Razdel1, [], [sub1]);
    NodeInNamespace(Razdel2, [], [sub2]);
    [Node(Razdel1, [], [sub1]), Node(Razdel2, [], [sub2])]
  }

  /** `generate_usn_xml`, as the tree it serialises. */
  function UsnXml(inn: string, period: Period, year: int, income: real, expenses: real, taxRate: int): (r: Result<Element>)
    ensures r.Ok? <==> XmlCompatible(inn)
    ensures r.Err? ==> r.error == XmlValueError()
  {
    FileIdCompatible("DECL_", inn, year, period);
    Declaration("5.05", FileId("DECL_", inn, year, period), "1152017", UsnTitle, inn, year, period,
                UsnSections(income, expenses, taxRate))
  }

  /** Called directly with INN "\uFFFE", the USN generator raises lxml's ValueError. */
  lemma UsnNonCharacterInn(period: Period, year: int, income: real, expenses: real, taxRate: int)
    ensures UsnXml("\U{FFFE}", period, year, income, expenses, taxRate) == Err(XmlValueError())
  {
    NonCharacterIncompatible("", "");
    assert "" + "\U{FFFE}" + "" == "\U{FFFE}";
  }

  /** The USN tree: version "5.05", id `DECL_…`, form 1152017, then `Раздел1` and `Раздел2`. */
  lemma UsnShape(inn: string, period: Period, year: int, income: real, expenses: real, taxRate: int)
    requires XmlCompatible(inn)
    ensures IsDeclaration(UsnXml(inn, period, year, income, expenses, taxRate).value, "5.05", FileId("DECL_", inn, year, period),
                          "1152017", UsnTitle, inn, year, period, UsnSections(income, expenses, taxRate))
  {
    FileIdCompatible("DECL_", inn, year, period);
    DeclarationShape("5.05", FileId("DECL_", inn, year, period), "1152017", UsnTitle, inn, year, period,
                     UsnSections(income, expenses, taxRate));
  }

  /**
   * At rate 6 the sections are `Раздел1.1/СумНалУпл` and `Раздел2.1.1/СумДох`; at
   * any other rate `Раздел1.2/СумНалУпл` and `Раздел2.2` with `СумДох`, `СумРасх`.
   * The tax written is `UsnTax`.
   */
  lemma UsnSubsections(income: real, expenses: real, taxRate: int)
    ensures var sections := UsnSections(income, expenses, taxRate);
            var tax := [Amount(SumNalUpl, UsnTax(income, expenses, taxRate))];
            (taxRate == 6 ==> sections[0].children == [Node(Razdel1_1, [], tax)] &&
                              sections[1].children == [Node(Razdel2_1_1, [], [Amount(SumDoh, income)])]) &&
            (taxRate != 6 ==> sections[0].children == [Node(Razdel1_2, [], tax)] &&
                              sections[1].children == [Node(Razdel2_2, [], [Amount(SumDoh, income), Amount(SumRash, expenses)])])
  {
  }

  /** The amount under `Раздел1/<sub-section>/СумНалУпл` of a USN tree, if it has one. */
  function UsnTaxAmount(root: Element): Option<real> {
    if |root.children| == 1 && |root.children[0].children| >= 3
       && |root.children[0].children[2].children| == 1
       && |root.children[0].children[2].children[0].children| == 1
       && root.children[0].children[2].children[0].children[0].tag == SumNalUpl
       && root.children[0].children[2].children[0].children[0].text.AmountText?
    then Some(root.children[0].children[2].children[0].children[0].text.amount)
    else None
  }

  /** The tax a USN tree carries is `UsnTax` of the inputs. */
  lemma UsnTreeTax(inn: string, period: Period, year: int, income: real, expenses: real, taxRate: int)
    requires XmlCompatible(inn)
    ensures UsnTaxAmount(UsnXml(inn, period, year, income, expenses, taxRate).value) == Some(UsnTax(income, expenses, taxRate))
  {
    UsnShape(inn, period, year, income, expenses, taxRate);
    UsnSubsections(income, expenses, taxRate);
  }

  // OSNO (profit tax), form КНД 1151001

  /** The profit tax the OSNO generator writes: 20 % of profit, with no clamp at zero. */
  function OsnoTax(profit: real): real {
    profit * 0.20
  }

  /** The profit tax is a fifth of the profit, and a loss-making year gets a negative tax. */
  lemma OsnoTaxFifth(profit: real)
    ensures OsnoTax(profit) * 5.0 == profit
    ensures profit < 0.0 ==> OsnoTax(profit) < 0.0
  {
  }

  /** The amounts of `Раздел2`: income, expenses, profit, then the loss and the VAT when positive. */
  function OsnoAmounts(income: real, expenses: real, profit: real, loss: real, nds: real): (amounts: seq<Element>)
    ensures SectionsInNamespace(amounts)
  {
    var amounts := [Amount(Dohody, income), Amount(Rashody, expenses), Amount(Pribyl, profit)]
                   + (if loss > 0.0 then [Amount(Ubytok, loss)] else [])
                   + (if nds > 0.0 then [Amount(NDS, nds)] else []);
    AmountsInNamespace(amounts);
    amounts
  }

  function OsnoSections(income: real, expenses: real, profit: real, loss: real, nds: real): (sections: seq<Element>)
    ensures SectionsInNamespace(sections) && |sections| == 2
    ensures sections[0].tag == Razdel1 && sections[1].tag == Razdel2
  {
    var amounts := OsnoAmounts(income, expenses, profit, loss, nds);
    var tax := [Amount(SumNalUpl, OsnoTax(profit))];
    AmountsInNamespace(tax);
    NodeInNamespace(Razdel1, [], tax);
    NodeInNamespace(Razdel2, [], amounts);
    [Node(Razdel1, [], tax), Node(Razdel2, [], amounts)]
  }

  /** `generate_osno_xml`, as the tree it serialises. */
  function OsnoXml(inn: string, period: Period, year: int, income: real, expenses: real,
                   profit: real, loss: real, nds: real): (r: Result<Element>)
    ensures r.Ok? <==> XmlCompatible(inn)
    ensures r.Err? ==> r.error == XmlValueError()
  {
    FileIdCompatible("DECL_OSNO_", inn, year, period);
    Declaration("5.10", FileId("DECL_OSNO_", inn, year, period), "1151001", OsnoTitle, inn, year, period,
                OsnoSections(income, expenses, profit, loss, nds))
  }

  /** The OSNO tree: version "5.10", id `DECL_OSNO_…`, form 1151001, then `Раздел1` and `Раздел2`. */
  lemma OsnoShape(inn: string, period: Period, year: int, income: real, expenses: real,
                  profit: real, loss: real, nds: real)
    requires XmlCompatible(inn)
    ensures IsDeclaration(OsnoXml(inn, period, year, income, expenses, profit, loss, nds).value, "5.10",
                          FileId("DECL_OSNO_", inn, year, period), "1151001", OsnoTitle, inn, year, period,
                          OsnoSections(income, expenses, profit, loss, nds))
  {
    FileIdCompatible("DECL_OSNO_", inn, year, period);
    DeclarationShape("5.10", FileId("DECL_OSNO_", inn, year, period), "1151001", OsnoTitle, inn, year, period,
                     OsnoSections(income, expenses, profit, loss, nds));
  }

  /** `Раздел1` is the tax; `Раздел2` starts with `Доходы`, `Расходы`, `Прибыль`, has `Убыток` iff loss > 0 and `НДС` iff nds > 0. */
  lemma OsnoSection2(income: real, expenses: real, profit: real, loss: real, nds: real)
    ensures var sections := OsnoSections(income, expenses, profit, loss, nds);
            var tags := ChildTags(sections[1]);
            |tags| >= 3 && tags[..3] == [Dohody, Rashody, Pribyl] &&
            (Ubytok in tags <==> loss > 0.0) && (NDS in tags <==> nds > 0.0) &&
            sections[0].children == [Amount(SumNalUpl, OsnoTax(profit))]
  {
    var amounts := OsnoAmounts(income, expenses, profit, loss, nds);
    assert OsnoSections(income, expenses, profit, loss, nds)[1].children == amounts;
    OsnoAmountTags(income, expenses, profit, loss, nds);
  }

  lemma OsnoAmountTags(income: real, expenses: real, profit: real, loss: real, nds: real)
    ensures var amounts := OsnoAmounts(income, expenses, profit, loss, nds);
            var tags := seq(|amounts|, i requires 0 <= i < |amounts| => amounts[i].tag);
            |tags| >= 3 && tags[..3] == [Dohody, Rashody, Pribyl] &&
            (Ubytok in tags <==> loss > 0.0) && (NDS in tags <==> nds > 0.0)
  {
    var amounts := OsnoAmounts(income, expenses, profit, loss, nds);
    var tags := seq(|amounts|, i requires 0 <= i < |amounts| => amounts[i].tag);
    var extra := (if loss > 0.0 then [Ubytok] else []) + (if nds > 0.0 then [NDS] else []);
    assert tags == [Dohody, Rashody, Pribyl] + extra;
  }

  /** The amount under `Раздел1/СумНалУпл` of an OSNO tree, if it has one. */
  function OsnoTaxAmount(root: Element): Option<real> {
    if |root.children| == 1 && |root.children[0].children| >= 3
       && |root.children[0].children[2].children| == 1
       && root.children[0].children[2].children[0].tag == SumNalUpl
       && root.children[0].children[2].children[0].text.AmountText?
    then Some(root.children[0].children[2].children[0].text.amount)
    else None
  }

  /** The tax an OSNO tree carries is `OsnoTax` of the profit. */
  lemma OsnoTreeTax(inn: string, period: Period, year: int, income: real, expenses: real,
                    profit: real, loss: real, nds: real)
    requires XmlCompatible(inn)
    ensures OsnoTaxAmount(OsnoXml(inn, period, year, income, expenses, profit, loss, nds).value) == Some(OsnoTax(profit))
  {
    OsnoShape(inn, period, year, income, expenses, profit, loss, nds);
    OsnoSection2(income, expenses, profit, loss, nds);
  }

  // NDS (VAT), form КНД 1151001

  function NdsSections(ndsToPay: real, ndsToRefund: real, turnover: real): (sections: seq<Element>)
    ensures SectionsInNamespace(sections) && |sections| == 2
    ensures sections[0].tag == Razdel1 && sections[1].tag == Razdel2
  {
    var amounts := (if ndsToPay > 0.0 then [Amount(SumNDSUpl, ndsToPay)] else [])
                   + (if ndsToRefund > 0.0 then [Amount(SumNDSVozm, ndsToRefund)] else []);
    var turn := [Amount(Oborot, turnover)];
    AmountsInNamespace(amounts);
    AmountsInNamespace(turn);
    NodeInNamespace(Razdel1, [], amounts);
    NodeInNamespace(Razdel2, [], turn);
    [Node(Razdel1, [], amounts), Node(Razdel2, [], turn)]
  }

  /** `generate_nds_xml`, as the tree it serialises. */
  function NdsXml(inn: string, period: Period, year: int, ndsToPay: real, ndsToRefund: real, turnover: real): (r: Result<Element>)
    ensures r.Ok? <==> XmlCompatible(inn)
    ensures r.Err? ==> r.error == XmlValueError()
  {
    FileIdCompatible("DECL_NDS_", inn, year, period);
    Declaration("5.10", FileId("DECL_NDS_", inn, year, period), "1151001", NdsTitle, inn, year, period,
                NdsSections(ndsToPay, ndsToRefund, turnover))
  }

  /** The NDS tree: version "5.10", id `DECL_NDS_…`, form 1151001, then `Раздел1` and `Раздел2`. */
  lemma NdsShape(inn: string, period: Period, year: int, ndsToPay: real, ndsToRefund: real, turnover: real)
    requires XmlCompatible(inn)
    ensures IsDeclaration(NdsXml(inn, period, year, ndsToPay, ndsToRefund, turnover).value, "5.10",
                          FileId("DECL_NDS_", inn, year, period), "1151001", NdsTitle, inn, year, period,
                          NdsSections(ndsToPay, ndsToRefund, turnover))
  {
    FileIdCompatible("DECL_NDS_", inn, year, period);
    DeclarationShape("5.10", FileId("DECL_NDS_", inn, year, period), "1151001", NdsTitle, inn, year, period,
                     NdsSections(ndsToPay, ndsToRefund, turnover));
  }

  /** `СумНДСУпл` is there iff the VAT to pay is positive, `СумНДСВозм` iff the refund is; `Раздел2` is one `Оборот`. */
  lemma NdsSection1(ndsToPay: real, ndsToRefund: real, turnover: real)
    ensures var sections := NdsSections(ndsToPay, ndsToRefund, turnover);
            var tags := ChildTags(sections[0]);
            (SumNDSUpl in tags <==> ndsToPay > 0.0) && (SumNDSVozm in tags <==> ndsToRefund > 0.0) &&
            (ndsToPay <= 0.0 && ndsToRefund <= 0.0 ==> sections[0].children == []) &&
            sections[1].children == [Amount(Oborot, turnover)]
  {
    var tags := ChildTags(NdsSections(ndsToPay, ndsToRefund, turnover)[0]);
    assert tags == (if ndsToPay > 0.0 then [SumNDSUpl] else []) + (if ndsToRefund > 0.0 then [SumNDSVozm] else []);
  }

  // 6-NDFL (personal income tax), form КНД 1151078

  function Ndfl6Sections(totalIncome: real, totalNdfl: real, withheldNdfl: real): (sections: seq<Element>)
    ensures SectionsInNamespace(sections) && |sections| == 1 && sections[0].tag == Razdel1
  {
    var amounts := [Amount(SumDoh, totalIncome), Amount(SumNDFL, totalNdfl), Amount(SumNDFLUderzh, withheldNdfl)];
    AmountsInNamespace(amounts);
    NodeInNamespace(Razdel1, [], amounts);
    [Node(Razdel1, [], amounts)]
  }

  /** `generate_6ndfl_xml`, as the tree it serialises. */
  function Ndfl6Xml(inn: string, period: Period, year: int, totalIncome: real, totalNdfl: real, withheldNdfl: real): (r: Result<Element>)
    ensures r.Ok? <==> XmlCompatible(inn)
    ensures r.Err? ==> r.error == XmlValueError()
  {
    FileIdCompatible("DECL_6NDFL_", inn, year, period);
    Declaration("5.10", FileId("DECL_6NDFL_", inn, year, period), "1151078", Ndfl6Title, inn, year, period,
                Ndfl6Sections(totalIncome, totalNdfl, withheldNdfl))
  }

  /** The 6-NDFL tree: version "5.10", id `DECL_6NDFL_…`, form 1151078, and a `Раздел1` of the three amounts as its only section. */
  lemma Ndfl6Shape(inn: string, period: Period, year: int, totalIncome: real, totalNdfl: real, withheldNdfl: real)
    requires XmlCompatible(inn)
    ensures IsDeclaration(Ndfl6Xml(inn, period, year, totalIncome, totalNdfl, withheldNdfl).value, "5.10",
                          FileId("DECL_6NDFL_", inn, year, period), "1151078", Ndfl6Title, inn, year, period,
                          Ndfl6Sections(totalIncome, totalNdfl, withheldNdfl))
    ensures Ndfl6Sections(totalIncome, totalNdfl, withheldNdfl)[0].children ==
            [Amount(SumDoh, totalIncome), Amount(SumNDFL, totalNdfl), Amount(SumNDFLUderzh, withheldNdfl)]
  {
    FileIdCompatible("DECL_6NDFL_", inn, year, period);
    DeclarationShape("5.10", FileId("DECL_6NDFL_", inn, year, period), "1151078", Ndfl6Title, inn, year, period,
                     Ndfl6Sections(totalIncome, totalNdfl, withheldNdfl));
  }
}
