/**
 * The fixed payloads the arbitration tools answer with in test mode: one
 * search hit, one detailed case (for both detail tools) and a one-page PDF.
 */
module ArbitrStubs {
  import opened Wrappers
  import opened JsonValues
  import Base64

  const SearchCaseId: string := "7057cbe9-910b-43ab-98f6-97293fbfd6ff"
  const SearchCaseNumber: string := "А40-180791/2024"
  const SearchCourt: string := "АС города Москвы"
  const SearchCaseType: string := "Б"
  const DetailsCaseId: string := "6fb9afec-b71d-4183-b917-4cace5958c16"
  const DetailsCaseNumber: string := "А71-1202/2015"
  const DetailsState: string := "Рассмотрение дела завершено"

  const SearchPlaintiff: Json := JObj([
    ("Name", JStr("ПАО \"НОРВИК БАНК\"")),
    ("Address", JStr("115054, Россия, г Москва, г. Москва, ул. Зацепский вал, д. 5")),
    ("Inn", JStr("4346001485"))])

  const SearchRespondent: Json := JObj([
    ("Name", JStr("Антоненко Александр Александрович")), ("Address", JNull), ("Inn", JStr("463406307502"))])

  const SearchCase: Json := JObj([
    ("CaseId", JStr(SearchCaseId)),
    ("CaseNumber", JStr(SearchCaseNumber)),
    ("CaseType", JStr(SearchCaseType)),
    ("Court", JStr(SearchCourt)),
    ("StartDate", JStr("2024-08-05")),
    ("Plaintiffs", JArr([SearchPlaintiff])),
    ("Respondents", JArr([SearchRespondent]))])

  /** `stub_search_cases()` */
  function StubSearchCases(): Json {
    JObj([("Success", JInt(1)), ("Cases", JArr([SearchCase])), ("PagesCount", JInt(1))])
  }

  const DetailsPlaintiff: Json := JObj([
    ("Name", JStr("ООО \"Детство\"")),
    ("Address", JStr("101000, ул. Петровка 17/3-19 (Мансурову М.С.), Москва г.")),
    ("Inn", JStr("1841012052")),
    ("Ogrn", JStr("1101841004198")),
    ("Id", JStr("3c79f2f9-c07f-4cfe-92a1-eb495e3fd2de"))])

  const DetailsRespondent: Json := JObj([
    ("Name", JStr("Межрайонная ИФНС России №9 по Удмуртской Республике")),
    ("Address", JStr("426003, ул. Карла Маркса, 130, г. Ижевск")),
    ("Inn", JStr("1835059990")),
    ("Ogrn", JStr("1041805001501")),
    ("Id", JStr("b49d872b-2fd3-4802-904d-8c8565ad6fea"))])

  const InstanceEvent: Json := JObj([
    ("EventTypeName", JStr("Определение")),
    ("EventTypeId", JStr("3f4a11f5-b269-4fe8-8243-957b5260c3d1")),
    ("Id", JStr("8d0e1fc6-9df7-46bb-8530-10a971190666")),
    ("AdditionalInfo", JStr("Дата и время судебного заседания 20.01.2016, 11:00, 22")),
    ("Date", JStr("2015-12-11")),
    ("File", JStr("https://kad.arbitr.ru/PdfDocument/8d0e1fc6-9df7-46bb-8530-10a971190666/A71-1202-2015_20151211_Opredelenie.pdf")),
    ("PublishDate", JStr("2015-12-12")),
    ("FinishEvent", JInt(0)),
    ("EventContentTypeName", JStr("Об отложении рассмотрения заявления/жалобы")),
    ("Declarer", JStr("АНО ДАЧНОЕ НЕКОММЕРЧЕСКОЕ ТОВАРИЩЕСТВО ВНИИКОП-ОСТРОВ")),
    ("DeclarerInn", JStr("5003079985")),
    ("Comment", JStr("заявителю на руки в заседании, ответчику на руки в ячейке")),
    ("DecisionTypeName", JNull),
    ("HasSignature", JInt(0)),
    ("ClaimSum", JInt(10000))])

  const CaseInstance: Json := JObj([
    ("Id", JStr("5400123c-5c8a-4421-a839-c130938086c2")),
    ("InstanceNumber", JStr("А71-1202/15")),
    ("Name", JStr("Первая инстанция")),
    ("State", JStr("Следующее заседание: 18.11.2020, 10:15 , №217 Матвеева Н.В.")),
    ("Court", JObj([("Code", JStr("UDMURTIYA")), ("Name", JStr("АС Удмуртской Республики"))])),
    ("File", JObj([
      ("Name", JStr("A71-1202-2015_20150507_Reshenija i postanovlenija.pdf")),
      ("URL", JStr("https://kad.arbitr.ru/PdfDocument/63778dcd-c696-4863-b781-73a839cbf8a8/A71-1202-2015_20150507_Reshenija%20i%20postanovlenija.pdf"))])),
    ("Judges", JArr([JStr("Бушуева Е. А.")])),
    ("MoiArbitrDocuments", JArr([JObj([
      ("PublishDate", JStr("2016-11-21 10:25:00")),
      ("RegisterDate", JStr("2016-11-21")),
      ("DocumentName", JStr("Отзыв")),
      ("CourtName", JStr("АС Удмуртской Республики"))])])),
    ("InstanceEvents", JArr([InstanceEvent]))])

  const CourtHearing: Json := JObj([
    ("Location", JStr("426011, Ижевск, ул. Ломоносова 5, 22")),
    ("Summary", JStr("Заседание по делу А71-1202/2015 в АС Удмуртской Республики. Судья Бушуева Е. А.")),
    ("Start", JStr("2015-03-19T11:00:00+04")),
    ("End", JStr("2015-03-19T12:00:00+04"))])

  const DetailsCase: Json := JObj([
    ("CaseId", JStr(DetailsCaseId)),
    ("CaseNumber", JStr(DetailsCaseNumber)),
    ("CaseType", JStr("А")),
    ("Plaintiffs", JArr([DetailsPlaintiff])),
    ("Respondents", JArr([DetailsRespondent])),
    ("StartDate", JStr("2015-02-06")),
    ("State", JStr(DetailsState)),
    ("Finished", JBool(true)),
    ("CaseInstances", JArr([CaseInstance])),
    ("CourtHearings", JArr([CourtHearing]))])

  /** `stub_details_by_number()` */
  function StubDetailsByNumber(): Json {
    JObj([("Success", JInt(1)), ("Cases", JArr([DetailsCase]))])
  }

  /** `stub_details_by_id()`: the same payload as by number. */
  function StubDetailsById(): Json {
    StubDetailsByNumber()
  }

  /** The bytes of an ASCII text. */
  function AsciiBytes(s: string): (b: seq<Base64.byte>)
    ensures |b| == |s|
  {
    seq(|s|, i requires 0 <= i < |s| => (s[i] as int % 256) as Base64.byte)
  }

  const MinimalPdfText: string :=
    "%PDF-1.4\n" +
    "1 0 obj\n" +
    "<< /Type /Catalog /Pages 2 0 R >>\n" +
    "endobj\n" +
    "2 0 obj\n" +
    "<< /Type /Pages /Kids [3 0 R] /Count 1 >>\n" +
    "endobj\n" +
    "3 0 obj\n" +
    "<< /Type /Page /Parent 2 0 R /MediaBox [0 0 612 792] >>\n" +
    "endobj\n" +
    "xref\n" +
    "0 4\n" +
    "0000000000 65535 f \n" +
    "0000000009 00000 n \n" +
    "0000000058 00000 n \n" +
    "0000000115 00000 n \n" +
    "trailer\n" +
    "<< /Size 4 /Root 1 0 R >>\n" +
    "startxref\n" +
    "178\n" +
    "%%EOF"

  /** `stub_pdf_download()`: a one-page PDF, base64-encoded. */
  function StubPdfDownload(): Json {
    JObj([("Success", JInt(1)), ("pdfContent", JStr(Base64.Encode(AsciiBytes(MinimalPdfText))))])
  }

  // ---- Properties ----

  /** Every stub reports success. */
  lemma StubsSucceed()
    ensures Lookup(StubSearchCases().fields, "Success") == Some(JInt(1))
    ensures Lookup(StubDetailsByNumber().fields, "Success") == Some(JInt(1))
    ensures Lookup(StubDetailsById().fields, "Success") == Some(JInt(1))
    ensures Lookup(StubPdfDownload().fields, "Success") == Some(JInt(1))
  {
  }

  /** The search stub holds one case on one page. */
  lemma SearchStubShape()
    ensures Lookup(StubSearchCases().fields, "Cases") == Some(JArr([SearchCase]))
    ensures Lookup(StubSearchCases().fields, "PagesCount") == Some(JInt(1))
  {
  }

  /** The search case's number. */
  lemma SearchCaseNumberField()
    ensures Lookup(SearchCase.fields, "CaseNumber") == Some(JStr(SearchCaseNumber))
  {
    LookupAt(SearchCase.fields, 1, "CaseNumber");
  }

  /** The search case's type. */
  lemma SearchCaseTypeField()
    ensures Lookup(SearchCase.fields, "CaseType") == Some(JStr(SearchCaseType))
  {
    LookupAt(SearchCase.fields, 2, "CaseType");
  }

  /** The search case's court. */
  lemma SearchCourtField()
    ensures Lookup(SearchCase.fields, "Court") == Some(JStr(SearchCourt))
  {
    LookupAt(SearchCase.fields, 3, "Court");
  }

  /** The detailed case's number. */
  lemma DetailsCaseNumberField()
    ensures Lookup(DetailsCase.fields, "CaseNumber") == Some(JStr(DetailsCaseNumber))
  {
    LookupAt(DetailsCase.fields, 1, "CaseNumber");
  }

  /** The detailed case's id. */
  lemma DetailsCaseIdField()
    ensures Lookup(DetailsCase.fields, "CaseId") == Some(JStr(DetailsCaseId))
  {
    LookupAt(DetailsCase.fields, 0, "CaseId");
  }

  /** The detailed case's state. */
  lemma DetailsStateField()
    ensures Lookup(DetailsCase.fields, "State") == Some(JStr(DetailsState))
  {
    var f := DetailsCase.fields;
    assert f[0].0 == "CaseId" && f[1].0 == "CaseNumber" && f[2].0 == "CaseType";
    assert f[3].0 == "Plaintiffs" && f[4].0 == "Respondents" && f[5].0 == "StartDate" && f[6].0 == "State";
    LookupAt(f, 6, "State");
  }

  /** The detailed case has one instance. */
  lemma DetailsInstancesField()
    ensures Lookup(DetailsCase.fields, "CaseInstances") == Some(JArr([CaseInstance]))
  {
    var f := DetailsCase.fields;
    assert f[0].0 == "CaseId" && f[1].0 == "CaseNumber" && f[2].0 == "CaseType" && f[3].0 == "Plaintiffs";
    assert f[4].0 == "Respondents" && f[5].0 == "StartDate" && f[6].0 == "State" && f[7].0 == "Finished";
    LookupAt(f, 8, "CaseInstances");
  }

  /** The PDF stub carries content, and that content decodes back to the PDF's bytes. */
  lemma PdfStubDecodes()
    ensures Lookup(StubPdfDownload().fields, "pdfContent").Some?
    ensures var content := Lookup(StubPdfDownload().fields, "pdfContent").value;
      content.JStr? && |content.s| > 0 && Base64.Decode(content.s) == Some(AsciiBytes(MinimalPdfText))
  {
    var bytes := AsciiBytes(MinimalPdfText);
    assert |MinimalPdfText| > 0;
    assert Lookup(StubPdfDownload().fields, "pdfContent") == Some(JStr(Base64.Encode(bytes)));
    Base64.DecodeEncode(bytes);
  }

  /** Those bytes are a PDF file: they open with the "%PDF-" signature. */
  lemma PdfSignature()
    ensures |AsciiBytes(MinimalPdfText)| >= 5 && AsciiBytes(MinimalPdfText)[..5] == AsciiBytes("%PDF-")
  {
    var text := MinimalPdfText;
    assert text[..5] == "%PDF-";
  }

  /** Both detail tools answer with the same payload in test mode. */
  lemma DetailsStubsAgree()
    ensures StubDetailsById() == StubDetailsByNumber()
    ensures Lookup(StubDetailsById().fields, "Cases") == Some(JArr([DetailsCase]))
  {
  }
}
