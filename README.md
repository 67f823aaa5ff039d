# Risk-analysis tool servers, modelled in Dafny

The repository is a set of MCP tool servers that an agent calls while it
assesses a Russian counterparty, plus a small web UI. This project models
the deterministic logic around their network calls and proves what that
logic promises:

- **Tax tools (`fns-tax-mcp`).** INN validation, the `FNS_MODE` switch and
  the allow-list of the "free" key. The element trees and tax rules of the
  four declaration generators (USN, OSNO, VAT, 6-NDFL) and the tools that
  validate the input and package the result. The api-fns.ru lookup tools
  (account blocks, company search, change tracking, the watch list, the
  group check, accounting reports, INN by passport): the mode and token
  contract, the request each one issues, the error mapping and the rendering
  of the reply.
- **Bank statements (`bank-statement-mcp`).** Provider resolution, credential
  gating, routing to the sandbox, the mock or the bank, request shaping, the
  T-Bank statement with its turnover totals, and the deterministic mock.
- **Arbitration courts (`kadarbitrmcp`).** `Settings.from_env` and its
  one-slot cache, the api-assist client's query and response classification,
  the four tools' summaries, meta and error mapping, and the test-mode stubs.
- **Web UI (`ui_app.py`).** The extraction of the answer text from an A2A
  reply (a walk bounded at depth 6 with a fixed fallback order) and the
  status/answer/history summary.

Shared modules give Python's meaning to what the adapters use:
`Strings` (`strip`, `replace`, `isdigit`, `join`, `str(int)`, `:.2f`),
`JsonValues` (a decoded JSON value with truthiness and an approximation of `str()` and `repr()`),
`Py` (`dict.get`, `in`, indexing, `len`, slicing, iteration),
`Base64` (section 4 of RFC 4648) and `Common` (MCP error codes, exceptions,
the environment, the tool result, and the HTTP exchange). An upstream reply
is an input value; each tool also returns the request it would send, so that
"no request is made" can be stated. The codes -32602 and -32603 are the
"Invalid params" and "Internal error" codes of section 5.1 of the JSON-RPC
2.0 Specification.

Loops that build text with `+=`, fill a parameter dict or append to a list
are methods with `while` loops, each proved equal to a specification
function; the one-slot `lru_cache` of the arbitration settings is a class
whose methods update its field. Everything else is functions and lemmas.

## Model

| member | source | states |
|---|---|---|
| FnsUtils.EmptyInnRejected | fns-tax-mcp/tools/utils.py:21-22 | the empty INN is invalid |
| FnsUtils.CleanInnSwap | fns-tax-mcp/tools/utils.py:25 | cleaning (strip, then delete spaces) equals deleting the spaces first and stripping afterwards |
| FnsUtils.CleanIgnoresSpace | fns-tax-mcp/tools/utils.py:25 | deleting one space anywhere in the input leaves the cleaned INN unchanged |
| FnsUtils.SpaceNeverMatters | fns-tax-mcp/tools/utils.py:18-30 | a space anywhere never changes the verdict of `validate_inn` |
| FnsUtils.SpacedExample | fns-tax-mcp/tools/utils.py:18-30 | `"7707 083893"` and `"7707083893"` are both valid |
| FnsUtils.TenDigitExample | fns-tax-mcp/tools/utils.py:26-30 | `"7707083893"` is valid |
| FnsUtils.RejectsForeignCharacter | fns-tax-mcp/tools/utils.py:25-27 | a character that is neither whitespace nor a digit anywhere in the input makes it invalid |
| FnsUtils.AcceptsDigits | fns-tax-mcp/tools/utils.py:25-30 | exactly 10 or 12 ASCII digits are valid |
| FnsUtils.RejectsOtherLengths | fns-tax-mcp/tools/utils.py:29-30 | a digit string of any other length is invalid |
| FnsUtils.SeparatorPrefixAccepted | fns-tax-mcp/tools/utils.py:25 | `strip()` removes U+001C, so a valid INN behind that separator is still valid |
| FnsUtils.CleanAccepted | fns-tax-mcp/tools/utils.py:25-30 | an input whose cleaned form is 10 or 12 digits is valid (the converse of the three rejection lemmas) |
| FnsUtils.AllowListContents | fns-tax-mcp/tools/utils.py:43-70 | the free allow-list holds the four declaration generators and not `check_account_blocks`, `check_account_blocks_file` or `get_msp_extract` |
| FnsUtils.FnsMode | fns-tax-mcp/tools/utils.py:73-75 | the mode is "test" when FNS_MODE is unset; otherwise it is FNS_MODE lower-cased, character by character |
| FnsUtils.LowerCaseModeKept | fns-tax-mcp/tools/utils.py:73-75 | a FNS_MODE without capital letters is the mode unchanged |
| FnsUtils.ModeSpelled | fns-tax-mcp/tools/utils.py:73-75 | the mode equals a lower-case word exactly when FNS_MODE spells that word in any mix of cases |
| FnsUtils.FreeMode | fns-tax-mcp/tools/utils.py:73-75 | free mode holds exactly when FNS_MODE is "free" in any case |
| FnsUtils.TestMode | fns-tax-mcp/tools/utils.py:73-75 | test mode holds exactly when FNS_MODE is unset or "test" in any case |
| FnsUtils.EnsureAllowedInFree | fns-tax-mcp/tools/utils.py:78-94 | outside free mode the call passes; in free mode it passes iff the name is in the allow-list; a failure is McpError -32603 whose message contains the tool name |
| XmlGenerator.PeriodCodes | fns-tax-mcp/tools/xml_generator.py:27-36 | Q1→"21", Q2→"22", Q3→"23", Q4→"31", YEAR→"34" |
| XmlGenerator.UnknownPeriodCode | fns-tax-mcp/tools/xml_generator.py:36 | any other period string → "21" |
| XmlGenerator.ChildTags | fns-tax-mcp/tools/xml_generator.py:173-192 | the tags of an element's children, one per child, in order |
| XmlGenerator.NodeInNamespace | fns-tax-mcp/tools/xml_generator.py:13-58 | an element built over namespaced children lies wholly in the FNS namespace |
| XmlGenerator.XmlCompatibleChars | fns-tax-mcp/tools/xml_generator.py:60-70 | a text lxml accepts is one whose every character is XML-compatible |
| XmlGenerator.XmlCompatibleConcat | fns-tax-mcp/tools/xml_generator.py:60 | a concatenation is XML-compatible iff both parts are |
| XmlGenerator.DigitsCompatible | fns-tax-mcp/tools/xml_generator.py:70 | a digit string (every valid cleaned INN) is XML-compatible |
| XmlGenerator.SeparatorIncompatible | fns-tax-mcp/tools/xml_generator.py:70 | U+001C ahead of an INN makes it XML-incompatible, so lxml rejects an INN that `validate_inn` accepts |
| XmlGenerator.NonCharacterIncompatible | fns-tax-mcp/tools/xml_generator.py:60 | a text holding U+FFFE or U+FFFF anywhere is not XML-compatible |
| XmlGenerator.UsnNonCharacterInn | fns-tax-mcp/tools/xml_generator.py:60 | the USN generator called with INN "\uFFFE" raises lxml's ValueError |
| XmlGenerator.FileIdCompatible | fns-tax-mcp/tools/xml_generator.py:60 | the `ИдФайл` attribute is XML-compatible iff the INN is (also lines 146, 225 and 289) |
| XmlGenerator.Declaration | fns-tax-mcp/tools/xml_generator.py:54-78 | the shared skeleton is built iff the file id and the INN are XML-compatible; otherwise lxml's ValueError |
| XmlGenerator.DeclarationShape | fns-tax-mcp/tools/xml_generator.py:54-78 | root `Файл` (version, id) → `Документ` (КНД, title) → `СвНП`/`ИННЮЛ` = inn, `Период` (Год, Код), then the sections, all in the FNS namespace |
| XmlGenerator.UsnTax | fns-tax-mcp/tools/xml_generator.py:80-95 | at rate 6 the tax is income×6/100; otherwise it is never negative, is 0 iff income ≤ expenses, and is (income−expenses)×15/100 when positive |
| XmlGenerator.UsnSections | fns-tax-mcp/tools/xml_generator.py:78-98 | USN has `Раздел1` then `Раздел2`, both namespaced |
| XmlGenerator.UsnXml | fns-tax-mcp/tools/xml_generator.py:39-120 | the USN tree is built iff the INN is XML-compatible |
| XmlGenerator.UsnShape | fns-tax-mcp/tools/xml_generator.py:59-64 | version "5.05", id `DECL_{inn}_{year}_{period}`, КНД "1152017", over the USN sections |
| XmlGenerator.UsnSubsections | fns-tax-mcp/tools/xml_generator.py:80-111 | rate 6: `Раздел1.1/СумНалУпл` and `Раздел2.1.1` with only `СумДох`; otherwise `Раздел1.2/СумНалУпл` and `Раздел2.2` with `СумДох` then `СумРасх` |
| XmlGenerator.UsnTreeTax | fns-tax-mcp/tools/xml_generator.py:83-95 | the `СумНалУпл` written into the tree is the USN tax |
| XmlGenerator.OsnoTaxFifth | fns-tax-mcp/tools/xml_generator.py:165 | the OSNO tax is a fifth of the profit, unclamped, so a negative profit gives a negative tax |
| XmlGenerator.OsnoAmounts | fns-tax-mcp/tools/xml_generator.py:172-192 | the `Раздел2` amounts lie in the FNS namespace |
| XmlGenerator.OsnoSections | fns-tax-mcp/tools/xml_generator.py:164-170 | OSNO has `Раздел1` then `Раздел2` |
| XmlGenerator.OsnoXml | fns-tax-mcp/tools/xml_generator.py:123-201 | the OSNO tree is built iff the INN is XML-compatible |
| XmlGenerator.OsnoShape | fns-tax-mcp/tools/xml_generator.py:145-151 | version "5.10", id `DECL_OSNO_…`, КНД "1151001" |
| XmlGenerator.OsnoSection2 | fns-tax-mcp/tools/xml_generator.py:163-192 | `Раздел2` starts with `Доходы`, `Расходы`, `Прибыль`; holds `Убыток` iff loss > 0 and `НДС` iff nds > 0; `Раздел1` holds exactly `СумНалУпл` |
| XmlGenerator.OsnoAmountTags | fns-tax-mcp/tools/xml_generator.py:172-192 | the same order and presence facts, on the list of amounts |
| XmlGenerator.OsnoTreeTax | fns-tax-mcp/tools/xml_generator.py:165-167 | the `СумНалУпл` written into the tree is the OSNO tax |
| XmlGenerator.NdsSections | fns-tax-mcp/tools/xml_generator.py:243-254 | NDS has `Раздел1` then `Раздел2` |
| XmlGenerator.NdsXml | fns-tax-mcp/tools/xml_generator.py:204-265 | the NDS tree is built iff the INN is XML-compatible |
| XmlGenerator.NdsShape | fns-tax-mcp/tools/xml_generator.py:224-230 | version "5.10", id `DECL_NDS_…`, КНД "1151001" |
| XmlGenerator.NdsSection1 | fns-tax-mcp/tools/xml_generator.py:243-256 | `Раздел1` holds `СумНДСУпл` iff nds_to_pay > 0 and `СумНДСВозм` iff nds_to_refund > 0, and is empty when neither is positive; `Раздел2` holds exactly one `Оборот` |
| XmlGenerator.Ndfl6Sections | fns-tax-mcp/tools/xml_generator.py:307 | 6-NDFL has only `Раздел1` |
| XmlGenerator.Ndfl6Xml | fns-tax-mcp/tools/xml_generator.py:268-325 | the 6-NDFL tree is built iff the INN is XML-compatible |
| XmlGenerator.Ndfl6Shape | fns-tax-mcp/tools/xml_generator.py:288-316 | version "5.10", id `DECL_6NDFL_…`, КНД "1151078"; `Раздел1` holds exactly `СумДох`, `СумНДФЛ`, `СумНДФЛУдерж` |
| UsnDeclaration.GenerateUsnDeclaration | fns-tax-mcp/tools/generate_usn_declaration.py:21-95 | an invalid INN gives -32602 "ИНН должен содержать 10 или 12 цифр" before anything is generated; with a valid INN the tool succeeds iff lxml accepts the INN, and otherwise fails with -32603 "Не удалось сгенерировать декларацию: " and the ValueError text |
| UsnDeclaration.UsnDeclarationOk | fns-tax-mcp/tools/generate_usn_declaration.py:46-91 | a valid, XML-compatible INN yields the packaged result: serialised tree, echoed inputs, the USN tax, status, format and version |
| UsnDeclaration.UsnStructuredTax | fns-tax-mcp/tools/generate_usn_declaration.py:84-90 | structured content and meta both carry the tax under `tax_amount` |
| UsnDeclaration.UsnStructuredXml | fns-tax-mcp/tools/generate_usn_declaration.py:85 | structured content carries the serialised tree under `declaration_xml` |
| UsnDeclaration.UsnDeclarationConsistent | fns-tax-mcp/tools/generate_usn_declaration.py:47-90 | the reported `tax_amount` (structured and meta) equals the `СумНалУпл` the generator writes, and `declaration_xml` is the serialised tree |
| UsnDeclaration.UsnDigitsGenerate | fns-tax-mcp/tools/generate_usn_declaration.py:31-91 | 10 or 12 bare digits always yield a declaration |
| UsnDeclaration.UsnSeparatorInn | fns-tax-mcp/tools/generate_usn_declaration.py:31-95 | a valid INN behind U+001C passes validation but fails generation with -32603 |
| UsnDeclaration.UsnExample | fns-tax-mcp/test/test_generate_usn.py:18-31 | income 500000 at the default rate 6 gives `tax_amount` 30000.0 |
| OsnoDeclaration.GenerateOsnoDeclaration | fns-tax-mcp/tools/generate_osno_declaration.py:20-106 | an invalid INN gives -32602 first; with a valid INN the tool succeeds iff lxml accepts the INN, and otherwise fails with -32603 carrying the exception text |
| OsnoDeclaration.OsnoBuilt | fns-tax-mcp/tools/generate_osno_declaration.py:50-106 | the part inside the try succeeds iff the INN is XML-compatible; a failure is -32603 |
| OsnoDeclaration.OsnoDeclarationOk | fns-tax-mcp/tools/generate_osno_declaration.py:50-101 | a valid, XML-compatible INN yields the packaged result with tax profit×0.20 |
| OsnoDeclaration.OsnoStructuredTax | fns-tax-mcp/tools/generate_osno_declaration.py:94-100 | structured content and meta both carry the tax |
| OsnoDeclaration.OsnoStructuredXml | fns-tax-mcp/tools/generate_osno_declaration.py:95 | `declaration_xml` is the serialised tree |
| OsnoDeclaration.OsnoDeclarationConsistent | fns-tax-mcp/tools/generate_osno_declaration.py:52-100 | the reported tax equals the tree's `СумНалУпл` |
| OsnoDeclaration.OsnoDigitsGenerate | fns-tax-mcp/tools/generate_osno_declaration.py:33-101 | 10 or 12 bare digits always yield a declaration |
| OsnoDeclaration.OsnoSeparatorInn | fns-tax-mcp/tools/generate_osno_declaration.py:33-106 | an INN behind U+001C fails generation with -32603 |
| NdsDeclaration.GenerateNdsDeclaration | fns-tax-mcp/tools/generate_nds_declaration.py:21-94 | an invalid INN gives -32602 first; with a valid INN the tool succeeds iff lxml accepts the INN, and otherwise fails with -32603 |
| NdsDeclaration.NdsBuilt | fns-tax-mcp/tools/generate_nds_declaration.py:49-94 | the part inside the try succeeds iff the INN is XML-compatible |
| NdsDeclaration.NdsDeclarationOk | fns-tax-mcp/tools/generate_nds_declaration.py:49-89 | a valid, XML-compatible INN yields the packaged result |
| NdsDeclaration.NdsStructuredFields | fns-tax-mcp/tools/generate_nds_declaration.py:76-88 | structured content and meta both carry `nds_to_pay` |
| NdsDeclaration.NdsStructuredXml | fns-tax-mcp/tools/generate_nds_declaration.py:76-88 | `declaration_xml` is the serialised tree |
| NdsDeclaration.NdsDeclarationConsistent | fns-tax-mcp/tools/generate_nds_declaration.py:49-88 | structured content and meta carry `nds_to_pay` as given, `declaration_xml` is the serialised tree, and that tree holds `СумНДСУпл` iff nds_to_pay > 0 |
| NdsDeclaration.NdsDefaultsEmptySection1 | fns-tax-mcp/tools/generate_nds_declaration.py:21-30 | with both amounts at their defaults of 0 the tool succeeds and `Раздел1` is empty |
| NdsDeclaration.NdsDigitsGenerate | fns-tax-mcp/tools/generate_nds_declaration.py:32-89 | 10 or 12 bare digits always yield a declaration |
| NdsDeclaration.NdsSeparatorInn | fns-tax-mcp/tools/generate_nds_declaration.py:32-94 | an INN behind U+001C fails generation with -32603 |
| Ndfl6Declaration.Generate6NdflDeclaration | fns-tax-mcp/tools/generate_6ndfl_declaration.py:21-94 | an invalid INN gives -32602 first; with a valid INN the tool succeeds iff lxml accepts the INN, and otherwise fails with -32603 "Не удалось сгенерировать форму: …" |
| Ndfl6Declaration.Ndfl6DeclarationOk | fns-tax-mcp/tools/generate_6ndfl_declaration.py:49-89 | a valid, XML-compatible INN yields the packaged result |
| Ndfl6Declaration.Ndfl6StructuredXml | fns-tax-mcp/tools/generate_6ndfl_declaration.py:76-88 | `declaration_xml` is the serialised tree |
| Ndfl6Declaration.Ndfl6AnyAmounts | fns-tax-mcp/tools/generate_6ndfl_declaration.py:49-89 | any amounts, negative or inconsistent ones included, yield a form whose `Раздел1` carries them as given |
| Ndfl6Declaration.Ndfl6DigitsGenerate | fns-tax-mcp/tools/generate_6ndfl_declaration.py:32-89 | 10 or 12 bare digits always yield a form |
| Ndfl6Declaration.Ndfl6SeparatorInn | fns-tax-mcp/tools/generate_6ndfl_declaration.py:32-94 | an INN behind U+001C fails generation with -32603 |
| CheckAccountBlocks.BlockLinesSnoc | fns-tax-mcp/tools/check_account_blocks.py:53-54 | one more block adds exactly its own `"  - …\n"` line after those of the earlier blocks |
| CheckAccountBlocks.AppendBlockLines | fns-tax-mcp/tools/check_account_blocks.py:53-54 | the `for blok in blokirovki` loop appends one line per block, in list order, to the text built so far (also lines 117-118) |
| CheckAccountBlocks.RenderSubject | fns-tax-mcp/tools/check_account_blocks.py:48-58 | the `+=` rendering of one ЮЛ/ИП record (or the exception its `.get` raises) agrees with the reference text `SubjectText` (also lines 112-122) |
| CheckAccountBlocks.RenderBlocks | fns-tax-mcp/tools/check_account_blocks.py:105-137 | the rendering of the whole payload agrees with `BlocksText`: no items, the ЮЛ record, the ИП record, or only the header |
| CheckAccountBlocks.CheckBlocks | fns-tax-mcp/tools/check_account_blocks.py:23-154 | free mode is refused with no request; test mode renders the mock; a missing token is refused with no request; otherwise one GET to `nalogbi` with inn and key and a 40 s timeout, an HTTP status error reports the status, any other failure gives "Не удалось проверить блокировки счета", and a body gives the rendered, stripped text with prod meta |
| CheckAccountBlocks.FileSummary | fns-tax-mcp/tools/check_account_blocks.py:181-226 | the three `+=` lines followed by `strip()` give the file summary exactly |
| CheckAccountBlocks.FileParamsBik | fns-tax-mcp/tools/check_account_blocks.py:207-212 | the query starts with inn and key, and contains `bik` if and only if a non-empty BIK was given, as its third parameter |
| CheckAccountBlocks.FileTextStripped | fns-tax-mcp/tools/check_account_blocks.py:189-231 | the file summary has no whitespace at either end, so `strip()` leaves it unchanged |
| CheckAccountBlocks.CheckBlocksFile | fns-tax-mcp/tools/check_account_blocks.py:162-247 | free mode is refused; test mode answers the mock file with "Размер: тестовый файл"; a missing token is refused; otherwise one GET to `nalogbi_file` with a 60 s timeout, an HTTP status error reports the status, a transport failure gives "Не удалось получить файл блокировок счета", and a body gives its base64, its size in bytes in the text and in `size_bytes` |
| CheckAccountBlocks.NoItemsNoData | fns-tax-mcp/tools/check_account_blocks.py:105-137 | a missing or falsy `items` renders "Данные не найдены" |
| CheckAccountBlocks.UlFirst | fns-tax-mcp/tools/check_account_blocks.py:107-111 | when the first item has a ЮЛ record, that record is rendered, whatever else the item holds |
| CheckAccountBlocks.IpOtherwise | fns-tax-mcp/tools/check_account_blocks.py:123-136 | without ЮЛ the ИП record is rendered; with neither only the header remains |
| CheckAccountBlocks.BlockLineListed | fns-tax-mcp/tools/check_account_blocks.py:117-118 | every block of the list has its own line in the text |
| CheckAccountBlocks.BlocksListed | fns-tax-mcp/tools/check_account_blocks.py:112-118 | a non-empty `Негатив` with a non-empty block list renders the "found" line followed by the block lines |
| CheckAccountBlocks.NoBlocksReported | fns-tax-mcp/tools/check_account_blocks.py:112-143 | a missing or empty `Негатив`, or an empty block list, renders "Блокировок счетов не найдено", which `strip()` leaves unchanged |
| SearchCompanies.RenderSearch | fns-tax-mcp/tools/search_companies.py:100-114 | the loop over `items[:5]` builds the reference text `SearchText`: the count line, then each item's ЮЛ or ИП card |
| SearchCompanies.PageOr1 | fns-tax-mcp/tools/search_companies.py:122 | `page or 1`: the page when it is given and non-zero, else 1 |
| SearchCompanies.Search | fns-tax-mcp/tools/search_companies.py:24-131 | any mode but "test" calls the API, with no free-mode gate; test mode answers from the mock; a missing token is refused with no request; the request is one GET to `search` with a 40 s timeout; exceptions map to the status message or "Не удалось выполнить поиск" |
| SearchCompanies.TestSearch | fns-tax-mcp/tools/search_companies.py:44-71 | the test path agrees with `TestResult`: the mock counted with `len(items)` |
| SearchCompanies.ProdSearch | fns-tax-mcp/tools/search_companies.py:100-123 | the API path agrees with `ProdResult`: counted by `Count`, else by `len(items)`, with `page or 1` in meta |
| SearchCompanies.FirstFiveOnly | fns-tax-mcp/tools/search_companies.py:104 | items after the fifth never change the text |
| SearchCompanies.CountLineKept | fns-tax-mcp/tools/search_companies.py:102-120 | the stripped text still begins with "Найдено компаний: " and the count |
| SearchCompanies.TestCountsAll | fns-tax-mcp/tools/search_companies.py:49-70 | in test mode both the count line and `meta.count` report every item, not only the five listed |
| SearchCompanies.TestCountLine | fns-tax-mcp/tools/search_companies.py:49-50 | the test text begins with the number of all items |
| SearchCompanies.TestCountMeta | fns-tax-mcp/tools/search_companies.py:70 | the test meta's `count` is the number of all items |
| SearchCompanies.TestResultOf | fns-tax-mcp/tools/search_companies.py:49-71 | with a list of items, the test result is the stripped text of that list with meta mode, query and count |
| SearchCompanies.ProdCountFallback | fns-tax-mcp/tools/search_companies.py:101-122 | without `Count` the API path reports `len(items)`, and meta's page is `page or 1` |
| SearchCompanies.SearchParamsOptional | fns-tax-mcp/tools/search_companies.py:83-90 | the query starts with q and key; `page` and `filter` are present if and only if they are truthy |
| FnsLookup.ApiFailure | fns-tax-mcp/tools/check_account_blocks.py:148-154 | an HTTP status error becomes "API-ФНС вернула ошибку: <status>", any other exception the tool's generic message, both with code -32603 |
| FnsLookup.Guarded | fns-tax-mcp/tools/check_account_blocks.py:91-154 | a result that did not raise passes through; one that raised becomes an internal-error McpError |
| FnsLookup.StatusReported | fns-tax-mcp/tools/check_account_blocks.py:148-151 | an HTTP status error never turns into the generic message, and its message contains the status digits |
| FnsLookup.ApiGet | fns-tax-mcp/tools/check_account_blocks.py:92-99 | the request is a GET to `https://api-fns.ru/api/<endpoint>` with the given query and no body |
| FnsLookup.AddIfTruthy | fns-tax-mcp/tools/search_companies.py:87-90 | `if value: params[key] = value` appends the pair exactly when the value is truthy |
| FnsLookup.OptStr | fns-tax-mcp/tools/search_companies.py:27-89 | an optional string argument is truthy if and only if it is given and non-empty |
| FnsLookup.OptInt | fns-tax-mcp/tools/search_companies.py:26-87 | an optional integer argument is truthy if and only if it is given and non-zero |
| FnsLookup.Finish | fns-tax-mcp/tools/check_account_blocks.py:142-146 | the tool result carries the stripped text, the payload and the meta, unless rendering raised |
| FnsLookup.ModeMeta | fns-tax-mcp/tools/check_account_blocks.py:145 | meta starts with `mode`, followed by the tool's own keys |
| FnsLookup.After | fns-tax-mcp/tools/monitor_companies.py:55-57 | a rendered part is appended to the text, and an exception while rendering it passes through |
| FnsLookup.AppendAll | fns-tax-mcp/tools/monitor_companies.py:55-57 | the `for item in items: human_text += …` loop appends, in order, the lines of every item to the text, and stops at the first item whose rendering raises |
| FnsLookup.RenderAllStuck | fns-tax-mcp/tools/monitor_companies.py:55-57 | once one item raises, the items after it never change the outcome |
| FnsLookup.RenderAllConcat | fns-tax-mcp/tools/get_accounting_report.py:86-92 | rendering two runs of items gives the two texts side by side |
| FnsLookup.RenderAllPart | fns-tax-mcp/tools/get_accounting_report.py:86-92 | when every item renders, each item's own lines appear in the whole text |
| FnsLookup.RenderAllHead | fns-tax-mcp/tools/get_accounting_report.py:87-89 | when every item renders, the heading line of each item appears in the whole text |
| TrackChanges.PairLinesSnoc | fns-tax-mcp/tools/track_changes.py:124-125 | one more dict entry adds exactly its own `"  - key: value"` line after the earlier ones |
| TrackChanges.AppendPairs | fns-tax-mcp/tools/track_changes.py:124-125 | the loop over a dict's entries appends one line per entry, in order |
| TrackChanges.RenderChanges | fns-tax-mcp/tools/track_changes.py:116-127 | the rendering of `Изменения` agrees with `ChangeList`: a list, a dict only on the `isinstance` branches, else "Изменений не найдено" |
| TrackChanges.RenderRecord | fns-tax-mcp/tools/track_changes.py:113-142 | the rendering of one ЮЛ/ИП record, with its own INN/OGRN keys, agrees with `RecordText` |
| TrackChanges.RenderTrack | fns-tax-mcp/tools/track_changes.py:108-144 | the rendering of the whole payload agrees with `TrackText` |
| TrackChanges.Track | fns-tax-mcp/tools/track_changes.py:23-161 | any mode but "test" calls the API; test mode renders the mock with the ЮЛ branch that has no `isinstance` check; a missing token is refused with no request; one GET to `changes` with a 40 s timeout; exceptions map to the status message or "Не удалось отследить изменения" |
| TrackChanges.FirstTenChanges | fns-tax-mcp/tools/track_changes.py:119 | changes after the tenth never change the text |
| TrackChanges.FirstTenEntries | fns-tax-mcp/tools/track_changes.py:124 | dict entries after the tenth never change the text, and the first ten appear after "История изменений:" |
| TrackChanges.NothingToList | fns-tax-mcp/tools/track_changes.py:126-127 | falsy changes, or on the checked branches changes that are neither a list nor a dict, render "Изменений не найдено" |
| TrackChanges.LenientBranchRejectsDict | fns-tax-mcp/tools/track_changes.py:51-55 | a non-empty dict of changes raises on the test-mode ЮЛ branch, which slices it, and renders on the checked branches (also lines 121-125) |
| TrackChanges.NoItemsNoData | fns-tax-mcp/tools/track_changes.py:108-144 | a missing or falsy `items` renders "Данные не найдены" |
| TrackChanges.DatOptional | fns-tax-mcp/tools/track_changes.py:98-152 | the query holds `dat` if and only if it is given and non-empty, and meta always reports `dat`, `None` included |
| MonitorCompanies.RenderMonitor | fns-tax-mcp/tools/monitor_companies.py:110-127 | the per-command rendering agrees with `MonitorText`: `list` counts all items and lists ten, `add` and `chd` list every item, any other command only reports that it ran |
| MonitorCompanies.Monitor | fns-tax-mcp/tools/monitor_companies.py:23-144 | any mode but "test" calls the API; test mode takes the mock payload of the command (an empty item list for other commands); a missing token is refused with no request; one GET to `mon` with a 40 s timeout; exceptions map to the status message or "Не удалось выполнить команду мониторинга" |
| MonitorCompanies.ListShowsTen | fns-tax-mcp/tools/monitor_companies.py:112-114 | `list` counts every item but only the first ten have lines |
| MonitorCompanies.OtherCommand | fns-tax-mcp/tools/monitor_companies.py:66-68 | a command that is neither `list`, `add` nor `chd` renders "Команда <cmd> выполнена", and in test mode answers `{"items": []}` (also lines 126-127) |
| MonitorCompanies.ChdHeader | fns-tax-mcp/tools/monitor_companies.py:120-125 | `chd` heads its lines with the date, or with "N/A" when `dat` is missing or empty |
| MonitorCompanies.MonitorParamsOptional | fns-tax-mcp/tools/monitor_companies.py:88-101 | the query starts with cmd and key; then come req, dat, year, type and page, in that order, each present if and only if it is truthy |
| MultcheckCompanies.RenderMultcheck | fns-tax-mcp/tools/multcheck_companies.py:94-116 | the loop over every item agrees with `MultcheckText`: the count line and one card per ЮЛ or ИП item, replaced by "Проблемных компаний не найдено" when there are no items |
| MultcheckCompanies.Render | fns-tax-mcp/tools/multcheck_companies.py:94-125 | the result of one mode agrees with `Outcome`: the stripped text, the payload and meta with mode, req and count |
| MultcheckCompanies.Multcheck | fns-tax-mcp/tools/multcheck_companies.py:22-133 | any mode but "test" calls the API; test mode answers from the mock; a missing token is refused with no request; one GET to `multcheck` with req and key and a 40 s timeout; exceptions map to the status message or "Не удалось проверить группу компаний" |
| MultcheckCompanies.AllItemsListed | fns-tax-mcp/tools/multcheck_companies.py:95-113 | a non-empty list is counted and every item rendered, with no cut-off |
| MultcheckCompanies.MultcheckOfList | fns-tax-mcp/tools/multcheck_companies.py:95-113 | a non-empty list renders the count line followed by the items' cards, or the exception a card raises |
| MultcheckCompanies.NoItemsNoProblems | fns-tax-mcp/tools/multcheck_companies.py:115-116 | an empty list, dict or string of items renders "Проблемных компаний не найдено" |
| MultcheckCompanies.ClosingDateLine | fns-tax-mcp/tools/multcheck_companies.py:103-105 | a card has the "Дата прекращения" line if and only if the record holds `ДатаПрекр` |
| MultcheckCompanies.CardOfObject | fns-tax-mcp/tools/multcheck_companies.py:100-105 | a dict record always renders, with the closing-date line only when `ДатаПрекр` is present, then a blank line |
| MultcheckCompanies.CountIsLength | fns-tax-mcp/tools/multcheck_companies.py:124 | meta's `count` is the length of the item list |
| GetAccountingReport.CodeLinesSnoc | fns-tax-mcp/tools/get_accounting_report.py:90-91 | one more code adds exactly its own "Строка" line after the earlier ones |
| GetAccountingReport.AppendCodes | fns-tax-mcp/tools/get_accounting_report.py:90-91 | the innermost loop appends one "Строка <code>: <value> тыс. руб." line per code, in order |
| GetAccountingReport.RenderYear | fns-tax-mcp/tools/get_accounting_report.py:88-92 | one year renders its heading, its first five codes and a blank line, or the exception `.items()` raises on a non-dict, as `YearText` states |
| GetAccountingReport.RenderCompany | fns-tax-mcp/tools/get_accounting_report.py:86-92 | the middle loop renders the INN/OGRN heading and then every year, stopping at the first year that raises, as `CompanyText` states |
| GetAccountingReport.RenderReport | fns-tax-mcp/tools/get_accounting_report.py:83-92 | the outer loop renders the header and then every INN/OGRN of the reply, as `ReportText` states |
| GetAccountingReport.Report | fns-tax-mcp/tools/get_accounting_report.py:24-109 | test mode renders the mock; a missing token is refused with no request; one GET to `bo` with req and key and a 40 s timeout; exceptions map to the status message or "Не удалось получить бухгалтерскую отчетность" |
| GetAccountingReport.FileTextStripped | fns-tax-mcp/tools/get_accounting_report.py:148-194 | the file summary has no whitespace at either end, so `strip()` leaves it unchanged |
| GetAccountingReport.FileSummary | fns-tax-mcp/tools/get_accounting_report.py:139-189 | the four `+=` lines followed by `strip()` give the file summary exactly |
| GetAccountingReport.ReportFile | fns-tax-mcp/tools/get_accounting_report.py:117-211 | test mode answers the mock file with "Размер: тестовый файл"; a missing token is refused; one GET to `bo_file` with a 60 s timeout; an HTTP status error reports the status, a transport failure gives "Не удалось получить файл отчетности", and a body gives its base64 and its size in the text and in `size_bytes` |
| GetAccountingReport.FirstFiveCodes | fns-tax-mcp/tools/get_accounting_report.py:90 | codes after the fifth of a year never change the text |
| GetAccountingReport.CompanyListed | fns-tax-mcp/tools/get_accounting_report.py:86-87 | every INN/OGRN of a reply that renders has its heading in the text |
| GetAccountingReport.YearListed | fns-tax-mcp/tools/get_accounting_report.py:88-89 | every year of an INN/OGRN that renders has its heading in the text |
| GetAccountingReport.NotADict | fns-tax-mcp/tools/get_accounting_report.py:86-109 | a reply or a company entry that is not a dict makes `.items()` raise, which the API path reports as "Не удалось получить бухгалтерскую отчетность" |
| GetAccountingReport.EmptyReport | fns-tax-mcp/tools/get_accounting_report.py:83-86 | an empty reply renders only the header |
| GetAccountingReport.ZipIffXls | fns-tax-mcp/tools/get_accounting_report.py:138-141 | the file type is "zip" exactly when `xls` is true, else "pdf", shown upper-cased |
| GetAccountingReport.XlsParam | fns-tax-mcp/tools/get_accounting_report.py:167-173 | the query starts with req, year and key, and holds `xls=1` if and only if `xls` is true |
| GetInnByPassport.RenderFound | fns-tax-mcp/tools/get_inn_by_passport.py:97-101 | the five `+=` lines build the "ИНН найден" text with the name, birth date, document as given and INN |
| GetInnByPassport.RenderPassport | fns-tax-mcp/tools/get_inn_by_passport.py:94-105 | the rendering agrees with `PassportText`: the INN of the first item, else its error, else "ИНН не найден" |
| GetInnByPassport.InnByPassport | fns-tax-mcp/tools/get_inn_by_passport.py:23-122 | test mode renders the mock; a missing token is refused with no request; one GET to `innfl` with a 40 s timeout; exceptions map to the status message or "Не удалось найти ИНН" |
| GetInnByPassport.DocnoNormalised | fns-tax-mcp/tools/get_inn_by_passport.py:82-100 | the query's document number has every space removed, while the text shows it as given |
| GetInnByPassport.DoctypeDefault | fns-tax-mcp/tools/get_inn_by_passport.py:29-83 | `doctype or "21"`: a missing or empty document type is sent as "21" |
| GetInnByPassport.InnFirst | fns-tax-mcp/tools/get_inn_by_passport.py:95-101 | when the first item holds an INN, the text reports it |
| GetInnByPassport.ErrorSecond | fns-tax-mcp/tools/get_inn_by_passport.py:102-103 | without an INN, an `error` in the first item is reported as "Ошибка: <error>" |
| GetInnByPassport.NoItemsNotFound | fns-tax-mcp/tools/get_inn_by_passport.py:94-105 | a missing or falsy `items` renders "ИНН не найден" |
| GetInnByPassport.NeitherKeyNotFound | fns-tax-mcp/tools/get_inn_by_passport.py:104-105 | a first item with neither `ИНН` nor `error` renders "ИНН не найден" |
| BankUtils.FormatError | bank-statement-mcp/tools/utils.py:31-46 | the error is an McpError with the given code and message |
| BankUtils.Missing | bank-statement-mcp/tools/utils.py:64 | the missing list holds exactly the names that are unset or empty, and nothing else |
| BankUtils.RequireEnvVars | bank-statement-mcp/tools/utils.py:49-70 | succeeds if and only if nothing is missing; otherwise raises -32602 listing the missing names joined by ", " |
| BankUtils.RequiredValues | bank-statement-mcp/tools/utils.py:70 | on success the map has exactly the requested names, each with its non-empty value |
| BankUtils.MissingReported | bank-statement-mcp/tools/utils.py:64-69 | any one unset name makes the call fail with -32602 and appears in the missing list |
| BankUtils.MissingInOrder | bank-statement-mcp/tools/utils.py:64 | the missing names keep the order in which they were requested |
| BankUtils.OneMissing | bank-statement-mcp/tools/utils.py:64-69 | a single unset name gives exactly "Отсутствуют обязательные переменные окружения: <name>" |
| BankMocks.Operation | bank-statement-mcp/tools/mocks.py:10-29 | an operation has the seven keys in order, with the given id, date, amount, account and balance, `None` when absent |
| BankMocks.TwoOperations | bank-statement-mcp/tools/mocks.py:40-98 | every provider gets two operations on the given account: a credit dated on the start date and a debit dated on the end date |
| BankMocks.OperationIds | bank-statement-mcp/tools/mocks.py:40-98 | operation ids carry the provider's prefix (tb-, mb-, alfa-), and only T-Bank's operations carry a balance |
| BankMocks.AccountEverywhere | bank-statement-mcp/tools/mocks.py:38-104 | a missing or empty account id becomes "test-account-001", which is both the top-level `accountId` and every operation's |
| BankMocks.MockHeader | bank-statement-mcp/tools/mocks.py:39-108 | the payload names the provider, the period, the test mode and the range "from..to" |
| BankMocks.OnlyClockVaries | bank-statement-mcp/tools/mocks.py:100-108 | two payloads for the same arguments differ at most in `generatedAt` |
| BankStatement.ResolveProvider | bank-statement-mcp/tools/get_bank_statement.py:66-70 | the explicit provider, else `BANK_PROVIDER`, lower-cased, is accepted if and only if it names one of tbank, modulbank, alfa; otherwise -32602 with the "Укажите BANK_PROVIDER" message |
| BankStatement.NormalizedAccount | bank-statement-mcp/tools/get_bank_statement.py:86 | an account id is kept only when it is a string that is not blank after `strip()` |
| BankStatement.Prepare | bank-statement-mcp/tools/get_bank_statement.py:66-93 | every validation failure is a -32602 error; on success the mode and the normalised account are recorded, and Modulbank always has an account |
| BankStatement.OpEntry | bank-statement-mcp/tools/get_bank_statement.py:308-329 | an operation counts as a credit if and only if its `typeOfOperation` is "Credit"; a non-dict operation raises |
| BankStatement.Rows | bank-statement-mcp/tools/get_bank_statement.py:329 | one line per operation, in order |
| BankStatement.EntriesStuck | bank-statement-mcp/tools/get_bank_statement.py:307 | once an operation raises, the operations after it never change the outcome |
| BankStatement.EntriesFail | bank-statement-mcp/tools/get_bank_statement.py:307-319 | the first operation that raises decides the error |
| BankStatement.EntriesSnoc | bank-statement-mcp/tools/get_bank_statement.py:322-329 | one more operation adds its line and adds its amount to exactly one of the two totals |
| BankStatement.AppendRows | bank-statement-mcp/tools/get_bank_statement.py:304-329 | the loop over the operations yields every line and the credit and debit totals of the reference `Entries`, or the first exception |
| BankStatement.FormatTbankStatement | bank-statement-mcp/tools/get_bank_statement.py:280-337 | the method builds the reference text `StatementText`: head lines, a table or "Операций не найдено", then the turnover lines joined by newlines |
| BankStatement.MainOperations | bank-statement-mcp/tools/get_bank_statement.py:189-194 | the first truthy of `operations`, `transactions` and `items`, else `operations` or `[]`; a non-dict body raises |
| BankStatement.ModulbankOperations | bank-statement-mcp/tools/get_bank_statement.py:271-274 | a list body is the operations as it is |
| BankStatement.MapError | bank-statement-mcp/tools/get_bank_statement.py:218-227 | an McpError passes through, an HTTP status error becomes "Банк вернул ошибку <status>", anything else "Не удалось получить выписку", all -32603 except the passed-through McpError |
| BankStatement.UpstreamOutcome | bank-statement-mcp/tools/get_bank_statement.py:164-227 | an upstream call that succeeds passes through; one that raises becomes an internal-error McpError |
| BankStatement.GetBankStatement | bank-statement-mcp/tools/get_bank_statement.py:41-227 | validation errors come before any request; test mode for T-Bank uses the sandbox, for Alfa the local mock, and every other case calls the bank, each with the request the source issues |
| BankStatement.ExplicitProviderWins | bank-statement-mcp/tools/get_bank_statement.py:66-67 | a non-empty `bank_provider` overrides `BANK_PROVIDER`; an empty one falls back to it |
| BankStatement.TokenVars | bank-statement-mcp/tools/get_bank_statement.py:73 | the token variables are T_BANK_TOKEN, MODULBANK_TOKEN and ALFA_TOKEN |
| BankStatement.UnknownProviderRejected | bank-statement-mcp/tools/get_bank_statement.py:69-70 | an unknown provider is refused before anything else |
| BankStatement.ProviderErrorNamesVariable | bank-statement-mcp/tools/get_bank_statement.py:70 | the provider error names `BANK_PROVIDER` |
| BankStatement.CredentialGate | bank-statement-mcp/tools/get_bank_statement.py:80-82 | outside the Modulbank sandbox a missing token variable is refused with its name |
| BankStatement.ModulbankSandboxGate | bank-statement-mcp/tools/get_bank_statement.py:74-178 | Modulbank in test mode needs no token variable, uses `MODULBANK_SANDBOX_TOKEN` or "sandboxtoken", and is sent to the bank |
| BankStatement.ModulbankNeedsAccount | bank-statement-mcp/tools/get_bank_statement.py:88-93 | Modulbank without a non-blank account is refused with "Для Модульбанка нужно указать account_id" |
| BankStatement.RouteTable | bank-statement-mcp/tools/get_bank_statement.py:105-194 | the sandbox route is exactly test-mode T-Bank, the mock route exactly test-mode Alfa, and the bank is called otherwise |
| BankStatement.MockMetaMode | bank-statement-mcp/tools/get_bank_statement.py:148 | the mock answer's meta reports mode "test" |
| BankStatement.SandboxMetaMode | bank-statement-mcp/tools/get_bank_statement.py:128 | the T-Bank sandbox answer's meta reports mode "sandbox" |
| BankStatement.UpstreamMetaMode | bank-statement-mcp/tools/get_bank_statement.py:212 | the bank's answer reports "sandbox" for test-mode Modulbank and the mode otherwise |
| BankStatement.MockCount | bank-statement-mcp/tools/get_bank_statement.py:132-149 | the mock answer counts its two operations and carries the mock payload |
| BankStatement.SandboxNeedsAccount | bank-statement-mcp/tools/get_bank_statement.py:354-355 | the T-Bank sandbox without an account is refused with -32602 |
| BankStatement.AuthHeader | bank-statement-mcp/tools/get_bank_statement.py:151-153 | Alfa authenticates with `X-API-Key`, the others with a Bearer token |
| BankStatement.AccountParam | bank-statement-mcp/tools/get_bank_statement.py:180-182 | the query starts with from and to, and holds `accountId` if and only if an account is given |
| BankStatement.SandboxShape | bank-statement-mcp/tools/get_bank_statement.py:357-363 | with no sandbox token set, the request carries "Bearer TBankSandboxToken", the account number and the day-bounded timestamps |
| BankStatement.ModulbankSandboxShape | bank-statement-mcp/tools/get_bank_statement.py:250-267 | the sandbox request is a POST to `/operation-history/<account>` with the default sandbox headers and `{"records": 50, "skip": 0}` |
| BankStatement.ModulbankProdShape | bank-statement-mcp/tools/get_bank_statement.py:251-262 | outside test mode Modulbank gets the Bearer token and a from/till body bounded by the days |
| BankStatement.MainOperationsFallback | bank-statement-mcp/tools/get_bank_statement.py:189-194 | when none of the three keys is truthy, the result is `operations` itself, or `[]` if it is missing |
| BankStatement.ModulbankSelection | bank-statement-mcp/tools/get_bank_statement.py:274 | a dict body gives the first truthy of `operations` and `transactions`, else `[]` |
| BankStatement.UpstreamErrors | bank-statement-mcp/tools/get_bank_statement.py:220-227 | a bank status error reports "Банк вернул ошибку <status>", a transport failure "Не удалось получить выписку" |
| BankStatement.SandboxErrorsUnmapped | bank-statement-mcp/tools/get_bank_statement.py:105-111 | a T-Bank sandbox status error leaves the tool unmapped, outside the `try` (also lines 368-369) |
| BankStatement.EmptyStatement | bank-statement-mcp/tools/get_bank_statement.py:298-300 | no operations gives the head lines and "Операций не найдено" |
| BankStatement.EntryPerOperation | bank-statement-mcp/tools/get_bank_statement.py:307-329 | every operation has exactly one entry, in order |
| BankStatement.TotalsPartition | bank-statement-mcp/tools/get_bank_statement.py:322-327 | the credit and debit totals together cover every amount exactly once |
| BankStatement.CreditsOnly | bank-statement-mcp/tools/get_bank_statement.py:322-335 | with only credits the debit total is zero and only the "+" turnover line is shown |
| BankStatement.TotalLinesShown | bank-statement-mcp/tools/get_bank_statement.py:332-335 | a turnover line appears for each positive total, credit first |
| ArbitrConfig.NormalizeMode | kadarbitrmcp/config.py:23-25 | the mode is "test" or "prod", and "prod" exactly when the lower-cased variable says so |
| ArbitrConfig.StripTrailingSlashes | kadarbitrmcp/config.py:28 | `rstrip("/")` keeps a prefix of the input that does not end in "/", and removes only slashes |
| ArbitrConfig.FloatArg | kadarbitrmcp/config.py:29 | `float(...)` succeeds exactly when the text parses, with the parsed value |
| ArbitrConfig.IntArg | kadarbitrmcp/config.py:31 | `int(...)` succeeds exactly when the text parses, with the parsed value |
| ArbitrConfig.FromEnvSucceeds | kadarbitrmcp/config.py:22-49 | the settings load if and only if the timeout and port parse and prod mode has an API key |
| ArbitrConfig.ProdNeedsKey | kadarbitrmcp/config.py:36-37 | prod mode without `ARBITR_API_KEY` raises the ValueError "ARBITR_API_KEY is required in prod mode", and loaded prod settings always have a key |
| ArbitrConfig.ModeCoerced | kadarbitrmcp/config.py:23-25 | loaded settings have mode "test" or "prod", and "prod" exactly when `ARBITR_MODE` says so in any case |
| ArbitrConfig.BaseUrlNormalised | kadarbitrmcp/config.py:28 | the base URL is the variable, or its default, with its trailing slashes removed |
| ArbitrConfig.Defaults | kadarbitrmcp/config.py:23-49 | an empty environment gives test mode, the default base URL, a 15 s timeout, 0.0.0.0:8080, no OTel endpoint, service "mcp-arbitr-api" and metrics on |
| ArbitrConfig.MetricsSwitch | kadarbitrmcp/config.py:34 | metrics are off exactly for "0", "false" and "no" in any case |
| ArbitrConfig.SettingsCache.constructor | kadarbitrmcp/config.py:52 | the cache starts empty |
| ArbitrConfig.SettingsCache.Get | kadarbitrmcp/config.py:52-54 | a cached value is returned unchanged; otherwise the settings are loaded and cached only when loading succeeds |
| ArbitrConfig.SettingsCache.Reload | kadarbitrmcp/config.py:57-59 | the cache is cleared and the settings loaded afresh from the current environment |
| ArbitrClient.Put | kadarbitrmcp/tools/arbitr_client.py:29 | a dict assignment overwrites an existing key in place and appends a new one at the end |
| ArbitrClient.PutLookup | kadarbitrmcp/tools/arbitr_client.py:29 | after the assignment the key holds the new value and every other key its old one |
| ArbitrClient.Present | kadarbitrmcp/tools/arbitr_client.py:29 | only parameters that are not `None` are kept |
| ArbitrClient.PresentExactly | kadarbitrmcp/tools/arbitr_client.py:29 | a parameter is kept if and only if its value is not `None` |
| ArbitrClient.PresentKeys | kadarbitrmcp/tools/arbitr_client.py:29 | the filter adds no key of its own |
| ArbitrClient.BuildQuery | kadarbitrmcp/tools/arbitr_client.py:28-29 | the `query.update` loop builds the reference query `Query` |
| ArbitrClient.QueryShape | kadarbitrmcp/tools/arbitr_client.py:28-29 | with distinct keys other than `key`, the query is `key` followed by the non-`None` parameters in order |
| ArbitrClient.QueryStartsWithKey | kadarbitrmcp/tools/arbitr_client.py:28-29 | the query starts with the API key, and the rest holds exactly the non-`None` parameters |
| ArbitrClient.ApiRequest | kadarbitrmcp/tools/arbitr_client.py:31-34 | the request is a GET to `<base_url>/<path>` with the query |
| ArbitrClient.Rejection | kadarbitrmcp/tools/arbitr_client.py:36-42 | a 400 or 403 answer raises ArbitrApiError carrying that status |
| ArbitrClient.Accept | kadarbitrmcp/tools/arbitr_client.py:47-53 | a body is accepted only when it is a dict with `Success` equal to 1; the other errors carry no status |
| ArbitrClient.Classify | kadarbitrmcp/tools/arbitr_client.py:36-53 | an accepted answer has `Success == 1`; an error with a status comes from a 400 or 403 answer |
| ArbitrClient.Outcome | kadarbitrmcp/tools/arbitr_client.py:24-53 | prod mode without a key raises "ARBITR_API_KEY is required for prod mode" before any request; otherwise the answer is classified |
| ArbitrClient.Fetch | kadarbitrmcp/tools/arbitr_client.py:24-53 | a request is issued if and only if the key check passes, and it is the GET of `ApiRequest` with the built query |
| ArbitrClient.SearchCases | kadarbitrmcp/tools/arbitr_client.py:55-56 | the search goes to `search` with the given parameters |
| ArbitrClient.DetailsByNumber | kadarbitrmcp/tools/arbitr_client.py:58-59 | the request goes to `details_by_number` with `CaseNumber` |
| ArbitrClient.DetailsById | kadarbitrmcp/tools/arbitr_client.py:61-62 | the request goes to `details_by_id` with `CaseId` |
| ArbitrClient.DownloadPdf | kadarbitrmcp/tools/arbitr_client.py:64-65 | the request goes to `pdf_download` with `url` |
| ArbitrClient.Rejected | kadarbitrmcp/tools/arbitr_client.py:36-42 | a 400 or 403 answer raises with the payload's `error`, or "Request validation or auth error", and its `error_code` |
| ArbitrClient.SuccessFirst | kadarbitrmcp/tools/arbitr_client.py:47-48 | a successful answer with `Success` 1 is returned as it is |
| ArbitrClient.ErrorPayload | kadarbitrmcp/tools/arbitr_client.py:50-51 | a successful answer without `Success == 1` that has `error` raises with that error and its code, with no status |
| ArbitrClient.UnexpectedShape | kadarbitrmcp/tools/arbitr_client.py:53 | any other successful answer raises "Unexpected API response format" |
| ArbitrClient.OtherStatus | kadarbitrmcp/tools/arbitr_client.py:44 | any other failing status raises the HTTP status error |
| ArbitrClient.InvalidKeyRejected | kadarbitrmcp/test/test_arbitr_api.py:96-111 | a 403 "Invalid access key" answer with code 40301 raises with that message, status and code |
| ArbitrStubs.StubsSucceed | kadarbitrmcp/tools/arbitr_stubs.py:8-143 | every stub reports `Success` 1 |
| ArbitrStubs.SearchStubShape | kadarbitrmcp/tools/arbitr_stubs.py:6-29 | the search stub holds one case and one page |
| ArbitrApi.Notify | kadarbitrmcp/tools/arbitr_api.py:26-39 | a notice is delivered only when there is a context and it does not fail; a failing notice is swallowed |
| ArbitrApi.Delivered | kadarbitrmcp/tools/arbitr_api.py:63-95 | without a context nothing is sent; otherwise the start message and the 5 % progress, then 100 % only on success |
| ArbitrApi.ToolFailure | kadarbitrmcp/tools/arbitr_api.py:103-108 | every failure is a -32603 McpError: an ArbitrApiError keeps its message, anything else gets the tool's prefix and the exception text |
| ArbitrApi.Mapped | kadarbitrmcp/tools/arbitr_api.py:66-108 | a result passes through, and an exception is mapped by `ToolFailure` |
| ArbitrApi.Fetched | kadarbitrmcp/tools/arbitr_api.py:71-83 | test mode takes the stub and any other mode the client's answer |
| ArbitrApi.Finished | kadarbitrmcp/tools/arbitr_api.py:66-108 | a failed fetch and a failed rendering both become internal-error McpErrors |
| ArbitrApi.SearchParams | kadarbitrmcp/tools/arbitr_api.py:75-83 | the search passes page, Inn, InnType, DateFrom, DateTo, Court and CaseType, in that order |
| ArbitrApi.CaseLine | kadarbitrmcp/tools/arbitr_api.py:93 | a case renders exactly when it is a dict; `case.get` raises otherwise |
| ArbitrApi.SearchLines | kadarbitrmcp/tools/arbitr_api.py:85-93 | the summary starts with "Найдено дел: <number of cases>" |
| ArbitrApi.SearchResult | kadarbitrmcp/tools/arbitr_api.py:85-102 | the search result exists exactly when its summary renders |
| ArbitrApi.AppendCaseLines | kadarbitrmcp/tools/arbitr_api.py:92-93 | the loop over `cases[:5]` appends one line per case, or raises at the first case that is not a dict |
| ArbitrApi.Summary | kadarbitrmcp/tools/arbitr_api.py:85-93 | the summary built step by step agrees with `SearchLines` |
| ArbitrApi.SearchCases | kadarbitrmcp/tools/arbitr_api.py:46-110 | the tool's result agrees with `SearchOutcome`; test mode sends no request; otherwise a request goes out if and only if the key check passes, to `search` with the seven arguments; the notices are those of `Delivered` |
| ArbitrApi.Conclude | kadarbitrmcp/tools/arbitr_api.py:95-108 | the final notice, 100 %, is sent only on success |
| ArbitrApi.FirstField | kadarbitrmcp/tools/arbitr_api.py:143-144 | without cases the title and status fall back to the argument and "—" |
| ArbitrApi.InstanceCount | kadarbitrmcp/tools/arbitr_api.py:146 | without cases the instance count is 0 |
| ArbitrApi.WithText | kadarbitrmcp/tools/arbitr_api.py:151-155 | a rendered text becomes the result with the payload and meta, and a rendering exception passes through |
| ArbitrApi.DetailsByNumber | kadarbitrmcp/tools/arbitr_api.py:117-163 | the result agrees with `NumberOutcome`; the only request goes to `details_by_number` with `CaseNumber`, and only outside test mode when the key check passes |
| ArbitrApi.DetailsById | kadarbitrmcp/tools/arbitr_api.py:170-216 | the result agrees with `IdOutcome`; the only request goes to `details_by_id` with `CaseId`, and only outside test mode when the key check passes |
| ArbitrApi.DownloadPdf | kadarbitrmcp/tools/arbitr_api.py:223-267 | the result agrees with `PdfOutcome`; the only request goes to `pdf_download` with `url`, and only outside test mode when the key check passes |
| ArbitrApi.LinesStuck | kadarbitrmcp/tools/arbitr_api.py:92-93 | the first case that raises decides the error |
| ArbitrApi.LinesPrefixStuck | kadarbitrmcp/tools/arbitr_api.py:92-93 | once a case raises, later cases never change the outcome |
| ArbitrApi.LinesShape | kadarbitrmcp/tools/arbitr_api.py:92-93 | a rendered list has exactly one line per case, each that case's own line |
| ArbitrApi.LinesOk | kadarbitrmcp/tools/arbitr_api.py:92-93 | the lines render if and only if every case renders |
| ArbitrApi.CaseLinesOk | kadarbitrmcp/tools/arbitr_api.py:92-93 | the case lines render if and only if every listed case is a dict |
| ArbitrApi.Shown | kadarbitrmcp/tools/arbitr_api.py:92 | `cases[:5]` is the first five cases, or all of them when there are fewer |
| ArbitrApi.SearchLinesOfList | kadarbitrmcp/tools/arbitr_api.py:85-93 | a list of cases gives the count line, the pages line only for a truthy `PagesCount`, then the lines of the first five cases |
| ArbitrApi.SearchSummaryHead | kadarbitrmcp/tools/arbitr_api.py:88-90 | the first line counts every case and the second reports the pages when they are truthy |
| ArbitrApi.SearchSummaryCases | kadarbitrmcp/tools/arbitr_api.py:88-93 | after the head lines come at most five lines, the i-th for the i-th case |
| ArbitrApi.SearchTail | kadarbitrmcp/tools/arbitr_api.py:92-93 | the lines after the head are exactly the case lines |
| ArbitrApi.ShownLines | kadarbitrmcp/tools/arbitr_api.py:92-93 | there is one case line for each of the first five cases, in order |
| ArbitrApi.NotADict | kadarbitrmcp/tools/arbitr_api.py:85-102 | a payload that is not a dict counts no cases and no pages |
| ArbitrApi.NumberFallback | kadarbitrmcp/tools/arbitr_api.py:142-146 | without cases the text names the requested number, status "—" and 0 instances |
| ArbitrApi.IdFallback | kadarbitrmcp/tools/arbitr_api.py:195-199 | without cases the text names the requested id as title, status "—", and the id |
| ArbitrApi.IdTextEnds | kadarbitrmcp/tools/arbitr_api.py:199 | the text always ends with "ID: <requested id>" |
| ArbitrApi.PdfMeta | kadarbitrmcp/tools/arbitr_api.py:248-258 | `has_pdf` is true exactly when the content is truthy, the text is "PDF не найден" exactly when it is not, and the length is that of the content |
| ArbitrApi.SearchInternalErrors | kadarbitrmcp/tools/arbitr_api.py:103-108 | every search failure has code -32603 |
| ArbitrApi.DetailsInternalErrors | kadarbitrmcp/tools/arbitr_api.py:156-214 | every failure of the two detail tools has code -32603 |
| ArbitrApi.PdfInternalErrors | kadarbitrmcp/tools/arbitr_api.py:260-265 | every download failure has code -32603 |
| ArbitrApi.ApiErrorsPassThrough | kadarbitrmcp/tools/arbitr_api.py:103-105 | an ArbitrApiError reaches the caller with its own message and no prefix (also the same clause of the other three tools, up to lines 260-262) |
| ArbitrApi.ProdWithoutKey | kadarbitrmcp/tools/arbitr_api.py:103-105 | prod mode without a key fails with "ARBITR_API_KEY is required for prod mode" |
| ArbitrApi.OtherFailuresPrefixed | kadarbitrmcp/tools/arbitr_api.py:106-108 | a transport failure is reported with the tool's "Failed to …" prefix (also the same clause of the other three tools, up to lines 263-265) |
| ArbitrApi.CaseLineOf | kadarbitrmcp/tools/arbitr_api.py:93 | a case renders as "№ <number> — <court> (<type>)" |
| ArbitrApi.OneCaseLines | kadarbitrmcp/tools/arbitr_api.py:88-93 | one case on one page gives the count line, the pages line and the case's line |
| ArbitrApi.SearchStubLine | kadarbitrmcp/tools/arbitr_api.py:93 | the stub's case renders as its number, court and type |
| ArbitrApi.TestSearch | kadarbitrmcp/tools/arbitr_api.py:71-102 | test mode answers the three stub lines, the stub itself, and meta with one page and one case |
| ArbitrApi.FirstCaseTexts | kadarbitrmcp/tools/arbitr_api.py:143-199 | with cases, both detail texts take the first case's number and state, and the number text counts its instances |
| ArbitrApi.DetailsStubFirst | kadarbitrmcp/tools/arbitr_stubs.py:32-112 | the details stub's only case has the fixed number, state and one instance |
| ArbitrApi.DetailsStubNumberText | kadarbitrmcp/tools/arbitr_api.py:143-146 | the stub renders "Дело А71-1202/2015", its state and one instance |
| ArbitrApi.DetailsStubIdText | kadarbitrmcp/tools/arbitr_api.py:196-199 | the stub renders by id with that number and state and the requested id |
| ArbitrApi.TestDetailsByNumber | kadarbitrmcp/tools/arbitr_api.py:136-155 | test mode answers the stub's text, the stub, and meta with the requested case number |
| ArbitrApi.TestDetailsById | kadarbitrmcp/tools/arbitr_api.py:189-208 | test mode answers the stub's text by id, the stub, and meta with the requested case id |
| ArbitrApi.PdfFound | kadarbitrmcp/tools/arbitr_api.py:248-258 | non-empty content is reported with its length, `has_pdf` true |
| ArbitrApi.TestPdf | kadarbitrmcp/tools/arbitr_api.py:242-258 | test mode reports the stub PDF as found, with its length |
| ArbitrStubs.DetailsStubsAgree | kadarbitrmcp/tools/arbitr_stubs.py:115-116 | the stub by id is the stub by number, one fixed case |
| ArbitrStubs.PdfStubDecodes | kadarbitrmcp/tools/arbitr_stubs.py:119-143 | the PDF stub's content is non-empty and base64-decodes back to the PDF's bytes |
| ArbitrStubs.PdfSignature | kadarbitrmcp/tools/arbitr_stubs.py:121 | the stub's bytes open with the "%PDF-" signature |
| A2aText.WalkTexts | ui_app.py:107-119 | the recursive walk returns exactly the reference `Walk`: nothing past depth 6, a dict's own text part first, then its values, then a list's items, in order |
| A2aText.WalkChildren | ui_app.py:114-118 | the loop over a node's values or items concatenates their walks, in order |
| A2aText.WalkFindsText | ui_app.py:107-119 | every text part reachable within depth 6 is collected |
| A2aText.WalkTextSource | ui_app.py:107-119 | every collected text is a text part reachable within depth 6 |
| A2aText.WalkCollects | ui_app.py:107-119 | a text is collected if and only if some path of at most six steps leads to a dict with kind "text" and that string text |
| A2aText.DictTextFirst | ui_app.py:112-115 | a dict's own text comes before anything found among its values |
| A2aText.NonBlankKeeps | ui_app.py:124-129 | the filter keeps exactly the texts that are not blank after `strip()` |
| A2aText.ExtractText | ui_app.py:104-140 | the extraction agrees with `Extracted`: artifact texts, else history texts, else `result.text`, else the first non-blank string value, else "" |
| A2aText.FirstNonBlankValue | ui_app.py:135-138 | the loop over `result.values()` returns the first non-blank string, stripped, or "" |
| A2aText.ExtractRaises | ui_app.py:121 | the extraction raises if and only if the response or its `result` is not a dict |
| A2aText.ArtifactsFirst | ui_app.py:121-124 | when the artifacts hold any text part, their non-blank texts joined by blank lines are the answer |
| A2aText.BlankArtifactsFinal | ui_app.py:122-124 | artifacts whose texts are all blank still decide the answer, which is then "" |
| A2aText.NonBlankOfBlanks | ui_app.py:124 | blank texts are all filtered out |
| A2aText.HistorySecond | ui_app.py:126-129 | without artifact texts, history texts give the answer |
| A2aText.TextThird | ui_app.py:131-133 | without any text parts, a non-blank `result.text` gives the answer, stripped |
| A2aText.FirstNonBlankAt | ui_app.py:136-138 | the first non-blank string value wins, stripped |
| A2aText.FirstNonBlankNone | ui_app.py:136-140 | with no non-blank string value the loop gives "" |
| A2aText.ValueFourth | ui_app.py:135-138 | otherwise the first non-blank string value of `result` gives the answer, stripped |
| A2aText.NothingFound | ui_app.py:140 | with nothing to show the answer is "" |
| A2aText.ExtractStripped | ui_app.py:124-138 | every answer has no whitespace at either end |
| A2aText.FirstNonBlankStripped | ui_app.py:138 | the value fallback is stripped |
| A2aText.JoinStrs | ui_app.py:184-187 | `str.join` succeeds if and only if every element is a string, and then joins them |
| A2aText.PartTextsEmpty | ui_app.py:156-160 | no text is collected from the parts if and only if no part is a dict with kind "text" and a truthy text |
| A2aText.ArtifactTextsEmpty | ui_app.py:152-160 | no artifact text is collected if and only if no artifact has such a part |
| A2aText.RoleLabel | ui_app.py:168-178 | an entry's label is its role, or "message" when the role is missing or falsy |
| A2aText.EntryLineShown | ui_app.py:177-178 | a history entry gets a line if and only if it has a text part |
| A2aText.HistoryLineCount | ui_app.py:164-178 | there is one history line per entry that has text |
| A2aText.EntriesWithTextZero | ui_app.py:164-178 | no history lines if and only if no entry has text |
| A2aText.EntryLineShape | ui_app.py:178 | an entry's line is "<role or message>: " followed by its texts joined by " / " |
| A2aText.HistoryFails | ui_app.py:165-178 | an entry that raises ends the summary with that error, whatever follows |
| A2aText.StatusLineShape | ui_app.py:181 | the status line starts with "Статус: <state>", and has " @ <timestamp>" after it exactly when the timestamp is truthy |
| A2aText.Bullets | ui_app.py:187 | every history line is shown with a "• " bullet, in order |
| A2aText.CollectArtifactTexts | ui_app.py:150-160 | the nested loops over the artifacts and their parts collect exactly `ArtifactTexts` |
| A2aText.CollectPartTexts | ui_app.py:156-160 | the loop over one artifact's parts collects exactly `PartTexts` |
| A2aText.CollectHistoryLines | ui_app.py:162-178 | the loop over the history builds exactly `HistoryLines` |
| A2aText.HistoryEntryLine | ui_app.py:166-178 | one entry's rendering agrees with `EntryLine`: skipped if it is not a dict, no line without text |
| A2aText.HistoryStep | ui_app.py:177-178 | one more entry adds its line when it has one, and nothing otherwise |
| A2aText.HistoryStepFails | ui_app.py:165-178 | the first entry that raises decides the error |
| A2aText.FormatHumanReadable | ui_app.py:143-189 | the summary agrees with `HumanReadable` |
| A2aText.AssembleLines | ui_app.py:180-189 | the lines are the status line, the answer block when there are artifact texts and the history block when there are history lines, joined and stripped |
| A2aText.NonDictResponse | ui_app.py:145-146 | a response that is not a dict is summarised like an empty one, as "Статус: unknown" |
| A2aText.EmptySummary | ui_app.py:145-189 | an empty response is summarised as "Статус: unknown" |
| A2aText.UnknownStatusText | ui_app.py:181-189 | the lone status line of an unknown state survives `strip()` unchanged |
| A2aText.StatusMustBeDict | ui_app.py:146-147 | a `status` that is not a dict makes the summary raise on its `.get` |
| A2aText.FirstLineIsStatus | ui_app.py:181 | the summary's first line is the status line |
| A2aText.SummaryShape | ui_app.py:180-187 | the summary lines are the status line, then the answer block, then the history block |
| A2aText.BlockLayout | ui_app.py:182-187 | the "Ответ" heading appears exactly when there is an answer block and the "История" heading exactly when there is a history block, which comes last |
| A2aText.AnswerShown | ui_app.py:182-184 | the answer block is shown if and only if some artifact has text |
| A2aText.HistoryShown | ui_app.py:185-187 | the history block is shown if and only if some entry has text, and then its last line holds the bulleted history lines |
| Strings.RemoveSpacesStrip | fns-tax-mcp/tools/get_inn_by_passport.py:82 | removing the spaces and stripping commute |
| Strings.RemoveSpacesConcat | fns-tax-mcp/tools/get_inn_by_passport.py:82 | `replace(" ", "")` distributes over concatenation |
| Strings.StripIdempotent | ui_app.py:189 | a stripped string has nothing more to strip (also line 124) |
| Strings.StripUnchanged | ui_app.py:189 | a string with no whitespace at either end is its own `strip()` |
| Strings.StripKeepsPrefix | ui_app.py:181-189 | `strip()` keeps a leading piece that starts and ends with non-whitespace |
| Strings.StripKeeps | ui_app.py:189 | every non-whitespace character survives `strip()` (also line 124) |
| Strings.NatToString | fns-tax-mcp/tools/utils.py:26 | `str(n)` of a natural number passes `isdigit()` |
| Base64.DecodeEncode | fns-tax-mcp/tools/check_account_blocks.py:220 | decoding the `b64encode` text gives back the file bytes |
| Base64.EncodeAlphabet | fns-tax-mcp/tools/check_account_blocks.py:220 | the encoding uses only the standard alphabet and `=` padding |
| Common.JsonBody | fns-tax-mcp/tools/check_account_blocks.py:100-101 | the body is returned only for a 2xx reply that parses; a failing status raises `HTTPStatusError` with that status |
| Common.ContentBody | fns-tax-mcp/tools/check_account_blocks.py:216-219 | the raw content is returned exactly for a 2xx reply; a failing status raises `HTTPStatusError` |
| Py.Get | ui_app.py:146-147 | `dict.get` succeeds only on a dict, gives the stored value or the default, and raises `AttributeError` otherwise |
| Py.Len | fns-tax-mcp/tools/search_companies.py:49-101 | `len` is defined exactly for dicts, lists and strings and counts their entries |
| Py.Or | ui_app.py:178 | `a or b` is `a` when it is truthy and `b` otherwise |

## Left out

- Network I/O: httpx clients, timeouts, client lifecycles and the bank, api-fns.ru and api-assist endpoints. A reply is an input value (status, decoded body, content bytes, or a transport failure).
- The FNS test-mode payloads: `fns-tax-mcp/tools/mocks.py` is not part of this model, so those payloads are opaque `Json` parameters.
- Floating point: amounts are exact `real`s. `:.2f` and `:,.2f` are a stand-in that rounds the exact value half to even. It does not reproduce binary floating-point rounding.
- `str.isdigit` accepts only the ASCII digits, and `lower`/`upper` map only ASCII letters. Python also accepts other Unicode digits and case-maps other letters.
- XML serialisation (`etree.tostring`) and `validate_xsd`. The trees are modelled as the final values the generators build, not as step-by-step lxml mutation.
- lxml's rejection of a text is modelled as a ValueError exactly when the text has a character XML does not allow. Its exact message text is not modelled.
- JsonValues.Repr: a string is always shown in single quotes with no escaping. Python switches to double quotes for a text holding `'` and no `"`, and escapes backslashes, quotes and control characters (`repr("a\nb")` is `'a\\nb'`). This reaches the summaries wherever a nested value or a non-string field is put into an f-string.
- JsonValues.RealRepr: a float is printed as its exact decimal expansion, cut after 17 places, and never in exponent notation. Python prints the shortest text that reads back as the same double and uses exponent notation from 1e16 up and below 1e-4 (`1e+16`, `1e-05`).
- `ExceptionText` gives the `str()` of the modelled exceptions; the wording of library exceptions is approximated.
- The FNS tools assume that `ctx` is present. A missing `ctx` would raise `AttributeError` before the `try`.
- Arguments typed as pydantic `Literal`s (the period, the USN rate) are restricted by `requires` or a datatype, as pydantic rejects other values before the tool runs.
- `datetime.fromisoformat` with `%d.%m.%Y %H:%M` display, `float(str)` and `int(str)` on text are fields of a `Library` parameter. The clock behind the mock's `generatedAt` is a parameter too.
- The arbitration tools take their settings as a parameter. The ValueError that `get_settings` can raise outside the tools' `try` is not modelled.
- OpenTelemetry spans, Prometheus metrics and logging are left out. The arbitration tools' `ctx.info`/`report_progress` notices are kept; the FNS tools' `ctx.info` calls are logging only.
- Async/await: every call is one sequential task.
- The rest of `ui_app.py` is left out: routes, CORS, the inline page, `_send_to_agent` and `_resolve_agent_card`. Everything under `frontend/` is left out too.
- The remaining FNS lookup tools (`autocomplete`, `get_company_data`, `multinfo_companies`, `check_counterparty`, `get_extract`, `check_passport`, `check_person_status`, `get_fsrar_licenses`, `get_api_statistics`) are left out. They are thin wrappers with the same mode/token/error contract as the modelled lookups.
- Server entry points and tool registries.
- A2aText.JoinStrs: the `TypeError` of `str.join` on a non-string item follows CPython's message.
