# Nebula fetcher, modelled in Dafny

A model of the decision and string-building rules of `nasa_nebula_fetcher.py`,
an interactive script that does the following:

- It lets the user pick a planetary nebula from a numbered menu, or type a name.
- It resolves popular names to NGC identifiers.
- It looks up coordinates and distance in SIMBAD. When that fails, it falls back to a small fixed table.
- It scans VizieR tables for an oxygen-abundance column.
- It searches the NASA image API and maps the JSON items to image candidates.
- It downloads the images the user selects, under sanitised file names.
- It writes a `<name>_info.txt` report.

Every remote service is a parameter of the model: a function from what is sent to what comes back.
- SIMBAD is `string -> SimbadReply`, with the replies "raised", "nothing", or "a table with these columns".
- The image API is `SearchRequest -> SearchReply`.
- VizieR is `string -> VizierReply`.

The console is a parameter too: the answers typed at the menu and the selection line. Because services are functions of their input, the model also states what is sent to them. The search uses the chosen name (a menu entry or a typed name), with apostrophes removed and then stripped. SIMBAD and VizieR get `ResolveName` of it: the NGC identifier for the six mapped popular names, and the name itself otherwise.

Modules, leaf first:

- `Wrappers`: `Option`.
- `Text`: the Python string builtins the script relies on, over `seq<char>`.
  - `str.isspace` for ASCII, `str.isdigit` and `int()` on ASCII digits.
  - The substring test `in`.
  - `strip()` and `split()`.
- `FileNames`: `limpar_nome_arquivo`, the date part of an image name, and the image and report file names.
- `Catalog`: the menu table `CATALOGO_NEBULOSAS`, the table `MAPEAMENTO_SIMBAD`, and name resolution.
- `Astrometry`: `buscar_dados_simbad`, including the fixed records `DADOS_FIXOS`.
- `Composition`: `buscar_composicao_quimica`.
  - A specification function over the flattened column list.
  - The nested-loop method proved against it.
- `ImageSearch`: `search_nasa_images`. The loop that maps items is a method proved against a specification function.
- `Selection`: the selection and download loop of `main`.
- `Menu`: `escolher_nebulosa`.
- `Report`: `salvar_info_em_txt`, which writes lines section by section. A specification function gives the whole file as a sequence of lines.
- `Session`: `main` as a whole. It chooses, looks up, searches, downloads when something was found, then writes the report.

Behaviour of the code that the model keeps as written:

- **Failed downloads.** A failed download is not skipped from the report. `imagens_baixadas.append` on line 213 runs whatever `download_and_show_image` did, and that function only prints its errors.
- **Placeholders.** The placeholder strings are the Portuguese ones in the code: "Sem título", "Sem descrição", "Desconhecida" and "data_desconhecida".
- **Zero-row tables.** In the composition scan, the first matching column may sit in a table with no rows. Reading its row 0 then raises, and the handler returns nothing, even if a later table would match.

The `DADOS_FIXOS` light-year values are not the parsec values times 3.26156 (1001 pc would give about 3264.8 ly, and the table says 3266.5). The model keeps the table as written, and `Astrometry.FixedDataNotDerived` records that no fixed record follows the derivation used for remote records.

## Model

| member | source | states |
|---|---|---|
| Text.DigitsValue | nasa_nebula_fetcher.py:230 | `int()` of an ASCII digit string: its last decimal digit is the string's last digit and it has at most as many digits as the string |
| Text.ContainsAt | nasa_nebula_fetcher.py:97 | Python's substring test holds exactly when the pattern occurs as a slice at some index |
| Text.Strip | nasa_nebula_fetcher.py:140 | `strip()` returns a slice of the input with only whitespace cut on either side, and the result neither starts nor ends with whitespace |
| Text.Words | nasa_nebula_fetcher.py:205 | every token of `split()` is non-empty and contains no whitespace |
| Text.WordsJoin | nasa_nebula_fetcher.py:205 | a word, then whitespace, then the rest: the word is the first token and the rest gives the other tokens |
| Text.WordsSingle | nasa_nebula_fetcher.py:205 | a word without whitespace splits into itself alone |
| Text.WordsSkipSpace | nasa_nebula_fetcher.py:205 | leading whitespace produces no token |
| Text.WordsComplete | nasa_nebula_fetcher.py:205 | joining the tokens of `split()` gives back exactly the non-whitespace characters of the input, in order |
| FileNames.SafeChar | nasa_nebula_fetcher.py:46 | a space or one of the nine unsafe characters becomes `_`, any other character is kept, and the result is never a replaced character |
| FileNames.ReplaceSpaces | nasa_nebula_fetcher.py:46 | `replace(" ", "_")` keeps the length and replaces exactly the spaces |
| FileNames.ReplaceUnsafe | nasa_nebula_fetcher.py:46 | the regular-expression substitution keeps the length and replaces exactly the unsafe characters |
| FileNames.Sanitize | nasa_nebula_fetcher.py:45-46 | `limpar_nome_arquivo` keeps the length and maps every character through `SafeChar` |
| FileNames.SanitizedIsSafe | nasa_nebula_fetcher.py:45-46 | a sanitised name contains no space and none of the nine unsafe characters |
| FileNames.SanitizeIdempotent | nasa_nebula_fetcher.py:45-46 | sanitising twice equals sanitising once |
| FileNames.BeforeFirstT | nasa_nebula_fetcher.py:210 | `split("T")[0]` is a prefix without `T`, followed in the input by a `T` when the input has one |
| FileNames.DatePart | nasa_nebula_fetcher.py:210 | the date part is the text before the first `T`, or `data_desconhecida` when there is no `T` |
| FileNames.ImageFileName | nasa_nebula_fetcher.py:211 | an image name is five characters longer than the title and the date part together |
| FileNames.ImageFileNameShape | nasa_nebula_fetcher.py:211 | an image name is the sanitised title, `_`, the date part and `.jpg`, and the title part is exactly as long as the title |
| FileNames.ImageFileNameSafeTitle | nasa_nebula_fetcher.py:45-46 | no space or unsafe character of the title survives in the title part of an image name |
| FileNames.ReportFileName | nasa_nebula_fetcher.py:106 | the report name is the sanitised name, exactly as long as the name, followed by `_info.txt` |
| FileNames.UnknownDateSuffix | nasa_nebula_fetcher.py:210-211 | the default date "Desconhecida" has no `T`, so it gives the suffix `_data_desconhecida.jpg` |
| FileNames.UnknownDateName | nasa_nebula_fetcher.py:210-211 | the default date "Desconhecida" has no `T`, so the image is named `<title>_data_desconhecida.jpg` |
| FileNames.BeforeFirstTOf | nasa_nebula_fetcher.py:210 | `split("T")[0]` of `p + "T" + q` is `p` when `p` has no `T` |
| FileNames.DatePartOfTimestamp | nasa_nebula_fetcher.py:210 | a `<day>T<time>` timestamp keeps `<day>` |
| FileNames.IsoDatePart | nasa_nebula_fetcher.py:210 | "2004-05-11T00:00:00Z" gives "2004-05-11" |
| Catalog.ResolveName | nasa_nebula_fetcher.py:49 | a mapped popular name gives a different `NGC ` identifier; any other name is returned unchanged; the result is never itself a popular name |
| Catalog.ResolveIdempotent | nasa_nebula_fetcher.py:49 | resolving a resolved name changes nothing |
| Catalog.ResolveTable | nasa_nebula_fetcher.py:23-30 | the six popular names resolve to their NGC identifiers |
| Catalog.MappedNamesAreOnMenu | nasa_nebula_fetcher.py:10-30 | every popular name of the mapping is a menu entry |
| Astrometry.RemoteRecord | nasa_nebula_fetcher.py:54-59 | RA and DEC come from the reply; parsecs are present exactly when a `Distance_distance` column exists; light-years are present exactly when parsecs are present and nonzero, and equal parsecs times 3.26156 |
| Astrometry.LookupPrefersRemote | nasa_nebula_fetcher.py:54-59 | a reply with `RA` and `DEC` columns for the resolved identifier is returned as the record |
| Astrometry.LookupFallsBack | nasa_nebula_fetcher.py:60-65 | otherwise the fixed record of the resolved identifier is returned when there is one, and nothing when there is none |
| Astrometry.LookupAstrometry | nasa_nebula_fetcher.py:48-65 | there is no record exactly when the reply for the resolved identifier is unusable and the identifier has no fixed record |
| Astrometry.OfflineFixedRecords | nasa_nebula_fetcher.py:32-65 | with SIMBAD down, the Cat's Eye, Ring and Eskimo nebulae (by popular name or identifier) still get their fixed records, and the Helix nebula gets none |
| Astrometry.FixedDataNotDerived | nasa_nebula_fetcher.py:32-36 | no fixed record's light-year value equals its parsec value times 3.26156 |
| Composition.FirstAbundanceColumnSpec | nasa_nebula_fetcher.py:95-99 | the first match is a column containing `logOH` or `O_H` with no match before it, and there is none exactly when no column matches |
| Composition.FirstAbundanceColumnAt | nasa_nebula_fetcher.py:95-99 | a matching column preceded only by non-matching ones is the first match, whatever follows |
| Composition.FirstAbundanceColumnNone | nasa_nebula_fetcher.py:95-102 | with no matching column there is no match |
| Composition.FlattenSplit | nasa_nebula_fetcher.py:95-96 | the visiting order over the tables is the concatenation of their columns |
| Composition.CompositionOf | nasa_nebula_fetcher.py:90-102 | a reported value comes from a successful query and is `log(O/H) ≈ v`, where `v` is the row-0 value of a matching column that no column before it in visiting order matches |
| Composition.CompositionSomeIff | nasa_nebula_fetcher.py:93-102 | a value is reported exactly when the query succeeded, some column matches, and the first match's table has a row |
| Composition.FoundFirst | nasa_nebula_fetcher.py:95-99 | a matching column reached by the nested loops after only non-matching ones is the first match of the whole reply |
| Composition.ScanComposition | nasa_nebula_fetcher.py:90-102 | the nested loops with early return compute the specified result: the first matching column's row-0 value as `log(O/H) ≈ v`, or nothing |
| ImageSearch.RemoveApostrophes | nasa_nebula_fetcher.py:140 | no apostrophe remains, and every other character keeps its number of occurrences |
| ImageSearch.RemoveApostrophesAppend | nasa_nebula_fetcher.py:140 | removal works piece by piece, so the kept characters stay in their order |
| ImageSearch.RemoveApostrophesNone | nasa_nebula_fetcher.py:140 | text without apostrophes is sent unchanged |
| ImageSearch.CleanQuery | nasa_nebula_fetcher.py:140 | the query sent is the query without apostrophes, with only whitespace cut at either end, so it has no apostrophe and no whitespace at either end |
| ImageSearch.RequestFor | nasa_nebula_fetcher.py:140-146 | the request goes to `https://images-api.nasa.gov/search` with media type `image` and the cleaned query |
| ImageSearch.Slice | nasa_nebula_fetcher.py:151 | `items[:n]` is a prefix of length `min(n, len)` for `n >= 0`, and drops the last `-n` items for `n < 0` |
| ImageSearch.ToCandidate | nasa_nebula_fetcher.py:154-160 | every field present in `data[0]`, and the `href` of the first link, is taken as it is |
| ImageSearch.CandidatesAt | nasa_nebula_fetcher.py:152-160 | candidate `k` is the mapping of item `k`, with nothing added or dropped |
| ImageSearch.SearchResults | nasa_nebula_fetcher.py:148-165 | at most `max_results` results, results only from a 200 reply whose body is JSON, and when every visited item is well formed, exactly one result per visited item (`items[:max_results]`), so a short reply keeps all its items |
| ImageSearch.SearchNon200 | nasa_nebula_fetcher.py:148-149 | a status other than 200 gives no results |
| ImageSearch.SearchBoundedAndOrdered | nasa_nebula_fetcher.py:148-161 | at most `max_results` results, each the mapping of the API item at the same position of a 200 JSON reply |
| ImageSearch.SearchTruncates | nasa_nebula_fetcher.py:151 | a reply whose visited items are well formed yields exactly `min(max_results, len(items))` results: truncated when longer, all kept when shorter |
| ImageSearch.SearchMalformedItem | nasa_nebula_fetcher.py:154-165 | a visited item without `data[0]` or with an empty `links` list makes the whole search return `[]` |
| ImageSearch.CandidateDefaults | nasa_nebula_fetcher.py:156-159 | for every item that can be mapped, each missing field becomes its placeholder ("Sem título", "Sem descrição", "Desconhecida", an empty URL), whatever the other fields hold |
| ImageSearch.MapReply | nasa_nebula_fetcher.py:148-161 | the status test and the appending loop compute the specified results |
| ImageSearch.SearchImages | nasa_nebula_fetcher.py:139-165 | the search sends the cleaned query with media type `image` and returns the specified results for the reply |
| Selection.ChosenIndices | nasa_nebula_fetcher.py:205 | there is at most one index per token, and every index is at least -1 |
| Selection.ChosenIndicesAppend | nasa_nebula_fetcher.py:205 | tokens are converted in input order: selection distributes over concatenation |
| Selection.ChosenIndicesSingle | nasa_nebula_fetcher.py:205 | a token gives an index exactly when it is all digits, and that index is its value minus one |
| Selection.PlannedAppend | nasa_nebula_fetcher.py:207-213 | downloads follow the order of the indices, duplicates included |
| Selection.PlannedSingle | nasa_nebula_fetcher.py:208-215 | an index inside the list downloads exactly that result, and any other index downloads nothing |
| Selection.Planned | nasa_nebula_fetcher.py:207-213 | there is one download per index inside the list |
| Selection.InRange | nasa_nebula_fetcher.py:208 | never more indices inside the list than indices |
| Selection.PlannedStep | nasa_nebula_fetcher.py:207-213 | one more index appends that index's download when it is inside the list, and nothing otherwise |
| Selection.DownloadChosen | nasa_nebula_fetcher.py:207-215 | the loop performs the specified downloads and records exactly one file name per download, in order |
| Selection.ExampleWords | nasa_nebula_fetcher.py:205 | "1 99 abc 2" splits into the four tokens in order |
| Selection.ExampleIndices | nasa_nebula_fetcher.py:205 | those tokens give the indices 0, 98 and 1 |
| Selection.ExamplePlanned | nasa_nebula_fetcher.py:207-215 | with two to ten results, those indices download results 1 and 2 in order and skip 99 |
| Selection.ExampleSelection | nasa_nebula_fetcher.py:204-215 | the input "1 99 abc 2" downloads results 1 and 2 only |
| Menu.Choose | nasa_nebula_fetcher.py:229-235 | manual entry exactly for an all-digit answer of value 0; a menu entry exactly for an all-digit answer whose value is a menu number, and that entry's name |
| Menu.MenuNumbers | nasa_nebula_fetcher.py:10-21 | the menu numbers are exactly 1 to 10 |
| Menu.ChooseInvalidIff | nasa_nebula_fetcher.py:229-235 | an answer is rejected exactly when it is not all digits or its value exceeds 10 |
| Menu.ChooseNebula | nasa_nebula_fetcher.py:225-236 | no name is chosen exactly when every answer but the last is rejected and the last is not a menu entry |
| Menu.ChooseNebulaSkips | nasa_nebula_fetcher.py:235-236 | rejected answers are skipped, and the menu is shown again |
| Menu.ChooseNebulaFirstAccepted | nasa_nebula_fetcher.py:225-236 | after any run of rejected answers, the first accepted answer decides: a menu number gives its entry, and a `0` gives the next line stripped, or nothing when no line follows |
| Menu.ChooseExamples | nasa_nebula_fetcher.py:229-234 | "3" picks the Ring Nebula; " 3" is rejected because the answer is not stripped |
| Report.ImageLines | nasa_nebula_fetcher.py:120-121 | one `- <file>` line per downloaded file, in order |
| Report.EmissionLines | nasa_nebula_fetcher.py:134-135 | one formatted line per generic emission, in order |
| Report.ReportLines | nasa_nebula_fetcher.py:109-135 | the file opens with `Nebulosa: <name>` and has, besides its astrometric lines and one line per file, nine fixed lines and one composition line, or four without a catalogue value |
| Report.PreambleLayout | nasa_nebula_fetcher.py:110-119 | header line, then one astrometric line without data and one or two with, then date, blank line, image heading |
| Report.ClosingLayout | nasa_nebula_fetcher.py:123-135 | blank line, caption heading, caption, blank line, composition heading, composition block |
| Report.ReportSections | nasa_nebula_fetcher.py:109-135 | a regrouping of `ReportLines` into the four blocks `WriteReport` writes one after another (preamble, image lines, caption section, composition block); it is the proof step that ties the sequential writes to the whole file |
| Report.ReportWithoutAstrometry | nasa_nebula_fetcher.py:111-128 | without data the second line is "Dados astronômicos indisponíveis.", the date follows it, and the caption says the data are incomplete |
| Report.ReportListsImages | nasa_nebula_fetcher.py:119-123 | every downloaded file is listed once, in order, between the image heading and the blank line before the caption |
| Report.CaptionWithDistance | nasa_nebula_fetcher.py:123-126 | with a true light-year distance, the line after the caption heading gives it rounded, with RA and DEC |
| Report.ReportComposition | nasa_nebula_fetcher.py:130-135 | without a catalogue value the file ends with the heading and exactly the four generic emission lines in order; with one, it ends with the heading and that value |
| Report.WritePreamble | nasa_nebula_fetcher.py:110-119 | the sequential writes produce the specified preamble |
| Report.WriteImages | nasa_nebula_fetcher.py:120-121 | the loop appends the specified image lines |
| Report.WriteCaption | nasa_nebula_fetcher.py:123-130 | the writes append the specified caption section |
| Report.WriteComposition | nasa_nebula_fetcher.py:131-135 | the catalogue line or the loop over the generic list appends the specified block |
| Report.WriteReport | nasa_nebula_fetcher.py:104-135 | the file is named `<sanitised name>_info.txt`, the composition is queried for the resolved identifier, and the lines written are the specified report |
| Session.FileNamesOf | nasa_nebula_fetcher.py:213 | one recorded file name per download, in order |
| Session.RunSession | nasa_nebula_fetcher.py:177-217 | the run's steps in order produce the specified outcome |
| Session.SessionOf | nasa_nebula_fetcher.py:177-217 | the run ends without a nebula exactly when the menu answers run out, and the report is written exactly when a nebula was chosen and the search found at least one image |
| Session.CompletedSearch | nasa_nebula_fetcher.py:192-217 | a run whose search found something completes with the results of searching the chosen name (not its identifier), between one and ten of them, and a report named after the chosen name |
| Session.CompletedDownloadCount | nasa_nebula_fetcher.py:207-215 | a run with results downloads once per selected index inside the result list |
| Session.ReportListsDownloads | nasa_nebula_fetcher.py:213-217 | the report written for a list of downloads lists each download's file name in order under the image heading |
| Session.CompletedReportListsDownloads | nasa_nebula_fetcher.py:207-217 | the report of a run with results lists every download's file name, in download order, under the image heading |

## Left out

- Network and foreign calls are not modelled: `requests.get`, `Simbad.query_object`, `Vizier.query_object`, and PIL's `Image.open`, `save` and `show`. Only their outcomes enter the model, as parameters.
- The download itself is left out. It becomes a `Download(url, fileName)` record, and its success or failure is irrelevant, because the file name is recorded either way.
- `buscar_composicao_real_simbad` (lines 67-87) is not part of this model. Nothing calls it.
- `mostrar_catalogo` is not part of this model: it only prints the menu. The same goes for every `print`, including the per-index warning of line 215 and the result listing of lines 197-202.
- File writing is left out. The report is the sequence of lines it writes.
- Report.ReportLines: a field containing a line break (a name, a coordinate, a file name) would split a line of the real file; the model keeps one entry per `write`.
- `datetime.now()` is left out. The rendered timestamp is a parameter.
- Report.Formats: `{x:.1f}`, `{x:.0f}` and `str(x)` of distances are opaque functions, because floating-point rendering is not modelled.
- Report.Formats: the parsec distances of `DADOS_FIXOS` (lines 33-35) are Python integers, so line 114 writes `1001 pc` for a fixed record and `1001.0 pc` for a remote float of the same value. The model stores both as the same `real` and renders them through the one function `fmt.plain`, so it does not capture that difference.
- Astrometry.RemoteRecord: parsecs times 3.26156 is exact `real` arithmetic, not IEEE double arithmetic, and SIMBAD cells are taken as already-rendered strings or exact reals. Masked or NaN cells are not modelled.
- Composition.Column: the rendered value `str(tabela[coluna][0])` of the first row is an opaque string. Masked cells are not distinguished.
- ImageSearch.DataBlock: a JSON field is either a string or missing. A field that is present with a `null` or non-string value (which Python would pass through unchanged) is not modelled.
- Text.IsSpace: only the ASCII characters for which `str.isspace` holds count as whitespace. Unicode spaces such as U+00A0 or U+2003 are not modelled, so `split()` and `strip()` are modelled for ASCII whitespace only.
- Text.IsDigits: `str.isdigit` is modelled for ASCII digits only. Unicode digits, for which `isdigit` holds but `int()` may raise, are not modelled.
- Menu.ChooseNebula: the answers to the menu and the selection line are separate parameters, not one shared input stream. Running out of answers (`EOFError`, which ends the program) is the `None` result.
- Text.DigitsValue: CPython's `int()` refuses a decimal string of more than 4300 digits with `ValueError`. Nothing catches it at line 230 or line 205, so the program ends there. The model always gives the value, so such an answer makes the menu re-prompt, and such a selection token becomes an out-of-range index that is skipped, where the program stops before any download or report.
- Menu.ChooseNebula: the re-prompt of line 236 is a recursive call, so under CPython's default recursion limit of 1000, about a thousand rejected answers end the program with an uncaught `RecursionError`. The model skips any number of rejected answers.
- Session.RunSession: the selection line is always present. An end of input at the selection prompt (line 204) raises `EOFError` and ends the program before any download; the model does not have that outcome.
- The `Simbad.TIMEOUT`, `add_votable_fields` and `ROW_LIMIT` settings are configuration of the remote calls and are not modelled.
