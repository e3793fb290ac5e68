# Bachillerato verification: a Dafny model

The system checks a Paraguayan secondary-school credential (a *bachillerato*)
against the Ministry of Education's public verification page. It has four parts:

- **The verification agent** (`consultarBachilleratoMEC`). It drives a
  headless browser: it fills in the document number (and the birth date when
  one is given), waits for a result panel, extracts the result text,
  classifies it as `VALIDADO` or `NAO_VALIDADO` by keyword, and prints a
  validated page to PDF after stripping its navigation. It returns a result
  record, or throws one error prefixed with `Falha na automação: `.
- **The back end's controller** (`consultarBachillerato`). It rejects a blank
  document number with 400, calls the agent, and answers 200 with the record
  or 500 with the agent's error in `detalhes`.
- **The front end's proxy route** (`handler`). It accepts only POST (405
  otherwise) and forwards the body to the back end. It answers with the back
  end's status and body, with 504 when its 95 s timer aborted the request, or
  with 500 for any other error.
- **The lookup form** (`Home`). It holds the inputs and the
  loading/result/error state. `handleSubmit` posts the trimmed fields and
  composes an error message by a fixed order of precedence. `resetForm`
  clears the form, and `handleDownloadPDF` opens the PDF through the API
  prefix.

The browser, the network, the file system and the clock are not modelled as
such. Their outcomes become parameters:

- `Agent.BrowserRun` holds the outcome of each group of browser calls
  (launch, opening the page, filling the document, submitting, reading the
  result, printing) and of each of the three watches of the result race.
- `Dom.RemotePage` holds what the remote page shows.
- `now` and `isoNow` stand for `Date.now()` and `new Date().toISOString()`.
- `Proxy.BackendOutcome` holds what the request to the back end came to.
- `Form.HttpOutcome` holds what the form's HTTP request came to.
- `env` stands for the `BACKEND_URL` variable.

The agent and the form change state step by step, so they are modelled
imperatively:

- `Dom.Page` is a class. Its actions are logged, and its elements are
  stripped in place by loops proved against the functions that specify them.
- `Agent.ConsultarBachilleratoMEC` returns, beside the result, the
  `browser` state it leaves behind.
- `Form.Home` is a class whose methods update its fields.

The controller and the proxy are pure decisions, modelled as functions. They
come with lemmas about them.

Module layout:

- `wrappers.dfy`: `Option` and `Result`.
- `text.dfy`: substring search, upper-casing, JavaScript `trim`, decimal
  numerals.
- `json.dfy`: flat JSON objects and HTTP responses.
- `classification.dfy`: the keywords and the classification.
- `dom.dfy`: the page, the text extraction and the print sanitisation.
- `agent.dfy`: the agent.
- `controller.dfy`: the controller.
- `proxy.dfy`: the proxy route.
- `form.dfy`: the form.
- `endtoend.dfy`: one lookup from the form to the agent and back.

The agent classifies the untrimmed extracted text
(backend/src/services/puppeteerService.js:184-186) and trims only the message
it stores (line 260). `Classification.ClassifyIgnoresTrim` proves that
classifying the stored, trimmed message would give the same status.

## Model

| member | source | states |
|---|---|---|
| Text.TrimDropsWhitespace | backend/src/services/puppeteerService.js:260 | `trim` removes exactly the leading and trailing JavaScript white space: everything cut off is white space, and the result is a contiguous slice of the input |
| Text.TrimEndsNotWhitespace | backend/src/services/puppeteerService.js:260 | a non-empty trimmed string neither starts nor ends with white space |
| Text.TrimIdempotent | frontend/pages/index.js:32-33 | trimming a trimmed string changes nothing, so the form's already-trimmed fields reach the back end unchanged by a second trim |
| Text.ContainsUpper | backend/src/services/puppeteerService.js:184-186 | an occurrence of a keyword survives upper-casing both the text and the keyword |
| Text.UpperIdempotent | backend/src/services/puppeteerService.js:185 | upper-casing twice is upper-casing once |
| Text.TrimKeepsUpperOccurrence | backend/src/services/puppeteerService.js:184-186 | a word that neither starts nor ends with white space and occurs in the upper-cased text also occurs in the upper-cased trimmed text |
| Text.TrimmedOccurrence | backend/src/services/puppeteerService.js:184-186 | an occurrence in the upper-cased trimmed text is an occurrence in the upper-cased text |
| Text.DecimalRoundTrip | backend/src/services/puppeteerService.js:203 | the decimal numeral of the timestamp reads back as the same number |
| Text.DecimalInjective | backend/src/services/puppeteerService.js:203 | distinct timestamps have distinct numerals |
| Classification.SomeKeywordFinds | backend/src/services/puppeteerService.js:184-186 | the `some` scan over the keywords is true exactly when one upper-cased keyword occurs in the upper-cased text |
| Classification.ClassifyFindsKeyword | backend/src/services/puppeteerService.js:184-188 | the status is `VALIDADO` exactly when some upper-cased keyword is a substring of the upper-cased text |
| Classification.KeywordsContainEgresado | backend/src/services/puppeteerService.js:25 | every configured keyword contains `EGRESADO` once upper-cased, and the last one is exactly that word |
| Classification.ClassifyIffEgresado | backend/src/services/puppeteerService.js:25 | the three keywords classify exactly as the single word `EGRESADO`: validated exactly when the upper-cased text contains it |
| Classification.ClassifyIgnoresTrim | backend/src/services/puppeteerService.js:184-260 | classifying the untrimmed text agrees with classifying the trimmed message stored in the record |
| Classification.ClassifyIgnoresCase | backend/src/services/puppeteerService.js:184-186 | classification is case-insensitive: upper-casing the text first does not change the status |
| Classification.WithoutGNotValidado | backend/src/services/puppeteerService.js:184-188 | a text with no `g` in either case is never validated |
| Classification.SentinelNotValidado | backend/src/services/puppeteerService.js:176-188 | the body fallback's sentinel `Nenhum resultado encontrado` always classifies as `NAO_VALIDADO` |
| Classification.KeywordValidates | backend/src/services/puppeteerService.js:184-188 | a text containing a keyword as written is validated |
| Dom.BodyFallback | backend/src/services/puppeteerService.js:170-177 | the fallback yields either the whole body or the sentinel, nothing else |
| Dom.FirstPresent | backend/src/services/puppeteerService.js:149-167 | the first present candidate: absent exactly when all are absent, and otherwise the value of a candidate all of whose predecessors are absent |
| Dom.SuccessPanelWins | backend/src/services/puppeteerService.js:149-153 | a success panel supplies the text whatever other panels the page shows |
| Dom.DangerPanelBeforeGeneric | backend/src/services/puppeteerService.js:154-160 | without a success panel, a danger panel or alert supplies the text, ahead of any generic panel |
| Dom.GenericPanelThird | backend/src/services/puppeteerService.js:161-167 | without success or danger panels, any `.panel` supplies the text |
| Dom.BodyOnlyWithoutPanels | backend/src/services/puppeteerService.js:168-177 | the body fallback is consulted only when the page has no panel at all |
| Dom.BodyFallbackClassification | backend/src/services/puppeteerService.js:170-186 | the fallback's text is validated exactly when the body mentions `egresado` or `Datos del Egresado` case-sensitively, and then it is the whole body |
| Dom.WithoutNavLinksCounts | backend/src/services/puppeteerService.js:209-215 | stripping navigation links removes every anchor to Inicio, Portal, Consultar or Iniciar that holds no image, and keeps every occurrence of every other element |
| Dom.FirstMatch | backend/src/services/puppeteerService.js:218-223 | `querySelector` finds the first matching element: no element before it matches, and it matches when it exists |
| Dom.RemoveFirstCounts | backend/src/services/puppeteerService.js:218-223 | removing the first match takes away exactly one occurrence of the matched element when there is a match, nothing otherwise, and never a non-matching element |
| Dom.SanitizedHasNoNavLinks | backend/src/services/puppeteerService.js:209-215 | no stripped navigation link survives sanitisation |
| Dom.SanitizedKeepsEverythingElse | backend/src/services/puppeteerService.js:207-223 | sanitisation removes nothing but stripped navigation links and at most one menu toggle and one Ayuda link; every other element keeps all its occurrences |
| Dom.SanitizedNothingToStrip | backend/src/services/puppeteerService.js:207-223 | a page with nothing to strip prints unchanged |
| Dom.Page.ExtractResultText | backend/src/services/puppeteerService.js:146-181 | the nested branches of the extraction compute the four-step fallback |
| Dom.Page.RemoveNavLinks | backend/src/services/puppeteerService.js:209-215 | the `forEach`/`remove()` loop leaves exactly the elements `WithoutNavLinks` keeps, in order |
| Dom.Page.RemoveFirstMatch | backend/src/services/puppeteerService.js:218-223 | `querySelector` then `remove()` leaves the page with its first match cut out |
| Dom.Page.Sanitize | backend/src/services/puppeteerService.js:207-228 | the sanitising script leaves the sanitised page and sets the body's print layout |
| Agent.FromJsonToJson | backend/src/services/puppeteerService.js:258-264 | the result record serialises without loss: it reads back from its JSON as the same record |
| Agent.Submit | backend/src/services/puppeteerService.js:97-111 | the submission performs the date-branch actions, or the document-branch actions, and nothing else on the page |
| Agent.FillAndSubmit | backend/src/services/puppeteerService.js:58-111 | returns the message of the first call that threw between opening the page and submitting, and performs exactly the form actions of the calls that completed |
| Agent.ReadResult | backend/src/services/puppeteerService.js:143-264 | once a panel appeared: an error thrown while reading the page is the outcome and leaves the page as it was; otherwise the specified outcome, with the page sanitised and laid out for print exactly when validated, and the PDF file written exactly when validated and the printing completed |
| Agent.RunAttempt | backend/src/services/puppeteerService.js:58-264 | the `try` body yields the specified attempt: a submission error, the no-result error, or the outcome of reading the result, with the page changed as specified |
| Agent.ConsultarBachilleratoMEC | backend/src/services/puppeteerService.js:37-277 | the lookup yields the specified result; the browser ends `Closed` whenever it was launched and is never left open; the page's action log, elements and print layout are the ones the attempt specifies; a PDF file is written exactly when the returned record has a PDF URL |
| Agent.ResultRecord | backend/src/services/puppeteerService.js:184-264 | a returned record carries the input number unchanged, the trimmed extracted text, the classification of that text and the clock reading; `pdfUrl` is present exactly when `VALIDADO`, and then it is `/prints/bachillerato_<number>_<now>.pdf` |
| Agent.SucceedsIff | backend/src/services/puppeteerService.js:47-264 | a lookup succeeds exactly when every browser call up to the submission completed, the race settled, reading the result completed, and, if the text is validated, its page was printed; a `NAO_VALIDADO` lookup prints nothing |
| Agent.FirstThrown | backend/src/services/puppeteerService.js:40-276 | the first error thrown among sequential calls: none exactly when all completed, and otherwise the message of a call that threw after all earlier ones completed |
| Agent.FailureIsWrappedCause | backend/src/services/puppeteerService.js:266-276 | a lookup fails exactly when some step threw (including reading the result) or no panel appeared, and its error is the prefix `Falha na automação: ` followed by the first cause met |
| Agent.FailureHasPrefix | backend/src/services/puppeteerService.js:275 | every error of a lookup starts with `Falha na automação: ` |
| Agent.RaceFailure | backend/src/services/puppeteerService.js:122-140 | when no watch of the race saw its panel, the lookup fails with the wrapped no-result error, whatever the page shows |
| Agent.ReadFailure | backend/src/services/puppeteerService.js:143-177 | when a panel appeared but reading the page threw, the lookup fails with that error behind `Falha na automação: ` and nothing is printed |
| Agent.DateBranch | backend/src/services/puppeteerService.js:93-111 | the date field is typed into, with the untrimmed date, exactly when the date is not blank; otherwise the document field gets a single click; the number is typed first and Enter comes last |
| Agent.PdfFilenameInjective | backend/src/services/puppeteerService.js:203 | the PDF file name determines the document number and the clock reading it was built from |
| Agent.RepeatedLookup | backend/src/services/puppeteerService.js:184-248 | two lookups of the same page agree on status and message, and validated lookups at different clock readings get different PDF URLs |
| Agent.ValidatedScenario | backend/src/services/puppeteerService.js:149-264 | a success panel naming the graduate's data yields `VALIDADO`, the trimmed text and the PDF URL |
| Agent.NotFoundScenario | backend/src/services/puppeteerService.js:154-264 | a danger panel saying nothing was found yields `NAO_VALIDADO` and no PDF URL |
| Agent.NoPanelScenario | backend/src/services/puppeteerService.js:122-140 | a page that never shows a panel ends in the wrapped no-result error |
| Controller.BlankIsRejected | backend/src/controllers/consultaController.js:12-17 | a request is refused with 400 exactly when its number is missing, null or blank; the refusal names the missing document with status `ERROR`, and the agent is not called |
| Controller.NonBlankIsAccepted | backend/src/controllers/consultaController.js:12 | a number with any non-white-space character reaches the agent |
| Controller.CallPassesFieldsAsReceived | backend/src/controllers/consultaController.js:9-25 | the agent gets both fields exactly as received, untrimmed; a missing or null date stays missing |
| Controller.SuccessPassesThrough | backend/src/controllers/consultaController.js:25-28 | an agent result comes back with 200, and every field of the record reads back unchanged from the body |
| Controller.FailureIs500 | backend/src/controllers/consultaController.js:30-38 | an agent error comes back with 500, its message in `detalhes` and status `ERROR` |
| Controller.ResponseCodes | backend/src/controllers/consultaController.js:7-39 | every response is 200, 400 or 500, and only a 200 lacks the `ERROR` status |
| Proxy.OnlyPostIsForwarded | frontend/pages/api/consulta-bachillerato.js:6-8 | a request is forwarded exactly when it is a POST; any other method gets 405 `Método não permitido` |
| Proxy.ForwardTarget | frontend/pages/api/consulta-bachillerato.js:11-27 | a POST goes unchanged to the lookup route of `BACKEND_URL` when set and not empty, else of the fixed default |
| Proxy.AnswerPassesThrough | frontend/pages/api/consulta-bachillerato.js:29-34 | an answer within the timer with a JSON body comes back with the same status and body |
| Proxy.TimeoutIs504 | frontend/pages/api/consulta-bachillerato.js:17-43 | a POST ends in 504 with the timeout text exactly when the request was aborted, by the 95000 ms timer or by an `AbortError` |
| Proxy.OtherErrorIs500 | frontend/pages/api/consulta-bachillerato.js:45-49 | any other error ends in 500 with `Erro ao conectar com o backend`, the error's message and its string form |
| Proxy.ErrorToStringParts | frontend/pages/api/consulta-bachillerato.js:48 | the error's string form starts with its name and ends with its message when it has one; without a name it is the message alone |
| Form.ComposeErrorMessage | frontend/pages/index.js:42-59 | the message built by appending and replacing is the one the order of precedence specifies |
| Form.Home.BeginSubmit | frontend/pages/index.js:16-34 | a blank number only sets the blank-number error and posts nothing; otherwise the form starts loading, clears result and error, and posts both fields trimmed |
| Form.Home.FinishSubmit | frontend/pages/index.js:36-62 | loading stops; a resolved request shows its data, a rejected one the composed message |
| Form.Home.HandleSubmit | frontend/pages/index.js:16-63 | a submission that posts ends not loading, showing exactly one of the response data and the composed error |
| Form.Home.ChangeBachillerato | frontend/pages/index.js:170 | the document input's change handler sets the document field to the typed value |
| Form.Home.ChangeFechaNacimiento | frontend/pages/index.js:188 | the date input's change handler sets the date field to the typed value |
| Form.Home.ResetForm | frontend/pages/index.js:72-77 | both inputs, the result and the error are cleared; loading is not touched |
| Form.Home.HandleDownloadPDF | frontend/pages/index.js:65-70 | `/api` + `pdfUrl` is opened exactly when the shown result has a non-empty `pdfUrl`; otherwise nothing is opened |
| Form.ServerErrorComesFirst | frontend/pages/index.js:42-50 | a 500 is checked first: the message keeps the prefix and the server-problem text, then `Detalhes: ` and the details, or the advice to check the data |
| Form.ServerErrorWithDetailsShown | frontend/pages/index.js:44-47 | a 500 with details shows the server-problem message with those details |
| Form.NetworkFailureReplacesMessage | frontend/pages/index.js:51-52 | short of a 500, a network failure replaces the whole message with the connection text |
| Form.ServerTextOrAdvice | frontend/pages/index.js:53-57 | short of a 500 or a network failure, the server's `error` text replaces the message, else the prefix with the retry advice is shown |
| Form.StatusMessageIsNotNetwork | frontend/pages/index.js:51 | the client's message for a rejected status never contains `Network Error`, so only a real network failure takes that branch |
| Form.ServerErrorTextShown | frontend/pages/index.js:53-54 | a rejected status other than 500 whose body has an `error` text shows that text |
| Form.ErrorMessageNotEmpty | frontend/pages/index.js:42-59 | a failed submission always shows a non-empty message |
| Form.ClientOutcomeResolvesOn2xx | frontend/pages/index.js:31-39 | the request resolves exactly on a 2xx status, with the response body; a rejection carries the response |
| EndToEnd.FormRequestsAreAccepted | frontend/pages/index.js:19-34 | a request the form sends is never refused by the controller: the agent gets both trimmed fields and uses the date exactly when the form's date was not blank |
| EndToEnd.ProxyPassesControllerResponse | frontend/pages/api/consulta-bachillerato.js:20-34 | within the timer the form receives exactly the controller's response |
| EndToEnd.DownloadTargetOfRecord | frontend/pages/index.js:65-68 | the download target of a shown record is the API prefix and its PDF URL, when it has a non-empty one |
| EndToEnd.RecordReachesForm | frontend/pages/index.js:31-37 | an agent record for an accepted request reaches the form as the same record, with the download its PDF URL gives |
| EndToEnd.LookupReachesDownload | frontend/pages/index.js:31-70 | a successful lookup reaches the form as the same record, and the form offers a download exactly when the agent validated the document: the PDF of the trimmed number through `/api` |
| EndToEnd.FailureReachesForm | frontend/pages/index.js:44-47 | an agent failure reaches the form as the server-problem message with the agent's prefixed error as the details |
| EndToEnd.FormFailureResponse | backend/src/controllers/consultaController.js:30-38 | the controller answers a form request that the agent failed on with 500, the agent's message in `detalhes` |
| EndToEnd.TimeoutReachesForm | frontend/pages/api/consulta-bachillerato.js:38-43 | a request the proxy aborts reaches the form as the timeout error text, whatever the back end would have answered |

## Left out

- The browser itself is not modelled: launching, opening and setting up the page, request interception, navigation, `waitForSelector` timing, the fixed settle delays, screenshots and the `page.pdf` options (A4, landscape, margins, scale). Each group of calls is one outcome in `Agent.BrowserRun`: the reading of the result (the settle delay and the `page.$` and `page.evaluate` calls of lines 143-177) is one step that completes or throws.
- A browser call that fails half-way is not distinguished from one that never started. For example, a click that happened before the typing threw is not logged.
- Screenshots and the page-text read in the race's error path are assumed not to throw. If they did, their error would replace the no-result error.
- `browser.close()` and the sanitising script are assumed not to throw. A close that throws inside the `catch` would escape without the prefix.
- The file system (creating the prints directory, writing the PDF) is left out. A written PDF is one entry in the page's `artifacts` log.
- The clock is left out. `Date.now()` and `toISOString()` are the parameters `now` and `isoNow`, and nothing relates the two.
- JSON values other than strings and null are not modelled. In particular, a non-string `bachillerato`, which makes `.trim()` throw and the controller answer 500, is not modelled.
- Text.Upper: upper-cases ASCII and Latin-1 letters character by character. JavaScript's full Unicode `toUpperCase`, including mappings that change length such as ß to SS, is not modelled.
- The page's elements are a flat sequence. Nesting is reduced to the one fact the sanitisation consults: whether an anchor holds an image.
- Dom.SanitizedKeepsEverythingElse: states what survives by occurrence counts, not the order of the survivors. `Dom.Page.RemoveNavLinks` and `Dom.Page.RemoveFirstMatch` do preserve order, as their functions show.
- The body's print padding and margin are reduced to the `printLayout` flag.
- The proxy's `fetch` and timer are replaced by the elapsed time until the back end answered. The timer is cleared before the body is parsed, so the model compares only the time to the answer with 95000 ms.
- The HTTP client of the form is reduced to `Form.ClientOutcome`. It resolves on 2xx and otherwise rejects with the response attached. Network errors enter as a `Rejected` outcome.
- Form.Home.BeginSubmit: on a blank number, `loading` keeps its old value and is not set to false. The submit button is disabled while loading, so in practice that value is false. The result already shown is also kept, so both a result and the blank-number error can be shown at once.
- The rendered page (JSX), the `about` page, the header and footer, the server bootstrap and routing, the configuration files, console logging and the `DEBUG_PUPPETEER` switch are not part of this model.
