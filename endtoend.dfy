/** The path of one lookup through the whole system: the form posts to the
    front end's proxy route, the proxy forwards to the back end's controller,
    the controller calls the agent, and the answer travels back to the form. */
module EndToEnd {
  import opened Wrappers
  import opened Text
  import opened Json
  import opened Classification
  import opened Dom
  import opened Agent
  import opened Controller
  import opened Proxy
  import opened Form

  /** The response the form receives for `request` when the controller
      answers within `elapsedMs` with the agent's outcome `answer`. */
  function Roundtrip(request: JObject, answer: Result<Resultado>, env: Option<string>, elapsedMs: nat): Response
  {
    var backend := ConsultarBachillerato(request, answer).response;
    Handler("POST", env, request, Answered(elapsedMs, backend.status, Success(backend.body))).response
  }

  /** The URL the form opens for a shown result, if any. */
  function DownloadTarget(resultado: JObject): Option<string>
  {
    if Truthy(resultado, "pdfUrl") then Some(ApiUrl + resultado["pdfUrl"].s) else None
  }

  /** What the form sends is never refused: the document number it sends is
      already trimmed and not blank, and the agent gets both fields trimmed,
      so the date is used exactly when the form's date was not blank. */
  lemma FormRequestsAreAccepted(bachillerato: string, fechaNacimiento: string, answer: Result<Resultado>)
    requires Trim(bachillerato) != ""
    ensures !Blank(StringField(RequestBody(bachillerato, fechaNacimiento), "bachillerato"))
    ensures var call := ConsultarBachillerato(RequestBody(bachillerato, fechaNacimiento), answer).call;
            && call == Some(Call(Trim(bachillerato), Some(Trim(fechaNacimiento))))
            && (DateGiven(call.value.fechaNacimiento) <==> Trim(fechaNacimiento) != "")
  {
    TrimIdempotent(bachillerato);
    TrimIdempotent(fechaNacimiento);
  }

  /** Within the timer the proxy hands the form the controller's response. */
  lemma ProxyPassesControllerResponse(request: JObject, answer: Result<Resultado>, env: Option<string>, elapsedMs: nat)
    requires elapsedMs < AbortAfterMs
    ensures Roundtrip(request, answer, env, elapsedMs) == ConsultarBachillerato(request, answer).response
  {
    var backend := ConsultarBachillerato(request, answer).response;
    AnswerPassesThrough(env, request, elapsedMs, backend.status, backend.body);
  }

  /** The form's download target for a shown result record: the API prefix
      and the record's PDF URL, when it has a non-empty one. */
  lemma DownloadTargetOfRecord(data: JObject, r: Resultado)
    requires FromJson(data) == Some(r)
    ensures DownloadTarget(data) == if r.pdfUrl.Some? && r.pdfUrl.value != "" then Some(ApiUrl + r.pdfUrl.value) else None
  {
    assert StringField(data, "pdfUrl") == r.pdfUrl;
  }

  /** A successful lookup reaches the form as the same record, and the form
      offers a download exactly when the agent validated the document: it
      opens the PDF of the trimmed number through the API prefix. */
  lemma LookupReachesDownload(bachillerato: string, fechaNacimiento: string, env: Option<string>, elapsedMs: nat,
                              remote: RemotePage, run: BrowserRun, now: nat, isoNow: string)
    requires Trim(bachillerato) != "" && elapsedMs < AbortAfterMs
    requires Consult(remote, Trim(bachillerato), run, now, isoNow).Success?
    ensures var r := Consult(remote, Trim(bachillerato), run, now, isoNow).value;
            var outcome := ClientOutcome(Roundtrip(RequestBody(bachillerato, fechaNacimiento), Success(r), env, elapsedMs));
            && outcome.Resolved? && FromJson(outcome.data) == Some(r)
            && (DownloadTarget(outcome.data).Some? <==> Classify(ExtractedText(remote)) == Validado)
            && (DownloadTarget(outcome.data).Some? ==>
                  DownloadTarget(outcome.data).value == ApiUrl + PdfUrl(Trim(bachillerato), now))
  {
    var b := Trim(bachillerato);
    var request := RequestBody(bachillerato, fechaNacimiento);
    var r := Consult(remote, b, run, now, isoNow).value;
    FormRequestsAreAccepted(bachillerato, fechaNacimiento, Success(r));
    RecordReachesForm(request, r, env, elapsedMs);
    ResultRecord(remote, b, run, now, isoNow);
    ClassifyIgnoresTrim(ExtractedText(remote));
    assert PdfUrl(b, now)[0] == '/';
  }

  /** A result record for an accepted request reaches the form as the same
      record, with the download target its PDF URL gives. */
  lemma RecordReachesForm(request: JObject, r: Resultado, env: Option<string>, elapsedMs: nat)
    requires !Blank(StringField(request, "bachillerato")) && elapsedMs < AbortAfterMs
    ensures var outcome := ClientOutcome(Roundtrip(request, Success(r), env, elapsedMs));
            && outcome.Resolved? && FromJson(outcome.data) == Some(r)
            && DownloadTarget(outcome.data)
               == if r.pdfUrl.Some? && r.pdfUrl.value != "" then Some(ApiUrl + r.pdfUrl.value) else None
  {
    ProxyPassesControllerResponse(request, Success(r), env, elapsedMs);
    SuccessPassesThrough(request, r);
    var response := ConsultarBachillerato(request, Success(r)).response;
    assert ClientOutcome(response) == Resolved(response.body);
    DownloadTargetOfRecord(response.body, r);
  }

  /** An agent failure reaches the form as the server-problem message with
      the agent's error, prefix included, as its details. */
  lemma FailureReachesForm(bachillerato: string, fechaNacimiento: string, env: Option<string>, elapsedMs: nat,
                           cause: string)
    requires Trim(bachillerato) != "" && elapsedMs < AbortAfterMs
    ensures var outcome := ClientOutcome(Roundtrip(RequestBody(bachillerato, fechaNacimiento),
                                                   Failure(FailurePrefix + cause), env, elapsedMs));
            && outcome.Rejected?
            && ErrorMessage(outcome.err) == ErrorPrefix + ServerProblem + DetailsLabel + (FailurePrefix + cause)
  {
    var request := RequestBody(bachillerato, fechaNacimiento);
    var message := FailurePrefix + cause;
    ProxyPassesControllerResponse(request, Failure(message), env, elapsedMs);
    FormFailureResponse(bachillerato, fechaNacimiento, message);
    ServerErrorWithDetailsShown(ConsultarBachillerato(request, Failure(message)).response);
    assert ErrorMessage(ClientOutcome(Roundtrip(request, Failure(message), env, elapsedMs)).err) == ErrorPrefix + ServerProblem + DetailsLabel + message;
  }

  /** The controller's answer to a form request the agent failed on: 500
      with the agent's message as its details. */
  lemma FormFailureResponse(bachillerato: string, fechaNacimiento: string, message: string)
    requires Trim(bachillerato) != "" && message != ""
    ensures var response := ConsultarBachillerato(RequestBody(bachillerato, fechaNacimiento), Failure(message)).response;
            && response.status == 500 && Truthy(response.body, "detalhes") && response.body["detalhes"].s == message
  {
    var request := RequestBody(bachillerato, fechaNacimiento);
    FormRequestsAreAccepted(bachillerato, fechaNacimiento, Failure(message));
    FailureIs500(request, message);
  }

  /** A request the proxy aborts reaches the form as the proxy's timeout
      error, whatever the back end would have answered. */
  lemma TimeoutReachesForm(request: JObject, answer: Result<Resultado>, env: Option<string>, elapsedMs: nat)
    requires elapsedMs >= AbortAfterMs
    ensures var outcome := ClientOutcome(Roundtrip(request, answer, env, elapsedMs));
            && outcome.Rejected?
            && ErrorMessage(outcome.err) == "Timeout ao consultar bachillerato"
  {
    var backend := ConsultarBachillerato(request, answer).response;
    TimeoutIs504(env, request, Answered(elapsedMs, backend.status, Success(backend.body)));
    ServerErrorTextShown(Response(504, TimeoutBody()));
  }
}
