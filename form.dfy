/** The lookup form of the front end: the component state and the handlers
    that change it. The HTTP client is replaced by what the request came to,
    and opening a window by a log of the URLs opened. */
module Form {
  import opened Wrappers
  import opened Text
  import opened Json

  /** The path prefix of the front end's own API routes. */
  const ApiUrl: string := "/api"

  const BlankDocumentMessage: string := "Por favor, informe o número do documento"
  const ErrorPrefix: string := "Erro ao consultar bachillerato. "
  const ServerProblem: string := "O servidor encontrou um problema ao processar a consulta. "
  const DetailsLabel: string := "Detalhes: "
  const CheckData: string := "Por favor, verifique se os dados estão corretos e tente novamente."
  const NetworkMessage: string :=
    "Não foi possível conectar ao servidor. Verifique se o backend está rodando na porta 5000."
  const TryAgain: string := "Tente novamente em alguns instantes."

  /** An error of the HTTP client: the response when there was one, the
      error code and the message. */
  datatype ClientError = ClientError(response: Option<Response>, code: string, message: string)

  /** What a request came to: the data of a successful response, or the
      client's error. */
  datatype HttpOutcome = Resolved(data: JObject) | Rejected(err: ClientError)

  /** The HTTP client's reading of a response: a 2xx status resolves with the
      body; any other status rejects with the response attached. */
  function ClientOutcome(response: Response): HttpOutcome
  {
    if 200 <= response.status < 300 then Resolved(response.body)
    else
      Rejected(ClientError(Some(response), if response.status < 500 then "ERR_BAD_REQUEST" else "ERR_BAD_RESPONSE",
                           "Request failed with status code " + Decimal(response.status)))
  }

  /** The message shown for a failed request, in the order the handler tests
      the cases: a 500 from the server, then a network failure, then an
      `error` text from the server, then the generic advice. */
  function ErrorMessage(err: ClientError): string
  {
    if err.response.Some? && err.response.value.status == 500 then
      var data := err.response.value.body;
      ErrorPrefix + ServerProblem
      + (if Truthy(data, "detalhes") then DetailsLabel + data["detalhes"].s else CheckData)
    else if err.code == "ERR_NETWORK" || Contains(err.message, "Network Error") then
      NetworkMessage
    else if err.response.Some? && Truthy(err.response.value.body, "error") then
      err.response.value.body["error"].s
    else
      ErrorPrefix + TryAgain
  }

  /** The handler's composition of the message: starts from the prefix and
      appends to it or replaces it. */
  method ComposeErrorMessage(err: ClientError) returns (errorMessage: string)
    ensures errorMessage == ErrorMessage(err)
  {
    errorMessage := ErrorPrefix;
    if err.response.Some? && err.response.value.status == 500 {
      errorMessage := errorMessage + ServerProblem;
      if Truthy(err.response.value.body, "detalhes") {
        errorMessage := errorMessage + DetailsLabel + err.response.value.body["detalhes"].s;
      } else {
        errorMessage := errorMessage + CheckData;
      }
    } else if err.code == "ERR_NETWORK" || Contains(err.message, "Network Error") {
      errorMessage := NetworkMessage;
    } else if err.response.Some? && Truthy(err.response.value.body, "error") {
      errorMessage := err.response.value.body["error"].s;
    } else {
      errorMessage := errorMessage + TryAgain;
    }
  }

  /** The request body of a submission: both fields trimmed. */
  function RequestBody(bachillerato: string, fechaNacimiento: string): JObject
  {
    map["bachillerato" := JStr(Trim(bachillerato)), "fechaNacimiento" := JStr(Trim(fechaNacimiento))]
  }

  /** The lookup form. `posted` logs the request bodies sent to the lookup
      route, `openedUrls` the URLs opened in a new window. */
  class Home {
    var bachillerato: string
    var fechaNacimiento: string
    var loading: bool
    var resultado: Option<JObject>
    var error: Option<string>
    var posted: seq<JObject>
    var openedUrls: seq<string>

    /** The initial state: empty inputs, nothing loading or shown. */
    constructor ()
      ensures bachillerato == "" && fechaNacimiento == "" && !loading
      ensures resultado.None? && error.None? && posted == [] && openedUrls == []
    {
      bachillerato := "";
      fechaNacimiento := "";
      loading := false;
      resultado := None;
      error := None;
      posted := [];
      openedUrls := [];
    }

    /** The document input's change handler. */
    method ChangeBachillerato(value: string)
      modifies this`bachillerato
      ensures bachillerato == value
    {
      bachillerato := value;
    }

    /** The date input's change handler. */
    method ChangeFechaNacimiento(value: string)
      modifies this`fechaNacimiento
      ensures fechaNacimiento == value
    {
      fechaNacimiento := value;
    }

    /** The synchronous part of `handleSubmit`: a blank document number only
      sets the error; otherwise the form starts loading, clears what it
      showed and posts both fields trimmed. */
    method BeginSubmit() returns (request: Option<JObject>)
      modifies this`loading, this`error, this`resultado, this`posted
      ensures request.None? <==> Trim(bachillerato) == ""
      ensures request.None? ==>
                error == Some(BlankDocumentMessage)
                && loading == old(loading) && resultado == old(resultado) && posted == old(posted)
      ensures request.Some? ==>
                request.value == RequestBody(bachillerato, fechaNacimiento)
                && loading && error.None? && resultado.None? && posted == old(posted) + [request.value]
    {
      var documento := Trim(bachillerato);
      if documento == "" {
        error := Some(BlankDocumentMessage);
        return None;
      }
      loading := true;
      error := None;
      resultado := None;
      var body := RequestBody(bachillerato, fechaNacimiento);
      posted := posted + [body];
      request := Some(body);
    }

    /** The rest of `handleSubmit` once the request came back: the data is
      shown, or the composed error message; loading stops either way. */
    method FinishSubmit(outcome: HttpOutcome)
      modifies this`loading, this`error, this`resultado
      ensures !loading
      ensures outcome.Resolved? ==> resultado == Some(outcome.data) && error == old(error)
      ensures outcome.Rejected? ==> error == Some(ErrorMessage(outcome.err)) && resultado == old(resultado)
    {
      match outcome {
        case Resolved(data) =>
          resultado := Some(data);
        case Rejected(err) =>
          var errorMessage := ComposeErrorMessage(err);
          error := Some(errorMessage);
      }
      loading := false;
    }

    /** `handleSubmit` from start to end, with `outcome` what the request
      came to. A completed submission shows exactly one of the data and an
      error, and never leaves the form loading. */
    method HandleSubmit(outcome: HttpOutcome) returns (request: Option<JObject>)
      modifies this`loading, this`error, this`resultado, this`posted
      ensures request.None? <==> Trim(bachillerato) == ""
      ensures request.None? ==> error == Some(BlankDocumentMessage) && resultado == old(resultado)
                                && loading == old(loading) && posted == old(posted)
      ensures request.Some? ==>
                request.value == RequestBody(bachillerato, fechaNacimiento)
                && posted == old(posted) + [request.value] && !loading
                && (resultado.Some? <==> error.None?)
                && (outcome.Resolved? ==> resultado == Some(outcome.data))
                && (outcome.Rejected? ==> error == Some(ErrorMessage(outcome.err)))
    {
      request := BeginSubmit();
      if request.Some? {
        FinishSubmit(outcome);
      }
    }

    /** `resetForm`: clears both inputs and what the form showed; loading is
      left as it was. */
    method ResetForm()
      modifies this`bachillerato, this`fechaNacimiento, this`resultado, this`error
      ensures bachillerato == "" && fechaNacimiento == ""
      ensures resultado.None? && error.None?
    {
      bachillerato := "";
      fechaNacimiento := "";
      resultado := None;
      error := None;
    }

    /** `handleDownloadPDF`: opens the PDF through the API prefix when the
      shown result has a PDF URL; otherwise does nothing. */
    method HandleDownloadPDF()
      modifies this`openedUrls
      ensures resultado.Some? && Truthy(resultado.value, "pdfUrl") ==>
                openedUrls == old(openedUrls) + [ApiUrl + resultado.value["pdfUrl"].s]
      ensures !(resultado.Some? && Truthy(resultado.value, "pdfUrl")) ==> openedUrls == old(openedUrls)
    {
      if resultado.Some? && Truthy(resultado.value, "pdfUrl") {
        var pdfFullUrl := ApiUrl + resultado.value["pdfUrl"].s;
        openedUrls := openedUrls + [pdfFullUrl];
      }
    }
  }

  // ---------------------------------------------------------------------------
  // The error message
  // ---------------------------------------------------------------------------

  /** A 500 from the server is checked first: the message keeps the prefix and
      the server-problem text, then the server's details when it sent any,
      otherwise the advice to check the data; network and error texts are
      not consulted. */
  lemma ServerErrorComesFirst(err: ClientError)
    requires err.response.Some? && err.response.value.status == 500
    ensures var m := ErrorMessage(err);
            var head := ErrorPrefix + ServerProblem;
            && |head| < |m| && m[..|head|] == head
            && (Truthy(err.response.value.body, "detalhes") ==>
                  m[|head|..] == DetailsLabel + err.response.value.body["detalhes"].s)
            && (!Truthy(err.response.value.body, "detalhes") ==> m[|head|..] == CheckData)
  {
    var m := ErrorMessage(err);
    var head := ErrorPrefix + ServerProblem;
    var tail := if Truthy(err.response.value.body, "detalhes")
                then DetailsLabel + err.response.value.body["detalhes"].s else CheckData;
    assert m == head + tail;
  }

  /** A 500 whose body carries details is shown as the server-problem message
      with those details. */
  lemma ServerErrorWithDetailsShown(response: Response)
    requires response.status == 500 && Truthy(response.body, "detalhes")
    ensures ClientOutcome(response).Rejected?
    ensures ErrorMessage(ClientOutcome(response).err)
            == ErrorPrefix + ServerProblem + DetailsLabel + response.body["detalhes"].s
  {
    var err := ClientOutcome(response).err;
    assert err.response == Some(response);
  }

  /** Short of a 500, a network failure replaces the whole message with the
      connection text, even when the server sent an error text. */
  lemma NetworkFailureReplacesMessage(err: ClientError)
    requires !(err.response.Some? && err.response.value.status == 500)
    requires err.code == "ERR_NETWORK" || Contains(err.message, "Network Error")
    ensures ErrorMessage(err) == NetworkMessage
  {
  }

  /** Short of a 500 or a network failure, the server's `error` text is shown
      as it is, and otherwise the prefix with the generic advice. */
  lemma ServerTextOrAdvice(err: ClientError)
    requires !(err.response.Some? && err.response.value.status == 500)
    requires err.code != "ERR_NETWORK" && !Contains(err.message, "Network Error")
    ensures err.response.Some? && Truthy(err.response.value.body, "error") ==>
              ErrorMessage(err) == err.response.value.body["error"].s
    ensures !(err.response.Some? && Truthy(err.response.value.body, "error")) ==>
              ErrorMessage(err) == ErrorPrefix + TryAgain
  {
  }

  /** The client's message for a rejected status never mentions a network
      error: it has no capital `N`. */
  lemma StatusMessageIsNotNetwork(status: nat)
    ensures !Contains("Request failed with status code " + Decimal(status), "Network Error")
  {
    var m := "Request failed with status code " + Decimal(status);
    if Contains(m, "Network Error") {
      ContainsFirstLetter(m, "Network Error");
      var k :| 0 <= k < |m| && m[k] == 'N';
      CapitalNAbsent(status, k);
      assert false;
    }
  }

  /** No character of that message is a capital `N`. */
  lemma CapitalNAbsent(status: nat, k: int)
    requires 0 <= k < |"Request failed with status code " + Decimal(status)|
    ensures ("Request failed with status code " + Decimal(status))[k] != 'N'
  {
    var prefix := "Request failed with status code ";
    if k >= |prefix| {
      assert (prefix + Decimal(status))[k] == Decimal(status)[k - |prefix|];
    }
  }

  /** A rejected status other than 500 whose body carries an `error` text is
      shown as that text. */
  lemma ServerErrorTextShown(response: Response)
    requires !(200 <= response.status < 300) && response.status != 500
    requires Truthy(response.body, "error")
    ensures ClientOutcome(response).Rejected?
    ensures ErrorMessage(ClientOutcome(response).err) == response.body["error"].s
  {
    var err := ClientOutcome(response).err;
    StatusMessageIsNotNetwork(response.status);
    assert err.response == Some(response) && err.message == "Request failed with status code " + Decimal(response.status);
    ServerTextOrAdvice(err);
  }

  /** A failed submission always shows some message. */
  lemma ErrorMessageNotEmpty(err: ClientError)
    ensures ErrorMessage(err) != ""
  {
    var m := ErrorMessage(err);
    if err.response.Some? && err.response.value.status == 500 {
      ServerErrorComesFirst(err);
    } else if !(err.code == "ERR_NETWORK" || Contains(err.message, "Network Error")) {
      if !(err.response.Some? && Truthy(err.response.value.body, "error")) {
        assert |m| == |ErrorPrefix| + |TryAgain|;
      }
    }
  }

  /** The client resolves exactly on a 2xx status, and a rejection carries
      the response it got. */
  lemma ClientOutcomeResolvesOn2xx(response: Response)
    ensures ClientOutcome(response).Resolved? <==> 200 <= response.status < 300
    ensures ClientOutcome(response).Resolved? ==> ClientOutcome(response).data == response.body
    ensures ClientOutcome(response).Rejected? ==>
              ClientOutcome(response).err.response == Some(response)
              && ClientOutcome(response).err.code != "ERR_NETWORK"
  {
  }
}
